/** Leaving old or late sessions out of the computation: a simulation between two passes. */
module CoverageWindow {
  // One pass is over all sessions, the other over some of them: those of the windowed query, or those that pruning
  // leaves. The ranges of two such passes agree in number and in ends; a Slack bounds what may differ, the start of
  // the first range and the end reasons.

  import opened Sessions
  import opened CoverageRanges
  import opened CoverageFold
  import opened CoverageReport

  function EndsFrom(low: int): Session -> bool {
    (s: Session) => low <= s.end
  }

  /** How far the sessions that were left out can move the start of the first range. */
  datatype Slack = Slack(low: int, lo: int, hi: int, reasons: bool)

  predicate SlackOk(k: Slack) {
    k.low <= k.lo && k.low + GAP_TOLERANCE <= k.hi
  }

  /** Range lists that agree except, within the slack, on where the first range starts. */
  predicate Like(xs: seq<Session>, ys: seq<Session>, k: Slack) {
    |xs| == |ys| &&
    forall i :: 0 <= i < |xs| ==>
                  xs[i].end == ys[i].end && (k.reasons ==> xs[i].endReason == ys[i].endReason) &&
                  (xs[i].start == ys[i].start || (i == 0 && xs[i].start <= k.lo && ys[i].start <= k.hi))
  }

  predicate EndsBefore(xs: seq<Session>, low: int) {
    forall i :: 0 <= i < |xs| ==> xs[i].end < low
  }

  /** all is the pass over all sessions, kept the pass over those ending at k.low or later. */
  predicate Sim(all: Acc, kept: Acc, k: Slack) {
    if kept.out == [] then
      kept.prevEnd == ZERO_TIME && EndsBefore(all.out, k.low)
    else
      all.prevEnd == kept.prevEnd && k.low <= kept.prevEnd && |kept.out| <= |all.out| &&
      var n := |all.out| - |kept.out|;
      EndsBefore(all.out[..n], k.low) && Like(all.out[n..], kept.out, k)
  }

  /** Absorbing works on the last range only. */
  lemma AbsorbTail(out: seq<Session>, n: nat, x: Session)
    requires n < |out|
    ensures Absorb(out, x)[..n] == out[..n]
    ensures Absorb(out, x)[n..] == Absorb(out[n..], x)
  {
    assert out[n..][|out[n..]| - 1] == out[|out| - 1];
  }

  lemma LikeDropped(xs: seq<Session>, ys: seq<Session>, x: Session, k: Slack)
    requires xs != [] && Like(xs, ys, k)
    requires x.start <= x.end <= xs[|xs| - 1].end
    ensures Like(Absorb(xs, x), ys, k)
  {
  }

  lemma LikeKept(xs: seq<Session>, ys: seq<Session>, x: Session, k: Slack)
    requires xs != [] && Like(xs, ys, k)
    ensures Like(Absorb(xs, x), Absorb(ys, x), k)
  {
  }

  lemma EndsBeforeAbsorb(xs: seq<Session>, x: Session, low: int)
    requires EndsBefore(xs, low) && x.end < low
    ensures EndsBefore(Absorb(xs, x), low)
  {
  }

  /** A session that was left out changes nothing after the first kept one. */
  lemma SimDropped(all: Acc, kept: Acc, x: Session, ttl: int, k: Slack)
    requires Sim(all, kept, k) && WellFormed(x) && x.end < k.low
    requires all.out != [] ==> all.out[|all.out| - 1].end == all.prevEnd
    ensures Sim(Step(all, x, ttl), kept, k)
  {
    var eff := Credit(x, ttl, all.prevEnd);
    if kept.out == [] {
      EndsBeforeAbsorb(all.out, eff, k.low);
    } else {
      var n := |all.out| - |kept.out|;
      AbsorbTail(all.out, n, eff);
      LikeDropped(all.out[n..], kept.out, eff, k);
    }
  }

  /** The first kept session may lose a bound on its credit, or a range to join: either moves the start of the first
      range within the slack. */
  lemma SimFirstKept(all: Acc, kept: Acc, x: Session, ttl: int, k: Slack)
    requires SlackOk(k) && Sim(all, kept, k) && kept.out == []
    requires WellFormed(x) && k.low <= x.end
    requires if all.out == [] then all.prevEnd == ZERO_TIME
             else all.out[|all.out| - 1].end == all.prevEnd && all.out[|all.out| - 1].start <= all.prevEnd
    ensures Sim(Step(all, x, ttl), Step(kept, x, ttl), k)
  {
    var a, b := Step(all, x, ttl).out, Step(kept, x, ttl).out;
    var n := |a| - 1;
    assert b == [Credit(x, ttl, ZERO_TIME)];
    assert a[..n] == all.out[..n];
    assert all.prevEnd < k.low || all.prevEnd == ZERO_TIME;
    assert a[n..] == [a[n]];
    assert a[n].end == x.end && a[n].endReason == x.endReason;
  }

  lemma SimNextKept(all: Acc, kept: Acc, bound: int, x: Session, ttl: int, k: Slack)
    requires SlackOk(k) && Sim(all, kept, k) && kept.out != []
    requires AccOk(all, bound) && AccOk(kept, bound) && WellFormed(x) && bound <= x.start && k.low <= x.end
    ensures Sim(Step(all, x, ttl), Step(kept, x, ttl), k)
  {
    var n := |all.out| - |kept.out|;
    var eff := Credit(x, ttl, all.prevEnd);
    AbsorbTail(all.out, n, eff);
    LikeKept(all.out[n..], kept.out, eff, k);
    assert |Absorb(all.out, eff)| - n == |Absorb(kept.out, eff)|;
  }

  lemma SimKept(all: Acc, kept: Acc, bound: int, x: Session, ttl: int, k: Slack)
    requires SlackOk(k) && Sim(all, kept, k)
    requires AccOk(all, bound) && AccOk(kept, bound) && WellFormed(x) && bound <= x.start && k.low <= x.end
    ensures Sim(Step(all, x, ttl), Step(kept, x, ttl), k)
    ensures AccOk(Step(kept, x, ttl), x.start)
  {
    StepOk(kept, bound, x, ttl);
    if kept.out == [] {
      SimFirstKept(all, kept, x, ttl, k);
    } else {
      SimNextKept(all, kept, bound, x, ttl, k);
    }
  }

  lemma FoldKept(kept: Acc, x: Session, rest: seq<Session>, ttl: int, low: int)
    requires low <= x.end
    ensures Fold(kept, Keep(EndsFrom(low), [x] + rest), ttl) == Fold(Step(kept, x, ttl), Keep(EndsFrom(low), rest), ttl)
  {
    var keptRest := Keep(EndsFrom(low), rest);
    assert ([x] + rest)[1..] == rest && ([x] + keptRest)[1..] == keptRest;
  }

  lemma TailOk(xs: seq<Session>)
    requires AllWellFormed(xs) && SortedByStart(xs) && xs != []
    ensures AllWellFormed(xs[1..]) && SortedByStart(xs[1..]) && WellFormed(xs[0]) && xs == [xs[0]] + xs[1..]
    ensures xs[1..] != [] ==> xs[0].start <= xs[1..][0].start
  {
  }

  lemma FoldDropped(kept: Acc, x: Session, rest: seq<Session>, ttl: int, low: int)
    requires x.end < low
    ensures Fold(kept, Keep(EndsFrom(low), [x] + rest), ttl) == Fold(kept, Keep(EndsFrom(low), rest), ttl)
  {
    assert ([x] + rest)[1..] == rest;
  }

  lemma {:induction false} SimFold(all: Acc, kept: Acc, bound: int, xs: seq<Session>, ttl: int, k: Slack)
    requires SlackOk(k) && Sim(all, kept, k)
    requires AccOk(all, bound) && AccOk(kept, bound)
    requires AllWellFormed(xs) && SortedByStart(xs) && (xs != [] ==> bound <= xs[0].start)
    ensures Sim(Fold(all, xs, ttl), Fold(kept, Keep(EndsFrom(k.low), xs), ttl), k)
    decreases |xs|
  {
    if xs != [] {
      var x, rest := xs[0], xs[1..];
      var next := Step(all, x, ttl);
      TailOk(xs);
      StepOk(all, bound, x, ttl);
      if k.low <= x.end {
        SimKept(all, kept, bound, x, ttl, k);
        SimFold(next, Step(kept, x, ttl), x.start, rest, ttl, k);
        FoldKept(kept, x, rest, ttl, k.low);
      } else {
        SimDropped(all, kept, x, ttl, k);
        SimFold(next, kept, x.start, rest, ttl, k);
        FoldDropped(kept, x, rest, ttl, k.low);
      }
    }
  }

  /** Clipped to a window from since, the two passes differ at most in where the first range starts. */
  predicate SameButSince(xs: seq<Session>, ys: seq<Session>, since: int, k: Slack) {
    |xs| == |ys| &&
    (xs != [] ==>
       xs[0].end == ys[0].end && (k.reasons ==> xs[0].endReason == ys[0].endReason) &&
       Alike(xs[1..], ys[1..], k.reasons) &&
       (xs[0].start == ys[0].start || (xs[0].start == since && since <= ys[0].start <= k.hi)))
  }

  lemma ClipSim(all: Acc, kept: Acc, since: int, until: int, k: Slack)
    requires Sim(all, kept, k)
    requires !IsZero(since) && k.low <= since <= until && k.lo <= since && k.hi <= until
    ensures SameButSince(Clip(all.out, since, until), Clip(kept.out, since, until), since, k)
  {
    if kept.out == [] {
      ClipInvisible(all.out, since, until);
    } else {
      var n := |all.out| - |kept.out|;
      assert all.out == all.out[..n] + all.out[n..];
      ClipConcat(all.out[..n], all.out[n..], since, until);
      ClipInvisible(all.out[..n], since, until);
      ClipLike(all.out[n..], kept.out, since, until, k);
    }
  }

  lemma ClipLike(xs: seq<Session>, ys: seq<Session>, since: int, until: int, k: Slack)
    requires xs != [] && Like(xs, ys, k)
    requires !IsZero(since) && since <= until && k.lo <= since && k.hi <= until
    ensures SameButSince(Clip(xs, since, until), Clip(ys, since, until), since, k)
  {
    var ra, rb := Clip(xs[1..], since, until), Clip(ys[1..], since, until);
    ClipAlike(xs[1..], ys[1..], since, until, k.reasons);
    assert Visible(xs[0], since, until) <==> Visible(ys[0], since, until);
    assert ([ClipOne(xs[0], since, until)] + ra)[1..] == ra;
    assert ([ClipOne(ys[0], since, until)] + rb)[1..] == rb;
  }

  // ----- sessions that start after the window -----

  /** late is the pass after some more sessions whose effective start is after until. */
  predicate Beyond(acc: Acc, late: Acc, until: int) {
    |acc.out| <= |late.out| &&
    (forall i :: |acc.out| <= i < |late.out| ==> until < late.out[i].start) &&
    (acc.out != [] ==>
       var n := |acc.out| - 1;
       late.out[..n] == acc.out[..n] && late.out[n].start == acc.out[n].start &&
       (late.out[n] == acc.out[n] || (until < acc.out[n].end + GAP_TOLERANCE && acc.out[n].end <= late.out[n].end)))
  }

  lemma StepBeyond(acc: Acc, late: Acc, bound: int, x: Session, ttl: int, until: int)
    requires Beyond(acc, late, until)
    requires AccOk(late, bound) && WellFormed(x) && bound <= x.start && until + Max(ttl, 0) < x.start
    ensures Beyond(acc, Step(late, x, ttl), until)
  {
    var out := Step(late, x, ttl).out;
    assert until < Credit(x, ttl, late.prevEnd).start;
    if acc.out != [] {
      var n := |acc.out| - 1;
      assert out[..n] == late.out[..n];
    }
  }

  lemma {:induction false} FoldBeyond(acc: Acc, late: Acc, bound: int, xs: seq<Session>, ttl: int, until: int)
    requires Beyond(acc, late, until)
    requires AccOk(late, bound) && AllWellFormed(xs) && SortedByStart(xs) && (xs != [] ==> bound <= xs[0].start)
    requires forall i :: 0 <= i < |xs| ==> until + Max(ttl, 0) < xs[i].start
    ensures Beyond(acc, Fold(late, xs, ttl), until)
    decreases |xs|
  {
    if xs != [] {
      StepBeyond(acc, late, bound, xs[0], ttl, until);
      StepOk(late, bound, xs[0], ttl);
      FoldBeyond(acc, Step(late, xs[0], ttl), xs[0].start, xs[1..], ttl, until);
    }
  }

  lemma LateInvisible(acc: Acc, late: Acc, since: int, until: int)
    requires Beyond(acc, late, until)
    ensures Clip(late.out, since, until) == Clip(late.out[..|acc.out|], since, until)
  {
    var m := |acc.out|;
    assert late.out == late.out[..m] + late.out[m..];
    ClipConcat(late.out[..m], late.out[m..], since, until);
    ClipInvisible(late.out[m..], since, until);
    assert Clip(late.out[..m], since, until) + [] == Clip(late.out[..m], since, until);
  }

  /** Late sessions never change the gaps; they can only change the report when the window is shorter than
      GAP_TOLERANCE, by making a range just before it reach into it. */
  lemma ClipBeyond(acc: Acc, late: Acc, since: int, until: int)
    requires Beyond(acc, late, until) && Separated(acc.out)
    requires IsZero(since) || since <= until
    ensures var xs, ys := Clip(acc.out, since, until), Clip(late.out, since, until);
            SameGaps(Gaps(xs, until), Gaps(ys, until), true) &&
            (IsZero(since) || since + GAP_TOLERANCE <= until ==>
               (xs == [] <==> ys == []) && (xs != [] ==> xs[0].start == ys[0].start))
  {
    LateInvisible(acc, late, since, until);
    var m := |acc.out|;
    if m == 0 {
      assert late.out[..0] == acc.out;
    } else {
      var a, b := acc.out[m - 1], late.out[m - 1];
      assert acc.out == acc.out[..m - 1] + [a] && late.out[..m] == acc.out[..m - 1] + [b];
      if a == b {
        assert late.out[..m] == acc.out;
      } else {
        ClipLastLonger(acc.out[..m - 1], a, b, since, until);
      }
    }
  }

  lemma ClipLastLonger(front: seq<Session>, a: Session, b: Session, since: int, until: int)
    requires Separated(front + [a]) && (IsZero(since) || since <= until)
    requires a.start == b.start && a.end <= b.end && until < a.end + GAP_TOLERANCE
    ensures var xs, ys := Clip(front + [a], since, until), Clip(front + [b], since, until);
            SameGaps(Gaps(xs, until), Gaps(ys, until), true) &&
            (IsZero(since) || since + GAP_TOLERANCE <= until ==>
               (xs == [] <==> ys == []) && (xs != [] ==> xs[0].start == ys[0].start))
  {
    ClipConcat(front, [a], since, until);
    ClipConcat(front, [b], since, until);
    var c := Clip(front, since, until);
    ClipSingle(a, since, until);
    ClipSingle(b, since, until);
    if Visible(a, since, until) {
      GapsOfLonger(c, ClipOne(a, since, until), ClipOne(b, since, until), until);
    } else if a.start <= until {
      EarlierInvisible(front, a, since, until);
      assert c + [ClipOne(b, since, until)] == [ClipOne(b, since, until)];
    }
  }

  lemma ClipSingle(s: Session, since: int, until: int)
    ensures Clip([s], since, until) == if Visible(s, since, until) then [ClipOne(s, since, until)] else []
  {
    assert Clip([s][1..], since, until) == [];
  }

  lemma EarlierInvisible(front: seq<Session>, a: Session, since: int, until: int)
    requires Separated(front + [a]) && !Visible(a, since, until) && a.start <= until
    ensures Clip(front, since, until) == []
  {
    var xs := front + [a];
    forall i | 0 <= i < |front| ensures !Visible(front[i], since, until) {
      assert xs[i].end + GAP_TOLERANCE < xs[|front|].start;
    }
    ClipInvisible(front, since, until);
  }

  lemma GapsOfLonger(front: seq<Session>, a: Session, b: Session, until: int)
    requires a.start == b.start && until < a.end + GAP_TOLERANCE && until < b.end + GAP_TOLERANCE
    ensures SameGaps(Gaps(front + [a], until), Gaps(front + [b], until), true)
  {
    var xs, ys := front + [a], front + [b];
    forall i | 0 <= i < |front|
      ensures InnerGaps(xs)[i].from == InnerGaps(ys)[i].from && InnerGaps(xs)[i].to == InnerGaps(ys)[i].to
      ensures InnerGaps(xs)[i].reason == InnerGaps(ys)[i].reason
    {
      InnerGapsAt(xs, i);
      InnerGapsAt(ys, i);
    }
  }
}
