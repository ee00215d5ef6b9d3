/** The end reason of the last range of a pass over sessions, and what becomes of it when the sessions that start by
    a cutoff are put in another order, as pruning does: whether their last range shows the same reason, and whether a
    later session takes that range over. Here both are statements about two passes; CoverageReasons says what they
    mean for queries of a pruned table, and shows that recorders never write a table in which a reason changes. */
module LatestReasons {
  import opened Sessions
  import opened CoverageRanges
  import opened CoverageFold
  import opened CoverageReport
  import opened CoverageWindow
  import opened CoverageQueries
  import opened PrunedPasses

  // ----- the reason of the last range -----

  /** The first of the sessions that end last. */
  function Latest(xs: seq<Session>): (r: Session)
    requires xs != []
    ensures r in xs && forall s :: s in xs ==> s.end <= r.end
  {
    if |xs| == 1 then xs[0]
    else
      var l, x := Latest(xs[..|xs| - 1]), xs[|xs| - 1];
      assert xs == xs[..|xs| - 1] + [x];
      if l.end < x.end then x else l
  }

  lemma LatestFurther(xs: seq<Session>, x: Session)
    requires xs != []
    ensures Latest(xs + [x]) == if Latest(xs).end < x.end then x else Latest(xs)
  {
    assert (xs + [x])[..|xs|] == xs;
  }

  /** One more session gives the last range its reason exactly when it ends later. */
  lemma StepReason(a: Acc, x: Session, bound: int, ttl: int)
    requires AccOk(a, bound) && a.out != [] && WellFormed(x) && bound <= x.start
    ensures var out := Step(a, x, ttl).out;
            out != [] &&
            out[|out| - 1].endReason == if a.prevEnd < x.end then x.endReason else a.out[|a.out| - 1].endReason
  {
  }

  lemma StepKeepsLast(a: Acc, done: seq<Session>, x: Session, bound: int, ttl: int)
    requires done != [] && LastIs(a, Latest(done), bound) && WellFormed(x) && bound <= x.start
    ensures LastIs(Step(a, x, ttl), Latest(done + [x]), x.start)
  {
    LatestFurther(done, x);
    StepOk(a, bound, x, ttl);
    StepReason(a, x, bound, ttl);
  }

  lemma {:induction false} FoldKeepsLast(a: Acc, done: seq<Session>, bound: int, xs: seq<Session>, ttl: int)
    returns (l: Session)
    requires done != [] && LastIs(a, Latest(done), bound)
    requires AllWellFormed(xs) && SortedByStart(xs) && (xs != [] ==> bound <= xs[0].start)
    ensures l == Latest(done + xs) && LastRange(Fold(a, xs, ttl), l)
    decreases |xs|
  {
    if xs == [] {
      assert done + xs == done;
      l := Latest(done);
    } else {
      TailOk(xs);
      StepKeepsLast(a, done, xs[0], bound, ttl);
      assert done + [xs[0]] + xs[1..] == done + xs;
      l := FoldKeepsLast(Step(a, xs[0], ttl), done + [xs[0]], xs[0].start, xs[1..], ttl);
    }
  }

  /** The last range of a pass ends, and gives its reason, like the latest session. */
  lemma LastRangeIsLatest(xs: seq<Session>, ttl: int)
    requires AllWellFormed(xs) && SortedByStart(xs) && xs != []
    ensures LastRange(Fold(START, xs, ttl), Latest(xs))
  {
    var x := xs[0];
    TailOk(xs);
    StepOk(START, x.start, x, ttl);
    assert Latest([x]) == x;
    var l := FoldKeepsLast(Step(START, x, ttl), [x], x.start, xs[1..], ttl);
  }

  predicate LastRange(a: Acc, l: Session) {
    a.out != [] && a.prevEnd == l.end && a.out[|a.out| - 1].endReason == l.endReason
  }

  /** The pass ends with a range that ends, and gives its reason, like l. */
  predicate LastIs(a: Acc, l: Session, bound: int) {
    LastRange(a, l) && AccOk(a, bound)
  }

  // ----- a later session takes over -----

  /** Of the later sessions, the first that ends after end joins the range that ends there. */
  predicate Overtaken(late: seq<Session>, end: int, ttl: int) {
    late != [] &&
    if late[0].end > end then Credit(late[0], ttl, end).start <= end + GAP_TOLERANCE else Overtaken(late[1..], end, ttl)
  }

  /** Two passes that agree on ends agree on reasons from then on. */
  lemma {:induction false} OvertakenAgree(a: Acc, b: Acc, bound: int, late: seq<Session>, ttl: int, cutoff: int)
    requires Sim(a, b, Slack(cutoff, cutoff, cutoff + GAP_TOLERANCE, false)) && |b.out| == 1
    requires AccOk(a, bound) && AccOk(b, bound) && AllWellFormed(late) && SortedByStart(late)
    requires forall i :: 0 <= i < |late| ==> bound <= late[i].start && cutoff <= late[i].end
    requires Overtaken(late, b.prevEnd, ttl)
    ensures Sim(Fold(a, late, ttl), Fold(b, late, ttl), Slack(cutoff, cutoff, cutoff + GAP_TOLERANCE, true))
    decreases |late|
  {
    var x, rest := late[0], late[1..];
    var k := Slack(cutoff, cutoff, cutoff + GAP_TOLERANCE, false);
    SimNextKept(a, b, bound, x, ttl, k);
    StepOk(a, bound, x, ttl);
    StepOk(b, bound, x, ttl);
    TailOk(late);
    var a', b' := Step(a, x, ttl), Step(b, x, ttl);
    assert rest != [] ==> x.start <= rest[0].start;
    if x.end > b.prevEnd {
      OvertakingGivesReason(a, x, bound, ttl);
      OvertakingGivesReason(b, x, bound, ttl);
      assert b'.out[|b'.out| - 1] == b'.out[0];
      SingleWithReason(a', b', cutoff);
      LateAllKept(rest, cutoff);
      SimFold(a', b', x.start, rest, ttl, k.(reasons := true));
    } else {
      OvertakenAgree(a', b', x.start, rest, ttl, cutoff);
    }
  }

  lemma OvertakingGivesReason(a: Acc, x: Session, bound: int, ttl: int)
    requires AccOk(a, bound) && a.out != [] && x.end > a.prevEnd &&
             Credit(x, ttl, a.prevEnd).start <= a.prevEnd + GAP_TOLERANCE
    ensures var out := Step(a, x, ttl).out;
            |out| == |a.out| && out[|out| - 1].endReason == x.endReason && out[|out| - 1].end == x.end
  {
  }

  lemma SingleWithReason(a: Acc, b: Acc, cutoff: int)
    requires Sim(a, b, Slack(cutoff, cutoff, cutoff + GAP_TOLERANCE, false)) && |b.out| == 1
    requires a.out != [] && a.out[|a.out| - 1].endReason == b.out[0].endReason
    ensures Sim(a, b, Slack(cutoff, cutoff, cutoff + GAP_TOLERANCE, true))
  {
    var n := |a.out| - 1;
    assert a.out[n..] == [a.out[n]];
  }

  lemma {:induction false} LateAllKept(late: seq<Session>, cutoff: int)
    requires forall i :: 0 <= i < |late| ==> cutoff <= late[i].end
    ensures Keep(EndsFrom(cutoff), late) == late
  {
    forall s | s in late ensures EndsFrom(cutoff)(s) {
      var i :| 0 <= i < |late| && late[i] == s;
    }
    KeepAll(EndsFrom(cutoff), late);
  }

  /** Without that, the range stays as it is. */
  lemma {:induction false} NotOvertakenStays(a: Acc, i: nat, bound: int, late: seq<Session>, ttl: int)
    requires AccOk(a, bound) && AllWellFormed(late) && SortedByStart(late)
    requires forall j :: 0 <= j < |late| ==> bound <= late[j].start
    requires i < |a.out| && (i == |a.out| - 1 ==> !Overtaken(late, a.prevEnd, ttl))
    ensures var out := Fold(a, late, ttl).out;
            i < |out| && out[i].end == a.out[i].end && out[i].endReason == a.out[i].endReason && Separated(out)
    decreases |late|
  {
    if late != [] {
      var x := late[0];
      StepOk(a, bound, x, ttl);
      TailOk(late);
      NotOvertakenStays(Step(a, x, ttl), i, x.start, late[1..], ttl);
    }
  }

  lemma ClipFromEnd(out: seq<Session>, i: nat, until: int)
    requires Separated(out) && i < |out| && out[i].end <= until && !IsZero(out[i].end)
    ensures Clip(out, out[i].end, until) == [ClipOne(out[i], out[i].end, until)] + Clip(out[i + 1..], out[i].end, until)
  {
    var since := out[i].end;
    assert out == out[..i] + out[i..];
    ClipConcat(out[..i], out[i..], since, until);
    ClipInvisible(out[..i], since, until);
    assert out[i..][0] == out[i] && out[i..][1..] == out[i + 1..];
    assert Visible(out[i], since, until);
  }

  /** The gap after a range, in a window that begins at its end. */
  lemma FirstGapAfter(out: seq<Session>, i: nat)
    requires Separated(out) && i < |out| && !IsZero(out[i].end)
    ensures var until := out[i].end + GAP_TOLERANCE + 1;
            var gaps := Gaps(Clip(out, out[i].end, until), until);
            gaps != [] && gaps[0].reason == out[i].endReason
  {
    var until := out[i].end + GAP_TOLERANCE + 1;
    ClipFromEnd(out, i, until);
    if |Clip(out, out[i].end, until)| > 1 {
      InnerGapsAt(Clip(out, out[i].end, until), 0);
    }
  }

  // ----- the exact condition -----

  lemma {:induction false} PrunedOfSnoc(xs: seq<Session>, x: Session, cutoff: int)
    ensures PrunedSessions(xs + [x], cutoff) ==
            if x.end < cutoff then PrunedSessions(xs, cutoff) else PrunedSessions(xs, cutoff) + [Raised(x, cutoff)]
  {
    if xs == [] {
      assert xs + [x] == [x] && [x][1..] == [];
    } else {
      assert (xs + [x])[1..] == xs[1..] + [x] && (xs + [x])[0] == xs[0];
      PrunedOfSnoc(xs[1..], x, cutoff);
    }
  }

  /** Pruning keeps the latest session, if it is recent, up to its start. */
  lemma {:induction false} LatestOfPruned(xs: seq<Session>, cutoff: int)
    requires xs != []
    ensures var p := PrunedSessions(xs, cutoff);
            if Latest(xs).end < cutoff then p == []
            else p != [] && Latest(p).end == Latest(xs).end && Latest(p).endReason == Latest(xs).endReason
  {
    var init, x := xs[..|xs| - 1], xs[|xs| - 1];
    assert xs == init + [x];
    PrunedOfSnoc(init, x, cutoff);
    if init == [] {
      assert PrunedSessions(init, cutoff) == [];
    } else {
      LatestOfPruned(init, cutoff);
      LatestFurther(init, x);
      var p := PrunedSessions(init, cutoff);
      if p != [] {
        LatestFurther(p, Raised(x, cutoff));
      }
    }
  }

  lemma {:induction false} OldOfPruned(xs: seq<Session>, cutoff: int)
    requires AllWellFormed(xs)
    ensures Keep(StartsBy(cutoff), PrunedSessions(xs, cutoff)) == PrunedSessions(Keep(StartsBy(cutoff), xs), cutoff)
  {
    if xs != [] {
      OldOfPruned(xs[1..], cutoff);
      var kept := PrunedSessions(xs[1..], cutoff);
      assert ([Raised(xs[0], cutoff)] + kept)[1..] == kept;
      var early := Keep(StartsBy(cutoff), xs[1..]);
      assert ([xs[0]] + early)[1..] == early;
    }
  }

  /** The sessions that start by the cutoff, as the table has them. */
  function Old(xs: seq<Session>, cutoff: int): seq<Session> {
    Keep(StartsBy(cutoff), xs)
  }

  /** The latest of the old sessions, in start order and in table order, give the same reason; or it does not matter,
      because none of them is recent, or because a later session takes over. */
  predicate ReasonSurvives(xs: seq<Session>, cutoff: int, ttl: int) {
    var early := Old(xs, cutoff);
    early == [] || Latest(early).end < cutoff || Latest(StableSort(early)).endReason == Latest(early).endReason ||
    Overtaken(Keep(StartsAfter(cutoff), StableSort(xs)), Latest(early).end, ttl)
  }

  lemma OldInBothOrders(input: seq<Session>, cutoff: int)
    requires AllWellFormed(input) && AllWellFormed(PrunedSessions(input, cutoff))
    ensures Keep(StartsBy(cutoff), StableSort(input)) == StableSort(Old(input, cutoff))
    ensures Keep(StartsBy(cutoff), StableSort(PrunedSessions(input, cutoff))) ==
            PrunedSessions(Old(input, cutoff), cutoff)
  {
    var pruned := PrunedSessions(input, cutoff);
    SortCommutesWithKeep(StartsBy(cutoff), input);
    SortCommutesWithKeep(StartsBy(cutoff), pruned);
    OldOfPruned(input, cutoff);
    var kept := Keep(StartsBy(cutoff), pruned);
    KeepMembers(StartsBy(cutoff), pruned);
    PrunedMembers(input, cutoff);
    forall i, j | 0 <= i < j < |kept| ensures kept[i].start <= kept[j].start {
      assert kept[i] in kept && kept[j] in kept;
      assert kept[i] in pruned && kept[j] in pruned;
    }
    SortOfSorted(kept);
  }

  lemma SameLatest(xs: seq<Session>)
    requires xs != []
    ensures Latest(StableSort(xs)).end == Latest(xs).end
  {
    SortSameElements(xs);
    assert Latest(xs) in StableSort(xs) && Latest(StableSort(xs)) in xs;
  }

  /** Both passes over the old sessions, when some of those that are kept are recent. */
  lemma OldRanges(input: seq<Session>, cutoff: int, ttl: int)
    requires AllWellFormed(input) && AllWellFormed(PrunedSessions(input, cutoff))
    requires Old(input, cutoff) != [] && cutoff <= Latest(Old(input, cutoff)).end
    ensures var a := Fold(START, Keep(StartsBy(cutoff), StableSort(input)), ttl);
            var b := Fold(START, Keep(StartsBy(cutoff), StableSort(PrunedSessions(input, cutoff))), ttl);
            var early := Old(input, cutoff);
            Sim(a, b, Slack(cutoff, cutoff, cutoff + GAP_TOLERANCE, false)) && AccOk(a, cutoff) && AccOk(b, cutoff) &&
            |b.out| == 1 && a.out != [] && a.prevEnd == b.prevEnd == Latest(early).end &&
            a.out[|a.out| - 1].endReason == Latest(StableSort(early)).endReason &&
            b.out[0].endReason == Latest(early).endReason
  {
    var past := Keep(StartsBy(cutoff), StableSort(input));
    var kept := Keep(StartsBy(cutoff), StableSort(PrunedSessions(input, cutoff)));
    OldParts(input, cutoff);
    OldPartsAgree(past, kept, ttl, cutoff);
    OldInBothOrders(input, cutoff);
    LatestOfPruned(Old(input, cutoff), cutoff);
    SameLatest(Old(input, cutoff));
    LastRangeIsLatest(past, ttl);
    LastRangeIsLatest(kept, ttl);
    FoldOverlapping(START, kept, ttl, cutoff);
  }

  /** From old parts that agree but for the reason to the ends of the passes. */
  lemma LatePartsAgree(a: Acc, b: Acc, late: seq<Session>, ttl: int, cutoff: int)
    requires Sim(a, b, Slack(cutoff, cutoff, cutoff + GAP_TOLERANCE, false)) && AccOk(a, cutoff) && AccOk(b, cutoff)
    requires LateOk(late, cutoff) && |b.out| <= 1
    requires b.out != [] ==>
               a.out != [] &&
               (a.out[|a.out| - 1].endReason == b.out[0].endReason || Overtaken(late, b.prevEnd, ttl))
    ensures Sim(Fold(a, late, ttl), Fold(b, late, ttl), Slack(cutoff, cutoff, cutoff + GAP_TOLERANCE, true))
  {
    var k := Slack(cutoff, cutoff, cutoff + GAP_TOLERANCE, true);
    LateAllKept(late, cutoff);
    if b.out == [] {
      SimFold(a, b, cutoff, late, ttl, k);
    } else if a.out[|a.out| - 1].endReason == b.out[0].endReason {
      SingleWithReason(a, b, cutoff);
      SimFold(a, b, cutoff, late, ttl, k);
    } else {
      OvertakenAgree(a, b, cutoff, late, ttl, cutoff);
    }
  }

  predicate LateOk(late: seq<Session>, cutoff: int) {
    AllWellFormed(late) && SortedByStart(late) &&
    forall i :: 0 <= i < |late| ==> cutoff <= late[i].start && cutoff <= late[i].end
  }

  /** The passes are those over the old sessions, continued with the late ones. */
  lemma PassesSplit(input: seq<Session>, ttl: int, cutoff: int)
    requires AllWellFormed(input) && AllWellFormed(PrunedSessions(input, cutoff))
    ensures var xs, ys := StableSort(input), StableSort(PrunedSessions(input, cutoff));
            var late := Keep(StartsAfter(cutoff), xs);
            LateOk(late, cutoff) &&
            Fold(START, xs, ttl) == Fold(Fold(START, Keep(StartsBy(cutoff), xs), ttl), late, ttl) &&
            Fold(START, ys, ttl) == Fold(Fold(START, Keep(StartsBy(cutoff), ys), ttl), late, ttl)
  {
    var xs, ys := StableSort(input), StableSort(PrunedSessions(input, cutoff));
    var late := Keep(StartsAfter(cutoff), xs);
    SplitAtCutoff(input, cutoff);
    LateEnds(late, cutoff);
    FoldConcat(START, Keep(StartsBy(cutoff), xs), late, ttl);
    FoldConcat(START, Keep(StartsBy(cutoff), ys), late, ttl);
  }

  lemma NothingKept(input: seq<Session>, cutoff: int)
    requires AllWellFormed(input) && AllWellFormed(PrunedSessions(input, cutoff))
    requires Old(input, cutoff) == [] || Latest(Old(input, cutoff)).end < cutoff
    ensures Keep(StartsBy(cutoff), StableSort(PrunedSessions(input, cutoff))) == []
  {
    OldInBothOrders(input, cutoff);
    if Old(input, cutoff) != [] {
      LatestOfPruned(Old(input, cutoff), cutoff);
    }
  }

  lemma SurvivingPassesAgree(input: seq<Session>, ttl: int, cutoff: int)
    requires AllWellFormed(input) && AllWellFormed(PrunedSessions(input, cutoff)) && ReasonSurvives(input, cutoff, ttl)
    ensures Sim(Fold(START, StableSort(input), ttl), Fold(START, StableSort(PrunedSessions(input, cutoff)), ttl),
                Slack(cutoff, cutoff, cutoff + GAP_TOLERANCE, true))
  {
    var xs, ys := StableSort(input), StableSort(PrunedSessions(input, cutoff));
    var past, kept, late := Keep(StartsBy(cutoff), xs), Keep(StartsBy(cutoff), ys), Keep(StartsAfter(cutoff), xs);
    PassesSplit(input, ttl, cutoff);
    OldParts(input, cutoff);
    OldPartsAgree(past, kept, ttl, cutoff);
    if Old(input, cutoff) == [] || Latest(Old(input, cutoff)).end < cutoff {
      NothingKept(input, cutoff);
      assert Fold(START, kept, ttl).out == [];
    } else {
      OldRanges(input, cutoff, ttl);
    }
    LatePartsAgree(Fold(START, past, ttl), Fold(START, kept, ttl), late, ttl, cutoff);
  }

  lemma LateEnds(late: seq<Session>, cutoff: int)
    requires AllWellFormed(late) && forall i :: 0 <= i < |late| ==> cutoff < late[i].start
    ensures forall i :: 0 <= i < |late| ==> cutoff <= late[i].start && cutoff <= late[i].end
  {
    forall i | 0 <= i < |late| ensures cutoff <= late[i].end {
      assert WellFormed(late[i]);
    }
  }

  predicate FirstReason(gaps: seq<Gap>, reason: string) {
    gaps != [] && gaps[0].reason == reason
  }

  lemma RangeShowsReason(a: Acc, i: nat, late: seq<Session>, ttl: int, cutoff: int)
    requires AccOk(a, cutoff) && LateOk(late, cutoff) && i < |a.out| && ZERO_TIME < a.out[i].end
    requires i == |a.out| - 1 && !Overtaken(late, a.prevEnd, ttl)
    ensures var until := a.prevEnd + GAP_TOLERANCE + 1;
            FirstReason(Gaps(Clip(Fold(a, late, ttl).out, a.prevEnd, until), until), a.out[i].endReason)
  {
    NotOvertakenStays(a, i, cutoff, late, ttl);
    FirstGapAfter(Fold(a, late, ttl).out, i);
  }

  /** The pass ends with a range of old sessions with this end and this reason. */
  predicate EndsWith(a: Acc, cutoff: int, end: int, reason: string) {
    AccOk(a, cutoff) && a.out != [] && a.prevEnd == end && a.out[|a.out| - 1].endReason == reason
  }

  lemma OldRangesEnd(input: seq<Session>, cutoff: int, ttl: int)
    requires AllWellFormed(input) && AllWellFormed(PrunedSessions(input, cutoff))
    requires Old(input, cutoff) != [] && cutoff <= Latest(Old(input, cutoff)).end
    ensures var early := Old(input, cutoff);
            EndsWith(Fold(START, Keep(StartsBy(cutoff), StableSort(input)), ttl), cutoff, Latest(early).end,
                     Latest(StableSort(early)).endReason) &&
            EndsWith(Fold(START, Keep(StartsBy(cutoff), StableSort(PrunedSessions(input, cutoff))), ttl), cutoff,
                     Latest(early).end, Latest(early).endReason)
  {
    OldRanges(input, cutoff, ttl);
  }

  /** Otherwise the window that begins at the latest old end shows the gap after it, with the two reasons. */
  lemma LostBefore(input: seq<Session>, ttl: int, cutoff: int, since: int, reason: string)
    requires AllWellFormed(input) && AllWellFormed(PrunedSessions(input, cutoff)) && !ReasonSurvives(input, cutoff, ttl)
    requires since == Latest(Old(input, cutoff)).end && reason == Latest(StableSort(Old(input, cutoff))).endReason
    ensures FirstReason(Summarise(input, since, since + GAP_TOLERANCE + 1, ttl).gaps, reason)
  {
    var xs := StableSort(input);
    PassesSplit(input, ttl, cutoff);
    OldRangesEnd(input, cutoff, ttl);
    Shown(input, Fold(START, Keep(StartsBy(cutoff), xs), ttl), Keep(StartsAfter(cutoff), xs), ttl, cutoff, since,
          reason);
  }

  lemma LostAfter(input: seq<Session>, ttl: int, cutoff: int, since: int, reason: string)
    requires AllWellFormed(input) && AllWellFormed(PrunedSessions(input, cutoff)) && !ReasonSurvives(input, cutoff, ttl)
    requires since == Latest(Old(input, cutoff)).end && reason == Latest(Old(input, cutoff)).endReason
    ensures FirstReason(Summarise(PrunedSessions(input, cutoff), since, since + GAP_TOLERANCE + 1, ttl).gaps, reason)
  {
    var ys := StableSort(PrunedSessions(input, cutoff));
    PassesSplit(input, ttl, cutoff);
    OldRangesEnd(input, cutoff, ttl);
    Shown(PrunedSessions(input, cutoff), Fold(START, Keep(StartsBy(cutoff), ys), ttl),
          Keep(StartsAfter(cutoff), StableSort(input)), ttl, cutoff, since, reason);
  }

  lemma Shown(input: seq<Session>, a: Acc, late: seq<Session>, ttl: int, cutoff: int, since: int, reason: string)
    requires AllWellFormed(input) && Fold(START, StableSort(input), ttl) == Fold(a, late, ttl)
    requires EndsWith(a, cutoff, since, reason) && LateOk(late, cutoff) && !Overtaken(late, since, ttl)
    ensures FirstReason(Summarise(input, since, since + GAP_TOLERANCE + 1, ttl).gaps, reason)
  {
    LastRangeShows(a, late, ttl, cutoff, since, reason);
    SummaryOfFold(input, since, since + GAP_TOLERANCE + 1, ttl);
  }

  lemma LastRangeShows(a: Acc, late: seq<Session>, ttl: int, cutoff: int, since: int, reason: string)
    requires EndsWith(a, cutoff, since, reason) && LateOk(late, cutoff) && !Overtaken(late, since, ttl)
    ensures var until := since + GAP_TOLERANCE + 1;
            FirstReason(Gaps(Clip(Fold(a, late, ttl).out, since, until), until), reason)
  {
    RangeShowsReason(a, |a.out| - 1, late, ttl, cutoff);
  }

  lemma SummaryOfFold(input: seq<Session>, since: int, until: int, ttl: int)
    requires AllWellFormed(input)
    ensures Summarise(input, since, until, ttl).gaps ==
            Gaps(Clip(Fold(START, StableSort(input), ttl).out, since, until), until)
  {
    MergedEffectiveIsFold(input, ttl);
  }

  lemma SameFirstReason(gs: seq<Gap>, hs: seq<Gap>, reason: string)
    requires SameGaps(gs, hs, true) && FirstReason(gs, reason)
    ensures FirstReason(hs, reason)
  {
  }

  lemma OtherFirstReason(gs: seq<Gap>, hs: seq<Gap>, r: string, q: string)
    requires FirstReason(gs, r) && FirstReason(hs, q) && r != q
    ensures !SameGaps(gs, hs, true)
  {
  }

  lemma SameGapsThrough(a: seq<Gap>, b: seq<Gap>, c: seq<Gap>, d: seq<Gap>)
    requires SameGaps(a, c, true) && SameGaps(b, d, true) && SameGaps(a, b, true)
    ensures SameGaps(c, d, true)
  {
  }
}
