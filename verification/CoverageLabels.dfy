/** The scope and the backfilled flag of reported ranges: they are those of the rows of the range, and the windowed
    query reports the same labels exactly when the rows that it leaves out do not decide them. */
module CoverageLabels {
  import opened Sessions
  import opened CoverageRanges
  import opened CoverageFold
  import opened CoverageReport
  import opened CoverageWindow
  import opened CoverageStore
  import opened CoverageQueries

  // ----- the labels of a merged range -----

  function StartsIn(lo: int, hi: int): Session -> bool {
    (s: Session) => lo <= s.start <= hi
  }

  /** The sessions of a range, in start order. */
  function Part(xs: seq<Session>, r: Session): seq<Session> {
    Keep(StartsIn(r.start, r.end), xs)
  }

  predicate SomeBackfilled(xs: seq<Session>) {
    exists i :: 0 <= i < |xs| && xs[i].backfilled
  }

  /** The range has the scope of its first session, and is backfilled if any of its sessions is. */
  predicate LabelledBy(r: Session, part: seq<Session>) {
    part != [] && r.scope == part[0].scope && (r.backfilled <==> SomeBackfilled(part))
  }

  ghost predicate Labelled(out: seq<Session>, xs: seq<Session>) {
    forall i {:trigger LabelledBy(out[i], Part(xs, out[i]))} :: 0 <= i < |out| ==> LabelledBy(out[i], Part(xs, out[i]))
  }

  lemma KeepOfSnoc(p: Session -> bool, xs: seq<Session>, x: Session)
    ensures Keep(p, xs + [x]) == if p(x) then Keep(p, xs) + [x] else Keep(p, xs)
  {
    KeepConcat(p, xs, [x]);
    assert [x][1..] == [];
  }

  lemma {:induction false} KeepSame(p: Session -> bool, q: Session -> bool, xs: seq<Session>)
    requires forall s :: s in xs ==> p(s) == q(s)
    ensures Keep(p, xs) == Keep(q, xs)
  {
    if xs != [] {
      assert xs[0] in xs;
      KeepSame(p, q, xs[1..]);
    }
  }

  lemma SomeBackfilledFurther(xs: seq<Session>, x: Session)
    ensures SomeBackfilled(xs + [x]) <==> SomeBackfilled(xs) || x.backfilled
  {
    var more := xs + [x];
    if SomeBackfilled(xs) {
      var i :| 0 <= i < |xs| && xs[i].backfilled;
      assert more[i].backfilled;
    }
    assert more[|xs|] == x;
  }

  /** All sessions end by the end of the last range. */
  ghost predicate EndBy(xs: seq<Session>, end: int) {
    forall s :: s in xs ==> s.start <= s.end <= end
  }

  lemma PartWidened(xs: seq<Session>, x: Session, r: Session, wider: Session)
    requires EndBy(xs, r.end) && r.end <= wider.end && r.start == wider.start <= x.start <= wider.end
    ensures Part(xs + [x], wider) == Part(xs, r) + [x]
  {
    KeepSame(StartsIn(r.start, r.end), StartsIn(wider.start, wider.end), xs);
    KeepOfSnoc(StartsIn(wider.start, wider.end), xs, x);
  }

  lemma PartOfNew(xs: seq<Session>, x: Session, r: Session, end: int)
    requires EndBy(xs, end) && end < r.start <= x.start <= r.end
    ensures Part(xs + [x], r) == [x]
  {
    KeepNone(StartsIn(r.start, r.end), xs);
    KeepOfSnoc(StartsIn(r.start, r.end), xs, x);
    assert [] + [x] == [x];
  }

  lemma PartOfEarlier(xs: seq<Session>, x: Session, r: Session)
    requires r.end < x.start
    ensures Part(xs + [x], r) == Part(xs, r)
  {
    KeepOfSnoc(StartsIn(r.start, r.end), xs, x);
  }

  /** One step of the pass keeps the ranges labelled. */
  lemma StepLabelled(a: Acc, xs: seq<Session>, x: Session, bound: int, ttl: int)
    requires AccOk(a, bound) && WellFormed(x) && bound <= x.start && Labelled(a.out, xs) && EndBy(xs, a.prevEnd)
    requires a.out == [] ==> xs == []
    ensures Labelled(Step(a, x, ttl).out, xs + [x])
  {
    var out, eff := a.out, Credit(x, ttl, a.prevEnd);
    var more := Step(a, x, ttl).out;
    var n := |out| - 1;
    forall i | 0 <= i < |more| ensures LabelledBy(more[i], Part(xs + [x], more[i])) {
      if i < n || (i == n && !Joins(out[n], eff)) {
        assert more[i] == out[i] && LabelledBy(out[i], Part(xs, out[i]));
        assert i < n ==> out[i].end + GAP_TOLERANCE < out[n].start;
        assert i == n ==> out[n].end + GAP_TOLERANCE < eff.start <= x.start;
        PartOfEarlier(xs, x, out[i]);
      } else if i == n {
        assert more[n] == Join(out[n], eff) && LabelledBy(out[n], Part(xs, out[n]));
        PartWidened(xs, x, out[n], more[n]);
        SomeBackfilledFurther(Part(xs, out[n]), x);
      } else {
        assert more[i] == eff;
        if out == [] {
          PartOfNew(xs, x, eff, eff.start - 1);
        } else {
          PartOfNew(xs, x, eff, a.prevEnd);
        }
        assert [x][0] == x;
      }
    }
  }

  lemma StepEndBy(a: Acc, xs: seq<Session>, x: Session, ttl: int)
    requires EndBy(xs, a.prevEnd) && WellFormed(x)
    ensures EndBy(xs + [x], Step(a, x, ttl).prevEnd)
  {
  }

  /** The state of the pass over xs, with its ranges labelled. */
  ghost predicate LabelledPass(a: Acc, xs: seq<Session>, bound: int) {
    Labelled(a.out, xs) && EndBy(xs, a.prevEnd) && (a.out == [] ==> xs == []) && AccOk(a, bound)
  }

  lemma StepKeepsPass(a: Acc, xs: seq<Session>, x: Session, bound: int, ttl: int)
    requires LabelledPass(a, xs, bound) && WellFormed(x) && bound <= x.start
    ensures LabelledPass(Step(a, x, ttl), xs + [x], x.start)
  {
    StepOk(a, bound, x, ttl);
    StepLabelled(a, xs, x, bound, ttl);
    StepEndBy(a, xs, x, ttl);
  }

  lemma {:induction false} FoldLabelled(done: seq<Session>, a: Acc, bound: int, xs: seq<Session>, ttl: int)
    requires LabelledPass(a, done, bound) && AllWellFormed(xs) && SortedByStart(xs) &&
             (xs != [] ==> bound <= xs[0].start)
    ensures Labelled(Fold(a, xs, ttl).out, done + xs) && EndBy(done + xs, Fold(a, xs, ttl).prevEnd)
    decreases |xs|
  {
    if xs == [] {
      assert done + xs == done;
    } else {
      TailOk(xs);
      StepKeepsPass(a, done, xs[0], bound, ttl);
      assert done + [xs[0]] + xs[1..] == done + xs;
      FoldLabelled(done + [xs[0]], Step(a, xs[0], ttl), xs[0].start, xs[1..], ttl);
    }
  }

  lemma PassIsLabelled(xs: seq<Session>, ttl: int)
    requires AllWellFormed(xs) && SortedByStart(xs)
    ensures Labelled(Fold(START, xs, ttl).out, xs)
  {
    assert [] + xs == xs;
    FoldLabelled([], START, if xs == [] then 0 else xs[0].start, xs, ttl);
  }

  /** The scope and the backfilled flag of every merged range are those of its sessions. */
  lemma MergedRangesAreLabelled(input: seq<Session>, ttl: int)
    requires AllWellFormed(input)
    ensures Labelled(Merge(Effective(input, ttl)), StableSort(input))
  {
    SortKeepsWellFormed(input);
    MergedEffectiveIsFold(input, ttl);
    PassIsLabelled(StableSort(input), ttl);
  }

  // ----- where the sessions lie -----

  /** Every session lies inside a range. */
  predicate Inside(s: Session, r: Session) {
    r.start <= s.start && s.end <= r.end
  }

  predicate Enclosed(s: Session, out: seq<Session>) {
    exists i :: 0 <= i < |out| && Inside(s, out[i])
  }

  lemma StepEncloses(a: Acc, x: Session, s: Session, bound: int, ttl: int)
    requires AccOk(a, bound) && WellFormed(x) && bound <= x.start && (s == x || Enclosed(s, a.out))
    ensures Enclosed(s, Step(a, x, ttl).out)
  {
    var out, more, n := a.out, Step(a, x, ttl).out, |Step(a, x, ttl).out| - 1;
    if s == x {
      assert Inside(x, more[n]);
    } else {
      var i :| 0 <= i < |out| && Inside(s, out[i]);
      assert Inside(s, more[i]);
    }
  }

  lemma {:induction false} FoldEncloses(a: Acc, bound: int, xs: seq<Session>, s: Session, ttl: int)
    requires AccOk(a, bound) && AllWellFormed(xs) && SortedByStart(xs) && (xs != [] ==> bound <= xs[0].start)
    requires s in xs || Enclosed(s, a.out)
    ensures Enclosed(s, Fold(a, xs, ttl).out) && Separated(Fold(a, xs, ttl).out)
    decreases |xs|
  {
    if xs != [] {
      TailOk(xs);
      StepOk(a, bound, xs[0], ttl);
      if s == xs[0] || Enclosed(s, a.out) {
        StepEncloses(a, xs[0], s, bound, ttl);
      }
      FoldEncloses(Step(a, xs[0], ttl), xs[0].start, xs[1..], s, ttl);
    }
  }

  /** The first range starts no later than any session. */
  lemma {:induction false} FirstRangeStarts(a: Acc, bound: int, xs: seq<Session>, ttl: int)
    requires AccOk(a, bound) && AllWellFormed(xs) && SortedByStart(xs) && (xs != [] ==> bound <= xs[0].start)
    ensures a.out != [] ==> Fold(a, xs, ttl).out != [] && Fold(a, xs, ttl).out[0].start == a.out[0].start
    ensures a.out == [] && xs != [] ==> Fold(a, xs, ttl).out != [] && Fold(a, xs, ttl).out[0].start <= xs[0].start
    decreases |xs|
  {
    if xs != [] {
      TailOk(xs);
      StepOk(a, bound, xs[0], ttl);
      FirstRangeStarts(Step(a, xs[0], ttl), xs[0].start, xs[1..], ttl);
    }
  }

  // ----- the rows that the query leaves out -----

  /** The sessions of a range that end from low on decide its labels alone. */
  predicate LabelsSurvive(part: seq<Session>, low: int) {
    var kept := Keep(EndsFrom(low), part);
    part != [] && kept != [] && part[0].scope == kept[0].scope && (SomeBackfilled(part) <==> SomeBackfilled(kept))
  }

  predicate SameLabels(r: Session, q: Session) {
    r.scope == q.scope && (r.backfilled <==> q.backfilled)
  }

  lemma {:induction false} KeepBoth(p: Session -> bool, q: Session -> bool, xs: seq<Session>)
    ensures Keep(q, Keep(p, xs)) == Keep(p, Keep(q, xs))
  {
    if xs != [] {
      KeepBoth(p, q, xs[1..]);
    }
  }

  lemma {:induction false} SameWithin(p: Session -> bool, q: Session -> bool, xs: seq<Session>, f: Session -> bool)
    requires forall s :: s in xs && f(s) ==> p(s) == q(s)
    ensures Keep(f, Keep(p, xs)) == Keep(f, Keep(q, xs))
  {
    if xs != [] {
      assert xs[0] in xs;
      SameWithin(p, q, xs[1..], f);
    }
  }

  /** A kept session starts in a range of the pass over all sessions exactly when it starts in its counterpart. */
  lemma StartsInBoth(a: Acc, b: Acc, k: Slack, j: nat, s: Session)
    requires Sim(a, b, k) && j < |b.out| && Separated(a.out) && Enclosed(s, a.out)
    requires s.start <= s.end && k.low <= s.end && b.out[0].start <= s.start
    ensures var r, q := a.out[|a.out| - |b.out| + j], b.out[j];
            StartsIn(r.start, r.end)(s) == StartsIn(q.start, q.end)(s)
  {
    var n := |a.out| - |b.out|;
    var r, q := a.out[n + j], b.out[j];
    forall i | 0 <= i < n ensures a.out[i].end < k.low {
      assert a.out[..n][i] == a.out[i];
    }
    NotEarlier(a.out, n, k.low, s);
    assert a.out[n..][j] == r && r.end == q.end;
    assert r.start == q.start || j == 0;
  }

  lemma NotEarlier(out: seq<Session>, n: nat, low: int, s: Session)
    requires Separated(out) && Enclosed(s, out) && n < |out| && low <= s.end
    requires forall i :: 0 <= i < n ==> out[i].end < low
    ensures out[n].start <= s.start
  {
    var i :| 0 <= i < |out| && Inside(s, out[i]);
    assert n <= i;
    assert n < i ==> out[n].start <= out[n].end < out[i].start;
  }

  lemma PartsAgree(xs: seq<Session>, low: int, r: Session, q: Session)
    requires forall s :: s in xs && low <= s.end ==> StartsIn(r.start, r.end)(s) == StartsIn(q.start, q.end)(s)
    ensures Part(Keep(EndsFrom(low), xs), q) == Keep(EndsFrom(low), Part(xs, r))
  {
    KeepBoth(EndsFrom(low), StartsIn(q.start, q.end), xs);
    SameWithin(StartsIn(r.start, r.end), StartsIn(q.start, q.end), xs, EndsFrom(low));
  }

  /** The two passes of a query: over all sessions that start early enough, and over those that the query selects. */
  ghost predicate QueryPasses(xs: seq<Session>, since: int, ttl: int, a: Acc, b: Acc) {
    var low := since - ttl - GAP_TOLERANCE;
    AllWellFormed(xs) && SortedByStart(xs) && a == Fold(START, xs, ttl) &&
    b == Fold(START, Keep(EndsFrom(low), xs), ttl) &&
    Sim(a, b, Slack(low, since, since, true))
  }

  lemma CounterpartLabels(xs: seq<Session>, since: int, ttl: int, a: Acc, b: Acc, j: nat)
    requires QueryPasses(xs, since, ttl, a, b) && j < |b.out|
    ensures |b.out| <= |a.out|
    ensures var r := a.out[|a.out| - |b.out| + j];
            SameLabels(r, b.out[j]) <==> LabelsSurvive(Part(xs, r), since - ttl - GAP_TOLERANCE)
  {
    var low := since - ttl - GAP_TOLERANCE;
    var kept := Keep(EndsFrom(low), xs);
    var r, q := a.out[|a.out| - |b.out| + j], b.out[j];
    forall s | s in xs && low <= s.end ensures StartsIn(r.start, r.end)(s) == StartsIn(q.start, q.end)(s) {
      KeptSession(xs, low, s, ttl, a, b);
      StartsInBoth(a, b, Slack(low, since, since, true), j, s);
    }
    PartsAgree(xs, low, r, q);
    KeepSorted(EndsFrom(low), xs);
    PassIsLabelled(xs, ttl);
    PassIsLabelled(kept, ttl);
    assert LabelledBy(r, Part(xs, r)) && LabelledBy(q, Part(kept, q));
  }

  lemma KeptSession(xs: seq<Session>, low: int, s: Session, ttl: int, a: Acc, b: Acc)
    requires AllWellFormed(xs) && SortedByStart(xs) && s in xs && low <= s.end && b.out != []
    requires a == Fold(START, xs, ttl) && b == Fold(START, Keep(EndsFrom(low), xs), ttl)
    ensures Separated(a.out) && Enclosed(s, a.out) && s.start <= s.end && b.out[0].start <= s.start
  {
    var kept := Keep(EndsFrom(low), xs);
    KeepSorted(EndsFrom(low), xs);
    KeepMembers(EndsFrom(low), xs);
    FoldEncloses(START, xs[0].start, xs, s, ttl);
    assert s in kept;
    var i :| 0 <= i < |kept| && kept[i] == s;
    assert WellFormed(kept[i]) && (i > 0 ==> kept[0].start <= kept[i].start);
    FirstRangeStarts(START, kept[0].start, kept, ttl);
  }

  /** Ranges that agree but for labels are clipped to the same ranges exactly when those that show agree on labels
      too. */
  lemma {:induction false} ClipEqualIff(rs: seq<Session>, qs: seq<Session>, since: int, until: int, k: Slack)
    requires Like(rs, qs, k) && k.reasons && !IsZero(since) && k.lo <= since && k.hi <= since <= until
    ensures Clip(rs, since, until) == Clip(qs, since, until) <==>
            forall i :: 0 <= i < |rs| && Visible(rs[i], since, until) ==> SameLabels(rs[i], qs[i])
  {
    if rs != [] {
      ClipEqualIff(rs[1..], qs[1..], since, until, k);
      assert Visible(rs[0], since, until) == Visible(qs[0], since, until);
      ClipConsEqual(rs, qs, since, until);
      assert forall i :: 0 <= i < |rs[1..]| ==> rs[1..][i] == rs[i + 1] && qs[1..][i] == qs[i + 1];
      TailLabels(rs, qs, since, until);
    }
  }

  ghost predicate VisibleAgree(rs: seq<Session>, qs: seq<Session>, since: int, until: int)
    requires |rs| == |qs|
  {
    forall i :: 0 <= i < |rs| && Visible(rs[i], since, until) ==> SameLabels(rs[i], qs[i])
  }

  lemma TailLabels(rs: seq<Session>, qs: seq<Session>, since: int, until: int)
    requires |rs| == |qs| > 0
    ensures VisibleAgree(rs, qs, since, until) <==>
            (Visible(rs[0], since, until) ==> SameLabels(rs[0], qs[0])) && VisibleAgree(rs[1..], qs[1..], since, until)
  {
    if VisibleAgree(rs, qs, since, until) {
      forall i | 0 <= i < |rs[1..]| && Visible(rs[1..][i], since, until) ensures SameLabels(rs[1..][i], qs[1..][i]) {
        assert rs[1..][i] == rs[i + 1] && qs[1..][i] == qs[i + 1];
      }
    }
    if VisibleAgree(rs[1..], qs[1..], since, until) {
      forall i | 0 < i < |rs| && Visible(rs[i], since, until) ensures SameLabels(rs[i], qs[i]) {
        assert rs[1..][i - 1] == rs[i] && qs[1..][i - 1] == qs[i];
      }
    }
  }

  lemma ClipConsEqual(rs: seq<Session>, qs: seq<Session>, since: int, until: int)
    requires |rs| == |qs| > 0 && Visible(rs[0], since, until) == Visible(qs[0], since, until)
    ensures Clip(rs, since, until) == Clip(qs, since, until) <==>
            (Visible(rs[0], since, until) ==> ClipOne(rs[0], since, until) == ClipOne(qs[0], since, until)) &&
            Clip(rs[1..], since, until) == Clip(qs[1..], since, until)
  {
    if Visible(rs[0], since, until) {
      var x, y := ClipOne(rs[0], since, until), ClipOne(qs[0], since, until);
      var a, b := Clip(rs[1..], since, until), Clip(qs[1..], since, until);
      assert ([x] + a)[0] == x && ([y] + b)[0] == y && ([x] + a)[1..] == a && ([y] + b)[1..] == b;
    }
  }

  lemma PassesClipEqualIff(xs: seq<Session>, since: int, until: int, ttl: int, a: Acc, b: Acc)
    requires QueryPasses(xs, since, ttl, a, b) && !IsZero(since) && since <= until && 0 <= ttl
    ensures Clip(a.out, since, until) == Clip(b.out, since, until) <==> AllSurvive(xs, a.out, since, until, ttl)
  {
    if b.out == [] {
      ClipInvisible(a.out, since, until);
    } else {
      var n := |a.out| - |b.out|;
      ShownRangesOnly(a, b, since, until, ttl);
      forall j | 0 <= j < |b.out| ensures SameLabels(a.out[n..][j], b.out[j]) <==>
                                          LabelsSurvive(Part(xs, a.out[n..][j]), since - ttl - GAP_TOLERANCE) {
        CounterpartLabels(xs, since, ttl, a, b, j);
      }
      ClipEqualIff(a.out[n..], b.out, since, until, Slack(since - ttl - GAP_TOLERANCE, since, since, true));
      AllSurviveFrom(xs, a.out, n, since, until, ttl);
    }
  }

  lemma ShownRangesOnly(a: Acc, b: Acc, since: int, until: int, ttl: int)
    requires Sim(a, b, Slack(since - ttl - GAP_TOLERANCE, since, since, true)) && b.out != [] && !IsZero(since) &&
             0 <= ttl
    ensures var n := |a.out| - |b.out|;
            0 <= n && Clip(a.out, since, until) == Clip(a.out[n..], since, until) &&
            forall i :: 0 <= i < n ==> !Visible(a.out[i], since, until)
  {
    var n := |a.out| - |b.out|;
    assert a.out == a.out[..n] + a.out[n..];
    forall i | 0 <= i < n ensures !Visible(a.out[i], since, until) {
      assert a.out[..n][i] == a.out[i];
    }
    ClipConcat(a.out[..n], a.out[n..], since, until);
    ClipInvisible(a.out[..n], since, until);
  }

  /** Every range that shows keeps its labels without the rows that end too early. */
  ghost predicate AllSurvive(xs: seq<Session>, ranges: seq<Session>, since: int, until: int, ttl: int) {
    forall i {:trigger ranges[i]} :: 0 <= i < |ranges| && Visible(ranges[i], since, until) ==>
      LabelsSurvive(Part(xs, ranges[i]), since - ttl - GAP_TOLERANCE)
  }

  lemma AllSurviveFrom(xs: seq<Session>, ranges: seq<Session>, n: nat, since: int, until: int, ttl: int)
    requires n <= |ranges| && forall i :: 0 <= i < n ==> !Visible(ranges[i], since, until)
    ensures AllSurvive(xs, ranges, since, until, ttl) <==> AllSurvive(xs, ranges[n..], since, until, ttl)
  {
    if AllSurvive(xs, ranges[n..], since, until, ttl) {
      forall i | 0 <= i < |ranges| && Visible(ranges[i], since, until)
        ensures LabelsSurvive(Part(xs, ranges[i]), since - ttl - GAP_TOLERANCE)
      {
        assert i >= n && ranges[n..][i - n] == ranges[i];
      }
    }
  }

  ghost predicate NoneLate(xs: seq<Session>, until: int, ttl: int) {
    forall s :: s in xs ==> s.start <= until + ttl
  }

  lemma QueryPassesHold(input: seq<Session>, since: int, until: int, ttl: int)
    requires AllWellFormed(input) && NoneLate(input, until, ttl) && 0 <= ttl
    ensures var xs := StableSort(input);
            var low := since - ttl - GAP_TOLERANCE;
            QueryPasses(xs, since, ttl, Fold(START, xs, ttl), Fold(START, Keep(EndsFrom(low), xs), ttl))
  {
    SortKeepsWellFormed(input);
    EarlyEndersOnlyPrecede(StableSort(input), since, ttl);
  }

  /** The sorted sessions of the query, when no row starts late. */
  lemma SelectedInOrder(rows: seq<Row>, key: string, since: int, until: int, ttl: int)
    requires RowsOk(rows) && NoneLate(SessionsOf(rows, key), until, ttl) && !IsZero(since)
    ensures StableSort(Select(rows, key, since, until, ttl)) ==
            Keep(EndsFrom(since - ttl - GAP_TOLERANCE), StableSort(SessionsOf(rows, key)))
  {
    var input := SessionsOf(rows, key);
    SelectIsFilter(rows, key, since, until, ttl);
    KeepAll(StartsBy(until + ttl), input);
    SortCommutesWithKeep(EndsFrom(since - ttl - GAP_TOLERANCE), input);
  }

  lemma SessionsOfFold(input: seq<Session>, since: int, until: int, ttl: int)
    requires AllWellFormed(input)
    ensures Merge(Effective(input, ttl)) == Fold(START, StableSort(input), ttl).out
    ensures Summarise(input, since, until, ttl).sessions == Clip(Fold(START, StableSort(input), ttl).out, since, until)
  {
    MergedEffectiveIsFold(input, ttl);
  }

  /** When no row starts late, the query reports the same ranges as the whole table, in every field, exactly when
      every range that shows keeps its labels: its first row in start order, or the first one selected, give the same
      scope, and if any of its rows is backfilled, so is a selected one. */
  lemma QueryKeepsLabelsIff(rows: seq<Row>, key: string, since: int, until: int, ttl: int)
    requires RowsOk(rows) && !IsZero(since) && since <= until
    requires NoneLate(SessionsOf(rows, key), until, Max(ttl, 0))
    ensures var credit, input := Max(ttl, 0), SessionsOf(rows, key);
            Summarise(input, since, until, credit).sessions == Query(rows, key, since, until, ttl).sessions <==>
            AllSurvive(StableSort(input), Merge(Effective(input, credit)), since, until, credit)
  {
    var credit, input := Max(ttl, 0), SessionsOf(rows, key);
    SessionsOfOk(rows, key);
    QueryPassesHold(input, since, until, credit);
    SessionsOfFold(input, since, until, credit);
    SessionsOfQuery(rows, key, since, until, ttl);
    LabelsIff(StableSort(input), since, until, credit, Merge(Effective(input, credit)),
              Summarise(input, since, until, credit).sessions, Query(rows, key, since, until, ttl).sessions);
  }

  lemma LabelsIff(xs: seq<Session>, since: int, until: int, ttl: int, ranges: seq<Session>, all: seq<Session>,
                  q: seq<Session>)
    requires var low := since - ttl - GAP_TOLERANCE;
             QueryPasses(xs, since, ttl, Fold(START, xs, ttl), Fold(START, Keep(EndsFrom(low), xs), ttl)) &&
             q == Clip(Fold(START, Keep(EndsFrom(low), xs), ttl).out, since, until)
    requires ranges == Fold(START, xs, ttl).out && all == Clip(ranges, since, until)
    requires !IsZero(since) && since <= until && 0 <= ttl
    ensures all == q <==> AllSurvive(xs, ranges, since, until, ttl)
  {
    PassesClipEqualIff(xs, since, until, ttl, Fold(START, xs, ttl),
                       Fold(START, Keep(EndsFrom(since - ttl - GAP_TOLERANCE), xs), ttl));
  }

  lemma SessionsOfQuery(rows: seq<Row>, key: string, since: int, until: int, ttl: int)
    requires RowsOk(rows) && !IsZero(since) && NoneLate(SessionsOf(rows, key), until, Max(ttl, 0))
    ensures var credit := Max(ttl, 0);
            var kept := Keep(EndsFrom(since - credit - GAP_TOLERANCE), StableSort(SessionsOf(rows, key)));
            Query(rows, key, since, until, ttl).sessions == Clip(Fold(START, kept, credit).out, since, until)
  {
    var credit := Max(ttl, 0);
    SelectedInOrder(rows, key, since, until, credit);
    SelectedOk(rows, key, since, until, credit);
    SessionsOfFold(Select(rows, key, since, until, credit), since, until, credit);
  }

  /** With no lower bound, or no row that ends early, the query reports exactly what the whole table would. */
  lemma QueryKeepsEverything(rows: seq<Row>, key: string, since: int, until: int, ttl: int)
    requires RowsOk(rows) && NoneLate(SessionsOf(rows, key), until, Max(ttl, 0))
    requires IsZero(since) || forall s :: s in SessionsOf(rows, key) ==> since - Max(ttl, 0) - GAP_TOLERANCE <= s.end
    ensures Query(rows, key, since, until, ttl) == Summarise(SessionsOf(rows, key), since, until, Max(ttl, 0))
  {
    SelectsAll(rows, key, since, until, Max(ttl, 0));
  }

  lemma SelectsAll(rows: seq<Row>, key: string, since: int, until: int, ttl: int)
    requires RowsOk(rows) && NoneLate(SessionsOf(rows, key), until, ttl)
    requires IsZero(since) || forall s :: s in SessionsOf(rows, key) ==> since - ttl - GAP_TOLERANCE <= s.end
    ensures Select(rows, key, since, until, ttl) == SessionsOf(rows, key)
  {
    var input := SessionsOf(rows, key);
    SelectIsFilter(rows, key, since, until, ttl);
    KeepAll(StartsBy(until + ttl), input);
    if !IsZero(since) {
      KeepAll(EndsFrom(since - ttl - GAP_TOLERANCE), input);
    }
  }
}
