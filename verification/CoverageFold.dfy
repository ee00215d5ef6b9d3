/** Crediting and merging as one pass over the sessions in start order, and what every such pass keeps. */
module CoverageFold {
  import opened Sessions
  import opened CoverageRanges

  /** prevEnd is the latest end seen; out is the merged ranges so far. */
  datatype Acc = Acc(prevEnd: int, out: seq<Session>)

  const START: Acc := Acc(ZERO_TIME, [])

  function Step(acc: Acc, x: Session, ttl: int): Acc {
    Acc(Max(acc.prevEnd, x.end), Absorb(acc.out, Credit(x, ttl, acc.prevEnd)))
  }

  function Fold(acc: Acc, xs: seq<Session>, ttl: int): Acc
    decreases |xs|
  {
    if xs == [] then acc else Fold(Step(acc, xs[0], ttl), xs[1..], ttl)
  }

  lemma {:induction false} FoldConcat(acc: Acc, xs: seq<Session>, ys: seq<Session>, ttl: int)
    ensures Fold(acc, xs + ys, ttl) == Fold(Fold(acc, xs, ttl), ys, ttl)
    decreases |xs|
  {
    if xs == [] {
      assert xs + ys == ys;
    } else {
      assert (xs + ys)[1..] == xs[1..] + ys;
      FoldConcat(Step(acc, xs[0], ttl), xs[1..], ys, ttl);
    }
  }

  lemma {:induction false} FoldIsCreditThenAbsorb(acc: Acc, xs: seq<Session>, ttl: int)
    ensures Fold(acc, xs, ttl).out == AbsorbAll(acc.out, CreditAll(xs, ttl, acc.prevEnd))
    decreases |xs|
  {
    if xs != [] {
      FoldIsCreditThenAbsorb(Step(acc, xs[0], ttl), xs[1..], ttl);
      var credited := CreditAll(xs, ttl, acc.prevEnd);
      assert credited[1..] == CreditAll(xs[1..], ttl, Max(acc.prevEnd, xs[0].end));
    }
  }

  // ----- backfill credit -----

  /** prevEnd bounds everything recorded before index j. */
  ghost predicate PrevEndOf(xs: seq<Session>, j: nat, prevEnd: int)
    requires j <= |xs|
  {
    (forall i :: 0 <= i < j ==> xs[i].end <= prevEnd) &&
    (if j == 0 then prevEnd == ZERO_TIME else exists i :: 0 <= i < j && xs[i].end == prevEnd)
  }

  /** The credit of session j: at most ttl, nothing that an earlier session recorded, and no less than these two
      bounds allow. */
  ghost predicate CreditedFairly(xs: seq<Session>, r: seq<Session>, ttl: int, j: nat)
    requires j < |xs| == |r|
  {
    var s, eff := xs[j], r[j];
    eff == s.(start := eff.start) &&
    s.start - Max(ttl, 0) <= eff.start <= s.start &&
    (eff.start < s.start ==> s.backfilled && forall i :: 0 <= i < j ==> xs[i].end <= eff.start) &&
    (s.backfilled && s.start - ttl < eff.start && eff.start < s.start ==>
       exists i :: 0 <= i < j && xs[i].end == eff.start) &&
    (s.backfilled && ttl > 0 && eff.start == s.start ==> exists i :: 0 <= i < j && s.start <= xs[i].end)
  }

  lemma {:induction false} CreditAllFair(xs: seq<Session>, k: nat, ttl: int, prevEnd: int)
    requires AllWellFormed(xs) && k <= |xs|
    requires PrevEndOf(xs, k, prevEnd)
    ensures forall j :: k <= j < |xs| ==>
              CreditedFairly(xs, xs[..k] + CreditAll(xs[k..], ttl, prevEnd), ttl, j)
    decreases |xs| - k
  {
    var r := xs[..k] + CreditAll(xs[k..], ttl, prevEnd);
    if k < |xs| {
      var next := Max(prevEnd, xs[k].end);
      assert xs[k..][1..] == xs[k + 1..];
      var r' := xs[..k + 1] + CreditAll(xs[k + 1..], ttl, next);
      assert PrevEndOf(xs, k + 1, next) by {
        if k > 0 && xs[k].end <= prevEnd {
          var i :| 0 <= i < k && xs[i].end == prevEnd;
        }
      }
      CreditAllFair(xs, k + 1, ttl, next);
      CreditOneFair(xs, r, ttl, k, prevEnd);
      forall j | k <= j < |xs| ensures CreditedFairly(xs, r, ttl, j) {
        if j > k {
          assert r[j] == r'[j];
          assert CreditedFairly(xs, r', ttl, j);
        }
      }
    }
  }

  lemma CreditOneFair(xs: seq<Session>, r: seq<Session>, ttl: int, k: nat, prevEnd: int)
    requires AllWellFormed(xs) && k < |xs| == |r|
    requires PrevEndOf(xs, k, prevEnd)
    requires r[k] == Credit(xs[k], ttl, prevEnd)
    ensures CreditedFairly(xs, r, ttl, k)
  {
    if k > 0 {
      var i :| 0 <= i < k && xs[i].end == prevEnd;
      assert WellFormed(xs[i]);
    }
  }

  lemma CreditIsFair(xs: seq<Session>, ttl: int)
    requires AllWellFormed(xs)
    ensures |CreditAll(xs, ttl, ZERO_TIME)| == |xs|
    ensures forall j :: 0 <= j < |xs| ==> CreditedFairly(xs, CreditAll(xs, ttl, ZERO_TIME), ttl, j)
  {
    CreditAllFair(xs, 0, ttl, ZERO_TIME);
    assert xs[0..] == xs;
    assert xs[..0] + CreditAll(xs, ttl, ZERO_TIME) == CreditAll(xs, ttl, ZERO_TIME);
  }

  lemma FairIsSorted(xs: seq<Session>, r: seq<Session>, ttl: int)
    requires AllWellFormed(xs) && SortedByStart(xs) && |xs| == |r|
    requires forall j :: 0 <= j < |xs| ==> CreditedFairly(xs, r, ttl, j)
    ensures SortedByStart(r)
  {
    forall i, j | 0 <= i < j < |r| ensures r[i].start <= r[j].start {
      FairIsOrdered(xs, r, ttl, i, j);
    }
  }

  /** effectiveSessions credits every backfilled session fairly, and its output stays in start order. */
  lemma EffectiveIsFair(input: seq<Session>, ttl: int)
    requires AllWellFormed(input)
    ensures var xs, r := StableSort(input), Effective(input, ttl);
            |xs| == |r| && SortedByStart(r) && forall j :: 0 <= j < |r| ==> CreditedFairly(xs, r, ttl, j)
  {
    SortKeepsWellFormed(input);
    CreditIsFair(StableSort(input), ttl);
    FairIsSorted(StableSort(input), Effective(input, ttl), ttl);
  }

  lemma FairIsOrdered(xs: seq<Session>, r: seq<Session>, ttl: int, i: nat, j: nat)
    requires AllWellFormed(xs) && SortedByStart(xs) && i < j < |xs| == |r|
    requires CreditedFairly(xs, r, ttl, i) && CreditedFairly(xs, r, ttl, j)
    ensures r[i].start <= r[j].start
  {
    assert WellFormed(xs[i]) && xs[i].start <= xs[j].start;
  }

  /** No instant before a session began is credited twice, or credited when an earlier session recorded it. */
  lemma CreditNeverDoubleCounted(input: seq<Session>, ttl: int, i: nat, j: nat)
    requires AllWellFormed(input)
    requires i < j < |StableSort(input)|
    ensures |Effective(input, ttl)| == |StableSort(input)|
    ensures var xs, r := StableSort(input), Effective(input, ttl);
            r[j].start < xs[j].start ==> r[i].start <= xs[i].start <= xs[i].end <= r[j].start
  {
    EffectiveIsFair(input, ttl);
    SortKeepsWellFormed(input);
    var xs, r := StableSort(input), Effective(input, ttl);
    assert CreditedFairly(xs, r, ttl, i) && CreditedFairly(xs, r, ttl, j);
    assert WellFormed(xs[i]);
  }

  /** merge(effective(rows)) is the single pass over the rows in start order. */
  lemma MergedEffectiveIsFold(input: seq<Session>, ttl: int)
    requires AllWellFormed(input)
    ensures Merge(Effective(input, ttl)) == Fold(START, StableSort(input), ttl).out
  {
    EffectiveIsFair(input, ttl);
    SortOfSorted(Effective(input, ttl));
    FoldIsCreditThenAbsorb(START, StableSort(input), ttl);
  }

  // ----- what the pass keeps -----

  /** bound is the start of the last session processed. */
  predicate AccOk(acc: Acc, bound: int) {
    Separated(acc.out) &&
    (acc.out == [] ==> acc.prevEnd == ZERO_TIME) &&
    (acc.out != [] ==>
       var last := acc.out[|acc.out| - 1];
       last.end == acc.prevEnd && ZERO_TIME < acc.prevEnd && last.start <= bound)
  }

  lemma StepOk(acc: Acc, bound: int, x: Session, ttl: int)
    requires AccOk(acc, bound) && WellFormed(x) && bound <= x.start
    ensures AccOk(Step(acc, x, ttl), x.start)
    ensures Step(acc, x, ttl).out != []
  {
  }

  lemma {:induction false} FoldOk(acc: Acc, bound: int, xs: seq<Session>, ttl: int)
    requires AccOk(acc, bound) && AllWellFormed(xs) && SortedByStart(xs)
    requires xs != [] ==> bound <= xs[0].start
    ensures AccOk(Fold(acc, xs, ttl), if xs == [] then bound else xs[|xs| - 1].start)
    decreases |xs|
  {
    if xs != [] {
      StepOk(acc, bound, xs[0], ttl);
      FoldOk(Step(acc, xs[0], ttl), xs[0].start, xs[1..], ttl);
    }
  }

  /** The merged effective coverage of any stored sessions is a list of separated ranges. */
  lemma MergedEffectiveSeparated(input: seq<Session>, ttl: int)
    requires AllWellFormed(input)
    ensures Separated(Merge(Effective(input, ttl)))
  {
    MergedEffectiveIsFold(input, ttl);
    SortKeepsWellFormed(input);
    var xs := StableSort(input);
    FoldOk(START, if xs == [] then 0 else xs[0].start, xs, ttl);
  }

  // ----- every covered instant is accounted for -----

  predicate InSession(xs: seq<Session>, t: int) {
    exists s :: s in xs && s.start <= t <= s.end
  }

  /** t lies in a hole of at most GAP_TOLERANCE between the end of one session and the start of another. */
  predicate InShortHole(xs: seq<Session>, t: int) {
    exists a, b :: a in xs && b in xs && a.end <= t <= b.start && b.start - a.end <= GAP_TOLERANCE
  }

  /** t lies at most ttl + GAP_TOLERANCE before the start of a backfilled session. */
  predicate InBackfill(xs: seq<Session>, ttl: int, t: int) {
    ttl > 0 && exists s :: s in xs && s.backfilled && s.start - ttl - GAP_TOLERANCE <= t <= s.start
  }

  predicate Explained(xs: seq<Session>, ttl: int, t: int) {
    InSession(xs, t) || InShortHole(xs, t) || InBackfill(xs, ttl, t)
  }

  ghost predicate AllExplained(out: seq<Session>, xs: seq<Session>, ttl: int) {
    forall i, t {:trigger out[i], Explained(xs, ttl, t)} ::
      0 <= i < |out| && out[i].start <= t <= out[i].end ==> Explained(xs, ttl, t)
  }

  lemma ExplainedGrows(xs: seq<Session>, s: Session, ttl: int, t: int)
    requires Explained(xs, ttl, t)
    ensures Explained(xs + [s], ttl, t)
  {
    var ys := xs + [s];
    assert forall x :: x in xs ==> x in ys;
    if InSession(xs, t) {
      assert InSession(ys, t);
    } else if InShortHole(xs, t) {
      assert InShortHole(ys, t);
    } else {
      assert InBackfill(ys, ttl, t);
    }
  }

  /** The instants that session x adds to the merged ranges. */
  lemma NewInstantExplained(acc: Acc, xs: seq<Session>, x: Session, ttl: int, t: int)
    requires acc.out != [] ==> exists s :: s in xs && s.end == acc.prevEnd
    requires acc.out != [] ==> acc.out[|acc.out| - 1].end == acc.prevEnd
    requires WellFormed(x) && t <= x.end
    requires Credit(x, ttl, acc.prevEnd).start <= t ||
             (acc.out != [] && Joins(acc.out[|acc.out| - 1], Credit(x, ttl, acc.prevEnd)) && acc.prevEnd <= t)
    ensures Explained(xs + [x], ttl, t)
  {
    var ys := xs + [x];
    assert x in ys;
    if x.start <= t {
      assert InSession(ys, t);
    } else if Credit(x, ttl, acc.prevEnd).start < x.start {
      assert InBackfill(ys, ttl, t);
    } else {
      var s :| s in xs && s.end == acc.prevEnd;
      assert s in ys;
      assert InShortHole(ys, t);
    }
  }

  lemma StepExplained(acc: Acc, bound: int, xs: seq<Session>, x: Session, ttl: int)
    requires AccOk(acc, bound) && WellFormed(x) && bound <= x.start
    requires acc.out != [] ==> exists s :: s in xs && s.end == acc.prevEnd
    requires AllExplained(acc.out, xs, ttl)
    ensures AllExplained(Step(acc, x, ttl).out, xs + [x], ttl)
    ensures exists s :: s in xs + [x] && s.end == Step(acc, x, ttl).prevEnd
  {
    var out := Step(acc, x, ttl).out;
    var ys := xs + [x];
    forall i, t | 0 <= i < |out| && out[i].start <= t <= out[i].end ensures Explained(ys, ttl, t) {
      if i < |acc.out| && t <= acc.out[i].end {
        assert Explained(xs, ttl, t);
        ExplainedGrows(xs, x, ttl, t);
      } else {
        NewInstantExplained(acc, xs, x, ttl, t);
      }
    }
    if x.end > acc.prevEnd || acc.out == [] {
      assert x in ys;
    } else {
      var s :| s in xs && s.end == acc.prevEnd;
      assert s in ys;
    }
  }

  lemma {:induction false} FoldExplained(acc: Acc, bound: int, done: seq<Session>, xs: seq<Session>, ttl: int)
    requires AccOk(acc, bound) && AllWellFormed(xs) && SortedByStart(xs)
    requires xs != [] ==> bound <= xs[0].start
    requires acc.out != [] ==> exists s :: s in done && s.end == acc.prevEnd
    requires AllExplained(acc.out, done, ttl)
    ensures AllExplained(Fold(acc, xs, ttl).out, done + xs, ttl)
    decreases |xs|
  {
    if xs == [] {
      assert done + xs == done;
    } else {
      StepOk(acc, bound, xs[0], ttl);
      StepExplained(acc, bound, done, xs[0], ttl);
      assert (done + [xs[0]]) + xs[1..] == done + xs;
      FoldExplained(Step(acc, xs[0], ttl), xs[0].start, done + [xs[0]], xs[1..], ttl);
    }
  }

  /** Every covered instant lies in a stored session, in a hole of at most GAP_TOLERANCE between two, or at most
      ttl + GAP_TOLERANCE before a backfilled one. */
  lemma CoverageIsExplained(input: seq<Session>, ttl: int, i: nat, t: int)
    requires AllWellFormed(input)
    requires i < |Merge(Effective(input, ttl))|
    requires Merge(Effective(input, ttl))[i].start <= t <= Merge(Effective(input, ttl))[i].end
    ensures Explained(input, ttl, t)
  {
    MergedEffectiveIsFold(input, ttl);
    SortKeepsWellFormed(input);
    SortSameElements(input);
    var xs := StableSort(input);
    FoldExplained(START, if xs == [] then 0 else xs[0].start, [], xs, ttl);
    assert [] + xs == xs;
    assert Explained(xs, ttl, t);
    if InSession(xs, t) {
      assert InSession(input, t);
    } else if InShortHole(xs, t) {
      assert InShortHole(input, t);
    } else {
      assert InBackfill(input, ttl, t);
    }
  }
}
