/** Rows that start after a queried window, by more than the TTL: what leaving them out changes in the reported
    ranges (internal/history/coverage.go:154-186). Only a last range that ends inside the window can change, only in
    its end, and by less than the tolerance. */
module LateRows {
  import opened Sessions
  import opened CoverageRanges
  import opened CoverageFold
  import opened CoverageReport
  import opened CoverageWindow
  import opened CoverageStore
  import opened CoverageQueries

  /** The last range of a pass ends inside the window, and the first late session, with its credit, joins it. */
  predicate ReachesIn(acc: Acc, late: seq<Session>, until: int, ttl: int) {
    acc.out != [] && late != [] &&
    var a := acc.out[|acc.out| - 1];
    a.end < until && Credit(late[0], ttl, acc.prevEnd).start <= a.end + GAP_TOLERANCE
  }

  /** xs reaches the end of the window where ys stops less than GAP_TOLERANCE before it, or before the window; otherwise
      the ranges are the same. */
  predicate ReachesFurther(xs: seq<Session>, ys: seq<Session>, since: int, until: int) {
    if ys == [] then |xs| == 1 && !IsZero(since) && xs[0].start == since && xs[0].end == until < since + GAP_TOLERANCE
    else
      var n := |ys| - 1;
      |xs| == |ys| && Alike(xs[..n], ys[..n], true) && xs[n].start == ys[n].start &&
      ys[n].end < xs[n].end == until < ys[n].end + GAP_TOLERANCE
  }

  /** A pass changes only its last range, and only to end later. */
  lemma {:induction false} FoldKeepsFront(acc: Acc, xs: seq<Session>, ttl: int, n: nat)
    requires n < |acc.out|
    ensures var out := Fold(acc, xs, ttl).out;
            n < |out| && out[..n] == acc.out[..n] && out[n].start == acc.out[n].start && acc.out[n].end <= out[n].end
    ensures n + 1 < |acc.out| ==> Fold(acc, xs, ttl).out[n] == acc.out[n]
    decreases |xs|
  {
    if xs != [] {
      var next := Step(acc, xs[0], ttl);
      assert next.out[..n] == acc.out[..n];
      FoldKeepsFront(next, xs[1..], ttl, n);
    }
  }

  lemma JoinedReaches(acc: Acc, late: seq<Session>, until: int, ttl: int)
    requires ReachesIn(acc, late, until, ttl) && late[0].start <= late[0].end && until < late[0].start
    ensures var n := |acc.out| - 1; var out := Fold(acc, late, ttl).out; n < |out| && until < out[n].end
  {
    var n := |acc.out| - 1;
    FoldKeepsFront(Step(acc, late[0], ttl), late[1..], ttl, n);
  }

  lemma ApartStays(acc: Acc, late: seq<Session>, until: int, ttl: int)
    requires acc.out != [] && !ReachesIn(acc, late, until, ttl) && acc.out[|acc.out| - 1].end < until
    ensures var n := |acc.out| - 1; var out := Fold(acc, late, ttl).out; n < |out| && out[n] == acc.out[n]
  {
    if late != [] {
      FoldKeepsFront(Step(acc, late[0], ttl), late[1..], ttl, |acc.out| - 1);
    }
  }

  // ----- clipping the two passes -----

  lemma ClipLonger(front: seq<Session>, a: Session, b: Session, since: int, until: int)
    requires Separated(front + [a]) && (IsZero(since) || since <= until)
    requires a.start == b.start && a.start <= a.end < until < b.end && until < a.end + GAP_TOLERANCE
    ensures ReachesFurther(Clip(front + [b], since, until), Clip(front + [a], since, until), since, until)
  {
    ClipConcat(front, [a], since, until);
    ClipConcat(front, [b], since, until);
    ClipSingle(a, since, until);
    ClipSingle(b, since, until);
    if !Visible(a, since, until) {
      EarlierInvisible(front, a, since, until);
    }
  }

  lemma ClipBothReach(front: seq<Session>, a: Session, b: Session, since: int, until: int)
    requires IsZero(since) || since <= until
    requires a.start == b.start && until <= a.end && until <= b.end
    ensures Alike(Clip(front + [b], since, until), Clip(front + [a], since, until), false)
  {
    ClipConcat(front, [a], since, until);
    ClipConcat(front, [b], since, until);
    ClipSingle(a, since, until);
    ClipSingle(b, since, until);
  }

  lemma LatePassReaches(acc: Acc, late: seq<Session>, all: Acc, since: int, until: int, ttl: int)
    requires all == Fold(acc, late, ttl) && Beyond(acc, all, until) && Separated(acc.out)
    requires (forall i :: 0 <= i < |late| ==> until < late[i].start <= late[i].end) && (IsZero(since) || since <= until)
    requires forall i :: 0 <= i < |acc.out| ==> acc.out[i].start <= acc.out[i].end
    ensures var xs, ys := Clip(all.out, since, until), Clip(acc.out, since, until);
            if ReachesIn(acc, late, until, ttl) then ReachesFurther(xs, ys, since, until) else Alike(xs, ys, false)
  {
    LateInvisible(acc, all, since, until);
    if acc.out != [] {
      var n := |acc.out| - 1;
      assert acc.out == acc.out[..n] + [acc.out[n]] && all.out[..n + 1] == acc.out[..n] + [all.out[n]];
      if ReachesIn(acc, late, until, ttl) {
        JoinedReaches(acc, late, until, ttl);
      } else if acc.out[n].end < until {
        ApartStays(acc, late, until, ttl);
      }
      LastRangeReaches(acc.out[..n], acc.out[n], all.out[n], ReachesIn(acc, late, until, ttl), since, until);
    }
  }

  lemma LastRangeReaches(front: seq<Session>, a: Session, b: Session, joins: bool, since: int, until: int)
    requires Separated(front + [a]) && (IsZero(since) || since <= until)
    requires a.start == b.start && a.start <= a.end <= b.end && (a != b ==> until < a.end + GAP_TOLERANCE)
    requires if joins then a.end < until < b.end else a == b || until <= a.end
    ensures var xs, ys := Clip(front + [b], since, until), Clip(front + [a], since, until);
            if joins then ReachesFurther(xs, ys, since, until) else Alike(xs, ys, false)
  {
    if joins {
      ClipLonger(front, a, b, since, until);
    } else if a != b {
      ClipBothReach(front, a, b, since, until);
    }
  }

  lemma AlikeFurther(xs: seq<Session>, ys: seq<Session>, zs: seq<Session>, joins: bool, since: int, until: int)
    requires Alike(ys, zs, true) && if joins then ReachesFurther(xs, ys, since, until) else Alike(xs, ys, false)
    ensures Alike(xs, zs, false) <==> !joins
    ensures joins ==> ReachesFurther(xs, zs, since, until)
  {
  }

  // ----- the query -----

  /** Of the sessions of a cluster, in start order, the first that starts late joins the last range of the others,
      which ends inside the window. */
  predicate LateReaches(xs: seq<Session>, until: int, ttl: int) {
    ReachesIn(Fold(START, Keep(StartsBy(until + ttl), xs), ttl), Keep(StartsAfter(until + ttl), xs), until, ttl)
  }

  /** The query reports the ranges of the whole table exactly when no row that starts late joins a last range ending
      inside the window; and when one does, only the end of that range differs, and by less than GAP_TOLERANCE. */
  lemma LateRowsReachIn(rows: seq<Row>, key: string, since: int, until: int, ttl: int)
    requires RowsOk(rows) && (IsZero(since) || since <= until)
    ensures var all := Summarise(SessionsOf(rows, key), since, until, Max(ttl, 0)).sessions;
            var q := Query(rows, key, since, until, ttl).sessions;
            (Alike(all, q, false) <==> !LateReaches(StableSort(SessionsOf(rows, key)), until, Max(ttl, 0))) &&
            (LateReaches(StableSort(SessionsOf(rows, key)), until, Max(ttl, 0)) ==>
             ReachesFurther(all, q, since, until))
  {
    SessionsOfOk(rows, key);
    SortKeepsWellFormed(SessionsOf(rows, key));
    SameCredit(rows, key, since, until, ttl);
    QueryReaches(rows, key, since, until, Max(ttl, 0), StableSort(SessionsOf(rows, key)),
                 Summarise(SessionsOf(rows, key), since, until, Max(ttl, 0)).sessions,
                 Query(rows, key, since, until, ttl).sessions);
  }

  /** A negative TTL counts as none. */
  lemma SameCredit(rows: seq<Row>, key: string, since: int, until: int, ttl: int)
    ensures Query(rows, key, since, until, ttl) == Query(rows, key, since, until, Max(ttl, 0))
  {
  }

  lemma QueryReaches(rows: seq<Row>, key: string, since: int, until: int, ttl: int, xs: seq<Session>,
                     all: seq<Session>, q: seq<Session>)
    requires RowsOk(rows) && (IsZero(since) || since <= until) && 0 <= ttl && xs == StableSort(SessionsOf(rows, key))
    requires all == Summarise(SessionsOf(rows, key), since, until, ttl).sessions
    requires q == Query(rows, key, since, until, ttl).sessions
    ensures Alike(all, q, false) <==> !LateReaches(xs, until, ttl)
    ensures LateReaches(xs, until, ttl) ==> ReachesFurther(all, q, since, until)
  {
    SessionsOfOk(rows, key);
    SortKeepsWellFormed(SessionsOf(rows, key));
    var early := EarlyRanges(xs, since, until, ttl);
    EarlyIsAlike(rows, key, since, until, ttl, xs, early, q);
    TableIsPass(SessionsOf(rows, key), since, until, ttl, xs, all);
    LatePassOfQuery(xs, since, until, ttl);
    AlikeFurther(all, early, q, LateReaches(xs, until, ttl), since, until);
  }

  /** The ranges of the rows that do not start late. */
  function EarlyRanges(xs: seq<Session>, since: int, until: int, ttl: int): seq<Session> {
    Clip(Fold(START, Keep(StartsBy(until + ttl), xs), ttl).out, since, until)
  }

  lemma EarlyIsAlike(rows: seq<Row>, key: string, since: int, until: int, ttl: int, xs: seq<Session>,
                     early: seq<Session>, q: seq<Session>)
    requires RowsOk(rows) && (IsZero(since) || since <= until) && 0 <= ttl && xs == StableSort(SessionsOf(rows, key))
    requires early == EarlyRanges(xs, since, until, ttl) && q == Query(rows, key, since, until, ttl).sessions
    ensures Alike(early, q, true)
  {
    QueryAgreesWithEarly(rows, key, since, until, ttl);
  }

  lemma TableIsPass(input: seq<Session>, since: int, until: int, ttl: int, xs: seq<Session>, all: seq<Session>)
    requires AllWellFormed(input) && 0 <= ttl && xs == StableSort(input)
    requires all == Summarise(input, since, until, ttl).sessions
    ensures all == Clip(Fold(START, xs, ttl).out, since, until)
  {
    MergedEffectiveIsFold(input, ttl);
  }

  lemma LatePassOfQuery(xs: seq<Session>, since: int, until: int, ttl: int)
    requires AllWellFormed(xs) && SortedByStart(xs) && 0 <= ttl && (IsZero(since) || since <= until)
    ensures var rs, qs := Clip(Fold(START, xs, ttl).out, since, until), EarlyRanges(xs, since, until, ttl);
            if LateReaches(xs, until, ttl) then ReachesFurther(rs, qs, since, until) else Alike(rs, qs, false)
  {
    var early, late := Keep(StartsBy(until + ttl), xs), Keep(StartsAfter(until + ttl), xs);
    SplitByStart(xs, until + ttl);
    KeepSorted(StartsBy(until + ttl), xs);
    KeepSorted(StartsAfter(until + ttl), xs);
    LateRowsOnlyExtend(xs, until, ttl);
    LatePassOver(early, late, Fold(START, early, ttl), Fold(START, xs, ttl), since, until, ttl);
  }

  lemma LatePassOver(early: seq<Session>, late: seq<Session>, acc: Acc, all: Acc, since: int, until: int, ttl: int)
    requires AllWellFormed(early) && SortedByStart(early) && AllWellFormed(late) && 0 <= ttl
    requires forall i :: 0 <= i < |late| ==> until + ttl < late[i].start
    requires acc == Fold(START, early, ttl) && all == Fold(START, early + late, ttl) && Beyond(acc, all, until)
    requires IsZero(since) || since <= until
    ensures var xs, ys := Clip(all.out, since, until), Clip(acc.out, since, until);
            if ReachesIn(acc, late, until, ttl) then ReachesFurther(xs, ys, since, until) else Alike(xs, ys, false)
  {
    FoldConcat(START, early, late, ttl);
    FoldSeparated(early, ttl);
    LatePassReaches(acc, late, all, since, until, ttl);
  }

  /** For instance, a row 100 seconds after one that ends 50 seconds before the end of the window. */
  lemma LateRowMayReachIn()
    ensures var rows := [Row(1, "c", "cluster", 100_000, 300_000, false, ""),
                         Row(2, "c", "cluster", 400_000, 500_000, false, "")];
            ReachesFurther(Summarise(SessionsOf(rows, "c"), 100_000, 350_000, 0).sessions,
                           Query(rows, "c", 100_000, 350_000, 0).sessions, 100_000, 350_000)
  {
    var a, b := Row(1, "c", "cluster", 100_000, 300_000, false, ""),
      Row(2, "c", "cluster", 400_000, 500_000, false, "");
    SessionsOfPair(a, b, "c");
    PassOfPair(ToSession(a), ToSession(b), 350_000);
    LateRowsReachIn([a, b], "c", 100_000, 350_000, 0);
  }

  lemma SessionsOfPair(a: Row, b: Row, key: string)
    requires a.key == key && b.key == key
    ensures SessionsOf([a, b], key) == [ToSession(a), ToSession(b)]
  {
    assert [a, b][1..] == [b] && [b][1..] == [];
    assert SessionsOf([b], key) == [ToSession(b)];
  }

  lemma PassOfPair(s: Session, t: Session, until: int)
    requires !s.backfilled && !t.backfilled && s.start <= s.end < until < t.start <= s.end + GAP_TOLERANCE
    ensures LateReaches(StableSort([s, t]), until, 0)
  {
    SortOfSorted([s, t]);
    assert [s, t][1..] == [t] && [t][1..] == [] && [s][1..] == [];
    AllAreLate([t], until);
    SplitOne([s, t], until);
    assert Keep(StartsBy(until), [s, t]) == [s] && Keep(StartsAfter(until), [s, t]) == [t];
    assert Fold(START, [s], 0) == Step(START, s, 0);
  }
}
