/** What the windowed coverage query promises about the whole table. */
module CoverageQueries {
  // Leaving rows out of the query does not change the answer, beyond the two cases stated here.

  import opened Sessions
  import opened CoverageRanges
  import opened CoverageFold
  import opened CoverageReport
  import opened CoverageWindow
  import opened CoverageStore

  /** Every session recorded for key. */
  function SessionsOf(rows: seq<Row>, key: string): seq<Session> {
    if rows == [] then []
    else (if rows[0].key == key then [ToSession(rows[0])] else []) + SessionsOf(rows[1..], key)
  }

  lemma {:induction false} SessionsOfOk(rows: seq<Row>, key: string)
    requires RowsOk(rows)
    ensures AllWellFormed(SessionsOf(rows, key))
  {
    if rows != [] {
      SessionsOfOk(rows[1..], key);
      assert RowOk(rows[0]);
    }
  }

  lemma {:induction false} SessionOfRow(rows: seq<Row>, key: string, s: Session)
    requires s in SessionsOf(rows, key)
    ensures exists i :: 0 <= i < |rows| && rows[i].key == key && s == ToSession(rows[i])
  {
    if rows[0].key == key && s == ToSession(rows[0]) {
    } else {
      SessionOfRow(rows[1..], key, s);
      var i :| 0 <= i < |rows[1..]| && rows[1..][i].key == key && s == ToSession(rows[1..][i]);
      assert rows[i + 1].key == key && s == ToSession(rows[i + 1]);
    }
  }

  function StartsBy(t: int): Session -> bool {
    (s: Session) => s.start <= t
  }

  function StartsAfter(t: int): Session -> bool {
    (s: Session) => t < s.start
  }

  // ----- the query is a filter on the sessions of the key -----

  function InQuery(xs: seq<Session>, since: int, until: int, ttl: int): seq<Session> {
    var early := Keep(StartsBy(until + ttl), xs);
    if IsZero(since) then early else Keep(EndsFrom(since - ttl - GAP_TOLERANCE), early)
  }

  lemma {:induction false} SelectIsFilter(rows: seq<Row>, key: string, since: int, until: int, ttl: int)
    requires RowsOk(rows)
    ensures Select(rows, key, since, until, ttl) == InQuery(SessionsOf(rows, key), since, until, ttl)
  {
    if rows != [] {
      SelectIsFilter(rows[1..], key, since, until, ttl);
      var r, rest := rows[0], SessionsOf(rows[1..], key);
      assert RowOk(r);
      if r.key == key {
        assert ([ToSession(r)] + rest)[1..] == rest;
        var early := Keep(StartsBy(until + ttl), rest);
        assert ([ToSession(r)] + early)[1..] == early;
      } else {
        assert SessionsOf(rows, key) == rest;
      }
    }
  }

  lemma ConsConcat(x: Session, a: seq<Session>, b: seq<Session>)
    ensures [x] + (a + b) == [x] + a + b
  {
  }

  lemma SplitOne(xs: seq<Session>, t: int)
    requires xs != [] && xs[0].start <= t
    ensures Keep(StartsBy(t), xs) == [xs[0]] + Keep(StartsBy(t), xs[1..])
    ensures Keep(StartsAfter(t), xs) == Keep(StartsAfter(t), xs[1..])
    ensures xs == [xs[0]] + xs[1..]
  {
  }

  lemma {:induction false} SplitIsAll(xs: seq<Session>, t: int)
    requires SortedByStart(xs)
    ensures xs == Keep(StartsBy(t), xs) + Keep(StartsAfter(t), xs)
  {
    if xs != [] {
      SortedTail(xs);
      if xs[0].start <= t {
        SplitIsAll(xs[1..], t);
        SplitOne(xs, t);
        ConsConcat(xs[0], Keep(StartsBy(t), xs[1..]), Keep(StartsAfter(t), xs[1..]));
      } else {
        AllAreLate(xs, t);
      }
    }
  }

  lemma AllAreLate(xs: seq<Session>, t: int)
    requires forall s :: s in xs ==> t < s.start
    ensures Keep(StartsBy(t), xs) == [] && Keep(StartsAfter(t), xs) == xs
  {
    KeepNone(StartsBy(t), xs);
    KeepAll(StartsAfter(t), xs);
  }

  lemma SplitByStart(xs: seq<Session>, t: int)
    requires SortedByStart(xs)
    ensures var early, late := Keep(StartsBy(t), xs), Keep(StartsAfter(t), xs);
            xs == early + late &&
            (forall i :: 0 <= i < |early| ==> early[i].start <= t) &&
            (forall i :: 0 <= i < |late| ==> t < late[i].start)
  {
    SplitIsAll(xs, t);
    var early, late := Keep(StartsBy(t), xs), Keep(StartsAfter(t), xs);
    KeepMembers(StartsBy(t), xs);
    KeepMembers(StartsAfter(t), xs);
    forall i | 0 <= i < |early| ensures early[i].start <= t {
      assert early[i] in early;
    }
    forall i | 0 <= i < |late| ensures t < late[i].start {
      assert late[i] in late;
    }
  }

  lemma {:induction false} KeepAll(p: Session -> bool, xs: seq<Session>)
    requires forall s :: s in xs ==> p(s)
    ensures Keep(p, xs) == xs
  {
    if xs != [] {
      KeepAll(p, xs[1..]);
    }
  }

  lemma {:induction false} KeepNone(p: Session -> bool, xs: seq<Session>)
    requires forall s :: s in xs ==> !p(s)
    ensures Keep(p, xs) == []
  {
    if xs != [] {
      KeepNone(p, xs[1..]);
    }
  }

  lemma {:induction false} KeepSorted(p: Session -> bool, xs: seq<Session>)
    requires SortedByStart(xs) && AllWellFormed(xs)
    ensures SortedByStart(Keep(p, xs)) && AllWellFormed(Keep(p, xs))
  {
    if xs != [] {
      SortedTail(xs);
      KeepSorted(p, xs[1..]);
      KeepMembers(p, xs[1..]);
      SortedCons(xs[0], Keep(p, xs[1..]));
    }
  }

  // ----- the window -----

  lemma FoldLate(early: seq<Session>, late: seq<Session>, until: int, ttl: int)
    requires AllWellFormed(early) && SortedByStart(early) && AllWellFormed(late) && SortedByStart(late) && 0 <= ttl
    requires early != [] && late != [] ==> early[|early| - 1].start <= late[0].start
    requires forall i :: 0 <= i < |late| ==> until + ttl < late[i].start
    ensures Beyond(Fold(START, early, ttl), Fold(START, early + late, ttl), until)
  {
    FoldConcat(START, early, late, ttl);
    var first := if early != [] then early[0].start else if late != [] then late[0].start else 0;
    var bound := if early != [] then early[|early| - 1].start else first;
    FoldOk(START, first, early, ttl);
    LateBeyond(Fold(START, early, ttl), bound, late, until, ttl);
  }

  lemma LateBeyond(acc: Acc, bound: int, late: seq<Session>, until: int, ttl: int)
    requires AccOk(acc, bound) && AllWellFormed(late) && SortedByStart(late) && 0 <= ttl
    requires late != [] ==> bound <= late[0].start
    requires forall i :: 0 <= i < |late| ==> until + ttl < late[i].start
    ensures Beyond(acc, Fold(acc, late, ttl), until)
  {
    FoldBeyond(acc, acc, bound, late, ttl, until);
  }

  lemma FoldSeparated(xs: seq<Session>, ttl: int)
    requires AllWellFormed(xs) && SortedByStart(xs)
    ensures Separated(Fold(START, xs, ttl).out)
  {
    FoldOk(START, if xs == [] then 0 else xs[0].start, xs, ttl);
  }

  /** The merged ranges of the rows that start by until + ttl, against those of all rows. */
  lemma LateRowsOnlyExtend(xs: seq<Session>, until: int, ttl: int)
    requires AllWellFormed(xs) && SortedByStart(xs) && 0 <= ttl
    ensures Beyond(Fold(START, Keep(StartsBy(until + ttl), xs), ttl), Fold(START, xs, ttl), until)
  {
    var early, late := Keep(StartsBy(until + ttl), xs), Keep(StartsAfter(until + ttl), xs);
    SplitByStart(xs, until + ttl);
    KeepSorted(StartsBy(until + ttl), xs);
    KeepSorted(StartsAfter(until + ttl), xs);
    if early != [] && late != [] {
      assert xs[|early| - 1] == early[|early| - 1] && xs[|early|] == late[0];
    }
    FoldLate(early, late, until, ttl);
  }

  /** The merged ranges of the rows of the query, against those of the rows that start by until + ttl. */
  lemma EarlyEndersOnlyPrecede(early: seq<Session>, since: int, ttl: int)
    requires AllWellFormed(early) && SortedByStart(early) && 0 <= ttl
    ensures var low := since - ttl - GAP_TOLERANCE;
            Sim(Fold(START, early, ttl), Fold(START, Keep(EndsFrom(low), early), ttl), Slack(low, since, since, true))
  {
    var k := Slack(since - ttl - GAP_TOLERANCE, since, since, true);
    SimFold(START, START, if early == [] then 0 else early[0].start, early, ttl, k);
  }

  lemma SameButSinceIsAlike(xs: seq<Session>, ys: seq<Session>, since: int, k: Slack)
    requires SameButSince(xs, ys, since, k) && k.hi <= since
    ensures Alike(xs, ys, k.reasons)
  {
    forall i | 0 < i < |xs|
      ensures SameRange(xs[i], ys[i]) && (k.reasons ==> xs[i].endReason == ys[i].endReason)
    {
      assert xs[1..][i - 1] == xs[i] && ys[1..][i - 1] == ys[i];
    }
  }

  /** The rows that the WHERE clause leaves out never change which gaps are reported, nor why; they do not change where
      the history starts unless the window is shorter than GAP_TOLERANCE; and they do not change the ranges unless a
      row starts more than ttl after the window. */
  lemma WindowedQueryPreservesMeaning(rows: seq<Row>, key: string, since: int, until: int, ttl: int)
    requires RowsOk(rows) && (IsZero(since) || since <= until)
    ensures var credit := Max(ttl, 0);
            var all := Summarise(SessionsOf(rows, key), since, until, credit);
            var q := Query(rows, key, since, until, ttl);
            var noneLate := forall s :: s in SessionsOf(rows, key) ==> s.start <= until + credit;
            SameGaps(all.gaps, q.gaps, true) &&
            (IsZero(since) || since + GAP_TOLERANCE <= until || noneLate ==>
               all.since == q.since && (all.sessions == [] <==> q.sessions == [])) &&
            (noneLate ==> Alike(all.sessions, q.sessions, true))
  {
    var credit := Max(ttl, 0);
    var input := SessionsOf(rows, key);
    SessionsOfOk(rows, key);
    SelectIsFilter(rows, key, since, until, credit);
    SortKeepsWellFormed(input);
    SortSameElements(input);
    var xs := StableSort(input);
    var startsBy := StartsBy(until + credit);
    var early := Keep(startsBy, xs);
    SortCommutesWithKeep(startsBy, input);
    KeepSorted(startsBy, xs);
    MergedEffectiveIsFold(input, credit);
    LateRowsOnlyExtend(xs, until, credit);
    FoldSeparated(early, credit);
    var a, l := Fold(START, early, credit), Fold(START, xs, credit);
    ClipBeyond(a, l, since, until);
    if forall s :: s in input ==> s.start <= until + credit {
      KeepAll(startsBy, xs);
    }
    QueryAgreesWithEarly(rows, key, since, until, credit);
  }

  lemma QueryAgreesWithEarly(rows: seq<Row>, key: string, since: int, until: int, ttl: int)
    requires RowsOk(rows) && (IsZero(since) || since <= until) && 0 <= ttl
    ensures var early := Keep(StartsBy(until + ttl), StableSort(SessionsOf(rows, key)));
            var r := Clip(Fold(START, early, ttl).out, since, until);
            var q := Query(rows, key, since, until, ttl);
            Alike(r, q.sessions, true) && SameGaps(Gaps(r, until), q.gaps, true)
  {
    var input := SessionsOf(rows, key);
    SessionsOfOk(rows, key);
    SelectIsFilter(rows, key, since, until, ttl);
    SortKeepsWellFormed(input);
    var startsBy, from := StartsBy(until + ttl), EndsFrom(since - ttl - GAP_TOLERANCE);
    var early := Keep(startsBy, StableSort(input));
    KeepSorted(startsBy, StableSort(input));
    SortCommutesWithKeep(startsBy, input);
    SortCommutesWithKeep(from, Keep(startsBy, input));
    KeepMembers(startsBy, input);
    KeepMembers(from, Keep(startsBy, input));
    var selected := InQuery(input, since, until, ttl);
    forall i | 0 <= i < |selected| ensures WellFormed(selected[i]) {
      assert selected[i] in input;
    }
    MergedEffectiveIsFold(selected, ttl);
    var r := Clip(Fold(START, early, ttl).out, since, until);
    var q := Query(rows, key, since, until, ttl).sessions;
    if !IsZero(since) {
      EarlyEndersOnlyPrecede(early, since, ttl);
      var k := Slack(since - ttl - GAP_TOLERANCE, since, since, true);
      ClipSim(Fold(START, early, ttl), Fold(START, Keep(from, early), ttl), since, until, k);
      SameButSinceIsAlike(r, q, since, k);
    }
    GapsAlike(r, q, until, true);
  }

  /** A query reports proper ranges exactly when the window is not reversed, or no range of the selected rows covers
      it. */
  lemma QueryForwardIff(rows: seq<Row>, key: string, since: int, until: int, ttl: int)
    requires RowsOk(rows)
    ensures var ranges := Merge(Effective(Select(rows, key, since, until, Max(ttl, 0)), Max(ttl, 0)));
            Forward(Query(rows, key, since, until, ttl).sessions) <==>
            IsZero(since) || since <= until || !SomeSpans(ranges, until, since)
  {
    var credit := Max(ttl, 0);
    var selected := Select(rows, key, since, until, credit);
    SelectedOk(rows, key, since, until, credit);
    MergedEffectiveSeparated(selected, credit);
    ClipForwardIff(Merge(Effective(selected, credit)), since, until);
  }

  lemma SelectedOk(rows: seq<Row>, key: string, since: int, until: int, ttl: int)
    requires RowsOk(rows)
    ensures AllWellFormed(Select(rows, key, since, until, ttl))
  {
    var all, xs := SessionsOf(rows, key), Select(rows, key, since, until, ttl);
    SelectIsFilter(rows, key, since, until, ttl);
    SessionsOfOk(rows, key);
    KeepMembers(StartsBy(until + ttl), all);
    KeepMembers(EndsFrom(since - ttl - GAP_TOLERANCE), Keep(StartsBy(until + ttl), all));
    forall i | 0 <= i < |xs| ensures WellFormed(xs[i]) {
      assert xs[i] in all;
    }
  }

  /** The backfilled flag and the scope of a reported range may come from a row that the window leaves out. */
  lemma WindowMayHideFlags()
    ensures var rows := [Row(1, "c", "cluster", 1_000_000, 1_000_000, true, ""),
                         Row(2, "c", "namespaces", 1_100_000, 2_000_000, false, "")];
            var all := Summarise(SessionsOf(rows, "c"), 1_500_000, 3_000_000, 0);
            var q := Query(rows, "c", 1_500_000, 3_000_000, 0);
            |all.sessions| == |q.sessions| == 1 && SameRange(all.sessions[0], q.sessions[0]) &&
            all.sessions[0].backfilled && all.sessions[0].scope == "cluster" &&
            !q.sessions[0].backfilled && q.sessions[0].scope == "namespaces"
  {
    var a, b := Row(1, "c", "cluster", 1_000_000, 1_000_000, true, ""),
                Row(2, "c", "namespaces", 1_100_000, 2_000_000, false, "");
    var rows := [a, b];
    var s, t := ToSession(a), ToSession(b);
    assert rows[1..] == [b] && [b][1..] == [];
    assert s == Session(1_000_000, 1_000_000, "cluster", true, "") &&
           t == Session(1_100_000, 2_000_000, "namespaces", false, "");
    assert rows[0] == a && [b][0] == b && [s] + [t] == [s, t];
    assert SessionsOf([], "c") == [] && SessionsOf([b], "c") == [t];
    assert SessionsOf(rows, "c") == [s, t];
    assert Select([b], "c", 1_500_000, 3_000_000, 0) == [t] && Select(rows, "c", 1_500_000, 3_000_000, 0) == [t];
    assert [s, t][1..] == [t] && [t][1..] == [];
    assert s.start <= t.start;
    assert InsertByStart(t, []) == [t] && InsertByStart(s, [t]) == [s, t];
    assert StableSort([]) == [] && StableSort([t]) == [t];
    assert StableSort([s, t]) == [s, t];
    assert CreditAll([t], 0, ZERO_TIME) == [t];
    assert CreditAll([t], 0, s.end) == [t];
    assert CreditAll([s, t], 0, ZERO_TIME) == [s, t];
    assert AbsorbAll([], [t]) == AbsorbAll([t], []) == [t];
    var m := Join(s, t);
    assert Absorb([s], t) == [m];
    assert AbsorbAll([], [s, t]) == AbsorbAll([s], [t]) == AbsorbAll([m], []) == [m];
    assert [m][1..] == [];
  }
}
