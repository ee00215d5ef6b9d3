/** Pruning old coverage rows (store.go:447-461) does not show in later queries of the retained window. */
module CoveragePrune {
  import opened Sessions
  import opened CoverageFold
  import opened CoverageReport
  import opened CoverageWindow
  import opened CoverageStore
  import opened CoverageQueries
  import opened PrunedPasses

  /** After pruning, any window inside the retained time reports the same gap intervals, and its history starts at most
      GAP_TOLERANCE later. */
  lemma PruneIsInvisible(rows: seq<Row>, key: string, cutoff: int, since: int, until: int, ttl: int)
    requires RowsOk(rows)
    requires !IsZero(since) && cutoff <= since && since + GAP_TOLERANCE <= until
    ensures RowsOk(PrunedRows(rows, cutoff))
    ensures var q := Query(rows, key, since, until, ttl);
            var p := Query(PrunedRows(rows, cutoff), key, since, until, ttl);
            SameGaps(q.gaps, p.gaps, false) && (q.sessions == [] <==> p.sessions == []) &&
            (q.sessions != [] ==> q.since <= p.since <= q.since + GAP_TOLERANCE)
  {
    PruneKeepsRowsOk(rows, cutoff);
    var credit := Max(ttl, 0);
    var input := SessionsOf(rows, key);
    var pruned := PrunedSessions(input, cutoff);
    SessionsOfPruned(rows, key, cutoff);
    SessionsOfOk(rows, key);
    SessionsOfOk(PrunedRows(rows, cutoff), key);
    WindowedQueryPreservesMeaning(rows, key, since, until, ttl);
    WindowedQueryPreservesMeaning(PrunedRows(rows, cutoff), key, since, until, ttl);
    PrunedReportsAgree(input, cutoff, since, until, credit);
  }

  lemma PrunedReportsAgree(input: seq<Session>, cutoff: int, since: int, until: int, ttl: int)
    requires AllWellFormed(input) && AllWellFormed(PrunedSessions(input, cutoff))
    requires !IsZero(since) && cutoff <= since && since + GAP_TOLERANCE <= until
    ensures var q := Summarise(input, since, until, ttl);
            var p := Summarise(PrunedSessions(input, cutoff), since, until, ttl);
            SameGaps(q.gaps, p.gaps, false) && (q.sessions == [] <==> p.sessions == []) &&
            (q.sessions != [] ==> q.since <= p.since <= q.since + GAP_TOLERANCE)
  {
    var pruned := PrunedSessions(input, cutoff);
    MergedEffectiveIsFold(input, ttl);
    MergedEffectiveIsFold(pruned, ttl);
    PrunedPassesAgree(input, ttl, cutoff);
    var k := Slack(cutoff, cutoff, cutoff + GAP_TOLERANCE, false);
    var a, b := Fold(START, StableSort(input), ttl), Fold(START, StableSort(pruned), ttl);
    ClipSim(a, b, since, until, k);
    GapsAlike(Clip(a.out, since, until), Clip(b.out, since, until), until, false);
  }

  // ----- a prune that failed half-way -----

  lemma {:induction false} SessionsOfRecent(rows: seq<Row>, key: string, cutoff: int)
    requires RowsOk(rows)
    ensures SessionsOf(RecentRows(rows, cutoff), key) == Keep(EndsFrom(cutoff), SessionsOf(rows, key))
  {
    if rows != [] {
      SessionsOfRecent(rows[1..], key, cutoff);
      var r, rest := rows[0], SessionsOf(rows[1..], key);
      assert RowOk(r);
      var kept := RecentRows(rows[1..], cutoff);
      assert ([r] + kept)[1..] == kept;
      if r.key == key {
        assert ([ToSession(r)] + rest)[1..] == rest;
      } else {
        assert SessionsOf(rows, key) == rest;
      }
    }
  }

  lemma RecentRowsOk(rows: seq<Row>, cutoff: int)
    requires RowsOk(rows)
    ensures RowsOk(RecentRows(rows, cutoff))
  {
    forall i | 0 <= i < |RecentRows(rows, cutoff)| ensures RowOk(RecentRows(rows, cutoff)[i]) {
      var j := RecentRowFrom(rows, cutoff, i);
    }
  }

  /** When only the old rows are deleted, and no start is raised, the same holds, and with every reason. */
  lemma DroppingIsInvisible(rows: seq<Row>, key: string, cutoff: int, since: int, until: int, ttl: int)
    requires RowsOk(rows) && !IsZero(since) && cutoff <= since && since + GAP_TOLERANCE <= until
    ensures RowsOk(RecentRows(rows, cutoff))
    ensures var q := Query(rows, key, since, until, ttl);
            var p := Query(RecentRows(rows, cutoff), key, since, until, ttl);
            SameGaps(q.gaps, p.gaps, true) && (q.sessions == [] <==> p.sessions == []) &&
            (q.sessions != [] ==> q.since <= p.since <= q.since + GAP_TOLERANCE)
  {
    RecentRowsOk(rows, cutoff);
    SessionsOfRecent(rows, key, cutoff);
    SessionsOfOk(rows, key);
    WindowedQueryPreservesMeaning(rows, key, since, until, ttl);
    WindowedQueryPreservesMeaning(RecentRows(rows, cutoff), key, since, until, ttl);
    RecentReportsAgree(SessionsOf(rows, key), cutoff, since, until, Max(ttl, 0));
  }

  lemma RecentReportsAgree(input: seq<Session>, cutoff: int, since: int, until: int, ttl: int)
    requires AllWellFormed(input) && !IsZero(since) && cutoff <= since && since + GAP_TOLERANCE <= until
    ensures var q := Summarise(input, since, until, ttl);
            var p := Summarise(Keep(EndsFrom(cutoff), input), since, until, ttl);
            SameGaps(q.gaps, p.gaps, true) && (q.sessions == [] <==> p.sessions == []) &&
            (q.sessions != [] ==> q.since <= p.since <= q.since + GAP_TOLERANCE)
  {
    var recent, xs := Keep(EndsFrom(cutoff), input), StableSort(input);
    SortKeepsWellFormed(input);
    SortCommutesWithKeep(EndsFrom(cutoff), input);
    KeepMembers(EndsFrom(cutoff), input);
    forall i | 0 <= i < |recent| ensures WellFormed(recent[i]) {
      assert recent[i] in input;
    }
    MergedEffectiveIsFold(input, ttl);
    MergedEffectiveIsFold(recent, ttl);
    var k := Slack(cutoff, cutoff, cutoff + GAP_TOLERANCE, true);
    SimFold(START, START, if xs == [] then 0 else xs[0].start, xs, ttl, k);
    var a, b := Fold(START, xs, ttl), Fold(START, StableSort(recent), ttl);
    ClipSim(a, b, since, until, k);
    GapsAlike(Clip(a.out, since, until), Clip(b.out, since, until), until, true);
  }
}
