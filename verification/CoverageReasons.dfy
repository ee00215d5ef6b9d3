/** When pruning old coverage rows keeps the reasons of the gaps. */
module CoverageReasons {
  // Exactly when ReasonSurvives holds of the rows of the cluster, and so always for rows that recorders write, which
  // stand in start order.

  import opened Sessions
  import opened CoverageFold
  import opened CoverageReport
  import opened CoverageWindow
  import opened CoverageStore
  import opened CoverageQueries
  import opened PrunedPasses
  import opened LatestReasons
  import opened RecorderSteps
  import opened RecorderRuns

  // ----- the theorem on queries -----

  predicate RetainedWindow(cutoff: int, since: int, until: int) {
    !IsZero(since) && cutoff <= since && since + GAP_TOLERANCE <= until
  }

  /** The window shows the same gaps, with the same reasons, before and after pruning. */
  predicate ReasonsKept(rows: seq<Row>, key: string, cutoff: int, since: int, until: int, ttl: int) {
    SameGaps(Query(rows, key, since, until, ttl).gaps, Query(PrunedRows(rows, cutoff), key, since, until, ttl).gaps,
             true)
  }

  lemma QueriesAgree(rows: seq<Row>, key: string, cutoff: int, since: int, until: int, ttl: int)
    requires RowsOk(rows) && RetainedWindow(cutoff, since, until)
    ensures var input := SessionsOf(rows, key);
            AllWellFormed(input) && AllWellFormed(PrunedSessions(input, cutoff)) &&
            SameGaps(Summarise(input, since, until, Max(ttl, 0)).gaps, Query(rows, key, since, until, ttl).gaps,
                     true) &&
            SameGaps(Summarise(PrunedSessions(input, cutoff), since, until, Max(ttl, 0)).gaps,
                     Query(PrunedRows(rows, cutoff), key, since, until, ttl).gaps, true)
  {
    PruneKeepsRowsOk(rows, cutoff);
    SessionsOfPruned(rows, key, cutoff);
    SessionsOfOk(rows, key);
    SessionsOfOk(PrunedRows(rows, cutoff), key);
    WindowedQueryPreservesMeaning(rows, key, since, until, ttl);
    WindowedQueryPreservesMeaning(PrunedRows(rows, cutoff), key, since, until, ttl);
  }

  lemma PruneKeepsReasons(rows: seq<Row>, key: string, cutoff: int, since: int, until: int, ttl: int)
    requires RowsOk(rows) && RetainedWindow(cutoff, since, until)
    requires ReasonSurvives(SessionsOf(rows, key), cutoff, Max(ttl, 0))
    ensures ReasonsKept(rows, key, cutoff, since, until, ttl)
  {
    var input, credit := SessionsOf(rows, key), Max(ttl, 0);
    QueriesAgree(rows, key, cutoff, since, until, ttl);
    SummariesAgree(input, cutoff, since, until, credit);
    SameGapsThrough(Summarise(input, since, until, credit).gaps,
                    Summarise(PrunedSessions(input, cutoff), since, until, credit).gaps,
                    Query(rows, key, since, until, ttl).gaps,
                    Query(PrunedRows(rows, cutoff), key, since, until, ttl).gaps);
  }

  lemma SummariesAgree(input: seq<Session>, cutoff: int, since: int, until: int, ttl: int)
    requires AllWellFormed(input) && AllWellFormed(PrunedSessions(input, cutoff)) &&
             RetainedWindow(cutoff, since, until)
    requires ReasonSurvives(input, cutoff, ttl)
    ensures SameGaps(Summarise(input, since, until, ttl).gaps,
                     Summarise(PrunedSessions(input, cutoff), since, until, ttl).gaps, true)
  {
    SurvivingPassesAgree(input, ttl, cutoff);
    SummaryOfFold(input, since, until, ttl);
    SummaryOfFold(PrunedSessions(input, cutoff), since, until, ttl);
    SimilarGaps(Fold(START, StableSort(input), ttl), Fold(START, StableSort(PrunedSessions(input, cutoff)), ttl),
                cutoff, since, until);
  }

  lemma SimilarGaps(a: Acc, b: Acc, cutoff: int, since: int, until: int)
    requires Sim(a, b, Slack(cutoff, cutoff, cutoff + GAP_TOLERANCE, true)) && RetainedWindow(cutoff, since, until)
    ensures SameGaps(Gaps(Clip(a.out, since, until), until), Gaps(Clip(b.out, since, until), until), true)
  {
    ClipSim(a, b, since, until, Slack(cutoff, cutoff, cutoff + GAP_TOLERANCE, true));
    GapsAlike(Clip(a.out, since, until), Clip(b.out, since, until), until, true);
  }

  /** Pruning keeps the reason of every gap in every retained window, exactly when the reason of the latest old row
      survives the change of order. */
  lemma PruneKeepsReasonsIff(rows: seq<Row>, key: string, cutoff: int, ttl: int)
    requires RowsOk(rows)
    ensures (forall since, until ::
               RetainedWindow(cutoff, since, until) ==> ReasonsKept(rows, key, cutoff, since, until, ttl)) <==>
            ReasonSurvives(SessionsOf(rows, key), cutoff, Max(ttl, 0))
  {
    var input, credit := SessionsOf(rows, key), Max(ttl, 0);
    if ReasonSurvives(input, cutoff, credit) {
      forall since, until | RetainedWindow(cutoff, since, until)
        ensures ReasonsKept(rows, key, cutoff, since, until, ttl)
      {
        PruneKeepsReasons(rows, key, cutoff, since, until, ttl);
      }
    } else {
      var since, before, after := LostReason(rows, key, cutoff, ttl);
      assert RetainedWindow(cutoff, since, since + GAP_TOLERANCE + 1);
    }
  }

  /** The window that shows the loss, and the reason that it shows before and after. */
  lemma LostReason(rows: seq<Row>, key: string, cutoff: int, ttl: int)
    returns (since: int, before: string, after: string)
    requires RowsOk(rows) && !ReasonSurvives(SessionsOf(rows, key), cutoff, Max(ttl, 0))
    ensures var early := Old(SessionsOf(rows, key), cutoff);
            since == Latest(early).end && before == Latest(StableSort(early)).endReason &&
            after == Latest(early).endReason
    ensures var until := since + GAP_TOLERANCE + 1;
            RetainedWindow(cutoff, since, until) && !ReasonsKept(rows, key, cutoff, since, until, ttl) &&
            FirstReason(Query(rows, key, since, until, ttl).gaps, before) &&
            FirstReason(Query(PrunedRows(rows, cutoff), key, since, until, ttl).gaps, after)
  {
    var input, credit := SessionsOf(rows, key), Max(ttl, 0);
    var early := Old(input, cutoff);
    since, before, after := Latest(early).end, Latest(StableSort(early)).endReason, Latest(early).endReason;
    var until := since + GAP_TOLERANCE + 1;
    LatestIsWellFormed(rows, key, cutoff);
    QueriesAgree(rows, key, cutoff, since, until, ttl);
    LostBefore(input, credit, cutoff, since, before);
    LostAfter(input, credit, cutoff, since, after);
    var g, h := Query(rows, key, since, until, ttl).gaps, Query(PrunedRows(rows, cutoff), key, since, until, ttl).gaps;
    SameFirstReason(Summarise(input, since, until, credit).gaps, g, before);
    SameFirstReason(Summarise(PrunedSessions(input, cutoff), since, until, credit).gaps, h, after);
    OtherFirstReason(g, h, before, after);
  }

  lemma LatestIsWellFormed(rows: seq<Row>, key: string, cutoff: int)
    requires RowsOk(rows) && Old(SessionsOf(rows, key), cutoff) != []
    ensures !IsZero(Latest(Old(SessionsOf(rows, key), cutoff)).end)
  {
    var input := SessionsOf(rows, key);
    SessionsOfOk(rows, key);
    KeepMembers(StartsBy(cutoff), input);
    var i :| 0 <= i < |input| && input[i] == Latest(Old(input, cutoff));
    assert WellFormed(input[i]);
  }

  /** Rows in start order lose no reason. */
  lemma OrderedRowsKeepReasons(rows: seq<Row>, key: string, cutoff: int, since: int, until: int, ttl: int)
    requires RowsOk(rows) && RetainedWindow(cutoff, since, until) && SortedByStart(SessionsOf(rows, key))
    ensures ReasonsKept(rows, key, cutoff, since, until, ttl)
  {
    SessionsOfOk(rows, key);
    KeepSorted(StartsBy(cutoff), SessionsOf(rows, key));
    SortOfSorted(Old(SessionsOf(rows, key), cutoff));
    PruneKeepsReasons(rows, key, cutoff, since, until, ttl);
  }

  /** Two sessions that end together, the one that started first second in the table. */
  predicate Crossed(s: Session, t: Session, cutoff: int) {
    t.start < s.start <= cutoff <= s.end == t.end && s.endReason != t.endReason
  }

  lemma CrossedInBothOrders(s: Session, t: Session, cutoff: int)
    requires Crossed(s, t, cutoff)
    ensures Old([s, t], cutoff) == [s, t] && StableSort([s, t]) == [t, s]
    ensures Keep(StartsAfter(cutoff), [t, s]) == []
  {
    assert [s, t][1..] == [t] && [t][1..] == [] && [t, s][1..] == [s] && [s][1..] == [];
    assert Keep(StartsBy(cutoff), [t]) == [t] && [s] + [t] == [s, t];
    assert StableSort([t]) == [t] && InsertByStart(s, [t]) == [t] + InsertByStart(s, []);
    assert [t] + [s] == [t, s];
    assert Keep(StartsAfter(cutoff), [s]) == [];
  }

  lemma CrossedLatest(s: Session, t: Session, cutoff: int)
    requires Crossed(s, t, cutoff)
    ensures Latest([s, t]) == s && Latest([t, s]) == t
  {
    LatestFurther([s], t);
    LatestFurther([t], s);
    assert [s] + [t] == [s, t] && [t] + [s] == [t, s];
  }

  lemma CrossedLoses(s: Session, t: Session, cutoff: int, ttl: int)
    requires Crossed(s, t, cutoff)
    ensures !ReasonSurvives([s, t], cutoff, ttl)
  {
    CrossedInBothOrders(s, t, cutoff);
    CrossedLatest(s, t, cutoff);
  }

  lemma SessionsOfTwo(a: Row, b: Row, key: string)
    requires a.key == b.key == key
    ensures SessionsOf([a, b], key) == [ToSession(a), ToSession(b)]
  {
    assert [a, b][1..] == [b] && [b][1..] == [];
    assert SessionsOf([b], key) == [ToSession(b)];
    assert [ToSession(a)] + [ToSession(b)] == [ToSession(a), ToSession(b)];
  }

  /** In any table with two such rows for the key, the gap after both was put down to the row that started first, and
      is put down to the other one after pruning. */
  lemma CrossedRowsSwapReasons(rows: seq<Row>, key: string, cutoff: int, ttl: int, input: seq<Session>, s: Session,
                               t: Session)
    returns (since: int, before: string, after: string)
    requires RowsOk(rows) && input == SessionsOf(rows, key) && input == [s, t] && Crossed(s, t, cutoff)
    ensures since == s.end && before == t.endReason && after == s.endReason
    ensures FirstReason(Query(rows, key, since, since + GAP_TOLERANCE + 1, ttl).gaps, before)
    ensures FirstReason(Query(PrunedRows(rows, cutoff), key, since, since + GAP_TOLERANCE + 1, ttl).gaps, after)
  {
    CrossedLoses(s, t, cutoff, Max(ttl, 0));
    since, before, after := LostReason(rows, key, cutoff, ttl);
    CrossedReasons(input, s, t, cutoff, since, before, after);
  }

  lemma CrossedReasons(input: seq<Session>, s: Session, t: Session, cutoff: int, since: int, before: string,
                       after: string)
    requires input == [s, t] && Crossed(s, t, cutoff) && Old(input, cutoff) != []
    requires since == Latest(Old(input, cutoff)).end && after == Latest(Old(input, cutoff)).endReason
    requires before == Latest(StableSort(Old(input, cutoff))).endReason
    ensures since == s.end && before == t.endReason && after == s.endReason
  {
    CrossedInBothOrders(s, t, cutoff);
    CrossedLatest(s, t, cutoff);
  }

  /** For instance. */
  lemma PruneMayChangeReason()
    ensures var rows := [Row(1, "c", "cluster", 300_000, 1_000_000, false, "unreachable"),
                         Row(2, "c", "cluster", 200_000, 1_000_000, false, "system_sleep")];
            FirstReason(Query(rows, "c", 1_000_000, 1_120_001, 0).gaps, "system_sleep") &&
            FirstReason(Query(PrunedRows(rows, 500_000), "c", 1_000_000, 1_120_001, 0).gaps, "unreachable")
  {
    var a, b := Row(1, "c", "cluster", 300_000, 1_000_000, false, "unreachable"),
                Row(2, "c", "cluster", 200_000, 1_000_000, false, "system_sleep");
    SessionsOfTwo(a, b, "c");
    var since, before, after :=
      CrossedRowsSwapReasons([a, b], "c", 500_000, 0, SessionsOf([a, b], "c"), ToSession(a), ToSession(b));
  }

  // ----- the tables that recorders write -----

  predicate StartsInOrder(rows: seq<Row>) {
    forall i, j :: 0 <= i < j < |rows| ==> rows[i].startedAt <= rows[j].startedAt
  }

  predicate StartFrom(rows: seq<Row>, lo: int) {
    forall r :: r in rows ==> lo <= r.startedAt
  }

  lemma OrderedTail(rows: seq<Row>)
    requires rows != [] && StartsInOrder(rows)
    ensures StartsInOrder(rows[1..]) && StartFrom(rows[1..], rows[0].startedAt)
  {
  }

  lemma OrderedCons(r: Row, rows: seq<Row>)
    requires StartsInOrder(rows) && StartFrom(rows, r.startedAt)
    ensures StartsInOrder([r] + rows)
  {
    assert forall i :: 0 <= i < |rows| ==> rows[i] in rows;
  }

  lemma {:induction false} PrunedStartFrom(rows: seq<Row>, cutoff: int, lo: int)
    requires StartFrom(rows, lo)
    ensures StartFrom(PrunedRows(rows, cutoff), Max(lo, cutoff))
  {
    if rows != [] {
      assert rows[0] in rows && forall r :: r in rows[1..] ==> r in rows;
      PrunedStartFrom(rows[1..], cutoff, lo);
    }
  }

  /** Rows in start order, none of them started after the clock. */
  ghost predicate InOrder(w: World) {
    StartsInOrder(w.s.table.rows) && forall i :: 0 <= i < |w.s.table.rows| ==> w.s.table.rows[i].startedAt <= w.clock
  }

  /** The same rows, perhaps with other ends, flags or reasons, and at most one more, started at now. */
  predicate Continues(rows: seq<Row>, more: seq<Row>, now: int) {
    |rows| <= |more| <= |rows| + 1 &&
    (forall i :: 0 <= i < |rows| ==> more[i].startedAt == rows[i].startedAt) &&
    (|more| == |rows| + 1 ==> more[|rows|].startedAt == now)
  }

  lemma ContinuesInOrder(w: World, v: World)
    requires InOrder(w) && w.clock <= v.clock && Continues(w.s.table.rows, v.s.table.rows, v.clock)
    ensures InOrder(v)
  {
  }

  lemma OpenedContinues(s: State, key: string, c: Context, backfilled: bool)
    requires 0 < c.now
    ensures Continues(s.table.rows, Opened(s, key, c, backfilled).table.rows, c.now)
  {
  }

  lemma UpdatedContinues(t: Table, id: int, op: RowOp, dbOk: bool, now: int)
    ensures Continues(t.rows, Updated(t, id, op, dbOk).0.rows, now) && |Updated(t, id, op, dbOk).0.rows| == |t.rows|
  {
  }

  lemma EstablishedContinues(s: State, key: string, c: Context)
    requires 0 < c.now
    ensures Continues(s.table.rows, Established(s, key, c).table.rows, c.now)
  {
    OpenedContinues(s, key, c, true);
    var (touched, outcome) := Updated(s.table, s.rec.sessionID, Touch(c.now), c.db.touch);
    UpdatedContinues(s.table, s.rec.sessionID, Touch(c.now), c.db.touch, c.now);
    UpdatedContinues(touched, s.rec.sessionID, MarkBackfilled, c.db.mark, c.now);
  }

  lemma RelabelledContinues(s: State, key: string, c: Context, reason: string)
    requires 0 < c.now
    ensures var t := Updated(s.table, s.rec.sessionID, SetEndReason(reason), c.db.reason).0;
            Continues(s.table.rows, t.rows, c.now) &&
            Continues(s.table.rows, Opened(State(t, s.rec), key, c, false).table.rows, c.now)
  {
    UpdatedContinues(s.table, s.rec.sessionID, SetEndReason(reason), c.db.reason, c.now);
    OpenedContinues(State(Updated(s.table, s.rec.sessionID, SetEndReason(reason), c.db.reason).0, s.rec), key, c,
                    false);
  }

  lemma TickedContinues(s: State, key: string, c: Context)
    requires 0 < c.now
    ensures Continues(s.table.rows, Ticked(s, key, c).table.rows, c.now)
  {
    var r := s.rec;
    OpenedContinues(s, key, c, false);
    if r.live == 0 {
      RelabelledContinues(s, key, c, if c.denied then END_RBAC_DENIED else END_UNREACHABLE);
    } else if r.sessionID != 0 && c.now - r.lastTouch > GAP_TOLERANCE {
      RelabelledContinues(s, key, c, END_SYSTEM_SLEEP);
    } else {
      UpdatedContinues(s.table, r.sessionID, Touch(c.now), c.db.touch, c.now);
    }
  }

  /** Pruning raises every start to the same cutoff. */
  lemma {:induction false} PrunedInOrder(rows: seq<Row>, cutoff: int)
    requires StartsInOrder(rows)
    ensures StartsInOrder(PrunedRows(rows, cutoff))
  {
    if rows != [] {
      OrderedTail(rows);
      PrunedInOrder(rows[1..], cutoff);
      PrunedStartFrom(rows[1..], cutoff, rows[0].startedAt);
      OrderedCons(rows[0].(startedAt := Max(rows[0].startedAt, cutoff)), PrunedRows(rows[1..], cutoff));
    }
  }

  lemma NextInOrder(w: World, key: string, e: Event)
    requires Sound(w, key) && Timely(w, key, e) && InOrder(w)
    ensures InOrder(Next(w, key, e))
  {
    match e {
      case StreamUp(c) =>
        EstablishedContinues(w.s.(rec := w.s.rec.(live := w.s.rec.live + 1)), key, c);
        ContinuesInOrder(w, Next(w, key, e));
      case Tick(c) =>
        TickedContinues(w.s, key, c);
        ContinuesInOrder(w, Next(w, key, e));
      case Finish(c) =>
        UpdatedContinues(w.s.table, w.s.rec.sessionID, End(c.now, w.s.rec.stopReason), c.db.end, c.now);
        ContinuesInOrder(w, Next(w, key, e));
      case OtherOpens(other, scope, now, backfilled) =>
        ContinuesInOrder(w, Next(w, key, e));
      case OtherWrites(id, op, now) =>
        UpdatedContinues(w.s.table, id, op, true, now);
        ContinuesInOrder(w, Next(w, key, e));
      case Prune(cutoff) => PrunedKeepsOrder(w, key, cutoff);
      case DropOld(cutoff) => DroppedKeepsOrder(w, key, cutoff);
      case _ =>
    }
  }

  lemma {:induction false} RecentInOrder(rows: seq<Row>, cutoff: int)
    requires StartsInOrder(rows)
    ensures StartsInOrder(RecentRows(rows, cutoff))
  {
    if rows != [] {
      OrderedTail(rows);
      RecentInOrder(rows[1..], cutoff);
      RecentIsSome(rows[1..], cutoff);
      OrderedCons(rows[0], RecentRows(rows[1..], cutoff));
    }
  }

  lemma DroppedKeepsOrder(w: World, key: string, cutoff: int)
    requires InOrder(w)
    ensures InOrder(Next(w, key, DropOld(cutoff)))
  {
    var rows := w.s.table.rows;
    RecentInOrder(rows, cutoff);
    forall i | 0 <= i < |RecentRows(rows, cutoff)| ensures RecentRows(rows, cutoff)[i].startedAt <= w.clock {
      var j := RecentRowFrom(rows, cutoff, i);
    }
  }

  lemma PrunedKeepsOrder(w: World, key: string, cutoff: int)
    requires Sound(w, key) && InOrder(w)
    ensures InOrder(Next(w, key, Prune(cutoff)))
  {
    var rows := w.s.table.rows;
    PrunedInOrder(rows, cutoff);
    var p := PrunedRows(rows, cutoff);
    forall i | 0 <= i < |p| ensures p[i].startedAt <= w.clock {
      var j := PrunedRowFrom(rows, cutoff, i);
      assert RowSound(w, key, rows[j]);
    }
  }

  lemma {:induction false} RunInOrder(w: World, key: string, events: seq<Event>)
    requires Sound(w, key) && AllTimely(w, key, events) && InOrder(w)
    ensures InOrder(Run(w, key, events)) && Sound(Run(w, key, events), key)
    decreases |events|
  {
    if events != [] {
      NextInOrder(w, key, events[0]);
      NextSound(w, key, events[0]);
      RunInOrder(Next(w, key, events[0]), key, events[1..]);
    }
  }

  lemma {:induction false} SessionsFrom(rows: seq<Row>, key: string, lo: int)
    requires RowsOk(rows) && StartFrom(rows, lo)
    ensures forall s :: s in SessionsOf(rows, key) ==> lo <= s.start
  {
    if rows != [] {
      assert RowOk(rows[0]) && rows[0] in rows && forall r :: r in rows[1..] ==> r in rows;
      SessionsFrom(rows[1..], key, lo);
    }
  }

  lemma {:induction false} OrderedSessions(rows: seq<Row>, key: string)
    requires RowsOk(rows) && StartsInOrder(rows)
    ensures SortedByStart(SessionsOf(rows, key))
  {
    if rows != [] {
      assert RowOk(rows[0]);
      OrderedTail(rows);
      OrderedSessions(rows[1..], key);
      SessionsFrom(rows[1..], key, rows[0].startedAt);
      if rows[0].key == key {
        SortedCons(ToSession(rows[0]), SessionsOf(rows[1..], key));
      }
    }
  }

  /** In every run of recorder steps, pruning at any cutoff keeps every gap of every retained window, with its
      reason. */
  lemma RecordedReasonsSurvive(clock: int, key: string, events: seq<Event>, cutoff: int, since: int, until: int,
                               ttl: int)
    requires 0 < clock && AllTimely(Initial(clock), key, events) && RetainedWindow(cutoff, since, until)
    ensures ReasonsKept(Run(Initial(clock), key, events).s.table.rows, key, cutoff, since, until, ttl)
  {
    RunInOrder(Initial(clock), key, events);
    var w := Run(Initial(clock), key, events);
    forall i | 0 <= i < |w.s.table.rows| ensures RowOk(w.s.table.rows[i]) {
      assert RowSound(w, key, w.s.table.rows[i]);
    }
    OrderedSessions(w.s.table.rows, key);
    OrderedRowsKeepReasons(w.s.table.rows, key, cutoff, since, until, ttl);
  }
}
