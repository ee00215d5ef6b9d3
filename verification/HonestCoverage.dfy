/** What coverage reports mean, end to end: from the recorder's steps, through the table, to the query. */
module HonestCoverage {
  import opened Sessions
  import opened CoverageFold
  import opened CoverageWindow
  import opened CoverageStore
  import opened CoverageQueries
  import opened RecorderSteps
  import opened RecorderRuns

  predicate Observed(w: World, t: int) {
    exists id :: id in w.log && t in w.log[id]
  }

  /** t lies between two observations at most GAP_TOLERANCE apart. */
  predicate BetweenObservations(w: World, t: int) {
    exists a, b :: Observed(w, a) && Observed(w, b) && a <= t <= b <= a + GAP_TOLERANCE
  }

  /** The i-th row is backfilled, a stream was established within GAP_TOLERANCE of when it was opened, and t lies before
      that, at most ttl + GAP_TOLERANCE before the row's start: what the API server still held then was captured. */
  predicate CreditedBy(w: World, ttl: int, i: nat, t: int)
    requires i < |w.s.table.rows|
  {
    var r := w.s.table.rows[i];
    ttl > 0 && r.backfilled && r.id in w.log && w.log[r.id] != [] && EstablishedNear(w.established, w.log[r.id][0]) &&
    r.startedAt - ttl - GAP_TOLERANCE <= t <= w.log[r.id][0] <= r.startedAt
  }

  predicate BeforeEstablishment(w: World, ttl: int, t: int) {
    exists i :: 0 <= i < |w.s.table.rows| && CreditedBy(w, ttl, i, t)
  }

  predicate Honest(w: World, ttl: int, t: int) {
    BetweenObservations(w, t) || BeforeEstablishment(w, ttl, t)
  }

  lemma {:induction false} InstantOfChain(xs: seq<int>, clock: int, t: int) returns (i: nat)
    requires Chain(xs, clock) && xs[0] <= t <= Last(xs)
    ensures i < |xs| && xs[i] <= t
    ensures t == xs[i] || (i + 1 < |xs| && t <= xs[i + 1] <= xs[i] + GAP_TOLERANCE)
  {
    var n := |xs| - 1;
    if t == xs[n] {
      i := n;
    } else if xs[n - 1] <= t {
      i := n - 1;
      assert xs[i] <= xs[i + 1] <= xs[i] + GAP_TOLERANCE;
    } else {
      assert xs[n - 1] <= xs[n - 1 + 1];
      i := InstantOfChain(xs[..n], clock, t);
    }
  }

  lemma InRowIsBetween(w: World, key: string, i: nat, t: int)
    requires Sound(w, key) && i < |w.s.table.rows|
    requires var r := w.s.table.rows[i];
             r.key == key && r.id in w.log && w.log[r.id] != [] && w.log[r.id][0] <= t <= r.endedAt
    ensures BetweenObservations(w, t)
  {
    var r := w.s.table.rows[i];
    assert RowSound(w, key, r);
    var xs := w.log[r.id];
    var j := InstantOfChain(xs, w.clock, t);
    assert xs[j] in xs && Observed(w, xs[j]);
    if t != xs[j] {
      assert xs[j + 1] in xs && Observed(w, xs[j + 1]);
    }
  }

  lemma SoundRowsOk(w: World, key: string)
    requires Sound(w, key)
    ensures RowsOk(w.s.table.rows)
  {
    forall i | 0 <= i < |w.s.table.rows| ensures RowOk(w.s.table.rows[i]) {
      assert RowSound(w, key, w.s.table.rows[i]);
    }
  }

  lemma RowOfSession(w: World, key: string, s: Session) returns (i: nat)
    requires Sound(w, key) && s in SessionsOf(w.s.table.rows, key)
    ensures i < |w.s.table.rows| && s.start == w.s.table.rows[i].startedAt && s.end == w.s.table.rows[i].endedAt
    ensures s.backfilled == w.s.table.rows[i].backfilled && w.s.table.rows[i].key == key &&
            OwnSound(w, w.s.table.rows[i])
    ensures Observed(w, w.log[w.s.table.rows[i].id][0]) && Observed(w, s.end) && 0 < s.start
  {
    SessionOfRow(w.s.table.rows, key, s);
    i :| 0 <= i < |w.s.table.rows| && w.s.table.rows[i].key == key && s == ToSession(w.s.table.rows[i]);
    SoundRowsOk(w, key);
    var r := w.s.table.rows[i];
    assert RowSound(w, key, r) && RowOk(r);
    assert w.log[r.id][0] in w.log[r.id] && Last(w.log[r.id]) in w.log[r.id];
  }

  /** An instant that the stored sessions explain is honestly covered. */
  lemma ExplainedIsHonest(w: World, key: string, ttl: int, t: int)
    requires Sound(w, key) && Explained(SessionsOf(w.s.table.rows, key), ttl, t)
    ensures Honest(w, ttl, t)
  {
    var xs := SessionsOf(w.s.table.rows, key);
    if InSession(xs, t) {
      var s :| s in xs && s.start <= t <= s.end;
      var i := RowOfSession(w, key, s);
      InRowIsBetween(w, key, i, t);
    } else if InShortHole(xs, t) {
      var a, b :| a in xs && b in xs && a.end <= t <= b.start && b.start - a.end <= GAP_TOLERANCE;
      var i := RowOfSession(w, key, a);
      var j := RowOfSession(w, key, b);
      if w.log[w.s.table.rows[j].id][0] <= t {
        InRowIsBetween(w, key, j, t);
      }
    } else {
      var s :| s in xs && s.backfilled && s.start - ttl - GAP_TOLERANCE <= t <= s.start;
      var i := RowOfSession(w, key, s);
      if w.log[w.s.table.rows[i].id][0] <= t {
        InRowIsBetween(w, key, i, t);
      } else {
        assert CreditedBy(w, ttl, i, t);
      }
    }
  }

  lemma {:induction false} ClippedFrom(xs: seq<Session>, since: int, until: int, i: nat) returns (j: nat)
    requires i < |Clip(xs, since, until)|
    ensures j < |xs| && xs[j].start <= Clip(xs, since, until)[i].start && Clip(xs, since, until)[i].end <= xs[j].end
  {
    if !Visible(xs[0], since, until) {
      j := ClippedFrom(xs[1..], since, until, i);
      j := j + 1;
    } else if i == 0 {
      j := 0;
    } else {
      j := ClippedFrom(xs[1..], since, until, i - 1);
      j := j + 1;
    }
  }

  lemma FewerSessionsExplainLess(xs: seq<Session>, ys: seq<Session>, ttl: int, t: int)
    requires Explained(xs, ttl, t) && forall s :: s in xs ==> s in ys
    ensures Explained(ys, ttl, t)
  {
    if InSession(xs, t) {
      assert InSession(ys, t);
    } else if InShortHole(xs, t) {
      assert InShortHole(ys, t);
    } else {
      assert InBackfill(ys, ttl, t);
    }
  }

  lemma SelectedSessions(rows: seq<Row>, key: string, since: int, until: int, ttl: int)
    requires RowsOk(rows)
    ensures var xs := Select(rows, key, since, until, ttl);
            AllWellFormed(xs) && forall s :: s in xs ==> s in SessionsOf(rows, key)
  {
    var all, xs := SessionsOf(rows, key), Select(rows, key, since, until, ttl);
    SelectIsFilter(rows, key, since, until, ttl);
    SessionsOfOk(rows, key);
    var early := Keep(StartsBy(until + ttl), all);
    KeepMembers(StartsBy(until + ttl), all);
    KeepMembers(EndsFrom(since - ttl - GAP_TOLERANCE), early);
    forall i | 0 <= i < |xs| ensures WellFormed(xs[i]) {
      assert xs[i] in all;
    }
  }

  /** In every run, whatever crashes, failed writes, clears and prunes it contains, every instant that any query reports
      covered was recorded, or was still held by the API server when the stream was established that opened a backfilled
      row. */
  lemma CoverageIsHonest(clock: int, key: string, events: seq<Event>, since: int, until: int, ttl: int, i: nat, t: int)
    requires 0 < clock && AllTimely(Initial(clock), key, events)
    requires var q := Query(Run(Initial(clock), key, events).s.table.rows, key, since, until, ttl);
             i < |q.sessions| && q.sessions[i].start <= t <= q.sessions[i].end
    ensures Honest(Run(Initial(clock), key, events), Max(ttl, 0), t)
  {
    RunSound(Initial(clock), key, events);
    var w := Run(Initial(clock), key, events);
    var credit := Max(ttl, 0);
    SoundRowsOk(w, key);
    SelectedSessions(w.s.table.rows, key, since, until, credit);
    var xs := Select(w.s.table.rows, key, since, until, credit);
    var j := ClippedFrom(Merge(Effective(xs, credit)), since, until, i);
    CoverageIsExplained(xs, credit, j, t);
    FewerSessionsExplainLess(xs, SessionsOf(w.s.table.rows, key), credit, t);
    ExplainedIsHonest(w, key, credit, t);
  }

  /** In every run, a row marked backfilled had a stream established within GAP_TOLERANCE of when it was opened. */
  lemma BackfillIsEarned(clock: int, key: string, events: seq<Event>, i: nat)
    requires 0 < clock && AllTimely(Initial(clock), key, events)
    requires var w := Run(Initial(clock), key, events);
             i < |w.s.table.rows| && w.s.table.rows[i].key == key && w.s.table.rows[i].backfilled
    ensures var w := Run(Initial(clock), key, events);
            var r := w.s.table.rows[i];
            r.id in w.log && w.log[r.id] != [] && EstablishedNear(w.established, w.log[r.id][0])
  {
    RunSound(Initial(clock), key, events);
    var w := Run(Initial(clock), key, events);
    assert RowSound(w, key, w.s.table.rows[i]);
  }

  // ----- a row that has been given an end reason is final -----

  /** The row with this id, if it is still there, is the cluster's and ends at end. */
  predicate EndsAtTime(t: Table, key: string, id: int, end: int) {
    forall i :: 0 <= i < |t.rows| && t.rows[i].id == id ==> t.rows[i].key == key && t.rows[i].endedAt == end
  }

  /** The row is not the open session's, or the open session is already too old to be touched. */
  predicate Untouchable(rec: Recording, id: int, now: int) {
    rec.sessionID == id ==> now - rec.lastTouch > GAP_TOLERANCE
  }

  predicate Final(s: State, key: string, id: int, end: int, now: int) {
    0 < id < s.table.nextId && EndsAtTime(s.table, key, id, end) && Untouchable(s.rec, id, now)
  }

  lemma UpdatedKeepsEnd(t: Table, key: string, open: int, op: RowOp, dbOk: bool, id: int, end: int)
    requires EndsAtTime(t, key, id, end) && (open != id || op.MarkBackfilled? || op.SetEndReason?)
    ensures EndsAtTime(Updated(t, open, op, dbOk).0, key, id, end)
  {
    var v := Updated(t, open, op, dbOk).0;
    forall i | 0 <= i < |v.rows| && v.rows[i].id == id ensures v.rows[i].key == key && v.rows[i].endedAt == end {
      assert t.rows[i].id == id;
    }
  }

  lemma OpenedKeepsFinal(s: State, key: string, c: Context, backfilled: bool, id: int, end: int)
    requires Final(s, key, id, end, c.now)
    ensures Final(Opened(s, key, c, backfilled), key, id, end, c.now)
  {
  }

  lemma EstablishedKeepsFinal(s: State, key: string, c: Context, id: int, end: int)
    requires Final(s, key, id, end, c.now)
    ensures Final(Established(s, key, c), key, id, end, c.now)
  {
    OpenedKeepsFinal(s, key, c, true, id, end);
    if s.rec.sessionID != id {
      UpdatedKeepsEnd(s.table, key, s.rec.sessionID, Touch(c.now), c.db.touch, id, end);
      var touched := Updated(s.table, s.rec.sessionID, Touch(c.now), c.db.touch).0;
      UpdatedKeepsEnd(touched, key, s.rec.sessionID, MarkBackfilled, c.db.mark, id, end);
    }
  }

  lemma TickedKeepsFinal(s: State, key: string, c: Context, id: int, end: int)
    requires Final(s, key, id, end, c.now)
    ensures Final(Ticked(s, key, c), key, id, end, c.now)
  {
    var r := s.rec;
    if r.live == 0 {
      var reason := if c.denied then END_RBAC_DENIED else END_UNREACHABLE;
      UpdatedKeepsEnd(s.table, key, r.sessionID, SetEndReason(reason), c.db.reason, id, end);
    } else if r.sessionID != 0 && c.now - r.lastTouch > GAP_TOLERANCE && c.slept {
      var op := SetEndReason(END_SYSTEM_SLEEP);
      UpdatedKeepsEnd(s.table, key, r.sessionID, op, c.db.reason, id, end);
      OpenedKeepsFinal(State(Updated(s.table, r.sessionID, op, c.db.reason).0, r), key, c, false, id, end);
    } else {
      OpenedKeepsFinal(s, key, c, false, id, end);
      if r.sessionID != id {
        UpdatedKeepsEnd(s.table, key, r.sessionID, Touch(c.now), c.db.touch, id, end);
      }
    }
  }

  lemma NextKeepsFinal(w: World, key: string, e: Event, id: int, end: int)
    requires Timely(w, key, e) && Final(w.s, key, id, end, w.clock)
    ensures Final(Next(w, key, e).s, key, id, end, Next(w, key, e).clock)
  {
    var r := w.s.rec;
    match e {
      case StreamUp(c) => EstablishedKeepsFinal(w.s.(rec := r.(live := r.live + 1)), key, c, id, end);
      case Tick(c) => TickedKeepsFinal(w.s, key, c, id, end);
      case Finish(c) =>
        if r.sessionID != id {
          UpdatedKeepsEnd(w.s.table, key, r.sessionID, End(c.now, r.stopReason), c.db.end, id, end);
        }
      case Prune(cutoff) =>
        var rows := w.s.table.rows;
        var p := PrunedRows(rows, cutoff);
        forall i | 0 <= i < |p| && p[i].id == id ensures p[i].key == key && p[i].endedAt == end {
          var j := PrunedRowFrom(rows, cutoff, i);
        }
      case OtherOpens(other, scope, now, backfilled) =>
      case OtherWrites(open, op, now) =>
        if open != id {
          UpdatedKeepsEnd(w.s.table, key, open, op, true, id, end);
        }
      case DropOld(cutoff) =>
        var p := RecentRows(w.s.table.rows, cutoff);
        forall i | 0 <= i < |p| && p[i].id == id ensures p[i].key == key && p[i].endedAt == end {
          var j := RecentRowFrom(w.s.table.rows, cutoff, i);
        }
      case StreamDown =>
      case SetStopReason(reason) =>
      case Crash =>
      case ClearTable =>
    }
  }

  lemma {:induction false} RunKeepsFinal(w: World, key: string, events: seq<Event>, id: int, end: int)
    requires AllTimely(w, key, events) && Final(w.s, key, id, end, w.clock)
    ensures EndsAtTime(Run(w, key, events).s.table, key, id, end)
    decreases |events|
  {
    if events != [] {
      NextKeepsFinal(w, key, events[0], id, end);
      RunKeepsFinal(Next(w, key, events[0]), key, events[1..], id, end);
    }
  }

  /** Once a row has an end reason (unreachable, denied, sleep, or the stop reason), it never grows again, in any
      continuation of any run. */
  lemma EndedRowsNeverGrow(clock: int, key: string, before: seq<Event>, after: seq<Event>, i: nat, j: nat)
    requires 0 < clock && AllTimely(Initial(clock), key, before)
    requires AllTimely(Run(Initial(clock), key, before), key, after)
    requires var w := Run(Initial(clock), key, before);
             i < |w.s.table.rows| && w.s.table.rows[i].key == key && w.s.table.rows[i].endReason != ""
    requires var w := Run(Initial(clock), key, before);
             var v := Run(w, key, after);
             j < |v.s.table.rows| && v.s.table.rows[j].id == w.s.table.rows[i].id
    ensures var w := Run(Initial(clock), key, before);
            Run(w, key, after).s.table.rows[j].endedAt == w.s.table.rows[i].endedAt
  {
    var w := Run(Initial(clock), key, before);
    RunSound(Initial(clock), key, before);
    var r := w.s.table.rows[i];
    assert RowSound(w, key, r);
    forall k | 0 <= k < |w.s.table.rows| && w.s.table.rows[k].id == r.id
      ensures w.s.table.rows[k].key == key && w.s.table.rows[k].endedAt == r.endedAt
    {
      assert k == i;
    }
    RunKeepsFinal(w, key, after, r.id, r.endedAt);
  }
}
