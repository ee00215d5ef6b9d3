/** When a recorder lets a session go, and that the row of a session which is not open never changes again. */
module ClosedRows {
  import opened Sessions
  import opened CoverageStore
  import opened RecorderSteps
  import opened RecorderRuns
  import opened RecorderLabels

  /** Equal in all but the start, which pruning raises. */
  predicate SameButStart(a: Row, r: Row) {
    a.id == r.id && a.key == r.key && a.scope == r.scope && a.endedAt == r.endedAt && a.backfilled == r.backfilled &&
    a.endReason == r.endReason
  }

  /** If the row is still there, it is unchanged. */
  predicate Stands(t: Table, r: Row) {
    forall i :: 0 <= i < |t.rows| && t.rows[i].id == r.id ==> SameButStart(t.rows[i], r)
  }

  /** The row is not that of the open session. */
  predicate Closed(s: State, r: Row) {
    0 < r.id < s.table.nextId && s.rec.sessionID != r.id && Stands(s.table, r)
  }

  lemma UpdatedStands(t: Table, open: int, op: RowOp, dbOk: bool, r: Row)
    requires Stands(t, r) && open != r.id
    ensures Stands(Updated(t, open, op, dbOk).0, r)
  {
    var v := Updated(t, open, op, dbOk).0;
    forall i | 0 <= i < |v.rows| && v.rows[i].id == r.id ensures SameButStart(v.rows[i], r) {
      assert t.rows[i].id == r.id;
    }
  }

  lemma OpenedKeepsClosed(s: State, key: string, c: Context, backfilled: bool, r: Row)
    requires Closed(s, r)
    ensures Closed(Opened(s, key, c, backfilled), r)
  {
  }

  lemma EstablishedKeepsClosed(s: State, key: string, c: Context, r: Row)
    requires Closed(s, r)
    ensures Closed(Established(s, key, c), r)
  {
    OpenedKeepsClosed(s, key, c, true, r);
    var touched := Updated(s.table, s.rec.sessionID, Touch(c.now), c.db.touch).0;
    UpdatedStands(s.table, s.rec.sessionID, Touch(c.now), c.db.touch, r);
    UpdatedStands(touched, s.rec.sessionID, MarkBackfilled, c.db.mark, r);
  }

  lemma TickedKeepsClosed(s: State, key: string, c: Context, r: Row)
    requires Closed(s, r)
    ensures Closed(Ticked(s, key, c), r)
  {
    var reason := if c.denied then END_RBAC_DENIED else END_UNREACHABLE;
    UpdatedStands(s.table, s.rec.sessionID, SetEndReason(reason), c.db.reason, r);
    UpdatedStands(s.table, s.rec.sessionID, SetEndReason(END_SYSTEM_SLEEP), c.db.reason, r);
    UpdatedStands(s.table, s.rec.sessionID, Touch(c.now), c.db.touch, r);
    var slept := Updated(s.table, s.rec.sessionID, SetEndReason(END_SYSTEM_SLEEP), c.db.reason).0;
    OpenedKeepsClosed(s, key, c, false, r);
    OpenedKeepsClosed(State(slept, s.rec), key, c, false, r);
  }

  lemma NextKeepsClosed(w: World, key: string, e: Event, r: Row)
    requires Timely(w, key, e) && Closed(w.s, r) && r.key == key
    ensures Closed(Next(w, key, e).s, r)
  {
    var rows, v := w.s.table.rows, Next(w, key, e).s;
    match e {
      case StreamUp(c) => EstablishedKeepsClosed(w.s.(rec := w.s.rec.(live := w.s.rec.live + 1)), key, c, r);
      case Tick(c) => TickedKeepsClosed(w.s, key, c, r);
      case Finish(c) => UpdatedStands(w.s.table, w.s.rec.sessionID, End(c.now, w.s.rec.stopReason), c.db.end, r);
      case Prune(cutoff) =>
        forall i | 0 <= i < |v.table.rows| && v.table.rows[i].id == r.id ensures SameButStart(v.table.rows[i], r) {
          var j := PrunedRowFrom(rows, cutoff, i);
        }
      case DropOld(cutoff) =>
        forall i | 0 <= i < |v.table.rows| && v.table.rows[i].id == r.id ensures SameButStart(v.table.rows[i], r) {
          var j := RecentRowFrom(rows, cutoff, i);
        }
      case OtherWrites(open, op, now) =>
        if open != r.id {
          UpdatedStands(w.s.table, open, op, true, r);
        }
      case _ =>
    }
  }

  lemma {:induction false} RunKeepsClosed(w: World, key: string, events: seq<Event>, r: Row)
    requires AllTimely(w, key, events) && Closed(w.s, r) && r.key == key
    ensures Closed(Run(w, key, events).s, r)
    decreases |events|
  {
    if events != [] {
      NextKeepsClosed(w, key, events[0], r);
      RunKeepsClosed(Next(w, key, events[0]), key, events[1..], r);
    }
  }

  /** In every run: a row of the cluster that is not the open session's keeps its end, its end reason, its scope and its
      mark in every continuation, as long as it is there; and the recorder never takes up its session again. */
  lemma ClosedRowsNeverChange(clock: int, key: string, before: seq<Event>, after: seq<Event>, i: nat)
    requires 0 < clock && AllTimely(Initial(clock), key, before)
    requires AllTimely(After(clock, key, before), key, after)
    requires var w := After(clock, key, before);
             i < |w.s.table.rows| && w.s.table.rows[i].key == key && w.s.table.rows[i].id != w.s.rec.sessionID
    ensures var w := After(clock, key, before);
            var v := Run(w, key, after);
            v.s.rec.sessionID != w.s.table.rows[i].id && Stands(v.s.table, w.s.table.rows[i])
  {
    RunSound(Initial(clock), key, before);
    var w := After(clock, key, before);
    var r := w.s.table.rows[i];
    assert RowSound(w, key, r);
    forall j | 0 <= j < |w.s.table.rows| && w.s.table.rows[j].id == r.id ensures SameButStart(w.s.table.rows[j], r) {
      assert j == i;
    }
    RunKeepsClosed(w, key, after, r);
  }

  /** The open row ended more than the tolerance before now. */
  predicate Lapsed(w: World, key: string, now: int) {
    exists i :: 0 <= i < |w.s.table.rows| && w.s.table.rows[i].key == key &&
                w.s.table.rows[i].id == w.s.rec.sessionID && now - w.s.table.rows[i].endedAt > GAP_TOLERANCE
  }

  /** In every run: a finish lets the session go, and so does a tick after it has lapsed, if no stream is live, or if
      the row of a new session can be written. */
  lemma SessionsAreLetGo(clock: int, key: string, events: seq<Event>, c: Context)
    requires 0 < clock && AllTimely(Initial(clock), key, events)
    ensures After(clock, key, events + [Finish(c)]).s.rec.sessionID == 0
    ensures var w := After(clock, key, events);
            w.s.rec.sessionID != 0 && Lapsed(w, key, c.now) && (LiveAfter(events) == 0 || c.db.begin) ==>
              var v := After(clock, key, events + [Tick(c)]);
              v.s.rec.sessionID == if LiveAfter(events) == 0 then 0 else w.s.table.nextId
  {
    RunSnoc(Initial(clock), key, events, Finish(c));
    RunSnoc(Initial(clock), key, events, Tick(c));
    RecorderIsCounted(clock, key, events);
    RunSound(Initial(clock), key, events);
    var w := After(clock, key, events);
    if w.s.rec.sessionID != 0 && Lapsed(w, key, c.now) {
      var i :| 0 <= i < |w.s.table.rows| && w.s.table.rows[i].key == key && w.s.table.rows[i].id == w.s.rec.sessionID &&
               c.now - w.s.table.rows[i].endedAt > GAP_TOLERANCE;
      OpenRowEnds(w, key, i);
    }
  }

  /** A tick asks for the streams to be established again exactly when some are live and the open row has lapsed. */
  lemma ResyncIff(clock: int, key: string, events: seq<Event>, c: Context)
    requires 0 < clock && AllTimely(Initial(clock), key, events)
    requires var w := After(clock, key, events); w.s.rec.sessionID != 0 && HasRow(w.s.table.rows, w.s.rec.sessionID)
    ensures var w := After(clock, key, events);
            AsksResync(w.s, c) <==> LiveAfter(events) > 0 && Lapsed(w, key, c.now)
  {
    RecorderIsCounted(clock, key, events);
    RunSound(Initial(clock), key, events);
    var w := After(clock, key, events);
    OpenLastTouched(w, key, c.now);
  }

  // ----- when a session is opened -----

  lemma OpenLastTouched(w: World, key: string, now: int)
    requires Sound(w, key) && w.s.rec.sessionID != 0 && HasRow(w.s.table.rows, w.s.rec.sessionID)
    ensures now - w.s.rec.lastTouch > GAP_TOLERANCE <==> Lapsed(w, key, now)
  {
    var i :| 0 <= i < |w.s.table.rows| && w.s.table.rows[i].id == w.s.rec.sessionID;
    assert RowSound(w, key, w.s.table.rows[i]);
    OpenRowEnds(w, key, i);
    if Lapsed(w, key, now) {
      var j :| 0 <= j < |w.s.table.rows| && w.s.table.rows[j].key == key && w.s.table.rows[j].id == w.s.rec.sessionID &&
               now - w.s.table.rows[j].endedAt > GAP_TOLERANCE;
      OpenRowEnds(w, key, j);
    }
  }

  /** From w to v a row has been opened. */
  predicate OpensOne(w: World, v: World) {
    v.s.table.nextId == w.s.table.nextId + 1
  }

  /** In every run: a tick opens a row exactly when some stream is live, and the open row has lapsed or there is none;
      and an establishment exactly when the open row has lapsed or cannot be touched, or there is none; if the row can
      be written. The row of an open session can be gone only because it was cleared or pruned: then one is opened,
      too. */
  lemma SessionsAreOpenedIff(clock: int, key: string, events: seq<Event>, c: Context)
    requires 0 < clock && AllTimely(Initial(clock), key, events) && c.db.begin
    ensures var w := After(clock, key, events);
            var there := HasRow(w.s.table.rows, w.s.rec.sessionID);
            (w.s.rec.sessionID == 0 || there || c.db.touch) ==>
              var ticked, up := After(clock, key, events + [Tick(c)]), After(clock, key, events + [StreamUp(c)]);
              var gone := w.s.rec.sessionID == 0 || !there;
              (OpensOne(w, ticked) <==> LiveAfter(events) > 0 && (gone || Lapsed(w, key, c.now))) &&
              (OpensOne(w, up) <==> gone || Lapsed(w, key, c.now) || !c.db.touch)
  {
    RunSnoc(Initial(clock), key, events, Tick(c));
    RunSnoc(Initial(clock), key, events, StreamUp(c));
    RecorderIsCounted(clock, key, events);
    RunSound(Initial(clock), key, events);
    var w := After(clock, key, events);
    if w.s.rec.sessionID != 0 && HasRow(w.s.table.rows, w.s.rec.sessionID) {
      OpenLastTouched(w, key, c.now);
    }
  }
}
