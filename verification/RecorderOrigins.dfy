/** Where the rows of a cluster come from, and that none is forgotten: in every run each row has the scope and the time
    of the event that opened it, and what was recorded stays recorded until it is cleared or pruned. */
module RecorderOrigins {
  import opened Sessions
  import opened CoverageStore
  import opened RecorderSteps
  import opened RecorderRuns
  import opened RecorderLabels

  /** The event opens a row with this scope at this time. */
  predicate Opens(e: Event, scope: string, at: int) {
    match e
    case StreamUp(c) => c.scope == scope && c.now == at
    case Tick(c) => c.scope == scope && c.now == at
    case _ => false
  }

  predicate OpenedAt(events: seq<Event>, scope: string, at: int) {
    exists i :: 0 <= i < |events| && Opens(events[i], scope, at)
  }

  /** The row starts when it was opened, or at the cutoff of a prune. */
  predicate StartsAt(events: seq<Event>, r: Row, at: int) {
    r.startedAt == at || Prune(r.startedAt) in events
  }

  /** The event takes away rows that end at this time. */
  predicate Removes(e: Event, end: int) {
    match e
    case ClearTable => true
    case Prune(cutoff) => end < cutoff
    case DropOld(cutoff) => end < cutoff
    case _ => false
  }

  predicate RemovedBy(events: seq<Event>, end: int) {
    exists i :: 0 <= i < |events| && Removes(events[i], end)
  }

  /** A row of the cluster has the scope and the start that its opening gave it. */
  predicate HasOrigin(w: World, events: seq<Event>, r: Row) {
    r.id in w.log && w.log[r.id] != [] && OpenedAt(events, r.scope, w.log[r.id][0]) &&
    StartsAt(events, r, w.log[r.id][0])
  }

  /** Every row of the cluster has its origin, and every row ever opened is there unless an event removed it. */
  ghost predicate Remembers(w: World, key: string, events: seq<Event>) {
    (forall i :: 0 <= i < |w.s.table.rows| && w.s.table.rows[i].key == key ==>
                   HasOrigin(w, events, w.s.table.rows[i])) &&
    (forall id {:trigger id in w.log} :: id in w.log ==> Kept(w, key, events, id))
  }

  predicate Kept(w: World, key: string, events: seq<Event>, id: int)
    requires id in w.log
  {
    w.log[id] != [] && (OursIn(w.s.table.rows, key, id) || RemovedBy(events, Last(w.log[id])))
  }

  predicate OursIn(rows: seq<Row>, key: string, id: int) {
    exists i :: 0 <= i < |rows| && rows[i].id == id && rows[i].key == key
  }

  // ----- one step -----

  /** What a step leaves of a row: its id, its key, its scope, and its start unless a prune raises it. */
  predicate CameFrom(e: Event, old_: Row, new_: Row) {
    old_.id == new_.id && old_.key == new_.key && old_.scope == new_.scope &&
    (old_.startedAt == new_.startedAt || e == Prune(new_.startedAt))
  }

  predicate StoodAs(e: Event, rows: seq<Row>, r: Row) {
    exists i :: 0 <= i < |rows| && CameFrom(e, rows[i], r)
  }

  /** The row was opened by this very event. */
  predicate JustOpened(w: World, v: World, e: Event, r: Row) {
    r.id !in w.log && r.id in v.log && v.log[r.id] == [r.startedAt] && Opens(e, r.scope, r.startedAt)
  }

  lemma CameFromRow(e: Event, rows: seq<Row>, i: nat, r: Row)
    requires i < |rows| && CameFrom(e, rows[i], r)
    ensures StoodAs(e, rows, r)
  {
  }

  lemma UpdatedComesFrom(t: Table, id: int, op: RowOp, dbOk: bool, e: Event, i: nat)
    requires i < |t.rows|
    ensures |Updated(t, id, op, dbOk).0.rows| == |t.rows| && CameFrom(e, t.rows[i], Updated(t, id, op, dbOk).0.rows[i])
  {
  }

  lemma StreamUpComesFrom(w: World, key: string, c: Context, j: nat)
    requires Sound(w, key) && w.clock <= c.now && j < |Next(w, key, StreamUp(c)).s.table.rows|
    ensures var v := Next(w, key, StreamUp(c));
            StoodAs(StreamUp(c), w.s.table.rows, v.s.table.rows[j]) ||
            JustOpened(w, v, StreamUp(c), v.s.table.rows[j])
  {
    var rows, r, e := w.s.table.rows, w.s.rec, StreamUp(c);
    if j < |rows| {
      var touched := Updated(w.s.table, r.sessionID, Touch(c.now), c.db.touch).0;
      UpdatedComesFrom(w.s.table, r.sessionID, Touch(c.now), c.db.touch, e, j);
      UpdatedComesFrom(touched, r.sessionID, MarkBackfilled, c.db.mark, e, j);
      CameFromRow(e, rows, j, Next(w, key, e).s.table.rows[j]);
    } else {
      assert w.s.table.nextId !in w.log;
    }
  }

  /** A tick makes at most one write to the row of the open session, and then opens at most one row. */
  lemma TickShape(s: State, key: string, c: Context) returns (op: RowOp, ok: bool, opens: bool)
    ensures var t := Updated(s.table, s.rec.sessionID, op, ok).0;
            Ticked(s, key, c).table == if opens then Begun(t, key, c.scope, c.now, false, true).0 else t
    ensures op.Touch? || op.SetEndReason?
    ensures var r := Ticked(s, key, c).rec;
            if opens then r.sessionID == s.table.nextId && r.lastTouch == c.now && !r.sessionBackfilled
            else (r.sessionID == 0 || r.sessionID == s.rec.sessionID) && r.sessionBackfilled == s.rec.sessionBackfilled
  {
    var r := s.rec;
    opens := c.db.begin && r.live > 0 &&
      (r.sessionID == 0 || c.now - r.lastTouch > GAP_TOLERANCE ||
       Updated(s.table, r.sessionID, Touch(c.now), c.db.touch).1 == NoSession);
    if r.live == 0 {
      op := SetEndReason(if c.denied then END_RBAC_DENIED else END_UNREACHABLE);
      ok := c.now - r.lastTouch > GAP_TOLERANCE && c.db.reason;
    } else if r.sessionID != 0 && c.now - r.lastTouch > GAP_TOLERANCE {
      op, ok := SetEndReason(END_SYSTEM_SLEEP), c.slept && c.db.reason;
    } else {
      op, ok := Touch(c.now), c.db.touch;
    }
  }

  lemma TickComesFrom(w: World, key: string, c: Context, j: nat)
    requires Sound(w, key) && w.clock <= c.now && j < |Next(w, key, Tick(c)).s.table.rows|
    ensures var v := Next(w, key, Tick(c));
            StoodAs(Tick(c), w.s.table.rows, v.s.table.rows[j]) || JustOpened(w, v, Tick(c), v.s.table.rows[j])
  {
    var rows, e := w.s.table.rows, Tick(c);
    var op, ok, opens := TickShape(w.s, key, c);
    if j < |rows| {
      UpdatedComesFrom(w.s.table, w.s.rec.sessionID, op, ok, e, j);
      CameFromRow(e, rows, j, Next(w, key, e).s.table.rows[j]);
    } else {
      assert w.s.table.nextId !in w.log;
    }
  }

  lemma NextComesFrom(w: World, key: string, e: Event, j: nat)
    requires Sound(w, key) && Timely(w, key, e) && j < |Next(w, key, e).s.table.rows|
    requires Next(w, key, e).s.table.rows[j].key == key
    ensures var v := Next(w, key, e);
            StoodAs(e, w.s.table.rows, v.s.table.rows[j]) || JustOpened(w, v, e, v.s.table.rows[j])
  {
    var rows, r := w.s.table.rows, Next(w, key, e).s.table.rows[j];
    match e {
      case StreamUp(c) => StreamUpComesFrom(w, key, c, j);
      case Tick(c) => TickComesFrom(w, key, c, j);
      case Finish(c) =>
        UpdatedComesFrom(w.s.table, w.s.rec.sessionID, End(c.now, w.s.rec.stopReason), c.db.end, e, j);
        CameFromRow(e, rows, j, r);
      case Prune(cutoff) =>
        var i := PrunedRowFrom(rows, cutoff, j);
        CameFromRow(e, rows, i, r);
      case DropOld(cutoff) =>
        var i := RecentRowFrom(rows, cutoff, j);
        CameFromRow(e, rows, i, r);
      case OtherWrites(id, op, now) =>
        UpdatedComesFrom(w.s.table, id, op, true, e, j);
        CameFromRow(e, rows, j, r);
      case _ => CameFromRow(e, rows, j, r);
    }
  }

  // ----- nothing is forgotten -----

  /** What a step does to the observations of a row that was opened before: none is lost, and there are more only while
      the row is in the table. */
  predicate LogKeeps(w: World, v: World, key: string, id: int)
    requires id in w.log
  {
    id in v.log && w.log[id] != [] && v.log[id] != [] && v.log[id][0] == w.log[id][0] &&
    (v.log[id] == w.log[id] || OursIn(v.s.table.rows, key, id))
  }

  lemma NotedKeeps(log: map<int, seq<int>>, id: int, now: int, k: int)
    requires k in log && log[k] != []
    ensures k in Noted(log, id, now) && Noted(log, id, now)[k] != [] && Noted(log, id, now)[k][0] == log[k][0]
    ensures k != id ==> Noted(log, id, now)[k] == log[k]
  {
  }

  lemma UpdatedStays(t: Table, id: int, op: RowOp, dbOk: bool, key: string, k: int)
    requires OursIn(t.rows, key, k)
    ensures OursIn(Updated(t, id, op, dbOk).0.rows, key, k)
  {
    var i :| 0 <= i < |t.rows| && t.rows[i].id == k && t.rows[i].key == key;
    assert Updated(t, id, op, dbOk).0.rows[i].id == k;
  }

  lemma BegunStays(t: Table, key: string, scope: string, start: int, backfilled: bool, own: string, k: int)
    requires OursIn(t.rows, own, k)
    ensures OursIn(Begun(t, key, scope, start, backfilled, true).0.rows, own, k)
  {
    var i :| 0 <= i < |t.rows| && t.rows[i].id == k && t.rows[i].key == own;
    assert Begun(t, key, scope, start, backfilled, true).0.rows[i].id == k;
  }

  lemma {:induction false} PrunedStays(rows: seq<Row>, cutoff: int, key: string, i: nat)
    requires i < |rows| && rows[i].key == key && cutoff <= rows[i].endedAt
    ensures OursIn(PrunedRows(rows, cutoff), key, rows[i].id)
  {
    if i == 0 {
      assert PrunedRows(rows, cutoff)[0].id == rows[0].id;
    } else {
      PrunedStays(rows[1..], cutoff, key, i - 1);
      var rest := PrunedRows(rows[1..], cutoff);
      var j :| 0 <= j < |rest| && rest[j].id == rows[i].id && rest[j].key == key;
      var p := PrunedRows(rows, cutoff);
      assert rest[j] == p[if rows[0].endedAt < cutoff then j else j + 1];
    }
  }

  lemma RecentStays(rows: seq<Row>, cutoff: int, key: string, i: nat)
    requires i < |rows| && rows[i].key == key && cutoff <= rows[i].endedAt
    ensures OursIn(RecentRows(rows, cutoff), key, rows[i].id)
  {
    RecentIsSome(rows, cutoff);
    var p := RecentRows(rows, cutoff);
    assert rows[i] in p;
    var j :| 0 <= j < |p| && p[j] == rows[i];
  }

  lemma StreamUpStays(w: World, key: string, c: Context, k: int)
    requires OursIn(w.s.table.rows, key, k)
    ensures OursIn(Next(w, key, StreamUp(c)).s.table.rows, key, k)
  {
    var r := w.s.rec;
    var touched := Updated(w.s.table, r.sessionID, Touch(c.now), c.db.touch).0;
    UpdatedStays(w.s.table, r.sessionID, Touch(c.now), c.db.touch, key, k);
    UpdatedStays(touched, r.sessionID, MarkBackfilled, c.db.mark, key, k);
    BegunStays(w.s.table, key, c.scope, c.now, true, key, k);
  }

  lemma TickStays(w: World, key: string, c: Context, k: int)
    requires OursIn(w.s.table.rows, key, k)
    ensures OursIn(Next(w, key, Tick(c)).s.table.rows, key, k)
  {
    var op, ok, opens := TickShape(w.s, key, c);
    UpdatedStays(w.s.table, w.s.rec.sessionID, op, ok, key, k);
    BegunStays(Updated(w.s.table, w.s.rec.sessionID, op, ok).0, key, c.scope, c.now, false, key, k);
  }

  lemma NextStays(w: World, key: string, e: Event, i: nat)
    requires i < |w.s.table.rows| && w.s.table.rows[i].key == key && !Removes(e, w.s.table.rows[i].endedAt)
    ensures OursIn(Next(w, key, e).s.table.rows, key, w.s.table.rows[i].id)
  {
    var k := w.s.table.rows[i].id;
    assert OursIn(w.s.table.rows, key, k);
    match e {
      case StreamUp(c) => StreamUpStays(w, key, c, k);
      case Tick(c) => TickStays(w, key, c, k);
      case Finish(c) => UpdatedStays(w.s.table, w.s.rec.sessionID, End(c.now, w.s.rec.stopReason), c.db.end, key, k);
      case Prune(cutoff) => PrunedStays(w.s.table.rows, cutoff, key, i);
      case DropOld(cutoff) => RecentStays(w.s.table.rows, cutoff, key, i);
      case OtherOpens(other, scope, now, backfilled) => BegunStays(w.s.table, other, scope, now, backfilled, key, k);
      case OtherWrites(id, op, now) => UpdatedStays(w.s.table, id, op, true, key, k);
      case _ =>
    }
  }

  lemma OpenRowIsOurs(w: World, key: string)
    requires Sound(w, key) && w.s.rec.sessionID != 0 && HasRow(w.s.table.rows, w.s.rec.sessionID)
    ensures OursIn(w.s.table.rows, key, w.s.rec.sessionID)
  {
    var i :| 0 <= i < |w.s.table.rows| && w.s.table.rows[i].id == w.s.rec.sessionID;
    assert RowSound(w, key, w.s.table.rows[i]);
  }

  /** In one step: a row opened before keeps its observations, and one opened now is in the table. */
  predicate LogSteps(w: World, v: World, key: string, id: int)
    requires id in v.log
  {
    if id in w.log then LogKeeps(w, v, key, id) else v.log[id] != [] && OursIn(v.s.table.rows, key, id)
  }

  /** A step that leaves the log alone, opens a row, or touches the one that is open. */
  lemma LogOfStep(w: World, v: World, key: string, id: int)
    requires Sound(w, key) && id in v.log
    requires v.log == w.log ||
             (exists k, now :: v.log == Noted(w.log, k, now) && OursIn(v.s.table.rows, key, k))
    ensures LogSteps(w, v, key, id)
  {
    assert id in w.log ==> Chain(w.log[id], w.clock);
    if v.log != w.log {
      var k, now :| v.log == Noted(w.log, k, now) && OursIn(v.s.table.rows, key, k);
      if id in w.log {
        NotedKeeps(w.log, k, now, id);
      }
    }
  }

  lemma StreamUpLog(w: World, key: string, c: Context, id: int)
    requires Sound(w, key) && w.clock <= c.now && id in Next(w, key, StreamUp(c)).log
    ensures LogSteps(w, Next(w, key, StreamUp(c)), key, id)
  {
    var r, v := w.s.rec, Next(w, key, StreamUp(c));
    if HasRow(w.s.table.rows, r.sessionID) && r.sessionID != 0 {
      OpenRowIsOurs(w, key);
      StreamUpStays(w, key, c, r.sessionID);
    }
    if v.s.rec.sessionID == w.s.table.nextId && v.log != w.log {
      OpenedIsOurs(w.s.(rec := v.s.rec), key, c, true);
    }
    if v.log != w.log {
      assert v.log == Noted(w.log, v.s.rec.sessionID, v.s.rec.lastTouch);
    }
    LogOfStep(w, v, key, id);
  }

  lemma OpenedIsOurs(s: State, key: string, c: Context, backfilled: bool)
    ensures OursIn(Begun(s.table, key, c.scope, c.now, backfilled, true).0.rows, key, s.table.nextId)
  {
    var rows := Begun(s.table, key, c.scope, c.now, backfilled, true).0.rows;
    assert rows[|s.table.rows|].id == s.table.nextId;
  }

  lemma TickLog(w: World, key: string, c: Context, id: int)
    requires Sound(w, key) && w.clock <= c.now && id in Next(w, key, Tick(c)).log
    ensures LogSteps(w, Next(w, key, Tick(c)), key, id)
  {
    var v := Next(w, key, Tick(c));
    if v.log != w.log {
      assert v.log == Noted(w.log, v.s.rec.sessionID, v.s.rec.lastTouch);
      TickNotesOurs(w, key, c);
    }
    LogOfStep(w, v, key, id);
  }

  lemma TickNotesOurs(w: World, key: string, c: Context)
    requires Sound(w, key) && Next(w, key, Tick(c)).log != w.log
    ensures var v := Next(w, key, Tick(c)); OursIn(v.s.table.rows, key, v.s.rec.sessionID)
  {
    var r, v := w.s.rec, Next(w, key, Tick(c));
    var op, ok, opens := TickShape(w.s, key, c);
    if opens {
      OpenedIsOurs(State(Updated(w.s.table, r.sessionID, op, ok).0, r), key, c, false);
    } else {
      OpenRowIsOurs(w, key);
      TickStays(w, key, c, r.sessionID);
    }
  }

  lemma FinishLog(w: World, key: string, c: Context, id: int)
    requires Sound(w, key) && w.clock <= c.now && id in Next(w, key, Finish(c)).log
    ensures LogSteps(w, Next(w, key, Finish(c)), key, id)
  {
    var r, v := w.s.rec, Next(w, key, Finish(c));
    if v.log != w.log {
      OpenRowIsOurs(w, key);
      UpdatedStays(w.s.table, r.sessionID, End(c.now, r.stopReason), c.db.end, key, r.sessionID);
      assert v.log == Noted(w.log, r.sessionID, c.now);
    }
    LogOfStep(w, v, key, id);
  }

  lemma NextLog(w: World, key: string, e: Event, id: int)
    requires Sound(w, key) && Timely(w, key, e) && id in Next(w, key, e).log
    ensures LogSteps(w, Next(w, key, e), key, id)
  {
    match e {
      case StreamUp(c) => StreamUpLog(w, key, c, id);
      case Tick(c) => TickLog(w, key, c, id);
      case Finish(c) => FinishLog(w, key, c, id);
      case _ => LogOfStep(w, Next(w, key, e), key, id);
    }
  }

  // ----- runs -----

  lemma OriginFurther(w: World, v: World, key: string, events: seq<Event>, e: Event, old_: Row, new_: Row)
    requires HasOrigin(w, events, old_) && CameFrom(e, old_, new_) && LogKeeps(w, v, key, old_.id)
    ensures HasOrigin(v, events + [e], new_)
  {
    var at := w.log[old_.id][0];
    var i :| 0 <= i < |events| && Opens(events[i], old_.scope, at);
    assert (events + [e])[i] == events[i];
    assert OpenedAt(events + [e], new_.scope, at);
  }

  lemma OriginNow(w: World, v: World, events: seq<Event>, e: Event, r: Row)
    requires JustOpened(w, v, e, r)
    ensures HasOrigin(v, events + [e], r)
  {
    assert (events + [e])[|events|] == e;
  }

  lemma NextHasOrigin(w: World, key: string, events: seq<Event>, e: Event, j: nat)
    requires Sound(w, key) && Timely(w, key, e) && Remembers(w, key, events)
    requires j < |Next(w, key, e).s.table.rows| && Next(w, key, e).s.table.rows[j].key == key
    ensures HasOrigin(Next(w, key, e), events + [e], Next(w, key, e).s.table.rows[j])
  {
    var rows, v, r := w.s.table.rows, Next(w, key, e), Next(w, key, e).s.table.rows[j];
    NextComesFrom(w, key, e, j);
    if StoodAs(e, rows, r) {
      var i :| 0 <= i < |rows| && CameFrom(e, rows[i], r);
      assert HasOrigin(w, events, rows[i]);
      NextSound(w, key, e);
      assert RowSound(v, key, r);
      NextLog(w, key, e, r.id);
      OriginFurther(w, v, key, events, e, rows[i], r);
    } else {
      OriginNow(w, v, events, e, r);
    }
  }

  lemma RemovedFurther(events: seq<Event>, e: Event, end: int)
    ensures RemovedBy(events, end) || Removes(e, end) ==> RemovedBy(events + [e], end)
  {
    if RemovedBy(events, end) {
      var i :| 0 <= i < |events| && Removes(events[i], end);
      assert (events + [e])[i] == events[i];
    }
    assert (events + [e])[|events|] == e;
  }

  lemma NextKept(w: World, key: string, events: seq<Event>, e: Event, id: int)
    requires Sound(w, key) && Timely(w, key, e) && Remembers(w, key, events) && id in Next(w, key, e).log
    ensures Kept(Next(w, key, e), key, events + [e], id)
  {
    NextLog(w, key, e, id);
    if id in w.log {
      assert Kept(w, key, events, id);
      RemovedFurther(events, e, Last(w.log[id]));
      if OursIn(w.s.table.rows, key, id) {
        var i :| 0 <= i < |w.s.table.rows| && w.s.table.rows[i].id == id && w.s.table.rows[i].key == key;
        assert RowSound(w, key, w.s.table.rows[i]);
        if !Removes(e, w.s.table.rows[i].endedAt) {
          NextStays(w, key, e, i);
        }
      }
    }
  }

  lemma {:induction false} RunRemembers(clock: int, key: string, events: seq<Event>)
    requires 0 < clock && AllTimely(Initial(clock), key, events)
    ensures Remembers(After(clock, key, events), key, events) && Sound(After(clock, key, events), key)
  {
    RunSound(Initial(clock), key, events);
    if events != [] {
      var init, e := events[..|events| - 1], events[|events| - 1];
      assert events == init + [e];
      RunSnoc(Initial(clock), key, init, e);
      RunRemembers(clock, key, init);
      var w := After(clock, key, init);
      forall j | 0 <= j < |Next(w, key, e).s.table.rows| && Next(w, key, e).s.table.rows[j].key == key
        ensures HasOrigin(Next(w, key, e), events, Next(w, key, e).s.table.rows[j])
      {
        NextHasOrigin(w, key, init, e, j);
      }
      forall id | id in Next(w, key, e).log ensures Kept(Next(w, key, e), key, events, id) {
        NextKept(w, key, init, e, id);
      }
    }
  }

  /** In every run: each row of the cluster has the scope of the event that opened it, and starts when it was opened,
      or at the cutoff of a prune. */
  lemma RowsHaveOrigins(clock: int, key: string, events: seq<Event>, j: nat)
    requires 0 < clock && AllTimely(Initial(clock), key, events)
    requires var rows := After(clock, key, events).s.table.rows; j < |rows| && rows[j].key == key
    ensures HasOrigin(After(clock, key, events), events, After(clock, key, events).s.table.rows[j])
  {
    RunRemembers(clock, key, events);
  }

  /** In every run: what was observed of a session that was ever opened is in the table, up to its last observation,
      unless the table was cleared or a prune had a later cutoff. */
  lemma NothingIsForgotten(clock: int, key: string, events: seq<Event>, id: int)
    requires 0 < clock && AllTimely(Initial(clock), key, events) && id in After(clock, key, events).log
    ensures var w := After(clock, key, events);
            w.log[id] != [] &&
            (RemovedBy(events, Last(w.log[id])) ||
             exists i :: 0 <= i < |w.s.table.rows| && w.s.table.rows[i].id == id && w.s.table.rows[i].key == key &&
                         w.s.table.rows[i].endedAt == Last(w.log[id]) &&
                         StartsAt(events, w.s.table.rows[i], w.log[id][0]))
  {
    RunRemembers(clock, key, events);
    var w := After(clock, key, events);
    assert Kept(w, key, events, id);
    if OursIn(w.s.table.rows, key, id) {
      var i :| 0 <= i < |w.s.table.rows| && w.s.table.rows[i].id == id && w.s.table.rows[i].key == key;
      assert RowSound(w, key, w.s.table.rows[i]) && HasOrigin(w, events, w.s.table.rows[i]);
    }
  }

  // ----- backfill -----

  /** The recorder knows whether its open row is marked backfilled. */
  predicate FlagIsTrue(w: World, key: string) {
    forall i :: 0 <= i < |w.s.table.rows| && w.s.table.rows[i].key == key &&
                w.s.table.rows[i].id == w.s.rec.sessionID && w.s.rec.sessionID != 0 ==>
                  w.s.table.rows[i].backfilled == w.s.rec.sessionBackfilled
  }

  lemma OldIdsAreSmaller(w: World, key: string)
    requires Sound(w, key)
    ensures forall i :: 0 <= i < |w.s.table.rows| ==> 0 < w.s.table.rows[i].id < w.s.table.nextId
  {
    forall i | 0 <= i < |w.s.table.rows| ensures 0 < w.s.table.rows[i].id < w.s.table.nextId {
      assert RowSound(w, key, w.s.table.rows[i]);
    }
  }

  lemma StreamUpFlag(w: World, key: string, c: Context)
    requires Sound(w, key) && FlagIsTrue(w, key)
    ensures FlagIsTrue(Next(w, key, StreamUp(c)), key)
  {
    OldIdsAreSmaller(w, key);
    var r, v := w.s.rec, Next(w, key, StreamUp(c));
    var (touched, outcome) := Updated(w.s.table, r.sessionID, Touch(c.now), c.db.touch);
    forall i | 0 <= i < |v.s.table.rows| && v.s.table.rows[i].key == key &&
               v.s.table.rows[i].id == v.s.rec.sessionID && v.s.rec.sessionID != 0
      ensures v.s.table.rows[i].backfilled == v.s.rec.sessionBackfilled
    {
      if i < |w.s.table.rows| {
        UpdatedLabels(w.s.table, r.sessionID, Touch(c.now), c.db.touch, i);
        UpdatedLabels(touched, r.sessionID, MarkBackfilled, c.db.mark, i);
      }
    }
  }

  lemma TickFlag(w: World, key: string, c: Context)
    requires Sound(w, key) && FlagIsTrue(w, key)
    ensures FlagIsTrue(Next(w, key, Tick(c)), key)
  {
    OldIdsAreSmaller(w, key);
    var op, ok, opens := TickShape(w.s, key, c);
    TickedFlag(w, key, Next(w, key, Tick(c)), c, op, ok, opens);
  }

  lemma TickedFlag(w: World, key: string, v: World, c: Context, op: RowOp, ok: bool, opens: bool)
    requires FlagIsTrue(w, key) && (op.Touch? || op.SetEndReason?)
    requires forall i :: 0 <= i < |w.s.table.rows| ==> 0 < w.s.table.rows[i].id < w.s.table.nextId
    requires var t := Updated(w.s.table, w.s.rec.sessionID, op, ok).0;
             v.s.table == if opens then Begun(t, key, c.scope, c.now, false, true).0 else t
    requires var r := v.s.rec;
             if opens then r.sessionID == w.s.table.nextId && !r.sessionBackfilled
             else (r.sessionID == 0 || r.sessionID == w.s.rec.sessionID) &&
                  r.sessionBackfilled == w.s.rec.sessionBackfilled
    ensures FlagIsTrue(v, key)
  {
  }

  lemma NextFlag(w: World, key: string, e: Event)
    requires Sound(w, key) && Timely(w, key, e) && FlagIsTrue(w, key)
    ensures FlagIsTrue(Next(w, key, e), key)
  {
    var v := Next(w, key, e);
    match e {
      case StreamUp(c) => StreamUpFlag(w, key, c);
      case Tick(c) => TickFlag(w, key, c);
      case Prune(cutoff) =>
        forall i | 0 <= i < |v.s.table.rows| && v.s.table.rows[i].key == key &&
                   v.s.table.rows[i].id == v.s.rec.sessionID
          ensures v.s.table.rows[i].backfilled == v.s.rec.sessionBackfilled || v.s.rec.sessionID == 0
        {
          var j := PrunedRowFrom(w.s.table.rows, cutoff, i);
        }
      case DropOld(cutoff) =>
        forall i | 0 <= i < |v.s.table.rows| && v.s.table.rows[i].key == key &&
                   v.s.table.rows[i].id == v.s.rec.sessionID
          ensures v.s.table.rows[i].backfilled == v.s.rec.sessionBackfilled || v.s.rec.sessionID == 0
        {
          var j := RecentRowFrom(w.s.table.rows, cutoff, i);
        }
      case OtherOpens(other, scope, now, backfilled) => OldIdsAreSmaller(w, key);
      case _ =>
    }
  }

  lemma {:induction false} RunFlag(clock: int, key: string, events: seq<Event>)
    requires 0 < clock && AllTimely(Initial(clock), key, events)
    ensures FlagIsTrue(After(clock, key, events), key)
  {
    if events != [] {
      var init, e := events[..|events| - 1], events[|events| - 1];
      assert events == init + [e];
      RunSnoc(Initial(clock), key, init, e);
      RunFlag(clock, key, init);
      RunSound(Initial(clock), key, init);
      NextFlag(After(clock, key, init), key, e);
    }
  }

  /** The row of the session that is open after the event. */
  predicate OpenRow(w: World, key: string, i: int) {
    0 <= i < |w.s.table.rows| && w.s.table.rows[i].id == w.s.rec.sessionID && w.s.table.rows[i].key == key
  }

  /** In every run: an establishment whose writes go through leaves an open row that ends now and, unless the session
      was opened more than the tolerance ago, is backfilled. */
  lemma EstablishmentEarnsBackfill(clock: int, key: string, events: seq<Event>, c: Context)
    requires 0 < clock && AllTimely(Initial(clock), key, events + [StreamUp(c)])
    requires c.db.touch && c.db.mark && c.db.begin
    ensures var w := After(clock, key, events + [StreamUp(c)]);
            w.s.rec.sessionID in w.log && w.log[w.s.rec.sessionID] != [] &&
            exists i :: OpenRow(w, key, i) && w.s.table.rows[i].endedAt == c.now &&
                        (c.now - w.log[w.s.rec.sessionID][0] <= GAP_TOLERANCE ==> w.s.table.rows[i].backfilled)
  {
    RunSnoc(Initial(clock), key, events, StreamUp(c));
    RunSound(Initial(clock), key, events);
    var w := After(clock, key, events);
    RunFlag(clock, key, events + [StreamUp(c)]);
    RunSound(Initial(clock), key, events + [StreamUp(c)]);
    EstablishedRow(w, key, c);
  }

  lemma EstablishedRow(w: World, key: string, c: Context)
    requires Sound(w, key) && w.clock <= c.now && c.db.touch && c.db.mark && c.db.begin
    requires Sound(Next(w, key, StreamUp(c)), key) && FlagIsTrue(Next(w, key, StreamUp(c)), key)
    ensures var v := Next(w, key, StreamUp(c));
            v.s.rec.sessionID in v.log && v.log[v.s.rec.sessionID] != [] &&
            exists i :: OpenRow(v, key, i) && v.s.table.rows[i].endedAt == c.now &&
                        (c.now - v.log[v.s.rec.sessionID][0] <= GAP_TOLERANCE ==> v.s.table.rows[i].backfilled)
  {
    var r, v := w.s.rec, Next(w, key, StreamUp(c));
    if r.sessionID != 0 && c.now - r.lastTouch <= GAP_TOLERANCE && HasRow(w.s.table.rows, r.sessionID) {
      OpenRowIsOurs(w, key);
      StreamUpStays(w, key, c, r.sessionID);
    } else {
      OpenedIsOurs(w.s, key, c, true);
    }
    var i :| 0 <= i < |v.s.table.rows| && v.s.table.rows[i].id == v.s.rec.sessionID && v.s.table.rows[i].key == key;
    assert RowSound(v, key, v.s.table.rows[i]) && OpenRow(v, key, i);
    FlagAfter(w, key, c);
  }

  lemma FlagAfter(w: World, key: string, c: Context)
    requires Sound(w, key) && w.clock <= c.now && c.db.touch && c.db.mark && c.db.begin
    ensures var v := Next(w, key, StreamUp(c)).s.rec;
            v.sessionID != 0 && v.lastTouch == c.now &&
            (c.now - v.sessionStart <= GAP_TOLERANCE ==> v.sessionBackfilled)
  {
    var touched := Updated(w.s.table, w.s.rec.sessionID, Touch(c.now), true).0;
    if HasRow(w.s.table.rows, w.s.rec.sessionID) {
      var i :| 0 <= i < |w.s.table.rows| && w.s.table.rows[i].id == w.s.rec.sessionID;
      assert touched.rows == w.s.table.rows || touched.rows[i].id == w.s.rec.sessionID;
    }
  }
}
