/** Runs of one cluster's recorders over a coverage table that they share with the recorders of other clusters: what the
    rows of the cluster mean at every moment of every run. */
module RecorderRuns {
  import opened Sessions
  import opened CoverageStore
  import opened RecorderSteps

  /** Crash stands for a process that ends without finishing: the next recorder starts with nothing open. ClearTable,
      Prune, and DropOld, a Prune that failed half-way, may come from any process. OtherOpens and OtherWrites are
      what recorders of other clusters do to the table: a new row under the same counter of ids, and a write to such
      a row. */
  datatype Event =
    | StreamUp(c: Context)
    | StreamDown
    | Tick(c: Context)
    | SetStopReason(reason: string)
    | Finish(c: Context)
    | Crash
    | ClearTable
    | Prune(cutoff: int)
    | DropOld(cutoff: int)
    | OtherOpens(other: string, scope: string, now: int, backfilled: bool)
    | OtherWrites(id: int, op: RowOp, now: int)

  /** log holds, for every row ever opened, the times at which its recorder wrote it (begin, touch, end);
      established, the times at which a stream was established. Neither is part of the program's state. */
  datatype World = World(s: State, clock: int, log: map<int, seq<int>>, established: seq<int>)

  function Initial(clock: int): World {
    World(State(Table([], 1), IDLE), clock, map[], [])
  }

  /** No row of the cluster has this id. */
  predicate NotOurs(rows: seq<Row>, key: string, id: int) {
    forall i :: 0 <= i < |rows| && rows[i].id == id ==> rows[i].key != key
  }

  /** The clock does not go back, and recorders of other clusters write only rows of other clusters. */
  predicate Timely(w: World, key: string, e: Event) {
    match e
    case StreamUp(c) => w.clock <= c.now
    case Tick(c) => w.clock <= c.now
    case Finish(c) => w.clock <= c.now
    case OtherOpens(other, scope, now, backfilled) => w.clock <= now && other != key
    case OtherWrites(id, op, now) =>
      w.clock <= now && NotOurs(w.s.table.rows, key, id) && ((op.Touch? || op.End?) ==> op.t <= now)
    case _ => true
  }

  function Noted(log: map<int, seq<int>>, id: int, now: int): map<int, seq<int>> {
    log[id := (if id in log then log[id] else []) + [now]]
  }

  /** A new session or a new touch time is an observation of its row. */
  function Observe(log: map<int, seq<int>>, before: Recording, after: Recording): map<int, seq<int>> {
    if after.sessionID != 0 && (after.sessionID != before.sessionID || after.lastTouch != before.lastTouch)
    then Noted(log, after.sessionID, after.lastTouch)
    else log
  }

  function Next(w: World, key: string, e: Event): World {
    var r := w.s.rec;
    match e
    case StreamUp(c) =>
      var s := Established(w.s.(rec := r.(live := r.live + 1)), key, c);
      World(s, c.now, Observe(w.log, r, s.rec), w.established + [c.now])
    case StreamDown => w.(s := w.s.(rec := r.(live := if r.live > 0 then r.live - 1 else 0)))
    case Tick(c) =>
      var s := Ticked(w.s, key, c);
      World(s, c.now, Observe(w.log, r, s.rec), w.established)
    case SetStopReason(reason) => w.(s := w.s.(rec := r.(stopReason := reason)))
    case Finish(c) =>
      var written := EndsSession(w.s, c) &&
        Updated(w.s.table, r.sessionID, End(c.now, r.stopReason), c.db.end).1 == Done;
      w.(s := Finished(w.s, c), clock := c.now, log := if written then Noted(w.log, r.sessionID, c.now) else w.log)
    case Crash => w.(s := w.s.(rec := IDLE))
    case ClearTable => w.(s := w.s.(table := w.s.table.(rows := [])))
    case Prune(cutoff) => w.(s := w.s.(table := w.s.table.(rows := PrunedRows(w.s.table.rows, cutoff))))
    case DropOld(cutoff) => w.(s := w.s.(table := w.s.table.(rows := RecentRows(w.s.table.rows, cutoff))))
    case OtherOpens(other, scope, now, backfilled) =>
      w.(s := w.s.(table := Begun(w.s.table, other, scope, now, backfilled, true).0), clock := now)
    case OtherWrites(id, op, now) => w.(s := w.s.(table := Updated(w.s.table, id, op, true).0), clock := now)
  }

  function Run(w: World, key: string, events: seq<Event>): World
    decreases |events|
  {
    if events == [] then w else Run(Next(w, key, events[0]), key, events[1..])
  }

  predicate AllTimely(w: World, key: string, events: seq<Event>)
    decreases |events|
  {
    events != [] ==> Timely(w, key, events[0]) && AllTimely(Next(w, key, events[0]), key, events[1..])
  }

  // ----- the invariant -----

  function Last(xs: seq<int>): int
    requires xs != []
  {
    xs[|xs| - 1]
  }

  /** Observations of one row: in order, never more than GAP_TOLERANCE apart. */
  predicate Chain(xs: seq<int>, clock: int) {
    xs != [] && 0 < xs[0] && Last(xs) <= clock &&
    forall i :: 0 <= i < |xs| - 1 ==> xs[i] <= xs[i + 1] <= xs[i] + GAP_TOLERANCE
  }

  predicate EstablishedNear(established: seq<int>, t: int) {
    exists e :: e in established && t <= e <= t + GAP_TOLERANCE
  }

  /** A row of another cluster: not ours to write. */
  predicate OtherSound(w: World, r: Row) {
    0 < r.id < w.s.table.nextId && r.id !in w.log && 0 < r.startedAt <= r.endedAt <= w.clock
  }

  predicate RowSound(w: World, key: string, r: Row) {
    if r.key == key then OwnSound(w, r) else OtherSound(w, r)
  }

  predicate OwnSound(w: World, r: Row) {
    r.id in w.log && w.log[r.id] != [] &&
    w.log[r.id][0] <= r.startedAt <= r.endedAt && r.endedAt == Last(w.log[r.id]) &&
    (r.backfilled ==> EstablishedNear(w.established, w.log[r.id][0])) &&
    (r.endReason != "" && r.id == w.s.rec.sessionID ==> w.s.rec.lastTouch + GAP_TOLERANCE < w.clock)
  }

  predicate DistinctIds(rows: seq<Row>) {
    forall i, j :: 0 <= i < j < |rows| ==> rows[i].id != rows[j].id
  }

  predicate RowsSound(w: World, key: string) {
    var rows := w.s.table.rows;
    (forall i :: 0 <= i < |rows| ==> RowSound(w, key, rows[i])) &&
    DistinctIds(rows)
  }

  predicate LogSound(w: World) {
    forall id :: id in w.log ==> 0 < id < w.s.table.nextId && Chain(w.log[id], w.clock)
  }

  predicate SessionSound(w: World) {
    var r := w.s.rec;
    r.sessionID != 0 ==>
      r.sessionID in w.log && w.log[r.sessionID] != [] &&
      w.log[r.sessionID][0] == r.sessionStart && Last(w.log[r.sessionID]) == r.lastTouch
  }

  predicate Sound(w: World, key: string) {
    0 < w.clock && 0 < w.s.table.nextId && RowsSound(w, key) && LogSound(w) && SessionSound(w)
  }

  // ----- elementary changes -----

  lemma Later(w: World, key: string, now: int, established: seq<int>, live: nat)
    requires Sound(w, key) && w.clock <= now
    requires forall e :: e in w.established ==> e in established
    ensures Sound(w.(clock := now, established := established, s := w.s.(rec := w.s.rec.(live := live))), key)
  {
    var v := w.(clock := now, established := established, s := w.s.(rec := w.s.rec.(live := live)));
    forall i | 0 <= i < |w.s.table.rows| ensures RowSound(v, key, v.s.table.rows[i]) {
      assert RowSound(w, key, w.s.table.rows[i]);
    }
  }

  lemma OpenSound(w: World, key: string, c: Context, backfilled: bool)
    requires Sound(w, key) && w.clock == c.now
    requires backfilled ==> c.now in w.established
    ensures var s := Opened(w.s, key, c, backfilled);
            Sound(w.(s := s, log := Observe(w.log, w.s.rec, s.rec)), key)
  {
    if c.db.begin {
      var s := Opened(w.s, key, c, backfilled);
      var v := w.(s := s, log := Observe(w.log, w.s.rec, s.rec));
      var rows := w.s.table.rows;
      var id := w.s.table.nextId;
      assert id !in w.log && w.s.rec.sessionID != id;
      assert [] + [c.now] == [c.now];
      assert v.log == w.log[id := [c.now]];
      forall i | 0 <= i < |rows| ensures RowSound(v, key, rows[i]) && rows[i].id != id {
        assert RowSound(w, key, rows[i]);
      }
      assert RowSound(v, key, NewRow(id, key, c.scope, c.now, backfilled));
    }
  }

  /** A write to the open row that only sets its flag or its reason. */
  lemma RelabelSound(w: World, key: string, op: RowOp, dbOk: bool)
    requires Sound(w, key) && (op.MarkBackfilled? || op.SetEndReason?)
    requires op.MarkBackfilled? ==> w.s.rec.sessionID in w.log && w.log[w.s.rec.sessionID] != [] &&
                                    EstablishedNear(w.established, w.log[w.s.rec.sessionID][0])
    requires op.SetEndReason? ==> w.s.rec.lastTouch + GAP_TOLERANCE < w.clock
    ensures Sound(w.(s := w.s.(table := Updated(w.s.table, w.s.rec.sessionID, op, dbOk).0)), key)
  {
    var table := Updated(w.s.table, w.s.rec.sessionID, op, dbOk).0;
    var v := w.(s := w.s.(table := table));
    forall i | 0 <= i < |table.rows|
      ensures RowSound(v, key, table.rows[i]) && table.rows[i].id == w.s.table.rows[i].id
    {
      assert RowSound(w, key, w.s.table.rows[i]);
    }
  }

  /** The log after the open row is written at now, with or without a new entry for a repeated time. */
  predicate LoggedAt(log: map<int, seq<int>>, log': map<int, seq<int>>, id: int, now: int) {
    id in log && log[id] != [] && (log' == Noted(log, id, now) || (log' == log && Last(log[id]) == now))
  }

  /** A write that extends the open row to now. */
  lemma ExtendSound(w: World, key: string, op: RowOp, dbOk: bool, after: Recording, log': map<int, seq<int>>)
    requires Sound(w, key) && w.s.rec.sessionID != 0 && w.clock - w.s.rec.lastTouch <= GAP_TOLERANCE
    requires op == Touch(w.clock) || (op.End? && op.t == w.clock && after.sessionID == 0)
    requires Updated(w.s.table, w.s.rec.sessionID, op, dbOk).1 == Done
    requires LoggedAt(w.log, log', w.s.rec.sessionID, w.clock)
    requires after.sessionID == 0 ||
             (after.sessionID == w.s.rec.sessionID && after.sessionStart == w.s.rec.sessionStart &&
              after.lastTouch == w.clock)
    ensures Sound(w.(s := State(Updated(w.s.table, w.s.rec.sessionID, op, dbOk).0, after), log := log'), key)
  {
    var id := w.s.rec.sessionID;
    var table := Updated(w.s.table, id, op, dbOk).0;
    var v := w.(s := State(table, after), log := log');
    ExtendedChain(w, id, log');
    assert |table.rows| == |w.s.table.rows|;
    forall i | 0 <= i < |table.rows|
      ensures RowSound(v, key, table.rows[i]) && table.rows[i].id == w.s.table.rows[i].id
    {
      assert RowSound(w, key, w.s.table.rows[i]);
      if w.s.table.rows[i].key == key {
        ExtendedRow(w, v, w.s.table.rows[i], op);
      }
      assert table.rows[i] == if w.s.table.rows[i].id == id then ApplyOp(w.s.table.rows[i], op) else w.s.table.rows[i];
    }
    assert RowsSound(v, key);
    assert LogSound(v);
  }

  /** One row under a write that extends the open row. */
  lemma ExtendedRow(w: World, v: World, r: Row, op: RowOp)
    requires OwnSound(w, r) && (op == Touch(w.clock) || (op.End? && op.t == w.clock && v.s.rec.sessionID == 0))
    requires r.endReason != "" ==> r.id != w.s.rec.sessionID
    requires v.s.rec.sessionID == 0 || v.s.rec.sessionID == w.s.rec.sessionID
    requires v.clock == w.clock && v.established == w.established && r.id in v.log && v.log[r.id] != []
    requires v.log[r.id][0] == w.log[r.id][0]
    requires if r.id == w.s.rec.sessionID then Last(v.log[r.id]) == w.clock && r.endedAt <= w.clock
             else v.log[r.id] == w.log[r.id] && r.id != v.s.rec.sessionID
    requires r.id != 0 && 0 < w.clock
    ensures OwnSound(v, if r.id == w.s.rec.sessionID then ApplyOp(r, op) else r)
  {
  }

  lemma ExtendedChain(w: World, id: int, log': map<int, seq<int>>)
    requires LogSound(w) && LoggedAt(w.log, log', id, w.clock) && w.clock - Last(w.log[id]) <= GAP_TOLERANCE
    ensures Chain(log'[id], w.clock) && Last(log'[id]) == w.clock && log'[id][0] == w.log[id][0]
    ensures forall k :: k in log' <==> k in w.log
    ensures forall k :: k in w.log && k != id ==> log'[k] == w.log[k]
  {
    assert Chain(w.log[id], w.clock);
  }

  // ----- every event keeps the invariant -----

  /** The world after the open row has been touched now. */
  function TouchedWorld(w: World, dbOk: bool): World {
    var after := w.s.rec.(lastTouch := w.clock);
    w.(s := State(Updated(w.s.table, w.s.rec.sessionID, Touch(w.clock), dbOk).0, after),
       log := Observe(w.log, w.s.rec, after))
  }

  lemma TouchedIsSound(w: World, key: string, dbOk: bool)
    requires Sound(w, key) && w.s.rec.sessionID != 0 && w.clock - w.s.rec.lastTouch <= GAP_TOLERANCE
    requires Updated(w.s.table, w.s.rec.sessionID, Touch(w.clock), dbOk).1 == Done
    ensures Sound(TouchedWorld(w, dbOk), key)
  {
    var after := w.s.rec.(lastTouch := w.clock);
    ExtendSound(w, key, Touch(w.clock), dbOk, after, Observe(w.log, w.s.rec, after));
  }

  /** Marking an open row that began, and was last touched, near an establishment. */
  lemma MarkedIsSound(v: World, key: string, dbOk: bool, flag: bool)
    requires Sound(v, key) && v.clock in v.established && v.s.rec.sessionID != 0 && v.s.rec.lastTouch == v.clock
    requires v.clock - v.s.rec.sessionStart <= GAP_TOLERANCE
    ensures Sound(v.(s := State(Updated(v.s.table, v.s.rec.sessionID, MarkBackfilled, dbOk).0,
                                v.s.rec.(sessionBackfilled := flag))), key)
  {
    var chain := v.log[v.s.rec.sessionID];
    assert Chain(chain, v.clock);
    ChainStart(chain, v.clock);
    assert EstablishedNear(v.established, v.s.rec.sessionStart);
    RelabelSound(v, key, MarkBackfilled, dbOk);
    var table := Updated(v.s.table, v.s.rec.sessionID, MarkBackfilled, dbOk).0;
    FlagIsNoMatter(v.(s := v.s.(table := table)), key, flag);
  }

  lemma FlagIsNoMatter(w: World, key: string, flag: bool)
    requires Sound(w, key)
    ensures Sound(w.(s := w.s.(rec := w.s.rec.(sessionBackfilled := flag))), key)
  {
    var v := w.(s := w.s.(rec := w.s.rec.(sessionBackfilled := flag)));
    forall i | 0 <= i < |v.s.table.rows| ensures RowSound(v, key, v.s.table.rows[i]) {
      assert RowSound(w, key, w.s.table.rows[i]);
    }
  }

  lemma EstablishedSound(w: World, key: string, c: Context)
    requires Sound(w, key) && w.clock == c.now && c.now in w.established
    ensures var s := Established(w.s, key, c);
            Sound(w.(s := s, log := Observe(w.log, w.s.rec, s.rec)), key)
  {
    var r := w.s.rec;
    if r.sessionID != 0 && c.now - r.lastTouch <= GAP_TOLERANCE &&
       Updated(w.s.table, r.sessionID, Touch(c.now), c.db.touch).1 == Done {
      TouchedIsSound(w, key, c.db.touch);
      var v := TouchedWorld(w, c.db.touch);
      if !r.sessionBackfilled && c.now - r.sessionStart <= GAP_TOLERANCE {
        var result := Updated(v.s.table, r.sessionID, MarkBackfilled, c.db.mark).1;
        MarkedIsSound(v, key, c.db.mark, result == Done);
      }
    } else {
      OpenSound(w, key, c, true);
    }
  }

  lemma {:induction false} ChainStart(xs: seq<int>, clock: int)
    requires Chain(xs, clock)
    ensures xs[0] <= Last(xs)
  {
    var n := |xs| - 1;
    if n > 0 {
      assert xs[n - 1] <= xs[n - 1 + 1];
      ChainStart(xs[..n], clock);
    }
  }

  lemma TickedSound(w: World, key: string, c: Context)
    requires Sound(w, key) && w.clock == c.now
    ensures var s := Ticked(w.s, key, c);
            Sound(w.(s := s, log := Observe(w.log, w.s.rec, s.rec)), key)
  {
    var r := w.s.rec;
    if r.live == 0 {
      if r.sessionID != 0 && c.now - r.lastTouch > GAP_TOLERANCE {
        var op := SetEndReason(if c.denied then END_RBAC_DENIED else END_UNREACHABLE);
        RelabelSound(w, key, op, c.db.reason);
        ForgetSound(w.(s := w.s.(table := Updated(w.s.table, r.sessionID, op, c.db.reason).0)), key,
                    r.(sessionID := 0));
      }
    } else if r.sessionID == 0 {
      OpenSound(w, key, c, false);
    } else if c.now - r.lastTouch > GAP_TOLERANCE {
      if c.slept {
        RelabelSound(w, key, SetEndReason(END_SYSTEM_SLEEP), c.db.reason);
        OpenSound(w.(s := w.s.(table := Updated(w.s.table, r.sessionID, SetEndReason(END_SYSTEM_SLEEP),
                                                c.db.reason).0)),
                  key, c, false);
      } else {
        OpenSound(w, key, c, false);
      }
    } else {
      var (touched, outcome) := Updated(w.s.table, r.sessionID, Touch(c.now), c.db.touch);
      if outcome == NoSession {
        OpenSound(w, key, c, false);
      } else if outcome == Done {
        var after := r.(lastTouch := c.now);
        ExtendSound(w, key, Touch(c.now), c.db.touch, after, Observe(w.log, r, after));
      }
    }
  }

  lemma ForgetSound(w: World, key: string, after: Recording)
    requires Sound(w, key) && after.sessionID == 0
    ensures Sound(w.(s := w.s.(rec := after)), key)
  {
    var v := w.(s := w.s.(rec := after));
    forall i | 0 <= i < |w.s.table.rows| ensures RowSound(v, key, w.s.table.rows[i]) {
      assert RowSound(w, key, w.s.table.rows[i]);
    }
  }

  lemma FinishSound(w: World, key: string, c: Context)
    requires Sound(w, key) && w.clock == c.now
    ensures Sound(Next(w, key, Finish(c)), key)
  {
    var r := w.s.rec;
    var op := End(c.now, r.stopReason);
    if EndsSession(w.s, c) && Updated(w.s.table, r.sessionID, op, c.db.end).1 == Done {
      ExtendSound(w, key, op, c.db.end, r.(sessionID := 0), Noted(w.log, r.sessionID, c.now));
    } else {
      ForgetSound(w, key, r.(sessionID := 0));
    }
  }

  lemma {:induction false} PrunedIdsDistinct(rows: seq<Row>, cutoff: int)
    requires DistinctIds(rows)
    ensures DistinctIds(PrunedRows(rows, cutoff))
  {
    if rows != [] {
      var rest := rows[1..];
      assert DistinctIds(rest);
      PrunedIdsDistinct(rest, cutoff);
      var p, q := PrunedRows(rest, cutoff), PrunedRows(rows, cutoff);
      if rows[0].endedAt >= cutoff {
        forall i, j | 0 <= i < j < |q| ensures q[i].id != q[j].id {
          assert q[j] == p[j - 1];
          if i == 0 {
            var k := PrunedRowFrom(rest, cutoff, j - 1);
            assert rest[k] == rows[k + 1];
          } else {
            assert q[i] == p[i - 1];
          }
        }
      }
    }
  }

  lemma PruneSound(w: World, key: string, cutoff: int)
    requires Sound(w, key)
    ensures Sound(Next(w, key, Prune(cutoff)), key)
  {
    var rows := w.s.table.rows;
    var v := Next(w, key, Prune(cutoff));
    PrunedIdsDistinct(rows, cutoff);
    forall i | 0 <= i < |v.s.table.rows| ensures RowSound(v, key, v.s.table.rows[i]) {
      var j := PrunedRowFrom(rows, cutoff, i);
      assert RowSound(w, key, rows[j]);
    }
  }

  lemma DropOldSound(w: World, key: string, cutoff: int)
    requires Sound(w, key)
    ensures Sound(Next(w, key, DropOld(cutoff)), key)
  {
    var rows := w.s.table.rows;
    var v := Next(w, key, DropOld(cutoff));
    PrunedIdsDistinct(rows, cutoff);
    RaisedRecentIsPruned(rows, cutoff);
    var recent := RecentRows(rows, cutoff);
    forall i, j | 0 <= i < j < |recent| ensures recent[i].id != recent[j].id {
      assert RaisedRows(recent, cutoff)[i].id != RaisedRows(recent, cutoff)[j].id;
    }
    forall i | 0 <= i < |recent| ensures RowSound(v, key, recent[i]) {
      var j := RecentRowFrom(rows, cutoff, i);
      assert RowSound(w, key, rows[j]);
    }
  }

  lemma OtherOpensSound(w: World, key: string, other: string, scope: string, now: int, backfilled: bool)
    requires Sound(w, key) && w.clock == now && other != key
    ensures Sound(Next(w, key, OtherOpens(other, scope, now, backfilled)), key)
  {
    var rows := w.s.table.rows;
    var v := Next(w, key, OtherOpens(other, scope, now, backfilled));
    forall i | 0 <= i < |rows| ensures RowSound(v, key, rows[i]) && rows[i].id < w.s.table.nextId {
      assert RowSound(w, key, rows[i]);
    }
    assert RowSound(v, key, NewRow(w.s.table.nextId, other, scope, now, backfilled));
  }

  lemma OtherWritesSound(w: World, key: string, id: int, op: RowOp, now: int)
    requires Sound(w, key) && w.clock == now && NotOurs(w.s.table.rows, key, id) &&
             ((op.Touch? || op.End?) ==> op.t <= now)
    ensures Sound(Next(w, key, OtherWrites(id, op, now)), key)
  {
    var v := Next(w, key, OtherWrites(id, op, now));
    forall i | 0 <= i < |v.s.table.rows|
      ensures RowSound(v, key, v.s.table.rows[i]) && v.s.table.rows[i].id == w.s.table.rows[i].id
    {
      assert RowSound(w, key, w.s.table.rows[i]);
    }
  }

  lemma StreamUpSound(w: World, key: string, c: Context)
    requires Sound(w, key) && w.clock <= c.now
    ensures Sound(Next(w, key, StreamUp(c)), key)
  {
    Later(w, key, c.now, w.established + [c.now], w.s.rec.live + 1);
    EstablishedSound(OneMoreStream(w, c.now), key, c);
    StreamUpIsEstablishment(w, key, c);
  }

  function OneMoreStream(w: World, now: int): World {
    w.(clock := now, established := w.established + [now], s := w.s.(rec := w.s.rec.(live := w.s.rec.live + 1)))
  }

  lemma StreamUpIsEstablishment(w: World, key: string, c: Context)
    ensures var v := OneMoreStream(w, c.now);
            var s := Established(v.s, key, c);
            Next(w, key, StreamUp(c)) == v.(s := s, log := Observe(v.log, v.s.rec, s.rec))
  {
  }

  lemma StopReasonSound(w: World, key: string, reason: string)
    requires Sound(w, key)
    ensures Sound(Next(w, key, SetStopReason(reason)), key)
  {
    var v := Next(w, key, SetStopReason(reason));
    forall i | 0 <= i < |w.s.table.rows| ensures RowSound(v, key, w.s.table.rows[i]) {
      assert RowSound(w, key, w.s.table.rows[i]);
    }
  }

  lemma NextSound(w: World, key: string, e: Event)
    requires Sound(w, key) && Timely(w, key, e)
    ensures Sound(Next(w, key, e), key)
  {
    var r := w.s.rec;
    match e {
      case StreamUp(c) =>
        StreamUpSound(w, key, c);
      case StreamDown =>
        Later(w, key, w.clock, w.established, if r.live > 0 then r.live - 1 else 0);
      case Tick(c) =>
        Later(w, key, c.now, w.established, r.live);
        TickedSound(w.(clock := c.now), key, c);
      case SetStopReason(reason) =>
        StopReasonSound(w, key, reason);
      case Finish(c) =>
        Later(w, key, c.now, w.established, r.live);
        FinishSound(w.(clock := c.now), key, c);
      case Crash =>
        ForgetSound(w, key, IDLE);
      case ClearTable =>
      case Prune(cutoff) =>
        PruneSound(w, key, cutoff);
      case DropOld(cutoff) =>
        DropOldSound(w, key, cutoff);
      case OtherOpens(other, scope, now, backfilled) =>
        Later(w, key, now, w.established, r.live);
        OtherOpensSound(w.(clock := now), key, other, scope, now, backfilled);
      case OtherWrites(id, op, now) =>
        Later(w, key, now, w.established, r.live);
        OtherWritesSound(w.(clock := now), key, id, op, now);
    }
  }

  lemma {:induction false} RunSound(w: World, key: string, events: seq<Event>)
    requires Sound(w, key) && AllTimely(w, key, events)
    ensures Sound(Run(w, key, events), key)
    decreases |events|
  {
    if events != [] {
      NextSound(w, key, events[0]);
      RunSound(Next(w, key, events[0]), key, events[1..]);
    }
  }
}
