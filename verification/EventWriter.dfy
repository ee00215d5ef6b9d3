/** The recorder's writer: a coalescing batcher (internal/history/recorder.go:402-595). */
module EventWriter {
  // It coalesces rows by UID, flushes them with the resume points in one transaction, and keeps a failed batch for
  // later.

  import opened CoverageStore
  import opened EventStore
  import opened Options

  const MAX_PENDING_ROWS := 50_000

  /** What the streams put on the channel: event rows, and resume points (never empty: saveRV drops those). */
  datatype Item = Event(row: EventRow) | Resume(state: WatchState)

  predicate ItemOk(it: Item, clusterKey: string) {
    match it
    case Event(row) => row.key.clusterKey == clusterKey
    case Resume(st) => st.clusterKey == clusterKey && st.resourceVersion != ""
  }

  /** What is waiting to be written. */
  datatype Pending = Pending(rows: map<string, EventRow>, states: map<string, WatchState>, order: seq<string>,
                             failing: bool)

  const NOTHING: Pending := Pending(map[], map[], [], false)

  predicate NoDuplicates(xs: seq<string>) {
    forall i, j :: 0 <= i < j < |xs| ==> xs[i] != xs[j]
  }

  /** order lists the pending UIDs, each once. */
  ghost predicate OrderOk(p: Pending) {
    NoDuplicates(p.order) && forall uid :: uid in p.order <==> uid in p.rows
  }

  ghost predicate PendingOk(p: Pending, clusterKey: string) {
    OrderOk(p) &&
    (forall uid :: uid in p.rows ==> p.rows[uid].key == EventKey(clusterKey, uid)) &&
    (forall ns :: ns in p.states ==> p.states[ns].namespace == ns && p.states[ns].clusterKey == clusterKey &&
                                     p.states[ns].resourceVersion != "")
  }

  function Batch(order: seq<string>, rows: map<string, EventRow>): seq<EventRow>
    requires forall uid :: uid in order ==> uid in rows
  {
    if order == [] then [] else Batch(order[..|order| - 1], rows) + [rows[order[|order| - 1]]]
  }

  function Stamped(st: WatchState): WatchState {
    st.(updatedAt := Ms(st.updatedAt))
  }

  /** The resume points after saving the pending ones, in whatever order. */
  function Resumed(watch: map<WatchKey, WatchState>, states: map<string, WatchState>, clusterKey: string)
    : map<WatchKey, WatchState>
  {
    map k | k in watch.Keys + set ns | ns in states :: WatchKey(clusterKey, ns)
          :: if k.clusterKey == clusterKey && k.namespace in states then Stamped(states[k.namespace]) else watch[k]
  }

  datatype WriterState = WriterState(p: Pending, db: Database)

  function Flushed(s: WriterState, clusterKey: string, dbOk: bool): WriterState
    requires PendingOk(s.p, clusterKey)
  {
    if s.p.rows == map[] && s.p.states == map[] then s
    else if !dbOk then
      s.(p := if |s.p.rows| > MAX_PENDING_ROWS then NOTHING.(failing := true) else s.p.(failing := true))
    else
      WriterState(NOTHING, Database(ApplyRows(s.db.events, Batch(s.p.order, s.p.rows)),
                                    Resumed(s.db.watch, s.p.states, clusterKey)))
  }

  function Received(p: Pending, it: Item): Pending {
    match it
    case Event(row) =>
      var uid := row.key.uid;
      p.(order := if uid in p.rows then p.order else p.order + [uid], rows := p.rows[uid := row])
    case Resume(st) => p.(states := p.states[st.namespace := st])
  }

  lemma ReceivedOk(p: Pending, it: Item, clusterKey: string)
    requires PendingOk(p, clusterKey) && ItemOk(it, clusterKey)
    ensures PendingOk(Received(p, it), clusterKey)
  {
    if it.Event? {
      var q := Received(p, it);
      forall uid ensures uid in q.order <==> uid in q.rows {
        if uid in p.order {
          assert uid in q.order;
        }
      }
      forall i, j | 0 <= i < j < |q.order| ensures q.order[i] != q.order[j] {
        assert q.order[i] in p.order;
      }
    }
  }

  /** A step of the select loop: an item with the outcome of the flush it may cause, or a flush on the ticker or when
      the channel is closed. */
  datatype Step = Receive(it: Item, dbOk: bool) | Flush(dbOk: bool)

  predicate StepOk(step: Step, clusterKey: string) {
    step.Receive? ==> ItemOk(step.it, clusterKey)
  }

  /** While the database is failing, only the ticker flushes. */
  predicate FlushesNow(p: Pending, flushRows: nat) {
    |p.rows| >= flushRows && !p.failing
  }

  function Next(s: WriterState, clusterKey: string, flushRows: nat, step: Step): WriterState
    requires PendingOk(s.p, clusterKey) && StepOk(step, clusterKey)
  {
    match step
    case Receive(it, dbOk) =>
      ReceivedOk(s.p, it, clusterKey);
      var r := s.(p := Received(s.p, it));
      if FlushesNow(r.p, flushRows) then Flushed(r, clusterKey, dbOk) else r
    case Flush(dbOk) => Flushed(s, clusterKey, dbOk)
  }

  class Writer {
    const clusterKey: string
    const flushRows: nat
    const store: EventDatabase
    var rows: map<string, EventRow>
    var states: map<string, WatchState>
    var order: seq<string>
    var failing: bool

    constructor (clusterKey: string, flushRows: nat, store: EventDatabase)
      ensures this.clusterKey == clusterKey && this.flushRows == flushRows && this.store == store
      ensures View() == WriterState(NOTHING, store.Contents())
    {
      this.clusterKey, this.flushRows, this.store := clusterKey, flushRows, store;
      rows, states, order, failing := map[], map[], [], false;
    }

    function View(): WriterState
      reads this, store
    {
      WriterState(Pending(rows, states, order, failing), store.Contents())
    }

    method Reset()
      modifies this
      ensures View() == old(View()).(p := NOTHING.(failing := old(failing)))
    {
      rows, states, order := map[], map[], [];
    }

    method FlushPending(dbOk: bool)
      requires PendingOk(View().p, clusterKey)
      modifies this, store
      ensures View() == Flushed(old(View()), clusterKey, dbOk)
    {
      if rows == map[] && states == map[] {
        return;
      }
      var batch := [];
      for i := 0 to |order|
        invariant batch == Batch(order[..i], rows)
      {
        assert order[..i + 1][..i] == order[..i];
        batch := batch + [rows[order[i]]];
      }
      assert order[..|order|] == order;
      var points := [];
      var todo := states.Keys;
      while todo != {}
        invariant todo <= states.Keys
        invariant forall k :: LastState(points, k) ==
                              if k.clusterKey == clusterKey && k.namespace in states && k.namespace !in todo
                              then Some(Stamped(states[k.namespace])) else None
      {
        var ns :| ns in todo;
        assert (points + [states[ns]])[..|points|] == points;
        points := points + [states[ns]];
        todo := todo - {ns};
      }
      SavedIsResumed(store.watch, points, states, clusterKey);
      if rows != map[] {
        ghost var uid :| uid in rows;
        assert uid in order;
      } else {
        ghost var ns :| ns in states;
        assert LastState(points, WatchKey(clusterKey, ns)).Some?;
      }
      NonEmptyBatch(order, rows);
      var ok := store.WriteBatch(batch, points, dbOk);
      if !ok {
        failing := true;
        if |rows| > MAX_PENDING_ROWS {
          Reset();
        }
        return;
      }
      failing := false;
      Reset();
    }

    method Take(it: Item, dbOk: bool)
      requires PendingOk(View().p, clusterKey) && ItemOk(it, clusterKey)
      modifies this, store
      ensures View() == Next(old(View()), clusterKey, flushRows, Receive(it, dbOk))
    {
      ReceivedOk(View().p, it, clusterKey);
      match it {
        case Event(row) =>
          if row.key.uid !in rows {
            order := order + [row.key.uid];
          }
          rows := rows[row.key.uid := row];
        case Resume(st) =>
          states := states[st.namespace := st];
      }
      if |rows| >= flushRows && !failing {
        FlushPending(dbOk);
      }
    }

    /** The select loop over a finite run, ending with the flush on close. */
    method Run(steps: seq<Step>, lastOk: bool)
      requires PendingOk(View().p, clusterKey)
      requires forall i :: 0 <= i < |steps| ==> StepOk(steps[i], clusterKey)
      modifies this, store
      ensures View() == RunAll(old(View()), clusterKey, flushRows, steps + [Flush(lastOk)])
    {
      ghost var all := steps + [Flush(lastOk)];
      for i := 0 to |steps|
        invariant PendingOk(View().p, clusterKey)
        invariant RunAll(View(), clusterKey, flushRows, all[i..]) == RunAll(old(View()), clusterKey, flushRows, all)
      {
        assert all[i..][1..] == all[i + 1..];
        NextOk(View(), clusterKey, flushRows, all[i]);
        match steps[i] {
          case Receive(it, dbOk) => Take(it, dbOk);
          case Flush(dbOk) => FlushPending(dbOk);
        }
      }
      assert all[|steps|..] == [Flush(lastOk)];
      FlushPending(lastOk);
    }
  }

  lemma {:induction false} NonEmptyBatch(order: seq<string>, rows: map<string, EventRow>)
    requires forall uid :: uid in order ==> uid in rows
    ensures |Batch(order, rows)| == |order|
  {
    if order != [] {
      NonEmptyBatch(order[..|order| - 1], rows);
    }
  }

  lemma SavedIsResumed(watch: map<WatchKey, WatchState>, points: seq<WatchState>, states: map<string, WatchState>,
                       clusterKey: string)
    requires forall k :: LastState(points, k) ==
                         if k.clusterKey == clusterKey && k.namespace in states
                         then Some(Stamped(states[k.namespace])) else None
    ensures ApplyStates(watch, points) == Resumed(watch, states, clusterKey)
  {
    var a, b := ApplyStates(watch, points), Resumed(watch, states, clusterKey);
    forall k ensures (k in a <==> k in b) && (k in a ==> a[k] == b[k]) {
      StateAt(watch, points, k);
      if k.clusterKey == clusterKey && k.namespace in states {
        assert WatchKey(clusterKey, k.namespace) == k;
      }
    }
  }

  lemma NextOk(s: WriterState, clusterKey: string, flushRows: nat, step: Step)
    requires PendingOk(s.p, clusterKey) && StepOk(step, clusterKey)
    ensures PendingOk(Next(s, clusterKey, flushRows, step).p, clusterKey)
  {
    if step.Receive? {
      ReceivedOk(s.p, step.it, clusterKey);
    }
  }

  function RunAll(s: WriterState, clusterKey: string, flushRows: nat, steps: seq<Step>): WriterState
    requires PendingOk(s.p, clusterKey)
    requires forall i :: 0 <= i < |steps| ==> StepOk(steps[i], clusterKey)
    decreases |steps|
  {
    if steps == [] then s
    else
      NextOk(s, clusterKey, flushRows, steps[0]);
      RunAll(Next(s, clusterKey, flushRows, steps[0]), clusterKey, flushRows, steps[1..])
  }
}
