/** What the database holds after any run of the writer: the saved resume points never run ahead of the stored events,
    and coalescing loses nothing. */
module WriterRuns {
  import opened EventStore
  import opened Options
  import opened EventWriter

  /** A run so far: the items received, and how many of them a committed flush has covered. */
  datatype Trace = Trace(s: WriterState, received: seq<Item>, durable: nat)

  function Start(db: Database): Trace {
    Trace(WriterState(NOTHING, db), [], 0)
  }

  /** A step that reaches a flush of something pending. */
  predicate Attempts(p: Pending, flushRows: nat, step: Step) {
    (step.Receive? ==> FlushesNow(p, flushRows)) && (p.rows != map[] || p.states != map[])
  }

  function Before(s: WriterState, step: Step): Pending {
    if step.Receive? then Received(s.p, step.it) else s.p
  }

  /** A failing flush with more than MAX_PENDING_ROWS rows drops them. */
  predicate Drops(s: WriterState, flushRows: nat, step: Step) {
    Attempts(Before(s, step), flushRows, step) && !step.dbOk && |Before(s, step).rows| > MAX_PENDING_ROWS
  }

  function NextTrace(t: Trace, clusterKey: string, flushRows: nat, step: Step): Trace
    requires PendingOk(t.s.p, clusterKey) && StepOk(step, clusterKey)
  {
    var received := if step.Receive? then t.received + [step.it] else t.received;
    Trace(Next(t.s, clusterKey, flushRows, step), received,
          if Attempts(Before(t.s, step), flushRows, step) && step.dbOk then |received| else t.durable)
  }

  /** The latest row of an event, and the latest resume point of a stream, among some items. */
  function LatestRow(items: seq<Item>, uid: string): Option<EventRow> {
    if items == [] then None
    else
      var it := items[|items| - 1];
      if it.Event? && it.row.key.uid == uid then Some(it.row) else LatestRow(items[..|items| - 1], uid)
  }

  function LatestPoint(items: seq<Item>, ns: string): Option<WatchState> {
    if items == [] then None
    else
      var it := items[|items| - 1];
      if it.Resume? && it.state.namespace == ns then Some(it.state) else LatestPoint(items[..|items| - 1], ns)
  }

  function Get<K, V>(m: map<K, V>, k: K): Option<V> {
    if k in m then Some(m[k]) else None
  }

  function OrElse<V>(a: Option<V>, b: Option<V>): Option<V> {
    if a.Some? then a else b
  }

  lemma {:induction false} LatestConcat(a: seq<Item>, b: seq<Item>, name: string)
    ensures LatestRow(a + b, name) == OrElse(LatestRow(b, name), LatestRow(a, name))
    ensures LatestPoint(a + b, name) == OrElse(LatestPoint(b, name), LatestPoint(a, name))
  {
    if b == [] {
      assert a + b == a;
    } else {
      assert (a + b)[..|a + b| - 1] == a + b[..|b| - 1];
      LatestConcat(a, b[..|b| - 1], name);
    }
  }

  lemma {:induction false} LatestRowAt(items: seq<Item>, uid: string, i: nat) returns (m: nat)
    requires i < |items| && items[i].Event? && items[i].row.key.uid == uid
    ensures i <= m < |items| && items[m].Event? && items[m].row.key.uid == uid
    ensures LatestRow(items, uid) == Some(items[m].row)
  {
    var n := |items| - 1;
    if items[n].Event? && items[n].row.key.uid == uid {
      m := n;
    } else {
      m := LatestRowAt(items[..n], uid, i);
    }
  }

  lemma {:induction false} LatestPointAt(items: seq<Item>, ns: string) returns (j: nat)
    requires LatestPoint(items, ns).Some?
    ensures j < |items| && items[j] == Resume(LatestPoint(items, ns).value) && items[j].state.namespace == ns
  {
    var n := |items| - 1;
    if items[n].Resume? && items[n].state.namespace == ns {
      j := n;
    } else {
      j := LatestPointAt(items[..n], ns);
    }
  }

  // ----- the invariant -----

  /** The pending maps hold exactly the latest of the items that are not yet durable. */
  ghost predicate Waiting(p: Pending, items: seq<Item>) {
    (forall uid :: Get(p.rows, uid) == LatestRow(items, uid)) &&
    (forall ns :: Get(p.states, ns) == LatestPoint(items, ns))
  }

  /** A stored event is at least as recent as a version of it. */
  predicate Reflects(e: Stored, v: Stored) {
    e.latest == v.latest && v.lastSeen <= e.lastSeen && v.count <= e.count && v.seriesCount <= e.seriesCount &&
    e.firstSeen <= v.firstSeen
  }

  predicate Holds(events: map<EventKey, Stored>, k: EventKey, row: EventRow) {
    k in events && Reflects(events[k], Normalised(row))
  }

  /** The database holds the latest of the durable items, and nothing else changed in it. */
  ghost predicate Holding(db: Database, db0: Database, clusterKey: string, items: seq<Item>) {
    (forall uid :: uid != "" && LatestRow(items, uid).Some? ==>
       Holds(db.events, EventKey(clusterKey, uid), LatestRow(items, uid).value)) &&
    (forall k :: Get(db.watch, k) ==
                 if k.clusterKey == clusterKey && LatestPoint(items, k.namespace).Some?
                 then Some(Stamped(LatestPoint(items, k.namespace).value)) else Get(db0.watch, k))
  }

  ghost predicate TraceOk(t: Trace, db0: Database, clusterKey: string) {
    t.durable <= |t.received| && PendingOk(t.s.p, clusterKey) &&
    (forall i :: 0 <= i < |t.received| ==> ItemOk(t.received[i], clusterKey)) &&
    Waiting(t.s.p, t.received[t.durable..]) &&
    Holding(t.s.db, db0, clusterKey, t.received[..t.durable])
  }

  lemma WaitingReceived(p: Pending, items: seq<Item>, it: Item)
    requires Waiting(p, items)
    ensures Waiting(Received(p, it), items + [it])
  {
    var q := Received(p, it);
    assert (items + [it])[..|items|] == items;
    forall uid ensures Get(q.rows, uid) == LatestRow(items + [it], uid) {
      assert Get(p.rows, uid) == LatestRow(items, uid);
    }
    forall ns ensures Get(q.states, ns) == LatestPoint(items + [it], ns) {
      assert Get(p.states, ns) == LatestPoint(items, ns);
    }
  }

  lemma {:induction false} BatchVersions(order: seq<string>, rows: map<string, EventRow>, k: EventKey)
    requires NoDuplicates(order)
    requires forall uid :: uid in order ==> uid in rows && rows[uid].key == EventKey(k.clusterKey, uid)
    ensures Versions(Batch(order, rows), k) ==
            if k.uid in order && k.clusterKey != "" && k.uid != "" then [Normalised(rows[k.uid])] else []
  {
    if order != [] {
      var n := |order| - 1;
      var front := order[..n];
      assert forall uid :: uid in order <==> uid in front || uid == order[n];
      BatchVersions(front, rows, k);
      var batch := Batch(order, rows);
      assert batch[..|batch| - 1] == Batch(front, rows);
      assert order[n] !in front;
    }
  }

  lemma FoldOne(cur: Option<Stored>, v: Stored)
    ensures FoldVersions(cur, [v]) == Some(Upsert(cur, v))
  {
    assert [v][..0] == [];
  }

  /** What a committed flush does to one event. */
  lemma FlushedEvent(s: WriterState, clusterKey: string, uid: string)
    requires PendingOk(s.p, clusterKey) && clusterKey != "" && uid != ""
    ensures var k := EventKey(clusterKey, uid);
            Lookup(ApplyRows(s.db.events, Batch(s.p.order, s.p.rows)), k) ==
            if uid in s.p.rows then Some(Upsert(Lookup(s.db.events, k), Normalised(s.p.rows[uid])))
            else Lookup(s.db.events, k)
  {
    var k := EventKey(clusterKey, uid);
    ApplyRowsAt(s.db.events, Batch(s.p.order, s.p.rows), k);
    BatchVersions(s.p.order, s.p.rows, k);
    if uid in s.p.rows {
      FoldOne(Lookup(s.db.events, k), Normalised(s.p.rows[uid]));
    }
  }

  /** A committed flush makes everything received durable. */
  lemma FlushHolds(s: WriterState, db0: Database, clusterKey: string, done: seq<Item>, arrived: seq<Item>)
    requires PendingOk(s.p, clusterKey) && clusterKey != "" && (s.p.rows != map[] || s.p.states != map[])
    requires Holding(s.db, db0, clusterKey, done) && Waiting(s.p, arrived)
    ensures Holding(Flushed(s, clusterKey, true).db, db0, clusterKey, done + arrived)
  {
    var db := Flushed(s, clusterKey, true).db;
    forall uid | uid != "" && LatestRow(done + arrived, uid).Some?
      ensures Holds(db.events, EventKey(clusterKey, uid), LatestRow(done + arrived, uid).value)
    {
      LatestConcat(done, arrived, uid);
      FlushedEvent(s, clusterKey, uid);
      assert Get(s.p.rows, uid) == LatestRow(arrived, uid);
      if uid !in s.p.rows {
        assert Holds(s.db.events, EventKey(clusterKey, uid), LatestRow(done, uid).value);
      }
    }
    forall k ensures Get(db.watch, k) ==
                     if k.clusterKey == clusterKey && LatestPoint(done + arrived, k.namespace).Some?
                     then Some(Stamped(LatestPoint(done + arrived, k.namespace).value)) else Get(db0.watch, k)
    {
      LatestConcat(done, arrived, k.namespace);
      assert Get(s.p.states, k.namespace) == LatestPoint(arrived, k.namespace);
      assert Get(s.db.watch, k) == if k.clusterKey == clusterKey && LatestPoint(done, k.namespace).Some?
                                   then Some(Stamped(LatestPoint(done, k.namespace).value)) else Get(db0.watch, k);
      if k.clusterKey == clusterKey && k.namespace in s.p.states {
        assert WatchKey(clusterKey, k.namespace) == k;
      }
    }
  }

  /** Before a flush of the step, everything received and not durable is pending. */
  lemma BeforeWaits(t: Trace, db0: Database, clusterKey: string, step: Step)
    requires TraceOk(t, db0, clusterKey) && StepOk(step, clusterKey)
    ensures var received := if step.Receive? then t.received + [step.it] else t.received;
            Waiting(Before(t.s, step), received[t.durable..]) && PendingOk(Before(t.s, step), clusterKey) &&
            received[..t.durable] == t.received[..t.durable]
  {
    if step.Receive? {
      WaitingReceived(t.s.p, t.received[t.durable..], step.it);
      ReceivedOk(t.s.p, step.it, clusterKey);
      assert (t.received + [step.it])[t.durable..] == t.received[t.durable..] + [step.it];
    }
  }

  lemma NextIsFlush(s: WriterState, clusterKey: string, flushRows: nat, step: Step)
    requires PendingOk(s.p, clusterKey) && StepOk(step, clusterKey) && PendingOk(Before(s, step), clusterKey)
    requires !Drops(s, flushRows, step)
    ensures var b := s.(p := Before(s, step));
            var n := Next(s, clusterKey, flushRows, step);
            if Attempts(b.p, flushRows, step) && step.dbOk then n == Flushed(b, clusterKey, true)
            else n.db == s.db && n.p == b.p.(failing := n.p.failing)
  {
  }

  lemma NothingWaits(items: seq<Item>, clusterKey: string)
    requires items == []
    ensures Waiting(NOTHING, items) && PendingOk(NOTHING, clusterKey)
  {
  }

  ghost predicate AllOk(items: seq<Item>, clusterKey: string) {
    forall i :: 0 <= i < |items| ==> ItemOk(items[i], clusterKey)
  }

  lemma CommitKeepsTrace(t: Trace, b: WriterState, next: Trace, db0: Database, clusterKey: string)
    requires clusterKey != "" && PendingOk(b.p, clusterKey) && (b.p.rows != map[] || b.p.states != map[])
    requires t.durable <= |next.received| && next.durable == |next.received| && AllOk(next.received, clusterKey)
    requires Holding(b.db, db0, clusterKey, next.received[..t.durable])
    requires Waiting(b.p, next.received[t.durable..]) && next.s == Flushed(b, clusterKey, true)
    ensures TraceOk(next, db0, clusterKey)
  {
    FlushHolds(b, db0, clusterKey, next.received[..t.durable], next.received[t.durable..]);
    assert next.received[..t.durable] + next.received[t.durable..] == next.received[..next.durable];
    NothingWaits(next.received[next.durable..], clusterKey);
  }

  lemma WaitKeepsTrace(t: Trace, next: Trace, db0: Database, clusterKey: string)
    requires t.durable == next.durable <= |next.received| && AllOk(next.received, clusterKey)
    requires Holding(t.s.db, db0, clusterKey, next.received[..t.durable]) && next.s.db == t.s.db
    requires Waiting(next.s.p, next.received[t.durable..]) && PendingOk(next.s.p, clusterKey)
    ensures TraceOk(next, db0, clusterKey)
  {
  }

  lemma StepKeepsTrace(t: Trace, db0: Database, clusterKey: string, flushRows: nat, step: Step)
    requires clusterKey != "" && TraceOk(t, db0, clusterKey) && StepOk(step, clusterKey)
    requires !Drops(t.s, flushRows, step)
    ensures TraceOk(NextTrace(t, clusterKey, flushRows, step), db0, clusterKey)
  {
    BeforeWaits(t, db0, clusterKey, step);
    NextIsFlush(t.s, clusterKey, flushRows, step);
    var next := NextTrace(t, clusterKey, flushRows, step);
    var b := t.s.(p := Before(t.s, step));
    assert AllOk(next.received, clusterKey);
    if Attempts(b.p, flushRows, step) && step.dbOk {
      CommitKeepsTrace(t, b, next, db0, clusterKey);
    } else {
      FailingIsNoMatter(b.p, next.s.p, next.received[t.durable..], clusterKey);
      WaitKeepsTrace(t, next, db0, clusterKey);
    }
  }

  lemma FailingIsNoMatter(p: Pending, q: Pending, items: seq<Item>, clusterKey: string)
    requires q == p.(failing := q.failing) && PendingOk(p, clusterKey) && Waiting(p, items)
    ensures PendingOk(q, clusterKey) && Waiting(q, items)
  {
  }

  function RunTrace(t: Trace, clusterKey: string, flushRows: nat, steps: seq<Step>): Trace
    requires PendingOk(t.s.p, clusterKey)
    requires forall i :: 0 <= i < |steps| ==> StepOk(steps[i], clusterKey)
    decreases |steps|
  {
    if steps == [] then t
    else
      NextOk(t.s, clusterKey, flushRows, steps[0]);
      RunTrace(NextTrace(t, clusterKey, flushRows, steps[0]), clusterKey, flushRows, steps[1..])
  }

  /** No flush of the run fails with more than MAX_PENDING_ROWS rows pending. */
  predicate NeverDrops(t: Trace, clusterKey: string, flushRows: nat, steps: seq<Step>)
    requires PendingOk(t.s.p, clusterKey)
    requires forall i :: 0 <= i < |steps| ==> StepOk(steps[i], clusterKey)
    decreases |steps|
  {
    steps != [] ==>
      !Drops(t.s, flushRows, steps[0]) &&
      (NextOk(t.s, clusterKey, flushRows, steps[0]);
       NeverDrops(NextTrace(t, clusterKey, flushRows, steps[0]), clusterKey, flushRows, steps[1..]))
  }

  lemma {:induction false} RunKeepsTrace(t: Trace, db0: Database, clusterKey: string, flushRows: nat, steps: seq<Step>)
    requires clusterKey != "" && TraceOk(t, db0, clusterKey)
    requires forall i :: 0 <= i < |steps| ==> StepOk(steps[i], clusterKey)
    requires NeverDrops(t, clusterKey, flushRows, steps)
    ensures TraceOk(RunTrace(t, clusterKey, flushRows, steps), db0, clusterKey)
    decreases |steps|
  {
    if steps != [] {
      StepKeepsTrace(t, db0, clusterKey, flushRows, steps[0]);
      RunKeepsTrace(NextTrace(t, clusterKey, flushRows, steps[0]), db0, clusterKey, flushRows, steps[1..]);
    }
  }

  lemma StartOk(db0: Database, clusterKey: string)
    ensures TraceOk(Start(db0), db0, clusterKey)
  {
  }

  // ----- the resume point never runs ahead -----

  /** Row i, or a later-arriving version of the same event, is in the database. */
  predicate StoredSince(t: Trace, clusterKey: string, i: nat)
    requires i < |t.received| && t.received[i].Event?
  {
    exists m :: i <= m < |t.received| && t.received[m].Event? &&
                t.received[m].row.key.uid == t.received[i].row.key.uid &&
                Holds(t.s.db.events, EventKey(clusterKey, t.received[i].row.key.uid), t.received[m].row)
  }

  /** The saved point of a stream is item j, and everything that arrived before it is stored. */
  predicate PointCovered(t: Trace, clusterKey: string, ns: string, j: nat) {
    j < |t.received| && t.received[j].Resume? && t.received[j].state.namespace == ns &&
    Get(t.s.db.watch, WatchKey(clusterKey, ns)) == Some(Stamped(t.received[j].state)) &&
    forall i :: 0 <= i < j && t.received[i].Event? && t.received[i].row.key.uid != "" ==> StoredSince(t, clusterKey, i)
  }

  /** In every run in which no failing flush drops its rows, a resume point in the database is either the one that was
      there before the run, or one that arrived after events that are all stored. */
  lemma ResumePointNeverAhead(db0: Database, clusterKey: string, flushRows: nat, steps: seq<Step>, ns: string)
    requires clusterKey != "" && forall i :: 0 <= i < |steps| ==> StepOk(steps[i], clusterKey)
    requires NeverDrops(Start(db0), clusterKey, flushRows, steps)
    ensures var t := RunTrace(Start(db0), clusterKey, flushRows, steps);
            Get(t.s.db.watch, WatchKey(clusterKey, ns)) == Get(db0.watch, WatchKey(clusterKey, ns)) ||
            exists j :: PointCovered(t, clusterKey, ns, j)
  {
    StartOk(db0, clusterKey);
    RunKeepsTrace(Start(db0), db0, clusterKey, flushRows, steps);
    var t := RunTrace(Start(db0), clusterKey, flushRows, steps);
    var done := t.received[..t.durable];
    if LatestPoint(done, ns).Some? {
      var j := LatestPointAt(done, ns);
      forall i | 0 <= i < j && t.received[i].Event? && t.received[i].row.key.uid != ""
        ensures StoredSince(t, clusterKey, i)
      {
        var m := LatestRowAt(done, t.received[i].row.key.uid, i);
        assert t.received[m] == done[m];
      }
      assert PointCovered(t, clusterKey, ns, j);
    }
  }

  lemma FlushOfPoint(s: WriterState, clusterKey: string, st: WatchState)
    requires s.p == NOTHING.(failing := true, states := map[st.namespace := st])
    requires PendingOk(s.p, clusterKey)
    ensures var v := Flushed(s, clusterKey, true);
            v.db.events == s.db.events && Get(v.db.watch, WatchKey(clusterKey, st.namespace)) == Some(Stamped(st))
  {
    assert st.namespace in s.p.states;
    assert WatchKey(clusterKey, st.namespace) in set ns | ns in s.p.states :: WatchKey(clusterKey, ns);
  }

  /** The limit on pending rows is what this rests on: after a failing flush of any kind has dropped the pending
      rows, the next resume point is saved with the table of events as it was. A dropped version, of a new event or
      of a stored one, is reflected only if it already was. */
  lemma DroppedRowsAreLost(s: WriterState, clusterKey: string, flushRows: nat, step: Step, st: WatchState)
    requires 0 < flushRows && PendingOk(s.p, clusterKey) && StepOk(step, clusterKey) && ItemOk(Resume(st), clusterKey)
    requires Drops(s, flushRows, step)
    ensures var dropped := Next(s, clusterKey, flushRows, step);
            PendingOk(dropped.p, clusterKey) &&
            var waiting := Next(dropped, clusterKey, flushRows, Receive(Resume(st), true));
            PendingOk(waiting.p, clusterKey) &&
            var saved := Next(waiting, clusterKey, flushRows, Flush(true));
            Get(saved.db.watch, WatchKey(clusterKey, st.namespace)) == Some(Stamped(st)) &&
            saved.db.events == s.db.events &&
            forall uid :: uid in Before(s, step).rows &&
                          Holds(saved.db.events, EventKey(clusterKey, uid), Before(s, step).rows[uid]) ==>
                            Holds(s.db.events, EventKey(clusterKey, uid), Before(s, step).rows[uid])
  {
    NextOk(s, clusterKey, flushRows, step);
    var dropped := Next(s, clusterKey, flushRows, step);
    assert dropped == WriterState(NOTHING.(failing := true), s.db);
    var waiting := Next(dropped, clusterKey, flushRows, Receive(Resume(st), true));
    assert waiting == WriterState(NOTHING.(failing := true, states := map[st.namespace := st]), s.db);
    FlushOfPoint(waiting, clusterKey, st);
  }

  // ----- coalescing loses nothing -----

  function RowsOf(items: seq<Item>): seq<EventRow> {
    if items == [] then []
    else RowsOf(items[..|items| - 1]) +
         if items[|items| - 1].Event? then [items[|items| - 1].row] else []
  }

  lemma {:induction false} RowsOfConcat(a: seq<Item>, b: seq<Item>)
    ensures RowsOf(a + b) == RowsOf(a) + RowsOf(b)
  {
    if b == [] {
      assert a + b == a;
    } else {
      assert (a + b)[..|a + b| - 1] == a + b[..|b| - 1];
      RowsOfConcat(a, b[..|b| - 1]);
    }
  }

  /** The versions of every event that arrive during the run only grow, and keep its identity. */
  ghost predicate Steady(items: seq<Item>) {
    forall k :: Monotone(Versions(RowsOf(items), k)) && SameIdentity(Versions(RowsOf(items), k))
  }

  predicate SameIdentity(vs: seq<Stored>) {
    forall i, j :: 0 <= i < j < |vs| ==> vs[i].identity == vs[j].identity
  }

  lemma {:induction false} LatestIsLastVersion(items: seq<Item>, clusterKey: string, uid: string)
    requires clusterKey != "" && uid != "" && forall i :: 0 <= i < |items| ==> ItemOk(items[i], clusterKey)
    ensures var vs := Versions(RowsOf(items), EventKey(clusterKey, uid));
            if LatestRow(items, uid).Some? then vs != [] && vs[|vs| - 1] == Normalised(LatestRow(items, uid).value)
            else vs == []
  {
    if items != [] {
      var n := |items| - 1;
      LatestIsLastVersion(items[..n], clusterKey, uid);
      var rows := RowsOf(items);
      if items[n].Event? {
        assert rows[..|rows| - 1] == RowsOf(items[..n]);
      } else {
        assert rows == RowsOf(items[..n]);
      }
    }
  }

  /** Events of this cluster in the database are as if every durable row had been upserted one by one. */
  ghost predicate AsIfEach(t: Trace, db0: Database, clusterKey: string) {
    t.durable <= |t.received| &&
    forall uid :: uid != "" ==>
                    var k := EventKey(clusterKey, uid);
                    Lookup(t.s.db.events, k) ==
                    FoldVersions(Lookup(db0.events, k), Versions(RowsOf(t.received[..t.durable]), k))
  }

  /** After a commit, one event is as if every row received had been upserted one by one. */
  lemma CommitKeepsEvent(t: Trace, b: WriterState, next: Trace, db0: Database, clusterKey: string, uid: string)
    requires clusterKey != "" && uid != "" && PendingOk(b.p, clusterKey) && AllOk(next.received, clusterKey)
    requires t.durable <= |next.received| && b.db == t.s.db && Steady(next.received)
    requires Waiting(b.p, next.received[t.durable..])
    requires var k := EventKey(clusterKey, uid);
             Lookup(t.s.db.events, k) ==
             FoldVersions(Lookup(db0.events, k), Versions(RowsOf(next.received[..t.durable]), k))
    requires next.s.db.events == ApplyRows(b.db.events, Batch(b.p.order, b.p.rows))
    ensures var k := EventKey(clusterKey, uid);
            Lookup(next.s.db.events, k) == FoldVersions(Lookup(db0.events, k), Versions(RowsOf(next.received), k))
  {
    var k := EventKey(clusterKey, uid);
    var vs := Versions(RowsOf(next.received), k);
    assert Monotone(vs) && SameIdentity(vs);
    assert Get(b.p.rows, uid) == LatestRow(next.received[t.durable..], uid);
    LatestIsEach(Lookup(db0.events, k), Lookup(t.s.db.events, k), next.received, t.durable, clusterKey, uid);
    FlushedEvent(b, clusterKey, uid);
  }

  lemma StepKeepsAsIfEach(t: Trace, db0: Database, clusterKey: string, flushRows: nat, step: Step)
    requires clusterKey != "" && TraceOk(t, db0, clusterKey) && StepOk(step, clusterKey)
    requires !Drops(t.s, flushRows, step) && AsIfEach(t, db0, clusterKey)
    requires Steady(NextTrace(t, clusterKey, flushRows, step).received)
    ensures AsIfEach(NextTrace(t, clusterKey, flushRows, step), db0, clusterKey)
  {
    var next := NextTrace(t, clusterKey, flushRows, step);
    BeforeWaits(t, db0, clusterKey, step);
    NextIsFlush(t.s, clusterKey, flushRows, step);
    var b := t.s.(p := Before(t.s, step));
    if Attempts(b.p, flushRows, step) && step.dbOk {
      assert AllOk(next.received, clusterKey);
      assert next.received == next.received[..next.durable];
      forall uid | uid != ""
        ensures var k := EventKey(clusterKey, uid);
                Lookup(next.s.db.events, k) == FoldVersions(Lookup(db0.events, k), Versions(RowsOf(next.received), k))
      {
        CommitKeepsEvent(t, b, next, db0, clusterKey, uid);
      }
    }
  }

  lemma VersionsSplit(received: seq<Item>, durable: nat, k: EventKey)
    requires durable <= |received|
    ensures Versions(RowsOf(received), k) ==
            Versions(RowsOf(received[..durable]), k) + Versions(RowsOf(received[durable..]), k)
  {
    assert received == received[..durable] + received[durable..];
    RowsOfConcat(received[..durable], received[durable..]);
    VersionsConcat(RowsOf(received[..durable]), RowsOf(received[durable..]), k);
  }

  /** Upserting the latest pending row of an event equals upserting all its rows since the last flush. */
  lemma LatestIsEach(cur: Option<Stored>, mid: Option<Stored>, received: seq<Item>, durable: nat, clusterKey: string,
                     uid: string)
    requires clusterKey != "" && uid != "" && durable <= |received|
    requires forall i :: 0 <= i < |received| ==> ItemOk(received[i], clusterKey)
    requires var vs := Versions(RowsOf(received), EventKey(clusterKey, uid)); Monotone(vs) && SameIdentity(vs)
    requires mid == FoldVersions(cur, Versions(RowsOf(received[..durable]), EventKey(clusterKey, uid)))
    ensures FoldVersions(cur, Versions(RowsOf(received), EventKey(clusterKey, uid))) ==
            var latest := LatestRow(received[durable..], uid);
            if latest.Some? then Some(Upsert(mid, Normalised(latest.value))) else mid
  {
    var k := EventKey(clusterKey, uid);
    VersionsSplit(received, durable, k);
    LatestIsLastVersion(received[durable..], clusterKey, uid);
    LatestOfSplit(cur, mid, Versions(RowsOf(received), k), Versions(RowsOf(received[..durable]), k),
                  Versions(RowsOf(received[durable..]), k), LatestRow(received[durable..], uid));
  }

  lemma LatestOfSplit(cur: Option<Stored>, mid: Option<Stored>, all: seq<Stored>, vs: seq<Stored>, ws: seq<Stored>,
                      latest: Option<EventRow>)
    requires all == vs + ws && mid == FoldVersions(cur, vs) && Monotone(all) && SameIdentity(all)
    requires if latest.Some? then ws != [] && ws[|ws| - 1] == Normalised(latest.value) else ws == []
    ensures FoldVersions(cur, all) == if latest.Some? then Some(Upsert(mid, Normalised(latest.value))) else mid
  {
    FoldSuffix(cur, mid, vs, ws);
  }

  /** Folding only the last of the later versions equals folding them all. */
  lemma FoldSuffix(cur: Option<Stored>, mid: Option<Stored>, vs: seq<Stored>, ws: seq<Stored>)
    requires mid == FoldVersions(cur, vs) && Monotone(vs + ws) && SameIdentity(vs + ws)
    ensures FoldVersions(cur, vs + ws) == if ws == [] then mid else Some(Upsert(mid, ws[|ws| - 1]))
  {
    FoldVersionsConcat(cur, vs, ws);
    if ws != [] {
      SuffixIsSteady(vs, ws);
      CoalescingIsSafe(mid, ws);
      FoldOne(mid, ws[|ws| - 1]);
    }
  }

  lemma SuffixIsSteady(vs: seq<Stored>, ws: seq<Stored>)
    requires Monotone(vs + ws) && SameIdentity(vs + ws)
    ensures Monotone(ws) && SameIdentity(ws)
  {
    forall i, j | 0 <= i < j < |ws|
      ensures ws[i].lastSeen <= ws[j].lastSeen && ws[i].count <= ws[j].count &&
              ws[i].seriesCount <= ws[j].seriesCount && ws[j].firstSeen <= ws[i].firstSeen &&
              ws[i].identity == ws[j].identity
    {
      assert (vs + ws)[|vs| + i] == ws[i] && (vs + ws)[|vs| + j] == ws[j];
    }
  }

  lemma {:induction false} SteadyPrefix(items: seq<Item>, n: nat)
    requires Steady(items) && n <= |items|
    ensures Steady(items[..n])
  {
    var front, back := items[..n], items[n..];
    assert items == front + back;
    RowsOfConcat(front, back);
    forall k ensures Monotone(Versions(RowsOf(front), k)) && SameIdentity(Versions(RowsOf(front), k)) {
      VersionsConcat(RowsOf(front), RowsOf(back), k);
      var vs, ws := Versions(RowsOf(front), k), Versions(RowsOf(back), k);
      assert Monotone(vs + ws) && SameIdentity(vs + ws);
      forall i, j | 0 <= i < j < |vs|
        ensures vs[i].lastSeen <= vs[j].lastSeen && vs[i].count <= vs[j].count &&
                vs[i].seriesCount <= vs[j].seriesCount && vs[j].firstSeen <= vs[i].firstSeen &&
                vs[i].identity == vs[j].identity
      {
        assert (vs + ws)[i] == vs[i] && (vs + ws)[j] == vs[j];
      }
    }
  }

  lemma {:induction false} ReceivedGrows(t: Trace, clusterKey: string, flushRows: nat, steps: seq<Step>)
    requires PendingOk(t.s.p, clusterKey)
    requires forall i :: 0 <= i < |steps| ==> StepOk(steps[i], clusterKey)
    ensures t.received <= RunTrace(t, clusterKey, flushRows, steps).received
    decreases |steps|
  {
    if steps != [] {
      NextOk(t.s, clusterKey, flushRows, steps[0]);
      ReceivedGrows(NextTrace(t, clusterKey, flushRows, steps[0]), clusterKey, flushRows, steps[1..]);
    }
  }

  lemma {:induction false} RunKeepsAsIfEach(t: Trace, db0: Database, clusterKey: string, flushRows: nat,
                                            steps: seq<Step>)
    requires clusterKey != "" && TraceOk(t, db0, clusterKey) && AsIfEach(t, db0, clusterKey)
    requires forall i :: 0 <= i < |steps| ==> StepOk(steps[i], clusterKey)
    requires NeverDrops(t, clusterKey, flushRows, steps)
    requires Steady(RunTrace(t, clusterKey, flushRows, steps).received)
    ensures AsIfEach(RunTrace(t, clusterKey, flushRows, steps), db0, clusterKey)
    decreases |steps|
  {
    if steps != [] {
      var next := NextTrace(t, clusterKey, flushRows, steps[0]);
      StepKeepsTrace(t, db0, clusterKey, flushRows, steps[0]);
      ReceivedGrows(next, clusterKey, flushRows, steps[1..]);
      var final := RunTrace(t, clusterKey, flushRows, steps).received;
      SteadyPrefix(final, |next.received|);
      assert final[..|next.received|] == next.received;
      StepKeepsAsIfEach(t, db0, clusterKey, flushRows, steps[0]);
      RunKeepsAsIfEach(next, db0, clusterKey, flushRows, steps[1..]);
    }
  }

  /** The batcher refines a writer that upserts every row by itself as it arrives: each event of the cluster is stored
      as it would be then, up to the durable point. */
  lemma BatcherRefinesRowByRow(db0: Database, clusterKey: string, flushRows: nat, steps: seq<Step>, uid: string)
    requires clusterKey != "" && uid != "" && forall i :: 0 <= i < |steps| ==> StepOk(steps[i], clusterKey)
    requires NeverDrops(Start(db0), clusterKey, flushRows, steps)
    requires Steady(RunTrace(Start(db0), clusterKey, flushRows, steps).received)
    ensures var t := RunTrace(Start(db0), clusterKey, flushRows, steps);
            var k := EventKey(clusterKey, uid);
            t.durable <= |t.received| &&
            Lookup(t.s.db.events, k) == Lookup(ApplyRows(db0.events, RowsOf(t.received[..t.durable])), k)
  {
    StartOk(db0, clusterKey);
    RunKeepsTrace(Start(db0), db0, clusterKey, flushRows, steps);
    RunKeepsAsIfEach(Start(db0), db0, clusterKey, flushRows, steps);
    var t := RunTrace(Start(db0), clusterKey, flushRows, steps);
    ApplyRowsAt(db0.events, RowsOf(t.received[..t.durable]), EventKey(clusterKey, uid));
  }
}
