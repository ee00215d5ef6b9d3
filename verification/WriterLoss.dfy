/** A run of the writer that loses rows: the database rejects writes while more rows arrive than the writer keeps,
    and then a later resume point is saved without them. The limit on pending rows makes this possible
    (internal/history/recorder.go:557-565). */
module WriterLoss {
  import opened EventStore
  import opened Options
  import opened EventWriter
  import opened WriterRuns

  lemma {:induction false} RunAllConcat(s: WriterState, clusterKey: string, flushRows: nat, a: seq<Step>, b: seq<Step>)
    requires PendingOk(s.p, clusterKey)
    requires forall i :: 0 <= i < |a| ==> StepOk(a[i], clusterKey)
    requires forall i :: 0 <= i < |b| ==> StepOk(b[i], clusterKey)
    ensures forall i :: 0 <= i < |a + b| ==> StepOk((a + b)[i], clusterKey)
    ensures PendingOk(RunAll(s, clusterKey, flushRows, a).p, clusterKey)
    ensures RunAll(s, clusterKey, flushRows, a + b) ==
            RunAll(RunAll(s, clusterKey, flushRows, a), clusterKey, flushRows, b)
    decreases |a|
  {
    if a == [] {
      assert a + b == b;
    } else {
      assert (a + b)[0] == a[0] && (a + b)[1..] == a[1..] + b;
      NextOk(s, clusterKey, flushRows, a[0]);
      RunAllConcat(Next(s, clusterKey, flushRows, a[0]), clusterKey, flushRows, a[1..], b);
    }
  }

  // ----- a flood of rows -----

  /** Distinct UIDs. */
  function Uid(i: nat): (s: string)
    ensures |s| == i + 1
  {
    seq(i + 1, j => 'e')
  }

  function FloodRow(clusterKey: string, base: EventRow, i: nat): EventRow {
    base.(key := EventKey(clusterKey, Uid(i)))
  }

  function FloodStep(clusterKey: string, base: EventRow, i: nat): Step {
    Receive(Event(FloodRow(clusterKey, base, i)), false)
  }

  function Flood(clusterKey: string, base: EventRow, k: nat): (steps: seq<Step>)
    ensures |steps| == k && forall i :: 0 <= i < k ==> steps[i] == FloodStep(clusterKey, base, i)
  {
    if k == 0 then [] else Flood(clusterKey, base, k - 1) + [FloodStep(clusterKey, base, k - 1)]
  }

  function FloodRows(clusterKey: string, base: EventRow, k: nat): (rows: map<string, EventRow>)
    ensures |rows| == k && forall uid :: uid in rows ==> |uid| <= k
    ensures k > 0 ==> Uid(0) in rows
  {
    if k == 0 then map[]
    else
      var rows := FloodRows(clusterKey, base, k - 1);
      assert Uid(k - 1) !in rows;
      rows[Uid(k - 1) := FloodRow(clusterKey, base, k - 1)]
  }

  /** What waits after k rows, while every write fails. */
  function FloodPending(clusterKey: string, base: EventRow, flushRows: nat, k: nat): Pending {
    Pending(FloodRows(clusterKey, base, k), map[], seq(k, i requires 0 <= i < k => Uid(i)), flushRows <= k)
  }

  lemma FloodNext(db: Database, clusterKey: string, base: EventRow, flushRows: nat, k: nat)
    requires 0 < flushRows <= MAX_PENDING_ROWS && k <= MAX_PENDING_ROWS
    requires PendingOk(FloodPending(clusterKey, base, flushRows, k), clusterKey)
    ensures StepOk(FloodStep(clusterKey, base, k), clusterKey)
    ensures Next(WriterState(FloodPending(clusterKey, base, flushRows, k), db), clusterKey, flushRows,
                 FloodStep(clusterKey, base, k)) ==
            WriterState(FloodPending(clusterKey, base, flushRows, k + 1), db)
  {
    FloodReceived(clusterKey, base, flushRows, k);
  }

  lemma FloodReceived(clusterKey: string, base: EventRow, flushRows: nat, k: nat)
    requires 0 < flushRows
    ensures var p, q := FloodPending(clusterKey, base, flushRows, k), FloodPending(clusterKey, base, flushRows, k + 1);
            var r := Received(p, Event(FloodRow(clusterKey, base, k)));
            r.rows == q.rows && r.order == q.order && |r.rows| == k + 1 && Uid(k) in r.rows && r.states == q.states
  {
    var p, q := FloodPending(clusterKey, base, flushRows, k), FloodPending(clusterKey, base, flushRows, k + 1);
    assert Uid(k) !in p.rows;
    var r := Received(p, Event(FloodRow(clusterKey, base, k)));
    assert r.rows == q.rows;
    assert r.order == q.order;
  }

  /** One step more at the end of a run. */
  lemma RunAllSnoc(start: WriterState, clusterKey: string, flushRows: nat, before: seq<Step>, step: Step,
                   s: WriterState)
    requires PendingOk(start.p, clusterKey) && forall i :: 0 <= i < |before| ==> StepOk(before[i], clusterKey)
    requires StepOk(step, clusterKey) && PendingOk(s.p, clusterKey) && s == RunAll(start, clusterKey, flushRows, before)
    ensures RunAll(start, clusterKey, flushRows, before + [step]) == Next(s, clusterKey, flushRows, step)
  {
    NextOk(s, clusterKey, flushRows, step);
    RunAllConcat(start, clusterKey, flushRows, before, [step]);
    assert [step][1..] == [];
    assert RunAll(s, clusterKey, flushRows, [step]) == Next(s, clusterKey, flushRows, step);
  }

  lemma FloodSteps(clusterKey: string, base: EventRow, k: nat)
    ensures forall i :: 0 <= i < k ==> StepOk(Flood(clusterKey, base, k)[i], clusterKey)
  {
  }

  lemma {:induction false} FloodRuns(db: Database, clusterKey: string, base: EventRow, flushRows: nat, k: nat)
    requires 0 < flushRows <= MAX_PENDING_ROWS && k <= MAX_PENDING_ROWS + 1
    ensures forall i :: 0 <= i < k ==> StepOk(Flood(clusterKey, base, k)[i], clusterKey)
    ensures RunAll(WriterState(NOTHING, db), clusterKey, flushRows, Flood(clusterKey, base, k)) ==
            WriterState(FloodPending(clusterKey, base, flushRows, k), db)
    ensures PendingOk(FloodPending(clusterKey, base, flushRows, k), clusterKey)
  {
    FloodSteps(clusterKey, base, k);
    if k == 0 {
      assert FloodPending(clusterKey, base, flushRows, 0) == NOTHING;
    } else {
      FloodRuns(db, clusterKey, base, flushRows, k - 1);
      var s := WriterState(FloodPending(clusterKey, base, flushRows, k - 1), db);
      FloodNext(db, clusterKey, base, flushRows, k - 1);
      NextOk(s, clusterKey, flushRows, FloodStep(clusterKey, base, k - 1));
      RunAllSnoc(WriterState(NOTHING, db), clusterKey, flushRows, Flood(clusterKey, base, k - 1),
                 FloodStep(clusterKey, base, k - 1), s);
    }
  }

  // ----- the loss -----

  /** From the start, whatever the database holds: a run after which a resume point is saved that arrived after a
      row, and the row is not stored. */
  lemma BacklogIsLost(db: Database, clusterKey: string, flushRows: nat, base: EventRow, st: WatchState)
    returns (steps: seq<Step>)
    requires 0 < flushRows <= MAX_PENDING_ROWS && ItemOk(Resume(st), clusterKey)
    requires EventKey(clusterKey, Uid(0)) !in db.events
    ensures |steps| == MAX_PENDING_ROWS + 4 && steps[0] == FloodStep(clusterKey, base, 0)
    ensures steps[|steps| - 2] == Receive(Resume(st), true)
    ensures forall i :: 0 <= i < |steps| ==> StepOk(steps[i], clusterKey)
    ensures var end := RunAll(WriterState(NOTHING, db), clusterKey, flushRows, steps);
            Get(end.db.watch, WatchKey(clusterKey, st.namespace)) == Some(Stamped(st)) &&
            EventKey(clusterKey, Uid(0)) !in end.db.events
  {
    var k := MAX_PENDING_ROWS + 1;
    FloodRuns(db, clusterKey, base, flushRows, k);
    var s := WriterState(FloodPending(clusterKey, base, flushRows, k), db);
    DroppedRowsAreLost(s, clusterKey, flushRows, Flush(false), st);
    var rest := [Flush(false), Receive(Resume(st), true), Flush(true)];
    ThreeSteps(s, clusterKey, flushRows, rest[0], rest[1], rest[2]);
    steps := Flood(clusterKey, base, k) + rest;
    RunAllConcat(WriterState(NOTHING, db), clusterKey, flushRows, Flood(clusterKey, base, k), rest);
  }

  lemma ThreeSteps(s: WriterState, clusterKey: string, flushRows: nat, a: Step, b: Step, c: Step)
    requires PendingOk(s.p, clusterKey) && StepOk(a, clusterKey) && StepOk(b, clusterKey) && StepOk(c, clusterKey)
    ensures var t := Next(s, clusterKey, flushRows, a);
            PendingOk(t.p, clusterKey) &&
            var u := Next(t, clusterKey, flushRows, b);
            PendingOk(u.p, clusterKey) &&
            RunAll(s, clusterKey, flushRows, [a, b, c]) == Next(u, clusterKey, flushRows, c)
  {
    NextOk(s, clusterKey, flushRows, a);
    var t := Next(s, clusterKey, flushRows, a);
    NextOk(t, clusterKey, flushRows, b);
    var u := Next(t, clusterKey, flushRows, b);
    assert [a, b, c][1..] == [b, c] && [b, c][1..] == [c] && [c][1..] == [];
    assert RunAll(u, clusterKey, flushRows, [c]) == Next(u, clusterKey, flushRows, c);
    assert RunAll(t, clusterKey, flushRows, [b, c]) == RunAll(u, clusterKey, flushRows, [c]);
  }
}
