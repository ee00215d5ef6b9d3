/** When the writer writes, what it keeps meanwhile, and when it drops a backlog. */
module WriterTiming {
  import opened EventWriter
  import opened WriterRuns

  predicate AllReceive(steps: seq<Step>, clusterKey: string) {
    forall i :: 0 <= i < |steps| ==> steps[i].Receive? && StepOk(steps[i], clusterKey)
  }

  predicate AllWork(steps: seq<Step>) {
    forall i :: 0 <= i < |steps| ==> steps[i].dbOk
  }

  function UidOf(step: Step): set<string> {
    if step.Receive? && step.it.Event? then {step.it.row.key.uid} else {}
  }

  /** The events that are received. */
  function Uids(steps: seq<Step>): set<string> {
    if steps == [] then {} else UidOf(steps[0]) + Uids(steps[1..])
  }

  lemma SmallerBatch(a: set<string>, b: set<string>)
    requires a <= b
    ensures |a| <= |b|
  {
    assert b == a + (b - a);
    assert |b| == |a| + |b - a|;
  }

  lemma ReceivedRows(p: Pending, it: Item)
    ensures Received(p, it).rows.Keys == p.rows.Keys + if it.Event? then {it.row.key.uid} else {}
  {
  }

  // ----- batches -----

  /** From s to t nothing was written, and these events have come to wait. */
  predicate Waited(s: WriterState, t: WriterState, uids: set<string>) {
    t.db == s.db && t.p.rows.Keys == s.p.rows.Keys + uids
  }

  lemma WaitedFurther(s: WriterState, t: WriterState, u: WriterState, a: set<string>, b: set<string>)
    requires Waited(s, t, a) && Waited(t, u, b)
    ensures Waited(s, u, a + b)
  {
  }

  lemma WaitingNext(s: WriterState, clusterKey: string, flushRows: nat, step: Step, all: set<string>)
    requires PendingOk(s.p, clusterKey) && step.Receive? && StepOk(step, clusterKey)
    requires s.p.rows.Keys + UidOf(step) <= all && |all| < flushRows
    ensures var t := Next(s, clusterKey, flushRows, step); Waited(s, t, UidOf(step)) && PendingOk(t.p, clusterKey)
  {
    var q := Received(s.p, step.it);
    ReceivedRows(s.p, step.it);
    SmallerBatch(q.rows.Keys, all);
    assert |q.rows| == |q.rows.Keys|;
    NextOk(s, clusterKey, flushRows, step);
  }

  /** As long as no more than flushRows - 1 events wait, nothing is written, and exactly these wait. */
  lemma {:induction false} SmallBatchesWait(s: WriterState, clusterKey: string, flushRows: nat, steps: seq<Step>,
                                            all: set<string>)
    requires PendingOk(s.p, clusterKey) && AllReceive(steps, clusterKey)
    requires s.p.rows.Keys + Uids(steps) <= all && |all| < flushRows
    ensures Waited(s, RunAll(s, clusterKey, flushRows, steps), Uids(steps))
    decreases |steps|
  {
    if steps != [] {
      WaitingNext(s, clusterKey, flushRows, steps[0], all);
      var n := Next(s, clusterKey, flushRows, steps[0]);
      SmallBatchesWait(n, clusterKey, flushRows, steps[1..], all);
      WaitedFurther(s, n, RunAll(n, clusterKey, flushRows, steps[1..]), UidOf(steps[0]), Uids(steps[1..]));
    }
  }

  /** Fewer than a full batch wait, and the last write went through. */
  predicate Working(s: WriterState, flushRows: nat) {
    |s.p.rows| < flushRows && !s.p.failing
  }

  lemma WorkingNext(s: WriterState, clusterKey: string, flushRows: nat, step: Step)
    requires PendingOk(s.p, clusterKey) && StepOk(step, clusterKey) && step.dbOk && 0 < flushRows
    requires Working(s, flushRows)
    ensures Working(Next(s, clusterKey, flushRows, step), flushRows)
  {
    if step.Receive? {
      ReceivedOk(s.p, step.it, clusterKey);
    }
  }

  /** While the database works, a full batch never waits. */
  lemma {:induction false} WorkingKeepsUp(s: WriterState, clusterKey: string, flushRows: nat, steps: seq<Step>)
    requires PendingOk(s.p, clusterKey) && AllWork(steps) && 0 < flushRows && Working(s, flushRows)
    requires forall i :: 0 <= i < |steps| ==> StepOk(steps[i], clusterKey)
    ensures Working(RunAll(s, clusterKey, flushRows, steps), flushRows)
    decreases |steps|
  {
    if steps != [] {
      NextOk(s, clusterKey, flushRows, steps[0]);
      WorkingNext(s, clusterKey, flushRows, steps[0]);
      WorkingKeepsUp(Next(s, clusterKey, flushRows, steps[0]), clusterKey, flushRows, steps[1..]);
    }
  }

  // ----- a failing database -----

  predicate FailingAfter(s: WriterState, t: WriterState, uids: set<string>) {
    Waited(s, t, uids) && t.p.failing && s.p.states.Keys <= t.p.states.Keys
  }

  lemma FailingNext(s: WriterState, clusterKey: string, flushRows: nat, step: Step)
    requires PendingOk(s.p, clusterKey) && s.p.failing && step.Receive? && StepOk(step, clusterKey)
    ensures var t := Next(s, clusterKey, flushRows, step);
            FailingAfter(s, t, UidOf(step)) && PendingOk(t.p, clusterKey)
  {
    ReceivedRows(s.p, step.it);
    NextOk(s, clusterKey, flushRows, step);
  }

  lemma FailingFurther(s: WriterState, t: WriterState, u: WriterState, a: set<string>, b: set<string>)
    requires FailingAfter(s, t, a) && FailingAfter(t, u, b)
    ensures FailingAfter(s, u, a + b)
  {
    WaitedFurther(s, t, u, a, b);
  }

  lemma {:induction false} FailingWaits(s: WriterState, clusterKey: string, flushRows: nat, steps: seq<Step>)
    requires PendingOk(s.p, clusterKey) && s.p.failing && AllReceive(steps, clusterKey)
    ensures FailingAfter(s, RunAll(s, clusterKey, flushRows, steps), Uids(steps))
    ensures PendingOk(RunAll(s, clusterKey, flushRows, steps).p, clusterKey)
    decreases |steps|
  {
    if steps != [] {
      FailingNext(s, clusterKey, flushRows, steps[0]);
      var n := Next(s, clusterKey, flushRows, steps[0]);
      FailingWaits(n, clusterKey, flushRows, steps[1..]);
      FailingFurther(s, n, RunAll(n, clusterKey, flushRows, steps[1..]), UidOf(steps[0]), Uids(steps[1..]));
    }
  }

  predicate SomethingWaits(p: Pending) {
    p.rows != map[] || p.states != map[]
  }

  /** A failed write changes nothing, unless more than MAX_PENDING_ROWS events wait: then these are dropped. */
  predicate FailsTo(s: WriterState, f: WriterState) {
    f.db == s.db && f.p.failing &&
    if |s.p.rows| > MAX_PENDING_ROWS then !SomethingWaits(f.p) else f.p.rows == s.p.rows && f.p.states == s.p.states
  }

  lemma FlushFails(s: WriterState, clusterKey: string, flushRows: nat)
    requires PendingOk(s.p, clusterKey) && SomethingWaits(s.p)
    ensures var f := Next(s, clusterKey, flushRows, Flush(false)); FailsTo(s, f) && PendingOk(f.p, clusterKey)
  {
    NextOk(s, clusterKey, flushRows, Flush(false));
  }

  /** After a failed write nothing is written until the ticker, however much is received and whether or not the database
      would work; what waited still does, with what has come since, unless too much waited. */
  lemma FailedWritesWaitForTicker(s: WriterState, clusterKey: string, flushRows: nat, steps: seq<Step>)
    requires PendingOk(s.p, clusterKey) && AllReceive(steps, clusterKey) && SomethingWaits(s.p)
    ensures var f := Next(s, clusterKey, flushRows, Flush(false));
            PendingOk(f.p, clusterKey) &&
            var t := RunAll(f, clusterKey, flushRows, steps);
            FailsTo(s, f) && Waited(f, t, Uids(steps)) && f.p.states.Keys <= t.p.states.Keys
  {
    FlushFails(s, clusterKey, flushRows);
    FailingWaits(Next(s, clusterKey, flushRows, Flush(false)), clusterKey, flushRows, steps);
  }

  /** A write that goes through ends the wait: nothing is pending, and full batches are written again as they come. */
  lemma SuccessEndsWaiting(s: WriterState, clusterKey: string, flushRows: nat, steps: seq<Step>)
    requires PendingOk(s.p, clusterKey) && SomethingWaits(s.p) && AllWork(steps) && 0 < flushRows
    requires forall i :: 0 <= i < |steps| ==> StepOk(steps[i], clusterKey)
    ensures var f := Next(s, clusterKey, flushRows, Flush(true));
            PendingOk(f.p, clusterKey) && !SomethingWaits(f.p) &&
            Working(RunAll(f, clusterKey, flushRows, steps), flushRows)
  {
    NextOk(s, clusterKey, flushRows, Flush(true));
    WorkingKeepsUp(Next(s, clusterKey, flushRows, Flush(true)), clusterKey, flushRows, steps);
  }

  // ----- the backlog -----

  lemma BeforeRows(s: WriterState, step: Step)
    ensures Before(s, step).rows.Keys == s.p.rows.Keys + UidOf(step)
  {
    if step.Receive? {
      ReceivedRows(s.p, step.it);
    }
  }

  lemma NextRows(s: WriterState, clusterKey: string, flushRows: nat, step: Step)
    requires PendingOk(s.p, clusterKey) && StepOk(step, clusterKey)
    ensures var p := Next(s, clusterKey, flushRows, step).p; p.rows == map[] || p.rows == Before(s, step).rows
  {
  }

  lemma BacklogNext(t: Trace, clusterKey: string, flushRows: nat, step: Step, all: set<string>)
    requires PendingOk(t.s.p, clusterKey) && StepOk(step, clusterKey)
    requires t.s.p.rows.Keys + UidOf(step) <= all && |all| <= MAX_PENDING_ROWS
    ensures !Drops(t.s, flushRows, step)
    ensures var p := NextTrace(t, clusterKey, flushRows, step).s.p;
            PendingOk(p, clusterKey) && p.rows.Keys <= t.s.p.rows.Keys + UidOf(step)
  {
    var rows := Before(t.s, step).rows;
    BeforeRows(t.s, step);
    SmallerBatch(rows.Keys, all);
    assert |rows| == |rows.Keys|;
    NextOk(t.s, clusterKey, flushRows, step);
    NextRows(t.s, clusterKey, flushRows, step);
  }

  /** Whatever fails and however long: as long as no more than MAX_PENDING_ROWS events wait or are
      received, nothing is dropped. */
  lemma {:induction false} SmallBacklogsAreKept(t: Trace, clusterKey: string, flushRows: nat, steps: seq<Step>,
                                                all: set<string>)
    requires PendingOk(t.s.p, clusterKey) && forall i :: 0 <= i < |steps| ==> StepOk(steps[i], clusterKey)
    requires t.s.p.rows.Keys + Uids(steps) <= all && |all| <= MAX_PENDING_ROWS
    ensures NeverDrops(t, clusterKey, flushRows, steps)
    decreases |steps|
  {
    if steps != [] {
      BacklogNext(t, clusterKey, flushRows, steps[0], all);
      SmallBacklogsAreKept(NextTrace(t, clusterKey, flushRows, steps[0]), clusterKey, flushRows, steps[1..], all);
    }
  }
}
