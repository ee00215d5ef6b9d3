/** Which process records which cluster, under exclusive locks (internal/history/manager.go:318-447, lock.go). */
module RecorderOwnership {
  // The recorders of any number of processes over one table of locks (also manager.go:255-262, 675-684). Steps of
  // different recorders interleave freely.

  /** The recorder's goroutine; ended means that its done channel is closed. */
  datatype Goroutine = NotStarted | Going | Ended

  /** How far the manager's program has got with a recorder. Starting: startContext has the lock. Registered: it is
      in the running map. The rest is halt's program: taken out of the map, cancelled, past the wait for done. */
  datatype Progress = Starting | Registered | TakenOut | Cancelled | Waited

  datatype Recorder = Recorder(process: nat, contextName: string, key: string, goroutine: Goroutine, progress: Progress)

  /** Recorders by id, the holder of each lock, and the processes whose manager is closed. */
  datatype World = World(recorders: map<nat, Recorder>, locks: map<string, nat>, closed: set<nat>)

  const START: World := World(map[], map[], {})

  /** One lock operation, one critical section of a manager, one instruction of halting a recorder, or one event
      outside. */
  datatype Step =
    | Acquire(id: nat, process: nat, contextName: string, key: string)
    | Register(id: nat)
    | Launch(id: nat)
    | TakeOut(id: nat)
    | Cancel(id: nat)
    | Exit(id: nat)
    | Wait(id: nat)
    | Release(id: nat)
    | Close(process: nat)
    | Crash(process: nat)

  predicate At(w: World, id: nat, p: Progress) {
    id in w.recorders && w.recorders[id].progress == p
  }

  predicate Runs(w: World, id: nat, g: Goroutine) {
    id in w.recorders && w.recorders[id].goroutine == g
  }

  /** A lock is granted only when nobody holds it. The manager's instructions come in program order; only the wait
      depends on the goroutine: it blocks until done is closed. A crash can happen at any time. */
  predicate Enabled(w: World, step: Step) {
    match step
    case Acquire(id, process, contextName, key) => id !in w.recorders && key !in w.locks
    case Register(id) => At(w, id, Starting)
    case Launch(id) => Runs(w, id, NotStarted) && !At(w, id, Starting)
    case TakeOut(id) => At(w, id, Registered)
    case Cancel(id) => At(w, id, TakenOut)
    case Exit(id) => Runs(w, id, Going)
    case Wait(id) => At(w, id, Cancelled) && Runs(w, id, Ended)
    case Release(id) => At(w, id, Waited)
    case Close(process) => true
    case Crash(process) => true
  }

  function Moved(w: World, id: nat, p: Progress): World
    requires id in w.recorders
  {
    w.(recorders := w.recorders[id := w.recorders[id].(progress := p)])
  }

  function Turned(w: World, id: nat, g: Goroutine): World
    requires id in w.recorders
  {
    w.(recorders := w.recorders[id := w.recorders[id].(goroutine := g)])
  }

  function Freed(w: World, ids: set<nat>): World {
    w.(recorders := w.recorders - ids, locks := map k | k in w.locks && w.locks[k] !in ids :: w.locks[k])
  }

  function OwnedBy(w: World, process: nat): set<nat> {
    set id | id in w.recorders && w.recorders[id].process == process
  }

  function Next(w: World, step: Step): World
    requires Enabled(w, step)
  {
    match step
    case Acquire(id, process, contextName, key) =>
      w.(recorders := w.recorders[id := Recorder(process, contextName, key, NotStarted, Starting)],
         locks := w.locks[key := id])
    case Register(id) =>
      // A manager closed in the meantime gives the lock back without starting the recorder.
      if w.recorders[id].process in w.closed then Freed(w, {id}) else Moved(w, id, Registered)
    case Launch(id) => Turned(w, id, Going)
    case TakeOut(id) => Moved(w, id, TakenOut)
    case Cancel(id) => Moved(w, id, Cancelled)
    case Exit(id) => Turned(w, id, Ended)
    case Wait(id) => Moved(w, id, Waited)
    case Release(id) => Freed(w, {id})
    case Close(process) => w.(closed := w.closed + {process})
    case Crash(process) =>
      // The system drops the locks of a process that exits.
      Freed(w, OwnedBy(w, process))
  }

  /** Its goroutine may be recording. */
  predicate Alive(r: Recorder) {
    r.goroutine == Going
  }

  /** Locks and recorders correspond, and the goroutine is where the manager's program puts it. */
  ghost predicate Sound(w: World) {
    (forall id :: id in w.recorders ==>
       w.recorders[id].key in w.locks && w.locks[w.recorders[id].key] == id) &&
    (forall k :: k in w.locks ==> w.locks[k] in w.recorders && w.recorders[w.locks[k]].key == k) &&
    (forall id :: id in w.recorders ==>
       (w.recorders[id].progress == Starting ==> w.recorders[id].goroutine == NotStarted) &&
       (w.recorders[id].progress == Waited ==> w.recorders[id].goroutine == Ended))
  }

  predicate AllEnabled(w: World, steps: seq<Step>)
    decreases |steps|
  {
    steps != [] ==> Enabled(w, steps[0]) && AllEnabled(Next(w, steps[0]), steps[1..])
  }

  function Run(w: World, steps: seq<Step>): World
    requires AllEnabled(w, steps)
    decreases |steps|
  {
    if steps == [] then w else Run(Next(w, steps[0]), steps[1..])
  }

  /** The steps are a run from w to v. */
  predicate LeadsTo(w: World, steps: seq<Step>, v: World) {
    AllEnabled(w, steps) && Run(w, steps) == v
  }

  lemma {:induction false} LeadsOn(w: World, a: seq<Step>, v: World, b: seq<Step>, u: World)
    requires LeadsTo(w, a, v) && LeadsTo(v, b, u)
    ensures LeadsTo(w, a + b, u)
    decreases |a|
  {
    if a == [] {
      assert a + b == b;
    } else {
      assert (a + b)[0] == a[0] && (a + b)[1..] == a[1..] + b;
      LeadsOn(Next(w, a[0]), a[1..], v, b, u);
    }
  }

  lemma OneStep(w: World, step: Step)
    requires Enabled(w, step)
    ensures LeadsTo(w, [step], Next(w, step))
  {
    assert [step][1..] == [];
  }

  lemma TwoSteps(w: World, a: Step, b: Step)
    requires AllEnabled(w, [a, b])
    ensures Enabled(w, a) && Enabled(Next(w, a), b) && Run(w, [a, b]) == Next(Next(w, a), b)
  {
    assert [a, b][0] == a && [a, b][1..] == [b] && [b][0] == b && [b][1..] == [];
    assert AllEnabled(Next(w, a), [b]);
    OneStep(Next(w, a), b);
  }

  lemma NextSound(w: World, step: Step)
    requires Sound(w) && Enabled(w, step)
    ensures Sound(Next(w, step))
  {
  }

  lemma {:induction false} RunSound(w: World, steps: seq<Step>)
    requires Sound(w) && AllEnabled(w, steps)
    ensures Sound(Run(w, steps))
    decreases |steps|
  {
    if steps != [] {
      NextSound(w, steps[0]);
      RunSound(Next(w, steps[0]), steps[1..]);
    }
  }

  /** Over all interleavings: never do two recorders of the same cluster run, in one process or in two. */
  lemma OneRecorderPerCluster(steps: seq<Step>, a: nat, b: nat)
    requires AllEnabled(START, steps)
    requires var w := Run(START, steps);
             a in w.recorders && b in w.recorders && Alive(w.recorders[a]) && Alive(w.recorders[b]) &&
             w.recorders[a].key == w.recorders[b].key
    ensures a == b
  {
    RunSound(START, steps);
  }

  /** In every run, a lock changes hands only after the recorder that it protects has stopped, was never launched, or
      has died with its process. */
  lemma LockOutlivesRecorder(steps: seq<Step>, step: Step, key: string)
    requires AllEnabled(START, steps) && Enabled(Run(START, steps), step) && key in Run(START, steps).locks
    requires var w := Run(START, steps); key !in Next(w, step).locks || Next(w, step).locks[key] != w.locks[key]
    ensures var w := Run(START, steps);
            w.locks[key] in w.recorders &&
            (!Alive(w.recorders[w.locks[key]]) ||
             (step.Crash? && w.recorders[w.locks[key]].process == step.process))
  {
    RunSound(START, steps);
  }

  // ----- closed managers -----

  /** A closed manager has at most recorders that have not been registered. */
  predicate Quiet(w: World, process: nat) {
    process in w.closed && forall id :: id in w.recorders && w.recorders[id].process == process ==> At(w, id, Starting)
  }

  /** Once a closed manager has stopped its recorders, none of its recorders ever runs, in any continuation. */
  lemma {:induction false} ClosedStaysQuiet(w: World, steps: seq<Step>, process: nat)
    requires Sound(w) && Quiet(w, process) && AllEnabled(w, steps)
    ensures Quiet(Run(w, steps), process)
    ensures forall id :: id in OwnedBy(Run(w, steps), process) ==> !Alive(Run(w, steps).recorders[id])
    decreases |steps|
  {
    if steps != [] {
      NextSound(w, steps[0]);
      ClosedStaysQuiet(Next(w, steps[0]), steps[1..], process);
    }
  }

  // ----- threads do not disturb each other -----

  /** The recorder that a step is about, if it is about one. */
  predicate Concerns(step: Step, id: nat) {
    match step
    case Acquire(i, _, _, _) => i == id
    case Register(i) => i == id
    case Launch(i) => i == id
    case TakeOut(i) => i == id
    case Cancel(i) => i == id
    case Exit(i) => i == id
    case Wait(i) => i == id
    case Release(i) => i == id
    case Close(_) => false
    case Crash(_) => false
  }

  /** What a thread can do next with a recorder of its own it can still do after any step about another recorder:
      only the acquisition of a lock races. */
  lemma OthersDoNotDisturb(w: World, mine: Step, other: Step, id: nat)
    requires Enabled(w, mine) && Enabled(w, other) && Concerns(mine, id) && !mine.Acquire? && !Concerns(other, id)
    requires other.Crash? ==> w.recorders[id].process != other.process
    ensures Enabled(Next(w, other), mine)
  {
  }

  // ----- the programs of a manager -----

  /** Halting a recorder that has been taken out of the running map: cancel, wait, release. While the program waits, the
      goroutine ends, and starts before that if it has not. */
  function HaltProgram(r: Recorder, id: nat): seq<Step> {
    [Cancel(id)] + (if r.goroutine == NotStarted then [Launch(id)] else []) +
    (if r.goroutine != Ended then [Exit(id)] else []) + [Wait(id), Release(id)]
  }

  lemma HaltProgramRuns(w: World, id: nat)
    requires At(w, id, TakenOut)
    ensures LeadsTo(w, HaltProgram(w.recorders[id], id), Freed(w, {id}))
  {
    var r := w.recorders[id];
    var w1 := Next(w, Cancel(id));
    OneStep(w, Cancel(id));
    var steps := [Cancel(id)];
    if r.goroutine == NotStarted {
      OneStep(w1, Launch(id));
      LeadsOn(w, steps, w1, [Launch(id)], Turned(w1, id, Going));
      steps, w1 := steps + [Launch(id)], Turned(w1, id, Going);
    }
    if r.goroutine != Ended {
      OneStep(w1, Exit(id));
      LeadsOn(w, steps, w1, [Exit(id)], Turned(w1, id, Ended));
      steps, w1 := steps + [Exit(id)], Turned(w1, id, Ended);
    }
    OneStep(w1, Wait(id));
    LeadsOn(w, steps, w1, [Wait(id)], Moved(w1, id, Waited));
    OneStep(Moved(w1, id, Waited), Release(id));
    LeadsOn(w, steps + [Wait(id)], Moved(w1, id, Waited), [Release(id)], Freed(Moved(w1, id, Waited), {id}));
    assert steps + [Wait(id)] + [Release(id)] == HaltProgram(r, id);
    assert Moved(w1, id, Waited).recorders - {id} == w.recorders - {id};
  }
}
