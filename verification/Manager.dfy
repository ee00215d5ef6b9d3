/** The manager of one process (internal/history/manager.go:185-201, 305-447, 630-642, 675-684): keeping the running
    recorders equal to the contexts that should be recorded. Each call is a run of the steps of RecorderOwnership. */
module Manager {
  import opened ClusterKeys
  import CoverageStore
  import EventStore
  import opened Options
  import opened RecorderOwnership

  const END_CONTEXT_INACTIVE := "context_inactive"
  const END_RECORDING_OFF := "recording_off"
  const END_MONITORING_PAUSED := "monitoring_paused"

  /** A registered recorder: its identity and the key of the cluster that it records. */
  datatype Running = Running(id: nat, key: string)

  /** Cancelling, waiting for the goroutine to end, and releasing leaves no trace of the recorder. */
  lemma HaltedIsFreed(w: World, id: nat)
    requires At(w, id, TakenOut)
    ensures var cancelled := Next(w, Cancel(id));
            id in cancelled.recorders &&
            Next(Next(Turned(cancelled, id, Ended), Wait(id)), Release(id)) == Freed(w, {id})
  {
    var freed := Next(Next(Turned(Next(w, Cancel(id)), id, Ended), Wait(id)), Release(id));
    assert freed.recorders == w.recorders - {id};
  }

  /** The exclusive locks of all processes: key to the recorder that holds it. Lock files are named after the key.
      The ghost world has every recorder of every process. */
  class LockTable {
    var holder: map<string, nat>
    var next: nat
    ghost var world: World

    ghost predicate Valid()
      reads this
    {
      world.locks == holder && Sound(world) && forall id :: id in world.recorders ==> id < next
    }

    constructor ()
      ensures Valid() && world == START && holder == map[]
    {
      holder, next, world := map[], 0, START;
    }

    method TryAcquire(key: string, process: nat, contextName: string) returns (ok: bool, id: nat)
      requires Valid()
      modifies this
      ensures Valid() && ok == (key !in old(holder)) && id == old(next)
      ensures !ok ==> world == old(world)
      ensures ok ==> Enabled(old(world), Acquire(id, process, contextName, key)) &&
                     world == Next(old(world), Acquire(id, process, contextName, key))
    {
      ok, id := key !in holder, next;
      if ok {
        ghost var step := Acquire(id, process, contextName, key);
        NextSound(world, step);
        world := Next(world, step);
        holder, next := holder[key := id], next + 1;
      }
    }

    /** Release, or giving the lock back when the manager was closed before the recorder was registered. */
    method Unlock(rr: Running, ghost step: Step)
      requires Valid() && (step == Release(rr.id) || step == Register(rr.id)) && Enabled(world, step)
      requires world.recorders[rr.id].key == rr.key
      requires step.Register? ==> world.recorders[rr.id].process in world.closed
      modifies this
      ensures Valid() && world == Next(old(world), step) && holder == old(holder) - {rr.key}
    {
      NextSound(world, step);
      world := Next(world, step);
      holder := holder - {rr.key};
    }

    /** A step that leaves the locks alone. */
    ghost method Do(step: Step)
      requires Valid() && Enabled(world, step) && !step.Acquire? && !step.Release? && !step.Crash?
      requires step.Register? ==> world.recorders[step.id].process !in world.closed
      modifies this`world
      ensures Valid() && world == Next(old(world), step)
    {
      NextSound(world, step);
      world := Next(world, step);
    }

    /** Cancels, waits, and only then releases. */
    method Finish(rr: Running)
      requires Valid() && At(world, rr.id, TakenOut) && world.recorders[rr.id].key == rr.key
      modifies this
      ensures Valid() && world == Freed(old(world), {rr.id})
    {
      HaltedIsFreed(world, rr.id);
      Do(Cancel(rr.id));
      Await(rr.id);
      Do(Wait(rr.id));
      Unlock(rr, Release(rr.id));
    }

    /** While the manager waits for a recorder that it has cancelled, the recorder's goroutine ends. */
    ghost method Await(id: nat)
      requires Valid() && At(world, id, Cancelled)
      modifies this`world
      ensures Valid() && world == Turned(old(world), id, Ended)
    {
      if Runs(world, id, NotStarted) {
        Do(Launch(id));
      }
      if Runs(world, id, Going) {
        Do(Exit(id));
      }
    }
  }

  datatype Blocked = ClientUnavailable | OtherWindow | NoLockFile

  /** What startContext finds outside: the digest of a context's server, if the kubeconfig resolves it, and whether
      its lock file can be created. */
  datatype Outside = Outside(server: string -> Option<seq<Byte>>, lockFileOk: string -> bool)

  predicate NoDuplicates(xs: seq<string>) {
    forall i, j :: 0 <= i < j < |xs| ==> xs[i] != xs[j]
  }

  function Trim(s: string): string {
    TrimRight(TrimLeft(s))
  }

  predicate Blank(c: char) {
    c == ' ' || c == '\t' || c == '\n' || c == '\r'
  }

  function TrimLeft(s: string): string {
    if s != "" && Blank(s[0]) then TrimLeft(s[1..]) else s
  }

  function TrimRight(s: string): string {
    if s != "" && Blank(s[|s| - 1]) then TrimRight(s[..|s| - 1]) else s
  }

  /** name is one of the names, trimmed. */
  predicate Names(input: seq<string>, name: string) {
    exists i :: 0 <= i < |input| && Trim(input[i]) == name
  }

  lemma NamesMore(input: seq<string>, i: nat, name: string)
    requires i < |input|
    ensures Names(input[..i + 1], name) <==> Names(input[..i], name) || Trim(input[i]) == name
  {
    var more := input[..i + 1];
    assert more[i] == input[i] && forall j :: 0 <= j < i ==> more[j] == input[..i][j];
    if Names(input[..i], name) {
      var j :| 0 <= j < i && Trim(input[..i][j]) == name;
      assert Trim(more[j]) == name;
    }
    if Names(more, name) && Trim(input[i]) != name {
      var j :| 0 <= j < |more| && Trim(more[j]) == name;
      assert Trim(input[..i][j]) == name;
    }
  }

  /** The names, trimmed, without empty ones, each where it first occurs. */
  function FirstOccurrences(input: seq<string>): seq<string> {
    if input == [] then []
    else
      var before, s := FirstOccurrences(input[..|input| - 1]), Trim(input[|input| - 1]);
      if s == "" || s in before then before else before + [s]
  }

  /** Trims names and drops empty ones and repetitions. */
  method UniqueNonEmpty(input: seq<string>) returns (out: seq<string>)
    ensures NoDuplicates(out)
    ensures forall n :: n in out <==> n != "" && Names(input, n)
    ensures out == FirstOccurrences(input)
  {
    out := [];
    for i := 0 to |input|
      invariant NoDuplicates(out)
      invariant forall n :: n in out <==> n != "" && Names(input[..i], n)
      invariant out == FirstOccurrences(input[..i])
    {
      assert input[..i + 1][..i] == input[..i];
      forall n ensures Names(input[..i + 1], n) <==> Names(input[..i], n) || Trim(input[i]) == n {
        NamesMore(input, i, n);
      }
      var s := Trim(input[i]);
      if s == "" || s in out {
        continue;
      }
      out := out + [s];
    }
    assert input[..|input|] == input;
  }

  // ----- one manager in the world of all processes -----

  /** c runs under the key of the server that the kubeconfig names for it. */
  predicate UnderItsKey(c: string, key: string, o: Outside) {
    o.server(c).Some? && key == ClusterKey(c, o.server(c).value)
  }

  /** What has started since runs under its key. */
  ghost predicate StartedProperly(was: map<string, Running>, now: map<string, Running>, o: Outside) {
    (forall c :: c in was ==> c in now && now[c] == was[c]) &&
    (forall c :: c in now && c !in was ==> UnderItsKey(c, now[c].key, o))
  }

  lemma StartedFurther(a: map<string, Running>, b: map<string, Running>, c: map<string, Running>, o: Outside)
    requires StartedProperly(a, b, o) && StartedProperly(b, c, o)
    ensures StartedProperly(a, c, o)
  {
  }

  /** rr is registered for context c of process p. */
  predicate IsRunning(w: World, p: nat, c: string, rr: Running) {
    At(w, rr.id, Registered) && ContextFromKey(rr.key) == c &&
    var r := w.recorders[rr.id]; r.process == p && r.contextName == c && r.key == rr.key
  }

  /** rr is out of the running map and has not been halted yet. */
  predicate IsTakenOut(w: World, p: nat, rr: Running) {
    At(w, rr.id, TakenOut) && w.recorders[rr.id].process == p && w.recorders[rr.id].key == rr.key
  }

  /** A recorder of process p is running or in halting. */
  predicate Accounted(running: map<string, Running>, halting: set<Running>, w: World, p: nat, id: nat) {
    id in w.recorders && w.recorders[id].process == p ==>
      var r := w.recorders[id];
      Running(id, r.key) in halting || (r.contextName in running && running[r.contextName] == Running(id, r.key))
  }

  /** The recorders of process p are exactly those running and those in halting. */
  ghost predicate Matches(running: map<string, Running>, halting: set<Running>, w: World, p: nat) {
    (forall c {:trigger IsRunning(w, p, c, running[c])} :: c in running ==> IsRunning(w, p, c, running[c])) &&
    (forall rr {:trigger IsTakenOut(w, p, rr)} :: rr in halting ==> IsTakenOut(w, p, rr)) &&
    (forall id {:trigger Accounted(running, halting, w, p, id)} :: Accounted(running, halting, w, p, id))
  }

  predicate Untouched(w: World, v: World, p: nat, id: nat) {
    (id in w.recorders && w.recorders[id].process != p) || (id in v.recorders && v.recorders[id].process != p) ==>
      id in w.recorders && id in v.recorders && v.recorders[id] == w.recorders[id]
  }

  /** The recorders of other processes, and whether those are closed, stay as they are. */
  ghost predicate OthersKept(w: World, v: World, p: nat) {
    (forall id {:trigger Untouched(w, v, p, id)} :: Untouched(w, v, p, id)) && w.closed - {p} == v.closed - {p}
  }

  /** The steps of process p lead from w to v, and touch no other process. */
  ghost predicate Reaches(w: World, steps: seq<Step>, v: World, p: nat) {
    LeadsTo(w, steps, v) && OthersKept(w, v, p)
  }

  lemma ReachesItself(w: World, p: nat)
    ensures Reaches(w, [], w, p)
  {
  }

  lemma ReachesFurther(w: World, a: seq<Step>, v: World, b: seq<Step>, u: World, p: nat)
    requires Reaches(w, a, v, p) && Reaches(v, b, u, p)
    ensures Reaches(w, a + b, u, p)
  {
    LeadsOn(w, a, v, b, u);
    forall id ensures Untouched(w, u, p, id) {
      assert Untouched(w, v, p, id) && Untouched(v, u, p, id);
    }
  }

  lemma TakeOutMatches(running: map<string, Running>, halting: set<Running>, w: World, p: nat, c: string)
    requires Matches(running, halting, w, p) && c in running
    ensures At(w, running[c].id, Registered) && running[c] !in halting
    ensures var v := Moved(w, running[c].id, TakenOut);
            Reaches(w, [TakeOut(running[c].id)], v, p) && Matches(running - {c}, halting + {running[c]}, v, p)
  {
    assert IsRunning(w, p, c, running[c]);
    assert running[c] in halting ==> IsTakenOut(w, p, running[c]);
    OneStep(w, TakeOut(running[c].id));
    var v := Moved(w, running[c].id, TakenOut);
    forall d | d in running - {c} ensures IsRunning(v, p, d, (running - {c})[d]) {
      assert IsRunning(w, p, d, running[d]);
    }
    forall rr | rr in halting + {running[c]} ensures IsTakenOut(v, p, rr) {
      assert rr in halting ==> IsTakenOut(w, p, rr);
    }
    forall id ensures Accounted(running - {c}, halting + {running[c]}, v, p, id) && Untouched(w, v, p, id) {
      assert Accounted(running, halting, w, p, id);
    }
  }

  lemma HaltMatches(running: map<string, Running>, halting: set<Running>, w: World, p: nat, rr: Running)
    requires Matches(running, halting, w, p) && rr in halting
    ensures At(w, rr.id, TakenOut) && w.recorders[rr.id].key == rr.key
    ensures var v := Freed(w, {rr.id});
            Reaches(w, HaltProgram(w.recorders[rr.id], rr.id), v, p) && Matches(running, halting - {rr}, v, p)
  {
    assert IsTakenOut(w, p, rr);
    HaltProgramRuns(w, rr.id);
    var v := Freed(w, {rr.id});
    forall d | d in running ensures IsRunning(v, p, d, running[d]) {
      assert IsRunning(w, p, d, running[d]);
    }
    forall other | other in halting - {rr} ensures IsTakenOut(v, p, other) {
      assert IsTakenOut(w, p, other);
    }
    forall id ensures Accounted(running, halting - {rr}, v, p, id) && Untouched(w, v, p, id) {
      assert Accounted(running, halting, w, p, id);
    }
  }

  lemma CloseMatches(running: map<string, Running>, w: World, p: nat)
    requires Matches(running, {}, w, p)
    ensures var v := Next(w, Step.Close(p)); Reaches(w, [Step.Close(p)], v, p) && Matches(running, {}, v, p)
  {
    var v := Next(w, Step.Close(p));
    OneStep(w, Step.Close(p));
    forall c | c in running ensures IsRunning(v, p, c, running[c]) {
      assert IsRunning(w, p, c, running[c]);
    }
    forall id ensures Accounted(running, {}, v, p, id) && Untouched(w, v, p, id) {
      assert Accounted(running, {}, w, p, id);
    }
  }

  /** Once its recorder has been stopped and its context does not run, nobody has the key. */
  lemma DroppedKeyIsFree(w: World, v: World, running: map<string, Running>, p: nat, c: string, rr: Running)
    requires Sound(w) && Sound(v) && IsRunning(w, p, c, rr) && c !in running
    requires Matches(running, {}, v, p) && OthersKept(w, v, p)
    ensures rr.key !in v.locks
  {
    if rr.key in v.locks {
      var h := v.locks[rr.key];
      assert Untouched(w, v, p, h);
      if v.recorders[h].process == p {
        OwnLockRuns(v, running, p, rr.key);
      }
    }
  }

  /** A lock that process p holds is that of a running context. */
  lemma OwnLockRuns(v: World, running: map<string, Running>, p: nat, key: string)
    requires Sound(v) && Matches(running, {}, v, p) && key in v.locks && v.recorders[v.locks[key]].process == p
    ensures ContextFromKey(key) in running && running[ContextFromKey(key)].key == key
  {
    var h := v.locks[key];
    assert Accounted(running, {}, v, p, h);
    var d := v.recorders[h].contextName;
    assert IsRunning(v, p, d, running[d]);
  }

  lemma DroppedKeysAreFree(w: World, v: World, was: map<string, Running>, now: map<string, Running>, p: nat)
    requires Sound(w) && Sound(v) && Matches(was, {}, w, p) && Matches(now, {}, v, p) && OthersKept(w, v, p)
    ensures forall c :: c in was && c !in now ==> was[c].key !in v.locks
  {
    forall c | c in was && c !in now ensures was[c].key !in v.locks {
      assert IsRunning(w, p, c, was[c]);
      DroppedKeyIsFree(w, v, now, p, c, was[c]);
    }
  }

  lemma NothingMatches(w: World, p: nat)
    requires OwnedBy(w, p) == {}
    ensures Matches(map[], {}, w, p)
  {
    forall id ensures Accounted(map[], {}, w, p, id) {
      assert id in w.recorders ==> id !in OwnedBy(w, p);
    }
  }

  /** When nothing runs and nothing is being halted, the process has no recorder. */
  lemma NothingLeft(w: World, p: nat)
    requires Matches(map[], {}, w, p)
    ensures OwnedBy(w, p) == {} && (p in w.closed ==> Quiet(w, p))
  {
    forall id | id in w.recorders ensures w.recorders[id].process != p {
      assert Accounted(map[], {}, w, p, id);
    }
  }

  /** Acquiring the lock and registering. */
  function Launched(w: World, id: nat, p: nat, c: string, key: string): World {
    w.(recorders := w.recorders[id := Recorder(p, c, key, NotStarted, Registered)], locks := w.locks[key := id])
  }

  lemma LaunchRuns(w: World, id: nat, p: nat, c: string, key: string)
    requires Sound(w) && Enabled(w, Acquire(id, p, c, key))
    ensures LeadsTo(w, [Acquire(id, p, c, key), Register(id)], if p in w.closed then w else Launched(w, id, p, c, key))
  {
    var w1 := Next(w, Acquire(id, p, c, key));
    OneStep(w, Acquire(id, p, c, key));
    OneStep(w1, Register(id));
    LeadsOn(w, [Acquire(id, p, c, key)], w1, [Register(id)], Next(w1, Register(id)));
    assert [Acquire(id, p, c, key)] + [Register(id)] == [Acquire(id, p, c, key), Register(id)];
    if p in w.closed {
      assert Next(w1, Register(id)).recorders == w.recorders;
      assert Next(w1, Register(id)).locks == w.locks;
    } else {
      assert Next(w1, Register(id)) == Launched(w, id, p, c, key);
    }
  }

  lemma LaunchMatches(running: map<string, Running>, w: World, id: nat, p: nat, c: string, key: string)
    requires Matches(running, {}, w, p) && c !in running && ContextFromKey(key) == c && id !in w.recorders
    ensures var v := Launched(w, id, p, c, key);
            Matches(running[c := Running(id, key)], {}, v, p) && OthersKept(w, v, p)
  {
    var v, more := Launched(w, id, p, c, key), running[c := Running(id, key)];
    forall d | d in more ensures IsRunning(v, p, d, more[d]) {
      assert d in running ==> IsRunning(w, p, d, running[d]);
    }
    forall i ensures Accounted(more, {}, v, p, i) && Untouched(w, v, p, i) {
      assert Accounted(running, {}, w, p, i);
    }
  }

  /** Running, blocked and keys, and the world, after one context has been started or found blocked. */
  function Started(name: string, o: Outside, p: nat, closed: bool, next: nat, running: map<string, Running>,
                   blocked: map<string, Blocked>, keys: map<string, string>, w: World)
    : (map<string, Running>, map<string, Blocked>, map<string, string>, World)
  {
    if o.server(name).None? then (running, blocked[name := ClientUnavailable], keys, w)
    else
      var key := ClusterKey(name, o.server(name).value);
      var known := keys[name := key];
      if !o.lockFileOk(key) then (running, blocked[name := NoLockFile], known, w)
      else if key in w.locks then (running, blocked[name := OtherWindow], known, w)
      else if closed then (running, blocked, known, w)
      else (running[name := Running(next, key)], blocked - {name}, known, Launched(w, next, p, name, key))
  }

  /** The reason why c is blocked is the one that was met: no such cluster, no lock file, or another holder. */
  predicate BlockedRightly(c: string, why: Blocked, o: Outside, locks: map<string, nat>) {
    match why
    case ClientUnavailable => o.server(c).None?
    case NoLockFile => o.server(c).Some? && !o.lockFileOk(ClusterKey(c, o.server(c).value))
    case OtherWindow =>
      o.server(c).Some? && o.lockFileOk(ClusterKey(c, o.server(c).value)) && ClusterKey(c, o.server(c).value) in locks
  }

  /** c runs, or is blocked for the right reason. */
  predicate Settled(c: string, running: map<string, Running>, blocked: map<string, Blocked>, o: Outside,
                    locks: map<string, nat>)
  {
    c in running || (c in blocked && BlockedRightly(c, blocked[c], o, locks))
  }

  /** The key of c is known if its cluster is. */
  predicate KeyKnown(c: string, keys: map<string, string>, o: Outside) {
    o.server(c).Some? ==> c in keys && keys[c] == ClusterKey(c, o.server(c).value)
  }

  /** From before to after, only name may have changed, and no lock was given up. */
  ghost predicate OnlyAbout(name: string, before: map<string, Blocked>, after: map<string, Blocked>,
                      was: map<string, nat>, now: map<string, nat>)
  {
    (forall c :: c != name ==> (c in before <==> c in after)) &&
    (forall c :: c != name && c in before && c in after ==> after[c] == before[c]) && was.Keys <= now.Keys
  }

  /** The first n names are settled. */
  predicate AllSettled(want: seq<string>, n: nat, running: map<string, Running>, blocked: map<string, Blocked>,
                       o: Outside, locks: map<string, nat>)
    requires n <= |want|
  {
    forall j :: 0 <= j < n ==> Settled(want[j], running, blocked, o, locks)
  }

  lemma OneMoreSettled(want: seq<string>, n: nat, running: map<string, Running>, after: map<string, Running>,
                       blocked: map<string, Blocked>, later: map<string, Blocked>, o: Outside, was: map<string, nat>,
                       now: map<string, nat>)
    requires n < |want| && AllSettled(want, n, running, blocked, o, was)
    requires OnlyAbout(want[n], blocked, later, was, now) && StartedProperly(running, after, o)
    requires Settled(want[n], after, later, o, now)
    ensures AllSettled(want, n + 1, after, later, o, now)
  {
  }

  /** The keys of the first n names that were not running are known. */
  predicate AllKnown(want: seq<string>, n: nat, was: map<string, Running>, keys: map<string, string>, o: Outside)
    requires n <= |want|
  {
    forall j :: 0 <= j < n && want[j] !in was ==> KeyKnown(want[j], keys, o)
  }

  /** The keys of what has started are known. */
  ghost predicate StartedKnown(was: map<string, Running>, running: map<string, Running>, keys: map<string, string>,
                               o: Outside)
  {
    forall c :: c in running && c !in was ==> KeyKnown(c, keys, o)
  }

  /** All keys but that of name are as before. */
  ghost predicate KeysKept(name: string, keys: map<string, string>, after: map<string, string>) {
    forall c :: c != name && c in keys ==> c in after && after[c] == keys[c]
  }

  lemma OneMoreKnown(want: seq<string>, n: nat, was: map<string, Running>, keys: map<string, string>,
                     after: map<string, string>, o: Outside)
    requires n < |want| && AllKnown(want, n, was, keys, o) && KeysKept(want[n], keys, after)
    requires want[n] in was || KeyKnown(want[n], after, o)
    ensures AllKnown(want, n + 1, was, after, o)
  {
  }

  lemma StartedFacts(name: string, o: Outside, p: nat, closed: bool, next: nat, running: map<string, Running>,
                     blocked: map<string, Blocked>, keys: map<string, string>, w: World)
    requires name !in running
    ensures var s := Started(name, o, p, closed, next, running, blocked, keys, w);
            StartedProperly(running, s.0, o) && s.0.Keys <= running.Keys + {name} &&
            s.1.Keys <= blocked.Keys + {name} && KeyKnown(name, s.2, o) && KeysKept(name, keys, s.2)
  {
  }

  /** Starting a context settles it, and concerns no other. */
  lemma StartingSettles(name: string, o: Outside, p: nat, closed: bool, next: nat, running: map<string, Running>,
                        blocked: map<string, Blocked>, keys: map<string, string>, w: World)
    requires name !in running
    ensures var s := Started(name, o, p, closed, next, running, blocked, keys, w);
            (!closed ==> Settled(name, s.0, s.1, o, s.3.locks)) && OnlyAbout(name, blocked, s.1, w.locks, s.3.locks)
  {
  }

  function Elements(rrs: seq<Running>): set<Running> {
    set rr | rr in rrs
  }

  predicate Distinct(rrs: seq<Running>) {
    forall i, j :: 0 <= i < j < |rrs| ==> rrs[i] != rrs[j]
  }

  lemma ElementsMore(rrs: seq<Running>, rr: Running)
    requires Distinct(rrs) && rr !in Elements(rrs)
    ensures Elements(rrs + [rr]) == Elements(rrs) + {rr} && Distinct(rrs + [rr])
  {
  }

  lemma ElementsRest(rrs: seq<Running>, i: nat)
    requires i < |rrs| && Distinct(rrs)
    ensures rrs[i] in Elements(rrs[i..]) && Elements(rrs[i + 1..]) == Elements(rrs[i..]) - {rrs[i]}
  {
    assert rrs[i..] == [rrs[i]] + rrs[i + 1..];
  }

  class Manager {
    const id: nat
    const locks: LockTable
    const hasClients: bool
    var enabled: bool
    var paused: bool
    var active: string
    var favorites: seq<string>
    var running: map<string, Running>
    var blocked: map<string, Blocked>
    var keys: map<string, string>
    var closed: bool

    constructor (id: nat, locks: LockTable, hasClients: bool)
      requires locks.Valid() && OwnedBy(locks.world, id) == {} && id !in locks.world.closed
      ensures this.id == id && this.locks == locks && this.hasClients == hasClients && !closed
      ensures running == map[] && Valid()
    {
      this.id, this.locks, this.hasClients := id, locks, hasClients;
      enabled, paused, active, favorites := true, false, "", [];
      running, blocked, keys, closed := map[], map[], map[], false;
      new;
      NothingMatches(locks.world, id);
    }

    /** Between calls the recorders of this process, and so the locks that it holds, are exactly those of the running
        map, each under a key of its own context; a blocked context is not running. */
    ghost predicate Valid()
      reads this, locks
    {
      ValidWhile({})
    }

    /** The same while the recorders in halting are being stopped. */
    ghost predicate ValidWhile(halting: set<Running>)
      reads this, locks
    {
      locks.Valid() && running.Keys !! blocked.Keys && Matches(running, halting, locks.world, id) &&
      (closed <==> id in locks.world.closed)
    }

    method Desired() returns (want: seq<string>)
      ensures NoDuplicates(want)
      ensures forall n :: n in want <==> enabled && !paused && n != "" && Names([active] + favorites, n)
      ensures want == if enabled && !paused then FirstOccurrences([active] + favorites) else []
    {
      if !enabled || paused {
        return [];
      }
      want := UniqueNonEmpty([active] + favorites);
    }

    /** Starts one recorder, or records why it cannot run. A manager closed meanwhile gives the lock back. */
    method StartContext(name: string, o: Outside) returns (ghost steps: seq<Step>)
      requires Valid() && name !in running
      modifies this`running, this`blocked, this`keys, locks
      ensures Valid() && Reaches(old(locks.world), steps, locks.world, id)
      ensures if hasClients
              then (running, blocked, keys, locks.world) ==
                   Started(name, o, id, closed, old(locks.next), old(running), old(blocked), old(keys),
                           old(locks.world))
              else running == old(running) && blocked == old(blocked) && keys == old(keys) &&
                   locks.world == old(locks.world)
    {
      steps := [];
      ReachesItself(locks.world, id);
      if !hasClients {
        return;
      }
      var target := o.server(name);
      if target.None? {
        blocked := blocked[name := ClientUnavailable];
        return;
      }
      var key := ClusterKey(name, target.value);
      ContextIsRecovered(name, target.value);
      keys := keys[name := key];
      if !o.lockFileOk(key) {
        blocked := blocked[name := NoLockFile];
        return;
      }
      var ok;
      ok, steps := Enroll(name, key);
      if !ok {
        blocked := blocked[name := OtherWindow];
      }
    }

    /** The lock, and with it a place in the running map, unless the manager was closed meanwhile. */
    method Enroll(name: string, key: string) returns (ok: bool, ghost steps: seq<Step>)
      requires Valid() && name !in running && ContextFromKey(key) == name
      modifies this`running, this`blocked, locks
      ensures Valid() && Reaches(old(locks.world), steps, locks.world, id) && ok == (key !in old(locks.world.locks))
      ensures (running, blocked, locks.world) ==
              if !ok || closed then (old(running), old(blocked), old(locks.world))
              else (old(running)[name := Running(old(locks.next), key)], old(blocked) - {name},
                    Launched(old(locks.world), old(locks.next), id, name, key))
    {
      ghost var w := locks.world;
      ReachesItself(w, id);
      steps := [];
      var recorder;
      ok, recorder := locks.TryAcquire(key, id, name);
      if !ok {
        return;
      }
      LaunchRuns(w, recorder, id, name, key);
      LaunchMatches(running, w, recorder, id, name, key);
      steps := [Acquire(recorder, id, name, key), Register(recorder)];
      TwoSteps(w, steps[0], steps[1]);
      if closed {
        locks.Unlock(Running(recorder, key), Register(recorder));
        return;
      }
      blocked := blocked - {name};
      running := running[name := Running(recorder, key)];
      locks.Do(Register(recorder));
    }

    method TakeOneOut(name: string, ghost halting: set<Running>) returns (rr: Running, ghost steps: seq<Step>)
      requires ValidWhile(halting) && name in running
      modifies this`running, locks`world
      ensures rr == old(running)[name] && running == old(running) - {name} && rr !in halting
      ensures ValidWhile(halting + {rr})
      ensures Reaches(old(locks.world), steps, locks.world, id)
    {
      TakeOutMatches(running, halting, locks.world, id, name);
      rr := running[name];
      running := running - {name};
      steps := [TakeOut(rr.id)];
      locks.Do(TakeOut(rr.id));
    }

    /** Takes the recorders out of the running map that are not wanted. */
    method TakeUnwanted(want: set<string>) returns (stop: seq<Running>, ghost steps: seq<Step>)
      requires Valid()
      modifies this`running, locks`world
      ensures ValidWhile(Elements(stop)) && Distinct(stop)
      ensures Reaches(old(locks.world), steps, locks.world, id)
      ensures running == map c | c in old(running) && c in want :: old(running)[c]
    {
      stop, steps := [], [];
      ReachesItself(locks.world, id);
      var todo := running.Keys;
      assert Elements(stop) == {};
      while todo != {}
        invariant ValidWhile(Elements(stop)) && Distinct(stop) && todo <= running.Keys <= old(running).Keys
        invariant Reaches(old(locks.world), steps, locks.world, id)
        invariant forall c :: c in old(running) ==> (c in running <==> c in todo || c in want)
        invariant forall c :: c in running ==> running[c] == old(running)[c]
      {
        var name :| name in todo;
        todo := todo - {name};
        if name !in want {
          ghost var w, more := locks.world, [];
          var rr;
          rr, more := TakeOneOut(name, Elements(stop));
          ReachesFurther(old(locks.world), steps, w, more, locks.world, id);
          ElementsMore(stop, rr);
          stop, steps := stop + [rr], steps + more;
        }
      }
    }

    method Halt(rr: Running, ghost halting: set<Running>) returns (ghost steps: seq<Step>)
      requires ValidWhile(halting) && rr in halting
      modifies locks
      ensures ValidWhile(halting - {rr})
      ensures Reaches(old(locks.world), steps, locks.world, id)
    {
      HaltMatches(running, halting, locks.world, id, rr);
      steps := HaltProgram(locks.world.recorders[rr.id], rr.id);
      locks.Finish(rr);
    }

    method HaltAll(stop: seq<Running>) returns (ghost steps: seq<Step>)
      requires ValidWhile(Elements(stop)) && Distinct(stop)
      modifies locks
      ensures Valid()
      ensures Reaches(old(locks.world), steps, locks.world, id)
    {
      steps := [];
      ReachesItself(locks.world, id);
      for i := 0 to |stop|
        invariant ValidWhile(Elements(stop[i..]))
        invariant Reaches(old(locks.world), steps, locks.world, id)
      {
        ghost var w, more := locks.world, [];
        ElementsRest(stop, i);
        more := Halt(stop[i], Elements(stop[i..]));
        ReachesFurther(old(locks.world), steps, w, more, locks.world, id);
        steps := steps + more;
      }
      assert Elements(stop[|stop|..]) == {};
    }

    /** Makes the running recorders the wanted ones, as far as possible. */
    method Reconcile(enabledNow: bool, o: Outside)
      returns (want: seq<string>, stopReason: string, ghost steps: seq<Step>)
      requires Valid()
      modifies this`enabled, this`running, this`blocked, this`keys, locks
      ensures Valid() && enabled == enabledNow
      ensures Reaches(old(locks.world), steps, locks.world, id)
      ensures want == if enabled && !paused then FirstOccurrences([active] + favorites) else []
      ensures forall c :: c in running || c in blocked ==> c in want
      ensures hasClients && !closed ==> forall c :: c in want ==> Settled(c, running, blocked, o, locks.holder)
      ensures hasClients ==> forall c :: c in want && c !in old(running) ==> KeyKnown(c, keys, o)
      ensures forall c :: c in old(running) && c in want ==> c in running && running[c] == old(running)[c]
      ensures forall c :: c in old(running) && c !in want ==> c !in running && old(running)[c].key !in locks.holder
      ensures forall c :: c in running && c !in old(running) ==> UnderItsKey(c, running[c].key, o)
      ensures stopReason == if !enabled then END_RECORDING_OFF else if paused then END_MONITORING_PAUSED
                            else END_CONTEXT_INACTIVE
    {
      enabled := enabledNow;
      want := Desired();
      stopReason := END_CONTEXT_INACTIVE;
      if !enabled {
        stopReason := END_RECORDING_OFF;
      } else if paused {
        stopReason := END_MONITORING_PAUSED;
      }
      steps := Bring(want, o);
    }

    /** Stops what is not wanted and starts what is. */
    method Bring(want: seq<string>, o: Outside) returns (ghost steps: seq<Step>)
      requires Valid()
      modifies this`running, this`blocked, this`keys, locks
      ensures Valid() && Reaches(old(locks.world), steps, locks.world, id)
      ensures forall c :: c in running || c in blocked ==> c in want
      ensures hasClients && !closed ==> forall c :: c in want ==> Settled(c, running, blocked, o, locks.holder)
      ensures hasClients ==> forall c :: c in want && c !in old(running) ==> KeyKnown(c, keys, o)
      ensures forall c :: c in old(running) && c in want ==> c in running && running[c] == old(running)[c]
      ensures forall c :: c in old(running) && c !in want ==> c !in running && old(running)[c].key !in locks.holder
      ensures forall c :: c in running && c !in old(running) ==> UnderItsKey(c, running[c].key, o)
    {
      steps := StopUnwanted(set c | c in want);
      ghost var w, more := locks.world, [];
      more := StartAll(want, o);
      ReachesFurther(old(locks.world), steps, w, more, locks.world, id);
      steps := steps + more;
      DroppedKeysAreFree(old(locks.world), locks.world, old(running), running, id);
    }

    method StopUnwanted(want: set<string>) returns (ghost steps: seq<Step>)
      requires Valid()
      modifies this`running, this`blocked, locks
      ensures Valid() && Reaches(old(locks.world), steps, locks.world, id)
      ensures running == map c | c in old(running) && c in want :: old(running)[c]
      ensures blocked == map c | c in old(blocked) && c in want :: old(blocked)[c]
    {
      var stop;
      stop, steps := TakeUnwanted(want);
      blocked := map c | c in blocked && c in want :: blocked[c];
      ghost var w, more := locks.world, [];
      more := HaltAll(stop);
      ReachesFurther(old(locks.world), steps, w, more, locks.world, id);
      steps := steps + more;
    }

    method StartUnlessRunning(name: string, o: Outside) returns (ghost steps: seq<Step>)
      requires Valid()
      modifies this`running, this`blocked, this`keys, locks
      ensures Valid() && Reaches(old(locks.world), steps, locks.world, id)
      ensures hasClients && !closed ==> Settled(name, running, blocked, o, locks.holder)
      ensures running.Keys <= old(running).Keys + {name} && blocked.Keys <= old(blocked).Keys + {name}
      ensures StartedProperly(old(running), running, o)
      ensures OnlyAbout(name, old(blocked), blocked, old(locks.holder), locks.holder)
      ensures hasClients && name !in old(running) ==> KeyKnown(name, keys, o)
      ensures KeysKept(name, old(keys), keys) && (name in old(running) ==> keys == old(keys))
    {
      steps := [];
      ReachesItself(locks.world, id);
      if name !in running {
        StartedFacts(name, o, id, closed, locks.next, running, blocked, keys, locks.world);
        StartingSettles(name, o, id, closed, locks.next, running, blocked, keys, locks.world);
        steps := StartContext(name, o);
      }
    }

    method StartAll(want: seq<string>, o: Outside) returns (ghost steps: seq<Step>)
      requires Valid()
      modifies this`running, this`blocked, this`keys, locks
      ensures Valid() && Reaches(old(locks.world), steps, locks.world, id)
      ensures forall c :: c in running ==> c in old(running) || c in want
      ensures forall c :: c in blocked ==> c in old(blocked) || c in want
      ensures hasClients && !closed ==> forall c :: c in want ==> Settled(c, running, blocked, o, locks.holder)
      ensures hasClients ==> forall c :: c in want && c !in old(running) ==> KeyKnown(c, keys, o)
      ensures StartedProperly(old(running), running, o)
    {
      steps := [];
      ReachesItself(locks.world, id);
      for i := 0 to |want|
        invariant Valid() && Reaches(old(locks.world), steps, locks.world, id)
        invariant forall c :: c in running ==> c in old(running) || c in want
        invariant forall c :: c in blocked ==> c in old(blocked) || c in want
        invariant StartedProperly(old(running), running, o)
        invariant hasClients && !closed ==> AllSettled(want, i, running, blocked, o, locks.holder)
        invariant hasClients ==>
                    AllKnown(want, i, old(running), keys, o) && StartedKnown(old(running), running, keys, o)
      {
        ghost var before, w, more := running, locks.world, [];
        ghost var was, held, known := blocked, locks.holder, keys;
        more := StartUnlessRunning(want[i], o);
        if hasClients && !closed {
          OneMoreSettled(want, i, before, running, was, blocked, o, held, locks.holder);
        }
        if hasClients {
          OneMoreKnown(want, i, old(running), known, keys, o);
        }
        StartedFurther(old(running), before, running, o);
        ReachesFurther(old(locks.world), steps, w, more, locks.world, id);
        steps := steps + more;
      }
    }

    /** Afterwards this process has no recorder, and so no lock. */
    method StopAll() returns (ghost steps: seq<Step>)
      requires Valid()
      modifies this`running, locks
      ensures Valid() && Reaches(old(locks.world), steps, locks.world, id)
      ensures running == map[] && OwnedBy(locks.world, id) == {} && (closed ==> Quiet(locks.world, id))
      ensures forall c :: c in old(running) ==> old(running)[c].key !in locks.holder
    {
      var stop;
      stop, steps := TakeUnwanted({});
      ghost var w, more := locks.world, [];
      more := HaltAll(stop);
      ReachesFurther(old(locks.world), steps, w, more, locks.world, id);
      steps := steps + more;
      assert running == map[];
      NothingLeft(locks.world, id);
      DroppedKeysAreFree(old(locks.world), locks.world, old(running), running, id);
    }

    /** Deletes the whole history, one table after the other, while no recorder of this process runs; the tables
        after one that cannot be cleared stay. The next reconcile starts the recorders again. */
    method Clear(coverage: CoverageStore.Store, database: EventStore.EventDatabase, eventsOk: bool, coverageOk: bool,
                 statesOk: bool)
      returns (ok: bool, ghost steps: seq<Step>)
      requires Valid()
      modifies this`running, locks, coverage, database
      ensures Valid() && Reaches(old(locks.world), steps, locks.world, id)
      ensures running == map[] && OwnedBy(locks.world, id) == {} && (closed ==> Quiet(locks.world, id))
      ensures ok == (eventsOk && coverageOk && statesOk)
      ensures database.Contents() == EventStore.Database(if eventsOk then map[] else old(database.events),
                                                         if ok then map[] else old(database.watch))
      ensures coverage.Contents() == if eventsOk && coverageOk then old(coverage.Contents()).(rows := [])
                                     else old(coverage.Contents())
    {
      steps := StopAll();
      ok := false;
      database.ClearEvents(eventsOk);
      if !eventsOk {
        return;
      }
      coverage.Clear(coverageOk);
      if !coverageOk {
        return;
      }
      database.ClearStates(statesOk);
      ok := statesOk;
    }

    /** Fresh clients: everything stops, and the next reconcile starts it again. */
    method Restart() returns (ghost steps: seq<Step>)
      requires Valid()
      modifies this`running, this`blocked, this`keys, locks
      ensures Valid() && Reaches(old(locks.world), steps, locks.world, id)
      ensures running == map[] && blocked == map[] && keys == map[] && OwnedBy(locks.world, id) == {}
    {
      steps := StopAll();
      blocked, keys := map[], map[];
    }

    /** Closing twice does nothing more. Closing leaves this process quiet, and so for good. */
    method Close() returns (ghost steps: seq<Step>)
      requires Valid()
      modifies this`closed, this`running, locks
      ensures Valid() && Reaches(old(locks.world), steps, locks.world, id)
      ensures closed
      ensures !old(closed) ==> running == map[] && OwnedBy(locks.world, id) == {} && Quiet(locks.world, id)
      ensures old(closed) ==> running == old(running) && locks.world == old(locks.world)
    {
      steps := [];
      ReachesItself(locks.world, id);
      if closed {
        return;
      }
      ghost var w, more := locks.world, [];
      closed := true;
      CloseMatches(running, w, id);
      locks.Do(Step.Close(id));
      steps := [Step.Close(id)];
      w := locks.world;
      more := StopAll();
      ReachesFurther(old(locks.world), steps, w, more, locks.world, id);
      steps := steps + more;
    }
  }
}
