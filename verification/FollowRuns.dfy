/** Log following over every interleaving of the steps that take the scheduler's mutex. */
module FollowRuns {
  import opened LogFollow

  /** syncPod and reconcileFromList are sequences of Ensure and Retain; stopPod is Retain with no container wanted. */
  datatype Step = Ensure(t: Target) | Done(t: Target) | Retain(ns: string, pod: string, want: set<string>)

  /** A stream ends only while it runs. */
  predicate Enabled(s: Follow, step: Step) {
    step.Done? ==> Key(step.t) in s.active
  }

  function Next(s: Follow, maxRequests: nat, step: Step): Follow {
    match step
    case Ensure(t) => Ensured(s, t, maxRequests)
    case Done(t) => StreamDone(s, t, maxRequests)
    case Retain(ns, pod, want) => KeptOnly(s, ns, pod, want)
  }

  function Run(s: Follow, maxRequests: nat, steps: seq<Step>): Follow
    decreases |steps|
  {
    if steps == [] then s else Run(Next(s, maxRequests, steps[0]), maxRequests, steps[1..])
  }

  predicate AllEnabled(s: Follow, maxRequests: nat, steps: seq<Step>)
    decreases |steps|
  {
    steps != [] ==> Enabled(s, steps[0]) && AllEnabled(Next(s, maxRequests, steps[0]), maxRequests, steps[1..])
  }

  lemma NextSound(s: Follow, maxRequests: nat, step: Step)
    requires Sound(s, maxRequests) && Enabled(s, step)
    ensures Sound(Next(s, maxRequests, step), maxRequests)
  {
    match step {
      case Ensure(t) => EnsuredSound(s, t, maxRequests);
      case Done(t) => DonePromotesOldest(s, t, maxRequests);
      case Retain(ns, pod, want) => KeptOnlySound(s, ns, pod, want, maxRequests);
    }
  }

  /** In every reachable state: one token is held per stream, at most maxRequests streams run, the queue is bounded and
      free of duplicates and of running streams, and nothing waits while a slot is free. */
  lemma {:induction false} RunSound(s: Follow, maxRequests: nat, steps: seq<Step>)
    requires Sound(s, maxRequests) && AllEnabled(s, maxRequests, steps)
    ensures Sound(Run(s, maxRequests, steps), maxRequests)
    decreases |steps|
  {
    if steps != [] {
      NextSound(s, maxRequests, steps[0]);
      RunSound(Next(s, maxRequests, steps[0]), maxRequests, steps[1..]);
    }
  }

  // ----- nothing is forgotten -----

  /** t is followed or waits to be. */
  predicate Tracked(s: Follow, t: Target) {
    t in s.pending || (Key(t) in s.active && s.active[Key(t)].target == t)
  }

  /** A target stops being tracked only because its stream ended, because its container was removed, or because it
      was the oldest waiter of a full queue. */
  lemma LeavesForAReason(s: Follow, maxRequests: nat, step: Step, t: Target)
    requires Sound(s, maxRequests) && Enabled(s, step)
    requires Tracked(s, t) && !Tracked(Next(s, maxRequests, step), t)
    ensures match step
            case Done(u) => Key(u) == Key(t) && Key(t) in s.active
            case Retain(ns, pod, want) => t in s.pending && t.ns == ns && t.pod == pod && t.container !in want
            case Ensure(u) => s.pending != [] && t == s.pending[0] && |s.pending| == QueueLimit(maxRequests) &&
                              |s.active| == maxRequests
  {
    match step {
      case Ensure(u) => LeavesOnEnsure(s, maxRequests, u, t);
      case Done(u) => LeavesOnDone(s, maxRequests, u, t);
      case Retain(ns, pod, want) =>
        RemainingFacts(s.pending, Gone(s.pending, ns, pod, want));
    }
  }

  lemma LeavesOnEnsure(s: Follow, maxRequests: nat, u: Target, t: Target)
    requires Sound(s, maxRequests) && Tracked(s, t) && !Tracked(Ensured(s, u, maxRequests), t)
    ensures s.pending != [] && t == s.pending[0] && |s.pending| == QueueLimit(maxRequests) && |s.active| == maxRequests
  {
    if Complete(u) && !Known(s, Key(u)) && s.tokens == maxRequests {
      LeavesOnEnqueue(s, maxRequests, u, t);
    }
  }

  lemma LeavesOnEnqueue(s: Follow, maxRequests: nat, u: Target, t: Target)
    requires Sound(s, maxRequests) && Tracked(s, t) && !Known(s, Key(u)) && s.tokens == maxRequests
    requires !Tracked(Enqueued(s, u, maxRequests), t)
    ensures s.pending != [] && t == s.pending[0] && |s.pending| == QueueLimit(maxRequests) && |s.active| == maxRequests
  {
    EnqueuedSound(s, u, maxRequests);
    var e := Enqueued(s, u, maxRequests);
    TrimmedIsSuffix(s.(pending := s.pending + [u], pendingSet := s.pendingSet + {Key(u)}), QueueLimit(maxRequests));
    assert e.active == s.active;
    assert |s.pending| == QueueLimit(maxRequests);
    assert s.pending == [s.pending[0]] + s.pending[1..];
  }

  lemma LeavesOnDone(s: Follow, maxRequests: nat, u: Target, t: Target)
    requires Sound(s, maxRequests) && Key(u) in s.active && Tracked(s, t) && !Tracked(StreamDone(s, u, maxRequests), t)
    ensures Key(u) == Key(t)
  {
    DonePromotesOldest(s, u, maxRequests);
    if s.pending != [] {
      assert s.pending == [s.pending[0]] + s.pending[1..];
      assert Key(s.pending[0]) in s.pendingSet;
    }
  }

  // ----- draining -----

  function Load(s: Follow): nat {
    |s.active| + |s.pending|
  }

  /** Each completion lowers the load by exactly one, and some stream can complete as long as there is any load. */
  lemma CompletionDrains(s: Follow, maxRequests: nat, t: Target)
    requires Sound(s, maxRequests)
    ensures Load(s) > 0 ==> exists k :: k in s.active && Enabled(s, Done(s.active[k].target))
    ensures Key(t) in s.active ==> Load(StreamDone(s, t, maxRequests)) == Load(s) - 1
  {
    if Load(s) > 0 {
      assert |s.active| > 0;
      var k :| k in s.active;
      assert Enabled(s, Done(s.active[k].target));
    }
    if Key(t) in s.active {
      DonePromotesOldest(s, t, maxRequests);
      var d := StreamDone(s, t, maxRequests);
      assert s.tokens == |s.active| && d.tokens == |d.active|;
    }
  }

  predicate OnlyDone(steps: seq<Step>) {
    forall i :: 0 <= i < |steps| ==> steps[i].Done?
  }

  /** After cancellation, when streams only end: n completions leave the load n lower, so that every run ends after
      exactly Load(s) completions, with nothing active and nothing waiting. */
  lemma {:induction false} DrainsCompletely(s: Follow, maxRequests: nat, steps: seq<Step>)
    requires Sound(s, maxRequests) && AllEnabled(s, maxRequests, steps) && OnlyDone(steps)
    ensures |steps| + Load(Run(s, maxRequests, steps)) == Load(s)
    ensures |steps| == Load(s) <==>
            Run(s, maxRequests, steps).active == map[] && Run(s, maxRequests, steps).pending == []
    decreases |steps|
  {
    if steps == [] {
      assert |s.active| == 0 <==> s.active == map[];
    } else {
      assert steps[0].Done?;
      CompletionDrains(s, maxRequests, steps[0].t);
      NextSound(s, maxRequests, steps[0]);
      DrainsCompletely(Next(s, maxRequests, steps[0]), maxRequests, steps[1..]);
    }
  }

  /** Waiters start in the order in which they came: with completions only, the queue is consumed from the front. */
  lemma {:induction false} PromotedInOrder(s: Follow, maxRequests: nat, steps: seq<Step>)
    requires Sound(s, maxRequests) && AllEnabled(s, maxRequests, steps) && OnlyDone(steps)
    ensures Run(s, maxRequests, steps).pending == if |steps| <= |s.pending| then s.pending[|steps|..] else []
    decreases |steps|
  {
    if steps != [] {
      assert steps[0].Done?;
      var next := Next(s, maxRequests, steps[0]);
      DoneConsumesFront(s, maxRequests, steps[0].t);
      PromotedInOrder(next, maxRequests, steps[1..]);
      OneFewer(s.pending, next.pending, |steps|);
    }
  }

  lemma DoneConsumesFront(s: Follow, maxRequests: nat, t: Target)
    requires Sound(s, maxRequests) && Key(t) in s.active
    ensures var d := StreamDone(s, t, maxRequests);
            Sound(d, maxRequests) && d.pending == if s.pending == [] then [] else s.pending[1..]
  {
    DonePromotesOldest(s, t, maxRequests);
  }

  lemma OneFewer(before: seq<Target>, after: seq<Target>, n: nat)
    requires 0 < n && after == if before == [] then [] else before[1..]
    ensures (if n - 1 <= |after| then after[n - 1..] else []) == if n <= |before| then before[n..] else []
  {
  }
}
