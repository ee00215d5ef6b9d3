/** What syncing pods does to the log-follow scheduler, told from its streams and its waiters only: for the pod, for all
    others, and for a list of pods (internal/kube/log_streamer.go:296-380). */
module FollowSync {
  import opened LogFollow

  // ----- streams and waiters -----

  predicate Follows(s: Follow, t: Target) {
    Key(t) in s.active && s.active[Key(t)].target == t
  }

  predicate OfPod(t: Target, pod: Pod) {
    t.ns == pod.ns && t.pod == pod.name
  }

  predicate ListedIn(t: Target, pod: Pod) {
    OfPod(t, pod) && t.container in pod.containers
  }

  /** Of the waiters and those that joined them, the first m have been displaced from a full queue while every slot was
      taken. */
  predicate Queued(s: Follow, r: Follow, joined: seq<Target>, m: nat, maxRequests: nat) {
    m <= |s.pending + joined| && r.pending == (s.pending + joined)[m..] &&
    (m > 0 ==> |r.pending| == QueueLimit(maxRequests) && |r.active| == maxRequests)
  }

  /** Every stream goes on as it was. */
  predicate GoesOn(s: Follow, r: Follow) {
    forall k :: k in s.active ==> k in r.active && r.active[k] == s.active[k]
  }

  /** Every stream that is new follows a container of the list, and so does every new waiter. */
  predicate NewAreListed(s: Follow, r: Follow, joined: seq<Target>, pod: Pod) {
    (forall k :: k in r.active && k !in s.active ==>
       !r.active[k].cancelled && Key(r.active[k].target) == k && ListedIn(r.active[k].target, pod)) &&
    (forall t :: t in joined ==> ListedIn(t, pod) && Key(t) !in s.active)
  }

  /** t is followed or waits, or is among the first m, which have been displaced. */
  predicate Handled(s: Follow, r: Follow, joined: seq<Target>, m: nat, t: Target)
    requires m <= |s.pending + joined|
  {
    Follows(r, t) || t in r.pending || t in (s.pending + joined)[..m]
  }

  lemma SameKey(t: Target, u: Target)
    requires NamesOk(t) && NamesOk(u) && Key(t) == Key(u)
    ensures t == u
  {
    PodOfTarget(t);
    PodOfTarget(u);
    assert Key(t) == PodPrefix(t.ns, t.pod) + t.container && Key(u) == PodPrefix(t.ns, t.pod) + u.container;
    assert Key(t)[|PodPrefix(t.ns, t.pod)|..] == t.container;
  }

  // ----- ensuring containers -----

  lemma KnownIsHandled(s: Follow, t: Target, maxRequests: nat)
    requires Sound(s, maxRequests) && AllNamesOk(s) && NamesOk(t)
    ensures Known(s, Key(t)) <==> Follows(s, t) || t in s.pending
  {
    if Key(t) in s.active {
      SameKey(s.active[Key(t)].target, t);
    } else if Key(t) in s.pendingSet {
      var u :| u in s.pending && Key(u) == Key(t);
      SameKey(u, t);
    }
  }

  /** What ensuring t did to e, in which it may have joined the waiters. */
  ghost predicate OneEnsured(e: Follow, r: Follow, t: Target, before: seq<Target>, joined: seq<Target>) {
    before <= joined && |joined| <= |before| + 1 &&
    (joined != before ==> joined == before + [t] && !Known(e, Key(t))) &&
    GoesOn(e, r) && (forall x :: x in r.active && x !in e.active ==> x == Key(t) && r.active[x] == Stream(t, false)) &&
    (Complete(t) && !Known(e, Key(t)) ==> Follows(r, t) || joined != before)
  }

  /** One container more. */
  lemma EnsureOne(s: Follow, e: Follow, t: Target, joined: seq<Target>, m: nat, maxRequests: nat)
    returns (more: seq<Target>, n: nat)
    requires Sound(e, maxRequests) && GoesOn(s, e) && Queued(s, e, joined, m, maxRequests)
    ensures var r := Ensured(e, t, maxRequests);
            GoesOn(s, r) && Queued(s, r, more, n, maxRequests) && m <= n && OneEnsured(e, r, t, joined, more)
  {
    more, n := joined, m;
    if Complete(t) && !Known(e, Key(t)) && e.tokens == maxRequests {
      EnqueuedSound(e, t, maxRequests);
      TrimmedIsSuffix(e.(pending := e.pending + [t], pendingSet := e.pendingSet + {Key(t)}), QueueLimit(maxRequests));
      more := joined + [t];
      if |e.pending| == QueueLimit(maxRequests) {
        n := m + 1;
      }
      QueuedOneMore(s, e, Ensured(e, t, maxRequests), t, joined, m, n, maxRequests);
    }
  }

  lemma QueuedOneMore(s: Follow, e: Follow, r: Follow, t: Target, joined: seq<Target>, m: nat, n: nat, maxRequests: nat)
    requires Queued(s, e, joined, m, maxRequests) && |e.active| == maxRequests && r.active == e.active
    requires if |e.pending| < QueueLimit(maxRequests) then r.pending == e.pending + [t] && n == m
             else |e.pending| == QueueLimit(maxRequests) && r.pending == e.pending[1..] + [t] && n == m + 1
    ensures Queued(s, r, joined + [t], n, maxRequests)
  {
    assert s.pending + (joined + [t]) == s.pending + joined + [t];
  }

  lemma HandledFurther(s: Follow, e: Follow, r: Follow, joined: seq<Target>, m: nat, more: seq<Target>, n: nat,
                       t: Target, maxRequests: nat)
    requires Queued(s, e, joined, m, maxRequests) && Queued(s, r, more, n, maxRequests)
    requires m <= n && joined <= more && Handled(s, e, joined, m, t)
    requires forall k :: k in e.active ==> k in r.active && r.active[k] == e.active[k]
    ensures Handled(s, r, more, n, t)
  {
    var q, p := s.pending + joined, s.pending + more;
    assert q <= p;
    if t in q[..m] {
      assert q[..m] <= p[..n];
    } else if t in e.pending {
      var i :| 0 <= i < |q[m..]| && q[m..][i] == t;
      assert p[m + i] == t;
      if m + i < n {
        assert p[..n][m + i] == t;
      } else {
        assert p[n..][m + i - n] == t;
      }
    }
  }

  /** What ensuring a pod's containers does. */
  ghost predicate PodEnsured(s: Follow, r: Follow, pod: Pod, joined: seq<Target>, m: nat, maxRequests: nat) {
    Sound(r, maxRequests) && AllNamesOk(r) && GoesOn(s, r) && Queued(s, r, joined, m, maxRequests) &&
    NewAreListed(s, r, joined, pod) && |joined| <= |pod.containers| &&
    forall c :: c in pod.containers && Complete(Target(pod.ns, pod.name, c)) ==>
                  Handled(s, r, joined, m, Target(pod.ns, pod.name, c))
  }

  lemma {:induction false} EnsuredPod(s: Follow, pod: Pod, maxRequests: nat) returns (joined: seq<Target>, m: nat)
    requires Sound(s, maxRequests) && AllNamesOk(s) && SlashFree(pod.ns) && SlashFree(pod.name)
    ensures PodEnsured(s, EnsuredAll(s, pod.ns, pod.name, pod.containers, maxRequests), pod, joined, m, maxRequests)
    decreases |pod.containers|
  {
    if pod.containers == [] {
      joined, m := [], 0;
      assert s.pending + joined == s.pending;
    } else {
      var init, c := pod.(containers := pod.containers[..|pod.containers| - 1]), pod.containers[|pod.containers| - 1];
      assert pod.containers == init.containers + [c];
      var before, k := EnsuredPod(s, init, maxRequests);
      var e := EnsuredAll(s, pod.ns, pod.name, init.containers, maxRequests);
      joined, m := EnsureOne(s, e, Target(pod.ns, pod.name, c), before, k, maxRequests);
      EnsuredOneMore(s, e, pod, init, c, before, k, joined, m, maxRequests,
                     Ensured(e, Target(pod.ns, pod.name, c), maxRequests));
    }
  }

  lemma EnsuredOneMore(s: Follow, e: Follow, pod: Pod, init: Pod, c: string, before: seq<Target>, k: nat,
                       joined: seq<Target>, m: nat, maxRequests: nat, r: Follow)
    requires PodEnsured(s, e, init, before, k, maxRequests) && SlashFree(pod.ns) && SlashFree(pod.name)
    requires init.ns == pod.ns && init.name == pod.name && pod.containers == init.containers + [c]
    requires GoesOn(s, r) && Queued(s, r, joined, m, maxRequests) && k <= m
    requires r == Ensured(e, Target(pod.ns, pod.name, c), maxRequests)
    requires OneEnsured(e, r, Target(pod.ns, pod.name, c), before, joined)
    ensures PodEnsured(s, r, pod, joined, m, maxRequests)
  {
    var t := Target(pod.ns, pod.name, c);
    EnsuredSound(e, t, maxRequests);
    EnsuredNamesOk(e, t, maxRequests);
    forall d | d in pod.containers && Complete(Target(pod.ns, pod.name, d))
      ensures Handled(s, r, joined, m, Target(pod.ns, pod.name, d))
    {
      OneMoreHandled(s, e, pod, init, c, before, k, joined, m, maxRequests, r, d);
    }
    NewOneMore(s, e, r, before, joined, init, pod, c);
  }

  lemma NewOneMore(s: Follow, e: Follow, r: Follow, before: seq<Target>, joined: seq<Target>, init: Pod, pod: Pod,
                   c: string)
    requires NewAreListed(s, e, before, init) && GoesOn(s, e)
    requires init.ns == pod.ns && init.name == pod.name && pod.containers == init.containers + [c]
    requires OneEnsured(e, r, Target(pod.ns, pod.name, c), before, joined)
    ensures NewAreListed(s, r, joined, pod)
  {
    forall k | k in r.active && k !in s.active
      ensures !r.active[k].cancelled && Key(r.active[k].target) == k && ListedIn(r.active[k].target, pod)
    {
      if k in e.active {
        assert ListedIn(e.active[k].target, init);
      }
    }
    forall t | t in joined ensures ListedIn(t, pod) && Key(t) !in s.active {
      if t in before {
        assert ListedIn(t, init);
      }
    }
  }

  lemma OneMoreHandled(s: Follow, e: Follow, pod: Pod, init: Pod, c: string, before: seq<Target>, k: nat,
                       joined: seq<Target>, m: nat, maxRequests: nat, r: Follow, d: string)
    requires PodEnsured(s, e, init, before, k, maxRequests) && SlashFree(pod.ns) && SlashFree(pod.name)
    requires init.ns == pod.ns && init.name == pod.name && pod.containers == init.containers + [c]
    requires Queued(s, r, joined, m, maxRequests) && k <= m
    requires OneEnsured(e, r, Target(pod.ns, pod.name, c), before, joined)
    requires d in pod.containers && Complete(Target(pod.ns, pod.name, d))
    ensures Handled(s, r, joined, m, Target(pod.ns, pod.name, d))
  {
    var t, u := Target(pod.ns, pod.name, c), Target(pod.ns, pod.name, d);
    if d in init.containers {
      HandledFurther(s, e, r, before, k, joined, m, u, maxRequests);
    } else if Known(e, Key(t)) {
      KnownIsHandled(e, t, maxRequests);
      HandledFurther(s, e, r, before, k, joined, m, u, maxRequests);
    } else if joined != before {
      LastIsHandled(s, r, joined, m, t, maxRequests);
    }
  }

  lemma LastIsHandled(s: Follow, r: Follow, joined: seq<Target>, m: nat, t: Target, maxRequests: nat)
    requires Queued(s, r, joined, m, maxRequests) && joined != [] && joined[|joined| - 1] == t
    ensures Handled(s, r, joined, m, t)
  {
    var p := s.pending + joined;
    assert p[|p| - 1] == t;
    if m < |p| {
      assert p[m..][|p| - 1 - m] == t;
    } else {
      assert p[..m][|p| - 1] == t;
    }
  }

  // ----- syncing one pod -----

  /** A live pod that may be followed, after it has been synced: its streams for containers that are not listed are
      told to end, and nothing waits for those; each listed container is followed or waits, as it did or from now on,
      unless a full queue has displaced it. Everything else goes on, but for the oldest waiters of a full queue. */
  ghost predicate PodSynced(s: Follow, r: Follow, pod: Pod, joined: seq<Target>, m: nat, maxRequests: nat) {
    (forall k :: k in s.active ==>
       k in r.active && var t := s.active[k].target;
                        r.active[k] == if OfPod(t, pod) && t.container !in pod.containers then Stream(t, true)
                                       else s.active[k]) &&
    NewAreListed(s, r, joined, pod) && |joined| <= |pod.containers| && m <= |s.pending + joined| &&
    (m > 0 ==> |s.pending + joined| == m + QueueLimit(maxRequests) && |r.active| == maxRequests) &&
    (forall t ::
       t in r.pending <==> t in (s.pending + joined)[m..] && (OfPod(t, pod) ==> t.container in pod.containers)) &&
    (forall c :: c in pod.containers && Complete(Target(pod.ns, pod.name, c)) ==>
                   Handled(s, r, joined, m, Target(pod.ns, pod.name, c)))
  }

  lemma LivePodSynced(s: Follow, pod: Pod, maxRequests: nat) returns (joined: seq<Target>, m: nat)
    requires Sound(s, maxRequests) && AllNamesOk(s) && SlashFree(pod.ns) && SlashFree(pod.name) && !pod.ending
    ensures PodSynced(s, Synced(s, pod, true, maxRequests), pod, joined, m, maxRequests)
  {
    joined, m := EnsuredPod(s, pod, maxRequests);
    var e := EnsuredAll(s, pod.ns, pod.name, pod.containers, maxRequests);
    RetainedIsSynced(s, e, Synced(s, pod, true, maxRequests), pod, joined, m, maxRequests);
  }

  /** What keeping only the listed containers of a pod does. */
  ghost predicate PodRetained(e: Follow, r: Follow, pod: Pod) {
    r.active.Keys == e.active.Keys &&
    (forall k :: k in e.active ==>
       var t := e.active[k].target;
       r.active[k] == if OfPod(t, pod) && t.container !in pod.containers then Stream(t, true) else e.active[k]) &&
    (forall t :: t in r.pending <==> t in e.pending && (OfPod(t, pod) ==> t.container in pod.containers))
  }

  lemma RetainedIsSynced(s: Follow, e: Follow, r: Follow, pod: Pod, joined: seq<Target>, m: nat, maxRequests: nat)
    requires PodEnsured(s, e, pod, joined, m, maxRequests) && SlashFree(pod.ns) && SlashFree(pod.name)
    requires r == KeptOnly(e, pod.ns, pod.name, set c | c in pod.containers)
    ensures PodSynced(s, r, pod, joined, m, maxRequests)
  {
    var want := set c | c in pod.containers;
    RetainedPod(e, r, pod, want, maxRequests);
    RetainedAfterEnsured(s, e, r, pod, joined, m, maxRequests);
  }

  lemma RetainedPod(e: Follow, r: Follow, pod: Pod, want: set<string>, maxRequests: nat)
    requires Sound(e, maxRequests) && AllNamesOk(e) && SlashFree(pod.ns) && SlashFree(pod.name)
    requires (forall c :: c in want <==> c in pod.containers) && r == KeptOnly(e, pod.ns, pod.name, want)
    ensures PodRetained(e, r, pod)
  {
    StopAffectsOnlyThePod(e, pod.ns, pod.name, want, maxRequests);
  }

  lemma RetainedAfterEnsured(s: Follow, e: Follow, r: Follow, pod: Pod, joined: seq<Target>, m: nat, maxRequests: nat)
    requires GoesOn(s, e) && Queued(s, e, joined, m, maxRequests) && NewAreListed(s, e, joined, pod)
    requires |joined| <= |pod.containers| && PodRetained(e, r, pod)
    requires forall c :: c in pod.containers && Complete(Target(pod.ns, pod.name, c)) ==>
                           Handled(s, e, joined, m, Target(pod.ns, pod.name, c))
    ensures PodSynced(s, r, pod, joined, m, maxRequests)
  {
    assert |r.active| == |r.active.Keys| == |e.active.Keys| == |e.active|;
    forall c | c in pod.containers && Complete(Target(pod.ns, pod.name, c))
      ensures Handled(s, r, joined, m, Target(pod.ns, pod.name, c))
    {
      assert Handled(s, e, joined, m, Target(pod.ns, pod.name, c));
    }
  }

  /** A pod that is ending: all its streams are told to end, and nothing waits for it; all else goes on. */
  lemma EndingPodSynced(s: Follow, pod: Pod, maxRequests: nat)
    requires Sound(s, maxRequests) && AllNamesOk(s) && SlashFree(pod.ns) && SlashFree(pod.name) && pod.ending
    ensures var r := Synced(s, pod, true, maxRequests);
            r.active.Keys == s.active.Keys &&
            (forall k :: k in s.active ==>
               r.active[k] == if OfPod(s.active[k].target, pod) then Stream(s.active[k].target, true)
                              else s.active[k]) &&
            (forall t :: t in r.pending <==> t in s.pending && !OfPod(t, pod))
  {
    StopAffectsOnlyThePod(s, pod.ns, pod.name, {}, maxRequests);
  }

  /** A pod that may not be followed changes nothing. */
  lemma ForbiddenPodSynced(s: Follow, pod: Pod, maxRequests: nat)
    ensures Synced(s, pod, false, maxRequests) == s
  {
  }

  /** Waiters keep their order when some are removed. */
  lemma {:induction false} RemainingInOrder(a: seq<Target>, b: seq<Target>, gone: set<Target>)
    ensures Remaining(a + b, gone) == Remaining(a, gone) + Remaining(b, gone)
  {
    if b == [] {
      assert a + b == a;
    } else {
      assert (a + b)[..|a + b| - 1] == a + b[..|b| - 1];
      RemainingInOrder(a, b[..|b| - 1], gone);
    }
  }

  // ----- what a sync leaves of other pods -----

  ghost predicate SyncLeaves(s: Follow, r: Follow, pod: Pod, maxRequests: nat) {
    Sound(r, maxRequests) && AllNamesOk(r) && |s.active| <= |r.active| &&
    |r.pending| <= |s.pending| + |pod.containers| &&
    (forall k :: k in s.active ==> k in r.active && r.active[k].target == s.active[k].target &&
                                   (!OfPod(s.active[k].target, pod) ==> r.active[k] == s.active[k])) &&
    (forall k :: k in r.active && k !in s.active ==> OfPod(r.active[k].target, pod)) &&
    (forall t :: t in r.pending ==> OfPod(t, pod) || t in s.pending) &&
    (forall t :: t in s.pending && !OfPod(t, pod) && t !in r.pending ==> Overflows(s, r, |pod.containers|, maxRequests))
  }

  /** The queue could not take so many more, and every slot is taken. */
  predicate Overflows(s: Follow, r: Follow, more: nat, maxRequests: nat) {
    |r.active| == maxRequests && |s.pending| + more > QueueLimit(maxRequests)
  }

  lemma SyncSound(s: Follow, pod: Pod, allowed: bool, maxRequests: nat)
    requires Sound(s, maxRequests) && AllNamesOk(s) && SlashFree(pod.ns) && SlashFree(pod.name)
    ensures Sound(Synced(s, pod, allowed, maxRequests), maxRequests)
    ensures AllNamesOk(Synced(s, pod, allowed, maxRequests))
  {
    SyncedNamesOk(s, pod, allowed, maxRequests);
    if allowed && pod.ending {
      KeptOnlySound(s, pod.ns, pod.name, {}, maxRequests);
    } else if allowed {
      var joined, m := EnsuredPod(s, pod, maxRequests);
      var want := set c | c in pod.containers;
      KeptOnlySound(EnsuredAll(s, pod.ns, pod.name, pod.containers, maxRequests), pod.ns, pod.name, want, maxRequests);
    }
  }

  lemma MoreStreams(a: map<string, Stream>, b: map<string, Stream>)
    requires forall k :: k in a ==> k in b
    ensures |a| <= |b|
  {
    FewerKeys(a.Keys, b.Keys);
    assert |a| == |a.Keys| && |b| == |b.Keys|;
  }

  lemma {:induction false} FewerKeys(a: set<string>, b: set<string>)
    requires a <= b
    ensures |a| <= |b|
  {
    if a != {} {
      var k :| k in a;
      FewerKeys(a - {k}, b - {k});
    }
  }

  lemma EndingLeavesOthers(s: Follow, pod: Pod, maxRequests: nat)
    requires Sound(s, maxRequests) && AllNamesOk(s) && SlashFree(pod.ns) && SlashFree(pod.name) && pod.ending
    ensures SyncLeaves(s, Synced(s, pod, true, maxRequests), pod, maxRequests)
  {
    SyncSound(s, pod, true, maxRequests);
    EndingPodSynced(s, pod, maxRequests);
    RemainingFacts(s.pending, Gone(s.pending, pod.ns, pod.name, {}));
    MoreStreams(s.active, Synced(s, pod, true, maxRequests).active);
  }

  lemma SyncedPending(s: Follow, pod: Pod, maxRequests: nat)
    requires Sound(s, maxRequests) && AllNamesOk(s) && SlashFree(pod.ns) && SlashFree(pod.name) && !pod.ending
    ensures |Synced(s, pod, true, maxRequests).pending| <= |s.pending| + |pod.containers|
  {
    var e := EnsuredAll(s, pod.ns, pod.name, pod.containers, maxRequests);
    EnsuredPending(s, pod, maxRequests);
    var want := set c | c in pod.containers;
    RemainingFacts(e.pending, Gone(e.pending, pod.ns, pod.name, want));
  }

  /** A sync leaves the streams of other pods as they were, and their waiters too, unless the queue is full. */
  lemma SyncLeavesOthers(s: Follow, pod: Pod, allowed: bool, maxRequests: nat)
    requires Sound(s, maxRequests) && AllNamesOk(s) && SlashFree(pod.ns) && SlashFree(pod.name)
    ensures SyncLeaves(s, Synced(s, pod, allowed, maxRequests), pod, maxRequests)
  {
    if allowed && pod.ending {
      EndingLeavesOthers(s, pod, maxRequests);
    } else if allowed {
      var r := Synced(s, pod, true, maxRequests);
      SyncSound(s, pod, true, maxRequests);
      var joined, m := LivePodSynced(s, pod, maxRequests);
      SyncedPending(s, pod, maxRequests);
      LiveSyncLeaves(s, r, pod, joined, m, maxRequests);
    }
  }

  lemma LiveSyncLeaves(s: Follow, r: Follow, pod: Pod, joined: seq<Target>, m: nat, maxRequests: nat)
    requires PodSynced(s, r, pod, joined, m, maxRequests) && Sound(r, maxRequests) && AllNamesOk(r)
    requires |r.pending| <= |s.pending| + |pod.containers|
    ensures SyncLeaves(s, r, pod, maxRequests)
  {
    LiveLeavesOthers(s, r, pod, joined, m, maxRequests);
    MoreStreams(s.active, r.active);
  }

  lemma EnsuredPending(s: Follow, pod: Pod, maxRequests: nat)
    requires Sound(s, maxRequests) && AllNamesOk(s) && SlashFree(pod.ns) && SlashFree(pod.name)
    ensures var e := EnsuredAll(s, pod.ns, pod.name, pod.containers, maxRequests);
            DistinctKeys(e.pending) && |e.pending| <= |s.pending| + |pod.containers|
  {
    var joined, m := EnsuredPod(s, pod, maxRequests);
  }

  lemma SuffixHas(q: seq<Target>, m: nat, i: nat)
    requires m <= i < |q|
    ensures q[i] in q[m..]
  {
    assert q[m..][i - m] == q[i];
  }

  lemma LiveLeavesOthers(s: Follow, r: Follow, pod: Pod, joined: seq<Target>, m: nat, maxRequests: nat)
    requires PodSynced(s, r, pod, joined, m, maxRequests)
    ensures forall t :: t in r.pending ==> OfPod(t, pod) || t in s.pending
    ensures forall t :: t in s.pending && !OfPod(t, pod) && t !in r.pending ==>
                          Overflows(s, r, |pod.containers|, maxRequests)
  {
    var q := s.pending + joined;
    forall t | t in r.pending ensures OfPod(t, pod) || t in s.pending {
      var i :| 0 <= i < |q[m..]| && q[m..][i] == t;
      assert t == q[m + i];
      if m + i >= |s.pending| {
        assert t in joined;
      }
    }
    forall t | t in s.pending && !OfPod(t, pod) && t !in r.pending
      ensures Overflows(s, r, |pod.containers|, maxRequests)
    {
      var i :| 0 <= i < |s.pending| && s.pending[i] == t;
      if m <= i {
        SuffixHas(q, m, i);
      }
    }
  }

  // ----- syncing a list of pods -----

  predicate DistinctPods(pods: seq<Pod>) {
    forall i, j :: 0 <= i < j < |pods| ==> pods[i].ns != pods[j].ns || pods[i].name != pods[j].name
  }

  function ContainerCount(pods: seq<Pod>): nat {
    if pods == [] then 0 else ContainerCount(pods[..|pods| - 1]) + |pods[|pods| - 1].containers|
  }

  /** The scheduler is in line with a pod: nothing but its listed containers is followed or waits, unless it is on its
      way out, and nothing at all if the pod is ending; and each listed container goes on as it was, or is followed or
      waits from now on, unless the queue could not take so many and every slot is taken. */
  ghost predicate InLine(s: Follow, r: Follow, pod: Pod, more: nat, maxRequests: nat) {
    NothingElse(r, pod) &&
    (!pod.ending ==>
       forall c :: c in pod.containers && Complete(Target(pod.ns, pod.name, c)) ==>
                     Served(s, r, Target(pod.ns, pod.name, c), more, maxRequests))
  }

  /** A stream goes on exactly as it was; without one, t is followed from now on, or waits, or there is no room for
      it. */
  predicate Served(s: Follow, r: Follow, t: Target, more: nat, maxRequests: nat) {
    if Key(t) in s.active then Key(t) in r.active && r.active[Key(t)] == s.active[Key(t)]
    else (Key(t) in r.active && r.active[Key(t)] == Stream(t, false)) || t in r.pending ||
         Overflows(s, r, more, maxRequests)
  }

  /** Of this pod, nothing has changed but that waiters may have been displaced. */
  ghost predicate Untouched(s: Follow, e: Follow, pod: Pod) {
    (forall k :: k in s.active && OfPod(s.active[k].target, pod) ==> k in e.active && e.active[k] == s.active[k]) &&
    (forall k :: k in e.active && OfPod(e.active[k].target, pod) ==> k in s.active) &&
    (forall t :: t in e.pending && OfPod(t, pod) ==> t in s.pending)
  }

  lemma UntouchedFurther(s: Follow, e: Follow, r: Follow, pod: Pod, q: Pod, maxRequests: nat)
    requires Untouched(s, e, pod) && SyncLeaves(e, r, q, maxRequests) && (pod.ns != q.ns || pod.name != q.name)
    requires forall k :: k in s.active ==> k in e.active && e.active[k].target == s.active[k].target
    ensures Untouched(s, r, pod)
    ensures forall k :: k in s.active ==> k in r.active && r.active[k].target == s.active[k].target
  {
  }

  /** Nothing else of the pod is followed or waits. */
  ghost predicate NothingElse(r: Follow, pod: Pod) {
    (forall k :: k in r.active && OfPod(r.active[k].target, pod) && !r.active[k].cancelled ==>
       !pod.ending && r.active[k].target.container in pod.containers) &&
    (forall t :: t in r.pending && OfPod(t, pod) ==> !pod.ending && t.container in pod.containers)
  }

  lemma NothingElseFurther(e: Follow, r: Follow, pod: Pod, q: Pod, maxRequests: nat)
    requires NothingElse(e, pod) && SyncLeaves(e, r, q, maxRequests) && (pod.ns != q.ns || pod.name != q.name)
    ensures NothingElse(r, pod)
  {
  }

  /** A later sync of another pod keeps a pod in line. */
  lemma InLineFurther(s: Follow, e: Follow, r: Follow, pod: Pod, q: Pod, more: nat, maxRequests: nat)
    requires InLine(s, e, pod, more, maxRequests) && SyncLeaves(e, r, q, maxRequests)
    requires (pod.ns != q.ns || pod.name != q.name) && Sound(e, maxRequests) && AllNamesOk(e)
    requires SlashFree(pod.ns) && SlashFree(pod.name) && |e.pending| <= |s.pending| + more
    requires forall k :: k in s.active ==> k in e.active && Key(s.active[k].target) == k && NamesOk(s.active[k].target)
    ensures InLine(s, r, pod, more + |q.containers|, maxRequests)
  {
    NothingElseFurther(e, r, pod, q, maxRequests);
    forall c | c in pod.containers && Complete(Target(pod.ns, pod.name, c)) && !pod.ending
      ensures Served(s, r, Target(pod.ns, pod.name, c), more + |q.containers|, maxRequests)
    {
      ServedFurther(s, e, r, Target(pod.ns, pod.name, c), q, more, maxRequests);
    }
  }

  lemma ServedFurther(s: Follow, e: Follow, r: Follow, t: Target, q: Pod, more: nat, maxRequests: nat)
    requires Served(s, e, t, more, maxRequests) && SyncLeaves(e, r, q, maxRequests) && !OfPod(t, q) && NamesOk(t)
    requires Sound(e, maxRequests) && |e.pending| <= |s.pending| + more
    requires forall k :: k in s.active ==> k in e.active && Key(s.active[k].target) == k && NamesOk(s.active[k].target)
    ensures Served(s, r, t, more + |q.containers|, maxRequests)
  {
    if Key(t) in s.active {
      SameKey(s.active[Key(t)].target, t);
    }
  }

  /** The pod that is synced is in line. */
  lemma InLineNow(s: Follow, e: Follow, pod: Pod, more: nat, maxRequests: nat)
    requires Sound(e, maxRequests) && AllNamesOk(e) && SlashFree(pod.ns) && SlashFree(pod.name)
    requires Untouched(s, e, pod) && |e.pending| <= |s.pending| + more
    requires forall k :: k in s.active ==> Key(s.active[k].target) == k && NamesOk(s.active[k].target)
    ensures InLine(s, Synced(e, pod, true, maxRequests), pod, more + |pod.containers|, maxRequests)
  {
    var r := Synced(e, pod, true, maxRequests);
    if pod.ending {
      EndingPodSynced(e, pod, maxRequests);
    } else {
      var joined, m := LivePodSynced(e, pod, maxRequests);
      LiveInLine(s, e, r, pod, joined, m, more, maxRequests);
    }
  }

  lemma LiveInLine(s: Follow, e: Follow, r: Follow, pod: Pod, joined: seq<Target>, m: nat, more: nat, maxRequests: nat)
    requires PodSynced(e, r, pod, joined, m, maxRequests) && !pod.ending && SlashFree(pod.ns) && SlashFree(pod.name)
    requires Untouched(s, e, pod) && |e.pending| <= |s.pending| + more
    requires forall k :: k in s.active ==> Key(s.active[k].target) == k && NamesOk(s.active[k].target)
    ensures InLine(s, r, pod, more + |pod.containers|, maxRequests)
  {
    forall c | c in pod.containers && Complete(Target(pod.ns, pod.name, c))
      ensures Served(s, r, Target(pod.ns, pod.name, c), more + |pod.containers|, maxRequests)
    {
      var t := Target(pod.ns, pod.name, c);
      assert Handled(e, r, joined, m, t);
      if Key(t) in s.active {
        SameKey(s.active[Key(t)].target, t);
      }
    }
  }

  /** The scheduler after some more pods have been synced. */
  ghost predicate Advanced(s: Follow, r: Follow, more: nat, maxRequests: nat) {
    Sound(r, maxRequests) && AllNamesOk(r) && |r.pending| <= |s.pending| + more &&
    (forall k :: k in s.active ==> k in r.active && r.active[k].target == s.active[k].target)
  }

  lemma CountNext(pods: seq<Pod>, n: nat)
    requires n < |pods|
    ensures ContainerCount(pods[..n + 1]) == ContainerCount(pods[..n]) + |pods[n].containers|
  {
    assert pods[..n + 1][..n] == pods[..n] && pods[..n + 1][n] == pods[n];
  }

  lemma SyncedNext(s: Follow, pods: seq<Pod>, podAllowed: string -> bool, n: nat, maxRequests: nat)
    requires n < |pods|
    ensures SyncedAll(s, pods[..n + 1], podAllowed, maxRequests) ==
            Synced(SyncedAll(s, pods[..n], podAllowed, maxRequests), pods[n], podAllowed(pods[n].name), maxRequests)
  {
    assert pods[..n + 1][..n] == pods[..n] && pods[..n + 1][n] == pods[n];
  }

  lemma {:induction false} PodsAdvance(s: Follow, pods: seq<Pod>, podAllowed: string -> bool, n: nat, maxRequests: nat)
    requires n <= |pods| && PodNamesOk(pods) && Sound(s, maxRequests) && AllNamesOk(s)
    ensures Advanced(s, SyncedAll(s, pods[..n], podAllowed, maxRequests), ContainerCount(pods[..n]), maxRequests)
  {
    if n > 0 {
      PodsAdvance(s, pods, podAllowed, n - 1, maxRequests);
      CountNext(pods, n - 1);
      SyncedNext(s, pods, podAllowed, n - 1, maxRequests);
      SyncLeavesOthers(SyncedAll(s, pods[..n - 1], podAllowed, maxRequests), pods[n - 1], podAllowed(pods[n - 1].name),
                       maxRequests);
    }
  }

  lemma {:induction false} PodWaitsItsTurn(s: Follow, pods: seq<Pod>, podAllowed: string -> bool, i: nat, n: nat,
                                           maxRequests: nat)
    requires n <= i < |pods| && PodNamesOk(pods) && DistinctPods(pods) && Sound(s, maxRequests) && AllNamesOk(s)
    ensures Untouched(s, SyncedAll(s, pods[..n], podAllowed, maxRequests), pods[i])
  {
    if n > 0 {
      var e := SyncedAll(s, pods[..n - 1], podAllowed, maxRequests);
      var r := SyncedAll(s, pods[..n], podAllowed, maxRequests);
      PodWaitsItsTurn(s, pods, podAllowed, i, n - 1, maxRequests);
      NextLeaves(s, pods, podAllowed, n - 1, maxRequests, e, r);
      UntouchedFurther(s, e, r, pods[i], pods[n - 1], maxRequests);
    }
  }

  /** Every allowed pod among the first n is in line once they have been synced. */
  lemma {:induction false} PodsInLine(s: Follow, pods: seq<Pod>, podAllowed: string -> bool, i: nat, n: nat,
                                      maxRequests: nat)
    requires i < n <= |pods| && PodNamesOk(pods) && DistinctPods(pods) && Sound(s, maxRequests) && AllNamesOk(s)
    requires podAllowed(pods[i].name)
    ensures InLine(s, SyncedAll(s, pods[..n], podAllowed, maxRequests), pods[i], ContainerCount(pods[..n]), maxRequests)
  {
    if i == n - 1 {
      PodJustInLine(s, pods, podAllowed, i, maxRequests);
    } else {
      var e := SyncedAll(s, pods[..n - 1], podAllowed, maxRequests);
      var r := SyncedAll(s, pods[..n], podAllowed, maxRequests);
      PodsInLine(s, pods, podAllowed, i, n - 1, maxRequests);
      NextLeaves(s, pods, podAllowed, n - 1, maxRequests, e, r);
      PodStaysInLine(s, e, r, pods, i, n - 1, maxRequests);
    }
  }

  lemma PodJustInLine(s: Follow, pods: seq<Pod>, podAllowed: string -> bool, i: nat, maxRequests: nat)
    requires i < |pods| && PodNamesOk(pods) && DistinctPods(pods) && Sound(s, maxRequests) && AllNamesOk(s)
    requires podAllowed(pods[i].name)
    ensures InLine(s, SyncedAll(s, pods[..i + 1], podAllowed, maxRequests), pods[i], ContainerCount(pods[..i + 1]),
                   maxRequests)
  {
    PodsAdvance(s, pods, podAllowed, i, maxRequests);
    PodWaitsItsTurn(s, pods, podAllowed, i, i, maxRequests);
    CountNext(pods, i);
    SyncedNext(s, pods, podAllowed, i, maxRequests);
    InLineNow(s, SyncedAll(s, pods[..i], podAllowed, maxRequests), pods[i], ContainerCount(pods[..i]), maxRequests);
  }

  lemma PodStaysInLine(s: Follow, e: Follow, r: Follow, pods: seq<Pod>, i: nat, n: nat, maxRequests: nat)
    requires i < n < |pods| && PodNamesOk(pods) && DistinctPods(pods) && Sound(s, maxRequests) && AllNamesOk(s)
    requires SyncLeaves(e, r, pods[n], maxRequests) && Advanced(s, e, ContainerCount(pods[..n]), maxRequests)
    requires InLine(s, e, pods[i], ContainerCount(pods[..n]), maxRequests)
    ensures InLine(s, r, pods[i], ContainerCount(pods[..n + 1]), maxRequests)
  {
    CountNext(pods, n);
    InLineAdvanced(s, e, r, pods[i], pods[n], ContainerCount(pods[..n]), maxRequests);
  }

  lemma NextLeaves(s: Follow, pods: seq<Pod>, podAllowed: string -> bool, n: nat, maxRequests: nat, e: Follow,
                   r: Follow)
    requires n < |pods| && PodNamesOk(pods) && Sound(s, maxRequests) && AllNamesOk(s)
    requires e == SyncedAll(s, pods[..n], podAllowed, maxRequests)
    requires r == SyncedAll(s, pods[..n + 1], podAllowed, maxRequests)
    ensures SyncLeaves(e, r, pods[n], maxRequests) && Advanced(s, e, ContainerCount(pods[..n]), maxRequests)
  {
    PodsAdvance(s, pods, podAllowed, n, maxRequests);
    SyncedNext(s, pods, podAllowed, n, maxRequests);
    SyncLeavesOthers(e, pods[n], podAllowed(pods[n].name), maxRequests);
  }

  lemma InLineAdvanced(s: Follow, e: Follow, r: Follow, pod: Pod, q: Pod, more: nat, maxRequests: nat)
    requires Sound(s, maxRequests) && AllNamesOk(s) && Advanced(s, e, more, maxRequests)
    requires InLine(s, e, pod, more, maxRequests) && SyncLeaves(e, r, q, maxRequests)
    requires (pod.ns != q.ns || pod.name != q.name) && SlashFree(pod.ns) && SlashFree(pod.name)
    ensures InLine(s, r, pod, more + |q.containers|, maxRequests)
  {
    InLineFurther(s, e, r, pod, q, more, maxRequests);
  }

  // ----- reconciling with a list of pods -----

  /** Some allowed pod of the list that is not ending lists this container. */
  ghost predicate Wanted(pods: seq<Pod>, podAllowed: string -> bool, t: Target) {
    exists i :: 0 <= i < |pods| && podAllowed(pods[i].name) && !pods[i].ending && ListedIn(t, pods[i])
  }

  lemma LivePodIsListed(pods: seq<Pod>, podAllowed: string -> bool, t: Target) returns (i: nat)
    requires PodNamesOk(pods) && NamesOk(t) && Joined(PodOf(t)) in Live(pods, podAllowed)
    ensures i < |pods| && podAllowed(pods[i].name) && OfPod(t, pods[i])
  {
    var p :| p in pods && podAllowed(p.name) && p.ns + "/" + p.name == Joined(PodOf(t));
    i :| 0 <= i < |pods| && pods[i] == p;
    CutOfJoined(t.ns, t.pod);
    CutOfJoined(p.ns, p.name);
  }

  /** After a reconcile with a list of distinct pods: each allowed pod of the list is in line, and nothing is followed
      uncancelled, or waits, but listed containers of allowed pods that are not ending. */
  lemma Reconciled(s: Follow, pods: seq<Pod>, podAllowed: string -> bool, maxRequests: nat)
    requires Sound(s, maxRequests) && AllNamesOk(s) && PodNamesOk(pods) && DistinctPods(pods)
    ensures var synced := SyncedAll(s, pods, podAllowed, maxRequests);
            var r := WithoutPods(synced, NotLive(synced, Live(pods, podAllowed)));
            (forall i :: 0 <= i < |pods| && podAllowed(pods[i].name) ==>
                           InLine(s, r, pods[i], ContainerCount(pods), maxRequests)) &&
            (forall k :: k in r.active && !r.active[k].cancelled ==> Wanted(pods, podAllowed, r.active[k].target)) &&
            (forall t :: t in r.pending ==> Wanted(pods, podAllowed, t))
  {
    var live, synced := Live(pods, podAllowed), SyncedAll(s, pods, podAllowed, maxRequests);
    var r := WithoutPods(synced, NotLive(synced, live));
    assert pods[..|pods|] == pods;
    PodsAdvance(s, pods, podAllowed, |pods|, maxRequests);
    OnlyLivePodsRemain(synced, live, maxRequests);
    forall i | 0 <= i < |pods| && podAllowed(pods[i].name)
      ensures InLine(s, r, pods[i], ContainerCount(pods), maxRequests)
    {
      PodsInLine(s, pods, podAllowed, i, |pods|, maxRequests);
      LivePodIsKept(synced, r, pods, podAllowed, i, maxRequests);
      InLineKept(s, synced, r, pods[i], ContainerCount(pods), maxRequests);
    }
    forall k | k in r.active && !r.active[k].cancelled ensures Wanted(pods, podAllowed, r.active[k].target) {
      var i := LivePodIsListed(pods, podAllowed, synced.active[k].target);
      assert InLine(s, r, pods[i], ContainerCount(pods), maxRequests);
    }
    forall t | t in r.pending ensures Wanted(pods, podAllowed, t) {
      var i := LivePodIsListed(pods, podAllowed, t);
      assert InLine(s, r, pods[i], ContainerCount(pods), maxRequests);
    }
  }

  /** The streams and waiters of the pod are the same in both. */
  ghost predicate PodKept(e: Follow, r: Follow, pod: Pod) {
    |r.active| == |e.active| &&
    (forall k :: k in e.active && OfPod(e.active[k].target, pod) ==> k in r.active && r.active[k] == e.active[k]) &&
    (forall k :: k in r.active && OfPod(r.active[k].target, pod) ==> k in e.active && r.active[k] == e.active[k]) &&
    (forall t :: OfPod(t, pod) ==> (t in r.pending <==> t in e.pending))
  }

  lemma LivePodIsKept(e: Follow, r: Follow, pods: seq<Pod>, podAllowed: string -> bool, i: nat, maxRequests: nat)
    requires i < |pods| && podAllowed(pods[i].name) && Sound(e, maxRequests)
    requires r == WithoutPods(e, NotLive(e, Live(pods, podAllowed)))
    ensures PodKept(e, r, pods[i])
  {
    OnlyLivePodsRemain(e, Live(pods, podAllowed), maxRequests);
    assert pods[i] in pods;
    KeptWhereLive(e, r, Live(pods, podAllowed), pods[i]);
  }

  lemma KeptWhereLive(e: Follow, r: Follow, live: set<string>, pod: Pod)
    requires pod.ns + "/" + pod.name in live && r.active.Keys == e.active.Keys
    requires forall k :: k in e.active ==>
               r.active[k] == if Joined(PodOf(e.active[k].target)) in live then e.active[k]
                              else Stream(e.active[k].target, true)
    requires forall t :: t in r.pending <==> t in e.pending && Joined(PodOf(t)) in live
    ensures PodKept(e, r, pod)
  {
    assert |r.active| == |r.active.Keys| == |e.active.Keys| == |e.active|;
    assert forall t :: OfPod(t, pod) ==> Joined(PodOf(t)) == pod.ns + "/" + pod.name;
  }

  lemma InLineKept(s: Follow, e: Follow, r: Follow, pod: Pod, more: nat, maxRequests: nat)
    requires InLine(s, e, pod, more, maxRequests) && PodKept(e, r, pod) && SlashFree(pod.ns) && SlashFree(pod.name)
    requires forall k :: k in s.active ==>
               k in e.active && e.active[k].target == s.active[k].target && Key(s.active[k].target) == k &&
               NamesOk(s.active[k].target)
    ensures InLine(s, r, pod, more, maxRequests)
  {
    forall c | c in pod.containers && Complete(Target(pod.ns, pod.name, c)) && !pod.ending
      ensures Served(s, r, Target(pod.ns, pod.name, c), more, maxRequests)
    {
      ServedKept(s, e, r, pod, Target(pod.ns, pod.name, c), more, maxRequests);
    }
  }

  lemma ServedKept(s: Follow, e: Follow, r: Follow, pod: Pod, t: Target, more: nat, maxRequests: nat)
    requires Served(s, e, t, more, maxRequests) && PodKept(e, r, pod) && OfPod(t, pod) && NamesOk(t)
    requires forall k :: k in s.active ==>
               k in e.active && e.active[k].target == s.active[k].target && Key(s.active[k].target) == k &&
               NamesOk(s.active[k].target)
    ensures Served(s, r, t, more, maxRequests)
  {
    if Key(t) in s.active {
      SameKey(s.active[Key(t)].target, t);
    }
  }
}
