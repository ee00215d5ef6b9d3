/** The log-follow scheduler (internal/kube/log_streamer.go:57-380). */
module LogFollow {
  // At most maxRequests streams follow containers, and further containers wait in a bounded queue without
  // duplicates. Each operation under the mutex is one step.

  datatype Target = Target(ns: string, pod: string, container: string)

  function Key(t: Target): string {
    t.ns + "/" + t.pod + "/" + t.container
  }

  function PodPrefix(ns: string, pod: string): string {
    ns + "/" + pod + "/"
  }

  /** A running stream; cancelled means that it has been told to end. */
  datatype Stream = Stream(target: Target, cancelled: bool)

  datatype Follow = Follow(active: map<string, Stream>, pending: seq<Target>, pendingSet: set<string>, tokens: nat)

  const IDLE: Follow := Follow(map[], [], {}, 0)

  /** The queue holds four waiters per slot. */
  function QueueLimit(maxRequests: nat): nat {
    if maxRequests * 4 < 4 then 4 else maxRequests * 4
  }

  // ----- ensure -----

  predicate Complete(t: Target) {
    t.ns != "" && t.pod != "" && t.container != ""
  }

  predicate Known(s: Follow, key: string) {
    key in s.active || key in s.pendingSet
  }

  function Started(s: Follow, t: Target): Follow {
    s.(active := s.active[Key(t) := Stream(t, false)], tokens := s.tokens + 1)
  }

  function DropOldest(s: Follow): Follow
    requires s.pending != []
  {
    s.(pending := s.pending[1..], pendingSet := s.pendingSet - {Key(s.pending[0])})
  }

  function Trimmed(s: Follow, limit: nat): Follow
    decreases |s.pending|
  {
    if |s.pending| <= limit then s else Trimmed(DropOldest(s), limit)
  }

  function Enqueued(s: Follow, t: Target, maxRequests: nat): Follow {
    Trimmed(s.(pending := s.pending + [t], pendingSet := s.pendingSet + {Key(t)}), QueueLimit(maxRequests))
  }

  function Ensured(s: Follow, t: Target, maxRequests: nat): Follow {
    if !Complete(t) || Known(s, Key(t)) then s
    else if s.tokens < maxRequests then Started(s, t)
    else Enqueued(s, t, maxRequests)
  }

  // ----- a stream ends -----

  /** Promotes the oldest waiter that is not already active, if a slot is free; otherwise it goes back in front. */
  function Promoted(s: Follow, maxRequests: nat): Follow
    decreases |s.pending|
  {
    if s.pending == [] then s
    else
      var cand, rest := s.pending[0], DropOldest(s);
      if Key(cand) in rest.active then Promoted(rest, maxRequests)
      else if rest.tokens < maxRequests then Started(rest, cand)
      else rest.(pending := [cand] + rest.pending, pendingSet := rest.pendingSet + {Key(cand)})
  }

  function StreamDone(s: Follow, t: Target, maxRequests: nat): Follow {
    Promoted(s.(active := s.active - {Key(t)}, tokens := if s.tokens > 0 then s.tokens - 1 else 0), maxRequests)
  }

  // ----- pods and containers go away -----

  predicate HasPrefix(s: string, prefix: string) {
    |prefix| <= |s| && s[..|prefix|] == prefix
  }

  function Cancelled(active: map<string, Stream>, keys: set<string>): map<string, Stream> {
    map k | k in active :: if k in keys then active[k].(cancelled := true) else active[k]
  }

  function Remaining(pending: seq<Target>, gone: set<Target>): seq<Target> {
    if pending == [] then []
    else Remaining(pending[..|pending| - 1], gone) +
         if pending[|pending| - 1] in gone then [] else [pending[|pending| - 1]]
  }

  function KeysOf(ts: set<Target>): set<string> {
    set t | t in ts :: Key(t)
  }

  function Gone(pending: seq<Target>, ns: string, pod: string, want: set<string>): set<Target> {
    set t | t in pending && t.ns == ns && t.pod == pod && t.container !in want
  }

  /** Streams of the pod whose container is not wanted, by key prefix as the program finds them. */
  function Unwanted(active: map<string, Stream>, ns: string, pod: string, want: set<string>): set<string> {
    set k | k in active && HasPrefix(k, PodPrefix(ns, pod)) && k[|PodPrefix(ns, pod)|..] !in want
  }

  /** Keeps only the wanted containers of a pod: none when the pod is stopped. */
  function KeptOnly(s: Follow, ns: string, pod: string, want: set<string>): Follow {
    var gone := Gone(s.pending, ns, pod, want);
    s.(active := Cancelled(s.active, Unwanted(s.active, ns, pod, want)), pending := Remaining(s.pending, gone),
       pendingSet := s.pendingSet - KeysOf(gone))
  }

  // ----- the invariant -----

  predicate DistinctKeys(ts: seq<Target>) {
    forall i, j :: 0 <= i < j < |ts| ==> Key(ts[i]) != Key(ts[j])
  }

  predicate Sound(s: Follow, maxRequests: nat) {
    0 < maxRequests && s.tokens == |s.active| <= maxRequests &&
    DistinctKeys(s.pending) && s.pendingSet == (set t | t in s.pending :: Key(t)) &&
    s.active.Keys !! s.pendingSet && |s.pending| <= QueueLimit(maxRequests) &&
    (s.pending != [] ==> |s.active| == maxRequests) &&
    (forall k :: k in s.active ==> Key(s.active[k].target) == k)
  }

  lemma StartedSize(s: Follow, t: Target)
    requires Key(t) !in s.active
    ensures |Started(s, t).active| == |s.active| + 1
  {
    assert Started(s, t).active.Keys == s.active.Keys + {Key(t)};
  }

  lemma EnsuredSound(s: Follow, t: Target, maxRequests: nat)
    requires Sound(s, maxRequests)
    ensures Sound(Ensured(s, t, maxRequests), maxRequests)
  {
    if Complete(t) && !Known(s, Key(t)) {
      if s.tokens < maxRequests {
        StartedSize(s, t);
      } else {
        EnqueuedSound(s, t, maxRequests);
      }
    }
  }

  lemma EnqueuedSound(s: Follow, t: Target, maxRequests: nat)
    requires Sound(s, maxRequests) && !Known(s, Key(t)) && s.tokens == maxRequests
    ensures Sound(Enqueued(s, t, maxRequests), maxRequests)
    ensures Enqueued(s, t, maxRequests).pending ==
            if |s.pending| < QueueLimit(maxRequests) then s.pending + [t] else s.pending[1..] + [t]
  {
    var q := s.(pending := s.pending + [t], pendingSet := s.pendingSet + {Key(t)});
    if |s.pending| == QueueLimit(maxRequests) {
      assert q.pending[1..] == s.pending[1..] + [t];
      DropOldestSet(q);
      assert Trimmed(q, QueueLimit(maxRequests)) == DropOldest(q);
    }
  }

  lemma DropOldestSet(s: Follow)
    requires s.pending != [] && DistinctKeys(s.pending) && s.pendingSet == (set t | t in s.pending :: Key(t))
    ensures var d := DropOldest(s); DistinctKeys(d.pending) && d.pendingSet == set t | t in d.pending :: Key(t)
  {
    var rest := s.pending[1..];
    assert s.pending == [s.pending[0]] + rest;
    forall t | t in rest ensures Key(t) != Key(s.pending[0]) {
      var i :| 0 <= i < |rest| && rest[i] == t;
      assert rest[i] == s.pending[i + 1];
    }
  }

  /** A completion promotes exactly the oldest waiter, in the slot it frees. */
  lemma DonePromotesOldest(s: Follow, t: Target, maxRequests: nat)
    requires Sound(s, maxRequests) && Key(t) in s.active
    ensures var d := StreamDone(s, t, maxRequests);
            Sound(d, maxRequests) &&
            (if s.pending == [] then d == Follow(s.active - {Key(t)}, [], {}, s.tokens - 1)
             else d.pending == s.pending[1..] &&
                  d.active == (s.active - {Key(t)})[Key(s.pending[0]) := Stream(s.pending[0], false)])
  {
    var active := s.active - {Key(t)};
    assert active.Keys == s.active.Keys - {Key(t)};
    var freed := s.(active := active, tokens := s.tokens - 1);
    if s.pending != [] {
      var cand := s.pending[0];
      assert Key(cand) in s.pendingSet;
      DropOldestSet(freed);
      StartedSize(DropOldest(freed), cand);
      assert Promoted(freed, maxRequests) == Started(DropOldest(freed), cand);
      forall u | u in s.pending[1..] ensures Key(u) in s.pendingSet {
        assert u in s.pending;
      }
    }
  }

  lemma {:induction false} RemainingFacts(pending: seq<Target>, gone: set<Target>)
    requires DistinctKeys(pending)
    ensures DistinctKeys(Remaining(pending, gone)) && |Remaining(pending, gone)| <= |pending|
    ensures forall t :: t in Remaining(pending, gone) <==> t in pending && t !in gone
  {
    if pending != [] {
      var n := |pending| - 1;
      RemainingFacts(pending[..n], gone);
      assert pending == pending[..n] + [pending[n]];
      forall t | t in Remaining(pending[..n], gone) ensures Key(t) != Key(pending[n]) {
        var i :| 0 <= i < n && pending[..n][i] == t;
        assert pending[i] == t;
      }
    }
  }

  lemma KeptOnlySound(s: Follow, ns: string, pod: string, want: set<string>, maxRequests: nat)
    requires Sound(s, maxRequests)
    ensures Sound(KeptOnly(s, ns, pod, want), maxRequests)
  {
    var k := KeptOnly(s, ns, pod, want);
    var gone := Gone(s.pending, ns, pod, want);
    RemainingFacts(s.pending, gone);
    assert k.active.Keys == s.active.Keys;
    assert |k.active| == |k.active.Keys| == |s.active|;
    assert forall t :: t in s.pending && t !in gone ==> Key(t) !in KeysOf(gone);
    assert k.pendingSet == set t | t in k.pending :: Key(t);
  }

  // ----- keys and names -----

  predicate SlashFree(s: string) {
    '/' !in s
  }

  /** Splits at the first slash, if there is one. */
  function CutSlash(s: string): (string, string) {
    if s == "" then ("", "")
    else if s[0] == '/' then ("", s[1..])
    else var (a, b) := CutSlash(s[1..]); ([s[0]] + a, b)
  }

  lemma {:induction false} CutOfJoined(a: string, b: string)
    requires SlashFree(a)
    ensures CutSlash(a + "/" + b) == (a, b)
  {
    var s := a + "/" + b;
    if a == "" {
      assert s[1..] == b;
    } else {
      assert s[1..] == a[1..] + "/" + b;
      CutOfJoined(a[1..], b);
      assert [a[0]] + a[1..] == a;
    }
  }

  lemma {:induction false} CutOfSlashFree(a: string)
    requires SlashFree(a)
    ensures CutSlash(a) == (a, "")
  {
    if a != "" {
      CutOfSlashFree(a[1..]);
      assert [a[0]] + a[1..] == a;
    }
  }

  /** The first two of at most three parts of a key. */
  function PodOfKey(key: string): (string, string) {
    var (ns, rest) := CutSlash(key);
    (ns, CutSlash(rest).0)
  }

  predicate NamesOk(t: Target) {
    SlashFree(t.ns) && SlashFree(t.pod)
  }

  lemma PodOfTarget(t: Target)
    requires NamesOk(t)
    ensures PodOfKey(Key(t)) == (t.ns, t.pod)
  {
    assert Key(t) == t.ns + "/" + (t.pod + "/" + t.container);
    CutOfJoined(t.ns, t.pod + "/" + t.container);
    CutOfJoined(t.pod, t.container);
  }

  /** For names without a slash, the key prefix test finds exactly the streams of the pod, and what follows the
      prefix is the container. */
  lemma PrefixFindsPod(t: Target, ns: string, pod: string)
    requires NamesOk(t) && SlashFree(ns) && SlashFree(pod)
    ensures HasPrefix(Key(t), PodPrefix(ns, pod)) <==> t.ns == ns && t.pod == pod
    ensures t.ns == ns && t.pod == pod ==> Key(t)[|PodPrefix(ns, pod)|..] == t.container
  {
    PodOfTarget(t);
    if t.ns == ns && t.pod == pod {
      assert Key(t) == PodPrefix(ns, pod) + t.container;
    }
    if HasPrefix(Key(t), PodPrefix(ns, pod)) {
      var rest := Key(t)[|PodPrefix(ns, pod)|..];
      assert Key(t) == PodPrefix(ns, pod) + rest == Key(Target(ns, pod, rest));
      PodOfTarget(Target(ns, pod, rest));
    }
  }

  /** Stopping a pod cancels its streams and removes its waiters, and touches nothing else. */
  lemma StopAffectsOnlyThePod(s: Follow, ns: string, pod: string, want: set<string>, maxRequests: nat)
    requires Sound(s, maxRequests) && SlashFree(ns) && SlashFree(pod)
    requires forall k :: k in s.active ==> NamesOk(s.active[k].target)
    ensures var r := KeptOnly(s, ns, pod, want);
            r.active.Keys == s.active.Keys &&
            (forall k :: k in s.active ==>
               var t := s.active[k].target;
               r.active[k] == if t.ns == ns && t.pod == pod && t.container !in want
                              then Stream(t, true) else s.active[k]) &&
            (forall t :: t in r.pending <==> t in s.pending && !(t.ns == ns && t.pod == pod && t.container !in want))
  {
    var gone := Gone(s.pending, ns, pod, want);
    RemainingFacts(s.pending, gone);
    forall k | k in s.active
      ensures var t := s.active[k].target;
              k in Unwanted(s.active, ns, pod, want) <==> t.ns == ns && t.pod == pod && t.container !in want
    {
      PrefixFindsPod(s.active[k].target, ns, pod);
    }
  }

  // ----- the controller -----

  /** containers are the distinct non-empty names of the application containers. */
  datatype Pod = Pod(ns: string, name: string, ending: bool, containers: seq<string>)

  function EnsuredAll(s: Follow, ns: string, pod: string, containers: seq<string>, maxRequests: nat): Follow {
    if containers == [] then s
    else Ensured(EnsuredAll(s, ns, pod, containers[..|containers| - 1], maxRequests),
                 Target(ns, pod, containers[|containers| - 1]), maxRequests)
  }

  function Synced(s: Follow, pod: Pod, allowed: bool, maxRequests: nat): Follow {
    if !allowed then s
    else if pod.ending then KeptOnly(s, pod.ns, pod.name, {})
    else KeptOnly(EnsuredAll(s, pod.ns, pod.name, pod.containers, maxRequests), pod.ns, pod.name,
                  set c | c in pod.containers)
  }

  class Controller {
    const maxRequests: nat
    const podAllowed: string -> bool
    var active: map<string, Stream>
    var pending: seq<Target>
    var pendingSet: set<string>
    var tokens: nat
    var capWarned: bool

    /** maxRequests of zero stands for 50. */
    constructor (maxLogRequests: nat, podAllowed: string -> bool)
      ensures maxRequests == (if maxLogRequests > 0 then maxLogRequests else 50) && this.podAllowed == podAllowed
      ensures View() == IDLE && Sound(View(), maxRequests) && !capWarned
    {
      maxRequests := if maxLogRequests > 0 then maxLogRequests else 50;
      this.podAllowed := podAllowed;
      active, pending, pendingSet, tokens, capWarned := map[], [], {}, 0, false;
    }

    function View(): Follow
      reads this
    {
      Follow(active, pending, pendingSet, tokens)
    }

    /** warn: the first target that has to wait is announced. */
    method Ensure(t: Target) returns (warn: bool)
      requires Sound(View(), maxRequests)
      modifies this
      ensures View() == Ensured(old(View()), t, maxRequests) && Sound(View(), maxRequests)
      ensures warn == (!old(capWarned) && Complete(t) && !Known(old(View()), Key(t)) && old(tokens) == maxRequests)
    {
      EnsuredSound(View(), t, maxRequests);
      warn := false;
      if t.ns == "" || t.pod == "" || t.container == "" {
        return;
      }
      var key := Key(t);
      if key in active {
        return;
      }
      if key in pendingSet {
        return;
      }
      if tokens < maxRequests {
        tokens := tokens + 1;
        active := active[key := Stream(t, false)];
      } else {
        EnqueuePending(t);
        warn := !capWarned;
        capWarned := true;
      }
    }

    method EnqueuePending(t: Target)
      modifies this`pending, this`pendingSet
      ensures View() == if Key(t) in old(pendingSet) then old(View()) else Enqueued(old(View()), t, maxRequests)
    {
      if Key(t) in pendingSet {
        return;
      }
      pending := pending + [t];
      pendingSet := pendingSet + {Key(t)};
      var limit := maxRequests * 4;
      if limit < 4 {
        limit := 4;
      }
      while |pending| > limit
        invariant Trimmed(View(), limit) == Enqueued(old(View()), t, maxRequests)
      {
        var drop := pending[0];
        pending := pending[1..];
        pendingSet := pendingSet - {Key(drop)};
      }
    }

    /** The stream of t has ended. Its slot is taken; and since a slot is free afterwards, no waiter is put back. */
    method OnStreamDone(t: Target)
      requires Sound(View(), maxRequests) && Key(t) in active
      modifies this
      ensures View() == StreamDone(old(View()), t, maxRequests) && Sound(View(), maxRequests)
    {
      DonePromotesOldest(View(), t, maxRequests);
      assert |active| == |active.Keys|;
      var key := Key(t);
      active := active - {key};
      if tokens > 0 {
        tokens := tokens - 1;
      } else {
        assert false;
      }
      // The program loops here until a waiter starts or none is left; the first one always starts.
      if |pending| > 0 {
        var cand := pending[0];
        assert Key(cand) in old(pendingSet);
        pending := pending[1..];
        pendingSet := pendingSet - {Key(cand)};
        if Key(cand) in active {
          assert false;
        } else if tokens < maxRequests {
          tokens := tokens + 1;
          active := active[Key(cand) := Stream(cand, false)];
        } else {
          assert false;
        }
      }
    }

    method FindUnwanted(ns: string, pod: string, want: set<string>) returns (cancels: set<string>)
      ensures cancels == Unwanted(active, ns, pod, want)
    {
      var prefix := PodPrefix(ns, pod);
      cancels := {};
      var todo := active.Keys;
      while todo != {}
        invariant todo <= active.Keys
        invariant cancels == Unwanted(active, ns, pod, want) - todo
      {
        var key :| key in todo;
        if HasPrefix(key, prefix) && key[|prefix|..] !in want {
          cancels := cancels + {key};
        }
        todo := todo - {key};
      }
    }

    method SplitWaiters(ns: string, pod: string, want: set<string>)
      returns (filtered: seq<Target>, removed: set<string>)
      ensures filtered == Remaining(pending, Gone(pending, ns, pod, want))
      ensures removed == KeysOf(Gone(pending, ns, pod, want))
    {
      filtered, removed := [], {};
      ghost var gone := Gone(pending, ns, pod, want);
      for i := 0 to |pending|
        invariant filtered == Remaining(pending[..i], gone)
        invariant removed == KeysOf(Gone(pending[..i], ns, pod, want))
      {
        var t := pending[i];
        assert pending[..i + 1][..i] == pending[..i];
        assert pending[..i + 1] == pending[..i] + [t];
        assert t in gone <==> t.ns == ns && t.pod == pod && t.container !in want;
        if t.ns == ns && t.pod == pod && t.container !in want {
          removed := removed + {Key(t)};
          assert Gone(pending[..i + 1], ns, pod, want) == Gone(pending[..i], ns, pod, want) + {t};
        } else {
          filtered := filtered + [t];
          assert Gone(pending[..i + 1], ns, pod, want) == Gone(pending[..i], ns, pod, want);
        }
      }
      assert pending[..|pending|] == pending;
    }

    /** Cancels the pod's streams and drops its waiters, except for the wanted containers. */
    method Retain(ns: string, pod: string, want: set<string>)
      requires Sound(View(), maxRequests)
      modifies this`active, this`pending, this`pendingSet
      ensures View() == KeptOnly(old(View()), ns, pod, want) && Sound(View(), maxRequests)
    {
      KeptOnlySound(View(), ns, pod, want, maxRequests);
      var cancels := FindUnwanted(ns, pod, want);
      var filtered, removed := SplitWaiters(ns, pod, want);
      pending, pendingSet := filtered, pendingSet - removed;
      active := map k | k in active :: if k in cancels then active[k].(cancelled := true) else active[k];
    }

    method StopPod(ns: string, pod: string)
      requires Sound(View(), maxRequests)
      modifies this`active, this`pending, this`pendingSet
      ensures View() == KeptOnly(old(View()), ns, pod, {}) && Sound(View(), maxRequests)
    {
      Retain(ns, pod, {});
    }

    method EnsureContainers(ns: string, pod: string, containers: seq<string>) returns (want: set<string>)
      requires Sound(View(), maxRequests)
      modifies this
      ensures View() == EnsuredAll(old(View()), ns, pod, containers, maxRequests) && Sound(View(), maxRequests)
      ensures forall c :: c in want <==> c in containers
    {
      want := {};
      for i := 0 to |containers|
        invariant Sound(View(), maxRequests)
        invariant View() == EnsuredAll(old(View()), ns, pod, containers[..i], maxRequests)
        invariant forall c :: c in want <==> c in containers[..i]
      {
        assert containers[..i + 1][..i] == containers[..i];
        assert containers[..i + 1] == containers[..i] + [containers[i]];
        want := want + {containers[i]};
        var _ := Ensure(Target(ns, pod, containers[i]));
      }
      assert containers[..|containers|] == containers;
    }

    method SyncPod(pod: Pod)
      requires Sound(View(), maxRequests)
      modifies this
      ensures View() == Synced(old(View()), pod, podAllowed(pod.name), maxRequests) && Sound(View(), maxRequests)
    {
      if !podAllowed(pod.name) {
        return;
      }
      if pod.ending {
        StopPod(pod.ns, pod.name);
        return;
      }
      var want := EnsureContainers(pod.ns, pod.name, pod.containers);
      assert want == set c | c in pod.containers;
      Retain(pod.ns, pod.name, want);
    }

    /** Aligns the streams with a fresh pod list: the listed pods are synced, and then the pods that are not live are
        stopped. With names free of slashes these are exactly the other pods, and everything else is left as syncing
        left it. */
    method ReconcileFromList(pods: seq<Pod>) returns (ghost stale: seq<PodName>)
      requires Sound(View(), maxRequests)
      modifies this
      ensures Sound(View(), maxRequests)
      ensures View() == StoppedAll(SyncedAll(old(View()), pods, podAllowed, maxRequests), stale)
      ensures forall p :: p in stale ==> Joined(p) !in Live(pods, podAllowed)
      ensures AllNamesOk(old(View())) && PodNamesOk(pods) ==>
                var synced := SyncedAll(old(View()), pods, podAllowed, maxRequests);
                View() == WithoutPods(synced, NotLive(synced, Live(pods, podAllowed)))
    {
      SyncedAllNamesOk(View(), pods, podAllowed, maxRequests);
      var live := SyncAll(pods);
      var found := StalePods(live);
      stale := found;
      if AllNamesOk(View()) {
        StoppedAllIsWithout(View(), found, maxRequests);
      }
      StopAll(found);
    }

    method SyncAll(pods: seq<Pod>) returns (live: set<string>)
      requires Sound(View(), maxRequests)
      modifies this
      ensures View() == SyncedAll(old(View()), pods, podAllowed, maxRequests) && Sound(View(), maxRequests)
      ensures live == Live(pods, podAllowed)
    {
      live := {};
      for i := 0 to |pods|
        invariant View() == SyncedAll(old(View()), pods[..i], podAllowed, maxRequests) && Sound(View(), maxRequests)
        invariant live == Live(pods[..i], podAllowed)
      {
        assert pods[..i + 1][..i] == pods[..i];
        LiveOfMore(pods, i, podAllowed);
        if podAllowed(pods[i].name) {
          live := live + {pods[i].ns + "/" + pods[i].name};
        }
        SyncPod(pods[i]);
      }
      assert pods[..|pods|] == pods;
    }

    /** The pods of streams and waiters that are not live. */
    method StalePods(live: set<string>) returns (stale: seq<PodName>)
      requires forall k :: k in active ==> Key(active[k].target) == k
      ensures forall p :: p in stale ==> Joined(p) !in live
      ensures AllNamesOk(View()) ==> Elements(stale) == NotLive(View(), live) && AllSlashFree(stale)
    {
      stale := StaleStreams(live);
      ghost var streams := PodsOfStreams(active);
      assert streams + PodsOf([]) == streams;
      for i := 0 to |pending|
        invariant forall p :: p in stale ==> Joined(p) !in live
        invariant AllNamesOk(View()) ==> Listed(stale, streams + PodsOf(pending[..i]), live)
      {
        if AllNamesOk(View()) {
          PodsOfMore(pending, i);
          MarkedIsListed(stale, streams + PodsOf(pending[..i]), (pending[i].ns, pending[i].pod), live);
          assert streams + PodsOf(pending[..i + 1]) == streams + PodsOf(pending[..i]) + {PodOf(pending[i])};
        }
        stale := Mark((pending[i].ns, pending[i].pod), live, stale);
      }
      assert pending[..|pending|] == pending;
    }

    method StaleStreams(live: set<string>) returns (stale: seq<PodName>)
      requires forall k :: k in active ==> Key(active[k].target) == k
      ensures forall p :: p in stale ==> Joined(p) !in live
      ensures AllNamesOk(View()) ==> Listed(stale, PodsOfStreams(active), live)
    {
      stale := [];
      var todo := active.Keys;
      ghost var done: set<PodName> := {};
      while todo != {}
        invariant todo <= active.Keys && forall p :: p in stale ==> Joined(p) !in live
        invariant forall k :: k in active && k !in todo ==> PodOf(active[k].target) in done
        invariant done <= PodsOfStreams(active)
        invariant AllNamesOk(View()) ==> Listed(stale, done, live)
      {
        var key :| key in todo;
        if AllNamesOk(View()) {
          PodOfTarget(active[key].target);
          MarkedIsListed(stale, done, PodOf(active[key].target), live);
        }
        done := done + {PodOf(active[key].target)};
        stale := Mark(PodOfKey(key), live, stale);
        todo := todo - {key};
      }
      assert done == PodsOfStreams(active);
    }

    method StopAll(stale: seq<PodName>)
      requires Sound(View(), maxRequests)
      modifies this
      ensures View() == StoppedAll(old(View()), stale) && Sound(View(), maxRequests)
    {
      for i := 0 to |stale|
        invariant View() == StoppedAll(old(View()), stale[..i]) && Sound(View(), maxRequests)
      {
        assert stale[..i + 1][..i] == stale[..i];
        StopPod(stale[i].0, stale[i].1);
      }
      assert stale[..|stale|] == stale;
    }
  }

  function SyncedAll(s: Follow, pods: seq<Pod>, podAllowed: string -> bool, maxRequests: nat): Follow {
    if pods == [] then s
    else
      var pod := pods[|pods| - 1];
      Synced(SyncedAll(s, pods[..|pods| - 1], podAllowed, maxRequests), pod, podAllowed(pod.name), maxRequests)
  }

  function StoppedAll(s: Follow, stale: seq<PodName>): Follow {
    if stale == [] then s
    else
      var p := stale[|stale| - 1];
      KeptOnly(StoppedAll(s, stale[..|stale| - 1]), p.0, p.1, {})
  }

  lemma LiveOfMore(pods: seq<Pod>, i: nat, podAllowed: string -> bool)
    requires i < |pods|
    ensures Live(pods[..i + 1], podAllowed) ==
            Live(pods[..i], podAllowed) + if podAllowed(pods[i].name) then {pods[i].ns + "/" + pods[i].name} else {}
  {
    assert pods[..i + 1] == pods[..i] + [pods[i]];
  }

  lemma {:induction false} SyncedAllNamesOk(s: Follow, pods: seq<Pod>, podAllowed: string -> bool, maxRequests: nat)
    ensures AllNamesOk(s) && PodNamesOk(pods) ==> AllNamesOk(SyncedAll(s, pods, podAllowed, maxRequests))
  {
    if pods != [] && AllNamesOk(s) && PodNamesOk(pods) {
      var n := |pods| - 1;
      SyncedAllNamesOk(s, pods[..n], podAllowed, maxRequests);
      SyncedNamesOk(SyncedAll(s, pods[..n], podAllowed, maxRequests), pods[n], podAllowed(pods[n].name), maxRequests);
    }
  }

  lemma {:induction false} StoppedAllStops(s: Follow, stale: seq<PodName>, maxRequests: nat)
    requires Sound(s, maxRequests)
    ensures var r := StoppedAll(s, stale);
            Sound(r, maxRequests) && Fewer(s, r) && forall p :: p in stale ==> Stopped(r, p)
  {
    if stale != [] {
      var n := |stale| - 1;
      StoppedAllStops(s, stale[..n], maxRequests);
      StoppingOneMore(s, StoppedAll(s, stale[..n]), stale[..n], stale[n], maxRequests, stale, StoppedAll(s, stale));
    }
  }

  lemma StoppingOneMore(s: Follow, r: Follow, stopped: seq<PodName>, q: PodName, maxRequests: nat, stale: seq<PodName>,
                        t: Follow)
    requires Sound(r, maxRequests) && Fewer(s, r) && forall p :: p in stopped ==> Stopped(r, p)
    requires stale == stopped + [q] && t == KeptOnly(r, q.0, q.1, {})
    ensures Sound(t, maxRequests) && Fewer(s, t) && forall p :: p in stale ==> Stopped(t, p)
  {
    StopKeepsStopped(r, stopped, q, maxRequests);
    KeptOnlySound(r, q.0, q.1, {}, maxRequests);
  }

  /** The same streams, some of them cancelled, and no new waiters. */
  predicate Fewer(a: Follow, b: Follow) {
    b.active.Keys == a.active.Keys && (forall k :: k in a.active ==> b.active[k].target == a.active[k].target) &&
    (forall t :: t in b.pending ==> t in a.pending)
  }

  // ----- stopping exactly the pods that are gone -----

  /** Namespace and name. */
  type PodName = (string, string)

  function PodOf(t: Target): PodName {
    (t.ns, t.pod)
  }

  function PodsOf(ts: seq<Target>): set<PodName> {
    set t | t in ts :: PodOf(t)
  }

  function PodsOfStreams(active: map<string, Stream>): set<PodName> {
    set k | k in active :: PodOf(active[k].target)
  }

  function Elements(ps: seq<PodName>): set<PodName> {
    set p | p in ps
  }

  function NotLivePods(ps: set<PodName>, live: set<string>): set<PodName> {
    set p | p in ps && Joined(p) !in live
  }

  /** The pods of streams and waiters that are not live. */
  function NotLive(s: Follow, live: set<string>): set<PodName> {
    NotLivePods(PodsOfStreams(s.active) + PodsOf(s.pending), live)
  }

  function WaitersOf(pending: seq<Target>, gone: set<PodName>): set<Target> {
    set t | t in pending && PodOf(t) in gone
  }

  /** The streams of some pods cancelled and their waiters dropped, and all else as it was. */
  function WithoutPods(s: Follow, gone: set<PodName>): Follow {
    s.(active := map k | k in s.active :: if PodOf(s.active[k].target) in gone then Stream(s.active[k].target, true)
                                          else s.active[k],
       pending := Remaining(s.pending, WaitersOf(s.pending, gone)),
       pendingSet := s.pendingSet - KeysOf(WaitersOf(s.pending, gone)))
  }

  lemma {:induction false} RemainingTwice(pending: seq<Target>, a: set<Target>, b: set<Target>, c: set<Target>)
    requires forall t :: t in pending ==> (t in c <==> t in a || t in b)
    ensures Remaining(Remaining(pending, a), b) == Remaining(pending, c)
  {
    if pending != [] {
      var init, last := pending[..|pending| - 1], pending[|pending| - 1];
      assert pending == init + [last];
      RemainingTwice(init, a, b, c);
      RemainingOfSnoc(init, last, a);
      RemainingOfSnoc(Remaining(init, a), last, b);
      RemainingOfSnoc(init, last, c);
    }
  }

  lemma RemainingOfSnoc(pending: seq<Target>, t: Target, gone: set<Target>)
    ensures Remaining(pending + [t], gone) ==
            if t in gone then Remaining(pending, gone) else Remaining(pending, gone) + [t]
  {
    assert (pending + [t])[..|pending|] == pending;
  }

  lemma {:induction false} RemainingAll(pending: seq<Target>, gone: set<Target>)
    requires forall t :: t in pending ==> t !in gone
    ensures Remaining(pending, gone) == pending
  {
    if pending != [] {
      assert pending == pending[..|pending| - 1] + [pending[|pending| - 1]];
      RemainingAll(pending[..|pending| - 1], gone);
    }
  }

  lemma StoppingNoPod(s: Follow)
    ensures WithoutPods(s, {}) == s
  {
    RemainingAll(s.pending, WaitersOf(s.pending, {}));
    assert WaitersOf(s.pending, {}) == {} && KeysOf({}) == {};
    assert WithoutPods(s, {}).active == s.active;
  }

  lemma StoppingOneMorePod(s: Follow, gone: set<PodName>, p: PodName, maxRequests: nat)
    requires Sound(s, maxRequests) && AllNamesOk(s) && SlashFree(p.0) && SlashFree(p.1)
    ensures KeptOnly(WithoutPods(s, gone), p.0, p.1, {}) == WithoutPods(s, gone + {p})
  {
    WaitersOfOneMorePod(s.pending, gone, p);
    StreamsOfOneMorePod(s, gone, p, maxRequests);
  }

  lemma WaitersOfOneMorePod(pending: seq<Target>, gone: set<PodName>, p: PodName)
    requires DistinctKeys(pending)
    ensures var left := Remaining(pending, WaitersOf(pending, gone));
            var b := Gone(left, p.0, p.1, {});
            Remaining(left, b) == Remaining(pending, WaitersOf(pending, gone + {p})) &&
            KeysOf(WaitersOf(pending, gone + {p})) == KeysOf(WaitersOf(pending, gone)) + KeysOf(b)
  {
    var a, c := WaitersOf(pending, gone), WaitersOf(pending, gone + {p});
    RemainingFacts(pending, a);
    var b := Gone(Remaining(pending, a), p.0, p.1, {});
    assert c == a + b;
    RemainingTwice(pending, a, b, c);
  }

  lemma StreamsOfOneMorePod(s: Follow, gone: set<PodName>, p: PodName, maxRequests: nat)
    requires Sound(s, maxRequests) && AllNamesOk(s) && SlashFree(p.0) && SlashFree(p.1)
    ensures var w := WithoutPods(s, gone);
            Cancelled(w.active, Unwanted(w.active, p.0, p.1, {})) == WithoutPods(s, gone + {p}).active
  {
    var w := WithoutPods(s, gone);
    forall k | k in s.active ensures k in Unwanted(w.active, p.0, p.1, {}) <==> PodOf(s.active[k].target) == p {
      PrefixFindsPod(s.active[k].target, p.0, p.1);
    }
  }

  lemma {:induction false} StoppedAllIsWithout(s: Follow, stale: seq<PodName>, maxRequests: nat)
    requires Sound(s, maxRequests) && AllNamesOk(s) && AllSlashFree(stale)
    ensures StoppedAll(s, stale) == WithoutPods(s, Elements(stale))
  {
    if stale == [] {
      StoppingNoPod(s);
      assert Elements(stale) == {};
    } else {
      var init, p := stale[..|stale| - 1], stale[|stale| - 1];
      assert stale == init + [p];
      StoppedAllIsWithout(s, init, maxRequests);
      StoppingOneMorePod(s, Elements(init), p, maxRequests);
      assert Elements(stale) == Elements(init) + {p};
    }
  }

  /** Stopping the pods that are not live: streams and waiters of live pods are left exactly as they were, every other
      stream is cancelled, and no other waiter remains. */
  lemma OnlyLivePodsRemain(s: Follow, live: set<string>, maxRequests: nat)
    requires Sound(s, maxRequests)
    ensures var r := WithoutPods(s, NotLive(s, live));
            r.active.Keys == s.active.Keys &&
            (forall k :: k in s.active ==>
               var t := s.active[k].target;
               r.active[k] == if Joined(PodOf(t)) in live then s.active[k] else Stream(t, true)) &&
            (forall t :: t in r.pending <==> t in s.pending && Joined(PodOf(t)) in live)
  {
    RemainingFacts(s.pending, WaitersOf(s.pending, NotLive(s, live)));
    forall t | t in s.pending ensures t in WaitersOf(s.pending, NotLive(s, live)) <==> Joined(PodOf(t)) !in live {
      assert PodOf(t) in PodsOf(s.pending);
    }
    forall k | k in s.active
      ensures PodOf(s.active[k].target) in NotLive(s, live) <==> Joined(PodOf(s.active[k].target)) !in live
    {
      assert PodOf(s.active[k].target) in PodsOfStreams(s.active);
    }
  }

  lemma MarkedMore(ps: set<PodName>, p: PodName, live: set<string>)
    ensures NotLivePods(ps + {p}, live) == NotLivePods(ps, live) + if Joined(p) in live then {} else {p}
  {
  }

  ghost predicate PodNamesOk(pods: seq<Pod>) {
    forall i :: 0 <= i < |pods| ==> SlashFree(pods[i].ns) && SlashFree(pods[i].name)
  }

  lemma {:induction false} TrimmedIsSuffix(s: Follow, limit: nat)
    ensures Trimmed(s, limit).active == s.active
    ensures forall t :: t in Trimmed(s, limit).pending ==> t in s.pending
    decreases |s.pending|
  {
    if |s.pending| > limit {
      TrimmedIsSuffix(DropOldest(s), limit);
    }
  }

  lemma EnsuredNamesOk(s: Follow, t: Target, maxRequests: nat)
    requires AllNamesOk(s) && NamesOk(t)
    ensures AllNamesOk(Ensured(s, t, maxRequests))
  {
    TrimmedIsSuffix(s.(pending := s.pending + [t], pendingSet := s.pendingSet + {Key(t)}), QueueLimit(maxRequests));
  }

  lemma {:induction false} EnsuredAllNamesOk(s: Follow, ns: string, pod: string, containers: seq<string>,
                                             maxRequests: nat)
    requires AllNamesOk(s) && SlashFree(ns) && SlashFree(pod)
    ensures AllNamesOk(EnsuredAll(s, ns, pod, containers, maxRequests))
  {
    if containers != [] {
      var n := |containers| - 1;
      EnsuredAllNamesOk(s, ns, pod, containers[..n], maxRequests);
      EnsuredNamesOk(EnsuredAll(s, ns, pod, containers[..n], maxRequests), Target(ns, pod, containers[n]), maxRequests);
    }
  }

  lemma {:induction false} RemainingSubset(pending: seq<Target>, gone: set<Target>)
    ensures forall t :: t in Remaining(pending, gone) ==> t in pending
  {
    if pending != [] {
      RemainingSubset(pending[..|pending| - 1], gone);
    }
  }

  lemma SyncedNamesOk(s: Follow, pod: Pod, allowed: bool, maxRequests: nat)
    requires AllNamesOk(s) && SlashFree(pod.ns) && SlashFree(pod.name)
    ensures AllNamesOk(Synced(s, pod, allowed, maxRequests))
  {
    EnsuredAllNamesOk(s, pod.ns, pod.name, pod.containers, maxRequests);
    var e := EnsuredAll(s, pod.ns, pod.name, pod.containers, maxRequests);
    RemainingSubset(s.pending, Gone(s.pending, pod.ns, pod.name, {}));
    RemainingSubset(e.pending, Gone(e.pending, pod.ns, pod.name, set c | c in pod.containers));
  }

  function Joined(p: PodName): string {
    p.0 + "/" + p.1
  }

  /** The listed pods that are allowed. */
  function Live(pods: seq<Pod>, podAllowed: string -> bool): set<string> {
    set p | p in pods && podAllowed(p.name) :: p.ns + "/" + p.name
  }

  ghost predicate AllNamesOk(s: Follow) {
    (forall k :: k in s.active ==> NamesOk(s.active[k].target)) && (forall t :: t in s.pending ==> NamesOk(t))
  }

  /** The program compares and remembers joined names. */
  method Mark(p: PodName, live: set<string>, stale: seq<PodName>) returns (r: seq<PodName>)
    ensures r == Marked(stale, p, live)
  {
    if Joined(p) in live || Joined(p) in JoinedAll(stale) {
      return stale;
    }
    r := stale + [p];
  }

  function Marked(stale: seq<PodName>, p: PodName, live: set<string>): seq<PodName> {
    if Joined(p) in live || Joined(p) in JoinedAll(stale) then stale else stale + [p]
  }

  /** Exactly the pods of ps that are not live, and their names are free of slashes. */
  ghost predicate Listed(stale: seq<PodName>, ps: set<PodName>, live: set<string>) {
    Elements(stale) == NotLivePods(ps, live) && AllSlashFree(stale)
  }

  lemma MarkedIsListed(stale: seq<PodName>, ps: set<PodName>, p: PodName, live: set<string>)
    requires Listed(stale, ps, live) && SlashFree(p.0) && SlashFree(p.1)
    ensures Listed(Marked(stale, p, live), ps + {p}, live)
  {
    MarkedMore(ps, p, live);
    if Joined(p) !in live {
      if Joined(p) in JoinedAll(stale) {
        JoinedOnce(stale, p);
        assert p in Elements(stale);
      } else {
        assert Elements(stale + [p]) == Elements(stale) + {p};
      }
    }
  }

  lemma PodsOfMore(ts: seq<Target>, i: nat)
    requires i < |ts|
    ensures PodsOf(ts[..i + 1]) == PodsOf(ts[..i]) + {PodOf(ts[i])} && ts[i] in ts
  {
    assert ts[..i + 1] == ts[..i] + [ts[i]];
  }

  function JoinedAll(ps: seq<PodName>): set<string> {
    set p | p in ps :: Joined(p)
  }

  predicate AllSlashFree(ps: seq<PodName>) {
    forall p :: p in ps ==> SlashFree(p.0) && SlashFree(p.1)
  }

  lemma JoinedOnce(stale: seq<PodName>, p: PodName)
    requires Joined(p) in JoinedAll(stale) && AllSlashFree(stale + [p])
    ensures p in stale
  {
    var q :| q in stale && Joined(q) == Joined(p);
    assert p in stale + [p] && q in stale + [p];
    CutOfJoined(p.0, p.1);
    CutOfJoined(q.0, q.1);
  }

  /** No stream of the pod runs uncancelled, and nothing waits for it. */
  predicate Stopped(s: Follow, p: PodName) {
    (forall k :: k in s.active && HasPrefix(k, PodPrefix(p.0, p.1)) ==> s.active[k].cancelled) &&
    (forall t :: t in s.pending ==> !(t.ns == p.0 && t.pod == p.1))
  }

  lemma StopKeepsStopped(s: Follow, stopped: seq<PodName>, q: PodName, maxRequests: nat)
    requires Sound(s, maxRequests) && forall p :: p in stopped ==> Stopped(s, p)
    ensures var r := KeptOnly(s, q.0, q.1, {});
            Fewer(s, r) && Stopped(r, q) && forall p :: p in stopped ==> Stopped(r, p)
  {
    RemainingFacts(s.pending, Gone(s.pending, q.0, q.1, {}));
  }
}
