/** When an investigation scope is connected: exactly when everything that it selects by labels is. */
module ScopeConnection {
  // With a pod in scope that always holds; without one, it depends on what else refers to what is selected.

  import opened InvestigationScope
  import opened ObjectIndex
  import opened ScopeGrowth
  import opened ScopeAnchors
  import opened ScopeTies
  import opened OwnerTree

  // ----- the exact condition -----

  predicate AllNamed(objs: seq<Object>) {
    forall i :: 0 <= i < |objs| ==> objs[i].ref.name != ""
  }

  /** Everything that is selected by labels is connected to the root. */
  ghost predicate SelectedConnected(s: Scope, objs: seq<Object>, root: Key, labels: map<string, string>) {
    forall k :: k in KeysWhere(objs, Selecting(labels)) ==> Connected(s.relationships, root, k)
  }

  lemma ConnectedIffSelectedConnected(tree: Scope, ds: Dataset, root: Ref, labels: map<string, string>,
                                      related: (Ref, Ref) -> bool, s: Scope)
    requires ConnectedBut(tree, KeyOf(root), {}) && AllNamed(ds.objects)
    requires s == Surrounded(tree, ds, root, labels, related)
    requires MarkedInScope(s, KeysWhere(ds.objects, Selecting(labels)))
    ensures ConnectedBut(s, KeyOf(root), {}) <==> SelectedConnected(s, ds.objects, KeyOf(root), labels)
  {
    var anchors := Anchors(ds.objects, KeyOf(root), labels);
    SurroundedStaysAnchored(tree, ds, root, labels, related);
    if SelectedConnected(s, ds.objects, KeyOf(root), labels) {
      forall k | k in s.seen ensures Connected(s.relationships, KeyOf(root), k) {
        assert Tied(s.relationships, anchors, k);
        var p :| p in anchors && Connected(s.relationships, p, k);
        if p != KeyOf(root) {
          ConnectedThrough(s.relationships, KeyOf(root), p, k);
        }
      }
    }
    if ConnectedBut(s, KeyOf(root), {}) {
      forall k | k in KeysWhere(ds.objects, Selecting(labels)) ensures Connected(s.relationships, KeyOf(root), k) {
        assert InScope(s, k) && k.name != "";
      }
    }
  }

  /** What the scope covers includes everything that is selected. */
  lemma SelectedIsCovered(s: Scope, objs: seq<Object>, labels: map<string, string>, root: Key, tree: Scope)
    requires CoversSelectors(s, objs, labels) && CoversReferences(s, objs, labels, root, tree)
    ensures MarkedInScope(s, KeysWhere(objs, Selecting(labels)))
  {
    assert objs[..|objs|] == objs;
    forall k | k in KeysWhere(objs, Selecting(labels)) ensures InScope(s, k) {
      var i :| 0 <= i < |objs| && Selecting(labels)(objs[i]) && KeyOf(objs[i].ref) == k;
      if objs[i].ref.kind == "Service" {
        assert Serving(labels)(objs[i]) && k in KeysWhere(objs, Serving(labels));
      } else {
        assert Governing(labels, root, tree.seen)(objs[i]) && k in KeysWhere(objs, Governing(labels, root, tree.seen));
      }
    }
  }

  // ----- without pods: the condition on the data -----

  /** A set of keys around everything that the root owns which no tie of the data crosses. */
  ghost predicate Parted(ds: Dataset, root: Ref, labels: map<string, string>, related: (Ref, Ref) -> bool,
                         near: iset<Key>)
  {
    (forall k :: k in OwnKeys(ds, root) ==> k in near) &&
    TiesAligned(ds, root, labels, related, OwnKeys(ds, root), near)
  }

  /** Every such set takes k in. */
  ghost predicate NeverParted(ds: Dataset, root: Ref, labels: map<string, string>, related: (Ref, Ref) -> bool,
                              k: Key)
  {
    forall near: iset<Key> {:trigger Parted(ds, root, labels, related, near)} ::
      Parted(ds, root, labels, related, near) ==> k in near
  }

  ghost predicate SelectedNeverParted(ds: Dataset, root: Ref, labels: map<string, string>,
                                      related: (Ref, Ref) -> bool)
  {
    forall k :: k in KeysWhere(ds.objects, Selecting(labels)) ==> NeverParted(ds, root, labels, related, k)
  }

  lemma PartedIffUncrossed(ds: Dataset, root: Ref, labels: map<string, string>, related: (Ref, Ref) -> bool,
                           tree: Scope, near: iset<Key>)
    requires Acyclic(ds.objects) && NoPods(ds.objects, KeyOf(root))
    requires tree == BareTree(ds, root) && Closed(tree) && Grouped(tree)
    ensures Parted(ds, root, labels, related, near) <==>
            NoneCross(Surrounded(tree, ds, root, labels, related).relationships, near) && KeyOf(root) in near
  {
    BareTreeIsOwn(ds, root, near);
    UncrossedIffAligned(tree, ds, root, labels, related, OwnKeys(ds, root), near);
    assert KeyOf(root) in OwnKeys(ds, root);
  }

  /** In the scope of a workload without pods, the root is connected to a resource exactly when no set of keys parts
      them, whatever refers to what, and in whatever order. */
  lemma ConnectedIffNeverParted(ds: Dataset, root: Ref, labels: map<string, string>, related: (Ref, Ref) -> bool,
                                tree: Scope, k: Key)
    requires Acyclic(ds.objects) && NoPods(ds.objects, KeyOf(root))
    requires tree == BareTree(ds, root) && Closed(tree) && Grouped(tree)
    ensures Connected(Surrounded(tree, ds, root, labels, related).relationships, KeyOf(root), k) <==>
            NeverParted(ds, root, labels, related, k)
  {
    var rels := Surrounded(tree, ds, root, labels, related).relationships;
    ConnectedIffNeverLeftOut(rels, KeyOf(root), k);
    forall near: iset<Key>
      ensures Parted(ds, root, labels, related, near) <==> NoneCross(rels, near) && KeyOf(root) in near
    {
      PartedIffUncrossed(ds, root, labels, related, tree, near);
    }
  }

  /** The scope of a workload without pods is connected exactly when no set parts what it selects from the root. */
  lemma WithoutPodsConnectedIff(ds: Dataset, root: Ref, labels: map<string, string>, related: (Ref, Ref) -> bool,
                                tree: Scope, s: Scope)
    requires Acyclic(ds.objects) && NoPods(ds.objects, KeyOf(root)) && AllNamed(ds.objects)
    requires tree == BareTree(ds, root) && Closed(tree) && Grouped(tree) && ConnectedBut(tree, KeyOf(root), {})
    requires s == Surrounded(tree, ds, root, labels, related)
    requires MarkedInScope(s, KeysWhere(ds.objects, Selecting(labels)))
    ensures ConnectedBut(s, KeyOf(root), {}) <==> SelectedNeverParted(ds, root, labels, related)
  {
    ConnectedIffSelectedConnected(tree, ds, root, labels, related, s);
    forall k ensures Connected(s.relationships, KeyOf(root), k) <==> NeverParted(ds, root, labels, related, k) {
      ConnectedIffNeverParted(ds, root, labels, related, tree, k);
    }
  }

  // ----- a condition that does not depend on order -----

  predicate SameSide(a: Ref, b: Ref, apart: iset<Key>) {
    KeyOf(a) in apart <==> KeyOf(b) in apart
  }

  /** The object and what it refers to lie on the same side. */
  predicate RefersWithin(o: Object, root: Key, apart: iset<Key>) {
    (o.ref.kind in {"EndpointSlice", "Endpoints"} && o.owner.Some? ==> SameSide(o.ref, o.owner.value, apart)) &&
    (o.ref.kind == "Ingress" && o.target.Some? ==> SameSide(o.ref, o.target.value, apart)) &&
    (o.ref.kind == "HorizontalPodAutoscaler" && o.target.Some? && KeyOf(o.target.value) == root ==>
     KeyOf(o.ref) !in apart) &&
    (o.ref.kind == "RoleBinding" && o.target.Some? ==>
       SameSide(o.ref, o.target.value, apart) &&
       (o.role.Some? ==> SameSide(o.ref, o.role.value, apart) && o.role.value.kind != "Pod")) &&
    (o.ref.kind == "Event" && o.involved.Some? ==> SameSide(o.ref, o.involved.value, apart))
  }

  /** The root has no pods, owns nothing of the set, and nothing in the data refers into the set or out of it. */
  ghost predicate SetApart(ds: Dataset, root: Ref, related: (Ref, Ref) -> bool, apart: iset<Key>) {
    NoPods(ds.objects, KeyOf(root)) && (forall k :: k in OwnKeys(ds, root) ==> k !in apart) &&
    (forall o :: o in ds.objects ==> RefersWithin(o, KeyOf(root), apart)) &&
    (forall e, r :: e in ds.extensions && r in e.resources && related(root, r) ==> KeyOf(r) !in apart)
  }

  predicate Podless(keys: set<Key>) {
    forall k :: k in keys ==> k.kind != "Pod"
  }

  /** Whatever is in scope, as long as it is no pod, each object ties keys that are no pods and lie on one side. */
  ghost predicate TiesWithin(objs: seq<Object>, tie: Tie, near: iset<Key>) {
    forall known, o {:trigger tie(known, o)} :: o in objs && Podless(known) ==> TieWithin(tie(known, o), near)
  }

  predicate TieWithin(keys: set<Key>, near: iset<Key>) {
    Podless(keys) && Aligned(keys, near)
  }

  lemma {:induction false} PassWithin(known: set<Key>, objs: seq<Object>, done: seq<Object>, tie: Tie, near: iset<Key>)
    requires Podless(known) && TiesWithin(objs, tie, near) && done <= objs
    ensures PassAligned(known, done, tie, near) && Podless(KeysAfter(known, done, tie))
  {
    if done != [] {
      var init, o := done[..|done| - 1], done[|done| - 1];
      PassWithin(known, objs, init, tie, near);
      assert o == objs[|done| - 1];
      OneMoreWithin(KeysAfter(known, init, tie), tie(KeysAfter(known, init, tie), o), near);
    }
  }

  lemma OneMoreWithin(before: set<Key>, keys: set<Key>, near: iset<Key>)
    requires Podless(before) && TieWithin(keys, near)
    ensures Podless(before + Names(keys)) && Aligned(keys, near)
  {
  }

  ghost function Outside(apart: iset<Key>): iset<Key> {
    iset k | k !in apart
  }

  lemma PairWithin(a: Key, b: Key, apart: iset<Key>)
    requires a.kind != "Pod" && b.kind != "Pod" && (a in apart <==> b in apart)
    ensures TieWithin({a, b}, Outside(apart))
  {
  }

  lemma OneWithin(a: Key, known: set<Key>, near: iset<Key>)
    requires a.kind != "Pod" && Podless(known)
    ensures TieWithin({a} + PodKeys(known), near)
  {
    assert {a} + PodKeys(known) == {a};
  }

  lemma ServicesWithin(objs: seq<Object>, labels: map<string, string>, near: iset<Key>)
    ensures TiesWithin(objs, ServiceTie(labels), near)
  {
    forall known, o | o in objs && Podless(known) ensures TieWithin(ServiceTie(labels)(known, o), near) {
      if Serving(labels)(o) {
        OneWithin(KeyOf(o.ref), known, near);
      }
    }
  }

  lemma RouteWithin(known: set<Key>, o: Object, services: set<Key>, root: Key, apart: iset<Key>)
    requires Podless(known) && RefersWithin(o, root, apart) && forall k :: k in services ==> k.kind == "Service"
    ensures TieWithin(RouteTie(services)(known, o), Outside(apart))
  {
    if Routing(services)(o) && o.ref.kind == "Ingress" {
      PairWithin(KeyOf(o.ref), KeyOf(o.target.value), apart);
    } else if Routing(services)(o) {
      PairWithin(KeyOf(o.ref), KeyOf(o.owner.value), apart);
      assert {KeyOf(o.ref), KeyOf(o.owner.value)} + PodKeys(known) == {KeyOf(o.ref), KeyOf(o.owner.value)};
    }
  }

  lemma BindingWithin(o: Object, root: Key, apart: iset<Key>)
    requires RefersWithin(o, root, apart) && o.ref.kind == "RoleBinding" && o.target.Some? &&
             o.target.value.kind != "Pod"
    ensures TieWithin({KeyOf(o.ref), KeyOf(o.target.value)} + if o.role.Some? then {KeyOf(o.role.value)} else {},
                      Outside(apart))
  {
    PairWithin(KeyOf(o.ref), KeyOf(o.target.value), apart);
  }

  lemma PolicyWithin(known: set<Key>, o: Object, root: Key, labels: map<string, string>, apart: iset<Key>)
    requires Podless(known) && RefersWithin(o, root, apart) && root !in apart && root.kind != "Pod"
    ensures TieWithin(PolicyTie(root, labels)(known, o), Outside(apart))
  {
    if !Governing(labels, root, known)(o) {
      assert PolicyTie(root, labels)(known, o) == {};
    } else if o.ref.kind == "HorizontalPodAutoscaler" {
      PairWithin(KeyOf(o.ref), root, apart);
    } else if o.ref.kind == "RoleBinding" {
      BindingWithin(o, root, apart);
    } else {
      OneWithin(KeyOf(o.ref), known, Outside(apart));
    }
  }

  lemma EventWithin(known: set<Key>, o: Object, root: Key, apart: iset<Key>)
    requires Podless(known) && RefersWithin(o, root, apart)
    ensures TieWithin(EventTie()(known, o), Outside(apart))
  {
    if About(known)(o) {
      PairWithin(KeyOf(o.ref), KeyOf(o.involved.value), apart);
    }
  }

  /** A set that is apart parts the root from it. */
  lemma ApartIsParted(ds: Dataset, root: Ref, labels: map<string, string>, related: (Ref, Ref) -> bool,
                      apart: iset<Key>)
    requires SetApart(ds, root, related, apart)
    ensures Parted(ds, root, labels, related, Outside(apart))
  {
    var near, own := Outside(apart), Names(OwnKeys(ds, root));
    var objs, r, services := ds.objects, KeyOf(root), KeysWhere(ds.objects, Serving(labels));
    OwnKeysPodless(ds, root);
    ServicesWithin(objs, labels, near);
    PassWithin(own, objs, objs, ServiceTie(labels), near);
    forall known, o | o in objs && Podless(known) ensures TieWithin(RouteTie(services)(known, o), near) {
      RouteWithin(known, o, services, r, apart);
    }
    var served := KeysAfter(own, objs, ServiceTie(labels));
    PassWithin(served, objs, objs, RouteTie(services), near);
    forall known, o | o in objs && Podless(known) ensures TieWithin(PolicyTie(r, labels)(known, o), near) {
      PolicyWithin(known, o, r, labels, apart);
    }
    var routed := KeysAfter(served, objs, RouteTie(services));
    PassWithin(routed, objs, objs, PolicyTie(r, labels), near);
    forall known, o | o in objs && Podless(known) ensures TieWithin(EventTie()(known, o), near) {
      EventWithin(known, o, r, apart);
    }
    PassWithin(KeysAfter(routed, objs, PolicyTie(r, labels)), objs, objs, EventTie(), near);
  }

  /** Nothing of such a set is ever connected to the root. */
  lemma ApartIsNeverConnected(ds: Dataset, root: Ref, labels: map<string, string>, related: (Ref, Ref) -> bool,
                              tree: Scope, apart: iset<Key>, k: Key)
    requires Acyclic(ds.objects) && SetApart(ds, root, related, apart) && k in apart
    requires tree == BareTree(ds, root) && Closed(tree) && Grouped(tree)
    ensures !Connected(Surrounded(tree, ds, root, labels, related).relationships, KeyOf(root), k)
  {
    ApartIsParted(ds, root, labels, related, apart);
    ConnectedIffNeverParted(ds, root, labels, related, tree, k);
  }

  lemma OwnKeysPodless(ds: Dataset, root: Ref)
    requires NoPods(ds.objects, KeyOf(root))
    ensures Podless(OwnKeys(ds, root))
  {
    forall k | k in OwnKeys(ds, root) ensures k.kind != "Pod" {
      if AtOrBelow(ds.objects, KeyOf(root), k) {
        assert NoPods(ds.objects, KeyOf(root));
      } else {
        assert Mountable(k.kind);
      }
    }
  }

  /** Without pods, resources are selected by the labels of the root itself. */
  lemma LabelsWithoutPods(ds: Dataset, root: Ref, labels: map<string, string>)
    requires RootLabels(ds.objects, KeyOf(root), labels)
    requires forall x: Key :: x.kind == "Pod" ==> !Descends(ds.objects, KeyOf(root), x)
    ensures labels == OwnLabels(ds.objects, KeyOf(root))
  {
    forall l, v ensures !PodLabel(ds.objects, KeyOf(root), l, v) {
      if PodLabel(ds.objects, KeyOf(root), l, v) {
        var o :| OwnedBelow(ds.objects, KeyOf(root), o) && o.ref.kind == "Pod" && l in o.labels && o.labels[l] == v;
        OwnedBelowDescends(ds.objects, KeyOf(root), o);
      }
    }
  }
}
