/** Every resource that comes into an investigation scope is tied to an anchor: to the root, or to one of the objects
    that the scope selects by labels. Each step that surrounds a workload with its services, routes, policies, events
    and extensions is shown to keep this, one kind of object after the other, because each adds a resource only
    together with the relationship that names it. */
module ScopeAnchors {
  import opened InvestigationScope
  import opened ObjectIndex
  import opened ScopeGrowth

  // ----- walks -----

  lemma {:induction false} WalkOn(rels: seq<Relationship>, a: Key, p: seq<Key>)
    requires Walk(p, rels) && Connected(rels, a, p[0])
    ensures Connected(rels, a, p[|p| - 1])
    decreases |p|
  {
    if |p| > 1 {
      assert Edge(rels, p[0], p[1]);
      ConnectedFurther(rels, a, p[0], p[1]);
      forall i | 0 <= i < |p[1..]| - 1 ensures Edge(rels, p[1..][i], p[1..][i + 1]) {
        assert Edge(rels, p[i + 1], p[i + 2]);
      }
      WalkOn(rels, a, p[1..]);
    }
  }

  lemma ConnectedThrough(rels: seq<Relationship>, a: Key, b: Key, c: Key)
    requires Connected(rels, a, b) && Connected(rels, b, c)
    ensures Connected(rels, a, c)
  {
    var p :| Walk(p, rels) && p[0] == b && p[|p| - 1] == c;
    WalkOn(rels, a, p);
  }

  // ----- everything is tied to an anchor -----

  /** k is connected to one of the anchors. */
  ghost predicate Tied(rels: seq<Relationship>, anchors: set<Key>, k: Key) {
    exists p :: p in anchors && Connected(rels, p, k)
  }

  ghost predicate Anchored(s: Scope, anchors: set<Key>) {
    forall k {:trigger Tied(s.relationships, anchors, k)} :: k in s.seen ==> Tied(s.relationships, anchors, k)
  }

  /** s has grown to t, and everything is still tied. */
  ghost predicate StaysAnchored(s: Scope, t: Scope, anchors: set<Key>) {
    Anchored(t, anchors) && s.relationships <= t.relationships
  }

  lemma AnchorIsTied(rels: seq<Relationship>, anchors: set<Key>, k: Key)
    requires k in anchors
    ensures Tied(rels, anchors, k)
  {
    ConnectedToItself(rels, k);
  }

  lemma TiedInMore(rels: seq<Relationship>, more: seq<Relationship>, anchors: set<Key>, k: Key)
    requires Tied(rels, anchors, k) && rels <= more
    ensures Tied(more, anchors, k)
  {
    var p :| p in anchors && Connected(rels, p, k);
    ConnectedInMore(rels, more, p, k);
  }

  lemma LinkedStaysAnchored(s: Scope, from: Ref, to: Ref, kind: RelationKind, anchors: set<Key>)
    requires Anchored(s, anchors)
    requires Tied(s.relationships, anchors, KeyOf(from)) || Tied(s.relationships, anchors, KeyOf(to))
    ensures var t := Linked(s, from, to, kind);
            StaysAnchored(s, t, anchors) &&
            Tied(t.relationships, anchors, KeyOf(from)) && Tied(t.relationships, anchors, KeyOf(to))
  {
    var t := Linked(s, from, to, kind);
    assert t.relationships == s.relationships + [Relationship(from, to, kind)];
    var end := if Tied(s.relationships, anchors, KeyOf(from)) then KeyOf(from) else KeyOf(to);
    var p :| p in anchors && Connected(s.relationships, p, end);
    EndsConnected(s.relationships, from, to, kind, p);
    forall k | k in t.seen ensures Tied(t.relationships, anchors, k) {
      if k != KeyOf(from) && k != KeyOf(to) {
        assert Tied(s.relationships, anchors, k);
        TiedInMore(s.relationships, t.relationships, anchors, k);
      }
    }
  }

  lemma AddedStaysAnchored(s: Scope, r: Ref, anchors: set<Key>)
    requires Anchored(s, anchors) && KeyOf(r) in anchors
    ensures StaysAnchored(s, Added(s, r), anchors)
  {
    forall k | k in Added(s, r).seen ensures Tied(s.relationships, anchors, k) {
      if k == KeyOf(r) {
        AnchorIsTied(s.relationships, anchors, k);
      } else {
        assert k in s.seen;
      }
    }
  }

  lemma {:induction false} FanStaysAnchored(s: Scope, r: Ref, rels: seq<Relationship>, anchors: set<Key>)
    requires Anchored(s, anchors) && Tied(s.relationships, anchors, KeyOf(r))
    requires forall i :: 0 <= i < |rels| ==> rels[i].from == r
    ensures var t := LinkedAll(s, rels); StaysAnchored(s, t, anchors) && Tied(t.relationships, anchors, KeyOf(r))
  {
    if rels != [] {
      var init, last := rels[..|rels| - 1], rels[|rels| - 1];
      FanStaysAnchored(s, r, init, anchors);
      LinkedStaysAnchored(LinkedAll(s, init), last.from, last.to, last.kind, anchors);
    }
  }

  lemma PodsLinkedStaysAnchored(s: Scope, r: Ref, kind: RelationKind, anchors: set<Key>)
    requires Anchored(s, anchors) && Tied(s.relationships, anchors, KeyOf(r))
    ensures StaysAnchored(s, PodsLinked(s, r, kind), anchors)
  {
    FanStaysAnchored(s, r, PodEnds(r, Group(s, "Pod"), kind), anchors);
  }

  lemma SelectorStaysAnchored(s: Scope, r: Ref, anchors: set<Key>)
    requires Anchored(s, anchors) && KeyOf(r) in anchors
    ensures StaysAnchored(s, PodsLinked(Added(s, r), r, Selects), anchors)
  {
    AddedStaysAnchored(s, r, anchors);
    AnchorIsTied(Added(s, r).relationships, anchors, KeyOf(r));
    PodsLinkedStaysAnchored(Added(s, r), r, Selects, anchors);
  }

  // ----- what each object contributes -----

  /** The resources whose selector matches the labels of the root's pods. */
  function Selecting(labels: map<string, string>): Object -> bool {
    (o: Object) => o.ref.kind in {"Service", "PodDisruptionBudget", "NetworkPolicy"} &&
    SelectorMatches(o.selector, labels)
  }

  lemma ServiceStaysAnchored(s: Scope, o: Object, labels: map<string, string>, anchors: set<Key>)
    requires Anchored(s, anchors) && (Selecting(labels)(o) ==> KeyOf(o.ref) in anchors)
    ensures StaysAnchored(s, ServiceAdded(s, o, labels), anchors)
  {
    if Serving(labels)(o) {
      SelectorStaysAnchored(s, o.ref, anchors);
    }
  }

  lemma RouteStaysAnchored(s: Scope, o: Object, services: set<Key>, anchors: set<Key>)
    requires Anchored(s, anchors) && services <= anchors
    ensures StaysAnchored(s, RouteAdded(s, o, services), anchors)
  {
    if Routing(services)(o) {
      if o.ref.kind == "Ingress" {
        AnchorIsTied(s.relationships, anchors, KeyOf(o.target.value));
        LinkedStaysAnchored(s, o.ref, o.target.value, Routes, anchors);
      } else {
        AnchorIsTied(s.relationships, anchors, KeyOf(o.owner.value));
        LinkedStaysAnchored(s, o.owner.value, o.ref, Routes, anchors);
        PodsLinkedStaysAnchored(Linked(s, o.owner.value, o.ref, Routes), o.ref, Routes, anchors);
      }
    }
  }

  lemma BindingStaysAnchored(s: Scope, o: Object, anchors: set<Key>)
    requires Anchored(s, anchors) && o.target.Some? && KeyOf(o.target.value) in s.seen
    ensures var t := Linked(s, o.ref, o.target.value, Binds);
            StaysAnchored(s, if o.role.Some? then Linked(t, o.ref, o.role.value, Binds) else t, anchors)
  {
    assert Tied(s.relationships, anchors, KeyOf(o.target.value));
    LinkedStaysAnchored(s, o.ref, o.target.value, Binds, anchors);
    if o.role.Some? {
      LinkedStaysAnchored(Linked(s, o.ref, o.target.value, Binds), o.ref, o.role.value, Binds, anchors);
    }
  }

  lemma PolicyStaysAnchored(s: Scope, o: Object, root: Ref, labels: map<string, string>, anchors: set<Key>)
    requires Anchored(s, anchors) && KeyOf(root) in anchors && (Selecting(labels)(o) ==> KeyOf(o.ref) in anchors)
    ensures StaysAnchored(s, PolicyAdded(s, o, root, labels), anchors)
  {
    if Governing(labels, KeyOf(root), s.seen)(o) {
      if o.ref.kind == "HorizontalPodAutoscaler" {
        AnchorIsTied(s.relationships, anchors, KeyOf(root));
        LinkedStaysAnchored(s, o.ref, root, Targets, anchors);
      } else if o.ref.kind == "RoleBinding" {
        BindingStaysAnchored(s, o, anchors);
      } else {
        SelectorStaysAnchored(s, o.ref, anchors);
      }
    }
  }

  lemma EventStaysAnchored(s: Scope, o: Object, anchors: set<Key>)
    requires Anchored(s, anchors)
    ensures StaysAnchored(s, EventAdded(s, o), anchors)
  {
    if About(s.seen)(o) {
      assert Added(Added(s, o.ref), o.ref) == Added(s, o.ref);
      assert Tied(s.relationships, anchors, KeyOf(o.involved.value));
      LinkedStaysAnchored(s, o.ref, o.involved.value, Related, anchors);
    }
  }

  /** What an object contributes is tied to an anchor. */
  ghost predicate ContributesTied(objs: seq<Object>, step: (Scope, Object) -> Scope, anchors: set<Key>) {
    forall s, o {:trigger step(s, o)} :: o in objs && Anchored(s, anchors) ==> StaysAnchored(s, step(s, o), anchors)
  }

  lemma {:induction false} EachStaysAnchored(s: Scope, objs: seq<Object>, step: (Scope, Object) -> Scope,
                                             anchors: set<Key>)
    requires Anchored(s, anchors) && ContributesTied(objs, step, anchors)
    ensures StaysAnchored(s, Each(s, objs, step), anchors)
  {
    if objs != [] {
      var init, o := objs[..|objs| - 1], objs[|objs| - 1];
      assert objs == init + [o];
      EachStaysAnchored(s, init, step, anchors);
      var t := step(Each(s, init, step), o);
    }
  }

  lemma {:induction false} ResourcesStayAnchored(s: Scope, refs: seq<Ref>, root: Ref, related: (Ref, Ref) -> bool,
                                                 anchors: set<Key>)
    requires Anchored(s, anchors) && KeyOf(root) in anchors
    ensures StaysAnchored(s, ResourcesLinked(s, refs, root, related), anchors)
  {
    if refs != [] {
      var init, r := refs[..|refs| - 1], refs[|refs| - 1];
      ResourcesStayAnchored(s, init, root, related, anchors);
      var before := ResourcesLinked(s, init, root, related);
      AnchorIsTied(before.relationships, anchors, KeyOf(root));
      LinkedStaysAnchored(before, root, r, Related, anchors);
    }
  }

  lemma {:induction false} ExtensionsStayAnchored(s: Scope, exts: seq<Extension>, root: Ref,
                                                  related: (Ref, Ref) -> bool, anchors: set<Key>)
    requires Anchored(s, anchors) && KeyOf(root) in anchors
    ensures StaysAnchored(s, ExtensionsLinked(s, exts, root, related), anchors)
  {
    if exts != [] {
      var init, e := exts[..|exts| - 1], exts[|exts| - 1];
      ExtensionsStayAnchored(s, init, root, related, anchors);
      ResourcesStayAnchored(ExtensionsLinked(s, init, root, related), e.resources, root, related, anchors);
    }
  }

  /** The root, and what is selected by labels. */
  function Anchors(objs: seq<Object>, root: Key, labels: map<string, string>): set<Key> {
    KeysWhere(objs, Selecting(labels)) + {root}
  }

  lemma SelectedIsAnchor(objs: seq<Object>, root: Key, labels: map<string, string>, o: Object)
    requires o in objs && Selecting(labels)(o)
    ensures KeyOf(o.ref) in Anchors(objs, root, labels)
  {
    var i :| 0 <= i < |objs| && objs[i] == o;
  }

  lemma NetworkedStaysAnchored(s: Scope, objs: seq<Object>, root: Key, labels: map<string, string>)
    requires Anchored(s, Anchors(objs, root, labels))
    ensures StaysAnchored(s, Networked(s, objs, labels), Anchors(objs, root, labels))
  {
    var anchors := Anchors(objs, root, labels);
    forall t, o | o in objs && Anchored(t, anchors) ensures StaysAnchored(t, ServiceStep(labels)(t, o), anchors) {
      if Selecting(labels)(o) {
        SelectedIsAnchor(objs, root, labels, o);
      }
      ServiceStaysAnchored(t, o, labels, anchors);
    }
    EachStaysAnchored(s, objs, ServiceStep(labels), anchors);
    var services := KeysWhere(objs, Serving(labels));
    forall k | k in services ensures k in anchors {
      var i :| 0 <= i < |objs| && Serving(labels)(objs[i]) && KeyOf(objs[i].ref) == k;
      SelectedIsAnchor(objs, root, labels, objs[i]);
    }
    forall t, o | o in objs && Anchored(t, anchors) ensures StaysAnchored(t, RouteStep(services)(t, o), anchors) {
      RouteStaysAnchored(t, o, services, anchors);
    }
    EachStaysAnchored(Each(s, objs, ServiceStep(labels)), objs, RouteStep(services), anchors);
  }

  lemma ReferredStaysAnchored(s: Scope, objs: seq<Object>, root: Ref, labels: map<string, string>)
    requires Anchored(s, Anchors(objs, KeyOf(root), labels))
    ensures StaysAnchored(s, Referred(s, objs, root, labels), Anchors(objs, KeyOf(root), labels))
  {
    var anchors := Anchors(objs, KeyOf(root), labels);
    forall t, o | o in objs && Anchored(t, anchors) ensures StaysAnchored(t, PolicyStep(root, labels)(t, o), anchors) {
      if Selecting(labels)(o) {
        SelectedIsAnchor(objs, KeyOf(root), labels, o);
      }
      PolicyStaysAnchored(t, o, root, labels, anchors);
    }
    EachStaysAnchored(s, objs, PolicyStep(root, labels), anchors);
    forall t, o | o in objs && Anchored(t, anchors) ensures StaysAnchored(t, EventStep()(t, o), anchors) {
      EventStaysAnchored(t, o, anchors);
    }
    EachStaysAnchored(Each(s, objs, PolicyStep(root, labels)), objs, EventStep(), anchors);
  }

  /** Whatever is in the finished scope is connected to the root or to something that is selected by labels. */
  lemma SurroundedStaysAnchored(tree: Scope, ds: Dataset, root: Ref, labels: map<string, string>,
                                related: (Ref, Ref) -> bool)
    requires ConnectedBut(tree, KeyOf(root), {})
    ensures Anchored(Surrounded(tree, ds, root, labels, related), Anchors(ds.objects, KeyOf(root), labels))
  {
    var anchors := Anchors(ds.objects, KeyOf(root), labels);
    forall k | k in tree.seen ensures Tied(tree.relationships, anchors, k) {
      assert Connected(tree.relationships, KeyOf(root), k);
    }
    NetworkedStaysAnchored(tree, ds.objects, KeyOf(root), labels);
    var n := Networked(tree, ds.objects, labels);
    ReferredStaysAnchored(n, ds.objects, root, labels);
    ExtensionsStayAnchored(Referred(n, ds.objects, root, labels), ds.extensions, root, related, anchors);
  }
}
