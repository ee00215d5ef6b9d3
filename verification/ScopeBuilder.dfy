/** Building the scope of an investigation around a root (internal/investigation/builder.go:8-164). Each method is
    proved to take the step, or the fold of steps, that ScopeGrowth describes, and what the scope then has is stated
    from the data. */
module ScopeBuilder {
  import opened Options
  import opened InvestigationScope
  import opened ObjectIndex
  import opened ScopeGrowth
  import opened ScopeAnchors
  import opened OwnerTree
  import opened OwnedLinks
  import opened ScopeConnection

  /** From s to v the first n children of the root have been walked: v is in order, without pods it is the walk itself,
      and the owners that are reached are recorded, and the marked pods expanded. */
  ghost predicate WalkedSoFar(s: Scope, v: Scope, objs: seq<Object>, root: Ref, n: nat, marked: set<Key>)
    requires Acyclic(objs) && n <= |Children(objs, KeyOf(root))|
  {
    Expanded(s, v, objs, KeyOf(root), KeyOf(root)) && InBareWalk(s, v, objs, root, n) &&
    FirstRecorded(v, objs, KeyOf(root), n) && Marked(v, objs, marked)
  }

  lemma WalkedOn(s: Scope, v: Scope, t: Scope, objs: seq<Object>, root: Ref, n: nat, marked: set<Key>)
    requires Acyclic(objs) && n < |Children(objs, KeyOf(root))| && InBareWalk(s, v, objs, root, n) && Grows(s, v)
    requires FirstRecorded(v, objs, KeyOf(root), n) && Expanded(v, t, objs, KeyOf(root), KeyOf(root))
    requires Marked(t, objs, marked) && GainsChild(v, t, objs, KeyOf(root), Children(objs, KeyOf(root))[n])
    requires var c := Children(objs, KeyOf(root))[n].ref;
             t == Walked(Linked(v, root, c, Owns), objs, c, |Children(objs, KeyOf(c))|)
    ensures WalkedSoFar(s, t, objs, root, n + 1, marked)
  {
    ExpandedFurther(s, v, t, objs, KeyOf(root), KeyOf(root));
    BareWalkNext(s, objs, root, n, v, t);
    RecordedNext(v, t, objs, KeyOf(root), n);
  }

  class WorkingScope {
    const namespace_: string
    var groups: map<string, seq<Ref>>
    var relationships: seq<Relationship>
    var seen: set<Key>
    var extensions: seq<RelatedExtension>

    constructor (namespace_: string)
      ensures Value() == Scope(namespace_, map[], [], {}) && extensions == []
    {
      this.namespace_ := namespace_;
      groups, relationships, seen, extensions := map[], [], {}, [];
    }

    function Value(): Scope
      reads this
    {
      Scope(namespace_, groups, relationships, seen)
    }

    method Add(r: Ref)
      modifies this
      ensures Value() == Added(old(Value()), r) && extensions == old(extensions)
    {
      if r.name == "" || KeyOf(r) in seen {
        return;
      }
      seen := seen + {KeyOf(r)};
      var placed := if r.namespace == "" then r.(namespace := namespace_) else r;
      var g := GroupOf(r.kind);
      if g != "" {
        groups := groups[g := (if g in groups then groups[g] else []) + [placed]];
      }
    }

    method Link(from: Ref, to: Ref, kind: RelationKind)
      modifies this
      ensures Value() == Linked(old(Value()), from, to, kind) && extensions == old(extensions)
    {
      Add(from);
      Add(to);
      relationships := relationships + [Relationship(from, to, kind)];
    }

    method LinkRefs(from: Ref, kind: string, names: seq<string>)
      modifies this
      ensures Value() == LinkedAll(old(Value()), MountsOf(from, kind, names)) && extensions == old(extensions)
    {
      ghost var rels := MountsOf(from, kind, names);
      for i := 0 to |names|
        invariant Value() == LinkedAll(old(Value()), rels[..i]) && extensions == old(extensions)
      {
        Link(from, Ref(kind, names[i], from.namespace, ""), Mounts);
        assert rels[..i + 1][..i] == rels[..i];
      }
      assert rels[..|names|] == rels;
    }

    method ExpandPod(pod: Object)
      modifies this
      ensures Value() == LinkedAll(old(Value()), PodRelationships(pod)) && extensions == old(extensions)
    {
      ghost var s := Value();
      ghost var done: seq<Relationship> := [];
      if pod.node != "" {
        Link(pod.ref, Ref("Node", pod.node, "", ""), Schedules);
        done := [Relationship(pod.ref, Ref("Node", pod.node, "", ""), Schedules)];
        LinkedAllFurther(s, [], done[0]);
        assert [] + done == done;
      }
      LinkRefs(pod.ref, "ConfigMap", pod.configMaps);
      LinkedAllOfBoth(s, done, MountsOf(pod.ref, "ConfigMap", pod.configMaps));
      done := done + MountsOf(pod.ref, "ConfigMap", pod.configMaps);
      LinkRefs(pod.ref, "Secret", pod.secrets);
      LinkedAllOfBoth(s, done, MountsOf(pod.ref, "Secret", pod.secrets));
      done := done + MountsOf(pod.ref, "Secret", pod.secrets);
      LinkRefs(pod.ref, "PersistentVolumeClaim", pod.claims);
      LinkedAllOfBoth(s, done, MountsOf(pod.ref, "PersistentVolumeClaim", pod.claims));
      done := done + MountsOf(pod.ref, "PersistentVolumeClaim", pod.claims);
      if pod.serviceAccount != "" {
        var account := Ref("ServiceAccount", pod.serviceAccount, pod.ref.namespace, "");
        Link(pod.ref, account, Uses);
        LinkedAllFurther(s, done, Relationship(pod.ref, account, Uses));
        done := done + [Relationship(pod.ref, account, Uses)];
      }
      assert done == PodRelationships(pod);
    }

    /** What the walk over the children and everything below them adds, and the pods that it marks. */
    method ExpandChild(ix: Index, from: Ref, marked: set<Key>, ghost objs: seq<Object>) returns (now: set<Key>)
      requires Indexes(ix, objs) && Acyclic(objs) && Marked(Value(), objs, marked)
      modifies this
      ensures Marked(Value(), objs, now) && extensions == old(extensions)
      ensures Value() == Walked(old(Value()), objs, from, |Children(objs, KeyOf(from))|)
      ensures now == marked + Marks(objs, from, |Children(objs, KeyOf(from))|)
      decreases |Below(objs, KeyOf(from))|, 1
    {
      now := marked;
      ghost var s := Value();
      var children := ChildrenIn(ix, KeyOf(from));
      for i := 0 to |children|
        invariant Marked(Value(), objs, now) && extensions == old(extensions)
        invariant Value() == Walked(s, objs, from, i) && now == marked + Marks(objs, from, i)
      {
        WalkedNext(s, objs, from, i);
        MarkedOneMore(marked, objs, from, i);
        now := LinkChild(ix, from, children[i], now, objs);
      }
    }

    method LinkChild(ix: Index, from: Ref, gc: Object, marked: set<Key>, ghost objs: seq<Object>)
      returns (now: set<Key>)
      requires Indexes(ix, objs) && Acyclic(objs) && gc in Children(objs, KeyOf(from)) && Marked(Value(), objs, marked)
      modifies this
      ensures Marked(Value(), objs, now) && extensions == old(extensions)
      ensures Value() == WalkedBelow(Linked(old(Value()), from, gc.ref, Owns), objs, from, gc)
      ensures now == marked + if gc.ref.kind == "Pod" then {KeyOf(gc.ref)}
                              else Marks(objs, gc.ref, |Children(objs, KeyOf(gc.ref))|)
      decreases |Below(objs, KeyOf(from))|, 0
    {
      ChildShrinks(objs, from, gc);
      ghost var s := Value();
      Link(from, gc.ref, Owns);
      MarkedAfter(s, Value(), objs, marked);
      if gc.ref.kind == "Pod" {
        now := marked + {KeyOf(gc.ref)};
        PodIsMarked(Value(), objs, gc, marked);
        ExpandPod(gc);
      } else {
        now := ExpandChild(ix, gc.ref, marked, objs);
      }
    }

    /** The root, and everything that it owns down to its pods. */
    method ExpandOwnership(ix: Index, root: Ref, ghost objs: seq<Object>)
      requires Indexes(ix, objs) && Acyclic(objs)
      requires Owned(Value(), objs, KeyOf(root)) && Reaches(Value(), KeyOf(root), KeyOf(root))
      modifies this
      ensures Expanded(old(Value()), Value(), objs, KeyOf(root), KeyOf(root)) && HasOwnPods(Value(), objs, KeyOf(root))
      ensures OwnersRecorded(Value(), objs, KeyOf(root))
      ensures InBareWalk(old(Value()), Value(), objs, root, |Children(objs, KeyOf(root))|)
      ensures extensions == old(extensions)
    {
      ghost var s := Value();
      var marked := ExpandChildren(ix, root, objs);
      ghost var before := Value();
      var pods := PodsOf(ix, root, objs);
      AllRecorded(before, objs, KeyOf(root));
      if NoPods(objs, KeyOf(root)) {
        NoPodsListed(objs, KeyOf(root), pods);
      }
      marked := ExpandStrayPods(ix, root, pods, marked, objs);
      ExpandedFurther(s, before, Value(), objs, KeyOf(root), KeyOf(root));
      OwnersStay(before, Value(), objs, KeyOf(root));
      MarkedPodsAreAll(Value(), objs, KeyOf(root), pods, marked);
    }

    method ExpandChildren(ix: Index, root: Ref, ghost objs: seq<Object>) returns (marked: set<Key>)
      requires Indexes(ix, objs) && Acyclic(objs)
      requires Owned(Value(), objs, KeyOf(root)) && Reaches(Value(), KeyOf(root), KeyOf(root))
      modifies this
      ensures WalkedSoFar(old(Value()), Value(), objs, root, |Children(objs, KeyOf(root))|, marked)
      ensures extensions == old(extensions)
    {
      marked := {};
      ghost var s := Value();
      var children := ChildrenIn(ix, KeyOf(root));
      for i := 0 to |children|
        invariant WalkedSoFar(s, Value(), objs, root, i, marked) && extensions == old(extensions)
      {
        ghost var before := Value();
        marked := LinkRootChild(ix, root, children[i], marked, objs);
        WalkedOn(s, before, Value(), objs, root, i, marked);
      }
    }

    method LinkRootChild(ix: Index, root: Ref, child: Object, marked: set<Key>, ghost objs: seq<Object>)
      returns (now: set<Key>)
      requires Indexes(ix, objs) && Acyclic(objs) && child in Children(objs, KeyOf(root))
      requires Owned(Value(), objs, KeyOf(root)) && Reaches(Value(), KeyOf(root), KeyOf(root)) &&
               Marked(Value(), objs, marked)
      modifies this
      ensures Expanded(old(Value()), Value(), objs, KeyOf(root), KeyOf(root)) && Marked(Value(), objs, now)
      ensures Value() ==
              Walked(Linked(old(Value()), root, child.ref, Owns), objs, child.ref, |Children(objs, KeyOf(child.ref))|)
      ensures now == marked + Marks(objs, child.ref, |Children(objs, KeyOf(child.ref))|) &&
              extensions == old(extensions)
      ensures GainsChild(old(Value()), Value(), objs, KeyOf(root), child)
    {
      RootChildIsExpanded(Value(), objs, root, child);
      ChildIsGained(Value(), objs, root, child.ref, child);
      ghost var s := Value();
      Link(root, child.ref, Owns);
      MarkedAfter(s, Value(), objs, marked);
      now := ExpandChild(ix, child.ref, marked, objs);
    }

    method ExpandStrayPods(ix: Index, root: Ref, pods: seq<Ref>, marked: set<Key>, ghost objs: seq<Object>)
      returns (now: set<Key>)
      requires Indexes(ix, objs) && ArePodsBelow(objs, KeyOf(root), pods)
      requires Owned(Value(), objs, KeyOf(root)) && Reaches(Value(), KeyOf(root), KeyOf(root)) &&
               Marked(Value(), objs, marked)
      modifies this
      ensures Expanded(old(Value()), Value(), objs, KeyOf(root), KeyOf(root)) && Marked(Value(), objs, now)
      ensures AllMarked(pods, now) && (pods == [] ==> Value() == old(Value()))
      ensures extensions == old(extensions)
    {
      now := marked;
      ghost var s := Value();
      for i := 0 to |pods|
        invariant Expanded(s, Value(), objs, KeyOf(root), KeyOf(root)) && Marked(Value(), objs, now)
        invariant AllMarked(pods[..i], now) && (i == 0 ==> Value() == s)
        invariant extensions == old(extensions)
      {
        ghost var before := Value();
        PodBelowDescends(objs, KeyOf(root), pods, i);
        AllMarkedFurther(pods, i, now);
        now := LinkStrayPod(ix, root, pods[i], now, objs);
        ExpandedFurther(s, before, Value(), objs, KeyOf(root), KeyOf(root));
      }
      assert pods[..|pods|] == pods;
    }

    method LinkStrayPod(ix: Index, root: Ref, pod: Ref, marked: set<Key>, ghost objs: seq<Object>)
      returns (now: set<Key>)
      requires Indexes(ix, objs) && Descends(objs, KeyOf(root), KeyOf(pod)) && pod.kind == "Pod"
      requires Owned(Value(), objs, KeyOf(root)) && Reaches(Value(), KeyOf(root), KeyOf(root)) &&
               Marked(Value(), objs, marked)
      modifies this
      ensures Expanded(old(Value()), Value(), objs, KeyOf(root), KeyOf(root))
      ensures Value() == if KeyOf(pod) in marked then old(Value()) else StrayLinked(old(Value()), objs, root, pod)
      ensures now == marked + {KeyOf(pod)} && Marked(Value(), objs, now) && extensions == old(extensions)
    {
      if KeyOf(pod) in marked {
        assert marked + {KeyOf(pod)} == marked;
        return marked;
      }
      StrayIsMarked(Value(), objs, root, pod, marked);
      Link(root, pod, Owns);
      now := marked + {KeyOf(pod)};
      if KeyOf(pod) in ix.byKey {
        ExpandPod(ix.byKey[KeyOf(pod)]);
      }
    }

    method LinkPods(from: Ref, kind: RelationKind)
      modifies this
      ensures Value() == PodsLinked(old(Value()), from, kind) && extensions == old(extensions)
    {
      ghost var s := Value();
      var pods := if "Pod" in groups then groups["Pod"] else [];
      ghost var rels := PodEnds(from, pods, kind);
      for i := 0 to |pods|
        invariant Value() == LinkedAll(s, rels[..i]) && extensions == old(extensions)
      {
        Link(from, pods[i], kind);
        LinkedAllFurther(s, rels[..i], rels[i]);
        assert rels[..i + 1] == rels[..i] + [rels[i]];
      }
      assert rels[..|pods|] == rels;
    }

    method LinkServices(objs: seq<Object>, labels: map<string, string>, ghost root: Key, ghost hasPods: bool)
      returns (services: set<Key>)
      requires Built(Value(), objs, root, hasPods, {})
      modifies this
      ensures Extends(old(Value()), Value(), objs, root, hasPods) && AllAttached(Value(), root, hasPods, services)
      ensures Value() == Each(old(Value()), objs, ServiceStep(labels))
      ensures services == KeysWhere(objs, Serving(labels)) && extensions == old(extensions)
    {
      services := {};
      ghost var s := Value();
      for i := 0 to |objs|
        invariant Extends(s, Value(), objs, root, hasPods) && AllAttached(Value(), root, hasPods, services)
        invariant Value() == Each(s, objs[..i], ServiceStep(labels))
        invariant services == KeysWhere(objs[..i], Serving(labels)) && extensions == old(extensions)
      {
        EachFurther(s, objs, ServiceStep(labels), i);
        ghost var before := Value();
        KeysWhereFurther(objs, Serving(labels), i);
        if Serving(labels)(objs[i]) {
          services := services + {KeyOf(objs[i].ref)};
          LinkSelector(objs[i].ref, objs, root, hasPods);
          ExtendsFurther(s, before, Value(), objs, root, hasPods);
          AllAttachedAfter(before, Value(), root, hasPods, services - {KeyOf(objs[i].ref)});
        }
      }
      assert objs[..|objs|] == objs;
    }

    /** Adding a service, disruption budget or network policy and linking it to the pods. */
    method LinkSelector(r: Ref, ghost objs: seq<Object>, ghost root: Key, ghost hasPods: bool)
      requires Built(Value(), objs, root, hasPods, {}) && r.kind != "Pod"
      modifies this
      ensures Extends(old(Value()), Value(), objs, root, hasPods) && Attached(Value(), root, hasPods, KeyOf(r))
      ensures Value() == PodsLinked(Added(old(Value()), r), r, Selects) && extensions == old(extensions)
    {
      SelectorIsBuilt(Value(), objs, root, hasPods, r);
      Add(r);
      LinkPods(r, Selects);
    }

    method LinkRootRefs(ix: Index, root: Ref, ghost objs: seq<Object>)
      requires Indexes(ix, objs)
      requires Owned(Value(), objs, KeyOf(root)) && Reaches(Value(), KeyOf(root), KeyOf(root))
      requires HasOwnPods(Value(), objs, KeyOf(root))
      modifies this
      ensures Expanded(old(Value()), Value(), objs, KeyOf(root), KeyOf(root)) && HasOwnPods(Value(), objs, KeyOf(root))
      ensures KeyOf(root) in ByKey(objs) ==>
                Value() == LinkedAll(old(Value()), RootRelationships(root, ByKey(objs)[KeyOf(root)], namespace_))
      ensures KeyOf(root) !in ByKey(objs) ==> Value() == old(Value())
      ensures extensions == old(extensions)
    {
      if KeyOf(root) in ix.byKey {
        RootFanIsOwned(Value(), objs, root, ix.byKey[KeyOf(root)]);
        LinkRefsOf(root, ix.byKey[KeyOf(root)]);
      }
    }

    method LinkRefsOf(root: Ref, o: Object)
      modifies this
      ensures Value() == LinkedAll(old(Value()), RootRelationships(root, o, namespace_)) &&
              extensions == old(extensions)
    {
      ghost var s := Value();
      ghost var done := MountsOf(root, "ConfigMap", o.configMaps);
      LinkRefs(root, "ConfigMap", o.configMaps);
      LinkRefs(root, "Secret", o.secrets);
      LinkedAllOfBoth(s, done, MountsOf(root, "Secret", o.secrets));
      done := done + MountsOf(root, "Secret", o.secrets);
      LinkRefs(root, "PersistentVolumeClaim", o.claims);
      LinkedAllOfBoth(s, done, MountsOf(root, "PersistentVolumeClaim", o.claims));
      done := done + MountsOf(root, "PersistentVolumeClaim", o.claims);
      if o.serviceAccount != "" {
        var account := Ref("ServiceAccount", o.serviceAccount, namespace_, "");
        Link(root, account, Uses);
        LinkedAllFurther(s, done, Relationship(root, account, Uses));
        done := done + [Relationship(root, account, Uses)];
      }
      assert done == RootRelationships(root, o, namespace_);
    }

    method BuildTree(ix: Index, root: Ref, ghost ds: Dataset, ghost objs: seq<Object>) returns (ghost tree: Scope)
      requires objs == ds.objects && Indexes(ix, objs) && Acyclic(objs) && namespace_ == ds.namespace
      requires Value() == Added(Scope(ds.namespace, map[], [], {}), root)
      requires Owned(Value(), objs, KeyOf(root)) && Reaches(Value(), KeyOf(root), KeyOf(root))
      modifies this
      ensures Owned(Value(), objs, KeyOf(root)) && Reaches(Value(), KeyOf(root), KeyOf(root))
      ensures HasOwnPods(Value(), objs, KeyOf(root)) && RecordsRootRefs(Value(), objs, root)
      ensures OwnersRecorded(Value(), objs, KeyOf(root))
      ensures tree == Value() && extensions == old(extensions)
      ensures NoPods(objs, KeyOf(root)) ==> tree == BareTree(ds, root)
    {
      ExpandOwnership(ix, root, objs);
      ghost var s := Value();
      LinkRootRefs(ix, root, objs);
      OwnersStay(s, Value(), objs, KeyOf(root));
      if KeyOf(root) in ByKey(objs) {
        LinkedAllRelationships(s, RootRelationships(root, ByKey(objs)[KeyOf(root)], namespace_));
      }
      RootRefsRecorded(Value(), objs, root);
      tree := Value();
    }

    /** Networking, autoscaling, policies, bindings, events and extensions. */
    method LinkSurroundings(ds: Dataset, root: Ref, labels: map<string, string>, related: (Ref, Ref) -> bool,
                            ghost hasPods: bool)
      requires Built(Value(), ds.objects, KeyOf(root), hasPods, {}) &&
               Attached(Value(), KeyOf(root), hasPods, KeyOf(root))
      modifies this
      ensures Extends(old(Value()), Value(), ds.objects, KeyOf(root), hasPods)
      ensures CoversSelectors(Value(), ds.objects, labels)
      ensures CoversReferences(Value(), ds.objects, labels, KeyOf(root), old(Value()))
      ensures ExtensionsInScope(Value(), ds.extensions, root, related)
      ensures Value() == Surrounded(old(Value()), ds, root, labels, related)
      ensures extensions == old(extensions) + RelatedExtensions(ds.extensions, root, related)
    {
      ghost var s := Value();
      LinkNetwork(ds.objects, root, labels, hasPods);
      ghost var t := Value();
      LinkReferences(ds.objects, root, labels, hasPods, s.seen);
      ghost var u := Value();
      LinkExtensions(ds.extensions, root, related, ds.objects, hasPods);
      ExtendsFurther(t, u, Value(), ds.objects, KeyOf(root), hasPods);
      ExtendsFurther(s, t, Value(), ds.objects, KeyOf(root), hasPods);
      IncludedAfter(t, Value(), ds.objects, Serving(labels));
      IncludedAfter(t, Value(), ds.objects, Routing(KeysWhere(ds.objects, Serving(labels))));
      IncludedAfter(u, Value(), ds.objects, Governing(labels, KeyOf(root), s.seen));
      IncludedAfter(u, Value(), ds.objects, About(s.seen));
    }

    method LinkNetwork(objs: seq<Object>, root: Ref, labels: map<string, string>, ghost hasPods: bool)
      requires Built(Value(), objs, KeyOf(root), hasPods, {}) && Attached(Value(), KeyOf(root), hasPods, KeyOf(root))
      modifies this
      ensures Extends(old(Value()), Value(), objs, KeyOf(root), hasPods) &&
              Attached(Value(), KeyOf(root), hasPods, KeyOf(root))
      ensures CoversSelectors(Value(), objs, labels) && extensions == old(extensions)
      ensures Value() == Networked(old(Value()), objs, labels)
    {
      ghost var s := Value();
      var services := LinkServices(objs, labels, KeyOf(root), hasPods);
      ghost var t := Value();
      AttachedAreIncluded(t, objs, KeyOf(root), hasPods, Serving(labels));
      LinkRoutes(objs, services, KeyOf(root), hasPods);
      ExtendsFurther(s, t, Value(), objs, KeyOf(root), hasPods);
      AttachedAfter(s, Value(), KeyOf(root), hasPods, KeyOf(root));
      IncludedAfter(t, Value(), objs, Serving(labels));
    }

    method LinkReferences(objs: seq<Object>, root: Ref, labels: map<string, string>, ghost hasPods: bool,
                          ghost known: set<Key>)
      requires Built(Value(), objs, KeyOf(root), hasPods, {}) && Attached(Value(), KeyOf(root), hasPods, KeyOf(root))
      requires known <= seen
      modifies this
      ensures Extends(old(Value()), Value(), objs, KeyOf(root), hasPods) &&
              Attached(Value(), KeyOf(root), hasPods, KeyOf(root))
      ensures Included(Value(), objs, Governing(labels, KeyOf(root), known), |objs|)
      ensures Included(Value(), objs, About(known), |objs|) && extensions == old(extensions)
      ensures Value() == Referred(old(Value()), objs, root, labels)
    {
      ghost var s := Value();
      LinkPolicies(objs, root, labels, hasPods);
      ghost var t := Value();
      IncludedFewer(t, objs, Governing(labels, KeyOf(root), s.seen), Governing(labels, KeyOf(root), known));
      LinkEvents(objs, KeyOf(root), hasPods);
      IncludedFewer(Value(), objs, About(t.seen), About(known));
      ExtendsFurther(s, t, Value(), objs, KeyOf(root), hasPods);
      AttachedAfter(s, Value(), KeyOf(root), hasPods, KeyOf(root));
      IncludedAfter(t, Value(), objs, Governing(labels, KeyOf(root), known));
    }

    method LinkRoutes(objs: seq<Object>, services: set<Key>, ghost root: Key, ghost hasPods: bool)
      requires Built(Value(), objs, root, hasPods, {}) && AllAttached(Value(), root, hasPods, services)
      modifies this
      ensures Extends(old(Value()), Value(), objs, root, hasPods) && Included(Value(), objs, Routing(services), |objs|)
      ensures Value() == Each(old(Value()), objs, RouteStep(services)) && extensions == old(extensions)
    {
      ghost var s := Value();
      for i := 0 to |objs|
        invariant Extends(s, Value(), objs, root, hasPods) && AllAttached(Value(), root, hasPods, services)
        invariant Included(Value(), objs, Routing(services), i) && extensions == old(extensions)
        invariant Value() == Each(s, objs[..i], RouteStep(services))
      {
        EachFurther(s, objs, RouteStep(services), i);
        ghost var before := Value();
        LinkRoute(objs[i], services, objs, root, hasPods);
        ExtendsFurther(s, before, Value(), objs, root, hasPods);
        AllAttachedAfter(before, Value(), root, hasPods, services);
        IncludedFurther(before, Value(), objs, Routing(services), i);
      }
      assert objs[..|objs|] == objs;
    }

    method LinkRoute(o: Object, services: set<Key>, ghost objs: seq<Object>, ghost root: Key, ghost hasPods: bool)
      requires Built(Value(), objs, root, hasPods, {}) && AllAttached(Value(), root, hasPods, services)
      modifies this
      ensures Extends(old(Value()), Value(), objs, root, hasPods)
      ensures Routing(services)(o) ==> InScope(Value(), KeyOf(o.ref))
      ensures Value() == RouteAdded(old(Value()), o, services)
      ensures extensions == old(extensions)
    {
      if o.ref.kind == "EndpointSlice" || o.ref.kind == "Endpoints" {
        if o.owner.Some? && KeyOf(o.owner.value) in services {
          RouteExtends(Value(), objs, root, hasPods, o.owner.value, o.ref);
          Link(o.owner.value, o.ref, Routes);
          LinkPods(o.ref, Routes);
        }
      } else if o.ref.kind == "Ingress" {
        if o.target.Some? && KeyOf(o.target.value) in services {
          LinkExtends(Value(), objs, root, hasPods, o.ref, o.target.value, Routes);
          Link(o.ref, o.target.value, Routes);
        }
      }
    }

    method LinkPolicies(objs: seq<Object>, root: Ref, labels: map<string, string>, ghost hasPods: bool)
      requires Built(Value(), objs, KeyOf(root), hasPods, {}) && Attached(Value(), KeyOf(root), hasPods, KeyOf(root))
      modifies this
      ensures Extends(old(Value()), Value(), objs, KeyOf(root), hasPods)
      ensures Included(Value(), objs, Governing(labels, KeyOf(root), old(seen)), |objs|) &&
              extensions == old(extensions)
      ensures Value() == Each(old(Value()), objs, PolicyStep(root, labels))
    {
      ghost var s := Value();
      for i := 0 to |objs|
        invariant Extends(s, Value(), objs, KeyOf(root), hasPods) &&
                  Attached(Value(), KeyOf(root), hasPods, KeyOf(root))
        invariant Included(Value(), objs, Governing(labels, KeyOf(root), s.seen), i) && extensions == old(extensions)
        invariant Value() == Each(s, objs[..i], PolicyStep(root, labels))
      {
        EachFurther(s, objs, PolicyStep(root, labels), i);
        ghost var before := Value();
        LinkPolicy(objs[i], root, labels, objs, hasPods);
        ExtendsFurther(s, before, Value(), objs, KeyOf(root), hasPods);
        AttachedAfter(before, Value(), KeyOf(root), hasPods, KeyOf(root));
        IncludedFurther(before, Value(), objs, Governing(labels, KeyOf(root), s.seen), i);
      }
      assert objs[..|objs|] == objs;
    }

    method LinkPolicy(o: Object, root: Ref, labels: map<string, string>, ghost objs: seq<Object>, ghost hasPods: bool)
      requires Built(Value(), objs, KeyOf(root), hasPods, {}) && Attached(Value(), KeyOf(root), hasPods, KeyOf(root))
      modifies this
      ensures Extends(old(Value()), Value(), objs, KeyOf(root), hasPods)
      ensures Governing(labels, KeyOf(root), old(seen))(o) ==> InScope(Value(), KeyOf(o.ref))
      ensures Value() == PolicyAdded(old(Value()), o, root, labels)
      ensures extensions == old(extensions)
    {
      if o.ref.kind == "HorizontalPodAutoscaler" {
        if o.target.Some? && KeyOf(o.target.value) == KeyOf(root) {
          LinkExtends(Value(), objs, KeyOf(root), hasPods, o.ref, root, Targets);
          Link(o.ref, root, Targets);
        }
      } else if o.ref.kind == "PodDisruptionBudget" || o.ref.kind == "NetworkPolicy" {
        if SelectorMatches(o.selector, labels) {
          LinkSelector(o.ref, objs, KeyOf(root), hasPods);
        }
      } else if o.ref.kind == "RoleBinding" {
        if o.target.Some? && KeyOf(o.target.value) in seen {
          LinkBinding(o.ref, o.target.value, o.role, objs, KeyOf(root), hasPods);
        }
      }
    }

    method LinkBinding(binding: Ref, target: Ref, role: Option<Ref>, ghost objs: seq<Object>, ghost root: Key,
                       ghost hasPods: bool)
      requires Built(Value(), objs, root, hasPods, {}) && KeyOf(target) in seen
      modifies this
      ensures Extends(old(Value()), Value(), objs, root, hasPods) && InScope(Value(), KeyOf(binding))
      ensures var t := Linked(old(Value()), binding, target, Binds);
              Value() == if role.Some? then Linked(t, binding, role.value, Binds) else t
      ensures extensions == old(extensions)
    {
      ghost var s := Value();
      SeenIsAttached(s, objs, root, hasPods, KeyOf(target));
      LinkExtends(s, objs, root, hasPods, binding, target, Binds);
      Link(binding, target, Binds);
      if role.Some? {
        ghost var t := Value();
        LinkExtends(t, objs, root, hasPods, binding, role.value, Binds);
        Link(binding, role.value, Binds);
        ExtendsFurther(s, t, Value(), objs, root, hasPods);
      }
    }

    method LinkEvents(objs: seq<Object>, ghost root: Key, ghost hasPods: bool)
      requires Built(Value(), objs, root, hasPods, {})
      modifies this
      ensures Extends(old(Value()), Value(), objs, root, hasPods) && Included(Value(), objs, About(old(seen)), |objs|)
      ensures Value() == Each(old(Value()), objs, EventStep())
      ensures extensions == old(extensions)
    {
      ghost var s := Value();
      for i := 0 to |objs|
        invariant Extends(s, Value(), objs, root, hasPods)
        invariant Included(Value(), objs, About(s.seen), i) && extensions == old(extensions)
        invariant Value() == Each(s, objs[..i], EventStep())
      {
        EachFurther(s, objs, EventStep(), i);
        ghost var before := Value();
        if About(seen)(objs[i]) {
          EventExtends(before, objs, root, hasPods, objs[i].ref, objs[i].involved.value);
          Add(objs[i].ref);
          Link(objs[i].ref, objs[i].involved.value, Related);
          ExtendsFurther(s, before, Value(), objs, root, hasPods);
        }
        IncludedFurther(before, Value(), objs, About(s.seen), i);
      }
      assert objs[..|objs|] == objs;
    }

    method LinkExtensions(exts: seq<Extension>, root: Ref, related: (Ref, Ref) -> bool, ghost objs: seq<Object>,
                          ghost hasPods: bool)
      requires Built(Value(), objs, KeyOf(root), hasPods, {}) && Attached(Value(), KeyOf(root), hasPods, KeyOf(root))
      modifies this
      ensures Extends(old(Value()), Value(), objs, KeyOf(root), hasPods) &&
              ExtensionsInScope(Value(), exts, root, related)
      ensures Value() == ExtensionsLinked(old(Value()), exts, root, related)
      ensures extensions == old(extensions) + RelatedExtensions(exts, root, related)
    {
      ghost var s := Value();
      for i := 0 to |exts|
        invariant Extends(s, Value(), objs, KeyOf(root), hasPods) &&
                  Attached(Value(), KeyOf(root), hasPods, KeyOf(root))
        invariant ExtensionsInScope(Value(), exts[..i], root, related)
        invariant Value() == ExtensionsLinked(s, exts[..i], root, related)
        invariant extensions == old(extensions) + RelatedExtensions(exts[..i], root, related)
      {
        ghost var before := Value();
        RelatedExtensionsFurther(exts, i, root, related);
        var byKind := LinkResources(exts[i].resources, root, related, objs, hasPods);
        ByKindMembers(exts[i].resources, root, related);
        ExtensionsFurther(before, Value(), exts, i, root, related);
        ExtendsFurther(s, before, Value(), objs, KeyOf(root), hasPods);
        AttachedAfter(before, Value(), KeyOf(root), hasPods, KeyOf(root));
        if |byKind| > 0 {
          extensions := extensions + [RelatedExtension(exts[i].name, byKind)];
        }
      }
      assert exts[..|exts|] == exts;
    }

    method LinkResources(refs: seq<Ref>, root: Ref, related: (Ref, Ref) -> bool, ghost objs: seq<Object>,
                         ghost hasPods: bool)
      returns (byKind: map<string, seq<Ref>>)
      requires Built(Value(), objs, KeyOf(root), hasPods, {}) && Attached(Value(), KeyOf(root), hasPods, KeyOf(root))
      modifies this
      ensures Extends(old(Value()), Value(), objs, KeyOf(root), hasPods)
      ensures byKind == ByKind(refs, root, related) && extensions == old(extensions)
      ensures RelatedInScope(Value(), refs, root, related) &&
              Value() == ResourcesLinked(old(Value()), refs, root, related)
    {
      byKind := map[];
      ghost var s := Value();
      for i := 0 to |refs|
        invariant Extends(s, Value(), objs, KeyOf(root), hasPods) &&
                  Attached(Value(), KeyOf(root), hasPods, KeyOf(root))
        invariant Value() == ResourcesLinked(s, refs[..i], root, related)
        invariant byKind == ByKind(refs[..i], root, related) && RelatedInScope(Value(), refs[..i], root, related)
        invariant extensions == old(extensions)
      {
        ghost var before := Value();
        var linked := LinkResource(refs[i], root, related, objs, hasPods);
        ExtendsFurther(s, before, Value(), objs, KeyOf(root), hasPods);
        RelatedFurther(before, Value(), refs, i, root, related);
        assert refs[..i + 1][..i] == refs[..i];
        if linked {
          byKind := byKind[refs[i].kind := (if refs[i].kind in byKind then byKind[refs[i].kind] else []) + [refs[i]]];
        }
      }
      assert refs[..|refs|] == refs;
    }

    method LinkResource(r: Ref, root: Ref, related: (Ref, Ref) -> bool, ghost objs: seq<Object>, ghost hasPods: bool)
      returns (linked: bool)
      requires Built(Value(), objs, KeyOf(root), hasPods, {}) && Attached(Value(), KeyOf(root), hasPods, KeyOf(root))
      modifies this
      ensures linked == related(root, r) && extensions == old(extensions)
      ensures Value() == if linked then Linked(old(Value()), root, r, Related) else old(Value())
      ensures Extends(old(Value()), Value(), objs, KeyOf(root), hasPods)
      ensures Attached(Value(), KeyOf(root), hasPods, KeyOf(root)) && (linked ==> InScope(Value(), KeyOf(r)))
    {
      linked := related(root, r);
      if linked {
        LinkExtends(Value(), objs, KeyOf(root), hasPods, root, r, Related);
        Link(root, r, Related);
      }
    }
  }

  /** The scope around a root, and, for stating what it contains, the labels of the root's pods and the scope as it
      was when the owner tree had been walked. */
  method BuildScope(ds: Dataset, root: Ref, related: (Ref, Ref) -> bool)
    returns (scope: WorkingScope, ghost labels: map<string, string>, ghost tree: Scope)
    requires Acyclic(ds.objects)
    ensures fresh(scope) && RootLabels(ds.objects, KeyOf(root), labels)
    ensures OnlyOwn(tree, ds.objects, KeyOf(root)) && HasOwnPods(tree, ds.objects, KeyOf(root))
    ensures OwnersRecorded(tree, ds.objects, KeyOf(root)) && RecordsRootRefs(tree, ds.objects, root)
    ensures Grows(tree, scope.Value()) && InScope(tree, KeyOf(root)) && tree.namespace == ds.namespace
    ensures scope.Value() == Surrounded(tree, ds, root, labels, related)
    ensures Closed(scope.Value()) && Grouped(scope.Value()) && TellsTruly(ds.objects, scope.Value().relationships)
    ensures HasNamedPod(ds.objects, KeyOf(root)) ==> ConnectedBut(scope.Value(), KeyOf(root), {})
    ensures AllNamed(ds.objects) ==>
              (ConnectedBut(scope.Value(), KeyOf(root), {}) <==>
               SelectedConnected(scope.Value(), ds.objects, KeyOf(root), labels))
    ensures NoPods(ds.objects, KeyOf(root)) ==>
              tree == BareTree(ds, root) && labels == OwnLabels(ds.objects, KeyOf(root))
    ensures AllNamed(ds.objects) && root.name != "" ==>
              (ConnectedBut(scope.Value(), KeyOf(root), {}) <==>
               HasNamedPod(ds.objects, KeyOf(root)) ||
               SelectedNeverParted(ds, root, OwnLabels(ds.objects, KeyOf(root)), related))
    ensures Closed(tree) && Grouped(tree)
    ensures CoversSelectors(scope.Value(), ds.objects, labels)
    ensures CoversReferences(scope.Value(), ds.objects, labels, KeyOf(root), tree)
    ensures ExtensionsInScope(scope.Value(), ds.extensions, root, related)
    ensures scope.extensions == RelatedExtensions(ds.extensions, root, related)
  {
    var objs := ds.objects;
    var r := KeyOf(root);
    var ix := NewIndex(objs);
    scope := new WorkingScope(ds.namespace);
    StartIsOwned(ds.namespace, objs, root);
    scope.Add(root);
    var found := PodLabels(ix, root, objs);
    labels := found;
    tree := scope.BuildTree(ix, root, ds, objs);
    ghost var hasPods := Group(scope.Value(), "Pod") != [];
    OwnedIsBuilt(scope.Value(), objs, r);
    scope.LinkSurroundings(ds, root, found, related, hasPods);
    ConnectionIsKnown(ds, root, found, related, tree, scope.Value());
  }

  /** When everything in the finished scope is connected. */
  lemma ConnectionIsKnown(ds: Dataset, root: Ref, labels: map<string, string>, related: (Ref, Ref) -> bool, tree: Scope,
                          s: Scope)
    requires Acyclic(ds.objects) && RootLabels(ds.objects, KeyOf(root), labels)
    requires Owned(tree, ds.objects, KeyOf(root)) && HasOwnPods(tree, ds.objects, KeyOf(root)) &&
             InScope(tree, KeyOf(root)) && (NoPods(ds.objects, KeyOf(root)) ==> tree == BareTree(ds, root))
    requires Extends(tree, s, ds.objects, KeyOf(root), Group(tree, "Pod") != []) &&
             s == Surrounded(tree, ds, root, labels, related)
    requires CoversSelectors(s, ds.objects, labels) && CoversReferences(s, ds.objects, labels, KeyOf(root), tree)
    ensures HasNamedPod(ds.objects, KeyOf(root)) ==> ConnectedBut(s, KeyOf(root), {})
    ensures AllNamed(ds.objects) ==>
              (ConnectedBut(s, KeyOf(root), {}) <==> SelectedConnected(s, ds.objects, KeyOf(root), labels))
    ensures NoPods(ds.objects, KeyOf(root)) ==> labels == OwnLabels(ds.objects, KeyOf(root))
    ensures AllNamed(ds.objects) && root.name != "" ==>
              (ConnectedBut(s, KeyOf(root), {}) <==>
               HasNamedPod(ds.objects, KeyOf(root)) ||
               SelectedNeverParted(ds, root, OwnLabels(ds.objects, KeyOf(root)), related))
  {
    var objs, r := ds.objects, KeyOf(root);
    if HasNamedPod(objs, r) {
      PodsWhenOwned(tree, objs, r);
    }
    SelectedIsCovered(s, objs, labels, r, tree);
    if AllNamed(objs) {
      ConnectedIffSelectedConnected(tree, ds, root, labels, related, s);
    }
    if AllNamed(objs) && r.name != "" && !HasNamedPod(objs, r) {
      NoNamedPodsIsNone(objs, r);
    }
    if NoPods(objs, r) {
      BuiltWithoutPods(ds, root, labels, related, tree, s);
    }
  }

  /** With names everywhere, a root without named pods has none. */
  lemma NoNamedPodsIsNone(objs: seq<Object>, root: Key)
    requires AllNamed(objs) && root.name != "" && !HasNamedPod(objs, root)
    ensures NoPods(objs, root)
  {
    forall x: Key | x.kind == "Pod" ensures !AtOrBelow(objs, root, x) {
      if Descends(objs, root, x) {
        var o := DescendantIsOwnedBelow(objs, root, x);
      }
    }
  }

  lemma BuiltWithoutPods(ds: Dataset, root: Ref, labels: map<string, string>, related: (Ref, Ref) -> bool, tree: Scope,
                         s: Scope)
    requires Acyclic(ds.objects) && NoPods(ds.objects, KeyOf(root)) && RootLabels(ds.objects, KeyOf(root), labels)
    requires tree == BareTree(ds, root) && Closed(tree) && Grouped(tree) && ConnectedBut(tree, KeyOf(root), {})
    requires s == Surrounded(tree, ds, root, labels, related)
    requires MarkedInScope(s, KeysWhere(ds.objects, Selecting(labels)))
    ensures labels == OwnLabels(ds.objects, KeyOf(root))
    ensures AllNamed(ds.objects) ==>
              (ConnectedBut(s, KeyOf(root), {}) <==>
               SelectedNeverParted(ds, root, OwnLabels(ds.objects, KeyOf(root)), related))
  {
    forall x: Key | x.kind == "Pod" ensures !Descends(ds.objects, KeyOf(root), x) {
      assert !AtOrBelow(ds.objects, KeyOf(root), x);
    }
    LabelsWithoutPods(ds, root, labels);
    if AllNamed(ds.objects) {
      WithoutPodsConnectedIff(ds, root, labels, related, tree, s);
    }
  }

  /** The program called on a root without pods whose own labels select a resource of a set that is apart: the
      resource is in scope, and nothing of the set is connected to the root. */
  method ScopeWithoutPods(ds: Dataset, root: Ref, related: (Ref, Ref) -> bool, ghost apart: iset<Key>, o: Object)
    returns (scope: WorkingScope)
    requires Acyclic(ds.objects) && SetApart(ds, root, related, apart) && KeyOf(o.ref) in apart
    requires o in ds.objects && o.ref.name != "" && Selecting(OwnLabels(ds.objects, KeyOf(root)))(o)
    ensures KeyOf(o.ref) in scope.Value().seen && !ConnectedBut(scope.Value(), KeyOf(root), {})
    ensures forall k :: k in apart ==> !Connected(scope.Value().relationships, KeyOf(root), k)
  {
    ghost var labels, tree;
    scope, labels, tree := BuildScope(ds, root, related);
    forall k | k in apart ensures !Connected(scope.Value().relationships, KeyOf(root), k) {
      ApartIsNeverConnected(ds, root, labels, related, tree, apart, k);
    }
    SelectedIsCovered(scope.Value(), ds.objects, labels, KeyOf(root), tree);
    ghost var i :| 0 <= i < |ds.objects| && ds.objects[i] == o;
    assert KeyOf(o.ref) in KeysWhere(ds.objects, Selecting(labels));
  }

  // ----- an instance: a deployment scaled to zero, and its service with endpoints, an ingress and an event -----

  function Plain(ref: Ref): Object {
    Object(ref, map[], map[], None, [], [], [], "", "", None, None, None)
  }

  const APP: map<string, string> := map["app" := "web"]
  const WEB: Ref := Ref("Deployment", "web", "shop", "apps/v1")
  const FRONT: Ref := Ref("Service", "web", "shop", "v1")
  const DEPLOYMENT: Object := Plain(WEB).(labels := APP)
  const SERVICE: Object := Plain(FRONT).(selector := APP)
  const ENDPOINTS: Object := Plain(Ref("EndpointSlice", "web-x1", "shop", "v1")).(owner := Some(FRONT))
  const INGRESS: Object := Plain(Ref("Ingress", "web", "shop", "v1")).(target := Some(FRONT))
  const EVENT: Object := Plain(Ref("Event", "web.1", "shop", "v1")).(involved := Some(FRONT))
  const SHOP: Dataset := Dataset("shop", [SERVICE, ENDPOINTS, INGRESS, EVENT, DEPLOYMENT], [])

  /** The service and what refers to it. */
  ghost const ASIDE: iset<Key> := iset{KeyOf(FRONT), KeyOf(ENDPOINTS.ref), KeyOf(INGRESS.ref), KeyOf(EVENT.ref)}

  function AnyResource(): (Ref, Ref) -> bool {
    (a: Ref, b: Ref) => true
  }

  lemma ShopOwns(a: Key, b: Key)
    requires ObjectIndex.Owns(SHOP.objects, a, b)
    ensures a == KeyOf(FRONT) && b == KeyOf(ENDPOINTS.ref)
  {
  }

  lemma ShopDescends(a: Key, k: Key)
    requires Descends(SHOP.objects, a, k)
    ensures a == KeyOf(FRONT) && k == KeyOf(ENDPOINTS.ref)
  {
    var b := DescentHasFirstStep(SHOP.objects, a, k);
    ShopOwns(a, b);
    if b != k {
      var c := DescentHasFirstStep(SHOP.objects, b, k);
      ShopOwns(b, c);
    }
  }

  lemma ShopIsAcyclic()
    ensures Acyclic(SHOP.objects) && NoPods(SHOP.objects, KeyOf(WEB)) && Below(SHOP.objects, KeyOf(WEB)) == {}
  {
    forall k ensures !Descends(SHOP.objects, k, k) {
      if Descends(SHOP.objects, k, k) {
        ShopDescends(k, k);
      }
    }
    forall k ensures !Descends(SHOP.objects, KeyOf(WEB), k) && !IsBelow(SHOP.objects, KeyOf(WEB), k) {
      if Descends(SHOP.objects, KeyOf(WEB), k) {
        ShopDescends(KeyOf(WEB), k);
      }
    }
  }

  lemma ShopIndexesWeb()
    ensures KeyOf(WEB) in ByKey(SHOP.objects) && ByKey(SHOP.objects)[KeyOf(WEB)] == DEPLOYMENT
  {
  }

  lemma ShopOwnsNothing()
    ensures OwnKeys(SHOP, WEB) == {KeyOf(WEB)} && NoPods(SHOP.objects, KeyOf(WEB))
  {
    ShopIsAcyclic();
    ShopIndexesWeb();
    assert TargetsOf(RootRelationships(WEB, DEPLOYMENT, "shop")) == {};
  }

  lemma ShopRefersWithin(o: Object)
    requires o in SHOP.objects
    ensures RefersWithin(o, KeyOf(WEB), ASIDE)
  {
  }

  lemma ServiceIsAside()
    ensures SetApart(SHOP, WEB, AnyResource(), ASIDE) && Selecting(OwnLabels(SHOP.objects, KeyOf(WEB)))(SERVICE)
  {
    ShopOwnsNothing();
    forall o | o in SHOP.objects ensures RefersWithin(o, KeyOf(WEB), ASIDE) {
      ShopRefersWithin(o);
    }
    ShopIndexesWeb();
    assert "app" in APP && APP["app"] == "web";
  }

  /** The program called on it: the service is in scope, and neither it nor anything that refers to it is connected. */
  method ScaledToZero() returns (scope: WorkingScope)
    ensures KeyOf(FRONT) in scope.Value().seen && !ConnectedBut(scope.Value(), KeyOf(WEB), {})
    ensures forall k :: k in ASIDE ==> !Connected(scope.Value().relationships, KeyOf(WEB), k)
  {
    ShopIsAcyclic();
    ServiceIsAside();
    assert SHOP.objects[0] == SERVICE;
    scope := ScopeWithoutPods(SHOP, WEB, AnyResource(), ASIDE, SERVICE);
  }
}
