/** What the relationships around an owner tree say: each is recorded because of something in the data, and everything
    in the data that calls for one has one (internal/investigation/builder.go:48-127). */
module ScopeLinks {
  import opened InvestigationScope
  import opened ObjectIndex
  import opened ScopeGrowth
  import opened ScopeTies

  // ----- why a relationship is recorded -----

  /** A selector names labels, and every one of them has the value that it asks for; a missing label has the empty
      one. */
  predicate Picks(selector: map<string, string>, labels: map<string, string>) {
    (exists k :: k in selector) &&
    forall k :: k in selector ==> if k in labels then labels[k] == selector[k] else selector[k] == ""
  }

  lemma PicksIsMatching(selector: map<string, string>, labels: map<string, string>)
    ensures SelectorMatches(selector, labels) <==> Picks(selector, labels)
  {
    if selector != map[] {
      var k :| k in selector;
    }
  }

  /** A service of the data with this key picks the workload. */
  predicate Served(objs: seq<Object>, labels: map<string, string>, k: Key) {
    exists i :: 0 <= i < |objs| && objs[i].ref.kind == "Service" && KeyOf(objs[i].ref) == k &&
                Picks(objs[i].selector, labels)
  }

  lemma ServedIsService(objs: seq<Object>, labels: map<string, string>, k: Key)
    ensures k in KeysWhere(objs, Serving(labels)) <==> Served(objs, labels, k)
  {
    forall i | 0 <= i < |objs| ensures SelectorMatches(objs[i].selector, labels) <==> Picks(objs[i].selector, labels) {
      PicksIsMatching(objs[i].selector, labels);
    }
  }

  /** The object calls for the relationship. */
  predicate CallsFor(o: Object, objs: seq<Object>, root: Ref, labels: map<string, string>, r: Relationship) {
    match r.kind
    case Selects =>
      o.ref.kind in {"Service", "PodDisruptionBudget", "NetworkPolicy"} && Picks(o.selector, labels) &&
      r.from == o.ref && r.to.kind == "Pod"
    case Routes =>
      if o.ref.kind == "Ingress" then
        o.target.Some? && Served(objs, labels, KeyOf(o.target.value)) && r.from == o.ref && r.to == o.target.value
      else
        o.ref.kind in {"EndpointSlice", "Endpoints"} && o.owner.Some? && Served(objs, labels, KeyOf(o.owner.value)) &&
        ((r.from == o.owner.value && r.to == o.ref) || (r.from == o.ref && r.to.kind == "Pod"))
    case Targets =>
      o.ref.kind == "HorizontalPodAutoscaler" && o.target.Some? && KeyOf(o.target.value) == KeyOf(root) &&
      r.from == o.ref && r.to == root
    case Binds =>
      o.ref.kind == "RoleBinding" && o.target.Some? && r.from == o.ref &&
      (r.to == o.target.value || (o.role.Some? && r.to == o.role.value))
    case Related => o.ref.kind == "Event" && o.involved.Some? && r.from == o.ref && r.to == o.involved.value
    case _ => false
  }

  predicate Explained(ds: Dataset, root: Ref, labels: map<string, string>, related: (Ref, Ref) -> bool,
                      r: Relationship)
  {
    (exists i :: 0 <= i < |ds.objects| && CallsFor(ds.objects[i], ds.objects, root, labels, r)) ||
    (r.kind == Related && r.from == root && related(root, r.to) &&
     exists e :: e in ds.extensions && r.to in e.resources)
  }

  /** Every relationship from the n-th on is explained by the data. */
  ghost predicate ExplainedFrom(ds: Dataset, root: Ref, labels: map<string, string>, related: (Ref, Ref) -> bool,
                                n: nat, rels: seq<Relationship>)
  {
    forall i :: n <= i < |rels| ==> Explained(ds, root, labels, related, rels[i])
  }

  lemma OneIsExplained(ds: Dataset, root: Ref, labels: map<string, string>, related: (Ref, Ref) -> bool, o: Object,
                       r: Relationship)
    requires o in ds.objects && CallsFor(o, ds.objects, root, labels, r)
    ensures Explained(ds, root, labels, related, r)
  {
    var i :| 0 <= i < |ds.objects| && ds.objects[i] == o;
  }

  /** What a step adds is called for by its object. */
  ghost predicate StepCalls(ds: Dataset, root: Ref, labels: map<string, string>, o: Object, s: Scope, t: Scope) {
    s.relationships <= t.relationships && Closed(t) && Grouped(t) &&
    forall i :: |s.relationships| <= i < |t.relationships| ==>
                  CallsFor(o, ds.objects, root, labels, t.relationships[i])
  }

  lemma PodsOfSlice(s: Scope, i: nat)
    requires Grouped(s) && i < |Group(s, "Pod")|
    ensures Group(s, "Pod")[i].kind == "Pod"
  {
    assert SliceOf(s, "Pod", Group(s, "Pod"));
    assert GroupOf(Group(s, "Pod")[i].kind) == "Pod";
  }

  /** Linking a resource to the pods adds one relationship to each. */
  lemma PodsLinkedAdds(s: Scope, r: Ref, kind: RelationKind)
    requires Grouped(s)
    ensures var t := PodsLinked(s, r, kind);
            s.relationships <= t.relationships &&
            forall i :: |s.relationships| <= i < |t.relationships| ==>
                          t.relationships[i].from == r && t.relationships[i].to.kind == "Pod" &&
                          t.relationships[i].kind == kind
  {
    var pods := Group(s, "Pod");
    LinkedAllRelationships(s, PodEnds(r, pods, kind));
    forall i | 0 <= i < |pods| ensures pods[i].kind == "Pod" {
      PodsOfSlice(s, i);
    }
  }

  /** What t has more than s is called for by the object. */
  ghost predicate AddsOnly(ds: Dataset, root: Ref, labels: map<string, string>, o: Object, s: Scope, t: Scope) {
    s.relationships <= t.relationships &&
    forall i :: |s.relationships| <= i < |t.relationships| ==>
                  CallsFor(o, ds.objects, root, labels, t.relationships[i])
  }

  lemma SelectorAdds(ds: Dataset, root: Ref, labels: map<string, string>, o: Object, s: Scope)
    requires Grouped(s) && o.ref.kind in {"Service", "PodDisruptionBudget", "NetworkPolicy"}
    requires SelectorMatches(o.selector, labels)
    ensures AddsOnly(ds, root, labels, o, s, PodsLinked(Added(s, o.ref), o.ref, Selects))
  {
    AddedKeepsGroups(s, o.ref);
    PodsLinkedAdds(Added(s, o.ref), o.ref, Selects);
    PicksIsMatching(o.selector, labels);
  }

  lemma LinkedAdds(ds: Dataset, root: Ref, labels: map<string, string>, o: Object, s: Scope, from: Ref, to: Ref,
                   kind: RelationKind)
    requires CallsFor(o, ds.objects, root, labels, Relationship(from, to, kind))
    ensures AddsOnly(ds, root, labels, o, s, Linked(s, from, to, kind))
  {
    assert Linked(s, from, to, kind).relationships == s.relationships + [Relationship(from, to, kind)];
  }

  lemma AddsFurther(ds: Dataset, root: Ref, labels: map<string, string>, o: Object, s: Scope, t: Scope, u: Scope)
    requires AddsOnly(ds, root, labels, o, s, t) && AddsOnly(ds, root, labels, o, t, u)
    ensures AddsOnly(ds, root, labels, o, s, u)
  {
    forall i | |s.relationships| <= i < |u.relationships|
      ensures CallsFor(o, ds.objects, root, labels, u.relationships[i])
    {
      if i < |t.relationships| {
        assert u.relationships[i] == t.relationships[i];
      }
    }
  }

  lemma ServiceCalls(ds: Dataset, root: Ref, labels: map<string, string>, o: Object, s: Scope)
    requires Closed(s) && Grouped(s)
    ensures StepCalls(ds, root, labels, o, s, ServiceAdded(s, o, labels))
  {
    ServiceTied(s, o, labels);
    if Serving(labels)(o) {
      SelectorAdds(ds, root, labels, o, s);
    }
  }

  lemma SliceAdds(ds: Dataset, root: Ref, labels: map<string, string>, o: Object, s: Scope)
    requires Closed(s) && Grouped(s) && o.ref.kind in {"EndpointSlice", "Endpoints"} && o.owner.Some?
    requires Served(ds.objects, labels, KeyOf(o.owner.value))
    ensures AddsOnly(ds, root, labels, o, s, PodsLinked(Linked(s, o.owner.value, o.ref, Routes), o.ref, Routes))
  {
    var t := Linked(s, o.owner.value, o.ref, Routes);
    LinkedIsClosed(s, o.owner.value, o.ref, Routes);
    LinkedAdds(ds, root, labels, o, s, o.owner.value, o.ref, Routes);
    PodsLinkedAdds(t, o.ref, Routes);
    AddsFurther(ds, root, labels, o, s, t, PodsLinked(t, o.ref, Routes));
  }

  lemma RouteAdds(ds: Dataset, root: Ref, labels: map<string, string>, o: Object, s: Scope, services: set<Key>)
    requires Closed(s) && Grouped(s) && services == KeysWhere(ds.objects, Serving(labels))
    ensures AddsOnly(ds, root, labels, o, s, RouteAdded(s, o, services))
  {
    if Routing(services)(o) && o.ref.kind == "Ingress" {
      ServedIsService(ds.objects, labels, KeyOf(o.target.value));
      LinkedAdds(ds, root, labels, o, s, o.ref, o.target.value, Routes);
    } else if Routing(services)(o) {
      ServedIsService(ds.objects, labels, KeyOf(o.owner.value));
      SliceAdds(ds, root, labels, o, s);
    }
  }

  lemma RouteCalls(ds: Dataset, root: Ref, labels: map<string, string>, o: Object, s: Scope, services: set<Key>)
    requires Closed(s) && Grouped(s) && services == KeysWhere(ds.objects, Serving(labels))
    ensures StepCalls(ds, root, labels, o, s, RouteAdded(s, o, services))
  {
    RouteTied(s, o, services);
    RouteAdds(ds, root, labels, o, s, services);
  }

  lemma BindingAdds(ds: Dataset, root: Ref, labels: map<string, string>, o: Object, s: Scope)
    requires o.ref.kind == "RoleBinding" && o.target.Some?
    ensures var t := Linked(s, o.ref, o.target.value, Binds);
            AddsOnly(ds, root, labels, o, s, if o.role.Some? then Linked(t, o.ref, o.role.value, Binds) else t)
  {
    var t := Linked(s, o.ref, o.target.value, Binds);
    LinkedAdds(ds, root, labels, o, s, o.ref, o.target.value, Binds);
    if o.role.Some? {
      LinkedAdds(ds, root, labels, o, t, o.ref, o.role.value, Binds);
      AddsFurther(ds, root, labels, o, s, t, Linked(t, o.ref, o.role.value, Binds));
    }
  }

  lemma PolicyCalls(ds: Dataset, root: Ref, labels: map<string, string>, o: Object, s: Scope)
    requires Closed(s) && Grouped(s)
    ensures StepCalls(ds, root, labels, o, s, PolicyAdded(s, o, root, labels))
  {
    PolicyTied(s, o, root, labels);
    PolicyAdds(ds, root, labels, o, s);
  }

  lemma PolicyAdds(ds: Dataset, root: Ref, labels: map<string, string>, o: Object, s: Scope)
    requires Closed(s) && Grouped(s)
    ensures AddsOnly(ds, root, labels, o, s, PolicyAdded(s, o, root, labels))
  {
    if Governing(labels, KeyOf(root), s.seen)(o) {
      if o.ref.kind == "HorizontalPodAutoscaler" {
        LinkedAdds(ds, root, labels, o, s, o.ref, root, Targets);
      } else if o.ref.kind == "RoleBinding" {
        BindingAdds(ds, root, labels, o, s);
      } else {
        SelectorAdds(ds, root, labels, o, s);
      }
    }
  }

  lemma EventCalls(ds: Dataset, root: Ref, labels: map<string, string>, o: Object, s: Scope)
    requires Closed(s) && Grouped(s)
    ensures StepCalls(ds, root, labels, o, s, EventAdded(s, o))
  {
    EventTied(s, o);
    if About(s.seen)(o) {
      LinkedAdds(ds, root, labels, o, Added(s, o.ref), o.ref, o.involved.value, Related);
    }
  }

  /** Each step over the objects adds only what its object calls for. */
  ghost predicate StepsCall(ds: Dataset, root: Ref, labels: map<string, string>, step: (Scope, Object) -> Scope) {
    forall s, o {:trigger step(s, o)} :: Closed(s) && Grouped(s) ==> StepCalls(ds, root, labels, o, s, step(s, o))
  }

  lemma {:induction false} EachIsExplained(ds: Dataset, root: Ref, labels: map<string, string>,
                                           related: (Ref, Ref) -> bool, n: nat, s: Scope, done: seq<Object>,
                                           step: (Scope, Object) -> Scope)
    requires Closed(s) && Grouped(s) && StepsCall(ds, root, labels, step) && done <= ds.objects
    requires ExplainedFrom(ds, root, labels, related, n, s.relationships)
    ensures var t := Each(s, done, step);
            Closed(t) && Grouped(t) && s.relationships <= t.relationships &&
            ExplainedFrom(ds, root, labels, related, n, t.relationships)
  {
    if done != [] {
      var init, o := done[..|done| - 1], done[|done| - 1];
      EachIsExplained(ds, root, labels, related, n, s, init, step);
      var before := Each(s, init, step);
      assert o == ds.objects[|done| - 1];
      StepIsExplained(ds, root, labels, related, n, before, step(before, o), o);
    }
  }

  lemma StepIsExplained(ds: Dataset, root: Ref, labels: map<string, string>, related: (Ref, Ref) -> bool, n: nat,
                        s: Scope, t: Scope, o: Object)
    requires StepCalls(ds, root, labels, o, s, t) && o in ds.objects
    requires ExplainedFrom(ds, root, labels, related, n, s.relationships)
    ensures ExplainedFrom(ds, root, labels, related, n, t.relationships)
  {
    forall i | n <= i < |t.relationships| ensures Explained(ds, root, labels, related, t.relationships[i]) {
      if i < |s.relationships| {
        assert t.relationships[i] == s.relationships[i];
      } else {
        OneIsExplained(ds, root, labels, related, o, t.relationships[i]);
      }
    }
  }

  lemma {:induction false} ResourcesAreExplained(ds: Dataset, root: Ref, labels: map<string, string>,
                                                 related: (Ref, Ref) -> bool, n: nat, s: Scope, refs: seq<Ref>,
                                                 e: Extension)
    requires ExplainedFrom(ds, root, labels, related, n, s.relationships) && e in ds.extensions
    requires forall r :: r in refs ==> r in e.resources
    ensures ExplainedFrom(ds, root, labels, related, n, ResourcesLinked(s, refs, root, related).relationships)
    ensures s.relationships <= ResourcesLinked(s, refs, root, related).relationships
  {
    if refs != [] {
      ResourcesAreExplained(ds, root, labels, related, n, s, refs[..|refs| - 1], e);
      assert refs[|refs| - 1] in refs;
    }
  }

  lemma {:induction false} ExtensionsAreExplained(ds: Dataset, root: Ref, labels: map<string, string>,
                                                  related: (Ref, Ref) -> bool, n: nat, s: Scope, exts: seq<Extension>)
    requires ExplainedFrom(ds, root, labels, related, n, s.relationships)
    requires forall e :: e in exts ==> e in ds.extensions
    ensures ExplainedFrom(ds, root, labels, related, n, ExtensionsLinked(s, exts, root, related).relationships)
    ensures s.relationships <= ExtensionsLinked(s, exts, root, related).relationships
  {
    if exts != [] {
      var init, e := exts[..|exts| - 1], exts[|exts| - 1];
      ExtensionsAreExplained(ds, root, labels, related, n, s, init);
      ResourcesAreExplained(ds, root, labels, related, n, ExtensionsLinked(s, init, root, related), e.resources, e);
    }
  }

  /** Every relationship that is not in the owner tree is there because an object of the data calls for it, or because
      the resource of an extension is related to the root. */
  lemma SurroundingsAreExplained(tree: Scope, ds: Dataset, root: Ref, labels: map<string, string>,
                                 related: (Ref, Ref) -> bool)
    requires Closed(tree) && Grouped(tree)
    ensures var t := Surrounded(tree, ds, root, labels, related);
            tree.relationships <= t.relationships &&
            ExplainedFrom(ds, root, labels, related, |tree.relationships|, t.relationships)
  {
    var objs, services, n := ds.objects, KeysWhere(ds.objects, Serving(labels)), |tree.relationships|;
    forall s, o | Closed(s) && Grouped(s) ensures StepCalls(ds, root, labels, o, s, ServiceStep(labels)(s, o)) {
      ServiceCalls(ds, root, labels, o, s);
    }
    EachIsExplained(ds, root, labels, related, n, tree, objs, ServiceStep(labels));
    var a := Each(tree, objs, ServiceStep(labels));
    forall s, o | Closed(s) && Grouped(s) ensures StepCalls(ds, root, labels, o, s, RouteStep(services)(s, o)) {
      RouteCalls(ds, root, labels, o, s, services);
    }
    EachIsExplained(ds, root, labels, related, n, a, objs, RouteStep(services));
    var b := Each(a, objs, RouteStep(services));
    forall s, o | Closed(s) && Grouped(s) ensures StepCalls(ds, root, labels, o, s, PolicyStep(root, labels)(s, o)) {
      PolicyCalls(ds, root, labels, o, s);
    }
    EachIsExplained(ds, root, labels, related, n, b, objs, PolicyStep(root, labels));
    var c := Each(b, objs, PolicyStep(root, labels));
    forall s, o | Closed(s) && Grouped(s) ensures StepCalls(ds, root, labels, o, s, EventStep()(s, o)) {
      EventCalls(ds, root, labels, o, s);
    }
    EachIsExplained(ds, root, labels, related, n, c, objs, EventStep());
    ExtensionsAreExplained(ds, root, labels, related, n, Each(c, objs, EventStep()), ds.extensions);
  }

  // ----- what the data calls for is recorded -----

  predicate HasLink(rels: seq<Relationship>, from: Ref, to: Key, kind: RelationKind) {
    exists i :: 0 <= i < |rels| && rels[i].from == from && KeyOf(rels[i].to) == to && rels[i].kind == kind
  }

  lemma LinkStays(rels: seq<Relationship>, more: seq<Relationship>, from: Ref, to: Key, kind: RelationKind)
    requires HasLink(rels, from, to, kind) && rels <= more
    ensures HasLink(more, from, to, kind)
  {
    var i :| 0 <= i < |rels| && rels[i].from == from && KeyOf(rels[i].to) == to && rels[i].kind == kind;
    assert more[i] == rels[i];
  }

  lemma LinkedHasLink(s: Scope, from: Ref, to: Ref, kind: RelationKind)
    ensures HasLink(Linked(s, from, to, kind).relationships, from, KeyOf(to), kind)
  {
    var rels := Linked(s, from, to, kind).relationships;
    assert rels[|rels| - 1] == Relationship(from, to, kind);
  }

  /** The resource is linked to each of the pods. */
  predicate LinkedToPods(rels: seq<Relationship>, from: Ref, kind: RelationKind, pods: set<Key>) {
    forall k :: k in pods && k.kind == "Pod" ==> HasLink(rels, from, k, kind)
  }

  lemma PodsLinkedHasLinks(s: Scope, r: Ref, kind: RelationKind)
    requires Grouped(s)
    ensures LinkedToPods(PodsLinked(s, r, kind).relationships, r, kind, s.seen)
  {
    var pods := Group(s, "Pod");
    var ends, rels := PodEnds(r, pods, kind), PodsLinked(s, r, kind).relationships;
    LinkedAllRelationships(s, ends);
    PodsAreSeen(s);
    forall k | k in s.seen && k.kind == "Pod" ensures HasLink(rels, r, k, kind) {
      assert k in PodKeys(s.seen) && k in EndsOf(pods);
      var i :| 0 <= i < |pods| && KeyOf(pods[i]) == k;
      assert rels[|s.relationships| + i] == ends[i];
    }
  }

  /** What the data calls for, for one object, when these keys are in the owner tree. */
  predicate ServiceAnswered(o: Object, labels: map<string, string>, own: set<Key>, rels: seq<Relationship>) {
    o.ref.kind == "Service" && Picks(o.selector, labels) ==> LinkedToPods(rels, o.ref, Selects, own)
  }

  predicate RouteAnswered(o: Object, objs: seq<Object>, labels: map<string, string>, own: set<Key>,
                          rels: seq<Relationship>)
  {
    (o.ref.kind in {"EndpointSlice", "Endpoints"} && o.owner.Some? && Served(objs, labels, KeyOf(o.owner.value)) ==>
       HasLink(rels, o.owner.value, KeyOf(o.ref), Routes) && LinkedToPods(rels, o.ref, Routes, own)) &&
    (o.ref.kind == "Ingress" && o.target.Some? && Served(objs, labels, KeyOf(o.target.value)) ==>
       HasLink(rels, o.ref, KeyOf(o.target.value), Routes))
  }

  predicate PolicyAnswered(o: Object, root: Ref, labels: map<string, string>, own: set<Key>, rels: seq<Relationship>) {
    (o.ref.kind == "HorizontalPodAutoscaler" && o.target.Some? && KeyOf(o.target.value) == KeyOf(root) ==>
       HasLink(rels, o.ref, KeyOf(root), Targets)) &&
    (o.ref.kind in {"PodDisruptionBudget", "NetworkPolicy"} && Picks(o.selector, labels) ==>
       LinkedToPods(rels, o.ref, Selects, own)) &&
    (o.ref.kind == "RoleBinding" && o.target.Some? && KeyOf(o.target.value) in own ==>
       HasLink(rels, o.ref, KeyOf(o.target.value), Binds) &&
       (o.role.Some? ==> HasLink(rels, o.ref, KeyOf(o.role.value), Binds)))
  }

  predicate EventAnswered(o: Object, own: set<Key>, rels: seq<Relationship>) {
    o.ref.kind == "Event" && o.involved.Some? && KeyOf(o.involved.value) in own ==>
      HasLink(rels, o.ref, KeyOf(o.involved.value), Related)
  }

  lemma SelectorHasLinks(s: Scope, r: Ref, own: set<Key>)
    requires Grouped(s) && own <= s.seen
    ensures LinkedToPods(PodsLinked(Added(s, r), r, Selects).relationships, r, Selects, own)
  {
    AddedKeepsGroups(s, r);
    PodsLinkedHasLinks(Added(s, r), r, Selects);
  }

  lemma ServiceAnswers(o: Object, labels: map<string, string>, own: set<Key>, s: Scope)
    requires Closed(s) && Grouped(s) && own <= s.seen
    ensures ServiceAnswered(o, labels, own, ServiceAdded(s, o, labels).relationships)
  {
    PicksIsMatching(o.selector, labels);
    if Serving(labels)(o) {
      SelectorHasLinks(s, o.ref, own);
    }
  }

  lemma RouteAnswers(o: Object, objs: seq<Object>, labels: map<string, string>, own: set<Key>, s: Scope,
                     services: set<Key>)
    requires Closed(s) && Grouped(s) && own <= s.seen && services == KeysWhere(objs, Serving(labels))
    ensures RouteAnswered(o, objs, labels, own, RouteAdded(s, o, services).relationships)
  {
    if o.ref.kind == "Ingress" && o.target.Some? {
      ServedIsService(objs, labels, KeyOf(o.target.value));
      LinkedHasLink(s, o.ref, o.target.value, Routes);
    } else if o.ref.kind in {"EndpointSlice", "Endpoints"} && o.owner.Some? {
      ServedIsService(objs, labels, KeyOf(o.owner.value));
      SliceHasLinks(o, own, s);
    }
  }

  lemma SliceHasLinks(o: Object, own: set<Key>, s: Scope)
    requires Closed(s) && Grouped(s) && own <= s.seen && o.owner.Some?
    ensures var rels := PodsLinked(Linked(s, o.owner.value, o.ref, Routes), o.ref, Routes).relationships;
            HasLink(rels, o.owner.value, KeyOf(o.ref), Routes) && LinkedToPods(rels, o.ref, Routes, own)
  {
    var t := Linked(s, o.owner.value, o.ref, Routes);
    LinkedIsClosed(s, o.owner.value, o.ref, Routes);
    LinkedHasLink(s, o.owner.value, o.ref, Routes);
    PodsLinkedHasLinks(t, o.ref, Routes);
    PodsLinkedAdds(t, o.ref, Routes);
    LinkStays(t.relationships, PodsLinked(t, o.ref, Routes).relationships, o.owner.value, KeyOf(o.ref), Routes);
  }

  lemma PolicyAnswers(o: Object, root: Ref, labels: map<string, string>, own: set<Key>, s: Scope)
    requires Closed(s) && Grouped(s) && own <= s.seen
    ensures PolicyAnswered(o, root, labels, own, PolicyAdded(s, o, root, labels).relationships)
  {
    PicksIsMatching(o.selector, labels);
    if Governing(labels, KeyOf(root), s.seen)(o) {
      if o.ref.kind == "HorizontalPodAutoscaler" {
        LinkedHasLink(s, o.ref, root, Targets);
      } else if o.ref.kind == "RoleBinding" {
        BindingHasLinks(o, s);
      } else {
        SelectorHasLinks(s, o.ref, own);
      }
    }
  }

  lemma BindingHasLinks(o: Object, s: Scope)
    requires o.target.Some?
    ensures var t := Linked(s, o.ref, o.target.value, Binds);
            var rels := (if o.role.Some? then Linked(t, o.ref, o.role.value, Binds) else t).relationships;
            HasLink(rels, o.ref, KeyOf(o.target.value), Binds) &&
            (o.role.Some? ==> HasLink(rels, o.ref, KeyOf(o.role.value), Binds))
  {
    var t := Linked(s, o.ref, o.target.value, Binds);
    LinkedHasLink(s, o.ref, o.target.value, Binds);
    if o.role.Some? {
      var u := Linked(t, o.ref, o.role.value, Binds);
      LinkedHasLink(t, o.ref, o.role.value, Binds);
      assert u.relationships == t.relationships + [Relationship(o.ref, o.role.value, Binds)];
      LinkStays(t.relationships, u.relationships, o.ref, KeyOf(o.target.value), Binds);
    }
  }

  lemma EventAnswers(o: Object, own: set<Key>, s: Scope)
    requires own <= s.seen
    ensures EventAnswered(o, own, EventAdded(s, o).relationships)
  {
    if About(s.seen)(o) {
      LinkedHasLink(Added(s, o.ref), o.ref, o.involved.value, Related);
    }
  }

  /** A step that keeps what there is. */
  ghost predicate StepsGrow(step: (Scope, Object) -> Scope) {
    forall s, o {:trigger step(s, o)} :: Closed(s) && Grouped(s) ==> StepGrows(s, step(s, o))
  }

  ghost predicate StepGrows(s: Scope, t: Scope) {
    Closed(t) && Grouped(t) && s.seen <= t.seen && s.relationships <= t.relationships
  }

  lemma {:induction false} EachGrows(s: Scope, objs: seq<Object>, step: (Scope, Object) -> Scope)
    requires Closed(s) && Grouped(s) && StepsGrow(step)
    ensures StepGrows(s, Each(s, objs, step))
  {
    if objs != [] {
      var init, o := objs[..|objs| - 1], objs[|objs| - 1];
      EachGrows(s, init, step);
      assert StepGrows(Each(s, init, step), step(Each(s, init, step), o));
    }
  }

  /** What an object contributes in its turn is in the scope after the pass. */
  lemma {:induction false} EachKeeps(s: Scope, objs: seq<Object>, step: (Scope, Object) -> Scope, i: nat)
    requires Closed(s) && Grouped(s) && StepsGrow(step) && i < |objs|
    ensures var before := Each(s, objs[..i], step);
            StepGrows(s, before) && step(before, objs[i]).relationships <= Each(s, objs, step).relationships
  {
    var init, o := objs[..|objs| - 1], objs[|objs| - 1];
    EachGrows(s, objs[..i], step);
    if i < |objs| - 1 {
      EachKeeps(s, init, step, i);
      EachGrows(s, init, step);
      assert init[..i] == objs[..i] && init[i] == objs[i];
      assert StepGrows(Each(s, init, step), step(Each(s, init, step), o));
    }
  }

  lemma AllStepsGrow(root: Ref, labels: map<string, string>, services: set<Key>)
    requires forall k :: k in services ==> k.kind == "Service"
    ensures StepsGrow(ServiceStep(labels)) && StepsGrow(RouteStep(services)) && StepsGrow(PolicyStep(root, labels)) &&
            StepsGrow(EventStep())
  {
    forall s, o | Closed(s) && Grouped(s) ensures StepGrows(s, ServiceStep(labels)(s, o)) {
      ServiceTied(s, o, labels);
    }
    forall s, o | Closed(s) && Grouped(s) ensures StepGrows(s, RouteStep(services)(s, o)) {
      RouteTied(s, o, services);
    }
    forall s, o | Closed(s) && Grouped(s) ensures StepGrows(s, PolicyStep(root, labels)(s, o)) {
      PolicyTied(s, o, root, labels);
    }
    forall s, o | Closed(s) && Grouped(s) ensures StepGrows(s, EventStep()(s, o)) {
      EventTied(s, o);
    }
  }

  lemma AnsweredStays(o: Object, objs: seq<Object>, root: Ref, labels: map<string, string>, own: set<Key>,
                      rels: seq<Relationship>, more: seq<Relationship>)
    requires rels <= more
    ensures ServiceAnswered(o, labels, own, rels) ==> ServiceAnswered(o, labels, own, more)
    ensures RouteAnswered(o, objs, labels, own, rels) ==> RouteAnswered(o, objs, labels, own, more)
    ensures PolicyAnswered(o, root, labels, own, rels) ==> PolicyAnswered(o, root, labels, own, more)
    ensures EventAnswered(o, own, rels) ==> EventAnswered(o, own, more)
  {
    forall from, to, kind | HasLink(rels, from, to, kind) ensures HasLink(more, from, to, kind) {
      LinkStays(rels, more, from, to, kind);
    }
  }

  /** The scopes between the passes. */
  datatype Passes = Passes(services: Scope, routes: Scope, policies: Scope, events: Scope, all: Scope)

  function PassesOf(tree: Scope, ds: Dataset, root: Ref, labels: map<string, string>, related: (Ref, Ref) -> bool)
    : Passes
  {
    var objs := ds.objects;
    var a := Each(tree, objs, ServiceStep(labels));
    var b := Each(a, objs, RouteStep(KeysWhere(objs, Serving(labels))));
    var c := Each(b, objs, PolicyStep(root, labels));
    var d := Each(c, objs, EventStep());
    Passes(a, b, c, d, ExtensionsLinked(d, ds.extensions, root, related))
  }

  lemma PassesGrow(tree: Scope, ds: Dataset, root: Ref, labels: map<string, string>, related: (Ref, Ref) -> bool)
    requires Closed(tree) && Grouped(tree)
    ensures var p := PassesOf(tree, ds, root, labels, related);
            p.all == Surrounded(tree, ds, root, labels, related) &&
            StepGrows(tree, p.services) && StepGrows(p.services, p.routes) && StepGrows(p.routes, p.policies) &&
            StepGrows(p.policies, p.events) && p.events.relationships <= p.all.relationships
  {
    var objs, services := ds.objects, KeysWhere(ds.objects, Serving(labels));
    AllStepsGrow(root, labels, services);
    var p := PassesOf(tree, ds, root, labels, related);
    EachGrows(tree, objs, ServiceStep(labels));
    EachGrows(p.services, objs, RouteStep(services));
    EachGrows(p.routes, objs, PolicyStep(root, labels));
    EachGrows(p.policies, objs, EventStep());
    ExtensionsGrow(p.events, ds.extensions, root, related);
  }

  lemma {:induction false} ResourcesGrow(s: Scope, refs: seq<Ref>, root: Ref, related: (Ref, Ref) -> bool)
    ensures s.relationships <= ResourcesLinked(s, refs, root, related).relationships
    ensures forall r :: r in refs && related(root, r) ==>
                          HasLink(ResourcesLinked(s, refs, root, related).relationships, root, KeyOf(r), Related)
  {
    if refs != [] {
      var init, last := refs[..|refs| - 1], refs[|refs| - 1];
      ResourcesGrow(s, init, root, related);
      var before, after := ResourcesLinked(s, init, root, related), ResourcesLinked(s, refs, root, related);
      LinkedHasLink(before, root, last, Related);
      forall r | r in refs && related(root, r) ensures HasLink(after.relationships, root, KeyOf(r), Related) {
        if r != last {
          assert r in init;
          LinkStays(before.relationships, after.relationships, root, KeyOf(r), Related);
        }
      }
    }
  }

  lemma {:induction false} ExtensionsGrow(s: Scope, exts: seq<Extension>, root: Ref, related: (Ref, Ref) -> bool)
    ensures s.relationships <= ExtensionsLinked(s, exts, root, related).relationships
    ensures forall e, r :: e in exts && r in e.resources && related(root, r) ==>
                             HasLink(ExtensionsLinked(s, exts, root, related).relationships, root, KeyOf(r), Related)
  {
    if exts != [] {
      var init, last := exts[..|exts| - 1], exts[|exts| - 1];
      ExtensionsGrow(s, init, root, related);
      var before, after := ExtensionsLinked(s, init, root, related), ExtensionsLinked(s, exts, root, related);
      ResourcesGrow(before, last.resources, root, related);
      forall e, r | e in exts && r in e.resources && related(root, r)
        ensures HasLink(after.relationships, root, KeyOf(r), Related)
      {
        if e != last {
          assert e in init;
          LinkStays(before.relationships, after.relationships, root, KeyOf(r), Related);
        }
      }
    }
  }

  /** What the i-th object calls for, in view of the owner tree, is in the finished scope. */
  ghost predicate ObjectAnswered(o: Object, ds: Dataset, root: Ref, labels: map<string, string>, own: set<Key>,
                                 rels: seq<Relationship>)
  {
    ServiceAnswered(o, labels, own, rels) && RouteAnswered(o, ds.objects, labels, own, rels) &&
    PolicyAnswered(o, root, labels, own, rels) && EventAnswered(o, own, rels)
  }

  lemma ServiceIsAnswered(tree: Scope, ds: Dataset, root: Ref, labels: map<string, string>, related: (Ref, Ref) -> bool,
                          i: nat)
    requires Closed(tree) && Grouped(tree) && i < |ds.objects|
    ensures ServiceAnswered(ds.objects[i], labels, tree.seen, Surrounded(tree, ds, root, labels, related).relationships)
  {
    var objs, step, p := ds.objects, ServiceStep(labels), PassesOf(tree, ds, root, labels, related);
    PassesGrow(tree, ds, root, labels, related);
    AllStepsGrow(root, labels, KeysWhere(objs, Serving(labels)));
    EachKeeps(tree, objs, step, i);
    var before := Each(tree, objs[..i], step);
    ServiceAnswers(objs[i], labels, tree.seen, before);
    AnsweredStays(objs[i], objs, root, labels, tree.seen, step(before, objs[i]).relationships, p.all.relationships);
  }

  lemma RouteIsAnswered(tree: Scope, ds: Dataset, root: Ref, labels: map<string, string>, related: (Ref, Ref) -> bool,
                        i: nat)
    requires Closed(tree) && Grouped(tree) && i < |ds.objects|
    ensures RouteAnswered(ds.objects[i], ds.objects, labels, tree.seen,
                          Surrounded(tree, ds, root, labels, related).relationships)
  {
    var objs, services := ds.objects, KeysWhere(ds.objects, Serving(labels));
    var step, p := RouteStep(services), PassesOf(tree, ds, root, labels, related);
    PassesGrow(tree, ds, root, labels, related);
    AllStepsGrow(root, labels, services);
    EachKeeps(p.services, objs, step, i);
    var before := Each(p.services, objs[..i], step);
    RouteAnswers(objs[i], objs, labels, tree.seen, before, services);
    AnsweredStays(objs[i], objs, root, labels, tree.seen, step(before, objs[i]).relationships, p.all.relationships);
  }

  lemma PolicyIsAnswered(tree: Scope, ds: Dataset, root: Ref, labels: map<string, string>, related: (Ref, Ref) -> bool,
                         i: nat)
    requires Closed(tree) && Grouped(tree) && i < |ds.objects|
    ensures PolicyAnswered(ds.objects[i], root, labels, tree.seen,
                           Surrounded(tree, ds, root, labels, related).relationships)
  {
    var objs, step, p := ds.objects, PolicyStep(root, labels), PassesOf(tree, ds, root, labels, related);
    PassesGrow(tree, ds, root, labels, related);
    AllStepsGrow(root, labels, KeysWhere(objs, Serving(labels)));
    EachKeeps(p.routes, objs, step, i);
    var before := Each(p.routes, objs[..i], step);
    PolicyAnswers(objs[i], root, labels, tree.seen, before);
    AnsweredStays(objs[i], objs, root, labels, tree.seen, step(before, objs[i]).relationships, p.all.relationships);
  }

  lemma EventIsAnswered(tree: Scope, ds: Dataset, root: Ref, labels: map<string, string>, related: (Ref, Ref) -> bool,
                        i: nat)
    requires Closed(tree) && Grouped(tree) && i < |ds.objects|
    ensures EventAnswered(ds.objects[i], tree.seen, Surrounded(tree, ds, root, labels, related).relationships)
  {
    var objs, step, p := ds.objects, EventStep(), PassesOf(tree, ds, root, labels, related);
    PassesGrow(tree, ds, root, labels, related);
    AllStepsGrow(root, labels, KeysWhere(objs, Serving(labels)));
    EachKeeps(p.policies, objs, step, i);
    var before := Each(p.policies, objs[..i], step);
    EventAnswers(objs[i], tree.seen, before);
    AnsweredStays(objs[i], objs, root, labels, tree.seen, step(before, objs[i]).relationships, p.all.relationships);
  }

  /** Everything that the data calls for, in view of what is in the owner tree, is recorded: matching services, budgets
      and policies select every pod; served endpoints and ingresses route; autoscalers target the root; bindings of
      something in the tree bind it and their role; events about something in the tree relate to it; and the root
      relates to the resources of extensions that are related to it. */
  lemma SurroundingsAreRecorded(tree: Scope, ds: Dataset, root: Ref, labels: map<string, string>,
                                related: (Ref, Ref) -> bool)
    requires Closed(tree) && Grouped(tree)
    ensures var rels := Surrounded(tree, ds, root, labels, related).relationships;
            (forall i :: 0 <= i < |ds.objects| ==> ObjectAnswered(ds.objects[i], ds, root, labels, tree.seen, rels)) &&
            (forall e, r :: e in ds.extensions && r in e.resources && related(root, r) ==>
                              HasLink(rels, root, KeyOf(r), Related))
  {
    forall i | 0 <= i < |ds.objects|
      ensures ObjectAnswered(ds.objects[i], ds, root, labels, tree.seen,
                             Surrounded(tree, ds, root, labels, related).relationships)
    {
      ServiceIsAnswered(tree, ds, root, labels, related, i);
      RouteIsAnswered(tree, ds, root, labels, related, i);
      PolicyIsAnswered(tree, ds, root, labels, related, i);
      EventIsAnswered(tree, ds, root, labels, related, i);
    }
    var events := Referred(Networked(tree, ds.objects, labels), ds.objects, root, labels);
    ExtensionsGrow(events, ds.extensions, root, related);
  }
}
