/** Which resources the surroundings of a workload tie together, computed from the data alone. Each step of the
    builder ties the resources of one object to each other: a service to the pods, endpoints to their service, a
    binding to its subject and role, an event to what it is about. What a step ties depends only on the keys that are
    in scope before it, and these in turn are a fold over the data. A set of keys is crossed by no relationship of
    the finished scope exactly when it is crossed by none of the owner tree and every such tie lies inside it or
    outside it. */
module ScopeTies {
  import opened InvestigationScope
  import opened ObjectIndex
  import opened ScopeGrowth

  // ----- what the steps tie -----

  /** Resources without a name are never recorded. */
  function Names(keys: set<Key>): set<Key> {
    set k | k in keys && k.name != ""
  }

  function PodKeys(known: set<Key>): set<Key> {
    set k | k in known && k.kind == "Pod"
  }

  /** The keys that an object ties together, given the keys in scope. */
  type Tie = (set<Key>, Object) -> set<Key>

  function ServiceTie(labels: map<string, string>): Tie {
    (known: set<Key>, o: Object) => if Serving(labels)(o) then {KeyOf(o.ref)} + PodKeys(known) else {}
  }

  function RouteTie(services: set<Key>): Tie {
    (known: set<Key>, o: Object) =>
      if !Routing(services)(o) then {}
      else if o.ref.kind == "Ingress" then {KeyOf(o.ref), KeyOf(o.target.value)}
      else {KeyOf(o.ref), KeyOf(o.owner.value)} + PodKeys(known)
  }

  function PolicyTie(root: Key, labels: map<string, string>): Tie {
    (known: set<Key>, o: Object) =>
      if !Governing(labels, root, known)(o) then {}
      else if o.ref.kind == "HorizontalPodAutoscaler" then {KeyOf(o.ref), root}
      else if o.ref.kind == "RoleBinding" then
        {KeyOf(o.ref), KeyOf(o.target.value)} + if o.role.Some? then {KeyOf(o.role.value)} else {}
      else {KeyOf(o.ref)} + PodKeys(known)
  }

  function EventTie(): Tie {
    (known: set<Key>, o: Object) => if About(known)(o) then {KeyOf(o.ref), KeyOf(o.involved.value)} else {}
  }

  /** The keys in scope after a pass over the objects. */
  function KeysAfter(known: set<Key>, objs: seq<Object>, tie: Tie): set<Key> {
    if objs == [] then known
    else
      var before := KeysAfter(known, objs[..|objs| - 1], tie);
      before + Names(tie(before, objs[|objs| - 1]))
  }

  /** All of the keys lie on one side of the set. */
  predicate Aligned(keys: set<Key>, near: iset<Key>) {
    forall a, b :: a in keys && b in keys && a in near ==> b in near
  }

  /** What each object in turn ties lies on one side. */
  predicate PassAligned(known: set<Key>, objs: seq<Object>, tie: Tie, near: iset<Key>) {
    objs == [] ||
    (PassAligned(known, objs[..|objs| - 1], tie, near) &&
     Aligned(tie(KeysAfter(known, objs[..|objs| - 1], tie), objs[|objs| - 1]), near))
  }

  predicate ExtensionsAligned(exts: seq<Extension>, root: Ref, related: (Ref, Ref) -> bool, near: iset<Key>) {
    forall e, r :: e in exts && r in e.resources && related(root, r) ==> Aligned({KeyOf(root), KeyOf(r)}, near)
  }

  /** Every tie of the data lies on one side, for a workload with these labels that owns these keys. */
  predicate TiesAligned(ds: Dataset, root: Ref, labels: map<string, string>, related: (Ref, Ref) -> bool, own: set<Key>,
                        near: iset<Key>)
  {
    var objs, services := ds.objects, KeysWhere(ds.objects, Serving(labels));
    var served := KeysAfter(Names(own), objs, ServiceTie(labels));
    var routed := KeysAfter(served, objs, RouteTie(services));
    var governed := KeysAfter(routed, objs, PolicyTie(KeyOf(root), labels));
    PassAligned(Names(own), objs, ServiceTie(labels), near) && PassAligned(served, objs, RouteTie(services), near) &&
    PassAligned(routed, objs, PolicyTie(KeyOf(root), labels), near) && PassAligned(governed, objs, EventTie(), near) &&
    ExtensionsAligned(ds.extensions, root, related, near)
  }

  // ----- relationships that cross -----

  predicate NoneCross(rels: seq<Relationship>, near: iset<Key>) {
    forall i :: 0 <= i < |rels| ==> (KeyOf(rels[i].from) in near <==> KeyOf(rels[i].to) in near)
  }

  lemma NoneCrossBoth(a: seq<Relationship>, b: seq<Relationship>, near: iset<Key>)
    ensures NoneCross(a + b, near) <==> NoneCross(a, near) && NoneCross(b, near)
  {
    if NoneCross(a + b, near) {
      assert forall i :: 0 <= i < |a| ==> a[i] == (a + b)[i];
      assert forall i :: 0 <= i < |b| ==> b[i] == (a + b)[|a| + i];
    }
  }

  lemma OneAligns(r: Relationship, near: iset<Key>)
    ensures NoneCross([r], near) <==> Aligned({KeyOf(r.from), KeyOf(r.to)}, near)
  {
    assert NoneCross([r], near) <==> (KeyOf([r][0].from) in near <==> KeyOf([r][0].to) in near);
  }

  /** From the root one gets exactly to what no uncrossed set around the root leaves out. */
  lemma ConnectedIffNeverLeftOut(rels: seq<Relationship>, root: Key, k: Key)
    ensures Connected(rels, root, k) <==> forall near :: NoneCross(rels, near) && root in near ==> k in near
  {
    if Connected(rels, root, k) {
      var p :| Walk(p, rels) && p[0] == root && p[|p| - 1] == k;
      forall near | NoneCross(rels, near) && root in near ensures k in near {
        WalkStaysInside(p, rels, near);
      }
    } else {
      var near := iset x | Connected(rels, root, x);
      ConnectedToItself(rels, root);
      forall i | 0 <= i < |rels| ensures KeyOf(rels[i].from) in near <==> KeyOf(rels[i].to) in near {
        var a, b := KeyOf(rels[i].from), KeyOf(rels[i].to);
        assert Joins(rels[i], a, b) && Joins(rels[i], b, a);
        if a in near { ConnectedFurther(rels, root, a, b); }
        if b in near { ConnectedFurther(rels, root, b, a); }
      }
      assert NoneCross(rels, near) && root in near && k !in near;
    }
  }

  lemma {:induction false} WalkStaysInside(p: seq<Key>, rels: seq<Relationship>, near: iset<Key>)
    requires Walk(p, rels) && NoneCross(rels, near) && p[0] in near
    ensures p[|p| - 1] in near
    decreases |p|
  {
    if |p| > 1 {
      assert Edge(rels, p[0], p[1]);
      forall i | 0 <= i < |p[1..]| - 1 ensures Edge(rels, p[1..][i], p[1..][i + 1]) {
        assert Edge(rels, p[i + 1], p[i + 2]);
      }
      WalkStaysInside(p[1..], rels, near);
    }
  }

  // ----- a step records its tie -----

  /** The relationships join the hub to each of the other keys, and nothing else. */
  ghost predicate Star(rels: seq<Relationship>, hub: Key, keys: set<Key>) {
    (forall i :: 0 <= i < |rels| ==> KeyOf(rels[i].from) in keys && KeyOf(rels[i].to) in keys) &&
    (forall k :: k in keys ==> k == hub || Edge(rels, hub, k))
  }

  /** From s to t the scope has gained the named of the keys, and relationships that tie the keys together. */
  ghost predicate Gathers(s: Scope, t: Scope, hub: Key, keys: set<Key>) {
    t.seen == s.seen + Names(keys) && Closed(t) && Grouped(t) && s.relationships <= t.relationships &&
    Star(t.relationships[|s.relationships|..], hub, keys)
  }

  lemma StarAligns(rels: seq<Relationship>, hub: Key, keys: set<Key>, near: iset<Key>)
    requires Star(rels, hub, keys) && hub in keys
    ensures NoneCross(rels, near) <==> Aligned(keys, near)
  {
    if NoneCross(rels, near) {
      forall k | k in keys ensures k in near <==> hub in near {
        if k != hub {
          var i :| 0 <= i < |rels| && Joins(rels[i], hub, k);
        }
      }
    }
  }

  /** What is tied lies on one side exactly when the step adds no crossing relationship. */
  lemma TiedAligns(s: Scope, t: Scope, hub: Key, keys: set<Key>, near: iset<Key>)
    requires Gathers(s, t, hub, keys) && (keys == {} || hub in keys)
    ensures NoneCross(t.relationships, near) <==> NoneCross(s.relationships, near) && Aligned(keys, near)
  {
    var more := t.relationships[|s.relationships|..];
    assert t.relationships == s.relationships + more;
    NoneCrossBoth(s.relationships, more, near);
    if keys != {} {
      StarAligns(more, hub, keys, near);
    } else {
      assert forall i :: 0 <= i < |more| ==> KeyOf(more[i].from) in keys;
    }
  }

  lemma NothingTied(s: Scope, hub: Key)
    requires Closed(s) && Grouped(s)
    ensures Gathers(s, s, hub, {})
  {
  }

  lemma AddedTied(s: Scope, r: Ref)
    requires Closed(s) && Grouped(s)
    ensures Gathers(s, Added(s, r), KeyOf(r), {KeyOf(r)})
  {
    AddedKeepsGroups(s, r);
  }

  lemma LinkedTied(s: Scope, from: Ref, to: Ref, kind: RelationKind)
    requires Closed(s) && Grouped(s)
    ensures Gathers(s, Linked(s, from, to, kind), KeyOf(from), {KeyOf(from), KeyOf(to)})
    ensures Gathers(s, Linked(s, from, to, kind), KeyOf(to), {KeyOf(from), KeyOf(to)})
  {
    LinkedIsClosed(s, from, to, kind);
    var more := Linked(s, from, to, kind).relationships[|s.relationships|..];
    assert more == [Relationship(from, to, kind)];
    assert Joins(more[0], KeyOf(from), KeyOf(to)) && Joins(more[0], KeyOf(to), KeyOf(from));
  }

  lemma StarsJoin(a: seq<Relationship>, b: seq<Relationship>, hub: Key, x: set<Key>, y: set<Key>)
    requires Star(a, hub, x) && Star(b, hub, y)
    ensures Star(a + b, hub, x + y)
  {
    forall k | k in x + y ensures k == hub || Edge(a + b, hub, k) {
      if k != hub && k in x {
        EdgeOfMore(a, a + b, hub, k);
      } else if k != hub {
        var i :| 0 <= i < |b| && Joins(b[i], hub, k);
        assert Joins((a + b)[|a| + i], hub, k);
      }
    }
  }

  lemma TiedFurther(s: Scope, t: Scope, u: Scope, hub: Key, a: set<Key>, b: set<Key>)
    requires Gathers(s, t, hub, a) && Gathers(t, u, hub, b)
    ensures Gathers(s, u, hub, a + b)
  {
    var first, second := t.relationships[|s.relationships|..], u.relationships[|t.relationships|..];
    StarsJoin(first, second, hub, a, b);
    assert u.relationships[|s.relationships|..] == first + second;
  }

  function EndsOf(refs: seq<Ref>): set<Key> {
    set i | 0 <= i < |refs| :: KeyOf(refs[i])
  }

  /** A resource that is linked to each of a list of others is tied to them. */
  lemma {:induction false} FanTied(s: Scope, r: Ref, refs: seq<Ref>, kind: RelationKind)
    requires Closed(s) && Grouped(s)
    ensures refs != [] ==> Gathers(s, LinkedAll(s, PodEnds(r, refs, kind)), KeyOf(r), {KeyOf(r)} + EndsOf(refs))
    ensures refs == [] ==> LinkedAll(s, PodEnds(r, refs, kind)) == s
  {
    if refs != [] {
      var init, last := refs[..|refs| - 1], refs[|refs| - 1];
      var t := LinkedAll(s, PodEnds(r, init, kind));
      FanTied(s, r, init, kind);
      assert PodEnds(r, refs, kind)[..|refs| - 1] == PodEnds(r, init, kind);
      LinkedTied(t, r, last, kind);
      EndsOfSnoc(init, last);
      assert refs == init + [last];
      if init != [] {
        TiedFurther(s, t, Linked(t, r, last, kind), KeyOf(r), {KeyOf(r)} + EndsOf(init), {KeyOf(r), KeyOf(last)});
        assert {KeyOf(r)} + EndsOf(init) + {KeyOf(r), KeyOf(last)} == {KeyOf(r)} + EndsOf(refs);
      } else {
        assert EndsOf(init) == {};
        assert {KeyOf(r), KeyOf(last)} == {KeyOf(r)} + EndsOf(refs);
      }
    }
  }

  lemma EndsOfSnoc(refs: seq<Ref>, r: Ref)
    ensures EndsOf(refs + [r]) == EndsOf(refs) + {KeyOf(r)}
  {
    var more := refs + [r];
    assert more[|refs|] == r;
    assert forall i :: 0 <= i < |refs| ==> more[i] == refs[i];
  }

  /** The pods of the scope's slice are the pods that it has seen. */
  lemma PodsAreSeen(s: Scope)
    requires Grouped(s)
    ensures EndsOf(Group(s, "Pod")) == PodKeys(s.seen)
  {
    var pods := Group(s, "Pod");
    assert SliceOf(s, "Pod", pods);
    forall k | k in PodKeys(s.seen) ensures k in EndsOf(pods) {
      assert Placed(s, k);
      var i :| 0 <= i < |pods| && KeyOf(pods[i]) == k;
    }
    forall k | k in EndsOf(pods) ensures k in PodKeys(s.seen) {
      var i :| 0 <= i < |pods| && KeyOf(pods[i]) == k;
      assert GroupOf(pods[i].kind) == "Pod";
    }
  }

  lemma PodsTied(s: Scope, r: Ref, kind: RelationKind, pods: set<Key>)
    requires Closed(s) && Grouped(s) && r.kind != "Pod" && pods == PodKeys(s.seen)
    ensures Gathers(s, PodsLinked(s, r, kind), KeyOf(r), if pods == {} then {} else {KeyOf(r)} + pods)
  {
    PodsAreSeen(s);
    FanTied(s, r, Group(s, "Pod"), kind);
    if Group(s, "Pod") == [] {
      NothingTied(s, KeyOf(r));
    } else {
      assert KeyOf(Group(s, "Pod")[0]) in pods;
    }
  }

  lemma SamePods(s: Scope, t: Scope, keys: set<Key>)
    requires t.seen == s.seen + Names(keys) && forall k :: k in keys ==> k.kind != "Pod"
    ensures PodKeys(t.seen) == PodKeys(s.seen)
  {
  }

  /** A resource that is added or linked, and then linked to the pods. */
  lemma ThenPodsTied(s: Scope, t: Scope, r: Ref, kind: RelationKind, keys: set<Key>, pods: set<Key>)
    requires Gathers(s, t, KeyOf(r), keys) && KeyOf(r) in keys && forall k :: k in keys ==> k.kind != "Pod"
    requires pods == PodKeys(s.seen)
    ensures Gathers(s, PodsLinked(t, r, kind), KeyOf(r), keys + pods)
  {
    SamePods(s, t, keys);
    PodsTied(t, r, kind, pods);
    var more := if pods == {} then {} else {KeyOf(r)} + pods;
    HubIsThere(keys, KeyOf(r), pods);
    TiedFurther(s, t, PodsLinked(t, r, kind), KeyOf(r), keys, more);
  }

  lemma HubIsThere(keys: set<Key>, hub: Key, pods: set<Key>)
    requires hub in keys
    ensures keys + (if pods == {} then {} else {hub} + pods) == keys + pods
  {
  }

  lemma ServiceTied(s: Scope, o: Object, labels: map<string, string>)
    requires Closed(s) && Grouped(s)
    ensures Gathers(s, ServiceAdded(s, o, labels), KeyOf(o.ref), ServiceTie(labels)(s.seen, o))
  {
    if Serving(labels)(o) {
      AddedTied(s, o.ref);
      ThenPodsTied(s, Added(s, o.ref), o.ref, Selects, {KeyOf(o.ref)}, PodKeys(s.seen));
    } else {
      NothingTied(s, KeyOf(o.ref));
    }
  }

  lemma RouteTied(s: Scope, o: Object, services: set<Key>)
    requires Closed(s) && Grouped(s) && forall k :: k in services ==> k.kind == "Service"
    ensures Gathers(s, RouteAdded(s, o, services), KeyOf(o.ref), RouteTie(services)(s.seen, o))
  {
    if !Routing(services)(o) {
      NothingTied(s, KeyOf(o.ref));
    } else if o.ref.kind == "Ingress" {
      LinkedTied(s, o.ref, o.target.value, Routes);
    } else {
      var ends := {KeyOf(o.ref), KeyOf(o.owner.value)};
      LinkedTied(s, o.owner.value, o.ref, Routes);
      assert {KeyOf(o.owner.value), KeyOf(o.ref)} == ends;
      assert forall k :: k in ends ==> k.kind != "Pod";
      ThenPodsTied(s, Linked(s, o.owner.value, o.ref, Routes), o.ref, Routes, ends, PodKeys(s.seen));
    }
  }

  lemma PolicyTied(s: Scope, o: Object, root: Ref, labels: map<string, string>)
    requires Closed(s) && Grouped(s)
    ensures Gathers(s, PolicyAdded(s, o, root, labels), KeyOf(o.ref), PolicyTie(KeyOf(root), labels)(s.seen, o))
  {
    if !Governing(labels, KeyOf(root), s.seen)(o) {
      NothingTied(s, KeyOf(o.ref));
    } else if o.ref.kind == "HorizontalPodAutoscaler" {
      LinkedTied(s, o.ref, root, Targets);
    } else if o.ref.kind == "RoleBinding" {
      BindingTied(s, o);
    } else {
      AddedTied(s, o.ref);
      ThenPodsTied(s, Added(s, o.ref), o.ref, Selects, {KeyOf(o.ref)}, PodKeys(s.seen));
    }
  }

  lemma BindingTied(s: Scope, o: Object)
    requires Closed(s) && Grouped(s) && o.target.Some?
    ensures var t := Linked(s, o.ref, o.target.value, Binds);
            Gathers(s, if o.role.Some? then Linked(t, o.ref, o.role.value, Binds) else t, KeyOf(o.ref),
                 {KeyOf(o.ref), KeyOf(o.target.value)} + if o.role.Some? then {KeyOf(o.role.value)} else {})
  {
    var t, ends := Linked(s, o.ref, o.target.value, Binds), {KeyOf(o.ref), KeyOf(o.target.value)};
    LinkedTied(s, o.ref, o.target.value, Binds);
    if o.role.Some? {
      LinkedTied(t, o.ref, o.role.value, Binds);
      TiedFurther(s, t, Linked(t, o.ref, o.role.value, Binds), KeyOf(o.ref), ends, {KeyOf(o.ref), KeyOf(o.role.value)});
      assert ends + {KeyOf(o.ref), KeyOf(o.role.value)} == ends + {KeyOf(o.role.value)};
    } else {
      assert ends + {} == ends;
    }
  }

  lemma EventTied(s: Scope, o: Object)
    requires Closed(s) && Grouped(s)
    ensures Gathers(s, EventAdded(s, o), KeyOf(o.ref), EventTie()(s.seen, o))
  {
    if About(s.seen)(o) {
      assert Added(Added(s, o.ref), o.ref) == Added(s, o.ref);
      LinkedTied(s, o.ref, o.involved.value, Related);
    } else {
      NothingTied(s, KeyOf(o.ref));
    }
  }

  // ----- the passes -----

  /** Each step over the objects records what the tie says. */
  ghost predicate StepsTie(objs: seq<Object>, step: (Scope, Object) -> Scope, tie: Tie) {
    forall s, o {:trigger step(s, o)} :: o in objs && Closed(s) && Grouped(s) ==> StepTies(s, step(s, o), o, tie)
  }

  ghost predicate StepTies(s: Scope, t: Scope, o: Object, tie: Tie) {
    Gathers(s, t, KeyOf(o.ref), tie(s.seen, o)) && (tie(s.seen, o) == {} || KeyOf(o.ref) in tie(s.seen, o))
  }

  /** After a pass: the keys are those of the fold, and a set is uncrossed exactly when it was and the ties align. */
  ghost predicate PassTies(s: Scope, t: Scope, objs: seq<Object>, tie: Tie, near: iset<Key>) {
    Closed(t) && Grouped(t) && t.seen == KeysAfter(s.seen, objs, tie) &&
    (NoneCross(t.relationships, near) <==> NoneCross(s.relationships, near) && PassAligned(s.seen, objs, tie, near))
  }

  lemma {:induction false} EachTies(s: Scope, objs: seq<Object>, step: (Scope, Object) -> Scope, tie: Tie,
                                    near: iset<Key>)
    requires Closed(s) && Grouped(s) && StepsTie(objs, step, tie)
    ensures PassTies(s, Each(s, objs, step), objs, tie, near)
  {
    if objs != [] {
      var init, o := objs[..|objs| - 1], objs[|objs| - 1];
      assert objs == init + [o];
      EachTies(s, init, step, tie, near);
      var before := Each(s, init, step);
      assert StepTies(before, step(before, o), o, tie);
      TiedAligns(before, step(before, o), KeyOf(o.ref), tie(before.seen, o), near);
    }
  }

  lemma ServicesTie(s: Scope, objs: seq<Object>, labels: map<string, string>, near: iset<Key>)
    requires Closed(s) && Grouped(s)
    ensures PassTies(s, Each(s, objs, ServiceStep(labels)), objs, ServiceTie(labels), near)
  {
    forall t, o | o in objs && Closed(t) && Grouped(t)
      ensures StepTies(t, ServiceStep(labels)(t, o), o, ServiceTie(labels))
    {
      ServiceTied(t, o, labels);
    }
    EachTies(s, objs, ServiceStep(labels), ServiceTie(labels), near);
  }

  lemma RoutesTie(s: Scope, objs: seq<Object>, services: set<Key>, near: iset<Key>)
    requires Closed(s) && Grouped(s) && forall k :: k in services ==> k.kind == "Service"
    ensures PassTies(s, Each(s, objs, RouteStep(services)), objs, RouteTie(services), near)
  {
    forall t, o | o in objs && Closed(t) && Grouped(t)
      ensures StepTies(t, RouteStep(services)(t, o), o, RouteTie(services))
    {
      RouteTied(t, o, services);
    }
    EachTies(s, objs, RouteStep(services), RouteTie(services), near);
  }

  lemma PoliciesTie(s: Scope, objs: seq<Object>, root: Ref, labels: map<string, string>, near: iset<Key>)
    requires Closed(s) && Grouped(s)
    ensures PassTies(s, Each(s, objs, PolicyStep(root, labels)), objs, PolicyTie(KeyOf(root), labels), near)
  {
    var tie := PolicyTie(KeyOf(root), labels);
    forall t, o | o in objs && Closed(t) && Grouped(t) ensures StepTies(t, PolicyStep(root, labels)(t, o), o, tie) {
      PolicyTied(t, o, root, labels);
    }
    EachTies(s, objs, PolicyStep(root, labels), tie, near);
  }

  lemma EventsTie(s: Scope, objs: seq<Object>, near: iset<Key>)
    requires Closed(s) && Grouped(s)
    ensures PassTies(s, Each(s, objs, EventStep()), objs, EventTie(), near)
  {
    forall t, o | o in objs && Closed(t) && Grouped(t) ensures StepTies(t, EventStep()(t, o), o, EventTie()) {
      EventTied(t, o);
    }
    EachTies(s, objs, EventStep(), EventTie(), near);
  }

  lemma {:induction false} ResourcesTie(s: Scope, refs: seq<Ref>, root: Ref, related: (Ref, Ref) -> bool,
                                        near: iset<Key>)
    ensures NoneCross(ResourcesLinked(s, refs, root, related).relationships, near) <==>
            NoneCross(s.relationships, near) &&
            forall r :: r in refs && related(root, r) ==> Aligned({KeyOf(root), KeyOf(r)}, near)
  {
    if refs != [] {
      var init, r := refs[..|refs| - 1], refs[|refs| - 1];
      assert refs == init + [r];
      ResourcesTie(s, init, root, related, near);
      if related(root, r) {
        NoneCrossBoth(ResourcesLinked(s, init, root, related).relationships, [Relationship(root, r, Related)], near);
        OneAligns(Relationship(root, r, Related), near);
      }
    }
  }

  lemma {:induction false} ExtensionsTie(s: Scope, exts: seq<Extension>, root: Ref, related: (Ref, Ref) -> bool,
                                         near: iset<Key>)
    ensures NoneCross(ExtensionsLinked(s, exts, root, related).relationships, near) <==>
            NoneCross(s.relationships, near) && ExtensionsAligned(exts, root, related, near)
  {
    if exts != [] {
      var init, e := exts[..|exts| - 1], exts[|exts| - 1];
      assert exts == init + [e];
      ExtensionsTie(s, init, root, related, near);
      ResourcesTie(ExtensionsLinked(s, init, root, related), e.resources, root, related, near);
    }
  }

  /** No relationship of the finished scope crosses the set exactly when none of the owner tree does and the ties
      align. */
  lemma UncrossedIffAligned(tree: Scope, ds: Dataset, root: Ref, labels: map<string, string>,
                            related: (Ref, Ref) -> bool, own: set<Key>, near: iset<Key>)
    requires Closed(tree) && Grouped(tree) && tree.seen == Names(own)
    ensures NoneCross(Surrounded(tree, ds, root, labels, related).relationships, near) <==>
            NoneCross(tree.relationships, near) && TiesAligned(ds, root, labels, related, own, near)
  {
    var objs, services := ds.objects, KeysWhere(ds.objects, Serving(labels));
    ServicesTie(tree, objs, labels, near);
    var a := Each(tree, objs, ServiceStep(labels));
    RoutesTie(a, objs, services, near);
    var b := Each(a, objs, RouteStep(services));
    PoliciesTie(b, objs, root, labels, near);
    var c := Each(b, objs, PolicyStep(root, labels));
    EventsTie(c, objs, near);
    ExtensionsTie(Each(c, objs, EventStep()), ds.extensions, root, related, near);
  }
}
