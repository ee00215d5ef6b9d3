/** What building an investigation scope does to it, as functions on scopes, and why it stays connected
    (internal/investigation/builder.go:8-164). Every loop of the builder is a fold of one step over a list: the walk
    down the owner tree, the references of a pod, services and their routes, policies, events, extensions. For each
    step its growth is described: which resources and relationships it adds, and which pods it marks. */
module ScopeGrowth {
  import opened InvestigationScope
  import opened ObjectIndex

  /** What one of the fields of an object refers to by name. */
  predicate FieldLink(o: Object, r: Relationship) {
    KeyOf(r.from) == KeyOf(o.ref) &&
    match r.kind
    case Mounts =>
      r.to.namespace == r.from.namespace &&
      ((r.to.kind == "ConfigMap" && r.to.name in o.configMaps) || (r.to.kind == "Secret" && r.to.name in o.secrets) ||
       (r.to.kind == "PersistentVolumeClaim" && r.to.name in o.claims))
    case Schedules => r.to.kind == "Node" && r.to.name == o.node && o.node != ""
    case Uses => r.to.kind == "ServiceAccount" && r.to.name == o.serviceAccount && o.serviceAccount != ""
    case _ => false
  }

  predicate FromField(objs: seq<Object>, r: Relationship) {
    exists i :: 0 <= i < |objs| && FieldLink(objs[i], r)
  }

  /** The kinds of relationship in the owner tree. */
  predicate TreeKind(kind: RelationKind) {
    kind.Owns? || kind.Mounts? || kind.Schedules? || kind.Uses?
  }

  /** Ownership is recorded only between an owner and what it owns, or a pod that it owns through others, and a mount, a
      node or an account only where a field of the object names it. */
  ghost predicate TellsTrue(objs: seq<Object>, r: Relationship) {
    (r.kind == Owns ==> OwnsOrPod(objs, r.from, r.to)) &&
    (r.kind.Mounts? || r.kind.Schedules? || r.kind.Uses? ==> FromField(objs, r))
  }

  ghost predicate OwnsOrPod(objs: seq<Object>, owner: Ref, r: Ref) {
    if r.kind == "Pod" then Descends(objs, KeyOf(owner), KeyOf(r)) else ObjectIndex.Owns(objs, KeyOf(owner), KeyOf(r))
  }

  ghost predicate TellsTruly(objs: seq<Object>, rels: seq<Relationship>) {
    forall i :: 0 <= i < |rels| ==> TellsTrue(objs, rels[i])
  }

  ghost predicate Built(s: Scope, objs: seq<Object>, root: Key, hasPods: bool, pending: set<Key>) {
    Sound(s, root, hasPods, pending) && TellsTruly(objs, s.relationships) &&
    (hasPods ==> Group(s, "Pod") != [] && forall k :: k in pending ==> k.kind != "Pod")
  }

  /** What pods and workloads refer to by name. */
  predicate Mountable(kind: string) {
    kind == "Node" || kind == "ConfigMap" || kind == "Secret" || kind == "PersistentVolumeClaim" ||
    kind == "ServiceAccount"
  }

  /** What is in scope is the root, descends from it, or is of a kind that these refer to by name. In particular, the
      pods in scope are the root or descend from it. */
  ghost predicate OnlyOwn(s: Scope, objs: seq<Object>, root: Key) {
    forall k :: k in s.seen && !Mountable(k.kind) ==> k == root || Descends(objs, root, k)
  }

  /** While the owner tree is walked: connected even before the first pod is found. */
  ghost predicate Owned(s: Scope, objs: seq<Object>, root: Key) {
    Sound(s, root, true, {}) && TellsTruly(objs, s.relationships) && OnlyOwn(s, objs, root)
  }

  ghost predicate Reaches(s: Scope, root: Key, k: Key) {
    Connected(s.relationships, root, k) && InScope(s, k)
  }

  lemma LinkedIsOwned(s: Scope, objs: seq<Object>, root: Key, from: Ref, to: Ref, kind: RelationKind)
    requires Owned(s, objs, root) && Reaches(s, root, KeyOf(from)) && TellsTrue(objs, Relationship(from, to, kind))
    requires !Mountable(to.kind) ==> Descends(objs, root, KeyOf(to))
    ensures var t := Linked(s, from, to, kind);
            Owned(t, objs, root) && Grows(s, t) && Reaches(t, root, KeyOf(from)) && Reaches(t, root, KeyOf(to))
  {
    LinkedIsSound(s, from, to, kind, root, true, {});
    var t := Linked(s, from, to, kind);
    assert {} - {KeyOf(from), KeyOf(to)} == {};
    assert t.relationships == s.relationships + [Relationship(from, to, kind)];
  }

  // ----- lists of relationships -----

  /** The scope after linking each relationship of the list in turn. */
  function LinkedAll(s: Scope, rels: seq<Relationship>): Scope {
    if rels == [] then s
    else
      var r := rels[|rels| - 1];
      Linked(LinkedAll(s, rels[..|rels| - 1]), r.from, r.to, r.kind)
  }

  lemma LinkedAllFurther(s: Scope, rels: seq<Relationship>, r: Relationship)
    ensures LinkedAll(s, rels + [r]) == Linked(LinkedAll(s, rels), r.from, r.to, r.kind)
  {
    assert (rels + [r])[..|rels|] == rels;
  }

  lemma LinkedAllUpTo(s: Scope, rels: seq<Relationship>, i: nat)
    requires i < |rels|
    ensures LinkedAll(s, rels[..i + 1]) == Linked(LinkedAll(s, rels[..i]), rels[i].from, rels[i].to, rels[i].kind)
  {
    assert rels[..i + 1] == rels[..i] + [rels[i]];
    LinkedAllFurther(s, rels[..i], rels[i]);
  }

  lemma {:induction false} LinkedAllOfBoth(s: Scope, a: seq<Relationship>, b: seq<Relationship>)
    ensures LinkedAll(s, a + b) == LinkedAll(LinkedAll(s, a), b)
    decreases |b|
  {
    if b == [] {
      assert a + b == a;
    } else {
      var r := b[|b| - 1];
      assert a + b == (a + b[..|b| - 1]) + [r];
      LinkedAllOfBoth(s, a, b[..|b| - 1]);
      LinkedAllFurther(s, a + b[..|b| - 1], r);
    }
  }

  lemma {:induction false} LinkedAllRelationships(s: Scope, rels: seq<Relationship>)
    ensures LinkedAll(s, rels).relationships == s.relationships + rels
    ensures LinkedAll(s, rels).namespace == s.namespace
  {
    if rels != [] {
      LinkedAllRelationships(s, rels[..|rels| - 1]);
      assert rels == rels[..|rels| - 1] + [rels[|rels| - 1]];
    }
  }

  /** Relationships from a resource to named resources of a kind, as linkRefs records them. */
  function MountsOf(from: Ref, kind: string, names: seq<string>): (r: seq<Relationship>)
    ensures |r| == |names|
  {
    seq(|names|, i requires 0 <= i < |names| => Relationship(from, Ref(kind, names[i], from.namespace, ""), Mounts))
  }

  /** What a pod is linked to: its node, what it mounts, and its service account. */
  function PodRelationships(pod: Object): seq<Relationship> {
    (if pod.node != "" then [Relationship(pod.ref, Ref("Node", pod.node, "", ""), Schedules)] else []) +
    MountsOf(pod.ref, "ConfigMap", pod.configMaps) +
    MountsOf(pod.ref, "Secret", pod.secrets) +
    MountsOf(pod.ref, "PersistentVolumeClaim", pod.claims) +
    (if pod.serviceAccount != ""
     then [Relationship(pod.ref, Ref("ServiceAccount", pod.serviceAccount, pod.ref.namespace, ""), Uses)] else [])
  }

  /** Relationships that fan out from one resource to resources that are not pods. */
  predicate FansOut(objs: seq<Object>, from: Key, rels: seq<Relationship>) {
    forall i :: 0 <= i < |rels| ==>
                  KeyOf(rels[i].from) == from && Mountable(rels[i].to.kind) && rels[i].kind != Owns &&
                  FromField(objs, rels[i])
  }

  lemma {:induction false} FanIsOwned(s: Scope, objs: seq<Object>, root: Key, from: Key, rels: seq<Relationship>)
    requires Owned(s, objs, root) && Reaches(s, root, from) && FansOut(objs, from, rels)
    ensures Expanded(s, LinkedAll(s, rels), objs, root, from)
  {
    if rels != [] {
      FanIsOwned(s, objs, root, from, rels[..|rels| - 1]);
      var r := rels[|rels| - 1];
      LinkedIsOwned(LinkedAll(s, rels[..|rels| - 1]), objs, root, r.from, r.to, r.kind);
    }
  }

  lemma PodFieldLinks(pod: Object, i: nat)
    requires i < |PodRelationships(pod)|
    ensures var r := PodRelationships(pod)[i]; FieldLink(pod, r) && Mountable(r.to.kind) && r.kind != Owns
  {
    var r := PodRelationships(pod)[i];
    assert r in PodRelationships(pod);
    InMounts(pod.ref, "ConfigMap", pod.configMaps, r);
    InMounts(pod.ref, "Secret", pod.secrets, r);
    InMounts(pod.ref, "PersistentVolumeClaim", pod.claims, r);
  }

  lemma InMounts(from: Ref, kind: string, names: seq<string>, r: Relationship)
    ensures r in MountsOf(from, kind, names) <==>
            r.from == from && r.kind == Mounts && r.to == Ref(kind, r.to.name, from.namespace, "") && r.to.name in names
  {
    var rels := MountsOf(from, kind, names);
    if r in rels {
      var i :| 0 <= i < |rels| && rels[i] == r;
      assert names[i] == r.to.name;
    }
    if r.from == from && r.kind == Mounts && r.to == Ref(kind, r.to.name, from.namespace, "") && r.to.name in names {
      var i :| 0 <= i < |names| && names[i] == r.to.name;
      assert rels[i] == r;
    }
  }

  lemma PodFansOut(objs: seq<Object>, pod: Object)
    requires pod in objs
    ensures FansOut(objs, KeyOf(pod.ref), PodRelationships(pod))
  {
    var rels := PodRelationships(pod);
    var j :| 0 <= j < |objs| && objs[j] == pod;
    forall i | 0 <= i < |rels|
      ensures KeyOf(rels[i].from) == KeyOf(pod.ref) && Mountable(rels[i].to.kind) && rels[i].kind != Owns
      ensures FromField(objs, rels[i])
    {
      PodFieldLinks(pod, i);
      assert FieldLink(objs[j], rels[i]);
    }
  }

  lemma ChildShrinks(objs: seq<Object>, from: Ref, gc: Object)
    requires Acyclic(objs) && gc in Children(objs, KeyOf(from))
    ensures |Below(objs, KeyOf(gc.ref))| < |Below(objs, KeyOf(from))|
    ensures Descends(objs, KeyOf(from), KeyOf(gc.ref)) && OwnsOrPod(objs, from, gc.ref)
  {
    ChildIsOwned(objs, gc, KeyOf(from));
    ChildDescends(objs, KeyOf(from), KeyOf(gc.ref));
    FewerBelowAChild(objs, KeyOf(from), KeyOf(gc.ref));
  }

  /** The root or something below it. */
  ghost predicate AtOrBelow(objs: seq<Object>, root: Key, k: Key) {
    k == root || Descends(objs, root, k)
  }

  lemma AtOrBelowFurther(objs: seq<Object>, root: Key, k: Key, x: Key)
    requires AtOrBelow(objs, root, k) && Descends(objs, k, x)
    ensures Descends(objs, root, x)
  {
    if k != root {
      DescendsIsTransitive(objs, root, k, x);
    }
  }

  lemma ChildLinkIsOwned(s: Scope, objs: seq<Object>, root: Key, from: Ref, gc: Object)
    requires Owned(s, objs, root) && Reaches(s, root, KeyOf(from)) && AtOrBelow(objs, root, KeyOf(from))
    requires Descends(objs, KeyOf(from), KeyOf(gc.ref)) && OwnsOrPod(objs, from, gc.ref)
    ensures var t := Linked(s, from, gc.ref, Owns);
            Owned(t, objs, root) && Grows(s, t) && Reaches(t, root, KeyOf(from)) && Reaches(t, root, KeyOf(gc.ref))
    ensures AtOrBelow(objs, root, KeyOf(gc.ref))
  {
    AtOrBelowFurther(objs, root, KeyOf(from), KeyOf(gc.ref));
    LinkedIsOwned(s, objs, root, from, gc.ref, Owns);
  }

  lemma ReachesAfter(s: Scope, t: Scope, root: Key, k: Key)
    requires Grows(s, t) && Reaches(s, root, k)
    ensures Reaches(t, root, k)
  {
    ConnectedAfter(s, t, root, k);
  }

  /** The scope after the walk over the first n children, and everything below them. A pod is expanded, not descended
      into. */
  ghost function Walked(s: Scope, objs: seq<Object>, from: Ref, n: nat): Scope
    requires Acyclic(objs) && n <= |Children(objs, KeyOf(from))|
    decreases |Below(objs, KeyOf(from))|, n
  {
    if n == 0 then s
    else
      var gc := Children(objs, KeyOf(from))[n - 1];
      ChildShrinks(objs, from, gc);
      WalkedBelow(Linked(Walked(s, objs, from, n - 1), from, gc.ref, Owns), objs, from, gc)
  }

  /** The pods that the walk marks. */
  ghost function Marks(objs: seq<Object>, from: Ref, n: nat): set<Key>
    requires Acyclic(objs) && n <= |Children(objs, KeyOf(from))|
    decreases |Below(objs, KeyOf(from))|, n
  {
    if n == 0 then {}
    else
      var gc := Children(objs, KeyOf(from))[n - 1];
      ChildShrinks(objs, from, gc);
      Marks(objs, from, n - 1) +
      if gc.ref.kind == "Pod" then {KeyOf(gc.ref)} else Marks(objs, gc.ref, |Children(objs, KeyOf(gc.ref))|)
  }

  /** What the walk adds for one child, after the link to it. */
  ghost function WalkedBelow(t: Scope, objs: seq<Object>, from: Ref, gc: Object): Scope
    requires Acyclic(objs) && gc in Children(objs, KeyOf(from))
    decreases |Below(objs, KeyOf(from))|, 0
  {
    ChildShrinks(objs, from, gc);
    if gc.ref.kind == "Pod" then LinkedAll(t, PodRelationships(gc))
    else Walked(t, objs, gc.ref, |Children(objs, KeyOf(gc.ref))|)
  }

  lemma WalkedNext(s: Scope, objs: seq<Object>, from: Ref, n: nat)
    requires Acyclic(objs) && n < |Children(objs, KeyOf(from))|
    ensures var gc := Children(objs, KeyOf(from))[n];
            Walked(s, objs, from, n + 1) ==
            WalkedBelow(Linked(Walked(s, objs, from, n), from, gc.ref, Owns), objs, from, gc)
  {
  }

  lemma MarksNext(objs: seq<Object>, from: Ref, n: nat)
    requires Acyclic(objs) && n < |Children(objs, KeyOf(from))|
    ensures var gc := Children(objs, KeyOf(from))[n];
            Marks(objs, from, n + 1) == Marks(objs, from, n) +
              if gc.ref.kind == "Pod" then {KeyOf(gc.ref)} else Marks(objs, gc.ref, |Children(objs, KeyOf(gc.ref))|)
  {
  }

  lemma MarkedOneMore(marked: set<Key>, objs: seq<Object>, from: Ref, n: nat)
    requires Acyclic(objs) && n < |Children(objs, KeyOf(from))|
    ensures var gc := Children(objs, KeyOf(from))[n];
            marked + Marks(objs, from, n + 1) == marked + Marks(objs, from, n) +
              if gc.ref.kind == "Pod" then {KeyOf(gc.ref)} else Marks(objs, gc.ref, |Children(objs, KeyOf(gc.ref))|)
  {
    MarksNext(objs, from, n);
  }

  /** Linking one child and what lies below it. */
  lemma ChildIsExpanded(a: Scope, objs: seq<Object>, root: Key, from: Ref, gc: Object)
    requires Acyclic(objs) && gc in Children(objs, KeyOf(from))
    requires Owned(a, objs, root) && Reaches(a, root, KeyOf(from)) && AtOrBelow(objs, root, KeyOf(from))
    ensures Expanded(a, WalkedBelow(Linked(a, from, gc.ref, Owns), objs, from, gc), objs, root, KeyOf(from))
    decreases |Below(objs, KeyOf(from))|, 0
  {
    ChildShrinks(objs, from, gc);
    ChildLinkIsOwned(a, objs, root, from, gc);
    var b := Linked(a, from, gc.ref, Owns);
    if gc.ref.kind == "Pod" {
      PodFansOut(objs, gc);
      FanIsOwned(b, objs, root, KeyOf(gc.ref), PodRelationships(gc));
    } else {
      ChildrenAreOwned(b, objs, root, gc.ref, |Children(objs, KeyOf(gc.ref))|);
    }
    ExpandedAround(a, b, WalkedBelow(b, objs, from, gc), objs, root, KeyOf(from), KeyOf(gc.ref));
  }

  /** Walking the owner tree keeps the scope connected, and brings in no pods but the root's. */
  lemma {:induction false} ChildrenAreOwned(s: Scope, objs: seq<Object>, root: Key, from: Ref, n: nat)
    requires Acyclic(objs) && n <= |Children(objs, KeyOf(from))|
    requires Owned(s, objs, root) && Reaches(s, root, KeyOf(from)) && AtOrBelow(objs, root, KeyOf(from))
    ensures Expanded(s, Walked(s, objs, from, n), objs, root, KeyOf(from))
    decreases |Below(objs, KeyOf(from))|, n + 1
  {
    if n > 0 {
      var gc := Children(objs, KeyOf(from))[n - 1];
      ChildrenAreOwned(s, objs, root, from, n - 1);
      var a := Walked(s, objs, from, n - 1);
      ChildIsExpanded(a, objs, root, from, gc);
      ExpandedFurther(s, a, WalkedBelow(Linked(a, from, gc.ref, Owns), objs, from, gc), objs, root, KeyOf(from));
      WalkedNext(s, objs, from, n - 1);
    }
  }

  /** s has grown to t around a resource that is still reached, and t is as it should be. */
  ghost predicate Expanded(s: Scope, t: Scope, objs: seq<Object>, root: Key, k: Key) {
    Owned(t, objs, root) && Grows(s, t) && Reaches(t, root, k)
  }

  lemma ExpandedFurther(s: Scope, t: Scope, u: Scope, objs: seq<Object>, root: Key, k: Key)
    requires Grows(s, t) && Expanded(t, u, objs, root, k)
    ensures Expanded(s, u, objs, root, k)
  {
  }

  lemma ExpandedAround(s: Scope, t: Scope, u: Scope, objs: seq<Object>, root: Key, k: Key, x: Key)
    requires Grows(s, t) && Reaches(t, root, k) && Expanded(t, u, objs, root, x)
    ensures Expanded(s, u, objs, root, k)
  {
    ReachesAfter(t, u, root, k);
  }

  /** The pods marked as expanded are in scope. */
  predicate MarkedInScope(s: Scope, marked: set<Key>) {
    forall k :: k in marked ==> InScope(s, k)
  }

  // ----- every pod is expanded -----

  predicate Records(rels: seq<Relationship>, part: seq<Relationship>) {
    forall r :: r in part ==> r in rels
  }

  /** Each of the names is recorded as mounted. */
  predicate RecordsMounts(rels: seq<Relationship>, from: Ref, kind: string, names: seq<string>) {
    forall n :: n in names ==> Relationship(from, Ref(kind, n, from.namespace, ""), Mounts) in rels
  }

  /** What an object's fields name is recorded: what it mounts, and its service account. */
  predicate RecordsMountsAndAccount(rels: seq<Relationship>, from: Ref, o: Object, accountNamespace: string) {
    RecordsMounts(rels, from, "ConfigMap", o.configMaps) && RecordsMounts(rels, from, "Secret", o.secrets) &&
    RecordsMounts(rels, from, "PersistentVolumeClaim", o.claims) &&
    (o.serviceAccount != "" ==>
       Relationship(from, Ref("ServiceAccount", o.serviceAccount, accountNamespace, ""), Uses) in rels)
  }

  /** What the fields of a pod name is recorded, and its node. */
  predicate RecordsPod(rels: seq<Relationship>, pod: Object) {
    RecordsMountsAndAccount(rels, pod.ref, pod, pod.ref.namespace) &&
    (pod.node != "" ==> Relationship(pod.ref, Ref("Node", pod.node, "", ""), Schedules) in rels)
  }

  lemma MountsAreRecorded(rels: seq<Relationship>, from: Ref, kind: string, names: seq<string>)
    requires Records(rels, MountsOf(from, kind, names))
    ensures RecordsMounts(rels, from, kind, names)
  {
    forall n | n in names ensures Relationship(from, Ref(kind, n, from.namespace, ""), Mounts) in rels {
      InMounts(from, kind, names, Relationship(from, Ref(kind, n, from.namespace, ""), Mounts));
    }
  }

  lemma PodIsRecorded(rels: seq<Relationship>, pod: Object)
    requires Records(rels, PodRelationships(pod))
    ensures RecordsPod(rels, pod)
  {
    MountsAreRecorded(rels, pod.ref, "ConfigMap", pod.configMaps);
    MountsAreRecorded(rels, pod.ref, "Secret", pod.secrets);
    MountsAreRecorded(rels, pod.ref, "PersistentVolumeClaim", pod.claims);
  }

  /** What an object with this key refers to is recorded. */
  ghost predicate PodExpanded(objs: seq<Object>, rels: seq<Relationship>, k: Key) {
    exists o :: o in objs && KeyOf(o.ref) == k && RecordsPod(rels, o)
  }

  ghost predicate PodsExpanded(objs: seq<Object>, rels: seq<Relationship>, marked: set<Key>) {
    forall k {:trigger PodExpanded(objs, rels, k)} :: k in marked ==> PodExpanded(objs, rels, k)
  }

  lemma PodExpandedInMore(objs: seq<Object>, rels: seq<Relationship>, more: seq<Relationship>, k: Key)
    requires PodExpanded(objs, rels, k) && Records(more, rels)
    ensures PodExpanded(objs, more, k)
  {
    var o :| o in objs && KeyOf(o.ref) == k && RecordsPod(rels, o);
    assert RecordsPod(more, o);
  }

  lemma PodsExpandedInMore(objs: seq<Object>, rels: seq<Relationship>, more: seq<Relationship>, marked: set<Key>)
    requires PodsExpanded(objs, rels, marked) && Records(more, rels)
    ensures PodsExpanded(objs, more, marked)
  {
    forall k | k in marked ensures PodExpanded(objs, more, k) {
      PodExpandedInMore(objs, rels, more, k);
    }
  }

  /** The pods marked as expanded are in scope, and expanded. */
  ghost predicate Marked(s: Scope, objs: seq<Object>, marked: set<Key>) {
    MarkedInScope(s, marked) && PodsExpanded(objs, s.relationships, marked)
  }

  lemma MarkedAfter(s: Scope, t: Scope, objs: seq<Object>, marked: set<Key>)
    requires Grows(s, t) && Marked(s, objs, marked)
    ensures Marked(t, objs, marked)
  {
    PodsExpandedInMore(objs, s.relationships, t.relationships, marked);
  }

  lemma PodsStay(s: Scope, r: Ref)
    ensures Group(s, "Pod") <= Group(Added(s, r), "Pod")
    ensures r.kind != "Pod" || InScope(s, KeyOf(r)) ==> Group(s, "Pod") == Group(Added(s, r), "Pod")
  {
  }

  lemma LinkedIsBuilt(s: Scope, objs: seq<Object>, root: Key, hasPods: bool, pending: set<Key>, from: Ref, to: Ref,
                      kind: RelationKind)
    requires Built(s, objs, root, hasPods, pending) && !TreeKind(kind)
    requires hasPods ==> Connected(s.relationships, root, KeyOf(from)) || Connected(s.relationships, root, KeyOf(to))
    ensures var t := Linked(s, from, to, kind);
            Built(t, objs, root, hasPods, pending - {KeyOf(from), KeyOf(to)}) && Grows(s, t) &&
            InScope(t, KeyOf(from)) && InScope(t, KeyOf(to)) &&
            (hasPods ==> Connected(t.relationships, root, KeyOf(from)) && Connected(t.relationships, root, KeyOf(to)))
  {
    LinkedIsSound(s, from, to, kind, root, hasPods, pending);
    PodsStay(s, from);
    PodsStay(Added(s, from), to);
    var t := Linked(s, from, to, kind);
    assert t.groups == Added(Added(s, from), to).groups;
    assert t.relationships == s.relationships + [Relationship(from, to, kind)];
  }

  lemma AddedIsBuilt(s: Scope, objs: seq<Object>, root: Key, hasPods: bool, r: Ref)
    requires Built(s, objs, root, hasPods, {}) && r.kind != "Pod"
    ensures Built(Added(s, r), objs, root, hasPods, {KeyOf(r)}) && Grows(s, Added(s, r)) &&
            InScope(Added(s, r), KeyOf(r))
  {
    AddedIsSound(s, r, root, hasPods, {});
    PodsStay(s, r);
  }

  lemma OwnedIsBuilt(s: Scope, objs: seq<Object>, root: Key)
    requires Owned(s, objs, root)
    ensures Built(s, objs, root, Group(s, "Pod") != [], {})
  {
  }

  lemma StartIsOwned(namespace_: string, objs: seq<Object>, root: Ref)
    ensures var s := Added(Scope(namespace_, map[], [], {}), root);
            Owned(s, objs, KeyOf(root)) && Reaches(s, KeyOf(root), KeyOf(root))
  {
    var empty := Scope(namespace_, map[], [], {});
    AddedIsSound(empty, root, KeyOf(root), false, {});
    ConnectedToItself([], KeyOf(root));
  }

  lemma MarksStay(s: Scope, t: Scope, marked: set<Key>)
    requires Grows(s, t) && MarkedInScope(s, marked)
    ensures MarkedInScope(t, marked)
  {
  }

  lemma RootChildIsExpanded(s: Scope, objs: seq<Object>, root: Ref, child: Object)
    requires Acyclic(objs) && child in Children(objs, KeyOf(root))
    requires Owned(s, objs, KeyOf(root)) && Reaches(s, KeyOf(root), KeyOf(root))
    ensures var t := Walked(Linked(s, root, child.ref, Owns), objs, child.ref, |Children(objs, KeyOf(child.ref))|);
            Expanded(s, t, objs, KeyOf(root), KeyOf(root))
  {
    ChildShrinks(objs, root, child);
    ChildLinkIsOwned(s, objs, KeyOf(root), root, child);
    var b := Linked(s, root, child.ref, Owns);
    var n := |Children(objs, KeyOf(child.ref))|;
    ChildrenAreOwned(b, objs, KeyOf(root), child.ref, n);
    ExpandedAround(s, b, Walked(b, objs, child.ref, n), objs, KeyOf(root), KeyOf(root), KeyOf(child.ref));
  }

  lemma ListGrows(s: Scope, rels: seq<Relationship>)
    ensures Grows(s, LinkedAll(s, rels))
  {
    SeenStays(s, rels);
    LinkedAllRelationships(s, rels);
  }

  lemma {:induction false} SeenStays(s: Scope, rels: seq<Relationship>)
    ensures s.seen <= LinkedAll(s, rels).seen
  {
    if rels != [] {
      SeenStays(s, rels[..|rels| - 1]);
    }
  }

  lemma PodIsMarked(b: Scope, objs: seq<Object>, pod: Object, marked: set<Key>)
    requires pod in objs && InScope(b, KeyOf(pod.ref)) && Marked(b, objs, marked)
    ensures Marked(LinkedAll(b, PodRelationships(pod)), objs, marked + {KeyOf(pod.ref)})
  {
    var t := LinkedAll(b, PodRelationships(pod));
    ListGrows(b, PodRelationships(pod));
    MarkedAfter(b, t, objs, marked);
    LinkedAllRelationships(b, PodRelationships(pod));
    PodIsRecorded(t.relationships, pod);
    assert PodExpanded(objs, t.relationships, KeyOf(pod.ref));
  }

  lemma StrayPodIsExpanded(s: Scope, objs: seq<Object>, root: Ref, pod: Ref, rels: seq<Relationship>)
    requires Owned(s, objs, KeyOf(root)) && Reaches(s, KeyOf(root), KeyOf(root))
    requires Descends(objs, KeyOf(root), KeyOf(pod)) && pod.kind == "Pod" && FansOut(objs, KeyOf(pod), rels)
    ensures var t := LinkedAll(Linked(s, root, pod, Owns), rels);
            Expanded(s, t, objs, KeyOf(root), KeyOf(root)) && InScope(t, KeyOf(pod))
  {
    LinkedIsOwned(s, objs, KeyOf(root), root, pod, Owns);
    var b := Linked(s, root, pod, Owns);
    FanIsOwned(b, objs, KeyOf(root), KeyOf(pod), rels);
    ExpandedAround(s, b, LinkedAll(b, rels), objs, KeyOf(root), KeyOf(root), KeyOf(pod));
  }

  /** A pod that the walk has not expanded is linked to the root and expanded as the index knows it. */
  function StrayLinked(s: Scope, objs: seq<Object>, root: Ref, pod: Ref): Scope {
    LinkedAll(Linked(s, root, pod, Owns),
              if KeyOf(pod) in ByKey(objs) then PodRelationships(ByKey(objs)[KeyOf(pod)]) else [])
  }

  lemma StrayIsMarked(s: Scope, objs: seq<Object>, root: Ref, pod: Ref, marked: set<Key>)
    requires Owned(s, objs, KeyOf(root)) && Reaches(s, KeyOf(root), KeyOf(root)) && Marked(s, objs, marked)
    requires Descends(objs, KeyOf(root), KeyOf(pod)) && pod.kind == "Pod"
    ensures var t := StrayLinked(s, objs, root, pod);
            Expanded(s, t, objs, KeyOf(root), KeyOf(root)) && Marked(t, objs, marked + {KeyOf(pod)})
  {
    DescendantIsIndexed(objs, KeyOf(root), KeyOf(pod));
    var o := ByKey(objs)[KeyOf(pod)];
    PodFansOut(objs, o);
    StrayPodIsExpanded(s, objs, root, pod, PodRelationships(o));
    var t := StrayLinked(s, objs, root, pod);
    MarkedAfter(s, t, objs, marked);
    LinkedAllRelationships(Linked(s, root, pod, Owns), PodRelationships(o));
    PodIsRecorded(t.relationships, o);
    assert PodExpanded(objs, t.relationships, KeyOf(pod));
  }

  lemma DescendantIsIndexed(objs: seq<Object>, root: Key, k: Key)
    requires Descends(objs, root, k)
    ensures k in ByKey(objs)
  {
    var o := DescendantIsOwnedBelow(objs, root, k);
    ByKeyHasAll(objs);
    var i :| 0 <= i < |objs| && objs[i] == o;
    assert k in Keys(objs);
  }

  /** The pods of the root, if named, are in scope, and what each refers to is recorded. */
  ghost predicate HasOwnPods(s: Scope, objs: seq<Object>, root: Key) {
    forall k: Key :: k.kind == "Pod" && Descends(objs, root, k) ==>
                       InScope(s, k) && PodExpanded(objs, s.relationships, k)
  }

  predicate AllMarked(pods: seq<Ref>, marked: set<Key>) {
    forall j :: 0 <= j < |pods| ==> KeyOf(pods[j]) in marked
  }

  lemma AllMarkedFurther(pods: seq<Ref>, i: nat, marked: set<Key>)
    requires i < |pods| && AllMarked(pods[..i], marked)
    ensures AllMarked(pods[..i + 1], marked + {KeyOf(pods[i])})
  {
    assert pods[..i + 1] == pods[..i] + [pods[i]];
  }

  lemma MarkedPodsAreAll(s: Scope, objs: seq<Object>, root: Key, pods: seq<Ref>, marked: set<Key>)
    requires Marked(s, objs, marked) && AllMarked(pods, marked)
    requires ArePodsBelow(objs, root, pods)
    ensures HasOwnPods(s, objs, root)
  {
  }

  // ----- what selects, routes to, and refers to the workload -----

  /** Relationships from one resource to each of the pods. */
  function PodEnds(from: Ref, pods: seq<Ref>, kind: RelationKind): (r: seq<Relationship>)
    ensures |r| == |pods|
  {
    seq(|pods|, i requires 0 <= i < |pods| => Relationship(from, pods[i], kind))
  }

  /** Linking a resource to every pod in scope. */
  function PodsLinked(s: Scope, r: Ref, kind: RelationKind): Scope {
    LinkedAll(s, PodEnds(r, Group(s, "Pod"), kind))
  }

  /** t extends s in the course of the building. */
  ghost predicate Extends(s: Scope, t: Scope, objs: seq<Object>, root: Key, hasPods: bool) {
    Built(t, objs, root, hasPods, {}) && Grows(s, t)
  }

  ghost predicate Attached(s: Scope, root: Key, hasPods: bool, k: Key) {
    (hasPods ==> Connected(s.relationships, root, k)) && InScope(s, k)
  }

  lemma AttachedAfter(s: Scope, t: Scope, root: Key, hasPods: bool, k: Key)
    requires Grows(s, t) && Attached(s, root, hasPods, k)
    ensures Attached(t, root, hasPods, k)
  {
    if hasPods {
      ConnectedAfter(s, t, root, k);
    }
  }

  lemma PodIsAttached(s: Scope, objs: seq<Object>, root: Key, hasPods: bool, pending: set<Key>, i: nat)
    requires Built(s, objs, root, hasPods, pending) && i < |Group(s, "Pod")|
    ensures Attached(s, root, hasPods, KeyOf(Group(s, "Pod")[i]))
  {
    assert SliceOf(s, "Pod", Group(s, "Pod"));
    assert GroupOf(Group(s, "Pod")[i].kind) == "Pod" && KeyOf(Group(s, "Pod")[i]) in s.seen;
  }

  /** After the first i links from r: r is pending until its first link. */
  ghost predicate Fanning(s: Scope, t: Scope, objs: seq<Object>, root: Key, hasPods: bool, r: Ref, i: nat) {
    Built(t, objs, root, hasPods, if i == 0 then {KeyOf(r)} else {}) && Grows(s, t) && InScope(t, KeyOf(r)) &&
    Group(t, "Pod") == Group(s, "Pod") && (hasPods && i > 0 ==> Connected(t.relationships, root, KeyOf(r)))
  }

  lemma FanningFurther(s: Scope, t: Scope, objs: seq<Object>, root: Key, hasPods: bool, r: Ref, kind: RelationKind,
                       i: nat)
    requires Fanning(s, t, objs, root, hasPods, r, i) && i < |Group(s, "Pod")| && r.kind != "Pod" && !TreeKind(kind)
    ensures Fanning(s, Linked(t, r, Group(s, "Pod")[i], kind), objs, root, hasPods, r, i + 1)
  {
    var pending := if i == 0 then {KeyOf(r)} else {};
    var pod := Group(t, "Pod")[i];
    PodIsAttached(t, objs, root, hasPods, pending, i);
    LinkedIsBuilt(t, objs, root, hasPods, pending, r, pod, kind);
    assert pending - {KeyOf(r), KeyOf(pod)} == {};
    PodsStay(t, r);
    PodsStay(Added(t, r), pod);
  }

  lemma {:induction false} FanIsBuilt(s: Scope, objs: seq<Object>, root: Key, hasPods: bool, r: Ref,
                                      kind: RelationKind, i: nat)
    requires Built(s, objs, root, hasPods, {KeyOf(r)}) && InScope(s, KeyOf(r)) && r.kind != "Pod" && !TreeKind(kind)
    requires i <= |Group(s, "Pod")|
    ensures Fanning(s, LinkedAll(s, PodEnds(r, Group(s, "Pod"), kind)[..i]), objs, root, hasPods, r, i)
  {
    var rels := PodEnds(r, Group(s, "Pod"), kind);
    if i == 0 {
      assert rels[..0] == [];
    } else {
      FanIsBuilt(s, objs, root, hasPods, r, kind, i - 1);
      FanningFurther(s, LinkedAll(s, rels[..i - 1]), objs, root, hasPods, r, kind, i - 1);
      LinkedAllUpTo(s, rels, i - 1);
    }
  }

  lemma PodsLinkedIsBuilt(s: Scope, objs: seq<Object>, root: Key, hasPods: bool, r: Ref, kind: RelationKind)
    requires Built(s, objs, root, hasPods, {KeyOf(r)}) && InScope(s, KeyOf(r)) && r.kind != "Pod" && !TreeKind(kind)
    ensures Extends(s, PodsLinked(s, r, kind), objs, root, hasPods) &&
            Attached(PodsLinked(s, r, kind), root, hasPods, KeyOf(r))
  {
    var rels := PodEnds(r, Group(s, "Pod"), kind);
    assert rels[..|rels|] == rels;
    FanIsBuilt(s, objs, root, hasPods, r, kind, |rels|);
  }

  lemma SelectorIsBuilt(s: Scope, objs: seq<Object>, root: Key, hasPods: bool, r: Ref)
    requires Built(s, objs, root, hasPods, {}) && r.kind != "Pod"
    ensures var t := PodsLinked(Added(s, r), r, Selects);
            Extends(s, t, objs, root, hasPods) && Attached(t, root, hasPods, KeyOf(r))
  {
    AddedIsBuilt(s, objs, root, hasPods, r);
    PodsLinkedIsBuilt(Added(s, r), objs, root, hasPods, r, Selects);
  }

  lemma LinkExtends(s: Scope, objs: seq<Object>, root: Key, hasPods: bool, from: Ref, to: Ref, kind: RelationKind)
    requires Built(s, objs, root, hasPods, {}) && !TreeKind(kind)
    requires Attached(s, root, hasPods, KeyOf(from)) || Attached(s, root, hasPods, KeyOf(to))
    ensures var t := Linked(s, from, to, kind);
            Extends(s, t, objs, root, hasPods) &&
            Attached(t, root, hasPods, KeyOf(from)) && Attached(t, root, hasPods, KeyOf(to))
  {
    LinkedIsBuilt(s, objs, root, hasPods, {}, from, to, kind);
    assert {} - {KeyOf(from), KeyOf(to)} == {};
  }

  lemma RouteExtends(s: Scope, objs: seq<Object>, root: Key, hasPods: bool, service: Ref, r: Ref)
    requires Built(s, objs, root, hasPods, {}) && Attached(s, root, hasPods, KeyOf(service)) && r.kind != "Pod"
    ensures var t := PodsLinked(Linked(s, service, r, Routes), r, Routes);
            Extends(s, t, objs, root, hasPods) && InScope(t, KeyOf(r))
  {
    LinkExtends(s, objs, root, hasPods, service, r, Routes);
    PodsLinkedIsBuilt(Linked(s, service, r, Routes), objs, root, hasPods, r, Routes);
  }

  lemma SeenIsAttached(s: Scope, objs: seq<Object>, root: Key, hasPods: bool, k: Key)
    requires Built(s, objs, root, hasPods, {}) && k in s.seen
    ensures Attached(s, root, hasPods, k)
  {
  }

  lemma EventExtends(s: Scope, objs: seq<Object>, root: Key, hasPods: bool, event: Ref, involved: Ref)
    requires Built(s, objs, root, hasPods, {}) && KeyOf(involved) in s.seen && event.kind != "Pod"
    ensures Extends(s, Linked(Added(s, event), event, involved, Related), objs, root, hasPods)
    ensures InScope(Linked(Added(s, event), event, involved, Related), KeyOf(event))
  {
    AddedIsBuilt(s, objs, root, hasPods, event);
    SeenIsAttached(s, objs, root, hasPods, KeyOf(involved));
    AttachedAfter(s, Added(s, event), root, hasPods, KeyOf(involved));
    LinkedIsBuilt(Added(s, event), objs, root, hasPods, {KeyOf(event)}, event, involved, Related);
    assert {KeyOf(event)} - {KeyOf(event), KeyOf(involved)} == {};
  }

  // ----- what each object contributes -----

  /** The scope after each object in turn has contributed. */
  function Each(s: Scope, objs: seq<Object>, contribute: (Scope, Object) -> Scope): Scope {
    if objs == [] then s
    else contribute(Each(s, objs[..|objs| - 1], contribute), objs[|objs| - 1])
  }

  lemma EachFurther(s: Scope, objs: seq<Object>, contribute: (Scope, Object) -> Scope, i: nat)
    requires i < |objs|
    ensures Each(s, objs[..i + 1], contribute) == contribute(Each(s, objs[..i], contribute), objs[i])
  {
    assert objs[..i + 1][..i] == objs[..i];
  }

  /** A matching service selects every pod in scope. */
  function ServiceAdded(s: Scope, o: Object, labels: map<string, string>): Scope {
    if Serving(labels)(o) then PodsLinked(Added(s, o.ref), o.ref, Selects) else s
  }

  /** A service routes to its endpoints, and they to every pod; an ingress routes to its service. */
  function RouteAdded(s: Scope, o: Object, services: set<Key>): Scope {
    if !Routing(services)(o) then s
    else if o.ref.kind == "Ingress" then Linked(s, o.ref, o.target.value, Routes)
    else PodsLinked(Linked(s, o.owner.value, o.ref, Routes), o.ref, Routes)
  }

  /** An autoscaler targets the root, a policy selects every pod, a binding binds its subject and its role. */
  function PolicyAdded(s: Scope, o: Object, root: Ref, labels: map<string, string>): Scope {
    if !Governing(labels, KeyOf(root), s.seen)(o) then s
    else if o.ref.kind == "HorizontalPodAutoscaler" then Linked(s, o.ref, root, Targets)
    else if o.ref.kind == "RoleBinding" then
      var t := Linked(s, o.ref, o.target.value, Binds);
      if o.role.Some? then Linked(t, o.ref, o.role.value, Binds) else t
    else PodsLinked(Added(s, o.ref), o.ref, Selects)
  }

  /** An event relates to the object that it is about. */
  function EventAdded(s: Scope, o: Object): Scope {
    if About(s.seen)(o) then Linked(Added(s, o.ref), o.ref, o.involved.value, Related) else s
  }

  function ServiceStep(labels: map<string, string>): (Scope, Object) -> Scope {
    (s: Scope, o: Object) => ServiceAdded(s, o, labels)
  }

  function RouteStep(services: set<Key>): (Scope, Object) -> Scope {
    (s: Scope, o: Object) => RouteAdded(s, o, services)
  }

  function PolicyStep(root: Ref, labels: map<string, string>): (Scope, Object) -> Scope {
    (s: Scope, o: Object) => PolicyAdded(s, o, root, labels)
  }

  function EventStep(): (Scope, Object) -> Scope {
    (s: Scope, o: Object) => EventAdded(s, o)
  }

  /** The services whose selector matches the labels of the root's pods. */
  function Serving(labels: map<string, string>): Object -> bool {
    (o: Object) => o.ref.kind == "Service" && SelectorMatches(o.selector, labels)
  }

  /** The endpoints owned by a service, and the ingresses in front of one. */
  function Routing(services: set<Key>): Object -> bool {
    (o: Object) =>
      (o.ref.kind in {"EndpointSlice", "Endpoints"} && o.owner.Some? && KeyOf(o.owner.value) in services) ||
      (o.ref.kind == "Ingress" && o.target.Some? && KeyOf(o.target.value) in services)
  }

  /** Autoscalers of the root, policies that select its pods, and role bindings of something in scope. */
  function Governing(labels: map<string, string>, root: Key, seen: set<Key>): Object -> bool {
    (o: Object) =>
      (o.ref.kind == "HorizontalPodAutoscaler" && o.target.Some? && KeyOf(o.target.value) == root) ||
      (o.ref.kind in {"PodDisruptionBudget", "NetworkPolicy"} && SelectorMatches(o.selector, labels)) ||
      (o.ref.kind == "RoleBinding" && o.target.Some? && KeyOf(o.target.value) in seen)
  }

  /** The events about something in scope. */
  function About(seen: set<Key>): Object -> bool {
    (o: Object) => o.ref.kind == "Event" && o.involved.Some? && KeyOf(o.involved.value) in seen
  }

  function KeysWhere(objs: seq<Object>, chosen: Object -> bool): set<Key> {
    set i | 0 <= i < |objs| && chosen(objs[i]) :: KeyOf(objs[i].ref)
  }

  lemma KeysWhereFurther(objs: seq<Object>, chosen: Object -> bool, i: nat)
    requires i < |objs|
    ensures KeysWhere(objs[..i + 1], chosen) ==
            KeysWhere(objs[..i], chosen) + if chosen(objs[i]) then {KeyOf(objs[i].ref)} else {}
  {
    var a, b := objs[..i], objs[..i + 1];
    assert b == a + [objs[i]];
    forall k | k in KeysWhere(a, chosen) ensures k in KeysWhere(b, chosen) {
      var j :| 0 <= j < |a| && chosen(a[j]) && KeyOf(a[j].ref) == k;
      assert b[j] == a[j];
    }
    assert b[i] == objs[i];
  }

  /** The chosen among the first i objects are in scope. */
  ghost predicate Included(s: Scope, objs: seq<Object>, chosen: Object -> bool, i: nat)
    requires i <= |objs|
  {
    MarkedInScope(s, KeysWhere(objs[..i], chosen))
  }

  lemma IncludedFurther(s: Scope, t: Scope, objs: seq<Object>, chosen: Object -> bool, i: nat)
    requires i < |objs| && Included(s, objs, chosen, i) && Grows(s, t)
    requires chosen(objs[i]) ==> InScope(t, KeyOf(objs[i].ref))
    ensures Included(t, objs, chosen, i + 1)
  {
    MarksStay(s, t, KeysWhere(objs[..i], chosen));
    KeysWhereFurther(objs, chosen, i);
  }

  lemma ExtendsFurther(s: Scope, t: Scope, u: Scope, objs: seq<Object>, root: Key, hasPods: bool)
    requires Grows(s, t) && Extends(t, u, objs, root, hasPods)
    ensures Extends(s, u, objs, root, hasPods)
  {
  }

  ghost predicate AllAttached(s: Scope, root: Key, hasPods: bool, keys: set<Key>) {
    forall k :: k in keys ==> Attached(s, root, hasPods, k)
  }

  lemma AllAttachedAfter(s: Scope, t: Scope, root: Key, hasPods: bool, keys: set<Key>)
    requires Grows(s, t) && AllAttached(s, root, hasPods, keys)
    ensures AllAttached(t, root, hasPods, keys)
  {
    forall k | k in keys ensures Attached(t, root, hasPods, k) {
      AttachedAfter(s, t, root, hasPods, k);
    }
  }

  /** What the root object itself refers to. */
  function RootRelationships(root: Ref, o: Object, namespace_: string): seq<Relationship> {
    MountsOf(root, "ConfigMap", o.configMaps) +
    MountsOf(root, "Secret", o.secrets) +
    MountsOf(root, "PersistentVolumeClaim", o.claims) +
    (if o.serviceAccount != ""
     then [Relationship(root, Ref("ServiceAccount", o.serviceAccount, namespace_, ""), Uses)] else [])
  }

  lemma RootFanIsOwned(s: Scope, objs: seq<Object>, root: Ref, o: Object)
    requires o in objs && KeyOf(o.ref) == KeyOf(root)
    requires Owned(s, objs, KeyOf(root)) && Reaches(s, KeyOf(root), KeyOf(root)) && HasOwnPods(s, objs, KeyOf(root))
    ensures var t := LinkedAll(s, RootRelationships(root, o, s.namespace));
            Expanded(s, t, objs, KeyOf(root), KeyOf(root)) && HasOwnPods(t, objs, KeyOf(root))
  {
    RootFansOut(objs, root, o, s.namespace);
    FanIsOwned(s, objs, KeyOf(root), KeyOf(root), RootRelationships(root, o, s.namespace));
    OwnPodsStay(s, LinkedAll(s, RootRelationships(root, o, s.namespace)), objs, KeyOf(root));
  }

  lemma RootFieldLinks(root: Ref, o: Object, namespace_: string, i: nat)
    requires i < |RootRelationships(root, o, namespace_)| && KeyOf(o.ref) == KeyOf(root)
    ensures var r := RootRelationships(root, o, namespace_)[i];
            FieldLink(o, r) && Mountable(r.to.kind) && r.kind != Owns
  {
    var r := RootRelationships(root, o, namespace_)[i];
    assert r in RootRelationships(root, o, namespace_);
    InMounts(root, "ConfigMap", o.configMaps, r);
    InMounts(root, "Secret", o.secrets, r);
    InMounts(root, "PersistentVolumeClaim", o.claims, r);
  }

  lemma RootFansOut(objs: seq<Object>, root: Ref, o: Object, namespace_: string)
    requires o in objs && KeyOf(o.ref) == KeyOf(root)
    ensures FansOut(objs, KeyOf(root), RootRelationships(root, o, namespace_))
  {
    var rels := RootRelationships(root, o, namespace_);
    var j :| 0 <= j < |objs| && objs[j] == o;
    forall i | 0 <= i < |rels|
      ensures KeyOf(rels[i].from) == KeyOf(root) && Mountable(rels[i].to.kind) && rels[i].kind != Owns
      ensures FromField(objs, rels[i])
    {
      RootFieldLinks(root, o, namespace_, i);
      assert FieldLink(objs[j], rels[i]);
    }
  }

  lemma OwnPodsStay(s: Scope, t: Scope, objs: seq<Object>, root: Key)
    requires HasOwnPods(s, objs, root) && Grows(s, t)
    ensures HasOwnPods(t, objs, root)
  {
    forall k: Key | k.kind == "Pod" && Descends(objs, root, k)
      ensures InScope(t, k) && PodExpanded(objs, t.relationships, k)
    {
      PodExpandedInMore(objs, s.relationships, t.relationships, k);
    }
  }

  /** What the root object itself refers to, the last with the root's key, is recorded. */
  ghost predicate RecordsRootRefs(s: Scope, objs: seq<Object>, root: Ref) {
    forall i :: 0 <= i < |objs| && IsLast(objs, i, KeyOf(root)) ==>
                  RecordsMountsAndAccount(s.relationships, root, objs[i], s.namespace)
  }

  lemma RootRefsRecorded(s: Scope, objs: seq<Object>, root: Ref)
    requires KeyOf(root) in ByKey(objs) ==>
               Records(s.relationships, RootRelationships(root, ByKey(objs)[KeyOf(root)], s.namespace))
    ensures RecordsRootRefs(s, objs, root)
  {
    forall i | 0 <= i < |objs| && IsLast(objs, i, KeyOf(root))
      ensures RecordsMountsAndAccount(s.relationships, root, objs[i], s.namespace)
    {
      LastOneCounts(objs, i, KeyOf(root));
      RootIsRecorded(s.relationships, root, objs[i], s.namespace);
    }
  }

  lemma RootIsRecorded(rels: seq<Relationship>, root: Ref, o: Object, namespace_: string)
    requires Records(rels, RootRelationships(root, o, namespace_))
    ensures RecordsMountsAndAccount(rels, root, o, namespace_)
  {
    MountsAreRecorded(rels, root, "ConfigMap", o.configMaps);
    MountsAreRecorded(rels, root, "Secret", o.secrets);
    MountsAreRecorded(rels, root, "PersistentVolumeClaim", o.claims);
  }

  /** The resources related to the root are in scope. */
  predicate RelatedInScope(s: Scope, refs: seq<Ref>, root: Ref, related: (Ref, Ref) -> bool) {
    forall i :: 0 <= i < |refs| && related(root, refs[i]) ==> InScope(s, KeyOf(refs[i]))
  }

  predicate ExtensionsInScope(s: Scope, exts: seq<Extension>, root: Ref, related: (Ref, Ref) -> bool) {
    forall i :: 0 <= i < |exts| ==> RelatedInScope(s, exts[i].resources, root, related)
  }

  predicate SomeRelated(refs: seq<Ref>, root: Ref, related: (Ref, Ref) -> bool) {
    exists i :: 0 <= i < |refs| && related(root, refs[i])
  }

  lemma RelatedFurther(s: Scope, t: Scope, refs: seq<Ref>, i: nat, root: Ref, related: (Ref, Ref) -> bool)
    requires i < |refs| && Grows(s, t) && RelatedInScope(s, refs[..i], root, related)
    requires related(root, refs[i]) ==> InScope(t, KeyOf(refs[i]))
    ensures RelatedInScope(t, refs[..i + 1], root, related)
  {
    var before, after := refs[..i], refs[..i + 1];
    assert after == before + [refs[i]];
    assert after[i] == refs[i];
    forall j | 0 <= j < |after| && related(root, after[j]) ensures InScope(t, KeyOf(after[j])) {
      assert j < i ==> after[j] == before[j];
    }
  }

  lemma ExtensionsFurther(s: Scope, t: Scope, exts: seq<Extension>, i: nat, root: Ref, related: (Ref, Ref) -> bool)
    requires i < |exts| && Grows(s, t)
    requires ExtensionsInScope(s, exts[..i], root, related) && RelatedInScope(t, exts[i].resources, root, related)
    ensures ExtensionsInScope(t, exts[..i + 1], root, related)
  {
    assert exts[..i + 1] == exts[..i] + [exts[i]];
    forall j | 0 <= j < |exts[..i]| ensures RelatedInScope(t, exts[..i][j].resources, root, related) {
      assert RelatedInScope(s, exts[..i][j].resources, root, related);
    }
  }

  /** The root is a pod with a name, or owns one, directly or through other objects. */
  ghost predicate HasNamedPod(objs: seq<Object>, root: Key) {
    exists k: Key :: k.kind == "Pod" && k.name != "" && AtOrBelow(objs, root, k)
  }

  lemma PodIsListed(s: Scope, k: Key)
    requires Grouped(s) && k in s.seen && k.kind == "Pod"
    ensures Group(s, "Pod") != []
  {
    assert Placed(s, k) && GroupOf(k.kind) == "Pod";
  }

  lemma PodsWhenOwned(s: Scope, objs: seq<Object>, root: Key)
    requires Grouped(s) && HasOwnPods(s, objs, root) && InScope(s, root) && HasNamedPod(objs, root)
    ensures Group(s, "Pod") != []
  {
    var k: Key :| k.kind == "Pod" && k.name != "" && AtOrBelow(objs, root, k);
    assert InScope(s, k);
    PodIsListed(s, k);
  }

  /** What belongs to the workload by its labels. */
  ghost predicate CoversSelectors(s: Scope, objs: seq<Object>, labels: map<string, string>) {
    Included(s, objs, Serving(labels), |objs|) &&
    Included(s, objs, Routing(KeysWhere(objs, Serving(labels))), |objs|)
  }

  /** What belongs to the workload because it refers to what the owner tree brought into scope. */
  ghost predicate CoversReferences(s: Scope, objs: seq<Object>, labels: map<string, string>, root: Key, tree: Scope) {
    Included(s, objs, Governing(labels, root, tree.seen), |objs|) && Included(s, objs, About(tree.seen), |objs|)
  }

  lemma IncludedAfter(s: Scope, t: Scope, objs: seq<Object>, chosen: Object -> bool)
    requires Included(s, objs, chosen, |objs|) && Grows(s, t)
    ensures Included(t, objs, chosen, |objs|)
  {
  }

  lemma IncludedFewer(s: Scope, objs: seq<Object>, chosen: Object -> bool, fewer: Object -> bool)
    requires Included(s, objs, chosen, |objs|) && forall o :: fewer(o) ==> chosen(o)
    ensures Included(s, objs, fewer, |objs|)
  {
    forall k | k in KeysWhere(objs[..|objs|], fewer) ensures InScope(s, k) {
      var i :| 0 <= i < |objs[..|objs|]| && fewer(objs[..|objs|][i]) && KeyOf(objs[..|objs|][i].ref) == k;
      assert chosen(objs[..|objs|][i]);
      assert k in KeysWhere(objs[..|objs|], chosen);
    }
  }

  lemma AttachedAreIncluded(s: Scope, objs: seq<Object>, root: Key, hasPods: bool, chosen: Object -> bool)
    requires AllAttached(s, root, hasPods, KeysWhere(objs, chosen))
    ensures Included(s, objs, chosen, |objs|)
  {
    assert objs[..|objs|] == objs;
  }

  /** The resources of a list that are related to the root, by kind and in order. */
  function ByKind(refs: seq<Ref>, root: Ref, related: (Ref, Ref) -> bool): map<string, seq<Ref>> {
    if refs == [] then map[]
    else
      var before, r := ByKind(refs[..|refs| - 1], root, related), refs[|refs| - 1];
      if related(root, r) then before[r.kind := (if r.kind in before then before[r.kind] else []) + [r]] else before
  }

  /** Grouping by kind loses nothing, and is empty only when nothing is related. */
  lemma {:induction false} ByKindMembers(refs: seq<Ref>, root: Ref, related: (Ref, Ref) -> bool)
    ensures ByKind(refs, root, related) == map[] <==> !SomeRelated(refs, root, related)
    ensures forall kind, r :: (kind in ByKind(refs, root, related) && r in ByKind(refs, root, related)[kind]) <==>
                              (r in refs && related(root, r) && r.kind == kind)
  {
    if refs != [] {
      var init, last := refs[..|refs| - 1], refs[|refs| - 1];
      assert refs == init + [last];
      ByKindMembers(init, root, related);
      SomeRelatedFurther(init, last, root, related);
    }
  }

  lemma SomeRelatedFurther(refs: seq<Ref>, r: Ref, root: Ref, related: (Ref, Ref) -> bool)
    ensures SomeRelated(refs + [r], root, related) <==> SomeRelated(refs, root, related) || related(root, r)
  {
    var more := refs + [r];
    if SomeRelated(refs, root, related) {
      var j :| 0 <= j < |refs| && related(root, refs[j]);
      assert related(root, more[j]);
    }
    assert more[|refs|] == r;
  }

  /** An extension with the resources of it that are related to the root. */
  datatype RelatedExtension = RelatedExtension(name: string, byKind: map<string, seq<Ref>>)

  /** The extensions with a resource related to the root. */
  function RelatedExtensions(exts: seq<Extension>, root: Ref, related: (Ref, Ref) -> bool): seq<RelatedExtension> {
    if exts == [] then []
    else
      var e := exts[|exts| - 1];
      RelatedExtensions(exts[..|exts| - 1], root, related) +
      if SomeRelated(e.resources, root, related)
      then [RelatedExtension(e.name, ByKind(e.resources, root, related))] else []
  }

  lemma RelatedExtensionsFurther(exts: seq<Extension>, i: nat, root: Ref, related: (Ref, Ref) -> bool)
    requires i < |exts|
    ensures RelatedExtensions(exts[..i + 1], root, related) == RelatedExtensions(exts[..i], root, related) +
              if SomeRelated(exts[i].resources, root, related)
              then [RelatedExtension(exts[i].name, ByKind(exts[i].resources, root, related))] else []
    ensures forall s: Scope :: ExtensionsLinked(s, exts[..i + 1], root, related) ==
                               ResourcesLinked(ExtensionsLinked(s, exts[..i], root, related), exts[i].resources, root,
                                               related)
  {
    assert exts[..i + 1][..i] == exts[..i];
  }

  /** The related resources of an extension are linked to the root, in order. */
  function ResourcesLinked(s: Scope, refs: seq<Ref>, root: Ref, related: (Ref, Ref) -> bool): Scope {
    if refs == [] then s
    else
      var before, r := ResourcesLinked(s, refs[..|refs| - 1], root, related), refs[|refs| - 1];
      if related(root, r) then Linked(before, root, r, Related) else before
  }

  function ExtensionsLinked(s: Scope, exts: seq<Extension>, root: Ref, related: (Ref, Ref) -> bool): Scope {
    if exts == [] then s
    else ResourcesLinked(ExtensionsLinked(s, exts[..|exts| - 1], root, related), exts[|exts| - 1].resources, root,
                         related)
  }

  /** The scope after networking. */
  function Networked(s: Scope, objs: seq<Object>, labels: map<string, string>): Scope {
    Each(Each(s, objs, ServiceStep(labels)), objs, RouteStep(KeysWhere(objs, Serving(labels))))
  }

  /** The scope after policies, bindings and events. */
  function Referred(s: Scope, objs: seq<Object>, root: Ref, labels: map<string, string>): Scope {
    Each(Each(s, objs, PolicyStep(root, labels)), objs, EventStep())
  }

  /** Everything that is added to the owner tree, as a function of the data. */
  function Surrounded(s: Scope, ds: Dataset, root: Ref, labels: map<string, string>,
                      related: (Ref, Ref) -> bool): Scope
  {
    ExtensionsLinked(Referred(Networked(s, ds.objects, labels), ds.objects, root, labels), ds.extensions, root, related)
  }
}
