/** The owner tree of a workload without pods, computed from the data alone: the root, everything that it owns,
    directly or through others, and what the root object refers to by name. These keys are in scope when the tree has
    been walked, if they have names, and the relationships of the tree tie exactly these to the root. */
module OwnerTree {
  import opened InvestigationScope
  import opened ObjectIndex
  import opened ScopeGrowth
  import opened ScopeTies

  /** The root is no pod and owns none. */
  ghost predicate NoPods(objs: seq<Object>, root: Key) {
    forall x: Key :: x.kind == "Pod" ==> !AtOrBelow(objs, root, x)
  }

  function TargetsOf(rels: seq<Relationship>): set<Key> {
    set i | 0 <= i < |rels| :: KeyOf(rels[i].to)
  }

  /** The keys of the owner tree. */
  ghost function OwnKeys(ds: Dataset, root: Ref): set<Key> {
    var k := KeyOf(root);
    {k} + Below(ds.objects, k) +
    if k in ByKey(ds.objects) then TargetsOf(RootRelationships(root, ByKey(ds.objects)[k], ds.namespace)) else {}
  }

  /** The scope when the owner tree of a workload without pods has been walked. */
  ghost function BareTree(ds: Dataset, root: Ref): Scope
    requires Acyclic(ds.objects)
  {
    var k := KeyOf(root);
    var walked := Walked(Added(Scope(ds.namespace, map[], [], {}), root), ds.objects, root, |Children(ds.objects, k)|);
    if k in ByKey(ds.objects) then LinkedAll(walked, RootRelationships(root, ByKey(ds.objects)[k], ds.namespace))
    else walked
  }

  // ----- what is gained -----

  /** From s to t the scope has gained these keys, and relationships that cross the set unless the keys lie on one
      side. */
  predicate Gains(s: Scope, t: Scope, keys: set<Key>, near: iset<Key>) {
    t.seen == s.seen + Names(keys) &&
    (NoneCross(t.relationships, near) <==> NoneCross(s.relationships, near) && Aligned(keys, near))
  }

  lemma GainsFurther(s: Scope, t: Scope, u: Scope, a: set<Key>, b: set<Key>, k: Key, near: iset<Key>)
    requires Gains(s, t, a, near) && Gains(t, u, b, near) && k in a && k in b
    ensures Gains(s, u, a + b, near)
  {
    assert Aligned(a, near) && Aligned(b, near) <==> Aligned(a + b, near);
  }

  lemma GainsNothing(s: Scope, k: Key, near: iset<Key>)
    requires InScope(s, k)
    ensures Gains(s, s, {k}, near)
  {
  }

  lemma LinkedGains(s: Scope, from: Ref, to: Ref, kind: RelationKind, near: iset<Key>)
    ensures Gains(s, Linked(s, from, to, kind), {KeyOf(from), KeyOf(to)}, near)
  {
    var r := Relationship(from, to, kind);
    NoneCrossBoth(s.relationships, [r], near);
    OneAligns(r, near);
  }

  lemma {:induction false} FanGains(s: Scope, from: Key, rels: seq<Relationship>, near: iset<Key>)
    requires InScope(s, from) && forall i :: 0 <= i < |rels| ==> KeyOf(rels[i].from) == from
    ensures Gains(s, LinkedAll(s, rels), {from} + TargetsOf(rels), near)
  {
    if rels == [] {
      GainsNothing(s, from, near);
      assert {from} + TargetsOf(rels) == {from};
    } else {
      var init, r := rels[..|rels| - 1], rels[|rels| - 1];
      FanGains(s, from, init, near);
      var t := LinkedAll(s, init);
      LinkedGains(t, r.from, r.to, r.kind, near);
      assert rels == init + [r];
      TargetsOfSnoc(init, r);
      assert {from} + TargetsOf(init) + {from, KeyOf(r.to)} == {from} + TargetsOf(rels);
      GainsFurther(s, t, Linked(t, r.from, r.to, r.kind), {from} + TargetsOf(init), {from, KeyOf(r.to)}, from, near);
    }
  }

  lemma TargetsOfSnoc(rels: seq<Relationship>, r: Relationship)
    ensures TargetsOf(rels + [r]) == TargetsOf(rels) + {KeyOf(r.to)}
  {
    var more := rels + [r];
    assert more[|rels|] == r;
    assert forall i :: 0 <= i < |rels| ==> more[i] == rels[i];
  }

  // ----- the walk -----

  /** x is one of the first n children of k, or below one. */
  ghost predicate UnderFirst(objs: seq<Object>, k: Key, n: nat, x: Key)
    requires n <= |Children(objs, k)|
  {
    exists i :: 0 <= i < n && UnderChild(objs, Children(objs, k)[i], x)
  }

  ghost predicate UnderChild(objs: seq<Object>, c: Object, x: Key) {
    x == KeyOf(c.ref) || Descends(objs, KeyOf(c.ref), x)
  }

  ghost function WalkKeys(objs: seq<Object>, k: Key, n: nat): set<Key>
    requires n <= |Children(objs, k)|
  {
    {k} + set x | x in Keys(objs) && UnderFirst(objs, k, n, x)
  }

  lemma UnderOneMore(objs: seq<Object>, k: Key, n: nat, x: Key)
    requires n < |Children(objs, k)|
    ensures UnderFirst(objs, k, n + 1, x) <==> UnderFirst(objs, k, n, x) || UnderChild(objs, Children(objs, k)[n], x)
  {
    if UnderFirst(objs, k, n, x) {
      var i :| 0 <= i < n && UnderChild(objs, Children(objs, k)[i], x);
    }
  }

  lemma WalkKeysNext(objs: seq<Object>, k: Key, n: nat)
    requires n < |Children(objs, k)|
    ensures var c := KeyOf(Children(objs, k)[n].ref);
            WalkKeys(objs, k, n + 1) == WalkKeys(objs, k, n) + ({k, c} + ({c} + Below(objs, c)))
  {
    var c := KeyOf(Children(objs, k)[n].ref);
    ChildIsOwned(objs, Children(objs, k)[n], k);
    OwnedIsObject(objs, k, c);
    forall x ensures x in WalkKeys(objs, k, n + 1) <==> x in WalkKeys(objs, k, n) || x == c || x in Below(objs, c) {
      UnderOneMore(objs, k, n, x);
      assert IsBelow(objs, c, x) <==> Descends(objs, c, x);
    }
  }

  lemma BelowIsUnderChild(objs: seq<Object>, k: Key, x: Key)
    requires Descends(objs, k, x)
    ensures UnderFirst(objs, k, |Children(objs, k)|, x)
  {
    var children := Children(objs, k);
    var b := DescentHasFirstStep(objs, k, x);
    var i :| 0 <= i < |objs| && OwnedBy(objs[i], k) && KeyOf(objs[i].ref) == b;
    assert objs[i] in children;
    var j :| 0 <= j < |children| && children[j] == objs[i];
    assert UnderChild(objs, children[j], x);
  }

  lemma AllWalkKeys(objs: seq<Object>, k: Key)
    ensures WalkKeys(objs, k, |Children(objs, k)|) == {k} + Below(objs, k)
  {
    var children := Children(objs, k);
    forall x | x in Keys(objs) ensures UnderFirst(objs, k, |children|, x) <==> IsBelow(objs, k, x) {
      if IsBelow(objs, k, x) {
        BelowIsUnderChild(objs, k, x);
      }
      if UnderFirst(objs, k, |children|, x) {
        var j :| 0 <= j < |children| && UnderChild(objs, children[j], x);
        ChildIsOwned(objs, children[j], k);
        ChildDescends(objs, k, KeyOf(children[j].ref));
        if x != KeyOf(children[j].ref) {
          DescendsFurther(objs, k, KeyOf(children[j].ref), x);
        }
      }
    }
  }

  lemma NoPodsBelowChild(objs: seq<Object>, k: Key, c: Object)
    requires NoPods(objs, k) && c in Children(objs, k)
    ensures c.ref.kind != "Pod" && NoPods(objs, KeyOf(c.ref))
  {
    ChildIsOwned(objs, c, k);
    ChildDescends(objs, k, KeyOf(c.ref));
    assert AtOrBelow(objs, k, KeyOf(c.ref));
    forall x: Key | x.kind == "Pod" ensures !AtOrBelow(objs, KeyOf(c.ref), x) {
      if AtOrBelow(objs, KeyOf(c.ref), x) && x != KeyOf(c.ref) {
        AtOrBelowFurther(objs, k, KeyOf(c.ref), x);
      }
    }
  }

  /** What linking one child gains, and the walk below it. */
  ghost predicate ChildGains(a: Scope, w: Scope, objs: seq<Object>, k: Key, c: Object, near: iset<Key>) {
    Gains(a, w, {k, KeyOf(c.ref)} + ({KeyOf(c.ref)} + Below(objs, KeyOf(c.ref))), near)
  }

  /** Scopes that follow each other as the first n children are linked. */
  lemma {:induction false} ChainGains(ws: seq<Scope>, objs: seq<Object>, k: Key, n: nat, near: iset<Key>)
    requires n <= |Children(objs, k)| && n < |ws| && InScope(ws[0], k)
    requires forall i :: 0 <= i < n ==> ChildGains(ws[i], ws[i + 1], objs, k, Children(objs, k)[i], near)
    ensures Gains(ws[0], ws[n], WalkKeys(objs, k, n), near)
  {
    if n == 0 {
      GainsNothing(ws[0], k, near);
      assert WalkKeys(objs, k, 0) == {k};
    } else {
      ChainGains(ws, objs, k, n - 1, near);
      var c := KeyOf(Children(objs, k)[n - 1].ref);
      assert ChildGains(ws[n - 1], ws[n - 1 + 1], objs, k, Children(objs, k)[n - 1], near);
      WalkKeysNext(objs, k, n - 1);
      GainsFurther(ws[0], ws[n - 1], ws[n], WalkKeys(objs, k, n - 1), {k, c} + ({c} + Below(objs, c)), k, near);
    }
  }

  lemma BelowGains(a: Scope, u: Scope, w: Scope, objs: seq<Object>, from: Ref, c: Ref, near: iset<Key>)
    requires u == Linked(a, from, c, Owns) && Gains(u, w, {KeyOf(c)} + Below(objs, KeyOf(c)), near)
    ensures Gains(a, w, {KeyOf(from), KeyOf(c)} + ({KeyOf(c)} + Below(objs, KeyOf(c))), near)
  {
    LinkedGains(a, from, c, Owns, near);
    GainsFurther(a, u, w, {KeyOf(from), KeyOf(c)}, {KeyOf(c)} + Below(objs, KeyOf(c)), KeyOf(c), near);
  }

  /** The scopes while the children are linked one after the other. */
  ghost function Walks(s: Scope, objs: seq<Object>, from: Ref): (r: seq<Scope>)
    requires Acyclic(objs)
    ensures |r| == |Children(objs, KeyOf(from))| + 1
  {
    seq(|Children(objs, KeyOf(from))| + 1,
        i requires 0 <= i <= |Children(objs, KeyOf(from))| => Walked(s, objs, from, i))
  }

  /** From one scope to the next, the i-th child has been linked and the walk below it has been done. */
  ghost predicate LinksNext(walk: (Scope, Ref) -> seq<Scope>, objs: seq<Object>, s: Scope, from: Ref, i: nat) {
    i + 1 < |walk(s, from)| && i < |Children(objs, KeyOf(from))| &&
    var c := Children(objs, KeyOf(from))[i].ref;
    var below := walk(Linked(walk(s, from)[i], from, c, Owns), c);
    below != [] && walk(s, from)[i + 1] == below[|below| - 1]
  }

  ghost predicate IsWalk(walk: (Scope, Ref) -> seq<Scope>, objs: seq<Object>, s: Scope, from: Ref) {
    |walk(s, from)| == |Children(objs, KeyOf(from))| + 1 && walk(s, from)[0] == s &&
    forall i :: 0 <= i < |Children(objs, KeyOf(from))| && Children(objs, KeyOf(from))[i].ref.kind != "Pod" ==>
                  LinksNext(walk, objs, s, from, i)
  }

  /** The walk below a resource without pods. */
  lemma {:induction false} WalkGains(walk: (Scope, Ref) -> seq<Scope>, s: Scope, objs: seq<Object>, from: Ref,
                                     near: iset<Key>)
    requires Acyclic(objs) && NoPods(objs, KeyOf(from)) && InScope(s, KeyOf(from))
    requires forall t, r {:trigger IsWalk(walk, objs, t, r)} :: IsWalk(walk, objs, t, r)
    ensures var ws := walk(s, from);
            ws != [] && Gains(s, ws[|ws| - 1], {KeyOf(from)} + Below(objs, KeyOf(from)), near)
    decreases |Below(objs, KeyOf(from))|, 1
  {
    var children, ws := Children(objs, KeyOf(from)), walk(s, from);
    assert IsWalk(walk, objs, s, from);
    forall i | 0 <= i < |children| ensures ChildGains(ws[i], ws[i + 1], objs, KeyOf(from), children[i], near) {
      LinkGains(walk, s, objs, from, i, near);
    }
    ChainGains(ws, objs, KeyOf(from), |children|, near);
    AllWalkKeys(objs, KeyOf(from));
  }

  lemma LinkGains(walk: (Scope, Ref) -> seq<Scope>, s: Scope, objs: seq<Object>, from: Ref, i: nat, near: iset<Key>)
    requires Acyclic(objs) && NoPods(objs, KeyOf(from)) && i < |Children(objs, KeyOf(from))|
    requires forall t, r {:trigger IsWalk(walk, objs, t, r)} :: IsWalk(walk, objs, t, r)
    requires |walk(s, from)| == |Children(objs, KeyOf(from))| + 1
    ensures ChildGains(walk(s, from)[i], walk(s, from)[i + 1], objs, KeyOf(from), Children(objs, KeyOf(from))[i], near)
    decreases |Below(objs, KeyOf(from))|, 0
  {
    var c, a := Children(objs, KeyOf(from))[i], walk(s, from)[i];
    NoPodsBelowChild(objs, KeyOf(from), c);
    ChildShrinks(objs, from, c);
    WalkGains(walk, Linked(a, from, c.ref, Owns), objs, c.ref, near);
    NextGains(walk, s, objs, from, i, c, Linked(a, from, c.ref, Owns), near);
  }

  lemma NextGains(walk: (Scope, Ref) -> seq<Scope>, s: Scope, objs: seq<Object>, from: Ref, i: nat, c: Object, u: Scope,
                  near: iset<Key>)
    requires i < |Children(objs, KeyOf(from))| && c == Children(objs, KeyOf(from))[i] && c.ref.kind != "Pod"
    requires forall t, r {:trigger IsWalk(walk, objs, t, r)} :: IsWalk(walk, objs, t, r)
    requires |walk(s, from)| == |Children(objs, KeyOf(from))| + 1 && u == Linked(walk(s, from)[i], from, c.ref, Owns)
    requires var ws := walk(u, c.ref);
             ws != [] && Gains(u, ws[|ws| - 1], {KeyOf(c.ref)} + Below(objs, KeyOf(c.ref)), near)
    ensures ChildGains(walk(s, from)[i], walk(s, from)[i + 1], objs, KeyOf(from), c, near)
  {
    assert IsWalk(walk, objs, s, from) && LinksNext(walk, objs, s, from, i);
    BelowGains(walk(s, from)[i], u, walk(s, from)[i + 1], objs, from, c.ref, near);
  }

  ghost function WalksIn(objs: seq<Object>): (Scope, Ref) -> seq<Scope>
    requires Acyclic(objs)
  {
    (s: Scope, from: Ref) => Walks(s, objs, from)
  }

  lemma WalksAreWalks(objs: seq<Object>, s: Scope, from: Ref)
    requires Acyclic(objs)
    ensures IsWalk(WalksIn(objs), objs, s, from)
  {
    var walk := WalksIn(objs);
    var ws, children := Walks(s, objs, from), Children(objs, KeyOf(from));
    forall i | 0 <= i < |children| && children[i].ref.kind != "Pod" ensures LinksNext(walk, objs, s, from, i) {
      WalkedNext(s, objs, from, i);
    }
  }

  /** The root and what it owns. */
  lemma RootWalkGains(s: Scope, objs: seq<Object>, root: Ref, walked: Scope, near: iset<Key>)
    requires Acyclic(objs) && NoPods(objs, KeyOf(root)) && InScope(s, KeyOf(root))
    requires walked == Walked(s, objs, root, |Children(objs, KeyOf(root))|)
    ensures Gains(s, walked, {KeyOf(root)} + Below(objs, KeyOf(root)), near)
  {
    forall t, r ensures IsWalk(WalksIn(objs), objs, t, r) {
      WalksAreWalks(objs, t, r);
    }
    WalkGains(WalksIn(objs), s, objs, root, near);
  }

  lemma RootRefsGain(s: Scope, walked: Scope, root: Ref, o: Object, namespace_: string, below: set<Key>,
                     near: iset<Key>)
    requires InScope(s, KeyOf(root)) && Gains(s, walked, {KeyOf(root)} + below, near)
    ensures var rels := RootRelationships(root, o, namespace_);
            Gains(s, LinkedAll(walked, rels), {KeyOf(root)} + below + TargetsOf(rels), near)
  {
    var k, rels := KeyOf(root), RootRelationships(root, o, namespace_);
    assert forall i :: 0 <= i < |rels| ==> KeyOf(rels[i].from) == k;
    FanGains(walked, k, rels, near);
    GainsFurther(s, walked, LinkedAll(walked, rels), {k} + below, {k} + TargetsOf(rels), k, near);
    assert {k} + below + ({k} + TargetsOf(rels)) == {k} + below + TargetsOf(rels);
  }

  /** In the owner tree without pods are exactly its keys, tied to the root. */
  lemma BareTreeIsOwn(ds: Dataset, root: Ref, near: iset<Key>)
    requires Acyclic(ds.objects) && NoPods(ds.objects, KeyOf(root))
    ensures Gains(Scope(ds.namespace, map[], [], {}), BareTree(ds, root), OwnKeys(ds, root), near)
  {
    var objs, k := ds.objects, KeyOf(root);
    var empty := Scope(ds.namespace, map[], [], {});
    var s := Added(empty, root);
    var walked := Walked(s, objs, root, |Children(objs, k)|);
    RootWalkGains(s, objs, root, walked, near);
    if k in ByKey(objs) {
      RootRefsGain(s, walked, root, ByKey(objs)[k], ds.namespace, Below(objs, k), near);
    } else {
      assert {k} + Below(objs, k) + {} == {k} + Below(objs, k);
    }
    FromTheRoot(empty, root, BareTree(ds, root), OwnKeys(ds, root), near);
  }

  lemma FromTheRoot(empty: Scope, root: Ref, t: Scope, own: set<Key>, near: iset<Key>)
    requires empty.seen == {} && Gains(Added(empty, root), t, own, near) && KeyOf(root) in own
    ensures Gains(empty, t, own, near)
  {
    assert Added(empty, root).seen + Names(own) == Names(own);
  }

  // ----- the program's walk -----

  lemma NoPodsListed(objs: seq<Object>, k: Key, pods: seq<Ref>)
    requires NoPods(objs, k) && ArePodsBelow(objs, k, pods)
    ensures pods == []
  {
    if pods != [] {
      PodBelowDescends(objs, k, pods, 0);
    }
  }

  /** Without pods, v is the scope after the walk over the first i children of the root. */
  ghost predicate InBareWalk(s: Scope, v: Scope, objs: seq<Object>, root: Ref, i: nat)
    requires Acyclic(objs) && i <= |Children(objs, KeyOf(root))|
  {
    NoPods(objs, KeyOf(root)) ==> v == Walked(s, objs, root, i)
  }

  /** Linking a child of the root and walking below it is the next step of the walk from the root. */
  lemma BareWalkNext(s: Scope, objs: seq<Object>, root: Ref, i: nat, before: Scope, after: Scope)
    requires Acyclic(objs) && i < |Children(objs, KeyOf(root))| && InBareWalk(s, before, objs, root, i)
    requires var c := Children(objs, KeyOf(root))[i].ref;
             after == Walked(Linked(before, root, c, Owns), objs, c, |Children(objs, KeyOf(c))|)
    ensures InBareWalk(s, after, objs, root, i + 1)
  {
    if NoPods(objs, KeyOf(root)) {
      NoPodsBelowChild(objs, KeyOf(root), Children(objs, KeyOf(root))[i]);
      WalkedNext(s, objs, root, i);
    }
  }
}
