/** The objects of a namespace, who owns whom, and the index over them (internal/investigation/index.go:10-96). */
module ObjectIndex {
  // Objects are those of discovery.go:12-39. Ownership is by key: kind and name. Where no object owns itself,
  // directly or through others, the walk below a root ends, and visits exactly what is owned there.

  import opened Options
  import opened InvestigationScope

  /** Owner, target, role and involved object are pointers that may be nil. */
  datatype Object = Object(
    ref: Ref, labels: map<string, string>, selector: map<string, string>, owner: Option<Ref>,
    configMaps: seq<string>, secrets: seq<string>, claims: seq<string>, serviceAccount: string, node: string,
    target: Option<Ref>, role: Option<Ref>, involved: Option<Ref>)

  datatype Extension = Extension(name: string, resources: seq<Ref>)

  datatype Dataset = Dataset(namespace: string, objects: seq<Object>, extensions: seq<Extension>)

  // ----- ownership -----

  predicate OwnedBy(o: Object, k: Key) {
    o.owner.Some? && KeyOf(o.owner.value) == k
  }

  predicate Owns(objs: seq<Object>, a: Key, b: Key) {
    exists i :: 0 <= i < |objs| && OwnedBy(objs[i], a) && KeyOf(objs[i].ref) == b
  }

  predicate Lineage(objs: seq<Object>, p: seq<Key>) {
    |p| >= 2 && forall i :: 0 <= i < |p| - 1 ==> Owns(objs, p[i], p[i + 1])
  }

  /** k is owned by a, directly or through other objects. */
  ghost predicate Descends(objs: seq<Object>, a: Key, k: Key) {
    exists p {:trigger Lineage(objs, p)} :: Lineage(objs, p) && p[0] == a && p[|p| - 1] == k
  }

  /** Nothing owns itself, directly or through other objects. */
  ghost predicate Acyclic(objs: seq<Object>) {
    forall k :: !Descends(objs, k, k)
  }

  lemma ChildDescends(objs: seq<Object>, a: Key, b: Key)
    requires Owns(objs, a, b)
    ensures Descends(objs, a, b)
  {
    assert Lineage(objs, [a, b]);
  }

  lemma DescendsFurther(objs: seq<Object>, a: Key, b: Key, k: Key)
    requires Owns(objs, a, b) && Descends(objs, b, k)
    ensures Descends(objs, a, k)
  {
    var p :| Lineage(objs, p) && p[0] == b && p[|p| - 1] == k;
    var q := [a] + p;
    forall i | 0 <= i < |q| - 1 ensures Owns(objs, q[i], q[i + 1]) {
      assert i > 0 ==> q[i] == p[i - 1] && q[i + 1] == p[i];
    }
    assert Lineage(objs, q);
  }

  /** A descent starts with a child. */
  ghost predicate Through(objs: seq<Object>, a: Key, b: Key, k: Key) {
    Owns(objs, a, b) && (b == k || Descends(objs, b, k))
  }

  lemma DescentHasFirstStep(objs: seq<Object>, a: Key, k: Key) returns (b: Key)
    requires Descends(objs, a, k)
    ensures Through(objs, a, b, k)
  {
    var p :| Lineage(objs, p) && p[0] == a && p[|p| - 1] == k;
    b := p[1];
    assert Owns(objs, p[0], p[1]);
    if |p| > 2 {
      var q := p[1..];
      forall i | 0 <= i < |q| - 1 ensures Owns(objs, q[i], q[i + 1]) {
        assert Owns(objs, p[i + 1], p[i + 2]);
      }
      assert Lineage(objs, q);
    }
  }

  lemma {:induction false} DescendsOverall(objs: seq<Object>, p: seq<Key>, k: Key)
    requires Lineage(objs, p) && Descends(objs, p[|p| - 1], k)
    ensures Descends(objs, p[0], k)
    decreases |p|
  {
    assert Owns(objs, p[0], p[1]);
    if |p| > 2 {
      forall i | 0 <= i < |p[1..]| - 1 ensures Owns(objs, p[1..][i], p[1..][i + 1]) {
        assert Owns(objs, p[i + 1], p[i + 2]);
      }
      DescendsOverall(objs, p[1..], k);
    }
    DescendsFurther(objs, p[0], p[1], k);
  }

  lemma DescendsIsTransitive(objs: seq<Object>, a: Key, b: Key, k: Key)
    requires Descends(objs, a, b) && Descends(objs, b, k)
    ensures Descends(objs, a, k)
  {
    var p :| Lineage(objs, p) && p[0] == a && p[|p| - 1] == b;
    DescendsOverall(objs, p, k);
  }

  ghost predicate IsBelow(objs: seq<Object>, k: Key, x: Key) {
    Descends(objs, k, x)
  }

  function Keys(objs: seq<Object>): set<Key> {
    set i | 0 <= i < |objs| :: KeyOf(objs[i].ref)
  }

  /** The keys below k: the measure on which every descent terminates. */
  ghost function Below(objs: seq<Object>, k: Key): set<Key> {
    set x | x in Keys(objs) && IsBelow(objs, k, x)
  }

  lemma OwnedIsObject(objs: seq<Object>, a: Key, b: Key)
    requires Owns(objs, a, b)
    ensures b in Keys(objs)
  {
  }

  lemma FewerBelowAChild(objs: seq<Object>, a: Key, b: Key)
    requires Acyclic(objs) && Owns(objs, a, b)
    ensures |Below(objs, b)| < |Below(objs, a)|
  {
    forall x | x in Below(objs, b) ensures x in Below(objs, a) {
      DescendsFurther(objs, a, b, x);
    }
    ChildDescends(objs, a, b);
    OwnedIsObject(objs, a, b);
    assert b in Below(objs, a) && b !in Below(objs, b);
    SmallerSubset(Below(objs, b), Below(objs, a), b);
  }

  lemma SmallerSubset(x: set<Key>, y: set<Key>, k: Key)
    requires x <= y && k in y && k !in x
    ensures |x| < |y|
  {
    assert y == x + (y - x);
    assert k in y - x;
  }

  // ----- the index -----

  function Children(objs: seq<Object>, k: Key): (r: seq<Object>)
    ensures forall o :: o in r <==> o in objs && OwnedBy(o, k)
  {
    if objs == [] then []
    else
      var o := objs[|objs| - 1];
      assert objs == objs[..|objs| - 1] + [o];
      Children(objs[..|objs| - 1], k) + if OwnedBy(o, k) then [o] else []
  }

  /** The last object with each key. */
  function ByKey(objs: seq<Object>): (r: map<Key, Object>)
    ensures forall k :: k in r ==> r[k] in objs && KeyOf(r[k].ref) == k
  {
    if objs == [] then map[]
    else
      var o := objs[|objs| - 1];
      ByKey(objs[..|objs| - 1])[KeyOf(o.ref) := o]
  }

  lemma {:induction false} ByKeyHasAll(objs: seq<Object>)
    ensures ByKey(objs).Keys == Keys(objs)
  {
    if objs != [] {
      var init, o := objs[..|objs| - 1], objs[|objs| - 1];
      ByKeyHasAll(init);
      assert objs == init + [o];
      forall k | k in Keys(init) ensures k in Keys(objs) {
        var i :| 0 <= i < |init| && KeyOf(init[i].ref) == k;
        assert objs[i] == init[i];
      }
    }
  }

  /** The i-th object is the last with this key. */
  predicate IsLast(objs: seq<Object>, i: nat, k: Key)
    requires i < |objs|
  {
    KeyOf(objs[i].ref) == k && forall j :: i < j < |objs| ==> KeyOf(objs[j].ref) != k
  }

  /** Of several objects with one key, the last one counts. */
  lemma {:induction false} LastOneCounts(objs: seq<Object>, i: nat, k: Key)
    requires i < |objs| && IsLast(objs, i, k)
    ensures k in ByKey(objs) && ByKey(objs)[k] == objs[i]
  {
    if i < |objs| - 1 {
      var init := objs[..|objs| - 1];
      assert init[i] == objs[i] && forall j :: i < j < |init| ==> init[j] == objs[j];
      LastOneCounts(init, i, k);
    }
  }

  datatype Index = Index(byKey: map<Key, Object>, children: map<Key, seq<Object>>)

  function ChildrenIn(ix: Index, k: Key): seq<Object> {
    if k in ix.children then ix.children[k] else []
  }

  ghost predicate Indexes(ix: Index, objs: seq<Object>) {
    ix.byKey == ByKey(objs) && forall k :: ChildrenIn(ix, k) == Children(objs, k)
  }

  method NewIndex(objs: seq<Object>) returns (ix: Index)
    ensures Indexes(ix, objs)
  {
    ix := Index(map[], map[]);
    for i := 0 to |objs|
      invariant Indexes(ix, objs[..i])
    {
      var o := objs[i];
      ghost var before := ix;
      assert objs[..i + 1][..i] == objs[..i];
      ix := ix.(byKey := ix.byKey[KeyOf(o.ref) := o]);
      if o.owner.Some? {
        var k := KeyOf(o.owner.value);
        ix := ix.(children := ix.children[k := ChildrenIn(ix, k) + [o]]);
      }
      forall k ensures ChildrenIn(ix, k) == Children(objs[..i + 1], k) {
        assert ChildrenIn(before, k) == Children(objs[..i], k);
      }
    }
    assert objs[..|objs|] == objs;
  }

  lemma ChildIsOwned(objs: seq<Object>, o: Object, k: Key)
    requires o in objs && OwnedBy(o, k)
    ensures Owns(objs, k, KeyOf(o.ref))
  {
  }

  /** o is owned by k, directly or through other objects. */
  ghost predicate OwnedBelow(objs: seq<Object>, k: Key, o: Object) {
    o in objs && o.owner.Some? && (KeyOf(o.owner.value) == k || Descends(objs, k, KeyOf(o.owner.value)))
  }

  lemma OwnedBelowDescends(objs: seq<Object>, k: Key, o: Object)
    requires OwnedBelow(objs, k, o)
    ensures Descends(objs, k, KeyOf(o.ref))
  {
    ChildIsOwned(objs, o, KeyOf(o.owner.value));
    ChildDescends(objs, KeyOf(o.owner.value), KeyOf(o.ref));
    if KeyOf(o.owner.value) != k {
      DescendsIsTransitive(objs, k, KeyOf(o.owner.value), KeyOf(o.ref));
    }
  }

  lemma DescendantIsOwnedBelow(objs: seq<Object>, k: Key, x: Key) returns (o: Object)
    requires Descends(objs, k, x)
    ensures OwnedBelow(objs, k, o) && KeyOf(o.ref) == x
  {
    var p :| Lineage(objs, p) && p[0] == k && p[|p| - 1] == x;
    assert Owns(objs, p[|p| - 2], p[|p| - 1]);
    var i :| 0 <= i < |objs| && OwnedBy(objs[i], p[|p| - 2]) && KeyOf(objs[i].ref) == x;
    o := objs[i];
    if |p| > 2 {
      var q := p[..|p| - 1];
      forall j | 0 <= j < |q| - 1 ensures Owns(objs, q[j], q[j + 1]) {
        assert Owns(objs, p[j], p[j + 1]);
      }
      assert Lineage(objs, q);
    }
  }

  /** What is owned below k is a child of k or owned below a child. */
  ghost predicate BelowOneOf(objs: seq<Object>, children: seq<Object>, o: Object) {
    exists c :: c in children && (o == c || OwnedBelow(objs, KeyOf(c.ref), o))
  }

  lemma BelowAChild(objs: seq<Object>, k: Key, o: Object)
    ensures OwnedBelow(objs, k, o) <==> BelowOneOf(objs, Children(objs, k), o)
  {
    if OwnedBelow(objs, k, o) && KeyOf(o.owner.value) != k {
      var b := DescentHasFirstStep(objs, k, KeyOf(o.owner.value));
      var i :| 0 <= i < |objs| && OwnedBy(objs[i], k) && KeyOf(objs[i].ref) == b;
      assert objs[i] in Children(objs, k);
      assert OwnedBelow(objs, b, o);
    }
    if BelowOneOf(objs, Children(objs, k), o) && !(o in Children(objs, k)) {
      var c :| c in Children(objs, k) && OwnedBelow(objs, KeyOf(c.ref), o);
      ChildIsOwned(objs, c, k);
      ChildDescends(objs, k, KeyOf(c.ref));
      if KeyOf(o.owner.value) != KeyOf(c.ref) {
        DescendsFurther(objs, k, KeyOf(c.ref), KeyOf(o.owner.value));
      }
    }
  }

  /** Owners before what they own, in the order of the data: the first n children of k, and what is below them. */
  ghost function Preorder(objs: seq<Object>, k: Key, n: nat): seq<Object>
    requires Acyclic(objs) && n <= |Children(objs, k)|
    decreases |Below(objs, k)|, n
  {
    if n == 0 then []
    else
      var c := Children(objs, k)[n - 1];
      ChildHasFewerBelow(objs, k, c);
      Preorder(objs, k, n - 1) + [c] + Preorder(objs, KeyOf(c.ref), |Children(objs, KeyOf(c.ref))|)
  }

  lemma ChildHasFewerBelow(objs: seq<Object>, k: Key, c: Object)
    requires Acyclic(objs) && c in Children(objs, k)
    ensures |Below(objs, KeyOf(c.ref))| < |Below(objs, k)|
  {
    ChildIsOwned(objs, c, k);
    FewerBelowAChild(objs, k, KeyOf(c.ref));
  }

  lemma PreorderNext(objs: seq<Object>, k: Key, n: nat)
    requires Acyclic(objs) && n < |Children(objs, k)|
    ensures var c := Children(objs, k)[n];
            Preorder(objs, k, n + 1) ==
            Preorder(objs, k, n) + [c] + Preorder(objs, KeyOf(c.ref), |Children(objs, KeyOf(c.ref))|)
  {
  }

  /** One more child, and what is below it, after out. */
  lemma PreorderAfter(objs: seq<Object>, k: Key, n: nat, out: seq<Object>)
    requires Acyclic(objs) && n < |Children(objs, k)|
    ensures var c := Children(objs, k)[n];
            out + Preorder(objs, k, n) + [c] + Preorder(objs, KeyOf(c.ref), |Children(objs, KeyOf(c.ref))|) ==
            out + Preorder(objs, k, n + 1)
  {
    var c := Children(objs, k)[n];
    PreorderNext(objs, k, n);
    Rejoined(out, Preorder(objs, k, n), c, Preorder(objs, KeyOf(c.ref), |Children(objs, KeyOf(c.ref))|));
  }

  lemma BelowOneMore(objs: seq<Object>, children: seq<Object>, n: nat, o: Object)
    requires n < |children|
    ensures BelowOneOf(objs, children[..n + 1], o) <==>
            BelowOneOf(objs, children[..n], o) || o == children[n] || OwnedBelow(objs, KeyOf(children[n].ref), o)
  {
    assert children[..n + 1] == children[..n] + [children[n]];
  }

  /** o is in the second list exactly when it is in the first, or is c, or is owned below c. */
  ghost predicate MemberNext(objs: seq<Object>, before: seq<Object>, after: seq<Object>, c: Object, o: Object) {
    o in after <==> o in before || o == c || OwnedBelow(objs, KeyOf(c.ref), o)
  }

  lemma {:induction false} ChainMember(objs: seq<Object>, lists: seq<seq<Object>>, children: seq<Object>, n: nat,
                                         o: Object)
    requires n <= |children| && n < |lists| && lists[0] == []
    requires forall i :: 0 <= i < n ==> MemberNext(objs, lists[i], lists[i + 1], children[i], o)
    ensures o in lists[n] <==> BelowOneOf(objs, children[..n], o)
  {
    if n > 0 {
      ChainMember(objs, lists, children, n - 1, o);
      assert MemberNext(objs, lists[n - 1], lists[n - 1 + 1], children[n - 1], o);
      BelowOneMore(objs, children, n - 1, o);
    }
  }

  lemma {:induction false} PreorderOwned(objs: seq<Object>, k: Key, o: Object)
    requires Acyclic(objs)
    ensures o in Preorder(objs, k, |Children(objs, k)|) <==> OwnedBelow(objs, k, o)
    decreases |Below(objs, k)|, 1
  {
    var children := Children(objs, k);
    var lists := seq(|children| + 1, i requires 0 <= i <= |children| => Preorder(objs, k, i));
    forall i | 0 <= i < |children| ensures MemberNext(objs, lists[i], lists[i + 1], children[i], o) {
      PreorderStep(objs, k, i, o, lists[i], lists[i + 1]);
    }
    ChainMember(objs, lists, children, |children|, o);
    assert children[..|children|] == children;
    BelowAChild(objs, k, o);
  }

  lemma PreorderStep(objs: seq<Object>, k: Key, i: nat, o: Object, before: seq<Object>, after: seq<Object>)
    requires Acyclic(objs) && i < |Children(objs, k)|
    requires before == Preorder(objs, k, i) && after == Preorder(objs, k, i + 1)
    ensures MemberNext(objs, before, after, Children(objs, k)[i], o)
    decreases |Below(objs, k)|, 0
  {
    var c := Children(objs, k)[i];
    ChildHasFewerBelow(objs, k, c);
    PreorderOwned(objs, KeyOf(c.ref), o);
    PreorderNext(objs, k, i);
  }

  /** Exactly what is owned below k. */
  lemma PreorderIsBelow(objs: seq<Object>, k: Key)
    requires Acyclic(objs)
    ensures forall o :: o in Preorder(objs, k, |Children(objs, k)|) <==> OwnedBelow(objs, k, o)
  {
    forall o ensures o in Preorder(objs, k, |Children(objs, k)|) <==> OwnedBelow(objs, k, o) {
      PreorderOwned(objs, k, o);
    }
  }

  lemma Rejoined(a: seq<Object>, b: seq<Object>, c: Object, d: seq<Object>)
    ensures a + b + [c] + d == a + (b + [c] + d)
  {
  }

  method WalkDown(ix: Index, r: Ref, out: seq<Object>, ghost objs: seq<Object>) returns (more: seq<Object>)
    requires Indexes(ix, objs) && Acyclic(objs)
    ensures more == out + Preorder(objs, KeyOf(r), |Children(objs, KeyOf(r))|)
    decreases |Below(objs, KeyOf(r))|, 1
  {
    more := out;
    var children := ChildrenIn(ix, KeyOf(r));
    for i := 0 to |children|
      invariant more == out + Preorder(objs, KeyOf(r), i)
    {
      PreorderAfter(objs, KeyOf(r), i, out);
      more := WalkChild(ix, children[i], more, objs, KeyOf(r));
    }
  }

  method WalkChild(ix: Index, c: Object, out: seq<Object>, ghost objs: seq<Object>, ghost owner: Key)
    returns (more: seq<Object>)
    requires Indexes(ix, objs) && Acyclic(objs) && c in Children(objs, owner)
    ensures more == out + [c] + Preorder(objs, KeyOf(c.ref), |Children(objs, KeyOf(c.ref))|)
    decreases |Below(objs, owner)|, 0
  {
    ChildHasFewerBelow(objs, owner, c);
    more := WalkDown(ix, c.ref, out + [c], objs);
  }

  method Descendants(ix: Index, root: Ref, ghost objs: seq<Object>) returns (out: seq<Object>)
    requires Indexes(ix, objs) && Acyclic(objs)
    ensures forall o :: o in out <==> OwnedBelow(objs, KeyOf(root), o)
  {
    out := WalkDown(ix, root, [], objs);
    PreorderIsBelow(objs, KeyOf(root));
  }

  /** The pods owned by k, directly or through other objects. */
  ghost predicate ArePodsBelow(objs: seq<Object>, k: Key, pods: seq<Ref>) {
    forall x: Key :: InGroup(pods, x) <==> x.kind == "Pod" && Descends(objs, k, x)
  }

  lemma PodBelowDescends(objs: seq<Object>, k: Key, pods: seq<Ref>, i: nat)
    requires ArePodsBelow(objs, k, pods) && i < |pods|
    ensures Descends(objs, k, KeyOf(pods[i]))
  {
    assert InGroup(pods, KeyOf(pods[i]));
  }

  method PodsOf(ix: Index, root: Ref, ghost objs: seq<Object>) returns (pods: seq<Ref>)
    requires Indexes(ix, objs) && Acyclic(objs)
    ensures ArePodsBelow(objs, KeyOf(root), pods)
  {
    var all := Descendants(ix, root, objs);
    pods := [];
    for i := 0 to |all|
      invariant forall r :: r in pods ==> r.kind == "Pod" && Descends(objs, KeyOf(root), KeyOf(r))
      invariant forall o :: o in all[..i] && o.ref.kind == "Pod" ==> o.ref in pods
    {
      OwnedBelowDescends(objs, KeyOf(root), all[i]);
      if all[i].ref.kind == "Pod" {
        pods := pods + [all[i].ref];
      }
    }
    forall x: Key | x.kind == "Pod" && Descends(objs, KeyOf(root), x) ensures InGroup(pods, x) {
      var o := DescendantIsOwnedBelow(objs, KeyOf(root), x);
      assert o in all && o.ref in pods;
      var j :| 0 <= j < |pods| && pods[j] == o.ref;
    }
  }

  // ----- pod labels and selectors -----

  /** One of the pods has label k with value v. */
  predicate HasLabel(pods: seq<Object>, k: string, v: string) {
    exists i :: 0 <= i < |pods| && pods[i].ref.kind == "Pod" && k in pods[i].labels && pods[i].labels[k] == v
  }

  ghost predicate PodLabel(objs: seq<Object>, root: Key, k: string, v: string) {
    exists o :: OwnedBelow(objs, root, o) && o.ref.kind == "Pod" && k in o.labels && o.labels[k] == v
  }

  /** A label from the pods: each value is some pod's, and no pod's label is missing. */
  ghost predicate Unites(merged: map<string, string>, pods: seq<Object>) {
    (forall k :: k in merged ==> HasLabel(pods, k, merged[k])) &&
    (forall k, v :: HasLabel(pods, k, v) ==> k in merged)
  }

  lemma HasLabelFurther(pods: seq<Object>, o: Object, k: string, v: string)
    ensures HasLabel(pods + [o], k, v) <==>
            HasLabel(pods, k, v) || (o.ref.kind == "Pod" && k in o.labels && o.labels[k] == v)
  {
    var more := pods + [o];
    if HasLabel(pods, k, v) {
      var i :| 0 <= i < |pods| && pods[i].ref.kind == "Pod" && k in pods[i].labels && pods[i].labels[k] == v;
      assert more[i] == pods[i];
    }
    assert more[|pods|] == o;
  }

  lemma UnitesFurther(merged: map<string, string>, pods: seq<Object>, o: Object)
    requires Unites(merged, pods)
    ensures Unites(if o.ref.kind == "Pod" then merged + o.labels else merged, pods + [o])
  {
    var more := if o.ref.kind == "Pod" then merged + o.labels else merged;
    forall k | k in more ensures HasLabel(pods + [o], k, more[k]) {
      HasLabelFurther(pods, o, k, more[k]);
    }
    forall k, v | HasLabel(pods + [o], k, v) ensures k in more {
      HasLabelFurther(pods, o, k, v);
    }
  }

  lemma HasLabelIsPodLabel(objs: seq<Object>, root: Key, all: seq<Object>, k: string, v: string)
    requires forall o :: o in all <==> OwnedBelow(objs, root, o)
    ensures HasLabel(all, k, v) <==> PodLabel(objs, root, k, v)
  {
    if PodLabel(objs, root, k, v) {
      var o :| OwnedBelow(objs, root, o) && o.ref.kind == "Pod" && k in o.labels && o.labels[k] == v;
      var i :| 0 <= i < |all| && all[i] == o;
    }
  }

  /** Every label of the root's pods is there, with one of their values where the pods disagree; when the pods have no
      label at all, the labels of the root object itself. */
  ghost predicate RootLabels(objs: seq<Object>, root: Key, merged: map<string, string>) {
    if exists k, v :: PodLabel(objs, root, k, v)
    then (forall k :: k in merged ==> PodLabel(objs, root, k, merged[k])) &&
         (forall k, v :: PodLabel(objs, root, k, v) ==> k in merged)
    else merged == OwnLabels(objs, root)
  }

  /** The labels of some objects' pods; of several values of a label, the last. */
  function MergedLabels(objs: seq<Object>): map<string, string> {
    if objs == [] then map[]
    else
      var before, o := MergedLabels(objs[..|objs| - 1]), objs[|objs| - 1];
      if o.ref.kind == "Pod" then before + o.labels else before
  }

  /** The labels of the root object itself. */
  function OwnLabels(objs: seq<Object>, root: Key): map<string, string> {
    if root in ByKey(objs) then ByKey(objs)[root].labels else map[]
  }

  lemma {:induction false} MergedUnites(objs: seq<Object>)
    ensures Unites(MergedLabels(objs), objs)
  {
    if objs != [] {
      var init, o := objs[..|objs| - 1], objs[|objs| - 1];
      assert objs == init + [o];
      MergedUnites(init);
      UnitesFurther(MergedLabels(init), init, o);
    }
  }

  method MergeLabels(objs: seq<Object>) returns (merged: map<string, string>)
    ensures merged == MergedLabels(objs)
  {
    merged := map[];
    for i := 0 to |objs|
      invariant merged == MergedLabels(objs[..i])
    {
      assert objs[..i + 1][..i] == objs[..i];
      if objs[i].ref.kind == "Pod" {
        merged := merged + objs[i].labels;
      }
    }
    assert objs[..|objs|] == objs;
  }

  method PodLabels(ix: Index, root: Ref, ghost objs: seq<Object>) returns (merged: map<string, string>)
    requires Indexes(ix, objs) && Acyclic(objs)
    ensures RootLabels(objs, KeyOf(root), merged)
    ensures var own := MergedLabels(Preorder(objs, KeyOf(root), |Children(objs, KeyOf(root))|));
            merged == if own == map[] then OwnLabels(objs, KeyOf(root)) else own
  {
    var all := WalkDown(ix, root, [], objs);
    merged := MergeLabels(all);
    MergedAreRootLabels(objs, KeyOf(root), all, merged);
    if merged == map[] {
      if KeyOf(root) in ix.byKey {
        merged := ix.byKey[KeyOf(root)].labels;
      }
    }
  }

  lemma MergedAreRootLabels(objs: seq<Object>, root: Key, all: seq<Object>, merged: map<string, string>)
    requires Acyclic(objs) && all == [] + Preorder(objs, root, |Children(objs, root)|) && merged == MergedLabels(all)
    ensures merged == MergedLabels(Preorder(objs, root, |Children(objs, root)|))
    ensures RootLabels(objs, root, if merged == map[] then OwnLabels(objs, root) else merged)
  {
    assert all == Preorder(objs, root, |Children(objs, root)|);
    PreorderIsBelow(objs, root);
    MergedUnites(all);
    forall k, v ensures HasLabel(all, k, v) <==> PodLabel(objs, root, k, v) {
      HasLabelIsPodLabel(objs, root, all, k, v);
    }
  }

  /** A selector selects nothing when empty; a label that is missing reads as the empty string. */
  predicate SelectorMatches(selector: map<string, string>, labels: map<string, string>) {
    selector != map[] &&
    forall k :: k in selector ==> (if k in labels then labels[k] else "") == selector[k]
  }
}
