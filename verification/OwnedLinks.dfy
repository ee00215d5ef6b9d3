/** Every owner in the tree is recorded with each of its children (internal/investigation/builder.go:21-38,
    137-147): from the root along the owners, but not below the pods that the walk meets. */
module OwnedLinks {
  import opened InvestigationScope
  import opened ObjectIndex
  import opened ScopeGrowth

  predicate HasOwns(rels: seq<Relationship>, owner: Key, child: Ref) {
    exists i :: 0 <= i < |rels| && rels[i].kind == Owns && KeyOf(rels[i].from) == owner && rels[i].to == child
  }

  predicate OwnsNext(objs: seq<Object>, p: seq<Key>, i: nat)
    requires i + 1 < |p|
  {
    ObjectIndex.Owns(objs, p[i], p[i + 1])
  }

  /** From owner to child; beyond the first n steps, pods end the way. */
  predicate Way(objs: seq<Object>, p: seq<Key>, n: nat) {
    |p| > 0 && (forall i {:trigger OwnsNext(objs, p, i)} :: 0 <= i < |p| - 1 ==> OwnsNext(objs, p, i)) &&
    forall i :: n < i < |p| ==> p[i].kind != "Pod"
  }

  lemma WayOn(objs: seq<Object>, p: seq<Key>, n: nat)
    requires Way(objs, p, n) && |p| > 1
    ensures Way(objs, p[1..], if n > 0 then n - 1 else 0) && ObjectIndex.Owns(objs, p[0], p[1])
  {
    var q := p[1..];
    assert OwnsNext(objs, p, 0);
    forall i | 0 <= i < |q| - 1 ensures OwnsNext(objs, q, i) {
      assert OwnsNext(objs, p, i + 1);
    }
  }

  lemma OwnsStays(rels: seq<Relationship>, more: seq<Relationship>, owner: Key, child: Ref)
    requires HasOwns(rels, owner, child) && rels <= more
    ensures HasOwns(more, owner, child)
  {
    var i :| 0 <= i < |rels| && rels[i].kind == Owns && KeyOf(rels[i].from) == owner && rels[i].to == child;
    assert more[i] == rels[i];
  }

  lemma LinkedOwns(s: Scope, from: Ref, to: Ref)
    ensures var rels := Linked(s, from, to, Owns).relationships;
            s.relationships <= rels && HasOwns(rels, KeyOf(from), to)
  {
    var rels := Linked(s, from, to, Owns).relationships;
    assert rels == s.relationships + [Relationship(from, to, Owns)];
    assert rels[|rels| - 1] == Relationship(from, to, Owns);
  }

  // ----- the walk keeps what it has recorded -----

  predicate Keeps(s: Scope, t: Scope) {
    s.relationships <= t.relationships
  }

  lemma KeepsFurther(s: Scope, t: Scope, u: Scope, v: Scope)
    requires Keeps(s, t) && Keeps(t, u) && Keeps(u, v)
    ensures Keeps(s, v) && Keeps(s, u) && Keeps(t, v)
  {
  }

  lemma LinkedKeeps(s: Scope, from: Ref, to: Ref)
    ensures Keeps(s, Linked(s, from, to, Owns)) && HasOwns(Linked(s, from, to, Owns).relationships, KeyOf(from), to)
  {
    LinkedOwns(s, from, to);
  }

  lemma {:induction false} WalkKeeps(s: Scope, objs: seq<Object>, from: Ref, n: nat)
    requires Acyclic(objs) && n <= |Children(objs, KeyOf(from))|
    ensures Keeps(s, Walked(s, objs, from, n))
    decreases |Below(objs, KeyOf(from))|, n
  {
    if n > 0 {
      var gc, before := Children(objs, KeyOf(from))[n - 1], Walked(s, objs, from, n - 1);
      var t := Linked(before, from, gc.ref, Owns);
      WalkKeeps(s, objs, from, n - 1);
      LinkedKeeps(before, from, gc.ref);
      BelowKeeps(t, objs, from, gc);
      KeepsFurther(s, before, t, WalkedBelow(t, objs, from, gc));
      WalkedNext(s, objs, from, n - 1);
    }
  }

  lemma {:induction false} BelowKeeps(t: Scope, objs: seq<Object>, from: Ref, gc: Object)
    requires Acyclic(objs) && gc in Children(objs, KeyOf(from))
    ensures Keeps(t, WalkedBelow(t, objs, from, gc))
    decreases |Below(objs, KeyOf(from))|, 0
  {
    ChildShrinks(objs, from, gc);
    if gc.ref.kind == "Pod" {
      LinkedAllRelationships(t, PodRelationships(gc));
    } else {
      WalkKeeps(t, objs, gc.ref, |Children(objs, KeyOf(gc.ref))|);
    }
  }

  // ----- and records every owner with its children -----

  /** The j-th child of the way's first key leads on along it, to the object at its end. */
  ghost predicate LeadsTo(objs: seq<Object>, p: seq<Key>, j: nat, o: Object)
    requires |p| > 0
  {
    j < |Children(objs, p[0])| &&
    if |p| > 1 then KeyOf(Children(objs, p[0])[j].ref) == p[1] else Children(objs, p[0])[j] == o
  }

  lemma SomeLeads(objs: seq<Object>, p: seq<Key>, n: nat, o: Object) returns (j: nat)
    requires Way(objs, p, n) && o in Children(objs, p[|p| - 1])
    ensures LeadsTo(objs, p, j, o)
  {
    var children := Children(objs, p[0]);
    if |p| == 1 {
      j :| 0 <= j < |children| && children[j] == o;
    } else {
      assert OwnsNext(objs, p, 0);
      var i :| 0 <= i < |objs| && OwnedBy(objs[i], p[0]) && KeyOf(objs[i].ref) == p[1];
      assert objs[i] in children;
      j :| 0 <= j < |children| && children[j] == objs[i];
    }
  }

  lemma {:induction false} WalkRecords(s: Scope, objs: seq<Object>, from: Ref, n: nat, p: seq<Key>, j: nat, o: Object)
    requires Acyclic(objs) && n <= |Children(objs, KeyOf(from))| && Way(objs, p, 0) && p[0] == KeyOf(from)
    requires o in Children(objs, p[|p| - 1]) && LeadsTo(objs, p, j, o) && j < n
    ensures RecordsOwner(Walked(s, objs, from, n), p, o)
    decreases |Below(objs, KeyOf(from))|, n, 1
  {
    var gc, before := Children(objs, KeyOf(from))[n - 1], Walked(s, objs, from, n - 1);
    if j < n - 1 {
      var t := Linked(before, from, gc.ref, Owns);
      WalkRecords(s, objs, from, n - 1, p, j, o);
      LinkedKeeps(before, from, gc.ref);
      BelowKeeps(t, objs, from, gc);
      OwnerStays(before, t, WalkedBelow(t, objs, from, gc), p, o);
    } else {
      StepRecords(before, objs, from, n - 1, p, o);
    }
    WalkedNext(s, objs, from, n - 1);
  }

  lemma {:induction false} StepRecords(before: Scope, objs: seq<Object>, from: Ref, n: nat, p: seq<Key>, o: Object)
    requires Acyclic(objs) && n < |Children(objs, KeyOf(from))| && Way(objs, p, 0) && p[0] == KeyOf(from)
    requires o in Children(objs, p[|p| - 1]) && LeadsTo(objs, p, n, o)
    ensures var gc := Children(objs, KeyOf(from))[n];
            RecordsOwner(WalkedBelow(Linked(before, from, gc.ref, Owns), objs, from, gc), p, o)
    decreases |Below(objs, KeyOf(from))|, n + 1, 0
  {
    var gc := Children(objs, KeyOf(from))[n];
    var t := Linked(before, from, gc.ref, Owns);
    if |p| == 1 {
      LinkedKeeps(before, from, gc.ref);
      BelowKeeps(t, objs, from, gc);
      OwnerStays(t, t, WalkedBelow(t, objs, from, gc), p, o);
    } else {
      BelowRecords(t, objs, from, gc, p, o);
    }
  }

  predicate RecordsOwner(s: Scope, p: seq<Key>, o: Object)
    requires |p| > 0
  {
    HasOwns(s.relationships, p[|p| - 1], o.ref)
  }

  lemma OwnerStays(s: Scope, t: Scope, u: Scope, p: seq<Key>, o: Object)
    requires |p| > 0 && RecordsOwner(s, p, o) && Keeps(s, t) && Keeps(t, u)
    ensures RecordsOwner(u, p, o)
  {
    KeepsFurther(s, s, t, u);
    OwnsStays(s.relationships, u.relationships, p[|p| - 1], o.ref);
  }

  lemma {:induction false} BelowRecords(t: Scope, objs: seq<Object>, from: Ref, gc: Object, p: seq<Key>, o: Object)
    requires Acyclic(objs) && gc in Children(objs, KeyOf(from)) && Way(objs, p, 0) && |p| > 1 && p[0] == KeyOf(from)
    requires o in Children(objs, p[|p| - 1]) && KeyOf(gc.ref) == p[1]
    ensures RecordsOwner(WalkedBelow(t, objs, from, gc), p, o)
    decreases |Below(objs, KeyOf(from))|, 0
  {
    ChildShrinks(objs, from, gc);
    WayOn(objs, p, 0);
    SubtreeRecords(t, objs, gc.ref, p[1..], o);
  }

  lemma {:induction false} SubtreeRecords(t: Scope, objs: seq<Object>, from: Ref, p: seq<Key>, o: Object)
    requires Acyclic(objs) && Way(objs, p, 0) && p[0] == KeyOf(from) && o in Children(objs, p[|p| - 1])
    ensures RecordsOwner(Walked(t, objs, from, |Children(objs, KeyOf(from))|), p, o)
    decreases |Below(objs, KeyOf(from))|, |Children(objs, KeyOf(from))| + 1
  {
    var j := SomeLeads(objs, p, 0, o);
    WalkRecords(t, objs, from, |Children(objs, KeyOf(from))|, p, j, o);
  }

  // ----- from the root -----

  /** The way from the root on which its first n children lead. */
  ghost predicate FromFirst(objs: seq<Object>, root: Key, n: nat, p: seq<Key>, o: Object) {
    Way(objs, p, 1) && p[0] == root && o in Children(objs, p[|p| - 1]) &&
    exists j: int :: 0 <= j < n && LeadsTo(objs, p, j, o)
  }

  /** Every owner that is reached from the root through its first n children is recorded with each child. */
  ghost predicate FirstRecorded(s: Scope, objs: seq<Object>, root: Key, n: nat) {
    forall p, o {:trigger FromFirst(objs, root, n, p, o)} :: FromFirst(objs, root, n, p, o) ==> RecordsOwner(s, p, o)
  }

  /** A way from k, without pods beyond, to the owner of o. */
  predicate FromBelow(objs: seq<Object>, k: Key, p: seq<Key>, o: Object) {
    Way(objs, p, 0) && p[0] == k && o in Children(objs, p[|p| - 1])
  }

  /** Every owner from k on is recorded with each of its children. */
  ghost predicate HasSubtree(s: Scope, objs: seq<Object>, k: Key) {
    forall p, o {:trigger FromBelow(objs, k, p, o)} :: FromBelow(objs, k, p, o) ==> RecordsOwner(s, p, o)
  }

  lemma WholeSubtree(t: Scope, objs: seq<Object>, from: Ref)
    requires Acyclic(objs)
    ensures HasSubtree(Walked(t, objs, from, |Children(objs, KeyOf(from))|), objs, KeyOf(from))
  {
    forall p, o | FromBelow(objs, KeyOf(from), p, o)
      ensures RecordsOwner(Walked(t, objs, from, |Children(objs, KeyOf(from))|), p, o)
    {
      SubtreeRecords(t, objs, from, p, o);
    }
  }

  /** From s to t the scope has gained the link to the child, and every owner below it with its children. */
  ghost predicate GainsChild(s: Scope, t: Scope, objs: seq<Object>, root: Key, child: Object) {
    Keeps(s, t) && HasOwns(t.relationships, root, child.ref) && HasSubtree(t, objs, KeyOf(child.ref))
  }

  lemma ChildIsGained(s: Scope, objs: seq<Object>, root: Ref, c: Ref, child: Object)
    requires Acyclic(objs) && c == child.ref
    ensures var t := Walked(Linked(s, root, c, Owns), objs, c, |Children(objs, KeyOf(c))|);
            GainsChild(s, t, objs, KeyOf(root), child)
  {
    var t, n := Linked(s, root, c, Owns), |Children(objs, KeyOf(c))|;
    LinkedKeeps(s, root, c);
    WalkKeeps(t, objs, c, n);
    WholeSubtree(t, objs, c);
    KeepsFurther(s, s, t, Walked(t, objs, c, n));
    OwnsStays(t.relationships, Walked(t, objs, c, n).relationships, KeyOf(root), c);
  }

  lemma RecordedNext(s: Scope, t: Scope, objs: seq<Object>, root: Key, n: nat)
    requires n < |Children(objs, root)| && FirstRecorded(s, objs, root, n)
    requires GainsChild(s, t, objs, root, Children(objs, root)[n])
    ensures FirstRecorded(t, objs, root, n + 1)
  {
    forall p, o | FromFirst(objs, root, n + 1, p, o) ensures RecordsOwner(t, p, o) {
      var j: int :| 0 <= j < n + 1 && LeadsTo(objs, p, j, o);
      if j < n {
        assert FromFirst(objs, root, n, p, o);
        OwnerStays(s, s, t, p, o);
      } else {
        RecordedBelow(t, objs, root, n, p, o);
      }
    }
  }

  lemma RecordedBelow(t: Scope, objs: seq<Object>, root: Key, n: nat, p: seq<Key>, o: Object)
    requires n < |Children(objs, root)| && Way(objs, p, 1) && p[0] == root && o in Children(objs, p[|p| - 1])
    requires LeadsTo(objs, p, n, o)
    requires var c := Children(objs, root)[n].ref;
             HasOwns(t.relationships, root, c) && HasSubtree(t, objs, KeyOf(c))
    ensures RecordsOwner(t, p, o)
  {
    if |p| > 1 {
      WayOn(objs, p, 1);
      assert FromBelow(objs, p[1], p[1..], o);
      assert RecordsOwner(t, p[1..], o);
    }
  }

  /** Every owner reached from the root, except what a pod below one of the root's children owns, is recorded with each
      of its children. */
  ghost predicate OwnersRecorded(s: Scope, objs: seq<Object>, root: Key) {
    forall p, o :: Way(objs, p, 1) && p[0] == root && o in Children(objs, p[|p| - 1]) ==>
                     HasOwns(s.relationships, p[|p| - 1], o.ref)
  }

  lemma AllRecorded(s: Scope, objs: seq<Object>, root: Key)
    requires FirstRecorded(s, objs, root, |Children(objs, root)|)
    ensures OwnersRecorded(s, objs, root)
  {
    forall p, o | Way(objs, p, 1) && p[0] == root && o in Children(objs, p[|p| - 1])
      ensures HasOwns(s.relationships, p[|p| - 1], o.ref)
    {
      var j := SomeLeads(objs, p, 1, o);
      assert FromFirst(objs, root, |Children(objs, root)|, p, o);
      assert RecordsOwner(s, p, o);
    }
  }

  lemma OwnersStay(s: Scope, t: Scope, objs: seq<Object>, root: Key)
    requires OwnersRecorded(s, objs, root) && Keeps(s, t)
    ensures OwnersRecorded(t, objs, root)
  {
    forall p, o | Way(objs, p, 1) && p[0] == root && o in Children(objs, p[|p| - 1])
      ensures HasOwns(t.relationships, p[|p| - 1], o.ref)
    {
      OwnsStays(s.relationships, t.relationships, p[|p| - 1], o.ref);
    }
  }
}
