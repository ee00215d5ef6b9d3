/** The scope of an investigation (internal/investigation/scope.go:87-210): resources, de-duplicated by kind and
    name, and the relationships between them. */
module InvestigationScope {
  import opened BarText

  datatype Ref = Ref(kind: string, name: string, namespace: string, apiVersion: string)

  /** The program joins kind and name with a bar; kinds contain no bar. */
  datatype Key = Key(kind: string, name: string)

  function KeyOf(r: Ref): Key {
    Key(r.kind, r.name)
  }

  function KeyText(k: Key): string {
    k.kind + "|" + k.name
  }

  /** For kinds without a bar the program's text stands for the pair, whatever the names contain. */
  lemma KeyTextIdentifies(a: Key, b: Key)
    requires BarFree(a.kind) && BarFree(b.kind)
    ensures KeyText(a) == KeyText(b) <==> a == b
  {
    JoinedAlike(a.kind, a.name, b.kind, b.name);
  }

  datatype RelationKind = Owns | Selects | Routes | Mounts | Targets | Binds | Uses | Schedules | Related
  datatype Relationship = Relationship(from: Ref, to: Ref, kind: RelationKind)

  /** The slices of the scope, by kind; other kinds are only remembered as seen. */
  function GroupOf(kind: string): string {
    if kind == "ReplicationController" then "ReplicaSet"
    else if kind in {"Deployment", "StatefulSet", "DaemonSet", "ReplicaSet", "Pod", "Job", "CronJob", "Service",
                     "Ingress", "Endpoints", "EndpointSlice", "Node", "Event", "ConfigMap", "Secret",
                     "PersistentVolumeClaim", "HorizontalPodAutoscaler", "ServiceAccount", "Role", "RoleBinding",
                     "PodDisruptionBudget", "NetworkPolicy"} then kind
    else ""
  }

  datatype Scope = Scope(namespace: string, groups: map<string, seq<Ref>>, relationships: seq<Relationship>,
                         seen: set<Key>)

  function Group(s: Scope, name: string): seq<Ref> {
    if name in s.groups then s.groups[name] else []
  }

  function Added(s: Scope, r: Ref): Scope {
    if r.name == "" || KeyOf(r) in s.seen then s
    else
      var placed := if r.namespace == "" then r.(namespace := s.namespace) else r;
      var g := GroupOf(r.kind);
      s.(seen := s.seen + {KeyOf(r)}, groups := if g == "" then s.groups else s.groups[g := Group(s, g) + [placed]])
  }

  function Linked(s: Scope, from: Ref, to: Ref, kind: RelationKind): Scope {
    var t := Added(Added(s, from), to);
    t.(relationships := t.relationships + [Relationship(from, to, kind)])
  }

  // ----- connectivity -----

  /** A relationship joins the two keys, in either direction. */
  predicate Joins(r: Relationship, a: Key, b: Key) {
    (KeyOf(r.from) == a && KeyOf(r.to) == b) || (KeyOf(r.from) == b && KeyOf(r.to) == a)
  }

  predicate Edge(rels: seq<Relationship>, a: Key, b: Key) {
    exists i :: 0 <= i < |rels| && Joins(rels[i], a, b)
  }

  predicate Walk(p: seq<Key>, rels: seq<Relationship>) {
    p != [] && forall i :: 0 <= i < |p| - 1 ==> Edge(rels, p[i], p[i + 1])
  }

  ghost predicate Connected(rels: seq<Relationship>, a: Key, b: Key) {
    exists p {:trigger Walk(p, rels)} :: Walk(p, rels) && p[0] == a && p[|p| - 1] == b
  }

  lemma ConnectedToItself(rels: seq<Relationship>, a: Key)
    ensures Connected(rels, a, a)
  {
    assert Walk([a], rels);
  }

  lemma EdgeOfMore(rels: seq<Relationship>, more: seq<Relationship>, a: Key, b: Key)
    requires Edge(rels, a, b) && rels <= more
    ensures Edge(more, a, b)
  {
    var i :| 0 <= i < |rels| && Joins(rels[i], a, b);
    assert Joins(more[i], a, b);
  }

  lemma ConnectedInMore(rels: seq<Relationship>, more: seq<Relationship>, a: Key, b: Key)
    requires Connected(rels, a, b) && rels <= more
    ensures Connected(more, a, b)
  {
    var p :| Walk(p, rels) && p[0] == a && p[|p| - 1] == b;
    forall i | 0 <= i < |p| - 1 ensures Edge(more, p[i], p[i + 1]) {
      EdgeOfMore(rels, more, p[i], p[i + 1]);
    }
    assert Walk(p, more);
  }

  lemma ConnectedFurther(rels: seq<Relationship>, a: Key, b: Key, c: Key)
    requires Connected(rels, a, b) && Edge(rels, b, c)
    ensures Connected(rels, a, c)
  {
    var p :| Walk(p, rels) && p[0] == a && p[|p| - 1] == b;
    var q := p + [c];
    forall i | 0 <= i < |q| - 1 ensures Edge(rels, q[i], q[i + 1]) {
      assert i < |p| - 1 ==> q[i] == p[i] && q[i + 1] == p[i + 1];
    }
    assert Walk(q, rels);
  }

  // ----- the invariants of a scope -----

  /** A resource without a name is never recorded. */
  predicate InScope(s: Scope, k: Key) {
    k.name == "" || k in s.seen
  }

  /** Both ends of every relationship are in scope. */
  ghost predicate Closed(s: Scope) {
    forall i :: 0 <= i < |s.relationships| ==>
                  InScope(s, KeyOf(s.relationships[i].from)) && InScope(s, KeyOf(s.relationships[i].to))
  }

  /** Every resource in scope, except those in pending, is connected to the root. */
  ghost predicate ConnectedBut(s: Scope, root: Key, pending: set<Key>) {
    forall k :: k in s.seen && k !in pending ==> Connected(s.relationships, root, k)
  }

  predicate InGroup(refs: seq<Ref>, k: Key) {
    exists i :: 0 <= i < |refs| && KeyOf(refs[i]) == k
  }

  /** The slice holds resources in scope of the kinds of group g, each once, and with a namespace if the scope has
      one. */
  ghost predicate SliceOf(s: Scope, g: string, refs: seq<Ref>) {
    (forall i :: 0 <= i < |refs| ==> GroupOf(refs[i].kind) == g && KeyOf(refs[i]) in s.seen) &&
    (forall i :: 0 <= i < |refs| && refs[i].namespace == "" ==> s.namespace == "") &&
    (forall i, j :: 0 <= i < j < |refs| ==> KeyOf(refs[i]) != KeyOf(refs[j]))
  }

  ghost predicate Placed(s: Scope, k: Key) {
    GroupOf(k.kind) != "" ==> InGroup(Group(s, GroupOf(k.kind)), k)
  }

  /** Each slice holds exactly the resources in scope of its kinds, each once. */
  ghost predicate Grouped(s: Scope) {
    (forall g :: g in s.groups ==> g != "" && SliceOf(s, g, s.groups[g])) &&
    (forall k :: k in s.seen ==> Placed(s, k))
  }

  lemma AddedKeepsGroups(s: Scope, r: Ref)
    requires Grouped(s)
    ensures Grouped(Added(s, r))
  {
    var t := Added(s, r);
    if t != s {
      var g := GroupOf(r.kind);
      if g != "" {
        assert t.groups[g] == Group(s, g) + [t.groups[g][|Group(s, g)|]];
        assert KeyOf(t.groups[g][|Group(s, g)|]) == KeyOf(r);
        assert SliceOf(s, g, Group(s, g));
        assert SliceOf(t, g, t.groups[g]);
      }
      forall h | h in t.groups ensures h != "" && SliceOf(t, h, t.groups[h]) {
        if h != g {
          assert SliceOf(s, h, s.groups[h]);
        }
      }
      forall k | k in t.seen ensures Placed(t, k) {
        if k in s.seen {
          assert Placed(s, k);
          PlacedStays(s, r, k);
        }
      }
    }
  }

  lemma PlacedStays(s: Scope, r: Ref, k: Key)
    requires Placed(s, k)
    ensures Placed(Added(s, r), k)
  {
    var h := GroupOf(k.kind);
    if h != "" {
      var before, after := Group(s, h), Group(Added(s, r), h);
      assert before <= after;
      var i :| 0 <= i < |before| && KeyOf(before[i]) == k;
      assert KeyOf(after[i]) == k;
    }
  }

  /** The invariant while the scope is built: closed and grouped, and, if the root has pods, connected except for the
      pending resources, which have been added but not linked yet. */
  ghost predicate Sound(s: Scope, root: Key, hasPods: bool, pending: set<Key>) {
    Closed(s) && Grouped(s) && (hasPods ==> ConnectedBut(s, root, pending))
  }

  /** s has grown to t. */
  ghost predicate Grows(s: Scope, t: Scope) {
    s.namespace == t.namespace && s.seen <= t.seen && s.relationships <= t.relationships
  }

  lemma ConnectedAfter(s: Scope, t: Scope, root: Key, k: Key)
    requires Grows(s, t) && Connected(s.relationships, root, k)
    ensures Connected(t.relationships, root, k)
  {
    ConnectedInMore(s.relationships, t.relationships, root, k);
  }

  lemma AddedIsSound(s: Scope, r: Ref, root: Key, hasPods: bool, pending: set<Key>)
    requires Sound(s, root, hasPods, pending)
    ensures var t := Added(s, r);
            Sound(t, root, hasPods, if KeyOf(r) in s.seen then pending else pending + {KeyOf(r)}) && Grows(s, t) &&
            InScope(t, KeyOf(r)) && t.seen <= s.seen + {KeyOf(r)}
  {
    AddedKeepsGroups(s, r);
  }

  /** A relationship connects its other end as soon as one end is connected. */
  lemma LinkedIsSound(s: Scope, from: Ref, to: Ref, kind: RelationKind, root: Key, hasPods: bool, pending: set<Key>)
    requires Sound(s, root, hasPods, pending)
    requires hasPods ==> Connected(s.relationships, root, KeyOf(from)) || Connected(s.relationships, root, KeyOf(to))
    ensures var t := Linked(s, from, to, kind);
            Sound(t, root, hasPods, pending - {KeyOf(from), KeyOf(to)}) && Grows(s, t) &&
            InScope(t, KeyOf(from)) && InScope(t, KeyOf(to)) && t.seen <= s.seen + {KeyOf(from), KeyOf(to)} &&
            (hasPods ==> Connected(t.relationships, root, KeyOf(from)) && Connected(t.relationships, root, KeyOf(to)))
  {
    var t := Linked(s, from, to, kind);
    LinkedIsClosed(s, from, to, kind);
    if hasPods {
      EndsConnected(s.relationships, from, to, kind, root);
      assert t.relationships == s.relationships + [Relationship(from, to, kind)];
      forall k | k in t.seen && k !in pending - {KeyOf(from), KeyOf(to)} ensures Connected(t.relationships, root, k) {
        if k != KeyOf(from) && k != KeyOf(to) {
          ConnectedInMore(s.relationships, t.relationships, root, k);
        }
      }
    }
  }

  lemma LinkedIsClosed(s: Scope, from: Ref, to: Ref, kind: RelationKind)
    requires Closed(s) && Grouped(s)
    ensures Closed(Linked(s, from, to, kind)) && Grouped(Linked(s, from, to, kind))
  {
    var t := Linked(s, from, to, kind);
    var u := Added(Added(s, from), to);
    AddedKeepsGroups(s, from);
    AddedKeepsGroups(Added(s, from), to);
    forall g | g in t.groups ensures g != "" && SliceOf(t, g, t.groups[g]) {
      assert SliceOf(u, g, u.groups[g]);
    }
    forall k | k in t.seen ensures Placed(t, k) {
      assert Placed(u, k);
    }
  }

  lemma EndsConnected(rels: seq<Relationship>, from: Ref, to: Ref, kind: RelationKind, root: Key)
    requires Connected(rels, root, KeyOf(from)) || Connected(rels, root, KeyOf(to))
    ensures Connected(rels + [Relationship(from, to, kind)], root, KeyOf(from))
    ensures Connected(rels + [Relationship(from, to, kind)], root, KeyOf(to))
  {
    var more := rels + [Relationship(from, to, kind)];
    var a, b := KeyOf(from), KeyOf(to);
    assert Joins(more[|rels|], a, b) && Joins(more[|rels|], b, a);
    if Connected(rels, root, a) {
      ConnectedInMore(rels, more, root, a);
      ConnectedFurther(more, root, a, b);
    } else {
      ConnectedInMore(rels, more, root, b);
      ConnectedFurther(more, root, b, a);
    }
  }
}
