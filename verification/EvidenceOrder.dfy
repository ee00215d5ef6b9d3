/** Which evidence gives way, how the rest stays in order, and how severities are conserved. */
module EvidenceOrder {
  import opened RingBuffer
  import opened EvidenceRuns

  // ----- which evidence gives way -----

  predicate AnySuch(events: seq<Evidence>, p: Evidence -> bool) {
    exists i :: 0 <= i < |events| && p(events[i])
  }

  predicate OldestSuch(events: seq<Evidence>, v: nat, p: Evidence -> bool) {
    v < |events| && p(events[v]) && forall j :: v < j < |events| ==> !p(events[j])
  }

  function InfoLog(): Evidence -> bool {
    (e: Evidence) => e.source == Log && e.severity == Info
  }

  function AnyLog(): Evidence -> bool {
    (e: Evidence) => e.source == Log
  }

  function NoEvent(): Evidence -> bool {
    (e: Evidence) => e.source != K8sEvent
  }

  function NotCritical(): Evidence -> bool {
    (e: Evidence) => e.severity != Critical
  }

  /** The victim is the oldest INFO log; without any, the oldest log; without any, the oldest evidence that is no
      Kubernetes event; without any, the oldest that is not critical; and only then the oldest critical event. */
  lemma VictimIsLeastValuable(events: seq<Evidence>, v: nat)
    requires IsVictim(events, v)
    ensures if AnySuch(events, InfoLog()) then OldestSuch(events, v, InfoLog())
            else if AnySuch(events, AnyLog()) then OldestSuch(events, v, AnyLog())
            else if AnySuch(events, NoEvent()) then OldestSuch(events, v, NoEvent())
            else if AnySuch(events, NotCritical()) then OldestSuch(events, v, NotCritical())
            else v == |events| - 1
  {
    assert Tier(events[|events| - 1]) >= Tier(events[v]);
  }

  // ----- the order of the buffer -----

  /** xs is ys with some elements left out. */
  predicate InOrder(xs: seq<Evidence>, ys: seq<Evidence>)
    decreases |ys|
  {
    xs == [] || (ys != [] && ((xs[0] == ys[0] && InOrder(xs[1..], ys[1..])) || InOrder(xs, ys[1..])))
  }

  lemma {:induction false} AllInOrder(xs: seq<Evidence>)
    ensures InOrder(xs, xs)
  {
    if xs != [] {
      AllInOrder(xs[1..]);
    }
  }

  lemma {:induction false} RestInOrder(xs: seq<Evidence>, ys: seq<Evidence>)
    requires InOrder(xs, ys) && xs != []
    ensures InOrder(xs[1..], ys)
    decreases |ys|
  {
    if !(xs[0] == ys[0] && InOrder(xs[1..], ys[1..])) {
      RestInOrder(xs, ys[1..]);
    }
  }

  lemma {:induction false} RemovedInOrder(xs: seq<Evidence>, ys: seq<Evidence>, i: nat)
    requires InOrder(xs, ys) && i < |xs|
    ensures InOrder(RemoveAt(xs, i), ys)
    decreases |ys|
  {
    if i == 0 {
      RestInOrder(xs, ys);
      assert RemoveAt(xs, 0) == xs[1..];
    } else if xs[0] == ys[0] && InOrder(xs[1..], ys[1..]) {
      RemovedInOrder(xs[1..], ys[1..], i - 1);
      assert RemoveAt(xs, i)[0] == xs[0] && RemoveAt(xs, i)[1..] == RemoveAt(xs[1..], i - 1);
    } else {
      RemovedInOrder(xs, ys[1..], i);
    }
  }

  lemma {:induction false} EvictedInOrder(b: Buffer, cap: nat, ys: seq<Evidence>)
    requires InOrder(b.events, ys)
    ensures InOrder(EvictedTo(b, cap).events, ys)
    decreases |b.events|
  {
    if |b.events| > cap {
      RemovedInOrder(b.events, ys, Victim(b.events));
      EvictedInOrder(Evicted(b), cap, ys);
    }
  }

  /** What the addition tells, and when: an unset time becomes the present. */
  predicate Tells(front: Evidence, op: Op)
    requires op.Add?
  {
    front.source == op.e.source && front.message == op.e.message && front.raw == op.e.raw && front.pod == op.e.pod &&
    front.container == op.e.container && front.reason == op.e.reason && front.sourceKind == op.e.sourceKind &&
    front.sourceName == op.e.sourceName && front.timestamp == if op.e.timestamp == 0 then op.now else op.e.timestamp
  }

  /** What is added, or has absorbed an earlier one, goes in front of all that was there, and the rest stays in
      order. */
  lemma AdditionGoesInFront(b: Buffer, cap: nat, f: Formats, op: Op) returns (front: Evidence)
    requires op.Add?
    ensures var r := Apply(b, cap, f, op);
            Tells(front, op) && InOrder(r.events, [front] + b.events) &&
            (|r.events| < |b.events| + 1 ==> Collapses(b, Prepared(op.e, f, op.now)) || |r.events| == cap)
  {
    var e := Prepared(op.e, f, op.now);
    front := e;
    if Collapses(b, e) {
      var pos := OldestAt(b.events, e.fingerprint);
      front := Collapsed(b.events[pos], e);
      AllInOrder(b.events);
      RemovedInOrder(b.events, b.events, pos);
      assert ([front] + b.events)[1..] == b.events;
      assert Added(b, cap, e).events[1..] == RemoveAt(b.events, pos);
    } else {
      AllInOrder([e] + b.events);
      EvictedInOrder(b.(events := [e] + b.events), cap, [e] + b.events);
    }
  }

  // ----- severities -----

  function OfSeverity(events: seq<Evidence>, s: Severity): nat {
    if events == [] then 0 else (if events[0].severity == s then 1 else 0) + OfSeverity(events[1..], s)
  }

  function DroppedOf(b: Buffer, s: Severity): nat {
    if s in b.droppedBy then b.droppedBy[s] else 0
  }

  function AddedOf(ops: seq<Op>, s: Severity): nat {
    if ops == [] then 0
    else AddedOf(ops[..|ops| - 1], s) + if ops[|ops| - 1].Add? && ops[|ops| - 1].e.severity == s then 1 else 0
  }

  function Lesser(a: Severity, b: Severity): Severity {
    if Rank(a) > Rank(b) then b else a
  }

  /** When two collapse, the lesser of the severities is absorbed. */
  predicate Absorbs(b: Buffer, e: Evidence, s: Severity) {
    Collapses(b, e) && Lesser(b.events[OldestAt(b.events, e.fingerprint)].severity, e.severity) == s
  }

  function AbsorbedOf(cap: nat, f: Formats, ops: seq<Op>, s: Severity): nat {
    if ops == [] then 0
    else
      var op, b := ops[|ops| - 1], Run(cap, f, ops[..|ops| - 1]);
      AbsorbedOf(cap, f, ops[..|ops| - 1], s) + if op.Add? && Absorbs(b, Prepared(op.e, f, op.now), s) then 1 else 0
  }

  lemma {:induction false} OfSeverityConcat(a: seq<Evidence>, b: seq<Evidence>, s: Severity)
    ensures OfSeverity(a + b, s) == OfSeverity(a, s) + OfSeverity(b, s)
  {
    if a == [] {
      assert a + b == b;
    } else {
      assert (a + b)[1..] == a[1..] + b;
      OfSeverityConcat(a[1..], b, s);
    }
  }

  lemma SeverityRemoved(events: seq<Evidence>, i: nat, s: Severity)
    requires i < |events|
    ensures OfSeverity(RemoveAt(events, i), s) == OfSeverity(events, s) - if events[i].severity == s then 1 else 0
  {
    assert events == events[..i] + events[i..];
    OfSeverityConcat(events[..i], events[i..], s);
    OfSeverityConcat(events[..i], events[i + 1..], s);
  }

  lemma {:induction false} EvictionKeepsSeverities(b: Buffer, cap: nat, s: Severity)
    ensures var r := EvictedTo(b, cap);
            OfSeverity(r.events, s) + DroppedOf(r, s) == OfSeverity(b.events, s) + DroppedOf(b, s)
    decreases |b.events|
  {
    if |b.events| > cap {
      SeverityRemoved(b.events, Victim(b.events), s);
      EvictionKeepsSeverities(Evicted(b), cap, s);
    }
  }

  lemma AdditionKeepsSeverities(b: Buffer, cap: nat, e: Evidence, s: Severity)
    ensures var r := Added(b, cap, e);
            OfSeverity(r.events, s) + DroppedOf(r, s) + (if Absorbs(b, e, s) then 1 else 0) ==
            OfSeverity(b.events, s) + DroppedOf(b, s) + if e.severity == s then 1 else 0
  {
    if Collapses(b, e) {
      var pos := OldestAt(b.events, e.fingerprint);
      SeverityRemoved(b.events, pos, s);
      OfSeverityConcat([Collapsed(b.events[pos], e)], RemoveAt(b.events, pos), s);
    } else {
      OfSeverityConcat([e], b.events, s);
      EvictionKeepsSeverities(b.(events := [e] + b.events), cap, s);
    }
  }

  /** What one more addition does to the buffer and to the sums, in terms of what was before. */
  lemma OneMore(cap: nat, f: Formats, ops: seq<Op>, s: Severity, b: Buffer)
    requires ops != [] && ops[|ops| - 1].Add? && b == Run(cap, f, ops[..|ops| - 1])
    ensures var e := Prepared(ops[|ops| - 1].e, f, ops[|ops| - 1].now);
            Run(cap, f, ops) == Added(b, cap, e) &&
            AddedOf(ops, s) == AddedOf(ops[..|ops| - 1], s) + (if e.severity == s then 1 else 0) &&
            AbsorbedOf(cap, f, ops, s) ==
            AbsorbedOf(cap, f, ops[..|ops| - 1], s) + if Absorbs(b, e, s) then 1 else 0
  {
  }

  predicate Conserved(b: Buffer, s: Severity, added: nat, absorbed: nat) {
    added == OfSeverity(b.events, s) + DroppedOf(b, s) + absorbed
  }

  lemma StaysConserved(b: Buffer, cap: nat, e: Evidence, s: Severity, added: nat, absorbed: nat)
    requires Conserved(b, s, added, absorbed)
    ensures Conserved(Added(b, cap, e), s, added + (if e.severity == s then 1 else 0),
                      absorbed + if Absorbs(b, e, s) then 1 else 0)
  {
    AdditionKeepsSeverities(b, cap, e, s);
  }

  /** In a run of additions, everything added with a severity is in the buffer with it, counted as dropped under it, or
      absorbed by something at least as severe. */
  lemma {:induction false} SeveritiesAreConserved(cap: nat, f: Formats, ops: seq<Op>, s: Severity)
    requires forall i :: 0 <= i < |ops| ==> ops[i].Add?
    ensures Conserved(Run(cap, f, ops), s, AddedOf(ops, s), AbsorbedOf(cap, f, ops, s))
  {
    if ops != [] {
      var init, op := ops[..|ops| - 1], ops[|ops| - 1];
      SeveritiesAreConserved(cap, f, init, s);
      var b := Run(cap, f, init);
      StaysConserved(b, cap, Prepared(op.e, f, op.now), s, AddedOf(init, s), AbsorbedOf(cap, f, init, s));
      OneMore(cap, f, ops, s, b);
    }
  }
}
