/** What the evidence buffer keeps over whole runs: every Kubernetes event once, with the sum of all its
    occurrences, as long as they fit; and what it drops is counted. */
module EvidenceRuns {
  import opened RingBuffer

  function Run(cap: nat, f: Formats, ops: seq<Op>): Buffer {
    if ops == [] then EMPTY else Apply(Run(cap, f, ops[..|ops| - 1]), cap, f, ops[|ops| - 1])
  }

  // ----- eviction order -----

  /** A Kubernetes event is evicted only when nothing else is left, and a critical one only when all are critical. */
  lemma VictimProtectsEvents(events: seq<Evidence>, v: nat)
    requires IsVictim(events, v)
    ensures events[v].source == K8sEvent ==> forall e :: e in events ==> e.source == K8sEvent
    ensures events[v].source == K8sEvent && events[v].severity == Critical ==>
              forall e :: e in events ==> e.source == K8sEvent && e.severity == Critical
    ensures events[v].source == Log && events[v].severity != Info ==>
              forall e :: e in events ==> !(e.source == Log && e.severity == Info)
    ensures forall j :: v < j < |events| && events[j].source == events[v].source ==>
            events[j].severity != events[v].severity
  {
    forall e | e in events ensures Tier(events[v]) <= Tier(e) {
      var j :| 0 <= j < |events| && events[j] == e;
    }
  }

  // ----- counting -----

  function CountOf(events: seq<Evidence>, p: Fingerprint): nat {
    if events == [] then 0
    else CountOf(events[..|events| - 1], p) + if events[|events| - 1].fingerprint == p then 1 else 0
  }

  lemma {:induction false} CountConcat(a: seq<Evidence>, b: seq<Evidence>, p: Fingerprint)
    ensures CountOf(a + b, p) == CountOf(a, p) + CountOf(b, p)
  {
    if b == [] {
      assert a + b == a;
    } else {
      assert (a + b)[..|a + b| - 1] == a + b[..|b| - 1];
      CountConcat(a, b[..|b| - 1], p);
    }
  }

  lemma CountOne(e: Evidence, p: Fingerprint)
    ensures CountOf([e], p) == if e.fingerprint == p then 1 else 0
  {
    assert [e][..0] == [];
  }

  lemma CountRemoved(events: seq<Evidence>, i: nat, p: Fingerprint)
    requires i < |events|
    ensures CountOf(RemoveAt(events, i), p) == CountOf(events, p) - if events[i].fingerprint == p then 1 else 0
  {
    assert events == events[..i] + ([events[i]] + events[i + 1..]);
    CountConcat(events[..i], [events[i]] + events[i + 1..], p);
    CountConcat([events[i]], events[i + 1..], p);
    CountOne(events[i], p);
    CountConcat(events[..i], events[i + 1..], p);
  }

  lemma CountPushed(e: Evidence, events: seq<Evidence>, p: Fingerprint)
    ensures CountOf([e] + events, p) == CountOf(events, p) + if e.fingerprint == p then 1 else 0
  {
    CountConcat([e], events, p);
    CountOne(e, p);
  }

  lemma {:induction false} CountPositive(events: seq<Evidence>, p: Fingerprint)
    ensures CountOf(events, p) > 0 <==> OldestAt(events, p) >= 0
    ensures CountOf(events, p) > 0 <==> exists e :: e in events && e.fingerprint == p
  {
    if events != [] {
      var n := |events| - 1;
      CountPositive(events[..n], p);
      assert events == events[..n] + [events[n]];
    }
  }

  lemma {:induction false} KeptMembers(events: seq<Evidence>, keep: Evidence -> bool)
    ensures forall e :: e in Kept(events, keep) <==> e in events && keep(e)
    ensures |Kept(events, keep)| <= |events|
  {
    if events != [] {
      var n := |events| - 1;
      KeptMembers(events[..n], keep);
      assert events == events[..n] + [events[n]];
    }
  }

  lemma {:induction false} CountKept(events: seq<Evidence>, keep: Evidence -> bool, p: Fingerprint)
    requires forall e :: e in events && e.fingerprint == p ==> keep(e)
    ensures CountOf(Kept(events, keep), p) == CountOf(events, p)
  {
    if events != [] {
      var n := |events| - 1;
      assert events == events[..n] + [events[n]];
      CountKept(events[..n], keep, p);
      var front := Kept(events[..n], keep);
      if keep(events[n]) {
        CountConcat(front, [events[n]], p);
        CountOne(events[n], p);
      } else {
        assert front + [] == front;
      }
    }
  }

  /** Events with distinct fingerprints from a set are no more than the set. */
  lemma {:induction false} DistinctAtMost(events: seq<Evidence>, prints: set<Fingerprint>)
    requires forall e :: e in events ==> e.fingerprint in prints && CountOf(events, e.fingerprint) <= 1
    ensures |events| <= |prints|
  {
    if events != [] {
      var n := |events| - 1;
      var front, last := events[..n], events[n];
      assert events == front + [last];
      forall e | e in front ensures e.fingerprint in prints - {last.fingerprint} && CountOf(front, e.fingerprint) <= 1 {
        assert CountOf(events, e.fingerprint) <= 1;
        CountPositive(front, e.fingerprint);
      }
      DistinctAtMost(front, prints - {last.fingerprint});
    }
  }

  // ----- Kubernetes evidence is never lost while it fits -----

  /** An event comes with no fingerprint, or with its own (reducer.go:69-71). */
  predicate OwnPrint(op: Op, f: Formats) {
    op.Add? ==> op.e.fingerprint == Unset || op.e.fingerprint == FingerprintOf(op.e, f)
  }

  predicate AllOwn(ops: seq<Op>, f: Formats) {
    forall i :: 0 <= i < |ops| ==> OwnPrint(ops[i], f)
  }

  /** The occurrences of a Kubernetes event fingerprint, in the order they were added. */
  function Occurrences(ops: seq<Op>, f: Formats, p: Fingerprint): seq<Evidence> {
    if ops == [] then []
    else
      var op := ops[|ops| - 1];
      Occurrences(ops[..|ops| - 1], f, p) +
      if op.Add? && op.e.source == K8sEvent && Prepared(op.e, f, op.now).fingerprint == p
      then [Prepared(op.e, f, op.now)] else []
  }

  function EventPrints(ops: seq<Op>, f: Formats): set<Fingerprint> {
    if ops == [] then {}
    else
      var op := ops[|ops| - 1];
      EventPrints(ops[..|ops| - 1], f) +
      if op.Add? && op.e.source == K8sEvent then {Prepared(op.e, f, op.now).fingerprint} else {}
  }

  function MaxRank(occ: seq<Evidence>): int {
    if occ == [] then 0
    else
      var r := Rank(occ[|occ| - 1].severity);
      if MaxRank(occ[..|occ| - 1]) < r then r else MaxRank(occ[..|occ| - 1])
  }

  predicate SomeSeverity(occ: seq<Evidence>, s: Severity) {
    exists i :: 0 <= i < |occ| && occ[i].severity == s
  }

  /** An event that stands for all its occurrences: it is the last one, but for its count and its severity. */
  predicate Sums(e: Evidence, occ: seq<Evidence>) {
    occ != [] && e.source == K8sEvent && e == occ[|occ| - 1].(count := e.count, severity := e.severity) &&
    e.count == occ[0].count + |occ| - 1 && Rank(e.severity) == MaxRank(occ) && SomeSeverity(occ, e.severity)
  }

  predicate Tagged(e: Evidence) {
    e.fingerprint.Print? && (e.fingerprint.tag == "event" <==> e.source == K8sEvent)
  }

  predicate EventPrint(p: Fingerprint) {
    p.Print? && p.tag == "event"
  }

  ghost predicate Faithful(b: Buffer, cap: nat, f: Formats, ops: seq<Op>) {
    |b.events| <= cap &&
    (forall e :: e in b.events ==> Tagged(e)) &&
    (forall e :: e in b.events && e.source == K8sEvent ==> Sums(e, Occurrences(ops, f, e.fingerprint))) &&
    (forall p {:trigger CountOf(b.events, p)} :: EventPrint(p) ==>
       CountOf(b.events, p) == if p in EventPrints(ops, f) then 1 else 0)
  }

  lemma PreparedIsTagged(op: Op, f: Formats)
    requires op.Add? && OwnPrint(op, f)
    ensures Tagged(Prepared(op.e, f, op.now)) && Prepared(op.e, f, op.now).source == op.e.source
  {
  }

  lemma {:induction false} PrintsHaveOccurrences(ops: seq<Op>, f: Formats, p: Fingerprint)
    ensures p in EventPrints(ops, f) <==> Occurrences(ops, f, p) != []
  {
    if ops != [] {
      PrintsHaveOccurrences(ops[..|ops| - 1], f, p);
    }
  }

  lemma {:induction false} PrintsAreEventPrints(ops: seq<Op>, f: Formats)
    requires AllOwn(ops, f)
    ensures forall p :: p in EventPrints(ops, f) ==> EventPrint(p)
  {
    if ops != [] {
      PrintsAreEventPrints(ops[..|ops| - 1], f);
      assert OwnPrint(ops[|ops| - 1], f);
    }
  }

  lemma SumsOneMore(prev: Evidence, occ: seq<Evidence>, e: Evidence)
    requires Sums(prev, occ) && e.source == K8sEvent
    ensures Sums(Collapsed(prev, e), occ + [e])
  {
    var more := occ + [e];
    assert more[..|occ|] == occ && more[|occ|] == e;
    var i :| 0 <= i < |occ| && occ[i].severity == prev.severity;
    assert more[i].severity == prev.severity;
  }

  lemma SumsFirst(e: Evidence)
    requires e.source == K8sEvent
    ensures Sums(e, [e])
  {
    assert [e][..0] == [] && [e][0] == e;
  }

  /** The fingerprints and occurrences after one more addition. */
  lemma OneMoreOp(ops: seq<Op>, f: Formats, op: Op, p: Fingerprint)
    ensures var hit := op.Add? && op.e.source == K8sEvent && Prepared(op.e, f, op.now).fingerprint == p;
            Occurrences(ops + [op], f, p) ==
            (if hit then Occurrences(ops, f, p) + [Prepared(op.e, f, op.now)] else Occurrences(ops, f, p)) &&
            (p in EventPrints(ops + [op], f) <==> hit || p in EventPrints(ops, f))
  {
    assert (ops + [op])[..|ops|] == ops;
    assert Occurrences(ops, f, p) + [] == Occurrences(ops, f, p);
  }

  lemma MembersAfterRemove(events: seq<Evidence>, i: nat)
    requires i < |events|
    ensures forall e :: e in RemoveAt(events, i) ==> e in events
  {
  }

  /** Collapsing replaces one event by another with the same fingerprint. */
  lemma CollapseKeepsCounts(events: seq<Evidence>, pos: nat, c: Evidence, p: Fingerprint)
    requires pos < |events| && events[pos].fingerprint == c.fingerprint
    ensures CountOf([c] + RemoveAt(events, pos), p) == CountOf(events, p)
  {
    CountRemoved(events, pos, p);
    CountPushed(c, RemoveAt(events, pos), p);
  }

  lemma OthersDiffer(events: seq<Evidence>, pos: nat, g: Evidence)
    requires pos < |events| && CountOf(events, events[pos].fingerprint) <= 1 && g in RemoveAt(events, pos)
    ensures g.fingerprint != events[pos].fingerprint
  {
    CountRemoved(events, pos, events[pos].fingerprint);
    CountPositive(RemoveAt(events, pos), events[pos].fingerprint);
  }

  lemma CollapseCounts(b: Buffer, cap: nat, f: Formats, ops: seq<Op>, op: Op, p: Fingerprint)
    requires Faithful(b, cap, f, ops) && op.Add? && OwnPrint(op, f) && EventPrint(p)
    requires Collapses(b, Prepared(op.e, f, op.now))
    ensures CountOf(Apply(b, cap, f, op).events, p) == if p in EventPrints(ops + [op], f) then 1 else 0
  {
    var e := Prepared(op.e, f, op.now);
    var pos := OldestAt(b.events, e.fingerprint);
    assert CountOf(b.events, p) == if p in EventPrints(ops, f) then 1 else 0;
    OneMoreOp(ops, f, op, p);
    CollapseKeepsCounts(b.events, pos, Collapsed(b.events[pos], e), p);
    CountPositive(b.events, p);
  }

  lemma CollapseSums(b: Buffer, cap: nat, f: Formats, ops: seq<Op>, op: Op, g: Evidence)
    requires Faithful(b, cap, f, ops) && op.Add? && OwnPrint(op, f)
    requires Collapses(b, Prepared(op.e, f, op.now))
    requires g in Apply(b, cap, f, op).events && g.source == K8sEvent
    ensures Sums(g, Occurrences(ops + [op], f, g.fingerprint))
  {
    PreparedIsTagged(op, f);
    var e := Prepared(op.e, f, op.now);
    var pos := OldestAt(b.events, e.fingerprint);
    var prev := b.events[pos];
    var rest := RemoveAt(b.events, pos);
    MembersAfterRemove(b.events, pos);
    OneMoreOp(ops, f, op, g.fingerprint);
    if g in rest {
      if e.source == K8sEvent {
        assert CountOf(b.events, e.fingerprint) <= 1;
        OthersDiffer(b.events, pos, g);
      }
    } else {
      assert g == Collapsed(prev, e) && e.source == K8sEvent;
      assert prev in b.events && Tagged(prev) && prev.fingerprint == e.fingerprint;
      assert prev.source == K8sEvent;
      SumsOneMore(prev, Occurrences(ops, f, e.fingerprint), e);
    }
  }

  lemma CollapseIsFaithful(b: Buffer, cap: nat, f: Formats, ops: seq<Op>, op: Op)
    requires Faithful(b, cap, f, ops) && op.Add? && OwnPrint(op, f)
    requires Collapses(b, Prepared(op.e, f, op.now))
    ensures Faithful(Apply(b, cap, f, op), cap, f, ops + [op])
  {
    PreparedIsTagged(op, f);
    var e := Prepared(op.e, f, op.now);
    var pos := OldestAt(b.events, e.fingerprint);
    MembersAfterRemove(b.events, pos);
    var r := Apply(b, cap, f, op);
    assert r.events == [Collapsed(b.events[pos], e)] + RemoveAt(b.events, pos);
    forall p | EventPrint(p) ensures CountOf(r.events, p) == if p in EventPrints(ops + [op], f) then 1 else 0 {
      CollapseCounts(b, cap, f, ops, op, p);
    }
    forall g | g in r.events && g.source == K8sEvent ensures Sums(g, Occurrences(ops + [op], f, g.fingerprint)) {
      CollapseSums(b, cap, f, ops, op, g);
    }
  }

  /** Pushing a new event in front, before any eviction. */
  lemma PushIsFaithful(b: Buffer, cap: nat, f: Formats, ops: seq<Op>, op: Op)
    requires Faithful(b, cap, f, ops) && op.Add? && OwnPrint(op, f)
    requires !Collapses(b, Prepared(op.e, f, op.now))
    ensures var e := Prepared(op.e, f, op.now);
            Faithful(b.(events := [e] + b.events), cap + 1, f, ops + [op])
  {
    PreparedIsTagged(op, f);
    var e := Prepared(op.e, f, op.now);
    var events := [e] + b.events;
    CountPositive(b.events, e.fingerprint);
    forall p | EventPrint(p)
      ensures CountOf(events, p) == if p in EventPrints(ops + [op], f) then 1 else 0
    {
      assert CountOf(b.events, p) == if p in EventPrints(ops, f) then 1 else 0;
      OneMoreOp(ops, f, op, p);
      CountPushed(e, b.events, p);
    }
    forall g | g in events && g.source == K8sEvent ensures Sums(g, Occurrences(ops + [op], f, g.fingerprint)) {
      OneMoreOp(ops, f, op, g.fingerprint);
      if g in b.events {
        CountPositive(b.events, g.fingerprint);
      } else {
        assert CountOf(b.events, e.fingerprint) == if e.fingerprint in EventPrints(ops, f) then 1 else 0;
        PrintsHaveOccurrences(ops, f, e.fingerprint);
        assert [] + [e] == [e];
        SumsFirst(e);
      }
    }
  }

  /** With at most cap distinct Kubernetes events, making room never costs one. */
  lemma EvictionIsFaithful(b: Buffer, cap: nat, f: Formats, ops: seq<Op>)
    requires Faithful(b, cap + 1, f, ops) && AllOwn(ops, f) && |EventPrints(ops, f)| <= cap
    ensures Faithful(EvictedTo(b, cap), cap, f, ops)
  {
    if |b.events| > cap {
      var v := Victim(b.events);
      var events := RemoveAt(b.events, v);
      assert EvictedTo(b, cap).events == events;
      if b.events[v].source == K8sEvent {
        VictimProtectsEvents(b.events, v);
        forall e | e in b.events ensures e.fingerprint in EventPrints(ops, f) && CountOf(b.events, e.fingerprint) <= 1 {
          CountPositive(b.events, e.fingerprint);
        }
        DistinctAtMost(b.events, EventPrints(ops, f));
        assert false;
      }
      MembersAfterRemove(b.events, v);
      forall p | EventPrint(p) ensures CountOf(events, p) == if p in EventPrints(ops, f) then 1 else 0 {
        assert CountOf(b.events, p) == if p in EventPrints(ops, f) then 1 else 0;
        assert Tagged(b.events[v]);
        CountRemoved(b.events, v, p);
      }
    }
  }

  lemma FilterIsFaithful(b: Buffer, cap: nat, f: Formats, ops: seq<Op>, op: Op, keep: Evidence -> bool, b': Buffer)
    requires Faithful(b, cap, f, ops) && !op.Add?
    requires forall e: Evidence :: e.source == K8sEvent ==> keep(e)
    requires b'.events == Kept(b.events, keep) || b'.events == b.events
    ensures Faithful(b', cap, f, ops + [op])
  {
    KeptMembers(b.events, keep);
    forall p | EventPrint(p) ensures CountOf(b'.events, p) == if p in EventPrints(ops + [op], f) then 1 else 0 {
      assert CountOf(b.events, p) == if p in EventPrints(ops, f) then 1 else 0;
      OneMoreOp(ops, f, op, p);
      CountKept(b.events, keep, p);
    }
    forall g | g in b'.events && g.source == K8sEvent ensures Sums(g, Occurrences(ops + [op], f, g.fingerprint)) {
      OneMoreOp(ops, f, op, g.fingerprint);
      assert g in b.events;
    }
  }

  lemma StepIsFaithful(b: Buffer, cap: nat, f: Formats, ops: seq<Op>, op: Op)
    requires Faithful(b, cap, f, ops) && AllOwn(ops + [op], f) && |EventPrints(ops + [op], f)| <= cap
    ensures Faithful(Apply(b, cap, f, op), cap, f, ops + [op])
  {
    assert OwnPrint((ops + [op])[|ops|], f);
    match op {
      case Add(e, now) =>
        if Collapses(b, Prepared(e, f, now)) {
          CollapseIsFaithful(b, cap, f, ops, op);
        } else {
          PushIsFaithful(b, cap, f, ops, op);
          EvictionIsFaithful(b.(events := [Prepared(e, f, now)] + b.events), cap, f, ops + [op]);
        }
      case KeepLogsForPods(pods) =>
        FilterIsFaithful(b, cap, f, ops, op, LogsOf(NonEmptyNames(pods)), Apply(b, cap, f, op));
      case ClearLogsForPods(pods) =>
        FilterIsFaithful(b, cap, f, ops, op, LogsNotOf(NonEmptyNames(pods)), Apply(b, cap, f, op));
      case ClearLogs =>
        FilterIsFaithful(b, cap, f, ops, op, NoLogs(), Apply(b, cap, f, op));
    }
  }

  lemma PrintsGrow(ops: seq<Op>, f: Formats)
    requires ops != []
    ensures |EventPrints(ops[..|ops| - 1], f)| <= |EventPrints(ops, f)|
  {
    SubsetSize(EventPrints(ops[..|ops| - 1], f), EventPrints(ops, f));
  }

  lemma {:induction false} SubsetSize(a: set<Fingerprint>, b: set<Fingerprint>)
    requires a <= b
    ensures |a| <= |b|
  {
    if a != {} {
      var x :| x in a;
      SubsetSize(a - {x}, b - {x});
    }
  }

  lemma {:induction false} RunIsFaithful(cap: nat, f: Formats, ops: seq<Op>)
    requires AllOwn(ops, f) && |EventPrints(ops, f)| <= cap
    ensures Faithful(Run(cap, f, ops), cap, f, ops)
  {
    if ops != [] {
      var n := |ops| - 1;
      PrintsGrow(ops, f);
      RunIsFaithful(cap, f, ops[..n]);
      assert ops == ops[..n] + [ops[n]];
      StepIsFaithful(Run(cap, f, ops[..n]), cap, f, ops[..n], ops[n]);
    }
  }

  /** In any run with at most cap distinct Kubernetes event fingerprints, each of them is in the buffer exactly once,
      with the highest severity of all its occurrences, and counts the first occurrence's count plus one for each
      later one. */
  lemma EventsNeverLost(cap: nat, f: Formats, ops: seq<Op>, p: Fingerprint)
    requires AllOwn(ops, f) && |EventPrints(ops, f)| <= cap && p in EventPrints(ops, f)
    ensures var events := Run(cap, f, ops).events;
            CountOf(events, p) == 1 &&
            exists i :: 0 <= i < |events| && events[i].fingerprint == p && Sums(events[i], Occurrences(ops, f, p))
  {
    RunIsFaithful(cap, f, ops);
    PrintsAreEventPrints(ops, f);
    var events := Run(cap, f, ops).events;
    assert CountOf(events, p) == 1;
    CountPositive(events, p);
    var i := OldestAt(events, p);
    assert events[i] in events && Tagged(events[i]);
  }

  // ----- bookkeeping -----

  ghost function Total(m: map<Severity, nat>): nat {
    if m == map[] then 0 else var s :| s in m; m[s] + Total(m - {s})
  }

  lemma {:induction false} TotalSplit(m: map<Severity, nat>, s: Severity)
    requires s in m
    ensures Total(m) == m[s] + Total(m - {s})
  {
    var t :| t in m && Total(m) == m[t] + Total(m - {t});
    if t != s {
      TotalSplit(m - {t}, s);
      TotalSplit(m - {s}, t);
      assert m - {t} - {s} == m - {s} - {t};
    }
  }

  lemma TotalCounted(m: map<Severity, nat>, s: Severity)
    ensures Total(Counted(m, s)) == Total(m) + 1
  {
    var c := Counted(m, s);
    TotalSplit(c, s);
    if s in m {
      TotalSplit(m, s);
      assert c - {s} == m - {s};
    } else {
      assert c - {s} == m;
    }
  }

  lemma {:induction false} EvictionCounts(b: Buffer, cap: nat)
    requires b.dropped == Total(b.droppedBy)
    ensures var r := EvictedTo(b, cap);
            r.dropped == Total(r.droppedBy) && |r.events| + r.dropped == |b.events| + b.dropped
    decreases |b.events|
  {
    if |b.events| > cap {
      TotalCounted(b.droppedBy, b.events[Victim(b.events)].severity);
      EvictionCounts(Evicted(b), cap);
    }
  }

  /** The per-severity counters always add up to the total, and the buffer never exceeds its capacity. */
  lemma {:induction false} DropsAddUp(cap: nat, f: Formats, ops: seq<Op>)
    ensures var b := Run(cap, f, ops); b.dropped == Total(b.droppedBy) && |b.events| <= cap
  {
    if ops != [] {
      var n := |ops| - 1;
      DropsAddUp(cap, f, ops[..n]);
      var b := Run(cap, f, ops[..n]);
      match ops[n] {
        case Add(e, now) => EvictionCounts(b.(events := [Prepared(e, f, now)] + b.events), cap);
        case KeepLogsForPods(pods) => KeptMembers(b.events, LogsOf(NonEmptyNames(pods)));
        case ClearLogsForPods(pods) => KeptMembers(b.events, LogsNotOf(NonEmptyNames(pods)));
        case ClearLogs => KeptMembers(b.events, NoLogs());
      }
    }
  }

  lemma AdditionCounts(b: Buffer, cap: nat, e: Evidence)
    requires b.dropped == Total(b.droppedBy)
    ensures var r := Added(b, cap, e);
            r.dropped == Total(r.droppedBy) &&
            |r.events| + r.dropped + (if Collapses(b, e) then 1 else 0) == |b.events| + b.dropped + 1
  {
    EvictionCounts(b.(events := [e] + b.events), cap);
  }

  function CollapseCount(cap: nat, f: Formats, ops: seq<Op>): nat {
    if ops == [] then 0
    else
      var op, b := ops[|ops| - 1], Run(cap, f, ops[..|ops| - 1]);
      CollapseCount(cap, f, ops[..|ops| - 1]) + if op.Add? && Collapses(b, Prepared(op.e, f, op.now)) then 1 else 0
  }

  /** In a run of additions, every event added is in the buffer, dropped, or collapsed into another. */
  lemma {:induction false} AdditionsAreConserved(cap: nat, f: Formats, ops: seq<Op>)
    requires forall i :: 0 <= i < |ops| ==> ops[i].Add?
    ensures var b := Run(cap, f, ops); |ops| == |b.events| + b.dropped + CollapseCount(cap, f, ops)
  {
    if ops != [] {
      var n := |ops| - 1;
      AdditionsAreConserved(cap, f, ops[..n]);
      DropsAddUp(cap, f, ops[..n]);
      var b := Run(cap, f, ops[..n]);
      var e := Prepared(ops[n].e, f, ops[n].now);
      var r := Added(b, cap, e);
      AdditionCounts(b, cap, e);
      assert Run(cap, f, ops) == r;
      assert CollapseCount(cap, f, ops) == CollapseCount(cap, f, ops[..n]) + if Collapses(b, e) then 1 else 0;
    }
  }
}
