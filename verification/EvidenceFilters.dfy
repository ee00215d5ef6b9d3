/** What filtering the evidence buffer leaves in it, and that log lines are never merged. */
module EvidenceFilters {
  import opened RingBuffer
  import opened EvidenceRuns

  /** The pod is named in the list; an empty name names none. */
  predicate NamedIn(pods: seq<string>, pod: string) {
    pod != "" && pod in pods
  }

  /** The event stays in the buffer when the logs are filtered. */
  predicate Stays(op: Op, e: Evidence) {
    e.source != Log ||
    match op
    case KeepLogsForPods(pods) => NamedIn(pods, e.pod) || forall i :: 0 <= i < |pods| ==> pods[i] == ""
    case ClearLogsForPods(pods) => !NamedIn(pods, e.pod)
    case ClearLogs => false
    case Add(_, _) => true
  }

  /** The events that stay, in the order of the buffer: those of a list, and then those of what follows it. */
  ghost predicate KeepsOrder(op: Op, cap: nat, f: Formats, a: seq<Evidence>, b: seq<Evidence>) {
    Apply(Buffer(a + b, 0, map[]), cap, f, op).events ==
    Apply(Buffer(a, 0, map[]), cap, f, op).events + Apply(Buffer(b, 0, map[]), cap, f, op).events
  }

  lemma {:induction false} KeptConcat(a: seq<Evidence>, b: seq<Evidence>, p: Evidence -> bool)
    ensures Kept(a + b, p) == Kept(a, p) + Kept(b, p)
  {
    if b == [] {
      assert a + b == a;
    } else {
      assert (a + b)[..|a + b| - 1] == a + b[..|b| - 1];
      KeptConcat(a, b[..|b| - 1], p);
    }
  }

  lemma {:induction false} KeptTimes(events: seq<Evidence>, p: Evidence -> bool, e: Evidence)
    ensures multiset(Kept(events, p))[e] == if p(e) then multiset(events)[e] else 0
  {
    if events != [] {
      var init, last := events[..|events| - 1], events[|events| - 1];
      assert events == init + [last];
      KeptTimes(init, p, e);
      assert multiset(Kept(events, p)) == multiset(Kept(init, p)) + if p(last) then multiset{last} else multiset{};
    }
  }

  lemma NoNames(pods: seq<string>)
    ensures NonEmptyNames(pods) == {} <==> forall i :: 0 <= i < |pods| ==> pods[i] == ""
  {
    if forall i :: 0 <= i < |pods| ==> pods[i] == "" {
      assert forall n :: n in pods ==> n == "";
    } else {
      var i :| 0 <= i < |pods| && pods[i] != "";
      assert pods[i] in NonEmptyNames(pods);
    }
  }

  /** A filter leaves exactly the events that stay, each as often as it was there. */
  lemma FilterLeaves(b: Buffer, cap: nat, f: Formats, op: Op, e: Evidence)
    requires !op.Add?
    ensures multiset(Apply(b, cap, f, op).events)[e] == if Stays(op, e) then multiset(b.events)[e] else 0
  {
    match op {
      case KeepLogsForPods(pods) =>
        NoNames(pods);
        KeptTimes(b.events, LogsOf(NonEmptyNames(pods)), e);
      case ClearLogsForPods(pods) => KeptTimes(b.events, LogsNotOf(NonEmptyNames(pods)), e);
      case ClearLogs => KeptTimes(b.events, NoLogs(), e);
    }
  }

  /** And it leaves them in their order. */
  lemma FilterKeepsOrder(cap: nat, f: Formats, op: Op, a: seq<Evidence>, b: seq<Evidence>)
    requires !op.Add?
    ensures KeepsOrder(op, cap, f, a, b)
  {
    match op {
      case KeepLogsForPods(pods) => KeptConcat(a, b, LogsOf(NonEmptyNames(pods)));
      case ClearLogsForPods(pods) => KeptConcat(a, b, LogsNotOf(NonEmptyNames(pods)));
      case ClearLogs => KeptConcat(a, b, NoLogs());
    }
  }

  /** Filtering for pods counts nothing as dropped; clearing all logs starts the counters again. */
  lemma FilterCounters(b: Buffer, cap: nat, f: Formats, op: Op)
    requires !op.Add?
    ensures var r := Apply(b, cap, f, op);
            if op.ClearLogs? then r.dropped == 0 && r.droppedBy == map[]
            else r.dropped == b.dropped && r.droppedBy == b.droppedBy
  {
  }

  // ----- log lines -----

  function LogsAdded(ops: seq<Op>): nat {
    if ops == [] then 0
    else LogsAdded(ops[..|ops| - 1]) + if ops[|ops| - 1].Add? && ops[|ops| - 1].e.source == Log then 1 else 0
  }

  function LogsIn(events: seq<Evidence>): nat {
    if events == [] then 0 else (if events[0].source == Log then 1 else 0) + LogsIn(events[1..])
  }

  lemma {:induction false} LogsInConcat(a: seq<Evidence>, b: seq<Evidence>)
    ensures LogsIn(a + b) == LogsIn(a) + LogsIn(b)
  {
    if a == [] {
      assert a + b == b;
    } else {
      assert (a + b)[1..] == a[1..] + b;
      LogsInConcat(a[1..], b);
    }
  }

  lemma LogsAfterRemove(events: seq<Evidence>, i: nat)
    requires i < |events|
    ensures LogsIn(RemoveAt(events, i)) == LogsIn(events) - if events[i].source == Log then 1 else 0
  {
    assert events == events[..i] + events[i..];
    LogsInConcat(events[..i], events[i..]);
    LogsInConcat(events[..i], events[i + 1..]);
  }

  /** Evidence of the buffer is told apart by its kind. */
  ghost predicate LinesApart(b: Buffer) {
    forall e :: e in b.events ==> e.fingerprint.Print? && (e.fingerprint.tag == "logline" <==> e.source == Log)
  }

  /** In any run of at most cap additions, nothing is dropped and every log line is in the buffer: none is ever merged
      with another, however alike they are. */
  lemma {:induction false} LinesAreNeverMerged(cap: nat, f: Formats, ops: seq<Op>)
    requires AllOwn(ops, f) && |ops| <= cap && forall i :: 0 <= i < |ops| ==> ops[i].Add?
    ensures var b := Run(cap, f, ops);
            b.dropped == 0 && LogsIn(b.events) == LogsAdded(ops) && |b.events| <= |ops| && LinesApart(b)
  {
    if ops != [] {
      var init, op := ops[..|ops| - 1], ops[|ops| - 1];
      LinesAreNeverMerged(cap, f, init);
      assert OwnPrint(op, f);
      LineIsAdded(Run(cap, f, init), cap, f, op);
    }
  }

  lemma LineIsAdded(b: Buffer, cap: nat, f: Formats, op: Op)
    requires LinesApart(b) && |b.events| < cap && op.Add? && OwnPrint(op, f)
    ensures var r := Apply(b, cap, f, op);
            r.dropped == b.dropped && |r.events| <= |b.events| + 1 && LinesApart(r) &&
            LogsIn(r.events) == LogsIn(b.events) + if op.e.source == Log then 1 else 0
  {
    var e := Prepared(op.e, f, op.now);
    if Collapses(b, e) {
      RepeatIsAdded(b, cap, e);
    } else {
      NewIsAdded(b, cap, e);
    }
  }

  lemma NewIsAdded(b: Buffer, cap: nat, e: Evidence)
    requires LinesApart(b) && |b.events| < cap && !Collapses(b, e)
    requires e.fingerprint.Print? && (e.fingerprint.tag == "logline" <==> e.source == Log)
    ensures var r := Added(b, cap, e);
            r.dropped == b.dropped && |r.events| == |b.events| + 1 && LinesApart(r) &&
            LogsIn(r.events) == LogsIn(b.events) + if e.source == Log then 1 else 0
  {
    LogsInConcat([e], b.events);
    assert Added(b, cap, e) == b.(events := [e] + b.events);
  }

  /** What is merged was no log, and is none. */
  lemma RepeatIsAdded(b: Buffer, cap: nat, e: Evidence)
    requires LinesApart(b) && Collapses(b, e) && e.fingerprint.Print? && e.fingerprint.tag != "logline"
    ensures var r := Added(b, cap, e);
            r.dropped == b.dropped && |r.events| == |b.events| && LinesApart(r) && LogsIn(r.events) == LogsIn(b.events)
  {
    var pos := OldestAt(b.events, e.fingerprint);
    LogsAfterRemove(b.events, pos);
    LogsInConcat([Collapsed(b.events[pos], e)], RemoveAt(b.events, pos));
    assert b.events[pos] in b.events;
  }
}
