/** Which evidence the buffer takes for the same, by what it is about, and what that means for whole runs. */
module EvidenceNames {
  import opened RingBuffer
  import opened EvidenceRuns
  import opened BarText

  // ----- equal fingerprints -----

  /** All parts of the key but the last are free of bars. */
  predicate Separable(e: Evidence) {
    match e.source
    case Log => BarFree(e.pod) && BarFree(e.container)
    case K8sEvent => BarFree(e.reason) && BarFree(e.sourceKind)
    case ObjectChange => BarFree(e.sourceKind) && BarFree(e.sourceName)
    case Metric => BarFree(e.sourceName)
    case System => BarFree(e.reason)
  }

  /** What the two tell is the same, whatever else they carry. */
  predicate TellTheSame(a: Evidence, b: Evidence, f: Formats) {
    a.source == b.source &&
    match a.source
    case Log =>
      a.pod == b.pod && a.container == b.container && f.normalize(a.raw + a.message) == f.normalize(b.raw + b.message)
    case K8sEvent => a.reason == b.reason && a.sourceKind == b.sourceKind && a.sourceName == b.sourceName
    case ObjectChange => a.sourceKind == b.sourceKind && a.sourceName == b.sourceName && a.reason == b.reason
    case Metric => a.sourceName == b.sourceName && a.reason == b.reason
    case System => a.reason == b.reason && f.normalize(a.message) == f.normalize(b.message)
  }

  /** Evidence has equal fingerprints exactly when it is about the same: the reason and the object of an event, the
      object and the reason of a change, the name and the reason of a metric, the pod, the container and the text of a
      log. */
  lemma SamePrintIff(a: Evidence, b: Evidence, f: Formats)
    requires Separable(a) && Separable(b)
    ensures FingerprintOf(a, f) == FingerprintOf(b, f) <==> TellTheSame(a, b, f)
  {
    if a.source == b.source {
      match a.source {
        case Log =>
          JoinedThreeAlike(a.pod, a.container, f.normalize(a.raw + a.message),
                           b.pod, b.container, f.normalize(b.raw + b.message));
        case K8sEvent =>
          JoinedThreeAlike(a.reason, a.sourceKind, a.sourceName, b.reason, b.sourceKind, b.sourceName);
        case ObjectChange =>
          JoinedThreeAlike(a.sourceKind, a.sourceName, a.reason, b.sourceKind, b.sourceName, b.reason);
        case Metric => JoinedAlike(a.sourceName, a.reason, b.sourceName, b.reason);
        case System => JoinedAlike(a.reason, f.normalize(a.message), b.reason, f.normalize(b.message));
      }
    }
  }

  /** Tailed log lines are told apart by pod, container, text and time, and from all other evidence. */
  lemma SameLineIff(a: Evidence, b: Evidence, f: Formats)
    requires BarFree(a.pod) && BarFree(a.container) && BarFree(b.pod) && BarFree(b.container)
    ensures LogLineFingerprint(a, f) == LogLineFingerprint(b, f) <==>
            a.pod == b.pod && a.container == b.container && f.line(a.raw, a.timestamp) == f.line(b.raw, b.timestamp)
    ensures LogLineFingerprint(a, f) != FingerprintOf(b, f)
  {
    JoinedThreeAlike(a.pod, a.container, f.line(a.raw, a.timestamp), b.pod, b.container, f.line(b.raw, b.timestamp));
  }

  // ----- Kubernetes events by what they are about -----

  /** The reason and the object of an event. */
  datatype Subject = Subject(reason: string, kind: string, name: string)

  function SubjectOf(e: Evidence): Subject {
    Subject(e.reason, e.sourceKind, e.sourceName)
  }

  predicate IsEvent(op: Op) {
    op.Add? && op.e.source == K8sEvent
  }

  /** The events about a subject, as they were added. */
  function AddedAbout(ops: seq<Op>, s: Subject): seq<Evidence> {
    if ops == [] then []
    else
      var op := ops[|ops| - 1];
      AddedAbout(ops[..|ops| - 1], s) + if IsEvent(op) && SubjectOf(op.e) == s then [op.e] else []
  }

  function Subjects(ops: seq<Op>): set<Subject> {
    set i | 0 <= i < |ops| && IsEvent(ops[i]) :: SubjectOf(ops[i].e)
  }

  predicate EventsSeparable(ops: seq<Op>) {
    forall i :: 0 <= i < |ops| && IsEvent(ops[i]) ==> BarFree(ops[i].e.reason) && BarFree(ops[i].e.sourceKind)
  }

  predicate SomeAdded(adds: seq<Evidence>, s: Severity) {
    exists i :: 0 <= i < |adds| && adds[i].severity == s
  }

  /** The one event kept for several that were added: the last of them, as severe as the most severe of them, and
      counting the first one's occurrences (at least one) and one for each later one. */
  predicate KeptFor(e: Evidence, adds: seq<Evidence>) {
    adds != [] && e.source == K8sEvent && SubjectOf(e) == SubjectOf(adds[0]) &&
    e.message == adds[|adds| - 1].message && e.raw == adds[|adds| - 1].raw && e.pod == adds[|adds| - 1].pod &&
    (adds[|adds| - 1].timestamp != 0 ==> e.timestamp == adds[|adds| - 1].timestamp) &&
    e.count == (if adds[0].count == 0 then 1 else adds[0].count) + |adds| - 1 &&
    (if SomeAdded(adds, Critical) then e.severity == Critical
     else if SomeAdded(adds, High) then e.severity == High
     else if SomeAdded(adds, Warning) then e.severity == Warning
     else SomeAdded(adds, e.severity))
  }

  function PrintFor(s: Subject): Fingerprint {
    Print("event", s.reason + "|" + s.kind + "|" + s.name)
  }

  lemma PreparedEvent(op: Op, f: Formats)
    requires IsEvent(op) && OwnPrint(op, f)
    ensures var e := Prepared(op.e, f, op.now);
            e.fingerprint == PrintFor(SubjectOf(op.e)) && SubjectOf(e) == SubjectOf(op.e) && e.source == K8sEvent &&
            e.severity == op.e.severity && e.message == op.e.message && e.raw == op.e.raw && e.pod == op.e.pod &&
            e.count == (if op.e.count == 0 then 1 else op.e.count) &&
            (op.e.timestamp != 0 ==> e.timestamp == op.e.timestamp)
  {
  }

  lemma SubjectsMore(ops: seq<Op>, op: Op)
    ensures Subjects(ops + [op]) == Subjects(ops) + if IsEvent(op) then {SubjectOf(op.e)} else {}
  {
    var more := ops + [op];
    assert more[|ops|] == op;
    forall s | s in Subjects(ops) ensures s in Subjects(more) {
      var i :| 0 <= i < |ops| && IsEvent(ops[i]) && SubjectOf(ops[i].e) == s;
      assert more[i] == ops[i];
    }
  }

  /** The fingerprints of the events are those of their subjects. */
  lemma {:induction false} PrintsOfSubjects(ops: seq<Op>, f: Formats)
    requires AllOwn(ops, f)
    ensures EventPrints(ops, f) == set s | s in Subjects(ops) :: PrintFor(s)
  {
    if ops != [] {
      var init, op := ops[..|ops| - 1], ops[|ops| - 1];
      assert ops == init + [op];
      PrintsOfSubjects(init, f);
      SubjectsMore(init, op);
      if IsEvent(op) {
        PreparedEvent(op, f);
      }
    }
  }

  lemma {:induction false} ImageAtMost(subjects: set<Subject>)
    ensures |set s | s in subjects :: PrintFor(s)| <= |subjects|
  {
    if subjects != {} {
      var s :| s in subjects;
      ImageAtMost(subjects - {s});
      var rest := set r | r in subjects - {s} :: PrintFor(r);
      assert (set r | r in subjects :: PrintFor(r)) == rest + {PrintFor(s)};
    }
  }

  lemma SubjectOfPrint(s: Subject, r: Subject)
    requires BarFree(s.reason) && BarFree(s.kind) && BarFree(r.reason) && BarFree(r.kind)
    ensures PrintFor(s) == PrintFor(r) <==> s == r
  {
    JoinedThreeAlike(s.reason, s.kind, s.name, r.reason, r.kind, r.name);
  }

  /** An addition as it enters the buffer. */
  predicate Entered(e: Evidence, add: Evidence) {
    e.source == K8sEvent && SubjectOf(e) == SubjectOf(add) && e.severity == add.severity && e.message == add.message &&
    e.raw == add.raw && e.pod == add.pod && e.count == (if add.count == 0 then 1 else add.count) &&
    (add.timestamp != 0 ==> e.timestamp == add.timestamp) && e.fingerprint == PrintFor(SubjectOf(add))
  }

  predicate AllEntered(occ: seq<Evidence>, adds: seq<Evidence>) {
    |occ| == |adds| && forall i :: 0 <= i < |occ| ==> Entered(occ[i], adds[i])
  }

  /** The occurrences of a fingerprint are the events about its subject. */
  lemma {:induction false} OccurrencesAreAdded(ops: seq<Op>, f: Formats, s: Subject)
    requires AllOwn(ops, f) && EventsSeparable(ops) && BarFree(s.reason) && BarFree(s.kind)
    ensures AllEntered(Occurrences(ops, f, PrintFor(s)), AddedAbout(ops, s))
    ensures forall i :: 0 <= i < |AddedAbout(ops, s)| ==> SubjectOf(AddedAbout(ops, s)[i]) == s
  {
    if ops != [] {
      var init, op := ops[..|ops| - 1], ops[|ops| - 1];
      OccurrencesAreAdded(init, f, s);
      if IsEvent(op) {
        PreparedEvent(op, f);
        SubjectOfPrint(SubjectOf(op.e), s);
      }
    }
  }

  lemma {:induction false} MaxRankBounds(occ: seq<Evidence>)
    ensures forall i :: 0 <= i < |occ| ==> Rank(occ[i].severity) <= MaxRank(occ)
  {
    if occ != [] {
      MaxRankBounds(occ[..|occ| - 1]);
    }
  }

  lemma SumIsKept(e: Evidence, occ: seq<Evidence>, adds: seq<Evidence>)
    requires Sums(e, occ) && AllEntered(occ, adds)
    requires forall i :: 0 <= i < |adds| ==> SubjectOf(adds[i]) == SubjectOf(adds[0])
    ensures KeptFor(e, adds) && e.fingerprint == PrintFor(SubjectOf(adds[0]))
  {
    MaxRankBounds(occ);
    assert Entered(occ[0], adds[0]) && Entered(occ[|occ| - 1], adds[|adds| - 1]);
    assert forall i :: 0 <= i < |occ| ==> occ[i].severity == adds[i].severity;
    var i :| 0 <= i < |occ| && occ[i].severity == e.severity;
    assert SomeAdded(adds, e.severity);
    forall s | SomeAdded(adds, s) ensures Rank(s) <= Rank(e.severity) {
      var j :| 0 <= j < |adds| && adds[j].severity == s;
      assert Rank(occ[j].severity) <= MaxRank(occ);
    }
  }

  /** In any run in which the Kubernetes events, their reasons and kinds free of bars, are about at most cap subjects,
      the buffer has exactly one event about each subject: the last, the most severe, and the sum of all that were
      added. */
  lemma SubjectsNeverLost(cap: nat, f: Formats, ops: seq<Op>, s: Subject) returns (i: nat)
    requires AllOwn(ops, f) && EventsSeparable(ops) && |Subjects(ops)| <= cap && s in Subjects(ops)
    ensures var events := Run(cap, f, ops).events;
            i < |events| && KeptFor(events[i], AddedAbout(ops, s)) && SubjectOf(events[i]) == s &&
            forall j :: 0 <= j < |events| && j != i && events[j].source == K8sEvent ==> SubjectOf(events[j]) != s
  {
    var events, p, adds := Run(cap, f, ops).events, PrintFor(s), AddedAbout(ops, s);
    PrintsOfSubjects(ops, f);
    ImageAtMost(Subjects(ops));
    EventsNeverLost(cap, f, ops, p);
    OccurrencesAreAdded(ops, f, s);
    i :| 0 <= i < |events| && events[i].fingerprint == p && Sums(events[i], Occurrences(ops, f, p));
    SumIsKept(events[i], Occurrences(ops, f, p), adds);
    RunIsFaithful(cap, f, ops);
    forall j | 0 <= j < |events| && j != i && events[j].source == K8sEvent ensures SubjectOf(events[j]) != s {
      if SubjectOf(events[j]) == s {
        EventHasItsPrint(cap, f, ops, j);
        TwoAreCounted(events, p, i, j);
      }
    }
  }

  /** Every event in the buffer has the fingerprint of its subject. */
  lemma EventHasItsPrint(cap: nat, f: Formats, ops: seq<Op>, j: nat)
    requires Faithful(Run(cap, f, ops), cap, f, ops) && AllOwn(ops, f)
    requires j < |Run(cap, f, ops).events| && Run(cap, f, ops).events[j].source == K8sEvent
    ensures var e := Run(cap, f, ops).events[j]; e.fingerprint == PrintFor(SubjectOf(e))
  {
    var e := Run(cap, f, ops).events[j];
    assert Sums(e, Occurrences(ops, f, e.fingerprint));
    OccurrenceHasItsPrint(ops, f, e.fingerprint, |Occurrences(ops, f, e.fingerprint)| - 1);
  }

  lemma {:induction false} OccurrenceHasItsPrint(ops: seq<Op>, f: Formats, p: Fingerprint, i: nat)
    requires AllOwn(ops, f) && i < |Occurrences(ops, f, p)|
    ensures var e := Occurrences(ops, f, p)[i]; e.fingerprint == PrintFor(SubjectOf(e))
  {
    var init, op := ops[..|ops| - 1], ops[|ops| - 1];
    if i < |Occurrences(init, f, p)| {
      OccurrenceHasItsPrint(init, f, p, i);
    } else {
      PreparedEvent(op, f);
    }
  }

  lemma TwoAreCounted(events: seq<Evidence>, p: Fingerprint, i: nat, j: nat)
    requires i < |events| && j < |events| && i != j && events[i].fingerprint == p && events[j].fingerprint == p
    ensures CountOf(events, p) >= 2
  {
    CountRemoved(events, i, p);
    var rest := RemoveAt(events, i);
    assert events[j] == rest[if j < i then j else j - 1];
    CountPositive(rest, p);
  }
}
