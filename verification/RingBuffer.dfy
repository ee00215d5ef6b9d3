/** The bounded evidence buffer (internal/engine/ringbuffer.go): newest first, collapsing repeats, evicting the
    least valuable evidence under pressure. The index always has the oldest position of every fingerprint. */
module RingBuffer {
  datatype Source = Log | K8sEvent | ObjectChange | Metric | System

  datatype Severity = Info | Warning | High | Critical | Other(name: string)

  /** correlator.go:123-134. */
  function Rank(s: Severity): int {
    match s
    case Critical => 4
    case High => 3
    case Warning => 2
    case _ => 1
  }

  /** The key that the program hashes; its first part names the source type. */
  datatype Fingerprint = Unset | Print(tag: string, text: string)

  /** timestamp 0 is unset. */
  datatype Evidence = Evidence(source: Source, severity: Severity, pod: string, container: string, sourceKind: string,
                               sourceName: string, reason: string, message: string, raw: string, timestamp: int,
                               count: int, fingerprint: Fingerprint)

  /** Message normalisation, and the trimmed text and formatted time of a log line: not modelled further. */
  datatype Formats = Formats(normalize: string -> string, line: (string, int) -> string)

  function FingerprintOf(e: Evidence, f: Formats): Fingerprint {
    match e.source
    case Log => Print("log", e.pod + "|" + e.container + "|" + f.normalize(e.raw + e.message))
    case K8sEvent => Print("event", e.reason + "|" + e.sourceKind + "|" + e.sourceName)
    case ObjectChange => Print("obj", e.sourceKind + "|" + e.sourceName + "|" + e.reason)
    case Metric => Print("metric", e.sourceName + "|" + e.reason)
    case System => Print("sys", e.reason + "|" + f.normalize(e.message))
  }

  function LogLineFingerprint(e: Evidence, f: Formats): Fingerprint {
    Print("logline", e.pod + "|" + e.container + "|" + f.line(e.raw, e.timestamp))
  }

  /** An event as it enters the buffer. */
  function Prepared(e: Evidence, f: Formats, now: int): Evidence {
    var e1 := if e.fingerprint == Unset then e.(fingerprint := FingerprintOf(e, f)) else e;
    var e2 := if e1.count == 0 then e1.(count := 1) else e1;
    var e3 := if e2.timestamp == 0 then e2.(timestamp := now) else e2;
    if e.source == Log then e3.(fingerprint := LogLineFingerprint(e3, f)) else e3
  }

  // ----- positions -----

  /** The oldest position of a fingerprint, or -1. */
  function OldestAt(events: seq<Evidence>, p: Fingerprint): (i: int)
    ensures -1 <= i < |events|
    ensures i >= 0 ==> events[i].fingerprint == p
    ensures forall j :: 0 <= j < |events| && events[j].fingerprint == p ==> 0 <= j <= i
  {
    if events == [] then -1
    else if events[|events| - 1].fingerprint == p then |events| - 1
    else OldestAt(events[..|events| - 1], p)
  }

  function RemoveAt(events: seq<Evidence>, i: nat): seq<Evidence>
    requires i < |events|
  {
    events[..i] + events[i + 1..]
  }

  /** How much an event is worth keeping: INFO logs least, critical Kubernetes events most. */
  function Tier(e: Evidence): int {
    if e.source == Log then (if e.severity == Info then 0 else 1)
    else if e.source != K8sEvent then 2
    else if e.severity != Critical then 3
    else 4
  }

  /** The oldest of the least valuable events. */
  predicate IsVictim(events: seq<Evidence>, v: nat) {
    v < |events| &&
    forall j :: 0 <= j < |events| ==>
                  Tier(events[v]) <= Tier(events[j]) && (v < j ==> Tier(events[v]) < Tier(events[j]))
  }

  function Victim(events: seq<Evidence>): (v: nat)
    requires events != []
    ensures IsVictim(events, v)
  {
    if |events| == 1 then 0
    else
      var w := Victim(events[1..]) + 1;
      assert forall j :: 1 <= j < |events| ==> events[1..][j - 1] == events[j];
      if Tier(events[0]) < Tier(events[w]) then 0 else w
  }

  lemma VictimIsUnique(events: seq<Evidence>, v: nat, w: nat)
    requires IsVictim(events, v) && IsVictim(events, w)
    ensures v == w
  {
    assert Tier(events[v]) == Tier(events[w]);
  }

  // ----- the buffer as a value -----

  datatype Buffer = Buffer(events: seq<Evidence>, dropped: nat, droppedBy: map<Severity, nat>)

  const EMPTY: Buffer := Buffer([], 0, map[])

  function Counted(m: map<Severity, nat>, s: Severity): map<Severity, nat> {
    m[s := (if s in m then m[s] else 0) + 1]
  }

  function Evicted(b: Buffer): Buffer
    requires b.events != []
  {
    var v := Victim(b.events);
    Buffer(RemoveAt(b.events, v), b.dropped + 1, Counted(b.droppedBy, b.events[v].severity))
  }

  function EvictedTo(b: Buffer, cap: nat): (r: Buffer)
    ensures |r.events| == if |b.events| <= cap then |b.events| else cap
    decreases |b.events|
  {
    if |b.events| <= cap then b else EvictedTo(Evicted(b), cap)
  }

  function Collapsed(prev: Evidence, e: Evidence): Evidence {
    e.(count := prev.count + 1,
       severity := if Rank(prev.severity) > Rank(e.severity) then prev.severity else e.severity)
  }

  predicate Collapses(b: Buffer, e: Evidence) {
    e.source != Log && OldestAt(b.events, e.fingerprint) >= 0
  }

  /** e is prepared. */
  function Added(b: Buffer, cap: nat, e: Evidence): Buffer {
    if Collapses(b, e) then
      var pos := OldestAt(b.events, e.fingerprint);
      b.(events := [Collapsed(b.events[pos], e)] + RemoveAt(b.events, pos))
    else EvictedTo(b.(events := [e] + b.events), cap)
  }

  function Kept(events: seq<Evidence>, p: Evidence -> bool): seq<Evidence> {
    if events == [] then []
    else Kept(events[..|events| - 1], p) + if p(events[|events| - 1]) then [events[|events| - 1]] else []
  }

  function NonEmptyNames(names: seq<string>): set<string> {
    set n | n in names && n != ""
  }

  function LogsOf(allow: set<string>): Evidence -> bool {
    (e: Evidence) => e.source != Log || e.pod in allow
  }

  function LogsNotOf(drop: set<string>): Evidence -> bool {
    (e: Evidence) => e.source != Log || e.pod !in drop
  }

  function NoLogs(): Evidence -> bool {
    (e: Evidence) => e.source != Log
  }

  datatype Op = Add(e: Evidence, now: int) | KeepLogsForPods(pods: seq<string>) | ClearLogsForPods(pods: seq<string>) |
                ClearLogs

  function Apply(b: Buffer, cap: nat, f: Formats, op: Op): Buffer {
    match op
    case Add(e, now) => Added(b, cap, Prepared(e, f, now))
    case KeepLogsForPods(pods) =>
      if NonEmptyNames(pods) == {} then b else b.(events := Kept(b.events, LogsOf(NonEmptyNames(pods))))
    case ClearLogsForPods(pods) => b.(events := Kept(b.events, LogsNotOf(NonEmptyNames(pods))))
    case ClearLogs => Buffer(Kept(b.events, NoLogs()), 0, map[])
  }

  lemma {:induction false} KeptAll(events: seq<Evidence>, p: Evidence -> bool)
    requires forall e :: e in events ==> p(e)
    ensures Kept(events, p) == events
  {
    if events != [] {
      KeptAll(events[..|events| - 1], p);
      assert events[|events| - 1] in events;
    }
  }

  // ----- the class -----

  class EvidenceBuffer {
    const cap: nat
    const formats: Formats
    var events: seq<Evidence>
    var index: map<Fingerprint, nat>
    var dropped: nat
    var droppedBy: map<Severity, nat>

    /** A capacity of zero or less stands for 500. */
    constructor (capacity: int, formats: Formats)
      ensures cap == (if capacity <= 0 then 500 else capacity) && this.formats == formats
      ensures Valid() && View() == EMPTY
    {
      cap := if capacity <= 0 then 500 else capacity;
      this.formats := formats;
      events, index, dropped, droppedBy := [], map[], 0, map[];
    }

    function View(): Buffer
      reads this
    {
      Buffer(events, dropped, droppedBy)
    }

    /** The index gives the oldest position of every fingerprint in the buffer. */
    ghost predicate Indexed()
      reads this
    {
      forall p :: (if p in index then index[p] else -1) == OldestAt(events, p)
    }

    ghost predicate Valid()
      reads this
    {
      0 < cap && Indexed()
    }

    method Reindex()
      modifies this`index
      ensures Indexed()
    {
      index := map[];
      for i := 0 to |events|
        invariant forall p :: (if p in index then index[p] else -1) == OldestAt(events[..i], p)
      {
        assert events[..i + 1][..i] == events[..i];
        index := index[events[i].fingerprint := i];
      }
      assert events[..|events|] == events;
    }

    method PushFront(e: Evidence)
      modifies this`events, this`index
      ensures events == [e] + old(events) && Indexed()
    {
      events := [e] + events;
      Reindex();
    }

    method Remove(pos: nat)
      requires pos < |events|
      modifies this`events, this`index
      ensures events == RemoveAt(old(events), pos) && Indexed()
    {
      events := events[..pos] + events[pos + 1..];
      Reindex();
    }

    method LastMatch(p: Evidence -> bool) returns (pos: int)
      ensures -1 <= pos < |events|
      ensures pos >= 0 ==> p(events[pos])
      ensures forall j :: pos < j < |events| ==> !p(events[j])
    {
      pos := |events| - 1;
      while pos >= 0
        invariant -1 <= pos < |events|
        invariant forall j :: pos < j < |events| ==> !p(events[j])
      {
        if p(events[pos]) {
          return;
        }
        pos := pos - 1;
      }
    }

    method DropAt(pos: nat)
      requires pos < |events|
      modifies this
      ensures View() ==
              Buffer(RemoveAt(old(events), pos), old(dropped) + 1, Counted(old(droppedBy), old(events)[pos].severity))
      ensures Indexed()
    {
      var e := events[pos];
      dropped := dropped + 1;
      droppedBy := droppedBy[e.severity := (if e.severity in droppedBy then droppedBy[e.severity] else 0) + 1];
      Remove(pos);
    }

    method Evict()
      modifies this
      ensures old(events) == [] ==> View() == old(View()) && index == old(index)
      ensures old(events) != [] ==> View() == Evicted(old(View())) && Indexed()
    {
      if |events| == 0 {
        return;
      }
      var pos := LastMatch((e: Evidence) => e.source == Log && e.severity == Info);
      if pos < 0 {
        pos := LastMatch((e: Evidence) => e.source == Log);
      }
      if pos < 0 {
        pos := LastMatch((e: Evidence) => e.source != K8sEvent);
      }
      if pos < 0 {
        pos := LastMatch((e: Evidence) => e.severity != Critical);
      }
      if pos < 0 {
        pos := |events| - 1;
      }
      VictimIsUnique(events, pos, Victim(events));
      DropAt(pos);
    }

    method EvictDown()
      requires Indexed()
      modifies this
      ensures View() == EvictedTo(old(View()), cap) && Indexed()
    {
      while |events| > cap
        invariant EvictedTo(View(), cap) == EvictedTo(old(View()), cap) && Indexed()
      {
        Evict();
      }
    }

    method Insert(event: Evidence, now: int)
      requires Valid()
      modifies this
      ensures View() == Added(old(View()), cap, Prepared(event, formats, now)) && Valid()
    {
      var e := event;
      if e.fingerprint == Unset {
        e := e.(fingerprint := FingerprintOf(e, formats));
      }
      if e.count == 0 {
        e := e.(count := 1);
      }
      if e.timestamp == 0 {
        e := e.(timestamp := now);
      }
      if e.source == Log {
        e := e.(fingerprint := LogLineFingerprint(e, formats));
        InsertNew(e);
        return;
      }
      if e.fingerprint in index && index[e.fingerprint] < |events| {
        Collapse(e);
        return;
      }
      InsertNew(e);
    }

    method InsertNew(e: Evidence)
      requires Valid() && !Collapses(View(), e)
      modifies this
      ensures View() == Added(old(View()), cap, e) && Valid()
    {
      PushFront(e);
      EvictDown();
    }

    method Collapse(repeat: Evidence)
      requires Valid() && Collapses(View(), repeat)
      modifies this`events, this`index
      ensures View() == Added(old(View()), cap, repeat) && Valid()
    {
      var e := repeat;
      assert OldestAt(events, e.fingerprint) == index[e.fingerprint];
      var pos := index[e.fingerprint];
      var prev := events[pos];
      e := e.(count := prev.count + 1);
      if Rank(prev.severity) > Rank(e.severity) {
        e := e.(severity := prev.severity);
      }
      Remove(pos);
      PushFront(e);
    }

    method Filter(p: Evidence -> bool)
      requires 0 < cap
      modifies this`events, this`index
      ensures events == Kept(old(events), p) && Valid()
    {
      var filtered := [];
      for i := 0 to |events|
        invariant events == old(events) && filtered == Kept(events[..i], p)
      {
        assert events[..i + 1][..i] == events[..i];
        if p(events[i]) {
          filtered := filtered + [events[i]];
        }
      }
      assert events[..|events|] == events;
      events := filtered;
      Reindex();
    }

    method KeepPods(pods: seq<string>)
      requires Valid()
      modifies this
      ensures View() == Apply(old(View()), cap, formats, KeepLogsForPods(pods)) && Valid()
    {
      var allow := NonEmptyNames(pods);
      if |pods| == 0 || allow == {} {
        return;
      }
      Filter(LogsOf(allow));
    }

    method DropPods(pods: seq<string>)
      requires Valid()
      modifies this
      ensures View() == Apply(old(View()), cap, formats, ClearLogsForPods(pods)) && Valid()
    {
      if |pods| == 0 {
        KeptAll(events, LogsNotOf(NonEmptyNames(pods)));
        return;
      }
      Filter(LogsNotOf(NonEmptyNames(pods)));
    }

    method DropLogs()
      requires Valid()
      modifies this
      ensures View() == Apply(old(View()), cap, formats, ClearLogs) && Valid()
    {
      Filter(NoLogs());
      dropped, droppedBy := 0, map[];
    }
  }
}
