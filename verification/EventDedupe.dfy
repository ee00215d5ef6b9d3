/** Collapsing repeated events (internal/kube/events.go:84-103, 258-295). */
module EventDedupe {
  // By the object that they are about and what they say, or by UID.

  import opened Options

  /** firstSeen None is unset; other stands for the fields that play no part here. */
  datatype EventRecord = EventRecord(kind: string, name: string, reason: string, message: string, uid: string,
                                     firstSeen: Option<int>, count: int, recorded: bool, other: string)

  function ContentKey(e: EventRecord): string {
    "c|" + e.kind + "|" + e.name + "|" + e.reason + "|" + e.message
  }

  function UidKey(e: EventRecord): string {
    "u|" + e.uid
  }

  /** e repeats f: the same content, or the same Event object. */
  predicate Repeats(e: EventRecord, f: EventRecord) {
    ContentKey(e) == ContentKey(f) || (e.uid != "" && e.uid == f.uid)
  }

  function EarlierSeen(a: Option<int>, b: Option<int>): Option<int> {
    if b.Some? && (a.None? || b.value < a.value) then b else a
  }

  /** The kept row after e has been collapsed into it. */
  function Collapsed(kept: EventRecord, e: EventRecord): EventRecord {
    kept.(firstSeen := EarlierSeen(kept.firstSeen, e.firstSeen),
          count := if e.count > kept.count then e.count else kept.count,
          recorded := kept.recorded && e.recorded)
  }

  /** The kept rows, and the row that each key leads to. */
  datatype Dedup = Dedup(out: seq<EventRecord>, byKey: map<string, nat>)

  const NOTHING: Dedup := Dedup([], map[])

  function Registered(byKey: map<string, nat>, e: EventRecord, idx: nat): map<string, nat> {
    var m := byKey[ContentKey(e) := idx];
    if e.uid != "" then m[UidKey(e) := idx] else m
  }

  function Find(byKey: map<string, nat>, e: EventRecord): Option<nat> {
    if ContentKey(e) in byKey then Some(byKey[ContentKey(e)])
    else if e.uid != "" && UidKey(e) in byKey then Some(byKey[UidKey(e)])
    else None
  }

  predicate DedupOk(d: Dedup) {
    forall k :: k in d.byKey ==> d.byKey[k] < |d.out|
  }

  function Step(d: Dedup, e: EventRecord): (r: Dedup)
    requires DedupOk(d)
    ensures DedupOk(r)
  {
    match Find(d.byKey, e)
    case Some(idx) => Dedup(d.out[idx := Collapsed(d.out[idx], e)], Registered(d.byKey, e, idx))
    case None => Dedup(d.out + [e], Registered(d.byKey, e, |d.out|))
  }

  function Run(input: seq<EventRecord>): (r: Dedup)
    ensures DedupOk(r)
  {
    if input == [] then NOTHING else Step(Run(input[..|input| - 1]), input[|input| - 1])
  }

  function Deduped(input: seq<EventRecord>): seq<EventRecord> {
    Run(input).out
  }

  method DedupeEventRecords(input: seq<EventRecord>) returns (out: seq<EventRecord>)
    ensures out == Deduped(input)
  {
    var byKey: map<string, nat> := map[];
    out := [];
    for i := 0 to |input|
      invariant Dedup(out, byKey) == Run(input[..i])
    {
      assert input[..i + 1][..i] == input[..i];
      var e := input[i];
      var content := ContentKey(e);
      var idx, ok := 0, false;
      if content in byKey {
        idx, ok := byKey[content], true;
      } else if e.uid != "" && UidKey(e) in byKey {
        idx, ok := byKey[UidKey(e)], true;
      }
      if ok {
        var kept := out[idx];
        if e.firstSeen.Some? && (kept.firstSeen.None? || e.firstSeen.value < kept.firstSeen.value) {
          kept := kept.(firstSeen := e.firstSeen);
        }
        if e.count > kept.count {
          kept := kept.(count := e.count);
        }
        kept := kept.(recorded := kept.recorded && e.recorded);
        out := out[idx := kept];
        byKey := byKey[content := idx];
        if e.uid != "" {
          byKey := byKey[UidKey(e) := idx];
        }
        continue;
      }
      idx := |out|;
      out := out + [e];
      byKey := byKey[content := idx];
      if e.uid != "" {
        byKey := byKey[UidKey(e) := idx];
      }
    }
    assert input[..|input|] == input;
  }

  function WithUid(recorded: seq<EventRecord>): seq<EventRecord> {
    if recorded == [] then []
    else
      WithUid(recorded[..|recorded| - 1]) +
      if recorded[|recorded| - 1].uid != "" then [recorded[|recorded| - 1]] else []
  }

  function RecordedCount(rows: seq<EventRecord>): nat {
    if rows == [] then 0
    else RecordedCount(rows[..|rows| - 1]) + if rows[|rows| - 1].recorded then 1 else 0
  }

  method MergeRecordedEvents(live: seq<EventRecord>, recorded: seq<EventRecord>)
    returns (out: seq<EventRecord>, added: nat)
    ensures out == Deduped(live + WithUid(recorded)) && added == RecordedCount(out)
  {
    var withUid := [];
    for i := 0 to |recorded|
      invariant withUid == WithUid(recorded[..i])
    {
      assert recorded[..i + 1][..i] == recorded[..i];
      if recorded[i].uid != "" {
        withUid := withUid + [recorded[i]];
      }
    }
    assert recorded[..|recorded|] == recorded;
    out := DedupeEventRecords(live + withUid);
    added := 0;
    for i := 0 to |out|
      invariant added == RecordedCount(out[..i])
    {
      assert out[..i + 1][..i] == out[..i];
      if out[i].recorded {
        added := added + 1;
      }
    }
    assert out[..|out|] == out;
  }
}
