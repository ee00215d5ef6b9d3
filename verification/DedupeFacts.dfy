/** What deduplication keeps, and what each kept row stands for. */
module DedupeFacts {
  import opened EventDedupe
  import opened Options
  import opened BarText

  // ----- which rows repeat another -----

  predicate SaysTheSame(e: EventRecord, f: EventRecord) {
    e.kind == f.kind && e.name == f.name && e.reason == f.reason && e.message == f.message
  }

  predicate Separable(e: EventRecord) {
    BarFree(e.kind) && BarFree(e.name) && BarFree(e.reason)
  }

  /** Rows that say the same about the same object repeat each other, and, when the kinds, names and reasons have no
      bars, only these and the rows with the same UID. */
  lemma RepeatsIff(e: EventRecord, f: EventRecord)
    ensures SaysTheSame(e, f) ==> Repeats(e, f)
    ensures Separable(e) && Separable(f) ==>
              (Repeats(e, f) <==> SaysTheSame(e, f) || (e.uid != "" && e.uid == f.uid))
  {
    if Separable(e) && Separable(f) {
      var a, b := e.reason + "|" + e.message, f.reason + "|" + f.message;
      JoinedAlike(e.reason, e.message, f.reason, f.message);
      JoinedThreeAlike(e.kind, e.name, a, f.kind, f.name, b);
      JoinedAlike("c", e.kind + "|" + e.name + "|" + a, "c", f.kind + "|" + f.name + "|" + b);
      assert ContentKey(e) == "c" + "|" + (e.kind + "|" + e.name + "|" + a);
      assert ContentKey(f) == "c" + "|" + (f.kind + "|" + f.name + "|" + b);
    }
  }

  // ----- which rows are kept -----

  /** Row i repeats none before it. */
  predicate IsNew(input: seq<EventRecord>, e: EventRecord) {
    forall j :: 0 <= j < |input| ==> !Repeats(e, input[j])
  }

  /** The rows that repeat no earlier row, in order. */
  function NewRows(input: seq<EventRecord>): seq<EventRecord> {
    if input == [] then []
    else
      var n := |input| - 1;
      NewRows(input[..n]) + if IsNew(input[..n], input[n]) then [input[n]] else []
  }

  predicate HasContent(input: seq<EventRecord>, key: string) {
    exists i :: 0 <= i < |input| && ContentKey(input[i]) == key
  }

  predicate HasUid(input: seq<EventRecord>, uid: string) {
    uid != "" && exists i :: 0 <= i < |input| && input[i].uid == uid
  }

  lemma KeysDiffer(e: EventRecord, f: EventRecord)
    ensures ContentKey(e) != UidKey(f)
    ensures UidKey(e) == UidKey(f) <==> e.uid == f.uid
  {
    assert ContentKey(e)[0] == 'c' && UidKey(f)[0] == 'u';
    assert UidKey(e)[2..] == e.uid && UidKey(f)[2..] == f.uid;
  }

  lemma HasContentMore(input: seq<EventRecord>, e: EventRecord, key: string)
    ensures HasContent(input + [e], key) <==> HasContent(input, key) || ContentKey(e) == key
  {
    var more := input + [e];
    if HasContent(input, key) {
      var i :| 0 <= i < |input| && ContentKey(input[i]) == key;
      assert more[i] == input[i];
    }
    assert more[|input|] == e;
  }

  lemma HasUidMore(input: seq<EventRecord>, e: EventRecord, uid: string)
    ensures HasUid(input + [e], uid) <==> HasUid(input, uid) || (uid != "" && e.uid == uid)
  {
    var more := input + [e];
    if HasUid(input, uid) {
      var i :| 0 <= i < |input| && input[i].uid == uid;
      assert more[i] == input[i];
    }
    assert more[|input|] == e;
  }

  /** The keys registered by a run are exactly those of its rows. */
  lemma {:induction false} RunRegisters(input: seq<EventRecord>, f: EventRecord)
    ensures ContentKey(f) in Run(input).byKey <==> HasContent(input, ContentKey(f))
    ensures UidKey(f) in Run(input).byKey <==> HasUid(input, f.uid)
  {
    if input != [] {
      var n := |input| - 1;
      var e := input[n];
      RunRegisters(input[..n], f);
      assert input == input[..n] + [e];
      HasContentMore(input[..n], e, ContentKey(f));
      HasUidMore(input[..n], e, f.uid);
      KeysDiffer(e, f);
      KeysDiffer(f, e);
    }
  }

  /** A row is collapsed exactly when it repeats an earlier row. */
  lemma FindsRepeats(input: seq<EventRecord>, e: EventRecord)
    ensures Find(Run(input).byKey, e).None? <==> IsNew(input, e)
  {
    RunRegisters(input, e);
    if !IsNew(input, e) {
      var j :| 0 <= j < |input| && Repeats(e, input[j]);
      assert HasContent(input, ContentKey(e)) || HasUid(input, e.uid);
    }
    if HasContent(input, ContentKey(e)) {
      var i :| 0 <= i < |input| && ContentKey(input[i]) == ContentKey(e);
      assert Repeats(e, input[i]);
    } else if HasUid(input, e.uid) {
      var i :| 0 <= i < |input| && input[i].uid == e.uid;
      assert Repeats(e, input[i]);
    }
  }

  /** Equal in everything that collapsing does not change. */
  predicate SameRow(a: EventRecord, b: EventRecord) {
    a == b.(firstSeen := a.firstSeen, count := a.count, recorded := a.recorded)
  }

  /** The output is the new rows, in input order. */
  lemma {:induction false} KeepsNewRows(input: seq<EventRecord>)
    ensures |Deduped(input)| == |NewRows(input)|
    ensures forall j :: 0 <= j < |NewRows(input)| ==> SameRow(Deduped(input)[j], NewRows(input)[j])
  {
    if input != [] {
      var n := |input| - 1;
      KeepsNewRows(input[..n]);
      FindsRepeats(input[..n], input[n]);
    }
  }

  predicate Distinct(rows: seq<EventRecord>) {
    forall i, j :: 0 <= i < j < |rows| ==> !Repeats(rows[j], rows[i])
  }

  lemma {:induction false} NewRowsAreRows(input: seq<EventRecord>)
    ensures forall e :: e in NewRows(input) ==> e in input
  {
    if input != [] {
      NewRowsAreRows(input[..|input| - 1]);
    }
  }

  lemma {:induction false} NewRowsDistinct(input: seq<EventRecord>)
    ensures Distinct(NewRows(input))
  {
    if input != [] {
      var n := |input| - 1;
      NewRowsDistinct(input[..n]);
      NewRowsAreRows(input[..n]);
      var front := NewRows(input[..n]);
      forall i | 0 <= i < |front| && IsNew(input[..n], input[n]) ensures !Repeats(input[n], front[i]) {
        assert front[i] in input[..n];
      var j :| 0 <= j < n && input[..n][j] == front[i];
      }
    }
  }

  /** No two rows of the output have the same content, or the same non-empty UID. */
  lemma OutputDistinct(input: seq<EventRecord>)
    ensures Distinct(Deduped(input))
  {
    KeepsNewRows(input);
    NewRowsDistinct(input);
    var out, rows := Deduped(input), NewRows(input);
    forall i, j | 0 <= i < j < |out| ensures !Repeats(out[j], out[i]) {
      assert SameRow(out[i], rows[i]) && SameRow(out[j], rows[j]);
      assert !Repeats(rows[j], rows[i]);
    }
  }

  lemma {:induction false} DistinctUnchanged(rows: seq<EventRecord>)
    requires Distinct(rows)
    ensures Deduped(rows) == rows
  {
    if rows != [] {
      var n := |rows| - 1;
      DistinctUnchanged(rows[..n]);
      FindsRepeats(rows[..n], rows[n]);
      assert IsNew(rows[..n], rows[n]);
      assert rows == rows[..n] + [rows[n]];
    }
  }

  /** Deduplicating again changes nothing. */
  lemma DedupeIdempotent(input: seq<EventRecord>)
    ensures Deduped(Deduped(input)) == Deduped(input)
  {
    OutputDistinct(input);
    DistinctUnchanged(Deduped(input));
  }

  // ----- what a kept row stands for -----

  /** For each row, the output row that it became or was collapsed into. */
  function Assigned(input: seq<EventRecord>): (r: seq<nat>)
    ensures |r| == |input|
  {
    if input == [] then []
    else
      var n := |input| - 1;
      var d := Run(input[..n]);
      Assigned(input[..n]) + [match Find(d.byKey, input[n]) case Some(idx) => idx case None => |d.out|]
  }

  predicate In(groups: seq<nat>, i: int, j: int) {
    0 <= i < |groups| && groups[i] == j
  }

  predicate EarliestOf(t: Option<int>, u: Option<int>) {
    u.Some? ==> t.Some? && t.value <= u.value
  }

  /** row has the highest count and the earliest first sighting of the rows assigned to j, and is recorded only if
      all of them are. */
  ghost predicate StandsFor(row: EventRecord, input: seq<EventRecord>, groups: seq<nat>, j: nat)
    requires |groups| == |input|
  {
    (forall i {:trigger In(groups, i, j)} :: In(groups, i, j) ==>
       input[i].count <= row.count && EarliestOf(row.firstSeen, input[i].firstSeen) &&
       (row.recorded ==> input[i].recorded)) &&
    (exists i :: In(groups, i, j) && input[i].count == row.count) &&
    (exists i :: In(groups, i, j) && input[i].firstSeen == row.firstSeen) &&
    (exists i :: In(groups, i, j) && input[i].recorded == row.recorded)
  }

  lemma StandsForMore(row: EventRecord, input: seq<EventRecord>, groups: seq<nat>, j: nat, e: EventRecord, k: nat)
    requires |groups| == |input| && StandsFor(row, input, groups, j)
    ensures StandsFor(if k == j then Collapsed(row, e) else row, input + [e], groups + [k], j)
  {
    var r := if k == j then Collapsed(row, e) else row;
    var more, as2 := input + [e], groups + [k];
    forall i | In(as2, i, j)
      ensures more[i].count <= r.count && EarliestOf(r.firstSeen, more[i].firstSeen) &&
              (r.recorded ==> more[i].recorded)
    {
      if i < |input| {
        assert In(groups, i, j);
      }
    }
    var a :| In(groups, a, j) && input[a].count == row.count;
    var b :| In(groups, b, j) && input[b].firstSeen == row.firstSeen;
    var c :| In(groups, c, j) && input[c].recorded == row.recorded;
    assert In(as2, a, j) && In(as2, b, j) && In(as2, c, j);
    assert k == j ==> In(as2, |input|, j);
    assert more[a] == input[a] && more[b] == input[b] && more[c] == input[c] && more[|input|] == e;
  }

  lemma StandsForItself(input: seq<EventRecord>, groups: seq<nat>, j: nat, e: EventRecord)
    requires |groups| == |input| && forall i :: 0 <= i < |groups| ==> groups[i] < j
    ensures StandsFor(e, input + [e], groups + [j], j)
  {
    assert In(groups + [j], |input|, j) && (input + [e])[|input|] == e;
  }

  /** Every row is assigned to an output row, and every output row stands for the rows assigned to it. */
  lemma {:induction false} OutputStandsForInput(input: seq<EventRecord>)
    ensures forall i :: 0 <= i < |input| ==> Assigned(input)[i] < |Deduped(input)|
    ensures forall j :: 0 <= j < |Deduped(input)| ==> StandsFor(Deduped(input)[j], input, Assigned(input), j)
  {
    if input != [] {
      var n := |input| - 1;
      var front, e := input[..n], input[n];
      OutputStandsForInput(front);
      assert input == front + [e];
      var d, groups := Run(front), Assigned(front);
      var k := Assigned(input)[n];
      forall j | 0 <= j < |Deduped(input)| ensures StandsFor(Deduped(input)[j], input, Assigned(input), j) {
        if j < |d.out| {
          StandsForMore(d.out[j], front, groups, j, e, k);
        } else {
          StandsForItself(front, groups, j, e);
        }
      }
    }
  }

  // ----- rows that share an output row are linked -----

  /** The last row with a key decides where the key leads. */
  ghost predicate LeadsTo(byKey: map<string, nat>, input: seq<EventRecord>, groups: seq<nat>, f: EventRecord)
    requires |groups| == |input|
  {
    (ContentKey(f) in byKey ==>
       exists i :: In(groups, i, byKey[ContentKey(f)]) && ContentKey(input[i]) == ContentKey(f)) &&
    (f.uid != "" && UidKey(f) in byKey ==> exists i :: In(groups, i, byKey[UidKey(f)]) && input[i].uid == f.uid)
  }

  lemma {:induction false} KeysLeadToRows(input: seq<EventRecord>, f: EventRecord)
    ensures LeadsTo(Run(input).byKey, input, Assigned(input), f)
  {
    if input != [] {
      var n := |input| - 1;
      var front, e := input[..n], input[n];
      KeysLeadToRows(front, f);
      KeysDiffer(e, f);
      KeysDiffer(f, e);
      var byKey, groups := Run(input).byKey, Assigned(input);
      var before, prior := Run(front).byKey, Assigned(front);
      assert In(groups, n, groups[n]);
      if ContentKey(f) in byKey && ContentKey(f) != ContentKey(e) {
        var i :| In(prior, i, before[ContentKey(f)]) && ContentKey(front[i]) == ContentKey(f);
        assert In(groups, i, byKey[ContentKey(f)]);
      }
      if f.uid != "" && UidKey(f) in byKey && f.uid != e.uid {
        var i :| In(prior, i, before[UidKey(f)]) && front[i].uid == f.uid;
        assert In(groups, i, byKey[UidKey(f)]);
      }
    }
  }

  /** A row that is collapsed repeats an earlier row of the same group: groups are connected by equal content or UID. */
  lemma CollapsedRowsAreLinked(input: seq<EventRecord>, n: nat)
    requires n < |input| && !IsNew(input[..n], input[n])
    ensures exists i :: 0 <= i < n && Repeats(input[n], input[i]) &&
                        Assigned(input[..n + 1])[i] == Assigned(input[..n + 1])[n]
  {
    var front, e := input[..n], input[n];
    assert input[..n + 1][..n] == front;
    FindsRepeats(front, e);
    KeysLeadToRows(front, e);
    var byKey, prior := Run(front).byKey, Assigned(front);
    var idx := Find(byKey, e).value;
    var i :| In(prior, i, idx) && Repeats(e, front[i]);
    assert Assigned(input[..n + 1])[i] == prior[i];
  }

  // ----- merging recorded history into live events -----

  lemma {:induction false} WithUidMembers(recorded: seq<EventRecord>)
    ensures forall e :: e in WithUid(recorded) <==> e in recorded && e.uid != ""
  {
    if recorded != [] {
      var n := |recorded| - 1;
      WithUidMembers(recorded[..n]);
      assert recorded == recorded[..n] + [recorded[n]];
    }
  }

  lemma {:induction false} NewRowsOfDistinct(rows: seq<EventRecord>)
    requires Distinct(rows)
    ensures NewRows(rows) == rows
  {
    if rows != [] {
      var n := |rows| - 1;
      NewRowsOfDistinct(rows[..n]);
      assert IsNew(rows[..n], rows[n]);
      assert rows == rows[..n] + [rows[n]];
    }
  }

  lemma {:induction false} NewRowsPrefix(live: seq<EventRecord>, more: seq<EventRecord>)
    ensures var n := |NewRows(live)|;
            n <= |NewRows(live + more)| && NewRows(live + more)[..n] == NewRows(live) &&
            forall j :: n <= j < |NewRows(live + more)| ==> NewRows(live + more)[j] in more
  {
    if more == [] {
      assert live + more == live;
    } else {
      var n := |more| - 1;
      assert (live + more)[..|live + more| - 1] == live + more[..n];
      NewRowsPrefix(live, more[..n]);
      var rows, all := NewRows(live + more[..n]), NewRows(live + more);
      forall j | |NewRows(live)| <= j < |all| ensures all[j] in more {
        if j < |rows| {
          assert all[j] == rows[j] && rows[j] in more[..n];
        } else {
          assert all[j] == more[n];
        }
      }
    }
  }

  lemma {:induction false} CountsRecorded(rows: seq<EventRecord>, n: nat)
    requires n <= |rows|
    requires forall j :: 0 <= j < n ==> !rows[j].recorded
    requires forall j :: n <= j < |rows| ==> rows[j].recorded
    ensures RecordedCount(rows) == |rows| - n
  {
    if rows != [] {
      CountsRecorded(rows[..|rows| - 1], if n < |rows| then n else n - 1);
    }
  }

  /** The rows of the result: first the live ones, and then some of the others. */
  lemma LiveRowsLead(live: seq<EventRecord>, more: seq<EventRecord>)
    requires Distinct(live)
    ensures var out, rows := Deduped(live + more), NewRows(live + more);
            |live| <= |out| == |rows| && rows[..|live|] == live &&
            (forall j :: 0 <= j < |out| ==> SameRow(out[j], rows[j])) &&
            forall j :: |live| <= j < |out| ==> rows[j] in more
  {
    NewRowsOfDistinct(live);
    NewRowsPrefix(live, more);
    KeepsNewRows(live + more);
  }

  /** Only the live rows of the result are not recorded. */
  lemma OnlyLiveIsLive(live: seq<EventRecord>, more: seq<EventRecord>)
    requires Distinct(live) && (forall e :: e in live ==> !e.recorded) && forall e :: e in more ==> e.recorded
    ensures var out := Deduped(live + more);
            |live| <= |out| && (forall j :: 0 <= j < |live| ==> !out[j].recorded) &&
            forall j :: |live| <= j < |out| ==> out[j].recorded
  {
    var input := live + more;
    var out, groups := Deduped(input), Assigned(input);
    LiveRowsLead(live, more);
    OutputStandsForInput(input);
    DistinctAssigned(live);
    AssignedPrefix(live, more);
    forall j | 0 <= j < |live| ensures groups[j] == j {
      assert groups[j] == groups[..|live|][j];
    }
    forall j | 0 <= j < |live| ensures !out[j].recorded {
      assert In(groups, j, j) && input[j] == live[j];
    }
    forall j | |live| <= j < |out| ensures out[j].recorded {
      assert StandsFor(out[j], input, groups, j);
      var i :| In(groups, i, j) && input[i].recorded == out[j].recorded;
      assert |live| <= i;
      assert input[i] in more;
    }
  }

  /** Merging history into deduplicated live events keeps the live events first and in order, adds nothing that repeats
      one, and counts as added exactly the rows that follow them. */
  lemma MergeKeepsLiveFirst(live: seq<EventRecord>, recorded: seq<EventRecord>)
    requires Distinct(live)
    requires forall e :: e in live ==> !e.recorded
    requires forall e :: e in recorded ==> e.recorded
    ensures var out := Deduped(live + WithUid(recorded));
            |live| <= |out| && (forall j :: 0 <= j < |live| ==> SameRow(out[j], live[j]) && !out[j].recorded) &&
            (forall j :: |live| <= j < |out| ==> out[j].recorded && out[j].uid != "") &&
            Distinct(out) && RecordedCount(out) == |out| - |live|
  {
    var more := WithUid(recorded);
    var out, rows := Deduped(live + more), NewRows(live + more);
    WithUidMembers(recorded);
    LiveRowsLead(live, more);
    OnlyLiveIsLive(live, more);
    OutputDistinct(live + more);
    forall j | 0 <= j < |live| ensures SameRow(out[j], live[j]) {
      assert rows[j] == rows[..|live|][j] == live[j];
    }
    CountsRecorded(out, |live|);
  }

  /** Distinct rows are assigned to themselves. */
  lemma {:induction false} DistinctAssigned(rows: seq<EventRecord>)
    requires Distinct(rows)
    ensures forall j :: 0 <= j < |rows| ==> Assigned(rows)[j] == j
  {
    if rows != [] {
      var n := |rows| - 1;
      DistinctAssigned(rows[..n]);
      DistinctUnchanged(rows[..n]);
      assert IsNew(rows[..n], rows[n]);
      FindsRepeats(rows[..n], rows[n]);
    }
  }

  lemma {:induction false} AssignedPrefix(live: seq<EventRecord>, more: seq<EventRecord>)
    ensures Assigned(live + more)[..|live|] == Assigned(live)
  {
    if more == [] {
      assert live + more == live;
    } else {
      var n := |more| - 1;
      assert (live + more)[..|live + more| - 1] == live + more[..n];
      AssignedPrefix(live, more[..n]);
    }
  }
}
