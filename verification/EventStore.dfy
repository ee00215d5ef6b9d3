/** The event table and its upsert (internal/history/store.go:208-288). */
module EventStore {
  import opened Sessions
  import opened CoverageStore
  import opened Options

  datatype EventKey = EventKey(clusterKey: string, uid: string)

  /** Written by the first insert only. */
  datatype Identity = Identity(namespace: string, regardingKind: string, regardingName: string, regardingUID: string)

  /** Overwritten by every upsert. */
  datatype Latest = Latest(typ: string, reason: string, reportingController: string, action: string, recordedAt: int)

  /** One event as observed; times may be unset (ZERO_TIME). */
  datatype EventRow = EventRow(key: EventKey, identity: Identity, latest: Latest, message: string, count: int,
                               seriesCount: int, firstSeen: int, lastSeen: int)

  /** One row of the table; times are milliseconds. */
  datatype Stored = Stored(identity: Identity, latest: Latest, message: string, count: int, seriesCount: int,
                           firstSeen: int, lastSeen: int)

  datatype WatchState = WatchState(clusterKey: string, namespace: string, api: string, resourceVersion: string,
                                   updatedAt: int)

  datatype WatchKey = WatchKey(clusterKey: string, namespace: string)

  datatype Database = Database(events: map<EventKey, Stored>, watch: map<WatchKey, WatchState>)

  predicate Storable(r: EventRow) {
    r.key.clusterKey != "" && r.key.uid != ""
  }

  function Normalised(r: EventRow): Stored {
    var first1 := if IsZero(r.firstSeen) then r.lastSeen else r.firstSeen;
    var last1 := if IsZero(r.lastSeen) then first1 else r.lastSeen;
    var first := if IsZero(first1) then r.latest.recordedAt else first1;
    var last2 := if IsZero(first1) then r.latest.recordedAt else last1;
    var last := if last2 < first then first else last2;
    Stored(r.identity, r.latest.(recordedAt := Ms(r.latest.recordedAt)), r.message,
           if r.count <= 0 then 1 else r.count, r.seriesCount, Ms(first), Ms(last))
  }

  function Min(a: int, b: int): int {
    if b < a then b else a
  }

  /** INSERT ... ON CONFLICT DO UPDATE for one row. */
  function Upsert(cur: Option<Stored>, v: Stored): Stored {
    match cur
    case None => v
    case Some(e) =>
      Stored(e.identity, v.latest, if e.lastSeen <= v.lastSeen then v.message else e.message,
             Max(e.count, v.count), Max(e.seriesCount, v.seriesCount),
             Min(e.firstSeen, v.firstSeen), Max(e.lastSeen, v.lastSeen))
  }

  function Lookup(events: map<EventKey, Stored>, k: EventKey): Option<Stored> {
    if k in events then Some(events[k]) else None
  }

  function ApplyRow(events: map<EventKey, Stored>, r: EventRow): map<EventKey, Stored> {
    if Storable(r) then events[r.key := Upsert(Lookup(events, r.key), Normalised(r))] else events
  }

  function ApplyRows(events: map<EventKey, Stored>, rows: seq<EventRow>): map<EventKey, Stored> {
    if rows == [] then events
    else ApplyRow(ApplyRows(events, rows[..|rows| - 1]), rows[|rows| - 1])
  }

  function ApplyState(watch: map<WatchKey, WatchState>, st: WatchState): map<WatchKey, WatchState> {
    if st.resourceVersion == "" then watch
    else watch[WatchKey(st.clusterKey, st.namespace) := st.(updatedAt := Ms(st.updatedAt))]
  }

  function ApplyStates(watch: map<WatchKey, WatchState>, states: seq<WatchState>): map<WatchKey, WatchState> {
    if states == [] then watch
    else ApplyState(ApplyStates(watch, states[..|states| - 1]), states[|states| - 1])
  }

  /** A committed batch. */
  function Applied(db: Database, rows: seq<EventRow>, states: seq<WatchState>): Database {
    Database(ApplyRows(db.events, rows), ApplyStates(db.watch, states))
  }

  class EventDatabase {
    var events: map<EventKey, Stored>
    var watch: map<WatchKey, WatchState>

    function Contents(): Database
      reads this
    {
      Database(events, watch)
    }

    /** One transaction: it commits as a whole or, when the database fails, not at all. */
    method WriteBatch(rows: seq<EventRow>, states: seq<WatchState>, dbOk: bool) returns (ok: bool)
      modifies this
      ensures ok == (dbOk || (rows == [] && states == []))
      ensures Contents() == if ok then Applied(old(Contents()), rows, states) else old(Contents())
    {
      if |rows| == 0 && |states| == 0 {
        return true;
      }
      var table, resume := events, watch;
      for i := 0 to |rows|
        invariant Contents() == old(Contents())
        invariant table == ApplyRows(events, rows[..i])
      {
        var r := rows[i];
        assert rows[..i + 1][..i] == rows[..i];
        if r.key.clusterKey == "" || r.key.uid == "" {
          continue;
        }
        var first, last := r.firstSeen, r.lastSeen;
        if IsZero(first) {
          first := last;
        }
        if IsZero(last) {
          last := first;
        }
        if IsZero(first) {
          first := r.latest.recordedAt;
          last := r.latest.recordedAt;
        }
        if last < first {
          last := first;
        }
        var count := r.count;
        if count <= 0 {
          count := 1;
        }
        var v := Stored(r.identity, r.latest.(recordedAt := Ms(r.latest.recordedAt)), r.message, count, r.seriesCount,
                        Ms(first), Ms(last));
        table := table[r.key := Upsert(Lookup(table, r.key), v)];
      }
      for i := 0 to |states|
        invariant Contents() == old(Contents())
        invariant resume == ApplyStates(watch, states[..i])
      {
        assert states[..i + 1][..i] == states[..i];
        if states[i].resourceVersion == "" {
          continue;
        }
        resume := ApplyState(resume, states[i]);
      }
      assert rows[..|rows|] == rows && states[..|states|] == states;
      if !dbOk {
        return false;
      }
      events, watch := table, resume;
      return true;
    }

    /** One DELETE, which may fail. */
    method ClearEvents(dbOk: bool)
      modifies this
      ensures Contents() == if dbOk then old(Contents()).(events := map[]) else old(Contents())
    {
      if dbOk {
        events := map[];
      }
    }

    /** One DELETE, which may fail. */
    method ClearStates(dbOk: bool)
      modifies this
      ensures Contents() == if dbOk then old(Contents()).(watch := map[]) else old(Contents())
    {
      if dbOk {
        watch := map[];
      }
    }
  }

  // ----- one event at a time -----

  /** The versions of event k in a batch, as they are stored. */
  function Versions(rows: seq<EventRow>, k: EventKey): seq<Stored> {
    if rows == [] then []
    else
      var r := rows[|rows| - 1];
      Versions(rows[..|rows| - 1], k) + if Storable(r) && r.key == k then [Normalised(r)] else []
  }

  function FoldVersions(cur: Option<Stored>, vs: seq<Stored>): Option<Stored> {
    if vs == [] then cur else Some(Upsert(FoldVersions(cur, vs[..|vs| - 1]), vs[|vs| - 1]))
  }

  /** A batch acts on each event separately. */
  lemma {:induction false} ApplyRowsAt(events: map<EventKey, Stored>, rows: seq<EventRow>, k: EventKey)
    ensures Lookup(ApplyRows(events, rows), k) == FoldVersions(Lookup(events, k), Versions(rows, k))
  {
    if rows != [] {
      var n := |rows| - 1;
      ApplyRowsAt(events, rows[..n], k);
      var vs := Versions(rows[..n], k);
      if Storable(rows[n]) && rows[n].key == k {
        assert (vs + [Normalised(rows[n])])[..|vs|] == vs;
      } else {
        assert vs + [] == vs;
      }
    }
  }

  lemma {:induction false} FoldVersionsConcat(cur: Option<Stored>, vs: seq<Stored>, ws: seq<Stored>)
    ensures FoldVersions(cur, vs + ws) == FoldVersions(FoldVersions(cur, vs), ws)
  {
    if ws == [] {
      assert vs + ws == vs;
    } else {
      var n := |ws| - 1;
      assert (vs + ws)[..|vs + ws| - 1] == vs + ws[..n];
      FoldVersionsConcat(cur, vs, ws[..n]);
    }
  }

  lemma {:induction false} VersionsConcat(rows: seq<EventRow>, more: seq<EventRow>, k: EventKey)
    ensures Versions(rows + more, k) == Versions(rows, k) + Versions(more, k)
  {
    if more == [] {
      assert rows + more == rows;
    } else {
      var n := |more| - 1;
      assert (rows + more)[..|rows + more| - 1] == rows + more[..n];
      VersionsConcat(rows, more[..n], k);
    }
  }

  lemma SameTable(a: map<EventKey, Stored>, b: map<EventKey, Stored>)
    requires forall k :: Lookup(a, k) == Lookup(b, k)
    ensures a == b
  {
    forall k ensures (k in a <==> k in b) && (k in a ==> a[k] == b[k]) {
      assert Lookup(a, k) == Lookup(b, k);
    }
  }

  // ----- replay -----

  function MaxLast(start: int, vs: seq<Stored>): int {
    if vs == [] then start else Max(MaxLast(start, vs[..|vs| - 1]), vs[|vs| - 1].lastSeen)
  }

  /** The message of the last version seen at last, or fallback when there is none. */
  function MessageAt(vs: seq<Stored>, last: int, fallback: string): string {
    if vs == [] then fallback
    else if vs[|vs| - 1].lastSeen == last then vs[|vs| - 1].message
    else MessageAt(vs[..|vs| - 1], last, fallback)
  }

  /** Every field of a stored event after a list of versions, in terms of the list. */
  lemma {:induction false} FoldSummary(e: Stored, vs: seq<Stored>)
    ensures var r := FoldVersions(Some(e), vs);
            r.Some? && r.value.identity == e.identity &&
            r.value.latest == (if vs == [] then e.latest else vs[|vs| - 1].latest) &&
            r.value.lastSeen == MaxLast(e.lastSeen, vs) &&
            r.value.message == MessageAt(vs, MaxLast(e.lastSeen, vs), e.message)
    ensures var r := FoldVersions(Some(e), vs);
            e.count <= r.value.count && e.seriesCount <= r.value.seriesCount && r.value.firstSeen <= e.firstSeen &&
            e.lastSeen <= r.value.lastSeen &&
            forall v :: v in vs ==> v.count <= r.value.count && v.seriesCount <= r.value.seriesCount &&
                                    r.value.firstSeen <= v.firstSeen && v.lastSeen <= r.value.lastSeen
    ensures var r := FoldVersions(Some(e), vs);
            (r.value.count == e.count || SomeCount(vs, r.value.count)) &&
            (r.value.seriesCount == e.seriesCount || SomeSeriesCount(vs, r.value.seriesCount)) &&
            (r.value.firstSeen == e.firstSeen || SomeFirstSeen(vs, r.value.firstSeen))
  {
    if vs != [] {
      var n := |vs| - 1;
      FoldSummary(e, vs[..n]);
      SomeFurther(vs[..n], vs[n]);
      MessageOfLater(vs[..n], MaxLast(e.lastSeen, vs[..n]), MaxLast(e.lastSeen, vs), e.message);
      assert vs == vs[..n] + [vs[n]];
    }
  }

  predicate SomeCount(vs: seq<Stored>, c: int) {
    exists i :: 0 <= i < |vs| && vs[i].count == c
  }

  predicate SomeSeriesCount(vs: seq<Stored>, c: int) {
    exists i :: 0 <= i < |vs| && vs[i].seriesCount == c
  }

  predicate SomeFirstSeen(vs: seq<Stored>, t: int) {
    exists i :: 0 <= i < |vs| && vs[i].firstSeen == t
  }

  lemma SomeFurther(vs: seq<Stored>, v: Stored)
    ensures forall c :: SomeCount(vs, c) || v.count == c ==> SomeCount(vs + [v], c)
    ensures forall c :: SomeSeriesCount(vs, c) || v.seriesCount == c ==> SomeSeriesCount(vs + [v], c)
    ensures forall t :: SomeFirstSeen(vs, t) || v.firstSeen == t ==> SomeFirstSeen(vs + [v], t)
  {
    var more := vs + [v];
    assert more[|vs|] == v && forall i :: 0 <= i < |vs| ==> more[i] == vs[i];
  }

  lemma {:induction false} MessageOfLater(vs: seq<Stored>, last: int, later: int, fallback: string)
    ensures last == later ==> MessageAt(vs, last, fallback) == MessageAt(vs, later, fallback)
  {
  }

  lemma {:induction false} MessageAtTwice(vs: seq<Stored>, last: int, fallback: string)
    ensures MessageAt(vs, last, MessageAt(vs, last, fallback)) == MessageAt(vs, last, fallback)
  {
    MessageAtFallback(vs, last, fallback, MessageAt(vs, last, fallback));
  }

  lemma {:induction false} MessageAtFallback(vs: seq<Stored>, last: int, f: string, g: string)
    requires g == f || g == MessageAt(vs, last, f)
    ensures MessageAt(vs, last, g) == MessageAt(vs, last, f)
  {
    if vs != [] && vs[|vs| - 1].lastSeen != last {
      MessageAtFallback(vs[..|vs| - 1], last, f, g);
    }
  }

  lemma {:induction false} MaxLastOfDominated(start: int, vs: seq<Stored>)
    requires forall v :: v in vs ==> v.lastSeen <= start
    ensures MaxLast(start, vs) == start
  {
    if vs != [] {
      assert vs[|vs| - 1] in vs;
      MaxLastOfDominated(start, vs[..|vs| - 1]);
    }
  }

  lemma {:induction false} CountsOfDominated(e: Stored, vs: seq<Stored>)
    requires forall v :: v in vs ==> v.count <= e.count && v.seriesCount <= e.seriesCount && e.firstSeen <= v.firstSeen
    ensures var r := FoldVersions(Some(e), vs);
            r.Some? && r.value.count == e.count && r.value.seriesCount == e.seriesCount &&
            r.value.firstSeen == e.firstSeen
  {
    if vs != [] {
      assert vs[|vs| - 1] in vs;
      CountsOfDominated(e, vs[..|vs| - 1]);
    }
  }

  /** Applying the same versions again to their result changes nothing. */
  lemma FoldTwice(cur: Option<Stored>, vs: seq<Stored>)
    ensures FoldVersions(FoldVersions(cur, vs), vs) == FoldVersions(cur, vs)
  {
    if vs != [] {
      var e, ws := if cur.Some? then cur.value else vs[0], if cur.Some? then vs else vs[1..];
      if cur.None? {
        assert vs == [vs[0]] + ws;
        FoldVersionsConcat(None, [vs[0]], ws);
        assert [vs[0]][..0] == [];
        assert FoldVersions(None, [vs[0]]) == Some(vs[0]);
      }
      FoldSummary(e, ws);
      var r := FoldVersions(cur, vs).value;
      assert forall v :: v in vs ==> v in ws || v == e;
      FoldSummary(r, vs);
      MaxLastOfDominated(r.lastSeen, vs);
      CountsOfDominated(r, vs);
      if cur.None? {
        MessageFromHead(e, ws);
      } else {
        MessageAtTwice(vs, r.lastSeen, e.message);
      }
      assert FoldVersions(Some(r), vs).value == r;
    }
  }

  /** With the first version as the starting row, taking it as a version too gives the same message. */
  lemma MessageFromHead(e: Stored, ws: seq<Stored>)
    ensures var last := MaxLast(e.lastSeen, ws);
            var m := MessageAt(ws, last, e.message);
            MessageAt([e] + ws, last, m) == m
  {
    var last := MaxLast(e.lastSeen, ws);
    MessageOfCons(e, ws, last, MessageAt(ws, last, e.message));
    if e.lastSeen == last {
      // the head is the fallback of the tail
    } else {
      MessageAtTwice(ws, last, e.message);
    }
  }

  lemma {:induction false} MessageOfCons(e: Stored, ws: seq<Stored>, last: int, f: string)
    ensures MessageAt([e] + ws, last, f) == MessageAt(ws, last, if e.lastSeen == last then e.message else f)
  {
    if ws == [] {
      assert ([e] + ws)[..0] == [];
    } else {
      var n := |ws| - 1;
      assert ([e] + ws)[..n + 1] == [e] + ws[..n];
      MessageOfCons(e, ws[..n], last, f);
    }
  }

  lemma {:induction false} ApplyStatesTwice(watch: map<WatchKey, WatchState>, states: seq<WatchState>)
    ensures ApplyStates(ApplyStates(watch, states), states) == ApplyStates(watch, states)
  {
    forall k
      ensures k in ApplyStates(ApplyStates(watch, states), states) <==> k in ApplyStates(watch, states)
      ensures k in ApplyStates(watch, states) ==>
                k in ApplyStates(ApplyStates(watch, states), states) &&
                ApplyStates(ApplyStates(watch, states), states)[k] == ApplyStates(watch, states)[k]
    {
      StateAt(watch, states, k);
      StateAt(ApplyStates(watch, states), states, k);
    }
  }

  /** The last saved state of a stream in a batch. */
  function LastState(states: seq<WatchState>, k: WatchKey): Option<WatchState> {
    if states == [] then None
    else
      var st := states[|states| - 1];
      if st.resourceVersion != "" && WatchKey(st.clusterKey, st.namespace) == k
      then Some(st.(updatedAt := Ms(st.updatedAt)))
      else LastState(states[..|states| - 1], k)
  }

  lemma {:induction false} StateAt(watch: map<WatchKey, WatchState>, states: seq<WatchState>, k: WatchKey)
    ensures var r := ApplyStates(watch, states);
            if LastState(states, k).Some? then k in r && r[k] == LastState(states, k).value
            else (k in r <==> k in watch) && (k in r ==> r[k] == watch[k])
  {
    if states != [] {
      StateAt(watch, states[..|states| - 1], k);
    }
  }

  /** Replaying a committed batch, as after a commit whose acknowledgement was lost, changes nothing. */
  lemma ReplayIsIdempotent(db: Database, rows: seq<EventRow>, states: seq<WatchState>)
    ensures Applied(Applied(db, rows, states), rows, states) == Applied(db, rows, states)
  {
    var once := ApplyRows(db.events, rows);
    forall k ensures Lookup(ApplyRows(once, rows), k) == Lookup(once, k) {
      ApplyRowsAt(db.events, rows, k);
      ApplyRowsAt(once, rows, k);
      FoldTwice(Lookup(db.events, k), Versions(rows, k));
    }
    SameTable(ApplyRows(once, rows), once);
    ApplyStatesTwice(db.watch, states);
  }

  predicate StoredOk(s: Stored) {
    s.firstSeen <= s.lastSeen && 1 <= s.count
  }

  predicate TableOk(events: map<EventKey, Stored>) {
    forall k :: k in events ==> StoredOk(events[k])
  }

  /** Whatever the API server sends, stored events do not end before they start and have a positive count. */
  lemma {:induction false} BatchKeepsStoredOk(events: map<EventKey, Stored>, rows: seq<EventRow>)
    requires TableOk(events)
    ensures TableOk(ApplyRows(events, rows))
  {
    if rows != [] {
      var before := ApplyRows(events, rows[..|rows| - 1]);
      BatchKeepsStoredOk(events, rows[..|rows| - 1]);
      var v := Normalised(rows[|rows| - 1]);
      assert StoredOk(v);
    }
  }

  // ----- coalescing -----

  /** Successive versions of one event, as stored. */
  predicate Monotone(vs: seq<Stored>) {
    forall i, j :: 0 <= i < j < |vs| ==>
                     vs[i].lastSeen <= vs[j].lastSeen && vs[i].count <= vs[j].count &&
                     vs[i].seriesCount <= vs[j].seriesCount && vs[j].firstSeen <= vs[i].firstSeen
  }

  lemma {:induction false} FoldMonotoneOver(e: Stored, vs: seq<Stored>)
    requires Monotone(vs) && vs != []
    ensures FoldVersions(Some(e), vs) == Some(Upsert(Some(e), vs[|vs| - 1]))
  {
    var n := |vs| - 1;
    if n > 0 {
      assert vs[..n][n - 1] == vs[n - 1];
      FoldMonotoneOver(e, vs[..n]);
    }
  }

  /** Upserting only the latest of monotone versions equals upserting them all, in order, exactly when the event is
      already stored or its identity did not change: the identity is taken from the first insert. */
  lemma CoalescingIsSafe(cur: Option<Stored>, vs: seq<Stored>)
    requires Monotone(vs) && vs != []
    ensures FoldVersions(cur, [vs[|vs| - 1]]) == FoldVersions(cur, vs) <==>
            cur.Some? || vs[0].identity == vs[|vs| - 1].identity
  {
    var n := |vs| - 1;
    assert [vs[n]][..0] == [];
    assert FoldVersions(cur, [vs[n]]) == Some(Upsert(cur, vs[n]));
    if cur.Some? {
      FoldMonotoneOver(cur.value, vs);
    } else {
      var ws := vs[1..];
      assert vs == [vs[0]] + ws;
      FoldVersionsConcat(None, [vs[0]], ws);
      assert [vs[0]][..0] == [];
      assert FoldVersions(None, [vs[0]]) == Some(vs[0]);
      if ws != [] {
        assert ws[|ws| - 1] == vs[n];
        FoldMonotoneOver(vs[0], ws);
      }
    }
  }
}
