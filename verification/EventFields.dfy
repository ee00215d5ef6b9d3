/** What a batch of rows leaves in every field of the event table (internal/history/store.go:206-288). */
module EventFields {
  // In terms of the rows themselves, with the times that a row with missing or reversed times stands for.

  import opened Sessions
  import opened CoverageStore
  import opened EventStore
  import opened WriterRuns
  import opened Options

  // ----- the times of a row -----

  /** When a row's event was first seen: the last sighting stands in for an unset first one, and the time of recording
      when both are unset. */
  function SeenFrom(r: EventRow): int {
    if !IsZero(r.firstSeen) then r.firstSeen
    else if !IsZero(r.lastSeen) then r.lastSeen
    else r.latest.recordedAt
  }

  /** When it was last seen: at least when it was first seen. */
  function SeenTo(r: EventRow): int {
    if !IsZero(r.firstSeen) && !IsZero(r.lastSeen) && r.firstSeen <= r.lastSeen then r.lastSeen else SeenFrom(r)
  }

  function CountOf(r: EventRow): int {
    if r.count >= 1 then r.count else 1
  }

  // ----- the rows of an event -----

  /** The i-th row is about event k, and can be stored. */
  predicate About(rows: seq<EventRow>, k: EventKey, i: int) {
    0 <= i < |rows| && rows[i].key == k && k.clusterKey != "" && k.uid != ""
  }

  /** first_seen is the least, and last_seen the greatest, of the old value and those of the rows. */
  ghost predicate TimesFrom(old_: Option<Stored>, rows: seq<EventRow>, k: EventKey, e: Stored) {
    (old_.Some? ==> e.firstSeen <= old_.value.firstSeen && old_.value.lastSeen <= e.lastSeen) &&
    (forall i :: About(rows, k, i) ==> e.firstSeen <= Ms(SeenFrom(rows[i])) && Ms(SeenTo(rows[i])) <= e.lastSeen) &&
    ((old_.Some? && e.firstSeen == old_.value.firstSeen) ||
     exists i :: About(rows, k, i) && e.firstSeen == Ms(SeenFrom(rows[i]))) &&
    ((old_.Some? && e.lastSeen == old_.value.lastSeen) ||
     exists i :: About(rows, k, i) && e.lastSeen == Ms(SeenTo(rows[i])))
  }

  /** The counts are the greatest of the old ones and those of the rows. */
  ghost predicate CountsFrom(old_: Option<Stored>, rows: seq<EventRow>, k: EventKey, e: Stored) {
    (old_.Some? ==> old_.value.count <= e.count && old_.value.seriesCount <= e.seriesCount) &&
    (forall i :: About(rows, k, i) ==> CountOf(rows[i]) <= e.count && rows[i].seriesCount <= e.seriesCount) &&
    ((old_.Some? && e.count == old_.value.count) || exists i :: About(rows, k, i) && e.count == CountOf(rows[i])) &&
    ((old_.Some? && e.seriesCount == old_.value.seriesCount) ||
     exists i :: About(rows, k, i) && e.seriesCount == rows[i].seriesCount)
  }

  /** The i-th row is the first, or the last, about event k. */
  ghost predicate FirstAbout(rows: seq<EventRow>, k: EventKey, i: int) {
    About(rows, k, i) && forall j :: 0 <= j < i ==> !About(rows, k, j)
  }

  ghost predicate LastAbout(rows: seq<EventRow>, k: EventKey, i: int) {
    About(rows, k, i) && forall j :: i < j < |rows| ==> !About(rows, k, j)
  }

  /** The identity is that of the first insert, and type, reason, controller and action are those of the last row. */
  ghost predicate TextFrom(old_: Option<Stored>, rows: seq<EventRow>, k: EventKey, e: Stored) {
    (if old_.Some? then e.identity == old_.value.identity
     else exists i :: FirstAbout(rows, k, i) && e.identity == rows[i].identity) &&
    (if exists i :: About(rows, k, i)
     then exists i :: LastAbout(rows, k, i) && SameText(e.latest, rows[i].latest)
     else old_.Some? && e.latest == old_.value.latest)
  }

  ghost predicate SameText(a: Latest, b: Latest) {
    a.typ == b.typ && a.reason == b.reason && a.reportingController == b.reportingController && a.action == b.action &&
    a.recordedAt == Ms(b.recordedAt)
  }

  /** The last of the rows that are seen latest. */
  ghost predicate SeenLatest(rows: seq<EventRow>, k: EventKey, e: Stored, i: int) {
    About(rows, k, i) && Ms(SeenTo(rows[i])) == e.lastSeen &&
    forall j :: i < j && About(rows, k, j) ==> Ms(SeenTo(rows[j])) < e.lastSeen
  }

  /** The message is that of the last sighting; of several at the same time, the one that came last. */
  ghost predicate MessageFrom(old_: Option<Stored>, rows: seq<EventRow>, k: EventKey, e: Stored) {
    (exists i :: SeenLatest(rows, k, e, i) && e.message == rows[i].message) ||
    (old_.Some? && e.lastSeen == old_.value.lastSeen && e.message == old_.value.message &&
     forall i :: About(rows, k, i) ==> Ms(SeenTo(rows[i])) < e.lastSeen)
  }

  ghost predicate StoredFrom(old_: Option<Stored>, rows: seq<EventRow>, k: EventKey, e: Stored) {
    TimesFrom(old_, rows, k, e) && CountsFrom(old_, rows, k, e) && TextFrom(old_, rows, k, e) &&
    MessageFrom(old_, rows, k, e)
  }

  // ----- one row more -----

  /** What one row stores by itself. */
  lemma StoredFields(r: EventRow)
    ensures var v := Normalised(r);
            v.firstSeen == Ms(SeenFrom(r)) && v.lastSeen == Ms(SeenTo(r)) && v.count == CountOf(r) &&
            v.seriesCount == r.seriesCount && v.identity == r.identity && v.message == r.message &&
            SameText(v.latest, r.latest)
  {
  }

  lemma AboutMore(rows: seq<EventRow>, r: EventRow, k: EventKey)
    ensures forall i :: About(rows + [r], k, i) <==>
                        About(rows, k, i) || (i == |rows| && r.key == k && k.clusterKey != "" && k.uid != "")
    ensures forall i :: 0 <= i < |rows| ==> (rows + [r])[i] == rows[i]
    ensures (rows + [r])[|rows|] == r
  {
  }

  /** What the table holds of event k after some rows. */
  ghost predicate Current(old_: Option<Stored>, rows: seq<EventRow>, k: EventKey, cur: Option<Stored>) {
    if cur.Some? then StoredFrom(old_, rows, k, cur.value)
    else old_.None? && forall i :: !About(rows, k, i)
  }

  lemma TimesNext(old_: Option<Stored>, rows: seq<EventRow>, k: EventKey, cur: Option<Stored>, r: EventRow)
    requires r.key == k && Storable(r) && if cur.Some? then TimesFrom(old_, rows, k, cur.value) else old_.None?
    requires cur.None? ==> forall i :: !About(rows, k, i)
    ensures TimesFrom(old_, rows + [r], k, Upsert(cur, Normalised(r)))
  {
    var n, e := |rows|, Upsert(cur, Normalised(r));
    AboutMore(rows, r, k);
    StoredFields(r);
    if cur.Some? && e.firstSeen == cur.value.firstSeen && !(old_.Some? && e.firstSeen == old_.value.firstSeen) {
      var i :| About(rows, k, i) && cur.value.firstSeen == Ms(SeenFrom(rows[i]));
      assert About(rows + [r], k, i);
    } else if cur.None? || e.firstSeen != cur.value.firstSeen {
      assert About(rows + [r], k, n);
    }
    if cur.Some? && e.lastSeen == cur.value.lastSeen && !(old_.Some? && e.lastSeen == old_.value.lastSeen) {
      var i :| About(rows, k, i) && cur.value.lastSeen == Ms(SeenTo(rows[i]));
      assert About(rows + [r], k, i);
    } else if cur.None? || e.lastSeen != cur.value.lastSeen {
      assert About(rows + [r], k, n);
    }
  }

  lemma CountsNext(old_: Option<Stored>, rows: seq<EventRow>, k: EventKey, cur: Option<Stored>, r: EventRow)
    requires r.key == k && Storable(r) && if cur.Some? then CountsFrom(old_, rows, k, cur.value) else old_.None?
    requires cur.None? ==> forall i :: !About(rows, k, i)
    ensures CountsFrom(old_, rows + [r], k, Upsert(cur, Normalised(r)))
  {
    var n, e := |rows|, Upsert(cur, Normalised(r));
    AboutMore(rows, r, k);
    StoredFields(r);
    if cur.Some? && e.count == cur.value.count && !(old_.Some? && e.count == old_.value.count) {
      var i :| About(rows, k, i) && cur.value.count == CountOf(rows[i]);
      assert About(rows + [r], k, i);
    } else if cur.None? || e.count != cur.value.count {
      assert About(rows + [r], k, n);
    }
    if cur.Some? && e.seriesCount == cur.value.seriesCount && !(old_.Some? && e.seriesCount == old_.value.seriesCount) {
      var i :| About(rows, k, i) && cur.value.seriesCount == rows[i].seriesCount;
      assert About(rows + [r], k, i);
    } else if cur.None? || e.seriesCount != cur.value.seriesCount {
      assert About(rows + [r], k, n);
    }
  }

  lemma TextNext(old_: Option<Stored>, rows: seq<EventRow>, k: EventKey, cur: Option<Stored>, r: EventRow)
    requires r.key == k && Storable(r) && if cur.Some? then TextFrom(old_, rows, k, cur.value) else old_.None?
    requires cur.None? ==> forall i :: !About(rows, k, i)
    ensures TextFrom(old_, rows + [r], k, Upsert(cur, Normalised(r)))
  {
    var n, more, e := |rows|, rows + [r], Upsert(cur, Normalised(r));
    AboutMore(rows, r, k);
    StoredFields(r);
    assert LastAbout(more, k, n) && SameText(e.latest, more[n].latest);
    if old_.None? {
      if cur.Some? {
        var i :| FirstAbout(rows, k, i) && cur.value.identity == rows[i].identity;
        assert FirstAbout(more, k, i);
      } else {
        assert FirstAbout(more, k, n);
      }
    }
  }

  lemma MessageNext(old_: Option<Stored>, rows: seq<EventRow>, k: EventKey, cur: Option<Stored>, r: EventRow)
    requires r.key == k && Storable(r)
    requires if cur.Some? then TimesFrom(old_, rows, k, cur.value) && MessageFrom(old_, rows, k, cur.value)
             else old_.None?
    ensures MessageFrom(old_, rows + [r], k, Upsert(cur, Normalised(r)))
  {
    var n, more, e := |rows|, rows + [r], Upsert(cur, Normalised(r));
    AboutMore(rows, r, k);
    StoredFields(r);
    if cur.None? || cur.value.lastSeen <= Ms(SeenTo(r)) {
      assert SeenLatest(more, k, e, n);
    } else if exists i :: SeenLatest(rows, k, cur.value, i) && cur.value.message == rows[i].message {
      var i :| SeenLatest(rows, k, cur.value, i) && cur.value.message == rows[i].message;
      assert SeenLatest(more, k, e, i);
    }
  }

  /** A row about another event changes nothing. */
  lemma OtherRow(old_: Option<Stored>, rows: seq<EventRow>, k: EventKey, e: Stored, r: EventRow)
    requires StoredFrom(old_, rows, k, e) && !(r.key == k && Storable(r))
    ensures StoredFrom(old_, rows + [r], k, e)
  {
    var more := rows + [r];
    AboutMore(rows, r, k);
    forall i | About(rows, k, i) ensures About(more, k, i) && more[i] == rows[i] {
    }
    forall i | FirstAbout(rows, k, i) ensures FirstAbout(more, k, i) {
    }
    forall i | LastAbout(rows, k, i) ensures LastAbout(more, k, i) {
    }
    forall i | SeenLatest(rows, k, e, i) ensures SeenLatest(more, k, e, i) {
    }
  }

  lemma CurrentNext(old_: Option<Stored>, rows: seq<EventRow>, k: EventKey, cur: Option<Stored>, r: EventRow)
    requires Current(old_, rows, k, cur)
    ensures Current(old_, rows + [r], k, if r.key == k && Storable(r) then Some(Upsert(cur, Normalised(r))) else cur)
  {
    AboutMore(rows, r, k);
    if r.key == k && Storable(r) {
      TimesNext(old_, rows, k, cur, r);
      CountsNext(old_, rows, k, cur, r);
      TextNext(old_, rows, k, cur, r);
      MessageNext(old_, rows, k, cur, r);
    } else if cur.Some? {
      OtherRow(old_, rows, k, cur.value, r);
    }
  }

  lemma NoRows(old_: Option<Stored>, k: EventKey)
    ensures Current(old_, [], k, old_)
  {
  }

  lemma LookupNext(events: map<EventKey, Stored>, rows: seq<EventRow>, k: EventKey, cur: Option<Stored>)
    requires rows != [] && cur == Lookup(ApplyRows(events, rows[..|rows| - 1]), k)
    ensures var r := rows[|rows| - 1];
            Lookup(ApplyRows(events, rows), k) ==
            if r.key == k && Storable(r) then Some(Upsert(cur, Normalised(r))) else cur
  {
  }

  lemma {:induction false} BatchIsCurrent(events: map<EventKey, Stored>, rows: seq<EventRow>, k: EventKey)
    ensures Current(Lookup(events, k), rows, k, Lookup(ApplyRows(events, rows), k))
  {
    if rows == [] {
      NoRows(Lookup(events, k), k);
    } else {
      var init, r := rows[..|rows| - 1], rows[|rows| - 1];
      assert rows == init + [r];
      BatchIsCurrent(events, init, k);
      var cur := Lookup(ApplyRows(events, init), k);
      LookupNext(events, rows, k, cur);
      CurrentNext(Lookup(events, k), init, k, cur, r);
    }
  }

  /** After a batch, an event is in the table exactly when it was or a row is about it; and then every field of it is
      what the old row and the rows about it say. */
  lemma BatchFields(events: map<EventKey, Stored>, rows: seq<EventRow>, k: EventKey)
    ensures var table := ApplyRows(events, rows);
            (k in table <==> k in events || exists i :: About(rows, k, i)) &&
            (k in table ==> StoredFrom(Lookup(events, k), rows, k, table[k]))
  {
    BatchIsCurrent(events, rows, k);
  }

  // ----- resume points -----

  /** The i-th state is a resume point of stream k. */
  predicate Saves(states: seq<WatchState>, k: WatchKey, i: int) {
    0 <= i < |states| && states[i].resourceVersion != "" && states[i].clusterKey == k.clusterKey &&
    states[i].namespace == k.namespace
  }

  ghost predicate LastSaved(states: seq<WatchState>, k: WatchKey, i: int) {
    Saves(states, k, i) && forall j :: i < j < |states| ==> !Saves(states, k, j)
  }

  predicate SamePoint(a: WatchState, b: WatchState) {
    a.clusterKey == b.clusterKey && a.namespace == b.namespace && a.api == b.api &&
    a.resourceVersion == b.resourceVersion && a.updatedAt == Ms(b.updatedAt)
  }

  /** The last of the states that is a resume point of the stream; without one, the old point. */
  ghost predicate PointFrom(old_: Option<WatchState>, states: seq<WatchState>, k: WatchKey, cur: Option<WatchState>) {
    if exists i :: Saves(states, k, i)
    then cur.Some? && exists i :: LastSaved(states, k, i) && SamePoint(cur.value, states[i])
    else cur == old_
  }

  function PointAt(watch: map<WatchKey, WatchState>, k: WatchKey): Option<WatchState> {
    if k in watch then Some(watch[k]) else None
  }

  lemma PointNext(old_: Option<WatchState>, init: seq<WatchState>, k: WatchKey, cur: Option<WatchState>, st: WatchState,
                  next: Option<WatchState>)
    requires PointFrom(old_, init, k, cur)
    requires if Saves([st], k, 0) then next.Some? && SamePoint(next.value, st) else next == cur
    ensures PointFrom(old_, init + [st], k, next)
  {
    var states, n := init + [st], |init|;
    assert forall i :: 0 <= i < n ==> (Saves(init, k, i) <==> Saves(states, k, i));
    assert Saves([st], k, 0) <==> Saves(states, k, n);
    if Saves([st], k, 0) {
      assert LastSaved(states, k, n);
    } else if exists i :: Saves(init, k, i) {
      var i :| LastSaved(init, k, i) && SamePoint(cur.value, init[i]);
      assert Saves(states, k, i) && LastSaved(states, k, i) && states[i] == init[i];
    }
  }

  lemma PointAtNext(watch: map<WatchKey, WatchState>, states: seq<WatchState>, k: WatchKey, cur: Option<WatchState>)
    requires states != [] && cur == PointAt(ApplyStates(watch, states[..|states| - 1]), k)
    ensures var st, next := states[|states| - 1], PointAt(ApplyStates(watch, states), k);
            if Saves([st], k, 0) then next.Some? && SamePoint(next.value, st) else next == cur
  {
  }

  /** After a batch, a stream's resume point is the last one in the batch, or the old one. */
  lemma {:induction false} BatchPoints(watch: map<WatchKey, WatchState>, states: seq<WatchState>, k: WatchKey)
    ensures PointFrom(PointAt(watch, k), states, k, PointAt(ApplyStates(watch, states), k))
  {
    if states != [] {
      var init, st := states[..|states| - 1], states[|states| - 1];
      BatchPoints(watch, init, k);
      var cur, next := PointAt(ApplyStates(watch, init), k), PointAt(ApplyStates(watch, states), k);
      PointAtNext(watch, states, k, cur);
      assert init + [st] == states;
      PointNext(PointAt(watch, k), init, k, cur, st, next);
    }
  }

  // ----- what it means for a batch that was written, and for the writer -----

  /** A row that the table reflects: the stored event was seen at least as long, and as often, and has its texts. */
  lemma ReflectedFields(events: map<EventKey, Stored>, k: EventKey, row: EventRow)
    ensures Holds(events, k, row) <==>
            k in events && events[k].firstSeen <= Ms(SeenFrom(row)) && Ms(SeenTo(row)) <= events[k].lastSeen &&
            CountOf(row) <= events[k].count && row.seriesCount <= events[k].seriesCount &&
            SameText(events[k].latest, row.latest)
  {
    StoredFields(row);
  }
}
