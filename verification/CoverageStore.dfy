/** The coverage table (internal/history/coverage.go:88-187, store.go:443-461): row operations, the windowed query
    and pruning by age. Times are stored as milliseconds, the unset time as zero. Every statement may fail, and then
    it changes nothing. */
module CoverageStore {
  import opened Sessions
  import opened CoverageReport

  /** One coverage row; times are the stored milliseconds, 0 standing for the unset time. */
  datatype Row = Row(id: int, key: string, scope: string, startedAt: int, endedAt: int, backfilled: bool,
                     endReason: string)

  /** The rows in insertion order, and the next automatic id: ids are never reused. */
  datatype Table = Table(rows: seq<Row>, nextId: int)

  datatype Outcome = Done | NoSession | DbError

  datatype RowOp = Touch(t: int) | MarkBackfilled | SetEndReason(reason: string) | End(t: int, reason: string)

  function Ms(t: int): int {
    if IsZero(t) then 0 else t
  }

  function FromMs(v: int): int {
    if v == 0 then ZERO_TIME else v
  }

  function ToSession(r: Row): Session {
    Session(FromMs(r.startedAt), FromMs(r.endedAt), r.scope, r.backfilled, r.endReason)
  }

  /** A row recorded under a clock after 1970 that has not been extended backwards. */
  predicate RowOk(r: Row) {
    0 < r.startedAt <= r.endedAt
  }

  predicate RowsOk(rows: seq<Row>) {
    forall i :: 0 <= i < |rows| ==> RowOk(rows[i])
  }

  // ----- row operations -----

  function ApplyOp(r: Row, op: RowOp): Row {
    match op
    case Touch(t) => r.(endedAt := Max(r.endedAt, Ms(t)), endReason := "")
    case MarkBackfilled => r.(backfilled := true)
    case SetEndReason(reason) => r.(endReason := reason)
    case End(t, reason) => r.(endedAt := Max(r.endedAt, Ms(t)), endReason := reason)
  }

  function UpdateRows(rows: seq<Row>, id: int, op: RowOp): (r: seq<Row>)
    ensures |r| == |rows|
    ensures forall i :: 0 <= i < |rows| ==> r[i] == if rows[i].id == id then ApplyOp(rows[i], op) else rows[i]
  {
    if rows == [] then []
    else [if rows[0].id == id then ApplyOp(rows[0], op) else rows[0]] + UpdateRows(rows[1..], id, op)
  }

  predicate HasRow(rows: seq<Row>, id: int) {
    exists i :: 0 <= i < |rows| && rows[i].id == id
  }

  function Updated(t: Table, id: int, op: RowOp, dbOk: bool): (Table, Outcome) {
    if id == 0 then (t, NoSession)
    else if !dbOk then (t, DbError)
    else if HasRow(t.rows, id) then (t.(rows := UpdateRows(t.rows, id, op)), Done)
    else (t, NoSession)
  }

  function NewRow(id: int, key: string, scope: string, start: int, backfilled: bool): Row {
    Row(id, key, scope, Ms(start), Ms(start), backfilled, "")
  }

  /** The new table and the new row's id, or 0 when the insert failed. */
  function Begun(t: Table, key: string, scope: string, start: int, backfilled: bool, dbOk: bool): (Table, int) {
    if dbOk then (Table(t.rows + [NewRow(t.nextId, key, scope, start, backfilled)], t.nextId + 1), t.nextId)
    else (t, 0)
  }

  // ----- pruning -----

  function PrunedRows(rows: seq<Row>, cutoff: int): seq<Row> {
    if rows == [] then []
    else if rows[0].endedAt < cutoff then PrunedRows(rows[1..], cutoff)
    else [rows[0].(startedAt := Max(rows[0].startedAt, cutoff))] + PrunedRows(rows[1..], cutoff)
  }

  /** What the DELETE leaves. */
  function RecentRows(rows: seq<Row>, cutoff: int): seq<Row> {
    if rows == [] then []
    else if rows[0].endedAt < cutoff then RecentRows(rows[1..], cutoff)
    else [rows[0]] + RecentRows(rows[1..], cutoff)
  }

  /** What the UPDATE does to each row. */
  function RaisedRows(rows: seq<Row>, cutoff: int): (r: seq<Row>)
    ensures |r| == |rows|
  {
    seq(|rows|, i requires 0 <= i < |rows| => rows[i].(startedAt := Max(rows[i].startedAt, cutoff)))
  }

  lemma {:induction false} RecentRowsConcat(a: seq<Row>, b: seq<Row>, cutoff: int)
    ensures RecentRows(a + b, cutoff) == RecentRows(a, cutoff) + RecentRows(b, cutoff)
  {
    if a == [] {
      assert a + b == b;
    } else {
      assert (a + b)[1..] == a[1..] + b;
      RecentRowsConcat(a[1..], b, cutoff);
    }
  }

  lemma {:induction false} RaisedRecentIsPruned(rows: seq<Row>, cutoff: int)
    ensures RaisedRows(RecentRows(rows, cutoff), cutoff) == PrunedRows(rows, cutoff)
  {
    if rows != [] {
      RaisedRecentIsPruned(rows[1..], cutoff);
    }
  }

  lemma {:induction false} PrunedRowFrom(rows: seq<Row>, cutoff: int, i: nat) returns (j: nat)
    requires i < |PrunedRows(rows, cutoff)|
    ensures j < |rows| && cutoff <= rows[j].endedAt
    ensures PrunedRows(rows, cutoff)[i] == rows[j].(startedAt := Max(rows[j].startedAt, cutoff))
  {
    if rows[0].endedAt < cutoff {
      j := PrunedRowFrom(rows[1..], cutoff, i);
      j := j + 1;
    } else if i == 0 {
      j := 0;
    } else {
      j := PrunedRowFrom(rows[1..], cutoff, i - 1);
      j := j + 1;
    }
  }

  lemma RecentRowFrom(rows: seq<Row>, cutoff: int, i: nat) returns (j: nat)
    requires i < |RecentRows(rows, cutoff)|
    ensures j < |rows| && cutoff <= rows[j].endedAt && RecentRows(rows, cutoff)[i] == rows[j]
  {
    RecentIsSome(rows, cutoff);
    assert RecentRows(rows, cutoff)[i] in RecentRows(rows, cutoff);
    j :| 0 <= j < |rows| && rows[j] == RecentRows(rows, cutoff)[i];
  }

  lemma {:induction false} RecentIsSome(rows: seq<Row>, cutoff: int)
    ensures forall r :: r in RecentRows(rows, cutoff) <==> r in rows && cutoff <= r.endedAt
  {
    if rows != [] {
      RecentIsSome(rows[1..], cutoff);
    }
  }

  /** Pruning leaves no row that ends before it starts, or before the cutoff. */
  lemma PruneKeepsRowsOk(rows: seq<Row>, cutoff: int)
    requires RowsOk(rows)
    ensures RowsOk(PrunedRows(rows, cutoff))
    ensures forall r :: r in PrunedRows(rows, cutoff) ==> cutoff <= r.startedAt
  {
    forall i | 0 <= i < |PrunedRows(rows, cutoff)|
      ensures RowOk(PrunedRows(rows, cutoff)[i]) && cutoff <= PrunedRows(rows, cutoff)[i].startedAt
    {
      var j := PrunedRowFrom(rows, cutoff, i);
      assert RowOk(rows[j]);
    }
  }

  // ----- the query -----

  /** The query's WHERE clause; since ZERO_TIME means no lower bound. */
  predicate Selected(r: Row, key: string, since: int, until: int, ttl: int) {
    r.key == key && r.startedAt <= Ms(until + ttl) &&
    (IsZero(since) || Ms(since - ttl - GAP_TOLERANCE) <= r.endedAt)
  }

  function Select(rows: seq<Row>, key: string, since: int, until: int, ttl: int): seq<Session> {
    if rows == [] then []
    else if Selected(rows[0], key, since, until, ttl)
    then [ToSession(rows[0])] + Select(rows[1..], key, since, until, ttl)
    else Select(rows[1..], key, since, until, ttl)
  }

  lemma {:induction false} SelectConcat(a: seq<Row>, b: seq<Row>, key: string, since: int, until: int, ttl: int)
    ensures Select(a + b, key, since, until, ttl) == Select(a, key, since, until, ttl) +
            Select(b, key, since, until, ttl)
  {
    if a == [] {
      assert a + b == b;
    } else {
      assert (a + b)[1..] == a[1..] + b;
      SelectConcat(a[1..], b, key, since, until, ttl);
    }
  }

  function Query(rows: seq<Row>, key: string, since: int, until: int, ttl: int): Report {
    var credit := Max(ttl, 0);
    Summarise(Select(rows, key, since, until, credit), since, until, credit)
  }

  /** Sorting by start time what is already so sorted changes nothing: Effective sorts again. */
  lemma EffectiveOfSorted(xs: seq<Session>, ttl: int)
    ensures Effective(StableSort(xs), ttl) == Effective(xs, ttl)
  {
    SortIsOrdered(xs);
    SortOfSorted(StableSort(xs));
  }

  class Store {
    var rows: seq<Row>
    var nextId: int

    constructor ()
      ensures Contents() == Table([], 1)
    {
      rows, nextId := [], 1;
    }

    function Contents(): Table
      reads this
    {
      Table(rows, nextId)
    }

    method BeginSession(key: string, scope: string, start: int, backfilled: bool, dbOk: bool) returns (id: int)
      modifies this
      ensures (Contents(), id) == Begun(old(Contents()), key, scope, start, backfilled, dbOk)
    {
      if !dbOk {
        return 0;
      }
      id := nextId;
      rows := rows + [Row(id, key, scope, Ms(start), Ms(start), backfilled, "")];
      nextId := nextId + 1;
    }

    /** Every row operation is one UPDATE ... WHERE id = ?; NoSession means that no row was affected. */
    method UpdateSession(id: int, op: RowOp, dbOk: bool) returns (outcome: Outcome)
      modifies this
      ensures (Contents(), outcome) == Updated(old(Contents()), id, op, dbOk)
    {
      if id == 0 {
        return NoSession;
      }
      if !dbOk {
        return DbError;
      }
      var affected := false;
      ghost var before := rows;
      var i := 0;
      while i < |rows|
        invariant i <= |rows| == |before| && nextId == old(nextId)
        invariant forall k :: 0 <= k < |before| ==>
                                rows[k] == if k < i && before[k].id == id then ApplyOp(before[k], op) else before[k]
        invariant affected <==> HasRow(before[..i], id)
      {
        assert before[..i + 1] == before[..i] + [before[i]];
        if rows[i].id == id {
          rows := rows[i := ApplyOp(rows[i], op)];
          affected := true;
          assert before[..i + 1][i].id == id;
        } else if affected {
          ghost var k :| 0 <= k < i && before[..i][k].id == id;
          assert before[..i + 1][k].id == id;
        }
        i := i + 1;
      }
      assert before[..i] == before;
      outcome := if affected then Done else NoSession;
      if affected {
        assert rows == UpdateRows(before, id, op);
      } else {
        assert rows == before;
      }
    }

    /** One DELETE, which may fail. */
    method Clear(dbOk: bool)
      modifies this
      ensures Contents() == if dbOk then old(Contents()).(rows := []) else old(Contents())
    {
      if dbOk {
        rows := [];
      }
    }

    /** The coverage part of Prune: one DELETE, then one UPDATE; either may fail, and then the rest is left undone. */
    method Prune(now: int, maxAge: int, deleteOk: bool, updateOk: bool)
      modifies this
      ensures var cutoff := Ms(now - maxAge);
              Contents() == old(Contents()).(
                rows := if maxAge <= 0 || !deleteOk then old(rows)
                        else if !updateOk then RecentRows(old(rows), cutoff)
                        else PrunedRows(old(rows), cutoff))
    {
      if maxAge <= 0 {
        return;
      }
      var cutoff := Ms(now - maxAge);
      ghost var before := rows;
      if !deleteOk {
        return;
      }
      DeleteOld(cutoff);
      if !updateOk {
        return;
      }
      RaiseStarts(cutoff);
      RaisedRecentIsPruned(before, cutoff);
    }

    method DeleteOld(cutoff: int)
      modifies this
      ensures Contents() == old(Contents()).(rows := RecentRows(old(rows), cutoff))
    {
      var kept := [];
      for i := 0 to |rows|
        invariant Contents() == old(Contents()) && kept == RecentRows(rows[..i], cutoff)
      {
        assert rows[..i + 1] == rows[..i] + [rows[i]];
        RecentRowsConcat(rows[..i], [rows[i]], cutoff);
        if !(rows[i].endedAt < cutoff) {
          kept := kept + [rows[i]];
        }
      }
      assert rows[..|rows|] == rows;
      rows := kept;
    }

    method RaiseStarts(cutoff: int)
      modifies this
      ensures Contents() == old(Contents()).(rows := RaisedRows(old(rows), cutoff))
    {
      var raised := [];
      for i := 0 to |rows|
        invariant Contents() == old(Contents()) && raised == RaisedRows(rows, cutoff)[..i]
      {
        raised := raised + [if rows[i].startedAt < cutoff then rows[i].(startedAt := cutoff) else rows[i]];
      }
      rows := raised;
    }

    /** until ZERO_TIME means now. */
    method Coverage(key: string, since: int, until: int, now: int, ttl: int) returns (r: Report)
      ensures r == Query(rows, key, since, if IsZero(until) then now else until, ttl)
    {
      var to := if IsZero(until) then now else until;
      var credit := if ttl < 0 then 0 else ttl;
      var sessions := [];
      for i := 0 to |rows|
        invariant sessions == Select(rows[..i], key, since, to, credit)
      {
        assert rows[..i + 1] == rows[..i] + [rows[i]];
        SelectConcat(rows[..i], [rows[i]], key, since, to, credit);
        if Selected(rows[i], key, since, to, credit) {
          sessions := sessions + [ToSession(rows[i])];
        }
      }
      assert rows[..|rows|] == rows;
      EffectiveOfSorted(sessions, credit);
      var effective := EffectiveSessions(StableSort(sessions), credit);
      var merged := MergeSessions(effective);
      var ranges := ClipSessions(merged, since, to);
      var gaps := GapsBetween(ranges, to);
      r := Report(if |ranges| > 0 then ranges[0].start else ZERO_TIME, to, ranges, gaps);
    }
  }
}
