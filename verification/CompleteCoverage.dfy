/** The other direction of honest coverage: nothing that was recorded is left out of a report. */
module CompleteCoverage {
  import opened Sessions
  import opened CoverageFold
  import opened CoverageStore
  import opened CoverageQueries
  import opened RecorderSteps
  import opened RecorderRuns
  import opened HonestCoverage

  predicate CoveredAt(xs: seq<Session>, t: int) {
    exists i :: 0 <= i < |xs| && xs[i].start <= t <= xs[i].end
  }

  lemma StepCovers(acc: Acc, bound: int, x: Session, ttl: int, t: int)
    requires AccOk(acc, bound) && WellFormed(x) && bound <= x.start
    requires CoveredAt(acc.out, t) || x.start <= t <= x.end
    ensures CoveredAt(Step(acc, x, ttl).out, t)
  {
    var out := Step(acc, x, ttl).out;
    if CoveredAt(acc.out, t) {
      var i :| 0 <= i < |acc.out| && acc.out[i].start <= t <= acc.out[i].end;
      assert out[i].start <= t <= out[i].end;
    } else {
      assert out[|out| - 1].start <= t <= out[|out| - 1].end;
    }
  }

  lemma {:induction false} FoldCovers(acc: Acc, bound: int, xs: seq<Session>, ttl: int, t: int)
    requires AccOk(acc, bound) && AllWellFormed(xs) && SortedByStart(xs) && (xs != [] ==> bound <= xs[0].start)
    requires CoveredAt(acc.out, t) || exists s :: s in xs && s.start <= t <= s.end
    ensures CoveredAt(Fold(acc, xs, ttl).out, t)
    decreases |xs|
  {
    if xs != [] {
      var x := xs[0];
      if CoveredAt(acc.out, t) || x.start <= t <= x.end {
        StepCovers(acc, bound, x, ttl, t);
      } else {
        var s :| s in xs && s.start <= t <= s.end;
        assert s in xs[1..];
      }
      StepOk(acc, bound, x, ttl);
      FoldCovers(Step(acc, x, ttl), x.start, xs[1..], ttl, t);
    }
  }

  lemma {:induction false} ClipCovers(xs: seq<Session>, since: int, until: int, t: int)
    requires CoveredAt(xs, t) && (IsZero(since) || since <= t) && t <= until
    ensures CoveredAt(Clip(xs, since, until), t)
  {
    var c := Clip(xs, since, until);
    if xs[0].start <= t <= xs[0].end {
      assert c[0].start <= t <= c[0].end;
    } else {
      var i :| 0 <= i < |xs| && xs[i].start <= t <= xs[i].end;
      var rest := xs[1..];
      assert rest[i - 1] == xs[i];
      ClipCovers(rest, since, until, t);
      var d := Clip(rest, since, until);
      var j :| 0 <= j < |d| && d[j].start <= t <= d[j].end;
      assert c[|c| - |d| + j] == d[j];
    }
  }

  lemma {:induction false} SelectHas(rows: seq<Row>, key: string, since: int, until: int, ttl: int, i: nat)
    requires i < |rows| && Selected(rows[i], key, since, until, ttl)
    ensures ToSession(rows[i]) in Select(rows, key, since, until, ttl)
  {
    if i > 0 {
      SelectHas(rows[1..], key, since, until, ttl, i - 1);
    }
  }

  /** Every instant of a stored row that lies in the queried window is reported covered. */
  lemma RecordedIsReported(rows: seq<Row>, key: string, since: int, until: int, ttl: int, i: nat, t: int)
    requires RowsOk(rows) && i < |rows| && rows[i].key == key && rows[i].startedAt <= t <= rows[i].endedAt
    requires (IsZero(since) || since <= t) && t <= until
    ensures CoveredAt(Query(rows, key, since, until, ttl).sessions, t)
  {
    var credit := Max(ttl, 0);
    assert RowOk(rows[i]);
    SelectHas(rows, key, since, until, credit, i);
    SelectedSessions(rows, key, since, until, credit);
    var xs := Select(rows, key, since, until, credit);
    SortKeepsWellFormed(xs);
    SortSameElements(xs);
    MergedEffectiveIsFold(xs, credit);
    var sorted := StableSort(xs);
    FoldCovers(START, if sorted == [] then 0 else sorted[0].start, sorted, credit, t);
    ClipCovers(Merge(Effective(xs, credit)), since, until, t);
  }

  // ----- the time that a backfill vouches for is reported, too -----

  /** Nothing that was recorded before ends after t. */
  predicate EndedBy(xs: seq<Session>, t: int) {
    forall i :: 0 <= i < |xs| ==> xs[i].end <= t
  }

  lemma {:induction false} FoldEndsBy(a: Acc, xs: seq<Session>, ttl: int, t: int)
    requires a.prevEnd <= t && EndedBy(xs, t)
    ensures Fold(a, xs, ttl).prevEnd <= t
    decreases |xs|
  {
    if xs != [] {
      FoldEndsBy(Step(a, xs[0], ttl), xs[1..], ttl, t);
    }
  }

  /** The step of a backfilled session covers its credit. */
  lemma StepCredits(a: Acc, bound: int, x: Session, ttl: int, t: int)
    requires AccOk(a, bound) && WellFormed(x) && bound <= x.start && x.backfilled
    requires x.start - ttl <= t <= x.start && a.prevEnd <= t
    ensures CoveredAt(Step(a, x, ttl).out, t)
  {
    var out := Step(a, x, ttl).out;
    if a.out != [] {
      assert a.out[|a.out| - 1].start <= a.prevEnd;
    }
    assert out[|out| - 1].start <= t <= out[|out| - 1].end;
  }

  lemma FoldAt(xs: seq<Session>, ttl: int, k: nat)
    requires k < |xs|
    ensures Fold(START, xs, ttl) == Fold(Step(Fold(START, xs[..k], ttl), xs[k], ttl), xs[k + 1..], ttl)
  {
    assert xs == xs[..k] + ([xs[k]] + xs[k + 1..]);
    FoldConcat(START, xs[..k], [xs[k]] + xs[k + 1..], ttl);
    assert ([xs[k]] + xs[k + 1..])[1..] == xs[k + 1..];
  }

  lemma PassCredits(xs: seq<Session>, ttl: int, k: nat, t: int)
    requires AllWellFormed(xs) && SortedByStart(xs) && k < |xs| && xs[k].backfilled
    requires xs[k].start - ttl <= t <= xs[k].start && EndedBy(xs[..k], t) && ZERO_TIME <= t
    ensures CoveredAt(Fold(START, xs, ttl).out, t)
  {
    var before := xs[..k];
    FoldAt(xs, ttl, k);
    FoldOk(START, if k == 0 then xs[k].start else before[0].start, before, ttl);
    FoldEndsBy(START, before, ttl, t);
    var bound := if k == 0 then xs[k].start else before[k - 1].start;
    CreditsOn(Fold(START, before, ttl), bound, xs[k], xs[k + 1..], ttl, t);
  }

  lemma CreditsOn(a: Acc, bound: int, x: Session, after: seq<Session>, ttl: int, t: int)
    requires AccOk(a, bound) && WellFormed(x) && bound <= x.start && x.backfilled && a.prevEnd <= t
    requires x.start - ttl <= t <= x.start && AllWellFormed(after) && SortedByStart(after)
    requires after != [] ==> x.start <= after[0].start
    ensures CoveredAt(Fold(Step(a, x, ttl), after, ttl).out, t)
  {
    StepCredits(a, bound, x, ttl, t);
    StepOk(a, bound, x, ttl);
    FoldCovers(Step(a, x, ttl), x.start, after, ttl, t);
  }

  lemma {:induction false} FirstIndexOf(xs: seq<Session>, x: Session) returns (k: nat)
    requires x in xs
    ensures k < |xs| && xs[k] == x && x !in xs[..k]
  {
    if xs[0] == x {
      k := 0;
    } else {
      k := FirstIndexOf(xs[1..], x);
      assert xs[..k + 1] == [xs[0]] + xs[1..][..k];
      k := k + 1;
    }
  }

  /** What the other rows of the key recorded from the row's start on back has ended by t. */
  predicate EarlierEnd(rows: seq<Row>, i: nat, t: int)
    requires i < |rows|
  {
    forall j :: 0 <= j < |rows| && j != i && rows[j].key == rows[i].key && rows[j].startedAt <= rows[i].startedAt ==>
                  rows[j].endedAt <= t
  }

  /** A row that is marked backfilled is also reported for the event TTL before it began, as far as nothing earlier had
      been recorded. */
  lemma BackfillIsReported(rows: seq<Row>, key: string, since: int, until: int, ttl: int, i: nat, t: int)
    requires RowsOk(rows) && i < |rows| && rows[i].key == key && rows[i].backfilled
    requires rows[i].startedAt - ttl <= t <= rows[i].startedAt && EarlierEnd(rows, i, t) && ZERO_TIME <= t
    requires (IsZero(since) || since <= t) && t <= until
    ensures CoveredAt(Query(rows, key, since, until, ttl).sessions, t)
  {
    assert RowOk(rows[i]);
    var xs, x := Select(rows, key, since, until, ttl), ToSession(rows[i]);
    SelectHas(rows, key, since, until, ttl, i);
    SelectedSessions(rows, key, since, until, ttl);
    SortKeepsWellFormed(xs);
    SortSameElements(xs);
    MergedEffectiveIsFold(xs, ttl);
    var sorted := StableSort(xs);
    var k := FirstIndexOf(sorted, x);
    forall j | 0 <= j < k ensures sorted[j].end <= t {
      assert sorted[j] == sorted[..k][j] && sorted[j] in sorted && sorted[j] != x;
      assert sorted[j] in xs;
      SessionOfRow(rows, key, sorted[j]);
      var m :| 0 <= m < |rows| && rows[m].key == key && sorted[j] == ToSession(rows[m]);
      assert RowOk(rows[m]) && m != i;
    }
    PassCredits(sorted, ttl, k, t);
    ClipCovers(Merge(Effective(xs, ttl)), since, until, t);
  }

  // ----- a live recorder whose writes go through covers the present -----

  const ALL_WRITES: Db := Db(true, true, true, true, true)

  /** The open session's row is in the table and ends at now. */
  predicate CoversNow(s: State, key: string, now: int) {
    exists i :: 0 <= i < |s.table.rows| && s.table.rows[i].id == s.rec.sessionID && s.table.rows[i].key == key &&
                s.table.rows[i].startedAt <= now == s.table.rows[i].endedAt && s.rec.lastTouch == now
  }

  lemma OpenedCoversNow(s: State, key: string, c: Context, backfilled: bool)
    requires c.db == ALL_WRITES && 0 < c.now
    ensures CoversNow(Opened(s, key, c, backfilled), key, c.now)
  {
    var v := Opened(s, key, c, backfilled);
    assert v.table.rows[|s.table.rows|] == NewRow(s.table.nextId, key, c.scope, c.now, backfilled);
  }

  lemma TouchedCoversNow(w: World, key: string, c: Context, i: nat)
    requires Sound(w, key) && w.clock == c.now && w.s.rec.sessionID != 0
    requires i < |w.s.table.rows| && w.s.table.rows[i].id == w.s.rec.sessionID
    ensures var (touched, outcome) := Updated(w.s.table, w.s.rec.sessionID, Touch(c.now), true);
            outcome == Done && CoversNow(State(touched, w.s.rec.(lastTouch := c.now)), key, c.now)
  {
    var r := w.s.table.rows[i];
    assert RowSound(w, key, r) && Chain(w.log[r.id], w.clock);
    var touched := Updated(w.s.table, w.s.rec.sessionID, Touch(c.now), true).0;
    assert touched.rows[i] == ApplyOp(r, Touch(c.now));
  }

  /** After a heartbeat of a live recorder whose writes go through, the present is recorded. */
  lemma TickCoversNow(w: World, key: string, c: Context)
    requires Sound(w, key) && w.clock <= c.now && w.s.rec.live > 0 && c.db == ALL_WRITES
    ensures CoversNow(Next(w, key, Tick(c)).s, key, c.now)
  {
    Later(w, key, c.now, w.established, w.s.rec.live);
    var r := w.s.rec;
    OpenedCoversNow(w.s, key, c, false);
    if r.sessionID != 0 && c.now - r.lastTouch > GAP_TOLERANCE && c.slept {
      var labelled := Updated(w.s.table, r.sessionID, SetEndReason(END_SYSTEM_SLEEP), true).0;
      OpenedCoversNow(State(labelled, r), key, c, false);
    } else if HasRow(w.s.table.rows, r.sessionID) && r.sessionID != 0 {
      var i :| 0 <= i < |w.s.table.rows| && w.s.table.rows[i].id == r.sessionID;
      TouchedCoversNow(w.(clock := c.now), key, c, i);
    }
  }

  /** After a stream is established and the writes go through, the present is recorded. */
  lemma EstablishmentCoversNow(w: World, key: string, c: Context)
    requires Sound(w, key) && w.clock <= c.now && c.db == ALL_WRITES
    ensures CoversNow(Next(w, key, StreamUp(c)).s, key, c.now)
  {
    var r := w.s.rec;
    var s := w.s.(rec := r.(live := r.live + 1));
    Later(w, key, c.now, w.established, r.live + 1);
    OpenedCoversNow(s, key, c, true);
    if r.sessionID != 0 && c.now - r.lastTouch <= GAP_TOLERANCE && HasRow(s.table.rows, r.sessionID) {
      ReestablishmentCoversNow(w.(s := s, clock := c.now), key, c);
    }
  }

  lemma ReestablishmentCoversNow(w: World, key: string, c: Context)
    requires Sound(w, key) && w.clock == c.now && c.db == ALL_WRITES
    requires w.s.rec.sessionID != 0 && c.now - w.s.rec.lastTouch <= GAP_TOLERANCE
    requires HasRow(w.s.table.rows, w.s.rec.sessionID)
    ensures CoversNow(Established(w.s, key, c), key, c.now)
  {
    var r := w.s.rec;
    var i :| 0 <= i < |w.s.table.rows| && w.s.table.rows[i].id == r.sessionID;
    TouchedCoversNow(w, key, c, i);
    var after := State(Updated(w.s.table, r.sessionID, Touch(c.now), true).0, r.(lastTouch := c.now));
    MarkKeepsCover(after, key, c.now);
    EstablishedAgain(w.s, key, c, after);
  }

  /** An establishment that touches the open row, and perhaps marks it. */
  lemma EstablishedAgain(s: State, key: string, c: Context, after: State)
    requires c.db == ALL_WRITES && s.rec.sessionID != 0 && c.now - s.rec.lastTouch <= GAP_TOLERANCE
    requires Updated(s.table, s.rec.sessionID, Touch(c.now), true).1 == Done
    requires after == State(Updated(s.table, s.rec.sessionID, Touch(c.now), true).0, s.rec.(lastTouch := c.now))
    ensures var e := Established(s, key, c);
            e.rec.sessionID == after.rec.sessionID && e.rec.lastTouch == after.rec.lastTouch &&
            (e.table == after.table || e.table == Updated(after.table, after.rec.sessionID, MarkBackfilled, true).0)
  {
  }

  lemma MarkKeepsCover(s: State, key: string, now: int)
    requires CoversNow(s, key, now)
    ensures CoversNow(State(Updated(s.table, s.rec.sessionID, MarkBackfilled, true).0, s.rec), key, now)
  {
    var i :| 0 <= i < |s.table.rows| && s.table.rows[i].id == s.rec.sessionID && s.table.rows[i].key == key &&
             s.table.rows[i].startedAt <= now == s.table.rows[i].endedAt && s.rec.lastTouch == now;
    var v := Updated(s.table, s.rec.sessionID, MarkBackfilled, true).0;
    if s.rec.sessionID != 0 {
      assert v.rows[i] == ApplyOp(s.table.rows[i], MarkBackfilled);
    }
  }
}
