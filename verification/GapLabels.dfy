/** Which row labels a reported gap: the one whose recording stopped where the gap begins. */
module GapLabels {
  import opened Sessions
  import opened CoverageFold
  import opened CoverageReport
  import opened CoverageStore
  import opened CoverageQueries
  import opened HonestCoverage

  /** The range ends like the first of the sessions, in start order, to end at that time. */
  predicate EndsLike(xs: seq<Session>, end: int, reason: string) {
    exists k :: 0 <= k < |xs| && FirstToEnd(xs, k, end) && xs[k].endReason == reason
  }

  predicate FirstToEnd(xs: seq<Session>, k: nat, end: int)
    requires k < |xs|
  {
    xs[k].end == end && forall j :: 0 <= j < k ==> xs[j].end != end
  }

  ghost predicate AllEndLike(xs: seq<Session>, out: seq<Session>) {
    forall i :: 0 <= i < |out| ==> EndsLike(xs, out[i].end, out[i].endReason)
  }

  ghost predicate EndedBy(xs: seq<Session>, end: int) {
    forall j :: 0 <= j < |xs| ==> xs[j].end <= end
  }

  lemma EndsLikeFurther(xs: seq<Session>, x: Session, end: int, reason: string)
    requires EndsLike(xs, end, reason)
    ensures EndsLike(xs + [x], end, reason)
  {
    var k :| 0 <= k < |xs| && FirstToEnd(xs, k, end) && xs[k].endReason == reason;
    assert FirstToEnd(xs + [x], k, end);
  }

  lemma NewlyEnds(xs: seq<Session>, x: Session, bound: int)
    requires EndedBy(xs, bound) && bound < x.end
    ensures EndsLike(xs + [x], x.end, x.endReason)
  {
    assert FirstToEnd(xs + [x], |xs|, x.end);
  }

  lemma StepEndsLike(a: Acc, xs: seq<Session>, x: Session, bound: int, ttl: int)
    requires AccOk(a, bound) && WellFormed(x) && bound <= x.start && AllEndLike(xs, a.out) && EndedBy(xs, a.prevEnd)
    ensures AllEndLike(xs + [x], Step(a, x, ttl).out) && EndedBy(xs + [x], Step(a, x, ttl).prevEnd)
  {
    var out := Step(a, x, ttl).out;
    forall i | 0 <= i < |out| ensures EndsLike(xs + [x], out[i].end, out[i].endReason) {
      if i < |a.out| && out[i].end == a.out[i].end {
        EndsLikeFurther(xs, x, a.out[i].end, a.out[i].endReason);
      } else {
        NewlyEnds(xs, x, a.prevEnd);
      }
    }
  }

  lemma {:induction false} FoldEndsLike(done: seq<Session>, a: Acc, bound: int, xs: seq<Session>, ttl: int)
    requires AccOk(a, bound) && AllWellFormed(xs) && SortedByStart(xs) && (xs != [] ==> bound <= xs[0].start)
    requires AllEndLike(done, a.out) && EndedBy(done, a.prevEnd)
    ensures AllEndLike(done + xs, Fold(a, xs, ttl).out)
    decreases |xs|
  {
    if xs == [] {
      assert done + xs == done;
    } else {
      StepOk(a, bound, xs[0], ttl);
      StepEndsLike(a, done, xs[0], bound, ttl);
      assert done + [xs[0]] + xs[1..] == done + xs;
      FoldEndsLike(done + [xs[0]], Step(a, xs[0], ttl), xs[0].start, xs[1..], ttl);
    }
  }

  /** Every merged range ends when one of its sessions does, and for the reason of the first one that does. */
  lemma MergedRangesEndLikeRows(input: seq<Session>, ttl: int)
    requires AllWellFormed(input)
    ensures AllEndLike(StableSort(input), Merge(Effective(input, ttl)))
  {
    var xs := StableSort(input);
    SortKeepsWellFormed(input);
    MergedEffectiveIsFold(input, ttl);
    assert [] + xs == xs;
    FoldEndsLike([], START, if xs == [] then 0 else xs[0].start, xs, ttl);
  }

  /** A row of the key: the gap begins where it ends and has its end reason. */
  predicate StoppedBy(rows: seq<Row>, key: string, g: Gap) {
    exists i :: 0 <= i < |rows| && rows[i].key == key && rows[i].endedAt == g.from && rows[i].endReason == g.reason
  }

  lemma {:induction false} ClipKeepsEnds(xs: seq<Session>, since: int, until: int, i: nat) returns (j: nat)
    requires i < |Clip(xs, since, until)| && Clip(xs, since, until)[i].end < until
    ensures j < |xs| && Clip(xs, since, until)[i].end == xs[j].end &&
            Clip(xs, since, until)[i].endReason == xs[j].endReason
  {
    if !Visible(xs[0], since, until) {
      j := ClipKeepsEnds(xs[1..], since, until, i);
      j := j + 1;
    } else if i == 0 {
      j := 0;
    } else {
      j := ClipKeepsEnds(xs[1..], since, until, i - 1);
      j := j + 1;
    }
  }

  /** A gap begins before until, at the end of a range. */
  lemma GapIsBefore(xs: seq<Session>, since: int, until: int, ttl: int, i: nat)
    requires AllWellFormed(xs) && (IsZero(since) || since <= until) && i < |Summarise(xs, since, until, ttl).gaps|
    ensures var r := Summarise(xs, since, until, ttl);
            i < |r.sessions| && r.gaps[i].from == r.sessions[i].end < until &&
            r.gaps[i].reason == r.sessions[i].endReason
  {
    ReportTilesWindow(xs, since, until, ttl);
    var r := Summarise(xs, since, until, ttl);
    if i + 1 < |r.sessions| {
      assert r.sessions[i].end + GAP_TOLERANCE < r.sessions[i + 1].start <= r.sessions[i + 1].end <= until;
    }
  }

  /** Every gap of a report begins where a row of the key ends, and has that row's end reason. */
  lemma GapsNameTheirRow(rows: seq<Row>, key: string, since: int, until: int, ttl: int, i: nat)
    requires RowsOk(rows) && (IsZero(since) || since <= until) && i < |Query(rows, key, since, until, ttl).gaps|
    ensures StoppedBy(rows, key, Query(rows, key, since, until, ttl).gaps[i])
  {
    var credit := Max(ttl, 0);
    var xs := Select(rows, key, since, until, credit);
    SelectedSessions(rows, key, since, until, credit);
    GapIsBefore(xs, since, until, credit, i);
    var merged := Merge(Effective(xs, credit));
    var j := ClipKeepsEnds(merged, since, until, i);
    MergedRangesEndLikeRows(xs, credit);
    SessionEndsLike(rows, key, xs, merged[j].end, merged[j].endReason);
  }

  lemma SessionEndsLike(rows: seq<Row>, key: string, xs: seq<Session>, end: int, reason: string)
    requires RowsOk(rows) && EndsLike(StableSort(xs), end, reason) && forall s :: s in xs ==> s in SessionsOf(rows, key)
    ensures exists i :: 0 <= i < |rows| && rows[i].key == key && rows[i].endedAt == end && rows[i].endReason == reason
  {
    var sorted := StableSort(xs);
    var k :| 0 <= k < |sorted| && FirstToEnd(sorted, k, end) && sorted[k].endReason == reason;
    SortSameElements(xs);
    assert sorted[k] in xs;
    SessionOfRow(rows, key, sorted[k]);
    var m :| 0 <= m < |rows| && rows[m].key == key && sorted[k] == ToSession(rows[m]);
    assert RowOk(rows[m]);
  }
}
