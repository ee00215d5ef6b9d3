/** The coverage report of a window (coverage.go:146-187, 215-279): clipped ranges, gaps, and how they tile it. */
module CoverageReport {
  import opened Sessions
  import opened CoverageRanges
  import opened CoverageFold

  /** since is ZERO_TIME when nothing was recorded. */
  datatype Report = Report(since: int, until: int, sessions: seq<Session>, gaps: seq<Gap>)

  function Summarise(input: seq<Session>, since: int, until: int, ttl: int): Report {
    var ranges := Clip(Merge(Effective(input, ttl)), since, until);
    Report(if ranges == [] then ZERO_TIME else ranges[0].start, until, ranges, Gaps(ranges, until))
  }

  // ----- clipping -----

  lemma {:induction false} ClipConcat(xs: seq<Session>, ys: seq<Session>, since: int, until: int)
    ensures Clip(xs + ys, since, until) == Clip(xs, since, until) + Clip(ys, since, until)
  {
    if xs == [] {
      assert xs + ys == ys;
    } else {
      assert (xs + ys)[1..] == xs[1..] + ys;
      assert (xs + ys)[0] == xs[0];
      ClipConcat(xs[1..], ys, since, until);
      if Visible(xs[0], since, until) {
        var c := [ClipOne(xs[0], since, until)];
        assert c + (Clip(xs[1..], since, until) + Clip(ys, since, until)) ==
               (c + Clip(xs[1..], since, until)) + Clip(ys, since, until);
      }
    }
  }

  lemma {:induction false} ClipInvisible(xs: seq<Session>, since: int, until: int)
    requires forall i :: 0 <= i < |xs| ==> !Visible(xs[i], since, until)
    ensures Clip(xs, since, until) == []
  {
    if xs != [] {
      ClipInvisible(xs[1..], since, until);
    }
  }

  lemma {:induction false} ClipStartsAfter(xs: seq<Session>, since: int, until: int, t: int)
    requires forall i :: 0 <= i < |xs| ==> t < xs[i].start
    ensures forall i :: 0 <= i < |Clip(xs, since, until)| ==> t < Clip(xs, since, until)[i].start
  {
    if xs != [] {
      ClipStartsAfter(xs[1..], since, until, t);
    }
  }

  predicate InWindow(xs: seq<Session>, since: int, until: int) {
    forall i :: 0 <= i < |xs| ==> (IsZero(since) || since <= xs[i].start) && xs[i].end <= until
  }

  /** Clipping keeps the ranges in order and GAP_TOLERANCE apart, inside the window. */
  lemma {:induction false} ClipKeepsSeparated(xs: seq<Session>, since: int, until: int)
    requires Separated(xs) && (IsZero(since) || since <= until)
    ensures Separated(Clip(xs, since, until)) && InWindow(Clip(xs, since, until), since, until)
  {
    if xs != [] {
      ClipKeepsSeparated(xs[1..], since, until);
      ClipStartsAfter(xs[1..], since, until, xs[0].end + GAP_TOLERANCE);
    }
  }

  /** The range covers both instants and all between. */
  predicate Spans(r: Session, from: int, to: int) {
    r.start <= from && to <= r.end
  }

  predicate SomeSpans(xs: seq<Session>, from: int, to: int) {
    exists i :: 0 <= i < |xs| && Spans(xs[i], from, to)
  }

  /** No range runs backwards. */
  predicate Forward(xs: seq<Session>) {
    forall i :: 0 <= i < |xs| ==> xs[i].start <= xs[i].end
  }

  /** A window that ends before it starts yields nothing, or one range that runs backwards from its start to its end:
      exactly when one range covers the window. */
  lemma {:induction false} ReversedWindowReversesRanges(xs: seq<Session>, since: int, until: int)
    requires Separated(xs) && !IsZero(since) && until < since
    ensures var r := Clip(xs, since, until);
            (r != [] <==> SomeSpans(xs, until, since)) && |r| <= 1 &&
            forall i :: 0 <= i < |r| ==> r[i].start == since && r[i].end == until
  {
    if xs != [] {
      var rest := xs[1..];
      ReversedWindowReversesRanges(rest, since, until);
      if Spans(xs[0], until, since) {
        assert !SomeSpans(rest, until, since);
      } else if SomeSpans(rest, until, since) {
        var i :| 0 <= i < |rest| && Spans(rest[i], until, since);
        assert Spans(xs[i + 1], until, since);
      }
    }
  }

  /** Clipping yields proper ranges exactly when the window is not reversed, or no range covers it. */
  lemma ClipForwardIff(xs: seq<Session>, since: int, until: int)
    requires Separated(xs)
    ensures Forward(Clip(xs, since, until)) <==> IsZero(since) || since <= until || !SomeSpans(xs, until, since)
  {
    if IsZero(since) || since <= until {
      ClipKeepsSeparated(xs, since, until);
    } else {
      ReversedWindowReversesRanges(xs, since, until);
      var r := Clip(xs, since, until);
      if r != [] {
        assert r[0].start == since && r[0].end == until;
      }
    }
  }

  /** For instance. */
  lemma ReversedWindowExample()
    ensures var s := Session(1, 400_000, "", false, "");
            Clip([s], 300_000, 200_000) == [s.(start := 300_000, end := 200_000)]
  {
    var s := Session(1, 400_000, "", false, "");
    assert Clip([s][1..], 300_000, 200_000) == [];
  }

  // ----- tiling -----

  function CoveredTime(xs: seq<Session>): int {
    if xs == [] then 0 else xs[0].end - xs[0].start + CoveredTime(xs[1..])
  }

  function GapTime(gs: seq<Gap>): int {
    if gs == [] then 0 else gs[0].to - gs[0].from + GapTime(gs[1..])
  }

  lemma {:induction false} GapTimeConcat(gs: seq<Gap>, hs: seq<Gap>)
    ensures GapTime(gs + hs) == GapTime(gs) + GapTime(hs)
  {
    if gs == [] {
      assert gs + hs == hs;
    } else {
      assert (gs + hs)[1..] == gs[1..] + hs;
      GapTimeConcat(gs[1..], hs);
    }
  }

  lemma {:induction false} RangesAndHolesTile(xs: seq<Session>)
    requires xs != []
    ensures CoveredTime(xs) + GapTime(InnerGaps(xs)) == xs[|xs| - 1].end - xs[0].start
  {
    if |xs| > 1 {
      RangesAndHolesTile(xs[1..]);
      assert InnerGaps(xs)[1..] == InnerGaps(xs[1..]);
    } else {
      assert xs[1..] == [];
    }
  }

  lemma {:induction false} InnerGapsAt(xs: seq<Session>, i: nat)
    requires i + 1 < |xs|
    ensures InnerGaps(xs)[i] == Gap(xs[i].end, xs[i + 1].start, xs[i].endReason)
  {
    if i > 0 {
      InnerGapsAt(xs[1..], i - 1);
    }
  }

  /** The part of the window after the last range that is too short to be reported. */
  function UnreportedTail(r: Report): int {
    if r.sessions == [] then 0
    else
      var last := r.sessions[|r.sessions| - 1];
      if r.until - last.end > GAP_TOLERANCE then 0 else r.until - last.end
  }

  lemma GapsFollowRanges(xs: seq<Session>, until: int, i: nat)
    requires Separated(xs) && i < |Gaps(xs, until)|
    ensures i < |xs| && Gaps(xs, until)[i].from == xs[i].end && Gaps(xs, until)[i].reason == xs[i].endReason
    ensures Gaps(xs, until)[i].to - Gaps(xs, until)[i].from > GAP_TOLERANCE
  {
    if i + 1 < |xs| {
      InnerGapsAt(xs, i);
    }
  }

  lemma RangesAndGapsTile(xs: seq<Session>, until: int)
    requires xs != []
    ensures var last := xs[|xs| - 1].end;
            CoveredTime(xs) + GapTime(Gaps(xs, until)) ==
              (if until - last > GAP_TOLERANCE then until else last) - xs[0].start
  {
    RangesAndHolesTile(xs);
    GapTimeConcat(InnerGaps(xs), TailGap(xs, until));
    assert TailGap(xs, until) != [] ==> TailGap(xs, until)[1..] == [];
  }

  lemma RangesTile(r: Report, since: int)
    requires Separated(r.sessions) && InWindow(r.sessions, since, r.until) && r.gaps == Gaps(r.sessions, r.until)
    requires r.sessions != [] ==> r.since == r.sessions[0].start
    ensures forall i :: 0 <= i < |r.gaps| ==>
              i < |r.sessions| && r.gaps[i].from == r.sessions[i].end && r.gaps[i].reason == r.sessions[i].endReason &&
              r.gaps[i].to - r.gaps[i].from > GAP_TOLERANCE
    ensures r.sessions != [] ==>
              CoveredTime(r.sessions) + GapTime(r.gaps) + UnreportedTail(r) == r.until - r.since &&
              0 <= UnreportedTail(r) <= GAP_TOLERANCE
  {
    forall i | 0 <= i < |r.gaps|
      ensures i < |r.sessions| && r.gaps[i].from == r.sessions[i].end && r.gaps[i].reason == r.sessions[i].endReason &&
              r.gaps[i].to - r.gaps[i].from > GAP_TOLERANCE
    {
      GapsFollowRanges(r.sessions, r.until, i);
    }
    if r.sessions != [] {
      RangesAndGapsTile(r.sessions, r.until);
    }
  }

  /** Ranges and gaps tile the reported window: nothing is counted twice or left out, except an unreported tail of at
      most GAP_TOLERANCE; ranges are separated, and every gap is longer than GAP_TOLERANCE and follows the range whose
      end reason it carries. */
  lemma ReportTilesWindow(input: seq<Session>, since: int, until: int, ttl: int)
    requires AllWellFormed(input) && (IsZero(since) || since <= until)
    ensures var r := Summarise(input, since, until, ttl);
            Separated(r.sessions) && InWindow(r.sessions, since, until) &&
            (forall g :: g in r.gaps ==> g.to - g.from > GAP_TOLERANCE) &&
            (forall i :: 0 <= i < |r.gaps| ==>
               i < |r.sessions| && r.gaps[i].from == r.sessions[i].end &&
               r.gaps[i].reason == r.sessions[i].endReason) &&
            (r.sessions != [] ==>
               CoveredTime(r.sessions) + GapTime(r.gaps) + UnreportedTail(r) == until - r.since &&
               0 <= UnreportedTail(r) <= GAP_TOLERANCE)
  {
    MergedEffectiveSeparated(input, ttl);
    ClipKeepsSeparated(Merge(Effective(input, ttl)), since, until);
    RangesTile(Summarise(input, since, until, ttl), since);
  }

  // ----- reports that agree -----

  /** Range lists that agree on every range, and on why each ended if reasons is set. */
  predicate Alike(xs: seq<Session>, ys: seq<Session>, reasons: bool) {
    |xs| == |ys| && forall i :: 0 <= i < |xs| ==>
                                  SameRange(xs[i], ys[i]) && (reasons ==> xs[i].endReason == ys[i].endReason)
  }

  lemma {:induction false} ClipAlike(xs: seq<Session>, ys: seq<Session>, since: int, until: int, reasons: bool)
    requires Alike(xs, ys, reasons)
    ensures Alike(Clip(xs, since, until), Clip(ys, since, until), reasons)
  {
    if xs != [] {
      ClipAlike(xs[1..], ys[1..], since, until, reasons);
    }
  }

  predicate SameGaps(gs: seq<Gap>, hs: seq<Gap>, reasons: bool) {
    |gs| == |hs| && forall i :: 0 <= i < |gs| ==>
                                  gs[i].from == hs[i].from && gs[i].to == hs[i].to &&
                                  (reasons ==> gs[i].reason == hs[i].reason)
  }

  /** Gaps do not depend on where the first range starts. */
  lemma GapsAlike(xs: seq<Session>, ys: seq<Session>, until: int, reasons: bool)
    requires |xs| == |ys|
    requires xs != [] ==> Alike(xs[1..], ys[1..], reasons)
    requires xs != [] ==> xs[0].end == ys[0].end && (reasons ==> xs[0].endReason == ys[0].endReason)
    ensures SameGaps(Gaps(xs, until), Gaps(ys, until), reasons)
  {
    forall i | 0 <= i < |xs|
      ensures xs[i].end == ys[i].end && (reasons ==> xs[i].endReason == ys[i].endReason)
      ensures i > 0 ==> xs[i].start == ys[i].start
    {
      if i > 0 {
        assert xs[1..][i - 1] == xs[i] && ys[1..][i - 1] == ys[i];
      }
    }
    forall i | 0 <= i < |InnerGaps(xs)|
      ensures InnerGaps(xs)[i].from == InnerGaps(ys)[i].from && InnerGaps(xs)[i].to == InnerGaps(ys)[i].to
      ensures reasons ==> InnerGaps(xs)[i].reason == InnerGaps(ys)[i].reason
    {
      InnerGapsAt(xs, i);
      InnerGapsAt(ys, i);
    }
  }
}
