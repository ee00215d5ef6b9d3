/** Interval algebra of recording coverage (internal/history/coverage.go). */
module Sessions {
  // Times are integer milliseconds since the Unix epoch.

  // A coverage report is computed from stored recording sessions in four passes: credit the API server's retained
  // events to backfilled sessions, merge what lies within GAP_TOLERANCE, clip to the queried window, and list the
  // gaps. Each pass is a loop over a slice in the program; here it is a method proved equal to a function, and the
  // properties are proved about the functions.

  /** coverage.go:12, 2 minutes. */
  const GAP_TOLERANCE: int := 120_000

  /** The program's unset time (year 1), as milliseconds. */
  const ZERO_TIME: int := -62_135_596_800_000

  predicate IsZero(t: int) {
    t == ZERO_TIME
  }

  datatype Session = Session(start: int, end: int, scope: string, backfilled: bool, endReason: string)

  datatype Gap = Gap(from: int, to: int, reason: string)

  function Max(a: int, b: int): int {
    if a < b then b else a
  }

  /** A session as the recorder stores it: both times set, and not ending before it starts. */
  predicate WellFormed(s: Session) {
    ZERO_TIME < s.start <= s.end
  }

  predicate AllWellFormed(xs: seq<Session>) {
    forall i :: 0 <= i < |xs| ==> WellFormed(xs[i])
  }

  // ----- stable sort by start time -----

  predicate SortedByStart(xs: seq<Session>) {
    forall i, j :: 0 <= i < j < |xs| ==> xs[i].start <= xs[j].start
  }

  function InsertByStart(s: Session, xs: seq<Session>): (r: seq<Session>)
    ensures |r| == |xs| + 1
  {
    if xs == [] || s.start <= xs[0].start then [s] + xs else [xs[0]] + InsertByStart(s, xs[1..])
  }

  /** The library's stable sort with the comparison "starts before". */
  function StableSort(xs: seq<Session>): (r: seq<Session>)
    ensures |r| == |xs|
  {
    if xs == [] then [] else InsertByStart(xs[0], StableSort(xs[1..]))
  }

  lemma SortedTail(xs: seq<Session>)
    requires xs != [] && SortedByStart(xs)
    ensures SortedByStart(xs[1..]) && forall s :: s in xs ==> xs[0].start <= s.start
  {
  }

  lemma SortedCons(x: Session, xs: seq<Session>)
    requires SortedByStart(xs) && forall s :: s in xs ==> x.start <= s.start
    ensures SortedByStart([x] + xs)
  {
    assert forall i :: 0 <= i < |xs| ==> xs[i] in xs;
  }

  lemma {:induction false} InsertKeepsElements(s: Session, xs: seq<Session>)
    ensures multiset(InsertByStart(s, xs)) == multiset(xs) + multiset{s}
    ensures forall x :: x in InsertByStart(s, xs) ==> x == s || x in xs
  {
    if xs != [] && s.start > xs[0].start {
      InsertKeepsElements(s, xs[1..]);
      assert xs == [xs[0]] + xs[1..];
    }
  }

  lemma {:induction false} InsertKeepsOrder(s: Session, xs: seq<Session>)
    requires SortedByStart(xs)
    ensures SortedByStart(InsertByStart(s, xs))
  {
    if xs != [] {
      SortedTail(xs);
    }
    if xs == [] || s.start <= xs[0].start {
      SortedCons(s, xs);
    } else {
      InsertKeepsOrder(s, xs[1..]);
      InsertKeepsElements(s, xs[1..]);
      SortedCons(xs[0], InsertByStart(s, xs[1..]));
    }
  }

  lemma {:induction false} SortIsOrdered(xs: seq<Session>)
    ensures SortedByStart(StableSort(xs))
    ensures multiset(StableSort(xs)) == multiset(xs)
  {
    if xs != [] {
      SortIsOrdered(xs[1..]);
      InsertKeepsOrder(xs[0], StableSort(xs[1..]));
      InsertKeepsElements(xs[0], StableSort(xs[1..]));
      assert xs == [xs[0]] + xs[1..];
    }
  }

  lemma SortSameElements(xs: seq<Session>)
    ensures |StableSort(xs)| == |xs|
    ensures forall s :: s in StableSort(xs) <==> s in xs
  {
    SortIsOrdered(xs);
    assert |multiset(xs)| == |xs|;
    assert forall s :: s in StableSort(xs) <==> s in multiset(StableSort(xs));
    assert forall s :: s in xs <==> s in multiset(xs);
  }

  lemma SortKeepsWellFormed(xs: seq<Session>)
    requires AllWellFormed(xs)
    ensures AllWellFormed(StableSort(xs)) && SortedByStart(StableSort(xs))
  {
    SortIsOrdered(xs);
    SortSameElements(xs);
    forall i | 0 <= i < |StableSort(xs)| ensures WellFormed(StableSort(xs)[i]) {
      assert StableSort(xs)[i] in xs;
    }
  }

  lemma {:induction false} SortOfSorted(xs: seq<Session>)
    requires SortedByStart(xs)
    ensures StableSort(xs) == xs
  {
    if xs != [] {
      SortOfSorted(xs[1..]);
      assert |xs| > 1 ==> xs[0].start <= xs[1..][0].start;
    }
  }

  function Keep(p: Session -> bool, xs: seq<Session>): seq<Session> {
    if xs == [] then []
    else if p(xs[0]) then [xs[0]] + Keep(p, xs[1..])
    else Keep(p, xs[1..])
  }

  lemma {:induction false} KeepMembers(p: Session -> bool, xs: seq<Session>)
    ensures forall s :: s in Keep(p, xs) <==> s in xs && p(s)
  {
    if xs != [] {
      KeepMembers(p, xs[1..]);
    }
  }

  lemma {:induction false} KeepConcat(p: Session -> bool, xs: seq<Session>, ys: seq<Session>)
    ensures Keep(p, xs + ys) == Keep(p, xs) + Keep(p, ys)
  {
    if xs == [] {
      assert xs + ys == ys;
    } else {
      assert (xs + ys)[1..] == xs[1..] + ys;
      KeepConcat(p, xs[1..], ys);
    }
  }

  lemma {:induction false} InsertThenKeep(p: Session -> bool, s: Session, xs: seq<Session>)
    requires SortedByStart(xs)
    ensures Keep(p, InsertByStart(s, xs)) == if p(s) then InsertByStart(s, Keep(p, xs)) else Keep(p, xs)
  {
    if xs == [] || s.start <= xs[0].start {
      KeepConcat(p, [s], xs);
      var kept := Keep(p, xs);
      KeepMembers(p, xs);
      if kept != [] {
        assert kept[0] in kept;
        assert s.start <= kept[0].start;
      }
    } else {
      InsertThenKeep(p, s, xs[1..]);
    }
  }

  /** Filtering rows in the query and then sorting gives what sorting everything and then filtering gives. */
  lemma {:induction false} SortCommutesWithKeep(p: Session -> bool, xs: seq<Session>)
    ensures Keep(p, StableSort(xs)) == StableSort(Keep(p, xs))
  {
    if xs != [] {
      SortCommutesWithKeep(p, xs[1..]);
      SortIsOrdered(xs[1..]);
      InsertThenKeep(p, xs[0], StableSort(xs[1..]));
    }
  }

  // ----- the four passes -----

  /** A backfilled session also covers the event TTL before it began, but nothing before prevEnd. */
  function Credit(s: Session, ttl: int, prevEnd: int): Session {
    if s.backfilled && ttl > 0 then
      var back := s.start - ttl;
      var bounded := if !IsZero(prevEnd) && back < prevEnd then prevEnd else back;
      if bounded < s.start then s.(start := bounded) else s
    else s
  }

  function CreditAll(xs: seq<Session>, ttl: int, prevEnd: int): (r: seq<Session>)
    ensures |r| == |xs|
  {
    if xs == [] then []
    else [Credit(xs[0], ttl, prevEnd)] + CreditAll(xs[1..], ttl, Max(prevEnd, xs[0].end))
  }

  function Effective(xs: seq<Session>, ttl: int): seq<Session> {
    CreditAll(StableSort(xs), ttl, ZERO_TIME)
  }

  predicate Joins(last: Session, s: Session) {
    s.start <= last.end + GAP_TOLERANCE
  }

  function Join(last: Session, s: Session): Session {
    last.(end := Max(last.end, s.end),
          endReason := if last.end < s.end then s.endReason else last.endReason,
          backfilled := last.backfilled || s.backfilled)
  }

  /** Adds one session to the merged ranges so far. */
  function Absorb(out: seq<Session>, s: Session): seq<Session> {
    if out != [] && Joins(out[|out| - 1], s)
    then out[..|out| - 1] + [Join(out[|out| - 1], s)]
    else out + [s]
  }

  function AbsorbAll(out: seq<Session>, xs: seq<Session>): seq<Session>
    decreases |xs|
  {
    if xs == [] then out else AbsorbAll(Absorb(out, xs[0]), xs[1..])
  }

  function Merge(xs: seq<Session>): seq<Session> {
    AbsorbAll([], StableSort(xs))
  }

  predicate Visible(s: Session, since: int, until: int) {
    (IsZero(since) || since <= s.end) && s.start <= until
  }

  function ClipOne(s: Session, since: int, until: int): Session {
    s.(start := if !IsZero(since) && s.start < since then since else s.start,
       end := if until < s.end then until else s.end)
  }

  function Clip(xs: seq<Session>, since: int, until: int): seq<Session> {
    if xs == [] then []
    else if Visible(xs[0], since, until) then [ClipOne(xs[0], since, until)] + Clip(xs[1..], since, until)
    else Clip(xs[1..], since, until)
  }

  /** Holes between consecutive ranges, as gaps. */
  function InnerGaps(xs: seq<Session>): (r: seq<Gap>)
    ensures |r| == if xs == [] then 0 else |xs| - 1
  {
    if |xs| <= 1 then []
    else [Gap(xs[0].end, xs[1].start, xs[0].endReason)] + InnerGaps(xs[1..])
  }

  function TailGap(xs: seq<Session>, until: int): seq<Gap> {
    if xs != [] && until - xs[|xs| - 1].end > GAP_TOLERANCE
    then [Gap(xs[|xs| - 1].end, until, xs[|xs| - 1].endReason)]
    else []
  }

  function Gaps(xs: seq<Session>, until: int): seq<Gap> {
    InnerGaps(xs) + TailGap(xs, until)
  }

  // ----- the loops of the program -----

  method EffectiveSessions(input: seq<Session>, ttl: int) returns (out: seq<Session>)
    ensures out == Effective(input, ttl)
  {
    var sorted := StableSort(input);
    out := [];
    var prevEnd := ZERO_TIME;
    for i := 0 to |sorted|
      invariant out + CreditAll(sorted[i..], ttl, prevEnd) == CreditAll(sorted, ttl, ZERO_TIME)
    {
      var s := sorted[i];
      var eff := s;
      if s.backfilled && ttl > 0 {
        var start := s.start - ttl;
        if !IsZero(prevEnd) && start < prevEnd {
          start := prevEnd;
        }
        if start < eff.start {
          eff := eff.(start := start);
        }
      }
      assert sorted[i..][1..] == sorted[i + 1..];
      assert out + ([eff] + CreditAll(sorted[i + 1..], ttl, Max(prevEnd, s.end))) ==
             (out + [eff]) + CreditAll(sorted[i + 1..], ttl, Max(prevEnd, s.end));
      out := out + [eff];
      if s.end > prevEnd {
        prevEnd := s.end;
      }
    }
    assert sorted[|sorted|..] == [];
  }

  lemma AbsorbNext(out: seq<Session>, xs: seq<Session>, i: nat)
    requires i < |xs|
    ensures AbsorbAll(out, xs[i..]) == AbsorbAll(Absorb(out, xs[i]), xs[i + 1..])
    ensures i == 0 ==> xs[i..] == xs
  {
    assert xs[i..][1..] == xs[i + 1..];
  }

  method MergeSessions(input: seq<Session>) returns (out: seq<Session>)
    ensures out == Merge(input)
  {
    if |input| == 0 {
      return [];
    }
    var sorted := StableSort(input);
    SortSameElements(input);
    out := [sorted[0]];
    AbsorbNext([], sorted, 0);
    for i := 1 to |sorted|
      invariant |out| > 0
      invariant AbsorbAll(out, sorted[i..]) == AbsorbAll([], sorted)
    {
      var s := sorted[i];
      AbsorbNext(out, sorted, i);
      var last := out[|out| - 1];
      if !(s.start > last.end + GAP_TOLERANCE) {
        if s.end > last.end {
          last := last.(end := s.end, endReason := s.endReason);
        }
        last := last.(backfilled := last.backfilled || s.backfilled);
        WidenedIsAbsorbed(out, s, last);
        out := out[|out| - 1 := last];
      } else {
        out := out + [s];
      }
    }
  }

  lemma WidenedIsAbsorbed(out: seq<Session>, s: Session, last: Session)
    requires out != [] && Joins(out[|out| - 1], s) && last == Join(out[|out| - 1], s)
    ensures out[|out| - 1 := last] == Absorb(out, s)
  {
  }

  method ClipSessions(input: seq<Session>, since: int, until: int) returns (out: seq<Session>)
    ensures out == Clip(input, since, until)
  {
    out := [];
    for i := 0 to |input|
      invariant out + Clip(input[i..], since, until) == Clip(input, since, until)
    {
      var s := input[i];
      ghost var rest := Clip(input[i + 1..], since, until);
      assert input[i..][1..] == input[i + 1..];
      assert Clip(input[i..], since, until) ==
             if Visible(s, since, until) then [ClipOne(s, since, until)] + rest else rest;
      if !IsZero(since) && s.end < since {
        continue;
      }
      if s.start > until {
        continue;
      }
      if !IsZero(since) && s.start < since {
        s := s.(start := since);
      }
      if s.end > until {
        s := s.(end := until);
      }
      assert out + ([s] + rest) == (out + [s]) + rest;
      out := out + [s];
    }
  }

  method GapsBetween(sessions: seq<Session>, until: int) returns (gaps: seq<Gap>)
    ensures gaps == Gaps(sessions, until)
  {
    gaps := [];
    var i := 1;
    while i < |sessions|
      invariant 1 <= i <= |sessions| || (|sessions| == 0 && i == 1)
      invariant sessions != [] ==> gaps + InnerGaps(sessions[i - 1..]) == InnerGaps(sessions)
      invariant sessions == [] ==> gaps == []
    {
      assert sessions[i - 1..][1..] == sessions[i..];
      gaps := gaps + [Gap(sessions[i - 1].end, sessions[i].start, sessions[i - 1].endReason)];
      i := i + 1;
    }
    var n := |sessions|;
    if n > 0 && until - sessions[n - 1].end > GAP_TOLERANCE {
      gaps := gaps + [Gap(sessions[n - 1].end, until, sessions[n - 1].endReason)];
    }
  }
}
