/** Pruning as an operation on the sessions of one cluster: those that ended before the cutoff go, and the others
    start no earlier than it. The sessions that start by the cutoff are split from the later ones, and the two halves
    of a pass over the table before and after pruning are compared, half by half: the ranges agree, up to where the
    first one starts. */
module PrunedPasses {
  import opened Sessions
  import opened CoverageFold
  import opened CoverageWindow
  import opened CoverageStore
  import opened CoverageQueries

  function Raised(s: Session, cutoff: int): Session {
    s.(start := Max(s.start, cutoff))
  }

  function PrunedSessions(xs: seq<Session>, cutoff: int): seq<Session> {
    if xs == [] then []
    else if xs[0].end < cutoff then PrunedSessions(xs[1..], cutoff)
    else [Raised(xs[0], cutoff)] + PrunedSessions(xs[1..], cutoff)
  }

  /** Deleting and raising rows deletes and raises the sessions of every key. */
  lemma {:induction false} SessionsOfPruned(rows: seq<Row>, key: string, cutoff: int)
    requires RowsOk(rows)
    ensures SessionsOf(PrunedRows(rows, cutoff), key) == PrunedSessions(SessionsOf(rows, key), cutoff)
  {
    if rows != [] {
      SessionsOfPruned(rows[1..], key, cutoff);
      var r, rest := rows[0], SessionsOf(rows[1..], key);
      assert RowOk(r);
      var kept := PrunedRows(rows[1..], cutoff);
      var raised := r.(startedAt := Max(r.startedAt, cutoff));
      assert ([raised] + kept)[1..] == kept;
      if r.key == key {
        assert ([ToSession(r)] + rest)[1..] == rest;
        assert ToSession(raised) == Raised(ToSession(r), cutoff);
      } else {
        assert SessionsOf(rows, key) == rest;
      }
    }
  }

  lemma {:induction false} PrunedMembers(xs: seq<Session>, cutoff: int)
    ensures forall s :: s in xs && cutoff <= s.end ==> Raised(s, cutoff) in PrunedSessions(xs, cutoff)
    ensures forall p :: p in PrunedSessions(xs, cutoff) ==>
                          cutoff <= p.start && cutoff <= p.end &&
                          exists s :: s in xs && cutoff <= s.end && p == Raised(s, cutoff)
  {
    if xs != [] {
      PrunedMembers(xs[1..], cutoff);
      var rest := PrunedSessions(xs[1..], cutoff);
      forall p | p in PrunedSessions(xs, cutoff)
        ensures cutoff <= p.start && cutoff <= p.end && exists s :: s in xs && cutoff <= s.end && p == Raised(s, cutoff)
      {
        if xs[0].end < cutoff || p in rest {
          var s :| s in xs[1..] && cutoff <= s.end && p == Raised(s, cutoff);
          assert s in xs;
        } else {
          assert p == Raised(xs[0], cutoff) && xs[0] in xs;
        }
      }
    }
  }

  /** What starts after the cutoff is kept as it is. */
  lemma {:induction false} PruneKeepsLater(xs: seq<Session>, cutoff: int)
    requires AllWellFormed(xs)
    ensures Keep(StartsAfter(cutoff), PrunedSessions(xs, cutoff)) == Keep(StartsAfter(cutoff), xs)
  {
    if xs != [] {
      PruneKeepsLater(xs[1..], cutoff);
      assert WellFormed(xs[0]);
      var rest := PrunedSessions(xs[1..], cutoff);
      assert ([Raised(xs[0], cutoff)] + rest)[1..] == rest;
    }
  }

  // ----- the sessions that start by the cutoff -----

  lemma {:induction false} FoldPrevEnd(acc: Acc, xs: seq<Session>, ttl: int)
    ensures acc.prevEnd <= Fold(acc, xs, ttl).prevEnd
    ensures forall s :: s in xs ==> s.end <= Fold(acc, xs, ttl).prevEnd
    ensures Fold(acc, xs, ttl).prevEnd == acc.prevEnd || exists s :: s in xs && s.end == Fold(acc, xs, ttl).prevEnd
    decreases |xs|
  {
    if xs != [] {
      var next := Step(acc, xs[0], ttl);
      FoldPrevEnd(next, xs[1..], ttl);
      if Fold(acc, xs, ttl).prevEnd != next.prevEnd {
        var s :| s in xs[1..] && s.end == Fold(acc, xs, ttl).prevEnd;
        assert s in xs;
      } else if next.prevEnd != acc.prevEnd {
        assert xs[0] in xs;
      }
    }
  }

  /** Sessions that all contain the cutoff merge into one range. */
  lemma {:induction false} FoldOverlapping(acc: Acc, xs: seq<Session>, ttl: int, cutoff: int)
    requires acc.out == [] || (|acc.out| == 1 && cutoff <= acc.out[0].end)
    requires forall i :: 0 <= i < |xs| ==> xs[i].start <= cutoff <= xs[i].end
    ensures |Fold(acc, xs, ttl).out| <= 1
    decreases |xs|
  {
    if xs != [] {
      FoldOverlapping(Step(acc, xs[0], ttl), xs[1..], ttl, cutoff);
    }
  }

  lemma {:induction false} FoldNonEmpty(acc: Acc, xs: seq<Session>, ttl: int)
    ensures xs != [] || acc.out != [] ==> Fold(acc, xs, ttl).out != []
    decreases |xs|
  {
    if xs != [] {
      FoldNonEmpty(Step(acc, xs[0], ttl), xs[1..], ttl);
    }
  }

  predicate EndsIn(xs: seq<Session>, e: int) {
    exists s :: s in xs && s.end == e
  }

  /** When nothing old is kept, nothing old is recent. */
  lemma NoneKept(past: seq<Session>, ttl: int, cutoff: int)
    requires AllWellFormed(past) && SortedByStart(past) && (forall i :: 0 <= i < |past| ==> past[i].start <= cutoff)
    requires forall s :: s in past ==> s.end < cutoff
    ensures EndsBefore(Fold(START, past, ttl).out, cutoff)
  {
    var a := Fold(START, past, ttl);
    FoldAccOk(past, ttl, cutoff);
    FoldPrevEnd(START, past, ttl);
    forall i | 0 <= i < |a.out| ensures a.out[i].end < cutoff {
      EndsByPrevEnd(a, cutoff, i);
    }
  }

  /** The latest end is the same in both, if it is recent. */
  lemma SameLatestEnd(past: seq<Session>, kept: seq<Session>, ttl: int, cutoff: int)
    requires kept != [] && AllWellFormed(kept) && forall p :: p in kept ==> cutoff <= p.end
    requires forall s :: s in past && cutoff <= s.end ==> EndsIn(kept, s.end)
    requires forall p :: p in kept ==> EndsIn(past, p.end)
    ensures Fold(START, past, ttl).prevEnd == Fold(START, kept, ttl).prevEnd >= cutoff && past != []
  {
    var a, b := Fold(START, past, ttl).prevEnd, Fold(START, kept, ttl).prevEnd;
    FoldPrevEnd(START, past, ttl);
    FoldPrevEnd(START, kept, ttl);
    assert kept[0] in kept && EndsIn(past, kept[0].end) && WellFormed(kept[0]);
    var p :| p in kept && p.end == b;
    assert EndsIn(past, p.end);
    var t :| t in past && t.end == a;
    assert EndsIn(kept, t.end);
  }

  /** Both passes over the sessions that start by the cutoff end with the same range, or with nothing recent. */
  lemma OldPartsAgree(past: seq<Session>, kept: seq<Session>, ttl: int, cutoff: int)
    requires AllWellFormed(past) && SortedByStart(past) && (forall i :: 0 <= i < |past| ==> past[i].start <= cutoff)
    requires AllWellFormed(kept) && SortedByStart(kept)
    requires forall i :: 0 <= i < |kept| ==> kept[i].start <= cutoff <= kept[i].end
    requires forall s :: s in past && cutoff <= s.end ==> EndsIn(kept, s.end)
    requires forall p :: p in kept ==> EndsIn(past, p.end)
    ensures var a, b := Fold(START, past, ttl), Fold(START, kept, ttl);
            Sim(a, b, Slack(cutoff, cutoff, cutoff + GAP_TOLERANCE, false)) && AccOk(a, cutoff) && AccOk(b, cutoff)
  {
    FoldAccOk(past, ttl, cutoff);
    FoldAccOk(kept, ttl, cutoff);
    if kept == [] {
      NoneKept(past, ttl, cutoff);
    } else {
      SameLatestEnd(past, kept, ttl, cutoff);
      FoldOverlapping(START, kept, ttl, cutoff);
      FoldNonEmpty(START, past, ttl);
      FoldNonEmpty(START, kept, ttl);
      OneRangeLeft(Fold(START, past, ttl), Fold(START, kept, ttl), cutoff);
    }
  }

  lemma FoldAccOk(xs: seq<Session>, ttl: int, cutoff: int)
    requires AllWellFormed(xs) && SortedByStart(xs) && (forall i :: 0 <= i < |xs| ==> xs[i].start <= cutoff)
    ensures AccOk(Fold(START, xs, ttl), cutoff)
  {
    FoldOk(START, if xs == [] then 0 else xs[0].start, xs, ttl);
  }

  lemma EndsByPrevEnd(a: Acc, bound: int, i: nat)
    requires AccOk(a, bound) && i < |a.out|
    ensures a.out[i].end <= a.prevEnd
  {
    if i < |a.out| - 1 {
      assert a.out[i].end + GAP_TOLERANCE < a.out[|a.out| - 1].start;
    }
  }

  lemma OneRangeLeft(a: Acc, b: Acc, cutoff: int)
    requires AccOk(a, cutoff) && AccOk(b, cutoff) && a.prevEnd == b.prevEnd && cutoff <= b.prevEnd
    requires |b.out| == 1 && a.out != []
    ensures Sim(a, b, Slack(cutoff, cutoff, cutoff + GAP_TOLERANCE, false))
  {
    var n := |a.out| - 1;
    forall i | 0 <= i < n ensures a.out[i].end < cutoff {
      assert a.out[i].end + GAP_TOLERANCE < a.out[n].start;
    }
    assert a.out[n..] == [a.out[n]];
  }

  /** The sessions that start by the cutoff, before and after pruning, and those that start later. */
  lemma SplitAtCutoff(input: seq<Session>, cutoff: int)
    requires AllWellFormed(input) && AllWellFormed(PrunedSessions(input, cutoff))
    ensures var xs, ys := StableSort(input), StableSort(PrunedSessions(input, cutoff));
            var late := Keep(StartsAfter(cutoff), xs);
            xs == Keep(StartsBy(cutoff), xs) + late && ys == Keep(StartsBy(cutoff), ys) + late &&
            AllWellFormed(late) && SortedByStart(late) && Keep(EndsFrom(cutoff), late) == late &&
            forall i :: 0 <= i < |late| ==> cutoff < late[i].start
  {
    var pruned := PrunedSessions(input, cutoff);
    var xs, ys := StableSort(input), StableSort(pruned);
    SortKeepsWellFormed(input);
    SortKeepsWellFormed(pruned);
    var late := Keep(StartsAfter(cutoff), xs);
    SplitByStart(xs, cutoff);
    SplitByStart(ys, cutoff);
    PruneKeepsLater(input, cutoff);
    SortCommutesWithKeep(StartsAfter(cutoff), input);
    SortCommutesWithKeep(StartsAfter(cutoff), pruned);
    KeepSorted(StartsAfter(cutoff), xs);
    forall s | s in late ensures EndsFrom(cutoff)(s) {
      var i :| 0 <= i < |late| && late[i] == s;
      assert WellFormed(late[i]);
    }
    KeepAll(EndsFrom(cutoff), late);
  }

  /** The passes over all sessions and over the pruned ones. */
  lemma PrunedPassesAgree(input: seq<Session>, ttl: int, cutoff: int)
    requires AllWellFormed(input) && AllWellFormed(PrunedSessions(input, cutoff))
    ensures Sim(Fold(START, StableSort(input), ttl), Fold(START, StableSort(PrunedSessions(input, cutoff)), ttl),
                Slack(cutoff, cutoff, cutoff + GAP_TOLERANCE, false))
  {
    var xs, ys := StableSort(input), StableSort(PrunedSessions(input, cutoff));
    SplitAtCutoff(input, cutoff);
    var past, kept, late := Keep(StartsBy(cutoff), xs), Keep(StartsBy(cutoff), ys), Keep(StartsAfter(cutoff), xs);
    OldParts(input, cutoff);
    OldPartsAgree(past, kept, ttl, cutoff);
    FoldConcat(START, past, late, ttl);
    FoldConcat(START, kept, late, ttl);
    SimFold(Fold(START, past, ttl), Fold(START, kept, ttl), cutoff, late, ttl,
            Slack(cutoff, cutoff, cutoff + GAP_TOLERANCE, false));
  }

  lemma OldParts(input: seq<Session>, cutoff: int)
    requires AllWellFormed(input) && AllWellFormed(PrunedSessions(input, cutoff))
    ensures var past := Keep(StartsBy(cutoff), StableSort(input));
            var kept := Keep(StartsBy(cutoff), StableSort(PrunedSessions(input, cutoff)));
            AllWellFormed(past) && SortedByStart(past) && AllWellFormed(kept) && SortedByStart(kept) &&
            (forall i :: 0 <= i < |past| ==> past[i].start <= cutoff) &&
            (forall i :: 0 <= i < |kept| ==> kept[i].start <= cutoff <= kept[i].end) &&
            (forall s :: s in past && cutoff <= s.end ==> EndsIn(kept, s.end)) &&
            (forall p :: p in kept ==> EndsIn(past, p.end))
  {
    var pruned := PrunedSessions(input, cutoff);
    SortKeepsWellFormed(input);
    SortKeepsWellFormed(pruned);
    KeepSorted(StartsBy(cutoff), StableSort(input));
    KeepSorted(StartsBy(cutoff), StableSort(pruned));
    OldMembers(input, cutoff);
    var past, kept := Keep(StartsBy(cutoff), StableSort(input)), Keep(StartsBy(cutoff), StableSort(pruned));
    forall i | 0 <= i < |past| ensures past[i].start <= cutoff {
      assert past[i] in past;
    }
    forall i | 0 <= i < |kept| ensures kept[i].start <= cutoff <= kept[i].end {
      assert kept[i] in kept;
    }
  }

  lemma OldMembers(input: seq<Session>, cutoff: int)
    requires AllWellFormed(input)
    ensures var past := Keep(StartsBy(cutoff), StableSort(input));
            var kept := Keep(StartsBy(cutoff), StableSort(PrunedSessions(input, cutoff)));
            (forall s :: s in past ==> s.start <= cutoff) &&
            (forall p :: p in kept ==> p.start <= cutoff <= p.end) &&
            (forall s :: s in past && cutoff <= s.end ==> EndsIn(kept, s.end)) &&
            (forall p :: p in kept ==> EndsIn(past, p.end))
  {
    var pruned := PrunedSessions(input, cutoff);
    SortSameElements(input);
    SortSameElements(pruned);
    KeepMembers(StartsBy(cutoff), StableSort(input));
    KeepMembers(StartsBy(cutoff), StableSort(pruned));
    PrunedMembers(input, cutoff);
    var past, kept := Keep(StartsBy(cutoff), StableSort(input)), Keep(StartsBy(cutoff), StableSort(pruned));
    forall s | s in past && cutoff <= s.end ensures EndsIn(kept, s.end) {
      assert Raised(s, cutoff) in kept;
    }
    forall p | p in kept ensures EndsIn(past, p.end) {
      var s :| s in input && cutoff <= s.end && p == Raised(s, cutoff);
      assert s in past;
    }
  }
}
