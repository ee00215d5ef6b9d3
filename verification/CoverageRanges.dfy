/** What merged coverage ranges are: the components of the recorded time, GAP_TOLERANCE apart. */
module CoverageRanges {
  import opened Sessions

  /** Ranges that run forward, in order, each more than GAP_TOLERANCE after the previous one. */
  predicate Separated(r: seq<Session>) {
    (forall i :: 0 <= i < |r| ==> r[i].start <= r[i].end) &&
    (forall i, j :: 0 <= i < j < |r| ==> r[i].end + GAP_TOLERANCE < r[j].start)
  }

  predicate Within(s: Session, r: Session) {
    r.start <= s.start && s.end <= r.end
  }

  function Elements(xs: seq<Session>): set<Session> {
    set s | s in xs
  }

  predicate StartsAt(recorded: set<Session>, t: int) {
    exists s :: s in recorded && s.start == t
  }

  predicate EndsAt(recorded: set<Session>, t: int) {
    exists s :: s in recorded && s.end == t
  }

  predicate Covered(r: seq<Session>, s: Session) {
    exists i :: 0 <= i < |r| && Within(s, r[i])
  }

  /** A session crosses t: no hole of more than GAP_TOLERANCE opens there. */
  predicate Bridged(recorded: set<Session>, t: int) {
    exists s :: s in recorded && s.start <= t + GAP_TOLERANCE && t < s.end
  }

  /** The reference definition of merging: every session lies in one range, every range starts and ends with a
      session and has no hole of more than GAP_TOLERANCE inside, and distinct ranges are further apart than that. */
  ghost predicate Components(r: seq<Session>, recorded: set<Session>) {
    Separated(r) &&
    (forall s {:trigger Covered(r, s)} :: s in recorded ==> Covered(r, s)) &&
    (forall i {:trigger StartsAt(recorded, r[i].start)} :: 0 <= i < |r| ==> StartsAt(recorded, r[i].start)) &&
    (forall i {:trigger EndsAt(recorded, r[i].end)} :: 0 <= i < |r| ==> EndsAt(recorded, r[i].end)) &&
    (forall i, t {:trigger r[i], Bridged(recorded, t)} ::
       0 <= i < |r| && r[i].start <= t < r[i].end ==> Bridged(recorded, t))
  }

  lemma AbsorbCovers(out: seq<Session>, s: Session, x: Session)
    requires Separated(out) && WellFormed(s)
    requires forall i :: 0 <= i < |out| ==> out[i].start <= s.start
    requires x == s || Covered(out, x)
    ensures Covered(Absorb(out, s), x)
  {
    var r := Absorb(out, s);
    if x == s {
      assert Within(s, r[|r| - 1]);
    } else {
      var i :| 0 <= i < |out| && Within(x, out[i]);
      assert Within(x, r[i]);
    }
  }

  lemma AbsorbKeepsSeparated(out: seq<Session>, s: Session)
    requires Separated(out) && WellFormed(s)
    requires forall i :: 0 <= i < |out| ==> out[i].start <= s.start
    ensures Separated(Absorb(out, s))
  {
  }

  lemma AbsorbKeepsBridges(out: seq<Session>, recorded: set<Session>, s: Session, i: nat, t: int)
    requires Components(out, recorded) && WellFormed(s)
    requires i < |Absorb(out, s)| && Absorb(out, s)[i].start <= t < Absorb(out, s)[i].end
    ensures Bridged(recorded + {s}, t)
  {
    if i < |out| && t < out[i].end {
      assert Bridged(recorded, t);
    } else {
      assert s in recorded + {s} && s.start <= t + GAP_TOLERANCE && t < s.end;
    }
  }

  lemma AbsorbKeepsEndpoints(out: seq<Session>, recorded: set<Session>, s: Session, i: nat)
    requires Components(out, recorded) && i < |Absorb(out, s)|
    ensures StartsAt(recorded + {s}, Absorb(out, s)[i].start) && EndsAt(recorded + {s}, Absorb(out, s)[i].end)
  {
    assert s in recorded + {s};
    if i < |out| {
      assert StartsAt(recorded, out[i].start) && EndsAt(recorded, out[i].end);
    }
  }

  lemma AbsorbKeepsComponents(out: seq<Session>, recorded: set<Session>, s: Session)
    requires Components(out, recorded)
    requires WellFormed(s)
    requires forall x :: x in recorded ==> x.start <= s.start
    ensures Components(Absorb(out, s), recorded + {s})
  {
    var r := Absorb(out, s);
    var all := recorded + {s};
    forall i | 0 <= i < |out| ensures out[i].start <= s.start {
      assert StartsAt(recorded, out[i].start);
    }
    AbsorbKeepsSeparated(out, s);
    forall x | x in all ensures Covered(r, x) {
      assert x != s ==> Covered(out, x);
      AbsorbCovers(out, s, x);
    }
    forall i | 0 <= i < |r| ensures StartsAt(all, r[i].start) && EndsAt(all, r[i].end) {
      AbsorbKeepsEndpoints(out, recorded, s, i);
    }
    forall i, t | 0 <= i < |r| && r[i].start <= t < r[i].end ensures Bridged(all, t) {
      AbsorbKeepsBridges(out, recorded, s, i, t);
    }
  }

  lemma {:induction false} AbsorbAllComponents(out: seq<Session>, done: set<Session>, xs: seq<Session>)
    requires Components(out, done)
    requires AllWellFormed(xs) && SortedByStart(xs)
    requires forall x, y :: x in done && y in xs ==> x.start <= y.start
    ensures Components(AbsorbAll(out, xs), done + Elements(xs))
    decreases |xs|
  {
    if xs == [] {
      assert done + Elements(xs) == done;
    } else {
      AbsorbKeepsComponents(out, done, xs[0]);
      assert (done + {xs[0]}) + Elements(xs[1..]) == done + Elements(xs);
      AbsorbAllComponents(Absorb(out, xs[0]), done + {xs[0]}, xs[1..]);
    }
  }

  /** mergeSessions computes the components of its input. */
  lemma MergeIsComponents(xs: seq<Session>)
    requires AllWellFormed(xs)
    ensures Components(Merge(xs), Elements(xs))
  {
    SortKeepsWellFormed(xs);
    SortSameElements(xs);
    AbsorbAllComponents([], {}, StableSort(xs));
    assert {} + Elements(StableSort(xs)) == Elements(xs);
  }

  predicate SameRange(a: Session, b: Session) {
    a.start == b.start && a.end == b.end
  }

  predicate SameRanges(r: seq<Session>, q: seq<Session>) {
    |r| == |q| && forall i :: 0 <= i < |r| ==> SameRange(r[i], q[i])
  }

  lemma NothingCrossesTheEnd(r: seq<Session>, recorded: set<Session>, i: nat)
    requires Components(r, recorded) && i < |r|
    requires forall s :: s in recorded ==> WellFormed(s)
    ensures !Bridged(recorded, r[i].end)
  {
    forall s | s in recorded && s.start <= r[i].end + GAP_TOLERANCE ensures s.end <= r[i].end {
      assert Covered(r, s);
      var j :| 0 <= j < |r| && Within(s, r[j]);
    }
  }

  /** If range i of r and of q start together, that of q does not end later. */
  lemma ComponentEndsAgree(r: seq<Session>, q: seq<Session>, recorded: set<Session>, i: nat)
    requires Components(r, recorded) && Components(q, recorded)
    requires i < |r| && i < |q| && r[i].start == q[i].start
    requires forall s :: s in recorded ==> WellFormed(s)
    ensures q[i].end <= r[i].end
  {
    NothingCrossesTheEnd(r, recorded, i);
  }

  /** If range i of r exists and the ranges before it agree, q has a range i, starting no later. */
  lemma ComponentStartsAgree(r: seq<Session>, q: seq<Session>, recorded: set<Session>, i: nat)
    requires Components(r, recorded) && Components(q, recorded)
    requires i < |r| && i <= |q|
    requires forall s :: s in recorded ==> WellFormed(s)
    requires i > 0 ==> SameRange(r[i - 1], q[i - 1])
    ensures i < |q| && q[i].start <= r[i].start
  {
    assert StartsAt(recorded, r[i].start);
    var s :| s in recorded && s.start == r[i].start;
    assert Covered(q, s);
    var j :| 0 <= j < |q| && Within(s, q[j]);
    assert i <= j;
    if i < j {
      assert q[i].end + GAP_TOLERANCE < q[j].start;
    }
  }

  /** The components of a set of sessions are unique. */
  lemma ComponentsUnique(r: seq<Session>, q: seq<Session>, recorded: set<Session>)
    requires forall s :: s in recorded ==> WellFormed(s)
    requires Components(r, recorded) && Components(q, recorded)
    ensures SameRanges(r, q)
  {
    var i := 0;
    while i < |r|
      invariant i <= |r| && i <= |q|
      invariant forall k :: 0 <= k < i ==> SameRange(r[k], q[k])
    {
      ComponentStartsAgree(r, q, recorded, i);
      ComponentStartsAgree(q, r, recorded, i);
      ComponentEndsAgree(r, q, recorded, i);
      ComponentEndsAgree(q, r, recorded, i);
      i := i + 1;
    }
    if i < |q| {
      ComponentStartsAgree(q, r, recorded, i);
    }
  }

  /** The covered ranges do not depend on the order, nor on repetitions, of the sessions merged. */
  lemma MergeIgnoresOrder(xs: seq<Session>, ys: seq<Session>)
    requires AllWellFormed(xs) && AllWellFormed(ys)
    requires Elements(xs) == Elements(ys)
    ensures SameRanges(Merge(xs), Merge(ys))
  {
    MergeIsComponents(xs);
    MergeIsComponents(ys);
    ComponentsUnique(Merge(xs), Merge(ys), Elements(xs));
  }

  lemma {:induction false} AbsorbAllSeparated(out: seq<Session>, xs: seq<Session>)
    requires Separated(out + xs)
    ensures AbsorbAll(out, xs) == out + xs
    decreases |xs|
  {
    if xs == [] {
      assert out + xs == out;
    } else {
      if out != [] {
        assert (out + xs)[|out| - 1].end + GAP_TOLERANCE < (out + xs)[|out|].start;
      }
      assert (out + [xs[0]]) + xs[1..] == out + xs;
      AbsorbAllSeparated(out + [xs[0]], xs[1..]);
    }
  }

  /** Merging merged ranges changes nothing, in any field. */
  lemma MergeIdempotent(xs: seq<Session>)
    requires AllWellFormed(xs)
    ensures Merge(Merge(xs)) == Merge(xs)
  {
    MergeIsComponents(xs);
    var r := Merge(xs);
    forall i, j | 0 <= i < j < |r| ensures r[i].start <= r[j].start {
      assert r[i].end + GAP_TOLERANCE < r[j].start;
    }
    SortOfSorted(r);
    assert [] + r == r;
    AbsorbAllSeparated([], r);
  }
}
