/** What the rows of a cluster say about its recorders: every label, scope and start has its cause among the events. */
module RecorderLabels {
  import opened Sessions
  import opened CoverageStore
  import opened RecorderSteps
  import opened RecorderRuns

  // ----- what the events alone tell -----

  /** The live streams: those that came up since the last crash, less those that went down. */
  function LiveAfter(events: seq<Event>): nat {
    if events == [] then 0
    else
      var n := LiveAfter(events[..|events| - 1]);
      match events[|events| - 1]
      case StreamUp(_) => n + 1
      case StreamDown => if n > 0 then n - 1 else 0
      case Crash => 0
      case _ => n
  }

  /** The stop reason that was set last, unless the process has crashed since. */
  function StopReasonAfter(events: seq<Event>): string {
    if events == [] then ""
    else
      match events[|events| - 1]
      case SetStopReason(reason) => reason
      case Crash => ""
      case _ => StopReasonAfter(events[..|events| - 1])
  }

  function After(clock: int, key: string, events: seq<Event>): World {
    Run(Initial(clock), key, events)
  }

  lemma {:induction false} RunSnoc(w: World, key: string, events: seq<Event>, e: Event)
    ensures Run(w, key, events + [e]) == Next(Run(w, key, events), key, e)
    ensures AllTimely(w, key, events + [e]) <==>
            AllTimely(w, key, events) && Timely(Run(w, key, events), key, e)
    decreases |events|
  {
    if events == [] {
      assert events + [e] == [e] && [e][1..] == [];
      assert Run(Next(w, key, e), key, []) == Next(w, key, e);
    } else {
      assert (events + [e])[0] == events[0] && (events + [e])[1..] == events[1..] + [e];
      RunSnoc(Next(w, key, events[0]), key, events[1..], e);
    }
  }

  lemma {:induction false} RecorderIsCounted(clock: int, key: string, events: seq<Event>)
    ensures After(clock, key, events).s.rec.live == LiveAfter(events)
    ensures After(clock, key, events).s.rec.stopReason == StopReasonAfter(events)
  {
    if events != [] {
      var init, e := events[..|events| - 1], events[|events| - 1];
      assert events == init + [e];
      RunSnoc(Initial(clock), key, init, e);
      RecorderIsCounted(clock, key, init);
      NextIsCounted(After(clock, key, init), key, e);
    }
  }

  lemma NextIsCounted(w: World, key: string, e: Event)
    ensures var r := Next(w, key, e).s.rec;
            r.live == (match e
                       case StreamUp(_) => w.s.rec.live + 1
                       case StreamDown => if w.s.rec.live > 0 then w.s.rec.live - 1 else 0
                       case Crash => 0
                       case _ => w.s.rec.live)
    ensures Next(w, key, e).s.rec.stopReason == (match e
                                                 case SetStopReason(reason) => reason
                                                 case Crash => ""
                                                 case _ => w.s.rec.stopReason)
  {
  }

  // ----- labels -----

  /** The event gives the row, which is that of the open session, its label: a late tick while no stream is live, or
      after the system slept, or a finish in time. */
  predicate Labels(live: nat, stopReason: string, e: Event, r: Row) {
    match e
    case Tick(c) =>
      c.now - r.endedAt > GAP_TOLERANCE &&
      if live == 0 then r.endReason == if c.denied then "rbac_denied" else "cluster_unreachable"
      else c.slept && r.endReason == "system_sleep"
    case Finish(c) => r.endedAt == c.now && r.endReason == stopReason
    case _ => false
  }

  predicate LabelledBy(clock: int, key: string, events: seq<Event>, i: nat, r: Row)
    requires i < |events|
  {
    After(clock, key, events[..i]).s.rec.sessionID == r.id &&
    Labels(LiveAfter(events[..i]), StopReasonAfter(events[..i]), events[i], r)
  }

  predicate Labelled(clock: int, key: string, events: seq<Event>, r: Row) {
    exists i :: 0 <= i < |events| && LabelledBy(clock, key, events, i, r)
  }

  /** The row stood in the table before, with this label and this end. */
  predicate StoodBefore(rows: seq<Row>, r: Row) {
    exists i :: 0 <= i < |rows| && SameLabel(rows[i], r)
  }

  predicate SameLabel(a: Row, b: Row) {
    a.key == b.key && a.id == b.id && a.endReason == b.endReason && a.endedAt == b.endedAt
  }

  /** Where the label of a row comes from in one step. */
  predicate LabelFrom(w: World, e: Event, r: Row) {
    r.endReason == "" || StoodBefore(w.s.table.rows, r) ||
    (w.s.rec.sessionID == r.id && Labels(w.s.rec.live, w.s.rec.stopReason, e, r))
  }

  lemma UpdatedLabels(t: Table, id: int, op: RowOp, dbOk: bool, i: nat)
    requires i < |Updated(t, id, op, dbOk).0.rows|
    ensures |Updated(t, id, op, dbOk).0.rows| == |t.rows|
    ensures var r := Updated(t, id, op, dbOk).0.rows[i];
            SameLabel(t.rows[i], r) || (r.id == id && t.rows[i].id == id && r == ApplyOp(t.rows[i], op))
  {
  }

  /** The open session's row ends when the recorder last touched it. */
  lemma OpenRowEnds(w: World, key: string, i: nat)
    requires Sound(w, key) && i < |w.s.table.rows| && w.s.table.rows[i].key == key
    requires w.s.table.rows[i].id == w.s.rec.sessionID && w.s.rec.sessionID != 0
    ensures w.s.table.rows[i].endedAt == w.s.rec.lastTouch <= w.clock
  {
    assert RowSound(w, key, w.s.table.rows[i]);
    assert Chain(w.log[w.s.rec.sessionID], w.clock);
  }

  lemma StandsStill(rows: seq<Row>, i: nat, r: Row)
    requires i < |rows| && SameLabel(rows[i], r)
    ensures StoodBefore(rows, r)
  {
  }

  lemma EstablishedLabels(w: World, key: string, c: Context, j: nat)
    requires j < |Next(w, key, StreamUp(c)).s.table.rows|
    ensures LabelFrom(w, StreamUp(c), Next(w, key, StreamUp(c)).s.table.rows[j])
  {
    var rows, r := w.s.table.rows, w.s.rec;
    if j < |rows| {
      var (touched, outcome) := Updated(w.s.table, r.sessionID, Touch(c.now), c.db.touch);
      UpdatedLabels(w.s.table, r.sessionID, Touch(c.now), c.db.touch, j);
      UpdatedLabels(touched, r.sessionID, MarkBackfilled, c.db.mark, j);
      StandsOrIsTouched(rows, j, Next(w, key, StreamUp(c)).s.table.rows[j]);
    }
  }

  lemma StandsOrIsTouched(rows: seq<Row>, j: nat, r: Row)
    requires j < |rows|
    ensures SameLabel(rows[j], r) ==> StoodBefore(rows, r)
  {
  }

  lemma IdleTickLabels(w: World, key: string, c: Context, j: nat)
    requires Sound(w, key) && w.clock <= c.now && w.s.rec.live == 0 && j < |w.s.table.rows|
    requires w.s.table.rows[j].key == key
    ensures |Next(w, key, Tick(c)).s.table.rows| == |w.s.table.rows|
    ensures LabelFrom(w, Tick(c), Next(w, key, Tick(c)).s.table.rows[j])
  {
    var rows, r := w.s.table.rows, w.s.rec;
    var reason := if c.denied then "rbac_denied" else "cluster_unreachable";
    UpdatedLabels(w.s.table, r.sessionID, SetEndReason(reason), c.db.reason, j);
    StandsOrIsTouched(rows, j, Next(w, key, Tick(c)).s.table.rows[j]);
    if rows[j].id == r.sessionID && r.sessionID != 0 {
      OpenRowEnds(w, key, j);
    }
  }

  lemma TickLabels(w: World, key: string, c: Context, j: nat)
    requires Sound(w, key) && w.clock <= c.now && j < |Next(w, key, Tick(c)).s.table.rows|
    requires Next(w, key, Tick(c)).s.table.rows[j].key == key
    ensures LabelFrom(w, Tick(c), Next(w, key, Tick(c)).s.table.rows[j])
  {
    var rows, r, v := w.s.table.rows, w.s.rec, Next(w, key, Tick(c)).s.table.rows[j];
    if j < |rows| {
      StandsOrIsTouched(rows, j, v);
      UpdatedLabels(w.s.table, r.sessionID, SetEndReason("system_sleep"), c.db.reason, j);
      UpdatedLabels(w.s.table, r.sessionID, Touch(c.now), c.db.touch, j);
      if r.live == 0 {
        IdleTickLabels(w, key, c, j);
      } else if rows[j].id == r.sessionID && r.sessionID != 0 {
        OpenRowEnds(w, key, j);
      }
    }
  }

  lemma FinishLabels(w: World, key: string, c: Context, j: nat)
    requires Sound(w, key) && w.clock <= c.now && j < |Next(w, key, Finish(c)).s.table.rows|
    requires Next(w, key, Finish(c)).s.table.rows[j].key == key
    ensures LabelFrom(w, Finish(c), Next(w, key, Finish(c)).s.table.rows[j])
  {
    var rows, r, v := w.s.table.rows, w.s.rec, Next(w, key, Finish(c)).s.table.rows[j];
    StandsOrIsTouched(rows, j, v);
    if rows[j].id == r.sessionID && r.sessionID != 0 {
      OpenRowEnds(w, key, j);
    }
  }

  /** Every label in the table was there before, or this step gave it. */
  lemma NextLabels(w: World, key: string, e: Event, j: nat)
    requires Sound(w, key) && Timely(w, key, e) && j < |Next(w, key, e).s.table.rows|
    requires Next(w, key, e).s.table.rows[j].key == key
    ensures LabelFrom(w, e, Next(w, key, e).s.table.rows[j])
  {
    var rows, v := w.s.table.rows, Next(w, key, e).s.table.rows[j];
    match e {
      case StreamUp(c) => EstablishedLabels(w, key, c, j);
      case Tick(c) => TickLabels(w, key, c, j);
      case Finish(c) => FinishLabels(w, key, c, j);
      case Prune(cutoff) =>
        var i := PrunedRowFrom(rows, cutoff, j);
        StandsStill(rows, i, v);
      case DropOld(cutoff) =>
        var i := RecentRowFrom(rows, cutoff, j);
        StandsStill(rows, i, v);
      case OtherOpens(other, scope, now, backfilled) =>
        assert j < |rows|;
        StandsStill(rows, j, v);
      case OtherWrites(id, op, now) =>
        UpdatedLabels(w.s.table, id, op, true, j);
        StandsStill(rows, j, v);
      case _ => StandsStill(rows, j, v);
    }
  }

  lemma LabelledFurther(clock: int, key: string, events: seq<Event>, e: Event, r: Row, v: Row)
    requires Labelled(clock, key, events, r) && SameLabel(r, v)
    ensures Labelled(clock, key, events + [e], v)
  {
    var i :| 0 <= i < |events| && LabelledBy(clock, key, events, i, r);
    assert (events + [e])[..i] == events[..i] && (events + [e])[i] == events[i];
    assert LabelledBy(clock, key, events + [e], i, v);
  }

  /** In every run: a row of the cluster with an end reason got it from an event while it was the open session's. It
      reads rbac_denied or cluster_unreachable after a tick without a live stream, more than the tolerance after the
      row's end, with and without a denial; system_sleep after such a tick of a live recorder when the system slept;
      and otherwise the stop reason of the finish at which it ends. */
  lemma {:induction false} LabelsHaveCauses(clock: int, key: string, events: seq<Event>, j: nat)
    requires 0 < clock && AllTimely(Initial(clock), key, events)
    requires var rows := After(clock, key, events).s.table.rows;
             j < |rows| && rows[j].key == key && rows[j].endReason != ""
    ensures Labelled(clock, key, events, After(clock, key, events).s.table.rows[j])
  {
    var init, e := events[..|events| - 1], events[|events| - 1];
    assert events == init + [e];
    RunSnoc(Initial(clock), key, init, e);
    RunSound(Initial(clock), key, init);
    var w, v := After(clock, key, init), After(clock, key, events).s.table.rows[j];
    NextLabels(w, key, e, j);
    if StoodBefore(w.s.table.rows, v) {
      var i :| 0 <= i < |w.s.table.rows| && SameLabel(w.s.table.rows[i], v);
      LabelsHaveCauses(clock, key, init, i);
      LabelledFurther(clock, key, init, e, w.s.table.rows[i], v);
    } else {
      RecorderIsCounted(clock, key, init);
      assert events[..|init|] == init;
      assert LabelledBy(clock, key, events, |init|, v);
    }
  }

  /** Conversely, when the write of such a tick goes through, the row of the open session has the label. */
  lemma TickWritesLabel(clock: int, key: string, events: seq<Event>, c: Context, j: nat)
    requires 0 < clock && AllTimely(Initial(clock), key, events + [Tick(c)]) && c.db.reason
    requires var w := After(clock, key, events);
             j < |w.s.table.rows| && w.s.table.rows[j].key == key && w.s.table.rows[j].id == w.s.rec.sessionID != 0 &&
             c.now - w.s.table.rows[j].endedAt > GAP_TOLERANCE
    ensures var rows := After(clock, key, events + [Tick(c)]).s.table.rows;
            j < |rows| && rows[j].id == After(clock, key, events).s.rec.sessionID &&
            if LiveAfter(events) == 0
            then rows[j].endReason == if c.denied then "rbac_denied" else "cluster_unreachable"
            else c.slept ==> rows[j].endReason == "system_sleep"
  {
    RunSnoc(Initial(clock), key, events, Tick(c));
    RunSound(Initial(clock), key, events);
    RecorderIsCounted(clock, key, events);
    var w := After(clock, key, events);
    OpenRowEnds(w, key, j);
    assert HasRow(w.s.table.rows, w.s.rec.sessionID);
  }

  /** And so for a finish in time, after which the row ends now. */
  lemma FinishWritesLabel(clock: int, key: string, events: seq<Event>, c: Context, j: nat)
    requires 0 < clock && AllTimely(Initial(clock), key, events + [Finish(c)]) && c.db.end
    requires var w := After(clock, key, events);
             j < |w.s.table.rows| && w.s.table.rows[j].key == key && w.s.table.rows[j].id == w.s.rec.sessionID != 0 &&
             c.now - w.s.table.rows[j].endedAt <= GAP_TOLERANCE
    ensures var rows := After(clock, key, events + [Finish(c)]).s.table.rows;
            j < |rows| && rows[j].id == After(clock, key, events).s.rec.sessionID &&
            rows[j].endReason == StopReasonAfter(events) && rows[j].endedAt == c.now
  {
    RunSnoc(Initial(clock), key, events, Finish(c));
    RunSound(Initial(clock), key, events);
    RecorderIsCounted(clock, key, events);
    var w := After(clock, key, events);
    OpenRowEnds(w, key, j);
    assert HasRow(w.s.table.rows, w.s.rec.sessionID);
  }
}
