/** The coverage heartbeat of one recorder (internal/history/recorder.go:603-759). Each call runs as one atomic step on
    the store; every store write may fail. */
module RecorderSteps {
  import opened Sessions
  import opened CoverageStore

  const END_UNREACHABLE := "cluster_unreachable"
  const END_RBAC_DENIED := "rbac_denied"
  const END_SYSTEM_SLEEP := "system_sleep"

  /** The recorder's fields; sessionID 0 means that no session is open. */
  datatype Recording = Recording(live: nat, sessionID: int, sessionStart: int, sessionBackfilled: bool, lastTouch: int,
                                 stopReason: string)

  const IDLE: Recording := Recording(0, 0, ZERO_TIME, false, ZERO_TIME, "")

  datatype State = State(table: Table, rec: Recording)

  /** Which store writes of a step go through. */
  datatype Db = Db(begin: bool, touch: bool, mark: bool, reason: bool, end: bool)

  /** What a step is told about the world: the clock, the recording scope, whether RBAC denies recording, and whether
      the system slept since the last touch. */
  datatype Context = Context(now: int, scope: string, denied: bool, slept: bool, db: Db)

  function Opened(s: State, key: string, c: Context, backfilled: bool): State {
    if c.db.begin then
      State(Begun(s.table, key, c.scope, c.now, backfilled, true).0,
            s.rec.(sessionID := s.table.nextId, sessionStart := c.now, sessionBackfilled := backfilled,
                   lastTouch := c.now))
    else s
  }

  function Established(s: State, key: string, c: Context): State {
    var r := s.rec;
    if r.sessionID != 0 && c.now - r.lastTouch <= GAP_TOLERANCE then
      var (touched, outcome) := Updated(s.table, r.sessionID, Touch(c.now), c.db.touch);
      if outcome != Done then Opened(s, key, c, true)
      else if !r.sessionBackfilled && c.now - r.sessionStart <= GAP_TOLERANCE then
        var (marked, result) := Updated(touched, r.sessionID, MarkBackfilled, c.db.mark);
        State(marked, r.(lastTouch := c.now, sessionBackfilled := result == Done))
      else State(touched, r.(lastTouch := c.now))
    else Opened(s, key, c, true)
  }

  function Ticked(s: State, key: string, c: Context): State {
    var r := s.rec;
    if r.live == 0 then
      if r.sessionID != 0 && c.now - r.lastTouch > GAP_TOLERANCE then
        var reason := if c.denied then END_RBAC_DENIED else END_UNREACHABLE;
        State(Updated(s.table, r.sessionID, SetEndReason(reason), c.db.reason).0, r.(sessionID := 0))
      else s
    else if r.sessionID == 0 then Opened(s, key, c, false)
    else if c.now - r.lastTouch > GAP_TOLERANCE then
      var labelled := if c.slept then Updated(s.table, r.sessionID, SetEndReason(END_SYSTEM_SLEEP), c.db.reason).0
                      else s.table;
      Opened(State(labelled, r), key, c, false)
    else
      var (touched, outcome) := Updated(s.table, r.sessionID, Touch(c.now), c.db.touch);
      match outcome
      case NoSession => Opened(s, key, c, false)
      case Done => State(touched, r.(lastTouch := c.now))
      case DbError => s
  }

  /** A late tick of a live recorder asks every stream to be re-established. */
  predicate AsksResync(s: State, c: Context) {
    s.rec.live > 0 && s.rec.sessionID != 0 && c.now - s.rec.lastTouch > GAP_TOLERANCE
  }

  predicate EndsSession(s: State, c: Context) {
    s.rec.sessionID != 0 && c.now - s.rec.lastTouch <= GAP_TOLERANCE
  }

  function Finished(s: State, c: Context): State {
    State(if EndsSession(s, c) then Updated(s.table, s.rec.sessionID, End(c.now, s.rec.stopReason), c.db.end).0
          else s.table,
          s.rec.(sessionID := 0))
  }

  class Recorder {
    const key: string
    const store: Store
    var live: nat
    var sessionID: int
    var sessionStart: int
    var sessionBackfilled: bool
    var lastTouch: int
    var stopReason: string

    constructor (key: string, store: Store)
      ensures this.key == key && this.store == store
      ensures View() == State(store.Contents(), IDLE)
    {
      this.key, this.store := key, store;
      live, sessionID, sessionStart, sessionBackfilled, lastTouch, stopReason := 0, 0, ZERO_TIME, false, ZERO_TIME, "";
    }

    function View(): State
      reads this, store
    {
      State(store.Contents(), Recording(live, sessionID, sessionStart, sessionBackfilled, lastTouch, stopReason))
    }

    method BeginSession(c: Context, backfilled: bool)
      modifies this, store
      ensures View() == Opened(old(View()), key, c, backfilled)
    {
      var id := store.BeginSession(key, c.scope, c.now, backfilled, c.db.begin);
      if !c.db.begin {
        return;
      }
      sessionID, sessionStart, sessionBackfilled, lastTouch := id, c.now, backfilled, c.now;
    }

    method StreamUp(c: Context)
      modifies this, store
      ensures View() == var s := old(View());
                        Established(s.(rec := s.rec.(live := s.rec.live + 1)), key, c)
    {
      live := live + 1;
      CoverageEstablished(c);
    }

    method StreamDown()
      modifies this
      ensures View() == var s := old(View());
                        s.(rec := s.rec.(live := if s.rec.live > 0 then s.rec.live - 1 else 0))
    {
      var n: int := live;
      n := n - 1;
      if n < 0 {
        n := 0;
      }
      live := n;
    }

    method CoverageEstablished(c: Context)
      modifies this, store
      ensures View() == Established(old(View()), key, c)
    {
      var id, last, started, backfilled := sessionID, lastTouch, sessionStart, sessionBackfilled;
      if id != 0 && c.now - last <= GAP_TOLERANCE {
        var outcome := store.UpdateSession(id, Touch(c.now), c.db.touch);
        if outcome == Done {
          if !backfilled && c.now - started <= GAP_TOLERANCE {
            var marked := store.UpdateSession(id, MarkBackfilled, c.db.mark);
            if marked == Done {
              backfilled := true;
            }
          }
          lastTouch, sessionBackfilled := c.now, backfilled;
          return;
        }
      }
      BeginSession(c, true);
    }

    method CoverageTick(c: Context) returns (resync: bool)
      modifies this, store
      ensures View() == Ticked(old(View()), key, c)
      ensures resync == AsksResync(old(View()), c)
    {
      resync := false;
      var id, last := sessionID, lastTouch;
      if live == 0 {
        if id != 0 && c.now - last > GAP_TOLERANCE {
          var reason := END_UNREACHABLE;
          if c.denied {
            reason := END_RBAC_DENIED;
          }
          var _ := store.UpdateSession(id, SetEndReason(reason), c.db.reason);
          sessionID := 0;
        }
        return;
      }
      if id == 0 {
        BeginSession(c, false);
        return;
      }
      if c.now - last > GAP_TOLERANCE {
        if c.slept {
          var _ := store.UpdateSession(id, SetEndReason(END_SYSTEM_SLEEP), c.db.reason);
        }
        BeginSession(c, false);
        return true;
      }
      var outcome := store.UpdateSession(id, Touch(c.now), c.db.touch);
      if outcome == NoSession {
        BeginSession(c, false);
      } else if outcome == Done {
        lastTouch := c.now;
      }
    }

    method FinishCoverage(c: Context)
      modifies this, store
      ensures View() == Finished(old(View()), c)
    {
      var id, last := sessionID, lastTouch;
      sessionID := 0;
      if id == 0 {
        return;
      }
      if c.now - last > GAP_TOLERANCE {
        return;
      }
      var _ := store.UpdateSession(id, End(c.now, stopReason), c.db.end);
    }
  }
}
