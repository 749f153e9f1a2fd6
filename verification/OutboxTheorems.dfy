/**
 What the notify service promises about its outbox, over every run: any number of ticks, however
 they overlap, with failing evaluations, sends, statements, commits and rollbacks and with a
 crash possible at every step.
 */
module OutboxTheorems {
  import opened Wrappers
  import opened OutboxTable
  import opened Outbox
  import opened Verdicts
  import opened OutboxInvariant
  import opened OutboxPreservation
  import opened OutboxSteps

  lemma {:induction false} RunKeeps(s: State, events: seq<Event>)
    requires Inv(s) && Legal(s, events)
    ensures Inv(Run(s, events))
    decreases |events|
  {
    if events != [] {
      hide Inv;
      StepKeeps(s, events[0]);
      RunKeeps(Step(s, events[0]), events[1..]);
    }
  }

  /** `s` is the state after some run that starts with an empty table. */
  ghost predicate After(events: seq<Event>, s: State) {
    Legal(INIT, events) && s == Run(INIT, events)
  }

  lemma ReachableInv(events: seq<Event>, s: State)
    requires After(events, s)
    ensures Inv(s)
  {
    InitInv();
    hide Inv;
    RunKeeps(INIT, events);
  }

  // ---------------------------------------------------------------------------------------
  // One row per trip and day, returned once
  // ---------------------------------------------------------------------------------------

  ghost predicate Returns(s: State, w: nat, t: nat, id: nat) {
    w in s.workers && t < |s.workers[w].tasks| && s.workers[w].tasks[t].pc == Finished(Recorded(id))
  }

  lemma TaskOf(s: State, w: nat, t: nat)
    requires Inv(s) && w in s.workers && t < |s.workers[w].tasks|
    ensures TaskInv(s.db, w, s.workers[w], t)
  {
    WorkerOf(s, w);
    hide Inv, DbInv;
  }

  lemma ReturnedRow(s: State, w: nat, t: nat, id: nat)
    requires Inv(s) && Returns(s, w, t, id)
    ensures var task := s.workers[w].tasks[t];
            && task.verdict == Some(Rain)
            && id in s.db.rows && s.db.rows[id].key == task.key
            && id in s.db.creator && s.db.creator[id] == (w, t)
            && forall i | i in s.db.rows && s.db.rows[i].key == task.key :: i == id
  {
    GlobalOf(s);
    TaskOf(s, w, t);
    hide Inv, PendingInv, OriginInv;
  }

  /**
   Of all the calls of `process_trip_alert`, in whatever ticks, at most one ever returns a
   notification for a given trip and departure day. That call's evaluation had said rain, the
   row it returns is committed, and no other committed row has the same trip and day.
   */
  lemma ReturnedOnceForRain(events: seq<Event>, s: State, w: nat, t: nat, id: nat)
    requires After(events, s) && Returns(s, w, t, id)
    ensures var task := s.workers[w].tasks[t];
            && task.verdict == Some(Rain)
            && id in s.db.rows && s.db.rows[id].key == task.key
            && (forall i | i in s.db.rows && s.db.rows[i].key == task.key :: i == id)
            && (forall v: nat, u: nat, i: nat | Returns(s, v, u, i) && s.workers[v].tasks[u].key == task.key ::
                  v == w && u == t && i == id)
  {
    ReachableInv(events, s);
    hide Inv;
    ReturnedRow(s, w, t, id);
    forall v: nat, u: nat, i: nat | Returns(s, v, u, i) && s.workers[v].tasks[u].key == s.workers[w].tasks[t].key
      ensures v == w && u == t && i == id
    {
      ReturnedRow(s, v, u, i);
    }
  }

  /** Every row ever committed was created by a task that had been told to expect rain. */
  lemma RowsComeFromRain(events: seq<Event>, s: State, id: nat)
    requires After(events, s) && id in s.db.rows
    ensures id in s.db.creator
    ensures var (w, t) := s.db.creator[id];
            && w in s.workers && t < |s.workers[w].tasks|
            && s.workers[w].tasks[t].verdict == Some(Rain)
            && s.workers[w].tasks[t].key == s.db.rows[id].key
            && s.workers[w].today <= s.db.rows[id].key.date <= s.workers[w].today + 1
  {
    ReachableInv(events, s);
    GlobalOf(s);
    hide Inv, PendingInv;
    assert OriginOk(s, id);
    var (w, t) := s.db.creator[id];
    TaskOf(s, w, t);
  }

  /** A task that saw rain and met no failing statement leaves a committed row for its trip and day. */
  lemma RainIsRecorded(events: seq<Event>, s: State, w: nat, t: nat)
    requires After(events, s) && w in s.workers && t < |s.workers[w].tasks|
    requires s.workers[w].tasks[t].verdict == Some(Rain) && s.workers[w].tasks[t].pc.Finished?
    requires !s.workers[w].tasks[t].pc.outcome.Failed?
    ensures KeyTaken(s.db.rows, s.workers[w].tasks[t].key)
  {
    ReachableInv(events, s);
    TaskOf(s, w, t);
    hide Inv;
    var pc := s.workers[w].tasks[t].pc;
    if pc.outcome.Recorded? {
      assert pc.outcome.id in s.db.rows;
    }
  }

  // ---------------------------------------------------------------------------------------
  // No warning is lost
  // ---------------------------------------------------------------------------------------

  ghost predicate RowsPersist(rows: map<nat, Row>, rows': map<nat, Row>) {
    forall id | id in rows ::
      && id in rows' && rows'[id].key == rows[id].key && rows'[id].created == rows[id].created
      && (rows[id].delivered ==> rows'[id].delivered)
  }

  lemma CommitPersists(s: State, w: nat, a: Actor, result: CommitResult)
    requires Inv(s) && w in s.workers && Runs(s.workers[w], a) && !result.Lost?
    requires PcOf(s.workers[w], a).InsertExecuted? || PcOf(s.workers[w], a).StampExecuted?
    ensures RowsPersist(s.db.rows, ApplyAll(s.db.rows, s.workers[w].session))
  {
    hide Inv, WorkerInv, OriginInv, PendingInv, DbInv, TaskStart;
    var wk := s.workers[w];
    WorkerOf(s, w);
    PhaseFacts(s.db, w, wk);
    GlobalOf(s);
    if wk.session != [] {
      match a {
        case Redelivery => PassPc(s.db, w, wk);
        case Task(t) => TaskSession(s.db, w, wk, t);
      }
      OneWriteApplied(s.db.rows, wk.session);
      if HasPendingInsert(wk) { PendingFact(s, w); }
    }
  }

  lemma OnlyCommitsWrite(s: State, e: Event)
    requires Enabled(s, e) && !(e.Act? && e.action.Commit? && !e.action.result.Lost?)
    ensures Step(s, e).db.rows == s.db.rows
  {
    if e.Act? {
      hide ActStep, ActEnabled, MovesTo, Advances;
      if IsActorStep(e.action) {
        var move := StepMoves(s, e.w, e.action);
      } else {
        TickBooks(s, e.w, e.action);
      }
    }
  }

  lemma CommitWrites(s: State, w: nat, a: Actor, result: CommitResult)
    requires w in s.workers && ActEnabled(s, w, Commit(a, result)) && !result.Lost?
    ensures Step(s, Act(w, Commit(a, result))).db.rows == ApplyAll(s.db.rows, s.workers[w].session)
    ensures Runs(s.workers[w], a) && (PcOf(s.workers[w], a).InsertExecuted? || PcOf(s.workers[w], a).StampExecuted?)
  {}

  lemma StepPersists(s: State, e: Event)
    requires Inv(s) && Enabled(s, e)
    ensures RowsPersist(s.db.rows, Step(s, e).db.rows)
  {
    hide Inv, ActEnabled, Step;
    if e.Act? && e.action.Commit? && !e.action.result.Lost? {
      CommitWrites(s, e.w, e.action.actor, e.action.result);
      CommitPersists(s, e.w, e.action.actor, e.action.result);
    } else {
      OnlyCommitsWrite(s, e);
    }
  }

  lemma {:induction false} RunPersists(s: State, events: seq<Event>)
    requires Inv(s) && Legal(s, events)
    ensures RowsPersist(s.db.rows, Run(s, events).db.rows)
    decreases |events|
  {
    if events != [] {
      hide Inv, Enabled, Step;
      var mid := Step(s, events[0]);
      StepPersists(s, events[0]);
      StepKeeps(s, events[0]);
      RunPersists(mid, events[1..]);
    }
  }

  /** In a good table, a row is stamped and accepted, or found by the retry query. */
  ghost predicate StampedOrRetried(db: Db, id: nat)
    requires id in db.rows
  {
    var row := db.rows[id];
    if row.delivered then db.accepted[id] >= 1
    else
      forall today, ids | today <= row.key.date && OldestPending(db.rows, today, 50, ids) ::
        || id in ids
        || (|ids| == 50
            && forall i | 0 <= i < |ids| :: db.rows[ids[i]].created <= row.created)
  }

  lemma RowIsStampedOrRetried(db: Db, id: nat)
    requires DbInv(db) && id in db.rows
    ensures StampedOrRetried(db, id)
  {}

  /**
   A committed warning never goes away. Whatever happens after it was committed, its row is
   still there with the same trip and day, and a stamp is never taken back. A stamped row was
   accepted by the channel at least once; an unstamped one is answered by every retry query of a
   tick dated on or before its departure day, unless that query already returns its full limit
   of older rows.
   */
  lemma NoWarningIsLost(before: seq<Event>, s: State, after: seq<Event>, id: nat)
    requires After(before, s) && Legal(s, after) && id in s.db.rows
    ensures var s' := Run(s, after);
            && id in s'.db.rows
            && s'.db.rows[id].key == s.db.rows[id].key
            && (s.db.rows[id].delivered ==> s'.db.rows[id].delivered)
            && StampedOrRetried(s'.db, id)
  {
    ReachableInv(before, s);
    hide Inv, StampedOrRetried, DbInv, PendingInv, OriginInv;
    RunKeeps(s, after);
    RunPersists(s, after);
    GlobalOf(Run(s, after));
    RowIsStampedOrRetried(Run(s, after).db, id);
  }

  // ---------------------------------------------------------------------------------------
  // The shared session
  // ---------------------------------------------------------------------------------------

  lemma SessionOfWorker(db: Db, w: nat, wk: Worker)
    requires WorkerInv(db, w, wk) && Live(wk)
    ensures wk.phase.Sweeping? ==> SweepInv(db, w, wk) && wk.permits + ActiveCount(wk.tasks) == 4
    ensures ActiveCount(wk.tasks) <= 4
    ensures wk.phase.Sweeping? || wk.tasks == []
    ensures forall t, u | 0 <= t < |wk.tasks| && 0 <= u < |wk.tasks|
                          && InSession(wk.tasks[t].pc) && InSession(wk.tasks[u].pc) :: t == u
    ensures wk.phase.Sweeping? && wk.lock.None? ==> wk.session == []
  {
    hide AttemptsInv, TaskInv, RedeliveryInv, SessionFits;
  }

  lemma OwnSession(db: Db, w: nat, wk: Worker, a: Actor)
    requires WorkerInv(db, w, wk) && Runs(wk, a) && InSession(PcOf(wk, a))
    ensures |wk.session| <= 1 && forall o | o in wk.session :: o.actor == a
  {
    hide WorkerInv;
    match a
    case Redelivery => PassPc(db, w, wk);
    case Task(t) => PhaseFacts(db, w, wk); TaskSession(db, w, wk, t);
  }

  /**
   In every interleaving at most four tasks of a tick are past the semaphore and a queued one can
   pass it exactly when fewer are; at most one task is
   between taking and releasing the lock, a free lock means the session holds no uncommitted
   statement, and whoever is in the session, hence whoever rolls it back, finds nothing in it
   but the one statement it executed itself.
   */
  lemma SessionIsExclusive(events: seq<Event>, s: State, w: nat)
    requires After(events, s) && w in s.workers && Live(s.workers[w])
    ensures var wk := s.workers[w];
            && ActiveCount(wk.tasks) <= 4
            && (forall t: nat | t < |wk.tasks| && wk.phase.Sweeping? && wk.tasks[t].pc.Queued? ::
                  ActEnabled(s, w, AcquirePermit(t)) <==> ActiveCount(wk.tasks) < 4)
            && (forall t, u | 0 <= t < |wk.tasks| && 0 <= u < |wk.tasks|
                              && InSession(wk.tasks[t].pc) && InSession(wk.tasks[u].pc) :: t == u)
            && (wk.phase.Sweeping? && wk.lock.None? ==> wk.session == [])
            && (forall a | Runs(wk, a) && InSession(PcOf(wk, a)) ::
                  |wk.session| <= 1 && forall o | o in wk.session :: o.actor == a)
  {
    ReachableInv(events, s);
    WorkerOf(s, w);
    var wk := s.workers[w];
    hide *;
    SessionOfWorker(s.db, w, wk);
    forall t: nat | t < |wk.tasks| && wk.phase.Sweeping? && wk.tasks[t].pc.Queued?
      ensures ActEnabled(s, w, AcquirePermit(t)) <==> ActiveCount(wk.tasks) < 4
    {
      QueuedCanStart(s, w, t);
    }
    forall a | Runs(wk, a) && InSession(PcOf(wk, a))
      ensures |wk.session| <= 1 && forall o | o in wk.session :: o.actor == a
    {
      OwnSession(s.db, w, wk, a);
    }
  }

  lemma QueuedCanStart(s: State, w: nat, t: nat)
    requires w in s.workers && s.workers[w].phase.Sweeping? && t < |s.workers[w].tasks|
    requires s.workers[w].tasks[t].pc.Queued?
    ensures ActEnabled(s, w, AcquirePermit(t)) <==> s.workers[w].permits > 0
  {}

  /** No tick hands the same row to the channel twice. */
  lemma AttemptedAtMostOncePerTick(events: seq<Event>, s: State, w: nat, id: nat)
    requires After(events, s) && w in s.workers
    ensures s.workers[w].attempts[id] <= 1
  {
    ReachableInv(events, s);
    WorkerOf(s, w);
    hide Inv;
  }

  /**
   A redelivery pass that was not abandoned has handed every row it selected to the channel,
   exactly once, when the tick goes on to its sweep.
   */
  lemma PassHandsOverAll(events: seq<Event>, s: State, w: nat, id: nat)
    requires After(events, s) && w in s.workers && AfterPass(s.workers[w].phase) && !s.workers[w].aborted
    requires id in s.workers[w].selected
    ensures s.workers[w].attempts[id] == 1
  {
    ReachableInv(events, s);
    WorkerOf(s, w);
    hide Inv;
  }
}
