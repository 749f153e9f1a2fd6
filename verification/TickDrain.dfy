/**
 From the process of a tick to the backlog: a tick whose sends and statements succeed, run step by
 step, is a good tick, so any number of them clear a backlog at the promised pace.
 */
module TickDrain {
  import opened Wrappers
  import opened OutboxTable
  import opened Outbox
  import opened OutboxInvariant
  import opened OutboxPreservation
  import opened OutboxSteps
  import opened OutboxTheorems
  import opened OutboxProgress
  import opened Redelivery

  /** Nothing fails but, perhaps, evaluations; rows are created after the cutoff. */
  predicate Smooth(act: Action, cutoff: int) {
    (act.Evaluate? || Succeeds(act)) && (act.ExecuteInsert? ==> act.created > cutoff)
  }

  /** The steps of one tick alone, all of them smooth. */
  ghost predicate SmoothSteps(events: seq<Event>, w: nat, cutoff: int) {
    forall e | e in events :: e.Act? && e.w == w && Smooth(e.action, cutoff)
  }

  const ALL_SUCCEED: Answers := Answers(_ => true, _ => Committed)

  // ---------------------------------------------------------------------------------------
  // How far the tick has come
  // ---------------------------------------------------------------------------------------

  /** The pass has stamped the first `k` rows of the query's answer and is at the next. */
  ghost predicate InPass(rows0: map<nat, Row>, rows: map<nat, Row>, today: int, pc: Pc, queue: seq<nat>,
                         ids: seq<nat>, k: nat)
  {
    && OldestPending(rows0, today, MAX_REDELIVERIES_PER_TICK, ids)
    && (pc.Sending? || pc.Stamping? || pc.StampExecuted?)
    && k < |ids| && pc.id == ids[k] && queue == ids[k + 1..]
    && rows == Deliveries(rows0, ids[..k], ALL_SUCCEED)
  }

  /** The pass is over, and only younger rows have come since. */
  ghost predicate PassIsOver(rows0: map<nat, Row>, rows: map<nat, Row>, today: int, ids: seq<nat>, cutoff: int) {
    && OldestPending(rows0, today, MAX_REDELIVERIES_PER_TICK, ids)
    && PassThenSweep(rows0, rows, ids, ALL_SUCCEED, cutoff)
  }

  /** The row an open transaction is about to insert is young. */
  ghost predicate InsertsYoung(wk: Worker, cutoff: int) {
    HasPendingInsert(wk) ==> wk.session[0].write.row.created > cutoff
  }

  ghost predicate PhaseProgress(rows0: map<nat, Row>, rows: map<nat, Row>, wk: Worker, cutoff: int) {
    match wk.phase
    case Selecting => rows == rows0
    case Redelivering(pc, queue) => exists ids, k: nat :: InPass(rows0, rows, wk.today, pc, queue, ids, k)
    case PassAborted => false
    case Dead => false
    case _ => exists ids :: PassIsOver(rows0, rows, wk.today, ids, cutoff)
  }

  ghost predicate Progress(rows0: map<nat, Row>, today: int, s: State, w: nat, cutoff: int) {
    && w in s.workers && s.workers[w].today == today
    && InsertsYoung(s.workers[w], cutoff)
    && PhaseProgress(rows0, s.db.rows, s.workers[w], cutoff)
  }

  /** The rows the tick found were created by other ticks. */
  ghost predicate Foreign(rows0: map<nat, Row>, s: State, w: nat) {
    forall id | id in rows0 :: id in s.db.creator && s.db.creator[id].0 != w
  }

  // ---------------------------------------------------------------------------------------
  // The pass
  // ---------------------------------------------------------------------------------------

  lemma DeliveriesNext(rows0: map<nat, Row>, ids: seq<nat>, k: nat)
    requires k < |ids|
    ensures Deliveries(rows0, ids[..k + 1], ALL_SUCCEED)
        == ApplyWrite(Deliveries(rows0, ids[..k], ALL_SUCCEED), Stamp(ids[k]))
  {
    assert ids[..k + 1][..k] == ids[..k];
  }

  /** From its `k` rows, the pass is at the next one or over. */
  lemma PassPosition(rows0: map<nat, Row>, rows: map<nat, Row>, today: int, ids: seq<nat>, k: nat, cutoff: int)
    requires OldestPending(rows0, today, MAX_REDELIVERIES_PER_TICK, ids) && k <= |ids|
    requires rows == Deliveries(rows0, ids[..k], ALL_SUCCEED)
    ensures k == |ids| ==> NextDelivery(ids[k..]) == SelectingDue && PassIsOver(rows0, rows, today, ids, cutoff)
    ensures k < |ids| ==>
              && NextDelivery(ids[k..]) == Redelivering(Sending(ids[k]), ids[k + 1..])
              && InPass(rows0, rows, today, Sending(ids[k]), ids[k + 1..], ids, k)
  {
    hide OldestPending, Deliveries;
    if k == |ids| {
      assert ids[..k] == ids;
    } else {
      assert ids[k..][1..] == ids[k + 1..];
    }
  }

  lemma NoInsertOutsideSweep(db: Db, w: nat, wk: Worker)
    requires WorkerInv(db, w, wk) && !wk.phase.Sweeping?
    ensures !HasPendingInsert(wk)
  {}

  lemma SelectingStep(rows0: map<nat, Row>, s: State, w: nat, act: Action, cutoff: int)
    requires w in s.workers && ActEnabled(s, w, act) && Smooth(act, cutoff)
    requires s.workers[w].phase.Selecting? && s.db.rows == rows0
    ensures act.SelectPending?
    ensures var (db', wk') := ActStep(s, w, act);
            && db'.rows == rows0 && wk'.today == s.workers[w].today && wk'.phase == NextDelivery(act.ids)
            && OldestPending(rows0, wk'.today, MAX_REDELIVERIES_PER_TICK, act.ids)
  {}

  /** A smooth step of the pass keeps it at its row, or stamps the row and goes on. */
  lemma PassStepIs(s: State, w: nat, act: Action, cutoff: int)
    requires Inv(s) && w in s.workers && ActEnabled(s, w, act) && Smooth(act, cutoff)
    requires s.workers[w].phase.Redelivering? && !s.workers[w].phase.pc.StampAborted?
    ensures var (db', wk') := ActStep(s, w, act);
            var pc, queue := s.workers[w].phase.pc, s.workers[w].phase.queue;
            && (pc.Sending? || pc.Stamping? || pc.StampExecuted?)
            && wk'.today == s.workers[w].today
            && if pc.StampExecuted? then
                 wk'.phase == NextDelivery(queue) && db'.rows == ApplyWrite(s.db.rows, Stamp(pc.id))
               else
                 && db'.rows == s.db.rows && wk'.phase.Redelivering? && wk'.phase.queue == queue
                 && (wk'.phase.pc.Stamping? || wk'.phase.pc.StampExecuted?) && wk'.phase.pc.id == pc.id
  {
    WorkerOf(s, w);
    var wk := s.workers[w];
    PassPc(s.db, w, wk);
    hide Inv, WorkerInv;
    OneWriteOfPass(s, w);
    PassAction(s, w, act, cutoff);
    TodayStays(s, w, act);
    var move := StepMoves(s, w, act);
    hide ActEnabled, ActStep, ApplyAll;
  }

  lemma OneWriteOfPass(s: State, w: nat)
    requires w in s.workers && s.workers[w].phase.Redelivering?
    requires SessionFits(s.db, w, s.workers[w], Redelivery, s.workers[w].phase.pc)
    ensures s.workers[w].phase.pc.StampExecuted? ==>
              ApplyAll(s.db.rows, s.workers[w].session) == ApplyWrite(s.db.rows, Stamp(s.workers[w].phase.pc.id))
  {
    if s.workers[w].phase.pc.StampExecuted? { OneWriteApplied(s.db.rows, s.workers[w].session); }
  }

  lemma PassAction(s: State, w: nat, act: Action, cutoff: int)
    requires w in s.workers && ActEnabled(s, w, act) && Smooth(act, cutoff) && s.workers[w].phase.Redelivering?
    ensures IsActorStep(act) && ActorOf(act) == Redelivery && !act.ExecuteFails?
    ensures act.Commit? ==> act.result.Committed?
    ensures act.Send? ==> act.accepted
  {}

  lemma TodayStays(s: State, w: nat, act: Action)
    requires w in s.workers && ActEnabled(s, w, act)
    ensures ActStep(s, w, act).1.today == s.workers[w].today
  {
    hide OldestPending, KeyTaken, PendingInsertOf, PendingStampOf, ApplyAll, InFlight;
  }

  // ---------------------------------------------------------------------------------------
  // The sweep
  // ---------------------------------------------------------------------------------------

  /** A younger row is added. */
  lemma RowAdded(rows0: map<nat, Row>, rows: map<nat, Row>, today: int, ids: seq<nat>, id: nat, row: Row, cutoff: int)
    requires PassIsOver(rows0, rows, today, ids, cutoff) && id !in rows && row.created > cutoff
    ensures PassIsOver(rows0, rows[id := row], today, ids, cutoff)
  {
    hide OldestPending, Deliveries;
  }

  /** A row that came after the pass is stamped. */
  lemma RowStamped(rows0: map<nat, Row>, rows: map<nat, Row>, today: int, ids: seq<nat>, id: nat, cutoff: int)
    requires PassIsOver(rows0, rows, today, ids, cutoff) && id !in rows0
    ensures PassIsOver(rows0, ApplyWrite(rows, Stamp(id)), today, ids, cutoff)
  {
    PassStampsExactly(rows0, ids, ALL_SUCCEED);
    hide OldestPending, Deliveries;
  }

  lemma StampedByOwner(db: Db, w: nat, wk: Worker, t: nat)
    requires WorkerInv(db, w, wk) && t < |wk.tasks| && wk.tasks[t].pc.StampExecuted?
    ensures wk.tasks[t].pc.id in db.creator && db.creator[wk.tasks[t].pc.id].0 == w
  {
    assert TaskInv(db, w, wk, t);
  }

  /** What a task's commit does to the table. */
  lemma SweepCommit(s: State, w: nat, t: nat)
    requires Inv(s) && w in s.workers && Runs(s.workers[w], Task(t))
    requires s.workers[w].tasks[t].pc.InsertExecuted? || s.workers[w].tasks[t].pc.StampExecuted?
    ensures var pc, wk := s.workers[w].tasks[t].pc, s.workers[w];
            var rows := ApplyAll(s.db.rows, wk.session);
            if pc.StampExecuted? then
              rows == ApplyWrite(s.db.rows, Stamp(pc.id)) && pc.id in s.db.creator && s.db.creator[pc.id].0 == w
            else if wk.session == [] then rows == s.db.rows
            else
              && HasPendingInsert(wk)
              && rows == s.db.rows[wk.session[0].write.id := wk.session[0].write.row]
              && wk.session[0].write.id !in s.db.rows
  {
    hide Inv, WorkerInv, TaskStart, PendingInv, OriginInv, DbInv, KeyTaken;
    var wk := s.workers[w];
    WorkerOf(s, w);
    PhaseFacts(s.db, w, wk);
    GlobalOf(s);
    if wk.tasks[t].pc.StampExecuted? { StampedByOwner(s.db, w, wk, t); }
    TaskSession(s.db, w, wk, t);
    if wk.session != [] { OneWriteApplied(s.db.rows, wk.session); }
    if HasPendingInsert(wk) { PendingFact(s, w); }
  }

  /** The session after a smooth step of the sweep: what it was, nothing, or the statement just executed. */
  lemma SweepSession(s: State, w: nat, act: Action, cutoff: int)
    requires w in s.workers && ActEnabled(s, w, act) && Smooth(act, cutoff) && s.workers[w].phase.Sweeping?
    requires InsertsYoung(s.workers[w], cutoff)
    ensures InsertsYoung(ActStep(s, w, act).1, cutoff)
  {
    hide KeyTaken, PendingInsertOf, PendingStampOf, ApplyAll, OldestPending, InFlight;
  }

  lemma SweepAction(s: State, w: nat, act: Action, cutoff: int)
    requires w in s.workers && ActEnabled(s, w, act) && Smooth(act, cutoff) && s.workers[w].phase.Sweeping?
    ensures IsActorStep(act) ==> ActorOf(act).Task? && Runs(s.workers[w], ActorOf(act))
    ensures !IsActorStep(act) ==> act.Return? && ActStep(s, w, act).1.phase.Returned?
    ensures act.Commit? ==> act.result.Committed?
  {
    hide KeyTaken, PendingInsertOf, PendingStampOf, ApplyAll, OldestPending, InFlight;
  }

  lemma SweepStepKeepsPass(rows0: map<nat, Row>, s: State, w: nat, act: Action, cutoff: int, ids: seq<nat>)
    requires Inv(s) && w in s.workers && ActEnabled(s, w, act) && Smooth(act, cutoff) && s.workers[w].phase.Sweeping?
    requires Foreign(rows0, s, w) && InsertsYoung(s.workers[w], cutoff)
    requires PassIsOver(rows0, s.db.rows, s.workers[w].today, ids, cutoff)
    ensures var (db', wk') := ActStep(s, w, act);
            && (wk'.phase.Sweeping? || wk'.phase.Returned?)
            && PassIsOver(rows0, db'.rows, s.workers[w].today, ids, cutoff)
  {
    SweepAction(s, w, act, cutoff);
    hide Inv, ActStep, ActEnabled, PassIsOver, ApplyAll;
    if !IsActorStep(act) {
      TickBooks(s, w, act);
    } else {
      var t := ActorOf(act).index;
      var move := StepMoves(s, w, act);
      if act.Commit? { SweepCommitKeepsPass(rows0, s, w, t, cutoff, ids); }
    }
  }

  lemma SweepCommitKeepsPass(rows0: map<nat, Row>, s: State, w: nat, t: nat, cutoff: int, ids: seq<nat>)
    requires Inv(s) && w in s.workers && Runs(s.workers[w], Task(t))
    requires s.workers[w].tasks[t].pc.InsertExecuted? || s.workers[w].tasks[t].pc.StampExecuted?
    requires Foreign(rows0, s, w) && InsertsYoung(s.workers[w], cutoff)
    requires PassIsOver(rows0, s.db.rows, s.workers[w].today, ids, cutoff)
    ensures PassIsOver(rows0, ApplyAll(s.db.rows, s.workers[w].session), s.workers[w].today, ids, cutoff)
  {
    hide Inv, PassIsOver, ApplyAll, ApplyWrite;
    SweepCommit(s, w, t);
    var wk := s.workers[w];
    var pc := wk.tasks[t].pc;
    if pc.StampExecuted? {
      RowStamped(rows0, s.db.rows, wk.today, ids, pc.id, cutoff);
    } else if wk.session != [] {
      RowAdded(rows0, s.db.rows, wk.today, ids, wk.session[0].write.id, wk.session[0].write.row, cutoff);
    }
  }

  // ---------------------------------------------------------------------------------------
  // A whole tick
  // ---------------------------------------------------------------------------------------

  lemma DueStep(s: State, w: nat, act: Action, cutoff: int)
    requires w in s.workers && ActEnabled(s, w, act) && Smooth(act, cutoff) && s.workers[w].phase.SelectingDue?
    ensures ActStep(s, w, act).1.phase.Sweeping? && ActStep(s, w, act).0 == s.db
    ensures ActStep(s, w, act).1.session == s.workers[w].session
  {}

  lemma ProgressSelecting(rows0: map<nat, Row>, s: State, w: nat, act: Action, cutoff: int)
    requires w in s.workers && s.workers[w].phase.Selecting? && ActEnabled(s, w, act) && Smooth(act, cutoff)
    requires PhaseProgress(rows0, s.db.rows, s.workers[w], cutoff)
    ensures var (db', wk') := ActStep(s, w, act); PhaseProgress(rows0, db'.rows, wk', cutoff)
  {
    SelectingStep(rows0, s, w, act, cutoff);
    var wk' := ActStep(s, w, act).1;
    hide ActStep, ActEnabled, OldestPending, InPass, PassIsOver;
    assert act.ids[..0] == [] && act.ids[0..] == act.ids;
    PassPosition(rows0, rows0, wk'.today, act.ids, 0, cutoff);
  }

  lemma ProgressInPass(rows0: map<nat, Row>, s: State, w: nat, act: Action, cutoff: int)
    requires Inv(s) && w in s.workers && s.workers[w].phase.Redelivering? && ActEnabled(s, w, act)
        && Smooth(act, cutoff)
    requires PhaseProgress(rows0, s.db.rows, s.workers[w], cutoff)
    ensures var (db', wk') := ActStep(s, w, act); PhaseProgress(rows0, db'.rows, wk', cutoff)
  {
    hide *;
    var wk := s.workers[w];
    var ids, k := PassIsAt(rows0, s.db.rows, wk, cutoff);
    PassStepIs(s, w, act, cutoff);
    var (db', wk') := ActStep(s, w, act);
    if wk.phase.pc.StampExecuted? {
      PassAdvances(rows0, s.db.rows, db'.rows, wk, wk', ids, k, cutoff);
    } else {
      PassStays(rows0, s.db.rows, wk, wk', ids, k, cutoff);
    }
  }

  lemma PassIsAt(rows0: map<nat, Row>, rows: map<nat, Row>, wk: Worker, cutoff: int) returns (ids: seq<nat>, k: nat)
    requires wk.phase.Redelivering? && PhaseProgress(rows0, rows, wk, cutoff)
    ensures InPass(rows0, rows, wk.today, wk.phase.pc, wk.phase.queue, ids, k) && !wk.phase.pc.StampAborted?
  {
    ids, k :| InPass(rows0, rows, wk.today, wk.phase.pc, wk.phase.queue, ids, k);
  }

  lemma PassStays(rows0: map<nat, Row>, rows: map<nat, Row>, wk: Worker, wk': Worker, ids: seq<nat>, k: nat,
      cutoff: int)
    requires wk.phase.Redelivering? && InPass(rows0, rows, wk.today, wk.phase.pc, wk.phase.queue, ids, k)
    requires wk'.today == wk.today && wk'.phase.Redelivering? && wk'.phase.queue == wk.phase.queue
    requires (wk'.phase.pc.Stamping? || wk'.phase.pc.StampExecuted?) && wk'.phase.pc.id == wk.phase.pc.id
    ensures PhaseProgress(rows0, rows, wk', cutoff)
  {
    hide OldestPending, Deliveries;
    assert InPass(rows0, rows, wk'.today, wk'.phase.pc, wk'.phase.queue, ids, k);
  }

  lemma PassAdvances(rows0: map<nat, Row>, rows: map<nat, Row>, rows': map<nat, Row>, wk: Worker, wk': Worker,
                     ids: seq<nat>, k: nat, cutoff: int)
    requires wk.phase.Redelivering? && InPass(rows0, rows, wk.today, wk.phase.pc, wk.phase.queue, ids, k)
    requires wk'.today == wk.today && wk'.phase == NextDelivery(wk.phase.queue)
    requires rows' == ApplyWrite(rows, Stamp(wk.phase.pc.id))
    ensures PhaseProgress(rows0, rows', wk', cutoff)
  {
    hide OldestPending, Deliveries, PassThenSweep;
    DeliveriesNext(rows0, ids, k);
    PassPosition(rows0, rows', wk.today, ids, k + 1, cutoff);
  }

  lemma ProgressAfterPass(rows0: map<nat, Row>, s: State, w: nat, act: Action, cutoff: int)
    requires Inv(s) && w in s.workers && ActEnabled(s, w, act) && Smooth(act, cutoff)
    requires s.workers[w].phase.SelectingDue? || s.workers[w].phase.Sweeping?
    requires Foreign(rows0, s, w) && InsertsYoung(s.workers[w], cutoff)
    requires PhaseProgress(rows0, s.db.rows, s.workers[w], cutoff)
    ensures var (db', wk') := ActStep(s, w, act); PhaseProgress(rows0, db'.rows, wk', cutoff)
  {
    hide *;
    TodayStays(s, w, act);
    var (db', wk') := ActStep(s, w, act);
    var ids := PassIsDone(rows0, s.db.rows, s.workers[w], cutoff);
    if s.workers[w].phase.SelectingDue? {
      DueStep(s, w, act, cutoff);
    } else {
      SweepStepKeepsPass(rows0, s, w, act, cutoff, ids);
    }
    DoneIsProgress(rows0, db'.rows, wk', ids, cutoff);
  }

  lemma PassIsDone(rows0: map<nat, Row>, rows: map<nat, Row>, wk: Worker, cutoff: int) returns (ids: seq<nat>)
    requires (wk.phase.SelectingDue? || wk.phase.Sweeping?) && PhaseProgress(rows0, rows, wk, cutoff)
    ensures PassIsOver(rows0, rows, wk.today, ids, cutoff)
  {
    ids :| PassIsOver(rows0, rows, wk.today, ids, cutoff);
  }

  lemma DoneIsProgress(rows0: map<nat, Row>, rows: map<nat, Row>, wk: Worker, ids: seq<nat>, cutoff: int)
    requires (wk.phase.Sweeping? || wk.phase.Returned?) && PassIsOver(rows0, rows, wk.today, ids, cutoff)
    ensures PhaseProgress(rows0, rows, wk, cutoff)
  {
    hide PassIsOver;
  }

  lemma ProgressStep(rows0: map<nat, Row>, today: int, s: State, w: nat, act: Action, cutoff: int)
    requires Inv(s) && Progress(rows0, today, s, w, cutoff) && Foreign(rows0, s, w)
    requires Live(s.workers[w]) && ActEnabled(s, w, act) && Smooth(act, cutoff)
    ensures Progress(rows0, today, Step(s, Act(w, act)), w, cutoff)
  {
    StepKeeps(s, Act(w, act));
    WorkerOf(Step(s, Act(w, act)), w);
    TodayStays(s, w, act);
    hide Inv, ActStep, ActEnabled, WorkerInv, Foreign, InsertsYoung, Smooth, DbInv;
    YoungAfter(s, w, act, cutoff);
    InSomePhase(rows0, s, w, cutoff);
    hide PhaseProgress;
    if s.workers[w].phase.Selecting? {
      ProgressSelecting(rows0, s, w, act, cutoff);
    } else if s.workers[w].phase.Redelivering? {
      ProgressInPass(rows0, s, w, act, cutoff);
    } else {
      ProgressAfterPass(rows0, s, w, act, cutoff);
    }
  }

  lemma InSomePhase(rows0: map<nat, Row>, s: State, w: nat, cutoff: int)
    requires w in s.workers && Live(s.workers[w]) && PhaseProgress(rows0, s.db.rows, s.workers[w], cutoff)
    ensures var phase := s.workers[w].phase;
            phase.Selecting? || phase.Redelivering? || phase.SelectingDue? || phase.Sweeping?
  {}

  lemma YoungAfter(s: State, w: nat, act: Action, cutoff: int)
    requires w in s.workers && ActEnabled(s, w, act) && Smooth(act, cutoff) && InsertsYoung(s.workers[w], cutoff)
    requires var (db', wk') := ActStep(s, w, act); WorkerInv(db', w, wk')
    ensures InsertsYoung(ActStep(s, w, act).1, cutoff)
  {
    var (db', wk') := ActStep(s, w, act);
    hide ActStep, ActEnabled, WorkerInv, Smooth;
    if s.workers[w].phase.Sweeping? {
      SweepSession(s, w, act, cutoff);
    } else if s.workers[w].phase.SelectingDue? {
      DueStep(s, w, act, cutoff);
    } else {
      NotYetSweeping(s, w, act, cutoff);
      NoInsertOutsideSweep(db', w, wk');
    }
  }

  lemma NotYetSweeping(s: State, w: nat, act: Action, cutoff: int)
    requires w in s.workers && ActEnabled(s, w, act) && !s.workers[w].phase.Sweeping?
        && !s.workers[w].phase.SelectingDue?
    ensures !ActStep(s, w, act).1.phase.Sweeping?
  {
    hide OldestPending, ApplyAll, InFlight, PendingInsertOf, PendingStampOf;
  }

  lemma ForeignStays(rows0: map<nat, Row>, s: State, e: Event, w: nat)
    requires Inv(s) && Foreign(rows0, s, w) && Enabled(s, e)
    ensures Foreign(rows0, Step(s, e), w)
  {
    hide OldestPending, ApplyAll, InFlight, PendingInsertOf, PendingStampOf, WorkerInv, OriginInv, PendingInv;
  }

  /** A tick that has returned takes no further step. */
  lemma {:induction false} ProgressRun(rows0: map<nat, Row>, today: int, s: State, w: nat, events: seq<Event>,
      cutoff: int)
    requires Inv(s) && Progress(rows0, today, s, w, cutoff) && Foreign(rows0, s, w)
    requires Legal(s, events) && SmoothSteps(events, w, cutoff)
    ensures Progress(rows0, today, Run(s, events), w, cutoff)
    decreases |events|
  {
    if events != [] {
      hide Inv, Progress, Foreign, ActEnabled, Step, Smooth;
      assert events[0] in events;
      assert forall e | e in events[1..] :: e in events;
      StepKeeps(s, events[0]);
      IsLive(s, w, events[0].action);
      ProgressStep(rows0, today, s, w, events[0].action, cutoff);
      ForeignStays(rows0, s, events[0], w);
      ProgressRun(rows0, today, Step(s, events[0]), w, events[1..], cutoff);
    }
  }

  lemma IsLive(s: State, w: nat, act: Action)
    requires w in s.workers && ActEnabled(s, w, act)
    ensures Live(s.workers[w])
  {}

  lemma TickStarts(s: State, w: nat, today: int, cutoff: int)
    requires Inv(s) && w !in s.workers
    ensures var s' := Step(s, StartTick(w, today));
            Inv(s') && Progress(s.db.rows, today, s', w, cutoff) && Foreign(s.db.rows, s', w)
  {
    hide Inv, Foreign;
    StepKeeps(s, StartTick(w, today));
    RowsAreForeign(s, w);
    ForeignAtStart(s, w, today);
  }

  lemma RowsAreForeign(s: State, w: nat)
    requires Inv(s) && w !in s.workers
    ensures Foreign(s.db.rows, s, w)
  {
    hide WorkerInv, PendingInv;
    forall id | id in s.db.rows
      ensures id in s.db.creator && s.db.creator[id].0 != w
    {
      assert OriginOk(s, id);
    }
  }

  lemma ForeignAtStart(s: State, w: nat, today: int)
    requires Foreign(s.db.rows, s, w) && w !in s.workers
    ensures Foreign(s.db.rows, Step(s, StartTick(w, today)), w)
  {}

  /** One tick, alone, from its start to its return. */
  ghost predicate SmoothTick(s: State, w: nat, today: int, events: seq<Event>, cutoff: int) {
    && w !in s.workers && SmoothSteps(events, w, cutoff)
    && Legal(Step(s, StartTick(w, today)), events)
    && Ended(Run(Step(s, StartTick(w, today)), events), w)
  }

  ghost predicate Ended(s: State, w: nat) { w in s.workers && s.workers[w].phase.Returned? }

  /**
   A tick whose sends, statements and commits succeed, while no other tick takes a step, does to
   the table what a good tick is defined to do: it stamps the oldest pending rows, as many as the
   limit allows, leaves the other rows alone and adds only rows younger than the cutoff.
   */
  lemma SmoothTickIsGood(s: State, w: nat, today: int, events: seq<Event>, cutoff: int)
    requires Inv(s) && SmoothTick(s, w, today, events, cutoff)
    ensures var s' := Run(Step(s, StartTick(w, today)), events);
            Inv(s') && GoodTick(s.db.rows, s'.db.rows, today, 50, cutoff)
  {
    var start := Step(s, StartTick(w, today));
    TickStarts(s, w, today, cutoff);
    hide Inv, Progress, Foreign, Step;
    ProgressRun(s.db.rows, today, start, w, events, cutoff);
    RunKeeps(start, events);
    ProgressEnds(s.db.rows, today, Run(start, events), w, cutoff);
  }

  lemma ProgressEnds(rows0: map<nat, Row>, today: int, s: State, w: nat, cutoff: int)
    requires Progress(rows0, today, s, w, cutoff) && Ended(s, w)
    ensures GoodTick(rows0, s.db.rows, today, MAX_REDELIVERIES_PER_TICK, cutoff)
  {
    hide OldestPending, PassThenSweep;
    var ids :| PassIsOver(rows0, s.db.rows, today, ids, cutoff);
  }

  // ---------------------------------------------------------------------------------------
  // Ticks one after the other
  // ---------------------------------------------------------------------------------------

  datatype Tick = Tick(w: nat, today: int, events: seq<Event>)

  ghost function AfterTick(s: State, tick: Tick): State
    requires tick.w !in s.workers && Legal(Step(s, StartTick(tick.w, tick.today)), tick.events)
  {
    Run(Step(s, StartTick(tick.w, tick.today)), tick.events)
  }

  ghost predicate SmoothTicks(s: State, ticks: seq<Tick>, cutoff: int)
    decreases |ticks|
  {
    ticks == [] ||
    (SmoothTick(s, ticks[0].w, ticks[0].today, ticks[0].events, cutoff)
     && SmoothTicks(AfterTick(s, ticks[0]), ticks[1..], cutoff))
  }

  ghost function AfterTicks(s: State, ticks: seq<Tick>, cutoff: int): State
    requires SmoothTicks(s, ticks, cutoff)
    decreases |ticks|
  {
    if ticks == [] then s else AfterTicks(AfterTick(s, ticks[0]), ticks[1..], cutoff)
  }

  /** What is left of the backlog after a good tick was part of it before, with the same keys. */
  lemma BacklogOnlyShrinks(rows: map<nat, Row>, rows': map<nat, Row>, today: int, limit: nat, cutoff: int)
    requires GoodTick(rows, rows', today, limit, cutoff)
    ensures forall id | id in Backlog(rows', cutoff) :: id in Backlog(rows, cutoff) && rows'[id].key == rows[id].key
  {
    var ids, answers :| OldestPending(rows, today, limit, ids) && PassThenSweep(rows, rows', ids, answers, cutoff);
    PassStampsExactly(rows, ids, answers);
  }

  ghost predicate Current(rows: map<nat, Row>, ticks: seq<Tick>, cutoff: int) {
    forall tick, id | tick in ticks && id in Backlog(rows, cutoff) :: tick.today <= rows[id].key.date
  }

  lemma StaysCurrent(rows: map<nat, Row>, rows': map<nat, Row>, ticks: seq<Tick>, cutoff: int)
    requires ticks != [] && Current(rows, ticks, cutoff)
    requires GoodTick(rows, rows', ticks[0].today, MAX_REDELIVERIES_PER_TICK, cutoff)
    ensures Current(rows', ticks[1..], cutoff)
  {
    hide GoodTick, Backlog;
    BacklogOnlyShrinks(rows, rows', ticks[0].today, MAX_REDELIVERIES_PER_TICK, cutoff);
    assert forall tick | tick in ticks[1..] :: tick in ticks;
  }

  lemma {:induction false} BacklogAfterTicks(s: State, ticks: seq<Tick>, cutoff: int)
    requires Inv(s) && SmoothTicks(s, ticks, cutoff) && Current(s.db.rows, ticks, cutoff)
    ensures |Backlog(AfterTicks(s, ticks, cutoff).db.rows, cutoff)|
         == Remaining(|Backlog(s.db.rows, cutoff)|, |ticks| * 50)
    decreases |ticks|
  {
    if ticks == [] {
    } else {
      hide *;
      AfterTicksStep(s, ticks, cutoff);
      TickIsSmooth(s, ticks, cutoff);
      FirstIsCurrent(s.db.rows, ticks, cutoff);
      RemainingTwice(|Backlog(s.db.rows, cutoff)|, |ticks| - 1);
      AfterTickIs(s, ticks[0]);
      var next := AfterTick(s, ticks[0]);
      SmoothTickIsGood(s, ticks[0].w, ticks[0].today, ticks[0].events, cutoff);
      GoodTickDrains(s.db.rows, next.db.rows, ticks[0].today, MAX_REDELIVERIES_PER_TICK, cutoff);
      StaysCurrent(s.db.rows, next.db.rows, ticks, cutoff);
      BacklogAfterTicks(next, ticks[1..], cutoff);
    }
  }

  lemma AfterTicksStep(s: State, ticks: seq<Tick>, cutoff: int)
    requires ticks != [] && SmoothTicks(s, ticks, cutoff)
    ensures var tick := ticks[0];
            && tick.w !in s.workers && Legal(Step(s, StartTick(tick.w, tick.today)), tick.events)
            && SmoothTicks(AfterTick(s, tick), ticks[1..], cutoff)
            && AfterTicks(s, ticks, cutoff) == AfterTicks(AfterTick(s, tick), ticks[1..], cutoff)
  {
    hide Step, Run, Legal, AfterTick;
  }

  lemma FirstIsCurrent(rows: map<nat, Row>, ticks: seq<Tick>, cutoff: int)
    requires ticks != [] && Current(rows, ticks, cutoff)
    ensures forall id | id in Backlog(rows, cutoff) :: ticks[0].today <= rows[id].key.date
  {
    assert ticks[0] in ticks;
  }

  lemma RemainingTwice(n: nat, k: nat)
    ensures Remaining(Remaining(n, MAX_REDELIVERIES_PER_TICK), k * MAX_REDELIVERIES_PER_TICK)
         == Remaining(n, (k + 1) * MAX_REDELIVERIES_PER_TICK)
  {}

  lemma AfterTickIs(s: State, tick: Tick)
    requires tick.w !in s.workers && Legal(Step(s, StartTick(tick.w, tick.today)), tick.events)
    ensures AfterTick(s, tick) == Run(Step(s, StartTick(tick.w, tick.today)), tick.events)
  {}

  lemma TickIsSmooth(s: State, ticks: seq<Tick>, cutoff: int)
    requires ticks != [] && SmoothTicks(s, ticks, cutoff)
    ensures var tick := ticks[0];
            SmoothTick(s, tick.w, tick.today, tick.events, cutoff)
            && tick.w !in s.workers && Legal(Step(s, StartTick(tick.w, tick.today)), tick.events)
  {}

  /**
   A backlog of `n` rows that are still current is gone exactly when at least `ceil(n / 50)` ticks
   have run smoothly, one after the other, however many younger rows they added.
   */
  lemma TicksDrainTheBacklog(events: seq<Event>, s: State, ticks: seq<Tick>, cutoff: int)
    requires After(events, s) && SmoothTicks(s, ticks, cutoff) && Current(s.db.rows, ticks, cutoff)
    ensures Backlog(AfterTicks(s, ticks, cutoff).db.rows, cutoff) == {}
       <==> |ticks| >= (|Backlog(s.db.rows, cutoff)| + 50 - 1) / 50
  {
    ReachableInv(events, s);
    hide Inv, Backlog, SmoothTicks;
    BacklogAfterTicks(s, ticks, cutoff);
  }
}
