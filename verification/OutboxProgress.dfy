/** Ticks come to an end and never block each other for good. */
module OutboxProgress {
  import opened Wrappers
  import opened OutboxTable
  import opened Outbox
  import opened Verdicts
  import opened OutboxInvariant
  import opened OutboxPreservation
  import opened OutboxSteps
  import opened OutboxTheorems

  // ---------------------------------------------------------------------------------------
  // Every sweep finishes
  // ---------------------------------------------------------------------------------------

  function StepsLeft(pc: Pc): nat {
    match pc
    case Queued => 11
    case Evaluating => 10
    case AwaitInsert => 9
    case Inserting => 8
    case InsertExecuted(_) => 7
    case InsertAborted => 6
    case Sending(_) => 5
    case AwaitStamp(_) => 4
    case Stamping(_) => 3
    case StampExecuted(_) => 2
    case StampAborted(_) => 1
    case Finished(_) => 0
  }

  function TasksLeft(tasks: seq<TaskState>): nat {
    if tasks == [] then 0 else TasksLeft(tasks[..|tasks| - 1]) + StepsLeft(tasks[|tasks| - 1].pc)
  }

  /** An upper bound on the steps a sweep can still take. */
  function SweepLeft(wk: Worker): nat {
    if wk.phase.Sweeping? then 1 + TasksLeft(wk.tasks) else 0
  }

  lemma TasksLeftUpdate(tasks: seq<TaskState>, t: nat, task: TaskState)
    requires t < |tasks|
    ensures TasksLeft(tasks[t := task]) == TasksLeft(tasks) - StepsLeft(tasks[t].pc) + StepsLeft(task.pc)
    decreases |tasks|
  {
    var n := |tasks| - 1;
    if t < n {
      TasksLeftUpdate(tasks[..n], t, task);
      assert tasks[t := task][..n] == tasks[..n][t := task];
    } else {
      assert tasks[t := task][..n] == tasks[..n];
    }
  }

  lemma AdvanceUsesSteps(pc: Pc, act: Action, move: Option<Pc>)
    requires Advances(pc, act, move)
    ensures (if move.Some? then StepsLeft(move.value) else 0) < StepsLeft(pc)
  {}

  /** Every step of a sweep uses up at least one of its remaining steps. */
  lemma SweepStepDecreases(s: State, w: nat, act: Action)
    requires w in s.workers && s.workers[w].phase.Sweeping? && ActEnabled(s, w, act)
    ensures SweepLeft(Step(s, Act(w, act)).workers[w]) < SweepLeft(s.workers[w])
  {
    var wk := s.workers[w];
    var wk' := ActStep(s, w, act).1;
    SweepStepIs(s, w, act);
    if IsActorStep(act) {
      var move := StepMoves(s, w, act);
      var t := ActorOf(act).index;
      AdvanceUsesSteps(wk.tasks[t].pc, act, move);
      hide ActStep, ActEnabled, Advances, Books, StepsLeft;
      TasksLeftUpdate(wk.tasks, t, wk'.tasks[t]);
      FinishedHasNoStepsLeft(wk'.tasks[t].pc);
    }
  }

  lemma FinishedHasNoStepsLeft(pc: Pc)
    ensures pc.Finished? ==> StepsLeft(pc) == 0
  {}

  /** A sweep's steps are its tasks' steps, until it returns or dies. */
  lemma SweepStepIs(s: State, w: nat, act: Action)
    requires w in s.workers && s.workers[w].phase.Sweeping? && ActEnabled(s, w, act)
    ensures IsActorStep(act) ==> ActorOf(act).Task? && Runs(s.workers[w], ActorOf(act))
    ensures !IsActorStep(act) ==> !Live(ActStep(s, w, act).1)
  {
    hide InFlight, StepSend, StepExecuteFails, StepRollback, StepCommit, StepEvaluate, StepInsert, PendingInsertOf,
        PendingStampOf;
  }

  function StepsOf(events: seq<Event>, w: nat): nat {
    if events == [] then 0
    else (if events[0].Act? && events[0].w == w then 1 else 0) + StepsOf(events[1..], w)
  }

  /** However other ticks interleave, a sweep takes at most `SweepLeft` more steps. */
  lemma {:induction false} SweepIsBounded(s: State, events: seq<Event>, w: nat)
    requires Legal(s, events) && w in s.workers && (s.workers[w].phase.Sweeping? || !Live(s.workers[w]))
    ensures w in Run(s, events).workers
    ensures StepsOf(events, w) + SweepLeft(Run(s, events).workers[w]) <= SweepLeft(s.workers[w])
    decreases |events|
  {
    if events != [] {
      var e := events[0];
      if e.Act? && e.w == w {
        SweepStepDecreases(s, w, e.action);
        SweepStaysSweep(s, w, e.action);
      }
      SweepIsBounded(Step(s, e), events[1..], w);
    }
  }

  lemma SweepStaysSweep(s: State, w: nat, act: Action)
    requires w in s.workers && s.workers[w].phase.Sweeping? && ActEnabled(s, w, act)
    ensures var wk' := ActStep(s, w, act).1; wk'.phase.Sweeping? || !Live(wk')
  {
    SweepStepIs(s, w, act);
    hide ActStep, ActEnabled, Advances, Books;
    if IsActorStep(act) {
      var move := StepMoves(s, w, act);
    }
  }

  // ---------------------------------------------------------------------------------------
  // No tick is ever stuck
  // ---------------------------------------------------------------------------------------

  /** A step in which nothing fails: no crash, no exception, no failing statement or rollback. */
  predicate Succeeds(act: Action) {
    match act
    case SelectPendingFails => false
    case SelectDueFails => false
    case ExecuteFails(_) => false
    case Crash => false
    case RollbackPass(raises) => !raises
    case Rollback(_, raises) => !raises
    case Commit(_, result) => result.Committed?
    case Evaluate(_, verdict) => verdict.Some?
    case Send(_, accepted) => accepted
    case _ => true
  }

  /** The actor's statement waits for a row or key that the other tick's open transaction holds. */
  ghost predicate HoldsUp(s: State, w: nat, a: Actor, v: nat)
    requires w in s.workers && v in s.workers && Runs(s.workers[w], a)
  {
    var pc := PcOf(s.workers[w], a);
    && v != w
    && ((pc.Inserting? && a.Task? && PendingInsertOf(s.workers[v], s.workers[w].tasks[a.index].key))
        || (pc.Stamping? && PendingStampOf(s.workers[v], pc.id)))
  }

  ghost predicate Waits(s: State, w: nat, v: nat) {
    w in s.workers && v in s.workers && exists a :: Runs(s.workers[w], a) && HoldsUp(s, w, a, v)
  }

  lemma {:induction false} OldestOf(rows: map<nat, Row>, ids: set<nat>) returns (oldest: nat)
    requires ids <= rows.Keys && ids != {}
    ensures oldest in ids && forall id | id in ids :: rows[oldest].created <= rows[id].created
    decreases |ids|
  {
    var id :| id in ids;
    if ids == {id} {
      oldest := id;
    } else {
      assert ids - {id} != {};
      oldest := OldestOf(rows, ids - {id});
      if rows[id].created < rows[oldest].created { oldest := id; }
    }
  }

  lemma {:induction false} OldestFirst(rows: map<nat, Row>, all: set<nat>, limit: nat) returns (ids: seq<nat>)
    requires all <= rows.Keys
    ensures |ids| <= limit && NoDuplicates(ids) && forall id | id in ids :: id in all
    ensures forall i, j | 0 <= i < j < |ids| :: rows[ids[i]].created <= rows[ids[j]].created
    ensures forall id | id in all && id !in ids ::
              |ids| == limit && forall i | 0 <= i < |ids| :: rows[ids[i]].created <= rows[id].created
    decreases limit
  {
    if limit == 0 || all == {} {
      ids := [];
    } else {
      var oldest := OldestOf(rows, all);
      var rest := OldestFirst(rows, all - {oldest}, limit - 1);
      ids := [oldest] + rest;
      assert forall i | 0 <= i < |rest| :: rest[i] in rest;
    }
  }

  /** The retry query always has an answer. */
  lemma QueryAnswers(rows: map<nat, Row>, today: int, limit: nat) returns (ids: seq<nat>)
    ensures OldestPending(rows, today, limit, ids)
  {
    var pending := set id | id in rows && Eligible(rows[id], today);
    ids := OldestFirst(rows, pending, limit);
  }

  lemma SessionUser(db: Db, w: nat, wk: Worker) returns (a: Actor)
    requires WorkerInv(db, w, wk) && wk.session != []
    ensures Live(wk) && Runs(wk, a)
    ensures var pc := PcOf(wk, a); pc.InsertExecuted? || pc.InsertAborted? || pc.StampExecuted? || pc.StampAborted?
  {
    a := if wk.phase.Redelivering? then Redelivery else Task(wk.lock.value);
  }

  /** Whoever has executed a statement can commit it or roll it back, and then holds nothing. */
  lemma HolderCanMove(s: State, v: nat) returns (act: Action)
    requires Inv(s) && v in s.workers && s.workers[v].session != []
    ensures ActEnabled(s, v, act) && Succeeds(act) && (act.Commit? || act.Rollback?)
    ensures Step(s, Act(v, act)).workers[v].session == []
  {
    WorkerOf(s, v);
    hide Inv;
    var a := SessionUser(s.db, v, s.workers[v]);
    hide WorkerInv;
    act := SessionEnds(s, v, a);
  }

  lemma SessionEnds(s: State, v: nat, a: Actor) returns (act: Action)
    requires v in s.workers && Live(s.workers[v]) && Runs(s.workers[v], a)
    requires var pc := PcOf(s.workers[v], a);
             pc.InsertExecuted? || pc.InsertAborted? || pc.StampExecuted? || pc.StampAborted?
    ensures ActEnabled(s, v, act) && Succeeds(act) && (act.Commit? || act.Rollback?)
    ensures Step(s, Act(v, act)).workers[v].session == []
  {
    hide ApplyAll;
    var pc := PcOf(s.workers[v], a);
    act := if pc.InsertExecuted? || pc.StampExecuted? then Commit(a, Committed) else Rollback(a, false);
  }

  /** What a tick can do next, or the tick it waits for. */
  ghost predicate MovesOrWaits(s: State, w: nat, v: nat, act: Action) {
    && w in s.workers && v in s.workers
    && if v == w then ActEnabled(s, w, act) && Succeeds(act) else Waits(s, w, v)
  }

  /** The actor has its statement before it: it can execute it, or waits. */
  lemma StatementStep(s: State, w: nat, a: Actor) returns (v: nat, act: Action)
    requires w in s.workers && Live(s.workers[w]) && Runs(s.workers[w], a)
    requires PcOf(s.workers[w], a).Stamping? || (PcOf(s.workers[w], a).Inserting? && a.Task?)
    ensures MovesOrWaits(s, w, v, act)
  {
    v, act := w, Crash;
    if u :| u in s.workers && HoldsUp(s, w, a, u) {
      v := u;
    } else if PcOf(s.workers[w], a).Stamping? {
      act := ExecuteStamp(a);
      assert forall u | u in s.workers && u != w :: !HoldsUp(s, w, a, u);
    } else {
      act := ExecuteInsert(a.index, 0);
      assert forall u | u in s.workers && u != w :: !HoldsUp(s, w, a, u);
    }
  }

  /** An actor that is in the session. */
  lemma SessionStep(s: State, w: nat, a: Actor) returns (v: nat, act: Action)
    requires w in s.workers && Live(s.workers[w]) && Runs(s.workers[w], a) && InSession(PcOf(s.workers[w], a))
    requires PcOf(s.workers[w], a).Inserting? ==> a.Task?
    ensures MovesOrWaits(s, w, v, act)
  {
    var pc := PcOf(s.workers[w], a);
    if pc.Inserting? || pc.Stamping? {
      v, act := StatementStep(s, w, a);
    } else {
      v := w;
      act := SessionEnds(s, w, a);
    }
  }

  lemma PassStep(s: State, w: nat) returns (v: nat, act: Action)
    requires w in s.workers && s.workers[w].phase.Redelivering?
    requires s.workers[w].phase.pc.Sending? || (InSession(s.workers[w].phase.pc) && !s.workers[w].phase.pc.Inserting?)
    ensures MovesOrWaits(s, w, v, act)
  {
    if s.workers[w].phase.pc.Sending? {
      v, act := w, Send(Redelivery, true);
    } else {
      hide MovesOrWaits;
      v, act := SessionStep(s, w, Redelivery);
    }
  }

  /** A task outside the session, or a whole sweep, always finds something to do. */
  lemma OutsideStep(s: State, w: nat) returns (act: Action)
    requires w in s.workers && s.workers[w].phase.Sweeping? && SweepInv(s.db, w, s.workers[w])
    requires s.workers[w].lock.None?
    ensures ActEnabled(s, w, act) && Succeeds(act)
  {
    var wk := s.workers[w];
    if forall t | 0 <= t < |wk.tasks| :: wk.tasks[t].pc.Finished? {
      act := Return;
    } else if t: nat :| t < |wk.tasks| && Active(wk.tasks[t].pc) {
      var pc := wk.tasks[t].pc;
      act := if pc.Evaluating? then Evaluate(t, Some(Dry))
        else if pc.Sending? then Send(Task(t), true)
        else AcquireLock(t);
    } else {
      NoneActive(wk.tasks);
      var t :| 0 <= t < |wk.tasks| && !wk.tasks[t].pc.Finished?;
      act := AcquirePermit(t);
    }
  }

  lemma NoneActive(tasks: seq<TaskState>)
    requires forall t | 0 <= t < |tasks| :: !Active(tasks[t].pc)
    ensures ActiveCount(tasks) == 0
  {}

  lemma SweepStep(s: State, w: nat) returns (v: nat, act: Action)
    requires w in s.workers && s.workers[w].phase.Sweeping? && SweepInv(s.db, w, s.workers[w])
    ensures MovesOrWaits(s, w, v, act)
  {
    if s.workers[w].lock.Some? {
      hide MovesOrWaits;
      v, act := SessionStep(s, w, Task(s.workers[w].lock.value));
    } else {
      v := w;
      act := OutsideStep(s, w);
    }
  }

  lemma QuietStep(s: State, w: nat) returns (act: Action)
    requires w in s.workers && Live(s.workers[w]) && !s.workers[w].phase.Redelivering? && !s.workers[w].phase.Sweeping?
    ensures ActEnabled(s, w, act) && Succeeds(act)
  {
    if s.workers[w].phase.Selecting? {
      var ids := QueryAnswers(s.db.rows, s.workers[w].today, MAX_REDELIVERIES_PER_TICK);
      act := SelectPending(ids);
    } else {
      act := if s.workers[w].phase.PassAborted? then RollbackPass(false) else SelectDue([]);
    }
  }

  lemma NextStep(s: State, w: nat) returns (v: nat, act: Action)
    requires Inv(s) && w in s.workers && Live(s.workers[w])
    ensures MovesOrWaits(s, w, v, act)
  {
    WorkerOf(s, w);
    hide Inv, MovesOrWaits;
    if s.workers[w].phase.Redelivering? {
      PassPc(s.db, w, s.workers[w]);
      v, act := PassStep(s, w);
    } else if s.workers[w].phase.Sweeping? {
      SessionOfWorker(s.db, w, s.workers[w]);
      v, act := SweepStep(s, w);
    } else {
      act := QuietStep(s, w);
      v := w;
      MovesItself(s, w, act);
    }
  }

  lemma MovesItself(s: State, w: nat, act: Action)
    requires w in s.workers && ActEnabled(s, w, act) && Succeeds(act)
    ensures MovesOrWaits(s, w, w, act)
  {}

  lemma WaitedForHasSession(s: State, w: nat, v: nat)
    requires Waits(s, w, v)
    ensures v in s.workers && v != w && s.workers[v].session != []
  {}

  /**
   A live tick can take a step in which nothing fails; or one of its statements waits for a row
   or key of exactly one other tick's open transaction, and that tick can commit or roll back at
   once, after which it holds nothing any more. So ticks never wait in a circle.
   */
  lemma TickIsNeverStuck(events: seq<Event>, s: State, w: nat) returns (v: nat, act: Action)
    requires After(events, s) && w in s.workers && Live(s.workers[w])
    ensures v in s.workers && ActEnabled(s, v, act) && Succeeds(act)
    ensures v != w ==>
              && Waits(s, w, v) && (act.Commit? || act.Rollback?)
              && Step(s, Act(v, act)).workers[v].session == []
  {
    ReachableInv(events, s);
    hide Inv, Waits;
    v, act := NextStep(s, w);
    if v != w {
      WaitedForHasSession(s, w, v);
      act := HolderCanMove(s, v);
    }
  }

  /** As long as some tick is live, some tick can take a step in which nothing fails. */
  lemma NeverDeadlocked(events: seq<Event>, s: State) returns (v: nat, act: Action)
    requires After(events, s) && exists w :: w in s.workers && Live(s.workers[w])
    ensures v in s.workers && ActEnabled(s, v, act) && Succeeds(act)
  {
    var w :| w in s.workers && Live(s.workers[w]);
    v, act := TickIsNeverStuck(events, s, w);
  }
}
