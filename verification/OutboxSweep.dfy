/**
 What becomes of the alerts a tick selects, over every run: each has a task of its own, a returned
 tick has finished them all, a task fails only by its own doing, and a tick dies only of a crash
 or of a statement outside its tasks.
 */
module OutboxSweep {
  import opened Wrappers
  import opened OutboxTable
  import opened Outbox
  import opened Verdicts
  import opened OutboxInvariant
  import opened OutboxPreservation
  import opened OutboxSteps
  import opened OutboxTheorems
  import opened OutboxProgress

  // ---------------------------------------------------------------------------------------
  // One step
  // ---------------------------------------------------------------------------------------

  /** The task has failed, or is about to roll its statement back. */
  predicate Troubled(pc: Pc) { pc.InsertAborted? || pc.StampAborted? || pc == Finished(Failed) }

  /** The evaluation raised, a statement failed, or a commit did not come back well. */
  predicate Fails(act: Action) {
    act.ExecuteFails? || (act.Evaluate? && act.verdict.None?) || (act.Commit? && !act.result.Committed?)
  }

  predicate Evaluated(pc: Pc) { !pc.Queued? && !pc.Evaluating? }

  /** One step of a task: its key stays, its verdict is the evaluation's, trouble has a cause. */
  predicate TaskMoves(task: TaskState, act: Action, task': TaskState) {
    && task'.key == task.key
    && task'.verdict == (if act.Evaluate? then act.verdict else task.verdict)
    && (Evaluated(task'.pc) ==> Evaluated(task.pc) || act.Evaluate?)
    && (Troubled(task'.pc) ==> Troubled(task.pc) || Fails(act))
  }

  lemma CommitTaskMoves(db: Db, wk: Worker, t: nat, result: CommitResult)
    requires Runs(wk, Task(t)) && (wk.tasks[t].pc.InsertExecuted? || wk.tasks[t].pc.StampExecuted?)
    ensures var wk' := StepCommit(db, wk, Task(t), result).1;
            t < |wk'.tasks| && TaskMoves(wk.tasks[t], Commit(Task(t), result), wk'.tasks[t])
  {
    hide ApplyAll;
  }

  lemma InsertTaskMoves(db: Db, w: nat, wk: Worker, t: nat, created: int)
    requires Runs(wk, Task(t)) && wk.tasks[t].pc.Inserting?
    ensures var wk' := StepInsert(db, w, wk, t, created).1;
            t < |wk'.tasks| && TaskMoves(wk.tasks[t], ExecuteInsert(t, created), wk'.tasks[t])
  {
    hide KeyTaken, PendingInsertOf;
  }

  lemma EvaluateTaskMoves(wk: Worker, t: nat, verdict: Option<Verdict>)
    requires Runs(wk, Task(t)) && wk.tasks[t].pc.Evaluating?
    ensures var wk' := StepEvaluate(wk, t, verdict);
            t < |wk'.tasks| && TaskMoves(wk.tasks[t], Evaluate(t, verdict), wk'.tasks[t])
  {}

  lemma SendTaskMoves(db: Db, wk: Worker, t: nat, accepted: bool)
    requires Runs(wk, Task(t)) && wk.tasks[t].pc.Sending?
    ensures var wk' := StepSend(db, wk, Task(t), accepted).1;
            t < |wk'.tasks| && TaskMoves(wk.tasks[t], Send(Task(t), accepted), wk'.tasks[t])
  {}

  lemma RollbackTaskMoves(wk: Worker, t: nat, raises: bool)
    requires Runs(wk, Task(t)) && (wk.tasks[t].pc.InsertAborted? || wk.tasks[t].pc.StampAborted?)
    ensures var wk' := StepRollback(wk, Task(t), raises);
            t < |wk'.tasks| && TaskMoves(wk.tasks[t], Rollback(Task(t), raises), wk'.tasks[t])
  {}

  lemma FailsTaskMoves(db: Db, wk: Worker, t: nat)
    requires Runs(wk, Task(t)) && (wk.tasks[t].pc.Inserting? || wk.tasks[t].pc.Stamping?)
    ensures var wk' := StepExecuteFails(db, wk, Task(t)).1;
            t < |wk'.tasks| && TaskMoves(wk.tasks[t], ExecuteFails(Task(t)), wk'.tasks[t])
  {}

  lemma TaskStep(s: State, w: nat, act: Action)
    requires w in s.workers && ActEnabled(s, w, act) && IsActorStep(act) && ActorOf(act).Task?
    ensures var t, wk, wk' := ActorOf(act).index, s.workers[w], ActStep(s, w, act).1;
            t < |wk.tasks| && t < |wk'.tasks| && TaskMoves(wk.tasks[t], act, wk'.tasks[t])
  {
    hide ActStep, ActEnabled, StepCommit, StepInsert, StepEvaluate, StepSend, StepRollback, StepExecuteFails;
    ActorStepIs(s, w, act);
    var db, wk := s.db, s.workers[w];
    match act
    case Commit(a, result) => CommitTaskMoves(db, wk, a.index, result);
    case ExecuteInsert(t, created) => InsertTaskMoves(db, w, wk, t, created);
    case Evaluate(t, verdict) => EvaluateTaskMoves(wk, t, verdict);
    case Send(a, accepted) => SendTaskMoves(db, wk, a.index, accepted);
    case Rollback(a, raises) => RollbackTaskMoves(wk, a.index, raises);
    case ExecuteFails(a) => FailsTaskMoves(db, wk, a.index);
    case _ =>
  }

  /** The phases a tick has left behind do not come back, and it dies of a crash or a failing statement. */
  predicate PhaseMoves(phase: Phase, act: Action, phase': Phase) {
    && (phase.Sweeping? ==> phase'.Sweeping? || phase'.Returned? || phase'.Dead?)
    && (phase'.Dead? ==> act.Crash? || act.SelectDueFails? || act == RollbackPass(true))
    && (phase'.Returned? ==> act.Return? && phase.Sweeping?)
    && (phase'.Sweeping? ==> phase.Sweeping? || act.SelectDue?)
    && (!phase'.Selecting? && !phase'.Dead? ==>
          (!phase.Selecting? && !phase.Dead?) || act.SelectPending? || act.SelectPendingFails?)
    && (phase'.PassAborted? ==> act.SelectPendingFails? || act == Rollback(Redelivery, true))
    && (act.SelectPendingFails? || act == Rollback(Redelivery, true) ==> phase'.PassAborted?)
    && (AfterPass(phase') && !AfterPass(phase) ==>
          act.SelectPending? || act == RollbackPass(false) || phase.Redelivering?)
  }

  /** The tick's phase under a step of the tick as a whole; its tasks stay, but for the selection. */
  lemma TickStepMoves(s: State, w: nat, act: Action)
    requires w in s.workers && ActEnabled(s, w, act) && !IsActorStep(act)
    ensures var wk, wk' := s.workers[w], ActStep(s, w, act).1;
            && PhaseMoves(wk.phase, act, wk'.phase)
            && (act.SelectDue? ==>
                  && |wk'.tasks| == |act.keys|
                  && forall i | 0 <= i < |act.keys| ::
                       wk'.tasks[i].key == act.keys[i] && wk'.tasks[i].verdict.None? && wk'.tasks[i].pc.Queued?)
            && (!act.SelectDue? ==> wk'.tasks == wk.tasks)
  {
    hide OldestPending, InFlight;
  }

  lemma PassRollback(s: State, w: nat, raises: bool)
    requires Inv(s) && w in s.workers && ActEnabled(s, w, Rollback(Redelivery, raises))
    ensures ActStep(s, w, Rollback(Redelivery, raises)).1.phase.PassAborted? <==> raises
  {
    hide Inv, WorkerInv;
    WorkerOf(s, w);
    PassPc(s.db, w, s.workers[w]);
  }

  /** A step of the pass that is not a rollback does not abandon it. */
  lemma PassGoesOn(s: State, w: nat, act: Action)
    requires w in s.workers && ActEnabled(s, w, act) && IsActorStep(act) && ActorOf(act).Redelivery? && !act.Rollback?
    ensures !ActStep(s, w, act).1.phase.PassAborted?
  {
    hide ActStep, ActEnabled, ApplyAll;
    ActorStepIs(s, w, act);
  }

  lemma PassStepMoves(s: State, w: nat, act: Action)
    requires Inv(s) && w in s.workers && ActEnabled(s, w, act) && IsActorStep(act) && ActorOf(act).Redelivery?
    ensures PhaseMoves(s.workers[w].phase, act, ActStep(s, w, act).1.phase)
    ensures ActStep(s, w, act).1.tasks == s.workers[w].tasks
  {
    hide Inv, ActStep, ActEnabled, Advances, Books;
    var move := StepMoves(s, w, act);
    if act.Rollback? { PassRollback(s, w, act.raises); } else { PassGoesOn(s, w, act); }
  }

  /** A step of one task leaves the other tasks alone. */
  lemma OneTaskMoves(s: State, w: nat, act: Action)
    requires w in s.workers && ActEnabled(s, w, act) && IsActorStep(act) && ActorOf(act).Task?
    ensures var t, wk, wk' := ActorOf(act).index, s.workers[w], ActStep(s, w, act).1;
            && t < |wk.tasks| == |wk'.tasks| && TaskMoves(wk.tasks[t], act, wk'.tasks[t])
            && (forall u | 0 <= u < |wk.tasks| && u != t :: wk'.tasks[u] == wk.tasks[u])
            && wk.phase.Sweeping? && wk'.phase.Sweeping?
  {
    TaskStep(s, w, act);
    hide ActStep, ActEnabled, Advances, Books, TaskMoves;
    var move := StepMoves(s, w, act);
  }

  lemma PhaseStep(s: State, w: nat, act: Action)
    requires Inv(s) && w in s.workers && ActEnabled(s, w, act)
    ensures PhaseMoves(s.workers[w].phase, act, ActStep(s, w, act).1.phase)
  {
    hide Inv, ActStep, ActEnabled;
    if !IsActorStep(act) {
      TickStepMoves(s, w, act);
    } else if ActorOf(act).Redelivery? {
      PassStepMoves(s, w, act);
    } else {
      OneTaskMoves(s, w, act);
    }
  }

  // ---------------------------------------------------------------------------------------
  // Every selected alert has its task
  // ---------------------------------------------------------------------------------------

  /** The tick is past its selection and has one task for each of these keys, in order. */
  ghost predicate HasTasks(s: State, w: nat, keys: seq<Key>) {
    && w in s.workers
    && var wk := s.workers[w];
       && (wk.phase.Sweeping? || wk.phase.Returned? || wk.phase.Dead?)
       && |wk.tasks| == |keys| && forall i | 0 <= i < |keys| :: wk.tasks[i].key == keys[i]
  }

  lemma SelectionStartsTasks(s: State, w: nat, keys: seq<Key>)
    requires w in s.workers && ActEnabled(s, w, SelectDue(keys))
    ensures HasTasks(Step(s, Act(w, SelectDue(keys))), w, keys)
  {}

  lemma TasksStayStep(s: State, e: Event, w: nat, keys: seq<Key>)
    requires HasTasks(s, w, keys) && Enabled(s, e)
    ensures HasTasks(Step(s, e), w, keys)
  {
    if e.Act? && e.w == w {
      SweepOnly(s, w, e.action);
      hide ActStep, ActEnabled;
      if IsActorStep(e.action) {
        OneTaskMoves(s, w, e.action);
      } else {
        TickStepMoves(s, w, e.action);
      }
    }
  }

  lemma SweepOnly(s: State, w: nat, act: Action)
    requires w in s.workers && ActEnabled(s, w, act)
    requires s.workers[w].phase.Sweeping? || s.workers[w].phase.Returned? || s.workers[w].phase.Dead?
    ensures s.workers[w].phase.Sweeping? && !act.SelectDue? && (IsActorStep(act) ==> ActorOf(act).Task?)
  {
    assert Live(s.workers[w]);
    SweepStepIs(s, w, act);
  }

  lemma {:induction false} TasksStay(s: State, events: seq<Event>, w: nat, keys: seq<Key>)
    requires Legal(s, events) && HasTasks(s, w, keys)
    ensures HasTasks(Run(s, events), w, keys)
    decreases |events|
  {
    if events != [] {
      hide HasTasks, Enabled, Step;
      TasksStayStep(s, events[0], w, keys);
      TasksStay(Step(s, events[0]), events[1..], w, keys);
    }
  }

  lemma {:induction false} SelectedTasks(s: State, events: seq<Event>, w: nat, keys: seq<Key>)
    requires Legal(s, events) && Act(w, SelectDue(keys)) in events
    ensures HasTasks(Run(s, events), w, keys)
    decreases |events|
  {
    hide HasTasks, Step, ActEnabled;
    var next := Step(s, events[0]);
    if events[0] == Act(w, SelectDue(keys)) {
      SelectionStartsTasks(s, w, keys);
      TasksStay(next, events[1..], w, keys);
    } else {
      assert events == [events[0]] + events[1..];
      SelectedTasks(next, events[1..], w, keys);
    }
  }

  /**
   A tick that has selected these alerts and returned has finished one task for each of them, in
   their order, and no other task.
   */
  lemma EverySelectedAlertIsProcessed(events: seq<Event>, s: State, w: nat, keys: seq<Key>)
    requires After(events, s) && Act(w, SelectDue(keys)) in events
    requires w in s.workers && s.workers[w].phase.Returned?
    ensures var tasks := s.workers[w].tasks;
            |tasks| == |keys| && forall i | 0 <= i < |keys| :: tasks[i].key == keys[i] && tasks[i].pc.Finished?
  {
    ReachableInv(events, s);
    SelectedTasks(INIT, events, w, keys);
    WorkerOf(s, w);
    hide Inv;
  }

  // ---------------------------------------------------------------------------------------
  // What a finished task went through
  // ---------------------------------------------------------------------------------------

  /** Task `t` of tick `w` is past its evaluation, which ended so. */
  ghost predicate WasEvaluated(s: State, w: nat, t: nat, verdict: Option<Verdict>) {
    && w in s.workers && t < |s.workers[w].tasks|
    && Evaluated(s.workers[w].tasks[t].pc) && s.workers[w].tasks[t].verdict == verdict
  }

  ghost predicate IsTroubled(s: State, w: nat, t: nat) {
    w in s.workers && t < |s.workers[w].tasks| && Troubled(s.workers[w].tasks[t].pc)
  }

  /** A step other than its own leaves a task as it was, or had it just been queued. */
  lemma OthersLeaveTask(s: State, e: Event, w: nat, t: nat)
    requires Inv(s) && Enabled(s, e)
    requires var s' := Step(s, e); w in s'.workers && t < |s'.workers[w].tasks| && !s'.workers[w].tasks[t].pc.Queued?
    ensures w in s.workers && t < |s.workers[w].tasks|
    ensures var own := e.Act? && e.w == w && IsActorStep(e.action) && ActorOf(e.action) == Task(t);
            if own then TaskMoves(s.workers[w].tasks[t], e.action, Step(s, e).workers[w].tasks[t])
            else Step(s, e).workers[w].tasks[t] == s.workers[w].tasks[t]
  {
    hide Inv;
    if e.Act? && e.w == w {
      hide ActStep, ActEnabled, TaskMoves;
      if !IsActorStep(e.action) {
        TickStepMoves(s, w, e.action);
      } else if ActorOf(e.action).Redelivery? {
        PassStepMoves(s, w, e.action);
      } else {
        OneTaskMoves(s, w, e.action);
      }
    }
  }

  /** A task past its evaluation has an evaluation among the events, with its verdict. */
  lemma {:induction false} EvaluationTraced(s: State, events: seq<Event>, w: nat, t: nat, verdict: Option<Verdict>)
    requires Inv(s) && Legal(s, events) && WasEvaluated(Run(s, events), w, t, verdict)
    ensures WasEvaluated(s, w, t, verdict) || Act(w, Evaluate(t, verdict)) in events
    decreases |events|
  {
    if events != [] {
      hide Inv, Enabled, Step;
      var next := Step(s, events[0]);
      StepKeeps(s, events[0]);
      EvaluationTraced(next, events[1..], w, t, verdict);
      if WasEvaluated(next, w, t, verdict) { OthersLeaveTask(s, events[0], w, t); }
    }
  }

  /** Among the events, the task's evaluation raised, its statement failed, or its commit did not come back well. */
  ghost predicate HasFailed(events: seq<Event>, w: nat, t: nat) {
    || Act(w, Evaluate(t, None)) in events
    || Act(w, ExecuteFails(Task(t))) in events
    || Act(w, Commit(Task(t), Lost)) in events || Act(w, Commit(Task(t), Ambiguous)) in events
  }

  lemma TroubleStep(s: State, e: Event, w: nat, t: nat)
    requires Inv(s) && Enabled(s, e) && IsTroubled(Step(s, e), w, t)
    ensures IsTroubled(s, w, t) || HasFailed([e], w, t)
  {
    hide Inv, Enabled, Step;
    OthersLeaveTask(s, e, w, t);
  }

  lemma FirstStep(s: State, events: seq<Event>)
    requires Legal(s, events) && events != []
    ensures Enabled(s, events[0]) && Legal(Step(s, events[0]), events[1..])
    ensures Run(s, events) == Run(Step(s, events[0]), events[1..])
    ensures events == [events[0]] + events[1..]
  {}

  /** A failed task has a failure of its own among the events. */
  lemma {:induction false} TroubleTraced(s: State, events: seq<Event>, w: nat, t: nat)
    requires Inv(s) && Legal(s, events) && IsTroubled(Run(s, events), w, t)
    ensures IsTroubled(s, w, t) || HasFailed(events, w, t)
    decreases |events|
  {
    if events != [] {
      FirstStep(s, events);
      hide *;
      var next := Step(s, events[0]);
      StepKeeps(s, events[0]);
      TroubleTraced(next, events[1..], w, t);
      if IsTroubled(next, w, t) { TroubleStep(s, events[0], w, t); }
      FailureAmong([events[0]], events[1..], w, t);
    }
  }

  lemma FailureAmong(first: seq<Event>, rest: seq<Event>, w: nat, t: nat)
    ensures HasFailed(first + rest, w, t) <==> HasFailed(first, w, t) || HasFailed(rest, w, t)
  {}

  /**
   Errors stay with their alert: a task of a run fails only if its own evaluation raised, its own
   statement failed or its own commit did not come back well, whatever happens to the other tasks.
   */
  lemma FailureIsItsOwn(events: seq<Event>, s: State, w: nat, t: nat)
    requires After(events, s) && w in s.workers && t < |s.workers[w].tasks|
    requires s.workers[w].tasks[t].pc == Finished(Failed)
    ensures HasFailed(events, w, t)
  {
    InitInv();
    TroubleTraced(INIT, events, w, t);
  }

  /** Rain seen by a task's evaluation is recorded, unless a statement or commit of that very task failed. */
  lemma RainIsRecordedOrFailed(events: seq<Event>, s: State, w: nat, t: nat)
    requires After(events, s) && w in s.workers && t < |s.workers[w].tasks|
    requires s.workers[w].tasks[t].pc.Finished?
    ensures Act(w, Evaluate(t, s.workers[w].tasks[t].verdict)) in events
    ensures s.workers[w].tasks[t].verdict == Some(Rain) ==>
              KeyTaken(s.db.rows, s.workers[w].tasks[t].key) || HasFailed(events, w, t)
  {
    InitInv();
    hide Inv, KeyTaken, Legal, Run, HasFailed;
    EvaluationTraced(INIT, events, w, t, s.workers[w].tasks[t].verdict);
    if s.workers[w].tasks[t].pc.outcome.Failed? {
      FailureIsItsOwn(events, s, w, t);
    } else if s.workers[w].tasks[t].verdict == Some(Rain) {
      RainIsRecorded(events, s, w, t);
    }
  }

  /**
   How a finished task ended, by what its evaluation said: one that raised has failed, one without
   rain was skipped, and one with rain has a row of its own or met an earlier one, or has failed.
   */
  lemma OutcomeFollowsVerdict(events: seq<Event>, s: State, w: nat, t: nat)
    requires After(events, s) && w in s.workers && t < |s.workers[w].tasks|
    requires s.workers[w].tasks[t].pc.Finished?
    ensures var verdict, outcome := s.workers[w].tasks[t].verdict, s.workers[w].tasks[t].pc.outcome;
            match verdict
            case None => outcome == Failed
            case Some(Rain) => outcome.Recorded? || outcome == AlreadyRecorded || outcome == Failed
            case Some(_) => outcome == Skipped
  {
    ReachableInv(events, s);
    TaskOf(s, w, t);
    hide Inv;
  }

  // ---------------------------------------------------------------------------------------
  // The retry pass never blocks the sweep
  // ---------------------------------------------------------------------------------------

  /** The tick crashed, its due query failed, or the rollback after an abandoned pass raised. */
  ghost predicate HasDied(events: seq<Event>, w: nat) {
    Act(w, Crash) in events || Act(w, SelectDueFails) in events || Act(w, RollbackPass(true)) in events
  }

  /** The retry query failed, or the rollback after a failed stamp of the pass raised. */
  ghost predicate HasAbandoned(events: seq<Event>, w: nat) {
    Act(w, SelectPendingFails) in events || Act(w, Rollback(Redelivery, true)) in events
  }

  /** The tick has asked for the rows to retry. */
  ghost predicate HasQueried(events: seq<Event>, w: nat) {
    Act(w, SelectPendingFails) in events || exists ids :: Act(w, SelectPending(ids)) in events
  }

  ghost predicate HasSelected(events: seq<Event>, w: nat) {
    exists keys :: Act(w, SelectDue(keys)) in events
  }

  /** What tick `w` has become in between, and the events that account for it. */
  ghost predicate Follows(wk: Worker, events: seq<Event>, wk': Worker, w: nat) {
    && (wk'.phase.Dead? ==> wk.phase.Dead? || HasDied(events, w))
    && (wk'.aborted ==> wk.aborted || HasAbandoned(events, w))
    && (wk'.phase.Sweeping? || wk'.phase.Returned? ==>
          wk.phase.Sweeping? || wk.phase.Returned? || HasSelected(events, w))
    && (!wk'.phase.Selecting? && !wk'.phase.Dead? ==>
          (!wk.phase.Selecting? && !wk.phase.Dead?) || HasQueried(events, w))
    && (wk'.aborted && AfterPass(wk'.phase) ==>
          (wk.aborted && AfterPass(wk.phase)) || Act(w, RollbackPass(false)) in events)
    && wk'.today == wk.today
  }

  ghost predicate TickFollows(s: State, events: seq<Event>, s': State, w: nat) {
    w in s'.workers ==>
      var wk' := s'.workers[w];
      Follows(if w in s.workers then s.workers[w] else NewWorker(wk'.today), events, wk', w)
  }

  lemma OneStepFollows(wk: Worker, act: Action, wk': Worker, w: nat)
    requires PhaseMoves(wk.phase, act, wk'.phase) && RecordMoves(wk, act, wk')
    requires wk.phase.Selecting? || wk.phase.Redelivering? ==> !wk.aborted
    requires act.SelectPending? ==> wk.phase.Selecting?
    ensures Follows(wk, [Act(w, act)], wk', w)
  {
    assert Act(w, act) in [Act(w, act)];
    assert act.SelectDue? ==> Act(w, SelectDue(act.keys)) in [Act(w, act)];
    assert act.SelectPending? ==> Act(w, SelectPending(act.ids)) in [Act(w, act)];
  }

  lemma TickFollowsOn(s: State, first: seq<Event>, mid: State, rest: seq<Event>, s': State, w: nat)
    requires TickFollows(s, first, mid, w) && TickFollows(mid, rest, s', w)
    requires w in s.workers ==> w in mid.workers
    ensures TickFollows(s, first + rest, s', w)
  {}

  /** The date, the selected rows and the record of an abandoned pass, under a step. */
  predicate RecordMoves(wk: Worker, act: Action, wk': Worker) {
    && wk'.today == wk.today
    && wk'.selected == (if act.SelectPending? then set id | id in act.ids else wk.selected)
    && (wk'.aborted ==> wk.aborted || act.SelectPendingFails? || act == Rollback(Redelivery, true))
  }

  lemma ActorRecord(s: State, w: nat, act: Action)
    requires w in s.workers && ActEnabled(s, w, act) && IsActorStep(act)
    ensures var wk, wk' := s.workers[w], ActStep(s, w, act).1;
            && wk'.today == wk.today && wk'.selected == wk.selected
            && (wk'.aborted ==> wk.aborted || wk'.phase.PassAborted?)
  {
    hide ActStep, ActEnabled, ApplyAll, KeyTaken, PendingInsertOf;
    ActorStepIs(s, w, act);
  }

  lemma RecordStep(s: State, w: nat, act: Action)
    requires Inv(s) && w in s.workers && ActEnabled(s, w, act)
    ensures RecordMoves(s.workers[w], act, ActStep(s, w, act).1)
  {
    if IsActorStep(act) {
      ActorRecord(s, w, act);
      hide Inv, ActStep, ActEnabled;
      PhaseStep(s, w, act);
    } else {
      hide Inv, OldestPending, InFlight;
    }
  }

  lemma StepFollows(s: State, e: Event, w: nat)
    requires Inv(s) && Enabled(s, e)
    ensures TickFollows(s, [e], Step(s, e), w)
    ensures w in s.workers ==> w in Step(s, e).workers
  {
    hide Inv, ActStep, ActEnabled;
    if e.Act? && e.w == w {
      PhaseStep(s, w, e.action);
      RecordStep(s, w, e.action);
      SelectsOnce(s, w, e.action);
      WorkerOf(s, w);
      NotAbandonedYet(s.db, w, s.workers[w]);
      hide WorkerInv, PhaseMoves, RecordMoves, Follows;
      OneStepFollows(s.workers[w], e.action, Step(s, e).workers[w], w);
    }
  }

  lemma {:induction false} RunFollows(s: State, events: seq<Event>, w: nat)
    requires Inv(s) && Legal(s, events)
    ensures TickFollows(s, events, Run(s, events), w)
    decreases |events|
  {
    if events == [] {
      hide Inv;
    } else {
      hide Inv, Enabled, Step, TickFollows;
      var next := Step(s, events[0]);
      StepFollows(s, events[0], w);
      StepKeeps(s, events[0]);
      RunFollows(next, events[1..], w);
      TickFollowsOn(s, [events[0]], next, events[1..], Run(s, events), w);
      assert events == [events[0]] + events[1..];
    }
  }

  /**
   A failed retry never blocks the sweep. A tick dies only if it crashed, its due query failed or
   the rollback after an abandoned pass raised; and whatever its pass met, a tick that reached its
   sweep had asked for rows to retry first, and had rolled the session back if it abandoned the pass.
   */
  lemma OnlyCrashesKill(events: seq<Event>, s: State, w: nat)
    requires After(events, s) && w in s.workers
    ensures s.workers[w].phase.Dead? ==> HasDied(events, w)
    ensures s.workers[w].phase.Sweeping? || s.workers[w].phase.Returned? ==>
              HasQueried(events, w) && HasSelected(events, w)
    ensures s.workers[w].aborted ==> HasAbandoned(events, w)
    ensures s.workers[w].aborted && AfterPass(s.workers[w].phase) ==> Act(w, RollbackPass(false)) in events
  {
    InitInv();
    hide Inv, HasDied, HasQueried, HasSelected, HasAbandoned;
    RunFollows(INIT, events, w);
  }

  // ---------------------------------------------------------------------------------------
  // The pass, told by its query
  // ---------------------------------------------------------------------------------------

  /** The tick is past its retry query, which answered these rows, and its pass was not abandoned. */
  predicate HoldsRows(wk: Worker, ids: seq<nat>) {
    !wk.phase.Selecting? && !wk.aborted && wk.selected == (set id | id in ids)
  }

  ghost predicate HasRows(s: State, w: nat, ids: seq<nat>) { w in s.workers && HoldsRows(s.workers[w], ids) }

  lemma RecordKeepsRows(wk: Worker, act: Action, wk': Worker, ids: seq<nat>)
    requires RecordMoves(wk, act, wk') && !wk'.phase.Selecting? && act != Rollback(Redelivery, true)
    requires act.SelectPending? || act.SelectPendingFails? ==> wk.phase.Selecting? && !wk.aborted
    requires HoldsRows(wk, ids) || act == SelectPending(ids)
    ensures HoldsRows(wk', ids)
  {}

  lemma RowsStayStep(s: State, e: Event, w: nat, ids: seq<nat>)
    requires Inv(s) && Enabled(s, e) && e != Act(w, Rollback(Redelivery, true))
    requires HasRows(s, w, ids) || e == Act(w, SelectPending(ids))
    ensures HasRows(Step(s, e), w, ids)
  {
    hide Inv, ActStep, ActEnabled, HoldsRows, RecordMoves;
    if e.Act? && e.w == w {
      RecordStep(s, w, e.action);
      SelectsOnce(s, w, e.action);
      RecordKeepsRows(s.workers[w], e.action, ActStep(s, w, e.action).1, ids);
    }
  }

  lemma SelectsOnce(s: State, w: nat, act: Action)
    requires Inv(s) && w in s.workers && ActEnabled(s, w, act)
    ensures !ActStep(s, w, act).1.phase.Selecting?
    ensures act.SelectPending? || act.SelectPendingFails? ==> s.workers[w].phase.Selecting? && !s.workers[w].aborted
  {
    hide *;
    WorkerOf(s, w);
    NeverSelectsAgain(s, w, act);
    NotAbandonedYet(s.db, w, s.workers[w]);
  }

  lemma NotAbandonedYet(db: Db, w: nat, wk: Worker)
    requires WorkerInv(db, w, wk)
    ensures wk.phase.Selecting? || wk.phase.Redelivering? ==> !wk.aborted
  {
    hide AttemptsInv, TaskInv, SweepInv;
  }

  lemma NeverSelectsAgain(s: State, w: nat, act: Action)
    requires w in s.workers && ActEnabled(s, w, act)
    ensures !ActStep(s, w, act).1.phase.Selecting?
    ensures act.SelectPending? || act.SelectPendingFails? ==> s.workers[w].phase.Selecting?
  {
    hide OldestPending, InFlight;
    if IsActorStep(act) {
      hide ActStep, ActEnabled, Advances, Books;
      var move := StepMoves(s, w, act);
    }
  }

  lemma {:induction false} RowsStay(s: State, events: seq<Event>, w: nat, ids: seq<nat>)
    requires Inv(s) && Legal(s, events) && Act(w, Rollback(Redelivery, true)) !in events
    requires HasRows(s, w, ids) || Act(w, SelectPending(ids)) in events
    ensures HasRows(Run(s, events), w, ids)
    decreases |events|
  {
    if events != [] {
      FirstStep(s, events);
      hide *;
      if HasRows(s, w, ids) || events[0] == Act(w, SelectPending(ids)) { RowsStayStep(s, events[0], w, ids); }
      StepKeeps(s, events[0]);
      RowsStay(Step(s, events[0]), events[1..], w, ids);
    }
  }

  /**
   Every row the retry query answered has been handed to the channel exactly once when the tick goes
   on to its sweep, unless a rollback after a failed stamp of one of these rows raised.
   */
  lemma PassHandsOverItsQuery(events: seq<Event>, s: State, w: nat, ids: seq<nat>)
    requires After(events, s) && Act(w, SelectPending(ids)) in events
    requires Act(w, Rollback(Redelivery, true)) !in events
    requires w in s.workers && AfterPass(s.workers[w].phase)
    ensures forall id | id in ids :: s.workers[w].attempts[id] == 1
  {
    InitInv();
    hide Inv, Legal, Run;
    RowsStay(INIT, events, w, ids);
    forall id | id in ids
      ensures s.workers[w].attempts[id] == 1
    {
      PassHandsOverAll(events, s, w, id);
    }
  }

  /**
   The pass takes the oldest row first: none of the rows its query answered that still wait for their
   send is older than the row it is at.
   */
  lemma OldestIsSentFirst(events: seq<Event>, s: State, w: nat, ids: seq<nat>, id: nat)
    requires After(events, s) && Act(w, SelectPending(ids)) in events
    requires Act(w, Rollback(Redelivery, true)) !in events
    requires w in s.workers && s.workers[w].phase.Redelivering?
    requires id in ids && s.workers[w].attempts[id] == 0
    ensures var at := s.workers[w].phase.pc;
            && (at.Sending? || at.Stamping? || at.StampExecuted? || at.StampAborted?) && at.id in ids
            && at.id in s.db.rows && id in s.db.rows && s.db.rows[at.id].created <= s.db.rows[id].created
  {
    hide *;
    ReachableInv(events, s);
    SelectedRows(events, s, w, ids);
    WorkerOf(s, w);
    PassParts(s.db, w, s.workers[w]);
    OldestAhead(s.db, w, s.workers[w], id);
  }

  lemma SelectedRows(events: seq<Event>, s: State, w: nat, ids: seq<nat>)
    requires After(events, s) && Act(w, SelectPending(ids)) in events && Act(w, Rollback(Redelivery, true)) !in events
    ensures w in s.workers && s.workers[w].selected == set id | id in ids
  {
    InitInv();
    hide Inv, Legal, Run;
    RowsStay(INIT, events, w, ids);
  }

  lemma OldestAhead(db: Db, w: nat, wk: Worker, id: nat)
    requires wk.phase.Redelivering? && RedeliveryInv(db, w, wk) && id in wk.selected && id !in wk.attempts
    ensures var at := wk.phase.pc;
            && (at.Sending? || at.Stamping? || at.StampExecuted? || at.StampAborted?) && at.id in wk.selected
            && at.id in db.rows && id in db.rows && db.rows[at.id].created <= db.rows[id].created
  {
    hide SessionFits;
    var order := [wk.phase.pc.id] + wk.phase.queue;
    assert id in order;
    var i :| 0 <= i < |order| && order[i] == id;
    assert order[0] == wk.phase.pc.id;
  }

  /** A row is sent only by ticks dated on or before its departure day: a stale warning never goes out. */
  lemma NothingStaleIsSent(events: seq<Event>, s: State, w: nat, id: nat)
    requires After(events, s) && w in s.workers && s.workers[w].attempts[id] > 0
    ensures id in s.db.rows && s.workers[w].today <= s.db.rows[id].key.date
  {
    ReachableInv(events, s);
    WorkerOf(s, w);
    hide Inv;
  }

  // ---------------------------------------------------------------------------------------
  // Open transactions
  // ---------------------------------------------------------------------------------------

  /** The tick's open transaction holds this stamp. */
  predicate HoldsStamp(wk: Worker, id: nat) { exists o :: o in wk.session && o.write == Stamp(id) }

  /** A step leaves the session, empties it, or adds the statement that was executed. */
  ghost predicate SessionMoves(s: State, w: nat, act: Action, wk': Worker)
    requires w in s.workers
  {
    var wk := s.workers[w];
    || wk'.session == wk.session || wk'.session == []
    || (exists o :: wk'.session == wk.session + [o] && o.write.Insert?)
    || (exists o :: wk'.session == wk.session + [o] && o.write.Stamp?
          && forall v | v in s.workers && v != w :: !HoldsStamp(s.workers[v], o.write.id))
  }

  lemma InsertSession(s: State, w: nat, wk: Worker, t: nat, created: int)
    requires w in s.workers && wk == s.workers[w] && Runs(wk, Task(t)) && wk.tasks[t].pc.Inserting?
    ensures SessionMoves(s, w, ExecuteInsert(t, created), StepInsert(s.db, w, wk, t, created).1)
  {
    hide KeyTaken, PendingInsertOf, HoldsStamp;
    var o := Owned(Task(t), Insert(s.db.nextId, Row(wk.tasks[t].key, created, false)));
    assert o.write.Insert?;
  }

  lemma HoldsStampIs(wk: Worker, id: nat)
    ensures HoldsStamp(wk, id) <==> PendingStampOf(wk, id)
  {
    if o :| o in wk.session && o.write == Stamp(id) {
      var i :| 0 <= i < |wk.session| && wk.session[i] == o;
    }
  }

  lemma StampSession(s: State, w: nat, a: Actor)
    requires w in s.workers && ActEnabled(s, w, ExecuteStamp(a))
    ensures SessionMoves(s, w, ExecuteStamp(a), ActStep(s, w, ExecuteStamp(a)).1)
  {
    ActorStepIs(s, w, ExecuteStamp(a));
    var id := PcOf(s.workers[w], a).id;
    forall v | v in s.workers && v != w
      ensures !HoldsStamp(s.workers[v], id)
    {
      HoldsStampIs(s.workers[v], id);
    }
    hide ActStep, ActEnabled, HoldsStamp, PendingStampOf;
    assert Owned(a, Stamp(id)).write.Stamp?;
  }

  lemma SessionStep(s: State, w: nat, act: Action)
    requires w in s.workers && ActEnabled(s, w, act)
    ensures SessionMoves(s, w, act, ActStep(s, w, act).1)
  {
    if act.ExecuteStamp? {
      hide *;
      StampSession(s, w, act.actor);
    } else if act.ExecuteInsert? {
      hide ActStep, ActEnabled, SessionMoves, StepInsert;
      ActorStepIs(s, w, act);
      InsertSession(s, w, s.workers[w], act.t, act.created);
    } else if IsActorStep(act) {
      hide ActStep, ActEnabled, ApplyAll, HoldsStamp;
      ActorStepIs(s, w, act);
    } else {
      hide OldestPending, InFlight, HoldsStamp;
    }
  }

  ghost predicate StampsApart(s: State) {
    forall v, w, id: nat |
      v in s.workers && w in s.workers && HoldsStamp(s.workers[v], id) && HoldsStamp(s.workers[w], id) :: v == w
  }

  lemma StampsStayApart(s: State, e: Event)
    requires StampsApart(s) && Enabled(s, e)
    ensures StampsApart(Step(s, e))
  {
    match e
    case StartTick(w, today) =>
      assert forall id :: !HoldsStamp(NewWorker(today), id);
    case Act(w, act) =>
      SessionStep(s, w, act);
      hide ActStep, ActEnabled;
      NewStampIsApart(s, w, act, ActStep(s, w, act).1);
  }

  lemma NewStampIsApart(s: State, w: nat, act: Action, wk': Worker)
    requires StampsApart(s) && w in s.workers && SessionMoves(s, w, act, wk')
    ensures forall v, id | v in s.workers && v != w && HoldsStamp(s.workers[v], id) :: !HoldsStamp(wk', id)
  {}

  lemma {:induction false} RunKeepsStampsApart(s: State, events: seq<Event>)
    requires StampsApart(s) && Legal(s, events)
    ensures StampsApart(Run(s, events))
    decreases |events|
  {
    if events != [] {
      FirstStep(s, events);
      hide *;
      StampsStayApart(s, events[0]);
      RunKeepsStampsApart(Step(s, events[0]), events[1..]);
    }
  }

  /** Two ticks never have the same row's stamp in their open transactions. */
  lemma RowLocksExclude(events: seq<Event>, s: State, v: nat, w: nat, id: nat)
    requires After(events, s) && v in s.workers && w in s.workers && v != w
    ensures !(HoldsStamp(s.workers[v], id) && HoldsStamp(s.workers[w], id))
  {
    hide HoldsStamp, Legal, Run;
    RunKeepsStampsApart(INIT, events);
  }

  // ---------------------------------------------------------------------------------------
  // What may happen
  // ---------------------------------------------------------------------------------------

  /** Nothing is taken for granted of a tick as a whole: each of its queries and rollbacks may fail, and it may die. */
  lemma TickMayFail(s: State, w: nat)
    requires w in s.workers && Live(s.workers[w])
    ensures ActEnabled(s, w, Crash)
    ensures s.workers[w].phase.Selecting? ==>
              && ActEnabled(s, w, SelectPendingFails)
              && forall ids | OldestPending(s.db.rows, s.workers[w].today, 50, ids) ::
                   ActEnabled(s, w, SelectPending(ids))
    ensures s.workers[w].phase.PassAborted? ==>
              forall raises :: ActEnabled(s, w, RollbackPass(raises))
    ensures s.workers[w].phase.SelectingDue? ==>
              && ActEnabled(s, w, SelectDueFails)
              && forall keys: seq<Key> | forall key | key in keys :: 0 <= key.date - s.workers[w].today <= 1 ::
                   ActEnabled(s, w, SelectDue(keys))
  {
    hide OldestPending;
  }

  /** Nor of its actors: an evaluation may say anything, any statement, commit, rollback or send may fail. */
  lemma ActorMayFail(s: State, w: nat, a: Actor)
    requires w in s.workers && Live(s.workers[w]) && Runs(s.workers[w], a)
    ensures var pc := PcOf(s.workers[w], a);
            && (pc.Evaluating? && a.Task? ==> forall verdict :: ActEnabled(s, w, Evaluate(a.index, verdict)))
            && (pc.Inserting? || pc.Stamping? ==> ActEnabled(s, w, ExecuteFails(a)))
            && (pc.InsertExecuted? || pc.StampExecuted? ==> forall result :: ActEnabled(s, w, Commit(a, result)))
            && (pc.InsertAborted? || pc.StampAborted? ==> forall raises :: ActEnabled(s, w, Rollback(a, raises)))
            && (pc.Sending? ==> forall accepted :: ActEnabled(s, w, Send(a, accepted)))
  {}

  // ---------------------------------------------------------------------------------------
  // What a tick has sent it returns
  // ---------------------------------------------------------------------------------------

  /** The actor has handed its row over: it is on the way to the stamp, or has returned the row. */
  predicate Carrying(pc: Pc, id: nat) {
    || pc == AwaitStamp(id) || pc == Stamping(id) || pc == StampExecuted(id) || pc == StampAborted(id)
    || pc == Finished(Recorded(id))
  }

  /** One step of a task that handed its row over, or is about to. */
  predicate CarryMoves(pc: Pc, act: Action, pc': Pc, id: nat) {
    (Carrying(pc, id) && !(act.Rollback? && act.raises)) || (pc == Sending(id) && act.Send?) ==> Carrying(pc', id)
  }

  lemma CommitCarries(db: Db, wk: Worker, t: nat, result: CommitResult, id: nat)
    requires Runs(wk, Task(t)) && (wk.tasks[t].pc.InsertExecuted? || wk.tasks[t].pc.StampExecuted?)
    ensures var wk' := StepCommit(db, wk, Task(t), result).1;
            t < |wk'.tasks| && CarryMoves(wk.tasks[t].pc, Commit(Task(t), result), wk'.tasks[t].pc, id)
  {
    hide ApplyAll;
  }

  lemma RollbackCarries(wk: Worker, t: nat, raises: bool, id: nat)
    requires Runs(wk, Task(t)) && (wk.tasks[t].pc.InsertAborted? || wk.tasks[t].pc.StampAborted?)
    ensures var wk' := StepRollback(wk, Task(t), raises);
            t < |wk'.tasks| && CarryMoves(wk.tasks[t].pc, Rollback(Task(t), raises), wk'.tasks[t].pc, id)
  {}

  lemma SendCarries(db: Db, wk: Worker, t: nat, accepted: bool, id: nat)
    requires Runs(wk, Task(t)) && wk.tasks[t].pc.Sending?
    ensures var wk' := StepSend(db, wk, Task(t), accepted).1;
            t < |wk'.tasks| && CarryMoves(wk.tasks[t].pc, Send(Task(t), accepted), wk'.tasks[t].pc, id)
  {}

  lemma FailsCarries(db: Db, wk: Worker, t: nat, id: nat)
    requires Runs(wk, Task(t)) && (wk.tasks[t].pc.Inserting? || wk.tasks[t].pc.Stamping?)
    ensures var wk' := StepExecuteFails(db, wk, Task(t)).1;
            t < |wk'.tasks| && CarryMoves(wk.tasks[t].pc, ExecuteFails(Task(t)), wk'.tasks[t].pc, id)
  {}

  lemma StepCarries(s: State, w: nat, act: Action, id: nat)
    requires w in s.workers && ActEnabled(s, w, act) && IsActorStep(act) && ActorOf(act).Task?
    ensures var t, wk, wk' := ActorOf(act).index, s.workers[w], ActStep(s, w, act).1;
            t < |wk.tasks| && t < |wk'.tasks| && CarryMoves(wk.tasks[t].pc, act, wk'.tasks[t].pc, id)
  {
    hide ActStep, ActEnabled, StepCommit, StepInsert, StepEvaluate, StepSend, StepRollback, StepExecuteFails;
    ActorStepIs(s, w, act);
    var db, wk := s.db, s.workers[w];
    OneTaskMoves(s, w, act);
    match act
    case Commit(a, result) => CommitCarries(db, wk, a.index, result, id);
    case Send(a, accepted) => SendCarries(db, wk, a.index, accepted, id);
    case Rollback(a, raises) => RollbackCarries(wk, a.index, raises, id);
    case ExecuteFails(a) => FailsCarries(db, wk, a.index, id);
    case _ =>
  }

  /** What a step adds to the rows handed over: the row of the actor that sends. */
  lemma AttemptsOf(s: State, w: nat, act: Action)
    requires w in s.workers && ActEnabled(s, w, act)
    ensures var wk, wk' := s.workers[w], ActStep(s, w, act).1;
            if act.Send? then
              Runs(wk, act.actor) && PcOf(wk, act.actor).Sending?
                  && wk'.attempts == wk.attempts + multiset{PcOf(wk, act.actor).id}
            else wk'.attempts == wk.attempts
  {
    if IsActorStep(act) {
      hide ActStep, ActEnabled, ApplyAll, KeyTaken, PendingInsertOf;
      ActorStepIs(s, w, act);
    } else {
      hide OldestPending, InFlight;
    }
  }

  /** The creators known so far stay; a new id is larger than any committed one. */
  lemma CreatorsOf(s: State, w: nat, act: Action)
    requires w in s.workers && ActEnabled(s, w, act)
    ensures var db, db' := s.db, ActStep(s, w, act).0;
            forall id | id in db'.creator && id != db.nextId :: id in db.creator && db'.creator[id] == db.creator[id]
  {
    if IsActorStep(act) {
      hide ActStep, ActEnabled, ApplyAll, KeyTaken, PendingInsertOf;
      ActorStepIs(s, w, act);
    } else {
      hide OldestPending, InFlight;
    }
  }

  /** If task `t` of the tick created the row and the tick handed it over, the task carries it. */
  ghost predicate CarriesSent(s: State, w: nat, t: nat, id: nat) {
    w in s.workers && id in s.db.creator && s.db.creator[id] == (w, t) && id in s.workers[w].attempts ==>
      t < |s.workers[w].tasks| && Carrying(s.workers[w].tasks[t].pc, id)
  }

  /** Who created the row that an actor is about to send. */
  lemma SenderCreated(s: State, w: nat, a: Actor)
    requires Inv(s) && w in s.workers && Runs(s.workers[w], a) && PcOf(s.workers[w], a).Sending?
    ensures var id := PcOf(s.workers[w], a).id;
            && id in s.db.creator
            && if a.Task? then s.db.creator[id] == (w, a.index) else s.db.creator[id].0 != w
  {
    WorkerOf(s, w);
    if a.Task? { TaskOf(s, w, a.index); } else { PassParts(s.db, w, s.workers[w]); }
    hide Inv, WorkerInv, SweepInv, SessionFits;
  }

  /** Rows handed over are committed, hence older than any id still to come. */
  lemma SentIsOld(s: State, w: nat, id: nat)
    requires Inv(s) && w in s.workers && id in s.workers[w].attempts
    ensures id in s.db.creator && id < s.db.nextId
  {
    WorkerOf(s, w);
    GlobalOf(s);
    hide Inv, PendingInv, OriginInv;
    AttemptedAreCurrent(s.db, w, s.workers[w]);
  }

  /** The task that created the row has just sent it, or the row had been handed over before. */
  lemma SentBefore(s: State, w: nat, act: Action, t: nat, id: nat)
    requires Inv(s) && w in s.workers && ActEnabled(s, w, act)
    requires var (db', wk') := ActStep(s, w, act);
             id in db'.creator && db'.creator[id] == (w, t) && id in wk'.attempts
    ensures id in s.db.creator && s.db.creator[id] == (w, t)
    ensures || id in s.workers[w].attempts
            || (act.Send? && act.actor == Task(t) && Runs(s.workers[w], Task(t))
                && s.workers[w].tasks[t].pc == Sending(id))
  {
    hide Inv, ActStep, ActEnabled;
    AttemptsOf(s, w, act);
    CreatorsOf(s, w, act);
    GlobalOf(s);
    if id in s.workers[w].attempts {
      SentIsOld(s, w, id);
    } else {
      SenderCreated(s, w, act.actor);
    }
  }

  /** A step of the tick does not drop what its task carries. */
  lemma TaskKeepsCarrying(s: State, w: nat, act: Action, t: nat, id: nat)
    requires w in s.workers && Live(s.workers[w]) && ActEnabled(s, w, act) && t < |s.workers[w].tasks|
    requires s.workers[w].phase.Sweeping? && act != Rollback(Task(t), true)
    requires || Carrying(s.workers[w].tasks[t].pc, id)
             || (act.Send? && act.actor == Task(t) && s.workers[w].tasks[t].pc == Sending(id))
    ensures var wk' := ActStep(s, w, act).1; t < |wk'.tasks| && Carrying(wk'.tasks[t].pc, id)
  {
    SweepOnly(s, w, act);
    hide ActStep, ActEnabled;
    if !IsActorStep(act) {
      TickStepMoves(s, w, act);
    } else {
      OneTaskMoves(s, w, act);
      StepCarries(s, w, act, id);
    }
  }

  lemma HasTaskSweeps(s: State, w: nat, t: nat)
    requires Inv(s) && w in s.workers && Live(s.workers[w]) && t < |s.workers[w].tasks|
    ensures s.workers[w].phase.Sweeping?
  {
    WorkerOf(s, w);
    hide Inv, AttemptsInv, TaskInv, RedeliveryInv, SweepInv;
  }

  lemma SentStep(s: State, e: Event, w: nat, t: nat, id: nat)
    requires Inv(s) && Enabled(s, e) && e != Act(w, Rollback(Task(t), true)) && CarriesSent(s, w, t, id)
    ensures CarriesSent(Step(s, e), w, t, id)
  {
    hide Inv, ActStep, ActEnabled;
    if e.Act? && e.w == w {
      var (db', wk') := ActStep(s, w, e.action);
      if id in db'.creator && db'.creator[id] == (w, t) && id in wk'.attempts {
        SentBefore(s, w, e.action, t, id);
        EnabledIsLive(s, w, e.action);
        HasTaskSweeps(s, w, t);
        TaskKeepsCarrying(s, w, e.action, t, id);
      }
    } else if e.Act? && w in s.workers && id in s.workers[w].attempts {
      CreatorsOf(s, e.w, e.action);
      SentIsOld(s, w, id);
    }
  }

  lemma EnabledIsLive(s: State, w: nat, act: Action)
    requires w in s.workers && ActEnabled(s, w, act)
    ensures Live(s.workers[w])
  {}

  lemma {:induction false} RunCarries(s: State, events: seq<Event>, w: nat, t: nat, id: nat)
    requires Inv(s) && Legal(s, events) && Act(w, Rollback(Task(t), true)) !in events && CarriesSent(s, w, t, id)
    ensures CarriesSent(Run(s, events), w, t, id)
    decreases |events|
  {
    if events != [] {
      FirstStep(s, events);
      hide *;
      SentStep(s, events[0], w, t, id);
      StepKeeps(s, events[0]);
      RunCarries(Step(s, events[0]), events[1..], w, t, id);
    }
  }

  /**
   A task that has handed the row it created to the channel returns that row when it finishes,
   whatever became of the send and of the stamp, unless the rollback of its stamp raised.
   */
  lemma SentIsReturned(events: seq<Event>, s: State, w: nat, t: nat, id: nat)
    requires After(events, s) && Act(w, Rollback(Task(t), true)) !in events
    requires w in s.workers && t < |s.workers[w].tasks| && s.workers[w].tasks[t].pc.Finished?
    requires id in s.db.creator && s.db.creator[id] == (w, t) && s.workers[w].attempts[id] > 0
    ensures Returns(s, w, t, id)
  {
    InitInv();
    hide Inv, Legal, Run;
    RunCarries(INIT, events, w, t, id);
  }
}
