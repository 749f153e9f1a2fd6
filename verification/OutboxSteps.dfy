/** What one step does to the actor that takes it, to its tick and to the books, and nothing else. */
module OutboxSteps {
  import opened Wrappers
  import opened OutboxTable
  import opened Outbox
  import opened Verdicts

  /** Steps of the redelivery pass or of one task, as opposed to those of the tick as a whole. */
  predicate IsActorStep(act: Action) {
    || act.AcquirePermit? || act.Evaluate? || act.AcquireLock? || act.ExecuteInsert? || act.ExecuteStamp?
    || act.ExecuteFails? || act.Commit? || act.Rollback? || act.Send?
  }

  function ActorOf(act: Action): Actor
    requires IsActorStep(act)
  {
    match act
    case AcquirePermit(t) => Task(t)
    case Evaluate(t, _) => Task(t)
    case AcquireLock(t) => Task(t)
    case ExecuteInsert(t, _) => Task(t)
    case ExecuteStamp(a) => a
    case ExecuteFails(a) => a
    case Commit(a, _) => a
    case Rollback(a, _) => a
    case Send(a, _) => a
  }

  /** Only the actor's own place in its tick differs. */
  ghost predicate OnlyActor(wk: Worker, wk1: Worker, a: Actor) {
    && Runs(wk, a) && wk1.phase == wk.phase
    && match a
       case Redelivery => wk1.tasks == wk.tasks
       case Task(t) =>
         && |wk1.tasks| == |wk.tasks| && wk1.tasks == wk.tasks[t := wk1.tasks[t]]
         && wk1.tasks[t].key == wk.tasks[t].key
  }

  /** Where an actor goes: to another place with its row, or on, leaving its row behind. */
  ghost predicate MovesTo(wk: Worker, wk': Worker, a: Actor, move: Option<Pc>) {
    && Runs(wk, a)
    && match a
       case Redelivery =>
         && wk'.tasks == wk.tasks
         && (if move.Some? then wk'.phase == Redelivering(move.value, wk.phase.queue)
             else wk'.phase == PassAborted || wk'.phase == NextDelivery(wk.phase.queue))
       case Task(t) =>
         && wk'.phase.Sweeping? && |wk'.tasks| == |wk.tasks| && wk'.tasks == wk.tasks[t := wk'.tasks[t]]
         && wk'.tasks[t].key == wk.tasks[t].key
         && (if move.Some? then wk'.tasks[t].pc == move.value else wk'.tasks[t].pc.Finished?)
  }

  /** The places an action leads from and to. */
  predicate Advances(pc: Pc, act: Action, move: Option<Pc>) {
    match act
    case AcquirePermit(_) => pc.Queued? && move == Some(Evaluating)
    case Evaluate(_, verdict) => pc.Evaluating? && move == if verdict == Some(Rain) then Some(AwaitInsert) else None
    case AcquireLock(_) =>
      || (pc.AwaitInsert? && move == Some(Inserting))
      || (pc.AwaitStamp? && move == Some(Stamping(pc.id)))
    case ExecuteInsert(_, _) => pc.Inserting? && move.Some? && move.value.InsertExecuted?
    case ExecuteStamp(_) => pc.Stamping? && move == Some(StampExecuted(pc.id))
    case ExecuteFails(_) =>
      || (pc.Inserting? && move == Some(InsertAborted))
      || (pc.Stamping? && move == Some(StampAborted(pc.id)))
    case Commit(_, Committed) =>
      || (pc.InsertExecuted? && move == if pc.hit.Some? then Some(Sending(pc.hit.value)) else None)
      || (pc.StampExecuted? && move == None)
    case Commit(_, _) =>
      || (pc.InsertExecuted? && move == Some(InsertAborted))
      || (pc.StampExecuted? && move == Some(StampAborted(pc.id)))
    case Rollback(_, _) => (pc.InsertAborted? || pc.StampAborted?) && move == None
    case Send(a, true) => pc.Sending? && move == Some(if a.Redelivery? then Stamping(pc.id) else AwaitStamp(pc.id))
    case Send(_, false) => pc.Sending? && move == None
    case _ => false
  }

  /** The row whose stamp the action loses. */
  predicate LosesStamp(pc: Pc, act: Action) {
    (act.ExecuteFails? && pc.Stamping?) || (act.Commit? && !act.result.Committed? && pc.StampExecuted?)
  }

  /** The committed rows and the two books after an actor's step. */
  ghost predicate Books(db: Db, db': Db, wk: Worker, pc: Pc, act: Action) {
    && db'.rows == (if act.Commit? && !act.result.Lost? then ApplyAll(db.rows, wk.session) else db.rows)
    && db'.accepted == (if pc.Sending? && act.Send? && act.accepted then db.accepted + multiset{pc.id} else db.accepted)
    && db'.stampFailures
       == (if (pc.Stamping? || pc.StampExecuted?) && LosesStamp(pc, act) then db.stampFailures + multiset{pc.id}
           else db.stampFailures)
  }

  // ---------------------------------------------------------------------------------------
  // The building blocks of the steps
  // ---------------------------------------------------------------------------------------

  lemma WithPcMoves(wk: Worker, wk1: Worker, a: Actor, pc: Pc)
    requires OnlyActor(wk, wk1, a)
    ensures MovesTo(wk, WithPc(wk1, a, pc), a, Some(pc))
  {}

  lemma FinishMoves(wk: Worker, wk1: Worker, a: Actor, outcome: Outcome)
    requires OnlyActor(wk, wk1, a)
    ensures MovesTo(wk, Finish(wk1, a, outcome), a, None)
  {}

  lemma RaiseMoves(wk: Worker, wk1: Worker, a: Actor)
    requires OnlyActor(wk, wk1, a)
    ensures MovesTo(wk, Raise(wk1, a), a, None)
  {}

  lemma SendMoves(db: Db, wk: Worker, a: Actor, accepted: bool) returns (move: Option<Pc>)
    requires Runs(wk, a) && PcOf(wk, a).Sending?
    ensures var (db', wk') := StepSend(db, wk, a, accepted);
            && MovesTo(wk, wk', a, move) && Advances(PcOf(wk, a), Send(a, accepted), move)
            && Books(db, db', wk, PcOf(wk, a), Send(a, accepted))
  {
    var id := PcOf(wk, a).id;
    var wk1 := wk.(attempts := wk.attempts + multiset{id});
    var pc' := if a.Redelivery? then Stamping(id) else AwaitStamp(id);
    move := if accepted then Some(pc') else None;
    WithPcMoves(wk, wk1, a, pc');
    FinishMoves(wk, wk1, a, Recorded(id));
    hide MovesTo, WithPc, Finish;
  }

  lemma ExecuteFailsMoves(db: Db, wk: Worker, a: Actor) returns (move: Option<Pc>)
    requires Runs(wk, a) && (PcOf(wk, a).Inserting? || PcOf(wk, a).Stamping?)
    ensures var (db', wk') := StepExecuteFails(db, wk, a);
            && MovesTo(wk, wk', a, move) && Advances(PcOf(wk, a), ExecuteFails(a), move)
            && Books(db, db', wk, PcOf(wk, a), ExecuteFails(a))
  {
    var pc := PcOf(wk, a);
    var pc' := if pc.Inserting? then InsertAborted else StampAborted(pc.id);
    move := Some(pc');
    WithPcMoves(wk, wk, a, pc');
    hide MovesTo, WithPc;
  }

  lemma RollbackMoves(db: Db, wk: Worker, a: Actor, raises: bool)
    requires Runs(wk, a) && (PcOf(wk, a).InsertAborted? || PcOf(wk, a).StampAborted?)
    ensures MovesTo(wk, StepRollback(wk, a, raises), a, None) && Advances(PcOf(wk, a), Rollback(a, raises), None)
    ensures Books(db, db, wk, PcOf(wk, a), Rollback(a, raises))
  {
    var wk1 := wk.(session := [], lock := None);
    RaiseMoves(wk, wk1, a);
    if PcOf(wk, a).StampAborted? { FinishMoves(wk, wk1, a, Recorded(PcOf(wk, a).id)); }
    hide MovesTo, Finish, Raise;
  }

  lemma CommitMoves(db: Db, wk: Worker, a: Actor, result: CommitResult) returns (move: Option<Pc>)
    requires Runs(wk, a) && (PcOf(wk, a).InsertExecuted? || PcOf(wk, a).StampExecuted?)
    ensures var (db', wk') := StepCommit(db, wk, a, result);
            && MovesTo(wk, wk', a, move) && Advances(PcOf(wk, a), Commit(a, result), move)
            && Books(db, db', wk, PcOf(wk, a), Commit(a, result))
  {
    hide ApplyAll;
    var pc := PcOf(wk, a);
    if result.Committed? {
      var wk2 := wk.(session := [], lock := None);
      if pc.StampExecuted? {
        move := None;
        FinishMoves(wk, wk2, a, Recorded(pc.id));
      } else if pc.hit.Some? {
        move := Some(Sending(pc.hit.value));
        WithPcMoves(wk, wk2, a, Sending(pc.hit.value));
      } else {
        move := None;
        FinishMoves(wk, wk2, a, AlreadyRecorded);
      }
    } else {
      var wk1 := if result.Lost? then wk else wk.(session := []);
      var pc' := if pc.InsertExecuted? then InsertAborted else StampAborted(pc.id);
      move := Some(pc');
      WithPcMoves(wk, wk1, a, pc');
    }
    hide MovesTo, WithPc, Finish;
  }

  lemma EvaluateMoves(db: Db, wk: Worker, t: nat, verdict: Option<Verdict>) returns (move: Option<Pc>)
    requires Runs(wk, Task(t)) && wk.tasks[t].pc.Evaluating?
    ensures MovesTo(wk, StepEvaluate(wk, t, verdict), Task(t), move)
    ensures Advances(wk.tasks[t].pc, Evaluate(t, verdict), move)
    ensures Books(db, db, wk, wk.tasks[t].pc, Evaluate(t, verdict))
  {
    var wk1 := wk.(tasks := wk.tasks[t := wk.tasks[t].(verdict := verdict)]);
    move := if verdict == Some(Rain) then Some(AwaitInsert) else None;
    WithPcMoves(wk, wk1, Task(t), AwaitInsert);
    FinishMoves(wk, wk1, Task(t), if verdict.None? then Failed else Skipped);
    hide MovesTo, WithPc, Finish;
  }

  lemma InsertMoves(db: Db, w: nat, wk: Worker, t: nat, created: int) returns (move: Option<Pc>)
    requires Runs(wk, Task(t)) && wk.tasks[t].pc.Inserting?
    ensures var (db', wk') := StepInsert(db, w, wk, t, created);
            && MovesTo(wk, wk', Task(t), move) && Advances(wk.tasks[t].pc, ExecuteInsert(t, created), move)
            && Books(db, db', wk, wk.tasks[t].pc, ExecuteInsert(t, created))
  {
    hide KeyTaken, PendingInsertOf;
    var key := wk.tasks[t].key;
    if KeyTaken(db.rows, key) || PendingInsertOf(wk, key) {
      move := Some(InsertExecuted(None));
      WithPcMoves(wk, wk, Task(t), InsertExecuted(None));
    } else {
      var write := Owned(Task(t), Insert(db.nextId, Row(key, created, false)));
      move := Some(InsertExecuted(Some(db.nextId)));
      WithPcMoves(wk, wk.(session := wk.session + [write]), Task(t), InsertExecuted(Some(db.nextId)));
    }
    hide MovesTo, WithPc;
  }

  lemma PermitMoves(db: Db, wk: Worker, t: nat)
    requires Runs(wk, Task(t)) && wk.tasks[t].pc.Queued?
    ensures MovesTo(wk, WithPc(wk, Task(t), Evaluating).(permits := wk.permits - 1), Task(t), Some(Evaluating))
    ensures Advances(wk.tasks[t].pc, AcquirePermit(t), Some(Evaluating))
    ensures Books(db, db, wk, wk.tasks[t].pc, AcquirePermit(t))
  {}

  lemma AcquireLockMoves(db: Db, wk: Worker, t: nat) returns (move: Option<Pc>)
    requires Runs(wk, Task(t)) && (wk.tasks[t].pc.AwaitInsert? || wk.tasks[t].pc.AwaitStamp?)
    ensures var pc' := if wk.tasks[t].pc.AwaitInsert? then Inserting else Stamping(wk.tasks[t].pc.id);
            && MovesTo(wk, WithPc(wk.(lock := Some(t)), Task(t), pc'), Task(t), move)
            && Advances(wk.tasks[t].pc, AcquireLock(t), move)
    ensures Books(db, db, wk, wk.tasks[t].pc, AcquireLock(t))
  {
    move := Some(if wk.tasks[t].pc.AwaitInsert? then Inserting else Stamping(wk.tasks[t].pc.id));
  }

  lemma ExecuteStampMoves(db: Db, wk: Worker, a: Actor)
    requires Runs(wk, a) && PcOf(wk, a).Stamping?
    ensures var id := PcOf(wk, a).id;
            var wk' := WithPc(wk.(session := wk.session + [Owned(a, Stamp(id))]), a, StampExecuted(id));
            && MovesTo(wk, wk', a, Some(StampExecuted(id)))
            && Advances(PcOf(wk, a), ExecuteStamp(a), Some(StampExecuted(id)))
    ensures Books(db, db, wk, PcOf(wk, a), ExecuteStamp(a))
  {
    var id := PcOf(wk, a).id;
    WithPcMoves(wk, wk.(session := wk.session + [Owned(a, Stamp(id))]), a, StampExecuted(id));
  }

  // ---------------------------------------------------------------------------------------
  // Every actor's step
  // ---------------------------------------------------------------------------------------

  /** An actor's step in terms of its own function. */
  lemma ActorStepIs(s: State, w: nat, act: Action)
    requires w in s.workers && ActEnabled(s, w, act)
    ensures var db, wk := s.db, s.workers[w];
            match act
            case AcquirePermit(t) =>
              && Runs(wk, Task(t)) && wk.tasks[t].pc.Queued?
              && ActStep(s, w, act) == (db, WithPc(wk, Task(t), Evaluating).(permits := wk.permits - 1))
            case AcquireLock(t) =>
              && Runs(wk, Task(t)) && (wk.tasks[t].pc.AwaitInsert? || wk.tasks[t].pc.AwaitStamp?)
              && var pc' := if wk.tasks[t].pc.AwaitInsert? then Inserting else Stamping(wk.tasks[t].pc.id);
                 ActStep(s, w, act) == (db, WithPc(wk.(lock := Some(t)), Task(t), pc'))
            case ExecuteStamp(a) =>
              && Runs(wk, a) && PcOf(wk, a).Stamping?
              && var id := PcOf(wk, a).id;
                 ActStep(s, w, act)
                 == (db, WithPc(wk.(session := wk.session + [Owned(a, Stamp(id))]), a, StampExecuted(id)))
            case Send(a, accepted) =>
              Runs(wk, a) && PcOf(wk, a).Sending? && ActStep(s, w, act) == StepSend(db, wk, a, accepted)
            case ExecuteFails(a) =>
              && Runs(wk, a) && (PcOf(wk, a).Inserting? || PcOf(wk, a).Stamping?)
              && ActStep(s, w, act) == StepExecuteFails(db, wk, a)
            case Rollback(a, raises) =>
              && Runs(wk, a) && (PcOf(wk, a).InsertAborted? || PcOf(wk, a).StampAborted?)
              && ActStep(s, w, act) == (db, StepRollback(wk, a, raises))
            case Commit(a, result) =>
              && Runs(wk, a) && (PcOf(wk, a).InsertExecuted? || PcOf(wk, a).StampExecuted?)
              && ActStep(s, w, act) == StepCommit(db, wk, a, result)
            case Evaluate(t, verdict) =>
              && Runs(wk, Task(t)) && wk.tasks[t].pc.Evaluating?
              && ActStep(s, w, act) == (db, StepEvaluate(wk, t, verdict))
            case ExecuteInsert(t, created) =>
              && Runs(wk, Task(t)) && wk.tasks[t].pc.Inserting?
              && ActStep(s, w, act) == StepInsert(db, w, wk, t, created)
            case _ => true
  {
    hide OldestPending, KeyTaken, PendingInsertOf, PendingStampOf, StepSend, StepExecuteFails, StepRollback,
         StepCommit, StepEvaluate, StepInsert, InFlight, WithPc;
  }

  /** Every step of an actor moves that actor, as the action says, and is put in the books. */
  lemma StepMoves(s: State, w: nat, act: Action) returns (move: Option<Pc>)
    requires w in s.workers && ActEnabled(s, w, act) && IsActorStep(act)
    ensures var wk, a := s.workers[w], ActorOf(act);
            var (db', wk') := ActStep(s, w, act);
            && MovesTo(wk, wk', a, move) && Advances(PcOf(wk, a), act, move)
            && Books(s.db, db', wk, PcOf(wk, a), act)
  {
    hide ActStep, ActEnabled, StepSend, StepExecuteFails, StepRollback, StepCommit, StepEvaluate, StepInsert,
        WithPc, MovesTo, Advances, Books;
    ActorStepIs(s, w, act);
    var db, wk := s.db, s.workers[w];
    match act
    case AcquirePermit(t) => PermitMoves(db, wk, t); move := Some(Evaluating);
    case AcquireLock(t) => move := AcquireLockMoves(db, wk, t);
    case ExecuteStamp(a) => ExecuteStampMoves(db, wk, a); move := Some(StampExecuted(PcOf(wk, a).id));
    case Send(a, accepted) => move := SendMoves(db, wk, a, accepted);
    case ExecuteFails(a) => move := ExecuteFailsMoves(db, wk, a);
    case Rollback(a, raises) => RollbackMoves(db, wk, a, raises); move := None;
    case Commit(a, result) => move := CommitMoves(db, wk, a, result);
    case Evaluate(t, verdict) => move := EvaluateMoves(db, wk, t, verdict);
    case ExecuteInsert(t, created) => move := InsertMoves(db, w, wk, t, created);
  }

  /** Steps of the tick as a whole leave the table and the channel's book alone. */
  lemma TickBooks(s: State, w: nat, act: Action)
    requires w in s.workers && ActEnabled(s, w, act) && !IsActorStep(act)
    ensures var db' := ActStep(s, w, act).0;
            && db'.rows == s.db.rows && db'.accepted == s.db.accepted
            && db'.stampFailures
               == (if act.Crash? then s.db.stampFailures + InFlight(s.workers[w]) else s.db.stampFailures)
  {
    hide OldestPending, InFlight;
  }
}
