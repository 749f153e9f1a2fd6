/** Every step keeps `Inv`: one lemma for each kind of step. */
module OutboxPreservation {
  import opened Wrappers
  import opened OutboxTable
  import opened Outbox
  import opened Verdicts
  import opened OutboxInvariant
  import opened OutboxSteps

  // ---------------------------------------------------------------------------------------
  // Assembling the invariant of the whole system from the stepping tick's
  // ---------------------------------------------------------------------------------------

  /** Tasks never forget their key or, once evaluated, their verdict. */
  ghost predicate TasksPersist(wk: Worker, wk': Worker) {
    && |wk.tasks| <= |wk'.tasks|
    && forall t | 0 <= t < |wk.tasks| :: TaskPersists(wk.tasks[t], wk'.tasks[t])
  }

  predicate TaskPersists(task: TaskState, task': TaskState) {
    && task'.key == task.key
    && (!task.pc.Queued? && !task.pc.Evaluating? ==>
          task'.verdict == task.verdict && !task'.pc.Queued? && !task'.pc.Evaluating?)
  }

  /** The step of tick `w` is over the table, its own worker and its own tasks only. */
  lemma WorkersKeep(s: State, w: nat, db': Db, wk': Worker)
    requires forall v | v in s.workers && v != w :: WorkerInv(s.db, v, s.workers[v])
    requires DbGrows(s.db, db', w) && WorkerInv(db', w, wk')
    ensures var workers := s.workers[w := wk']; forall v | v in workers :: WorkerInv(db', v, workers[v])
  {
    hide WorkerInv, DbGrows;
    var workers := s.workers[w := wk'];
    forall v | v in workers
      ensures WorkerInv(db', v, workers[v])
    {
      if v != w { OthersFrame(s.db, db', w, v, s.workers[v]); }
    }
  }

  lemma OriginKeeps(s: State, w: nat, db': Db, wk': Worker)
    requires OriginInv(s) && w in s.workers && TasksPersist(s.workers[w], wk')
    requires db'.rows == s.db.rows && db'.creator == s.db.creator
    ensures OriginInv(State(db', s.workers[w := wk']))
  {
    var s' := State(db', s.workers[w := wk']);
    forall id | id in db'.creator
      ensures OriginOk(s', id)
    {
      assert OriginOk(s, id);
      var (v, t) := s.db.creator[id];
      if v == w { assert TaskPersists(s.workers[w].tasks[t], wk'.tasks[t]); }
    }
  }

  lemma PendingKeeps(s: State, w: nat, db': Db, wk': Worker)
    requires PendingInv(s) && w in s.workers
    requires db'.rows == s.db.rows && db'.creator == s.db.creator
    requires HasPendingInsert(wk') ==> wk'.session == s.workers[w].session
    ensures PendingInv(State(db', s.workers[w := wk']))
  {
    var s' := State(db', s.workers[w := wk']);
    forall v | v in s'.workers && HasPendingInsert(s'.workers[v])
      ensures s'.workers[v].session == s.workers[v].session
    {}
  }

  /** A step that leaves the committed rows alone and starts no insert. */
  lemma QuietStep(s: State, w: nat, db': Db, wk': Worker)
    requires Inv(s) && w in s.workers
    requires db'.rows == s.db.rows && db'.creator == s.db.creator && db'.nextId == s.db.nextId
    requires forall id :: s.db.accepted[id] <= db'.accepted[id]
    requires HasPendingInsert(wk') ==> wk'.session == s.workers[w].session
    requires TasksPersist(s.workers[w], wk')
    requires WorkerInv(db', w, wk')
    ensures Inv(State(db', s.workers[w := wk']))
  {
    hide WorkerInv, OriginInv, PendingInv, TasksPersist, HasPendingInsert;
    WorkersKeep(s, w, db', wk');
    OriginKeeps(s, w, db', wk');
    PendingKeeps(s, w, db', wk');
  }

  /** Other tasks of the same tick do not notice. */
  lemma OtherTasks(db: Db, db': Db, w: nat, wk: Worker, wk': Worker, t: nat)
    requires DbGrows(db, db', w)
    requires forall id | id in db'.creator && id !in db.creator :: db'.creator[id] == (w, t)
    requires t < |wk.tasks| == |wk'.tasks| && wk'.today == wk.today
    requires forall u | 0 <= u < |wk.tasks| && u != t :: wk'.tasks[u] == wk.tasks[u]
    requires forall u | 0 <= u < |wk.tasks| :: TaskInv(db, w, wk, u)
    requires forall id | id in wk'.attempts && id !in wk.attempts :: id in db.creator && db.creator[id] == (w, t)
    ensures forall u | 0 <= u < |wk.tasks| && u != t :: TaskInv(db', w, wk', u)
  {
    forall u | 0 <= u < |wk.tasks| && u != t
      ensures TaskInv(db', w, wk', u)
    {
      assert TaskInv(db, w, wk, u);
      if SawConflict(wk.tasks[u].pc) {
        KeyStaysTaken(db, db', w, wk.tasks[u].key);
      }
    }
  }

  lemma ActiveCountUpdate(tasks: seq<TaskState>, t: nat, task: TaskState)
    requires t < |tasks|
    ensures ActiveCount(tasks[t := task])
         == ActiveCount(tasks) - (if Active(tasks[t].pc) then 1 else 0) + (if Active(task.pc) then 1 else 0)
    decreases |tasks|
  {
    var n := |tasks| - 1;
    if t < n {
      ActiveCountUpdate(tasks[..n], t, task);
      assert tasks[t := task][..n] == tasks[..n][t := task];
    } else {
      assert tasks[t := task][..n] == tasks[..n];
    }
  }

  lemma AllQueuedInactive(tasks: seq<TaskState>)
    requires forall t | 0 <= t < |tasks| :: tasks[t].pc.Queued?
    ensures ActiveCount(tasks) == 0
  {}

  // ---------------------------------------------------------------------------------------
  // Steps of the tick as a whole
  // ---------------------------------------------------------------------------------------

  lemma StartKeepsOrigin(s: State, w: nat, wk: Worker)
    requires OriginInv(s) && w !in s.workers
    ensures OriginInv(s.(workers := s.workers[w := wk]))
  {
    var s' := s.(workers := s.workers[w := wk]);
    forall id | id in s.db.creator
      ensures OriginOk(s', id)
    {
      assert OriginOk(s, id);
    }
  }

  lemma StartKeepsPending(s: State, w: nat, wk: Worker)
    requires PendingInv(s) && w !in s.workers && wk.session == []
    ensures PendingInv(s.(workers := s.workers[w := wk]))
  {
    var s' := s.(workers := s.workers[w := wk]);
    forall v | v in s'.workers && HasPendingInsert(s'.workers[v])
      ensures v in s.workers && s'.workers[v] == s.workers[v]
    {}
  }

  lemma NewWorkerInv(db: Db, w: nat, today: int)
    ensures WorkerInv(db, w, NewWorker(today))
  {}

  lemma StartTickKeeps(s: State, w: nat, today: int)
    requires Inv(s) && w !in s.workers
    ensures Inv(s.(workers := s.workers[w := NewWorker(today)]))
  {
    hide WorkerInv, OriginInv, PendingInv;
    NewWorkerInv(s.db, w, today);
    WorkersKeep(s, w, s.db, NewWorker(today));
    StartKeepsOrigin(s, w, NewWorker(today));
    StartKeepsPending(s, w, NewWorker(today));
  }

  /** Before the sweep a tick has created nothing. */
  lemma NothingCreatedYet(s: State, w: nat)
    requires OriginInv(s) && w in s.workers && s.workers[w].tasks == []
    ensures forall id | id in s.db.creator :: s.db.creator[id].0 != w
  {
    forall id | id in s.db.creator
      ensures s.db.creator[id].0 != w
    {
      assert OriginOk(s, id);
    }
  }

  lemma SelectedAttempts(db: Db, w: nat, wk: Worker, wk': Worker, ids: seq<nat>)
    requires DbInv(db) && AttemptsInv(db, w, wk) && wk.attempts == multiset{} && wk'.attempts == multiset{}
    requires forall id | id in db.creator :: db.creator[id].0 != w
    requires OldestPending(db.rows, wk.today, MAX_REDELIVERIES_PER_TICK, ids)
    requires wk'.selected == (set id | id in ids) && wk'.phase == NextDelivery(ids) && wk'.today == wk.today
    ensures AttemptsInv(db, w, wk')
  {
    assert forall id | id in wk'.selected :: id in ids;
    hide NoDuplicates;
  }

  lemma SelectedRedelivery(db: Db, w: nat, wk': Worker, today: int, ids: seq<nat>)
    requires ids != [] && OldestPending(db.rows, today, MAX_REDELIVERIES_PER_TICK, ids)
    requires wk'.attempts == multiset{} && wk'.session == [] && !wk'.aborted
    requires wk'.selected == (set id | id in ids) && wk'.phase == NextDelivery(ids)
    ensures RedeliveryInv(db, w, wk')
  {
    hide Eligible;
    SelectedInAgeOrder(db.rows, today, ids);
    hide InAgeOrder;
    assert forall id | id in ids[1..] :: id in ids;
    assert forall i | 0 <= i < |ids[1..]| :: ids[1..][i] == ids[i + 1];
    assert forall id | id in wk'.selected :: id == ids[0] || id in ids[1..];
  }

  lemma SelectedInAgeOrder(rows: map<nat, Row>, today: int, ids: seq<nat>)
    requires ids != [] && OldestPending(rows, today, MAX_REDELIVERIES_PER_TICK, ids)
    ensures InAgeOrder(rows, [ids[0]] + ids[1..])
  {
    hide Eligible;
    assert [ids[0]] + ids[1..] == ids;
  }

  lemma SelectPendingKeeps(db: Db, w: nat, wk: Worker, ids: seq<nat>)
    requires DbInv(db) && WorkerInv(db, w, wk) && wk.phase.Selecting?
    requires forall id | id in db.creator :: db.creator[id].0 != w
    requires OldestPending(db.rows, wk.today, MAX_REDELIVERIES_PER_TICK, ids)
    ensures WorkerInv(db, w, wk.(phase := NextDelivery(ids), selected := set id | id in ids))
  {
    var wk' := wk.(phase := NextDelivery(ids), selected := set id | id in ids);
    SelectingParts(db, w, wk);
    hide DbInv, WorkerInv, OldestPending, AttemptsInv, RedeliveryInv;
    SelectedAttempts(db, w, wk, wk', ids);
    if ids != [] {
      SelectedRedelivery(db, w, wk', wk.today, ids);
      PassWorkerInv(db, w, wk');
    } else {
      OverWorkerInv(db, w, wk');
    }
  }

  lemma SelectingParts(db: Db, w: nat, wk: Worker)
    requires WorkerInv(db, w, wk) && wk.phase.Selecting?
    ensures BetweenSweeps(wk) && wk.session == [] && wk.attempts == multiset{} && !wk.aborted && AttemptsInv(db, w, wk)
  {}

  predicate BetweenSweeps(wk: Worker) { wk.tasks == [] && wk.lock == None && wk.permits == MAX_ACTIVE }

  lemma PassWorkerInv(db: Db, w: nat, wk: Worker)
    requires wk.phase.Redelivering? && BetweenSweeps(wk) && AttemptsInv(db, w, wk) && RedeliveryInv(db, w, wk)
    ensures WorkerInv(db, w, wk)
  {
    hide AttemptsInv, RedeliveryInv;
  }

  lemma OverWorkerInv(db: Db, w: nat, wk: Worker)
    requires wk.phase.SelectingDue? && BetweenSweeps(wk) && AttemptsInv(db, w, wk) && wk.session == []
    ensures WorkerInv(db, w, wk)
  {
    hide AttemptsInv;
  }

  lemma PassParts(db: Db, w: nat, wk: Worker)
    requires WorkerInv(db, w, wk) && wk.phase.Redelivering?
    ensures BetweenSweeps(wk) && AttemptsInv(db, w, wk) && RedeliveryInv(db, w, wk)
  {
    hide AttemptsInv, RedeliveryInv;
  }

  lemma SelectDueKeeps(db: Db, w: nat, wk: Worker, tasks: seq<TaskState>)
    requires WorkerInv(db, w, wk) && wk.phase.SelectingDue?
    requires forall id | id in db.creator :: db.creator[id].0 != w
    requires forall t | 0 <= t < |tasks| ::
               tasks[t].pc.Queued? && tasks[t].verdict.None? && wk.today <= tasks[t].key.date <= wk.today + 1
    ensures WorkerInv(db, w, wk.(phase := Sweeping, tasks := tasks))
  {
    var wk' := wk.(phase := Sweeping, tasks := tasks);
    AllQueuedInactive(tasks);
    forall t | 0 <= t < |tasks|
      ensures TaskInv(db, w, wk', t)
    {}
  }

  /** Ending a tick, however it ends, and abandoning the redelivery pass. */
  lemma LeavePhaseKeeps(db: Db, db': Db, w: nat, wk: Worker, phase: Phase, aborted: bool)
    requires WorkerInv(db, w, wk) && Live(wk)
    requires db' == db.(stampFailures := db'.stampFailures)
    requires
      || phase.Dead?
      || ((phase.PassAborted? || phase.SelectingDue?) && !wk.phase.Sweeping? && aborted)
      || (phase.Returned? && wk.phase.Sweeping? && forall t | 0 <= t < |wk.tasks| :: wk.tasks[t].pc.Finished?)
    requires wk.aborted ==> aborted
    ensures WorkerInv(db', w, wk.(phase := phase, session := [], aborted := aborted))
  {
    var wk' := wk.(phase := phase, session := [], aborted := aborted);
    LeftAttempts(db, db', w, wk, wk');
    hide AttemptsInv, RedeliveryInv;
    forall t | 0 <= t < |wk'.tasks|
      ensures TaskInv(db', w, wk', t)
    {
      assert TaskInv(db, w, wk, t);
    }
  }

  lemma LeftAttempts(db: Db, db': Db, w: nat, wk: Worker, wk': Worker)
    requires AttemptsInv(db, w, wk) && db' == db.(stampFailures := db'.stampFailures)
    requires wk' == wk.(phase := wk'.phase, session := [], aborted := wk'.aborted)
    requires AfterPass(wk'.phase) ==> AfterPass(wk.phase) || wk'.aborted
    requires wk.aborted ==> wk'.aborted
    ensures AttemptsInv(db', w, wk')
  {}

  // ---------------------------------------------------------------------------------------
  // Steps of one task of the sweep
  // ---------------------------------------------------------------------------------------

  /** `wk'` differs from `wk` in task `t` and in what a task's step may touch. */
  ghost predicate OnlyTask(wk: Worker, wk': Worker, t: nat) {
    && wk.phase.Sweeping? && wk'.phase.Sweeping?
    && t < |wk.tasks| == |wk'.tasks|
    && (forall u | 0 <= u < |wk.tasks| && u != t :: wk'.tasks[u] == wk.tasks[u])
    && wk'.tasks[t].key == wk.tasks[t].key
    && wk'.today == wk.today && wk'.selected == wk.selected && wk'.aborted == wk.aborted
  }

  ghost predicate LockMoves(db': Db, w: nat, wk: Worker, wk': Worker, t: nat)
    requires t < |wk.tasks| == |wk'.tasks|
  {
    var before, after := InSession(wk.tasks[t].pc), InSession(wk'.tasks[t].pc);
    if after then
      && wk'.lock == Some(t) && (before || wk.lock == None)
      && SessionFits(db', w, wk', Task(t), wk'.tasks[t].pc)
    else if before then wk'.lock == None && wk'.session == []
    else wk'.lock == wk.lock && wk'.session == wk.session
  }

  lemma SweepKeeps(db: Db, db': Db, w: nat, wk: Worker, wk': Worker, t: nat)
    requires SweepInv(db, w, wk) && OnlyTask(wk, wk', t) && DbGrows(db, db', w)
    requires wk'.permits >= 0
    requires wk'.permits + (if Active(wk'.tasks[t].pc) then 1 else 0)
          == wk.permits + (if Active(wk.tasks[t].pc) then 1 else 0)
    requires LockMoves(db', w, wk, wk', t)
    ensures SweepInv(db', w, wk')
  {
    ActiveCountUpdate(wk.tasks, t, wk'.tasks[t]);
    assert wk'.tasks == wk.tasks[t := wk'.tasks[t]];
  }

  lemma TaskStepKeeps(db: Db, db': Db, w: nat, wk: Worker, wk': Worker, t: nat)
    requires WorkerInv(db, w, wk) && OnlyTask(wk, wk', t) && DbGrows(db, db', w)
    requires forall id | id in db'.creator && id !in db.creator :: db'.creator[id] == (w, t)
    requires AttemptsInv(db', w, wk')
    requires forall id | id in wk'.attempts && id !in wk.attempts :: id in db.creator && db.creator[id] == (w, t)
    requires TaskInv(db', w, wk', t)
    requires SweepInv(db', w, wk')
    ensures WorkerInv(db', w, wk')
  {
    hide TaskInv, AttemptsInv, SweepInv, DbGrows;
    OtherTasks(db, db', w, wk, wk', t);
  }

  /** The part of `WorkerInv` a task's step starts from. */
  ghost predicate TaskStart(db: Db, w: nat, wk: Worker, t: nat) {
    && wk.phase.Sweeping? && t < |wk.tasks|
    && AttemptsInv(db, w, wk) && SweepInv(db, w, wk) && TaskInv(db, w, wk, t)
  }

  /** The attempts are as they were. */
  lemma AttemptsStay(db: Db, db': Db, w: nat, wk: Worker, wk': Worker)
    requires AttemptsInv(db, w, wk) && DbGrows(db, db', w)
    requires wk'.attempts == wk.attempts && wk'.selected == wk.selected && wk'.aborted == wk.aborted
    requires wk'.today == wk.today
    requires AfterPass(wk'.phase) ==> AfterPass(wk.phase)
    ensures AttemptsInv(db', w, wk')
  {
    CurrentRowsStay(db, db', w, wk, wk');
    hide CurrentRows;
  }

  /** One of the selected rows is handed over. */
  lemma HandOver(db: Db, db': Db, w: nat, wk: Worker, wk': Worker, id: nat)
    requires AttemptsInv(db, w, wk) && DbGrows(db, db', w) && id in wk.selected && id !in wk.attempts
    requires wk'.attempts == wk.attempts + multiset{id} && wk'.selected == wk.selected && wk'.today == wk.today
    requires AfterPass(wk'.phase) && !wk'.aborted ==> forall s | s in wk'.selected :: s in wk'.attempts
    ensures AttemptsInv(db', w, wk')
  {
    CurrentRowsStay(db, db', w, wk, wk');
    hide CurrentRows;
  }

  lemma SameDbGrows(db: Db, w: nat)
    ensures DbGrows(db, db, w)
  {}

  /** Steps that neither touch the table nor send. */
  ghost predicate LocalMoves(wk: Worker, wk': Worker, t: nat)
    requires t < |wk.tasks| == |wk'.tasks|
  {
    var task, task' := wk.tasks[t], wk'.tasks[t];
    || (task.pc.Queued? && task'.pc.Evaluating? && wk'.permits == wk.permits - 1 >= 0)
    || (task.pc.Evaluating? && task'.pc.AwaitInsert? && wk'.permits == wk.permits && task'.verdict == Some(Rain))
    || (task.pc.Evaluating? && task'.pc.Finished? && (task'.pc.outcome.Skipped? || task'.pc.outcome.Failed?)
        && wk'.permits == wk.permits + 1
        && (if task'.pc.outcome.Failed? then task'.verdict.None?
            else task'.verdict.Some? && !task'.verdict.value.Rain?))
  }

  lemma LocalTaskStep(db: Db, w: nat, wk: Worker, wk': Worker, t: nat)
    requires TaskStart(db, w, wk, t) && OnlyTask(wk, wk', t) && wk'.attempts == wk.attempts && LocalMoves(wk, wk', t)
    requires wk'.lock == wk.lock && wk'.session == wk.session
    ensures TaskInv(db, w, wk', t) && AttemptsInv(db, w, wk') && SweepInv(db, w, wk')
  {
    SweepCounts(db, w, wk);
    hide SweepInv, AttemptsInv, DbGrows;
    SameDbGrows(db, w);
    AttemptsStay(db, db, w, wk, wk');
    SweepKeeps(db, db, w, wk, wk', t);
  }

  lemma AcquireLockKeeps(db: Db, w: nat, wk: Worker, wk': Worker, t: nat)
    requires TaskStart(db, w, wk, t) && OnlyTask(wk, wk', t) && wk'.attempts == wk.attempts
    requires wk.lock == None && wk'.lock == Some(t) && wk'.session == wk.session && wk'.permits == wk.permits
    requires wk'.tasks[t].verdict == wk.tasks[t].verdict
    requires var pc, pc' := wk.tasks[t].pc, wk'.tasks[t].pc;
             (pc.AwaitInsert? && pc'.Inserting?) || (pc.AwaitStamp? && pc' == Stamping(pc.id))
    ensures TaskInv(db, w, wk', t) && AttemptsInv(db, w, wk') && SweepInv(db, w, wk')
  {
    SweepCounts(db, w, wk);
    hide AttemptsInv, DbGrows;
    SameDbGrows(db, w);
    AttemptsStay(db, db, w, wk, wk');
    SweepKeeps(db, db, w, wk, wk', t);
  }

  /** A statement was executed, or failed. */
  ghost predicate ExecuteMoves(db: Db, task: TaskState, pc': Pc) {
    var pc := task.pc;
    || (pc.Inserting? && pc'.InsertExecuted? && (pc'.hit.None? ==> KeyTaken(db.rows, task.key)))
    || (pc.Inserting? && pc'.InsertAborted?)
    || (pc.Stamping? && (pc' == StampExecuted(pc.id) || pc' == StampAborted(pc.id)))
  }

  lemma ExecuteGrows(db: Db, db': Db, w: nat, t: nat)
    requires DbInv(db) && db'.rows == db.rows && db'.accepted == db.accepted
    requires db'.creator == db.creator || db'.creator == db.creator[db.nextId := (w, t)]
    ensures DbGrows(db, db', w)
  {}

  /** Rows handed over are committed, so they are none of the ids still to be created. */
  lemma AttemptedIsOld(db: Db, db': Db, w: nat, wk: Worker, t: nat)
    requires DbInv(db) && CurrentRows(db, wk)
    requires db'.creator == db.creator || db'.creator == db.creator[db.nextId := (w, t)]
    ensures forall id | id in wk.attempts && id in db'.creator :: id in db.creator && db'.creator[id] == db.creator[id]
  {}

  lemma ExecuteKeepsAttempts(db: Db, db': Db, w: nat, wk: Worker, wk': Worker, t: nat)
    requires DbInv(db) && AttemptsInv(db, w, wk) && wk'.attempts == wk.attempts && wk'.selected == wk.selected
    requires wk.phase.Sweeping? && wk'.aborted == wk.aborted && wk'.today == wk.today
    requires db'.rows == db.rows && db'.accepted == db.accepted
    requires db'.creator == db.creator || db'.creator == db.creator[db.nextId := (w, t)]
    ensures DbGrows(db, db', w) && AttemptsInv(db', w, wk')
    ensures forall id | id in wk'.attempts && id in db'.creator :: id in db.creator && db'.creator[id] == db.creator[id]
  {
    ExecuteGrows(db, db', w, t);
    AttemptedAreCurrent(db, w, wk);
    AttemptedIsOld(db, db', w, wk, t);
    hide DbInv, DbGrows, AttemptsInv, CurrentRows;
    AttemptsStay(db, db', w, wk, wk');
  }

  lemma AttemptedAreCurrent(db: Db, w: nat, wk: Worker)
    requires AttemptsInv(db, w, wk)
    ensures CurrentRows(db, wk)
  {
    hide CurrentRows;
  }

  lemma ExecuteKeepsTask(db: Db, db': Db, w: nat, wk: Worker, wk': Worker, t: nat)
    requires DbInv(db) && TaskStart(db, w, wk, t) && OnlyTask(wk, wk', t) && wk'.attempts == wk.attempts
    requires wk'.lock == wk.lock && wk'.permits == wk.permits && wk'.tasks[t].verdict == wk.tasks[t].verdict
    requires db'.rows == db.rows && db'.accepted == db.accepted
    requires db'.creator == db.creator || db'.creator == db.creator[db.nextId := (w, t)]
    requires ExecuteMoves(db, wk.tasks[t], wk'.tasks[t].pc)
    ensures DbGrows(db, db', w)
    ensures TaskInv(db', w, wk', t) && AttemptsInv(db', w, wk')
  {
    ExecuteKeepsAttempts(db, db', w, wk, wk', t);
    CreatorsStay(db, db', w, t);
    hide SweepInv, AttemptsInv, DbInv, DbGrows, TaskInv, ExecuteMoves;
    ExecuteTaskInv(db, db', w, wk, wk', t);
  }

  lemma CreatorsStay(db: Db, db': Db, w: nat, t: nat)
    requires DbInv(db)
    requires db'.creator == db.creator || db'.creator == db.creator[db.nextId := (w, t)]
    ensures forall id | id in db.creator :: id in db'.creator && db'.creator[id] == db.creator[id]
  {}

  lemma ExecuteTaskInv(db: Db, db': Db, w: nat, wk: Worker, wk': Worker, t: nat)
    requires OnlyTask(wk, wk', t) && TaskInv(db, w, wk, t) && wk'.attempts == wk.attempts
    requires wk'.tasks[t].verdict == wk.tasks[t].verdict && ExecuteMoves(db, wk.tasks[t], wk'.tasks[t].pc)
    requires db'.rows == db.rows && db'.accepted == db.accepted
    requires forall id | id in db.creator :: id in db'.creator && db'.creator[id] == db.creator[id]
    requires forall id | id in wk'.attempts && id in db'.creator ::
               id in db.creator && db'.creator[id] == db.creator[id]
    ensures TaskInv(db', w, wk', t)
  {}

  lemma ExecuteKeeps(db: Db, db': Db, w: nat, wk: Worker, wk': Worker, t: nat)
    requires DbInv(db) && TaskStart(db, w, wk, t) && OnlyTask(wk, wk', t) && wk'.attempts == wk.attempts
    requires wk'.lock == wk.lock && wk'.permits == wk.permits && wk'.tasks[t].verdict == wk.tasks[t].verdict
    requires db'.rows == db.rows && db'.accepted == db.accepted
    requires db'.creator == db.creator || db'.creator == db.creator[db.nextId := (w, t)]
    requires ExecuteMoves(db, wk.tasks[t], wk'.tasks[t].pc)
    requires SessionFits(db', w, wk', Task(t), wk'.tasks[t].pc)
    ensures DbGrows(db, db', w)
    ensures TaskInv(db', w, wk', t) && AttemptsInv(db', w, wk') && SweepInv(db', w, wk')
  {
    ExecuteKeepsTask(db, db', w, wk, wk', t);
    hide TaskInv, AttemptsInv, DbInv, DbGrows, SessionFits;
    SweepKeeps(db, db', w, wk, wk', t);
  }

  ghost predicate SendMovesTask(db: Db, db': Db, wk: Worker, wk': Worker, t: nat)
    requires t < |wk.tasks| == |wk'.tasks| && wk.tasks[t].pc.Sending?
  {
    var pc, pc' := wk.tasks[t].pc, wk'.tasks[t].pc;
    && wk'.attempts == wk.attempts + multiset{pc.id} && wk'.tasks[t].verdict == wk.tasks[t].verdict
    && (|| (db' == db && pc' == Finished(Recorded(pc.id)) && wk'.permits == wk.permits + 1)
        || (db' == db.(accepted := db.accepted + multiset{pc.id}) && pc' == AwaitStamp(pc.id)
            && wk'.permits == wk.permits))
  }

  lemma SendGrows(db: Db, db': Db, w: nat, wk: Worker, wk': Worker, t: nat)
    requires t < |wk.tasks| == |wk'.tasks| && wk.tasks[t].pc.Sending? && SendMovesTask(db, db', wk, wk', t)
    ensures DbGrows(db, db', w) && db'.creator == db.creator
  {}

  lemma SendKeepsAttempts(db: Db, db': Db, w: nat, wk: Worker, wk': Worker, t: nat)
    requires AttemptsInv(db, w, wk) && OnlyTask(wk, wk', t) && TaskInv(db, w, wk, t) && wk.tasks[t].pc.Sending?
    requires SendMovesTask(db, db', wk, wk', t)
    ensures AttemptsInv(db', w, wk')
  {}

  lemma SendKeepsTask(db: Db, db': Db, w: nat, wk: Worker, wk': Worker, t: nat)
    requires OnlyTask(wk, wk', t) && TaskInv(db, w, wk, t) && wk.tasks[t].pc.Sending?
    requires SendMovesTask(db, db', wk, wk', t)
    ensures TaskInv(db', w, wk', t)
  {}

  lemma SendKeeps(db: Db, db': Db, w: nat, wk: Worker, wk': Worker, t: nat)
    requires TaskStart(db, w, wk, t) && OnlyTask(wk, wk', t) && wk.tasks[t].pc.Sending?
    requires wk'.lock == wk.lock && wk'.session == wk.session && SendMovesTask(db, db', wk, wk', t)
    ensures DbGrows(db, db', w)
    ensures TaskInv(db', w, wk', t) && AttemptsInv(db', w, wk') && SweepInv(db', w, wk')
  {
    SendGrows(db, db', w, wk, wk', t);
    hide TaskInv, AttemptsInv, SweepInv, DbGrows;
    SendKeepsAttempts(db, db', w, wk, wk', t);
    SendKeepsTask(db, db', w, wk, wk', t);
    SweepKeeps(db, db', w, wk, wk', t);
  }

  /** The statement is over: on to the send, or done. */
  ghost predicate LeaveMoves(db: Db, db': Db, w: nat, task: TaskState, t: nat, pc': Pc) {
    var pc := task.pc;
    || (pc.InsertExecuted? && pc.hit.Some? && pc' == Sending(pc.hit.value)
        && pc'.id in db'.rows && db'.rows[pc'.id].key == task.key
        && pc'.id in db.creator && db.creator[pc'.id] == (w, t))
    || (pc.InsertExecuted? && pc.hit.None? && pc' == Finished(AlreadyRecorded))
    || pc' == Finished(Failed)
    || (Accepted(pc) && pc' == Finished(Recorded(pc.id)))
  }

  lemma LeaveSessionKeepsTask(db: Db, db': Db, w: nat, wk: Worker, wk': Worker, t: nat)
    requires TaskStart(db, w, wk, t) && OnlyTask(wk, wk', t) && DbGrows(db, db', w) && wk'.attempts == wk.attempts
    requires db'.creator == db.creator && wk'.tasks[t].verdict == wk.tasks[t].verdict
    requires InSession(wk.tasks[t].pc) && LeaveMoves(db, db', w, wk.tasks[t], t, wk'.tasks[t].pc)
    ensures TaskInv(db', w, wk', t) && AttemptsInv(db', w, wk')
  {
    hide SweepInv, AttemptsInv;
    AttemptsStay(db, db', w, wk, wk');
    if SawConflict(wk.tasks[t].pc) {
      KeyStaysTaken(db, db', w, wk.tasks[t].key);
    }
  }

  /** After the commit or the rollback of a task's statement; the table may have grown. */
  lemma LeaveSessionKeeps(db: Db, db': Db, w: nat, wk: Worker, wk': Worker, t: nat)
    requires TaskStart(db, w, wk, t) && OnlyTask(wk, wk', t) && DbGrows(db, db', w) && wk'.attempts == wk.attempts
    requires db'.creator == db.creator && wk'.tasks[t].verdict == wk.tasks[t].verdict
    requires InSession(wk.tasks[t].pc) && LeaveMoves(db, db', w, wk.tasks[t], t, wk'.tasks[t].pc)
    requires wk'.permits == wk.permits + if wk'.tasks[t].pc.Finished? then 1 else 0
    requires wk'.lock == None && wk'.session == []
    ensures TaskInv(db', w, wk', t) && AttemptsInv(db', w, wk') && SweepInv(db', w, wk')
  {
    LeaveSessionKeepsTask(db, db', w, wk, wk', t);
    hide TaskInv, AttemptsInv, DbGrows;
    SweepKeeps(db, db', w, wk, wk', t);
  }

  ghost predicate RaisedMoves(pc: Pc, pc': Pc) {
    (pc.InsertExecuted? && pc' == InsertAborted) || (pc.StampExecuted? && pc' == StampAborted(pc.id))
  }

  lemma CommitRaisedKeepsTask(db: Db, db': Db, w: nat, wk: Worker, wk': Worker, t: nat)
    requires OnlyTask(wk, wk', t) && TaskInv(db, w, wk, t) && DbGrows(db, db', w) && wk'.attempts == wk.attempts
    requires db'.creator == db.creator && wk'.tasks[t].verdict == wk.tasks[t].verdict
    requires RaisedMoves(wk.tasks[t].pc, wk'.tasks[t].pc)
    ensures TaskInv(db', w, wk', t)
  {}

  lemma CommitRaisedSession(db: Db, db': Db, w: nat, wk: Worker, wk': Worker, t: nat)
    requires TaskStart(db, w, wk, t) && OnlyTask(wk, wk', t) && db'.creator == db.creator
    requires wk'.session == [] || wk'.session == wk.session
    requires wk'.lock == wk.lock && RaisedMoves(wk.tasks[t].pc, wk'.tasks[t].pc)
    ensures LockMoves(db', w, wk, wk', t)
  {
    hide TaskInv, AttemptsInv;
    TaskSession(db, w, wk, t);
    hide SweepInv;
  }

  /** A commit that raised, with or without effect: the task goes on to its rollback. */
  lemma CommitRaisedKeeps(db: Db, db': Db, w: nat, wk: Worker, wk': Worker, t: nat)
    requires TaskStart(db, w, wk, t) && OnlyTask(wk, wk', t) && DbGrows(db, db', w) && wk'.attempts == wk.attempts
    requires db'.creator == db.creator && wk'.tasks[t].verdict == wk.tasks[t].verdict
    requires wk'.permits == wk.permits && wk'.lock == wk.lock && RaisedMoves(wk.tasks[t].pc, wk'.tasks[t].pc)
    requires wk'.session == [] || wk'.session == wk.session
    ensures TaskInv(db', w, wk', t) && AttemptsInv(db', w, wk') && SweepInv(db', w, wk')
  {
    CommitRaisedSession(db, db', w, wk, wk', t);
    SweepCounts(db, w, wk);
    hide TaskInv, AttemptsInv, SweepInv, DbGrows, LockMoves;
    AttemptsStay(db, db', w, wk, wk');
    CommitRaisedKeepsTask(db, db', w, wk, wk', t);
    SweepKeeps(db, db', w, wk, wk', t);
  }

  lemma SweepCounts(db: Db, w: nat, wk: Worker)
    requires SweepInv(db, w, wk)
    ensures wk.permits >= 0
  {}

  // ---------------------------------------------------------------------------------------
  // Steps of the redelivery pass
  // ---------------------------------------------------------------------------------------

  /** The pass stays with its row. */
  ghost predicate PassStays(db': Db, wk: Worker, wk': Worker) {
    && wk.phase.Redelivering? && wk'.phase.Redelivering? && wk'.phase.queue == wk.phase.queue
    && wk'.tasks == wk.tasks && wk'.lock == wk.lock && wk'.permits == wk.permits
    && wk'.today == wk.today && wk'.selected == wk.selected && wk'.aborted == wk.aborted
    && var pc, pc' := wk.phase.pc, wk'.phase.pc;
       || (pc.Sending? && pc' == Stamping(pc.id) && db'.accepted[pc.id] >= 1
           && wk'.attempts == wk.attempts + multiset{pc.id})
       || ((pc.Stamping? || pc.StampExecuted?) && (pc' == StampExecuted(pc.id) || pc' == StampAborted(pc.id))
           && wk'.attempts == wk.attempts)
  }

  /** What the pass knows about the row it is at and the rows it has left. */
  lemma PassFacts(db: Db, w: nat, wk: Worker)
    requires wk.phase.Redelivering? && RedeliveryInv(db, w, wk)
    ensures var pc, queue := wk.phase.pc, wk.phase.queue;
            && (pc.Sending? || pc.Stamping? || pc.StampExecuted? || pc.StampAborted?)
            && pc.id in wk.selected && (pc.Sending? <==> pc.id !in wk.attempts)
            && (queue == [] ==> forall id | id in wk.selected :: id in wk.attempts || id == pc.id)
  {
    hide SessionFits, InAgeOrder;
  }

  lemma PassStepAttempts(db: Db, db': Db, w: nat, wk: Worker, wk': Worker)
    requires PassStays(db', wk, wk') && AttemptsInv(db, w, wk) && RedeliveryInv(db, w, wk)
    requires DbGrows(db, db', w)
    ensures AttemptsInv(db', w, wk')
  {
    PassFacts(db, w, wk);
    hide AttemptsInv, RedeliveryInv, DbGrows;
    if wk.phase.pc.Sending? {
      HandOver(db, db', w, wk, wk', wk.phase.pc.id);
    } else {
      AttemptsStay(db, db', w, wk, wk');
    }
  }

  lemma PassStepRedelivery(db: Db, db': Db, w: nat, wk: Worker, wk': Worker)
    requires PassStays(db', wk, wk') && RedeliveryInv(db, w, wk) && DbGrows(db, db', w)
    requires SessionFits(db', w, wk', Redelivery, wk'.phase.pc)
    ensures RedeliveryInv(db', w, wk')
  {
    hide SessionFits;
    AgeOrderStays(db, db', w, [wk.phase.pc.id] + wk.phase.queue);
    hide InAgeOrder;
  }

  lemma PassStepKeeps(db: Db, db': Db, w: nat, wk: Worker, wk': Worker)
    requires WorkerInv(db, w, wk) && PassStays(db', wk, wk') && DbGrows(db, db', w) && db'.creator == db.creator
    requires SessionFits(db', w, wk', Redelivery, wk'.phase.pc)
    ensures WorkerInv(db', w, wk')
  {
    PassParts(db, w, wk);
    hide WorkerInv, AttemptsInv, RedeliveryInv, SessionFits, DbGrows;
    PassStepAttempts(db, db', w, wk, wk');
    PassStepRedelivery(db, db', w, wk, wk');
    PassWorkerInv(db', w, wk');
  }

  /** The pass takes its next row. */
  ghost predicate PassGoesOn(wk: Worker, wk': Worker) {
    && wk.phase.Redelivering? && wk'.phase == NextDelivery(wk.phase.queue) && wk'.session == []
    && wk'.tasks == wk.tasks && wk'.lock == wk.lock && wk'.permits == wk.permits
    && wk'.today == wk.today && wk'.selected == wk.selected && wk'.aborted == wk.aborted
    && wk'.attempts == if wk.phase.pc.Sending? then wk.attempts + multiset{wk.phase.pc.id} else wk.attempts
  }

  lemma PassNextAttempts(db: Db, db': Db, w: nat, wk: Worker, wk': Worker)
    requires PassGoesOn(wk, wk') && AttemptsInv(db, w, wk) && RedeliveryInv(db, w, wk)
    requires DbGrows(db, db', w)
    ensures AttemptsInv(db', w, wk')
  {
    PassFacts(db, w, wk);
    hide AttemptsInv, RedeliveryInv, DbGrows;
    if wk.phase.pc.Sending? {
      HandOver(db, db', w, wk, wk', wk.phase.pc.id);
    } else if wk.phase.queue == [] {
      PassEnds(db, db', w, wk, wk');
    } else {
      AttemptsStay(db, db', w, wk, wk');
    }
  }

  lemma PassEnds(db: Db, db': Db, w: nat, wk: Worker, wk': Worker)
    requires AttemptsInv(db, w, wk) && DbGrows(db, db', w)
    requires wk'.attempts == wk.attempts && wk'.selected == wk.selected && wk'.today == wk.today
    requires forall id | id in wk.selected :: id in wk.attempts
    ensures AttemptsInv(db', w, wk')
  {
    CurrentRowsStay(db, db', w, wk, wk');
    hide CurrentRows;
  }

  lemma PassNextRedelivery(db: Db, db': Db, w: nat, wk: Worker, wk': Worker)
    requires PassGoesOn(wk, wk') && RedeliveryInv(db, w, wk) && wk.phase.queue != [] && DbGrows(db, db', w)
    ensures RedeliveryInv(db', w, wk')
  {
    hide SessionFits;
    var queue := wk.phase.queue;
    AgeOrderTail(db.rows, wk.phase.pc.id, queue);
    AgeOrderStays(db, db', w, queue);
    hide DbGrows, InAgeOrder;
    QueueTail(queue);
    assert [queue[0]] + queue[1..] == queue;
    NoSessionFits(db', w, wk');
  }

  lemma AgeOrderTail(rows: map<nat, Row>, id: nat, queue: seq<nat>)
    requires InAgeOrder(rows, [id] + queue)
    ensures InAgeOrder(rows, queue)
  {
    assert forall i | 0 <= i < |queue| :: queue[i] == ([id] + queue)[i + 1];
  }

  lemma NoSessionFits(db: Db, w: nat, wk: Worker)
    requires wk.phase.Redelivering? && wk.phase.pc.Sending? && wk.session == []
    ensures SessionFits(db, w, wk, Redelivery, wk.phase.pc)
  {}

  lemma QueueTail(queue: seq<nat>)
    requires queue != []
    ensures forall id :: id in queue <==> id == queue[0] || id in queue[1..]
    ensures NoDuplicates(queue) ==> NoDuplicates(queue[1..]) && queue[0] !in queue[1..]
  {
    assert queue == [queue[0]] + queue[1..];
  }

  lemma PassNextKeeps(db: Db, db': Db, w: nat, wk: Worker, wk': Worker)
    requires WorkerInv(db, w, wk) && PassGoesOn(wk, wk') && DbGrows(db, db', w) && db'.creator == db.creator
    ensures WorkerInv(db', w, wk')
  {
    PassParts(db, w, wk);
    hide WorkerInv, AttemptsInv, RedeliveryInv, DbGrows;
    PassNextAttempts(db, db', w, wk, wk');
    if wk.phase.queue != [] {
      PassNextRedelivery(db, db', w, wk, wk');
      PassWorkerInv(db', w, wk');
    } else {
      OverWorkerInv(db', w, wk');
    }
  }

  // ---------------------------------------------------------------------------------------
  // What a commit does to the table
  // ---------------------------------------------------------------------------------------

  lemma CommitStampGrows(db: Db, w: nat, id: nat)
    requires DbInv(db) && db.accepted[id] >= 1
    ensures var db' := db.(rows := ApplyWrite(db.rows, Stamp(id))); DbInv(db') && DbGrows(db, db', w)
  {}

  lemma CommitStampGlobal(s: State, w: nat, wk': Worker, db': Db, id: nat)
    requires PendingInv(s) && OriginInv(s) && w in s.workers
    requires db'.rows == ApplyWrite(s.db.rows, Stamp(id)) && db'.creator == s.db.creator
    requires !HasPendingInsert(wk') && TasksPersist(s.workers[w], wk')
    ensures PendingInv(State(db', s.workers[w := wk'])) && OriginInv(State(db', s.workers[w := wk']))
  {
    hide OriginInv, PendingInv, TasksPersist;
    StampOrigin(s, db', id);
    OriginKeeps(s.(db := s.db.(rows := db'.rows)), w, db', wk');
    StampPending(s, w, wk', db', id);
  }

  lemma StampOrigin(s: State, db': Db, id: nat)
    requires OriginInv(s) && db'.rows == ApplyWrite(s.db.rows, Stamp(id))
    ensures OriginInv(s.(db := s.db.(rows := db'.rows)))
  {
    var mid := s.(db := s.db.(rows := db'.rows));
    forall i | i in mid.db.creator
      ensures OriginOk(mid, i)
    {
      assert OriginOk(s, i);
    }
  }

  lemma StampPending(s: State, w: nat, wk': Worker, db': Db, id: nat)
    requires PendingInv(s) && w in s.workers && !HasPendingInsert(wk')
    requires db'.rows == ApplyWrite(s.db.rows, Stamp(id)) && db'.creator == s.db.creator
    ensures PendingInv(State(db', s.workers[w := wk']))
  {
    var s' := State(db', s.workers[w := wk']);
    forall v | v in s'.workers && HasPendingInsert(s'.workers[v])
      ensures v != w && s'.workers[v] == s.workers[v]
      ensures !KeyTaken(db'.rows, s'.workers[v].session[0].write.row.key)
    {
      assert forall i | i in db'.rows :: db'.rows[i].key == s.db.rows[i].key;
    }
  }

  lemma CommitInsertGrows(db: Db, w: nat, id: nat, row: Row)
    requires DbInv(db) && id in db.creator && id !in db.rows && !KeyTaken(db.rows, row.key) && !row.delivered
    ensures var db' := db.(rows := db.rows[id := row]); DbInv(db') && DbGrows(db, db', w)
  {
    assert forall i | i in db.rows :: db.rows[i].key != row.key;
  }

  lemma CommitInsertGlobal(s: State, w: nat, wk': Worker, db': Db)
    requires PendingInv(s) && OriginInv(s) && w in s.workers && HasPendingInsert(s.workers[w])
    requires var write := s.workers[w].session[0].write;
             && db'.rows == s.db.rows[write.id := write.row] && db'.creator == s.db.creator
             && write.id in s.db.creator && s.db.creator[write.id].0 == w
             && var t := s.db.creator[write.id].1;
                && t < |s.workers[w].tasks|
                && write.row.key == s.workers[w].tasks[t].key
    requires !HasPendingInsert(wk') && TasksPersist(s.workers[w], wk')
    ensures PendingInv(State(db', s.workers[w := wk'])) && OriginInv(State(db', s.workers[w := wk']))
  {
    hide OriginInv, PendingInv, TasksPersist, HasPendingInsert;
    InsertedOrigin(s, w, db');
    OriginKeeps(s.(db := s.db.(rows := db'.rows)), w, db', wk');
    InsertedPending(s, w, wk', db');
  }

  lemma InsertedOrigin(s: State, w: nat, db': Db)
    requires OriginInv(s) && w in s.workers && HasPendingInsert(s.workers[w])
    requires var write := s.workers[w].session[0].write;
             && db'.rows == s.db.rows[write.id := write.row]
             && write.id in s.db.creator && s.db.creator[write.id].0 == w
             && var t := s.db.creator[write.id].1;
                && t < |s.workers[w].tasks|
                && write.row.key == s.workers[w].tasks[t].key
    ensures OriginInv(s.(db := s.db.(rows := db'.rows)))
  {
    var mid := s.(db := s.db.(rows := db'.rows));
    forall i | i in mid.db.creator
      ensures OriginOk(mid, i)
    {
      assert OriginOk(s, i);
    }
  }

  lemma InsertedPending(s: State, w: nat, wk': Worker, db': Db)
    requires PendingInv(s) && w in s.workers && HasPendingInsert(s.workers[w]) && !HasPendingInsert(wk')
    requires var write := s.workers[w].session[0].write;
             && db'.rows == s.db.rows[write.id := write.row] && db'.creator == s.db.creator
             && write.id in s.db.creator && s.db.creator[write.id].0 == w
    ensures PendingInv(State(db', s.workers[w := wk']))
  {
    var write := s.workers[w].session[0].write;
    var s' := State(db', s.workers[w := wk']);
    forall v | v in s'.workers && HasPendingInsert(s'.workers[v])
      ensures v != w && s'.workers[v] == s.workers[v]
      ensures s'.workers[v].session[0].write.id !in db'.rows
      ensures !KeyTaken(db'.rows, s'.workers[v].session[0].write.row.key)
    {
      var key := s'.workers[v].session[0].write.row.key;
      assert key != write.row.key;
      assert forall i | i in db'.rows && i != write.id :: db'.rows[i] == s.db.rows[i];
    }
  }

  lemma CommitGlobal(s: State, w: nat, db': Db, wk': Worker)
    requires Inv(s) && w in s.workers && DbInv(db') && DbGrows(s.db, db', w) && WorkerInv(db', w, wk')
    requires PendingInv(State(db', s.workers[w := wk'])) && OriginInv(State(db', s.workers[w := wk']))
    ensures Inv(State(db', s.workers[w := wk']))
  {
    hide WorkerInv, OriginInv, PendingInv, DbInv, DbGrows;
    WorkersKeep(s, w, db', wk');
  }

  // ---------------------------------------------------------------------------------------
  // Every step
  // ---------------------------------------------------------------------------------------

  lemma WorkerOf(s: State, w: nat)
    requires Inv(s) && w in s.workers
    ensures WorkerInv(s.db, w, s.workers[w]) && DbInv(s.db)
    ensures s.workers[w].tasks == [] ==> forall id | id in s.db.creator :: s.db.creator[id].0 != w
  {
    assert WorkerInv(s.db, w, s.workers[w]) && DbInv(s.db);
    if s.workers[w].tasks == [] {
      hide WorkerInv, PendingInv, DbInv;
      NothingCreatedYet(s, w);
    }
  }

  /** What the phase alone says about a tick. */
  lemma PhaseFacts(db: Db, w: nat, wk: Worker)
    requires WorkerInv(db, w, wk)
    ensures Live(wk) && !wk.phase.Sweeping? ==> wk.tasks == []
    ensures !wk.phase.Redelivering? && !wk.phase.Sweeping? ==> wk.session == []
    ensures wk.phase.PassAborted? ==> wk.aborted
    ensures wk.phase.Sweeping? && (forall t | 0 <= t < |wk.tasks| :: wk.tasks[t].pc.Finished?) ==> wk.session == []
    ensures forall t | wk.phase.Sweeping? && 0 <= t < |wk.tasks| :: TaskStart(db, w, wk, t)
  {}

  lemma SelectPendingStep(s: State, w: nat, ids: seq<nat>)
    requires Inv(s) && w in s.workers && s.workers[w].phase.Selecting?
    requires OldestPending(s.db.rows, s.workers[w].today, MAX_REDELIVERIES_PER_TICK, ids)
    ensures var wk' := s.workers[w].(phase := NextDelivery(ids), selected := set id | id in ids);
            Inv(State(s.db, s.workers[w := wk']))
  {
    hide Inv, WorkerInv, DbInv, OldestPending;
    var wk := s.workers[w];
    WorkerOf(s, w);
    PhaseFacts(s.db, w, wk);
    SelectPendingKeeps(s.db, w, wk, ids);
    QuietStep(s, w, s.db, wk.(phase := NextDelivery(ids), selected := set id | id in ids));
  }

  lemma SelectDueStep(s: State, w: nat, tasks: seq<TaskState>)
    requires Inv(s) && w in s.workers && s.workers[w].phase.SelectingDue?
    requires forall t | 0 <= t < |tasks| ::
               tasks[t].pc.Queued? && tasks[t].verdict.None?
               && s.workers[w].today <= tasks[t].key.date <= s.workers[w].today + 1
    ensures Inv(State(s.db, s.workers[w := s.workers[w].(phase := Sweeping, tasks := tasks)]))
  {
    hide Inv, WorkerInv, DbInv;
    var wk := s.workers[w];
    WorkerOf(s, w);
    PhaseFacts(s.db, w, wk);
    SelectDueKeeps(s.db, w, wk, tasks);
    QuietStep(s, w, s.db, wk.(phase := Sweeping, tasks := tasks));
  }

  /** The tick ends, however it ends, or abandons its pass. */
  lemma LeavePhaseStep(s: State, w: nat, db': Db, phase: Phase, aborted: bool)
    requires Inv(s) && w in s.workers && Live(s.workers[w]) && db' == s.db.(stampFailures := db'.stampFailures)
    requires
      || phase.Dead?
      || ((phase.PassAborted? || phase.SelectingDue?) && !s.workers[w].phase.Sweeping? && aborted)
      || (phase.Returned? && s.workers[w].phase.Sweeping?
          && forall t | 0 <= t < |s.workers[w].tasks| :: s.workers[w].tasks[t].pc.Finished?)
    requires s.workers[w].aborted ==> aborted
    ensures Inv(State(db', s.workers[w := s.workers[w].(phase := phase, session := [], aborted := aborted)]))
  {
    hide Inv, WorkerInv, DbInv;
    var wk := s.workers[w];
    WorkerOf(s, w);
    LeavePhaseKeeps(s.db, db', w, wk, phase, aborted);
    QuietStep(s, w, db', wk.(phase := phase, session := [], aborted := aborted));
  }

  lemma EmptySession(s: State, w: nat)
    requires Inv(s) && w in s.workers
    ensures !s.workers[w].phase.Redelivering? && !s.workers[w].phase.Sweeping? ==> s.workers[w].session == []
    ensures s.workers[w].phase.PassAborted? ==> s.workers[w].aborted
    ensures var wk := s.workers[w];
            wk.phase.Sweeping? && (forall t | 0 <= t < |wk.tasks| :: wk.tasks[t].pc.Finished?) ==> wk.session == []
  {
    hide Inv, WorkerInv, DbInv;
    WorkerOf(s, w);
    PhaseFacts(s.db, w, s.workers[w]);
  }

  /** A step of the tick as a whole, as a change of its phase. */
  lemma TickStepEnds(s: State, w: nat, act: Action)
    requires w in s.workers && ActEnabled(s, w, act)
    requires act.SelectPendingFails? || act.RollbackPass? || act.SelectDueFails? || act.Return? || act.Crash?
    requires var wk := s.workers[w];
             && (!wk.phase.Redelivering? && !wk.phase.Sweeping? ==> wk.session == [])
             && (wk.phase.PassAborted? ==> wk.aborted)
             && (wk.phase.Sweeping? && (forall t | 0 <= t < |wk.tasks| :: wk.tasks[t].pc.Finished?) ==>
                 wk.session == [])
    ensures var wk := s.workers[w];
            var (db', wk') := ActStep(s, w, act);
            && Live(wk) && db' == s.db.(stampFailures := db'.stampFailures)
            && wk' == wk.(phase := wk'.phase, session := [], aborted := wk'.aborted)
            && (wk.aborted ==> wk'.aborted)
            && (|| wk'.phase.Dead?
                || ((wk'.phase.PassAborted? || wk'.phase.SelectingDue?) && !wk.phase.Sweeping? && wk'.aborted)
                || (wk'.phase.Returned? && wk.phase.Sweeping?
                    && forall t | 0 <= t < |wk.tasks| :: wk.tasks[t].pc.Finished?))
  {
    hide InFlight;
  }

  lemma TickStepKeeps(s: State, w: nat, act: Action)
    requires Inv(s) && w in s.workers && ActEnabled(s, w, act) && !IsActorStep(act)
    ensures Inv(Step(s, Act(w, act)))
  {
    hide Inv, InFlight;
    match act
    case SelectPending(ids) => SelectPendingStep(s, w, ids);
    case SelectDue(keys) => SelectDueStep(s, w, ActStep(s, w, act).1.tasks);
    case _ => LeaveTickKeeps(s, w, act);
  }

  lemma LeaveTickKeeps(s: State, w: nat, act: Action)
    requires Inv(s) && w in s.workers && ActEnabled(s, w, act)
    requires act.SelectPendingFails? || act.RollbackPass? || act.SelectDueFails? || act.Return? || act.Crash?
    ensures Inv(Step(s, Act(w, act)))
  {
    hide Inv, ActStep, ActEnabled;
    EmptySession(s, w);
    TickStepEnds(s, w, act);
    var (db', wk') := ActStep(s, w, act);
    LeavePhaseStep(s, w, db', wk'.phase, wk'.aborted);
  }

  lemma OnlyTaskPersists(wk: Worker, wk': Worker, t: nat)
    requires OnlyTask(wk, wk', t) && TaskPersists(wk.tasks[t], wk'.tasks[t])
    ensures TasksPersist(wk, wk')
  {}

  lemma QuietGrows(db: Db, db': Db, w: nat)
    requires db'.rows == db.rows && db'.creator == db.creator && forall id :: db.accepted[id] <= db'.accepted[id]
    ensures DbGrows(db, db', w)
  {}

  /** A task's step that leaves the committed rows alone, from what it keeps locally. */
  lemma QuietTaskStep(s: State, w: nat, db': Db, wk': Worker, t: nat)
    requires Inv(s) && w in s.workers && OnlyTask(s.workers[w], wk', t)
    requires db'.rows == s.db.rows && db'.creator == s.db.creator && db'.nextId == s.db.nextId
    requires forall id :: s.db.accepted[id] <= db'.accepted[id]
    requires HasPendingInsert(wk') ==> wk'.session == s.workers[w].session
    requires forall id | id in wk'.attempts && id !in s.workers[w].attempts ::
               id in s.db.creator && s.db.creator[id] == (w, t)
    requires TaskPersists(s.workers[w].tasks[t], wk'.tasks[t])
    requires TaskInv(db', w, wk', t) && AttemptsInv(db', w, wk') && SweepInv(db', w, wk')
    ensures Inv(State(db', s.workers[w := wk']))
  {
    hide Inv, WorkerInv, DbInv, DbGrows, TasksPersist, OnlyTask, TaskInv, AttemptsInv, SweepInv;
    WorkerOf(s, w);
    QuietGrows(s.db, db', w);
    OnlyTaskPersists(s.workers[w], wk', t);
    TaskStepKeeps(s.db, db', w, s.workers[w], wk', t);
    QuietStep(s, w, db', wk');
  }

  lemma PermitStepKeeps(s: State, w: nat, t: nat)
    requires Inv(s) && w in s.workers && Runs(s.workers[w], Task(t)) && s.workers[w].tasks[t].pc.Queued?
    requires s.workers[w].permits > 0
    ensures var wk' := WithPc(s.workers[w], Task(t), Evaluating).(permits := s.workers[w].permits - 1);
            Inv(State(s.db, s.workers[w := wk']))
  {
    hide Inv, WorkerInv, DbInv, TaskInv, AttemptsInv, SweepInv, TaskStart;
    var wk := s.workers[w];
    var wk' := WithPc(wk, Task(t), Evaluating).(permits := wk.permits - 1);
    WorkerOf(s, w);
    PhaseFacts(s.db, w, wk);
    LocalTaskStep(s.db, w, wk, wk', t);
    QuietTaskStep(s, w, s.db, wk', t);
  }

  lemma EvaluateStepKeeps(s: State, w: nat, t: nat, verdict: Option<Verdict>)
    requires Inv(s) && w in s.workers && Runs(s.workers[w], Task(t)) && s.workers[w].tasks[t].pc.Evaluating?
    ensures Inv(State(s.db, s.workers[w := StepEvaluate(s.workers[w], t, verdict)]))
  {
    hide Inv, WorkerInv, DbInv, TaskInv, AttemptsInv, SweepInv, TaskStart;
    var wk := s.workers[w];
    WorkerOf(s, w);
    PhaseFacts(s.db, w, wk);
    LocalTaskStep(s.db, w, wk, StepEvaluate(wk, t, verdict), t);
    QuietTaskStep(s, w, s.db, StepEvaluate(wk, t, verdict), t);
  }

  lemma LockStepKeeps(s: State, w: nat, t: nat, pc: Pc)
    requires Inv(s) && w in s.workers && Runs(s.workers[w], Task(t)) && s.workers[w].lock.None?
    requires var before := s.workers[w].tasks[t].pc;
             (before.AwaitInsert? && pc == Inserting) || (before.AwaitStamp? && pc == Stamping(before.id))
    ensures Inv(State(s.db, s.workers[w := WithPc(s.workers[w].(lock := Some(t)), Task(t), pc)]))
  {
    hide Inv, WorkerInv, DbInv, TaskInv, AttemptsInv, SweepInv, TaskStart;
    var wk := s.workers[w];
    var wk' := WithPc(wk.(lock := Some(t)), Task(t), pc);
    WorkerOf(s, w);
    PhaseFacts(s.db, w, wk);
    AcquireLockKeeps(s.db, w, wk, wk', t);
    QuietTaskStep(s, w, s.db, wk', t);
  }

  /** The pass's step that leaves the committed rows alone. */
  lemma QuietPassStep(s: State, w: nat, db': Db, wk': Worker)
    requires Inv(s) && w in s.workers && s.workers[w].phase.Redelivering?
    requires db'.rows == s.db.rows && db'.creator == s.db.creator && db'.nextId == s.db.nextId
    requires forall id :: s.db.accepted[id] <= db'.accepted[id]
    requires !HasPendingInsert(wk') && wk'.tasks == s.workers[w].tasks && WorkerInv(db', w, wk')
    ensures Inv(State(db', s.workers[w := wk']))
  {
    hide WorkerInv, OriginInv, PendingInv;
    QuietStep(s, w, db', wk');
  }

  lemma SendTaskKeeps(s: State, w: nat, t: nat, accepted: bool, db': Db, wk': Worker)
    requires Inv(s) && w in s.workers && Runs(s.workers[w], Task(t)) && s.workers[w].tasks[t].pc.Sending?
    requires (db', wk') == StepSend(s.db, s.workers[w], Task(t), accepted)
    ensures Inv(State(db', s.workers[w := wk']))
  {
    hide Inv, WorkerInv, DbInv, TaskInv, AttemptsInv, SweepInv, TaskStart, DbGrows;
    var wk := s.workers[w];
    WorkerOf(s, w);
    PhaseFacts(s.db, w, wk);
    SendKeeps(s.db, db', w, wk, wk', t);
    SentByOwner(s.db, w, wk, t);
    QuietTaskStep(s, w, db', wk', t);
  }

  lemma SendStepKeeps(s: State, w: nat, a: Actor, accepted: bool)
    requires Inv(s) && w in s.workers && Runs(s.workers[w], a) && PcOf(s.workers[w], a).Sending?
    ensures var (db', wk') := StepSend(s.db, s.workers[w], a, accepted); Inv(State(db', s.workers[w := wk']))
  {
    hide Inv, WorkerInv, DbInv;
    var (db', wk') := StepSend(s.db, s.workers[w], a, accepted);
    match a
    case Redelivery =>
      WorkerOf(s, w);
      PassSend(s.db, db', w, s.workers[w], wk', accepted);
      QuietPassStep(s, w, db', wk');
    case Task(t) => SendTaskKeeps(s, w, t, accepted, db', wk');
  }

  lemma SentByOwner(db: Db, w: nat, wk: Worker, t: nat)
    requires TaskStart(db, w, wk, t) && wk.tasks[t].pc.Sending?
    ensures wk.tasks[t].pc.id in db.creator && db.creator[wk.tasks[t].pc.id] == (w, t)
  {}

  lemma PassSend(db: Db, db': Db, w: nat, wk: Worker, wk': Worker, accepted: bool)
    requires WorkerInv(db, w, wk) && Runs(wk, Redelivery) && wk.phase.pc.Sending?
    requires (db', wk') == StepSend(db, wk, Redelivery, accepted)
    ensures WorkerInv(db', w, wk') && wk'.session == []
  {
    PassPc(db, w, wk);
    hide WorkerInv, DbGrows;
    QuietGrows(db, db', w);
    if accepted {
      PassStepKeeps(db, db', w, wk, wk');
    } else {
      PassNextKeeps(db, db', w, wk, wk');
    }
  }

  lemma PassRollback(db: Db, w: nat, wk: Worker, wk': Worker, raises: bool)
    requires WorkerInv(db, w, wk) && Runs(wk, Redelivery) && wk.phase.pc.StampAborted?
    requires wk' == StepRollback(wk, Redelivery, raises)
    ensures WorkerInv(db, w, wk') && wk'.session == []
  {
    PassParts(db, w, wk);
    hide WorkerInv, DbGrows, AttemptsInv, RedeliveryInv;
    if raises {
      LeavePhaseKeeps(db, db, w, wk, PassAborted, true);
    } else {
      SameDbGrows(db, w);
      PassNextKeeps(db, db, w, wk, wk');
    }
  }

  lemma RollbackTaskKeeps(s: State, w: nat, t: nat, raises: bool, wk': Worker)
    requires Inv(s) && w in s.workers && Runs(s.workers[w], Task(t))
    requires s.workers[w].tasks[t].pc.InsertAborted? || s.workers[w].tasks[t].pc.StampAborted?
    requires wk' == StepRollback(s.workers[w], Task(t), raises)
    ensures Inv(State(s.db, s.workers[w := wk']))
  {
    hide Inv, WorkerInv, DbInv, TaskInv, AttemptsInv, SweepInv, TaskStart, DbGrows;
    var wk := s.workers[w];
    WorkerOf(s, w);
    PhaseFacts(s.db, w, wk);
    SameDbGrows(s.db, w);
    LeaveSessionKeeps(s.db, s.db, w, wk, wk', t);
    QuietTaskStep(s, w, s.db, wk', t);
  }

  lemma RollbackStepKeeps(s: State, w: nat, a: Actor, raises: bool)
    requires Inv(s) && w in s.workers && Runs(s.workers[w], a)
    requires PcOf(s.workers[w], a).InsertAborted? || PcOf(s.workers[w], a).StampAborted?
    ensures Inv(State(s.db, s.workers[w := StepRollback(s.workers[w], a, raises)]))
  {
    hide Inv, WorkerInv, DbInv;
    var wk' := StepRollback(s.workers[w], a, raises);
    match a
    case Redelivery =>
      WorkerOf(s, w);
      PassPc(s.db, w, s.workers[w]);
      PassRollback(s.db, w, s.workers[w], wk', raises);
      QuietPassStep(s, w, s.db, wk');
    case Task(t) => RollbackTaskKeeps(s, w, t, raises, wk');
  }

  lemma PassPc(db: Db, w: nat, wk: Worker)
    requires WorkerInv(db, w, wk) && wk.phase.Redelivering?
    ensures var pc := wk.phase.pc; pc.Sending? || pc.Stamping? || pc.StampExecuted? || pc.StampAborted?
    ensures SessionFits(db, w, wk, Redelivery, wk.phase.pc) && wk.tasks == [] && wk.lock == None
    ensures Accepted(wk.phase.pc) ==> db.accepted[wk.phase.pc.id] >= 1
  {}

  lemma TaskSession(db: Db, w: nat, wk: Worker, t: nat)
    requires TaskStart(db, w, wk, t) && InSession(wk.tasks[t].pc)
    ensures wk.lock == Some(t) && SessionFits(db, w, wk, Task(t), wk.tasks[t].pc)
  {}

  /** Executing a stamp, or failing to execute a statement. */
  ghost predicate ExecutesOrFails(db: Db, db': Db, wk: Worker, wk': Worker, a: Actor)
    requires Runs(wk, a)
  {
    var pc := PcOf(wk, a);
    || (pc.Stamping? && db' == db
        && wk' == WithPc(wk.(session := wk.session + [Owned(a, Stamp(pc.id))]), a, StampExecuted(pc.id)))
    || ((pc.Inserting? || pc.Stamping?) && (db', wk') == StepExecuteFails(db, wk, a))
  }

  lemma StampPassKeeps(s: State, w: nat, db': Db, wk': Worker)
    requires Inv(s) && w in s.workers && Runs(s.workers[w], Redelivery)
    requires ExecutesOrFails(s.db, db', s.workers[w], wk', Redelivery)
    ensures Inv(State(db', s.workers[w := wk']))
  {
    hide Inv, WorkerInv, DbInv, DbGrows;
    var wk := s.workers[w];
    WorkerOf(s, w);
    PassPc(s.db, w, wk);
    QuietGrows(s.db, db', w);
    PassStepKeeps(s.db, db', w, wk, wk');
    QuietPassStep(s, w, db', wk');
  }

  lemma StampTaskKeeps(s: State, w: nat, t: nat, db': Db, wk': Worker)
    requires Inv(s) && w in s.workers && Runs(s.workers[w], Task(t))
    requires ExecutesOrFails(s.db, db', s.workers[w], wk', Task(t))
    ensures Inv(State(db', s.workers[w := wk']))
  {
    hide Inv, WorkerInv, DbInv, TaskInv, AttemptsInv, SweepInv, TaskStart, DbGrows;
    var wk := s.workers[w];
    WorkerOf(s, w);
    PhaseFacts(s.db, w, wk);
    TaskSession(s.db, w, wk, t);
    ExecuteKeeps(s.db, db', w, wk, wk', t);
    QuietTaskStep(s, w, db', wk', t);
  }

  lemma StampStepKeeps(s: State, w: nat, a: Actor, db': Db, wk': Worker)
    requires Inv(s) && w in s.workers && Runs(s.workers[w], a) && ExecutesOrFails(s.db, db', s.workers[w], wk', a)
    ensures Inv(State(db', s.workers[w := wk']))
  {
    hide Inv, ExecutesOrFails;
    match a
    case Redelivery => StampPassKeeps(s, w, db', wk');
    case Task(t) => StampTaskKeeps(s, w, t, db', wk');
  }

  lemma InsertOrigin(s: State, w: nat, db': Db, wk': Worker, t: nat)
    requires OriginInv(s) && DbInv(s.db) && w in s.workers && t < |s.workers[w].tasks|
    requires db' == s.db.(nextId := s.db.nextId + 1, creator := s.db.creator[s.db.nextId := (w, t)])
    requires TasksPersist(s.workers[w], wk')
    requires s.workers[w].tasks[t].verdict == Some(Rain) && s.workers[w].tasks[t].pc.Inserting?
    ensures OriginInv(State(db', s.workers[w := wk']))
    ensures DbInv(db') && DbGrows(s.db, db', w)
  {
    var s' := State(db', s.workers[w := wk']);
    assert TaskPersists(s.workers[w].tasks[t], wk'.tasks[t]);
    forall id | id in db'.creator
      ensures OriginOk(s', id)
    {
      if id in s.db.creator {
        assert OriginOk(s, id);
        var (v, u) := s.db.creator[id];
        if v == w { assert TaskPersists(s.workers[w].tasks[u], wk'.tasks[u]); }
      }
    }
  }

  /** The statement blocks until no other tick holds an uncommitted row with the same key. */
  lemma InsertPending(s: State, w: nat, db': Db, wk': Worker, t: nat, row: Row)
    requires PendingInv(s) && DbInv(s.db) && w in s.workers
    requires db' == s.db.(nextId := s.db.nextId + 1, creator := s.db.creator[s.db.nextId := (w, t)])
    requires wk'.session == [Owned(Task(t), Insert(s.db.nextId, row))]
    requires !KeyTaken(s.db.rows, row.key)
    requires forall v | v in s.workers && v != w :: !PendingInsertOf(s.workers[v], row.key)
    ensures PendingInv(State(db', s.workers[w := wk']))
  {
    var s' := State(db', s.workers[w := wk']);
    assert s.db.nextId !in s.db.creator;
    forall v | v in s'.workers && v != w && HasPendingInsert(s'.workers[v])
      ensures s'.workers[v].session[0].write.row.key != row.key
    {
      assert !PendingInsertOf(s.workers[v], row.key);
    }
  }

  lemma InsertStepKeeps(s: State, w: nat, t: nat, created: int)
    requires Inv(s) && w in s.workers && Runs(s.workers[w], Task(t)) && s.workers[w].tasks[t].pc.Inserting?
    requires forall v | v in s.workers && v != w :: !PendingInsertOf(s.workers[v], s.workers[w].tasks[t].key)
    ensures var (db', wk') := StepInsert(s.db, w, s.workers[w], t, created); Inv(State(db', s.workers[w := wk']))
  {
    hide Inv, WorkerInv, DbInv, TaskInv, AttemptsInv, SweepInv, TaskStart, OriginInv, PendingInv, KeyTaken;
    var wk := s.workers[w];
    var (db', wk') := StepInsert(s.db, w, wk, t, created);
    WorkerOf(s, w);
    PhaseFacts(s.db, w, wk);
    TaskSession(s.db, w, wk, t);
    RainFact(s.db, w, wk, t);
    assert wk.session == [];
    ExecuteKeeps(s.db, db', w, wk, wk', t);
    if KeyTaken(s.db.rows, wk.tasks[t].key) {
      QuietTaskStep(s, w, db', wk', t);
    } else {
      var row := Row(wk.tasks[t].key, created, false);
      assert wk'.session == [Owned(Task(t), Insert(s.db.nextId, row))];
      OnlyTaskPersists(wk, wk', t);
      GlobalOf(s);
      InsertOrigin(s, w, db', wk', t);
      InsertPending(s, w, db', wk', t, row);
      NextIdIsNew(s.db);
      TaskStepKeeps(s.db, db', w, wk, wk', t);
      CommitGlobal(s, w, db', wk');
    }
  }

  lemma GlobalOf(s: State)
    requires Inv(s)
    ensures DbInv(s.db) && PendingInv(s) && OriginInv(s)
  {}

  lemma NextIdIsNew(db: Db)
    requires DbInv(db)
    ensures db.nextId !in db.creator
  {}

  lemma RainFact(db: Db, w: nat, wk: Worker, t: nat)
    requires TaskStart(db, w, wk, t) && RainConfirmed(wk.tasks[t].pc)
    ensures wk.tasks[t].verdict == Some(Rain)
  {}

  lemma OneWriteApplied(rows: map<nat, Row>, session: seq<Owned>)
    requires |session| == 1
    ensures ApplyAll(rows, session) == ApplyWrite(rows, session[0].write)
  {
    assert session[..0] == [];
  }

  lemma CommitNothingPass(s: State, w: nat, result: CommitResult, db': Db, wk': Worker)
    requires Inv(s) && w in s.workers && Runs(s.workers[w], Redelivery)
    requires PcOf(s.workers[w], Redelivery).StampExecuted? && (result.Lost? || s.workers[w].session == [])
    requires (db', wk') == StepCommit(s.db, s.workers[w], Redelivery, result)
    ensures Inv(State(db', s.workers[w := wk']))
  {
    hide Inv, WorkerInv, DbInv, DbGrows;
    var wk := s.workers[w];
    WorkerOf(s, w);
    QuietGrows(s.db, db', w);
    PassPc(s.db, w, wk);
    PassStepKeeps(s.db, db', w, wk, wk');
    QuietPassStep(s, w, db', wk');
  }

  lemma CommitNothingTask(s: State, w: nat, t: nat, result: CommitResult, db': Db, wk': Worker)
    requires Inv(s) && w in s.workers && Runs(s.workers[w], Task(t))
    requires PcOf(s.workers[w], Task(t)).InsertExecuted? || PcOf(s.workers[w], Task(t)).StampExecuted?
    requires result.Lost? || s.workers[w].session == []
    requires (db', wk') == StepCommit(s.db, s.workers[w], Task(t), result)
    ensures Inv(State(db', s.workers[w := wk']))
  {
    hide Inv, WorkerInv, DbInv, DbGrows, TaskInv, AttemptsInv, SweepInv, TaskStart;
    var wk := s.workers[w];
    WorkerOf(s, w);
    PhaseFacts(s.db, w, wk);
    QuietGrows(s.db, db', w);
    TaskSession(s.db, w, wk, t);
    if result.Committed? {
      LeaveSessionKeeps(s.db, db', w, wk, wk', t);
    } else {
      CommitRaisedKeeps(s.db, db', w, wk, wk', t);
    }
    QuietTaskStep(s, w, db', wk', t);
  }

  /** A commit with nothing to apply: it failed, or the insert had hit the constraint. */
  lemma CommitNothingKeeps(s: State, w: nat, a: Actor, result: CommitResult, db': Db, wk': Worker)
    requires Inv(s) && w in s.workers && Runs(s.workers[w], a)
    requires PcOf(s.workers[w], a).InsertExecuted? || PcOf(s.workers[w], a).StampExecuted?
    requires result.Lost? || s.workers[w].session == []
    requires (db', wk') == StepCommit(s.db, s.workers[w], a, result)
    ensures Inv(State(db', s.workers[w := wk']))
  {
    hide Inv, StepCommit;
    match a
    case Redelivery =>
      if PcOf(s.workers[w], a).InsertExecuted? { InsertIsTasks(s, w, a); }
      CommitNothingPass(s, w, result, db', wk');
    case Task(t) => CommitNothingTask(s, w, t, result, db', wk');
  }

  /** What committing its insert means for the task and for its tick. */
  lemma CommitInsertLocal(db: Db, db': Db, w: nat, wk: Worker, wk': Worker, t: nat, result: CommitResult)
    requires DbInv(db) && WorkerInv(db, w, wk) && TaskStart(db, w, wk, t) && !result.Lost?
    requires wk.tasks[t].pc.InsertExecuted? && wk.session != []
    requires HasPendingInsert(wk) ==>
        wk.session[0].write.id !in db.rows && !KeyTaken(db.rows, wk.session[0].write.row.key)
    requires (db', wk') == StepCommit(db, wk, Task(t), result)
    ensures OnlyTask(wk, wk', t) && TaskPersists(wk.tasks[t], wk'.tasks[t])
    ensures DbInv(db') && DbGrows(db, db', w) && WorkerInv(db', w, wk') && wk'.session == []
    ensures HasPendingInsert(wk)
    ensures var write := wk.session[0].write;
            db'.rows == db.rows[write.id := write.row] && db'.creator == db.creator
            && write.id in db.creator && db.creator[write.id] == (w, t) && write.row.key == wk.tasks[t].key
  {
    hide WorkerInv, DbInv, TaskInv, AttemptsInv, SweepInv, DbGrows;
    TaskSession(db, w, wk, t);
    var write := wk.session[0].write;
    OneWriteApplied(db.rows, wk.session);
    CommitInsertGrows(db, w, write.id, write.row);
    if result.Committed? {
      LeaveSessionKeeps(db, db', w, wk, wk', t);
    } else {
      CommitRaisedKeeps(db, db', w, wk, wk', t);
    }
    TaskStepKeeps(db, db', w, wk, wk', t);
  }

  lemma CommitInsertInv(s: State, w: nat, t: nat, result: CommitResult, db': Db, wk': Worker)
    requires Inv(s) && w in s.workers && Runs(s.workers[w], Task(t)) && !result.Lost?
    requires s.workers[w].tasks[t].pc.InsertExecuted? && s.workers[w].session != []
    requires (db', wk') == StepCommit(s.db, s.workers[w], Task(t), result)
    ensures Inv(State(db', s.workers[w := wk']))
  {
    hide Inv, WorkerInv, DbInv, TaskStart, OriginInv, PendingInv, DbGrows, StepCommit, OnlyTask, TasksPersist,
        TaskPersists, KeyTaken;
    var wk := s.workers[w];
    WorkerOf(s, w);
    GlobalOf(s);
    PhaseFacts(s.db, w, wk);
    if HasPendingInsert(wk) { PendingFact(s, w); }
    CommitInsertLocal(s.db, db', w, wk, wk', t, result);
    OnlyTaskPersists(wk, wk', t);
    CommitInsertGlobal(s, w, wk', db');
    CommitGlobal(s, w, db', wk');
  }

  lemma PendingFact(s: State, w: nat)
    requires PendingInv(s) && w in s.workers && HasPendingInsert(s.workers[w])
    ensures var write := s.workers[w].session[0].write;
            && write.id in s.db.creator && s.db.creator[write.id].0 == w
            && write.id !in s.db.rows && !KeyTaken(s.db.rows, write.row.key)
  {}

  lemma CommitStampPass(s: State, w: nat, result: CommitResult, db': Db, wk': Worker)
    requires Inv(s) && w in s.workers && Runs(s.workers[w], Redelivery) && !result.Lost?
    requires s.workers[w].phase.pc.StampExecuted?
    requires (db', wk') == StepCommit(s.db, s.workers[w], Redelivery, result)
    ensures WorkerInv(db', w, wk') && DbInv(db') && DbGrows(s.db, db', w)
    ensures wk'.session == [] && TasksPersist(s.workers[w], wk')
    ensures db'.rows == ApplyWrite(s.db.rows, Stamp(s.workers[w].phase.pc.id)) && db'.creator == s.db.creator
  {
    hide Inv, WorkerInv, DbInv, DbGrows;
    var wk := s.workers[w];
    var id := wk.phase.pc.id;
    WorkerOf(s, w);
    PassPc(s.db, w, wk);
    OneWriteApplied(s.db.rows, wk.session);
    CommitStampGrows(s.db, w, id);
    GrowsIgnoresFailures(s.db, db', w);
    if result.Committed? {
      PassNextKeeps(s.db, db', w, wk, wk');
    } else {
      PassStepKeeps(s.db, db', w, wk, wk');
    }
  }

  lemma CommitStampTask(s: State, w: nat, t: nat, result: CommitResult, db': Db, wk': Worker)
    requires Inv(s) && w in s.workers && Runs(s.workers[w], Task(t)) && !result.Lost?
    requires s.workers[w].tasks[t].pc.StampExecuted?
    requires (db', wk') == StepCommit(s.db, s.workers[w], Task(t), result)
    ensures WorkerInv(db', w, wk') && DbInv(db') && DbGrows(s.db, db', w)
    ensures wk'.session == [] && TasksPersist(s.workers[w], wk')
    ensures db'.rows == ApplyWrite(s.db.rows, Stamp(s.workers[w].tasks[t].pc.id)) && db'.creator == s.db.creator
  {
    hide Inv, WorkerInv, DbInv, TaskInv, AttemptsInv, SweepInv, TaskStart, DbGrows;
    var wk := s.workers[w];
    var id := wk.tasks[t].pc.id;
    WorkerOf(s, w);
    PhaseFacts(s.db, w, wk);
    TaskSession(s.db, w, wk, t);
    AcceptedFact(s.db, w, wk, t);
    OneWriteApplied(s.db.rows, wk.session);
    CommitStampGrows(s.db, w, id);
    GrowsIgnoresFailures(s.db, db', w);
    OnlyTaskPersists(wk, wk', t);
    if result.Committed? {
      LeaveSessionKeeps(s.db, db', w, wk, wk', t);
    } else {
      CommitRaisedKeeps(s.db, db', w, wk, wk', t);
    }
    TaskStepKeeps(s.db, db', w, wk, wk', t);
  }

  lemma CommitStampKeeps(s: State, w: nat, a: Actor, result: CommitResult, db': Db, wk': Worker)
    requires Inv(s) && w in s.workers && Runs(s.workers[w], a) && !result.Lost?
    requires PcOf(s.workers[w], a).StampExecuted?
    requires (db', wk') == StepCommit(s.db, s.workers[w], a, result)
    ensures Inv(State(db', s.workers[w := wk']))
  {
    hide Inv, WorkerInv, DbInv, OriginInv, PendingInv, DbGrows, StepCommit, TasksPersist, ApplyWrite;
    match a {
      case Redelivery => CommitStampPass(s, w, result, db', wk');
      case Task(t) => CommitStampTask(s, w, t, result, db', wk');
    }
    GlobalOf(s);
    CommitStampGlobal(s, w, wk', db', PcOf(s.workers[w], a).id);
    CommitGlobal(s, w, db', wk');
  }

  lemma CommitStepKeeps(s: State, w: nat, a: Actor, result: CommitResult)
    requires Inv(s) && w in s.workers && Runs(s.workers[w], a)
    requires PcOf(s.workers[w], a).InsertExecuted? || PcOf(s.workers[w], a).StampExecuted?
    ensures var (db', wk') := StepCommit(s.db, s.workers[w], a, result); Inv(State(db', s.workers[w := wk']))
  {
    hide Inv, StepCommit;
    var (db', wk') := StepCommit(s.db, s.workers[w], a, result);
    if result.Lost? || s.workers[w].session == [] {
      CommitNothingKeeps(s, w, a, result, db', wk');
    } else if PcOf(s.workers[w], a).StampExecuted? {
      CommitStampKeeps(s, w, a, result, db', wk');
    } else {
      InsertIsTasks(s, w, a);
      CommitInsertInv(s, w, a.index, result, db', wk');
    }
  }

  lemma AcceptedFact(db: Db, w: nat, wk: Worker, t: nat)
    requires TaskStart(db, w, wk, t) && Accepted(wk.tasks[t].pc)
    ensures db.accepted[wk.tasks[t].pc.id] >= 1
  {}

  lemma GrowsIgnoresFailures(db: Db, db': Db, w: nat)
    requires var db1 := db.(rows := db'.rows); DbInv(db1) && DbGrows(db, db1, w)
    requires db' == db.(rows := db'.rows, stampFailures := db'.stampFailures)
    ensures DbInv(db') && DbGrows(db, db', w)
  {}

  /** An actor's step keeps the invariant. */
  lemma ActorStepKeeps(s: State, w: nat, act: Action)
    requires Inv(s) && w in s.workers && ActEnabled(s, w, act) && IsActorStep(act)
    ensures Inv(Step(s, Act(w, act)))
  {
    hide Inv, ActStep, ActEnabled, StepSend, StepExecuteFails, StepRollback, StepCommit, StepEvaluate, StepInsert,
        WithPc;
    ActorStepIs(s, w, act);
    var (db', wk') := ActStep(s, w, act);
    match act
    case AcquirePermit(t) => PermitLeft(s, w, t); PermitStepKeeps(s, w, t);
    case Evaluate(t, verdict) => EvaluateStepKeeps(s, w, t, verdict);
    case AcquireLock(t) =>
      LockIsFree(s, w, t);
      var pc := s.workers[w].tasks[t].pc;
      LockStepKeeps(s, w, t, if pc.AwaitInsert? then Inserting else Stamping(pc.id));
    case ExecuteInsert(t, created) => NoPendingInsert(s, w, t, created); InsertStepKeeps(s, w, t, created);
    case ExecuteStamp(a) => StampStepKeeps(s, w, a, db', wk');
    case ExecuteFails(a) => StampStepKeeps(s, w, a, db', wk');
    case Rollback(a, raises) => RollbackStepKeeps(s, w, a, raises);
    case Send(a, accepted) => SendStepKeeps(s, w, a, accepted);
    case Commit(a, result) => CommitStepKeeps(s, w, a, result);
  }

  lemma PermitLeft(s: State, w: nat, t: nat)
    requires w in s.workers && ActEnabled(s, w, AcquirePermit(t))
    ensures s.workers[w].permits > 0
  {}

  lemma LockIsFree(s: State, w: nat, t: nat)
    requires w in s.workers && ActEnabled(s, w, AcquireLock(t))
    ensures s.workers[w].lock.None?
  {}

  lemma NoPendingInsert(s: State, w: nat, t: nat, created: int)
    requires w in s.workers && ActEnabled(s, w, ExecuteInsert(t, created))
    ensures Runs(s.workers[w], Task(t))
    ensures forall v | v in s.workers && v != w :: !PendingInsertOf(s.workers[v], s.workers[w].tasks[t].key)
  {
    hide PendingInsertOf;
  }

  /** Every step of every tick keeps the invariant. */
  lemma StepKeeps(s: State, e: Event)
    requires Inv(s) && Enabled(s, e)
    ensures Inv(Step(s, e))
  {
    hide Inv, ActStep, ActEnabled;
    match e
    case StartTick(w, today) => StartTickKeeps(s, w, today);
    case Act(w, act) => if IsActorStep(act) { ActorStepKeeps(s, w, act); } else { TickStepKeeps(s, w, act); }
  }

  lemma InsertIsTasks(s: State, w: nat, a: Actor)
    requires Inv(s) && w in s.workers && Runs(s.workers[w], a) && PcOf(s.workers[w], a).InsertExecuted?
    ensures a.Task?
  {
    if a.Redelivery? {
      hide WorkerInv;
      WorkerOf(s, w);
      PassPc(s.db, w, s.workers[w]);
    }
  }

  lemma InitInv()
    ensures Inv(INIT)
  {}
}
