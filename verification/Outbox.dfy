/**
 The `notifications` table as the notify service sees it: one row per recorded rain alert.
 */
module OutboxTable {
  /** The unique constraint's columns. A date is a day ordinal. */
  datatype Key = Key(alert: int, date: int)

  /** `delivered` stands for a non-NULL `delivered_at`; `created` is the `created_at` timestamp. */
  datatype Row = Row(key: Key, created: int, delivered: bool)

  const MAX_REDELIVERIES_PER_TICK: nat := 50

  /** The row is in the retry set of a tick dated `today`. */
  predicate Eligible(row: Row, today: int) {
    !row.delivered && row.key.date >= today
  }

  ghost predicate KeyTaken(rows: map<nat, Row>, key: Key) {
    exists id :: id in rows && rows[id].key == key
  }

  ghost predicate NoDuplicates(ids: seq<nat>) {
    forall i, j | 0 <= i < j < |ids| :: ids[i] != ids[j]
  }

  /** What the retry query may answer: eligible rows, oldest first, at most `limit` of them. */
  ghost predicate OldestPending(rows: map<nat, Row>, today: int, limit: nat, ids: seq<nat>) {
    && |ids| <= limit
    && NoDuplicates(ids)
    && (forall id | id in ids :: id in rows && Eligible(rows[id], today))
    && (forall i, j | 0 <= i < j < |ids| :: rows[ids[i]].created <= rows[ids[j]].created)
    && (forall id | id in rows && Eligible(rows[id], today) && id !in ids ::
          && |ids| == limit
          && forall i | 0 <= i < |ids| :: rows[ids[i]].created <= rows[id].created)
  }
}

/**
 One tick of the worker as a process over the shared table, and any number of ticks, possibly
 overlapping, as a transition system. Every `await` of `run_due_checks`, `redeliver_pending`,
 `process_trip_alert` and `deliver` is a step of its own; the database, the channel, the planner
 and the forecast answer as they like.
 */
module Outbox {
  import opened Wrappers
  import opened OutboxTable
  import opened Verdicts

  const MAX_ACTIVE: int := 4

  /** Who uses a tick's session: the serial redelivery pass, or one task of the sweep. */
  datatype Actor = Redelivery | Task(index: nat)

  datatype Write = Insert(id: nat, row: Row) | Stamp(id: nat)

  /** An uncommitted statement in a session, with the actor that executed it. */
  datatype Owned = Owned(actor: Actor, write: Write)

  /** How `process_trip_alert` ended. Only `Recorded` returns a notification. */
  datatype Outcome = Recorded(id: nat) | AlreadyRecorded | Skipped | Failed

  /** Where an actor is. `...Executed` is before the commit, `...Aborted` before the rollback. */
  datatype Pc =
    | Queued
    | Evaluating
    | AwaitInsert
    | Inserting
    | InsertExecuted(hit: Option<nat>)
    | InsertAborted
    | Sending(id: nat)
    | AwaitStamp(id: nat)
    | Stamping(id: nat)
    | StampExecuted(id: nat)
    | StampAborted(id: nat)
    | Finished(outcome: Outcome)

  datatype TaskState = TaskState(key: Key, verdict: Option<Verdict>, pc: Pc)

  datatype Phase =
    | Selecting
    | Redelivering(pc: Pc, queue: seq<nat>)
    | PassAborted
    | SelectingDue
    | Sweeping
    | Returned
    | Dead

  /**
   A tick. `permits` and `lock` are the semaphore and the database lock, `session` the
   uncommitted writes of its one session. The rest is history: the rows the redelivery pass
   picked, whether that pass was abandoned, and the rows handed to the channel.
   */
  datatype Worker = Worker(
    today: int,
    phase: Phase,
    tasks: seq<TaskState>,
    permits: int,
    lock: Option<nat>,
    session: seq<Owned>,
    selected: set<nat>,
    aborted: bool,
    attempts: multiset<nat>)

  /**
   The committed table and its id sequence, with three histories: sends the channel accepted,
   stamps that failed or were cut off, and which task of which tick created a row id.
   */
  datatype Db = Db(
    rows: map<nat, Row>,
    nextId: nat,
    accepted: multiset<nat>,
    stampFailures: multiset<nat>,
    creator: map<nat, (nat, nat)>)

  datatype State = State(db: Db, workers: map<nat, Worker>)

  /** A commit may succeed, fail without effect, or take effect and still raise. */
  datatype CommitResult = Committed | Lost | Ambiguous

  datatype Action =
    | SelectPending(ids: seq<nat>)
    | SelectPendingFails
    | RollbackPass(raises: bool)
    | SelectDue(keys: seq<Key>)
    | SelectDueFails
    | AcquirePermit(t: nat)
    | Evaluate(t: nat, verdict: Option<Verdict>)
    | AcquireLock(t: nat)
    | ExecuteInsert(t: nat, created: int)
    | ExecuteStamp(actor: Actor)
    | ExecuteFails(actor: Actor)
    | Commit(actor: Actor, result: CommitResult)
    | Rollback(actor: Actor, raises: bool)
    | Send(actor: Actor, accepted: bool)
    | Return
    | Crash

  datatype Event = StartTick(w: nat, today: int) | Act(w: nat, action: Action)

  // ---------------------------------------------------------------------------------------
  // Program counters
  // ---------------------------------------------------------------------------------------

  /** Holding the semaphore. */
  predicate Active(pc: Pc) { !pc.Queued? && !pc.Finished? }

  /** Between taking the database lock and releasing it. */
  predicate InSession(pc: Pc) {
    pc.Inserting? || pc.InsertExecuted? || pc.InsertAborted? || pc.Stamping? || pc.StampExecuted? || pc.StampAborted?
  }

  /** The channel accepted the row and its stamp has neither committed nor failed. */
  predicate Unstamped(pc: Pc) { pc.AwaitStamp? || pc.Stamping? || pc.StampExecuted? }

  predicate Live(wk: Worker) { !wk.phase.Returned? && !wk.phase.Dead? }

  predicate Runs(wk: Worker, a: Actor) {
    match a
    case Redelivery => wk.phase.Redelivering?
    case Task(t) => wk.phase.Sweeping? && t < |wk.tasks|
  }

  function PcOf(wk: Worker, a: Actor): Pc
    requires Runs(wk, a)
  {
    match a
    case Redelivery => wk.phase.pc
    case Task(t) => wk.tasks[t].pc
  }

  function WithPc(wk: Worker, a: Actor, pc: Pc): Worker
    requires Runs(wk, a)
  {
    match a
    case Redelivery => wk.(phase := Redelivering(pc, wk.phase.queue))
    case Task(t) => wk.(tasks := wk.tasks[t := wk.tasks[t].(pc := pc)])
  }

  function NextDelivery(queue: seq<nat>): Phase {
    if queue == [] then SelectingDue else Redelivering(Sending(queue[0]), queue[1..])
  }

  /** The actor is done with its row: the pass takes the next one, a task leaves the semaphore. */
  function Finish(wk: Worker, a: Actor, outcome: Outcome): Worker
    requires Runs(wk, a)
  {
    match a
    case Redelivery => wk.(phase := NextDelivery(wk.phase.queue))
    case Task(t) => WithPc(wk, a, Finished(outcome)).(permits := wk.permits + 1)
  }

  /** An exception leaves the actor: the whole pass is abandoned, a task is logged and skipped. */
  function Raise(wk: Worker, a: Actor): Worker
    requires Runs(wk, a)
  {
    match a
    case Redelivery => wk.(phase := PassAborted, aborted := true)
    case Task(t) => Finish(wk, a, Failed)
  }

  function UnstampedTasks(tasks: seq<TaskState>): multiset<nat> {
    if tasks == [] then multiset{}
    else UnstampedTasks(tasks[..|tasks| - 1]) + UnstampedIn(tasks[|tasks| - 1].pc)
  }

  function UnstampedIn(pc: Pc): multiset<nat> {
    if Unstamped(pc) then multiset{pc.id} else multiset{}
  }

  /** The rows a tick has sent and not yet stamped; a crash leaves them all unstamped. */
  function InFlight(wk: Worker): multiset<nat> {
    match wk.phase
    case Redelivering(pc, _) => UnstampedIn(pc)
    case Sweeping => UnstampedTasks(wk.tasks)
    case _ => multiset{}
  }

  function ActiveCount(tasks: seq<TaskState>): nat {
    if tasks == [] then 0
    else ActiveCount(tasks[..|tasks| - 1]) + if Active(tasks[|tasks| - 1].pc) then 1 else 0
  }

  // ---------------------------------------------------------------------------------------
  // The database
  // ---------------------------------------------------------------------------------------

  function ApplyWrite(rows: map<nat, Row>, write: Write): map<nat, Row> {
    match write
    case Insert(id, row) => rows[id := row]
    case Stamp(id) => if id in rows then rows[id := rows[id].(delivered := true)] else rows
  }

  function ApplyAll(rows: map<nat, Row>, session: seq<Owned>): map<nat, Row> {
    if session == [] then rows
    else ApplyWrite(ApplyAll(rows, session[..|session| - 1]), session[|session| - 1].write)
  }

  ghost predicate PendingInsertOf(wk: Worker, key: Key) {
    exists i :: 0 <= i < |wk.session| && wk.session[i].write.Insert? && wk.session[i].write.row.key == key
  }

  ghost predicate PendingStampOf(wk: Worker, id: nat) {
    exists i :: 0 <= i < |wk.session| && wk.session[i].write == Stamp(id)
  }

  // ---------------------------------------------------------------------------------------
  // Steps
  // ---------------------------------------------------------------------------------------

  ghost predicate ActEnabled(s: State, w: nat, act: Action)
    requires w in s.workers
  {
    var wk := s.workers[w];
    && Live(wk)
    && match act
       case SelectPending(ids) =>
         wk.phase.Selecting? && OldestPending(s.db.rows, wk.today, MAX_REDELIVERIES_PER_TICK, ids)
       case SelectPendingFails => wk.phase.Selecting?
       case RollbackPass(_) => wk.phase.PassAborted?
       case SelectDue(keys) =>
         wk.phase.SelectingDue? && forall i | 0 <= i < |keys| :: wk.today <= keys[i].date <= wk.today + 1
       case SelectDueFails => wk.phase.SelectingDue?
       case AcquirePermit(t) => Runs(wk, Task(t)) && wk.tasks[t].pc.Queued? && wk.permits > 0
       case Evaluate(t, _) => Runs(wk, Task(t)) && wk.tasks[t].pc.Evaluating?
       case AcquireLock(t) =>
         Runs(wk, Task(t)) && (wk.tasks[t].pc.AwaitInsert? || wk.tasks[t].pc.AwaitStamp?) && wk.lock.None?
       case ExecuteInsert(t, _) =>
         // The unique index makes the statement wait for another session's uncommitted row.
         && Runs(wk, Task(t)) && wk.tasks[t].pc.Inserting?
         && forall v | v in s.workers && v != w :: !PendingInsertOf(s.workers[v], wk.tasks[t].key)
       case ExecuteStamp(a) =>
         // The row lock makes the statement wait for another session's uncommitted stamp.
         && Runs(wk, a) && PcOf(wk, a).Stamping?
         && forall v | v in s.workers && v != w :: !PendingStampOf(s.workers[v], PcOf(wk, a).id)
       case ExecuteFails(a) => Runs(wk, a) && (PcOf(wk, a).Inserting? || PcOf(wk, a).Stamping?)
       case Commit(a, _) => Runs(wk, a) && (PcOf(wk, a).InsertExecuted? || PcOf(wk, a).StampExecuted?)
       case Rollback(a, _) => Runs(wk, a) && (PcOf(wk, a).InsertAborted? || PcOf(wk, a).StampAborted?)
       case Send(a, _) => Runs(wk, a) && PcOf(wk, a).Sending?
       case Return => wk.phase.Sweeping? && forall t | 0 <= t < |wk.tasks| :: wk.tasks[t].pc.Finished?
       case Crash => true
  }

  ghost predicate Enabled(s: State, e: Event) {
    match e
    case StartTick(w, _) => w !in s.workers
    case Act(w, act) => w in s.workers && ActEnabled(s, w, act)
  }

  function NewWorker(today: int): Worker {
    Worker(today, Selecting, [], MAX_ACTIVE, None, [], {}, false, multiset{})
  }

  ghost function StepInsert(db: Db, w: nat, wk: Worker, t: nat, created: int): (Db, Worker)
    requires Runs(wk, Task(t))
  {
    var key := wk.tasks[t].key;
    if KeyTaken(db.rows, key) || PendingInsertOf(wk, key) then
      (db, WithPc(wk, Task(t), InsertExecuted(None)))
    else
      var id := db.nextId;
      var write := Owned(Task(t), Insert(id, Row(key, created, false)));
      (db.(nextId := id + 1, creator := db.creator[id := (w, t)]),
       WithPc(wk.(session := wk.session + [write]), Task(t), InsertExecuted(Some(id))))
  }

  function StepCommit(db: Db, wk: Worker, a: Actor, result: CommitResult): (Db, Worker)
    requires Runs(wk, a) && (PcOf(wk, a).InsertExecuted? || PcOf(wk, a).StampExecuted?)
  {
    var pc := PcOf(wk, a);
    var db1 := if result.Lost? then db else db.(rows := ApplyAll(db.rows, wk.session));
    var wk1 := if result.Lost? then wk else wk.(session := []);
    if result.Committed? then
      var wk2 := wk1.(lock := None);
      match pc
      case InsertExecuted(Some(id)) => (db1, WithPc(wk2, a, Sending(id)))
      case InsertExecuted(None) => (db1, Finish(wk2, a, AlreadyRecorded))
      case _ => (db1, Finish(wk2, a, Recorded(pc.id)))
    else if pc.InsertExecuted? then
      (db1, WithPc(wk1, a, InsertAborted))
    else
      (db1.(stampFailures := db1.stampFailures + multiset{pc.id}), WithPc(wk1, a, StampAborted(pc.id)))
  }

  /** A rollback discards the whole session, whether or not it raises. */
  function StepRollback(wk: Worker, a: Actor, raises: bool): Worker
    requires Runs(wk, a) && (PcOf(wk, a).InsertAborted? || PcOf(wk, a).StampAborted?)
  {
    var pc := PcOf(wk, a);
    var wk1 := wk.(session := [], lock := None);
    if pc.InsertAborted? || raises then Raise(wk1, a) else Finish(wk1, a, Recorded(pc.id))
  }

  function StepSend(db: Db, wk: Worker, a: Actor, accepted: bool): (Db, Worker)
    requires Runs(wk, a) && PcOf(wk, a).Sending?
  {
    var id := PcOf(wk, a).id;
    var wk1 := wk.(attempts := wk.attempts + multiset{id});
    if !accepted then (db, Finish(wk1, a, Recorded(id)))
    else
      (db.(accepted := db.accepted + multiset{id}),
       WithPc(wk1, a, if a.Redelivery? then Stamping(id) else AwaitStamp(id)))
  }

  function StepExecuteFails(db: Db, wk: Worker, a: Actor): (Db, Worker)
    requires Runs(wk, a) && (PcOf(wk, a).Inserting? || PcOf(wk, a).Stamping?)
  {
    var pc := PcOf(wk, a);
    if pc.Inserting? then (db, WithPc(wk, a, InsertAborted))
    else (db.(stampFailures := db.stampFailures + multiset{pc.id}), WithPc(wk, a, StampAborted(pc.id)))
  }

  function StepEvaluate(wk: Worker, t: nat, verdict: Option<Verdict>): Worker
    requires Runs(wk, Task(t))
  {
    var wk1 := wk.(tasks := wk.tasks[t := wk.tasks[t].(verdict := verdict)]);
    if verdict.None? then Finish(wk1, Task(t), Failed)
    else if verdict.value.Rain? then WithPc(wk1, Task(t), AwaitInsert)
    else Finish(wk1, Task(t), Skipped)
  }

  ghost function ActStep(s: State, w: nat, act: Action): (Db, Worker)
    requires w in s.workers && ActEnabled(s, w, act)
  {
    var wk := s.workers[w];
    var db := s.db;
    match act
    case SelectPending(ids) => (db, wk.(phase := NextDelivery(ids), selected := set id | id in ids))
    case SelectPendingFails => (db, wk.(phase := PassAborted, aborted := true))
    case RollbackPass(raises) => (db, wk.(session := [], phase := if raises then Dead else SelectingDue))
    case SelectDue(keys) =>
      (db, wk.(phase := Sweeping, tasks := seq(|keys|, i requires 0 <= i < |keys| => TaskState(keys[i], None, Queued))))
    case SelectDueFails => (db, wk.(session := [], phase := Dead))
    case AcquirePermit(t) => (db, WithPc(wk, Task(t), Evaluating).(permits := wk.permits - 1))
    case Evaluate(t, verdict) => (db, StepEvaluate(wk, t, verdict))
    case AcquireLock(t) =>
      var pc := wk.tasks[t].pc;
      (db, WithPc(wk.(lock := Some(t)), Task(t), if pc.AwaitInsert? then Inserting else Stamping(pc.id)))
    case ExecuteInsert(t, created) => StepInsert(db, w, wk, t, created)
    case ExecuteStamp(a) =>
      var id := PcOf(wk, a).id;
      (db, WithPc(wk.(session := wk.session + [Owned(a, Stamp(id))]), a, StampExecuted(id)))
    case ExecuteFails(a) => StepExecuteFails(db, wk, a)
    case Commit(a, result) => StepCommit(db, wk, a, result)
    case Rollback(a, raises) => (db, StepRollback(wk, a, raises))
    case Send(a, accepted) => StepSend(db, wk, a, accepted)
    case Return => (db, wk.(phase := Returned))
    case Crash => (db.(stampFailures := db.stampFailures + InFlight(wk)), wk.(session := [], phase := Dead))
  }

  ghost function Step(s: State, e: Event): State
    requires Enabled(s, e)
  {
    match e
    case StartTick(w, today) => s.(workers := s.workers[w := NewWorker(today)])
    case Act(w, act) =>
      var (db, wk) := ActStep(s, w, act);
      State(db, s.workers[w := wk])
  }

  const INIT: State := State(Db(map[], 0, multiset{}, multiset{}, map[]), map[])

  /** `events` can happen one after the other from `s`. */
  ghost predicate Legal(s: State, events: seq<Event>)
    decreases |events|
  {
    events == [] || (Enabled(s, events[0]) && Legal(Step(s, events[0]), events[1..]))
  }

  ghost function Run(s: State, events: seq<Event>): State
    requires Legal(s, events)
    decreases |events|
  {
    if events == [] then s else Run(Step(s, events[0]), events[1..])
  }
}
