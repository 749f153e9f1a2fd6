/** What every step of every tick keeps, and the proof that it does. */
module OutboxInvariant {
  import opened Wrappers
  import opened OutboxTable
  import opened Outbox
  import opened Verdicts

  predicate CarriesId(pc: Pc) {
    pc.Sending? || Accepted(pc) || (pc.Finished? && pc.outcome.Recorded?)
  }

  function IdOf(pc: Pc): nat
    requires CarriesId(pc)
  {
    if pc.Finished? then pc.outcome.id else pc.id
  }

  /** The channel accepted the row this actor carries. */
  predicate Accepted(pc: Pc) { Unstamped(pc) || pc.StampAborted? }

  /** No send is still to come from this actor. */
  predicate HandedOver(pc: Pc) { Accepted(pc) || pc.Finished? }

  /** The evaluation must have said rain to get here. */
  predicate RainConfirmed(pc: Pc) {
    (Active(pc) && !pc.Evaluating?) || (pc.Finished? && (pc.outcome.Recorded? || pc.outcome.AlreadyRecorded?))
  }

  predicate SawConflict(pc: Pc) {
    (pc.InsertExecuted? && pc.hit.None?) || (pc.Finished? && pc.outcome.AlreadyRecorded?)
  }

  ghost predicate DbInv(db: Db) {
    && (forall i, j | i in db.rows && j in db.rows && i != j :: db.rows[i].key != db.rows[j].key)
    && (forall id | id in db.rows :: id in db.creator)
    && (forall id | id in db.rows && db.rows[id].delivered :: db.accepted[id] >= 1)
    && (forall id | id in db.creator :: id < db.nextId)
  }

  ghost predicate TaskInv(db: Db, w: nat, wk: Worker, t: nat)
    requires t < |wk.tasks|
  {
    var task := wk.tasks[t];
    && wk.today <= task.key.date <= wk.today + 1
    && (RainConfirmed(task.pc) ==> task.verdict == Some(Rain))
    && (task.pc.Finished? && task.pc.outcome.Skipped? ==> task.verdict.Some? && !task.verdict.value.Rain?)
    && (task.pc.Finished? && task.pc.outcome.Failed? ==> task.verdict.None? || task.verdict.value.Rain?)
    && (CarriesId(task.pc) ==>
          var id := IdOf(task.pc);
          && id in db.rows && db.rows[id].key == task.key
          && id in db.creator && db.creator[id] == (w, t)
          && (Accepted(task.pc) ==> db.accepted[id] >= 1))
    && (task.pc.Sending? ==> task.pc.id !in wk.attempts)
    && (SawConflict(task.pc) ==> KeyTaken(db.rows, task.key))
    && (forall id | id in wk.attempts && id in db.creator && db.creator[id] == (w, t) :: HandedOver(task.pc))
  }

  ghost predicate AttemptsInv(db: Db, w: nat, wk: Worker) {
    && (forall id :: wk.attempts[id] <= 1)
    && (forall id | id in wk.attempts :: id in wk.selected || (id in db.creator && db.creator[id].0 == w))
    && (forall id | id in wk.selected :: id in db.rows && id in db.creator && db.creator[id].0 != w)
    && CurrentRows(db, wk)
    && (AfterPass(wk.phase) && !wk.aborted ==> forall id | id in wk.selected :: id in wk.attempts)
  }

  /** The rows selected or handed over are committed, and their departure day has not passed. */
  ghost predicate CurrentRows(db: Db, wk: Worker) {
    forall id | id in wk.selected || id in wk.attempts :: id in db.rows && wk.today <= db.rows[id].key.date
  }

  predicate AfterPass(phase: Phase) { phase.SelectingDue? || phase.Sweeping? || phase.Returned? }

  /** The session holds nothing but the statement its current user has executed. */
  ghost predicate SessionFits(db: Db, w: nat, wk: Worker, a: Actor, pc: Pc) {
    match pc
    case InsertExecuted(Some(id)) => OwnInsert(db, w, wk, a) && wk.session[0].write.id == id
    case InsertAborted => wk.session == [] || OwnInsert(db, w, wk, a)
    case StampExecuted(id) => wk.session == [Owned(a, Stamp(id))]
    case StampAborted(id) => wk.session == [] || wk.session == [Owned(a, Stamp(id))]
    case _ => wk.session == []
  }

  ghost predicate OwnInsert(db: Db, w: nat, wk: Worker, a: Actor) {
    && |wk.session| == 1 && wk.session[0].actor == a && wk.session[0].write.Insert?
    && a.Task? && a.index < |wk.tasks|
    && var write := wk.session[0].write;
       && write.id in db.creator && db.creator[write.id] == (w, a.index)
       && write.row.key == wk.tasks[a.index].key && !write.row.delivered
  }

  ghost predicate InAgeOrder(rows: map<nat, Row>, ids: seq<nat>) {
    && (forall id | id in ids :: id in rows)
    && (forall i, j | 0 <= i < j < |ids| :: rows[ids[i]].created <= rows[ids[j]].created)
  }

  ghost predicate RedeliveryInv(db: Db, w: nat, wk: Worker)
    requires wk.phase.Redelivering?
  {
    var pc, queue := wk.phase.pc, wk.phase.queue;
    && (pc.Sending? || pc.Stamping? || pc.StampExecuted? || pc.StampAborted?)
    && !wk.aborted && pc.id in wk.selected && pc.id !in queue
    && NoDuplicates(queue)
    && (forall id | id in queue :: id in wk.selected && id !in wk.attempts)
    && (pc.Sending? <==> pc.id !in wk.attempts)
    && (forall id | id in wk.selected :: id in wk.attempts || id == pc.id || id in queue)
    && (Accepted(pc) ==> db.accepted[pc.id] >= 1)
    && InAgeOrder(db.rows, [pc.id] + queue)
    && SessionFits(db, w, wk, Redelivery, pc)
  }

  /** The semaphore is exact and the lock is held by the one task that is in the session. */
  ghost predicate SweepInv(db: Db, w: nat, wk: Worker) {
    && 0 <= wk.permits
    && wk.permits + ActiveCount(wk.tasks) == MAX_ACTIVE
    && (forall t | 0 <= t < |wk.tasks| :: InSession(wk.tasks[t].pc) <==> wk.lock == Some(t))
    && match wk.lock
       case None => wk.session == []
       case Some(t) => t < |wk.tasks| && SessionFits(db, w, wk, Task(t), wk.tasks[t].pc)
  }

  ghost predicate WorkerInv(db: Db, w: nat, wk: Worker) {
    && AttemptsInv(db, w, wk)
    && (forall t | 0 <= t < |wk.tasks| :: TaskInv(db, w, wk, t))
    && (!wk.phase.Sweeping? && Live(wk) ==> wk.tasks == [] && wk.lock == None && wk.permits == MAX_ACTIVE)
    && match wk.phase
       case Selecting => wk.session == [] && wk.selected == {} && wk.attempts == multiset{} && !wk.aborted
       case Redelivering(_, _) => RedeliveryInv(db, w, wk)
       case PassAborted => wk.session == [] && wk.aborted
       case Sweeping => SweepInv(db, w, wk)
       case Returned => wk.session == [] && forall t | 0 <= t < |wk.tasks| :: wk.tasks[t].pc.Finished?
       case _ => wk.session == []
  }

  ghost predicate HasPendingInsert(wk: Worker) {
    |wk.session| == 1 && wk.session[0].write.Insert?
  }

  ghost predicate PendingInv(s: State) {
    && (forall w | w in s.workers && HasPendingInsert(s.workers[w]) ::
          var write := s.workers[w].session[0].write;
          && write.id in s.db.creator && s.db.creator[write.id].0 == w
          && write.id !in s.db.rows && !KeyTaken(s.db.rows, write.row.key))
    && (forall v, w | v in s.workers && w in s.workers && v != w
                      && HasPendingInsert(s.workers[v]) && HasPendingInsert(s.workers[w]) ::
          s.workers[v].session[0].write.row.key != s.workers[w].session[0].write.row.key)
  }

  /** Row ids are only ever created by tasks that were told to expect rain. */
  ghost predicate OriginInv(s: State) {
    forall id | id in s.db.creator :: OriginOk(s, id)
  }

  ghost predicate OriginOk(s: State, id: nat)
    requires id in s.db.creator
  {
    var (w, t) := s.db.creator[id];
    && w in s.workers && t < |s.workers[w].tasks|
    && var task := s.workers[w].tasks[t];
       && task.verdict == Some(Rain) && !task.pc.Queued? && !task.pc.Evaluating?
       && (id in s.db.rows ==> s.db.rows[id].key == task.key)
  }

  ghost predicate Inv(s: State) {
    && DbInv(s.db)
    && (forall w | w in s.workers :: WorkerInv(s.db, w, s.workers[w]))
    && PendingInv(s)
    && OriginInv(s)
  }

  // ---------------------------------------------------------------------------------------
  // Framing: what a step of one tick leaves true of the others
  // ---------------------------------------------------------------------------------------

  /** Rows stay, keep their key and creation time and stay delivered; histories grow; new ids belong to tick `w`. */
  ghost predicate DbGrows(db: Db, db': Db, w: nat) {
    && (forall id | id in db.rows ::
          && id in db'.rows && db'.rows[id].key == db.rows[id].key && db'.rows[id].created == db.rows[id].created
          && (db.rows[id].delivered ==> db'.rows[id].delivered))
    && (forall id | id in db.creator :: id in db'.creator && db'.creator[id] == db.creator[id])
    && (forall id | id in db'.creator && id !in db.creator :: db'.creator[id].0 == w)
    && (forall id :: db.accepted[id] <= db'.accepted[id])
  }

  lemma KeyStaysTaken(db: Db, db': Db, w: nat, key: Key)
    requires DbGrows(db, db', w) && KeyTaken(db.rows, key)
    ensures KeyTaken(db'.rows, key)
  {
    var id :| id in db.rows && db.rows[id].key == key;
    assert id in db'.rows && db'.rows[id].key == key;
  }

  lemma TaskFrame(db: Db, db': Db, actor: nat, w: nat, wk: Worker, t: nat)
    requires DbGrows(db, db', actor) && t < |wk.tasks| && TaskInv(db, w, wk, t)
    requires actor != w || db.creator == db'.creator
    ensures TaskInv(db', w, wk, t)
  {
    var task := wk.tasks[t];
    if SawConflict(task.pc) {
      KeyStaysTaken(db, db', actor, task.key);
    }
  }

  /** The rows stay current, also with further ones handed over. */
  lemma CurrentRowsStay(db: Db, db': Db, actor: nat, wk: Worker, wk': Worker)
    requires CurrentRows(db, wk) && DbGrows(db, db', actor)
    requires wk'.today == wk.today && wk'.selected == wk.selected
    requires forall id | id in wk'.attempts && id !in wk.attempts ::
               id in wk.selected || (id in db.rows && wk.today <= db.rows[id].key.date)
    ensures CurrentRows(db', wk')
  {}

  lemma AttemptsFrame(db: Db, db': Db, actor: nat, w: nat, wk: Worker)
    requires actor != w && DbGrows(db, db', actor) && AttemptsInv(db, w, wk)
    ensures AttemptsInv(db', w, wk)
  {
    CurrentRowsStay(db, db', actor, wk, wk);
    hide CurrentRows;
  }

  lemma AgeOrderStays(db: Db, db': Db, actor: nat, ids: seq<nat>)
    requires InAgeOrder(db.rows, ids) && DbGrows(db, db', actor)
    ensures InAgeOrder(db'.rows, ids)
  {
    assert forall i | 0 <= i < |ids| :: ids[i] in ids;
  }

  lemma SessionFrame(db: Db, db': Db, actor: nat, w: nat, wk: Worker, a: Actor, pc: Pc)
    requires DbGrows(db, db', actor) && SessionFits(db, w, wk, a, pc)
    ensures SessionFits(db', w, wk, a, pc)
  {}

  lemma RedeliveryFrame(db: Db, db': Db, actor: nat, w: nat, wk: Worker)
    requires wk.phase.Redelivering? && DbGrows(db, db', actor) && RedeliveryInv(db, w, wk)
    ensures RedeliveryInv(db', w, wk)
  {
    AgeOrderStays(db, db', actor, [wk.phase.pc.id] + wk.phase.queue);
    SessionFrame(db, db', actor, w, wk, Redelivery, wk.phase.pc);
    hide InAgeOrder, SessionFits;
  }

  lemma SweepFrame(db: Db, db': Db, actor: nat, w: nat, wk: Worker)
    requires DbGrows(db, db', actor) && SweepInv(db, w, wk)
    ensures SweepInv(db', w, wk)
  {
    if wk.lock.Some? { SessionFrame(db, db', actor, w, wk, Task(wk.lock.value), wk.tasks[wk.lock.value].pc); }
    hide SessionFits, ActiveCount;
  }

  lemma OthersFrame(db: Db, db': Db, actor: nat, w: nat, wk: Worker)
    requires actor != w && DbGrows(db, db', actor) && WorkerInv(db, w, wk)
    ensures WorkerInv(db', w, wk)
  {
    hide AttemptsInv, RedeliveryInv, SweepInv, TaskInv, DbGrows;
    AttemptsFrame(db, db', actor, w, wk);
    if wk.phase.Redelivering? { RedeliveryFrame(db, db', actor, w, wk); }
    if wk.phase.Sweeping? { SweepFrame(db, db', actor, w, wk); }
    forall t | 0 <= t < |wk.tasks|
      ensures TaskInv(db', w, wk, t)
    {
      TaskFrame(db, db', actor, w, wk, t);
    }
  }
}
