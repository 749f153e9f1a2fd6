/**
 How often a warning can reach the rider: once, plus once for every stamp that failed or was cut
 off by a crash, as long as no tick's retry query answers a row that another live tick carries.
 */
module OutboxDuplicates {
  import opened Wrappers
  import opened OutboxTable
  import opened Outbox
  import opened Verdicts
  import opened OutboxInvariant
  import opened OutboxPreservation
  import opened OutboxSteps
  import opened OutboxTheorems

  ghost predicate NoneLive(s: State) {
    forall w | w in s.workers :: !Live(s.workers[w])
  }

  function Stamped(db: Db, id: nat): nat {
    if id in db.rows && db.rows[id].delivered then 1 else 0
  }

  ghost predicate NotStamped(db: Db, id: nat) {
    id in db.rows ==> !db.rows[id].delivered
  }

  // ---------------------------------------------------------------------------------------
  // Who carries a row
  // ---------------------------------------------------------------------------------------

  /** About to send its row, or between an accepted send and the end of its stamp. */
  predicate OnItsWay(pc: Pc) { pc.Sending? || Unstamped(pc) }

  /** The tick still has to send the row, or has sent it and still has to stamp it. */
  ghost predicate Carries(wk: Worker, id: nat) {
    match wk.phase
    case Redelivering(pc, queue) => id in queue || (OnItsWay(pc) && pc.id == id)
    case Sweeping => exists t :: 0 <= t < |wk.tasks| && OnItsWay(wk.tasks[t].pc) && wk.tasks[t].pc.id == id
    case _ => false
  }

  /** No other tick carries a row of the answer. A caller can see this before it takes the rows. */
  ghost predicate SelectsFree(s: State, w: nat, ids: seq<nat>) {
    forall v, id | v in s.workers && v != w && id in ids :: !Carries(s.workers[v], id)
  }

  /** Every retry query of the run answers rows that no other tick carries. */
  ghost predicate Disciplined(s: State, events: seq<Event>)
    requires Legal(s, events)
    decreases |events|
  {
    events == [] ||
    ((events[0].Act? && events[0].action.SelectPending? ==> SelectsFree(s, events[0].w, events[0].action.ids))
     && Disciplined(Step(s, events[0]), events[1..]))
  }

  ghost predicate OneCarrier(s: State) {
    forall v, w, id | v in s.workers && w in s.workers && v != w && Carries(s.workers[v], id) ::
      !Carries(s.workers[w], id)
  }

  /** Nothing this tick still has to send or stamp is stamped already. */
  ghost predicate Fresh(db: Db, wk: Worker) {
    match wk.phase
    case Redelivering(pc, queue) =>
      && (forall id | id in queue :: NotStamped(db, id))
      && (OnItsWay(pc) ==> NotStamped(db, pc.id))
    case Sweeping =>
      forall t | 0 <= t < |wk.tasks| :: OnItsWay(wk.tasks[t].pc) ==> NotStamped(db, wk.tasks[t].pc.id)
    case _ => true
  }

  ghost predicate AllFresh(s: State) {
    forall w | w in s.workers :: Fresh(s.db, s.workers[w])
  }

  /** Some tick has sent the row and not yet stamped it. */
  ghost predicate Flies(s: State, id: nat) {
    exists w :: w in s.workers && id in InFlight(s.workers[w])
  }

  /**
   Sends are paid for by the stamp, by failed stamps, and by the one stamp still on its way; to
   the last one as long as the row is not stamped.
   */
  ghost predicate Balanced(s: State, id: nat) {
    var paid := s.db.stampFailures[id] + if Flies(s, id) then 1 else 0;
    if Stamped(s.db, id) == 0 then s.db.accepted[id] == paid else s.db.accepted[id] <= paid + 1
  }

  ghost predicate SharedInv(s: State) {
    && OneCarrier(s)
    && AllFresh(s)
    && (forall id :: Balanced(s, id))
  }

  // ---------------------------------------------------------------------------------------
  // The accounts of one step
  // ---------------------------------------------------------------------------------------

  lemma AddLast(a: multiset<nat>, x: multiset<nat>, b: multiset<nat>, y: multiset<nat>, last: multiset<nat>)
    requires a + x == b + y
    ensures a + last + x == b + last + y
  {
    assert a + last + x == (a + x) + last;
    assert b + last + y == (b + y) + last;
  }

  lemma UnstampedUpdate(tasks: seq<TaskState>, t: nat, task: TaskState)
    requires t < |tasks|
    ensures UnstampedTasks(tasks[t := task]) + UnstampedIn(tasks[t].pc)
         == UnstampedTasks(tasks) + UnstampedIn(task.pc)
    decreases |tasks|
  {
    var n := |tasks| - 1;
    if t < n {
      UnstampedUpdate(tasks[..n], t, task);
      assert tasks[t := task][..n] == tasks[..n][t := task];
      AddLast(UnstampedTasks(tasks[..n][t := task]), UnstampedIn(tasks[t].pc),
              UnstampedTasks(tasks[..n]), UnstampedIn(task.pc), UnstampedIn(tasks[n].pc));
    } else {
      assert tasks[t := task][..n] == tasks[..n];
    }
  }

  lemma NoneUnstamped(tasks: seq<TaskState>)
    requires forall t | 0 <= t < |tasks| :: !Unstamped(tasks[t].pc)
    ensures UnstampedTasks(tasks) == multiset{}
  {}

  /** How a task's or the pass's step moves its own row between the accounts. */
  ghost predicate Accounts(db: Db, db': Db, before: multiset<nat>, after: multiset<nat>) {
    forall id :: AccountsOf(db, db', before[id], after[id], id)
  }

  ghost predicate AccountsOf(db: Db, db': Db, before: nat, after: nat, id: nat) {
    var spent := db'.accepted[id] + db.stampFailures[id] + before;
    var paid := db.accepted[id] + db'.stampFailures[id] + after;
    && Stamped(db, id) <= Stamped(db', id)
    && (if Stamped(db, id) == Stamped(db', id) then spent == paid else spent <= paid + 1)
  }

  /** The table after a commit by actor `a`: only its own row can have become stamped. */
  lemma CommitStamps(s: State, w: nat, a: Actor)
    requires Inv(s) && w in s.workers && Runs(s.workers[w], a)
    requires PcOf(s.workers[w], a).InsertExecuted? || PcOf(s.workers[w], a).StampExecuted?
    ensures var pc := PcOf(s.workers[w], a);
            var rows := ApplyAll(s.db.rows, s.workers[w].session);
            && (forall id | id in s.db.rows ::
                  id in rows && (pc.InsertExecuted? || id != pc.id ==> rows[id] == s.db.rows[id]))
            && (forall id | id in rows && id !in s.db.rows :: !rows[id].delivered)
            && (pc.StampExecuted? && pc.id in s.db.rows ==> rows[pc.id].delivered)
            && (pc.StampExecuted? ==> pc.id in s.db.rows)
  {
    hide Inv, WorkerInv, OriginInv, PendingInv, DbInv, TaskStart;
    var wk := s.workers[w];
    WorkerOf(s, w);
    PhaseFacts(s.db, w, wk);
    GlobalOf(s);
    CarriedRow(s.db, w, wk, a);
    if wk.session != [] {
      match a {
        case Redelivery => PassPc(s.db, w, wk);
        case Task(t) => TaskSession(s.db, w, wk, t);
      }
      OneWriteApplied(s.db.rows, wk.session);
      if HasPendingInsert(wk) { PendingFact(s, w); }
    } else if a.Task? {
      TaskSession(s.db, w, wk, a.index);
    } else {
      PassPc(s.db, w, wk);
    }
  }

  lemma CarriedRow(db: Db, w: nat, wk: Worker, a: Actor)
    requires WorkerInv(db, w, wk) && Runs(wk, a)
    ensures CarriesId(PcOf(wk, a)) ==> IdOf(PcOf(wk, a)) in db.rows
  {
    match a
    case Redelivery =>
    case Task(t) => assert TaskInv(db, w, wk, t);
  }

  function UnstampedAfter(move: Option<Pc>): multiset<nat> {
    if move.Some? then UnstampedIn(move.value) else multiset{}
  }

  lemma MoveInFlight(wk: Worker, wk': Worker, a: Actor, move: Option<Pc>)
    requires MovesTo(wk, wk', a, move)
    ensures InFlight(wk') + UnstampedIn(PcOf(wk, a)) == InFlight(wk) + UnstampedAfter(move)
  {
    match a
    case Redelivery => PassInFlight(wk, wk', move);
    case Task(t) =>
      TaskAfter(wk, wk', t, move);
      hide UnstampedTasks, UnstampedIn;
      UnstampedUpdate(wk.tasks, t, wk'.tasks[t]);
  }

  lemma PassInFlight(wk: Worker, wk': Worker, move: Option<Pc>)
    requires MovesTo(wk, wk', Redelivery, move)
    ensures InFlight(wk) == UnstampedIn(PcOf(wk, Redelivery)) && InFlight(wk') == UnstampedAfter(move)
  {}

  lemma TaskAfter(wk: Worker, wk': Worker, t: nat, move: Option<Pc>)
    requires MovesTo(wk, wk', Task(t), move)
    ensures UnstampedIn(wk'.tasks[t].pc) == UnstampedAfter(move)
  {}

  /** From the actor's own accounts to its tick's. */
  lemma MoveAccounts(db: Db, db': Db, wk: Worker, wk': Worker, a: Actor, move: Option<Pc>)
    requires MovesTo(wk, wk', a, move)
    requires Accounts(db, db', UnstampedIn(PcOf(wk, a)), UnstampedAfter(move))
    ensures Accounts(db, db', InFlight(wk), InFlight(wk'))
  {
    MoveInFlight(wk, wk', a, move);
    hide MovesTo, InFlight, UnstampedIn, UnstampedAfter, AccountsOf;
    var pc := PcOf(wk, a);
    forall id
      ensures AccountsOf(db, db', InFlight(wk)[id], InFlight(wk')[id], id)
    {
      assert (InFlight(wk') + UnstampedIn(pc))[id] == (InFlight(wk) + UnstampedAfter(move))[id];
      AccountsShift(db, db', UnstampedIn(pc)[id], UnstampedAfter(move)[id], InFlight(wk)[id], InFlight(wk')[id], id);
    }
  }

  lemma AccountsShift(db: Db, db': Db, before: nat, after: nat, before': nat, after': nat, id: nat)
    requires AccountsOf(db, db', before, after, id) && after' + before == before' + after
    ensures AccountsOf(db, db', before', after', id)
  {}

  lemma QuietAccounts(db: Db, db': Db, flying: multiset<nat>)
    requires db'.rows == db.rows && db'.accepted == db.accepted && db'.stampFailures == db.stampFailures
    ensures Accounts(db, db', flying, flying)
  {}

  lemma SentAccounts(db: Db, db': Db, sent: nat)
    requires db'.rows == db.rows && db'.stampFailures == db.stampFailures
    requires db'.accepted == db.accepted + multiset{sent}
    ensures Accounts(db, db', multiset{}, multiset{sent})
  {}

  lemma LostAccounts(db: Db, db': Db, lost: nat)
    requires db'.rows == db.rows && db'.accepted == db.accepted
    requires db'.stampFailures == db.stampFailures + multiset{lost}
    ensures Accounts(db, db', multiset{lost}, multiset{})
  {}

  /** What an action puts into flight or takes out of it, when it does not stamp. */
  lemma AdvanceFlies(pc: Pc, act: Action, move: Option<Pc>)
    requires Advances(pc, act, move) && (act.Commit? ==> act.result.Lost?)
    ensures var before, after := Unstamped(pc), move.Some? && Unstamped(move.value);
            if LosesStamp(pc, act) then before && !after
            else if act.Send? && act.accepted then pc.Sending? && after && move.value.id == pc.id
            else before == after && (before ==> move.value.id == pc.id)
  {}

  /** An actor's own accounts, unless it commits. */
  lemma OwnAccounts(db: Db, db': Db, wk: Worker, pc: Pc, act: Action, move: Option<Pc>)
    requires Advances(pc, act, move) && Books(db, db', wk, pc, act) && (act.Commit? ==> act.result.Lost?)
    ensures Accounts(db, db', UnstampedIn(pc), UnstampedAfter(move))
  {
    AdvanceFlies(pc, act, move);
    hide ApplyAll, Accounts, Advances;
    if LosesStamp(pc, act) {
      LostAccounts(db, db', pc.id);
    } else if act.Send? && act.accepted {
      SentAccounts(db, db', pc.id);
    } else {
      QuietAccounts(db, db', UnstampedIn(pc));
    }
  }

  /** The accounts of a commit: the stamp moves from on-its-way to stamped or to failed. */
  lemma CommitOwnAccounts(db: Db, db': Db, wk: Worker, pc: Pc, act: Action, move: Option<Pc>)
    requires Advances(pc, act, move) && Books(db, db', wk, pc, act) && act.Commit? && !act.result.Lost?
    requires forall id | id in db.rows ::
               id in db'.rows && (pc.InsertExecuted? || id != pc.id ==> db'.rows[id] == db.rows[id])
    requires forall id | id in db'.rows && id !in db.rows :: !db'.rows[id].delivered
    requires pc.StampExecuted? ==> pc.id in db.rows && NotStamped(db, pc.id) && db'.rows[pc.id].delivered
    ensures Accounts(db, db', UnstampedIn(pc), UnstampedAfter(move))
  {
    hide ApplyAll, Accounts;
    if pc.InsertExecuted? {
      AddedAccounts(db, db');
    } else {
      StampedAccounts(db, db', pc.id);
    }
  }

  lemma AddedAccounts(db: Db, db': Db)
    requires db'.accepted == db.accepted && db'.stampFailures == db.stampFailures
    requires forall id | id in db.rows :: id in db'.rows && db'.rows[id] == db.rows[id]
    requires forall id | id in db'.rows && id !in db.rows :: !db'.rows[id].delivered
    ensures Accounts(db, db', multiset{}, multiset{})
  {}

  /** The row is stamped, and the stamp may yet be put down as failed. */
  lemma StampedAccounts(db: Db, db': Db, id: nat)
    requires db'.accepted == db.accepted
    requires db'.stampFailures == db.stampFailures || db'.stampFailures == db.stampFailures + multiset{id}
    requires forall i | i in db.rows :: i in db'.rows && (i != id ==> db'.rows[i] == db.rows[i])
    requires forall i | i in db'.rows && i !in db.rows :: !db'.rows[i].delivered
    requires id in db.rows && !db.rows[id].delivered && db'.rows[id].delivered
    ensures Accounts(db, db', multiset{id}, multiset{})
  {
    forall i
      ensures AccountsOf(db, db', multiset{id}[i], 0, i)
    {}
  }

  lemma TickAccounts(s: State, w: nat, act: Action)
    requires w in s.workers && ActEnabled(s, w, act) && !IsActorStep(act)
    ensures var (db', wk') := ActStep(s, w, act);
            Accounts(s.db, db', InFlight(s.workers[w]), InFlight(wk'))
  {
    TickBooks(s, w, act);
    NothingFliesAfterTickStep(s, w, act);
    hide ActStep, ActEnabled, InFlight;
  }

  lemma NothingFliesAfterTickStep(s: State, w: nat, act: Action)
    requires w in s.workers && ActEnabled(s, w, act) && !IsActorStep(act)
    ensures InFlight(ActStep(s, w, act).1) == multiset{}
    ensures !act.Crash? ==> InFlight(s.workers[w]) == multiset{}
  {
    TickStepIs(s, w, act);
    var wk, wk' := s.workers[w], ActStep(s, w, act).1;
    hide ActStep, ActEnabled, UnstampedTasks;
    if wk'.phase.Sweeping? { NoneUnstamped(wk'.tasks); }
    if wk.phase.Sweeping? && !act.Crash? { NoneUnstamped(wk.tasks); }
  }

  /** Steps of the tick as a whole happen when no actor is under way, but for a crash. */
  lemma TickStepIs(s: State, w: nat, act: Action)
    requires w in s.workers && ActEnabled(s, w, act) && !IsActorStep(act)
    ensures var wk, wk' := s.workers[w], ActStep(s, w, act).1;
            && (wk'.phase.Redelivering? ==>
                  && act.SelectPending? && act.ids != []
                  && wk'.phase == Redelivering(Sending(act.ids[0]), act.ids[1..]))
            && (wk'.phase.Sweeping? ==> forall t | 0 <= t < |wk'.tasks| :: wk'.tasks[t].pc.Queued?)
            && (act.Crash? || !wk.phase.Redelivering?)
            && (wk.phase.Sweeping? && !act.Crash? ==> forall t | 0 <= t < |wk.tasks| :: wk.tasks[t].pc.Finished?)
  {
    hide OldestPending, InFlight;
  }

  lemma FreshPc(db: Db, wk: Worker, a: Actor)
    requires Fresh(db, wk) && Runs(wk, a) && Unstamped(PcOf(wk, a))
    ensures NotStamped(db, PcOf(wk, a).id)
  {}

  lemma StepAccounts(s: State, w: nat, act: Action)
    requires Inv(s) && w in s.workers && ActEnabled(s, w, act) && Fresh(s.db, s.workers[w])
    ensures var (db', wk') := ActStep(s, w, act);
            Accounts(s.db, db', InFlight(s.workers[w]), InFlight(wk'))
  {
    hide Inv, ActStep, ActEnabled, Accounts, InFlight, Fresh, MovesTo, ApplyAll;
    if IsActorStep(act) {
      var wk, a := s.workers[w], ActorOf(act);
      var (db', wk') := ActStep(s, w, act);
      var move := StepMoves(s, w, act);
      RunsIt(wk, wk', a, move);
      if act.Commit? && !act.result.Lost? {
        CommitStamps(s, w, a);
        if PcOf(wk, a).StampExecuted? { FreshPc(s.db, wk, a); }
        CommitOwnAccounts(s.db, db', wk, PcOf(wk, a), act, move);
      } else {
        OwnAccounts(s.db, db', wk, PcOf(wk, a), act, move);
      }
      MoveAccounts(s.db, db', wk, wk', a, move);
    } else {
      TickAccounts(s, w, act);
    }
  }

  lemma RunsIt(wk: Worker, wk': Worker, a: Actor, move: Option<Pc>)
    requires MovesTo(wk, wk', a, move)
    ensures Runs(wk, a)
  {}

  lemma NewRowIsNew(s: State, w: nat, a: Actor)
    requires Inv(s) && w in s.workers && Runs(s.workers[w], a)
    requires PcOf(s.workers[w], a).InsertExecuted? && PcOf(s.workers[w], a).hit.Some?
    ensures PcOf(s.workers[w], a).hit.value !in s.db.rows && a.Task?
  {
    var wk := s.workers[w];
    InsertIsTasks(s, w, a);
    WorkerOf(s, w);
    PhaseFacts(s.db, w, wk);
    GlobalOf(s);
    hide Inv, WorkerInv, TaskStart, PendingInv, OriginInv, DbInv;
    TaskSession(s.db, w, wk, a.index);
    PendingFact(s, w);
  }

  /** Two tasks of a tick never carry the same row. */
  lemma TasksCarryDifferentRows(db: Db, w: nat, wk: Worker, t: nat, u: nat)
    requires WorkerInv(db, w, wk) && t < |wk.tasks| && u < |wk.tasks| && t != u
    requires CarriesId(wk.tasks[t].pc) && CarriesId(wk.tasks[u].pc)
    ensures IdOf(wk.tasks[t].pc) != IdOf(wk.tasks[u].pc)
  {
    assert TaskInv(db, w, wk, t) && TaskInv(db, w, wk, u);
  }

  lemma QueueIsDifferent(db: Db, w: nat, wk: Worker)
    requires WorkerInv(db, w, wk) && wk.phase.Redelivering?
    ensures wk.phase.pc.Sending? || Accepted(wk.phase.pc)
    ensures wk.phase.pc.id !in wk.phase.queue
  {}

  // ---------------------------------------------------------------------------------------
  // How rows come to be carried
  // ---------------------------------------------------------------------------------------

  /** The rows a step picks up: the query's answers, or the row a task has just committed. */
  ghost predicate PicksUp(wk: Worker, act: Action, id: nat) {
    || (act.SelectPending? && id in act.ids)
    || (act.Commit? && Runs(wk, act.actor) && PcOf(wk, act.actor) == InsertExecuted(Some(id)))
  }

  /** What a tick carries after an actor's move it carried before, or the actor has just taken. */
  lemma MoveCarries(wk: Worker, wk': Worker, a: Actor, move: Option<Pc>, id: nat)
    requires MovesTo(wk, wk', a, move) && Carries(wk', id)
    ensures Carries(wk, id) || (move.Some? && OnItsWay(move.value) && move.value.id == id)
  {
    match a
    case Redelivery =>
    case Task(t) =>
      var u :| 0 <= u < |wk'.tasks| && OnItsWay(wk'.tasks[u].pc) && wk'.tasks[u].pc.id == id;
      if u != t {
        assert wk'.tasks[u] == wk.tasks[u];
        assert OnItsWay(wk.tasks[u].pc) && wk.tasks[u].pc.id == id;
      }
  }

  /** An actor takes a row only by committing it; otherwise it goes on with its own. */
  lemma AdvanceCarries(pc: Pc, act: Action, move: Option<Pc>)
    requires Advances(pc, act, move) && move.Some? && OnItsWay(move.value)
    ensures (OnItsWay(pc) && pc.id == move.value.id) || (act.Commit? && pc == InsertExecuted(Some(move.value.id)))
  {}

  lemma CarriesOwn(wk: Worker, a: Actor)
    requires Runs(wk, a) && OnItsWay(PcOf(wk, a))
    ensures Carries(wk, PcOf(wk, a).id)
  {}

  lemma TickCarries(s: State, w: nat, act: Action, id: nat)
    requires w in s.workers && ActEnabled(s, w, act) && Carries(ActStep(s, w, act).1, id)
    requires !IsActorStep(act)
    ensures act.SelectPending? && id in act.ids
  {
    TickStepIs(s, w, act);
    hide ActStep, ActEnabled;
  }

  /** Every row a tick carries after a step it carried before, or the step picked it up. */
  lemma StepCarries(s: State, w: nat, act: Action, id: nat)
    requires w in s.workers && ActEnabled(s, w, act) && Carries(ActStep(s, w, act).1, id)
    ensures Carries(s.workers[w], id) || PicksUp(s.workers[w], act, id)
  {
    hide ActStep, ActEnabled, Carries, MovesTo, Books, OnItsWay;
    if IsActorStep(act) {
      var wk, a := s.workers[w], ActorOf(act);
      var move := StepMoves(s, w, act);
      RunsIt(wk, ActStep(s, w, act).1, a, move);
      MoveCarries(wk, ActStep(s, w, act).1, a, move, id);
      if !Carries(wk, id) {
        AdvanceCarries(PcOf(wk, a), act, move);
        if OnItsWay(PcOf(wk, a)) { CarriesOwn(wk, a); }
      }
    } else {
      TickCarries(s, w, act, id);
    }
  }

  // ---------------------------------------------------------------------------------------
  // The invariant of runs with disciplined queries
  // ---------------------------------------------------------------------------------------

  lemma FreshMeans(db: Db, wk: Worker, id: nat)
    requires Fresh(db, wk) && Carries(wk, id)
    ensures NotStamped(db, id)
  {}

  /** What a tick carries is a committed row. */
  lemma CarriedIsCommitted(db: Db, w: nat, wk: Worker, id: nat)
    requires WorkerInv(db, w, wk) && Carries(wk, id)
    ensures id in db.rows
  {
    if wk.phase.Sweeping? {
      var t :| 0 <= t < |wk.tasks| && OnItsWay(wk.tasks[t].pc) && wk.tasks[t].pc.id == id;
      assert TaskInv(db, w, wk, t);
    }
  }

  /** Only the committing tick's own row can become stamped, and it carried that row. */
  lemma StepStamps(s: State, w: nat, act: Action, id: nat)
    requires Inv(s) && w in s.workers && ActEnabled(s, w, act)
    ensures var db' := ActStep(s, w, act).0;
            NotStamped(s.db, id) && !NotStamped(db', id) ==> Carries(s.workers[w], id)
  {
    hide Inv, ActStep, ActEnabled, ApplyAll, Carries, MovesTo;
    if !IsActorStep(act) {
      TickBooks(s, w, act);
    } else {
      var wk, a := s.workers[w], ActorOf(act);
      var move := StepMoves(s, w, act);
      RunsIt(wk, ActStep(s, w, act).1, a, move);
      if act.Commit? && !act.result.Lost? {
        CommitStamps(s, w, a);
        if PcOf(wk, a).StampExecuted? { CarriesOwn(wk, a); }
      }
    }
  }

  lemma FreshIfUnstamped(db: Db, wk: Worker)
    requires forall id | Carries(wk, id) :: NotStamped(db, id)
    ensures Fresh(db, wk)
  {
    hide NotStamped;
    if wk.phase.Sweeping? {
      forall t | 0 <= t < |wk.tasks| && OnItsWay(wk.tasks[t].pc)
        ensures NotStamped(db, wk.tasks[t].pc.id)
      {
        assert Carries(wk, wk.tasks[t].pc.id);
      }
    }
  }

  /** An actor that is done with its row leaves it for good: nobody else in the tick carries it. */
  lemma LeavesOwnRow(db: Db, w: nat, wk: Worker, wk': Worker, a: Actor, move: Option<Pc>)
    requires WorkerInv(db, w, wk) && MovesTo(wk, wk', a, move) && OnItsWay(PcOf(wk, a))
    requires move.Some? ==> !OnItsWay(move.value)
    ensures !Carries(wk', PcOf(wk, a).id)
  {
    match a
    case Redelivery => QueueIsDifferent(db, w, wk);
    case Task(t) =>
      hide WorkerInv;
      forall u: nat | u < |wk'.tasks| && OnItsWay(wk'.tasks[u].pc)
        ensures wk'.tasks[u].pc.id != wk.tasks[t].pc.id
      {
        if u != t {
          assert wk'.tasks[u] == wk.tasks[u];
          TasksCarryDifferentRows(db, w, wk, t, u);
        }
      }
  }

  /** What a step stamps its tick no longer carries. */
  lemma StampedIsLeft(s: State, w: nat, act: Action, id: nat)
    requires Inv(s) && w in s.workers && ActEnabled(s, w, act) && Fresh(s.db, s.workers[w])
    requires var (db', wk') := ActStep(s, w, act); NotStamped(s.db, id) && !NotStamped(db', id)
    ensures !Carries(ActStep(s, w, act).1, id)
  {
    hide Inv, ActStep, ActEnabled, ApplyAll, Carries, MovesTo, Fresh;
    if !IsActorStep(act) {
      TickBooks(s, w, act);
    } else {
      var wk, a := s.workers[w], ActorOf(act);
      var move := StepMoves(s, w, act);
      RunsIt(wk, ActStep(s, w, act).1, a, move);
      if act.Commit? && !act.result.Lost? {
        CommitStamps(s, w, a);
        WorkerOf(s, w);
        hide WorkerInv;
        LeavesOwnRow(s.db, w, wk, ActStep(s, w, act).1, a, move);
      }
    }
  }

  /** What a step picks up is not stamped. */
  lemma PickedUpIsUnstamped(s: State, w: nat, act: Action, id: nat)
    requires Inv(s) && w in s.workers && ActEnabled(s, w, act) && PicksUp(s.workers[w], act, id)
    ensures NotStamped(s.db, id)
  {
    if act.Commit? {
      hide Inv, ActEnabled;
      NewRowIsNew(s, w, act.actor);
    }
  }

  /** A tick carries only unstamped rows after its own step. */
  lemma OwnStepIsFresh(s: State, w: nat, act: Action)
    requires Inv(s) && w in s.workers && ActEnabled(s, w, act) && Fresh(s.db, s.workers[w])
    ensures var (db', wk') := ActStep(s, w, act); Fresh(db', wk')
  {
    hide Inv, Fresh, Carries, ActStep, ActEnabled, NotStamped, PicksUp;
    var (db', wk') := ActStep(s, w, act);
    forall id | Carries(wk', id)
      ensures NotStamped(db', id)
    {
      StepCarries(s, w, act, id);
      if Carries(s.workers[w], id) {
        FreshMeans(s.db, s.workers[w], id);
      } else {
        PickedUpIsUnstamped(s, w, act, id);
      }
      if !NotStamped(db', id) { StampedIsLeft(s, w, act, id); }
    }
    FreshIfUnstamped(db', wk');
  }

  lemma FreshStepKeeps(s: State, w: nat, act: Action)
    requires Inv(s) && OneCarrier(s) && w in s.workers && ActEnabled(s, w, act) && AllFresh(s)
    ensures var (db', wk') := ActStep(s, w, act); AllFresh(State(db', s.workers[w := wk']))
  {
    hide Inv, Fresh, Carries, ActStep, ActEnabled, NotStamped;
    var (db', wk') := ActStep(s, w, act);
    OwnStepIsFresh(s, w, act);
    forall v | v in s.workers && v != w
      ensures Fresh(db', s.workers[v])
    {
      forall id | Carries(s.workers[v], id)
        ensures NotStamped(db', id)
      {
        FreshMeans(s.db, s.workers[v], id);
        StepStamps(s, w, act, id);
      }
      FreshIfUnstamped(db', s.workers[v]);
    }
  }

  /** A picked-up row is carried by no other tick: by the discipline, or because it is new. */
  lemma PickedUpIsFree(s: State, w: nat, act: Action, v: nat, id: nat)
    requires Inv(s) && w in s.workers && v in s.workers && v != w && ActEnabled(s, w, act)
    requires act.SelectPending? ==> SelectsFree(s, w, act.ids)
    requires PicksUp(s.workers[w], act, id)
    ensures !Carries(s.workers[v], id)
  {
    if act.Commit? {
      hide Carries, ActEnabled;
      NewRowIsNew(s, w, act.actor);
      WorkerOf(s, v);
      hide Inv, WorkerInv;
      if Carries(s.workers[v], id) { CarriedIsCommitted(s.db, v, s.workers[v], id); }
    }
  }

  lemma OneCarrierStepKeeps(s: State, w: nat, act: Action)
    requires Inv(s) && OneCarrier(s) && w in s.workers && ActEnabled(s, w, act)
    requires act.SelectPending? ==> SelectsFree(s, w, act.ids)
    ensures var (db', wk') := ActStep(s, w, act); OneCarrier(State(db', s.workers[w := wk']))
  {
    hide Inv, Carries, ActStep, ActEnabled, SelectsFree, PicksUp;
    var (db', wk') := ActStep(s, w, act);
    forall v, id | v in s.workers && v != w && Carries(wk', id)
      ensures !Carries(s.workers[v], id)
    {
      StepCarries(s, w, act, id);
      if PicksUp(s.workers[w], act, id) { PickedUpIsFree(s, w, act, v, id); }
    }
  }

  lemma {:induction false} OneTaskPerRow(tasks: seq<TaskState>, id: nat)
    requires forall t, u | 0 <= t < |tasks| && 0 <= u < |tasks| && t != u
                           && Unstamped(tasks[t].pc) && Unstamped(tasks[u].pc) ::
               tasks[t].pc.id != tasks[u].pc.id
    ensures UnstampedTasks(tasks)[id] <= 1
    ensures UnstampedTasks(tasks)[id] == 1 ==>
              exists t :: 0 <= t < |tasks| && Unstamped(tasks[t].pc) && tasks[t].pc.id == id
    decreases |tasks|
  {
    if tasks != [] {
      var n := |tasks| - 1;
      OneTaskPerRow(tasks[..n], id);
      if UnstampedTasks(tasks[..n])[id] == 1 {
        var t :| 0 <= t < n && Unstamped(tasks[..n][t].pc) && tasks[..n][t].pc.id == id;
        assert Unstamped(tasks[t].pc) && tasks[t].pc.id == id;
      }
      if UnstampedIn(tasks[n].pc)[id] == 1 {
        assert Unstamped(tasks[n].pc) && tasks[n].pc.id == id;
      }
    }
  }

  /** A row on its way to its stamp is there once. */
  lemma InFlightIsSingle(db: Db, w: nat, wk: Worker, id: nat)
    requires WorkerInv(db, w, wk)
    ensures InFlight(wk)[id] <= 1
    ensures id in InFlight(wk) ==> Carries(wk, id)
  {
    if wk.phase.Sweeping? {
      hide WorkerInv;
      forall t: nat, u: nat | t < |wk.tasks| && u < |wk.tasks| && t != u
                    && Unstamped(wk.tasks[t].pc) && Unstamped(wk.tasks[u].pc)
        ensures wk.tasks[t].pc.id != wk.tasks[u].pc.id
      {
        TasksCarryDifferentRows(db, w, wk, t, u);
      }
      OneTaskPerRow(wk.tasks, id);
    }
  }

  /** Rows in flight at another tick are not carried by the stepping one, before or after. */
  lemma BalancedStep(s: State, w: nat, db': Db, wk': Worker, id: nat)
    requires w in s.workers && Balanced(s, id)
    requires AccountsOf(s.db, db', InFlight(s.workers[w])[id], InFlight(wk')[id], id)
    requires InFlight(s.workers[w])[id] <= 1 && InFlight(wk')[id] <= 1
    requires forall v | v in s.workers && v != w && id in InFlight(s.workers[v]) ::
               id !in InFlight(s.workers[w]) && id !in InFlight(wk')
    ensures Balanced(State(db', s.workers[w := wk']), id)
  {
    hide InFlight;
    var s' := State(db', s.workers[w := wk']);
    if v :| v in s.workers && v != w && id in InFlight(s.workers[v]) {
      assert id in InFlight(s'.workers[v]);
    } else {
      assert id in InFlight(wk') ==> s'.workers[w] == wk';
      assert forall v | v in s'.workers && v != w :: s'.workers[v] == s.workers[v];
    }
  }

  lemma BalancedStepKeeps(s: State, w: nat, act: Action, id: nat)
    requires Inv(s) && SharedInv(s) && w in s.workers && ActEnabled(s, w, act)
    requires var (db', wk') := ActStep(s, w, act);
             var s' := State(db', s.workers[w := wk']); Inv(s') && OneCarrier(s')
    ensures var (db', wk') := ActStep(s, w, act); Balanced(State(db', s.workers[w := wk']), id)
  {
    hide Inv, Carries, Fresh, InFlight, ActStep, ActEnabled, AccountsOf, Balanced;
    var (db', wk') := ActStep(s, w, act);
    var s' := State(db', s.workers[w := wk']);
    StepAccounts(s, w, act);
    InFlightOf(s, w, id);
    InFlightOf(s', w, id);
    forall v | v in s.workers && v != w && id in InFlight(s.workers[v])
      ensures id !in InFlight(s.workers[w]) && id !in InFlight(wk')
    {
      InFlightOf(s, v, id);
      assert s'.workers[v] == s.workers[v];
    }
    BalancedStep(s, w, db', wk', id);
  }

  lemma InFlightOf(s: State, w: nat, id: nat)
    requires Inv(s) && w in s.workers
    ensures InFlight(s.workers[w])[id] <= 1
    ensures id in InFlight(s.workers[w]) ==> Carries(s.workers[w], id)
  {
    WorkerOf(s, w);
    hide Inv, WorkerInv;
    InFlightIsSingle(s.db, w, s.workers[w], id);
  }

  lemma StartKeepsShared(s: State, w: nat, today: int)
    requires SharedInv(s) && w !in s.workers
    ensures SharedInv(s.(workers := s.workers[w := NewWorker(today)]))
  {
    var s' := s.(workers := s.workers[w := NewWorker(today)]);
    forall id
      ensures Balanced(s', id)
    {
      assert Balanced(s, id);
      assert forall v | v in s.workers :: s'.workers[v] == s.workers[v];
      assert InFlight(NewWorker(today)) == multiset{};
      assert Flies(s', id) <==> Flies(s, id);
    }
  }

  lemma SharedStepKeeps(s: State, e: Event)
    requires Inv(s) && SharedInv(s) && Enabled(s, e)
    requires e.Act? && e.action.SelectPending? ==> SelectsFree(s, e.w, e.action.ids)
    ensures SharedInv(Step(s, e))
  {
    hide Inv, SelectsFree, ActStep, ActEnabled, Fresh, Balanced, OneCarrier;
    StepKeeps(s, e);
    match e
    case StartTick(w, today) => StartKeepsShared(s, w, today);
    case Act(w, act) =>
      FreshStepKeeps(s, w, act);
      OneCarrierStepKeeps(s, w, act);
      forall id
        ensures Balanced(Step(s, e), id)
      {
        BalancedStepKeeps(s, w, act, id);
      }
  }

  lemma {:induction false} SharedRunKeeps(s: State, events: seq<Event>)
    requires Inv(s) && SharedInv(s) && Legal(s, events) && Disciplined(s, events)
    ensures Inv(Run(s, events)) && SharedInv(Run(s, events))
    decreases |events|
  {
    if events != [] {
      hide Inv, SharedInv, Step, Enabled, SelectsFree;
      StepKeeps(s, events[0]);
      SharedStepKeeps(s, events[0]);
      SharedRunKeeps(Step(s, events[0]), events[1..]);
    }
  }

  lemma DisciplinedRunIsShared(events: seq<Event>, s: State)
    requires After(events, s) && Disciplined(INIT, events)
    ensures Inv(s) && SharedInv(s)
  {
    InitInv();
    assert forall id :: Balanced(INIT, id);
    hide Inv, SharedInv;
    SharedRunKeeps(INIT, events);
  }

  /** The channel accepted the row at most once more than its stamps failed. */
  ghost predicate PaidFor(db: Db, id: nat) { db.accepted[id] <= 1 + db.stampFailures[id] }

  lemma BalancedIsPaidFor(s: State, id: nat)
    requires Inv(s) && SharedInv(s)
    ensures PaidFor(s.db, id)
  {
    assert Balanced(s, id);
    if Flies(s, id) {
      var w :| w in s.workers && id in InFlight(s.workers[w]);
      InFlightOf(s, w, id);
      hide Inv;
      FreshMeans(s.db, s.workers[w], id);
    }
  }

  /**
   However many ticks overlap, as long as every retry query answers only rows that no other tick
   carries, the channel accepts a row at most once more than its stamps failed, were lost in a
   commit, or were cut off by a crash. Once no tick is live, only a stamped row has that one more.
   */
  lemma DisciplinedRunIsPaidFor(events: seq<Event>, s: State, id: nat)
    requires After(events, s) && Disciplined(INIT, events)
    ensures PaidFor(s.db, id)
    ensures NoneLive(s) && s.db.accepted[id] > s.db.stampFailures[id] ==> id in s.db.rows && s.db.rows[id].delivered
  {
    DisciplinedRunIsShared(events, s);
    hide Inv;
    BalancedIsPaidFor(s, id);
    assert Balanced(s, id);
    if NoneLive(s) && Flies(s, id) {
      var w :| w in s.workers && id in InFlight(s.workers[w]);
      EndedHasNothingInFlight(s.workers[w]);
    }
  }

  lemma EndedHasNothingInFlight(wk: Worker)
    requires !Live(wk)
    ensures InFlight(wk) == multiset{}
  {}

  // ---------------------------------------------------------------------------------------
  // Ticks that do not overlap
  // ---------------------------------------------------------------------------------------

  /** A run in which every tick starts after the previous one has ended or died. */
  ghost predicate Serial(s: State, events: seq<Event>)
    requires Legal(s, events)
    decreases |events|
  {
    events == [] ||
    ((events[0].StartTick? ==> NoneLive(s)) && Serial(Step(s, events[0]), events[1..]))
  }

  ghost predicate OneLive(s: State) {
    forall v, w | v in s.workers && w in s.workers && Live(s.workers[v]) && Live(s.workers[w]) :: v == w
  }

  lemma OneLiveStepKeeps(s: State, e: Event)
    requires OneLive(s) && Enabled(s, e) && (e.StartTick? ==> NoneLive(s))
    ensures OneLive(Step(s, e))
  {
    match e
    case StartTick(w, today) =>
      assert forall v | v in s.workers :: Step(s, e).workers[v] == s.workers[v];
    case Act(w, act) =>
      hide ActStep;
      assert Live(s.workers[w]);
      assert forall v | v in s.workers && v != w :: Step(s, e).workers[v] == s.workers[v];
  }

  lemma AloneSelectsFree(s: State, w: nat, ids: seq<nat>)
    requires OneLive(s) && w in s.workers && Live(s.workers[w])
    ensures SelectsFree(s, w, ids)
  {}

  lemma {:induction false} SerialIsDisciplined(s: State, events: seq<Event>)
    requires OneLive(s) && Legal(s, events) && Serial(s, events)
    ensures Disciplined(s, events)
    decreases |events|
  {
    if events != [] {
      if events[0].Act? && events[0].action.SelectPending? { AloneSelectsFree(s, events[0].w, events[0].action.ids); }
      hide OneLive, Step, SelectsFree;
      OneLiveStepKeeps(s, events[0]);
      SerialIsDisciplined(Step(s, events[0]), events[1..]);
    }
  }

  /** In particular the bound holds when no two ticks overlap. */
  lemma DuplicatesArePaidFor(events: seq<Event>, s: State, id: nat)
    requires After(events, s) && Serial(INIT, events)
    ensures s.db.accepted[id] <= 1 + s.db.stampFailures[id]
    ensures NoneLive(s) && s.db.accepted[id] > s.db.stampFailures[id] ==> id in s.db.rows && s.db.rows[id].delivered
  {
    SerialIsDisciplined(INIT, events);
    DisciplinedRunIsPaidFor(events, s, id);
  }
}
