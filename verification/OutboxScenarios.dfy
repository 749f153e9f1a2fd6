/** Runs that show where the notify service promises less than its comments do. */
module OutboxScenarios {
  import opened Wrappers
  import opened OutboxTable
  import opened Outbox
  import opened Verdicts
  import opened OutboxPreservation
  import opened OutboxTheorems
  import opened OutboxSelection

  lemma Extend(events: seq<Event>, s: State, e: Event) returns (events': seq<Event>, s': State)
    requires After(events, s) && Enabled(s, e)
    ensures After(events', s') && s' == Step(s, e)
  {
    RunExtends(INIT, events, e);
    events', s' := events + [e], Step(s, e);
  }

  const MONDAY: int := 1
  const TRIP: Key := Key(7, MONDAY)

  function SweepOf(pc: Pc, verdict: Option<Verdict>, permits: int, lock: Option<nat>, session: seq<Owned>): Worker {
    Worker(MONDAY, Sweeping, [TaskState(TRIP, verdict, pc)], permits, lock, session, {}, false, multiset{})
  }

  lemma FirstTickStarts() returns (events: seq<Event>, s: State)
    ensures After(events, s) && s == State(INIT.db, map[0 := SweepOf(Queued, None, 4, None, [])])
  {
    events, s := [], INIT;
    events, s := Extend(events, s, StartTick(0, MONDAY));
    events, s := Extend(events, s, Act(0, SelectPending([])));
    events, s := Extend(events, s, Act(0, SelectDue([TRIP])));
    assert s.workers[0].tasks == [TaskState(TRIP, None, Queued)];
    assert s.workers[0].selected == {};
  }

  lemma FirstTickSeesRain() returns (events: seq<Event>, s: State)
    ensures After(events, s) && s == State(INIT.db, map[0 := SweepOf(Inserting, Some(Rain), 3, Some(0), [])])
  {
    events, s := FirstTickStarts();
    events, s := Extend(events, s, Act(0, AcquirePermit(0)));
    assert s.workers[0] == SweepOf(Evaluating, None, 3, None, []);
    events, s := Extend(events, s, Act(0, Evaluate(0, Some(Rain))));
    assert s.workers[0] == SweepOf(AwaitInsert, Some(Rain), 3, None, []);
    events, s := Extend(events, s, Act(0, AcquireLock(0)));
    assert s.workers[0] == SweepOf(Inserting, Some(Rain), 3, Some(0), []);
  }

  /** It has executed its insert. */
  lemma FirstTickInserts() returns (events: seq<Event>, s: State)
    ensures After(events, s)
    ensures s == State(INIT.db.(nextId := 1, creator := map[0 := (0, 0)]),
                       map[0 := SweepOf(InsertExecuted(Some(0)), Some(Rain), 3, Some(0),
                                        [Owned(Task(0), Insert(0, Row(TRIP, 0, false)))])])
  {
    events, s := FirstTickSeesRain();
    assert !KeyTaken(s.db.rows, TRIP) && !PendingInsertOf(s.workers[0], TRIP);
    events, s := Extend(events, s, Act(0, ExecuteInsert(0, 0)));
    assert s.workers[0].session == [Owned(Task(0), Insert(0, Row(TRIP, 0, false)))];
    assert s.workers[0].tasks == [TaskState(TRIP, Some(Rain), InsertExecuted(Some(0)))];
    assert s.db.creator == map[0 := (0, 0)];
  }

  /** It has just committed the row and is about to send it. */
  lemma FirstTickRecords() returns (events: seq<Event>, s: State)
    ensures After(events, s)
    ensures s == State(Db(map[0 := Row(TRIP, 0, false)], 1, multiset{}, multiset{}, map[0 := (0, 0)]),
                       map[0 := SweepOf(Sending(0), Some(Rain), 3, None, [])])
  {
    events, s := FirstTickInserts();
    OneWriteApplied(s.db.rows, s.workers[0].session);
    events, s := Extend(events, s, Act(0, Commit(Task(0), Committed)));
    assert s.workers[0] == SweepOf(Sending(0), Some(Rain), 3, None, []);
  }

  /**
   Without that discipline the bound fails: a second tick that starts while the first is still
   sending picks the row up as undelivered, and the channel accepts it twice with no failed
   stamp anywhere.
   */
  lemma OverlapSendsTwice() returns (events: seq<Event>, s: State)
    ensures After(events, s) && s.db.accepted[0] == 2 && s.db.stampFailures[0] == 0
  {
    events, s := FirstTickRecords();
    events, s := Extend(events, s, StartTick(1, MONDAY));
    assert OldestPending(s.db.rows, MONDAY, MAX_REDELIVERIES_PER_TICK, [0]);
    events, s := Extend(events, s, Act(1, SelectPending([0])));
    events, s := Extend(events, s, Act(1, Send(Redelivery, true)));
    events, s := Extend(events, s, Act(0, Send(Task(0), true)));
  }

  /** The tick returns a notification that the channel never accepted. */
  lemma RejectedIsReturned() returns (events: seq<Event>, s: State)
    ensures After(events, s) && Returns(s, 0, 0, 0) && s.workers[0].phase.Returned?
    ensures 0 in s.db.rows && !s.db.rows[0].delivered && s.db.accepted[0] == 0
  {
    events, s := FirstTickRecords();
    events, s := Extend(events, s, Act(0, Send(Task(0), false)));
    events, s := Extend(events, s, Act(0, Return));
  }
}
