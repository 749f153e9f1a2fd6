/**
 Why the discipline of the retry query is exactly what the duplicate bound needs: a query that
 answers a row which another live tick carries opens the way to a run that breaks the bound.
 */
module OutboxSelection {
  import opened Wrappers
  import opened OutboxTable
  import opened Outbox
  import opened OutboxInvariant
  import opened OutboxPreservation
  import opened OutboxTheorems
  import opened OutboxDuplicates

  // ---------------------------------------------------------------------------------------
  // Extending a run
  // ---------------------------------------------------------------------------------------

  lemma {:induction false} RunExtends(s: State, events: seq<Event>, e: Event)
    requires Legal(s, events) && Enabled(Run(s, events), e)
    ensures Legal(s, events + [e]) && Run(s, events + [e]) == Step(Run(s, events), e)
    decreases |events|
  {
    hide Enabled, Step;
    if events == [] {
      assert events + [e] == [e] && [e][1..] == [];
    } else {
      assert (events + [e])[1..] == events[1..] + [e];
      RunExtends(Step(s, events[0]), events[1..], e);
    }
  }

  /** `events` lead from `s` to `s'`, without a retry query among them. */
  ghost predicate Leads(s: State, events: seq<Event>, s': State) {
    Legal(s, events) && s' == Run(s, events) && NoSelection(events)
  }

  ghost predicate NoSelection(events: seq<Event>) {
    forall e | e in events :: e.Act? ==> !e.action.SelectPending?
  }

  lemma LeadOn(s: State, events: seq<Event>, mid: State, e: Event) returns (events': seq<Event>, s': State)
    requires Leads(s, events, mid) && Enabled(mid, e) && (e.Act? ==> !e.action.SelectPending?)
    ensures Leads(s, events', s') && s' == Step(mid, e)
  {
    RunExtends(s, events, e);
    events', s' := events + [e], Step(mid, e);
  }

  lemma {:induction false} NoSelectionIsDisciplined(s: State, events: seq<Event>)
    requires Legal(s, events) && NoSelection(events)
    ensures Disciplined(s, events)
    decreases |events|
  {
    if events != [] {
      hide Enabled, Step, SelectsFree;
      assert events[0] in events;
      assert forall e | e in events[1..] :: e in events;
      NoSelectionIsDisciplined(Step(s, events[0]), events[1..]);
    }
  }

  // ---------------------------------------------------------------------------------------
  // Bringing a pass to one of its rows
  // ---------------------------------------------------------------------------------------

  /** Only tick `v` has moved, and the two books say the same about the row. */
  ghost predicate OnlyMoved(s: State, s': State, v: nat, id: nat) {
    && v in s.workers && v in s'.workers && s'.workers == s.workers[v := s'.workers[v]]
    && s'.db.accepted[id] == s.db.accepted[id] && s'.db.stampFailures[id] == s.db.stampFailures[id]
  }

  predicate PassPlace(pc: Pc) { pc.Sending? || pc.Stamping? || pc.StampExecuted? || pc.StampAborted? }

  lemma OnlyMovedTwice(s: State, mid: State, s': State, v: nat, id: nat)
    requires OnlyMoved(s, mid, v, id) && OnlyMoved(mid, s', v, id)
    ensures OnlyMoved(s, s', v, id)
  {
    assert s.workers[v := mid.workers[v]][v := s'.workers[v]] == s.workers[v := s'.workers[v]];
  }

  /** A stamp that is under way can be lost. */
  lemma LoseStamp(s: State, v: nat, id: nat) returns (act: Action)
    requires v in s.workers && s.workers[v].phase.Redelivering?
    requires (s.workers[v].phase.pc.Stamping? || s.workers[v].phase.pc.StampExecuted?) && s.workers[v].phase.pc.id != id
    ensures ActEnabled(s, v, act) && !act.SelectPending?
    ensures var s' := Step(s, Act(v, act));
            && OnlyMoved(s, s', v, id)
            && s'.workers[v].phase == Redelivering(StampAborted(s.workers[v].phase.pc.id), s.workers[v].phase.queue)
  {
    act := if s.workers[v].phase.pc.Stamping? then ExecuteFails(Redelivery) else Commit(Redelivery, Lost);
  }

  /** A pass can let go of its row without an accepted send. */
  lemma LetGo(s: State, v: nat, id: nat) returns (act: Action)
    requires v in s.workers && s.workers[v].phase.Redelivering?
    requires s.workers[v].phase.pc.Sending? || s.workers[v].phase.pc.StampAborted?
    ensures ActEnabled(s, v, act) && !act.SelectPending?
    ensures var s' := Step(s, Act(v, act));
            OnlyMoved(s, s', v, id) && s'.workers[v].phase == NextDelivery(s.workers[v].phase.queue)
  {
    act := if s.workers[v].phase.pc.Sending? then Send(Redelivery, false) else Rollback(Redelivery, false);
  }

  lemma DropRow(s: State, events: seq<Event>, mid: State, v: nat, id: nat) returns (events': seq<Event>, s': State)
    requires Leads(s, events, mid) && v in mid.workers && mid.workers[v].phase.Redelivering?
    requires PassPlace(mid.workers[v].phase.pc) && mid.workers[v].phase.pc.id != id
    ensures Leads(s, events', s') && OnlyMoved(mid, s', v, id)
    ensures s'.workers[v].phase == NextDelivery(mid.workers[v].phase.queue)
  {
    hide Leads, ActEnabled, Step;
    events', s' := events, mid;
    var pc := mid.workers[v].phase.pc;
    if pc.Stamping? || pc.StampExecuted? {
      var act := LoseStamp(mid, v, id);
      events', s' := LeadOn(s, events, mid, Act(v, act));
    }
    var mid' := s';
    var act := LetGo(mid', v, id);
    events', s' := LeadOn(s, events', mid', Act(v, act));
    if mid' != mid { OnlyMovedTwice(mid, mid', s', v, id); }
  }

  /** Rejecting every row before it, a pass comes to send the given row. */
  lemma {:induction false} AdvancePass(s: State, events: seq<Event>, mid: State, v: nat, id: nat)
    returns (events': seq<Event>, s': State)
    requires Leads(s, events, mid) && v in mid.workers && mid.workers[v].phase.Redelivering?
    requires PassPlace(mid.workers[v].phase.pc) && mid.workers[v].phase.pc.id != id && id in mid.workers[v].phase.queue
    ensures Leads(s, events', s') && OnlyMoved(mid, s', v, id)
    ensures s'.workers[v].phase.Redelivering? && s'.workers[v].phase.pc == Sending(id)
    decreases |mid.workers[v].phase.queue|
  {
    hide Leads, OnlyMoved;
    var queue := mid.workers[v].phase.queue;
    events', s' := DropRow(s, events, mid, v, id);
    MovedIsThere(mid, s', v, id);
    if queue[0] != id {
      var next := s';
      events', s' := AdvancePass(s, events', next, v, id);
      OnlyMovedTwice(mid, next, s', v, id);
    }
  }

  lemma MovedIsThere(s: State, s': State, v: nat, id: nat)
    requires OnlyMoved(s, s', v, id)
    ensures v in s.workers && v in s'.workers
    ensures s'.db.accepted[id] == s.db.accepted[id] && s'.db.stampFailures[id] == s.db.stampFailures[id]
    ensures forall u | u in s.workers && u != v :: u in s'.workers && s'.workers[u] == s.workers[u]
  {}

  // ---------------------------------------------------------------------------------------
  // Breaking the bound
  // ---------------------------------------------------------------------------------------

  /** Actor `a` of tick `v` is about to send the row, or has sent it and not yet stamped it. */
  ghost predicate Holds(s: State, v: nat, a: Actor, id: nat) {
    v in s.workers && Runs(s.workers[v], a) && OnItsWay(PcOf(s.workers[v], a)) && PcOf(s.workers[v], a).id == id
  }

  lemma {:induction false} UnstampedFlies(tasks: seq<TaskState>, t: nat)
    requires t < |tasks| && Unstamped(tasks[t].pc)
    ensures tasks[t].pc.id in UnstampedTasks(tasks)
    decreases |tasks|
  {
    var n := |tasks| - 1;
    if t < n { UnstampedFlies(tasks[..n], t); }
  }

  /** What has been sent and not stamped has been accepted once more than its stamps failed. */
  lemma HeldIsSent(s: State, v: nat, a: Actor, id: nat)
    requires Balanced(s, id) && Holds(s, v, a, id) && NotStamped(s.db, id)
    ensures s.db.accepted[id] >= s.db.stampFailures[id]
    ensures Unstamped(PcOf(s.workers[v], a)) ==> s.db.accepted[id] == s.db.stampFailures[id] + 1
  {
    if Unstamped(PcOf(s.workers[v], a)) {
      var wk := s.workers[v];
      if a.Task? { UnstampedFlies(wk.tasks, a.index); }
      assert id in InFlight(wk);
    }
  }

  /** A tick that carries a row comes to hold it. */
  lemma ComeToHold(s: State, events: seq<Event>, mid: State, v: nat, id: nat)
    returns (events': seq<Event>, s': State, a: Actor)
    requires Leads(s, events, mid) && CanCome(mid, v, id)
    ensures Leads(s, events', s') && OnlyMoved(mid, s', v, id) && Came(mid, s', v, a, id)
  {
    hide Leads;
    var wk := mid.workers[v];
    events', s' := events, mid;
    if wk.phase.Sweeping? {
      var t :| 0 <= t < |wk.tasks| && OnItsWay(wk.tasks[t].pc) && wk.tasks[t].pc.id == id;
      a := Task(t);
    } else {
      a := Redelivery;
      if id in wk.phase.queue { events', s' := AdvancePass(s, events, mid, v, id); }
    }
  }

  /** An accepted send. */
  lemma SendOnce(s: State, v: nat, a: Actor, id: nat)
    requires Holds(s, v, a, id) && PcOf(s.workers[v], a).Sending?
    ensures Enabled(s, Act(v, Send(a, true)))
    ensures var s' := Step(s, Act(v, Send(a, true)));
            && s'.db.accepted[id] == s.db.accepted[id] + 1 && s'.db.stampFailures == s.db.stampFailures
            && v in s'.workers && s'.workers == s.workers[v := s'.workers[v]]
  {}

  /** Two ticks about to send the same row: the channel can accept it from both. */
  lemma SendTwice(s: State, events: seq<Event>, mid: State, v: nat, a: Actor, w: nat, b: Actor, id: nat)
    returns (events': seq<Event>, s': State)
    requires Leads(s, events, mid) && v != w && Holds(mid, v, a, id) && Holds(mid, w, b, id)
    requires PcOf(mid.workers[w], b).Sending?
    requires mid.db.accepted[id] >= mid.db.stampFailures[id] + if PcOf(mid.workers[v], a).Sending? then 0 else 1
    ensures Leads(s, events', s') && !PaidFor(s'.db, id)
  {
    hide Leads, Step, ActEnabled;
    SendOnce(mid, w, b, id);
    events', s' := LeadOn(s, events, mid, Act(w, Send(b, true)));
    if PcOf(mid.workers[v], a).Sending? {
      var next := s';
      SendOnce(next, v, a, id);
      events', s' := LeadOn(s, events', next, Act(v, Send(a, true)));
    }
  }

  lemma SelectedCarries(s: State, w: nat, ids: seq<nat>, id: nat)
    requires w in s.workers && ActEnabled(s, w, SelectPending(ids)) && id in ids
    ensures var s' := Step(s, Act(w, SelectPending(ids)));
            && s'.db == s.db && w in s'.workers && s'.workers == s.workers[w := s'.workers[w]]
            && Carries(s'.workers[w], id) && s'.workers[w].phase.Redelivering?
            && s'.workers[w].phase.pc.Sending?
            && (id in s'.workers[w].phase.queue ==> s'.workers[w].phase.pc.id != id)
    ensures NotStamped(s.db, id)
  {
    var i :| 0 <= i < |ids| && ids[i] == id;
    if i > 0 { assert ids[1..][i - 1] == id; }
    forall j | 0 <= j < |ids[1..]|
      ensures ids[1..][j] != ids[0]
    {
      assert ids[1..][j] == ids[j + 1];
    }
  }

  lemma CarrierPlace(s: State, v: nat, id: nat)
    requires Inv(s) && v in s.workers && s.workers[v].phase.Redelivering?
    ensures PassPlace(s.workers[v].phase.pc)
    ensures id in s.workers[v].phase.queue ==> s.workers[v].phase.pc.id != id
  {
    WorkerOf(s, v);
    PassPc(s.db, v, s.workers[v]);
    QueueIsDifferent(s.db, v, s.workers[v]);
  }

  /** A row the tick carries, in a place from which it can come to hold it. */
  ghost predicate CanCome(s: State, v: nat, id: nat) {
    && v in s.workers && Carries(s.workers[v], id)
    && (s.workers[v].phase.Redelivering? ==>
          PassPlace(s.workers[v].phase.pc) && (id in s.workers[v].phase.queue ==> s.workers[v].phase.pc.id != id))
  }

  /** The actor came from its tick's queue, about to send; or it is where it was. */
  ghost predicate Came(s: State, s': State, v: nat, a: Actor, id: nat) {
    && Holds(s', v, a, id)
    && (Holds(s, v, a, id) || PcOf(s'.workers[v], a).Sending?)
    && (Holds(s, v, a, id) ==> PcOf(s'.workers[v], a) == PcOf(s.workers[v], a))
  }

  lemma CameStays(s: State, mid: State, s': State, w: nat, b: Actor, v: nat, id: nat)
    requires Came(s, mid, w, b, id) && OnlyMoved(mid, s', v, id) && v != w
    ensures Came(s, s', w, b, id)
  {}

  lemma CanComeStays(s: State, s': State, w: nat, v: nat, id: nat)
    requires CanCome(s, v, id) && OnlyMoved(s, s', w, id) && v != w
    ensures CanCome(s', v, id) && s'.workers[v] == s.workers[v]
  {}

  lemma CameFrom(s: State, mid: State, s': State, v: nat, a: Actor, id: nat)
    requires Came(mid, s', v, a, id) && v in s.workers && v in mid.workers && mid.workers[v] == s.workers[v]
    ensures Came(s, s', v, a, id)
  {}

  /** Two ticks that carry the row both come to hold it. */
  lemma BothCome(s: State, w: nat, v: nat, id: nat) returns (events: seq<Event>, s': State, b: Actor, a: Actor)
    requires v != w && CanCome(s, w, id) && CanCome(s, v, id)
    ensures Leads(s, events, s') && Came(s, s', w, b, id) && Came(s, s', v, a, id)
    ensures s'.db.accepted[id] == s.db.accepted[id] && s'.db.stampFailures[id] == s.db.stampFailures[id]
  {
    assert Leads(s, [], s);
    var mid: State;
    events, mid, b := ComeToHold(s, [], s, w, id);
    CanComeStays(s, mid, w, v, id);
    MovedIsThere(s, mid, w, id);
    hide Leads, Carries, Holds, OnlyMoved, CanCome;
    events, s', a := ComeToHold(s, events, mid, v, id);
    MovedIsThere(mid, s', v, id);
    CameStays(s, mid, s', w, b, v, id);
    hide Came;
    CameFrom(s, mid, s', v, a, id);
  }

  lemma CameReady(s: State, s0: State, s': State, v: nat, a: Actor, w: nat, b: Actor, id: nat)
    requires v != w && Balanced(s, id) && NotStamped(s.db, id) && s0.db == s.db
    requires v in s.workers && v in s0.workers && s0.workers[v] == s.workers[v]
    requires w in s0.workers && s0.workers[w].phase.Redelivering? && s0.workers[w].phase.pc.Sending?
    requires Came(s0, s', w, b, id) && Came(s0, s', v, a, id)
    requires s'.db.accepted[id] == s0.db.accepted[id] && s'.db.stampFailures[id] == s0.db.stampFailures[id]
    ensures PcOf(s'.workers[w], b).Sending?
    ensures s'.db.accepted[id] >= s'.db.stampFailures[id] + if PcOf(s'.workers[v], a).Sending? then 0 else 1
  {
    if Holds(s0, v, a, id) {
      HeldIsSent(s, v, a, id);
    }
  }

  /** After a query that answers a carried row, some run makes the channel accept it once too often. */
  lemma UnfreeSelectionBreaksTheBound(s: State, w: nat, ids: seq<nat>, v: nat, id: nat)
    returns (events: seq<Event>, s': State)
    requires Inv(s) && SharedInv(s) && w in s.workers && ActEnabled(s, w, SelectPending(ids))
    requires v in s.workers && v != w && id in ids && Carries(s.workers[v], id)
    ensures Leads(Step(s, Act(w, SelectPending(ids))), events, s') && !PaidFor(s'.db, id)
  {
    hide *;
    StartCanCome(s, w, ids, v, id);
    var start := Step(s, Act(w, SelectPending(ids)));
    var mid: State;
    var a, b: Actor;
    events, mid, b, a := BothCome(start, w, v, id);
    CameHolds(start, mid, v, a, id);
    CameHolds(start, mid, w, b, id);
    CameReady(s, start, mid, v, a, w, b, id);
    events, s' := SendTwice(start, events, mid, v, a, w, b, id);
  }

  lemma CarrierCanCome(s: State, s': State, v: nat, id: nat)
    requires Inv(s) && v in s.workers && Carries(s.workers[v], id) && v in s'.workers && s'.workers[v] == s.workers[v]
    ensures CanCome(s', v, id)
  {
    hide Inv;
    if s.workers[v].phase.Redelivering? { CarrierPlace(s, v, id); }
  }

  lemma SharedFacts(s: State, id: nat)
    requires SharedInv(s)
    ensures Balanced(s, id)
  {}

  lemma StartCanCome(s: State, w: nat, ids: seq<nat>, v: nat, id: nat)
    requires Inv(s) && SharedInv(s) && w in s.workers && ActEnabled(s, w, SelectPending(ids))
    requires v in s.workers && v != w && id in ids && Carries(s.workers[v], id)
    ensures Enabled(s, Act(w, SelectPending(ids)))
    ensures var s' := Step(s, Act(w, SelectPending(ids)));
            && CanCome(s', w, id) && CanCome(s', v, id)
            && s'.db == s.db && v in s'.workers && s'.workers[v] == s.workers[v]
            && w in s'.workers && s'.workers[w].phase.Redelivering? && s'.workers[w].phase.pc.Sending?
    ensures Balanced(s, id) && NotStamped(s.db, id)
  {
    hide Inv, SharedInv, ActEnabled, Carries, Balanced, NotStamped, ActStep;
    SelectedCarries(s, w, ids, id);
    SharedFacts(s, id);
    CarrierCanCome(s, Step(s, Act(w, SelectPending(ids))), v, id);
  }

  lemma CameHolds(s: State, s': State, v: nat, a: Actor, id: nat)
    requires Came(s, s', v, a, id)
    ensures Holds(s', v, a, id) && v in s'.workers && Runs(s'.workers[v], a)
  {}

  // ---------------------------------------------------------------------------------------
  // The exact condition
  // ---------------------------------------------------------------------------------------

  /** Whatever happens next, as long as later retry queries are disciplined, the bound holds. */
  ghost predicate StaysPaidFor(s: State) {
    forall events, id | Legal(s, events) && Disciplined(s, events) :: PaidFor(Run(s, events).db, id)
  }

  /**
   In a state that disciplined queries have led to, a retry query may answer these rows without
   risk to the duplicate bound if and only if no other tick carries one of them.
   */
  lemma DisciplineIsExact(events: seq<Event>, s: State, w: nat, ids: seq<nat>)
    requires After(events, s) && Disciplined(INIT, events)
    requires w in s.workers && ActEnabled(s, w, SelectPending(ids))
    ensures SelectsFree(s, w, ids) <==> StaysPaidFor(Step(s, Act(w, SelectPending(ids))))
  {
    DisciplinedRunIsShared(events, s);
    var e := Act(w, SelectPending(ids));
    hide Inv, SharedInv, PaidFor, Step, ActEnabled;
    if SelectsFree(s, w, ids) {
      StepKeeps(s, e);
      SharedStepKeeps(s, e);
      forall more, id | Legal(Step(s, e), more) && Disciplined(Step(s, e), more)
        ensures PaidFor(Run(Step(s, e), more).db, id)
      {
        SharedRunKeeps(Step(s, e), more);
        BalancedIsPaidFor(Run(Step(s, e), more), id);
      }
    } else {
      var v, id :| v in s.workers && v != w && id in ids && Carries(s.workers[v], id);
      hide Carries;
      var more, s' := UnfreeSelectionBreaksTheBound(s, w, ids, v, id);
      NoSelectionIsDisciplined(Step(s, e), more);
    }
  }
}
