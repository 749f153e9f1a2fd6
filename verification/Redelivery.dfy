/**
 The serial use of the outbox: `deliver` and `redeliver_pending` on a session they own, and how
 fast a backlog drains once the channel is back.
 */
module Redelivery {
  import opened OutboxTable
  import opened Outbox

  /** What the world answers for one row: does the send return, and how does the stamp's commit end. */
  datatype Answers = Answers(channel: nat -> bool, stamp: nat -> CommitResult)

  /** Whether the row ends up stamped, which an ambiguous commit does without saying so. */
  predicate TakesEffect(answers: Answers, id: nat) {
    answers.channel(id) && !answers.stamp(id).Lost?
  }

  predicate Confirmed(answers: Answers, id: nat) {
    answers.channel(id) && answers.stamp(id).Committed?
  }

  function Deliveries(rows: map<nat, Row>, ids: seq<nat>, answers: Answers): map<nat, Row> {
    if ids == [] then rows
    else
      var before := Deliveries(rows, ids[..|ids| - 1], answers);
      var id := ids[|ids| - 1];
      if TakesEffect(answers, id) then ApplyWrite(before, Stamp(id)) else before
  }

  function ConfirmedOf(ids: seq<nat>, answers: Answers): seq<nat> {
    if ids == [] then []
    else
      var id := ids[|ids| - 1];
      ConfirmedOf(ids[..|ids| - 1], answers) + if Confirmed(answers, id) then [id] else []
  }

  class Store {
    var rows: map<nat, Row>

    constructor (rows: map<nat, Row>)
      ensures this.rows == rows
    {
      this.rows := rows;
    }

    /** One send, and the stamp that follows an accepted one. */
    method Deliver(id: nat, answers: Answers) returns (ok: bool)
      requires id in rows
      modifies this
      ensures ok <==> Confirmed(answers, id)
      ensures rows == if TakesEffect(answers, id) then old(rows)[id := old(rows)[id].(delivered := true)] else old(rows)
    {
      if !answers.channel(id) {
        return false;
      }
      var result := answers.stamp(id);
      if !result.Lost? {
        rows := rows[id := rows[id].(delivered := true)];
      }
      ok := result.Committed?;
    }

    /** The retry pass over the rows the query answered, oldest first. */
    method RedeliverPending(pending: seq<nat>, answers: Answers) returns (delivered: seq<nat>)
      requires forall id | id in pending :: id in rows
      modifies this
      ensures rows == Deliveries(old(rows), pending, answers)
      ensures delivered == ConfirmedOf(pending, answers)
    {
      delivered := [];
      for i := 0 to |pending|
        invariant rows == Deliveries(old(rows), pending[..i], answers) && rows.Keys == old(rows).Keys
        invariant delivered == ConfirmedOf(pending[..i], answers)
      {
        assert pending[..i + 1][..i] == pending[..i] && pending[i] in pending;
        var ok := Deliver(pending[i], answers);
        if ok {
          delivered := delivered + [pending[i]];
        }
      }
      assert pending[..|pending|] == pending;
    }
  }

  /** A pass stamps exactly the rows it was given whose send and commit took effect. */
  lemma {:induction false} PassStampsExactly(rows: map<nat, Row>, ids: seq<nat>, answers: Answers)
    requires forall id | id in ids :: id in rows
    ensures Deliveries(rows, ids, answers).Keys == rows.Keys
    ensures forall id | id in rows ::
              Deliveries(rows, ids, answers)[id]
              == if id in ids && TakesEffect(answers, id) then rows[id].(delivered := true) else rows[id]
    decreases |ids|
  {
    if ids != [] {
      var n := |ids| - 1;
      assert ids == ids[..n] + [ids[n]];
      PassStampsExactly(rows, ids[..n], answers);
    }
  }

  /** The pass reports exactly the rows it was given whose send and stamp were confirmed. */
  lemma {:induction false} PassReportsExactly(ids: seq<nat>, answers: Answers, id: nat)
    ensures id in ConfirmedOf(ids, answers) <==> id in ids && Confirmed(answers, id)
    decreases |ids|
  {
    if ids != [] {
      var n := |ids| - 1;
      assert ids == ids[..n] + [ids[n]];
      PassReportsExactly(ids[..n], answers, id);
    }
  }

  // ---------------------------------------------------------------------------------------
  // Draining a backlog
  // ---------------------------------------------------------------------------------------

  /** The undelivered rows no younger than `cutoff`. */
  function Backlog(rows: map<nat, Row>, cutoff: int): set<nat> {
    set id | id in rows && !rows[id].delivered && rows[id].created <= cutoff
  }

  function Remaining(n: nat, limit: nat): nat { if n <= limit then 0 else n - limit }

  ghost predicate AllSucceed(answers: Answers, ids: seq<nat>) {
    forall id | id in ids :: Confirmed(answers, id)
  }

  function IdSet(ids: seq<nat>): set<nat> { set id | id in ids }

  lemma {:induction false} IdSetSize(ids: seq<nat>)
    requires NoDuplicates(ids)
    ensures |IdSet(ids)| == |ids|
    decreases |ids|
  {
    if ids == [] {
      assert IdSet(ids) == {};
    } else {
      IdSetSize(ids[1..]);
      assert IdSet(ids) == IdSet(ids[1..]) + {ids[0]};
    }
  }

  /** The retry query answers the oldest of the backlog, as many as the limit allows. */
  lemma QueryTakesOldest(rows: map<nat, Row>, today: int, limit: nat, ids: seq<nat>, cutoff: int)
    requires OldestPending(rows, today, limit, ids)
    requires forall id | id in Backlog(rows, cutoff) :: today <= rows[id].key.date
    ensures |Backlog(rows, cutoff) - IdSet(ids)| == Remaining(|Backlog(rows, cutoff)|, limit)
    ensures forall left, id | left in Backlog(rows, cutoff) && left !in ids && id in ids ::
              rows[id].created <= rows[left].created
  {
    var backlog, taken := Backlog(rows, cutoff), IdSet(ids);
    IdSetSize(ids);
    if backlog <= taken {
      assert backlog - taken == {};
      SubsetSize(backlog, taken);
    } else {
      // Some old row is left out, so the query was full of rows at least as old.
      var left :| left in backlog && left !in taken;
      assert Eligible(rows[left], today) && left !in ids;
      forall id | id in taken
        ensures id in backlog
      {
        assert rows[id].created <= rows[left].created;
      }
      SubsetSize(taken, backlog);
      assert taken <= backlog && taken != backlog;
      assert |backlog - taken| == |backlog| - |taken|;
    }
  }

  lemma {:induction false} SubsetSize(a: set<nat>, b: set<nat>)
    requires a <= b
    ensures |a| <= |b|
    ensures |b - a| == |b| - |a|
  {
    assert b == a + (b - a);
  }

  /** The retry pass over `ids` with everything succeeding, then a sweep that only adds young rows. */
  ghost predicate PassThenSweep(rows: map<nat, Row>, rows': map<nat, Row>, ids: seq<nat>, answers: Answers,
      cutoff: int) {
    var passed := Deliveries(rows, ids, answers);
    && AllSucceed(answers, ids)
    && (forall id | id in passed :: id in rows' && rows'[id] == passed[id])
    && (forall id | id in rows' && id !in passed :: rows'[id].created > cutoff)
  }

  /** One tick with a working channel and database. */
  ghost predicate GoodTick(rows: map<nat, Row>, rows': map<nat, Row>, today: int, limit: nat, cutoff: int) {
    exists ids, answers :: OldestPending(rows, today, limit, ids) && PassThenSweep(rows, rows', ids, answers, cutoff)
  }

  lemma BacklogShrinks(rows: map<nat, Row>, rows': map<nat, Row>, ids: seq<nat>, answers: Answers, cutoff: int)
    requires forall id | id in ids :: id in rows
    requires PassThenSweep(rows, rows', ids, answers, cutoff)
    ensures Backlog(rows', cutoff) == Backlog(rows, cutoff) - IdSet(ids)
  {
    PassStampsExactly(rows, ids, answers);
  }

  lemma GoodTickDrains(rows: map<nat, Row>, rows': map<nat, Row>, today: int, limit: nat, cutoff: int)
    requires GoodTick(rows, rows', today, limit, cutoff)
    requires forall id | id in Backlog(rows, cutoff) :: today <= rows[id].key.date
    ensures |Backlog(rows', cutoff)| == Remaining(|Backlog(rows, cutoff)|, limit)
  {
    hide PassThenSweep;
    var ids, answers :| OldestPending(rows, today, limit, ids) && PassThenSweep(rows, rows', ids, answers, cutoff);
    BacklogShrinks(rows, rows', ids, answers, cutoff);
    QueryTakesOldest(rows, today, limit, ids, cutoff);
  }

  /** Successive good ticks: `tables[i]` is the table before tick `i`, which is dated `dates[i]`. */
  ghost predicate GoodTicks(tables: seq<map<nat, Row>>, dates: seq<int>, limit: nat, cutoff: int) {
    && |tables| == |dates| + 1
    && forall i | 0 <= i < |dates| ::
         && GoodTick(tables[i], tables[i + 1], dates[i], limit, cutoff)
         && forall id | id in Backlog(tables[i], cutoff) :: dates[i] <= tables[i][id].key.date
  }

  lemma EarlierTicks(tables: seq<map<nat, Row>>, dates: seq<int>, limit: nat, cutoff: int)
    requires GoodTicks(tables, dates, limit, cutoff) && dates != []
    ensures GoodTicks(tables[..|dates|], dates[..|dates| - 1], limit, cutoff)
  {
    hide GoodTick;
  }

  lemma {:induction false} BacklogAfter(tables: seq<map<nat, Row>>, dates: seq<int>, limit: nat, cutoff: int)
    requires GoodTicks(tables, dates, limit, cutoff)
    ensures |Backlog(tables[|dates|], cutoff)| == Remaining(|Backlog(tables[0], cutoff)|, |dates| * limit)
    decreases |dates|
  {
    hide GoodTick, Backlog, Remaining;
    var n := |dates|;
    var all := |Backlog(tables[0], cutoff)|;
    RemainingOneMore(all, n, limit);
    if n > 0 {
      EarlierTicks(tables, dates, limit, cutoff);
      var earlier, before := tables[..n], dates[..n - 1];
      BacklogAfter(earlier, before, limit, cutoff);
      LastTick(tables, dates, limit, cutoff);
    }
  }

  lemma LastTick(tables: seq<map<nat, Row>>, dates: seq<int>, limit: nat, cutoff: int)
    requires GoodTicks(tables, dates, limit, cutoff) && dates != []
    ensures |Backlog(tables[|dates|], cutoff)| == Remaining(|Backlog(tables[|dates| - 1], cutoff)|, limit)
  {
    hide GoodTick, Backlog, Remaining;
    var n := |dates|;
    GoodTickDrains(tables[n - 1], tables[n], dates[n - 1], limit, cutoff);
  }

  lemma RemainingOneMore(all: nat, n: nat, limit: nat)
    ensures n == 0 ==> Remaining(all, n * limit) == all
    ensures n > 0 ==> Remaining(Remaining(all, (n - 1) * limit), limit) == Remaining(all, n * limit)
  {
    if n > 0 {
      assert n * limit == (n - 1) * limit + limit;
      RemainingAdd(all, (n - 1) * limit, limit);
    }
  }

  lemma RemainingAdd(n: nat, a: nat, b: nat)
    ensures Remaining(Remaining(n, a), b) == Remaining(n, a + b)
  {}

  /**
   A backlog of `n` rows is gone after `ceil(n / 50)` good ticks, however many younger rows
   arrive in the meantime, and not before.
   */
  lemma BacklogDrains(tables: seq<map<nat, Row>>, dates: seq<int>, cutoff: int)
    requires GoodTicks(tables, dates, 50, cutoff)
    ensures Backlog(tables[|dates|], cutoff) == {}
       <==> |dates| >= (|Backlog(tables[0], cutoff)| + 50 - 1) / 50
  {
    BacklogAfter(tables, dates, 50, cutoff);
  }
}
