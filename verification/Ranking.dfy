/**
 `rank`: the cheapest candidate of each kind among those that leave soon enough, best first. The
 two-pass program is proved against a description of its result that determines it uniquely.
 */
module Ranking {
  import opened Wrappers
  import opened Scoring

  /** The arguments that stay fixed during one ranking. */
  datatype Task = Task(city: City, candidates: seq<Candidate>, rain: Option<RainForecast>, weights: Weights,
      threshold: real)

  predicate HasKind(candidates: seq<Candidate>, kind: Kind) {
    exists c | c in candidates :: c.kind == kind
  }

  /** The earliest departure of a kind. */
  ghost predicate IsEarliest(candidates: seq<Candidate>, kind: Kind, start: int) {
    && (exists c | c in candidates :: c.kind == kind && c.itinerary.startTime == start)
    && (forall c | c in candidates && c.kind == kind :: start <= c.itinerary.startTime)
  }

  function Earliest(candidates: seq<Candidate>, kind: Kind): (start: Option<int>)
    ensures start.Some? <==> HasKind(candidates, kind)
    ensures start.Some? ==> IsEarliest(candidates, kind, start.value)
  {
    if candidates == [] then None
    else
      var n := |candidates| - 1;
      var before := Earliest(candidates[..n], kind);
      var last := candidates[n];
      assert candidates == candidates[..n] + [last];
      if last.kind != kind then before
      else if before.None? || last.itinerary.startTime < before.value then Some(last.itinerary.startTime)
      else before
  }

  /** Minutes candidate `i` departs after the earliest of its kind. */
  function Delay(task: Task, i: int): real
    requires 0 <= i < |task.candidates|
  {
    var c := task.candidates[i];
    (c.itinerary.startTime - Earliest(task.candidates, c.kind).value) as real / 60000.0
  }

  predicate Eligible(task: Task, i: int) {
    0 <= i < |task.candidates| && Delay(task, i) <= task.weights.maxDepartWait
  }

  function WaitPrice(delay: real, weights: Weights): real { delay * weights.departDelayFactor }

  /** The score with the minutes waited priced in. */
  function Delayed(scored: Scored, delay: real, weights: Weights): Scored {
    scored.(cost := Round4(scored.cost + WaitPrice(delay, weights)))
  }

  /** Candidate `i` as it competes. */
  function Competing(task: Task, i: int): Scored
    requires 0 <= i < |task.candidates|
  {
    var scored := ScoreOf(task.city, task.candidates[i], task.rain, task.weights, task.threshold);
    if Delay(task, i) == 0.0 then scored else Delayed(scored, Delay(task, i), task.weights)
  }

  /** The first of the cheapest eligible candidates of its kind, looking at the first `n` only. */
  ghost predicate WinsAmong(task: Task, n: nat, i: int) {
    && 0 <= i < n <= |task.candidates| && Eligible(task, i)
    && forall j | 0 <= j < n && Eligible(task, j) && task.candidates[j].kind == task.candidates[i].kind ::
         Competing(task, i).cost <= Competing(task, j).cost
         && (j < i ==> Competing(task, i).cost < Competing(task, j).cost)
  }

  ghost predicate Wins(task: Task, i: int) { WinsAmong(task, |task.candidates|, i) }

  /** The alphabetical order of the names "bike", "bike_and_ride" and "transit". */
  function KindOrder(kind: Kind): int {
    match kind
    case Bike => 0
    case BikeAndRide => 1
    case Transit => 2
  }

  /** The sort key is smaller: cost, then duration, then kind name. */
  predicate Before(a: Scored, b: Scored) {
    || a.cost < b.cost
    || (a.cost == b.cost && a.itinerary.duration < b.itinerary.duration)
    || (a.cost == b.cost && a.itinerary.duration == b.itinerary.duration && KindOrder(a.kind) < KindOrder(b.kind))
  }

  predicate StrictlySorted(options: seq<Scored>) {
    forall i, j | 0 <= i < j < |options| :: Before(options[i], options[j])
  }

  /** What `rank` returns: the winners and nothing else, strictly sorted. */
  ghost predicate IsRanking(task: Task, options: seq<Scored>) {
    && (forall s | s in options :: exists i :: Wins(task, i) && s == Competing(task, i))
    && (forall i | Wins(task, i) :: Competing(task, i) in options)
    && StrictlySorted(options)
  }

  // ---------------------------------------------------------------------------------------
  // The program
  // ---------------------------------------------------------------------------------------

  /** The winner found so far for each kind. */
  ghost predicate BestSoFar(task: Task, n: nat, best: map<Kind, Scored>) {
    && (forall k | k in best :: exists i ::
          WinsAmong(task, n, i) && task.candidates[i].kind == k && best[k] == Competing(task, i))
    && (forall i | WinsAmong(task, n, i) :: task.candidates[i].kind in best)
    && (forall i | 0 <= i < n && Eligible(task, i) :: task.candidates[i].kind in best)
  }

  /** The earliest departures found among the candidates seen so far. */
  ghost predicate EarliestSoFar(seen: seq<Candidate>, earliest: map<Kind, int>) {
    forall k :: (if k in earliest then Some(earliest[k]) else None) == Earliest(seen, k)
  }

  lemma EarliestExtends(candidates: seq<Candidate>, n: nat, earliest: map<Kind, int>)
    requires n < |candidates| && EarliestSoFar(candidates[..n], earliest)
    ensures var kind, start := candidates[n].kind, candidates[n].itinerary.startTime;
            EarliestSoFar(candidates[..n + 1],
              earliest[kind := if kind in earliest && earliest[kind] <= start then earliest[kind] else start])
  {
    assert candidates[..n + 1][..n] == candidates[..n] && candidates[..n + 1][n] == candidates[n];
  }

  lemma EarliestKnown(candidates: seq<Candidate>, n: nat, earliest: map<Kind, int>)
    requires n < |candidates| && EarliestSoFar(candidates, earliest)
    ensures var kind := candidates[n].kind; kind in earliest && Earliest(candidates, kind) == Some(earliest[kind])
  {
    assert HasKind(candidates, candidates[n].kind) by { assert candidates[n] in candidates; }
  }

  lemma NothingWinsYet(task: Task)
    ensures BestSoFar(task, 0, map[])
  {}

  lemma NothingToRank(task: Task)
    requires task.candidates == []
    ensures IsRanking(task, [])
  {}

  /** First each kind's earliest departure, then each kind's best candidate, then the order. */
  method Rank(task: Task) returns (options: seq<Scored>)
    ensures IsRanking(task, options)
  {
    hide ScoreOf, Delayed, BestSoFar, IsRanking, Earliest, EarliestSoFar;
    var candidates := task.candidates;
    if candidates == [] {
      NothingToRank(task);
      return [];
    }
    var earliest: map<Kind, int> := map[];
    assert EarliestSoFar([], map[]) by { NothingSeenYet(); }
    assert candidates[..0] == [];
    for n := 0 to |candidates|
      invariant EarliestSoFar(candidates[..n], earliest)
    {
      var kind, start := candidates[n].kind, candidates[n].itinerary.startTime;
      EarliestExtends(candidates, n, earliest);
      earliest := earliest[kind := if kind in earliest && earliest[kind] <= start then earliest[kind] else start];
    }
    assert candidates[..|candidates|] == candidates;
    var best: map<Kind, Scored> := map[];
    NothingWinsYet(task);
    for n := 0 to |candidates|
      invariant BestSoFar(task, n, best)
    {
      var c := candidates[n];
      EarliestKnown(candidates, n, earliest);
      var delay := (c.itinerary.startTime - earliest[c.kind]) as real / 60000.0;
      ghost var before := best;
      if delay <= task.weights.maxDepartWait {
        var scored := Score(task.city, c, task.rain, task.weights, task.threshold);
        if delay != 0.0 {
          scored := Delayed(scored, delay, task.weights);
        }
        if c.kind !in best || scored.cost < best[c.kind].cost {
          best := best[c.kind := scored];
        }
      }
      BestExtends(task, n, before, best);
    }
    WinnersAreBest(task, best);
    options := SortWinners(best);
    SortedWinnersAreRanking(task, best, options);
  }

  lemma NothingSeenYet()
    ensures EarliestSoFar([], map[])
  {}

  /** One more candidate: the earlier winner of another kind, or an unbeaten one, still wins. */
  lemma StillWins(task: Task, n: nat, i: int)
    requires n < |task.candidates| && WinsAmong(task, n, i)
    requires Eligible(task, n) && task.candidates[n].kind == task.candidates[i].kind ==>
        Competing(task, i).cost <= Competing(task, n).cost
    ensures WinsAmong(task, n + 1, i)
  {
    hide Competing, Eligible;
  }

  lemma NewWinner(task: Task, n: nat, before: map<Kind, Scored>)
    requires n < |task.candidates| && BestSoFar(task, n, before) && Eligible(task, n)
    requires var kind := task.candidates[n].kind; kind !in before || Competing(task, n).cost < before[kind].cost
    ensures WinsAmong(task, n + 1, n)
  {
    hide Competing, Eligible;
  }

  lemma WonBefore(task: Task, n: nat, i: int)
    requires n < |task.candidates| && WinsAmong(task, n + 1, i) && i != n
    ensures WinsAmong(task, n, i)
  {
    hide Competing, Eligible;
  }

  lemma BestExtends(task: Task, n: nat, before: map<Kind, Scored>, best: map<Kind, Scored>)
    requires n < |task.candidates| && BestSoFar(task, n, before)
    requires var kind := task.candidates[n].kind;
             best == if Eligible(task, n) && (kind !in before || Competing(task, n).cost < before[kind].cost)
                     then before[kind := Competing(task, n)] else before
    ensures BestSoFar(task, n + 1, best)
  {
    hide Competing, Eligible;
    var kind := task.candidates[n].kind;
    var replaced := Eligible(task, n) && (kind !in before || Competing(task, n).cost < before[kind].cost);
    forall k | k in best
      ensures exists i :: WinsAmong(task, n + 1, i) && task.candidates[i].kind == k && best[k] == Competing(task, i)
    {
      if replaced && k == kind {
        NewWinner(task, n, before);
      } else {
        var i :| WinsAmong(task, n, i) && task.candidates[i].kind == k && before[k] == Competing(task, i);
        StillWins(task, n, i);
      }
    }
    forall i | WinsAmong(task, n + 1, i)
      ensures task.candidates[i].kind in best
    {
      if i != n { WonBefore(task, n, i); }
    }
    hide WinsAmong;
  }

  /** At most one candidate of a kind wins. */
  lemma OneWinnerPerKind(task: Task, i: int, j: int)
    requires Wins(task, i) && Wins(task, j) && task.candidates[i].kind == task.candidates[j].kind
    ensures i == j
  {}

  function Insert(s: Scored, options: seq<Scored>): seq<Scored> {
    if options == [] then [s]
    else if Before(s, options[0]) then [s] + options
    else [options[0]] + Insert(s, options[1..])
  }

  lemma {:induction false} InsertKeepsOrder(s: Scored, options: seq<Scored>)
    requires StrictlySorted(options) && forall o | o in options :: o.kind != s.kind
    ensures StrictlySorted(Insert(s, options))
    ensures forall o :: o in Insert(s, options) <==> o == s || o in options
    decreases |options|
  {
    if options != [] {
      var first, rest := options[0], options[1..];
      assert options == [first] + rest;
      InsertKeepsOrder(s, rest);
      if !Before(s, first) {
        var inserted := Insert(s, rest);
        forall i | 0 <= i < |inserted|
          ensures Before(first, inserted[i])
        {
          assert inserted[i] in inserted;
          if inserted[i] != s {
            var j :| 0 <= j < |rest| && rest[j] == inserted[i];
            assert rest[j] == options[j + 1];
          }
        }
      }
    }
  }

  /** The options are the winners' values for these kinds. */
  ghost predicate ListsKinds(options: seq<Scored>, best: map<Kind, Scored>, kinds: set<Kind>) {
    && (forall k | k in kinds :: k in best && best[k] in options)
    && (forall o | o in options :: o.kind in kinds && o == best[o.kind])
  }

  lemma InsertListsKinds(options: seq<Scored>, best: map<Kind, Scored>, kinds: set<Kind>, kind: Kind)
    requires forall k | k in best :: best[k].kind == k
    requires ListsKinds(options, best, kinds) && StrictlySorted(options) && kind in best && kind !in kinds
    ensures ListsKinds(Insert(best[kind], options), best, kinds + {kind}) && StrictlySorted(Insert(best[kind], options))
  {
    hide StrictlySorted, Insert;
    InsertKeepsOrder(best[kind], options);
  }

  /** The values of the map, brought in order. */
  method SortWinners(best: map<Kind, Scored>) returns (options: seq<Scored>)
    requires forall k | k in best :: best[k].kind == k
    ensures StrictlySorted(options) && ListsKinds(options, best, best.Keys)
  {
    options := [];
    var left := best.Keys;
    while left != {}
      invariant left <= best.Keys
      invariant StrictlySorted(options) && ListsKinds(options, best, best.Keys - left)
    {
      var kind :| kind in left;
      ghost var done := best.Keys - left;
      left := left - {kind};
      InsertListsKinds(options, best, done, kind);
      assert best.Keys - left == done + {kind};
      options := Insert(best[kind], options);
    }
    assert best.Keys - left == best.Keys;
  }

  /** The map holds exactly the winners, under their kinds. */
  ghost predicate HoldsWinners(task: Task, best: map<Kind, Scored>) {
    && (forall k | k in best :: best[k].kind == k && exists i :: Wins(task, i) && best[k] == Competing(task, i))
    && (forall i | Wins(task, i) ::
          task.candidates[i].kind in best && best[task.candidates[i].kind] == Competing(task, i))
  }

  lemma SortedWinnersAreRanking(task: Task, best: map<Kind, Scored>, options: seq<Scored>)
    requires HoldsWinners(task, best) && StrictlySorted(options) && ListsKinds(options, best, best.Keys)
    ensures IsRanking(task, options)
  {
    hide Wins, Competing, StrictlySorted;
  }

  lemma WinnersAreBest(task: Task, best: map<Kind, Scored>)
    requires BestSoFar(task, |task.candidates|, best)
    ensures HoldsWinners(task, best)
  {
    hide Eligible, Competing;
    forall i | Wins(task, i)
      ensures task.candidates[i].kind in best && best[task.candidates[i].kind] == Competing(task, i)
    {
      var k := task.candidates[i].kind;
      var j :| WinsAmong(task, |task.candidates|, j) && task.candidates[j].kind == k && best[k] == Competing(task, j);
      OneWinnerPerKind(task, i, j);
    }
    forall k | k in best
      ensures best[k].kind == k && exists i :: Wins(task, i) && best[k] == Competing(task, i)
    {
      var i :| WinsAmong(task, |task.candidates|, i) && task.candidates[i].kind == k && best[k] == Competing(task, i);
      assert Wins(task, i);
      WinnerKind(task, i);
    }
  }

  // ---------------------------------------------------------------------------------------
  // What the description says
  // ---------------------------------------------------------------------------------------

  /** A nonnegative wait limit never rules out the earliest candidate of a kind. */
  lemma EarliestIsEligible(task: Task, kind: Kind) returns (i: int)
    requires HasKind(task.candidates, kind) && task.weights.maxDepartWait >= 0.0
    ensures Eligible(task, i) && task.candidates[i].kind == kind
  {
    var start := Earliest(task.candidates, kind).value;
    var c :| c in task.candidates && c.kind == kind && c.itinerary.startTime == start;
    i :| 0 <= i < |task.candidates| && task.candidates[i] == c;
  }

  /** A negative limit rules out everything. */
  lemma NothingIsEligible(task: Task, i: int)
    requires 0 <= i < |task.candidates| && task.weights.maxDepartWait < 0.0
    ensures !Eligible(task, i)
  {
    var c := task.candidates[i];
    assert HasKind(task.candidates, c.kind) by { assert c in task.candidates; }
    assert Delay(task, i) >= 0.0;
  }

  /** Where some candidate of a kind competes, one wins. */
  lemma {:induction false} SomeoneWins(task: Task, n: nat, kind: Kind) returns (w: int)
    requires n <= |task.candidates|
    requires exists i :: 0 <= i < n && Eligible(task, i) && task.candidates[i].kind == kind
    ensures WinsAmong(task, n, w) && task.candidates[w].kind == kind
    decreases n
  {
    hide Competing, Eligible;
    var i :| 0 <= i < n && Eligible(task, i) && task.candidates[i].kind == kind;
    if exists j :: 0 <= j < n - 1 && Eligible(task, j) && task.candidates[j].kind == kind {
      w := SomeoneWins(task, n - 1, kind);
      if Eligible(task, n - 1) && task.candidates[n - 1].kind == kind
         && Competing(task, n - 1).cost < Competing(task, w).cost {
        w := n - 1;
      }
    } else {
      w := i;
    }
  }

  /**
   There is exactly one option for every kind of candidate, as long as the wait limit is not
   negative; with a negative limit there are no options at all.
   */
  lemma OneOptionPerKind(task: Task, options: seq<Scored>)
    requires IsRanking(task, options)
    ensures forall i, j | 0 <= i < j < |options| :: options[i].kind != options[j].kind
    ensures forall kind :: (exists s | s in options :: s.kind == kind)
                      <==> HasKind(task.candidates, kind) && task.weights.maxDepartWait >= 0.0
  {
    hide Delayed, ScoreOf;
    forall i, j | 0 <= i < j < |options|
      ensures options[i].kind != options[j].kind
    {
      SameKindSameOption(task, options[i], options[j], options);
    }
    forall kind
      ensures (exists s | s in options :: s.kind == kind)
          <==> HasKind(task.candidates, kind) && task.weights.maxDepartWait >= 0.0
    {
      if HasKind(task.candidates, kind) && task.weights.maxDepartWait >= 0.0 {
        var i := EarliestIsEligible(task, kind);
        var w := SomeoneWins(task, |task.candidates|, kind);
        assert Wins(task, w);
        WinnerKind(task, w);
      }
      if s :| s in options && s.kind == kind {
        var i :| Wins(task, i) && s == Competing(task, i);
        WinnerKind(task, i);
        if task.weights.maxDepartWait < 0.0 { NothingIsEligible(task, i); }
        assert task.candidates[i] in task.candidates;
      }
    }
  }

  lemma WinnerKind(task: Task, i: int)
    requires 0 <= i < |task.candidates|
    ensures Competing(task, i).kind == task.candidates[i].kind
    ensures Competing(task, i).itinerary == task.candidates[i].itinerary
  {}

  lemma SameKindSameOption(task: Task, a: Scored, b: Scored, options: seq<Scored>)
    requires IsRanking(task, options) && a in options && b in options && Before(a, b)
    ensures a.kind != b.kind
  {
    var i :| Wins(task, i) && a == Competing(task, i);
    var j :| Wins(task, j) && b == Competing(task, j);
    hide Competing, Wins;
    WinnerKind(task, i);
    WinnerKind(task, j);
    if a.kind == b.kind {
      OneWinnerPerKind(task, i, j);
    }
  }

  lemma FirstIsMember(a: seq<Scored>)
    ensures a != [] ==> a[0] in a
  {}

  lemma {:induction false} SortedUnique(a: seq<Scored>, b: seq<Scored>)
    requires StrictlySorted(a) && StrictlySorted(b) && forall s :: s in a <==> s in b
    ensures a == b
    decreases |a|
  {
    if a == [] {
      FirstIsMember(b);
    } else {
      assert a[0] in b;
      var i :| 0 <= i < |b| && b[i] == a[0];
      assert b[0] in a;
      var j :| 0 <= j < |a| && a[j] == b[0];
      assert a[0] == b[0];
      forall s
        ensures s in a[1..] <==> s in b[1..]
      {
        TailMembers(a, s);
        TailMembers(b, s);
      }
      SortedUnique(a[1..], b[1..]);
      assert a == [a[0]] + a[1..] && b == [b[0]] + b[1..];
    }
  }

  lemma TailMembers(a: seq<Scored>, s: Scored)
    requires StrictlySorted(a) && a != []
    ensures s in a[1..] <==> s in a && s != a[0]
  {
    if s in a[1..] {
      var i :| 0 <= i < |a[1..]| && a[1..][i] == s;
      assert Before(a[0], a[i + 1]);
    }
  }

  /** The description leaves no choice: there is one ranking. */
  lemma RankingIsUnique(task: Task, a: seq<Scored>, b: seq<Scored>)
    requires IsRanking(task, a) && IsRanking(task, b)
    ensures a == b
  {
    hide Competing, Wins, StrictlySorted;
    SortedUnique(a, b);
  }

  // ---------------------------------------------------------------------------------------
  // Rankings under different forecasts
  // ---------------------------------------------------------------------------------------

  ghost predicate SaneTask(task: Task) {
    Escalating(task.weights) && forall c | c in task.candidates :: Sane(c.itinerary)
  }

  /** The same task with another forecast. */
  function Under(task: Task, rain: RainForecast): Task { task.(rain := Some(rain)) }

  lemma DelayedMonotone(s: Scored, s': Scored, delay: real, weights: Weights)
    requires s.cost <= s'.cost
    ensures Delayed(s, delay, weights).cost <= Delayed(s', delay, weights).cost
  {
    hide Round, Round4, WaitPrice;
    var price := WaitPrice(delay, weights);
    RoundMonotone(s.cost + price, s'.cost + price);
  }

  lemma CompetingMonotone(task: Task, rain: RainForecast, rain': RainForecast, i: int)
    requires SaneTask(task) && NoDrier(rain, rain') && 0 <= i < |task.candidates|
    ensures Competing(Under(task, rain), i).cost <= Competing(Under(task, rain'), i).cost
    ensures Eligible(Under(task, rain), i) <==> Eligible(Under(task, rain'), i)
  {
    hide ScoreOf, Delayed, Escalating, Sane, Earliest;
    var c := task.candidates[i];
    assert c in task.candidates;
    ScoreMonotone(task.city, c, rain, rain', task.weights, task.threshold);
    DelayedMonotone(ScoreOf(task.city, c, Some(rain), task.weights, task.threshold),
                    ScoreOf(task.city, c, Some(rain'), task.weights, task.threshold), Delay(task, i), task.weights);
  }

  /** More rain never makes the best option of any kind cheaper. */
  lemma WinningCostsMonotone(task: Task, rain: RainForecast, rain': RainForecast, options: seq<Scored>,
      options': seq<Scored>, s: Scored, s': Scored)
    requires SaneTask(task) && NoDrier(rain, rain')
    requires IsRanking(Under(task, rain), options) && IsRanking(Under(task, rain'), options')
    requires s in options && s' in options' && s.kind == s'.kind
    ensures s.cost <= s'.cost
  {
    var i :| Wins(Under(task, rain), i) && s == Competing(Under(task, rain), i);
    var j :| Wins(Under(task, rain'), j) && s' == Competing(Under(task, rain'), j);
    hide Competing, SaneTask, NoDrier, IsRanking, Eligible;
    WinnerKind(Under(task, rain), i);
    WinnerKind(Under(task, rain'), j);
    CompetingMonotone(task, rain, rain', j);
  }

  /**
   If the cheapest option is sheltered it stays, at the same cost, a cheapest option however
   much more it rains.
   */
  lemma ShelteredStaysCheapest(task: Task, rain: RainForecast, rain': RainForecast, options: seq<Scored>,
      options': seq<Scored>, s: Scored)
    requires SaneTask(task) && NoDrier(rain, rain')
    requires IsRanking(Under(task, rain), options) && IsRanking(Under(task, rain'), options')
    requires s in options && Sheltered(s.itinerary) && forall o | o in options :: s.cost <= o.cost
    ensures s in options' && forall o | o in options' :: s.cost <= o.cost
  {
    var now, later := Under(task, rain), Under(task, rain');
    var i :| Wins(now, i) && s == Competing(now, i);
    WinnerKind(now, i);
    ShelteredCompeting(task, rain, rain', i);
    hide Competing, SaneTask, NoDrier, Eligible, Sheltered, StrictlySorted;
    forall j | 0 <= j < |task.candidates|
      ensures Competing(now, j).cost <= Competing(later, j).cost && (Eligible(now, j) <==> Eligible(later, j))
    {
      CompetingMonotone(task, rain, rain', j);
    }
    StillFirst(now, later, i);
    forall o | o in options'
      ensures s.cost <= o.cost
    {
      var j :| Wins(later, j) && o == Competing(later, j);
      var w := WinnerAgainst(now, j);
      assert Competing(now, w) in options;
    }
  }

  /** What wins still wins when it costs the same and nothing got cheaper. */
  lemma StillFirst(now: Task, later: Task, i: int)
    requires later == now.(rain := later.rain) && Wins(now, i) && Competing(later, i) == Competing(now, i)
    requires forall j | 0 <= j < |now.candidates| ::
               Competing(now, j).cost <= Competing(later, j).cost && (Eligible(now, j) <==> Eligible(later, j))
    ensures Wins(later, i)
  {
    hide Competing, Eligible;
  }

  /** The winner of an eligible candidate's kind costs no more. */
  lemma WinnerAgainst(task: Task, j: int) returns (w: int)
    requires Eligible(task, j)
    ensures Wins(task, w) && Competing(task, w).cost <= Competing(task, j).cost
  {
    assert 0 <= j < |task.candidates|;
    hide Competing, Eligible;
    w := SomeoneWins(task, |task.candidates|, task.candidates[j].kind);
  }

  lemma ShelteredCompeting(task: Task, rain: RainForecast, rain': RainForecast, i: int)
    requires 0 <= i < |task.candidates| && Sheltered(task.candidates[i].itinerary)
    ensures Competing(Under(task, rain), i) == Competing(Under(task, rain'), i)
  {
    var c := task.candidates[i];
    ShelteredScore(task.city, c, rain, task.weights, task.threshold);
    ShelteredScore(task.city, c, rain', task.weights, task.threshold);
  }

  lemma SameCompetitionSameRanking(task: Task, task': Task, options: seq<Scored>)
    requires |task.candidates| == |task'.candidates|
    requires forall i | 0 <= i < |task.candidates| ::
               && Competing(task, i) == Competing(task', i)
               && (Eligible(task, i) <==> Eligible(task', i))
               && task.candidates[i].kind == task'.candidates[i].kind
    requires IsRanking(task, options)
    ensures IsRanking(task', options)
  {
    hide Competing, Eligible, StrictlySorted;
    assert forall i :: Wins(task, i) <==> Wins(task', i);
  }

  /** Without a forecast the ranking is the one of a forecast that stays below the threshold. */
  lemma NoForecastRanksDry(task: Task, rain: RainForecast, options: seq<Scored>)
    requires BelowThreshold(rain, task.threshold)
    ensures IsRanking(task.(rain := None), options) <==> IsRanking(Under(task, rain), options)
  {
    forall i | 0 <= i < |task.candidates|
      ensures Competing(task.(rain := None), i) == Competing(Under(task, rain), i)
      ensures Eligible(task.(rain := None), i) <==> Eligible(Under(task, rain), i)
    {
      NoForecastScoresDry(task.city, task.candidates[i], rain, task.weights, task.threshold);
    }
    hide Competing, Eligible, IsRanking;
    if IsRanking(task.(rain := None), options) {
      SameCompetitionSameRanking(task.(rain := None), Under(task, rain), options);
    }
    if IsRanking(Under(task, rain), options) {
      SameCompetitionSameRanking(Under(task, rain), task.(rain := None), options);
    }
  }
}
