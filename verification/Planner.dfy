/**
 Candidate generation: three queries pooled and classified, tolerant of planner failures, with
 the snapping fallback when the trip routes but not by bike.
 */
module Planner {
  import opened Wrappers
  import opened Scoring
  import Snap

  /** How one of the fanned-out queries comes back. */
  datatype QueryResult = Routed(itineraries: seq<Itinerary>) | OtpFailed | OtherException

  datatype GatherError = AllQueriesFailed | Unexpected

  /** The classified itineraries of one plan, walk-only ones dropped. */
  function Classified(itineraries: seq<Itinerary>): seq<Candidate> {
    if itineraries == [] then []
    else
      var n := |itineraries| - 1;
      Classified(itineraries[..n])
      + match Classify(itineraries[n])
        case Some(kind) => [Candidate(kind, itineraries[n])]
        case None => []
  }

  /** The candidates of all plans that arrived, in query order. */
  function Pooled(results: seq<QueryResult>): seq<Candidate> {
    if results == [] then []
    else
      var n := |results| - 1;
      Pooled(results[..n]) + if results[n].Routed? then Classified(results[n].itineraries) else []
  }

  predicate HasBike(candidates: seq<Candidate>) {
    exists c | c in candidates :: c.kind.Bike?
  }

  lemma {:induction false} ClassifiedMembers(itineraries: seq<Itinerary>)
    ensures forall c ::
              c in Classified(itineraries)
              <==> c.itinerary in itineraries && Classify(c.itinerary) == Some(c.kind)
    decreases |itineraries|
  {
    if itineraries != [] {
      var n := |itineraries| - 1;
      assert itineraries == itineraries[..n] + [itineraries[n]];
      ClassifiedMembers(itineraries[..n]);
    }
  }

  /** A plan that arrived contains the itinerary. */
  ghost predicate WasRouted(results: seq<QueryResult>, itinerary: Itinerary) {
    exists r :: r in results && r.Routed? && itinerary in r.itineraries
  }

  lemma {:induction false} PooledMembers(results: seq<QueryResult>)
    ensures forall c ::
              c in Pooled(results)
              <==> WasRouted(results, c.itinerary) && Classify(c.itinerary) == Some(c.kind)
    decreases |results|
  {
    if results != [] {
      var n := |results| - 1;
      assert results == results[..n] + [results[n]];
      PooledMembers(results[..n]);
      if results[n].Routed? { ClassifiedMembers(results[n].itineraries); }
      forall c: Candidate
        ensures WasRouted(results, c.itinerary)
           <==> WasRouted(results[..n], c.itinerary) || (results[n].Routed? && c.itinerary in results[n].itineraries)
      {
        if results[n].Routed? && c.itinerary in results[n].itineraries { assert results[n] in results; }
        if WasRouted(results[..n], c.itinerary) {
          var r :| r in results[..n] && r.Routed? && c.itinerary in r.itineraries;
          assert r in results;
        }
      }
    }
  }

  /** Candidates stand in the order of the queries, and within a plan in its order. */
  lemma {:induction false} PooledInOrder(results: seq<QueryResult>, more: seq<QueryResult>)
    ensures Pooled(results + more) == Pooled(results) + Pooled(more)
    decreases |more|
  {
    if more == [] {
      assert results + more == results;
    } else {
      hide Classified;
      var n := |more| - 1;
      assert (results + more)[..|results + more| - 1] == results + more[..n];
      PooledInOrder(results, more[..n]);
    }
  }

  lemma {:induction false} ClassifiedInOrder(itineraries: seq<Itinerary>, more: seq<Itinerary>)
    ensures Classified(itineraries + more) == Classified(itineraries) + Classified(more)
    decreases |more|
  {
    if more == [] {
      assert itineraries + more == itineraries;
    } else {
      hide Classify;
      var n := |more| - 1;
      assert (itineraries + more)[..|itineraries + more| - 1] == itineraries + more[..n];
      ClassifiedInOrder(itineraries, more[..n]);
    }
  }

  predicate AnyRouted(results: seq<QueryResult>) {
    exists r | r in results :: r.Routed?
  }

  /** One more result. */
  lemma NextResult(results: seq<QueryResult>, i: nat)
    requires i < |results|
    ensures var before, after, result := results[..i], results[..i + 1], results[i];
            && (OtherException in after <==> OtherException in before || result == OtherException)
            && (AnyRouted(after) <==> AnyRouted(before) || result.Routed?)
            && Pooled(after) == Pooled(before) + if result.Routed? then Classified(result.itineraries) else []
  {
    hide Classified;
    assert results[..i + 1][..i] == results[..i];
    assert results[..i + 1] == results[..i] + [results[i]];
  }

  lemma NoResults()
    ensures !AnyRouted([]) && Pooled([]) == []
  {}

  lemma AllFailed(results: seq<QueryResult>)
    requires OtherException !in results
    ensures !AnyRouted(results) <==> forall r | r in results :: r.OtpFailed?
  {}

  lemma NotAllFailed(results: seq<QueryResult>, i: nat)
    requires i < |results| && results[i] == OtherException
    ensures OtherException in results && exists r | r in results :: !r.OtpFailed?
  {}

  /**
   The results in query order: planner failures are skipped, any other exception is raised, and
   only when every query failed is that an error too. The fallback runs when there are
   candidates but none by bike.
   */
  method GatherCandidates(results: seq<QueryResult>, otp: Snap.Otp, trip: Snap.Trip)
    returns (gathered: Result<seq<Candidate>, GatherError>)
    requires otp.asked == []
    modifies otp
    ensures gathered == Failure(Unexpected) <==> OtherException in results
    ensures gathered == Failure(AllQueriesFailed) <==> forall r | r in results :: r.OtpFailed?
    ensures gathered.Success? ==>
              var pooled := Pooled(results);
              if (exists c :: c in pooled && c.kind == Bike) || pooled == [] then
                gathered.value == pooled && otp.asked == []
              else
                && (forall at: nat | Snap.IsFirst(otp.world, trip, at) ::
                      gathered.value == pooled + [Candidate(Bike, Snap.Replan(otp.world, trip, at).value)])
                && ((forall at: nat :: !Snap.IsFirst(otp.world, trip, at)) ==> gathered.value == pooled)
  {
    hide Pooled, Classified, AnyRouted;
    var anyPlan := false;
    var candidates: seq<Candidate> := [];
    assert !AnyRouted([]) && Pooled([]) == [] by { NoResults(); }
    for i := 0 to |results|
      invariant otp.asked == []
      invariant OtherException !in results[..i]
      invariant anyPlan <==> AnyRouted(results[..i])
      invariant candidates == Pooled(results[..i])
    {
      NextResult(results, i);
      match results[i]
      case OtpFailed =>
      case OtherException =>
        NotAllFailed(results, i);
        return Failure(Unexpected);
      case Routed(itineraries) =>
        anyPlan := true;
        candidates := candidates + Classified(itineraries);
    }
    assert results[..|results|] == results;
    AllFailed(results);
    if !anyPlan {
      return Failure(AllQueriesFailed);
    }
    if !HasBike(candidates) && candidates != [] {
      var snapped, at := Snap.BikeWithSnapping(otp, trip);
      if snapped.Some? {
        OnlyFirst(otp.world, trip, at);
        candidates := candidates + [Candidate(Bike, snapped.value)];
      } else {
        NoFirst(otp.world, trip);
      }
    }
    gathered := Success(candidates);
  }

  lemma OnlyFirst(world: Snap.Ask -> Snap.Answer, trip: Snap.Trip, at: nat)
    requires Snap.IsFirst(world, trip, at)
    ensures forall k: nat | Snap.IsFirst(world, trip, k) :: k == at
  {
    forall k: nat | Snap.IsFirst(world, trip, k)
      ensures k == at
    {
      Snap.FirstIsUnique(world, trip, k, at);
    }
  }

  lemma NoFirst(world: Snap.Ask -> Snap.Answer, trip: Snap.Trip)
    requires forall k: nat | k < 24 :: !Snap.RoutesAt(world, trip, k)
    ensures forall k: nat :: !Snap.IsFirst(world, trip, k)
  {
    forall k: nat
      ensures !Snap.IsFirst(world, trip, k)
    {
      Snap.WorksIs(world, trip, k);
    }
  }

  /**
   Every candidate the planner hands on is labelled with its own classification, so a bike
   candidate always is a bike trip, also when the fallback found it.
   */
  lemma CandidatesAreClassified(results: seq<QueryResult>, world: Snap.Ask -> Snap.Answer, trip: Snap.Trip, at: nat,
      c: Candidate)
    requires
      || c in Pooled(results)
      || (Snap.IsFirst(world, trip, at) && c == Candidate(Bike, Snap.Replan(world, trip, at).value))
    ensures Classify(c.itinerary) == Some(c.kind)
  {
    PooledMembers(results);
  }
}
