/**
 The pedestrian-deck fallback: probing rings of points around a stuck endpoint, many at a time,
 and re-planning the first one that routes. Its deadline is not modelled.
 */
module Snap {
  import opened Wrappers
  import opened Scoring
  import opened CostFormula

  type Point = (real, real)

  /** The inner ring's eight offsets, then the outer ring's four, in order of preference. */
  const OFFSETS: seq<Point> := [
    (0.002, 0.0), (0.0, 0.0022), (-0.002, 0.0), (0.0, -0.0022),
    (0.002, 0.0022), (-0.002, 0.0022), (0.002, -0.0022), (-0.002, -0.0022),
    (0.004, 0.0), (0.0, 0.0044), (-0.004, 0.0), (0.0, -0.0044)]

  const INNER: nat := 8
  const PLACES: nat := 12

  datatype Answer = OtpError | Plan(itineraries: seq<Itinerary>)

  /**
   One query of the search, for the `k`-th pair of endpoints it may try: first the destination
   is moved, then the origin. Naming the query by `k` lets an unsteady planner answer two
   queries differently even where their coordinates agree.
   */
  datatype Ask = Ask(k: nat, from: Point, to: Point, slim: bool)

  datatype Trip = Trip(origin: Point, to: Point)

  function Moved(p: Point, offset: Point): Point { (p.0 + offset.0, p.1 + offset.1) }

  function AskOf(trip: Trip, k: nat, slim: bool): Ask
    requires k < 2 * PLACES
  {
    if k < PLACES then Ask(k, trip.origin, Moved(trip.to, OFFSETS[k]), slim)
    else Ask(k, Moved(trip.origin, OFFSETS[k - PLACES]), trip.to, slim)
  }

  predicate IsBike(itinerary: Itinerary) { Classify(itinerary) == Some(Bike) }

  function FirstBike(itineraries: seq<Itinerary>): (bike: Option<Itinerary>)
    ensures bike.Some? ==>
              exists k :: 0 <= k < |itineraries| && itineraries[k] == bike.value && IsBike(itineraries[k])
                && forall j | 0 <= j < k :: !IsBike(itineraries[j])
    ensures bike.None? ==> forall i | i in itineraries :: !IsBike(i)
  {
    if itineraries == [] then None
    else if IsBike(itineraries[0]) then Some(itineraries[0])
    else
      assert forall k | 0 < k < |itineraries| :: itineraries[k] == itineraries[1..][k - 1];
      FirstBike(itineraries[1..])
  }

  function BikeIn(answer: Answer): Option<Itinerary> {
    match answer
    case OtpError => None
    case Plan(itineraries) => FirstBike(itineraries)
  }

  /** The planner as one run of the search meets it: what it answers to each query, whenever asked. */
  class Otp {
    const world: Ask -> Answer
    var asked: seq<Ask>

    constructor (world: Ask -> Answer)
      ensures this.world == world && asked == []
    {
      this.world := world;
      asked := [];
    }

    /** One query, sent once: a failed one and one without a bike trip both come to nothing. */
    method Bike(ask: Ask) returns (itinerary: Option<Itinerary>)
      modifies this
      ensures asked == old(asked) + [ask] && itinerary == BikeIn(world(ask))
      ensures itinerary.Some? <==> world(ask).Plan? && exists i :: i in world(ask).itineraries && IsBike(i)
      ensures itinerary.Some? ==> IsBike(itinerary.value)
    {
      asked := asked + [ask];
      itinerary := BikeIn(world(ask));
    }
  }

  // ---------------------------------------------------------------------------------------
  // What the search must find
  // ---------------------------------------------------------------------------------------

  function Probe(world: Ask -> Answer, trip: Trip, k: nat): Option<Itinerary>
    requires k < 2 * PLACES
  {
    BikeIn(world(AskOf(trip, k, true)))
  }

  function Replan(world: Ask -> Answer, trip: Trip, k: nat): Option<Itinerary>
    requires k < 2 * PLACES
  {
    BikeIn(world(AskOf(trip, k, false)))
  }

  /** Probe and re-plan both find a bike itinerary. */
  predicate Works(world: Ask -> Answer, trip: Trip, k: nat) {
    k < 2 * PLACES && Probe(world, trip, k).Some? && Replan(world, trip, k).Some?
  }

  /** The first pair in order that works. */
  ghost predicate IsFirst(world: Ask -> Answer, trip: Trip, k: nat) {
    Works(world, trip, k) && forall j: nat | j < k :: !Works(world, trip, j)
  }

  /** Where the ring that holds pair `k` ends: rings are probed whole. */
  function RingEnd(k: nat): nat {
    var half := if k < PLACES then 0 else PLACES;
    if k - half < INNER then half + INNER else half + PLACES
  }

  ghost predicate Distinct(asked: seq<Ask>) {
    forall i, j | 0 <= i < j < |asked| :: asked[i] != asked[j]
  }

  /**
   Each pair below `probed` was probed once, but for those still waiting, and each hit below
   `planned` was re-planned once.
   */
  ghost predicate AskedBut(asked: seq<Ask>, world: Ask -> Answer, trip: Trip, probed: nat, waiting: set<nat>,
      planned: nat)
    requires probed <= 2 * PLACES && planned <= 2 * PLACES
  {
    && Distinct(asked)
    && (forall a :: a in asked <==>
          || (exists k: nat :: k < probed && k !in waiting && a == AskOf(trip, k, true))
          || (exists k: nat :: k < planned && Probe(world, trip, k).Some? && a == AskOf(trip, k, false)))
  }

  /** The queries of a search that has probed the pairs below `probed` and re-planned below `planned`. */
  ghost predicate AskedExactly(asked: seq<Ask>, world: Ask -> Answer, trip: Trip, probed: nat, planned: nat)
    requires probed <= 2 * PLACES && planned <= 2 * PLACES
  {
    AskedBut(asked, world, trip, probed, {}, planned)
  }

  // ---------------------------------------------------------------------------------------
  // The search
  // ---------------------------------------------------------------------------------------

  function Range(first: nat, end: nat): (range: set<nat>)
    ensures forall k :: k in range <==> first <= k < end
    decreases end - first
  {
    if first >= end then {} else {first} + Range(first + 1, end)
  }

  /** Probe a ring: the queries are under way together and come back in any order. */
  method ProbeRing(otp: Otp, trip: Trip, first: nat, end: nat) returns (hits: seq<Option<Itinerary>>)
    requires first <= end <= 2 * PLACES && AskedExactly(otp.asked, otp.world, trip, first, first)
    modifies otp
    ensures |hits| == end - first && forall i | 0 <= i < |hits| :: hits[i] == Probe(otp.world, trip, first + i)
    ensures AskedExactly(otp.asked, otp.world, trip, end, first)
  {
    hide *;
    var answers := new Option<Itinerary>[end - first](_ => None);
    var waiting := Range(first, end);
    RingStarts(otp.asked, otp.world, trip, first, end, waiting);
    while waiting != {}
      invariant forall k | k in waiting :: first <= k < end
      invariant forall i | 0 <= i < end - first && first + i !in waiting ::
                  answers[i] == Probe(otp.world, trip, first + i)
      invariant AskedBut(otp.asked, otp.world, trip, end, waiting, first)
    {
      var k: nat :| k in waiting;
      AskedProbe(otp.asked, otp.world, trip, end, waiting, first, k);
      ProbeIs(otp.world, trip, k);
      answers[k - first] := otp.Bike(AskOf(trip, k, true));
      waiting := waiting - {k};
    }
    RingEnds(otp.asked, otp.world, trip, first, end);
    hits := answers[..];
  }

  lemma ProbeIs(world: Ask -> Answer, trip: Trip, k: nat)
    requires k < 2 * PLACES
    ensures Probe(world, trip, k) == BikeIn(world(AskOf(trip, k, true)))
  {}

  lemma RingEnds(asked: seq<Ask>, world: Ask -> Answer, trip: Trip, first: nat, end: nat)
    requires first <= end <= 2 * PLACES && AskedBut(asked, world, trip, end, {}, first)
    ensures AskedExactly(asked, world, trip, end, first)
  {}

  lemma RingStarts(asked: seq<Ask>, world: Ask -> Answer, trip: Trip, first: nat, end: nat, ring: set<nat>)
    requires first <= end <= 2 * PLACES && AskedExactly(asked, world, trip, first, first)
    requires forall k :: k in ring <==> first <= k < end
    ensures AskedBut(asked, world, trip, end, ring, first)
  {}

  lemma AskedProbe(asked: seq<Ask>, world: Ask -> Answer, trip: Trip, end: nat, waiting: set<nat>, planned: nat, k: nat)
    requires end <= 2 * PLACES && planned <= 2 * PLACES && k < end && k in waiting
    requires AskedBut(asked, world, trip, end, waiting, planned)
    ensures AskedBut(asked + [AskOf(trip, k, true)], world, trip, end, waiting - {k}, planned)
  {
    assert AskOf(trip, k, true) !in asked;
  }

  /** One ring: probe it whole, then re-plan its hits in order until one holds. */
  method SnapRing(otp: Otp, trip: Trip, first: nat, end: nat) returns (found: Option<Itinerary>, ghost at: nat)
    requires first < end <= 2 * PLACES && AskedExactly(otp.asked, otp.world, trip, first, first)
    modifies otp
    ensures match found
      case Some(itinerary) =>
        && first <= at < end && Works(otp.world, trip, at) && Some(itinerary) == Replan(otp.world, trip, at)
        && (forall k: nat | first <= k < at :: !Works(otp.world, trip, k))
        && AskedExactly(otp.asked, otp.world, trip, end, at + 1)
      case None =>
        && (forall k: nat | first <= k < end :: !Works(otp.world, trip, k))
        && AskedExactly(otp.asked, otp.world, trip, end, end)
  {
    hide AskedExactly, Probe, Replan, Works;
    at := first;
    var hits := ProbeRing(otp, trip, first, end);
    for k := first to end
      invariant AskedExactly(otp.asked, otp.world, trip, end, k)
      invariant forall j: nat | first <= j < k :: !Works(otp.world, trip, j)
    {
      if hits[k - first].Some? {
        ghost var before := otp.asked;
        found := otp.Bike(AskOf(trip, k, false));
        AskedReplan(before, otp.world, trip, end, k);
        ReplanIs(otp.world, trip, k);
        if found.Some? {
          at := k;
          return;
        }
      } else {
        AskedNothing(otp.asked, otp.world, trip, end, k);
        NoHit(otp.world, trip, k);
      }
    }
    found := None;
  }

  lemma ReplanIs(world: Ask -> Answer, trip: Trip, k: nat)
    requires k < 2 * PLACES && Probe(world, trip, k).Some?
    ensures Replan(world, trip, k) == BikeIn(world(AskOf(trip, k, false)))
    ensures Works(world, trip, k) <==> Replan(world, trip, k).Some?
  {}

  lemma NoHit(world: Ask -> Answer, trip: Trip, k: nat)
    requires k < 2 * PLACES && Probe(world, trip, k).None?
    ensures !Works(world, trip, k)
  {}

  lemma DistinctAppend(asked: seq<Ask>, ask: Ask)
    requires Distinct(asked) && ask !in asked
    ensures Distinct(asked + [ask])
  {}

  lemma AskedReplan(asked: seq<Ask>, world: Ask -> Answer, trip: Trip, probed: nat, k: nat)
    requires probed <= 2 * PLACES && k < 2 * PLACES && AskedExactly(asked, world, trip, probed, k)
    requires Probe(world, trip, k).Some?
    ensures AskedExactly(asked + [AskOf(trip, k, false)], world, trip, probed, k + 1)
  {
    var ask := AskOf(trip, k, false);
    assert ask !in asked;
    DistinctAppend(asked, ask);
    hide Distinct, Probe;
    forall a
      ensures a in asked + [ask] <==>
                || (exists j: nat :: j < probed && a == AskOf(trip, j, true))
                || (exists j: nat :: j < k + 1 && Probe(world, trip, j).Some? && a == AskOf(trip, j, false))
    {
      assert a in asked + [ask] <==> a in asked || a == ask;
    }
  }

  lemma AskedNothing(asked: seq<Ask>, world: Ask -> Answer, trip: Trip, probed: nat, k: nat)
    requires probed <= 2 * PLACES && k < 2 * PLACES && AskedExactly(asked, world, trip, probed, k)
    requires Probe(world, trip, k).None?
    ensures AskedExactly(asked, world, trip, probed, k + 1)
  {}

  /** Both rings around one endpoint, whose pairs are numbered from `base`. */
  method SnapOneEndpoint(otp: Otp, trip: Trip, base: nat) returns (found: Option<Itinerary>, ghost at: nat)
    requires base == 0 || base == PLACES
    requires AskedExactly(otp.asked, otp.world, trip, base, base)
    modifies otp
    ensures match found
      case Some(itinerary) =>
        && base <= at < base + PLACES && Works(otp.world, trip, at) && Some(itinerary) == Replan(otp.world, trip, at)
        && (forall k: nat | base <= k < at :: !Works(otp.world, trip, k))
        && AskedExactly(otp.asked, otp.world, trip, RingEnd(at), at + 1)
      case None =>
        && (forall k: nat | base <= k < base + PLACES :: !Works(otp.world, trip, k))
        && AskedExactly(otp.asked, otp.world, trip, base + PLACES, base + PLACES)
  {
    hide AskedExactly;
    at := base;
    var starts := [0, INNER, PLACES];
    for ring := 0 to 2
      invariant AskedExactly(otp.asked, otp.world, trip, base + starts[ring], base + starts[ring])
      invariant forall k: nat | base <= k < base + starts[ring] :: !Works(otp.world, trip, k)
    {
      found, at := SnapRing(otp, trip, base + starts[ring], base + starts[ring + 1]);
      if found.Some? {
        assert RingEnd(at) == base + starts[ring + 1];
        return;
      }
    }
    found := None;
  }

  /** The whole fallback: first the destination is moved, then the origin. */
  method BikeWithSnapping(otp: Otp, trip: Trip) returns (found: Option<Itinerary>, ghost at: nat)
    requires otp.asked == []
    modifies otp
    ensures found.None? <==> forall k: nat | k < 24 :: !RoutesAt(otp.world, trip, k)
    ensures found.Some? ==>
              && IsFirst(otp.world, trip, at) && found == Replan(otp.world, trip, at)
              && RoutesAt(otp.world, trip, at) && (forall j: nat | j < at :: !RoutesAt(otp.world, trip, j))
              && IsFirstBikeTrip(otp.world(QueryAt(trip, at, false)), found.value)
              && AskedExactly(otp.asked, otp.world, trip,
                              if at < 8 then 8 else if at < 12 then 12 else if at < 20 then 20 else 24, at + 1)
    ensures found.None? ==> AskedExactly(otp.asked, otp.world, trip, 24, 24)
  {
    assert AskedExactly([], otp.world, trip, 0, 0);
    hide AskedExactly, RoutesAt, IsFirstBikeTrip, QueryAt, Replan, Works;
    found, at := SnapOneEndpoint(otp, trip, 0);
    if found.None? {
      found, at := SnapOneEndpoint(otp, trip, PLACES);
    }
    forall k: nat
      ensures RoutesAt(otp.world, trip, k) <==> Works(otp.world, trip, k)
    {
      WorksIs(otp.world, trip, k);
    }
    if found.Some? { ReplanIsFirstBikeTrip(otp.world, trip, at); }
  }

  // ---------------------------------------------------------------------------------------
  // The search in coordinates
  // ---------------------------------------------------------------------------------------

  /** The `k`-th place around a point, in degrees of latitude and longitude. */
  function PlaceAround(p: Point, k: nat): Point
    requires k < 12
  {
    var d: Point := [
      (0.002, 0.0), (0.0, 0.0022), (-0.002, 0.0), (0.0, -0.0022),
      (0.002, 0.0022), (-0.002, 0.0022), (0.002, -0.0022), (-0.002, -0.0022),
      (0.004, 0.0), (0.0, 0.0044), (-0.004, 0.0), (0.0, -0.0044)][k];
    (p.0 + d.0, p.1 + d.1)
  }

  /** First the true origin and twelve places around the destination, then the other way round. */
  function QueryAt(trip: Trip, k: nat, slim: bool): Ask
    requires k < 24
  {
    if k < 12 then Ask(k, trip.origin, PlaceAround(trip.to, k), slim)
    else Ask(k, PlaceAround(trip.origin, k - 12), trip.to, slim)
  }

  /** A bicycle is ridden, and nothing else but a ferry. */
  ghost predicate BikeTrip(itinerary: Itinerary) { Cycled(itinerary.legs) && !RidesTransit(itinerary.legs) }

  ghost predicate OffersBike(answer: Answer) {
    answer.Plan? && exists i :: i in answer.itineraries && BikeTrip(i)
  }

  ghost predicate IsFirstBikeTrip(answer: Answer, itinerary: Itinerary) {
    && answer.Plan?
    && exists k :: 0 <= k < |answer.itineraries| && answer.itineraries[k] == itinerary && BikeTrip(itinerary)
         && forall j | 0 <= j < k :: !BikeTrip(answer.itineraries[j])
  }

  /** The probe for the pair and its re-plan both come back with a bike trip. */
  ghost predicate RoutesAt(world: Ask -> Answer, trip: Trip, k: nat) {
    k < 24 && OffersBike(world(QueryAt(trip, k, true))) && OffersBike(world(QueryAt(trip, k, false)))
  }

  lemma QueryIs(trip: Trip, k: nat, slim: bool)
    requires k < 24
    ensures AskOf(trip, k, slim) == QueryAt(trip, k, slim)
  {}

  lemma BikeTripIs(itinerary: Itinerary)
    ensures IsBike(itinerary) <==> BikeTrip(itinerary)
  {
    KindOfModes(itinerary);
    hide Cycled, RidesTransit, Ferried, Classify;
  }

  lemma BikeInIs(answer: Answer)
    ensures BikeIn(answer).Some? <==> OffersBike(answer)
    ensures BikeIn(answer).Some? ==> IsFirstBikeTrip(answer, BikeIn(answer).value)
  {
    hide IsBike, BikeTrip;
    forall i: Itinerary
      ensures IsBike(i) <==> BikeTrip(i)
    {
      BikeTripIs(i);
    }
    if answer.Plan? {
      var bike := FirstBike(answer.itineraries);
      hide FirstBike;
      assert BikeIn(answer) == bike;
    }
  }

  lemma WorksIs(world: Ask -> Answer, trip: Trip, k: nat)
    ensures Works(world, trip, k) <==> RoutesAt(world, trip, k)
  {
    hide QueryAt, AskOf, BikeIn, OffersBike;
    if k < 24 {
      QueryIs(trip, k, true);
      QueryIs(trip, k, false);
      BikeInIs(world(QueryAt(trip, k, true)));
      BikeInIs(world(QueryAt(trip, k, false)));
    }
  }

  lemma ReplanIsFirstBikeTrip(world: Ask -> Answer, trip: Trip, k: nat)
    requires Works(world, trip, k)
    ensures k < 24 && Replan(world, trip, k).Some?
    ensures IsFirstBikeTrip(world(QueryAt(trip, k, false)), Replan(world, trip, k).value)
  {
    hide QueryAt, AskOf, BikeIn, IsFirstBikeTrip;
    QueryIs(trip, k, false);
    BikeInIs(world(QueryAt(trip, k, false)));
  }

  /** The eight places tried first are nearer, in degrees, than the four tried after them. */
  lemma NearerFirst(p: Point, k: nat, j: nat)
    requires k < 8 <= j < 12
    ensures var near, far := PlaceAround(p, k), PlaceAround(p, j);
            (near.0 - p.0) * (near.0 - p.0) + (near.1 - p.1) * (near.1 - p.1)
            < (far.0 - p.0) * (far.0 - p.0) + (far.1 - p.1) * (far.1 - p.1)
  {
    var near, far := PlaceAround((0.0, 0.0), k), PlaceAround((0.0, 0.0), j);
    assert PlaceAround(p, k).0 - p.0 == near.0 && PlaceAround(p, k).1 - p.1 == near.1;
    assert PlaceAround(p, j).0 - p.0 == far.0 && PlaceAround(p, j).1 - p.1 == far.1;
    hide PlaceAround;
    Inner(k);
    Outer(j);
  }

  lemma Inner(k: nat)
    requires k < 8
    ensures var d := PlaceAround((0.0, 0.0), k); d.0 * d.0 + d.1 * d.1 < 0.00001
  {}

  lemma Outer(j: nat)
    requires 8 <= j < 12
    ensures var d := PlaceAround((0.0, 0.0), j); d.0 * d.0 + d.1 * d.1 > 0.00001
  {}

  /**
   The true origin is kept as long as anything can be reached from it: when some ride from it to a
   place around the destination is offered by probe and re-plan, so is the ride that is returned,
   and no ride from a moved origin is ever asked for.
   */
  lemma TrueOriginFirst(asked: seq<Ask>, world: Ask -> Answer, trip: Trip, at: nat, end: nat)
    requires RoutesAt(world, trip, at) && forall j: nat | j < at :: !RoutesAt(world, trip, j)
    requires end == (if at < 8 then 8 else if at < 12 then 12 else if at < 20 then 20 else 24)
    requires AskedExactly(asked, world, trip, end, at + 1)
    requires exists k: nat :: k < 12 && RoutesAt(world, trip, k)
    ensures at < 12 && QueryAt(trip, at, false) == Ask(at, trip.origin, PlaceAround(trip.to, at), false)
    ensures forall a | a in asked :: a.from == trip.origin
  {
    hide RoutesAt, PlaceAround;
    assert at < 12 by {
      var k: nat :| k < 12 && RoutesAt(world, trip, k);
    }
    forall a | a in asked
      ensures a.from == trip.origin
    {
      AskedIsAbout(asked, world, trip, end, at + 1, a.slim, a);
      QueryIs(trip, a.k, a.slim);
    }
  }

  // ---------------------------------------------------------------------------------------
  // Its cost
  // ---------------------------------------------------------------------------------------

  function Slim(asked: seq<Ask>, slim: bool): seq<Ask> {
    if asked == [] then []
    else
      var n := |asked| - 1;
      Slim(asked[..n], slim) + if asked[n].slim == slim then [asked[n]] else []
  }

  lemma {:induction false} SlimKeepsDistinct(asked: seq<Ask>, slim: bool)
    requires Distinct(asked)
    ensures Distinct(Slim(asked, slim))
    ensures forall a :: a in Slim(asked, slim) <==> a in asked && a.slim == slim
    decreases |asked|
  {
    if asked != [] {
      var n := |asked| - 1;
      assert asked == asked[..n] + [asked[n]];
      SlimKeepsDistinct(asked[..n], slim);
    }
  }

  /** All the queries are about the first `n` pairs and of one sort. */
  ghost predicate AboutFirst(asked: seq<Ask>, trip: Trip, slim: bool, n: nat)
    requires n <= 2 * PLACES
  {
    forall i | 0 <= i < |asked| :: asked[i].k < n && asked[i] == AskOf(trip, asked[i].k, slim)
  }

  lemma WithoutLast(asked: seq<Ask>, trip: Trip, slim: bool, n: nat, i: nat)
    requires 0 < n <= 2 * PLACES && Distinct(asked) && AboutFirst(asked, trip, slim, n)
    requires i < |asked| && asked[i].k == n - 1
    ensures Distinct(asked[..i] + asked[i + 1..]) && AboutFirst(asked[..i] + asked[i + 1..], trip, slim, n - 1)
  {
    var rest := asked[..i] + asked[i + 1..];
    forall j | 0 <= j < |rest|
      ensures rest[j] == asked[if j < i then j else j + 1] && rest[j].k < n - 1
    {
      assert asked[if j < i then j else j + 1] != asked[i];
    }
  }

  lemma NoneAboutNone(asked: seq<Ask>, trip: Trip, slim: bool)
    requires AboutFirst(asked, trip, slim, 0)
    ensures asked == []
  {
    assert |asked| > 0 ==> asked[0].k < 0;
  }

  /** Distinct queries about the first `n` pairs, all of one sort, are at most `n`. */
  lemma {:induction false} AtMostOnePerPair(asked: seq<Ask>, trip: Trip, slim: bool, n: nat)
    requires n <= 2 * PLACES && Distinct(asked) && AboutFirst(asked, trip, slim, n)
    ensures |asked| <= n
    decreases n
  {
    if n == 0 {
      NoneAboutNone(asked, trip, slim);
    } else if i :| 0 <= i < |asked| && asked[i].k == n - 1 {
      WithoutLast(asked, trip, slim, n, i);
      hide AboutFirst, Distinct;
      AtMostOnePerPair(asked[..i] + asked[i + 1..], trip, slim, n - 1);
    } else {
      AtMostOnePerPair(asked, trip, slim, n - 1);
    }
  }

  lemma AskedIsAbout(asked: seq<Ask>, world: Ask -> Answer, trip: Trip, probed: nat, planned: nat, slim: bool, a: Ask)
    requires probed <= 2 * PLACES && planned <= 2 * PLACES && AskedExactly(asked, world, trip, probed, planned)
    requires a in asked && a.slim == slim
    ensures a.k < (if slim then probed else planned) && a == AskOf(trip, a.k, slim)
  {}

  lemma SlimIsAbout(asked: seq<Ask>, world: Ask -> Answer, trip: Trip, probed: nat, planned: nat, slim: bool)
    requires probed <= 2 * PLACES && planned <= 2 * PLACES && AskedExactly(asked, world, trip, probed, planned)
    ensures Distinct(Slim(asked, slim)) && AboutFirst(Slim(asked, slim), trip, slim, if slim then probed else planned)
  {
    assert Distinct(asked);
    SlimKeepsDistinct(asked, slim);
    var some := Slim(asked, slim);
    hide Slim, AskedExactly, Distinct;
    forall i | 0 <= i < |some|
      ensures some[i].k < (if slim then probed else planned) && some[i] == AskOf(trip, some[i].k, slim)
    {
      assert some[i] in some;
      AskedIsAbout(asked, world, trip, probed, planned, slim, some[i]);
    }
  }

  /** A search sends at most one probe and one re-plan per pair: 24 of each. */
  lemma SearchIsBounded(asked: seq<Ask>, world: Ask -> Answer, trip: Trip, probed: nat, planned: nat)
    requires probed <= 2 * PLACES && planned <= 2 * PLACES && AskedExactly(asked, world, trip, probed, planned)
    ensures |Slim(asked, true)| <= probed <= 24 && |Slim(asked, false)| <= planned <= 24
  {
    hide Slim, AskedExactly, Distinct, AboutFirst;
    SlimIsAbout(asked, world, trip, probed, planned, true);
    SlimIsAbout(asked, world, trip, probed, planned, false);
    AtMostOnePerPair(Slim(asked, true), trip, true, probed);
    AtMostOnePerPair(Slim(asked, false), trip, false, planned);
  }

  /** At most one pair is first, so what the search returns does not depend on who answers first. */
  lemma FirstIsUnique(world: Ask -> Answer, trip: Trip, k: nat, j: nat)
    requires IsFirst(world, trip, k) && IsFirst(world, trip, j)
    ensures k == j
  {}
}
