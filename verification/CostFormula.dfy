/**
 The cost of a candidate and of its wait, written out as counts, highest slots and first bands,
 apart from the functions that compute them; and what that cost means for bike against transit.
 */
module CostFormula {
  import opened Wrappers
  import opened Scoring
  import opened Ranking

  // ---------------------------------------------------------------------------------------
  // Rounding
  // ---------------------------------------------------------------------------------------

  /** `n` is the whole number nearest to `x`, the even one of two. */
  predicate Nearest(x: real, n: int) {
    -0.5 <= x - n as real <= 0.5 && ((x - n as real == 0.5 || x - n as real == -0.5) ==> n % 2 == 0)
  }

  /** `y` is the number with four decimals nearest to `x`. */
  predicate Nearest4(x: real, y: real) {
    (y * 10000.0).Floor as real == y * 10000.0 && Nearest(x * 10000.0, (y * 10000.0).Floor)
  }

  lemma RoundIsNearest(x: real)
    ensures Nearest(x, Round(x))
  {}

  lemma Round4IsNearest(x: real)
    ensures Nearest4(x, Round4(x))
  {
    var scaled := x * 10000.0;
    RoundIsNearest(scaled);
    FourDecimals(Round(scaled));
    hide Round, Nearest;
  }

  lemma FourDecimals(n: int)
    ensures (n as real / 10000.0) * 10000.0 == n as real
  {}

  /** Two roundings are at most as far apart as the numbers and one unit of the fourth decimal. */
  lemma NearestIsNear(x: real, y: real)
    requires Nearest4(x, y)
    ensures -0.00005 <= x - y <= 0.00005
  {}

  // ---------------------------------------------------------------------------------------
  // Kinds
  // ---------------------------------------------------------------------------------------

  ghost predicate Cycled(legs: seq<Leg>) { exists i :: 0 <= i < |legs| && legs[i].mode == "BICYCLE" }

  /** Some leg rides a vehicle that is no ferry. */
  ghost predicate RidesTransit(legs: seq<Leg>) {
    exists i :: 0 <= i < |legs| && legs[i].mode !in ["BICYCLE", "WALK", "FERRY"]
  }

  ghost predicate Ferried(legs: seq<Leg>) { exists i :: 0 <= i < |legs| && legs[i].mode == "FERRY" }

  /**
   Every mix of modes has its kind. A cycled trip is a bike trip as long as it rides nothing but a
   ferry, and bike-and-ride otherwise; a trip not cycled is transit when it rides anything, a ferry
   included; one that is only walked has no kind.
   */
  lemma KindOfModes(itinerary: Itinerary)
    ensures var legs := itinerary.legs;
            Classify(itinerary)
            == if Cycled(legs) then Some(if RidesTransit(legs) then BikeAndRide else Bike)
               else if RidesTransit(legs) || Ferried(legs) then Some(Transit)
               else None
    ensures Classify(itinerary) == None <==> forall leg | leg in itinerary.legs :: leg.mode == "WALK"
  {
    var legs := itinerary.legs;
    ModesOf(itinerary, "BICYCLE");
    ModesOf(itinerary, "FERRY");
    var ridden := set m | m in Modes(itinerary) && !Exposed(m);
    assert RidesTransit(legs) <==> ridden - {"FERRY"} != {} by {
      if i :| 0 <= i < |legs| && legs[i].mode !in ["BICYCLE", "WALK", "FERRY"] {
        assert legs[i] in legs && legs[i].mode in ridden - {"FERRY"};
      }
      if m :| m in ridden - {"FERRY"} {
        ModesOf(itinerary, m);
      }
    }
    assert Ferried(legs) <==> "FERRY" in ridden;
    assert ridden == {} <==> ridden - {"FERRY"} == {} && "FERRY" !in ridden;
  }

  lemma ModesOf(itinerary: Itinerary, mode: string)
    ensures mode in Modes(itinerary) <==> exists i :: 0 <= i < |itinerary.legs| && itinerary.legs[i].mode == mode
  {
    if mode in Modes(itinerary) {
      var leg :| leg in itinerary.legs && leg.mode == mode;
    }
    if i :| 0 <= i < |itinerary.legs| && itinerary.legs[i].mode == mode {
      assert itinerary.legs[i] in itinerary.legs;
    }
  }

  // ---------------------------------------------------------------------------------------
  // Transfers and bonuses
  // ---------------------------------------------------------------------------------------

  predicate Rides(leg: Leg) { leg.mode != "BICYCLE" && leg.mode != "WALK" }

  /** Leg `i` boards a vehicle, at a known place, after an earlier leg has boarded one. */
  predicate LaterBoarding(legs: seq<Leg>, i: int) {
    0 <= i < |legs| && Rides(legs[i]) && legs[i].from.Some? && exists j :: 0 <= j < i && Rides(legs[j])
  }

  /** The later boardings at hubs, or those elsewhere. */
  function Boardings(city: City, legs: seq<Leg>, atHub: bool): set<int> {
    set i | 0 <= i < |legs| && LaterBoarding(legs, i) && city.nearHub(legs[i].from.value) == atHub
  }

  function TransferPrice(city: City, legs: seq<Leg>, weights: Weights): real {
    |Boardings(city, legs, true)| as real * weights.hubTransferPenalty
    + |Boardings(city, legs, false)| as real * weights.transferPenalty
  }

  /** The first cycled leg ends at a hub. */
  ghost predicate LeavesBikeAtHub(city: City, legs: seq<Leg>) {
    exists i :: 0 <= i < |legs| && legs[i].mode == "BICYCLE" && (forall j | 0 <= j < i :: legs[j].mode != "BICYCLE")
      && legs[i].to.Some? && city.nearHub(legs[i].to.value)
  }

  lemma {:induction false} TransitLegsAre(legs: seq<Leg>)
    ensures TransitLegs(legs) == [] <==> forall j | 0 <= j < |legs| :: !Rides(legs[j])
    decreases |legs|
  {
    if legs != [] { TransitLegsAre(legs[..|legs| - 1]); }
  }

  lemma KnownPointsAppend(legs: seq<Leg>, leg: Leg)
    ensures KnownPoints(legs + [leg]) == KnownPoints(legs) + if leg.from.Some? then [leg.from.value] else []
  {
    assert (legs + [leg])[..|legs|] == legs;
  }

  lemma TransferCostAppend(city: City, points: seq<(real, real)>, point: (real, real), weights: Weights)
    ensures TransferCost(city, points + [point], weights)
         == TransferCost(city, points, weights)
            + if city.nearHub(point) then weights.hubTransferPenalty else weights.transferPenalty
  {
    assert (points + [point])[..|points|] == points;
  }

  /** The transfer points after the last leg. */
  lemma LastTransferPoint(itinerary: Itinerary)
    requires itinerary.legs != []
    ensures var n := |itinerary.legs| - 1;
            TransferPoints(itinerary)
            == TransferPoints(itinerary.(legs := itinerary.legs[..n]))
               + if LaterBoarding(itinerary.legs, n) then [itinerary.legs[n].from.value] else []
  {
    var legs, n := itinerary.legs, |itinerary.legs| - 1;
    var before := TransitLegs(legs[..n]);
    TransitLegsAre(legs[..n]);
    assert LaterBoarding(legs, n) <==> Rides(legs[n]) && legs[n].from.Some? && before != [] by {
      if j :| 0 <= j < n && Rides(legs[j]) { assert Rides(legs[..n][j]); }
    }
    var transit := TransitLegs(legs);
    assert transit == before + if Rides(legs[n]) then [legs[n]] else [];
    hide TransitLegs, LaterBoarding;
    if Rides(legs[n]) {
      if before == [] {
        assert transit[1..] == [];
      } else {
        assert transit[1..] == before[1..] + [legs[n]];
        KnownPointsAppend(before[1..], legs[n]);
      }
    } else {
      assert transit == before;
    }
  }

  lemma LastBoarding(city: City, legs: seq<Leg>, atHub: bool)
    requires legs != []
    ensures var n := |legs| - 1;
            Boardings(city, legs, atHub)
            == Boardings(city, legs[..n], atHub)
               + if LaterBoarding(legs, n) && city.nearHub(legs[n].from.value) == atHub then {n} else {}
  {
    var n := |legs| - 1;
    forall i | 0 <= i < n
      ensures LaterBoarding(legs[..n], i) <==> LaterBoarding(legs, i)
    {
      if j :| 0 <= j < i && Rides(legs[j]) { assert Rides(legs[..n][j]); }
      if j :| 0 <= j < i && Rides(legs[..n][j]) { assert Rides(legs[j]); }
    }
  }

  /** A later boarding adds its own price, any other leg nothing. */
  lemma LastPrice(city: City, legs: seq<Leg>, weights: Weights)
    requires legs != []
    ensures var n := |legs| - 1;
            TransferPrice(city, legs, weights)
            == TransferPrice(city, legs[..n], weights)
               + if !LaterBoarding(legs, n) then 0.0
                 else if city.nearHub(legs[n].from.value) then weights.hubTransferPenalty
                 else weights.transferPenalty
  {
    var n := |legs| - 1;
    var known := LaterBoarding(legs, n);
    BoardingCount(city, legs, true);
    BoardingCount(city, legs, false);
    hide LaterBoarding, Boardings;
    if known {
      OneMore(|Boardings(city, legs[..n], true)|, weights.hubTransferPenalty);
      OneMore(|Boardings(city, legs[..n], false)|, weights.transferPenalty);
    }
  }

  lemma BoardingCount(city: City, legs: seq<Leg>, atHub: bool)
    requires legs != []
    ensures var n := |legs| - 1;
            |Boardings(city, legs, atHub)|
            == |Boardings(city, legs[..n], atHub)|
               + if LaterBoarding(legs, n) && city.nearHub(legs[n].from.value) == atHub then 1 else 0
  {
    LastBoarding(city, legs, atHub);
    hide LaterBoarding;
    assert |legs| - 1 !in Boardings(city, legs[..|legs| - 1], atHub);
  }

  lemma OneMore(n: nat, price: real)
    ensures (n + 1) as real * price == n as real * price + price
  {}

  lemma {:induction false} TransferPriceIs(city: City, itinerary: Itinerary, weights: Weights)
    ensures TransferCost(city, TransferPoints(itinerary), weights) == TransferPrice(city, itinerary.legs, weights)
    decreases |itinerary.legs|
  {
    var legs := itinerary.legs;
    if legs == [] {
      assert Boardings(city, legs, true) == {} && Boardings(city, legs, false) == {};
    } else {
      var n := |legs| - 1;
      var before := itinerary.(legs := legs[..n]);
      TransferPriceIs(city, before, weights);
      LastTransferPoint(itinerary);
      LastPrice(city, legs, weights);
      hide TransferPoints, LaterBoarding, TransferCost, TransferPrice;
      if LaterBoarding(legs, n) {
        TransferCostAppend(city, TransferPoints(before), legs[n].from.value, weights);
      } else {
        assert TransferPoints(itinerary) == TransferPoints(before);
      }
    }
  }

  lemma {:induction false} HandoffIs(city: City, legs: seq<Leg>)
    ensures LeavesBikeAtHub(city, legs) <==> BikeHandoff(legs).Some? && city.nearHub(BikeHandoff(legs).value)
    decreases |legs|
  {
    if legs != [] {
      var rest := legs[1..];
      if legs[0].mode == "BICYCLE" {
        if LeavesBikeAtHub(city, legs) {
          var i :| 0 <= i < |legs| && legs[i].mode == "BICYCLE"
            && (forall j | 0 <= j < i :: legs[j].mode != "BICYCLE")
            && legs[i].to.Some? && city.nearHub(legs[i].to.value);
          assert i == 0;
        }
      } else {
        HandoffIs(city, rest);
        if LeavesBikeAtHub(city, rest) {
          var i :| 0 <= i < |rest| && rest[i].mode == "BICYCLE"
            && (forall j | 0 <= j < i :: rest[j].mode != "BICYCLE")
            && rest[i].to.Some? && city.nearHub(rest[i].to.value);
          assert legs[i + 1] == rest[i];
          assert forall j | 0 < j < i + 1 :: legs[j] == rest[j - 1];
        }
        if LeavesBikeAtHub(city, legs) {
          var i :| 0 <= i < |legs| && legs[i].mode == "BICYCLE"
            && (forall j | 0 <= j < i :: legs[j].mode != "BICYCLE")
            && legs[i].to.Some? && city.nearHub(legs[i].to.value);
          assert rest[i - 1] == legs[i];
          assert forall j | 0 <= j < i - 1 :: rest[j] == legs[j + 1];
        }
      }
    }
  }

  // ---------------------------------------------------------------------------------------
  // Rain
  // ---------------------------------------------------------------------------------------

  /** The local time of day lies between those of the two instants, past midnight if need be. */
  predicate FallsBetween(city: City, time: TimeOfDay, start: int, end: int) {
    var from, to := (start + city.utcOffsetMs) % 86_400_000, (end + city.utcOffsetMs) % 86_400_000;
    if from <= to then from <= time <= to else time >= from || time <= to
  }

  /** The slots, by their places in the forecast, in which the leg meets rain. */
  function WetPlaces(city: City, leg: Leg, slots: seq<RainSlot>, threshold: real): set<int> {
    set k | 0 <= k < |slots|
      && FallsBetween(city, slots[k].time, leg.startTime, leg.endTime) && slots[k].mmPerH >= threshold
  }

  /** The first band that ends above the intensity has this penalty, or the heavy one applies beyond all bands. */
  ghost predicate PenaltyFor(peak: real, bands: seq<Band>, heavy: real, penalty: real) {
    || (penalty == heavy && forall a | 0 <= a < |bands| :: bands[a].bound <= peak)
    || (exists b :: 0 <= b < |bands| && peak < bands[b].bound && penalty == bands[b].penalty
          && forall a | 0 <= a < b :: bands[a].bound <= peak)
  }

  /** Some wet place has the highest intensity of all, and this is its penalty. */
  ghost predicate HighestPenalty(slots: seq<RainSlot>, wet: set<int>, weights: Weights, penalty: real) {
    exists k :: k in wet && 0 <= k < |slots|
      && (forall j | j in wet && 0 <= j < |slots| :: slots[j].mmPerH <= slots[k].mmPerH)
      && PenaltyFor(slots[k].mmPerH, weights.rainBands, weights.heavyPenalty, penalty)
  }

  /**
   The rain minutes of a leg and their price. A leg that is neither cycled nor walked has none; an
   exposed leg has five for every wet slot but no more than it takes, each at the penalty of the
   highest wet slot.
   */
  ghost predicate LegPriced(city: City, leg: Leg, rain: RainForecast, weights: Weights, threshold: real,
      minutes: real, price: real)
  {
    var wet := WetPlaces(city, leg, rain.slots, threshold);
    if Rides(leg) || wet == {} then minutes == 0.0 && price == 0.0
    else
      && minutes == (if leg.duration / 60.0 < 5.0 * |wet| as real then leg.duration / 60.0 else 5.0 * |wet| as real)
      && exists penalty :: HighestPenalty(rain.slots, wet, weights, penalty) && price == minutes * penalty
  }

  lemma {:induction false} PenaltyIsFirstBand(peak: real, bands: seq<Band>, heavy: real)
    ensures PenaltyFor(peak, bands, heavy, BandPenalty(peak, bands, heavy))
    decreases |bands|
  {
    if bands != [] && bands[0].bound <= peak {
      var rest := bands[1..];
      PenaltyIsFirstBand(peak, rest, heavy);
      var penalty := BandPenalty(peak, rest, heavy);
      if b :|
           && 0 <= b < |rest| && peak < rest[b].bound && penalty == rest[b].penalty
           && forall a | 0 <= a < b :: rest[a].bound <= peak
      {
        assert bands[b + 1] == rest[b];
        assert forall a | 0 < a < b + 1 :: bands[a] == rest[a - 1];
      } else {
        assert forall a | 0 < a < |bands| :: bands[a] == rest[a - 1];
      }
    }
  }

  lemma WetIsWet(city: City, leg: Leg, slot: RainSlot, threshold: real)
    ensures IsWet(slot, LocalTime(city, leg.startTime), LocalTime(city, leg.endTime), threshold)
       <==> FallsBetween(city, slot.time, leg.startTime, leg.endTime) && slot.mmPerH >= threshold
  {}

  lemma LastPlace(city: City, leg: Leg, slots: seq<RainSlot>, threshold: real)
    requires slots != []
    ensures var n := |slots| - 1;
            |WetPlaces(city, leg, slots, threshold)|
            == |WetPlaces(city, leg, slots[..n], threshold)|
               + if IsWet(slots[n], LocalTime(city, leg.startTime), LocalTime(city, leg.endTime), threshold) then 1
                 else 0
  {
    var n := |slots| - 1;
    WetIsWet(city, leg, slots[n], threshold);
    hide IsWet, LocalTime, FallsBetween;
    var before := WetPlaces(city, leg, slots[..n], threshold);
    var wet := FallsBetween(city, slots[n].time, leg.startTime, leg.endTime) && slots[n].mmPerH >= threshold;
    assert n !in before;
    assert WetPlaces(city, leg, slots, threshold) == before + if wet then {n} else {};
  }

  lemma NoPlaces(city: City, leg: Leg, threshold: real)
    ensures WetPlaces(city, leg, [], threshold) == {}
  {}

  lemma {:induction false} WetCount(city: City, leg: Leg, slots: seq<RainSlot>, threshold: real)
    ensures |WetSlots(slots, LocalTime(city, leg.startTime), LocalTime(city, leg.endTime), threshold)|
         == |WetPlaces(city, leg, slots, threshold)|
    decreases |slots|
  {
    hide IsWet, LocalTime, WetPlaces;
    if slots == [] {
      NoPlaces(city, leg, threshold);
    } else {
      WetCount(city, leg, slots[..|slots| - 1], threshold);
      LastPlace(city, leg, slots, threshold);
    }
  }

  /** The peak of the wet slots is reached at one of the wet places. */
  lemma PeakPlace(city: City, leg: Leg, slots: seq<RainSlot>, threshold: real) returns (k: int)
    requires WetSlots(slots, LocalTime(city, leg.startTime), LocalTime(city, leg.endTime), threshold) != []
    ensures 0 <= k < |slots| && k in WetPlaces(city, leg, slots, threshold)
    ensures Peak(WetSlots(slots, LocalTime(city, leg.startTime), LocalTime(city, leg.endTime), threshold))
         == slots[k].mmPerH
    ensures forall j | j in WetPlaces(city, leg, slots, threshold) :: slots[j].mmPerH <= slots[k].mmPerH
  {
    var start, end := LocalTime(city, leg.startTime), LocalTime(city, leg.endTime);
    var wet := WetSlots(slots, start, end, threshold);
    WetMembers(slots, start, end, threshold);
    PeakIsMaximum(wet);
    hide IsWet, LocalTime, FallsBetween, Peak, WetSlots;
    var s :| s in wet && s.mmPerH == Peak(wet);
    k :| 0 <= k < |slots| && slots[k] == s;
    WetIsWet(city, leg, slots[k], threshold);
    forall j | j in WetPlaces(city, leg, slots, threshold)
      ensures slots[j].mmPerH <= slots[k].mmPerH
    {
      WetIsWet(city, leg, slots[j], threshold);
      assert slots[j] in wet;
    }
  }

  lemma LegIsPriced(city: City, leg: Leg, rain: RainForecast, weights: Weights, threshold: real)
    ensures var totals := LegTotals(city, leg, rain, weights, threshold);
            LegPriced(city, leg, rain, weights, threshold, totals.0, totals.1)
  {
    var wet := WetSlots(rain.slots, LocalTime(city, leg.startTime), LocalTime(city, leg.endTime), threshold);
    var places := WetPlaces(city, leg, rain.slots, threshold);
    WetCount(city, leg, rain.slots, threshold);
    hide LocalTime, WetSlots, WetPlaces, Peak, BandPenalty, PenaltyFor;
    if Rides(leg) {
    } else if wet == [] {
      DryLeg(city, leg, rain, weights, threshold);
    } else {
      var k := PeakPlace(city, leg, rain.slots, threshold);
      var penalty := RainPenalty(Peak(wet), weights);
      PenaltyIsFirstBand(Peak(wet), weights.rainBands, weights.heavyPenalty);
      assert HighestPenalty(rain.slots, places, weights, penalty);
    }
  }

  // ---------------------------------------------------------------------------------------
  // The whole cost
  // ---------------------------------------------------------------------------------------

  function Sum(xs: seq<real>): real {
    if xs == [] then 0.0 else Sum(xs[..|xs| - 1]) + xs[|xs| - 1]
  }

  /** Each leg's rain minutes and their price; all are zero without a forecast. */
  ghost predicate LegsPriced(city: City, legs: seq<Leg>, rain: Option<RainForecast>, weights: Weights, threshold: real,
      minutes: seq<real>, prices: seq<real>)
  {
    && |minutes| == |legs| && |prices| == |legs|
    && forall i | 0 <= i < |legs| ::
         if rain.None? then minutes[i] == 0.0 && prices[i] == 0.0
         else LegPriced(city, legs[i], rain.value, weights, threshold, minutes[i], prices[i])
  }

  lemma SumAppend(xs: seq<real>, x: real)
    ensures Sum(xs + [x]) == Sum(xs) + x
  {
    assert (xs + [x])[..|xs|] == xs;
  }

  lemma LegsPricedAppend(city: City, legs: seq<Leg>, rain: Option<RainForecast>, weights: Weights, threshold: real,
      minutes: seq<real>, prices: seq<real>, lastMinutes: real, lastPrice: real)
    requires legs != [] && rain.Some?
    requires LegsPriced(city, legs[..|legs| - 1], rain, weights, threshold, minutes, prices)
    requires LegPriced(city, legs[|legs| - 1], rain.value, weights, threshold, lastMinutes, lastPrice)
    ensures LegsPriced(city, legs, rain, weights, threshold, minutes + [lastMinutes], prices + [lastPrice])
  {
    hide LegPriced;
    var n := |legs| - 1;
    assert forall i | 0 <= i < n :: legs[..n][i] == legs[i];
  }

  lemma LastLegPriced(city: City, legs: seq<Leg>, rain: RainForecast, weights: Weights, threshold: real,
      minutes: seq<real>, prices: seq<real>)
    returns (minutes': seq<real>, prices': seq<real>)
    requires legs != [] && LegsPriced(city, legs[..|legs| - 1], Some(rain), weights, threshold, minutes, prices)
    ensures LegsPriced(city, legs, Some(rain), weights, threshold, minutes', prices')
    ensures var last := LegTotals(city, legs[|legs| - 1], rain, weights, threshold);
            Sum(minutes') == Sum(minutes) + last.0 && Sum(prices') == Sum(prices) + last.1
  {
    hide *;
    var n := |legs| - 1;
    var last := LegTotals(city, legs[n], rain, weights, threshold);
    LegIsPriced(city, legs[n], rain, weights, threshold);
    SumAppend(minutes, last.0);
    SumAppend(prices, last.1);
    LegsPricedAppend(city, legs, Some(rain), weights, threshold, minutes, prices, last.0, last.1);
    minutes', prices' := minutes + [last.0], prices + [last.1];
  }

  lemma TotalsStep(city: City, legs: seq<Leg>, rain: RainForecast, weights: Weights, threshold: real)
    requires legs != []
    ensures var before, last := RainTotals(city, legs[..|legs| - 1], rain, weights, threshold),
                                LegTotals(city, legs[|legs| - 1], rain, weights, threshold);
            RainTotals(city, legs, rain, weights, threshold) == (before.0 + last.0, before.1 + last.1)
  {
    hide LegTotals;
  }

  lemma NoLegsPriced(city: City, rain: RainForecast, weights: Weights, threshold: real)
    ensures LegsPriced(city, [], Some(rain), weights, threshold, [], [])
    ensures RainTotals(city, [], rain, weights, threshold) == (0.0, 0.0) && Sum([]) == 0.0
  {}

  lemma {:induction false} TotalsAreSums(city: City, legs: seq<Leg>, rain: RainForecast, weights: Weights,
      threshold: real)
    returns (minutes: seq<real>, prices: seq<real>)
    ensures LegsPriced(city, legs, Some(rain), weights, threshold, minutes, prices)
    ensures RainTotals(city, legs, rain, weights, threshold) == (Sum(minutes), Sum(prices))
    decreases |legs|
  {
    hide *;
    if legs == [] {
      minutes, prices := [], [];
      NoLegsPriced(city, rain, weights, threshold);
    } else {
      minutes, prices := TotalsAreSums(city, legs[..|legs| - 1], rain, weights, threshold);
      TotalsStep(city, legs, rain, weights, threshold);
      minutes, prices := LastLegPriced(city, legs, rain, weights, threshold, minutes, prices);
    }
  }

  lemma {:induction false} Zeros(n: nat)
    ensures Sum(seq(n, _ => 0.0)) == 0.0
    decreases n
  {
    if n > 0 {
      Zeros(n - 1);
      assert seq(n, _ => 0.0)[..n - 1] == seq(n - 1, _ => 0.0);
    }
  }

  lemma NothingPriced(city: City, legs: seq<Leg>, weights: Weights, threshold: real)
    returns (minutes: seq<real>, prices: seq<real>)
    ensures LegsPriced(city, legs, None, weights, threshold, minutes, prices)
    ensures Sum(minutes) == 0.0 && Sum(prices) == 0.0
  {
    minutes, prices := seq(|legs|, _ => 0.0), seq(|legs|, _ => 0.0);
    Zeros(|legs|);
  }

  /**
   The cost, before it is rounded: the minutes, the price of the rain, every later boarding at its
   price, the bias unless the kind is bike, less the bonuses for a ferry and for a bike-and-ride
   trip that leaves the bike at a hub.
   */
  ghost function ExactCost(city: City, c: Candidate, weights: Weights, rainPrice: real): real {
    var legs := c.itinerary.legs;
    c.itinerary.duration / 60.0 + rainPrice
    + |Boardings(city, legs, true)| as real * weights.hubTransferPenalty
    + |Boardings(city, legs, false)| as real * weights.transferPenalty
    + (if c.kind == Bike then 0.0 else weights.transitBias)
    - (if Ferried(legs) then weights.ferryBonus else 0.0)
    - (if c.kind == BikeAndRide && LeavesBikeAtHub(city, legs) then weights.stationAccessBonus else 0.0)
  }

  lemma DryCostIs(city: City, c: Candidate, weights: Weights, rainPrice: real)
    ensures DryCost(city, c, weights) + rainPrice == ExactCost(city, c, weights, rainPrice)
  {
    TransferPriceIs(city, c.itinerary, weights);
    HandoffIs(city, c.itinerary.legs);
    ModesOf(c.itinerary, "FERRY");
    hide LeavesBikeAtHub, BikeHandoff, TransferCost, TransferPoints, Boardings, Modes;
  }

  /** What a score is: the rounded cost and rain minutes of the legs as they are priced one by one. */
  lemma ScoreIs(city: City, c: Candidate, rain: Option<RainForecast>, weights: Weights, threshold: real)
    returns (minutes: seq<real>, prices: seq<real>)
    ensures LegsPriced(city, c.itinerary.legs, rain, weights, threshold, minutes, prices)
    ensures var scored := ScoreOf(city, c, rain, weights, threshold);
            && scored.kind == c.kind && scored.itinerary == c.itinerary
            && Nearest4(ExactCost(city, c, weights, Sum(prices)), scored.cost)
            && Nearest(Sum(minutes), scored.rainMinutes)
  {
    hide *;
    if rain.Some? {
      minutes, prices := TotalsAreSums(city, c.itinerary.legs, rain.value, weights, threshold);
    } else {
      minutes, prices := NothingPriced(city, c.itinerary.legs, weights, threshold);
    }
    DryCostIs(city, c, weights, Sum(prices));
    ScoreParts(city, c, rain, weights, threshold);
    Round4IsNearest(DryCost(city, c, weights) + Sum(prices));
    RoundIsNearest(Sum(minutes));
  }

  lemma ScoreParts(city: City, c: Candidate, rain: Option<RainForecast>, weights: Weights, threshold: real)
    ensures var totals := if rain.None? then (0.0, 0.0)
                          else RainTotals(city, c.itinerary.legs, rain.value, weights, threshold);
            ScoreOf(city, c, rain, weights, threshold)
            == Scored(c.kind, c.itinerary, Round4(DryCost(city, c, weights) + totals.1), Round(totals.0))
  {
    hide DryCost, RainTotals, Round4, Round;
  }

  /** The numbers the service runs with. */
  lemma DefaultsAre(peak: real, penalty: real)
    ensures PenaltyFor(peak, DEFAULT_WEIGHTS.rainBands, DEFAULT_WEIGHTS.heavyPenalty, penalty)
       <==> penalty == if peak < 0.1 then 0.0 else if peak < 0.5 then 0.5 else if peak < 1.5 then 1.5
                       else if peak < 4.0 then 3.0 else 6.0
    ensures DEFAULT_WEIGHTS.transferPenalty == 5.0 && DEFAULT_WEIGHTS.hubTransferPenalty == 2.0
    ensures DEFAULT_WEIGHTS.ferryBonus == 3.0 && DEFAULT_WEIGHTS.stationAccessBonus == 2.0
    ensures DEFAULT_WEIGHTS.transitBias == 10.0
    ensures DEFAULT_WEIGHTS.departDelayFactor == 1.0 && DEFAULT_WEIGHTS.maxDepartWait == 30.0
    ensures DEFAULT_RAIN_THRESHOLD == 0.1
  {
    var bands := DEFAULT_WEIGHTS.rainBands;
    assert bands == [Band(0.1, 0.0), Band(0.5, 0.5), Band(1.5, 1.5), Band(4.0, 3.0)];
    var b := if peak < 0.1 then 0 else if peak < 0.5 then 1 else if peak < 1.5 then 2 else if peak < 4.0 then 3 else 4;
    assert forall a | 0 <= a < b :: bands[a].bound <= peak;
    if b < 4 {
      assert peak < bands[b].bound;
    }
  }

  // ---------------------------------------------------------------------------------------
  // Bike against transit
  // ---------------------------------------------------------------------------------------

  /** As many later boardings at hubs and elsewhere, and a ferry in both or in none. */
  ghost predicate SameExtras(city: City, legs: seq<Leg>, legs': seq<Leg>) {
    && |Boardings(city, legs, true)| == |Boardings(city, legs', true)|
    && |Boardings(city, legs, false)| == |Boardings(city, legs', false)|
    && (Ferried(legs) <==> Ferried(legs'))
  }

  lemma BiasApart(city: City, bike: Candidate, transit: Candidate, weights: Weights)
    requires bike.kind.Bike? && transit.kind.Transit?
    requires SameExtras(city, bike.itinerary.legs, transit.itinerary.legs)
    ensures ExactCost(city, transit, weights, 0.0) - ExactCost(city, bike, weights, 0.0)
         == transit.itinerary.duration / 60.0 + weights.transitBias - bike.itinerary.duration / 60.0
  {
    hide Boardings, Ferried;
  }

  lemma NoRainSum(city: City, legs: seq<Leg>, weights: Weights, threshold: real, minutes: seq<real>, prices: seq<real>)
    requires LegsPriced(city, legs, None, weights, threshold, minutes, prices)
    ensures Sum(minutes) == 0.0 && Sum(prices) == 0.0
  {
    Zeros(|legs|);
    assert minutes == seq(|legs|, _ => 0.0) && prices == seq(|legs|, _ => 0.0);
  }

  lemma DryScoreIs(city: City, c: Candidate, weights: Weights, threshold: real)
    ensures var scored := ScoreOf(city, c, None, weights, threshold);
            && Nearest4(ExactCost(city, c, weights, 0.0), scored.cost) && scored.rainMinutes == 0
            && scored.kind == c.kind && scored.itinerary == c.itinerary
  {
    hide ExactCost, Nearest4, ScoreOf, LegsPriced;
    var minutes, prices := ScoreIs(city, c, None, weights, threshold);
    NoRainSum(city, c.itinerary.legs, weights, threshold, minutes, prices);
  }

  lemma NearestOrder(x: real, y: real, x': real, y': real)
    requires Nearest4(x, y) && Nearest4(x', y')
    ensures x <= x' ==> y <= y'
    ensures x' - x >= 0.0002 ==> y < y'
  {
    if x <= x' { NearestKeepsOrder(x * 10000.0, (y * 10000.0).Floor, x' * 10000.0, (y' * 10000.0).Floor); }
  }

  lemma NearestKeepsOrder(x: real, n: int, x': real, n': int)
    requires Nearest(x, n) && Nearest(x', n') && x <= x'
    ensures n <= n'
  {}

  /**
   Dry weather favours the bike by the bias and no more. Of a bike and a transit trip with the same
   transfers and ferries, transit is never the cheaper one while it saves no more minutes than the
   bias, and ranks first as soon as it saves more (by two ten-thousandths of a minute, for the
   rounding). When it saves exactly the bias the costs are equal, and the shorter trip ranks first:
   that is transit, unless the bias is not positive.
   */
  lemma BikeUnlessTransitSavesMore(city: City, bike: Candidate, transit: Candidate, weights: Weights, threshold: real)
    requires bike.kind.Bike? && transit.kind.Transit?
    requires SameExtras(city, bike.itinerary.legs, transit.itinerary.legs)
    ensures var saved := bike.itinerary.duration / 60.0 - transit.itinerary.duration / 60.0;
            var b, t := ScoreOf(city, bike, None, weights, threshold), ScoreOf(city, transit, None, weights, threshold);
            && (saved <= weights.transitBias ==> b.cost <= t.cost)
            && (saved >= weights.transitBias ==> t.cost <= b.cost)
            && (saved <= weights.transitBias - 0.0002 ==> Before(b, t))
            && (saved >= weights.transitBias + 0.0002 ==> Before(t, b))
            && (saved == weights.transitBias ==> (Before(t, b) <==> weights.transitBias > 0.0))
  {
    BiasApart(city, bike, transit, weights);
    hide ExactCost, SameExtras, ScoreOf, Nearest4;
    DryScoreIs(city, bike, weights, threshold);
    DryScoreIs(city, transit, weights, threshold);
    var x, x' := ExactCost(city, bike, weights, 0.0), ExactCost(city, transit, weights, 0.0);
    var b, t := ScoreOf(city, bike, None, weights, threshold), ScoreOf(city, transit, None, weights, threshold);
    NearestOrder(x, b.cost, x', t.cost);
    NearestOrder(x', t.cost, x, b.cost);
  }

  // ---------------------------------------------------------------------------------------
  // The wait, and the order of the options
  // ---------------------------------------------------------------------------------------

  /** Minutes candidate `i` leaves after the instant. */
  function MinutesAfter(task: Task, i: nat, start: int): real
    requires i < |task.candidates|
  {
    (task.candidates[i].itinerary.startTime - start) as real / 60000.0
  }

  function PlusWait(score: real, minutes: real, factor: real): real { score + minutes * factor }

  /**
   A candidate competes at its score plus the factor for every minute it leaves after the earliest of
   its kind, rounded; it competes at all as long as that is not over the limit.
   */
  lemma WaitIsPriced(task: Task, i: nat, start: int)
    requires i < |task.candidates| && IsEarliest(task.candidates, task.candidates[i].kind, start)
    ensures Eligible(task, i) <==> MinutesAfter(task, i, start) <= task.weights.maxDepartWait
    ensures var scored := ScoreOf(task.city, task.candidates[i], task.rain, task.weights, task.threshold);
            && Nearest4(PlusWait(scored.cost, MinutesAfter(task, i, start), task.weights.departDelayFactor),
                        Competing(task, i).cost)
            && Competing(task, i) == scored.(cost := Competing(task, i).cost)
  {
    hide *;
    DelayIs(task, i, start);
    CompetesDelayed(task, i);
    EligibleBy(task, i);
  }

  lemma EligibleBy(task: Task, i: nat)
    requires i < |task.candidates|
    ensures Eligible(task, i) <==> Delay(task, i) <= task.weights.maxDepartWait
  {}

  lemma CompetesDelayed(task: Task, i: nat)
    requires i < |task.candidates|
    ensures var scored := ScoreOf(task.city, task.candidates[i], task.rain, task.weights, task.threshold);
            && Nearest4(PlusWait(scored.cost, Delay(task, i), task.weights.departDelayFactor), Competing(task, i).cost)
            && Competing(task, i) == scored.(cost := Competing(task, i).cost)
  {
    var scored := ScoreOf(task.city, task.candidates[i], task.rain, task.weights, task.threshold);
    var delay := Delay(task, i);
    var minutes, prices := ScoreIs(task.city, task.candidates[i], task.rain, task.weights, task.threshold);
    RoundedStays(ExactCost(task.city, task.candidates[i], task.weights, Sum(prices)), scored.cost);
    PriceOfWait(scored, delay, task.weights);
    hide ScoreOf, Nearest4, ExactCost, LegsPriced, Delayed, Delay, PlusWait;
  }

  lemma PriceOfWait(scored: Scored, delay: real, weights: Weights)
    ensures Nearest4(PlusWait(scored.cost, delay, weights.departDelayFactor), Delayed(scored, delay, weights).cost)
    ensures Delayed(scored, delay, weights) == scored.(cost := Delayed(scored, delay, weights).cost)
    ensures delay == 0.0 ==> PlusWait(scored.cost, delay, weights.departDelayFactor) == scored.cost
  {
    hide Nearest4, Round4;
    Round4IsNearest(scored.cost + delay * weights.departDelayFactor);
  }

  lemma RoundedStays(x: real, y: real)
    requires Nearest4(x, y)
    ensures Nearest4(y, y)
  {}

  lemma DelayIs(task: Task, i: nat, start: int)
    requires i < |task.candidates| && IsEarliest(task.candidates, task.candidates[i].kind, start)
    ensures Delay(task, i) == MinutesAfter(task, i, start)
  {
    var kind := task.candidates[i].kind;
    assert HasKind(task.candidates, kind) by { assert task.candidates[i] in task.candidates; }
  }

  /**
   Of two trips of a kind that score alike, the later one costs the factor more for every minute it
   leaves later, up to one unit of the fourth decimal.
   */
  lemma LaterCostsMore(task: Task, i: nat, j: nat)
    requires i < |task.candidates| && j < |task.candidates| && task.candidates[i].kind == task.candidates[j].kind
    requires ScoreOf(task.city, task.candidates[i], task.rain, task.weights, task.threshold).cost
          == ScoreOf(task.city, task.candidates[j], task.rain, task.weights, task.threshold).cost
    ensures var later := MinutesAfter(task, j, task.candidates[i].itinerary.startTime);
            var more := Competing(task, j).cost - Competing(task, i).cost;
            later * task.weights.departDelayFactor - 0.0001 <= more <= later * task.weights.departDelayFactor + 0.0001
  {
    hide *;
    var start := EarliestOf(task, i);
    WaitIsPriced(task, i, start);
    WaitIsPriced(task, j, start);
    LaterBy(task, i, j, start);
    var score := ScoreOf(task.city, task.candidates[i], task.rain, task.weights, task.threshold).cost;
    PricedApart(score, MinutesAfter(task, i, start), MinutesAfter(task, j, start), task.weights.departDelayFactor,
                Competing(task, i).cost, Competing(task, j).cost);
  }

  lemma PricedApart(score: real, a: real, b: real, factor: real, cost: real, cost': real)
    requires Nearest4(PlusWait(score, a, factor), cost) && Nearest4(PlusWait(score, b, factor), cost')
    ensures (b - a) * factor - 0.0001 <= cost' - cost <= (b - a) * factor + 0.0001
  {
    var x, y := a * factor, b * factor;
    assert (b - a) * factor == y - x;
    NearestIsNear(score + x, cost);
    NearestIsNear(score + y, cost');
    hide Nearest4;
  }

  lemma EarliestOf(task: Task, i: nat) returns (start: int)
    requires i < |task.candidates|
    ensures IsEarliest(task.candidates, task.candidates[i].kind, start)
  {
    var kind := task.candidates[i].kind;
    assert HasKind(task.candidates, kind) by { assert task.candidates[i] in task.candidates; }
    start := Earliest(task.candidates, kind).value;
  }

  lemma LaterBy(task: Task, i: nat, j: nat, start: int)
    requires i < |task.candidates| && j < |task.candidates|
    ensures MinutesAfter(task, j, task.candidates[i].itinerary.startTime)
         == MinutesAfter(task, j, start) - MinutesAfter(task, i, start)
  {}

  /** Options stand in the order of their costs, then of their durations, then bike, bike-and-ride, transit. */
  lemma OptionsInOrder(task: Task, options: seq<Scored>, i: nat, j: nat)
    requires IsRanking(task, options) && i < j < |options|
    ensures var a, b := options[i], options[j];
            || a.cost < b.cost
            || (a.cost == b.cost && a.itinerary.duration < b.itinerary.duration)
            || (a.cost == b.cost && a.itinerary.duration == b.itinerary.duration
                && (a.kind, b.kind) in [(Bike, BikeAndRide), (Bike, Transit), (BikeAndRide, Transit)])
  {
    hide Wins, Competing;
    var pairs := [(Bike, BikeAndRide), (Bike, Transit), (BikeAndRide, Transit)];
    assert pairs[0] in pairs && pairs[1] in pairs && pairs[2] in pairs;
    assert Before(options[i], options[j]);
  }

  /**
   Without a forecast, when the winning bike and transit trips leave first of their kinds and have the
   same transfers and ferries, bike ranks above transit if transit saves less than the bias, and
   below if it saves more.
   */
  lemma DryRankingFollowsBias(task: Task, options: seq<Scored>, i: nat, j: nat) returns (p: nat, q: nat)
    requires task.rain.None? && IsRanking(task, options) && Wins(task, i) && Wins(task, j)
    requires var bike, transit := task.candidates[i], task.candidates[j];
             && bike.kind.Bike? && IsEarliest(task.candidates, Bike, bike.itinerary.startTime)
             && transit.kind.Transit? && IsEarliest(task.candidates, Transit, transit.itinerary.startTime)
             && SameExtras(task.city, bike.itinerary.legs, transit.itinerary.legs)
    ensures p < |options| && options[p].kind.Bike? && options[p].itinerary == task.candidates[i].itinerary
    ensures q < |options| && options[q].kind.Transit? && options[q].itinerary == task.candidates[j].itinerary
    ensures var saved := options[p].itinerary.duration / 60.0 - options[q].itinerary.duration / 60.0;
            && (saved <= task.weights.transitBias - 0.0002 ==> p < q)
            && (saved >= task.weights.transitBias + 0.0002 ==> q < p)
  {
    hide *;
    WinnerInRange(task, i);
    WinnerInRange(task, j);
    var bike, transit := task.candidates[i], task.candidates[j];
    CompetesAtScore(task, i);
    CompetesAtScore(task, j);
    BikeUnlessTransitSavesMore(task.city, bike, transit, task.weights, task.threshold);
    p := PlaceOf(task, options, i);
    q := PlaceOf(task, options, j);
    PlacesFollowOrder(task, options, p, q);
  }

  lemma WinnerInRange(task: Task, i: nat)
    requires Wins(task, i)
    ensures i < |task.candidates|
  {}

  lemma PlaceOf(task: Task, options: seq<Scored>, i: nat) returns (p: nat)
    requires IsRanking(task, options) && Wins(task, i)
    ensures i < |task.candidates| && p < |options| && options[p] == Competing(task, i)
  {
    WinnerInRange(task, i);
    hide Wins, Competing, StrictlySorted;
    p :| p < |options| && options[p] == Competing(task, i);
  }

  lemma PlacesFollowOrder(task: Task, options: seq<Scored>, p: nat, q: nat)
    requires IsRanking(task, options) && p < |options| && q < |options| && options[p].kind != options[q].kind
    ensures Before(options[p], options[q]) ==> p < q
    ensures Before(options[q], options[p]) ==> q < p
  {
    hide Wins, Competing;
    assert p < q ==> Before(options[p], options[q]);
    assert q < p ==> Before(options[q], options[p]);
  }

  lemma CompetesAtScore(task: Task, i: nat)
    requires i < |task.candidates|
    requires IsEarliest(task.candidates, task.candidates[i].kind, task.candidates[i].itinerary.startTime)
    ensures Competing(task, i) == ScoreOf(task.city, task.candidates[i], task.rain, task.weights, task.threshold)
    ensures Competing(task, i).kind == task.candidates[i].kind
    ensures Competing(task, i).itinerary == task.candidates[i].itinerary
  {
    DelayIs(task, i, task.candidates[i].itinerary.startTime);
    hide Delayed, DryCost, Rained, Round, Round4, Delay;
  }
}
