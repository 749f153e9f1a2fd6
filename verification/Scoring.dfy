/**
 The generalized cost of a routing candidate: travel time, a price for every exposed minute in
 the rain, transfers, bias and bonuses. Costs are real numbers of minutes; instants are epoch
 milliseconds and wall-clock times are milliseconds of the day under one fixed UTC offset.
 */
module Scoring {
  import opened Wrappers

  const DAY_MS: int := 86_400_000

  type TimeOfDay = t: int | 0 <= t < DAY_MS witness 0

  datatype Kind = Bike | BikeAndRide | Transit

  datatype Leg = Leg(
    mode: string,
    startTime: int,
    endTime: int,
    duration: real,
    from: Option<(real, real)>,
    to: Option<(real, real)>)

  datatype Itinerary = Itinerary(duration: real, startTime: int, endTime: int, legs: seq<Leg>)

  datatype Candidate = Candidate(kind: Kind, itinerary: Itinerary)

  datatype RainSlot = RainSlot(time: TimeOfDay, mmPerH: real)

  datatype RainForecast = RainForecast(slots: seq<RainSlot>)

  datatype Band = Band(bound: real, penalty: real)

  datatype Weights = Weights(
    rainBands: seq<Band>,
    heavyPenalty: real,
    transferPenalty: real,
    hubTransferPenalty: real,
    ferryBonus: real,
    stationAccessBonus: real,
    transitBias: real,
    departDelayFactor: real,
    maxDepartWait: real)

  const DEFAULT_WEIGHTS: Weights := Weights(
    [Band(0.1, 0.0), Band(0.5, 0.5), Band(1.5, 1.5), Band(4.0, 3.0)],
    6.0, 5.0, 2.0, 3.0, 2.0, 10.0, 1.0, 30.0)

  const DEFAULT_RAIN_THRESHOLD: real := 0.1

  /** The two facts about the world scoring asks for: hubs on the map and the local clock. */
  datatype City = City(nearHub: ((real, real)) -> bool, utcOffsetMs: int)

  datatype Scored = Scored(kind: Kind, itinerary: Itinerary, cost: real, rainMinutes: int)

  // ---------------------------------------------------------------------------------------
  // Kinds and curated patterns
  // ---------------------------------------------------------------------------------------

  predicate Exposed(mode: string) { mode == "BICYCLE" || mode == "WALK" }

  function Modes(itinerary: Itinerary): set<string> {
    set leg | leg in itinerary.legs :: leg.mode
  }

  /** The kind of an itinerary by its modes; nothing for a trip that is only walked. */
  function Classify(itinerary: Itinerary): Option<Kind> {
    var hasBike := "BICYCLE" in Modes(itinerary);
    var transitModes := set m | m in Modes(itinerary) && !Exposed(m);
    if hasBike && transitModes - {"FERRY"} != {} then Some(BikeAndRide)
    else if hasBike then Some(Bike)
    else if transitModes != {} then Some(Transit)
    else None
  }

  predicate HasFerry(itinerary: Itinerary) { "FERRY" in Modes(itinerary) }

  function TransitLegs(legs: seq<Leg>): seq<Leg> {
    if legs == [] then []
    else
      var n := |legs| - 1;
      TransitLegs(legs[..n]) + if Exposed(legs[n].mode) then [] else [legs[n]]
  }

  function KnownPoints(legs: seq<Leg>): seq<(real, real)> {
    if legs == [] then []
    else
      var n := |legs| - 1;
      KnownPoints(legs[..n]) + if legs[n].from.Some? then [legs[n].from.value] else []
  }

  /** Where each transit leg after the first is boarded, as far as its place is known. */
  function TransferPoints(itinerary: Itinerary): seq<(real, real)> {
    var transit := TransitLegs(itinerary.legs);
    if transit == [] then [] else KnownPoints(transit[1..])
  }

  /** Where the first cycled leg ends, if that is known. */
  function BikeHandoff(legs: seq<Leg>): Option<(real, real)> {
    if legs == [] then None
    else if legs[0].mode == "BICYCLE" then legs[0].to
    else BikeHandoff(legs[1..])
  }

  // ---------------------------------------------------------------------------------------
  // Clock and rounding
  // ---------------------------------------------------------------------------------------

  function LocalTime(city: City, epochMs: int): TimeOfDay { (epochMs + city.utcOffsetMs) % DAY_MS }

  /** The time of day is in the window, which wraps past midnight when it ends before it starts. */
  predicate InTimeWindow(t: TimeOfDay, start: TimeOfDay, end: TimeOfDay) {
    if start <= end then start <= t <= end else t >= start || t <= end
  }

  /** Round half to even. */
  function Round(x: real): int {
    var below := x.Floor;
    var rest := x - below as real;
    if rest < 0.5 then below
    else if rest > 0.5 then below + 1
    else if below % 2 == 0 then below else below + 1
  }

  function Round4(x: real): real { Round(x * 10000.0) as real / 10000.0 }

  // ---------------------------------------------------------------------------------------
  // Rain on a leg
  // ---------------------------------------------------------------------------------------

  function RainPenalty(peak: real, weights: Weights): real {
    BandPenalty(peak, weights.rainBands, weights.heavyPenalty)
  }

  function BandPenalty(peak: real, bands: seq<Band>, heavy: real): real {
    if bands == [] then heavy
    else if peak < bands[0].bound then bands[0].penalty
    else BandPenalty(peak, bands[1..], heavy)
  }

  predicate IsWet(slot: RainSlot, start: TimeOfDay, end: TimeOfDay, threshold: real) {
    InTimeWindow(slot.time, start, end) && slot.mmPerH >= threshold
  }

  function WetSlots(slots: seq<RainSlot>, start: TimeOfDay, end: TimeOfDay, threshold: real): seq<RainSlot> {
    if slots == [] then []
    else
      var n := |slots| - 1;
      WetSlots(slots[..n], start, end, threshold) + if IsWet(slots[n], start, end, threshold) then [slots[n]] else []
  }

  /** The highest intensity of a nonempty list of slots. */
  function Peak(slots: seq<RainSlot>): real
    requires slots != []
  {
    var n := |slots| - 1;
    if n == 0 then slots[0].mmPerH else MaxReal(Peak(slots[..n]), slots[n].mmPerH)
  }

  function MaxReal(a: real, b: real): real { if b > a then b else a }

  function MinReal(a: real, b: real): real { if b < a then b else a }

  /** Exposed minutes in rain and the peak, over one leg. */
  function LegRain(city: City, leg: Leg, rain: RainForecast, threshold: real): (real, real) {
    var wet := WetSlots(rain.slots, LocalTime(city, leg.startTime), LocalTime(city, leg.endTime), threshold);
    if wet == [] then (0.0, 0.0)
    else (MinReal(leg.duration / 60.0, 5.0 * |wet| as real), Peak(wet))
  }

  // ---------------------------------------------------------------------------------------
  // The cost of a candidate
  // ---------------------------------------------------------------------------------------

  function RainPrice(exposed: real, peak: real, weights: Weights): real { exposed * RainPenalty(peak, weights) }

  /** What one leg adds: nothing when sheltered, else its rain minutes and their price. */
  function LegTotals(city: City, leg: Leg, rain: RainForecast, weights: Weights, threshold: real): (real, real) {
    if Exposed(leg.mode) then
      var (exposed, peak) := LegRain(city, leg, rain, threshold);
      (exposed, RainPrice(exposed, peak, weights))
    else (0.0, 0.0)
  }

  /** Rain minutes and rain cost summed over the legs. */
  function RainTotals(city: City, legs: seq<Leg>, rain: RainForecast, weights: Weights, threshold: real): (real, real) {
    if legs == [] then (0.0, 0.0)
    else
      var n := |legs| - 1;
      var before, last := RainTotals(city, legs[..n], rain, weights, threshold),
                          LegTotals(city, legs[n], rain, weights, threshold);
      (before.0 + last.0, before.1 + last.1)
  }

  lemma RainTotalsStep(city: City, legs: seq<Leg>, i: nat, rain: RainForecast, weights: Weights, threshold: real)
    requires i < |legs|
    ensures var before, last := RainTotals(city, legs[..i], rain, weights, threshold),
                                LegTotals(city, legs[i], rain, weights, threshold);
            RainTotals(city, legs[..i + 1], rain, weights, threshold) == (before.0 + last.0, before.1 + last.1)
  {
    assert legs[..i + 1][..i] == legs[..i];
  }

  function Rained(city: City, legs: seq<Leg>, rain: Option<RainForecast>, weights: Weights, threshold: real)
    : (real, real)
  {
    match rain
    case None => (0.0, 0.0)
    case Some(forecast) => RainTotals(city, legs, forecast, weights, threshold)
  }

  function TransferCost(city: City, points: seq<(real, real)>, weights: Weights): real {
    if points == [] then 0.0
    else
      var n := |points| - 1;
      TransferCost(city, points[..n], weights)
      + if city.nearHub(points[n]) then weights.hubTransferPenalty else weights.transferPenalty
  }

  /** Everything in the cost that does not depend on the rain. */
  function DryCost(city: City, c: Candidate, weights: Weights): real {
    var handoff := BikeHandoff(c.itinerary.legs);
    c.itinerary.duration / 60.0
    + TransferCost(city, TransferPoints(c.itinerary), weights)
    + (if c.kind.Bike? then 0.0 else weights.transitBias)
    - (if HasFerry(c.itinerary) then weights.ferryBonus else 0.0)
    - (if c.kind.BikeAndRide? && handoff.Some? && city.nearHub(handoff.value) then weights.stationAccessBonus else 0.0)
  }

  function ScoreOf(city: City, c: Candidate, rain: Option<RainForecast>, weights: Weights, threshold: real): Scored {
    var (minutes, cost) := Rained(city, c.itinerary.legs, rain, weights, threshold);
    Scored(c.kind, c.itinerary, Round4(DryCost(city, c, weights) + cost), Round(minutes))
  }

  /** The scoring loop over the legs. */
  method Score(city: City, c: Candidate, rain: Option<RainForecast>, weights: Weights, threshold: real)
    returns (scored: Scored)
    ensures scored == ScoreOf(city, c, rain, weights, threshold)
  {
    var legs := c.itinerary.legs;
    var rainCost, rainMinutes := 0.0, 0.0;
    if rain.Some? {
      for i := 0 to |legs|
        invariant rainMinutes == RainTotals(city, legs[..i], rain.value, weights, threshold).0
        invariant rainCost == RainTotals(city, legs[..i], rain.value, weights, threshold).1
      {
        RainTotalsStep(city, legs, i, rain.value, weights, threshold);
        if Exposed(legs[i].mode) {
          var (exposed, peak) := LegRain(city, legs[i], rain.value, threshold);
          rainMinutes := rainMinutes + exposed;
          rainCost := rainCost + RainPrice(exposed, peak, weights);
        }
      }
      assert legs[..|legs|] == legs;
    }
    scored := Scored(c.kind, c.itinerary, Round4(DryCost(city, c, weights) + rainCost), Round(rainMinutes));
  }

  // ---------------------------------------------------------------------------------------
  // Rounding and penalties are monotone
  // ---------------------------------------------------------------------------------------

  lemma RoundMonotone(x: real, y: real)
    requires x <= y
    ensures Round(x) <= Round(y) && Round4(x) <= Round4(y)
  {
    RoundOrder(x, y);
    RoundOrder(x * 10000.0, y * 10000.0);
  }

  lemma RoundOrder(x: real, y: real)
    requires x <= y
    ensures Round(x) <= Round(y)
  {
    assert x.Floor <= y.Floor;
  }

  /** Penalties that never fall from band to band, start at zero or above and end below the heavy one. */
  predicate Escalating(weights: Weights) {
    EscalatingBands(weights.rainBands, weights.heavyPenalty)
  }

  predicate EscalatingBands(bands: seq<Band>, heavy: real) {
    && 0.0 <= heavy
    && (forall i | 0 <= i < |bands| :: 0.0 <= bands[i].penalty <= heavy)
    && (forall i, j | 0 <= i < j < |bands| :: bands[i].penalty <= bands[j].penalty)
  }

  lemma {:induction false} PenaltyInBands(peak: real, bands: seq<Band>, heavy: real)
    ensures BandPenalty(peak, bands, heavy) == heavy
         || exists i :: 0 <= i < |bands| && BandPenalty(peak, bands, heavy) == bands[i].penalty
    decreases |bands|
  {
    if bands != [] && peak >= bands[0].bound {
      PenaltyInBands(peak, bands[1..], heavy);
      if i :| 0 <= i < |bands[1..]| && BandPenalty(peak, bands[1..], heavy) == bands[1..][i].penalty {
        assert bands[1..][i] == bands[i + 1];
      }
    }
  }

  lemma {:induction false} PenaltyMonotone(peak: real, peak': real, bands: seq<Band>, heavy: real)
    requires peak <= peak' && EscalatingBands(bands, heavy)
    ensures 0.0 <= BandPenalty(peak, bands, heavy) <= BandPenalty(peak', bands, heavy)
    decreases |bands|
  {
    if bands != [] {
      if peak < bands[0].bound {
        PenaltyInBands(peak', bands, heavy);
      } else {
        PenaltyMonotone(peak, peak', bands[1..], heavy);
      }
    }
  }

  // ---------------------------------------------------------------------------------------
  // More rain never costs less
  // ---------------------------------------------------------------------------------------

  /** The same slots with at least as much rain in each. */
  predicate NoDrier(rain: RainForecast, rain': RainForecast) {
    && |rain.slots| == |rain'.slots|
    && forall i | 0 <= i < |rain.slots| ::
         rain.slots[i].time == rain'.slots[i].time && rain.slots[i].mmPerH <= rain'.slots[i].mmPerH
  }

  lemma {:induction false} WetSlotsGrow(rain: RainForecast, rain': RainForecast, start: TimeOfDay, end: TimeOfDay,
      threshold: real)
    requires NoDrier(rain, rain')
    ensures var wet, wet' := WetSlots(rain.slots, start, end, threshold), WetSlots(rain'.slots, start, end, threshold);
            |wet| <= |wet'| && (wet != [] ==> Peak(wet) <= Peak(wet'))
    decreases |rain.slots|
  {
    if rain.slots != [] {
      hide WetSlots, Peak, InTimeWindow;
      var n := |rain.slots| - 1;
      WetSlotsGrow(RainForecast(rain.slots[..n]), RainForecast(rain'.slots[..n]), start, end, threshold);
      WetSlotsAppend(rain.slots, start, end, threshold);
      WetSlotsAppend(rain'.slots, start, end, threshold);
    }
  }

  lemma WetSlotsAppend(slots: seq<RainSlot>, start: TimeOfDay, end: TimeOfDay, threshold: real)
    requires slots != []
    ensures var last := slots[|slots| - 1];
            var before, wet := WetSlots(slots[..|slots| - 1], start, end, threshold),
                               WetSlots(slots, start, end, threshold);
            if IsWet(last, start, end, threshold) then
              |wet| == |before| + 1
                  && Peak(wet) == if before == [] then last.mmPerH else MaxReal(Peak(before), last.mmPerH)
            else wet == before
  {
    var n := |slots| - 1;
    PeakAppend(WetSlots(slots[..n], start, end, threshold), slots[n]);
  }

  lemma PeakAppend(slots: seq<RainSlot>, slot: RainSlot)
    ensures Peak(slots + [slot]) == if slots == [] then slot.mmPerH else MaxReal(Peak(slots), slot.mmPerH)
  {
    assert (slots + [slot])[..|slots|] == slots;
  }

  lemma ProductMonotone(a: real, b: real, c: real, d: real)
    requires 0.0 <= a <= b && 0.0 <= c <= d
    ensures 0.0 <= a * c <= b * d
  {
    assert b * d - a * c == (b - a) * d + a * (d - c);
  }

  lemma LegRainGrows(city: City, leg: Leg, rain: RainForecast, rain': RainForecast, threshold: real)
    requires NoDrier(rain, rain') && leg.duration >= 0.0
    ensures var r, r' := LegRain(city, leg, rain, threshold), LegRain(city, leg, rain', threshold);
            0.0 <= r.0 <= r'.0 && (r.0 > 0.0 ==> r.1 <= r'.1)
  {
    WetSlotsGrow(rain, rain', LocalTime(city, leg.startTime), LocalTime(city, leg.endTime), threshold);
  }

  lemma LegTotalsMonotone(city: City, leg: Leg, rain: RainForecast, rain': RainForecast, weights: Weights,
      threshold: real)
    requires NoDrier(rain, rain') && Escalating(weights) && leg.duration >= 0.0
    ensures var t, t' := LegTotals(city, leg, rain, weights, threshold),
                         LegTotals(city, leg, rain', weights, threshold);
            0.0 <= t.0 <= t'.0 && 0.0 <= t.1 <= t'.1
  {
    hide LegRain, RainPenalty, Escalating;
    var r, r' := LegRain(city, leg, rain, threshold), LegRain(city, leg, rain', threshold);
    LegRainGrows(city, leg, rain, rain', threshold);
    PenaltiesMonotone(r'.1, r'.1, weights);
    if r.0 == 0.0 {
      ProductMonotone(0.0, r'.0, RainPenalty(r'.1, weights), RainPenalty(r'.1, weights));
    } else {
      PenaltiesMonotone(r.1, r'.1, weights);
      ProductMonotone(r.0, r'.0, RainPenalty(r.1, weights), RainPenalty(r'.1, weights));
    }
  }

  lemma PenaltiesMonotone(peak: real, peak': real, weights: Weights)
    requires peak <= peak' && Escalating(weights)
    ensures 0.0 <= RainPenalty(peak, weights) <= RainPenalty(peak', weights)
  {
    PenaltyMonotone(peak, peak', weights.rainBands, weights.heavyPenalty);
  }

  lemma {:induction false} RainTotalsMonotone(city: City, legs: seq<Leg>, rain: RainForecast, rain': RainForecast,
      weights: Weights, threshold: real)
    requires NoDrier(rain, rain') && Escalating(weights) && forall leg | leg in legs :: leg.duration >= 0.0
    ensures var t, t' := RainTotals(city, legs, rain, weights, threshold),
                         RainTotals(city, legs, rain', weights, threshold);
            0.0 <= t.0 <= t'.0 && 0.0 <= t.1 <= t'.1
    decreases |legs|
  {
    if legs != [] {
      hide NoDrier, Escalating, LegTotals;
      var n := |legs| - 1;
      RainTotalsMonotone(city, legs[..n], rain, rain', weights, threshold);
      LegTotalsMonotone(city, legs[n], rain, rain', weights, threshold);
    }
  }

  /** The default weights qualify. */
  lemma DefaultsEscalate()
    ensures Escalating(DEFAULT_WEIGHTS)
  {}

  predicate Sane(itinerary: Itinerary) {
    forall leg | leg in itinerary.legs :: leg.duration >= 0.0
  }

  /** A candidate's cost and rain minutes never fall when it rains more. */
  lemma ScoreMonotone(city: City, c: Candidate, rain: RainForecast, rain': RainForecast, weights: Weights,
      threshold: real)
    requires NoDrier(rain, rain') && Escalating(weights) && Sane(c.itinerary)
    ensures var s, s' := ScoreOf(city, c, Some(rain), weights, threshold),
                         ScoreOf(city, c, Some(rain'), weights, threshold);
            s.cost <= s'.cost && s.rainMinutes <= s'.rainMinutes
  {
    var legs := c.itinerary.legs;
    RainTotalsMonotone(city, legs, rain, rain', weights, threshold);
    var (minutes, cost) := RainTotals(city, legs, rain, weights, threshold);
    var (minutes', cost') := RainTotals(city, legs, rain', weights, threshold);
    RoundMonotone(DryCost(city, c, weights) + cost, DryCost(city, c, weights) + cost');
    RoundMonotone(minutes, minutes');
  }

  predicate Sheltered(itinerary: Itinerary) {
    forall leg | leg in itinerary.legs :: !Exposed(leg.mode)
  }

  lemma {:induction false} ShelteredTotals(city: City, legs: seq<Leg>, rain: RainForecast, weights: Weights,
      threshold: real)
    requires forall leg | leg in legs :: !Exposed(leg.mode)
    ensures RainTotals(city, legs, rain, weights, threshold) == (0.0, 0.0)
    decreases |legs|
  {
    if legs != [] {
      var n := |legs| - 1;
      assert legs[n] in legs;
      ShelteredTotals(city, legs[..n], rain, weights, threshold);
    }
  }

  /** Whatever it rains, a sheltered trip scores as if no forecast were known. */
  lemma ShelteredScore(city: City, c: Candidate, rain: RainForecast, weights: Weights, threshold: real)
    requires Sheltered(c.itinerary)
    ensures ScoreOf(city, c, Some(rain), weights, threshold) == ScoreOf(city, c, None, weights, threshold)
  {
    ShelteredTotals(city, c.itinerary.legs, rain, weights, threshold);
  }

  predicate BelowThreshold(rain: RainForecast, threshold: real) {
    forall slot | slot in rain.slots :: slot.mmPerH < threshold
  }

  lemma {:induction false} NoWetSlots(slots: seq<RainSlot>, start: TimeOfDay, end: TimeOfDay, threshold: real)
    ensures WetSlots(slots, start, end, threshold) == []
       <==> forall slot | slot in slots :: !IsWet(slot, start, end, threshold)
    decreases |slots|
  {
    if slots != [] {
      var n := |slots| - 1;
      assert slots == slots[..n] + [slots[n]];
      NoWetSlots(slots[..n], start, end, threshold);
    }
  }

  lemma {:induction false} WetMembers(slots: seq<RainSlot>, start: TimeOfDay, end: TimeOfDay, threshold: real)
    ensures forall s :: s in WetSlots(slots, start, end, threshold) <==> s in slots && IsWet(s, start, end, threshold)
    decreases |slots|
  {
    if slots != [] {
      var n := |slots| - 1;
      assert slots == slots[..n] + [slots[n]];
      WetMembers(slots[..n], start, end, threshold);
    }
  }

  lemma {:induction false} PeakIsMaximum(slots: seq<RainSlot>)
    requires slots != []
    ensures forall s | s in slots :: s.mmPerH <= Peak(slots)
    ensures exists s | s in slots :: s.mmPerH == Peak(slots)
    decreases |slots|
  {
    var n := |slots| - 1;
    assert slots == slots[..n] + [slots[n]];
    if n > 0 {
      PeakIsMaximum(slots[..n]);
      var s :| s in slots[..n] && s.mmPerH == Peak(slots[..n]);
      assert s in slots && slots[n] in slots;
    } else {
      assert slots[0] in slots;
    }
  }

  /** A leg without wet slots adds nothing. */
  lemma DryLeg(city: City, leg: Leg, rain: RainForecast, weights: Weights, threshold: real)
    requires WetSlots(rain.slots, LocalTime(city, leg.startTime), LocalTime(city, leg.endTime), threshold) == []
    ensures LegTotals(city, leg, rain, weights, threshold) == (0.0, 0.0)
  {
    assert LegRain(city, leg, rain, threshold) == (0.0, 0.0);
    assert 0.0 * RainPenalty(0.0, weights) == 0.0;
  }

  lemma {:induction false} BelowThresholdTotals(city: City, legs: seq<Leg>, rain: RainForecast, weights: Weights,
      threshold: real)
    requires BelowThreshold(rain, threshold)
    ensures RainTotals(city, legs, rain, weights, threshold) == (0.0, 0.0)
    decreases |legs|
  {
    if legs != [] {
      var n := |legs| - 1;
      BelowThresholdTotals(city, legs[..n], rain, weights, threshold);
      NoWetSlots(rain.slots, LocalTime(city, legs[n].startTime), LocalTime(city, legs[n].endTime), threshold);
      DryLeg(city, legs[n], rain, weights, threshold);
    }
  }

  /** A missing forecast scores exactly like one with every slot below the threshold. */
  lemma NoForecastScoresDry(city: City, c: Candidate, rain: RainForecast, weights: Weights, threshold: real)
    requires BelowThreshold(rain, threshold)
    ensures ScoreOf(city, c, Some(rain), weights, threshold) == ScoreOf(city, c, None, weights, threshold)
  {
    BelowThresholdTotals(city, c.itinerary.legs, rain, weights, threshold);
  }
}
