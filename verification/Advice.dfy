/**
 The recommendation on top of the ranking, its rain banner, and the verdict the notifier draws
 from it. Banner and cost look at the same forecast through different windows; here they are
 shown to agree.
 */
module Advice {
  import opened Wrappers
  import opened Scoring
  import opened Ranking
  import opened Verdicts
  import opened CostFormula

  // ---------------------------------------------------------------------------------------
  // Time windows
  // ---------------------------------------------------------------------------------------

  /** Some instant of the interval has this local time of day. */
  ghost predicate OccursWithin(city: City, t: TimeOfDay, start: int, end: int) {
    exists x :: start <= x <= end && LocalTime(city, x) == t
  }

  /** Less than a day later the local time has moved on by as much, past midnight if need be. */
  lemma LaterLocalTime(city: City, start: int, x: int)
    requires start <= x < start + DAY_MS
    ensures var moved := LocalTime(city, start) + (x - start);
            LocalTime(city, x) == if moved < DAY_MS then moved else moved - DAY_MS
  {
    var a, b := start + city.utcOffsetMs, x + city.utcOffsetMs;
    assert a == (a / DAY_MS) * DAY_MS + a % DAY_MS;
    assert b == (b / DAY_MS) * DAY_MS + b % DAY_MS;
  }

  /** The one instant with a given time of day in the day that begins at `start`. */
  lemma InstantAt(city: City, t: TimeOfDay, start: int) returns (x: int)
    ensures start <= x < start + DAY_MS && LocalTime(city, x) == t
    ensures forall y | start <= y < start + DAY_MS && LocalTime(city, y) == t :: y == x
  {
    var s := LocalTime(city, start);
    x := if t >= s then start + (t - s) else start + (t - s + DAY_MS);
    LaterLocalTime(city, start, x);
    hide LocalTime;
    forall y | start <= y < start + DAY_MS && LocalTime(city, y) == t
      ensures y == x
    {
      LaterLocalTime(city, start, y);
    }
  }

  lemma WindowIsExact(city: City, t: TimeOfDay, start: int, end: int)
    requires start <= end < start + DAY_MS
    ensures InTimeWindow(t, LocalTime(city, start), LocalTime(city, end)) <==> OccursWithin(city, t, start, end)
  {
    hide LocalTime;
    var x := InstantAt(city, t, start);
    LaterLocalTime(city, start, x);
    LaterLocalTime(city, start, end);
    assert OccursWithin(city, t, start, end) <==> x <= end;
  }

  /**
   The naive time-of-day window matches exactly the times that occur in the interval, for every
   time at once, if and only if the interval is not backwards and either shorter than a day or
   a millisecond short of a whole number of days.
   */
  lemma WindowIsExactWhen(city: City, start: int, end: int)
    ensures (forall t ::
               InTimeWindow(t, LocalTime(city, start), LocalTime(city, end)) <==> OccursWithin(city, t, start, end))
       <==> start <= end && (end - start < DAY_MS || (end - start + 1) % DAY_MS == 0)
  {
    var s, e := LocalTime(city, start), LocalTime(city, end);
    if end < start {
      assert InTimeWindow(s, s, e) && !OccursWithin(city, s, start, end);
    } else if end - start < DAY_MS {
      forall t
        ensures InTimeWindow(t, s, e) <==> OccursWithin(city, t, start, end)
      {
        WindowIsExact(city, t, start, end);
      }
    } else {
      forall t: TimeOfDay
        ensures OccursWithin(city, t, start, end)
      {
        var x := InstantAt(city, t, start);
      }
      SpanOfDay(city, start, end);
      if (end - start + 1) % DAY_MS != 0 {
        var t: TimeOfDay := if e < s then e + 1 else if s > 0 then s - 1 else e + 1;
        assert !InTimeWindow(t, s, e);
      }
    }
  }

  lemma SpanOfDay(city: City, start: int, end: int)
    ensures var d := LocalTime(city, end) - LocalTime(city, start);
            (end - start + 1) % DAY_MS == 0 <==> d == -1 || d == DAY_MS - 1
  {}

  // ---------------------------------------------------------------------------------------
  // The rain banner
  // ---------------------------------------------------------------------------------------

  datatype Summary = Summary(rainExpected: Option<bool>, maxRain: Option<real>)

  function WindowSlots(slots: seq<RainSlot>, start: TimeOfDay, end: TimeOfDay): seq<RainSlot> {
    if slots == [] then []
    else
      var n := |slots| - 1;
      WindowSlots(slots[..n], start, end) + if InTimeWindow(slots[n].time, start, end) then [slots[n]] else []
  }

  /** The slots in the itinerary's whole window. */
  function RideSlots(city: City, itinerary: Itinerary, rain: RainForecast): seq<RainSlot> {
    WindowSlots(rain.slots, LocalTime(city, itinerary.startTime), LocalTime(city, itinerary.endTime))
  }

  function PeakOrZero(slots: seq<RainSlot>): real { if slots == [] then 0.0 else Peak(slots) }

  function RainSummary(city: City, itinerary: Itinerary, rain: Option<RainForecast>, threshold: real): Summary {
    match rain
    case None => Summary(None, None)
    case Some(forecast) =>
      var window := RideSlots(city, itinerary, forecast);
      Summary(Some(exists s | s in window :: s.mmPerH >= threshold), Some(Round4(PeakOrZero(window))))
  }

  lemma {:induction false} WindowMembers(slots: seq<RainSlot>, start: TimeOfDay, end: TimeOfDay)
    ensures forall s :: s in WindowSlots(slots, start, end) <==> s in slots && InTimeWindow(s.time, start, end)
    decreases |slots|
  {
    if slots != [] {
      var n := |slots| - 1;
      assert slots == slots[..n] + [slots[n]];
      WindowMembers(slots[..n], start, end);
    }
  }

  /** `peak` is the highest intensity in the ride's window on the local clock, or 0 without a slot there. */
  ghost predicate HasPeak(city: City, itinerary: Itinerary, slots: seq<RainSlot>, peak: real) {
    var start, end := itinerary.startTime, itinerary.endTime;
    && (forall s | s in slots && FallsBetween(city, s.time, start, end) :: s.mmPerH <= peak)
    && if exists s | s in slots :: FallsBetween(city, s.time, start, end)
       then exists s | s in slots :: FallsBetween(city, s.time, start, end) && s.mmPerH == peak
       else peak == 0.0
  }

  /**
   The banner of a ride: unknown without a forecast; else rain is expected exactly when a slot of its
   window reaches the threshold, and the peak is that of the window, rounded to four decimals.
   */
  lemma SummaryIs(city: City, itinerary: Itinerary, rain: RainForecast, threshold: real)
    ensures RainSummary(city, itinerary, None, threshold) == Summary(None, None)
    ensures var summary := RainSummary(city, itinerary, Some(rain), threshold);
            && summary.rainExpected.Some? && summary.maxRain.Some?
            && (summary.rainExpected.value
                <==> exists s | s in rain.slots ::
                       FallsBetween(city, s.time, itinerary.startTime, itinerary.endTime) && s.mmPerH >= threshold)
            && exists peak :: HasPeak(city, itinerary, rain.slots, peak) && Nearest4(peak, summary.maxRain.value)
  {
    var window := RideSlots(city, itinerary, rain);
    WindowMembers(rain.slots, LocalTime(city, itinerary.startTime), LocalTime(city, itinerary.endTime));
    forall s
      ensures s in window <==> s in rain.slots && FallsBetween(city, s.time, itinerary.startTime, itinerary.endTime)
    {}
    hide FallsBetween, LocalTime, InTimeWindow, RideSlots, Peak, Nearest4, Round4;
    if window != [] {
      PeakIsMaximum(window);
    } else {
      assert forall s :: s !in window;
    }
    assert HasPeak(city, itinerary, rain.slots, PeakOrZero(window));
    Round4IsNearest(PeakOrZero(window));
  }

  /** The ride takes less than a day and its legs lie inside it. */
  predicate WellFormed(itinerary: Itinerary) {
    && itinerary.startTime <= itinerary.endTime < itinerary.startTime + DAY_MS
    && forall leg | leg in itinerary.legs :: itinerary.startTime <= leg.startTime <= leg.endTime <= itinerary.endTime
  }

  /** A leg's window lies in the ride's. */
  lemma LegWindowInRide(city: City, itinerary: Itinerary, leg: Leg, t: TimeOfDay)
    requires WellFormed(itinerary) && leg in itinerary.legs
    requires InTimeWindow(t, LocalTime(city, leg.startTime), LocalTime(city, leg.endTime))
    ensures InTimeWindow(t, LocalTime(city, itinerary.startTime), LocalTime(city, itinerary.endTime))
  {
    WindowIsExact(city, t, leg.startTime, leg.endTime);
    WindowIsExact(city, t, itinerary.startTime, itinerary.endTime);
    hide InTimeWindow, LocalTime;
    assert OccursWithin(city, t, itinerary.startTime, itinerary.endTime);
  }

  /**
   Rain that is priced on any leg shows on the banner: rain is expected, and the banner's peak,
   before and after rounding, is at least the leg's.
   */
  lemma PricedRainIsOnTheBanner(city: City, itinerary: Itinerary, rain: RainForecast, threshold: real, leg: Leg)
    requires WellFormed(itinerary) && leg in itinerary.legs
    requires WetSlots(rain.slots, LocalTime(city, leg.startTime), LocalTime(city, leg.endTime), threshold) != []
    ensures var peak := LegRain(city, leg, rain, threshold).1;
            var summary := RainSummary(city, itinerary, Some(rain), threshold);
            && summary.rainExpected == Some(true)
            && peak <= PeakOrZero(RideSlots(city, itinerary, rain))
            && Round4(peak) <= summary.maxRain.value
  {
    var start, end := LocalTime(city, leg.startTime), LocalTime(city, leg.endTime);
    var wet := WetSlots(rain.slots, start, end, threshold);
    var window := RideSlots(city, itinerary, rain);
    WetMembers(rain.slots, start, end, threshold);
    WindowMembers(rain.slots, LocalTime(city, itinerary.startTime), LocalTime(city, itinerary.endTime));
    PeakIsMaximum(wet);
    var s :| s in wet && s.mmPerH == Peak(wet);
    LegWindowInRide(city, itinerary, leg, s.time);
    assert s in window;
    PeakIsMaximum(window);
    RoundMonotone(Peak(wet), Peak(window));
  }

  lemma {:induction false} UnpricedTotals(city: City, legs: seq<Leg>, rain: RainForecast, weights: Weights,
      threshold: real)
    requires forall leg | leg in legs ::
               WetSlots(rain.slots, LocalTime(city, leg.startTime), LocalTime(city, leg.endTime), threshold) == []
    ensures RainTotals(city, legs, rain, weights, threshold) == (0.0, 0.0)
    decreases |legs|
  {
    if legs != [] {
      var n := |legs| - 1;
      assert legs[n] in legs;
      UnpricedTotals(city, legs[..n], rain, weights, threshold);
      DryLeg(city, legs[n], rain, weights, threshold);
    }
  }

  /** A banner that expects no rain means the ride is scored as if there were no forecast. */
  lemma DryBannerMeansDryScore(city: City, c: Candidate, rain: RainForecast, weights: Weights, threshold: real)
    requires WellFormed(c.itinerary)
    requires RainSummary(city, c.itinerary, Some(rain), threshold).rainExpected == Some(false)
    ensures ScoreOf(city, c, Some(rain), weights, threshold) == ScoreOf(city, c, None, weights, threshold)
  {
    var legs := c.itinerary.legs;
    hide WetSlots, RainSummary, ScoreOf, LegRain, WellFormed;
    forall leg | leg in legs
      ensures WetSlots(rain.slots, LocalTime(city, leg.startTime), LocalTime(city, leg.endTime), threshold) == []
    {
      if WetSlots(rain.slots, LocalTime(city, leg.startTime), LocalTime(city, leg.endTime), threshold) != [] {
        PricedRainIsOnTheBanner(city, c.itinerary, rain, threshold, leg);
      }
    }
    UnpricedTotals(city, legs, rain, weights, threshold);
    UnrainedScore(city, c, rain, weights, threshold);
  }

  lemma UnrainedScore(city: City, c: Candidate, rain: RainForecast, weights: Weights, threshold: real)
    requires RainTotals(city, c.itinerary.legs, rain, weights, threshold) == (0.0, 0.0)
    ensures ScoreOf(city, c, Some(rain), weights, threshold) == ScoreOf(city, c, None, weights, threshold)
  {}

  // ---------------------------------------------------------------------------------------
  // The recommendation
  // ---------------------------------------------------------------------------------------

  datatype RankedPlan = RankedPlan(
    options: seq<Scored>,
    recommendation: Kind,
    summary: Summary,
    bikeMinutes: Option<int>,
    transitMinutes: Option<int>,
    forecastDegraded: bool)

  /** `recommend` takes the first option without looking whether there is one. */
  datatype AdviceError = NoOptions

  function FirstOfKind(options: seq<Scored>, kind: Kind): Option<Scored> {
    if options == [] then None
    else if options[0].kind == kind then Some(options[0])
    else FirstOfKind(options[1..], kind)
  }

  function Minutes(option: Option<Scored>): Option<int> {
    match option
    case None => None
    case Some(s) => Some(Round(s.itinerary.duration / 60.0))
  }

  /** The itinerary the banner is about: the bike option's when there is one, else the best one's. */
  function SummaryItinerary(options: seq<Scored>): Itinerary
    requires options != []
  {
    match FirstOfKind(options, Bike)
    case Some(bike) => bike.itinerary
    case None => options[0].itinerary
  }

  function PlanOf(city: City, options: seq<Scored>, rain: Option<RainForecast>): RankedPlan
    requires options != []
  {
    RankedPlan(
      options,
      options[0].kind,
      RainSummary(city, SummaryItinerary(options), rain, DEFAULT_RAIN_THRESHOLD),
      Minutes(FirstOfKind(options, Bike)),
      Minutes(FirstOfKind(options, Transit)),
      rain.None?)
  }

  function DefaultTask(city: City, candidates: seq<Candidate>, rain: Option<RainForecast>): Task {
    Task(city, candidates, rain, DEFAULT_WEIGHTS, DEFAULT_RAIN_THRESHOLD)
  }

  method Recommend(city: City, candidates: seq<Candidate>, rain: Option<RainForecast>)
    returns (plan: Result<RankedPlan, AdviceError>)
    ensures plan.Failure? <==> candidates == []
    ensures plan.Success? ==>
              && plan.value.options != []
              && IsRanking(DefaultTask(city, candidates, rain), plan.value.options)
              && plan.value == PlanOf(city, plan.value.options, rain)
  {
    hide IsRanking;
    var task := DefaultTask(city, candidates, rain);
    var options := Rank(task);
    SomeOption(task, options);
    if options == [] {
      return Failure(NoOptions);
    }
    plan := Success(PlanOf(city, options, rain));
  }

  lemma SomeOption(task: Task, options: seq<Scored>)
    requires IsRanking(task, options) && task.weights.maxDepartWait >= 0.0
    ensures options == [] <==> task.candidates == []
  {
    OneOptionPerKind(task, options);
    hide IsRanking;
    if task.candidates != [] {
      var c := task.candidates[0];
      assert HasKind(task.candidates, c.kind) by { assert c in task.candidates; }
    }
    if options != [] {
      assert options[0] in options;
    }
  }

  lemma {:induction false} FirstOfKindFinds(options: seq<Scored>, kind: Kind)
    ensures FirstOfKind(options, kind).Some? <==> exists s | s in options :: s.kind == kind
    ensures FirstOfKind(options, kind).Some? ==>
              FirstOfKind(options, kind).value in options && FirstOfKind(options, kind).value.kind == kind
    decreases |options|
  {
    if options != [] {
      assert options == [options[0]] + options[1..];
      FirstOfKindFinds(options[1..], kind);
    }
  }

  /** The plan's minutes for a kind are those of its one option of the kind, to the nearest minute. */
  ghost predicate MinutesOf(options: seq<Scored>, kind: Kind, minutes: Option<int>) {
    && (forall s | s in options && s.kind == kind ::
          minutes.Some? && Nearest(s.itinerary.duration / 60.0, minutes.value))
    && ((forall s | s in options :: s.kind != kind) ==> minutes.None?)
  }

  /**
   What a plan says, told by its options: the first is the recommendation, the minutes of bike and
   of transit are those of the options of these kinds, the banner is about the bike option, or the
   first one where there is none, at a threshold of a tenth, and degraded means no forecast.
   */
  lemma PlanFields(task: Task, options: seq<Scored>, rain: Option<RainForecast>)
    requires IsRanking(task, options) && options != []
    ensures var plan := PlanOf(task.city, options, rain);
            && plan.options == options && plan.recommendation == options[0].kind
            && MinutesOf(options, Bike, plan.bikeMinutes) && MinutesOf(options, Transit, plan.transitMinutes)
            && (plan.forecastDegraded <==> rain.None?)
            && (forall s | s in options && s.kind == Bike ::
                  plan.summary == RainSummary(task.city, s.itinerary, rain, 0.1))
            && ((forall s | s in options :: s.kind != Bike) ==>
                  plan.summary == RainSummary(task.city, options[0].itinerary, rain, 0.1))
  {
    MinutesAreOf(task, options, Bike);
    MinutesAreOf(task, options, Transit);
    FirstOfKindFinds(options, Bike);
    hide IsRanking, RainSummary, FirstOfKind, MinutesOf;
    forall s | s in options && s.kind == Bike
      ensures SummaryItinerary(options) == s.itinerary
    {
      BikeIsSummarized(task, options, s);
    }
  }

  lemma MinutesAreOf(task: Task, options: seq<Scored>, kind: Kind)
    requires IsRanking(task, options)
    ensures MinutesOf(options, kind, Minutes(FirstOfKind(options, kind)))
  {
    hide *;
    FirstOfKindFinds(options, kind);
    if FirstOfKind(options, kind).Some? {
      var first := FirstOfKind(options, kind).value;
      OnlyOneOfKind(task, options, first);
      MinutesOfFirst(options, kind, first);
    } else {
      MinutesOfNone(options, kind);
    }
  }

  lemma OnlyOneOfKind(task: Task, options: seq<Scored>, first: Scored)
    requires IsRanking(task, options) && first in options
    ensures forall s | s in options && s.kind == first.kind :: s == first
  {
    OneOptionPerKind(task, options);
    hide *;
    forall s | s in options && s.kind == first.kind
      ensures s == first
    {
      var i :| 0 <= i < |options| && options[i] == s;
      var j :| 0 <= j < |options| && options[j] == first;
    }
  }

  lemma MinutesOfFirst(options: seq<Scored>, kind: Kind, first: Scored)
    requires first in options && first.kind == kind && forall s | s in options && s.kind == kind :: s == first
    requires FirstOfKind(options, kind) == Some(first)
    ensures MinutesOf(options, kind, Minutes(FirstOfKind(options, kind)))
  {
    hide FirstOfKind, Nearest, Round;
    RoundIsNearest(first.itinerary.duration / 60.0);
  }

  lemma MinutesOfNone(options: seq<Scored>, kind: Kind)
    requires FirstOfKind(options, kind).None? && forall s | s in options :: s.kind != kind
    ensures MinutesOf(options, kind, Minutes(FirstOfKind(options, kind)))
  {
    hide FirstOfKind, Nearest;
  }

  /**
   When the plan has a bike option the banner is about that option, and if it says no rain is
   expected, the option's cost holds no rain: it is the score without a forecast, apart from the
   price of the wait, which no forecast changes.
   */
  lemma DryBannerMeansDryBike(city: City, candidates: seq<Candidate>, rain: RainForecast, options: seq<Scored>,
      bike: Scored)
    requires var task := DefaultTask(city, candidates, Some(rain)); IsRanking(task, options)
    requires bike in options && bike.kind.Bike? && WellFormed(bike.itinerary)
    requires PlanOf(city, options, Some(rain)).summary.rainExpected == Some(false)
    ensures SummaryItinerary(options) == bike.itinerary
    ensures exists i :: 0 <= i < |candidates|
              && bike == Competing(DefaultTask(city, candidates, Some(rain)), i)
              && bike == Competing(DefaultTask(city, candidates, None), i)
  {
    var task := DefaultTask(city, candidates, Some(rain));
    BikeIsSummarized(task, options, bike);
    var i :| Wins(task, i) && bike == Competing(task, i);
    DryWinner(city, candidates, rain, i);
  }

  lemma DryWinner(city: City, candidates: seq<Candidate>, rain: RainForecast, i: int)
    requires 0 <= i < |candidates| && WellFormed(candidates[i].itinerary)
    requires RainSummary(city, candidates[i].itinerary, Some(rain), DEFAULT_RAIN_THRESHOLD).rainExpected == Some(false)
    ensures Competing(DefaultTask(city, candidates, Some(rain)), i) == Competing(DefaultTask(city, candidates, None), i)
  {
    hide WellFormed, RainSummary, ScoreOf, Earliest, Delayed;
    DryBannerMeansDryScore(city, candidates[i], rain, DEFAULT_WEIGHTS, DEFAULT_RAIN_THRESHOLD);
  }

  lemma BikeIsSummarized(task: Task, options: seq<Scored>, bike: Scored)
    requires IsRanking(task, options) && bike in options && bike.kind.Bike?
    ensures FirstOfKind(options, Bike) == Some(bike) && SummaryItinerary(options) == bike.itinerary
  {
    FirstOfKindFinds(options, Bike);
    OneOptionPerKind(task, options);
    hide IsRanking;
    var first := FirstOfKind(options, Bike).value;
    var i :| 0 <= i < |options| && options[i] == bike;
    var j :| 0 <= j < |options| && options[j] == first;
  }

  // ---------------------------------------------------------------------------------------
  // The notifier's verdict
  // ---------------------------------------------------------------------------------------

  /**
   `evaluate_trip_alert` and the checks that follow it: what the planner gathered (nothing when
   every query failed) and the forecast decide whether there is something to warn about.
   */
  method EvaluateTrip(city: City, gathered: Option<seq<Candidate>>, rain: Option<RainForecast>)
    returns (verdict: Verdict)
    ensures verdict.Unassessable? <==> gathered.None? || !HasKind(gathered.value, Bike)
    ensures verdict.Degraded? <==> !verdict.Unassessable? && rain.None?
    ensures verdict.Rain? <==>
              && gathered.Some? && rain.Some?
              && exists i :: Wins(DefaultTask(city, gathered.value, rain), i)
                   && gathered.value[i].kind.Bike? && RainDuring(city, gathered.value[i].itinerary, rain.value)
  {
    hide IsRanking, Wins;
    if gathered.None? || !HasKind(gathered.value, Bike) {
      if gathered.Some? { NoBikeWins(DefaultTask(city, gathered.value, rain)); }
      return Unassessable;
    }
    var result := Recommend(city, gathered.value, rain);
    var plan := result.value;
    if plan.forecastDegraded {
      return Degraded;
    }
    BannerOfWinner(DefaultTask(city, gathered.value, rain), plan.options, rain.value);
    verdict := if plan.summary.rainExpected == Some(true) then Verdict.Rain else Dry;
  }

  /** Some slot of the ride's window on the local clock reaches a tenth of a millimetre an hour. */
  ghost predicate RainDuring(city: City, itinerary: Itinerary, rain: RainForecast) {
    exists s | s in rain.slots ::
      FallsBetween(city, s.time, itinerary.startTime, itinerary.endTime) && s.mmPerH >= 0.1
  }

  lemma NoBikeWins(task: Task)
    requires !HasKind(task.candidates, Bike)
    ensures forall i | Wins(task, i) :: !task.candidates[i].kind.Bike?
  {
    hide Competing, Eligible;
    forall i | Wins(task, i)
      ensures !task.candidates[i].kind.Bike?
    {
      assert task.candidates[i] in task.candidates;
    }
  }

  lemma BannerOfWinner(task: Task, options: seq<Scored>, rain: RainForecast)
    requires IsRanking(task, options) && options != [] && HasKind(task.candidates, Bike)
        && task.weights.maxDepartWait >= 0.0
    ensures RainSummary(task.city, SummaryItinerary(options), Some(rain), DEFAULT_RAIN_THRESHOLD).rainExpected
        == Some(true)
       <==> exists i ::
              && Wins(task, i) && task.candidates[i].kind.Bike?
              && RainDuring(task.city, task.candidates[i].itinerary, rain)
  {
    var w := SomeoneWinsBike(task);
    var bike := Competing(task, w);
    WinnerKind(task, w);
    BikeIsSummarized(task, options, bike);
    SummaryIs(task.city, bike.itinerary, rain, DEFAULT_RAIN_THRESHOLD);
    hide Competing, Eligible, IsRanking, RainSummary, WinsAmong, HasPeak, FallsBetween;
    forall i | Wins(task, i) && task.candidates[i].kind.Bike?
      ensures i == w
    {
      OneWinnerPerKind(task, i, w);
    }
  }

  lemma SomeoneWinsBike(task: Task) returns (w: int)
    requires HasKind(task.candidates, Bike) && task.weights.maxDepartWait >= 0.0
    ensures Wins(task, w) && task.candidates[w].kind.Bike?
  {
    var i := EarliestIsEligible(task, Bike);
    w := SomeoneWins(task, |task.candidates|, Bike);
  }
}
