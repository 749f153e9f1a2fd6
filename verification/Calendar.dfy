/**
 The calendar half of the notify service: which trip alerts a tick selects, which departure an
 alert means at that moment, and how densely the worker's cron ticks cover a departure.

 An instant is a number of microseconds of Amsterdam wall clock, counted so that day `d` of the
 proleptic Gregorian calendar (ordinal `d`) starts at `d * DAY`. Clock changes inside a lead
 window are not modelled.
 */
module Calendar {
  const MINUTE: int := 60_000_000
  const DAY: int := 86_400_000_000
  const MINUTES_PER_DAY: int := 1440

  type TimeOfDay = t: int | 0 <= t < DAY witness 0

  datatype TripAlert = TripAlert(id: int, departureTime: TimeOfDay, days: seq<int>)

  function DateOf(t: int): int { t / DAY }

  function TimeOf(t: int): TimeOfDay { t % DAY }

  /** Monday is 1 and Sunday is 7; ordinal 1 is a Monday. */
  function IsoWeekday(date: int): int { if date % 7 == 0 then 7 else date % 7 }

  /** The condition of the query in `due_trip_alerts`, with its split at midnight. */
  predicate IsDue(alert: TripAlert, now: int, leadMinutes: int) {
    var windowStart := TimeOf(now);
    var windowEnd := TimeOf(now + leadMinutes * MINUTE);
    if windowEnd < windowStart then
      || (IsoWeekday(DateOf(now)) in alert.days && alert.departureTime >= windowStart)
      || (IsoWeekday(DateOf(now + DAY)) in alert.days && alert.departureTime <= windowEnd)
    else
      IsoWeekday(DateOf(now)) in alert.days && windowStart <= alert.departureTime <= windowEnd
  }

  /** The departure an alert refers to at `now`: today, or tomorrow once the time has passed. */
  function NextDeparture(alert: TripAlert, now: int): int {
    var date := if alert.departureTime < TimeOf(now) then DateOf(now) + 1 else DateOf(now);
    date * DAY + alert.departureTime
  }

  /**
   `t` is a moment at which the recurring trip departs, told without the functions the query
   uses: the time of day is the alert's, and the day number differs from one of the alert's
   weekdays by whole weeks, where day number 1 is a Monday.
   */
  ghost predicate IsDeparture(alert: TripAlert, t: int) {
    && t % 86_400_000_000 == alert.departureTime
    && exists d :: d in alert.days && 1 <= d <= 7 && (t / 86_400_000_000 - d) % 7 == 0
  }

  /** The trip departs no earlier than now and no later than that many minutes from now. */
  ghost predicate DepartsWithin(alert: TripAlert, now: int, leadMinutes: int) {
    exists t :: now <= t <= now + leadMinutes * 60_000_000 && IsDeparture(alert, t)
  }

  /** Day number 1 is a Monday, and every day is followed by the next weekday, Sunday by Monday. */
  lemma WeekdaysFollow(date: int)
    ensures IsoWeekday(1) == 1
    ensures IsoWeekday(date + 1) == IsoWeekday(date) % 7 + 1
  {}

  /** Among 1 to 7, the day's weekday is the number that differs from the day's by whole weeks. */
  lemma WeekdayIs(date: int, d: int)
    ensures d == IsoWeekday(date) <==> 1 <= d <= 7 && (date - d) % 7 == 0
  {}

  lemma DepartureByQuery(alert: TripAlert, t: int)
    ensures IsDeparture(alert, t) <==> TimeOf(t) == alert.departureTime && IsoWeekday(DateOf(t)) in alert.days
  {
    WeekdayIs(DateOf(t), IsoWeekday(DateOf(t)));
    if IsDeparture(alert, t) {
      var d :| d in alert.days && 1 <= d <= 7 && (t / 86_400_000_000 - d) % 7 == 0;
      WeekdayIs(DateOf(t), d);
    }
  }

  /** Two instants less than a day apart with the same time of day are the same instant. */
  lemma SameTimeOfDay(t: int, u: int)
    requires TimeOf(t) == TimeOf(u) && -DAY < t - u < DAY
    ensures t == u
  {
    assert t == DateOf(t) * DAY + TimeOf(t);
    assert u == DateOf(u) * DAY + TimeOf(u);
  }

  /** The next moment with the alert's time of day: not past, less than a day away, today or tomorrow. */
  lemma NextDepartureDate(alert: TripAlert, now: int)
    ensures NextDeparture(alert, now) % 86_400_000_000 == alert.departureTime
    ensures now <= NextDeparture(alert, now) < now + 86_400_000_000
    ensures var today, date := now / 86_400_000_000, NextDeparture(alert, now) / 86_400_000_000;
            today <= date <= today + 1
  {
    assert now == DateOf(now) * DAY + TimeOf(now);
  }

  lemma DueMeansNextDeparture(alert: TripAlert, now: int, leadMinutes: int)
    requires 0 <= leadMinutes < 1440
    ensures IsDue(alert, now, leadMinutes)
       <==> && NextDeparture(alert, now) <= now + leadMinutes * MINUTE
            && IsDeparture(alert, NextDeparture(alert, now))
  {
    NextDepartureDate(alert, now);
    DepartureByQuery(alert, NextDeparture(alert, now));
    hide IsDeparture;
    assert now == DateOf(now) * DAY + TimeOf(now);
    var end := now + leadMinutes * MINUTE;
    assert end == DateOf(end) * DAY + TimeOf(end);
    assert DateOf(now + DAY) == DateOf(now) + 1;
  }

  /** A due alert's next departure is the one and only departure inside the lead window. */
  lemma NextDepartureIsTheDeparture(alert: TripAlert, now: int, leadMinutes: int)
    requires 0 <= leadMinutes < 1440
    requires IsDue(alert, now, leadMinutes)
    ensures now <= NextDeparture(alert, now) <= now + leadMinutes * 60_000_000
    ensures forall t | now <= t <= now + leadMinutes * 60_000_000 ::
              IsDeparture(alert, t) <==> t == NextDeparture(alert, now)
  {
    DueMeansNextDeparture(alert, now, leadMinutes);
    NextDepartureDate(alert, now);
    forall t | now <= t <= now + leadMinutes * MINUTE
      ensures IsDeparture(alert, t) <==> t == NextDeparture(alert, now)
    {
      if IsDeparture(alert, t) {
        SameTimeOfDay(t, NextDeparture(alert, now));
      }
    }
  }

  lemma DueIsDepartsWithin(alert: TripAlert, now: int, leadMinutes: int)
    requires 0 <= leadMinutes < 1440
    ensures IsDue(alert, now, leadMinutes) <==> DepartsWithin(alert, now, leadMinutes)
  {
    DueMeansNextDeparture(alert, now, leadMinutes);
    NextDepartureDate(alert, now);
    if DepartsWithin(alert, now, leadMinutes) {
      var t :| now <= t <= now + leadMinutes * MINUTE && IsDeparture(alert, t);
      SameTimeOfDay(t, NextDeparture(alert, now));
    }
  }

  const EVERY_DAY: seq<int> := [1, 2, 3, 4, 5, 6, 7]

  lemma EveryWeekday(date: int)
    ensures IsoWeekday(date) in EVERY_DAY
  {
    assert EVERY_DAY[IsoWeekday(date) - 1] == IsoWeekday(date);
  }

  /** With a negative lead the query takes a departure at this very moment for due. */
  lemma WrongBackwards(now: int, leadMinutes: int) returns (alert: TripAlert)
    requires leadMinutes < 0
    ensures IsDue(alert, now, leadMinutes) && !DepartsWithin(alert, now, leadMinutes)
  {
    alert := TripAlert(0, TimeOf(now), EVERY_DAY);
    EveryWeekday(DateOf(now));
    EveryWeekday(DateOf(now + DAY));
  }

  /** A time of day outside the query's ranges, though every daily departure lies in the window. */
  lemma WrongLong(now: int, leadMinutes: int) returns (alert: TripAlert)
    requires leadMinutes >= MINUTES_PER_DAY
    ensures !IsDue(alert, now, leadMinutes) && DepartsWithin(alert, now, leadMinutes)
  {
    var start, end := TimeOf(now), TimeOf(now + leadMinutes * MINUTE);
    WindowIsWholeMinutes(now, leadMinutes);
    hide TimeOf, DateOf, IsoWeekday;
    alert := TripAlert(0, if end < start then end + 1 else if start > 0 then start - 1 else end + 1, EVERY_DAY);
    DailyDeparts(alert, now, leadMinutes);
  }

  lemma DailyDeparts(alert: TripAlert, now: int, leadMinutes: int)
    requires alert.days == EVERY_DAY && leadMinutes >= MINUTES_PER_DAY
    ensures DepartsWithin(alert, now, leadMinutes)
  {
    var t := NextDeparture(alert, now);
    NextDepartureDate(alert, now);
    EveryWeekday(DateOf(t));
    DepartureByQuery(alert, t);
    assert TimeOf(t) == alert.departureTime;
    hide NextDeparture, TimeOf, DateOf, IsoWeekday;
    assert IsDeparture(alert, t);
  }

  /** An alert the query gets wrong when the lead is negative or a day or longer. */
  lemma WrongAlert(now: int, leadMinutes: int) returns (alert: TripAlert)
    requires !(0 <= leadMinutes < MINUTES_PER_DAY)
    ensures IsDue(alert, now, leadMinutes) != DepartsWithin(alert, now, leadMinutes)
  {
    hide *;
    if leadMinutes < 0 { alert := WrongBackwards(now, leadMinutes); } else { alert := WrongLong(now, leadMinutes); }
  }

  lemma WindowIsWholeMinutes(now: int, leadMinutes: int)
    ensures var d := TimeOf(now + leadMinutes * MINUTE) - TimeOf(now);
            d % MINUTE == 0 && -DAY < d < DAY
  {
    var end := now + leadMinutes * MINUTE;
    assert end == DateOf(end) * DAY + TimeOf(end);
    assert now == DateOf(now) * DAY + TimeOf(now);
    var d := TimeOf(end) - TimeOf(now);
    assert d == (leadMinutes - MINUTES_PER_DAY * (DateOf(end) - DateOf(now))) * MINUTE;
  }

  /**
   The query selects exactly the alerts that depart inside the lead window, for every alert at
   once, if and only if the lead is between zero and one minute short of a day.
   */
  lemma DueIsExactBelowOneDay(now: int, leadMinutes: int)
    ensures (forall alert: TripAlert :: IsDue(alert, now, leadMinutes) <==> DepartsWithin(alert, now, leadMinutes))
       <==> 0 <= leadMinutes < 1440
  {
    if 0 <= leadMinutes < MINUTES_PER_DAY {
      forall alert: TripAlert
        ensures IsDue(alert, now, leadMinutes) <==> DepartsWithin(alert, now, leadMinutes)
      {
        DueIsDepartsWithin(alert, now, leadMinutes);
      }
    } else {
      var alert := WrongAlert(now, leadMinutes);
    }
  }

  // ---------------------------------------------------------------------------------------
  // The worker's cron schedule
  // ---------------------------------------------------------------------------------------

  function StepMinutes(schedulerSeconds: int): int {
    if schedulerSeconds / 60 > 1 then schedulerSeconds / 60 else 1
  }

  function CronMinutes(step: int): set<int>
    requires step >= 1
  {
    set m | 0 <= m < 60 && m % step == 0
  }

  /** The worker wakes in this wall-clock minute (minutes are counted like instants). */
  predicate IsTick(minute: int, step: int)
    requires step >= 1
  {
    minute % 60 in CronMinutes(step)
  }

  function Gap(step: int): int { if step < 60 then step else 60 }

  /** The first tick at or after `minute`: later in the hour, or at the top of the next hour. */
  function NextTick(minute: int, step: int): int
    requires step >= 1
  {
    var inHour := minute % 60;
    var wait := if inHour % step == 0 then 0 else step - inHour % step;
    if inHour + wait < 60 then minute + wait else minute + (60 - inHour)
  }

  /** Cron minutes are the multiples of the step within the hour. */
  lemma CronMinutesAre(minute: int, step: int)
    requires step >= 1
    ensures IsTick(minute, step) <==> minute % 60 % step == 0
  {}

  /** The step is the cadence in whole minutes, at least one; 300 seconds mean every fifth minute. */
  lemma CadenceIs(schedulerSeconds: int)
    ensures StepMinutes(schedulerSeconds) == if schedulerSeconds < 120 then 1 else schedulerSeconds / 60
    ensures CronMinutes(StepMinutes(300)) == {0, 5, 10, 15, 20, 25, 30, 35, 40, 45, 50, 55}
    ensures schedulerSeconds < 60 ==> forall m :: m in CronMinutes(StepMinutes(schedulerSeconds)) <==> 0 <= m < 60
  {}

  /** Every stretch of `step` minutes, or of an hour, contains a tick, also across the hour. */
  lemma TicksAreClose(minute: int, step: int)
    requires step >= 1
    ensures NextTick(minute, step) % 60 % step == 0
    ensures minute <= NextTick(minute, step) < minute + if step < 60 then step else 60
    ensures forall m | minute <= m < NextTick(minute, step) :: m % 60 % step != 0
  {
    var inHour := minute % 60;
    var r := inHour % step;
    var q := inHour / step;
    var next := NextTick(minute, step);
    assert inHour == q * step + r;
    assert 0 <= r <= inHour by { QuotientNonNegative(inHour, step); }
    if r == 0 {
      assert next == minute;
    } else {
      assert inHour + (step - r) == (q + 1) * step + 0;
      DivModUnique(inHour + (step - r), q + 1, 0, step);
      var wait := step - r;
      if inHour + wait < 60 {
        HourOffset(minute, wait);
      } else {
        HourTop(minute);
        DivModUnique(0, 0, 0, step);
      }
      forall m | minute <= m < next
        ensures m % 60 % step != 0
      {
        HourOffset(minute, m - minute);
        assert inHour + (m - minute) == q * step + (r + (m - minute));
        DivModUnique(inHour + (m - minute), q, r + (m - minute), step);
      }
    }
  }

  lemma HourOffset(minute: int, d: int)
    requires 0 <= d && minute % 60 + d < 60
    ensures (minute + d) % 60 == minute % 60 + d
  {}

  lemma HourTop(minute: int)
    ensures (minute + (60 - minute % 60)) % 60 == 0
  {}

  lemma SignOfProduct(k: int, step: int)
    requires step >= 1
    ensures k >= 1 ==> k * step >= step
    ensures k <= -1 ==> k * step <= -step
  {
    if k >= 1 {
      assert k * step == (k - 1) * step + step;
    } else if k <= -1 {
      assert k * step == (k + 1) * step - step;
    }
  }

  lemma QuotientNonNegative(x: int, step: int)
    requires 0 <= x && step >= 1
    ensures 0 <= x % step <= x
  {
    SignOfProduct(x / step, step);
    assert x == (x / step) * step + x % step;
  }

  lemma DivModUnique(x: int, q: int, r: int, step: int)
    requires step >= 1 && x == q * step + r && 0 <= r < step
    ensures x % step == r && x / step == q
  {
    var d := q - x / step;
    assert d * step == x % step - r;
    SignOfProduct(d, step);
  }

  /** `n` ticks, in order, one in each of `n` consecutive stretches of `Gap(step)` minutes. */
  lemma TicksFrom(minute: int, n: nat, step: int) returns (ticks: seq<int>)
    requires step >= 1
    ensures |ticks| == n
    ensures forall t | t in ticks :: t % 60 % step == 0 && minute <= t < minute + n * Gap(step)
    ensures forall i, j | 0 <= i < j < n :: ticks[i] < ticks[j]
    decreases n
  {
    if n == 0 {
      ticks := [];
    } else {
      var gap := Gap(step);
      TicksAreClose(minute, step);
      var first := NextTick(minute, step);
      var rest := TicksFrom(minute + gap, n - 1, step);
      ticks := [first] + rest;
      assert n * gap == gap + (n - 1) * gap;
      SignOfProduct(n, gap);
      assert forall i | 0 <= i < |rest| :: first < rest[i] by {
        assert forall i | 0 <= i < |rest| :: rest[i] in rest;
      }
      forall t | t in ticks
        ensures t % 60 % step == 0 && minute <= t < minute + n * gap
      {
        assert t == first || t in rest;
      }
    }
  }

  /** The tick of every minute reads the clock within `jitter` after a fixed offset from the minute. */
  ghost predicate ReadsWithin(clock: int -> int, offset: int, jitter: int) {
    forall minute :: minute * 60_000_000 + offset <= clock(minute) <= minute * 60_000_000 + offset + jitter
  }

  /** The whole minutes of the lead that the jitter leaves. */
  function SureMinutes(leadMinutes: int, jitter: int): int { (leadMinutes * MINUTE - jitter) / MINUTE }

  /**
   Whatever the configured cadence, every departure is due at so many different ticks or more:
   the whole minutes of the lead that the jitter leaves, divided by the cadence in whole minutes
   (at least one, at most an hour). Each of these ticks computes that very departure, hence the
   same outbox key. Ticks may read their clock late, each by a different time up to the jitter.
   */
  lemma EveryDepartureIsCovered(
    alert: TripAlert, departure: int, leadMinutes: int, schedulerSeconds: int, clock: int -> int, offset: int,
        jitter: int)
    returns (ticks: seq<int>)
    requires IsDeparture(alert, departure)
    requires 0 <= leadMinutes < 1440 && 0 <= jitter <= leadMinutes * 60_000_000
    requires ReadsWithin(clock, offset, jitter)
    ensures var step := if schedulerSeconds < 120 then 1 else schedulerSeconds / 60;
            && |ticks| == (leadMinutes * 60_000_000 - jitter) / 60_000_000 / (if step < 60 then step else 60)
            && forall i | 0 <= i < |ticks| :: ticks[i] % 60 % step == 0
    ensures forall i, j | 0 <= i < j < |ticks| :: ticks[i] < ticks[j]
    ensures forall i | 0 <= i < |ticks| ::
              IsDue(alert, clock(ticks[i]), leadMinutes) && NextDeparture(alert, clock(ticks[i])) == departure
  {
    CadenceIs(schedulerSeconds);
    var step := StepMinutes(schedulerSeconds);
    ticks := TicksOf(alert, departure, leadMinutes, step, clock, offset, jitter);
    assert forall i | 0 <= i < |ticks| :: ticks[i] in ticks;
  }

  lemma TicksOf(
    alert: TripAlert, departure: int, leadMinutes: int, step: int, clock: int -> int, offset: int, jitter: int)
    returns (ticks: seq<int>)
    requires IsDeparture(alert, departure) && step >= 1
    requires 0 <= leadMinutes < 1440 && 0 <= jitter <= leadMinutes * 60_000_000
    requires ReadsWithin(clock, offset, jitter)
    ensures |ticks| == SureMinutes(leadMinutes, jitter) / Gap(step)
    ensures forall i, j | 0 <= i < j < |ticks| :: ticks[i] < ticks[j]
    ensures forall t | t in ticks ::
              && t % 60 % step == 0
              && IsDue(alert, clock(t), leadMinutes) && NextDeparture(alert, clock(t)) == departure
  {
    var gap := Gap(step);
    var sure := SureMinutes(leadMinutes, jitter);
    var n := sure / gap;
    assert n * gap <= sure;
    var earliest := departure - leadMinutes * MINUTE - offset;
    var minute := (earliest + MINUTE - 1) / MINUTE;
    ticks := TicksFrom(minute, n, step);
    forall t | t in ticks
      ensures IsDue(alert, clock(t), leadMinutes) && NextDeparture(alert, clock(t)) == departure
    {
      InLead(departure, leadMinutes, clock, offset, jitter, t);
      hide IsDue, NextDeparture, IsDeparture, ReadsWithin;
      assert DepartsWithin(alert, clock(t), leadMinutes);
      DueIsDepartsWithin(alert, clock(t), leadMinutes);
      NextDepartureIsTheDeparture(alert, clock(t), leadMinutes);
    }
  }

  /**
   With the defaults, a lead of 15 minutes every 300 seconds, three ticks on minutes divisible by
   five see each departure, and still two when ticks read the clock up to five minutes late.
   */
  lemma DefaultsCoverThrice(alert: TripAlert, departure: int, clock: int -> int, offset: int, jitter: int)
    returns (ticks: seq<int>)
    requires IsDeparture(alert, departure) && 0 <= jitter <= 300_000_000 && ReadsWithin(clock, offset, jitter)
    ensures |ticks| >= 2 && (jitter == 0 ==> |ticks| == 3)
    ensures forall i, j | 0 <= i < j < |ticks| :: ticks[i] < ticks[j]
    ensures forall i | 0 <= i < |ticks| ::
              && ticks[i] % 60 in {0, 5, 10, 15, 20, 25, 30, 35, 40, 45, 50, 55}
              && IsDue(alert, clock(ticks[i]), 15) && NextDeparture(alert, clock(ticks[i])) == departure
  {
    ticks := EveryDepartureIsCovered(alert, departure, 15, 300, clock, offset, jitter);
    hide *;
    forall i | 0 <= i < |ticks|
      ensures ticks[i] % 60 in {0, 5, 10, 15, 20, 25, 30, 35, 40, 45, 50, 55}
    {
      FifthMinutes(ticks[i] % 60);
    }
  }

  lemma FifthMinutes(m: int)
    requires 0 <= m < 60 && m % 5 == 0
    ensures m in {0, 5, 10, 15, 20, 25, 30, 35, 40, 45, 50, 55}
  {}

  /** A tick in one of the sure minutes reads a moment from which the departure is in the lead window. */
  lemma InLead(departure: int, leadMinutes: int, clock: int -> int, offset: int, jitter: int, tick: int)
    requires ReadsWithin(clock, offset, jitter)
    requires var minute := (departure - leadMinutes * MINUTE - offset + MINUTE - 1) / MINUTE;
             minute <= tick <= minute + SureMinutes(leadMinutes, jitter) - 1
    ensures clock(tick) <= departure <= clock(tick) + leadMinutes * MINUTE
  {}

  /**
   The outbox key of a tick is the departure's date: two ticks at which the alert is due share
   the key exactly when they are about the same departure.
   */
  lemma KeyIdentifiesDeparture(alert: TripAlert, now: int, later: int)
    ensures NextDeparture(alert, now) / 86_400_000_000 == NextDeparture(alert, later) / 86_400_000_000
       <==> NextDeparture(alert, now) == NextDeparture(alert, later)
  {
    NextDepartureDate(alert, now);
    NextDepartureDate(alert, later);
    var d, e := NextDeparture(alert, now), NextDeparture(alert, later);
    assert d == DateOf(d) * DAY + TimeOf(d);
    assert e == DateOf(e) * DAY + TimeOf(e);
  }
}
