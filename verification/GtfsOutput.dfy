/**
 The written feed told by the source tables alone: which rows are in it, which trips the repair
 changes and why, without the functions that select and repair.
 */
module GtfsOutput {
  import opened Wrappers
  import opened Gtfs
  import opened GtfsFilter
  import opened GtfsProperties

  // ---------------------------------------------------------------------------------------
  // Which rows are written
  // ---------------------------------------------------------------------------------------

  function Cell(r: Row, column: Column): string { if column in r then r[column] else "" }

  /** The agency's id is the text looked for, or its name has it somewhere in it, both in lower case. */
  ghost predicate Matched(agency: Row, env: Env) {
    || env.lower(Cell(agency, AgencyId)) == env.agencyMatch
    || exists before, after :: env.lower(Cell(agency, AgencyName)) == before + env.agencyMatch + after
  }

  /** The two rows agree on the column: the same text, or both without it. */
  predicate Agree(r: Row, q: Row, column: Column) {
    if column in r then column in q && q[column] == r[column] else column !in q
  }

  /** The route belongs to an agency that matches. */
  ghost predicate IsOperated(f: Feed, env: Env, route: Row) {
    route in f.routes.rows
    && exists agency :: agency in f.agency.rows && Matched(agency, env) && Agree(route, agency, AgencyId)
  }

  /** The trip runs on a route of an agency that matches. */
  ghost predicate IsServed(f: Feed, env: Env, trip: Row) {
    trip in f.trips.rows && exists route :: IsOperated(f, env, route) && Agree(trip, route, RouteId)
  }

  lemma ContainsIs(text: string, part: string)
    ensures Contains(text, part) <==> exists before, after :: text == before + part + after
  {
    if i: nat :| i <= |text| && StartsAt(text, part, i) {
      assert text == text[..i] + part + text[i + |part|..];
    }
    if before, after :| text == before + part + after {
      assert StartsAt(text, part, |before|);
    }
  }

  lemma MatchedIs(agency: Row, env: Env)
    ensures AgencyMatches(agency, env) <==> Matched(agency, env)
  {
    ContainsIs(env.lower(Cell(agency, AgencyName)), env.agencyMatch);
    hide Contains;
  }

  lemma AgreeIs(r: Row, q: Row, column: Column)
    ensures Agree(r, q, column) <==> Get(r, column) == Get(q, column)
  {}

  lemma OperatedRoutes(f: Feed, env: Env)
    ensures forall r :: r in Routes(f, env) <==> IsOperated(f, env, r)
  {
    AgencyRows(f, env);
    RowsInMembers(f.routes.rows, AgencyId, AgencyIds(f, env));
    hide AgencyMatches, Matched, RowsIn, Agencies, Agree, Get;
    forall r
      ensures r in Routes(f, env) <==> IsOperated(f, env, r)
    {
      if r in Routes(f, env) {
        var agency :| agency in Agencies(f, env) && Get(agency, AgencyId) == Get(r, AgencyId);
        MatchedIs(agency, env);
        AgreeIs(r, agency, AgencyId);
      }
      if IsOperated(f, env, r) {
        var agency :| agency in f.agency.rows && Matched(agency, env) && Agree(r, agency, AgencyId);
        MatchedIs(agency, env);
        AgreeIs(r, agency, AgencyId);
        ValuesHas(Agencies(f, env), AgencyId, agency);
      }
    }
  }

  lemma ServedTrips(f: Feed, env: Env)
    ensures forall r :: r in Trips(f, env) <==> IsServed(f, env, r)
  {
    OperatedRoutes(f, env);
    TripMembers(f, env);
    hide IsOperated, Trips, Routes, Agree, Get;
    forall r
      ensures r in Trips(f, env) <==> IsServed(f, env, r)
    {
      if r in Trips(f, env) {
        var route :| route in Routes(f, env) && Get(route, RouteId) == Get(r, RouteId);
        AgreeIs(r, route, RouteId);
      }
      if IsServed(f, env, r) {
        var route :| IsOperated(f, env, route) && Agree(r, route, RouteId);
        AgreeIs(r, route, RouteId);
        ValuesHas(Routes(f, env), RouteId, route);
      }
    }
  }

  /** The filter stops for want of an agency exactly when no agency matches. */
  lemma NoAgencyMatches(f: Feed, env: Env)
    ensures Agencies(f, env) == [] <==> forall r | r in f.agency.rows :: !Matched(r, env)
  {
    AgencyRows(f, env);
    hide AgencyMatches, Matched, Agencies;
    if Agencies(f, env) != [] {
      var r := Agencies(f, env)[0];
      assert r in Agencies(f, env);
      MatchedIs(r, env);
    }
    forall r | r in f.agency.rows && Matched(r, env)
      ensures Agencies(f, env) != []
    {
      MatchedIs(r, env);
      assert r in Agencies(f, env);
    }
  }

  /** Some written trip has the row's text in the column, and the text is not blank. */
  ghost predicate NamedByTrip(trips: seq<Row>, r: Row, column: Column) {
    column in r && r[column] != "" && exists trip :: trip in trips && Agree(r, trip, column)
  }

  /** Some written trip has the row's trip id. */
  ghost predicate OfTrip(trips: seq<Row>, r: Row) { exists trip :: trip in trips && Agree(r, trip, TripId) }

  lemma AgencyAndRouteRows(f: Feed, env: Env, out: Feed, kept: set<Field>)
    requires RectangularFeed(f) && Filtered(f, env, out, kept)
    ensures forall r :: r in out.agency.rows <==> r in f.agency.rows && Matched(r, env)
    ensures forall r :: r in out.routes.rows <==> IsOperated(f, env, r)
  {
    RequiredMembers(f, env, out, kept);
    AgencyRows(f, env);
    OperatedRoutes(f, env);
    hide RectangularFeed, Filtered, IsOperated, Matched, AgencyMatches, Agencies, Routes;
    forall r
      ensures r in out.agency.rows <==> r in f.agency.rows && Matched(r, env)
    {
      MatchedIs(r, env);
    }
  }

  lemma OfTripIs(trips: seq<Row>, ids: set<Field>, r: Row)
    requires ids == Values(trips, TripId)
    ensures Get(r, TripId) in ids <==> OfTrip(trips, r)
  {
    if Get(r, TripId) in ids {
      var trip :| trip in trips && Get(trip, TripId) == Get(r, TripId);
      AgreeIs(r, trip, TripId);
    }
    if trip :| trip in trips && Agree(r, trip, TripId) {
      AgreeIs(r, trip, TripId);
      ValuesHas(trips, TripId, trip);
    }
  }

  lemma NamedIs(trips: seq<Row>, values: set<Field>, r: Row, column: Column)
    requires values == NonBlankValues(trips, column)
    ensures Get(r, column) in values <==> NamedByTrip(trips, r, column)
  {
    if Get(r, column) in values {
      var trip :| trip in trips && Get(trip, column) == Get(r, column);
      AgreeIs(r, trip, column);
    }
    if trip :| trip in trips && Agree(r, trip, column) {
      AgreeIs(r, trip, column);
    }
  }

  /** Stop times and frequencies are written when a written trip has their id. */
  lemma TripRowsWritten(f: Feed, env: Env, out: Feed, kept: set<Field>, r: Row)
    requires RectangularFeed(f) && Filtered(f, env, out, kept)
    ensures r in out.stopTimes.rows <==> r in f.stopTimes.rows && OfTrip(out.trips.rows, r)
    ensures r in out.frequencies.rows <==> r in f.frequencies.rows && OfTrip(out.trips.rows, r)
  {
    RequiredMembers(f, env, out, kept);
    OptionalMembers(f, env, out, kept);
    TripColumns(f, env, out, kept, TripId);
    hide RectangularFeed, Filtered, Trips, OfTrip, RowsIn, Values;
    RowsInMembers(f.stopTimes.rows, TripId, TripIds(f, env));
    RowsInMembers(f.frequencies.rows, TripId, TripIds(f, env));
    OfTripIs(out.trips.rows, TripIds(f, env), r);
  }

  /** Calendars and shapes are written when a written trip names them. */
  lemma NamedRowsWritten(f: Feed, env: Env, out: Feed, kept: set<Field>, r: Row)
    requires RectangularFeed(f) && Filtered(f, env, out, kept)
    ensures r in out.calendar.rows <==> r in f.calendar.rows && NamedByTrip(out.trips.rows, r, ServiceId)
    ensures r in out.calendarDates.rows <==> r in f.calendarDates.rows && NamedByTrip(out.trips.rows, r, ServiceId)
    ensures r in out.shapes.rows <==> r in f.shapes.rows && NamedByTrip(out.trips.rows, r, ShapeId)
  {
    OptionalMembers(f, env, out, kept);
    TripColumns(f, env, out, kept, ServiceId);
    TripColumns(f, env, out, kept, ShapeId);
    hide RectangularFeed, Filtered, Trips, NamedByTrip, RowsIn, NonBlankValues;
    var services, shapes := NonBlankValues(Trips(f, env), ServiceId), NonBlankValues(Trips(f, env), ShapeId);
    RowsInMembers(f.calendar.rows, ServiceId, services);
    RowsInMembers(f.calendarDates.rows, ServiceId, services);
    RowsInMembers(f.shapes.rows, ShapeId, shapes);
    NamedIs(out.trips.rows, services, r, ServiceId);
    NamedIs(out.trips.rows, shapes, r, ShapeId);
  }

  /** Transfers are written when both their ends are kept stops. */
  lemma TransferRowsWritten(f: Feed, env: Env, out: Feed, kept: set<Field>, r: Row)
    requires RectangularFeed(f) && Filtered(f, env, out, kept)
    ensures r in out.transfers.rows
       <==> r in f.transfers.rows && Get(r, FromStopId) in kept && Get(r, ToStopId) in kept
  {
    OptionalMembers(f, env, out, kept);
    hide RectangularFeed, Filtered, RowsIn;
    RowsInMembers(f.transfers.rows, FromStopId, kept);
    RowsInMembers(RowsIn(f.transfers.rows, FromStopId, kept), ToStopId, kept);
  }

  /**
   The rows of the written feed, table by table, in terms of the source: agencies that match, routes
   of such an agency, and for the written trips their stop times, frequencies, calendars and
   shapes, and nothing else. The feed's own description is copied.
   */
  lemma WrittenRows(f: Feed, env: Env, out: Feed, kept: set<Field>, r: Row)
    requires RectangularFeed(f) && Filtered(f, env, out, kept)
    ensures r in out.agency.rows <==> r in f.agency.rows && Matched(r, env)
    ensures r in out.routes.rows <==> IsOperated(f, env, r)
    ensures r in out.stopTimes.rows <==> r in f.stopTimes.rows && OfTrip(out.trips.rows, r)
    ensures r in out.frequencies.rows <==> r in f.frequencies.rows && OfTrip(out.trips.rows, r)
    ensures r in out.calendar.rows <==> r in f.calendar.rows && NamedByTrip(out.trips.rows, r, ServiceId)
    ensures r in out.calendarDates.rows <==> r in f.calendarDates.rows && NamedByTrip(out.trips.rows, r, ServiceId)
    ensures r in out.shapes.rows <==> r in f.shapes.rows && NamedByTrip(out.trips.rows, r, ShapeId)
    ensures r in out.transfers.rows
       <==> r in f.transfers.rows && Get(r, FromStopId) in kept && Get(r, ToStopId) in kept
    ensures out.feedInfo == f.feedInfo
  {
    hide *;
    AgencyAndRouteRows(f, env, out, kept);
    TripRowsWritten(f, env, out, kept, r);
    NamedRowsWritten(f, env, out, kept, r);
    TransferRowsWritten(f, env, out, kept, r);
    OptionalMembers(f, env, out, kept);
  }

  /** An optional member the source does not have is not written, whatever else the source holds. */
  lemma AbsentStaysAbsent(f: Feed, env: Env, out: Feed, kept: set<Field>)
    requires Filtered(f, env, out, kept)
    ensures f.calendar.fields == [] ==> out.calendar == Table([], [])
    ensures f.calendarDates.fields == [] ==> out.calendarDates == Table([], [])
    ensures f.shapes.fields == [] ==> out.shapes == Table([], [])
    ensures f.transfers.fields == [] ==> out.transfers == Table([], [])
    ensures f.frequencies.fields == [] ==> out.frequencies == Table([], [])
    ensures f.feedInfo.fields == [] ==> out.feedInfo == Table([], [])
  {
    hide IsClosure, Lists, RowsIn, Trips, TripIds, NonBlankValues, Write;
  }

  // ---------------------------------------------------------------------------------------
  // Times
  // ---------------------------------------------------------------------------------------

  /** The text is three numbers between colons, and `t` is their hours, minutes and seconds in seconds. */
  ghost predicate IsTime(text: string, t: int, env: Env) {
    exists h, m, s ::
      && ':' !in h && ':' !in m && ':' !in s && text == h + ":" + m + ":" + s
      && TimeOfParts(env.parseInt(h), env.parseInt(m), env.parseInt(s), t)
  }

  predicate TimeOfParts(h: Option<int>, m: Option<int>, s: Option<int>, t: int) {
    h.Some? && m.Some? && s.Some? && t == h.value * 3600 + m.value * 60 + s.value
  }

  function Join(parts: seq<string>, sep: char): string
    requires parts != []
  {
    if |parts| == 1 then parts[0] else parts[0] + [sep] + Join(parts[1..], sep)
  }

  lemma {:induction false} SplitJoins(text: string, sep: char)
    ensures Join(Split(text, sep), sep) == text
    ensures forall p | p in Split(text, sep) :: sep !in p
    decreases |text|
  {
    if text != "" {
      SplitJoins(text[1..], sep);
      SplitStep(text, sep, Split(text[1..], sep));
    }
  }

  /** Splitting a text, one character before the rest. */
  lemma SplitStep(text: string, sep: char, rest: seq<string>)
    requires text != "" && rest != [] && Join(rest, sep) == text[1..] && forall p | p in rest :: sep !in p
    ensures var parts := if text[0] == sep then [""] + rest else [[text[0]] + rest[0]] + rest[1..];
            Join(parts, sep) == text && forall p | p in parts :: sep !in p
  {
    assert text == [text[0]] + text[1..];
    if text[0] == sep {
      var parts := [""] + rest;
      assert parts[1..] == rest;
    } else {
      var parts := [[text[0]] + rest[0]] + rest[1..];
      assert parts[1..] == rest[1..];
      FirstPart(text, sep, rest, parts);
    }
  }

  lemma FirstPart(text: string, sep: char, rest: seq<string>, parts: seq<string>)
    requires text != "" && rest != [] && text[0] != sep && text == [text[0]] + Join(rest, sep)
    requires parts == [[text[0]] + rest[0]] + rest[1..] && forall p | p in rest :: sep !in p
    ensures Join(parts, sep) == text && forall p | p in parts :: sep !in p
  {
    assert parts[1..] == rest[1..];
    assert forall p | p in parts :: p == parts[0] || p in rest[1..];
    assert forall p | p in rest[1..] :: p in rest;
    assert rest[0] in rest;
  }

  lemma JoinOfThree(parts: seq<string>, sep: char)
    requires |parts| == 3
    ensures Join(parts, sep) == parts[0] + [sep] + parts[1] + [sep] + parts[2]
  {
    assert Join(parts[1..], sep) == parts[1] + [sep] + Join(parts[1..][1..], sep);
    assert parts[1..][1..] == [parts[2]];
  }

  /** Exactly the texts of three numbers between colons are times. */
  lemma SecsIs(text: string, t: int, env: Env)
    ensures Secs(Some(text), env) == Some(t) <==> IsTime(text, t, env)
  {
    hide *;
    if Secs(Some(text), env) == Some(t) {
      TimeInParts(text, t, env);
    }
    if IsTime(text, t, env) {
      TimeOfText(text, t, env);
    }
  }

  lemma TimeOfText(text: string, t: int, env: Env)
    requires IsTime(text, t, env)
    ensures Secs(Some(text), env) == Some(t)
  {
    hide Secs, Split;
    var h, m, s :|
      && ':' !in h && ':' !in m && ':' !in s && text == h + ":" + m + ":" + s
      && TimeOfParts(env.parseInt(h), env.parseInt(m), env.parseInt(s), t);
    TimeOfThreeParts(h, m, s, env);
  }

  lemma TimeInParts(text: string, t: int, env: Env)
    requires Secs(Some(text), env) == Some(t)
    ensures IsTime(text, t, env)
  {
    var parts := Split(text, ':');
    SplitJoins(text, ':');
    hide Split;
    assert |parts| == 3;
    JoinOfThree(parts, ':');
    hide Join, Secs;
    assert text == parts[0] + ":" + parts[1] + ":" + parts[2];
  }

  /** `t` is an arrival or departure of the trip somewhere in the source. */
  ghost predicate HasTime(f: Feed, env: Env, trip: Row, t: int) {
    exists r, c :: r in f.stopTimes.rows && c in r && (c == ArrivalTime || c == DepartureTime)
      && Agree(r, trip, TripId) && IsTime(r[c], t, env)
  }

  /** The trip has a time, and no rush window between its first and its last. */
  ghost predicate RushAvoided(f: Feed, env: Env, trip: Row) {
    && (exists t :: HasTime(f, env, trip, t))
    && ((forall t | HasTime(f, env, trip, t) :: t <= 25_200) || (forall t | HasTime(f, env, trip, t) :: 32_400 <= t))
    && ((forall t | HasTime(f, env, trip, t) :: t <= 57_600) || (forall t | HasTime(f, env, trip, t) :: 66_600 <= t))
  }

  lemma SecsOfCell(r: Row, c: Column, t: int, env: Env)
    ensures Secs(Get(r, c), env) == Some(t) <==> c in r && IsTime(r[c], t, env)
  {
    if c in r { SecsIs(r[c], t, env); }
    hide IsTime, Split;
  }

  lemma TimesAre(f: Feed, env: Env, trip: Row, t: int)
    requires trip in Trips(f, env)
    ensures t in TimesOf(StopTimes(f, env), Get(trip, TripId), env) <==> HasTime(f, env, trip, t)
  {
    hide *;
    if t in TimesOf(StopTimes(f, env), Get(trip, TripId), env) {
      TimeIsKnown(f, env, trip, t);
    }
    if HasTime(f, env, trip, t) {
      KnownTimeIsTime(f, env, trip, t);
    }
  }

  lemma TimeIsKnown(f: Feed, env: Env, trip: Row, t: int)
    requires t in TimesOf(StopTimes(f, env), Get(trip, TripId), env)
    ensures HasTime(f, env, trip, t)
  {
    RowsInMembers(f.stopTimes.rows, TripId, TripIds(f, env));
    hide Secs, IsTime, RowsIn, Agree, Get;
    var r, c :| r in StopTimes(f, env) && c in TIME_COLUMNS && Get(r, TripId) == Get(trip, TripId)
      && Secs(Get(r, c), env) == Some(t);
    SecsOfCell(r, c, t, env);
    AgreeIs(r, trip, TripId);
  }

  lemma KnownTimeIsTime(f: Feed, env: Env, trip: Row, t: int)
    requires trip in Trips(f, env) && HasTime(f, env, trip, t)
    ensures t in TimesOf(StopTimes(f, env), Get(trip, TripId), env)
  {
    RowsInMembers(f.stopTimes.rows, TripId, TripIds(f, env));
    ValuesHas(Trips(f, env), TripId, trip);
    hide Secs, IsTime, RowsIn, Trips, Agree, Get;
    var r, c :| r in f.stopTimes.rows && c in r && (c == ArrivalTime || c == DepartureTime)
      && Agree(r, trip, TripId) && IsTime(r[c], t, env);
    SecsOfCell(r, c, t, env);
    AgreeIs(r, trip, TripId);
    assert c in TIME_COLUMNS && r in StopTimes(f, env);
  }

  lemma SomeTime(times: set<int>)
    ensures times != {} <==> exists t :: t in times
  {
    if forall t :: t !in times {
      assert times == {};
    }
  }

  lemma RushAvoidedIs(f: Feed, env: Env, trip: Row)
    requires trip in Trips(f, env)
    ensures OffPeak(TimesOf(StopTimes(f, env), Get(trip, TripId), env)) <==> RushAvoided(f, env, trip)
  {
    var times := TimesOf(StopTimes(f, env), Get(trip, TripId), env);
    OffPeakIs(times);
    hide OffPeak, TimesOf, HasTime, Trips;
    forall t
      ensures t in times <==> HasTime(f, env, trip, t)
    {
      TimesAre(f, env, trip, t);
    }
    SomeTime(times);
    assert (exists t :: HasTime(f, env, trip, t)) <==> exists t :: t in times;
  }

  // ---------------------------------------------------------------------------------------
  // The repair in the output
  // ---------------------------------------------------------------------------------------

  predicate Bikeable(trip: Row) { BikesAllowed in trip && trip[BikesAllowed] == "1" }

  /** The trip runs on a route of a matching agency whose type is 1, the metro. */
  ghost predicate OnMetro(f: Feed, env: Env, trip: Row) {
    exists route ::
      IsOperated(f, env, route) && Agree(trip, route, RouteId) && RouteType in route && route[RouteType] == "1"
  }

  /** A served trip with this trip's id is on the metro and not marked. */
  ghost predicate MarkedByFeed(f: Feed, env: Env, trip: Row) {
    exists x :: IsServed(f, env, x) && Agree(x, trip, TripId) && OnMetro(f, env, x) && !Bikeable(x)
  }

  lemma OnMetroIs(f: Feed, env: Env, trip: Row)
    ensures IsCandidate(trip, MetroIds(Routes(f, env))) <==> OnMetro(f, env, trip) && !Bikeable(trip)
  {
    OperatedRoutes(f, env);
    hide IsOperated, Routes, Agree;
    if IsCandidate(trip, MetroIds(Routes(f, env))) {
      var route :| route in Routes(f, env) && Get(route, RouteType) == Some("1")
        && Get(route, RouteId) == Get(trip, RouteId);
      AgreeIs(trip, route, RouteId);
    }
    if OnMetro(f, env, trip) {
      var route :|
        IsOperated(f, env, route) && Agree(trip, route, RouteId) && RouteType in route && route[RouteType] == "1";
      AgreeIs(trip, route, RouteId);
      assert route in Routes(f, env);
    }
  }

  lemma MarkedIs(f: Feed, env: Env, trip: Row)
    ensures Get(trip, TripId) in Candidates(f, env) <==> MarkedByFeed(f, env, trip)
  {
    ServedTrips(f, env);
    hide IsServed, Trips, Agree, OnMetro, IsCandidate, Bikeable, Get;
    if Get(trip, TripId) in Candidates(f, env) {
      var x :| x in Trips(f, env) && IsCandidate(x, MetroIds(Routes(f, env))) && Get(x, TripId) == Get(trip, TripId);
      OnMetroIs(f, env, x);
      AgreeIs(x, trip, TripId);
    }
    if MarkedByFeed(f, env, trip) {
      var x :| IsServed(f, env, x) && Agree(x, trip, TripId) && OnMetro(f, env, x) && !Bikeable(x);
      OnMetroIs(f, env, x);
      AgreeIs(x, trip, TripId);
    }
  }

  lemma RepairedIs(f: Feed, env: Env, trip: Row)
    requires trip in Trips(f, env)
    ensures IsRepaired(trip, Candidates(f, env), StopTimes(f, env), env)
       <==> MarkedByFeed(f, env, trip) && RushAvoided(f, env, trip)
  {
    MarkedIs(f, env, trip);
    RushAvoidedIs(f, env, trip);
    hide Candidates, StopTimes, MarkedByFeed, RushAvoided, OffPeak, TimesOf, Trips;
  }

  /** `q` is `trip` as it is written: all but one column untouched, and that one set just by the repair. */
  ghost predicate WrittenFor(f: Feed, env: Env, trip: Row, q: Row) {
    && (forall c | c != BikesAllowed :: Agree(trip, q, c))
    && (Bikeable(q) <==> Bikeable(trip) || (MarkedByFeed(f, env, trip) && RushAvoided(f, env, trip)))
    && (Bikeable(q) || BikesAllowed !in trip || q == trip)
  }

  lemma WrittenForIs(f: Feed, env: Env, trip: Row, q: Row)
    requires trip in Trips(f, env) && WrittenTripOk(f, env, trip, q)
    ensures WrittenFor(f, env, trip, q)
  {
    RepairedIs(f, env, trip);
    hide Candidates, StopTimes, IsRepaired, MarkedByFeed, RushAvoided, Trips, Agree;
    forall c | c != BikesAllowed
      ensures Agree(trip, q, c)
    {
      AgreeIs(trip, q, c);
    }
  }

  /**
   Trip by trip, for every feed: the trips served by a matching agency are written, one row for each,
   and a trip turns bikeable exactly when it has times, none of them across a rush window, and a
   served trip of its id is on a metro route and not marked bikeable.
   */
  lemma RepairInTheOutput(f: Feed, env: Env, out: Feed, kept: set<Field>, i: nat)
    requires RectangularFeed(f) && Filtered(f, env, out, kept) && i < |out.trips.rows|
    ensures |out.trips.rows| == |Trips(f, env)| && forall r :: r in Trips(f, env) <==> IsServed(f, env, r)
    ensures WrittenFor(f, env, Trips(f, env)[i], out.trips.rows[i])
  {
    hide *;
    TripsWritten(f, env, out, kept);
    ServedTrips(f, env);
    var r := Trips(f, env)[i];
    assert r in Trips(f, env);
    WrittenForIs(f, env, r, out.trips.rows[i]);
  }

  /**
   With unique trip ids, a written trip goes from another value to bikeable if and only if a route of
   a matching agency with its route id has type 1, and its times avoid the rush windows.
   */
  lemma OnlyMetroTripsAreRepaired(f: Feed, env: Env, out: Feed, kept: set<Field>, trip: Row, q: Row)
    requires RectangularFeed(f) && Filtered(f, env, out, kept)
    requires trip in f.trips.rows && q in out.trips.rows && Agree(trip, q, TripId)
    requires forall x | x in f.trips.rows && Agree(x, trip, TripId) :: x == trip
    ensures forall c | c != BikesAllowed :: Agree(trip, q, c)
    ensures !Bikeable(trip) ==> (Bikeable(q) <==> OnMetro(f, env, trip) && RushAvoided(f, env, trip))
    ensures Bikeable(trip) ==> q == trip
  {
    hide Filtered, RectangularFeed, OnMetro, RushAvoided, Trips, IsOperated;
    var i: nat :| i < |out.trips.rows| && out.trips.rows[i] == q;
    RepairInTheOutput(f, env, out, kept, i);
    var r := Trips(f, env)[i];
    assert r in Trips(f, env) && r in f.trips.rows && Agree(r, q, TripId);
    assert r == trip;
    assert IsServed(f, env, trip);
    if Bikeable(trip) {
      forall c
        ensures Agree(trip, q, c)
      {}
      SameRow(trip, q);
    }
  }

  lemma SameRow(r: Row, q: Row)
    requires forall c :: Agree(r, q, c)
    ensures q == r
  {
    assert forall c :: c in r <==> c in q by {
      forall c
        ensures c in r <==> c in q
      {
        assert Agree(r, q, c);
      }
    }
    forall c | c in r
      ensures q[c] == r[c]
    {
      assert Agree(r, q, c);
    }
  }

  lemma AnyRepairedIs(f: Feed, env: Env)
    ensures AnyRepaired(f, env)
       <==> exists r :: IsServed(f, env, r) && MarkedByFeed(f, env, r) && RushAvoided(f, env, r)
  {
    ServedTrips(f, env);
    hide IsServed, MarkedByFeed, RushAvoided, Trips, IsRepaired, Candidates, StopTimes;
    forall r | r in Trips(f, env)
      ensures IsRepaired(r, Candidates(f, env), StopTimes(f, env), env)
         <==> MarkedByFeed(f, env, r) && RushAvoided(f, env, r)
    {
      RepairedIs(f, env, r);
    }
  }

  /** The trips' header stays, but for a column for bicycles if it had none and some trip needs it. */
  lemma TripsHeader(f: Feed, env: Env, out: Feed, kept: set<Field>)
    requires RectangularFeed(f) && Filtered(f, env, out, kept)
    ensures out.trips.fields
         == if BikesAllowed !in f.trips.fields
               && exists r :: IsServed(f, env, r) && MarkedByFeed(f, env, r) && RushAvoided(f, env, r)
            then f.trips.fields + [BikesAllowed] else f.trips.fields
  {
    TripsWritten(f, env, out, kept);
    AnyRepairedIs(f, env);
    hide Filtered, RectangularFeed, IsServed, MarkedByFeed, RushAvoided, AnyRepaired;
  }

  /** The last of the rows with the stop id is at `i`. */
  ghost predicate IsLastOf(rows: seq<Row>, id: string, i: int) {
    0 <= i < |rows| && Get(rows[i], StopId) == Some(id) && forall j | i < j < |rows| :: Get(rows[j], StopId) != Some(id)
  }

  /** Of several rows with one stop id the last one counts. */
  lemma {:induction false} LastStopCounts(rows: seq<Row>, id: string)
    requires HasColumn(rows, StopId)
    ensures id in StopTable(rows) <==> exists i :: IsLastOf(rows, id, i)
    ensures forall i | IsLastOf(rows, id, i) :: StopTable(rows)[id] == rows[i]
    decreases |rows|
  {
    if rows != [] {
      var n := |rows| - 1;
      LastStopCounts(rows[..n], id);
      StopTableStep(rows);
      hide StopTable, IsLastOf, HasColumn;
      if rows[n][StopId] == id {
        LastIsLast(rows, id);
        assert IsLastOf(rows, id, n);
      } else {
        forall i
          ensures IsLastOf(rows, id, i) <==> IsLastOf(rows[..n], id, i)
        {
          NotTheLast(rows, id, i);
        }
        forall i | IsLastOf(rows, id, i)
          ensures StopTable(rows)[id] == rows[i]
        {
          InBounds(rows[..n], id, i);
        }
      }
    } else {
      hide HasColumn;
    }
  }

  lemma StopTableStep(rows: seq<Row>)
    requires HasColumn(rows, StopId) && rows != []
    ensures var n := |rows| - 1;
            && HasColumn(rows[..n], StopId) && StopId in rows[n]
            && StopTable(rows) == StopTable(rows[..n])[rows[n][StopId] := rows[n]]
  {}

  lemma InBounds(rows: seq<Row>, id: string, i: int)
    requires IsLastOf(rows, id, i)
    ensures 0 <= i < |rows|
  {}

  lemma LastIsLast(rows: seq<Row>, id: string)
    requires rows != [] && StopId in rows[|rows| - 1] && rows[|rows| - 1][StopId] == id
    ensures forall i :: IsLastOf(rows, id, i) <==> i == |rows| - 1
  {}

  lemma NotTheLast(rows: seq<Row>, id: string, i: int)
    requires rows != [] && StopId in rows[|rows| - 1] && rows[|rows| - 1][StopId] != id
    ensures IsLastOf(rows, id, i) <==> IsLastOf(rows[..|rows| - 1], id, i)
  {
    hide Get;
    var before := rows[..|rows| - 1];
    assert forall j | 0 <= j < |before| :: before[j] == rows[j];
    assert Get(rows[|rows| - 1], StopId) != Some(id) by { LastText(rows, id); }
  }

  lemma LastText(rows: seq<Row>, id: string)
    requires rows != [] && StopId in rows[|rows| - 1] && rows[|rows| - 1][StopId] != id
    ensures Get(rows[|rows| - 1], StopId) != Some(id)
  {}
}
