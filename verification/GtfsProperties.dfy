/**
 What the written feed promises: references resolve exactly where they did in the source, the
 repair touches exactly the off-peak metro trips, and filtering the result again changes nothing.
 */
module GtfsProperties {
  import opened Wrappers
  import opened Gtfs
  import opened GtfsFilter

  // ---------------------------------------------------------------------------------------
  // Selections and written rows
  // ---------------------------------------------------------------------------------------

  lemma {:induction false} FilterMembers(rows: seq<Row>, keep: Row -> bool)
    ensures forall r :: r in Filter(rows, keep) <==> r in rows && keep(r)
    decreases |rows|
  {
    if rows != [] {
      var n := |rows| - 1;
      assert rows == rows[..n] + [rows[n]];
      FilterMembers(rows[..n], keep);
    }
  }

  lemma {:induction false} FilterFixed(rows: seq<Row>, keep: Row -> bool)
    requires forall r | r in rows :: keep(r)
    ensures Filter(rows, keep) == rows
    decreases |rows|
  {
    if rows != [] {
      var n := |rows| - 1;
      assert rows == rows[..n] + [rows[n]];
      FilterFixed(rows[..n], keep);
    }
  }

  lemma RowsInMembers(rows: seq<Row>, column: Column, values: set<Field>)
    ensures forall r :: r in RowsIn(rows, column, values) <==> r in rows && Get(r, column) in values
  {
    FilterMembers(rows, r => Get(r, column) in values);
  }

  lemma RowsInFixed(rows: seq<Row>, column: Column, values: set<Field>)
    requires forall r | r in rows :: Get(r, column) in values
    ensures RowsIn(rows, column, values) == rows
  {
    FilterFixed(rows, r => Get(r, column) in values);
  }

  /** Writing rows that already have the header's columns writes them as they are. */
  lemma WriteIsExact(fields: seq<Column>, rows: seq<Row>)
    requires forall r | r in rows :: r.Keys == FieldSet(fields)
    ensures Write(fields, rows) == Table(fields, rows)
  {
    forall i | 0 <= i < |rows|
      ensures WriteRow(fields, rows[i]) == rows[i]
    {
      assert rows[i].Keys == FieldSet(fields);
    }
  }

  lemma NoRowsLeft(rows: seq<Row>, all: seq<Row>)
    requires forall r | r in rows :: r in all
    ensures all == [] ==> rows == []
  {
    if rows != [] {
      assert rows[0] in all;
    }
  }

  lemma CopyIsExact(t: Table, rows: seq<Row>)
    requires Rectangular(t) && forall r | r in rows :: r in t.rows
    ensures Copy(t, rows) == Table(t.fields, rows)
  {
    if t.fields == [] {
      NoRowsLeft(rows, t.rows);
    } else {
      WriteIsExact(t.fields, rows);
    }
  }

  /** An optional member restricted to a set of values of one column. */
  lemma CopyOfRowsIn(t: Table, column: Column, values: set<Field>)
    requires Rectangular(t)
    ensures Copy(t, RowsIn(t.rows, column, values)) == Table(t.fields, RowsIn(t.rows, column, values))
    ensures Rectangular(Table(t.fields, RowsIn(t.rows, column, values)))
  {
    RowsInMembers(t.rows, column, values);
    CopyIsExact(t, RowsIn(t.rows, column, values));
    var rows := RowsIn(t.rows, column, values);
    NoRowsLeft(rows, t.rows);
  }

  lemma AgencyRows(f: Feed, env: Env)
    ensures forall r :: r in Agencies(f, env) <==> r in f.agency.rows && AgencyMatches(r, env)
  {
    FilterMembers(f.agency.rows, r => AgencyMatches(r, env));
  }

  /** The rows written under a header, cell by cell; a cell that is missing is written blank. */
  ghost predicate WrittenAs(t: Table, fields: seq<Column>, rows: seq<Row>) {
    && t.fields == fields && |t.rows| == |rows|
    && forall i, c | 0 <= i < |rows| :: Get(t.rows[i], c) == if c in fields then Some(TextOf(rows[i], c)) else None
  }

  /**
   The required members are written with their selected rows in order, cell by cell; rows that have
   exactly the header's columns are written as they were read.
   */
  lemma RequiredMembers(f: Feed, env: Env, out: Feed, kept: set<Field>)
    requires Filtered(f, env, out, kept)
    ensures WrittenAs(out.agency, f.agency.fields, Agencies(f, env))
    ensures WrittenAs(out.routes, f.routes.fields, Routes(f, env))
    ensures WrittenAs(out.stopTimes, f.stopTimes.fields, StopTimes(f, env))
    ensures RectangularFeed(f) ==>
              && out.agency == Table(f.agency.fields, Agencies(f, env))
              && out.routes == Table(f.routes.fields, Routes(f, env))
              && out.stopTimes == Table(f.stopTimes.fields, StopTimes(f, env))
  {
    MembersWritten(f, env, out, kept);
    hide *;
    WriteIsWrittenAs(f.agency.fields, Agencies(f, env));
    WriteIsWrittenAs(f.routes.fields, Routes(f, env));
    WriteIsWrittenAs(f.stopTimes.fields, StopTimes(f, env));
    if RectangularFeed(f) { RectangularMembers(f, env); }
  }

  lemma WriteIsWrittenAs(fields: seq<Column>, rows: seq<Row>)
    ensures WrittenAs(Write(fields, rows), fields, rows)
  {}

  lemma RectangularMembers(f: Feed, env: Env)
    requires RectangularFeed(f)
    ensures Write(f.agency.fields, Agencies(f, env)) == Table(f.agency.fields, Agencies(f, env))
    ensures Write(f.routes.fields, Routes(f, env)) == Table(f.routes.fields, Routes(f, env))
    ensures Write(f.stopTimes.fields, StopTimes(f, env)) == Table(f.stopTimes.fields, StopTimes(f, env))
  {
    hide Write, AgencyIds, TripIds;
    AgencyRows(f, env);
    WriteIsExact(f.agency.fields, Agencies(f, env));
    RowsInMembers(f.routes.rows, AgencyId, AgencyIds(f, env));
    WriteIsExact(f.routes.fields, Routes(f, env));
    RowsInMembers(f.stopTimes.rows, TripId, TripIds(f, env));
    WriteIsExact(f.stopTimes.fields, StopTimes(f, env));
  }

  lemma MembersWritten(f: Feed, env: Env, out: Feed, kept: set<Field>)
    requires Filtered(f, env, out, kept)
    ensures out.agency == Write(f.agency.fields, Agencies(f, env))
    ensures out.routes == Write(f.routes.fields, Routes(f, env))
    ensures out.stopTimes == Write(f.stopTimes.fields, StopTimes(f, env))
  {}

  lemma OptionalMembers(f: Feed, env: Env, out: Feed, kept: set<Field>)
    requires RectangularFeed(f) && Filtered(f, env, out, kept)
    ensures var services := NonBlankValues(Trips(f, env), ServiceId);
            && out.calendar == Table(f.calendar.fields, RowsIn(f.calendar.rows, ServiceId, services))
            && out.calendarDates == Table(f.calendarDates.fields, RowsIn(f.calendarDates.rows, ServiceId, services))
    ensures out.shapes == Table(f.shapes.fields, RowsIn(f.shapes.rows, ShapeId, NonBlankValues(Trips(f, env), ShapeId)))
    ensures out.frequencies == Table(f.frequencies.fields, RowsIn(f.frequencies.rows, TripId, TripIds(f, env)))
    ensures out.feedInfo == f.feedInfo
    ensures out.transfers
        == Table(f.transfers.fields, RowsIn(RowsIn(f.transfers.rows, FromStopId, kept), ToStopId, kept))
    ensures Rectangular(out.calendar) && Rectangular(out.calendarDates) && Rectangular(out.shapes)
    ensures Rectangular(out.frequencies) && Rectangular(out.feedInfo) && Rectangular(out.transfers)
  {
    hide Trips, TripIds, IsClosure, Lists;
    var services := NonBlankValues(Trips(f, env), ServiceId);
    CopyOfRowsIn(f.calendar, ServiceId, services);
    CopyOfRowsIn(f.calendarDates, ServiceId, services);
    CopyOfRowsIn(f.shapes, ShapeId, NonBlankValues(Trips(f, env), ShapeId));
    CopyOfRowsIn(f.frequencies, TripId, TripIds(f, env));
    CopyIsExact(f.feedInfo, f.feedInfo.rows);
    var from := Table(f.transfers.fields, RowsIn(f.transfers.rows, FromStopId, kept));
    CopyOfRowsIn(f.transfers, FromStopId, kept);
    CopyOfRowsIn(from, ToStopId, kept);
  }

  /** The stops that are written: their ids are the kept ids that the source knows. */
  lemma StopMembers(f: Feed, env: Env, out: Feed, kept: set<Field>)
    requires RectangularFeed(f) && Filtered(f, env, out, kept)
    ensures out.stops.fields == f.stops.fields
    ensures Lists(out.stops.rows, KeptStops(StopTable(f.stops.rows), kept))
    ensures Rectangular(out.stops) && HasColumn(out.stops.rows, StopId)
    ensures forall s :: s in Values(out.stops.rows, StopId) <==> s in kept && s in Values(f.stops.rows, StopId)
  {
    hide IsClosure;
    var stops := StopTable(f.stops.rows);
    StopTableKeys(f.stops.rows);
    var rows :| Lists(rows, KeptStops(stops, kept)) && out.stops == Write(f.stops.fields, rows);
    WriteIsExact(f.stops.fields, rows);
    forall s
      ensures s in Values(rows, StopId) <==> s in kept && s in Values(f.stops.rows, StopId)
    {
      if s in Values(rows, StopId) {
        var r :| r in rows && Get(r, StopId) == s;
        assert r in KeptStops(stops, kept);
      }
      if s in kept && s in Values(f.stops.rows, StopId) {
        var r :| r in f.stops.rows && Get(r, StopId) == s;
        assert s.value in stops && stops[s.value] in KeptStops(stops, kept);
        assert stops[s.value] in rows;
      }
    }
  }

  // ---------------------------------------------------------------------------------------
  // Times
  // ---------------------------------------------------------------------------------------

  lemma {:induction false} SplitAtFirst(a: string, rest: string, sep: char)
    requires sep !in a
    ensures Split(a + [sep] + rest, sep) == [a] + Split(rest, sep)
    decreases |a|
  {
    if a == "" {
      assert a + [sep] + rest == [sep] + rest;
    } else {
      var text := a + [sep] + rest;
      assert text[1..] == a[1..] + [sep] + rest;
      SplitAtFirst(a[1..], rest, sep);
      assert [a[0]] + a[1..] == a;
    }
  }

  lemma {:induction false} SplitNone(a: string, sep: char)
    requires sep !in a
    ensures Split(a, sep) == [a]
    decreases |a|
  {
    if a != "" {
      SplitNone(a[1..], sep);
      assert [a[0]] + a[1..] == a;
    }
  }

  /** Three colon-separated numbers are a time, with no upper limit on the hours; nothing else is. */
  lemma TimeOfThreeParts(h: string, m: string, s: string, env: Env)
    requires ':' !in h && ':' !in m && ':' !in s
    ensures Secs(Some(h + ":" + m + ":" + s), env)
         == match (env.parseInt(h), env.parseInt(m), env.parseInt(s))
            case (Some(hours), Some(minutes), Some(seconds)) => Some(hours * 3600 + minutes * 60 + seconds)
            case _ => None
  {
    var text := h + ":" + m + ":" + s;
    assert text == h + [':'] + (m + ":" + s);
    assert m + ":" + s == m + [':'] + s;
    SplitAtFirst(h, m + ":" + s, ':');
    SplitAtFirst(m, s, ':');
    SplitNone(s, ':');
    assert Split(text, ':') == [h, m, s];
  }

  // ---------------------------------------------------------------------------------------
  // The repair
  // ---------------------------------------------------------------------------------------

  lemma TripMembers(f: Feed, env: Env)
    ensures forall r :: r in Trips(f, env) <==> r in f.trips.rows && Get(r, RouteId) in RouteIds(f, env)
  {
    RowsInMembers(f.trips.rows, RouteId, RouteIds(f, env));
  }

  /** Trips that agree on every column but `bikes_allowed`. */
  ghost predicate SameButBikes(r: Row, q: Row) {
    forall c | c != BikesAllowed :: Get(q, c) == Get(r, c)
  }

  lemma WrittenTrip(fields: seq<Column>, written: seq<Column>, r: Row, repaired: Row)
    requires r.Keys == FieldSet(fields)
    requires repaired == r || (repaired == r[BikesAllowed := "1"] && BikesAllowed in written)
    requires written == fields || written == fields + [BikesAllowed]
    ensures WriteRow(written, repaired).Keys == FieldSet(written)
    ensures SameButBikes(r, WriteRow(written, repaired))
    ensures Get(WriteRow(written, repaired), BikesAllowed) == Some("1")
       <==> repaired == r[BikesAllowed := "1"]
    ensures repaired == r && BikesAllowed in r ==> WriteRow(written, repaired)[BikesAllowed] == r[BikesAllowed]
  {
    assert forall c ::
        c in FieldSet(written)
        <==> c in FieldSet(fields) || (written == fields + [BikesAllowed] && c == BikesAllowed);
    if Get(r, BikesAllowed) == Some("1") { assert r[BikesAllowed := "1"] == r; }
  }

  /** `q` is trip `r` as it must be written. */
  ghost predicate WrittenTripOk(f: Feed, env: Env, r: Row, q: Row) {
    var repaired := IsRepaired(r, Candidates(f, env), StopTimes(f, env), env);
    && SameButBikes(r, q)
    && (Get(q, BikesAllowed) == Some("1") <==> Get(r, BikesAllowed) == Some("1") || repaired)
    && (BikesAllowed in r && !repaired ==> q == r)
  }

  function TripAsWritten(f: Feed, env: Env, r: Row): Row {
    WriteRow(TripFields(f, env), Repair(r, Candidates(f, env), StopTimes(f, env), env))
  }

  lemma TripWritten(f: Feed, env: Env, r: Row)
    requires r.Keys == FieldSet(f.trips.fields) && r in Trips(f, env)
    ensures TripAsWritten(f, env, r).Keys == FieldSet(TripFields(f, env))
    ensures WrittenTripOk(f, env, r, TripAsWritten(f, env, r))
  {
    hide Candidates, StopTimes, IsRepaired;
    var repaired := Repair(r, Candidates(f, env), StopTimes(f, env), env);
    WrittenTrip(f.trips.fields, TripFields(f, env), r, repaired);
    if BikesAllowed in r && repaired == r { assert WriteRow(TripFields(f, env), r) == r; }
  }

  lemma TripRows(f: Feed, env: Env, out: Feed, kept: set<Field>)
    requires Filtered(f, env, out, kept)
    ensures out.trips.fields == TripFields(f, env) && |out.trips.rows| == |Trips(f, env)|
    ensures forall i | 0 <= i < |out.trips.rows| :: out.trips.rows[i] == TripAsWritten(f, env, Trips(f, env)[i])
  {
    assert out.trips == Write(TripFields(f, env), RepairedTrips(f, env));
    hide Filtered, Trips, TripFields, WriteRow, Repair;
  }

  lemma TripKeys(f: Feed, env: Env, r: Row)
    requires RectangularFeed(f) && r in Trips(f, env)
    ensures r.Keys == FieldSet(f.trips.fields)
  {
    TripMembers(f, env);
  }

  lemma RectangularFrom(t: Table)
    requires t.fields == [] ==> t.rows == []
    requires forall i | 0 <= i < |t.rows| :: t.rows[i].Keys == FieldSet(t.fields)
    ensures Rectangular(t)
  {}

  /** A feed that can be filtered has a header for its trips, and so does the written one. */
  lemma TripHeader(f: Feed, env: Env)
    requires Filterable(f, env)
    ensures TripFields(f, env) != []
  {
    hide AnyRepaired;
  }

  /**
   Every kept trip is written, in order, with all its columns as they were; its `bikes_allowed`
   is 1 exactly when it was 1 already or the repair applies.
   */
  lemma TripsWritten(f: Feed, env: Env, out: Feed, kept: set<Field>)
    requires RectangularFeed(f) && Filtered(f, env, out, kept)
    ensures out.trips.fields == TripFields(f, env) && |out.trips.rows| == |Trips(f, env)|
    ensures Rectangular(out.trips)
    ensures forall i | 0 <= i < |out.trips.rows| :: WrittenTripOk(f, env, Trips(f, env)[i], out.trips.rows[i])
  {
    assert Filterable(f, env);
    hide *;
    TripRows(f, env, out, kept);
    TripHeader(f, env);
    forall i | 0 <= i < |out.trips.rows|
      ensures out.trips.rows[i].Keys == FieldSet(out.trips.fields)
      ensures WrittenTripOk(f, env, Trips(f, env)[i], out.trips.rows[i])
    {
      TripKeys(f, env, Trips(f, env)[i]);
      TripWritten(f, env, Trips(f, env)[i]);
    }
    RectangularFrom(out.trips);
  }

  /**
   The times, at least one, lie all before seven or all after nine, and all before four or all after
   half past six, in seconds of the day and with those moments themselves on either side.
   */
  ghost predicate AvoidsRush(times: set<int>) {
    && times != {}
    && ((forall t | t in times :: t <= 25_200) || (forall t | t in times :: 32_400 <= t))
    && ((forall t | t in times :: t <= 57_600) || (forall t | t in times :: 66_600 <= t))
  }

  lemma OffPeakIs(times: set<int>)
    ensures OffPeak(times) <==> AvoidsRush(times)
  {
    assert RUSH_WINDOWS == [(25_200, 32_400), (57_600, 66_600)];
    assert RUSH_WINDOWS[0] in RUSH_WINDOWS && RUSH_WINDOWS[1] in RUSH_WINDOWS;
  }

  /** With unique trip ids the repaired trips are exactly the off-peak metro trips marked not-bikeable. */
  lemma RepairIsExact(f: Feed, env: Env, trip: Row)
    requires trip in Trips(f, env)
    requires forall r | r in Trips(f, env) && Get(r, TripId) == Get(trip, TripId) :: r == trip
    ensures IsRepaired(trip, Candidates(f, env), StopTimes(f, env), env)
       <==> && (exists route :: route in Routes(f, env) && Get(route, RouteType) == Some("1")
                                && Get(route, RouteId) == Get(trip, RouteId))
            && Get(trip, BikesAllowed) != Some("1")
            && AvoidsRush(TimesOf(StopTimes(f, env), Get(trip, TripId), env))
  {
    OffPeakIs(TimesOf(StopTimes(f, env), Get(trip, TripId), env));
    hide Trips, StopTimes, OffPeak, AvoidsRush, Routes;
    var metro := MetroIds(Routes(f, env));
    assert Get(trip, TripId) in Candidates(f, env) <==> IsCandidate(trip, metro);
    assert Get(trip, RouteId) in metro <==>
           exists route :: route in Routes(f, env) && Get(route, RouteType) == Some("1")
                           && Get(route, RouteId) == Get(trip, RouteId);
  }

  // ---------------------------------------------------------------------------------------
  // Rush hours of later days
  // ---------------------------------------------------------------------------------------

  const HOUR: int := 3600
  const DAY_SECONDS: int := 24 * HOUR

  /** The span meets a rush window of the day that many days later. */
  predicate OverlapsRushOn(day: int, span: Span) {
    OverlapsRush(span.0 - day * DAY_SECONDS, span.1 - day * DAY_SECONDS)
  }

  ghost predicate QuietEveryDay(span: Span) {
    forall day: int :: !OverlapsRushOn(day, span)
  }

  /** Counted from nine o'clock before it starts, the span ends by 16:00, or runs from 18:30 to 7:00. */
  predicate InOneGap(span: Span) {
    var day := (span.0 - 9 * HOUR) / DAY_SECONDS;
    var lo, hi := span.0 - day * DAY_SECONDS, span.1 - day * DAY_SECONDS;
    hi <= 16 * HOUR || (18 * HOUR + 30 * 60 <= lo && hi <= 31 * HOUR)
  }

  lemma RushOn(day: int, span: Span)
    ensures OverlapsRushOn(day, span)
       <==> || (span.0 - day * DAY_SECONDS < 9 * HOUR && span.1 - day * DAY_SECONDS > 7 * HOUR)
            || (span.0 - day * DAY_SECONDS < 18 * HOUR + 30 * 60 && span.1 - day * DAY_SECONDS > 16 * HOUR)
  {
    RushIs(span.0 - day * DAY_SECONDS, span.1 - day * DAY_SECONDS);
  }

  lemma RushIs(lo: int, hi: int)
    ensures OverlapsRush(lo, hi) <==> (lo < 9 * HOUR && hi > 7 * HOUR) || (lo < 18 * HOUR + 30 * 60 && hi > 16 * HOUR)
  {
    assert RUSH_WINDOWS[0] in RUSH_WINDOWS && RUSH_WINDOWS[1] in RUSH_WINDOWS;
  }

  /** A span meets no rush window of any day if and only if it lies in one gap between two of them. */
  lemma QuietIsExact(span: Span)
    requires span.0 <= span.1
    ensures QuietEveryDay(span) <==> InOneGap(span)
  {
    var day := (span.0 - 9 * HOUR) / DAY_SECONDS;
    assert 9 * HOUR <= span.0 - day * DAY_SECONDS < 33 * HOUR;
    if InOneGap(span) {
      forall d: int
        ensures !OverlapsRushOn(d, span)
      {
        RushOn(d, span);
        DaysApart(span.0, span.1, day, d);
      }
    } else {
      RushOn(day, span);
      RushOn(day + 1, span);
      assert OverlapsRushOn(day, span) || OverlapsRushOn(day + 1, span);
    }
  }

  lemma DaysApart(lo: int, hi: int, day: int, d: int)
    ensures d < day ==> lo - d * DAY_SECONDS >= lo - day * DAY_SECONDS + DAY_SECONDS
    ensures d > day ==> hi - d * DAY_SECONDS <= hi - day * DAY_SECONDS - DAY_SECONDS
  {}

  /**
   The repair looks at the windows of the first day only. The span of a repaired trip meets no rush
   window of any day when it ends by 31:00:00, which is seven in the morning of the next day; for
   spans that end later this is so exactly when they lie in one gap.
   */
  lemma RepairedTripsAvoidRush(times: set<int>, span: Span)
    requires IsSpan(times, span) && OffPeak(times) && span.0 >= 0
    ensures QuietEveryDay(span) <==> span.1 <= 31 * HOUR || InOneGap(span)
  {
    SpanDecides(times, span);
    QuietIsExact(span);
    RushIs(span.0, span.1);
  }

  /** A run from 31:30:00 to 32:00:00 is in the rush hour of the next morning, and is repaired. */
  lemma LateRunMeetsRush()
    ensures OffPeak({31 * HOUR + 30 * 60, 32 * HOUR}) && !QuietEveryDay((31 * HOUR + 30 * 60, 32 * HOUR))
  {
    RushOn(1, (31 * HOUR + 30 * 60, 32 * HOUR));
  }

  // ---------------------------------------------------------------------------------------
  // The kept stops
  // ---------------------------------------------------------------------------------------

  /** The stop reached from `s` by following `n` parents, where there are that many. */
  function Climb(stops: map<string, Row>, s: Field, n: nat): Option<Field> {
    if n == 0 then Some(s)
    else match Climb(stops, s, n - 1)
      case Some(t) => if HasParent(stops, t) then Some(ParentOf(stops, t)) else None
      case None => None
  }

  ghost predicate IsAncestor(stops: map<string, Row>, roots: set<Field>, s: Field) {
    exists r, n: nat :: r in roots && Climb(stops, r, n) == Some(s)
  }

  lemma {:induction false} ClimbStays(stops: map<string, Row>, kept: set<Field>, s: Field, n: nat)
    requires Closed(stops, kept) && s in kept
    ensures Climb(stops, s, n).Some? ==> Climb(stops, s, n).value in kept
  {
    if n > 0 { ClimbStays(stops, kept, s, n - 1); }
  }

  /** The kept ids are exactly the referenced stops and all their ancestors. */
  lemma KeptAreAncestors(stops: map<string, Row>, roots: set<Field>, kept: set<Field>)
    requires IsClosure(stops, roots, kept)
    ensures forall s :: s in kept <==> IsAncestor(stops, roots, s)
  {
    var ancestors := set s | s in kept && IsAncestor(stops, roots, s);
    forall r | r in roots
      ensures r in ancestors
    {
      assert Climb(stops, r, 0) == Some(r);
    }
    forall s | s in ancestors && HasParent(stops, s)
      ensures ParentOf(stops, s) in ancestors
    {
      var r, n: nat :| r in roots && Climb(stops, r, n) == Some(s);
      assert Climb(stops, r, n + 1) == Some(ParentOf(stops, s));
    }
    assert Closed(stops, ancestors);
    assert kept <= ancestors;
    forall s | IsAncestor(stops, roots, s)
      ensures s in kept
    {
      var r, n: nat :| r in roots && Climb(stops, r, n) == Some(s);
      ClimbStays(stops, kept, r, n);
    }
  }

  // ---------------------------------------------------------------------------------------
  // Referential integrity
  // ---------------------------------------------------------------------------------------

  lemma ValuesHas(rows: seq<Row>, column: Column, r: Row)
    requires r in rows
    ensures Get(r, column) in Values(rows, column)
  {}

  lemma SameValues(rows: seq<Row>, rows': seq<Row>, column: Column)
    requires |rows| == |rows'| && forall i | 0 <= i < |rows| :: Get(rows'[i], column) == Get(rows[i], column)
    ensures Values(rows', column) == Values(rows, column)
    ensures NonBlankValues(rows', column) == NonBlankValues(rows, column)
  {
    forall v
      ensures v in Values(rows', column) <==> v in Values(rows, column)
    {
      if v in Values(rows, column) {
        var i :| 0 <= i < |rows| && Get(rows[i], column) == v;
        ValuesHas(rows', column, rows'[i]);
      }
      if v in Values(rows', column) {
        var i :| 0 <= i < |rows'| && Get(rows'[i], column) == v;
        ValuesHas(rows, column, rows[i]);
      }
    }
    forall v
      ensures v in NonBlankValues(rows', column) <==> v in Values(rows', column) && NonBlank(v)
      ensures v in NonBlankValues(rows, column) <==> v in Values(rows, column) && NonBlank(v)
    {}
  }

  /** The written trips are the selected ones as far as any other column goes. */
  lemma TripColumns(f: Feed, env: Env, out: Feed, kept: set<Field>, column: Column)
    requires RectangularFeed(f) && Filtered(f, env, out, kept) && column != BikesAllowed
    ensures Values(out.trips.rows, column) == Values(Trips(f, env), column)
    ensures NonBlankValues(out.trips.rows, column) == NonBlankValues(Trips(f, env), column)
  {
    TripsWritten(f, env, out, kept);
    hide RectangularFeed, Filtered, Trips, IsRepaired, Values, NonBlankValues;
    SameValues(Trips(f, env), out.trips.rows, column);
  }

  /** Routes, trips, stop times and frequencies only refer to what was written. */
  lemma InnerReferencesResolve(f: Feed, env: Env, out: Feed, kept: set<Field>)
    requires RectangularFeed(f) && Filtered(f, env, out, kept)
    ensures Values(out.routes.rows, AgencyId) <= Values(out.agency.rows, AgencyId)
    ensures Values(out.trips.rows, RouteId) <= Values(out.routes.rows, RouteId)
    ensures Values(out.stopTimes.rows, TripId) <= Values(out.trips.rows, TripId)
    ensures Values(out.frequencies.rows, TripId) <= Values(out.trips.rows, TripId)
  {
    RequiredMembers(f, env, out, kept);
    OptionalMembers(f, env, out, kept);
    TripColumns(f, env, out, kept, RouteId);
    TripColumns(f, env, out, kept, TripId);
    RowsInMembers(f.routes.rows, AgencyId, AgencyIds(f, env));
    RowsInMembers(f.trips.rows, RouteId, RouteIds(f, env));
    RowsInMembers(f.stopTimes.rows, TripId, TripIds(f, env));
    RowsInMembers(f.frequencies.rows, TripId, TripIds(f, env));
  }

  /** A column restricted to some values keeps exactly those of its values. */
  lemma ValuesOfRowsIn(rows: seq<Row>, column: Column, values: set<Field>)
    ensures Values(RowsIn(rows, column, values), column) == Values(rows, column) * values
  {
    RowsInMembers(rows, column, values);
  }

  /** A trip's service and shape are found in the output exactly when the source had them. */
  lemma ServicesAndShapesResolve(f: Feed, env: Env, out: Feed, kept: set<Field>, trip: Row)
    requires RectangularFeed(f) && Filtered(f, env, out, kept) && trip in out.trips.rows
    ensures var service := Get(trip, ServiceId);
            NonBlank(service) ==>
              && (service in Values(out.calendar.rows, ServiceId) <==> service in Values(f.calendar.rows, ServiceId))
              && (service in Values(out.calendarDates.rows, ServiceId)
                  <==> service in Values(f.calendarDates.rows, ServiceId))
    ensures var shape := Get(trip, ShapeId);
            NonBlank(shape) ==>
              (shape in Values(out.shapes.rows, ShapeId) <==> shape in Values(f.shapes.rows, ShapeId))
  {
    OptionalMembers(f, env, out, kept);
    TripColumns(f, env, out, kept, ServiceId);
    TripColumns(f, env, out, kept, ShapeId);
    hide RectangularFeed, Filtered, RowsIn, Trips;
    var services, shapes := NonBlankValues(Trips(f, env), ServiceId), NonBlankValues(Trips(f, env), ShapeId);
    ValuesOfRowsIn(f.calendar.rows, ServiceId, services);
    ValuesOfRowsIn(f.calendarDates.rows, ServiceId, services);
    ValuesOfRowsIn(f.shapes.rows, ShapeId, shapes);
    assert NonBlank(Get(trip, ServiceId)) ==> Get(trip, ServiceId) in services;
    assert NonBlank(Get(trip, ShapeId)) ==> Get(trip, ShapeId) in shapes;
  }

  /**
   The stop of a written stop time, the parent of a written stop and both ends of a written
   transfer are found among the written stops exactly when the source had them; and a stop is
   written only if a written stop time uses it or it is an ancestor of one that is used.
   */
  lemma StopReferencesResolve(f: Feed, env: Env, out: Feed, kept: set<Field>)
    requires RectangularFeed(f) && Filtered(f, env, out, kept)
    ensures var written, known := Values(out.stops.rows, StopId), Values(f.stops.rows, StopId);
            && (forall r | r in out.stopTimes.rows :: Get(r, StopId) in written <==> Get(r, StopId) in known)
            && (forall r | r in out.stops.rows && NonBlank(Get(r, ParentStation)) ::
                  Get(r, ParentStation) in written <==> Get(r, ParentStation) in known)
            && (forall r | r in out.transfers.rows ::
                  && (Get(r, FromStopId) in written <==> Get(r, FromStopId) in known)
                  && (Get(r, ToStopId) in written <==> Get(r, ToStopId) in known))
            && (forall s | s in written ::
                  IsAncestor(StopTable(f.stops.rows), Values(out.stopTimes.rows, StopId), s))
  {
    var stops := StopTable(f.stops.rows);
    RequiredMembers(f, env, out, kept);
    OptionalMembers(f, env, out, kept);
    StopMembers(f, env, out, kept);
    KeptAreAncestors(stops, StopIds(f, env), kept);
    StopTableKeys(f.stops.rows);
    hide RectangularFeed;
    forall r | r in out.stops.rows && NonBlank(Get(r, ParentStation))
      ensures Get(r, ParentStation) in kept
    {
      var s :| s in stops && Some(s) in kept && stops[s] == r;
      assert HasParent(stops, Some(s)) && ParentOf(stops, Some(s)) == Get(r, ParentStation);
    }
    RowsInMembers(f.transfers.rows, FromStopId, kept);
    RowsInMembers(RowsIn(f.transfers.rows, FromStopId, kept), ToStopId, kept);
  }

  /** Nothing a kept trip needs is dropped: all its stop times and frequencies are written. */
  lemma KeptTripsAreWhole(f: Feed, env: Env, out: Feed, kept: set<Field>, trip: Row, r: Row)
    requires RectangularFeed(f) && Filtered(f, env, out, kept) && trip in out.trips.rows
    requires Get(r, TripId) == Get(trip, TripId)
    ensures r in f.stopTimes.rows <==> r in out.stopTimes.rows
    ensures r in f.frequencies.rows <==> r in out.frequencies.rows
  {
    RequiredMembers(f, env, out, kept);
    OptionalMembers(f, env, out, kept);
    TripColumns(f, env, out, kept, TripId);
    ValuesHas(out.trips.rows, TripId, trip);
    RowsInMembers(f.stopTimes.rows, TripId, TripIds(f, env));
    RowsInMembers(f.frequencies.rows, TripId, TripIds(f, env));
  }

  // ---------------------------------------------------------------------------------------
  // Filtering twice
  // ---------------------------------------------------------------------------------------

  lemma OutputIsRectangular(f: Feed, env: Env, out: Feed, kept: set<Field>)
    requires RectangularFeed(f) && Filtered(f, env, out, kept)
    ensures RectangularFeed(out)
  {
    RequiredMembers(f, env, out, kept);
    OptionalMembers(f, env, out, kept);
    StopMembers(f, env, out, kept);
    TripsWritten(f, env, out, kept);
    AgencyRows(f, env);
    RowsInMembers(f.routes.rows, AgencyId, AgencyIds(f, env));
    RowsInMembers(f.stopTimes.rows, TripId, TripIds(f, env));
    NoRowsLeft(Agencies(f, env), f.agency.rows);
  }

  lemma SameAgencies(f: Feed, env: Env, out: Feed, kept: set<Field>)
    requires RectangularFeed(f) && Filtered(f, env, out, kept)
    ensures Agencies(out, env) == Agencies(f, env)
  {
    RequiredMembers(f, env, out, kept);
    AgencyRows(f, env);
    FilterFixed(Agencies(f, env), r => AgencyMatches(r, env));
  }

  lemma SameRoutes(f: Feed, env: Env, out: Feed, kept: set<Field>)
    requires RectangularFeed(f) && Filtered(f, env, out, kept)
    ensures Routes(out, env) == Routes(f, env)
  {
    SameAgencies(f, env, out, kept);
    RequiredMembers(f, env, out, kept);
    hide RectangularFeed, Filtered, Agencies, RowsIn;
    RowsInMembers(f.routes.rows, AgencyId, AgencyIds(f, env));
    RowsInFixed(Routes(f, env), AgencyId, AgencyIds(f, env));
  }

  /** The second run selects the same agencies and routes, and every trip it reads. */
  lemma SameSelection(f: Feed, env: Env, out: Feed, kept: set<Field>)
    requires RectangularFeed(f) && Filtered(f, env, out, kept)
    ensures Agencies(out, env) == Agencies(f, env)
    ensures Routes(out, env) == Routes(f, env)
    ensures Trips(out, env) == out.trips.rows
  {
    SameAgencies(f, env, out, kept);
    SameRoutes(f, env, out, kept);
    TripColumns(f, env, out, kept, RouteId);
    TripMembers(f, env);
    hide RectangularFeed, Filtered, Agencies, Routes, RowsIn;
    assert RouteIds(out, env) == RouteIds(f, env);
    forall q | q in out.trips.rows
      ensures Get(q, RouteId) in RouteIds(f, env)
    {
      ValuesHas(out.trips.rows, RouteId, q);
    }
    RowsInFixed(out.trips.rows, RouteId, RouteIds(f, env));
  }

  lemma SameTripReferences(f: Feed, env: Env, out: Feed, kept: set<Field>)
    requires RectangularFeed(f) && Filtered(f, env, out, kept)
    ensures TripIds(out, env) == TripIds(f, env)
    ensures NonBlankValues(Trips(out, env), ServiceId) == NonBlankValues(Trips(f, env), ServiceId)
    ensures NonBlankValues(Trips(out, env), ShapeId) == NonBlankValues(Trips(f, env), ShapeId)
    ensures StopTimes(out, env) == StopTimes(f, env)
  {
    SameSelection(f, env, out, kept);
    TripColumns(f, env, out, kept, TripId);
    TripColumns(f, env, out, kept, ServiceId);
    TripColumns(f, env, out, kept, ShapeId);
    RequiredMembers(f, env, out, kept);
    hide Trips, Filtered, RectangularFeed;
    RowsInMembers(f.stopTimes.rows, TripId, TripIds(f, env));
    RowsInFixed(StopTimes(f, env), TripId, TripIds(f, env));
  }

  lemma StillCandidate(f: Feed, env: Env, r: Row, q: Row)
    requires WrittenTripOk(f, env, r, q) && IsCandidate(q, MetroIds(Routes(f, env)))
    ensures IsCandidate(r, MetroIds(Routes(f, env))) && Get(q, TripId) == Get(r, TripId)
    ensures !IsRepaired(r, Candidates(f, env), StopTimes(f, env), env)
  {
    hide MetroIds, Routes, IsRepaired, Candidates, StopTimes, Get;
  }

  lemma CandidateIsListed(f: Feed, env: Env, r: Row)
    requires r in Trips(f, env) && IsCandidate(r, MetroIds(Routes(f, env)))
    ensures Get(r, TripId) in Candidates(f, env)
  {
    hide Trips, IsCandidate, MetroIds, Routes, Get;
  }

  /** A trip that is still a candidate was one before, and was not off-peak. */
  lemma CandidateWasNotOffPeak(f: Feed, env: Env, out: Feed, kept: set<Field>, i: nat)
    requires RectangularFeed(f) && Filtered(f, env, out, kept) && i < |out.trips.rows|
    requires IsCandidate(out.trips.rows[i], MetroIds(Routes(f, env)))
    ensures !OffPeak(TimesOf(StopTimes(f, env), Get(out.trips.rows[i], TripId), env))
  {
    TripsWritten(f, env, out, kept);
    hide *;
    var r := Trips(f, env)[i];
    assert r in Trips(f, env);
    StillCandidate(f, env, r, out.trips.rows[i]);
    CandidateIsListed(f, env, r);
    NotRepairedNotOffPeak(f, env, r);
  }

  lemma NotRepairedNotOffPeak(f: Feed, env: Env, r: Row)
    requires Get(r, TripId) in Candidates(f, env) && !IsRepaired(r, Candidates(f, env), StopTimes(f, env), env)
    ensures !OffPeak(TimesOf(StopTimes(f, env), Get(r, TripId), env))
  {
    hide Candidates, StopTimes, OffPeak, TimesOf, Get;
  }

  /** No trip of the written feed is left to repair. */
  lemma NothingLeftToRepair(f: Feed, env: Env, out: Feed, kept: set<Field>)
    requires RectangularFeed(f) && Filtered(f, env, out, kept)
    ensures !AnyRepaired(out, env)
  {
    SameSelection(f, env, out, kept);
    SameTripReferences(f, env, out, kept);
    hide RectangularFeed, Filtered, Trips, Routes, StopTimes, OffPeak;
    forall id | id in Candidates(out, env)
      ensures !OffPeak(TimesOf(StopTimes(f, env), id, env))
    {
      var c :| c in out.trips.rows && IsCandidate(c, MetroIds(Routes(f, env))) && Get(c, TripId) == id;
      var i: nat :| i < |out.trips.rows| && out.trips.rows[i] == c;
      CandidateWasNotOffPeak(f, env, out, kept, i);
    }
  }

  lemma SameTrips(f: Feed, env: Env, out: Feed, kept: set<Field>)
    requires RectangularFeed(f) && Filtered(f, env, out, kept)
    ensures Write(TripFields(out, env), RepairedTrips(out, env)) == out.trips
  {
    SameSelection(f, env, out, kept);
    NothingLeftToRepair(f, env, out, kept);
    OutputIsRectangular(f, env, out, kept);
    hide Filtered, Trips, IsRepaired, Candidates, StopTimes;
    assert RepairedTrips(out, env) == out.trips.rows by {
      assert forall i | 0 <= i < |out.trips.rows| :: out.trips.rows[i] in Trips(out, env);
    }
    WriteIsExact(out.trips.fields, out.trips.rows);
  }

  /** The stop table of the written feed is the source's, restricted to the kept ids. */
  lemma WrittenStopTable(all: map<string, Row>, kept: set<Field>, rows: seq<Row>)
    requires forall s | s in all :: Get(all[s], StopId) == Some(s)
    requires Lists(rows, KeptStops(all, kept)) && HasColumn(rows, StopId)
    ensures StopTable(rows) == map s | s in all && Some(s) in kept :: all[s]
  {
    StopTableKeys(rows);
    var restricted := map s | s in all && Some(s) in kept :: all[s];
    forall s | s in restricted
      ensures s in StopTable(rows) && StopTable(rows)[s] == restricted[s]
    {
      assert all[s] in KeptStops(all, kept);
      assert all[s] in rows;
      assert StopTable(rows)[s] in KeptStops(all, kept);
    }
    forall s | s in StopTable(rows)
      ensures s in restricted
    {
      assert StopTable(rows)[s] in KeptStops(all, kept);
    }
  }

  lemma SameClosure(all: map<string, Row>, roots: set<Field>, kept: set<Field>, kept': set<Field>)
    requires IsClosure(all, roots, kept)
    requires IsClosure(map s | s in all && Some(s) in kept :: all[s], roots, kept')
    ensures kept' == kept
  {
    var written := map s | s in all && Some(s) in kept :: all[s];
    forall s
      ensures HasParent(written, s) <==> HasParent(all, s) && s in kept
      ensures HasParent(written, s) ==> ParentOf(written, s) == ParentOf(all, s)
    {}
    assert Closed(written, kept);
    assert kept' <= kept;
    assert Closed(all, kept');
  }

  lemma {:induction false} DistinctMultiset(rows: seq<Row>, r: Row)
    requires Distinct(rows)
    ensures multiset(rows)[r] == if r in rows then 1 else 0
    decreases |rows|
  {
    if rows != [] {
      var n := |rows| - 1;
      assert rows == rows[..n] + [rows[n]];
      DistinctMultiset(rows[..n], r);
    }
  }

  lemma ListsArePermutations(rows: seq<Row>, rows': seq<Row>, all: set<Row>)
    requires Lists(rows, all) && Lists(rows', all)
    ensures multiset(rows) == multiset(rows')
  {
    forall r
      ensures multiset(rows)[r] == multiset(rows')[r]
    {
      DistinctMultiset(rows, r);
      DistinctMultiset(rows', r);
    }
  }

  /** Listing the kept stops of the restricted table lists the same rows. */
  lemma SameListing(all: map<string, Row>, kept: set<Field>, rows: seq<Row>, rows': seq<Row>)
    requires forall s | s in all :: Get(all[s], StopId) == Some(s)
    requires Lists(rows, KeptStops(all, kept)) && HasColumn(rows, StopId)
    requires Lists(rows', KeptStops(StopTable(rows), kept))
    ensures multiset(rows') == multiset(rows)
  {
    WrittenStopTable(all, kept, rows);
    hide Lists;
    assert KeptStops(StopTable(rows), kept) == KeptStops(all, kept);
    ListsArePermutations(rows, rows', KeptStops(all, kept));
  }

  /** The second run keeps the same stop ids and lists the same stops. */
  lemma SameStops(f: Feed, env: Env, out: Feed, kept: set<Field>, again: Feed, kept': set<Field>)
    requires RectangularFeed(f) && Filtered(f, env, out, kept) && Filtered(out, env, again, kept')
    ensures kept' == kept
    ensures again.stops.fields == out.stops.fields
    ensures multiset(again.stops.rows) == multiset(out.stops.rows)
  {
    OutputIsRectangular(f, env, out, kept);
    SameTripReferences(f, env, out, kept);
    StopMembers(f, env, out, kept);
    StopMembers(out, env, again, kept');
    StopTableKeys(f.stops.rows);
    hide RectangularFeed, Rectangular, TripIds, StopTimes, Lists, IsClosure, KeptStops, StopTable;
    var all := StopTable(f.stops.rows);
    WrittenStopTable(all, kept, out.stops.rows);
    SameClosure(all, StopIds(f, env), kept, kept');
    SameListing(all, kept, out.stops.rows, again.stops.rows);
  }

  lemma CopyAgain(t: Table, out: Table, column: Column, values: set<Field>)
    requires Rectangular(t) && out == Table(t.fields, RowsIn(t.rows, column, values)) && Rectangular(out)
    ensures Copy(out, RowsIn(out.rows, column, values)) == out
  {
    RowsInMembers(t.rows, column, values);
    RowsInFixed(out.rows, column, values);
    CopyIsExact(out, out.rows);
  }

  lemma SameOptionalMembers(f: Feed, env: Env, out: Feed, kept: set<Field>, again: Feed)
    requires RectangularFeed(f) && Filtered(f, env, out, kept) && Filtered(out, env, again, kept)
    ensures again.calendar == out.calendar && again.calendarDates == out.calendarDates
    ensures again.shapes == out.shapes && again.transfers == out.transfers
    ensures again.frequencies == out.frequencies && again.feedInfo == out.feedInfo
  {
    OptionalMembers(f, env, out, kept);
    SameTripReferences(f, env, out, kept);
    hide Trips, TripIds, IsClosure, Lists, RowsIn, StopTimes;
    var services := NonBlankValues(Trips(f, env), ServiceId);
    CopyAgain(f.calendar, out.calendar, ServiceId, services);
    CopyAgain(f.calendarDates, out.calendarDates, ServiceId, services);
    CopyAgain(f.shapes, out.shapes, ShapeId, NonBlankValues(Trips(f, env), ShapeId));
    CopyAgain(f.frequencies, out.frequencies, TripId, TripIds(f, env));
    CopyIsExact(out.feedInfo, out.feedInfo.rows);
    TransfersAgain(f, kept);
    CopyIsExact(out.transfers, out.transfers.rows);
  }

  lemma TransfersAgain(f: Feed, kept: set<Field>)
    ensures var rows := RowsIn(RowsIn(f.transfers.rows, FromStopId, kept), ToStopId, kept);
            RowsIn(RowsIn(rows, FromStopId, kept), ToStopId, kept) == rows
  {
    var rows := RowsIn(RowsIn(f.transfers.rows, FromStopId, kept), ToStopId, kept);
    RowsInMembers(f.transfers.rows, FromStopId, kept);
    RowsInMembers(RowsIn(f.transfers.rows, FromStopId, kept), ToStopId, kept);
    RowsInFixed(rows, FromStopId, kept);
    RowsInFixed(rows, ToStopId, kept);
  }

  lemma SameRequiredMembers(f: Feed, env: Env, out: Feed, kept: set<Field>, again: Feed, kept': set<Field>)
    requires RectangularFeed(f) && Filtered(f, env, out, kept) && Filtered(out, env, again, kept')
    ensures again.agency == out.agency && again.routes == out.routes
    ensures again.stopTimes == out.stopTimes && again.trips == out.trips
  {
    OutputIsRectangular(f, env, out, kept);
    RequiredMembers(f, env, out, kept);
    RequiredMembers(out, env, again, kept');
    SameSelection(f, env, out, kept);
    SameTripReferences(f, env, out, kept);
    SameTrips(f, env, out, kept);
  }

  /** The written feed can be filtered again. */
  lemma OutputIsFilterable(f: Feed, env: Env, out: Feed, kept: set<Field>)
    requires RectangularFeed(f) && Filtered(f, env, out, kept)
    ensures Filterable(out, env)
  {
    RequiredMembers(f, env, out, kept);
    SameSelection(f, env, out, kept);
    StopMembers(f, env, out, kept);
    TripsWritten(f, env, out, kept);
    var trips := Trips(f, env);
    forall q | q in out.trips.rows
      ensures TripId in q
    {
      var i :| 0 <= i < |out.trips.rows| && out.trips.rows[i] == q;
      assert trips[i] in trips && Get(q, TripId) == Get(trips[i], TripId);
    }
  }

  /** What filtering its own output may write: everything as it was, the stops in any order. */
  ghost predicate SameFeed(out: Feed, again: Feed) {
    && again == out.(stops := again.stops)
    && again.stops.fields == out.stops.fields
    && multiset(again.stops.rows) == multiset(out.stops.rows)
  }

  lemma SecondRunChangesNothing(f: Feed, env: Env, out: Feed, kept: set<Field>, again: Feed, kept': set<Field>)
    requires RectangularFeed(f) && Filtered(f, env, out, kept) && Filtered(out, env, again, kept')
    ensures kept' == kept && SameFeed(out, again)
  {
    SameStops(f, env, out, kept, again, kept');
    hide RectangularFeed, Filtered;
    SameRequiredMembers(f, env, out, kept, again, kept');
    SameOptionalMembers(f, env, out, kept, again);
  }

  /**
   Filtering the script's own output, with the same agency text, succeeds, repairs nothing, keeps
   the same stop ids and writes the same feed: every member is identical, except that the stops
   may come in another order.
   */
  lemma FilteringTwiceChangesNothing(f: Feed, env: Env, out: Feed, kept: set<Field>)
    requires RectangularFeed(f) && Filtered(f, env, out, kept)
    ensures Filterable(out, env) && !AnyRepaired(out, env)
    ensures forall again, kept' | Filtered(out, env, again, kept') :: kept' == kept && SameFeed(out, again)
  {
    OutputIsFilterable(f, env, out, kept);
    NothingLeftToRepair(f, env, out, kept);
    hide RectangularFeed, Filtered, SameFeed;
    forall again, kept' | Filtered(out, env, again, kept')
      ensures kept' == kept && SameFeed(out, again)
    {
      SecondRunChangesNothing(f, env, out, kept, again, kept');
    }
  }
}
