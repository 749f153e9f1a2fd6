/**
 The GTFS feed filter as relations between tables: what is selected, what is repaired and what
 the written feed must look like. `GtfsFilter` holds the program that produces it.

 A row is what the csv reader yields for it: its columns and their text. Reading and writing
 csv and zip files is foreign code; `lower` and `parseInt` stand for Python's `str.lower` and
 `int`.
 */
module Gtfs {
  import opened Wrappers

  /** A header name. The script knows the first fourteen; any other column is carried along as text. */
  datatype Column =
    | AgencyId | AgencyName | RouteId | RouteType | TripId | ServiceId | ShapeId | BikesAllowed
    | StopId | ArrivalTime | DepartureTime | ParentStation | FromStopId | ToStopId
    | Other(name: string)

  type Row = map<Column, string>
  type Field = Option<string>

  /** A member of the feed; one that is missing or has no header has no fields and no rows. */
  datatype Table = Table(fields: seq<Column>, rows: seq<Row>)

  datatype Feed = Feed(
    agency: Table,
    routes: Table,
    trips: Table,
    stopTimes: Table,
    stops: Table,
    calendar: Table,
    calendarDates: Table,
    shapes: Table,
    transfers: Table,
    frequencies: Table,
    feedInfo: Table)

  /** The command line's agency text, already lower-case, and the two string functions. */
  datatype Env = Env(agencyMatch: string, lower: string -> string, parseInt: string -> Option<int>)

  const METRO_ROUTE_TYPE: string := "1"
  const ABSENT: Table := Table([], [])

  function FieldSet(fields: seq<Column>): set<Column> { set f | f in fields }

  /** Every row has exactly the columns of the header. */
  predicate Rectangular(t: Table) {
    (t.fields == [] ==> t.rows == []) && forall r | r in t.rows :: r.Keys == FieldSet(t.fields)
  }

  predicate RectangularFeed(f: Feed) {
    && Rectangular(f.agency) && Rectangular(f.routes) && Rectangular(f.trips)
    && Rectangular(f.stopTimes) && Rectangular(f.stops) && Rectangular(f.calendar)
    && Rectangular(f.calendarDates) && Rectangular(f.shapes) && Rectangular(f.transfers)
    && Rectangular(f.frequencies) && Rectangular(f.feedInfo)
  }

  function Get(r: Row, column: Column): Field {
    if column in r then Some(r[column]) else None
  }

  function TextOf(r: Row, column: Column): string {
    if column in r then r[column] else ""
  }

  predicate HasColumn(rows: seq<Row>, column: Column) {
    forall r | r in rows :: column in r
  }

  function Values(rows: seq<Row>, column: Column): set<Field> {
    set r | r in rows :: Get(r, column)
  }

  predicate NonBlank(field: Field) { field.Some? && field.value != "" }

  function NonBlankValues(rows: seq<Row>, column: Column): set<Field> {
    set r | r in rows && NonBlank(Get(r, column)) :: Get(r, column)
  }

  function Filter(rows: seq<Row>, keep: Row -> bool): seq<Row> {
    if rows == [] then []
    else
      var last := rows[|rows| - 1];
      Filter(rows[..|rows| - 1], keep) + if keep(last) then [last] else []
  }

  function RowsIn(rows: seq<Row>, column: Column, values: set<Field>): seq<Row> {
    Filter(rows, r => Get(r, column) in values)
  }

  function WriteRow(fields: seq<Column>, r: Row): Row {
    map f | f in fields :: TextOf(r, f)
  }

  function Write(fields: seq<Column>, rows: seq<Row>): Table {
    Table(fields, seq(|rows|, i requires 0 <= i < |rows| => WriteRow(fields, rows[i])))
  }

  /** Optional members are written only when they were read. */
  function Copy(t: Table, rows: seq<Row>): Table {
    if t.fields == [] then ABSENT else Write(t.fields, rows)
  }

  // ---------------------------------------------------------------------------------------
  // Selection, table by table
  // ---------------------------------------------------------------------------------------

  predicate StartsAt(text: string, part: string, i: nat) {
    i + |part| <= |text| && text[i..i + |part|] == part
  }

  predicate Contains(text: string, part: string) {
    exists i: nat | i <= |text| :: StartsAt(text, part, i)
  }

  predicate AgencyMatches(r: Row, env: Env) {
    || env.lower(TextOf(r, AgencyId)) == env.agencyMatch
    || Contains(env.lower(TextOf(r, AgencyName)), env.agencyMatch)
  }

  function Agencies(f: Feed, env: Env): seq<Row> { Filter(f.agency.rows, r => AgencyMatches(r, env)) }

  function AgencyIds(f: Feed, env: Env): set<Field> { Values(Agencies(f, env), AgencyId) }

  function Routes(f: Feed, env: Env): seq<Row> { RowsIn(f.routes.rows, AgencyId, AgencyIds(f, env)) }

  function RouteIds(f: Feed, env: Env): set<Field> { Values(Routes(f, env), RouteId) }

  function MetroIds(routes: seq<Row>): set<Field> {
    set r | r in routes && Get(r, RouteType) == Some(METRO_ROUTE_TYPE) :: Get(r, RouteId)
  }

  function Trips(f: Feed, env: Env): seq<Row> { RowsIn(f.trips.rows, RouteId, RouteIds(f, env)) }

  function TripIds(f: Feed, env: Env): set<Field> { Values(Trips(f, env), TripId) }

  predicate IsCandidate(trip: Row, metroIds: set<Field>) {
    Get(trip, RouteId) in metroIds && Get(trip, BikesAllowed) != Some("1")
  }

  /** Trips on metro routes that the feed marks not-bikeable. */
  function Candidates(f: Feed, env: Env): set<Field> {
    set r | r in Trips(f, env) && IsCandidate(r, MetroIds(Routes(f, env))) :: Get(r, TripId)
  }

  function StopTimes(f: Feed, env: Env): seq<Row> { RowsIn(f.stopTimes.rows, TripId, TripIds(f, env)) }

  function StopIds(f: Feed, env: Env): set<Field> { Values(StopTimes(f, env), StopId) }

  // ---------------------------------------------------------------------------------------
  // Times and the rush-hour repair
  // ---------------------------------------------------------------------------------------

  function Split(text: string, sep: char): seq<string>
    ensures |Split(text, sep)| > 0
  {
    if text == "" then [""]
    else
      var rest := Split(text[1..], sep);
      if text[0] == sep then [""] + rest else [[text[0]] + rest[0]] + rest[1..]
  }

  /** Seconds of an H:MM:SS time, hours past 23 included; nothing for blank or malformed text. */
  function Secs(text: Field, env: Env): Option<int> {
    if !NonBlank(text) then None
    else
      var parts := Split(text.value, ':');
      if |parts| != 3 then None
      else match (env.parseInt(parts[0]), env.parseInt(parts[1]), env.parseInt(parts[2]))
        case (Some(h), Some(m), Some(s)) => Some(h * 3600 + m * 60 + s)
        case _ => None
  }

  const TIME_COLUMNS: set<Column> := {ArrivalTime, DepartureTime}

  /** Every parseable arrival and departure time of a trip. */
  function TimesOf(stopTimes: seq<Row>, trip: Field, env: Env): set<int> {
    set r, c | r in stopTimes && c in TIME_COLUMNS && Get(r, TripId) == trip && Secs(Get(r, c), env).Some? ::
      Secs(Get(r, c), env).value
  }

  const RUSH_WINDOWS: seq<(int, int)> := [(7 * 3600, 9 * 3600), (16 * 3600, 18 * 3600 + 30 * 60)]

  /** The trip has times, and all of them lie on one and the same side of each rush window. */
  predicate OffPeak(times: set<int>) {
    times != {} &&
    forall window | window in RUSH_WINDOWS ::
      (forall t | t in times :: t >= window.1) || (forall t | t in times :: t <= window.0)
  }

  predicate IsRepaired(trip: Row, candidates: set<Field>, stopTimes: seq<Row>, env: Env) {
    Get(trip, TripId) in candidates && OffPeak(TimesOf(stopTimes, Get(trip, TripId), env))
  }

  function Repair(trip: Row, candidates: set<Field>, stopTimes: seq<Row>, env: Env): Row {
    if IsRepaired(trip, candidates, stopTimes, env) then trip[BikesAllowed := "1"] else trip
  }

  function RepairedTrips(f: Feed, env: Env): seq<Row> {
    var trips := Trips(f, env);
    seq(|trips|, i requires 0 <= i < |trips| => Repair(trips[i], Candidates(f, env), StopTimes(f, env), env))
  }

  predicate AnyRepaired(f: Feed, env: Env) {
    exists r | r in Trips(f, env) :: IsRepaired(r, Candidates(f, env), StopTimes(f, env), env)
  }

  function TripFields(f: Feed, env: Env): seq<Column> {
    if AnyRepaired(f, env) && BikesAllowed !in f.trips.fields then f.trips.fields + [BikesAllowed] else f.trips.fields
  }

  // ---------------------------------------------------------------------------------------
  // Stops and their parent stations
  // ---------------------------------------------------------------------------------------

  /** Stops by id; a repeated id means its last row. */
  function StopTable(rows: seq<Row>): map<string, Row>
    requires HasColumn(rows, StopId)
  {
    if rows == [] then map[]
    else
      var last := rows[|rows| - 1];
      StopTable(rows[..|rows| - 1])[last[StopId] := last]
  }

  predicate HasParent(stops: map<string, Row>, s: Field) {
    s.Some? && s.value in stops && NonBlank(Get(stops[s.value], ParentStation))
  }

  function ParentOf(stops: map<string, Row>, s: Field): Field
    requires HasParent(stops, s)
  {
    Get(stops[s.value], ParentStation)
  }

  ghost predicate Closed(stops: map<string, Row>, kept: set<Field>) {
    forall s | s in kept && HasParent(stops, s) :: ParentOf(stops, s) in kept
  }

  /** `kept` is the least set that holds `roots` and the parent of every stop it holds. */
  ghost predicate IsClosure(stops: map<string, Row>, roots: set<Field>, kept: set<Field>) {
    && roots <= kept && Closed(stops, kept)
    && forall other: set<Field> | roots <= other && Closed(stops, other) :: kept <= other
  }

  function KeptStops(stops: map<string, Row>, kept: set<Field>): set<Row> {
    set s | s in stops && Some(s) in kept :: stops[s]
  }

  ghost predicate Distinct(rows: seq<Row>) {
    forall i, j | 0 <= i < j < |rows| :: rows[i] != rows[j]
  }

  /** Every row of the set once, in some order. */
  ghost predicate Lists(rows: seq<Row>, all: set<Row>) {
    Distinct(rows) && forall r :: r in rows <==> r in all
  }

  // ---------------------------------------------------------------------------------------
  // The whole filter
  // ---------------------------------------------------------------------------------------

  datatype FilterError = NoAgencyMatched | MissingColumn | MissingMember

  /** The script gets to its end without an error. */
  predicate Filterable(f: Feed, env: Env) {
    && HasColumn(Agencies(f, env), AgencyId) && Agencies(f, env) != []
    && HasColumn(Routes(f, env), RouteId) && HasColumn(Trips(f, env), TripId)
    && HasColumn(f.stops.rows, StopId)
    && f.routes.fields != [] && f.trips.fields != [] && f.stopTimes.fields != [] && f.stops.fields != []
  }

  /** `out` is a feed the script may write for `f`, having kept the stop ids `kept`. */
  ghost predicate Filtered(f: Feed, env: Env, out: Feed, kept: set<Field>) {
    && Filterable(f, env)
    && out.agency == Write(f.agency.fields, Agencies(f, env))
    && out.routes == Write(f.routes.fields, Routes(f, env))
    && out.stopTimes == Write(f.stopTimes.fields, StopTimes(f, env))
    && out.trips == Write(TripFields(f, env), RepairedTrips(f, env))
    && IsClosure(StopTable(f.stops.rows), StopIds(f, env), kept)
    && (exists rows ::
          && Lists(rows, KeptStops(StopTable(f.stops.rows), kept))
          && out.stops == Write(f.stops.fields, rows))
    && out.calendar == Copy(f.calendar, RowsIn(f.calendar.rows, ServiceId, NonBlankValues(Trips(f, env), ServiceId)))
    && out.calendarDates
        == Copy(f.calendarDates, RowsIn(f.calendarDates.rows, ServiceId, NonBlankValues(Trips(f, env), ServiceId)))
    && out.shapes == Copy(f.shapes, RowsIn(f.shapes.rows, ShapeId, NonBlankValues(Trips(f, env), ShapeId)))
    && out.transfers == Copy(f.transfers, RowsIn(RowsIn(f.transfers.rows, FromStopId, kept), ToStopId, kept))
    && out.frequencies == Copy(f.frequencies, RowsIn(f.frequencies.rows, TripId, TripIds(f, env)))
    && out.feedInfo == Copy(f.feedInfo, f.feedInfo.rows)
  }
}
