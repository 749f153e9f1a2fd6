/** The filter script itself: its loops, in the order it runs them, against `Gtfs.Filtered`. */
module GtfsFilter {
  import opened Wrappers
  import opened Gtfs

  type Span = (int, int)

  ghost predicate IsSpan(times: set<int>, span: Span) {
    span.0 in times && span.1 in times && forall t | t in times :: span.0 <= t <= span.1
  }

  /** The spans collected so far are the extreme times of the candidates that have any. */
  ghost predicate SpansOf(spans: map<Field, Span>, candidates: set<Field>, stopTimes: seq<Row>, env: Env) {
    && (forall trip :: trip in spans <==> trip in candidates && TimesOf(stopTimes, trip, env) != {})
    && (forall trip | trip in spans :: IsSpan(TimesOf(stopTimes, trip, env), spans[trip]))
  }

  function RowTimes(r: Row, env: Env): set<int> {
    set c | c in TIME_COLUMNS && Secs(Get(r, c), env).Some? :: Secs(Get(r, c), env).value
  }

  lemma TimesOfAppend(rows: seq<Row>, r: Row, trip: Field, env: Env)
    ensures TimesOf(rows + [r], trip, env)
         == TimesOf(rows, trip, env) + if Get(r, TripId) == trip then RowTimes(r, env) else {}
  {
    var both := TimesOf(rows + [r], trip, env);
    forall t
      ensures t in both <==> t in TimesOf(rows, trip, env) || (Get(r, TripId) == trip && t in RowTimes(r, env))
    {
      if t in both {
        var q, c :| q in rows + [r] && c in TIME_COLUMNS && Get(q, TripId) == trip && Secs(Get(q, c), env) == Some(t);
        assert q in rows || q == r;
      }
      if t in TimesOf(rows, trip, env) {
        var q, c :| q in rows && c in TIME_COLUMNS && Get(q, TripId) == trip && Secs(Get(q, c), env) == Some(t);
        assert q in rows + [r];
      }
      if Get(r, TripId) == trip && t in RowTimes(r, env) {
        var c :| c in TIME_COLUMNS && Secs(Get(r, c), env) == Some(t);
        assert r in rows + [r];
      }
    }
  }

  function SpanOf(spans: map<Field, Span>, trip: Field): Option<Span> {
    if trip in spans then Some(spans[trip]) else None
  }

  function Times(time: Option<int>): set<int> { if time.Some? then {time.value} else {} }

  /** The span is that of the times, and missing exactly when there are none. */
  ghost predicate SpanFits(times: set<int>, span: Option<Span>) {
    (span.None? <==> times == {}) && (span.Some? ==> IsSpan(times, span.value))
  }

  /**
   Take in one time column of a row: whatever times the trip's span fitted, the new span fits them
   with this one added, and no other trip's span changes.
   */
  method NoteTime(spans: map<Field, Span>, trip: Field, text: Field, env: Env) returns (wider: map<Field, Span>)
    ensures forall other | other != trip :: SpanOf(wider, other) == SpanOf(spans, other)
    ensures forall times | SpanFits(times, SpanOf(spans, trip)) ::
              SpanFits(times + Times(Secs(text, env)), SpanOf(wider, trip))
  {
    hide Secs;
    var s := Secs(text, env);
    if s.None? {
      assert forall times: set<int> :: times + Times(s) == times;
      return spans;
    }
    var span := if trip in spans then spans[trip] else (s.value, s.value);
    wider := spans[trip := (Min(span.0, s.value), Max(span.1, s.value))];
    forall times | SpanFits(times, SpanOf(spans, trip))
      ensures SpanFits(times + Times(s), SpanOf(wider, trip))
    {
      assert s.value in times + Times(s);
    }
  }

  function Min(a: int, b: int): int { if b < a then b else a }

  function Max(a: int, b: int): int { if b > a then b else a }

  /**
   The streaming pass over the stop times: one loop keeps the rows, collects the stops and
   widens the spans.
   */
  method CollectStopTimes(rows: seq<Row>, tripIds: set<Field>, candidates: set<Field>, env: Env)
    returns (kept: seq<Row>, stopIds: set<Field>, spans: map<Field, Span>)
    ensures kept == RowsIn(rows, TripId, tripIds)
    ensures stopIds == Values(kept, StopId)
    ensures SpansOf(spans, candidates, kept, env)
  {
    kept, stopIds, spans := [], {}, map[];
    assert SpansOf(map[], candidates, [], env) && Values([], StopId) == {};
    hide SpansOf, Values, Secs, SpanFits, TimesOf;
    for i := 0 to |rows|
      invariant kept == RowsIn(rows[..i], TripId, tripIds)
      invariant stopIds == Values(kept, StopId)
      invariant SpansOf(spans, candidates, kept, env)
    {
      var r := rows[i];
      var trip := Get(r, TripId);
      assert rows[..i + 1][..i] == rows[..i];
      if trip in tripIds {
        ghost var before, spansBefore := kept, spans;
        stopIds := stopIds + {Get(r, StopId)};
        if trip in candidates {
          SpanFitsCandidate(kept, spans, candidates, env, trip);
          spans := NoteTime(spans, trip, Get(r, ArrivalTime), env);
          spans := NoteTime(spans, trip, Get(r, DepartureTime), env);
        }
        kept := kept + [r];
        ValuesAppend(before, r, StopId);
        SpansAppend(before, r, spansBefore, spans, candidates, env);
      }
    }
    assert rows[..|rows|] == rows;
  }

  lemma ValuesAppend(rows: seq<Row>, r: Row, column: Column)
    ensures Values(rows + [r], column) == Values(rows, column) + {Get(r, column)}
  {
    assert forall q | q in rows + [r] :: q in rows || q == r;
    assert forall q | q in rows :: q in rows + [r];
    assert r in rows + [r];
  }

  lemma SpanFitsCandidate(kept: seq<Row>, spans: map<Field, Span>, candidates: set<Field>, env: Env, trip: Field)
    requires SpansOf(spans, candidates, kept, env) && trip in candidates
    ensures SpanFits(TimesOf(kept, trip, env), SpanOf(spans, trip))
  {}

  /** The spans after one more row: the row's trip has taken in both its times. */
  ghost predicate RowNoted(
    kept: seq<Row>, r: Row, spans: map<Field, Span>, spans': map<Field, Span>, candidates: set<Field>, env: Env)
  {
    var trip := Get(r, TripId);
    if trip in candidates then
      && (forall other | other != trip :: SpanOf(spans', other) == SpanOf(spans, other))
      && SpanFits(TimesOf(kept, trip, env) + Times(Secs(Get(r, ArrivalTime), env))
                  + Times(Secs(Get(r, DepartureTime), env)),
                  SpanOf(spans', trip))
    else spans' == spans
  }

  lemma SpansAppend(
    kept: seq<Row>, r: Row, spans: map<Field, Span>, spans': map<Field, Span>, candidates: set<Field>, env: Env)
    requires SpansOf(spans, candidates, kept, env) && RowNoted(kept, r, spans, spans', candidates, env)
    ensures SpansOf(spans', candidates, kept + [r], env)
  {
    hide *;
    forall other
      ensures SpanOk(spans', candidates, kept + [r], env, other)
    {
      SpansMean(spans, candidates, kept, env, other);
      if other == Get(r, TripId) && other in candidates {
        OwnSpan(kept, r, spans, spans', candidates, env);
      } else {
        OtherSpan(kept, r, spans, spans', candidates, env, other);
      }
    }
    SpansFrom(spans', candidates, kept + [r], env);
  }

  /** The part of `SpansOf` about one trip. */
  ghost predicate SpanOk(spans: map<Field, Span>, candidates: set<Field>, stopTimes: seq<Row>, env: Env, trip: Field) {
    if trip in candidates then SpanFits(TimesOf(stopTimes, trip, env), SpanOf(spans, trip)) else trip !in spans
  }

  lemma SpansMean(spans: map<Field, Span>, candidates: set<Field>, stopTimes: seq<Row>, env: Env, trip: Field)
    requires SpansOf(spans, candidates, stopTimes, env)
    ensures SpanOk(spans, candidates, stopTimes, env, trip)
  {
    hide TimesOf, IsSpan;
  }

  lemma SpansFrom(spans: map<Field, Span>, candidates: set<Field>, stopTimes: seq<Row>, env: Env)
    requires forall trip :: SpanOk(spans, candidates, stopTimes, env, trip)
    ensures SpansOf(spans, candidates, stopTimes, env)
  {
    hide TimesOf, IsSpan;
    forall trip
      ensures trip in spans <==> trip in candidates && TimesOf(stopTimes, trip, env) != {}
      ensures trip in spans ==> IsSpan(TimesOf(stopTimes, trip, env), spans[trip])
    {
      assert SpanOk(spans, candidates, stopTimes, env, trip);
    }
  }

  lemma OwnSpan(
    kept: seq<Row>, r: Row, spans: map<Field, Span>, spans': map<Field, Span>, candidates: set<Field>, env: Env)
    requires RowNoted(kept, r, spans, spans', candidates, env) && Get(r, TripId) in candidates
    ensures SpanOk(spans', candidates, kept + [r], env, Get(r, TripId))
  {
    var trip := Get(r, TripId);
    TimesOfAppend(kept, r, trip, env);
    RowTimesAre(r, env);
    hide TimesOf, RowTimes, Secs, Times, SpanFits;
    assert TimesOf(kept + [r], trip, env)
        == TimesOf(kept, trip, env) + Times(Secs(Get(r, ArrivalTime), env)) + Times(Secs(Get(r, DepartureTime), env));
  }

  lemma OtherSpan(
    kept: seq<Row>, r: Row, spans: map<Field, Span>, spans': map<Field, Span>, candidates: set<Field>, env: Env,
    other: Field)
    requires RowNoted(kept, r, spans, spans', candidates, env) && SpanOk(spans, candidates, kept, env, other)
    requires other != Get(r, TripId) || other !in candidates
    ensures SpanOk(spans', candidates, kept + [r], env, other)
  {
    TimesOfAppend(kept, r, other, env);
    hide TimesOf, RowTimes, Secs, Times, SpanFits, IsSpan;
    if other != Get(r, TripId) {
      assert TimesOf(kept + [r], other, env) == TimesOf(kept, other, env);
      assert SpanOf(spans', other) == SpanOf(spans, other);
    }
  }

  lemma RowTimesAre(r: Row, env: Env)
    ensures RowTimes(r, env) == Times(Secs(Get(r, ArrivalTime), env)) + Times(Secs(Get(r, DepartureTime), env))
  {
    assert ArrivalTime in TIME_COLUMNS && DepartureTime in TIME_COLUMNS;
  }

  // ---------------------------------------------------------------------------------------
  // The rush-hour repair
  // ---------------------------------------------------------------------------------------

  predicate OverlapsRush(lo: int, hi: int) {
    exists window | window in RUSH_WINDOWS :: lo < window.1 && hi > window.0
  }

  /** Comparing the two ends of the span is enough to know about every time in between. */
  lemma SpanDecides(times: set<int>, span: Span)
    requires IsSpan(times, span)
    ensures OffPeak(times) <==> !OverlapsRush(span.0, span.1)
  {
    assert times != {};
    forall window | window in RUSH_WINDOWS
      ensures (forall t | t in times :: t >= window.1) || (forall t | t in times :: t <= window.0)
         <==> !(span.0 < window.1 && span.1 > window.0)
    {}
  }

  /** A row is repaired exactly when the loop's test on the collected span says so. */
  lemma SpanDecidesRow(trip: Field, candidates: set<Field>, spans: map<Field, Span>, stopTimes: seq<Row>, env: Env)
    requires SpansOf(spans, candidates, stopTimes, env)
    ensures (trip in candidates && OffPeak(TimesOf(stopTimes, trip, env)))
       <==> (trip in spans && trip in candidates && !OverlapsRush(spans[trip].0, spans[trip].1))
  {
    if trip in spans {
      SpanDecides(TimesOf(stopTimes, trip, env), spans[trip]);
    }
  }

  ghost predicate SomeRepaired(trips: seq<Row>, candidates: set<Field>, stopTimes: seq<Row>, env: Env) {
    exists i :: 0 <= i < |trips| && IsRepaired(trips[i], candidates, stopTimes, env)
  }

  lemma SomeRepairedStep(trips: seq<Row>, i: nat, candidates: set<Field>, stopTimes: seq<Row>, env: Env)
    requires i < |trips|
    ensures SomeRepaired(trips[..i + 1], candidates, stopTimes, env)
       <==> SomeRepaired(trips[..i], candidates, stopTimes, env) || IsRepaired(trips[i], candidates, stopTimes, env)
  {
    hide IsRepaired;
    var now, next := trips[..i], trips[..i + 1];
    assert next[i] == trips[i] && forall j | 0 <= j < i :: next[j] == now[j];
  }

  /** The patch loop over the trips, changing rows in place. */
  method PatchTrips(trips: array<Row>, candidates: set<Field>, spans: map<Field, Span>, ghost stopTimes: seq<Row>,
      env: Env)
    returns (patched: nat)
    requires SpansOf(spans, candidates, stopTimes, env)
    modifies trips
    ensures forall i | 0 <= i < trips.Length :: trips[i] == Repair(old(trips[i]), candidates, stopTimes, env)
    ensures patched > 0 <==> SomeRepaired(old(trips[..]), candidates, stopTimes, env)
  {
    hide OffPeak, TimesOf, SomeRepaired, SpansOf;
    ghost var was := trips[..];
    patched := 0;
    assert !SomeRepaired([], candidates, stopTimes, env) by { NoneRepaired(candidates, stopTimes, env); }
    for i := 0 to trips.Length
      invariant forall j | 0 <= j < i :: trips[j] == Repair(was[j], candidates, stopTimes, env)
      invariant forall j | i <= j < trips.Length :: trips[j] == was[j]
      invariant patched > 0 <==> SomeRepaired(was[..i], candidates, stopTimes, env)
    {
      var trip := Get(trips[i], TripId);
      SpanDecidesRow(trip, candidates, spans, stopTimes, env);
      SomeRepairedStep(was, i, candidates, stopTimes, env);
      if trip in spans && trip in candidates {
        var (lo, hi) := spans[trip];
        if !OverlapsRush(lo, hi) {
          trips[i] := trips[i][BikesAllowed := "1"];
          patched := patched + 1;
        }
      }
    }
    assert was[..trips.Length] == was;
  }

  lemma NoneRepaired(candidates: set<Field>, stopTimes: seq<Row>, env: Env)
    ensures !SomeRepaired([], candidates, stopTimes, env)
  {}

  // ---------------------------------------------------------------------------------------
  // Stops
  // ---------------------------------------------------------------------------------------

  /** Everything the search can ever reach: the roots and all parents named in the table. */
  function Universe(stops: map<string, Row>, roots: set<Field>): set<Field> {
    roots + set s | s in stops && HasParent(stops, Some(s)) :: ParentOf(stops, Some(s))
  }

  /** The parent-station search; each round follows the parents of what the last round added. */
  method KeepStops(stops: map<string, Row>, stopIds: set<Field>) returns (keep: set<Field>)
    ensures IsClosure(stops, stopIds, keep)
  {
    keep := stopIds;
    var frontier := stopIds;
    while frontier != {}
      invariant stopIds <= keep && frontier <= keep <= Universe(stops, stopIds)
      invariant forall s | s in keep && s !in frontier && HasParent(stops, s) :: ParentOf(stops, s) in keep
      invariant forall other: set<Field> | stopIds <= other && Closed(stops, other) :: keep <= other
      decreases Universe(stops, stopIds) - keep, frontier
    {
      var parents := set s | s in frontier && HasParent(stops, s) :: ParentOf(stops, s);
      ghost var found := parents;
      ghost var before := keep;
      parents := parents - keep;
      keep := keep + parents;
      forall s | s in before && HasParent(stops, s)
        ensures ParentOf(stops, s) in keep
      {
        if s in frontier { assert ParentOf(stops, s) in found; }
      }
      forall p | p in parents
        ensures p in Universe(stops, stopIds) && p !in before
      {
        var s :| s in frontier && HasParent(stops, s) && ParentOf(stops, s) == p;
        assert s.value in stops && HasParent(stops, Some(s.value));
      }
      if parents != {} {
        var p :| p in parents;
        assert p in Universe(stops, stopIds) - before && p !in Universe(stops, stopIds) - keep;
      }
      forall other: set<Field> | stopIds <= other && Closed(stops, other)
        ensures keep <= other
      {
        assert forall s | s in frontier :: s in other;
      }
      frontier := parents;
    }
  }

  /** The kept stops, in whatever order the set is walked. */
  method ListStops(stops: map<string, Row>, keep: set<Field>) returns (rows: seq<Row>)
    requires forall s | s in stops :: Get(stops[s], StopId) == Some(s)
    ensures Lists(rows, KeptStops(stops, keep))
  {
    rows := [];
    var left := keep;
    ghost var done: set<Field> := {};
    while left != {}
      invariant left !! done && left + done == keep
      invariant Lists(rows, KeptStops(stops, done))
      decreases left
    {
      var s :| s in left;
      left := left - {s};
      ghost var before := rows;
      if s.Some? && s.value in stops {
        rows := rows + [stops[s.value]];
      }
      ListsExtend(stops, done, s, before, rows);
      done := done + {s};
    }
    assert done == keep;
  }

  lemma ListsExtend(stops: map<string, Row>, done: set<Field>, s: Field, before: seq<Row>, rows: seq<Row>)
    requires forall k | k in stops :: Get(stops[k], StopId) == Some(k)
    requires Lists(before, KeptStops(stops, done)) && s !in done
    requires rows == if s.Some? && s.value in stops then before + [stops[s.value]] else before
    ensures Lists(rows, KeptStops(stops, done + {s}))
  {
    if s.Some? && s.value in stops {
      var row := stops[s.value];
      assert row !in KeptStops(stops, done);
      assert KeptStops(stops, done + {s}) == KeptStops(stops, done) + {row};
      forall r
        ensures r in rows <==> r in KeptStops(stops, done + {s})
      {
        assert r in rows <==> r in before || r == row;
      }
      assert forall i | 0 <= i < |before| :: before[i] in before;
    } else {
      assert KeptStops(stops, done + {s}) == KeptStops(stops, done);
    }
  }

  lemma {:induction false} StopTableKeys(rows: seq<Row>)
    requires HasColumn(rows, StopId)
    ensures forall s | s in StopTable(rows) :: StopTable(rows)[s] in rows && Get(StopTable(rows)[s], StopId) == Some(s)
    ensures forall r | r in rows :: r[StopId] in StopTable(rows)
    decreases |rows|
  {
    if rows != [] {
      var n := |rows| - 1;
      assert rows == rows[..n] + [rows[n]];
      StopTableKeys(rows[..n]);
    }
  }

  // ---------------------------------------------------------------------------------------
  // The script
  // ---------------------------------------------------------------------------------------

  /** From the source feed to the written one, or the error the script stops with. */
  method FilterFeed(f: Feed, env: Env) returns (r: Result<Feed, FilterError>, kept: set<Field>)
    ensures r.Success? <==> Filterable(f, env)
    ensures r.Success? ==> Filtered(f, env, r.value, kept)
    ensures r == Failure(NoAgencyMatched) <==> Agencies(f, env) == []
  {
    hide Filter, RowsIn, Values, NonBlankValues, Candidates, Repair, RepairedTrips, AnyRepaired, SomeRepaired, SpansOf,
      IsClosure, Lists, KeptStops, StopTable, Agencies, Routes, Trips, Copy, Write, HasColumn;
    kept := {};
    var agencies := Agencies(f, env);
    NoRowsNoGaps(agencies, AgencyId);
    if !HasColumn(agencies, AgencyId) { return Failure(MissingColumn), kept; }
    var agencyIds := Values(agencies, AgencyId);
    NoValues(agencies, AgencyId);
    if agencyIds == {} {
      return Failure(NoAgencyMatched), kept;
    }
    var routes := Routes(f, env);
    if !HasColumn(routes, RouteId) { return Failure(MissingColumn), kept; }
    var trips := Trips(f, env);
    if !HasColumn(trips, TripId) { return Failure(MissingColumn), kept; }
    var tripIds, candidates := TripIds(f, env), Candidates(f, env);
    if f.routes.fields == [] || f.stopTimes.fields == [] || f.trips.fields == [] {
      return Failure(MissingMember), kept;
    }
    var stopTimes, stopIds, spans := CollectStopTimes(f.stopTimes.rows, tripIds, candidates, env);
    var tripRows := new Row[|trips|](i requires 0 <= i < |trips| => trips[i]);
    assert tripRows[..] == trips;
    var patched := PatchTrips(tripRows, candidates, spans, stopTimes, env);
    var tripFields := f.trips.fields;
    if patched > 0 && BikesAllowed !in tripFields {
      tripFields := tripFields + [BikesAllowed];
    }
    PatchedFields(f, env, patched);
    RepairedRows(f, env, tripRows[..]);
    if !HasColumn(f.stops.rows, StopId) { return Failure(MissingColumn), kept; }
    if f.stops.fields == [] { return Failure(MissingMember), kept; }
    var allStops := StopTable(f.stops.rows);
    StopTableKeys(f.stops.rows);
    kept := KeepStops(allStops, stopIds);
    var stopRows := ListStops(allStops, kept);
    var serviceIds, shapeIds := NonBlankValues(trips, ServiceId), NonBlankValues(trips, ShapeId);
    var out := Feed(
      Write(f.agency.fields, agencies),
      Write(f.routes.fields, routes),
      Write(tripFields, tripRows[..]),
      Write(f.stopTimes.fields, stopTimes),
      Write(f.stops.fields, stopRows),
      Copy(f.calendar, RowsIn(f.calendar.rows, ServiceId, serviceIds)),
      Copy(f.calendarDates, RowsIn(f.calendarDates.rows, ServiceId, serviceIds)),
      Copy(f.shapes, RowsIn(f.shapes.rows, ShapeId, shapeIds)),
      Copy(f.transfers, RowsIn(RowsIn(f.transfers.rows, FromStopId, kept), ToStopId, kept)),
      Copy(f.frequencies, RowsIn(f.frequencies.rows, TripId, tripIds)),
      Copy(f.feedInfo, f.feedInfo.rows));
    r := Success(out);
  }

  lemma NoRowsNoGaps(rows: seq<Row>, column: Column)
    ensures rows == [] ==> HasColumn(rows, column)
  {}

  lemma NoValues(rows: seq<Row>, column: Column)
    ensures Values(rows, column) == {} <==> rows == []
  {
    if rows != [] {
      assert rows[0] in rows && Get(rows[0], column) in Values(rows, column);
    }
  }

  lemma RepairedRows(f: Feed, env: Env, rows: seq<Row>)
    requires var trips := Trips(f, env);
             && |rows| == |trips|
             && forall i | 0 <= i < |trips| :: rows[i] == Repair(trips[i], Candidates(f, env), StopTimes(f, env), env)
    ensures rows == RepairedTrips(f, env)
  {
    hide Trips, Candidates, StopTimes, Repair;
  }

  lemma PatchedFields(f: Feed, env: Env, patched: nat)
    requires var trips := Trips(f, env);
             patched > 0 <==> SomeRepaired(trips, Candidates(f, env), StopTimes(f, env), env)
    ensures patched > 0 <==> AnyRepaired(f, env)
  {
    var trips := Trips(f, env);
    assert forall i | 0 <= i < |trips| :: trips[i] in trips;
  }
}
