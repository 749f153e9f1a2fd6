/**
 The rain service over its cache: fresh hits, refetching, falling back to a stale forecast, and
 the honest "no data". Runs may overlap: several requests, in one process or many, share the
 cache, and reading it, fetching and writing it back are steps of their own. Instants are seconds.
 */
module RainCache {
  import opened Wrappers
  import opened Scoring

  type Key = string

  type Place = (real, real)

  /** `keyOf` is the text of the rounded coordinates. */
  datatype Config = Config(keyOf: Place -> Key, freshSeconds: int, retentionSeconds: int)

  /** A cached forecast, the stamp inside it, and the moment the cache took it in. */
  datatype Entry = Entry(forecast: RainForecast, fetchedAt: int, storedAt: int)

  /** A usable cache hit and its age. */
  datatype Hit = Hit(entry: Entry, age: int)

  /** The upstream answered, was unusable, or failed in a way the service does not catch. */
  datatype FetchResult = Fetched(forecast: RainForecast) | Unusable | Escaped

  /** What a request ends with. */
  datatype Answer = Forecast(forecast: RainForecast) | NoData | Exception

  // ---------------------------------------------------------------------------------------
  // One request
  // ---------------------------------------------------------------------------------------

  /** A read misses when the key is absent or expired, and when the cache or the value is broken. */
  function ReadCache(config: Config, store: map<Key, Entry>, key: Key, now: int, readable: bool): Option<Hit> {
    if readable && key in store && now < store[key].storedAt + config.retentionSeconds
    then Some(Hit(store[key], now - store[key].fetchedAt))
    else None
  }

  predicate IsFresh(config: Config, hit: Option<Hit>) {
    hit.Some? && hit.value.age < config.freshSeconds
  }

  function Fallback(hit: Option<Hit>): Answer {
    match hit
    case Some(h) => Forecast(h.entry.forecast)
    case None => NoData
  }

  /** The answer once the refetch is over. */
  function AfterFetch(hit: Option<Hit>, fetch: FetchResult): Answer {
    match fetch
    case Fetched(forecast) => Forecast(forecast)
    case Unusable => Fallback(hit)
    case Escaped => Exception
  }

  /** The cache after the refetch; only a live forecast is ever written, and writing may fail. */
  function StoreAfterFetch(store: map<Key, Entry>, key: Key, now: int, fetch: FetchResult, setDelay: nat, stored: bool)
    : map<Key, Entry>
  {
    if fetch.Fetched? && stored then store[key := Entry(fetch.forecast, now, now + setDelay)] else store
  }

  /** What the environment does to one undisturbed request. */
  datatype Weather = Weather(readable: bool, fetch: FetchResult, fetchSeconds: nat, setDelay: nat, stored: bool)

  class RainService {
    const config: Config
    var store: map<Key, Entry>
    var clock: int

    constructor (config: Config, now: int)
      ensures this.config == config && store == map[] && clock == now
    {
      this.config := config;
      store := map[];
      clock := now;
    }

    /** Serve a fresh hit at once; else refetch, falling back to whatever was read. */
    method GetForecast(place: Place, w: Weather) returns (answer: Answer)
      modifies this
      ensures var key := config.keyOf(place);
              var hit := ReadCache(config, old(store), key, old(clock), w.readable);
              if IsFresh(config, hit) then
                answer == Forecast(hit.value.entry.forecast) && store == old(store) && clock == old(clock)
              else
                && answer == AfterFetch(hit, w.fetch)
                && store == StoreAfterFetch(old(store), key, old(clock) + w.fetchSeconds, w.fetch, w.setDelay, w.stored)
                && clock == old(clock) + w.fetchSeconds + if w.fetch.Fetched? then w.setDelay else 0
    {
      var key := config.keyOf(place);
      var cached := ReadCache(config, store, key, clock, w.readable);
      if cached.Some? && cached.value.age < config.freshSeconds {
        return Forecast(cached.value.entry.forecast);
      }
      clock := clock + w.fetchSeconds;
      match w.fetch
      case Escaped => return Exception;
      case Unusable =>
        if cached.Some? {
          return Forecast(cached.value.entry.forecast);
        }
        return NoData;
      case Fetched(forecast) =>
        if w.stored {
          store := store[key := Entry(forecast, clock, clock + w.setDelay)];
        }
        clock := clock + w.setDelay;
        return Forecast(forecast);
    }
  }

  // ---------------------------------------------------------------------------------------
  // Runs of overlapping requests
  // ---------------------------------------------------------------------------------------

  /** A request between its cache read and the end of its refetch. */
  datatype Pending = Pending(place: Place, readAt: int, hit: Option<Hit>)

  /** A write on its way to the cache, stamped when its fetch ended. */
  datatype Write = Write(place: Place, forecast: RainForecast, fetchedAt: int)

  datatype Source = FromCache | Live | Stale | Nothing

  /** A request's answer with where it came from; `hit` is what its read returned. */
  datatype Given = Given(
    place: Place,
    readAt: int,
    hit: Option<Hit>,
    fetch: Option<FetchResult>,
    source: Source,
    answer: Answer)

  datatype Fetch = Fetch(place: Place, forecast: RainForecast, at: int)

  datatype State = State(
    clock: int,
    store: map<Key, Entry>,
    pending: map<nat, Pending>,
    writes: map<nat, Write>,
    given: map<nat, Given>,
    fetches: set<Fetch>)

  /** A write lands when the cache takes it in, however late, or is lost; its answer is settled. */
  datatype Event =
    | Read(id: nat, place: Place, now: int, readable: bool)
    | FetchEnds(id: nat, now: int, fetch: FetchResult)
    | Lands(id: nat, now: int, stored: bool)

  predicate Enabled(s: State, e: Event) {
    e.now >= s.clock &&
    match e
    case Read(id, _, _, _) => id !in s.pending && id !in s.given
    case FetchEnds(id, _, _) => id in s.pending
    case Lands(id, _, _) => id in s.writes
  }

  function SourceOf(hit: Option<Hit>, fetch: FetchResult): Source {
    if fetch.Fetched? then Live else if fetch.Unusable? && hit.Some? then Stale else Nothing
  }

  function StepRead(config: Config, s: State, id: nat, place: Place, now: int, readable: bool): State {
    var hit := ReadCache(config, s.store, config.keyOf(place), now, readable);
    if IsFresh(config, hit) then
      var answer := Forecast(hit.value.entry.forecast);
      s.(clock := now, given := s.given[id := Given(place, now, hit, None, FromCache, answer)])
    else s.(clock := now, pending := s.pending[id := Pending(place, now, hit)])
  }

  function StepFetch(s: State, id: nat, now: int, fetch: FetchResult): State
    requires id in s.pending
  {
    var p := s.pending[id];
    var given := Given(p.place, p.readAt, p.hit, Some(fetch), SourceOf(p.hit, fetch), AfterFetch(p.hit, fetch));
    var ended := s.(clock := now, pending := s.pending - {id}, given := s.given[id := given]);
    if fetch.Fetched? then
      ended.(writes := s.writes[id := Write(p.place, fetch.forecast, now)],
             fetches := s.fetches + {Fetch(p.place, fetch.forecast, now)})
    else ended
  }

  function Step(config: Config, s: State, e: Event): State
    requires Enabled(s, e)
  {
    match e
    case Read(id, place, now, readable) => StepRead(config, s, id, place, now, readable)
    case FetchEnds(id, now, fetch) => StepFetch(s, id, now, fetch)
    case Lands(id, now, stored) =>
      var w := s.writes[id];
      var entry := Entry(w.forecast, w.fetchedAt, now);
      s.(clock := now,
         store := if stored then s.store[config.keyOf(w.place) := entry] else s.store,
         writes := s.writes - {id})
  }

  function Init(now: int): State { State(now, map[], map[], map[], map[], {}) }

  predicate Legal(config: Config, s: State, events: seq<Event>)
    decreases |events|
  {
    events == [] || (Enabled(s, events[0]) && Legal(config, Step(config, s, events[0]), events[1..]))
  }

  function Run(config: Config, s: State, events: seq<Event>): State
    requires Legal(config, s, events)
    decreases |events|
  {
    if events == [] then s else Run(config, Step(config, s, events[0]), events[1..])
  }

  lemma {:induction false} RunExtends(config: Config, s: State, events: seq<Event>, e: Event)
    requires Legal(config, s, events) && Enabled(Run(config, s, events), e)
    ensures Legal(config, s, events + [e]) && Run(config, s, events + [e]) == Step(config, Run(config, s, events), e)
    decreases |events|
  {
    hide Enabled, Step;
    if events == [] {
      assert events + [e] == [e] && [e][1..] == [];
    } else {
      assert (events + [e])[1..] == events[1..] + [e];
      RunExtends(config, Step(config, s, events[0]), events[1..], e);
    }
  }

  /** Left alone, a request that refetches is the three steps of `GetForecast`. */
  lemma UndisturbedRequest(config: Config, s: State, id: nat, place: Place, w: Weather)
    requires id !in s.pending && id !in s.given && id !in s.writes
    requires !IsFresh(config, ReadCache(config, s.store, config.keyOf(place), s.clock, w.readable))
    ensures var hit := ReadCache(config, s.store, config.keyOf(place), s.clock, w.readable);
            var fetched := s.clock + w.fetchSeconds;
            var lands := if w.fetch.Fetched? then [Lands(id, fetched + w.setDelay, w.stored)] else [];
            var events := [Read(id, place, s.clock, w.readable), FetchEnds(id, fetched, w.fetch)] + lands;
            && Legal(config, s, events)
            && var s' := Run(config, s, events);
               && id in s'.given && s'.given[id].answer == AfterFetch(hit, w.fetch)
               && s'.store == StoreAfterFetch(s.store, config.keyOf(place), fetched, w.fetch, w.setDelay, w.stored)
  {
    var fetched := s.clock + w.fetchSeconds;
    var read, fetch := Read(id, place, s.clock, w.readable), FetchEnds(id, fetched, w.fetch);
    RunsOne(config, s, read);
    RunExtends(config, s, [read], fetch);
    assert [read] + [fetch] == [read, fetch];
    if w.fetch.Fetched? {
      RunExtends(config, s, [read, fetch], Lands(id, fetched + w.setDelay, w.stored));
    } else {
      assert [read, fetch] + [] == [read, fetch];
    }
    hide Run, Legal, ReadCache, IsFresh;
  }

  lemma RunsOne(config: Config, s: State, e: Event)
    requires Enabled(s, e)
    ensures Legal(config, s, [e]) && Run(config, s, [e]) == Step(config, s, e)
  {
    assert [e][1..] == [];
  }

  // ---------------------------------------------------------------------------------------
  // Provenance
  // ---------------------------------------------------------------------------------------

  /** The forecast was fetched at that time for a place with this key. */
  ghost predicate WasFetched(config: Config, fetches: set<Fetch>, key: Key, forecast: RainForecast, at: int) {
    exists f :: f in fetches && config.keyOf(f.place) == key && f.forecast == forecast && f.at == at
  }

  /** The entry was fetched for a place with this key, and still carries that fetch's time. */
  ghost predicate Genuine(config: Config, fetches: set<Fetch>, key: Key, entry: Entry) {
    entry.fetchedAt <= entry.storedAt && WasFetched(config, fetches, key, entry.forecast, entry.fetchedAt)
  }

  /** What a read returned: genuine, unexpired, and aged by the clock alone. */
  ghost predicate HonestHit(config: Config, fetches: set<Fetch>, key: Key, readAt: int, hit: Option<Hit>) {
    hit.Some? ==>
      && Genuine(config, fetches, key, hit.value.entry)
      && hit.value.age == readAt - hit.value.entry.fetchedAt >= 0
      && readAt < hit.value.entry.storedAt + config.retentionSeconds
  }

  /** The answer is what its source says it is. */
  ghost predicate Justified(config: Config, fetches: set<Fetch>, g: Given) {
    && HonestHit(config, fetches, config.keyOf(g.place), g.readAt, g.hit)
    && match g.source
       case FromCache =>
         IsFresh(config, g.hit) && g.fetch == None && g.answer == Forecast(g.hit.value.entry.forecast)
       case Live =>
         && !IsFresh(config, g.hit) && g.fetch.Some? && g.fetch.value.Fetched?
         && g.answer == Forecast(g.fetch.value.forecast)
         && exists f :: f in fetches && f.place == g.place && f.forecast == g.fetch.value.forecast && f.at >= g.readAt
       case Stale =>
         && !IsFresh(config, g.hit) && g.fetch == Some(Unusable)
         && g.hit.Some? && g.answer == Forecast(g.hit.value.entry.forecast)
       case Nothing =>
         && !IsFresh(config, g.hit)
         && ((g.fetch == Some(Unusable) && g.hit.None? && g.answer == NoData)
             || (g.fetch == Some(Escaped) && g.answer == Exception))
  }

  ghost predicate StoreInv(config: Config, s: State) {
    forall k | k in s.store :: Genuine(config, s.fetches, k, s.store[k]) && s.store[k].storedAt <= s.clock
  }

  ghost predicate WritesInv(s: State) {
    forall id | id in s.writes ::
      && s.writes[id].fetchedAt <= s.clock
      && Fetch(s.writes[id].place, s.writes[id].forecast, s.writes[id].fetchedAt) in s.fetches
  }

  ghost predicate PendingInv(config: Config, s: State) {
    forall id | id in s.pending ::
      var p := s.pending[id];
      && p.readAt <= s.clock && !IsFresh(config, p.hit)
      && HonestHit(config, s.fetches, config.keyOf(p.place), p.readAt, p.hit)
  }

  ghost predicate GivenInv(config: Config, s: State) {
    forall id | id in s.given :: Justified(config, s.fetches, s.given[id])
  }

  ghost predicate Inv(config: Config, s: State) {
    StoreInv(config, s) && WritesInv(s) && PendingInv(config, s) && GivenInv(config, s)
  }

  lemma FetchedGrows(config: Config, fetches: set<Fetch>, fetches': set<Fetch>, key: Key, forecast: RainForecast,
      at: int)
    requires WasFetched(config, fetches, key, forecast, at) && fetches <= fetches'
    ensures WasFetched(config, fetches', key, forecast, at)
  {
    var f :| f in fetches && config.keyOf(f.place) == key && f.forecast == forecast && f.at == at;
    assert f in fetches';
  }

  lemma HonestGrows(config: Config, fetches: set<Fetch>, fetches': set<Fetch>, key: Key, readAt: int, hit: Option<Hit>)
    requires HonestHit(config, fetches, key, readAt, hit) && fetches <= fetches'
    ensures HonestHit(config, fetches', key, readAt, hit)
  {
    hide WasFetched;
    if hit.Some? {
      FetchedGrows(config, fetches, fetches', key, hit.value.entry.forecast, hit.value.entry.fetchedAt);
    }
  }

  lemma JustifiedGrows(config: Config, fetches: set<Fetch>, fetches': set<Fetch>, g: Given)
    requires Justified(config, fetches, g) && fetches <= fetches'
    ensures Justified(config, fetches', g)
  {
    hide HonestHit;
    HonestGrows(config, fetches, fetches', config.keyOf(g.place), g.readAt, g.hit);
    if g.source.Live? {
      var f :| f in fetches && f.place == g.place && f.forecast == g.fetch.value.forecast && f.at >= g.readAt;
      assert f in fetches';
    }
  }

  /** What a read finds is honest. */
  lemma ReadIsHonest(config: Config, s: State, place: Place, now: int, readable: bool)
    requires StoreInv(config, s) && now >= s.clock
    ensures var key := config.keyOf(place);
            HonestHit(config, s.fetches, key, now, ReadCache(config, s.store, key, now, readable))
  {
    hide WasFetched;
  }

  /**
   What a read leads to, whatever the cache holds: an entry that can be read and is younger than its
   retention answers at once while its stamp is fresh, and otherwise waits as the fallback of the
   refetch; without such an entry the refetch has no fallback.
   */
  lemma ReadServesOrRefetches(config: Config, s: State, id: nat, place: Place, now: int, readable: bool)
    requires Enabled(s, Read(id, place, now, readable))
    ensures var key, s' := config.keyOf(place), Step(config, s, Read(id, place, now, readable));
            && s'.store == s.store && s'.writes == s.writes && s'.clock == now
            && if readable && key in s.store && now - s.store[key].storedAt < config.retentionSeconds then
                 var entry := s.store[key];
                 if now - entry.fetchedAt < config.freshSeconds then
                   && id in s'.given && s'.given[id].answer == Forecast(entry.forecast)
                   && s'.given[id].source == FromCache && s'.pending == s.pending
                 else id in s'.pending && s'.pending[id].hit == Some(Hit(entry, now - entry.fetchedAt))
               else id in s'.pending && s'.pending[id].hit == None
  {}

  lemma ReadKeeps(config: Config, s: State, e: Event)
    requires Inv(config, s) && Enabled(s, e) && e.Read?
    ensures Inv(config, Step(config, s, e))
  {
    ReadIsHonest(config, s, e.place, e.now, e.readable);
    hide Genuine, HonestHit, ReadCache;
  }

  lemma FetchEndsIsJustified(config: Config, s: State, id: nat, now: int, fetch: FetchResult)
    requires PendingInv(config, s) && id in s.pending && now >= s.clock
    ensures var s' := StepFetch(s, id, now, fetch); Justified(config, s'.fetches, s'.given[id])
  {
    var s' := StepFetch(s, id, now, fetch);
    var p := s.pending[id];
    HonestGrows(config, s.fetches, s'.fetches, config.keyOf(p.place), p.readAt, p.hit);
    hide HonestHit;
    if fetch.Fetched? { assert Fetch(p.place, fetch.forecast, now) in s'.fetches; }
  }

  lemma FetchEndsKeeps(config: Config, s: State, e: Event)
    requires Inv(config, s) && Enabled(s, e) && e.FetchEnds?
    ensures Inv(config, Step(config, s, e))
  {
    var s' := StepFetch(s, e.id, e.now, e.fetch);
    FetchEndsIsJustified(config, s, e.id, e.now, e.fetch);
    hide Justified, HonestHit, WasFetched;
    forall id | id in s'.given
      ensures Justified(config, s'.fetches, s'.given[id])
    {
      if id != e.id { JustifiedGrows(config, s.fetches, s'.fetches, s.given[id]); }
    }
    forall id | id in s'.pending
      ensures var p := s'.pending[id]; HonestHit(config, s'.fetches, config.keyOf(p.place), p.readAt, p.hit)
    {
      var p := s.pending[id];
      HonestGrows(config, s.fetches, s'.fetches, config.keyOf(p.place), p.readAt, p.hit);
    }
    forall k | k in s'.store
      ensures Genuine(config, s'.fetches, k, s'.store[k])
    {
      FetchedGrows(config, s.fetches, s'.fetches, k, s.store[k].forecast, s.store[k].fetchedAt);
    }
  }

  lemma LandsKeeps(config: Config, s: State, e: Event)
    requires Inv(config, s) && Enabled(s, e) && e.Lands?
    ensures Inv(config, Step(config, s, e))
  {
    var w := s.writes[e.id];
    assert WasFetched(config, s.fetches, config.keyOf(w.place), w.forecast, w.fetchedAt) by {
      assert Fetch(w.place, w.forecast, w.fetchedAt) in s.fetches;
    }
    hide Justified, HonestHit, WasFetched;
  }

  lemma StepKeeps(config: Config, s: State, e: Event)
    requires Inv(config, s) && Enabled(s, e)
    ensures Inv(config, Step(config, s, e))
  {
    hide Inv;
    match e
    case Read(_, _, _, _) => ReadKeeps(config, s, e);
    case FetchEnds(_, _, _) => FetchEndsKeeps(config, s, e);
    case Lands(_, _, _) => LandsKeeps(config, s, e);
  }

  lemma {:induction false} RunKeeps(config: Config, s: State, events: seq<Event>)
    requires Inv(config, s) && Legal(config, s, events)
    ensures Inv(config, Run(config, s, events))
    decreases |events|
  {
    if events != [] {
      hide Inv, Enabled, Step;
      StepKeeps(config, s, events[0]);
      RunKeeps(config, Step(config, s, events[0]), events[1..]);
    }
  }

  /** The fetch accounts for the answer: fresh when read, fetched meanwhile, or the fallback. */
  predicate Accounts(config: Config, f: Fetch, g: Given) {
    && config.keyOf(f.place) == config.keyOf(g.place)
    && match g.fetch
       case None => 0 <= g.readAt - f.at < config.freshSeconds
       case Some(Fetched(_)) => f.at >= g.readAt
       case Some(Escaped) => false
       case Some(Unusable) =>
         && g.hit.Some? && f.at == g.hit.value.entry.fetchedAt
         && g.readAt - f.at >= config.freshSeconds
         && g.readAt - g.hit.value.entry.storedAt < config.retentionSeconds
  }

  /**
   In every run, every forecast a request was given had been fetched upstream for a place
   with the request's own key. It was fresh when read, or fetched during the request, or it was
   served because this request's refetch was unusable, and then the cache had taken it in less than
   the retention time before the read. The answer is "no data" exactly when the refetch was
   unusable and the read had found nothing usable.
   */
  lemma EveryAnswerIsJustified(config: Config, start: int, events: seq<Event>, id: nat)
    requires Legal(config, Init(start), events) && id in Run(config, Init(start), events).given
    ensures var s := Run(config, Init(start), events);
            var g := s.given[id];
            && (g.answer.Forecast? ==>
                  exists f :: f in s.fetches && f.forecast == g.answer.forecast && Accounts(config, f, g))
            && (g.answer.NoData? <==> g.fetch == Some(Unusable) && g.hit.None?)
  {
    RunKeeps(config, Init(start), events);
    var s := Run(config, Init(start), events);
    JustifiedAccounts(config, s, id);
  }

  lemma JustifiedAccounts(config: Config, s: State, id: nat)
    requires GivenInv(config, s) && id in s.given
    ensures var g := s.given[id];
            && (g.answer.Forecast? ==>
                  exists f :: f in s.fetches && f.forecast == g.answer.forecast && Accounts(config, f, g))
            && (g.answer.NoData? <==> g.fetch == Some(Unusable) && g.hit.None?)
  {
    var g := s.given[id];
    assert Justified(config, s.fetches, g);
    if g.hit.Some? {
      var entry := g.hit.value.entry;
      var f :| f in s.fetches && config.keyOf(f.place) == config.keyOf(g.place) && f.forecast == entry.forecast
               && f.at == entry.fetchedAt;
      assert g.source.Live? || Accounts(config, f, g) || g.answer.Exception?;
    }
  }

  /**
   Whenever an entry can still be read, it is younger than the retention time: that holds of an
   entry if and only if it reached the cache in the instant of its stamp, because the cache counts
   the retention from the moment it takes the entry in.
   */
  lemma AgeBoundIsExact(config: Config, key: Key, entry: Entry)
    requires entry.fetchedAt <= entry.storedAt && config.retentionSeconds > 0
    ensures (forall now | now >= entry.storedAt ::
               var hit := ReadCache(config, map[key := entry], key, now, true);
               hit.Some? ==> hit.value.age < config.retentionSeconds)
       <==> entry.storedAt == entry.fetchedAt
  {
    var last := entry.storedAt + config.retentionSeconds - 1;
    assert ReadCache(config, map[key := entry], key, last, true) == Some(Hit(entry, last - entry.fetchedAt));
  }

  // ---------------------------------------------------------------------------------------
  // Stamps
  // ---------------------------------------------------------------------------------------

  /** The step puts a write with an earlier stamp in the place of the entry. */
  predicate TakesBack(config: Config, s: State, e: Event, key: Key)
    requires key in s.store
  {
    && e.Lands? && e.stored && e.id in s.writes
    && config.keyOf(s.writes[e.id].place) == key && s.writes[e.id].fetchedAt < s.store[key].fetchedAt
  }

  /**
   In every run, an entry changes only when a live fetch for its key lands, and then carries that
   fetch's forecast and stamp: serving a stale forecast, or failing to fetch, changes no entry. Its
   stamp goes back exactly when the write that lands was stamped before the one it replaces.
   */
  lemma StaleNeverRejuvenates(config: Config, start: int, events: seq<Event>, e: Event, key: Key)
    requires Legal(config, Init(start), events) && Enabled(Run(config, Init(start), events), e)
    requires key in Run(config, Init(start), events).store
    ensures var s := Run(config, Init(start), events);
            var s' := Step(config, s, e);
            && key in s'.store
            && (s'.store[key] != s.store[key] ==>
                  && e.Lands? && s'.store[key].forecast == s.writes[e.id].forecast
                  && s'.store[key].fetchedAt == s.writes[e.id].fetchedAt
                  && WasFetched(config, s.fetches, key, s'.store[key].forecast, s'.store[key].fetchedAt))
            && (s'.store[key].fetchedAt < s.store[key].fetchedAt <==> TakesBack(config, s, e, key))
  {
    RunKeeps(config, Init(start), events);
    var s := Run(config, Init(start), events);
    LandedWasFetched(config, s, e);
  }

  lemma LandedWasFetched(config: Config, s: State, e: Event)
    requires WritesInv(s) && Enabled(s, e)
    ensures e.Lands? ==>
              var w := s.writes[e.id];
              WasFetched(config, s.fetches, config.keyOf(w.place), w.forecast, w.fetchedAt)
  {
    if e.Lands? {
      var w := s.writes[e.id];
      assert Fetch(w.place, w.forecast, w.fetchedAt) in s.fetches;
    }
  }

  /** No older write for the key is on its way. */
  predicate NoOlderWrite(config: Config, s: State, key: Key, now: int) {
    forall id | id in s.writes && config.keyOf(s.writes[id].place) == key :: s.writes[id].fetchedAt >= now
  }

  predicate InOrder(config: Config, s: State, e: Event)
    requires Enabled(s, e)
  {
    e.FetchEnds? && e.fetch.Fetched? ==> NoOlderWrite(config, s, config.keyOf(s.pending[e.id].place), e.now)
  }

  /** No fetch of the run ends while an older write for its key is still on its way. */
  predicate Orderly(config: Config, s: State, events: seq<Event>)
    requires Legal(config, s, events)
    decreases |events|
  {
    events == [] || (InOrder(config, s, events[0]) && Orderly(config, Step(config, s, events[0]), events[1..]))
  }

  /** Whatever is on its way is no older than what it will replace, and nothing can overtake it. */
  ghost predicate OrderInv(config: Config, s: State) {
    && (forall k | k in s.store :: s.store[k].fetchedAt <= s.clock)
    && (forall id | id in s.writes :: s.writes[id].fetchedAt <= s.clock)
    && (forall id | id in s.writes && config.keyOf(s.writes[id].place) in s.store ::
          s.store[config.keyOf(s.writes[id].place)].fetchedAt <= s.writes[id].fetchedAt)
    && (forall i, j | i in s.writes && j in s.writes
                      && config.keyOf(s.writes[i].place) == config.keyOf(s.writes[j].place) ::
          s.writes[i].fetchedAt == s.writes[j].fetchedAt)
  }

  lemma FetchKeepsOrder(config: Config, s: State, e: Event)
    requires OrderInv(config, s) && Enabled(s, e) && InOrder(config, s, e) && e.FetchEnds?
    ensures OrderInv(config, Step(config, s, e))
  {}

  lemma LandsKeepsOrder(config: Config, s: State, e: Event)
    requires OrderInv(config, s) && Enabled(s, e) && e.Lands?
    ensures OrderInv(config, Step(config, s, e))
  {}

  lemma OrderStepKeeps(config: Config, s: State, e: Event)
    requires OrderInv(config, s) && Enabled(s, e) && InOrder(config, s, e)
    ensures OrderInv(config, Step(config, s, e))
  {
    hide ReadCache;
    if e.FetchEnds? {
      FetchKeepsOrder(config, s, e);
    } else if e.Lands? {
      LandsKeepsOrder(config, s, e);
    } else {
      hide InOrder;
    }
  }

  lemma {:induction false} OrderRunKeeps(config: Config, s: State, events: seq<Event>)
    requires OrderInv(config, s) && Legal(config, s, events) && Orderly(config, s, events)
    ensures OrderInv(config, Run(config, s, events))
    decreases |events|
  {
    if events != [] {
      hide OrderInv, Enabled, Step, InOrder;
      OrderStepKeeps(config, s, events[0]);
      OrderRunKeeps(config, Step(config, s, events[0]), events[1..]);
    }
  }

  ghost predicate TakesNothingBack(config: Config, s: State, e: Event) {
    forall key | key in s.store :: !TakesBack(config, s, e, key)
  }

  /** However the run goes on in order, no landing write takes a stamp back. */
  ghost predicate StampsOnlyAdvance(config: Config, s: State) {
    forall events, e | Legal(config, s, events) && Orderly(config, s, events) && Enabled(Run(config, s, events), e) ::
      TakesNothingBack(config, Run(config, s, events), e)
  }

  lemma OrderedAdvances(config: Config, s: State)
    requires OrderInv(config, s)
    ensures StampsOnlyAdvance(config, s)
  {
    hide Enabled, Step, InOrder;
    forall events, e | Legal(config, s, events) && Orderly(config, s, events) && Enabled(Run(config, s, events), e)
      ensures TakesNothingBack(config, Run(config, s, events), e)
    {
      OrderRunKeeps(config, s, events);
    }
  }

  /** A newer write can land first, and the older one after it. */
  lemma OvertakenGoesBack(config: Config, s: State, i: nat, j: nat)
    requires i in s.writes && j in s.writes && config.keyOf(s.writes[i].place) == config.keyOf(s.writes[j].place)
    requires s.writes[j].fetchedAt < s.writes[i].fetchedAt
    ensures !StampsOnlyAdvance(config, s)
  {
    var first, second := Lands(i, s.clock, true), Lands(j, s.clock, true);
    var mid := Step(config, s, first);
    RunsOne(config, s, first);
    assert Orderly(config, s, [first]) by { assert [first][1..] == []; }
    assert Enabled(mid, second);
    assert TakesBack(config, mid, second, config.keyOf(s.writes[i].place));
    assert !TakesNothingBack(config, Run(config, s, [first]), second);
  }

  /**
   In a state that an orderly run has led to, a fetch may end without risk to the order of stamps
   if and only if no older write for its key is still on its way.
   */
  lemma OrderIsExact(config: Config, start: int, events: seq<Event>, id: nat, now: int, forecast: RainForecast)
    requires Legal(config, Init(start), events) && Orderly(config, Init(start), events)
    requires Enabled(Run(config, Init(start), events), FetchEnds(id, now, Fetched(forecast)))
    ensures var s := Run(config, Init(start), events);
            var e := FetchEnds(id, now, Fetched(forecast));
            NoOlderWrite(config, s, config.keyOf(s.pending[id].place), now)
            <==> StampsOnlyAdvance(config, Step(config, s, e))
  {
    OrderRunKeeps(config, Init(start), events);
    RunKeeps(config, Init(start), events);
    FreshWriters(config, start, events);
    var s := Run(config, Init(start), events);
    FetchEndsInOrder(config, s, id, now, forecast);
  }

  lemma FetchEndsInOrder(config: Config, s: State, id: nat, now: int, forecast: RainForecast)
    requires OrderInv(config, s) && Enabled(s, FetchEnds(id, now, Fetched(forecast))) && id !in s.writes
    ensures NoOlderWrite(config, s, config.keyOf(s.pending[id].place), now)
       <==> StampsOnlyAdvance(config, Step(config, s, FetchEnds(id, now, Fetched(forecast))))
  {
    var e := FetchEnds(id, now, Fetched(forecast));
    var key := config.keyOf(s.pending[id].place);
    if NoOlderWrite(config, s, key, now) {
      OrderStepKeeps(config, s, e);
      hide StampsOnlyAdvance;
      OrderedAdvances(config, Step(config, s, e));
    } else {
      hide StampsOnlyAdvance;
      var j :| j in s.writes && config.keyOf(s.writes[j].place) == key && s.writes[j].fetchedAt < now;
      OvertakenGoesBack(config, Step(config, s, e), id, j);
    }
  }

  /** A request that is still pending has written nothing. */
  lemma FreshWriters(config: Config, start: int, events: seq<Event>)
    requires Legal(config, Init(start), events)
    ensures forall id | id in Run(config, Init(start), events).pending :: id !in Run(config, Init(start), events).writes
  {
    WritersRunKeeps(config, Init(start), events);
  }

  ghost predicate Writers(s: State) {
    && (forall id | id in s.writes :: id in s.given)
    && (forall id | id in s.pending :: id !in s.given)
  }

  lemma {:induction false} WritersRunKeeps(config: Config, s: State, events: seq<Event>)
    requires Writers(s) && Legal(config, s, events)
    ensures Writers(Run(config, s, events))
    decreases |events|
  {
    if events != [] {
      WritersRunKeeps(config, Step(config, s, events[0]), events[1..]);
    }
  }

  /** Two requests for one place have read nothing and fetched, one at 10 and the other at 12. */
  lemma BothFetch(config: Config, place: Place, older: RainForecast, newer: RainForecast) returns (events: seq<Event>)
    ensures Legal(config, Init(9), events)
    ensures var s := Run(config, Init(9), events);
            && s.clock == 12 && s.store == map[]
            && s.writes == map[0 := Write(place, older, 10), 1 := Write(place, newer, 12)]
  {
    var a, b := Read(0, place, 9, false), Read(1, place, 9, false);
    RunsOne(config, Init(9), a);
    RunExtends(config, Init(9), [a], b);
    var c, d := FetchEnds(0, 10, Fetched(older)), FetchEnds(1, 12, Fetched(newer));
    events := [a] + [b];
    RunExtends(config, Init(9), events, c);
    events := events + [c];
    RunExtends(config, Init(9), events, d);
    events := events + [d];
  }

  /**
   Without that order a stamp does go back: one request fetches at 10, another for the same place
   at 12, and the second write reaches the cache at 13, before the first at 14.
   */
  lemma LateWriteGoesBack(config: Config, place: Place, older: RainForecast, newer: RainForecast)
    returns (events: seq<Event>)
    ensures Legal(config, Init(9), events)
    ensures var key := config.keyOf(place);
            var s := Run(config, Init(9), events);
            && Enabled(s, Lands(0, 14, true))
            && s.store == map[key := Entry(newer, 12, 13)]
            && Step(config, s, Lands(0, 14, true)).store == map[key := Entry(older, 10, 14)]
  {
    events := BothFetch(config, place, older, newer);
    RunExtends(config, Init(9), events, Lands(1, 13, true));
    events := events + [Lands(1, 13, true)];
    hide Run, Legal;
  }
}
