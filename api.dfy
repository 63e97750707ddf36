/**
 * The API layer: a response cache keyed by `aqi-<city>`, entries fresh for
 * CACHE_DURATION ms; fetching one city (cache hit, fresh response, or a
 * simulated fallback that is not cached), fetching a list of cities, and
 * fetching all configured cities in batches of five.
 *
 * The outside world enters through `Env`: the clock read before the request,
 * the clock read once the response has arrived, what the request produced,
 * and the random draws for a simulated reading.
 */
module Api {
  import opened Js
  import opened Config
  import opened Aqi
  import opened Normaliser

  /** A cache entry: the processed reading and when it was stored (ms). */
  datatype Entry = Entry(data: Obj, timestamp: int)

  /**
   * What the request produced. `Failure` covers a network error, the timeout
   * abort, a non-OK status and a body that is not JSON; `Success` carries the
   * body's `results` (None when the body has none).
   */
  datatype Outcome = Failure | Success(results: Option<seq<Station>>)

  datatype Env = Env(now: int, later: int, outcome: Outcome, draws: Draws)

  /** The cache as a value: its entries and the keys in insertion order (the order `Map.keys()` yields). */
  datatype Store = Store(entries: map<string, Entry>, order: seq<string>)

  datatype CacheStats = CacheStats(size: nat, keys: seq<string>)

  /** The result of fetching a list of cities: one object per city, and the cache afterwards. */
  datatype Run = Run(results: seq<Obj>, store: Store)

  const EMPTY: Store := Store(map[], [])

  function CacheKey(city: string): string
  {
    "aqi-" + city
  }

  predicate Distinct(s: seq<string>)
  {
    forall i, j :: 0 <= i < j < |s| ==> s[i] != s[j]
  }

  /** `order` lists the members of `keys`, each exactly once. */
  predicate ListsKeys(order: seq<string>, keys: set<string>)
  {
    if order == [] then keys == {}
    else
      var last := order[|order| - 1];
      last in keys && ListsKeys(order[..|order| - 1], keys - {last})
  }

  /** The insertion order lists each cached key once, and every cached value is a reading. */
  ghost predicate ValidStore(s: Store)
  {
    ListsKeys(s.order, s.entries.Keys) &&
    (forall k :: k in s.entries ==> IsReading(s.entries[k].data))
  }

  predicate IsFresh(s: Store, key: string, now: int)
  {
    key in s.entries && now - s.entries[key].timestamp < CACHE_DURATION
  }

  /** `Map.set`: an existing key keeps its place in the order, a new key goes last. */
  function Put(s: Store, key: string, e: Entry): Store
  {
    Store(s.entries[key := e], if key in s.entries then s.order else s.order + [key])
  }

  /** `fetchAirQualityData` as a transition: the reading returned and the cache afterwards. */
  function Fetch(s: Store, city: string, env: Env): (Obj, Store)
  {
    var key := CacheKey(city);
    if IsFresh(s, key, env.now) then (s.entries[key].data, s)
    else match env.outcome
      case Failure => (GenerateSimulatedData(city, env.draws, env.later), s)
      case Success(results) =>
        var data := Normalise(results, city, env.later, env.draws);
        (data, Put(s, key, Entry(data, env.later)))
  }

  /** A configured city as an object, the left operand of `{...city, ...data}`. */
  function CityObj(c: City): Obj
  {
    map["name" := Text(c.name), "lat" := Num(c.lat), "lon" := Num(c.lon), "state" := Text(c.state)]
  }

  /** `fetchMultipleCities`, one city after the other. */
  function RunCities(s: Store, cities: seq<City>, envs: seq<Env>): (r: Run)
    requires |envs| == |cities|
    ensures |r.results| == |cities|
  {
    if cities == [] then Run([], s)
    else
      var n := |cities| - 1;
      Step(RunCities(s, cities[..n], envs[..n]), cities[n], envs[n])
  }

  /** One more city: fetch it against the cache so far and append `{...city, ...data}`. */
  function Step(r: Run, city: City, env: Env): Run
  {
    var (data, after) := Fetch(r.store, city.name, env);
    Run(r.results + [CityObj(city) + data], after)
  }

  /** `array.slice(i, i + n)` applied at i = 0, n, 2n, ... */
  function Chunk(s: seq<City>, n: nat): seq<seq<City>>
    requires n > 0
    decreases |s|
  {
    if s == [] then []
    else if |s| <= n then [s]
    else [s[..n]] + Chunk(s[n..], n)
  }

  function Flatten(bs: seq<seq<City>>): seq<City>
  {
    if bs == [] then [] else bs[0] + Flatten(bs[1..])
  }

  /** `s.slice(i)` */
  function Skip(s: seq<City>, i: nat): seq<City>
  {
    if i >= |s| then [] else s[i..]
  }

  /** The batching loop of `fetchAllCitiesData`: `cities.slice(i, i + batchSize)` for i = 0, batchSize, ... */
  method MakeBatches(cities: seq<City>, batchSize: nat) returns (batches: seq<seq<City>>)
    requires batchSize > 0
    ensures batches == Chunk(cities, batchSize)
  {
    batches := [];
    var i := 0;
    while i < |cities|
      invariant 0 <= i
      invariant batches + Chunk(Skip(cities, i), batchSize) == Chunk(cities, batchSize)
      decreases |cities| - i
    {
      ChunkStep(cities, i, batchSize);
      batches := batches + [cities[i..if i + batchSize <= |cities| then i + batchSize else |cities|]];
      i := i + batchSize;
    }
    assert Skip(cities, i) == [];
  }

  class ApiCache {
    var entries: map<string, Entry>
    var order: seq<string>

    function State(): Store
      reads this
    {
      Store(entries, order)
    }

    ghost predicate Valid()
      reads this
    {
      ValidStore(State())
    }

    constructor ()
      ensures Valid() && State() == EMPTY
    {
      entries := map[];
      order := [];
    }

    method FetchAirQualityData(city: string, env: Env) returns (data: Obj)
      requires Valid()
      modifies this
      ensures Valid()
      ensures (data, State()) == Fetch(old(State()), city, env)
    {
      FetchKeepsValid(State(), city, env);
      var cacheKey := "aqi-" + city;
      if cacheKey in entries {
        var cached := entries[cacheKey];
        if env.now - cached.timestamp < CACHE_DURATION {
          return cached.data;
        }
      }
      match env.outcome
      case Failure =>
        data := GenerateSimulatedData(city, env.draws, env.later);
      case Success(results) =>
        data := ProcessAirQualityData(results, city, env.later, env.draws);
        if cacheKey !in entries {
          order := order + [cacheKey];
        }
        entries := entries[cacheKey := Entry(data, env.later)];
    }

    /**
     * `fetchMultipleCities`. The source starts every request before awaiting
     * any, so each city reads the cache as it was before the batch; run one
     * after the other, that is the same only for distinct names, which is
     * all the source ever passes (`RunCitiesReadsInitial`).
     */
    method FetchMultipleCities(cities: seq<City>, envs: seq<Env>) returns (results: seq<Obj>)
      requires Valid() && |envs| == |cities| && DistinctNames(cities)
      modifies this
      ensures Valid()
      ensures Run(results, State()) == RunCities(old(State()), cities, envs)
    {
      results := [];
      var i := 0;
      while i < |cities|
        invariant 0 <= i <= |cities|
        invariant Valid()
        invariant Run(results, State()) == RunCities(old(State()), cities[..i], envs[..i])
      {
        var data := FetchAirQualityData(cities[i].name, envs[i]);
        results := results + [CityObj(cities[i]) + data];
        assert cities[..i + 1][..i] == cities[..i] && envs[..i + 1][..i] == envs[..i];
        i := i + 1;
      }
      assert cities[..i] == cities && envs[..i] == envs;
    }

    /**
     * `fetchAllCitiesData`: the configured cities in batches of five, one
     * batch after the other; `pauses` counts the one-second waits between
     * batches.
     */
    method FetchAllCitiesData(envs: seq<Env>) returns (all: seq<Obj>, pauses: nat)
      requires Valid() && |envs| == |CITIES|
      modifies this
      ensures Valid()
      ensures Run(all, State()) == RunCities(old(State()), CITIES, envs)
      ensures pauses == 3
    {
      CitiesBatches();
      CitiesDistinct();
      all, pauses := FetchInBatches(CITIES, envs, 5);
    }

    /** The body of `fetchAllCitiesData` for any list of cities and batch size. */
    method FetchInBatches(cities: seq<City>, envs: seq<Env>, batchSize: nat) returns (all: seq<Obj>, pauses: nat)
      requires Valid() && |envs| == |cities| && DistinctNames(cities) && batchSize > 0
      modifies this
      ensures Valid()
      ensures Run(all, State()) == RunCities(old(State()), cities, envs)
      ensures pauses == if cities == [] then 0 else |Chunk(cities, batchSize)| - 1
    {
      var batches := MakeBatches(cities, batchSize);
      FlattenChunk(cities, batchSize);
      all, pauses := FetchBatches(batches, cities, envs);
    }

    /** The loop of `fetchAllCitiesData` over the batches, pausing after every batch but the last. */
    method FetchBatches(batches: seq<seq<City>>, cities: seq<City>, envs: seq<Env>) returns (all: seq<Obj>, pauses: nat)
      requires Valid() && |envs| == |cities| && DistinctNames(cities) && Flatten(batches) == cities
      modifies this
      ensures Valid()
      ensures Run(all, State()) == RunCities(old(State()), cities, envs)
      ensures pauses == if batches == [] then 0 else |batches| - 1
    {
      all := [];
      pauses := 0;
      ghost var start := State();
      var offset := 0;
      var b := 0;
      while b < |batches|
        invariant 0 <= b <= |batches| && 0 <= offset <= |cities|
        invariant Flatten(batches[b..]) == cities[offset..]
        invariant Valid()
        invariant Run(all, State()) == RunCities(start, cities[..offset], envs[..offset])
        invariant pauses == if b == 0 then 0 else if b < |batches| then b else b - 1
      {
        var batch := batches[b];
        var next := offset + |batch|;
        NextBatch(batches, b, cities, offset, batch, next);
        DistinctSlice(cities, offset, next);
        var batchEnvs := envs[offset..next];
        ghost var mid := State();
        var batchResults := FetchMultipleCities(batch, batchEnvs);
        RunCitiesExtend(start, cities, envs, offset, next, batch, batchEnvs, all, mid, batchResults, State());
        all := all + batchResults;
        if b < |batches| - 1 {
          pauses := pauses + 1;
        }
        offset := next;
        b := b + 1;
      }
      assert cities[..offset] == cities && envs[..offset] == envs;
    }

    method ClearAPICache()
      modifies this
      ensures Valid() && State() == EMPTY
    {
      entries := map[];
      order := [];
    }

    /** `getCacheStats`: the number of cached entries and their keys in insertion order. */
    function GetCacheStats(): (stats: CacheStats)
      reads this
      requires Valid()
      ensures stats.size == |stats.keys| && Distinct(stats.keys)
      ensures forall k :: k in stats.keys <==> k in entries
    {
      ListsKeysMeaning(order, entries.Keys);
      CacheStats(|entries|, order)
    }
  }

  // ---------------------------------------------------------------------------
  // One fetch

  /** A fresh entry is returned as is and the cache does not change, whatever the network would do. */
  lemma FetchHit(s: Store, city: string, env: Env)
    requires IsFresh(s, CacheKey(city), env.now)
    ensures Fetch(s, city, env) == (s.entries[CacheKey(city)].data, s)
  {
  }

  /** Without a fresh entry, a response is processed at the time it arrived and stored under the city's key. */
  lemma FetchMissStores(s: Store, city: string, env: Env)
    requires !IsFresh(s, CacheKey(city), env.now) && env.outcome.Success?
    ensures var (data, s') := Fetch(s, city, env);
      data == Normalise(env.outcome.results, city, env.later, env.draws) &&
      s'.entries == s.entries[CacheKey(city) := Entry(data, env.later)] &&
      IsFresh(s', CacheKey(city), env.later)
  {
  }

  /** A failed request yields a simulated reading, and the fallback is never cached (a stale entry stays as it was). */
  lemma FetchFailureNotCached(s: Store, city: string, env: Env)
    requires !IsFresh(s, CacheKey(city), env.now) && env.outcome.Failure?
    ensures Fetch(s, city, env) == (GenerateSimulatedData(city, env.draws, env.later), s)
  {
  }

  /** A fetch touches only its own city's entry. */
  lemma FetchOthersUnchanged(s: Store, city: string, env: Env, key: string)
    requires key != CacheKey(city)
    ensures var s' := Fetch(s, city, env).1;
      (key in s'.entries <==> key in s.entries) &&
      (key in s.entries ==> s'.entries[key] == s.entries[key])
  {
  }

  /** Fetching keeps the cache well formed, and what it returns is a reading. */
  lemma FetchKeepsValid(s: Store, city: string, env: Env)
    requires ValidStore(s)
    ensures ValidStore(Fetch(s, city, env).1)
    ensures IsReading(Fetch(s, city, env).0)
  {
    var key := CacheKey(city);
    if !IsFresh(s, key, env.now) && env.outcome.Success? {
      var data := Normalise(env.outcome.results, city, env.later, env.draws);
      NormaliseIsReading(env.outcome.results, city, env.later, env.draws);
      var s' := Put(s, key, Entry(data, env.later));
      if key !in s.entries {
        ListsKeysAppend(s.order, s.entries.Keys, key);
        assert s'.entries.Keys == s.entries.Keys + {key};
      } else {
        assert s'.entries.Keys == s.entries.Keys;
      }
    }
  }

  /**
   * Two fetches of one city within CACHE_DURATION of the first response:
   * the second returns the first one's reading and never reaches the network.
   */
  lemma {:induction false} SecondFetchHits(s: Store, city: string, env1: Env, env2: Env)
    requires env1.outcome.Success? && !IsFresh(s, CacheKey(city), env1.now)
    requires env2.now - env1.later < CACHE_DURATION
    ensures var (data1, s1) := Fetch(s, city, env1);
      Fetch(s1, city, env2) == (data1, s1)
  {
    var (data1, s1) := Fetch(s, city, env1);
    FetchMissStores(s, city, env1);
    assert IsFresh(s1, CacheKey(city), env2.now);
    FetchHit(s1, city, env2);
  }

  /** A cached entry is never served once CACHE_DURATION ms have passed since it was stored. */
  lemma StaleNeverServed(s: Store, city: string, env: Env)
    requires CacheKey(city) in s.entries && env.now - s.entries[CacheKey(city)].timestamp >= CACHE_DURATION
    requires env.outcome.Success?
    ensures Fetch(s, city, env).0 == Normalise(env.outcome.results, city, env.later, env.draws)
  {
  }

  /** Different cities never share a cache entry. */
  lemma CacheKeyInjective(a: string, b: string)
    requires CacheKey(a) == CacheKey(b)
    ensures a == b
  {
    assert a == CacheKey(a)[4..] && b == CacheKey(b)[4..];
  }

  // ---------------------------------------------------------------------------
  // Several cities

  lemma {:induction false} RunCitiesShape(s: Store, cities: seq<City>, envs: seq<Env>)
    requires ValidStore(s) && |envs| == |cities|
    ensures var r := RunCities(s, cities, envs);
      ValidStore(r.store) && |r.results| == |cities| &&
      forall i :: 0 <= i < |cities| ==>
        IsReading(r.results[i]) && "name" in r.results[i] && "state" in r.results[i]
  {
    if cities != [] {
      var n := |cities| - 1;
      RunCitiesShape(s, cities[..n], envs[..n]);
      StepShape(RunCities(s, cities[..n], envs[..n]), cities[n], envs[n]);
    }
  }

  lemma StepShape(r: Run, city: City, env: Env)
    requires ValidStore(r.store)
    requires forall i :: 0 <= i < |r.results| ==>
      IsReading(r.results[i]) && "name" in r.results[i] && "state" in r.results[i]
    ensures var r' := Step(r, city, env);
      ValidStore(r'.store) && |r'.results| == |r.results| + 1 &&
      forall i :: 0 <= i < |r'.results| ==>
        IsReading(r'.results[i]) && "name" in r'.results[i] && "state" in r'.results[i]
  {
    FetchKeepsValid(r.store, city.name, env);
    var x := CityObj(city) + Fetch(r.store, city.name, env).0;
    assert IsReading(x) && "name" in x && "state" in x;
    assert Step(r, city, env).results == r.results + [x];
  }

  /**
   * The `i`-th result is `{...cities[i], ...data}`, where `data` is what
   * fetching `cities[i]` returns against the cache the first `i` cities left.
   */
  lemma {:induction false} RunCitiesAt(s: Store, cities: seq<City>, envs: seq<Env>, i: int)
    requires |envs| == |cities| && 0 <= i < |cities|
    ensures RunCities(s, cities, envs).results[i] ==
      CityObj(cities[i]) + Fetch(RunCities(s, cities[..i], envs[..i]).store, cities[i].name, envs[i]).0
    decreases |cities|
  {
    var n := |cities| - 1;
    if i < n {
      RunCitiesAt(s, cities[..n], envs[..n], i);
      RunCitiesEarlier(s, cities, envs, i);
      SlicePrefix(cities, n, i);
      SlicePrefix(envs, n, i);
    } else {
      RunCitiesLast(s, cities, envs);
    }
  }

  lemma RunCitiesLast(s: Store, cities: seq<City>, envs: seq<Env>)
    requires |envs| == |cities| && cities != []
    ensures var n := |cities| - 1;
      RunCities(s, cities, envs).results[n] ==
        CityObj(cities[n]) + Fetch(RunCities(s, cities[..n], envs[..n]).store, cities[n].name, envs[n]).0
  {
  }

  /** The last city does not change the results before it. */
  lemma RunCitiesEarlier(s: Store, cities: seq<City>, envs: seq<Env>, i: int)
    requires |envs| == |cities| && 0 <= i < |cities| - 1
    ensures var n := |cities| - 1;
      RunCities(s, cities, envs).results[i] == RunCities(s, cities[..n], envs[..n]).results[i]
  {
  }

  lemma SlicePrefix<T>(s: seq<T>, n: int, i: int)
    requires 0 <= i < n <= |s|
    ensures s[..n][..i] == s[..i] && s[..n][i] == s[i]
  {
  }

  /** A run over cities none of which maps to `key` leaves that entry as it was. */
  lemma {:induction false} RunCitiesOtherKey(s: Store, cities: seq<City>, envs: seq<Env>, key: string)
    requires |envs| == |cities|
    requires forall j :: 0 <= j < |cities| ==> CacheKey(cities[j].name) != key
    ensures var t := RunCities(s, cities, envs).store;
      (key in t.entries <==> key in s.entries) && (key in s.entries ==> t.entries[key] == s.entries[key])
    decreases |cities|
  {
    if cities != [] {
      var n := |cities| - 1;
      RunCitiesOtherKey(s, cities[..n], envs[..n], key);
      FetchOthersUnchanged(RunCities(s, cities[..n], envs[..n]).store, cities[n].name, envs[n], key);
    }
  }

  /** What a fetch returns depends only on its own city's entry. */
  lemma FetchSameEntry(s: Store, t: Store, city: string, env: Env)
    requires var key := CacheKey(city);
      (key in s.entries <==> key in t.entries) && (key in s.entries ==> s.entries[key] == t.entries[key])
    ensures Fetch(s, city, env).0 == Fetch(t, city, env).0
  {
  }

  /**
   * With distinct names, every city of a run reads the cache as it was
   * before the run, as the concurrent requests of one batch do: the
   * one-after-the-other model returns what `Promise.all` returns.
   */
  lemma RunCitiesReadsInitial(s: Store, cities: seq<City>, envs: seq<Env>, i: int)
    requires |envs| == |cities| && DistinctNames(cities) && 0 <= i < |cities|
    ensures RunCities(s, cities, envs).results[i] == CityObj(cities[i]) + Fetch(s, cities[i].name, envs[i]).0
  {
    RunCitiesAt(s, cities, envs, i);
    var key := CacheKey(cities[i].name);
    forall j | 0 <= j < i ensures CacheKey(cities[..i][j].name) != key {
      if CacheKey(cities[j].name) == key {
        CacheKeyInjective(cities[j].name, cities[i].name);
      }
    }
    RunCitiesOtherKey(s, cities[..i], envs[..i], key);
    FetchSameEntry(RunCities(s, cities[..i], envs[..i]).store, s, cities[i].name, envs[i]);
  }

  /** Fetching `a` and then `b` is fetching `a + b`: batching does not change the results or the cache. */
  lemma {:induction false} RunCitiesAppend(s: Store, a: seq<City>, b: seq<City>, ea: seq<Env>, eb: seq<Env>)
    requires |ea| == |a| && |eb| == |b|
    ensures var ra := RunCities(s, a, ea);
      var rb := RunCities(ra.store, b, eb);
      RunCities(s, a + b, ea + eb) == Run(ra.results + rb.results, rb.store)
    decreases |b|
  {
    if b == [] {
      assert a + b == a && ea + eb == ea;
    } else {
      var n := |b| - 1;
      RunCitiesAppend(s, a, b[..n], ea, eb[..n]);
      SnocJoin(a, b);
      SnocJoin(ea, eb);
      RunCitiesSnoc(s, a + b[..n], ea + eb[..n], a + b, ea + eb);
      RunCitiesSnoc(RunCities(s, a, ea).store, b[..n], eb[..n], b, eb);
      var ra := RunCities(s, a, ea);
      StepAppend(ra.results, RunCities(ra.store, b[..n], eb[..n]), b[n], eb[n]);
    }
  }

  /** The last city of a run is one `Step` after the run over the others. */
  lemma RunCitiesSnoc(s: Store, c: seq<City>, ec: seq<Env>, cx: seq<City>, ecx: seq<Env>)
    requires |ec| == |c| && |ecx| == |cx| == |c| + 1
    requires cx[..|c|] == c && ecx[..|c|] == ec
    ensures RunCities(s, cx, ecx) == Step(RunCities(s, c, ec), cx[|c|], ecx[|c|])
  {
  }

  lemma SnocJoin<T>(a: seq<T>, b: seq<T>)
    requires b != []
    ensures (a + b)[..|a| + |b| - 1] == a + b[..|b| - 1]
    ensures (a + b)[|a| + |b| - 1] == b[|b| - 1]
  {
  }

  /** The batch loop's step: a run over the next batch, from where the run so far left the cache, extends it. */
  lemma RunCitiesExtend(s0: Store, cities: seq<City>, envs: seq<Env>, offset: nat, next: nat,
                        batch: seq<City>, batchEnvs: seq<Env>,
                        done: seq<Obj>, mid: Store, results: seq<Obj>, end: Store)
    requires offset <= next <= |cities| == |envs|
    requires batch == cities[offset..next] && batchEnvs == envs[offset..next]
    requires Run(done, mid) == RunCities(s0, cities[..offset], envs[..offset])
    requires Run(results, end) == RunCities(mid, batch, batchEnvs)
    ensures Run(done + results, end) == RunCities(s0, cities[..next], envs[..next])
  {
    SliceJoin(cities, offset, next);
    SliceJoin(envs, offset, next);
    RunCitiesJoin(s0, cities[..offset], batch, envs[..offset], batchEnvs,
                  cities[..next], envs[..next], done, mid, results, end);
  }

  lemma RunCitiesJoin(s0: Store, a: seq<City>, b: seq<City>, ea: seq<Env>, eb: seq<Env>,
                      c: seq<City>, ec: seq<Env>, done: seq<Obj>, mid: Store, batch: seq<Obj>, end: Store)
    requires |ea| == |a| && |eb| == |b| && c == a + b && ec == ea + eb
    requires Run(done, mid) == RunCities(s0, a, ea)
    requires Run(batch, end) == RunCities(mid, b, eb)
    ensures Run(done + batch, end) == RunCities(s0, c, ec)
  {
    RunCitiesAppend(s0, a, b, ea, eb);
  }

  lemma SliceJoin<T>(s: seq<T>, i: nat, j: nat)
    requires i <= j <= |s|
    ensures s[..i] + s[i..j] == s[..j]
  {
  }

  lemma StepAppend(xs: seq<Obj>, r: Run, city: City, env: Env)
    ensures Step(Run(xs + r.results, r.store), city, env) ==
      Run(xs + Step(r, city, env).results, Step(r, city, env).store)
  {
    var (data, after) := Fetch(r.store, city.name, env);
    assert (xs + r.results) + [CityObj(city) + data] == xs + (r.results + [CityObj(city) + data]);
  }

  /** After a run in which every request succeeds, every city of the run has a fresh-at-arrival entry. */
  lemma {:induction false} SuccessfulRunCachesAll(s: Store, cities: seq<City>, envs: seq<Env>, k: int)
    requires |envs| == |cities| && 0 <= k < |cities|
    requires forall i :: 0 <= i < |envs| ==> envs[i].outcome.Success?
    ensures CacheKey(cities[k].name) in RunCities(s, cities, envs).store.entries
    decreases |cities|
  {
    var n := |cities| - 1;
    var before := RunCities(s, cities[..n], envs[..n]);
    if k < n {
      SuccessfulRunCachesAll(s, cities[..n], envs[..n], k);
    }
    StepCachesKey(before, cities[n], envs[n], CacheKey(cities[k].name));
  }

  /** A successful step caches its own city and drops no entry. */
  lemma StepCachesKey(r: Run, city: City, env: Env, key: string)
    requires env.outcome.Success?
    requires key == CacheKey(city.name) || key in r.store.entries
    ensures key in Step(r, city, env).store.entries
  {
    if key != CacheKey(city.name) {
      FetchOthersUnchanged(r.store, city.name, env, key);
    } else if !IsFresh(r.store, key, env.now) {
      FetchMissStores(r.store, city.name, env);
    }
  }

  // ---------------------------------------------------------------------------
  // Batches

  lemma ChunkStep(s: seq<City>, i: nat, n: nat)
    requires n > 0 && i < |s|
    ensures Chunk(Skip(s, i), n) == [s[i..if i + n <= |s| then i + n else |s|]] + Chunk(Skip(s, i + n), n)
  {
    var t := s[i..];
    if |t| <= n {
      assert Skip(s, i + n) == [];
      assert Chunk(t, n) == [t];
      assert s[i..if i + n <= |s| then i + n else |s|] == t;
    } else {
      assert t[..n] == s[i..i + n];
      assert t[n..] == Skip(s, i + n);
    }
  }

  /** The batches, put back together, are the original list in order. */
  lemma {:induction false} FlattenChunk(s: seq<City>, n: nat)
    requires n > 0
    ensures Flatten(Chunk(s, n)) == s
    decreases |s|
  {
    var c := Chunk(s, n);
    if s == [] {
    } else if |s| <= n {
      assert c == [s] && c[1..] == [];
    } else {
      FlattenChunk(s[n..], n);
      assert c[0] == s[..n] && c[1..] == Chunk(s[n..], n);
      assert s[..n] + s[n..] == s;
    }
  }

  /** No batch is empty or longer than `n`, and only an empty list has no batches. */
  lemma {:induction false} ChunkSizes(s: seq<City>, n: nat)
    requires n > 0
    ensures Chunk(s, n) == [] <==> s == []
    ensures forall k :: 0 <= k < |Chunk(s, n)| ==> 0 < |Chunk(s, n)[k]| <= n
    decreases |s|
  {
    if s != [] && |s| > n {
      ChunkSizes(s[n..], n);
      var c := Chunk(s, n);
      var c' := Chunk(s[n..], n);
      assert c[1..] == c';
      forall k | 0 < k < |c| ensures 0 < |c[k]| <= n {
        assert c[k] == c'[k - 1];
      }
    }
  }

  /** There are ceil(|s| / n) batches: the last one holds between 1 and n cities. */
  lemma {:induction false} ChunkCount(s: seq<City>, n: nat)
    requires n > 0 && s != []
    ensures (|Chunk(s, n)| - 1) * n < |s| <= |Chunk(s, n)| * n
    decreases |s|
  {
    if |s| > n {
      ChunkCount(s[n..], n);
      var m := |Chunk(s[n..], n)|;
      assert |Chunk(s, n)| == m + 1;
      assert (m + 1) * n == m * n + n;
    }
  }

  /** The twenty configured cities are fetched in four batches, so three pauses. */
  lemma CitiesBatches()
    ensures |Chunk(CITIES, 5)| == 4
  {
    ChunkCount(CITIES, 5);
  }

  lemma FlattenAppend(a: seq<seq<City>>, b: seq<seq<City>>)
    ensures Flatten(a + b) == Flatten(a) + Flatten(b)
  {
    if a == [] {
      assert a + b == b;
    } else {
      assert (a + b)[0] == a[0] && (a + b)[1..] == a[1..] + b;
      FlattenAppend(a[1..], b);
      assert Flatten(a + b) == a[0] + (Flatten(a[1..]) + Flatten(b));
    }
  }

  lemma FlattenSplit(bs: seq<seq<City>>, b: int)
    requires 0 <= b < |bs|
    ensures Flatten(bs[..b + 1]) == Flatten(bs[..b]) + bs[b]
    ensures Flatten(bs[b..]) == bs[b] + Flatten(bs[b + 1..])
  {
    FlattenAppend(bs[..b], [bs[b]]);
    assert bs[..b + 1] == bs[..b] + [bs[b]];
    assert bs[b..][1..] == bs[b + 1..];
  }

  /** The next batch is the next slice of the cities, and the batches after it cover the rest. */
  lemma NextBatch(batches: seq<seq<City>>, b: nat, cities: seq<City>, offset: nat, batch: seq<City>, next: int)
    requires b < |batches| && offset <= |cities|
    requires Flatten(batches[b..]) == cities[offset..]
    requires batch == batches[b] && next == offset + |batch|
    ensures next <= |cities| && cities[offset..next] == batch
    ensures Flatten(batches[b + 1..]) == cities[next..]
  {
    FlattenSplit(batches, b);
    SliceSplit(cities, offset, batches[b], Flatten(batches[b + 1..]));
  }

  lemma DistinctSlice(cities: seq<City>, i: int, j: int)
    requires 0 <= i <= j <= |cities| && DistinctNames(cities)
    ensures DistinctNames(cities[i..j])
  {
    forall a, b | 0 <= a < b < j - i ensures cities[i..j][a].name != cities[i..j][b].name {
      assert cities[i..j][a] == cities[i + a] && cities[i..j][b] == cities[i + b];
    }
  }

  lemma SliceSplit(s: seq<City>, i: nat, x: seq<City>, y: seq<City>)
    requires i <= |s| && s[i..] == x + y
    ensures i + |x| <= |s| && s[i..i + |x|] == x && s[i + |x|..] == y
  {
    assert s[i..i + |x|] == (x + y)[..|x|];
    assert s[i + |x|..] == (x + y)[|x|..];
  }

  /** A new key goes at the end of the order. */
  lemma ListsKeysAppend(order: seq<string>, keys: set<string>, k: string)
    requires ListsKeys(order, keys) && k !in keys
    ensures ListsKeys(order + [k], keys + {k})
  {
    var o := order + [k];
    assert o[..|o| - 1] == order;
    assert (keys + {k}) - {k} == keys;
  }

  /** An order that lists a key set has no repeats, the same members, and as many entries as the set. */
  lemma {:induction false} ListsKeysMeaning(order: seq<string>, keys: set<string>)
    requires ListsKeys(order, keys)
    ensures Distinct(order) && |order| == |keys|
    ensures forall k :: k in order <==> k in keys
    decreases |order|
  {
    if order != [] {
      var n := |order| - 1;
      var last := order[n];
      ListsKeysMeaning(order[..n], keys - {last});
      assert order == order[..n] + [last];
      forall i, j | 0 <= i < j < |order| ensures order[i] != order[j] {
        if j < n {
          assert order[i] == order[..n][i] && order[j] == order[..n][j];
        } else {
          assert order[i] == order[..n][i];
        }
      }
      assert keys == (keys - {last}) + {last};
    }
  }
}
