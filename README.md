# Urban AirWatch data path, modelled in Dafny

This project models the data path of the Urban AirWatch air-quality
dashboard. A PM2.5 reading becomes an AQI number and then one of India's six
AQI categories. Raw station measurements are normalised into one reading per
city. A simulated reading stands in when live data is missing. Per-city
responses are cached for five minutes. All configured cities are fetched in
batches of five. Beside the data path, the model covers the small helpers
around it: colour brightening, the pollutant status panel and its bar chart,
the "top six cities" lists and the two e-mail checks of the login page.

Everything outside the browser is a parameter:

- the clock is an integer number of milliseconds;
- each `Math.random()` draw is a bounded integer (or real) argument;
- the outcome of a request is `Failure | Success(results)`.

Given those, every operation is deterministic.

One module per source file or concern:

| file | module | models |
|---|---|---|
| `js.dfy` | `Js` | the JavaScript built-ins used: objects as maps, truthiness, `x \|\| 0`, object spread, `Math.round`, `toLowerCase` |
| `config.dfy` | `Config` | `CONFIG.API`, `CONFIG.CITIES`, `CONFIG.AQI_CATEGORIES` (`js/config.js`) |
| `aqi.dfy` | `Aqi` | `calculateAQI`, `getAQICategory`, `generateSimulatedData`, `generateTrendData` (`js/utils.js`) |
| `colour.dfy` | `Colour` | `adjustBrightness` (`js/utils.js`), including `parseInt(…, 16)`, int32 conversion, `toString(16)` and `padStart` |
| `normaliser.dfy` | `Normaliser` | `processAirQualityData` (`js/api.js`): nested loops proved against a specification function |
| `api.dfy` | `Api` | the response cache (a class), `fetchAirQualityData`, `fetchMultipleCities`, `fetchAllCitiesData`, `clearAPICache`, `getCacheStats` (`js/api.js`) |
| `pollutants.dfy` | `Pollutants` | `getPollutantStatus`, the threshold table, the CO ×10 / ÷10 scaling, `adjustColor` (`js/state.js`) |
| `ranking.dfy` | `Ranking` | the top-six list of `updateCityList` and `openCompareModal` (`js/ui.js`) |
| `login.dfy` | `Login` | `validateEmail`, `validateGovtEmail` (`js/login.js`) |

Modelling choices:

- A JavaScript object is a `map<string, Value>`. Spread `{...a, ...b}` is
  the right-biased map union `a + b`.
- `Math.round(x)` is `Floor(x + 1/2)` over exact reals.
- Strings are `seq<char>`. `toLowerCase` maps the ASCII letters only.
- The cache is a class with a `map` of entries and the keys in insertion
  order, which is the order `Map.keys()` lists them in. Each method is proved
  equal to a pure transition function (`Api.Fetch`, `Api.RunCities`), and
  the lemmas are stated about those functions.
- The `Promise.all` fan-out inside a batch runs one city after the other
  here. `fetchMultipleCities` starts every request before it awaits any, so
  each city reads the cache as it was before the batch. For cities with
  distinct names the two agree (`Api.RunCitiesReadsInitial`), and the
  batch methods require distinct names, which the configured cities have.

A failed request is not cached (`js/api.js:51-56`). A successful response
with missing or empty `results` is processed into a simulated reading, and
that reading is cached like any other (`js/api.js:42-47`, `63-65`).
`Api.Fetch` caches it.

## Model

| member | source | states |
|---|---|---|
| `Js.Round` | js/utils.js:20 | `Math.round` gives the integer within half a unit, halves going up |
| `Js.NumOrZero` | js/state.js:96 | `data.x \|\| 0`: a falsy or missing property reads as 0, a number reads as itself |
| `Js.Overlay` | js/api.js:120-123 | `{...city, ...data}` has the keys of both, and data wins on a shared key |
| `Js.ToLowerCase` | js/login.js:114 | lower-casing keeps the length and maps each character on its own |
| `Config.CategoriesTile` | js/config.js:47-108 | six bands, ascending, abutting, tiling 0..999, the last one Severe |
| `Config.TilesPartition` | js/config.js:47-108 | bands that tile a range hold each value of it, and are pairwise disjoint |
| `Config.AscendingBands` | js/config.js:47-108 | each band lies wholly below the next |
| `Config.CitiesDistinct` | js/config.js:23-44 | twenty cities with pairwise distinct names |
| `Aqi.CalculateAQI` | js/utils.js:18-32 | definition: the six branches, each rounded with `Math.round`; its properties are the lemmas below |
| `Aqi.CalculateAQIInterpolates` | js/utils.js:18-32 | the six branches equal the rounded linear interpolation between the breakpoints (0,0), (30,50), (60,100), (90,200), (120,300), (250,400), extended past 250 |
| `Aqi.InterpolateBreakpoints` | js/utils.js:19-31 | the branch chain is the breakpoint interpolation, so the formula's reference definition |
| `Aqi.BreakpointsExact` | js/utils.js:19-31 | 0→0, 30→50, 60→100, 90→200, 120→300, 250→400 exactly |
| `Aqi.BranchesAgreeAtEdges` | js/utils.js:19-31 | adjacent segments of the breakpoint table meet at their shared breakpoint, at its AQI: the curve has no jumps |
| `Aqi.CalculateAQIMonotone` | js/utils.js:18-32 | a higher PM2.5 never gives a lower AQI |
| `Aqi.CalculateAQINonNegative` | js/utils.js:19-20 | PM2.5 ≥ 0 gives AQI ≥ 0 |
| `Aqi.NoUpperClamp` | js/utils.js:29-30 | the top band is open: 380→500, anything above 381 exceeds 500, and every AQI ≥ 400 is reached |
| `Aqi.FirstMatch` | js/utils.js:7-12 | the loop stops at the first band holding the value, or at the last band when none does |
| `Aqi.GetAQICategory` | js/utils.js:6-13 | first band whose inclusive [min, max] holds the value; Severe when none does |
| `Aqi.CategoryHoldsValue` | js/utils.js:7-11 | each integer 0..999 gets the unique band that holds it |
| `Aqi.UnmatchedIsSevere` | js/utils.js:12 | negatives, values above 999 and values strictly between 50 and 51 are Severe |
| `Aqi.BandEdgesMatchBreakpoints` | js/config.js:48-90 | the band maxima 50/100/200/300/400 are `calculateAQI` at the PM2.5 breakpoints |
| `Aqi.BaseAqi` | js/utils.js:39-52 | the tabled base for the ten listed cities, 100 for any other |
| `Aqi.SimulatedAqi` | js/utils.js:52-54 | base + offset clamped to [30, 500]; within [base−20, base+19] for a tabled city, [80, 119] otherwise |
| `Aqi.GenerateSimulatedData` | js/utils.js:56-66 | the record has city, timestamp, and numeric AQI, PM2.5 and PM10 (its values are stated by `Aqi.SimulatedReadingShape`) |
| `Aqi.SimulatedReadingShape` | js/utils.js:55-66 | AQI in [30, 500], PM2.5 = AQI/2.5, PM10 = 1.5·PM2.5 exactly; NO2 ∈ [20,79], SO2 ∈ [5,34], O3 ∈ [30,129] whole numbers; CO ∈ [0.5, 2.5] |
| `Aqi.ClampReal` | js/utils.js:137 | the clamped value lies in the range and an in-range value is unchanged |
| `Aqi.TrendAt` | js/utils.js:136-142 | a trend day's AQI is in [30, 500] and its PM2.5 in [12, 200] |
| `Aqi.GenerateTrendData` | js/utils.js:128-148 | max(days, 0) points, oldest first (days−1 down to 0 days ago), each the rounded clamped AQI and its rounded PM2.5 |
| `Colour.ParseInt16` | js/utils.js:235 | `parseInt(s, 16)` is NaN exactly when `s` does not start with a hex digit |
| `Colour.RemoveFirstHash` | js/utils.js:235 | `replace('#', '')` drops a leading `#` and leaves a string without one alone |
| `Colour.ToInt32` | js/utils.js:236-238 | the bitwise operators see a 32-bit value, unchanged for a value below 2^31 |
| `Colour.Clamp255` | js/utils.js:234 | the clamp lands in [0, 255] and keeps values already there |
| `Colour.Hex6Shape` | js/utils.js:239 | `toString(16).padStart(6, '0')` of a 24-bit number is six lower-case digits denoting it |
| `Colour.ToHexStringValue` | js/utils.js:239 | `toString(16)` prints lower-case digits whose value is the number |
| `Colour.AdjustBrightness` | js/utils.js:233-240 | the result is always `#` and six lower-case hex digits |
| `Colour.AdjustBrightnessValue` | js/utils.js:236-239 | the output digits denote the three clamped channels of the parsed input |
| `Colour.AdjustBrightnessChannels` | js/utils.js:233-240 | every output channel is the input channel plus `amount`, clamped to [0, 255] |
| `Colour.AdjustBrightnessZero` | js/utils.js:233-240 | amount 0 returns the lower-case form of a `#rrggbb` input |
| `Colour.HexValueInjective` | js/utils.js:239 | equal-length lower-case hex strings with equal values are equal |
| `Normaliser.Grouped` | js/api.js:71-82 | every parameter in the dictionary has at least one value |
| `Normaliser.Aggregate` | js/api.js:67-82 | the nested loops build the grouped dictionary of all measurements and collect one timestamp per measurement, the first one first |
| `Normaliser.AddStation` | js/api.js:72-81 | the inner loop files one station's measurements after those seen so far, and appends one timestamp each |
| `Normaliser.AddAverages` | js/api.js:90-94 | the keys loop writes each parameter's mean over the base object |
| `Normaliser.Normalise` | js/api.js:62-112 | definition: a missing or empty `results` gives a simulated reading, otherwise the AQI step applied to the averages; characterised by the lemmas below |
| `Normaliser.Averaged` | js/api.js:84-94 | definition: city and first timestamp, then one mean per reported parameter; characterised by `Normaliser.AveragedAt` |
| `Normaliser.DeriveAqi` | js/api.js:96-109 | definition: the three-way AQI step; characterised by `DeriveFromPm25`, `DeriveFromPm10`, `DeriveSimulated` and `DeriveAqiKeeps` |
| `Normaliser.AllMeasurementsAppend` | js/api.js:72-81 | the measurements of two station lists in a row are those of the first followed by those of the second |
| `Normaliser.ProcessAirQualityData` | js/api.js:62-112 | the method computes the specification function `Normalise` |
| `Normaliser.CalculateAqiStep` | js/api.js:96-109 | the final `if` chain computes the AQI step `DeriveAqi` |
| `Normaliser.GroupedIsValuesOf` | js/api.js:71-82 | the dictionary holds a parameter iff some measurement names it, with all its values in order |
| `Normaliser.AveragedAt` | js/api.js:85-94 | before the AQI step: city, first timestamp (else now), and each reported parameter's mean |
| `Normaliser.DeriveAqiKeeps` | js/api.js:97-109 | the AQI step changes only `aqi`, `pm25` and `pm10` |
| `Normaliser.DeriveFromPm25` | js/api.js:97-98 | a truthy PM2.5 is kept and the AQI computed from it |
| `Normaliser.DeriveFromPm10` | js/api.js:99-102 | a falsy PM2.5 and truthy PM10 give PM2.5 = PM10·0.5 and the AQI of that |
| `Normaliser.DeriveSimulated` | js/api.js:103-108 | otherwise AQI, PM2.5 and PM10 are the simulated reading's |
| `Normaliser.NormaliseMeans` | js/api.js:84-94 | every other reported parameter ends as the mean of all its values over all stations |
| `Normaliser.NormaliseHeader` | js/api.js:85-88 | city and timestamp (first `lastUpdated`, else now) unless a parameter of that name overwrites them |
| `Normaliser.AqiFromPm25` | js/api.js:97-98 | a non-zero mean PM2.5 gives AQI = calculateAQI(mean); any reported AQI is discarded |
| `Normaliser.AqiFromPm10` | js/api.js:99-102 | absent or zero mean PM2.5 with non-zero mean PM10 gives PM2.5 = PM10·0.5 and its AQI |
| `Normaliser.AqiSimulated` | js/api.js:103-108 | with neither, AQI, PM2.5 and PM10 come from a simulated reading |
| `Normaliser.NormaliseIsReading` | js/api.js:62-112 | every normalised result has city, timestamp, numeric AQI and PM2.5 |
| `Normaliser.Pm10OnlyExample` | js/api.js:99-102 | a single PM10 = 80 measurement gives PM2.5 = 40 and AQI 67 |
| `Api.Fetch` | js/api.js:11-57 | definition of the cache transition: a fresh entry is returned unchanged, a failure gives a simulated reading, a response is normalised and stored; characterised by the `Fetch…` lemmas below |
| `Api.RunCities` | js/api.js:117-134 | one result per city, in input order |
| `Api.Step` | js/api.js:118-123 | definition: fetch one city against the cache so far and append `{...city, ...data}`; characterised by `Api.RunCitiesAt` |
| `Api.Chunk` | js/api.js:146-151 | definition: `slice(i, i + n)` at i = 0, n, 2n, ...; characterised by `FlattenChunk`, `ChunkSizes` and `ChunkCount` |
| `Api.MakeBatches` | js/api.js:146-151 | the slicing loop builds exactly the chunks of size `batchSize` |
| `Api.ApiCache.constructor` | js/api.js:6 | the cache starts empty |
| `Api.ApiCache.FetchAirQualityData` | js/api.js:11-57 | the method performs the cache transition `Fetch` and keeps the cache well formed |
| `Api.ApiCache.FetchMultipleCities` | js/api.js:117-134 | for distinct names: one `{...city, ...data}` per city, in input order, results and cache as the run `RunCities` |
| `Api.ApiCache.FetchAllCitiesData` | js/api.js:139-166 | all twenty configured cities, results and cache as one sequential run, with three pauses |
| `Api.ApiCache.FetchInBatches` | js/api.js:146-163 | batching any list of distinct names gives the same results and cache as one run, with one pause fewer than batches |
| `Api.ApiCache.FetchBatches` | js/api.js:153-163 | the batch loop concatenates batch results in order and pauses after every batch but the last |
| `Api.ApiCache.ClearAPICache` | js/api.js:197-200 | the cache is empty afterwards |
| `Api.ApiCache.GetCacheStats` | js/api.js:205-210 | `size` is the number of cached keys and `entries` lists exactly those keys, each once |
| `Api.FetchHit` | js/api.js:15-21 | a fresh entry (now − stored < 300000, strict) is returned and the cache is unchanged |
| `Api.FetchMissStores` | js/api.js:39-49 | otherwise a response is normalised, stored with the arrival time, and returned |
| `Api.FetchFailureNotCached` | js/api.js:51-56 | a failed request returns a simulated reading and leaves the cache as it was, stale entry included |
| `Api.FetchOthersUnchanged` | js/api.js:44-47 | a fetch touches only its own city's entry |
| `Api.FetchKeepsValid` | js/api.js:11-57 | the cache stays well formed and every returned value is a reading |
| `Api.SecondFetchHits` | js/api.js:15-21 | a second fetch within 300000 ms of the first response returns the same reading and never reaches the network |
| `Api.StaleNeverServed` | js/api.js:17 | an entry 300000 ms old or older is not returned |
| `Api.CacheKeyInjective` | js/api.js:12 | different cities have different cache keys |
| `Api.RunCitiesShape` | js/api.js:117-134 | a run returns one reading per city, each carrying the city's name and state |
| `Api.RunCitiesAt` | js/api.js:118-123 | the i-th result is `{...cities[i], ...data}` with `data` what fetching city i returns against the cache the first i cities left |
| `Api.RunCitiesOtherKey` | js/api.js:44-47 | a run over cities none of which has a given cache key leaves that entry as it was |
| `Api.FetchSameEntry` | js/api.js:12-21 | what a fetch returns depends on its own city's entry only |
| `Api.RunCitiesReadsInitial` | js/api.js:117-134 | with distinct names, the i-th result is `{...cities[i], ...data}` with `data` fetched against the cache as it was before the run, as the concurrent requests of `Promise.all` read it |
| `Api.RunCitiesAppend` | js/api.js:155-158 | running `a` then `b` equals running `a + b`: batching is invisible in results and cache |
| `Api.RunCitiesExtend` | js/api.js:155-158 | one more batch extends the run so far |
| `Api.SuccessfulRunCachesAll` | js/api.js:44-47 | after a run where every request succeeds, every city has a cache entry |
| `Api.FlattenChunk` | js/api.js:149-151 | concatenating the batches gives back the input |
| `Api.ChunkSizes` | js/api.js:149-151 | every batch holds 1 to `n` cities, and only an empty list has no batches |
| `Api.ChunkCount` | js/api.js:149-151 | there are ceil(len/n) batches |
| `Api.CitiesBatches` | js/api.js:146-151 | the twenty configured cities make four batches |
| `Pollutants.GetPollutantStatus` | js/state.js:155-163 | Good iff value ≤ good, Moderate iff good < value ≤ moderate, Poor otherwise |
| `Pollutants.PollutantValue` | js/state.js:96 | a missing or falsy pollutant reads as 0 |
| `Pollutants.PanelStatuses` | js/state.js:93-139 | one status per panel row, from `data.x \|\| 0` and the row's threshold |
| `Pollutants.StatusMonotone` | js/state.js:155-163 | for every threshold, a larger value never gets a better status |
| `Pollutants.PoorBoundUnused` | js/state.js:99 | the `poor` bound does not affect the status |
| `Pollutants.AbovePoorIsPoor` | js/state.js:160-161 | values above `poor` are still Poor; there is no fourth level |
| `Pollutants.ThresholdsOrdered` | js/state.js:93-135 | every threshold has 0 < good < moderate < poor |
| `Pollutants.MissingIsGood` | js/state.js:96-135 | a pollutant absent from the reading shows as Good |
| `Pollutants.ChartValues` | js/state.js:275-282 | the bar heights are the readings, CO multiplied by 10 |
| `Pollutants.TooltipShowsReading` | js/state.js:327-334 | the tooltip shows each pollutant's own reading: the CO scaling is undone |
| `Pollutants.AdjustColor` | js/state.js:367-374 | `adjustColor` computes the same function as `adjustBrightness`, on every input |
| `Pollutants.AdjustColorChannels` | js/state.js:367-374 | its result is `#` and six lower-case hex digits, each channel the input's plus `amount`, clamped to [0, 255] |
| `Ranking.Aqi` | js/ui.js:81 | definition: the sort key `city.aqi`, a missing one reading as 0 |
| `Ranking.TopCities` | js/ui.js:80-82 | definition: the first six of the sorted copy; characterised by `Ranking.TopCitiesShape` and `Ranking.LeftOutRankLower` |
| `Ranking.Insert` | js/ui.js:81 | inserting adds exactly one record |
| `Ranking.InsertPermutes` | js/ui.js:81 | insertion adds the record and loses none |
| `Ranking.InsertSorted` | js/ui.js:81 | insertion keeps the list highest-AQI first |
| `Ranking.SortByAqi` | js/ui.js:80-81 | the sorted copy has the input's length |
| `Ranking.SortByAqiCorrect` | js/ui.js:80-81 | the sorted copy is a permutation of the input, highest AQI first |
| `Ranking.SortStable` | js/ui.js:81 | records with equal AQI keep their input order |
| `Ranking.TopCitiesShape` | js/ui.js:80-82 | min(6, n) entries, non-increasing in AQI, each taken from the input at most as often as it occurs there |
| `Ranking.LeftOutRankLower` | js/ui.js:80-82 | a city left out has AQI no higher than any listed city |
| `Ranking.ThreeCitiesExample` | js/ui.js:111-113 | AQIs 50, 300, 120 are listed as 300, 120, 50 |
| `Login.ValidateEmail` | js/login.js:104-107 | definition in one pass: no white space, one `@` not first, a `.` strictly inside the domain; `Login.ValidateEmailMatchesPattern` proves it is the regular expression |
| `Login.ValidateGovtEmail` | js/login.js:112-115 | definition: `some(endsWith)` over the lower-cased address; characterised by `Login.ValidateGovtEmailIff` |
| `Login.IndexOf` | js/login.js:105 | the first position of a character, or the length when it is absent |
| `Login.ValidateEmailMatchesPattern` | js/login.js:104-107 | accepted iff the string matches `^[^\s@]+@[^\s@]+\.[^\s@]+$` |
| `Login.ValidateEmailSound` | js/login.js:105-106 | every accepted string matches the pattern |
| `Login.ValidateEmailComplete` | js/login.js:105-106 | every string matching the pattern is accepted |
| `Login.PatternPositions` | js/login.js:105 | a match has no white space and a single `@` |
| `Login.ValidateEmailRejects` | js/login.js:105-106 | "a@b@c.d", "a@b.", "a@.b", "a @b.c" and "@b.c" are rejected |
| `Login.ValidateEmailAccepts` | js/login.js:105-106 | "a@b.c" is accepted |
| `Login.SomeEndsWith` | js/login.js:114 | `some(endsWith)` holds iff one of the suffixes ends the string |
| `Login.ValidateGovtEmailIff` | js/login.js:112-115 | accepted iff the lower-cased address ends with ".gov.in", ".nic.in" or ".gov" |
| `Login.ValidateGovtEmailIgnoresCase` | js/login.js:114 | addresses that agree up to letter case get the same answer |
| `Login.GovtCheckNeedsNoAt` | js/login.js:113-114 | "dept.gov" passes the government check but not the address check |
| `Login.GovtCheckUpperCase` | js/login.js:114 | "Officer@DELHI.NIC.IN" is accepted |

## Left out

- DOM and Chart.js rendering, modals, listeners, Leaflet maps and markers,
  geocoding, the login form handlers and the page bootstrap are not part of
  this model. They are presentation or external libraries.
- Network I/O (`fetch`, `AbortController`, the 10000 ms timeout) is the
  `Outcome` parameter. `Failure` stands for a thrown error, an abort, a
  non-OK status, a body that is not JSON, and an exception inside
  `processAirQualityData` on a malformed station. All of these land in the
  same `catch`.
- The one-second pause between batches is a returned count of pauses, not
  a delay.
- The `catch` branches of `fetchMultipleCities` and `fetchAllCitiesData` are
  not modelled. `fetchAirQualityData` catches every failure itself, so the
  per-city `catch` (`js/api.js:124-130`) only runs when logging throws. The
  `catch` of `fetchAllCitiesData` covers only its `try` (`js/api.js:144`);
  `showLoading()` runs before it (`js/api.js:142`), so a throw there escapes,
  and only logging inside the `try` can reach that `catch`.
- The order in which `Map.set` adds new keys inside one batch follows the
  order in which the responses arrive, which `getCacheStats().entries`
  exposes. The model adds them in input order, so `Store.order` is one of the
  orders the source can produce, not every one.
- `Api.ApiCache.FetchMultipleCities`: requires distinct city names. With a
  name repeated inside one batch the source sends both requests, because
  every cache read comes before any `await`, while one-after-the-other
  fetches would let the second hit the first's entry. Its only caller passes
  slices of the configured cities, which are distinct (`Config.CitiesDistinct`).
- `Api.ApiCache.FetchInBatches`: requires distinct city names, for the same
  reason; `Api.ApiCache.FetchBatches` passes that on to each batch.
- `CONFIG.API.RETRY_ATTEMPTS` is a constant that no code reads, so no retry
  is modelled. `TIMEOUT` only bounds the left-out request.
- `Math.random()` draws are parameters, already floored where the source
  floors them. The CO draw is kept as tenths, and the `co` field is the
  number those tenths denote rather than the `toFixed(1)` string.
- Numbers are exact reals, not IEEE-754 doubles. Rounding differences at
  `.5` edges and `parseInt` results above 2^53 are not modelled.
- Dates are integers: timestamps in milliseconds, and trend days as a day
  offset. `toISOString`, `toLocaleDateString` and `formatTimestamp` are not
  modelled.
- `Colour.ParseInt16`: does not model `parseInt`'s skipping of leading white
  space, its sign, or its `0x` prefix. Colours in this code are always `#`
  followed by hex digits.
- `Aqi.BaseAqi` and `Normaliser.Grouped`: do not model JavaScript's
  inherited object properties. A city or parameter named like an
  `Object.prototype` member, such as `constructor`, behaves differently in
  the source.
- Measurement values are numbers here. The source adds whatever `value`
  holds.
- `Js.ToLowerCase`: maps only the ASCII letters, while JavaScript lower-cases
  all of Unicode. This can change `validateGovtEmail` only for a non-ASCII
  character whose lower-case form is ASCII.
- `localStorage`, `sanitizeInput`, `debounce`, `isMobile`,
  `showLoading`/`hideLoading` and `formatNumber` are not modelled. They are
  browser services or formatting.
