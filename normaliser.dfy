/**
 * `processAirQualityData` of the API script: fold the stations' measurement
 * lists into a dictionary of per-parameter value lists, average each list,
 * and derive the AQI from PM2.5 (or from PM10 * 0.5, or from a simulated
 * reading). The method keeps the source's nested loops; the function
 * `Normalise` states what it computes, and the lemmas state what that means.
 */
module Normaliser {
  import opened Js
  import opened Aqi

  /** One entry of a station's `measurements` list; `lastUpdated` is a time in ms. */
  datatype Measurement = Measurement(parameter: string, value: real, lastUpdated: int)

  datatype Station = Station(measurements: seq<Measurement>)

  /** The lower-cased parameter name a measurement is filed under. */
  function Key(m: Measurement): string
  {
    ToLowerCase(m.parameter)
  }

  /** Every measurement of every station, station by station, in order. */
  function AllMeasurements(stations: seq<Station>): seq<Measurement>
  {
    if stations == [] then []
    else stations[0].measurements + AllMeasurements(stations[1..])
  }

  /** Reference definition: the values reported for parameter `p`, in order. */
  function ValuesOf(ms: seq<Measurement>, p: string): seq<real>
  {
    if ms == [] then []
    else ValuesOf(ms[..|ms| - 1], p) + (if Key(ms[|ms| - 1]) == p then [ms[|ms| - 1].value] else [])
  }

  /** The `measurements` dictionary after the loops have seen `ms`. */
  function Grouped(ms: seq<Measurement>): (g: map<string, seq<real>>)
    ensures forall p :: p in g ==> |g[p]| > 0
  {
    if ms == [] then map[]
    else
      var g := Grouped(ms[..|ms| - 1]);
      var m := ms[|ms| - 1];
      var p := Key(m);
      g[p := (if p in g then g[p] else []) + [m.value]]
  }

  /** `values.reduce((sum, val) => sum + val, 0)` */
  function Sum(xs: seq<real>): real
  {
    if xs == [] then 0.0 else Sum(xs[..|xs| - 1]) + xs[|xs| - 1]
  }

  function Mean(xs: seq<real>): real
    requires |xs| > 0
  {
    Sum(xs) / |xs| as real
  }

  /** The object literal the averages are written into. */
  function Base(city: string, stamp: int): Obj
  {
    map["city" := Text(city), "timestamp" := Time(stamp)]
  }

  /** The averages of the parameters in `ks`. */
  function AveragesOver(g: map<string, seq<real>>, ks: set<string>): Obj
    requires forall p :: p in g ==> |g[p]| > 0
  {
    map p | p in ks && p in g :: Num(Mean(g[p]))
  }

  /** The AQI step: from PM2.5 if truthy, else from PM10 * 0.5 if truthy, else simulated. */
  function DeriveAqi(processed: Obj, city: string, d: Draws, now: int): Obj
  {
    if Truthy(processed, "pm25") then
      processed["aqi" := Num(CalculateAQI(NumOrZero(processed, "pm25")) as real)]
    else if Truthy(processed, "pm10") then
      var pm25 := NumOrZero(processed, "pm10") * 0.5;
      processed["pm25" := Num(pm25)]["aqi" := Num(CalculateAQI(pm25) as real)]
    else
      var simulated := GenerateSimulatedData(city, d, now);
      processed["aqi" := simulated["aqi"]]["pm25" := simulated["pm25"]]["pm10" := simulated["pm10"]]
  }

  /**
   * What `processAirQualityData` returns. `None` stands for a missing body or
   * a body without `results`; `now` is the clock and `d` the random draws of
   * the simulated reading, should one be needed.
   */
  function Normalise(results: Option<seq<Station>>, city: string, now: int, d: Draws): Obj
  {
    if results.None? || results.value == [] then GenerateSimulatedData(city, d, now)
    else DeriveAqi(Averaged(AllMeasurements(results.value), city, now), city, d, now)
  }

  /** The object before the AQI step: city, first timestamp, then one mean per parameter. */
  function Averaged(ms: seq<Measurement>, city: string, now: int): Obj
  {
    var g := Grouped(ms);
    Base(city, if |ms| > 0 then ms[0].lastUpdated else now) + AveragesOver(g, g.Keys)
  }

  method ProcessAirQualityData(results: Option<seq<Station>>, city: string, now: int, d: Draws)
    returns (processed: Obj)
    ensures processed == Normalise(results, city, now, d)
  {
    if results.None? || results.value == [] {
      return GenerateSimulatedData(city, d, now);
    }
    var measurements, timestamps := Aggregate(results.value);
    processed := map["city" := Text(city),
                     "timestamp" := Time(if |timestamps| > 0 then timestamps[0] else now)];
    processed := AddAverages(processed, measurements);
    AveragedIsNormalised(results, city, now, d, processed);
    processed := CalculateAqiStep(processed, city, now, d);
  }

  /** The final `if` chain: AQI from PM2.5, else from PM10 * 0.5, else from a simulated reading. */
  method CalculateAqiStep(averaged: Obj, city: string, now: int, d: Draws) returns (processed: Obj)
    ensures processed == DeriveAqi(averaged, city, d, now)
  {
    processed := averaged;
    if Truthy(processed, "pm25") {
      processed := processed["aqi" := Num(CalculateAQI(NumOrZero(processed, "pm25")) as real)];
    } else if Truthy(processed, "pm10") {
      processed := processed["pm25" := Num(NumOrZero(processed, "pm10") * 0.5)];
      assert NumOrZero(processed, "pm25") == NumOrZero(averaged, "pm10") * 0.5;
      processed := processed["aqi" := Num(CalculateAQI(NumOrZero(processed, "pm25")) as real)];
    } else {
      var simulated := GenerateSimulatedData(city, d, now);
      processed := processed["aqi" := simulated["aqi"]];
      processed := processed["pm25" := simulated["pm25"]];
      processed := processed["pm10" := simulated["pm10"]];
    }
  }

  /** The two nested `forEach` loops: file each value under its lower-cased parameter, collect timestamps. */
  method Aggregate(stations: seq<Station>) returns (measurements: map<string, seq<real>>, timestamps: seq<int>)
    ensures measurements == Grouped(AllMeasurements(stations))
    ensures var ms := AllMeasurements(stations);
      |timestamps| == |ms| && (|ms| > 0 ==> timestamps[0] == ms[0].lastUpdated)
  {
    measurements := map[];
    timestamps := [];
    // `seen` is what the loops have visited so far.
    ghost var seen: seq<Measurement> := [];
    var i := 0;
    while i < |stations|
      invariant 0 <= i <= |stations|
      invariant seen == AllMeasurements(stations[..i])
      invariant measurements == Grouped(seen)
      invariant |timestamps| == |seen| && (|seen| > 0 ==> timestamps[0] == seen[0].lastUpdated)
    {
      measurements, timestamps := AddStation(measurements, timestamps, stations[i], seen);
      AllMeasurementsSnoc(stations, i);
      seen := seen + stations[i].measurements;
      i := i + 1;
    }
    assert stations[..i] == stations;
  }

  /**
   * The inner `forEach` over one station's measurements. Given the dictionary
   * and timestamps of the measurements `seen` so far, it files this
   * station's measurements after them.
   */
  method AddStation(measurements0: map<string, seq<real>>, timestamps0: seq<int>, station: Station,
                    ghost seen: seq<Measurement>)
    returns (measurements: map<string, seq<real>>, timestamps: seq<int>)
    requires measurements0 == Grouped(seen)
    requires |timestamps0| == |seen| && (|seen| > 0 ==> timestamps0[0] == seen[0].lastUpdated)
    ensures var all := seen + station.measurements;
      measurements == Grouped(all) &&
      |timestamps| == |all| && (|all| > 0 ==> timestamps[0] == all[0].lastUpdated)
  {
    measurements, timestamps := measurements0, timestamps0;
    ghost var done := seen;
    var j := 0;
    while j < |station.measurements|
      invariant 0 <= j <= |station.measurements|
      invariant done == seen + station.measurements[..j]
      invariant measurements == Grouped(done)
      invariant |timestamps| == |done| && (|done| > 0 ==> timestamps[0] == done[0].lastUpdated)
    {
      var measurement := station.measurements[j];
      var param := ToLowerCase(measurement.parameter);
      GroupedSnoc(done, measurement);
      if param !in measurements {
        measurements := measurements[param := []];
      }
      measurements := measurements[param := measurements[param] + [measurement.value]];
      timestamps := timestamps + [measurement.lastUpdated];
      SnocSlice(seen, station.measurements, j);
      done := done + [measurement];
      j := j + 1;
    }
    assert station.measurements[..j] == station.measurements;
  }

  /** The loop over `Object.keys(measurements)`: write each parameter's mean into `processed`. */
  method AddAverages(base: Obj, measurements: map<string, seq<real>>) returns (processed: Obj)
    requires forall p :: p in measurements ==> |measurements[p]| > 0
    ensures processed == base + AveragesOver(measurements, measurements.Keys)
  {
    processed := base;
    // `done` holds the parameters already written.
    ghost var done: set<string> := {};
    var keys := measurements.Keys;
    while keys != {}
      invariant done + keys == measurements.Keys && done !! keys
      invariant processed == base + AveragesOver(measurements, done)
      decreases keys
    {
      var param :| param in keys;
      var values := measurements[param];
      AveragesStep(measurements, done, param);
      UpdateAfterMerge(base, AveragesOver(measurements, done), param, Num(Mean(values)));
      processed := processed[param := Num(Sum(values) / |values| as real)];
      keys := keys - {param};
      done := done + {param};
    }
  }

  lemma AveragedIsNormalised(results: Option<seq<Station>>, city: string, now: int, d: Draws, averaged: Obj)
    requires results.Some? && results.value != []
    requires averaged == Averaged(AllMeasurements(results.value), city, now)
    ensures Normalise(results, city, now, d) == DeriveAqi(averaged, city, d, now)
  {
  }

  lemma AllMeasurementsSnoc(stations: seq<Station>, i: int)
    requires 0 <= i < |stations|
    ensures AllMeasurements(stations[..i + 1]) == AllMeasurements(stations[..i]) + stations[i].measurements
  {
    assert stations[..i + 1] == stations[..i] + [stations[i]];
    AllMeasurementsAppend(stations[..i], [stations[i]]);
    assert [stations[i]][1..] == [];
  }

  /** Measurements of two station lists in a row are those of the first, then those of the second. */
  lemma {:induction false} AllMeasurementsAppend(a: seq<Station>, b: seq<Station>)
    ensures AllMeasurements(a + b) == AllMeasurements(a) + AllMeasurements(b)
    decreases |a|
  {
    if a == [] {
      assert a + b == b;
    } else {
      assert (a + b)[1..] == a[1..] + b;
      AllMeasurementsAppend(a[1..], b);
    }
  }

  lemma SnocSlice(a: seq<Measurement>, b: seq<Measurement>, j: int)
    requires 0 <= j < |b|
    ensures a + b[..j + 1] == a + b[..j] + [b[j]]
  {
    assert b[..j + 1] == b[..j] + [b[j]];
  }

  lemma GroupedSnoc(ms: seq<Measurement>, m: Measurement)
    ensures var g := Grouped(ms);
      Grouped(ms + [m]) == g[Key(m) := (if Key(m) in g then g[Key(m)] else []) + [m.value]]
  {
    assert (ms + [m])[..|ms|] == ms;
  }

  lemma AveragesStep(g: map<string, seq<real>>, done: set<string>, p: string)
    requires forall q :: q in g ==> |g[q]| > 0
    requires p in g
    ensures AveragesOver(g, done + {p}) == AveragesOver(g, done)[p := Num(Mean(g[p]))]
  {
  }

  lemma UpdateAfterMerge(base: Obj, over: Obj, k: string, v: Value)
    ensures (base + over)[k := v] == base + over[k := v]
  {
  }

  // ---------------------------------------------------------------------------
  // What the normalised reading holds

  /** The dictionary built by the loops files every value under its parameter, in order. */
  lemma {:induction false} GroupedIsValuesOf(ms: seq<Measurement>, p: string)
    ensures p in Grouped(ms) <==> ValuesOf(ms, p) != []
    ensures p in Grouped(ms) ==> Grouped(ms)[p] == ValuesOf(ms, p)
  {
    if ms != [] {
      GroupedIsValuesOf(ms[..|ms| - 1], p);
    }
  }

  /** Which keys the object holds before the AQI step, and their values. */
  lemma AveragedAt(ms: seq<Measurement>, city: string, now: int, p: string)
    ensures var a := Averaged(ms, city, now);
      (p in a <==> p == "city" || p == "timestamp" || ValuesOf(ms, p) != []) &&
      (ValuesOf(ms, p) != [] ==> a[p] == Num(Mean(ValuesOf(ms, p)))) &&
      (ValuesOf(ms, p) == [] && p == "city" ==> a[p] == Text(city)) &&
      (ValuesOf(ms, p) == [] && p == "timestamp" ==>
         a[p] == Time(if |ms| > 0 then ms[0].lastUpdated else now))
  {
    GroupedIsValuesOf(ms, p);
  }

  /** The AQI step touches only `aqi`, `pm25` and `pm10`. */
  lemma DeriveAqiKeeps(processed: Obj, city: string, d: Draws, now: int, k: string)
    requires k != "aqi" && k != "pm25" && k != "pm10"
    ensures var r := DeriveAqi(processed, city, d, now);
      (k in r <==> k in processed) && (k in processed ==> r[k] == processed[k])
  {
  }

  /** The AQI step when PM2.5 is a non-zero number `m`. */
  lemma DeriveFromPm25(processed: Obj, city: string, d: Draws, now: int, m: real)
    requires "pm25" in processed && processed["pm25"] == Num(m) && m != 0.0
    ensures var r := DeriveAqi(processed, city, d, now);
      "pm25" in r && r["pm25"] == Num(m) && "aqi" in r && r["aqi"] == Num(CalculateAQI(m) as real)
  {
  }

  /** The AQI step when PM2.5 is falsy and PM10 is a non-zero number `m`. */
  lemma DeriveFromPm10(processed: Obj, city: string, d: Draws, now: int, m: real)
    requires !Truthy(processed, "pm25")
    requires "pm10" in processed && processed["pm10"] == Num(m) && m != 0.0
    ensures var r := DeriveAqi(processed, city, d, now);
      "pm25" in r && r["pm25"] == Num(m * 0.5) &&
      "aqi" in r && r["aqi"] == Num(CalculateAQI(m * 0.5) as real) &&
      "pm10" in r && r["pm10"] == Num(m)
  {
  }

  /** The AQI step when both PM2.5 and PM10 are falsy. */
  lemma DeriveSimulated(processed: Obj, city: string, d: Draws, now: int)
    requires !Truthy(processed, "pm25") && !Truthy(processed, "pm10")
    ensures var r := DeriveAqi(processed, city, d, now);
      var sim := GenerateSimulatedData(city, d, now);
      "aqi" in r && "aqi" in sim && r["aqi"] == sim["aqi"] &&
      "pm25" in r && "pm25" in sim && r["pm25"] == sim["pm25"] &&
      "pm10" in r && "pm10" in sim && r["pm10"] == sim["pm10"]
  {
  }

  /**
   * Every parameter other than the three the AQI step rewrites ends up as
   * the arithmetic mean of all values reported for it, over all stations.
   */
  lemma NormaliseMeans(stations: seq<Station>, city: string, now: int, d: Draws, p: string)
    requires stations != []
    requires ValuesOf(AllMeasurements(stations), p) != []
    requires p != "aqi" && p != "pm25" && p != "pm10"
    ensures var r := Normalise(Some(stations), city, now, d);
      p in r && r[p] == Num(Mean(ValuesOf(AllMeasurements(stations), p)))
  {
    var ms := AllMeasurements(stations);
    AveragedAt(ms, city, now, p);
    DeriveAqiKeeps(Averaged(ms, city, now), city, d, now, p);
  }

  /** Unless a parameter of that name is reported, `city` and `timestamp` keep their initial values. */
  lemma NormaliseHeader(stations: seq<Station>, city: string, now: int, d: Draws)
    requires stations != []
    ensures ValuesOf(AllMeasurements(stations), "city") == [] ==>
      Normalise(Some(stations), city, now, d)["city"] == Text(city)
    ensures var ms := AllMeasurements(stations);
      ValuesOf(ms, "timestamp") == [] ==>
        Normalise(Some(stations), city, now, d)["timestamp"] == Time(if ms != [] then ms[0].lastUpdated else now)
  {
    var ms := AllMeasurements(stations);
    var a := Averaged(ms, city, now);
    AveragedAt(ms, city, now, "city");
    AveragedAt(ms, city, now, "timestamp");
    DeriveAqiKeeps(a, city, d, now, "city");
    DeriveAqiKeeps(a, city, d, now, "timestamp");
  }

  /** When the mean PM2.5 is non-zero, the AQI is computed from it (any reported AQI is overwritten). */
  lemma AqiFromPm25(stations: seq<Station>, city: string, now: int, d: Draws)
    requires stations != []
    requires var pm25 := ValuesOf(AllMeasurements(stations), "pm25");
      pm25 != [] && Mean(pm25) != 0.0
    ensures var pm25 := ValuesOf(AllMeasurements(stations), "pm25");
      var r := Normalise(Some(stations), city, now, d);
      "pm25" in r && r["pm25"] == Num(Mean(pm25)) &&
      "aqi" in r && r["aqi"] == Num(CalculateAQI(Mean(pm25)) as real)
  {
    var ms := AllMeasurements(stations);
    AveragedAt(ms, city, now, "pm25");
    DeriveFromPm25(Averaged(ms, city, now), city, d, now, Mean(ValuesOf(ms, "pm25")));
  }

  /**
   * When no PM2.5 was reported, or its mean is 0, but the mean PM10 is
   * non-zero, PM2.5 is estimated as half of PM10 and the AQI computed from that.
   */
  lemma AqiFromPm10(stations: seq<Station>, city: string, now: int, d: Draws)
    requires stations != []
    requires var pm25 := ValuesOf(AllMeasurements(stations), "pm25");
      pm25 == [] || Mean(pm25) == 0.0
    requires var pm10 := ValuesOf(AllMeasurements(stations), "pm10");
      pm10 != [] && Mean(pm10) != 0.0
    ensures var pm10 := ValuesOf(AllMeasurements(stations), "pm10");
      var r := Normalise(Some(stations), city, now, d);
      "pm25" in r && r["pm25"] == Num(Mean(pm10) * 0.5) &&
      "aqi" in r && r["aqi"] == Num(CalculateAQI(Mean(pm10) * 0.5) as real) &&
      "pm10" in r && r["pm10"] == Num(Mean(pm10))
  {
    NormaliseStations(stations, city, now, d);
    AveragedFromPm10(AllMeasurements(stations), city, now, d);
  }

  /** The PM10 fallback, stated on the averaged measurements. */
  lemma AveragedFromPm10(ms: seq<Measurement>, city: string, now: int, d: Draws)
    requires ValuesOf(ms, "pm25") == [] || Mean(ValuesOf(ms, "pm25")) == 0.0
    requires ValuesOf(ms, "pm10") != [] && Mean(ValuesOf(ms, "pm10")) != 0.0
    ensures var m := Mean(ValuesOf(ms, "pm10"));
      var r := DeriveAqi(Averaged(ms, city, now), city, d, now);
      "pm25" in r && r["pm25"] == Num(m * 0.5) &&
      "aqi" in r && r["aqi"] == Num(CalculateAQI(m * 0.5) as real) &&
      "pm10" in r && r["pm10"] == Num(m)
  {
    AveragedFalsy(ms, city, now, "pm25");
    AveragedAt(ms, city, now, "pm10");
    DeriveFromPm10(Averaged(ms, city, now), city, d, now, Mean(ValuesOf(ms, "pm10")));
  }

  /** For a non-empty station list the result is the AQI step applied to the averages. */
  lemma NormaliseStations(stations: seq<Station>, city: string, now: int, d: Draws)
    requires stations != []
    ensures Normalise(Some(stations), city, now, d) ==
      DeriveAqi(Averaged(AllMeasurements(stations), city, now), city, d, now)
  {
  }

  /** A parameter never reported, or whose mean is 0, is falsy in the averaged object. */
  lemma AveragedFalsy(ms: seq<Measurement>, city: string, now: int, p: string)
    requires p != "city" && p != "timestamp"
    requires ValuesOf(ms, p) == [] || Mean(ValuesOf(ms, p)) == 0.0
    ensures !Truthy(Averaged(ms, city, now), p)
  {
    AveragedAt(ms, city, now, p);
  }

  /** With neither a non-zero PM2.5 nor a non-zero PM10 mean, AQI, PM2.5 and PM10 come from a simulated reading. */
  lemma AqiSimulated(stations: seq<Station>, city: string, now: int, d: Draws)
    requires stations != []
    requires var pm25 := ValuesOf(AllMeasurements(stations), "pm25");
      pm25 == [] || Mean(pm25) == 0.0
    requires var pm10 := ValuesOf(AllMeasurements(stations), "pm10");
      pm10 == [] || Mean(pm10) == 0.0
    ensures var r := Normalise(Some(stations), city, now, d);
      var sim := GenerateSimulatedData(city, d, now);
      "aqi" in r && "aqi" in sim && r["aqi"] == sim["aqi"] &&
      "pm25" in r && "pm25" in sim && r["pm25"] == sim["pm25"] &&
      "pm10" in r && "pm10" in sim && r["pm10"] == sim["pm10"]
  {
    var ms := AllMeasurements(stations);
    AveragedAt(ms, city, now, "pm25");
    AveragedAt(ms, city, now, "pm10");
    DeriveSimulated(Averaged(ms, city, now), city, d, now);
  }

  /** A normalised reading always carries a city, a timestamp, and a numeric AQI and PM2.5. */
  lemma NormaliseIsReading(results: Option<seq<Station>>, city: string, now: int, d: Draws)
    ensures IsReading(Normalise(results, city, now, d))
  {
    if results.Some? && results.value != [] {
      var stations := results.value;
      var ms := AllMeasurements(stations);
      var a := Averaged(ms, city, now);
      AveragedAt(ms, city, now, "city");
      AveragedAt(ms, city, now, "timestamp");
      DeriveAqiKeeps(a, city, d, now, "city");
      DeriveAqiKeeps(a, city, d, now, "timestamp");
      var pm25, pm10 := ValuesOf(ms, "pm25"), ValuesOf(ms, "pm10");
      if pm25 != [] && Mean(pm25) != 0.0 {
        AqiFromPm25(stations, city, now, d);
      } else if pm10 != [] && Mean(pm10) != 0.0 {
        AqiFromPm10(stations, city, now, d);
      } else {
        AqiSimulated(stations, city, now, d);
      }
    }
  }

  /** Stations reporting only PM10 = 80 give PM2.5 = 40 and the AQI of 40, which is 67. */
  lemma Pm10OnlyExample(city: string, now: int, d: Draws)
    ensures var r := Normalise(Some([Station([Measurement("PM10", 80.0, 5)])]), city, now, d);
      r["pm25"] == Num(40.0) && r["aqi"] == Num(CalculateAQI(40.0) as real) && CalculateAQI(40.0) == 67
  {
    var stations := [Station([Measurement("PM10", 80.0, 5)])];
    var ms := AllMeasurements(stations);
    assert stations[..0] == [];
    assert ms == [Measurement("PM10", 80.0, 5)];
    assert ms[..0] == [];
    var k := Key(ms[0]);
    assert |k| == 4 && k[0] == 'p' && k[1] == 'm' && k[2] == '1' && k[3] == '0';
    assert k == "pm10";
    assert ValuesOf(ms, "pm25") == [];
    assert ValuesOf(ms, "pm10") == [80.0];
    assert [80.0][..0] == [];
    assert Mean([80.0]) == 80.0;
    AqiFromPm10(stations, city, now, d);
  }
}
