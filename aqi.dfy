/**
 * The AQI helpers of the dashboard's utility script: the PM2.5 to AQI
 * formula, the category lookup, and the generators of simulated readings
 * used when live data is unavailable. Random draws are parameters here:
 * each is the integer `Math.floor(Math.random() * k)` the source computes,
 * or the real `Math.random() * 40 - 20` of a trend day.
 */
module Aqi {
  import opened Config
  import opened Js

  // ---------------------------------------------------------------------------
  // PM2.5 to AQI

  /** A breakpoint: a PM2.5 concentration and the AQI it maps to. */
  datatype Breakpoint = Breakpoint(pm: real, index: real)

  /** Band edges of the PM2.5 sub-index table, with the AQI of each edge. */
  const BREAKPOINTS: seq<Breakpoint> := [
    Breakpoint(0.0, 0.0), Breakpoint(30.0, 50.0), Breakpoint(60.0, 100.0),
    Breakpoint(90.0, 200.0), Breakpoint(120.0, 300.0), Breakpoint(250.0, 400.0)
  ]

  ghost predicate Ascending(bs: seq<Breakpoint>)
  {
    forall i :: 0 <= i < |bs| - 1 ==> bs[i].pm < bs[i + 1].pm
  }

  /** The straight line through two breakpoints, evaluated at `x`. */
  function Line(p: Breakpoint, q: Breakpoint, x: real): real
    requires p.pm < q.pm
  {
    p.index + (x - p.pm) / (q.pm - p.pm) * (q.index - p.index)
  }

  /**
   * Reference definition: linear interpolation between consecutive
   * breakpoints, extended beyond both ends of the table along the first and
   * the last segment.
   */
  function Interpolate(bs: seq<Breakpoint>, x: real): real
    requires |bs| >= 2 && Ascending(bs)
  {
    if |bs| == 2 || x <= bs[1].pm then Line(bs[0], bs[1], x)
    else Interpolate(bs[1..], x)
  }

  /** The unrounded value of `calculateAQI`'s six branches. */
  function Unrounded(pm25: real): real
  {
    if pm25 <= 30.0 then (pm25 / 30.0) * 50.0
    else if pm25 <= 60.0 then 50.0 + ((pm25 - 30.0) / 30.0) * 50.0
    else if pm25 <= 90.0 then 100.0 + ((pm25 - 60.0) / 30.0) * 100.0
    else if pm25 <= 120.0 then 200.0 + ((pm25 - 90.0) / 30.0) * 100.0
    else if pm25 <= 250.0 then 300.0 + ((pm25 - 120.0) / 130.0) * 100.0
    else 400.0 + ((pm25 - 250.0) / 130.0) * 100.0
  }

  /** `calculateAQI`: six branches, each rounded with `Math.round`. */
  function CalculateAQI(pm25: real): int
  {
    if pm25 <= 30.0 then Round((pm25 / 30.0) * 50.0)
    else if pm25 <= 60.0 then Round(50.0 + ((pm25 - 30.0) / 30.0) * 50.0)
    else if pm25 <= 90.0 then Round(100.0 + ((pm25 - 60.0) / 30.0) * 100.0)
    else if pm25 <= 120.0 then Round(200.0 + ((pm25 - 90.0) / 30.0) * 100.0)
    else if pm25 <= 250.0 then Round(300.0 + ((pm25 - 120.0) / 130.0) * 100.0)
    else Round(400.0 + ((pm25 - 250.0) / 130.0) * 100.0)
  }

  /**
   * The six branches are the breakpoint interpolation, rounded. The
   * open-ended top band continues the slope of the 120..250 segment, so
   * nothing caps the result at 500.
   */
  lemma CalculateAQIInterpolates(pm25: real)
    ensures CalculateAQI(pm25) == Round(Interpolate(BREAKPOINTS, pm25))
  {
    InterpolateBreakpoints(pm25);
  }

  lemma InterpolateBreakpoints(x: real)
    ensures Ascending(BREAKPOINTS)
    ensures Interpolate(BREAKPOINTS, x) == Unrounded(x)
  {
    var bs := BREAKPOINTS;
    assert bs[1..][1..] == bs[2..] && bs[2..][1..] == bs[3..] && bs[3..][1..] == bs[4..];
    if x > 30.0 {
      assert Interpolate(bs, x) == Interpolate(bs[1..], x);
      if x > 60.0 {
        assert Interpolate(bs[1..], x) == Interpolate(bs[2..], x);
        if x > 90.0 {
          assert Interpolate(bs[2..], x) == Interpolate(bs[3..], x);
          if x > 120.0 {
            assert Interpolate(bs[3..], x) == Interpolate(bs[4..], x);
            assert Interpolate(bs[4..], x) == Line(bs[4], bs[5], x);
          }
        }
      }
    }
  }

  /** The formula meets every breakpoint exactly. */
  lemma BreakpointsExact()
    ensures CalculateAQI(0.0) == 0 && CalculateAQI(30.0) == 50 && CalculateAQI(60.0) == 100
    ensures CalculateAQI(90.0) == 200 && CalculateAQI(120.0) == 300 && CalculateAQI(250.0) == 400
  {
  }

  /**
   * Adjacent segments of the breakpoint table meet at the breakpoint they
   * share, at that breakpoint's AQI: the curve has no jumps.
   */
  lemma BranchesAgreeAtEdges()
    ensures Ascending(BREAKPOINTS)
    ensures forall k :: 1 <= k < |BREAKPOINTS| - 1 ==>
      Line(BREAKPOINTS[k - 1], BREAKPOINTS[k], BREAKPOINTS[k].pm) == BREAKPOINTS[k].index &&
      Line(BREAKPOINTS[k], BREAKPOINTS[k + 1], BREAKPOINTS[k].pm) == BREAKPOINTS[k].index
  {
    var bs := BREAKPOINTS;
    forall k | 1 <= k < |bs| - 1
      ensures Line(bs[k - 1], bs[k], bs[k].pm) == bs[k].index && Line(bs[k], bs[k + 1], bs[k].pm) == bs[k].index
    {
      assert k == 1 || k == 2 || k == 3 || k == 4;
    }
  }

  lemma UnroundedMonotone(x: real, y: real)
    requires x <= y
    ensures Unrounded(x) <= Unrounded(y)
  {
  }

  /** A higher concentration never gives a lower AQI. */
  lemma CalculateAQIMonotone(x: real, y: real)
    requires x <= y
    ensures CalculateAQI(x) <= CalculateAQI(y)
  {
    InterpolateBreakpoints(x);
    InterpolateBreakpoints(y);
    UnroundedMonotone(x, y);
    RoundMonotone(Unrounded(x), Unrounded(y));
  }

  lemma CalculateAQINonNegative(pm25: real)
    requires pm25 >= 0.0
    ensures CalculateAQI(pm25) >= 0
  {
    InterpolateBreakpoints(pm25);
  }

  /**
   * The top band is open-ended: 380 maps to 500, anything above 381 maps
   * above 500, and every AQI from 400 upwards is reached exactly.
   */
  lemma NoUpperClamp(pm25: real, n: int)
    requires n >= 400
    ensures CalculateAQI(380.0) == 500
    ensures pm25 > 381.0 ==> CalculateAQI(pm25) > 500
    ensures CalculateAQI(250.0 + 1.3 * (n - 400) as real) == n
  {
    InterpolateBreakpoints(pm25);
    InterpolateBreakpoints(250.0 + 1.3 * (n - 400) as real);
  }

  // ---------------------------------------------------------------------------
  // Category lookup

  predicate InBand(c: Category, aqi: real)
  {
    c.min as real <= aqi <= c.max as real
  }

  /**
   * The index the `for ... of` loop of `getAQICategory` stops at: the first
   * band holding `aqi`, or the last band when none does.
   */
  function FirstMatch(t: seq<Category>, aqi: real): (k: nat)
    requires |t| > 0
    ensures k < |t|
    ensures forall j :: 0 <= j < k ==> !InBand(t[j], aqi)
    ensures InBand(t[k], aqi) || (k == |t| - 1 && forall j :: 0 <= j < |t| ==> !InBand(t[j], aqi))
  {
    if InBand(t[0], aqi) || |t| == 1 then 0 else 1 + FirstMatch(t[1..], aqi)
  }

  function GetAQICategory(aqi: real): (c: Category)
    ensures (exists j :: 0 <= j < |AQI_CATEGORIES| && InBand(AQI_CATEGORIES[j], aqi)) ==>
              InBand(c, aqi) &&
              exists k :: 0 <= k < |AQI_CATEGORIES| && c == AQI_CATEGORIES[k] &&
                forall j :: 0 <= j < k ==> !InBand(AQI_CATEGORIES[j], aqi)
    ensures (forall j :: 0 <= j < |AQI_CATEGORIES| ==> !InBand(AQI_CATEGORIES[j], aqi)) ==>
              c == AQI_CATEGORIES[|AQI_CATEGORIES| - 1]
  {
    AQI_CATEGORIES[FirstMatch(AQI_CATEGORIES, aqi)]
  }

  /** Every integer AQI from 0 to 999 lands in the band that holds it, and that band is unique. */
  lemma CategoryHoldsValue(n: int)
    requires 0 <= n <= 999
    ensures InBand(GetAQICategory(n as real), n as real)
    ensures forall j :: 0 <= j < |AQI_CATEGORIES| && InBand(AQI_CATEGORIES[j], n as real) ==>
              GetAQICategory(n as real) == AQI_CATEGORIES[j]
  {
    CategoriesTile();
    TilesPartition(AQI_CATEGORIES, 0, 999, n);
  }

  /** Values that no band holds (negatives, above 999, gaps such as 50.5) are Severe. */
  lemma UnmatchedIsSevere(aqi: real)
    requires aqi < 0.0 || aqi > 999.0 || (50.0 < aqi < 51.0)
    ensures GetAQICategory(aqi).title == "Severe"
  {
  }

  /** The band upper bounds are the formula's outputs at the breakpoints. */
  lemma BandEdgesMatchBreakpoints()
    ensures AQI_CATEGORIES[0].max == CalculateAQI(30.0)
    ensures AQI_CATEGORIES[1].max == CalculateAQI(60.0)
    ensures AQI_CATEGORIES[2].max == CalculateAQI(90.0)
    ensures AQI_CATEGORIES[3].max == CalculateAQI(120.0)
    ensures AQI_CATEGORIES[4].max == CalculateAQI(250.0)
  {
  }

  // ---------------------------------------------------------------------------
  // Simulated readings

  const BASE_AQI: map<string, int> := map[
    "Delhi" := 180, "Mumbai" := 120, "Bangalore" := 90, "Hyderabad" := 110,
    "Chennai" := 95, "Kolkata" := 130, "Pune" := 100, "Ahmedabad" := 140,
    "Jaipur" := 150, "Lucknow" := 160]

  /** `baseAQI[cityName] || 100`; no tabled base is 0, so this is lookup-or-default. */
  function BaseAqi(city: string): (b: int)
    ensures city in BASE_AQI ==> b == BASE_AQI[city]
    ensures city !in BASE_AQI ==> b == 100
  {
    if city in BASE_AQI && BASE_AQI[city] != 0 then BASE_AQI[city] else 100
  }

  /**
   * The random draws of one `generateSimulatedData` call, each already
   * floored: `variation` = floor(r*40), `no2` = floor(r*60), `so2` = floor(r*30),
   * `o3` = floor(r*100); `coTenths` is ten times `(r*2 + 0.5).toFixed(1)`.
   */
  datatype Draws = Draws(variation: int, no2: int, so2: int, coTenths: int, o3: int)

  predicate ValidDraws(d: Draws)
  {
    0 <= d.variation < 40 && 0 <= d.no2 < 60 && 0 <= d.so2 < 30 &&
    5 <= d.coTenths <= 25 && 0 <= d.o3 < 100
  }

  function Clamp(lo: int, hi: int, x: int): int
  {
    if x < lo then lo else if x > hi then hi else x
  }

  /** The simulated AQI: the city's base plus an offset in [-20, 19], clamped to [30, 500]. */
  function SimulatedAqi(city: string, d: Draws): (aqi: int)
    ensures 30 <= aqi <= 500
    ensures ValidDraws(d) && city in BASE_AQI ==> BASE_AQI[city] - 20 <= aqi <= BASE_AQI[city] + 19
    ensures ValidDraws(d) && city !in BASE_AQI ==> 80 <= aqi <= 119
  {
    Clamp(30, 500, BaseAqi(city) + (d.variation - 20))
  }

  function GenerateSimulatedData(city: string, d: Draws, now: int): (r: Obj)
    ensures IsReading(r) && "pm10" in r && r["pm10"].Num?
  {
    var aqi := SimulatedAqi(city, d);
    map[
      "aqi" := Num(aqi as real),
      "pm25" := Num(aqi as real / 2.5),
      "pm10" := Num((aqi as real / 2.5) * 1.5),
      "no2" := Num((d.no2 + 20) as real),
      "so2" := Num((d.so2 + 5) as real),
      "co" := Num(d.coTenths as real / 10.0),
      "o3" := Num((d.o3 + 30) as real),
      "timestamp" := Time(now),
      "city" := Text(city)]
  }

  /** The fields every reading carries: city, timestamp, and a numeric AQI and PM2.5. */
  predicate IsReading(r: Obj)
  {
    "city" in r && "timestamp" in r && "aqi" in r && "pm25" in r &&
    r["aqi"].Num? && r["pm25"].Num?
  }

  /**
   * A simulated reading: its AQI is in [30, 500], PM2.5 is AQI/2.5 and PM10
   * is 1.5 times PM2.5 exactly; NO2, SO2 and O3 are whole numbers in fixed
   * ranges that do not depend on the AQI.
   */
  lemma SimulatedReadingShape(city: string, d: Draws, now: int)
    requires ValidDraws(d)
    ensures var r := GenerateSimulatedData(city, d, now);
      IsReading(r) && r["city"] == Text(city) && r["timestamp"] == Time(now) &&
      r["aqi"].Num? && r["pm25"].Num? && r["pm10"].Num? &&
      30.0 <= r["aqi"].n <= 500.0 && r["pm25"].n * 2.5 == r["aqi"].n &&
      r["pm10"].n == r["pm25"].n * 1.5 &&
      r["no2"].Num? && r["no2"].n == r["no2"].n.Floor as real && 20.0 <= r["no2"].n <= 79.0 &&
      r["so2"].Num? && r["so2"].n == r["so2"].n.Floor as real && 5.0 <= r["so2"].n <= 34.0 &&
      r["o3"].Num? && r["o3"].n == r["o3"].n.Floor as real && 30.0 <= r["o3"].n <= 129.0 &&
      r["co"].Num? && 0.5 <= r["co"].n <= 2.5
  {
  }

  // ---------------------------------------------------------------------------
  // Trend

  /** One day of `generateTrendData`: `daysAgo` stands for the date `i` days before today. */
  datatype TrendPoint = TrendPoint(daysAgo: int, aqi: int, pm25: int)

  function ClampReal(lo: real, hi: real, x: real): (r: real)
    requires lo <= hi
    ensures lo <= r <= hi
    ensures lo <= x <= hi ==> r == x
  {
    if x < lo then lo else if x > hi then hi else x
  }

  /** The point for a day with the given variation around the current AQI. */
  function TrendAt(current: int, variation: real, daysAgo: int): (p: TrendPoint)
    ensures 30 <= p.aqi <= 500 && 12 <= p.pm25 <= 200
    ensures p.daysAgo == daysAgo
  {
    var aqi := ClampReal(30.0, 500.0, current as real + variation);
    TrendPoint(daysAgo, Round(aqi), Round(aqi / 2.5))
  }

  /**
   * `generateTrendData`: one point per day, oldest first. `variations[k]` is
   * the draw `Math.random() * 40 - 20` of the k-th iteration.
   */
  method GenerateTrendData(city: string, days: int, d: Draws, variations: seq<real>)
    returns (trend: seq<TrendPoint>)
    requires |variations| == if days > 0 then days else 0
    ensures |trend| == |variations|
    ensures forall k :: 0 <= k < |trend| ==>
              trend[k] == TrendAt(SimulatedAqi(city, d), variations[k], days - 1 - k)
  {
    var current := SimulatedAqi(city, d);
    trend := [];
    var i := days - 1;
    while i >= 0
      invariant if days > 0 then -1 <= i else i == days - 1
      invariant |trend| == days - 1 - i
      invariant forall k :: 0 <= k < |trend| ==>
                  trend[k] == TrendAt(current, variations[k], days - 1 - k)
      decreases i
    {
      var variation := variations[days - 1 - i];
      var aqi := ClampReal(30.0, 500.0, current as real + variation);
      trend := trend + [TrendPoint(i, Round(aqi), Round(aqi / 2.5))];
      i := i - 1;
    }
  }
}
