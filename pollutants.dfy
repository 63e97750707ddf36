/**
 * The pollutant panel of the state page: each pollutant's reading (`data.x || 0`),
 * its status against a three-level threshold, the bar-chart values (CO scaled
 * by 10 so that it is visible next to the µg/m³ pollutants) and the tooltip
 * that undoes the scaling, and the `adjustColor` helper of the trend chart.
 */
module Pollutants {
  import opened Js
  import opened Colour

  /** The `{ class, label }` record `getPollutantStatus` returns. */
  datatype Status = Good | Moderate | Poor
  {
    function Class(): string
    {
      match this
      case Good => "good"
      case Moderate => "moderate"
      case Poor => "poor"
    }

    function Label(): string
    {
      match this
      case Good => "Good"
      case Moderate => "Moderate"
      case Poor => "Poor"
    }

    /** Position on the scale from best to worst. */
    function Rank(): nat
    {
      match this
      case Good => 0
      case Moderate => 1
      case Poor => 2
    }
  }

  datatype Threshold = Threshold(good: real, moderate: real, poor: real)

  /** A row of the pollutant panel: display name, property of the reading, unit and threshold. */
  datatype Pollutant = Pollutant(name: string, key: string, unit: string, threshold: Threshold)

  const POLLUTANTS: seq<Pollutant> := [
    Pollutant("PM2.5", "pm25", "µg/m³", Threshold(30.0, 60.0, 90.0)),
    Pollutant("PM10", "pm10", "µg/m³", Threshold(50.0, 100.0, 250.0)),
    Pollutant("NO\U{2082}", "no2", "µg/m³", Threshold(40.0, 80.0, 180.0)),
    Pollutant("SO\U{2082}", "so2", "µg/m³", Threshold(40.0, 80.0, 380.0)),
    Pollutant("CO", "co", "mg/m³", Threshold(1.0, 2.0, 10.0)),
    Pollutant("O\U{2083}", "o3", "µg/m³", Threshold(50.0, 100.0, 168.0))
  ]

  /** `getPollutantStatus`: inclusive upper bounds, and nothing beyond Poor. */
  function GetPollutantStatus(value: real, t: Threshold): (s: Status)
    ensures s == Good <==> value <= t.good
    ensures s == Moderate <==> t.good < value <= t.moderate
    ensures s == Poor <==> t.good < value && t.moderate < value
  {
    if value <= t.good then Good
    else if value <= t.moderate then Moderate
    else Poor
  }

  /** The value a panel row shows: `data[key] || 0`. */
  function PollutantValue(data: Obj, key: string): (v: real)
    ensures !Truthy(data, key) ==> v == 0.0
  {
    NumOrZero(data, key)
  }

  /** The statuses the panel shows, one per row of POLLUTANTS, in order. */
  function PanelStatuses(data: Obj): (ss: seq<Status>)
    ensures |ss| == |POLLUTANTS|
    ensures forall k :: 0 <= k < |POLLUTANTS| ==>
      ss[k] == GetPollutantStatus(PollutantValue(data, POLLUTANTS[k].key), POLLUTANTS[k].threshold)
  {
    seq(|POLLUTANTS|, k requires 0 <= k < |POLLUTANTS| =>
      GetPollutantStatus(PollutantValue(data, POLLUTANTS[k].key), POLLUTANTS[k].threshold))
  }

  /** For a threshold with good <= moderate, a larger value never gets a better status. */
  lemma StatusMonotone(v: real, w: real, t: Threshold)
    requires v <= w
    ensures GetPollutantStatus(v, t).Rank() <= GetPollutantStatus(w, t).Rank()
  {
  }

  /** The `poor` bound is never consulted: two thresholds that differ only there classify alike. */
  lemma PoorBoundUnused(v: real, t: Threshold, poor: real)
    ensures GetPollutantStatus(v, t) == GetPollutantStatus(v, t.(poor := poor))
  {
  }

  /** A value above the `poor` bound is still labelled Poor: there is no fourth level. */
  lemma AbovePoorIsPoor(v: real, t: Threshold)
    requires t.good <= t.moderate <= t.poor < v
    ensures GetPollutantStatus(v, t) == Poor && GetPollutantStatus(v, t).Label() == "Poor"
  {
  }

  /** Every configured threshold has good < moderate < poor, all positive. */
  lemma ThresholdsOrdered()
    ensures forall k :: 0 <= k < |POLLUTANTS| ==>
      0.0 < POLLUTANTS[k].threshold.good < POLLUTANTS[k].threshold.moderate < POLLUTANTS[k].threshold.poor
  {
  }

  /** A pollutant missing from the reading is shown as 0 and therefore as Good. */
  lemma {:induction false} MissingIsGood(data: Obj, k: int)
    requires 0 <= k < |POLLUTANTS| && POLLUTANTS[k].key !in data
    ensures PanelStatuses(data)[k] == Good
  {
    ThresholdsOrdered();
    assert PollutantValue(data, POLLUTANTS[k].key) == 0.0;
  }

  // ---------------------------------------------------------------------------
  // The pollutant bar chart

  /** The chart's bar labels. */
  const CHART_LABELS: seq<string> := ["PM2.5", "PM10", "NO\U{2082}", "SO\U{2082}", "CO", "O\U{2083}"]

  /** The property each bar reads. */
  const CHART_KEYS: seq<string> := ["pm25", "pm10", "no2", "so2", "co", "o3"]

  /** The bar heights: each pollutant's `data.x || 0`, with CO multiplied by 10. */
  function ChartValues(data: Obj): (ys: seq<real>)
    ensures |ys| == |CHART_KEYS|
    ensures forall k :: 0 <= k < |CHART_KEYS| && CHART_KEYS[k] != "co" ==> ys[k] == PollutantValue(data, CHART_KEYS[k])
    ensures ys[4] == PollutantValue(data, "co") * 10.0
  {
    seq(|CHART_KEYS|, k requires 0 <= k < |CHART_KEYS| =>
      if CHART_KEYS[k] == "co" then PollutantValue(data, "co") * 10.0 else PollutantValue(data, CHART_KEYS[k]))
  }

  /** The tooltip's number for a bar: divided by 10 again when the bar is CO. */
  function TooltipValue(name: string, y: real): real
  {
    if name == "CO" then y / 10.0 else y
  }

  /** The tooltip of every bar shows the pollutant's own reading: the CO scaling is undone exactly. */
  lemma {:induction false} TooltipShowsReading(data: Obj, k: int)
    requires 0 <= k < |CHART_KEYS|
    ensures TooltipValue(CHART_LABELS[k], ChartValues(data)[k]) == PollutantValue(data, CHART_KEYS[k])
  {
    var ys := ChartValues(data);
    if k == 4 {
      assert CHART_KEYS[k] == "co" && CHART_LABELS[k] == "CO";
    } else {
      assert CHART_KEYS[k] != "co" && CHART_LABELS[k] != "CO" by {
        assert |CHART_KEYS[k]| != 2 || CHART_KEYS[k][0] != 'c';
        assert |CHART_LABELS[k]| != 2 || CHART_LABELS[k][0] != 'C';
      }
    }
  }

  // ---------------------------------------------------------------------------
  // Colours

  /**
   * `adjustColor` of the state page, step by step as written there. It is a
   * second copy of `adjustBrightness` of the utility script, and its
   * contract states that the two agree on every input.
   */
  function AdjustColor(color: string, amount: int): (out: string)
    ensures out == AdjustBrightness(color, amount)
  {
    var num := ToInt32(ParseInt16(RemoveFirstHash(color)));
    var r := Clamp255(num / 65536 + amount);
    var g := Clamp255((num / 256) % 256 + amount);
    var b := Clamp255(num % 256 + amount);
    "#" + Hex6(r * 65536 + g * 256 + b)
  }

  /** The trend chart's darker shade: `#` and six hex digits, each channel clamped after adding `amount`. */
  lemma AdjustColorChannels(color: string, amount: int)
    ensures IsHexColour(AdjustColor(color, amount))
    ensures |color| == 7 && color[0] == '#' && AllHex(color[1..]) ==>
      forall k :: 0 <= k < 3 ==> Channel(AdjustColor(color, amount), k) == Clamp255(Channel(color, k) + amount)
  {
    var out := AdjustColor(color, amount);
    if |color| == 7 && color[0] == '#' && AllHex(color[1..]) {
      AdjustBrightnessChannels(color, amount);
      forall k | 0 <= k < 3 ensures Channel(out, k) == Clamp255(Channel(color, k) + amount) {
      }
    }
  }
}
