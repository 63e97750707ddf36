/**
 * The constant configuration object of the dashboard: API settings, the
 * twenty monitored cities and the ordered table of AQI categories (India's
 * National Air Quality Index bands).
 */
module Config {

  // API settings. RETRY_ATTEMPTS is declared but no code path reads it.
  const OPENAQ_BASE: string := "https://api.openaq.org/v2"
  const TIMEOUT: int := 10000
  const CACHE_DURATION: int := 300000
  const RETRY_ATTEMPTS: int := 2

  datatype City = City(name: string, lat: real, lon: real, state: string)

  const CITIES: seq<City> := [
    City("Delhi", 28.6139, 77.2090, "Delhi"),
    City("Mumbai", 19.0760, 72.8777, "Maharashtra"),
    City("Bangalore", 12.9716, 77.5946, "Karnataka"),
    City("Hyderabad", 17.3850, 78.4867, "Telangana"),
    City("Chennai", 13.0827, 80.2707, "Tamil Nadu"),
    City("Kolkata", 22.5726, 88.3639, "West Bengal"),
    City("Pune", 18.5204, 73.8567, "Maharashtra"),
    City("Ahmedabad", 23.0225, 72.5714, "Gujarat"),
    City("Jaipur", 26.9124, 75.7873, "Rajasthan"),
    City("Lucknow", 26.8467, 80.9462, "Uttar Pradesh"),
    City("Chandigarh", 30.7333, 76.7794, "Punjab"),
    City("Bhopal", 23.2599, 77.4126, "Madhya Pradesh"),
    City("Patna", 25.5941, 85.1376, "Bihar"),
    City("Visakhapatnam", 17.6868, 83.2185, "Andhra Pradesh"),
    City("Guwahati", 26.1445, 91.7362, "Assam"),
    City("Bhubaneswar", 20.2961, 85.8245, "Odisha"),
    City("Thiruvananthapuram", 8.5241, 76.9366, "Kerala"),
    City("Raipur", 21.2514, 81.6296, "Chhattisgarh"),
    City("Ranchi", 23.3441, 85.3096, "Jharkhand"),
    City("Shimla", 31.1048, 77.1734, "Himachal Pradesh")
  ]

  /** One AQI band with inclusive integer bounds; `title` is the label shown to users and `cls` the CSS class name. */
  datatype Category = Category(
    min: int, max: int, title: string, color: string, textColor: string,
    cls: string, description: string)

  const AQI_CATEGORIES: seq<Category> := [
    Category(0, 50, "Good", "#00e400", "#00e400", "good",
      "Air quality is satisfactory, and air pollution poses little or no risk."),
    Category(51, 100, "Satisfactory", "#ffff00", "#d4d400", "satisfactory",
      "Air quality is acceptable. Sensitive individuals should consider limiting prolonged outdoor exertion."),
    Category(101, 200, "Moderate", "#ff7e00", "#ff7e00", "moderate",
      "Members of sensitive groups may experience health effects."),
    Category(201, 300, "Poor", "#ff0000", "#ff0000", "poor",
      "Everyone may begin to experience health effects."),
    Category(301, 400, "Very Poor", "#8f3f97", "#8f3f97", "very-poor",
      "Health alert: The risk of health effects is increased for everyone."),
    Category(401, 999, "Severe", "#7e0023", "#7e0023", "severe",
      "Health warning of emergency conditions: everyone is more likely to be affected.")
  ]

  /** The band table tiles 0..999: consecutive bands abut, each is non-empty. */
  ghost predicate Tiles(t: seq<Category>, lo: int, hi: int)
  {
    |t| > 0 && t[0].min == lo && t[|t| - 1].max == hi &&
    (forall i :: 0 <= i < |t| ==> t[i].min <= t[i].max) &&
    (forall i :: 0 <= i < |t| - 1 ==> t[i + 1].min == t[i].max + 1)
  }

  lemma CategoriesTile()
    ensures |AQI_CATEGORIES| == 6
    ensures Tiles(AQI_CATEGORIES, 0, 999)
    ensures AQI_CATEGORIES[5].title == "Severe"
  {
  }

  /**
   * Tiling makes every integer in range belong to exactly one band: bands
   * are pairwise disjoint and some band holds each value.
   */
  lemma {:induction false} TilesPartition(t: seq<Category>, lo: int, hi: int, n: int)
    requires Tiles(t, lo, hi) && lo <= n <= hi
    ensures exists i :: 0 <= i < |t| && t[i].min <= n <= t[i].max
    ensures forall i, j :: 0 <= i < j < |t| ==> t[i].max < t[j].min
  {
    AscendingBands(t, lo, hi);
    if |t| == 1 {
      assert t[0].min <= n <= t[0].max;
    } else if n <= t[0].max {
      assert t[0].min <= n <= t[0].max;
    } else {
      var rest := t[1..];
      assert Tiles(rest, t[0].max + 1, hi);
      TilesPartition(rest, t[0].max + 1, hi, n);
      var i :| 0 <= i < |rest| && rest[i].min <= n <= rest[i].max;
      assert t[i + 1].min <= n <= t[i + 1].max;
    }
  }

  lemma {:induction false} AscendingBands(t: seq<Category>, lo: int, hi: int)
    requires Tiles(t, lo, hi)
    ensures forall i, j :: 0 <= i < j < |t| ==> t[i].max < t[j].min
  {
    if |t| > 1 {
      AscendingBands(t[1..], t[0].max + 1, hi);
      forall i, j | 0 <= i < j < |t| ensures t[i].max < t[j].min {
        if i > 0 {
          assert t[1..][i - 1] == t[i] && t[1..][j - 1] == t[j];
        } else {
          assert t[1..][j - 1] == t[j];
          assert t[j].min <= t[j].max;
        }
      }
    }
  }

  predicate DistinctNames(cs: seq<City>)
  {
    forall i, j :: 0 <= i < j < |cs| ==> cs[i].name != cs[j].name
  }

  /** A city's name length, first letter and third letter; no two configured cities share all three. */
  function Signature(c: City): (int, char, char)
  {
    (|c.name|, if |c.name| > 0 then c.name[0] else ' ', if |c.name| > 2 then c.name[2] else ' ')
  }

  const SIGNATURES: seq<(int, char, char)> :=
    [(5, 'D', 'l'), (6, 'M', 'm'), (9, 'B', 'n'), (9, 'H', 'd'), (7, 'C', 'e'),
     (7, 'K', 'l'), (4, 'P', 'n'), (9, 'A', 'm'), (6, 'J', 'i'), (7, 'L', 'c'),
     (10, 'C', 'a'), (6, 'B', 'o'), (5, 'P', 't'), (13, 'V', 's'), (8, 'G', 'w'),
     (11, 'B', 'u'), (18, 'T', 'i'), (6, 'R', 'i'), (6, 'R', 'n'), (6, 'S', 'i')]

  lemma CitySignatures()
    ensures |CITIES| == |SIGNATURES|
    ensures forall i :: 0 <= i < |CITIES| ==> Signature(CITIES[i]) == SIGNATURES[i]
  {
  }

  lemma CitiesDistinct()
    ensures |CITIES| == 20
    ensures DistinctNames(CITIES)
  {
    CitySignatures();
    forall i, j | 0 <= i < j < |CITIES| ensures CITIES[i].name != CITIES[j].name {
      assert SIGNATURES[i] != SIGNATURES[j];
    }
  }
}
