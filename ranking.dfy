/**
 * The "top cities" lists of the dashboard (the sidebar list and the compare
 * dialog): a copy of the city records sorted by AQI, highest first, with the
 * stable order of `Array.prototype.sort` for equal AQIs, cut to six.
 */
module Ranking {
  import opened Js

  /** How many cities the lists show. */
  const TOP_COUNT: nat := 6

  /** The sort key, `city.aqi`. */
  function Aqi(city: Obj): real
  {
    NumOrZero(city, "aqi")
  }

  predicate NonIncreasing(s: seq<Obj>)
  {
    forall i, j :: 0 <= i < j < |s| ==> Aqi(s[i]) >= Aqi(s[j])
  }

  /** The records whose AQI is `v`, in the order of `s`. */
  function WithAqi(s: seq<Obj>, v: real): seq<Obj>
  {
    if s == [] then []
    else WithAqi(s[..|s| - 1], v) + (if Aqi(s[|s| - 1]) == v then [s[|s| - 1]] else [])
  }

  /**
   * Insert `x` into a list sorted highest first, after every record whose AQI
   * is at least that of `x`: the comparator `b.aqi - a.aqi` is not positive
   * for those, and a stable sort keeps the earlier record first.
   */
  function Insert(x: Obj, t: seq<Obj>): (r: seq<Obj>)
    ensures |r| == |t| + 1
  {
    if t == [] then [x]
    else if Aqi(t[0]) >= Aqi(x) then [t[0]] + Insert(x, t[1..])
    else [x] + t
  }

  lemma {:induction false} InsertPermutes(x: Obj, t: seq<Obj>)
    ensures multiset(Insert(x, t)) == multiset(t) + multiset{x}
    decreases |t|
  {
    if t != [] && Aqi(t[0]) >= Aqi(x) {
      InsertPermutes(x, t[1..]);
      assert t == [t[0]] + t[1..];
    }
  }

  /** The records of `Insert(x, t)` are `x` and those of `t`; every one of them is at most `bound` when `x` and all of `t` are. */
  lemma {:induction false} InsertBounded(x: Obj, t: seq<Obj>, bound: real)
    requires Aqi(x) <= bound && forall i :: 0 <= i < |t| ==> Aqi(t[i]) <= bound
    ensures forall i :: 0 <= i < |Insert(x, t)| ==> Aqi(Insert(x, t)[i]) <= bound
    decreases |t|
  {
    if t != [] && Aqi(t[0]) >= Aqi(x) {
      InsertBounded(x, t[1..], bound);
      var r := Insert(x, t);
      forall i | 0 <= i < |r| ensures Aqi(r[i]) <= bound {
        if i > 0 {
          assert r[i] == Insert(x, t[1..])[i - 1];
        }
      }
    }
  }

  lemma {:induction false} InsertSorted(x: Obj, t: seq<Obj>)
    requires NonIncreasing(t)
    ensures NonIncreasing(Insert(x, t))
    decreases |t|
  {
    if t != [] && Aqi(t[0]) >= Aqi(x) {
      var rest := Insert(x, t[1..]);
      InsertSorted(x, t[1..]);
      InsertBounded(x, t[1..], Aqi(t[0]));
      var r := Insert(x, t);
      assert r == [t[0]] + rest;
      forall i, j | 0 <= i < j < |r| ensures Aqi(r[i]) >= Aqi(r[j]) {
        assert r[j] == rest[j - 1];
        if i > 0 {
          assert r[i] == rest[i - 1];
        }
      }
    }
  }

  /** `[...cities].sort((a, b) => b.aqi - a.aqi)`, as the insertion sort a stable sort is equivalent to. */
  function SortByAqi(s: seq<Obj>): (r: seq<Obj>)
    ensures |r| == |s|
  {
    if s == [] then [] else Insert(s[|s| - 1], SortByAqi(s[..|s| - 1]))
  }

  /** The sorted copy holds the same records and is ordered highest AQI first. */
  lemma {:induction false} SortByAqiCorrect(s: seq<Obj>)
    ensures multiset(SortByAqi(s)) == multiset(s)
    ensures NonIncreasing(SortByAqi(s))
    decreases |s|
  {
    if s != [] {
      var n := |s| - 1;
      SortByAqiCorrect(s[..n]);
      InsertPermutes(s[n], SortByAqi(s[..n]));
      InsertSorted(s[n], SortByAqi(s[..n]));
      assert s == s[..n] + [s[n]];
    }
  }

  /** `.slice(0, 6)` of the sorted copy. */
  function TopCities(cities: seq<Obj>): (top: seq<Obj>)
  {
    var sorted := SortByAqi(cities);
    if |sorted| <= TOP_COUNT then sorted else sorted[..TOP_COUNT]
  }

  // ---------------------------------------------------------------------------
  // Properties

  /** The list has min(6, n) entries, highest AQI first, each taken from the input no more often than it occurs there. */
  lemma TopCitiesShape(cities: seq<Obj>)
    ensures var top := TopCities(cities);
      |top| == (if |cities| <= TOP_COUNT then |cities| else TOP_COUNT) &&
      NonIncreasing(top) &&
      multiset(top) <= multiset(cities)
  {
    var sorted := SortByAqi(cities);
    SortByAqiCorrect(cities);
    if |sorted| > TOP_COUNT {
      assert sorted == sorted[..TOP_COUNT] + sorted[TOP_COUNT..];
      assert multiset(sorted) == multiset(sorted[..TOP_COUNT]) + multiset(sorted[TOP_COUNT..]);
    }
  }

  /** A city left out of the list has an AQI no higher than any listed city's. */
  lemma LeftOutRankLower(cities: seq<Obj>, out: Obj, listed: Obj)
    requires out in multiset(cities) - multiset(TopCities(cities))
    requires listed in TopCities(cities)
    ensures Aqi(out) <= Aqi(listed)
  {
    var sorted := SortByAqi(cities);
    var top := TopCities(cities);
    SortByAqiCorrect(cities);
    if |sorted| <= TOP_COUNT {
      assert false;
    } else {
      var rest := sorted[TOP_COUNT..];
      assert sorted == top + rest;
      var j := SplitRest(cities, sorted, top, rest, out);
      var i :| 0 <= i < |top| && top[i] == listed;
      assert sorted[i] == listed && sorted[TOP_COUNT + j] == out;
    }
  }

  /** A record counted in `cities` more often than in `top` sits in `rest`. */
  lemma SplitRest(cities: seq<Obj>, sorted: seq<Obj>, top: seq<Obj>, rest: seq<Obj>, out: Obj) returns (j: int)
    requires multiset(sorted) == multiset(cities) && sorted == top + rest
    requires out in multiset(cities) - multiset(top)
    ensures 0 <= j < |rest| && rest[j] == out
  {
    assert multiset(sorted) == multiset(top) + multiset(rest);
    assert out in multiset(rest);
    j :| 0 <= j < |rest| && rest[j] == out;
  }

  /** Inserting a record into a sorted list keeps, for each AQI value, the records of that value in order, the new one last. */
  lemma {:induction false} InsertStable(x: Obj, t: seq<Obj>, v: real)
    requires NonIncreasing(t)
    ensures WithAqi(Insert(x, t), v) == WithAqi(t, v) + (if Aqi(x) == v then [x] else [])
    decreases |t|
  {
    if t == [] {
      assert [x][..0] == [];
      assert Insert(x, t) == [x];
    } else if Aqi(t[0]) >= Aqi(x) {
      assert NonIncreasing(t[1..]) by {
        forall i, j | 0 <= i < j < |t[1..]| ensures Aqi(t[1..][i]) >= Aqi(t[1..][j]) {
          assert t[1..][i] == t[i + 1] && t[1..][j] == t[j + 1];
        }
      }
      InsertStable(x, t[1..], v);
      InsertStableBehind(x, t, v);
    } else {
      InsertStableFront(x, t, v);
    }
  }

  /** The step where `x` goes behind the head of `t`. */
  lemma InsertStableBehind(x: Obj, t: seq<Obj>, v: real)
    requires t != [] && Aqi(t[0]) >= Aqi(x)
    requires WithAqi(Insert(x, t[1..]), v) == WithAqi(t[1..], v) + (if Aqi(x) == v then [x] else [])
    ensures WithAqi(Insert(x, t), v) == WithAqi(t, v) + (if Aqi(x) == v then [x] else [])
  {
    var rest := t[1..];
    var ins := Insert(x, rest);
    assert t == [t[0]] + rest;
    assert Insert(x, t) == [t[0]] + ins;
    WithAqiCons(t[0], rest, v);
    WithAqiCons(t[0], ins, v);
    ConcatAssoc(if Aqi(t[0]) == v then [t[0]] else [], WithAqi(rest, v), if Aqi(x) == v then [x] else []);
  }

  lemma ConcatAssoc(a: seq<Obj>, b: seq<Obj>, c: seq<Obj>)
    ensures a + (b + c) == (a + b) + c
  {
  }

  /** The step where `x` goes in front of all of `t`, whose AQIs are all lower. */
  lemma InsertStableFront(x: Obj, t: seq<Obj>, v: real)
    requires NonIncreasing(t) && t != [] && Aqi(t[0]) < Aqi(x)
    ensures WithAqi(Insert(x, t), v) == WithAqi(t, v) + (if Aqi(x) == v then [x] else [])
  {
    assert Insert(x, t) == [x] + t;
    WithAqiCons(x, t, v);
    if Aqi(x) == v {
      WithAqiNone(t, v);
      assert WithAqi([x] + t, v) == [x] + [];
    } else {
      assert WithAqi([x] + t, v) == [] + WithAqi(t, v);
      assert WithAqi(t, v) + [] == WithAqi(t, v);
    }
  }

  /** The sort is stable: for every AQI value, the records with that value keep their input order. */
  lemma {:induction false} SortStable(s: seq<Obj>, v: real)
    ensures WithAqi(SortByAqi(s), v) == WithAqi(s, v)
    decreases |s|
  {
    if s != [] {
      var n := |s| - 1;
      SortStable(s[..n], v);
      SortByAqiCorrect(s[..n]);
      InsertStable(s[n], SortByAqi(s[..n]), v);
    }
  }

  lemma {:induction false} WithAqiCons(x: Obj, t: seq<Obj>, v: real)
    ensures WithAqi([x] + t, v) == (if Aqi(x) == v then [x] else []) + WithAqi(t, v)
    decreases |t|
  {
    if t == [] {
      assert [x] + t == [x];
      assert WithAqi([x], v) == WithAqi([], v) + (if Aqi(x) == v then [x] else []);
    } else {
      var n := |t| - 1;
      WithAqiCons(x, t[..n], v);
      assert ([x] + t)[..|[x] + t| - 1] == [x] + t[..n];
      assert ([x] + t)[|[x] + t| - 1] == t[n];
    }
  }

  /** No record of a sorted list whose head is below `v` has AQI `v`. */
  lemma {:induction false} WithAqiNone(t: seq<Obj>, v: real)
    requires NonIncreasing(t) && t != [] && Aqi(t[0]) < v
    ensures WithAqi(t, v) == []
    decreases |t|
  {
    var n := |t| - 1;
    if n > 0 {
      WithAqiNone(t[..n], v);
    }
    assert Aqi(t[n]) <= Aqi(t[0]);
  }

  /** The sidebar lists the highest readings: with AQIs 50, 300, 120 (and no more cities), 300 comes first and 50 last. */
  lemma ThreeCitiesExample(a: Obj, b: Obj, c: Obj)
    requires Aqi(a) == 50.0 && Aqi(b) == 300.0 && Aqi(c) == 120.0
    ensures TopCities([a, b, c]) == [b, c, a]
  {
    assert [a, b, c][..2] == [a, b] && [a, b][..1] == [a];
    assert SortByAqi([a]) == [a];
    assert SortByAqi([a, b]) == [b, a];
    assert Insert(c, [b, a]) == [b, c, a];
  }
}
