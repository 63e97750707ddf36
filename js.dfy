/**
 * The JavaScript built-ins the dashboard relies on. The dashboard passes plain
 * objects around: a reading is an object whose keys are filled in one by one,
 * and a city record is built with the spread syntax `{...city, ...data}`.
 * Such an object is a finite map from property names to values here; map
 * union `+` is right-biased, which is the "later spread wins" rule of object
 * spread.
 */
module Js {

  datatype Option<+T> = None | Some(value: T)

  /** A property value: a number, a string, or a point in time (epoch ms). */
  datatype Value = Num(n: real) | Text(s: string) | Time(ms: int)

  type Obj = map<string, Value>

  /** JavaScript truthiness of `o[key]`: an absent key is `undefined`, 0 and "" are falsy. */
  predicate Truthy(o: Obj, key: string)
  {
    key in o &&
    match o[key]
    case Num(n) => n != 0.0
    case Text(s) => s != ""
    case Time(_) => true
  }

  /** `o[key] || 0` for a property that holds a number when it is present. */
  function NumOrZero(o: Obj, key: string): (r: real)
    ensures !Truthy(o, key) ==> r == 0.0
    ensures key in o && o[key].Num? ==> r == o[key].n
  {
    if key in o && o[key].Num? then o[key].n else 0.0
  }

  /** Spread of two objects, `{...base, ...over}`. */
  function Overlay(base: Obj, over: Obj): (r: Obj)
    ensures r.Keys == base.Keys + over.Keys
    ensures forall k :: k in over ==> r[k] == over[k]
    ensures forall k :: k in base && k !in over ==> r[k] == base[k]
  {
    base + over
  }

  /** `Math.round`: the nearest integer, halves rounded towards +infinity. */
  function Round(x: real): (r: int)
    ensures r as real - 0.5 <= x < r as real + 0.5
  {
    (x + 0.5).Floor
  }

  lemma RoundMonotone(x: real, y: real)
    requires x <= y
    ensures Round(x) <= Round(y)
  {
  }

  /** `toLowerCase` on one character; only the ASCII letters A-Z are mapped. */
  function LowerChar(c: char): (l: char)
    ensures 'A' <= c <= 'Z' ==> l as int == c as int + 32
    ensures !('A' <= c <= 'Z') ==> l == c
  {
    if 'A' <= c <= 'Z' then (c as int + 32) as char else c
  }

  function ToLowerCase(s: string): (l: string)
    ensures |l| == |s| && forall i :: 0 <= i < |s| ==> l[i] == LowerChar(s[i])
  {
    seq(|s|, i requires 0 <= i < |s| => LowerChar(s[i]))
  }
}
