/**
 * `adjustBrightness(color, amount)` of the utility script: parse a `#rrggbb`
 * colour, add `amount` to each channel with clamping to [0, 255], and print
 * the result back as `#` and six lower-case hex digits. The JavaScript
 * built-ins it leans on are spelled out: `replace('#', '')` (first `#` only),
 * `parseInt(s, 16)` (longest hex-digit prefix, NaN when there is none), the
 * 32-bit conversion of the bitwise operators, `toString(16)` and `padStart`.
 */
module Colour {
  import opened Js

  predicate IsHexDigit(c: char)
  {
    '0' <= c <= '9' || 'a' <= c <= 'f' || 'A' <= c <= 'F'
  }

  predicate IsLowerHexDigit(c: char)
  {
    '0' <= c <= '9' || 'a' <= c <= 'f'
  }

  predicate AllHex(s: string)
  {
    forall i :: 0 <= i < |s| ==> IsHexDigit(s[i])
  }

  predicate AllLowerHex(s: string)
  {
    forall i :: 0 <= i < |s| ==> IsLowerHexDigit(s[i])
  }

  /** The value of a hex digit; only ever applied to digits, other characters give 0. */
  function DigitValue(c: char): (v: nat)
    ensures v < 16
  {
    if '0' <= c <= '9' then c as int - '0' as int
    else if 'a' <= c <= 'f' then c as int - 'a' as int + 10
    else if 'A' <= c <= 'F' then c as int - 'A' as int + 10
    else 0
  }

  function DigitChar(v: nat): (c: char)
    requires v < 16
    ensures IsLowerHexDigit(c) && DigitValue(c) == v
  {
    if v < 10 then ('0' as int + v) as char else ('a' as int + v - 10) as char
  }

  function Pow16(k: nat): (p: nat)
    ensures p >= 1
  {
    if k == 0 then 1 else 16 * Pow16(k - 1)
  }

  /** The number a string of hex digits denotes, most significant digit first. */
  function HexValue(s: string): nat
  {
    if s == [] then 0 else HexValue(s[..|s| - 1]) * 16 + DigitValue(s[|s| - 1])
  }

  lemma {:induction false} HexValueBound(s: string)
    ensures HexValue(s) < Pow16(|s|)
    decreases |s|
  {
    if s != [] {
      HexValueBound(s[..|s| - 1]);
    }
  }

  /** Length of the longest prefix of hex digits. */
  function HexRun(s: string): (n: nat)
    ensures n <= |s| && AllHex(s[..n])
    ensures n < |s| ==> !IsHexDigit(s[n])
  {
    if s == [] || !IsHexDigit(s[0]) then 0
    else
      var n := 1 + HexRun(s[1..]);
      assert s[..n] == [s[0]] + s[1..][..n - 1];
      n
  }

  /** `parseInt(s, 16)`; `None` stands for NaN. */
  function ParseInt16(s: string): (r: Option<nat>)
    ensures r.None? <==> (s == [] || !IsHexDigit(s[0]))
  {
    var n := HexRun(s);
    if n == 0 then None else Some(HexValue(s[..n]))
  }

  /** `s.replace('#', '')` with a string pattern: only the first `#` goes. */
  function RemoveFirstHash(s: string): (r: string)
    ensures '#' !in s ==> r == s
    ensures |s| > 0 && s[0] == '#' ==> r == s[1..]
  {
    if s == [] then [] else if s[0] == '#' then s[1..] else [s[0]] + RemoveFirstHash(s[1..])
  }

  /** ToInt32, applied to the operand of `>>` and `&`; NaN becomes 0. */
  function ToInt32(v: Option<nat>): (x: int)
    ensures -0x8000_0000 <= x < 0x8000_0000
    ensures v.Some? && v.value < 0x8000_0000 ==> x == v.value
  {
    match v
    case None => 0
    case Some(n) =>
      var m := n % 0x1_0000_0000;
      if m >= 0x8000_0000 then m - 0x1_0000_0000 else m
  }

  /** `n.toString(16)`: lower-case digits, no leading zeros. */
  function ToHexString(n: nat): (s: string)
    decreases n
  {
    if n < 16 then [DigitChar(n)] else ToHexString(n / 16) + [DigitChar(n % 16)]
  }

  /** `s.padStart(len, c)` */
  function PadStart(s: string, len: nat, c: char): (r: string)
    ensures |r| == if |s| >= len then |s| else len
  {
    if |s| >= len then s else seq(len - |s|, _ => c) + s
  }

  /** `Math.min(255, Math.max(0, num))` */
  function Clamp255(x: int): (r: int)
    ensures 0 <= r <= 255
    ensures 0 <= x <= 255 ==> r == x
  {
    if x > 255 then 255 else if x < 0 then 0 else x
  }

  /** The six-digit lower-case hex form of a colour number. */
  function Hex6(n: nat): string
  {
    PadStart(ToHexString(n), 6, '0')
  }

  /**
   * `adjustBrightness`. For an int32 `x`, `x >> 16` is floor division by
   * 65536 and `x & 0xFF` is the non-negative remainder modulo 256, which are
   * Dafny's `/` and `%` by a positive divisor; with every channel in
   * [0, 255], `(r << 16) | (g << 8) | b` is `r * 65536 + g * 256 + b`.
   */
  function AdjustBrightness(color: string, amount: int): (out: string)
    ensures IsHexColour(out)
  {
    var num := ToInt32(ParseInt16(RemoveFirstHash(color)));
    var r := Clamp255(num / 65536 + amount);
    var g := Clamp255((num / 256) % 256 + amount);
    var b := Clamp255(num % 256 + amount);
    Hex6Shape(r * 65536 + g * 256 + b);
    "#" + Hex6(r * 65536 + g * 256 + b)
  }

  /** `#` followed by exactly six lower-case hex digits. */
  predicate IsHexColour(s: string)
  {
    |s| == 7 && s[0] == '#' && AllLowerHex(s[1..])
  }

  /** Channel `k` (0 red, 1 green, 2 blue) of `#` and six hex digits: its two-digit value. */
  function Channel(s: string, k: nat): nat
    requires |s| == 7 && k < 3
  {
    HexValue(s[1 + 2 * k..3 + 2 * k])
  }

  // ---------------------------------------------------------------------------
  // Lemmas about the hex encoding

  lemma {:induction false} HexValueAppend(a: string, b: string)
    ensures HexValue(a + b) == HexValue(a) * Pow16(|b|) + HexValue(b)
    decreases |b|
  {
    if b == [] {
      assert a + b == a;
    } else {
      var b', c := b[..|b| - 1], b[|b| - 1];
      var ab := a + b;
      assert ab[..|ab| - 1] == a + b' && ab[|ab| - 1] == c;
      HexValueAppend(a, b');
      var x, y, p := HexValue(a), HexValue(b'), Pow16(|b'|);
      assert HexValue(ab) == (x * p + y) * 16 + DigitValue(c);
      assert HexValue(b) == y * 16 + DigitValue(c);
      assert Pow16(|b|) == p * 16;
      ShiftDigit(x, p, y);
    }
  }

  lemma ShiftDigit(x: int, p: int, y: int)
    ensures (x * p + y) * 16 == x * (p * 16) + y * 16
  {
  }

  lemma {:induction false} ZerosValue(k: nat)
    ensures HexValue(seq(k, _ => '0')) == 0
  {
    if k > 0 {
      ZerosValue(k - 1);
      assert seq(k, _ => '0')[..k - 1] == seq(k - 1, _ => '0');
    }
  }

  /** `toString(16)` prints lower-case digits whose value is the number, and short numbers print short. */
  lemma {:induction false} ToHexStringValue(n: nat, k: nat)
    requires n < Pow16(k)
    ensures var s := ToHexString(n); |s| >= 1 && AllLowerHex(s) && HexValue(s) == n
    ensures k >= 1 ==> |ToHexString(n)| <= k
    decreases n
  {
    var s := ToHexString(n);
    if n >= 16 {
      assert Pow16(0) == 1 && Pow16(1) == 16;
      assert k >= 2;
      assert n / 16 < Pow16(k - 1);
      ToHexStringValue(n / 16, k - 1);
      var p := ToHexString(n / 16);
      assert s == p + [DigitChar(n % 16)];
      assert s[..|s| - 1] == p;
    }
  }

  /** `Hex6` prints six lower-case digits denoting the number, for any 24-bit value. */
  lemma Hex6Shape(n: nat)
    requires n < 0x100_0000
    ensures |Hex6(n)| == 6 && AllLowerHex(Hex6(n)) && HexValue(Hex6(n)) == n
  {
    assert Pow16(6) == 0x100_0000;
    ToHexStringValue(n, 6);
    var s := ToHexString(n);
    var zeros := seq(6 - |s|, _ => '0');
    ZerosValue(6 - |s|);
    HexValueAppend(zeros, s);
    assert Hex6(n) == zeros + s;
  }

  /** Six hex digits split into three two-digit channels. */
  lemma SixDigits(s: string)
    requires |s| == 6
    ensures HexValue(s) == HexValue(s[0..2]) * 65536 + HexValue(s[2..4]) * 256 + HexValue(s[4..6])
  {
    var x, y, z := s[0..2], s[2..4], s[4..6];
    assert s == (x + y) + z;
    assert Pow16(2) == 256;
    HexValueAppend(x, y);
    HexValueAppend(x + y, z);
    ShiftTwice(HexValue(x), HexValue(y), HexValue(z));
  }

  lemma ShiftTwice(x: int, y: int, z: int)
    ensures (x * 256 + y) * 256 + z == x * 65536 + y * 256 + z
  {
  }

  /** A 24-bit number is its three bytes put back together. */
  lemma JoinBytes(n: int)
    requires 0 <= n < 0x100_0000
    ensures 0 <= n / 65536 < 256 && 0 <= (n / 256) % 256 < 256 && 0 <= n % 256 < 256
    ensures (n / 65536) * 65536 + ((n / 256) % 256) * 256 + n % 256 == n
  {
    var q := n / 256;
    assert n == q * 256 + n % 256;
    assert q == (q / 256) * 256 + q % 256;
    assert q / 256 == n / 65536;
  }

  /** A number made of three bytes gives them back under the shifts and masks. */
  lemma SplitBytes(r: int, g: int, b: int)
    requires 0 <= r < 256 && 0 <= g < 256 && 0 <= b < 256
    ensures var n := r * 65536 + g * 256 + b;
      n / 65536 == r && (n / 256) % 256 == g && n % 256 == b
  {
    var n := r * 65536 + g * 256 + b;
    assert n == (r * 256 + g) * 256 + b;
    assert n / 256 == r * 256 + g;
    assert (n / 256) % 256 == g;
    assert n == r * 65536 + (g * 256 + b);
  }

  /** Two equally long lower-case hex strings with the same value are the same string. */
  lemma {:induction false} HexValueInjective(a: string, b: string)
    requires |a| == |b| && AllLowerHex(a) && AllLowerHex(b)
    requires HexValue(a) == HexValue(b)
    ensures a == b
    decreases |a|
  {
    if a != [] {
      var a', b' := a[..|a| - 1], b[..|b| - 1];
      var x, y := DigitValue(a[|a| - 1]), DigitValue(b[|b| - 1]);
      assert HexValue(a') * 16 + x == HexValue(b') * 16 + y;
      assert x == y && HexValue(a') == HexValue(b');
      assert a[|a| - 1] == b[|b| - 1];
      HexValueInjective(a', b');
      assert a == a' + [a[|a| - 1]] && b == b' + [b[|b| - 1]];
    }
  }

  lemma {:induction false} LowerHexValue(s: string)
    requires AllHex(s)
    ensures AllLowerHex(ToLowerCase(s))
    ensures HexValue(ToLowerCase(s)) == HexValue(s)
    decreases |s|
  {
    if s != [] {
      var l := ToLowerCase(s);
      assert l[..|l| - 1] == ToLowerCase(s[..|s| - 1]);
      LowerHexValue(s[..|s| - 1]);
    }
  }

  // ---------------------------------------------------------------------------
  // What adjustBrightness does to a `#rrggbb` colour

  /** The channels of `#` and six hex digits are the three bytes of its value. */
  lemma ChannelsOfValue(s: string)
    requires |s| == 7
    ensures Channel(s, 0) == HexValue(s[1..]) / 65536
    ensures Channel(s, 1) == (HexValue(s[1..]) / 256) % 256
    ensures Channel(s, 2) == HexValue(s[1..]) % 256
  {
    var d := s[1..];
    SixDigits(d);
    assert Pow16(2) == 256;
    HexValueBound(d[0..2]);
    HexValueBound(d[2..4]);
    HexValueBound(d[4..6]);
    assert s[1..3] == d[0..2] && s[3..5] == d[2..4] && s[5..7] == d[4..6];
    SplitBytes(HexValue(d[0..2]), HexValue(d[2..4]), HexValue(d[4..6]));
  }

  /** For `#` and six hex digits, the parsed number is the value of the digits. */
  lemma ParseColour(color: string)
    requires |color| == 7 && color[0] == '#' && AllHex(color[1..])
    ensures ToInt32(ParseInt16(RemoveFirstHash(color))) == HexValue(color[1..])
  {
    var d := color[1..];
    assert RemoveFirstHash(color) == d;
    assert HexRun(d) == 6;
    assert d[..6] == d;
    assert Pow16(6) == 0x100_0000;
    HexValueBound(d);
  }

  /** The digits of the result spell the three clamped channels of the parsed input. */
  lemma AdjustBrightnessValue(color: string, amount: int)
    requires |color| == 7 && color[0] == '#' && AllHex(color[1..])
    ensures var num := HexValue(color[1..]);
      HexValue(AdjustBrightness(color, amount)[1..]) ==
        Clamp255(num / 65536 + amount) * 65536 + Clamp255((num / 256) % 256 + amount) * 256 + Clamp255(num % 256 + amount)
  {
    ParseColour(color);
    var num := HexValue(color[1..]);
    var n := Clamp255(num / 65536 + amount) * 65536 + Clamp255((num / 256) % 256 + amount) * 256 + Clamp255(num % 256 + amount);
    Hex6Shape(n);
    assert AdjustBrightness(color, amount)[1..] == Hex6(n);
  }

  /** Every channel of the result is the input channel plus `amount`, clamped to [0, 255]. */
  lemma AdjustBrightnessChannels(color: string, amount: int)
    requires |color| == 7 && color[0] == '#' && AllHex(color[1..])
    ensures Channel(AdjustBrightness(color, amount), 0) == Clamp255(Channel(color, 0) + amount)
    ensures Channel(AdjustBrightness(color, amount), 1) == Clamp255(Channel(color, 1) + amount)
    ensures Channel(AdjustBrightness(color, amount), 2) == Clamp255(Channel(color, 2) + amount)
  {
    var num := HexValue(color[1..]);
    ChannelsOfValue(color);
    var r := Clamp255(num / 65536 + amount);
    var g := Clamp255((num / 256) % 256 + amount);
    var b := Clamp255(num % 256 + amount);
    var out := AdjustBrightness(color, amount);
    AdjustBrightnessValue(color, amount);
    ChannelsOfValue(out);
    var v := HexValue(out[1..]);
    assert v == r * 65536 + g * 256 + b;
    SplitBytes(r, g, b);
    assert Channel(out, 0) == r && Channel(out, 1) == g && Channel(out, 2) == b;
  }

  /** With amount 0 a `#rrggbb` colour comes back as its lower-case form. */
  lemma AdjustBrightnessZero(color: string)
    requires |color| == 7 && color[0] == '#' && AllHex(color[1..])
    ensures AdjustBrightness(color, 0) == "#" + ToLowerCase(color[1..])
  {
    var digits := color[1..];
    var num := HexValue(digits);
    ParseColour(color);
    assert num < 0x100_0000 by {
      HexValueBound(digits);
      assert Pow16(6) == 0x100_0000;
    }
    JoinBytes(num);
    var out := AdjustBrightness(color, 0);
    assert out == "#" + Hex6(num);
    Hex6Shape(num);
    LowerHexValue(digits);
    HexValueInjective(Hex6(num), ToLowerCase(digits));
  }
}
