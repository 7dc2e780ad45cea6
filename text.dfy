/**
 * The JavaScript number and text primitives the components rely on:
 * `String(n)` for integers, `padStart(2, '0')`, the truncating remainder
 * operator `%`, and `parseInt(text)` without a radix argument.
 * Numbers are unbounded integers here; see README for what that leaves out.
 */
module Text {
  import opened Wrappers

  function Abs(x: int): (r: nat)
    ensures r == x || r == -x
  {
    if x < 0 then -x else x
  }

  /**
   * JavaScript `a % b` on integers: the remainder takes the sign of `a`, is
   * smaller than `b` in magnitude, and differs from `a` by a multiple of `b`.
   */
  function JsRem(a: int, b: int): (r: int)
    requires b != 0
    ensures 0 <= a ==> 0 <= r < Abs(b)
    ensures a < 0 ==> 0 <= -r < Abs(b)
    ensures (a - r) % Abs(b) == 0
  {
    var m := Abs(b);
    if a >= 0 then
      assert a - a % m == (a / m) * m;
      MultipleMod(a / m, m);
      a % m
    else
      assert a + (-a) % m == (-((-a) / m)) * m;
      MultipleMod(-((-a) / m), m);
      -((-a) % m)
  }

  lemma MultipleMod(k: int, b: int)
    requires b > 0
    ensures (k * b) % b == 0
  {
    ModOfSum(k, b, 0);
  }

  lemma ModOfSum(q: int, b: int, r: int)
    requires b > 0 && 0 <= r < b
    ensures (q * b + r) % b == r
  {
    var n := q * b + r;
    var q' := n / b;
    var r' := n % b;
    assert n == q' * b + r';
    assert (q - q') * b == r' - r;
    MulSign(q - q', b);
  }

  lemma MulSign(d: int, b: int)
    requires b > 0
    ensures d >= 1 ==> d * b >= b
    ensures d <= -1 ==> d * b <= -b
  {
  }

  // ----- String(n) and padStart -----

  predicate IsDecimalDigit(c: char) {
    '0' <= c <= '9'
  }

  function DigitChar(d: nat): (c: char)
    requires d < 10
    ensures IsDecimalDigit(c) && (c as int) - ('0' as int) == d
  {
    "0123456789"[d]
  }

  /** `String(n)` for a natural number: its decimal digits, most significant first. */
  function NatToString(n: nat): (s: string)
    ensures |s| >= 1
    ensures forall i :: 0 <= i < |s| ==> IsDecimalDigit(s[i])
    ensures s[0] == '0' ==> n == 0
    decreases n
  {
    if n < 10 then [DigitChar(n)] else NatToString(n / 10) + [DigitChar(n % 10)]
  }

  /** `String(n)` for any integer. */
  function IntToString(n: int): (s: string)
    ensures |s| >= 1
    ensures n < 0 <==> s[0] == '-'
  {
    if n < 0 then "-" + NatToString(-n) else NatToString(n)
  }

  /** `s.padStart(2, '0')`. */
  function PadStart2(s: string): (r: string)
    ensures |r| == if |s| < 2 then 2 else |s|
    ensures r[|r| - |s|..] == s
    ensures forall i :: 0 <= i < |r| - |s| ==> r[i] == '0'
  {
    if |s| == 0 then "00" else if |s| == 1 then "0" + s else s
  }

  // ----- parseInt -----

  /** The white space `parseInt` skips before the number (the ASCII and line-terminator ones). */
  predicate IsJsSpace(c: char) {
    c == ' ' || c == '\t' || c == '\n' || c == '\r' || c == '\U{0B}' || c == '\U{0C}'
    || c == '\U{A0}' || c == '\U{FEFF}' || c == '\U{2028}' || c == '\U{2029}'
  }

  function TrimStart(s: string): (r: string)
    ensures |r| <= |s| && r == s[|s| - |r|..]
    ensures forall i :: 0 <= i < |s| - |r| ==> IsJsSpace(s[i])
    ensures r == [] || !IsJsSpace(r[0])
  {
    if |s| > 0 && IsJsSpace(s[0]) then TrimStart(s[1..]) else s
  }

  predicate IsRadixDigit(c: char, radix: nat) {
    if radix == 16 then IsDecimalDigit(c) || 'a' <= c <= 'f' || 'A' <= c <= 'F'
    else IsDecimalDigit(c)
  }

  function RadixDigitValue(c: char, radix: nat): (v: nat)
    requires IsRadixDigit(c, radix)
    ensures v < (if radix == 16 then 16 else 10)
  {
    if IsDecimalDigit(c) then (c as int) - ('0' as int)
    else if 'a' <= c <= 'f' then (c as int) - ('a' as int) + 10
    else (c as int) - ('A' as int) + 10
  }

  /** Length of the longest prefix of `s` made of digits of the radix. */
  function DigitRun(s: string, radix: nat): (k: nat)
    ensures k <= |s|
    ensures forall i :: 0 <= i < k ==> IsRadixDigit(s[i], radix)
    ensures k < |s| ==> !IsRadixDigit(s[k], radix)
  {
    if |s| > 0 && IsRadixDigit(s[0], radix) then 1 + DigitRun(s[1..], radix) else 0
  }

  predicate AllRadixDigits(ds: string, radix: nat) {
    forall i :: 0 <= i < |ds| ==> IsRadixDigit(ds[i], radix)
  }

  /** The value of a digit string, most significant digit first. */
  function DigitsValue(ds: string, radix: nat): nat
    requires AllRadixDigits(ds, radix)
  {
    if ds == [] then 0
    else DigitsValue(ds[..|ds| - 1], radix) * radix + RadixDigitValue(ds[|ds| - 1], radix)
  }

  /** A `0x` or `0X` prefix. */
  predicate HexPrefixed(u: string) {
    |u| >= 2 && u[0] == '0' && (u[1] == 'x' || u[1] == 'X')
  }

  /** The text after the white space and the optional sign `parseInt` skips. */
  function Unsigned(text: string): string {
    var t := TrimStart(text);
    if |t| > 0 && (t[0] == '-' || t[0] == '+') then t[1..] else t
  }

  /** Whether `parseInt` sees a minus sign. */
  predicate Negative(text: string) {
    var t := TrimStart(text);
    |t| > 0 && t[0] == '-'
  }

  /**
   * The digits after the sign: base 16 after a `0x`/`0X` prefix, else base 10;
   * the longest run of digits is read and `None` means there was none.
   */
  function ParseUnsigned(u: string): (r: Option<nat>)
    ensures r.Some? ==> |u| > 0 && IsDecimalDigit(u[0])
    ensures |u| > 0 && IsDecimalDigit(u[0]) && !HexPrefixed(u) ==> r.Some?
  {
    var hex := HexPrefixed(u);
    var radix := if hex then 16 else 10;
    var body := if hex then u[2..] else u;
    var k := DigitRun(body, radix);
    if k == 0 then None else Some(DigitsValue(body[..k], radix))
  }

  /**
   * `parseInt(text)` with no radix: skip leading white space, take an optional
   * sign, then read the digits as `ParseUnsigned` does. `None` is `NaN`.
   */
  function ParseInt(text: string): (r: Option<int>)
    ensures r.Some? ==> |Unsigned(text)| > 0 && IsDecimalDigit(Unsigned(text)[0])
    ensures |Unsigned(text)| > 0 && IsDecimalDigit(Unsigned(text)[0]) && !HexPrefixed(Unsigned(text)) ==> r.Some?
    ensures r.Some? && Negative(text) ==> r.value <= 0
    ensures r.Some? && !Negative(text) ==> r.value >= 0
  {
    match ParseUnsigned(Unsigned(text))
    case Some(m) => Some(if Negative(text) then -(m as int) else m)
    case None => None
  }

  // ----- lemmas -----

  lemma DigitRunOfDigits(s: string, radix: nat)
    requires AllRadixDigits(s, radix)
    ensures DigitRun(s, radix) == |s|
  {
    // the postcondition of DigitRun pins the run to the whole string
  }

  lemma {:induction false} NatToStringValue(n: nat)
    ensures AllRadixDigits(NatToString(n), 10)
    ensures DigitsValue(NatToString(n), 10) == n
    decreases n
  {
    var s := NatToString(n);
    if n >= 10 {
      NatToStringValue(n / 10);
      assert s[..|s| - 1] == NatToString(n / 10);
    }
  }

  lemma {:induction false} LeadingZeroValue(ds: string, radix: nat)
    requires AllRadixDigits(ds, radix)
    ensures AllRadixDigits("0" + ds, radix)
    ensures DigitsValue("0" + ds, radix) == DigitsValue(ds, radix)
    decreases |ds|
  {
    var z := "0" + ds;
    assert AllRadixDigits(z, radix) by {
      forall i | 0 <= i < |z| ensures IsRadixDigit(z[i], radix) {
        if i > 0 { assert z[i] == ds[i - 1]; }
      }
    }
    if ds != [] {
      var init := ds[..|ds| - 1];
      assert z[..|z| - 1] == "0" + init;
      LeadingZeroValue(init, radix);
    }
  }

  lemma TrimStartKeeps(s: string)
    requires |s| > 0 && !IsJsSpace(s[0])
    ensures TrimStart(s) == s
  {
  }

  lemma ParseUnsignedOfDigits(ds: string)
    requires |ds| > 0 && AllRadixDigits(ds, 10)
    ensures ParseUnsigned(ds) == Some(DigitsValue(ds, 10))
  {
    DigitRunOfDigits(ds, 10);
    assert ds[..|ds|] == ds;
    assert |ds| >= 2 ==> IsDecimalDigit(ds[1]);
  }

  /** A run of decimal digits reads back as its value. */
  lemma ParseIntOfDigits(ds: string)
    requires |ds| > 0 && AllRadixDigits(ds, 10)
    ensures ParseInt(ds) == Some(DigitsValue(ds, 10))
  {
    ParseUnsignedOfDigits(ds);
    assert IsDecimalDigit(ds[0]);
    TrimStartKeeps(ds);
  }

  /** A minus sign followed by text that reads as `v` reads as `-v`. */
  lemma ParseIntAfterMinus(ds: string, v: nat)
    requires ParseUnsigned(ds) == Some(v)
    ensures ParseInt("-" + ds) == Some(-(v as int))
  {
    var text := "-" + ds;
    assert text[0] == '-' && text[1..] == ds;
    TrimStartKeeps(text);
    assert Unsigned(text) == ds && Negative(text);
  }

  /** A number's own text reads back as that number. */
  lemma ParseIntOfString(n: int)
    ensures ParseInt(IntToString(n)) == Some(n)
  {
    NatToStringValue(Abs(n));
    if n < 0 {
      ParseUnsignedOfDigits(NatToString(-n));
      ParseIntAfterMinus(NatToString(-n), -n);
    } else {
      ParseIntOfDigits(NatToString(n));
    }
  }

  /** A zero-padded field such as the `05` of `00:05:00` reads back as its number. */
  lemma ParseIntOfPadded(n: nat)
    ensures ParseInt(PadStart2(NatToString(n))) == Some(n)
  {
    var digits := NatToString(n);
    NatToStringValue(n);
    if |digits| == 1 {
      LeadingZeroValue(digits, 10);
      assert PadStart2(digits) == "0" + digits;
      ParseIntOfDigits("0" + digits);
    } else {
      ParseIntOfString(n);
    }
  }
}
