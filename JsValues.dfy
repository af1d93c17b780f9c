/**
 * A narrow model of the JavaScript value conversions the storefront relies on:
 * truthiness of optional strings, `Number(s)`, `parseInt(s, 10)`,
 * `n.toString()` for naturals, `String.prototype.split` on one character and
 * `startsWith`. Only ASCII digits are recognised as digits; whitespace
 * trimming, decimals, exponents, hexadecimal and `Infinity` are not modelled.
 */
module JsValues {
  import opened Wrappers

  /** A JavaScript number as far as this model needs one: an integer or NaN. */
  datatype JsNumber = Num(value: int) | NaN

  /** `if (s)` on a value typed `string | undefined`: false for undefined and for "". */
  predicate Truthy(s: Option<string>) {
    s.Some? && s.value != ""
  }

  /** `s || undefined`: the empty string collapses to undefined. */
  function NonEmpty(s: Option<string>): (r: Option<string>)
    ensures Truthy(r) <==> Truthy(s)
    ensures r == None || r == s
    ensures r != Some("")
  {
    if Truthy(s) then s else None
  }

  predicate IsDigit(c: char) {
    '0' <= c <= '9'
  }

  predicate AllDigits(s: string) {
    forall i :: 0 <= i < |s| ==> IsDigit(s[i])
  }

  function DigitValue(c: char): (d: nat)
    requires IsDigit(c)
    ensures d < 10
  {
    c as int - '0' as int
  }

  function DigitChar(d: nat): (c: char)
    requires d < 10
    ensures IsDigit(c) && DigitValue(c) == d
  {
    ('0' as int + d) as char
  }

  /** The natural number written in decimal by the digit string `s` (most significant first). */
  function DigitsValue(s: string): nat
    requires AllDigits(s)
  {
    if s == [] then 0 else DigitsValue(s[..|s| - 1]) * 10 + DigitValue(s[|s| - 1])
  }

  /** `n.toString()` for a natural number: its decimal digits without leading zeros. */
  function NatToString(n: nat): (s: string)
    ensures AllDigits(s) && s != []
    ensures |s| > 1 ==> s[0] != '0'
  {
    if n < 10 then [DigitChar(n)] else NatToString(n / 10) + [DigitChar(n % 10)]
  }

  /** Reading back the decimal digits of `n` gives `n`. */
  lemma {:induction false} DigitsValueOfNatToString(n: nat)
    ensures DigitsValue(NatToString(n)) == n
  {
    var s := NatToString(n);
    if n >= 10 {
      DigitsValueOfNatToString(n / 10);
      assert s[..|s| - 1] == NatToString(n / 10);
    }
  }

  /**
   * `Number(s)` for the strings of this model: "" is 0, a string of decimal
   * digits is its value, anything else is NaN.
   */
  function ToNumber(s: string): (r: JsNumber)
    ensures r.Num? <==> AllDigits(s)
    ensures r.Num? ==> r.value >= 0
    ensures s == [] ==> r == Num(0)
  {
    if AllDigits(s) then Num(DigitsValue(s)) else NaN
  }

  /** `Number(x)` where `x` may be undefined (a missing array element): undefined is NaN. */
  function ToNumberOpt(x: Option<string>): (r: JsNumber)
    ensures x.None? ==> r == NaN
    ensures x.Some? ==> r == ToNumber(x.value)
  {
    match x
    case None => NaN
    case Some(s) => ToNumber(s)
  }

  /** The longest prefix of `s` made of decimal digits. */
  function DigitPrefix(s: string): (p: string)
    ensures AllDigits(p) && p <= s
    ensures |p| < |s| ==> !IsDigit(s[|p|])
  {
    if s == [] || !IsDigit(s[0]) then [] else [s[0]] + DigitPrefix(s[1..])
  }

  /**
   * `parseInt(s, 10)`: an optional sign followed by the leading digits; NaN
   * when no digit follows the sign.
   */
  function ParseInt(s: string): (r: JsNumber)
    ensures s == [] ==> r == NaN
  {
    var neg := |s| > 0 && s[0] == '-';
    var body := if |s| > 0 && (s[0] == '-' || s[0] == '+') then s[1..] else s;
    var digits := DigitPrefix(body);
    if digits == [] then NaN
    else if neg then Num(0 - DigitsValue(digits) as int)
    else Num(DigitsValue(digits))
  }

  lemma {:induction false} DigitPrefixOfDigits(s: string)
    requires AllDigits(s)
    ensures DigitPrefix(s) == s
  {
    if s != [] {
      DigitPrefixOfDigits(s[1..]);
    }
  }

  /** `parseInt(n.toString(), 10) == n` for every natural number. */
  lemma ParseIntOfNatToString(n: nat)
    ensures ParseInt(NatToString(n)) == Num(n)
  {
    var s := NatToString(n);
    assert s[0] != '-' && s[0] != '+' by { assert IsDigit(s[0]); }
    DigitPrefixOfDigits(s);
    DigitsValueOfNatToString(n);
  }

  /** Whether `s` contains the character `c`. */
  predicate Contains(s: string, c: char) {
    exists i :: 0 <= i < |s| && s[i] == c
  }

  /** `s.split(sep)` for a one-character separator: every part, in order, possibly empty. */
  function Split(s: string, sep: char): (parts: seq<string>)
    ensures |parts| >= 1
    ensures forall i :: 0 <= i < |parts| ==> !Contains(parts[i], sep)
    decreases |s|
  {
    if !Contains(s, sep) then [s]
    else
      var i := FirstIndex(s, sep);
      [s[..i]] + Split(s[i + 1..], sep)
  }

  /** The position of the first occurrence of `c` in `s`. */
  function FirstIndex(s: string, c: char): (i: nat)
    requires Contains(s, c)
    ensures i < |s| && s[i] == c && !Contains(s[..i], c)
  {
    if s[0] == c then 0
    else
      assert Contains(s[1..], c) by {
        var j :| 0 <= j < |s| && s[j] == c;
        assert s[1..][j - 1] == c;
      }
      var k := FirstIndex(s[1..], c);
      assert s[..k + 1] == [s[0]] + s[1..][..k];
      k + 1
  }

  /** `parts.join(sep)`. */
  function Join(parts: seq<string>, sep: char): string
    requires |parts| >= 1
  {
    if |parts| == 1 then parts[0] else parts[0] + [sep] + Join(parts[1..], sep)
  }

  /** Splitting and joining again gives back the original string. */
  lemma {:induction false} JoinSplit(s: string, sep: char)
    ensures Join(Split(s, sep), sep) == s
    decreases |s|
  {
    if Contains(s, sep) {
      var i := FirstIndex(s, sep);
      JoinSplit(s[i + 1..], sep);
      assert s == s[..i] + [sep] + s[i + 1..];
    }
  }

  /** A string made of two separator-free parts splits back into exactly those parts. */
  lemma SplitTwo(a: string, b: string, sep: char)
    requires !Contains(a, sep) && !Contains(b, sep)
    ensures Split(a + [sep] + b, sep) == [a, b]
  {
    var s := a + [sep] + b;
    assert s[|a|] == sep;
    var i := FirstIndex(s, sep);
    assert s[..|a|] == a;
    assert s[..i] == a;
    assert s[i + 1..] == b;
  }

  /** A separator-free string splits into itself alone. */
  lemma SplitOne(a: string, sep: char)
    requires !Contains(a, sep)
    ensures Split(a, sep) == [a]
  {
  }

  /** `s.startsWith(p)` */
  predicate StartsWith(s: string, p: string) {
    p <= s
  }
}
