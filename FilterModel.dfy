/**
 * The catalog filter record shared by the filter sidebar, the product list
 * page and the query-string codec, and the `"min-max"` price-range parser
 * that the codec applies in two places.
 *
 * The sidebar declares four required strings (search, categories, priceRange,
 * sortBy) while the codec produces optional `search`, `priceRange` and
 * `stockAvailability` plus a parsed `price`; both are this one record, with
 * `Option` for the fields that may be undefined.
 */
module FilterModel {
  import opened Wrappers
  import opened JsValues

  /** Inclusive price bounds; a missing side is unbounded. */
  datatype PriceBounds = PriceBounds(gte: Option<nat>, lte: Option<nat>)

  datatype FilterState = FilterState(
    search: Option<string>,
    categories: seq<string>,
    price: Option<PriceBounds>,
    priceRange: Option<string>,
    stockAvailability: Option<string>,
    sortBy: string)

  const DefaultSort: string := "NAME"

  /** `s || d` on a possibly undefined string. */
  function OrElse(s: Option<string>, d: string): (r: string)
    ensures Truthy(s) ==> r == s.value
    ensures !Truthy(s) ==> r == d
  {
    if Truthy(s) then s.value else d
  }

  /** `s.filter(y => y !== x)`: every element other than `x`, in order. */
  function Without(s: seq<string>, x: string): (r: seq<string>)
    ensures x !in r
    ensures |r| <= |s|
    ensures multiset(r) == multiset(s)[x := 0]
  {
    if s == [] then []
    else if s[0] == x then
      assert s == [s[0]] + s[1..];
      Without(s[1..], x)
    else
      assert s == [s[0]] + s[1..];
      [s[0]] + Without(s[1..], x)
  }

  /** `Without` distributes over concatenation, so it keeps the order of what it keeps. */
  lemma {:induction false} WithoutConcat(a: seq<string>, b: seq<string>, x: string)
    ensures Without(a + b, x) == Without(a, x) + Without(b, x)
  {
    if a == [] {
      assert a + b == b;
    } else {
      assert (a + b)[0] == a[0] && (a + b)[1..] == a[1..] + b;
      WithoutConcat(a[1..], b, x);
    }
  }

  /** A list without `x` is its own `Without`. */
  lemma {:induction false} WithoutAbsent(s: seq<string>, x: string)
    requires x !in s
    ensures Without(s, x) == s
  {
    if s != [] {
      WithoutAbsent(s[1..], x);
    }
  }

  /** `n && {...}` on a bound: NaN and 0 are falsy, so neither gives a bound. */
  function Bound(n: JsNumber): (b: Option<nat>)
    ensures b.Some? <==> n.Num? && n.value > 0
    ensures b.Some? ==> b.value == n.value
  {
    if n.Num? && n.value > 0 then Some(n.value) else None
  }

  /**
   * `priceRange.split('-').map(Number)` taking the first two parts (a missing
   * second part is `Number(undefined)`, i.e. NaN), then
   * `{...(min && {gte: min}), ...(max && {lte: max})}` unless both are NaN.
   */
  function ParsePriceRange(pr: string): (r: Option<PriceBounds>)
    ensures r.None? <==> ToNumber(Split(pr, '-')[0]).NaN? && (|Split(pr, '-')| < 2 || ToNumber(Split(pr, '-')[1]).NaN?)
    ensures r.Some? ==> r.value.gte != Some(0) && r.value.lte != Some(0)
  {
    var parts := Split(pr, '-');
    var min := ToNumber(parts[0]);
    var max := ToNumberOpt(if |parts| >= 2 then Some(parts[1]) else None);
    if min.NaN? && max.NaN? then None
    else Some(PriceBounds(Bound(min), Bound(max)))
  }

  /** The `price` the decoder derives from an optional `priceRange`: none unless it is non-empty. */
  function PriceOf(priceRange: Option<string>): (r: Option<PriceBounds>)
    ensures !Truthy(priceRange) ==> r.None?
    ensures Truthy(priceRange) ==> r == ParsePriceRange(priceRange.value)
  {
    if Truthy(priceRange) then ParsePriceRange(priceRange.value) else None
  }

  lemma PriceOfNonEmpty(priceRange: Option<string>)
    ensures PriceOf(NonEmpty(priceRange)) == PriceOf(priceRange)
  {
  }

  // ----- what the parser yields -----

  lemma NoDashInDigits(s: string)
    requires AllDigits(s)
    ensures !Contains(s, '-')
  {
  }

  /** A natural number 0 becomes no bound, any other one the bound itself. */
  function NonZero(n: nat): (b: Option<nat>)
    ensures b.Some? <==> n != 0
    ensures b.Some? ==> b.value == n
  {
    if n == 0 then None else Some(n)
  }

  lemma BoundOfNatToString(n: nat)
    ensures Bound(ToNumber(NatToString(n))) == NonZero(n)
  {
    DigitsValueOfNatToString(n);
  }

  /** `"<a>-<b>"` for naturals `a` and `b` gives exactly the nonzero ones as bounds. */
  lemma ParseTwoNumbers(a: nat, b: nat)
    ensures ParsePriceRange(NatToString(a) + "-" + NatToString(b)) == Some(PriceBounds(NonZero(a), NonZero(b)))
  {
    NoDashInDigits(NatToString(a));
    NoDashInDigits(NatToString(b));
    SplitTwo(NatToString(a), NatToString(b), '-');
    BoundOfNatToString(a);
    BoundOfNatToString(b);
  }

  /** A lone number `"<a>"` is a lower bound only (the missing upper part is NaN). */
  lemma ParseOneNumber(a: nat)
    ensures ParsePriceRange(NatToString(a)) == Some(PriceBounds(NonZero(a), None))
  {
    NoDashInDigits(NatToString(a));
    SplitOne(NatToString(a), '-');
    BoundOfNatToString(a);
  }

  /** A word before the dash (`"under-100"`, `"over-1000"`) is NaN, so only the upper bound is kept. */
  lemma ParseWordThenNumber(w: string, b: nat)
    requires w != [] && !AllDigits(w) && !Contains(w, '-')
    ensures ParsePriceRange(w + "-" + NatToString(b)) == Some(PriceBounds(None, NonZero(b)))
  {
    NoDashInDigits(NatToString(b));
    SplitTwo(w, NatToString(b), '-');
    BoundOfNatToString(b);
  }

  /** A number before a word (`"100-abc"`) keeps only the lower bound. */
  lemma ParseNumberThenWord(a: nat, w: string)
    requires !AllDigits(w) && !Contains(w, '-')
    ensures ParsePriceRange(NatToString(a) + "-" + w) == Some(PriceBounds(NonZero(a), None))
  {
    NoDashInDigits(NatToString(a));
    SplitTwo(NatToString(a), w, '-');
    BoundOfNatToString(a);
  }

  /** Neither part numeric: no price at all. */
  lemma ParseTwoWords(v: string, w: string)
    requires !AllDigits(v) && !AllDigits(w) && !Contains(v, '-') && !Contains(w, '-')
    ensures ParsePriceRange(v + "-" + w).None?
  {
    SplitTwo(v, w, '-');
  }

  // ----- the storefront's presets and the quirks of the parser -----

  lemma ParseHundredToFiveHundred()
    ensures ParsePriceRange("100-500") == Some(PriceBounds(Some(100), Some(500)))
  {
    assert NatToString(100) == "100";
    assert NatToString(500) == "500";
    ParseTwoNumbers(100, 500);
    assert NatToString(100) + "-" + NatToString(500) == "100-500";
  }

  lemma ParseFiveHundredToThousand()
    ensures ParsePriceRange("500-1000") == Some(PriceBounds(Some(500), Some(1000)))
  {
    assert NatToString(500) == "500";
    assert NatToString(1000) == "1000";
    ParseTwoNumbers(500, 1000);
    assert NatToString(500) + "-" + NatToString(1000) == "500-1000";
  }

  lemma ParseUnderHundred()
    ensures ParsePriceRange("under-100") == Some(PriceBounds(None, Some(100)))
  {
    assert NatToString(100) == "100";
    assert !IsDigit("under"[0]);
    ParseWordThenNumber("under", 100);
    assert "under" + "-" + NatToString(100) == "under-100";
  }

  /** The preset "over-1000" is read as an UPPER bound of 1000, as the parser is written. */
  lemma ParseOverThousand()
    ensures ParsePriceRange("over-1000") == Some(PriceBounds(None, Some(1000)))
  {
    assert NatToString(1000) == "1000";
    assert !IsDigit("over"[0]);
    ParseWordThenNumber("over", 1000);
    assert "over" + "-" + NatToString(1000) == "over-1000";
  }

  lemma ParseHundredThenWord()
    ensures ParsePriceRange("100-abc") == Some(PriceBounds(Some(100), None))
  {
    assert NatToString(100) == "100";
    assert !IsDigit("abc"[0]);
    ParseNumberThenWord(100, "abc");
    assert NatToString(100) + "-" + "abc" == "100-abc";
  }

  lemma ParseFiveHundredAlone()
    ensures ParsePriceRange("500") == Some(PriceBounds(Some(500), None))
  {
    assert NatToString(500) == "500";
    ParseOneNumber(500);
  }

  /** Zero bounds are dropped, so "0-0" yields an empty price object rather than none. */
  lemma ParseZeroZero()
    ensures ParsePriceRange("0-0") == Some(PriceBounds(None, None))
  {
    assert NatToString(0) == "0";
    ParseTwoNumbers(0, 0);
    assert NatToString(0) + "-" + NatToString(0) == "0-0";
  }
}
