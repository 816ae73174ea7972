/** The charge amount `handlePayment` computes from an event's display
    price: `Math.round(parseFloat(price.replace(/[^0-9.]/g, "")) * 100)`.

    Numbers are exact decimals: `parseFloat` yields the value of the
    longest decimal prefix, and `Math.round` is `floor(x + 1/2)`. Binary
    floating point is not modelled. */
module Price {

  /** A JavaScript number as far as this flow needs one: NaN, or the
      non-negative decimal `whole + fraction / 10^scale`. */
  datatype Number = NaN | Decimal(whole: nat, fraction: nat, scale: nat)

  predicate IsDigit(c: char) {
    '0' <= c <= '9'
  }

  /** Made of digits only. */
  predicate AllDigits(ds: string) {
    forall i :: 0 <= i < |ds| ==> IsDigit(ds[i])
  }

  /** Made of digits and '.' only: the alphabet the filter leaves. */
  predicate PriceChars(s: string) {
    forall i :: 0 <= i < |s| ==> IsDigit(s[i]) || s[i] == '.'
  }

  /** None of the characters is a digit or a dot: the filter drops all. */
  predicate NoPriceChars(s: string) {
    forall i :: 0 <= i < |s| ==> !IsDigit(s[i]) && s[i] != '.'
  }

  /** `replace(/[^0-9.]/g, "")`: keep the digits and dots, in order. */
  function KeepPriceChars(s: string): (r: string)
    ensures PriceChars(r)
    ensures |r| <= |s|
  {
    if |s| == 0 then ""
    else if IsDigit(s[0]) || s[0] == '.' then [s[0]] + KeepPriceChars(s[1..])
    else KeepPriceChars(s[1..])
  }

  /** The filter works character by character: it commutes with
      concatenation, so what it keeps stays in its original order. */
  lemma {:induction false} KeepDistributes(a: string, b: string)
    ensures KeepPriceChars(a + b) == KeepPriceChars(a) + KeepPriceChars(b)
    decreases |a|
  {
    if |a| == 0 {
      assert a + b == b;
    } else {
      assert (a + b)[0] == a[0];
      assert (a + b)[1..] == a[1..] + b;
      KeepDistributes(a[1..], b);
    }
  }

  /** A string of digits and dots passes the filter unchanged. */
  lemma {:induction false} KeepAll(s: string)
    requires PriceChars(s)
    ensures KeepPriceChars(s) == s
    decreases |s|
  {
    if |s| > 0 {
      KeepAll(s[1..]);
      assert s == [s[0]] + s[1..];
    }
  }

  /** A string without digits and dots is dropped entirely. */
  lemma {:induction false} KeepNothing(s: string)
    requires NoPriceChars(s)
    ensures KeepPriceChars(s) == ""
    decreases |s|
  {
    if |s| > 0 {
      KeepNothing(s[1..]);
    }
  }

  /** Characters dropped before and after a run of digits and dots leave
      just that run. */
  lemma KeepRun(prefix: string, number: string, suffix: string)
    requires NoPriceChars(prefix) && PriceChars(number) && NoPriceChars(suffix)
    ensures KeepPriceChars(prefix + number + suffix) == number
  {
    KeepDistributes(prefix + number, suffix);
    KeepNothing(prefix);
    KeepAll(number);
    KeepNothing(suffix);
    KeepDistributes(prefix, number);
  }

  /** The longest prefix of `s` made of digits. */
  function LeadingDigits(s: string): (d: string)
    ensures |d| <= |s| && d == s[..|d|]
    ensures AllDigits(d)
    ensures |d| == |s| || !IsDigit(s[|d|])
  {
    if |s| == 0 || !IsDigit(s[0]) then ""
    else [s[0]] + LeadingDigits(s[1..])
  }

  function Pow10(n: nat): (p: nat)
    ensures p >= 1
  {
    if n == 0 then 1 else 10 * Pow10(n - 1)
  }

  function DigitValue(c: char): (d: nat)
    requires IsDigit(c)
    ensures d < 10
  {
    c as int - '0' as int
  }

  /** The value of a decimal digit string ("" is 0). */
  function DigitsValue(ds: string): (v: nat)
    requires AllDigits(ds)
    ensures v < Pow10(|ds|)
  {
    if |ds| == 0 then 0
    else DigitsValue(ds[..|ds| - 1]) * 10 + DigitValue(ds[|ds| - 1])
  }

  /** The fraction digits after the integer digits: those following a '.'
      that comes right after them, "" when no '.' does. */
  function FractionDigits(s: string): (f: string)
    ensures AllDigits(f)
  {
    var rest := s[|LeadingDigits(s)|..];
    if |rest| > 0 && rest[0] == '.' then LeadingDigits(rest[1..]) else ""
  }

  /** `parseFloat` on the filtered price: the integer digits, then an
      optional '.' and fraction digits, read up to the first character that
      does not fit; NaN when that prefix holds no digit. */
  function ParseFloat(s: string): (n: Number)
    ensures n.NaN? <==> |LeadingDigits(s)| == 0 && |FractionDigits(s)| == 0
    ensures n.Decimal? ==> n.fraction < Pow10(n.scale)
  {
    var whole := LeadingDigits(s);
    var fraction := FractionDigits(s);
    if |whole| + |fraction| == 0 then NaN
    else Decimal(DigitsValue(whole), DigitsValue(fraction), |fraction|)
  }

  /** `Math.round(x * 100)`: the nearest whole number of cents, halves
      rounded up. NaN stays NaN. */
  function ToCents(n: Number): (c: Number)
    ensures c.NaN? <==> n.NaN?
    ensures c.Decimal? ==> c.fraction == 0 && c.scale == 0
    ensures n.Decimal? ==>
              var p := Pow10(n.scale);
              // 2p * (cents - 100 whole) - p <= 200 fraction < 2p * (cents - 100 whole) + p
              2 * p * (c.whole - 100 * n.whole) <= 200 * n.fraction + p < 2 * p * (c.whole - 100 * n.whole + 1)
  {
    match n
    case NaN => NaN
    case Decimal(w, f, s) =>
      var p := Pow10(s);
      Decimal(100 * w + (200 * f + p) / (2 * p), 0, 0)
  }

  /** The `amount` sent to the payment processor: the number read from the
      price's digits and dots, in whole cents rounded to nearest, halves up.
      NaN when the filtered price starts with neither a digit nor a dot
      followed by one. */
  function AmountCents(price: string): (r: Number)
    ensures var s := KeepPriceChars(price);
            r.NaN? <==> |LeadingDigits(s)| == 0 && |FractionDigits(s)| == 0
    ensures r.Decimal? ==> r.fraction == 0 && r.scale == 0
    ensures var s := KeepPriceChars(price);
            var w, f := DigitsValue(LeadingDigits(s)), DigitsValue(FractionDigits(s));
            var p := Pow10(|FractionDigits(s)|);
            r.Decimal? ==> 2 * p * (r.whole - 100 * w) <= 200 * f + p < 2 * p * (r.whole - 100 * w + 1)
  {
    ToCents(ParseFloat(KeepPriceChars(price)))
  }

  /** `amount / 100`: the euro amount the payment record stores. */
  function Euros(amount: Number): (e: Number)
    ensures amount.NaN? <==> e.NaN?
    ensures amount.Decimal? ==> e.scale == amount.scale + 2
    ensures amount.Decimal? ==>
              (e.whole * Pow10(e.scale) + e.fraction) == amount.whole * Pow10(amount.scale) + amount.fraction
  {
    match amount
    case NaN => NaN
    case Decimal(w, f, s) =>
      assert Pow10(s + 2) == 100 * Pow10(s) by {
        assert Pow10(s + 2) == 10 * Pow10(s + 1);
      }
      Decimal(w / 100, (w % 100) * Pow10(s) + f, s + 2)
  }

  lemma {:induction false} LeadingDigitsAll(ds: string)
    requires AllDigits(ds)
    ensures LeadingDigits(ds) == ds
    decreases |ds|
  {
    if |ds| > 0 {
      LeadingDigitsAll(ds[1..]);
    }
  }

  lemma {:induction false} LeadingDigitsStops(ds: string, tail: string)
    requires AllDigits(ds)
    requires |tail| > 0 && !IsDigit(tail[0])
    ensures LeadingDigits(ds + tail) == ds
    decreases |ds|
  {
    if |ds| == 0 {
      assert ds + tail == tail;
    } else {
      assert (ds + tail)[1..] == ds[1..] + tail;
      LeadingDigitsStops(ds[1..], tail);
    }
  }

  /** `parseFloat` of `whole.fraction` reads both digit runs in full. */
  lemma ParseDecimal(whole: string, fraction: string)
    requires |whole| > 0
    requires AllDigits(whole)
    requires AllDigits(fraction)
    ensures ParseFloat(whole + "." + fraction) == Decimal(DigitsValue(whole), DigitsValue(fraction), |fraction|)
  {
    var s := whole + "." + fraction;
    LeadingDigitsStops(whole, "." + fraction);
    assert s == whole + ("." + fraction);
    var rest := s[|whole|..];
    assert rest == "." + fraction;
    assert rest[1..] == fraction;
    LeadingDigitsAll(fraction);
  }

  /** `parseFloat` of a run of digits alone reads all of it. */
  lemma ParseWhole(whole: string)
    requires |whole| > 0
    requires AllDigits(whole)
    ensures ParseFloat(whole) == Decimal(DigitsValue(whole), 0, 0)
  {
    LeadingDigitsAll(whole);
    assert whole[|whole|..] == "";
  }

  /** With at most two fraction digits a decimal is a whole number of cents,
      and rounding keeps it. */
  lemma ExactCents(w: nat, f: nat, k: nat)
    requires k <= 2 && f < Pow10(k)
    ensures ToCents(Decimal(w, f, k)) == Decimal(100 * w + f * Pow10(2 - k), 0, 0)
  {
    if k == 0 {
      assert Pow10(0) == 1 && Pow10(2) == 100;
      assert (200 * f + 1) / 2 == 100 * f;
    } else if k == 1 {
      assert Pow10(1) == 10 && Pow10(2 - 1) == 10;
      assert (200 * f + 10) / 20 == 10 * f;
    } else {
      assert Pow10(2) == 100 && Pow10(0) == 1;
      assert (200 * f + 100) / 200 == f;
    }
  }

  /** A display price whose digits and dots read `whole.fraction`, with at
      most two fraction digits, is charged its exact value in cents. */
  lemma AmountOfPrice(price: string, whole: string, fraction: string)
    requires |whole| > 0 && |fraction| <= 2
    requires AllDigits(whole)
    requires AllDigits(fraction)
    requires KeepPriceChars(price) == whole + "." + fraction
    ensures AmountCents(price) == Decimal(100 * DigitsValue(whole) + DigitsValue(fraction) * Pow10(2 - |fraction|), 0, 0)
  {
    ParseDecimal(whole, fraction);
    ExactCents(DigitsValue(whole), DigitsValue(fraction), |fraction|);
  }

  /** A display price whose digits and dots are `whole` alone is charged
      `whole` euros. */
  lemma AmountOfWholePrice(price: string, whole: string)
    requires |whole| > 0
    requires AllDigits(whole)
    requires KeepPriceChars(price) == whole
    ensures AmountCents(price) == Decimal(100 * DigitsValue(whole), 0, 0)
  {
    ParseWhole(whole);
    ExactCents(DigitsValue(whole), 0, 0);
  }

  /** "30 €" is charged as 3000 cents. (Each example is a parameter so that
      the verifier reasons about it rather than evaluating it.) */
  lemma ThirtyEuros(price: string)
    requires price == "30 €"
    ensures KeepPriceChars(price) == "30"
    ensures AmountCents(price) == Decimal(3000, 0, 0)
  {
    assert price == "" + "30" + " €";
    KeepRun("", "30", " €");
    assert DigitsValue("30") == 30 by {
      assert "30"[..1] == "3";
    }
    AmountOfWholePrice(price, "30");
  }

  lemma KeepTwelveFifty(price: string)
    requires price == "12.50 €"
    ensures KeepPriceChars(price) == "12" + "." + "50"
  {
    assert price == "" + "12.50" + " €";
    KeepRun("", "12.50", " €");
  }

  /** "12.50 €" is charged as 1250 cents, and recorded as 12.50 euros. */
  lemma TwelveFifty(price: string)
    requires price == "12.50 €"
    ensures AmountCents(price) == Decimal(1250, 0, 0)
    ensures Euros(AmountCents(price)) == Decimal(12, 50, 2)
  {
    KeepTwelveFifty(price);
    assert DigitsValue("12") == 12 by {
      assert "12"[..1] == "1";
    }
    assert DigitsValue("50") == 50 by {
      assert "50"[..1] == "5";
    }
    AmountOfPrice(price, "12", "50");
    assert Pow10(0) == 1;
  }

  /** A German-style price `w.g,c` + suffix, with '.' grouping thousands and
      ',' before the cents, filters to `w.gc`: the comma goes, the dot
      stays and now reads as a decimal point. */
  lemma KeepGrouped(price: string, w: string, g: string, c: string, suffix: string)
    requires AllDigits(w) && AllDigits(g) && AllDigits(c) && NoPriceChars(suffix)
    requires price == w + "." + g + "," + c + suffix
    ensures KeepPriceChars(price) == w + "." + (g + c)
  {
    var head, tail := w + "." + g, "," + c + suffix;
    assert price == head + tail;
    KeepDistributes(head, tail);
    KeepDecimal(w, g);
    KeepComma(c, suffix);
    assert head + c == w + "." + (g + c);
  }

  lemma KeepDecimal(w: string, g: string)
    requires AllDigits(w) && AllDigits(g)
    ensures KeepPriceChars(w + "." + g) == w + "." + g
  {
    KeepAll(w + "." + g);
  }

  lemma KeepComma(c: string, suffix: string)
    requires AllDigits(c) && NoPriceChars(suffix)
    ensures KeepPriceChars("," + c + suffix) == c
  {
    KeepRun(",", c, suffix);
  }

  /** Rounding five fraction digits to cents adds at most one euro. */
  lemma RoundFive(w: nat, x: nat)
    requires x < 100000
    ensures ToCents(Decimal(w, x, 5)) == Decimal(100 * w + (200 * x + 100000) / 200000, 0, 0)
    ensures (200 * x + 100000) / 200000 <= 100
  {
    assert Pow10(5) == 100000;
  }

  /** A thousands separator is not understood: a price of `w` thousand,
      `g` and `c` cents is charged as `w` euros and a rounded fraction of
      one more — never more than `w + 1` euros. */
  lemma ThousandsCharged(price: string, w: string, g: string, c: string, suffix: string)
    requires |w| > 0 && |g| == 3 && |c| == 2
    requires AllDigits(w) && AllDigits(g) && AllDigits(c) && NoPriceChars(suffix)
    requires price == w + "." + g + "," + c + suffix
    ensures AllDigits(g + c)
    ensures AmountCents(price) == Decimal(100 * DigitsValue(w) + (200 * DigitsValue(g + c) + 100000) / 200000, 0, 0)
    ensures AmountCents(price).whole <= 100 * DigitsValue(w) + 100
  {
    KeepGrouped(price, w, g, c, suffix);
    assert AllDigits(g + c);
    ParseDecimal(w, g + c);
    RoundFive(DigitsValue(w), DigitsValue(g + c));
  }

  lemma Digits23456(ds: string)
    requires ds == "23456"
    ensures DigitsValue(ds) == 23456
  {
    var d1, d2, d3, d4 := ds[..1], ds[..2], ds[..3], ds[..4];
    assert d1[..0] == [] && DigitsValue(d1) == 2;
    assert d2[..1] == d1 && DigitsValue(d2) == 23;
    assert d3[..2] == d2 && DigitsValue(d3) == 234;
    assert d4[..3] == d3 && DigitsValue(d4) == 2345;
    assert ds[..4] == d4;
  }

  /** "1.234,56 €" is charged 123 cents (1.23456 euros, rounded), not
      123456. */
  lemma ThousandsSeparator(price: string)
    requires price == "1.234,56 €"
    ensures AmountCents(price) == Decimal(123, 0, 0)
  {
    assert price == "1" + "." + "234" + "," + "56" + " €";
    ThousandsCharged(price, "1", "234", "56", " €");
    assert "234" + "56" == "23456";
    Digits23456("23456");
    assert DigitsValue("1") == 1 by {
      assert "1"[..0] == "";
    }
  }
}
