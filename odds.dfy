/** The odds converter. The repository carries two revisions of the
    decimal-to-moneyline rule: `convertDecimalToAmerican` (client helpers and
    the bundled dashboard) guards odds at or below evens-minus-everything with
    "N/A" and writes the favourite's sign by hand, while `decimalToMoneyline`
    (API route and the plain-JavaScript page) has no guard and rounds the
    negative quotient itself. Both are modelled, with the ways they differ. */
module Odds {
  import opened Common
  import opened Text

  /** `convertDecimalToAmerican`: "N/A" for odds of at most 1, the underdog
      form `+round((dec - 1) * 100)` from 2 up, and the favourite form
      `-round(100 / (dec - 1))` in between. */
  function ConvertDecimalToAmerican(dec: real): (r: string)
    ensures r == "N/A" <==> dec <= 1.0
    ensures dec > 1.0 ==> |r| >= 2 && r[0] == (if dec >= 2.0 then '+' else '-')
  {
    if dec <= 1.0 then "N/A"
    else
      var r := if dec >= 2.0 then "+" + IntToString(Round((dec - 1.0) * 100.0))
               else "-" + IntToString(Round(100.0 / (dec - 1.0)));
      assert r[0] != "N/A"[0];
      r
  }

  /** `decimalToMoneyline`: no guard. At exactly 1 the quotient is -100/0,
      which JavaScript prints as "-Infinity"; below 1 the quotient is positive
      and is printed without a sign. */
  function DecimalToMoneyline(decimal: real): (r: string)
    ensures |r| >= 2 || (decimal < 1.0 && |r| >= 1)
    ensures r[0] == '+' <==> decimal >= 2.0
    ensures r[0] == '-' <==> 1.0 <= decimal < 2.0
  {
    if decimal >= 2.0 then
      var r := "+" + IntToString(Round((decimal - 1.0) * 100.0));
      assert r[0] == '+';
      r
    else if decimal == 1.0 then "-Infinity"
    else
      QuotientSign(decimal);
      IntToString(Round(-100.0 / (decimal - 1.0)))
  }

  /** Away from 1, `-100 / (decimal - 1)` is positive below 1 and under -100
      between 1 and 2. */
  lemma QuotientSign(decimal: real)
    requires decimal < 2.0 && decimal != 1.0
    ensures decimal < 1.0 ==> -100.0 / (decimal - 1.0) > 0.0
    ensures decimal > 1.0 ==> -100.0 / (decimal - 1.0) < -100.0
  {
    var q := -100.0 / (decimal - 1.0);
    assert q * (decimal - 1.0) == -100.0;
  }

  /** `moneylineToDecimal` once the moneyline has been read as a number. */
  function MoneylineValueToDecimal(value: real): (d: real)
    ensures d >= 1.0
    ensures value != 0.0 ==> d > 1.0
    ensures value >= 100.0 || value <= -100.0 ==> (d >= 2.0 <==> value >= 100.0 || value == -100.0)
  {
    if value >= 0.0 then 1.0 + value / 100.0 else 1.0 + 100.0 / Abs(value)
  }

  /** `moneylineToDecimal(s)`: `parseFloat` then the conversion; `None` is the
      NaN that an unreadable string gives. */
  function MoneylineToDecimal(s: string): (r: Option<real>)
    ensures r.Some? <==> ParseFloat(s).Some?
    ensures r.Some? ==> r.value >= 1.0
  {
    match ParseFloat(s)
    case None => None
    case Some(v) => Some(MoneylineValueToDecimal(v))
  }

  /** A moneyline written with its sign, as manual entry expects it: "+150", "-200". */
  function SignedString(m: int): string {
    if m >= 0 then "+" + NatToString(m) else IntToString(m)
  }

  /** The odds part of `formatMoneylineWithProbability`; the `toFixed`
      rendering is not modelled. */
  datatype MoneylineDisplay =
    | NotAvailable
    | WithProbability(american: string, decimal: real, impliedPercent: real)

  function FormatMoneylineWithProbability(dec: real): (r: MoneylineDisplay)
    ensures r.NotAvailable? <==> dec <= 1.0
    ensures r.WithProbability? ==>
              && r.american == ConvertDecimalToAmerican(dec)
              && r.decimal == dec
              && r.impliedPercent * dec == 100.0
              && 0.0 < r.impliedPercent < 100.0
  {
    if dec <= 1.0 then NotAvailable
    else WithProbability(ConvertDecimalToAmerican(dec), dec, 1.0 / dec * 100.0)
  }

  /** `isMoneylineFormat`: a string holding a plus or a minus sign. */
  predicate IsMoneylineFormat(v: Option<Json>) {
    v.Some? && v.value.JStr? && ('+' in v.value.s || '-' in v.value.s)
  }

  // ---------------------------------------------------------------------
  // Properties of the conversions

  /** Odds of 2 or more round to an underdog moneyline of at least +100. */
  lemma UnderdogAtLeast100(dec: real)
    requires dec >= 2.0
    ensures Round((dec - 1.0) * 100.0) >= 100
  {
  }

  /** Odds strictly between 1 and 2 round to a favourite moneyline of magnitude at least 100. */
  lemma FavouriteAtLeast100(dec: real)
    requires 1.0 < dec < 2.0
    ensures 100.0 / (dec - 1.0) > 100.0
    ensures Round(100.0 / (dec - 1.0)) >= 100
    ensures Round(-100.0 / (dec - 1.0)) <= -100
  {
    var a := dec - 1.0;
    var x := 100.0 / a;
    assert x * a == 100.0;
    assert x > 100.0;
    assert -100.0 / a == -x;
  }

  /** "N/A" comes out exactly when the odds are at most 1; otherwise the
      result is a sign followed by a moneyline of at least 100, '+' exactly
      from evens (2.0) up. */
  lemma {:induction false} AmericanShape(dec: real)
    ensures ConvertDecimalToAmerican(dec) == "N/A" <==> dec <= 1.0
    ensures dec > 1.0 ==>
              exists k: nat {:trigger NatToString(k)} ::
                k >= 100 && ConvertDecimalToAmerican(dec) == [if dec >= 2.0 then '+' else '-'] + NatToString(k)
  {
    if dec >= 2.0 {
      UnderdogAtLeast100(dec);
      var k: nat := Round((dec - 1.0) * 100.0);
      assert ConvertDecimalToAmerican(dec) == ['+'] + NatToString(k);
    } else if dec > 1.0 {
      FavouriteAtLeast100(dec);
      var k: nat := Round(100.0 / (dec - 1.0));
      assert ConvertDecimalToAmerican(dec) == ['-'] + NatToString(k);
    }
  }

  /** The two worked examples: evens is "+100" and 1.5 is "-200". */
  lemma AmericanExamples()
    ensures ConvertDecimalToAmerican(2.0) == "+100"
    ensures ConvertDecimalToAmerican(1.5) == "-200"
  {
    assert Round(100.0) == 100;
    assert NatToString(100) == NatToString(10) + ['0'];
    assert Round(100.0 / 0.5) == 200;
    assert NatToString(200) == NatToString(20) + ['0'];
  }

  /** The implied probability of evens is 50%. */
  lemma ImpliedProbabilityOfEvens()
    ensures FormatMoneylineWithProbability(2.0).impliedPercent == 50.0
  {
  }

  lemma MulLeft(a: real, b: real, c: real)
    requires a >= 0.0 && b <= c
    ensures a * b <= a * c
  {
    assert a * c - a * b == a * (c - b);
  }

  lemma DivMono(p: real, q: real, k: real)
    requires k > 0.0 && p <= q
    ensures p / k <= q / k
  {
    assert q / k - p / k == (q - p) / k;
  }

  lemma DivByLarger(p: real, k: real, m: real)
    requires p >= 0.0 && k >= m > 0.0
    ensures p / k <= p / m
  {
    assert p / m - p / k == p * (k - m) / (k * m);
  }

  /** Rounding a moneyline magnitude `k` that is within 1/2 of the exact
      `100 / a` loses at most 1/200 of decimal odds. */
  lemma FavouriteRoundingError(a: real, k: nat)
    requires 0.0 < a < 1.0 && k >= 100
    requires Abs(k as real - 100.0 / a) <= 0.5
    ensures Abs(100.0 / k as real - a) <= 1.0 / 200.0
  {
    var x := 100.0 / a;
    var kr := k as real;
    var e := x - kr;
    assert a * x == 100.0;
    var gap := 100.0 - a * kr;
    assert gap == a * e;
    assert Abs(gap) == a * Abs(e);
    MulLeft(a, Abs(e), 0.5);
    assert Abs(gap) <= 0.5;
    assert 100.0 / kr - a == gap / kr;
    assert Abs(gap / kr) == Abs(gap) / kr;
    DivMono(Abs(gap), 0.5, kr);
    DivByLarger(0.5, kr, 100.0);
  }

  /** Underdog odds come back from their string to within 1/200. */
  lemma UnderdogRoundTrip(dec: real, s: string)
    requires dec >= 2.0 && s == "+" + IntToString(Round((dec - 1.0) * 100.0))
    ensures MoneylineToDecimal(s).Some?
    ensures Abs(MoneylineToDecimal(s).value - dec) <= 1.0 / 200.0
  {
    UnderdogAtLeast100(dec);
    var k: nat := Round((dec - 1.0) * 100.0);
    assert s == ['+'] + NatToString(k);
    ParseFloatSigned('+', k);
    assert MoneylineToDecimal(s) == Some(MoneylineValueToDecimal(k as real));
    var y := (dec - 1.0) * 100.0;
    var kr := k as real;
    assert Abs(kr - y) <= 0.5;
    assert MoneylineValueToDecimal(kr) - dec == (kr - y) / 100.0;
  }

  /** Favourite odds written as "-k" come back to within 1/200 when `k` is
      within 1/2 of `100 / (dec - 1)`. */
  lemma FavouriteRoundTrip(dec: real, k: nat, s: string)
    requires 1.0 < dec < 2.0 && k >= 100 && s == ['-'] + NatToString(k)
    requires Abs(k as real - 100.0 / (dec - 1.0)) <= 0.5
    ensures MoneylineToDecimal(s).Some?
    ensures Abs(MoneylineToDecimal(s).value - dec) <= 1.0 / 200.0
  {
    ParseFloatSigned('-', k);
    assert MoneylineToDecimal(s) == Some(1.0 + 100.0 / k as real);
    FavouriteRoundingError(dec - 1.0, k);
  }

  /** Converting to a moneyline string and reading it back with
      `moneylineToDecimal` returns the odds to within 1/200. */
  lemma AmericanRoundTrip(dec: real)
    requires dec > 1.0
    ensures MoneylineToDecimal(ConvertDecimalToAmerican(dec)).Some?
    ensures Abs(MoneylineToDecimal(ConvertDecimalToAmerican(dec)).value - dec) <= 1.0 / 200.0
  {
    if dec >= 2.0 {
      UnderdogRoundTrip(dec, ConvertDecimalToAmerican(dec));
    } else {
      FavouriteAtLeast100(dec);
      var x := 100.0 / (dec - 1.0);
      var k: nat := Round(x);
      assert ConvertDecimalToAmerican(dec) == ['-'] + NatToString(k);
      FavouriteRoundTrip(dec, k, ConvertDecimalToAmerican(dec));
    }
  }

  /** The same round trip through the unguarded revision, for odds above 1. */
  lemma MoneylineRoundTrip(dec: real)
    requires dec > 1.0
    ensures MoneylineToDecimal(DecimalToMoneyline(dec)).Some?
    ensures Abs(MoneylineToDecimal(DecimalToMoneyline(dec)).value - dec) <= 1.0 / 200.0
  {
    if dec >= 2.0 {
      UnderdogRoundTrip(dec, DecimalToMoneyline(dec));
    } else {
      FavouriteAtLeast100(dec);
      var x := 100.0 / (dec - 1.0);
      assert -100.0 / (dec - 1.0) == -x;
      var k: nat := -Round(-x);
      assert DecimalToMoneyline(dec) == ['-'] + NatToString(k);
      FavouriteRoundTrip(dec, k, DecimalToMoneyline(dec));
    }
  }

  /** Every signed moneyline string reads back as its own value. */
  lemma SignedStringReadsBack(m: int)
    ensures MoneylineToDecimal(SignedString(m)) == Some(MoneylineValueToDecimal(m as real))
  {
    if m >= 0 {
      SignedStringValue('+', m);
    } else {
      SignedStringValue('-', -m);
    }
  }

  lemma SignedStringValue(sign: char, n: nat)
    requires sign == '+' || (sign == '-' && n > 0)
    ensures var m: int := if sign == '-' then -(n as int) else n;
            SignedString(m) == [sign] + NatToString(n) && ParseFloat(SignedString(m)) == Some(m as real)
  {
    ParseFloatSigned(sign, n);
  }

  lemma CanonicalMoneylineComesBack(m: int)
    requires m >= 100 || m < -100
    ensures DecimalToMoneyline(MoneylineValueToDecimal(m as real)) == SignedString(m)
  {
    if m >= 100 {
      UnderdogComesBack(m);
    } else {
      FavouriteComesBack(m);
    }
  }

  lemma UnderdogComesBack(m: int)
    requires m >= 100
    ensures DecimalToMoneyline(MoneylineValueToDecimal(m as real)) == SignedString(m)
  {
    var d := MoneylineValueToDecimal(m as real);
    assert d == 1.0 + (m as real) / 100.0;
    assert (d - 1.0) * 100.0 == m as real;
    assert Round(m as real) == m;
  }

  lemma FavouriteComesBack(m: int)
    requires m < -100
    ensures DecimalToMoneyline(MoneylineValueToDecimal(m as real)) == SignedString(m)
  {
    var mr := m as real;
    var d := MoneylineValueToDecimal(mr);
    var a := 100.0 / -mr;
    assert d == 1.0 + a;
    assert a * -mr == 100.0;
    assert 0.0 < a < 1.0;
    assert -100.0 / (d - 1.0) == mr;
    assert Round(mr) == m;
  }

  lemma OtherMoneylineChangesSign(m: int)
    requires -100 <= m < 100
    ensures DecimalToMoneyline(MoneylineValueToDecimal(m as real))[0] != SignedString(m)[0]
  {
    var d := MoneylineValueToDecimal(m as real);
    if m == 0 {
      assert d == 1.0;
    } else if m > 0 {
      // 1 < d < 2: a favourite string, but m was written as an underdog
      FavouriteAtLeast100(d);
      assert DecimalToMoneyline(d)[0] == '-';
    } else {
      // -100 <= m < 0: d >= 2, an underdog string, but m was written with '-'
      assert 100.0 / Abs(m as real) >= 1.0;
      assert d >= 2.0;
    }
  }

  /** Starting from an integer moneyline: its signed string reads back as
      its value, and converting that value back gives the same string
      exactly when the moneyline is canonical (at least +100, or below -100).
      In particular -100 comes back as "+100". */
  lemma SignedMoneylineRoundTrip(m: int)
    ensures MoneylineToDecimal(SignedString(m)) == Some(MoneylineValueToDecimal(m as real))
    ensures DecimalToMoneyline(MoneylineValueToDecimal(m as real)) == SignedString(m)
        <==> m >= 100 || m < -100
  {
    SignedStringReadsBack(m);
    if m >= 100 || m < -100 {
      CanonicalMoneylineComesBack(m);
    } else {
      OtherMoneylineChangesSign(m);
    }
  }

  /** The moneyline -100 is read as evens and written back as "+100". */
  lemma MinusHundredBecomesPlusHundred()
    ensures MoneylineValueToDecimal(-100.0) == 2.0
    ensures DecimalToMoneyline(2.0) == "+100"
  {
    assert NatToString(100) == NatToString(10) + ['0'];
  }

  /** `x` sits exactly halfway between two integers. */
  predicate IsHalfInteger(x: real) {
    (x + 0.5).Floor as real == x + 0.5
  }

  /** `Math.round` of a negated number: the negated rounding, except at halves,
      where both round up and so differ by one. */
  lemma RoundOfNegation(x: real)
    ensures !IsHalfInteger(x) ==> Round(-x) == -Round(x)
    ensures IsHalfInteger(x) ==> Round(-x) == 1 - Round(x)
  {
  }

  /** The two revisions agree on odds of 2 or more, and on odds between 1 and
      2 exactly when `100 / (dec - 1)` is not halfway between two integers:
      `Math.round` takes halves up, so `-round(x)` and `round(-x)` differ there. */
  lemma RevisionsAgreeExceptAtHalves(dec: real)
    requires dec > 1.0
    ensures ConvertDecimalToAmerican(dec) == DecimalToMoneyline(dec)
        <==> dec >= 2.0 || !IsHalfInteger(100.0 / (dec - 1.0))
  {
    if dec < 2.0 {
      FavouriteAtLeast100(dec);
      var x := 100.0 / (dec - 1.0);
      assert -100.0 / (dec - 1.0) == -x;
      RoundOfNegation(x);
      var k: nat := Round(x);
      var guarded := ConvertDecimalToAmerican(dec);
      var unguarded := DecimalToMoneyline(dec);
      assert guarded == ['-'] + NatToString(k);
      if IsHalfInteger(x) {
        var j: nat := k - 1;
        assert unguarded == ['-'] + NatToString(j);
        if guarded == unguarded {
          assert NatToString(k) == guarded[1..] == unguarded[1..] == NatToString(j);
          NatToStringInjective(k, j);
        }
      } else {
        assert unguarded == guarded;
      }
    }
  }

  /** A concrete disagreement: 501/301 is 1 + 100/150.5, which one revision
      writes as "-151" and the other as "-150". */
  lemma RevisionsDisagreeAtHalf()
    ensures ConvertDecimalToAmerican(501.0 / 301.0) == "-151"
    ensures DecimalToMoneyline(501.0 / 301.0) == "-150"
  {
    var dec := 501.0 / 301.0;
    assert 100.0 / (dec - 1.0) == 150.5;
    assert -100.0 / (dec - 1.0) == -150.5;
    assert Round(150.5) == 151;
    assert Round(-150.5) == -150;
    assert NatToString(151) == NatToString(15) + ['1'];
    assert NatToString(15) == NatToString(1) + ['5'];
    assert NatToString(150) == NatToString(15) + ['0'];
  }

  /** Below 1 the unguarded revision prints a positive number without a sign
      (0.5 gives "200"), and at 1 it prints "-Infinity"; the guarded one says "N/A". */
  lemma UnguardedBelowOne()
    ensures DecimalToMoneyline(0.5) == "200" && ConvertDecimalToAmerican(0.5) == "N/A"
    ensures DecimalToMoneyline(1.0) == "-Infinity" && ConvertDecimalToAmerican(1.0) == "N/A"
  {
    assert -100.0 / (0.5 - 1.0) == 200.0;
    assert Round(200.0) == 200;
    assert NatToString(200) == NatToString(20) + ['0'];
  }

  /** A number is never in moneyline format; every signed moneyline string is. */
  lemma MoneylineFormatCases(r: real, m: int)
    ensures !IsMoneylineFormat(Some(JNum(r)))
    ensures IsMoneylineFormat(Some(JStr(SignedString(m))))
  {
    var s := SignedString(m);
    assert s[0] == '+' || s[0] == '-';
    assert s[0] in s;
  }
}
