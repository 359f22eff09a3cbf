/** Text handling that the JavaScript code gets from the language:
    `String.prototype.trim`, decimal digits, `String(n)` for integers,
    `parseFloat` and `Number(string)`. */
module Text {
  import opened Common

  /** The characters `trim` and `parseFloat` skip: ECMAScript WhiteSpace and
      LineTerminator. */
  predicate IsSpace(c: char) {
    || c == '\t' || c == '\n' || c == '\U{000B}' || c == '\U{000C}' || c == '\r'
    || c == ' ' || c == '\U{00A0}' || c == '\U{1680}'
    || ('\U{2000}' <= c <= '\U{200A}')
    || c == '\U{2028}' || c == '\U{2029}' || c == '\U{202F}' || c == '\U{205F}'
    || c == '\U{3000}' || c == '\U{FEFF}'
  }

  predicate AllSpace(s: string) {
    forall i :: 0 <= i < |s| ==> IsSpace(s[i])
  }

  /** `trimStart`: what is left after the leading white space (see
      `TrimStartSpec`). */
  function TrimStart(s: string): (r: string)
    ensures |r| <= |s|
  {
    if s == [] || !IsSpace(s[0]) then s else TrimStart(s[1..])
  }

  /** `trimStart` drops a run of white space and stops at the first other
      character. */
  lemma {:induction false} TrimStartSpec(s: string)
    ensures var r := TrimStart(s); var n := |s| - |r|;
            r == s[n..] && AllSpace(s[..n]) && (r == [] || !IsSpace(r[0]))
  {
    if s != [] && IsSpace(s[0]) {
      TrimStartSpec(s[1..]);
      var n := |s| - |TrimStart(s)|;
      assert s[1..][n - 1..] == s[n..];
      forall k | 1 <= k < n ensures IsSpace(s[..n][k]) {
        assert s[..n][k] == s[1..][..n - 1][k - 1];
      }
    }
  }

  /** `trimEnd`: what is left before the trailing white space (see
      `TrimEndSpec`). */
  function TrimEnd(s: string): (r: string)
    ensures |r| <= |s|
  {
    if s == [] || !IsSpace(s[|s| - 1]) then s else TrimEnd(s[..|s| - 1])
  }

  /** `trimEnd` drops a run of white space at the end and stops at the last
      other character. */
  lemma {:induction false} TrimEndSpec(s: string)
    ensures var r := TrimEnd(s);
            r == s[..|r|] && AllSpace(s[|r|..]) && (r == [] || !IsSpace(r[|r| - 1]))
  {
    if s != [] && IsSpace(s[|s| - 1]) {
      var p := s[..|s| - 1];
      TrimEndSpec(p);
      var m := |TrimEnd(s)|;
      assert p[..m] == s[..m];
      forall k | 0 <= k < |s| - 1 - m ensures IsSpace(s[m..][k]) {
        assert s[m..][k] == p[m..][k];
      }
    }
  }

  /** `trim`: `s` without its leading and trailing white space (see
      `TrimIsInfix`). */
  function Trim(s: string): (r: string)
    ensures |r| <= |s|
    ensures r == [] || (!IsSpace(r[0]) && !IsSpace(r[|r| - 1]))
  {
    var t := TrimStart(s);
    TrimStartSpec(s);
    TrimEndSpec(t);
    TrimEnd(t)
  }

  /** `trim` keeps the contiguous part of `s` that has only white space
      before and after it. */
  lemma {:induction false} TrimIsInfix(s: string)
    ensures var i := |s| - |TrimStart(s)|; var j := i + |Trim(s)|;
            j <= |s| && AllSpace(s[..i]) && Trim(s) == s[i..j] && AllSpace(s[j..])
  {
    TrimStartSpec(s);
    TrimmedPart(s);
    TrailingPart(s);
  }

  lemma {:induction false} TrimmedPart(s: string)
    ensures var i := |s| - |TrimStart(s)|; Trim(s) == s[i..i + |Trim(s)|]
  {
    var t := TrimStart(s);
    TrimStartSpec(s);
    TrimEndSpec(t);
    var i := |s| - |t|;
    assert s[i..i + |Trim(s)|] == t[..|Trim(s)|];
  }

  lemma {:induction false} TrailingPart(s: string)
    ensures AllSpace(s[|s| - |TrimStart(s)| + |Trim(s)|..])
  {
    var t := TrimStart(s);
    TrimStartSpec(s);
    TrimEndSpec(t);
    var i := |s| - |t|;
    assert s[i + |Trim(s)|..] == t[|Trim(s)|..];
  }

  /** `trim` keeps every character up to a non-space one when the string
      does not start with space. */
  lemma {:induction false} TrimKeepsPrefix(s: string, k: nat)
    requires k < |s| && !IsSpace(s[0]) && !IsSpace(s[k])
    ensures |Trim(s)| > k && Trim(s)[..k + 1] == s[..k + 1]
  {
    assert TrimStart(s) == s;
    TrimEndSpec(s);
  }

  /** `trim` leaves a string alone when neither end is white space. */
  lemma {:induction false} TrimUnchanged(s: string)
    requires s != [] && !IsSpace(s[0]) && !IsSpace(s[|s| - 1])
    ensures Trim(s) == s
  {
    assert TrimStart(s) == s;
    assert TrimEnd(s) == s;
  }

  predicate StartsWith(s: string, prefix: string) {
    |prefix| <= |s| && s[..|prefix|] == prefix
  }

  predicate IsDigit(c: char) {
    '0' <= c <= '9'
  }

  predicate AllDigits(s: string) {
    forall i :: 0 <= i < |s| ==> IsDigit(s[i])
  }

  function DigitValue(c: char): (d: nat)
    requires IsDigit(c)
    ensures d < 10
  {
    c as int - '0' as int
  }

  function DigitChar(d: nat): (c: char)
    requires d < 10
    ensures IsDigit(c) && DigitValue(c) == d
  {
    ('0' as int + d) as char
  }

  /** `String(n)` for a non-negative integer: its decimal digits, without
      leading zeros. */
  function NatToString(n: nat): (s: string)
    ensures |s| > 0 && AllDigits(s)
    ensures s[0] == '0' ==> n == 0
  {
    if n < 10 then [DigitChar(n)] else NatToString(n / 10) + [DigitChar(n % 10)]
  }

  /** `String(i)` for any integer: a minus sign before the digits of a
      negative number. */
  function IntToString(i: int): (s: string)
    ensures |s| > 0
    ensures i < 0 <==> s[0] == '-'
    ensures i >= 0 ==> s == NatToString(i)
  {
    if i < 0 then "-" + NatToString(-i) else NatToString(i)
  }

  /** The number a string of decimal digits denotes. */
  function DigitsValue(s: string): nat
    requires AllDigits(s)
  {
    if s == [] then 0 else DigitsValue(s[..|s| - 1]) * 10 + DigitValue(s[|s| - 1])
  }

  /** Reading back what `NatToString` writes gives the number again. */
  lemma {:induction false} DigitsValueOfNatToString(n: nat)
    ensures DigitsValue(NatToString(n)) == n
  {
    if n >= 10 {
      var s := NatToString(n);
      assert s[..|s| - 1] == NatToString(n / 10);
      DigitsValueOfNatToString(n / 10);
    }
  }

  lemma NatToStringInjective(a: nat, b: nat)
    requires NatToString(a) == NatToString(b)
    ensures a == b
  {
    DigitsValueOfNatToString(a);
    DigitsValueOfNatToString(b);
  }

  /** Length of the longest all-digit prefix of `s` (see `DigitRunSpec`). */
  function DigitRun(s: string): (k: nat)
    ensures k <= |s|
  {
    if s == [] || !IsDigit(s[0]) then 0 else 1 + DigitRun(s[1..])
  }

  /** The run is all digits and ends at the end or at a non-digit. */
  lemma {:induction false} DigitRunSpec(s: string)
    ensures var k := DigitRun(s); AllDigits(s[..k]) && (k < |s| ==> !IsDigit(s[k]))
  {
    if s != [] && IsDigit(s[0]) {
      DigitRunSpec(s[1..]);
      var k := DigitRun(s);
      forall j | 1 <= j < k ensures IsDigit(s[..k][j]) {
        assert s[..k][j] == s[1..][..k - 1][j - 1];
      }
    }
  }

  function Pow10(e: nat): (r: real)
    ensures r >= 1.0
  {
    if e == 0 then 1.0 else 10.0 * Pow10(e - 1)
  }

  /** The digits at the start of `w`: the number they denote and how many
      there are. */
  function LeadingDigits(w: string): (res: (nat, nat))
    ensures res.1 == DigitRun(w)
  {
    var k := DigitRun(w);
    DigitRunSpec(w);
    (DigitsValue(w[..k]), k)
  }

  /** An optional exponent part `e[+-]digits` at the start of `r`: the factor it
      scales by and how many characters it takes (none when it is incomplete). */
  function Exponent(r: string): (res: (real, nat))
    ensures res.0 > 0.0 && res.1 <= |r|
  {
    if |r| < 2 || (r[0] != 'e' && r[0] != 'E') then (1.0, 0)
    else
      var signLen := if r[1] == '+' || r[1] == '-' then 1 else 0;
      var digits := LeadingDigits(r[1 + signLen..]);
      if digits.1 == 0 then (1.0, 0)
      else
        var scale := Pow10(digits.0);
        (if signLen == 1 && r[1] == '-' then 1.0 / scale else scale, 1 + signLen + digits.1)
  }

  /** The longest prefix of `t` that is a decimal literal
      `[+-]? (digits [. digits?] | . digits) exponent?`: its value and its
      length, or `None` (NaN) when `t` does not start with one. */
  function ScanNumber(t: string): (res: Option<(real, nat)>)
    ensures res.Some? ==> 0 < res.value.1 <= |t|
  {
    var signLen := if |t| > 0 && (t[0] == '+' || t[0] == '-') then 1 else 0;
    var u := t[signLen..];
    var whole := LeadingDigits(u);
    var i := whole.1;
    var hasDot := i < |u| && u[i] == '.';
    var fraction := if hasDot then LeadingDigits(u[i + 1..]) else (0, 0);
    var f := fraction.1;
    if i + f == 0 then None
    else
      var mantissaEnd := if hasDot then i + 1 + f else i;
      var mantissa := whole.0 as real + fraction.0 as real / Pow10(f);
      var exponent := Exponent(u[mantissaEnd..]);
      var magnitude := mantissa * exponent.0;
      Some((if signLen == 1 && t[0] == '-' then -magnitude else magnitude,
            signLen + mantissaEnd + exponent.1))
  }

  /** `parseFloat(s)`: the value of the decimal literal after leading white
      space, ignoring whatever follows it; `None` stands for NaN. */
  function ParseFloat(s: string): Option<real> {
    match ScanNumber(TrimStart(s))
    case None => None
    case Some(scan) => Some(scan.0)
  }

  /** `Number(s)`: the trimmed text must be empty (giving 0) or one whole
      decimal literal; anything else is NaN (`None`). */
  function NumberOf(s: string): Option<real> {
    var t := Trim(s);
    if t == [] then Some(0.0)
    else match ScanNumber(t)
      case Some(scan) => if scan.1 == |t| then Some(scan.0) else None
      case None => None
  }

  /** A sign followed by the digits of `n` reads back, through `parseFloat`,
      as the signed number. */
  lemma ScanSignedDigits(sign: char, n: nat)
    requires sign == '+' || sign == '-'
    ensures ScanNumber([sign] + NatToString(n))
         == Some((if sign == '-' then -(n as real) else n as real, 1 + |NatToString(n)|))
  {
    ScanSignedDigitString(sign, NatToString(n));
    DigitsValueOfNatToString(n);
  }

  /** The same for any non-empty run of digits, leading zeros included. */
  lemma {:induction false} ScanSignedDigitString(sign: char, ds: string)
    requires sign == '+' || sign == '-'
    requires ds != [] && AllDigits(ds)
    ensures ScanNumber([sign] + ds)
         == Some((if sign == '-' then -(DigitsValue(ds) as real) else DigitsValue(ds) as real, 1 + |ds|))
  {
    var t := [sign] + ds;
    assert t[0] == sign && t[1..] == ds;
    LeadingDigitsOfDigits(ds);
    assert Exponent(ds[|ds|..]) == (1.0, 0);
  }

  /** A string of digits is read whole. */
  lemma {:induction false} LeadingDigitsOfDigits(ds: string)
    requires AllDigits(ds)
    ensures LeadingDigits(ds) == (DigitsValue(ds), |ds|)
  {
    DigitRunOfDigits(ds);
    assert ds[..|ds|] == ds;
  }

  /** A string of digits is one whole digit run. */
  lemma {:induction false} DigitRunOfDigits(ds: string)
    requires AllDigits(ds)
    ensures DigitRun(ds) == |ds|
  {
    if ds != [] {
      assert AllDigits(ds[1..]) by {
        forall i | 0 <= i < |ds| - 1 ensures IsDigit(ds[1..][i]) {
          assert ds[1..][i] == ds[i + 1];
        }
      }
      DigitRunOfDigits(ds[1..]);
    }
  }

  /** `parseFloat(String(i))` is `i` for every integer written with a leading
      `+` or `-` as moneyline strings are. */
  lemma ParseFloatSigned(sign: char, n: nat)
    requires sign == '+' || sign == '-'
    ensures ParseFloat([sign] + NatToString(n)) == Some(if sign == '-' then -(n as real) else n as real)
  {
    var s := [sign] + NatToString(n);
    assert TrimStart(s) == s;
    ScanSignedDigits(sign, n);
  }

  /** `Number` reads a sign followed by digits the same way. */
  lemma NumberOfSigned(sign: char, n: nat)
    requires sign == '+' || sign == '-'
    ensures NumberOf([sign] + NatToString(n)) == Some(if sign == '-' then -(n as real) else n as real)
  {
    var s := [sign] + NatToString(n);
    assert !IsSpace(s[0]) && !IsSpace(s[|s| - 1]);
    TrimUnchanged(s);
    ScanSignedDigits(sign, n);
  }

  /** `Number(String(n))` is `n`: the digits of a whole number read back
      whole. */
  lemma NumberOfNatToString(n: nat)
    ensures NumberOf(NatToString(n)) == Some(n as real)
  {
    var d := NatToString(n);
    assert !IsSpace(d[0]) && !IsSpace(d[|d| - 1]);
    TrimUnchanged(d);
    ScanDigits(n);
  }

  lemma ScanDigits(n: nat)
    ensures ScanNumber(NatToString(n)) == Some((n as real, |NatToString(n)|))
  {
    var d := NatToString(n);
    assert d[0..] == d;
    LeadingDigitsOfDigits(d);
    assert Exponent(d[|d|..]) == (1.0, 0);
    DigitsValueOfNatToString(n);
  }

  /** Text that starts with none of a sign, a digit or a point is NaN to
      `Number`. */
  lemma NumberOfWord(s: string)
    requires s != [] && !IsSpace(s[0])
    requires !IsDigit(s[0]) && s[0] !in {'+', '-', '.'}
    ensures NumberOf(s).None?
  {
    TrimKeepsPrefix(s, 0);
    assert Trim(s)[0] == s[0];
  }
}
