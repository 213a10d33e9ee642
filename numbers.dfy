/** `parseFloat` over exact rationals: the longest prefix of the input,
    after leading white space, that reads as a signed decimal literal
    (digits, an optional fraction, an optional exponent). None stands for
    NaN. */
module Numbers {
  import opened Wrappers
  import opened Strings

  predicate IsDigit(c: char) {
    '0' <= c <= '9'
  }

  predicate AllDigits(s: string) {
    forall i :: 0 <= i < |s| ==> IsDigit(s[i])
  }

  lemma AllDigitsConcat(a: string, b: string)
    requires AllDigits(a) && AllDigits(b)
    ensures AllDigits(a + b)
  {
    forall i | 0 <= i < |a + b| ensures IsDigit((a + b)[i]) {
      if i >= |a| {
        assert (a + b)[i] == b[i - |a|];
      }
    }
  }

  /** How many decimal digits `s` starts with. */
  function LeadingDigits(s: string): (n: nat)
    ensures n <= |s|
    ensures AllDigits(s[..n])
    ensures n < |s| ==> !IsDigit(s[n])
    decreases |s|
  {
    if |s| > 0 && IsDigit(s[0]) then
      var m := LeadingDigits(s[1..]);
      assert s[..m + 1] == [s[0]] + s[1..][..m];
      m + 1
    else 0
  }

  /** The natural number a string of decimal digits denotes. */
  function DigitsValue(ds: string): nat
    requires AllDigits(ds)
    decreases |ds|
  {
    if ds == [] then 0
    else 10 * DigitsValue(ds[..|ds| - 1]) + (ds[|ds| - 1] as int - '0' as int)
  }

  function Pow10(n: nat): (r: nat)
    ensures r > 0
  {
    if n == 0 then 1 else 10 * Pow10(n - 1)
  }

  /** x * 10^e for an integer exponent e. */
  function Scale(x: real, e: int): real {
    if e >= 0 then x * Pow10(e) as real else x / Pow10(-e) as real
  }

  /** The exponent an `e`/`E` part at the start of `s` denotes, or 0 when
      `s` does not start with a complete exponent part. */
  function ExponentOf(s: string): int {
    if |s| >= 2 && (s[0] == 'e' || s[0] == 'E') then
      var negative := s[1] == '-';
      var ds := if s[1] == '+' || s[1] == '-' then s[2..] else s[1..];
      var n := LeadingDigits(ds);
      if n == 0 then 0
      else
        var magnitude: int := DigitsValue(ds[..n]);
        if negative then -magnitude else magnitude
    else 0
  }

  /** A decimal literal taken apart: the digits before the point, the
      digits after it, and what follows them. */
  datatype Decimal = Decimal(whole: string, fraction: string, rest: string)

  /** The longest `digits [. digits]` prefix of `s`. */
  function SplitDecimal(s: string): (d: Decimal)
    ensures AllDigits(d.whole) && AllDigits(d.fraction)
  {
    var i := LeadingDigits(s);
    if i < |s| && s[i] == '.' then
      var after := s[i + 1..];
      var f := LeadingDigits(after);
      Decimal(s[..i], after[..f], after[f..])
    else Decimal(s[..i], [], s[i..])
  }

  /** The value of the longest unsigned decimal literal `s` starts with. */
  function ParseUnsigned(s: string): Option<real> {
    var d := SplitDecimal(s);
    if |d.whole| + |d.fraction| == 0 then None
    else Some(Scale(DigitsValue(d.whole + d.fraction) as real, ExponentOf(d.rest) - |d.fraction|))
  }

  /** `parseFloat(s)`, None for NaN. */
  function ParseFloat(s: string): Option<real> {
    var t := TrimStart(s);
    if |t| > 0 && (t[0] == '+' || t[0] == '-') then
      match ParseUnsigned(t[1..])
      case None => None
      case Some(x) => Some(if t[0] == '-' then -x else x)
    else ParseUnsigned(t)
  }

  /** A plain decimal `int.frac` reads as the digits scaled down by the
      length of the fraction. */
  lemma DecimalValue(a: string, b: string)
    requires AllDigits(a) && AllDigits(b) && |a| + |b| > 0
    ensures AllDigits(a + b)
    ensures ParseFloat(a + "." + b) == Some(DigitsValue(a + b) as real / Pow10(|b|) as real)
  {
    AllDigitsConcat(a, b);
    var s := a + "." + b;
    assert s[0] == if a == [] then '.' else a[0];
    assert TrimStart(s) == s;
    UnsignedDecimalValue(a, b);
  }

  lemma UnsignedDecimalValue(a: string, b: string)
    requires AllDigits(a) && AllDigits(b) && |a| + |b| > 0
    ensures AllDigits(a + b)
    ensures ParseUnsigned(a + "." + b) == Some(DigitsValue(a + b) as real / Pow10(|b|) as real)
  {
    AllDigitsConcat(a, b);
    SplitPlainDecimal(a, b);
    assert ExponentOf([]) == 0;
    ScaleDown(DigitsValue(a + b) as real, |b|);
  }

  lemma ScaleUp(x: nat, n: nat)
    ensures Scale(x as real, n) == (x * Pow10(n)) as real
  {
  }

  lemma ScaleDown(x: real, n: nat)
    ensures Scale(x, -(n as int)) == x / Pow10(n) as real
  {
    if n == 0 {
      assert Pow10(0) == 1;
    }
  }

  lemma SplitPlainDecimal(a: string, b: string)
    requires AllDigits(a) && AllDigits(b)
    ensures SplitDecimal(a + "." + b) == Decimal(a, b, [])
  {
    var s := a + "." + b;
    assert s == a + ("." + b);
    LeadingDigitsPrefix(a, "." + b);
    assert s[|a|] == '.';
    assert s[|a| + 1..] == b;
    assert s[..|a|] == a;
    LeadingDigitsAll(b);
    assert b[..|b|] == b;
  }

  lemma {:induction false} LeadingDigitsAll(s: string)
    requires AllDigits(s)
    ensures LeadingDigits(s) == |s|
    decreases |s|
  {
    if |s| > 0 {
      LeadingDigitsAll(s[1..]);
    }
  }

  lemma {:induction false} LeadingDigitsPrefix(a: string, b: string)
    requires AllDigits(a)
    requires b != [] && !IsDigit(b[0])
    ensures LeadingDigits(a + b) == |a|
    decreases |a|
  {
    if |a| > 0 {
      assert (a + b)[1..] == a[1..] + b;
      LeadingDigitsPrefix(a[1..], b);
    } else {
      assert a + b == b;
    }
  }

  /** Leading white space is skipped: `parseFloat` reads past it. */
  lemma ParseFloatSkipsWhiteSpace(c: char, s: string)
    requires IsWhiteSpace(c)
    ensures ParseFloat([c] + s) == ParseFloat(s)
  {
    assert ([c] + s)[1..] == s;
    assert TrimStart([c] + s) == TrimStart(s);
  }

  /** One sign before the literal: `-` negates what the rest reads as and
      `+` keeps it; a NaN stays NaN. The rest must not start with white
      space or another sign, which `parseFloat` does not accept after a
      sign. */
  lemma ParseFloatSign(s: string)
    requires s == [] || (!IsWhiteSpace(s[0]) && s[0] != '+' && s[0] != '-')
    ensures ParseFloat("-" + s) == (if ParseFloat(s).None? then None else Some(-ParseFloat(s).value))
    ensures ParseFloat("+" + s) == ParseFloat(s)
  {
    Unspaced(s);
    Signed('-', s);
    Signed('+', s);
    assert "-" + s == ['-'] + s;
    assert "+" + s == ['+'] + s;
  }

  /** Without leading white space or a sign, `parseFloat` reads the
      unsigned literal. */
  lemma Unspaced(s: string)
    requires s == [] || (!IsWhiteSpace(s[0]) && s[0] != '+' && s[0] != '-')
    ensures ParseFloat(s) == ParseUnsigned(s)
  {
    assert TrimStart(s) == s;
  }

  /** A sign followed by an unsigned literal. */
  lemma Signed(c: char, s: string)
    requires c == '+' || c == '-'
    ensures ParseFloat([c] + s) ==
      (if ParseUnsigned(s).None? then None
       else Some(if c == '-' then -ParseUnsigned(s).value else ParseUnsigned(s).value))
  {
    var t := [c] + s;
    assert !IsWhiteSpace(c);
    assert TrimStart(t) == t;
    assert t[0] == c && t[1..] == s;
    assert TrimStart(t)[1..] == s;
  }

  /** An exponent part `e<digits>` after an integer scales it up by that
      power of ten. */
  lemma ParseFloatExponent(a: string, e: string)
    requires AllDigits(a) && AllDigits(e) && |a| > 0 && |e| > 0
    ensures ParseFloat(a + "e" + e) == Some((DigitsValue(a) * Pow10(DigitsValue(e))) as real)
  {
    var rest := ['e'] + e;
    ExponentDigits(e, false);
    ExponentPart(a, rest, DigitsValue(e));
    ScaleUp(DigitsValue(a), DigitsValue(e));
    assert a + "e" + e == a + rest;
  }

  /** An exponent part `e-<digits>` after an integer scales it down by that
      power of ten. */
  lemma ParseFloatNegativeExponent(a: string, e: string)
    requires AllDigits(a) && AllDigits(e) && |a| > 0 && |e| > 0
    ensures ParseFloat(a + "e-" + e) == Some(DigitsValue(a) as real / Pow10(DigitsValue(e)) as real)
  {
    var rest := ['e', '-'] + e;
    ExponentDigits(e, true);
    ExponentPart(a, rest, -(DigitsValue(e) as int));
    ScaleDown(DigitsValue(a) as real, DigitsValue(e));
    assert a + "e-" + e == a + rest;
  }

  /** The exponent `e<digits>` or `e-<digits>` denotes. */
  lemma ExponentDigits(e: string, negative: bool)
    requires AllDigits(e) && |e| > 0
    ensures var rest := if negative then ['e', '-'] + e else ['e'] + e;
      ExponentOf(rest) == if negative then -(DigitsValue(e) as int) else DigitsValue(e)
  {
    var rest := if negative then ['e', '-'] + e else ['e'] + e;
    LeadingDigitsAll(e);
    assert e[..|e|] == e;
    if negative {
      assert rest[1] == '-' && rest[2..] == e;
    } else {
      assert rest[1] == e[0] && rest[1..] == e;
    }
  }

  /** An integer followed by a complete exponent part reads as the integer
      scaled by that exponent. */
  lemma ExponentPart(a: string, rest: string, x: int)
    requires AllDigits(a) && |a| > 0
    requires rest != [] && rest[0] == 'e' && ExponentOf(rest) == x
    ensures ParseFloat(a + rest) == Some(Scale(DigitsValue(a) as real, x))
  {
    var s := a + rest;
    LeadingDigitsPrefix(a, rest);
    assert s[|a|] == 'e';
    assert s[..|a|] == a && s[|a|..] == rest;
    assert SplitDecimal(s) == Decimal(a, [], rest);
    assert a + [] == a;
    assert s[0] == a[0];
    Unspaced(s);
  }

  /** The amount in the schema's own example, "123.45", reads as 123.45. */
  lemma ParseExample(whole: string, fraction: string)
    requires whole == "123" && fraction == "45"
    ensures ParseFloat(whole + "." + fraction) == Some(123.45)
  {
    ExampleDigits(whole, fraction);
    DecimalValue(whole, fraction);
    ExampleScale(DigitsValue(whole + fraction), |fraction|);
  }

  /** The digits of the example and their value. */
  lemma ExampleDigits(whole: string, fraction: string)
    requires whole == "123" && fraction == "45"
    ensures AllDigits(whole) && AllDigits(fraction) && AllDigits(whole + fraction)
    ensures |whole| == 3 && |fraction| == 2
    ensures DigitsValue(whole + fraction) == 12345
  {
    DigitsOf12345();
    assert whole + fraction == "12345";
  }

  /** 12345 scaled down by two decimal places. */
  lemma ExampleScale(n: nat, d: nat)
    requires n == 12345 && d == 2
    ensures n as real / Pow10(d) as real == 123.45
  {
    assert Pow10(d) == 100 by {
      assert Pow10(2) == 10 * Pow10(1);
    }
  }

  lemma DigitsOf12345()
    ensures AllDigits("12345") && DigitsValue("12345") == 12345
  {
    assert "12345"[..4] == "1234";
    assert "1234"[..3] == "123";
    assert "123"[..2] == "12";
    assert "12"[..1] == "1";
    assert "1"[..0] == "";
  }

  /** A string that starts with neither white space, a sign, a digit nor
      a point is not a number: `parseFloat` gives NaN. */
  lemma NonNumericIsNaN(s: string)
    requires s != [] && !IsWhiteSpace(s[0]) && !IsDigit(s[0])
    requires s[0] != '+' && s[0] != '-' && s[0] != '.'
    ensures ParseFloat(s) == None
  {
    assert TrimStart(s) == s;
    assert LeadingDigits(s) == 0;
    assert SplitDecimal(s).whole == [] && SplitDecimal(s).fraction == [];
  }

  /** The tests' word: `parseFloat("invalid")` is NaN. */
  lemma ParseWordIsNaN(w: string)
    requires w == "invalid"
    ensures ParseFloat(w) == None
  {
    assert w[0] == 'i';
    NonNumericIsNaN(w);
  }
}
