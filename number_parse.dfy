/**
 * `Double(text)`: the text must be, in full, a decimal literal — an
 * optional sign, digits with an optional fraction, an optional exponent.
 */
module NumberParsing {
  import opened Wrappers

  predicate IsDigit(c: char) {
    '0' <= c <= '9'
  }

  predicate AllDigits(s: string) {
    forall i :: 0 <= i < |s| ==> IsDigit(s[i])
  }

  function DigitValue(c: char): nat
    requires IsDigit(c)
  {
    (c as int - '0' as int) as nat
  }

  /** The number a run of decimal digits denotes, read left to right. */
  function DigitsValue(s: string): nat
    requires AllDigits(s)
  {
    if s == [] then 0 else DigitsValue(s[..|s| - 1]) * 10 + DigitValue(s[|s| - 1])
  }

  /** `x` times ten to the power `e`, one factor of ten at a time. */
  function Scale(x: real, e: int): real
    decreases if e >= 0 then e else -e
  {
    if e == 0 then x else if e > 0 then 10.0 * Scale(x, e - 1) else Scale(x, e + 1) / 10.0
  }

  /** The optional sign of a literal. */
  predicate IsSign(t: string) {
    t == [] || t == ['+'] || t == ['-']
  }

  /** `x` under the sign `t`. */
  function Signed(t: string, x: real): real {
    if t == ['-'] then -x else x
  }

  /** The optional fraction of a literal: a point and digits, possibly none. */
  predicate IsFraction(f: string) {
    f == [] || (f[0] == '.' && AllDigits(f[1..]))
  }

  /** The value the digits after the point add, `d1/10 + d2/100 + …`. */
  function FractionValue(f: string): real
    requires IsFraction(f)
  {
    if f == [] then 0.0 else Scale(DigitsValue(f[1..]) as real, -(|f| - 1))
  }

  /** The digits of an exponent, after its letter and optional sign. */
  function ExponentDigits(x: string): string
    requires |x| >= 1
  {
    if |x| >= 2 && (x[1] == '+' || x[1] == '-') then x[2..] else x[1..]
  }

  /** The optional exponent of a literal: `e` or `E`, an optional sign, at least one digit. */
  predicate IsExponent(x: string) {
    x == [] || ((x[0] == 'e' || x[0] == 'E') && ExponentDigits(x) != [] && AllDigits(ExponentDigits(x)))
  }

  /** The power of ten an exponent denotes; no exponent is the power 0. */
  function ExponentValue(x: string): int
    requires IsExponent(x)
  {
    if x == [] then 0
    else if x[1] == '-' then -(DigitsValue(ExponentDigits(x)) as int)
    else DigitsValue(ExponentDigits(x)) as int
  }

  /** The number a literal with these parts denotes: its sign times its mantissa times ten to its exponent. */
  function LiteralValue(sign: string, whole: string, fraction: string, exponent: string): real
    requires AllDigits(whole) && IsFraction(fraction) && IsExponent(exponent)
  {
    Signed(sign, Scale(DigitsValue(whole) as real + FractionValue(fraction), ExponentValue(exponent)))
  }

  /** The end of the run of digits that starts at `i`. */
  function SpanDigits(s: string, i: nat): (j: nat)
    requires i <= |s|
    ensures i <= j <= |s|
    ensures AllDigits(s[i..j])
    ensures j < |s| ==> !IsDigit(s[j])
    decreases |s| - i
  {
    if i < |s| && IsDigit(s[i]) then SpanDigits(s, i + 1) else i
  }

  /** The end of the optional sign at the start of `s`. */
  function SignEnd(s: string): (i: nat)
    ensures i <= |s| && IsSign(s[..i])
  {
    if s != [] && (s[0] == '+' || s[0] == '-') then 1 else 0
  }

  /** The end of the optional fraction that starts at `j`. */
  function FractionEnd(s: string, j: nat): (k: nat)
    requires j <= |s|
    ensures j <= k <= |s| && IsFraction(s[j..k])
  {
    if j < |s| && s[j] == '.' then
      var k := SpanDigits(s, j + 1);
      assert s[j..k][1..] == s[j + 1..k];
      k
    else j
  }

  /**
   * `Double(text)`: the text is cut after its sign, its integer digits and
   * its fraction; there must be a digit before the rest, and the rest must
   * be an exponent.
   */
  function ParseNumber(s: string): (r: Option<real>)
    ensures s == [] ==> r == None
  {
    var i := SignEnd(s);
    var j := SpanDigits(s, i);
    var k := FractionEnd(s, j);
    if j == i && k <= j + 1 then None
    else if !IsExponent(s[k..]) then None
    else Some(LiteralValue(s[..i], s[i..j], s[j..k], s[k..]))
  }

  lemma {:induction false} SpanDigitsTo(s: string, i: nat, j: nat)
    requires i <= j <= |s| && AllDigits(s[i..j])
    requires j < |s| ==> !IsDigit(s[j])
    ensures SpanDigits(s, i) == j
    decreases j - i
  {
    if i < j {
      assert s[i..j][0] == s[i];
      assert s[i + 1..j] == s[i..j][1..];
      SpanDigitsTo(s, i + 1, j);
    }
  }

  lemma FractionCut(s: string, j: nat, k: nat)
    requires j <= k <= |s| && IsFraction(s[j..k])
    requires k == j ==> j == |s| || s[j] != '.'
    requires k > j ==> k == |s| || !IsDigit(s[k])
    ensures FractionEnd(s, j) == k
  {
    if k > j {
      assert s[j] == s[j..k][0];
      assert s[j + 1..k] == s[j..k][1..];
      SpanDigitsTo(s, j + 1, k);
    }
  }

  /** Where the four parts of `a + b + c + d` sit, and what follows each. */
  lemma Parts<T>(a: seq<T>, b: seq<T>, c: seq<T>, d: seq<T>)
    ensures (a + b + c + d)[..|a|] == a
    ensures (a + b + c + d)[|a|..|a| + |b|] == b
    ensures (a + b + c + d)[|a| + |b|..|a| + |b| + |c|] == c
    ensures (a + b + c + d)[|a| + |b| + |c|..] == d
    ensures |a| < |a + b + c + d| ==>
              (a + b + c + d)[|a|] == if b != [] then b[0] else if c != [] then c[0] else d[0]
    ensures |a| + |b| < |a + b + c + d| ==> (a + b + c + d)[|a| + |b|] == if c != [] then c[0] else d[0]
    ensures |a| + |b| + |c| < |a + b + c + d| ==> (a + b + c + d)[|a| + |b| + |c|] == d[0]
  {
    var s := a + b + c + d;
    assert s[..|a|] == a;
    assert s[|a|..|a| + |b|] == b;
    assert s[|a| + |b|..|a| + |b| + |c|] == c;
    assert s[|a| + |b| + |c|..] == d;
  }

  lemma SignOfParts(s: string, sign: string, whole: string, fraction: string, exponent: string)
    requires IsSign(sign) && AllDigits(whole) && IsFraction(fraction) && IsExponent(exponent)
    requires whole != [] || |fraction| >= 2
    requires s == sign + whole + fraction + exponent
    ensures SignEnd(s) == |sign|
  {
    Parts(sign, whole, fraction, exponent);
    if sign == [] && s != [] {
      assert s[0] == if whole != [] then whole[0] else fraction[0];
    }
  }

  lemma WholeOfParts(s: string, sign: string, whole: string, fraction: string, exponent: string)
    requires IsSign(sign) && AllDigits(whole) && IsFraction(fraction) && IsExponent(exponent)
    requires whole != [] || |fraction| >= 2
    requires s == sign + whole + fraction + exponent
    ensures SpanDigits(s, |sign|) == |sign| + |whole|
  {
    Parts(sign, whole, fraction, exponent);
    SpanDigitsTo(s, |sign|, |sign| + |whole|);
  }

  lemma FractionOfParts(s: string, sign: string, whole: string, fraction: string, exponent: string)
    requires IsSign(sign) && AllDigits(whole) && IsFraction(fraction) && IsExponent(exponent)
    requires whole != [] || |fraction| >= 2
    requires s == sign + whole + fraction + exponent
    ensures FractionEnd(s, |sign| + |whole|) == |sign| + |whole| + |fraction|
  {
    Parts(sign, whole, fraction, exponent);
    FractionCut(s, |sign| + |whole|, |sign| + |whole| + |fraction|);
  }

  /** A text cut into a sign, integer digits, a fraction and an exponent is cut there by the parser too. */
  lemma CutsOfParts(s: string, sign: string, whole: string, fraction: string, exponent: string)
    requires IsSign(sign) && AllDigits(whole) && IsFraction(fraction) && IsExponent(exponent)
    requires whole != [] || |fraction| >= 2
    requires s == sign + whole + fraction + exponent
    ensures SignEnd(s) == |sign|
    ensures SpanDigits(s, |sign|) == |sign| + |whole|
    ensures FractionEnd(s, |sign| + |whole|) == |sign| + |whole| + |fraction|
  {
    SignOfParts(s, sign, whole, fraction, exponent);
    WholeOfParts(s, sign, whole, fraction, exponent);
    FractionOfParts(s, sign, whole, fraction, exponent);
  }

  /**
   * Every decimal literal — a sign, integer digits, a fraction and an
   * exponent, each optional but with at least one digit before the
   * exponent — parses to its sign times its mantissa scaled by ten to
   * its exponent.
   */
  lemma ParseLiteral(sign: string, whole: string, fraction: string, exponent: string)
    requires IsSign(sign) && AllDigits(whole) && IsFraction(fraction) && IsExponent(exponent)
    requires whole != [] || |fraction| >= 2
    ensures ParseNumber(sign + whole + fraction + exponent) == Some(LiteralValue(sign, whole, fraction, exponent))
  {
    CutsOfParts(sign + whole + fraction + exponent, sign, whole, fraction, exponent);
    Parts(sign, whole, fraction, exponent);
  }

  /** A literal with no fraction and no exponent: its digits under its sign. */
  lemma ParseWholeDigits(sign: string, digits: string)
    requires IsSign(sign) && digits != [] && AllDigits(digits)
    ensures ParseNumber(sign + digits) == Some(Signed(sign, DigitsValue(digits) as real))
  {
    var none: string := [];
    ParseLiteral(sign, digits, none, none);
    assert sign + digits + none + none == sign + digits;
  }

  /** A non-empty run of digits parses to the number it denotes. */
  lemma ParseDigits(s: string)
    requires s != [] && AllDigits(s)
    ensures ParseNumber(s) == Some(DigitsValue(s) as real)
  {
    var none: string := [];
    ParseWholeDigits(none, s);
    assert none + s == s;
  }

  /** A minus sign negates: `-ds` parses to minus the value of `ds`. */
  lemma ParseNegative(s: string)
    requires s != [] && AllDigits(s)
    ensures ParseNumber(['-'] + s) == Some(-(DigitsValue(s) as real))
  {
    ParseWholeDigits(['-'], s);
  }

  lemma Regrouped(a: string, c: char, b: string)
    ensures [] + a + ([c] + b) + [] == a + [c] + b
    ensures [] + a + [] + ([c] + b) == a + [c] + b
  {
  }

  /** The digits after a point add their value scaled down by their count. */
  lemma FractionDigits(digits: string)
    requires AllDigits(digits)
    ensures IsFraction(['.'] + digits)
    ensures FractionValue(['.'] + digits) == Scale(DigitsValue(digits) as real, -|digits|)
  {
    assert (['.'] + digits)[1..] == digits;
  }

  /** Integer digits and a fraction, with no sign and no exponent, are worth the digits plus the fraction digits scaled down by their count. */
  lemma FractionLiteral(whole: string, digits: string)
    requires AllDigits(whole) && AllDigits(digits)
    ensures IsFraction(['.'] + digits)
    ensures LiteralValue([], whole, ['.'] + digits, []) == DigitsValue(whole) as real + Scale(DigitsValue(digits) as real, -|digits|)
  {
    FractionDigits(digits);
  }

  /** `Double("12.5")` and the like parse as the literal with those integer digits and fraction; `FractionLiteral` gives its value. */
  lemma ParseFraction(whole: string, digits: string)
    requires AllDigits(whole) && AllDigits(digits) && whole + digits != []
    ensures IsFraction(['.'] + digits)
    ensures ParseNumber(whole + ['.'] + digits) == Some(LiteralValue([], whole, ['.'] + digits, []))
  {
    var none: string, f := [], ['.'] + digits;
    assert f[1..] == digits;
    ParseLiteral(none, whole, f, none);
    Regrouped(whole, '.', digits);
    assert none + whole + f + none == [] + whole + f + [];
  }

  /** `Double("25e3")` and the like: the digits before the `e` scaled up by the number after it. */
  lemma ParseScientific(mantissa: string, digits: string)
    requires mantissa != [] && AllDigits(mantissa) && digits != [] && AllDigits(digits)
    ensures ParseNumber(mantissa + ['e'] + digits) == Some(Scale(DigitsValue(mantissa) as real, DigitsValue(digits)))
  {
    var none: string, x := [], ['e'] + digits;
    assert ExponentDigits(x) == digits;
    ParseLiteral(none, mantissa, none, x);
    Regrouped(mantissa, 'e', digits);
    assert none + mantissa + none + x == [] + mantissa + [] + x;
  }

  /** A first character that cannot start a literal makes the text unparsable. */
  lemma ParseRejectsLeadingJunk(s: string)
    requires s != [] && !IsDigit(s[0]) && s[0] != '+' && s[0] != '-' && s[0] != '.'
    ensures ParseNumber(s) == None
  {
  }
}
