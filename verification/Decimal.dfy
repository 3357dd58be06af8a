/**
 Exact equality of JSON number texts (RFC 8259 section 6) without building the
 numbers: a text becomes sign, trimmed digits and a power of ten, and two of them
 are compared by order of magnitude and digit by digit. Exponents are unbounded.
 */
module Decimal {
  import opened Options

  // ---- Digits -----------------------------------------------------------------------

  predicate IsDigit(c: char) { '0' <= c <= '9' }

  predicate AllDigits(s: string) { forall i | 0 <= i < |s| :: IsDigit(s[i]) }

  function DigitValue(c: char): (d: nat)
    requires IsDigit(c)
    ensures d <= 9
  { (c as int) - ('0' as int) }

  /** The natural number a string of digits writes. */
  function DigitsValue(s: string): nat
    requires AllDigits(s)
  {
    if s == "" then 0 else 10 * DigitsValue(s[..|s| - 1]) + DigitValue(s[|s| - 1])
  }

  function Ten(n: nat): (p: nat)
    ensures p >= 1
  { if n == 0 then 1 else 10 * Ten(n - 1) }

  function Zeros(n: nat): (z: string)
    ensures |z| == n && AllDigits(z) && forall i | 0 <= i < n :: z[i] == '0'
  { if n == 0 then "" else Zeros(n - 1) + "0" }

  lemma {:induction false} ShiftedValue(s: string, n: nat)
    requires AllDigits(s)
    ensures AllDigits(s + Zeros(n)) && DigitsValue(s + Zeros(n)) == DigitsValue(s) * Ten(n)
  {
    if n == 0 {
      assert s + Zeros(0) == s;
    } else {
      ShiftedValue(s, n - 1);
      var all := s + Zeros(n);
      assert all[..|all| - 1] == s + Zeros(n - 1) && all[|all| - 1] == '0';
      LastIsZero(all);
      TenTimes(DigitsValue(s), Ten(n - 1));
    }
  }

  lemma {:induction false} LeadingZeros(n: nat, s: string)
    requires AllDigits(s)
    ensures AllDigits(Zeros(n) + s) && DigitsValue(Zeros(n) + s) == DigitsValue(s)
    decreases n + |s|
  {
    var all := Zeros(n) + s;
    if s != "" {
      LeadingZeros(n, s[..|s| - 1]);
      assert all[..|all| - 1] == Zeros(n) + s[..|s| - 1];
    } else if n > 0 {
      LeadingZeros(n - 1, "");
      assert all[..|all| - 1] == Zeros(n - 1) + "";
    } else {
      assert all == "";
    }
  }

  /** A digit string of length n stays below 10^n, and reaches 10^(n-1) unless it starts with zero. */
  lemma {:induction false} DigitsBounds(s: string)
    requires AllDigits(s)
    ensures DigitsValue(s) < Ten(|s|)
    ensures s != "" && s[0] != '0' ==> DigitsValue(s) >= Ten(|s| - 1)
  {
    if s != "" {
      DigitsBounds(s[..|s| - 1]);
      if |s| > 1 { assert s[..|s| - 1][0] == s[0]; }
    }
  }

  /** Equal length and equal value means equal digits. */
  lemma {:induction false} DigitsInjective(a: string, b: string)
    requires AllDigits(a) && AllDigits(b) && |a| == |b| && DigitsValue(a) == DigitsValue(b)
    ensures a == b
  {
    if a != "" {
      var n := |a| - 1;
      assert DigitValue(a[n]) == DigitValue(b[n]) && DigitsValue(a[..n]) == DigitsValue(b[..n]);
      DigitsInjective(a[..n], b[..n]);
      assert a == a[..n] + [a[n]] && b == b[..n] + [b[n]];
    }
  }

  // ---- Powers of ten over the reals ---------------------------------------------------

  function Pow10(k: int): (p: real)
    ensures p > 0.0
    decreases if k >= 0 then k else -k
  {
    if k == 0 then 1.0 else if k > 0 then 10.0 * Pow10(k - 1) else Pow10(k + 1) / 10.0
  }

  lemma PowStep(k: int)
    ensures Pow10(k + 1) == 10.0 * Pow10(k)
  {}

  lemma {:induction false} PowAdds(a: int, n: nat)
    ensures Pow10(a + n) == (Ten(n) as real) * Pow10(a)
  {
    if n > 0 {
      PowAdds(a, n - 1);
      PowStep(a + n - 1);
    }
  }

  lemma PowGrows(a: int, b: int)
    requires a < b
    ensures Pow10(b) >= 10.0 * Pow10(a)
  {
    hide Pow10, Ten;
    PowAdds(a + 1, b - a - 1);
    PowStep(a);
    AtLeastOnce(Ten(b - a - 1) as real, Pow10(a + 1));
    assert a + 1 + (b - a - 1) == b;
  }

  lemma AtLeastOnce(t: real, p: real)
    requires p > 0.0 && t >= 1.0
    ensures t * p >= p
  {}

  lemma Regroup(v: real, t: real, p: real)
    ensures (v * t) * p == v * (t * p)
  {}

  lemma ScaleLess(a: real, b: real, p: real)
    requires p > 0.0 && a < b
    ensures a * p < b * p
  {}

  lemma ScaleBetween(low: real, v: real, high: real, p: real, left: real, middle: real, right: real)
    requires p > 0.0 && low <= v < high
    requires left == low * p && middle == v * p && right == high * p
    ensures left <= middle < right
  {
    ScaleLess(v, high, p);
    if low < v { ScaleLess(low, v, p); }
  }

  lemma ProductAsReal(a: nat, b: nat)
    ensures (a * b) as real == (a as real) * (b as real)
  {}

  lemma Cancel(v: nat, w: nat, p: real)
    requires p > 0.0 && (v as real) * p == (w as real) * p
    ensures v == w
  {
    if v < w { ScaleLess(v as real, w as real, p); }
    if w < v { ScaleLess(w as real, v as real, p); }
  }

  // ---- The number texts ------------------------------------------------------------------

  datatype Sign = NoSign | Plus | Minus

  datatype Exponent = NoExponent | Exponent(upper: bool, sign: Sign, digits: string)

  /** A number as the grammar builds it: minus? int frac? exp?. */
  datatype Number = Number(negative: bool, whole: string, fraction: Option<string>, exponent: Exponent)

  predicate IsNumber(n: Number) {
    n.whole != "" && AllDigits(n.whole) &&
    (n.fraction.Some? ==> n.fraction.value != "" && AllDigits(n.fraction.value)) &&
    (n.exponent.Exponent? ==> n.exponent.digits != "" && AllDigits(n.exponent.digits))
  }

  function FractionText(n: Number): string { if n.fraction.Some? then "." + n.fraction.value else "" }

  function SignText(s: Sign): string {
    match s case NoSign => "" case Plus => "+" case Minus => "-"
  }

  function ExponentText(e: Exponent): string {
    match e
    case NoExponent => ""
    case Exponent(upper, sign, digits) => (if upper then "E" else "e") + (SignText(sign) + digits)
  }

  function Print(n: Number): string {
    (if n.negative then "-" else "") + ((n.whole + FractionText(n)) + ExponentText(n.exponent))
  }

  function FractionDigits(n: Number): string { if n.fraction.Some? then n.fraction.value else "" }

  function Opposite(minus: bool, n: nat): int { if minus then 0 - n else n }

  function ExponentValue(n: Number): int
    requires IsNumber(n)
  {
    match n.exponent
    case NoExponent => 0
    case Exponent(_, sign, digits) => Opposite(sign.Minus?, DigitsValue(digits))
  }

  /** The rational the text denotes. */
  function Value(n: Number): real
    requires IsNumber(n)
  {
    Signed(n.negative,
           (DigitsValue(n.whole + FractionDigits(n)) as real) * Pow10(ExponentValue(n) - |FractionDigits(n)|))
  }

  function Signed(negative: bool, magnitude: real): real { if negative then -magnitude else magnitude }

  // ---- parseJSONDecimal --------------------------------------------------------------------

  datatype Decimal = Decimal(negative: bool, digits: string, power: int)

  /** strings.IndexAny: the first index holding one of the characters, or -1. */
  function FirstOf(s: string, chars: string): (i: int)
    ensures -1 <= i < |s|
    ensures i >= 0 ==> s[i] in chars
    ensures forall k | 0 <= k < (if i >= 0 then i else |s|) :: s[k] !in chars
  {
    if s == "" then -1
    else if s[0] in chars then 0
    else
      var rest := FirstOf(s[1..], chars);
      assert forall k | 1 <= k < |s| :: s[k] == s[1..][k - 1];
      if rest < 0 then -1 else rest + 1
  }

  function TrimLeft(s: string): string {
    if s != "" && s[0] == '0' then TrimLeft(s[1..]) else s
  }

  function TrimRight(s: string): string {
    if s != "" && s[|s| - 1] == '0' then TrimRight(s[..|s| - 1]) else s
  }

  /** big.Int.SetString in base ten: an optional sign, then digits and nothing else. */
  function ParseInt(s: string): Option<int> {
    var body := if s != "" && s[0] in "+-" then s[1..] else s;
    if body == "" || !AllDigits(body) then None
    else Some(Opposite(s[0] == '-', DigitsValue(body)))
  }

  function ParseExponent(text: string): Option<int> {
    var rest := if text != "" && text[0] == '+' then text[1..] else text;
    if rest == "" then None else ParseInt(rest)
  }

  function Normalize(negative: bool, mantissa: string, exponent: int, fractionLength: nat): Decimal {
    var digits := TrimLeft(mantissa);
    if digits == "" then Decimal(false, "", 0)
    else
      var trimmed := TrimRight(digits);
      Decimal(negative, trimmed, exponent - fractionLength + (|digits| - |trimmed|))
  }

  /** Drop the decimal point, remembering how many digits followed it. */
  function ParseMantissa(negative: bool, mantissa: string, exponent: int): Decimal {
    var dot := FirstOf(mantissa, ".");
    if dot < 0 then Normalize(negative, mantissa, exponent, 0)
    else
      var fraction := mantissa[dot + 1..];
      Normalize(negative, mantissa[..dot] + fraction, exponent, |fraction|)
  }

  function ParseUnsigned(negative: bool, raw: string): Option<Decimal> {
    var e := FirstOf(raw, "eE");
    if e < 0 then Some(ParseMantissa(negative, raw, 0))
    else
      var exponent := ParseExponent(raw[e + 1..]);
      if exponent.None? then None else Some(ParseMantissa(negative, raw[..e], exponent.value))
  }

  /** parseJSONDecimal */
  function Parse(text: string): Option<Decimal> {
    if text != "" && text[0] == '-' then ParseUnsigned(true, text[1..]) else ParseUnsigned(false, text)
  }

  // ---- jsonNumbersEqual -----------------------------------------------------------------------

  function Order(d: Decimal): int { d.power + |d.digits| }

  function DigitAt(s: string, i: nat): char { if i < |s| then s[i] else '0' }

  function Longest(a: string, b: string): nat { if |b| > |a| then |b| else |a| }

  predicate SameDecimal(a: Decimal, b: Decimal) {
    if a.digits == "" || b.digits == "" then a.digits == b.digits
    else a.negative == b.negative && Order(a) == Order(b) &&
         forall i | 0 <= i < Longest(a.digits, b.digits) :: DigitAt(a.digits, i) == DigitAt(b.digits, i)
  }

  predicate SameNumber(a: string, b: string) {
    Parse(a).Some? && Parse(b).Some? && SameDecimal(Parse(a).value, Parse(b).value)
  }

  method NumbersEqual(a: string, b: string) returns (equal: bool)
    ensures equal == SameNumber(a, b)
  {
    hide Parse;
    var left, right := Parse(a), Parse(b);
    if left.None? || right.None? { return false; }
    var x, y := left.value, right.value;
    if x.digits == "" || y.digits == "" { return x.digits == y.digits; }
    if x.negative != y.negative { return false; }
    if Order(x) != Order(y) { return false; }
    for i := 0 to Longest(x.digits, y.digits)
      invariant forall k | 0 <= k < i :: DigitAt(x.digits, k) == DigitAt(y.digits, k)
    {
      if DigitAt(x.digits, i) != DigitAt(y.digits, i) { return false; }
    }
    equal := true;
  }

  // ---- Parsing keeps the value -------------------------------------------------------------------

  function DecimalValue(d: Decimal): real
    requires AllDigits(d.digits)
  {
    Signed(d.negative, (DigitsValue(d.digits) as real) * Pow10(d.power))
  }

  predicate Normal(d: Decimal) { AllDigits(d.digits) && (d.digits != "" ==> d.digits[0] != '0') }

  lemma {:induction false} TrimLeftKeeps(s: string)
    requires AllDigits(s)
    ensures AllDigits(TrimLeft(s)) && DigitsValue(TrimLeft(s)) == DigitsValue(s)
    ensures TrimLeft(s) != "" ==> TrimLeft(s)[0] != '0'
  {
    if s != "" && s[0] == '0' {
      TrimLeftKeeps(s[1..]);
      LeadingZeros(1, s[1..]);
      assert s == Zeros(1) + s[1..];
    }
  }

  lemma TenTimes(v: nat, t: nat)
    ensures 10 * (v * t) == v * (10 * t)
  {}

  lemma {:induction false} TrimRightKeeps(s: string)
    requires AllDigits(s)
    ensures |TrimRight(s)| <= |s| && AllDigits(TrimRight(s))
    ensures DigitsValue(s) == DigitsValue(TrimRight(s)) * Ten(|s| - |TrimRight(s)|)
    ensures s != "" && s[0] != '0' ==> TrimRight(s) != "" && TrimRight(s)[0] == s[0]
  {
    if s != "" && s[|s| - 1] == '0' {
      var rest := s[..|s| - 1];
      TrimRightKeeps(rest);
      LastIsZero(s);
      hide DigitsValue;
      TenTimes(DigitsValue(TrimRight(rest)), Ten(|rest| - |TrimRight(rest)|));
    }
  }

  lemma LastIsZero(s: string)
    requires AllDigits(s) && s != "" && s[|s| - 1] == '0'
    ensures DigitsValue(s) == 10 * DigitsValue(s[..|s| - 1])
  {}

  /** Dropping n trailing zeros and raising the power by n changes nothing. */
  lemma TrimmedMagnitude(digits: string, power: int)
    requires AllDigits(digits)
    ensures AllDigits(TrimRight(digits)) && |TrimRight(digits)| <= |digits|
    ensures (DigitsValue(digits) as real) * Pow10(power)
         == (DigitsValue(TrimRight(digits)) as real) * Pow10(power + (|digits| - |TrimRight(digits)|))
  {
    hide Pow10, DigitsValue, Ten, TrimRight;
    TrimRightKeeps(digits);
    var n := |digits| - |TrimRight(digits)|;
    PowAdds(power, n);
    ProductAsReal(DigitsValue(TrimRight(digits)), Ten(n));
    Regroup(DigitsValue(TrimRight(digits)) as real, Ten(n) as real, Pow10(power));
  }

  lemma NormalizeKeeps(negative: bool, mantissa: string, exponent: int, fractionLength: nat)
    requires AllDigits(mantissa)
    ensures var d := Normalize(negative, mantissa, exponent, fractionLength);
            Normal(d) &&
            DecimalValue(d) == Signed(negative, (DigitsValue(mantissa) as real) * Pow10(exponent - fractionLength))
  {
    hide Pow10, Ten, TrimLeft, TrimRight, DigitsValue, AllDigits;
    TrimLeftKeeps(mantissa);
    var digits := TrimLeft(mantissa);
    if digits == "" {
      NoDigits();
      ZeroTimes(Pow10(exponent - fractionLength));
      ZeroTimes(Pow10(0));
    } else {
      TrimRightKeeps(digits);
      TrimmedMagnitude(digits, exponent - fractionLength);
    }
  }

  lemma NoDigits()
    ensures AllDigits("") && DigitsValue("") == 0
  {}

  lemma ZeroTimes(p: real)
    ensures 0.0 * p == 0.0
  {}

  lemma FirstAfterDigits(s: string, rest: string, chars: string)
    requires AllDigits(s) && forall c | c in chars :: !IsDigit(c)
    requires rest != "" ==> rest[0] in chars
    ensures FirstOf(s + rest, chars) == if rest == "" then -1 else |s|
  {
    var all := s + rest;
    forall k | 0 <= k < |s| ensures all[k] !in chars { assert all[k] == s[k]; }
    if rest != "" { assert all[|s|] == rest[0]; } else { assert all == s; }
  }

  lemma ParsesSigned(digits: string)
    requires digits != "" && AllDigits(digits)
    ensures ParseInt(digits) == Some(DigitsValue(digits))
    ensures ParseInt("-" + digits) == Some(Opposite(true, DigitsValue(digits)))
  {
    assert ("-" + digits)[1..] == digits;
  }

  lemma ParsesExponent(sign: Sign, digits: string)
    requires digits != "" && AllDigits(digits)
    ensures ParseExponent(SignText(sign) + digits) == Some(Opposite(sign.Minus?, DigitsValue(digits)))
  {
    ParsesSigned(digits);
    match sign {
      case NoSign => assert SignText(sign) + digits == digits;
      case Plus => assert (SignText(sign) + digits)[1..] == digits;
      case Minus =>
    }
  }

  lemma ParsesMantissa(n: Number, exponent: int)
    requires IsNumber(n)
    ensures ParseMantissa(n.negative, n.whole + FractionText(n), exponent)
         == Normalize(n.negative, n.whole + FractionDigits(n), exponent, |FractionDigits(n)|)
  {
    FirstAfterDigits(n.whole, FractionText(n), ".");
    var mantissa := n.whole + FractionText(n);
    if n.fraction.None? {
      assert mantissa == n.whole + FractionDigits(n);
    } else {
      assert mantissa[|n.whole| + 1..] == n.fraction.value && mantissa[..|n.whole|] == n.whole;
    }
  }

  lemma MantissaHasNoExponent(n: Number)
    requires IsNumber(n)
    ensures var m := n.whole + FractionText(n);
            FirstOf(m + ExponentText(n.exponent), "eE") == if n.exponent.NoExponent? then -1 else |m|
  {
    var m, rest := n.whole + FractionText(n), ExponentText(n.exponent);
    forall k | 0 <= k < |m| ensures (m + rest)[k] !in "eE" {
      if k > |n.whole| { assert m[k] == n.fraction.value[k - |n.whole| - 1]; }
    }
    if rest != "" { assert (m + rest)[|m|] == rest[0]; }
  }

  lemma SplitsAt(m: string, e: Exponent)
    ensures e.NoExponent? ==> m + ExponentText(e) == m
    ensures e.Exponent? ==> |m| < |m + ExponentText(e)| && (m + ExponentText(e))[..|m|] == m &&
                            (m + ExponentText(e))[|m| + 1..] == SignText(e.sign) + e.digits
  {}

  lemma ParsesUnsigned(n: Number)
    requires IsNumber(n)
    ensures ParseUnsigned(n.negative, n.whole + FractionText(n) + ExponentText(n.exponent))
         == Some(ParseMantissa(n.negative, n.whole + FractionText(n), ExponentValue(n)))
  {
    hide ParseMantissa, ParseExponent, FractionText, FirstOf, DigitsValue, AllDigits, SignText, ExponentText;
    var m := n.whole + FractionText(n);
    MantissaHasNoExponent(n);
    if n.exponent.Exponent? { ParsesExponent(n.exponent.sign, n.exponent.digits); }
    SplitsAt(m, n.exponent);
  }

  lemma ParsesSign(n: Number)
    requires IsNumber(n)
    ensures Parse(Print(n)) == ParseUnsigned(n.negative, n.whole + FractionText(n) + ExponentText(n.exponent))
  {
    hide ParseUnsigned, FractionText, ExponentText;
    var raw := n.whole + FractionText(n) + ExponentText(n.exponent);
    if n.negative {
      assert Print(n) == "-" + raw && Print(n)[1..] == raw;
    } else {
      assert Print(n) == raw && raw[0] == n.whole[0] && IsDigit(n.whole[0]);
    }
  }

  /** Reading a printed number gives its value exactly. */
  lemma ParsePrinted(n: Number)
    requires IsNumber(n)
    ensures Parse(Print(n)).Some? && Normal(Parse(Print(n)).value) && DecimalValue(Parse(Print(n)).value) == Value(n)
  {
    hide Parse, Print, ParseUnsigned, ParseMantissa, Normalize, DigitsValue, Pow10, ExponentText, ExponentValue,
         DecimalValue, Normal, FractionText;
    ParsesSign(n);
    ParsesUnsigned(n);
    ParsesMantissa(n, ExponentValue(n));
    NormalizeKeeps(n.negative, n.whole + FractionDigits(n), ExponentValue(n), |FractionDigits(n)|);
  }

  // ---- Comparing digits compares values ------------------------------------------------------------

  function Magnitude(d: Decimal): real
    requires AllDigits(d.digits)
  { (DigitsValue(d.digits) as real) * Pow10(d.power) }

  lemma MagnitudeBounds(d: Decimal)
    requires Normal(d) && d.digits != ""
    ensures Pow10(Order(d) - 1) <= Magnitude(d) < Pow10(Order(d))
    ensures Magnitude(d) > 0.0
  {
    hide Pow10, DigitsValue, Ten;
    DigitsBounds(d.digits);
    var n, p := |d.digits|, Pow10(d.power);
    var low, v, high := Ten(n - 1) as real, DigitsValue(d.digits) as real, Ten(n) as real;
    PowAdds(d.power, n);
    PowAdds(d.power, n - 1);
    assert Order(d) == d.power + n && Order(d) - 1 == d.power + (n - 1);
    ScaleBetween(low, v, high, p, Pow10(Order(d) - 1), Magnitude(d), Pow10(Order(d)));
  }

  lemma PaddedMagnitude(d: Decimal, n: nat)
    requires AllDigits(d.digits) && n >= |d.digits|
    ensures var padded := d.digits + Zeros(n - |d.digits|);
            AllDigits(padded) && Magnitude(d) == (DigitsValue(padded) as real) * Pow10(Order(d) - n)
  {
    hide Pow10, DigitsValue, Ten, Zeros;
    var k := n - |d.digits|;
    ShiftedValue(d.digits, k);
    PowAdds(Order(d) - n, k);
    ProductAsReal(DigitsValue(d.digits), Ten(k));
    Regroup(DigitsValue(d.digits) as real, Ten(k) as real, Pow10(Order(d) - n));
  }

  /** For nonzero decimals of equal order, equal padded digits are equal magnitudes. */
  lemma SameDigitsSameMagnitude(a: Decimal, b: Decimal)
    requires AllDigits(a.digits) && AllDigits(b.digits) && Order(a) == Order(b)
    ensures (forall i | 0 <= i < Longest(a.digits, b.digits) :: DigitAt(a.digits, i) == DigitAt(b.digits, i))
            <==> Magnitude(a) == Magnitude(b)
  {
    hide Pow10, DigitsValue, Ten, Zeros, Magnitude;
    var n := Longest(a.digits, b.digits);
    var x, y := a.digits + Zeros(n - |a.digits|), b.digits + Zeros(n - |b.digits|);
    PaddedMagnitude(a, n);
    PaddedMagnitude(b, n);
    assert forall i | 0 <= i < n :: x[i] == DigitAt(a.digits, i) && y[i] == DigitAt(b.digits, i);
    if Magnitude(a) == Magnitude(b) {
      Cancel(DigitsValue(x), DigitsValue(y), Pow10(Order(a) - n));
      DigitsInjective(x, y);
    }
    if forall i | 0 <= i < Longest(a.digits, b.digits) :: DigitAt(a.digits, i) == DigitAt(b.digits, i) {
      assert x == y;
    }
  }

  lemma SameOrder(a: Decimal, b: Decimal)
    requires Normal(a) && Normal(b) && a.digits != "" && b.digits != "" && Magnitude(a) == Magnitude(b)
    ensures Order(a) == Order(b)
  {
    MagnitudeBounds(a);
    MagnitudeBounds(b);
    if Order(a) < Order(b) { PowGrows(Order(a) - 1, Order(b) - 1); }
    if Order(b) < Order(a) { PowGrows(Order(b) - 1, Order(a) - 1); }
  }

  lemma SameDecimalExact(a: Decimal, b: Decimal)
    requires Normal(a) && Normal(b)
    ensures SameDecimal(a, b) <==> DecimalValue(a) == DecimalValue(b)
  {
    if a.digits == "" || b.digits == "" {
      if a.digits != "" { MagnitudeBounds(a); }
      if b.digits != "" { MagnitudeBounds(b); }
    } else {
      MagnitudeBounds(a);
      MagnitudeBounds(b);
      if Order(a) == Order(b) { SameDigitsSameMagnitude(a, b); }
      if Magnitude(a) == Magnitude(b) { SameOrder(a, b); }
    }
  }

  /** jsonNumbersEqual holds exactly when the two texts denote the same rational. */
  lemma NumbersEqualExact(a: Number, b: Number)
    requires IsNumber(a) && IsNumber(b)
    ensures SameNumber(Print(a), Print(b)) <==> Value(a) == Value(b)
  {
    ParsePrinted(a);
    ParsePrinted(b);
    SameDecimalExact(Parse(Print(a)).value, Parse(Print(b)).value);
  }
}
