/**
 * Python's numbers as this system meets them: sample values that Prometheus sends as decimal text,
 * and thresholds written in the configuration. A float is modelled exactly, as the decimal
 * `units / 10^scale` its text denotes.
 */
module Numbers {
  import opened Common
  import Text

  /** The decimal `units / 10^scale`. */
  datatype Decimal = Decimal(units: int, scale: nat)

  /** A Python number: an `int`, or a `float` written in decimal. */
  datatype Number = IntNum(i: int) | FloatNum(f: Decimal)

  function Pow10(n: nat): (p: nat)
    ensures p >= 1
  {
    if n == 0 then 1 else 10 * Pow10(n - 1)
  }

  /** The number a decimal denotes. */
  function Real(d: Decimal): real
  {
    d.units as real / Pow10(d.scale) as real
  }

  function NumberReal(n: Number): real
  {
    match n
    case IntNum(i) => i as real
    case FloatNum(f) => Real(f)
  }

  // ---------------------------------------------------------------------------------------------
  // Reading: `float(text)`

  /** The position of the first `c` in `s`, or `|s|` when there is none. */
  function IndexOf(s: string, c: char): (i: nat)
    ensures i <= |s|
    ensures i < |s| ==> s[i] == c
    ensures forall j :: 0 <= j < i ==> s[j] != c
  {
    if s == [] then 0 else if s[0] == c then 0 else 1 + IndexOf(s[1..], c)
  }

  predicate IsExponentMark(c: char)
  {
    c == 'e' || c == 'E'
  }

  /** The position of the first exponent mark in `s`, or `|s|` when there is none. */
  function ExponentAt(s: string): (i: nat)
    ensures i <= |s|
    ensures i < |s| ==> IsExponentMark(s[i])
    ensures forall j :: 0 <= j < i ==> !IsExponentMark(s[j])
  {
    if s == [] then 0 else if IsExponentMark(s[0]) then 0 else 1 + ExponentAt(s[1..])
  }

  /** An unsigned mantissa `digits`, `digits.`, `.digits` or `digits.digits`, with at least one digit. */
  function ParseMantissa(m: string): Option<Decimal>
  {
    var dot := IndexOf(m, '.');
    var whole := m[..dot];
    var frac := if dot < |m| then m[dot + 1..] else [];
    if Text.AllDigits(whole) && Text.AllDigits(frac) && |whole| + |frac| > 0 then
      Some(Decimal(Text.ParseDigits(whole + frac), |frac|))
    else None
  }

  /** An exponent: optionally signed, at least one digit. */
  function ParseExponent(s: string): Option<int>
  {
    if s != [] && (s[0] == '+' || s[0] == '-') then
      if |s| >= 2 && Text.AllDigits(s[1..]) then
        Some(if s[0] == '-' then -Text.ParseDigits(s[1..]) else Text.ParseDigits(s[1..]))
      else None
    else if s != [] && Text.AllDigits(s) then Some(Text.ParseDigits(s))
    else None
  }

  /** The decimal multiplied by `10^e`. */
  function Shift(d: Decimal, e: int): Decimal
  {
    if e < 0 then Decimal(d.units, d.scale - e)
    else if e <= d.scale then Decimal(d.units, d.scale - e)
    else Decimal(d.units * Pow10(e - d.scale), 0)
  }

  function ParseUnsigned(s: string): Option<Decimal>
  {
    var e := ExponentAt(s);
    match ParseMantissa(s[..e])
    case None => None
    case Some(m) =>
      if e == |s| then Some(m)
      else match ParseExponent(s[e + 1..])
        case None => None
        case Some(x) => Some(Shift(m, x))
  }

  /** `float(s)` for a decimal literal: an optional sign, the mantissa and an optional exponent. */
  function Parse(s: string): Option<Decimal>
  {
    if s != [] && (s[0] == '+' || s[0] == '-') then
      match ParseUnsigned(s[1..])
      case None => None
      case Some(d) => Some(if s[0] == '-' then Decimal(-d.units, d.scale) else d)
    else ParseUnsigned(s)
  }

  // ---------------------------------------------------------------------------------------------
  // Writing

  function Zeros(n: nat): (z: string)
    ensures |z| == n && forall i :: 0 <= i < n ==> z[i] == '0'
  {
    seq(n, i => '0')
  }

  function Magnitude(i: int): nat
  {
    if i < 0 then -i else i
  }

  /** The digits of the decimal's magnitude, with leading zeros so that more than `scale` of them are written. */
  function PaddedDigits(d: Decimal): (r: string)
    ensures |r| > d.scale && Text.AllDigits(r)
  {
    var ds := Text.Digits(Magnitude(d.units));
    if |ds| > d.scale then ds else Zeros(d.scale + 1 - |ds|) + ds
  }

  /** The decimal's magnitude written out: the integer digits and, after a point, exactly `scale` fractional digits. */
  function Unsigned(d: Decimal): string
  {
    var ds := PaddedDigits(d);
    if d.scale == 0 then ds else ds[..|ds| - d.scale] + "." + ds[|ds| - d.scale..]
  }

  /** The decimal written out, with a minus sign when it is negative. */
  function Literal(d: Decimal): string
  {
    if d.units < 0 then "-" + Unsigned(d) else Unsigned(d)
  }

  /** The same decimal without trailing zero fractional digits. */
  function Normal(d: Decimal): (r: Decimal)
    ensures r.scale <= d.scale
    ensures r.scale > 0 ==> r.units % 10 != 0
    decreases d.scale
  {
    if d.scale > 0 && d.units % 10 == 0 then Normal(Decimal(d.units / 10, d.scale - 1)) else d
  }

  /** The digits `str(x)` shows for a float: the shortest ones, but at least one after the point. */
  function Shortest(d: Decimal): (r: Decimal)
    ensures r.scale >= 1
  {
    var n := Normal(d);
    if n.scale == 0 then Decimal(n.units * 10, 1) else n
  }

  /** Python's `str(x)` of a float, in fixed-point notation. */
  function FloatText(d: Decimal): string
  {
    Literal(Shortest(d))
  }

  /** Python's `str(n)`. */
  function NumberText(n: Number): string
  {
    match n
    case IntNum(i) => Text.IntToString(i)
    case FloatNum(f) => FloatText(f)
  }

  // ---------------------------------------------------------------------------------------------
  // Reading back what was written

  lemma {:induction false} ParseDigitsZeros(n: nat)
    ensures Text.ParseDigits(Zeros(n)) == 0
  {
    if n > 0 {
      assert Zeros(n)[..n - 1] == Zeros(n - 1);
      ParseDigitsZeros(n - 1);
    }
  }

  /** Leading zeros do not change the value of a digit string. */
  lemma {:induction false} ParseDigitsLeadingZeros(n: nat, t: string)
    ensures Text.ParseDigits(Zeros(n) + t) == Text.ParseDigits(t)
    decreases |t|
  {
    if t == [] {
      assert Zeros(n) + t == Zeros(n);
      ParseDigitsZeros(n);
    } else {
      var s := Zeros(n) + t;
      assert s[..|s| - 1] == Zeros(n) + t[..|t| - 1];
      ParseDigitsLeadingZeros(n, t[..|t| - 1]);
    }
  }

  lemma PaddedDigitsValue(d: Decimal)
    ensures Text.ParseDigits(PaddedDigits(d)) == Magnitude(d.units)
  {
    var n := Magnitude(d.units);
    var ds := Text.Digits(n);
    Text.DigitsRoundTrip(n);
    if |ds| <= d.scale {
      var k: nat := d.scale + 1 - |ds|;
      assert PaddedDigits(d) == Zeros(k) + ds;
      ParseDigitsLeadingZeros(k, ds);
    } else {
      assert PaddedDigits(d) == ds;
    }
  }

  /** The first `c` after a run without it. */
  lemma {:induction false} IndexOfAfter(a: string, c: char, rest: string)
    requires rest != [] && rest[0] == c
    requires forall j :: 0 <= j < |a| ==> a[j] != c
    ensures IndexOf(a + rest, c) == |a|
  {
    if a != [] {
      assert (a + rest)[1..] == a[1..] + rest;
      IndexOfAfter(a[1..], c, rest);
    } else {
      assert a + rest == rest;
    }
  }

  /** Digits alone read back as their value, with scale 0. */
  lemma PlainMantissa(ds: string)
    requires ds != [] && Text.AllDigits(ds)
    ensures ExponentAt(ds) == |ds|
    ensures ParseMantissa(ds) == Some(Decimal(Text.ParseDigits(ds), 0))
  {
    assert ds[..|ds|] == ds && ds + [] == ds;
  }

  /** Digits, a point and more digits read back as the value of all the digits, scaled by the digits after the point. */
  lemma PointMantissa(a: string, b: string)
    requires a != [] && Text.AllDigits(a) && Text.AllDigits(b)
    ensures ExponentAt(a + "." + b) == |a + "." + b|
    ensures ParseMantissa(a + "." + b) == Some(Decimal(Text.ParseDigits(a + b), |b|))
  {
    var body := a + "." + b;
    assert body == a + ("." + b);
    IndexOfAfter(a, '.', "." + b);
    assert body[..|a|] == a && body[|a| + 1..] == b;
    assert forall j :: 0 <= j < |body| ==> body[j] == '.' || '0' <= body[j] <= '9';
  }

  /** The magnitude written out reads back as the magnitude, and starts with a digit. */
  lemma UnsignedRoundTrip(d: Decimal)
    ensures ParseUnsigned(Unsigned(d)) == Some(Decimal(Magnitude(d.units), d.scale))
    ensures '0' <= Unsigned(d)[0] <= '9'
  {
    PaddedDigitsValue(d);
    var body := Unsigned(d);
    if d.scale == 0 {
      PlainMantissa(PaddedDigits(d));
    } else {
      PointUnsigned(d);
    }
    assert body[..|body|] == body;
  }

  /** With fractional digits, the written magnitude is digits, a point and digits. */
  lemma PointUnsigned(d: Decimal)
    requires d.scale > 0
    ensures ExponentAt(Unsigned(d)) == |Unsigned(d)|
    ensures ParseMantissa(Unsigned(d)) == Some(Decimal(Text.ParseDigits(PaddedDigits(d)), d.scale))
    ensures '0' <= Unsigned(d)[0] <= '9'
  {
    var ds := PaddedDigits(d);
    var a, b := ds[..|ds| - d.scale], ds[|ds| - d.scale..];
    assert Unsigned(d) == a + "." + b;
    assert a + b == ds;
    PointMantissa(a, b);
    assert Unsigned(d)[0] == a[0];
  }

  /** Reading a written decimal gives back exactly that decimal. */
  lemma LiteralRoundTrip(d: Decimal)
    ensures Parse(Literal(d)) == Some(d)
  {
    UnsignedRoundTrip(d);
    if d.units < 0 {
      assert ("-" + Unsigned(d))[1..] == Unsigned(d);
    }
  }

  /** Dropping a trailing zero digit keeps the value. */
  lemma DropZero(q: int, s: nat)
    ensures Real(Decimal(q * 10, s + 1)) == Real(Decimal(q, s))
  {
    var p := Pow10(s) as real;
    assert Pow10(s + 1) as real == 10.0 * p;
    assert (q * 10) as real == 10.0 * q as real;
    assert (10.0 * q as real) / (10.0 * p) == q as real / p;
  }

  lemma {:induction false} NormalValue(d: Decimal)
    ensures Real(Normal(d)) == Real(d)
    decreases d.scale
  {
    if d.scale > 0 && d.units % 10 == 0 {
      var q := d.units / 10;
      assert d.units == q * 10;
      DropZero(q, d.scale - 1);
      NormalValue(Decimal(q, d.scale - 1));
    }
  }

  /** `str(x)` of a float reads back as the same number. */
  lemma FloatTextRoundTrip(d: Decimal)
    ensures Parse(FloatText(d)) == Some(Shortest(d))
    ensures Real(Shortest(d)) == Real(d)
  {
    LiteralRoundTrip(Shortest(d));
    NormalValue(d);
    if Normal(d).scale == 0 {
      DropZero(Normal(d).units, 0);
    }
  }
}
