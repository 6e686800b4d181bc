/**
 * Floating-point numbers in ECMAScript form (RFC 8785, section 3.2.2.3): the layout of a sign, the
 * shortest digits and a decimal exponent, and the number that a text denotes.
 */
module Numbers {
  import opened Contracts
  import opened Cursors

  /**
   * A float by its shortest decimal digits.  A finite non-zero value is `digits` times ten to the
   * `exp`, with neither a leading nor a trailing zero digit.
   */
  datatype Float = NotFinite | Zero | Finite(neg: bool, digits: string, exp: int) {
    predicate Normal() {
      Finite? ==> digits != "" && AllDigits(digits) && digits[0] != '0' && digits[|digits| - 1] != '0'
    }
  }

  function ExponentTail(e: int): string {
    "e" + (if e >= 0 then "+" else "-") + Digits(if e >= 0 then e else -e)
  }

  function Mantissa(digits: string): string
    requires digits != ""
  {
    if |digits| == 1 then digits else digits[..1] + "." + digits[1..]
  }

  function Body(digits: string, exp: int): string
    requires digits != ""
  {
    var k := |digits|;
    var n := exp + k;
    if k <= n <= 21 then digits + Zeros(n - k)
    else if 0 < n <= 21 then digits[..n] + "." + digits[n..]
    else if -6 < n <= 0 then "0." + Zeros(-n) + digits
    else
      Mantissa(digits) + ExponentTail(n - 1)
  }

  /** The text of a float, `None` for NaN and the infinities. */
  function EsNumber(f: Float): Option<string>
    requires f.Normal()
  {
    match f
    case NotFinite => None
    case Zero => Some("0")
    case Finite(neg, digits, exp) => Some((if neg then "-" else "") + Body(digits, exp))
  }

  /** The text of an integer. */
  function IntText(n: int): string {
    if n < 0 then "-" + Digits(-n) else Digits(n)
  }

  // --- What a number text denotes --------------------------------------------------------------

  function Ten(e: int): (r: real)
    ensures r > 0.0
    decreases if e >= 0 then e else -e
  {
    if e == 0 then 1.0 else if e > 0 then 10.0 * Ten(e - 1) else Ten(e + 1) / 10.0
  }

  /** `m` times ten to the `e`. */
  function Sci(m: int, e: int): real { m as real * Ten(e) }

  /** The length of the digits at the start of `s`. */
  function Span(s: string): (n: nat)
    ensures n <= |s| && AllDigits(s[..n])
    ensures n < |s| ==> !IsDigit(s[n])
  {
    if s == "" || !IsDigit(s[0]) then 0
    else
      var n := Span(s[1..]);
      assert s[..n + 1] == [s[0]] + s[1..][..n];
      n + 1
  }

  /** Digits, an optional fraction and an optional exponent. */
  function Unsigned(s: string): Option<real> {
    var i := Span(s);
    var whole, rest := s[..i], s[i..];
    if rest != "" && rest[0] == '.' then
      var j := Span(rest[1..]);
      WithExponent(whole + rest[1..][..j], j, rest[1..][j..])
    else WithExponent(whole, 0, rest)
  }

  function WithExponent(digits: string, fraction: int, rest: string): Option<real>
    requires AllDigits(digits)
  {
    if rest == "" then Some(Sci(Number(digits), -fraction))
    else if |rest| >= 2 && (rest[0] == 'e' || rest[0] == 'E') then
      var signed := rest[1] == '+' || rest[1] == '-';
      var raw := if signed then rest[2..] else rest[1..];
      if raw == "" || !AllDigits(raw) then None
      else
        var e: int := Number(raw);
        Some(Sci(Number(digits), (if rest[1] == '-' then -e else e) - fraction))
    else None
  }

  /** The number a JSON number text denotes. */
  function Denotes(s: string): Option<real> {
    if s != "" && s[0] == '-' then
      match Unsigned(s[1..])
      case Some(r) => Some(-r)
      case None => None
    else Unsigned(s)
  }

  /** The number a float stands for. */
  function Value(f: Float): real
    requires !f.NotFinite? && f.Normal()
  {
    match f
    case Zero => 0.0
    case Finite(neg, digits, exp) => if neg then -Sci(Number(digits), exp) else Sci(Number(digits), exp)
  }

  // --- The layout keeps the value ---------------------------------------------------------------

  lemma {:induction false} SpanIs(d: string, rest: string)
    requires AllDigits(d) && (rest == "" || !IsDigit(rest[0]))
    ensures Span(d + rest) == |d|
  {
    if d == "" {
      assert d + rest == rest;
    } else {
      assert (d + rest)[1..] == d[1..] + rest;
      SpanIs(d[1..], rest);
    }
  }

  lemma UnsignedPlain(d: string, tail: string)
    requires AllDigits(d) && (tail == "" || (tail[0] != '.' && !IsDigit(tail[0])))
    ensures Unsigned(d + tail) == WithExponent(d, 0, tail)
  {
    SpanIs(d, tail);
    assert (d + tail)[..|d|] == d && (d + tail)[|d|..] == tail;
  }

  lemma UnsignedPoint(d: string, f: string, tail: string)
    requires AllDigits(d) && AllDigits(f) && (tail == "" || !IsDigit(tail[0]))
    ensures AllDigits(d + f)
    ensures Unsigned(d + "." + f + tail) == WithExponent(d + f, |f|, tail)
  {
    hide Span;
    var rest := "." + f + tail;
    assert d + "." + f + tail == d + rest;
    SpanIs(d, rest);
    assert (d + rest)[..|d|] == d && (d + rest)[|d|..] == rest;
    assert rest[1..] == f + tail;
    SpanIs(f, tail);
    assert (f + tail)[..|f|] == f && (f + tail)[|f|..] == tail;
  }

  lemma ShiftDigit(m: int, e: int)
    ensures Sci(10 * m, e) == Sci(m, e + 1)
  {
    assert Ten(e + 1) == 10.0 * Ten(e) by { TenStep(e); }
    var x, t := m as real, Ten(e);
    assert (10 * m) as real == 10.0 * x;
    assert 10.0 * x * t == x * (10.0 * t);
  }

  lemma TenStep(e: int)
    ensures Ten(e + 1) == 10.0 * Ten(e)
  {
  }

  lemma {:induction false} ZerosScale(d: string, k: nat, e: int)
    requires AllDigits(d)
    ensures AllDigits(d + Zeros(k))
    ensures Sci(Number(d + Zeros(k)), e) == Sci(Number(d), e + k)
  {
    if k == 0 {
      assert d + Zeros(0) == d;
    } else {
      ZerosScale(d, k - 1, e + 1);
      var s := d + Zeros(k);
      assert s[..|s| - 1] == d + Zeros(k - 1) && s[|s| - 1] == '0';
      ShiftDigit(Number(d + Zeros(k - 1)), e);
      hide Sci;
    }
  }

  lemma ExponentPart(digits: string, fraction: int, e: int)
    requires AllDigits(digits)
    ensures WithExponent(digits, fraction, ExponentTail(e)) == Some(Sci(Number(digits), e - fraction))
  {
    hide Sci;
    var a := if e >= 0 then e else -e;
    var tail := "e" + (if e >= 0 then "+" else "-") + Digits(a);
    DigitsDenote(a);
    assert tail[2..] == Digits(a);
  }

  lemma WholeDenotes(digits: string, zeros: nat)
    requires AllDigits(digits)
    ensures Unsigned(digits + Zeros(zeros)) == Some(Sci(Number(digits), zeros))
  {
    hide Sci;
    ZerosScale(digits, zeros, 0);
    UnsignedPlain(digits + Zeros(zeros), "");
    assert digits + Zeros(zeros) + "" == digits + Zeros(zeros);
  }

  lemma NoTail(digits: string, fraction: int)
    requires AllDigits(digits)
    ensures WithExponent(digits, fraction, "") == Some(Sci(Number(digits), -fraction))
  {
    hide Sci, Number;
  }

  lemma PointDenotes(digits: string, n: nat)
    requires AllDigits(digits) && n <= |digits|
    ensures Unsigned(digits[..n] + "." + digits[n..]) == Some(Sci(Number(digits), n - |digits|))
  {
    hide Sci, Unsigned, WithExponent, Number;
    var d, f := digits[..n], digits[n..];
    UnsignedPoint(d, f, "");
    NoTail(d + f, |f|);
    assert d + f == digits;
    assert d + "." + f + "" == d + "." + f;
  }

  lemma ZerosHead(k: nat)
    ensures Zeros(k + 1) == "0" + Zeros(k)
  {
  }

  lemma SmallDenotes(digits: string, zeros: nat, e: int)
    requires AllDigits(digits) && e == 0 - zeros - |digits|
    ensures Unsigned("0." + Zeros(zeros) + digits) == Some(Sci(Number(digits), e))
  {
    hide Sci, Number, Unsigned, Zeros;
    var all := Zeros(zeros + 1) + digits;
    PaddingDenotes(zeros + 1, digits);
    ZerosHead(zeros);
    assert all == "0" + (Zeros(zeros) + digits);
    assert all[..1] == "0" && all[1..] == Zeros(zeros) + digits;
    PointDenotes(all, 1);
    assert 1 - |all| == e;
    Regroup("0.", Zeros(zeros), digits);
    assert "0" + "." == "0.";
  }

  lemma Regroup(a: string, b: string, c: string)
    ensures a + (b + c) == a + b + c
  {
  }

  lemma PlainScientific(d: string, e: int)
    requires AllDigits(d)
    ensures Unsigned(d + ExponentTail(e)) == Some(Sci(Number(d), e))
  {
    ExponentPart(d, 0, e);
    TailStarts(e);
    hide Sci, Number, ExponentTail, WithExponent, Unsigned;
    UnsignedPlain(d, ExponentTail(e));
  }

  lemma PointScientific(d: string, f: string, e: int)
    requires AllDigits(d) && AllDigits(f)
    ensures Unsigned(d + "." + f + ExponentTail(e)) == Some(Sci(Number(d + f), e - |f|))
  {
    ExponentPart(d + f, |f|, e);
    TailStarts(e);
    hide Sci, Number, ExponentTail, WithExponent, Unsigned;
    UnsignedPoint(d, f, ExponentTail(e));
  }

  lemma ScientificDenotes(digits: string, e: int)
    requires digits != "" && AllDigits(digits)
    ensures Unsigned(Mantissa(digits) + ExponentTail(e)) == Some(Sci(Number(digits), e + 1 - |digits|))
  {
    hide Sci, Number, ExponentTail, Unsigned, IsDigit;
    if |digits| == 1 {
      PlainScientific(digits, e);
    } else {
      assert digits[..1] + digits[1..] == digits;
      PointScientific(digits[..1], digits[1..], e);
    }
  }

  lemma TailStarts(e: int)
    ensures ExponentTail(e) != "" && ExponentTail(e)[0] == 'e'
  {
  }

  /** Each of the four layouts denotes exactly the digits times the power of ten. */
  lemma BodyDenotes(digits: string, exp: int)
    requires digits != "" && AllDigits(digits)
    ensures Unsigned(Body(digits, exp)) == Some(Sci(Number(digits), exp))
  {
    hide Unsigned, Sci, Number, ExponentTail, Zeros;
    var k := |digits|;
    var n := exp + k;
    if k <= n <= 21 {
      WholeDenotes(digits, n - k);
    } else if 0 < n <= 21 {
      PointDenotes(digits, n);
    } else if -6 < n <= 0 {
      SmallDenotes(digits, -n, exp);
    } else {
      ScientificDenotes(digits, n - 1);
    }
  }

  lemma {:induction false} BodyStarts(digits: string, exp: int)
    requires digits != "" && AllDigits(digits)
    ensures Body(digits, exp) != "" && IsDigit(Body(digits, exp)[0])
  {
  }

  /** The layout keeps the value, whatever the sign, the digits and the exponent. */
  lemma EsNumberDenotes(f: Float)
    requires f.Normal() && !f.NotFinite?
    ensures EsNumber(f).Some? && Denotes(EsNumber(f).value) == Some(Value(f))
  {
    match f
    case Zero =>
      WholeDenotes("0", 0);
      assert "0" + Zeros(0) == "0";
      assert Number("0") == 0 by { assert "0"[..0] == ""; }
      assert Sci(0, 0) == 0.0;
    case Finite(neg, digits, exp) => FiniteDenotes(neg, digits, exp);
  }

  lemma FiniteDenotes(neg: bool, digits: string, exp: int)
    requires Finite(neg, digits, exp).Normal()
    ensures Denotes((if neg then "-" else "") + Body(digits, exp)) == Some(Value(Finite(neg, digits, exp)))
  {
    BodyDenotes(digits, exp);
    BodyStarts(digits, exp);
    hide Unsigned, Body, Sci, Number;
    Signed(Body(digits, exp), neg);
  }

  lemma Signed(body: string, neg: bool)
    requires body != "" && body[0] != '-' && Unsigned(body).Some?
    ensures Denotes((if neg then "-" else "") + body)
        == Some(if neg then -Unsigned(body).value else Unsigned(body).value)
  {
    hide Unsigned;
    if neg {
      assert ("-" + body)[1..] == body;
    } else {
      assert "" + body == body;
    }
  }

  // --- Which numbers print alike ------------------------------------------------------------------

  lemma OneDigit(c: char)
    requires IsDigit(c)
    ensures Digits(DigitValue(c)) == [c]
  {
  }

  lemma LastDigit(q: nat, v: nat)
    requires q > 0 && v < 10
    ensures Digits(10 * q + v) == Digits(q) + [DigitChar(v)]
  {
    assert (10 * q + v) / 10 == q && (10 * q + v) % 10 == v;
  }

  lemma {:induction false} DigitsOfNumber(d: string)
    requires d != "" && AllDigits(d) && (d[0] != '0' || |d| == 1)
    ensures Digits(Number(d)) == d
    ensures d[0] != '0' ==> Number(d) > 0
  {
    hide Digits;
    var n := |d| - 1;
    if n == 0 {
      OneDigit(d[0]);
      assert d == [d[0]] && d[..0] == "";
    } else {
      DigitsOfNumber(d[..n]);
      var q, v := Number(d[..n]), DigitValue(d[n]);
      assert Number(d) == 10 * q + v && q > 0;
      LastDigit(q, v);
      assert d == d[..n] + [DigitChar(v)];
    }
  }

  lemma {:induction false} Rescale(m: int, e: int, k: nat)
    ensures Sci(m * Power(k), e) == Sci(m, e + k)
    decreases k
  {
    if k > 0 {
      Rescale(m, e + 1, k - 1);
      ShiftDigit(m * Power(k - 1), e);
      assert m * Power(k) == 10 * (m * Power(k - 1));
    } else {
      assert Power(0) == 1;
    }
  }

  lemma SciCancels(m: int, n: int, e: int)
    requires Sci(m, e) == Sci(n, e)
    ensures m == n
  {
    var t := Ten(e);
    assert m as real == Sci(m, e) / t;
    assert n as real == Sci(n, e) / t;
  }

  lemma TimesTen(m: int, k: nat)
    requires k > 0
    ensures (m * Power(k)) % 10 == 0
  {
    assert m * Power(k) == 10 * (m * Power(k - 1));
  }

  /** A value has one normal form: no other digits and exponent stand for it. */
  lemma NormalUnique(m: nat, e: int, n: nat, f: int)
    requires m % 10 != 0 && n % 10 != 0 && Sci(m, e) == Sci(n, f)
    ensures m == n && e == f
  {
    if e < f {
      Rescale(n, e, f - e);
      SciCancels(m, n * Power(f - e), e);
      TimesTen(n, f - e);
    } else if f < e {
      Rescale(m, f, e - f);
      SciCancels(n, m * Power(e - f), f);
      TimesTen(m, e - f);
    } else {
      SciCancels(m, n, e);
    }
  }

  lemma NormalDigits(digits: string)
    requires digits != "" && AllDigits(digits) && digits[0] != '0' && digits[|digits| - 1] != '0'
    ensures Number(digits) > 0 && Number(digits) % 10 != 0 && Digits(Number(digits)) == digits
  {
    DigitsOfNumber(digits);
    assert Number(digits) == 10 * Number(digits[..|digits| - 1]) + DigitValue(digits[|digits| - 1]);
  }

  lemma SciPositive(m: nat, e: int)
    requires m > 0
    ensures Sci(m, e) > 0.0
  {
  }

  lemma ValueUnique(f: Float, g: Float)
    requires f.Normal() && g.Normal() && !f.NotFinite? && !g.NotFinite? && Value(f) == Value(g)
    ensures f == g
  {
    hide Sci;
    if f.Finite? { NormalDigits(f.digits); SciPositive(Number(f.digits), f.exp); }
    if g.Finite? { NormalDigits(g.digits); SciPositive(Number(g.digits), g.exp); }
    if f.Finite? && g.Finite? {
      assert f.neg == g.neg;
      NormalUnique(Number(f.digits), f.exp, Number(g.digits), g.exp);
    }
  }

  /** Distinct floats print differently. */
  lemma FloatsPrintApart(f: Float, g: Float)
    requires f.Normal() && g.Normal() && !f.NotFinite? && !g.NotFinite?
    ensures EsNumber(f) == EsNumber(g) <==> f == g
  {
    if EsNumber(f) == EsNumber(g) {
      EsNumberDenotes(f);
      EsNumberDenotes(g);
      ValueUnique(f, g);
    }
  }

  lemma IntDenotes(n: int)
    ensures Denotes(IntText(n)) == Some(n as real)
    ensures IntText(n) != "" && (n >= 0 ==> AllDigits(IntText(n))) && (n < 0 ==> AllDigits(IntText(n)[1..]))
  {
    hide Unsigned, Digits, Number;
    var d := Digits(if n < 0 then -n else n);
    DigitsDenote(if n < 0 then -n else n);
    WholeDenotes(d, 0);
    assert d + Zeros(0) == d;
    assert Sci(Number(d), 0) == Number(d) as real;
    hide Sci;
    Signed(d, n < 0);
    assert "" + d == d;
    if n < 0 { assert ("-" + d)[1..] == d; }
  }

  /** Distinct integers print differently. */
  lemma IntsPrintApart(m: int, n: int)
    ensures IntText(m) == IntText(n) <==> m == n
  {
    IntDenotes(m);
    IntDenotes(n);
  }

  lemma ZerosTimes(d: string, k: nat)
    requires AllDigits(d)
    ensures AllDigits(d + Zeros(k)) && Number(d + Zeros(k)) == Number(d) * Power(k)
  {
    hide Number, Power;
    NumberSplit(d, Zeros(k));
    PaddingDenotes(k, "");
    assert Zeros(k) + "" == Zeros(k);
    assert Number("") == 0 by { NoDigits(); }
  }

  lemma NoDigits()
    ensures Number("") == 0
  {
  }

  lemma ZerosLast(d: string, k: nat)
    requires d != "" && AllDigits(d) && d[0] != '0'
    ensures AllDigits(d + Zeros(k)) && Digits(Number(d) * Power(k)) == d + Zeros(k)
  {
    ZerosTimes(d, k);
    DigitsOfNumber(d + Zeros(k));
  }

  /** A whole number as a float: its digits, then zeros. */
  lemma WholeFloat(n: nat, digits: string, exp: int)
    requires digits != "" && AllDigits(digits) && digits[0] != '0' && digits[|digits| - 1] != '0'
    requires n as real == Sci(Number(digits), exp)
    ensures exp >= 0 && Digits(n) == digits + Zeros(exp)
  {
    NormalDigits(digits);
    var m := Number(digits);
    assert Sci(n, 0) == n as real;
    if exp < 0 {
      Rescale(n, exp, -exp);
      SciCancels(m, n * Power(-exp), exp);
      TimesTen(n, -exp);
    } else {
      Rescale(m, 0, exp);
      SciCancels(n, m * Power(exp), 0);
      ZerosLast(digits, exp);
    }
  }

  lemma PlainBody(digits: string, exp: int)
    requires digits != "" && AllDigits(digits)
    ensures AllDigits(Body(digits, exp)) <==> |digits| <= exp + |digits| <= 21
    ensures exp >= 0 && exp + |digits| <= 21 ==> Body(digits, exp) == digits + Zeros(exp)
  {
    var k := |digits|;
    var n := exp + k;
    var b := Body(digits, exp);
    if k <= n <= 21 {
    } else if 0 < n <= 21 {
      assert b[n] == '.';
    } else if -6 < n <= 0 {
      assert b[1] == '.';
    } else {
      TailStarts(n - 1);
      assert b[|Mantissa(digits)|] == 'e';
    }
  }

  lemma TextOfWhole(n: nat, digits: string, exp: int)
    requires digits != "" && AllDigits(digits) && digits[0] != '0' && digits[|digits| - 1] != '0'
    ensures Digits(n) == Body(digits, exp) <==> n as real == Sci(Number(digits), exp) && n < Power(21)
  {
    hide Power, ExponentTail;
    DigitsWidth(n, 21);
    PlainBody(digits, exp);
    if n as real == Sci(Number(digits), exp) {
      WholeFloat(n, digits, exp);
      DigitsDenote(n);
    }
    if Digits(n) == Body(digits, exp) {
      DigitsDenote(n);
      ZerosScale(digits, exp, 0);
      assert Sci(n, 0) == n as real;
    }
  }

  /** An integer and a float print alike exactly when they are equal and below ten to the 21st. */
  lemma IntsMeetFloats(n: int, f: Float)
    requires f.Normal() && !f.NotFinite?
    ensures EsNumber(f) == Some(IntText(n)) <==> Value(f) == n as real && 0 - Power(21) < n < Power(21)
  {
    hide Power;
    var a := if n < 0 then -n else n;
    match f
    case Zero =>
      DigitsDenote(a);
      assert Digits(0) == "0";
      PowerGrows(21);
      if n != 0 { IntDenotes(n); IntDenotes(0); }
    case Finite(neg, digits, exp) =>
      NormalDigits(digits);
      SciPositive(Number(digits), exp);
      TextOfWhole(a, digits, exp);
      SignsMeet(n, neg, Body(digits, exp));
      BodyStarts(digits, exp);
      hide Sci, Body, Number, Digits;
  }

  lemma TextOf21()
    ensures EsNumber(Finite(false, "1", 21)) == Some("1e+21")
  {
    assert Digits(21) == "21" by { assert Digits(2) == "2"; }
    assert ExponentTail(21) == "e+21";
    assert Body("1", 21) == "1" + "e+21";
    assert "" + ("1" + "e+21") == "1e+21";
  }

  /** Ten to the 21 is one number with two texts: its digits as an integer, and "1e+21" as a float. */
  lemma OneNumberTwoTexts()
    ensures Value(Finite(false, "1", 21)) == Power(21) as real
    ensures EsNumber(Finite(false, "1", 21)) == Some("1e+21") && IntText(Power(21)) != "1e+21"
  {
    hide Power;
    assert Number("1") == 1 by { assert "1"[..0] == ""; }
    Rescale(1, 0, 21);
    assert Sci(Power(21), 0) == Power(21) as real;
    TextOf21();
    IntsMeetFloats(Power(21), Finite(false, "1", 21));
  }

  lemma SignsMeet(n: int, neg: bool, body: string)
    requires body != "" && IsDigit(body[0])
    ensures (if neg then "-" else "") + body == IntText(n)
       <==> (neg <==> n < 0) && body == Digits(if n < 0 then -n else n)
  {
    var d := Digits(if n < 0 then -n else n);
    DigitsDenote(if n < 0 then -n else n);
    assert IsDigit(d[0]);
    assert "" + body == body;
    var minusBody, minusD := "-" + body, "-" + d;
    assert minusBody[0] == '-' && minusBody[1..] == body;
    assert minusD[0] == '-' && minusD[1..] == d;
  }
}
