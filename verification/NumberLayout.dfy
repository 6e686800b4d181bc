/** Which of its layouts a number is printed in (RFC 8785, section 3.2.2.3), told by the value alone. */
module NumberLayout {
  import opened Contracts
  import opened Cursors
  import opened Numbers

  function Abs(r: real): real { if r < 0.0 then -r else r }

  /** Digits without a superfluous zero in front; a fraction, if there is one, without a zero at its end. */
  predicate Positional(s: string) {
    var i := Span(s);
    && i > 0 && (s[0] != '0' || i == 1)
    && (i == |s| || (s[i] == '.' && i + 1 < |s| && AllDigits(s[i + 1..]) && s[|s| - 1] != '0'))
  }

  /** Where the exponent starts: after one digit, or after one digit, a point and a fraction. */
  function MantissaEnd(s: string): nat {
    if |s| > 1 && s[1] == '.' then 2 + Span(s[2..]) else 1
  }

  /** One digit, not zero; a fraction without a zero at its end; `e`, a sign and digits without a zero in front. */
  predicate Scientific(s: string) {
    var i := MantissaEnd(s);
    && s != "" && '1' <= s[0] <= '9'
    && (i > 1 ==> 2 < i <= |s| && s[i - 1] != '0')
    && i + 2 < |s| && s[i] == 'e' && (s[i + 1] == '+' || s[i + 1] == '-')
    && AllDigits(s[i + 2..]) && s[i + 2] != '0'
  }

  // --- The size of a value ---------------------------------------------------------------------

  lemma {:induction false} TenRises(a: int, b: int)
    requires a < b
    ensures Ten(a) < Ten(b)
    decreases b - a
  {
    TenStep(b - 1);
    if a < b - 1 { TenRises(a, b - 1); }
  }

  lemma PowerIsTen(k: nat, e: int)
    ensures Sci(Power(k), e) == Ten(e + k)
  {
    Rescale(1, e, k);
    assert Sci(1, e + k) == Ten(e + k);
  }

  lemma NumberBounds(digits: string)
    requires digits != "" && AllDigits(digits) && digits[0] != '0'
    ensures Power(|digits| - 1) <= Number(digits) < Power(|digits|)
  {
    hide Number, Power;
    var head, rest := digits[..1], digits[1..];
    NumberSplit("", digits);
    NumberSplit(head, rest);
    assert "" + digits == digits && head + rest == digits;
    FirstDigit(head);
    AtLeast(Number(head), Power(|rest|));
  }

  lemma AtLeast(a: nat, p: nat)
    ensures a >= 1 ==> a * p >= p
  {
    if a >= 1 { assert (a - 1) * p >= 0; }
  }

  lemma FirstDigit(d: string)
    requires |d| == 1 && AllDigits(d)
    ensures Number("") == 0 && (d[0] != '0' ==> Number(d) >= 1)
  {
    assert d[..0] == "";
  }

  /** A value with `k` digits and exponent `exp` lies between two neighbouring powers of ten. */
  lemma Magnitude(digits: string, exp: int)
    requires digits != "" && AllDigits(digits) && digits[0] != '0'
    ensures Ten(exp + |digits| - 1) <= Sci(Number(digits), exp) < Ten(exp + |digits|)
  {
    hide Number, Power, Ten, Sci;
    var k := |digits|;
    NumberBounds(digits);
    PowerIsTen(k - 1, exp);
    PowerIsTen(k, exp);
    SciOrder(Power(k - 1), Number(digits), exp);
    SciOrder(Power(k), Number(digits), exp);
  }

  lemma SciOrder(m: int, n: int, e: int)
    ensures Sci(m, e) <= Sci(n, e) <==> m <= n
  {
    var t := Ten(e);
    if m <= n { assert m as real * t <= n as real * t; } else { assert n as real * t < m as real * t; }
  }

  lemma TenOrder(a: int, b: int)
    ensures Ten(a) <= Ten(b) <==> a <= b
  {
    if a < b { TenRises(a, b); }
    if b < a { TenRises(b, a); }
  }

  // --- The shape of a text -----------------------------------------------------------------------

  lemma NoExponent(s: string)
    requires Positional(s)
    ensures 'e' !in s
  {
    var i := Span(s);
    forall j | 0 <= j < |s| ensures s[j] != 'e' {
      if j < i { assert s[..i][j] == s[j]; } else if j > i { assert s[i + 1..][j - i - 1] == s[j]; }
    }
  }

  lemma PlainPositional(d: string)
    requires d != "" && AllDigits(d) && (d[0] != '0' || |d| == 1)
    ensures Positional(d)
  {
    SpanIs(d, "");
    assert d + "" == d;
  }

  lemma PointPositional(d: string, f: string)
    requires d != "" && AllDigits(d) && (d[0] != '0' || |d| == 1)
    requires f != "" && AllDigits(f) && f[|f| - 1] != '0'
    ensures Positional(d + "." + f)
  {
    SpanIs(d, "." + f);
    assert d + "." + f == d + ("." + f);
    assert (d + "." + f)[|d| + 1..] == f;
  }

  lemma TailShape(e: int)
    requires e != 0
    ensures var t := ExponentTail(e);
      && |t| > 2 && t[0] == 'e' && t[1] == (if e > 0 then '+' else '-')
      && AllDigits(t[2..]) && t[2] != '0'
  {
    var a := if e >= 0 then e else -e;
    DigitsDenote(a);
    assert ExponentTail(e)[2..] == Digits(a);
    FirstNotZero(a);
  }

  lemma Appended(m: string, t: string)
    requires |t| > 2
    ensures var s := m + t; s[|m|] == t[0] && s[|m| + 1] == t[1] && s[|m| + 2] == t[2] && s[|m| + 2..] == t[2..]
    ensures m != "" ==> (m + t)[0] == m[0] && (m + t)[|m| - 1] == m[|m| - 1]
  {
  }

  lemma MantissaEnds(digits: string, t: string)
    requires digits != "" && AllDigits(digits) && |t| > 2 && t[0] == 'e'
    ensures MantissaEnd(Mantissa(digits) + t) == |Mantissa(digits)|
  {
    hide Span;
    var s := Mantissa(digits) + t;
    if |digits| == 1 {
      assert s[1] == t[0];
    } else {
      SpanIs(digits[1..], t);
      assert s[1] == '.' && s[2..] == digits[1..] + t;
    }
  }

  lemma MantissaScientific(digits: string, e: int)
    requires digits != "" && AllDigits(digits) && digits[0] != '0' && digits[|digits| - 1] != '0' && e != 0
    ensures Scientific(Mantissa(digits) + ExponentTail(e))
  {
    hide ExponentTail, MantissaEnd;
    var m, t := Mantissa(digits), ExponentTail(e);
    TailShape(e);
    MantissaEnds(digits, t);
    Appended(m, t);
    assert IsDigit(digits[0]);
  }

  /** Where the first digit stands tells whether the value is in the positional range. */
  lemma InRange(digits: string, exp: int)
    requires digits != "" && AllDigits(digits) && digits[0] != '0'
    ensures Ten(-6) <= Sci(Number(digits), exp) < Ten(21) <==> -6 < exp + |digits| <= 21
  {
    var n := exp + |digits|;
    Magnitude(digits, exp);
    hide Ten, Sci, Number;
    TenOrder(n, 21);
    TenOrder(21, n - 1);
    TenOrder(-6, n - 1);
    TenOrder(n, -6);
  }

  lemma WholeLaid(digits: string, exp: int)
    requires digits != "" && AllDigits(digits) && digits[0] != '0' && 0 <= exp && exp + |digits| <= 21
    ensures Positional(Body(digits, exp))
  {
    hide Positional;
    WithZeros(digits, exp);
    PlainPositional(digits + Zeros(exp));
  }

  lemma PointLaid(digits: string, exp: int)
    requires AllDigits(digits) && exp < 0 < exp + |digits| <= 21 && digits[0] != '0' && digits[|digits| - 1] != '0'
    ensures Positional(Body(digits, exp))
  {
    hide Positional;
    var n := exp + |digits|;
    PointPositional(digits[..n], digits[n..]);
  }

  lemma SmallLaid(digits: string, exp: int)
    requires digits != "" && AllDigits(digits) && -6 < exp + |digits| <= 0 && digits[|digits| - 1] != '0'
    ensures Positional(Body(digits, exp))
  {
    hide Positional;
    var k := -(exp + |digits|);
    WithZeros(digits, k);
    PointPositional("0", Zeros(k) + digits);
    assert "0" + "." + (Zeros(k) + digits) == "0." + Zeros(k) + digits;
  }

  lemma ExponentLaid(digits: string, exp: int)
    requires digits != "" && AllDigits(digits) && digits[0] != '0' && digits[|digits| - 1] != '0'
    requires exp + |digits| <= -6 || exp + |digits| > 21
    ensures Scientific(Body(digits, exp))
  {
    hide Scientific;
    MantissaScientific(digits, exp + |digits| - 1);
  }

  /** The layout of a body: positional between ten to the -6 and ten to the 21, scientific outside. */
  lemma BodyLayout(digits: string, exp: int)
    requires digits != "" && AllDigits(digits) && digits[0] != '0' && digits[|digits| - 1] != '0'
    ensures if Ten(-6) <= Sci(Number(digits), exp) < Ten(21) then Positional(Body(digits, exp))
            else Scientific(Body(digits, exp))
  {
    hide Ten, Sci, Number, Positional, Scientific, Body, AllDigits;
    InRange(digits, exp);
    var n := exp + |digits|;
    if exp >= 0 && n <= 21 {
      WholeLaid(digits, exp);
    } else if 0 < n <= 21 {
      PointLaid(digits, exp);
    } else if -6 < n <= 0 {
      SmallLaid(digits, exp);
    } else {
      ExponentLaid(digits, exp);
    }
  }

  lemma WithZeros(digits: string, k: nat)
    requires AllDigits(digits)
    ensures AllDigits(digits + Zeros(k)) && AllDigits(Zeros(k) + digits)
  {
  }

  /** The text without its sign. */
  function Bare(s: string): string { if s != "" && s[0] == '-' then s[1..] else s }

  /** The text of a number of value `v`: its sign, and the one layout that the size of `v` calls for. */
  predicate Laid(s: string, v: real) {
    && s != "" && (s[0] == '-' <==> v < 0.0)
    && if Ten(-6) <= Abs(v) < Ten(21) then Positional(Bare(s)) else Scientific(Bare(s))
  }

  lemma LaidByValue(f: Float)
    requires f.Normal() && f.Finite?
    ensures EsNumber(f).Some? && Value(f) != 0.0 && Laid(EsNumber(f).value, Value(f))
  {
    hide Body, Ten, Sci, Number, Positional, Scientific;
    var b := Body(f.digits, f.exp);
    NormalDigits(f.digits);
    SciPositive(Number(f.digits), f.exp);
    BodyLayout(f.digits, f.exp);
    BodyStarts(f.digits, f.exp);
    assert Bare(EsNumber(f).value) == b by { assert ("-" + b)[1..] == b && "" + b == b; }
  }

  /**
   * The text of a float, told by its value: a minus sign exactly for negative values; an exponent exactly
   * below ten to the -6 and from ten to the 21 on; and the one layout of each kind.
   */
  lemma LayoutByValue(f: Float)
    requires f.Normal() && f.Finite?
    ensures EsNumber(f).Some?
    ensures var s, size := EsNumber(f).value, Abs(Value(f));
      && s != "" && (s[0] == '-' <==> Value(f) < 0.0)
      && ('e' in s <==> size < Ten(-6) || size >= Ten(21))
      && if 'e' in s then Scientific(Bare(s)) else Positional(Bare(s))
  {
    hide Ten, Positional, Scientific, EsNumber, Value;
    LaidByValue(f);
    var s := EsNumber(f).value;
    if Positional(Bare(s)) { NoExponent(Bare(s)); }
    if Scientific(Bare(s)) { HasExponent(Bare(s)); }
    SignAside(s);
  }

  lemma HasExponent(s: string)
    requires Scientific(s)
    ensures 'e' in s
  {
    assert s[MantissaEnd(s)] == 'e';
  }

  lemma SignAside(s: string)
    ensures 'e' in s <==> 'e' in Bare(s)
  {
    if s != "" && s[0] == '-' { assert s == ['-'] + s[1..]; }
  }

  /** Zero, of either sign, is one digit; an integer is its digits, with a minus sign if it is negative. */
  lemma PlainTexts(n: int)
    ensures EsNumber(Zero) == Some("0")
    ensures var s := IntText(n); s != "" && (s[0] == '-' <==> n < 0) && AllDigits(Bare(s)) && Positional(Bare(s))
  {
    var a := if n < 0 then -n else n;
    DigitsDenote(a);
    if a > 0 { FirstNotZero(a); }
    PlainPositional(Digits(a));
    hide Digits, Positional;
    assert ("-" + Digits(a))[1..] == Digits(a);
  }

  // --- One text for each value ---------------------------------------------------------------------

  lemma PositionalParts(s: string) returns (w: string, f: string)
    requires Positional(s)
    ensures s == w + (if f == "" then "" else "." + f)
    ensures w != "" && AllDigits(w) && (w[0] != '0' || |w| == 1)
    ensures AllDigits(f) && (f != "" ==> f[|f| - 1] != '0')
    ensures AllDigits(w + f) && Unsigned(s) == Some(Sci(Number(w + f), -|f|))
  {
    hide Sci, Number, Unsigned, WithExponent;
    var i := Span(s);
    w, f := s[..i], if i == |s| then "" else s[i + 1..];
    NoTail(w, 0);
    NoTail(w + f, |f|);
    UnsignedPlain(w, "");
    UnsignedPoint(w, f, "");
    if i == |s| {
      assert w + f == w == s && w + "" == s;
    } else {
      assert w + "." + f + "" == w + ("." + f) == s;
    }
  }

  lemma DigitParts(a: nat, b: nat, c: nat, d: nat, p: nat)
    requires a * p + b == c * p + d && b < p && d < p
    ensures a == c && b == d
  {
    var n := a as int - c as int;
    assert n * p == d - b;
    Multiples(n, p);
  }

  lemma Multiples(n: int, p: nat)
    ensures (n >= 1 ==> n * p >= p) && (n <= -1 ==> -(n * p) >= p)
  {
    if n >= 1 { assert (n - 1) * p >= 0; }
    if n <= -1 { assert (-n - 1) * p >= 0; }
  }

  /** The same digits before and after the point. */
  lemma SameParts(w: string, f: string, x: string, g: string)
    requires AllDigits(w) && AllDigits(f) && AllDigits(x) && AllDigits(g) && |f| == |g|
    requires w != "" && (w[0] != '0' || |w| == 1) && x != "" && (x[0] != '0' || |x| == 1)
    requires Number(w + f) == Number(x + g)
    ensures w == x && f == g
  {
    hide Number, Power, Digits;
    NumberSplit(w, f);
    NumberSplit(x, g);
    DigitParts(Number(w), Number(f), Number(x), Number(g), Power(|f|));
    DigitsOfNumber(w);
    DigitsOfNumber(x);
    LessIsNumeric(f, g);
  }

  lemma LastDigitStays(d: string)
    requires d != "" && AllDigits(d) && d[|d| - 1] != '0'
    ensures Number(d) % 10 != 0
  {
    assert Number(d) == 10 * Number(d[..|d| - 1]) + DigitValue(d[|d| - 1]);
  }

  /** No digits after the point are missing or to spare. */
  lemma SameFraction(m: nat, e: nat, d: string, f: nat)
    requires d != "" && AllDigits(d) && d[|d| - 1] != '0' && e < f
    ensures Sci(m, 0 - e) != Sci(Number(d), 0 - f)
  {
    hide Sci, Number, Power;
    Rescale(m, 0 - f, f - e);
    TimesTen(m, f - e);
    LastDigitStays(d);
    if Sci(m, 0 - e) == Sci(Number(d), 0 - f) { SciCancels(m * Power(f - e), Number(d), 0 - f); }
  }

  lemma PositionalUnique(s: string, t: string)
    requires Positional(s) && Positional(t) && Unsigned(s) == Unsigned(t)
    ensures s == t
  {
    hide Positional, Unsigned, Sci, Number;
    var w, f := PositionalParts(s);
    var x, g := PositionalParts(t);
    if |f| < |g| { SameFraction(Number(w + f), |f|, x + g, |g|); }
    if |g| < |f| { SameFraction(Number(x + g), |g|, w + f, |f|); }
    SciCancels(Number(w + f), Number(x + g), -|f|);
    SameParts(w, f, x, g);
  }

  function Exponent(neg: bool, x: string): int
    requires AllDigits(x)
  {
    if neg then 0 - Number(x) else Number(x)
  }

  function Tail(neg: bool, x: string): string { "e" + (if neg then "-" else "+") + x }

  function WithPoint(d: string, f: string): string { if f == "" then d else d + "." + f }

  lemma TailDenotes(digits: string, fraction: int, neg: bool, x: string)
    requires AllDigits(digits) && x != "" && AllDigits(x)
    ensures Tail(neg, x)[0] == 'e'
    ensures WithExponent(digits, fraction, Tail(neg, x)) == Some(Sci(Number(digits), Exponent(neg, x) - fraction))
  {
    hide Sci, Number;
    assert Tail(neg, x)[2..] == x;
  }

  lemma PartsDenote(d: string, f: string, neg: bool, x: string)
    requires AllDigits(d) && AllDigits(f) && x != "" && AllDigits(x)
    ensures AllDigits(d + f)
    ensures Unsigned(WithPoint(d, f) + Tail(neg, x)) == Some(Sci(Number(d + f), Exponent(neg, x) - |f|))
  {
    hide Sci, Number, Unsigned, WithExponent, Exponent, Tail;
    TailDenotes(d + f, |f|, neg, x);
    if f == "" {
      assert d + f == d;
      UnsignedPlain(d, Tail(neg, x));
    } else {
      UnsignedPoint(d, f, Tail(neg, x));
    }
  }

  lemma TailParts(t: string)
    requires |t| > 2 && t[0] == 'e' && (t[1] == '+' || t[1] == '-')
    ensures t == Tail(t[1] == '-', t[2..])
  {
    assert t == [t[0]] + [t[1]] + t[2..];
  }

  lemma ScientificParts(s: string) returns (d: string, f: string, neg: bool, x: string)
    requires Scientific(s)
    ensures s == WithPoint(d, f) + Tail(neg, x)
    ensures |d| == 1 && AllDigits(d) && AllDigits(f) && d[0] != '0' && (d + f)[|f|] != '0'
    ensures x != "" && AllDigits(x) && x[0] != '0'
  {
    hide Tail;
    var i := MantissaEnd(s);
    d, f, neg, x := s[..1], if i == 1 then "" else s[2..i], s[i + 1] == '-', s[i + 2..];
    assert s[i..][2..] == x;
    TailParts(s[i..]);
    assert i > 1 ==> f == s[2..][..Span(s[2..])] && s[..i] == d + "." + f;
    assert s == s[..i] + s[i..];
  }

  lemma ScientificUnique(s: string, t: string)
    requires Scientific(s) && Scientific(t) && Unsigned(s) == Unsigned(t)
    ensures s == t
  {
    hide Scientific, Unsigned, Sci, Number, Digits, WithPoint, Tail;
    var d, f, neg, x := ScientificParts(s);
    var c, g, sign, y := ScientificParts(t);
    PartsDenote(d, f, neg, x);
    PartsDenote(c, g, sign, y);
    var a, b := d + f, c + g;
    NormalDigits(a);
    NormalDigits(b);
    DigitsOfNumber(x);
    DigitsOfNumber(y);
    NormalUnique(Number(a), Exponent(neg, x) - |f|, Number(b), Exponent(sign, y) - |g|);
    assert a[..1] == d && a[1..] == f && b[..1] == c && b[1..] == g;
  }

  /**
   * A text is that of a float if and only if it denotes the float's value and has the sign and the layout
   * that this value calls for: nothing about the text is left open.
   */
  lemma TextExactly(f: Float, s: string)
    requires f.Normal() && f.Finite?
    ensures EsNumber(f) == Some(s) <==> Denotes(s) == Some(Value(f)) && Laid(s, Value(f))
  {
    hide Ten, Positional, Scientific, EsNumber, Value, Unsigned;
    LaidByValue(f);
    EsNumberDenotes(f);
    var t := EsNumber(f).value;
    if Denotes(s) == Some(Value(f)) && Laid(s, Value(f)) {
      assert Unsigned(Bare(s)) == Unsigned(Bare(t));
      if Positional(Bare(s)) && Positional(Bare(t)) { PositionalUnique(Bare(s), Bare(t)); }
      else { ScientificUnique(Bare(s), Bare(t)); }
      SameBare(s, t);
    }
  }

  lemma SameBare(s: string, t: string)
    requires s != "" && t != "" && (s[0] == '-' <==> t[0] == '-') && Bare(s) == Bare(t)
    ensures s == t
  {
    assert s == [s[0]] + s[1..] && t == [t[0]] + t[1..];
  }
}
