/** Cursors that subscribers may send although no log issued them: other digits, other widths. */
module Unissued {
  import opened Contracts
  import opened Cursors

  /** One less than `raw` followed by `k` zeros. */
  predicate OneShort(n: int, raw: string, k: nat)
    requires AllDigits(raw)
  {
    n == Number(raw) * Power(k) - 1
  }

  lemma ShortBounds(n: int, raw: string)
    requires AllDigits(raw) && 0 < |raw| < WIDTH && Number(raw) > 0 && OneShort(n, raw, WIDTH - |raw|)
    ensures Number(raw) < n < Power(WIDTH)
  {
    var k := WIDTH - |raw|;
    PowerGrows(k);
    NumberSplit("", raw);
    PowerSum(|raw|, k);
    Scaled(Number(raw), Power(|raw|), Power(k));
    assert "" + raw == raw;
    hide Number, Power;
  }

  lemma OneLess(p: string, q: string, raw: string)
    requires AllDigits(p) && AllDigits(q) && AllDigits(raw) && |p| == |raw| && AllDigits(p + q)
    requires OneShort(Number(p + q), raw, |q|)
    ensures Less(p + q, raw)
  {
    hide Number, Power, Less;
    NumberSplit(p, q);
    Quotient(Number(p), Number(q), Number(raw), Power(|q|));
    LessIsNumeric(p, raw);
    LessThanShorter(p, q, raw);
  }

  lemma PaddedWidth(n: nat)
    requires n < Power(WIDTH)
    ensures |Padded(n)| == WIDTH && AllDigits(Padded(n)) && Number(Padded(n)) == n
  {
    DigitsWidth(n, WIDTH);
    PaddedDenotes(n);
    hide Number, Power, Digits;
  }

  /** The greatest offset below 10^16 that sorts before the digits `raw` is past the number they denote. */
  lemma Overtaken(raw: string) returns (n: nat)
    requires AllDigits(raw) && 0 < |raw| < WIDTH && Number(raw) > 0
    ensures Number(raw) < n < Power(WIDTH)
    ensures Less(Padded(n), raw)
  {
    hide Less, Padded;
    var m := Number(raw) * Power(WIDTH - |raw|) - 1;
    assert OneShort(m, raw, WIDTH - |raw|);
    hide Number, Power, OneShort;
    ShortBounds(m, raw);
    n := m;
    PaddedWidth(n);
    var d := Padded(n);
    assert d == d[..|raw|] + d[|raw|..];
    OneLess(d[..|raw|], d[|raw|..], raw);
  }

  lemma {:induction false} PowerSum(a: nat, b: nat)
    ensures Power(a + b) == Power(a) * Power(b)
  {
    if a > 0 {
      PowerSum(a - 1, b);
      assert 10 * (Power(a - 1) * Power(b)) == (10 * Power(a - 1)) * Power(b);
    }
  }

  lemma Scaled(n: nat, m: nat, k: nat)
    requires 0 < n < m && k >= 10
    ensures n < n * k - 1 && n * k - 1 < m * k
  {
    assert n * k >= n * 10;
    assert (m - n) * k >= 0;
    assert m * k == n * k + (m - n) * k;
  }

  lemma Quotient(a: nat, b: nat, n: nat, k: nat)
    requires a * k + b == n * k - 1 && b < k
    ensures a < n
  {
    if a >= n { Monotone(a, n, k); }
  }

  lemma Monotone(a: nat, n: nat, k: nat)
    requires a >= n
    ensures a * k >= n * k
  {
  }

  /** Digits as wide as the padding, or wider, never sort after an issued cursor of a greater offset. */
  lemma WideNotBack(a: nat, raw: string)
    requires AllDigits(raw) && |raw| >= WIDTH && a < Power(WIDTH) && Less(Padded(a), raw)
    ensures a <= Number(raw)
  {
    hide Number, Power, Less, Padded;
    PaddedWidth(a);
    var p, q := raw[..WIDTH], raw[WIDTH..];
    assert raw == p + q;
    LessThanLonger(Padded(a), p, q);
    LessIsNumeric(Padded(a), p);
    NumberSplit(p, q);
    AtLeast(Number(p), Power(|q|));
  }

  lemma AtLeast(a: nat, b: nat)
    requires b > 0
    ensures a <= a * b
  {
    assert a * (b - 1) >= 0;
  }

  /** Zeros never sort after an issued cursor at all. */
  lemma ZeroNotBack(a: nat, raw: string)
    requires AllDigits(raw) && |raw| < WIDTH && Number(raw) == 0 && a < Power(WIDTH)
    ensures !Less(Padded(a), raw)
  {
    hide Number, Power, Less, Padded;
    PaddedWidth(a);
    var p, q := Padded(a)[..|raw|], Padded(a)[|raw|..];
    assert Padded(a) == p + q;
    LessThanShorter(p, q, raw);
    LessIsNumeric(p, raw);
  }

  /** The cursor with digits `raw` replaces no issued cursor of a greater offset. */
  ghost predicate NeverBack(topic: string, raw: string)
    requires AllDigits(raw)
  {
    forall a: nat :: a < Power(WIDTH) && Less(Encode(topic, a), topic + ":" + raw) ==> a <= Number(raw)
  }

  /** Exactly the digits that are as wide as the padding, or denote zero, are safe. */
  lemma NeverBackExactly(topic: string, raw: string)
    requires AllDigits(raw) && raw != ""
    ensures NeverBack(topic, raw) <==> |raw| >= WIDTH || Number(raw) == 0
  {
    forall a: nat ensures Less(Encode(topic, a), topic + ":" + raw) <==> Less(Padded(a), raw) {
      LessAfterPrefix(topic + ":", Padded(a), raw);
    }
    if |raw| >= WIDTH || Number(raw) == 0 {
      forall a: nat | a < Power(WIDTH) && Less(Encode(topic, a), topic + ":" + raw) ensures a <= Number(raw) {
        if |raw| >= WIDTH { WideNotBack(a, raw); } else { ZeroNotBack(a, raw); }
      }
    } else {
      var a := Overtaken(raw);
      assert Less(Encode(topic, a), topic + ":" + raw);
    }
  }

  // --- How any digits compare with issued ones --------------------------------------------------------

  lemma AtMost(n: nat, a: nat, b: nat, k: nat)
    requires b < k
    ensures n * k <= a * k + b <==> n <= a
  {
    if n <= a { Monotone(a, n, k); } else { Monotone(n, a + 1, k); }
  }

  /** Digits narrower than the padding stand before the offsets from them, followed by zeros, on. */
  lemma ShortOrder(raw: string, o: nat)
    requires AllDigits(raw) && 0 < |raw| < WIDTH && o < Power(WIDTH)
    ensures Less(raw, Padded(o)) <==> Number(raw) * Power(WIDTH - |raw|) <= o
  {
    hide Number, Power, Less, Padded;
    PaddedWidth(o);
    var a, b := Padded(o)[..|raw|], Padded(o)[|raw|..];
    assert Padded(o) == a + b;
    LessThanLonger(raw, a, b);
    LessIsNumeric(raw, a);
    NumberSplit(a, b);
    AtMost(Number(raw), Number(a), Number(b), Power(|b|));
  }

  /** Of digits as wide as the padding, or wider, only the first sixteen count. */
  lemma WideOrder(raw: string, o: nat)
    requires AllDigits(raw) && |raw| >= WIDTH && o < Power(WIDTH)
    ensures Less(raw, Padded(o)) <==> Number(raw[..WIDTH]) < o
  {
    hide Number, Power, Less, Padded;
    PaddedWidth(o);
    var p, q := raw[..WIDTH], raw[WIDTH..];
    assert raw == p + q;
    LessThanShorter(p, q, Padded(o));
    LessIsNumeric(p, Padded(o));
  }

  /** But each further digit makes the number at least ten times as large. */
  lemma WideValue(raw: string)
    requires AllDigits(raw) && |raw| >= WIDTH
    ensures |raw| == WIDTH ==> Number(raw[..WIDTH]) == Number(raw)
    ensures |raw| > WIDTH ==> Number(raw) >= 10 * Number(raw[..WIDTH])
    ensures Number(raw[..WIDTH]) < Power(WIDTH)
  {
    hide Number, Power;
    var p, q := raw[..WIDTH], raw[WIDTH..];
    assert raw == p + q && "" + p == p;
    NumberSplit("", p);
    NumberSplit(p, q);
    if q == "" {
      assert raw == p;
    } else {
      PowerGrows(|q|);
      Monotone(Power(|q|), 10, Number(p));
    }
  }

  // --- Digits that stand where their number says ------------------------------------------------------

  /** As strings the digits stand to every issued cursor as their number stands to its offset. */
  ghost predicate SortsLike(raw: string)
    requires AllDigits(raw)
  {
    forall o: nat :: o < Power(WIDTH) ==> (Less(raw, Padded(o)) <==> Number(raw) < o)
  }

  /** Sixteen digits; or more, that denote zero or start with sixteen nines. */
  predicate Aligned(raw: string)
    requires AllDigits(raw)
  {
    |raw| == WIDTH || (|raw| > WIDTH && (Number(raw) == 0 || Number(raw[..WIDTH]) == Power(WIDTH) - 1))
  }

  /** Digits that are not aligned stand on the wrong side of some offset. */
  lemma Misplaced(raw: string) returns (o: nat)
    requires AllDigits(raw) && raw != "" && !Aligned(raw)
    ensures o < Power(WIDTH) && (Less(raw, Padded(o)) <==> Number(raw) >= o)
  {
    hide Number, Power, Less, Padded;
    if |raw| > WIDTH {
      WideValue(raw);
      o := Number(raw[..WIDTH]) + 1;
      WideOrder(raw, o);
    } else if Number(raw) == 0 {
      PowerGrows(WIDTH);
      o := 0;
      ShortOrder(raw, o);
    } else {
      var m := Number(raw) * Power(WIDTH - |raw|) - 1;
      assert OneShort(m, raw, WIDTH - |raw|);
      ShortBounds(m, raw);
      o := m;
      ShortOrder(raw, o);
    }
  }

  lemma SortsLikeExactly(raw: string)
    requires AllDigits(raw) && raw != ""
    ensures SortsLike(raw) <==> Aligned(raw)
  {
    hide Less, Padded, Power, Number;
    if Aligned(raw) {
      WideValue(raw);
      forall o: nat | o < Power(WIDTH) ensures Less(raw, Padded(o)) <==> Number(raw) < o { WideOrder(raw, o); }
    } else {
      var o := Misplaced(raw);
    }
  }

  // --- Stored digits that an issued cursor may replace ------------------------------------------------

  /** No issued cursor of a smaller offset replaces the digits `held`. */
  ghost predicate NeverTaken(topic: string, held: string)
    requires AllDigits(held)
  {
    forall o: nat :: o < Power(WIDTH) && Less(topic + ":" + held, Encode(topic, o)) ==> Number(held) <= o
  }

  /** Exactly the digits that are no wider than the padding, denote zero or one, or start with sixteen nines. */
  lemma NeverTakenExactly(topic: string, held: string)
    requires AllDigits(held) && held != ""
    ensures NeverTaken(topic, held)
       <==> |held| <= WIDTH || Number(held) <= 1 || Number(held[..WIDTH]) == Power(WIDTH) - 1
  {
    forall o: nat ensures Less(topic + ":" + held, Encode(topic, o)) <==> Less(held, Padded(o)) {
      LessAfterPrefix(topic + ":", held, Padded(o));
    }
    hide Less, Padded, Power, Number, Encode;
    if |held| < WIDTH {
      PowerGrows(WIDTH - |held|);
      AtLeast(Number(held), Power(WIDTH - |held|));
      forall o: nat | o < Power(WIDTH) && Less(held, Padded(o)) ensures Number(held) <= o { ShortOrder(held, o); }
    } else {
      WideValue(held);
      forall o: nat | o < Power(WIDTH) ensures Less(held, Padded(o)) <==> Number(held[..WIDTH]) < o {
        WideOrder(held, o);
      }
      if |held| > WIDTH && Number(held) > 1 && Number(held[..WIDTH]) < Power(WIDTH) - 1 {
        var o := Number(held[..WIDTH]) + 1;
        assert Less(topic + ":" + held, Encode(topic, o)) && Number(held) > o;
      }
    }
  }

  // --- Any stored digits, any new ones ----------------------------------------------------------------

  /** The digits `raw` replace none of a greater number, whatever is stored. */
  ghost predicate NeverBackAnywhere(topic: string, raw: string)
    requires AllDigits(raw)
  {
    forall held :: AllDigits(held) && held != "" && Less(topic + ":" + held, topic + ":" + raw) ==>
      Number(held) <= Number(raw)
  }

  /** One less, and a nine behind it: earlier as a string, greater as a number. */
  lemma Beneath(raw: string) returns (held: string)
    requires AllDigits(raw) && Number(raw) > 0
    ensures AllDigits(held) && held != "" && Less(held, raw) && Number(held) > Number(raw)
  {
    assert raw != "";
    hide Number, Power, Less, Padded;
    var p := OneBelow(raw);
    held := p + "9";
    NumberSplit(p, "9");
    assert Number("9") == 9 && Power(1) == 10 by { Nine(); }
    LessThanShorter(p, "9", raw);
    LessIsNumeric(p, raw);
  }

  lemma Nine()
    ensures Number("9") == 9 && Power(1) == 10
  {
    assert "9"[..0] == "" && Power(0) == 1;
  }

  /** The digits of one less, in the same width. */
  lemma OneBelow(raw: string) returns (p: string)
    requires AllDigits(raw) && Number(raw) > 0 && raw != ""
    ensures AllDigits(p) && |p| == |raw| && Number(p) == Number(raw) - 1
  {
    hide Power, Number;
    var n := Number(raw) - 1;
    NumberSplit("", raw);
    assert "" + raw == raw;
    DigitsWidth(n, |raw|);
    DigitsDenote(n);
    PaddingDenotes(|raw| - |Digits(n)|, Digits(n));
    p := Zeros(|raw| - |Digits(n)|) + Digits(n);
  }

  /** Zeros replace shorter zeros only. */
  lemma {:induction false} ZerosReplaceZeros(held: string, raw: string)
    requires AllDigits(held) && AllDigits(raw) && Number(raw) == 0 && Less(held, raw)
    ensures Number(held) == 0
  {
    hide Number, Power, Less;
    if |held| >= |raw| {
      var p, q := held[..|raw|], held[|raw|..];
      assert held == p + q;
      LessThanShorter(p, q, raw);
      LessIsNumeric(p, raw);
    } else {
      var a, b := raw[..|held|], raw[|held|..];
      assert raw == a + b;
      LessThanLonger(held, a, b);
      LessIsNumeric(held, a);
      NumberSplit(a, b);
      PowerGrows(|b|);
      AtLeast(Number(a), Power(|b|));
    }
  }

  /** Over any stored digits, only those that denote zero are safe. */
  lemma NeverBackAnywhereExactly(topic: string, raw: string)
    requires AllDigits(raw) && raw != ""
    ensures NeverBackAnywhere(topic, raw) <==> Number(raw) == 0
  {
    forall held ensures Less(topic + ":" + held, topic + ":" + raw) <==> Less(held, raw) {
      LessAfterPrefix(topic + ":", held, raw);
    }
    hide Less, Number;
    if Number(raw) == 0 {
      forall held | AllDigits(held) && held != "" && Less(topic + ":" + held, topic + ":" + raw)
        ensures Number(held) <= Number(raw)
      {
        ZerosReplaceZeros(held, raw);
      }
    } else {
      var held := Beneath(raw);
      assert Less(topic + ":" + held, topic + ":" + raw);
    }
  }
}
