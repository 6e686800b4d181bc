/**
 * Reference cursors: a topic, a colon and a zero-padded decimal offset.  Cursors are
 * compared as strings, so the padding is what makes string order follow offset order.
 */
module Cursors {
  import opened Contracts

  const WIDTH: nat := 16

  predicate IsDigit(c: char) { '0' <= c <= '9' }

  predicate AllDigits(s: string) { forall i :: 0 <= i < |s| ==> IsDigit(s[i]) }

  function DigitChar(d: nat): char
    requires d < 10
  {
    "0123456789"[d]
  }

  function DigitValue(c: char): nat
    requires IsDigit(c)
  {
    c as int - '0' as int
  }

  /** Decimal digits without padding. */
  function Digits(n: nat): string {
    if n < 10 then [DigitChar(n)] else Digits(n / 10) + [DigitChar(n % 10)]
  }

  function Zeros(k: nat): (s: string)
    ensures |s| == k
    ensures forall i :: 0 <= i < k ==> s[i] == '0'
  {
    seq(k, _ => '0')
  }

  function Padded(n: nat): string {
    var d := Digits(n);
    if |d| < WIDTH then Zeros(WIDTH - |d|) + d else d
  }

  function Encode(topic: string, offset: nat): string {
    topic + ":" + Padded(offset)
  }

  /** The number a string of digits denotes. */
  function Number(s: string): nat
    requires AllDigits(s)
  {
    if s == "" then 0 else 10 * Number(s[..|s| - 1]) + DigitValue(s[|s| - 1])
  }

  /** Position of the last colon, or -1. */
  function LastColon(s: string): (i: int)
    ensures -1 <= i < |s|
    ensures i >= 0 ==> s[i] == ':'
    ensures forall j :: i < j < |s| ==> s[j] != ':'
  {
    if s == "" then -1
    else if s[|s| - 1] == ':' then |s| - 1
    else LastColon(s[..|s| - 1])
  }

  function Split(cursor: string): Result<(string, nat), ErrorCode> {
    var i := LastColon(cursor);
    if i <= 0 then Failure(InvalidCursor)
    else
      var raw := cursor[i + 1..];
      if raw == "" || !AllDigits(raw) then Failure(InvalidCursor)
      else Success((cursor[..i], Number(raw)))
  }

  /** The cursor is the topic, a colon and these digits. */
  predicate Spells(cursor: string, topic: string, raw: string) {
    topic != "" && raw != "" && AllDigits(raw) && cursor == topic + ":" + raw
  }

  function OffsetOf(cursor: string): Result<nat, ErrorCode> {
    match Split(cursor)
    case Success(p) => Success(p.1)
    case Failure(e) => Failure(e)
  }

  function TopicOf(cursor: string): Result<string, ErrorCode> {
    match Split(cursor)
    case Success(p) => Success(p.0)
    case Failure(e) => Failure(e)
  }

  /** The offset of `cursor`, which must belong to `topic`. */
  function OffsetFor(topic: string, cursor: string): Result<nat, ErrorCode> {
    match Split(cursor)
    case Success(p) => if p.0 == topic then Success(p.1) else Failure(InvalidCursor)
    case Failure(e) => Failure(e)
  }

  /** Strict lexicographic order on strings. */
  predicate Less(a: string, b: string) {
    if b == "" then false
    else if a == "" then true
    else a[0] < b[0] || (a[0] == b[0] && Less(a[1..], b[1..]))
  }

  /** Some bound on offsets below which string order is offset order. */
  ghost predicate OrderedBelow(topic: string, bound: nat) {
    forall a: nat, b: nat :: a < bound && b < bound ==>
      (Less(Encode(topic, a), Encode(topic, b)) <==> a < b)
  }

  function Power(w: nat): nat { if w == 0 then 1 else 10 * Power(w - 1) }

  // --- Printing and parsing --------------------------------------------------

  lemma {:induction false} DigitsDenote(n: nat)
    ensures AllDigits(Digits(n)) && |Digits(n)| > 0
    ensures Number(Digits(n)) == n
  {
    if n >= 10 {
      DigitsDenote(n / 10);
      assert Digits(n)[..|Digits(n)| - 1] == Digits(n / 10);
    } else {
      assert Digits(n)[..0] == "";
      assert Number(Digits(n)) == 10 * Number("") + n;
    }
  }

  lemma {:induction false} PaddingDenotes(k: nat, d: string)
    requires AllDigits(d)
    ensures AllDigits(Zeros(k) + d) && Number(Zeros(k) + d) == Number(d)
  {
    var s := Zeros(k) + d;
    if d != "" {
      PaddingDenotes(k, d[..|d| - 1]);
      assert s[..|s| - 1] == Zeros(k) + d[..|d| - 1];
    } else if k > 0 {
      PaddingDenotes(k - 1, d);
      assert s[..|s| - 1] == Zeros(k - 1) + d;
    }
  }

  lemma PaddedDenotes(n: nat)
    ensures AllDigits(Padded(n)) && |Padded(n)| > 0 && Number(Padded(n)) == n
  {
    DigitsDenote(n);
    PaddingDenotes(if |Digits(n)| < WIDTH then WIDTH - |Digits(n)| else 0, Digits(n));
  }

  /** Splitting undoes encoding for every non-empty topic, colons included. */
  lemma SplitEncode(topic: string, offset: nat)
    requires topic != ""
    ensures Split(Encode(topic, offset)) == Success((topic, offset))
    ensures OffsetOf(Encode(topic, offset)) == Success(offset)
    ensures TopicOf(Encode(topic, offset)) == Success(topic)
    ensures OffsetFor(topic, Encode(topic, offset)) == Success(offset)
  {
    PaddedDenotes(offset);
    var c, i := Encode(topic, offset), LastColon(Encode(topic, offset));
    assert c[|topic|] == ':';
    assert forall j :: |topic| < j < |c| ==> c[j] == Padded(offset)[j - |topic| - 1];
    assert i == |topic|;
    assert c[i + 1..] == Padded(offset) && c[..i] == topic;
  }

  /** A cursor is the topic, a colon and sixteen digits, more only from ten to the sixteenth on. */
  lemma EncodeShape(topic: string, offset: nat)
    ensures var c, n := Encode(topic, offset), |topic|;
      && |c| > n && c[..n] == topic && c[n] == ':' && AllDigits(c[n + 1..]) && Number(c[n + 1..]) == offset
      && |c[n + 1..]| >= 16 && (|c[n + 1..]| == 16 <==> offset < 10_000_000_000_000_000)
      && (|c[n + 1..]| > 16 ==> c[n + 1] != '0')
  {
    PaddedDenotes(offset);
    DigitsWidth(offset, 16);
    TenToSixteen();
    var c, p := Encode(topic, offset), Padded(offset);
    assert c[|topic| + 1..] == p && c[..|topic|] == topic;
    if |p| > 16 { FirstNotZero(offset); }
  }

  lemma FourMore(w: nat)
    ensures Power(w + 4) == 10_000 * Power(w)
  {
    assert Power(w + 2) == 100 * Power(w) by { assert Power(w + 2) == 10 * Power(w + 1); }
    assert Power(w + 4) == 100 * Power(w + 2) by { assert Power(w + 4) == 10 * Power(w + 3); }
  }

  lemma TenToSixteen()
    ensures Power(16) == 10_000_000_000_000_000
  {
    hide Power;
    FourMore(0);
    FourMore(4);
    FourMore(8);
    FourMore(12);
    assert Power(0) == 1 by { PowerZero(); }
  }

  lemma PowerZero()
    ensures Power(0) == 1
  {
  }

  lemma {:induction false} FirstNotZero(n: nat)
    requires n > 0
    ensures Digits(n) != "" && Digits(n)[0] != '0'
  {
    if n >= 10 {
      FirstNotZero(n / 10);
      assert Digits(n)[0] == Digits(n / 10)[0];
    }
  }

  /** An empty topic does not survive the trip: its cursors are refused as invalid. */
  lemma EmptyTopicRefused(offset: nat)
    ensures Split(Encode("", offset)) == Failure(InvalidCursor)
  {
    PaddedDenotes(offset);
    var c := Encode("", offset);
    assert c[0] == ':' && forall j :: 0 < j < |c| ==> c[j] == Padded(offset)[j - 1];
  }

  // --- String order ------------------------------------------------------------

  /** The order is that of the first difference; a prefix comes first. */
  lemma {:induction false} LessAtDifference(a: string, b: string)
    ensures Less(a, b) <==> a < b || exists k :: 0 <= k < |a| && k < |b| && a[..k] == b[..k] && a[k] < b[k]
  {
    if a == "" || b == "" {
    } else if a[0] != b[0] {
      if a[0] < b[0] { assert a[..0] == b[..0]; }
      forall k | 0 < k < |a| && k < |b| ensures a[..k] != b[..k] { assert a[..k][0] != b[..k][0]; }
    } else {
      LessAtDifference(a[1..], b[1..]);
      assert a == [a[0]] + a[1..] && b == [b[0]] + b[1..];
      if k :| 0 <= k < |a[1..]| && k < |b[1..]| && a[1..][..k] == b[1..][..k] && a[1..][k] < b[1..][k] {
        assert a[..k + 1] == [a[0]] + a[1..][..k] && b[..k + 1] == [b[0]] + b[1..][..k];
        assert a[k + 1] < b[k + 1];
      }
      if k :| 0 <= k < |a| && k < |b| && a[..k] == b[..k] && a[k] < b[k] {
        assert a[1..][..k - 1] == a[..k][1..] && b[1..][..k - 1] == b[..k][1..];
        assert a[1..][k - 1] < b[1..][k - 1];
      }
    }
  }

  lemma {:induction false} LessSnoc(a: string, b: string, x: char, y: char)
    requires |a| == |b|
    ensures Less(a + [x], b + [y]) <==> Less(a, b) || (a == b && x < y)
  {
    if a == "" {
      assert a + [x] == [x] && b + [y] == [y];
    } else {
      LessSnoc(a[1..], b[1..], x, y);
      assert (a + [x])[1..] == a[1..] + [x] && (b + [y])[1..] == b[1..] + [y];
      assert a == [a[0]] + a[1..] && b == [b[0]] + b[1..];
    }
  }

  lemma {:induction false} LessIsNumeric(a: string, b: string)
    requires |a| == |b| && AllDigits(a) && AllDigits(b)
    ensures Less(a, b) <==> Number(a) < Number(b)
    ensures a == b <==> Number(a) == Number(b)
  {
    if a != "" {
      var n := |a| - 1;
      LessIsNumeric(a[..n], b[..n]);
      LessSnoc(a[..n], b[..n], a[n], b[n]);
      assert a == a[..n] + [a[n]] && b == b[..n] + [b[n]];
    }
  }

  lemma {:induction false} LessAfterPrefix(p: string, a: string, b: string)
    ensures Less(p + a, p + b) <==> Less(a, b)
  {
    if p != "" {
      LessAfterPrefix(p[1..], a, b);
      assert (p + a)[1..] == p[1..] + a && (p + b)[1..] == p[1..] + b;
    } else {
      assert p + a == a && p + b == b;
    }
  }

  lemma {:induction false} LessTransitive(a: string, b: string, c: string)
    requires Less(a, b) && Less(b, c)
    ensures Less(a, c)
  {
    if a != "" && b != "" && c != "" && a[0] == b[0] && b[0] == c[0] {
      LessTransitive(a[1..], b[1..], c[1..]);
    }
  }

  lemma {:induction false} DigitsWidth(n: nat, w: nat)
    requires w > 0
    ensures |Digits(n)| <= w <==> n < Power(w)
  {
    if n >= 10 && w > 1 {
      DigitsWidth(n / 10, w - 1);
    } else if w == 1 {
      assert Power(1) == 10 * Power(0);
      if n >= 10 { DigitsDenote(n / 10); }
    } else {
      PowerGrows(w);
    }
  }

  lemma {:induction false} PowerGrows(w: nat)
    requires w > 0
    ensures Power(w) >= 10
  {
    if w > 1 { PowerGrows(w - 1); } else { assert Power(0) == 1; }
  }

  /** Below 10^16 string order on the cursors of one topic is offset order. */
  lemma EncodeOrder(topic: string, a: nat, b: nat)
    requires a < Power(WIDTH) && b < Power(WIDTH)
    ensures Less(Encode(topic, a), Encode(topic, b)) <==> a < b
  {
    PaddedDenotes(a);
    PaddedDenotes(b);
    DigitsWidth(a, WIDTH);
    DigitsWidth(b, WIDTH);
    LessIsNumeric(Padded(a), Padded(b));
    LessAfterPrefix(topic + ":", Padded(a), Padded(b));
  }

  /** The padding width is exactly the limit: one offset more and string order breaks. */
  lemma OrderedExactlyBelow(topic: string, bound: nat)
    ensures OrderedBelow(topic, bound) <==> bound <= Power(WIDTH)
  {
    if bound <= Power(WIDTH) {
      forall a: nat, b: nat | a < bound && b < bound
        ensures Less(Encode(topic, a), Encode(topic, b)) <==> a < b
      {
        EncodeOrder(topic, a, b);
      }
    } else {
      PowerGrows(WIDTH);
      FirstTooWide(topic);
      assert !Less(Encode(topic, Power(WIDTH) - 1), Encode(topic, Power(WIDTH)));
    }
  }

  lemma {:induction false} LeadingDigit(w: nat)
    ensures Digits(Power(w))[0] == '1'
    ensures w > 0 ==> Digits(Power(w) - 1)[0] == '9'
  {
    if w > 0 {
      LeadingDigit(w - 1);
      DigitsDenote(Power(w - 1));
      assert Power(w) / 10 == Power(w - 1);
      if w == 1 {
        assert Power(0) == 1;
      } else {
        PowerGrows(w - 1);
        DigitsDenote(Power(w - 1) - 1);
        assert (Power(w) - 1) / 10 == Power(w - 1) - 1;
      }
      PowerGrows(w);
    }
  }

  /** 10^16 needs a seventeenth digit, and sorts before 10^16 - 1. */
  lemma FirstTooWide(topic: string)
    requires Power(WIDTH) > 0
    ensures !Less(Encode(topic, Power(WIDTH) - 1), Encode(topic, Power(WIDTH)))
  {
    var n := Power(WIDTH);
    DigitsWidth(n, WIDTH);
    LeadingDigit(WIDTH);
    DigitsDenote(n - 1);
    DigitsWidth(n - 1, WIDTH);
    LeadingPad(n - 1);
    LessAfterPrefix(topic + ":", Padded(n - 1), Padded(n));
  }

  lemma LeadingPad(n: nat)
    requires n == Power(WIDTH) - 1
    ensures Padded(n)[0] == '9'
  {
    LeadingDigit(WIDTH);
    DigitsDenote(n);
    PowerGrows(WIDTH - 1);
    DigitsWidth(n, WIDTH - 1);
    DigitsWidth(n, WIDTH);
    assert Power(WIDTH) == 10 * Power(WIDTH - 1);
  }

  // --- Cursors the log did not issue -------------------------------------------------------------

  lemma {:induction false} LessThanLonger(a: string, p: string, q: string)
    requires |a| == |p|
    ensures Less(a, p + q) <==> Less(a, p) || (a == p && q != "")
  {
    if a == "" {
      assert p + q == q;
    } else {
      LessThanLonger(a[1..], p[1..], q);
      assert (p + q)[1..] == p[1..] + q && (p + q)[0] == p[0];
      assert a == [a[0]] + a[1..] && p == [p[0]] + p[1..];
    }
  }

  lemma {:induction false} LessThanShorter(p: string, q: string, b: string)
    requires |p| == |b|
    ensures Less(p + q, b) <==> Less(p, b)
  {
    if p != "" {
      LessThanShorter(p[1..], q, b[1..]);
      assert (p + q)[1..] == p[1..] + q && (p + q)[0] == p[0];
    }
  }

  lemma {:induction false} NumberSplit(p: string, q: string)
    requires AllDigits(p) && AllDigits(q)
    ensures AllDigits(p + q) && Number(p + q) == Number(p) * Power(|q|) + Number(q)
    ensures Number(q) < Power(|q|)
  {
    if q == "" {
      assert p + q == p;
    } else {
      var n := |q| - 1;
      NumberSplit(p, q[..n]);
      assert (p + q)[..|p + q| - 1] == p + q[..n] && (p + q)[|p + q| - 1] == q[n];
      Regroup(Number(p), Power(n), Number(q[..n]), DigitValue(q[n]));
    }
  }

  lemma Regroup(a: nat, b: nat, c: nat, d: nat)
    ensures 10 * (a * b + c) + d == a * (10 * b) + (10 * c + d)
  {
    assert 10 * (a * b) == a * (10 * b);
  }

  /** Splitting a topic and its digits, issued or not. */
  lemma SplitDigits(topic: string, raw: string)
    requires topic != "" && AllDigits(raw) && raw != ""
    ensures Split(topic + ":" + raw) == Success((topic, Number(raw)))
  {
    var c := topic + ":" + raw;
    assert c[|topic|] == ':';
    assert forall j :: |topic| < j < |c| ==> c[j] == raw[j - |topic| - 1];
    assert LastColon(c) == |topic|;
    assert c[|topic| + 1..] == raw && c[..|topic|] == topic;
  }

  /** Splitting succeeds exactly on a topic, a colon and digits, and gives that topic and what the digits denote. */
  lemma SplitReads(cursor: string)
    ensures forall topic, raw :: Spells(cursor, topic, raw) ==> Split(cursor) == Success((topic, Number(raw)))
    ensures (forall topic, raw :: !Spells(cursor, topic, raw)) ==> Split(cursor) == Failure(InvalidCursor)
    ensures Split(cursor).Success? ==> exists raw :: Spells(cursor, Split(cursor).value.0, raw)
  {
    hide Number;
    forall topic, raw | Spells(cursor, topic, raw) ensures Split(cursor) == Success((topic, Number(raw))) {
      SplitDigits(topic, raw);
    }
    if Split(cursor).Success? {
      var i := LastColon(cursor);
      assert cursor == cursor[..i] + ":" + cursor[i + 1..];
      assert Spells(cursor, cursor[..i], cursor[i + 1..]);
    }
  }

  lemma SplitRefuses(cursor: string)
    ensures Split(cursor).Failure? ==> Split(cursor).error == InvalidCursor
  {
    hide Number;
  }

  /** The words for the two ends of a log are no cursors. */
  lemma WordsApart(topic: string, raw: string)
    ensures !Spells("earliest", topic, raw) && !Spells("latest", topic, raw)
  {
    assert (topic + ":" + raw)[|topic|] == ':';
    assert ':' !in "earliest" && ':' !in "latest";
  }
}
