/** The order in which object members are printed: by the UTF-16 code units of their names. */
module Utf16 {

  type Units = seq<int>

  /** The UTF-16 code units of a character: one, or a surrogate pair. */
  function UnitsOf(c: char): (u: Units)
    ensures |u| == 1 || |u| == 2
    ensures forall i :: 0 <= i < |u| ==> 0 <= u[i] < 0x1_0000
  {
    var n := c as int;
    if n < 0x1_0000 then [n] else [0xD800 + (n - 0x1_0000) / 0x400, 0xDC00 + (n - 0x1_0000) % 0x400]
  }

  function Encoded(s: string): (u: Units)
    ensures forall i :: 0 <= i < |u| ==> 0 <= u[i] < 0x1_0000
  {
    if s == "" then [] else UnitsOf(s[0]) + Encoded(s[1..])
  }

  /** Big-endian bytes of code units. */
  function Bytes(u: Units): Units {
    if u == [] then [] else [u[0] / 0x100, u[0] % 0x100] + Bytes(u[1..])
  }

  /** Strict lexicographic order. */
  predicate Before(a: Units, b: Units) {
    if b == [] then false
    else if a == [] then true
    else a[0] < b[0] || (a[0] == b[0] && Before(a[1..], b[1..]))
  }

  /** The order of member names: their big-endian UTF-16 bytes. */
  predicate KeyBefore(k: string, l: string) { Before(Bytes(Encoded(k)), Bytes(Encoded(l))) }

  /** One unit stands for itself; a high and a low surrogate stand for ten bits each (RFC 2781, section 2.2). */
  lemma UnitsStandFor(c: char)
    ensures var u := UnitsOf(c);
      if |u| == 1 then u[0] == c as int && !(0xD800 <= u[0] < 0xE000)
      else 0xD800 <= u[0] < 0xDC00 <= u[1] < 0xE000
           && c as int == 0x1_0000 + (u[0] - 0xD800) * 0x400 + (u[1] - 0xDC00)
  {
  }

  /** The order is that of the first difference; a prefix comes first. */
  lemma {:induction false} BeforeAtDifference(a: Units, b: Units)
    ensures Before(a, b) <==> a < b || exists k :: 0 <= k < |a| && k < |b| && a[..k] == b[..k] && a[k] < b[k]
  {
    if a == [] || b == [] {
    } else if a[0] != b[0] {
      if a[0] < b[0] { assert a[..0] == b[..0]; }
      forall k | 0 < k < |a| && k < |b| ensures a[..k] != b[..k] { assert a[..k][0] != b[..k][0]; }
    } else {
      BeforeAtDifference(a[1..], b[1..]);
      assert a == [a[0]] + a[1..] && b == [b[0]] + b[1..];
      if k :| 0 <= k < |a[1..]| && k < |b[1..]| && a[1..][..k] == b[1..][..k] && a[1..][k] < b[1..][k] {
        assert a[..k + 1] == [a[0]] + a[1..][..k] && b[..k + 1] == [b[0]] + b[1..][..k];
        assert a[k + 1] < b[k + 1];
      }
      if k :| 0 <= k < |a| && k < |b| && a[..k] == b[..k] && a[k] < b[k] {
        assert a[1..][..k - 1] == a[..k][1..] && b[1..][..k - 1] == b[..k][1..];
        assert a[1..][k - 1] < b[1..][k - 1];
      }
    }
  }

  /** Comparing the bytes is comparing the code units. */
  lemma {:induction false} BytesKeepOrder(u: Units, v: Units)
    requires forall i :: 0 <= i < |u| ==> 0 <= u[i] < 0x1_0000
    requires forall i :: 0 <= i < |v| ==> 0 <= v[i] < 0x1_0000
    ensures Before(Bytes(u), Bytes(v)) <==> Before(u, v)
  {
    if u != [] && v != [] {
      BytesKeepOrder(u[1..], v[1..]);
      var a, b := Bytes(u), Bytes(v);
      assert a[1..][1..] == Bytes(u[1..]) && b[1..][1..] == Bytes(v[1..]);
      assert a[0] == u[0] / 0x100 && a[1..][0] == u[0] % 0x100;
      assert b[0] == v[0] / 0x100 && b[1..][0] == v[0] % 0x100;
    }
  }

  lemma KeyOrderIsUnitOrder(k: string, l: string)
    ensures KeyBefore(k, l) <==> Before(Encoded(k), Encoded(l))
  {
    BytesKeepOrder(Encoded(k), Encoded(l));
  }

  lemma UnitsPrefix(c: char, d: char, u: Units, v: Units)
    requires UnitsOf(c) + u == UnitsOf(d) + v
    ensures c == d && u == v
  {
    var a := UnitsOf(c) + u;
    var b := UnitsOf(d) + v;
    assert a[0] == UnitsOf(c)[0] && b[0] == UnitsOf(d)[0];
    assert |UnitsOf(c)| == |UnitsOf(d)|;
    if |UnitsOf(c)| == 2 { assert a[1] == UnitsOf(c)[1] && b[1] == UnitsOf(d)[1]; }
    assert a[|UnitsOf(c)|..] == u && b[|UnitsOf(c)|..] == v;
  }

  lemma {:induction false} EncodedApart(s: string, t: string)
    requires Encoded(s) == Encoded(t)
    ensures s == t
  {
    if s != "" && t != "" {
      UnitsPrefix(s[0], t[0], Encoded(s[1..]), Encoded(t[1..]));
      EncodedApart(s[1..], t[1..]);
      assert s == [s[0]] + s[1..] && t == [t[0]] + t[1..];
    }
  }

  lemma {:induction false} BeforeTotal(a: Units, b: Units)
    ensures Before(a, b) || Before(b, a) || a == b
    ensures !(Before(a, b) && Before(b, a)) && !Before(a, a)
  {
    if a != [] {
      BeforeTotal(a[1..], a[1..]);
      if b != [] {
        BeforeTotal(a[1..], b[1..]);
        assert a == [a[0]] + a[1..] && b == [b[0]] + b[1..];
      }
    }
  }

  lemma {:induction false} BeforeTransitive(a: Units, b: Units, c: Units)
    requires Before(a, b) && Before(b, c)
    ensures Before(a, c)
  {
    if a != [] && b != [] && c != [] && a[0] == b[0] == c[0] { BeforeTransitive(a[1..], b[1..], c[1..]); }
  }

  lemma KeysTotal(k: string, l: string)
    ensures KeyBefore(k, l) || KeyBefore(l, k) || k == l
    ensures !(KeyBefore(k, l) && KeyBefore(l, k)) && !KeyBefore(k, k)
  {
    KeyOrderIsUnitOrder(k, l);
    KeyOrderIsUnitOrder(l, k);
    KeyOrderIsUnitOrder(k, k);
    BeforeTotal(Encoded(k), Encoded(l));
    if Encoded(k) == Encoded(l) { EncodedApart(k, l); }
  }

  lemma KeysTransitive(k: string, l: string, m: string)
    requires KeyBefore(k, l) && KeyBefore(l, m)
    ensures KeyBefore(k, m)
  {
    BeforeTransitive(Bytes(Encoded(k)), Bytes(Encoded(l)), Bytes(Encoded(m)));
  }

  /** Names outside the basic plane sort before some inside it, unlike in code point order. */
  lemma UnitOrderIsNotPointOrder()
    ensures KeyBefore("\U{1F600}", "\U{FB33}") && '\U{FB33}' < '\U{1F600}'
  {
    var k, l := "\U{1F600}", "\U{FB33}";
    KeyOrderIsUnitOrder(k, l);
    assert k[1..] == "" && l[1..] == "";
    assert Encoded(k)[0] == UnitsOf(k[0])[0] && Encoded(l)[0] == UnitsOf(l[0])[0];
  }
}
