/**
 * The canonical JSON text that is signed (RFC 8785): a recursive printer whose output determines the
 * value, and does not depend on the order in which members were inserted.
 */
module Canonical {
  import opened Contracts
  import opened Cursors
  import opened Numbers
  import opened Utf16

  /** A JSON value; the members of an object are in insertion order, with distinct names. */
  datatype Json =
    | Null
    | Bool(b: bool)
    | Str(s: string)
    | Int(n: int)
    | Float(f: Numbers.Float)
    | Arr(items: seq<Json>)
    | Obj(members: seq<Member>)

  datatype Member = Member(name: string, value: Json)

  ghost predicate WellFormed(v: Json) {
    match v
    case Float(f) => f.Normal()
    case Arr(items) => forall i :: 0 <= i < |items| ==> WellFormed(items[i])
    case Obj(members) =>
      && Distinct(members)
      && forall i :: 0 <= i < |members| ==> WellFormed(members[i].value)
    case _ => true
  }

  ghost predicate Distinct(ms: seq<Member>) {
    forall i, j :: 0 <= i < j < |ms| ==> ms[i].name != ms[j].name
  }

  /** No NaN or infinity anywhere. */
  ghost predicate AllFinite(v: Json) {
    match v
    case Float(f) => !f.NotFinite?
    case Arr(items) => forall i :: 0 <= i < |items| ==> AllFinite(items[i])
    case Obj(members) => forall i :: 0 <= i < |members| ==> AllFinite(members[i].value)
    case _ => true
  }

  ghost predicate Printable(v: Json) { WellFormed(v) && AllFinite(v) }

  function Height(v: Json): nat {
    match v
    case Arr(items) => 1 + ItemsHeight(items)
    case Obj(members) => 1 + MembersHeight(members)
    case _ => 0
  }

  function ItemsHeight(items: seq<Json>): nat {
    if items == [] then 0 else Max(Height(items[0]), ItemsHeight(items[1..]))
  }

  function MembersHeight(ms: seq<Member>): nat {
    if ms == [] then 0 else Max(Height(ms[0].value), MembersHeight(ms[1..]))
  }

  // --- Sorting the members ------------------------------------------------------------------------

  function Insert(m: Member, ms: seq<Member>): (r: seq<Member>)
    ensures multiset(r) == multiset([m]) + multiset(ms)
    ensures MembersHeight(r) == Max(Height(m.value), MembersHeight(ms))
  {
    if ms == [] then [m]
    else if KeyBefore(m.name, ms[0].name) then
      assert ([m] + ms)[1..] == ms;
      [m] + ms
    else
      var rest := Insert(m, ms[1..]);
      assert ([ms[0]] + rest)[1..] == rest && ms == [ms[0]] + ms[1..];
      [ms[0]] + rest
  }

  function Sorted(ms: seq<Member>): (r: seq<Member>)
    ensures multiset(r) == multiset(ms)
    ensures forall m :: m in r <==> m in multiset(ms)
    ensures MembersHeight(r) == MembersHeight(ms)
  {
    if ms == [] then []
    else
      assert ms == [ms[0]] + ms[1..];
      Insert(ms[0], Sorted(ms[1..]))
  }

  // --- Printing -------------------------------------------------------------------------------------

  function HexDigit(d: nat): char
    requires d < 16
  {
    "0123456789abcdef"[d]
  }

  /** The letter of a character that has a short escape. */
  function Short(c: char): Option<char> {
    if c == '"' || c == '\\' then Some(c)
    else if c == '\n' then Some('n')
    else if c == '\r' then Some('r')
    else if c == '\t' then Some('t')
    else if c == '\U{0C}' then Some('f')
    else if c == '\U{08}' then Some('b')
    else None
  }

  /** How a character appears inside a JSON string. */
  function Escape(c: char): string {
    if Short(c).Some? then ['\\', Short(c).value]
    else if c < ' ' then "\\u00" + [HexDigit(c as int / 16), HexDigit(c as int % 16)]
    else [c]
  }

  function Escaped(s: string): string {
    if s == "" then "" else Escape(s[0]) + Escaped(s[1..])
  }

  function Quoted(s: string): string { "\"" + Escaped(s) + "\"" }

  function Text(v: Json): string
    requires Printable(v)
    decreases Height(v), 0
  {
    match v
    case Null => "null"
    case Bool(b) => if b then "true" else "false"
    case Str(s) => Quoted(s)
    case Int(n) => IntText(n)
    case Float(f) => EsNumber(f).value
    case Arr(items) => "[" + ItemTexts(items) + "]"
    case Obj(members) => "{" + MemberTexts(Sorted(members)) + "}"
  }

  function ItemTexts(items: seq<Json>): string
    requires forall x :: x in items ==> Printable(x)
    decreases ItemsHeight(items), |items|
  {
    if items == [] then ""
    else if |items| == 1 then Text(items[0])
    else Text(items[0]) + "," + ItemTexts(items[1..])
  }

  function MemberText(m: Member): string
    requires Printable(m.value)
    decreases Height(m.value), 1
  {
    Quoted(m.name) + ":" + Text(m.value)
  }

  function MemberTexts(ms: seq<Member>): string
    requires forall m :: m in ms ==> Printable(m.value)
    decreases MembersHeight(ms), |ms| + 1
  {
    if ms == [] then ""
    else if |ms| == 1 then MemberText(ms[0])
    else MemberText(ms[0]) + "," + MemberTexts(ms[1..])
  }

  /** The canonical text, or `None` when the value holds a NaN or an infinity. */
  ghost function Canon(v: Json): Option<string>
    requires WellFormed(v)
  {
    if AllFinite(v) then Some(Text(v)) else None
  }

  // --- Which values are the same -------------------------------------------------------------------

  predicate IsNumber(v: Json) { v.Int? || v.Float? }

  ghost function NumberOf(v: Json): real
    requires IsNumber(v) && Printable(v)
  {
    if v.Int? then v.n as real else Value(v.f)
  }

  ghost function NumberText(v: Json): string
    requires IsNumber(v) && Printable(v)
  {
    if v.Int? then IntText(v.n) else EsNumber(v.f).value
  }

  /** Equal numbers; an integer and a float only count as the same below ten to the 21st. */
  ghost predicate SameNumber(a: Json, b: Json)
    requires IsNumber(a) && Printable(a) && IsNumber(b) && Printable(b)
  {
    && NumberOf(a) == NumberOf(b)
    && (a.Int? != b.Int? ==> (0 - Power(21)) as real < NumberOf(a) < Power(21) as real)
  }

  /** Equal as JSON values: the order of members does not matter, the order of items does. */
  ghost predicate Same(a: Json, b: Json)
    requires Printable(a) && Printable(b)
  {
    match a
    case Null => b.Null?
    case Bool(_) => b == a
    case Str(_) => b == a
    case Int(_) => IsNumber(b) && SameNumber(a, b)
    case Float(_) => IsNumber(b) && SameNumber(a, b)
    case Arr(xs) =>
      && b.Arr? && |xs| == |b.items|
      && forall i :: 0 <= i < |xs| ==> Same(xs[i], b.items[i])
    case Obj(ms) =>
      && b.Obj? && |ms| == |b.members|
      && forall i :: 0 <= i < |ms| ==> HasPartner(ms[i], b.members)
  }

  /** A member of the same name and the same value. */
  ghost predicate HasPartner(m: Member, ns: seq<Member>)
    requires Printable(m.value) && forall n :: n in ns ==> Printable(n.value)
  {
    exists j :: 0 <= j < |ns| && m.name == ns[j].name && Same(m.value, ns[j].value)
  }

  // --- Numbers --------------------------------------------------------------------------------------

  predicate NumberChar(c: char) { IsDigit(c) || c == '+' || c == '-' || c == '.' || c == 'e' || c == 'E' }

  /** Numbers print alike exactly when they are the same. */
  lemma NumbersPrint(a: Json, b: Json)
    requires IsNumber(a) && Printable(a) && IsNumber(b) && Printable(b)
    ensures NumberText(a) == NumberText(b) <==> SameNumber(a, b)
  {
    hide EsNumber, IntText, Value;
    if a.Int? && b.Int? {
      IntsPrintApart(a.n, b.n);
    } else if a.Int? {
      IntsMeetFloats(a.n, b.f);
      EsNumberDenotes(b.f);
    } else if b.Int? {
      IntsMeetFloats(b.n, a.f);
      EsNumberDenotes(a.f);
    } else {
      FloatsPrintApart(a.f, b.f);
      EsNumberDenotes(a.f);
      EsNumberDenotes(b.f);
      if Value(a.f) == Value(b.f) { ValueUnique(a.f, b.f); }
    }
  }

  lemma BodyChars(digits: string, exp: int)
    requires digits != "" && AllDigits(digits)
    ensures forall i :: 0 <= i < |Body(digits, exp)| ==> NumberChar(Body(digits, exp)[i])
  {
    hide Number, Digits;
    var e := exp + |digits| - 1;
    DigitsDenote(if e >= 0 then e else -e);
  }

  lemma NumberChars(v: Json)
    requires IsNumber(v) && Printable(v)
    ensures NumberText(v) != "" && (NumberText(v)[0] == '-' || IsDigit(NumberText(v)[0]))
    ensures forall i :: 0 <= i < |NumberText(v)| ==> NumberChar(NumberText(v)[i])
  {
    if v.Int? {
      DigitsDenote(if v.n < 0 then -v.n else v.n);
    } else if v.f.Finite? {
      BodyStarts(v.f.digits, v.f.exp);
      BodyChars(v.f.digits, v.f.exp);
      hide Body;
    }
  }

  /** What may follow a value inside a larger text. */
  predicate Closes(x: string) { x == "" || x[0] == ',' || x[0] == ']' || x[0] == '}' }

  function NumberSpan(s: string): nat {
    if s == "" || !NumberChar(s[0]) then 0 else 1 + NumberSpan(s[1..])
  }

  lemma {:induction false} NumberSpanIs(s: string, x: string)
    requires forall i :: 0 <= i < |s| ==> NumberChar(s[i])
    requires Closes(x)
    ensures NumberSpan(s + x) == |s|
  {
    if s == "" {
      assert s + x == x;
    } else {
      assert (s + x)[1..] == s[1..] + x;
      NumberSpanIs(s[1..], x);
    }
  }

  lemma NumberEnds(s: string, t: string, x: string, y: string)
    requires forall i :: 0 <= i < |s| ==> NumberChar(s[i])
    requires forall i :: 0 <= i < |t| ==> NumberChar(t[i])
    requires Closes(x) && Closes(y) && s + x == t + y
    ensures s == t && x == y
  {
    NumberSpanIs(s, x);
    NumberSpanIs(t, y);
    assert s == (s + x)[..|s|] && t == (t + y)[..|t|];
    assert x == (s + x)[|s|..] && y == (t + y)[|t|..];
  }

  // --- Strings --------------------------------------------------------------------------------------

  /** Equal texts that begin with two escapes agree where both escapes reach. */
  lemma EscapeHeads(c: char, d: char, x: string, y: string)
    requires Escape(c) + x == Escape(d) + y
    ensures forall i :: 0 <= i < |Escape(c)| && i < |Escape(d)| ==> Escape(c)[i] == Escape(d)[i]
  {
    hide Escape;
    var a, b := Escape(c), Escape(d);
    forall i | 0 <= i < |a| && i < |b| ensures a[i] == b[i] {
      assert (a + x)[i] == a[i] && (b + y)[i] == b[i];
    }
  }

  lemma ShortForms(c: char)
    ensures Short(c).Some? ==> Short(c).value != 'u'
    ensures Short(c).None? ==> c != '\\'
  {
  }

  lemma ShortApart(c: char, d: char)
    requires Short(c).Some? && Short(c) == Short(d)
    ensures c == d
  {
  }

  lemma HexApart(x: nat, y: nat)
    requires x < 16 && y < 16 && HexDigit(x) == HexDigit(y)
    ensures x == y
  {
  }

  /** Escapes that agree where both reach are of the same character. */
  lemma EscapesApart(c: char, d: char)
    requires forall i :: 0 <= i < |Escape(c)| && i < |Escape(d)| ==> Escape(c)[i] == Escape(d)[i]
    ensures c == d
  {
    hide Short, HexDigit;
    var a, b := Escape(c), Escape(d);
    assert a[0] == b[0] && (|a| > 1 && |b| > 1 ==> a[1] == b[1]);
    ShortForms(c);
    ShortForms(d);
    if Short(c).Some? && Short(d).Some? {
      ShortApart(c, d);
    } else if Short(c).None? && Short(d).None? && c < ' ' && d < ' ' {
      assert a[4] == b[4] && a[5] == b[5];
      HexApart(c as int / 16, d as int / 16);
      HexApart(c as int % 16, d as int % 16);
    }
  }

  lemma EscapeEnds(c: char, d: char, x: string, y: string)
    requires Escape(c) + x == Escape(d) + y
    ensures c == d && x == y
  {
    var a, b := Escape(c), Escape(d);
    EscapeHeads(c, d, x, y);
    assert c == d by { EscapesApart(c, d); }
    assert x == (a + x)[|a|..] && y == (b + y)[|b|..];
  }

  lemma EscapedHead(s: string, x: string)
    ensures (Escaped(s) + "\"" + x)[0] == '"' <==> s == ""
  {
    if s != "" { assert (Escaped(s) + "\"" + x)[0] == Escape(s[0])[0]; }
  }

  lemma {:induction false} EscapedEnds(s: string, t: string, x: string, y: string)
    requires Escaped(s) + "\"" + x == Escaped(t) + "\"" + y
    ensures s == t && x == y
  {
    var u, v := Escaped(s) + "\"" + x, Escaped(t) + "\"" + y;
    EscapedHead(s, x);
    EscapedHead(t, y);
    hide Escape;
    if s == "" {
      assert x == u[1..] && y == v[1..];
    } else {
      assert u == Escape(s[0]) + (Escaped(s[1..]) + "\"" + x);
      assert v == Escape(t[0]) + (Escaped(t[1..]) + "\"" + y);
      EscapeEnds(s[0], t[0], Escaped(s[1..]) + "\"" + x, Escaped(t[1..]) + "\"" + y);
      EscapedEnds(s[1..], t[1..], x, y);
      assert s == [s[0]] + s[1..] && t == [t[0]] + t[1..];
    }
  }

  lemma QuotedEnds(s: string, t: string, x: string, y: string)
    requires Quoted(s) + x == Quoted(t) + y
    ensures s == t && x == y
  {
    assert (Quoted(s) + x)[1..] == Escaped(s) + "\"" + x;
    assert (Quoted(t) + y)[1..] == Escaped(t) + "\"" + y;
    EscapedEnds(s, t, x, y);
  }

  // --- The text determines the value ----------------------------------------------------------------

  datatype Kind = NullKind | TrueKind | FalseKind | StrKind | NumberKind | ArrKind | ObjKind | NoKind

  function KindOf(v: Json): Kind {
    match v
    case Null => NullKind
    case Bool(b) => if b then TrueKind else FalseKind
    case Str(_) => StrKind
    case Int(_) => NumberKind
    case Float(_) => NumberKind
    case Arr(_) => ArrKind
    case Obj(_) => ObjKind
  }

  function HeadKind(c: char): Kind {
    if c == 'n' then NullKind
    else if c == 't' then TrueKind
    else if c == 'f' then FalseKind
    else if c == '"' then StrKind
    else if c == '[' then ArrKind
    else if c == '{' then ObjKind
    else if c == '-' || IsDigit(c) then NumberKind
    else NoKind
  }

  /** The first character tells the kind of value. */
  lemma TextHead(v: Json)
    requires Printable(v)
    ensures Text(v) != "" && HeadKind(Text(v)[0]) == KindOf(v)
  {
    if IsNumber(v) { NumberChars(v); }
    hide IntText, EsNumber, Escaped, Sorted, ItemTexts, MemberTexts;
  }

  lemma SameKind(a: Json, b: Json, x: string, y: string)
    requires Printable(a) && Printable(b) && Text(a) + x == Text(b) + y
    ensures KindOf(a) == KindOf(b)
  {
    TextHead(a);
    TextHead(b);
    hide Text, Printable;
    assert (Text(a) + x)[0] == Text(a)[0] && (Text(b) + y)[0] == Text(b)[0];
  }

  lemma Cancel(p: string, x: string, y: string)
    requires p + x == p + y
    ensures x == y
  {
    assert x == (p + x)[|p|..] && y == (p + y)[|p|..];
  }

  /** Nothing a value can be followed by is lost, nor anything of the value itself. */
  lemma {:induction false} TextDetermines(a: Json, b: Json, x: string, y: string)
    requires Printable(a) && Printable(b) && Closes(x) && Closes(y)
    requires Text(a) + x == Text(b) + y
    ensures Same(a, b) && Text(a) == Text(b) && x == y
    decreases Height(a), 1
  {
    SameKind(a, b, x, y);
    match a
    case Null => Cancel(Text(a), x, y);
    case Bool(_) => Cancel(Text(a), x, y);
    case Str(s) => QuotedEnds(s, b.s, x, y);
    case Int(_) => NumberDetermines(a, b, x, y);
    case Float(_) => NumberDetermines(a, b, x, y);
    case Arr(xs) => ArrDetermines(xs, b.items, x, y);
    case Obj(ms) => ObjDetermines(ms, b.members, x, y);
  }

  lemma NumberDetermines(a: Json, b: Json, x: string, y: string)
    requires Printable(a) && Printable(b) && IsNumber(a) && IsNumber(b) && Closes(x) && Closes(y)
    requires Text(a) + x == Text(b) + y
    ensures Same(a, b) && Text(a) == Text(b) && x == y
  {
    NumberChars(a);
    NumberChars(b);
    assert Text(a) == NumberText(a) && Text(b) == NumberText(b);
    NumberEnds(NumberText(a), NumberText(b), x, y);
    NumbersPrint(a, b);
  }

  lemma {:induction false} ArrDetermines(xs: seq<Json>, ys: seq<Json>, x: string, y: string)
    requires Printable(Arr(xs)) && Printable(Arr(ys))
    requires Text(Arr(xs)) + x == Text(Arr(ys)) + y
    ensures Same(Arr(xs), Arr(ys)) && Text(Arr(xs)) == Text(Arr(ys)) && x == y
    decreases Height(Arr(xs)), 0
  {
    assert Text(Arr(xs)) + x == "[" + (ItemTexts(xs) + "]" + x);
    assert Text(Arr(ys)) + y == "[" + (ItemTexts(ys) + "]" + y);
    Cancel("[", ItemTexts(xs) + "]" + x, ItemTexts(ys) + "]" + y);
    ItemsDetermine(xs, ys, x, y);
  }

  /** A list of items never starts with its closing bracket. */
  lemma ItemsHead(items: seq<Json>, x: string)
    requires forall v :: v in items ==> Printable(v)
    ensures (ItemTexts(items) + "]" + x)[0] == ']' <==> items == []
  {
    if items != [] {
      TextHead(items[0]);
      assert (ItemTexts(items) + "]" + x)[0] == Text(items[0])[0];
    }
  }

  /** What follows the first item: the end of the list, or a comma and the rest. */
  function AfterItem(items: seq<Json>, x: string): string
    requires items != [] && forall v :: v in items ==> Printable(v)
  {
    if |items| == 1 then "]" + x else "," + (ItemTexts(items[1..]) + "]" + x)
  }

  lemma ItemsSplit(items: seq<Json>, x: string)
    requires items != [] && forall v :: v in items ==> Printable(v)
    ensures ItemTexts(items) + "]" + x == Text(items[0]) + AfterItem(items, x)
  {
    hide Text, Printable;
  }

  lemma {:induction false} ItemsDetermine(xs: seq<Json>, ys: seq<Json>, x: string, y: string)
    requires forall v :: v in xs ==> Printable(v)
    requires forall v :: v in ys ==> Printable(v)
    requires ItemTexts(xs) + "]" + x == ItemTexts(ys) + "]" + y
    ensures |xs| == |ys| && x == y && ItemTexts(xs) == ItemTexts(ys)
    ensures forall i :: 0 <= i < |xs| ==> Same(xs[i], ys[i])
    decreases ItemsHeight(xs), |xs| + 1
  {
    ItemsHead(xs, x);
    ItemsHead(ys, y);
    if xs == [] {
      assert "" + "]" + x == "]" + x && "" + "]" + y == "]" + y;
      Cancel("]", x, y);
    } else {
      ItemsSplit(xs, x);
      ItemsSplit(ys, y);
      TextDetermines(xs[0], ys[0], AfterItem(xs, x), AfterItem(ys, y));
      hide Same, Text, Printable;
      assert |xs| == 1 <==> |ys| == 1 by {
        assert AfterItem(xs, x)[0] == ']' <==> |xs| == 1;
        assert AfterItem(ys, y)[0] == ']' <==> |ys| == 1;
      }
      if |xs| == 1 {
        Cancel("]", x, y);
      } else {
        Cancel(",", ItemTexts(xs[1..]) + "]" + x, ItemTexts(ys[1..]) + "]" + y);
        ItemsDetermine(xs[1..], ys[1..], x, y);
        forall i | 0 < i < |xs| ensures Same(xs[i], ys[i]) {
          assert xs[i] == xs[1..][i - 1] && ys[i] == ys[1..][i - 1];
        }
      }
    }
  }

  // --- Members ----------------------------------------------------------------------------------------

  lemma {:induction false} ObjDetermines(ms: seq<Member>, ns: seq<Member>, x: string, y: string)
    requires Printable(Obj(ms)) && Printable(Obj(ns))
    requires Text(Obj(ms)) + x == Text(Obj(ns)) + y
    ensures Same(Obj(ms), Obj(ns)) && Text(Obj(ms)) == Text(Obj(ns)) && x == y
    decreases Height(Obj(ms)), 0
  {
    hide EsNumber;
    SortedPrints(ms, x);
    SortedPrints(ns, y);
    var ss, ts := Sorted(ms), Sorted(ns);
    hide Text, Printable, Same, Sorted, MemberTexts;
    Cancel("{", MemberTexts(ss) + "}" + x, MemberTexts(ts) + "}" + y);
    MembersDetermine(ss, ts, x, y);
    SortedSame(ms, ns);
  }

  lemma SortedPrints(ms: seq<Member>, x: string)
    requires Printable(Obj(ms))
    ensures forall m :: m in Sorted(ms) ==> Printable(m.value)
    ensures Text(Obj(ms)) == "{" + MemberTexts(Sorted(ms)) + "}"
    ensures Text(Obj(ms)) + x == "{" + (MemberTexts(Sorted(ms)) + "}" + x)
  {
    hide Sorted, MemberTexts;
    var t := MemberTexts(Sorted(ms));
    Associate("{", t, "}", x);
  }

  lemma Associate(a: string, b: string, c: string, d: string)
    ensures a + b + c + d == a + (b + c + d)
  {
  }

  lemma SortedHas(ms: seq<Member>)
    ensures |Sorted(ms)| == |ms|
    ensures forall m :: m in Sorted(ms) <==> m in ms
  {
    assert |Sorted(ms)| == |multiset(Sorted(ms))| == |multiset(ms)| == |ms|;
  }

  /** Pairwise the same after sorting is the same as members. */
  lemma SortedSame(ms: seq<Member>, ns: seq<Member>)
    requires Printable(Obj(ms)) && Printable(Obj(ns))
    requires |Sorted(ms)| == |Sorted(ns)|
    requires forall m :: m in Sorted(ms) ==> Printable(m.value)
    requires forall n :: n in Sorted(ns) ==> Printable(n.value)
    requires forall i :: 0 <= i < |Sorted(ms)| ==>
               Sorted(ms)[i].name == Sorted(ns)[i].name && Same(Sorted(ms)[i].value, Sorted(ns)[i].value)
    ensures Same(Obj(ms), Obj(ns))
  {
    SortedHas(ms);
    SortedHas(ns);
    forall i | 0 <= i < |ms| ensures HasPartner(ms[i], ns) {
      hide Same, Printable;
      var j := Partner(ms, ns, Sorted(ms), Sorted(ns), i);
    }
    hide HasPartner, Sorted;
  }

  lemma Partner(ms: seq<Member>, ns: seq<Member>, ss: seq<Member>, ts: seq<Member>, i: nat) returns (j: nat)
    requires i < |ms| && |ss| == |ts|
    requires forall m :: m in ss <==> m in ms
    requires forall n :: n in ts <==> n in ns
    requires forall m :: m in ms ==> Printable(m.value)
    requires forall n :: n in ns ==> Printable(n.value)
    requires forall k :: 0 <= k < |ss| ==> ss[k].name == ts[k].name && Same(ss[k].value, ts[k].value)
    ensures j < |ns| && ms[i].name == ns[j].name && Same(ms[i].value, ns[j].value)
  {
    hide Same, Printable;
    assert ms[i] in ss;
    var k :| 0 <= k < |ss| && ss[k] == ms[i];
    assert ts[k] in ns;
    j :| 0 <= j < |ns| && ns[j] == ts[k];
  }

  lemma MembersHead(ms: seq<Member>, x: string)
    requires forall m :: m in ms ==> Printable(m.value)
    ensures (MemberTexts(ms) + "}" + x)[0] == '}' <==> ms == []
  {
    if ms != [] { assert (MemberTexts(ms) + "}" + x)[0] == MemberText(ms[0])[0] == '"'; }
  }

  function AfterMember(ms: seq<Member>, x: string): string
    requires ms != [] && forall m :: m in ms ==> Printable(m.value)
  {
    if |ms| == 1 then "}" + x else "," + (MemberTexts(ms[1..]) + "}" + x)
  }

  lemma RejoinOne(q: string, t: string, x: string)
    ensures q + ":" + t + "}" + x == q + (":" + (t + ("}" + x)))
  {
  }

  lemma RejoinMore(q: string, t: string, m: string, x: string)
    ensures q + ":" + t + "," + m + "}" + x == q + (":" + (t + ("," + (m + "}" + x))))
  {
    var r := "," + (m + "}" + x);
    assert "," + m + "}" + x == r;
    assert q + ":" + t + "," + m + "}" + x == q + ":" + t + r;
  }

  lemma MembersSplit(ms: seq<Member>, x: string)
    requires ms != [] && forall m :: m in ms ==> Printable(m.value)
    ensures MemberTexts(ms) + "}" + x == Quoted(ms[0].name) + (":" + (Text(ms[0].value) + AfterMember(ms, x)))
  {
    hide Text, Printable, Quoted, MembersHeight;
    if |ms| == 1 { RejoinOne(Quoted(ms[0].name), Text(ms[0].value), x); }
    else { RejoinMore(Quoted(ms[0].name), Text(ms[0].value), MemberTexts(ms[1..]), x); }
  }

  lemma {:induction false} MembersDetermine(ms: seq<Member>, ns: seq<Member>, x: string, y: string)
    requires forall m :: m in ms ==> Printable(m.value)
    requires forall n :: n in ns ==> Printable(n.value)
    requires MemberTexts(ms) + "}" + x == MemberTexts(ns) + "}" + y
    ensures |ms| == |ns| && x == y && MemberTexts(ms) == MemberTexts(ns)
    ensures forall i :: 0 <= i < |ms| ==> ms[i].name == ns[i].name && Same(ms[i].value, ns[i].value)
    decreases MembersHeight(ms), |ms| + 1
  {
    MembersHead(ms, x);
    MembersHead(ns, y);
    if ms == [] {
      assert "" + "}" + x == "}" + x && "" + "}" + y == "}" + y;
      Cancel("}", x, y);
    } else {
      MembersSplit(ms, x);
      MembersSplit(ns, y);
      var a, b := Text(ms[0].value) + AfterMember(ms, x), Text(ns[0].value) + AfterMember(ns, y);
      QuotedEnds(ms[0].name, ns[0].name, ":" + a, ":" + b);
      Cancel(":", a, b);
      TextDetermines(ms[0].value, ns[0].value, AfterMember(ms, x), AfterMember(ns, y));
      hide Same, Text, Printable, Quoted;
      assert |ms| == 1 <==> |ns| == 1 by {
        assert AfterMember(ms, x)[0] == '}' <==> |ms| == 1;
        assert AfterMember(ns, y)[0] == '}' <==> |ns| == 1;
      }
      if |ms| == 1 {
        Cancel("}", x, y);
      } else {
        Cancel(",", MemberTexts(ms[1..]) + "}" + x, MemberTexts(ns[1..]) + "}" + y);
        MembersDetermine(ms[1..], ns[1..], x, y);
        forall i | 0 < i < |ms| ensures ms[i].name == ns[i].name && Same(ms[i].value, ns[i].value) {
          assert ms[i] == ms[1..][i - 1] && ns[i] == ns[1..][i - 1];
        }
      }
    }
  }

  // --- The same value prints the same -----------------------------------------------------------------

  ghost predicate Ascending(ms: seq<Member>) {
    forall i, j :: 0 <= i < j < |ms| ==> KeyBefore(ms[i].name, ms[j].name)
  }

  lemma {:induction false} InsertAscends(m: Member, ms: seq<Member>)
    requires Ascending(ms) && forall x :: x in ms ==> x.name != m.name
    ensures Ascending(Insert(m, ms))
  {
    hide KeyBefore, MembersHeight;
    if ms != [] {
      KeysTotal(m.name, ms[0].name);
      if KeyBefore(m.name, ms[0].name) {
        forall i | 0 < i < |ms| ensures KeyBefore(m.name, ms[i].name) {
          KeysTransitive(m.name, ms[0].name, ms[i].name);
        }
      } else {
        InsertAscends(m, ms[1..]);
        var rest := Insert(m, ms[1..]);
        forall i | 0 <= i < |rest| ensures KeyBefore(ms[0].name, rest[i].name) {
          assert rest[i] in multiset(rest);
        }
      }
    }
  }

  lemma {:induction false} SortedAscends(ms: seq<Member>)
    requires Distinct(ms)
    ensures Ascending(Sorted(ms))
  {
    if ms != [] {
      SortedAscends(ms[1..]);
      forall x | x in Sorted(ms[1..]) ensures x.name != ms[0].name {
        assert x in ms[1..];
      }
      InsertAscends(ms[0], Sorted(ms[1..]));
    }
  }

  ghost function Names(ms: seq<Member>): (ks: seq<string>)
    ensures |ks| == |ms| && forall i :: 0 <= i < |ms| ==> ks[i] == ms[i].name
  {
    seq(|ms|, i requires 0 <= i < |ms| => ms[i].name)
  }

  ghost function NameSet(ms: seq<Member>): set<string> { set m | m in ms :: m.name }

  ghost predicate Rising(ks: seq<string>) {
    forall i, j :: 0 <= i < j < |ks| ==> KeyBefore(ks[i], ks[j])
  }

  /** Two ascending lists of the same names are equal. */
  lemma {:induction false} RisingUnique(ks: seq<string>, ls: seq<string>)
    requires Rising(ks) && Rising(ls) && forall k :: k in ks <==> k in ls
    ensures ks == ls
  {
    hide KeyBefore;
    assert ks != [] ==> ks[0] in ls;
    assert ls != [] ==> ls[0] in ks;
    if ks != [] {
      FirstsAgree(ks, ls);
      forall k ensures k in ks[1..] <==> k in ls[1..] {
        InTail(ks, k);
        InTail(ls, k);
      }
      RisingUnique(ks[1..], ls[1..]);
      assert ks == [ks[0]] + ks[1..] && ls == [ls[0]] + ls[1..];
    }
  }

  lemma FirstsAgree(ks: seq<string>, ls: seq<string>)
    requires Rising(ks) && Rising(ls) && ls != [] && ks != [] && ks[0] in ls && ls[0] in ks
    ensures ks[0] == ls[0]
  {
    hide KeyBefore;
    KeysTotal(ks[0], ls[0]);
  }

  lemma InTail(ks: seq<string>, k: string)
    requires Rising(ks) && ks != []
    ensures k in ks[1..] <==> k in ks && k != ks[0]
  {
    hide KeyBefore;
    KeysTotal(ks[0], ks[0]);
    assert ks == [ks[0]] + ks[1..];
  }

  lemma DistinctCount(ms: seq<Member>) returns (names: set<string>)
    requires Distinct(ms)
    ensures names == NameSet(ms) && |names| == |ms|
  {
    names := NameSet(ms);
    if ms != [] {
      var rest := DistinctCount(ms[1..]);
      assert ms == [ms[0]] + ms[1..];
      forall k ensures k in names <==> k in rest || k == ms[0].name {
        if k in rest { var m :| m in ms[1..] && m.name == k; assert m in ms; }
      }
      forall m | m in ms[1..] ensures m.name != ms[0].name {
        var i :| 0 <= i < |ms[1..]| && ms[1..][i] == m;
        assert ms[i + 1] == m;
      }
      assert names == rest + {ms[0].name};
    }
  }

  /** If every member has a partner among as many, the names are the same. */
  lemma SameNames(ms: seq<Member>, ns: seq<Member>)
    requires Distinct(ms) && Distinct(ns) && |ms| == |ns|
    requires forall m :: m in ms ==> exists j :: 0 <= j < |ns| && ns[j].name == m.name
    ensures NameSet(ms) == NameSet(ns)
  {
    var a := DistinctCount(ms);
    var b := DistinctCount(ns);
    forall k | k in a ensures k in b {
      var m :| m in ms && m.name == k;
      var j :| 0 <= j < |ns| && ns[j].name == m.name;
      assert ns[j] in ns;
    }
    SubsetOfSameSize(a, b);
  }

  lemma {:induction false} SubsetOfSameSize<T>(a: set<T>, b: set<T>)
    requires a <= b && |a| == |b|
    ensures a == b
  {
    assert |b - a| == |b| - |a|;
  }

  /** After sorting, the same names come in the same order. */
  lemma SortedNames(ms: seq<Member>, ns: seq<Member>)
    requires Distinct(ms) && Distinct(ns)
    requires NameSet(ms) == NameSet(ns)
    ensures Names(Sorted(ms)) == Names(Sorted(ns))
  {
    SortedAscends(ms);
    SortedAscends(ns);
    NamesOfSorted(ms);
    NamesOfSorted(ns);
    hide Sorted, Names, KeyBefore, NameSet;
    var ks, ls := Names(Sorted(ms)), Names(Sorted(ns));
    assert Rising(ks) && Rising(ls);
    RisingUnique(ks, ls);
  }

  lemma NamesOfSorted(ms: seq<Member>)
    ensures forall k :: k in Names(Sorted(ms)) <==> k in NameSet(ms)
  {
    SortedHas(ms);
    hide Sorted;
    var ss := Sorted(ms);
    forall k ensures k in Names(ss) <==> k in NameSet(ms) {
      if k in Names(ss) {
        var i :| 0 <= i < |ss| && Names(ss)[i] == k;
        assert ss[i] in ms;
      }
      if m :| m in ms && m.name == k {
        assert m in ss;
        var i :| 0 <= i < |ss| && ss[i] == m;
        assert Names(ss)[i] == k;
      }
    }
  }

  /** The order in which members were inserted does not show. */
  lemma InsertionOrderIrrelevant(ms: seq<Member>, ns: seq<Member>)
    requires Printable(Obj(ms)) && Printable(Obj(ns)) && multiset(ms) == multiset(ns)
    ensures Text(Obj(ms)) == Text(Obj(ns))
  {
    forall m ensures m in ms <==> m in ns {
      assert m in multiset(ms) <==> m in multiset(ns);
    }
    SortedHas(ms);
    SortedHas(ns);
    assert Distinct(ms) && Distinct(ns);
    assert NameSet(ms) == NameSet(ns);
    hide KeyBefore, Sorted, Text, Printable, MemberTexts, Distinct, NameSet, Ascending;
    SortedNames(ms, ns);
    SortedAscends(ns);
    SameByName(Sorted(ms), Sorted(ns));
    SortedPrints(ms, "");
    SortedPrints(ns, "");
  }

  lemma SameByName(ss: seq<Member>, ts: seq<Member>)
    requires Names(ss) == Names(ts) && Ascending(ts) && forall m :: m in ss ==> m in ts
    ensures ss == ts
  {
    hide KeyBefore;
    assert |ss| == |Names(ss)| == |Names(ts)| == |ts|;
    forall i | 0 <= i < |ss| ensures ss[i] == ts[i] {
      assert ss[i] in ts;
      var j :| 0 <= j < |ts| && ts[j] == ss[i];
      assert ss[i].name == Names(ss)[i] == Names(ts)[i] == ts[i].name;
      AscendingAt(ts, i, j);
    }
  }

  lemma AscendingAt(ts: seq<Member>, i: nat, j: nat)
    requires Ascending(ts) && i < |ts| && j < |ts| && ts[i].name == ts[j].name
    ensures i == j
  {
    hide KeyBefore;
    KeysTotal(ts[i].name, ts[j].name);
  }

  /** Values that are the same print the same. */
  lemma {:induction false} SamePrints(a: Json, b: Json)
    requires Printable(a) && Printable(b) && Same(a, b)
    ensures Text(a) == Text(b)
    decreases Height(a), 1
  {
    match a
    case Null =>
    case Bool(_) =>
    case Str(_) =>
    case Int(_) => NumbersPrint(a, b);
    case Float(_) => NumbersPrint(a, b);
    case Arr(xs) => ItemsPrint(xs, b.items);
    case Obj(ms) => ObjPrints(ms, b.members);
  }

  lemma {:induction false} ItemsPrint(xs: seq<Json>, ys: seq<Json>)
    requires |xs| == |ys| && (forall v :: v in xs ==> Printable(v)) && (forall v :: v in ys ==> Printable(v))
    requires forall i :: 0 <= i < |xs| ==> Same(xs[i], ys[i])
    ensures ItemTexts(xs) == ItemTexts(ys)
    decreases ItemsHeight(xs), |xs| + 1
  {
    if xs != [] {
      SamePrints(xs[0], ys[0]);
      hide Same, Printable, Text;
      ItemsPrint(xs[1..], ys[1..]);
    }
  }

  lemma {:induction false} MembersPrint(ms: seq<Member>, ns: seq<Member>)
    requires |ms| == |ns|
    requires forall m :: m in ms ==> Printable(m.value)
    requires forall n :: n in ns ==> Printable(n.value)
    requires forall i :: 0 <= i < |ms| ==> ms[i].name == ns[i].name && Same(ms[i].value, ns[i].value)
    ensures MemberTexts(ms) == MemberTexts(ns)
    decreases MembersHeight(ms), |ms| + 1
  {
    if ms != [] {
      SamePrints(ms[0].value, ns[0].value);
      hide Same, Printable, Text, Quoted;
      MembersPrint(ms[1..], ns[1..]);
    }
  }

  lemma {:induction false} ObjPrints(ms: seq<Member>, ns: seq<Member>)
    requires Printable(Obj(ms)) && Printable(Obj(ns)) && Same(Obj(ms), Obj(ns))
    ensures Text(Obj(ms)) == Text(Obj(ns))
    decreases Height(Obj(ms)), 0
  {
    SortedPrints(ms, "");
    SortedPrints(ns, "");
    SortedHas(ms);
    SortedHas(ns);
    PartnersMeet(ms, ns);
    var ss, ts := Sorted(ms), Sorted(ns);
    hide Text, Printable, Same, Sorted, MemberTexts;
    MembersPrint(ss, ts);
  }

  /** Partners end up at the same place. */
  lemma PartnersMeet(ms: seq<Member>, ns: seq<Member>)
    requires Printable(Obj(ms)) && Printable(Obj(ns)) && Same(Obj(ms), Obj(ns))
    ensures |Sorted(ms)| == |Sorted(ns)|
    ensures forall m :: m in Sorted(ms) ==> Printable(m.value)
    ensures forall n :: n in Sorted(ns) ==> Printable(n.value)
    ensures forall i :: 0 <= i < |Sorted(ms)| ==>
               Sorted(ms)[i].name == Sorted(ns)[i].name && Same(Sorted(ms)[i].value, Sorted(ns)[i].value)
  {
    SortedHas(ms);
    SortedHas(ns);
    Unfolded(ms, ns);
    hide KeyBefore, Sorted, Same, Printable, HasPartner, Ascending, Distinct, NameSet, Names;
    AllPartners(ms, ns);
    SortedNames(ms, ns);
    SortedAscends(ns);
    forall i | 0 <= i < |Sorted(ms)|
      ensures Sorted(ms)[i].name == Sorted(ns)[i].name && Same(Sorted(ms)[i].value, Sorted(ns)[i].value)
    {
      MeetsAt(Sorted(ms), Sorted(ns), ns, i);
    }
  }

  lemma Unfolded(ms: seq<Member>, ns: seq<Member>)
    requires Printable(Obj(ms)) && Printable(Obj(ns)) && Same(Obj(ms), Obj(ns))
    ensures Distinct(ms) && Distinct(ns) && |ms| == |ns|
    ensures forall m :: m in ms ==> Printable(m.value)
    ensures forall n :: n in ns ==> Printable(n.value)
    ensures forall m :: m in ms ==> HasPartner(m, ns)
  {
    hide Distinct, HasPartner;
    forall m | m in ms ensures Printable(m.value) && HasPartner(m, ns) {
      var i :| 0 <= i < |ms| && ms[i] == m;
    }
    forall n | n in ns ensures Printable(n.value) {
      var i :| 0 <= i < |ns| && ns[i] == n;
    }
  }

  lemma AllPartners(ms: seq<Member>, ns: seq<Member>)
    requires Distinct(ms) && Distinct(ns) && |ms| == |ns|
    requires forall m :: m in ms ==> Printable(m.value)
    requires forall n :: n in ns ==> Printable(n.value)
    requires forall m :: m in ms ==> HasPartner(m, ns)
    ensures NameSet(ms) == NameSet(ns)
  {
    hide Same, Printable;
    forall m | m in ms ensures exists j :: 0 <= j < |ns| && ns[j].name == m.name {
      assert HasPartner(m, ns);
    }
    SameNames(ms, ns);
  }

  lemma MeetsAt(ss: seq<Member>, ts: seq<Member>, ns: seq<Member>, i: nat)
    requires i < |ss| && Names(ss) == Names(ts) && Ascending(ts)
    requires forall n :: n in ns <==> n in ts
    requires forall n :: n in ns ==> Printable(n.value)
    requires Printable(ss[i].value) && HasPartner(ss[i], ns)
    ensures i < |ts| && ss[i].name == ts[i].name && Printable(ts[i].value) && Same(ss[i].value, ts[i].value)
  {
    hide KeyBefore, Same, Printable;
    assert |ss| == |Names(ss)| == |Names(ts)| == |ts|;
    var j :| 0 <= j < |ns| && ss[i].name == ns[j].name && Same(ss[i].value, ns[j].value);
    assert ns[j] in ts;
    var k :| 0 <= k < |ts| && ts[k] == ns[j];
    assert ss[i].name == Names(ss)[i] == Names(ts)[i] == ts[i].name;
    AscendingAt(ts, i, k);
    assert ts[i] in ns;
  }

  /**
   * The canonical text determines the value, and the value the text: two values print alike exactly
   * when they are the same JSON value, whatever the order of their members.
   */
  lemma CanonDetermines(a: Json, b: Json)
    requires WellFormed(a) && WellFormed(b) && AllFinite(a) && AllFinite(b)
    ensures Canon(a) == Canon(b) <==> Same(a, b)
  {
    if Canon(a) == Canon(b) {
      assert Text(a) + "" == Text(b) + "";
      TextDetermines(a, b, "", "");
    }
    if Same(a, b) { SamePrints(a, b); }
  }
}
