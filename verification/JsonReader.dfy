/**
 * A reader of JSON texts (RFC 8259, sections 2 to 7, without insignificant whitespace), and what it
 * makes of a canonical text: the value that was printed, with its members in the order of their names.
 */
module JsonReader {
  import opened Contracts
  import opened Cursors
  import opened Numbers
  import opened NumberLayout
  import opened Utf16
  import opened Canonical

  /** What a JSON text says; the members of an object are in the order of the text. */
  datatype Parsed =
    | PNull
    | PBool(b: bool)
    | PStr(s: string)
    | PNumber(r: real)
    | PArr(items: seq<Parsed>)
    | PObj(members: seq<Field>)

  datatype Field = Field(name: string, value: Parsed)

  // --- Strings --------------------------------------------------------------------------------------

  function HexValue(c: char): Option<nat> {
    if '0' <= c <= '9' then Some(c as int - '0' as int)
    else if 'a' <= c <= 'f' then Some(10 + (c as int - 'a' as int))
    else if 'A' <= c <= 'F' then Some(10 + (c as int - 'A' as int))
    else None
  }

  /** The code unit of `\u` and four hexadecimal digits at the start of `s`. */
  function Unit(s: string): (u: Option<nat>)
    ensures u.Some? ==> |s| >= 6 && u.value < 0x1_0000
  {
    if |s| < 6 || s[0] != '\\' || s[1] != 'u' then None
    else
      match (HexValue(s[2]), HexValue(s[3]), HexValue(s[4]), HexValue(s[5]))
      case (Some(a), Some(b), Some(c), Some(d)) => Some(0x1000 * a + 0x100 * b + 0x10 * c + d)
      case _ => None
  }

  /** The character of an escape at the start of `s`, and the length of the escape. */
  function Unescape(s: string): (r: Option<(char, nat)>)
    requires s != ""
    ensures r.Some? ==> 0 < r.value.1 <= |s|
  {
    if |s| < 2 then None
    else if s[1] == '"' then Some((0x22 as char, 2))
    else if s[1] == '\\' then Some((0x5C as char, 2))
    else if s[1] == '/' then Some((0x2F as char, 2))
    else if s[1] == 'b' then Some((0x08 as char, 2))
    else if s[1] == 'f' then Some((0x0C as char, 2))
    else if s[1] == 'n' then Some((0x0A as char, 2))
    else if s[1] == 'r' then Some((0x0D as char, 2))
    else if s[1] == 't' then Some((0x09 as char, 2))
    else
      match Unit(s)
      case None => None
      case Some(u) =>
        if u < 0xD800 || 0xE000 <= u then Some((u as char, 6))
        else if u < 0xDC00 then
          match Unit(s[6..])
          case Some(v) =>
            if 0xDC00 <= v < 0xE000 then Some(((0x1_0000 + (u - 0xD800) * 0x400 + (v - 0xDC00)) as char, 12))
            else None
          case None => None
        else None
  }

  /** The characters of a string up to its closing quote, and the text after that. */
  function Chars(s: string): (r: Option<(string, string)>)
    ensures r.Some? ==> |r.value.1| < |s|
    decreases |s|
  {
    if s == "" then None
    else if s[0] == '"' then Some(("", s[1..]))
    else if s[0] as int < 0x20 then None
    else
      var head := if s[0] == '\\' then Unescape(s) else Some((s[0], 1));
      match head
      case None => None
      case Some((c, n)) =>
        match Chars(s[n..])
        case None => None
        case Some((t, rest)) => Some(([c] + t, rest))
  }

  /** The string a quoted text stands for. */
  function Unquote(s: string): Option<string> {
    if s == "" || s[0] != '"' then None
    else
      match Chars(s[1..])
      case Some((t, rest)) => if rest == "" then Some(t) else None
      case None => None
  }

  // --- Numbers --------------------------------------------------------------------------------------

  predicate ExponentForm(s: string) {
    s == ""
    || (|s| >= 2 && (s[0] == 'e' || s[0] == 'E')
        && var raw := if s[1] == '+' || s[1] == '-' then s[2..] else s[1..]; raw != "" && AllDigits(raw))
  }

  predicate FractionForm(s: string) {
    if s != "" && s[0] == '.' then Span(s[1..]) > 0 && ExponentForm(s[1..][Span(s[1..])..]) else ExponentForm(s)
  }

  /** A minus sign, digits without a superfluous zero, a fraction and an exponent. */
  predicate NumberForm(s: string) {
    var b := if s != "" && s[0] == '-' then s[1..] else s;
    Span(b) > 0 && (b[0] != '0' || Span(b) == 1) && FractionForm(b[Span(b)..])
  }

  // --- Values ---------------------------------------------------------------------------------------

  lemma SpanFits(s: string)
    ensures NumberSpan(s) <= |s|
  {
  }

  function ReadNumber(s: string): (r: Option<(Parsed, string)>)
    ensures r.Some? ==> |r.value.1| < |s|
  {
    SpanFits(s);
    var text := s[..NumberSpan(s)];
    if NumberForm(text) && Denotes(text).Some? then Some((PNumber(Denotes(text).value), s[NumberSpan(s)..])) else None
  }

  /** The value at the start of a text, and the text after it. */
  function Read(s: string): (r: Option<(Parsed, string)>)
    ensures r.Some? ==> |r.value.1| < |s|
    decreases |s|, 0
  {
    if s == "" then None
    else if "null" <= s then Some((PNull, s[4..]))
    else if "true" <= s then Some((PBool(true), s[4..]))
    else if "false" <= s then Some((PBool(false), s[5..]))
    else if s[0] == '"' then
      match Chars(s[1..])
      case Some((t, rest)) => Some((PStr(t), rest))
      case None => None
    else if s[0] == '[' then
      if |s| > 1 && s[1] == ']' then Some((PArr([]), s[2..]))
      else (
        match ReadItems(s[1..])
        case Some((items, rest)) => Some((PArr(items), rest))
        case None => None)
    else if s[0] == '{' then
      if |s| > 1 && s[1] == '}' then Some((PObj([]), s[2..]))
      else (
        match ReadFields(s[1..])
        case Some((fields, rest)) => Some((PObj(fields), rest))
        case None => None)
    else ReadNumber(s)
  }

  /** One item or more, up to the closing bracket. */
  function ReadItems(s: string): (r: Option<(seq<Parsed>, string)>)
    ensures r.Some? ==> |r.value.1| < |s|
    decreases |s|, 1
  {
    match Read(s)
    case None => None
    case Some((item, rest)) =>
      if rest != "" && rest[0] == ']' then Some(([item], rest[1..]))
      else if rest != "" && rest[0] == ',' then
        match ReadItems(rest[1..])
        case Some((items, end)) => Some(([item] + items, end))
        case None => None
      else None
  }

  /** A quoted name, a colon and a value. */
  function ReadField(s: string): (r: Option<(Field, string)>)
    ensures r.Some? ==> |r.value.1| < |s|
    decreases |s|, 1
  {
    if s == "" || s[0] != '"' then None
    else
      match Chars(s[1..])
      case None => None
      case Some((name, rest)) =>
        if rest == "" || rest[0] != ':' then None
        else
          match Read(rest[1..])
          case Some((value, end)) => Some((Field(name, value), end))
          case None => None
  }

  /** One member or more, up to the closing brace. */
  function ReadFields(s: string): (r: Option<(seq<Field>, string)>)
    ensures r.Some? ==> |r.value.1| < |s|
    decreases |s|, 2
  {
    match ReadField(s)
    case None => None
    case Some((field, rest)) =>
      if rest != "" && rest[0] == '}' then Some(([field], rest[1..]))
      else if rest != "" && rest[0] == ',' then
        match ReadFields(rest[1..])
        case Some((fields, end)) => Some(([field] + fields, end))
        case None => None
      else None
  }

  /** What a whole text stands for. */
  function ReadJson(s: string): Option<Parsed> {
    match Read(s)
    case Some((u, rest)) => if rest == "" then Some(u) else None
    case None => None
  }

  // --- Reading a printed string -----------------------------------------------------------------------

  lemma EscapeReads(c: char, x: string)
    ensures var s := Escape(c) + x;
      && s != "" && s[0] != '"' && s[0] as int >= 0x20
      && (if s[0] == '\\' then Unescape(s) else Some((s[0], 1))) == Some((c, |Escape(c)|))
  {
    var s := Escape(c) + x;
    if Short(c).None? && c < ' ' {
      HexReads(c as int / 16);
      HexReads(c as int % 16);
      hide HexDigit, HexValue;
      assert s[1] == 'u' && s[2] == '0' && s[3] == '0';
      assert Unit(s) == Some(c as int) by { HexZero(); }
    }
  }

  lemma HexZero()
    ensures HexValue('0') == Some(0)
  {
  }

  lemma HexReads(d: nat)
    requires d < 16
    ensures HexValue(HexDigit(d)) == Some(d)
  {
  }

  lemma {:induction false} EscapedReads(s: string, x: string)
    ensures Chars(Escaped(s) + "\"" + x) == Some((s, x))
  {
    hide Escape, Unescape;
    var u := Escaped(s) + "\"" + x;
    if s == "" {
      assert u == "\"" + x;
    } else {
      var rest := Escaped(s[1..]) + "\"" + x;
      assert u == Escape(s[0]) + rest;
      EscapeReads(s[0], rest);
      EscapedReads(s[1..], x);
      assert u[|Escape(s[0])|..] == rest && s == [s[0]] + s[1..];
    }
  }

  lemma QuotedReads(s: string, x: string)
    ensures Quoted(s) + x != "" && (Quoted(s) + x)[0] == '"' && Chars((Quoted(s) + x)[1..]) == Some((s, x))
  {
    EscapedReads(s, x);
    assert (Quoted(s) + x)[1..] == Escaped(s) + "\"" + x;
  }

  /** Every string is read back from its quoted text. */
  lemma UnquoteQuoted(s: string)
    ensures Unquote(Quoted(s)) == Some(s)
  {
    QuotedReads(s, "");
    assert Quoted(s) + "" == Quoted(s);
  }

  /** What is read as one character is no shorter than the escape that is printed for it. */
  lemma HeadFits(t: string, c: char, n: nat)
    requires t != "" && t[0] != '"' && t[0] as int >= 0x20
    requires (if t[0] == '\\' then Unescape(t) else Some((t[0], 1))) == Some((c, n))
    ensures |Escape(c)| <= n
  {
    hide Unit;
    EscapeFits(c);
  }

  lemma {:induction false} CharsShortest(t: string, s: string, rest: string)
    requires Chars(t) == Some((s, rest))
    ensures |Escaped(s)| + 1 + |rest| <= |t|
    decreases |t|
  {
    hide Escape, Unescape;
    if t[0] != '"' {
      var (c, n) := (if t[0] == '\\' then Unescape(t) else Some((t[0], 1))).value;
      var (more, end) := Chars(t[n..]).value;
      HeadFits(t, c, n);
      CharsShortest(t[n..], more, end);
      assert s == [c] + more && s[1..] == more;
    }
  }

  /** No quoted text that is read as this string is shorter than the one that is printed. */
  lemma QuotedShortest(s: string, q: string)
    requires Unquote(q) == Some(s)
    ensures |Quoted(s)| <= |q|
  {
    CharsShortest(q[1..], s, "");
  }

  /** An escape takes at most six characters, and its hexadecimal digits are in lower case. */
  lemma EscapeFits(c: char)
    ensures |Escape(c)| <= 6
    ensures |Escape(c)| == 6 ==> forall i :: 0 <= i < 6 ==> !('A' <= Escape(c)[i] <= 'F')
  {
  }

  // --- Reading a printed number -----------------------------------------------------------------------

  lemma PositionalForm(b: string)
    requires Positional(b)
    ensures Span(b) > 0 && (b[0] != '0' || Span(b) == 1) && FractionForm(b[Span(b)..])
  {
    var i := Span(b);
    if i < |b| {
      var f := b[i + 1..];
      SpanIs(f, "");
      assert f + "" == f && b[i..][1..] == f && f[|f|..] == "";
    }
  }

  lemma ScientificForm(b: string)
    requires Scientific(b)
    ensures Span(b) == 1 && b[0] != '0' && FractionForm(b[1..])
  {
    var i := MantissaEnd(b);
    assert b[..1] + b[1..] == b && AllDigits(b[..1]);
    SpanIs(b[..1], b[1..]);
    assert b[i..][2..] == b[i + 2..];
    assert ExponentForm(b[i..]);
    if i > 1 {
      assert b[1..][1..] == b[2..];
      assert b[2..][Span(b[2..])..] == b[i..];
    }
  }

  lemma NumberTextForm(v: Json)
    requires IsNumber(v) && Printable(v)
    ensures NumberForm(NumberText(v)) && Denotes(NumberText(v)) == Some(NumberOf(v))
  {
    hide Positional, Scientific, FractionForm, EsNumber, IntText, Denotes, Value;
    if v.Int? {
      PlainTexts(v.n);
      IntDenotes(v.n);
      PositionalForm(Bare(NumberText(v)));
    } else {
      EsNumberDenotes(v.f);
      if v.f.Finite? {
        LayoutByValue(v.f);
        if 'e' in NumberText(v) { ScientificForm(Bare(NumberText(v))); }
        else { PositionalForm(Bare(NumberText(v))); }
      } else {
        PlainTexts(0);
        PlainPositional("0");
        PositionalForm("0");
      }
    }
  }

  lemma NumberReads(v: Json, x: string)
    requires IsNumber(v) && Printable(v) && Closes(x)
    ensures Read(NumberText(v) + x) == Some((PNumber(NumberOf(v)), x))
  {
    hide NumberForm, Denotes, NumberText, NumberOf;
    var t := NumberText(v);
    NumberTextForm(v);
    NumberChars(v);
    NumberSpanIs(t, x);
    var s := t + x;
    assert s[..|t|] == t && s[|t|..] == x;
    assert s[0] == t[0];
    NoWord(s);
  }

  /** What starts with a digit or a minus sign is read as a number. */
  lemma NoWord(s: string)
    requires s != "" && (s[0] == '-' || IsDigit(s[0]))
    ensures Read(s) == ReadNumber(s)
  {
    hide ReadNumber;
    assert "null"[0] == 'n' && "true"[0] == 't' && "false"[0] == 'f';
  }

  // --- Reading a printed value ------------------------------------------------------------------------

  /** The names rise in the order of their UTF-16 code units. */
  ghost predicate InOrder(fields: seq<Field>) {
    forall i, j :: 0 <= i < j < |fields| ==> Before(Encoded(fields[i].name), Encoded(fields[j].name))
  }

  /** The text says this value: members by name, in order; items at their places; numbers by what they are. */
  ghost predicate Says(u: Parsed, v: Json)
    requires Printable(v)
    decreases v
  {
    match v
    case Null => u.PNull?
    case Bool(b) => u == PBool(b)
    case Str(s) => u == PStr(s)
    case Int(_) => u == PNumber(NumberOf(v))
    case Float(_) => u == PNumber(NumberOf(v))
    case Arr(items) =>
      && u.PArr? && |u.items| == |items|
      && forall i :: 0 <= i < |items| ==> Says(u.items[i], items[i])
    case Obj(members) =>
      && u.PObj? && |u.members| == |members| && InOrder(u.members)
      && forall i :: 0 <= i < |members| ==> SaysMember(u.members, members[i])
  }

  ghost predicate SaysMember(fields: seq<Field>, m: Member)
    requires Printable(m.value)
    decreases m
  {
    exists j :: 0 <= j < |fields| && fields[j].name == m.name && Says(fields[j].value, m.value)
  }

  lemma WordReads(s: string)
    ensures Read("null" + s) == Some((PNull, s))
    ensures Read("true" + s) == Some((PBool(true), s))
    ensures Read("false" + s) == Some((PBool(false), s))
  {
    var a, b, c := "null" + s, "true" + s, "false" + s;
    assert a[4..] == s && b[4..] == s && c[5..] == s;
    assert a[..4] == "null" && b[..4] == "true" && c[..5] == "false";
    assert a[0] == 'n' && b[0] == 't' && c[0] == 'f';
    assert "null"[0] == 'n' && "true"[0] == 't' && "false"[0] == 'f';
  }

  lemma StrReads(t: string, s: string, x: string)
    requires s != "" && s[0] == '"' && Chars(s[1..]) == Some((t, x))
    ensures Read(s) == Some((PStr(t), x))
  {
    assert "null"[0] == 'n' && "true"[0] == 't' && "false"[0] == 'f';
  }

  /** A printed value is read as that value, and what follows it is left. */
  lemma {:induction false} TextReads(v: Json, x: string) returns (u: Parsed)
    requires Printable(v) && Closes(x)
    ensures Read(Text(v) + x) == Some((u, x)) && Says(u, v)
    decreases Height(v), 1
  {
    match v
    case Null => WordReads(x); u := PNull;
    case Bool(b) => WordReads(x); u := PBool(b);
    case Str(s) => QuotedReads(s, x); StrReads(s, Quoted(s) + x, x); u := PStr(s);
    case Int(_) => NumberReads(v, x); u := PNumber(NumberOf(v));
    case Float(_) => NumberReads(v, x); u := PNumber(NumberOf(v));
    case Arr(items) => u := ArrReads(items, x);
    case Obj(members) => u := ObjReads(members, x);
  }

  lemma OpenBracket(s: string)
    requires s != ""
    ensures Read("[" + s)
         == if s[0] == ']' then Some((PArr([]), s[1..]))
            else match ReadItems(s)
                 case Some((items, rest)) => Some((PArr(items), rest))
                 case None => None
  {
    hide ReadNumber, Chars, ReadItems, ReadFields;
    var t := "[" + s;
    assert t[1..] == s && t[2..] == s[1..];
    assert t[0] == '[' && "null"[0] == 'n' && "true"[0] == 't' && "false"[0] == 'f';
  }

  lemma OpenBrace(s: string)
    requires s != ""
    ensures Read("{" + s)
         == if s[0] == '}' then Some((PObj([]), s[1..]))
            else match ReadFields(s)
                 case Some((fields, rest)) => Some((PObj(fields), rest))
                 case None => None
  {
    hide ReadNumber, Chars, ReadItems, ReadFields;
    var t := "{" + s;
    assert t[1..] == s && t[2..] == s[1..];
    assert t[0] == '{' && "null"[0] == 'n' && "true"[0] == 't' && "false"[0] == 'f';
  }

  lemma {:induction false} ArrReads(items: seq<Json>, x: string) returns (u: Parsed)
    requires Printable(Arr(items))
    ensures Read(Text(Arr(items)) + x) == Some((u, x)) && Says(u, Arr(items))
    decreases Height(Arr(items)), 0
  {
    hide Read, ReadItems;
    var s := ItemTexts(items) + "]" + x;
    assert Text(Arr(items)) + x == "[" + s;
    OpenBracket(s);
    ItemsHead(items, x);
    if items == [] {
      assert s == "]" + x;
      u := PArr([]);
    } else {
      var us := ItemsRead(items, x);
      u := PArr(us);
    }
  }

  lemma ItemsStep(s: string, u: Parsed, rest: string)
    requires Read(s) == Some((u, rest)) && rest != ""
    ensures rest[0] == ']' ==> ReadItems(s) == Some(([u], rest[1..]))
    ensures rest[0] == ',' && ReadItems(rest[1..]).Some? ==>
              ReadItems(s) == Some(([u] + ReadItems(rest[1..]).value.0, ReadItems(rest[1..]).value.1))
  {
    hide Read;
  }

  lemma {:induction false} ItemsRead(items: seq<Json>, x: string) returns (us: seq<Parsed>)
    requires items != [] && forall v :: v in items ==> Printable(v)
    ensures ReadItems(ItemTexts(items) + "]" + x) == Some((us, x))
    ensures |us| == |items| && forall i :: 0 <= i < |items| ==> Says(us[i], items[i])
    decreases ItemsHeight(items), |items| + 1
  {
    hide Read, ReadItems;
    var s, after := ItemTexts(items) + "]" + x, AfterItem(items, x);
    ItemsSplit(items, x);
    var u := TextReads(items[0], after);
    hide Text, Printable, Says;
    ItemsStep(s, u, after);
    if |items| == 1 {
      us := [u];
      assert after[1..] == x;
    } else {
      var rest := ItemsRead(items[1..], x);
      assert after[1..] == ItemTexts(items[1..]) + "]" + x;
      us := [u] + rest;
    }
  }

  lemma FieldReads(m: Member, x: string) returns (f: Field)
    requires Printable(m.value) && Closes(x)
    ensures f.name == m.name && Says(f.value, m.value)
    ensures ReadField(Quoted(m.name) + (":" + (Text(m.value) + x))) == Some((f, x))
    decreases Height(m.value), 2
  {
    hide Quoted;
    var rest := ":" + (Text(m.value) + x);
    QuotedReads(m.name, rest);
    var u := TextReads(m.value, x);
    hide Read, Text, Says, Printable;
    assert rest[1..] == Text(m.value) + x;
    f := Field(m.name, u);
  }

  lemma FieldsStep(s: string, f: Field, rest: string)
    requires ReadField(s) == Some((f, rest)) && rest != ""
    ensures rest[0] == '}' ==> ReadFields(s) == Some(([f], rest[1..]))
    ensures rest[0] == ',' && ReadFields(rest[1..]).Some? ==>
              ReadFields(s) == Some(([f] + ReadFields(rest[1..]).value.0, ReadFields(rest[1..]).value.1))
  {
    hide ReadField;
  }

  lemma {:induction false} FieldsRead(ms: seq<Member>, x: string) returns (fs: seq<Field>)
    requires ms != [] && forall m :: m in ms ==> Printable(m.value)
    ensures ReadFields(MemberTexts(ms) + "}" + x) == Some((fs, x))
    ensures |fs| == |ms| && forall i :: 0 <= i < |ms| ==> fs[i].name == ms[i].name && Says(fs[i].value, ms[i].value)
    decreases MembersHeight(ms), |ms| + 2
  {
    hide ReadField, ReadFields;
    var s, after := MemberTexts(ms) + "}" + x, AfterMember(ms, x);
    MembersSplit(ms, x);
    var f := FieldReads(ms[0], after);
    hide Text, Printable, Says, Quoted;
    FieldsStep(s, f, after);
    if |ms| == 1 {
      fs := [f];
      assert after[1..] == x;
    } else {
      var rest := FieldsRead(ms[1..], x);
      assert after[1..] == MemberTexts(ms[1..]) + "}" + x;
      fs := [f] + rest;
    }
  }

  lemma {:induction false} ObjReads(ms: seq<Member>, x: string) returns (u: Parsed)
    requires Printable(Obj(ms))
    ensures Read(Text(Obj(ms)) + x) == Some((u, x)) && Says(u, Obj(ms))
    decreases Height(Obj(ms)), 0
  {
    hide Read, ReadFields, Text, Sorted, MemberTexts, Printable;
    var ss := Sorted(ms);
    SortedPrints(ms, x);
    var s := MemberTexts(ss) + "}" + x;
    OpenBrace(s);
    MembersHead(ss, x);
    var fs: seq<Field>;
    if ss == [] {
      fs := [];
      NoMembers();
      assert s == "}" + x;
    } else {
      fs := FieldsRead(ss, x);
    }
    u := PObj(fs);
    ObjSays(ms, fs);
  }

  lemma NoMembers()
    ensures MemberTexts([]) == ""
  {
  }

  lemma ObjSays(ms: seq<Member>, fs: seq<Field>)
    requires Printable(Obj(ms)) && |fs| == |Sorted(ms)| && forall m :: m in Sorted(ms) ==> Printable(m.value)
    requires forall i :: 0 <= i < |fs| ==> fs[i].name == Sorted(ms)[i].name && Says(fs[i].value, Sorted(ms)[i].value)
    ensures Says(PObj(fs), Obj(ms))
  {
    SortedHas(ms);
    SortedAscends(ms);
    hide Sorted, KeyBefore;
    forall i, j | 0 <= i < j < |fs| ensures Before(Encoded(fs[i].name), Encoded(fs[j].name)) {
      KeyOrderIsUnitOrder(fs[i].name, fs[j].name);
    }
    forall i | 0 <= i < |ms| ensures SaysMember(fs, ms[i]) {
      var j :| 0 <= j < |Sorted(ms)| && Sorted(ms)[j] == ms[i];
      assert Says(fs[j].value, ms[i].value);
    }
  }

  /**
   * The canonical text is JSON for the value: a reader made from the grammar alone gets back the words,
   * strings, numbers, items and members that were printed, with the names in code unit order.
   */
  lemma JsonForValue(v: Json)
    requires WellFormed(v) && AllFinite(v)
    ensures Canon(v).Some? && ReadJson(Canon(v).value).Some? && Says(ReadJson(Canon(v).value).value, v)
  {
    var u := TextReads(v, "");
    assert Text(v) + "" == Text(v);
  }
}
