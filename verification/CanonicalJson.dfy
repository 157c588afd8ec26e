/** The canonical JSON texts that are hashed to identify a plan or an approval payload. Both files that
    write one sort object keys and drop `undefined` properties; they differ in the order of the keys and
    in what they write for an `undefined` array element: `null` or nothing. For each text, two values are
    shown to share it exactly when they are the same up to what it leaves out. */
module CanonicalJson {
  import opened Sorting
  import opened Lists

  /** JavaScript strings are sequences of UTF-16 code units. */
  newtype CodeUnit = u: int | 0 <= u < 0x1_0000
  type Text = seq<CodeUnit>

  const QUOTE: CodeUnit := '\"' as CodeUnit
  const BACKSLASH: CodeUnit := '\\' as CodeUnit
  const COMMA: CodeUnit := ',' as CodeUnit
  const COLON: CodeUnit := ':' as CodeUnit
  const LBRACKET: CodeUnit := '[' as CodeUnit
  const RBRACKET: CodeUnit := ']' as CodeUnit
  const LBRACE: CodeUnit := '{' as CodeUnit
  const RBRACE: CodeUnit := '}' as CodeUnit
  const LOWER_U: CodeUnit := 'u' as CodeUnit
  const NULL_TEXT: Text := ['n' as CodeUnit, 'u' as CodeUnit, 'l' as CodeUnit, 'l' as CodeUnit]
  const TRUE_TEXT: Text := ['t' as CodeUnit, 'r' as CodeUnit, 'u' as CodeUnit, 'e' as CodeUnit]
  const FALSE_TEXT: Text := ['f' as CodeUnit, 'a' as CodeUnit, 'l' as CodeUnit, 's' as CodeUnit, 'e' as CodeUnit]

  predicate IsDigit(u: CodeUnit) {
    '0' as CodeUnit <= u <= '9' as CodeUnit
  }

  predicate NumeralUnit(u: CodeUnit) {
    IsDigit(u) || u in ['+' as CodeUnit, '-' as CodeUnit, '.' as CodeUnit, 'e' as CodeUnit]
  }

  predicate IsNumeral(t: Text) {
    && t != []
    && (IsDigit(t[0]) || t[0] == '-' as CodeUnit)
    && forall u :: u in t ==> NumeralUnit(u)
  }

  /** A finite number stands for itself by the text `Number::toString` gives it. */
  type Numeral = t: Text | IsNumeral(t) witness ['0' as CodeUnit]

  datatype Json =
    | Undef
    | Null
    | Bool(b: bool)
    | Num(numeral: Numeral)
    | Str(text: Text)
    | Arr(items: seq<Json>)
    | Obj(entries: seq<Entry>)

  /** One own enumerable property, in the order `Object.entries` lists it. */
  datatype Entry = Entry(key: Text, value: Json)

  ghost predicate DistinctKeys(entries: seq<Entry>) {
    forall i, j :: 0 <= i < j < |entries| ==> entries[i].key != entries[j].key
  }

  /** An object never has one key twice. */
  ghost predicate WellFormed(v: Json) {
    match v
    case Arr(items) => forall x :: x in items ==> WellFormed(x)
    case Obj(entries) =>
      && DistinctKeys(entries)
      && (forall e :: e in entries ==> WellFormed(e.value))
    case _ => true
  }

  // ---------------------------------------------------------------- string escaping

  predicate IsHigh(u: CodeUnit) {
    0xD800 <= u < 0xDC00
  }

  predicate IsLow(u: CodeUnit) {
    0xDC00 <= u < 0xE000
  }

  function HexDigit(d: CodeUnit): CodeUnit
    requires d < 16
  {
    if d < 10 then '0' as CodeUnit + d else 'a' as CodeUnit + (d - 10)
  }

  /** `\\u` and four lower-case hexadecimal digits. */
  function UnicodeEscape(u: CodeUnit): Text {
    var high := u / 16 / 16;
    [BACKSLASH, LOWER_U, HexDigit(high / 16), HexDigit(high % 16), HexDigit(u / 16 % 16), HexDigit(u % 16)]
  }

  /** The second unit of a two-unit escape, or 0 when the unit has no such escape. */
  function ShortEscape(u: CodeUnit): CodeUnit {
    if u == 8 then 'b' as CodeUnit
    else if u == 9 then 't' as CodeUnit
    else if u == 10 then 'n' as CodeUnit
    else if u == 12 then 'f' as CodeUnit
    else if u == 13 then 'r' as CodeUnit
    else if u == QUOTE then QUOTE
    else if u == BACKSLASH then BACKSLASH
    else 0
  }

  /** A unit that is not part of a surrogate pair. */
  function EscapeUnit(u: CodeUnit): Text {
    if ShortEscape(u) != 0 then [BACKSLASH, ShortEscape(u)]
    else if u < 0x20 || IsHigh(u) || IsLow(u) then UnicodeEscape(u)
    else [u]
  }

  predicate StartsPair(s: Text) {
    |s| >= 2 && IsHigh(s[0]) && IsLow(s[1])
  }

  /** How many units of a nonempty text the next escape covers, and what it becomes. */
  function TokenLength(s: Text): (n: nat)
    requires s != []
    ensures 1 <= n <= |s|
  {
    if StartsPair(s) then 2 else 1
  }

  function Token(s: Text): Text
    requires s != []
  {
    if StartsPair(s) then s[..2] else EscapeUnit(s[0])
  }

  function Escape(s: Text): Text {
    if s == [] then [] else Token(s) + Escape(s[TokenLength(s)..])
  }

  /** `JSON.stringify` of a string. */
  function Quote(s: Text): Text {
    [QUOTE] + Escape(s) + [QUOTE]
  }

  // ---------------------------------------------------------------- canonical text

  /** A rendered object entry. The comparator of the source reads the key alone, so entries may be
      rendered before they are sorted. */
  datatype Part = Part(key: Text, text: Text)

  type KeyOrder = (Text, Text) -> bool

  function PartOrder(le: KeyOrder): (Part, Part) -> bool {
    (p: Part, q: Part) => le(p.key, q.key)
  }

  /** What an undefined array element becomes: `null` in `branches.ts`; nothing in `runs.ts`, because
      `join` renders it so. */
  datatype Holes = AsNull | AsNothing

  /** How the two files write: their order of keys, and their undefined elements. */
  datatype Style = Style(le: KeyOrder, holes: Holes)

  function Stringify(v: Json, style: Style): Text
    decreases v, 0
  {
    match v
    case Undef => if style.holes.AsNull? then NULL_TEXT else []
    case Null => NULL_TEXT
    case Bool(b) => if b then TRUE_TEXT else FALSE_TEXT
    case Num(t) => t
    case Str(s) => Quote(s)
    case Arr(items) => [LBRACKET] + Join(Texts(items, style), [COMMA]) + [RBRACKET]
    case Obj(entries) => [LBRACE] + Join(PartTexts(SortedParts(entries, style)), [COMMA]) + [RBRACE]
  }

  function Texts(items: seq<Json>, style: Style): (ts: seq<Text>)
    ensures |ts| == |items| && forall i :: 0 <= i < |items| ==> ts[i] == Stringify(items[i], style)
    decreases items
  {
    if items == [] then [] else [Stringify(items[0], style)] + Texts(items[1..], style)
  }

  function Parts(entries: seq<Entry>, style: Style): seq<Part>
    decreases entries, 0
  {
    if entries == [] then []
    else
      (if entries[0].value.Undef? then [] else [Part(entries[0].key, Stringify(entries[0].value, style))])
      + Parts(entries[1..], style)
  }

  function SortedParts(entries: seq<Entry>, style: Style): seq<Part>
    decreases entries, 1
  {
    Sort(Parts(entries, style), PartOrder(style.le))
  }

  function PartText(p: Part): Text {
    Quote(p.key) + ([COLON] + p.text)
  }

  function PartTexts(parts: seq<Part>): (ts: seq<Text>)
    ensures |ts| == |parts| && forall i :: 0 <= i < |parts| ==> ts[i] == PartText(parts[i])
  {
    seq(|parts|, i requires 0 <= i < |parts| => PartText(parts[i]))
  }

  /** Neither shows anything between its brackets when holes are left empty. */
  predicate Blank(items: seq<Json>) {
    items == [] || (|items| == 1 && items[0].Undef?)
  }

  /** Equality up to key order and undefined entries. An undefined array element counts as `null` where
      it is written so; where it is left empty it matches only another one, but an array that holds
      nothing else cannot be told from the empty array. */
  ghost predicate Equiv(a: Json, b: Json, holes: Holes) {
    match a
    case Undef => b.Undef? || (holes.AsNull? && b.Null?)
    case Null => b.Null? || (holes.AsNull? && b.Undef?)
    case Bool(_) => a == b
    case Num(_) => a == b
    case Str(_) => a == b
    case Arr(xs) =>
      && b.Arr?
      && (|| (|xs| == |b.items| && forall i :: 0 <= i < |xs| ==> Equiv(xs[i], b.items[i], holes))
          || (holes.AsNothing? && Blank(xs) && Blank(b.items)))
    case Obj(es) =>
      && b.Obj?
      && (forall k :: Lookup(es, k).Undef? <==> Lookup(b.entries, k).Undef?)
      && (forall e :: e in es ==> Equiv(e.value, Lookup(b.entries, e.key), holes))
  }

  /** `object[key]`. */
  function Lookup(entries: seq<Entry>, key: Text): Json {
    if entries == [] then Undef
    else if entries[0].key == key then entries[0].value
    else Lookup(entries[1..], key)
  }

  lemma {:induction false} LookupFinds(entries: seq<Entry>, e: Entry)
    requires DistinctKeys(entries) && e in entries
    ensures Lookup(entries, e.key) == e.value
  {
    if e != entries[0] {
      var j :| 0 < j < |entries| && entries[j] == e;
      LookupFinds(entries[1..], e);
    }
  }

  lemma {:induction false} LookupOrigin(entries: seq<Entry>, key: Text)
    requires !Lookup(entries, key).Undef?
    ensures Entry(key, Lookup(entries, key)) in entries
  {
    if entries[0].key != key {
      LookupOrigin(entries[1..], key);
    } else {
      assert entries[0] == Entry(key, Lookup(entries, key));
    }
  }

  // ---------------------------------------------------------------- the text determines the value

  lemma UnicodeEscapeInjective(u: CodeUnit, w: CodeUnit)
    requires UnicodeEscape(u) == UnicodeEscape(w)
    ensures u == w
  {
    var a, b := UnicodeEscape(u), UnicodeEscape(w);
    assert a[2] == b[2] && a[3] == b[3] && a[4] == b[4] && a[5] == b[5];
    assert u / 16 / 16 == w / 16 / 16;
    assert u / 16 == w / 16;
  }

  /** No escape of a unit is a proper prefix of another. */
  lemma EscapeUnitPrefixFree(u: CodeUnit, w: CodeUnit, r: Text, t: Text)
    requires EscapeUnit(u) + r == EscapeUnit(w) + t
    ensures u == w && r == t
  {
    var x, y := EscapeUnit(u) + r, EscapeUnit(w) + t;
    assert x[0] == EscapeUnit(u)[0] && y[0] == EscapeUnit(w)[0];
    if |EscapeUnit(u)| >= 2 {
      assert x[1] == EscapeUnit(u)[1];
      assert |EscapeUnit(w)| >= 2 && y[1] == EscapeUnit(w)[1];
      assert EscapeUnit(u) == x[..|EscapeUnit(u)|] && EscapeUnit(w) == y[..|EscapeUnit(w)|];
      if |EscapeUnit(u)| == 6 {
        UnicodeEscapeInjective(u, w);
      }
    }
    assert r == x[|EscapeUnit(u)|..] && t == y[|EscapeUnit(w)|..];
  }

  lemma TokenPrefixFree(s: Text, t: Text, r: Text, q: Text)
    requires s != [] && t != [] && Token(s) + r == Token(t) + q
    ensures TokenLength(s) == TokenLength(t) && s[..TokenLength(s)] == t[..TokenLength(t)] && r == q
  {
    var x, y := Token(s) + r, Token(t) + q;
    assert x[0] == Token(s)[0] && y[0] == Token(t)[0];
    assert StartsPair(s) == StartsPair(t);
    if StartsPair(s) {
      assert s[..2] == x[..2] && t[..2] == y[..2];
      assert r == x[2..] && q == y[2..];
    } else {
      EscapeUnitPrefixFree(s[0], t[0], r, q);
    }
  }

  lemma SplitEqually(p: Text, r: Text, q: Text, s: Text)
    requires |p| == |q| && p + r == q + s
    ensures p == q && r == s
  {
    assert p == (p + r)[..|p|] && q == (q + s)[..|q|];
    assert r == (p + r)[|p|..] && s == (q + s)[|q|..];
  }

  lemma Regrouped(a: Text, b: Text, c: Text)
    ensures a + b + c == a + (b + c)
  {
  }

  lemma TokenStart(s: Text)
    requires s != []
    ensures Token(s) != [] && Token(s)[0] != QUOTE
  {
  }

  lemma EscapeUnrolled(s: Text, q: Text)
    requires s != []
    ensures Escape(s) + q == Token(s) + (Escape(s[TokenLength(s)..]) + q)
  {
    hide Token, TokenLength;
    Regrouped(Token(s), Escape(s[TokenLength(s)..]), q);
  }

  /** The closing quote tells where an escaped text ends. */
  lemma EscapeEnds(s: Text, r: Text)
    ensures s == [] ==> Escape(s) + ([QUOTE] + r) == [QUOTE] + r
    ensures (Escape(s) + ([QUOTE] + r))[0] == QUOTE <==> s == []
  {
    if s != [] {
      EscapeUnrolled(s, [QUOTE] + r);
      TokenStart(s);
      hide Escape, Token, TokenLength;
    }
  }

  lemma {:induction false} EscapePrefixFree(s: Text, t: Text, r: Text, q: Text)
    requires Escape(s) + ([QUOTE] + r) == Escape(t) + ([QUOTE] + q)
    ensures s == t && r == q
    decreases |s| + |t|
  {
    EscapeEnds(s, r);
    EscapeEnds(t, q);
    hide Escape, Token, TokenLength;
    if s == [] {
      SplitEqually([QUOTE], r, [QUOTE], q);
    } else {
      EscapeUnrolled(s, [QUOTE] + r);
      EscapeUnrolled(t, [QUOTE] + q);
      var n, m := TokenLength(s), TokenLength(t);
      TokenPrefixFree(s, t, Escape(s[n..]) + ([QUOTE] + r), Escape(t[m..]) + ([QUOTE] + q));
      EscapePrefixFree(s[n..], t[m..], r, q);
      assert s == s[..n] + s[n..] && t == t[..m] + t[m..];
    }
  }

  lemma QuotePrefixFree(s: Text, t: Text, r: Text, q: Text)
    requires Quote(s) + r == Quote(t) + q
    ensures s == t && r == q
  {
    hide Quote;
    QuoteRegrouped(s, r);
    QuoteRegrouped(t, q);
    SplitEqually([QUOTE], Escape(s) + ([QUOTE] + r), [QUOTE], Escape(t) + ([QUOTE] + q));
    EscapePrefixFree(s, t, r, q);
  }

  lemma QuoteRegrouped(s: Text, r: Text)
    ensures Quote(s) + r == [QUOTE] + (Escape(s) + ([QUOTE] + r))
  {
    hide Escape;
    Regrouped([QUOTE] + Escape(s), [QUOTE], r);
    Regrouped([QUOTE], Escape(s), [QUOTE] + r);
  }

  /** What can follow a value inside a larger text. */
  predicate Delimited(r: Text) {
    r == [] || r[0] in [COMMA, RBRACKET, RBRACE]
  }

  lemma {:induction false} NumeralPrefixFree(t: Text, u: Text, r: Text, s: Text)
    requires (forall x :: x in t ==> NumeralUnit(x)) && (forall x :: x in u ==> NumeralUnit(x))
    requires Delimited(r) && Delimited(s) && t + r == u + s
    ensures t == u && r == s
  {
    assert t != [] ==> (t + r)[0] == t[0] && t[0] in t;
    assert u != [] ==> (u + s)[0] == u[0] && u[0] in u;
    assert t == [] ==> t + r == r;
    assert u == [] ==> u + s == s;
    if t != [] {
      assert (t + r)[1..] == t[1..] + r && (u + s)[1..] == u[1..] + s;
      NumeralPrefixFree(t[1..], u[1..], r, s);
      assert t == [t[0]] + t[1..] && u == [u[0]] + u[1..];
    }
  }

  /** The first unit tells what kind of value follows; only a hole may be written as nothing. */
  lemma FirstUnit(v: Json, style: Style)
    ensures Stringify(v, style) == [] <==> v.Undef? && style.holes.AsNothing?
    ensures Stringify(v, style) != [] ==>
              var c := Stringify(v, style)[0];
              match v
              case Undef => c == 'n' as CodeUnit
              case Null => c == 'n' as CodeUnit
              case Bool(b) => c == (if b then 't' as CodeUnit else 'f' as CodeUnit)
              case Num(_) => IsDigit(c) || c == '-' as CodeUnit
              case Str(_) => c == QUOTE
              case Arr(_) => c == LBRACKET
              case Obj(_) => c == LBRACE
  {
  }

  /** No value starts like a delimiter. */
  lemma NotDelimited(v: Json, style: Style)
    ensures Stringify(v, style) == [] || !Delimited(Stringify(v, style))
  {
    FirstUnit(v, style);
    hide Stringify;
  }

  lemma {:induction false} PartsOrigin(entries: seq<Entry>, style: Style, p: Part) returns (e: Entry)
    requires p in Parts(entries, style)
    ensures e in entries && !e.value.Undef? && p == Part(e.key, Stringify(e.value, style))
    decreases entries
  {
    if !entries[0].value.Undef? && p == Part(entries[0].key, Stringify(entries[0].value, style)) {
      e := entries[0];
    } else {
      assert p in Parts(entries[1..], style);
      e := PartsOrigin(entries[1..], style, p);
    }
  }

  lemma {:induction false} PartsImage(entries: seq<Entry>, style: Style, e: Entry)
    requires e in entries && !e.value.Undef?
    ensures Part(e.key, Stringify(e.value, style)) in Parts(entries, style)
    decreases entries
  {
    if e != entries[0] {
      PartsImage(entries[1..], style, e);
    }
  }

  /** Before a delimiter, the two texts cannot run into each other. */
  ghost predicate PrefixFree(t: Text, u: Text) {
    forall r, s :: Delimited(r) && Delimited(s) && t + r == u + s ==> t == u && r == s
  }

  /** The texts of the members of an array or object: none starts like a delimiter. */
  ghost predicate Separable(ts: seq<Text>, us: seq<Text>) {
    && (forall t :: t in ts ==> t == [] || !Delimited(t))
    && (forall u :: u in us ==> u == [] || !Delimited(u))
    && (forall t, u :: t in ts && u in us ==> PrefixFree(t, u))
  }

  /** What can be read back of a list of texts: n texts are joined by n - 1 commas, so that only a lone
      empty text is lost. */
  function Shown(ts: seq<Text>): seq<Text> {
    if |ts| == 1 && ts[0] == [] then [] else ts
  }

  /** The text of a joined list closed by `c`, split after its first member. */
  lemma JoinFirst(ts: seq<Text>, c: CodeUnit, r: Text) returns (tail: Text)
    requires c in [RBRACKET, RBRACE]
    requires forall t :: t in ts ==> t == [] || !Delimited(t)
    ensures (Join(ts, [COMMA]) + ([c] + r))[0] == c <==> Shown(ts) == []
    ensures Shown(ts) == [] ==> Join(ts, [COMMA]) + ([c] + r) == [c] + r
    ensures ts != [] ==> Join(ts, [COMMA]) + ([c] + r) == ts[0] + tail && Delimited(tail)
    ensures |ts| == 1 ==> tail == [c] + r
    ensures |ts| > 1 ==> tail == [COMMA] + (Join(ts[1..], [COMMA]) + ([c] + r))
  {
    tail := if |ts| <= 1 then [c] + r else [COMMA] + (Join(ts[1..], [COMMA]) + ([c] + r));
    if ts != [] {
      assert Join(ts, [COMMA]) + ([c] + r) == ts[0] + tail;
      assert ts[0] in ts;
    }
  }

  lemma {:induction false} JoinPrefixFree(ts: seq<Text>, us: seq<Text>, c: CodeUnit, r: Text, s: Text)
    requires c in [RBRACKET, RBRACE] && Separable(ts, us)
    requires Join(ts, [COMMA]) + ([c] + r) == Join(us, [COMMA]) + ([c] + s)
    ensures Shown(ts) == Shown(us) && r == s
  {
    var t := JoinFirst(ts, c, r);
    var u := JoinFirst(us, c, s);
    if Shown(ts) == [] {
      SplitEqually([c], r, [c], s);
    } else {
      assert PrefixFree(ts[0], us[0]);
      assert t == u && t[0] == u[0];
      assert ts == [ts[0]] + ts[1..] && us == [us[0]] + us[1..];
      if |ts| > 1 {
        SplitEqually([COMMA], Join(ts[1..], [COMMA]) + ([c] + r), [COMMA], Join(us[1..], [COMMA]) + ([c] + s));
        assert forall x :: x in ts[1..] ==> x in ts;
        assert forall x :: x in us[1..] ==> x in us;
        JoinPrefixFree(ts[1..], us[1..], c, r, s);
      } else {
        SplitEqually([c], r, [c], s);
      }
    }
  }

  lemma PartTextsAgree(p: Part, q: Part, r: Text, s: Text)
    requires PrefixFree(p.text, q.text) && Delimited(r) && Delimited(s)
    requires PartText(p) + r == PartText(q) + s
    ensures p == q && r == s
  {
    hide Quote;
    Regrouped(Quote(p.key), [COLON] + p.text, r);
    Regrouped([COLON], p.text, r);
    Regrouped(Quote(q.key), [COLON] + q.text, s);
    Regrouped([COLON], q.text, s);
    QuotePrefixFree(p.key, q.key, [COLON] + (p.text + r), [COLON] + (q.text + s));
    SplitEqually([COLON], p.text + r, [COLON], q.text + s);
  }

  lemma PartTextPrefixFree(p: Part, q: Part)
    requires PrefixFree(p.text, q.text)
    ensures PrefixFree(PartText(p), PartText(q))
    ensures PartText(p) == PartText(q) ==> p == q
  {
    forall r, s | Delimited(r) && Delimited(s) && PartText(p) + r == PartText(q) + s
      ensures p == q && r == s
    {
      PartTextsAgree(p, q, r, s);
    }
    if PartText(p) == PartText(q) {
      PartTextsAgree(p, q, [], []);
    }
  }

  lemma PartTextsShown(parts: seq<Part>)
    ensures Shown(PartTexts(parts)) == PartTexts(parts)
  {
    assert forall i :: 0 <= i < |parts| ==> PartTexts(parts)[i] == PartText(parts[i]) && PartText(parts[i]) != [];
  }

  lemma {:induction false} SamePartTexts(p: seq<Part>, q: seq<Part>)
    requires forall x, y :: x in p && y in q ==> PrefixFree(x.text, y.text)
    ensures PartTexts(p) == PartTexts(q) ==> p == q
    ensures Separable(PartTexts(p), PartTexts(q))
  {
    forall x, y | x in p && y in q
      ensures PrefixFree(PartText(x), PartText(y)) && (PartText(x) == PartText(y) ==> x == y)
    {
      PartTextPrefixFree(x, y);
    }
    forall i | PartTexts(p) == PartTexts(q) && 0 <= i < |p| ensures p[i] == q[i] {
      assert PartTexts(p)[i] == PartTexts(q)[i];
      assert p[i] in p && q[i] in q;
    }
    if PartTexts(p) == PartTexts(q) {
      assert |p| == |PartTexts(p)| == |q|;
    }
  }

  /** The text of a value ends where the value ends. */
  lemma {:induction false} ValuesPrefixFree(a: Json, b: Json, style: Style)
    ensures PrefixFree(Stringify(a, style), Stringify(b, style))
    decreases a
  {
    match a {
      case Arr(items) => MembersPrefixFree(a, b, style);
      case Obj(entries) => MembersPrefixFree(a, b, style);
      case _ =>
    }
    forall r, s | Delimited(r) && Delimited(s) && Stringify(a, style) + r == Stringify(b, style) + s
      ensures Stringify(a, style) == Stringify(b, style) && r == s
    {
      PrefixFreeAt(a, b, r, s, style);
    }
  }

  /** The members of two arrays, or of two objects, render to separable texts. */
  lemma {:induction false} MembersPrefixFree(a: Json, b: Json, style: Style)
    requires a.Arr? || a.Obj?
    ensures a.Arr? && b.Arr? ==> Separable(Texts(a.items, style), Texts(b.items, style))
    ensures a.Obj? && b.Obj? ==>
              var p, q := SortedParts(a.entries, style), SortedParts(b.entries, style);
              Separable(PartTexts(p), PartTexts(q)) && (PartTexts(p) == PartTexts(q) ==> p == q)
    decreases a, 0
  {
    if a.Arr? && b.Arr? {
      forall x, y | x in a.items && y in b.items
        ensures PrefixFree(Stringify(x, style), Stringify(y, style))
      {
        ValuesPrefixFree(x, y, style);
      }
      forall x: Json ensures Stringify(x, style) == [] || !Delimited(Stringify(x, style)) {
        NotDelimited(x, style);
      }
    }
    if a.Obj? && b.Obj? {
      var p, q := SortedParts(a.entries, style), SortedParts(b.entries, style);
      SortMembers(Parts(a.entries, style), PartOrder(style.le));
      SortMembers(Parts(b.entries, style), PartOrder(style.le));
      forall x, y | x in p && y in q ensures PrefixFree(x.text, y.text) {
        var e := PartsOrigin(a.entries, style, x);
        var f := PartsOrigin(b.entries, style, y);
        ValuesPrefixFree(e.value, f.value, style);
      }
      SamePartTexts(p, q);
    }
  }

  ghost predicate MembersSeparable(a: Json, b: Json, style: Style) {
    && (a.Arr? && b.Arr? ==> Separable(Texts(a.items, style), Texts(b.items, style)))
    && (a.Obj? && b.Obj? ==>
          Separable(PartTexts(SortedParts(a.entries, style)), PartTexts(SortedParts(b.entries, style))))
  }

  lemma BracketedPrefixFree(o: CodeUnit, ts: seq<Text>, us: seq<Text>, c: CodeUnit, r: Text, s: Text)
    requires c in [RBRACKET, RBRACE] && Separable(ts, us)
    requires [o] + Join(ts, [COMMA]) + [c] + r == [o] + Join(us, [COMMA]) + [c] + s
    ensures Shown(ts) == Shown(us) && r == s
  {
    assert [o] + Join(ts, [COMMA]) + [c] + r == [o] + (Join(ts, [COMMA]) + ([c] + r));
    assert [o] + Join(us, [COMMA]) + [c] + s == [o] + (Join(us, [COMMA]) + ([c] + s));
    SplitEqually([o], Join(ts, [COMMA]) + ([c] + r), [o], Join(us, [COMMA]) + ([c] + s));
    JoinPrefixFree(ts, us, c, r, s);
  }

  lemma PrefixFreeAt(a: Json, b: Json, r: Text, s: Text, style: Style)
    requires Delimited(r) && Delimited(s) && Stringify(a, style) + r == Stringify(b, style) + s
    requires MembersSeparable(a, b, style)
    ensures Stringify(a, style) == Stringify(b, style) && r == s
  {
    var t, u := Stringify(a, style), Stringify(b, style);
    NotDelimited(a, style);
    NotDelimited(b, style);
    if t == [] {
      NothingBefore(r, u, s);
    } else if u == [] {
      NothingBefore(s, t, r);
    } else {
      StartedPrefixFree(a, b, r, s, style);
    }
  }

  lemma NothingBefore(r: Text, u: Text, s: Text)
    requires Delimited(r) && (u == [] || !Delimited(u)) && [] + r == u + s
    ensures u == [] && r == s
  {
    assert (u + s)[..|u|] == u && [] + r == r && [] + s == s;
  }

  lemma StartedPrefixFree(a: Json, b: Json, r: Text, s: Text, style: Style)
    requires Delimited(r) && Delimited(s) && Stringify(a, style) + r == Stringify(b, style) + s
    requires MembersSeparable(a, b, style) && Stringify(a, style) != [] && Stringify(b, style) != []
    ensures Stringify(a, style) == Stringify(b, style) && r == s
  {
    var t, u := Stringify(a, style), Stringify(b, style);
    FirstUnit(a, style);
    FirstUnit(b, style);
    assert t[0] == (t + r)[0] == u[0];
    match a {
      case Num(x) => NumeralPrefixFree(x, b.numeral, r, s);
      case Str(x) => QuotePrefixFree(x, b.text, r, s);
      case Arr(items) => BracketedPrefixFree(LBRACKET, Texts(items, style), Texts(b.items, style), RBRACKET, r, s);
      case Obj(entries) =>
        BracketedPrefixFree(
          LBRACE, PartTexts(SortedParts(entries, style)), PartTexts(SortedParts(b.entries, style)), RBRACE, r, s);
      case _ => SplitEqually(t, r, u, s);
    }
    hide Stringify;
    SameFront(t, u, r);
  }

  lemma SameFront(t: Text, u: Text, r: Text)
    requires t + r == u + r
    ensures t == u
  {
    assert |t + r| == |t| + |r| && |u + r| == |u| + |r|;
    SplitEqually(t, r, u, r);
  }

  /** Equal text of arrays means equal texts of their members, as far as they show, and the same for
      objects. */
  lemma EqualTextMeansEqualMembers(a: Json, b: Json, style: Style)
    requires (a.Arr? || a.Obj?) && Stringify(a, style) == Stringify(b, style)
    ensures a.Arr? ==> b.Arr? && Shown(Texts(a.items, style)) == Shown(Texts(b.items, style))
    ensures a.Obj? ==> b.Obj? && SortedParts(a.entries, style) == SortedParts(b.entries, style)
  {
    FirstUnit(a, style);
    FirstUnit(b, style);
    MembersPrefixFree(a, b, style);
    if a.Arr? {
      BracketedPrefixFree(LBRACKET, Texts(a.items, style), Texts(b.items, style), RBRACKET, [], []);
    } else {
      var p, q := SortedParts(a.entries, style), SortedParts(b.entries, style);
      BracketedPrefixFree(LBRACE, PartTexts(p), PartTexts(q), RBRACE, [], []);
      PartTextsShown(p);
      PartTextsShown(q);
    }
  }

  /** Members that show the same are as many, or neither shows anything. */
  lemma SameMembers(xs: seq<Json>, ys: seq<Json>, style: Style)
    requires Shown(Texts(xs, style)) == Shown(Texts(ys, style))
    ensures Texts(xs, style) == Texts(ys, style) || (style.holes.AsNothing? && Blank(xs) && Blank(ys))
  {
    if Texts(xs, style) != Texts(ys, style) {
      BlankIfHidden(xs, style);
      BlankIfHidden(ys, style);
    }
  }

  lemma BlankIfHidden(xs: seq<Json>, style: Style)
    ensures Shown(Texts(xs, style)) == [] ==> Blank(xs)
    ensures Shown(Texts(xs, style)) != Texts(xs, style) ==> style.holes.AsNothing?
  {
    hide Stringify;
    if Shown(Texts(xs, style)) != Texts(xs, style) {
      assert Texts(xs, style)[0] == Stringify(xs[0], style);
      FirstUnit(xs[0], style);
    }
  }

  lemma BlankText(xs: seq<Json>, style: Style)
    requires style.holes.AsNothing? && Blank(xs)
    ensures Join(Texts(xs, style), [COMMA]) == []
  {
    if xs != [] {
      assert Texts(xs, style)[0] == Stringify(xs[0], style) == [];
    }
  }

  /** A key defined in one object is defined in any object with the same parts, with equal text. */
  lemma SharedPart(es: seq<Entry>, fs: seq<Entry>, k: Text, style: Style)
    requires DistinctKeys(es) && DistinctKeys(fs) && !Lookup(es, k).Undef?
    requires forall x :: x in Parts(es, style) ==> x in Parts(fs, style)
    ensures !Lookup(fs, k).Undef? && Entry(k, Lookup(fs, k)) in fs && Entry(k, Lookup(es, k)) in es
    ensures Stringify(Lookup(es, k), style) == Stringify(Lookup(fs, k), style)
  {
    LookupOrigin(es, k);
    PartsImage(es, style, Entry(k, Lookup(es, k)));
    var f := PartsOrigin(fs, style, Part(k, Stringify(Lookup(es, k), style)));
    LookupFinds(fs, f);
    LookupOrigin(fs, k);
  }

  /** Equal text means equivalent values, whatever order the keys are sorted in. */
  lemma {:induction false} EqualTextMeansEquivalent(a: Json, b: Json, style: Style)
    requires WellFormed(a) && WellFormed(b) && Stringify(a, style) == Stringify(b, style)
    ensures Equiv(a, b, style.holes)
    decreases a, 1
  {
    FirstUnit(a, style);
    FirstUnit(b, style);
    match a {
      case Str(t) =>
        assert Quote(t) + [] == Quote(t) && Quote(b.text) + [] == Quote(b.text);
        QuotePrefixFree(t, b.text, [], []);
      case Arr(items) =>
        EqualTextMeansEqualMembers(a, b, style);
        SameMembers(items, b.items, style);
        if Texts(items, style) == Texts(b.items, style) {
          assert |items| == |Texts(items, style)| == |b.items|;
          forall i | 0 <= i < |items| ensures Equiv(items[i], b.items[i], style.holes) {
            assert Texts(items, style)[i] == Texts(b.items, style)[i];
            EqualTextMeansEquivalent(items[i], b.items[i], style);
          }
        }
      case Obj(entries) =>
        EqualTextMeansEqualMembers(a, b, style);
        SortMembers(Parts(entries, style), PartOrder(style.le));
        SortMembers(Parts(b.entries, style), PartOrder(style.le));
        forall k ensures Lookup(entries, k).Undef? <==> Lookup(b.entries, k).Undef? {
          if !Lookup(entries, k).Undef? {
            SharedPart(entries, b.entries, k, style);
          }
          if !Lookup(b.entries, k).Undef? {
            SharedPart(b.entries, entries, k, style);
          }
        }
        forall e | e in entries ensures Equiv(e.value, Lookup(b.entries, e.key), style.holes) {
          LookupFinds(entries, e);
          if !e.value.Undef? {
            SharedPart(entries, b.entries, e.key, style);
            EqualTextMeansEquivalent(e.value, Lookup(b.entries, e.key), style);
          }
        }
      case _ =>
    }
  }

  // ---------------------------------------------------------------- the value determines the text

  /** A total order on keys: no two different keys tie. */
  ghost predicate KeysNeverTie(le: KeyOrder) {
    forall k, l :: le(k, l) && le(l, k) ==> k == l
  }

  lemma PartOrderIsPreorder(le: KeyOrder)
    requires TotalPreorder(le)
    ensures TotalPreorder(PartOrder(le))
  {
    var po := PartOrder(le);
    forall p: Part, q: Part ensures po(p, q) || po(q, p) {
      assert le(p.key, q.key) || le(q.key, p.key);
    }
    forall p: Part, q: Part, o: Part | po(p, q) && po(q, o) ensures po(p, o) {
      assert le(p.key, q.key) && le(q.key, o.key);
    }
  }

  ghost predicate DistinctPartKeys(p: seq<Part>) {
    forall i, j :: 0 <= i < j < |p| ==> p[i].key != p[j].key
  }

  lemma {:induction false} PartsDistinct(entries: seq<Entry>, style: Style)
    requires DistinctKeys(entries)
    ensures DistinctPartKeys(Parts(entries, style))
    decreases entries
  {
    if entries != [] {
      PartsDistinct(entries[1..], style);
      var rest := Parts(entries[1..], style);
      forall j | 0 <= j < |rest| ensures rest[j].key != entries[0].key {
        var e := PartsOrigin(entries[1..], style, rest[j]);
        var k :| 0 <= k < |entries[1..]| && entries[1..][k] == e;
        assert entries[k + 1] == e;
      }
    }
  }

  lemma {:induction false} DistinctCount(s: seq<Part>, x: Part)
    requires DistinctPartKeys(s)
    ensures multiset(s)[x] == if x in s then 1 else 0
  {
    if s != [] {
      assert s == [s[0]] + s[1..];
      DistinctCount(s[1..], x);
      assert forall j :: 0 <= j < |s[1..]| ==> s[1..][j] == s[j + 1] && s[j + 1].key != s[0].key;
    }
  }

  /** Objects that agree entry by entry render to the same parts. */
  lemma SameParts(es: seq<Entry>, fs: seq<Entry>, style: Style)
    requires TotalPreorder(style.le) && KeysNeverTie(style.le) && DistinctKeys(es) && DistinctKeys(fs)
    requires forall x :: x in Parts(es, style) <==> x in Parts(fs, style)
    ensures SortedParts(es, style) == SortedParts(fs, style)
  {
    var p, q := Parts(es, style), Parts(fs, style);
    PartsDistinct(es, style);
    PartsDistinct(fs, style);
    forall x ensures multiset(p)[x] == multiset(q)[x] {
      DistinctCount(p, x);
      DistinctCount(q, x);
    }
    assert multiset(p) == multiset(q);
    PartOrderIsPreorder(style.le);
    assert TieFree(p, PartOrder(style.le)) by {
      forall x, y | x in p && y in p && x.key == y.key ensures x == y {
      }
    }
    SortForgetsOrder(p, q, PartOrder(style.le));
  }

  lemma {:induction false} EquivalentMeansEqualText(a: Json, b: Json, style: Style)
    requires TotalPreorder(style.le) && KeysNeverTie(style.le)
    requires WellFormed(a) && WellFormed(b) && Equiv(a, b, style.holes)
    ensures Stringify(a, style) == Stringify(b, style)
    decreases a, 1
  {
    match a {
      case Arr(xs) =>
        var ys := b.items;
        if style.holes.AsNothing? && Blank(xs) && Blank(ys) {
          BlankText(xs, style);
          BlankText(ys, style);
        } else {
          forall i | 0 <= i < |xs| ensures Stringify(xs[i], style) == Stringify(ys[i], style) {
            EquivalentMeansEqualText(xs[i], ys[i], style);
          }
          assert Texts(xs, style) == Texts(ys, style);
        }
      case Obj(es) =>
        forall x ensures x in Parts(es, style) <==> x in Parts(b.entries, style) {
          if x in Parts(es, style) {
            var e := PartsOrigin(es, style, x);
            LookupFinds(es, e);
            LookupOrigin(b.entries, e.key);
            EquivalentMeansEqualText(e.value, Lookup(b.entries, e.key), style);
            PartsImage(b.entries, style, Entry(e.key, Lookup(b.entries, e.key)));
          }
          if x in Parts(b.entries, style) {
            var f := PartsOrigin(b.entries, style, x);
            LookupFinds(b.entries, f);
            var e := Entry(f.key, Lookup(es, f.key));
            LookupOrigin(es, f.key);
            EquivalentMeansEqualText(e.value, f.value, style);
            PartsImage(es, style, e);
          }
        }
        SameParts(es, b.entries, style);
      case _ =>
    }
  }

  /** With a total order on keys the text is a faithful name of the value. */
  lemma CanonicalTextIsFaithful(a: Json, b: Json, style: Style)
    requires TotalPreorder(style.le) && KeysNeverTie(style.le) && WellFormed(a) && WellFormed(b)
    ensures Stringify(a, style) == Stringify(b, style) <==> Equiv(a, b, style.holes)
  {
    if Equiv(a, b, style.holes) {
      EquivalentMeansEqualText(a, b, style);
    } else if Stringify(a, style) == Stringify(b, style) {
      EqualTextMeansEquivalent(a, b, style);
    }
  }

  lemma TiedObjects(k: Text, l: Text, style: Style) returns (a: Json, b: Json)
    requires style.le(k, l) && style.le(l, k) && k != l
    ensures WellFormed(a) && WellFormed(b) && Whole(a) && Whole(b)
    ensures Equiv(a, b, style.holes) && Stringify(a, style) != Stringify(b, style)
  {
    var e, f := Entry(k, Null), Entry(l, Null);
    a, b := Obj([e, f]), Obj([f, e]);
    assert Whole(Null);
    TiedParts(k, l, style);
    TiedParts(l, k, style);
    LookupFinds(a.entries, e);
    LookupFinds(a.entries, f);
    LookupFinds(b.entries, e);
    LookupFinds(b.entries, f);
    assert Equiv(Null, Null, style.holes);
    forall x ensures Lookup(a.entries, x).Undef? <==> Lookup(b.entries, x).Undef? {
      assert a.entries[1..] == [f] && b.entries[1..] == [e];
    }
    assert [Part(k, NULL_TEXT), Part(l, NULL_TEXT)][0].key != [Part(l, NULL_TEXT), Part(k, NULL_TEXT)][0].key;
    if Stringify(a, style) == Stringify(b, style) {
      EqualTextMeansEqualMembers(a, b, style);
      assert false;
    }
  }

  /** Tied keys stay in the order they came in. */
  lemma TiedParts(k: Text, l: Text, style: Style)
    requires style.le(k, l)
    ensures SortedParts([Entry(k, Null), Entry(l, Null)], style) == [Part(k, NULL_TEXT), Part(l, NULL_TEXT)]
  {
    var e, f, p, q := Entry(k, Null), Entry(l, Null), Part(k, NULL_TEXT), Part(l, NULL_TEXT);
    assert [e, f][1..] == [f] && [f][1..] == [] && [p, q][1..] == [q] && [q][1..] == [];
    assert Parts([f], style) == [q];
    assert Parts([e, f], style) == [p, q];
    assert Sort([q], PartOrder(style.le)) == [q];
    assert Sort([p, q], PartOrder(style.le)) == [p, q];
  }

  // ---------------------------------------------------------------- the canonical text of runs.ts

  /** Keys in the order of `localeCompare`, undefined elements left empty. */
  function RunsText(v: Json, le: KeyOrder): Text {
    Stringify(v, Style(le, AsNothing))
  }

  /** What `runs.ts` cannot tell apart: key order, undefined properties, and `[undefined]` from `[]`. */
  ghost predicate RunsEquiv(a: Json, b: Json) {
    Equiv(a, b, AsNothing)
  }

  ghost predicate FaithfulFor(le: KeyOrder) {
    forall a, b :: WellFormed(a) && WellFormed(b) ==> (RunsText(a, le) == RunsText(b, le) <==> RunsEquiv(a, b))
  }

  /** `localeCompare` may tie different keys. For all values, the text of `runs.ts` is canonical exactly
      under the comparators that do not. */
  lemma CanonicalExactlyWithoutTies(le: KeyOrder)
    requires TotalPreorder(le)
    ensures FaithfulFor(le) <==> KeysNeverTie(le)
  {
    hide Stringify, Equiv;
    var style := Style(le, AsNothing);
    if KeysNeverTie(le) {
      forall a, b | WellFormed(a) && WellFormed(b) ensures RunsText(a, le) == RunsText(b, le) <==> RunsEquiv(a, b) {
        CanonicalTextIsFaithful(a, b, style);
      }
    } else {
      var k, l :| le(k, l) && le(l, k) && k != l;
      var a, b := TiedObjects(k, l, style);
      assert RunsEquiv(a, b) && RunsText(a, le) != RunsText(b, le);
    }
  }

  /** Two values share their text exactly when they are equivalent. */
  lemma RunsTextIsFaithful(a: Json, b: Json, le: KeyOrder)
    requires TotalPreorder(le) && KeysNeverTie(le) && WellFormed(a) && WellFormed(b)
    ensures RunsText(a, le) == RunsText(b, le) <==> RunsEquiv(a, b)
  {
    CanonicalTextIsFaithful(a, b, Style(le, AsNothing));
  }

  /** Nothing undefined but properties of objects. */
  ghost predicate Whole(v: Json) {
    match v
    case Undef => false
    case Arr(items) => forall x :: x in items ==> Whole(x)
    case Obj(entries) => forall e :: e in entries ==> e.value.Undef? || Whole(e.value)
    case _ => true
  }

  /** Without undefined elements the two files write the same. */
  lemma {:induction false} RunsTextIsText(v: Json, le: KeyOrder)
    requires Whole(v)
    ensures RunsText(v, le) == Stringify(v, Style(le, AsNull))
    decreases v, 0
  {
    var one, other := Style(le, AsNothing), Style(le, AsNull);
    match v
    case Arr(items) =>
      forall i | 0 <= i < |items| ensures Stringify(items[i], one) == Stringify(items[i], other) {
        RunsTextIsText(items[i], le);
      }
      assert Texts(items, one) == Texts(items, other);
    case Obj(entries) =>
      RunsPartsAreParts(entries, le);
      assert SortedParts(entries, one) == SortedParts(entries, other);
    case _ =>
  }

  lemma {:induction false} RunsPartsAreParts(entries: seq<Entry>, le: KeyOrder)
    requires forall e :: e in entries ==> e.value.Undef? || Whole(e.value)
    ensures Parts(entries, Style(le, AsNothing)) == Parts(entries, Style(le, AsNull))
    decreases entries, 0
  {
    if entries != [] {
      if !entries[0].value.Undef? {
        RunsTextIsText(entries[0].value, le);
      }
      RunsPartsAreParts(entries[1..], le);
    }
  }

  // ---------------------------------------------------------------- what the text of runs.ts loses

  /** Equal for either file: key order and undefined properties aside, the same value. */
  ghost predicate Same(a: Json, b: Json) {
    Equiv(a, b, AsNull) && Equiv(a, b, AsNothing)
  }

  /** A hole next to other elements is kept by its comma, also apart from `null`; a lone one is lost. */
  lemma LoneHoleIsLost(le: KeyOrder)
    ensures RunsText(Arr([Undef]), le) == RunsText(Arr([]), le) && !Same(Arr([Undef]), Arr([]))
    ensures RunsText(Arr([Undef, Null]), le) != RunsText(Arr([Null]), le)
    ensures RunsText(Arr([Undef]), le) != RunsText(Arr([Null]), le) && Equiv(Arr([Undef]), Arr([Null]), AsNull)
  {
    var style := Style(le, AsNothing);
    BlankText([Undef], style);
    BlankText([], style);
    assert Texts([Null], style) == [NULL_TEXT] && Texts([Undef, Null], style) == [[], NULL_TEXT];
    assert Join([[], NULL_TEXT], [COMMA])[0] == COMMA && Join([NULL_TEXT], [COMMA]) == NULL_TEXT;
    assert RunsText(Arr([Undef, Null]), le)[1] == COMMA && RunsText(Arr([Null]), le)[1] == NULL_TEXT[0];
    assert |RunsText(Arr([Undef]), le)| == 2;
  }

  /** No array has an undefined element and no other. */
  ghost predicate NoLoneHole(v: Json) {
    match v
    case Arr(items) => !(|items| == 1 && items[0].Undef?) && forall x :: x in items ==> NoLoneHole(x)
    case Obj(entries) => forall e :: e in entries ==> NoLoneHole(e.value)
    case _ => true
  }

  /** No array shows nothing between its brackets. */
  ghost predicate NoBlank(v: Json) {
    match v
    case Arr(items) => !Blank(items) && forall x :: x in items ==> NoBlank(x)
    case Obj(entries) => forall e :: e in entries ==> NoBlank(e.value)
    case _ => true
  }

  /** Equivalent values differ in nothing but a lone hole of one that is an empty array of the other. */
  lemma {:induction false} EquivalentIsSame(a: Json, b: Json)
    requires WellFormed(a) && WellFormed(b) && RunsEquiv(a, b)
    requires NoBlank(a) || (NoLoneHole(a) && NoLoneHole(b))
    ensures Equiv(a, b, AsNull)
    decreases a
  {
    match a
    case Arr(xs) =>
      assert |xs| == |b.items|;
      forall i | 0 <= i < |xs| ensures Equiv(xs[i], b.items[i], AsNull) {
        EquivalentIsSame(xs[i], b.items[i]);
      }
    case Obj(es) =>
      forall e | e in es ensures Equiv(e.value, Lookup(b.entries, e.key), AsNull) {
        LookupFinds(es, e);
        if !e.value.Undef? {
          LookupOrigin(b.entries, e.key);
          EquivalentIsSame(e.value, Lookup(b.entries, e.key));
        }
      }
    case _ =>
  }

  /** So among values without a lone hole the text is as faithful as it can be. */
  lemma TextWithoutLoneHoles(a: Json, b: Json, le: KeyOrder)
    requires TotalPreorder(le) && KeysNeverTie(le) && WellFormed(a) && WellFormed(b)
    requires NoLoneHole(a) && NoLoneHole(b)
    ensures RunsText(a, le) == RunsText(b, le) <==> Same(a, b)
  {
    RunsTextIsFaithful(a, b, le);
    if RunsEquiv(a, b) {
      EquivalentIsSame(a, b);
    }
  }

  /** The value with every lone hole made an empty array, and every empty array a lone hole. */
  function Swapped(v: Json): (w: Json)
    ensures w.Undef? <==> v.Undef?
    decreases v, 0
  {
    match v
    case Arr(items) => Arr(if items == [] then [Undef] else if Blank(items) then [] else SwappedItems(items))
    case Obj(entries) => Obj(SwappedEntries(entries))
    case _ => v
  }

  function SwappedItems(items: seq<Json>): (swapped: seq<Json>)
    ensures |swapped| == |items| && forall i :: 0 <= i < |items| ==> swapped[i] == Swapped(items[i])
    decreases items
  {
    if items == [] then [] else [Swapped(items[0])] + SwappedItems(items[1..])
  }

  function SwappedEntries(entries: seq<Entry>): (swapped: seq<Entry>)
    ensures |swapped| == |entries|
    ensures forall i :: 0 <= i < |entries| ==> swapped[i] == Entry(entries[i].key, Swapped(entries[i].value))
    decreases entries
  {
    if entries == [] then []
    else [Entry(entries[0].key, Swapped(entries[0].value))] + SwappedEntries(entries[1..])
  }

  lemma {:induction false} LookupSwapped(entries: seq<Entry>, key: Text)
    ensures Lookup(SwappedEntries(entries), key) == Swapped(Lookup(entries, key))
  {
    if entries != [] && entries[0].key != key {
      LookupSwapped(entries[1..], key);
    }
  }

  lemma {:induction false} SwappedWellFormed(v: Json)
    requires WellFormed(v)
    ensures WellFormed(Swapped(v))
    decreases v
  {
    match v
    case Arr(items) =>
      forall x | x in Swapped(v).items ensures WellFormed(x) {
        var i :| 0 <= i < |Swapped(v).items| && Swapped(v).items[i] == x;
        if !Blank(items) {
          SwappedWellFormed(items[i]);
        }
      }
    case Obj(entries) =>
      forall e | e in SwappedEntries(entries) ensures WellFormed(e.value) {
        var i :| 0 <= i < |entries| && SwappedEntries(entries)[i] == e;
        assert entries[i] in entries;
        SwappedWellFormed(entries[i].value);
      }
    case _ =>
  }

  lemma {:induction false} SwappedIsEquivalent(v: Json)
    requires WellFormed(v)
    ensures RunsEquiv(v, Swapped(v))
    decreases v
  {
    match v
    case Arr(items) =>
      if !Blank(items) {
        forall i | 0 <= i < |items| ensures RunsEquiv(items[i], Swapped(items[i])) {
          SwappedIsEquivalent(items[i]);
        }
      }
    case Obj(entries) =>
      forall k ensures Lookup(entries, k).Undef? <==> Lookup(SwappedEntries(entries), k).Undef? {
        LookupSwapped(entries, k);
      }
      forall e | e in entries ensures Equiv(e.value, Lookup(SwappedEntries(entries), e.key), AsNothing) {
        LookupFinds(entries, e);
        LookupSwapped(entries, e.key);
        SwappedIsEquivalent(e.value);
      }
    case _ =>
  }

  lemma {:induction false} SwappedDiffers(v: Json)
    requires WellFormed(v) && !NoBlank(v)
    ensures !Equiv(v, Swapped(v), AsNull)
    decreases v
  {
    match v
    case Arr(items) =>
      if !Blank(items) {
        var x :| x in items && !NoBlank(x);
        var i :| 0 <= i < |items| && items[i] == x;
        SwappedDiffers(x);
        assert Swapped(v).items[i] == Swapped(x);
      }
    case Obj(entries) =>
      var e :| e in entries && !NoBlank(e.value);
      SwappedDiffers(e.value);
      LookupFinds(entries, e);
      LookupSwapped(entries, e.key);
    case _ =>
  }

  /** The text of a value is the text of no other value exactly when none of its arrays is empty or holds
      a lone hole. */
  lemma TextNamesValueExactly(a: Json, le: KeyOrder)
    requires TotalPreorder(le) && KeysNeverTie(le) && WellFormed(a)
    ensures (forall b :: WellFormed(b) && RunsText(a, le) == RunsText(b, le) ==> Same(a, b)) <==> NoBlank(a)
  {
    hide RunsText, Equiv, Swapped;
    if NoBlank(a) {
      forall b | WellFormed(b) && RunsText(a, le) == RunsText(b, le) ensures Same(a, b) {
        RunsTextIsFaithful(a, b, le);
        EquivalentIsSame(a, b);
      }
    } else {
      var b := Swapped(a);
      SwappedWellFormed(a);
      SwappedIsEquivalent(a);
      SwappedDiffers(a);
      RunsTextIsFaithful(a, b, le);
      assert WellFormed(b) && RunsText(a, le) == RunsText(b, le) && !Same(a, b);
    }
  }

  // ---------------------------------------------------------------- the order of branches.ts

  /** JavaScript's `<=` on strings: by code unit. */
  predicate CodeUnitOrder(k: Text, l: Text) {
    k == [] || (l != [] && (k[0] < l[0] || (k[0] == l[0] && CodeUnitOrder(k[1..], l[1..]))))
  }

  lemma {:induction false} CodeUnitOrderTransitive(j: Text, k: Text, l: Text)
    requires CodeUnitOrder(j, k) && CodeUnitOrder(k, l)
    ensures CodeUnitOrder(j, l)
  {
    if j != [] && j[0] == k[0] == l[0] {
      CodeUnitOrderTransitive(j[1..], k[1..], l[1..]);
    }
  }

  lemma {:induction false} CodeUnitOrderTotal(k: Text, l: Text)
    ensures CodeUnitOrder(k, l) || CodeUnitOrder(l, k)
    ensures CodeUnitOrder(k, l) && CodeUnitOrder(l, k) ==> k == l
  {
    if k != [] && l != [] && k[0] == l[0] {
      CodeUnitOrderTotal(k[1..], l[1..]);
      assert k == [k[0]] + k[1..] && l == [l[0]] + l[1..];
    }
  }

  lemma CodeUnitOrderIsTotal()
    ensures TotalPreorder(CodeUnitOrder) && KeysNeverTie(CodeUnitOrder)
  {
    forall k, l ensures CodeUnitOrder(k, l) || CodeUnitOrder(l, k) {
      CodeUnitOrderTotal(k, l);
    }
    forall k, l | CodeUnitOrder(k, l) && CodeUnitOrder(l, k) ensures k == l {
      CodeUnitOrderTotal(k, l);
    }
    forall j, k, l | CodeUnitOrder(j, k) && CodeUnitOrder(k, l) ensures CodeUnitOrder(j, l) {
      CodeUnitOrderTransitive(j, k, l);
    }
  }

  /** The plan hash of `branches.ts` is taken over a faithful name of what it binds. */
  lemma BranchesTextIsFaithful(a: Json, b: Json)
    requires WellFormed(a) && WellFormed(b)
    ensures Stringify(a, Style(CodeUnitOrder, AsNull)) == Stringify(b, Style(CodeUnitOrder, AsNull)) <==>
            Equiv(a, b, AsNull)
  {
    CodeUnitOrderIsTotal();
    CanonicalTextIsFaithful(a, b, Style(CodeUnitOrder, AsNull));
  }
}
