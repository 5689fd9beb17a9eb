/** The canonical text identifies a payload: equal texts mean payloads equal up to key order. */
module Unambiguity {
  import opened Tables
  import opened Sorting
  import opened CanonicalJson

  /** Texts that start alike go on alike. */
  lemma TailsEqual(c: CodeUnit, x: Text, d: CodeUnit, y: Text)
    requires [c] + x == [d] + y
    ensures c == d && x == y
  {
    assert ([c] + x)[0] == c && ([d] + y)[0] == d;
    assert ([c] + x)[1..] == x && ([d] + y)[1..] == y;
  }

  // ----- strings: a reader that undoes the escapes -----

  function HexValue(c: CodeUnit): int {
    if 48 <= c < 58 then c - 48 else c - 87
  }

  function Unit(n: int): CodeUnit {
    if 0 <= n < 0x1_0000 then n else 0
  }

  /** The unit an escape letter stands for. */
  function Unescape(c: CodeUnit): CodeUnit {
    if c == 98 then 8 else if c == 116 then 9 else if c == 110 then 10
    else if c == 102 then 12 else if c == 114 then 13 else c
  }

  /** Reads string content up to its closing quote; returns the content and what follows. */
  function ReadString(t: Text): Option<(Text, Text)>
    decreases |t|
  {
    if t == [] then None
    else if t[0] == QUOTE then Some(([], t[1..]))
    else if t[0] != BACKSLASH then Prepend(t[0], ReadString(t[1..]))
    else if |t| < 2 then None
    else if t[1] != 117 then Prepend(Unescape(t[1]), ReadString(t[2..]))
    else if |t| < 6 then None
    else
      Prepend(Unit(4096 * HexValue(t[2]) + 256 * HexValue(t[3]) + 16 * HexValue(t[4]) + HexValue(t[5])),
              ReadString(t[6..]))
  }

  function Prepend(u: CodeUnit, r: Option<(Text, Text)>): Option<(Text, Text)> {
    if r.None? then None else Some(([u] + r.value.0, r.value.1))
  }

  lemma HexRoundTrip(u: CodeUnit)
    ensures 4096 * HexValue(HexDigit(u / 4096)) + 256 * HexValue(HexDigit(u / 256 % 16))
            + 16 * HexValue(HexDigit(u / 16 % 16)) + HexValue(HexDigit(u % 16)) == u
  {
    assert u == 16 * (u / 16) + u % 16;
    assert u / 256 == u / 16 / 16 && u / 4096 == u / 256 / 16;
  }

  lemma ReadRaw(u: CodeUnit, rest: Text)
    requires u != QUOTE && u != BACKSLASH
    ensures ReadString([u] + rest) == Prepend(u, ReadString(rest))
  {
    assert ([u] + rest)[1..] == rest;
  }

  lemma ReadShort(c: CodeUnit, rest: Text)
    requires c != 117
    ensures ReadString([BACKSLASH, c] + rest) == Prepend(Unescape(c), ReadString(rest))
  {
    assert ([BACKSLASH, c] + rest)[2..] == rest;
  }

  lemma ReadHex(h: Text, rest: Text)
    requires |h| == 6 && h[0] == BACKSLASH && h[1] == 117
    ensures ReadString(h + rest)
            == Prepend(Unit(4096 * HexValue(h[2]) + 256 * HexValue(h[3]) + 16 * HexValue(h[4]) + HexValue(h[5])),
                       ReadString(rest))
  {
    assert (h + rest)[6..] == rest;
  }

  lemma ReadUnit(u: CodeUnit, rest: Text)
    ensures ReadString(EscapeUnit(u) + rest) == Prepend(u, ReadString(rest))
  {
    if |EscapeUnit(u)| == 6 {
      HexRoundTrip(u);
      ReadHex(EscapeUnit(u), rest);
    } else if |EscapeUnit(u)| == 2 {
      ReadShort(EscapeUnit(u)[1], rest);
    } else {
      ReadRaw(u, rest);
    }
  }

  predicate StartsWithPair(s: Text) {
    |s| > 1 && HighSurrogate(s[0]) && LowSurrogate(s[1])
  }

  /** Escaping is undone by reading, whatever follows the closing quote. */
  lemma {:induction false} QuoteRoundTrip(s: Text, rest: Text)
    ensures ReadString(Escape(s) + [QUOTE] + rest) == Some((s, rest))
  {
    if s == [] {
      assert (Escape(s) + [QUOTE] + rest)[1..] == rest;
    } else if StartsWithPair(s) {
      QuoteRoundTrip(s[2..], rest);
      PairRoundTrip(s, rest);
    } else {
      QuoteRoundTrip(s[1..], rest);
      UnitRoundTrip(s, rest);
    }
  }

  lemma Regrouped(a: Text, b: Text, rest: Text)
    ensures a + b + [QUOTE] + rest == a + (b + [QUOTE] + rest)
  {
  }

  lemma UnitRoundTrip(s: Text, rest: Text)
    requires s != [] && !StartsWithPair(s)
    requires ReadString(Escape(s[1..]) + [QUOTE] + rest) == Some((s[1..], rest))
    ensures ReadString(Escape(s) + [QUOTE] + rest) == Some((s, rest))
  {
    var tail := Escape(s[1..]) + [QUOTE] + rest;
    ReadUnit(s[0], tail);
    Regrouped(EscapeUnit(s[0]), Escape(s[1..]), rest);
    assert s == [s[0]] + s[1..];
  }

  lemma PairRoundTrip(s: Text, rest: Text)
    requires StartsWithPair(s)
    requires ReadString(Escape(s[2..]) + [QUOTE] + rest) == Some((s[2..], rest))
    ensures ReadString(Escape(s) + [QUOTE] + rest) == Some((s, rest))
  {
    var tail := Escape(s[2..]) + [QUOTE] + rest;
    ReadPair(s[0], s[1], tail);
    assert Escape(s) + [QUOTE] + rest == [s[0]] + ([s[1]] + tail);
    assert s == [s[0]] + ([s[1]] + s[2..]);
  }

  lemma ReadPair(u: CodeUnit, v: CodeUnit, tail: Text)
    requires HighSurrogate(u) && LowSurrogate(v)
    ensures ReadString([u] + ([v] + tail)) == Prepend(u, Prepend(v, ReadString(tail)))
  {
    ReadRaw(v, tail);
    ReadRaw(u, [v] + tail);
  }

  lemma QuoteSplit(s: Text, x: Text)
    ensures Quote(s) + x == [QUOTE] + (Escape(s) + [QUOTE] + x)
  {
  }

  lemma QuoteUnambiguous(s: Text, t: Text, x: Text, y: Text)
    requires Quote(s) + x == Quote(t) + y
    ensures s == t && x == y
  {
    QuoteSplit(s, x);
    QuoteSplit(t, y);
    TailsEqual(QUOTE, Escape(s) + [QUOTE] + x, QUOTE, Escape(t) + [QUOTE] + y);
    QuoteRoundTrip(s, x);
    QuoteRoundTrip(t, y);
  }

  // ----- numbers: not self-delimiting -----

  predicate Delimited(x: Text) {
    x != [] ==> x[0] == COMMA || x[0] == CLOSE_BRACKET || x[0] == CLOSE_BRACE
  }

  function Value(t: Text): int {
    if t == [] then 0 else 10 * Value(t[..|t| - 1]) + t[|t| - 1] - 48
  }

  lemma {:induction false} DigitsRoundTrip(n: nat)
    ensures Value(Digits(n)) == n
  {
    if n >= 10 {
      DigitsRoundTrip(n / 10);
      assert Digits(n)[..|Digits(n)| - 1] == Digits(n / 10);
    } else {
      assert Digits(n)[..0] == [];
    }
  }

  lemma DigitsLength(a: Text, b: Text, x: Text, y: Text)
    requires a + x == b + y && Delimited(x)
    requires forall c | c in b :: 48 <= c < 58
    ensures |b| <= |a|
  {
    forall i | 0 <= i < |b| ensures 48 <= (a + x)[i] < 58 {
      assert b[i] in b;
    }
    assert x != [] ==> (a + x)[|a|] == x[0];
  }

  lemma DigitsUnambiguous(m: nat, n: nat, x: Text, y: Text)
    requires Digits(m) + x == Digits(n) + y && Delimited(x) && Delimited(y)
    ensures m == n && x == y
  {
    var a, b := Digits(m), Digits(n);
    DigitsLength(a, b, x, y);
    DigitsLength(b, a, y, x);
    assert a == (a + x)[..|a|] == (b + y)[..|b|] == b;
    assert x == (a + x)[|a|..] == (b + y)[|b|..] == y;
    DigitsRoundTrip(m);
    DigitsRoundTrip(n);
  }

  lemma IntHead(n: int)
    ensures PrintInt(n) != [] && (PrintInt(n)[0] == MINUS <==> n < 0)
    ensures n >= 0 ==> 48 <= PrintInt(n)[0] < 58
  {
    if n >= 0 {
      assert Digits(n)[0] in Digits(n);
    }
  }

  lemma NegativeSplit(n: int, x: Text)
    requires n < 0
    ensures PrintInt(n) + x == [MINUS] + (Digits(-n) + x)
  {
  }

  lemma IntUnambiguous(m: int, n: int, x: Text, y: Text)
    requires PrintInt(m) + x == PrintInt(n) + y && Delimited(x) && Delimited(y)
    ensures m == n && x == y
  {
    IntHead(m);
    IntHead(n);
    assert PrintInt(m)[0] == (PrintInt(m) + x)[0] == (PrintInt(n) + y)[0] == PrintInt(n)[0];
    if m < 0 {
      NegativeSplit(m, x);
      NegativeSplit(n, y);
      TailsEqual(MINUS, Digits(-m) + x, MINUS, Digits(-n) + y);
      DigitsUnambiguous(-m, -n, x, y);
    } else {
      DigitsUnambiguous(m, n, x, y);
    }
  }

  // ----- the normal form of a payload -----

  function Norm(v: Json): Json
    decreases Size(v), 0
  {
    match v
    case Arr(es) => Arr(if |Elements(es)| == 0 then [] else NormElements(es))
    case Obj(fs) => Obj(NormFields(SortFields(fs)))
    case _ => v
  }

  function NormElements(es: seq<Json>): (r: seq<Json>)
    ensures |r| == |es|
    decreases SizeElements(es), 0
  {
    if es == [] then [] else [Norm(es[0])] + NormElements(es[1..])
  }

  function NormFields(fs: seq<Field>): (r: seq<Field>)
    ensures |r| == |fs|
    decreases SizeFields(fs), 0
  {
    if fs == [] then [] else [Field(fs[0].key, Norm(fs[0].value))] + NormFields(fs[1..])
  }

  lemma {:induction false} NormElementsAt(es: seq<Json>, i: nat)
    requires i < |es|
    ensures NormElements(es)[i] == Norm(es[i])
  {
    if i > 0 {
      NormElementsAt(es[1..], i - 1);
    }
  }

  lemma {:induction false} NormFieldsAt(fs: seq<Field>, i: nat)
    requires i < |fs|
    ensures NormFields(fs)[i] == Field(fs[i].key, Norm(fs[i].value))
  {
    if i > 0 {
      NormFieldsAt(fs[1..], i - 1);
    }
  }

  // ----- equal texts have equal normal forms -----

  /** What the first unit of a value's text can be. */
  predicate Head(v: Json, c: CodeUnit) {
    match v
    case Null => c == 110
    case Bool(b) => c == if b then 116 else 102
    case Int(_) => c == MINUS || 48 <= c < 58
    case Str(_) => c == QUOTE
    case Undef => c == 117
    case Arr(_) => c == OPEN_BRACKET
    case Obj(_) => c == OPEN_BRACE
  }

  lemma PrintHead(v: Json)
    ensures Print(v) != [] && Head(v, Print(v)[0])
  {
    if v.Int? {
      IntHead(v.n);
    }
  }

  lemma SameHead(a: Json, b: Json, x: Text, y: Text)
    requires Print(a) + x == Print(b) + y
    ensures exists c :: Head(a, c) && Head(b, c)
  {
    PrintHead(a);
    PrintHead(b);
    assert Print(a)[0] == (Print(a) + x)[0] == (Print(b) + y)[0] == Print(b)[0];
  }

  lemma {:induction false} PrintUnambiguous(a: Json, b: Json, x: Text, y: Text)
    requires Print(a) + x == Print(b) + y && Delimited(x) && Delimited(y)
    ensures Norm(a) == Norm(b) && x == y
    decreases Size(a), 1
  {
    SameHead(a, b, x, y);
    match a
    case Int(m) =>
      IntUnambiguous(m, b.n, x, y);
    case Str(s) =>
      QuoteUnambiguous(s, b.s, x, y);
    case Arr(es) =>
      var p, q := PrintElements(es) + [CLOSE_BRACKET] + x, PrintElements(b.elements) + [CLOSE_BRACKET] + y;
      assert Print(a) + x == [OPEN_BRACKET] + p && Print(b) + y == [OPEN_BRACKET] + q;
      TailsEqual(OPEN_BRACKET, p, OPEN_BRACKET, q);
      ArrayUnambiguous(es, b.elements, x, y);
    case Obj(fs) =>
      ObjectUnambiguous(fs, b.fields, x, y);
    case _ =>
      assert a == b;
      assert x == (Print(a) + x)[|Print(a)|..] && y == (Print(b) + y)[|Print(b)|..];
  }

  lemma {:induction false} ObjectUnambiguous(fs: seq<Field>, gs: seq<Field>, x: Text, y: Text)
    requires Print(Obj(fs)) + x == Print(Obj(gs)) + y && Delimited(x) && Delimited(y)
    ensures Norm(Obj(fs)) == Norm(Obj(gs)) && x == y
    decreases SizeFields(fs), 3
  {
    var p, q := PrintFields(SortFields(fs)) + [CLOSE_BRACE] + x, PrintFields(SortFields(gs)) + [CLOSE_BRACE] + y;
    assert Print(Obj(fs)) + x == [OPEN_BRACE] + p && Print(Obj(gs)) + y == [OPEN_BRACE] + q;
    TailsEqual(OPEN_BRACE, p, OPEN_BRACE, q);
    FieldsUnambiguous(SortFields(fs), SortFields(gs), x, y);
  }

  /** What follows an element: a comma and the next elements, or the closing bracket. */
  function AfterElement(es: seq<Json>, x: Text): Text
    requires es != []
  {
    if |es| == 1 then [CLOSE_BRACKET] + x else [COMMA] + (PrintElements(es[1..]) + [CLOSE_BRACKET] + x)
  }

  lemma Joined(head: Text, rest: Text, close: CodeUnit, x: Text)
    ensures head + [COMMA] + rest + [close] + x == head + ([COMMA] + (rest + [close] + x))
    ensures head + [close] + x == head + ([close] + x)
  {
  }

  lemma ElementsSplit(es: seq<Json>, x: Text)
    requires es != []
    ensures PrintElements(es) + [CLOSE_BRACKET] + x == PrintElement(es[0]) + AfterElement(es, x)
    ensures Delimited(AfterElement(es, x)) && AfterElement(es, x) != []
  {
    Joined(PrintElement(es[0]), PrintElements(es[1..]), CLOSE_BRACKET, x);
  }

  lemma {:induction false} ArrayUnambiguous(es: seq<Json>, gs: seq<Json>, x: Text, y: Text)
    requires PrintElements(es) + [CLOSE_BRACKET] + x == PrintElements(gs) + [CLOSE_BRACKET] + y
    requires Delimited(x) && Delimited(y)
    ensures Norm(Arr(es)) == Norm(Arr(gs)) && x == y
    decreases SizeElements(es), 3
  {
    EmptyArray(es, x);
    EmptyArray(gs, y);
    var te, tg := PrintElements(es) + [CLOSE_BRACKET] + x, PrintElements(gs) + [CLOSE_BRACKET] + y;
    if Elements(es) == [] {
      assert Elements(gs) == [];
      assert te == [CLOSE_BRACKET] + x && tg == [CLOSE_BRACKET] + y;
      assert x == te[1..] && y == tg[1..];
    } else {
      ElementsUnambiguous(es, gs, x, y);
    }
  }

  lemma EmptyArray(es: seq<Json>, x: Text)
    ensures (PrintElements(es) + [CLOSE_BRACKET] + x)[0] == CLOSE_BRACKET <==> Elements(es) == []
    ensures Elements(es) == [] ==> PrintElements(es) == []
  {
    if es != [] {
      PrintHead(es[0]);
    }
  }

  lemma {:induction false} ElementsUnambiguous(es: seq<Json>, gs: seq<Json>, x: Text, y: Text)
    requires es != [] && gs != []
    requires PrintElements(es) + [CLOSE_BRACKET] + x == PrintElements(gs) + [CLOSE_BRACKET] + y
    requires Delimited(x) && Delimited(y)
    ensures NormElements(es) == NormElements(gs) && x == y
    decreases SizeElements(es), 2
  {
    ElementsSplit(es, x);
    ElementsSplit(gs, y);
    ElementUnambiguous(es[0], gs[0], AfterElement(es, x), AfterElement(gs, y));
    ElementsGoOn(es, gs, x, y);
    if |es| > 1 {
      ElementsUnambiguous(es[1..], gs[1..], x, y);
    }
  }

  lemma ElementsGoOn(es: seq<Json>, gs: seq<Json>, x: Text, y: Text)
    requires es != [] && gs != [] && AfterElement(es, x) == AfterElement(gs, y)
    ensures |es| == 1 <==> |gs| == 1
    ensures |es| == 1 ==> x == y
    ensures |es| > 1 ==>
      PrintElements(es[1..]) + [CLOSE_BRACKET] + x == PrintElements(gs[1..]) + [CLOSE_BRACKET] + y
  {
    var p := if |es| == 1 then x else PrintElements(es[1..]) + [CLOSE_BRACKET] + x;
    var q := if |gs| == 1 then y else PrintElements(gs[1..]) + [CLOSE_BRACKET] + y;
    TailsEqual(if |es| == 1 then CLOSE_BRACKET else COMMA, p, if |gs| == 1 then CLOSE_BRACKET else COMMA, q);
  }

  lemma {:induction false} ElementUnambiguous(e: Json, g: Json, x: Text, y: Text)
    requires PrintElement(e) + x == PrintElement(g) + y
    requires x != [] && y != [] && Delimited(x) && Delimited(y)
    ensures Norm(e) == Norm(g) && x == y
    decreases Size(e), 2
  {
    PrintHead(e);
    PrintHead(g);
    assert (PrintElement(e) + x)[0] == (PrintElement(g) + y)[0];
    if !e.Undef? {
      assert !g.Undef?;
      PrintUnambiguous(e, g, x, y);
    } else {
      assert g.Undef?;
      assert PrintElement(e) + x == x && PrintElement(g) + y == y;
    }
  }

  function AfterField(fs: seq<Field>, x: Text): Text
    requires fs != []
  {
    if |fs| == 1 then [CLOSE_BRACE] + x else [COMMA] + (PrintFields(fs[1..]) + [CLOSE_BRACE] + x)
  }

  lemma FieldsSplit(fs: seq<Field>, x: Text)
    requires fs != []
    ensures PrintFields(fs) + [CLOSE_BRACE] + x == PrintField(fs[0]) + AfterField(fs, x)
    ensures Delimited(AfterField(fs, x))
  {
    Joined(PrintField(fs[0]), PrintFields(fs[1..]), CLOSE_BRACE, x);
  }

  lemma {:induction false} FieldsUnambiguous(fs: seq<Field>, gs: seq<Field>, x: Text, y: Text)
    requires PrintFields(fs) + [CLOSE_BRACE] + x == PrintFields(gs) + [CLOSE_BRACE] + y
    requires Delimited(x) && Delimited(y)
    ensures NormFields(fs) == NormFields(gs) && x == y
    decreases SizeFields(fs), 2
  {
    var tf, tg := PrintFields(fs) + [CLOSE_BRACE] + x, PrintFields(gs) + [CLOSE_BRACE] + y;
    if fs == [] || gs == [] {
      assert tf[0] == tg[0];
      assert x == tf[1..] && y == tg[1..];
    } else {
      FieldsSplit(fs, x);
      FieldsSplit(gs, y);
      FieldUnambiguous(fs[0], gs[0], AfterField(fs, x), AfterField(gs, y));
      FieldsGoOn(fs, gs, x, y);
      if |fs| > 1 {
        FieldsUnambiguous(fs[1..], gs[1..], x, y);
      }
    }
  }

  lemma FieldsGoOn(fs: seq<Field>, gs: seq<Field>, x: Text, y: Text)
    requires fs != [] && gs != [] && AfterField(fs, x) == AfterField(gs, y)
    ensures |fs| == 1 <==> |gs| == 1
    ensures |fs| == 1 ==> x == y
    ensures |fs| > 1 ==> PrintFields(fs[1..]) + [CLOSE_BRACE] + x == PrintFields(gs[1..]) + [CLOSE_BRACE] + y
  {
    var p := if |fs| == 1 then x else PrintFields(fs[1..]) + [CLOSE_BRACE] + x;
    var q := if |gs| == 1 then y else PrintFields(gs[1..]) + [CLOSE_BRACE] + y;
    TailsEqual(if |fs| == 1 then CLOSE_BRACE else COMMA, p, if |gs| == 1 then CLOSE_BRACE else COMMA, q);
  }

  lemma FieldSplit(f: Field, x: Text)
    ensures PrintField(f) + x == Quote(f.key) + ([COLON] + (Print(f.value) + x))
  {
  }

  lemma {:induction false} FieldUnambiguous(f: Field, g: Field, x: Text, y: Text)
    requires PrintField(f) + x == PrintField(g) + y && Delimited(x) && Delimited(y)
    ensures f.key == g.key && Norm(f.value) == Norm(g.value) && x == y
    decreases Size(f.value), 2
  {
    var r, q := Print(f.value) + x, Print(g.value) + y;
    FieldSplit(f, x);
    FieldSplit(g, y);
    QuoteUnambiguous(f.key, g.key, [COLON] + r, [COLON] + q);
    TailsEqual(COLON, r, COLON, q);
    PrintUnambiguous(f.value, g.value, x, y);
  }

  // ----- equal normal forms have equal texts -----

  lemma {:induction false} NormPrints(a: Json, b: Json)
    requires Norm(a) == Norm(b)
    ensures Print(a) == Print(b)
    decreases Size(a), 1
  {
    match a
    case Arr(es) =>
      EmptyArray(es, []);
      EmptyArray(b.elements, []);
      if Elements(es) != [] {
        NormPrintsElements(es, b.elements);
      }
    case Obj(fs) =>
      NormPrintsFields(SortFields(fs), SortFields(b.fields));
    case _ =>
  }

  lemma {:induction false} NormPrintsElements(es: seq<Json>, gs: seq<Json>)
    requires NormElements(es) == NormElements(gs)
    ensures PrintElements(es) == PrintElements(gs)
    decreases SizeElements(es), 0
  {
    assert |es| == |gs|;
    if es != [] {
      assert NormElements(es)[0] == NormElements(gs)[0];
      NormPrints(es[0], gs[0]);
      assert NormElements(es)[1..] == NormElements(gs)[1..];
      NormPrintsElements(es[1..], gs[1..]);
      assert es[0].Undef? <==> gs[0].Undef?;
    }
  }

  lemma {:induction false} NormPrintsFields(fs: seq<Field>, gs: seq<Field>)
    requires NormFields(fs) == NormFields(gs)
    ensures PrintFields(fs) == PrintFields(gs)
    decreases SizeFields(fs), 0
  {
    assert |fs| == |gs|;
    if fs != [] {
      assert NormFields(fs)[0] == NormFields(gs)[0];
      NormPrints(fs[0].value, gs[0].value);
      assert NormFields(fs)[1..] == NormFields(gs)[1..];
      NormPrintsFields(fs[1..], gs[1..]);
    }
  }

  lemma PrintIsNorm(a: Json, b: Json)
    ensures Print(a) == Print(b) <==> Norm(a) == Norm(b)
  {
    if Print(a) == Print(b) {
      PrintUnambiguous(a, b, [], []);
    }
    if Norm(a) == Norm(b) {
      NormPrints(a, b);
    }
  }

  // ----- equal normal forms are equivalence up to key order -----

  lemma {:induction false} TextLeTotal(a: Text, b: Text)
    ensures TextLe(a, b) || TextLe(b, a)
  {
    if a != [] && b != [] && a[0] == b[0] {
      TextLeTotal(a[1..], b[1..]);
    }
  }

  lemma {:induction false} TextLeTransitive(a: Text, b: Text, c: Text)
    requires TextLe(a, b) && TextLe(b, c)
    ensures TextLe(a, c)
  {
    if a != [] && a[0] == b[0] == c[0] {
      TextLeTransitive(a[1..], b[1..], c[1..]);
    }
  }

  lemma {:induction false} TextLeAntisymmetric(a: Text, b: Text)
    requires TextLe(a, b) && TextLe(b, a)
    ensures a == b
  {
    if a != [] {
      TextLeAntisymmetric(a[1..], b[1..]);
      assert a == [a[0]] + a[1..] && b == [b[0]] + b[1..];
    }
  }

  lemma ByKeyTotalPreorder()
    ensures TotalPreorder(ByKey)
  {
    forall f, g ensures ByKey(f, g) || ByKey(g, f) {
      TextLeTotal(f.key, g.key);
    }
    forall f, g, h | ByKey(f, g) && ByKey(g, h) ensures ByKey(f, h) {
      TextLeTransitive(f.key, g.key, h.key);
    }
  }

  lemma SortFieldsSorts(fs: seq<Field>)
    requires DistinctKeys(fs)
    ensures Sorted(SortFields(fs), ByKey) && DistinctKeys(SortFields(fs))
    ensures forall f :: f in fs <==> f in SortFields(fs)
  {
    ByKeyTotalPreorder();
    SortSorts(fs, ByKey);
    SameElements(fs, SortFields(fs));
    DistinctRearranged(fs, SortFields(fs), (f: Field) => f.key);
  }

  /** `a` comes first in UTF-16 code unit order: it is a prefix of `b`, or smaller where they first
      differ. */
  ghost predicate Precedes(a: Text, b: Text) {
    exists k :: 0 <= k <= |a| && k <= |b| && a[..k] == b[..k] && (k == |a| || (k < |b| && a[k] < b[k]))
  }

  lemma {:induction false} TextLePrecedes(a: Text, b: Text)
    requires TextLe(a, b)
    ensures Precedes(a, b)
  {
    if a == [] {
      assert a[..0] == b[..0];
    } else if a[0] < b[0] {
      assert a[..0] == b[..0];
    } else {
      TextLePrecedes(a[1..], b[1..]);
      var k :| 0 <= k <= |a[1..]| && k <= |b[1..]| && a[1..][..k] == b[1..][..k]
               && (k == |a[1..]| || (k < |b[1..]| && a[1..][k] < b[1..][k]));
      assert a[..k + 1] == [a[0]] + a[1..][..k] && b[..k + 1] == [b[0]] + b[1..][..k];
    }
  }

  /** The properties of an object are printed all, in ascending order of their keys. */
  lemma KeysAscend(fs: seq<Field>, i: nat, j: nat)
    requires i < j < |fs|
    ensures multiset(SortFields(fs)) == multiset(fs)
    ensures Precedes(SortFields(fs)[i].key, SortFields(fs)[j].key)
  {
    ByKeyTotalPreorder();
    SortSorts(fs, ByKey);
    assert ByKey(SortFields(fs)[i], SortFields(fs)[j]);
    TextLePrecedes(SortFields(fs)[i].key, SortFields(fs)[j].key);
  }

  function KeySet(fs: seq<Field>): set<Text> {
    set f | f in fs :: f.key
  }

  lemma KeySetTail(fs: seq<Field>)
    requires fs != [] && DistinctKeys(fs)
    ensures fs[0].key in KeySet(fs) && KeySet(fs[1..]) == KeySet(fs) - {fs[0].key}
  {
    assert fs[0] in fs;
    forall f | f in fs[1..] ensures f.key != fs[0].key && f in fs {
      var i :| 0 <= i < |fs[1..]| && fs[1..][i] == f;
      assert f == fs[i + 1];
    }
    forall f | f in fs && f.key != fs[0].key ensures f in fs[1..] {
      var i :| 0 <= i < |fs| && fs[i] == f;
      assert fs[1..][i - 1] == f;
    }
  }

  lemma EmptyKeySet(fs: seq<Field>)
    ensures KeySet(fs) == {} <==> fs == []
  {
    if fs != [] {
      assert fs[0].key in KeySet(fs);
    }
  }

  /** Fields sorted by distinct keys are in one order only. */
  lemma {:induction false} SortedKeysAgree(fs: seq<Field>, gs: seq<Field>)
    requires Sorted(fs, ByKey) && Sorted(gs, ByKey) && DistinctKeys(fs) && DistinctKeys(gs)
    requires KeySet(fs) == KeySet(gs)
    ensures |fs| == |gs| && forall i | 0 <= i < |fs| :: fs[i].key == gs[i].key
  {
    EmptyKeySet(fs);
    EmptyKeySet(gs);
    if fs != [] {
      FirstKeysAgree(fs, gs);
      KeySetTail(fs);
      KeySetTail(gs);
      SortedKeysAgree(fs[1..], gs[1..]);
    }
  }

  lemma FirstKeysAgree(fs: seq<Field>, gs: seq<Field>)
    requires fs != [] && gs != [] && Sorted(fs, ByKey) && Sorted(gs, ByKey) && KeySet(fs) == KeySet(gs)
    ensures fs[0].key == gs[0].key
  {
    assert fs[0].key in KeySet(gs) && gs[0].key in KeySet(fs) by {
      assert fs[0].key in KeySet(fs) && gs[0].key in KeySet(gs);
    }
    var g :| g in gs && g.key == fs[0].key;
    var f :| f in fs && f.key == gs[0].key;
    var i :| 0 <= i < |gs| && gs[i] == g;
    var j :| 0 <= j < |fs| && fs[j] == f;
    TextLeTotal(fs[0].key, fs[0].key);
    TextLeTotal(gs[0].key, gs[0].key);
    assert ByKey(gs[0], gs[i]) && ByKey(fs[0], fs[j]);
    TextLeAntisymmetric(fs[0].key, gs[0].key);
  }

  lemma {:induction false} SizeOfElement(es: seq<Json>, i: nat)
    requires i < |es|
    ensures Size(es[i]) < SizeElements(es)
  {
    if i > 0 {
      SizeOfElement(es[1..], i - 1);
    }
  }

  lemma {:induction false} SizeOfField(fs: seq<Field>, i: nat)
    requires i < |fs|
    ensures Size(fs[i].value) < SizeFields(fs)
  {
    if i > 0 {
      SizeOfField(fs[1..], i - 1);
    }
  }

  lemma {:induction false} NormIsEquiv(a: Json, b: Json)
    requires WellKeyed(a) && WellKeyed(b)
    ensures Norm(a) == Norm(b) <==> Equiv(a, b)
    decreases Size(a), 1
  {
    match a
    case Arr(es) =>
      if b.Arr? {
        ArrayEquiv(es, b.elements);
      }
    case Obj(fs) =>
      if b.Obj? {
        ObjectEquiv(fs, b.fields);
      }
    case _ =>
  }

  lemma {:induction false} ArrayEquiv(es: seq<Json>, gs: seq<Json>)
    requires WellKeyed(Arr(es)) && WellKeyed(Arr(gs))
    ensures Norm(Arr(es)) == Norm(Arr(gs)) <==> Equiv(Arr(es), Arr(gs))
    decreases SizeElements(es), 2
  {
    if Elements(es) != [] && Elements(gs) != [] && |es| == |gs| {
      forall i | 0 <= i < |es| ensures NormElements(es)[i] == NormElements(gs)[i] <==> Equiv(es[i], gs[i]) {
        NormElementsAt(es, i);
        NormElementsAt(gs, i);
        SizeOfElement(es, i);
        NormIsEquiv(es[i], gs[i]);
      }
    }
  }

  lemma {:induction false} ObjectEquiv(fs: seq<Field>, gs: seq<Field>)
    requires WellKeyed(Obj(fs)) && WellKeyed(Obj(gs))
    ensures Norm(Obj(fs)) == Norm(Obj(gs)) <==> Equiv(Obj(fs), Obj(gs))
    decreases SizeFields(fs), 2
  {
    if |fs| == |gs| {
      forall i | 0 <= i < |fs| ensures Partnered(fs[i], gs) <==> EquivPartner(fs[i], gs) {
        forall j | 0 <= j < |gs| ensures Norm(fs[i].value) == Norm(gs[j].value) <==> Equiv(fs[i].value, gs[j].value) {
          SizeOfField(fs, i);
          NormIsEquiv(fs[i].value, gs[j].value);
        }
      }
      SortedNorms(fs, gs);
      EquivPartners(fs, gs);
    }
  }

  ghost predicate EquivPartner(f: Field, gs: seq<Field>) {
    exists j | 0 <= j < |gs| :: f.key == gs[j].key && Equiv(f.value, gs[j].value)
  }

  lemma EquivPartners(fs: seq<Field>, gs: seq<Field>)
    requires |fs| == |gs|
    ensures Equiv(Obj(fs), Obj(gs)) <==> forall i | 0 <= i < |fs| :: EquivPartner(fs[i], gs)
  {
    if Equiv(Obj(fs), Obj(gs)) {
      forall i | 0 <= i < |fs| ensures EquivPartner(fs[i], gs) {
        var j :| 0 <= j < |gs| && fs[i].key == gs[j].key && Equiv(fs[i].value, gs[j].value);
      }
    }
    if forall i | 0 <= i < |fs| :: EquivPartner(fs[i], gs) {
      forall i | 0 <= i < |fs|
        ensures exists j | 0 <= j < |gs| :: fs[i].key == gs[j].key && Equiv(fs[i].value, gs[j].value)
      {
        assert EquivPartner(fs[i], gs);
      }
    }
  }

  ghost predicate Partnered(f: Field, gs: seq<Field>) {
    exists j | 0 <= j < |gs| :: f.key == gs[j].key && Norm(f.value) == Norm(gs[j].value)
  }

  lemma SortedNorms(fs: seq<Field>, gs: seq<Field>)
    requires DistinctKeys(fs) && DistinctKeys(gs) && |fs| == |gs|
    ensures NormFields(SortFields(fs)) == NormFields(SortFields(gs))
            <==> forall i | 0 <= i < |fs| :: Partnered(fs[i], gs)
  {
    if NormFields(SortFields(fs)) == NormFields(SortFields(gs)) {
      NormsPartner(fs, gs);
    }
    if forall i | 0 <= i < |fs| :: Partnered(fs[i], gs) {
      PartnersNorm(fs, gs);
    }
  }

  lemma NormsPartner(fs: seq<Field>, gs: seq<Field>)
    requires DistinctKeys(fs) && DistinctKeys(gs)
    requires NormFields(SortFields(fs)) == NormFields(SortFields(gs))
    ensures forall i | 0 <= i < |fs| :: Partnered(fs[i], gs)
  {
    SortFieldsSorts(fs);
    SortFieldsSorts(gs);
    var sf, sg := SortFields(fs), SortFields(gs);
    assert |sf| == |NormFields(sf)| == |NormFields(sg)| == |sg|;
    forall i | 0 <= i < |fs| ensures Partnered(fs[i], gs) {
      assert fs[i] in sf;
      var k :| 0 <= k < |sf| && sf[k] == fs[i];
      NormFieldsAt(sf, k);
      NormFieldsAt(sg, k);
      assert sg[k] in gs;
      var j :| 0 <= j < |gs| && gs[j] == sg[k];
    }
  }

  lemma PartnersNorm(fs: seq<Field>, gs: seq<Field>)
    requires DistinctKeys(fs) && DistinctKeys(gs) && |fs| == |gs|
    requires forall i | 0 <= i < |fs| :: Partnered(fs[i], gs)
    ensures NormFields(SortFields(fs)) == NormFields(SortFields(gs))
  {
    SortFieldsSorts(fs);
    SortFieldsSorts(gs);
    var sf, sg := SortFields(fs), SortFields(gs);
    EveryKeyMatched(fs, gs);
    assert KeySet(sf) == KeySet(fs) && KeySet(sg) == KeySet(gs);
    SortedKeysAgree(sf, sg);
    forall k | 0 <= k < |sf| ensures NormFields(sf)[k] == NormFields(sg)[k] {
      NormFieldsAt(sf, k);
      NormFieldsAt(sg, k);
      assert sf[k] in fs && sg[k] in gs;
      PartnerIs(fs, gs, sf[k], sg[k]);
    }
  }

  lemma PartnerIs(fs: seq<Field>, gs: seq<Field>, f: Field, g: Field)
    requires DistinctKeys(gs) && f in fs && g in gs && f.key == g.key
    requires forall i | 0 <= i < |fs| :: Partnered(fs[i], gs)
    ensures Norm(f.value) == Norm(g.value)
  {
    var i :| 0 <= i < |fs| && fs[i] == f;
    var j :| 0 <= j < |gs| && fs[i].key == gs[j].key && Norm(fs[i].value) == Norm(gs[j].value);
    var k :| 0 <= k < |gs| && gs[k] == g;
    assert j == k;
  }

  /** Equally many distinct keys, each with a partner: no key of `gs` is left over. */
  lemma EveryKeyMatched(fs: seq<Field>, gs: seq<Field>)
    requires DistinctKeys(fs) && DistinctKeys(gs) && |fs| == |gs|
    requires forall i | 0 <= i < |fs| :: Partnered(fs[i], gs)
    ensures KeySet(fs) == KeySet(gs)
  {
    KeyCount(fs);
    KeyCount(gs);
    forall k | k in KeySet(fs) ensures k in KeySet(gs) {
      var f :| f in fs && f.key == k;
      var i :| 0 <= i < |fs| && fs[i] == f;
      var j :| 0 <= j < |gs| && fs[i].key == gs[j].key;
      assert gs[j] in gs;
    }
    SubsetOfSameSize(KeySet(fs), KeySet(gs));
  }

  lemma {:induction false} KeyCount(fs: seq<Field>)
    requires DistinctKeys(fs)
    ensures |KeySet(fs)| == |fs|
  {
    if fs == [] {
      assert KeySet(fs) == {};
    } else {
      KeyCount(fs[1..]);
      KeySetTail(fs);
      assert KeySet(fs) == KeySet(fs[1..]) + {fs[0].key};
    }
  }

  lemma SubsetOfSameSize<T>(a: set<T>, b: set<T>)
    requires a <= b && |a| == |b|
    ensures a == b
  {
    assert |b - a| == |b| - |a|;
  }

  // ----- the main result -----

  ghost predicate Twin(f: Field, gs: seq<Field>) {
    exists j | 0 <= j < |gs| :: f.key == gs[j].key && SameUpToKeyOrder(f.value, gs[j].value)
  }

  lemma Twins(fs: seq<Field>, gs: seq<Field>)
    requires |fs| == |gs|
    ensures SameUpToKeyOrder(Obj(fs), Obj(gs)) <==> forall i | 0 <= i < |fs| :: Twin(fs[i], gs)
  {
    if SameUpToKeyOrder(Obj(fs), Obj(gs)) {
      forall i | 0 <= i < |fs| ensures Twin(fs[i], gs) {
        var j :| 0 <= j < |gs| && fs[i].key == gs[j].key && SameUpToKeyOrder(fs[i].value, gs[j].value);
      }
    }
    if forall i | 0 <= i < |fs| :: Twin(fs[i], gs) {
      forall i | 0 <= i < |fs|
        ensures exists j | 0 <= j < |gs| :: fs[i].key == gs[j].key && SameUpToKeyOrder(fs[i].value, gs[j].value)
      {
        assert Twin(fs[i], gs);
      }
    }
  }

  /** Away from `[undefined]`, reading it as `[]` makes no difference. */
  lemma {:induction false} EquivIsSame(a: Json, b: Json)
    requires NoLoneUndefined(a) && NoLoneUndefined(b)
    ensures Equiv(a, b) <==> SameUpToKeyOrder(a, b)
    decreases a
  {
    match a
    case Arr(es) =>
      if b.Arr? && |es| == |b.elements| {
        forall i | 0 <= i < |es| ensures Equiv(es[i], b.elements[i]) <==> SameUpToKeyOrder(es[i], b.elements[i]) {
          EquivIsSame(es[i], b.elements[i]);
        }
      }
    case Obj(fs) =>
      if b.Obj? && |fs| == |b.fields| {
        var gs := b.fields;
        forall i | 0 <= i < |fs| ensures EquivPartner(fs[i], gs) <==> Twin(fs[i], gs) {
          forall j | 0 <= j < |gs|
            ensures Equiv(fs[i].value, gs[j].value) <==> SameUpToKeyOrder(fs[i].value, gs[j].value) {
            assert fs[i] in fs && gs[j] in gs;
            EquivIsSame(fs[i].value, gs[j].value);
          }
        }
        EquivPartners(fs, gs);
        Twins(fs, gs);
      }
    case _ =>
  }

  /** Any two values print alike exactly when they are equal up to key order once every
      `[undefined]` is read as `[]`. */
  lemma PrintsAlike(a: Json, b: Json)
    requires WellKeyed(a) && WellKeyed(b)
    ensures Print(a) == Print(b) <==> Equiv(a, b)
  {
    PrintIsNorm(a, b);
    NormIsEquiv(a, b);
  }

  /** The canonical text of a payload is the same as another's exactly when the two are equal up
      to the order of object keys, at every depth. */
  lemma CanonicalText(a: Json, b: Json)
    requires WellKeyed(a) && WellKeyed(b) && NoLoneUndefined(a) && NoLoneUndefined(b)
    ensures Print(a) == Print(b) <==> SameUpToKeyOrder(a, b)
  {
    PrintsAlike(a, b);
    EquivIsSame(a, b);
  }

  /** The printer's one exception: `[undefined]` and `[]` are not the same and print alike. */
  lemma UndefinedElementIsLost()
    ensures Print(Arr([Undef])) == Print(Arr([])) && !SameUpToKeyOrder(Arr([Undef]), Arr([]))
  {
    assert PrintElements([Undef]) == [];
  }

  // ----- the text itself -----

  /** How each code unit is written: the two-character escapes, `\u00xx` for other control
      characters, `\udxxx` for a lone surrogate, everything else as it is. */
  lemma UnitText(u: CodeUnit)
    ensures u == 34 || u == 92 ==> Escape([u]) == [92, u]
    ensures u == 8 ==> Escape([u]) == [92, 98]
    ensures u == 9 ==> Escape([u]) == [92, 116]
    ensures u == 10 ==> Escape([u]) == [92, 110]
    ensures u == 12 ==> Escape([u]) == [92, 102]
    ensures u == 13 ==> Escape([u]) == [92, 114]
    ensures u < 32 && u !in [8, 9, 10, 12, 13] ==>
              Escape([u]) == [92, 117, 48, 48, if u < 16 then 48 else 49,
                              if u % 16 < 10 then 48 + u % 16 else 97 + u % 16 - 10]
    ensures (32 <= u < 0xD800 && u != 34 && u != 92) || u >= 0xE000 ==> Escape([u]) == [u]
    ensures 0xD800 <= u < 0xE000 ==> |Escape([u])| == 6 && Escape([u])[..3] == [92, 117, 100]
  {
    assert Escape([u][1..]) == [];
  }

  /** A string is written unit after unit between quotes, a surrogate pair unchanged. */
  lemma QuotedText(u: CodeUnit, v: CodeUnit, rest: Text)
    ensures Quote([]) == [34, 34] && Quote(rest) == [34] + Escape(rest) + [34]
    ensures !(0xD800 <= u < 0xDC00) ==> Escape([u] + rest) == Escape([u]) + Escape(rest)
    ensures 0xD800 <= u < 0xDC00 <= v < 0xE000 ==> Escape([u, v] + rest) == [u, v] + Escape(rest)
  {
    assert ([u] + rest)[1..] == rest && Escape([u][1..]) == [];
    assert ([u, v] + rest)[..2] == [u, v] && ([u, v] + rest)[2..] == rest;
  }

  lemma ScalarText(n: int, d: nat)
    requires n >= 0 && d < 10
    ensures Print(Null) == [110, 117, 108, 108] && Print(Undef) == [117, 110, 100, 101, 102, 105, 110, 101, 100]
    ensures Print(Bool(true)) == [116, 114, 117, 101] && Print(Bool(false)) == [102, 97, 108, 115, 101]
    ensures Print(Int(d)) == [48 + d] && (n > 0 ==> Print(Int(10 * n + d)) == Print(Int(n)) + [48 + d])
    ensures n > 0 ==> Print(Int(-n)) == [45] + Print(Int(n))
  {
  }

  /** Elements keep their order and are joined by commas; `undefined` leaves its place empty. */
  lemma ArrayText(e: Json, rest: seq<Json>)
    ensures PrintElements([]) == [] && PrintElements([e]) == if e.Undef? then [] else Print(e)
    ensures rest != [] ==> PrintElements([e] + rest) == PrintElements([e]) + [44] + PrintElements(rest)
    ensures Print(Arr(rest)) == [91] + PrintElements(rest) + [93]
  {
    assert ([e] + rest)[1..] == rest;
  }

  /** So do the properties of an object, after the sort: key, colon, value. */
  lemma ObjectText(f: Field, rest: seq<Field>)
    ensures PrintFields([]) == [] && PrintFields([f]) == Quote(f.key) + [58] + Print(f.value)
    ensures rest != [] ==> PrintFields([f] + rest) == PrintFields([f]) + [44] + PrintFields(rest)
    ensures Print(Obj(rest)) == [123] + PrintFields(SortFields(rest)) + [125]
  {
    assert ([f] + rest)[1..] == rest;
  }
}
