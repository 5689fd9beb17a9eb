/** `stableStringify`: JSON text with object keys sorted at every depth. */
module CanonicalJson {
  import opened Tables
  import opened Sorting

  /** A JavaScript value as the validation pipe produces it. An object is its own properties in
      insertion order; `Undef` is a property or element that is present but `undefined`. */
  datatype Json =
    | Null
    | Bool(b: bool)
    | Int(n: int)
    | Str(s: Text)
    | Undef
    | Arr(elements: seq<Json>)
    | Obj(fields: seq<Field>)

  datatype Field = Field(key: Text, value: Json)

  const QUOTE: CodeUnit := 34
  const COMMA: CodeUnit := 44
  const MINUS: CodeUnit := 45
  const COLON: CodeUnit := 58
  const OPEN_BRACKET: CodeUnit := 91
  const BACKSLASH: CodeUnit := 92
  const CLOSE_BRACKET: CodeUnit := 93
  const OPEN_BRACE: CodeUnit := 123
  const CLOSE_BRACE: CodeUnit := 125
  const NULL_TEXT: Text := [110, 117, 108, 108]
  const TRUE_TEXT: Text := [116, 114, 117, 101]
  const FALSE_TEXT: Text := [102, 97, 108, 115, 101]
  const UNDEFINED_TEXT: Text := [117, 110, 100, 101, 102, 105, 110, 101, 100]

  // ----- strings, as JSON.stringify writes them (section 7 of RFC 8259) -----

  function HexDigit(d: int): CodeUnit
    requires 0 <= d < 16
  {
    if d < 10 then 48 + d else 87 + d
  }

  function UnicodeEscape(u: CodeUnit): Text {
    [BACKSLASH, 117, HexDigit(u / 4096), HexDigit(u / 256 % 16), HexDigit(u / 16 % 16), HexDigit(u % 16)]
  }

  predicate HighSurrogate(u: CodeUnit) { 0xD800 <= u < 0xDC00 }
  predicate LowSurrogate(u: CodeUnit) { 0xDC00 <= u < 0xE000 }

  function EscapeUnit(u: CodeUnit): Text {
    if u == QUOTE || u == BACKSLASH then [BACKSLASH, u]
    else if u == 8 then [BACKSLASH, 98]
    else if u == 9 then [BACKSLASH, 116]
    else if u == 10 then [BACKSLASH, 110]
    else if u == 12 then [BACKSLASH, 102]
    else if u == 13 then [BACKSLASH, 114]
    else if u < 32 || HighSurrogate(u) || LowSurrogate(u) then UnicodeEscape(u)
    else [u]
  }

  /** A surrogate pair is written as it is; a lone surrogate is escaped. */
  function Escape(s: Text): Text {
    if s == [] then []
    else if |s| > 1 && HighSurrogate(s[0]) && LowSurrogate(s[1]) then s[..2] + Escape(s[2..])
    else EscapeUnit(s[0]) + Escape(s[1..])
  }

  function Quote(s: Text): Text {
    [QUOTE] + Escape(s) + [QUOTE]
  }

  // ----- numbers -----

  function Digits(n: nat): (t: Text)
    ensures |t| > 0 && forall c | c in t :: 48 <= c < 58
  {
    if n < 10 then [48 + n] else Digits(n / 10) + [48 + n % 10]
  }

  function PrintInt(n: int): Text {
    if n < 0 then [MINUS] + Digits(-n) else Digits(n)
  }

  // ----- the printer -----

  function Size(v: Json): nat {
    match v
    case Arr(es) => 1 + SizeElements(es)
    case Obj(fs) => 1 + SizeFields(fs)
    case _ => 1
  }

  function SizeElements(es: seq<Json>): nat {
    if es == [] then 0 else 1 + Size(es[0]) + SizeElements(es[1..])
  }

  function SizeFields(fs: seq<Field>): nat {
    if fs == [] then 0 else 1 + Size(fs[0].value) + SizeFields(fs[1..])
  }

  /** UTF-16 code unit order, the order `Array.prototype.sort` gives strings. */
  predicate TextLe(a: Text, b: Text) {
    a == [] || (b != [] && (a[0] < b[0] || (a[0] == b[0] && TextLe(a[1..], b[1..]))))
  }

  predicate ByKey(f: Field, g: Field) { TextLe(f.key, g.key) }

  function SortFields(fs: seq<Field>): (r: seq<Field>)
    ensures SizeFields(r) == SizeFields(fs)
    ensures multiset(r) == multiset(fs) && |r| == |fs|
  {
    SortKeepsSize(fs);
    Sort(fs, ByKey)
  }

  function Print(v: Json): Text
    decreases Size(v), 0
  {
    match v
    case Null => NULL_TEXT
    case Bool(b) => if b then TRUE_TEXT else FALSE_TEXT
    case Int(n) => PrintInt(n)
    case Str(s) => Quote(s)
    case Undef => UNDEFINED_TEXT
    case Arr(es) => [OPEN_BRACKET] + PrintElements(es) + [CLOSE_BRACKET]
    case Obj(fs) => [OPEN_BRACE] + PrintFields(SortFields(fs)) + [CLOSE_BRACE]
  }

  /** `join(',')` writes an `undefined` element as nothing at all. */
  function PrintElement(e: Json): Text
    decreases Size(e), 1
  {
    if e.Undef? then [] else Print(e)
  }

  function PrintElements(es: seq<Json>): Text
    decreases SizeElements(es), 0
  {
    if es == [] then []
    else if |es| == 1 then PrintElement(es[0])
    else PrintElement(es[0]) + [COMMA] + PrintElements(es[1..])
  }

  function PrintField(f: Field): Text
    decreases Size(f.value), 1
  {
    Quote(f.key) + [COLON] + Print(f.value)
  }

  function PrintFields(fs: seq<Field>): Text
    decreases SizeFields(fs), 0
  {
    if fs == [] then []
    else if |fs| == 1 then PrintField(fs[0])
    else PrintField(fs[0]) + [COMMA] + PrintFields(fs[1..])
  }

  lemma {:induction false} InsertKeepsSize(f: Field, fs: seq<Field>)
    ensures SizeFields(Insert(f, fs, ByKey)) == 1 + Size(f.value) + SizeFields(fs)
  {
    if fs == [] || ByKey(f, fs[0]) {
      assert ([f] + fs)[1..] == fs;
    } else {
      InsertKeepsSize(f, fs[1..]);
      assert Insert(f, fs, ByKey) == [fs[0]] + Insert(f, fs[1..], ByKey);
    }
  }

  lemma {:induction false} SortKeepsSize(fs: seq<Field>)
    ensures SizeFields(Sort(fs, ByKey)) == SizeFields(fs)
  {
    if fs != [] {
      SortKeepsSize(fs[1..]);
      InsertKeepsSize(fs[0], Sort(fs[1..], ByKey));
    }
  }

  // ----- equality of payloads -----

  /** Equal up to the order of object keys, at every depth. */
  ghost predicate SameUpToKeyOrder(a: Json, b: Json)
    decreases a
  {
    match a
    case Arr(es) =>
      b.Arr? && |es| == |b.elements| && forall i | 0 <= i < |es| :: SameUpToKeyOrder(es[i], b.elements[i])
    case Obj(fs) =>
      b.Obj? && |fs| == |b.fields|
      && forall i | 0 <= i < |fs| :: exists j | 0 <= j < |b.fields| ::
           fs[i].key == b.fields[j].key && SameUpToKeyOrder(fs[i].value, b.fields[j].value)
    case _ => a == b
  }

  /** No array, at any depth, has `undefined` as its only element. */
  ghost predicate NoLoneUndefined(v: Json) {
    match v
    case Arr(es) => !(|es| == 1 && es[0].Undef?) && forall e | e in es :: NoLoneUndefined(e)
    case Obj(fs) => forall f | f in fs :: NoLoneUndefined(f.value)
    case _ => true
  }

  /** An array of exactly one `undefined` prints as the empty array does. */
  function Elements(es: seq<Json>): seq<Json> {
    if |es| == 1 && es[0].Undef? then [] else es
  }

  /** Equal up to the order of object keys when every `[undefined]` is read as `[]`. */
  ghost predicate Equiv(a: Json, b: Json)
    decreases a
  {
    match a
    case Arr(es) =>
      b.Arr? && |Elements(es)| == |Elements(b.elements)|
      && forall i | 0 <= i < |Elements(es)| :: Equiv(es[i], b.elements[i])
    case Obj(fs) =>
      b.Obj? && |fs| == |b.fields|
      && forall i | 0 <= i < |fs| :: exists j | 0 <= j < |b.fields| ::
           fs[i].key == b.fields[j].key && Equiv(fs[i].value, b.fields[j].value)
    case _ => a == b
  }

  predicate DistinctKeys(fs: seq<Field>) {
    forall i, j | 0 <= i < j < |fs| :: fs[i].key != fs[j].key
  }

  /** No object has a key twice: a JavaScript object never does. */
  ghost predicate WellKeyed(v: Json) {
    match v
    case Arr(es) => forall e | e in es :: WellKeyed(e)
    case Obj(fs) => DistinctKeys(fs) && forall f | f in fs :: WellKeyed(f.value)
    case _ => true
  }
}
