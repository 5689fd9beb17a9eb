/** `canonicalFingerprint` of each guarded request. SHA-256 is taken as injective, so a
    fingerprint is the canonical text itself. */
module Fingerprint {
  import opened Tables
  import opened CanonicalJson
  import opened Unambiguity

  const ITEMS: Text := [105, 116, 101, 109, 115]
  const CURRENCY: Text := [99, 117, 114, 114, 101, 110, 99, 121]
  const ORDER_ID: Text := [111, 114, 100, 101, 114, 73, 100]
  const PRODUCT_ID: Text := [112, 114, 111, 100, 117, 99, 116, 73, 100]
  const QUANTITY: Text := [113, 117, 97, 110, 116, 105, 116, 121]
  const DELTA: Text := [100, 101, 108, 116, 97]
  const REASON: Text := [114, 101, 97, 115, 111, 110]

  predicate Guarded(req: Request) { !req.CreateProduct? }

  function OperationOf(req: Request): Operation
    requires Guarded(req)
  {
    match req
    case Reserve(_, _, _) => ReservationCreate
    case Release(_, _) => ReservationRelease
    case Fulfill(_, _) => OrderFulfill
    case Adjust(_, _, _, _) => InventoryAdjust
  }

  /** A UUID inside a payload: some injective text. */
  function UuidJson(u: Uuid): Json { Str(Digits(u)) }

  function LineJson(l: Line): Json {
    Obj([Field(PRODUCT_ID, UuidJson(l.productId)), Field(QUANTITY, Int(l.quantity))])
  }

  function LinesJson(lines: seq<Line>): seq<Json> {
    seq(|lines|, i requires 0 <= i < |lines| => LineJson(lines[i]))
  }

  function CurrencyJson(currency: Currency): Json {
    match currency
    case NoCurrency => Undef
    case NullCurrency => Null
    case Given(code) => Str(code)
  }

  /** The value each service fingerprints. An absent `currency` is an own property of the DTO
      instance that holds `undefined`. */
  function Payload(req: Request): Json
    requires Guarded(req)
  {
    match req
    case Reserve(_, lines, currency) =>
      Obj([Field(ITEMS, Arr(LinesJson(lines))),
           Field(CURRENCY, CurrencyJson(currency))])
    case Release(_, orderId) => Obj([Field(ORDER_ID, UuidJson(orderId))])
    case Fulfill(_, orderId) => Obj([Field(ORDER_ID, UuidJson(orderId))])
    case Adjust(_, p, delta, reason) =>
      Obj([Field(PRODUCT_ID, UuidJson(p)), Field(DELTA, Int(delta)), Field(REASON, Str(reason))])
  }

  function FingerprintOf(req: Request): Text
    requires Guarded(req)
  {
    Print(Payload(req))
  }

  lemma SameField(fs: seq<Field>, gs: seq<Field>, i: nat)
    requires SameUpToKeyOrder(Obj(fs), Obj(gs)) && DistinctKeys(gs) && i < |fs| && fs[i].key == gs[i].key
    ensures SameUpToKeyOrder(fs[i].value, gs[i].value)
  {
    var j :| 0 <= j < |gs| && fs[i].key == gs[j].key && SameUpToKeyOrder(fs[i].value, gs[j].value);
    assert i == j;
  }

  lemma SameUuid(u: Uuid, v: Uuid)
    requires SameUpToKeyOrder(UuidJson(u), UuidJson(v))
    ensures u == v
  {
    DigitsRoundTrip(u);
    DigitsRoundTrip(v);
  }

  lemma SameLine(l: Line, m: Line)
    requires SameUpToKeyOrder(LineJson(l), LineJson(m))
    ensures l == m
  {
    SameField(LineJson(l).fields, LineJson(m).fields, 0);
    SameField(LineJson(l).fields, LineJson(m).fields, 1);
    SameUuid(l.productId, m.productId);
  }

  lemma SameLines(a: seq<Line>, b: seq<Line>)
    requires SameUpToKeyOrder(Arr(LinesJson(a)), Arr(LinesJson(b)))
    ensures a == b
  {
    forall i | 0 <= i < |a| ensures a[i] == b[i] {
      assert SameUpToKeyOrder(LinesJson(a)[i], LinesJson(b)[i]);
      SameLine(a[i], b[i]);
    }
  }

  lemma PayloadWellKeyed(req: Request)
    requires Guarded(req)
    ensures WellKeyed(Payload(req)) && DistinctKeys(Payload(req).fields) && NoLoneUndefined(Payload(req))
  {
    match req
    case Reserve(_, lines, currency) =>
      forall e | e in LinesJson(lines) ensures WellKeyed(e) && NoLoneUndefined(e) && !e.Undef? {
        var i :| 0 <= i < |lines| && e == LineJson(lines[i]);
        assert forall f | f in e.fields :: WellKeyed(f.value) && NoLoneUndefined(f.value);
      }
      assert WellKeyed(Arr(LinesJson(lines))) && NoLoneUndefined(Arr(LinesJson(lines)));
    case _ =>
  }

  lemma SamePayloads(a: Request, b: Request)
    requires Guarded(a) && Guarded(b) && a.org == b.org && OperationOf(a) == OperationOf(b)
    requires SameUpToKeyOrder(Payload(a), Payload(b))
    ensures a == b
  {
    PayloadWellKeyed(b);
    var fs, gs := Payload(a).fields, Payload(b).fields;
    SameField(fs, gs, 0);
    match a
    case Reserve(_, lines, _) =>
      SameField(fs, gs, 1);
      SameLines(lines, b.lines);
    case Release(_, o) => SameUuid(o, b.orderId);
    case Fulfill(_, o) => SameUuid(o, b.orderId);
    case Adjust(_, p, _, _) =>
      SameField(fs, gs, 1);
      SameField(fs, gs, 2);
      SameUuid(p, b.productId);
  }

  /** Under one idempotency key, equal fingerprints mean the very same request. */
  lemma FingerprintIdentifies(a: Request, b: Request)
    requires Guarded(a) && Guarded(b) && a.org == b.org && OperationOf(a) == OperationOf(b)
    ensures FingerprintOf(a) == FingerprintOf(b) <==> a == b
  {
    if FingerprintOf(a) == FingerprintOf(b) {
      PayloadWellKeyed(a);
      PayloadWellKeyed(b);
      CanonicalText(Payload(a), Payload(b));
      SamePayloads(a, b);
    }
  }
}
