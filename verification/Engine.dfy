/** What each operation decides from the rows it has read: the private writes it will make and
    the outcome it will record. `Exec` is the serial meaning of a request on a whole store. */
module Engine {
  import opened Tables
  import opened Sorting

  /** The three ways an order's lines move stock: reserve, release, fulfill. */
  datatype Kind = Hold | Free | Ship

  function OnHandDelta(kind: Kind, quantity: int): int {
    if kind.Ship? then -quantity else 0
  }

  function ReservedDelta(kind: Kind, quantity: int): int {
    if kind.Hold? then quantity else -quantity
  }

  function MovementTypeOf(kind: Kind): MovementType {
    match kind
    case Hold => MovementType.Reservation
    case Free => MovementType.Release
    case Ship => MovementType.Fulfillment
  }

  function Shift(kind: Kind, stock: Stock, quantity: int): Stock {
    stock.(onHand := stock.onHand + OnHandDelta(kind, quantity),
           reserved := stock.reserved + ReservedDelta(kind, quantity))
  }

  /** A row as the locking SELECT returns it, with the price joined from `products`. */
  datatype Row = Row(stock: Stock, unitPriceCents: nat)

  function PriceOf(s: Store, p: Uuid): nat {
    if p in s.products then s.products[p].unitPriceCents else 0
  }

  predicate HasStock(s: Store, org: Uuid, p: Uuid) {
    p in s.stock && s.stock[p].org == org
  }

  function Rows(s: Store, org: Uuid, ids: set<Uuid>): map<Uuid, Row> {
    map p | p in ids && HasStock(s, org, p) :: Row(s.stock[p], PriceOf(s, p))
  }

  predicate Covers(rows: map<Uuid, Row>, lines: seq<Line>) {
    forall l | l in lines :: l.productId in rows
  }

  /** The private writes of a transaction. */
  datatype Effect = Effect(products: map<Uuid, Product>, stock: map<Uuid, Stock>,
                           orders: map<Uuid, Order>, items: seq<Item>, movements: seq<Movement>)

  const NO_EFFECT := Effect(map[], map[], map[], [], [])

  function Apply(s: Store, e: Effect): Store {
    Store(s.products + e.products, s.stock + e.stock, s.orders + e.orders,
          s.items + e.items, s.movements + e.movements)
  }

  /** `Violation` is the thrown "Invariant violated" error. */
  datatype Decision = Decision(effect: Effect, outcome: Outcome) | Violation

  // ----- lines -----

  function AvailableIn(rows: map<Uuid, Row>, p: Uuid): int {
    if p in rows then rows[p].stock.onHand - rows[p].stock.reserved else 0
  }

  function Shortfalls(lines: seq<Line>, rows: map<Uuid, Row>): seq<Shortfall> {
    if lines == [] then []
    else
      var l := lines[|lines| - 1];
      var available := AvailableIn(rows, l.productId);
      Shortfalls(lines[..|lines| - 1], rows)
      + if available < l.quantity then [Shortfall(l.productId, l.quantity, available)] else []
  }

  /** The write loop: every row is written from the snapshot `rows`, never from the row's
      current value. */
  function Writes(kind: Kind, rows: map<Uuid, Row>, lines: seq<Line>): map<Uuid, Stock>
    requires Covers(rows, lines)
  {
    if lines == [] then map[]
    else
      var l := lines[|lines| - 1];
      Writes(kind, rows, lines[..|lines| - 1])[l.productId := Shift(kind, rows[l.productId].stock, l.quantity)]
  }

  function MovementOf(kind: Kind, org: Uuid, orderId: Uuid, l: Line): Movement {
    Movement(org, l.productId, MovementTypeOf(kind), OnHandDelta(kind, l.quantity),
             ReservedDelta(kind, l.quantity), Some(orderId))
  }

  function Movements(kind: Kind, org: Uuid, orderId: Uuid, lines: seq<Line>): seq<Movement> {
    seq(|lines|, i requires 0 <= i < |lines| => MovementOf(kind, org, orderId, lines[i]))
  }

  function PriceIn(rows: map<Uuid, Row>, p: Uuid): nat {
    if p in rows then rows[p].unitPriceCents else 0
  }

  function ItemsFor(org: Uuid, orderId: Uuid, lines: seq<Line>, rows: map<Uuid, Row>): seq<Item> {
    seq(|lines|, i requires 0 <= i < |lines| =>
      Item(org, orderId, lines[i].productId, lines[i].quantity, PriceIn(rows, lines[i].productId)))
  }

  function Priced(lines: seq<Line>, rows: map<Uuid, Row>): seq<PricedLine> {
    seq(|lines|, i requires 0 <= i < |lines| =>
      PricedLine(lines[i].productId, lines[i].quantity, PriceIn(rows, lines[i].productId)))
  }

  // ----- reserve -----

  lemma {:induction false} NoShortfallMeansAvailable(lines: seq<Line>, rows: map<Uuid, Row>)
    ensures Shortfalls(lines, rows) == [] <==> forall l | l in lines :: l.quantity <= AvailableIn(rows, l.productId)
  {
    if lines != [] {
      var init, last := lines[..|lines| - 1], lines[|lines| - 1];
      NoShortfallMeansAvailable(init, rows);
      assert lines == init + [last];
    }
  }

  function ReserveDecision(c: Call, rows: map<Uuid, Row>): (d: Decision)
    requires c.req.Reserve? && WellFormed(c.req)
    ensures d.Decision?
  {
    var lines, org, id := c.req.lines, c.req.org, c.freshId;
    var short := Shortfalls(lines, rows);
    if short != [] then Decision(NO_EFFECT, Outcome(false, 409, InsufficientStock(short)))
    else
      NoShortfallMeansAvailable(lines, rows);
      Decision(Effect(map[], Writes(Hold, rows, lines), map[id := NewOrder(c)], ItemsFor(org, id, lines, rows),
                      Movements(Hold, org, id, lines)),
               ReservedOutcome(c, rows))
  }

  function NewOrder(c: Call): Order
    requires c.req.Reserve?
  {
    Order(c.req.org, Pending, CurrencyOf(c.req), c.now, None, None)
  }

  function ReservedOutcome(c: Call, rows: map<Uuid, Row>): Outcome
    requires c.req.Reserve?
  {
    Outcome(true, 201, ReservationBody(c.freshId, Pending, CurrencyOf(c.req), Priced(c.req.lines, rows), c.now))
  }

  const USD: Text := [85, 83, 68]

  function CurrencyOf(req: Request): Text
    requires req.Reserve?
  {
    if req.currency.Given? then req.currency.code else USD
  }

  // ----- release and fulfill -----

  predicate ByProduct(a: Line, b: Line) { a.productId <= b.productId }

  function LinesOf(items: seq<Item>, orderId: Uuid): seq<Line> {
    if items == [] then []
    else
      var i := items[|items| - 1];
      LinesOf(items[..|items| - 1], orderId)
      + if i.orderId == orderId then [Line(i.productId, i.quantity)] else []
  }

  /** `SELECT ... FROM order_items WHERE order_id = $1 ORDER BY product_id`. */
  function OrderLines(items: seq<Item>, orderId: Uuid): seq<Line> {
    Sort(LinesOf(items, orderId), ByProduct)
  }

  /** The WHERE clause of the conditional UPDATE. */
  predicate IsPending(s: Store, org: Uuid, orderId: Uuid) {
    orderId in s.orders && s.orders[orderId].org == org && s.orders[orderId].status.Pending?
  }

  function Terminal(kind: Kind, order: Order, now: nat): Order {
    if kind.Ship? then order.(status := Fulfilled, fulfilledAt := Some(now))
    else order.(status := Cancelled, cancelledAt := Some(now))
  }

  /** The guard of the "Invariant violated" throw. */
  predicate Uncovered(kind: Kind, rows: map<Uuid, Row>, l: Line) {
    || l.productId !in rows
    || rows[l.productId].stock.reserved < l.quantity
    || (kind.Ship? && rows[l.productId].stock.onHand < l.quantity)
  }

  function TransitionDecision(kind: Kind, c: Call, orderId: Uuid, order: Order, lines: seq<Line>,
                              rows: map<Uuid, Row>): Decision
    requires !kind.Hold?
  {
    if exists l | l in lines :: Uncovered(kind, rows, l) then Violation
    else
      Decision(Effect(map[], Writes(kind, rows, lines), map[orderId := Terminal(kind, order, c.now)], [],
                      Movements(kind, c.req.org, orderId, lines)),
               MovedOutcome(kind, orderId, c.now))
  }

  function MovedOutcome(kind: Kind, orderId: Uuid, now: nat): Outcome {
    Outcome(true, 200, TransitionBody(orderId, if kind.Ship? then Fulfilled else Cancelled, now))
  }

  /** The follow-up SELECT after the conditional UPDATE matched nothing. */
  function Refusal(s: Store, org: Uuid, orderId: Uuid): Outcome {
    if orderId in s.orders && s.orders[orderId].org == org
    then Outcome(false, 409, NotPending(s.orders[orderId].status))
    else Outcome(false, 404, OrderNotFound)
  }

  function TransitionExec(kind: Kind, s: Store, c: Call, orderId: Uuid): Decision
    requires !kind.Hold?
  {
    if IsPending(s, c.req.org, orderId) then
      var lines := OrderLines(s.items, orderId);
      TransitionDecision(kind, c, orderId, s.orders[orderId], lines, Rows(s, c.req.org, ProductsOf(lines)))
    else Decision(NO_EFFECT, Refusal(s, c.req.org, orderId))
  }

  // ----- adjust -----

  function AdjustDecision(c: Call, row: Option<Stock>): (d: Decision)
    requires c.req.Adjust?
    ensures d.Decision?
  {
    var p, delta := c.req.productId, c.req.delta;
    match row
    case None =>
      if delta < 0 then Decision(NO_EFFECT, Outcome(false, 409, NoInventoryRecord))
      else AdjustTo(c, Stock(c.req.org, delta, 0))
    case Some(stock) =>
      var onHand := stock.onHand + delta;
      if onHand < 0 then Decision(NO_EFFECT, Outcome(false, 409, NegativeOnHand(stock.onHand, delta)))
      else if onHand < stock.reserved then
        Decision(NO_EFFECT, Outcome(false, 409, BelowReserved(stock.onHand, stock.reserved, delta)))
      else if onHand > INT4_MAX then Decision(NO_EFFECT, Outcome(false, 422, Overflow))
      else AdjustTo(c, stock.(onHand := onHand))
  }

  function AdjustTo(c: Call, stock: Stock): (d: Decision)
    requires c.req.Adjust?
    ensures d.Decision?
  {
    var p := c.req.productId;
    Decision(Effect(map[], map[p := stock], map[], [],
                    [Movement(c.req.org, p, OnHandAdjustment, c.req.delta, 0, None)]),
             Outcome(true, 200, StockBody(p, stock.onHand, stock.reserved, stock.onHand - stock.reserved)))
  }

  predicate HasProduct(s: Store, org: Uuid, p: Uuid) {
    p in s.products && s.products[p].org == org
  }

  function StockRow(s: Store, org: Uuid, p: Uuid): Option<Stock> {
    if HasStock(s, org, p) then Some(s.stock[p]) else None
  }

  // ----- create product -----

  predicate SkuInUse(s: Store, org: Uuid, sku: Text) {
    exists p | p in s.products :: s.products[p].org == org && s.products[p].sku == sku
  }

  function InitialStock(req: Request): int
    requires req.CreateProduct?
  {
    if req.initialOnHand.Some? then req.initialOnHand.value else 0
  }

  function CreateDecision(c: Call): (d: Decision)
    requires c.req.CreateProduct?
    ensures d.Decision?
  {
    var p, onHand := c.freshId, InitialStock(c.req);
    Decision(Effect(map[p := Product(c.req.org, c.req.sku, c.req.unitPriceCents)],
                    map[p := Stock(c.req.org, onHand, 0)], map[], [],
                    if onHand > 0 then [Movement(c.req.org, p, OnHandAdjustment, onHand, 0, None)] else []),
             Outcome(true, 201, StockBody(p, onHand, 0, onHand)))
  }

  // ----- the serial meaning of a request -----

  function Exec(s: Store, c: Call): Decision
    requires WellFormed(c.req)
  {
    match c.req
    case Reserve(org, lines, _) => ReserveDecision(c, Rows(s, org, ProductsOf(lines)))
    case Release(_, orderId) => TransitionExec(Free, s, c, orderId)
    case Fulfill(_, orderId) => TransitionExec(Ship, s, c, orderId)
    case Adjust(org, p, _, _) =>
      if HasProduct(s, org, p) then AdjustDecision(c, StockRow(s, org, p))
      else Decision(NO_EFFECT, Outcome(false, 404, ProductNotFound))
    case CreateProduct(org, sku, _, _) =>
      if SkuInUse(s, org, sku) then Decision(NO_EFFECT, Outcome(false, 409, SkuTaken))
      else CreateDecision(c)
  }
}
