/** The PostgreSQL tables of the stock engine, as values. */
module Tables {
  /** A UUID in canonical lower-case form; `ORDER BY product_id` compares these. */
  type Uuid = nat

  /** One UTF-16 code unit. */
  type CodeUnit = u: int | 0 <= u < 0x1_0000
  type Text = seq<CodeUnit>

  const INT4_MAX := 2147483647
  const INT4_MIN := -2147483648

  datatype Option<+T> = None | Some(value: T)

  /** `sku` is the generated column `lower(btrim(sku))`, the one uniqueness is enforced on. */
  datatype Product = Product(org: Uuid, sku: Text, unitPriceCents: nat)

  /** One inventory row; the table is keyed by product id (`inventory_product_id_key`). */
  datatype Stock = Stock(org: Uuid, onHand: int, reserved: int)

  datatype Status = Pending | Fulfilled | Cancelled

  datatype Order = Order(org: Uuid, status: Status, currency: Text, createdAt: nat,
                         cancelledAt: Option<nat>, fulfilledAt: Option<nat>)

  datatype Item = Item(org: Uuid, orderId: Uuid, productId: Uuid, quantity: int, unitPriceCents: nat)

  datatype MovementType = OnHandAdjustment | Reservation | Release | Fulfillment

  /** `orderRef` is the `orderId` inside the free-form `reference` column. */
  datatype Movement = Movement(org: Uuid, productId: Uuid, movementType: MovementType,
                               onHandDelta: int, reservedDelta: int, orderRef: Option<Uuid>)

  /** The business tables: everything except `idempotency_keys`. */
  datatype Store = Store(products: map<Uuid, Product>, stock: map<Uuid, Stock>, orders: map<Uuid, Order>,
                         items: seq<Item>, movements: seq<Movement>)

  const EMPTY_STORE := Store(map[], map[], map[], [], [])

  datatype Line = Line(productId: Uuid, quantity: int)
  datatype PricedLine = PricedLine(productId: Uuid, quantity: int, unitPriceCents: nat)
  datatype Shortfall = Shortfall(productId: Uuid, requested: int, available: int)

  datatype Body =
    | ReservationBody(orderId: Uuid, status: Status, currency: Text, items: seq<PricedLine>, createdAt: nat)
    | TransitionBody(orderId: Uuid, status: Status, at: nat)
    | StockBody(productId: Uuid, onHand: int, reserved: int, available: int)
    | InsufficientStock(shortfalls: seq<Shortfall>)
    | OrderNotFound
    | NotPending(status: Status)
    | ProductNotFound
    | NoInventoryRecord
    | NegativeOnHand(onHand: int, delta: int)
    | BelowReserved(onHand: int, reserved: int, delta: int)
    | Overflow
    | SkuTaken
    | DuplicateLines
    | UnknownProducts
    | KeyReused
    | KeyInProgress
    | KeyVanished
    | NoBody

  /** `OperationOutcome`: a success or a clean rejection, decided inside the transaction. */
  datatype Outcome = Outcome(ok: bool, status: int, body: Body)

  datatype Operation = ReservationCreate | ReservationRelease | OrderFulfill | InventoryAdjust

  datatype KeyId = KeyId(org: Uuid, operation: Operation, key: Text)

  /** The column's three values; no code path writes `failed`. */
  datatype KeyState = InProgress | Completed | Failed

  datatype KeyRow = KeyRow(fingerprint: Text, state: KeyState, responseStatus: Option<int>,
                           responseBody: Option<Body>)

  datatype Db = Db(store: Store, keys: map<KeyId, KeyRow>)

  /** `@IsOptional` lets a `null` through as well as an absent property. */
  datatype Currency = NoCurrency | NullCurrency | Given(code: Text)

  datatype Request =
    | Reserve(org: Uuid, lines: seq<Line>, currency: Currency)
    | Release(org: Uuid, orderId: Uuid)
    | Fulfill(org: Uuid, orderId: Uuid)
    | Adjust(org: Uuid, productId: Uuid, delta: int, reason: Text)
    | CreateProduct(org: Uuid, sku: Text, unitPriceCents: nat, initialOnHand: Option<int>)

  /** A request with the values the database supplies: a generated id and the clock. */
  datatype Call = Call(req: Request, freshId: Uuid, now: nat)

  /** What the DTO decorators let through. */
  predicate WellFormed(req: Request) {
    match req
    case Reserve(_, lines, _) => |lines| > 0 && forall l | l in lines :: 1 <= l.quantity <= INT4_MAX
    case Release(_, _) => true
    case Fulfill(_, _) => true
    case Adjust(_, _, delta, _) => INT4_MIN <= delta <= INT4_MAX && delta != 0
    case CreateProduct(_, _, _, initial) => initial.Some? ==> 0 <= initial.value <= INT4_MAX
  }

  predicate DistinctProducts(lines: seq<Line>) {
    forall i, j | 0 <= i < j < |lines| :: lines[i].productId != lines[j].productId
  }

  function ProductsOf(lines: seq<Line>): set<Uuid> {
    set l | l in lines :: l.productId
  }
}
