/** The services as they run alone on the database: the loops, in-place row updates and appends
    of `ReservationsService`, `InventoryService` and `ProductsService`, each proved to do what
    `Exec` says. */
module StockService {
  import opened Tables
  import opened Engine
  import opened WriteLoop
  import opened StoreInvariant
  import opened Fingerprint
  import opened Idempotency

  /** What a transaction body does: return an outcome to commit, or throw. */
  datatype Result = Done(outcome: Outcome) | Thrown

  datatype Reply = Answer(outcome: Outcome) | ServerError

  // ----- a body's writes, table by table, are its decision's effect -----

  lemma AppliedReserve(s: Store, c: Call, rows: map<Uuid, Row>, s': Store)
    requires c.req.Reserve? && WellFormed(c.req) && Shortfalls(c.req.lines, rows) == [] && Covers(rows, c.req.lines)
    requires s'.products == s.products && s'.stock == s.stock + Writes(Hold, rows, c.req.lines)
    requires s'.orders == s.orders[c.freshId := NewOrder(c)]
    requires s'.items == s.items + ItemsFor(c.req.org, c.freshId, c.req.lines, rows)
    requires s'.movements == s.movements + Movements(Hold, c.req.org, c.freshId, c.req.lines)
    ensures s' == Apply(s, ReserveDecision(c, rows).effect)
  {
  }

  /** A throw when the decision is a violation, otherwise its outcome and exactly its writes. */
  predicate Obeys(d: Decision, s: Store, s': Store, r: Result) {
    if d.Violation? then r.Thrown? else r == Done(d.outcome) && s' == Apply(s, d.effect)
  }

  lemma RefusedTransition(kind: Kind, s: Store, c: Call, orderId: Uuid)
    requires !kind.Hold? && !IsPending(s, c.req.org, orderId)
    ensures Obeys(TransitionExec(kind, s, c, orderId), s, s, Done(Refusal(s, c.req.org, orderId)))
  {
    ApplyNothing(s);
  }

  lemma ThrownTransition(kind: Kind, s: Store, c: Call, orderId: Uuid, lines: seq<Line>, rows: map<Uuid, Row>)
    requires !kind.Hold? && IsPending(s, c.req.org, orderId)
    requires lines == OrderLines(s.items, orderId) && rows == Rows(s, c.req.org, ProductsOf(lines))
    requires exists l | l in lines :: Uncovered(kind, rows, l)
    ensures TransitionExec(kind, s, c, orderId).Violation?
  {
  }

  lemma AppliedLines(kind: Kind, s: Store, c: Call, orderId: Uuid, order: Order, lines: seq<Line>,
                     rows: map<Uuid, Row>, s': Store)
    requires !kind.Hold? && (forall l | l in lines :: !Uncovered(kind, rows, l)) && Covers(rows, lines)
    requires s'.products == s.products && s'.items == s.items
    requires s'.stock == s.stock + Writes(kind, rows, lines)
    requires s'.orders == s.orders[orderId := Terminal(kind, order, c.now)]
    requires s'.movements == s.movements + Movements(kind, c.req.org, orderId, lines)
    ensures Obeys(TransitionDecision(kind, c, orderId, order, lines, rows), s, s',
                  Done(MovedOutcome(kind, orderId, c.now)))
  {
  }

  lemma AppliedTransition(kind: Kind, s: Store, c: Call, orderId: Uuid, lines: seq<Line>,
                          rows: map<Uuid, Row>, s': Store)
    requires !kind.Hold? && IsPending(s, c.req.org, orderId)
    requires lines == OrderLines(s.items, orderId) && rows == Rows(s, c.req.org, ProductsOf(lines))
    requires (forall l | l in lines :: !Uncovered(kind, rows, l)) && Covers(rows, lines)
    requires s'.products == s.products && s'.items == s.items
    requires s'.stock == s.stock + Writes(kind, rows, lines)
    requires s'.orders == s.orders[orderId := Terminal(kind, s.orders[orderId], c.now)]
    requires s'.movements == s.movements + Movements(kind, c.req.org, orderId, lines)
    ensures Obeys(TransitionExec(kind, s, c, orderId), s, s', Done(MovedOutcome(kind, orderId, c.now)))
  {
    AppliedLines(kind, s, c, orderId, s.orders[orderId], lines, rows, s');
  }

  /** One turn of a write loop. */
  lemma WritesStep(kind: Kind, stock: map<Uuid, Stock>, rows: map<Uuid, Row>, lines: seq<Line>, i: nat)
    requires i < |lines| && Covers(rows, lines[..i]) && lines[i].productId in rows
    ensures Covers(rows, lines[..i + 1])
    ensures stock + Writes(kind, rows, lines[..i + 1]) == (stock + Writes(kind, rows, lines[..i]))[
              lines[i].productId := Shift(kind, rows[lines[i].productId].stock, lines[i].quantity)]
  {
    assert lines[..i + 1][..i] == lines[..i];
  }

  /** Only `reserved` of a locked row has been written. */
  ghost predicate OthersKept(rows: map<Uuid, Row>, stock: map<Uuid, Stock>) {
    forall p | p in rows :: p in stock && stock[p] == rows[p].stock.(reserved := stock[p].reserved)
  }

  lemma RowsOfSameTables(s: Store, s': Store, org: Uuid, ids: set<Uuid>)
    requires s'.stock == s.stock && s'.products == s.products
    ensures Rows(s', org, ids) == Rows(s, org, ids)
  {
  }

  lemma AppliedCreate(s: Store, c: Call, s': Store)
    requires c.req.CreateProduct?
    requires s'.products == s.products[c.freshId := Product(c.req.org, c.req.sku, c.req.unitPriceCents)]
    requires s'.stock == s.stock[c.freshId := Stock(c.req.org, InitialStock(c.req), 0)]
    requires s'.orders == s.orders && s'.items == s.items
    requires s'.movements == s.movements
             + if InitialStock(c.req) > 0
               then [Movement(c.req.org, c.freshId, OnHandAdjustment, InitialStock(c.req), 0, None)]
               else []
    ensures s' == Apply(s, CreateDecision(c).effect)
  {
  }

  class StockDatabase {
    var products: map<Uuid, Product>
    var stock: map<Uuid, Stock>
    var orders: map<Uuid, Order>
    var items: seq<Item>
    var movements: seq<Movement>
    var keys: map<KeyId, KeyRow>

    constructor ()
      ensures Contents() == Db(EMPTY_STORE, map[])
    {
      products, stock, orders, items, movements, keys := map[], map[], map[], [], [], map[];
    }

    function Business(): Store
      reads this
    {
      Store(products, stock, orders, items, movements)
    }

    function Contents(): Db
      reads this
    {
      Db(Business(), keys)
    }

    // ----- reservations -----

    /** The shortfall loop. */
    method FindShortfalls(lines: seq<Line>, lockedByProductId: map<Uuid, Row>) returns (shortfalls: seq<Shortfall>)
      ensures shortfalls == Shortfalls(lines, lockedByProductId)
    {
      shortfalls := [];
      for i := 0 to |lines|
        invariant shortfalls == Shortfalls(lines[..i], lockedByProductId)
      {
        assert lines[..i + 1][..i] == lines[..i];
        var item := lines[i];
        var available := AvailableIn(lockedByProductId, item.productId);
        if available < item.quantity {
          shortfalls := shortfalls + [Shortfall(item.productId, item.quantity, available)];
        }
      }
      assert lines[..|lines|] == lines;
    }

    /** The write loop of a reservation. */
    method WriteReserved(lines: seq<Line>, lockedByProductId: map<Uuid, Row>)
      requires Covers(lockedByProductId, lines) && SnapshotOf(lockedByProductId, stock)
      modifies this`stock
      ensures stock == old(stock) + Writes(Hold, lockedByProductId, lines)
    {
      for i := 0 to |lines|
        invariant stock == old(stock) + Writes(Hold, lockedByProductId, lines[..i])
        invariant OthersKept(lockedByProductId, stock)
      {
        assert lines[i] in lines;
        var item := lines[i];
        WritesStep(Hold, old(stock), lockedByProductId, lines, i);
        var row := lockedByProductId[item.productId].stock;
        stock := stock[item.productId := stock[item.productId].(reserved := row.reserved + item.quantity)];
      }
      assert lines[..|lines|] == lines;
    }

    method ReserveStock(c: Call) returns (out: Outcome)
      requires c.req.Reserve? && WellFormed(c.req)
      modifies this
      ensures var d := ReserveDecision(c, Rows(old(Business()), c.req.org, ProductsOf(c.req.lines)));
              Business() == Apply(old(Business()), d.effect) && out == d.outcome
      ensures keys == old(keys)
    {
      var lines, org := c.req.lines, c.req.org;
      var lockedByProductId := Rows(Business(), org, ProductsOf(lines));
      var shortfalls := FindShortfalls(lines, lockedByProductId);
      if |shortfalls| > 0 {
        ApplyNothing(Business());
        return Outcome(false, 409, InsufficientStock(shortfalls));
      }
      NoShortfallMeansAvailable(lines, lockedByProductId);
      WriteReserved(lines, lockedByProductId);
      orders := orders[c.freshId := Order(org, Pending, CurrencyOf(c.req), c.now, None, None)];
      items := items + ItemsFor(org, c.freshId, lines, lockedByProductId);
      movements := movements + Movements(Hold, org, c.freshId, lines);
      out := ReservedOutcome(c, lockedByProductId);
      AppliedReserve(old(Business()), c, lockedByProductId, Business());
    }

    /** The write loop of a release: stops at the first line its row does not cover. */
    method WriteReleased(lines: seq<Line>, lockedByProductId: map<Uuid, Row>) returns (thrown: bool)
      requires SnapshotOf(lockedByProductId, stock)
      modifies this`stock
      ensures thrown <==> exists l | l in lines :: Uncovered(Free, lockedByProductId, l)
      ensures !thrown ==>
        Covers(lockedByProductId, lines) && stock == old(stock) + Writes(Free, lockedByProductId, lines)
    {
      for i := 0 to |lines|
        invariant forall j | 0 <= j < i :: !Uncovered(Free, lockedByProductId, lines[j])
        invariant Covers(lockedByProductId, lines[..i])
        invariant stock == old(stock) + Writes(Free, lockedByProductId, lines[..i])
        invariant OthersKept(lockedByProductId, stock)
      {
        var item := lines[i];
        assert item in lines;
        if item.productId !in lockedByProductId || lockedByProductId[item.productId].stock.reserved < item.quantity {
          return true;
        }
        WritesStep(Free, old(stock), lockedByProductId, lines, i);
        var row := lockedByProductId[item.productId].stock;
        stock := stock[item.productId := stock[item.productId].(reserved := row.reserved - item.quantity)];
      }
      assert lines[..|lines|] == lines;
      thrown := false;
    }

    method ReleaseStock(c: Call) returns (r: Result)
      requires c.req.Release?
      modifies this
      ensures Obeys(TransitionExec(Free, old(Business()), c, c.req.orderId), old(Business()), Business(), r)
      ensures keys == old(keys)
    {
      var orderId, org := c.req.orderId, c.req.org;
      if !IsPending(Business(), org, orderId) {
        RefusedTransition(Free, Business(), c, orderId);
        return Done(Refusal(Business(), org, orderId));
      }
      orders := orders[orderId := orders[orderId].(status := Cancelled, cancelledAt := Some(c.now))];

      var lines := OrderLines(items, orderId);
      var lockedByProductId := Rows(Business(), org, ProductsOf(lines));
      RowsOfSameTables(old(Business()), Business(), org, ProductsOf(lines));
      var thrown := WriteReleased(lines, lockedByProductId);
      if thrown {
        ThrownTransition(Free, old(Business()), c, orderId, lines, lockedByProductId);
        return Thrown;
      }
      if |lines| > 0 {
        movements := movements + Movements(Free, org, orderId, lines);
      }
      r := Done(MovedOutcome(Free, orderId, c.now));
      AppliedTransition(Free, old(Business()), c, orderId, lines, lockedByProductId, Business());
    }

    /** The write loop of a fulfillment. */
    method WriteFulfilled(lines: seq<Line>, lockedByProductId: map<Uuid, Row>) returns (thrown: bool)
      requires SnapshotOf(lockedByProductId, stock)
      modifies this`stock
      ensures thrown <==> exists l | l in lines :: Uncovered(Ship, lockedByProductId, l)
      ensures !thrown ==>
        Covers(lockedByProductId, lines) && stock == old(stock) + Writes(Ship, lockedByProductId, lines)
    {
      for i := 0 to |lines|
        invariant forall j | 0 <= j < i :: !Uncovered(Ship, lockedByProductId, lines[j])
        invariant Covers(lockedByProductId, lines[..i])
        invariant stock == old(stock) + Writes(Ship, lockedByProductId, lines[..i])
        invariant forall p | p in lockedByProductId :: p in stock && stock[p].org == lockedByProductId[p].stock.org
      {
        var item := lines[i];
        assert item in lines;
        if item.productId !in lockedByProductId || lockedByProductId[item.productId].stock.reserved < item.quantity
           || lockedByProductId[item.productId].stock.onHand < item.quantity {
          return true;
        }
        WritesStep(Ship, old(stock), lockedByProductId, lines, i);
        var row := lockedByProductId[item.productId].stock;
        stock := stock[item.productId := stock[item.productId].(
          onHand := row.onHand - item.quantity, reserved := row.reserved - item.quantity)];
      }
      assert lines[..|lines|] == lines;
      thrown := false;
    }

    method FulfillStock(c: Call) returns (r: Result)
      requires c.req.Fulfill?
      modifies this
      ensures Obeys(TransitionExec(Ship, old(Business()), c, c.req.orderId), old(Business()), Business(), r)
      ensures keys == old(keys)
    {
      var orderId, org := c.req.orderId, c.req.org;
      if !IsPending(Business(), org, orderId) {
        RefusedTransition(Ship, Business(), c, orderId);
        return Done(Refusal(Business(), org, orderId));
      }
      orders := orders[orderId := orders[orderId].(status := Fulfilled, fulfilledAt := Some(c.now))];

      var lines := OrderLines(items, orderId);
      var lockedByProductId := Rows(Business(), org, ProductsOf(lines));
      RowsOfSameTables(old(Business()), Business(), org, ProductsOf(lines));
      var thrown := WriteFulfilled(lines, lockedByProductId);
      if thrown {
        ThrownTransition(Ship, old(Business()), c, orderId, lines, lockedByProductId);
        return Thrown;
      }
      if |lines| > 0 {
        movements := movements + Movements(Ship, org, orderId, lines);
      }
      r := Done(MovedOutcome(Ship, orderId, c.now));
      AppliedTransition(Ship, old(Business()), c, orderId, lines, lockedByProductId, Business());
    }

    // ----- inventory and products -----

    method ApplyAdjustment(c: Call) returns (out: Outcome)
      requires c.req.Adjust? && WellFormed(c.req)
      modifies this
      ensures var d := Exec(old(Business()), c);
              d.Decision? && out == d.outcome && Business() == Apply(old(Business()), d.effect)
      ensures keys == old(keys)
    {
      var org, p, delta := c.req.org, c.req.productId, c.req.delta;
      ApplyNothing(Business());
      if !HasProduct(Business(), org, p) {
        return Outcome(false, 404, ProductNotFound);
      }
      var row;
      if !HasStock(Business(), org, p) {
        if delta < 0 {
          return Outcome(false, 409, NoInventoryRecord);
        }
        row := Stock(org, delta, 0);
      } else {
        row := stock[p];
        var newOnHand := row.onHand + delta;
        if newOnHand < 0 {
          return Outcome(false, 409, NegativeOnHand(row.onHand, delta));
        }
        if newOnHand < row.reserved {
          return Outcome(false, 409, BelowReserved(row.onHand, row.reserved, delta));
        }
        if newOnHand > INT4_MAX {
          return Outcome(false, 422, Overflow);
        }
        row := row.(onHand := newOnHand);
      }
      stock := stock[p := row];
      movements := movements + [Movement(org, p, OnHandAdjustment, delta, 0, None)];
      assert products == old(products) + map[] && orders == old(orders) + map[] && items == old(items) + [];
      out := Outcome(true, 200, StockBody(p, row.onHand, row.reserved, row.onHand - row.reserved));
    }

    method InsertNewProduct(c: Call) returns (out: Outcome)
      requires c.req.CreateProduct? && WellFormed(c.req)
      modifies this
      ensures var d := Exec(old(Business()), c);
              d.Decision? && out == d.outcome && Business() == Apply(old(Business()), d.effect)
      ensures keys == old(keys)
    {
      var org, p, onHand := c.req.org, c.freshId, InitialStock(c.req);
      if SkuInUse(Business(), org, c.req.sku) {
        ApplyNothing(Business());
        return Outcome(false, 409, SkuTaken);
      }
      products := products[p := Product(org, c.req.sku, c.req.unitPriceCents)];
      stock := stock[p := Stock(org, onHand, 0)];
      if onHand > 0 {
        movements := movements + [Movement(org, p, OnHandAdjustment, onHand, 0, None)];
      }
      out := Outcome(true, 201, StockBody(p, onHand, 0, onHand));
      AppliedCreate(old(Business()), c, Business());
    }

    // ----- idempotency -----

    method ClaimIdempotencyKey(id: KeyId, fingerprint: Text) returns (claimed: bool)
      modifies this`keys
      ensures claimed <==> id !in old(keys)
      ensures keys == if claimed then old(keys)[id := ClaimedRow(fingerprint)] else old(keys)
    {
      claimed := id !in keys;
      if claimed {
        keys := keys[id := KeyRow(fingerprint, InProgress, None, None)];
      }
    }

    method CompleteIdempotencyKey(id: KeyId, out: Outcome)
      modifies this`keys
      ensures keys == if id in old(keys) then old(keys)[id := CompletedRow(old(keys)[id], out)] else old(keys)
    {
      if id in keys {
        keys := keys[id := keys[id].(state := Completed, responseStatus := Some(out.status),
                                     responseBody := Some(out.body))];
      }
    }

    // ----- the guarded request -----

    /** The transaction body of a guarded request. */
    method RunOperation(c: Call) returns (r: Result)
      requires Guarded(c.req) && WellFormed(c.req)
      modifies this
      ensures Obeys(Exec(old(Business()), c), old(Business()), Business(), r)
      ensures keys == old(keys)
    {
      match c.req {
        case Reserve(_, _, _) =>
          var out := ReserveStock(c);
          r := Done(out);
        case Release(_, _) => r := ReleaseStock(c);
        case Fulfill(_, _) => r := FulfillStock(c);
        case Adjust(_, _, _, _) =>
          var out := ApplyAdjustment(c);
          r := Done(out);
      }
    }

    method RollBack(saved: Db)
      modifies this
      ensures Contents() == saved
    {
      products, stock, orders := saved.store.products, saved.store.stock, saved.store.orders;
      items, movements, keys := saved.store.items, saved.store.movements, saved.keys;
    }

    /** The transaction of a guarded request: claim, body, completion and commit, or the roll back
        of a throw; a lost claim is resolved from the winner's row. */
    method Transact(c: Call, key: Text) returns (reply: Reply)
      requires Guarded(c.req) && WellFormed(c.req)
      modifies this
      ensures Contents() == Transacted(old(Contents()), c, key).0
      ensures reply == Transacted(old(Contents()), c, key).1
    {
      var id, fingerprint := KeyOf(c.req, key), FingerprintOf(c.req);
      var saved := Contents();
      var claimed := ClaimIdempotencyKey(id, fingerprint);
      if !claimed {
        return Answer(ResolveConflict(GetKey(keys, id), fingerprint));
      }
      var r := RunOperation(c);
      if r.Thrown? {
        RollBack(saved);
        return ServerError;
      }
      CompleteIdempotencyKey(id, r.outcome);
      ClaimThenComplete(saved.keys, id, fingerprint, r.outcome, keys);
      reply := Answer(r.outcome);
    }

    /** One guarded request, start to finish. */
    method Serve(c: Call, key: Text) returns (reply: Reply)
      requires Guarded(c.req) && WellFormed(c.req)
      modifies this
      ensures Contents() == Served(old(Contents()), c, key).0
      ensures reply == Served(old(Contents()), c, key).1
    {
      if c.req.Reserve? {
        if !DistinctProducts(c.req.lines) {
          return Answer(Outcome(false, 400, DuplicateLines));
        }
        if exists l | l in c.req.lines :: !HasProduct(Business(), c.req.org, l.productId) {
          return Answer(Outcome(false, 400, UnknownProducts));
        }
      }
      reply := Transact(c, key);
    }
  }

  lemma ClaimThenComplete(before: map<KeyId, KeyRow>, id: KeyId, fingerprint: Text, out: Outcome,
                          after: map<KeyId, KeyRow>)
    requires after == before[id := ClaimedRow(fingerprint)][id := CompletedRow(ClaimedRow(fingerprint), out)]
    ensures after == before[id := CompletedRow(ClaimedRow(fingerprint), out)]
  {
  }

  /** What the reads before a reservation's transaction turn away. */
  function TurnedAway(s: Store, req: Request): Option<Outcome> {
    if req.Reserve? && !DistinctProducts(req.lines) then Some(Outcome(false, 400, DuplicateLines))
    else if req.Reserve? && exists l | l in req.lines :: !HasProduct(s, req.org, l.productId)
    then Some(Outcome(false, 400, UnknownProducts))
    else None
  }

  function Transacted(db: Db, c: Call, key: Text): (Db, Reply)
    requires Guarded(c.req) && WellFormed(c.req)
  {
    var id, fingerprint := KeyOf(c.req, key), FingerprintOf(c.req);
    if id in db.keys then (db, Answer(ResolveConflict(GetKey(db.keys, id), fingerprint)))
    else
      match Exec(db.store, c)
      case Violation => (db, ServerError)
      case Decision(effect, out) =>
        (Db(Apply(db.store, effect), db.keys[id := CompletedRow(ClaimedRow(fingerprint), out)]), Answer(out))
  }

  /** What one guarded request, run alone, does to the whole database, and its reply. */
  function Served(db: Db, c: Call, key: Text): (Db, Reply)
    requires Guarded(c.req) && WellFormed(c.req)
  {
    var refusal := TurnedAway(db.store, c.req);
    if refusal.Some? then (db, Answer(refusal.value)) else Transacted(db, c, key)
  }

  /** Any of the five requests, run alone: a product is created without prechecks or a key. */
  function Performed(db: Db, c: Call, key: Text): (Db, Reply)
    requires WellFormed(c.req)
  {
    if Guarded(c.req) then Served(db, c, key)
    else
      match Exec(db.store, c)
      case Violation => (db, ServerError)
      case Decision(effect, out) => (Db(Apply(db.store, effect), db.keys), Answer(out))
  }
}
