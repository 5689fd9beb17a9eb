/** Organisation isolation: an operation sees and changes nothing but its own organisation's rows,
    although order items are fetched by order id alone. */
module Tenancy {
  import opened Tables
  import opened Sorting
  import opened Engine
  import opened StoreInvariant
  import opened Fingerprint
  import opened Idempotency
  import opened StockService
  import opened Ledger
  import opened Machine
  import opened TxnInvariant
  import opened MachineSafety
  import opened RunGuarantees

  // ----- the rows of one organisation -----

  function OrgItems(items: seq<Item>, org: Uuid): seq<Item> {
    if items == [] then []
    else
      var i := items[|items| - 1];
      OrgItems(items[..|items| - 1], org) + if i.org == org then [i] else []
  }

  function OrgMovements(ms: seq<Movement>, org: Uuid): seq<Movement> {
    if ms == [] then []
    else
      var m := ms[|ms| - 1];
      OrgMovements(ms[..|ms| - 1], org) + if m.org == org then [m] else []
  }

  function OrgProducts(products: map<Uuid, Product>, org: Uuid): map<Uuid, Product> {
    map p | p in products && products[p].org == org :: products[p]
  }

  function OrgStock(stock: map<Uuid, Stock>, org: Uuid): map<Uuid, Stock> {
    map p | p in stock && stock[p].org == org :: stock[p]
  }

  function OrgOrders(orders: map<Uuid, Order>, org: Uuid): map<Uuid, Order> {
    map o | o in orders && orders[o].org == org :: orders[o]
  }

  /** The database as it would be if the organisation were alone in it. */
  function Slice(s: Store, org: Uuid): Store {
    Store(OrgProducts(s.products, org), OrgStock(s.stock, org), OrgOrders(s.orders, org),
          OrgItems(s.items, org), OrgMovements(s.movements, org))
  }

  function OrgKeys(keys: map<KeyId, KeyRow>, org: Uuid): map<KeyId, KeyRow> {
    map k | k in keys && k.org == org :: keys[k]
  }

  function DbSlice(db: Db, org: Uuid): Db {
    Db(Slice(db.store, org), OrgKeys(db.keys, org))
  }

  lemma {:induction false} OrgItemsAppend(a: seq<Item>, b: seq<Item>, org: Uuid)
    ensures OrgItems(a + b, org) == OrgItems(a, org) + OrgItems(b, org)
  {
    if b == [] {
      assert a + b == a;
    } else {
      OrgItemsAppend(a, b[..|b| - 1], org);
      assert (a + b)[..|a + b| - 1] == a + b[..|b| - 1];
    }
  }

  lemma {:induction false} OrgItemsUniform(items: seq<Item>, owner: Uuid, org: Uuid)
    requires forall i | i in items :: i.org == owner
    ensures OrgItems(items, org) == if owner == org then items else []
  {
    if items != [] {
      var init, i := items[..|items| - 1], items[|items| - 1];
      OrgItemsUniform(init, owner, org);
      assert i in items && items == init + [i];
    }
  }

  lemma {:induction false} OrgMovementsAppend(a: seq<Movement>, b: seq<Movement>, org: Uuid)
    ensures OrgMovements(a + b, org) == OrgMovements(a, org) + OrgMovements(b, org)
  {
    if b == [] {
      assert a + b == a;
    } else {
      OrgMovementsAppend(a, b[..|b| - 1], org);
      assert (a + b)[..|a + b| - 1] == a + b[..|b| - 1];
    }
  }

  lemma {:induction false} OrgMovementsUniform(ms: seq<Movement>, owner: Uuid, org: Uuid)
    requires forall m | m in ms :: m.org == owner
    ensures OrgMovements(ms, org) == if owner == org then ms else []
  {
    if ms != [] {
      var init, m := ms[..|ms| - 1], ms[|ms| - 1];
      OrgMovementsUniform(init, owner, org);
      assert m in ms && ms == init + [m];
    }
  }

  // ----- reading -----

  /** Every item of the order, if it has any, belongs to the organisation. */
  ghost predicate ItemsOwned(items: seq<Item>, org: Uuid, o: Uuid) {
    forall i | i in items && i.orderId == o :: i.org == org
  }

  /** The item query names only the order, yet finds the organisation's items alone. */
  lemma {:induction false} LinesInSlice(items: seq<Item>, org: Uuid, o: Uuid)
    requires ItemsOwned(items, org, o)
    ensures LinesOf(OrgItems(items, org), o) == LinesOf(items, o)
  {
    if items != [] {
      var init, i := items[..|items| - 1], items[|items| - 1];
      assert i in items;
      LinesInSlice(init, org, o);
      LinesOfAppend(OrgItems(init, org), if i.org == org then [i] else [], o);
    }
  }

  lemma OwnItems(s: Store, org: Uuid, o: Uuid)
    requires ItemsLinked(s) && o in s.orders && s.orders[o].org == org
    ensures ItemsOwned(s.items, org, o)
  {
    forall i | i in s.items && i.orderId == o ensures i.org == org {
      assert ItemLinked(s, i);
    }
  }

  lemma RowsInSlice(s: Store, org: Uuid, ids: set<Uuid>)
    requires StockLinked(s)
    ensures Rows(Slice(s, org), org, ids) == Rows(s, org, ids)
  {
  }

  lemma TransitionInSlice(kind: Kind, s: Store, c: Call, o: Uuid)
    requires StockLinked(s) && ItemsLinked(s) && !kind.Hold?
    ensures TransitionExec(kind, Slice(s, c.req.org), c, o) == TransitionExec(kind, s, c, o)
  {
    var org := c.req.org;
    if IsPending(s, org, o) {
      OwnItems(s, org, o);
      LinesInSlice(s.items, org, o);
      RowsInSlice(s, org, ProductsOf(OrderLines(s.items, o)));
    }
  }

  lemma AdjustInSlice(s: Store, c: Call)
    requires c.req.Adjust? && WellFormed(c.req)
    ensures Exec(Slice(s, c.req.org), c) == Exec(s, c)
  {
  }

  lemma CreateInSlice(s: Store, c: Call)
    requires c.req.CreateProduct? && WellFormed(c.req)
    ensures Exec(Slice(s, c.req.org), c) == Exec(s, c)
  {
    var org, t := c.req.org, Slice(s, c.req.org);
    if SkuInUse(s, org, c.req.sku) {
      var p :| p in s.products && s.products[p].org == org && s.products[p].sku == c.req.sku;
      assert p in t.products;
    }
  }

  /** Every operation decides from its own organisation's rows: what it writes and answers is
      what it would if the organisation were alone in the database. */
  lemma SeesOnlyItsSlice(s: Store, c: Call)
    requires StockLinked(s) && ItemsLinked(s) && WellFormed(c.req)
    ensures Exec(Slice(s, c.req.org), c) == Exec(s, c)
  {
    match c.req
    case Reserve(_, lines, _) => RowsInSlice(s, c.req.org, ProductsOf(lines));
    case Release(_, o) => TransitionInSlice(Free, s, c, o);
    case Fulfill(_, o) => TransitionInSlice(Ship, s, c, o);
    case Adjust(_, _, _, _) => AdjustInSlice(s, c);
    case CreateProduct(_, _, _, _) => CreateInSlice(s, c);
  }

  // ----- writing -----

  /** Every row written belongs to `org`, and replaces a row of `org` or none. */
  ghost predicate Owned(s: Store, e: Effect, org: Uuid) {
    && (forall p | p in e.products :: e.products[p].org == org && (p in s.products ==> s.products[p].org == org))
    && (forall p | p in e.stock :: e.stock[p].org == org && (p in s.stock ==> s.stock[p].org == org))
    && (forall o | o in e.orders :: e.orders[o].org == org && (o in s.orders ==> s.orders[o].org == org))
    && (forall i | i in e.items :: i.org == org)
    && (forall m | m in e.movements :: m.org == org)
  }

  lemma {:induction false} WritesOwned(kind: Kind, s: Store, org: Uuid, lines: seq<Line>, rows: map<Uuid, Row>, p: Uuid)
    requires Covers(rows, lines) && p in Writes(kind, rows, lines)
    requires forall q | q in rows :: rows[q].stock.org == org && HasStock(s, org, q)
    ensures Writes(kind, rows, lines)[p].org == org && HasStock(s, org, p)
  {
    var last := lines[|lines| - 1];
    assert last in lines;
    if p != last.productId {
      WritesOwned(kind, s, org, lines[..|lines| - 1], rows, p);
    }
  }

  lemma ReserveOwned(s: Store, c: Call)
    requires c.req.Reserve? && WellFormed(c.req) && Fresh(s, c.freshId)
    ensures Owned(s, ReserveDecision(c, Rows(s, c.req.org, ProductsOf(c.req.lines))).effect, c.req.org)
  {
    var rows := Rows(s, c.req.org, ProductsOf(c.req.lines));
    NoShortfallMeansAvailable(c.req.lines, rows);
    if Shortfalls(c.req.lines, rows) == [] {
      forall p | p in Writes(Hold, rows, c.req.lines)
        ensures Writes(Hold, rows, c.req.lines)[p].org == c.req.org && HasStock(s, c.req.org, p)
      {
        WritesOwned(Hold, s, c.req.org, c.req.lines, rows, p);
      }
    }
  }

  lemma TransitionOwned(kind: Kind, s: Store, c: Call, o: Uuid)
    requires !kind.Hold? && TransitionExec(kind, s, c, o).Decision?
    ensures Owned(s, TransitionExec(kind, s, c, o).effect, c.req.org)
  {
    if IsPending(s, c.req.org, o) {
      var lines := OrderLines(s.items, o);
      var rows := Rows(s, c.req.org, ProductsOf(lines));
      forall p | p in Writes(kind, rows, lines)
        ensures Writes(kind, rows, lines)[p].org == c.req.org && HasStock(s, c.req.org, p)
      {
        WritesOwned(kind, s, c.req.org, lines, rows, p);
      }
    }
  }

  lemma WritesOnlyItsSlice(s: Store, c: Call)
    requires StockLinked(s) && WellFormed(c.req) && Fresh(s, c.freshId) && Exec(s, c).Decision?
    ensures Owned(s, Exec(s, c).effect, c.req.org)
  {
    match c.req
    case Reserve(_, _, _) => ReserveOwned(s, c);
    case Release(_, o) => TransitionOwned(Free, s, c, o);
    case Fulfill(_, o) => TransitionOwned(Ship, s, c, o);
    case Adjust(_, _, _, _) =>
    case CreateProduct(_, _, _, _) =>
  }

  lemma SliceOfProducts(s: Store, e: Effect, owner: Uuid, org: Uuid)
    requires Owned(s, e, owner)
    ensures OrgProducts(s.products + e.products, org)
            == if owner == org then OrgProducts(s.products, org) + e.products else OrgProducts(s.products, org)
  {
  }

  lemma SliceOfStock(s: Store, e: Effect, owner: Uuid, org: Uuid)
    requires Owned(s, e, owner)
    ensures OrgStock(s.stock + e.stock, org)
            == if owner == org then OrgStock(s.stock, org) + e.stock else OrgStock(s.stock, org)
  {
  }

  lemma SliceOfOrders(s: Store, e: Effect, owner: Uuid, org: Uuid)
    requires Owned(s, e, owner)
    ensures OrgOrders(s.orders + e.orders, org)
            == if owner == org then OrgOrders(s.orders, org) + e.orders else OrgOrders(s.orders, org)
  {
  }

  /** Applying an organisation's writes changes its slice by exactly those writes, and no other
      organisation's slice at all. */
  lemma SliceOfApply(s: Store, e: Effect, owner: Uuid, org: Uuid)
    requires Owned(s, e, owner)
    ensures Slice(Apply(s, e), org) == if owner == org then Apply(Slice(s, org), e) else Slice(s, org)
  {
    SliceOfProducts(s, e, owner, org);
    SliceOfStock(s, e, owner, org);
    SliceOfOrders(s, e, owner, org);
    OrgItemsAppend(s.items, e.items, org);
    OrgItemsUniform(e.items, owner, org);
    OrgMovementsAppend(s.movements, e.movements, org);
    OrgMovementsUniform(e.movements, owner, org);
  }

  // ----- non-interference -----

  /** Two sound stores that agree on one organisation's rows give the same decision to any of its
      operations, and agree on its rows afterwards. */
  lemma SameForTenant(s: Store, t: Store, c: Call)
    requires Inv(s) && Inv(t) && Admissible(s, c) && Admissible(t, c)
    requires Slice(s, c.req.org) == Slice(t, c.req.org)
    ensures Exec(s, c) == Exec(t, c) && Exec(s, c).Decision?
    ensures Slice(Apply(s, Exec(s, c).effect), c.req.org) == Slice(Apply(t, Exec(t, c).effect), c.req.org)
  {
    SeesOnlyItsSlice(s, c);
    SeesOnlyItsSlice(t, c);
    ExecKeepsInv(s, c);
    WritesOnlyItsSlice(s, c);
    WritesOnlyItsSlice(t, c);
    SliceOfApply(s, Exec(s, c).effect, c.req.org, c.req.org);
    SliceOfApply(t, Exec(t, c).effect, c.req.org, c.req.org);
  }

  /** No operation changes a row of another organisation. */
  lemma OthersUntouched(s: Store, c: Call, other: Uuid)
    requires Inv(s) && Admissible(s, c) && other != c.req.org
    ensures Exec(s, c).Decision? && Slice(Apply(s, Exec(s, c).effect), other) == Slice(s, other)
  {
    ExecKeepsInv(s, c);
    WritesOnlyItsSlice(s, c);
    SliceOfApply(s, Exec(s, c).effect, c.req.org, other);
  }

  // ----- with prechecks and idempotency keys -----

  lemma TurnedAwayInSlice(s: Store, req: Request)
    ensures TurnedAway(Slice(s, req.org), req) == TurnedAway(s, req)
  {
    if req.Reserve? {
      forall l | l in req.lines
        ensures HasProduct(Slice(s, req.org), req.org, l.productId) == HasProduct(s, req.org, l.productId) {
      }
    }
  }

  /** A reservation with duplicate lines never reaches `Exec`; everything else is admissible. */
  ghost predicate Sendable(s: Store, c: Call) {
    Guarded(c.req) && WellFormed(c.req) && Fresh(s, c.freshId)
  }

  lemma TransactedInSlice(db: Db, c: Call, key: Text)
    requires Inv(db.store) && Sendable(db.store, c) && TurnedAway(db.store, c.req).None?
    ensures Transacted(DbSlice(db, c.req.org), c, key).1 == Transacted(db, c, key).1
    ensures DbSlice(Transacted(db, c, key).0, c.req.org) == Transacted(DbSlice(db, c.req.org), c, key).0
  {
    var s, org := db.store, c.req.org;
    SeesOnlyItsSlice(s, c);
    ExecKeepsInv(s, c);
    WritesOnlyItsSlice(s, c);
    SliceOfApply(s, Exec(s, c).effect, org, org);
    KeysInSlice(db.keys, KeyOf(c.req, key), CompletedRow(ClaimedRow(FingerprintOf(c.req)), Exec(s, c).outcome));
  }

  /** A guarded request on the whole database does to its organisation's slice, and answers, what
      it would do and answer on that slice alone. */
  lemma ServedInSlice(db: Db, c: Call, key: Text)
    requires Inv(db.store) && Sendable(db.store, c)
    ensures Served(DbSlice(db, c.req.org), c, key).1 == Served(db, c, key).1
    ensures DbSlice(Served(db, c, key).0, c.req.org) == Served(DbSlice(db, c.req.org), c, key).0
  {
    TurnedAwayInSlice(db.store, c.req);
    if TurnedAway(db.store, c.req).None? {
      TransactedInSlice(db, c, key);
    }
  }

  /** The same for all five requests. */
  lemma PerformedInSlice(db: Db, c: Call, key: Text)
    requires Inv(db.store) && WellFormed(c.req) && Fresh(db.store, c.freshId)
    ensures Performed(DbSlice(db, c.req.org), c, key).1 == Performed(db, c, key).1
    ensures DbSlice(Performed(db, c, key).0, c.req.org) == Performed(DbSlice(db, c.req.org), c, key).0
  {
    if Guarded(c.req) {
      ServedInSlice(db, c, key);
    } else {
      SeesOnlyItsSlice(db.store, c);
      ExecKeepsInv(db.store, c);
      WritesOnlyItsSlice(db.store, c);
      SliceOfApply(db.store, Exec(db.store, c).effect, c.req.org, c.req.org);
    }
  }

  /** Two sound databases that agree on one organisation's rows and keys give any of its requests
      the same reply, prechecks and replays included, and agree on it afterwards. */
  lemma SameReplyForTenant(db: Db, db': Db, c: Call, key: Text)
    requires Inv(db.store) && Inv(db'.store) && WellFormed(c.req)
    requires Fresh(db.store, c.freshId) && Fresh(db'.store, c.freshId)
    requires DbSlice(db, c.req.org) == DbSlice(db', c.req.org)
    ensures Performed(db, c, key).1 == Performed(db', c, key).1
    ensures DbSlice(Performed(db, c, key).0, c.req.org) == DbSlice(Performed(db', c, key).0, c.req.org)
  {
    PerformedInSlice(db, c, key);
    PerformedInSlice(db', c, key);
  }

  lemma KeysInSlice(keys: map<KeyId, KeyRow>, id: KeyId, row: KeyRow)
    ensures OrgKeys(keys[id := row], id.org) == OrgKeys(keys, id.org)[id := row]
    ensures id in OrgKeys(keys, id.org) <==> id in keys
  {
  }

  lemma KeysOutside(keys: map<KeyId, KeyRow>, id: KeyId, row: KeyRow, other: Uuid)
    requires other != id.org
    ensures OrgKeys(keys[id := row], other) == OrgKeys(keys, other)
  {
  }

  /** Other organisations' rows and keys are left exactly as they were, whatever the reply. */
  lemma ServedLeavesOthers(db: Db, c: Call, key: Text, other: Uuid)
    requires Inv(db.store) && Sendable(db.store, c) && other != c.req.org
    ensures DbSlice(Served(db, c, key).0, other) == DbSlice(db, other)
  {
    if TurnedAway(db.store, c.req).None? {
      OthersUntouched(db.store, c, other);
      KeysOutside(db.keys, KeyOf(c.req, key),
                  CompletedRow(ClaimedRow(FingerprintOf(c.req)), Exec(db.store, c).outcome), other);
    }
  }

  // ----- in every interleaving -----

  /** Two reachable databases that agree on one organisation give its next operation the same
      decision, and still agree on it afterwards. */
  lemma ReachableSameForTenant(one: seq<Action>, two: seq<Action>, c: Call)
    requires Runs(INITIAL, one) && Runs(INITIAL, two)
    requires var s, t := After(INITIAL, one).db.store, After(INITIAL, two).db.store;
             Admissible(s, c) && Admissible(t, c) && Slice(s, c.req.org) == Slice(t, c.req.org)
    ensures var s, t := After(INITIAL, one).db.store, After(INITIAL, two).db.store;
            && Exec(s, c) == Exec(t, c) && Exec(s, c).Decision?
            && Slice(Apply(s, Exec(s, c).effect), c.req.org) == Slice(Apply(t, Exec(t, c).effect), c.req.org)
  {
    ReachableIsGood(one);
    ReachableIsGood(two);
    SameForTenant(After(INITIAL, one).db.store, After(INITIAL, two).db.store, c);
  }

  /** The same with prechecks and keys. */
  lemma ReachableSameReply(one: seq<Action>, two: seq<Action>, c: Call, key: Text)
    requires Runs(INITIAL, one) && Runs(INITIAL, two) && WellFormed(c.req)
    requires var db, db' := After(INITIAL, one).db, After(INITIAL, two).db;
             Fresh(db.store, c.freshId) && Fresh(db'.store, c.freshId)
             && DbSlice(db, c.req.org) == DbSlice(db', c.req.org)
    ensures var db, db' := After(INITIAL, one).db, After(INITIAL, two).db;
            && Performed(db, c, key).1 == Performed(db', c, key).1
            && DbSlice(Performed(db, c, key).0, c.req.org) == DbSlice(Performed(db', c, key).0, c.req.org)
  {
    ReachableIsGood(one);
    ReachableIsGood(two);
    SameReplyForTenant(After(INITIAL, one).db, After(INITIAL, two).db, c, key);
  }

  /** Whatever one organisation's transactions do, at whatever step, another organisation's
      committed rows and keys stay as they are. */
  lemma ActionLeavesOthers(m: Machine, a: Action, other: Uuid)
    requires Good(m) && Enabled(m, a)
    requires !a.Begin? ==> m.txns[a.i].call.req.org != other
    ensures DbSlice(Do(m, a).db, other) == DbSlice(m.db, other)
  {
    if a.Step? && m.txns[a.i].pc.Commit? {
      CommitLeavesOthers(m.db, m.txns[a.i], other);
      if Do(m, a).db.store != m.db.store {
        OnlySuccessesWrite(m, a);
        StoreLeavesOthers(m, a, other);
      }
    }
  }

  lemma CommitLeavesOthers(db: Db, t: Txn, other: Uuid)
    requires t.call.req.org != other
    ensures OrgKeys(CommitDb(db, t).keys, other) == OrgKeys(db.keys, other)
  {
    if t.keyRow.Some? && Guarded(t.call.req) {
      KeysOutside(db.keys, KeyOf(t.call.req, t.key), t.keyRow.value, other);
    }
  }

  lemma StoreLeavesOthers(m: Machine, a: Action, other: Uuid)
    requires Good(m) && a.Step? && a.i < |m.txns|
    requires m.txns[a.i].pc.Commit? && WellFormed(m.txns[a.i].call.req) && m.txns[a.i].call.req.org != other
    requires Exec(m.db.store, m.txns[a.i].call) == Decision(m.txns[a.i].effect, m.txns[a.i].pc.out)
    ensures Slice(Apply(m.db.store, m.txns[a.i].effect), other) == Slice(m.db.store, other)
  {
    var t := m.txns[a.i];
    assert TxnOk(m.db, t);
    WritesOnlyItsSlice(m.db.store, t.call);
    SliceOfApply(m.db.store, t.effect, t.call.req.org, other);
  }

  // ----- order details -----

  datatype DetailLine = DetailLine(productId: Uuid, sku: Text, quantity: int, unitPriceCents: nat)

  predicate ByDetail(a: DetailLine, b: DetailLine) { a.productId <= b.productId }

  /** The items joined with their products; an item whose product is missing would drop out. */
  function Details(s: Store, items: seq<Item>, o: Uuid): seq<DetailLine> {
    if items == [] then []
    else
      var i := items[|items| - 1];
      Details(s, items[..|items| - 1], o)
      + if i.orderId == o && i.productId in s.products
        then [DetailLine(i.productId, s.products[i.productId].sku, i.quantity, i.unitPriceCents)] else []
  }

  /** `getOrder`; `None` is its 404. */
  function GetOrder(s: Store, org: Uuid, o: Uuid): Option<(Order, seq<DetailLine>)> {
    if o in s.orders && s.orders[o].org == org then Some((s.orders[o], Sort(Details(s, s.items, o), ByDetail)))
    else None
  }

  /** Nothing is left out and nothing made up: one line per item, with its own quantity and price
      and its product's SKU. */
  ghost predicate DetailsOf(s: Store, mine: seq<Item>, lines: seq<DetailLine>) {
    && |lines| == |mine|
    && forall k | 0 <= k < |mine| ::
         var i := mine[k];
         && i.productId in s.products
         && lines[k] == DetailLine(i.productId, s.products[i.productId].sku, i.quantity, i.unitPriceCents)
  }

  lemma {:induction false} DetailsAreItems(s: Store, items: seq<Item>, o: Uuid)
    requires forall i | i in items && i.orderId == o :: i.productId in s.products
    ensures DetailsOf(s, ItemsWith(items, o), Details(s, items, o))
  {
    if items != [] {
      var init, last := items[..|items| - 1], items[|items| - 1];
      assert last in items;
      DetailsAreItems(s, init, o);
    }
  }

  /** `getOrder` finds an order exactly in its own organisation, and answers its row and its items,
      in order of product id. */
  lemma GetOrderIs(s: Store, org: Uuid, o: Uuid) returns (lines: seq<DetailLine>)
    requires ItemsLinked(s)
    ensures GetOrder(s, org, o).Some? <==> o in s.orders && s.orders[o].org == org
    ensures DetailsOf(s, ItemsWith(s.items, o), lines)
    ensures GetOrder(s, org, o).Some? ==>
      && GetOrder(s, org, o).value.0 == s.orders[o]
      && var listed := GetOrder(s, org, o).value.1;
         && multiset(listed) == multiset(lines)
         && forall j, k | 0 <= j < k < |listed| :: listed[j].productId <= listed[k].productId
  {
    lines := Details(s, s.items, o);
    forall i | i in s.items && i.orderId == o ensures i.productId in s.products {
      assert ItemLinked(s, i);
    }
    DetailsAreItems(s, s.items, o);
    SortSorts(lines, ByDetail);
  }

  lemma {:induction false} DetailsAppend(s: Store, a: seq<Item>, b: seq<Item>, o: Uuid)
    ensures Details(s, a + b, o) == Details(s, a, o) + Details(s, b, o)
  {
    if b == [] {
      assert a + b == a;
    } else {
      DetailsAppend(s, a, b[..|b| - 1], o);
      assert (a + b)[..|a + b| - 1] == a + b[..|b| - 1];
    }
  }

  /** Both the items and the joined products of an order are the organisation's own. */
  ghost predicate DetailsOwned(s: Store, items: seq<Item>, org: Uuid, o: Uuid) {
    forall i | i in items && i.orderId == o :: i.org == org && HasProduct(s, org, i.productId)
  }

  lemma {:induction false} DetailsInSlice(s: Store, items: seq<Item>, org: Uuid, o: Uuid)
    requires DetailsOwned(s, items, org, o)
    ensures Details(Slice(s, org), OrgItems(items, org), o) == Details(s, items, o)
    ensures |Details(s, items, o)| == |LinesOf(items, o)|
  {
    if items != [] {
      var init, i := items[..|items| - 1], items[|items| - 1];
      assert i in items;
      DetailsInSlice(s, init, org, o);
      DetailsAppend(Slice(s, org), OrgItems(init, org), if i.org == org then [i] else [], o);
    }
  }

  /** An order's details come from its organisation's slice alone, with no item lost in the join,
      although neither query over the items names the organisation. */
  lemma GetOrderInSlice(s: Store, org: Uuid, o: Uuid)
    requires ItemsLinked(s)
    ensures GetOrder(Slice(s, org), org, o) == GetOrder(s, org, o)
    ensures GetOrder(s, org, o).Some? ==> |GetOrder(s, org, o).value.1| == |LinesOf(s.items, o)|
  {
    if GetOrder(s, org, o).Some? {
      forall i | i in s.items && i.orderId == o ensures i.org == org && HasProduct(s, org, i.productId) {
        assert ItemLinked(s, i);
      }
      DetailsInSlice(s, s.items, org, o);
    }
  }
}
