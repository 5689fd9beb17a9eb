/** When each operation succeeds, what it then does to the stock and what it answers, stated from
    the committed tables rather than from the loops. */
module OperationEffects {
  import opened Tables
  import opened Engine
  import opened Sums
  import opened WriteLoop
  import opened StoreInvariant

  // ----- reserving: all or nothing, and exact -----

  /** What an organisation has left of a product: nothing when it has no inventory row. */
  function Available(s: Store, org: Uuid, p: Uuid): int {
    if HasStock(s, org, p) then s.stock[p].onHand - s.stock[p].reserved else 0
  }

  /** The positions of the short lines, in request order. */
  function ShortPositions(lines: seq<Line>, rows: map<Uuid, Row>): seq<nat> {
    if lines == [] then []
    else
      var last := |lines| - 1;
      ShortPositions(lines[..last], rows)
      + if AvailableIn(rows, lines[last].productId) < lines[last].quantity then [last] else []
  }

  lemma {:induction false} ShortPositionsAre(lines: seq<Line>, rows: map<Uuid, Row>)
    ensures forall i | 0 <= i < |ShortPositions(lines, rows)| :: ShortPositions(lines, rows)[i] < |lines|
    ensures forall i, j | 0 <= i < j < |ShortPositions(lines, rows)| ::
              ShortPositions(lines, rows)[i] < ShortPositions(lines, rows)[j]
    ensures forall k: nat :: k in ShortPositions(lines, rows)
                             <==> k < |lines| && AvailableIn(rows, lines[k].productId) < lines[k].quantity
  {
    if lines != [] {
      ShortPositionsAre(lines[..|lines| - 1], rows);
    }
  }

  /** The shortfall list is the subsequence of short lines. */
  lemma {:induction false} ShortfallsAreShortLines(lines: seq<Line>, rows: map<Uuid, Row>, i: nat)
    ensures |ShortPositions(lines, rows)| == |Shortfalls(lines, rows)|
    ensures i < |Shortfalls(lines, rows)| ==>
              ShortPositions(lines, rows)[i] < |lines|
              && var l := lines[ShortPositions(lines, rows)[i]];
                 Shortfalls(lines, rows)[i] == Shortfall(l.productId, l.quantity, AvailableIn(rows, l.productId))
  {
    if lines != [] {
      ShortfallsAreShortLines(lines[..|lines| - 1], rows, i);
    }
  }

  lemma AvailableAsLocked(s: Store, org: Uuid, ids: set<Uuid>, p: Uuid)
    requires p in ids
    ensures AvailableIn(Rows(s, org, ids), p) == Available(s, org, p)
  {
  }

  /** A reservation succeeds exactly when every line asks no more than what is available;
      otherwise it is answered 409 and writes nothing. */
  lemma ReservationIsExact(s: Store, c: Call)
    requires c.req.Reserve? && WellFormed(c.req)
    ensures Exec(s, c).Decision?
    ensures Exec(s, c).outcome.ok <==>
      forall l | l in c.req.lines :: l.quantity <= Available(s, c.req.org, l.productId)
    ensures !Exec(s, c).outcome.ok ==>
      Exec(s, c).outcome.status == 409 && Exec(s, c).outcome.body.InsufficientStock? && Apply(s, Exec(s, c).effect) == s
  {
    var rows := Rows(s, c.req.org, ProductsOf(c.req.lines));
    NoShortfallMeansAvailable(c.req.lines, rows);
    forall l | l in c.req.lines ensures AvailableIn(rows, l.productId) == Available(s, c.req.org, l.productId) {
      AvailableAsLocked(s, c.req.org, ProductsOf(c.req.lines), l.productId);
    }
    ApplyNothing(s);
  }

  /** A refused reservation names precisely the short lines, in request order, each with what
      was really available: 0 for a product without an inventory row. */
  lemma RefusalNamesShortLines(s: Store, c: Call) returns (at: seq<nat>)
    requires c.req.Reserve? && WellFormed(c.req)
    requires Exec(s, c).Decision? && Exec(s, c).outcome.body.InsufficientStock?
    ensures var lines, shortfalls := c.req.lines, Exec(s, c).outcome.body.shortfalls;
            && |at| == |shortfalls| > 0
            && (forall i, j | 0 <= i < j < |at| :: at[i] < at[j])
            && (forall k: nat ::
                  k in at <==> k < |lines| && Available(s, c.req.org, lines[k].productId) < lines[k].quantity)
            && (forall i | 0 <= i < |at| :: at[i] < |lines| && shortfalls[i] == Shortfall(
                  lines[at[i]].productId, lines[at[i]].quantity, Available(s, c.req.org, lines[at[i]].productId)))
  {
    var lines, rows := c.req.lines, Rows(s, c.req.org, ProductsOf(c.req.lines));
    at := ShortPositions(lines, rows);
    ShortPositionsAre(lines, rows);
    forall k | 0 <= k < |lines|
      ensures AvailableIn(rows, lines[k].productId) == Available(s, c.req.org, lines[k].productId) {
      AvailableAsLocked(s, c.req.org, ProductsOf(lines), lines[k].productId);
    }
    ShortfallsAreShortLines(lines, rows, 0);
    forall i | 0 <= i < |at|
      ensures at[i] < |lines|
      ensures var l := lines[at[i]];
              Shortfalls(lines, rows)[i] == Shortfall(l.productId, l.quantity, Available(s, c.req.org, l.productId))
    {
      ShortfallsAreShortLines(lines, rows, i);
    }
  }

  /** `reserved` of row `p` has risen by the lines' quantity of it, and the new order is pending
      since now, in the requested currency or else USD, with the lines as its items in request
      order. */
  ghost predicate HoldsLines(s: Store, c: Call, s': Store, p: Uuid)
    requires c.req.Reserve?
  {
    && s'.stock.Keys == s.stock.Keys && p in s.stock
    && s'.stock[p] == s.stock[p].(reserved := s.stock[p].reserved + LineQty(c.req.lines, p))
    && s'.orders == s.orders[c.freshId := Order(
         c.req.org, Pending, if c.req.currency.Given? then c.req.currency.code else [85, 83, 68], c.now, None, None)]
    && LinesOf(s'.items, c.freshId) == c.req.lines
  }

  lemma ReservedHoldsLines(s: Store, c: Call, rows: map<Uuid, Row>, s': Store, p: Uuid)
    requires c.req.Reserve? && p in s.stock && LinesOf(s'.items, c.freshId) == c.req.lines
    requires Reserved(s, c.req.org, c.freshId, NewOrder(c), c.req.lines, rows, s')
    ensures HoldsLines(s, c, s', p)
  {
    var order, items := NewOrder(c), ItemsFor(c.req.org, c.freshId, c.req.lines, rows);
    RowAfter(Hold, s, c.req.org, c.freshId, order, c.req.lines, rows, items, s', p);
    KeysAfter(Hold, s, c.req.org, c.freshId, order, c.req.lines, rows, items, s');
  }

  /** What a successful reservation holds. */
  lemma ReservationHolds(s: Store, c: Call, p: Uuid)
    requires StockLinked(s) && ItemsLinked(s) && c.req.Reserve? && Admissible(s, c) && Exec(s, c).outcome.ok
    requires p in s.stock
    ensures HoldsLines(s, c, Apply(s, Exec(s, c).effect), p)
  {
    var rows, s' := Rows(s, c.req.org, ProductsOf(c.req.lines)), Apply(s, Exec(s, c).effect);
    ReserveIsReserved(s, c);
    NewOrderLines(s, c, rows);
    ReservedHoldsLines(s, c, rows, s', p);
  }

  lemma NewOrderLines(s: Store, c: Call, rows: map<Uuid, Row>)
    requires ItemsLinked(s) && c.req.Reserve? && Fresh(s, c.freshId)
    ensures LinesOf(s.items + ItemsFor(c.req.org, c.freshId, c.req.lines, rows), c.freshId) == c.req.lines
  {
    LinesOfAppend(s.items, ItemsFor(c.req.org, c.freshId, c.req.lines, rows), c.freshId);
    LinesOfItemsFor(c.req.org, c.freshId, c.req.lines, rows);
    forall i | i in s.items ensures i.orderId != c.freshId {
      assert ItemLinked(s, i);
    }
    LinesOfAbsent(s.items, c.freshId);
  }

  // ----- releasing and fulfilling -----

  predicate TransitionCall(kind: Kind, c: Call, o: Uuid) {
    match kind
    case Hold => false
    case Free => c.req.Release? && c.req.orderId == o
    case Ship => c.req.Fulfill? && c.req.orderId == o
  }

  /** Row `p` has given back, or shipped, what the order's items hold of it. */
  ghost predicate MovesItems(kind: Kind, s: Store, o: Uuid, s': Store, p: Uuid) {
    var q := ItemQty(s.items, {o}, p);
    && s'.stock.Keys == s.stock.Keys && p in s.stock
    && s'.stock[p] == s.stock[p].(onHand := s.stock[p].onHand - (if kind.Ship? then q else 0),
                                  reserved := s.stock[p].reserved - q)
  }

  lemma TransitionedMovesItems(kind: Kind, s: Store, org: Uuid, o: Uuid, order: Order, lines: seq<Line>,
                               rows: map<Uuid, Row>, s': Store, p: Uuid)
    requires Transitioned(kind, s, org, o, order, lines, rows, s') && p in s.stock
    ensures MovesItems(kind, s, o, s', p)
  {
    RowAfter(kind, s, org, o, order, lines, rows, [], s', p);
    KeysAfter(kind, s, org, o, order, lines, rows, [], s');
    OrderLinesQty(s.items, o, p);
  }

  /** A release or fulfilment succeeds exactly on a pending order of the caller's organisation,
      and then moves exactly what the order's items hold; otherwise it writes nothing. */
  lemma TransitionMovesItems(kind: Kind, s: Store, c: Call, o: Uuid, p: Uuid)
    requires Inv(s) && TransitionCall(kind, c, o) && p in s.stock
    ensures Exec(s, c).Decision?
    ensures Exec(s, c).outcome.ok <==> o in s.orders && s.orders[o].org == c.req.org && s.orders[o].status.Pending?
    ensures if Exec(s, c).outcome.ok then MovesItems(kind, s, o, Apply(s, Exec(s, c).effect), p)
            else Apply(s, Exec(s, c).effect) == s
  {
    if IsPending(s, c.req.org, o) {
      TransitionIsTransitioned(kind, s, c, o);
      var lines := OrderLines(s.items, o);
      TransitionedMovesItems(kind, s, c.req.org, o, Terminal(kind, s.orders[o], c.now), lines,
                             Rows(s, c.req.org, ProductsOf(lines)), Apply(s, TransitionExec(kind, s, c, o).effect), p);
    } else {
      ApplyNothing(s);
    }
  }

  /** A later call is for the order a reservation just created. */
  predicate OnNewOrder(kind: Kind, reserve: Call, c: Call) {
    reserve.req.Reserve? && TransitionCall(kind, c, reserve.freshId) && c.req.org == reserve.req.org
  }

  /** `s1` is what the successful reservation leaves of `s`, seen from one inventory row. */
  ghost predicate Holds(s: Store, reserve: Call, s1: Store, p: Uuid) {
    && reserve.req.Reserve? && p in s.stock && p in s1.stock
    && IsPending(s1, reserve.req.org, reserve.freshId)
    && s1.stock[p] == s.stock[p].(reserved := s.stock[p].reserved + LineQty(reserve.req.lines, p))
    && ItemQty(s1.items, {reserve.freshId}, p) == LineQty(reserve.req.lines, p)
  }

  lemma ReservedHolds(s: Store, reserve: Call, p: Uuid)
    requires Inv(s) && reserve.req.Reserve? && Admissible(s, reserve) && Exec(s, reserve).outcome.ok && p in s.stock
    ensures Holds(s, reserve, Apply(s, Exec(s, reserve).effect), p)
  {
    ExecKeepsInv(s, reserve);
    ReservationHolds(s, reserve, p);
    LineQtyOfItems(Apply(s, Exec(s, reserve).effect).items, reserve.freshId, p);
  }

  /** `s2` differs from `s` in row `p` by what was shipped, and in nothing when it was not. */
  ghost predicate Settled(kind: Kind, s: Store, lines: seq<Line>, s2: Store, p: Uuid) {
    && p in s.stock && p in s2.stock
    && s2.stock[p] == s.stock[p].(onHand := s.stock[p].onHand - if kind.Ship? then LineQty(lines, p) else 0)
  }

  lemma TransitionSettles(kind: Kind, s: Store, reserve: Call, s1: Store, c: Call, p: Uuid)
    requires Holds(s, reserve, s1, p) && Inv(s1) && OnNewOrder(kind, reserve, c)
    ensures Exec(s1, c).Decision? && Exec(s1, c).outcome.ok
    ensures Settled(kind, s, reserve.req.lines, Apply(s1, Exec(s1, c).effect), p)
  {
    TransitionMovesItems(kind, s1, c, reserve.freshId, p);
  }

  /** Reserving and then cancelling puts every inventory row back; reserving and then fulfilling
      takes exactly the ordered quantities off the shelf and holds nothing. */
  lemma ReserveThenTransition(kind: Kind, s: Store, reserve: Call, c: Call, p: Uuid)
    requires Inv(s) && Admissible(s, reserve) && OnNewOrder(kind, reserve, c) && Exec(s, reserve).outcome.ok
    requires p in s.stock
    ensures var s1 := Apply(s, Exec(s, reserve).effect);
            && Exec(s1, c).Decision? && Exec(s1, c).outcome.ok
            && Settled(kind, s, reserve.req.lines, Apply(s1, Exec(s1, c).effect), p)
  {
    ReservedHolds(s, reserve, p);
    ExecKeepsInv(s, reserve);
    TransitionSettles(kind, s, reserve, Apply(s, Exec(s, reserve).effect), c, p);
  }

  // ----- every write of a loop -----

  ghost predicate InRange(stock: map<Uuid, Stock>) {
    forall p | p in stock :: 0 <= stock[p].reserved <= stock[p].onHand <= INT4_MAX
  }

  /** What the checks before, or in, the write loop establish of a line. */
  ghost predicate Fits(kind: Kind, rows: map<Uuid, Row>, l: Line) {
    && 1 <= l.quantity && l.productId in rows
    && if kind.Hold? then l.quantity <= AvailableIn(rows, l.productId) else !Uncovered(kind, rows, l)
  }

  lemma {:induction false} PrefixInRange(kind: Kind, stock: map<Uuid, Stock>, rows: map<Uuid, Row>, lines: seq<Line>)
    requires SnapshotOf(rows, stock) && Covers(rows, lines) && InRange(stock)
    requires forall l | l in lines :: Fits(kind, rows, l)
    ensures InRange(stock + Writes(kind, rows, lines))
  {
    if lines != [] {
      var l := lines[|lines| - 1];
      var before := stock + Writes(kind, rows, lines[..|lines| - 1]);
      assert l in lines && Fits(kind, rows, l);
      assert rows[l.productId].stock == stock[l.productId];
      PrefixInRange(kind, stock, rows, lines[..|lines| - 1]);
      assert stock + Writes(kind, rows, lines) == before[l.productId := Shift(kind, stock[l.productId], l.quantity)];
    }
  }

  lemma TakenInRange(kind: Kind, stock: map<Uuid, Stock>, rows: map<Uuid, Row>, lines: seq<Line>, k: nat)
    requires SnapshotOf(rows, stock) && Covers(rows, lines) && InRange(stock) && k <= |lines|
    requires forall l | l in lines :: Fits(kind, rows, l)
    ensures Covers(rows, lines[..k]) && InRange(stock + Writes(kind, rows, lines[..k]))
  {
    assert forall l | l in lines[..k] :: l in lines;
    PrefixInRange(kind, stock, rows, lines[..k]);
  }

  /** Not only at commit: after every single row update of a reservation, release or fulfilment
      the CHECK constraints and the int4 range hold. */
  lemma EveryWriteInRange(kind: Kind, s: Store, c: Call, lines: seq<Line>, k: nat)
    requires Inv(s) && Admissible(s, c) && k <= |lines|
    requires if kind.Hold? then c.req.Reserve? && lines == c.req.lines && Exec(s, c).outcome.ok
             else exists o :: TransitionCall(kind, c, o) && IsPending(s, c.req.org, o)
                    && lines == OrderLines(s.items, o)
    ensures var rows := Rows(s, c.req.org, ProductsOf(lines));
            && Covers(rows, lines[..k])
            && InRange(s.stock + Writes(kind, rows, lines[..k]))
  {
    var rows := Rows(s, c.req.org, ProductsOf(lines));
    if kind.Hold? {
      NoShortfallMeansAvailable(lines, rows);
    } else {
      var o :| TransitionCall(kind, c, o) && IsPending(s, c.req.org, o) && lines == OrderLines(s.items, o);
      TransitionLines(s, c.req.org, o);
      TransitionCovered(kind, s, c.req.org, o);
    }
    TakenInRange(kind, s.stock, rows, lines, k);
  }

  // ----- adjusting and creating products -----

  /** The on-hand count an adjustment would lead to. */
  function Target(s: Store, c: Call): int
    requires c.req.Adjust?
  {
    c.req.delta + if c.req.productId in s.stock then s.stock[c.req.productId].onHand else 0
  }

  /** An adjustment succeeds exactly when the product is the organisation's own and the new count
      stays between what is reserved and the int4 maximum. */
  lemma AdjustmentIsExact(s: Store, c: Call)
    requires StockLinked(s) && Bounded(s) && c.req.Adjust? && WellFormed(c.req)
    ensures Exec(s, c).Decision?
    ensures var d, p, mine := Exec(s, c), c.req.productId, HasProduct(s, c.req.org, c.req.productId);
            && (d.outcome.status == 404 <==> !mine)
            && (d.outcome.status == 422 <==> mine && Target(s, c) > 2147483647)
            && (d.outcome.status == 409 <==> mine && Target(s, c) < s.stock[p].reserved)
            && (d.outcome.ok <==> mine && s.stock[p].reserved <= Target(s, c) <= 2147483647)
  {
    if HasProduct(s, c.req.org, c.req.productId) {
      assert HasStock(s, c.req.org, c.req.productId);
    }
  }

  /** A successful adjustment moves one count by `delta`, appends one movement that says so, and
      answers the new counts; a refused one writes nothing and says why with the counts it saw. */
  lemma AdjustmentWrites(s: Store, c: Call)
    requires StockLinked(s) && Bounded(s) && c.req.Adjust? && WellFormed(c.req)
    ensures Exec(s, c).Decision?
    ensures var p, delta, out, s' := c.req.productId, c.req.delta, Exec(s, c).outcome, Apply(s, Exec(s, c).effect);
            if out.ok then
              var n, held := s.stock[p].onHand + delta, s.stock[p].reserved;
              && s' == Store(s.products, s.stock[p := Stock(c.req.org, n, held)], s.orders, s.items,
                             s.movements + [Movement(c.req.org, p, OnHandAdjustment, delta, 0, None)])
              && out == Outcome(true, 200, StockBody(p, n, held, n - held))
            else
              && s' == s
              && (out.status == 404 ==> out.body == ProductNotFound)
              && (out.status == 422 ==> out.body == Overflow)
              && (out.status == 409 ==>
                    var onHand, held := s.stock[p].onHand, s.stock[p].reserved;
                    out.body == if onHand + delta < 0 then NegativeOnHand(onHand, delta)
                                else BelowReserved(onHand, held, delta))
  {
    AdjustmentIsExact(s, c);
    ApplyNothing(s);
  }

  /** Were a product without its inventory row, a decrease would be refused and an increase would
      start the row. */
  lemma AdjustmentWithoutRow(s: Store, c: Call)
    requires c.req.Adjust? && WellFormed(c.req) && HasProduct(s, c.req.org, c.req.productId)
    requires c.req.productId !in s.stock
    ensures Exec(s, c).Decision?
    ensures var p, delta, out, s' := c.req.productId, c.req.delta, Exec(s, c).outcome, Apply(s, Exec(s, c).effect);
            if delta < 0 then out == Outcome(false, 409, NoInventoryRecord) && s' == s
            else
              && out == Outcome(true, 200, StockBody(p, delta, 0, delta))
              && s' == Store(s.products, s.stock[p := Stock(c.req.org, delta, 0)], s.orders, s.items,
                             s.movements + [Movement(c.req.org, p, OnHandAdjustment, delta, 0, None)])
  {
    ApplyNothing(s);
  }

  /** A product is created exactly when the organisation has none with its SKU, whatever other
      organisations have. It starts with the requested stock, or none, and nothing reserved; only
      a positive stock leaves a movement. */
  lemma CreationIsExact(s: Store, c: Call)
    requires c.req.CreateProduct? && Admissible(s, c)
    ensures Exec(s, c).Decision?
    ensures Exec(s, c).outcome.ok <==>
      forall p | p in s.products && s.products[p].sku == c.req.sku :: s.products[p].org != c.req.org
    ensures var id, out, s' := c.freshId, Exec(s, c).outcome, Apply(s, Exec(s, c).effect);
            if out.ok then
              var n := if c.req.initialOnHand.None? then 0 else c.req.initialOnHand.value;
              && s' == Store(s.products[id := Product(c.req.org, c.req.sku, c.req.unitPriceCents)],
                             s.stock[id := Stock(c.req.org, n, 0)], s.orders, s.items,
                             s.movements + if n == 0 then []
                                           else [Movement(c.req.org, id, OnHandAdjustment, n, 0, None)])
              && out == Outcome(true, 201, StockBody(id, n, 0, n))
            else s' == s && out == Outcome(false, 409, SkuTaken)
  {
    ApplyNothing(s);
  }

  // ----- answers -----

  /** The order's items as they are stored. */
  function ItemsOf(items: seq<Item>, o: Uuid): seq<PricedLine> {
    if items == [] then []
    else
      var i := items[|items| - 1];
      ItemsOf(items[..|items| - 1], o)
      + if i.orderId == o then [PricedLine(i.productId, i.quantity, i.unitPriceCents)] else []
  }

  /** What a successful answer says is what the tables hold after it. */
  ghost predicate Describes(s: Store, c: Call, body: Body) {
    match body
    case ReservationBody(o, status, currency, items, createdAt) =>
      && o in s.orders && s.orders[o].org == c.req.org && s.orders[o].status == status
      && c.req.Reserve? && s.orders[o].currency == currency && s.orders[o].createdAt == createdAt == c.now
      && currency == (if c.req.currency.Given? then c.req.currency.code else [85, 83, 68])
      && items == ItemsOf(s.items, o)
      && forall i | i in items :: HasProduct(s, c.req.org, i.productId)
                                  && i.unitPriceCents == s.products[i.productId].unitPriceCents
    case TransitionBody(o, status, at) =>
      && o in s.orders && s.orders[o].org == c.req.org && s.orders[o].status == status
      && at == c.now
      && s.orders[o].cancelledAt == (if status.Cancelled? then Some(at) else None)
      && s.orders[o].fulfilledAt == (if status.Fulfilled? then Some(at) else None)
    case StockBody(p, onHand, reserved, available) =>
      && HasStock(s, c.req.org, p) && s.stock[p].onHand == onHand && s.stock[p].reserved == reserved
      && available == Available(s, c.req.org, p)
    case _ => false
  }

  lemma {:induction false} ItemsOfAppend(a: seq<Item>, b: seq<Item>, o: Uuid)
    ensures ItemsOf(a + b, o) == ItemsOf(a, o) + ItemsOf(b, o)
  {
    if b == [] {
      assert a + b == a;
    } else {
      ItemsOfAppend(a, b[..|b| - 1], o);
      assert (a + b)[..|a + b| - 1] == a + b[..|b| - 1];
    }
  }

  lemma {:induction false} ItemsOfAbsent(items: seq<Item>, o: Uuid)
    requires forall i | i in items :: i.orderId != o
    ensures ItemsOf(items, o) == []
  {
    if items != [] {
      ItemsOfAbsent(items[..|items| - 1], o);
    }
  }

  lemma {:induction false} ItemsOfNew(org: Uuid, o: Uuid, lines: seq<Line>, rows: map<Uuid, Row>)
    ensures ItemsOf(ItemsFor(org, o, lines, rows), o) == Priced(lines, rows)
  {
    if lines != [] {
      var init := lines[..|lines| - 1];
      ItemsOfNew(org, o, init, rows);
      assert ItemsFor(org, o, lines, rows)[..|lines| - 1] == ItemsFor(org, o, init, rows);
    }
  }

  lemma NewItemsStored(s: Store, c: Call, rows: map<Uuid, Row>)
    requires ItemsLinked(s) && c.req.Reserve? && Fresh(s, c.freshId)
    ensures ItemsOf(s.items + ItemsFor(c.req.org, c.freshId, c.req.lines, rows), c.freshId) == Priced(c.req.lines, rows)
  {
    ItemsOfAppend(s.items, ItemsFor(c.req.org, c.freshId, c.req.lines, rows), c.freshId);
    ItemsOfNew(c.req.org, c.freshId, c.req.lines, rows);
    forall i | i in s.items ensures i.orderId != c.freshId {
      assert ItemLinked(s, i);
    }
    ItemsOfAbsent(s.items, c.freshId);
  }

  lemma PricedFromProducts(s: Store, org: Uuid, lines: seq<Line>, rows: map<Uuid, Row>, i: PricedLine)
    requires StockLinked(s) && rows == Rows(s, org, ProductsOf(lines)) && Covers(rows, lines)
    requires i in Priced(lines, rows)
    ensures HasProduct(s, org, i.productId) && i.unitPriceCents == s.products[i.productId].unitPriceCents
  {
    var k :| 0 <= k < |lines| && i == Priced(lines, rows)[k];
    assert lines[k] in lines;
  }

  lemma PricesStored(s: Store, c: Call, rows: map<Uuid, Row>)
    requires StockLinked(s) && c.req.Reserve? && rows == Rows(s, c.req.org, ProductsOf(c.req.lines))
    requires Covers(rows, c.req.lines)
    ensures forall i | i in Priced(c.req.lines, rows) ::
              HasProduct(s, c.req.org, i.productId) && i.unitPriceCents == s.products[i.productId].unitPriceCents
  {
    forall i | i in Priced(c.req.lines, rows)
      ensures HasProduct(s, c.req.org, i.productId) && i.unitPriceCents == s.products[i.productId].unitPriceCents
    {
      PricedFromProducts(s, c.req.org, c.req.lines, rows, i);
    }
  }

  lemma ReservedDescribes(s: Store, c: Call, rows: map<Uuid, Row>, s': Store)
    requires c.req.Reserve? && s'.products == s.products && s'.orders == s.orders[c.freshId := NewOrder(c)]
    requires ItemsOf(s'.items, c.freshId) == Priced(c.req.lines, rows)
    requires forall i | i in Priced(c.req.lines, rows) ::
               HasProduct(s, c.req.org, i.productId) && i.unitPriceCents == s.products[i.productId].unitPriceCents
    ensures Describes(s', c, ReservedOutcome(c, rows).body)
  {
  }

  /** The store and the answer of a successful reservation, from the rows it locks. */
  lemma ReservationDecided(s: Store, c: Call)
    requires c.req.Reserve? && WellFormed(c.req) && Exec(s, c).outcome.ok
    ensures var rows, s' := Rows(s, c.req.org, ProductsOf(c.req.lines)), Apply(s, Exec(s, c).effect);
            && Covers(rows, c.req.lines) && Exec(s, c).outcome == ReservedOutcome(c, rows)
            && s'.products == s.products && s'.orders == s.orders[c.freshId := NewOrder(c)]
            && s'.items == s.items + ItemsFor(c.req.org, c.freshId, c.req.lines, rows)
            && s'.movements == s.movements + Movements(Hold, c.req.org, c.freshId, c.req.lines)
  {
    NoShortfallMeansAvailable(c.req.lines, Rows(s, c.req.org, ProductsOf(c.req.lines)));
  }

  lemma ReservationDescribes(s: Store, c: Call)
    requires StockLinked(s) && ItemsLinked(s) && c.req.Reserve? && WellFormed(c.req) && Fresh(s, c.freshId)
    requires Exec(s, c).outcome.ok
    ensures Describes(Apply(s, Exec(s, c).effect), c, Exec(s, c).outcome.body)
  {
    var rows := Rows(s, c.req.org, ProductsOf(c.req.lines));
    ReservationDecided(s, c);
    NewItemsStored(s, c, rows);
    PricesStored(s, c, rows);
    ReservedDescribes(s, c, rows, Apply(s, Exec(s, c).effect));
  }

  lemma TransitionDescribes(kind: Kind, s: Store, c: Call, o: Uuid)
    requires Inv(s) && TransitionCall(kind, c, o) && IsPending(s, c.req.org, o)
    ensures TransitionExec(kind, s, c, o).Decision?
    ensures Describes(Apply(s, TransitionExec(kind, s, c, o).effect), c, TransitionExec(kind, s, c, o).outcome.body)
  {
    TransitionIsTransitioned(kind, s, c, o);
    assert Stamped(s.orders[o]);
  }

  /** Whatever a successful operation answers agrees with what it has written. */
  lemma AnswerDescribesStore(s: Store, c: Call)
    requires Inv(s) && Admissible(s, c) && Exec(s, c).Decision? && Exec(s, c).outcome.ok
    ensures Describes(Apply(s, Exec(s, c).effect), c, Exec(s, c).outcome.body)
  {
    match c.req
    case Reserve(_, _, _) => ReservationDescribes(s, c);
    case Release(_, o) => TransitionDescribes(Free, s, c, o);
    case Fulfill(_, o) => TransitionDescribes(Ship, s, c, o);
    case Adjust(_, _, _, _) => AdjustmentDescribes(s, c);
    case CreateProduct(_, _, _, _) =>
  }

  lemma AdjustmentStored(s: Store, c: Call, d: Decision)
    requires c.req.Adjust? && d == AdjustDecision(c, StockRow(s, c.req.org, c.req.productId)) && d.outcome.ok
    ensures d.effect.stock.Keys == {c.req.productId} && d.effect.stock[c.req.productId].org == c.req.org
    ensures var row := d.effect.stock[c.req.productId];
            d.outcome.body == StockBody(c.req.productId, row.onHand, row.reserved, row.onHand - row.reserved)
  {
  }

  lemma AdjustmentDescribes(s: Store, c: Call)
    requires c.req.Adjust? && WellFormed(c.req) && Exec(s, c).outcome.ok
    ensures Describes(Apply(s, Exec(s, c).effect), c, Exec(s, c).outcome.body)
  {
    AdjustmentStored(s, c, Exec(s, c));
  }
}
