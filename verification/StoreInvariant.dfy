/** What every committed store satisfies, and that every serial operation keeps it. */
module StoreInvariant {
  import opened Tables
  import opened Sorting
  import opened Engine
  import opened Sums
  import opened WriteLoop

  // ----- the invariant -----

  /** One inventory row per product, in the product's organisation. */
  ghost predicate StockLinked(s: Store) {
    s.stock.Keys == s.products.Keys && forall p | p in s.stock :: s.stock[p].org == s.products[p].org
  }

  ghost predicate ItemLinked(s: Store, i: Item) {
    && 1 <= i.quantity <= INT4_MAX
    && i.orderId in s.orders && s.orders[i.orderId].org == i.org
    && i.productId in s.products && s.products[i.productId].org == i.org
  }

  ghost predicate ItemsLinked(s: Store) {
    forall i | i in s.items :: ItemLinked(s, i)
  }

  ghost predicate MovementLinked(s: Store, m: Movement) {
    && m.productId in s.products && s.products[m.productId].org == m.org
    && (m.orderRef.Some? ==> m.orderRef.value in s.orders)
  }

  ghost predicate MovementsLinked(s: Store) {
    forall m | m in s.movements :: MovementLinked(s, m)
  }

  /** No order names a product twice. */
  ghost predicate LinesDistinct(s: Store) {
    forall o :: DistinctProducts(LinesOf(s.items, o))
  }

  ghost predicate UniqueSkus(s: Store) {
    forall p, q | p in s.products && q in s.products && p != q ::
      s.products[p].org != s.products[q].org || s.products[p].sku != s.products[q].sku
  }

  /** The three CHECK constraints and the int4 column range. */
  ghost predicate Bounded(s: Store) {
    forall p | p in s.stock :: 0 <= s.stock[p].reserved <= s.stock[p].onHand <= INT4_MAX
  }

  function HeldQty(s: Store, status: Status, p: Uuid): int {
    ItemQty(s.items, OrdersIn(s.orders, status), p)
  }

  /** `reserved` is exactly what the pending orders hold. */
  ghost predicate Backed(s: Store) {
    forall p | p in s.stock :: s.stock[p].reserved == HeldQty(s, Pending, p)
  }

  /** The movement ledger explains both counters of a row. */
  ghost predicate RowLedgered(s: Store, p: Uuid)
    requires p in s.stock
  {
    && s.stock[p].onHand == Sum(s.movements, OnHandOf(p))
    && s.stock[p].reserved == Sum(s.movements, ReservedOf(p))
    && s.stock[p].onHand == Sum(s.movements, AdjustedOf(p)) - HeldQty(s, Fulfilled, p)
  }

  ghost predicate Ledgered(s: Store) {
    forall p | p in s.stock :: RowLedgered(s, p)
  }

  ghost predicate Stamped(o: Order) {
    && (o.cancelledAt.Some? <==> o.status.Cancelled?)
    && (o.fulfilledAt.Some? <==> o.status.Fulfilled?)
  }

  ghost predicate AllStamped(s: Store) {
    forall o | o in s.orders :: Stamped(s.orders[o])
  }

  /** Each order's own movements, netted per product. */
  ghost predicate OrderNetted(s: Store, o: Uuid, p: Uuid)
    requires o in s.orders
  {
    var q := ItemQty(s.items, {o}, p);
    && Sum(s.movements, ReservedFor(o, p)) == (if s.orders[o].status.Pending? then q else 0)
    && Sum(s.movements, OnHandFor(o, p)) == (if s.orders[o].status.Fulfilled? then -q else 0)
  }

  ghost predicate Netted(s: Store) {
    forall o, p | o in s.orders :: OrderNetted(s, o, p)
  }

  ghost predicate Linked(s: Store) {
    StockLinked(s) && ItemsLinked(s) && MovementsLinked(s) && LinesDistinct(s) && UniqueSkus(s)
  }

  ghost predicate Inv(s: Store) {
    Linked(s) && Bounded(s) && Backed(s) && Ledgered(s) && AllStamped(s) && Netted(s)
  }

  predicate Fresh(s: Store, id: Uuid) {
    id !in s.orders && id !in s.products
  }

  /** What the DTO, the duplicate-line check and the id generator guarantee of a call. */
  ghost predicate Admissible(s: Store, c: Call) {
    WellFormed(c.req) && Fresh(s, c.freshId) && (c.req.Reserve? ==> DistinctProducts(c.req.lines))
  }

  // ----- the lines of an order -----

  lemma {:induction false} LinesOfAppend(a: seq<Item>, b: seq<Item>, o: Uuid)
    ensures LinesOf(a + b, o) == LinesOf(a, o) + LinesOf(b, o)
  {
    if b == [] {
      assert a + b == a;
    } else {
      LinesOfAppend(a, b[..|b| - 1], o);
      assert (a + b)[..|a + b| - 1] == a + b[..|b| - 1];
    }
  }

  lemma {:induction false} LinesOfAbsent(items: seq<Item>, o: Uuid)
    requires forall i | i in items :: i.orderId != o
    ensures LinesOf(items, o) == []
  {
    if items != [] {
      LinesOfAbsent(items[..|items| - 1], o);
    }
  }

  lemma {:induction false} LinesOfItemsFor(org: Uuid, o: Uuid, lines: seq<Line>, rows: map<Uuid, Row>)
    ensures LinesOf(ItemsFor(org, o, lines, rows), o) == lines
  {
    if lines != [] {
      var init := lines[..|lines| - 1];
      LinesOfItemsFor(org, o, init, rows);
      assert ItemsFor(org, o, lines, rows)[..|lines| - 1] == ItemsFor(org, o, init, rows);
      assert lines == init + [lines[|lines| - 1]];
    }
  }

  lemma {:induction false} LinesOfFrom(items: seq<Item>, o: Uuid, l: Line) returns (i: Item)
    requires l in LinesOf(items, o)
    ensures i in items && i.orderId == o && i.productId == l.productId && i.quantity == l.quantity
  {
    var init := items[..|items| - 1];
    if l in LinesOf(init, o) {
      i := LinesOfFrom(init, o, l);
    } else {
      i := items[|items| - 1];
    }
  }

  // ----- any operation over an order's lines -----

  /** The store after `kind` has moved `lines` for order `o`. */
  ghost predicate MovedTo(kind: Kind, s: Store, org: Uuid, o: Uuid, order: Order, lines: seq<Line>,
                        rows: map<Uuid, Row>, added: seq<Item>, s': Store) {
    && Covers(rows, lines) && SnapshotOf(rows, s.stock) && DistinctProducts(lines)
    && s'.products == s.products
    && s'.stock == s.stock + Writes(kind, rows, lines)
    && s'.orders == s.orders[o := order]
    && s'.items == s.items + added
    && s'.movements == s.movements + Movements(kind, org, o, lines)
  }

  lemma RowAfter(kind: Kind, s: Store, org: Uuid, o: Uuid, order: Order, lines: seq<Line>, rows: map<Uuid, Row>,
                 added: seq<Item>, s': Store, p: Uuid)
    requires MovedTo(kind, s, org, o, order, lines, rows, added, s') && p in s.stock
    ensures p in s'.stock && s'.stock[p] == Shift(kind, s.stock[p], LineQty(lines, p))
  {
    WritesKeys(kind, rows, lines);
    if p in ProductsOf(lines) {
      WritesAre(kind, rows, lines, p);
    } else {
      LineQtyAbsent(lines, p);
    }
  }

  lemma KeysAfter(kind: Kind, s: Store, org: Uuid, o: Uuid, order: Order, lines: seq<Line>, rows: map<Uuid, Row>,
                  added: seq<Item>, s': Store)
    requires MovedTo(kind, s, org, o, order, lines, rows, added, s')
    ensures s'.stock.Keys == s.stock.Keys
  {
    WritesKeys(kind, rows, lines);
    assert ProductsOf(lines) <= s.stock.Keys;
  }

  lemma SumAfter(kind: Kind, s: Store, org: Uuid, o: Uuid, order: Order, lines: seq<Line>, rows: map<Uuid, Row>,
                 added: seq<Item>, s': Store, c: Column)
    requires MovedTo(kind, s, org, o, order, lines, rows, added, s')
    ensures Sum(s'.movements, c) == Sum(s.movements, c) + MovedBy(kind, o, lines, c)
  {
    SumAppend(s.movements, Movements(kind, org, o, lines), c);
    MovementsSum(kind, org, o, lines, c);
  }

  lemma StockAfter(kind: Kind, s: Store, org: Uuid, o: Uuid, order: Order, lines: seq<Line>, rows: map<Uuid, Row>,
                   added: seq<Item>, s': Store)
    requires MovedTo(kind, s, org, o, order, lines, rows, added, s') && StockLinked(s)
    ensures StockLinked(s')
  {
    KeysAfter(kind, s, org, o, order, lines, rows, added, s');
    forall p | p in s.stock ensures s'.stock[p].org == s.stock[p].org {
      RowAfter(kind, s, org, o, order, lines, rows, added, s', p);
    }
  }

  lemma MovementsAfter(kind: Kind, s: Store, org: Uuid, o: Uuid, order: Order, lines: seq<Line>, rows: map<Uuid, Row>,
                       added: seq<Item>, s': Store)
    requires MovedTo(kind, s, org, o, order, lines, rows, added, s') && MovementsLinked(s) && StockLinked(s)
    requires forall p | p in rows :: rows[p].stock.org == org
    ensures MovementsLinked(s')
  {
    forall m | m in s'.movements ensures MovementLinked(s', m) {
      if m in s.movements {
        assert MovementLinked(s, m);
      } else {
        var k :| 0 <= k < |lines| && m == MovementOf(kind, org, o, lines[k]);
        assert lines[k] in lines;
        assert lines[k].productId in s.stock;
      }
    }
  }

  /** How much each status holds of `p` afterwards decides whether the row is still explained. */
  lemma LedgerAfter(kind: Kind, s: Store, org: Uuid, o: Uuid, order: Order, lines: seq<Line>, rows: map<Uuid, Row>,
                    added: seq<Item>, s': Store, p: Uuid)
    requires MovedTo(kind, s, org, o, order, lines, rows, added, s') && p in s.stock && RowLedgered(s, p)
    requires s.stock[p].reserved == HeldQty(s, Pending, p)
    requires HeldQty(s', Pending, p) == HeldQty(s, Pending, p) + ReservedDelta(kind, LineQty(lines, p))
    requires HeldQty(s', Fulfilled, p) == HeldQty(s, Fulfilled, p) - OnHandDelta(kind, LineQty(lines, p))
    ensures p in s'.stock && RowLedgered(s', p) && s'.stock[p].reserved == HeldQty(s', Pending, p)
  {
    RowAfter(kind, s, org, o, order, lines, rows, added, s', p);
    SumAfter(kind, s, org, o, order, lines, rows, added, s', OnHandOf(p));
    SumAfter(kind, s, org, o, order, lines, rows, added, s', ReservedOf(p));
    SumAfter(kind, s, org, o, order, lines, rows, added, s', AdjustedOf(p));
  }

  // ----- reserve -----

  ghost predicate Reserved(s: Store, org: Uuid, id: Uuid, order: Order, lines: seq<Line>,
                           rows: map<Uuid, Row>, s': Store) {
    && MovedTo(Hold, s, org, id, order, lines, rows, ItemsFor(org, id, lines, rows), s')
    && Fresh(s, id) && order.status.Pending? && order.org == org && Stamped(order)
    && (forall l | l in lines :: 1 <= l.quantity <= INT4_MAX && l.quantity <= AvailableIn(rows, l.productId))
    && (forall p | p in rows :: rows[p].stock.org == org)
  }

  lemma ReserveBounds(s: Store, org: Uuid, id: Uuid, order: Order, lines: seq<Line>, rows: map<Uuid, Row>, s': Store)
    requires Reserved(s, org, id, order, lines, rows, s') && Bounded(s)
    ensures Bounded(s')
  {
    var added := ItemsFor(org, id, lines, rows);
    KeysAfter(Hold, s, org, id, order, lines, rows, added, s');
    forall p | p in s.stock ensures 0 <= s'.stock[p].reserved <= s'.stock[p].onHand <= INT4_MAX {
      RowAfter(Hold, s, org, id, order, lines, rows, added, s', p);
      if p in ProductsOf(lines) {
        var k :| 0 <= k < |lines| && lines[k].productId == p;
        assert lines[k] in lines;
        LineQtyAt(lines, k);
      } else {
        LineQtyAbsent(lines, p);
      }
    }
  }

  lemma ReserveHeld(s: Store, org: Uuid, id: Uuid, order: Order, lines: seq<Line>, rows: map<Uuid, Row>, s': Store,
                    status: Status, p: Uuid)
    requires Reserved(s, org, id, order, lines, rows, s') && forall i | i in s.items :: i.orderId != id
    ensures HeldQty(s', status, p) == HeldQty(s, status, p) + if status.Pending? then LineQty(lines, p) else 0
  {
    var before, after := OrdersIn(s.orders, status), OrdersIn(s'.orders, status);
    ItemQtyAppend(s.items, ItemsFor(org, id, lines, rows), after, p);
    ItemsForQty(org, id, lines, rows, after, p);
    ItemQtySplit(s.items, before, id, p);
    ItemQtyAbsent(s.items, {id}, p);
    assert after == if status.Pending? then before + {id} else before;
  }

  lemma ReserveNetted(s: Store, org: Uuid, id: Uuid, order: Order, lines: seq<Line>, rows: map<Uuid, Row>, s': Store,
                      o: Uuid, p: Uuid)
    requires Reserved(s, org, id, order, lines, rows, s') && o in s'.orders
    requires forall i | i in s.items :: i.orderId != id
    requires forall m | m in s.movements :: m.orderRef != Some(id)
    requires o != id ==> OrderNetted(s, o, p)
    ensures OrderNetted(s', o, p)
  {
    var added := ItemsFor(org, id, lines, rows);
    ItemQtyAppend(s.items, added, {o}, p);
    ItemsForQty(org, id, lines, rows, {o}, p);
    SumAfter(Hold, s, org, id, order, lines, rows, added, s', ReservedFor(o, p));
    SumAfter(Hold, s, org, id, order, lines, rows, added, s', OnHandFor(o, p));
    if o == id {
      ItemQtyAbsent(s.items, {id}, p);
      SumAbsent(s.movements, ReservedFor(o, p));
      SumAbsent(s.movements, OnHandFor(o, p));
    }
  }

  lemma ReserveItems(s: Store, org: Uuid, id: Uuid, order: Order, lines: seq<Line>, rows: map<Uuid, Row>, s': Store)
    requires Reserved(s, org, id, order, lines, rows, s') && ItemsLinked(s) && StockLinked(s)
    ensures ItemsLinked(s')
  {
    var added := ItemsFor(org, id, lines, rows);
    forall i | i in s'.items ensures ItemLinked(s', i) {
      if i in s.items {
        assert ItemLinked(s, i);
      } else {
        assert i in added;
        var k :| 0 <= k < |added| && added[k] == i;
        assert lines[k] in lines;
        assert lines[k].productId in s.stock;
      }
    }
  }

  lemma ReserveLines(s: Store, org: Uuid, id: Uuid, order: Order, lines: seq<Line>, rows: map<Uuid, Row>, s': Store)
    requires Reserved(s, org, id, order, lines, rows, s') && LinesDistinct(s)
    requires forall i | i in s.items :: i.orderId != id
    ensures LinesDistinct(s')
  {
    var added := ItemsFor(org, id, lines, rows);
    forall o ensures DistinctProducts(LinesOf(s'.items, o)) {
      LinesOfAppend(s.items, added, o);
      if o == id {
        LinesOfAbsent(s.items, id);
        LinesOfItemsFor(org, id, lines, rows);
        assert LinesOf(s'.items, o) == lines;
      } else {
        LinesOfAbsent(added, o);
        assert LinesOf(s'.items, o) == LinesOf(s.items, o);
      }
    }
  }

  lemma UnusedId(s: Store, id: Uuid)
    requires ItemsLinked(s) && MovementsLinked(s) && Fresh(s, id)
    ensures forall i | i in s.items :: i.orderId != id
    ensures forall m | m in s.movements :: m.orderRef != Some(id) && m.productId != id
    ensures forall i | i in s.items :: i.productId != id
  {
    forall i | i in s.items ensures i.orderId != id && i.productId != id {
      assert ItemLinked(s, i);
    }
    forall m | m in s.movements ensures m.orderRef != Some(id) && m.productId != id {
      assert MovementLinked(s, m);
    }
  }

  lemma ReserveLinks(s: Store, org: Uuid, id: Uuid, order: Order, lines: seq<Line>, rows: map<Uuid, Row>, s': Store)
    requires Reserved(s, org, id, order, lines, rows, s') && Linked(s)
    ensures Linked(s')
  {
    var added := ItemsFor(org, id, lines, rows);
    UnusedId(s, id);
    StockAfter(Hold, s, org, id, order, lines, rows, added, s');
    MovementsAfter(Hold, s, org, id, order, lines, rows, added, s');
    ReserveItems(s, org, id, order, lines, rows, s');
    ReserveLines(s, org, id, order, lines, rows, s');
  }

  lemma ReserveCounts(s: Store, org: Uuid, id: Uuid, order: Order, lines: seq<Line>, rows: map<Uuid, Row>, s': Store)
    requires Reserved(s, org, id, order, lines, rows, s')
    requires forall i | i in s.items :: i.orderId != id
    requires Backed(s) && Ledgered(s)
    ensures Backed(s') && Ledgered(s')
  {
    var added := ItemsFor(org, id, lines, rows);
    KeysAfter(Hold, s, org, id, order, lines, rows, added, s');
    forall p | p in s.stock ensures s'.stock[p].reserved == HeldQty(s', Pending, p) && RowLedgered(s', p) {
      ReserveHeld(s, org, id, order, lines, rows, s', Pending, p);
      ReserveHeld(s, org, id, order, lines, rows, s', Fulfilled, p);
      LedgerAfter(Hold, s, org, id, order, lines, rows, added, s', p);
    }
  }

  lemma ReserveKeepsInv(s: Store, org: Uuid, id: Uuid, order: Order, lines: seq<Line>, rows: map<Uuid, Row>, s': Store)
    requires Reserved(s, org, id, order, lines, rows, s') && Inv(s)
    ensures Inv(s')
  {
    UnusedId(s, id);
    ReserveLinks(s, org, id, order, lines, rows, s');
    ReserveBounds(s, org, id, order, lines, rows, s');
    ReserveCounts(s, org, id, order, lines, rows, s');
    forall o, p | o in s'.orders ensures OrderNetted(s', o, p) {
      ReserveNetted(s, org, id, order, lines, rows, s', o, p);
    }
  }

  lemma ReserveIsReserved(s: Store, c: Call)
    requires StockLinked(s) && c.req.Reserve? && Admissible(s, c)
    requires Shortfalls(c.req.lines, Rows(s, c.req.org, ProductsOf(c.req.lines))) == []
    ensures var rows := Rows(s, c.req.org, ProductsOf(c.req.lines));
            var d := ReserveDecision(c, rows);
            d.outcome.ok && c.freshId in d.effect.orders &&
            Reserved(s, c.req.org, c.freshId, d.effect.orders[c.freshId], c.req.lines, rows, Apply(s, d.effect))
  {
    var rows := Rows(s, c.req.org, ProductsOf(c.req.lines));
    NoShortfallMeansAvailable(c.req.lines, rows);
    var d := ReserveDecision(c, rows);
    var s' := Apply(s, d.effect);
    assert s'.products == s.products;
    assert s'.orders == s.orders[c.freshId := d.effect.orders[c.freshId]];
  }

  // ----- release and fulfill -----

  ghost predicate Transitioned(kind: Kind, s: Store, org: Uuid, o: Uuid, order: Order, lines: seq<Line>,
                               rows: map<Uuid, Row>, s': Store) {
    && !kind.Hold?
    && MovedTo(kind, s, org, o, order, lines, rows, [], s')
    && o in s.orders && s.orders[o].status.Pending? && s.orders[o].org == org
    && order.status == (if kind.Ship? then Fulfilled else Cancelled)
    && order.org == org
    && lines == OrderLines(s.items, o)
    && (forall l | l in lines :: !Uncovered(kind, rows, l) && 1 <= l.quantity)
    && (forall p | p in rows :: rows[p].stock.org == org)
  }

  lemma TransitionQty(kind: Kind, s: Store, org: Uuid, o: Uuid, order: Order, lines: seq<Line>, rows: map<Uuid, Row>,
                      s': Store, p: Uuid)
    requires Transitioned(kind, s, org, o, order, lines, rows, s') && p in s.stock
    ensures LineQty(lines, p) == ItemQty(s.items, {o}, p)
    ensures 0 <= LineQty(lines, p)
    ensures LineQty(lines, p) == 0 || (LineQty(lines, p) <= s.stock[p].reserved
                                       && (kind.Ship? ==> LineQty(lines, p) <= s.stock[p].onHand))
  {
    OrderLinesQty(s.items, o, p);
    if p in ProductsOf(lines) {
      var k :| 0 <= k < |lines| && lines[k].productId == p;
      assert lines[k] in lines;
      LineQtyAt(lines, k);
    } else {
      LineQtyAbsent(lines, p);
    }
  }

  lemma TransitionBounds(kind: Kind, s: Store, org: Uuid, o: Uuid, order: Order,
                         lines: seq<Line>, rows: map<Uuid, Row>, s': Store)
    requires Transitioned(kind, s, org, o, order, lines, rows, s') && Bounded(s)
    ensures Bounded(s')
  {
    KeysAfter(kind, s, org, o, order, lines, rows, [], s');
    forall p | p in s.stock ensures 0 <= s'.stock[p].reserved <= s'.stock[p].onHand <= INT4_MAX {
      RowAfter(kind, s, org, o, order, lines, rows, [], s', p);
      TransitionQty(kind, s, org, o, order, lines, rows, s', p);
    }
  }

  lemma TransitionHeld(kind: Kind, s: Store, org: Uuid, o: Uuid, order: Order, lines: seq<Line>, rows: map<Uuid, Row>,
                       s': Store, p: Uuid)
    requires Transitioned(kind, s, org, o, order, lines, rows, s')
    ensures HeldQty(s', Pending, p) == HeldQty(s, Pending, p) - ItemQty(s.items, {o}, p)
    ensures HeldQty(s', Fulfilled, p) == HeldQty(s, Fulfilled, p) + if kind.Ship? then ItemQty(s.items, {o}, p) else 0
  {
    var pending, done := OrdersIn(s.orders, Pending), OrdersIn(s.orders, Fulfilled);
    assert s'.items == s.items;
    ItemQtySplit(s.items, pending - {o}, o, p);
    assert pending - {o} + {o} == pending;
    assert OrdersIn(s'.orders, Pending) == pending - {o};
    ItemQtySplit(s.items, done, o, p);
    assert OrdersIn(s'.orders, Fulfilled) == if kind.Ship? then done + {o} else done;
  }

  lemma TransitionCounts(kind: Kind, s: Store, org: Uuid, o: Uuid, order: Order,
                         lines: seq<Line>, rows: map<Uuid, Row>, s': Store)
    requires Transitioned(kind, s, org, o, order, lines, rows, s') && Backed(s) && Ledgered(s)
    ensures Backed(s') && Ledgered(s')
  {
    KeysAfter(kind, s, org, o, order, lines, rows, [], s');
    forall p | p in s.stock ensures s'.stock[p].reserved == HeldQty(s', Pending, p) && RowLedgered(s', p) {
      TransitionQty(kind, s, org, o, order, lines, rows, s', p);
      TransitionHeld(kind, s, org, o, order, lines, rows, s', p);
      LedgerAfter(kind, s, org, o, order, lines, rows, [], s', p);
    }
  }

  lemma TransitionNetted(kind: Kind, s: Store, org: Uuid, o: Uuid, order: Order, lines: seq<Line>, rows: map<Uuid, Row>,
                         s': Store, o': Uuid, p: Uuid)
    requires Transitioned(kind, s, org, o, order, lines, rows, s') && o' in s.orders && OrderNetted(s, o', p)
    ensures o' in s'.orders && OrderNetted(s', o', p)
  {
    assert s'.items == s.items;
    OrderLinesQty(s.items, o, p);
    NettedSums(kind, s, org, o, order, lines, rows, s', o', p);
  }

  lemma NettedSums(kind: Kind, s: Store, org: Uuid, o: Uuid, order: Order, lines: seq<Line>, rows: map<Uuid, Row>,
                   s': Store, o': Uuid, p: Uuid)
    requires MovedTo(kind, s, org, o, order, lines, rows, [], s')
    ensures Sum(s'.movements, ReservedFor(o', p))
            == Sum(s.movements, ReservedFor(o', p)) + if o' == o then ReservedDelta(kind, LineQty(lines, p)) else 0
    ensures Sum(s'.movements, OnHandFor(o', p))
            == Sum(s.movements, OnHandFor(o', p)) + if o' == o then OnHandDelta(kind, LineQty(lines, p)) else 0
  {
    SumAfter(kind, s, org, o, order, lines, rows, [], s', ReservedFor(o', p));
    SumAfter(kind, s, org, o, order, lines, rows, [], s', OnHandFor(o', p));
  }

  lemma TransitionLinks(kind: Kind, s: Store, org: Uuid, o: Uuid, order: Order,
                        lines: seq<Line>, rows: map<Uuid, Row>, s': Store)
    requires Transitioned(kind, s, org, o, order, lines, rows, s') && Linked(s)
    ensures Linked(s')
  {
    StockAfter(kind, s, org, o, order, lines, rows, [], s');
    MovementsAfter(kind, s, org, o, order, lines, rows, [], s');
    assert s'.items == s.items;
    forall i | i in s'.items ensures ItemLinked(s', i) {
      assert ItemLinked(s, i);
    }
  }

  lemma TransitionKeepsInv(kind: Kind, s: Store, org: Uuid, o: Uuid, order: Order,
                           lines: seq<Line>, rows: map<Uuid, Row>, s': Store)
    requires Transitioned(kind, s, org, o, order, lines, rows, s') && Inv(s)
    requires Stamped(order)
    ensures Inv(s')
  {
    TransitionLinks(kind, s, org, o, order, lines, rows, s');
    TransitionBounds(kind, s, org, o, order, lines, rows, s');
    TransitionCounts(kind, s, org, o, order, lines, rows, s');
    forall o', p | o' in s'.orders ensures OrderNetted(s', o', p) {
      assert OrderNetted(s, o', p);
      TransitionNetted(kind, s, org, o, order, lines, rows, s', o', p);
    }
  }

  lemma TransitionLines(s: Store, org: Uuid, o: Uuid)
    requires IsPending(s, org, o) && ItemsLinked(s) && StockLinked(s) && LinesDistinct(s)
    ensures var lines := OrderLines(s.items, o);
            && DistinctProducts(lines) && Covers(Rows(s, org, ProductsOf(lines)), lines)
            && (forall l | l in lines :: 1 <= l.quantity)
  {
    var raw, lines := LinesOf(s.items, o), OrderLines(s.items, o);
    SameElements(raw, lines);
    DistinctRearranged(raw, lines, (l: Line) => l.productId);
    forall l | l in lines ensures 1 <= l.quantity && HasStock(s, org, l.productId) {
      var i := LinesOfFrom(s.items, o, l);
      assert ItemLinked(s, i);
    }
  }

  /** What a pending order holds of a product is part of the row's `reserved`. */
  lemma HeldIsReserved(s: Store, o: Uuid, p: Uuid)
    requires o in s.orders && s.orders[o].status.Pending? && p in s.stock && ItemsLinked(s) && Backed(s)
    ensures ItemQty(s.items, {o}, p) <= s.stock[p].reserved
  {
    var others := OrdersIn(s.orders, Pending) - {o};
    ItemQtySplit(s.items, others, o, p);
    forall i | i in s.items ensures i.quantity >= 0 {
      assert ItemLinked(s, i);
    }
    ItemQtyNonNegative(s.items, others, p);
    assert others + {o} == OrdersIn(s.orders, Pending);
  }

  /** The rows an order's release or fulfilment needs are always there and always hold enough:
      the "Invariant violated" throw is unreachable from a sound store. */
  lemma TransitionCovered(kind: Kind, s: Store, org: Uuid, o: Uuid)
    requires IsPending(s, org, o) && ItemsLinked(s) && StockLinked(s) && LinesDistinct(s) && Backed(s) && Bounded(s)
    ensures var lines := OrderLines(s.items, o);
            forall l | l in lines :: !Uncovered(kind, Rows(s, org, ProductsOf(lines)), l)
  {
    TransitionLines(s, org, o);
    var lines := OrderLines(s.items, o);
    forall l | l in lines ensures l.quantity <= s.stock[l.productId].reserved {
      var k :| 0 <= k < |lines| && lines[k] == l;
      LineQtyAt(lines, k);
      OrderLinesQty(s.items, o, l.productId);
      HeldIsReserved(s, o, l.productId);
    }
  }

  lemma TransitionIsTransitioned(kind: Kind, s: Store, c: Call, o: Uuid)
    requires !kind.Hold? && IsPending(s, c.req.org, o)
    requires ItemsLinked(s) && StockLinked(s) && LinesDistinct(s) && Backed(s) && Bounded(s)
    ensures var lines := OrderLines(s.items, o);
            var rows, d := Rows(s, c.req.org, ProductsOf(lines)), TransitionExec(kind, s, c, o);
            d.Decision? && d.outcome.ok && d.outcome.status == 200 &&
            Transitioned(kind, s, c.req.org, o, Terminal(kind, s.orders[o], c.now), lines, rows, Apply(s, d.effect))
  {
    TransitionLines(s, c.req.org, o);
    TransitionCovered(kind, s, c.req.org, o);
    var d := TransitionExec(kind, s, c, o);
    var s' := Apply(s, d.effect);
    assert s'.products == s.products;
    assert s'.orders == s.orders[o := Terminal(kind, s.orders[o], c.now)];
  }

  // ----- adjust and create product -----

  lemma SumOne(ms: seq<Movement>, m: Movement, c: Column)
    ensures Sum(ms + [m], c) == Sum(ms, c) + Amount(m, c)
  {
    assert (ms + [m])[..|ms|] == ms;
  }

  ghost predicate Adjusted(s: Store, p: Uuid, onHand: int, s': Store) {
    && p in s.stock && s.stock[p].reserved <= onHand <= INT4_MAX
    && s' == s.(stock := s.stock[p := s.stock[p].(onHand := onHand)],
                movements := s.movements
                             + [Movement(s.stock[p].org, p, OnHandAdjustment, onHand - s.stock[p].onHand, 0, None)])
  }

  lemma AdjustCounts(s: Store, p: Uuid, onHand: int, s': Store)
    requires Adjusted(s, p, onHand, s') && Backed(s) && Ledgered(s)
    ensures Backed(s') && Ledgered(s')
  {
    var m := s'.movements[|s.movements|];
    forall q | q in s'.stock ensures RowLedgered(s', q) && s'.stock[q].reserved == HeldQty(s', Pending, q) {
      assert RowLedgered(s, q);
      SumOne(s.movements, m, OnHandOf(q));
      SumOne(s.movements, m, ReservedOf(q));
      SumOne(s.movements, m, AdjustedOf(q));
    }
  }

  lemma AdjustLinks(s: Store, p: Uuid, onHand: int, s': Store)
    requires Adjusted(s, p, onHand, s') && Linked(s)
    ensures Linked(s')
  {
    forall i | i in s'.items ensures ItemLinked(s', i) {
      assert ItemLinked(s, i);
    }
    forall m | m in s'.movements ensures MovementLinked(s', m) {
      if m in s.movements {
        assert MovementLinked(s, m);
      }
    }
  }

  lemma AdjustNetted(s: Store, p: Uuid, onHand: int, s': Store)
    requires Adjusted(s, p, onHand, s') && Netted(s)
    ensures Netted(s')
  {
    var m := s'.movements[|s.movements|];
    forall o, q | o in s'.orders ensures OrderNetted(s', o, q) {
      assert OrderNetted(s, o, q);
      SumOne(s.movements, m, ReservedFor(o, q));
      SumOne(s.movements, m, OnHandFor(o, q));
    }
  }

  lemma AdjustKeepsInv(s: Store, p: Uuid, onHand: int, s': Store)
    requires Adjusted(s, p, onHand, s') && Inv(s)
    ensures Inv(s')
  {
    AdjustLinks(s, p, onHand, s');
    AdjustCounts(s, p, onHand, s');
    AdjustNetted(s, p, onHand, s');
  }

  ghost predicate Created(s: Store, p: Uuid, product: Product, onHand: int, s': Store) {
    && p !in s.products && p !in s.orders && 0 <= onHand <= INT4_MAX
    && s' == s.(products := s.products[p := product], stock := s.stock[p := Stock(product.org, onHand, 0)],
                movements := s.movements
                  + if onHand > 0 then [Movement(product.org, p, OnHandAdjustment, onHand, 0, None)] else [])
  }

  lemma CreateSum(s: Store, p: Uuid, product: Product, onHand: int, s': Store, c: Column)
    requires Created(s, p, product, onHand, s')
    requires forall m | m in s.movements :: m.productId != p
    ensures Sum(s'.movements, c) == Sum(s.movements, c)
            + if c.p == p && (c.OnHandOf? || c.AdjustedOf?) then onHand else 0
    ensures c.p == p ==> Sum(s.movements, c) == 0
  {
    if onHand > 0 {
      SumOne(s.movements, Movement(product.org, p, OnHandAdjustment, onHand, 0, None), c);
    } else {
      assert s'.movements == s.movements;
    }
    if c.p == p {
      SumAbsent(s.movements, c);
    }
  }

  lemma CreateCounts(s: Store, p: Uuid, product: Product, onHand: int, s': Store)
    requires Created(s, p, product, onHand, s') && Backed(s) && Ledgered(s)
    requires forall m | m in s.movements :: m.productId != p
    requires forall i | i in s.items :: i.productId != p
    ensures Backed(s') && Ledgered(s')
  {
    forall q | q in s'.stock ensures RowLedgered(s', q) && s'.stock[q].reserved == HeldQty(s', Pending, q) {
      CreateSum(s, p, product, onHand, s', OnHandOf(q));
      CreateSum(s, p, product, onHand, s', ReservedOf(q));
      CreateSum(s, p, product, onHand, s', AdjustedOf(q));
      if q == p {
        ItemQtyAbsent(s.items, OrdersIn(s.orders, Pending), p);
        ItemQtyAbsent(s.items, OrdersIn(s.orders, Fulfilled), p);
      } else {
        assert RowLedgered(s, q);
      }
    }
  }

  lemma CreateLinks(s: Store, p: Uuid, product: Product, onHand: int, s': Store)
    requires Created(s, p, product, onHand, s') && Linked(s) && !SkuInUse(s, product.org, product.sku)
    ensures Linked(s')
  {
    forall i | i in s'.items ensures ItemLinked(s', i) {
      assert ItemLinked(s, i);
    }
    forall m | m in s'.movements ensures MovementLinked(s', m) {
      if m in s.movements {
        assert MovementLinked(s, m);
      }
    }
  }

  lemma CreateKeepsInv(s: Store, p: Uuid, product: Product, onHand: int, s': Store)
    requires Created(s, p, product, onHand, s') && Inv(s) && !SkuInUse(s, product.org, product.sku)
    ensures Inv(s')
  {
    UnusedId(s, p);
    CreateLinks(s, p, product, onHand, s');
    CreateCounts(s, p, product, onHand, s');
    forall o, q | o in s'.orders ensures OrderNetted(s', o, q) {
      assert OrderNetted(s, o, q);
      CreateSum(s, p, product, onHand, s', ReservedFor(o, q));
      CreateSum(s, p, product, onHand, s', OnHandFor(o, q));
    }
  }

  // ----- every operation -----

  lemma ApplyNothing(s: Store)
    ensures Apply(s, NO_EFFECT) == s
  {
  }

  lemma EmptyStoreInv()
    ensures Inv(EMPTY_STORE)
  {
  }

  /** The decision can be committed: nothing was thrown, the store stays sound, a rejection
      writes nothing, and the `ok` flag agrees with the status. */
  ghost predicate Sound(s: Store, d: Decision) {
    && d.Decision? && Inv(Apply(s, d.effect))
    && (!d.outcome.ok ==> d.effect == NO_EFFECT)
    && (d.outcome.ok <==> d.outcome.status < 400)
  }

  lemma RejectionIsSound(s: Store, out: Outcome)
    requires Inv(s) && !out.ok && out.status >= 400
    ensures Sound(s, Decision(NO_EFFECT, out))
  {
    ApplyNothing(s);
  }

  lemma AdjustIsAdjusted(s: Store, c: Call, d: Decision)
    requires c.req.Adjust? && StockLinked(s) && Bounded(s) && HasProduct(s, c.req.org, c.req.productId)
    requires d == AdjustDecision(c, StockRow(s, c.req.org, c.req.productId)) && d.outcome.ok
    ensures c.req.productId in d.effect.stock
    ensures Adjusted(s, c.req.productId, d.effect.stock[c.req.productId].onHand, Apply(s, d.effect))
  {
    var p, s' := c.req.productId, Apply(s, d.effect);
    assert HasStock(s, c.req.org, p);
    assert s'.products == s.products && s'.orders == s.orders && s'.items == s.items;
  }

  lemma AdjustDecisionSound(s: Store, c: Call, d: Decision)
    requires Inv(s) && c.req.Adjust? && HasProduct(s, c.req.org, c.req.productId)
    requires d == AdjustDecision(c, StockRow(s, c.req.org, c.req.productId)) && d.outcome.ok
    ensures Inv(Apply(s, d.effect))
  {
    AdjustIsAdjusted(s, c, d);
    AdjustKeepsInv(s, c.req.productId, d.effect.stock[c.req.productId].onHand, Apply(s, d.effect));
  }

  lemma AdjustExec(s: Store, c: Call)
    requires Inv(s) && c.req.Adjust? && WellFormed(c.req)
    ensures Sound(s, Exec(s, c))
  {
    var d := Exec(s, c);
    if d.outcome.ok {
      AdjustDecisionSound(s, c, d);
    } else {
      RejectionIsSound(s, d.outcome);
    }
  }

  lemma CreateIsCreated(s: Store, c: Call)
    requires c.req.CreateProduct? && WellFormed(c.req) && Fresh(s, c.freshId)
    ensures Created(s, c.freshId, Product(c.req.org, c.req.sku, c.req.unitPriceCents), InitialStock(c.req),
                    Apply(s, CreateDecision(c).effect))
  {
    var s' := Apply(s, CreateDecision(c).effect);
    assert s'.items == s.items && s'.orders == s.orders;
  }

  lemma CreateExec(s: Store, c: Call)
    requires Inv(s) && c.req.CreateProduct? && Admissible(s, c)
    ensures Sound(s, Exec(s, c))
  {
    if SkuInUse(s, c.req.org, c.req.sku) {
      RejectionIsSound(s, Exec(s, c).outcome);
    } else {
      var product := Product(c.req.org, c.req.sku, c.req.unitPriceCents);
      CreateIsCreated(s, c);
      CreateKeepsInv(s, c.freshId, product, InitialStock(c.req), Apply(s, CreateDecision(c).effect));
    }
  }

  lemma TransitionExecKeepsInv(kind: Kind, s: Store, c: Call, o: Uuid)
    requires Inv(s) && !kind.Hold?
    ensures Sound(s, TransitionExec(kind, s, c, o))
  {
    var d := TransitionExec(kind, s, c, o);
    if IsPending(s, c.req.org, o) {
      TransitionIsTransitioned(kind, s, c, o);
      var lines := OrderLines(s.items, o);
      assert Stamped(s.orders[o]);
      TransitionKeepsInv(kind, s, c.req.org, o, Terminal(kind, s.orders[o], c.now), lines,
                         Rows(s, c.req.org, ProductsOf(lines)), Apply(s, d.effect));
    } else {
      RejectionIsSound(s, d.outcome);
    }
  }

  lemma ReserveExec(s: Store, c: Call)
    requires Inv(s) && c.req.Reserve? && Admissible(s, c)
    ensures Sound(s, ReserveDecision(c, Rows(s, c.req.org, ProductsOf(c.req.lines))))
  {
    var rows := Rows(s, c.req.org, ProductsOf(c.req.lines));
    var d := ReserveDecision(c, rows);
    if Shortfalls(c.req.lines, rows) == [] {
      ReserveIsReserved(s, c);
      ReserveKeepsInv(s, c.req.org, c.freshId, NewOrder(c), c.req.lines, rows, Apply(s, d.effect));
    } else {
      RejectionIsSound(s, d.outcome);
    }
  }

  /** No operation throws on a sound store, and whatever it commits leaves the store sound:
      counters inside `0 <= reserved <= on_hand <= int4 max`, backed by the pending orders and
      explained by the ledger. */
  lemma ExecKeepsInv(s: Store, c: Call)
    requires Inv(s) && Admissible(s, c)
    ensures Sound(s, Exec(s, c))
  {
    match c.req
    case Reserve(_, _, _) => ReserveExec(s, c);
    case Release(_, o) => TransitionExecKeepsInv(Free, s, c, o);
    case Fulfill(_, o) => TransitionExecKeepsInv(Ship, s, c, o);
    case Adjust(_, _, _, _) => AdjustExec(s, c);
    case CreateProduct(_, _, _, _) => CreateExec(s, c);
  }
}
