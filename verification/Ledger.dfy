/** The rows each order operation appends and the answers it gives, spelled out from the request,
    the clock and the tables before it. */
module Ledger {
  import opened Tables
  import opened Sorting
  import opened Engine
  import opened StoreInvariant
  import opened OperationEffects

  ghost predicate Appended<T>(before: seq<T>, after: seq<T>, n: nat) {
    |after| == |before| + n && after[..|before|] == before
  }

  // ----- a reservation -----

  /** One item and one ledger row per request line, in request order. */
  ghost predicate RecordsLines(s: Store, c: Call, s': Store)
    requires c.req.Reserve?
  {
    var lines := c.req.lines;
    && Appended(s.items, s'.items, |lines|) && Appended(s.movements, s'.movements, |lines|)
    && forall i | 0 <= i < |lines| ::
         var l := lines[i];
         && HasProduct(s, c.req.org, l.productId)
         && s'.items[|s.items| + i]
            == Item(c.req.org, c.freshId, l.productId, l.quantity, s.products[l.productId].unitPriceCents)
         && s'.movements[|s.movements| + i]
            == Movement(c.req.org, l.productId, MovementType.Reservation, 0, l.quantity, Some(c.freshId))
  }

  lemma RecordedLines(s: Store, c: Call, rows: map<Uuid, Row>, s': Store)
    requires StockLinked(s) && c.req.Reserve? && rows == Rows(s, c.req.org, ProductsOf(c.req.lines))
    requires Covers(rows, c.req.lines)
    requires s'.items == s.items + ItemsFor(c.req.org, c.freshId, c.req.lines, rows)
    requires s'.movements == s.movements + Movements(Hold, c.req.org, c.freshId, c.req.lines)
    ensures RecordsLines(s, c, s')
  {
    forall i | 0 <= i < |c.req.lines|
      ensures var p := c.req.lines[i].productId;
              HasProduct(s, c.req.org, p) && PriceIn(rows, p) == s.products[p].unitPriceCents
    {
      assert c.req.lines[i] in c.req.lines;
    }
  }

  /** The rows a successful reservation appends. */
  lemma ReservationRecords(s: Store, c: Call)
    requires StockLinked(s) && c.req.Reserve? && WellFormed(c.req) && Exec(s, c).outcome.ok
    ensures RecordsLines(s, c, Apply(s, Exec(s, c).effect)) && Apply(s, Exec(s, c).effect).products == s.products
  {
    ReservationDecided(s, c);
    RecordedLines(s, c, Rows(s, c.req.org, ProductsOf(c.req.lines)), Apply(s, Exec(s, c).effect));
  }

  /** `items` are the lines at the prices of the products table. */
  ghost predicate PricedNow(s: Store, org: Uuid, lines: seq<Line>, items: seq<PricedLine>) {
    && |items| == |lines|
    && forall i | 0 <= i < |lines| ::
         var p := lines[i].productId;
         HasProduct(s, org, p) && items[i] == PricedLine(p, lines[i].quantity, s.products[p].unitPriceCents)
  }

  lemma PricedIsNow(s: Store, org: Uuid, lines: seq<Line>, rows: map<Uuid, Row>)
    requires StockLinked(s) && rows == Rows(s, org, ProductsOf(lines)) && Covers(rows, lines)
    ensures PricedNow(s, org, lines, Priced(lines, rows))
  {
    forall i | 0 <= i < |lines| ensures HasStock(s, org, lines[i].productId) {
      assert lines[i] in lines;
    }
  }

  /** And its answer: the new order with the lines at today's prices. */
  lemma ReservationAnswers(s: Store, c: Call) returns (items: seq<PricedLine>)
    requires StockLinked(s) && c.req.Reserve? && WellFormed(c.req) && Exec(s, c).outcome.ok
    ensures PricedNow(s, c.req.org, c.req.lines, items)
    ensures var currency := if c.req.currency.Given? then c.req.currency.code else [85, 83, 68];
            Exec(s, c).outcome == Outcome(true, 201, ReservationBody(c.freshId, Pending, currency, items, c.now))
  {
    var rows := Rows(s, c.req.org, ProductsOf(c.req.lines));
    ReservationDecided(s, c);
    PricedIsNow(s, c.req.org, c.req.lines, rows);
    items := Priced(c.req.lines, rows);
  }

  // ----- a release, a fulfilment -----

  /** The stored items of an order, in table order. */
  function ItemsWith(items: seq<Item>, o: Uuid): (r: seq<Item>)
    ensures forall i :: i in r <==> i in items && i.orderId == o
  {
    if items == [] then []
    else
      var last := items[|items| - 1];
      ItemsWith(items[..|items| - 1], o) + if last.orderId == o then [last] else []
  }

  /** `lines` are the order's items, one line each, by ascending product id. */
  ghost predicate ListsItems(items: seq<Item>, o: Uuid, lines: seq<Line>) {
    var mine := ItemsWith(items, o);
    && |lines| == |mine|
    && multiset(lines) == multiset(seq(|mine|, i requires 0 <= i < |mine| => Line(mine[i].productId, mine[i].quantity)))
    && forall i, j | 0 <= i < j < |lines| :: lines[i].productId <= lines[j].productId
  }

  lemma {:induction false} LinesAreItems(items: seq<Item>, o: Uuid)
    ensures var mine := ItemsWith(items, o);
            && |LinesOf(items, o)| == |mine|
            && forall i | 0 <= i < |mine| :: LinesOf(items, o)[i] == Line(mine[i].productId, mine[i].quantity)
  {
    if items != [] {
      LinesAreItems(items[..|items| - 1], o);
    }
  }

  lemma OrderLinesListItems(items: seq<Item>, o: Uuid)
    ensures ListsItems(items, o, OrderLines(items, o))
  {
    var mine := ItemsWith(items, o);
    LinesAreItems(items, o);
    assert LinesOf(items, o) == seq(|mine|, i requires 0 <= i < |mine| => Line(mine[i].productId, mine[i].quantity));
    SortSorts(LinesOf(items, o), ByProduct);
  }

  /** The store and the answer of a transition, from the lines it reads. */
  lemma TransitionDecided(kind: Kind, s: Store, c: Call, o: Uuid)
    requires Inv(s) && !kind.Hold? && IsPending(s, c.req.org, o)
    ensures TransitionExec(kind, s, c, o).Decision?
    ensures var d := TransitionExec(kind, s, c, o);
            var s' := Apply(s, d.effect);
            && d.outcome == MovedOutcome(kind, o, c.now)
            && s'.products == s.products && s'.items == s.items
            && s'.orders == s.orders[o := Terminal(kind, s.orders[o], c.now)]
            && s'.movements == s.movements + Movements(kind, c.req.org, o, OrderLines(s.items, o))
  {
    TransitionIsTransitioned(kind, s, c, o);
  }

  /** One `release` row per line, each taking its quantity off `reserved`. */
  ghost predicate RecordsRelease(before: seq<Movement>, after: seq<Movement>, org: Uuid, o: Uuid, lines: seq<Line>) {
    && Appended(before, after, |lines|)
    && forall i | 0 <= i < |lines| :: after[|before| + i] == Movement(
         org, lines[i].productId, MovementType.Release, 0, -lines[i].quantity, Some(o))
  }

  /** One `fulfillment` row per line, each taking its quantity off both counters. */
  ghost predicate RecordsFulfillment(before: seq<Movement>, after: seq<Movement>, org: Uuid, o: Uuid,
                                     lines: seq<Line>) {
    && Appended(before, after, |lines|)
    && forall i | 0 <= i < |lines| :: after[|before| + i] == Movement(
         org, lines[i].productId, MovementType.Fulfillment, -lines[i].quantity, -lines[i].quantity, Some(o))
  }

  lemma MovementsRecord(before: seq<Movement>, org: Uuid, o: Uuid, lines: seq<Line>)
    ensures RecordsRelease(before, before + Movements(Free, org, o, lines), org, o, lines)
    ensures RecordsFulfillment(before, before + Movements(Ship, org, o, lines), org, o, lines)
  {
  }

  /** A successful release cancels the order now and records every one of its items. */
  lemma ReleaseRecords(s: Store, c: Call) returns (lines: seq<Line>)
    requires Inv(s) && c.req.Release? && IsPending(s, c.req.org, c.req.orderId)
    ensures Exec(s, c).Decision? && ListsItems(s.items, c.req.orderId, lines)
    ensures var o, s' := c.req.orderId, Apply(s, Exec(s, c).effect);
            && Exec(s, c).outcome == Outcome(true, 200, TransitionBody(o, Cancelled, c.now))
            && s'.products == s.products && s'.items == s.items
            && s'.orders == s.orders[o := s.orders[o].(status := Cancelled, cancelledAt := Some(c.now))]
            && RecordsRelease(s.movements, s'.movements, c.req.org, o, lines)
  {
    lines := OrderLines(s.items, c.req.orderId);
    OrderLinesListItems(s.items, c.req.orderId);
    TransitionDecided(Free, s, c, c.req.orderId);
    MovementsRecord(s.movements, c.req.org, c.req.orderId, lines);
  }

  /** A successful fulfilment closes the order now and records every one of its items. */
  lemma FulfillmentRecords(s: Store, c: Call) returns (lines: seq<Line>)
    requires Inv(s) && c.req.Fulfill? && IsPending(s, c.req.org, c.req.orderId)
    ensures Exec(s, c).Decision? && ListsItems(s.items, c.req.orderId, lines)
    ensures var o, s' := c.req.orderId, Apply(s, Exec(s, c).effect);
            && Exec(s, c).outcome == Outcome(true, 200, TransitionBody(o, Fulfilled, c.now))
            && s'.products == s.products && s'.items == s.items
            && s'.orders == s.orders[o := s.orders[o].(status := Fulfilled, fulfilledAt := Some(c.now))]
            && RecordsFulfillment(s.movements, s'.movements, c.req.org, o, lines)
  {
    lines := OrderLines(s.items, c.req.orderId);
    OrderLinesListItems(s.items, c.req.orderId);
    TransitionDecided(Ship, s, c, c.req.orderId);
    MovementsRecord(s.movements, c.req.org, c.req.orderId, lines);
  }

  /** Any other transition changes nothing: 404 for an order that is missing or another
      organisation's, 409 with its status for one that has ended. */
  lemma TransitionRefused(kind: Kind, s: Store, c: Call, o: Uuid)
    requires TransitionCall(kind, c, o)
    requires !(o in s.orders && s.orders[o].org == c.req.org && s.orders[o].status == Pending)
    ensures Exec(s, c).Decision? && Apply(s, Exec(s, c).effect) == s
    ensures var out := Exec(s, c).outcome;
            && (o !in s.orders || s.orders[o].org != c.req.org ==> out == Outcome(false, 404, OrderNotFound))
            && (o in s.orders && s.orders[o].org == c.req.org && s.orders[o].status == Cancelled ==>
                  out == Outcome(false, 409, NotPending(Cancelled)))
            && (o in s.orders && s.orders[o].org == c.req.org && s.orders[o].status == Fulfilled ==>
                  out == Outcome(false, 409, NotPending(Fulfilled)))
  {
    ApplyNothing(s);
  }
}
