/** Sums over order items and over the movement ledger. */
module Sums {
  import opened Tables
  import opened Sorting
  import opened Engine

  // ----- items -----

  /** Total quantity of product `p` over the items of the orders in `ids`. */
  function ItemQty(items: seq<Item>, ids: set<Uuid>, p: Uuid): int {
    if items == [] then 0
    else
      var i := items[|items| - 1];
      ItemQty(items[..|items| - 1], ids, p) + if i.orderId in ids && i.productId == p then i.quantity else 0
  }

  function OrdersIn(orders: map<Uuid, Order>, status: Status): set<Uuid> {
    set o | o in orders && orders[o].status == status
  }

  function LineQty(lines: seq<Line>, p: Uuid): int {
    if lines == [] then 0
    else
      var l := lines[|lines| - 1];
      LineQty(lines[..|lines| - 1], p) + if l.productId == p then l.quantity else 0
  }

  lemma {:induction false} ItemQtyAppend(a: seq<Item>, b: seq<Item>, ids: set<Uuid>, p: Uuid)
    ensures ItemQty(a + b, ids, p) == ItemQty(a, ids, p) + ItemQty(b, ids, p)
  {
    if b == [] {
      assert a + b == a;
    } else {
      ItemQtyAppend(a, b[..|b| - 1], ids, p);
      assert (a + b)[..|a + b| - 1] == a + b[..|b| - 1];
    }
  }

  lemma {:induction false} ItemQtySplit(items: seq<Item>, ids: set<Uuid>, o: Uuid, p: Uuid)
    requires o !in ids
    ensures ItemQty(items, ids + {o}, p) == ItemQty(items, ids, p) + ItemQty(items, {o}, p)
  {
    if items != [] {
      ItemQtySplit(items[..|items| - 1], ids, o, p);
    }
  }

  lemma {:induction false} ItemQtyNonNegative(items: seq<Item>, ids: set<Uuid>, p: Uuid)
    requires forall i | i in items :: i.quantity >= 0
    ensures ItemQty(items, ids, p) >= 0
  {
    if items != [] {
      ItemQtyNonNegative(items[..|items| - 1], ids, p);
    }
  }

  lemma {:induction false} ItemQtyAbsent(items: seq<Item>, ids: set<Uuid>, p: Uuid)
    requires forall i | i in items :: i.orderId in ids ==> i.productId != p
    ensures ItemQty(items, ids, p) == 0
  {
    if items != [] {
      ItemQtyAbsent(items[..|items| - 1], ids, p);
    }
  }

  // ----- lines -----

  lemma {:induction false} LineQtyAppend(a: seq<Line>, b: seq<Line>, p: Uuid)
    ensures LineQty(a + b, p) == LineQty(a, p) + LineQty(b, p)
  {
    if b == [] {
      assert a + b == a;
    } else {
      LineQtyAppend(a, b[..|b| - 1], p);
      assert (a + b)[..|a + b| - 1] == a + b[..|b| - 1];
    }
  }

  lemma {:induction false} LineQtyInsert(l: Line, lines: seq<Line>, p: Uuid)
    ensures LineQty(Insert(l, lines, ByProduct), p) == LineQty([l], p) + LineQty(lines, p)
  {
    if lines == [] || ByProduct(l, lines[0]) {
      LineQtyAppend([l], lines, p);
    } else {
      LineQtyInsert(l, lines[1..], p);
      LineQtyAppend([lines[0]], Insert(l, lines[1..], ByProduct), p);
      LineQtyAppend([lines[0]], lines[1..], p);
      assert lines == [lines[0]] + lines[1..];
    }
  }

  lemma {:induction false} LineQtySort(lines: seq<Line>, p: Uuid)
    ensures LineQty(Sort(lines, ByProduct), p) == LineQty(lines, p)
  {
    if lines != [] {
      LineQtySort(lines[1..], p);
      LineQtyInsert(lines[0], Sort(lines[1..], ByProduct), p);
      LineQtyAppend([lines[0]], lines[1..], p);
      assert lines == [lines[0]] + lines[1..];
    }
  }

  lemma {:induction false} LineQtyOfItems(items: seq<Item>, o: Uuid, p: Uuid)
    ensures LineQty(LinesOf(items, o), p) == ItemQty(items, {o}, p)
  {
    if items != [] {
      var init, i := items[..|items| - 1], items[|items| - 1];
      LineQtyOfItems(init, o, p);
      LineQtyAppend(LinesOf(init, o), if i.orderId == o then [Line(i.productId, i.quantity)] else [], p);
    }
  }

  /** The lines a transition works on carry exactly the order's quantities. */
  lemma OrderLinesQty(items: seq<Item>, o: Uuid, p: Uuid)
    ensures LineQty(OrderLines(items, o), p) == ItemQty(items, {o}, p)
  {
    LineQtySort(LinesOf(items, o), p);
    LineQtyOfItems(items, o, p);
  }

  lemma {:induction false} LineQtyAbsent(lines: seq<Line>, p: Uuid)
    requires p !in ProductsOf(lines)
    ensures LineQty(lines, p) == 0
  {
    if lines != [] {
      var init := lines[..|lines| - 1];
      assert forall l | l in init :: l in lines;
      assert lines[|lines| - 1] in lines;
      LineQtyAbsent(init, p);
    }
  }

  lemma {:induction false} LineQtyAt(lines: seq<Line>, k: nat)
    requires DistinctProducts(lines) && k < |lines|
    ensures LineQty(lines, lines[k].productId) == lines[k].quantity
  {
    var init := lines[..|lines| - 1];
    if k == |lines| - 1 {
      assert lines[k].productId !in ProductsOf(init);
      LineQtyAbsent(init, lines[k].productId);
    } else {
      LineQtyAt(init, k);
    }
  }

  lemma {:induction false} ItemsForQty(org: Uuid, o: Uuid, lines: seq<Line>, rows: map<Uuid, Row>,
                                      ids: set<Uuid>, p: Uuid)
    ensures ItemQty(ItemsFor(org, o, lines, rows), ids, p) == if o in ids then LineQty(lines, p) else 0
  {
    if lines != [] {
      var init := lines[..|lines| - 1];
      ItemsForQty(org, o, init, rows, ids, p);
      assert ItemsFor(org, o, lines, rows)[..|lines| - 1] == ItemsFor(org, o, init, rows);
    }
  }

  // ----- movements -----

  datatype Column =
    | OnHandOf(p: Uuid)
    | ReservedOf(p: Uuid)
    | AdjustedOf(p: Uuid)                 // on-hand adjustments only
    | OnHandFor(o: Uuid, p: Uuid)         // movements that reference order `o`
    | ReservedFor(o: Uuid, p: Uuid)

  function Amount(m: Movement, c: Column): int {
    if m.productId != c.p then 0
    else match c
      case OnHandOf(_) => m.onHandDelta
      case ReservedOf(_) => m.reservedDelta
      case AdjustedOf(_) => if m.movementType.OnHandAdjustment? then m.onHandDelta else 0
      case OnHandFor(o, _) => if m.orderRef == Some(o) then m.onHandDelta else 0
      case ReservedFor(o, _) => if m.orderRef == Some(o) then m.reservedDelta else 0
  }

  function Sum(ms: seq<Movement>, c: Column): int {
    if ms == [] then 0 else Sum(ms[..|ms| - 1], c) + Amount(ms[|ms| - 1], c)
  }

  lemma {:induction false} SumAppend(a: seq<Movement>, b: seq<Movement>, c: Column)
    ensures Sum(a + b, c) == Sum(a, c) + Sum(b, c)
  {
    if b == [] {
      assert a + b == a;
    } else {
      SumAppend(a, b[..|b| - 1], c);
      assert (a + b)[..|a + b| - 1] == a + b[..|b| - 1];
    }
  }

  lemma {:induction false} SumAbsent(ms: seq<Movement>, c: Column)
    requires forall m | m in ms :: Amount(m, c) == 0
    ensures Sum(ms, c) == 0
  {
    if ms != [] {
      SumAbsent(ms[..|ms| - 1], c);
    }
  }

  /** What the movement rows of one order operation add up to, column by column. */
  function MovedBy(kind: Kind, orderId: Uuid, lines: seq<Line>, c: Column): int {
    var q := LineQty(lines, c.p);
    match c
    case OnHandOf(_) => OnHandDelta(kind, q)
    case ReservedOf(_) => ReservedDelta(kind, q)
    case AdjustedOf(_) => 0
    case OnHandFor(o, _) => if o == orderId then OnHandDelta(kind, q) else 0
    case ReservedFor(o, _) => if o == orderId then ReservedDelta(kind, q) else 0
  }

  lemma {:induction false} MovementsSum(kind: Kind, org: Uuid, orderId: Uuid, lines: seq<Line>, c: Column)
    ensures Sum(Movements(kind, org, orderId, lines), c) == MovedBy(kind, orderId, lines, c)
  {
    if lines != [] {
      var init := lines[..|lines| - 1];
      MovementsSum(kind, org, orderId, init, c);
      assert Movements(kind, org, orderId, lines)[..|lines| - 1] == Movements(kind, org, orderId, init);
    }
  }
}
