/** The multi-line write loops: each row is written from a snapshot read before the loop. They
    agree with updating every row in place exactly when no product is named twice. */
module WriteLoop {
  import opened Tables
  import opened Engine
  import opened Sums

  /** One line after another, each read from the row's current value. */
  function InPlace(kind: Kind, stock: map<Uuid, Stock>, lines: seq<Line>): map<Uuid, Stock>
    requires forall l | l in lines :: l.productId in stock
    ensures InPlace(kind, stock, lines).Keys == stock.Keys
  {
    if lines == [] then stock
    else
      var l := lines[|lines| - 1];
      assert l in lines;
      var before := InPlace(kind, stock, lines[..|lines| - 1]);
      before[l.productId := Shift(kind, before[l.productId], l.quantity)]
  }

  lemma {:induction false} InPlaceIs(kind: Kind, stock: map<Uuid, Stock>, lines: seq<Line>, p: Uuid)
    requires forall l | l in lines :: l.productId in stock
    requires p in stock
    ensures InPlace(kind, stock, lines)[p] == Shift(kind, stock[p], LineQty(lines, p))
  {
    if lines != [] {
      assert lines[|lines| - 1] in lines;
      InPlaceIs(kind, stock, lines[..|lines| - 1], p);
    }
  }

  lemma {:induction false} WritesKeys(kind: Kind, rows: map<Uuid, Row>, lines: seq<Line>)
    requires Covers(rows, lines)
    ensures Writes(kind, rows, lines).Keys == ProductsOf(lines)
  {
    if lines != [] {
      var init, l := lines[..|lines| - 1], lines[|lines| - 1];
      WritesKeys(kind, rows, init);
      assert lines == init + [l];
    }
  }

  /** The last line of a product decides what the snapshot loop leaves in its row. */
  lemma {:induction false} WritesLast(kind: Kind, rows: map<Uuid, Row>, lines: seq<Line>, k: nat)
    requires Covers(rows, lines) && k < |lines|
    requires forall j | k < j < |lines| :: lines[j].productId != lines[k].productId
    ensures lines[k].productId in Writes(kind, rows, lines)
    ensures Writes(kind, rows, lines)[lines[k].productId]
            == Shift(kind, rows[lines[k].productId].stock, lines[k].quantity)
  {
    if k < |lines| - 1 {
      WritesLast(kind, rows, lines[..|lines| - 1], k);
    }
  }

  lemma WritesAre(kind: Kind, rows: map<Uuid, Row>, lines: seq<Line>, p: Uuid)
    requires Covers(rows, lines) && DistinctProducts(lines) && p in ProductsOf(lines)
    ensures p in Writes(kind, rows, lines)
    ensures Writes(kind, rows, lines)[p] == Shift(kind, rows[p].stock, LineQty(lines, p))
  {
    var l :| l in lines && l.productId == p;
    var k :| 0 <= k < |lines| && lines[k] == l;
    WritesLast(kind, rows, lines, k);
    LineQtyAt(lines, k);
  }

  ghost predicate SnapshotOf(rows: map<Uuid, Row>, stock: map<Uuid, Stock>) {
    forall p | p in rows :: p in stock && rows[p].stock == stock[p]
  }

  lemma DistinctWritesInPlace(kind: Kind, stock: map<Uuid, Stock>, rows: map<Uuid, Row>, lines: seq<Line>)
    requires SnapshotOf(rows, stock) && Covers(rows, lines) && DistinctProducts(lines)
    ensures stock + Writes(kind, rows, lines) == InPlace(kind, stock, lines)
  {
    var written, updated := stock + Writes(kind, rows, lines), InPlace(kind, stock, lines);
    WritesKeys(kind, rows, lines);
    forall p | p in stock ensures written[p] == updated[p] {
      InPlaceIs(kind, stock, lines, p);
      if p in ProductsOf(lines) {
        WritesAre(kind, rows, lines, p);
      } else {
        LineQtyAbsent(lines, p);
      }
    }
  }

  lemma RepeatedWritesDiffer(kind: Kind, stock: map<Uuid, Stock>, rows: map<Uuid, Row>, lines: seq<Line>,
                             i: nat, j: nat)
    requires SnapshotOf(rows, stock) && Covers(rows, lines) && forall l | l in lines :: 1 <= l.quantity
    requires i < j < |lines| && lines[i].productId == lines[j].productId
    ensures stock + Writes(kind, rows, lines) != InPlace(kind, stock, lines)
  {
    var last := LastLineOf(lines, j);
    var p := lines[last].productId;
    assert lines[last] in lines;
    WritesLast(kind, rows, lines, last);
    InPlaceIs(kind, stock, lines, p);
    LineQtyOfTwo(lines, i, last);
    assert (stock + Writes(kind, rows, lines))[p].reserved != InPlace(kind, stock, lines)[p].reserved;
  }

  /** The loop that writes from the snapshot equals updating each row in place, one line after
      another, if and only if the duplicate-line check would let the lines through. */
  lemma SnapshotLoopIsInPlace(kind: Kind, stock: map<Uuid, Stock>, rows: map<Uuid, Row>, lines: seq<Line>)
    requires SnapshotOf(rows, stock) && Covers(rows, lines)
    requires forall l | l in lines :: 1 <= l.quantity
    ensures stock + Writes(kind, rows, lines) == InPlace(kind, stock, lines) <==> DistinctProducts(lines)
  {
    if DistinctProducts(lines) {
      DistinctWritesInPlace(kind, stock, rows, lines);
    } else {
      var i, j :| 0 <= i < j < |lines| && lines[i].productId == lines[j].productId;
      RepeatedWritesDiffer(kind, stock, rows, lines, i, j);
    }
  }

  lemma {:induction false} LastLineOf(lines: seq<Line>, j: nat) returns (k: nat)
    requires j < |lines|
    ensures j <= k < |lines| && lines[k].productId == lines[j].productId
    ensures forall i | k < i < |lines| :: lines[i].productId != lines[k].productId
    decreases |lines| - j
  {
    if i :| j < i < |lines| && lines[i].productId == lines[j].productId {
      k := LastLineOf(lines, i);
    } else {
      k := j;
    }
  }

  lemma {:induction false} LineQtyAtLeast(lines: seq<Line>, i: nat)
    requires i < |lines| && forall l | l in lines :: 1 <= l.quantity
    ensures LineQty(lines, lines[i].productId) >= lines[i].quantity
  {
    var init, p := lines[..|lines| - 1], lines[i].productId;
    assert forall l | l in init :: l in lines;
    if i < |lines| - 1 {
      LineQtyAtLeast(init, i);
      assert lines[|lines| - 1] in lines;
    } else {
      LineQtyNonNegative(init, p);
    }
  }

  lemma {:induction false} LineQtyNonNegative(lines: seq<Line>, p: Uuid)
    requires forall l | l in lines :: 1 <= l.quantity
    ensures LineQty(lines, p) >= 0
  {
    if lines != [] {
      assert lines[|lines| - 1] in lines;
      LineQtyNonNegative(lines[..|lines| - 1], p);
    }
  }

  lemma {:induction false} LineQtyOfTwo(lines: seq<Line>, i: nat, j: nat)
    requires i < j < |lines| && lines[i].productId == lines[j].productId
    requires forall l | l in lines :: 1 <= l.quantity
    ensures LineQty(lines, lines[j].productId) > lines[j].quantity
  {
    var init := lines[..|lines| - 1];
    assert lines[i] in lines && lines[|lines| - 1] in lines;
    if j == |lines| - 1 {
      LineQtyAtLeast(init, i);
    } else {
      LineQtyOfTwo(init, i, j);
    }
  }

  lemma {:induction false} LineQtyPermuted(a: seq<Line>, b: seq<Line>, p: Uuid)
    requires multiset(a) == multiset(b)
    ensures LineQty(a, p) == LineQty(b, p)
  {
    if a == [] {
      assert |b| == |multiset(b)| == 0;
    } else {
      var init, l := a[..|a| - 1], a[|a| - 1];
      assert a == init + [l];
      assert l in multiset(b);
      var k :| 0 <= k < |b| && b[k] == l;
      assert b == b[..k] + [l] + b[k + 1..];
      assert multiset(a) == multiset(init) + multiset{l};
      assert multiset(b) == multiset(b[..k]) + multiset{l} + multiset(b[k + 1..]);
      assert multiset(init) == multiset(a) - multiset{l};
      assert multiset(b[..k] + b[k + 1..]) == multiset(b) - multiset{l};
      LineQtyPermuted(init, b[..k] + b[k + 1..], p);
      LineQtyAppend(b[..k], b[k + 1..], p);
      LineQtyAppend(b[..k] + [l], b[k + 1..], p);
      LineQtyAppend(b[..k], [l], p);
    }
  }

  lemma InPlacePermuted(kind: Kind, stock: map<Uuid, Stock>, a: seq<Line>, b: seq<Line>)
    requires (forall l | l in a :: l.productId in stock) && (forall l | l in b :: l.productId in stock)
    requires multiset(a) == multiset(b)
    ensures InPlace(kind, stock, a) == InPlace(kind, stock, b)
  {
    forall p | p in stock ensures InPlace(kind, stock, a)[p] == InPlace(kind, stock, b)[p] {
      InPlaceIs(kind, stock, a, p);
      InPlaceIs(kind, stock, b, p);
      LineQtyPermuted(a, b, p);
    }
  }

  /** The resulting inventory does not depend on the order of the request's lines. */
  lemma LineOrderIsIrrelevant(kind: Kind, stock: map<Uuid, Stock>, rows: map<Uuid, Row>, a: seq<Line>, b: seq<Line>)
    requires SnapshotOf(rows, stock) && Covers(rows, a) && Covers(rows, b)
    requires DistinctProducts(a) && DistinctProducts(b) && multiset(a) == multiset(b)
    ensures stock + Writes(kind, rows, a) == stock + Writes(kind, rows, b)
  {
    DistinctWritesInPlace(kind, stock, rows, a);
    DistinctWritesInPlace(kind, stock, rows, b);
    InPlacePermuted(kind, stock, a, b);
  }
}
