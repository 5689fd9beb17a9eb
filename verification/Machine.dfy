/** Any number of READ COMMITTED transactions, interleaved statement by statement.

    Taken as given of PostgreSQL: a row lock, and the claim a unique insert makes, is held to
    commit or abort; a statement that needs a resource another transaction holds waits; a locked
    row is read at its current committed value; uncommitted writes are invisible to others. */
module Machine {
  import opened Tables
  import opened Engine
  import opened StoreInvariant
  import opened Fingerprint
  import opened Idempotency

  datatype Resource =
    | KeyLock(id: KeyId)
    | SkuLock(org: Uuid, sku: Text)
    | OrderLock(orderId: Uuid)
    | StockLock(productId: Uuid)

  /** The next statement of a transaction, or how it ended. */
  datatype Pc =
    | Precheck                          // reservation only: the reads before the transaction
    | Claim                             // INSERT INTO idempotency_keys
    | TakeOrder                         // UPDATE orders ... WHERE status = 'pending'
    | ReadStatus                        // the follow-up SELECT when nothing matched
    | ReadItems                         // SELECT ... FROM order_items
    | FindRows                          // SELECT ... FROM inventory FOR UPDATE: its snapshot
    | LockRows(todo: seq<Uuid>)         // ... and its locks, one row at a time
    | CheckStock                        // reservation only: the shortfall loop
    | WriteRows(k: nat)                 // the write loop, `k` lines done
    | InsertRows                        // order, items, movements
    | ReadProduct                       // adjustment: SELECT ... FROM products
    | LockRow                           // adjustment: SELECT ... FROM inventory FOR UPDATE
    | InsertStock                       // adjustment with no row: the unique insert
    | Adjusting                         // adjustment: the checks and the write
    | InsertProduct                     // product creation: the unique SKU
    | InsertInitial                     // product creation: inventory row and movement
    | Complete(out: Outcome)            // UPDATE idempotency_keys SET state = 'completed'
    | Commit(out: Outcome)
    | Resolve                           // rolled back after a lost claim: read the winner's row
    | Committed(out: Outcome)
    | Refused(out: Outcome)             // answered without a commit
    | Replayed(out: Outcome)            // answered by conflict resolution
    | Violated                          // "Invariant violated" was thrown
    | Aborted

  /** `effect` and `keyRow` are the transaction's own uncommitted writes. */
  datatype Txn = Txn(call: Call, key: Text, pc: Pc, held: set<Resource>, lines: seq<Line>,
                     rows: map<Uuid, Row>, effect: Effect, keyRow: Option<KeyRow>)

  /** `log` records the successful commits in commit order. */
  datatype Entry = Entry(txn: nat, call: Call, outcome: Outcome)

  datatype Machine = Machine(db: Db, txns: seq<Txn>, log: seq<Entry>)

  const INITIAL := Machine(Db(EMPTY_STORE, map[]), [], [])

  predicate Finished(pc: Pc) {
    pc.Committed? || pc.Refused? || pc.Replayed? || pc.Violated? || pc.Aborted?
  }

  predicate Transition(req: Request) { req.Release? || req.Fulfill? }

  function KindOf(req: Request): Kind {
    if req.Reserve? then Hold else if req.Release? then Free else Ship
  }

  /** Which requests run which statements. */
  predicate Typed(t: Txn) {
    && WellFormed(t.call.req)
    && match t.pc
       case Precheck => t.call.req.Reserve?
       case CheckStock => t.call.req.Reserve?
       case Claim => Guarded(t.call.req)
       case Complete(_) => Guarded(t.call.req)
       case Resolve => Guarded(t.call.req)
       case TakeOrder => Transition(t.call.req)
       case ReadStatus => Transition(t.call.req)
       case ReadItems => Transition(t.call.req)
       case FindRows => t.call.req.Reserve? || Transition(t.call.req)
       case LockRows(_) => t.call.req.Reserve? || Transition(t.call.req)
       case WriteRows(k) => (t.call.req.Reserve? || Transition(t.call.req)) && k <= |t.lines|
       case InsertRows => t.call.req.Reserve? || Transition(t.call.req)
       case ReadProduct => t.call.req.Adjust?
       case LockRow => t.call.req.Adjust?
       case InsertStock => t.call.req.Adjust?
       case Adjusting => t.call.req.Adjust?
       case InsertProduct => t.call.req.CreateProduct?
       case InsertInitial => t.call.req.CreateProduct?
       case _ => true
  }

  function StartPc(req: Request): Pc {
    match req
    case Reserve(_, _, _) => Precheck
    case CreateProduct(_, _, _, _) => InsertProduct
    case _ => Claim
  }

  function Start(call: Call, key: Text): Txn {
    Txn(call, key, StartPc(call.req), {}, if call.req.Reserve? then call.req.lines else [], map[], NO_EFFECT, None)
  }

  // ----- what a statement needs -----

  /** The resource the next statement must acquire, if any. */
  function Wants(db: Db, t: Txn): Option<Resource>
    requires Typed(t)
  {
    var s, req := db.store, t.call.req;
    match t.pc
    case Claim => if KeyOf(req, t.key) in db.keys then None else Some(KeyLock(KeyOf(req, t.key)))
    case TakeOrder => if IsPending(s, req.org, req.orderId) then Some(OrderLock(req.orderId)) else None
    case LockRows(todo) => if todo == [] then None else Some(StockLock(todo[0]))
    case LockRow => if HasStock(s, req.org, req.productId) then Some(StockLock(req.productId)) else None
    case InsertStock => if req.productId in s.stock then None else Some(StockLock(req.productId))
    case InsertProduct => if SkuInUse(s, req.org, req.sku) then None else Some(SkuLock(req.org, req.sku))
    case InsertInitial => Some(StockLock(t.call.freshId))
    case _ => None
  }

  // ----- what a statement does -----

  lemma {:induction false} LeastExists(ids: set<Uuid>, y: Uuid)
    requires y in ids
    ensures exists m :: m in ids && forall x | x in ids :: m <= x
  {
    if x :| x in ids && x < y {
      LeastExists(ids, x);
    }
  }

  ghost function Least(ids: set<Uuid>): (m: Uuid)
    requires ids != {}
    ensures m in ids && forall x | x in ids :: m <= x
  {
    var y :| y in ids;
    LeastExists(ids, y);
    var m :| m in ids && forall x | x in ids :: m <= x;
    m
  }

  /** `ORDER BY product_id ASC` over a set of rows. */
  ghost function Ascending(ids: set<Uuid>): (r: seq<Uuid>)
    ensures forall i, j | 0 <= i < j < |r| :: r[i] < r[j]
    ensures forall x :: x in r <==> x in ids
  {
    if ids == {} then [] else [Least(ids)] + Ascending(ids - {Least(ids)})
  }

  /** The product ids a locking SELECT finds rows for. */
  function Found(s: Store, org: Uuid, lines: seq<Line>): set<Uuid> {
    set p | p in ProductsOf(lines) && HasStock(s, org, p)
  }

  /** The next line's row cannot be written: a thrown error. */
  predicate Throws(t: Txn, l: Line) {
    l.productId !in t.rows || (!t.call.req.Reserve? && Uncovered(KindOf(t.call.req), t.rows, l))
  }

  /** A finished transaction holds nothing, and what it did not commit is gone. */
  function End(t: Txn, pc: Pc): Txn {
    t.(pc := pc, held := {})
  }

  /** One statement of a transaction, run against the committed database. What it acquires is
      added by `Advance`. */
  ghost function Move(db: Db, t: Txn): Txn
    requires Typed(t) && !t.pc.Commit? && !Finished(t.pc)
  {
    var s, req := db.store, t.call.req;
    match t.pc
    case Precheck =>
      if !DistinctProducts(req.lines) then End(t, Refused(Outcome(false, 400, DuplicateLines)))
      else if exists l | l in req.lines :: !HasProduct(s, req.org, l.productId)
      then End(t, Refused(Outcome(false, 400, UnknownProducts)))
      else t.(pc := Claim)
    case Claim =>
      if KeyOf(req, t.key) in db.keys then End(t, Resolve)
      else t.(keyRow := Some(ClaimedRow(FingerprintOf(req))),
              pc := if req.Reserve? then FindRows else if req.Adjust? then ReadProduct else TakeOrder)
    case TakeOrder =>
      if IsPending(s, req.org, req.orderId)
      then t.(effect := t.effect.(orders := map[req.orderId :=
                 Terminal(KindOf(req), s.orders[req.orderId], t.call.now)]),
              pc := ReadItems)
      else t.(pc := ReadStatus)
    case ReadStatus => t.(pc := Complete(Refusal(s, req.org, req.orderId)))
    case ReadItems => t.(lines := OrderLines(s.items, req.orderId), pc := FindRows)
    case FindRows => t.(pc := LockRows(Ascending(Found(s, req.org, t.lines))))
    case LockRows(todo) =>
      if todo == [] then t.(pc := if req.Reserve? then CheckStock else WriteRows(0))
      else
        var p := todo[0];
        t.(rows := if HasStock(s, req.org, p) then t.rows[p := Row(s.stock[p], PriceOf(s, p))] else t.rows,
           pc := LockRows(todo[1..]))
    case CheckStock =>
      var short := Shortfalls(t.lines, t.rows);
      t.(pc := if short == [] then WriteRows(0) else Complete(Outcome(false, 409, InsufficientStock(short))))
    case WriteRows(k) =>
      if k == |t.lines| then t.(pc := InsertRows)
      else
        var l := t.lines[k];
        if Throws(t, l) then End(t, Violated)
        else t.(effect := t.effect.(stock := t.effect.stock[l.productId :=
                  Shift(KindOf(req), t.rows[l.productId].stock, l.quantity)]),
                pc := WriteRows(k + 1))
    case InsertRows =>
      if req.Reserve? then
        t.(effect := t.effect.(orders := map[t.call.freshId := NewOrder(t.call)],
                               items := ItemsFor(req.org, t.call.freshId, t.lines, t.rows),
                               movements := Movements(Hold, req.org, t.call.freshId, t.lines)),
           pc := Complete(ReservedOutcome(t.call, t.rows)))
      else
        t.(effect := t.effect.(movements := Movements(KindOf(req), req.org, req.orderId, t.lines)),
           pc := Complete(MovedOutcome(KindOf(req), req.orderId, t.call.now)))
    case ReadProduct =>
      t.(pc := if HasProduct(s, req.org, req.productId) then LockRow
               else Complete(Outcome(false, 404, ProductNotFound)))
    case LockRow =>
      if HasStock(s, req.org, req.productId) then
        t.(rows := map[req.productId := Row(s.stock[req.productId], PriceOf(s, req.productId))], pc := Adjusting)
      else t.(pc := if req.delta < 0 then Complete(Outcome(false, 409, NoInventoryRecord)) else InsertStock)
    case InsertStock =>
      if req.productId in s.stock then End(t, Aborted) else t.(pc := Adjusting)
    case Adjusting =>
      var d := AdjustDecision(t.call, if req.productId in t.rows then Some(t.rows[req.productId].stock) else None);
      t.(effect := d.effect, pc := Complete(d.outcome))
    case InsertProduct =>
      if SkuInUse(s, req.org, req.sku) then End(t, Refused(Outcome(false, 409, SkuTaken)))
      else t.(effect := t.effect.(products := CreateDecision(t.call).effect.products), pc := InsertInitial)
    case InsertInitial =>
      t.(effect := CreateDecision(t.call).effect, pc := Commit(CreateDecision(t.call).outcome))
    case Complete(out) =>
      t.(keyRow := if t.keyRow.Some? then Some(CompletedRow(t.keyRow.value, out)) else None, pc := Commit(out))
    case Resolve =>
      End(t, Replayed(ResolveConflict(GetKey(db.keys, KeyOf(req, t.key)), FingerprintOf(req))))
  }

  /** The database after `t` commits. */
  function CommitDb(db: Db, t: Txn): Db {
    Db(Apply(db.store, t.effect),
       if t.keyRow.Some? && Guarded(t.call.req) then db.keys[KeyOf(t.call.req, t.key) := t.keyRow.value] else db.keys)
  }

  // ----- the machine -----

  ghost predicate AllTyped(m: Machine) {
    forall i | 0 <= i < |m.txns| :: Typed(m.txns[i])
  }

  /** Another transaction holds what `i` needs. */
  ghost predicate Blocked(m: Machine, i: nat)
    requires i < |m.txns| && Typed(m.txns[i])
  {
    var r := Wants(m.db, m.txns[i]);
    r.Some? && exists j | 0 <= j < |m.txns| :: j != i && r.value in m.txns[j].held
  }

  ghost predicate CanAdvance(m: Machine, i: nat) {
    i < |m.txns| && Typed(m.txns[i]) && !Finished(m.txns[i].pc) && !Blocked(m, i)
  }

  function Acquired(db: Db, t: Txn): set<Resource>
    requires Typed(t)
  {
    if Wants(db, t).Some? then {Wants(db, t).value} else {}
  }

  ghost function Stepped(db: Db, t: Txn): Txn
    requires Typed(t) && !t.pc.Commit? && !Finished(t.pc)
  {
    var t' := Move(db, t);
    t'.(held := t'.held + Acquired(db, t))
  }

  ghost function Advance(m: Machine, i: nat): Machine
    requires CanAdvance(m, i)
  {
    var t := m.txns[i];
    if t.pc.Commit? then
      Machine(CommitDb(m.db, t), m.txns[i := End(t, Committed(t.pc.out))],
              if t.pc.out.ok then m.log + [Entry(i, t.call, t.pc.out)] else m.log)
    else m.(txns := m.txns[i := Stepped(m.db, t)])
  }

  /** A generated id is new to the tables and to every other request. */
  ghost predicate NewId(m: Machine, id: Uuid) {
    Fresh(m.db.store, id) && forall i | 0 <= i < |m.txns| :: m.txns[i].call.freshId != id
  }

  datatype Action = Begin(call: Call, key: Text) | Step(i: nat) | Abort(i: nat)

  ghost predicate Enabled(m: Machine, a: Action) {
    match a
    case Begin(call, _) => WellFormed(call.req) && NewId(m, call.freshId)
    case Step(i) => CanAdvance(m, i)
    case Abort(i) => i < |m.txns| && !Finished(m.txns[i].pc)
  }

  ghost function Do(m: Machine, a: Action): Machine
    requires Enabled(m, a)
  {
    match a
    case Begin(call, key) => m.(txns := m.txns + [Start(call, key)])
    case Step(i) => Advance(m, i)
    case Abort(i) => m.(txns := m.txns[i := End(m.txns[i], Aborted)])
  }

  /** A run: every action was enabled when it was taken. */
  ghost predicate Runs(m: Machine, actions: seq<Action>)
    decreases |actions|
  {
    actions == [] || (Enabled(m, actions[0]) && Runs(Do(m, actions[0]), actions[1..]))
  }

  ghost function After(m: Machine, actions: seq<Action>): Machine
    requires Runs(m, actions)
    decreases |actions|
  {
    if actions == [] then m else After(Do(m, actions[0]), actions[1..])
  }

  lemma OneThen(m: Machine, a: Action, rest: seq<Action>)
    requires Enabled(m, a) && Runs(Do(m, a), rest)
    ensures Runs(m, [a] + rest) && After(m, [a] + rest) == After(Do(m, a), rest)
  {
    assert ([a] + rest)[1..] == rest;
  }

  lemma {:induction false} RunsConcat(m: Machine, a: seq<Action>, b: seq<Action>)
    requires Runs(m, a) && Runs(After(m, a), b)
    ensures Runs(m, a + b) && After(m, a + b) == After(After(m, a), b)
    decreases |a|
  {
    if a == [] {
      assert a + b == b;
    } else {
      RunsConcat(Do(m, a[0]), a[1..], b);
      assert (a + b)[1..] == a[1..] + b;
    }
  }
}
