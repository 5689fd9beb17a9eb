/** What every in-flight transaction knows, and that each of its own statements keeps it. */
module TxnInvariant {
  import opened Tables
  import opened Engine
  import opened StoreInvariant
  import opened Fingerprint
  import opened Idempotency
  import opened Machine

  ghost predicate KeysCompleted(keys: map<KeyId, KeyRow>) {
    forall k | k in keys :: keys[k].state.Completed? && keys[k].responseStatus.Some? && keys[k].responseBody.Some?
  }

  ghost predicate DbOk(db: Db) {
    Inv(db.store) && KeysCompleted(db.keys)
  }

  function Org(t: Txn): Uuid { t.call.req.org }

  /** What the reads before a reservation's transaction have established; products are never
      removed, so it stays true. */
  ghost predicate Prechecked(db: Db, t: Txn) {
    t.call.req.Reserve? ==>
      && DistinctProducts(t.call.req.lines)
      && forall l | l in t.call.req.lines :: HasProduct(db.store, Org(t), l.productId)
  }

  /** Nothing held, nothing read, nothing written. */
  ghost predicate Untouched(t: Txn) {
    t.held == {} && t.effect == NO_EFFECT && t.rows == map[] && t.keyRow.None?
  }

  /** The idempotency claim, once made. */
  ghost predicate Claimed(db: Db, t: Txn) {
    Guarded(t.call.req)
    && var id := KeyOf(t.call.req, t.key);
    && KeyLock(id) in t.held && id !in db.keys
    && t.keyRow == Some(ClaimedRow(FingerprintOf(t.call.req)))
  }

  /** The claim is the only thing held and nothing has been written. */
  ghost predicate OnlyClaimed(db: Db, t: Txn) {
    Claimed(db, t) && t.held == {KeyLock(KeyOf(t.call.req, t.key))} && t.effect == NO_EFFECT && t.rows == map[]
  }

  ghost predicate OrderTaken(db: Db, t: Txn) {
    Transition(t.call.req)
    && OrderLock(t.call.req.orderId) in t.held && IsPending(db.store, Org(t), t.call.req.orderId)
  }

  /** Every locked row still has its committed value. */
  ghost predicate RowsCurrent(db: Db, t: Txn) {
    forall p | p in t.rows ::
      && StockLock(p) in t.held && HasStock(db.store, Org(t), p)
      && t.rows[p] == Row(db.store.stock[p], PriceOf(db.store, p))
  }

  /** The lines the transaction works on are the ones its order, or its request, has. */
  ghost predicate LinesKnown(db: Db, t: Txn) {
    || (t.call.req.Reserve? && t.lines == t.call.req.lines && DistinctProducts(t.lines))
    || (OrderTaken(db, t) && t.lines == OrderLines(db.store.items, t.call.req.orderId))
  }

  /** What has been written before the inventory rows. */
  ghost predicate BaseEffect(db: Db, t: Txn, e: Effect) {
    e == if t.call.req.Reserve? then NO_EFFECT
         else if OrderTaken(db, t) then
           NO_EFFECT.(orders := map[t.call.req.orderId :=
             Terminal(KindOf(t.call.req), db.store.orders[t.call.req.orderId], t.call.now)])
         else t.effect
  }

  ghost predicate HeldForLines(t: Txn)
    requires Guarded(t.call.req)
  {
    forall r | r in t.held ::
      || r == KeyLock(KeyOf(t.call.req, t.key))
      || (Transition(t.call.req) && r == OrderLock(t.call.req.orderId))
      || (r.StockLock? && r.productId in t.rows)
  }

  ghost predicate LinesStage(db: Db, t: Txn) {
    Claimed(db, t) && LinesKnown(db, t) && RowsCurrent(db, t) && t.rows.Keys <= ProductsOf(t.lines)
  }

  /** The rows still to lock come after the locked ones, in ascending order, and all exist. */
  ghost predicate ToLock(db: Db, t: Txn, todo: seq<Uuid>) {
    && (forall i, j | 0 <= i < j < |todo| :: todo[i] < todo[j])
    && (forall p, j | p in t.rows && 0 <= j < |todo| :: p < todo[j])
    && (forall j | 0 <= j < |todo| :: todo[j] in ProductsOf(t.lines) && HasStock(db.store, Org(t), todo[j]))
    && (forall p | p in ProductsOf(t.lines) :: p in t.rows || p in todo)
  }

  // ----- what holds at each statement -----

  ghost predicate ClaimStage(db: Db, t: Txn) {
    Untouched(t) && (t.call.req.Reserve? ==> LinesKnown(db, t))
  }

  ghost predicate ItemsStage(db: Db, t: Txn) {
    && Claimed(db, t) && OrderTaken(db, t) && t.rows == map[] && HeldForLines(t)
    && BaseEffect(db, t, t.effect)
  }

  ghost predicate FindStage(db: Db, t: Txn) {
    LinesStage(db, t) && t.rows == map[] && HeldForLines(t) && BaseEffect(db, t, t.effect)
  }

  ghost predicate LockStage(db: Db, t: Txn, todo: seq<Uuid>) {
    LinesStage(db, t) && HeldForLines(t) && BaseEffect(db, t, t.effect) && ToLock(db, t, todo)
  }

  /** Every line's row is locked. */
  ghost predicate CheckStage(db: Db, t: Txn) {
    LinesStage(db, t) && t.rows.Keys == ProductsOf(t.lines) && BaseEffect(db, t, t.effect)
  }

  /** The first `k` lines have been written from the locked rows. */
  ghost predicate WriteStage(db: Db, t: Txn, k: nat) {
    && k <= |t.lines|
    && LinesStage(db, t) && t.rows.Keys == ProductsOf(t.lines) && Covers(t.rows, t.lines)
    && (t.call.req.Reserve? ==> Shortfalls(t.lines, t.rows) == [])
    && t.effect.stock == Writes(KindOf(t.call.req), t.rows, t.lines[..k])
    && BaseEffect(db, t, t.effect.(stock := map[]))
  }

  ghost predicate LockRowStage(db: Db, t: Txn)
    requires t.call.req.Adjust?
  {
    OnlyClaimed(db, t) && HasProduct(db.store, Org(t), t.call.req.productId)
  }

  ghost predicate InsertStockStage(db: Db, t: Txn)
    requires t.call.req.Adjust?
  {
    LockRowStage(db, t) && t.call.req.delta >= 0
  }

  ghost predicate AdjustingStage(db: Db, t: Txn)
    requires t.call.req.Adjust?
  {
    && Claimed(db, t) && AdjustGround(db, t) && t.rows.Keys <= {t.call.req.productId}
    && (t.call.req.productId !in t.rows ==> t.call.req.delta >= 0)
  }

  ghost predicate InitialStage(db: Db, t: Txn)
    requires t.call.req.CreateProduct?
  {
    var req := t.call.req;
    t.held == {SkuLock(req.org, req.sku)} && !SkuInUse(db.store, req.org, req.sku) && t.keyRow.None?
  }

  /** The decision is what the request would decide on the current committed store, and every
      row it rests on is locked. */
  ghost predicate Grounded(db: Db, t: Txn) {
    match t.call.req
    case Reserve(_, _, _) => LinesGround(db, t)
    case Release(_, _) => OrderTaken(db, t) && LinesGround(db, t)
    case Fulfill(_, _) => OrderTaken(db, t) && LinesGround(db, t)
    case Adjust(_, _, _, _) => AdjustGround(db, t)
    case CreateProduct(org, sku, _, _) =>
      SkuLock(org, sku) in t.held && StockLock(t.call.freshId) in t.held && !SkuInUse(db.store, org, sku)
  }

  ghost predicate LinesGround(db: Db, t: Txn) {
    LinesKnown(db, t) && RowsCurrent(db, t) && t.rows.Keys == ProductsOf(t.lines)
  }

  ghost predicate AdjustGround(db: Db, t: Txn)
    requires t.call.req.Adjust?
  {
    var p := t.call.req.productId;
    && HasProduct(db.store, Org(t), p) && StockLock(p) in t.held && RowsCurrent(db, t)
    && (if p in db.store.stock then p in t.rows else p !in t.rows)
  }

  /** The answer rests on locked rows alone: every success, every answer to a reservation, and
      every answer to an adjustment of a product that exists. */
  predicate Firm(req: Request, out: Outcome) {
    out.ok || req.Reserve? || (req.Adjust? && out.status != 404)
  }

  ghost predicate Decided(db: Db, t: Txn, out: Outcome) {
    && WellFormed(t.call.req)
    && (out.ok <==> out.status < 400)
    && (Firm(t.call.req, out) ==> Exec(db.store, t.call) == Decision(t.effect, out) && Grounded(db, t))
    && (!out.ok ==> t.effect == NO_EFFECT)
  }

  ghost predicate CommitStage(db: Db, t: Txn, out: Outcome) {
    && Decided(db, t, out)
    && (if Guarded(t.call.req)
        then KeyLock(KeyOf(t.call.req, t.key)) in t.held && KeyOf(t.call.req, t.key) !in db.keys
             && t.keyRow == Some(CompletedRow(ClaimedRow(FingerprintOf(t.call.req)), out))
        else t.keyRow.None?)
  }

  /** What a transaction at its next statement relies on. */
  ghost predicate AtStage(db: Db, t: Txn)
    requires Typed(t)
  {
    match t.pc
    case Precheck => Untouched(t) && t.lines == t.call.req.lines
    case Claim => ClaimStage(db, t)
    case TakeOrder => OnlyClaimed(db, t)
    case ReadStatus => OnlyClaimed(db, t)
    case ReadItems => ItemsStage(db, t)
    case FindRows => FindStage(db, t)
    case LockRows(todo) => LockStage(db, t, todo)
    case CheckStock => CheckStage(db, t)
    case WriteRows(k) => WriteStage(db, t, k)
    case InsertRows => WriteStage(db, t, |t.lines|)
    case ReadProduct => OnlyClaimed(db, t)
    case LockRow => LockRowStage(db, t)
    case InsertStock => InsertStockStage(db, t)
    case Adjusting => AdjustingStage(db, t)
    case InsertProduct => Untouched(t)
    case InsertInitial => InitialStage(db, t)
    case Complete(out) => Claimed(db, t) && Decided(db, t, out)
    case Commit(out) => CommitStage(db, t, out)
    case _ => t.held == {}
  }

  predicate PastPrecheck(pc: Pc) {
    !pc.Precheck? && !pc.Refused? && !pc.Aborted? && !pc.Violated?
  }

  ghost predicate TxnOk(db: Db, t: Txn) {
    && Typed(t) && AtStage(db, t)
    && (!Finished(t.pc) ==> Fresh(db.store, t.call.freshId))
    && (PastPrecheck(t.pc) ==> Prechecked(db, t))
  }

  // ----- one lemma per statement: what `TxnOk` says of it -----

  /** What `TxnOk` says of every statement of a transaction. */
  ghost predicate Ready(db: Db, t: Txn) {
    Fresh(db.store, t.call.freshId) && Prechecked(db, t)
  }

  lemma AtPrecheck(db: Db, t: Txn)
    requires Typed(t) && t.pc.Precheck?
    ensures TxnOk(db, t) <==> Untouched(t) && t.lines == t.call.req.lines && Fresh(db.store, t.call.freshId)
  {
  }

  lemma AtClaim(db: Db, t: Txn)
    requires Typed(t) && t.pc.Claim?
    ensures TxnOk(db, t) <==> ClaimStage(db, t) && Ready(db, t)
  {
  }

  lemma AtOnlyClaimed(db: Db, t: Txn)
    requires Typed(t) && (t.pc.TakeOrder? || t.pc.ReadStatus? || t.pc.ReadProduct?)
    ensures TxnOk(db, t) <==> OnlyClaimed(db, t) && Ready(db, t)
  {
  }

  lemma AtItems(db: Db, t: Txn)
    requires Typed(t) && t.pc.ReadItems?
    ensures TxnOk(db, t) <==> ItemsStage(db, t) && Ready(db, t)
  {
  }

  lemma AtFind(db: Db, t: Txn)
    requires Typed(t) && t.pc.FindRows?
    ensures TxnOk(db, t) <==> FindStage(db, t) && Ready(db, t)
  {
  }

  lemma AtLock(db: Db, t: Txn, todo: seq<Uuid>)
    requires Typed(t) && t.pc == LockRows(todo)
    ensures TxnOk(db, t) <==> LockStage(db, t, todo) && Ready(db, t)
  {
  }

  lemma AtCheck(db: Db, t: Txn)
    requires Typed(t) && t.pc.CheckStock?
    ensures TxnOk(db, t) <==> CheckStage(db, t) && Ready(db, t)
  {
  }

  lemma AtWrite(db: Db, t: Txn, k: nat)
    requires Typed(t) && (t.pc == WriteRows(k) || (t.pc.InsertRows? && k == |t.lines|))
    ensures TxnOk(db, t) <==> WriteStage(db, t, k) && Ready(db, t)
  {
  }

  lemma AtLockRow(db: Db, t: Txn)
    requires Typed(t) && t.pc.LockRow?
    ensures TxnOk(db, t) <==> LockRowStage(db, t) && Ready(db, t)
  {
  }

  lemma AtInsertStock(db: Db, t: Txn)
    requires Typed(t) && t.pc.InsertStock?
    ensures TxnOk(db, t) <==> InsertStockStage(db, t) && Ready(db, t)
  {
  }

  lemma AtAdjusting(db: Db, t: Txn)
    requires Typed(t) && t.pc.Adjusting?
    ensures TxnOk(db, t) <==> AdjustingStage(db, t) && Ready(db, t)
  {
  }

  lemma AtInsertProduct(db: Db, t: Txn)
    requires Typed(t) && t.pc.InsertProduct?
    ensures TxnOk(db, t) <==> Untouched(t) && Ready(db, t)
  {
  }

  lemma AtInitial(db: Db, t: Txn)
    requires Typed(t) && t.pc.InsertInitial?
    ensures TxnOk(db, t) <==> InitialStage(db, t) && Ready(db, t)
  {
  }

  lemma AtComplete(db: Db, t: Txn, out: Outcome)
    requires Typed(t) && t.pc == Complete(out)
    ensures TxnOk(db, t) <==> Claimed(db, t) && Decided(db, t, out) && Ready(db, t)
  {
  }

  lemma AtCommit(db: Db, t: Txn, out: Outcome)
    requires Typed(t) && t.pc == Commit(out)
    ensures TxnOk(db, t) <==> CommitStage(db, t, out) && Ready(db, t)
  {
  }

  lemma AtResolve(db: Db, t: Txn)
    requires Typed(t) && t.pc.Resolve?
    ensures TxnOk(db, t) <==> t.held == {} && Ready(db, t)
  {
  }

  lemma AtEnd(db: Db, t: Txn)
    requires Finished(t.pc) && WellFormed(t.call.req)
    ensures TxnOk(db, t) <==> t.held == {} && (PastPrecheck(t.pc) ==> Prechecked(db, t))
  {
  }

  // ----- and what the statement does -----

  /** The next statement leaves the transaction knowing what it should. */
  ghost predicate StepsWell(db: Db, t: Txn)
    requires Typed(t) && !t.pc.Commit? && !Finished(t.pc)
  {
    TxnOk(db, Stepped(db, t)) && !Stepped(db, t).pc.Violated?
  }

  function WithHeld(t: Txn, r: Resource): Txn {
    t.(held := t.held + {r})
  }

  lemma PrecheckMove(db: Db, t: Txn) returns (out: Outcome)
    requires Typed(t) && t.pc.Precheck?
    ensures Stepped(db, t) == if Prechecked(db, t) then t.(pc := Claim) else End(t, Refused(out))
  {
    out := Outcome(false, 400, if DistinctProducts(t.call.req.lines) then UnknownProducts else DuplicateLines);
    assert Wants(db, t) == None;
  }

  lemma StepPrecheck(db: Db, t: Txn)
    requires Typed(t) && t.pc.Precheck? && Untouched(t) && t.lines == t.call.req.lines
    requires Fresh(db.store, t.call.freshId)
    ensures StepsWell(db, t)
  {
    var out := PrecheckMove(db, t);
    if Prechecked(db, t) {
      AtClaim(db, Stepped(db, t));
    } else {
      AtEnd(db, Stepped(db, t));
    }
  }

  function ClaimNext(req: Request): Pc {
    if req.Reserve? then FindRows else if req.Adjust? then ReadProduct else TakeOrder
  }

  lemma ClaimMove(db: Db, t: Txn)
    requires Typed(t) && t.pc.Claim?
    ensures var id := KeyOf(t.call.req, t.key);
            Stepped(db, t) == if id in db.keys then End(t, Resolve)
                              else WithHeld(t.(keyRow := Some(ClaimedRow(FingerprintOf(t.call.req))),
                                               pc := ClaimNext(t.call.req)), KeyLock(id))
  {
  }

  lemma StepClaim(db: Db, t: Txn)
    requires Typed(t) && t.pc.Claim? && ClaimStage(db, t) && Ready(db, t)
    ensures StepsWell(db, t)
  {
    ClaimMove(db, t);
    var t' := Stepped(db, t);
    if KeyOf(t.call.req, t.key) in db.keys {
      AtResolve(db, t');
    } else if t.call.req.Reserve? {
      AtFind(db, t');
    } else {
      AtOnlyClaimed(db, t');
    }
  }

  lemma ResolveMove(db: Db, t: Txn)
    requires Typed(t) && t.pc.Resolve?
    ensures Stepped(db, t) == End(t, Replayed(ResolveConflict(GetKey(db.keys, KeyOf(t.call.req, t.key)),
                                                             FingerprintOf(t.call.req))))
  {
  }

  lemma StepResolve(db: Db, t: Txn)
    requires Typed(t) && t.pc.Resolve? && Prechecked(db, t)
    ensures StepsWell(db, t)
  {
    ResolveMove(db, t);
    AtEnd(db, Stepped(db, t));
  }

  lemma CompleteMove(db: Db, t: Txn)
    requires Typed(t) && t.pc.Complete? && t.keyRow.Some?
    ensures Stepped(db, t) == t.(keyRow := Some(CompletedRow(t.keyRow.value, t.pc.out)), pc := Commit(t.pc.out))
  {
    assert Wants(db, t) == None;
  }

  lemma StepComplete(db: Db, t: Txn)
    requires Typed(t) && t.pc.Complete? && Claimed(db, t) && Decided(db, t, t.pc.out) && Ready(db, t)
    ensures StepsWell(db, t)
  {
    CompleteMove(db, t);
    AtCommit(db, Stepped(db, t), t.pc.out);
    SameDecision(db, t, Stepped(db, t), t.pc.out);
  }

  /** A decision does not depend on the statement or on the key row. */
  lemma SameDecision(db: Db, t: Txn, t': Txn, out: Outcome)
    requires Decided(db, t, out) && t' == t.(pc := t'.pc, keyRow := t'.keyRow)
    ensures Decided(db, t', out)
  {
  }

  // ----- taking the order -----

  lemma TakeOrderMove(db: Db, t: Txn)
    requires Typed(t) && t.pc.TakeOrder?
    ensures var s, req := db.store, t.call.req;
            Stepped(db, t) ==
              if IsPending(s, req.org, req.orderId)
              then WithHeld(t.(effect := t.effect.(orders := map[req.orderId :=
                                 Terminal(KindOf(req), s.orders[req.orderId], t.call.now)]),
                               pc := ReadItems), OrderLock(req.orderId))
              else t.(pc := ReadStatus)
  {
    assert Wants(db, t) == if IsPending(db.store, Org(t), t.call.req.orderId) then Some(OrderLock(t.call.req.orderId))
                           else None;
  }

  lemma StepTakeOrder(db: Db, t: Txn)
    requires Typed(t) && t.pc.TakeOrder? && OnlyClaimed(db, t) && Ready(db, t)
    ensures StepsWell(db, t)
  {
    TakeOrderMove(db, t);
    if IsPending(db.store, Org(t), t.call.req.orderId) {
      AtItems(db, Stepped(db, t));
    } else {
      AtOnlyClaimed(db, Stepped(db, t));
    }
  }

  lemma ReadStatusMove(db: Db, t: Txn)
    requires Typed(t) && t.pc.ReadStatus?
    ensures Stepped(db, t) == t.(pc := Complete(Refusal(db.store, Org(t), t.call.req.orderId)))
  {
    assert Wants(db, t) == None;
  }

  lemma StepReadStatus(db: Db, t: Txn)
    requires Typed(t) && t.pc.ReadStatus? && OnlyClaimed(db, t) && Ready(db, t)
    ensures StepsWell(db, t)
  {
    ReadStatusMove(db, t);
    AtComplete(db, Stepped(db, t), Refusal(db.store, Org(t), t.call.req.orderId));
  }

  lemma ReadItemsMove(db: Db, t: Txn)
    requires Typed(t) && t.pc.ReadItems?
    ensures Stepped(db, t) == t.(lines := OrderLines(db.store.items, t.call.req.orderId), pc := FindRows)
  {
    assert Wants(db, t) == None;
  }

  lemma StepReadItems(db: Db, t: Txn)
    requires Typed(t) && t.pc.ReadItems? && ItemsStage(db, t) && Ready(db, t)
    ensures StepsWell(db, t)
  {
    ReadItemsMove(db, t);
    AtFind(db, Stepped(db, t));
  }

  // ----- locking the rows -----

  /** Every line of a taken order has an inventory row that covers it: the guard of the
      "Invariant violated" throw is false for every line. */
  ghost predicate OrderCovered(db: Db, t: Txn) {
    Transition(t.call.req) && LinesKnown(db, t) ==>
      forall l | l in t.lines ::
        HasStock(db.store, Org(t), l.productId)
        && !Uncovered(KindOf(t.call.req), Rows(db.store, Org(t), ProductsOf(t.lines)), l)
  }

  lemma SoundStoreCovers(db: Db, t: Txn)
    requires Inv(db.store)
    ensures OrderCovered(db, t)
  {
    if Transition(t.call.req) && LinesKnown(db, t) {
      TransitionLines(db.store, Org(t), t.call.req.orderId);
      TransitionCovered(KindOf(t.call.req), db.store, Org(t), t.call.req.orderId);
    }
  }

  /** Every line has an inventory row: a taken order's because it was reserved, a reservation's
      because every product has one. */
  lemma LinesHaveStock(db: Db, t: Txn)
    requires StockLinked(db.store) && OrderCovered(db, t) && LinesKnown(db, t) && Prechecked(db, t)
    ensures forall p | p in ProductsOf(t.lines) :: HasStock(db.store, Org(t), p)
  {
    forall l | l in t.lines ensures HasStock(db.store, Org(t), l.productId) {
      if t.call.req.Reserve? {
        assert HasProduct(db.store, Org(t), l.productId);
      }
    }
  }

  lemma FindMove(db: Db, t: Txn)
    requires Typed(t) && t.pc.FindRows?
    ensures Stepped(db, t) == t.(pc := LockRows(Ascending(Found(db.store, Org(t), t.lines))))
  {
    assert Wants(db, t) == None;
  }

  lemma FindingRows(db: Db, t: Txn, todo: seq<Uuid>)
    requires t.rows == map[] && todo == Ascending(Found(db.store, Org(t), t.lines))
    requires forall p | p in ProductsOf(t.lines) :: HasStock(db.store, Org(t), p)
    ensures ToLock(db, t, todo)
  {
    assert forall j | 0 <= j < |todo| :: todo[j] in todo;
  }

  lemma StepFind(db: Db, t: Txn)
    requires Typed(t) && t.pc.FindRows? && FindStage(db, t) && Ready(db, t)
    requires forall p | p in ProductsOf(t.lines) :: HasStock(db.store, Org(t), p)
    ensures StepsWell(db, t)
  {
    var todo := Ascending(Found(db.store, Org(t), t.lines));
    FindMove(db, t);
    FindingRows(db, t, todo);
    SameLock(db, t, Stepped(db, t), todo);
    AtLock(db, Stepped(db, t), todo);
  }

  lemma SameLock(db: Db, t: Txn, t': Txn, todo: seq<Uuid>)
    requires Guarded(t.call.req) && t' == t.(pc := t'.pc)
    requires LinesStage(db, t) && HeldForLines(t) && BaseEffect(db, t, t.effect) && ToLock(db, t, todo)
    ensures LockStage(db, t', todo)
  {
  }

  lemma LockDoneMove(db: Db, t: Txn)
    requires Typed(t) && t.pc == LockRows([])
    ensures Stepped(db, t) == t.(pc := if t.call.req.Reserve? then CheckStock else WriteRows(0))
  {
    assert Wants(db, t) == None;
  }

  lemma AllLocked(db: Db, t: Txn, t': Txn)
    requires Guarded(t.call.req) && LockStage(db, t, []) && t' == t.(pc := t'.pc)
    ensures CheckStage(db, t') && (!t.call.req.Reserve? ==> WriteStage(db, t', 0))
  {
  }

  lemma StepLockDone(db: Db, t: Txn)
    requires Typed(t) && t.pc == LockRows([]) && LockStage(db, t, []) && Ready(db, t)
    ensures StepsWell(db, t)
  {
    LockDoneMove(db, t);
    var t' := Stepped(db, t);
    AllLocked(db, t, t');
    if t.call.req.Reserve? {
      AtCheck(db, t');
    } else {
      AtWrite(db, t', 0);
    }
  }

  function WithRow(db: Db, t: Txn, p: Uuid): Txn
    requires p in db.store.stock
  {
    WithHeld(t.(rows := t.rows[p := Row(db.store.stock[p], PriceOf(db.store, p))]), StockLock(p))
  }

  lemma HoldingOne(db: Db, t: Txn, p: Uuid)
    requires Guarded(t.call.req) && LinesStage(db, t) && HeldForLines(t)
    requires p in ProductsOf(t.lines) && HasStock(db.store, Org(t), p)
    ensures LinesStage(db, WithRow(db, t, p)) && HeldForLines(WithRow(db, t, p))
  {
    var t' := WithRow(db, t, p);
    assert RowsCurrent(db, t');
    assert LinesKnown(db, t');
  }

  lemma LockingOne(db: Db, t: Txn, todo: seq<Uuid>)
    requires todo != [] && ToLock(db, t, todo)
    ensures todo[0] in db.store.stock && ToLock(db, WithRow(db, t, todo[0]), todo[1..])
  {
    assert forall p :: p in todo <==> p == todo[0] || p in todo[1..];
  }

  lemma LockMove(db: Db, t: Txn)
    requires Typed(t) && t.pc.LockRows? && t.pc.todo != [] && HasStock(db.store, Org(t), t.pc.todo[0])
    ensures Stepped(db, t) == WithRow(db, t, t.pc.todo[0]).(pc := LockRows(t.pc.todo[1..]))
  {
    assert Wants(db, t) == Some(StockLock(t.pc.todo[0]));
  }

  lemma StepLockNext(db: Db, t: Txn)
    requires Typed(t) && t.pc.LockRows? && t.pc.todo != [] && LockStage(db, t, t.pc.todo) && Ready(db, t)
    ensures StepsWell(db, t)
  {
    var todo := t.pc.todo;
    HoldingOne(db, t, todo[0]);
    LockingOne(db, t, todo);
    LockMove(db, t);
    var locked := WithRow(db, t, todo[0]);
    SameBase(db, t, locked);
    SameLock(db, locked, Stepped(db, t), todo[1..]);
    AtLock(db, Stepped(db, t), todo[1..]);
  }

  lemma SameBase(db: Db, t: Txn, t': Txn)
    requires BaseEffect(db, t, t.effect) && t' == t.(rows := t'.rows, held := t'.held) && t.held <= t'.held
    requires t.call.req.Reserve? || OrderTaken(db, t)
    ensures BaseEffect(db, t', t'.effect)
  {
  }

  // ----- the shortfall loop -----

  lemma CheckMove(db: Db, t: Txn)
    requires Typed(t) && t.pc.CheckStock?
    ensures var short := Shortfalls(t.lines, t.rows);
            Stepped(db, t) == t.(pc := if short == [] then WriteRows(0)
                                       else Complete(Outcome(false, 409, InsufficientStock(short))))
  {
    assert Wants(db, t) == None;
  }

  lemma NoneShort(db: Db, t: Txn, t': Txn)
    requires t.call.req.Reserve? && CheckStage(db, t) && Shortfalls(t.lines, t.rows) == [] && t' == t.(pc := t'.pc)
    ensures WriteStage(db, t', 0)
  {
  }

  lemma SomeShort(db: Db, t: Txn, t': Txn, out: Outcome)
    requires t.call.req.Reserve? && WellFormed(t.call.req) && CheckStage(db, t) && t' == t.(pc := t'.pc)
    requires Shortfalls(t.lines, t.rows) != []
    requires out == Outcome(false, 409, InsufficientStock(Shortfalls(t.lines, t.rows)))
    ensures Claimed(db, t') && Decided(db, t', out)
  {
    RowsAreCurrent(db, t);
  }

  lemma StepCheck(db: Db, t: Txn)
    requires Typed(t) && t.pc.CheckStock? && CheckStage(db, t) && Ready(db, t)
    ensures StepsWell(db, t)
  {
    CheckMove(db, t);
    var short, t' := Shortfalls(t.lines, t.rows), Stepped(db, t);
    if short == [] {
      NoneShort(db, t, t');
      AtWrite(db, t', 0);
    } else {
      SomeShort(db, t, t', t'.pc.out);
      AtComplete(db, t', t'.pc.out);
    }
  }

  // ----- the write loop -----

  function WithWrite(t: Txn, k: nat): Txn
    requires k < |t.lines| && Covers(t.rows, t.lines)
  {
    var l := t.lines[k];
    t.(effect := t.effect.(stock := t.effect.stock[l.productId :=
         Shift(KindOf(t.call.req), t.rows[l.productId].stock, l.quantity)]),
       pc := WriteRows(k + 1))
  }

  lemma WritingOne(db: Db, t: Txn, k: nat)
    requires WriteStage(db, t, k) && k < |t.lines|
    ensures WriteStage(db, WithWrite(t, k), k + 1)
  {
    var t' := WithWrite(t, k);
    assert t.lines[..k + 1][..k] == t.lines[..k];
    assert t.lines[..k + 1][k] == t.lines[k];
    assert t'.effect.(stock := map[]) == t.effect.(stock := map[]);
    assert Claimed(db, t') && LinesKnown(db, t') && RowsCurrent(db, t');
  }

  lemma WriteMove(db: Db, t: Txn, k: nat)
    requires Typed(t) && t.pc == WriteRows(k) && k < |t.lines| && Covers(t.rows, t.lines) && !Throws(t, t.lines[k])
    ensures Stepped(db, t) == WithWrite(t, k)
  {
    assert Wants(db, t) == None;
  }

  lemma StepWriteNext(db: Db, t: Txn, k: nat)
    requires Typed(t) && t.pc == WriteRows(k) && k < |t.lines| && WriteStage(db, t, k) && Ready(db, t)
    requires !Throws(t, t.lines[k])
    ensures StepsWell(db, t)
  {
    WritingOne(db, t, k);
    WriteMove(db, t, k);
    AtWrite(db, Stepped(db, t), k + 1);
  }

  lemma WriteDoneMove(db: Db, t: Txn)
    requires Typed(t) && t.pc == WriteRows(|t.lines|)
    ensures Stepped(db, t) == t.(pc := InsertRows)
  {
    assert Wants(db, t) == None;
  }

  lemma SameWrites(db: Db, t: Txn, t': Txn, k: nat)
    requires WriteStage(db, t, k) && t' == t.(pc := t'.pc)
    ensures WriteStage(db, t', k)
  {
  }

  lemma StepWriteDone(db: Db, t: Txn)
    requires Typed(t) && t.pc == WriteRows(|t.lines|) && WriteStage(db, t, |t.lines|) && Ready(db, t)
    ensures StepsWell(db, t)
  {
    WriteDoneMove(db, t);
    SameWrites(db, t, Stepped(db, t), |t.lines|);
    AtWrite(db, Stepped(db, t), |t.lines|);
  }

  lemma RowsAreCurrent(db: Db, t: Txn)
    requires RowsCurrent(db, t) && t.rows.Keys == ProductsOf(t.lines)
    ensures t.rows == Rows(db.store, Org(t), ProductsOf(t.lines))
  {
  }

  // ----- order, items, movements -----

  function WithReservation(t: Txn): Txn
    requires t.call.req.Reserve?
  {
    t.(effect := t.effect.(orders := map[t.call.freshId := NewOrder(t.call)],
                           items := ItemsFor(Org(t), t.call.freshId, t.lines, t.rows),
                           movements := Movements(Hold, Org(t), t.call.freshId, t.lines)),
       pc := Complete(ReservedOutcome(t.call, t.rows)))
  }

  lemma ReservedMove(db: Db, t: Txn)
    requires Typed(t) && t.pc.InsertRows? && t.call.req.Reserve?
    ensures Stepped(db, t) == WithReservation(t)
  {
    assert Wants(db, t) == None;
  }

  lemma ReservedIsDecided(db: Db, t: Txn)
    requires WellFormed(t.call.req) && t.call.req.Reserve? && WriteStage(db, t, |t.lines|)
    ensures Claimed(db, WithReservation(t)) && Decided(db, WithReservation(t), ReservedOutcome(t.call, t.rows))
  {
    RowsAreCurrent(db, t);
    assert t.lines[..|t.lines|] == t.lines;
    assert WithReservation(t).effect == ReserveDecision(t.call, t.rows).effect;
  }

  function WithMovements(t: Txn): Txn
    requires Transition(t.call.req)
  {
    t.(effect := t.effect.(movements := Movements(KindOf(t.call.req), Org(t), t.call.req.orderId, t.lines)),
       pc := Complete(MovedOutcome(KindOf(t.call.req), t.call.req.orderId, t.call.now)))
  }

  lemma MovedMove(db: Db, t: Txn)
    requires Typed(t) && t.pc.InsertRows? && Transition(t.call.req)
    ensures Stepped(db, t) == WithMovements(t)
  {
    assert Wants(db, t) == None;
  }

  lemma MovedIsDecided(db: Db, t: Txn)
    requires WellFormed(t.call.req) && Transition(t.call.req) && WriteStage(db, t, |t.lines|)
    requires forall l | l in t.lines :: !Uncovered(KindOf(t.call.req), t.rows, l)
    ensures Claimed(db, WithMovements(t))
    ensures Decided(db, WithMovements(t), MovedOutcome(KindOf(t.call.req), t.call.req.orderId, t.call.now))
  {
    RowsAreCurrent(db, t);
    assert t.lines[..|t.lines|] == t.lines;
    var kind, o := KindOf(t.call.req), t.call.req.orderId;
    assert Exec(db.store, t.call) == TransitionExec(kind, db.store, t.call, o);
    assert WithMovements(t).effect == TransitionDecision(kind, t.call, o, db.store.orders[o], t.lines, t.rows).effect;
  }

  lemma StepInsertReserved(db: Db, t: Txn)
    requires Typed(t) && t.pc.InsertRows? && t.call.req.Reserve? && WriteStage(db, t, |t.lines|) && Ready(db, t)
    ensures StepsWell(db, t)
  {
    ReservedMove(db, t);
    ReservedIsDecided(db, t);
    AtComplete(db, WithReservation(t), ReservedOutcome(t.call, t.rows));
  }

  lemma StepInsertMoved(db: Db, t: Txn)
    requires Typed(t) && t.pc.InsertRows? && Transition(t.call.req) && WriteStage(db, t, |t.lines|) && Ready(db, t)
    requires forall l | l in t.lines :: !Uncovered(KindOf(t.call.req), t.rows, l)
    ensures StepsWell(db, t)
  {
    MovedMove(db, t);
    MovedIsDecided(db, t);
    AtComplete(db, WithMovements(t), WithMovements(t).pc.out);
  }

  // ----- adjusting -----

  lemma ReadProductMove(db: Db, t: Txn)
    requires Typed(t) && t.pc.ReadProduct?
    ensures Stepped(db, t) == t.(pc := if HasProduct(db.store, Org(t), t.call.req.productId) then LockRow
                                       else Complete(Outcome(false, 404, ProductNotFound)))
  {
    assert Wants(db, t) == None;
  }

  lemma StepReadProduct(db: Db, t: Txn)
    requires Typed(t) && t.pc.ReadProduct? && OnlyClaimed(db, t) && Ready(db, t)
    ensures StepsWell(db, t)
  {
    ReadProductMove(db, t);
    if HasProduct(db.store, Org(t), t.call.req.productId) {
      AtLockRow(db, Stepped(db, t));
    } else {
      AtComplete(db, Stepped(db, t), Outcome(false, 404, ProductNotFound));
    }
  }

  lemma LockRowMove(db: Db, t: Txn)
    requires Typed(t) && t.pc.LockRow? && HasStock(db.store, Org(t), t.call.req.productId)
    ensures var p := t.call.req.productId;
            Stepped(db, t) == WithRow(db, t.(rows := map[]), p).(pc := Adjusting)
  {
    assert Wants(db, t) == Some(StockLock(t.call.req.productId));
  }

  lemma StepLockRow(db: Db, t: Txn)
    requires Typed(t) && t.pc.LockRow? && LockRowStage(db, t) && Ready(db, t) && StockLinked(db.store)
    ensures StepsWell(db, t)
  {
    assert HasStock(db.store, Org(t), t.call.req.productId);
    LockRowMove(db, t);
    AtAdjusting(db, Stepped(db, t));
  }

  lemma InsertStockMove(db: Db, t: Txn)
    requires Typed(t) && t.pc.InsertStock? && t.call.req.productId in db.store.stock
    ensures Stepped(db, t) == End(t, Aborted)
  {
    assert Wants(db, t) == None;
  }

  lemma StepInsertStock(db: Db, t: Txn)
    requires Typed(t) && t.pc.InsertStock? && InsertStockStage(db, t) && StockLinked(db.store)
    ensures StepsWell(db, t)
  {
    InsertStockMove(db, t);
    AtEnd(db, Stepped(db, t));
  }

  function WithAdjustment(t: Txn): Txn
    requires t.call.req.Adjust?
  {
    var p := t.call.req.productId;
    var d := AdjustDecision(t.call, if p in t.rows then Some(t.rows[p].stock) else None);
    t.(effect := d.effect, pc := Complete(d.outcome))
  }

  lemma AdjustingMove(db: Db, t: Txn)
    requires Typed(t) && t.pc.Adjusting?
    ensures Stepped(db, t) == WithAdjustment(t)
  {
    assert Wants(db, t) == None;
  }

  lemma AdjustingIsDecided(db: Db, t: Txn)
    requires WellFormed(t.call.req) && t.call.req.Adjust? && AdjustingStage(db, t) && StockLinked(db.store)
    ensures Claimed(db, WithAdjustment(t)) && Decided(db, WithAdjustment(t), WithAdjustment(t).pc.out)
  {
    var p := t.call.req.productId;
    assert StockRow(db.store, Org(t), p) == if p in t.rows then Some(t.rows[p].stock) else None;
  }

  lemma StepAdjusting(db: Db, t: Txn)
    requires Typed(t) && t.pc.Adjusting? && AdjustingStage(db, t) && Ready(db, t) && StockLinked(db.store)
    ensures StepsWell(db, t)
  {
    AdjustingMove(db, t);
    AdjustingIsDecided(db, t);
    AtComplete(db, Stepped(db, t), Stepped(db, t).pc.out);
  }

  // ----- creating a product -----

  lemma InsertProductMove(db: Db, t: Txn)
    requires Typed(t) && t.pc.InsertProduct?
    ensures var req := t.call.req;
            Stepped(db, t) == if SkuInUse(db.store, req.org, req.sku)
                              then End(t, Refused(Outcome(false, 409, SkuTaken)))
                              else WithHeld(t.(effect := t.effect.(products := CreateDecision(t.call).effect.products),
                                               pc := InsertInitial), SkuLock(req.org, req.sku))
  {
  }

  lemma StepInsertProduct(db: Db, t: Txn)
    requires Typed(t) && t.pc.InsertProduct? && Untouched(t) && Ready(db, t)
    ensures StepsWell(db, t)
  {
    InsertProductMove(db, t);
    if SkuInUse(db.store, Org(t), t.call.req.sku) {
      AtEnd(db, Stepped(db, t));
    } else {
      AtInitial(db, Stepped(db, t));
    }
  }

  lemma InsertInitialMove(db: Db, t: Txn)
    requires Typed(t) && t.pc.InsertInitial?
    ensures Stepped(db, t) == WithHeld(t.(effect := CreateDecision(t.call).effect,
                                          pc := Commit(CreateDecision(t.call).outcome)), StockLock(t.call.freshId))
  {
    assert Wants(db, t) == Some(StockLock(t.call.freshId));
  }

  lemma StepInsertInitial(db: Db, t: Txn)
    requires Typed(t) && t.pc.InsertInitial? && InitialStage(db, t) && Ready(db, t)
    ensures StepsWell(db, t)
  {
    InsertInitialMove(db, t);
    AtCommit(db, Stepped(db, t), CreateDecision(t.call).outcome);
  }

  // ----- every statement -----

  predicate LinesPc(pc: Pc) {
    pc.FindRows? || pc.LockRows? || pc.CheckStock? || pc.WriteRows? || pc.InsertRows?
  }

  predicate OrderPc(pc: Pc) {
    pc.TakeOrder? || pc.ReadStatus? || pc.ReadItems?
  }

  predicate OpeningPc(pc: Pc) {
    pc.Precheck? || pc.Claim? || pc.Resolve? || pc.Complete?
  }

  lemma StepOpening(db: Db, t: Txn)
    requires TxnOk(db, t) && OpeningPc(t.pc)
    ensures StepsWell(db, t)
  {
    if t.pc.Precheck? {
      AtPrecheck(db, t);
      StepPrecheck(db, t);
    } else if t.pc.Claim? {
      AtClaim(db, t);
      StepClaim(db, t);
    } else if t.pc.Resolve? {
      AtResolve(db, t);
      StepResolve(db, t);
    } else {
      AtComplete(db, t, t.pc.out);
      StepComplete(db, t);
    }
  }

  lemma StepOrder(db: Db, t: Txn)
    requires TxnOk(db, t) && OrderPc(t.pc)
    ensures StepsWell(db, t)
  {
    if t.pc.TakeOrder? {
      AtOnlyClaimed(db, t);
      StepTakeOrder(db, t);
    } else if t.pc.ReadStatus? {
      AtOnlyClaimed(db, t);
      StepReadStatus(db, t);
    } else {
      AtItems(db, t);
      StepReadItems(db, t);
    }
  }

  lemma StepLocks(db: Db, t: Txn)
    requires TxnOk(db, t) && StockLinked(db.store) && OrderCovered(db, t) && (t.pc.FindRows? || t.pc.LockRows?)
    ensures StepsWell(db, t)
  {
    if t.pc.FindRows? {
      AtFind(db, t);
      LinesHaveStock(db, t);
      StepFind(db, t);
    } else {
      AtLock(db, t, t.pc.todo);
      if t.pc.todo == [] { StepLockDone(db, t); } else { StepLockNext(db, t); }
    }
  }

  lemma StepWrites(db: Db, t: Txn)
    requires TxnOk(db, t) && OrderCovered(db, t) && (t.pc.WriteRows? || t.pc.InsertRows?)
    ensures StepsWell(db, t)
  {
    var k := if t.pc.WriteRows? then t.pc.k else |t.lines|;
    AtWrite(db, t, k);
    RowsAreCurrent(db, t);
    if t.pc.InsertRows? && t.call.req.Reserve? {
      StepInsertReserved(db, t);
    } else if t.pc.InsertRows? {
      StepInsertMoved(db, t);
    } else if k == |t.lines| {
      StepWriteDone(db, t);
    } else {
      assert t.lines[k] in t.lines;
      StepWriteNext(db, t, k);
    }
  }

  lemma StepLines(db: Db, t: Txn)
    requires TxnOk(db, t) && StockLinked(db.store) && OrderCovered(db, t) && LinesPc(t.pc)
    ensures StepsWell(db, t)
  {
    if t.pc.CheckStock? {
      AtCheck(db, t);
      StepCheck(db, t);
    } else if t.pc.WriteRows? || t.pc.InsertRows? {
      StepWrites(db, t);
    } else {
      StepLocks(db, t);
    }
  }

  lemma StepAdjust(db: Db, t: Txn)
    requires TxnOk(db, t) && StockLinked(db.store)
    requires t.pc.ReadProduct? || t.pc.LockRow? || t.pc.InsertStock? || t.pc.Adjusting?
    ensures StepsWell(db, t)
  {
    if t.pc.ReadProduct? {
      AtOnlyClaimed(db, t);
      StepReadProduct(db, t);
    } else if t.pc.LockRow? {
      AtLockRow(db, t);
      StepLockRow(db, t);
    } else if t.pc.InsertStock? {
      AtInsertStock(db, t);
      StepInsertStock(db, t);
    } else {
      AtAdjusting(db, t);
      StepAdjusting(db, t);
    }
  }

  lemma StepCreate(db: Db, t: Txn)
    requires TxnOk(db, t) && (t.pc.InsertProduct? || t.pc.InsertInitial?)
    ensures StepsWell(db, t)
  {
    if t.pc.InsertProduct? {
      AtInsertProduct(db, t);
      StepInsertProduct(db, t);
    } else {
      AtInitial(db, t);
      StepInsertInitial(db, t);
    }
  }

  /** Every statement but the commit keeps what its transaction knows, and never throws. */
  lemma StepKeepsTxnOk(db: Db, t: Txn)
    requires TxnOk(db, t) && !t.pc.Commit? && !Finished(t.pc)
    requires StockLinked(db.store) && OrderCovered(db, t)
    ensures StepsWell(db, t)
  {
    if LinesPc(t.pc) {
      StepLines(db, t);
    } else if OrderPc(t.pc) {
      StepOrder(db, t);
    } else if OpeningPc(t.pc) {
      StepOpening(db, t);
    } else if t.pc.InsertProduct? || t.pc.InsertInitial? {
      StepCreate(db, t);
    } else {
      StepAdjust(db, t);
    }
  }
}
