/** A commit changes only what its transaction has locked, so it leaves every other
    transaction's knowledge true. */
module TxnFrame {
  import opened Tables
  import opened Engine
  import opened WriteLoop
  import opened StoreInvariant
  import opened Fingerprint
  import opened Idempotency
  import opened Machine
  import opened TxnInvariant

  // ----- the footprint of a commit -----

  ghost predicate StockFrame(s: Store, s': Store, held: set<Resource>) {
    && (forall p | p in s'.stock && StockLock(p) !in held :: p in s.stock && s'.stock[p] == s.stock[p])
    && (forall p | p in s.stock :: p in s'.stock && s'.stock[p].org == s.stock[p].org)
  }

  ghost predicate ProductFrame(s: Store, s': Store, held: set<Resource>, id: Uuid) {
    && (forall p | p in s.products :: p in s'.products && s'.products[p] == s.products[p])
    && (forall p | p in s'.products && p !in s.products ::
          p == id && SkuLock(s'.products[p].org, s'.products[p].sku) in held)
  }

  ghost predicate OrderFrame(s: Store, s': Store, held: set<Resource>, id: Uuid) {
    && (forall o | o in s'.orders && o != id && OrderLock(o) !in held :: o in s.orders && s'.orders[o] == s.orders[o])
    && s.orders.Keys <= s'.orders.Keys <= s.orders.Keys + {id}
  }

  ghost predicate ItemFrame(s: Store, s': Store, id: Uuid) {
    forall o | o != id :: LinesOf(s'.items, o) == LinesOf(s.items, o)
  }

  ghost predicate KeyFrame(db: Db, db': Db, held: set<Resource>) {
    && (forall k | k in db'.keys && k !in db.keys :: KeyLock(k) in held)
    && (forall k | k in db.keys && KeyLock(k) !in held :: k in db'.keys && db'.keys[k] == db.keys[k])
    && db.keys.Keys <= db'.keys.Keys
  }

  ghost predicate Frame(db: Db, db': Db, held: set<Resource>, id: Uuid) {
    && StockFrame(db.store, db'.store, held) && ProductFrame(db.store, db'.store, held, id)
    && OrderFrame(db.store, db'.store, held, id) && ItemFrame(db.store, db'.store, id)
    && KeyFrame(db, db', held)
  }

  lemma {:induction false} WritesOrg(kind: Kind, rows: map<Uuid, Row>, lines: seq<Line>, p: Uuid)
    requires Covers(rows, lines) && p in Writes(kind, rows, lines)
    ensures p in rows && Writes(kind, rows, lines)[p].org == rows[p].stock.org
  {
    var init, l := lines[..|lines| - 1], lines[|lines| - 1];
    assert l in lines;
    if p != l.productId {
      WritesOrg(kind, rows, init, p);
    }
  }

  /** The transaction is about to commit a success, which is what its request decides. */
  ghost predicate Succeeds(db: Db, t: Txn) {
    && WellFormed(t.call.req) && t.pc.Commit? && t.pc.out.ok && Grounded(db, t)
    && Exec(db.store, t.call) == Decision(t.effect, t.pc.out)
  }

  lemma LinesFrame(db: Db, t: Txn, kind: Kind, lines: seq<Line>, e: Effect)
    requires RowsCurrent(db, t) && t.rows.Keys == ProductsOf(lines) && Covers(t.rows, lines)
    requires e.stock == Writes(kind, t.rows, lines) && e.products == map[]
    ensures StockFrame(db.store, Apply(db.store, e), t.held)
    ensures ProductFrame(db.store, Apply(db.store, e), t.held, t.call.freshId)
  {
    var s' := Apply(db.store, e);
    WritesKeys(kind, t.rows, lines);
    forall p | p in db.store.stock ensures s'.stock[p].org == db.store.stock[p].org {
      if p in e.stock {
        WritesOrg(kind, t.rows, lines, p);
      }
    }
  }

  lemma ReserveFrame(db: Db, t: Txn)
    requires t.call.req.Reserve? && Succeeds(db, t) && Fresh(db.store, t.call.freshId)
    ensures StockFrame(db.store, Apply(db.store, t.effect), t.held)
    ensures ProductFrame(db.store, Apply(db.store, t.effect), t.held, t.call.freshId)
    ensures OrderFrame(db.store, Apply(db.store, t.effect), t.held, t.call.freshId)
    ensures ItemFrame(db.store, Apply(db.store, t.effect), t.call.freshId)
  {
    RowsAreCurrent(db, t);
    LinesFrame(db, t, Hold, t.lines, t.effect);
    var id := t.call.freshId;
    var added := ItemsFor(Org(t), id, t.lines, t.rows);
    assert t.effect.items == added;
    forall o | o != id ensures LinesOf(db.store.items + added, o) == LinesOf(db.store.items, o) {
      LinesOfAppend(db.store.items, added, o);
      LinesOfAbsent(added, o);
    }
  }

  lemma MoveFrame(db: Db, t: Txn)
    requires Transition(t.call.req) && Succeeds(db, t)
    ensures StockFrame(db.store, Apply(db.store, t.effect), t.held)
    ensures ProductFrame(db.store, Apply(db.store, t.effect), t.held, t.call.freshId)
    ensures OrderFrame(db.store, Apply(db.store, t.effect), t.held, t.call.freshId)
    ensures ItemFrame(db.store, Apply(db.store, t.effect), t.call.freshId)
  {
    RowsAreCurrent(db, t);
    var kind, o := KindOf(t.call.req), t.call.req.orderId;
    assert Decision(t.effect, t.pc.out) == TransitionDecision(kind, t.call, o, db.store.orders[o], t.lines, t.rows);
    LinesFrame(db, t, kind, t.lines, t.effect);
    assert Apply(db.store, t.effect).items == db.store.items;
  }

  lemma AdjustFrame(db: Db, t: Txn)
    requires t.call.req.Adjust? && Succeeds(db, t) && StockLinked(db.store)
    ensures StockFrame(db.store, Apply(db.store, t.effect), t.held)
    ensures ProductFrame(db.store, Apply(db.store, t.effect), t.held, t.call.freshId)
    ensures OrderFrame(db.store, Apply(db.store, t.effect), t.held, t.call.freshId)
    ensures ItemFrame(db.store, Apply(db.store, t.effect), t.call.freshId)
  {
    assert t.effect.stock.Keys == {t.call.req.productId};
    assert Apply(db.store, t.effect).items == db.store.items;
  }

  lemma CreateFrame(db: Db, t: Txn)
    requires t.call.req.CreateProduct? && Succeeds(db, t) && StockLinked(db.store) && Fresh(db.store, t.call.freshId)
    ensures StockFrame(db.store, Apply(db.store, t.effect), t.held)
    ensures ProductFrame(db.store, Apply(db.store, t.effect), t.held, t.call.freshId)
    ensures OrderFrame(db.store, Apply(db.store, t.effect), t.held, t.call.freshId)
    ensures ItemFrame(db.store, Apply(db.store, t.effect), t.call.freshId)
  {
    assert t.effect.stock.Keys == {t.call.freshId} == t.effect.products.Keys;
    assert Apply(db.store, t.effect).items == db.store.items;
  }

  lemma CommitFacts(db: Db, t: Txn)
    requires TxnOk(db, t) && t.pc.Commit?
    ensures Decided(db, t, t.pc.out) && WellFormed(t.call.req) && Fresh(db.store, t.call.freshId)
    ensures Guarded(t.call.req) ==>
      KeyLock(KeyOf(t.call.req, t.key)) in t.held && KeyOf(t.call.req, t.key) !in db.keys
      && t.keyRow == Some(CompletedRow(ClaimedRow(FingerprintOf(t.call.req)), t.pc.out))
    ensures !Guarded(t.call.req) ==> t.keyRow.None?
    ensures Prechecked(db, t)
  {
    AtCommit(db, t, t.pc.out);
  }

  /** A commit changes only rows its transaction holds, or rows with its own new id. */
  lemma CommitFrame(db: Db, t: Txn)
    requires StockLinked(db.store) && TxnOk(db, t) && t.pc.Commit?
    ensures Frame(db, CommitDb(db, t), t.held, t.call.freshId)
  {
    CommitFacts(db, t);
    if !t.pc.out.ok {
      ApplyNothing(db.store);
    } else {
      match t.call.req
      case Reserve(_, _, _) => ReserveFrame(db, t);
      case Release(_, _) => MoveFrame(db, t);
      case Fulfill(_, _) => MoveFrame(db, t);
      case Adjust(_, _, _, _) => AdjustFrame(db, t);
      case CreateProduct(_, _, _, _) => CreateFrame(db, t);
    }
  }

  lemma CommitDecision(db: Db, t: Txn)
    requires TxnOk(db, t) && t.pc.Commit?
    ensures Admissible(db.store, t.call) || !t.pc.out.ok
    ensures t.pc.out.ok ==> Exec(db.store, t.call) == Decision(t.effect, t.pc.out)
    ensures !t.pc.out.ok ==> t.effect == NO_EFFECT
    ensures t.pc.out.ok <==> t.pc.out.status < 400
  {
    CommitFacts(db, t);
  }

  lemma DecidedKeepsInv(s: Store, t: Txn, out: Outcome)
    requires Inv(s) && WellFormed(t.call.req)
    requires if out.ok then Admissible(s, t.call) && Exec(s, t.call) == Decision(t.effect, out)
             else t.effect == NO_EFFECT
    ensures Inv(Apply(s, t.effect))
  {
    if out.ok {
      ExecKeepsInv(s, t.call);
    } else {
      ApplyNothing(s);
    }
  }

  lemma CommitKeepsCompleted(db: Db, t: Txn)
    requires KeysCompleted(db.keys) && TxnOk(db, t) && t.pc.Commit?
    ensures KeysCompleted(CommitDb(db, t).keys)
  {
    CommitFacts(db, t);
  }

  /** Every commit leaves the database sound. */
  lemma CommitKeepsDb(db: Db, t: Txn)
    requires DbOk(db) && TxnOk(db, t) && t.pc.Commit?
    ensures DbOk(CommitDb(db, t))
  {
    CommitFacts(db, t);
    CommitDecision(db, t);
    DecidedKeepsInv(db.store, t, t.pc.out);
    CommitKeepsCompleted(db, t);
  }

  // ----- what another transaction's commit leaves true -----

  /** `db'` is `db` after the commit of some transaction other than `t`. */
  ghost predicate OtherCommit(db: Db, db': Db, t: Txn, held: set<Resource>, id: Uuid) {
    Frame(db, db', held, id) && held !! t.held && id != t.call.freshId && StockLinked(db.store) && Fresh(db.store, id)
  }

  lemma StableClaim(db: Db, db': Db, t: Txn, held: set<Resource>, id: Uuid)
    requires OtherCommit(db, db', t, held, id) && Claimed(db, t)
    ensures Claimed(db', t)
  {
  }

  lemma StableOrder(db: Db, db': Db, t: Txn, held: set<Resource>, id: Uuid)
    requires OtherCommit(db, db', t, held, id) && OrderTaken(db, t)
    ensures OrderTaken(db', t)
    ensures db'.store.orders[t.call.req.orderId] == db.store.orders[t.call.req.orderId]
    ensures OrderLines(db'.store.items, t.call.req.orderId) == OrderLines(db.store.items, t.call.req.orderId)
  {
    assert OrderLock(t.call.req.orderId) !in held;
  }

  lemma StableLines(db: Db, db': Db, t: Txn, held: set<Resource>, id: Uuid)
    requires OtherCommit(db, db', t, held, id) && LinesKnown(db, t)
    ensures LinesKnown(db', t)
  {
    if OrderTaken(db, t) {
      StableOrder(db, db', t, held, id);
    }
  }

  lemma StableRow(db: Db, db': Db, t: Txn, held: set<Resource>, id: Uuid, org: Uuid, p: Uuid)
    requires OtherCommit(db, db', t, held, id) && HasStock(db.store, org, p)
    ensures HasStock(db'.store, org, p)
    ensures StockLock(p) in t.held ==>
      db'.store.stock[p] == db.store.stock[p] && PriceOf(db'.store, p) == PriceOf(db.store, p)
  {
    assert p in db.store.products;
  }

  lemma StableRows(db: Db, db': Db, t: Txn, held: set<Resource>, id: Uuid)
    requires OtherCommit(db, db', t, held, id) && RowsCurrent(db, t)
    ensures RowsCurrent(db', t)
  {
    forall p | p in t.rows
      ensures HasStock(db'.store, Org(t), p) && t.rows[p] == Row(db'.store.stock[p], PriceOf(db'.store, p))
    {
      StableRow(db, db', t, held, id, Org(t), p);
    }
  }

  lemma StableStage(db: Db, db': Db, t: Txn, held: set<Resource>, id: Uuid)
    requires OtherCommit(db, db', t, held, id) && LinesStage(db, t)
    ensures LinesStage(db', t)
  {
    StableClaim(db, db', t, held, id);
    StableLines(db, db', t, held, id);
    StableRows(db, db', t, held, id);
  }

  lemma StableBase(db: Db, db': Db, t: Txn, held: set<Resource>, id: Uuid, e: Effect)
    requires OtherCommit(db, db', t, held, id) && BaseEffect(db, t, e) && (t.call.req.Reserve? || OrderTaken(db, t))
    ensures BaseEffect(db', t, e)
  {
    if OrderTaken(db, t) {
      StableOrder(db, db', t, held, id);
    }
  }

  lemma StableToLock(db: Db, db': Db, t: Txn, held: set<Resource>, id: Uuid, todo: seq<Uuid>)
    requires OtherCommit(db, db', t, held, id) && ToLock(db, t, todo)
    ensures ToLock(db', t, todo)
  {
    forall j | 0 <= j < |todo| ensures HasStock(db'.store, Org(t), todo[j]) {
      StableRow(db, db', t, held, id, Org(t), todo[j]);
    }
  }

  lemma StableAdjust(db: Db, db': Db, t: Txn, held: set<Resource>, id: Uuid)
    requires OtherCommit(db, db', t, held, id) && t.call.req.Adjust? && AdjustGround(db, t)
    ensures AdjustGround(db', t)
    ensures StockRow(db'.store, Org(t), t.call.req.productId) == StockRow(db.store, Org(t), t.call.req.productId)
  {
    StableRows(db, db', t, held, id);
    var p := t.call.req.productId;
    assert StockLock(p) !in held;
  }

  lemma StableSku(db: Db, db': Db, t: Txn, held: set<Resource>, id: Uuid, org: Uuid, sku: Text)
    requires OtherCommit(db, db', t, held, id) && SkuLock(org, sku) in t.held && !SkuInUse(db.store, org, sku)
    ensures !SkuInUse(db'.store, org, sku)
  {
    assert SkuLock(org, sku) !in held;
  }

  lemma StableReserve(db: Db, db': Db, t: Txn, held: set<Resource>, id: Uuid, out: Outcome)
    requires OtherCommit(db, db', t, held, id) && t.call.req.Reserve? && Decided(db, t, out)
    ensures Decided(db', t, out)
  {
    StableLines(db, db', t, held, id);
    StableRows(db, db', t, held, id);
    RowsAreCurrent(db, t);
    RowsAreCurrent(db', t);
  }

  lemma StableMove(db: Db, db': Db, t: Txn, held: set<Resource>, id: Uuid, out: Outcome)
    requires OtherCommit(db, db', t, held, id) && Transition(t.call.req) && Decided(db, t, out)
    ensures Decided(db', t, out)
  {
    if out.ok {
      StableOrder(db, db', t, held, id);
      StableLines(db, db', t, held, id);
      StableRows(db, db', t, held, id);
      RowsAreCurrent(db, t);
      RowsAreCurrent(db', t);
      var kind, o := KindOf(t.call.req), t.call.req.orderId;
      assert TransitionExec(kind, db.store, t.call, o) == TransitionExec(kind, db'.store, t.call, o);
    }
  }

  lemma StableDecided(db: Db, db': Db, t: Txn, held: set<Resource>, id: Uuid, out: Outcome)
    requires OtherCommit(db, db', t, held, id) && Decided(db, t, out)
    ensures Decided(db', t, out)
  {
    match t.call.req
    case Reserve(_, _, _) => StableReserve(db, db', t, held, id, out);
    case Release(_, _) => StableMove(db, db', t, held, id, out);
    case Fulfill(_, _) => StableMove(db, db', t, held, id, out);
    case Adjust(_, _, _, _) =>
      if Firm(t.call.req, out) { StableAdjust(db, db', t, held, id); }
    case CreateProduct(org, sku, _, _) =>
      if out.ok { StableSku(db, db', t, held, id, org, sku); }
  }

  lemma StableFresh(db: Db, db': Db, t: Txn, held: set<Resource>, id: Uuid)
    requires OtherCommit(db, db', t, held, id) && Fresh(db.store, t.call.freshId)
    ensures Fresh(db'.store, t.call.freshId)
  {
  }

  lemma StablePrechecked(db: Db, db': Db, t: Txn, held: set<Resource>, id: Uuid)
    requires ProductFrame(db.store, db'.store, held, id) && Prechecked(db, t)
    ensures Prechecked(db', t)
  {
  }

  lemma StableReady(db: Db, db': Db, t: Txn, held: set<Resource>, id: Uuid)
    requires OtherCommit(db, db', t, held, id) && Ready(db, t)
    ensures Ready(db', t)
  {
    StableFresh(db, db', t, held, id);
    StablePrechecked(db, db', t, held, id);
  }

  lemma StableLocksTxn(db: Db, db': Db, t: Txn, held: set<Resource>, id: Uuid)
    requires OtherCommit(db, db', t, held, id) && TxnOk(db, t) && (t.pc.FindRows? || t.pc.LockRows? || t.pc.CheckStock?)
    ensures TxnOk(db', t)
  {
    if t.pc.FindRows? {
      AtFind(db, t);
      AtFind(db', t);
    } else if t.pc.CheckStock? {
      AtCheck(db, t);
      AtCheck(db', t);
    } else {
      AtLock(db, t, t.pc.todo);
      AtLock(db', t, t.pc.todo);
      StableToLock(db, db', t, held, id, t.pc.todo);
    }
    StableReady(db, db', t, held, id);
    StableStage(db, db', t, held, id);
    StableBase(db, db', t, held, id, t.effect);
  }

  lemma StableWritesTxn(db: Db, db': Db, t: Txn, held: set<Resource>, id: Uuid)
    requires OtherCommit(db, db', t, held, id) && TxnOk(db, t) && (t.pc.WriteRows? || t.pc.InsertRows?)
    ensures TxnOk(db', t)
  {
    var k := if t.pc.WriteRows? then t.pc.k else |t.lines|;
    AtWrite(db, t, k);
    AtWrite(db', t, k);
    StableReady(db, db', t, held, id);
    StableStage(db, db', t, held, id);
    StableBase(db, db', t, held, id, t.effect.(stock := map[]));
  }

  lemma StableOrderTxn(db: Db, db': Db, t: Txn, held: set<Resource>, id: Uuid)
    requires OtherCommit(db, db', t, held, id) && TxnOk(db, t) && OrderPc(t.pc)
    ensures TxnOk(db', t)
  {
    if t.pc.ReadItems? {
      AtItems(db, t);
      AtItems(db', t);
      StableOrder(db, db', t, held, id);
      StableBase(db, db', t, held, id, t.effect);
    } else {
      AtOnlyClaimed(db, t);
      AtOnlyClaimed(db', t);
    }
    StableReady(db, db', t, held, id);
    StableClaim(db, db', t, held, id);
  }

  lemma StableAdjusting(db: Db, db': Db, t: Txn, held: set<Resource>, id: Uuid)
    requires OtherCommit(db, db', t, held, id) && t.call.req.Adjust? && AdjustingStage(db, t)
    ensures AdjustingStage(db', t)
  {
    StableClaim(db, db', t, held, id);
    StableAdjust(db, db', t, held, id);
  }

  predicate AdjustPc(pc: Pc) {
    pc.ReadProduct? || pc.LockRow? || pc.InsertStock? || pc.Adjusting?
  }

  lemma StableAdjustingTxn(db: Db, db': Db, t: Txn, held: set<Resource>, id: Uuid)
    requires OtherCommit(db, db', t, held, id) && TxnOk(db, t) && t.pc.Adjusting?
    ensures TxnOk(db', t)
  {
    AtAdjusting(db, t);
    AtAdjusting(db', t);
    StableAdjusting(db, db', t, held, id);
    StableReady(db, db', t, held, id);
  }

  lemma StableAdjustTxn(db: Db, db': Db, t: Txn, held: set<Resource>, id: Uuid)
    requires OtherCommit(db, db', t, held, id) && TxnOk(db, t)
    requires t.pc.ReadProduct? || t.pc.LockRow? || t.pc.InsertStock?
    ensures TxnOk(db', t)
  {
    if t.pc.ReadProduct? {
      AtOnlyClaimed(db, t);
      AtOnlyClaimed(db', t);
    } else if t.pc.LockRow? {
      AtLockRow(db, t);
      AtLockRow(db', t);
    } else {
      AtInsertStock(db, t);
      AtInsertStock(db', t);
    }
    StableReady(db, db', t, held, id);
    StableClaim(db, db', t, held, id);
  }

  lemma StableDecidedTxn(db: Db, db': Db, t: Txn, held: set<Resource>, id: Uuid)
    requires OtherCommit(db, db', t, held, id) && TxnOk(db, t) && (t.pc.Complete? || t.pc.Commit?)
    ensures TxnOk(db', t)
  {
    var out := t.pc.out;
    if t.pc.Complete? {
      AtComplete(db, t, out);
      AtComplete(db', t, out);
      StableClaim(db, db', t, held, id);
    } else {
      AtCommit(db, t, out);
      AtCommit(db', t, out);
    }
    StableReady(db, db', t, held, id);
    StableDecided(db, db', t, held, id, out);
  }

  lemma StableOtherTxn(db: Db, db': Db, t: Txn, held: set<Resource>, id: Uuid)
    requires OtherCommit(db, db', t, held, id) && TxnOk(db, t)
    requires Finished(t.pc) || t.pc.Precheck? || t.pc.Claim? || t.pc.InsertInitial?
             || t.pc.InsertProduct? || t.pc.Resolve?
    ensures TxnOk(db', t)
  {
    if Prechecked(db, t) {
      StablePrechecked(db, db', t, held, id);
    }
    if Finished(t.pc) {
      AtEnd(db, t);
      AtEnd(db', t);
    } else {
      StableFresh(db, db', t, held, id);
      match t.pc
      case Precheck =>
        AtPrecheck(db, t);
        AtPrecheck(db', t);
      case Claim =>
        AtClaim(db, t);
        AtClaim(db', t);
        if t.call.req.Reserve? { StableLines(db, db', t, held, id); }
      case InsertInitial =>
        AtInitial(db, t);
        AtInitial(db', t);
        StableSku(db, db', t, held, id, t.call.req.org, t.call.req.sku);
      case InsertProduct =>
        AtInsertProduct(db, t);
        AtInsertProduct(db', t);
      case Resolve =>
        AtResolve(db, t);
        AtResolve(db', t);
    }
  }

  lemma StableLinesTxn(db: Db, db': Db, t: Txn, held: set<Resource>, id: Uuid)
    requires OtherCommit(db, db', t, held, id) && TxnOk(db, t) && LinesPc(t.pc)
    ensures TxnOk(db', t)
  {
    if t.pc.WriteRows? || t.pc.InsertRows? {
      StableWritesTxn(db, db', t, held, id);
    } else {
      StableLocksTxn(db, db', t, held, id);
    }
  }

  lemma StableAnyAdjustTxn(db: Db, db': Db, t: Txn, held: set<Resource>, id: Uuid)
    requires OtherCommit(db, db', t, held, id) && TxnOk(db, t) && AdjustPc(t.pc)
    ensures TxnOk(db', t)
  {
    if t.pc.Adjusting? {
      StableAdjustingTxn(db, db', t, held, id);
    } else {
      StableAdjustTxn(db, db', t, held, id);
    }
  }

  /** Another transaction's commit leaves everything this one relies on true. */
  lemma StableTxn(db: Db, db': Db, t: Txn, held: set<Resource>, id: Uuid)
    requires OtherCommit(db, db', t, held, id) && TxnOk(db, t)
    ensures TxnOk(db', t)
  {
    if LinesPc(t.pc) {
      StableLinesTxn(db, db', t, held, id);
    } else if OrderPc(t.pc) {
      StableOrderTxn(db, db', t, held, id);
    } else if AdjustPc(t.pc) {
      StableAnyAdjustTxn(db, db', t, held, id);
    } else if t.pc.Complete? || t.pc.Commit? {
      StableDecidedTxn(db, db', t, held, id);
    } else {
      StableOtherTxn(db, db', t, held, id);
    }
  }

  /** A committed transaction leaves nothing but its answer. */
  lemma EndedTxn(db: Db, t: Txn)
    requires StockLinked(db.store) && TxnOk(db, t) && t.pc.Commit?
    ensures TxnOk(CommitDb(db, t), End(t, Committed(t.pc.out)))
  {
    CommitFacts(db, t);
    CommitFrame(db, t);
    StablePrechecked(db, CommitDb(db, t), t, t.held, t.call.freshId);
    AtEnd(CommitDb(db, t), End(t, Committed(t.pc.out)));
  }

  /** The only key a transaction ever holds is its own. */
  ghost predicate OwnKey(t: Txn) {
    forall id | KeyLock(id) in t.held :: Guarded(t.call.req) && id == KeyOf(t.call.req, t.key)
  }

  /** A held key is not in the table yet. */
  lemma HeldKeyUnused(db: Db, t: Txn, id: KeyId)
    requires TxnOk(db, t) && OwnKey(t) && !Finished(t.pc) && KeyLock(id) in t.held
    ensures id !in db.keys
  {
  }
}
