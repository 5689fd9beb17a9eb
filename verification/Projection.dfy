/** Non-interference over whole runs: erase every other organisation's requests and steps from a
    run, and what is left is a run with the same rows, keys and answers for this organisation. */
module Projection {
  import opened Tables
  import opened Engine
  import opened StoreInvariant
  import opened Fingerprint
  import opened Idempotency
  import opened Machine
  import opened TxnInvariant
  import opened TxnFrame
  import opened MachineSafety
  import opened Tenancy

  // ----- a statement sees its organisation's slice only -----

  /** The statement needs and does the same on both databases. */
  ghost predicate SameStep(db: Db, db': Db, t: Txn)
    requires Typed(t) && !t.pc.Commit? && !Finished(t.pc)
  {
    Wants(db', t) == Wants(db, t) && Stepped(db', t) == Stepped(db, t)
  }

  predicate Owns(s: Store, org: Uuid, o: Uuid) {
    o in s.orders && s.orders[o].org == org
  }

  /** What `org` can tell apart of the two stores: nothing. */
  ghost predicate Alike(s: Store, s': Store, org: Uuid) {
    && (forall p :: HasProduct(s', org, p) == HasProduct(s, org, p))
    && (forall p | HasProduct(s, org, p) :: s'.products[p] == s.products[p])
    && (forall p :: HasStock(s', org, p) == HasStock(s, org, p))
    && (forall p | HasStock(s, org, p) :: s'.stock[p] == s.stock[p] && PriceOf(s', p) == PriceOf(s, p))
    && (forall o :: Owns(s', org, o) == Owns(s, org, o))
    && (forall o | Owns(s, org, o) :: s'.orders[o] == s.orders[o] && LinesOf(s'.items, o) == LinesOf(s.items, o))
  }

  lemma SliceIsAlike(s: Store, org: Uuid)
    requires StockLinked(s) && ItemsLinked(s)
    ensures Alike(s, Slice(s, org), org)
  {
    forall o | Owns(s, org, o) ensures LinesOf(Slice(s, org).items, o) == LinesOf(s.items, o) {
      OwnItems(s, org, o);
      LinesInSlice(s.items, org, o);
    }
  }

  lemma SameSkus(s: Store, s': Store, org: Uuid, sku: Text)
    requires Alike(s, s', org)
    ensures SkuInUse(s', org, sku) == SkuInUse(s, org, sku)
  {
    assert forall p | p in s.products && s.products[p].org == org :: HasProduct(s', org, p);
    assert forall p | p in s'.products && s'.products[p].org == org :: HasProduct(s, org, p);
  }

  /** What the claim and the resolution read. */
  ghost predicate SameKey(db: Db, db': Db, id: KeyId) {
    GetKey(db'.keys, id) == GetKey(db.keys, id) && (id in db'.keys <==> id in db.keys)
  }

  lemma SameOpening(db: Db, db': Db, t: Txn)
    requires Typed(t) && (t.pc.Precheck? || t.pc.Claim? || t.pc.Resolve?)
    requires Alike(db.store, db'.store, Org(t)) && SameKey(db, db', KeyOf(t.call.req, t.key))
    ensures SameStep(db, db', t)
  {
  }

  lemma SameOrder(db: Db, db': Db, t: Txn)
    requires Typed(t) && (t.pc.TakeOrder? || t.pc.ReadStatus?) && Alike(db.store, db'.store, Org(t))
    ensures SameStep(db, db', t)
  {
    var o := t.call.req.orderId;
    assert Owns(db'.store, Org(t), o) == Owns(db.store, Org(t), o);
  }

  lemma SameItems(db: Db, db': Db, t: Txn)
    requires Typed(t) && t.pc.ReadItems? && OrderTaken(db, t) && Alike(db.store, db'.store, Org(t))
    ensures SameStep(db, db', t)
  {
  }

  lemma SameFind(db: Db, db': Db, t: Txn)
    requires Typed(t) && t.pc.FindRows? && Alike(db.store, db'.store, Org(t))
    ensures SameStep(db, db', t)
  {
    assert Found(db'.store, Org(t), t.lines) == Found(db.store, Org(t), t.lines);
  }

  lemma SameLock(db: Db, db': Db, t: Txn)
    requires Typed(t) && t.pc.LockRows? && Alike(db.store, db'.store, Org(t))
    ensures SameStep(db, db', t)
  {
  }

  lemma SameAdjusting(db: Db, db': Db, t: Txn)
    requires Typed(t) && (t.pc.ReadProduct? || t.pc.LockRow?) && Alike(db.store, db'.store, Org(t))
    ensures SameStep(db, db', t)
  {
  }

  lemma SameInsert(db: Db, db': Db, t: Txn)
    requires Typed(t) && t.pc.InsertProduct? && Alike(db.store, db'.store, Org(t))
    ensures SameStep(db, db', t)
  {
    SameSkus(db.store, db'.store, Org(t), t.call.req.sku);
  }

  lemma SameWithin(db: Db, db': Db, t: Txn)
    requires Typed(t)
    requires t.pc.CheckStock? || t.pc.WriteRows? || t.pc.InsertRows?
             || t.pc.Adjusting? || t.pc.InsertInitial? || t.pc.Complete?
    ensures SameStep(db, db', t)
  {
  }

  lemma KeyInSlice(db: Db, id: KeyId)
    ensures SameKey(db, DbSlice(db, id.org), id)
  {
  }

  /** Every statement of a transaction does on its organisation's slice what it does on the whole
      database. */
  lemma StepInSlice(db: Db, t: Txn)
    requires DbOk(db) && TxnOk(db, t) && !t.pc.Commit? && !Finished(t.pc) && !t.pc.InsertStock?
    ensures SameStep(db, DbSlice(db, Org(t)), t)
  {
    var db' := DbSlice(db, Org(t));
    SliceIsAlike(db.store, Org(t));
    match t.pc
    case Precheck => StepOpening(db, db', t);
    case Claim => StepOpening(db, db', t);
    case Resolve => StepOpening(db, db', t);
    case TakeOrder => SameOrder(db, db', t);
    case ReadStatus => SameOrder(db, db', t);
    case ReadItems => SameItems(db, db', t);
    case FindRows => SameFind(db, db', t);
    case LockRows(_) => SameLock(db, db', t);
    case ReadProduct => SameAdjusting(db, db', t);
    case LockRow => SameAdjusting(db, db', t);
    case InsertProduct => SameInsert(db, db', t);
    case _ => SameWithin(db, db', t);
  }

  lemma StepOpening(db: Db, db': Db, t: Txn)
    requires Typed(t) && (t.pc.Precheck? || t.pc.Claim? || t.pc.Resolve?)
    requires db' == DbSlice(db, Org(t)) && Alike(db.store, db'.store, Org(t))
    ensures SameStep(db, db', t)
  {
    KeyInSlice(db, KeyOf(t.call.req, t.key));
    SameOpening(db, db', t);
  }

  lemma EffectOwned(db: Db, t: Txn)
    requires DbOk(db) && TxnOk(db, t) && t.pc.Commit?
    ensures Owned(db.store, t.effect, Org(t))
  {
    CommitFacts(db, t);
    CommitDecision(db, t);
    if t.pc.out.ok {
      WritesOnlyItsSlice(db.store, t.call);
    }
  }

  /** So does its commit. */
  lemma CommitInSlice(db: Db, t: Txn)
    requires DbOk(db) && TxnOk(db, t) && t.pc.Commit?
    ensures DbSlice(CommitDb(db, t), Org(t)) == CommitDb(DbSlice(db, Org(t)), t)
  {
    EffectOwned(db, t);
    SliceOfApply(db.store, t.effect, Org(t), Org(t));
    if t.keyRow.Some? && Guarded(t.call.req) {
      KeysInSlice(db.keys, KeyOf(t.call.req, t.key), t.keyRow.value);
    }
  }

  // ----- the transactions of one organisation -----

  function OrgTxns(txns: seq<Txn>, org: Uuid): seq<Txn> {
    if txns == [] then []
    else
      var t := txns[|txns| - 1];
      OrgTxns(txns[..|txns| - 1], org) + if Org(t) == org then [t] else []
  }

  /** Where transaction `i` stands among them. */
  function Place(txns: seq<Txn>, i: nat, org: Uuid): nat
    requires i <= |txns|
  {
    |OrgTxns(txns[..i], org)|
  }

  lemma OrgTxnsAppend(txns: seq<Txn>, t: Txn, org: Uuid)
    ensures OrgTxns(txns + [t], org) == OrgTxns(txns, org) + if Org(t) == org then [t] else []
  {
    assert (txns + [t])[..|txns|] == txns;
  }

  lemma {:induction false} Placed(txns: seq<Txn>, i: nat, org: Uuid)
    requires i < |txns| && Org(txns[i]) == org
    ensures Place(txns, i, org) < |OrgTxns(txns, org)|
    ensures OrgTxns(txns, org)[Place(txns, i, org)] == txns[i]
  {
    var init := txns[..|txns| - 1];
    if i < |init| {
      Placed(init, i, org);
      assert init[..i] == txns[..i];
    }
  }

  /** Everyone of the organisation's transactions is one of the machine's. */
  lemma {:induction false} PlaceOf(txns: seq<Txn>, k: nat, org: Uuid) returns (i: nat)
    requires k < |OrgTxns(txns, org)|
    ensures i < |txns| && Org(txns[i]) == org && Place(txns, i, org) == k
  {
    var init := txns[..|txns| - 1];
    if k < |OrgTxns(init, org)| {
      i := PlaceOf(init, k, org);
      assert init[..i] == txns[..i];
    } else {
      i := |init|;
    }
  }

  lemma {:induction false} OrgTxnsUpdate(txns: seq<Txn>, i: nat, t: Txn, org: Uuid)
    requires i < |txns| && Org(t) == Org(txns[i])
    ensures OrgTxns(txns[i := t], org)
            == if Org(t) == org && Place(txns, i, org) < |OrgTxns(txns, org)|
               then OrgTxns(txns, org)[Place(txns, i, org) := t] else OrgTxns(txns, org)
  {
    var init, last := txns[..|txns| - 1], txns[|txns| - 1];
    if i < |init| {
      OrgTxnsUpdate(init, i, t, org);
      assert init[..i] == txns[..i];
      assert txns[i := t][..|init|] == init[i := t];
      if Org(t) == org {
        Placed(init, i, org);
      }
    } else {
      assert txns[i := t][..|init|] == init;
    }
  }

  // ----- erasing everyone else from a run -----

  /** `p` is what `org` sees of `m`: its rows, its keys and its transactions. */
  ghost predicate Projects(m: Machine, p: Machine, org: Uuid) {
    p.db == DbSlice(m.db, org) && p.txns == OrgTxns(m.txns, org)
  }

  predicate Placeable(m: Machine, a: Action) {
    !a.Begin? ==> a.i < |m.txns|
  }

  /** Whose action it is. */
  function Actor(m: Machine, a: Action): Uuid
    requires Placeable(m, a)
  {
    if a.Begin? then a.call.req.org else Org(m.txns[a.i])
  }

  /** The same action among the organisation's own transactions. */
  function Renumbered(m: Machine, a: Action, org: Uuid): Action
    requires Placeable(m, a)
  {
    match a
    case Begin(_, _) => a
    case Step(i) => Step(Place(m.txns, i, org))
    case Abort(i) => Abort(Place(m.txns, i, org))
  }

  /** The run with every other organisation's actions erased. */
  ghost function OrgRun(m: Machine, actions: seq<Action>, org: Uuid): seq<Action>
    requires Runs(m, actions)
    decreases |actions|
  {
    if actions == [] then []
    else
      (if Actor(m, actions[0]) == org then [Renumbered(m, actions[0], org)] else [])
      + OrgRun(Do(m, actions[0]), actions[1..], org)
  }

  lemma BeginProjects(m: Machine, p: Machine, c: Call, key: Text)
    requires Enabled(m, Begin(c, key)) && Projects(m, p, c.req.org)
    ensures Enabled(p, Begin(c, key)) && Projects(Do(m, Begin(c, key)), Do(p, Begin(c, key)), c.req.org)
  {
    forall k | 0 <= k < |p.txns| ensures p.txns[k].call.freshId != c.freshId {
      var i := PlaceOf(m.txns, k, c.req.org);
      Placed(m.txns, i, c.req.org);
    }
    OrgTxnsAppend(m.txns, Start(c, key), c.req.org);
  }

  lemma AbortProjects(m: Machine, p: Machine, i: nat)
    requires Enabled(m, Abort(i)) && Projects(m, p, Org(m.txns[i]))
    ensures var org := Org(m.txns[i]);
            var a := Renumbered(m, Abort(i), org);
            Enabled(p, a) && Projects(Do(m, Abort(i)), Do(p, a), org)
  {
    Placed(m.txns, i, Org(m.txns[i]));
    OrgTxnsUpdate(m.txns, i, End(m.txns[i], Aborted), Org(m.txns[i]));
  }

  /** Whoever stands in the way among the organisation's transactions does so in the machine. */
  lemma NotBlockedInSlice(m: Machine, p: Machine, i: nat)
    requires CanAdvance(m, i) && Projects(m, p, Org(m.txns[i]))
    requires Wants(p.db, m.txns[i]) == Wants(m.db, m.txns[i])
    ensures CanAdvance(p, Place(m.txns, i, Org(m.txns[i])))
  {
    var org := Org(m.txns[i]);
    var k := Place(m.txns, i, org);
    Placed(m.txns, i, org);
    forall l | 0 <= l < |p.txns| && l != k
      ensures Wants(m.db, m.txns[i]).Some? ==> Wants(m.db, m.txns[i]).value !in p.txns[l].held
    {
      var j := PlaceOf(m.txns, l, org);
      Placed(m.txns, j, org);
    }
  }

  lemma WantsInSlice(m: Machine, i: nat)
    requires Good(m) && CanAdvance(m, i)
    ensures Wants(DbSlice(m.db, Org(m.txns[i])), m.txns[i]) == Wants(m.db, m.txns[i])
  {
    assert TxnOk(m.db, m.txns[i]);
    if !m.txns[i].pc.Commit? {
      StepInSlice(m.db, m.txns[i]);
    }
  }

  /** The organisation's database and the transaction's new state after its step. */
  lemma MovesInSlice(m: Machine, i: nat)
    requires Good(m) && CanAdvance(m, i)
    ensures var t, org := m.txns[i], Org(m.txns[i]);
            if t.pc.Commit? then DbSlice(CommitDb(m.db, t), org) == CommitDb(DbSlice(m.db, org), t)
            else Stepped(DbSlice(m.db, org), t) == Stepped(m.db, t)
  {
    assert TxnOk(m.db, m.txns[i]);
    if m.txns[i].pc.Commit? {
      CommitInSlice(m.db, m.txns[i]);
    } else {
      StepInSlice(m.db, m.txns[i]);
    }
  }

  lemma StepProjects(m: Machine, p: Machine, i: nat)
    requires Good(m) && Enabled(m, Step(i)) && Projects(m, p, Org(m.txns[i]))
    ensures var org := Org(m.txns[i]);
            var a := Renumbered(m, Step(i), org);
            Enabled(p, a) && Projects(Do(m, Step(i)), Do(p, a), org)
  {
    var t, org := m.txns[i], Org(m.txns[i]);
    WantsInSlice(m, i);
    NotBlockedInSlice(m, p, i);
    MovesInSlice(m, i);
    Placed(m.txns, i, org);
    if t.pc.Commit? {
      OrgTxnsUpdate(m.txns, i, End(t, Committed(t.pc.out)), org);
    } else {
      StepKeepsIdentity(m.db, t);
      OrgTxnsUpdate(m.txns, i, Stepped(m.db, t), org);
    }
  }

  lemma OthersErased(m: Machine, p: Machine, a: Action, org: Uuid)
    requires Good(m) && Enabled(m, a) && Projects(m, p, org) && Actor(m, a) != org
    ensures Projects(Do(m, a), p, org)
  {
    ActionLeavesOthers(m, a, org);
    if a.Begin? {
      OrgTxnsAppend(m.txns, Start(a.call, a.key), org);
    } else {
      if a.Step? && !m.txns[a.i].pc.Commit? {
        StepKeepsIdentity(m.db, m.txns[a.i]);
      }
      OrgTxnsUpdate(m.txns, a.i, Do(m, a).txns[a.i], org);
    }
  }

  lemma OwnKept(m: Machine, p: Machine, a: Action, org: Uuid)
    requires Good(m) && Enabled(m, a) && Projects(m, p, org) && Actor(m, a) == org
    ensures Enabled(p, Renumbered(m, a, org)) && Projects(Do(m, a), Do(p, Renumbered(m, a, org)), org)
  {
    match a
    case Begin(c, key) => BeginProjects(m, p, c, key);
    case Step(i) => StepProjects(m, p, i);
    case Abort(i) => AbortProjects(m, p, i);
  }

  /** From `p`, the erased run is a run, and ends with what `org` sees at the end. */
  ghost predicate Follows(m: Machine, p: Machine, actions: seq<Action>, org: Uuid)
    requires Runs(m, actions)
  {
    var own := OrgRun(m, actions, org);
    Runs(p, own) && Projects(After(m, actions), After(p, own), org)
  }

  lemma {:induction false} OwnFirst(m: Machine, p: Machine, actions: seq<Action>, org: Uuid)
    requires Runs(m, actions) && actions != [] && Actor(m, actions[0]) == org
    requires var a := Renumbered(m, actions[0], org);
             Enabled(p, a) && Follows(Do(m, actions[0]), Do(p, a), actions[1..], org)
    ensures Follows(m, p, actions, org)
  {
    OneThen(p, Renumbered(m, actions[0], org), OrgRun(Do(m, actions[0]), actions[1..], org));
  }

  lemma {:induction false} OtherFirst(m: Machine, p: Machine, actions: seq<Action>, org: Uuid)
    requires Runs(m, actions) && actions != [] && Actor(m, actions[0]) != org
    requires Follows(Do(m, actions[0]), p, actions[1..], org)
    ensures Follows(m, p, actions, org)
  {
    var rest := OrgRun(Do(m, actions[0]), actions[1..], org);
    assert [] + rest == rest;
  }

  lemma {:induction false} RunProjects(m: Machine, p: Machine, actions: seq<Action>, org: Uuid)
    requires Good(m) && Runs(m, actions) && Projects(m, p, org)
    ensures Follows(m, p, actions, org)
    decreases |actions|
  {
    if actions != [] {
      var a := actions[0];
      DoKeepsGood(m, a);
      if Actor(m, a) == org {
        OwnKept(m, p, a, org);
        RunProjects(Do(m, a), Do(p, Renumbered(m, a, org)), actions[1..], org);
        OwnFirst(m, p, actions, org);
      } else {
        OthersErased(m, p, a, org);
        RunProjects(Do(m, a), p, actions[1..], org);
        OtherFirst(m, p, actions, org);
      }
    }
  }

  /** An organisation cannot tell that it is not alone: with everyone else's requests, statements,
      commits and aborts erased, its own are still a run, and end with its very rows, keys and
      answers. */
  lemma AloneItSeesTheSame(actions: seq<Action>, org: Uuid)
    requires Runs(INITIAL, actions)
    ensures var own := OrgRun(INITIAL, actions, org);
            && Runs(INITIAL, own)
            && After(INITIAL, own).db == DbSlice(After(INITIAL, actions).db, org)
            && After(INITIAL, own).txns == OrgTxns(After(INITIAL, actions).txns, org)
  {
    InitialGood();
    RunProjects(INITIAL, INITIAL, actions, org);
  }

  /** Two runs in which the organisation does the same look the same to it, whatever the others
      do in either. */
  lemma SameActionsSameView(one: seq<Action>, two: seq<Action>, org: Uuid)
    requires Runs(INITIAL, one) && Runs(INITIAL, two) && OrgRun(INITIAL, one, org) == OrgRun(INITIAL, two, org)
    ensures DbSlice(After(INITIAL, one).db, org) == DbSlice(After(INITIAL, two).db, org)
    ensures OrgTxns(After(INITIAL, one).txns, org) == OrgTxns(After(INITIAL, two).txns, org)
  {
    AloneItSeesTheSame(one, org);
    AloneItSeesTheSame(two, org);
  }
}
