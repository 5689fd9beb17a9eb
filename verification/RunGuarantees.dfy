/** What a reader may rely on over any run of the machine, from an empty database. */
module RunGuarantees {
  import opened Tables
  import opened Engine
  import opened Sums
  import opened StoreInvariant
  import opened Fingerprint
  import opened Idempotency
  import opened Machine
  import opened TxnInvariant
  import opened TxnFrame
  import opened MachineSafety

  lemma ReachableIsGood(actions: seq<Action>)
    requires Runs(INITIAL, actions)
    ensures Good(After(INITIAL, actions))
  {
    InitialGood();
    RunKeepsGood(INITIAL, actions);
  }

  // ----- serialisability -----

  /** However the transactions interleave and wherever they abort, the committed business tables
      are those of running the successful commits one after another in commit order, and each of
      those, run alone at its turn, gives the very outcome it was answered. */
  lemma InterleavingIsSerial(actions: seq<Action>)
    requires Runs(INITIAL, actions)
    ensures var m := After(INITIAL, actions);
            && m.db.store == Serial(m.log)
            && (forall k | 0 <= k < |m.log| :: Explains(Serial(m.log[..k]), m.log[k]))
            && (forall k | 0 <= k < |m.log| :: Logs(m.txns, m.log[k]))
            && (forall k, l | 0 <= k < l < |m.log| :: m.log[k].txn != m.log[l].txn)
            && AllLogged(m.txns, m.log)
  {
    ReachableIsGood(actions);
  }

  /** Only a successful commit changes a business row: a claim, a read, a rejection, a replay
      and an abort leave all five tables as they were. */
  lemma OnlySuccessesWrite(m: Machine, a: Action)
    requires Good(m) && Enabled(m, a)
    ensures Do(m, a).db.store != m.db.store ==>
      && a.Step? && m.txns[a.i].pc.Commit? && m.txns[a.i].pc.out.ok
      && WellFormed(m.txns[a.i].call.req)
      && Exec(m.db.store, m.txns[a.i].call) == Decision(m.txns[a.i].effect, m.txns[a.i].pc.out)
      && Do(m, a).db.store == Apply(m.db.store, m.txns[a.i].effect)
  {
    if a.Step? && m.txns[a.i].pc.Commit? {
      CommitDecision(m.db, m.txns[a.i]);
      CommitFacts(m.db, m.txns[a.i]);
      ApplyNothing(m.db.store);
    }
  }

  // ----- the store in every reachable state -----

  /** Counters in range, backed by the pending orders and explained by the ledger. */
  lemma ReachableStock(actions: seq<Action>, p: Uuid)
    requires Runs(INITIAL, actions) && p in After(INITIAL, actions).db.store.stock
    ensures var s := After(INITIAL, actions).db.store;
            && 0 <= s.stock[p].reserved <= s.stock[p].onHand <= INT4_MAX
            && s.stock[p].reserved == HeldQty(s, Pending, p)
            && s.stock[p].onHand == Sum(s.movements, OnHandOf(p))
            && s.stock[p].reserved == Sum(s.movements, ReservedOf(p))
            && HeldQty(s, Pending, p) + HeldQty(s, Fulfilled, p) <= Sum(s.movements, AdjustedOf(p))
  {
    ReachableIsGood(actions);
    assert RowLedgered(After(INITIAL, actions).db.store, p);
  }

  /** An order's stamps follow its status, and its own movements net to what its status says. */
  lemma ReachableOrder(actions: seq<Action>, o: Uuid, p: Uuid)
    requires Runs(INITIAL, actions) && o in After(INITIAL, actions).db.store.orders
    ensures var s := After(INITIAL, actions).db.store;
            var order, q := s.orders[o], ItemQty(s.items, {o}, p);
            && (order.cancelledAt.Some? <==> order.status.Cancelled?)
            && (order.fulfilledAt.Some? <==> order.status.Fulfilled?)
            && Sum(s.movements, ReservedFor(o, p)) == (if order.status.Pending? then q else 0)
            && Sum(s.movements, OnHandFor(o, p)) == (if order.status.Fulfilled? then -q else 0)
  {
    ReachableIsGood(actions);
    var s := After(INITIAL, actions).db.store;
    assert Stamped(s.orders[o]) && OrderNetted(s, o, p);
  }

  /** The "Invariant violated" throws of release and fulfill, and the missing-row branch of an
      adjustment, are unreachable in every interleaving. */
  lemma ImpossiblePathsUnreachable(actions: seq<Action>, i: nat)
    requires Runs(INITIAL, actions) && i < |After(INITIAL, actions).txns|
    ensures !After(INITIAL, actions).txns[i].pc.Violated? && !After(INITIAL, actions).txns[i].pc.InsertStock?
  {
    ReachableIsGood(actions);
  }

  // ----- exactly once -----

  /** At most one transaction ever commits under an idempotency key. */
  lemma CommitsOncePerKey(actions: seq<Action>, i: nat, j: nat, id: KeyId)
    requires Runs(INITIAL, actions)
    requires i < |After(INITIAL, actions).txns| && j < |After(INITIAL, actions).txns|
    requires CommittedUnder(After(INITIAL, actions).txns[i], id) && CommittedUnder(After(INITIAL, actions).txns[j], id)
    ensures i == j
  {
    ReachableIsGood(actions);
  }

  /** A request answered by conflict resolution lost to exactly one committed request with its
      key. The same request gets the identical outcome, `ok` flag included; any other request is
      refused as a reuse of the key. */
  lemma ReplayIsIdentical(actions: seq<Action>, j: nat) returns (i: nat)
    requires Runs(INITIAL, actions)
    requires j < |After(INITIAL, actions).txns| && After(INITIAL, actions).txns[j].pc.Replayed?
    ensures var m := After(INITIAL, actions);
            var u := m.txns[j];
            && i < |m.txns| && Guarded(u.call.req) && CommittedUnder(m.txns[i], KeyOf(u.call.req, u.key))
            && u.pc.out == if m.txns[i].call.req == u.call.req then m.txns[i].pc.out else Outcome(false, 409, KeyReused)
  {
    ReachableIsGood(actions);
    var m := After(INITIAL, actions);
    var u := m.txns[j];
    assert Answered(m.db.keys, u);
    var id := KeyOf(u.call.req, u.key);
    assert KeyOwned(m, id);
    i :| 0 <= i < |m.txns| && CommittedUnder(m.txns[i], id);
    assert Recorded(m.db.keys, m.txns[i]);
    FingerprintIdentifies(m.txns[i].call.req, u.call.req);
    CompleteThenResolve(FingerprintOf(u.call.req), m.txns[i].pc.out);
  }

  /** Wherever conflict resolution reads, the row is there, completed and has a status: its
      missing-row, in-progress and default-500 answers are never given. */
  lemma ResolutionFindsCompleted(actions: seq<Action>, i: nat)
    requires Runs(INITIAL, actions)
    requires i < |After(INITIAL, actions).txns| && After(INITIAL, actions).txns[i].pc.Resolve?
    ensures var m := After(INITIAL, actions);
            var t := m.txns[i];
            && Guarded(t.call.req) && KeyOf(t.call.req, t.key) in m.db.keys
            && m.db.keys[KeyOf(t.call.req, t.key)].state.Completed?
            && m.db.keys[KeyOf(t.call.req, t.key)].responseStatus.Some?
  {
    ReachableIsGood(actions);
    var m := After(INITIAL, actions);
    assert TxnOk(m.db, m.txns[i]) && Answered(m.db.keys, m.txns[i]);
  }

  /** No transaction on record or in flight has `id`. */
  ghost predicate KeyFree(db: Db, txns: seq<Txn>, id: KeyId) {
    id !in db.keys && forall j | 0 <= j < |txns| :: KeyLock(id) !in txns[j].held
  }

  lemma AbortLeavesKeyFree(m: Machine, i: nat, id: KeyId)
    requires TxnsOk(m) && Exclusive(m.txns) && i < |m.txns| && OwnKey(m.txns[i])
    requires !Finished(m.txns[i].pc) && KeyLock(id) in m.txns[i].held
    ensures KeyFree(m.db, m.txns[i := End(m.txns[i], Aborted)], id)
  {
    HeldKeyUnused(m.db, m.txns[i], id);
    assert forall j | 0 <= j < |m.txns| && j != i :: m.txns[j].held !! m.txns[i].held;
  }

  /** An aborted attempt leaves its key unused and unheld: the next claim does not wait. */
  lemma AbortFreesKey(actions: seq<Action>, i: nat, id: KeyId)
    requires Runs(INITIAL, actions) && i < |After(INITIAL, actions).txns|
    requires !Finished(After(INITIAL, actions).txns[i].pc) && KeyLock(id) in After(INITIAL, actions).txns[i].held
    ensures var m := Do(After(INITIAL, actions), Abort(i)); KeyFree(m.db, m.txns, id)
  {
    ReachableIsGood(actions);
    AbortLeavesKeyFree(After(INITIAL, actions), i, id);
  }

  // ----- orders -----

  ghost predicate Left(s: Store, o: Uuid) {
    o in s.orders && !s.orders[o].status.Pending?
  }

  /** No later call touches an order that has left `pending`. */
  lemma TerminalOrderKept(s: Store, c: Call, o: Uuid)
    requires Admissible(s, c) && o in s.orders && !s.orders[o].status.Pending?
    ensures o in StepStore(s, c).orders && StepStore(s, c).orders[o] == s.orders[o]
  {
  }

  /** The logged call moved order `o` out of `pending`. */
  ghost predicate Transitions(e: Entry, o: Uuid) {
    Transition(e.call.req) && e.call.req.orderId == o && e.outcome.ok
  }

  lemma TransitionTerminates(s: Store, e: Entry, o: Uuid)
    requires Explains(s, e) && Transitions(e, o)
    ensures o in s.orders && s.orders[o].status.Pending?
    ensures o in StepStore(s, e.call).orders
    ensures StepStore(s, e.call).orders[o].status == if e.call.req.Fulfill? then Fulfilled else Cancelled
  {
  }

  lemma LeftStaysLeft(s: Store, e: Entry, o: Uuid)
    requires Explains(s, e) && Left(s, o)
    ensures Left(StepStore(s, e.call), o)
  {
    TerminalOrderKept(s, e.call, o);
  }

  lemma TransitionLeaves(s: Store, e: Entry, o: Uuid)
    requires Explains(s, e) && Transitions(e, o)
    ensures Left(StepStore(s, e.call), o)
  {
    TransitionTerminates(s, e, o);
  }

  lemma {:induction false} TerminalFrom(log: seq<Entry>, k: nat, n: nat, o: Uuid)
    requires Explained(log) && k < n <= |log| && Transitions(log[k], o)
    ensures Left(Serial(log[..n]), o)
  {
    var s, e := Serial(log[..n - 1]), log[n - 1];
    assert log[..n][..n - 1] == log[..n - 1];
    assert Explains(s, e);
    if k == n - 1 {
      TransitionLeaves(s, e, o);
    } else {
      TerminalFrom(log, k, n - 1, o);
      LeftStaysLeft(s, e, o);
    }
  }

  /** However fulfil and cancel requests race, at most one of them ever succeeds per order. */
  lemma OneTransitionPerOrder(actions: seq<Action>, k: nat, l: nat, o: Uuid)
    requires Runs(INITIAL, actions)
    requires k < l < |After(INITIAL, actions).log| && Transitions(After(INITIAL, actions).log[k], o)
    ensures !Transitions(After(INITIAL, actions).log[l], o)
  {
    ReachableIsGood(actions);
    var log := After(INITIAL, actions).log;
    TerminalFrom(log, k, l, o);
    assert Explains(Serial(log[..l]), log[l]);
    if Transitions(log[l], o) {
      TransitionTerminates(Serial(log[..l]), log[l], o);
    }
  }
}
