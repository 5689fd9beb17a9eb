/** What later steps of a run can no longer change, and what the database holds between two
    statements. */
module RunHistory {
  import opened Tables
  import opened Engine
  import opened WriteLoop
  import opened StoreInvariant
  import opened OperationEffects
  import opened Fingerprint
  import opened Idempotency
  import opened Machine
  import opened TxnInvariant
  import opened TxnFrame
  import opened MachineSafety
  import opened RunGuarantees

  // ----- terminal orders -----

  ghost predicate Terminated(s: Store, o: Uuid) {
    o in s.orders && !s.orders[o].status.Pending?
  }

  lemma ActionKeepsTerminal(m: Machine, a: Action, o: Uuid)
    requires Good(m) && Enabled(m, a) && Terminated(m.db.store, o)
    ensures o in Do(m, a).db.store.orders && Do(m, a).db.store.orders[o] == m.db.store.orders[o]
  {
    if Do(m, a).db.store != m.db.store {
      OnlySuccessesWrite(m, a);
      var t := m.txns[a.i];
      CommitFacts(m.db, t);
      assert StepStore(m.db.store, t.call) == Apply(m.db.store, t.effect);
      TerminalOrderKept(m.db.store, t.call, o);
    }
  }

  lemma {:induction false} RunKeepsTerminal(m: Machine, actions: seq<Action>, o: Uuid)
    requires Good(m) && Runs(m, actions) && Terminated(m.db.store, o)
    ensures var s := After(m, actions).db.store; o in s.orders && s.orders[o] == m.db.store.orders[o]
    decreases |actions|
  {
    if actions != [] {
      ActionKeepsTerminal(m, actions[0], o);
      DoKeepsGood(m, actions[0]);
      RunKeepsTerminal(Do(m, actions[0]), actions[1..], o);
    }
  }

  /** An order that is fulfilled or cancelled at some moment of a run keeps that very row, stamps
      included, however the run goes on. */
  lemma TerminalForever(before: seq<Action>, later: seq<Action>, o: Uuid)
    requires Runs(INITIAL, before) && Runs(After(INITIAL, before), later)
    requires Terminated(After(INITIAL, before).db.store, o)
    ensures var m := After(INITIAL, before);
            var s := After(m, later).db.store;
            o in s.orders && s.orders[o] == m.db.store.orders[o]
  {
    ReachableIsGood(before);
    RunKeepsTerminal(After(INITIAL, before), later, o);
  }

  // ----- spent keys -----

  /** A request refused before its transaction began had failed its prechecks, or is a product
      whose SKU is taken. */
  lemma OnlyPrecheckRefuses(db: Db, t: Txn)
    requires Typed(t) && !t.pc.Commit? && !Finished(t.pc) && Stepped(db, t).pc.Refused?
    ensures (t.pc.Precheck? && !Prechecked(db, t)) || t.pc.InsertProduct?
  {
    if t.pc.Precheck? {
      var out := PrecheckMove(db, t);
    }
  }

  /** Transactions from `n` on that repeat the request of `first` under its key. */
  ghost predicate Repeats(m: Machine, first: Txn, n: nat, j: nat) {
    n <= j < |m.txns| && m.txns[j].call.req == first.call.req && m.txns[j].key == first.key
  }

  ghost predicate NoneRefused(m: Machine, first: Txn, n: nat) {
    forall j: nat | Repeats(m, first, n, j) :: !m.txns[j].pc.Refused?
  }

  ghost predicate Spent(m: Machine, i: nat, first: Txn) {
    i < |m.txns| && m.txns[i] == first && first.pc.Committed? && Guarded(first.call.req)
  }

  lemma ActionKeepsSpent(m: Machine, a: Action, i: nat, first: Txn)
    requires Enabled(m, a) && Spent(m, i, first)
    ensures Spent(Do(m, a), i, first) && |Do(m, a).txns| >= |m.txns|
  {
  }

  lemma RepeatNotRefused(db: Db, first: Txn, t: Txn)
    requires TxnOk(db, first) && first.pc.Committed? && Guarded(first.call.req) && t.call.req == first.call.req
    requires Typed(t) && !t.pc.Commit? && !Finished(t.pc)
    ensures !Stepped(db, t).pc.Refused?
  {
    if Stepped(db, t).pc.Refused? {
      OnlyPrecheckRefuses(db, t);
    }
  }

  lemma ActionTouches(m: Machine, a: Action, j: nat)
    requires Enabled(m, a) && j < |Do(m, a).txns|
    ensures j >= |m.txns| ==> !Do(m, a).txns[j].pc.Refused?
    ensures j < |m.txns| && Do(m, a).txns[j] != m.txns[j] ==> !a.Begin? && a.i == j && !Finished(m.txns[j].pc)
  {
  }

  lemma StepIsNotRefusal(m: Machine, a: Action, i: nat, first: Txn, j: nat)
    requires TxnsOk(m) && Enabled(m, a) && !a.Begin? && a.i == j && Spent(m, i, first)
    requires Do(m, a).txns[j].call.req == first.call.req
    ensures !Do(m, a).txns[j].pc.Refused?
  {
    if a.Step? && !m.txns[j].pc.Commit? {
      assert TxnOk(m.db, m.txns[i]);
      StepKeepsIdentity(m.db, m.txns[j]);
      RepeatNotRefused(m.db, first, m.txns[j]);
    }
  }

  lemma ActionKeepsRequest(m: Machine, a: Action, j: nat)
    requires Enabled(m, a) && j < |m.txns|
    ensures Do(m, a).txns[j].call == m.txns[j].call && Do(m, a).txns[j].key == m.txns[j].key
  {
    if a.Step? && a.i == j && !m.txns[j].pc.Commit? {
      StepKeepsIdentity(m.db, m.txns[j]);
    }
  }

  lemma RepeatStaysUnrefused(m: Machine, a: Action, i: nat, first: Txn, n: nat, j: nat)
    requires TxnsOk(m) && Enabled(m, a) && Spent(m, i, first) && NoneRefused(m, first, n)
    requires Repeats(Do(m, a), first, n, j)
    ensures !Do(m, a).txns[j].pc.Refused?
  {
    ActionTouches(m, a, j);
    if j < |m.txns| {
      ActionKeepsRequest(m, a, j);
      assert Repeats(m, first, n, j);
      if Do(m, a).txns[j] != m.txns[j] {
        StepIsNotRefusal(m, a, i, first, j);
      }
    }
  }

  lemma ActionRefusesNone(m: Machine, a: Action, i: nat, first: Txn, n: nat)
    requires TxnsOk(m) && Enabled(m, a) && Spent(m, i, first) && NoneRefused(m, first, n)
    ensures NoneRefused(Do(m, a), first, n)
  {
    forall j: nat | Repeats(Do(m, a), first, n, j) ensures !Do(m, a).txns[j].pc.Refused? {
      RepeatStaysUnrefused(m, a, i, first, n, j);
    }
  }

  lemma {:induction false} RunRefusesNone(m: Machine, actions: seq<Action>, i: nat, first: Txn, n: nat)
    requires Good(m) && Runs(m, actions) && Spent(m, i, first) && NoneRefused(m, first, n)
    ensures var m' := After(m, actions); Good(m') && Spent(m', i, first) && NoneRefused(m', first, n)
    decreases |actions|
  {
    if actions != [] {
      var next := Do(m, actions[0]);
      ActionKeepsSpent(m, actions[0], i, first);
      ActionRefusesNone(m, actions[0], i, first, n);
      DoKeepsGood(m, actions[0]);
      RunRefusesNone(next, actions[1..], i, first, n);
    }
  }

  /** Whoever finishes under a spent key with the request that spent it was replayed its
      outcome, or aborted. */
  lemma RepeatEnds(m: Machine, i: nat, first: Txn, j: nat)
    requires Good(m) && Spent(m, i, first) && j < |m.txns| && j != i
    requires m.txns[j].call.req == first.call.req && m.txns[j].key == first.key
    requires Finished(m.txns[j].pc) && !m.txns[j].pc.Refused?
    ensures m.txns[j].pc == Replayed(first.pc.out) || m.txns[j].pc == Aborted
  {
    var t, id := m.txns[j], KeyOf(first.call.req, first.key);
    assert CommittedUnder(m.txns[i], id);
    assert Recorded(m.db.keys, m.txns[i]) && Answered(m.db.keys, t);
    if t.pc.Committed? {
      assert CommittedUnder(t, id);
    } else if t.pc.Replayed? {
      CompleteThenResolve(FingerprintOf(first.call.req), first.pc.out);
    }
  }

  /** A request repeated under its key, begun at any moment after the first one committed and
      interleaved with anything, ends with the very outcome of the first, unless it is aborted.
      It is never executed again and never refused. */
  lemma SpentKeyReplays(before: seq<Action>, later: seq<Action>, i: nat, j: nat)
    requires Runs(INITIAL, before) && Runs(After(INITIAL, before), later)
    requires i < |After(INITIAL, before).txns| && Spent(After(INITIAL, before), i, After(INITIAL, before).txns[i])
    requires var m := After(INITIAL, before);
             var m' := After(m, later);
             Repeats(m', m.txns[i], |m.txns|, j) && Finished(m'.txns[j].pc)
    ensures var m := After(INITIAL, before);
            var m' := After(m, later);
            m'.txns[j].pc == Replayed(m.txns[i].pc.out) || m'.txns[j].pc == Aborted
  {
    ReachableIsGood(before);
    var m := After(INITIAL, before);
    RunRefusesNone(m, later, i, m.txns[i], |m.txns|);
    RepeatEnds(After(m, later), i, m.txns[i], j);
  }

  // ----- answers that rest on locked rows -----

  /** At its commit, every success, every answer to a reservation (shortfalls included) and every
      answer to an adjustment of a known product is what the request, run alone on the committed
      store, would be answered. */
  lemma FirmAnswersAreSerial(actions: seq<Action>, i: nat)
    requires Runs(INITIAL, actions) && i < |After(INITIAL, actions).txns|
    requires var t := After(INITIAL, actions).txns[i]; t.pc.Commit? && Firm(t.call.req, t.pc.out)
    ensures var m := After(INITIAL, actions);
            var t := m.txns[i];
            WellFormed(t.call.req) && Exec(m.db.store, t.call) == Decision(t.effect, t.pc.out)
  {
    ReachableIsGood(actions);
    var m := After(INITIAL, actions);
    assert TxnOk(m.db, m.txns[i]);
    CommitFacts(m.db, m.txns[i]);
  }

  // ----- uncommitted writes -----

  lemma LinesFit(db: Db, t: Txn)
    requires Inv(db.store) && WellFormed(t.call.req) && LinesGround(db, t) && Covers(t.rows, t.lines)
    requires t.call.req.Reserve? ==> Shortfalls(t.lines, t.rows) == []
    ensures forall l | l in t.lines :: Fits(KindOf(t.call.req), t.rows, l)
  {
    if t.call.req.Reserve? {
      NoShortfallMeansAvailable(t.lines, t.rows);
    } else {
      SoundStoreCovers(db, t);
      RowsAreCurrent(db, t);
      TransitionLines(db.store, Org(t), t.call.req.orderId);
    }
  }

  lemma RowsAreSnapshot(db: Db, t: Txn)
    requires RowsCurrent(db, t)
    ensures SnapshotOf(t.rows, db.store.stock)
  {
  }

  lemma WritesInRange(db: Db, t: Txn, k: nat)
    requires Inv(db.store) && WellFormed(t.call.req) && WriteStage(db, t, k)
    ensures InRange(db.store.stock + t.effect.stock)
  {
    LinesFit(db, t);
    RowsAreSnapshot(db, t);
    TakenInRange(KindOf(t.call.req), db.store.stock, t.rows, t.lines, k);
  }

  lemma DecisionInRange(db: Db, t: Txn, out: Outcome)
    requires Inv(db.store) && Decided(db, t, out) && Ready(db, t)
    ensures InRange(db.store.stock + t.effect.stock)
  {
    DecidedKeepsInv(db.store, t, out);
  }

  predicate AfterWrite(pc: Pc) {
    pc.WriteRows? || pc.InsertRows? || pc.Complete? || pc.Commit?
  }

  /** The CHECK constraints and the int4 range hold of every row as each transaction sees it,
      after every single write, in every interleaving. */
  lemma UncommittedRowsInRange(actions: seq<Action>, i: nat)
    requires Runs(INITIAL, actions) && i < |After(INITIAL, actions).txns|
    requires AfterWrite(After(INITIAL, actions).txns[i].pc)
    ensures var m := After(INITIAL, actions); InRange(m.db.store.stock + m.txns[i].effect.stock)
  {
    ReachableIsGood(actions);
    var m := After(INITIAL, actions);
    assert TxnOk(m.db, m.txns[i]);
    TxnInRange(m.db, m.txns[i]);
  }

  lemma TxnInRange(db: Db, t: Txn)
    requires Inv(db.store) && TxnOk(db, t) && AfterWrite(t.pc)
    ensures InRange(db.store.stock + t.effect.stock)
  {
    if t.pc.Complete? {
      AtComplete(db, t, t.pc.out);
      DecisionInRange(db, t, t.pc.out);
    } else if t.pc.Commit? {
      AtCommit(db, t, t.pc.out);
      DecisionInRange(db, t, t.pc.out);
    } else {
      var k := if t.pc.WriteRows? then t.pc.k else |t.lines|;
      AtWrite(db, t, k);
      WritesInRange(db, t, k);
    }
  }
}
