/** Safety over every run: serialisability of the successful commits, exactly-once effects, and
    the unreachability of every "cannot happen" path. */
module MachineSafety {
  import opened Tables
  import opened Engine
  import opened StoreInvariant
  import opened Fingerprint
  import opened Idempotency
  import opened Machine
  import opened TxnInvariant
  import opened TxnFrame

  // ----- the serial replay of a commit log -----

  function StepStore(s: Store, c: Call): Store {
    if WellFormed(c.req) && Exec(s, c).Decision? then Apply(s, Exec(s, c).effect) else s
  }

  /** The store after running the logged calls one after another. */
  function Serial(log: seq<Entry>): Store {
    if log == [] then EMPTY_STORE else StepStore(Serial(log[..|log| - 1]), log[|log| - 1].call)
  }

  /** Run alone on `s`, the call gives the outcome that was recorded. */
  ghost predicate Explains(s: Store, e: Entry) {
    Admissible(s, e.call) && Exec(s, e.call).Decision? && Exec(s, e.call).outcome == e.outcome
  }

  ghost predicate Explained(log: seq<Entry>) {
    forall k {:trigger Explains(Serial(log[..k]), log[k])} | 0 <= k < |log| :: Explains(Serial(log[..k]), log[k])
  }

  // ----- the machine invariant -----

  ghost predicate TxnsOk(m: Machine) {
    forall i | 0 <= i < |m.txns| :: TxnOk(m.db, m.txns[i])
  }

  ghost predicate Exclusive(txns: seq<Txn>) {
    forall i, j | 0 <= i < |txns| && 0 <= j < |txns| && i != j :: txns[i].held !! txns[j].held
  }

  ghost predicate DistinctIds(txns: seq<Txn>) {
    forall i, j | 0 <= i < |txns| && 0 <= j < |txns| && i != j :: txns[i].call.freshId != txns[j].call.freshId
  }

  /** No invariant violation was thrown, and no adjustment has found its row missing. */
  ghost predicate NothingImpossible(txns: seq<Txn>) {
    forall i | 0 <= i < |txns| :: !txns[i].pc.Violated? && !txns[i].pc.InsertStock?
  }

  ghost predicate Logs(txns: seq<Txn>, e: Entry) {
    e.outcome.ok && e.txn < |txns| && txns[e.txn].pc == Committed(e.outcome) && txns[e.txn].call == e.call
  }

  ghost predicate LogOk(m: Machine) {
    && m.db.store == Serial(m.log) && Explained(m.log)
    && (forall k | 0 <= k < |m.log| :: Logs(m.txns, m.log[k]))
    && (forall k, l | 0 <= k < l < |m.log| :: m.log[k].txn != m.log[l].txn)
    && AllLogged(m.txns, m.log)
  }

  ghost predicate InLog(log: seq<Entry>, i: nat) {
    exists k :: 0 <= k < |log| && log[k].txn == i
  }

  ghost predicate AllLogged(txns: seq<Txn>, log: seq<Entry>) {
    forall i | 0 <= i < |txns| && txns[i].pc.Committed? && txns[i].pc.out.ok :: InLog(log, i)
  }

  ghost predicate CommittedUnder(t: Txn, id: KeyId) {
    t.pc.Committed? && Guarded(t.call.req) && KeyOf(t.call.req, t.key) == id
  }

  ghost predicate KeyOwned(m: Machine, id: KeyId) {
    exists i :: 0 <= i < |m.txns| && CommittedUnder(m.txns[i], id)
  }

  /** The row a committed transaction leaves under its key. */
  ghost predicate Recorded(keys: map<KeyId, KeyRow>, t: Txn) {
    t.pc.Committed? && Guarded(t.call.req) ==>
      && KeyOf(t.call.req, t.key) in keys
      && keys[KeyOf(t.call.req, t.key)] == CompletedRow(ClaimedRow(FingerprintOf(t.call.req)), t.pc.out)
      && (t.pc.out.ok <==> t.pc.out.status < 400)
  }

  /** What a lost claim is answered, from the row that beat it. */
  ghost predicate Answered(keys: map<KeyId, KeyRow>, t: Txn) {
    (t.pc.Resolve? || t.pc.Replayed?) && Guarded(t.call.req) ==>
      && KeyOf(t.call.req, t.key) in keys
      && (t.pc.Replayed? ==>
            t.pc.out == ResolveConflict(Some(keys[KeyOf(t.call.req, t.key)]), FingerprintOf(t.call.req)))
  }

  ghost predicate KeysOk(m: Machine) {
    && (forall i | 0 <= i < |m.txns| :: Recorded(m.db.keys, m.txns[i]) && Answered(m.db.keys, m.txns[i])
          && (m.txns[i].pc.Replayed? ==> Guarded(m.txns[i].call.req)))
    && (forall i, j, id | 0 <= i < j < |m.txns| && CommittedUnder(m.txns[i], id) :: !CommittedUnder(m.txns[j], id))
    && (forall id | id in m.db.keys :: KeyOwned(m, id))
  }

  ghost predicate Orderly(m: Machine) {
    && TxnsOk(m) && Exclusive(m.txns) && DistinctIds(m.txns) && NothingImpossible(m.txns)
    && (forall i | 0 <= i < |m.txns| :: OwnKey(m.txns[i]))
  }

  ghost predicate Good(m: Machine) {
    DbOk(m.db) && Orderly(m) && LogOk(m) && KeysOk(m)
  }

  lemma InitialGood()
    ensures Good(INITIAL)
  {
    EmptyStoreInv();
  }

  // ----- a new request, an abort -----

  /** One transaction changed, nothing committed. */
  ghost predicate Changed(m: Machine, m': Machine, i: nat) {
    && i < |m.txns| == |m'.txns| && m'.db == m.db && m'.log == m.log
    && (forall j | 0 <= j < |m.txns| && j != i :: m'.txns[j] == m.txns[j])
    && m'.txns[i].call == m.txns[i].call && m'.txns[i].key == m.txns[i].key
    && !m.txns[i].pc.Committed? && !m'.txns[i].pc.Committed?
  }

  lemma ChangeKeepsLog(m: Machine, m': Machine, i: nat)
    requires Changed(m, m', i) && LogOk(m)
    ensures LogOk(m')
  {
    forall k | 0 <= k < |m'.log| ensures Logs(m'.txns, m'.log[k]) {
      assert Logs(m.txns, m.log[k]);
    }
  }

  lemma ChangeKeepsKeys(m: Machine, m': Machine, i: nat)
    requires Changed(m, m', i) && KeysOk(m)
    requires Answered(m.db.keys, m'.txns[i]) && (m'.txns[i].pc.Replayed? ==> Guarded(m'.txns[i].call.req))
    ensures KeysOk(m')
  {
    forall id | id in m'.db.keys ensures KeyOwned(m', id) {
      assert KeyOwned(m, id);
      var j :| 0 <= j < |m.txns| && CommittedUnder(m.txns[j], id);
      assert CommittedUnder(m'.txns[j], id);
    }
  }

  ghost predicate Began(m: Machine, m': Machine, t: Txn) {
    m' == m.(txns := m.txns + [t]) && t.held == {} && !t.pc.Committed? && !t.pc.Replayed? && !t.pc.Resolve?
  }

  lemma BeginKeepsLog(m: Machine, m': Machine, t: Txn)
    requires Began(m, m', t) && LogOk(m)
    ensures LogOk(m')
  {
    forall k | 0 <= k < |m'.log| ensures Logs(m'.txns, m'.log[k]) {
      assert Logs(m.txns, m.log[k]);
    }
  }

  lemma BeginKeepsKeys(m: Machine, m': Machine, t: Txn)
    requires Began(m, m', t) && KeysOk(m)
    ensures KeysOk(m')
  {
    forall id | id in m'.db.keys ensures KeyOwned(m', id) {
      assert KeyOwned(m, id);
      var j :| 0 <= j < |m.txns| && CommittedUnder(m.txns[j], id);
      assert CommittedUnder(m'.txns[j], id);
    }
  }

  lemma StartOk(db: Db, call: Call, key: Text)
    requires WellFormed(call.req) && Fresh(db.store, call.freshId)
    ensures TxnOk(db, Start(call, key))
  {
  }

  lemma BeginKeepsOrderly(m: Machine, a: Action)
    requires Orderly(m) && a.Begin? && Enabled(m, a)
    ensures Orderly(Do(m, a))
  {
    StartOk(m.db, a.call, a.key);
  }

  lemma BeginKeepsGood(m: Machine, a: Action)
    requires Good(m) && a.Begin? && Enabled(m, a)
    ensures Good(Do(m, a))
  {
    var m', t := Do(m, a), Start(a.call, a.key);
    assert Began(m, m', t);
    BeginKeepsOrderly(m, a);
    BeginKeepsLog(m, m', t);
    BeginKeepsKeys(m, m', t);
  }

  lemma AbortKeepsOrderly(m: Machine, a: Action)
    requires Orderly(m) && a.Abort? && Enabled(m, a)
    ensures Orderly(Do(m, a))
  {
    assert TxnOk(m.db, Do(m, a).txns[a.i]);
  }

  lemma AbortKeepsHistory(m: Machine, a: Action)
    requires LogOk(m) && KeysOk(m) && a.Abort? && Enabled(m, a)
    ensures LogOk(Do(m, a)) && KeysOk(Do(m, a))
  {
    var m' := Do(m, a);
    assert Changed(m, m', a.i);
    ChangeKeepsLog(m, m', a.i);
    ChangeKeepsKeys(m, m', a.i);
  }

  lemma AbortKeepsGood(m: Machine, a: Action)
    requires Good(m) && a.Abort? && Enabled(m, a)
    ensures Good(Do(m, a))
  {
    AbortKeepsOrderly(m, a);
    AbortKeepsHistory(m, a);
  }

  // ----- a statement -----

  lemma StepKeepsIdentity(db: Db, t: Txn)
    requires Typed(t) && !t.pc.Commit? && !Finished(t.pc)
    ensures var t' := Stepped(db, t);
            && t'.call == t.call && t'.key == t.key
            && (t'.held == t.held + Acquired(db, t) || (t'.held == {} && Acquired(db, t) == {}))
            && (OwnKey(t) ==> OwnKey(t'))
  {
  }

  lemma StepLeadsTo(db: Db, t: Txn)
    requires Typed(t) && !t.pc.Commit? && !Finished(t.pc)
    ensures var pc := Stepped(db, t).pc;
            && !pc.Committed?
            && (pc.Resolve? ==> Guarded(t.call.req) && KeyOf(t.call.req, t.key) in db.keys)
            && (pc.Replayed? ==>
                  t.pc.Resolve? && Guarded(t.call.req)
                  && pc.out == ResolveConflict(GetKey(db.keys, KeyOf(t.call.req, t.key)), FingerprintOf(t.call.req)))
            && (pc.InsertStock? ==> t.pc.LockRow? && !HasStock(db.store, t.call.req.org, t.call.req.productId))
  {
  }

  lemma NoMissingRow(db: Db, t: Txn)
    requires StockLinked(db.store) && TxnOk(db, t) && t.pc.LockRow?
    ensures HasStock(db.store, t.call.req.org, t.call.req.productId)
  {
  }

  lemma StepKeepsOrderly(m: Machine, i: nat)
    requires Orderly(m) && CanAdvance(m, i) && !m.txns[i].pc.Commit?
    requires StockLinked(m.db.store) && OrderCovered(m.db, m.txns[i])
    ensures Orderly(Advance(m, i))
  {
    var t := m.txns[i];
    StepKeepsIdentity(m.db, t);
    StepLeadsTo(m.db, t);
    StepKeepsTxnOk(m.db, t);
    if t.pc.LockRow? { NoMissingRow(m.db, t); }
    StepKeepsExclusive(m, i);
  }

  lemma StepKeepsHistory(m: Machine, i: nat)
    requires LogOk(m) && KeysOk(m) && CanAdvance(m, i) && !m.txns[i].pc.Commit?
    ensures LogOk(Advance(m, i)) && KeysOk(Advance(m, i))
  {
    var t, m' := m.txns[i], Advance(m, i);
    StepKeepsIdentity(m.db, t);
    StepLeadsTo(m.db, t);
    assert Answered(m.db.keys, t);
    assert Changed(m, m', i);
    ChangeKeepsLog(m, m', i);
    ChangeKeepsKeys(m, m', i);
  }

  lemma StepKeepsGood(m: Machine, i: nat)
    requires Good(m) && CanAdvance(m, i) && !m.txns[i].pc.Commit?
    ensures Good(Advance(m, i))
  {
    SoundStoreCovers(m.db, m.txns[i]);
    StepKeepsOrderly(m, i);
    StepKeepsHistory(m, i);
  }

  lemma StepKeepsExclusive(m: Machine, i: nat)
    requires CanAdvance(m, i) && !m.txns[i].pc.Commit? && Exclusive(m.txns)
    ensures Exclusive(Advance(m, i).txns)
  {
    StepKeepsIdentity(m.db, m.txns[i]);
    var m' := Advance(m, i);
    forall j | 0 <= j < |m.txns| && j != i ensures m'.txns[i].held !! m.txns[j].held {
      assert m.txns[i].held !! m.txns[j].held;
    }
  }

  // ----- a commit -----

  lemma CommitKeepsOther(db: Db, t: Txn, u: Txn)
    requires DbOk(db) && TxnOk(db, t) && TxnOk(db, u) && t.pc.Commit?
    requires t.held !! u.held && t.call.freshId != u.call.freshId
    ensures TxnOk(CommitDb(db, t), u)
  {
    CommitFrame(db, t);
    CommitFacts(db, t);
    StableTxn(db, CommitDb(db, t), u, t.held, t.call.freshId);
  }

  lemma CommitKeepsTxns(m: Machine, i: nat)
    requires DbOk(m.db) && TxnsOk(m) && Exclusive(m.txns) && DistinctIds(m.txns)
    requires CanAdvance(m, i) && m.txns[i].pc.Commit?
    ensures TxnsOk(Advance(m, i))
  {
    var t, db' := m.txns[i], CommitDb(m.db, m.txns[i]);
    forall j | 0 <= j < |m.txns| ensures TxnOk(db', Advance(m, i).txns[j]) {
      assert TxnOk(m.db, t) && TxnOk(m.db, m.txns[j]);
      if j == i {
        EndedTxn(m.db, t);
      } else {
        assert t.held !! m.txns[j].held && t.call.freshId != m.txns[j].call.freshId;
        CommitKeepsOther(m.db, t, m.txns[j]);
      }
    }
  }

  lemma AppendExplained(log: seq<Entry>, e: Entry)
    requires Explained(log) && Explains(Serial(log), e)
    ensures Explained(log + [e]) && Serial(log + [e]) == StepStore(Serial(log), e.call)
  {
    var log' := log + [e];
    assert log'[..|log|] == log;
    forall k | 0 <= k < |log'| ensures Explains(Serial(log'[..k]), log'[k]) {
      if k < |log| {
        assert log'[..k] == log[..k];
        assert Explains(Serial(log[..k]), log[k]);
      }
    }
  }

  lemma CommitKeepsReplay(m: Machine, i: nat)
    requires CanAdvance(m, i) && m.txns[i].pc.Commit? && TxnOk(m.db, m.txns[i])
    requires m.db.store == Serial(m.log) && Explained(m.log)
    ensures Advance(m, i).db.store == Serial(Advance(m, i).log) && Explained(Advance(m, i).log)
  {
    var t := m.txns[i];
    CommitDecision(m.db, t);
    CommitFacts(m.db, t);
    if t.pc.out.ok {
      AppendExplained(m.log, Entry(i, t.call, t.pc.out));
    } else {
      ApplyNothing(m.db.store);
    }
  }

  lemma CommitKeepsEntries(m: Machine, i: nat)
    requires CanAdvance(m, i) && m.txns[i].pc.Commit?
    requires forall k | 0 <= k < |m.log| :: Logs(m.txns, m.log[k])
    ensures var m' := Advance(m, i); forall k | 0 <= k < |m'.log| :: Logs(m'.txns, m'.log[k])
    ensures forall k | 0 <= k < |m.log| :: m.log[k].txn != i
  {
    var m' := Advance(m, i);
    forall k | 0 <= k < |m'.log| ensures Logs(m'.txns, m'.log[k]) {
      if k < |m.log| {
        assert Logs(m.txns, m.log[k]);
      }
    }
    forall k | 0 <= k < |m.log| ensures m.log[k].txn != i {
      assert Logs(m.txns, m.log[k]);
    }
  }

  lemma CommitKeepsAllLogged(txns: seq<Txn>, log: seq<Entry>, i: nat, t: Txn, e: Entry)
    requires i < |txns| && AllLogged(txns, log) && e.txn == i
    ensures AllLogged(txns[i := t], log + [e])
    ensures !t.pc.Committed? || !t.pc.out.ok ==> AllLogged(txns[i := t], log)
  {
    var log' := log + [e];
    assert log'[|log|] == e;
    forall j | 0 <= j < |txns| && j != i && txns[j].pc.Committed? && txns[j].pc.out.ok ensures InLog(log', j) {
      var k :| 0 <= k < |log| && log[k].txn == j;
      assert log'[k] == log[k];
    }
  }

  lemma CommitKeepsLog(m: Machine, i: nat)
    requires CanAdvance(m, i) && m.txns[i].pc.Commit? && TxnOk(m.db, m.txns[i]) && LogOk(m)
    ensures LogOk(Advance(m, i))
  {
    var t := m.txns[i];
    CommitKeepsReplay(m, i);
    CommitKeepsEntries(m, i);
    CommitKeepsAllLogged(m.txns, m.log, i, End(t, Committed(t.pc.out)), Entry(i, t.call, t.pc.out));
  }

  /** The committed rows of `keys` are still in `keys'`. */
  predicate KeysGrow(keys: map<KeyId, KeyRow>, keys': map<KeyId, KeyRow>) {
    forall id | id in keys :: id in keys' && keys'[id] == keys[id]
  }

  lemma CommitGrowsKeys(m: Machine, i: nat)
    requires TxnsOk(m) && CanAdvance(m, i) && m.txns[i].pc.Commit?
    ensures KeysGrow(m.db.keys, CommitDb(m.db, m.txns[i]).keys)
    ensures Recorded(CommitDb(m.db, m.txns[i]).keys, End(m.txns[i], Committed(m.txns[i].pc.out)))
  {
    CommitFacts(m.db, m.txns[i]);
  }

  lemma CommitIsFirstUnderKey(m: Machine, i: nat)
    requires TxnsOk(m) && KeysOk(m) && CanAdvance(m, i) && m.txns[i].pc.Commit?
    ensures forall j, id | 0 <= j < |m.txns| && j != i && CommittedUnder(m.txns[j], id) ::
              !CommittedUnder(End(m.txns[i], Committed(m.txns[i].pc.out)), id)
  {
    CommitFacts(m.db, m.txns[i]);
    forall j, id | 0 <= j < |m.txns| && j != i && CommittedUnder(m.txns[j], id)
      ensures !CommittedUnder(End(m.txns[i], Committed(m.txns[i].pc.out)), id)
    {
      assert Recorded(m.db.keys, m.txns[j]);
    }
  }

  lemma OwnersKept(m: Machine, m': Machine, i: nat, t: Txn)
    requires i < |m.txns| && !m.txns[i].pc.Committed? && m'.txns == m.txns[i := t]
    requires forall id | id in m.db.keys :: KeyOwned(m, id)
    requires forall id | id in m'.db.keys :: id in m.db.keys || CommittedUnder(t, id)
    ensures forall id | id in m'.db.keys :: KeyOwned(m', id)
  {
    forall id | id in m'.db.keys ensures KeyOwned(m', id) {
      if id in m.db.keys {
        assert KeyOwned(m, id);
        var j :| 0 <= j < |m.txns| && CommittedUnder(m.txns[j], id);
        assert CommittedUnder(m'.txns[j], id);
      } else {
        assert CommittedUnder(m'.txns[i], id);
      }
    }
  }

  lemma CommitKeepsOwners(m: Machine, i: nat)
    requires TxnsOk(m) && KeysOk(m) && CanAdvance(m, i) && m.txns[i].pc.Commit?
    ensures forall id | id in Advance(m, i).db.keys :: KeyOwned(Advance(m, i), id)
  {
    OwnersKept(m, Advance(m, i), i, End(m.txns[i], Committed(m.txns[i].pc.out)));
  }

  lemma CommitKeepsKeys(m: Machine, i: nat)
    requires TxnsOk(m) && KeysOk(m) && CanAdvance(m, i) && m.txns[i].pc.Commit?
    ensures KeysOk(Advance(m, i))
  {
    var t, m' := m.txns[i], Advance(m, i);
    CommitGrowsKeys(m, i);
    CommitIsFirstUnderKey(m, i);
    CommitKeepsOwners(m, i);
    forall j | 0 <= j < |m'.txns|
      ensures Recorded(m'.db.keys, m'.txns[j]) && Answered(m'.db.keys, m'.txns[j])
      ensures m'.txns[j].pc.Replayed? ==> Guarded(m'.txns[j].call.req)
    {
      if j != i {
        assert Recorded(m.db.keys, m.txns[j]) && Answered(m.db.keys, m.txns[j]);
      }
    }
  }

  lemma CommitKeepsOrderly(m: Machine, i: nat)
    requires DbOk(m.db) && Orderly(m) && CanAdvance(m, i) && m.txns[i].pc.Commit?
    ensures Orderly(Advance(m, i))
  {
    CommitKeepsTxns(m, i);
  }

  lemma CommitKeepsGood(m: Machine, i: nat)
    requires Good(m) && CanAdvance(m, i) && m.txns[i].pc.Commit?
    ensures Good(Advance(m, i))
  {
    CommitKeepsDb(m.db, m.txns[i]);
    CommitKeepsOrderly(m, i);
    CommitKeepsLog(m, i);
    CommitKeepsKeys(m, i);
  }

  lemma DoKeepsGood(m: Machine, a: Action)
    requires Good(m) && Enabled(m, a)
    ensures Good(Do(m, a))
  {
    match a
    case Begin(_, _) => BeginKeepsGood(m, a);
    case Abort(_) => AbortKeepsGood(m, a);
    case Step(i) =>
      if m.txns[i].pc.Commit? {
        CommitKeepsGood(m, i);
      } else {
        StepKeepsGood(m, i);
      }
  }

  lemma {:induction false} RunKeepsGood(m: Machine, actions: seq<Action>)
    requires Good(m) && Runs(m, actions)
    ensures Good(After(m, actions))
    decreases |actions|
  {
    if actions != [] {
      DoKeepsGood(m, actions[0]);
      RunKeepsGood(Do(m, actions[0]), actions[1..]);
    }
  }
}
