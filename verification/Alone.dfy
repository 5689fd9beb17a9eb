/** The two models meet: a request run alone on the machine, statement by statement, does and
    answers what `Performed` says, so every serial history is a run of the machine. */
module Alone {
  import opened Tables
  import opened Engine
  import opened StoreInvariant
  import opened Fingerprint
  import opened Idempotency
  import opened StockService
  import opened ServiceGuarantees
  import opened Machine
  import opened TxnInvariant
  import opened TxnFrame
  import opened MachineSafety
  import opened Progress

  // ----- nobody in the way -----

  predicate Spares(r: Resource, req: Request, key: Text) {
    r.KeyLock? && !(Guarded(req) && r.id == KeyOf(req, key))
  }

  /** The other transactions hold at most keys, and not this request's. */
  ghost predicate OutOfWay(txns: seq<Txn>, n: nat, req: Request, key: Text) {
    forall j, r | 0 <= j < |txns| && j != n && r in txns[j].held :: Spares(r, req, key)
  }

  lemma WantsOwnKey(db: Db, t: Txn)
    requires Typed(t) && Wants(db, t).Some?
    ensures !Spares(Wants(db, t).value, t.call.req, t.key)
  {
  }

  lemma NotBlocked(m: Machine, n: nat)
    requires n < |m.txns| && Typed(m.txns[n]) && OutOfWay(m.txns, n, m.txns[n].call.req, m.txns[n].key)
    ensures !Blocked(m, n)
  {
    if Wants(m.db, m.txns[n]).Some? {
      WantsOwnKey(m.db, m.txns[n]);
    }
  }

  // ----- what a lone transaction knows besides -----

  ghost predicate Clear(db: Db, t: Txn) {
    Guarded(t.call.req) ==> TurnedAway(db.store, t.call.req).None?
  }

  /** Nothing has been committed since the transaction began, so what it read still stands. */
  ghost predicate Solo(db: Db, t: Txn)
    requires Typed(t)
  {
    match t.pc
    case Precheck => true
    case Resolve => Clear(db, t) && KeyOf(t.call.req, t.key) in db.keys
    case ReadStatus => Clear(db, t) && !IsPending(db.store, Org(t), t.call.req.orderId)
    case Complete(out) => Clear(db, t) && Exec(db.store, t.call) == Decision(t.effect, out)
    case Commit(out) => Clear(db, t) && Exec(db.store, t.call) == Decision(t.effect, out)
    case Refused(out) => Performed(db, t.call, t.key) == (db, Answer(out))
    case Replayed(out) => Performed(db, t.call, t.key) == (db, Answer(out))
    case InsertStock => false
    case Committed(_) => false
    case Violated => false
    case Aborted => false
    case _ => Clear(db, t)
  }

  lemma TurnedAwayIsPrechecked(db: Db, t: Txn)
    requires t.call.req.Reserve?
    ensures TurnedAway(db.store, t.call.req).None? <==> Prechecked(db, t)
  {
  }

  lemma PrecheckOutcome(db: Db, t: Txn)
    requires Typed(t) && t.pc.Precheck? && !Prechecked(db, t)
    ensures Stepped(db, t).pc.Refused?
    ensures TurnedAway(db.store, t.call.req) == Some(Stepped(db, t).pc.out)
  {
  }

  lemma SoloPrecheck(db: Db, t: Txn)
    requires Typed(t) && t.pc.Precheck? && TxnOk(db, Stepped(db, t))
    ensures Solo(db, Stepped(db, t))
  {
    var out := PrecheckMove(db, t);
    TurnedAwayIsPrechecked(db, t);
    if !Prechecked(db, t) {
      PrecheckOutcome(db, t);
    }
  }

  lemma SoloClaim(db: Db, t: Txn)
    requires Typed(t) && t.pc.Claim? && Clear(db, t) && TxnOk(db, Stepped(db, t))
    ensures Solo(db, Stepped(db, t))
  {
    ClaimMove(db, t);
  }

  lemma SoloResolve(db: Db, t: Txn)
    requires Typed(t) && t.pc.Resolve? && Clear(db, t) && KeyOf(t.call.req, t.key) in db.keys
    requires TxnOk(db, Stepped(db, t))
    ensures Solo(db, Stepped(db, t))
  {
    ResolveMove(db, t);
  }

  lemma SoloOrder(db: Db, t: Txn)
    requires Typed(t) && OrderPc(t.pc) && Solo(db, t) && TxnOk(db, Stepped(db, t))
    requires t.pc.ReadStatus? ==> t.effect == NO_EFFECT
    ensures Solo(db, Stepped(db, t))
  {
    if t.pc.TakeOrder? {
      TakeOrderMove(db, t);
    } else if t.pc.ReadStatus? {
      ReadStatusMove(db, t);
    } else {
      ReadItemsMove(db, t);
    }
  }

  /** A firm answer is the serial one, whoever else is running. */
  lemma SoloFirm(db: Db, t: Txn)
    requires TxnOk(db, t) && (t.pc.Complete? || t.pc.Commit?) && Firm(t.call.req, t.pc.out) && Clear(db, t)
    ensures Solo(db, t)
  {
    if t.pc.Complete? {
      AtComplete(db, t, t.pc.out);
    } else {
      AtCommit(db, t, t.pc.out);
    }
  }

  lemma SoloReadProduct(db: Db, t: Txn)
    requires Typed(t) && t.pc.ReadProduct? && Clear(db, t) && t.effect == NO_EFFECT && TxnOk(db, Stepped(db, t))
    ensures Solo(db, Stepped(db, t))
  {
    ReadProductMove(db, t);
  }

  lemma SoloLockRow(db: Db, t: Txn)
    requires Typed(t) && t.pc.LockRow? && Clear(db, t) && HasStock(db.store, Org(t), t.call.req.productId)
    requires TxnOk(db, Stepped(db, t))
    ensures Solo(db, Stepped(db, t))
  {
    LockRowMove(db, t);
  }

  lemma SoloAdjusting(db: Db, t: Txn)
    requires Typed(t) && t.pc.Adjusting? && Clear(db, t) && TxnOk(db, Stepped(db, t))
    ensures Solo(db, Stepped(db, t))
  {
    AdjustingMove(db, t);
    SoloFirm(db, Stepped(db, t));
  }

  lemma SoloComplete(db: Db, t: Txn)
    requires Typed(t) && t.pc.Complete? && t.keyRow.Some? && Solo(db, t) && TxnOk(db, Stepped(db, t))
    ensures Solo(db, Stepped(db, t))
  {
    CompleteMove(db, t);
  }

  lemma SoloInsertProduct(db: Db, t: Txn)
    requires Typed(t) && t.pc.InsertProduct? && TxnOk(db, Stepped(db, t))
    ensures Solo(db, Stepped(db, t))
  {
    InsertProductMove(db, t);
    ApplyNothing(db.store);
  }

  lemma SoloInsertInitial(db: Db, t: Txn)
    requires Typed(t) && t.pc.InsertInitial? && TxnOk(db, Stepped(db, t))
    ensures Solo(db, Stepped(db, t))
  {
    InsertInitialMove(db, t);
    SoloFirm(db, Stepped(db, t));
  }

  lemma SoloLocks(db: Db, t: Txn)
    requires Typed(t) && (t.pc.FindRows? || t.pc.LockRows?) && Clear(db, t) && TxnOk(db, Stepped(db, t))
    ensures Solo(db, Stepped(db, t))
  {
  }

  lemma SoloCheck(db: Db, t: Txn)
    requires Typed(t) && t.pc.CheckStock? && Clear(db, t) && TxnOk(db, Stepped(db, t))
    ensures Solo(db, Stepped(db, t))
  {
    CheckMove(db, t);
    if Stepped(db, t).pc.Complete? {
      SoloFirm(db, Stepped(db, t));
    }
  }

  lemma SoloWrites(db: Db, t: Txn)
    requires Typed(t) && t.pc.WriteRows? && Clear(db, t) && TxnOk(db, Stepped(db, t)) && !Stepped(db, t).pc.Violated?
    ensures Solo(db, Stepped(db, t))
  {
  }

  lemma SoloInsert(db: Db, t: Txn)
    requires Typed(t) && t.pc.InsertRows? && Clear(db, t) && TxnOk(db, Stepped(db, t))
    ensures Solo(db, Stepped(db, t))
  {
    if t.call.req.Reserve? {
      ReservedMove(db, t);
    } else {
      MovedMove(db, t);
    }
    SoloFirm(db, Stepped(db, t));
  }

  lemma SoloOpening(db: Db, t: Txn)
    requires TxnOk(db, t) && Solo(db, t) && OpeningPc(t.pc) && TxnOk(db, Stepped(db, t))
    ensures Solo(db, Stepped(db, t))
  {
    if t.pc.Precheck? {
      SoloPrecheck(db, t);
    } else if t.pc.Claim? {
      SoloClaim(db, t);
    } else if t.pc.Resolve? {
      SoloResolve(db, t);
    } else {
      AtComplete(db, t, t.pc.out);
      SoloComplete(db, t);
    }
  }

  lemma SoloTaking(db: Db, t: Txn)
    requires TxnOk(db, t) && Solo(db, t) && OrderPc(t.pc) && TxnOk(db, Stepped(db, t))
    ensures Solo(db, Stepped(db, t))
  {
    if t.pc.ReadStatus? {
      AtOnlyClaimed(db, t);
    }
    SoloOrder(db, t);
  }

  lemma SoloFront(db: Db, t: Txn)
    requires TxnOk(db, t) && Solo(db, t) && (OpeningPc(t.pc) || OrderPc(t.pc)) && TxnOk(db, Stepped(db, t))
    ensures Solo(db, Stepped(db, t))
  {
    if OpeningPc(t.pc) {
      SoloOpening(db, t);
    } else {
      SoloTaking(db, t);
    }
  }

  lemma SoloLines(db: Db, t: Txn)
    requires TxnOk(db, t) && Solo(db, t) && LinesPc(t.pc) && TxnOk(db, Stepped(db, t)) && !Stepped(db, t).pc.Violated?
    ensures Solo(db, Stepped(db, t))
  {
    if t.pc.CheckStock? {
      SoloCheck(db, t);
    } else if t.pc.WriteRows? {
      SoloWrites(db, t);
    } else if t.pc.InsertRows? {
      SoloInsert(db, t);
    } else {
      SoloLocks(db, t);
    }
  }

  lemma SoloStock(db: Db, t: Txn)
    requires TxnOk(db, t) && Solo(db, t) && StockLinked(db.store)
    requires t.pc.ReadProduct? || t.pc.LockRow? || t.pc.Adjusting? || t.pc.InsertProduct? || t.pc.InsertInitial?
    requires TxnOk(db, Stepped(db, t))
    ensures Solo(db, Stepped(db, t))
  {
    if t.pc.ReadProduct? {
      AtOnlyClaimed(db, t);
      SoloReadProduct(db, t);
    } else if t.pc.LockRow? {
      AtLockRow(db, t);
      SoloLockRow(db, t);
    } else if t.pc.Adjusting? {
      SoloAdjusting(db, t);
    } else if t.pc.InsertProduct? {
      SoloInsertProduct(db, t);
    } else {
      SoloInsertInitial(db, t);
    }
  }

  lemma SoloStep(db: Db, t: Txn)
    requires TxnOk(db, t) && Solo(db, t) && !t.pc.Commit? && !Finished(t.pc)
    requires StockLinked(db.store) && TxnOk(db, Stepped(db, t)) && !Stepped(db, t).pc.Violated?
    ensures Solo(db, Stepped(db, t))
  {
    if OpeningPc(t.pc) || OrderPc(t.pc) {
      SoloFront(db, t);
    } else if LinesPc(t.pc) {
      SoloLines(db, t);
    } else {
      SoloStock(db, t);
    }
  }

  /** What a lone transaction commits, and the answer it is given. */
  lemma SoloCommit(db: Db, t: Txn)
    requires TxnOk(db, t) && t.pc.Commit? && Solo(db, t)
    ensures WellFormed(t.call.req) && Performed(db, t.call, t.key) == (CommitDb(db, t), Answer(t.pc.out))
  {
    CommitFacts(db, t);
  }

  // ----- the lone run -----

  ghost predicate StepsOf(actions: seq<Action>, n: nat) {
    forall a | a in actions :: a == Step(n)
  }

  /** From `m` to `m'` transaction `n` alone has run, to the end. */
  ghost predicate RanAlone(m: Machine, m': Machine, n: nat)
    requires n < |m.txns| && WellFormed(m.txns[n].call.req)
  {
    var t := m.txns[n];
    && |m'.txns| == |m.txns| && (forall j | 0 <= j < |m.txns| && j != n :: m'.txns[j] == m.txns[j])
    && m'.txns[n].call == t.call && m'.txns[n].key == t.key && GotAnswer(m'.txns[n].pc)
    && Performed(m.db, t.call, t.key) == (m'.db, Answer(m'.txns[n].pc.out))
    && m'.log == if m'.txns[n].pc.Committed? && m'.txns[n].pc.out.ok
                 then m.log + [Entry(n, t.call, m'.txns[n].pc.out)] else m.log
  }

  lemma CommittedRan(m: Machine, m': Machine, n: nat, t: Txn, out: Outcome)
    requires n < |m.txns| && m.txns[n] == t && WellFormed(t.call.req)
    requires m'.txns == m.txns[n := End(t, Committed(out))]
    requires m'.log == if out.ok then m.log + [Entry(n, t.call, out)] else m.log
    requires Performed(m.db, t.call, t.key) == (m'.db, Answer(out))
    ensures RanAlone(m, m', n)
  {
  }

  lemma CommitsAlone(m: Machine, n: nat)
    requires CanAdvance(m, n) && m.txns[n].pc.Commit? && TxnOk(m.db, m.txns[n]) && Solo(m.db, m.txns[n])
    ensures WellFormed(m.txns[n].call.req) && RanAlone(m, Do(m, Step(n)), n)
  {
    SoloCommit(m.db, m.txns[n]);
    CommittedRan(m, Do(m, Step(n)), n, m.txns[n], m.txns[n].pc.out);
  }

  lemma EndedAlone(m: Machine, n: nat)
    requires n < |m.txns| && TxnOk(m.db, m.txns[n]) && Solo(m.db, m.txns[n]) && Finished(m.txns[n].pc)
    ensures WellFormed(m.txns[n].call.req) && RanAlone(m, m, n)
  {
  }

  /** `m'` is `m` with one statement of `n` done, nothing committed. */
  ghost predicate OneStatement(m: Machine, m': Machine, n: nat) {
    && n < |m.txns| == |m'.txns| && m' == m.(txns := m.txns[n := m'.txns[n]])
    && m'.txns[n].call == m.txns[n].call && m'.txns[n].key == m.txns[n].key
  }

  lemma StatementAlone(m: Machine, n: nat)
    requires Good(m) && CanAdvance(m, n) && !m.txns[n].pc.Commit? && Solo(m.db, m.txns[n])
    requires Good(Do(m, Step(n)))
    ensures var m' := Do(m, Step(n));
            OneStatement(m, m', n) && Typed(m'.txns[n]) && Solo(m'.db, m'.txns[n])
  {
    assert TxnOk(m.db, m.txns[n]) && TxnOk(m.db, Do(m, Step(n)).txns[n]);
    StepKeepsIdentity(m.db, m.txns[n]);
    SoloStep(m.db, m.txns[n]);
  }

  lemma AloneThen(m: Machine, next: Machine, last: Machine, n: nat)
    requires OneStatement(m, next, n) && WellFormed(m.txns[n].call.req) && RanAlone(next, last, n)
    ensures RanAlone(m, last, n)
  {
  }

  /** Transaction `n` runs with nobody in its way, and has seen no commit since it began. */
  ghost predicate Lone(m: Machine, n: nat) {
    && n < |m.txns| && Typed(m.txns[n]) && Solo(m.db, m.txns[n])
    && OutOfWay(m.txns, n, m.txns[n].call.req, m.txns[n].key)
  }

  /** The next statement of a lone transaction can run, and leaves it so or ends it. */
  lemma AdvancesAlone(m: Machine, n: nat)
    requires Good(m) && Lone(m, n) && !Finished(m.txns[n].pc)
    ensures CanAdvance(m, n) && Good(Do(m, Step(n))) && LessWork(Do(m, Step(n)), m)
    ensures var next := Do(m, Step(n));
            if m.txns[n].pc.Commit? then RanAlone(m, next, n)
            else OneStatement(m, next, n) && Typed(next.txns[n]) && Solo(next.db, next.txns[n])
  {
    assert TxnOk(m.db, m.txns[n]);
    NotBlocked(m, n);
    DoKeepsGood(m, Step(n));
    ActionShrinks(m, Step(n));
    if m.txns[n].pc.Commit? {
      CommitsAlone(m, n);
    } else {
      StatementAlone(m, n);
    }
  }

  lemma StaysLone(m: Machine, next: Machine, n: nat)
    requires Lone(m, n) && OneStatement(m, next, n) && Typed(next.txns[n]) && Solo(next.db, next.txns[n])
    ensures Lone(next, n)
  {
  }

  lemma Prefixed(m: Machine, n: nat, next: Machine, rest: seq<Action>) returns (actions: seq<Action>)
    requires CanAdvance(m, n) && next == Do(m, Step(n)) && Runs(next, rest) && StepsOf(rest, n)
    ensures Runs(m, actions) && StepsOf(actions, n) && After(m, actions) == After(next, rest)
  {
    actions := [Step(n)] + rest;
    OneThen(m, Step(n), rest);
  }

  lemma LastStatement(m: Machine, n: nat) returns (actions: seq<Action>)
    requires Good(m) && Lone(m, n) && m.txns[n].pc.Commit?
    ensures Runs(m, actions) && StepsOf(actions, n) && RanAlone(m, After(m, actions), n)
  {
    AdvancesAlone(m, n);
    actions := Prefixed(m, n, Do(m, Step(n)), []);
  }

  /** A lone transaction runs to its end, and ends as `Performed` says. */
  lemma {:induction false} RunAlone(m: Machine, n: nat) returns (actions: seq<Action>)
    requires Good(m) && Lone(m, n)
    ensures Runs(m, actions) && StepsOf(actions, n) && RanAlone(m, After(m, actions), n)
    decreases TotalStages(m.txns), TotalRows(m.txns)
  {
    if Finished(m.txns[n].pc) {
      assert TxnOk(m.db, m.txns[n]);
      EndedAlone(m, n);
      actions := [];
    } else if m.txns[n].pc.Commit? {
      actions := LastStatement(m, n);
    } else {
      AdvancesAlone(m, n);
      var next := Do(m, Step(n));
      StaysLone(m, next, n);
      var rest := RunAlone(next, n);
      AloneThen(m, next, After(next, rest), n);
      actions := Prefixed(m, n, next, rest);
    }
  }

  lemma BegunIsLone(m: Machine, c: Call, key: Text)
    requires Good(m) && Enabled(m, Begin(c, key)) && OutOfWay(m.txns, |m.txns|, c.req, key)
    ensures var m' := Do(m, Begin(c, key));
            Good(m') && Lone(m', |m.txns|) && m' == m.(txns := m.txns + [Start(c, key)])
  {
    DoKeepsGood(m, Begin(c, key));
    StartIsSolo(m.db, c, key);
  }

  lemma StartIsSolo(db: Db, c: Call, key: Text)
    requires WellFormed(c.req)
    ensures Typed(Start(c, key)) && Solo(db, Start(c, key))
  {
  }

  /** What a request begun in `m` and run alone leaves: the database, the answer and the log entry
      of `Performed`, and every other transaction as it was. */
  ghost predicate PerformedAlone(m: Machine, m': Machine, c: Call, key: Text)
    requires WellFormed(c.req)
  {
    var n := |m.txns|;
    && |m'.txns| == n + 1 && m'.txns[..n] == m.txns && m'.txns[n].call == c && m'.txns[n].key == key
    && GotAnswer(m'.txns[n].pc) && Performed(m.db, c, key) == (m'.db, Answer(m'.txns[n].pc.out))
    && m'.log == if m'.txns[n].pc.Committed? && m'.txns[n].pc.out.ok
                 then m.log + [Entry(n, c, m'.txns[n].pc.out)] else m.log
  }

  lemma BegunAndRan(m: Machine, begun: Machine, last: Machine, c: Call, key: Text)
    requires WellFormed(c.req) && begun == m.(txns := m.txns + [Start(c, key)]) && RanAlone(begun, last, |m.txns|)
    ensures PerformedAlone(m, last, c, key)
  {
  }

  /** Any request, begun in any good state and run with nobody in its way, ends with the database
      and the answer of `Performed`: the machine's statements and the service's loops agree. */
  lemma AloneIsPerformed(m: Machine, c: Call, key: Text) returns (actions: seq<Action>)
    requires Good(m) && WellFormed(c.req) && NewId(m, c.freshId) && OutOfWay(m.txns, |m.txns|, c.req, key)
    ensures Runs(m, actions) && Good(After(m, actions)) && PerformedAlone(m, After(m, actions), c, key)
  {
    BegunIsLone(m, c, key);
    var begun := Do(m, Begin(c, key));
    var rest := RunAlone(begun, |m.txns|);
    RunKeepsGood(begun, rest);
    BegunAndRan(m, begun, After(begun, rest), c, key);
    actions := [Begin(c, key)] + rest;
    OneThen(m, Begin(c, key), rest);
  }

  // ----- every serial history is a run -----

  ghost predicate IdsNew(txns: seq<Txn>, servings: seq<Serving>) {
    && (forall i, k | 0 <= i < |txns| && 0 <= k < |servings| :: txns[i].call.freshId != servings[k].call.freshId)
    && (forall k, l | 0 <= k < l < |servings| :: servings[k].call.freshId != servings[l].call.freshId)
  }

  lemma FinishedHoldsNothing(m: Machine, req: Request, key: Text)
    requires Good(m) && AllFinished(m)
    ensures OutOfWay(m.txns, |m.txns|, req, key)
  {
    forall j | 0 <= j < |m.txns| ensures m.txns[j].held == {} {
      assert TxnOk(m.db, m.txns[j]);
      AtEnd(m.db, m.txns[j]);
    }
  }

  lemma {:induction false} RestSent(db: Db, db': Db, servings: seq<Serving>)
    requires servings != [] && AllSent(db, servings) && db' == Next(db, servings[0])
    ensures AllSent(db', servings[1..]) && AfterAll(db, servings) == AfterAll(db', servings[1..])
  {
  }

  ghost predicate OneMore(txns: seq<Txn>, txns': seq<Txn>, c: Call) {
    && |txns'| == |txns| + 1 && (forall j | 0 <= j < |txns| :: txns'[j] == txns[j])
    && txns'[|txns|].call == c && Finished(txns'[|txns|].pc)
  }

  lemma PerformedIsOneMore(m: Machine, m': Machine, c: Call, key: Text)
    requires WellFormed(c.req) && PerformedAlone(m, m', c, key)
    ensures OneMore(m.txns, m'.txns, c) && m'.db == Next(m.db, Serving(c, key))
  {
    forall j | 0 <= j < |m.txns| ensures m'.txns[j] == m.txns[j] {
      assert m'.txns[..|m.txns|][j] == m.txns[j];
    }
  }

  lemma {:induction false} RestNew(txns: seq<Txn>, txns': seq<Txn>, servings: seq<Serving>)
    requires servings != [] && IdsNew(txns, servings) && OneMore(txns, txns', servings[0].call)
    ensures IdsNew(txns', servings[1..])
  {
  }

  lemma AllFinishedThen(m: Machine, m': Machine, c: Call)
    requires AllFinished(m) && OneMore(m.txns, m'.txns, c)
    ensures AllFinished(m')
  {
  }

  /** The answers of requests served one after another. */
  ghost function Replies(db: Db, servings: seq<Serving>): (r: seq<Reply>)
    requires AllSent(db, servings)
    ensures |r| == |servings|
    decreases |servings|
  {
    if servings == [] then []
    else [Performed(db, servings[0].call, servings[0].key).1] + Replies(Next(db, servings[0]), servings[1..])
  }

  ghost predicate Gives(t: Txn, reply: Reply) {
    GotAnswer(t.pc) && Answer(t.pc.out) == reply
  }

  /** From `txns` to `txns'` only new transactions were added, answered so in this order. */
  ghost predicate AnsweredSo(txns: seq<Txn>, txns': seq<Txn>, replies: seq<Reply>) {
    && |txns'| == |txns| + |replies| && (forall j | 0 <= j < |txns| :: txns'[j] == txns[j])
    && forall k | 0 <= k < |replies| :: Gives(txns'[|txns| + k], replies[k])
  }

  lemma AnswersThen(txns: seq<Txn>, next: seq<Txn>, last: seq<Txn>, c: Call, reply: Reply, rest: seq<Reply>)
    requires OneMore(txns, next, c) && Gives(next[|txns|], reply) && AnsweredSo(next, last, rest)
    ensures AnsweredSo(txns, last, [reply] + rest)
  {
    var n, replies := |txns|, [reply] + rest;
    forall k | 0 <= k < |replies| ensures Gives(last[n + k], replies[k]) {
      if k == 0 {
        assert last[n] == next[n];
      } else {
        assert replies[k] == rest[k - 1];
        assert |next| + (k - 1) == n + k;
      }
    }
    assert forall j | 0 <= j < n :: last[j] == next[j];
  }

  /** Requests served one after another are a run of the machine, with the same database and the
      same answers. */
  lemma {:induction false} SerialRuns(m: Machine, servings: seq<Serving>) returns (actions: seq<Action>)
    requires Good(m) && AllFinished(m) && AllSent(m.db, servings) && IdsNew(m.txns, servings)
    ensures Runs(m, actions) && AllFinished(After(m, actions)) && Good(After(m, actions))
    ensures After(m, actions).db == AfterAll(m.db, servings)
    ensures AnsweredSo(m.txns, After(m, actions).txns, Replies(m.db, servings))
    decreases |servings|
  {
    if servings == [] {
      actions := [];
    } else {
      var c, key := servings[0].call, servings[0].key;
      FinishedHoldsNothing(m, c.req, key);
      var first := AloneIsPerformed(m, c, key);
      var next := After(m, first);
      PerformedIsOneMore(m, next, c, key);
      AllFinishedThen(m, next, c);
      RestSent(m.db, next.db, servings);
      RestNew(m.txns, next.txns, servings);
      var rest := SerialRuns(next, servings[1..]);
      RunsConcat(m, first, rest);
      AnswersThen(m.txns, next.txns, After(next, rest).txns, c, Performed(m.db, c, key).1,
                  Replies(next.db, servings[1..]));
      actions := first + rest;
    }
  }

  /** Whatever `Performed` reaches and answers by serving requests one after another from an empty
      database, some run of the machine reaches and answers. */
  lemma EverySerialHistoryRuns(servings: seq<Serving>) returns (actions: seq<Action>)
    requires AllSent(INITIAL.db, servings) && IdsNew([], servings)
    ensures Runs(INITIAL, actions) && After(INITIAL, actions).db == AfterAll(INITIAL.db, servings)
    ensures AnsweredSo([], After(INITIAL, actions).txns, Replies(INITIAL.db, servings))
  {
    InitialGood();
    actions := SerialRuns(INITIAL, servings);
  }
}
