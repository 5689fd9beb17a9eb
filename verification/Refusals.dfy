/** The refusals that rest on rows read without a lock: when such an answer is the serial one, and
    the run in which it is not. */
module Refusals {
  import opened Tables
  import opened Engine
  import opened StoreInvariant
  import opened Fingerprint
  import opened Idempotency
  import opened StockService
  import opened Machine
  import opened TxnInvariant
  import opened MachineSafety
  import opened RunHistory
  import opened Progress
  import opened Alone

  // ----- at the statement that reads -----

  predicate Reads(pc: Pc) {
    pc.ReadStatus? || pc.ReadProduct? || pc.InsertProduct?
  }

  /** The statement turns the request down. */
  ghost predicate TurnsDown(db: Db, t: Txn, out: Outcome)
    requires Typed(t) && Reads(t.pc)
  {
    Stepped(db, t).pc == Complete(out) || Stepped(db, t).pc == Refused(out)
  }

  predicate PendingAfterAll(out: Outcome) {
    out.body == NotPending(Pending)
  }

  lemma OrderRefused(db: Db, t: Txn, out: Outcome)
    requires Typed(t) && t.pc.ReadStatus? && TurnsDown(db, t, out)
    ensures PendingAfterAll(out) <==> IsPending(db.store, Org(t), t.call.req.orderId)
    ensures Exec(db.store, t.call) == Decision(NO_EFFECT, out) <==> !PendingAfterAll(out)
  {
    ReadStatusMove(db, t);
  }

  lemma ProductRefused(db: Db, t: Txn, out: Outcome)
    requires Typed(t) && (t.pc.ReadProduct? || t.pc.InsertProduct?) && TurnsDown(db, t, out)
    ensures Exec(db.store, t.call) == Decision(NO_EFFECT, out) && !PendingAfterAll(out)
  {
    if t.pc.ReadProduct? {
      ReadProductMove(db, t);
    } else {
      InsertProductMove(db, t);
    }
  }

  /** An order's refusal, an unknown product's and a taken SKU's are what the request run alone at
      that statement would be answered, with one exception: 409 with the status `pending`. It is
      given exactly when the order has become pending since the UPDATE missed it. */
  lemma RefusalIsSerialUnlessPending(actions: seq<Action>, i: nat, out: Outcome)
    requires Runs(INITIAL, actions) && CanAdvance(After(INITIAL, actions), i)
    requires var m := After(INITIAL, actions); Reads(m.txns[i].pc) && TurnsDown(m.db, m.txns[i], out)
    ensures var m := After(INITIAL, actions);
            var t := m.txns[i];
            && (Exec(m.db.store, t.call) == Decision(NO_EFFECT, out) <==> !PendingAfterAll(out))
            && (PendingAfterAll(out) <==> t.pc.ReadStatus? && IsPending(m.db.store, Org(t), t.call.req.orderId))
  {
    var m := After(INITIAL, actions);
    if m.txns[i].pc.ReadStatus? {
      OrderRefused(m.db, m.txns[i], out);
    } else {
      ProductRefused(m.db, m.txns[i], out);
    }
  }

  // ----- an order id guessed before its creation commits -----

  /** A transition whose UPDATE has found no order and whose SELECT comes next. */
  function Waiting(c: Call, key: Text): Txn
    requires Transition(c.req)
  {
    Txn(c, key, ReadStatus, {KeyLock(KeyOf(c.req, key))}, [], map[], NO_EFFECT, Some(ClaimedRow(FingerprintOf(c.req))))
  }

  ghost predicate Guesses(m: Machine, c: Call, key: Text) {
    && Good(m) && AllFinished(m) && Transition(c.req) && NewId(m, c.freshId)
    && KeyOf(c.req, key) !in m.db.keys && c.req.orderId !in m.db.store.orders
  }

  lemma NobodyHolds(m: Machine, r: Resource)
    requires Good(m) && AllFinished(m)
    ensures forall j | 0 <= j < |m.txns| :: r !in m.txns[j].held
  {
    forall j | 0 <= j < |m.txns| ensures m.txns[j].held == {} {
      assert TxnOk(m.db, m.txns[j]);
      AtEnd(m.db, m.txns[j]);
    }
  }

  /** Transaction `n` can do its next statement, which needs nothing and commits nothing. */
  lemma PlainStep(m: Machine, n: nat)
    requires n < |m.txns| && Typed(m.txns[n]) && !m.txns[n].pc.Commit? && !Finished(m.txns[n].pc)
    requires Wants(m.db, m.txns[n]).Some? ==>
               forall j | 0 <= j < |m.txns| && j != n :: Wants(m.db, m.txns[n]).value !in m.txns[j].held
    ensures CanAdvance(m, n) && Do(m, Step(n)) == m.(txns := m.txns[n := Stepped(m.db, m.txns[n])])
  {
  }

  function Claiming(c: Call, key: Text): Txn
    requires Transition(c.req)
  {
    Waiting(c, key).(pc := TakeOrder)
  }

  lemma ClaimingIs(db: Db, c: Call, key: Text)
    requires Transition(c.req) && KeyOf(c.req, key) !in db.keys
    ensures Stepped(db, Start(c, key)) == Claiming(c, key)
  {
    ClaimMove(db, Start(c, key));
    assert Stepped(db, Start(c, key)).held == {KeyLock(KeyOf(c.req, key))};
  }

  lemma Claims(m: Machine, c: Call, key: Text) returns (actions: seq<Action>)
    requires Guesses(m, c, key)
    ensures Runs(m, actions) && After(m, actions) == m.(txns := m.txns + [Claiming(c, key)])
  {
    var n := |m.txns|;
    var begun := Do(m, Begin(c, key));
    NobodyHolds(m, KeyLock(KeyOf(c.req, key)));
    PlainStep(begun, n);
    ClaimingIs(m.db, c, key);
    OneThen(begun, Step(n), []);
    OneThen(m, Begin(c, key), [Step(n)]);
    actions := [Begin(c, key)] + [Step(n)];
    assert (m.txns + [Start(c, key)])[n := Claiming(c, key)] == m.txns + [Claiming(c, key)];
  }

  lemma ClaimsAndMisses(m: Machine, c: Call, key: Text) returns (actions: seq<Action>)
    requires Guesses(m, c, key)
    ensures Runs(m, actions) && After(m, actions) == m.(txns := m.txns + [Waiting(c, key)])
  {
    var n := |m.txns|;
    var claims := Claims(m, c, key);
    var claimed := After(m, claims);
    PlainStep(claimed, n);
    TakeOrderMove(m.db, Claiming(c, key));
    OneThen(claimed, Step(n), []);
    RunsConcat(m, claims, [Step(n)]);
    actions := claims + [Step(n)];
    assert (m.txns + [Claiming(c, key)])[n := Waiting(c, key)] == m.txns + [Waiting(c, key)];
  }

  /** From its SELECT on the transition needs nothing more: it is refused with what it reads. */
  ghost predicate RefusedWith(m: Machine, m': Machine, n: nat, c: Call, key: Text, out: Outcome) {
    && n < |m'.txns| && m'.db.store == m.db.store
    && m'.txns[n].call == c && m'.txns[n].key == key && m'.txns[n].pc == Committed(out)
  }

  lemma CommitsRefusal(m: Machine, n: nat, t: Txn, out: Outcome)
    requires n < |m.txns| && m.txns[n] == t && Typed(t) && t.pc == Commit(out) && t.effect == NO_EFFECT
    ensures CanAdvance(m, n) && RefusedWith(m, Do(m, Step(n)), n, t.call, t.key, out)
  {
    ApplyNothing(m.db.store);
  }

  lemma Completes(m: Machine, n: nat, t: Txn, out: Outcome) returns (actions: seq<Action>)
    requires n < |m.txns| && m.txns[n] == t && Typed(t) && t.pc == Complete(out)
    requires t.effect == NO_EFFECT && t.keyRow.Some?
    ensures Runs(m, actions) && RefusedWith(m, After(m, actions), n, t.call, t.key, out)
  {
    PlainStep(m, n);
    CompleteMove(m.db, t);
    var completed := Do(m, Step(n));
    CommitsRefusal(completed, n, completed.txns[n], out);
    OneThen(completed, Step(n), []);
    OneThen(m, Step(n), [Step(n)]);
    actions := [Step(n)] + [Step(n)];
  }

  lemma ReadsAndCommits(m: Machine, n: nat, c: Call, key: Text) returns (actions: seq<Action>)
    requires n < |m.txns| && Transition(c.req) && m.txns[n] == Waiting(c, key)
    ensures Runs(m, actions)
    ensures RefusedWith(m, After(m, actions), n, c, key, Refusal(m.db.store, c.req.org, c.req.orderId))
  {
    PlainStep(m, n);
    ReadStatusMove(m.db, Waiting(c, key));
    var read := Do(m, Step(n));
    var rest := Completes(read, n, read.txns[n], Refusal(m.db.store, c.req.org, c.req.orderId));
    OneThen(m, Step(n), rest);
    actions := [Step(n)] + rest;
  }

  // ----- the reservation commits in between -----

  ghost predicate WouldReserve(db: Db, c: Call, key: Text) {
    && c.req.Reserve? && WellFormed(c.req) && TurnedAway(db.store, c.req).None? && KeyOf(c.req, key) !in db.keys
    && Exec(db.store, c).Decision? && Exec(db.store, c).outcome.ok
  }

  predicate Names(guess: Call, c: Call) {
    Transition(guess.req) && c.req.Reserve? && guess.req.orderId == c.freshId && guess.req.org == c.req.org
  }

  /** `c` would reserve, and its order's id is the one guessed. */
  ghost predicate Reserves(m: Machine, c: Call, key: Text, guess: Call) {
    WouldReserve(m.db, c, key) && NewId(m, c.freshId) && c.freshId != guess.freshId && Names(guess, c)
  }

  lemma ReservedOrderIsPending(db: Db, c: Call, key: Text)
    requires WouldReserve(db, c, key)
    ensures IsPending(Performed(db, c, key).0.store, c.req.org, c.freshId)
  {
  }

  /** A release or fulfilment of a guessed id: its UPDATE finds no order, the reservation that has
      been given this id commits, and the SELECT then reads `pending`. The answer is a 409 that
      names the status the transition asks for, on record under its key. */
  ghost predicate RefusedThoughPending(m: Machine, i: nat, c: Call, key: Text) {
    && i < |m.txns| && m.txns[i].call == c && m.txns[i].key == key && Transition(c.req)
    && m.txns[i].pc == Committed(Outcome(false, 409, NotPending(Pending)))
    && IsPending(m.db.store, c.req.org, c.req.orderId)
  }

  lemma WaitingIsOutOfWay(txns: seq<Txn>, guess: Call, guessKey: Text, c: Call, key: Text)
    requires Names(guess, c) && OutOfWay(txns, |txns|, c.req, key)
    ensures var all := txns + [Waiting(guess, guessKey)]; OutOfWay(all, |all|, c.req, key)
  {
  }

  lemma StillNewId(m: Machine, t: Txn, id: Uuid)
    requires NewId(m, id) && t.call.freshId != id
    ensures NewId(m.(txns := m.txns + [t]), id)
  {
  }

  lemma ReadsPending(m: Machine, n: nat, c: Call, key: Text) returns (actions: seq<Action>)
    requires Overtaken(m, n, c, key)
    ensures Runs(m, actions) && RefusedThoughPending(After(m, actions), n, c, key)
  {
    actions := ReadsAndCommits(m, n, c, key);
  }

  /** The order is there, and the transition still waits. */
  ghost predicate Overtaken(m: Machine, n: nat, c: Call, key: Text) {
    && n < |m.txns| && Transition(c.req) && m.txns[n] == Waiting(c, key)
    && IsPending(m.db.store, c.req.org, c.req.orderId)
  }

  lemma KeepsWaiting(txns: seq<Txn>, t: Txn, txns': seq<Txn>, c: Call)
    requires OneMore(txns + [t], txns', c)
    ensures |txns| < |txns'| && txns'[|txns|] == t
  {
    assert (txns + [t])[|txns|] == t;
  }

  lemma ReservesMeanwhile(m: Machine, txns: seq<Txn>, guess: Call, guessKey: Text, c: Call, key: Text)
      returns (actions: seq<Action>)
    requires Names(guess, c) && Good(m) && m.txns == txns + [Waiting(guess, guessKey)]
    requires WouldReserve(m.db, c, key) && NewId(m, c.freshId) && OutOfWay(m.txns, |m.txns|, c.req, key)
    ensures Runs(m, actions) && Overtaken(After(m, actions), |txns|, guess, guessKey)
  {
    actions := AloneIsPerformed(m, c, key);
    PerformedIsOneMore(m, After(m, actions), c, key);
    KeepsWaiting(txns, Waiting(guess, guessKey), After(m, actions).txns, c);
    ReservedOrderIsPending(m.db, c, key);
  }

  /** With every other request finished, a reservation that would succeed and a transition that
      guesses its id can always interleave so. */
  lemma GuessedIdIsRefused(m: Machine, guess: Call, guessKey: Text, c: Call, key: Text) returns (actions: seq<Action>)
    requires Guesses(m, guess, guessKey) && Reserves(m, c, key, guess)
    ensures Runs(m, actions) && RefusedThoughPending(After(m, actions), |m.txns|, guess, guessKey)
  {
    var before := ClaimsAndMisses(m, guess, guessKey);
    var missed := After(m, before);
    RunKeepsGood(m, before);
    FinishedHoldsNothing(m, c.req, key);
    WaitingIsOutOfWay(m.txns, guess, guessKey, c, key);
    StillNewId(m, Waiting(guess, guessKey), c.freshId);
    var reserving := ReservesMeanwhile(missed, m.txns, guess, guessKey, c, key);
    var rest := ReadsPending(After(missed, reserving), |m.txns|, guess, guessKey);
    RunsConcat(missed, reserving, rest);
    RunsConcat(m, before, reserving + rest);
    actions := before + (reserving + rest);
  }

  // ----- it happens -----

  const STOCKED := Call(CreateProduct(0, [], 0, Some(1)), 1, 0)
  const BOUGHT := Call(Reserve(0, [Line(1, 1)], NoCurrency), 2, 0)
  const GUESSED := Call(Request.Release(0, 2), 3, 0)

  ghost predicate OneUnit(db: Db) {
    && db.keys == map[] && db.store.orders == map[] && db.store.products.Keys == {1} == db.store.stock.Keys
    && HasProduct(db.store, 0, 1) && StockRow(db.store, 0, 1) == Some(Stock(0, 1, 0))
  }

  lemma OneInStock(db: Db)
    requires db == Performed(INITIAL.db, STOCKED, []).0
    ensures OneUnit(db)
  {
  }

  lemma OneCanBeBought(db: Db)
    requires OneUnit(db)
    ensures WouldReserve(db, BOUGHT, [])
  {
    var lines := BOUGHT.req.lines;
    var rows := Rows(db.store, 0, ProductsOf(lines));
    assert lines[0] in lines;
    NoShortfallMeansAvailable(lines, rows);
    assert Shortfalls(lines, rows) == [];
  }

  ghost predicate Stocked(m: Machine) {
    OneUnit(m.db) && |m.txns| == 1 && m.txns[0].call == STOCKED && Finished(m.txns[0].pc)
  }

  lemma StockedRun() returns (actions: seq<Action>)
    ensures Runs(INITIAL, actions) && Good(After(INITIAL, actions)) && Stocked(After(INITIAL, actions))
  {
    InitialGood();
    actions := AloneIsPerformed(INITIAL, STOCKED, []);
    PerformedIsOneMore(INITIAL, After(INITIAL, actions), STOCKED, []);
    OneInStock(After(INITIAL, actions).db);
  }

  lemma OneIdUsed(m: Machine, id: Uuid)
    requires Stocked(m) && id != 1
    ensures NewId(m, id)
  {
  }

  lemma StockedIsReady(m: Machine)
    requires Good(m) && Stocked(m)
    ensures Guesses(m, GUESSED, []) && Reserves(m, BOUGHT, [], GUESSED)
  {
    OneIdUsed(m, GUESSED.freshId);
    OneIdUsed(m, BOUGHT.freshId);
    OneCanBeBought(m.db);
  }

  /** From an empty database: one product with one unit, one reservation of it, and one release
      that guesses the reservation's id. */
  lemma GuessedIdRun() returns (actions: seq<Action>)
    ensures Runs(INITIAL, actions) && RefusedThoughPending(After(INITIAL, actions), 1, GUESSED, [])
  {
    var stocking := StockedRun();
    var m := After(INITIAL, stocking);
    StockedIsReady(m);
    var rest := GuessedIdIsRefused(m, GUESSED, [], BOUGHT, []);
    RunsConcat(INITIAL, stocking, rest);
    actions := stocking + rest;
  }

  /** And whoever repeats that request under its key is told the same for ever, although the
      order is pending. */
  lemma RefusedForEver(before: seq<Action>, later: seq<Action>, i: nat, c: Call, key: Text, j: nat)
    requires Runs(INITIAL, before) && Runs(After(INITIAL, before), later)
    requires RefusedThoughPending(After(INITIAL, before), i, c, key)
    requires var m, m' := After(INITIAL, before), After(After(INITIAL, before), later);
             Repeats(m', m.txns[i], |m.txns|, j) && Finished(m'.txns[j].pc)
    ensures var pc := After(After(INITIAL, before), later).txns[j].pc;
            pc == Replayed(Outcome(false, 409, NotPending(Pending))) || pc == Aborted
  {
    SpentKeyReplays(before, later, i, j);
  }
}
