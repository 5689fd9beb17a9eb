/** What an idempotency key covers: one organisation, one operation, one text. A request is new
    unless all three were used before. */
module KeyScope {
  import opened Tables
  import opened Engine
  import opened StoreInvariant
  import opened Fingerprint
  import opened Idempotency
  import opened StockService
  import opened ServiceGuarantees
  import opened Machine
  import opened TxnInvariant
  import opened TxnFrame
  import opened MachineSafety
  import opened RunGuarantees
  import opened Progress
  import opened Alone

  predicate Operates(op: Operation, req: Request) {
    match op
    case ReservationCreate => req.Reserve?
    case ReservationRelease => req.Release?
    case OrderFulfill => req.Fulfill?
    case InventoryAdjust => req.Adjust?
  }

  predicate IsKeyOf(id: KeyId, req: Request, key: Text) {
    id.org == req.org && Operates(id.operation, req) && id.key == key
  }

  /** The two requests would claim the same key. */
  predicate SameKey(a: Request, k: Text, b: Request, l: Text) {
    && a.org == b.org && k == l
    && ((a.Reserve? && b.Reserve?) || (a.Release? && b.Release?)
        || (a.Fulfill? && b.Fulfill?) || (a.Adjust? && b.Adjust?))
  }

  /** A claim is on exactly the organisation, the operation and the client's text. */
  lemma KeyIdentifies(a: Request, k: Text, b: Request, l: Text)
    requires Guarded(a) && Guarded(b)
    ensures KeyOf(a, k) == KeyOf(b, l) <==> SameKey(a, k, b, l)
    ensures IsKeyOf(KeyOf(a, k), b, l) <==> SameKey(a, k, b, l)
  {
  }

  lemma IsKeyOfIs(id: KeyId, req: Request, key: Text)
    requires Guarded(req)
    ensures IsKeyOf(id, req, key) <==> id == KeyOf(req, key)
  {
  }

  ghost predicate OnRecord(keys: map<KeyId, KeyRow>, req: Request, key: Text) {
    exists id :: id in keys && IsKeyOf(id, req, key)
  }

  lemma OnRecordIs(keys: map<KeyId, KeyRow>, req: Request, key: Text)
    requires Guarded(req)
    ensures OnRecord(keys, req, key) <==> KeyOf(req, key) in keys
  {
    IsKeyOfIs(KeyOf(req, key), req, key);
    forall id | id in keys && IsKeyOf(id, req, key) ensures id == KeyOf(req, key) {
      IsKeyOfIs(id, req, key);
    }
  }

  // ----- in the service -----

  ghost predicate PassesPrechecks(s: Store, req: Request) {
    req.Reserve? ==>
      && (forall i, j | 0 <= i < j < |req.lines| :: req.lines[i].productId != req.lines[j].productId)
      && forall l | l in req.lines :: l.productId in s.products && s.products[l.productId].org == req.org
  }

  /** What the prechecks turn away: duplicate lines first, then unknown products. */
  lemma PrechecksTurnAway(db: Db, c: Call, key: Text)
    requires Guarded(c.req) && WellFormed(c.req) && !PassesPrechecks(db.store, c.req)
    ensures var lines := c.req.lines;
            var duplicate := exists i, j :: 0 <= i < j < |lines| && lines[i].productId == lines[j].productId;
            Served(db, c, key)
            == (db, Answer(Outcome(false, 400, if duplicate then DuplicateLines else UnknownProducts)))
  {
  }

  lemma PassedIsNotTurnedAway(s: Store, req: Request)
    ensures PassesPrechecks(s, req) <==> TurnedAway(s, req).None?
  {
  }

  /** A request past its prechecks whose key is not on record is executed, answered as `Exec`
      decides, and recorded under its own key. */
  lemma NewKeyIsExecuted(db: Db, c: Call, key: Text) returns (id: KeyId)
    requires DbOk(db) && Sent(db, c) && PassesPrechecks(db.store, c.req) && !OnRecord(db.keys, c.req, key)
    ensures IsKeyOf(id, c.req, key) && Exec(db.store, c).Decision?
    ensures var d := Exec(db.store, c);
            var row := KeyRow(FingerprintOf(c.req), Completed, Some(d.outcome.status), Some(d.outcome.body));
            Served(db, c, key) == (Db(Apply(db.store, d.effect), db.keys[id := row]), Answer(d.outcome))
  {
    id := KeyOf(c.req, key);
    OnRecordIs(db.keys, c.req, key);
    IsKeyOfIs(id, c.req, key);
    PassedIsNotTurnedAway(db.store, c.req);
    ExecKeepsInv(db.store, c);
  }

  /** A request whose key is on record changes nothing. */
  lemma RecordedKeyIsNotExecuted(db: Db, c: Call, key: Text)
    requires Guarded(c.req) && WellFormed(c.req) && OnRecord(db.keys, c.req, key)
    ensures Served(db, c, key).0 == db && Served(db, c, key).1.Answer?
  {
    OnRecordIs(db.keys, c.req, key);
  }

  predicate Uses(s: Serving, req: Request, key: Text) {
    SameKey(s.call.req, s.key, req, key)
  }

  lemma ServingLeavesOtherKeys(db: Db, s: Serving, req: Request, key: Text)
    requires WellFormed(s.call.req) && Guarded(req) && !Uses(s, req, key) && !OnRecord(db.keys, req, key)
    ensures !OnRecord(Next(db, s).keys, req, key)
  {
    OnRecordIs(db.keys, req, key);
    OnRecordIs(Next(db, s).keys, req, key);
    if Guarded(s.call.req) {
      KeyIdentifies(s.call.req, s.key, req, key);
    }
  }

  lemma {:induction false} ServingsLeaveOtherKeys(db: Db, servings: seq<Serving>, req: Request, key: Text)
    requires AllSent(db, servings) && Guarded(req) && !OnRecord(db.keys, req, key)
    requires forall k | 0 <= k < |servings| :: !Uses(servings[k], req, key)
    ensures !OnRecord(AfterAll(db, servings).keys, req, key)
    decreases |servings|
  {
    if servings != [] {
      ServingLeavesOtherKeys(db, servings[0], req, key);
      ServingsLeaveOtherKeys(Next(db, servings[0]), servings[1..], req, key);
    }
  }

  lemma ServingKeepsDbOk(db: Db, s: Serving)
    requires DbOk(db) && WellFormed(s.call.req) && Fresh(db.store, s.call.freshId)
    ensures DbOk(Next(db, s))
  {
    if Guarded(s.call.req) {
      ServedIsSafe(db, s.call, s.key);
    } else {
      ExecKeepsInv(db.store, s.call);
    }
  }

  lemma {:induction false} ServingsKeepDbOk(db: Db, servings: seq<Serving>)
    requires DbOk(db) && AllSent(db, servings)
    ensures DbOk(AfterAll(db, servings))
    decreases |servings|
  {
    if servings != [] {
      ServingKeepsDbOk(db, servings[0]);
      ServingsKeepDbOk(Next(db, servings[0]), servings[1..]);
    }
  }

  /** Whatever was served before under other keys, even under the same text for another operation
      or organisation, a request under a key of its own is executed. */
  lemma {:induction false} UnusedKeyIsExecuted(db: Db, before: seq<Serving>, c: Call, key: Text) returns (id: KeyId)
    requires DbOk(db) && AllSent(db, before) && Sent(AfterAll(db, before), c)
    requires PassesPrechecks(AfterAll(db, before).store, c.req) && !OnRecord(db.keys, c.req, key)
    requires forall k | 0 <= k < |before| :: !Uses(before[k], c.req, key)
    ensures IsKeyOf(id, c.req, key) && Exec(AfterAll(db, before).store, c).Decision?
    ensures var later := AfterAll(db, before);
            var d := Exec(later.store, c);
            var row := KeyRow(FingerprintOf(c.req), Completed, Some(d.outcome.status), Some(d.outcome.body));
            Served(later, c, key) == (Db(Apply(later.store, d.effect), later.keys[id := row]), Answer(d.outcome))
  {
    ServingsKeepDbOk(db, before);
    ServingsLeaveOtherKeys(db, before, c.req, key);
    id := NewKeyIsExecuted(AfterAll(db, before), c, key);
  }

  /** How a row answers that is gone, unfinished, another request's, or without a status. */
  lemma UnfinishedRowAnswers(row: KeyRow, fingerprint: Text)
    ensures ResolveConflict(None, fingerprint) == Outcome(false, 409, KeyVanished)
    ensures row.fingerprint == fingerprint && row.state != Completed ==>
              ResolveConflict(Some(row), fingerprint) == Outcome(false, 409, KeyInProgress)
    ensures row.fingerprint != fingerprint ==> ResolveConflict(Some(row), fingerprint) == Outcome(false, 409, KeyReused)
    ensures row.fingerprint == fingerprint && row.state == Completed && row.responseStatus.None? ==>
              var out := ResolveConflict(Some(row), fingerprint); !out.ok && out.status == 500
  {
  }

  // ----- in every interleaving -----

  predicate ClaimSameKey(t: Txn, u: Txn) {
    SameKey(t.call.req, t.key, u.call.req, u.key)
  }

  /** A request loses its claim only to a committed request under the very same key. */
  lemma ReplayMeansSameKey(actions: seq<Action>, j: nat) returns (i: nat)
    requires Runs(INITIAL, actions) && j < |After(INITIAL, actions).txns|
    requires After(INITIAL, actions).txns[j].pc.Resolve? || After(INITIAL, actions).txns[j].pc.Replayed?
    ensures var txns := After(INITIAL, actions).txns;
            i < |txns| && i != j && txns[i].pc.Committed? && ClaimSameKey(txns[i], txns[j])
  {
    ReachableIsGood(actions);
    var m := After(INITIAL, actions);
    i := KeyHasOwner(m, j);
    KeyIdentifies(m.txns[i].call.req, m.txns[i].key, m.txns[j].call.req, m.txns[j].key);
  }

  lemma KeyHasOwner(m: Machine, j: nat) returns (i: nat)
    requires Good(m) && j < |m.txns| && (m.txns[j].pc.Resolve? || m.txns[j].pc.Replayed?)
    ensures Guarded(m.txns[j].call.req) && i < |m.txns|
    ensures CommittedUnder(m.txns[i], KeyOf(m.txns[j].call.req, m.txns[j].key))
  {
    assert TxnOk(m.db, m.txns[j]) && Answered(m.db.keys, m.txns[j]);
    assert KeyOwned(m, KeyOf(m.txns[j].call.req, m.txns[j].key));
    i :| 0 <= i < |m.txns| && CommittedUnder(m.txns[i], KeyOf(m.txns[j].call.req, m.txns[j].key));
  }

  /** A request waits with its claim only for an unfinished request under the very same key. */
  lemma ClaimWaitsForSameKey(actions: seq<Action>, j: nat) returns (i: nat)
    requires Runs(INITIAL, actions) && j < |After(INITIAL, actions).txns|
    requires After(INITIAL, actions).txns[j].pc.Claim? && Typed(After(INITIAL, actions).txns[j])
    requires Blocked(After(INITIAL, actions), j)
    ensures var txns := After(INITIAL, actions).txns;
            i < |txns| && i != j && !Finished(txns[i].pc) && ClaimSameKey(txns[i], txns[j])
  {
    ReachableIsGood(actions);
    var m := After(INITIAL, actions);
    var id := KeyOf(m.txns[j].call.req, m.txns[j].key);
    i :| 0 <= i < |m.txns| && i != j && KeyLock(id) in m.txns[i].held;
    assert TxnOk(m.db, m.txns[i]) && OwnKey(m.txns[i]);
    HolderClaims(m.db, m.txns[i], id);
    KeyIdentifies(m.txns[i].call.req, m.txns[i].key, m.txns[j].call.req, m.txns[j].key);
  }

  lemma HolderClaims(db: Db, t: Txn, id: KeyId)
    requires TxnOk(db, t) && OwnKey(t) && KeyLock(id) in t.held
    ensures !Finished(t.pc) && Guarded(t.call.req) && KeyOf(t.call.req, t.key) == id
  {
  }

  /** With its key not on record, the claim succeeds and the request goes on to its own work. */
  lemma NewKeyClaims(actions: seq<Action>, j: nat)
    requires Runs(INITIAL, actions) && CanAdvance(After(INITIAL, actions), j)
    requires After(INITIAL, actions).txns[j].pc.Claim?
    ensures var m := After(INITIAL, actions);
            var t, t' := m.txns[j], Stepped(m.db, m.txns[j]);
            if OnRecord(m.db.keys, t.call.req, t.key) then t'.pc == Resolve
            else
              && t'.keyRow == Some(KeyRow(FingerprintOf(t.call.req), InProgress, None, None))
              && t'.pc == match t.call.req
                          case Reserve(_, _, _) => FindRows
                          case Adjust(_, _, _, _) => ReadProduct
                          case _ => TakeOrder
  {
    var m := After(INITIAL, actions);
    OnRecordIs(m.db.keys, m.txns[j].call.req, m.txns[j].key);
    ClaimMove(m.db, m.txns[j]);
  }

  /** A request under a new key, run with nobody in its way, is executed on the machine too, and
      answered as `Exec` decides. */
  lemma NewKeyRuns(m: Machine, c: Call, key: Text) returns (actions: seq<Action>, id: KeyId)
    requires Good(m) && Guarded(c.req) && WellFormed(c.req) && NewId(m, c.freshId)
    requires OutOfWay(m.txns, |m.txns|, c.req, key)
    requires PassesPrechecks(m.db.store, c.req) && !OnRecord(m.db.keys, c.req, key)
    ensures Runs(m, actions) && IsKeyOf(id, c.req, key) && Exec(m.db.store, c).Decision?
    ensures var d, m', n := Exec(m.db.store, c), After(m, actions), |m.txns|;
            var row := KeyRow(FingerprintOf(c.req), Completed, Some(d.outcome.status), Some(d.outcome.body));
            && m'.db == Db(Apply(m.db.store, d.effect), m.db.keys[id := row])
            && |m'.txns| == n + 1 && GotAnswer(m'.txns[n].pc) && m'.txns[n].pc.out == d.outcome
  {
    id := NewKeyIsExecuted(m.db, c, key);
    actions := AloneIsPerformed(m, c, key);
  }
}
