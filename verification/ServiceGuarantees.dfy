/** What the guarded requests, served one after another by `StockDatabase.Serve`, guarantee. */
module ServiceGuarantees {
  import opened Tables
  import opened Engine
  import opened StoreInvariant
  import opened Fingerprint
  import opened Idempotency
  import opened StockService
  import opened TxnInvariant

  /** Well-formed, keyed, and with a newly generated id. */
  ghost predicate Sent(db: Db, c: Call) {
    Guarded(c.req) && WellFormed(c.req) && Fresh(db.store, c.freshId)
  }

  /** No request can make the service fail: it always answers, and leaves every constraint of
      the tables and every key completed. */
  lemma ServedIsSafe(db: Db, c: Call, key: Text)
    requires DbOk(db) && Sent(db, c)
    ensures Served(db, c, key).1.Answer? && DbOk(Served(db, c, key).0)
  {
    if TurnedAway(db.store, c.req).None? {
      ExecKeepsInv(db.store, c);
    }
  }

  /** A refused request leaves every business table alone. */
  lemma RefusalChangesNothing(db: Db, c: Call, key: Text)
    requires DbOk(db) && Sent(db, c)
    requires Served(db, c, key).1.Answer? && !Served(db, c, key).1.outcome.ok
    ensures Served(db, c, key).0.store == db.store
  {
    if TurnedAway(db.store, c.req).None? {
      ExecKeepsInv(db.store, c);
      ApplyNothing(db.store);
    }
  }

  // ----- retries -----

  /** Any of the five requests; a product is created without a key. */
  datatype Serving = Serving(call: Call, key: Text)

  function Next(db: Db, s: Serving): Db
    requires WellFormed(s.call.req)
  {
    Performed(db, s.call, s.key).0
  }

  /** Each request is well-formed and comes with an id that is new when it is served. */
  ghost predicate AllSent(db: Db, servings: seq<Serving>)
    decreases |servings|
  {
    servings == [] ||
    (&& WellFormed(servings[0].call.req) && Fresh(db.store, servings[0].call.freshId)
     && AllSent(Next(db, servings[0]), servings[1..]))
  }

  ghost function AfterAll(db: Db, servings: seq<Serving>): Db
    requires AllSent(db, servings)
    decreases |servings|
  {
    if servings == [] then db else AfterAll(Next(db, servings[0]), servings[1..])
  }

  /** No recorded key and no product is ever changed or removed. */
  ghost predicate Grown(db: Db, db': Db) {
    && (forall k | k in db.keys :: k in db'.keys && db'.keys[k] == db.keys[k])
    && (forall p | p in db.store.products :: p in db'.store.products && db'.store.products[p] == db.store.products[p])
  }

  lemma ProductsGrow(s: Store, c: Call)
    requires WellFormed(c.req) && Fresh(s, c.freshId) && Exec(s, c).Decision?
    ensures forall p | p in s.products ::
              p in Apply(s, Exec(s, c).effect).products && Apply(s, Exec(s, c).effect).products[p] == s.products[p]
  {
    assert Exec(s, c).effect.products.Keys <= {c.freshId};
  }

  lemma ServingGrows(db: Db, s: Serving)
    requires WellFormed(s.call.req) && Fresh(db.store, s.call.freshId)
    ensures Grown(db, Next(db, s))
  {
    if Exec(db.store, s.call).Decision? {
      ProductsGrow(db.store, s.call);
    }
  }

  lemma {:induction false} ServingsGrow(db: Db, servings: seq<Serving>)
    requires AllSent(db, servings)
    ensures Grown(db, AfterAll(db, servings))
    decreases |servings|
  {
    if servings != [] {
      ServingGrows(db, servings[0]);
      ServingsGrow(Next(db, servings[0]), servings[1..]);
    }
  }

  lemma StillNotTurnedAway(db: Db, db': Db, req: Request)
    requires Grown(db, db') && TurnedAway(db.store, req).None?
    ensures TurnedAway(db'.store, req).None?
  {
    if req.Reserve? {
      forall l | l in req.lines ensures HasProduct(db'.store, req.org, l.productId) {
        assert HasProduct(db.store, req.org, l.productId);
      }
    }
  }

  /** `reply` is what the row answers to the request that wrote it. */
  ghost predicate Replays(row: KeyRow, fingerprint: Text, reply: Reply) {
    reply == Answer(ResolveConflict(Some(row), fingerprint))
  }

  lemma FirstRecords(db: Db, c: Call, key: Text)
    requires DbOk(db) && Sent(db, c) && TurnedAway(db.store, c.req).None? && KeyOf(c.req, key) !in db.keys
    ensures var after, id := Served(db, c, key).0, KeyOf(c.req, key);
            && id in after.keys && after.keys[id].fingerprint == FingerprintOf(c.req)
            && Replays(after.keys[id], FingerprintOf(c.req), Served(db, c, key).1)
  {
    ExecKeepsInv(db.store, c);
    CompleteThenResolve(FingerprintOf(c.req), Exec(db.store, c).outcome);
  }

  /** After a request has been answered past its prechecks, its key is on record. */
  lemma ServedRecords(db: Db, c: Call, key: Text)
    requires DbOk(db) && Sent(db, c) && TurnedAway(db.store, c.req).None?
    ensures var after, id := Served(db, c, key).0, KeyOf(c.req, key);
            id in after.keys && Replays(after.keys[id], FingerprintOf(c.req), Served(db, c, key).1)
  {
    if KeyOf(c.req, key) !in db.keys {
      FirstRecords(db, c, key);
    }
  }

  /** However much later, and whatever was served in between, product creations included,
      repeating a request under its key gets the very same answer and changes nothing. */
  lemma RetryIsIdentical(db: Db, c: Call, key: Text, between: seq<Serving>, again: Call)
    requires DbOk(db) && Sent(db, c) && TurnedAway(db.store, c.req).None? && again.req == c.req
    requires AllSent(Served(db, c, key).0, between)
    ensures var later := AfterAll(Served(db, c, key).0, between);
            Served(later, again, key) == (later, Served(db, c, key).1)
  {
    var first := Served(db, c, key).0;
    ServedRecords(db, c, key);
    ServingGrows(db, Serving(c, key));
    StillNotTurnedAway(db, first, c.req);
    ServingsGrow(first, between);
    StillNotTurnedAway(first, AfterAll(first, between), c.req);
  }

  /** Any other request under a key already spent on `c` changes nothing: unless its own
      prechecks turn it away first, it is refused as a reuse of the key. */
  lemma ReuseIsRefused(db: Db, c: Call, key: Text, between: seq<Serving>, other: Call)
    requires DbOk(db) && Sent(db, c) && TurnedAway(db.store, c.req).None? && KeyOf(c.req, key) !in db.keys
    requires AllSent(Served(db, c, key).0, between)
    requires Guarded(other.req) && WellFormed(other.req) && other.req != c.req
    requires other.req.org == c.req.org && OperationOf(other.req) == OperationOf(c.req)
    ensures var later := AfterAll(Served(db, c, key).0, between);
            var refusal := TurnedAway(later.store, other.req);
            Served(later, other, key)
            == (later, Answer(if refusal.Some? then refusal.value else Outcome(false, 409, KeyReused)))
  {
    FirstRecords(db, c, key);
    ServingsGrow(Served(db, c, key).0, between);
    FingerprintIdentifies(c.req, other.req);
  }
}
