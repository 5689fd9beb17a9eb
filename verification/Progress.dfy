/** Deadlock freedom, and a measure of the work left that every statement decreases. */
module Progress {
  import opened Tables
  import opened Machine
  import opened TxnInvariant
  import opened MachineSafety
  import opened RunGuarantees

  // ----- lock order -----

  /** Key or SKU first, then the order row, then inventory rows by ascending product id. A new
      order row is invisible until its transaction commits, so nobody waits for it. */
  function Rank(r: Resource): nat {
    match r
    case KeyLock(_) => 0
    case SkuLock(_, _) => 0
    case OrderLock(_) => 1
    case StockLock(p) => 2 + p
  }

  /** Every transaction acquires in strictly increasing rank. */
  lemma AcquiresInOrder(db: Db, t: Txn, r: Resource)
    requires TxnOk(db, t) && Wants(db, t) == Some(r)
    ensures forall h | h in t.held :: Rank(h) < Rank(r)
  {
  }

  function WantedRank(m: Machine, i: nat): nat
    requires i < |m.txns| && Typed(m.txns[i])
  {
    var w := Wants(m.db, m.txns[i]);
    if w.Some? then 1 + Rank(w.value) else 0
  }

  ghost function HighestWant(m: Machine, n: nat): nat
    requires n <= |m.txns| && AllTyped(m)
  {
    if n == 0 then 0
    else
      var rest := HighestWant(m, n - 1);
      if rest < WantedRank(m, n - 1) then WantedRank(m, n - 1) else rest
  }

  lemma {:induction false} HighestIsHighest(m: Machine, n: nat, i: nat)
    requires i < n <= |m.txns| && AllTyped(m)
    ensures WantedRank(m, i) <= HighestWant(m, n)
  {
    if i < n - 1 {
      HighestIsHighest(m, n - 1, i);
    }
  }

  lemma OrderlyIsTyped(m: Machine)
    requires Orderly(m)
    ensures AllTyped(m)
  {
    forall i | 0 <= i < |m.txns| ensures Typed(m.txns[i]) {
      assert TxnOk(m.db, m.txns[i]);
    }
  }

  lemma HolderIsUnfinished(db: Db, t: Txn, r: Resource)
    requires TxnOk(db, t) && r in t.held
    ensures !Finished(t.pc)
  {
  }

  /** Following who waits for whom climbs the ranks, so it ends at a transaction that can run. */
  lemma {:induction false} SomeoneCanStep(m: Machine, i: nat) returns (j: nat)
    requires Orderly(m) && AllTyped(m) && i < |m.txns| && !Finished(m.txns[i].pc)
    ensures CanAdvance(m, j)
    decreases HighestWant(m, |m.txns|) - WantedRank(m, i)
  {
    if CanAdvance(m, i) {
      j := i;
    } else {
      var r := Wants(m.db, m.txns[i]).value;
      var h :| 0 <= h < |m.txns| && h != i && r in m.txns[h].held;
      HolderIsUnfinished(m.db, m.txns[h], r);
      if CanAdvance(m, h) {
        j := h;
      } else {
        AcquiresInOrder(m.db, m.txns[h], Wants(m.db, m.txns[h]).value);
        HighestIsHighest(m, |m.txns|, i);
        HighestIsHighest(m, |m.txns|, h);
        j := SomeoneCanStep(m, h);
      }
    }
  }

  ghost predicate AllFinished(m: Machine) {
    forall i | 0 <= i < |m.txns| :: Finished(m.txns[i].pc)
  }

  /** No reachable state is a deadlock. */
  lemma DeadlockFree(actions: seq<Action>)
    requires Runs(INITIAL, actions) && !AllFinished(After(INITIAL, actions))
    ensures exists j :: CanAdvance(After(INITIAL, actions), j)
  {
    ReachableIsGood(actions);
    var m := After(INITIAL, actions);
    OrderlyIsTyped(m);
    var i :| 0 <= i < |m.txns| && !Finished(m.txns[i].pc);
    var j := SomeoneCanStep(m, i);
  }

  // ----- work left -----

  /** Statements of different kinds still ahead. */
  function Stages(pc: Pc): nat {
    match pc
    case Precheck => 16
    case Claim => 15
    case TakeOrder => 14
    case ReadItems => 13
    case FindRows => 12
    case LockRows(_) => 11
    case CheckStock => 10
    case WriteRows(_) => 9
    case InsertRows => 8
    case ReadProduct => 8
    case LockRow => 7
    case InsertStock => 6
    case Adjusting => 5
    case InsertProduct => 8
    case InsertInitial => 7
    case ReadStatus => 5
    case Complete(_) => 4
    case Commit(_) => 3
    case Resolve => 1
    case _ => 0
  }

  /** Rows still ahead within the current statement or loop. */
  function RowsAhead(t: Txn): nat {
    match t.pc
    case LockRows(todo) => |todo|
    case WriteRows(k) => if k <= |t.lines| then |t.lines| - k else 0
    case _ => 0
  }

  function TotalStages(txns: seq<Txn>): nat {
    if txns == [] then 0 else Stages(txns[0].pc) + TotalStages(txns[1..])
  }

  function TotalRows(txns: seq<Txn>): nat {
    if txns == [] then 0 else RowsAhead(txns[0]) + TotalRows(txns[1..])
  }

  lemma {:induction false} TotalsUpdate(txns: seq<Txn>, i: nat, t: Txn)
    requires i < |txns|
    ensures TotalStages(txns[i := t]) == TotalStages(txns) - Stages(txns[i].pc) + Stages(t.pc)
    ensures TotalRows(txns[i := t]) == TotalRows(txns) - RowsAhead(txns[i]) + RowsAhead(t)
  {
    if i == 0 {
      assert txns[i := t][1..] == txns[1..];
    } else {
      TotalsUpdate(txns[1..], i - 1, t);
      assert txns[i := t][1..] == txns[1..][i - 1 := t];
    }
  }

  /** Less work is left in `m'` than in `m`: fewer statements, or as many and fewer rows. */
  predicate LessWork(m': Machine, m: Machine) {
    || TotalStages(m'.txns) < TotalStages(m.txns)
    || (TotalStages(m'.txns) == TotalStages(m.txns) && TotalRows(m'.txns) < TotalRows(m.txns))
  }

  ghost predicate Shrinks(db: Db, t: Txn)
    requires Typed(t) && !t.pc.Commit? && !Finished(t.pc)
  {
    var t' := Stepped(db, t);
    Stages(t'.pc) < Stages(t.pc) || (Stages(t'.pc) == Stages(t.pc) && RowsAhead(t') < RowsAhead(t))
  }

  lemma LinesShrink(db: Db, t: Txn)
    requires Typed(t) && LinesPc(t.pc)
    ensures Shrinks(db, t)
  {
  }

  lemma OrderShrinks(db: Db, t: Txn)
    requires Typed(t) && OrderPc(t.pc)
    ensures Shrinks(db, t)
  {
  }

  lemma OpeningShrinks(db: Db, t: Txn)
    requires Typed(t) && OpeningPc(t.pc)
    ensures Shrinks(db, t)
  {
  }

  lemma StockShrinks(db: Db, t: Txn)
    requires Typed(t) && !t.pc.Commit? && !Finished(t.pc) && !LinesPc(t.pc) && !OpeningPc(t.pc) && !OrderPc(t.pc)
    ensures Shrinks(db, t)
  {
  }

  lemma MoveShrinks(db: Db, t: Txn)
    requires Typed(t) && !t.pc.Commit? && !Finished(t.pc)
    ensures Shrinks(db, t)
  {
    if LinesPc(t.pc) {
      LinesShrink(db, t);
    } else if OrderPc(t.pc) {
      OrderShrinks(db, t);
    } else if OpeningPc(t.pc) {
      OpeningShrinks(db, t);
    } else {
      StockShrinks(db, t);
    }
  }

  /** Nothing but a new request adds work. */
  lemma ActionShrinks(m: Machine, a: Action)
    requires Enabled(m, a) && !a.Begin?
    ensures LessWork(Do(m, a), m)
  {
    var i, m' := a.i, Do(m, a);
    TotalsUpdate(m.txns, i, m'.txns[i]);
    if a.Step? && !m.txns[i].pc.Commit? {
      MoveShrinks(m.db, m.txns[i]);
      assert m'.txns[i] == Stepped(m.db, m.txns[i]);
    } else {
      EndedHasNoWork(m'.txns[i]);
      UnfinishedHasWork(m.txns[i]);
    }
  }

  lemma EndedHasNoWork(t: Txn)
    ensures Finished(t.pc) ==> Stages(t.pc) == 0 && RowsAhead(t) == 0
  {
  }

  lemma UnfinishedHasWork(t: Txn)
    ensures !Finished(t.pc) ==> Stages(t.pc) > 0
  {
  }

  ghost predicate OnlySteps(actions: seq<Action>) {
    forall a | a in actions :: a.Step?
  }

  /** The client got its answer: a commit's, a refusal's or a replay's. */
  predicate GotAnswer(pc: Pc) {
    pc.Committed? || pc.Refused? || pc.Replayed?
  }

  /** The same requests, none of them undone: those that had ended are as they were, and those
      that have ended since have been answered. */
  ghost predicate Continues(m: Machine, m': Machine) {
    |m'.txns| == |m.txns| && forall i | 0 <= i < |m.txns| ::
      if Finished(m.txns[i].pc) then m'.txns[i] == m.txns[i]
      else Finished(m'.txns[i].pc) ==> GotAnswer(m'.txns[i].pc)
  }

  lemma OnlyMissingRowAborts(db: Db, t: Txn)
    requires Typed(t) && !t.pc.Commit? && !Finished(t.pc)
    ensures Stepped(db, t).pc.Aborted? ==> t.pc.InsertStock?
  {
  }

  /** No statement ends a request without an answer. */
  lemma StepContinues(m: Machine, j: nat)
    requires CanAdvance(m, j) && NothingImpossible(m.txns) && NothingImpossible(Do(m, Step(j)).txns)
    ensures Continues(m, Do(m, Step(j)))
  {
    if !m.txns[j].pc.Commit? {
      OnlyMissingRowAborts(m.db, m.txns[j]);
    }
  }

  lemma ContinuesOn(m: Machine, next: Machine, last: Machine)
    requires Continues(m, next) && Continues(next, last)
    ensures Continues(m, last)
  {
  }

  /** From any good state the requests in flight can all be run to their answers, without
      aborting one of them. */
  lemma {:induction false} Drain(m: Machine) returns (actions: seq<Action>)
    requires Good(m)
    ensures Runs(m, actions) && OnlySteps(actions)
    ensures AllFinished(After(m, actions)) && Continues(m, After(m, actions))
    decreases TotalStages(m.txns), TotalRows(m.txns)
  {
    if AllFinished(m) {
      actions := [];
    } else {
      var j := Runnable(m);
      var next := Do(m, Step(j));
      ActionShrinks(m, Step(j));
      DoKeepsGood(m, Step(j));
      StepContinues(m, j);
      var rest := Drain(next);
      ContinuesOn(m, next, After(next, rest));
      actions := [Step(j)] + rest;
      StepThen(m, j, rest);
    }
  }

  lemma Runnable(m: Machine) returns (j: nat)
    requires Good(m) && !AllFinished(m)
    ensures CanAdvance(m, j)
  {
    OrderlyIsTyped(m);
    var i :| 0 <= i < |m.txns| && !Finished(m.txns[i].pc);
    j := SomeoneCanStep(m, i);
  }

  lemma StepThen(m: Machine, j: nat, rest: seq<Action>)
    requires CanAdvance(m, j) && Runs(Do(m, Step(j)), rest) && OnlySteps(rest)
    ensures Runs(m, [Step(j)] + rest) && OnlySteps([Step(j)] + rest)
    ensures After(m, [Step(j)] + rest) == After(Do(m, Step(j)), rest)
  {
    assert ([Step(j)] + rest)[1..] == rest;
  }

  /** Every reachable state can be drained: all requests in flight reach an answer, by statements
      alone, and no request ends aborted that was not so before. */
  lemma EveryRequestCanFinish(actions: seq<Action>) returns (more: seq<Action>)
    requires Runs(INITIAL, actions)
    ensures Runs(After(INITIAL, actions), more) && OnlySteps(more)
    ensures var m := After(INITIAL, actions);
            var m' := After(m, more);
            |m'.txns| == |m.txns| && forall i | 0 <= i < |m.txns| ::
              if Finished(m.txns[i].pc) then m'.txns[i] == m.txns[i] else GotAnswer(m'.txns[i].pc)
  {
    ReachableIsGood(actions);
    more := Drain(After(INITIAL, actions));
  }
}
