/** Why a client was answered as it was: every answer goes back to one tick of its batch, and says what became of it. */
module Reasons {
  import opened Domain
  import opened Items
  import opened Merge
  import opened Database
  import opened Prepare
  import opened Batch
  import opened Channels
  import opened Stock
  import opened Protocol
  import opened ProtocolProof
  import opened Guarantees

  /** What a commit of different carts has made of one order: all that survived of it, for its user, or nothing. */
  ghost predicate Allocated(db: Db, orders: seq<CreateOrder>, db': Db, order: CreateOrder, r: Result)
    requires db.orders <= db'.orders
  {
    var kept := Select(Survivors(AllItems(orders), db.products), OfOrder(order.id));
    if kept == [] then r == Result(ZERO_ORDER, Some(ErrOutOfStock))
    else
      && r.err == None && r.order.id == order.id && r.order.userId == order.userId
      && OrderRow(order.id, order.userId) in NewOrders(db, db')
      && multiset(r.order.orderItems) == multiset(kept)
  }

  /** What one call tells a request of its batch: the very call that failed, or what the commit has made of it. */
  ghost predicate TellsRequest(db: Db, orders: seq<CreateOrder>, faults: set<Call>, outcome: Outcome, db': Db,
      order: CreateOrder, r: Result)
  {
    match outcome
    case Failed(call) => r == Result(ZERO_ORDER, Some(ErrCallFailed(call))) && FailsAt(db, orders, faults, call)
    case Committed(_) =>
      && db.orders <= db'.orders && (r.err == None || r == Result(ZERO_ORDER, Some(ErrOutOfStock)))
      && (WellFormed(orders) && db.Consistent() ==> Allocated(db, orders, db', order, r))
    case _ => false
  }

  /** Step k is a tick that had request t in its batch, and r is what it tells. */
  ghost predicate ToldAt(run: seq<System>, steps: seq<Step>, k: int, t: Ticket, r: Result)
    requires |run| == |steps| + 1
  {
    && 0 <= k < |steps| && steps[k].Tick? && t in run[k].batch
    && (forall u :: u in run[k].batch ==> u in run[k].clients)
    && TellsRequest(run[k].db, BatchOrders(run[k].clients, run[k].batch), steps[k].faults, steps[k].outcome, run[k + 1].db,
         run[k].clients[t].order, r)
  }

  /** What survives of an order are its new rows. */
  lemma NewRowsSurvive(db: Db, orders: seq<CreateOrder>, db': Db, o: Uuid)
    requires StockCommits(db, orders, db')
    ensures var kept := Select(Survivors(AllItems(orders), db.products), OfOrder(o));
      |kept| == Count(NewItems(db, db'), o) && multiset(kept) == multiset(Select(NewItems(db, db'), OfOrder(o)))
  {
    RowsAreSurvivors(AllItems(orders), db.products, NewItems(db, db'));
    SameItemsSameSelection(NewItems(db, db'), Survivors(AllItems(orders), db.products), OfOrder(o));
  }

  lemma CommitAllocates(db: Db, orders: seq<CreateOrder>, outcome: Outcome, db': Db, i: nat)
    requires outcome.Committed? && i < |orders| && WellFormed(orders)
    requires StockCommits(db, orders, db') && OrderCommits(db, orders, db') && Answers(db, db', outcome.responses)
    ensures Allocated(db, orders, db', orders[i], ResultFor(outcome, orders[i].id))
  {
    var o := orders[i].id;
    NewRowsSurvive(db, orders, db', o);
    if o in outcome.responses {
      NewRowHasItsUser(db, orders, db', i, OrderRow(o, outcome.responses[o].userId));
    }
  }

  lemma TickTells(db: Db, orders: seq<CreateOrder>, faults: set<Call>, outcome: Outcome, db': Db, i: nat)
    requires BatchStep(db, orders, faults, outcome, db') && i < |orders| && (outcome.Failed? || outcome.Committed?)
    ensures TellsRequest(db, orders, faults, outcome, db', orders[i], ResultFor(outcome, orders[i].id))
  {
    if outcome.Committed? && WellFormed(orders) && db.Consistent() {
      CommitFacts(db, orders, faults, outcome, db');
      CommitAllocates(db, orders, outcome, db', i);
    }
  }

  ghost predicate IsDue(s: System, t: Ticket, r: Result) {
    t in s.clients && r in Due(s, t)
  }

  /** The tick itself tells each request of its batch. */
  lemma TickToldAt(run: seq<System>, steps: seq<Step>, k: nat, t: Ticket, r: Result)
    requires IsPath(run, steps) && k < |steps| && steps[k].Tick?
    requires IsDue(run[k + 1], t, r) && !IsDue(run[k], t, r)
    ensures ToldAt(run, steps, k, t, r)
  {
    assert Follows(run, steps, k);
    var s := run[k];
    var i :| 0 <= i < |s.batch| && s.batch[i] == t;
    TickTells(s.db, BatchOrders(s.clients, s.batch), steps[k].faults, steps[k].outcome, run[k + 1].db, i);
  }

  /** Every result that is due at step i has been told by an earlier tick. */
  ghost predicate AllExplained(run: seq<System>, steps: seq<Step>, i: nat)
    requires |run| == |steps| + 1 && i <= |steps|
  {
    forall t, r :: IsDue(run[i], t, r) ==> exists k :: k < i && ToldAt(run, steps, k, t, r)
  }

  lemma StepExplains(run: seq<System>, steps: seq<Step>, i: nat)
    requires IsPath(run, steps) && i < |steps| && Flow(run[i]) && AllExplained(run, steps, i)
    ensures AllExplained(run, steps, i + 1)
  {
    assert Follows(run, steps, i);
    NextKeepsOrders(run[i], steps[i], run[i + 1]);
    var s' := run[i + 1];
    forall t, r | IsDue(s', t, r)
      ensures exists k :: k < i + 1 && ToldAt(run, steps, k, t, r)
    {
      if IsDue(run[i], t, r) {
        var k :| k < i && ToldAt(run, steps, k, t, r);
      } else if steps[i].Tick? {
        TickToldAt(run, steps, i, t, r);
      } else {
        NothingNewIsDue(run[i], steps[i], run[i + 1], t);
      }
    }
  }

  lemma {:induction false} RunExplains(run: seq<System>, steps: seq<Step>, i: nat)
    requires IsRun(run, steps) && i <= |steps|
    ensures AllExplained(run, steps, i)
  {
    for k := 0 to i
      invariant AllExplained(run, steps, k)
    {
      RunFlows(run, steps, k);
      StepExplains(run, steps, k);
    }
  }

  /**
   * In any run: whatever a client answers was told by one tick that had its request in the batch. A failure names
   * the very call at which that tick's transaction stopped, and its client gets no order.
   */
  lemma EveryAnswerHasItsTick(run: seq<System>, steps: seq<Step>, i: nat, t: Ticket, result: Result) returns (k: nat)
    requires IsRun(run, steps) && i <= |steps| && InPhase(run[i], t, Replied(result))
    ensures k < i && ToldAt(run, steps, k, t, result)
  {
    RunFlows(run, steps, i);
    RunExplains(run, steps, i);
    assert ClientOk(run[i], t, run[i].clients[t]) && IsDue(run[i], t, result);
    k :| 0 <= k < i && ToldAt(run, steps, k, t, result);
  }

  /** In regular runs the answer of a commit is what survived of the order, for its user; or that nothing did. */
  lemma EveryAnswerIsAllocated(run: seq<System>, steps: seq<Step>, i: nat, t: Ticket, result: Result) returns (k: nat)
    requires IsRegular(run, steps) && i <= |steps| && InPhase(run[i], t, Replied(result))
    ensures k < i && ToldAt(run, steps, k, t, result)
    ensures steps[k].outcome.Committed? ==>
      && run[k].db.orders <= run[k + 1].db.orders
      && Allocated(run[k].db, BatchOrders(run[k].clients, run[k].batch), run[k + 1].db, run[k].clients[t].order, result)
  {
    k := EveryAnswerHasItsTick(run, steps, i, t, result);
    RunTells(run, steps, k);
    assert CommitIsWellFormed(run, steps, k);
  }
}
