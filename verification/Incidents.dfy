/**
 * Two runs that end badly. A commit that reports an error leaves a client with a failure for an order
 * that the next tick commits; and a cart checked out twice blocks the worker.
 */
module Incidents {
  import opened Domain
  import opened Items
  import opened Allocation
  import opened Merge
  import opened Database
  import opened Prepare
  import opened Batch
  import opened BatchProof
  import opened Channels
  import opened Existence
  import opened Stock
  import opened Protocol
  import opened Guarantees
  import opened Schedules

  /** The tick's batch is this one request. */
  ghost predicate Alone(s: System, t: Ticket, orders: seq<CreateOrder>) {
    && t in s.clients && s.batch == [t] && s.worker.Selecting? && orders == [s.clients[t].order] && WellFormed(orders)
  }

  lemma AloneIsBatch(s: System, t: Ticket, orders: seq<CreateOrder>)
    requires Alone(s, t, orders)
    ensures forall u :: u in s.batch ==> u in s.clients
    ensures BatchOrders(s.clients, s.batch) == orders && BatchIsWellFormed(s)
    ensures s.clients[t].channel == Channel([], false) ==> AllWaiting(s)
  {
    assert BatchOrders(s.clients, s.batch) == orders;
  }

  lemma AnswerAlone(run0: seq<System>, steps0: seq<Step>, s0: System, s: System, t: Ticket, orders: seq<CreateOrder>,
      faults: set<Call>, outcome: Outcome, db': Db)
    returns (run: seq<System>, steps: seq<Step>, s': System)
    requires LeadsWell(run0, steps0, s0, s) && Alone(s, t, orders) && s.clients[t].channel == Channel([], false)
    requires BatchStep(s.db, orders, faults, outcome, db') && !outcome.Panicked?
    ensures LeadsWell(run, steps, s0, s') && TickEffect(s, outcome, db', s')
  {
    AloneIsBatch(s, t, orders);
    run, steps, s' := SequentialTickIsAPath(run0, steps0, s0, s, orders, faults, outcome, db');
  }

  lemma TakeFirst(s0: System, orders: seq<CreateOrder>)
    returns (run: seq<System>, steps: seq<Step>, s: System)
    requires |orders| == 1 && WellFormed(orders) && s0 == Start(s0.clients, s0.db)
    requires 0 in s0.clients && s0.clients[0] == NewClient(orders[0])
    ensures s == Taken(s0, 0) && LeadsWell(run, steps, s0, s) && Alone(s, 0, orders)
    ensures s.clients[0].channel == Channel([], false) && s.db == s0.db
  {
    run, steps := Stay(s0);
    run, steps := Take(run, steps, s0, s0, 0);
    s := Taken(s0, 0);
    assert orders == [s.clients[0].order];
  }

  // ----- a failure that was none -----

  /** Client t takes the value that waits for it. */
  ghost function ResultTaken(s: System, t: Ticket, result: Result): System
    requires t in s.clients
  {
    s.(clients := s.clients[t := s.clients[t].(phase := Replied(result), channel := Channel([], true))])
  }

  /** The commit reports an error, the client is told of it, and the worker keeps the batch. */
  ghost predicate ToldFailed(s: System, orders: seq<CreateOrder>) {
    && Alone(s, 0, orders)
    && s.clients[0].phase == Replied(Result(ZERO_ORDER, Some(ErrCallFailed(CommitCall))))
  }

  lemma OnlyCommitStops(db: Db, orders: seq<CreateOrder>, faults: set<Call>)
    requires orders != [] && !Overdrawn(orders, db.products) && faults == {CommitCall}
    requires forall call: Call :: !Refused(db, db.products, orders, call)
    ensures FailsAt(db, orders, faults, CommitCall)
  {
  }

  lemma AdmissibleIsUnrefused(db: Db, orders: seq<CreateOrder>, call: Call)
    requires Admissible(db, orders)
    ensures !Refused(db, db.products, orders, call)
  {
    UnrefusedIsAdmissible(db, db.products, orders);
  }

  /** If the commit reports an error, the statements of an admissible batch run up to it and fail there. */
  lemma CommitCallFails(db: Db, orders: seq<CreateOrder>, faults: set<Call>) returns (t: Plan, w: Writes)
    requires orders != [] && !Overdrawn(orders, db.products) && Admissible(db, orders) && faults == {CommitCall}
    ensures TraceFailure(db, orders, faults, t, w, CommitCall)
    ensures BatchStep(db, orders, faults, Failed(CommitCall), db)
  {
    forall call ensures !Refused(db, db.products, orders, call) {
      AdmissibleIsUnrefused(db, orders, call);
    }
    OnlyCommitStops(db, orders, faults);
    t, w := FailureIsTraced(db, orders, faults, CommitCall);
    TracedIsStep(db, orders, faults, t, w, [], Failed(CommitCall), db);
  }

  lemma CommitFails(s0: System, orders: seq<CreateOrder>) returns (run: seq<System>, steps: seq<Step>, s: System)
    requires |orders| == 1 && WellFormed(orders) && s0 == Start(map[0 := NewClient(orders[0])], s0.db)
    requires Admissible(s0.db, orders)
    ensures LeadsWell(run, steps, s0, s) && s.db == s0.db && ToldFailed(s, orders)
  {
    WellFormedNeverOverdrawn(orders, s0.db.products);
    var _, _ := CommitCallFails(s0.db, orders, {CommitCall});
    run, steps, s := FailureIsTaken(s0, orders, {CommitCall});
  }

  lemma FailureIsTaken(s0: System, orders: seq<CreateOrder>, faults: set<Call>)
    returns (run: seq<System>, steps: seq<Step>, s: System)
    requires |orders| == 1 && WellFormed(orders) && s0 == Start(map[0 := NewClient(orders[0])], s0.db)
    requires BatchStep(s0.db, orders, faults, Failed(CommitCall), s0.db)
    ensures LeadsWell(run, steps, s0, s) && s.db == s0.db && ToldFailed(s, orders)
  {
    var s1, s2 := s0, s0;
    run, steps, s1 := TakeFirst(s0, orders);
    run, steps, s2 := AnswerAlone(run, steps, s0, s1, 0, orders, faults, Failed(CommitCall), s0.db);
    s := ResultTaken(s2, 0, ResultFor(Failed(CommitCall), orders[0].id));
    assert s2.clients[0].channel.buffer[1..] == [];
    run, steps := Then(run, steps, s0, s2, Await(0), s);
  }

  lemma CommittedOrderIsNew(db: Db, orders: seq<CreateOrder>, faults: set<Call>, outcome: Outcome, db': Db, o: Uuid)
    requires BatchStep(db, orders, faults, outcome, db') && WellFormed(orders) && outcome.Committed?
    requires Count(NewItems(db, db'), o) > 0
    ensures o !in OrderIds(db.orders) && o in OrderIds(db'.orders)
  {
    CommitAppends(db, db');
    assert o in OrderIds(NewOrders(db, db'));
  }

  lemma CommitSucceeds(db: Db, orders: seq<CreateOrder>, o: Uuid) returns (outcome: Outcome, db': Db)
    requires orders != [] && WellFormed(orders) && Admissible(db, orders)
    requires Count(Survivors(AllItems(orders), db.products), o) > 0
    ensures BatchStep(db, orders, {}, outcome, db') && outcome.Committed?
    ensures o !in OrderIds(db.orders) && o in OrderIds(db'.orders)
  {
    WellFormedNeverOverdrawn(orders, db.products);
    var t, w, rows;
    t, w, rows, outcome, db' := AdmissibleBatchCommits(db, orders);
    RowsAreSurvivors(AllItems(orders), db.products, NewItems(db, db'));
    CommittedOrderIsNew(db, orders, {}, outcome, db', o);
  }

  lemma FailThenCommit(s0: System, orders: seq<CreateOrder>, outcome: Outcome, db': Db)
    returns (run: seq<System>, steps: seq<Step>, s': System)
    requires |orders| == 1 && WellFormed(orders) && s0 == Start(map[0 := NewClient(orders[0])], s0.db)
    requires BatchStep(s0.db, orders, {}, outcome, db') && outcome.Committed?
    ensures LeadsWell(run, steps, s0, s') && s'.db == db'
    ensures InPhase(s', 0, Replied(Result(ZERO_ORDER, Some(ErrCallFailed(CommitCall)))))
  {
    run, steps, s' := CommitFails(s0, orders);
    var s := s';
    AloneIsBatch(s, 0, orders);
    TickIsNext(s, orders, {}, outcome, db');
    s' := AfterTick(s, outcome, db');
    run, steps := Then(run, steps, s0, s, Tick({}, outcome), s');
  }

  /**
   * Any order that could be committed can be failed first: the commit of its batch reports an error, its
   * client is told so, and the next tick commits the order after all.
   */
  lemma FailedOrderIsCommitted(db: Db, orders: seq<CreateOrder>) returns (run: seq<System>, steps: seq<Step>)
    requires |orders| == 1 && WellFormed(orders) && db.Consistent() && Admissible(db, orders)
    requires Count(Survivors(AllItems(orders), db.products), orders[0].id) > 0
    ensures IsRegular(run, steps) && run[0] == Start(map[0 := NewClient(orders[0])], db)
    ensures InPhase(run[|steps|], 0, Replied(Result(ZERO_ORDER, Some(ErrCallFailed(CommitCall)))))
    ensures orders[0].id !in OrderIds(db.orders) && orders[0].id in OrderIds(run[|steps|].db.orders)
  {
    var clients := map[0 := NewClient(orders[0])];
    var outcome, db' := CommitSucceeds(db, orders, orders[0].id);
    var s';
    run, steps, s' := FailThenCommit(Start(clients, db), orders, outcome, db');
    LeadsFromStart(run, steps, clients, db, s');
  }

  // ----- a cart checked out twice -----

  /** Two calls check out the same cart. */
  ghost predicate CalledTwice(clients: map<Ticket, Client>, order: CreateOrder) {
    && (forall t :: t in clients ==> clients[t] == NewClient(clients[t].order))
    && 0 in clients && clients[0].order == order && 1 in clients && clients[1].order == order
  }

  /** Request 0 is answered, request 1 is still to come. */
  ghost predicate HalfDone(s: System, order: CreateOrder, db': Db) {
    && s.db == db' && s.queue == [] && s.batch == [] && s.processed == [0] && s.worker.Selecting?
    && 1 in s.clients && s.clients[1] == NewClient(order)
  }

  lemma EffectIsHalfDone(s0: System, order: CreateOrder, outcome: Outcome, db': Db, s': System)
    requires CalledTwice(s0.clients, order) && s0 == Start(s0.clients, s0.db) && outcome.Committed?
    requires TickEffect(Taken(s0, 0), outcome, db', s')
    ensures HalfDone(s', order, db')
  {
  }

  lemma FirstSucceeds(s0: System, orders: seq<CreateOrder>, outcome: Outcome, db': Db)
    returns (run: seq<System>, steps: seq<Step>, s: System)
    requires |orders| == 1 && WellFormed(orders)
    requires CalledTwice(s0.clients, orders[0]) && s0 == Start(s0.clients, s0.db)
    requires BatchStep(s0.db, orders, {}, outcome, db') && outcome.Committed?
    ensures LeadsWell(run, steps, s0, s) && HalfDone(s, orders[0], db')
  {
    var s1;
    run, steps, s1 := TakeFirst(s0, orders);
    run, steps, s := AnswerAlone(run, steps, s0, s1, 0, orders, {}, outcome, db');
    EffectIsHalfDone(s0, orders[0], outcome, db', s);
  }

  /** Request 1 brings the same order, of which an item is still in stock. */
  lemma SecondIsStuck(s: System, orders: seq<CreateOrder>, db': Db)
    requires |orders| == 1 && HalfDone(s, orders[0], db') && orders[0].id in OrderIds(db'.orders)
    requires Count(Survivors(AllItems(orders), db'.products), orders[0].id) > 0
    ensures Stuck(Taken(s, 1), 1) && Taken(s, 1).processed == [0] && Taken(s, 1).batch == [1]
  {
    assert BatchOrders(Taken(s, 1).clients, Taken(s, 1).batch) == orders;
  }

  lemma EnoughIsServed(orders: seq<CreateOrder>, stock: map<Uuid, Int32>, i: nat)
    requires Bounded(orders) && WellFormed(orders) && i < |orders|
    requires forall p :: p in stock ==> Sum(Select(AllItems(orders), OfProduct(p))) <= stock[p]
    ensures Count(Survivors(AllItems(orders), stock), orders[i].id) == |orders[i].orderItems|
  {
    EnoughStockServesAll(orders, stock);
    SameItemsSameSelection(Survivors(AllItems(orders), stock), AllItems(orders), OfOrder(orders[i].id));
    OwnItems(orders, i);
  }

  /** Tables in which nothing was ordered yet, with twice what the cart asks for in stock. */
  ghost predicate InStockTwice(db: Db, orders: seq<CreateOrder>) {
    && IsNewTo(db, orders) && NonNegative(db.products)
    && forall p :: p in db.products ==> 2 * Sum(Select(AllItems(orders), OfProduct(p))) <= db.products[p]
  }

  lemma HalfIsLeft(db: Db, orders: seq<CreateOrder>, db': Db, p: Uuid)
    requires Bounded(orders) && InStockTwice(db, orders) && StockCommits(db, orders, db') && p in db.products
    ensures Sum(Select(AllItems(orders), OfProduct(p))) <= db'.products[p]
  {
    SelectNoneNegative(AllItems(orders), OfProduct(p));
    PrefixSum(Select(AllItems(orders), OfProduct(p)), 0);
    EnoughKeepsAll(orders, db.products, p);
    KeptTotal(orders, db.products, p);
  }

  /** A batch in stock twice commits, and leaves enough for all of it once more. */
  lemma CommitTwice(db: Db, orders: seq<CreateOrder>, i: nat) returns (outcome: Outcome, db': Db)
    requires i < |orders| && orders[i].orderItems != [] && WellFormed(orders) && Bounded(orders)
    requires DistinctItems(AllItems(orders)) && InStockTwice(db, orders)
    ensures BatchStep(db, orders, {}, outcome, db') && outcome.Committed? && orders[i].id in OrderIds(db'.orders)
    ensures Count(Survivors(AllItems(orders), db'.products), orders[i].id) > 0
  {
    forall p | p in db.products ensures Sum(Select(AllItems(orders), OfProduct(p))) <= db.products[p] {
      assert 2 * Sum(Select(AllItems(orders), OfProduct(p))) <= db.products[p];
    }
    EnoughIsServed(orders, db.products, i);
    BoundedIsInRange(db, orders);
    OwnItems(orders, i);
    NewBatchIsAdmissible(db, db.products, orders);
    outcome, db' := CommitSucceeds(db, orders, orders[i].id);
    forall p | p in db'.products ensures Sum(Select(AllItems(orders), OfProduct(p))) <= db'.products[p] {
      HalfIsLeft(db, orders, db', p);
    }
    EnoughIsServed(orders, db'.products, i);
  }

  /**
   * Any cart that is in stock twice: checked out, created, and checked out again, it leaves the worker stuck
   * with a batch it can never complete.
   */
  lemma RepeatedCheckoutGetsStuck(clients: map<Ticket, Client>, db: Db, orders: seq<CreateOrder>)
    returns (run: seq<System>, steps: seq<Step>)
    requires |orders| == 1 && orders[0].orderItems != [] && WellFormed(orders) && Bounded(orders)
    requires DistinctItems(orders[0].orderItems) && db.Consistent() && InStockTwice(db, orders)
    requires CalledTwice(clients, orders[0])
    ensures IsRegular(run, steps) && run[0] == Start(clients, db)
    ensures Stuck(run[|steps|], 1) && run[|steps|].processed == [0] && run[|steps|].batch == [1]
  {
    var s0, s := Start(clients, db), Start(clients, db);
    OneOrderBatch(orders);
    var outcome, db' := CommitTwice(db, orders, 0);
    run, steps, s := FirstSucceeds(s0, orders, outcome, db');
    SecondIsStuck(s, orders, db');
    run, steps := Take(run, steps, s0, s, 1);
    LeadsFromStart(run, steps, clients, db, Taken(s, 1));
  }
}
