/**
 * Runs that end well: any batch of new carts that the database accepts can be checked out, and every client answers
 * what first come, first served gives it. And a run in which the queue is full for one client.
 */
module Checkouts {
  import opened Domain
  import opened Items
  import opened Allocation
  import opened Merge
  import opened Database
  import opened Prepare
  import opened Batch
  import opened BatchProof
  import opened Channels
  import opened Existence
  import opened Stock
  import opened Protocol
  import opened ProtocolProof
  import opened Guarantees
  import opened Schedules

  // ----- enqueued and received, one after the other -----

  ghost predicate AllNew(clients: map<Ticket, Client>) {
    forall t :: t in clients ==> clients[t] == NewClient(clients[t].order)
  }

  /** The first n requests of the batch wait at the worker; nothing else has happened to the clients. */
  ghost predicate HasTaken(s0: System, batch: seq<Ticket>, n: nat, s: System)
    requires n <= |batch|
  {
    && s.worker.Selecting? && s.db == s0.db && s.queue == [] && s.batch == batch[..n]
    && s.clients.Keys == s0.clients.Keys
    && forall t :: t in s0.clients ==>
         s.clients[t] == if t in batch[..n] then s0.clients[t].(phase := Waiting) else s0.clients[t]
  }

  lemma TakeNext(s0: System, batch: seq<Ticket>, n: nat, s: System)
    requires n < |batch| && HasTaken(s0, batch, n, s) && batch[n] !in batch[..n]
    requires batch[n] in s0.clients && s0.clients[batch[n]].phase.Sending?
    ensures InPhase(s, batch[n], Sending) && HasTaken(s0, batch, n + 1, Taken(s, batch[n]))
  {
    assert batch[..n + 1] == batch[..n] + [batch[n]];
  }

  lemma {:induction false} TakeAll(s0: System, batch: seq<Ticket>, n: nat)
    returns (run: seq<System>, steps: seq<Step>, s: System)
    requires n <= |batch| && NoDuplicates(batch) && HasTaken(s0, batch, 0, s0)
    requires forall t :: t in batch ==> t in s0.clients && s0.clients[t].phase.Sending?
    ensures LeadsWell(run, steps, s0, s) && HasTaken(s0, batch, n, s)
  {
    if n == 0 {
      run, steps := Stay(s0);
      s := s0;
    } else {
      run, steps, s := TakeAll(s0, batch, n - 1);
      TakeNext(s0, batch, n - 1, s);
      run, steps := Take(run, steps, s0, s, batch[n - 1]);
      s := Taken(s, batch[n - 1]);
    }
  }

  // ----- answered -----

  /** What a client that has just been answered takes. */
  ghost function Answered(c: Client, result: Result): Client {
    c.(phase := Replied(result), channel := Channel([], true), sent := [result])
  }

  /** Of those in the batch, the first n have taken their results. */
  ghost predicate HasAwaited(s1: System, batch: seq<Ticket>, n: nat, s: System)
    requires n <= |batch|
  {
    && s.clients.Keys == s1.clients.Keys && s == s1.(clients := s.clients)
    && forall t :: t in s1.clients ==>
         s.clients[t] == if t in batch[..n] && s1.clients[t].sent != []
           then Answered(s1.clients[t], s1.clients[t].sent[0]) else s1.clients[t]
  }

  /** Everyone in the batch waits with its one result in a closed channel. */
  ghost predicate AllHold(s1: System, batch: seq<Ticket>) {
    forall t :: t in batch ==> t in s1.clients && Holds(s1.clients[t])
  }

  ghost predicate Holds(c: Client) {
    c.phase.Waiting? && |c.sent| == 1 && c.channel == Channel(c.sent, true)
  }

  lemma AwaitNext(s1: System, batch: seq<Ticket>, n: nat, s: System) returns (s': System)
    requires n < |batch| && HasAwaited(s1, batch, n, s) && AllHold(s1, batch) && batch[n] !in batch[..n]
    ensures NextBy(s, Await(batch[n]), s') && HasAwaited(s1, batch, n + 1, s')
  {
    var t := batch[n];
    assert t in batch && Holds(s1.clients[t]) && s.clients[t] == s1.clients[t];
    var r := s1.clients[t].sent[0];
    assert s1.clients[t].sent == [r] && [r][1..] == [];
    s' := s.(clients := s.clients[t := Answered(s.clients[t], r)]);
    assert batch[..n + 1] == batch[..n] + [t];
  }

  lemma {:induction false} AwaitAll(run0: seq<System>, steps0: seq<Step>, s0: System, s1: System, batch: seq<Ticket>,
      n: nat)
    returns (run: seq<System>, steps: seq<Step>, s: System)
    requires LeadsWell(run0, steps0, s0, s1) && n <= |batch| && NoDuplicates(batch) && AllHold(s1, batch)
    ensures LeadsWell(run, steps, s0, s) && HasAwaited(s1, batch, n, s)
  {
    if n == 0 {
      run, steps, s := run0, steps0, s1;
    } else {
      var before;
      run, steps, before := AwaitAll(run0, steps0, s0, s1, batch, n - 1);
      s := AwaitNext(s1, batch, n - 1, before);
      run, steps := Then(run, steps, s0, before, Await(batch[n - 1]), s);
    }
  }

  // ----- a whole batch -----

  /** The batch waits at the worker, and nobody has been told anything. */
  ghost predicate BatchWaits(s: System, batch: seq<Ticket>) {
    && s.worker.Selecting? && s.batch == batch && batch != [] && NoDuplicates(batch)
    && forall t :: t in batch ==> t in s.clients && s.clients[t].phase.Waiting? && Untouched(s.clients[t])
  }

  /** Every client of the batch has answered with what the outcome holds for its order; the others are as before. */
  ghost predicate BatchIsAnswered(s: System, batch: seq<Ticket>, outcome: Outcome, s': System) {
    && s'.clients.Keys == s.clients.Keys
    && forall t :: t in s.clients ==>
         if t in batch
         then s'.clients[t].order == s.clients[t].order
           && s'.clients[t].phase == Replied(ResultFor(outcome, s.clients[t].order.id))
         else s'.clients[t] == s.clients[t]
  }

  lemma AnswerBatch(run0: seq<System>, steps0: seq<Step>, s0: System, s: System, batch: seq<Ticket>,
      orders: seq<CreateOrder>, faults: set<Call>, outcome: Outcome, db': Db)
    returns (run: seq<System>, steps: seq<Step>, s': System)
    requires LeadsWell(run0, steps0, s0, s) && BatchWaits(s, batch)
    requires orders == BatchOrders(s.clients, s.batch) && WellFormed(orders)
    requires BatchStep(s.db, orders, faults, outcome, db') && !outcome.Panicked?
    ensures LeadsWell(run, steps, s0, s') && BatchIsAnswered(s, batch, outcome, s') && s'.db == db'
  {
    var s1;
    run, steps, s1 := SequentialTickIsAPath(run0, steps0, s0, s, orders, faults, outcome, db');
    EffectHolds(s, batch, outcome, db', s1);
    run, steps, s' := AwaitAll(run, steps, s0, s1, batch, |batch|);
    AwaitedIsAnswered(s, batch, outcome, db', s1, s');
  }

  lemma EffectHolds(s: System, batch: seq<Ticket>, outcome: Outcome, db': Db, s1: System)
    requires BatchWaits(s, batch) && TickEffect(s, outcome, db', s1)
    ensures AllHold(s1, batch)
  {
    forall t | t in batch ensures Holds(s1.clients[t]) {
      assert s1.clients[t] == AnsweredClient(s.clients[t], outcome);
    }
  }

  lemma AwaitedIsAnswered(s: System, batch: seq<Ticket>, outcome: Outcome, db': Db, s1: System, s': System)
    requires BatchWaits(s, batch) && TickEffect(s, outcome, db', s1) && HasAwaited(s1, batch, |batch|, s')
    ensures BatchIsAnswered(s, batch, outcome, s')
  {
    assert batch[..|batch|] == batch;
    forall t | t in batch ensures s'.clients[t].phase == Replied(ResultFor(outcome, s.clients[t].order.id)) {
      assert s1.clients[t] == AnsweredClient(s.clients[t], outcome);
    }
  }

  /** What first come, first served gives an order out of this stock; or word that it is out of stock. */
  ghost predicate GetsItsShare(orders: seq<CreateOrder>, stock: map<Uuid, Int32>, order: CreateOrder, result: Result)
    requires NoneNegative(AllItems(orders))
  {
    var served := Select(Serve(AllItems(orders), stock), OfOrder(order.id));
    if served == [] then result == Result(ZERO_ORDER, Some(ErrOutOfStock))
    else
      && result.err == None && result.order.id == order.id && result.order.userId == order.userId
      && multiset(result.order.orderItems) == multiset(served)
  }

  lemma AnswersAreShares(db: Db, orders: seq<CreateOrder>, outcome: Outcome, db': Db, i: nat)
    requires BatchStep(db, orders, {}, outcome, db') && outcome.Committed? && i < |orders|
    requires WellFormed(orders) && Bounded(orders) && db.Consistent() && NonNegative(db.products)
    ensures GetsItsShare(orders, db.products, orders[i], ResultFor(outcome, orders[i].id))
  {
    AnswersFollowFirstComeFirstServed(db, orders, {}, outcome, db', i);
  }

  /** Client t has answered, and with its share. */
  ghost predicate AnswersItsShare(s: System, t: Ticket, orders: seq<CreateOrder>, stock: map<Uuid, Int32>)
    requires NoneNegative(AllItems(orders))
  {
    && t in s.clients && s.clients[t].phase.Replied?
    && GetsItsShare(orders, stock, s.clients[t].order, s.clients[t].phase.result)
  }

  lemma SharesAreAnswered(s: System, batch: seq<Ticket>, orders: seq<CreateOrder>, outcome: Outcome, db': Db,
      s': System)
    requires BatchWaits(s, batch) && orders == BatchOrders(s.clients, batch) && BatchIsAnswered(s, batch, outcome, s')
    requires BatchStep(s.db, orders, {}, outcome, db') && outcome.Committed?
    requires WellFormed(orders) && Bounded(orders) && s.db.Consistent() && NonNegative(s.db.products)
    ensures forall t :: t in batch ==> AnswersItsShare(s', t, orders, s.db.products)
  {
    forall t | t in batch ensures AnswersItsShare(s', t, orders, s.db.products) {
      var i :| 0 <= i < |batch| && batch[i] == t;
      AnswersAreShares(s.db, orders, outcome, db', i);
    }
  }

  /** From any such state a committing tick lets everyone answer with its share. */
  lemma ServeBatch(run0: seq<System>, steps0: seq<Step>, s0: System, s: System, batch: seq<Ticket>,
      orders: seq<CreateOrder>)
    returns (run: seq<System>, steps: seq<Step>, s': System)
    requires LeadsWell(run0, steps0, s0, s) && BatchWaits(s, batch) && orders == BatchOrders(s.clients, batch)
    requires WellFormed(orders) && Bounded(orders) && Admissible(s.db, orders)
    requires s.db.Consistent() && NonNegative(s.db.products)
    ensures LeadsWell(run, steps, s0, s') && s'.clients.Keys == s.clients.Keys
    ensures forall t :: t in batch ==> AnswersItsShare(s', t, orders, s.db.products)
    ensures forall t :: t in s.clients && t !in batch ==> s'.clients[t] == s.clients[t]
  {
    WellFormedNeverOverdrawn(orders, s.db.products);
    var p, w, rows, outcome, db' := AdmissibleBatchCommits(s.db, orders);
    run, steps, s' := AnswerBatch(run0, steps0, s0, s, batch, orders, {}, outcome, db');
    SharesAreAnswered(s, batch, orders, outcome, db', s');
  }

  lemma TakenBatchWaits(s0: System, batch: seq<Ticket>, s: System)
    requires HasTaken(s0, batch, |batch|, s) && batch != [] && NoDuplicates(batch)
    requires forall t :: t in batch ==> t in s0.clients && s0.clients[t] == NewClient(s0.clients[t].order)
    ensures BatchWaits(s, batch) && BatchOrders(s.clients, batch) == BatchOrders(s0.clients, batch)
  {
    assert batch[..|batch|] == batch;
    assert BatchOrders(s.clients, batch) == BatchOrders(s0.clients, batch);
  }

  /**
   * Whatever new carts a batch holds: if the database accepts what the stock lets through, they can be checked out
   * together, and every client answers with what first come, first served gives it.
   */
  lemma BatchCanBeServed(clients: map<Ticket, Client>, db: Db, batch: seq<Ticket>, orders: seq<CreateOrder>)
    returns (run: seq<System>, steps: seq<Step>)
    requires AllNew(clients) && batch != [] && NoDuplicates(batch) && forall t :: t in batch ==> t in clients
    requires orders == BatchOrders(clients, batch) && WellFormed(orders) && Bounded(orders)
    requires db.Consistent() && NonNegative(db.products) && Admissible(db, orders)
    ensures IsRegular(run, steps) && run[0] == Start(clients, db)
    ensures forall t :: t in batch ==> AnswersItsShare(run[|steps|], t, orders, db.products)
  {
    var s0, s := Start(clients, db), Start(clients, db);
    run, steps, s := TakeAll(s0, batch, |batch|);
    TakenBatchWaits(s0, batch, s);
    var s';
    run, steps, s' := ServeBatch(run, steps, s0, s, batch, orders);
    LeadsFromStart(run, steps, clients, db, s');
  }

  // ----- one cart, all of it in stock -----

  /** The client answers 201, with its whole cart, for its user. */
  ghost predicate IsCreated(s: System, t: Ticket, order: CreateOrder) {
    && t in s.clients && s.clients[t].phase.Replied?
    && var result := s.clients[t].phase.result;
       && result.err == None && result.order.id == order.id && result.order.userId == order.userId
       && multiset(result.order.orderItems) == multiset(order.orderItems)
  }

  /** A new cart on its own, with enough of everything in stock. */
  ghost predicate NewAndInStock(db: Db, orders: seq<CreateOrder>) {
    && |orders| == 1 && orders[0].orderItems != [] && WellFormed(orders) && Bounded(orders)
    && DistinctItems(AllItems(orders)) && IsNewTo(db, orders) && db.Consistent() && NonNegative(db.products)
    && forall p :: p in db.products ==> Sum(Select(AllItems(orders), OfProduct(p))) <= db.products[p]
  }

  lemma OneOrderItems(orders: seq<CreateOrder>)
    requires |orders| == 1 && WellFormed(orders)
    ensures AllItems(orders) == orders[0].orderItems
    ensures Select(AllItems(orders), OfOrder(orders[0].id)) == orders[0].orderItems
  {
    assert orders[..0] == [] && AllItems([]) + orders[0].orderItems == orders[0].orderItems;
    SelectAll(AllItems(orders), OfOrder(orders[0].id));
  }

  lemma WholeCartIsServed(db: Db, orders: seq<CreateOrder>)
    requires NewAndInStock(db, orders)
    ensures Admissible(db, orders)
    ensures multiset(Select(Serve(AllItems(orders), db.products), OfOrder(orders[0].id)))
      == multiset(orders[0].orderItems)
  {
    var items, o := AllItems(orders), OfOrder(orders[0].id);
    OneOrderItems(orders);
    BoundedIsInRange(db, orders);
    NewBatchIsAdmissible(db, db.products, orders);
    EnoughStockServesAll(orders, db.products);
    forall p ensures Sum(Select(items, OfProduct(p))) <= 0x8000_0000 {
      assert Sum(Select(items, OfProduct(p))) <= 0x8000_0000;
    }
    SurvivorsAreServed(items, db.products);
    SameItemsSameSelection(Serve(items, db.products), items, o);
  }

  lemma ShareIsWhole(db: Db, orders: seq<CreateOrder>, s: System, t: Ticket)
    requires NewAndInStock(db, orders) && AnswersItsShare(s, t, orders, db.products) && s.clients[t].order == orders[0]
    ensures IsCreated(s, t, orders[0])
  {
    WholeCartIsServed(db, orders);
    SameSize(Select(Serve(AllItems(orders), db.products), OfOrder(orders[0].id)), orders[0].orderItems);
  }

  /** Any new cart in stock can be checked out: its client answers 201, with the whole cart. */
  lemma CartCanBeCreated(clients: map<Ticket, Client>, db: Db, t: Ticket, orders: seq<CreateOrder>)
    returns (run: seq<System>, steps: seq<Step>)
    requires AllNew(clients) && t in clients && orders == [clients[t].order] && NewAndInStock(db, orders)
    ensures IsRegular(run, steps) && run[0] == Start(clients, db) && IsCreated(run[|steps|], t, clients[t].order)
  {
    WholeCartIsServed(db, orders);
    run, steps := OneCartIsServed(clients, db, t, orders);
    ShareIsWhole(db, orders, run[|steps|], t);
  }

  lemma OneCartIsServed(clients: map<Ticket, Client>, db: Db, t: Ticket, orders: seq<CreateOrder>)
    returns (run: seq<System>, steps: seq<Step>)
    requires AllNew(clients) && t in clients && orders == [clients[t].order] && WellFormed(orders) && Bounded(orders)
    requires db.Consistent() && NonNegative(db.products) && Admissible(db, orders)
    ensures IsRegular(run, steps) && run[0] == Start(clients, db)
    ensures AnswersItsShare(run[|steps|], t, orders, db.products)
    ensures run[|steps|].clients[t].order == clients[t].order
  {
    assert BatchOrders(clients, [t]) == orders;
    run, steps := BatchCanBeServed(clients, db, [t], orders);
    RunKeepsClients(run, steps, |steps|, t);
    assert t in [t];
  }

  lemma {:induction false} RunKeepsClients(run: seq<System>, steps: seq<Step>, i: nat, t: Ticket)
    requires IsPath(run, steps) && i <= |steps| && t in run[0].clients
    ensures t in run[i].clients && run[i].clients[t].order == run[0].clients[t].order
  {
    for k := 0 to i
      invariant t in run[k].clients && run[k].clients[t].order == run[0].clients[t].order
    {
      assert Follows(run, steps, k);
      NextKeepsOrders(run[k], steps[k], run[k + 1]);
    }
  }

  // ----- a full queue -----

  /** Request t fills the queue, and client u is still at its first select. */
  ghost predicate QueueIsFull(s: System, t: Ticket, u: Ticket) {
    s.queue == [t] && InPhase(s, u, Sending) && forall s' :: !NextBy(s, Enqueue(u), s')
  }

  /**
   * A client for which the queue is full gives up there, never to be received, while the request that filled
   * the queue is received, committed and answered.
   */
  lemma FullQueueTurnsOneAway(clients: map<Ticket, Client>, db: Db, t: Ticket, u: Ticket, orders: seq<CreateOrder>)
    returns (full: System, s: System)
    requires AllNew(clients) && t in clients && u in clients && t != u
    requires orders == [clients[t].order] && NewAndInStock(db, orders)
    ensures CanReach(Start(clients, db), full) && QueueIsFull(full, t, u)
    ensures NextBy(full, GiveUp(u), WithPhase(full, u, GaveUp)) && CanReach(WithPhase(full, u, GaveUp), s)
    ensures InPhase(s, u, GaveUp) && IsCreated(s, t, clients[t].order)
  {
    var s0 := Start(clients, db);
    full := WithPhase(s0, t, Waiting).(queue := [t]);
    ReachesItself(s0);
    ReachNext(s0, s0, Enqueue(t), full);
    var s1 := WithPhase(full, u, GaveUp);
    var s2 := s1.(queue := s1.queue[1..], batch := s1.batch + [t], received := s1.received + [t]);
    var run, steps := Stay(s1);
    run, steps := Then(run, steps, s1, s1, Receive, s2);
    assert BatchOrders(s2.clients, [t]) == orders;
    WholeCartIsServed(db, orders);
    run, steps, s := ServeBatch(run, steps, s1, s2, [t], orders);
    RunKeepsClients(run, steps, |steps|, t);
    ShareIsWhole(db, orders, s, t);
  }
}
