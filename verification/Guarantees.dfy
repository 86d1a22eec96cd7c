/** What every client, the shop and the worker can rely on in every run, and where the error path breaks it. */
module Guarantees {
  import opened Domain
  import opened Items
  import opened Allocation
  import opened Database
  import opened Batch
  import opened BatchProof
  import opened Channels
  import opened Stock
  import opened Protocol
  import opened ProtocolProof

  /** A run on a database in order, in which no committed batch holds a cart twice. */
  ghost predicate IsRegular(run: seq<System>, steps: seq<Step>) {
    IsRun(run, steps) && CommitsWellFormed(run, steps) && run[0].db.Consistent()
  }

  // ----- clients -----

  /**
   * A client that answers 201 read the one value sent to it, never the zero value of a closed channel;
   * its order is in the database, for its user and with exactly the items it was told, and it asked for all of them.
   */
  lemma CreatedMeansCommitted(run: seq<System>, steps: seq<Step>, i: nat, t: Ticket, result: Result)
    requires IsRegular(run, steps) && i <= |steps| && t in run[i].clients
    requires run[i].clients[t].phase == Replied(result) && result.err.None?
    ensures var s, c := run[i], run[i].clients[t];
      && c.sent == [result] && result != ZERO_RESULT
      && result.order.id == c.order.id && result.order.userId == c.order.userId
      && OrderRow(c.order.id, c.order.userId) in s.db.orders
      && Count(s.db.items, c.order.id) > 0
      && multiset(result.order.orderItems) == multiset(Select(s.db.items, OfOrder(c.order.id)))
      && multiset(result.order.orderItems) <= multiset(c.order.orderItems)
  {
    RunFlows(run, steps, i);
    RunTells(run, steps, i);
    var s, c := run[i], run[i].clients[t];
    assert ClientOk(s, t, c) && result in Due(s, t);
    SameSize(result.order.orderItems, Select(s.db.items, OfOrder(c.order.id)));
  }

  /** However often a cart is checked out, at most one checkout succeeds, and none if the order was there before. */
  lemma CheckoutSucceedsOnce(run: seq<System>, steps: seq<Step>, i: nat, t: Ticket, u: Ticket)
    requires IsRegular(run, steps) && i <= |steps| && t in run[i].clients && u in run[i].clients
    requires run[i].clients[t].phase.Replied? && run[i].clients[t].phase.result.err.None?
    requires run[i].clients[u].phase.Replied? && run[i].clients[u].phase.result.err.None?
    ensures run[i].clients[t].order.id == run[i].clients[u].order.id ==> t == u
    ensures run[i].clients[t].order.id !in OrderIds(run[0].db.orders)
  {
    RunFlows(run, steps, i);
    RunTells(run, steps, i);
    var s := run[i];
    assert ClientOk(s, t, s.clients[t]) && s.clients[t].phase.result in Due(s, t);
    assert ClientOk(s, u, s.clients[u]) && s.clients[u].phase.result in Due(s, u);
  }

  /** The order exists only if it was there from the start or another checkout of the same cart made it. */
  ghost predicate OnlyByOthers(run: seq<System>, i: nat, t: Ticket)
    requires i < |run| && t in run[i].clients
  {
    var o := run[i].clients[t].order.id;
    o in OrderIds(run[i].db.orders) ==> o in OrderIds(run[0].db.orders) || exists u :: u != t && Owns(run[i], u, o)
  }

  /** The cart has only been checked out this once. */
  ghost predicate OnlyCheckout(run: seq<System>, i: nat, t: Ticket)
    requires i < |run| && t in run[i].clients
  {
    var s, o := run[i], run[i].clients[t].order.id;
    && o !in OrderIds(run[0].db.orders)
    && forall u :: u in s.received && u in s.clients && s.clients[u].order.id == o ==> u == t
  }

  /** In every state in which a client has been told "out of stock", its own request has made no order. */
  lemma OutOfStockMeansNoOrder(run: seq<System>, steps: seq<Step>, i: nat, t: Ticket, result: Result)
    requires IsRegular(run, steps) && i <= |steps| && t in run[i].clients
    requires run[i].clients[t].phase == Replied(result) && result.err == Some(ErrOutOfStock)
    ensures OnlyByOthers(run, i, t)
    ensures var db, o := run[i].db, run[i].clients[t].order.id;
      OnlyCheckout(run, i, t) ==> o !in OrderIds(db.orders) && Count(db.items, o) == 0
  {
    RunFlows(run, steps, i);
    RunTells(run, steps, i);
    var s, c := run[i], run[i].clients[t];
    assert ClientOk(s, t, c) && result in Due(s, t);
    assert !Owns(s, t, c.order.id);
    AbsentHasNoItems(s.db, c.order.id);
  }

  /** In any run: a client that times out before its request is queued is never received and never answered. */
  lemma GivenUpIsNeverProcessed(run: seq<System>, steps: seq<Step>, i: nat, t: Ticket)
    requires IsRun(run, steps) && i <= |steps| && InPhase(run[i], t, GaveUp)
    ensures t !in run[i].received && t !in run[i].queue && t !in run[i].batch && t !in run[i].processed
    ensures Untouched(run[i].clients[t])
  {
    RunFlows(run, steps, i);
    assert ClientOk(run[i], t, run[i].clients[t]);
  }

  /** Such a client makes no order. */
  lemma GivenUpMakesNoOrder(run: seq<System>, steps: seq<Step>, i: nat, t: Ticket)
    requires IsRegular(run, steps) && i <= |steps| && InPhase(run[i], t, GaveUp)
    ensures OnlyByOthers(run, i, t)
    ensures var db, o := run[i].db, run[i].clients[t].order.id;
      OnlyCheckout(run, i, t) ==> o !in OrderIds(db.orders) && Count(db.items, o) == 0
  {
    GivenUpIsNeverProcessed(run, steps, i, t);
    RunTells(run, steps, i);
    assert !Owns(run[i], t, run[i].clients[t].order.id);
    AbsentHasNoItems(run[i].db, run[i].clients[t].order.id);
  }

  lemma AbsentHasNoItems(db: Db, o: Uuid)
    requires db.Consistent()
    ensures o !in OrderIds(db.orders) ==> Count(db.items, o) == 0
  {
    if o !in OrderIds(db.orders) {
      UnknownOrderHasNoItems(db, o);
    }
  }

  /** No send ever blocks, whether or not the client is still there; and none panics before a batch has failed. */
  lemma SendsNeverBlock(run: seq<System>, steps: seq<Step>, i: nat, t: Ticket)
    requires IsRun(run, steps) && i <= |steps|
    requires run[i].worker.Delivering? && t in run[i].worker.toSend
    ensures t in run[i].clients
    ensures var channel := run[i].clients[t].channel;
      if channel.closed then t in RetriedPart(run[i]) else channel.buffer == []
    ensures exists s' :: SendStep(run[i], t, s') && (run[i].retried == 0 ==> s'.worker.Delivering?)
  {
    RunFlows(run, steps, i);
    var s := run[i];
    assert t in s.batch && t in s.received && t in s.clients;
    var c := s.clients[t];
    assert ClientOk(s, t, c);
    if c.channel.closed {
      assert SendStep(s, t, s.(worker := Crashed));
    } else {
      var result := ResultFor(s.worker.outcome, c.order.id);
      var s' := s.(
        worker := s.worker.(toSend := s.worker.toSend - {t}, toClose := s.worker.toClose + {t}),
        clients := s.clients[t := Sent(c, result)]);
      assert SendStep(s, t, s') && s'.worker.Delivering?;
    }
  }

  lemma NextCrashesOnlyAfterFailure(s: System, step: Step, s': System)
    requires Flow(s) && NextBy(s, step, s') && (step.Tick? ==> BatchIsWellFormed(s))
    requires s.worker.Crashed? ==> s.retried > 0
    ensures s'.worker.Crashed? ==> s'.retried > 0
  {
    match step {
      case Tick(faults, outcome) => WellFormedNeverOverdrawn(BatchOrders(s.clients, s.batch), s.db.products);
      case Send(t) => assert t in s.batch && ClientOk(s, t, s.clients[t]);
      case Close(t) => assert t in s.batch && ClientOk(s, t, s.clients[t]);
      case _ =>
    }
  }

  lemma StepCrashesOnlyAfterFailure(run: seq<System>, steps: seq<Step>, i: nat)
    requires IsRun(run, steps) && TicksWellFormed(run, steps) && i < |steps|
    requires run[i].worker.Crashed? ==> run[i].retried > 0
    ensures run[i + 1].worker.Crashed? ==> run[i + 1].retried > 0
  {
    RunFlows(run, steps, i);
    assert Follows(run, steps, i) && TickIsWellFormed(run, steps, i);
    NextCrashesOnlyAfterFailure(run[i], steps[i], run[i + 1]);
  }

  /** As long as no batch has failed, nothing the process does takes it down. */
  lemma {:induction false} NoCrashBeforeFailure(run: seq<System>, steps: seq<Step>, i: nat)
    requires IsRun(run, steps) && TicksWellFormed(run, steps) && i <= |steps|
    ensures run[i].worker.Crashed? ==> run[i].retried > 0
  {
    for k := 0 to i
      invariant run[k].worker.Crashed? ==> run[k].retried > 0
    {
      StepCrashesOnlyAfterFailure(run, steps, k);
    }
  }

  // ----- orders -----

  /** Every order that was not there at the start comes from a request: its cart, its user, and items it listed. */
  lemma OnlyAskedItemsAreOrdered(run: seq<System>, steps: seq<Step>, i: nat, o: Uuid)
    requires IsRegular(run, steps) && i <= |steps|
    requires o in OrderIds(run[i].db.orders) && o !in OrderIds(run[0].db.orders)
    ensures exists u ::
      && u in run[i].received && u in run[i].clients && run[i].clients[u].order.id == o
      && OrderRow(o, run[i].clients[u].order.userId) in run[i].db.orders
      && multiset(Select(run[i].db.items, OfOrder(o))) <= multiset(run[i].clients[u].order.orderItems)
  {
    RunTells(run, steps, i);
    var u :| Owns(run[i], u, o);
  }

  lemma StepKeepsOrder(s: System, step: Step, s': System, o: Uuid)
    requires NextBy(s, step, s') && (Commits(step) ==> BatchIsWellFormed(s)) && o in OrderIds(s.db.orders)
    ensures o in OrderIds(s'.db.orders) && Select(s'.db.items, OfOrder(o)) == Select(s.db.items, OfOrder(o))
  {
    NextKeepsOrders(s, step, s');
    if Commits(step) {
      CommitKeepsOld(s.db, BatchOrders(s.clients, s.batch), s'.db, o);
    }
  }

  lemma RunStepKeepsOrder(run: seq<System>, steps: seq<Step>, i: nat, o: Uuid)
    requires IsPath(run, steps) && CommitsWellFormed(run, steps) && i < |steps| && o in OrderIds(run[i].db.orders)
    ensures o in OrderIds(run[i + 1].db.orders)
    ensures Select(run[i + 1].db.items, OfOrder(o)) == Select(run[i].db.items, OfOrder(o))
  {
    assert Follows(run, steps, i) && CommitIsWellFormed(run, steps, i);
    StepKeepsOrder(run[i], steps[i], run[i + 1], o);
  }

  /** Once an order is in the database its items never change, whatever is checked out later, even the same cart. */
  lemma {:induction false} CommittedOrdersAreFinal(run: seq<System>, steps: seq<Step>, i: nat, j: nat, o: Uuid)
    requires IsPath(run, steps) && CommitsWellFormed(run, steps) && i <= j <= |steps|
    requires o in OrderIds(run[i].db.orders)
    ensures o in OrderIds(run[j].db.orders)
    ensures Select(run[j].db.items, OfOrder(o)) == Select(run[i].db.items, OfOrder(o))
  {
    for k := i to j
      invariant o in OrderIds(run[k].db.orders)
      invariant Select(run[k].db.items, OfOrder(o)) == Select(run[i].db.items, OfOrder(o))
    {
      RunStepKeepsOrder(run, steps, k, o);
    }
  }

  /** The second query of the balance check: no order is ever without items, no item without its order. */
  lemma NoOrderIsEverEmpty(run: seq<System>, steps: seq<Step>, i: nat, o: Uuid)
    requires IsRegular(run, steps) && i <= |steps|
    ensures o in OrderIds(run[i].db.orders) <==> Count(run[i].db.items, o) > 0
  {
    RunTells(run, steps, i);
    AbsentHasNoItems(run[i].db, o);
  }

  // ----- the worker's books -----

  /**
   * The requests received are, in order, those of the completed batches and then the current batch;
   * until a batch fails, between batches a request has been answered exactly when its batch is complete.
   */
  lemma WorkerAccounts(run: seq<System>, steps: seq<Step>, i: nat)
    requires IsRun(run, steps) && i <= |steps|
    ensures run[i].received == run[i].processed + run[i].batch
    ensures NoDuplicates(run[i].received + run[i].queue)
    ensures forall t :: t in run[i].processed ==>
      t in run[i].clients && run[i].clients[t].channel.closed && |run[i].clients[t].sent| == 1
    ensures run[i].worker.Selecting? && run[i].retried == 0 ==>
      forall t :: t in run[i].clients ==> (run[i].clients[t].sent != [] <==> t in run[i].processed)
  {
    RunFlows(run, steps, i);
    var s := run[i];
    forall t | t in s.clients
      ensures t in s.processed ==> s.clients[t].channel.closed && |s.clients[t].sent| == 1
      ensures s.worker.Selecting? && s.retried == 0 ==> (s.clients[t].sent != [] <==> t in s.processed)
    {
      assert ClientOk(s, t, s.clients[t]);
    }
    forall t | t in s.processed ensures t in s.clients {
      assert t in s.received;
    }
  }

  // ----- after a failed batch -----

  /** The kept batch begins with requests whose channels are closed, so answering it again cannot finish. */
  lemma RetryCannotFinish(s: System, s': System)
    requires Flow(s) && s.retried > 0
    ensures !FinishStep(s, s')
    ensures s.worker.Delivering? ==>
      s.batch[0] in s.worker.toSend && SendStep(s, s.batch[0], s.(worker := Crashed))
  {
    if s.worker.Delivering? {
      var t := s.batch[0];
      assert RetriedPart(s)[0] == t;
      BatchIsKnown(s);
      assert ClientOk(s, t, s.clients[t]);
    }
  }

  /** A batch has failed, or the worker has ended. */
  ghost predicate Doomed(s: System) {
    || s.retried > 0 || s.worker.Crashed? || s.worker.Stopped?
    || (s.worker.Delivering? && !s.worker.outcome.Committed?)
  }

  lemma StaysDoomed(s: System, step: Step, s': System)
    requires Flow(s) && Doomed(s) && NextBy(s, step, s')
    ensures Doomed(s') && s'.processed == s.processed
  {
    if step.Finish? && s.retried > 0 {
      RetryCannotFinish(s, s');
    }
  }

  /** Once a batch has failed, no batch is ever completed again. */
  lemma {:induction false} NothingCompletesAfterFailure(run: seq<System>, steps: seq<Step>, i: nat, j: nat)
    requires IsRun(run, steps) && i <= j <= |steps| && Doomed(run[i])
    ensures Doomed(run[j]) && run[j].processed == run[i].processed
  {
    for k := i to j
      invariant Doomed(run[k]) && run[k].processed == run[i].processed
    {
      RunFlows(run, steps, k);
      assert Follows(run, steps, k);
      StaysDoomed(run[k], steps[k], run[k + 1]);
    }
  }

  /**
   * The answer "failed" is not final. Exactly when the next tick commits an order its client was told had failed:
   * nothing faults this time, the trim does not panic, the batch is admissible, and the order still lists an item.
   */
  lemma FailedOrderIsCommittedExactlyWhen(s: System, faults: set<Call>, outcome: Outcome, s': System, t: Ticket)
    requires Flow(s) && TickStep(s, faults, outcome, s') && t in RetriedPart(s)
    ensures t in s.clients && WasFailed(s.clients[t])
    ensures s.db.orders <= s'.db.orders
    ensures var orders, o := BatchOrders(s.clients, s.batch), s.clients[t].order.id;
      o in OrderIds(NewOrders(s.db, s'.db)) <==>
        faults == {} && !Overdrawn(orders, s.db.products) && Admissible(s.db, orders)
        && StillLists(orders, s.db.products, o)
  {
    BatchIsKnown(s);
    assert t in s.batch && ClientOk(s, t, s.clients[t]);
    TickCommitsOrder(s.db, BatchOrders(s.clients, s.batch), faults, outcome, s'.db, s.clients[t].order.id);
  }

  /** For different carts the trim never panics, and an order still lists an item when one of its items survives. */
  lemma FailedCartIsCommittedExactlyWhen(s: System, faults: set<Call>, outcome: Outcome, s': System, t: Ticket)
    requires Flow(s) && TickStep(s, faults, outcome, s') && BatchIsWellFormed(s) && t in RetriedPart(s)
    ensures t in s.clients && WasFailed(s.clients[t])
    ensures s.db.orders <= s'.db.orders
    ensures var orders := BatchOrders(s.clients, s.batch);
      s.clients[t].order.id in OrderIds(NewOrders(s.db, s'.db)) <==>
        faults == {} && Admissible(s.db, orders)
        && Count(Survivors(AllItems(orders), s.db.products), s.clients[t].order.id) > 0
  {
    FailedOrderIsCommittedExactlyWhen(s, faults, outcome, s', t);
    WellFormedNeverOverdrawn(BatchOrders(s.clients, s.batch), s.db.products);
    WellFormedLists(BatchOrders(s.clients, s.batch), s.db.products, s.clients[t].order.id);
  }

  lemma TickCommitsOrder(db: Db, orders: seq<CreateOrder>, faults: set<Call>, outcome: Outcome, db': Db, o: Uuid)
    requires BatchStep(db, orders, faults, outcome, db') && orders != []
    ensures db.orders <= db'.orders
    ensures o in OrderIds(NewOrders(db, db')) <==>
      faults == {} && !Overdrawn(orders, db.products) && Admissible(db, orders) && StillLists(orders, db.products, o)
  {
  }

  // ----- checking out a cart again -----

  /** Request t checks out a cart whose order exists, and would be given an item of it once more. */
  ghost predicate Repeats(s: System, t: Ticket) {
    && t in s.batch && (forall u :: u in s.batch ==> u in s.clients)
    && s.clients[t].order.id in OrderIds(s.db.orders)
    && Count(Survivors(AllItems(BatchOrders(s.clients, s.batch)), s.db.products), s.clients[t].order.id) > 0
  }

  /** For a bounded batch: exactly when first come, first served leaves such an order an item. */
  lemma RepeatsExactlyWhenServed(s: System, t: Ticket)
    requires t in s.batch && forall u :: u in s.batch ==> u in s.clients
    requires Bounded(BatchOrders(s.clients, s.batch)) && NonNegative(s.db.products)
    ensures var items, o := AllItems(BatchOrders(s.clients, s.batch)), s.clients[t].order.id;
      Repeats(s, t) <==> o in OrderIds(s.db.orders) && Count(Serve(items, s.db.products), o) > 0
  {
    var items := AllItems(BatchOrders(s.clients, s.batch));
    SurvivorsAreServed(items, s.db.products);
    var o := OfOrder(s.clients[t].order.id);
    SameItemsSameSelection(Survivors(items, s.db.products), Serve(items, s.db.products), o);
  }

  /** The worker holds such a request, and is not just announcing a commit. */
  ghost predicate Stuck(s: System, t: Ticket) {
    Repeats(s, t) && !(s.worker.Delivering? && s.worker.outcome.Committed?)
  }

  lemma SurvivesLonger(items: seq<OrderItem>, more: seq<OrderItem>, stock: map<Uuid, Int32>, o: Uuid)
    requires Count(Survivors(items, stock), o) > 0
    ensures Count(Survivors(items + more, stock), o) > 0
  {
    var survivors := Survivors(items, stock);
    var x := Select(survivors, OfOrder(o))[0];
    SelectMembers(survivors, OfOrder(o));
    assert x in Select(survivors, OfOrder(o));
    SurvivorIsKept(items, more, stock, x);
    ItemIsCounted(Survivors(items + more, stock), x);
  }

  /** Later items of a product never take away what earlier ones keep. */
  lemma KeepsPrefix(own: seq<OrderItem>, later: seq<OrderItem>, stock: Int32)
    ensures Kept(own, stock) <= Kept(own + later, stock)
  {
    var k := KeepCount(own, stock);
    assert (own + later)[..k] == own[..k];
  }

  lemma SurvivorIsKept(items: seq<OrderItem>, more: seq<OrderItem>, stock: map<Uuid, Int32>, x: OrderItem)
    requires x in Survivors(items, stock)
    ensures x in Survivors(items + more, stock)
  {
    var p := x.productId;
    SurvivorsPerProduct(items, stock, p);
    SurvivorsPerProduct(items + more, stock, p);
    SelectMembers(Survivors(items, stock), OfProduct(p));
    SelectMembers(Survivors(items + more, stock), OfProduct(p));
    SelectConcat(items, more, OfProduct(p));
    if p in stock {
      KeepsPrefix(Select(items, OfProduct(p)), Select(more, OfProduct(p)), stock[p]);
    }
    assert x in KeptOf(items, stock, p);
    assert x in KeptOf(items + more, stock, p);
  }

  lemma StaysRepeating(s: System, s': System, t: Ticket)
    requires Repeats(s, t) && s'.db == s.db && s.batch <= s'.batch
    requires forall u :: u in s'.batch ==> u in s'.clients
    requires forall u :: u in s.batch ==> u in s'.clients && s'.clients[u].order == s.clients[u].order
    ensures Repeats(s', t)
  {
    var orders, orders' := BatchOrders(s.clients, s.batch), BatchOrders(s'.clients, s'.batch);
    assert orders == orders'[..|orders|];
    AllItemsConcat(orders, orders'[|orders|..]);
    assert orders' == orders + orders'[|orders|..];
    SurvivesLonger(AllItems(orders), AllItems(orders'[|orders|..]), s.db.products, s.clients[t].order.id);
  }

  /** The database refuses the whole batch: the order's primary key exists. */
  lemma RepeatIsRefused(s: System, faults: set<Call>, outcome: Outcome, s': System, t: Ticket)
    requires Repeats(s, t) && BatchIsWellFormed(s) && TickStep(s, faults, outcome, s')
    ensures outcome.Failed? && s'.db == s.db
  {
    var orders, o := BatchOrders(s.clients, s.batch), s.clients[t].order.id;
    WellFormedNeverOverdrawn(orders, s.db.products);
    WellFormedLists(orders, s.db.products, o);
    var i :| ListsAt(orders, s.db.products, o, i);
    assert !OrdersWelcome(s.db, s.db.products, orders);
  }

  lemma RepeatIsNotCommitted(s: System, faults: set<Call>, outcome: Outcome, s': System, t: Ticket)
    requires Repeats(s, t) && TickStep(s, faults, outcome, s') && (outcome.Committed? ==> BatchIsWellFormed(s))
    ensures !outcome.Committed? && s'.db == s.db
  {
    if outcome.Committed? {
      RepeatIsRefused(s, faults, outcome, s', t);
    }
  }

  lemma StaysStuck(s: System, step: Step, s': System, t: Ticket)
    requires Stuck(s, t) && Flow(s) && NextBy(s, step, s') && (Commits(step) ==> BatchIsWellFormed(s))
    ensures Stuck(s', t) && s'.db == s.db && s'.processed == s.processed && s.batch <= s'.batch
  {
    NextKeepsOrders(s, step, s');
    if step.Tick? {
      RepeatIsNotCommitted(s, step.faults, step.outcome, s', t);
    }
    NextFlows(s, step, s');
    BatchIsKnown(s');
    StaysRepeating(s, s', t);
  }

  /** Still stuck, and since s0 nothing was committed or completed and no request has left the batch. */
  ghost predicate StuckSince(s0: System, s: System, t: Ticket) {
    Stuck(s, t) && s.db == s0.db && s.processed == s0.processed && s0.batch <= s.batch
  }

  lemma RunStepStaysStuck(s0: System, run: seq<System>, steps: seq<Step>, i: nat, t: Ticket)
    requires IsRun(run, steps) && CommitsWellFormed(run, steps) && i < |steps| && StuckSince(s0, run[i], t)
    ensures StuckSince(s0, run[i + 1], t)
  {
    RunFlows(run, steps, i);
    assert Follows(run, steps, i) && CommitIsWellFormed(run, steps, i);
    StaysStuck(run[i], steps[i], run[i + 1], t);
  }

  lemma {:induction false} RunStaysStuck(s0: System, run: seq<System>, steps: seq<Step>, i: nat, j: nat, t: Ticket)
    requires IsRun(run, steps) && CommitsWellFormed(run, steps) && i <= j <= |steps| && StuckSince(s0, run[i], t)
    ensures StuckSince(s0, run[j], t)
  {
    for k := i to j
      invariant StuckSince(s0, run[k], t)
    {
      RunStepStaysStuck(s0, run, steps, k, t);
    }
  }

  /**
   * One repeated checkout stops the shop: while a cart whose order exists is in the batch and would be
   * given an item, nothing is ever committed or completed again, and the batch only grows.
   */
  lemma RepeatedCheckoutStopsTheShop(run: seq<System>, steps: seq<Step>, i: nat, j: nat, t: Ticket)
    requires IsRun(run, steps) && CommitsWellFormed(run, steps) && i <= j <= |steps| && Stuck(run[i], t)
    ensures Stuck(run[j], t) && run[j].db == run[i].db && run[j].processed == run[i].processed
    ensures run[i].batch <= run[j].batch
  {
    RunStaysStuck(run[i], run, steps, i, j, t);
  }

  // ----- stock -----

  lemma NextNeverOversells(s: System, step: Step, s': System, p: Uuid)
    requires NonNegativeAt(s.db, p) && NextBy(s, step, s')
    ensures NonNegativeAt(s'.db, p)
  {
    if Commits(step) && p in s.db.products {
      RowStaysNonNegative(s.db, s.db.products, BatchOrders(s.clients, s.batch), s'.db, p);
    }
  }

  /**
   * A single worker never oversells: on every path of steps, from whatever state of the worker, for whatever carts
   * and quantities, through committed, rolled back, failed and retried batches.
   */
  lemma {:induction false} StockIsNeverNegative(run: seq<System>, steps: seq<Step>, i: nat, p: Uuid)
    requires IsPath(run, steps) && i <= |steps| && NonNegativeAt(run[0].db, p)
    ensures NonNegativeAt(run[i].db, p)
  {
    for k := 0 to i
      invariant NonNegativeAt(run[k].db, p)
    {
      assert Follows(run, steps, k);
      NextNeverOversells(run[k], steps[k], run[k + 1], p);
    }
  }

  /** What the batches committed so far kept of p never totals more than 2^31, wherever their trim may have stopped. */
  ghost predicate CommittedFit(s: System, p: Uuid) {
    forall b :: b in s.committed ==> PrefixesFit(b, p, 0x8000_0000)
  }

  /** One product's balance, as long as the committed batches fit. */
  ghost predicate KeepsBalance(initial: map<Uuid, int>, s: System, p: Uuid) {
    CommittedFit(s, p) ==> BalancedAt(initial, s.db, p)
  }

  lemma TickKeepsBalance(initial: map<Uuid, int>, s: System, faults: set<Call>, outcome: Outcome, s': System, p: Uuid)
    requires KeepsBalance(initial, s, p) && NonNegativeAt(s.db, p) && TickStep(s, faults, outcome, s')
    ensures KeepsBalance(initial, s', p)
  {
    var orders := BatchOrders(s.clients, s.batch);
    if outcome.Committed? && CommittedFit(s', p) {
      assert orders in s'.committed;
      assert forall b :: b in s.committed ==> b in s'.committed;
      SerialFitKeepsBalance(initial, s.db, orders, s'.db, p);
    }
  }

  lemma NextKeepsBalance(initial: map<Uuid, int>, s: System, step: Step, s': System, p: Uuid)
    requires KeepsBalance(initial, s, p) && NonNegativeAt(s.db, p) && NextBy(s, step, s')
    ensures KeepsBalance(initial, s', p)
  {
    if step.Tick? {
      TickKeepsBalance(initial, s, step.faults, step.outcome, s', p);
    } else {
      assert s'.db == s.db && s'.committed == s.committed;
    }
  }

  /**
   * The repository's balance check, product by product, on every path of steps: it holds as long as no committed
   * batch can have kept more than 2^31 pieces of the product, or fewer than -2^31.
   */
  lemma {:induction false} StockIsBalanced(initial: map<Uuid, int>, run: seq<System>, steps: seq<Step>, i: nat, p: Uuid)
    requires IsPath(run, steps) && i <= |steps| && NonNegativeAt(run[0].db, p) && BalancedAt(initial, run[0].db, p)
    requires CommittedFit(run[i], p)
    ensures BalancedAt(initial, run[i].db, p)
  {
    for k := 0 to i
      invariant KeepsBalance(initial, run[k], p)
    {
      StockIsNeverNegative(run, steps, k, p);
      assert Follows(run, steps, k);
      NextKeepsBalance(initial, run[k], steps[k], run[k + 1], p);
    }
  }

  /** Bounded batches fit for every product. */
  lemma BoundedBatchesFit(s: System, p: Uuid)
    requires forall b :: b in s.committed ==> Bounded(b)
    ensures CommittedFit(s, p)
  {
    forall b | b in s.committed ensures PrefixesFit(b, p, 0x8000_0000) {
      BoundedPrefixesFit(b, p);
    }
  }
}
