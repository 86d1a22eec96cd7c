/** Every step of the protocol keeps what Flow says of the channels and what Truth says of the answers. */
module ProtocolProof {
  import opened Domain
  import opened Items
  import opened Merge
  import opened Database
  import opened Prepare
  import opened Batch
  import opened Channels
  import opened Stock
  import opened Protocol

  lemma NotTwice(a: seq<Ticket>, b: seq<Ticket>, t: Ticket)
    requires NoDuplicates(a + b) && t in b
    ensures t !in a
  {
    var j :| 0 <= j < |b| && b[j] == t;
    forall i | 0 <= i < |a| ensures a[i] != t {
      assert (a + b)[i] == a[i] && (a + b)[|a| + j] == t;
    }
  }

  // ----- the plumbing -----

  lemma EnqueueFlows(s: System, t: Ticket, s': System)
    requires Flow(s) && EnqueueStep(s, t, s')
    ensures Flow(s')
  {
    assert ClientOk(s, t, s.clients[t]);
    assert s'.received + s'.queue == s.received + s.queue + [t];
    assert Shape(s');
    forall u | u in s'.clients ensures ClientOk(s', u, s'.clients[u]) {
      assert ClientOk(s, u, s.clients[u]);
    }
  }

  lemma PhaseFlows(s: System, t: Ticket, phase: Phase)
    requires Flow(s) && t in s.clients
    requires (InPhase(s, t, Sending) && phase == GaveUp) || (InPhase(s, t, Waiting) && phase == TimedOut)
    ensures Flow(WithPhase(s, t, phase))
  {
    var s' := WithPhase(s, t, phase);
    assert ClientOk(s, t, s.clients[t]);
    forall u | u in s'.clients ensures ClientOk(s', u, s'.clients[u]) {
      assert ClientOk(s, u, s.clients[u]);
    }
  }

  lemma AwaitFlows(s: System, t: Ticket, s': System)
    requires Flow(s) && AwaitStep(s, t, s')
    ensures Flow(s')
  {
    assert ClientOk(s, t, s.clients[t]);
    forall u | u in s'.clients ensures ClientOk(s', u, s'.clients[u]) {
      assert ClientOk(s, u, s.clients[u]);
    }
  }

  lemma ReceiveFlows(s: System, s': System)
    requires Flow(s) && ReceiveStep(s, s')
    ensures Flow(s')
  {
    var q := s.queue[0];
    assert s.queue == [q] + s.queue[1..];
    assert s'.received + s'.queue == s.received + s.queue;
    assert RetriedPart(s') == RetriedPart(s);
    assert s.received + s.queue == (s.received + [q]) + s.queue[1..];
    NotTwice(s.received, s.queue, q);
    assert ClientOk(s, q, s.clients[q]);
    assert q !in RetriedPart(s);
    forall u | u in s'.clients ensures ClientOk(s', u, s'.clients[u]) {
      assert ClientOk(s, u, s.clients[u]);
    }
  }

  lemma SendFlows(s: System, t: Ticket, s': System)
    requires Flow(s) && SendStep(s, t, s')
    ensures Flow(s')
  {
    assert t in s.batch && ClientOk(s, t, s.clients[t]);
    forall u | u in s'.clients ensures ClientOk(s', u, s'.clients[u]) {
      assert ClientOk(s, u, s.clients[u]);
    }
  }

  lemma CloseFlows(s: System, t: Ticket, s': System)
    requires Flow(s) && CloseStep(s, t, s')
    ensures Flow(s')
  {
    assert t in s.batch && ClientOk(s, t, s.clients[t]);
    forall u | u in s'.clients ensures ClientOk(s', u, s'.clients[u]) {
      assert ClientOk(s, u, s.clients[u]);
    }
  }

  lemma FinishFlows(s: System, s': System)
    requires Flow(s) && FinishStep(s, s')
    ensures Flow(s')
  {
    assert s'.received == s'.processed + s'.batch;
    assert RetriedPart(s') == s'.batch;
    forall u | u in s'.clients ensures ClientOk(s', u, s'.clients[u]) {
      assert ClientOk(s, u, s.clients[u]);
    }
  }

  lemma StopFlows(s: System)
    requires Flow(s) && s.worker.Selecting?
    ensures Flow(s.(worker := Stopped))
  {
    var s' := s.(worker := Stopped);
    assert RetriedPart(s') == RetriedPart(s);
    forall u | u in s'.clients ensures ClientOk(s', u, s'.clients[u]) {
      assert ClientOk(s, u, s.clients[u]);
    }
  }

  lemma TickFlows(s: System, faults: set<Call>, outcome: Outcome, s': System)
    requires Flow(s) && TickStep(s, faults, outcome, s')
    ensures Flow(s')
  {
    assert RetriedPart(s') == RetriedPart(s);
    forall t | t in s'.clients ensures ClientOk(s', t, s'.clients[t]) {
      assert ClientOk(s, t, s.clients[t]);
      assert forall u :: u in RetriedPart(s) ==> u in s.batch;
    }
  }

  lemma NextFlows(s: System, step: Step, s': System)
    requires Flow(s) && NextBy(s, step, s')
    ensures Flow(s')
  {
    match step {
      case Enqueue(t) => EnqueueFlows(s, t, s');
      case GiveUp(t) => PhaseFlows(s, t, GaveUp);
      case Await(t) => AwaitFlows(s, t, s');
      case TimeOut(t) => PhaseFlows(s, t, TimedOut);
      case Receive => ReceiveFlows(s, s');
      case IdleTick =>
      case Tick(faults, outcome) => TickFlows(s, faults, outcome, s');
      case Send(t) => SendFlows(s, t, s');
      case Close(t) => CloseFlows(s, t, s');
      case Finish => FinishFlows(s, s');
      case Stop => StopFlows(s);
    }
  }

  lemma StepFlows(run: seq<System>, steps: seq<Step>, i: nat)
    requires IsPath(run, steps) && i < |steps| && Flow(run[i])
    ensures Flow(run[i + 1])
  {
    assert Follows(run, steps, i);
    NextFlows(run[i], steps[i], run[i + 1]);
  }

  /** Whatever carts are checked out, and however often: every state of every run satisfies Flow. */
  lemma {:induction false} RunFlows(run: seq<System>, steps: seq<Step>, i: nat)
    requires IsRun(run, steps) && i <= |steps|
    ensures Flow(run[i])
  {
    for k := 0 to i
      invariant Flow(run[k])
    {
      StepFlows(run, steps, k);
    }
  }

  // ----- steps other than a tick -----

  lemma NextKeepsOrders(s: System, step: Step, s': System)
    requires NextBy(s, step, s')
    ensures s'.clients.Keys == s.clients.Keys
    ensures forall t :: t in s.clients ==> s'.clients[t].order == s.clients[t].order
    ensures !step.Tick? ==> s'.db == s.db && s'.committed == s.committed
  {
  }

  lemma SendDue(s: System, u: Ticket, s': System, t: Ticket)
    requires Flow(s) && SendStep(s, u, s') && t in s.clients
    ensures forall r :: r in Due(s', t) ==> r in Due(s, t)
  {
    assert u in s.batch;
  }

  lemma NothingSent(s: System, s': System, t: Ticket)
    requires t in s.clients && t in s'.clients
    requires s'.clients[t].sent == s.clients[t].sent && s'.clients[t].order == s.clients[t].order
    requires s'.worker.Delivering? ==>
      s.worker.Delivering? && s'.worker.outcome == s.worker.outcome && s'.batch == s.batch
    ensures forall r :: r in Due(s', t) ==> r in Due(s, t)
  {
  }

  /** No result comes from nowhere: only a tick makes one due. */
  lemma NothingNewIsDue(s: System, step: Step, s': System, t: Ticket)
    requires Flow(s) && NextBy(s, step, s') && !step.Tick? && t in s.clients && t in s'.clients
    ensures forall r :: r in Due(s', t) ==> r in Due(s, t)
  {
    if step.Send? {
      SendDue(s, step.t, s', t);
    } else {
      NothingSent(s, s', t);
    }
  }

  lemma StillOwns(s: System, step: Step, s': System, u: Ticket, o: Uuid)
    requires Flow(s) && NextBy(s, step, s') && !step.Tick? && Owns(s, u, o)
    ensures Owns(s', u, o)
  {
    NextKeepsOrders(s, step, s');
    NothingNewIsDue(s, step, s', u);
    if step.Receive? {
      NotTwice(s.received, s.queue, s.queue[0]);
    }
  }

  lemma NoNewSuccess(s: System, step: Step, s': System, t: Ticket)
    requires Flow(s) && NextBy(s, step, s') && !step.Tick? && Succeeds(s', t)
    ensures Succeeds(s, t) && s'.clients[t].order == s.clients[t].order
  {
    NextKeepsOrders(s, step, s');
    NothingNewIsDue(s, step, s', t);
  }

  lemma StaysOneSuccess(base: set<Uuid>, s: System, step: Step, s': System)
    requires Flow(s) && NextBy(s, step, s') && !step.Tick? && OneSuccess(base, s)
    ensures OneSuccess(base, s')
  {
    forall t | Succeeds(s', t) ensures Succeeds(s, t) && s'.clients[t].order == s.clients[t].order {
      NoNewSuccess(s, step, s', t);
    }
  }

  lemma StaysTrue(base: set<Uuid>, s: System, step: Step, s': System)
    requires Flow(s) && Truth(base, s) && NextBy(s, step, s') && !step.Tick?
    ensures Truth(base, s')
  {
    NextKeepsOrders(s, step, s');
    StaysOneSuccess(base, s, step, s');
    forall t, r | t in s'.clients && r in Due(s', t) ensures Truthful(s'.db, s'.clients[t].order, r) {
      NothingNewIsDue(s, step, s', t);
      assert Truthful(s.db, s.clients[t].order, r);
    }
    forall o | o in OrderIds(s'.db.orders) && o !in base ensures exists u :: Owns(s', u, o) {
      var u :| Owns(s, u, o);
      StillOwns(s, step, s', u, o);
    }
  }

  // ----- the tick -----

  lemma BatchIsKnown(s: System)
    requires Shape(s)
    ensures forall t :: t in s.batch ==> t in s.received && t in s.clients
    ensures forall i, j :: 0 <= i < j < |s.batch| ==> s.batch[i] != s.batch[j]
  {
    forall t | t in s.batch ensures t in s.clients {
      assert t in s.received;
    }
    var n := |s.processed|;
    forall i, j | 0 <= i < j < |s.batch| ensures s.batch[i] != s.batch[j] {
      assert (s.received + s.queue)[n + i] == s.batch[i] && (s.received + s.queue)[n + j] == s.batch[j];
    }
  }

  lemma CommitFacts(db: Db, orders: seq<CreateOrder>, faults: set<Call>, outcome: Outcome, db': Db)
    requires BatchStep(db, orders, faults, outcome, db') && outcome.Committed? && WellFormed(orders) && db.Consistent()
    ensures StockCommits(db, orders, db') && OrderCommits(db, orders, db') && Answers(db, db', outcome.responses)
    ensures db'.Consistent()
  {
    CommitKeepsConsistency(db, orders, db');
  }

  /** A response tells exactly what the table of items now holds for its order. */
  lemma ResponseIsStored(db: Db, orders: seq<CreateOrder>, db': Db, responses: map<Uuid, Order>, o: Uuid)
    requires db.Consistent() && db.orders <= db'.orders && db.items <= db'.items && o in responses
    requires OrderCommits(db, orders, db') && Answers(db, db', responses)
    ensures o in OrderIds(db'.orders) && o !in OrderIds(db.orders) && responses[o].id == o
    ensures OrderRow(o, responses[o].userId) in NewOrders(db, db')
    ensures Count(db'.items, o) > 0
    ensures multiset(responses[o].orderItems) == multiset(Select(db'.items, OfOrder(o)))
    ensures Select(db'.items, OfOrder(o)) == Select(NewItems(db, db'), OfOrder(o))
  {
    assert Count(NewItems(db, db'), o) > 0 && o in OrderIds(NewOrders(db, db'));
    CommitHere(db, db', o);
  }

  lemma StoredIsTruthful(db: Db, order: CreateOrder, response: Order)
    requires response.id == order.id && response.userId == order.userId && Count(db.items, order.id) > 0
    requires OrderRow(order.id, order.userId) in db.orders
    requires multiset(response.orderItems) == multiset(Select(db.items, OfOrder(order.id)))
    requires multiset(Select(db.items, OfOrder(order.id))) <= multiset(order.orderItems)
    ensures Truthful(db, order, Result(response, None))
  {
    SameSize(response.orderItems, Select(db.items, OfOrder(order.id)));
  }

  /** The answer to request i of a batch is true of the database just committed. */
  lemma AnswerIsTrue(db: Db, orders: seq<CreateOrder>, outcome: Outcome, db': Db, i: nat)
    requires WellFormed(orders) && db.Consistent() && outcome.Committed? && i < |orders|
    requires StockCommits(db, orders, db') && OrderCommits(db, orders, db') && Answers(db, db', outcome.responses)
    ensures Truthful(db', orders[i], ResultFor(outcome, orders[i].id))
  {
    var o, responses := orders[i].id, outcome.responses;
    if o in responses {
      ResponseIsStored(db, orders, db', responses, o);
      NewItemsWereAsked(db, orders, db', i);
      NewRowHasItsUser(db, orders, db', i, OrderRow(o, responses[o].userId));
      StoredIsTruthful(db', orders[i], responses[o]);
    }
  }

  /** What was true of an order stays true. */
  lemma TruthStays(db: Db, orders: seq<CreateOrder>, db': Db, order: CreateOrder, r: Result)
    requires db.orders <= db'.orders && db.items <= db'.items && OrderCommits(db, orders, db')
    requires Truthful(db, order, r)
    ensures Truthful(db', order, r)
  {
    if r.err.None? {
      CommitKeepsOld(db, orders, db', order.id);
    }
  }

  /** A tick that commits a batch of different carts. */
  ghost predicate CommitTick(s: System, faults: set<Call>, outcome: Outcome, s': System) {
    && Flow(s) && TickStep(s, faults, outcome, s') && outcome.Committed? && s.db.Consistent()
    && WellFormed(BatchOrders(s.clients, s.batch))
  }

  lemma CommitTruth(s: System, faults: set<Call>, outcome: Outcome, s': System, t: Ticket, r: Result)
    requires CommitTick(s, faults, outcome, s') && t in s.clients && r in Due(s', t)
    requires r in Due(s, t) ==> Truthful(s.db, s.clients[t].order, r)
    ensures Truthful(s'.db, s.clients[t].order, r)
  {
    var orders := BatchOrders(s.clients, s.batch);
    CommitFacts(s.db, orders, faults, outcome, s'.db);
    if r in Due(s, t) {
      TruthStays(s.db, orders, s'.db, s.clients[t].order, r);
    } else {
      var i :| 0 <= i < |s.batch| && s.batch[i] == t;
      AnswerIsTrue(s.db, orders, outcome, s'.db, i);
    }
  }

  lemma OldOwner(s: System, faults: set<Call>, outcome: Outcome, s': System, u: Ticket, o: Uuid)
    requires CommitTick(s, faults, outcome, s') && Owns(s, u, o) && o in OrderIds(s.db.orders)
    ensures Owns(s', u, o)
  {
    var orders := BatchOrders(s.clients, s.batch);
    CommitFacts(s.db, orders, faults, outcome, s'.db);
    CommitKeepsOld(s.db, orders, s'.db, o);
  }

  lemma NewOrderOfBatch(db: Db, orders: seq<CreateOrder>, db': Db, o: Uuid) returns (i: nat)
    requires db.orders <= db'.orders && db.items <= db'.items && OrderCommits(db, orders, db')
    requires o in OrderIds(NewOrders(db, db'))
    ensures i < |orders| && orders[i].id == o
  {
    var row :| row in NewOrders(db, db') && row.id == o;
    i :| 0 <= i < |orders| && orders[i].id == row.id && orders[i].userId == row.userId;
  }

  /** An order new to the table has items its request asked for, and its request is told of it. */
  lemma NewOrderIsOwn(db: Db, orders: seq<CreateOrder>, outcome: Outcome, db': Db, o: Uuid) returns (i: nat)
    requires WellFormed(orders) && db.Consistent() && outcome.Committed?
    requires StockCommits(db, orders, db') && OrderCommits(db, orders, db') && Answers(db, db', outcome.responses)
    requires o in OrderIds(db'.orders) && o !in OrderIds(db.orders)
    ensures i < |orders| && orders[i].id == o && o in outcome.responses
    ensures OrderRow(o, orders[i].userId) in db'.orders
    ensures multiset(Select(db'.items, OfOrder(o))) <= multiset(orders[i].orderItems)
  {
    CommitHere(db, db', o);
    i := NewOrderOfBatch(db, orders, db', o);
    NewItemsWereAsked(db, orders, db', i);
  }

  /** A request of the batch has been told nothing so far, or that an earlier attempt failed. */
  lemma WaitingIsUnanswered(s: System, u: Ticket)
    requires Flow(s) && s.worker.Selecting? && u in s.batch
    ensures u in s.received && u in s.clients
    ensures forall r :: r in s.clients[u].sent ==> r.err.Some? && r.err.value.ErrCallFailed?
  {
    BatchIsKnown(s);
    assert ClientOk(s, u, s.clients[u]);
  }

  lemma BecomesOwner(s: System, outcome: Outcome, s': System, u: Ticket)
    requires Flow(s) && s.worker.Selecting? && u in s.batch && u in s.clients
    requires s' == s.(db := s'.db, committed := s'.committed, worker := Delivering(outcome, Members(s.batch), {}))
    requires outcome.Committed? && s.clients[u].order.id in outcome.responses
    requires OrderRow(s.clients[u].order.id, s.clients[u].order.userId) in s'.db.orders
    requires multiset(Select(s'.db.items, OfOrder(s.clients[u].order.id))) <= multiset(s.clients[u].order.orderItems)
    ensures Owns(s', u, s.clients[u].order.id)
  {
    WaitingIsUnanswered(s, u);
  }

  lemma NewOwner(s: System, faults: set<Call>, outcome: Outcome, s': System, o: Uuid) returns (u: Ticket)
    requires CommitTick(s, faults, outcome, s')
    requires o in OrderIds(s'.db.orders) && o !in OrderIds(s.db.orders)
    ensures Owns(s', u, o)
  {
    var orders := BatchOrders(s.clients, s.batch);
    CommitFacts(s.db, orders, faults, outcome, s'.db);
    var i := NewOrderIsOwn(s.db, orders, outcome, s'.db, o);
    u := s.batch[i];
    BecomesOwner(s, outcome, s', u);
  }

  /** A success that a commit makes due is for an order the table did not have. */
  lemma SuccessIsNew(base: set<Uuid>, s: System, faults: set<Call>, outcome: Outcome, s': System, t: Ticket)
    requires CommitTick(s, faults, outcome, s') && Truth(base, s) && Succeeds(s', t)
    ensures Succeeds(s, t) <==> s.clients[t].order.id in OrderIds(s.db.orders)
    ensures !Succeeds(s, t) ==> t in s.batch
  {
    var orders := BatchOrders(s.clients, s.batch);
    CommitFacts(s.db, orders, faults, outcome, s'.db);
    if Succeeds(s, t) {
      var r :| r in Due(s, t) && r.err.None?;
      assert Truthful(s.db, s.clients[t].order, r);
    } else {
      var r :| r in Due(s', t) && r.err.None?;
      assert r !in Due(s, t) && t in s.batch && r == ResultFor(outcome, s.clients[t].order.id);
      ResponseIsStored(s.db, orders, s'.db, outcome.responses, s.clients[t].order.id);
    }
  }

  lemma SameTicket(s: System, t: Ticket, u: Ticket)
    requires (forall v :: v in s.batch ==> v in s.clients) && WellFormed(BatchOrders(s.clients, s.batch))
    requires t in s.batch && u in s.batch && s.clients[t].order.id == s.clients[u].order.id
    requires s.clients[t].order.orderItems != []
    ensures t == u
  {
    var orders := BatchOrders(s.clients, s.batch);
    var i :| 0 <= i < |s.batch| && s.batch[i] == t;
    var j :| 0 <= j < |s.batch| && s.batch[j] == u;
    assert orders[i].id == orders[j].id;
  }

  /** A request that succeeds asked for something. */
  lemma SuccessHasItems(db: Db, order: CreateOrder, r: Result)
    requires Truthful(db, order, r) && r.err.None?
    ensures order.orderItems != []
  {
    assert r.order.orderItems[0] in multiset(r.order.orderItems);
    assert r.order.orderItems[0] in multiset(order.orderItems);
  }

  lemma SuccessAskedFor(base: set<Uuid>, s: System, faults: set<Call>, outcome: Outcome, s': System, t: Ticket)
    requires CommitTick(s, faults, outcome, s') && Truth(base, s) && Succeeds(s', t)
    ensures s.clients[t].order.orderItems != []
  {
    var r :| r in Due(s', t) && r.err.None?;
    CommitTruth(s, faults, outcome, s', t, r);
    SuccessHasItems(s'.db, s.clients[t].order, r);
  }

  lemma CommitsOneSuccess(base: set<Uuid>, s: System, faults: set<Call>, outcome: Outcome, s': System)
    requires CommitTick(s, faults, outcome, s') && Truth(base, s)
    ensures OneSuccess(base, s')
  {
    forall t | Succeeds(s', t)
      ensures Succeeds(s, t) <==> s.clients[t].order.id in OrderIds(s.db.orders)
      ensures !Succeeds(s, t) ==> t in s.batch
      ensures s.clients[t].order.orderItems != []
    {
      SuccessIsNew(base, s, faults, outcome, s', t);
      SuccessAskedFor(base, s, faults, outcome, s', t);
    }
    forall t, u | Succeeds(s', t) && Succeeds(s', u) && s'.clients[t].order.id == s'.clients[u].order.id
      ensures t == u
    {
      if !Succeeds(s, t) {
        SameTicket(s, t, u);
      }
    }
  }

  lemma CommitStaysConsistent(s: System, faults: set<Call>, outcome: Outcome, s': System)
    requires CommitTick(s, faults, outcome, s')
    ensures s'.db.Consistent() && OrderIds(s.db.orders) <= OrderIds(s'.db.orders) && s'.clients == s.clients
  {
    CommitFacts(s.db, BatchOrders(s.clients, s.batch), faults, outcome, s'.db);
    CommitAppends(s.db, s'.db);
  }

  lemma CommitOwners(base: set<Uuid>, s: System, faults: set<Call>, outcome: Outcome, s': System, o: Uuid)
    returns (u: Ticket)
    requires CommitTick(s, faults, outcome, s') && Truth(base, s) && o in OrderIds(s'.db.orders) && o !in base
    ensures Owns(s', u, o)
  {
    if o in OrderIds(s.db.orders) {
      u :| Owns(s, u, o);
      OldOwner(s, faults, outcome, s', u, o);
    } else {
      u := NewOwner(s, faults, outcome, s', o);
    }
  }

  lemma CommitTells(base: set<Uuid>, s: System, faults: set<Call>, outcome: Outcome, s': System)
    requires CommitTick(s, faults, outcome, s') && Truth(base, s)
    ensures Truth(base, s')
  {
    CommitStaysConsistent(s, faults, outcome, s');
    CommitsOneSuccess(base, s, faults, outcome, s');
    forall t, r | t in s'.clients && r in Due(s', t) ensures Truthful(s'.db, s'.clients[t].order, r) {
      CommitTruth(s, faults, outcome, s', t, r);
    }
    forall o | o in OrderIds(s'.db.orders) && o !in base ensures exists u :: Owns(s', u, o) {
      var u := CommitOwners(base, s, faults, outcome, s', o);
    }
  }

  lemma FailureOwns(s: System, outcome: Outcome, s': System, u: Ticket, o: Uuid)
    requires s.worker.Selecting? && outcome.Failed? && Owns(s, u, o)
    requires s' == s.(worker := Delivering(outcome, Members(s.batch), {}))
    ensures Owns(s', u, o)
  {
  }

  /** A failed tick changes nothing in the tables, and makes only failures due. */
  lemma FailureTells(base: set<Uuid>, s: System, outcome: Outcome, s': System)
    requires Truth(base, s) && s.worker.Selecting? && outcome.Failed?
    requires s' == s.(worker := Delivering(outcome, Members(s.batch), {}))
    ensures Truth(base, s')
  {
    forall t, r | t in s.clients && r in Due(s', t)
      ensures r in Due(s, t) || (r.err.Some? && r.err.value.ErrCallFailed?)
    {
    }
    forall o | o in OrderIds(s.db.orders) && o !in base ensures exists u :: Owns(s', u, o) {
      var u :| Owns(s, u, o);
      FailureOwns(s, outcome, s', u, o);
    }
  }

  lemma PanicTells(base: set<Uuid>, s: System)
    requires Truth(base, s) && s.worker.Selecting?
    ensures Truth(base, s.(worker := Crashed))
  {
    var s' := s.(worker := Crashed);
    forall t | t in s.clients ensures Due(s', t) == Due(s, t) {
    }
    forall o | o in OrderIds(s.db.orders) && o !in base ensures exists u :: Owns(s', u, o) {
      var u :| Owns(s, u, o);
      assert Owns(s', u, o);
    }
  }

  /** A tick that does not commit leaves tables and books alone. */
  lemma UncommittedTick(s: System, faults: set<Call>, outcome: Outcome, s': System)
    requires TickStep(s, faults, outcome, s') && !outcome.Committed?
    ensures outcome.Failed? || outcome.Panicked?
    ensures s' == s.(worker := if outcome.Panicked? then Crashed else Delivering(outcome, Members(s.batch), {}))
  {
  }

  lemma NextTells(base: set<Uuid>, s: System, step: Step, s': System)
    requires Flow(s) && Truth(base, s) && NextBy(s, step, s')
    requires Commits(step) ==> BatchIsWellFormed(s)
    ensures Truth(base, s')
  {
    if !step.Tick? {
      StaysTrue(base, s, step, s');
    } else if step.outcome.Committed? {
      CommitTells(base, s, step.faults, step.outcome, s');
    } else {
      UncommittedTick(s, step.faults, step.outcome, s');
      if step.outcome.Failed? {
        FailureTells(base, s, step.outcome, s');
      } else {
        PanicTells(base, s);
      }
    }
  }

  lemma StepTells(base: set<Uuid>, run: seq<System>, steps: seq<Step>, i: nat)
    requires IsPath(run, steps) && i < |steps| && CommitIsWellFormed(run, steps, i)
    requires Flow(run[i]) && Truth(base, run[i])
    ensures Truth(base, run[i + 1])
  {
    assert Follows(run, steps, i);
    NextTells(base, run[i], steps[i], run[i + 1]);
  }

  lemma StartTells(s: System)
    requires Init(s) && s.db.Consistent()
    ensures Truth(OrderIds(s.db.orders), s)
  {
  }

  lemma RunStepTells(base: set<Uuid>, run: seq<System>, steps: seq<Step>, i: nat)
    requires IsRun(run, steps) && CommitsWellFormed(run, steps) && i < |steps| && Truth(base, run[i])
    ensures Truth(base, run[i + 1])
  {
    RunFlows(run, steps, i);
    assert CommitIsWellFormed(run, steps, i);
    StepTells(base, run, steps, i);
  }

  /** Every state of every run satisfies Truth, as long as no committed batch holds a cart twice. */
  lemma {:induction false} RunTells(run: seq<System>, steps: seq<Step>, i: nat)
    requires IsRun(run, steps) && CommitsWellFormed(run, steps) && run[0].db.Consistent() && i <= |steps|
    ensures Truth(OrderIds(run[0].db.orders), run[i])
  {
    var base := OrderIds(run[0].db.orders);
    StartTells(run[0]);
    for k := 0 to i
      invariant Truth(base, run[k])
    {
      RunStepTells(base, run, steps, k);
    }
  }

  // ----- where well-formed batches come from -----

  ghost predicate ItemsAreOwn(clients: map<Ticket, Client>) {
    forall t, x :: t in clients && x in clients[t].order.orderItems ==> x.orderId == clients[t].order.id
  }

  /** No cart that lists an item is checked out again while a request for it waits in the batch. */
  ghost predicate WaitingCartsDiffer(s: System) {
    forall t, u :: t in s.batch && u in s.batch && t != u && t in s.clients && u in s.clients ==>
      CartsDiffer(s.clients[t].order, s.clients[u].order)
  }

  ghost predicate CartsDiffer(a: CreateOrder, b: CreateOrder) {
    a.id == b.id ==> a.orderItems == [] && b.orderItems == []
  }

  lemma DifferentCartsAreWellFormed(s: System)
    requires Shape(s) && ItemsAreOwn(s.clients)
    ensures BatchIsWellFormed(s) <==> WaitingCartsDiffer(s)
  {
    BatchIsKnown(s);
    if WaitingCartsDiffer(s) {
      DifferingIsWellFormed(s);
    } else {
      var t, u :| t in s.batch && u in s.batch && t != u && !CartsDiffer(s.clients[t].order, s.clients[u].order);
      var orders := BatchOrders(s.clients, s.batch);
      var i :| 0 <= i < |s.batch| && s.batch[i] == t;
      var j :| 0 <= j < |s.batch| && s.batch[j] == u;
      assert orders[i].id == orders[j].id;
    }
  }

  lemma DifferingIsWellFormed(s: System)
    requires Shape(s) && ItemsAreOwn(s.clients) && WaitingCartsDiffer(s)
    ensures BatchIsWellFormed(s)
  {
    BatchIsKnown(s);
    var orders := BatchOrders(s.clients, s.batch);
    forall i, j | 0 <= i < j < |orders| && orders[i].id == orders[j].id
      ensures orders[i].orderItems == [] && orders[j].orderItems == []
    {
      assert s.batch[i] in s.batch && s.batch[j] in s.batch;
      assert CartsDiffer(s.clients[s.batch[i]].order, s.clients[s.batch[j]].order);
    }
  }

  lemma {:induction false} RunKeepsOwnItems(run: seq<System>, steps: seq<Step>, i: nat)
    requires IsPath(run, steps) && i <= |steps| && ItemsAreOwn(run[0].clients)
    ensures ItemsAreOwn(run[i].clients)
  {
    for k := 0 to i
      invariant ItemsAreOwn(run[k].clients)
    {
      assert Follows(run, steps, k);
      NextKeepsOrders(run[k], steps[k], run[k + 1]);
    }
  }

  /** The hypothesis of RunTells in terms of what the cart service does. */
  lemma TicksWellFormedExactlyWhen(run: seq<System>, steps: seq<Step>)
    requires IsRun(run, steps) && ItemsAreOwn(run[0].clients)
    ensures TicksWellFormed(run, steps)
      <==> forall i :: 0 <= i < |steps| && steps[i].Tick? ==> WaitingCartsDiffer(run[i])
  {
    forall i | 0 <= i < |steps|
      ensures TickIsWellFormed(run, steps, i) <==> (steps[i].Tick? ==> WaitingCartsDiffer(run[i]))
    {
      RunFlows(run, steps, i);
      RunKeepsOwnItems(run, steps, i);
      DifferentCartsAreWellFormed(run[i]);
    }
  }
}
