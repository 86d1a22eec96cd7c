/**
 * Clients, the capacity-one queue, the order worker and the result channels as a state machine.
 * Every step of a client, of the worker's select loop, and of each answering goroutine is a step
 * of its own; steps interleave in any order.
 */
module Protocol {
  import opened Domain
  import opened Items
  import opened Merge
  import opened Database
  import opened Batch
  import opened Channels

  /** Identifies one call of Checkout. */
  type Ticket = nat

  /** Where Checkout stands: at its first select, given up there, at its second select, or answered. */
  datatype Phase = Sending | GaveUp | Waiting | TimedOut | Replied(result: Result)

  datatype Channel = Channel(buffer: seq<Result>, closed: bool)

  /** `sent` records what was ever sent on the channel. */
  datatype Client = Client(order: CreateOrder, phase: Phase, channel: Channel, sent: seq<Result>)

  /** In Delivering, the answering goroutines of `toSend` have not sent yet, those of `toClose` have not closed yet. */
  datatype Worker =
    | Selecting
    | Delivering(outcome: Outcome, toSend: set<Ticket>, toClose: set<Ticket>)
    | Stopped
    | Crashed

  /**
   * `received` and `processed` record the requests taken from the queue and those whose batch was
   * completed, `retried` how many requests at the front of the batch were already answered with a
   * failure, `committed` the committed batches.
   */
  datatype System = System(
    clients: map<Ticket, Client>, queue: seq<Ticket>, batch: seq<Ticket>, worker: Worker, db: Db,
    received: seq<Ticket>, processed: seq<Ticket>, retried: nat, committed: seq<seq<CreateOrder>>)

  datatype Step =
    | Enqueue(t: Ticket)
    | GiveUp(t: Ticket)
    | Await(t: Ticket)
    | TimeOut(t: Ticket)
    | Receive
    | IdleTick
    | Tick(faults: set<Call>, outcome: Outcome)
    | Send(t: Ticket)
    | Close(t: Ticket)
    | Finish
    | Stop

  const QUEUE_CAPACITY: nat := 1

  ghost function BatchOrders(clients: map<Ticket, Client>, batch: seq<Ticket>): (orders: seq<CreateOrder>)
    requires forall t :: t in batch ==> t in clients
    ensures |orders| == |batch|
    ensures forall i :: 0 <= i < |batch| ==> orders[i] == clients[batch[i]].order
  {
    seq(|batch|, i requires 0 <= i < |batch| => clients[batch[i]].order)
  }

  function Members(batch: seq<Ticket>): set<Ticket> {
    set t | t in batch
  }

  ghost predicate InPhase(s: System, t: Ticket, phase: Phase) {
    t in s.clients && s.clients[t].phase == phase
  }

  function WithPhase(s: System, t: Ticket, phase: Phase): System
    requires t in s.clients
  {
    s.(clients := s.clients[t := s.clients[t].(phase := phase)])
  }

  ghost predicate EnqueueStep(s: System, t: Ticket, s': System) {
    && InPhase(s, t, Sending) && |s.queue| < QUEUE_CAPACITY
    && s' == WithPhase(s, t, Waiting).(queue := s.queue + [t])
  }

  /** Receiving takes the buffered value, or the zero value of a closed and drained channel. */
  ghost predicate AwaitStep(s: System, t: Ticket, s': System) {
    && InPhase(s, t, Waiting)
    && var c := s.clients[t];
       if c.channel.buffer != [] then
         s' == s.(clients := s.clients[t := c.(
           phase := Replied(c.channel.buffer[0]), channel := c.channel.(buffer := c.channel.buffer[1..]))])
       else c.channel.closed && s' == WithPhase(s, t, Replied(ZERO_RESULT))
  }

  ghost predicate ReceiveStep(s: System, s': System) {
    && s.worker.Selecting? && s.queue != []
    && s' == s.(queue := s.queue[1..], batch := s.batch + [s.queue[0]], received := s.received + [s.queue[0]])
  }

  /** A tick with a non-empty batch: the transaction runs, then the goroutines start. */
  ghost predicate TickStep(s: System, faults: set<Call>, outcome: Outcome, s': System) {
    && s.worker.Selecting? && s.batch != []
    && (forall t :: t in s.batch ==> t in s.clients)
    && var orders := BatchOrders(s.clients, s.batch);
       && BatchStep(s.db, orders, faults, outcome, s'.db)
       && s' == s.(db := s'.db,
           worker := if outcome.Panicked? then Crashed else Delivering(outcome, Members(s.batch), {}),
           committed := if outcome.Committed? then s.committed + [orders] else s.committed)
  }

  function Sent(c: Client, result: Result): Client {
    c.(channel := c.channel.(buffer := c.channel.buffer + [result]), sent := c.sent + [result])
  }

  /** Sending on a closed channel panics and takes the process down; on a full one it blocks. */
  ghost predicate SendStep(s: System, t: Ticket, s': System) {
    && s.worker.Delivering? && t in s.worker.toSend && t in s.clients
    && var c := s.clients[t];
       if c.channel.closed then s' == s.(worker := Crashed)
       else
         var result := ResultFor(s.worker.outcome, c.order.id);
         && |c.channel.buffer| < CAPACITY
         && s' == s.(
              worker := s.worker.(toSend := s.worker.toSend - {t}, toClose := s.worker.toClose + {t}),
              clients := s.clients[t := Sent(c, result)])
  }

  ghost predicate CloseStep(s: System, t: Ticket, s': System) {
    && s.worker.Delivering? && t in s.worker.toClose && t in s.clients
    && var c := s.clients[t];
       if c.channel.closed then s' == s.(worker := Crashed)
       else s' == s.(worker := s.worker.(toClose := s.worker.toClose - {t}),
                     clients := s.clients[t := c.(channel := c.channel.(closed := true))])
  }

  /** The goroutines are done: the batch is cleared after a success, and kept after an error. */
  ghost predicate FinishStep(s: System, s': System) {
    && s.worker.Delivering? && s.worker.toSend == {} && s.worker.toClose == {}
    && s' == if s.worker.outcome.Committed?
             then s.(worker := Selecting, batch := [], processed := s.processed + s.batch, retried := 0)
             else s.(worker := Selecting, retried := |s.batch|)
  }

  ghost predicate NextBy(s: System, step: Step, s': System) {
    match step
    case Enqueue(t) => EnqueueStep(s, t, s')
    case GiveUp(t) => InPhase(s, t, Sending) && s' == WithPhase(s, t, GaveUp)
    case Await(t) => AwaitStep(s, t, s')
    case TimeOut(t) => InPhase(s, t, Waiting) && s' == WithPhase(s, t, TimedOut)
    case Receive => ReceiveStep(s, s')
    case IdleTick => s.worker.Selecting? && s.batch == [] && s' == s
    case Tick(faults, outcome) => TickStep(s, faults, outcome, s')
    case Send(t) => SendStep(s, t, s')
    case Close(t) => CloseStep(s, t, s')
    case Finish => FinishStep(s, s')
    case Stop => s.worker.Selecting? && s' == s.(worker := Stopped)
  }

  /** The steps follow one another, from whatever state. */
  ghost predicate IsPath(run: seq<System>, steps: seq<Step>) {
    |run| == |steps| + 1 && forall i :: 0 <= i < |steps| ==> Follows(run, steps, i)
  }

  ghost predicate Follows(run: seq<System>, steps: seq<Step>, i: int)
    requires |run| == |steps| + 1 && 0 <= i < |steps|
  {
    NextBy(run[i], steps[i], run[i + 1])
  }

  ghost predicate Untouched(c: Client) {
    c.channel == Channel([], false) && c.sent == []
  }

  /** The worker has just started and no Checkout has got beyond its first select. The database is arbitrary. */
  ghost predicate Init(s: System) {
    && s.queue == [] && s.batch == [] && s.received == [] && s.processed == [] && s.committed == []
    && s.worker == Selecting && s.retried == 0
    && forall t :: t in s.clients ==> s.clients[t].phase == Sending && Untouched(s.clients[t])
  }

  ghost predicate IsRun(run: seq<System>, steps: seq<Step>) {
    IsPath(run, steps) && Init(run[0])
  }

  /** No tick finds a cart twice in its batch. One cart may well be checked out again in a later batch. */
  ghost predicate TicksWellFormed(run: seq<System>, steps: seq<Step>)
    requires |run| == |steps| + 1
  {
    forall i :: 0 <= i < |steps| ==> TickIsWellFormed(run, steps, i)
  }

  ghost predicate TickIsWellFormed(run: seq<System>, steps: seq<Step>, i: int)
    requires |run| == |steps| + 1 && 0 <= i < |steps|
  {
    steps[i].Tick? ==> BatchIsWellFormed(run[i])
  }

  ghost predicate BatchIsWellFormed(s: System) {
    (forall t :: t in s.batch ==> t in s.clients) ==> WellFormed(BatchOrders(s.clients, s.batch))
  }

  /** No batch that is committed holds a cart twice. */
  ghost predicate CommitsWellFormed(run: seq<System>, steps: seq<Step>)
    requires |run| == |steps| + 1
  {
    forall i :: 0 <= i < |steps| ==> CommitIsWellFormed(run, steps, i)
  }

  ghost predicate CommitIsWellFormed(run: seq<System>, steps: seq<Step>, i: int)
    requires |run| == |steps| + 1 && 0 <= i < |steps|
  {
    Commits(steps[i]) ==> BatchIsWellFormed(run[i])
  }

  predicate Commits(step: Step) {
    step.Tick? && step.outcome.Committed?
  }

  // ----- the plumbing -----

  /** A channel carries at most one value ever, and a client that got one got that one. */
  ghost predicate Plumbing(c: Client) {
    && |c.sent| <= 1
    && (c.channel.closed ==> |c.sent| == 1)
    && (if c.phase.Replied? then c.channel.buffer == [] && c.sent == [c.phase.result] else c.channel.buffer == c.sent)
  }

  ghost predicate WasFailed(c: Client) {
    c.channel.closed && |c.sent| == 1 && c.sent[0].err.Some? && c.sent[0].err.value.ErrCallFailed?
  }

  ghost function RetriedPart(s: System): seq<Ticket> {
    if s.retried <= |s.batch| then s.batch[..s.retried] else s.batch
  }

  /** The channel of a request in the current batch. */
  ghost predicate BatchChannel(s: System, t: Ticket, c: Client) {
    match s.worker
    case Delivering(outcome, toSend, toClose) =>
      if t in RetriedPart(s) then t in toSend && WasFailed(c)
      else if t in toSend then t !in toClose && Untouched(c)
      else c.sent == [ResultFor(outcome, c.order.id)] && (c.channel.closed <==> t !in toClose)
    case Crashed => true
    case _ => if t in RetriedPart(s) then WasFailed(c) else Untouched(c)
  }

  ghost predicate ClientOk(s: System, t: Ticket, c: Client) {
    && Plumbing(c)
    && (c.phase.Sending? || c.phase.GaveUp? <==> t !in s.received && t !in s.queue)
    && (t !in s.received ==> Untouched(c))
    && (t in s.processed ==> c.channel.closed)
    && (t in s.batch ==> BatchChannel(s, t, c))
  }

  ghost predicate Shape(s: System) {
    && s.received == s.processed + s.batch
    && NoDuplicates(s.received + s.queue)
    && (forall t :: t in s.received || t in s.queue ==> t in s.clients)
    && |s.queue| <= QUEUE_CAPACITY
    && s.retried <= |s.batch|
    && (s.worker.Delivering? ==>
        && s.batch != []
        && (s.worker.outcome.Failed? || s.worker.outcome.Committed?)
        && s.worker.toSend !! s.worker.toClose && s.worker.toSend + s.worker.toClose <= Members(s.batch))
  }

  /** What holds of queue, batch and channels in every run, whatever is checked out. */
  ghost predicate Flow(s: System) {
    Shape(s) && forall t :: t in s.clients ==> ClientOk(s, t, s.clients[t])
  }

  // ----- the truth -----

  /** All results sent to a request or about to be. */
  ghost function Due(s: System, t: Ticket): seq<Result>
    requires t in s.clients
  {
    var c := s.clients[t];
    c.sent + if s.worker.Delivering? && t in s.batch then [ResultFor(s.worker.outcome, c.order.id)] else []
  }

  /** A success tells what the database shows for the order, its user included, and it is part of what was asked for. */
  ghost predicate Truthful(db: Db, order: CreateOrder, result: Result) {
    result.err.None? ==>
      && result.order.id == order.id && result.order.userId == order.userId
      && OrderRow(order.id, order.userId) in db.orders
      && result.order.orderItems != []
      && multiset(result.order.orderItems) == multiset(Select(db.items, OfOrder(order.id)))
      && multiset(result.order.orderItems) <= multiset(order.orderItems)
  }

  /** The current batch has been committed and is being answered. */
  ghost predicate Announcing(s: System) {
    s.worker.Crashed? || (s.worker.Delivering? && s.worker.outcome.Committed?)
  }

  /** Request u has brought order o into the database, for its user and with items it asked for. */
  ghost predicate Owns(s: System, u: Ticket, o: Uuid) {
    && u in s.clients && u in s.received && s.clients[u].order.id == o
    && OrderRow(o, s.clients[u].order.userId) in s.db.orders
    && multiset(Select(s.db.items, OfOrder(o))) <= multiset(s.clients[u].order.orderItems)
    && (forall r :: r in Due(s, u) ==> r.err != Some(ErrOutOfStock))
    && (u in s.batch ==> Announcing(s))
  }

  ghost predicate Succeeds(s: System, t: Ticket) {
    t in s.clients && exists r :: r in Due(s, t) && r.err.None?
  }

  /** No order is announced to two requests, nor one that was there before. */
  ghost predicate OneSuccess(base: set<Uuid>, s: System) {
    && (forall t, u :: Succeeds(s, t) && Succeeds(s, u) && s.clients[t].order.id == s.clients[u].order.id ==> t == u)
    && (forall t :: Succeeds(s, t) ==> s.clients[t].order.id !in base)
  }

  /** What holds of answers and database, given that the orders in `base` were there at the start. */
  ghost predicate Truth(base: set<Uuid>, s: System) {
    && s.db.Consistent() && base <= OrderIds(s.db.orders)
    && (forall t, r :: t in s.clients && r in Due(s, t) ==> Truthful(s.db, s.clients[t].order, r))
    && (forall o :: o in OrderIds(s.db.orders) && o !in base ==> exists u :: Owns(s, u, o))
    && OneSuccess(base, s)
  }
}
