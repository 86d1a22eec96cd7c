/** The worker's object and the protocol's system side by side: what the methods do, the protocol can do. */
module Refinement {
  import opened Domain
  import opened Database
  import opened Batch
  import opened Channels
  import opened Protocol
  import opened ProtocolProof
  import opened Guarantees
  import opened Schedules
  import Rounds
  import Listener

  ghost predicate SameChannel(channel: ChannelState, c: Client) {
    c.channel == Channel(channel.buffer, channel.closed) && c.sent == channel.sent
  }

  /** Request by request the same channel. */
  ghost predicate SameChannels(channels: seq<ChannelState>, tickets: seq<Ticket>, clients: map<Ticket, Client>) {
    && |channels| == |tickets|
    && forall i :: 0 <= i < |channels| ==> tickets[i] in clients && SameChannel(channels[i], clients[tickets[i]])
  }

  /** Request by request the same order. */
  ghost predicate SameOrders(requests: seq<Request>, tickets: seq<Ticket>, clients: map<Ticket, Client>) {
    && |requests| == |tickets|
    && forall i :: 0 <= i < |requests| ==> tickets[i] in clients && clients[tickets[i]].order == requests[i].order
  }

  /** The protocol's view of the worker between two rounds of its loop. */
  ghost predicate Shows(v: Rounds.Snapshot, s: System) {
    && s.queue == [] && s.db == v.db && s.retried == v.retried && s.worker == (if v.crashed then Crashed else Selecting)
    && SameOrders(v.batch, s.batch, s.clients) && SameOrders(v.processed, s.processed, s.clients)
    && SameChannels(v.channels, s.processed + s.batch, s.clients)
  }

  ghost predicate Represents(worker: Listener.OrderWorker, s: System)
    reads worker, worker.svc, set r | r in worker.received :: r.resultChannel
  {
    Shows(worker.View(), s)
  }

  /** A new worker is the protocol at its start, whatever the clients and the tables. */
  lemma StartIsShown(clients: map<Ticket, Client>, db: Db)
    requires forall t :: t in clients ==> clients[t] == NewClient(clients[t].order)
    ensures Flow(Start(clients, db)) && Shows(Rounds.Snapshot([], [], 0, [], db, false), Start(clients, db))
  {
    var s := Start(clients, db);
    forall t | t in clients ensures ClientOk(s, t, s.clients[t]) {
      assert clients[t] == NewClient(clients[t].order);
    }
  }

  /** A path leads from s to s', and unless the batch of s holds a cart twice, nothing it commits does. */
  ghost predicate Continues(s: System, s': System) {
    exists run, steps :: Leads(run, steps, s, s') && (BatchIsWellFormed(s) ==> CommitsWellFormed(run, steps))
  }

  lemma PathFlows(s: System, s': System)
    requires Flow(s) && Continues(s, s')
    ensures Flow(s')
  {
    var run, steps :| Leads(run, steps, s, s');
    for k := 0 to |steps|
      invariant Flow(run[k])
    {
      StepFlows(run, steps, k);
    }
  }

  // ----- a tick -----

  /** Where a tick takes the protocol: the reslice panics, or a repeated answer does, or everyone is answered. */
  ghost predicate TickedTo(s: System, outcome: Outcome, s': System)
    requires forall t :: t in s.batch ==> t in s.clients
  {
    if outcome.Panicked? then s' == s.(worker := Crashed)
    else if s.retried > 0 then s' == AfterTick(s, outcome, s'.db).(worker := Crashed)
    else TickEffect(s, outcome, s'.db, s')
  }

  /** One tick of the protocol, with whatever answers it gets to. */
  ghost predicate IsTick(s: System, faults: set<Call>, outcome: Outcome, s': System) {
    && (forall t :: t in s.batch ==> t in s.clients)
    && BatchStep(s.db, BatchOrders(s.clients, s.batch), faults, outcome, s'.db)
    && TickedTo(s, outcome, s')
  }

  lemma FirstBatchWaits(s: System)
    requires Flow(s) && s.worker.Selecting? && s.retried == 0
    ensures AllWaiting(s)
  {
    BatchIsKnown(s);
    forall t | t in s.batch ensures s.clients[t].channel == Channel([], false) {
      assert ClientOk(s, t, s.clients[t]);
    }
  }

  /** The first send of a batch that was answered before takes the process down. */
  lemma RetryRuns(s: System, orders: seq<CreateOrder>, faults: set<Call>, outcome: Outcome, db': Db)
    returns (s': System)
    requires Flow(s) && s.worker.Selecting? && s.batch != [] && s.retried > 0 && !outcome.Panicked?
    requires forall t :: t in s.batch ==> t in s.clients
    requires orders == BatchOrders(s.clients, s.batch) && BatchStep(s.db, orders, faults, outcome, db')
    ensures Continues(s, s') && s' == AfterTick(s, outcome, db').(worker := Crashed)
  {
    var run, steps := Stay(s);
    var s1 := AfterTick(s, outcome, db');
    TickIsNext(s, orders, faults, outcome, db');
    run, steps := Then(run, steps, s, s, Tick(faults, outcome), s1);
    NextFlows(s, Tick(faults, outcome), s1);
    RetryCannotFinish(s1, s1);
    s' := s1.(worker := Crashed);
    run, steps := Then(run, steps, s, s1, Send(s1.batch[0]), s');
  }

  lemma PanicRuns(s: System, orders: seq<CreateOrder>, faults: set<Call>, db': Db)
    requires s.worker.Selecting? && s.batch != [] && forall t :: t in s.batch ==> t in s.clients
    requires orders == BatchOrders(s.clients, s.batch) && BatchStep(s.db, orders, faults, Panicked, db')
    ensures Continues(s, s.(worker := Crashed)) && db' == s.db
  {
    var run, steps := Stay(s);
    assert TickStep(s, faults, Panicked, s.(worker := Crashed));
    run, steps := Then(run, steps, s, s, Tick(faults, Panicked), s.(worker := Crashed));
  }

  lemma TickRuns(s: System, orders: seq<CreateOrder>, faults: set<Call>, outcome: Outcome, db': Db)
    returns (s': System)
    requires Flow(s) && s.worker.Selecting? && s.batch != [] && forall t :: t in s.batch ==> t in s.clients
    requires orders == BatchOrders(s.clients, s.batch) && BatchStep(s.db, orders, faults, outcome, db')
    ensures Continues(s, s') && s'.db == db' && TickedTo(s, outcome, s')
  {
    if outcome.Panicked? {
      PanicRuns(s, orders, faults, db');
      s' := s.(worker := Crashed);
    } else if s.retried > 0 {
      s' := RetryRuns(s, orders, faults, outcome, db');
    } else {
      FirstBatchWaits(s);
      var run, steps := Stay(s);
      run, steps, s' := SequentialTickIsAPath(run, steps, s, s, orders, faults, outcome, db');
    }
  }

  // ----- what the object then represents -----

  /** Answering changes no order. */
  lemma OrdersStay(requests: seq<Request>, tickets: seq<Ticket>, clients: map<Ticket, Client>,
      clients': map<Ticket, Client>)
    requires SameOrders(requests, tickets, clients) && clients'.Keys == clients.Keys
    requires forall t :: t in clients ==> clients'[t].order == clients[t].order
    ensures SameOrders(requests, tickets, clients')
  {
  }

  lemma OrdersConcat(a: seq<Request>, b: seq<Request>, t: seq<Ticket>, u: seq<Ticket>, clients: map<Ticket, Client>)
    requires SameOrders(a, t, clients) && SameOrders(b, u, clients)
    ensures SameOrders(a + b, t + u, clients)
  {
  }

  lemma SameBatchOrders(requests: seq<Request>, s: System)
    requires SameOrders(requests, s.batch, s.clients)
    ensures forall t :: t in s.batch ==> t in s.clients
    ensures Channels.OrdersOf(requests) == BatchOrders(s.clients, s.batch)
  {
    forall t | t in s.batch ensures t in s.clients {
      var i :| 0 <= i < |s.batch| && s.batch[i] == t;
    }
    assert Channels.OrdersOf(requests) == BatchOrders(s.clients, s.batch);
  }

  /** Processed requests are not in the batch. */
  lemma ProcessedAreApart(s: System)
    requires Shape(s)
    ensures forall t :: t in s.processed ==> t !in s.batch
  {
    forall t | t in s.processed ensures t !in s.batch {
      if t in s.batch {
        assert s.received + s.queue == s.processed + (s.batch + s.queue);
        NotTwice(s.processed, s.batch + s.queue, t);
      }
    }
  }

  /** What is said to a client of the batch, on both sides. */
  lemma AnsweredChannel(s: System, outcome: Outcome, s': System, order: CreateOrder, t: Ticket)
    requires Flow(s) && s.worker.Selecting? && s.retried == 0 && t in s.batch && t in s.clients
    requires t in s'.clients && s'.clients[t] == AnsweredClient(s.clients[t], outcome) && s.clients[t].order == order
    ensures SameChannel(Holding(ResultFor(outcome, order.id)), s'.clients[t])
  {
    assert ClientOk(s, t, s.clients[t]);
  }

  lemma BatchChannels(v: Rounds.Snapshot, outcome: Outcome, channels: seq<ChannelState>, s: System, db': Db, s': System)
    requires Flow(s) && s.worker.Selecting? && s.retried == 0 && SameOrders(v.batch, s.batch, s.clients)
    requires outcome.Failed? || outcome.Committed?
    requires forall t :: t in s.batch ==> t in s.clients
    requires |channels| == |v.batch| && Informed(channels, OrdersOf(v.batch), outcome)
    requires TickEffect(s, outcome, db', s')
    ensures SameChannels(channels, s.batch, s'.clients)
  {
    InformedIsAnswered(channels, OrdersOf(v.batch), outcome);
    forall i | 0 <= i < |channels| ensures SameChannel(channels[i], s'.clients[s.batch[i]]) {
      AnsweredChannel(s, outcome, s', v.batch[i].order, s.batch[i]);
    }
  }

  lemma ProcessedChannels(channels: seq<ChannelState>, outcome: Outcome, s: System, db': Db, s': System)
    requires Shape(s) && SameChannels(channels, s.processed, s.clients)
    requires forall t :: t in s.batch ==> t in s.clients
    requires TickEffect(s, outcome, db', s')
    ensures SameChannels(channels, s.processed, s'.clients)
  {
    ProcessedAreApart(s);
  }

  lemma ChannelsConcat(a: seq<ChannelState>, b: seq<ChannelState>, t: seq<Ticket>, u: seq<Ticket>,
      clients: map<Ticket, Client>)
    requires |a| == |t|
    ensures SameChannels(a + b, t + u, clients) <==> SameChannels(a, t, clients) && SameChannels(b, u, clients)
  {
    if SameChannels(a + b, t + u, clients) {
      forall i | 0 <= i < |a| ensures t[i] in clients && SameChannel(a[i], clients[t[i]]) {
        assert (a + b)[i] == a[i] && (t + u)[i] == t[i];
      }
      forall i | 0 <= i < |b| ensures u[i] in clients && SameChannel(b[i], clients[u[i]]) {
        assert (a + b)[|a| + i] == b[i] && (t + u)[|t| + i] == u[i];
      }
    }
  }

  lemma OldChannels(channels: seq<ChannelState>, n: nat, s: System)
    requires SameChannels(channels, s.processed + s.batch, s.clients) && n == |s.processed|
    ensures SameChannels(channels[..n], s.processed, s.clients)
  {
    assert channels == channels[..n] + channels[n..];
    ChannelsConcat(channels[..n], channels[n..], s.processed, s.batch, s.clients);
  }

  /** The channels of the batch hold the outcome on both sides, and the others have not changed. */
  lemma AnsweredChannels(v: Rounds.Snapshot, outcome: Outcome, done: seq<ChannelState>, told: seq<ChannelState>,
      s: System, db': Db, s': System)
    requires Flow(s) && s.worker.Selecting? && s.retried == 0 && SameOrders(v.batch, s.batch, s.clients)
    requires SameChannels(done, s.processed, s.clients) && (outcome.Failed? || outcome.Committed?)
    requires |told| == |v.batch| && Informed(told, OrdersOf(v.batch), outcome)
    requires (forall t :: t in s.batch ==> t in s.clients) && TickEffect(s, outcome, db', s')
    ensures SameChannels(done + told, s.processed + s.batch, s'.clients)
  {
    ProcessedChannels(done, outcome, s, db', s');
    BatchChannels(v, outcome, told, s, db', s');
    ChannelsConcat(done, told, s.processed, s.batch, s'.clients);
  }

  lemma AnswerShows(v: Rounds.Snapshot, outcome: Outcome, v': Rounds.Snapshot, s: System, s': System)
    requires Flow(s) && Shows(v, s) && !v.crashed && v.retried == 0 && (outcome.Failed? || outcome.Committed?)
    requires forall t :: t in s.batch ==> t in s.clients
    requires Rounds.Leaves(v, outcome, v') && TickEffect(s, outcome, v'.db, s')
    ensures Shows(v', s')
  {
    var n := |s.processed|;
    OldChannels(v.channels, n, s);
    AnsweredChannels(v, outcome, v'.channels[..n], v'.channels[n..], s, v'.db, s');
    assert v'.channels == v'.channels[..n] + v'.channels[n..];
    OrdersStay(v.batch, s.batch, s.clients, s'.clients);
    OrdersStay(v.processed, s.processed, s.clients, s'.clients);
    OrdersConcat(v.processed, v.batch, s.processed, s.batch, s'.clients);
    assert s'.processed + s'.batch == s.processed + s.batch;
  }

  lemma TickShows(v: Rounds.Snapshot, outcome: Outcome, v': Rounds.Snapshot, s: System, s': System)
    requires Flow(s) && Shows(v, s) && !v.crashed && !outcome.NoOrders?
    requires forall t :: t in s.batch ==> t in s.clients
    requires Rounds.Leaves(v, outcome, v') && TickedTo(s, outcome, s') && s'.db == v'.db
    ensures Shows(v', s')
  {
    if !outcome.Panicked? && s.retried == 0 {
      AnswerShows(v, outcome, v', s, s');
    }
  }

  /** What one event makes of the protocol; a request arrives as ticket t. */
  ghost predicate EventTakes(s: System, event: Rounds.Event, t: Ticket, outcome: Outcome, s': System) {
    match event
    case Done => s' == s
    case Received(_) => t in s.clients && s' == Taken(s, t)
    case Ticked(faults) => if outcome.NoOrders? then s' == s else IsTick(s, faults, outcome, s')
  }

  lemma NothingRuns(s: System)
    ensures Continues(s, s)
  {
    var run, steps := Stay(s);
  }

  lemma TickIsShown(v: Rounds.Snapshot, faults: set<Call>, outcome: Outcome, v': Rounds.Snapshot, s: System)
    returns (s': System)
    requires Flow(s) && Shows(v, s) && !v.crashed && Rounds.HandlesTick(v, faults, outcome, v')
    ensures Continues(s, s') && Shows(v', s')
    ensures if outcome.NoOrders? then s' == s else IsTick(s, faults, outcome, s')
  {
    if outcome.NoOrders? {
      NothingRuns(s);
      s' := s;
    } else {
      SameBatchOrders(v.batch, s);
      s' := TickRuns(s, OrdersOf(v.batch), faults, outcome, v'.db);
      TickShows(v, outcome, v', s, s');
    }
  }

  lemma ArrivalIsShown(v: Rounds.Snapshot, request: Request, s: System, t: Ticket)
    requires Flow(s) && Shows(v, s) && !v.crashed && InPhase(s, t, Sending) && s.clients[t].order == request.order
    ensures Continues(s, Taken(s, t))
    ensures Shows(v.(batch := v.batch + [request], channels := v.channels + [OPEN]), Taken(s, t))
  {
    var run, steps := Stay(s);
    run, steps := Take(run, steps, s, s, t);
    assert ClientOk(s, t, s.clients[t]);
    var s' := Taken(s, t);
    OrdersStay(v.batch, s.batch, s.clients, s'.clients);
    OrdersStay(v.processed, s.processed, s.clients, s'.clients);
    assert s'.processed + s'.batch == (s.processed + s.batch) + [t];
    assert SameChannels(v.channels, s.processed + s.batch, s'.clients);
    ChannelsConcat(v.channels, [OPEN], s.processed + s.batch, [t], s'.clients);
  }

  /** Every round of the loop is a path of the protocol. */
  lemma RoundIsShown(v: Rounds.Snapshot, event: Rounds.Event, outcome: Outcome, v': Rounds.Snapshot, s: System,
      t: Ticket)
    returns (s': System)
    requires Flow(s) && Shows(v, s) && !v.crashed && Rounds.Handles(v, event, outcome, v')
    requires event.Received? ==> InPhase(s, t, Sending) && s.clients[t].order == event.request.order
    ensures Continues(s, s') && Flow(s') && Shows(v', s') && EventTakes(s, event, t, outcome, s')
  {
    match event {
      case Done =>
        NothingRuns(s);
        s' := s;
      case Received(request) =>
        ArrivalIsShown(v, request, s, t);
        s' := Taken(s, t);
      case Ticked(faults) =>
        s' := TickIsShown(v, faults, outcome, v', s);
    }
    PathFlows(s, s');
  }

  // ----- the whole loop -----

  /** The requests still to come are clients at their first select, each with a ticket of its own. */
  ghost predicate TicketsWait(events: seq<Rounds.Event>, tickets: seq<Ticket>, handled: nat, s: System) {
    && |tickets| == |events|
    && (forall i :: handled <= i < |events| && events[i].Received? ==>
         InPhase(s, tickets[i], Sending) && s.clients[tickets[i]].order == events[i].request.order)
    && forall i, j :: handled <= i < j < |events| && events[i].Received? && events[j].Received? ==>
         tickets[i] != tickets[j]
  }

  /** No round touches a client that has not been received. */
  lemma OthersStay(s: System, event: Rounds.Event, t: Ticket, outcome: Outcome, s': System, u: Ticket)
    requires Flow(s) && EventTakes(s, event, t, outcome, s') && InPhase(s, u, Sending)
    requires event.Received? ==> t != u
    ensures u in s'.clients && s'.clients[u] == s.clients[u]
  {
    assert ClientOk(s, u, s.clients[u]);
    assert u !in s.batch;
  }

  lemma TicketsStillWait(events: seq<Rounds.Event>, tickets: seq<Ticket>, handled: nat, s: System, outcome: Outcome,
      s': System)
    requires TicketsWait(events, tickets, handled, s) && handled < |events| && Flow(s)
    requires EventTakes(s, events[handled], tickets[handled], outcome, s')
    ensures TicketsWait(events, tickets, handled + 1, s')
  {
    forall i | handled < i < |events| && events[i].Received?
      ensures InPhase(s', tickets[i], Sending) && s'.clients[tickets[i]].order == events[i].request.order
    {
      OthersStay(s, events[handled], tickets[handled], outcome, s', tickets[i]);
    }
  }

  /** Event i takes the protocol, on a path, from systems[i] to systems[i + 1]. */
  ghost predicate RoundIsPath(events: seq<Rounds.Event>, tickets: seq<Ticket>, log: Rounds.Log, systems: seq<System>,
      i: int)
  {
    && 0 <= i < |log.outcomes| && i < |events| && i < |tickets| && i + 1 < |systems|
    && Continues(systems[i], systems[i + 1])
    && EventTakes(systems[i], events[i], tickets[i], log.outcomes[i], systems[i + 1])
  }

  /** The protocol's states at the rounds of the loop, one path after the other. */
  ghost predicate IsShadow(events: seq<Rounds.Event>, tickets: seq<Ticket>, log: Rounds.Log, systems: seq<System>) {
    && 0 < |systems| <= |log.history|
    && (forall i :: 0 <= i < |systems| ==> Shows(log.history[i], systems[i]))
    && (forall i :: 0 <= i < |systems| - 1 ==> RoundIsPath(events, tickets, log, systems, i))
  }

  lemma ShadowGrows(events: seq<Rounds.Event>, tickets: seq<Ticket>, log: Rounds.Log, systems: seq<System>, s': System)
    requires IsShadow(events, tickets, log, systems) && Rounds.IsHistory(events, log)
    requires var n := |systems| - 1;
      && n < |log.outcomes| && n < |tickets| && Shows(log.history[n + 1], s') && Continues(systems[n], s')
      && EventTakes(systems[n], events[n], tickets[n], log.outcomes[n], s')
    ensures IsShadow(events, tickets, log, systems + [s'])
  {
    var systems' := systems + [s'];
    forall i | 0 <= i < |systems'| - 1 ensures RoundIsPath(events, tickets, log, systems', i) {
      if i < |systems| - 1 {
        assert RoundIsPath(events, tickets, log, systems, i);
      }
    }
  }

  lemma NextRoundIsShown(events: seq<Rounds.Event>, tickets: seq<Ticket>, log: Rounds.Log, i: nat, s: System)
    returns (s': System)
    requires Rounds.IsHistory(events, log) && i < |log.outcomes| && Flow(s) && Shows(log.history[i], s)
    requires TicketsWait(events, tickets, i, s)
    ensures Continues(s, s') && Flow(s') && Shows(log.history[i + 1], s')
    ensures EventTakes(s, events[i], tickets[i], log.outcomes[i], s') && TicketsWait(events, tickets, i + 1, s')
  {
    assert Rounds.IsRound(events, log, i);
    s' := RoundIsShown(log.history[i], events[i], log.outcomes[i], log.history[i + 1], s, tickets[i]);
    TicketsStillWait(events, tickets, i, s, log.outcomes[i], s');
  }

  /** The first n rounds of the loop are a path of the protocol, with one tick for each tick that finds a batch. */
  lemma {:induction false} LogIsShown(events: seq<Rounds.Event>, tickets: seq<Ticket>, log: Rounds.Log, s0: System,
      n: nat)
    returns (systems: seq<System>)
    requires Rounds.IsHistory(events, log) && n <= |log.outcomes| && Flow(s0) && Shows(log.history[0], s0)
    requires TicketsWait(events, tickets, 0, s0)
    ensures |systems| == n + 1 && systems[0] == s0 && IsShadow(events, tickets, log, systems)
    ensures Flow(systems[n]) && TicketsWait(events, tickets, n, systems[n])
  {
    if n == 0 {
      systems := [s0];
    } else {
      systems := LogIsShown(events, tickets, log, s0, n - 1);
      var s' := NextRoundIsShown(events, tickets, log, n - 1, systems[n - 1]);
      ShadowGrows(events, tickets, log, systems, s');
      systems := systems + [s'];
    }
  }

  lemma ReachOn(s0: System, s: System, s': System)
    requires CanReach(s0, s) && Continues(s, s')
    ensures CanReach(s0, s')
  {
    var run0, steps0 :| Leads(run0, steps0, s0, s);
    var run1, steps1 :| Leads(run1, steps1, s, s');
    var run, steps := Join(run0, steps0, s0, s, run1, steps1, s');
  }

  lemma {:induction false} ShadowIsPath(events: seq<Rounds.Event>, tickets: seq<Ticket>, log: Rounds.Log,
      systems: seq<System>, n: nat)
    requires IsShadow(events, tickets, log, systems) && n < |systems|
    ensures CanReach(systems[0], systems[n])
  {
    ReachesItself(systems[0]);
    for k := 0 to n
      invariant CanReach(systems[0], systems[k])
    {
      assert RoundIsPath(events, tickets, log, systems, k);
      ReachOn(systems[0], systems[k], systems[k + 1]);
    }
  }

  /**
   * The loop of the object, on whatever events: round by round it is a path of the protocol from the state the
   * object represents to the one it represents in the end, tables, books and channels included.
   */
  method LoopRefines(worker: Listener.OrderWorker, events: seq<Rounds.Event>, ghost tickets: seq<Ticket>,
      ghost s: System)
    returns (handled: nat, crash: bool, ghost log: Rounds.Log, ghost systems: seq<System>)
    requires Listener.OwnChannels(events) && worker.Running(events, 0) && !worker.crashed
    requires Flow(s) && Represents(worker, s) && TicketsWait(events, tickets, 0, s)
    modifies worker`batch, worker`received, worker`processed, worker`retried, worker`crashed, worker.svc
    modifies set e | e in events && e.Received? :: e.request.resultChannel
    ensures Rounds.IsHistory(events, log) && |log.outcomes| == handled && log.history[0] == old(worker.View())
    ensures if crash then handled > 0 && events[handled - 1].Ticked?
      else handled == |events| || events[handled].Done?
    ensures |systems| == handled + 1 && systems[0] == s && IsShadow(events, tickets, log, systems)
    ensures CanReach(s, systems[handled]) && Represents(worker, systems[handled])
    ensures crash <==> systems[handled].worker.Crashed?
  {
    handled, crash, log := worker.StartWorker(events);
    systems := LogIsShown(events, tickets, log, s, handled);
    ShadowIsPath(events, tickets, log, systems, handled);
  }

  /** A tick of the object on its own. */
  method TickRefines(worker: Listener.OrderWorker, faults: set<Call>, ghost s: System)
    returns (outcome: Outcome, ghost s': System)
    requires worker.Valid() && !worker.crashed && Flow(s) && Represents(worker, s)
    modifies worker`batch, worker`processed, worker`retried, worker`crashed, worker.svc
    modifies set r | r in worker.batch :: r.resultChannel
    ensures Continues(s, s') && Flow(s') && Represents(worker, s')
    ensures if outcome.NoOrders? then s' == s else IsTick(s, faults, outcome, s')
  {
    ghost var v := worker.View();
    var crash;
    outcome, crash := worker.Tick(faults);
    s' := TickIsShown(v, faults, outcome, worker.View(), s);
    PathFlows(s, s');
  }

  /** A request put on the object's batch is one that the protocol can enqueue and receive. */
  method ReceiveRefines(worker: Listener.OrderWorker, request: Request, ghost s: System, ghost t: Ticket)
    requires worker.Valid() && !worker.crashed && Listener.IsNew(request, worker.received)
    requires Flow(s) && Represents(worker, s)
    requires InPhase(s, t, Sending) && request.order == s.clients[t].order
    modifies worker`batch, worker`received
    ensures Continues(s, Taken(s, t)) && Flow(Taken(s, t))
    ensures worker.Valid() && Represents(worker, Taken(s, t))
  {
    ghost var v := worker.View();
    worker.Receive(request);
    ArrivalIsShown(v, request, s, t);
    PathFlows(s, Taken(s, t));
  }
}
