/**
 * What each participant can do next: the first select of Checkout can always be left, a result that was sent can be
 * taken, the worker and its goroutines are never blocked, and a waiting client can still be answered.
 */
module Progress {
  import opened Domain
  import opened Merge
  import opened Database
  import opened Batch
  import opened BatchProof
  import opened Existence
  import opened Channels
  import opened Protocol
  import opened ProtocolProof
  import opened Guarantees
  import opened Schedules

  // ----- the client -----

  /** Only client t has changed, and of it only what is said. */
  ghost predicate OnlyClient(s: System, t: Ticket, c: Client, s': System) {
    t in s.clients && s'.clients == s.clients[t := c] && s' == s.(clients := s'.clients)
  }

  /** The first select can always give up, whatever waits in the queue, and nothing else changes. */
  lemma GiveUpIsPossible(s: System, t: Ticket)
    requires InPhase(s, t, Sending)
    ensures exists s' :: NextBy(s, GiveUp(t), s')
    ensures forall s' :: NextBy(s, GiveUp(t), s') ==> OnlyClient(s, t, s.clients[t].(phase := GaveUp), s')
  {
    assert NextBy(s, GiveUp(t), WithPhase(s, t, GaveUp));
  }

  /** So can the second one, whatever is in the channel. */
  lemma TimeOutIsPossible(s: System, t: Ticket)
    requires InPhase(s, t, Waiting)
    ensures exists s' :: NextBy(s, TimeOut(t), s')
    ensures forall s' :: NextBy(s, TimeOut(t), s') ==> OnlyClient(s, t, s.clients[t].(phase := TimedOut), s')
  {
    assert NextBy(s, TimeOut(t), WithPhase(s, t, TimedOut));
  }

  /** The queue holds at most one request, and takes another exactly when it is empty. */
  lemma EnqueueExactlyWhen(s: System, t: Ticket)
    requires Flow(s) && InPhase(s, t, Sending)
    ensures |s.queue| <= 1
    ensures (exists s' :: NextBy(s, Enqueue(t), s')) <==> s.queue == []
    ensures forall s' :: NextBy(s, Enqueue(t), s') ==>
      s'.queue == [t] && OnlyClient(s.(queue := [t]), t, s.clients[t].(phase := Waiting), s')
  {
    if s.queue == [] {
      assert NextBy(s, Enqueue(t), WithPhase(s, t, Waiting).(queue := s.queue + [t]));
    }
  }

  /** A waiting client can take a result exactly when one was sent to it, and it takes that one. */
  lemma AwaitExactlyWhen(s: System, t: Ticket)
    requires Flow(s) && InPhase(s, t, Waiting)
    ensures (exists s' :: NextBy(s, Await(t), s')) <==> s.clients[t].sent != []
    ensures s.clients[t].channel.buffer == s.clients[t].sent
    ensures forall s', r :: NextBy(s, Await(t), s') && s.clients[t].sent == [r] ==>
      OnlyClient(s, t, s.clients[t].(phase := Replied(r), channel := s.clients[t].channel.(buffer := [])), s')
  {
    var c := s.clients[t];
    assert ClientOk(s, t, c);
    if c.sent != [] {
      assert c.channel.buffer[1..] == [];
      assert NextBy(s, Await(t), s.(clients := s.clients[t := c.(
        phase := Replied(c.channel.buffer[0]), channel := c.channel.(buffer := c.channel.buffer[1..]))]));
    }
  }

  // ----- the worker -----

  /** The worker can take a request exactly when one waits and no batch is being answered. */
  lemma ReceiveExactlyWhen(s: System)
    requires Flow(s)
    ensures (exists s' :: NextBy(s, Receive, s')) <==> s.worker.Selecting? && s.queue != []
    ensures forall s' :: NextBy(s, Receive, s') ==>
      s.queue != [] && s' == s.(queue := [], batch := s.batch + s.queue, received := s.received + s.queue)
  {
    if s.worker.Selecting? && s.queue != [] {
      assert s.queue == [s.queue[0]];
      assert NextBy(s, Receive,
        s.(queue := s.queue[1..], batch := s.batch + [s.queue[0]], received := s.received + [s.queue[0]]));
    }
  }

  /** It can always end instead. */
  lemma StopIsPossible(s: System)
    requires s.worker.Selecting?
    ensures NextBy(s, Stop, s.(worker := Stopped))
  {
  }

  lemma TickIsNextBy(s: System, orders: seq<CreateOrder>, faults: set<Call>, outcome: Outcome, db': Db)
    returns (s': System)
    requires s.worker.Selecting? && s.batch != [] && forall t :: t in s.batch ==> t in s.clients
    requires orders == BatchOrders(s.clients, s.batch) && BatchStep(s.db, orders, faults, outcome, db')
    ensures NextBy(s, Tick(faults, outcome), s') && s'.db == db'
  {
    s' := s.(db := db',
      worker := if outcome.Panicked? then Crashed else Delivering(outcome, Members(s.batch), {}),
      committed := if outcome.Committed? then s.committed + [orders] else s.committed);
    assert TickStep(s, faults, outcome, s');
  }

  /** Whatever calls fail, a tick on a non-empty batch has an outcome. */
  lemma TickIsPossible(s: System, faults: set<Call>) returns (outcome: Outcome, s': System)
    requires Flow(s) && s.worker.Selecting? && s.batch != []
    ensures NextBy(s, Tick(faults, outcome), s')
  {
    BatchIsKnown(s);
    var orders := BatchOrders(s.clients, s.batch);
    var db';
    outcome, db' := OutcomeExists(s.db, orders, faults);
    s' := TickIsNextBy(s, orders, faults, outcome, db');
  }

  /** An answering goroutine that has sent can always close its channel, and that never panics. */
  lemma CloseExactlyWhen(s: System, t: Ticket)
    requires Flow(s)
    ensures (exists s' :: NextBy(s, Close(t), s')) <==> s.worker.Delivering? && t in s.worker.toClose
    ensures forall s' :: NextBy(s, Close(t), s') ==>
      && s.worker.Delivering? && t in s.clients
      && s' == s.(worker := s.worker.(toClose := s.worker.toClose - {t}),
           clients := s.clients[t := s.clients[t].(channel := s.clients[t].channel.(closed := true))])
  {
    if s.worker.Delivering? && t in s.worker.toClose {
      assert t in s.batch;
      BatchIsKnown(s);
      var c := s.clients[t];
      assert ClientOk(s, t, c);
      assert NextBy(s, Close(t), s.(worker := s.worker.(toClose := s.worker.toClose - {t}),
        clients := s.clients[t := c.(channel := c.channel.(closed := true))]));
    }
  }

  /** A send takes the process down exactly when the request was answered before; otherwise the value is delivered. */
  lemma SendExactlyWhen(s: System, t: Ticket)
    requires Flow(s)
    ensures (exists s' :: NextBy(s, Send(t), s')) <==> s.worker.Delivering? && t in s.worker.toSend
    ensures forall s' :: NextBy(s, Send(t), s') ==>
      && s.worker.Delivering? && t in s.clients
      && (if t in RetriedPart(s) then s' == s.(worker := Crashed)
          else
            && s'.worker == Delivering(s.worker.outcome, s.worker.toSend - {t}, s.worker.toClose + {t})
            && s'.clients == s.clients[t := Sent(s.clients[t], ResultFor(s.worker.outcome, s.clients[t].order.id))]
            && s' == s.(worker := s'.worker, clients := s'.clients))
  {
    if s.worker.Delivering? && t in s.worker.toSend {
      assert t in s.batch;
      BatchIsKnown(s);
      var c := s.clients[t];
      assert ClientOk(s, t, c);
      if c.channel.closed {
        assert NextBy(s, Send(t), s.(worker := Crashed));
      } else {
        assert NextBy(s, Send(t), s.(
          worker := s.worker.(toSend := s.worker.toSend - {t}, toClose := s.worker.toClose + {t}),
          clients := s.clients[t := Sent(c, ResultFor(s.worker.outcome, c.order.id))]));
      }
    }
  }

  /** The batch ends exactly when every goroutine has closed its channel: a success clears it, an error keeps it. */
  lemma FinishExactlyWhen(s: System)
    ensures (exists s' :: NextBy(s, Finish, s')) <==>
      s.worker.Delivering? && s.worker.toSend == {} && s.worker.toClose == {}
    ensures forall s' :: NextBy(s, Finish, s') ==>
      && s.worker.Delivering? && s'.worker == Selecting
      && s'.batch == (if s.worker.outcome.Committed? then [] else s.batch)
      && s'.processed == s.processed + (if s.worker.outcome.Committed? then s.batch else [])
      && s'.retried == |s'.batch|
      && s' == s.(worker := s'.worker, batch := s'.batch, processed := s'.processed, retried := s'.retried)
  {
    if s.worker.Delivering? && s.worker.toSend == {} && s.worker.toClose == {} {
      assert NextBy(s, Finish, Finished(s));
    }
  }

  // ----- what can still happen -----

  /** The answers go on: queue, tables, books, and what the clients do stay as they are. */
  ghost predicate OnlyAnswers(s: System, s': System) {
    && s'.queue == s.queue && s'.db == s.db && s'.received == s.received && s'.clients.Keys == s.clients.Keys
    && forall t :: t in s.clients ==>
         s'.clients[t].order == s.clients[t].order && s'.clients[t].phase == s.clients[t].phase
  }

  /** How many sends and closes are still to come. */
  ghost function Left(s: System): nat {
    if s.worker.Delivering? then 2 * |s.worker.toSend| + |s.worker.toClose| else 0
  }

  /** The batch is being answered for the first time. */
  ghost predicate FirstAnswers(s: System) {
    Flow(s) && s.worker.Delivering? && s.retried == 0
  }

  /** The same answers, a little later. */
  ghost predicate AnswersOn(s: System, s': System) {
    && FirstAnswers(s') && s.worker.Delivering? && s'.worker.outcome == s.worker.outcome
    && OnlyAnswers(s, s') && s'.batch == s.batch && s'.processed == s.processed
  }

  lemma SendGoesOn(s: System, t: Ticket) returns (s': System)
    requires FirstAnswers(s) && t in s.worker.toSend
    ensures NextBy(s, Send(t), s') && AnswersOn(s, s') && Left(s') < Left(s)
  {
    SendExactlyWhen(s, t);
    s' :| NextBy(s, Send(t), s');
    assert s.worker.toSend == s'.worker.toSend + {t} && |s'.worker.toClose| <= |s.worker.toClose| + 1;
    NextFlows(s, Send(t), s');
  }

  lemma CloseGoesOn(s: System, t: Ticket) returns (s': System)
    requires FirstAnswers(s) && t in s.worker.toClose
    ensures NextBy(s, Close(t), s') && AnswersOn(s, s') && Left(s') < Left(s)
  {
    CloseExactlyWhen(s, t);
    s' :| NextBy(s, Close(t), s');
    assert s.worker.toClose == s'.worker.toClose + {t};
    NextFlows(s, Close(t), s');
  }

  /** From every interleaving of the goroutines the rest of the answers can be given, without a panic. */
  lemma {:induction false} AllCanBeAnswered(s0: System, s: System) returns (s': System)
    requires CanReach(s0, s) && FirstAnswers(s)
    ensures CanReach(s0, s') && AnswersOn(s, s') && Left(s') == 0
    decreases Left(s)
  {
    if t :| t in s.worker.toSend {
      var s1 := SendGoesOn(s, t);
      ReachNext(s0, s, Send(t), s1);
      s' := AllCanBeAnswered(s0, s1);
    } else if t :| t in s.worker.toClose {
      var s1 := CloseGoesOn(s, t);
      ReachNext(s0, s, Close(t), s1);
      s' := AllCanBeAnswered(s0, s1);
    } else {
      s' := s;
    }
  }

  ghost predicate HasAnswer(s: System, t: Ticket) {
    t in s.clients && s.clients[t].phase.Replied?
  }

  /** A client whose result was sent can take it. */
  lemma CanAwait(s0: System, s: System, t: Ticket) returns (s': System)
    requires CanReach(s0, s) && Flow(s) && InPhase(s, t, Waiting) && s.clients[t].sent != []
    ensures CanReach(s0, s') && HasAnswer(s', t)
  {
    AwaitExactlyWhen(s, t);
    assert ClientOk(s, t, s.clients[t]);
    var r := s.clients[t].sent[0];
    assert s.clients[t].sent == [r];
    s' :| NextBy(s, Await(t), s');
    ReachNext(s0, s, Await(t), s');
  }

  /** Its goroutine may be the first to send, even of a batch that was answered before. */
  lemma CanBeSent(s0: System, s: System, t: Ticket) returns (s': System)
    requires CanReach(s0, s) && Flow(s) && InPhase(s, t, Waiting)
    requires s.worker.Delivering? && t in s.worker.toSend && t !in RetriedPart(s)
    ensures CanReach(s0, s') && HasAnswer(s', t)
  {
    SendExactlyWhen(s, t);
    var s1 :| NextBy(s, Send(t), s1);
    ReachNext(s0, s, Send(t), s1);
    NextFlows(s, Send(t), s1);
    s' := CanAwait(s0, s1, t);
  }

  lemma CanBeTicked(s0: System, s: System, t: Ticket) returns (s': System)
    requires CanReach(s0, s) && Flow(s) && InPhase(s, t, Waiting) && s.worker.Selecting? && t in s.batch
    requires BatchIsWellFormed(s)
    ensures CanReach(s0, s') && HasAnswer(s', t)
  {
    assert ClientOk(s, t, s.clients[t]);
    if t in RetriedPart(s) {
      s' := CanAwait(s0, s, t);
    } else {
      var outcome, s1 := TickIsPossible(s, {});
      BatchIsKnown(s);
      WellFormedNeverOverdrawn(BatchOrders(s.clients, s.batch), s.db.products);
      ReachNext(s0, s, Tick({}, outcome), s1);
      NextFlows(s, Tick({}, outcome), s1);
      s' := CanBeSent(s0, s1, t);
    }
  }

  /** The requests that a worker about to select may take up together make a batch of different carts. */
  ghost predicate NextBatchIsWellFormed(s: System) {
    (forall t :: t in s.batch + s.queue ==> t in s.clients) ==> WellFormed(BatchOrders(s.clients, s.batch + s.queue))
  }

  lemma CanBeReceived(s0: System, s: System, t: Ticket) returns (s': System)
    requires CanReach(s0, s) && Flow(s) && InPhase(s, t, Waiting) && s.worker.Selecting? && t in s.queue
    requires NextBatchIsWellFormed(s)
    ensures CanReach(s0, s') && HasAnswer(s', t)
  {
    ReceiveExactlyWhen(s);
    var s1 :| NextBy(s, Receive, s1);
    ReachNext(s0, s, Receive, s1);
    NextFlows(s, Receive, s1);
    s' := CanBeTicked(s0, s1, t);
  }

  /** What a worker may take up after this batch is part of what it held before. */
  lemma LaterBatchIsWellFormed(s: System, s': System)
    requires Shape(s) && Shape(s') && NextBatchIsWellFormed(s) && s'.queue == s.queue
    requires s'.batch == s.batch || s'.batch == []
    requires s'.clients.Keys == s.clients.Keys
    requires forall t :: t in s.clients ==> s'.clients[t].order == s.clients[t].order
    ensures NextBatchIsWellFormed(s')
  {
    BatchIsKnown(s);
    var all, all' := BatchOrders(s.clients, s.batch + s.queue), BatchOrders(s'.clients, s'.batch + s'.queue);
    var n := |all| - |all'|;
    forall i | 0 <= i < |all'| ensures all'[i] == all[n + i] {
      assert (s'.batch + s'.queue)[i] == (s.batch + s.queue)[n + i];
    }
  }

  lemma CanBeFinished(s0: System, s: System, t: Ticket) returns (s': System)
    requires CanReach(s0, s) && FirstAnswers(s) && InPhase(s, t, Waiting) && t in s.queue && NextBatchIsWellFormed(s)
    ensures CanReach(s0, s') && HasAnswer(s', t)
  {
    var s1 := AllCanBeAnswered(s0, s);
    FinishExactlyWhen(s1);
    var s2 :| NextBy(s1, Finish, s2);
    ReachNext(s0, s1, Finish, s2);
    NextFlows(s1, Finish, s2);
    LaterBatchIsWellFormed(s, s2);
    s' := CanBeReceived(s0, s2, t);
  }

  lemma CanBeDelivered(s: System, t: Ticket) returns (s': System)
    requires Flow(s) && InPhase(s, t, Waiting) && s.worker.Delivering? && NextBatchIsWellFormed(s)
    requires t in s.batch || s.retried == 0
    ensures CanReach(s, s') && HasAnswer(s', t)
  {
    ReachesItself(s);
    assert ClientOk(s, t, s.clients[t]);
    if s.clients[t].sent != [] {
      s' := CanAwait(s, s, t);
    } else if t in s.batch {
      s' := CanBeSent(s, s, t);
    } else {
      s' := CanBeFinished(s, s, t);
    }
  }

  lemma CanBeSelected(s: System, t: Ticket) returns (s': System)
    requires Flow(s) && InPhase(s, t, Waiting) && s.worker.Selecting? && NextBatchIsWellFormed(s)
    ensures CanReach(s, s') && HasAnswer(s', t)
  {
    ReachesItself(s);
    assert ClientOk(s, t, s.clients[t]);
    if s.clients[t].sent != [] {
      s' := CanAwait(s, s, t);
    } else if t in s.batch {
      BatchPartIsWellFormed(s);
      s' := CanBeTicked(s, s, t);
    } else {
      s' := CanBeReceived(s, s, t);
    }
  }

  lemma BatchPartIsWellFormed(s: System)
    requires Shape(s) && NextBatchIsWellFormed(s)
    ensures BatchIsWellFormed(s)
  {
    BatchIsKnown(s);
    var all, orders := BatchOrders(s.clients, s.batch + s.queue), BatchOrders(s.clients, s.batch);
    forall i | 0 <= i < |orders| ensures orders[i] == all[i] {}
  }

  // ----- and what cannot -----

  /** Nobody will ever send to this request. */
  ghost predicate Abandoned(s: System, t: Ticket) {
    && Flow(s) && t in s.clients && s.clients[t].sent == [] && !s.clients[t].phase.Replied?
    && (s.worker.Stopped? || s.worker.Crashed? || (s.worker.Delivering? && s.retried > 0 && t !in s.batch))
  }

  lemma StaysAbandoned(s: System, step: Step, s': System, t: Ticket)
    requires Abandoned(s, t) && NextBy(s, step, s')
    ensures Abandoned(s', t)
  {
    NextFlows(s, step, s');
    assert ClientOk(s, t, s.clients[t]);
    if step.Finish? {
      RetryCannotFinish(s, s');
    }
  }

  lemma {:induction false} AbandonedIsNeverAnswered(run: seq<System>, steps: seq<Step>, i: nat, t: Ticket)
    requires IsPath(run, steps) && i <= |steps| && Abandoned(run[0], t)
    ensures Abandoned(run[i], t)
  {
    for k := 0 to i
      invariant Abandoned(run[k], t)
    {
      assert Follows(run, steps, k);
      StaysAbandoned(run[k], steps[k], run[k + 1], t);
    }
  }

  /** The worker will still come to this request, or has sent to it. */
  ghost predicate Attended(s: System, t: Ticket)
    requires t in s.clients
  {
    || s.clients[t].sent != [] || s.worker.Selecting?
    || (s.worker.Delivering? && (t in s.batch || s.retried == 0))
  }

  /**
   * A waiting client can still be answered, exactly as long as the worker selects, or answers its batch, or answers a
   * batch for the first time, or the answer is in the channel already. Afterwards only its timeout is left.
   */
  lemma WaitingIsAnswerableExactlyWhen(s: System, t: Ticket)
    requires Flow(s) && InPhase(s, t, Waiting) && NextBatchIsWellFormed(s)
    ensures (exists s' :: CanReach(s, s') && HasAnswer(s', t)) <==> Attended(s, t)
  {
    if Attended(s, t) {
      var s' := AttendedIsAnswered(s, t);
    } else {
      forall s' | CanReach(s, s') ensures !HasAnswer(s', t) {
        var run, steps :| Leads(run, steps, s, s');
        AbandonedIsNeverAnswered(run, steps, |steps|, t);
      }
    }
  }

  lemma AttendedIsAnswered(s: System, t: Ticket) returns (s': System)
    requires Flow(s) && InPhase(s, t, Waiting) && NextBatchIsWellFormed(s) && Attended(s, t)
    ensures CanReach(s, s') && HasAnswer(s', t)
  {
    if s.worker.Delivering? && (t in s.batch || s.retried == 0) {
      s' := CanBeDelivered(s, t);
    } else if s.worker.Selecting? {
      s' := CanBeSelected(s, t);
    } else {
      ReachesItself(s);
      s' := CanAwait(s, s, t);
    }
  }
}
