/**
 * The protocol lets the answering goroutines interleave freely; the methods of Channels and Listener answer one
 * request after the other. That is one of the protocol's schedules, for batches of any size.
 */
module Schedules {
  import opened Domain
  import opened Database
  import opened Batch
  import opened Channels
  import opened Protocol
  import opened Guarantees

  /** A path from one state to another. */
  ghost predicate Leads(run: seq<System>, steps: seq<Step>, s: System, s': System) {
    IsPath(run, steps) && run[0] == s && run[|steps|] == s'
  }

  /** What was added to the path commits no batch with a cart twice. */
  ghost predicate GoesOnWell(run: seq<System>, steps: seq<Step>, run': seq<System>, steps': seq<Step>)
    requires |run| == |steps| + 1 && |run'| == |steps'| + 1
  {
    CommitsWellFormed(run, steps) ==> CommitsWellFormed(run', steps')
  }

  lemma Stay(s: System) returns (run: seq<System>, steps: seq<Step>)
    ensures Leads(run, steps, s, s) && CommitsWellFormed(run, steps)
  {
    run, steps := [s], [];
  }

  lemma Then(run: seq<System>, steps: seq<Step>, s: System, s1: System, step: Step, s': System)
    returns (run': seq<System>, steps': seq<Step>)
    requires Leads(run, steps, s, s1) && NextBy(s1, step, s')
    ensures Leads(run', steps', s, s')
    ensures (Commits(step) ==> BatchIsWellFormed(s1)) ==> GoesOnWell(run, steps, run', steps')
  {
    run', steps' := run + [s'], steps + [step];
    forall i | 0 <= i < |steps'|
      ensures Follows(run', steps', i)
      ensures i < |steps| ==> (CommitIsWellFormed(run', steps', i) <==> CommitIsWellFormed(run, steps, i))
    {
      if i < |steps| {
        assert Follows(run, steps, i);
      }
    }
  }

  ghost predicate CanReach(s: System, s': System) {
    exists run, steps :: Leads(run, steps, s, s')
  }

  lemma ReachesItself(s: System)
    ensures CanReach(s, s)
  {
    var run, steps := Stay(s);
  }

  lemma ReachNext(s: System, s1: System, step: Step, s': System)
    requires CanReach(s, s1) && NextBy(s1, step, s')
    ensures CanReach(s, s')
  {
    var run, steps :| Leads(run, steps, s, s1);
    run, steps := Then(run, steps, s, s1, step, s');
  }

  /** A path from s and one that goes on where it ends. */
  lemma Join(run0: seq<System>, steps0: seq<Step>, s0: System, s: System, run1: seq<System>, steps1: seq<Step>,
      s': System)
    returns (run: seq<System>, steps: seq<Step>)
    requires Leads(run0, steps0, s0, s) && Leads(run1, steps1, s, s')
    ensures Leads(run, steps, s0, s')
  {
    run, steps := run0 + run1[1..], steps0 + steps1;
    forall i | 0 <= i < |steps| ensures Follows(run, steps, i) {
      if i < |steps0| {
        assert Follows(run0, steps0, i);
      } else {
        assert Follows(run1, steps1, i - |steps0|);
      }
    }
  }

  /** A request on its way to the worker: enqueued and received. */
  ghost function Taken(s: System, t: Ticket): System
    requires t in s.clients
  {
    WithPhase(s, t, Waiting).(batch := s.batch + [t], received := s.received + [t])
  }

  lemma Take(run: seq<System>, steps: seq<Step>, s0: System, s: System, t: Ticket)
    returns (run': seq<System>, steps': seq<Step>)
    requires Leads(run, steps, s0, s) && InPhase(s, t, Sending) && s.queue == [] && s.worker.Selecting?
    ensures Leads(run', steps', s0, Taken(s, t)) && GoesOnWell(run, steps, run', steps')
  {
    var s1 := WithPhase(s, t, Waiting).(queue := [t]);
    run', steps' := Then(run, steps, s0, s, Enqueue(t), s1);
    assert Taken(s, t).queue == s1.queue[1..];
    run', steps' := Then(run', steps', s0, s1, Receive, Taken(s, t));
  }

  /** A call of Checkout that has got to its first select. */
  function NewClient(order: CreateOrder): Client {
    Client(order, Sending, Channel([], false), [])
  }

  function Start(clients: map<Ticket, Client>, db: Db): System {
    System(clients, [], [], Selecting, db, [], [], 0, [])
  }

  /** A path on which no committed batch holds a cart twice. */
  ghost predicate LeadsWell(run: seq<System>, steps: seq<Step>, s: System, s': System) {
    Leads(run, steps, s, s') && CommitsWellFormed(run, steps)
  }

  lemma LeadsFromStart(run: seq<System>, steps: seq<Step>, clients: map<Ticket, Client>, db: Db, s': System)
    requires LeadsWell(run, steps, Start(clients, db), s') && db.Consistent()
    requires forall t :: t in clients ==> clients[t] == NewClient(clients[t].order)
    ensures IsRegular(run, steps)
  {
  }

  /** Request t is answered: its goroutine has sent and closed. */
  ghost function AnsweredClient(c: Client, outcome: Outcome): Client {
    var result := ResultFor(outcome, c.order.id);
    c.(channel := Channel([result], true), sent := c.sent + [result])
  }

  ghost function Told(s: System, t: Ticket): System
    requires t in s.clients && s.worker.Delivering?
  {
    s.(worker := Delivering(s.worker.outcome, s.worker.toSend - {t}, {}),
       clients := s.clients[t := AnsweredClient(s.clients[t], s.worker.outcome)])
  }

  lemma Tell(run: seq<System>, steps: seq<Step>, s0: System, s: System, t: Ticket)
    returns (run': seq<System>, steps': seq<Step>)
    requires Leads(run, steps, s0, s) && s.worker.Delivering? && t in s.worker.toSend && s.worker.toClose == {}
    requires t in s.clients && s.clients[t].channel == Channel([], false)
    ensures Leads(run', steps', s0, Told(s, t)) && GoesOnWell(run, steps, run', steps')
  {
    var c, outcome, toSend := s.clients[t], s.worker.outcome, s.worker.toSend - {t};
    var result := ResultFor(outcome, c.order.id);
    var s1 := s.(worker := Delivering(outcome, toSend, {t}), clients := s.clients[t := Sent(c, result)]);
    assert s.worker.toClose + {t} == {t};
    run', steps' := Then(run, steps, s0, s, Send(t), s1);
    assert s1.worker.toClose - {t} == {};
    assert [] + [result] == [result];
    assert Told(s, t).clients ==
      s1.clients[t := s1.clients[t].(channel := s1.clients[t].channel.(closed := true))];
    run', steps' := Then(run', steps', s0, s1, Close(t), Told(s, t));
  }

  /** The goroutines are done. */
  ghost function Finished(s: System): System
    requires s.worker.Delivering?
  {
    if s.worker.outcome.Committed?
    then s.(worker := Selecting, batch := [], processed := s.processed + s.batch, retried := 0)
    else s.(worker := Selecting, retried := |s.batch|)
  }

  /** The state after the transaction, with all answers still to come. */
  ghost function AfterTick(s: System, outcome: Outcome, db': Db): System
    requires forall t :: t in s.batch ==> t in s.clients
  {
    s.(db := db', worker := Delivering(outcome, Members(s.batch), {}),
       committed := if outcome.Committed? then s.committed + [BatchOrders(s.clients, s.batch)] else s.committed)
  }

  /** The first n requests of the batch have been answered. */
  ghost function Delivered(s: System, n: nat): System
    requires s.worker.Delivering? && n <= |s.batch|
  {
    s.(worker := Delivering(s.worker.outcome, Members(s.batch[n..]), {}),
       clients := map t | t in s.clients ::
         if t in s.batch[..n] then AnsweredClient(s.clients[t], s.worker.outcome) else s.clients[t])
  }

  /** Nobody in the batch has been answered yet. */
  ghost predicate AllWaiting(s: System) {
    && NoDuplicates(s.batch)
    && forall t :: t in s.batch ==> t in s.clients && s.clients[t].channel == Channel([], false)
  }

  lemma DeliverNext(s: System, n: nat)
    requires s.worker.Delivering? && AllWaiting(s) && n < |s.batch|
    ensures Told(Delivered(s, n), s.batch[n]) == Delivered(s, n + 1)
    ensures s.batch[n] in Delivered(s, n).worker.toSend
    ensures Delivered(s, n).clients[s.batch[n]] == s.clients[s.batch[n]]
  {
    var t := s.batch[n];
    assert s.batch[n..] == [t] + s.batch[n + 1..] && s.batch[..n + 1] == s.batch[..n] + [t];
    assert t !in s.batch[n + 1..] && t !in s.batch[..n];
    assert Members(s.batch[n..]) - {t} == Members(s.batch[n + 1..]);
    assert Told(Delivered(s, n), t).clients == Delivered(s, n + 1).clients;
  }

  /** One request after the other, in batch order. */
  lemma {:induction false} DeliverAll(run: seq<System>, steps: seq<Step>, s0: System, s: System, n: nat)
    returns (run': seq<System>, steps': seq<Step>)
    requires Leads(run, steps, s0, s) && s.worker.Delivering? && AllWaiting(s) && n <= |s.batch|
    requires s.worker.toSend == Members(s.batch) && s.worker.toClose == {}
    ensures Leads(run', steps', s0, Delivered(s, n)) && GoesOnWell(run, steps, run', steps')
  {
    if n == 0 {
      assert s.batch[0..] == s.batch && Delivered(s, 0).clients == s.clients;
      run', steps' := run, steps;
    } else {
      run', steps' := DeliverAll(run, steps, s0, s, n - 1);
      DeliverNext(s, n - 1);
      run', steps' := Tell(run', steps', s0, Delivered(s, n - 1), s.batch[n - 1]);
    }
  }

  /** What a tick of the worker leaves when it answers its batch in order. */
  ghost function SequentialTick(s: System, outcome: Outcome, db': Db): System
    requires forall t :: t in s.batch ==> t in s.clients
  {
    Finished(Delivered(AfterTick(s, outcome, db'), |s.batch|))
  }

  lemma TickIsNext(s: System, orders: seq<CreateOrder>, faults: set<Call>, outcome: Outcome, db': Db)
    requires s.worker.Selecting? && s.batch != [] && forall t :: t in s.batch ==> t in s.clients
    requires orders == BatchOrders(s.clients, s.batch)
    requires BatchStep(s.db, orders, faults, outcome, db') && !outcome.Panicked?
    ensures NextBy(s, Tick(faults, outcome), AfterTick(s, outcome, db'))
  {
    assert TickStep(s, faults, outcome, AfterTick(s, outcome, db'));
  }

  /** Every caller of the batch finds its result in its closed channel; the batch is cleared exactly after a commit. */
  ghost predicate TickEffect(s: System, outcome: Outcome, db': Db, s': System)
    requires forall t :: t in s.batch ==> t in s.clients
  {
    && s'.worker.Selecting? && s'.db == db' && s'.queue == s.queue && s'.clients.Keys == s.clients.Keys
    && s'.received == s.received
    && s'.committed == (if outcome.Committed? then s.committed + [BatchOrders(s.clients, s.batch)] else s.committed)
    && (forall t :: t in s.clients ==>
         s'.clients[t] == if t in s.batch then AnsweredClient(s.clients[t], outcome) else s.clients[t])
    && (if outcome.Committed? then s'.batch == [] && s'.processed == s.processed + s.batch && s'.retried == 0
        else s'.batch == s.batch && s'.processed == s.processed && s'.retried == |s.batch|)
  }

  lemma SequentialEffect(s: System, outcome: Outcome, db': Db)
    requires forall t :: t in s.batch ==> t in s.clients
    ensures TickEffect(s, outcome, db', SequentialTick(s, outcome, db'))
  {
    assert s.batch[..|s.batch|] == s.batch;
  }

  /** The effect that Listener.OrderWorker.Tick promises is reached by a path of the protocol. */
  lemma SequentialTickIsAPath(run0: seq<System>, steps0: seq<Step>, s0: System, s: System, orders: seq<CreateOrder>,
      faults: set<Call>, outcome: Outcome, db': Db)
    returns (run: seq<System>, steps: seq<Step>, s': System)
    requires Leads(run0, steps0, s0, s)
    requires s.worker.Selecting? && s.batch != [] && AllWaiting(s)
    requires orders == BatchOrders(s.clients, s.batch)
    requires BatchStep(s.db, orders, faults, outcome, db') && !outcome.Panicked?
    ensures Leads(run, steps, s0, s') && TickEffect(s, outcome, db', s')
    ensures BatchIsWellFormed(s) ==> GoesOnWell(run0, steps0, run, steps)
  {
    var s1 := AfterTick(s, outcome, db');
    TickIsNext(s, orders, faults, outcome, db');
    run, steps := Then(run0, steps0, s0, s, Tick(faults, outcome), s1);
    run, steps := DeliverAndFinish(run, steps, s0, s1);
    s' := SequentialTick(s, outcome, db');
    SequentialEffect(s, outcome, db');
  }

  lemma DeliverAndFinish(run: seq<System>, steps: seq<Step>, s0: System, s: System)
    returns (run': seq<System>, steps': seq<Step>)
    requires Leads(run, steps, s0, s) && s.worker.Delivering? && AllWaiting(s)
    requires s.worker.toSend == Members(s.batch) && s.worker.toClose == {}
    ensures Leads(run', steps', s0, Finished(Delivered(s, |s.batch|))) && GoesOnWell(run, steps, run', steps')
  {
    run', steps' := DeliverAll(run, steps, s0, s, |s.batch|);
    var s1 := Delivered(s, |s.batch|);
    assert s1.worker.toSend == {};
    run', steps' := Then(run', steps', s0, s1, Finish, Finished(s1));
  }
}
