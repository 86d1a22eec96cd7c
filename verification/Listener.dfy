/** OrderWorker: the select loop that owns the batch, run on a given sequence of select outcomes. */
module Listener {
  import opened Domain
  import opened Database
  import opened Batch
  import opened Channels
  import opened Service
  import opened Rounds

  /** A request nobody has answered, on a channel of its own. */
  ghost predicate IsNew(request: Request, received: seq<Request>)
    reads request.resultChannel
  {
    request.resultChannel.IsOpen() && forall r :: r in received ==> r.resultChannel != request.resultChannel
  }

  /** Every call of Checkout makes a channel of its own. */
  ghost predicate OwnChannels(events: seq<Event>) {
    forall i, j :: 0 <= i < j < |events| && events[i].Received? && events[j].Received? ==>
      events[i].request.resultChannel != events[j].request.resultChannel
  }

  /** A request still to come has a channel that no request received has. */
  lemma LaterIsApart(events: seq<Event>, handled: nat, received: seq<Request>)
    requires OwnChannels(events) && Came(events, handled, received)
    ensures forall i, r :: handled <= i < |events| && events[i].Received? && r in received ==>
      r.resultChannel != events[i].request.resultChannel
  {
    forall i, r | handled <= i < |events| && events[i].Received? && r in received
      ensures r.resultChannel != events[i].request.resultChannel
    {
      var j :| 0 <= j < handled && events[j] == Received(r);
    }
  }

  lemma SeparateParts(a: seq<Request>, b: seq<Request>)
    requires Separate(a + b)
    ensures Separate(b)
    ensures forall r, q :: r in a && q in b ==> r.resultChannel != q.resultChannel
  {
    forall i, j | 0 <= i < j < |b| ensures b[i].resultChannel != b[j].resultChannel {
      assert (a + b)[|a| + i] == b[i] && (a + b)[|a| + j] == b[j];
    }
    forall r, q | r in a && q in b ensures r.resultChannel != q.resultChannel {
      var i :| 0 <= i < |a| && a[i] == r;
      var j :| 0 <= j < |b| && b[j] == q;
      assert (a + b)[i] == r && (a + b)[|a| + j] == q;
    }
  }

  /** The first n channels have been answered, once, and closed; the others are untouched. */
  ghost predicate Settled(states: seq<ChannelState>, n: nat) {
    && n <= |states|
    && (forall i :: 0 <= i < n ==> states[i].closed && |states[i].sent| == 1)
    && (forall i :: n <= i < |states| ==> states[i] == OPEN)
  }

  lemma SettledPart(a: seq<ChannelState>, b: seq<ChannelState>, n: nat)
    requires Settled(a + b, |a| + n)
    ensures Settled(b, n)
  {
    forall i | 0 <= i < |b| ensures b[i] == (a + b)[|a| + i] {}
  }

  lemma SettledPush(requests: seq<Request>, request: Request, n: nat)
    requires Settled(States(requests), n) && request.resultChannel.IsOpen()
    ensures Settled(States(requests + [request]), n)
    ensures States(requests + [request]) == States(requests) + [OPEN]
  {
    StatesConcat(requests, [request]);
    assert States(requests + [request]) == States(requests) + [OPEN];
  }

  /** An attempt took the process down before it could tell anyone, or everyone of the batch knows of it. */
  ghost predicate Attempted(before: seq<ChannelState>, after: seq<ChannelState>, orders: seq<CreateOrder>,
      outcome: Outcome, crash: bool)
    requires |after| == |orders|
  {
    if crash then after == before else Informed(after, orders, outcome)
  }

  /** Before a failure every caller can be told; afterwards the first one of the batch cannot. */
  lemma CallersAreTold(before: seq<ChannelState>, after: seq<ChannelState>, orders: seq<CreateOrder>, retried: nat,
      outcome: Outcome, answered: nat)
    requires |before| == |after| == |orders| > 0 && Settled(before, retried) && !outcome.NoOrders?
    requires CallersTold(before, after, orders, outcome, answered)
    ensures outcome.Panicked? || (answered < |after| <==> retried > 0)
    ensures Attempted(before, after, orders, outcome, outcome.Panicked? || retried > 0)
  {
    if !outcome.Panicked? {
      if retried == 0 {
        assert after[..answered] == after;
      } else {
        assert before[0].closed && before[0] != OPEN;
        assert after == before;
      }
    }
  }

  /** The channels of all requests received, after an attempt on the batch. */
  lemma AttemptSettles(s: Snapshot, done: seq<ChannelState>, before: seq<ChannelState>, after: seq<ChannelState>,
      outcome: Outcome, crash: bool)
    requires s.channels == done + before && |done| == |s.processed| && |before| == |after| == |s.batch|
    requires Settled(done + before, |done| + s.retried) && Attempted(before, after, OrdersOf(s.batch), outcome, crash)
    requires crash || (s.retried == 0 && (outcome.Failed? || outcome.Committed?))
    ensures Settled(done + after, if crash then |done| + s.retried else |done| + |after|)
    ensures if crash then done + after == s.channels else BatchLearns(s, outcome, done + after)
  {
    if !crash {
      InformedIsAnswered(after, OrdersOf(s.batch), outcome);
      SettledPart(done, before, s.retried);
      assert (done + after)[..|done|] == done && (done + after)[|done|..] == after && (done + before)[..|done|] == done;
      forall i | 0 <= i < |done| ensures (done + after)[i] == (done + before)[i] {}
    }
  }

  /** The books after an attempt: only a success clears the batch. */
  ghost function AfterAttempt(s: Snapshot, outcome: Outcome, crash: bool): Snapshot {
    if crash then s.(crashed := true)
    else if outcome.Committed? then s.(batch := [], processed := s.processed + s.batch, retried := 0)
    else s.(retried := |s.batch|)
  }

  lemma AttemptLeaves(s: Snapshot, outcome: Outcome, crash: bool, channels: seq<ChannelState>, db': Db)
    requires crash <==> outcome.Panicked? || s.retried > 0
    requires if crash then channels == s.channels else BatchLearns(s, outcome, channels)
    requires !s.crashed
    ensures Leaves(s, outcome, AfterAttempt(s.(channels := channels, db := db'), outcome, crash))
  {
  }

  class OrderWorker {
    const svc: OrderService
    var batch: seq<Request>
    ghost var received: seq<Request>
    ghost var processed: seq<Request>
    ghost var retried: nat
    ghost var crashed: bool

    constructor (svc: OrderService)
      ensures this.svc == svc && batch == received == processed == [] && retried == 0 && !crashed && Valid()
    {
      this.svc := svc;
      batch, received, processed := [], [], [];
      retried, crashed := 0, false;
    }

    ghost function View(): Snapshot
      reads this, svc, set r | r in received :: r.resultChannel
    {
      Snapshot(batch, processed, retried, States(received), svc.db, crashed)
    }

    /** The books: processed and retried requests are answered, the rest is untouched, and nothing else was received. */
    ghost predicate Valid()
      reads this, set r | r in received :: r.resultChannel
    {
      && received == processed + batch && retried <= |batch|
      && Separate(received) && Settled(States(received), |processed| + retried)
    }

    method Receive(request: Request)
      requires Valid() && IsNew(request, received)
      modifies this`batch, this`received
      ensures Valid() && received == old(received) + [request]
      ensures View() == old(View()).(batch := old(batch) + [request], channels := old(States(received)) + [OPEN])
    {
      SettledPush(received, request, |processed| + retried);
      batch := batch + [request];
      received := received + [request];
      assert received == processed + batch;
    }

    /** Between two rounds the channels of the batch are those after the processed ones. */
    lemma BatchIsSettled()
      requires Valid()
      ensures Separate(batch) && States(received) == States(processed) + States(batch)
      ensures Settled(States(batch), retried) && AllSettled(States(batch))
      ensures forall r, q :: r in processed && q in batch ==> r.resultChannel != q.resultChannel
    {
      SeparateParts(processed, batch);
      StatesConcat(processed, batch);
      SettledPart(States(processed), States(batch), retried);
    }

    method CallService(faults: set<Call>) returns (outcome: Outcome, crash: bool)
      requires batch != [] && Separate(batch) && Settled(States(batch), retried)
      modifies svc, set r | r in batch :: r.resultChannel
      ensures BatchStep(old(svc.db), OrdersOf(batch), faults, outcome, svc.db)
      ensures !outcome.NoOrders? && (crash <==> outcome.Panicked? || retried > 0)
      ensures Attempted(old(States(batch)), States(batch), OrdersOf(batch), outcome, crash)
    {
      ghost var before := States(batch);
      var answered: nat;
      outcome, answered := svc.BatchCreateOrder(batch, faults);
      CallersAreTold(before, States(batch), OrdersOf(batch), retried, outcome, answered);
      crash := outcome.Panicked? || answered < |batch|;
    }

    method Attempt(faults: set<Call>) returns (outcome: Outcome, crash: bool)
      requires Valid() && batch != []
      modifies svc, set r | r in batch :: r.resultChannel
      ensures BatchStep(old(svc.db), OrdersOf(batch), faults, outcome, svc.db)
      ensures !outcome.NoOrders? && (crash <==> outcome.Panicked? || retried > 0)
      ensures Settled(States(received), if crash then |processed| + retried else |received|)
      ensures if crash then States(received) == old(States(received))
        else BatchLearns(old(View()), outcome, States(received))
    {
      ghost var s := View();
      BatchIsSettled();
      ghost var done, before := States(processed), States(batch);
      label Before:
      outcome, crash := CallService(faults);
      StatesStay@Before(processed);
      StatesConcat(processed, batch);
      assert s.channels == done + before && States(received) == done + States(batch);
      AttemptSettles(s, done, before, States(batch), outcome, crash);
    }

    method Settle(outcome: Outcome, crash: bool)
      requires received == processed + batch && Separate(received) && retried <= |batch| && !crashed
      requires Settled(States(received), if crash then |processed| + retried else |received|)
      requires crash || outcome.Failed? || outcome.Committed?
      modifies this`batch, this`processed, this`retried, this`crashed
      ensures Valid() && received == old(received) && crash == crashed
      ensures View() == AfterAttempt(old(View()), outcome, crash)
    {
      crashed := crash;
      if !crash {
        retried := |batch|;
        if outcome.Committed? {
          processed := processed + batch;
          retried := 0;
          batch := [];
          assert received == processed + batch;
        }
      }
    }

    /**
     * A tick. After a success the whole batch is processed, after an error it is kept, although answered; the next
     * call then takes the process down, whatever it has done to the database.
     */
    method Tick(faults: set<Call>) returns (outcome: Outcome, crash: bool)
      requires Valid() && !crashed
      modifies this`batch, this`processed, this`retried, this`crashed, svc, set r | r in batch :: r.resultChannel
      ensures Valid() && crash == crashed && received == old(received)
      ensures HandlesTick(old(View()), faults, outcome, View())
    {
      if |batch| == 0 {
        return NoOrders, false;
      }
      ghost var before := View();
      outcome, crash := Attempt(faults);
      assert View() == before.(channels := States(received), db := svc.db);
      AttemptLeaves(before, outcome, crash, States(received), svc.db);
      Settle(outcome, crash);
    }

    /** One round of the select loop. */
    method Round(event: Event) returns (outcome: Outcome, crash: bool)
      requires Valid() && !crashed && (event.Received? ==> IsNew(event.request, received))
      modifies this`batch, this`received, this`processed, this`retried, this`crashed
      modifies svc, set r | r in batch :: r.resultChannel
      ensures Valid() && crash == crashed && received == old(received) + Arrival(event)
      ensures Handles(old(View()), event, outcome, View())
    {
      outcome, crash := NoOrders, false;
      match event {
        case Done =>
        case Received(request) => Receive(request);
        case Ticked(faults) => outcome, crash := Tick(faults);
      }
    }

    /** Between rounds: the books are right, and the requests still to come are new. */
    ghost predicate Running(events: seq<Event>, handled: nat)
      reads this, set r | r in received :: r.resultChannel
      reads set e | e in events && e.Received? :: e.request.resultChannel
    {
      && Came(events, handled, received) && Valid()
      && (forall i :: handled <= i < |events| && events[i].Received? ==> events[i].request.resultChannel.IsOpen())
    }

    method NextRound(events: seq<Event>, handled: nat) returns (outcome: Outcome, crash: bool)
      requires OwnChannels(events) && Running(events, handled) && handled < |events| && !crashed
      modifies this`batch, this`received, this`processed, this`retried, this`crashed, svc
      modifies set e | e in events && e.Received? :: e.request.resultChannel
      ensures Running(events, handled + 1) && crash == crashed
      ensures Handles(old(View()), events[handled], outcome, View())
    {
      NextComes(events, handled, received);
      LaterIsApart(events, handled, received);
      assert forall r :: r in batch ==> r in received && Received(r) in events;
      outcome, crash := Round(events[handled]);
    }

    /** The log of the first `handled` events. */
    ghost predicate Logged(events: seq<Event>, handled: nat, log: Log)
      reads this, svc, set r | r in received :: r.resultChannel
      reads set e | e in events && e.Received? :: e.request.resultChannel
    {
      && Running(events, handled) && log.IsFor(events) && |log.outcomes| == handled && log.Last() == View()
      && IsHistory(events, log)
    }

    method LoggedRound(events: seq<Event>, handled: nat, ghost log: Log) returns (crash: bool, ghost log': Log)
      requires OwnChannels(events) && Logged(events, handled, log) && !crashed
      requires handled < |events| && !events[handled].Done?
      modifies this`batch, this`received, this`processed, this`retried, this`crashed, svc
      modifies set e | e in events && e.Received? :: e.request.resultChannel
      ensures Logged(events, handled + 1, log') && log'.history[0] == log.history[0]
      ensures crash == crashed && (crash ==> events[handled].Ticked?)
    {
      var outcome;
      outcome, crash := NextRound(events, handled);
      HistoryGrows(events, log, outcome, View());
      log' := log.Add(outcome, View());
    }

    /**
     * The loop, up to a shutdown, the end of the process, or the last event given. Each event was handled as the
     * select statement says, in order, and the books and the channels are those that follow from it.
     */
    method StartWorker(events: seq<Event>) returns (handled: nat, crash: bool, ghost log: Log)
      requires OwnChannels(events) && Running(events, 0) && !crashed
      modifies this`batch, this`received, this`processed, this`retried, this`crashed, svc
      modifies set e | e in events && e.Received? :: e.request.resultChannel
      ensures log.IsFor(events) && |log.outcomes| == handled
      ensures log.history[0] == old(View()) && log.Last() == View() && crash == crashed
      ensures if crash then handled > 0 && events[handled - 1].Ticked?
        else handled == |events| || events[handled].Done?
      ensures Valid() && Came(events, handled, received)
      ensures IsHistory(events, log)
    {
      handled, crash, log := 0, false, Log([], [View()]);
      while handled < |events| && !events[handled].Done? && !crash
        invariant Logged(events, handled, log) && log.history[0] == old(View())
        invariant crash == crashed && (crash ==> handled > 0 && events[handled - 1].Ticked?)
        decreases |events| - handled
      {
        crash, log := LoggedRound(events, handled, log);
        handled := handled + 1;
      }
    }
  }
}
