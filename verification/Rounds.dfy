/** The rounds of the worker's select loop, on values: what each event makes of the batch, the books and the tables. */
module Rounds {
  import opened Database
  import opened Batch
  import opened Channels

  /** What the select statement picks next; a tick comes with the calls the environment lets fail. */
  datatype Event = Done | Ticked(faults: set<Call>) | Received(request: Request)

  /** The requests an event puts on the batch. */
  ghost function Arrival(event: Event): seq<Request> {
    if event.Received? then [event.request] else []
  }

  ghost function Arrivals(events: seq<Event>): seq<Request> {
    if events == [] then [] else Arrivals(events[..|events| - 1]) + Arrival(events[|events| - 1])
  }

  /**
   * What the worker holds between two rounds; `retried` requests of its batch were told of a failure already, and
   * `channels` are those of all requests received: the processed ones, and then the batch.
   */
  datatype Snapshot = Snapshot(batch: seq<Request>, processed: seq<Request>, retried: nat, channels: seq<ChannelState>,
    db: Db, crashed: bool)

  /** Everyone in the batch knows the outcome, and nothing has been said to anyone else. */
  ghost predicate BatchLearns(s: Snapshot, outcome: Outcome, channels: seq<ChannelState>) {
    var n := |s.processed|;
    && |channels| == |s.channels| == n + |s.batch| && channels[..n] == s.channels[..n]
    && Informed(channels[n..], OrdersOf(s.batch), outcome)
  }

  /**
   * What a call leaves. After a success the batch is processed and cleared, after an error it is kept, although it is
   * answered; and answering it once more takes the process down.
   */
  ghost predicate Leaves(s: Snapshot, outcome: Outcome, s': Snapshot) {
    if outcome.Panicked? || s.retried > 0 then s' == s.(db := s'.db, crashed := true)
    else
      && BatchLearns(s, outcome, s'.channels)
      && s' == if outcome.Committed? then Snapshot([], s.processed + s.batch, 0, s'.channels, s'.db, false)
               else s.(retried := |s.batch|, channels := s'.channels, db := s'.db)
  }

  /** A tick: nothing for an empty batch, otherwise one call for all of it. */
  ghost predicate HandlesTick(s: Snapshot, faults: set<Call>, outcome: Outcome, s': Snapshot) {
    match outcome
    case NoOrders => s.batch == [] && s' == s
    case _ =>
      s.batch != [] && BatchStep(s.db, OrdersOf(s.batch), faults, outcome, s'.db) && Leaves(s, outcome, s')
  }

  /** One round of the select loop. */
  ghost predicate Handles(s: Snapshot, event: Event, outcome: Outcome, s': Snapshot) {
    match event
    case Done => outcome.NoOrders? && s' == s
    case Received(request) =>
      outcome.NoOrders? && s' == s.(batch := s.batch + [request], channels := s.channels + [OPEN])
    case Ticked(faults) => HandlesTick(s, faults, outcome, s')
  }

  /** What the loop has done: outcome i, and the worker before and after event i. */
  datatype Log = Log(outcomes: seq<Outcome>, history: seq<Snapshot>) {
    ghost predicate IsFor(events: seq<Event>) {
      |outcomes| <= |events| && |history| == |outcomes| + 1
    }

    ghost function Last(): Snapshot
      requires history != []
    {
      history[|history| - 1]
    }

    function Add(outcome: Outcome, s: Snapshot): Log {
      Log(outcomes + [outcome], history + [s])
    }
  }

  /** The rounds of the loop: event i takes the worker from log.history[i] to log.history[i + 1]. */
  ghost predicate IsHistory(events: seq<Event>, log: Log) {
    && log.IsFor(events)
    && forall i :: 0 <= i < |log.outcomes| ==> IsRound(events, log, i)
  }

  ghost predicate IsRound(events: seq<Event>, log: Log, i: int)
    requires log.IsFor(events) && 0 <= i < |log.outcomes|
  {
    && !events[i].Done? && !log.history[i].crashed
    && Handles(log.history[i], events[i], log.outcomes[i], log.history[i + 1])
  }

  lemma HistoryGrows(events: seq<Event>, log: Log, outcome: Outcome, s': Snapshot)
    requires IsHistory(events, log) && |log.outcomes| < |events|
    requires !events[|log.outcomes|].Done? && !log.history[|log.outcomes|].crashed
    requires Handles(log.history[|log.outcomes|], events[|log.outcomes|], outcome, s')
    ensures IsHistory(events, log.Add(outcome, s'))
  {
    forall i | 0 <= i <= |log.outcomes| ensures IsRound(events, log.Add(outcome, s'), i) {
      if i < |log.outcomes| {
        assert IsRound(events, log, i);
      }
    }
  }

  // ----- what a whole history says -----

  lemma ArrivalsPush(events: seq<Event>, k: nat, i: nat)
    requires k <= i < |events|
    ensures Arrivals(events[k..i + 1]) == Arrivals(events[k..i]) + Arrival(events[i])
  {
    assert events[k..i + 1][..i - k] == events[k..i];
  }

  lemma ArrivalsNext(events: seq<Event>, i: nat)
    requires i < |events|
    ensures Arrivals(events[..i + 1]) == Arrivals(events[..i]) + Arrival(events[i])
  {
    assert events[..i + 1][..i] == events[..i];
  }

  lemma Associates(a: seq<Request>, b: seq<Request>, c: seq<Request>)
    ensures a + (b + c) == (a + b) + c
  {
  }

  lemma {:induction false} ArrivalsSplit(events: seq<Event>, k: nat, i: nat)
    requires k <= i <= |events|
    ensures Arrivals(events[..k]) + Arrivals(events[k..i]) == Arrivals(events[..i])
  {
    assert events[k..k] == [];
    for j := k to i
      invariant Arrivals(events[..k]) + Arrivals(events[k..j]) == Arrivals(events[..j])
    {
      ArrivalsPush(events, k, j);
      ArrivalsNext(events, j);
      Associates(Arrivals(events[..k]), Arrivals(events[k..j]), Arrival(events[j]));
    }
  }

  /** The requests that came with the first `handled` events. */
  ghost predicate Came(events: seq<Event>, handled: nat, received: seq<Request>) {
    && handled <= |events| && received == Arrivals(events[..handled])
    && forall r :: r in received ==> Received(r) in events[..handled]
  }

  lemma NextComes(events: seq<Event>, handled: nat, received: seq<Request>)
    requires Came(events, handled, received) && handled < |events|
    ensures Came(events, handled + 1, received + Arrival(events[handled]))
  {
    ArrivalsNext(events, handled);
    assert events[..handled + 1] == events[..handled] + [events[handled]];
  }

  /** What a round makes of the requests it holds. */
  lemma RoundMoves(s: Snapshot, event: Event, outcome: Outcome, s': Snapshot)
    requires Handles(s, event, outcome, s')
    ensures if outcome.Committed? && !s'.crashed
      then event.Ticked? && s'.batch == [] && s'.processed == s.processed + s.batch
      else s'.processed == s.processed && s'.batch == s.batch + Arrival(event)
  {
  }

  lemma HistoryMoves(events: seq<Event>, log: Log, i: nat)
    requires IsHistory(events, log) && i < |log.outcomes|
    ensures var s, s' := log.history[i], log.history[i + 1];
      if log.outcomes[i].Committed? && !s'.crashed
      then events[i].Ticked? && s'.batch == [] && s'.processed == s.processed + s.batch
      else s'.processed == s.processed && s'.batch == s.batch + Arrival(events[i])
  {
    assert IsRound(events, log, i);
    RoundMoves(log.history[i], events[i], log.outcomes[i], log.history[i + 1]);
  }

  /** The number of events up to and including the last successful tick among the first i. */
  ghost function LastSuccess(log: Log, i: nat): (k: nat)
    requires i <= |log.outcomes| && |log.history| == |log.outcomes| + 1
    ensures k <= i
  {
    if i == 0 then 0
    else if log.outcomes[i - 1].Committed? && !log.history[i].crashed then i
    else LastSuccess(log, i - 1)
  }

  /** The batch is what was received since the last success, and what was processed is all that came before. */
  ghost predicate BooksOfEvents(events: seq<Event>, log: Log, i: nat)
    requires log.IsFor(events) && i <= |log.outcomes|
  {
    var k := LastSuccess(log, i);
    log.history[i].processed == Arrivals(events[..k]) && log.history[i].batch == Arrivals(events[k..i])
  }

  lemma RoundKeepsBooks(events: seq<Event>, log: Log, i: nat)
    requires log.IsFor(events) && i < |log.outcomes|
    requires var s, s' := log.history[i], log.history[i + 1];
      if log.outcomes[i].Committed? && !s'.crashed
      then events[i].Ticked? && s'.batch == [] && s'.processed == s.processed + s.batch
      else s'.processed == s.processed && s'.batch == s.batch + Arrival(events[i])
    requires BooksOfEvents(events, log, i)
    ensures BooksOfEvents(events, log, i + 1)
  {
    var k := LastSuccess(log, i);
    ArrivalsPush(events, k, i);
    ArrivalsSplit(events, k, i);
    ArrivalsNext(events, i);
    assert events[i + 1..i + 1] == [];
  }

  lemma HistoryStepKeepsBooks(events: seq<Event>, log: Log, i: nat)
    requires IsHistory(events, log) && i < |log.outcomes| && BooksOfEvents(events, log, i)
    ensures BooksOfEvents(events, log, i + 1)
  {
    HistoryMoves(events, log, i);
    RoundKeepsBooks(events, log, i);
  }

  lemma {:induction false} HistoryKeepsBooks(events: seq<Event>, log: Log, i: nat)
    requires IsHistory(events, log) && i <= |log.outcomes|
    requires log.history[0].batch == log.history[0].processed == []
    ensures BooksOfEvents(events, log, i)
  {
    for k := 0 to i
      invariant BooksOfEvents(events, log, k)
    {
      HistoryStepKeepsBooks(events, log, k);
    }
  }

  /**
   * Every tick takes up exactly the requests received since the last success: for none of them it does nothing,
   * otherwise one call runs for all of them.
   */
  lemma EveryTickRunsItsBatch(events: seq<Event>, log: Log, i: nat)
    requires IsHistory(events, log) && i < |log.outcomes| && events[i].Ticked?
    requires log.history[0].batch == log.history[0].processed == []
    ensures var waiting := Arrivals(events[LastSuccess(log, i)..i]);
      if waiting == [] then log.outcomes[i].NoOrders? && log.history[i + 1] == log.history[i]
      else BatchStep(log.history[i].db, OrdersOf(waiting), events[i].faults, log.outcomes[i], log.history[i + 1].db)
  {
    HistoryKeepsBooks(events, log, i);
    assert IsRound(events, log, i);
  }

  /** After a successful tick no request is left over. */
  lemma SuccessProcessesAll(events: seq<Event>, log: Log, i: nat)
    requires IsHistory(events, log) && i < |log.outcomes|
    requires log.history[0].batch == log.history[0].processed == []
    requires log.outcomes[i].Committed? && !log.history[i + 1].crashed
    ensures events[i].Ticked? && log.history[i + 1].batch == []
    ensures log.history[i + 1].processed == Arrivals(events[..i + 1])
  {
    HistoryMoves(events, log, i);
    HistoryKeepsBooks(events, log, i + 1);
    assert LastSuccess(log, i + 1) == i + 1;
  }

  // ----- what was said stays said -----

  /** One channel for each request held, of which the processed and the retried ones are answered. */
  ghost predicate IsOrderly(s: Snapshot) {
    |s.channels| == |s.processed| + |s.batch| && s.retried <= |s.batch|
  }

  ghost function AnsweredCount(s: Snapshot): nat {
    |s.processed| + s.retried
  }

  /** No round touches a channel that is answered. */
  ghost predicate KeepsAnswers(s: Snapshot, s': Snapshot) {
    && IsOrderly(s) && IsOrderly(s') && AnsweredCount(s) <= AnsweredCount(s')
    && s'.channels[..AnsweredCount(s)] == s.channels[..AnsweredCount(s)]
  }

  lemma RoundKeepsAnswers(s: Snapshot, event: Event, outcome: Outcome, s': Snapshot)
    requires IsOrderly(s) && Handles(s, event, outcome, s')
    ensures KeepsAnswers(s, s')
  {
    match event {
      case Done =>
      case Received(request) =>
      case Ticked(faults) => TickKeepsAnswers(s, faults, outcome, s');
    }
  }

  lemma TickKeepsAnswers(s: Snapshot, faults: set<Call>, outcome: Outcome, s': Snapshot)
    requires IsOrderly(s) && HandlesTick(s, faults, outcome, s')
    ensures KeepsAnswers(s, s')
  {
    if !outcome.NoOrders? {
      LeavesKeepsAnswers(s, outcome, s');
    }
  }

  lemma LeavesKeepsAnswers(s: Snapshot, outcome: Outcome, s': Snapshot)
    requires IsOrderly(s) && Leaves(s, outcome, s')
    ensures KeepsAnswers(s, s')
  {
  }

  lemma AnswersCompose(s: Snapshot, s1: Snapshot, s': Snapshot)
    requires KeepsAnswers(s, s1) && KeepsAnswers(s1, s')
    ensures KeepsAnswers(s, s')
  {
    var n := AnsweredCount(s);
    assert s1.channels[..AnsweredCount(s1)][..n] == s1.channels[..n];
    assert s'.channels[..AnsweredCount(s1)][..n] == s'.channels[..n];
  }

  lemma HistoryStepKeepsAnswers(events: seq<Event>, log: Log, i: nat)
    requires IsHistory(events, log) && i < |log.outcomes| && IsOrderly(log.history[i])
    ensures KeepsAnswers(log.history[i], log.history[i + 1])
  {
    assert IsRound(events, log, i);
    RoundKeepsAnswers(log.history[i], events[i], log.outcomes[i], log.history[i + 1]);
  }

  lemma {:induction false} HistoryKeepsAnswers(events: seq<Event>, log: Log, i: nat, j: nat)
    requires IsHistory(events, log) && i <= j <= |log.outcomes| && IsOrderly(log.history[i])
    ensures KeepsAnswers(log.history[i], log.history[j])
  {
    for k := i to j
      invariant KeepsAnswers(log.history[i], log.history[k])
    {
      HistoryStepKeepsAnswers(events, log, k);
      AnswersCompose(log.history[i], log.history[k], log.history[k + 1]);
    }
  }

  lemma TickIsLearnt(s: Snapshot, faults: set<Call>, outcome: Outcome, s': Snapshot)
    requires IsOrderly(s) && HandlesTick(s, faults, outcome, s') && s.batch != [] && !s'.crashed && !s.crashed
    ensures BatchLearns(s, outcome, s'.channels) && AnsweredCount(s') == |s.processed| + |s.batch|
  {
  }

  lemma HistoryTickIsLearnt(events: seq<Event>, log: Log, i: nat)
    requires IsHistory(events, log) && i < |log.outcomes| && IsOrderly(log.history[i])
    requires events[i].Ticked? && log.history[i].batch != [] && !log.history[i + 1].crashed
    ensures BatchLearns(log.history[i], log.outcomes[i], log.history[i + 1].channels)
    ensures AnsweredCount(log.history[i + 1]) == |log.history[i].processed| + |log.history[i].batch|
  {
    assert IsRound(events, log, i);
    TickIsLearnt(log.history[i], events[i].faults, log.outcomes[i], log.history[i + 1]);
  }

  lemma SlicesAgree(a: seq<ChannelState>, b: seq<ChannelState>, m: nat, n: nat)
    requires m <= n <= |a| && n <= |b| && a[..n] == b[..n]
    ensures a[m..n] == b[m..n]
  {
    assert a[..n][m..] == a[m..n] && b[..n][m..] == b[m..n];
  }

  lemma LearntStays(s: Snapshot, outcome: Outcome, s1: Snapshot, s': Snapshot)
    requires BatchLearns(s, outcome, s1.channels) && AnsweredCount(s1) == |s.processed| + |s.batch|
    requires KeepsAnswers(s1, s')
    ensures |s.processed| + |s.batch| <= |s'.channels|
    ensures Informed(s'.channels[|s.processed|..|s.processed| + |s.batch|], OrdersOf(s.batch), outcome)
  {
    var m, n := |s.processed|, |s.processed| + |s.batch|;
    SlicesAgree(s1.channels, s'.channels, m, n);
    assert s1.channels[m..] == s1.channels[m..n];
  }

  /** Whatever comes later, the callers of a batch that was run still hold what that call has told them. */
  lemma BatchStaysInformed(events: seq<Event>, log: Log, i: nat, j: nat)
    requires IsHistory(events, log) && IsOrderly(log.history[0]) && i < j <= |log.outcomes|
    requires events[i].Ticked? && log.history[i].batch != [] && !log.history[i + 1].crashed
    ensures var s, channels := log.history[i], log.history[j].channels;
      && |s.processed| + |s.batch| <= |channels|
      && Informed(channels[|s.processed|..|s.processed| + |s.batch|], OrdersOf(s.batch), log.outcomes[i])
  {
    HistoryKeepsAnswers(events, log, 0, i);
    HistoryTickIsLearnt(events, log, i);
    HistoryStepKeepsAnswers(events, log, i);
    HistoryKeepsAnswers(events, log, i + 1, j);
    LearntStays(log.history[i], log.outcomes[i], log.history[i + 1], log.history[j]);
  }
}
