/** Result channels: buffered with capacity one, answered once and then closed. */
module Channels {
  import opened Domain
  import opened Database
  import opened Prepare
  import opened Batch

  datatype Error = ErrOutOfStock | ErrCallFailed(call: Call)

  datatype Result = Result(order: Order, err: Option<Error>)

  /** What receiving from a closed, drained channel yields. */
  const ZERO_RESULT := Result(ZERO_ORDER, None)

  const CAPACITY: nat := 1

  /** The value a finished batch owes to the request with this order id. */
  function ResultFor(outcome: Outcome, orderId: Uuid): Result {
    match outcome
    case Committed(responses) =>
      if orderId in responses then Result(responses[orderId], None) else Result(ZERO_ORDER, Some(ErrOutOfStock))
    case Failed(call) => Result(ZERO_ORDER, Some(ErrCallFailed(call)))
    case _ => ZERO_RESULT
  }

  datatype ChannelState = ChannelState(buffer: seq<Result>, closed: bool, sent: seq<Result>)

  const OPEN := ChannelState([], false, [])

  class ResultChannel {
    var buffer: seq<Result>
    var closed: bool
    ghost var sent: seq<Result>

    constructor ()
      ensures IsOpen()
    {
      buffer, closed, sent := [], false, [];
    }

    ghost function State(): ChannelState
      reads this
    {
      ChannelState(buffer, closed, sent)
    }

    /** Nothing sent yet, so nothing can block or panic. */
    ghost predicate IsOpen()
      reads this
    {
      !closed && buffer == [] && sent == []
    }

    /** Go panics on a closed channel and blocks on a full one. */
    method Send(result: Result)
      requires !closed && |buffer| < CAPACITY
      modifies this
      ensures buffer == old(buffer) + [result] && sent == old(sent) + [result]
      ensures closed == old(closed)
    {
      buffer := buffer + [result];
      sent := sent + [result];
    }

    method Close()
      requires !closed
      modifies this`closed
      ensures closed
    {
      closed := true;
    }
  }

  /** A queued request: the order and where to answer it. */
  datatype Request = Request(order: CreateOrder, resultChannel: ResultChannel)

  ghost predicate Separate(requests: seq<Request>) {
    forall i, j :: 0 <= i < j < |requests| ==> requests[i].resultChannel != requests[j].resultChannel
  }

  ghost function States(requests: seq<Request>): (states: seq<ChannelState>)
    reads set r | r in requests :: r.resultChannel
    ensures |states| == |requests|
    ensures forall i :: 0 <= i < |requests| ==> states[i] == requests[i].resultChannel.State()
  {
    seq(|requests|, i requires 0 <= i < |requests| reads set r | r in requests :: r.resultChannel =>
      requests[i].resultChannel.State())
  }

  lemma StatesConcat(a: seq<Request>, b: seq<Request>)
    ensures States(a + b) == States(a) + States(b)
  {
  }

  twostate lemma StatesStay(requests: seq<Request>)
    requires forall r :: r in requests ==> unchanged(r.resultChannel)
    ensures States(requests) == old(States(requests))
  {
  }

  /** Nobody has sent on the channel yet, or it was answered and closed in an earlier attempt. */
  ghost predicate AllSettled(states: seq<ChannelState>) {
    forall i :: 0 <= i < |states| ==> states[i] == OPEN || states[i].closed
  }

  /** A channel on which this one value was sent, which waits in the buffer; and then it was closed. */
  ghost function Holding(result: Result): ChannelState {
    ChannelState([result], true, [result])
  }

  /** All were told that this call failed, and nothing else. */
  ghost predicate AllToldError(states: seq<ChannelState>, call: Call) {
    forall i :: 0 <= i < |states| ==> states[i] == Holding(Result(ZERO_ORDER, Some(ErrCallFailed(call))))
  }

  /** Each was handed the response for its order as it is, or told that it is out of stock. */
  ghost predicate AllHanded(states: seq<ChannelState>, orders: seq<CreateOrder>, responses: map<Uuid, Order>)
    requires |states| <= |orders|
  {
    forall i :: 0 <= i < |states| ==>
      states[i] == Holding(
        if orders[i].id in responses then Result(responses[orders[i].id], None)
        else Result(ZERO_ORDER, Some(ErrOutOfStock)))
  }

  /** The callers know what became of their batch. */
  ghost predicate Informed(states: seq<ChannelState>, orders: seq<CreateOrder>, outcome: Outcome)
    requires |states| <= |orders|
  {
    match outcome
    case Failed(call) => AllToldError(states, call)
    case Committed(responses) => AllHanded(states, orders, responses)
    case _ => true
  }

  lemma InformedIsAnswered(states: seq<ChannelState>, orders: seq<CreateOrder>, outcome: Outcome)
    requires |states| <= |orders| && Informed(states, orders, outcome) && (outcome.Failed? || outcome.Committed?)
    ensures forall i :: 0 <= i < |states| ==> states[i] == Holding(ResultFor(outcome, orders[i].id))
  {
  }

  /** How far answering gets: the first `answered` channels were open before, and the next one, if any, was not. */
  ghost predicate StopsAtClosed(before: seq<ChannelState>, after: seq<ChannelState>, answered: nat) {
    && |before| == |after| && answered <= |after|
    && (forall i :: 0 <= i < answered ==> before[i] == OPEN)
    && (forall i :: answered <= i < |after| ==> after[i] == before[i])
    && (answered < |before| ==> before[answered].closed)
  }

  /** What the callers have learnt of an outcome, up to the first channel that was closed already. */
  ghost predicate CallersTold(before: seq<ChannelState>, after: seq<ChannelState>, orders: seq<CreateOrder>,
      outcome: Outcome, answered: nat)
    requires |after| == |orders|
  {
    match outcome
    case NoOrders => after == before
    case Panicked => after == before
    case _ => StopsAtClosed(before, after, answered) && Informed(after[..answered], orders, outcome)
  }

  function OrdersOf(requests: seq<Request>): (orders: seq<CreateOrder>)
    ensures |orders| == |requests|
    ensures forall i :: 0 <= i < |requests| ==> orders[i] == requests[i].order
  {
    if requests == [] then [] else OrdersOf(requests[..|requests| - 1]) + [requests[|requests| - 1].order]
  }

  /** One goroutine: it sends, and closes the channel when it returns. */
  method Answer(channel: ResultChannel, result: Result)
    requires channel.State() == OPEN
    modifies channel
    ensures channel.State() == Holding(result)
  {
    channel.Send(result);
    channel.Close();
  }

  /** returnOrderError: the same error for every request. It gets as far as the first channel that is closed already. */
  method ReturnOrderError(params: seq<Request>, call: Call) returns (answered: nat)
    requires Separate(params) && AllSettled(States(params))
    modifies set r | r in params :: r.resultChannel
    ensures StopsAtClosed(old(States(params)), States(params), answered)
    ensures AllToldError(States(params)[..answered], call)
  {
    ghost var before := States(params);
    for i := 0 to |params|
      invariant forall j :: 0 <= j < i ==>
        before[j] == OPEN
        && params[j].resultChannel.State() == Holding(Result(ZERO_ORDER, Some(ErrCallFailed(call))))
      invariant forall j :: i <= j < |params| ==> params[j].resultChannel.State() == before[j]
    {
      var channel := params[i].resultChannel;
      assert params[i] in params;
      if channel.closed {
        return i;
      }
      Answer(channel, Result(ZERO_ORDER, Some(ErrCallFailed(call))));
    }
    return |params|;
  }

  ghost predicate Handed(request: Request, responses: map<Uuid, Order>)
    reads request.resultChannel
  {
    request.resultChannel.State() == Holding(
      if request.order.id in responses then Result(responses[request.order.id], None)
      else Result(ZERO_ORDER, Some(ErrOutOfStock)))
  }

  /** returnOrderResult: the committed order, or out of stock; as far as the first channel that is closed already. */
  method ReturnOrderResult(params: seq<Request>, responses: map<Uuid, Order>) returns (answered: nat)
    requires Separate(params) && AllSettled(States(params))
    modifies set r | r in params :: r.resultChannel
    ensures StopsAtClosed(old(States(params)), States(params), answered)
    ensures AllHanded(States(params)[..answered], OrdersOf(params), responses)
  {
    ghost var before := States(params);
    for i := 0 to |params|
      invariant forall j :: 0 <= j < i ==> before[j] == OPEN && Handed(params[j], responses)
      invariant forall j :: i <= j < |params| ==> params[j].resultChannel.State() == before[j]
    {
      var channel := params[i].resultChannel;
      assert params[i] in params;
      if channel.closed {
        return i;
      }
      var orderId := params[i].order.id;
      if orderId !in responses {
        Answer(channel, Result(ZERO_ORDER, Some(ErrOutOfStock)));
      } else {
        Answer(channel, Result(responses[orderId], None));
      }
    }
    return |params|;
  }
}
