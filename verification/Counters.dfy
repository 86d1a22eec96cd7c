/**
 * The repository's README (line 113) remarks that a count of items per order would do instead of the
 * shrinking slice. It would: the counting version panics, inserts and answers exactly as the code does.
 */
module Counters {
  import opened Domain
  import opened Items
  import opened Trim
  import opened Database
  import opened Prepare

  type Counts = map<Uuid, nat>

  function CountsOf(mapOrder: OrderMap): Counts {
    map o | o in mapOrder :: |mapOrder[o].orderItems|
  }

  // ----- the pops -----

  /** The counting version of one pop. */
  ghost function PopCount(m: Counts, orderId: Uuid): Popping<Counts> {
    if orderId !in m then Running(m)
    else if m[orderId] == 0 then Panic else Running(m[orderId := m[orderId] - 1])
  }

  ghost function Abstract(state: Popping<OrderMap>): Popping<Counts> {
    match state
    case Panic => Panic
    case Running(m) => Running(CountsOf(m))
  }

  ghost function PopSlices(m: OrderMap, popped: seq<Uuid>): Popping<OrderMap> {
    if popped == [] then Running(m)
    else match PopSlices(m, popped[..|popped| - 1])
      case Panic => Panic
      case Running(m') => PopSlice(m', popped[|popped| - 1])
  }

  ghost function PopCounts(m: Counts, popped: seq<Uuid>): Popping<Counts> {
    if popped == [] then Running(m)
    else match PopCounts(m, popped[..|popped| - 1])
      case Panic => Panic
      case Running(m') => PopCount(m', popped[|popped| - 1])
  }

  lemma PopsAgree(m: OrderMap, orderId: Uuid)
    ensures Abstract(PopSlice(m, orderId)) == PopCount(CountsOf(m), orderId)
  {
    if orderId in m {
      var s := m[orderId].orderItems;
      if |s| > 0 {
        assert CountsOf(m[orderId := m[orderId].(orderItems := s[..|s| - 1])]) == CountsOf(m)[orderId := |s| - 1];
      }
    }
  }

  /** Step for step, panics included, the counting version simulates the code. */
  lemma {:induction false} CountersRefineSlices(m: OrderMap, popped: seq<Uuid>)
    ensures Abstract(PopSlices(m, popped)) == PopCounts(CountsOf(m), popped)
  {
    if popped != [] {
      var init := popped[..|popped| - 1];
      CountersRefineSlices(m, init);
      match PopSlices(m, init) {
        case Panic =>
        case Running(m') => PopsAgree(m', popped[|popped| - 1]);
      }
    }
  }

  ghost function OrdersOfItems(popped: seq<OrderItem>): seq<Uuid> {
    if popped == [] then [] else OrdersOfItems(popped[..|popped| - 1]) + [popped[|popped| - 1].orderId]
  }

  /** One more pop, on the allocator's own account of what the slices have lost. */
  lemma PopAccount(before: OrderMap, now: OrderMap, popped: seq<OrderItem>, x: OrderItem)
    requires ShortenedBy(before, now, popped)
    ensures match PopSlice(now, x.orderId)
      case Panic => Overdraws(popped + [x], before)
      case Running(m) => ShortenedBy(before, m, popped + [x]) && !Overdraws(popped + [x], before)
  {
    forall o | o in before ensures Count(popped + [x], o) == Count(popped, o) + if x.orderId == o then 1 else 0 {
      SelectPush(popped, x, OfOrder(o));
      assert ShortenedAt(before[o], now[o], Count(popped, o));
    }
    if x.orderId in now && |now[x.orderId].orderItems| == 0 {
      assert ShortenedAt(before[x.orderId], now[x.orderId], Count(popped, x.orderId));
      assert Count(popped + [x], x.orderId) > |before[x.orderId].orderItems|;
    }
  }

  lemma OverdrawnStays(popped: seq<OrderItem>, x: OrderItem, mapOrder: OrderMap)
    requires Overdraws(popped, mapOrder)
    ensures Overdraws(popped + [x], mapOrder)
  {
    var o :| o in mapOrder && Count(popped, o) > |mapOrder[o].orderItems|;
    SelectPush(popped, x, OfOrder(o));
  }

  /**
   * Popping item by item, in any order, comes to what the allocator's contract says: it panics
   * exactly when some order is overdrawn, and otherwise every slice is a prefix of the original.
   */
  lemma {:induction false} PopsAccountForSlices(before: OrderMap, popped: seq<OrderItem>)
    ensures match PopSlices(before, OrdersOfItems(popped))
      case Panic => Overdraws(popped, before)
      case Running(m) => ShortenedBy(before, m, popped) && !Overdraws(popped, before)
  {
    if popped != [] {
      var init, x := popped[..|popped| - 1], popped[|popped| - 1];
      var ids := OrdersOfItems(init);
      PopsAccountForSlices(before, init);
      assert (ids + [x.orderId])[..|ids|] == ids && popped == init + [x];
      match PopSlices(before, ids) {
        case Panic => OverdrawnStays(init, x, before);
        case Running(m) => PopAccount(before, m, init, x);
      }
    }
  }

  // ----- what the counts are used for -----

  /** One row, with the user of its first order, for each order whose count is positive. */
  ghost predicate IsOrderArgsByCount(args: seq<OrderRow>, mapOrder: OrderMap, counts: Counts) {
    && |OrderIds(args)| == |args|
    && (forall o :: o in OrderIds(args) <==> o in counts && counts[o] > 0)
    && (forall r :: r in args ==> r.id in mapOrder && r.userId == mapOrder[r.id].userId)
  }

  /** A response for each row whose order's count is positive. */
  ghost predicate IsResponsesByCount(responses: map<Uuid, Order>, rows: seq<GetOrdersRow>, counts: Counts) {
    && (forall o :: o in responses <==> o in counts && counts[o] > 0 && exists r :: r in rows && r.id == o)
    && (forall o :: o in responses ==>
        exists r :: r in rows && r.id == o && responses[o] == Order(r.id, r.userId, r.orderItems))
  }

  /** prepareOrderArgs with counts; the first orders are never shortened. */
  method PrepareOrderArgsByCount(mapOrder: OrderMap, counts: Counts) returns (args: seq<OrderRow>)
    requires Keyed(mapOrder) && counts.Keys == mapOrder.Keys
    ensures IsOrderArgsByCount(args, mapOrder, counts)
  {
    args := [];
    var left := mapOrder.Keys;
    while left != {}
      invariant left <= mapOrder.Keys
      invariant |OrderIds(args)| == |args|
      invariant forall o :: o in OrderIds(args) <==> o in counts && o !in left && counts[o] > 0
      invariant forall r :: r in args ==> r.id in mapOrder && r.userId == mapOrder[r.id].userId
    {
      var o :| o in left;
      left := left - {o};
      if counts[o] == 0 {
        continue;
      }
      var row := OrderRow(mapOrder[o].id, mapOrder[o].userId);
      assert OrderIds(args + [row]) == OrderIds(args) + {o};
      args := args + [row];
    }
  }

  /** orderToResponse with counts. */
  method OrderToResponseByCount(orders: seq<GetOrdersRow>, counts: Counts) returns (responses: map<Uuid, Order>)
    ensures IsResponsesByCount(responses, orders, counts)
  {
    responses := map[];
    for i := 0 to |orders|
      invariant forall o :: o in responses <==>
        o in counts && counts[o] > 0 && exists j :: 0 <= j < i && orders[j].id == o
      invariant forall o :: o in responses ==>
        exists j :: 0 <= j < i && orders[j].id == o && responses[o] == Order(o, orders[j].userId, orders[j].orderItems)
    {
      var order := orders[i];
      if order.id !in counts || counts[order.id] == 0 {
        continue;
      }
      responses := responses[order.id := Order(order.id, order.userId, order.orderItems)];
    }
  }

  ghost predicate SameOrderArgs(before: OrderMap, counts: Counts, after: OrderMap) {
    forall args: seq<OrderRow> :: IsOrderArgsByCount(args, before, counts) <==> IsOrderArgs(args, after)
  }

  ghost predicate SameResponses(counts: Counts, after: OrderMap) {
    forall responses: map<Uuid, Order>, rows: seq<GetOrdersRow> ::
      IsResponsesByCount(responses, rows, counts) <==> IsResponses(responses, rows, after)
  }

  lemma CountsGiveSameRows(before: OrderMap, after: OrderMap, popped: seq<OrderItem>, args: seq<OrderRow>)
    requires ShortenedBy(before, after, popped)
    ensures IsOrderArgsByCount(args, before, CountsOf(after)) <==> IsOrderArgs(args, after)
  {
    forall o | o in after ensures after[o].userId == before[o].userId {
      assert ShortenedAt(before[o], after[o], Count(popped, o));
    }
  }

  lemma CountsGiveSameResponses(after: OrderMap, responses: map<Uuid, Order>, rows: seq<GetOrdersRow>)
    ensures IsResponsesByCount(responses, rows, CountsOf(after)) <==> IsResponses(responses, rows, after)
  {
  }

  lemma CountsGiveSameResults(before: OrderMap, after: OrderMap, popped: seq<OrderItem>)
    requires ShortenedBy(before, after, popped)
    ensures SameOrderArgs(before, CountsOf(after), after) && SameResponses(CountsOf(after), after)
  {
    forall args: seq<OrderRow>
      ensures IsOrderArgsByCount(args, before, CountsOf(after)) <==> IsOrderArgs(args, after)
    {
      CountsGiveSameRows(before, after, popped, args);
    }
    forall responses: map<Uuid, Order>, rows: seq<GetOrdersRow>
      ensures IsResponsesByCount(responses, rows, CountsOf(after)) <==> IsResponses(responses, rows, after)
    {
      CountsGiveSameResponses(after, responses, rows);
    }
  }

  lemma ShortenedIsUnique(before: OrderMap, m: OrderMap, n: OrderMap, popped: seq<OrderItem>)
    requires ShortenedBy(before, m, popped) && ShortenedBy(before, n, popped)
    ensures m == n
  {
    forall o | o in before ensures m[o] == n[o] {
      assert ShortenedAt(before[o], m[o], Count(popped, o)) && ShortenedAt(before[o], n[o], Count(popped, o));
    }
  }

  /**
   * Replacing the slices by counts is not observable. On the items that the trim of any batch pops for any
   * answer of the product query, the counts panic exactly when the reslice does; and otherwise they lead to
   * the same order rows and the same responses as the order map that the trim leaves.
   */
  lemma CountersDoTheSame(products: seq<Product>, merged: Groups, before: OrderMap)
    ensures var popped := Popped(products, merged);
      match PopCounts(CountsOf(before), OrdersOfItems(popped))
      case Panic => Overdraws(popped, before)
      case Running(counts) =>
        && !Overdraws(popped, before)
        && forall after :: ShortenedBy(before, after, popped) ==>
             counts == CountsOf(after) && SameOrderArgs(before, counts, after) && SameResponses(counts, after)
  {
    var popped := Popped(products, merged);
    PopsAccountForSlices(before, popped);
    CountersRefineSlices(before, OrdersOfItems(popped));
    match PopSlices(before, OrdersOfItems(popped)) {
      case Panic =>
      case Running(m) =>
        CountsGiveSameResults(before, m, popped);
        forall after | ShortenedBy(before, after, popped) ensures after == m {
          ShortenedIsUnique(before, after, m, popped);
        }
    }
  }
}
