/**
 * From the two trimmed maps to the stock update, the rows to insert and the answers. Ranging
 * over a map visits its keys in an arbitrary order; no contract here depends on it.
 */
module Prepare {
  import opened Domain
  import opened Items
  import opened Trim
  import opened Ledger
  import opened Database

  /** response.Order; the zero UUID stands in the zero value. */
  datatype Order = Order(id: Uuid, userId: Uuid, orderItems: seq<OrderItem>)

  const ZERO_ORDER := Order(0, 0, [])

  ghost predicate Keyed(mapOrder: OrderMap) {
    forall o :: o in mapOrder ==> mapOrder[o].id == o
  }

  /** The CASE yields each product's total and is NULL elsewhere; it is empty only for an empty batch. */
  ghost predicate IsQuery(query: seq<When>, merged: Groups) {
    && (forall p :: EvalCase(query, p) == if p in merged then Some(merged[p].orderedItemQuantity) else None)
    && (query == [] <==> merged == map[])
  }

  /** One row for each order that still lists an item. */
  ghost predicate IsOrderArgs(args: seq<OrderRow>, mapOrder: OrderMap) {
    && |OrderIds(args)| == |args|
    && (forall o :: o in OrderIds(args) <==> o in mapOrder && mapOrder[o].orderItems != [])
    && (forall r :: r in args ==> r.id in mapOrder && r.userId == mapOrder[r.id].userId)
  }

  /** Per product the rows are that product's remaining items, in arrival order. */
  ghost predicate IsItemArgs(args: seq<OrderItem>, merged: Groups) {
    forall p :: Select(args, OfProduct(p)) == ItemsOf(merged, p)
  }

  /** A response for each row whose order still lists an item. */
  ghost predicate IsResponses(responses: map<Uuid, Order>, rows: seq<GetOrdersRow>, mapOrder: OrderMap) {
    && (forall o :: o in responses <==>
        o in mapOrder && mapOrder[o].orderItems != [] && exists r :: r in rows && r.id == o)
    && (forall o :: o in responses ==>
        exists r :: r in rows && r.id == o && responses[o] == Order(r.id, r.userId, r.orderItems))
  }

  method BuildQuery(merged: Groups) returns (query: seq<When>)
    ensures IsQuery(query, merged)
  {
    query := [];
    var left := merged.Keys;
    while left != {}
      invariant left <= merged.Keys
      invariant forall p ::
        EvalCase(query, p) == if p in merged && p !in left then Some(merged[p].orderedItemQuantity) else None
      invariant query == [] <==> left == merged.Keys
    {
      var productId :| productId in left;
      var w := When(productId, merged[productId].orderedItemQuantity);
      forall p ensures EvalCase(query + [w], p) ==
          if EvalCase(query, p).Some? then EvalCase(query, p) else if w.id == p then Some(w.total) else None
      {
        EvalCasePush(query, w, p);
      }
      query := query + [w];
      left := left - {productId};
    }
    assert merged == map[] <==> merged.Keys == {};
  }

  method PrepareOrderArgs(mapOrder: OrderMap) returns (args: seq<OrderRow>)
    requires Keyed(mapOrder)
    ensures IsOrderArgs(args, mapOrder)
  {
    args := [];
    var left := mapOrder.Keys;
    while left != {}
      invariant left <= mapOrder.Keys
      invariant |OrderIds(args)| == |args|
      invariant forall o :: o in OrderIds(args) <==> o in mapOrder && o !in left && mapOrder[o].orderItems != []
      invariant forall r :: r in args ==> r.id in mapOrder && r.userId == mapOrder[r.id].userId
    {
      var o :| o in left;
      var order := mapOrder[o];
      left := left - {o};
      if |order.orderItems| == 0 {
        continue;
      }
      var row := OrderRow(order.id, order.userId);
      assert OrderIds(args + [row]) == OrderIds(args) + {o};
      args := args + [row];
    }
  }

  /** `args` holds, of every product outside `left`, exactly its remaining items. */
  ghost predicate Emitted(args: seq<OrderItem>, merged: Groups, left: set<Uuid>) {
    forall p :: Select(args, OfProduct(p)) == if p in left then [] else ItemsOf(merged, p)
  }

  lemma EmitGroup(args: seq<OrderItem>, merged: Groups, left: set<Uuid>, productId: Uuid)
    requires Sorted(merged) && productId in left && productId in merged && Emitted(args, merged, left)
    ensures Emitted(args + merged[productId].items, merged, left - {productId})
  {
    var items := merged[productId].items;
    forall p ensures Select(args + items, OfProduct(p)) == if p in left - {productId} then [] else ItemsOf(merged, p) {
      SelectConcat(args, items, OfProduct(p));
      if p == productId { SelectAll(items, OfProduct(p)); } else { SelectNone(items, OfProduct(p)); }
    }
  }

  method PrepareOrderItemArgs(merged: Groups) returns (args: seq<OrderItem>)
    requires Sorted(merged)
    ensures IsItemArgs(args, merged)
  {
    args := [];
    var left := merged.Keys;
    while left != {}
      invariant left <= merged.Keys && Emitted(args, merged, left)
    {
      var productId :| productId in left;
      var items := merged[productId].items;
      EmitGroup(args, merged, left, productId);
      args := AppendAll(args, items);
      left := left - {productId};
    }
  }

  /** The inner loop: one insert row per remaining item. */
  method AppendAll(args0: seq<OrderItem>, items: seq<OrderItem>) returns (args: seq<OrderItem>)
    ensures args == args0 + items
  {
    args := args0;
    for i := 0 to |items|
      invariant args == args0 + items[..i]
    {
      args := args + [items[i]];
    }
  }

  method OrderToResponse(orders: seq<GetOrdersRow>, mapOrder: OrderMap) returns (responses: map<Uuid, Order>)
    ensures IsResponses(responses, orders, mapOrder)
  {
    responses := map[];
    for i := 0 to |orders|
      invariant forall o :: o in responses <==>
        o in mapOrder && mapOrder[o].orderItems != [] && exists j :: 0 <= j < i && orders[j].id == o
      invariant forall o :: o in responses ==>
        exists j :: 0 <= j < i && orders[j].id == o && responses[o] == Order(o, orders[j].userId, orders[j].orderItems)
    {
      var order := orders[i];
      if order.id !in mapOrder || |mapOrder[order.id].orderItems| == 0 {
        continue;
      }
      responses := responses[order.id := Order(order.id, order.userId, order.orderItems)];
    }
  }
}
