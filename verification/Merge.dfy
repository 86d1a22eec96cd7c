/** mergeOrderItems: one pass that regroups a batch by product and indexes it by order. */
module Merge {
  import opened Domain
  import opened Items

  ghost function Group(items: seq<OrderItem>): MergedOrderItem {
    MergedOrderItem(items, Wrap32(Sum(items)))
  }

  ghost predicate GroupAt(items: seq<OrderItem>, merged: map<Uuid, MergedOrderItem>, p: Uuid) {
    var own := Select(items, OfProduct(p));
    if p in merged then own != [] && merged[p] == Group(own) else own == []
  }

  /** `merged` holds, for each product that occurs, its items in arrival order and their int32 total. */
  ghost predicate Grouping(items: seq<OrderItem>, merged: map<Uuid, MergedOrderItem>) {
    forall p :: GroupAt(items, merged, p)
  }

  /** Product ids without repetition, by first appearance. */
  ghost function FirstAppearances(items: seq<OrderItem>): (ids: seq<Uuid>)
    ensures NoDuplicates(ids)
  {
    if items == [] then []
    else
      var ids, p := FirstAppearances(items[..|items| - 1]), items[|items| - 1].productId;
      if p in ids then ids else ids + [p]
  }

  lemma {:induction false} AppearancesAreSelections(items: seq<OrderItem>)
    ensures forall p :: p in FirstAppearances(items) <==> Select(items, OfProduct(p)) != []
  {
    if items != [] {
      AppearancesAreSelections(items[..|items| - 1]);
    }
  }

  ghost predicate FirstAt(orders: seq<CreateOrder>, orderId: Uuid, i: int) {
    0 <= i < |orders| && orders[i].id == orderId && forall j :: 0 <= j < i ==> orders[j].id != orderId
  }

  /** Every order id of the batch is mapped to the first order that carries it. */
  ghost predicate FirstById(orders: seq<CreateOrder>, mapOrder: map<Uuid, CreateOrder>) {
    && (forall i :: 0 <= i < |orders| ==> orders[i].id in mapOrder)
    && (forall o :: o in mapOrder ==> exists i :: FirstAt(orders, o, i) && mapOrder[o] == orders[i])
  }

  /** What the cart service guarantees of a batch in which no cart occurs twice, save an empty one. */
  ghost predicate WellFormed(orders: seq<CreateOrder>) {
    && (forall i, j :: 0 <= i < j < |orders| && orders[i].id == orders[j].id ==>
         orders[i].orderItems == [] && orders[j].orderItems == [])
    && (forall i, x :: 0 <= i < |orders| && x in orders[i].orderItems ==> x.orderId == orders[i].id)
  }

  /** The entry after one more item of its product; a missing entry starts a new group. */
  ghost function Extended(merged: map<Uuid, MergedOrderItem>, x: OrderItem): MergedOrderItem {
    if x.productId in merged then
      var m := merged[x.productId];
      MergedOrderItem(m.items + [x], Wrap32(m.orderedItemQuantity + x.quantity))
    else MergedOrderItem([x], x.quantity)
  }

  /** The two maps as folds over the batch, which is how the loops below build them. */
  ghost function GroupsOf(items: seq<OrderItem>): map<Uuid, MergedOrderItem> {
    if items == [] then map[]
    else
      var groups, x := GroupsOf(items[..|items| - 1]), items[|items| - 1];
      groups[x.productId := Extended(groups, x)]
  }

  ghost function OrdersById(orders: seq<CreateOrder>): map<Uuid, CreateOrder> {
    if orders == [] then map[]
    else
      var byId, order := OrdersById(orders[..|orders| - 1]), orders[|orders| - 1];
      if order.id in byId then byId else byId[order.id := order]
  }

  lemma TotalPush(own: seq<OrderItem>, x: OrderItem)
    ensures Wrap32(Wrap32(Sum(own)) + x.quantity) == Wrap32(Sum(own + [x]))
  {
    WrapAdd(Sum(own), x.quantity);
    assert (own + [x])[..|own|] == own;
  }

  lemma ExtendedIsGroup(items: seq<OrderItem>, groups: map<Uuid, MergedOrderItem>, x: OrderItem)
    requires GroupAt(items, groups, x.productId)
    ensures Extended(groups, x) == Group(Select(items, OfProduct(x.productId)) + [x])
  {
    var own := Select(items, OfProduct(x.productId));
    TotalPush(own, x);
    if own == [] {
      assert own + [x] == [x];
    }
  }

  lemma GroupAtPush(items: seq<OrderItem>, groups: map<Uuid, MergedOrderItem>, x: OrderItem, p: Uuid)
    requires GroupAt(items, groups, p)
    ensures GroupAt(items + [x], groups[x.productId := Extended(groups, x)], p)
  {
    SelectPush(items, x, OfProduct(p));
    if p == x.productId {
      ExtendedIsGroup(items, groups, x);
    }
  }

  lemma {:induction false} GroupsAreGroupings(items: seq<OrderItem>, p: Uuid)
    ensures GroupAt(items, GroupsOf(items), p)
  {
    if items != [] {
      var init, x := items[..|items| - 1], items[|items| - 1];
      GroupsAreGroupings(init, p);
      GroupAtPush(init, GroupsOf(init), x, p);
      assert items == init + [x];
    }
  }

  lemma {:induction false} GroupedProducts(items: seq<OrderItem>)
    ensures forall p :: p in GroupsOf(items) <==> p in FirstAppearances(items)
  {
    if items != [] {
      GroupedProducts(items[..|items| - 1]);
    }
  }

  lemma {:induction false} OrdersAreFirst(orders: seq<CreateOrder>)
    ensures FirstById(orders, OrdersById(orders))
  {
    if orders != [] {
      var init, order := orders[..|orders| - 1], orders[|orders| - 1];
      var byId, m := OrdersById(init), OrdersById(orders);
      OrdersAreFirst(init);
      forall o | o in m ensures exists k :: FirstAt(orders, o, k) && m[o] == orders[k] {
        if o in byId {
          var k :| FirstAt(init, o, k) && byId[o] == init[k];
          assert FirstAt(orders, o, k);
        } else {
          assert FirstAt(orders, o, |init|);
        }
      }
    }
  }

  lemma AllItemsPush(orders: seq<CreateOrder>, i: nat)
    requires i < |orders|
    ensures AllItems(orders[..i + 1]) == AllItems(orders[..i]) + orders[i].orderItems
    ensures OrdersById(orders[..i + 1]) ==
      var byId := OrdersById(orders[..i]);
      if orders[i].id in byId then byId else byId[orders[i].id := orders[i]]
  {
    assert orders[..i + 1][..i] == orders[..i];
  }

  lemma FoldPush(items: seq<OrderItem>, x: OrderItem)
    ensures GroupsOf(items + [x]) == GroupsOf(items)[x.productId := Extended(GroupsOf(items), x)]
    ensures FirstAppearances(items + [x]) ==
      var ids := FirstAppearances(items);
      if x.productId in ids then ids else ids + [x.productId]
  {
    assert (items + [x])[..|items|] == items;
  }

  ghost predicate IsMerged(params: seq<CreateOrder>, merged: map<Uuid, MergedOrderItem>,
      mapOrder: map<Uuid, CreateOrder>, productIds: seq<Uuid>, orderIds: seq<Uuid>) {
    && Grouping(AllItems(params), merged)
    && FirstById(params, mapOrder)
    && productIds == FirstAppearances(AllItems(params))
    && |orderIds| == |params| && forall i :: 0 <= i < |params| ==> orderIds[i] == params[i].id
  }

  method MergeOrderItems(params: seq<CreateOrder>) returns (
      merged: map<Uuid, MergedOrderItem>, mapOrder: map<Uuid, CreateOrder>, productIds: seq<Uuid>, orderIds: seq<Uuid>)
    ensures IsMerged(params, merged, mapOrder, productIds, orderIds)
  {
    merged, mapOrder, productIds, orderIds := map[], map[], [], [];
    for i := 0 to |params|
      invariant merged == GroupsOf(AllItems(params[..i]))
      invariant productIds == FirstAppearances(AllItems(params[..i]))
      invariant mapOrder == OrdersById(params[..i])
      invariant |orderIds| == i && forall j :: 0 <= j < i ==> orderIds[j] == params[j].id
    {
      var order := params[i];
      orderIds := orderIds + [order.id];
      AllItemsPush(params, i);
      if order.id !in mapOrder {
        mapOrder := mapOrder[order.id := order];
      }
      merged, productIds := MergeOne(AllItems(params[..i]), order.orderItems, merged, productIds);
    }
    assert params[..|params|] == params;
    OrdersAreFirst(params);
    forall p ensures GroupAt(AllItems(params), merged, p) {
      GroupsAreGroupings(AllItems(params), p);
    }
  }

  /** One item: it starts its product's group or joins it. */
  method MergeItem(orderItem: OrderItem, merged0: map<Uuid, MergedOrderItem>, productIds0: seq<Uuid>)
    returns (merged: map<Uuid, MergedOrderItem>, productIds: seq<Uuid>)
    ensures merged == merged0[orderItem.productId := Extended(merged0, orderItem)]
    ensures productIds == if orderItem.productId in merged0 then productIds0 else productIds0 + [orderItem.productId]
  {
    merged, productIds := merged0, productIds0;
    var productId := orderItem.productId;
    if productId !in merged {
      merged := merged[productId := MergedOrderItem([orderItem], orderItem.quantity)];
      productIds := productIds + [productId];
      return;
    }
    var existing := merged[productId];
    existing := existing.(orderedItemQuantity := Wrap32(existing.orderedItemQuantity + orderItem.quantity));
    existing := existing.(items := existing.items + [orderItem]);
    merged := merged[productId := existing];
  }

  /** The inner loop of mergeOrderItems, over the items of one order. */
  method MergeOne(ghost before: seq<OrderItem>, orderItems: seq<OrderItem>,
      merged0: map<Uuid, MergedOrderItem>, productIds0: seq<Uuid>)
    returns (merged: map<Uuid, MergedOrderItem>, productIds: seq<Uuid>)
    requires merged0 == GroupsOf(before) && productIds0 == FirstAppearances(before)
    ensures merged == GroupsOf(before + orderItems)
    ensures productIds == FirstAppearances(before + orderItems)
  {
    merged, productIds := merged0, productIds0;
    ghost var seen := before;
    for j := 0 to |orderItems|
      invariant seen == before + orderItems[..j]
      invariant merged == GroupsOf(seen) && productIds == FirstAppearances(seen)
    {
      var orderItem := orderItems[j];
      GroupedProducts(seen);
      FoldPush(seen, orderItem);
      seen := seen + [orderItem];
      merged, productIds := MergeItem(orderItem, merged, productIds);
    }
    assert seen == before + orderItems;
  }

  /** In a well-formed batch the items that name an order are that order's own items, in its own order. */
  lemma {:induction false} OwnItems(orders: seq<CreateOrder>, i: nat)
    requires WellFormed(orders) && i < |orders|
    ensures Select(AllItems(orders), OfOrder(orders[i].id)) == orders[i].orderItems
  {
    var init, last, sel := orders[..|orders| - 1], orders[|orders| - 1], OfOrder(orders[i].id);
    SelectConcat(AllItems(init), last.orderItems, sel);
    if i == |orders| - 1 {
      ForeignOrderHasNone(init, last.id);
      SelectAll(last.orderItems, sel);
    } else {
      OwnItems(init, i);
      SelectNone(last.orderItems, sel);
    }
  }

  lemma {:induction false} ForeignOrderHasNone(orders: seq<CreateOrder>, orderId: Uuid)
    requires WellFormed(orders)
    requires forall i :: 0 <= i < |orders| && orders[i].id == orderId ==> orders[i].orderItems == []
    ensures Select(AllItems(orders), OfOrder(orderId)) == []
  {
    if orders != [] {
      var init, last := orders[..|orders| - 1], orders[|orders| - 1];
      ForeignOrderHasNone(init, orderId);
      SelectConcat(AllItems(init), last.orderItems, OfOrder(orderId));
      SelectNone(last.orderItems, OfOrder(orderId));
    }
  }
}
