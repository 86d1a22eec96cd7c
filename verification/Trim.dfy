/** checkDecreaseQuantity: popping items from the tail of each product until its stock suffices. */
module Trim {
  import opened Domain
  import opened Items
  import opened Allocation
  import opened Merge

  type Groups = map<Uuid, MergedOrderItem>
  type OrderMap = map<Uuid, CreateOrder>

  /** Product rows as a query returns them: the primary key rules out repetition, no order is promised. */
  ghost predicate DistinctIds(products: seq<Product>) {
    forall i, j :: 0 <= i < j < |products| ==> products[i].id != products[j].id
  }

  ghost function StockOf(products: seq<Product>): map<Uuid, Int32> {
    if products == [] then map[]
    else
      var last := products[|products| - 1];
      StockOf(products[..|products| - 1])[last.id := last.quantity]
  }

  ghost predicate Totalled(merged: Groups) {
    forall p :: p in merged ==> merged[p] == Group(merged[p].items)
  }

  /** Every product the database knows keeps its longest fitting prefix; an unknown one keeps everything. */
  ghost function Trimmed(merged: Groups, stock: map<Uuid, Int32>): Groups {
    map p | p in merged :: if p in stock then Group(Kept(merged[p].items, stock[p])) else merged[p]
  }

  ghost function ItemsOf(merged: Groups, p: Uuid): seq<OrderItem> {
    if p in merged then merged[p].items else []
  }

  ghost function Dropped(items: seq<OrderItem>, stock: Int32): seq<OrderItem> {
    items[KeepCount(items, stock)..]
  }

  /** All items popped while going through `products`. */
  ghost function Popped(products: seq<Product>, merged: Groups): seq<OrderItem> {
    if products == [] then []
    else
      var last := products[|products| - 1];
      Popped(products[..|products| - 1], merged) + Dropped(ItemsOf(merged, last.id), last.quantity)
  }

  /** Each order of `before` lost from its tail as many items as `popped` holds for it. */
  ghost predicate ShortenedBy(before: OrderMap, after: OrderMap, popped: seq<OrderItem>) {
    && after.Keys == before.Keys
    && forall o :: o in before ==> ShortenedAt(before[o], after[o], Count(popped, o))
  }

  ghost predicate ShortenedAt(before: CreateOrder, after: CreateOrder, n: nat) {
    && n <= |before.orderItems|
    && after == before.(orderItems := before.orderItems[..|before.orderItems| - n])
  }

  datatype Popping<T> = Running(orders: T) | Panic

  /** What one pop does to the order map: the popped item's order, if the map knows it, loses its last item. */
  ghost function PopSlice(m: OrderMap, orderId: Uuid): Popping<OrderMap> {
    if orderId !in m then Running(m)
    else
      var s := m[orderId].orderItems;
      if |s| == 0 then Panic else Running(m[orderId := m[orderId].(orderItems := s[..|s| - 1])])
  }

  /** Some order would lose more items than it lists: reslicing its list panics. */
  ghost predicate Overdraws(popped: seq<OrderItem>, mapOrder: OrderMap) {
    exists o :: o in mapOrder && Count(popped, o) > |mapOrder[o].orderItems|
  }

  // ----- one product -----

  lemma CountConcat(a: seq<OrderItem>, b: seq<OrderItem>, o: Uuid)
    ensures Count(a + b, o) == Count(a, o) + Count(b, o)
  {
    SelectConcat(a, b, OfOrder(o));
  }

  /** Popping items[k - 1] adds one to its own order's count and nothing to any other's. */
  lemma PopAddsOne(items: seq<OrderItem>, k: nat, o: Uuid)
    requires 0 < k <= |items|
    ensures Count(items[k - 1..], o) == Count(items[k..], o) + if items[k - 1].orderId == o then 1 else 0
  {
    assert items[k - 1..] == [items[k - 1]] + items[k..];
    SelectHead(items[k - 1], items[k..], OfOrder(o));
  }

  lemma TotalPop(items: seq<OrderItem>, k: nat)
    requires 0 < k <= |items|
    ensures Wrap32(Wrap32(Sum(items[..k])) - items[k - 1].quantity) == Wrap32(Sum(items[..k - 1]))
  {
    assert items[..k][..k - 1] == items[..k - 1];
    var q: int := items[k - 1].quantity;
    WrapAdd(Sum(items[..k]), -q);
  }

  lemma PopShortens(items: seq<OrderItem>, k: nat, before: OrderMap, after: OrderMap)
    requires 0 < k <= |items| && ShortenedBy(before, after, items[k..])
    ensures match PopSlice(after, items[k - 1].orderId)
      case Panic => Overdraws(items[k - 1..], before)
      case Running(m) => ShortenedBy(before, m, items[k - 1..])
  {
    forall o ensures Count(items[k - 1..], o) == Count(items[k..], o) + if items[k - 1].orderId == o then 1 else 0 {
      PopAddsOne(items, k, o);
    }
    var o := items[k - 1].orderId;
    if o in after && |after[o].orderItems| == 0 {
      assert ShortenedAt(before[o], after[o], Count(items[k..], o));
      assert Count(items[k - 1..], o) > |before[o].orderItems|;
    }
  }

  lemma DroppedCovers(items: seq<OrderItem>, stock: Int32, k: nat, o: Uuid)
    requires KeepCount(items, stock) <= k <= |items|
    ensures Count(items[k..], o) <= Count(Dropped(items, stock), o)
  {
    var n := KeepCount(items, stock);
    assert items[n..] == items[n..k] + items[k..];
    CountConcat(items[n..k], items[k..], o);
  }

  lemma PopGroup(items: seq<OrderItem>, k: nat)
    requires 0 < k <= |items|
    ensures var m := Group(items[..k]);
      m.(items := m.items[..k - 1], orderedItemQuantity := Wrap32(m.orderedItemQuantity - items[k - 1].quantity))
        == Group(items[..k - 1])
  {
    TotalPop(items, k);
    assert items[..k][..k - 1] == items[..k - 1];
  }

  /** While the exit test fails, the last remaining item is one the stock cannot serve. */
  lemma MustPop(items: seq<OrderItem>, stock: Int32, k: nat)
    requires 0 < k <= |items| && KeepCount(items, stock) <= k && !Fits(items[..k], stock)
    ensures KeepCount(items, stock) <= k - 1
  {
  }

  lemma MayStop(items: seq<OrderItem>, stock: Int32, k: nat)
    requires KeepCount(items, stock) <= k <= |items|
    requires k == 0 || Fits(items[..k], stock)
    ensures k == KeepCount(items, stock)
  {
  }

  /**
   * One round of the inner loop: pop the last item of the product, shorten its order. The result
   * is false when the order's item list is already empty and reslicing it panics.
   */
  method PopLast(merged0: MergedOrderItem, mapOrder0: OrderMap, ghost items: seq<OrderItem>, ghost stock: Int32,
      ghost k: nat, ghost before: OrderMap)
    returns (ok: bool, merged: MergedOrderItem, mapOrder: OrderMap)
    requires 0 < k <= |items| && merged0 == Group(items[..k]) && KeepCount(items, stock) <= k
    requires ShortenedBy(before, mapOrder0, items[k..]) && !Fits(items[..k], stock)
    ensures KeepCount(items, stock) <= k - 1
    ensures ok ==> merged == Group(items[..k - 1]) && ShortenedBy(before, mapOrder, items[k - 1..])
    ensures !ok ==> Overdraws(Dropped(items, stock), before)
  {
    merged, mapOrder := merged0, mapOrder0;
    MustPop(items, stock, k);
    PopGroup(items, k);
    PopShortens(items, k, before, mapOrder);
    var endOrderItemIndex := |merged.items| - 1;
    var orderItem := merged.items[endOrderItemIndex];
    var orderId := orderItem.orderId;
    merged := merged.(
      items := merged.items[..endOrderItemIndex],
      orderedItemQuantity := Wrap32(merged.orderedItemQuantity - orderItem.quantity));
    if orderId in mapOrder {
      var order := mapOrder[orderId];
      if |order.orderItems| == 0 {
        PanicStays(items, stock, k - 1, before);
        return false, merged, mapOrder;
      }
      order := order.(orderItems := order.orderItems[..|order.orderItems| - 1]);
      mapOrder := mapOrder[orderId := order];
    }
    return true, merged, mapOrder;
  }

  /** The inner loop for one product row. */
  method TrimProduct(product: Product, merged0: MergedOrderItem, mapOrder0: OrderMap)
    returns (ok: bool, merged: MergedOrderItem, mapOrder: OrderMap)
    requires merged0 == Group(merged0.items)
    ensures ok ==> merged == Group(Kept(merged0.items, product.quantity))
    ensures ok ==> ShortenedBy(mapOrder0, mapOrder, Dropped(merged0.items, product.quantity))
    ensures !ok ==> Overdraws(Dropped(merged0.items, product.quantity), mapOrder0)
  {
    merged, mapOrder := merged0, mapOrder0;
    ghost var items, stock, k := merged0.items, product.quantity, |merged0.items|;
    assert items[..k] == items && items[k..] == [];
    while Wrap32(product.quantity - merged.orderedItemQuantity) < 0
      invariant KeepCount(items, stock) <= k <= |items|
      invariant merged == Group(items[..k])
      invariant ShortenedBy(mapOrder0, mapOrder, items[k..])
      decreases k
    {
      if |merged.items| == 0 {
        break;
      }
      ok, merged, mapOrder := PopLast(merged, mapOrder, items, stock, k, mapOrder0);
      if !ok {
        return;
      }
      k := k - 1;
    }
    MayStop(items, stock, k);
    ok := true;
  }

  lemma PanicStays(items: seq<OrderItem>, stock: Int32, k: nat, before: OrderMap)
    requires KeepCount(items, stock) <= k <= |items|
    requires Overdraws(items[k..], before)
    ensures Overdraws(Dropped(items, stock), before)
  {
    var o :| o in before && Count(items[k..], o) > |before[o].orderItems|;
    DroppedCovers(items, stock, k, o);
  }

  // ----- all products -----

  lemma ShortenedTwice(a: OrderMap, b: OrderMap, c: OrderMap, first: seq<OrderItem>, then_: seq<OrderItem>)
    requires ShortenedBy(a, b, first) && ShortenedBy(b, c, then_)
    ensures ShortenedBy(a, c, first + then_)
  {
    forall o | o in a ensures ShortenedAt(a[o], c[o], Count(first + then_, o)) {
      CountConcat(first, then_, o);
      assert ShortenedAt(a[o], b[o], Count(first, o)) && ShortenedAt(b[o], c[o], Count(then_, o));
    }
  }

  lemma {:induction false} PoppedGrows(products: seq<Product>, merged: Groups, i: nat, o: Uuid)
    requires i <= |products|
    ensures Count(Popped(products[..i], merged), o) <= Count(Popped(products, merged), o)
    decreases |products| - i
  {
    if i == |products| {
      assert products[..i] == products;
    } else {
      PoppedPush(products, merged, i);
      CountConcat(Popped(products[..i], merged), Dropped(ItemsOf(merged, products[i].id), products[i].quantity), o);
      PoppedGrows(products, merged, i + 1, o);
    }
  }

  lemma PoppedPush(products: seq<Product>, merged: Groups, i: nat)
    requires i < |products|
    ensures Popped(products[..i + 1], merged) ==
      Popped(products[..i], merged) + Dropped(ItemsOf(merged, products[i].id), products[i].quantity)
    ensures StockOf(products[..i + 1]) == StockOf(products[..i])[products[i].id := products[i].quantity]
  {
    assert products[..i + 1][..i] == products[..i];
  }

  lemma {:induction false} StockKeys(products: seq<Product>, p: Uuid)
    ensures p in StockOf(products) <==> exists i :: 0 <= i < |products| && products[i].id == p
  {
    if products != [] {
      var init := products[..|products| - 1];
      StockKeys(init, p);
      if p in StockOf(init) {
        var i :| 0 <= i < |init| && init[i].id == p;
        assert products[i].id == p;
      } else if exists i :: 0 <= i < |products| && products[i].id == p {
        var i :| 0 <= i < |products| && products[i].id == p;
        assert i == |products| - 1 || init[i].id == p;
      }
    }
  }

  lemma FreshRow(products: seq<Product>, i: nat)
    requires DistinctIds(products) && i < |products|
    ensures products[i].id !in StockOf(products[..i])
  {
    StockKeys(products[..i], products[i].id);
  }

  lemma TrimmedPush(merged: Groups, stock: map<Uuid, Int32>, p: Uuid, quantity: Int32)
    requires p !in stock
    ensures p in merged ==>
      Trimmed(merged, stock[p := quantity]) == Trimmed(merged, stock)[p := Group(Kept(merged[p].items, quantity))]
    ensures p in merged ==> Trimmed(merged, stock)[p] == merged[p]
    ensures p !in merged ==> Trimmed(merged, stock[p := quantity]) == Trimmed(merged, stock)
  {
  }

  method CheckDecreaseQuantity(products: seq<Product>, merged0: Groups, mapOrder0: OrderMap)
    returns (ok: bool, merged: Groups, mapOrder: OrderMap)
    requires DistinctIds(products) && Totalled(merged0)
    ensures ok <==> !Overdraws(Popped(products, merged0), mapOrder0)
    ensures ok ==> merged == Trimmed(merged0, StockOf(products))
    ensures ok ==> ShortenedBy(mapOrder0, mapOrder, Popped(products, merged0))
  {
    merged, mapOrder := merged0, mapOrder0;
    assert Trimmed(merged0, map[]) == merged0;
    for i := 0 to |products|
      invariant merged == Trimmed(merged0, StockOf(products[..i]))
      invariant ShortenedBy(mapOrder0, mapOrder, Popped(products[..i], merged0))
    {
      var product := products[i];
      var productId := product.id;
      ghost var sofar := Popped(products[..i], merged0);
      ghost var dropped := Dropped(ItemsOf(merged0, productId), product.quantity);
      PoppedPush(products, merged0, i);
      FreshRow(products, i);
      TrimmedPush(merged0, StockOf(products[..i]), productId, product.quantity);
      if productId !in merged {
        assert sofar + dropped == sofar;
        continue;
      }
      var fits, entry, orders := TrimProduct(product, merged[productId], mapOrder);
      if !fits {
        PanicWitness(products, i, merged0, mapOrder0, mapOrder);
        return false, merged, mapOrder;
      }
      ShortenedTwice(mapOrder0, mapOrder, orders, sofar, dropped);
      mapOrder := orders;
      merged := merged[productId := entry];
    }
    assert products[..|products|] == products;
    return true, merged, mapOrder;
  }

  lemma PanicWitness(products: seq<Product>, i: nat, merged: Groups, before: OrderMap, now: OrderMap)
    requires i < |products| && ShortenedBy(before, now, Popped(products[..i], merged))
    requires Overdraws(Dropped(ItemsOf(merged, products[i].id), products[i].quantity), now)
    ensures Overdraws(Popped(products, merged), before)
  {
    var dropped := Dropped(ItemsOf(merged, products[i].id), products[i].quantity);
    var o :| o in now && Count(dropped, o) > |now[o].orderItems|;
    assert ShortenedAt(before[o], now[o], Count(Popped(products[..i], merged), o));
    PoppedPush(products, merged, i);
    CountConcat(Popped(products[..i], merged), dropped, o);
    PoppedGrows(products, merged, i + 1, o);
  }
}
