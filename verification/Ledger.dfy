/**
 * The counting invariant that ties the two maps together, and what follows from it: no
 * panic, no item lost, and an outcome that the order of the product rows cannot change.
 */
module Ledger {
  import opened Domain
  import opened Items
  import opened Allocation
  import opened Merge
  import opened Trim

  /** `keys` visits every product of `merged` once, as ranging over the map does. */
  ghost predicate Visits(keys: seq<Uuid>, merged: Groups) {
    NoDuplicates(keys) && forall p :: p in keys <==> p in merged
  }

  /** All items of all groups, group after group. */
  ghost function Rows(keys: seq<Uuid>, merged: Groups): seq<OrderItem> {
    if keys == [] then []
    else Rows(keys[..|keys| - 1], merged) + ItemsOf(merged, keys[|keys| - 1])
  }

  ghost predicate Sorted(merged: Groups) {
    forall p, x :: p in merged && x in merged[p].items ==> x.productId == p
  }

  /** The invariant: an order lists as many items as the groups still hold for it. */
  ghost predicate Balanced(items: seq<OrderItem>, mapOrder: OrderMap) {
    forall o :: o in mapOrder ==> |mapOrder[o].orderItems| == Count(items, o)
  }

  lemma {:induction false} RowsPerProduct(keys: seq<Uuid>, merged: Groups, p: Uuid)
    requires NoDuplicates(keys) && Sorted(merged)
    ensures Select(Rows(keys, merged), OfProduct(p)) == if p in keys then ItemsOf(merged, p) else []
  {
    if keys != [] {
      var init, last := keys[..|keys| - 1], keys[|keys| - 1];
      RowsPerProduct(init, merged, p);
      SelectConcat(Rows(init, merged), ItemsOf(merged, last), OfProduct(p));
      if p == last {
        SelectAll(ItemsOf(merged, p), OfProduct(p));
      } else {
        SelectNone(ItemsOf(merged, last), OfProduct(p));
      }
    }
  }

  lemma {:induction false} RowsIgnoreOthers(keys: seq<Uuid>, a: Groups, b: Groups)
    requires forall p :: p in keys ==> ItemsOf(a, p) == ItemsOf(b, p)
    ensures Rows(keys, a) == Rows(keys, b)
  {
    if keys != [] {
      RowsIgnoreOthers(keys[..|keys| - 1], a, b);
    }
  }

  /** Replacing one group's items exchanges exactly those items. */
  lemma {:induction false} RowsExchange(keys: seq<Uuid>, merged: Groups, p: Uuid, entry: MergedOrderItem)
    requires NoDuplicates(keys) && p in keys
    ensures multiset(Rows(keys, merged[p := entry])) + multiset(ItemsOf(merged, p))
      == multiset(Rows(keys, merged)) + multiset(entry.items)
  {
    var init, last := keys[..|keys| - 1], keys[|keys| - 1];
    var merged' := merged[p := entry];
    if p == last {
      RowsIgnoreOthers(init, merged, merged');
    } else {
      assert p in init;
      RowsExchange(init, merged, p, entry);
    }
  }

  lemma GroupsAreSorted(items: seq<OrderItem>, merged: Groups)
    requires Grouping(items, merged)
    ensures Sorted(merged) && Totalled(merged) && Visits(FirstAppearances(items), merged)
  {
    forall p | p in merged
      ensures merged[p] == Group(merged[p].items) && forall x :: x in merged[p].items ==> x.productId == p
    {
      assert GroupAt(items, merged, p);
      SelectMembers(items, OfProduct(p));
    }
    AppearancesAreSelections(items);
    forall p ensures p in FirstAppearances(items) <==> p in merged {
      assert GroupAt(items, merged, p);
    }
  }

  /** Merging loses and invents nothing. */
  lemma MergeConserves(items: seq<OrderItem>, merged: Groups, keys: seq<Uuid>)
    requires Grouping(items, merged) && Visits(keys, merged)
    ensures multiset(Rows(keys, merged)) == multiset(items)
  {
    GroupsAreSorted(items, merged);
    forall p ensures Select(Rows(keys, merged), OfProduct(p)) == Select(items, OfProduct(p)) {
      RowsPerProduct(keys, merged, p);
      assert GroupAt(items, merged, p);
    }
    SameByProduct(Rows(keys, merged), items);
  }

  lemma Cancel(a: multiset<OrderItem>, b: multiset<OrderItem>, c: multiset<OrderItem>)
    requires a + c == b + c
    ensures a == b
  {
    forall x ensures a[x] == b[x] {
      assert (a + c)[x] == a[x] + c[x] && (b + c)[x] == b[x] + c[x];
    }
  }

  /** Exchanging kept + dropped items for the kept ones leaves the dropped ones over. */
  lemma ExchangeDrops(left: seq<OrderItem>, left': seq<OrderItem>, kept: seq<OrderItem>, dropped: seq<OrderItem>)
    requires multiset(left') + multiset(kept + dropped) == multiset(left) + multiset(kept)
    ensures multiset(left' + dropped) == multiset(left)
  {
    assert multiset(left' + dropped) + multiset(kept) == multiset(left') + multiset(kept + dropped);
    Cancel(multiset(left' + dropped), multiset(left), multiset(kept));
  }

  /** Trimming one more product moves what it drops from the groups to the popped items. */
  lemma TrimOneConserves(keys: seq<Uuid>, merged: Groups, stock: map<Uuid, Int32>, p: Uuid, quantity: Int32)
    requires Visits(keys, merged) && p !in stock
    ensures multiset(Rows(keys, Trimmed(merged, stock[p := quantity])) + Dropped(ItemsOf(merged, p), quantity))
      == multiset(Rows(keys, Trimmed(merged, stock)))
  {
    TrimmedPush(merged, stock, p, quantity);
    var items, left := ItemsOf(merged, p), Trimmed(merged, stock);
    var kept, dropped := Kept(items, quantity), Dropped(items, quantity);
    assert items == kept + dropped;
    if p in merged {
      RowsExchange(keys, left, p, Group(kept));
      ExchangeDrops(Rows(keys, left), Rows(keys, left[p := Group(kept)]), kept, dropped);
    } else {
      assert Rows(keys, left) + dropped == Rows(keys, left);
    }
  }

  /** Trimming only moves items from the groups to the popped ones. */
  lemma {:induction false} TrimConserves(products: seq<Product>, merged: Groups, keys: seq<Uuid>)
    requires DistinctIds(products) && Visits(keys, merged)
    ensures multiset(Rows(keys, Trimmed(merged, StockOf(products)))) + multiset(Popped(products, merged))
      == multiset(Rows(keys, merged))
  {
    if products == [] {
      assert Trimmed(merged, map[]) == merged;
    } else {
      var i := |products| - 1;
      TrimConserves(products[..i], merged, keys);
      FreshRow(products, i);
      TrimOneConserves(keys, merged, StockOf(products[..i]), products[i].id, products[i].quantity);
    }
  }

  lemma TrimCounts(products: seq<Product>, merged: Groups, keys: seq<Uuid>, o: Uuid)
    requires DistinctIds(products) && Visits(keys, merged)
    ensures Count(Rows(keys, merged), o)
      == Count(Rows(keys, Trimmed(merged, StockOf(products))), o) + Count(Popped(products, merged), o)
  {
    var left, popped := Rows(keys, Trimmed(merged, StockOf(products))), Popped(products, merged);
    TrimConserves(products, merged, keys);
    SameItemsSameSelection(left + popped, Rows(keys, merged), OfOrder(o));
    CountConcat(left, popped, o);
  }

  /**
   * Database-order independence: two answers to the same query, in whatever order, pop the same
   * items, and so leave the same groups and the same orders (both are functions of these).
   */
  lemma RowOrderIrrelevant(a: seq<Product>, b: seq<Product>, merged: Groups, keys: seq<Uuid>)
    requires DistinctIds(a) && DistinctIds(b) && StockOf(a) == StockOf(b) && Visits(keys, merged)
    ensures multiset(Popped(a, merged)) == multiset(Popped(b, merged))
    ensures forall o :: Count(Popped(a, merged), o) == Count(Popped(b, merged), o)
  {
    TrimConserves(a, merged, keys);
    TrimConserves(b, merged, keys);
    var left := multiset(Rows(keys, Trimmed(merged, StockOf(a))));
    assert multiset(Popped(a, merged)) == left + multiset(Popped(a, merged)) - left;
    assert multiset(Popped(b, merged)) == left + multiset(Popped(b, merged)) - left;
    forall o ensures Count(Popped(a, merged), o) == Count(Popped(b, merged), o) {
      SameItemsSameSelection(Popped(a, merged), Popped(b, merged), OfOrder(o));
    }
  }

  /** The same, seen from the results: both runs panic or neither does, and the maps are equal. */
  lemma RowOrderSameMaps(a: seq<Product>, b: seq<Product>, merged: Groups, keys: seq<Uuid>, before: OrderMap,
      m: OrderMap, n: OrderMap)
    requires DistinctIds(a) && DistinctIds(b) && StockOf(a) == StockOf(b) && Visits(keys, merged)
    ensures Overdraws(Popped(a, merged), before) <==> Overdraws(Popped(b, merged), before)
    ensures ShortenedBy(before, m, Popped(a, merged)) && ShortenedBy(before, n, Popped(b, merged)) ==> m == n
  {
    RowOrderIrrelevant(a, b, merged, keys);
    if ShortenedBy(before, m, Popped(a, merged)) && ShortenedBy(before, n, Popped(b, merged)) {
      forall o | o in before ensures m[o] == n[o] {
        assert ShortenedAt(before[o], m[o], Count(Popped(a, merged), o));
        assert ShortenedAt(before[o], n[o], Count(Popped(b, merged), o));
      }
    }
  }

  lemma TrimmedIsStable(merged: Groups, stock: map<Uuid, Int32>)
    ensures Trimmed(Trimmed(merged, stock), stock) == Trimmed(merged, stock)
  {
    forall p | p in merged && p in stock {
      KeptIsStable(merged[p].items, stock[p]);
    }
  }

  /** Rows whose groups already fit pop nothing. */
  lemma {:induction false} NothingLeftToPop(products: seq<Product>, merged: Groups, n: nat)
    requires DistinctIds(products) && n <= |products| && Trimmed(merged, StockOf(products)) == merged
    ensures Popped(products[..n], merged) == []
  {
    if n > 0 {
      var row := products[n - 1];
      NothingLeftToPop(products, merged, n - 1);
      PoppedPush(products, merged, n - 1);
      RowIsStock(products, n - 1);
      if row.id in merged {
        assert merged[row.id].items == Kept(merged[row.id].items, row.quantity);
      }
      assert Dropped(ItemsOf(merged, row.id), row.quantity) == [];
    }
  }

  lemma {:induction false} RowIsStock(products: seq<Product>, i: nat)
    requires DistinctIds(products) && i < |products|
    ensures products[i].id in StockOf(products) && StockOf(products)[products[i].id] == products[i].quantity
    decreases |products|
  {
    var init := products[..|products| - 1];
    if i < |init| {
      RowIsStock(init, i);
      assert init[i] == products[i];
    }
  }

  /** Running the trim again with the same rows changes nothing: the groups stay, and no order loses an item. */
  lemma TrimIsIdempotent(products: seq<Product>, merged: Groups)
    requires DistinctIds(products)
    ensures var trimmed := Trimmed(merged, StockOf(products));
      Trimmed(trimmed, StockOf(products)) == trimmed && Popped(products, trimmed) == []
  {
    TrimmedIsStable(merged, StockOf(products));
    NothingLeftToPop(products, Trimmed(merged, StockOf(products)), |products|);
    assert products[..|products|] == products;
  }

  // ----- the counting invariant -----

  lemma WellFormedIsBalanced(orders: seq<CreateOrder>, mapOrder: OrderMap)
    requires WellFormed(orders) && FirstById(orders, mapOrder)
    ensures Balanced(AllItems(orders), mapOrder)
  {
    forall o | o in mapOrder ensures |mapOrder[o].orderItems| == Count(AllItems(orders), o) {
      var i :| FirstAt(orders, o, i) && mapOrder[o] == orders[i];
      OwnItems(orders, i);
    }
  }

  lemma PopMovesOne(keys: seq<Uuid>, merged: Groups, p: Uuid, entry: MergedOrderItem, x: OrderItem, o: Uuid)
    requires Visits(keys, merged) && p in merged && merged[p].items == entry.items + [x]
    ensures Count(Rows(keys, merged), o) == Count(Rows(keys, merged[p := entry]), o) + if x.orderId == o then 1 else 0
  {
    var popped := Rows(keys, merged[p := entry]);
    RowsExchange(keys, merged, p, entry);
    ExchangeDrops(Rows(keys, merged), popped, entry.items, [x]);
    SameItemsSameSelection(popped + [x], Rows(keys, merged), OfOrder(o));
    SelectPush(popped, x, OfOrder(o));
  }

  /** One pop keeps the invariant and finds its order's list non-empty, so it cannot panic. */
  lemma PopKeepsBalance(keys: seq<Uuid>, merged: Groups, p: Uuid, entry: MergedOrderItem, x: OrderItem,
      mapOrder: OrderMap)
    requires Visits(keys, merged) && Balanced(Rows(keys, merged), mapOrder)
    requires p in merged && merged[p].items == entry.items + [x]
    ensures match PopSlice(mapOrder, x.orderId)
      case Panic => false
      case Running(m) => Balanced(Rows(keys, merged[p := entry]), m)
  {
    var left := Rows(keys, merged[p := entry]);
    forall o ensures Count(Rows(keys, merged), o) == Count(left, o) + if x.orderId == o then 1 else 0 {
      PopMovesOne(keys, merged, p, entry, x, o);
    }
  }

  /** The groups while row i is being trimmed and the first k of its items are left. */
  ghost function LoopGroups(products: seq<Product>, merged: Groups, i: nat, k: nat): Groups
    requires i < |products| && k <= |ItemsOf(merged, products[i].id)|
  {
    var trimmed, p := Trimmed(merged, StockOf(products[..i])), products[i].id;
    if p in merged then trimmed[p := Group(merged[p].items[..k])] else trimmed
  }

  /** All that has been popped by then. */
  ghost function LoopPopped(products: seq<Product>, merged: Groups, i: nat, k: nat): seq<OrderItem>
    requires i < |products| && k <= |ItemsOf(merged, products[i].id)|
  {
    Popped(products[..i], merged) + ItemsOf(merged, products[i].id)[k..]
  }

  /** Cutting one group's items at k moves the rest of them out of the rows. */
  lemma CutCounts(keys: seq<Uuid>, groups: Groups, p: Uuid, items: seq<OrderItem>, k: nat, o: Uuid)
    requires Visits(keys, groups) && p in groups && groups[p].items == items && k <= |items|
    ensures Count(Rows(keys, groups), o)
      == Count(Rows(keys, groups[p := Group(items[..k])]), o) + Count(items[k..], o)
  {
    var left := Rows(keys, groups[p := Group(items[..k])]);
    assert items == items[..k] + items[k..];
    RowsExchange(keys, groups, p, Group(items[..k]));
    ExchangeDrops(Rows(keys, groups), left, items[..k], items[k..]);
    SameItemsSameSelection(left + items[k..], Rows(keys, groups), OfOrder(o));
    CountConcat(left, items[k..], o);
  }

  lemma LoopCounts(products: seq<Product>, merged: Groups, keys: seq<Uuid>, i: nat, k: nat, o: Uuid)
    requires DistinctIds(products) && Visits(keys, merged)
    requires i < |products| && k <= |ItemsOf(merged, products[i].id)|
    ensures Count(Rows(keys, merged), o)
      == Count(Rows(keys, LoopGroups(products, merged, i, k)), o) + Count(LoopPopped(products, merged, i, k), o)
  {
    var p, items := products[i].id, ItemsOf(merged, products[i].id);
    TrimCounts(products[..i], merged, keys, o);
    CountConcat(Popped(products[..i], merged), items[k..], o);
    FreshRow(products, i);
    if p in merged {
      CutCounts(keys, Trimmed(merged, StockOf(products[..i])), p, items, k, o);
    }
  }

  /** The count holds in every state of the two loops, between any two pops. */
  lemma LoopIsBalanced(products: seq<Product>, merged: Groups, keys: seq<Uuid>, i: nat, k: nat, before: OrderMap,
      now: OrderMap)
    requires DistinctIds(products) && Visits(keys, merged) && Balanced(Rows(keys, merged), before)
    requires i < |products| && k <= |ItemsOf(merged, products[i].id)|
    requires ShortenedBy(before, now, LoopPopped(products, merged, i, k))
    ensures Balanced(Rows(keys, LoopGroups(products, merged, i, k)), now)
  {
    forall o | o in now ensures |now[o].orderItems| == Count(Rows(keys, LoopGroups(products, merged, i, k)), o) {
      LoopCounts(products, merged, keys, i, k, o);
      assert ShortenedAt(before[o], now[o], Count(LoopPopped(products, merged, i, k), o));
    }
  }

  /** From a balanced start, no stock makes the trim panic, and it ends balanced. */
  lemma BalancedTrimIsSafe(products: seq<Product>, merged: Groups, keys: seq<Uuid>, mapOrder: OrderMap)
    requires DistinctIds(products) && Visits(keys, merged) && Balanced(Rows(keys, merged), mapOrder)
    ensures !Overdraws(Popped(products, merged), mapOrder)
    ensures forall after :: ShortenedBy(mapOrder, after, Popped(products, merged)) ==>
      Balanced(Rows(keys, Trimmed(merged, StockOf(products))), after)
  {
    forall o ensures Count(Rows(keys, merged), o)
      == Count(Rows(keys, Trimmed(merged, StockOf(products))), o) + Count(Popped(products, merged), o)
    {
      TrimCounts(products, merged, keys, o);
    }
  }

  // ----- batches that are not well formed -----

  /** No stock the database might hold makes the trim of this batch panic. */
  ghost predicate NeverPanics(merged: Groups, mapOrder: OrderMap) {
    forall products: seq<Product> ::
      DistinctIds(products) && (forall r :: r in products ==> r.quantity >= 0)
      ==> !Overdraws(Popped(products, merged), mapOrder)
  }

  /** The worst case: every product of the batch is sold out. */
  ghost function SoldOut(keys: seq<Uuid>): (products: seq<Product>)
    ensures |products| == |keys|
    ensures forall i :: 0 <= i < |keys| ==> products[i] == Product(keys[i], 0)
  {
    if keys == [] then [] else SoldOut(keys[..|keys| - 1]) + [Product(keys[|keys| - 1], 0)]
  }

  lemma {:induction false} SoldOutPopsAll(keys: seq<Uuid>, merged: Groups)
    requires forall p :: p in keys ==> Dropped(ItemsOf(merged, p), 0) == ItemsOf(merged, p)
    ensures Popped(SoldOut(keys), merged) == Rows(keys, merged)
  {
    if keys != [] {
      var init := keys[..|keys| - 1];
      SoldOutPopsAll(init, merged);
      assert SoldOut(keys)[..|init|] == SoldOut(init);
    }
  }

  ghost predicate Positive(items: seq<OrderItem>) {
    forall x :: x in items ==> x.quantity >= 1
  }

  lemma SelectPositive(items: seq<OrderItem>, sel: Selector)
    requires Positive(items)
    ensures Positive(Select(items, sel))
  {
    SelectMembers(items, sel);
  }

  lemma SoldOutPopsBatch(items: seq<OrderItem>, merged: Groups, o: Uuid)
    requires Grouping(items, merged) && Positive(items)
    requires forall p :: Sum(Select(items, OfProduct(p))) <= 0x8000_0000
    ensures Count(Popped(SoldOut(FirstAppearances(items)), merged), o) == Count(items, o)
  {
    var keys := FirstAppearances(items);
    forall p | p in keys ensures Dropped(ItemsOf(merged, p), 0) == ItemsOf(merged, p) {
      assert GroupAt(items, merged, p);
      SelectPositive(items, OfProduct(p));
      assert Sum(Select(items, OfProduct(p))) <= 0x8000_0000;
      SoldOutKeepsNone(ItemsOf(merged, p));
    }
    SoldOutPopsAll(keys, merged);
    GroupsAreSorted(items, merged);
    MergeConserves(items, merged, keys);
    SameItemsSameSelection(items, Rows(keys, merged), OfOrder(o));
  }

  lemma PopsAtMostAll(items: seq<OrderItem>, merged: Groups, products: seq<Product>, o: Uuid)
    requires Grouping(items, merged) && DistinctIds(products)
    ensures Count(Popped(products, merged), o) <= Count(items, o)
  {
    var keys := FirstAppearances(items);
    GroupsAreSorted(items, merged);
    MergeConserves(items, merged, keys);
    SameItemsSameSelection(items, Rows(keys, merged), OfOrder(o));
    TrimCounts(products, merged, keys, o);
  }

  /** No order id is named by more items than the first order with that id lists. */
  ghost predicate ClaimsCovered(items: seq<OrderItem>, mapOrder: OrderMap) {
    forall o :: o in mapOrder ==> Count(items, o) <= |mapOrder[o].orderItems|
  }

  lemma CoveredNeverPanics(items: seq<OrderItem>, merged: Groups, mapOrder: OrderMap)
    requires Grouping(items, merged) && ClaimsCovered(items, mapOrder)
    ensures NeverPanics(merged, mapOrder)
  {
    forall products: seq<Product>, o | DistinctIds(products)
      ensures Count(Popped(products, merged), o) <= Count(items, o)
    {
      PopsAtMostAll(items, merged, products, o);
    }
  }

  lemma PanicFreeIsCovered(items: seq<OrderItem>, merged: Groups, mapOrder: OrderMap)
    requires Grouping(items, merged) && Positive(items) && NeverPanics(merged, mapOrder)
    requires forall p :: Sum(Select(items, OfProduct(p))) <= 0x8000_0000
    ensures ClaimsCovered(items, mapOrder)
  {
    var soldOut := SoldOut(FirstAppearances(items));
    forall o | o in mapOrder ensures Count(items, o) <= |mapOrder[o].orderItems| {
      SoldOutPopsBatch(items, merged, o);
      assert !Overdraws(Popped(soldOut, merged), mapOrder);
    }
  }

  /**
   * The reslice can never panic if the claims are covered, whatever the quantities; and for positive
   * quantities with totals of at most 2^31 only then.
   */
  lemma PanicFreeExactlyWhen(items: seq<OrderItem>, merged: Groups, mapOrder: OrderMap)
    requires Grouping(items, merged)
    ensures ClaimsCovered(items, mapOrder) ==> NeverPanics(merged, mapOrder)
    ensures Positive(items) && (forall p :: Sum(Select(items, OfProduct(p))) <= 0x8000_0000) ==>
      (NeverPanics(merged, mapOrder) <==> ClaimsCovered(items, mapOrder))
  {
    if ClaimsCovered(items, mapOrder) {
      CoveredNeverPanics(items, merged, mapOrder);
    } else if Positive(items) && (forall p :: Sum(Select(items, OfProduct(p))) <= 0x8000_0000)
      && NeverPanics(merged, mapOrder)
    {
      PanicFreeIsCovered(items, merged, mapOrder);
    }
  }

  lemma SoldOutKeepsNone(items: seq<OrderItem>)
    requires Positive(items) && Sum(items) <= 0x8000_0000
    ensures Dropped(items, 0) == items
  {
    TailPopIsForwardScan(items, 0);
    assert items != [] ==> items[0] in items;
  }

  lemma SelectPair(x: OrderItem, y: OrderItem, sel: Selector)
    requires sel.Matches(x) == sel.Matches(y)
    ensures Select([x, y], sel) == if sel.Matches(x) then [x, y] else []
  {
    if sel.Matches(x) { SelectAll([x, y], sel); } else { SelectNone([x, y], sel); }
  }

  lemma PairOfOne(x: OrderItem, y: OrderItem, p: Uuid)
    requires x.productId == y.productId && x.quantity == y.quantity == 1
    ensures Sum(Select([x, y], OfProduct(p))) <= 2
  {
    SelectPair(x, y, OfProduct(p));
    SumHead([x, y]);
    SumHead([y]);
    assert [x, y][1..] == [y] && [y][1..] == [];
  }

  /** Two checkouts of the same cart in one batch: the second pop reslices an empty list. */
  lemma DuplicateOrderPanics(id: Uuid, user: Uuid, x: OrderItem, y: OrderItem, merged: Groups, mapOrder: OrderMap)
    requires x.orderId == y.orderId == id && x.productId == y.productId && x.quantity == y.quantity == 1
    requires Grouping([x, y], merged) && FirstById([CreateOrder(id, user, [x]), CreateOrder(id, user, [y])], mapOrder)
    ensures !NeverPanics(merged, mapOrder)
  {
    var orders := [CreateOrder(id, user, [x]), CreateOrder(id, user, [y])];
    assert orders[0].id in mapOrder;
    var i :| FirstAt(orders, id, i) && mapOrder[id] == orders[i];
    SelectPair(x, y, OfOrder(id));
    forall p ensures Sum(Select([x, y], OfProduct(p))) <= 2 {
      PairOfOne(x, y, p);
    }
    assert Count([x, y], id) > |mapOrder[id].orderItems|;
    PanicFreeExactlyWhen([x, y], merged, mapOrder);
  }
}
