/** The lemmas BatchCreateOrder is proved with, in the order of its statements. */
module BatchProof {
  import opened Domain
  import opened Items
  import opened Merge
  import opened Trim
  import opened Ledger
  import opened Database
  import opened Prepare
  import opened Batch

  /** What mergeOrderItems hands over, and the product rows read for it. */
  ghost predicate Started(seen: map<Uuid, Int32>, orders: seq<CreateOrder>, merged: Groups,
      mapOrder: OrderMap, ids: seq<Uuid>,
      products: seq<Product>) {
    && Grouping(AllItems(orders), merged)
    && FirstById(orders, mapOrder)
    && ids == FirstAppearances(AllItems(orders))
    && DistinctIds(products)
    && StockOf(products) == map p | p in seen && p in ids :: seen[p]
  }

  lemma TrimmedByTable(seen: map<Uuid, Int32>, orders: seq<CreateOrder>, merged: Groups,
      mapOrder: OrderMap, ids: seq<Uuid>,
      products: seq<Product>)
    requires Started(seen, orders, merged, mapOrder, ids, products)
    ensures Trimmed(merged, StockOf(products)) == Trimmed(merged, seen)
    ensures Visits(ids, merged) && Sorted(merged) && Totalled(merged)
    ensures merged == GroupsOf(AllItems(orders))
  {
    GroupsAreSorted(AllItems(orders), merged);
    GroupingIsUnique(AllItems(orders), merged);
  }

  /** The popped items of an order are those of the batch that do not survive. */
  lemma PoppedCount(seen: map<Uuid, Int32>, orders: seq<CreateOrder>, merged: Groups,
      mapOrder: OrderMap, ids: seq<Uuid>,
      products: seq<Product>, o: Uuid)
    requires Started(seen, orders, merged, mapOrder, ids, products)
    ensures Count(Popped(products, merged), o) ==
      Count(AllItems(orders), o) - Count(Survivors(AllItems(orders), seen), o)
  {
    TrimmedByTable(seen, orders, merged, mapOrder, ids, products);
    TrimCounts(products, merged, ids, o);
    MergeConserves(AllItems(orders), merged, ids);
    SameItemsSameSelection(AllItems(orders), Rows(ids, merged), OfOrder(o));
  }

  lemma PanicsWhenOverdrawn(seen: map<Uuid, Int32>, orders: seq<CreateOrder>, merged: Groups, mapOrder: OrderMap,
      ids: seq<Uuid>, products: seq<Product>)
    requires Started(seen, orders, merged, mapOrder, ids, products)
    ensures Overdraws(Popped(products, merged), mapOrder) <==> Overdrawn(orders, seen)
  {
    forall o ensures Count(Popped(products, merged), o) ==
      Count(AllItems(orders), o) - Count(Survivors(AllItems(orders), seen), o)
    {
      PoppedCount(seen, orders, merged, mapOrder, ids, products, o);
    }
    if o :| o in mapOrder && Count(Popped(products, merged), o) > |mapOrder[o].orderItems| {
      var i :| FirstAt(orders, o, i) && mapOrder[o] == orders[i];
      assert OverdrawnAt(orders, seen, i);
    }
    if Overdrawn(orders, seen) {
      var i :| 0 <= i < |orders| && OverdrawnAt(orders, seen, i);
      FirstIsMapped(orders, mapOrder, i);
    }
  }

  lemma FirstIsMapped(orders: seq<CreateOrder>, mapOrder: OrderMap, i: nat)
    requires i < |orders| && FirstById(orders, mapOrder) && FirstAt(orders, orders[i].id, i)
    ensures orders[i].id in mapOrder && mapOrder[orders[i].id] == orders[i]
  {
    var k :| FirstAt(orders, orders[i].id, k) && mapOrder[orders[i].id] == orders[k];
    assert !(i < k) && !(k < i);
  }

  lemma FirstIsUnique(orders: seq<CreateOrder>, o: Uuid, i: int, k: int)
    requires FirstAt(orders, o, i) && FirstAt(orders, o, k)
    ensures i == k
  {
    assert !(i < k) && !(k < i);
  }

  /** A batch of different carts is never overdrawn, whatever the stock. */
  lemma WellFormedNeverOverdrawn(orders: seq<CreateOrder>, stock: map<Uuid, Int32>)
    requires WellFormed(orders)
    ensures !Overdrawn(orders, stock)
  {
    forall i | 0 <= i < |orders| ensures !OverdrawnAt(orders, stock, i) {
      OwnItems(orders, i);
    }
  }

  /** A shortened order is the first with its id, and lists what the trim has left of it. */
  ghost predicate ShortAt(orders: seq<CreateOrder>, stock: map<Uuid, Int32>, o: Uuid, order: CreateOrder) {
    order.id == o && exists i ::
      FirstAt(orders, o, i) && order.userId == orders[i].userId && |order.orderItems| == ItemsLeft(orders, stock, i)
  }

  ghost predicate Shortened(orders: seq<CreateOrder>, stock: map<Uuid, Int32>, mapOrder: OrderMap) {
    && (forall i :: 0 <= i < |orders| ==> orders[i].id in mapOrder)
    && (forall o :: o in mapOrder ==> ShortAt(orders, stock, o, mapOrder[o]))
  }

  lemma ShortenedIsKeyed(before: OrderMap, after: OrderMap, popped: seq<OrderItem>, orders: seq<CreateOrder>)
    requires FirstById(orders, before) && ShortenedBy(before, after, popped)
    ensures Keyed(after)
  {
    forall o | o in after ensures after[o].id == o {
      assert ShortenedAt(before[o], after[o], Count(popped, o));
    }
  }

  lemma TrimShortens(seen: map<Uuid, Int32>, orders: seq<CreateOrder>, merged: Groups,
      mapOrder: OrderMap, ids: seq<Uuid>, products: seq<Product>, after: OrderMap)
    requires Started(seen, orders, merged, mapOrder, ids, products)
    requires ShortenedBy(mapOrder, after, Popped(products, merged))
    ensures Shortened(orders, seen, after)
  {
    forall o | o in after ensures ShortAt(orders, seen, o, after[o]) {
      var i :| FirstAt(orders, o, i) && mapOrder[o] == orders[i];
      PoppedCount(seen, orders, merged, mapOrder, ids, products, o);
      assert ShortenedAt(mapOrder[o], after[o], Count(Popped(products, merged), o));
    }
  }

  /** The orders of the map that still list an item are those the trim has left one. */
  lemma ListedOrders(orders: seq<CreateOrder>, stock: map<Uuid, Int32>, mapOrder: OrderMap, o: Uuid)
    requires Shortened(orders, stock, mapOrder)
    ensures o in mapOrder && mapOrder[o].orderItems != [] <==> StillLists(orders, stock, o)
  {
    if o in mapOrder {
      assert ShortAt(orders, stock, o, mapOrder[o]);
      var k :| FirstAt(orders, o, k) && |mapOrder[o].orderItems| == ItemsLeft(orders, stock, k);
      if i :| ListsAt(orders, stock, o, i) {
        FirstIsUnique(orders, o, i, k);
      }
      if mapOrder[o].orderItems != [] {
        assert ListsAt(orders, stock, o, k);
      }
    }
  }

  lemma {:induction false} FirstExists(orders: seq<CreateOrder>, o: Uuid, n: nat) returns (i: int)
    requires n < |orders| && orders[n].id == o
    ensures FirstAt(orders, o, i)
    decreases n
  {
    if j :| 0 <= j < n && orders[j].id == o {
      i := FirstExists(orders, o, j);
    } else {
      i := n;
    }
  }

  lemma WellFormedLeft(orders: seq<CreateOrder>, stock: map<Uuid, Int32>, i: nat)
    requires WellFormed(orders) && i < |orders|
    ensures ItemsLeft(orders, stock, i) == Count(Survivors(AllItems(orders), stock), orders[i].id)
  {
    OwnItems(orders, i);
  }

  /** In a well-formed batch an order still lists an item exactly when one of its items survives. */
  lemma WellFormedLists(orders: seq<CreateOrder>, stock: map<Uuid, Int32>, o: Uuid)
    requires WellFormed(orders)
    ensures StillLists(orders, stock, o) <==> Count(Survivors(AllItems(orders), stock), o) > 0
  {
    if i :| ListsAt(orders, stock, o, i) {
      WellFormedLeft(orders, stock, i);
    }
    if Count(Survivors(AllItems(orders), stock), o) > 0 {
      var n := SurvivorHasOrder(orders, stock, o);
      var i := FirstExists(orders, o, n);
      WellFormedLeft(orders, stock, i);
      assert ListsAt(orders, stock, o, i);
    }
  }

  lemma SurvivorHasOrder(orders: seq<CreateOrder>, stock: map<Uuid, Int32>, o: Uuid) returns (i: nat)
    requires WellFormed(orders) && Count(Survivors(AllItems(orders), stock), o) > 0
    ensures i < |orders| && orders[i].id == o
  {
    var survivors := Survivors(AllItems(orders), stock);
    var x := Select(survivors, OfOrder(o))[0];
    SelectMembers(survivors, OfOrder(o));
    SelectMembers(AllItems(orders), OfOrder(o));
    assert x in Select(survivors, OfOrder(o));
    SurvivorsAreItems(AllItems(orders), stock, x);
    assert x in Select(AllItems(orders), OfOrder(o));
    if forall k :: 0 <= k < |orders| ==> orders[k].id != o {
      ForeignOrderHasNone(orders, o);
      assert false;
    }
    i :| i < |orders| && orders[i].id == o;
  }

  // ----- the statements of the transaction -----

  /** For every product of the batch the CASE yields its kept total: it never falls through to NULL. */
  lemma CaseIsKeptTotal(seen: map<Uuid, Int32>, items: seq<OrderItem>, query: seq<When>, p: Uuid)
    requires IsQuery(query, Trimmed(GroupsOf(items), seen))
    ensures EvalCase(query, p) ==
      if p in FirstAppearances(items) then Some(Wrap32(Sum(KeptOf(items, seen, p)))) else None
    ensures p !in FirstAppearances(items) ==> KeptOf(items, seen, p) == []
  {
    BatchIsGrouped(items);
    GroupedProducts(items);
    TrimmedItems(items, GroupsOf(items), seen, p);
    AppearancesAreSelections(items);
  }

  lemma UpdateAccepted(db: Db, seen: map<Uuid, Int32>, items: seq<OrderItem>, query: seq<When>)
    requires IsQuery(query, Trimmed(GroupsOf(items), seen))
    ensures db.AcceptsUpdate(query, FirstAppearances(items)) <==> items != [] && InRange(db, seen, items)
  {
    QueryIsEmpty(seen, items, query);
    forall p | p in db.products
      ensures p in FirstAppearances(items) ==> EvalCase(query, p) == Some(Wrap32(Sum(KeptOf(items, seen, p))))
      ensures p !in FirstAppearances(items) ==> Wrap32(Sum(KeptOf(items, seen, p))) == 0
    {
      CaseIsKeptTotal(seen, items, query, p);
    }
  }

  lemma UpdateMeaning(db: Db, seen: map<Uuid, Int32>, items: seq<OrderItem>, query: seq<When>, db': Db, p: Uuid)
    requires IsQuery(query, Trimmed(GroupsOf(items), seen)) && p in db.products
    requires db.AcceptsUpdate(query, FirstAppearances(items)) && db' == db.Updated(query, FirstAppearances(items))
    ensures db'.products[p] == db.products[p] - Wrap32(Sum(KeptOf(items, seen, p)))
  {
    CaseIsKeptTotal(seen, items, query, p);
  }

  lemma QueryIsEmpty(seen: map<Uuid, Int32>, items: seq<OrderItem>, query: seq<When>)
    requires IsQuery(query, Trimmed(GroupsOf(items), seen))
    ensures query == [] <==> items == []
  {
    if items != [] {
      assert items[|items| - 1].productId in GroupsOf(items);
      assert items[|items| - 1].productId in Trimmed(GroupsOf(items), seen);
    }
  }

  /** The row of an order is that of the first request with its id. */
  ghost predicate IsFirstRow(orders: seq<CreateOrder>, stock: map<Uuid, Int32>, r: OrderRow) {
    exists i :: ListsAt(orders, stock, r.id, i) && r.userId == orders[i].userId
  }

  lemma RowIsFirst(seen: map<Uuid, Int32>, orders: seq<CreateOrder>, mapOrder: OrderMap, args: seq<OrderRow>,
      r: OrderRow)
    requires Shortened(orders, seen, mapOrder) && IsOrderArgs(args, mapOrder) && r in args
    ensures IsFirstRow(orders, seen, r)
  {
    assert r.id in OrderIds(args);
    assert ShortAt(orders, seen, r.id, mapOrder[r.id]);
    var i :| FirstAt(orders, r.id, i) && mapOrder[r.id].userId == orders[i].userId
      && |mapOrder[r.id].orderItems| == ItemsLeft(orders, seen, i);
    assert ListsAt(orders, seen, r.id, i);
  }

  /** Referential integrity, one way: the inserted orders are exactly those that still list an item. */
  lemma OrderArgsMeaning(db: Db, seen: map<Uuid, Int32>, orders: seq<CreateOrder>, mapOrder: OrderMap,
      args: seq<OrderRow>)
    requires Shortened(orders, seen, mapOrder) && IsOrderArgs(args, mapOrder)
    ensures forall o :: o in OrderIds(args) <==> StillLists(orders, seen, o)
    ensures AreFromBatch(args, orders)
    ensures db.AcceptsOrders(args) <==> OrdersWelcome(db, seen, orders)
  {
    forall o ensures o in OrderIds(args) <==> StillLists(orders, seen, o) {
      ListedOrders(orders, seen, mapOrder, o);
    }
    forall r | r in args ensures IsFirstRow(orders, seen, r) {
      RowIsFirst(seen, orders, mapOrder, args, r);
    }
    forall r | r in args ensures exists i :: 0 <= i < |orders| && orders[i].id == r.id && orders[i].userId == r.userId {
      var i :| ListsAt(orders, seen, r.id, i) && r.userId == orders[i].userId;
      assert orders[i].id == r.id;
    }
    OrdersAccepted(db, seen, orders, args);
  }

  lemma OrdersAccepted(db: Db, seen: map<Uuid, Int32>, orders: seq<CreateOrder>, args: seq<OrderRow>)
    requires |OrderIds(args)| == |args|
    requires forall o :: o in OrderIds(args) <==> StillLists(orders, seen, o)
    requires forall r :: r in args ==> IsFirstRow(orders, seen, r)
    ensures db.AcceptsOrders(args) <==> OrdersWelcome(db, seen, orders)
  {
    if db.AcceptsOrders(args) {
      forall o, i | ListsAt(orders, seen, o, i) ensures o !in OrderIds(db.orders) && orders[i].userId in db.users {
        assert StillLists(orders, seen, o);
        var r :| r in args && r.id == o;
        assert IsFirstRow(orders, seen, r);
        var k :| ListsAt(orders, seen, r.id, k) && r.userId == orders[k].userId;
        FirstIsUnique(orders, o, i, k);
      }
    }
    if OrdersWelcome(db, seen, orders) {
      forall r | r in args ensures r.id !in OrderIds(db.orders) && r.userId in db.users {
        assert IsFirstRow(orders, seen, r);
        var i :| ListsAt(orders, seen, r.id, i) && r.userId == orders[i].userId;
      }
    }
  }

  /** The trim never drops an item of a product it has no row for. */
  lemma UnknownIsKept(items: seq<OrderItem>, seen: map<Uuid, Int32>, kept: seq<OrderItem>, x: OrderItem)
    requires x in items && x.productId !in seen
    requires Select(kept, OfProduct(x.productId)) == KeptOf(items, seen, x.productId)
    ensures x in kept
  {
    SelectMembers(items, OfProduct(x.productId));
    SelectMembers(kept, OfProduct(x.productId));
    assert x in Select(kept, OfProduct(x.productId));
  }

  /** Referential integrity, the other way: an item needs its order, there before or among the rows just inserted. */
  lemma ItemArgsMeaning(db: Db, seen: map<Uuid, Int32>, orders: seq<CreateOrder>, args: seq<OrderItem>,
      orderArgs: seq<OrderRow>)
    requires seen.Keys <= db.products.Keys
    requires forall o :: o in OrderIds(orderArgs) <==> StillLists(orders, seen, o)
    requires forall p :: Select(args, OfProduct(p)) == KeptOf(AllItems(orders), seen, p)
    ensures db.(orders := db.orders + orderArgs).AcceptsItems(args) <==> ItemsWelcome(db, seen, orders)
  {
    var items := AllItems(orders);
    RowsAreSurvivors(items, seen, args);
    OrderIdsConcat(db.orders, orderArgs);
    forall x ensures x in args <==> x in Survivors(items, seen) {
      assert x in multiset(args) <==> x in multiset(Survivors(items, seen));
    }
    forall x | x in args ensures x in items {
      SurvivorsAreItems(items, seen, x);
    }
    forall x | x in items && x.productId !in seen ensures x in args {
      UnknownIsKept(items, seen, args, x);
    }
  }

  // ----- the answers -----

  /** A consistent table holds no item of an order it does not know. */
  lemma UnknownOrderHasNoItems(db: Db, o: Uuid)
    requires db.Consistent() && o !in OrderIds(db.orders)
    ensures Select(db.items, OfOrder(o)) == []
  {
    SelectNone(db.items, OfOrder(o));
  }

  /** All items of an order new to the tables are new. */
  lemma NewOrderItems(db: Db, db': Db, o: Uuid)
    requires db.Consistent() && db.orders <= db'.orders && db.items <= db'.items && o !in OrderIds(db.orders)
    ensures Select(db'.items, OfOrder(o)) == Select(NewItems(db, db'), OfOrder(o))
  {
    CommitAppends(db, db');
    SelectConcat(db.items, NewItems(db, db'), OfOrder(o));
    UnknownOrderHasNoItems(db, o);
  }

  lemma RowIsNew(before: seq<OrderRow>, after: seq<OrderRow>, row: OrderRow)
    requires before <= after && row in after && row.id !in OrderIds(before)
    ensures row in after[|before|..]
  {
    assert after == before + after[|before|..] && row !in before;
  }

  lemma NewOrderAnswer(db: Db, db': Db, ids: seq<Uuid>, rows: seq<GetOrdersRow>, r: GetOrdersRow)
    requires db.Consistent() && db.orders <= db'.orders && db.items <= db'.items
    requires IsOrdersAnswer(db', ids, rows) && r in rows && r.id !in OrderIds(db.orders)
    ensures multiset(r.orderItems) == multiset(Select(NewItems(db, db'), OfOrder(r.id)))
    ensures OrderRow(r.id, r.userId) in NewOrders(db, db')
  {
    NewOrderItems(db, db', r.id);
    RowIsNew(db.orders, db'.orders, OrderRow(r.id, r.userId));
  }

  lemma NewOrderIsRead(db: Db, db': Db, ids: seq<Uuid>, rows: seq<GetOrdersRow>, o: Uuid)
    requires db.orders <= db'.orders && db.items <= db'.items && IsOrdersAnswer(db', ids, rows)
    requires o in ids && o in OrderIds(NewOrders(db, db')) && Count(NewItems(db, db'), o) > 0
    ensures exists r :: r in rows && r.id == o
  {
    assert db'.items == db.items + NewItems(db, db') && db'.orders == db.orders + NewOrders(db, db');
    CountConcat(db.items, NewItems(db, db'), o);
    var row :| row in NewOrders(db, db') && row.id == o;
    assert row in db'.orders;
  }

  /** The map lists as many items of each order as were inserted for it. */
  ghost predicate ListsNew(mapOrder: OrderMap, items: seq<OrderItem>) {
    && (forall o :: o in mapOrder ==> |mapOrder[o].orderItems| == Count(items, o))
    && (forall o :: Count(items, o) > 0 ==> o in mapOrder)
  }

  lemma ResponsesAnswer(db: Db, db': Db, ids: seq<Uuid>, rows: seq<GetOrdersRow>,
      mapOrder: OrderMap, responses: map<Uuid, Order>)
    requires db.Consistent() && db.orders <= db'.orders && db.items <= db'.items
    requires ListsNew(mapOrder, NewItems(db, db')) && forall o :: o in mapOrder ==> o in ids
    requires forall o :: o in OrderIds(NewOrders(db, db')) <==> Count(NewItems(db, db'), o) > 0
    requires OrderIds(NewOrders(db, db')) !! OrderIds(db.orders)
    requires IsOrdersAnswer(db', ids, rows) && IsResponses(responses, rows, mapOrder)
    ensures Answers(db, db', responses)
  {
    forall o | Count(NewItems(db, db'), o) > 0 ensures o in responses {
      assert o in OrderIds(NewOrders(db, db'));
      NewOrderIsRead(db, db', ids, rows, o);
      assert |mapOrder[o].orderItems| == Count(NewItems(db, db'), o);
    }
    forall o | o in responses
      ensures Count(NewItems(db, db'), o) > 0 && responses[o].id == o
      ensures OrderRow(o, responses[o].userId) in NewOrders(db, db')
      ensures multiset(responses[o].orderItems) == multiset(Select(NewItems(db, db'), OfOrder(o)))
    {
      assert |mapOrder[o].orderItems| == Count(NewItems(db, db'), o);
      var r :| r in rows && r.id == o && responses[o] == Order(r.id, r.userId, r.orderItems);
      assert o in OrderIds(NewOrders(db, db'));
      NewOrderAnswer(db, db', ids, rows, r);
    }
  }

  // ----- the outcome -----

  /** The first call that stops ends the batch with the database as it was. */
  lemma FailedStep(db: Db, orders: seq<CreateOrder>, faults: set<Call>, call: Call)
    requires FailsAt(db, orders, faults, call)
    ensures BatchStep(db, orders, faults, Failed(call), db)
  {
  }

  lemma PanickedStep(db: Db, orders: seq<CreateOrder>, faults: set<Call>)
    requires orders != [] && faults !! {BeginCall, ReadProductsCall} && Overdrawn(orders, db.products)
    ensures BatchStep(db, orders, faults, Panicked, db)
  {
  }

  /** What the statements have written by the time of the commit. */
  ghost predicate Written(db: Db, seen: map<Uuid, Int32>, items: seq<OrderItem>,
      orderArgs: seq<OrderRow>, itemArgs: seq<OrderItem>, db': Db) {
    && db'.users == db.users && db'.products.Keys == db.products.Keys
    && (forall p :: p in db.products ==> db'.products[p] == db.products[p] - Wrap32(Sum(KeptOf(items, seen, p))))
    && db'.orders == db.orders + orderArgs && db'.items == db.items + itemArgs
  }

  lemma WrittenCommits(db: Db, seen: map<Uuid, Int32>, orders: seq<CreateOrder>,
      orderArgs: seq<OrderRow>, itemArgs: seq<OrderItem>, db': Db)
    requires seen.Keys <= db.products.Keys
    requires Written(db, seen, AllItems(orders), orderArgs, itemArgs, db')
    requires forall p :: Select(itemArgs, OfProduct(p)) == KeptOf(AllItems(orders), seen, p)
    requires forall x :: x in itemArgs ==> x.productId in db.products
    ensures Applies(db, seen, orders, db')
    ensures NewItems(db, db') == itemArgs && NewOrders(db, db') == orderArgs
  {
    var items := AllItems(orders);
    forall x | x in items && x.productId !in seen ensures x in itemArgs {
      UnknownIsKept(items, seen, itemArgs, x);
    }
  }

  lemma CommittedStep(db: Db, orders: seq<CreateOrder>, responses: map<Uuid, Order>, db': Db)
    requires orders != [] && !Overdrawn(orders, db.products) && Admissible(db, orders)
    requires StockCommits(db, orders, db') && KeysCommit(db, orders, db')
    requires forall o :: o in OrderIds(NewOrders(db, db')) <==> StillLists(orders, db.products, o)
    requires WellFormed(orders) ==> OrderCommits(db, orders, db')
    requires WellFormed(orders) && db.Consistent() ==> Answers(db, db', responses)
    ensures BatchStep(db, orders, {}, Committed(responses), db')
  {
  }

  /** The two maps and the id lists as they are once the trim is done. */
  ghost predicate Planned(seen: map<Uuid, Int32>, orders: seq<CreateOrder>, merged: Groups,
      mapOrder: OrderMap, productIds: seq<Uuid>) {
    var items := AllItems(orders);
    && productIds == FirstAppearances(items)
    && merged == Trimmed(GroupsOf(items), seen)
    && Keyed(mapOrder)
    && Shortened(orders, seen, mapOrder)
  }

  lemma TrimPlans(seen: map<Uuid, Int32>, orders: seq<CreateOrder>, merged: Groups, mapOrder: OrderMap, ids: seq<Uuid>,
      products: seq<Product>, after: OrderMap)
    requires Started(seen, orders, merged, mapOrder, ids, products)
    requires ShortenedBy(mapOrder, after, Popped(products, merged))
    ensures Planned(seen, orders, Trimmed(merged, StockOf(products)), after, ids)
  {
    TrimmedByTable(seen, orders, merged, mapOrder, ids, products);
    ShortenedIsKeyed(mapOrder, after, Popped(products, merged), orders);
    TrimShortens(seen, orders, merged, mapOrder, ids, products, after);
  }

  lemma PlannedIsSorted(seen: map<Uuid, Int32>, orders: seq<CreateOrder>, merged: Groups,
      mapOrder: OrderMap, ids: seq<Uuid>)
    requires Planned(seen, orders, merged, mapOrder, ids)
    ensures Sorted(merged)
    ensures forall p :: ItemsOf(merged, p) == KeptOf(AllItems(orders), seen, p)
  {
    var items := AllItems(orders);
    BatchIsGrouped(items);
    GroupsAreSorted(items, GroupsOf(items));
    TrimmedIsSorted(GroupsOf(items), seen);
    forall p ensures ItemsOf(merged, p) == KeptOf(items, seen, p) {
      TrimmedItems(items, GroupsOf(items), seen, p);
    }
  }

  lemma WrittenKeys(db: Db, seen: map<Uuid, Int32>, orders: seq<CreateOrder>,
      orderArgs: seq<OrderRow>, itemArgs: seq<OrderItem>, db': Db)
    requires Written(db, seen, AllItems(orders), orderArgs, itemArgs, db')
    requires NewItems(db, db') == itemArgs && NewOrders(db, db') == orderArgs
    requires AreFromBatch(orderArgs, orders) && db.AcceptsOrders(orderArgs)
    requires db.(orders := db.orders + orderArgs).AcceptsItems(itemArgs)
    ensures KeysCommit(db, orders, db')
  {
  }

  // ----- from the statements to the contract -----

  /** The maps and id lists of one call, before and after the trim. */
  datatype Plan = Plan(
    merged0: Groups, mapOrder0: OrderMap, productIds: seq<Uuid>, orderIds: seq<Uuid>,
    products: seq<Product>, merged: Groups, mapOrder: OrderMap)

  /** What its three writing statements are given. */
  datatype Writes = Writes(query: seq<When>, orderArgs: seq<OrderRow>, itemArgs: seq<OrderItem>)

  ghost predicate PlanStarts(seen: map<Uuid, Int32>, orders: seq<CreateOrder>, t: Plan) {
    && Started(seen, orders, t.merged0, t.mapOrder0, t.productIds, t.products)
    && (forall i :: 0 <= i < |orders| ==> orders[i].id in t.orderIds)
  }

  ghost predicate PlanFits(t: Plan) {
    !Overdraws(Popped(t.products, t.merged0), t.mapOrder0)
  }

  ghost predicate PlanTrims(t: Plan) {
    && t.merged == Trimmed(t.merged0, StockOf(t.products))
    && ShortenedBy(t.mapOrder0, t.mapOrder, Popped(t.products, t.merged0))
  }

  ghost predicate UpdateRuns(db: Db, t: Plan, w: Writes) {
    IsQuery(w.query, t.merged) && db.AcceptsUpdate(w.query, t.productIds)
  }

  ghost predicate OrdersRun(db: Db, t: Plan, w: Writes) {
    IsOrderArgs(w.orderArgs, t.mapOrder) && db.AcceptsOrders(w.orderArgs)
  }

  ghost predicate ItemsRun(db: Db, t: Plan, w: Writes) {
    IsItemArgs(w.itemArgs, t.merged) && db.(orders := db.orders + w.orderArgs).AcceptsItems(w.itemArgs)
  }

  ghost predicate AllRun(db: Db, faults: set<Call>, t: Plan, w: Writes) {
    && UpdateCall !in faults && InsertOrdersCall !in faults && InsertItemsCall !in faults
    && UpdateRuns(db, t, w) && OrdersRun(db, t, w) && ItemsRun(db, t, w)
  }

  /** The three writing statements, up to the first that fails. */
  ghost predicate TraceWrites(db: Db, faults: set<Call>, t: Plan, w: Writes, failed: Option<Call>, view: Db) {
    match failed
    // `view` is the transaction's view in the end; a failed statement leaves it to be rolled back
    case Some(UpdateCall) =>
      IsQuery(w.query, t.merged) && (UpdateCall in faults || !db.AcceptsUpdate(w.query, t.productIds))
    case Some(InsertOrdersCall) =>
      && UpdateCall !in faults && UpdateRuns(db, t, w)
      && IsOrderArgs(w.orderArgs, t.mapOrder)
      && (InsertOrdersCall in faults || !db.AcceptsOrders(w.orderArgs))
    case Some(InsertItemsCall) =>
      && UpdateCall !in faults && InsertOrdersCall !in faults && UpdateRuns(db, t, w) && OrdersRun(db, t, w)
      && IsItemArgs(w.itemArgs, t.merged)
      && (InsertItemsCall in faults || !db.(orders := db.orders + w.orderArgs).AcceptsItems(w.itemArgs))
    case Some(_) => false
    case None =>
      && AllRun(db, faults, t, w)
      && view == db.(products := db.Updated(w.query, t.productIds).products,
                     orders := db.orders + w.orderArgs, items := db.items + w.itemArgs)
  }

  /** The statements after the trim, up to one that fails: all before it have run. */
  ghost predicate ExecutionFails(db: Db, faults: set<Call>, t: Plan, w: Writes, call: Call) {
    match call
    case BeginCall => false
    case ReadProductsCall => false
    case ReadOrdersCall => AllRun(db, faults, t, w) && ReadOrdersCall in faults
    case CommitCall => AllRun(db, faults, t, w) && ReadOrdersCall !in faults && CommitCall in faults
    case _ => TraceWrites(db, faults, t, w, Some(call), db)
  }

  ghost predicate TraceFailure(db: Db, orders: seq<CreateOrder>, faults: set<Call>, t: Plan, w: Writes, call: Call) {
    match call
    case BeginCall => BeginCall in faults
    case ReadProductsCall => BeginCall !in faults && ReadProductsCall in faults
    case _ =>
      && faults !! {BeginCall, ReadProductsCall} && PlanStarts(db.products, orders, t) && PlanFits(t) && PlanTrims(t)
      && ExecutionFails(db, faults, t, w, call)
  }

  ghost predicate Traced(db: Db, orders: seq<CreateOrder>, faults: set<Call>, t: Plan, w: Writes,
      rows: seq<GetOrdersRow>, outcome: Outcome, db': Db) {
    && (orders == [] <==> outcome.NoOrders?)
    && (!outcome.Committed? ==> db' == db)
    && match outcome
       case NoOrders => true
       case Panicked => faults !! {BeginCall, ReadProductsCall} && PlanStarts(db.products, orders, t) && !PlanFits(t)
       case Failed(call) => TraceFailure(db, orders, faults, t, w, call)
       case Committed(responses) =>
         && faults == {} && PlanStarts(db.products, orders, t) && PlanFits(t) && PlanTrims(t)
         && TraceWrites(db, faults, t, w, None, db')
         && IsOrdersAnswer(db', t.orderIds, rows)
         && IsResponses(responses, rows, t.mapOrder)
  }

  lemma ReadFailureTraced(db: Db, orders: seq<CreateOrder>, faults: set<Call>, t: Plan, w: Writes,
      rows: seq<GetOrdersRow>)
    requires orders != [] && BeginCall !in faults && ReadProductsCall in faults
    ensures Traced(db, orders, faults, t, w, rows, Failed(ReadProductsCall), db)
  {
  }

  lemma PanicTraced(db: Db, orders: seq<CreateOrder>, faults: set<Call>, t: Plan, w: Writes, rows: seq<GetOrdersRow>)
    requires orders != [] && BeginCall !in faults && ReadProductsCall !in faults
    requires PlanStarts(db.products, orders, t) && !PlanFits(t)
    ensures Traced(db, orders, faults, t, w, rows, Panicked, db)
  {
  }

  lemma ExecutionTraced(db: Db, orders: seq<CreateOrder>, faults: set<Call>, t: Plan, w: Writes,
      rows: seq<GetOrdersRow>, call: Call)
    requires orders != [] && BeginCall !in faults && ReadProductsCall !in faults
    requires PlanStarts(db.products, orders, t) && PlanFits(t) && PlanTrims(t) && ExecutionFails(db, faults, t, w, call)
    ensures Traced(db, orders, faults, t, w, rows, Failed(call), db)
  {
  }

  lemma CommitTraced(db: Db, orders: seq<CreateOrder>, faults: set<Call>, t: Plan, w: Writes,
      rows: seq<GetOrdersRow>, responses: map<Uuid, Order>, db': Db)
    requires orders != [] && faults == {}
    requires PlanStarts(db.products, orders, t) && PlanFits(t) && PlanTrims(t)
    requires TraceWrites(db, faults, t, w, None, db')
    requires IsOrdersAnswer(db', t.orderIds, rows) && IsResponses(responses, rows, t.mapOrder)
    ensures Traced(db, orders, faults, t, w, rows, Committed(responses), db')
  {
  }

  lemma TracePlans(seen: map<Uuid, Int32>, orders: seq<CreateOrder>, t: Plan)
    requires PlanStarts(seen, orders, t) && PlanTrims(t)
    ensures Planned(seen, orders, t.merged, t.mapOrder, t.productIds)
  {
    TrimPlans(seen, orders, t.merged0, t.mapOrder0, t.productIds, t.products, t.mapOrder);
  }

  lemma UpdateJudged(db: Db, seen: map<Uuid, Int32>, orders: seq<CreateOrder>, t: Plan, w: Writes)
    requires Planned(seen, orders, t.merged, t.mapOrder, t.productIds) && IsQuery(w.query, t.merged)
    ensures db.AcceptsUpdate(w.query, t.productIds) <==> !Refused(db, seen, orders, UpdateCall)
  {
    UpdateAccepted(db, seen, AllItems(orders), w.query);
  }

  lemma OrdersJudged(db: Db, seen: map<Uuid, Int32>, orders: seq<CreateOrder>, t: Plan, w: Writes)
    requires Planned(seen, orders, t.merged, t.mapOrder, t.productIds) && IsOrderArgs(w.orderArgs, t.mapOrder)
    ensures db.AcceptsOrders(w.orderArgs) <==> !Refused(db, seen, orders, InsertOrdersCall)
    ensures forall o :: o in OrderIds(w.orderArgs) <==> StillLists(orders, seen, o)
    ensures AreFromBatch(w.orderArgs, orders)
  {
    OrderArgsMeaning(db, seen, orders, t.mapOrder, w.orderArgs);
  }

  lemma ItemsJudged(db: Db, seen: map<Uuid, Int32>, orders: seq<CreateOrder>, t: Plan, w: Writes)
    requires seen.Keys <= db.products.Keys
    requires Planned(seen, orders, t.merged, t.mapOrder, t.productIds)
    requires IsOrderArgs(w.orderArgs, t.mapOrder) && IsItemArgs(w.itemArgs, t.merged)
    ensures db.(orders := db.orders + w.orderArgs).AcceptsItems(w.itemArgs)
      <==> !Refused(db, seen, orders, InsertItemsCall)
  {
    OrdersJudged(db, seen, orders, t, w);
    PlannedIsSorted(seen, orders, t.merged, t.mapOrder, t.productIds);
    ItemArgsMeaning(db, seen, orders, w.itemArgs, w.orderArgs);
  }

  lemma AllRunUnrefused(db: Db, seen: map<Uuid, Int32>, orders: seq<CreateOrder>, faults: set<Call>, t: Plan, w: Writes)
    requires seen.Keys <= db.products.Keys
    requires Planned(seen, orders, t.merged, t.mapOrder, t.productIds) && AllRun(db, faults, t, w)
    ensures !Refused(db, seen, orders, UpdateCall)
    ensures !Refused(db, seen, orders, InsertOrdersCall) && !Refused(db, seen, orders, InsertItemsCall)
  {
    UpdateJudged(db, seen, orders, t, w);
    OrdersJudged(db, seen, orders, t, w);
    ItemsJudged(db, seen, orders, t, w);
  }

  lemma UnrefusedIsAdmissible(db: Db, seen: map<Uuid, Int32>, orders: seq<CreateOrder>)
    ensures AdmissibleFor(db, seen, orders) <==>
      && !Refused(db, seen, orders, UpdateCall)
      && !Refused(db, seen, orders, InsertOrdersCall) && !Refused(db, seen, orders, InsertItemsCall)
  {
  }

  /** No call before `call` is faulty, and none is refused. */
  ghost predicate RunsUpTo(db: Db, orders: seq<CreateOrder>, faults: set<Call>, call: Call) {
    var reading := call.BeginCall? || call.ReadProductsCall?;
    var writing := call.UpdateCall? || call.InsertOrdersCall? || call.InsertItemsCall?;
    && (!call.BeginCall? ==> BeginCall !in faults)
    && (!reading ==> ReadProductsCall !in faults)
    && (!reading && !call.UpdateCall? ==>
        UpdateCall !in faults && !Refused(db, db.products, orders, UpdateCall))
    && (call.InsertItemsCall? || (!reading && !writing) ==>
        InsertOrdersCall !in faults && !Refused(db, db.products, orders, InsertOrdersCall))
    && (!reading && !writing ==>
        InsertItemsCall !in faults && !Refused(db, db.products, orders, InsertItemsCall))
    && (call.CommitCall? ==> ReadOrdersCall !in faults)
  }

  lemma NothingStopsBefore(db: Db, orders: seq<CreateOrder>, faults: set<Call>, call: Call)
    requires RunsUpTo(db, orders, faults, call)
    ensures forall e: Call :: Rank(e) < Rank(call) ==> !Stops(db, orders, faults, e)
  {
    forall e: Call | Rank(e) < Rank(call) ensures !Stops(db, orders, faults, e) {
      match e {
        case BeginCall =>
        case ReadProductsCall =>
        case UpdateCall =>
        case InsertOrdersCall =>
        case InsertItemsCall =>
        case ReadOrdersCall =>
        case CommitCall =>
      }
    }
  }

  lemma UpdateFails(db: Db, orders: seq<CreateOrder>, faults: set<Call>, t: Plan, w: Writes)
    requires Planned(db.products, orders, t.merged, t.mapOrder, t.productIds)
    requires TraceWrites(db, faults, t, w, Some(UpdateCall), db) && faults !! {BeginCall, ReadProductsCall}
    ensures Stops(db, orders, faults, UpdateCall)
  {
    UpdateJudged(db, db.products, orders, t, w);
  }

  lemma InsertOrdersFails(db: Db, orders: seq<CreateOrder>, faults: set<Call>, t: Plan, w: Writes)
    requires Planned(db.products, orders, t.merged, t.mapOrder, t.productIds)
    requires TraceWrites(db, faults, t, w, Some(InsertOrdersCall), db) && faults !! {BeginCall, ReadProductsCall}
    ensures Stops(db, orders, faults, InsertOrdersCall)
    ensures !Refused(db, db.products, orders, UpdateCall) && UpdateCall !in faults
  {
    UpdateJudged(db, db.products, orders, t, w);
    OrdersJudged(db, db.products, orders, t, w);
  }

  lemma InsertItemsFails(db: Db, orders: seq<CreateOrder>, faults: set<Call>, t: Plan, w: Writes)
    requires Planned(db.products, orders, t.merged, t.mapOrder, t.productIds)
    requires TraceWrites(db, faults, t, w, Some(InsertItemsCall), db) && faults !! {BeginCall, ReadProductsCall}
    ensures Stops(db, orders, faults, InsertItemsCall)
    ensures !Refused(db, db.products, orders, UpdateCall) && UpdateCall !in faults
    ensures !Refused(db, db.products, orders, InsertOrdersCall) && InsertOrdersCall !in faults
  {
    UpdateJudged(db, db.products, orders, t, w);
    OrdersJudged(db, db.products, orders, t, w);
    ItemsJudged(db, db.products, orders, t, w);
  }

  /** A failed writing statement is the first that stops. */
  lemma WriteFails(db: Db, orders: seq<CreateOrder>, faults: set<Call>, t: Plan, w: Writes, call: Call)
    requires Planned(db.products, orders, t.merged, t.mapOrder, t.productIds)
    requires TraceWrites(db, faults, t, w, Some(call), db) && faults !! {BeginCall, ReadProductsCall}
    ensures Stops(db, orders, faults, call)
    ensures call.UpdateCall? || call.InsertOrdersCall? || call.InsertItemsCall?
    ensures !call.UpdateCall? ==> !Refused(db, db.products, orders, UpdateCall) && UpdateCall !in faults
    ensures call.InsertItemsCall? ==>
      !Refused(db, db.products, orders, InsertOrdersCall) && InsertOrdersCall !in faults
  {
    match call {
      case UpdateCall => UpdateFails(db, orders, faults, t, w);
      case InsertOrdersCall => InsertOrdersFails(db, orders, faults, t, w);
      case InsertItemsCall => InsertItemsFails(db, orders, faults, t, w);
    }
  }

  /** Once all writing statements have run, only the environment can stop the call. */
  lemma LateFailure(db: Db, orders: seq<CreateOrder>, faults: set<Call>, t: Plan, w: Writes, call: Call)
    requires Planned(db.products, orders, t.merged, t.mapOrder, t.productIds) && AllRun(db, faults, t, w)
    requires faults !! {BeginCall, ReadProductsCall} && call in faults
    requires call.ReadOrdersCall? || (call.CommitCall? && ReadOrdersCall !in faults)
    ensures RunsUpTo(db, orders, faults, call)
  {
    AllRunUnrefused(db, db.products, orders, faults, t, w);
  }

  lemma PlanIsNotOverdrawn(seen: map<Uuid, Int32>, orders: seq<CreateOrder>, t: Plan)
    requires PlanStarts(seen, orders, t)
    ensures PlanFits(t) <==> !Overdrawn(orders, seen)
  {
    PanicsWhenOverdrawn(seen, orders, t.merged0, t.mapOrder0, t.productIds, t.products);
  }

  lemma FailureRunsUpTo(db: Db, orders: seq<CreateOrder>, faults: set<Call>, t: Plan, w: Writes, call: Call)
    requires TraceFailure(db, orders, faults, t, w, call)
    ensures Stops(db, orders, faults, call) && RunsUpTo(db, orders, faults, call)
    ensures Rank(call) >= Rank(UpdateCall) ==> !Overdrawn(orders, db.products)
  {
    if !call.BeginCall? && !call.ReadProductsCall? {
      PlanIsNotOverdrawn(db.products, orders, t);
      TracePlans(db.products, orders, t);
      if call.ReadOrdersCall? || call.CommitCall? {
        LateFailure(db, orders, faults, t, w, call);
      } else {
        WriteFails(db, orders, faults, t, w, call);
      }
    }
  }

  lemma FailureIsFirstStop(db: Db, orders: seq<CreateOrder>, faults: set<Call>, t: Plan, w: Writes, call: Call)
    requires orders != [] && TraceFailure(db, orders, faults, t, w, call)
    ensures FailsAt(db, orders, faults, call)
  {
    FailureRunsUpTo(db, orders, faults, t, w, call);
    NothingStopsBefore(db, orders, faults, call);
  }

  lemma WritesAreWritten(db: Db, seen: map<Uuid, Int32>, orders: seq<CreateOrder>, t: Plan, w: Writes, db': Db)
    requires Planned(seen, orders, t.merged, t.mapOrder, t.productIds) && TraceWrites(db, {}, t, w, None, db')
    ensures Written(db, seen, AllItems(orders), w.orderArgs, w.itemArgs, db')
  {
    var updated := db.Updated(w.query, t.productIds);
    forall p | p in db.products
      ensures updated.products[p] == db.products[p] - Wrap32(Sum(KeptOf(AllItems(orders), seen, p)))
    {
      UpdateMeaning(db, seen, AllItems(orders), w.query, updated, p);
    }
  }

  lemma WritesCommit(db: Db, seen: map<Uuid, Int32>, orders: seq<CreateOrder>, t: Plan, w: Writes, db': Db)
    requires seen.Keys <= db.products.Keys
    requires Planned(seen, orders, t.merged, t.mapOrder, t.productIds) && TraceWrites(db, {}, t, w, None, db')
    ensures Applies(db, seen, orders, db')
    ensures NewItems(db, db') == w.itemArgs && NewOrders(db, db') == w.orderArgs
    ensures Written(db, seen, AllItems(orders), w.orderArgs, w.itemArgs, db')
    ensures forall p :: Select(w.itemArgs, OfProduct(p)) == KeptOf(AllItems(orders), seen, p)
  {
    WritesAreWritten(db, seen, orders, t, w, db');
    PlannedIsSorted(seen, orders, t.merged, t.mapOrder, t.productIds);
    WrittenCommits(db, seen, orders, w.orderArgs, w.itemArgs, db');
  }

  /** Whatever the batch, a commit adds exactly the orders that still list an item, and keeps the keys. */
  lemma WritesCommitKeys(db: Db, seen: map<Uuid, Int32>, orders: seq<CreateOrder>, t: Plan, w: Writes, db': Db)
    requires seen.Keys <= db.products.Keys
    requires Planned(seen, orders, t.merged, t.mapOrder, t.productIds) && TraceWrites(db, {}, t, w, None, db')
    requires Applies(db, seen, orders, db')
    ensures KeysCommit(db, orders, db')
    ensures forall o :: o in OrderIds(NewOrders(db, db')) <==> StillLists(orders, seen, o)
  {
    WritesCommit(db, seen, orders, t, w, db');
    OrdersJudged(db, seen, orders, t, w);
    WrittenKeys(db, seen, orders, w.orderArgs, w.itemArgs, db');
  }

  /** In a well-formed batch these are the orders with a new item. */
  lemma WellFormedCommits(db: Db, seen: map<Uuid, Int32>, orders: seq<CreateOrder>, db': Db)
    requires WellFormed(orders) && Applies(db, seen, orders, db') && KeysCommit(db, orders, db')
    requires forall o :: o in OrderIds(NewOrders(db, db')) <==> StillLists(orders, seen, o)
    ensures OrderCommits(db, orders, db')
  {
    RowsAreSurvivors(AllItems(orders), seen, NewItems(db, db'));
    forall o ensures StillLists(orders, seen, o) <==> Count(NewItems(db, db'), o) > 0 {
      WellFormedLists(orders, seen, o);
    }
  }

  lemma WellFormedListsNew(seen: map<Uuid, Int32>, orders: seq<CreateOrder>, mapOrder: OrderMap, items: seq<OrderItem>)
    requires WellFormed(orders) && Shortened(orders, seen, mapOrder)
    requires forall p :: Select(items, OfProduct(p)) == KeptOf(AllItems(orders), seen, p)
    ensures ListsNew(mapOrder, items)
  {
    RowsAreSurvivors(AllItems(orders), seen, items);
    forall o | o in mapOrder ensures |mapOrder[o].orderItems| == Count(items, o) {
      assert ShortAt(orders, seen, o, mapOrder[o]);
      var i :| FirstAt(orders, o, i) && |mapOrder[o].orderItems| == ItemsLeft(orders, seen, i);
      WellFormedLeft(orders, seen, i);
    }
    forall o | Count(items, o) > 0 ensures o in mapOrder {
      WellFormedLists(orders, seen, o);
      ListedOrders(orders, seen, mapOrder, o);
    }
  }

  lemma MapIsRead(seen: map<Uuid, Int32>, orders: seq<CreateOrder>, mapOrder: OrderMap, ids: seq<Uuid>)
    requires Shortened(orders, seen, mapOrder) && forall i :: 0 <= i < |orders| ==> orders[i].id in ids
    ensures forall o :: o in mapOrder ==> o in ids
  {
    forall o | o in mapOrder ensures o in ids {
      assert ShortAt(orders, seen, o, mapOrder[o]);
    }
  }

  lemma TracedCommitIsStep(db: Db, orders: seq<CreateOrder>, t: Plan, w: Writes, rows: seq<GetOrdersRow>,
      responses: map<Uuid, Order>, db': Db)
    requires Traced(db, orders, {}, t, w, rows, Committed(responses), db')
    ensures BatchStep(db, orders, {}, Committed(responses), db')
  {
    PlanIsNotOverdrawn(db.products, orders, t);
    TracePlans(db.products, orders, t);
    AllRunUnrefused(db, db.products, orders, {}, t, w);
    UnrefusedIsAdmissible(db, db.products, orders);
    WritesCommit(db, db.products, orders, t, w, db');
    WritesCommitKeys(db, db.products, orders, t, w, db');
    if WellFormed(orders) {
      WellFormedCommits(db, db.products, orders, db');
      if db.Consistent() {
        WellFormedListsNew(db.products, orders, t.mapOrder, NewItems(db, db'));
        MapIsRead(db.products, orders, t.mapOrder, t.orderIds);
        ResponsesAnswer(db, db', t.orderIds, rows, t.mapOrder, responses);
      }
    }
    CommittedStep(db, orders, responses, db');
  }

  lemma TracedIsStep(db: Db, orders: seq<CreateOrder>, faults: set<Call>, t: Plan, w: Writes,
      rows: seq<GetOrdersRow>, outcome: Outcome, db': Db)
    requires Traced(db, orders, faults, t, w, rows, outcome, db')
    ensures BatchStep(db, orders, faults, outcome, db')
  {
    match outcome {
      case NoOrders =>
      case Panicked =>
        PlanIsNotOverdrawn(db.products, orders, t);
        PanickedStep(db, orders, faults);
      case Failed(call) =>
        FailureIsFirstStop(db, orders, faults, t, w, call);
        FailedStep(db, orders, faults, call);
      case Committed(responses) =>
        TracedCommitIsStep(db, orders, t, w, rows, responses, db');
    }
  }

  lemma NoFaultLeft(faults: set<Call>)
    requires BeginCall !in faults && ReadProductsCall !in faults && UpdateCall !in faults && InsertOrdersCall !in faults
    requires InsertItemsCall !in faults && ReadOrdersCall !in faults && CommitCall !in faults
    ensures faults == {}
  {
    forall call: Call ensures call !in faults {
      match call {
        case BeginCall =>
        case ReadProductsCall =>
        case UpdateCall =>
        case InsertOrdersCall =>
        case InsertItemsCall =>
        case ReadOrdersCall =>
        case CommitCall =>
      }
    }
  }
}
