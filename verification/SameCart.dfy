/**
 * The same cart twice in one batch. When the requests for a cart list the same items, such a batch is never
 * committed, so a run of such requests needs no further assumption about who checks out what, and when.
 */
module SameCart {
  import opened Domain
  import opened Items
  import opened Trim
  import opened Database
  import opened Batch
  import opened BatchProof
  import opened Stock
  import opened Protocol
  import opened ProtocolProof

  /** The same items, in whatever order. */
  ghost predicate SameItems(a: seq<OrderItem>, b: seq<OrderItem>) {
    multiset(a) == multiset(b)
  }

  lemma SameItemsHaveSameMembers(a: seq<OrderItem>, b: seq<OrderItem>)
    requires SameItems(a, b)
    ensures |a| == |b| && forall x :: x in a <==> x in b
  {
    assert |a| == |multiset(a)| && |b| == |multiset(b)|;
    forall x ensures x in a <==> x in b {
      assert x in a <==> x in multiset(a);
    }
  }

  /** Requests for one cart list the same items, and each item carries its cart's id. */
  ghost predicate BatchAgrees(orders: seq<CreateOrder>) {
    && (forall i, x :: 0 <= i < |orders| && x in orders[i].orderItems ==> x.orderId == orders[i].id)
    && (forall i, j :: 0 <= i < |orders| && 0 <= j < |orders| && orders[i].id == orders[j].id ==>
         SameItems(orders[i].orderItems, orders[j].orderItems))
  }

  lemma {:induction false} ItemHasRequest(orders: seq<CreateOrder>, x: OrderItem) returns (k: nat)
    requires x in AllItems(orders)
    ensures k < |orders| && x in orders[k].orderItems
  {
    if x in orders[|orders| - 1].orderItems {
      k := |orders| - 1;
    } else {
      k := ItemHasRequest(orders[..|orders| - 1], x);
    }
  }

  /** One request's items are among the batch's. */
  lemma {:induction false} RequestIsCounted(orders: seq<CreateOrder>, i: nat)
    requires i < |orders| && forall x :: x in orders[i].orderItems ==> x.orderId == orders[i].id
    ensures Count(AllItems(orders), orders[i].id) >= |orders[i].orderItems|
  {
    var init, last := orders[..|orders| - 1], orders[|orders| - 1];
    CountConcat(AllItems(init), last.orderItems, orders[i].id);
    if i == |orders| - 1 {
      SelectAll(last.orderItems, OfOrder(last.id));
    } else {
      RequestIsCounted(init, i);
    }
  }

  lemma {:induction false} TwoRequestsAreCounted(orders: seq<CreateOrder>, i: nat, j: nat)
    requires i < j < |orders| && BatchAgrees(orders) && orders[i].id == orders[j].id
    ensures Count(AllItems(orders), orders[i].id) >= 2 * |orders[i].orderItems|
  {
    var init, last := orders[..|orders| - 1], orders[|orders| - 1];
    CountConcat(AllItems(init), last.orderItems, orders[i].id);
    if j == |orders| - 1 {
      RequestIsCounted(init, i);
      SelectAll(last.orderItems, OfOrder(last.id));
    } else {
      TwoRequestsAreCounted(init, i, j);
    }
  }

  lemma {:induction false} UniqueIdsOnce(items: seq<OrderItem>, x: OrderItem)
    requires |ItemIds(items)| == |items|
    ensures multiset(items)[x] <= 1
  {
    if items != [] {
      var init, last := items[..|items| - 1], items[|items| - 1];
      assert items == init + [last] && ItemIds(items) == ItemIds(init) + {last.id};
      IdsAtMost(init);
      UniqueIdsOnce(init, x);
      assert last.id !in ItemIds(init);
    }
  }

  lemma {:induction false} IdsAtMost(items: seq<OrderItem>)
    ensures |ItemIds(items)| <= |items|
  {
    if items != [] {
      var init, last := items[..|items| - 1], items[|items| - 1];
      assert items == init + [last] && ItemIds(items) == ItemIds(init) + {last.id};
      IdsAtMost(init);
    }
  }

  /** What survives of an order asked for more than once, if the item key is to hold: all its items, once. */
  lemma RepeatedSurvivors(orders: seq<CreateOrder>, stock: map<Uuid, Int32>, i: nat, j: nat)
    requires i < j < |orders| && BatchAgrees(orders) && orders[i].id == orders[j].id
    requires !Overdrawn(orders, stock)
    requires var survivors := Survivors(AllItems(orders), stock); |ItemIds(survivors)| == |survivors|
    ensures var kept := Select(Survivors(AllItems(orders), stock), OfOrder(orders[i].id));
      multiset(kept) == multiset(orders[i].orderItems)
    ensures !StillLists(orders, stock, orders[i].id)
  {
    var survivors, o, items := Survivors(AllItems(orders), stock), orders[i].id, orders[i].orderItems;
    var kept := Select(survivors, OfOrder(o));
    forall x ensures multiset(kept)[x] <= multiset(items)[x] {
      UniqueIdsOnce(survivors, x);
      SelectMultiplicity(survivors, OfOrder(o), x);
      if x in kept {
        SurvivorIsListed(orders, stock, i, x);
      }
    }
    assert multiset(kept) <= multiset(items);
    TwoRequestsAreCounted(orders, i, j);
    var f := FirstExists(orders, o, i);
    assert !OverdrawnAt(orders, stock, f);
    assert |kept| >= |items|;
    SubmultisetOfSameSize(kept, items);
    forall k | ListsAt(orders, stock, o, k) ensures false {
      FirstIsUnique(orders, o, k, f);
    }
  }

  lemma SubmultisetOfSameSize(a: seq<OrderItem>, b: seq<OrderItem>)
    requires multiset(a) <= multiset(b) && |a| >= |b|
    ensures multiset(a) == multiset(b) && |a| == |b|
  {
    assert |multiset(a)| == |a| && |multiset(b)| == |b|;
    assert multiset(b) == multiset(a) + (multiset(b) - multiset(a));
    assert |multiset(b) - multiset(a)| == |b| - |a|;
  }

  lemma SurvivorIsListed(orders: seq<CreateOrder>, stock: map<Uuid, Int32>, i: nat, x: OrderItem)
    requires i < |orders| && BatchAgrees(orders)
    requires x in Select(Survivors(AllItems(orders), stock), OfOrder(orders[i].id))
    ensures x in orders[i].orderItems
  {
    SelectMembers(Survivors(AllItems(orders), stock), OfOrder(orders[i].id));
    SurvivorsAreItems(AllItems(orders), stock, x);
    var k := ItemHasRequest(orders, x);
    assert orders[k].id == x.orderId == orders[i].id;
    SameItemsHaveSameMembers(orders[k].orderItems, orders[i].orderItems);
  }

  /** The cart's items, which all survive, are either in the tables already or find no order. */
  lemma RepeatedIsUnwelcome(db: Db, orders: seq<CreateOrder>, i: nat, j: nat)
    requires i < j < |orders| && BatchAgrees(orders) && orders[i].id == orders[j].id && orders[i].orderItems != []
    requires db.Consistent() && !Overdrawn(orders, db.products)
    requires forall x :: x in db.items && x.orderId == orders[i].id ==> x in orders[i].orderItems
    requires var survivors := Survivors(AllItems(orders), db.products); |ItemIds(survivors)| == |survivors|
    ensures !ItemsWelcome(db, db.products, orders)
  {
    var survivors, o, x := Survivors(AllItems(orders), db.products), orders[i].id, orders[i].orderItems[0];
    var kept := Select(survivors, OfOrder(o));
    RepeatedSurvivors(orders, db.products, i, j);
    SelectMembers(survivors, OfOrder(o));
    if o in OrderIds(db.orders) {
      x := Select(db.items, OfOrder(o))[0];
      SelectMembers(db.items, OfOrder(o));
      assert x in Select(db.items, OfOrder(o));
    }
    assert x in multiset(orders[i].orderItems) && x in multiset(kept) && x in kept;
    assert o in OrderIds(db.orders) ==> x.id in ItemIds(survivors) && x.id in ItemIds(db.items);
  }

  /**
   * A batch that asks twice for a cart with items is never committed: either the reslice panics, or an item would
   * be inserted twice, or the items find no order, or the order's items are there already.
   */
  lemma RepeatedIsNotAdmissible(db: Db, orders: seq<CreateOrder>, i: nat, j: nat)
    requires i < j < |orders| && BatchAgrees(orders) && orders[i].id == orders[j].id && orders[i].orderItems != []
    requires db.Consistent() && !Overdrawn(orders, db.products)
    requires forall x :: x in db.items && x.orderId == orders[i].id ==> x in orders[i].orderItems
    ensures !Admissible(db, orders)
  {
    var survivors := Survivors(AllItems(orders), db.products);
    if |ItemIds(survivors)| == |survivors| {
      RepeatedIsUnwelcome(db, orders, i, j);
    }
  }

  // ----- runs -----

  /** Requests for one cart list the same items, each carries its own id, and the cart's order holds only such items. */
  ghost predicate RequestsAgree(s: System) {
    && ItemsAreOwn(s.clients)
    && (forall t, u :: t in s.clients && u in s.clients && s.clients[t].order.id == s.clients[u].order.id ==>
         SameItems(s.clients[t].order.orderItems, s.clients[u].order.orderItems))
    && (forall t, x :: t in s.clients && x in s.db.items && x.orderId == s.clients[t].order.id ==>
         x in s.clients[t].order.orderItems)
  }

  lemma BatchOfAgreeing(s: System)
    requires RequestsAgree(s) && forall t :: t in s.batch ==> t in s.clients
    ensures BatchAgrees(BatchOrders(s.clients, s.batch))
  {
  }

  /** A committed batch of agreeing requests holds no cart twice. */
  lemma AgreeingCommitIsWellFormed(s: System, faults: set<Call>, outcome: Outcome, s': System)
    requires RequestsAgree(s) && s.db.Consistent() && TickStep(s, faults, outcome, s') && outcome.Committed?
    ensures BatchIsWellFormed(s)
  {
    var orders := BatchOrders(s.clients, s.batch);
    BatchOfAgreeing(s);
    forall i, j | 0 <= i < j < |orders| && orders[i].id == orders[j].id
      ensures orders[i].orderItems == [] && orders[j].orderItems == []
    {
      SameItemsHaveSameMembers(orders[i].orderItems, orders[j].orderItems);
      if orders[i].orderItems != [] {
        assert s.batch[i] in s.batch;
        RepeatedIsNotAdmissible(s.db, orders, i, j);
      }
    }
  }

  lemma CommittedItemsAreListed(s: System, faults: set<Call>, outcome: Outcome, s': System, t: Ticket, x: OrderItem)
    requires RequestsAgree(s) && TickStep(s, faults, outcome, s') && outcome.Committed?
    requires t in s.clients && x in s'.db.items && x.orderId == s.clients[t].order.id
    ensures x in s.clients[t].order.orderItems
  {
    var orders := BatchOrders(s.clients, s.batch);
    CommitAppends(s.db, s'.db);
    if x !in s.db.items {
      NewItemIsOrdered(s.db, s.db.products, orders, s'.db, x);
      var k := ItemHasRequest(orders, x);
      assert s.batch[k] in s.batch;
      SameItemsHaveSameMembers(orders[k].orderItems, s.clients[t].order.orderItems);
    }
  }

  lemma NextAgrees(s: System, step: Step, s': System)
    requires RequestsAgree(s) && NextBy(s, step, s')
    ensures RequestsAgree(s')
  {
    NextKeepsOrders(s, step, s');
    if Commits(step) {
      forall t, x | t in s'.clients && x in s'.db.items && x.orderId == s'.clients[t].order.id
        ensures x in s'.clients[t].order.orderItems
      {
        CommittedItemsAreListed(s, step.faults, step.outcome, s', t, x);
      }
    }
  }

  lemma NextStaysConsistent(s: System, step: Step, s': System)
    requires s.db.Consistent() && NextBy(s, step, s') && (Commits(step) ==> BatchIsWellFormed(s))
    ensures s'.db.Consistent()
  {
    NextKeepsOrders(s, step, s');
    if Commits(step) {
      CommitFacts(s.db, BatchOrders(s.clients, s.batch), step.faults, step.outcome, s'.db);
    }
  }

  lemma StepAgrees(run: seq<System>, steps: seq<Step>, i: nat)
    requires IsPath(run, steps) && i < |steps| && RequestsAgree(run[i]) && run[i].db.Consistent()
    ensures CommitIsWellFormed(run, steps, i) && RequestsAgree(run[i + 1]) && run[i + 1].db.Consistent()
  {
    assert Follows(run, steps, i);
    if Commits(steps[i]) {
      AgreeingCommitIsWellFormed(run[i], steps[i].faults, steps[i].outcome, run[i + 1]);
    }
    NextAgrees(run[i], steps[i], run[i + 1]);
    NextStaysConsistent(run[i], steps[i], run[i + 1]);
  }

  lemma {:induction false} RunAgrees(run: seq<System>, steps: seq<Step>, i: nat)
    requires IsPath(run, steps) && i <= |steps| && RequestsAgree(run[0]) && run[0].db.Consistent()
    ensures RequestsAgree(run[i]) && run[i].db.Consistent()
  {
    for k := 0 to i
      invariant RequestsAgree(run[k]) && run[k].db.Consistent()
    {
      StepAgrees(run, steps, k);
    }
  }

  /** Whenever and however often the carts are checked out, no committed batch holds one twice. */
  lemma AgreeingRunCommitsWellFormed(run: seq<System>, steps: seq<Step>)
    requires IsPath(run, steps) && RequestsAgree(run[0]) && run[0].db.Consistent()
    ensures CommitsWellFormed(run, steps)
  {
    forall i | 0 <= i < |steps| ensures CommitIsWellFormed(run, steps, i) {
      RunAgrees(run, steps, i);
      StepAgrees(run, steps, i);
    }
  }
}
