/** Stock is conserved and never oversold; and where it can be, by how little. */
module Stock {
  import opened Domain
  import opened Items
  import opened Allocation
  import opened Merge
  import opened Trim
  import opened Database
  import opened Prepare
  import opened Batch
  import opened BatchProof
  import opened Channels
  import opened Existence

  /** The repository's balance query for one product: what is left plus what was ordered is what there was. */
  ghost predicate BalancedAt(initial: map<Uuid, int>, db: Db, p: Uuid) {
    p in db.products && p in initial ==> initial[p] == db.products[p] + Sum(Select(db.items, OfProduct(p)))
  }

  ghost predicate NonNegative(stock: map<Uuid, Int32>) {
    forall p :: p in stock ==> stock[p] >= 0
  }

  ghost predicate NonNegativeAt(db: Db, p: Uuid) {
    p in db.products ==> db.products[p] >= 0
  }

  /** No negative quantities, and totals for which the 32-bit comparison is exact. */
  ghost predicate Bounded(orders: seq<CreateOrder>) {
    && NoneNegative(AllItems(orders))
    && forall p :: Sum(Select(AllItems(orders), OfProduct(p))) <= 0x8000_0000
  }

  /** The total written for p is the exact one. */
  ghost predicate ExactTotal(orders: seq<CreateOrder>, stock: map<Uuid, Int32>, p: Uuid) {
    INT32_MIN <= Sum(KeptOf(AllItems(orders), stock, p)) <= INT32_MAX
  }

  lemma KeptTotal(orders: seq<CreateOrder>, stock: map<Uuid, Int32>, p: Uuid)
    requires Bounded(orders) && p in stock && stock[p] >= 0
    ensures 0 <= Sum(KeptOf(AllItems(orders), stock, p)) <= stock[p]
  {
    SelectNoneNegative(AllItems(orders), OfProduct(p));
    assert Sum(Select(AllItems(orders), OfProduct(p))) <= 0x8000_0000;
    TailPopIsForwardScan(Select(AllItems(orders), OfProduct(p)), stock[p]);
  }

  /**
   * Conservation, and its exact condition: a commit keeps a product's balance if and only if the
   * total it subtracts did not overflow. It does not matter which stock level the trim had read.
   */
  lemma BalanceKeptExactlyWhen(initial: map<Uuid, int>, db: Db, stock: map<Uuid, Int32>,
      orders: seq<CreateOrder>, db': Db, p: Uuid)
    requires Applies(db, stock, orders, db') && BalancedAt(initial, db, p) && p in db.products && p in initial
    ensures BalancedAt(initial, db', p) <==> ExactTotal(orders, stock, p)
  {
    var added := NewItems(db, db');
    assert db'.items == db.items + added;
    SelectConcat(db.items, added, OfProduct(p));
    SumConcat(Select(db.items, OfProduct(p)), Select(added, OfProduct(p)));
    assert Select(added, OfProduct(p)) == KeptOf(AllItems(orders), stock, p);
  }

  /** Wherever the trim may stop, what it has kept of p by then totals between -2^31 and `limit`; signs are free. */
  ghost predicate PrefixesFit(orders: seq<CreateOrder>, p: Uuid, limit: int) {
    var own := Select(AllItems(orders), OfProduct(p));
    forall k :: 0 <= k <= |own| ==> INT32_MIN <= Sum(own[..k]) <= limit
  }

  lemma BoundedPrefixesFit(orders: seq<CreateOrder>, p: Uuid)
    requires Bounded(orders)
    ensures PrefixesFit(orders, p, 0x8000_0000)
  {
    var own := Select(AllItems(orders), OfProduct(p));
    SelectNoneNegative(AllItems(orders), OfProduct(p));
    forall k | 0 <= k <= |own| ensures INT32_MIN <= Sum(own[..k]) <= 0x8000_0000 {
      PrefixSum(own, k);
    }
  }

  /** A batch whose prefix totals fit int32 keeps the balance, whatever stock its trim had read. */
  lemma FitKeepsBalance(initial: map<Uuid, int>, db: Db, stock: map<Uuid, Int32>, orders: seq<CreateOrder>, db': Db,
      p: Uuid)
    requires Applies(db, stock, orders, db') && BalancedAt(initial, db, p) && PrefixesFit(orders, p, INT32_MAX)
    ensures BalancedAt(initial, db', p)
  {
    var own := Select(AllItems(orders), OfProduct(p));
    assert own[..|own|] == own;
    if p in db.products && p in initial {
      BalanceKeptExactlyWhen(initial, db, stock, orders, db', p);
    }
  }

  /** A prefix of exactly 2^31 is never kept at a non-negative stock. */
  lemma LimitIsNotKept(own: seq<OrderItem>, stock: Int32)
    requires stock >= 0 && Sum(Kept(own, stock)) <= 0x8000_0000
    ensures Sum(Kept(own, stock)) <= INT32_MAX
  {
    if KeepCount(own, stock) == 0 {
      assert Kept(own, stock) == [];
    } else if 0 <= Sum(Kept(own, stock)) {
      FitsIsExact(Kept(own, stock), stock);
    }
  }

  /** On the non-negative stock it has read, totals of up to 2^31 are enough. */
  lemma SerialFitKeepsBalance(initial: map<Uuid, int>, db: Db, orders: seq<CreateOrder>, db': Db, p: Uuid)
    requires StockCommits(db, orders, db') && BalancedAt(initial, db, p) && NonNegativeAt(db, p)
    requires PrefixesFit(orders, p, 0x8000_0000)
    ensures BalancedAt(initial, db', p)
  {
    if p in db.products && p in initial {
      LimitIsNotKept(Select(AllItems(orders), OfProduct(p)), db.products[p]);
      BalanceKeptExactlyWhen(initial, db, db.products, orders, db', p);
    }
  }

  /** The exit test reads the row that is written: what it lets through cannot turn the row negative. */
  lemma KeptLeavesStock(own: seq<OrderItem>, stock: Int32)
    requires stock >= 0 && INT32_MIN <= stock - Wrap32(Sum(Kept(own, stock))) <= INT32_MAX
    ensures stock - Wrap32(Sum(Kept(own, stock))) >= 0
  {
    if KeepCount(own, stock) == 0 {
      assert Kept(own, stock) == [];
    }
  }

  /** A commit whose trim has seen the current row never oversells it, whatever the quantities. */
  lemma RowStaysNonNegative(db: Db, seen: map<Uuid, Int32>, orders: seq<CreateOrder>, db': Db, p: Uuid)
    requires Applies(db, seen, orders, db') && p in db.products && p in seen && seen[p] == db.products[p] >= 0
    ensures db'.products[p] >= 0
  {
    KeptLeavesStock(Select(AllItems(orders), OfProduct(p)), seen[p]);
  }

  /** A commit on the stock it has read never oversells: not even with negative quantities or overflowing totals. */
  lemma SerialCommitNeverOversells(db: Db, orders: seq<CreateOrder>, db': Db)
    requires StockCommits(db, orders, db') && NonNegative(db.products)
    ensures NonNegative(db'.products)
  {
    forall p | p in db'.products ensures db'.products[p] >= 0 {
      RowStaysNonNegative(db, db.products, orders, db', p);
    }
  }

  /** What a bounded batch commits is what serving it first come, first served hands out. */
  lemma CommitServesInOrder(db: Db, orders: seq<CreateOrder>, db': Db)
    requires StockCommits(db, orders, db') && Bounded(orders) && NonNegative(db.products)
    ensures multiset(NewItems(db, db')) == multiset(Serve(AllItems(orders), db.products))
    ensures forall o :: Count(NewItems(db, db'), o) == Count(Serve(AllItems(orders), db.products), o)
  {
    var items := AllItems(orders);
    RowsAreSurvivors(items, db.products, NewItems(db, db'));
    forall p ensures Sum(Select(items, OfProduct(p))) <= 0x8000_0000 {
      assert Sum(Select(items, OfProduct(p))) <= 0x8000_0000;
    }
    SurvivorsAreServed(items, db.products);
    forall o ensures Count(NewItems(db, db'), o) == Count(Serve(items, db.products), o) {
      SameItemsSameSelection(NewItems(db, db'), Serve(items, db.products), OfOrder(o));
    }
  }

  /** No order of a bounded batch can push a row out of int4: the range check never refuses one. */
  lemma BoundedIsInRange(db: Db, orders: seq<CreateOrder>)
    requires Bounded(orders) && NonNegative(db.products)
    ensures InRange(db, db.products, AllItems(orders))
  {
    forall p | p in db.products
      ensures INT32_MIN <= db.products[p] - Wrap32(Sum(KeptOf(AllItems(orders), db.products, p))) <= INT32_MAX
    {
      KeptTotal(orders, db.products, p);
    }
  }

  /** An order with a new item has one request in a batch of different carts. */
  lemma NewOrderHasOneRequest(db: Db, orders: seq<CreateOrder>, db': Db, i: nat, j: nat)
    requires StockCommits(db, orders, db') && WellFormed(orders) && i < |orders| && j < |orders|
    requires orders[i].id == orders[j].id && Count(NewItems(db, db'), orders[i].id) > 0
    ensures i == j
  {
    var own := Select(NewItems(db, db'), OfOrder(orders[i].id));
    NewItemsWereAsked(db, orders, db', i);
    assert own[0] in multiset(own) && own[0] in multiset(orders[i].orderItems);
  }

  /** Its row is for the user of that request. */
  lemma NewRowHasItsUser(db: Db, orders: seq<CreateOrder>, db': Db, i: nat, r: OrderRow)
    requires StockCommits(db, orders, db') && KeysCommit(db, orders, db') && WellFormed(orders) && i < |orders|
    requires r in NewOrders(db, db') && r.id == orders[i].id && Count(NewItems(db, db'), r.id) > 0
    ensures r.userId == orders[i].userId
  {
    var j :| 0 <= j < |orders| && orders[j].id == r.id && orders[j].userId == r.userId;
    NewOrderHasOneRequest(db, orders, db', i, j);
  }

  /**
   * The whole allocator against the rule it stands for: after a commit, a request is answered with
   * its order exactly when first come, first served leaves it an item, the answer lists exactly the
   * items that rule gives it, and every other request is told "out of stock".
   */
  lemma AnswersFollowFirstComeFirstServed(db: Db, orders: seq<CreateOrder>, faults: set<Call>,
      outcome: Outcome, db': Db, i: nat)
    requires BatchStep(db, orders, faults, outcome, db') && outcome.Committed? && i < |orders|
    requires WellFormed(orders) && Bounded(orders) && db.Consistent() && NonNegative(db.products)
    ensures var served := Serve(AllItems(orders), db.products);
      var o, result := orders[i].id, ResultFor(outcome, orders[i].id);
      && (result.err.None? <==> Count(served, o) > 0)
      && (result.err.None? ==>
          && result.order.id == o && result.order.userId == orders[i].userId
          && OrderRow(o, orders[i].userId) in NewOrders(db, db')
          && multiset(result.order.orderItems) == multiset(Select(served, OfOrder(o))))
      && (!result.err.None? ==> result == Result(ZERO_ORDER, Some(ErrOutOfStock)))
  {
    var served, o := Serve(AllItems(orders), db.products), orders[i].id;
    CommitServesInOrder(db, orders, db');
    SameItemsSameSelection(NewItems(db, db'), served, OfOrder(o));
    if o in outcome.responses {
      NewRowHasItsUser(db, orders, db', i, OrderRow(o, outcome.responses[o].userId));
    }
  }

  lemma PrefixMultiplicity(a: seq<OrderItem>, b: seq<OrderItem>, x: OrderItem)
    requires a <= b
    ensures multiset(a)[x] <= multiset(b)[x]
  {
    assert b == a + b[|a|..];
  }

  function ProductsOf(items: seq<OrderItem>): set<Uuid> {
    set x | x in items :: x.productId
  }

  /** Every product of the batch, sold out. */
  ghost function NoStock(items: seq<OrderItem>): map<Uuid, Int32> {
    map p | p in ProductsOf(items) :: 0
  }

  /** Of every product the items ask for there is no more in `less`; a product that is not listed is not rationed. */
  ghost predicate IsLess(items: seq<OrderItem>, less: map<Uuid, Int32>, more: map<Uuid, Int32>) {
    forall p :: p in ProductsOf(items) && p in more ==> p in less && less[p] <= more[p]
  }

  /** More stock never turns an item away: each product keeps at least the same prefix. */
  lemma MoreStockServesMore(orders: seq<CreateOrder>, less: map<Uuid, Int32>, more: map<Uuid, Int32>, x: OrderItem)
    requires Bounded(orders) && NonNegative(less) && IsLess(AllItems(orders), less, more)
    ensures multiset(Survivors(AllItems(orders), less))[x] <= multiset(Survivors(AllItems(orders), more))[x]
  {
    var items, p := AllItems(orders), x.productId;
    SurvivorMultiplicity(items, less, x);
    SurvivorMultiplicity(items, more, x);
    if p !in ProductsOf(items) {
      SelectNone(items, OfProduct(p));
    } else if p in more {
      SelectNoneNegative(items, OfProduct(p));
      assert Sum(Select(items, OfProduct(p))) <= 0x8000_0000;
      MoreStockKeepsMore(Select(items, OfProduct(p)), less[p], more[p]);
    }
    PrefixMultiplicity(KeptOf(items, less, p), KeptOf(items, more, p), x);
  }

  lemma FewerItemsAreFewer(a: seq<OrderItem>, b: seq<OrderItem>)
    requires multiset(a) <= multiset(b)
    ensures |a| <= |b|
  {
    assert multiset(b) == multiset(a) + (multiset(b) - multiset(a));
    assert |multiset(a)| == |a| && |multiset(b)| == |b|;
  }

  lemma MoreStockLeavesMore(orders: seq<CreateOrder>, less: map<Uuid, Int32>, more: map<Uuid, Int32>, o: Uuid)
    requires Bounded(orders) && NonNegative(less) && IsLess(AllItems(orders), less, more)
    ensures Count(Survivors(AllItems(orders), less), o) <= Count(Survivors(AllItems(orders), more), o)
  {
    var few, many, sel := Survivors(AllItems(orders), less), Survivors(AllItems(orders), more), OfOrder(o);
    forall x ensures multiset(Select(few, sel))[x] <= multiset(Select(many, sel))[x] {
      SelectMultiplicity(few, sel, x);
      SelectMultiplicity(many, sel, x);
      MoreStockServesMore(orders, less, more, x);
    }
    FewerItemsAreFewer(Select(few, sel), Select(many, sel));
  }

  /** Nor does it turn an order away, or make a batch panic that would not have. */
  lemma MoreStockAcceptsMore(orders: seq<CreateOrder>, less: map<Uuid, Int32>, more: map<Uuid, Int32>)
    requires Bounded(orders) && NonNegative(less) && IsLess(AllItems(orders), less, more)
    ensures forall o :: StillLists(orders, less, o) ==> StillLists(orders, more, o)
    ensures Overdrawn(orders, more) ==> Overdrawn(orders, less)
  {
    forall i | 0 <= i < |orders| ensures ItemsLeft(orders, less, i) <= ItemsLeft(orders, more, i) {
      MoreStockLeavesMore(orders, less, more, orders[i].id);
    }
    forall o | StillLists(orders, less, o) ensures StillLists(orders, more, o) {
      var i :| ListsAt(orders, less, o, i);
      assert ListsAt(orders, more, o, i);
    }
    if Overdrawn(orders, more) {
      var i :| 0 <= i < |orders| && OverdrawnAt(orders, more, i);
      assert OverdrawnAt(orders, less, i);
    }
  }

  /** An empty shop is the worst case: a bounded batch never panics if and only if it does not when all is sold out. */
  lemma NeverOverdrawnExactlyWhen(orders: seq<CreateOrder>)
    requires Bounded(orders)
    ensures (forall stock: map<Uuid, Int32> :: NonNegative(stock) ==> !Overdrawn(orders, stock))
      <==> !Overdrawn(orders, NoStock(AllItems(orders)))
  {
    forall stock: map<Uuid, Int32> | NonNegative(stock) && Overdrawn(orders, stock)
      ensures Overdrawn(orders, NoStock(AllItems(orders)))
    {
      MoreStockAcceptsMore(orders, NoStock(AllItems(orders)), stock);
    }
  }

  /** With enough of every product nothing is turned away. */
  lemma EnoughStockServesAll(orders: seq<CreateOrder>, stock: map<Uuid, Int32>)
    requires Bounded(orders)
    requires forall p :: p in stock ==> Sum(Select(AllItems(orders), OfProduct(p))) <= stock[p]
    ensures multiset(Survivors(AllItems(orders), stock)) == multiset(AllItems(orders))
  {
    var items := AllItems(orders);
    forall p ensures Select(Survivors(items, stock), OfProduct(p)) == Select(items, OfProduct(p)) {
      SurvivorsPerProduct(items, stock, p);
      EnoughKeepsAll(orders, stock, p);
    }
    SameByProduct(Survivors(items, stock), items);
  }

  lemma EnoughKeepsAll(orders: seq<CreateOrder>, stock: map<Uuid, Int32>, p: Uuid)
    requires Bounded(orders)
    requires p in stock ==> Sum(Select(AllItems(orders), OfProduct(p))) <= stock[p]
    ensures KeptOf(AllItems(orders), stock, p) == Select(AllItems(orders), OfProduct(p))
  {
    var own := Select(AllItems(orders), OfProduct(p));
    if p in stock {
      SelectNoneNegative(AllItems(orders), OfProduct(p));
      assert Sum(own) <= 0x8000_0000;
      PrefixSum(own, |own|);
      MoreStockKeepsMore(own, stock[p], stock[p]);
    }
  }

  lemma SurvivorMultiplicity(items: seq<OrderItem>, stock: map<Uuid, Int32>, x: OrderItem)
    ensures multiset(Survivors(items, stock))[x] == multiset(KeptOf(items, stock, x.productId))[x]
  {
    SelectMultiplicity(Survivors(items, stock), OfProduct(x.productId), x);
    SurvivorsPerProduct(items, stock, x.productId);
  }

  // ----- a commit and the other orders -----

  /** A later commit leaves the items of an existing order alone. */
  lemma CommitKeepsOld(db: Db, orders: seq<CreateOrder>, db': Db, o: Uuid)
    requires db.orders <= db'.orders && db.items <= db'.items && OrderCommits(db, orders, db')
    requires o in OrderIds(db.orders)
    ensures o in OrderIds(db'.orders) && Select(db'.items, OfOrder(o)) == Select(db.items, OfOrder(o))
  {
    CommitAppends(db, db');
    SelectConcat(db.items, NewItems(db, db'), OfOrder(o));
    assert Count(NewItems(db, db'), o) == 0;
  }

  lemma ItemIdsConcat(a: seq<OrderItem>, b: seq<OrderItem>)
    ensures ItemIds(a + b) == ItemIds(a) + ItemIds(b)
  {
  }

  lemma AppendHere(db: Db, added: seq<OrderItem>, rows: seq<OrderRow>, o: Uuid)
    requires db.Consistent() && o !in OrderIds(db.orders)
    ensures Select(db.items + added, OfOrder(o)) == Select(added, OfOrder(o))
    ensures o in OrderIds(db.orders + rows) <==> o in OrderIds(rows)
  {
    SelectConcat(db.items, added, OfOrder(o));
    UnknownOrderHasNoItems(db, o);
    OrderIdsConcat(db.orders, rows);
  }

  /** A committed order shows exactly its new items; an uncommitted one is not in the table. */
  lemma CommitHere(db: Db, db': Db, o: Uuid)
    requires db.Consistent() && db.orders <= db'.orders && db.items <= db'.items && o !in OrderIds(db.orders)
    ensures Select(db'.items, OfOrder(o)) == Select(NewItems(db, db'), OfOrder(o))
    ensures o in OrderIds(db'.orders) <==> o in OrderIds(NewOrders(db, db'))
  {
    var added, rows := NewItems(db, db'), NewOrders(db, db');
    assert db.items + added == db'.items && db.orders + rows == db'.orders;
    AppendHere(db, added, rows, o);
  }

  /** Every new row is one the batch asked for. */
  lemma NewItemIsOrdered(db: Db, seen: map<Uuid, Int32>, orders: seq<CreateOrder>, db': Db, x: OrderItem)
    requires Applies(db, seen, orders, db') && x in NewItems(db, db')
    ensures x in AllItems(orders)
  {
    SelectMembers(NewItems(db, db'), OfProduct(x.productId));
    SelectMembers(AllItems(orders), OfProduct(x.productId));
    assert x in Select(NewItems(db, db'), OfProduct(x.productId));
    assert x in KeptOf(AllItems(orders), seen, x.productId);
  }

  /** A commit gives an order nothing it did not ask for. */
  lemma NewItemsWereAsked(db: Db, orders: seq<CreateOrder>, db': Db, i: nat)
    requires StockCommits(db, orders, db') && WellFormed(orders) && i < |orders|
    ensures multiset(Select(NewItems(db, db'), OfOrder(orders[i].id))) <= multiset(orders[i].orderItems)
  {
    var items, added, sel := AllItems(orders), NewItems(db, db'), OfOrder(orders[i].id);
    OwnItems(orders, i);
    forall x ensures multiset(Select(added, sel))[x] <= multiset(orders[i].orderItems)[x] {
      SelectMultiplicity(added, sel, x);
      SelectMultiplicity(items, sel, x);
      NewItemIsAsked(db, orders, db', x);
    }
  }

  lemma NewItemIsAsked(db: Db, orders: seq<CreateOrder>, db': Db, x: OrderItem)
    requires StockCommits(db, orders, db')
    ensures multiset(NewItems(db, db'))[x] <= multiset(AllItems(orders))[x]
  {
    var items, p := AllItems(orders), x.productId;
    SelectMultiplicity(NewItems(db, db'), OfProduct(p), x);
    SelectMultiplicity(items, OfProduct(p), x);
    assert Select(NewItems(db, db'), OfProduct(p)) == KeptOf(items, db.products, p);
    PrefixMultiplicity(KeptOf(items, db.products, p), Select(items, OfProduct(p)), x);
  }

  lemma OrderKeysAppend(a: seq<OrderRow>, b: seq<OrderRow>)
    requires |OrderIds(a)| == |a| && |OrderIds(b)| == |b| && OrderIds(b) !! OrderIds(a)
    ensures |OrderIds(a + b)| == |a + b|
  {
    OrderIdsConcat(a, b);
  }

  lemma ItemKeysAppend(a: seq<OrderItem>, b: seq<OrderItem>)
    requires |ItemIds(a)| == |a| && |ItemIds(b)| == |b| && ItemIds(b) !! ItemIds(a)
    ensures |ItemIds(a + b)| == |a + b|
  {
    ItemIdsConcat(a, b);
  }

  lemma AppendKeepsKeys(db: Db, added: seq<OrderItem>, rows: seq<OrderRow>)
    requires db.KeysIntact()
    requires |OrderIds(rows)| == |rows| && OrderIds(rows) !! OrderIds(db.orders)
    requires |ItemIds(added)| == |added| && ItemIds(added) !! ItemIds(db.items)
    ensures |OrderIds(db.orders + rows)| == |db.orders + rows| && |ItemIds(db.items + added)| == |db.items + added|
  {
    OrderKeysAppend(db.orders, rows);
    ItemKeysAppend(db.items, added);
  }

  lemma NoOrderIsEmpty(db: Db, added: seq<OrderItem>, rows: seq<OrderRow>, o: Uuid)
    requires db.Consistent() && o in OrderIds(db.orders + rows)
    requires o in OrderIds(rows) ==> Count(added, o) > 0
    ensures Count(db.items + added, o) > 0
  {
    OrderIdsConcat(db.orders, rows);
    CountConcat(db.items, added, o);
  }

  /** The commit as a plain extension of the two tables. */
  ghost predicate Extends(db: Db, added: seq<OrderItem>, rows: seq<OrderRow>, db': Db) {
    && db'.items == db.items + added && db'.orders == db.orders + rows
    && db'.users == db.users && db'.products.Keys == db.products.Keys
  }

  lemma ExtensionKeepsKeys(db: Db, added: seq<OrderItem>, rows: seq<OrderRow>, db': Db)
    requires db.KeysIntact() && Extends(db, added, rows, db')
    requires |OrderIds(rows)| == |rows| && OrderIds(rows) !! OrderIds(db.orders)
    requires |ItemIds(added)| == |added| && ItemIds(added) !! ItemIds(db.items)
    requires forall r :: r in rows ==> r.userId in db.users
    requires forall x :: x in added ==> x.orderId in OrderIds(db'.orders) && x.productId in db.products
    ensures db'.KeysIntact()
  {
    AppendKeepsKeys(db, added, rows);
    OrderIdsConcat(db.orders, rows);
  }

  lemma CommitExtends(db: Db, db': Db)
    requires db.orders <= db'.orders && db.items <= db'.items
    requires db'.users == db.users && db'.products.Keys == db.products.Keys
    ensures Extends(db, NewItems(db, db'), NewOrders(db, db'), db')
  {
  }

  /** Whatever the batch, a commit keeps every primary key and every foreign key. */
  lemma CommitKeepsKeys(db: Db, orders: seq<CreateOrder>, db': Db)
    requires db.KeysIntact() && StockCommits(db, orders, db') && KeysCommit(db, orders, db')
    ensures db'.KeysIntact()
  {
    forall x | x in NewItems(db, db') ensures x.productId in db.products {
      NewItemIsKnown(db, orders, db', x);
    }
    CommitExtends(db, db');
    ExtensionKeepsKeys(db, NewItems(db, db'), NewOrders(db, db'), db');
  }

  /** A commit of different carts never leaves an order without items either. */
  lemma CommitKeepsConsistency(db: Db, orders: seq<CreateOrder>, db': Db)
    requires db.Consistent() && StockCommits(db, orders, db') && OrderCommits(db, orders, db')
    ensures db'.Consistent()
  {
    CommitKeepsKeys(db, orders, db');
    CommitAppends(db, db');
    forall o | o in OrderIds(db'.orders) ensures Count(db'.items, o) > 0 {
      NoOrderIsEmpty(db, NewItems(db, db'), NewOrders(db, db'), o);
    }
  }

  lemma ItemIsCounted(items: seq<OrderItem>, x: OrderItem)
    requires x in items
    ensures Count(items, x.orderId) > 0
  {
    SelectMembers(items, OfOrder(x.orderId));
    assert x in Select(items, OfOrder(x.orderId));
  }

  lemma NewItemIsKnown(db: Db, orders: seq<CreateOrder>, db': Db, x: OrderItem)
    requires StockCommits(db, orders, db') && x in NewItems(db, db')
    ensures x.productId in db.products
  {
    var items, added := AllItems(orders), NewItems(db, db');
    SelectMembers(added, OfProduct(x.productId));
    assert x in Select(added, OfProduct(x.productId));
    assert x in KeptOf(items, db.products, x.productId);
    SelectMembers(items, OfProduct(x.productId));
  }

  // ----- batches of new carts -----

  ghost predicate DistinctItems(items: seq<OrderItem>) {
    forall i, j :: 0 <= i < j < |items| ==> items[i].id != items[j].id
  }

  /** As a multiset: no item twice, and no two items with one id. */
  ghost predicate UniqueItems(items: multiset<OrderItem>) {
    && (forall x :: items[x] <= 1)
    && forall x, y :: x in items && y in items && x.id == y.id ==> x == y
  }

  lemma UniquePush(items: seq<OrderItem>, x: OrderItem)
    requires UniqueItems(multiset(items)) && forall y :: y in items ==> y.id != x.id
    ensures UniqueItems(multiset(items + [x]))
  {
    assert forall y :: y in multiset(items) ==> y in items;
    assert multiset(items + [x]) == multiset(items) + multiset{x};
  }

  lemma {:induction false} DistinctIsUnique(items: seq<OrderItem>)
    requires DistinctItems(items)
    ensures UniqueItems(multiset(items))
  {
    if items != [] {
      var init, x := items[..|items| - 1], items[|items| - 1];
      DistinctIsUnique(init);
      UniquePush(init, x);
      assert items == init + [x];
    }
  }

  lemma UniqueIsDistinct(items: seq<OrderItem>)
    requires UniqueItems(multiset(items))
    ensures DistinctItems(items)
  {
    forall i, j | 0 <= i < j < |items| ensures items[i].id != items[j].id {
      assert items == items[..j] + [items[j]] + items[j + 1..];
      assert items[i] in items[..j] && items[i] in multiset(items) && items[j] in multiset(items);
      assert multiset(items)[items[j]] == multiset(items[..j])[items[j]] + 1 + multiset(items[j + 1..])[items[j]];
      assert items[i] in multiset(items[..j]);
    }
  }

  lemma {:induction false} DistinctIdsAreCounted(items: seq<OrderItem>)
    requires DistinctItems(items)
    ensures |ItemIds(items)| == |items|
  {
    if items != [] {
      var init, x := items[..|items| - 1], items[|items| - 1];
      DistinctIdsAreCounted(init);
      assert items == init + [x];
      assert ItemIds(items) == ItemIds(init) + {x.id};
    }
  }

  lemma FewerIsUnique(items: multiset<OrderItem>, some: multiset<OrderItem>)
    requires UniqueItems(items) && forall x :: some[x] <= items[x]
    ensures UniqueItems(some)
  {
  }

  lemma SurvivorsAreUnique(items: seq<OrderItem>, stock: map<Uuid, Int32>)
    requires DistinctItems(items)
    ensures |ItemIds(Survivors(items, stock))| == |Survivors(items, stock)|
    ensures ItemIds(Survivors(items, stock)) <= ItemIds(items)
  {
    var survivors := Survivors(items, stock);
    DistinctIsUnique(items);
    forall x ensures multiset(survivors)[x] <= multiset(items)[x] {
      SurvivorMultiplicity(items, stock, x);
      PrefixMultiplicity(KeptOf(items, stock, x.productId), Select(items, OfProduct(x.productId)), x);
      SelectMultiplicity(items, OfProduct(x.productId), x);
    }
    FewerIsUnique(multiset(items), multiset(survivors));
    UniqueIsDistinct(survivors);
    DistinctIdsAreCounted(survivors);
    forall x | x in survivors ensures x in items {
      SurvivorsAreItems(items, stock, x);
    }
  }

  /** The tables know the batch's users and products, and neither its orders nor its items. */
  ghost predicate IsNewTo(db: Db, orders: seq<CreateOrder>) {
    && (forall i :: 0 <= i < |orders| ==> orders[i].id !in OrderIds(db.orders) && orders[i].userId in db.users)
    && (forall x :: x in AllItems(orders) ==> x.productId in db.products)
    && ItemIds(AllItems(orders)) !! ItemIds(db.items)
  }

  /** A batch of new carts is admissible if it holds an item and its totals fit the column. */
  lemma NewBatchIsAdmissible(db: Db, seen: map<Uuid, Int32>, orders: seq<CreateOrder>)
    requires WellFormed(orders) && AllItems(orders) != [] && DistinctItems(AllItems(orders)) && IsNewTo(db, orders)
    requires InRange(db, seen, AllItems(orders))
    ensures AdmissibleFor(db, seen, orders)
  {
    var survivors := Survivors(AllItems(orders), seen);
    SurvivorsAreUnique(AllItems(orders), seen);
    forall o, i | ListsAt(orders, seen, o, i) ensures o !in OrderIds(db.orders) && orders[i].userId in db.users {
      assert orders[i].id == o;
    }
    forall x | x in survivors ensures StillLists(orders, seen, x.orderId) {
      ItemIsCounted(survivors, x);
      WellFormedLists(orders, seen, x.orderId);
    }
  }

  /** Tables in which nothing has been ordered yet. */
  ghost function EmptyShop(orders: seq<CreateOrder>, products: map<Uuid, Int32>): Db {
    Db(set order | order in orders :: order.userId, products, [], [])
  }

  lemma EmptyShopIsNew(orders: seq<CreateOrder>, products: map<Uuid, Int32>, batch: seq<CreateOrder>)
    requires forall order :: order in batch ==> order in orders
    requires forall x :: x in AllItems(batch) ==> x.productId in products
    ensures EmptyShop(orders, products).Consistent() && IsNewTo(EmptyShop(orders, products), batch)
  {
    forall i | 0 <= i < |batch| ensures batch[i].userId in EmptyShop(orders, products).users {
      assert batch[i] in orders;
    }
  }

  // ----- the balance, exactly -----

  /** No commit of this batch upsets product p's balance, whatever the tables and the non-negative stock. */
  ghost predicate BalanceSafe(orders: seq<CreateOrder>, p: Uuid) {
    forall initial: map<Uuid, int>, db: Db, faults: set<Call>, outcome: Outcome, db': Db ::
      NonNegative(db.products) && BalancedAt(initial, db, p) && BatchStep(db, orders, faults, outcome, db')
      ==> BalancedAt(initial, db', p)
  }

  lemma SmallTotalKeepsBalance(initial: map<Uuid, int>, db: Db, orders: seq<CreateOrder>, faults: set<Call>,
      outcome: Outcome, db': Db, p: Uuid)
    requires NoneNegative(AllItems(orders)) && Sum(Select(AllItems(orders), OfProduct(p))) <= 0x8000_0000
    requires NonNegative(db.products) && BalancedAt(initial, db, p) && BatchStep(db, orders, faults, outcome, db')
    ensures BalancedAt(initial, db', p)
  {
    if outcome.Committed? && p in db.products && p in initial {
      SelectNoneNegative(AllItems(orders), OfProduct(p));
      TailPopIsForwardScan(Select(AllItems(orders), OfProduct(p)), db.products[p]);
      BalanceKeptExactlyWhen(initial, db, db.products, orders, db', p);
    }
  }

  /** On an empty shelf the update stays within the column, wrapped totals included. */
  lemma NoStockIsInRange(db: Db, items: seq<OrderItem>)
    requires db.products == NoStock(items)
    ensures InRange(db, db.products, items)
  {
    forall p | p in db.products
      ensures INT32_MIN <= db.products[p] - Wrap32(Sum(KeptOf(items, db.products, p))) <= INT32_MAX
    {
      var own := Select(items, OfProduct(p));
      assert KeepCount(own, 0) > 0 ==> Fits(Kept(own, 0), 0);
    }
  }

  /** A batch of new carts that is committed on empty shelves. */
  lemma CommitWithoutStock(orders: seq<CreateOrder>) returns (db: Db, outcome: Outcome, db': Db)
    requires WellFormed(orders) && AllItems(orders) != [] && DistinctItems(AllItems(orders))
    ensures db.products == NoStock(AllItems(orders)) && db.items == [] && StockCommits(db, orders, db')
    ensures BatchStep(db, orders, {}, outcome, db') && outcome.Committed?
  {
    var items := AllItems(orders);
    db := EmptyShop(orders, NoStock(items));
    EmptyShopIsNew(orders, NoStock(items), orders);
    NoStockIsInRange(db, items);
    NewBatchIsAdmissible(db, db.products, orders);
    WellFormedNeverOverdrawn(orders, db.products);
    var t, w, rows;
    t, w, rows, outcome, db' := AdmissibleBatchCommits(db, orders);
  }

  lemma SoldOutCommitUpsets(initial: map<Uuid, int>, db: Db, orders: seq<CreateOrder>, db': Db, p: Uuid)
    requires StockCommits(db, orders, db') && db.items == [] && p in db.products && db.products[p] == 0
    requires NoneNegative(AllItems(orders)) && Sum(Select(AllItems(orders), OfProduct(p))) > 0x8000_0000
    requires p in initial && initial[p] == 0
    ensures BalancedAt(initial, db, p) && !BalancedAt(initial, db', p)
  {
    SelectNoneNegative(AllItems(orders), OfProduct(p));
    OverflowKeptTotal(Select(AllItems(orders), OfProduct(p)));
    BalanceKeptExactlyWhen(initial, db, db.products, orders, db', p);
  }

  lemma SoldOutCommitIsUnsafe(initial: map<Uuid, int>, db: Db, orders: seq<CreateOrder>, outcome: Outcome, db': Db,
      p: Uuid)
    requires BatchStep(db, orders, {}, outcome, db') && outcome.Committed?
    requires db.products == NoStock(AllItems(orders)) && db.items == [] && p in ProductsOf(AllItems(orders))
    requires NoneNegative(AllItems(orders)) && Sum(Select(AllItems(orders), OfProduct(p))) > 0x8000_0000
    requires p in initial && initial[p] == 0
    ensures !BalanceSafe(orders, p)
  {
    SoldOutCommitUpsets(initial, db, orders, db', p);
  }

  lemma OrderedIsListed(items: seq<OrderItem>, p: Uuid)
    requires Select(items, OfProduct(p)) != []
    ensures items != [] && p in ProductsOf(items)
  {
    SelectMembers(items, OfProduct(p));
    assert Select(items, OfProduct(p))[0] in items;
  }

  lemma LargeTotalUpsetsBalance(initial: map<Uuid, int>, orders: seq<CreateOrder>, p: Uuid)
    requires WellFormed(orders) && NoneNegative(AllItems(orders)) && DistinctItems(AllItems(orders))
    requires Sum(Select(AllItems(orders), OfProduct(p))) > 0x8000_0000
    requires p in initial && initial[p] == 0
    ensures !BalanceSafe(orders, p)
  {
    OrderedIsListed(AllItems(orders), p);
    var db, outcome, db' := CommitWithoutStock(orders);
    SoldOutCommitIsUnsafe(initial, db, orders, outcome, db', p);
  }

  /**
   * The repository's balance check, exactly: for a batch of new carts without negative quantities it cannot
   * fail for a product if and only if the batch asks for at most 2^31 pieces of it.
   */
  lemma BalanceIsSafeExactlyWhen(orders: seq<CreateOrder>, p: Uuid)
    requires WellFormed(orders) && NoneNegative(AllItems(orders)) && DistinctItems(AllItems(orders))
    ensures BalanceSafe(orders, p) <==> Sum(Select(AllItems(orders), OfProduct(p))) <= 0x8000_0000
  {
    if Sum(Select(AllItems(orders), OfProduct(p))) <= 0x8000_0000 {
      forall initial: map<Uuid, int>, db: Db, faults: set<Call>, outcome: Outcome, db': Db
        | NonNegative(db.products) && BalancedAt(initial, db, p) && BatchStep(db, orders, faults, outcome, db')
        ensures BalancedAt(initial, db', p)
      {
        SmallTotalKeepsBalance(initial, db, orders, faults, outcome, db', p);
      }
    } else {
      LargeTotalUpsetsBalance(map[p := 0], orders, p);
    }
  }

  lemma TwoHugeLines(x: OrderItem, y: OrderItem, stock: map<Uuid, Int32>)
    requires x.productId == y.productId && x.quantity == y.quantity == INT32_MAX && stock == NoStock([x, y])
    ensures KeptOf([x, y], stock, x.productId) == [x, y] && Wrap32(Sum([x, y])) == -2
    ensures stock == map[x.productId := 0]
  {
    SelectAll([x, y], OfProduct(x.productId));
    SumHead([x, y]);
    SumHead([y]);
    assert [x, y][1..] == [y] && [y][1..] == [];
    assert Sum([x, y]) == 0xffff_fffe;
    assert Fits([x, y], 0);
    assert [x, y][..2] == [x, y];
  }

  lemma TwoHugeLinesSell(orders: seq<CreateOrder>, x: OrderItem, y: OrderItem, db: Db, db': Db)
    requires AllItems(orders) == [x, y] && StockCommits(db, orders, db')
    requires db.products == NoStock([x, y]) && db.items == []
    requires x.productId == y.productId && x.quantity == y.quantity == INT32_MAX
    ensures db.products == map[x.productId := 0] && db'.products == map[x.productId := 2]
    ensures Select(db'.items, OfProduct(x.productId)) == [x, y]
  {
    TwoHugeLines(x, y, db.products);
    assert NewItems(db, db') == db'.items;
  }

  lemma OneOrderBatch(orders: seq<CreateOrder>)
    requires |orders| == 1 && DistinctItems(orders[0].orderItems)
    requires forall x :: x in orders[0].orderItems ==> x.orderId == orders[0].id
    ensures AllItems(orders) == orders[0].orderItems && WellFormed(orders) && DistinctItems(AllItems(orders))
  {
    assert orders[..0] == [] && AllItems([]) + orders[0].orderItems == orders[0].orderItems;
  }

  /** One cart with two lines of 2^31 - 1 pieces each is sold from an empty shelf, which then holds two. */
  lemma OverflowSellsFromNothing(orders: seq<CreateOrder>, x: OrderItem, y: OrderItem)
    returns (db: Db, outcome: Outcome, db': Db)
    requires |orders| == 1 && orders[0].orderItems == [x, y]
    requires x.orderId == y.orderId == orders[0].id && x.id != y.id
    requires x.productId == y.productId && x.quantity == y.quantity == INT32_MAX
    ensures BatchStep(db, orders, {}, outcome, db') && outcome.Committed?
    ensures db.products == map[x.productId := 0] && db'.products == map[x.productId := 2]
    ensures Select(db'.items, OfProduct(x.productId)) == [x, y]
  {
    OneOrderBatch(orders);
    db, outcome, db' := CommitWithoutStock(orders);
    TwoHugeLinesSell(orders, x, y, db, db');
  }
}
