/** What one call of BatchCreateOrder may do to the database, said without its maps and loops. */
module Batch {
  import opened Domain
  import opened Items
  import opened Allocation
  import opened Merge
  import opened Trim
  import opened Ledger
  import opened Database
  import opened Prepare

  datatype Outcome =
    | NoOrders
    | Panicked
    | Failed(call: Call)
    | Committed(responses: map<Uuid, Order>)

  /** The part of product p's items that a stock level lets through. */
  ghost function KeptOf(items: seq<OrderItem>, stock: map<Uuid, Int32>, p: Uuid): seq<OrderItem> {
    var own := Select(items, OfProduct(p));
    if p in stock then Kept(own, stock[p]) else own
  }

  /** All surviving items, in one canonical arrangement. */
  ghost function Survivors(items: seq<OrderItem>, stock: map<Uuid, Int32>): seq<OrderItem> {
    Rows(FirstAppearances(items), Trimmed(GroupsOf(items), stock))
  }

  ghost function NewItems(db: Db, db': Db): seq<OrderItem>
    requires |db.items| <= |db'.items|
  {
    db'.items[|db.items|..]
  }

  ghost function NewOrders(db: Db, db': Db): seq<OrderRow>
    requires |db.orders| <= |db'.orders|
  {
    db'.orders[|db.orders|..]
  }

  /**
   * The effect of a commit whose trim used the stock levels in `stock`: rows are only appended; per
   * product the new rows are the kept items, and their total is subtracted from the current row.
   */
  ghost predicate Applies(db: Db, stock: map<Uuid, Int32>, orders: seq<CreateOrder>, db': Db) {
    var items := AllItems(orders);
    && db'.users == db.users && db'.products.Keys == db.products.Keys
    && db.orders <= db'.orders && db.items <= db'.items
    && (forall x :: x in items ==> x.productId in db.products)
    && (forall p :: Select(NewItems(db, db'), OfProduct(p)) == KeptOf(items, stock, p))
    && (forall p :: p in db.products ==> db'.products[p] == db.products[p] - Wrap32(Sum(KeptOf(items, stock, p))))
  }

  ghost predicate StockCommits(db: Db, orders: seq<CreateOrder>, db': Db) {
    Applies(db, db.products, orders, db')
  }

  /** Each row is an order of the batch, with its user. */
  ghost predicate AreFromBatch(rows: seq<OrderRow>, orders: seq<CreateOrder>) {
    forall r :: r in rows ==> exists i :: 0 <= i < |orders| && orders[i].id == r.id && orders[i].userId == r.userId
  }

  /** What every commit adds keeps the keys: new orders of known users, and new items, each with its order. */
  ghost predicate KeysCommit(db: Db, orders: seq<CreateOrder>, db': Db)
    requires db.orders <= db'.orders && db.items <= db'.items
  {
    var items, rows := NewItems(db, db'), NewOrders(db, db');
    && AreFromBatch(rows, orders)
    && (forall r :: r in rows ==> r.userId in db.users)
    && |OrderIds(rows)| == |rows| && OrderIds(rows) !! OrderIds(db.orders)
    && |ItemIds(items)| == |items| && ItemIds(items) !! ItemIds(db.items)
    && forall x :: x in items ==> x.orderId in OrderIds(db'.orders)
  }

  /** The new orders are exactly those with a new item; each is one of the batch and new to its table. */
  ghost predicate OrderCommits(db: Db, orders: seq<CreateOrder>, db': Db)
    requires db.orders <= db'.orders && db.items <= db'.items
  {
    && KeysCommit(db, orders, db')
    && forall o :: o in OrderIds(NewOrders(db, db')) <==> Count(NewItems(db, db'), o) > 0
  }

  /** A response for exactly the committed orders, listing exactly their new items. */
  ghost predicate Answers(db: Db, db': Db, responses: map<Uuid, Order>)
    requires db.orders <= db'.orders && db.items <= db'.items
  {
    var items := NewItems(db, db');
    && (forall o :: o in responses <==> Count(items, o) > 0)
    && (forall o :: o in responses ==>
        && responses[o].id == o
        && OrderRow(o, responses[o].userId) in NewOrders(db, db')
        && multiset(responses[o].orderItems) == multiset(Select(items, OfOrder(o))))
  }

  // ----- what the trim leaves of the orders -----

  /** How many items the list of order i has left, if i is the first order with its id; a negative one has panicked. */
  ghost function ItemsLeft(orders: seq<CreateOrder>, stock: map<Uuid, Int32>, i: int): int
    requires 0 <= i < |orders|
  {
    var items, o := AllItems(orders), orders[i].id;
    |orders[i].orderItems| - (Count(items, o) - Count(Survivors(items, stock), o))
  }

  /** Order i is the first with id o, and still lists an item. */
  ghost predicate ListsAt(orders: seq<CreateOrder>, stock: map<Uuid, Int32>, o: Uuid, i: int) {
    FirstAt(orders, o, i) && ItemsLeft(orders, stock, i) > 0
  }

  ghost predicate StillLists(orders: seq<CreateOrder>, stock: map<Uuid, Int32>, o: Uuid) {
    exists i :: ListsAt(orders, stock, o, i)
  }

  /** Order i is the first with its id, and that id loses more items than it lists. */
  ghost predicate OverdrawnAt(orders: seq<CreateOrder>, stock: map<Uuid, Int32>, i: int)
    requires 0 <= i < |orders|
  {
    FirstAt(orders, orders[i].id, i) && ItemsLeft(orders, stock, i) < 0
  }

  ghost predicate Overdrawn(orders: seq<CreateOrder>, stock: map<Uuid, Int32>) {
    exists i :: 0 <= i < |orders| && OverdrawnAt(orders, stock, i)
  }

  // ----- what the database demands -----

  /** No row leaves the int4 column when the totals kept at `stock` are subtracted. */
  ghost predicate InRange(db: Db, stock: map<Uuid, Int32>, items: seq<OrderItem>) {
    forall p :: p in db.products ==> INT32_MIN <= db.products[p] - Wrap32(Sum(KeptOf(items, stock, p))) <= INT32_MAX
  }

  /** The orders that still list an item are new and their users known. */
  ghost predicate OrdersWelcome(db: Db, stock: map<Uuid, Int32>, orders: seq<CreateOrder>) {
    forall o, i :: ListsAt(orders, stock, o, i) ==> o !in OrderIds(db.orders) && orders[i].userId in db.users
  }

  /** The survivors' own ids are new, every product of the batch is known, and every survivor finds its order. */
  ghost predicate ItemsWelcome(db: Db, stock: map<Uuid, Int32>, orders: seq<CreateOrder>) {
    var survivors := Survivors(AllItems(orders), stock);
    && |ItemIds(survivors)| == |survivors| && ItemIds(survivors) !! ItemIds(db.items)
    && (forall x :: x in AllItems(orders) ==> x.productId in db.products)
    && forall x :: x in survivors ==> x.orderId in OrderIds(db.orders) || StillLists(orders, stock, x.orderId)
  }

  /** The database refuses this statement for a batch that was trimmed to `stock`. */
  ghost predicate Refused(db: Db, stock: map<Uuid, Int32>, orders: seq<CreateOrder>, call: Call) {
    match call
    case UpdateCall => AllItems(orders) == [] || !InRange(db, stock, AllItems(orders))
    case InsertOrdersCall => !OrdersWelcome(db, stock, orders)
    case InsertItemsCall => !ItemsWelcome(db, stock, orders)
    case _ => false
  }

  /** What the database demands before it commits a batch that was trimmed to `stock`. */
  ghost predicate AdmissibleFor(db: Db, stock: map<Uuid, Int32>, orders: seq<CreateOrder>) {
    && AllItems(orders) != [] && InRange(db, stock, AllItems(orders))
    && OrdersWelcome(db, stock, orders) && ItemsWelcome(db, stock, orders)
  }

  ghost predicate Admissible(db: Db, orders: seq<CreateOrder>) {
    AdmissibleFor(db, db.products, orders)
  }

  // ----- the contract -----

  /** The order in which a call of BatchCreateOrder makes its calls. */
  ghost function Rank(call: Call): nat {
    match call
    case BeginCall => 0
    case ReadProductsCall => 1
    case UpdateCall => 2
    case InsertOrdersCall => 3
    case InsertItemsCall => 4
    case ReadOrdersCall => 5
    case CommitCall => 6
  }

  /** The environment lets the call fail, or the database refuses it. */
  ghost predicate Stops(db: Db, orders: seq<CreateOrder>, faults: set<Call>, call: Call) {
    call in faults || Refused(db, db.products, orders, call)
  }

  /** `call` is the first that stops; the trim runs between the read and the update. */
  ghost predicate FailsAt(db: Db, orders: seq<CreateOrder>, faults: set<Call>, call: Call) {
    && orders != [] && Stops(db, orders, faults, call)
    && (forall e: Call :: Rank(e) < Rank(call) ==> !Stops(db, orders, faults, e))
    && (Rank(call) >= Rank(UpdateCall) ==> !Overdrawn(orders, db.products))
  }

  /** The stock is read, and the trim finds an order that loses more than it lists. */
  ghost predicate Panics(db: Db, orders: seq<CreateOrder>, faults: set<Call>) {
    orders != [] && faults !! {BeginCall, ReadProductsCall} && Overdrawn(orders, db.products)
  }

  /** Nothing fails, the trim does not panic, and the database accepts what it left. */
  ghost predicate Passes(db: Db, orders: seq<CreateOrder>, faults: set<Call>) {
    orders != [] && faults == {} && !Overdrawn(orders, db.products) && Admissible(db, orders)
  }

  /** What a commit does to the tables, for any batch. */
  ghost predicate CommitEffect(db: Db, orders: seq<CreateOrder>, responses: map<Uuid, Order>, db': Db) {
    && StockCommits(db, orders, db') && KeysCommit(db, orders, db')
    && (forall o :: o in OrderIds(NewOrders(db, db')) <==> StillLists(orders, db.products, o))
    && (WellFormed(orders) ==> OrderCommits(db, orders, db'))
    && (WellFormed(orders) && db.Consistent() ==> Answers(db, db', responses))
  }

  /** The contract of one call, for any batch: each outcome with its exact cause and effect. */
  ghost predicate BatchStep(db: Db, orders: seq<CreateOrder>, faults: set<Call>, outcome: Outcome, db': Db) {
    match outcome
    case NoOrders => orders == [] && db' == db
    case Panicked => Panics(db, orders, faults) && db' == db
    case Failed(call) =>
      FailsAt(db, orders, faults, call) && !Panics(db, orders, faults) && !Passes(db, orders, faults) && db' == db
    case Committed(responses) => Passes(db, orders, faults) && CommitEffect(db, orders, responses, db')
  }

  /** Batch, tables and faults decide the outcome: a call is reported exactly when it is the first that stops. */
  lemma FailsExactlyWhen(db: Db, orders: seq<CreateOrder>, faults: set<Call>, outcome: Outcome, db': Db, call: Call)
    requires BatchStep(db, orders, faults, outcome, db')
    ensures outcome == Failed(call) <==> FailsAt(db, orders, faults, call)
  {
    if FailsAt(db, orders, faults, call) {
      assert !outcome.Panicked? && !outcome.Committed? && outcome.Failed?;
      assert Rank(outcome.call) == Rank(call);
    }
  }

  // ----- appended rows -----

  lemma CommitAppends(db: Db, db': Db)
    requires db.orders <= db'.orders && db.items <= db'.items
    ensures db'.items == db.items + NewItems(db, db') && db'.orders == db.orders + NewOrders(db, db')
    ensures OrderIds(db'.orders) == OrderIds(db.orders) + OrderIds(NewOrders(db, db'))
  {
  }

  // ----- survivors -----

  lemma GroupingIsUnique(items: seq<OrderItem>, merged: Groups)
    requires Grouping(items, merged)
    ensures merged == GroupsOf(items)
  {
    forall p ensures p in merged <==> p in GroupsOf(items)
      ensures p in merged ==> merged[p] == GroupsOf(items)[p]
    {
      assert GroupAt(items, merged, p);
      GroupsAreGroupings(items, p);
    }
  }

  lemma BatchIsGrouped(items: seq<OrderItem>)
    ensures Grouping(items, GroupsOf(items))
  {
    forall p ensures GroupAt(items, GroupsOf(items), p) {
      GroupsAreGroupings(items, p);
    }
  }

  lemma TrimmedItems(items: seq<OrderItem>, merged: Groups, stock: map<Uuid, Int32>, p: Uuid)
    requires Grouping(items, merged)
    ensures ItemsOf(Trimmed(merged, stock), p) == KeptOf(items, stock, p)
    ensures p in merged ==> Trimmed(merged, stock)[p] == Group(KeptOf(items, stock, p))
  {
    assert GroupAt(items, merged, p);
  }

  lemma TrimmedIsSorted(merged: Groups, stock: map<Uuid, Int32>)
    requires Sorted(merged)
    ensures Sorted(Trimmed(merged, stock))
  {
  }

  lemma SurvivorsPerProduct(items: seq<OrderItem>, stock: map<Uuid, Int32>, p: Uuid)
    ensures Select(Survivors(items, stock), OfProduct(p)) == KeptOf(items, stock, p)
  {
    var merged := GroupsOf(items);
    BatchIsGrouped(items);
    GroupsAreSorted(items, merged);
    TrimmedIsSorted(merged, stock);
    RowsPerProduct(FirstAppearances(items), Trimmed(merged, stock), p);
    TrimmedItems(items, merged, stock, p);
  }

  /** Rows that agree with the kept items product by product are the survivors, rearranged. */
  lemma RowsAreSurvivors(items: seq<OrderItem>, stock: map<Uuid, Int32>, rows: seq<OrderItem>)
    requires forall p :: Select(rows, OfProduct(p)) == KeptOf(items, stock, p)
    ensures multiset(rows) == multiset(Survivors(items, stock))
    ensures forall o :: Count(rows, o) == Count(Survivors(items, stock), o)
    ensures |rows| == |Survivors(items, stock)| && ItemIds(rows) == ItemIds(Survivors(items, stock))
  {
    var survivors := Survivors(items, stock);
    forall p ensures Select(rows, OfProduct(p)) == Select(survivors, OfProduct(p)) {
      SurvivorsPerProduct(items, stock, p);
    }
    SameByProduct(rows, survivors);
    SameSize(rows, survivors);
    forall o ensures Count(rows, o) == Count(survivors, o) {
      SameItemsSameSelection(rows, survivors, OfOrder(o));
    }
    forall x ensures x in rows <==> x in survivors {
      assert x in multiset(rows) <==> x in multiset(survivors);
    }
  }

  lemma SurvivorsAreItems(items: seq<OrderItem>, stock: map<Uuid, Int32>, x: OrderItem)
    requires x in Survivors(items, stock)
    ensures x in items
  {
    SelectMembers(Survivors(items, stock), OfProduct(x.productId));
    SurvivorsPerProduct(items, stock, x.productId);
    assert x in KeptOf(items, stock, x.productId);
    SelectMembers(items, OfProduct(x.productId));
  }

  /** Under the int32 bound a batch is served first come, first served: the survivors are those items. */
  lemma SurvivorsAreServed(items: seq<OrderItem>, stock: map<Uuid, Int32>)
    requires NoneNegative(items) && forall p :: p in stock ==> stock[p] >= 0
    requires forall p :: Sum(Select(items, OfProduct(p))) <= 0x8000_0000
    ensures multiset(Survivors(items, stock)) == multiset(Serve(items, stock))
  {
    forall p ensures Select(Survivors(items, stock), OfProduct(p)) == Select(Serve(items, stock), OfProduct(p)) {
      SurvivorsPerProduct(items, stock, p);
      ServePerProduct(items, stock, p);
      if p in stock {
        SelectNoneNegative(items, OfProduct(p));
        assert Sum(Select(items, OfProduct(p))) <= 0x8000_0000;
        TailPopIsForwardScan(Select(items, OfProduct(p)), stock[p]);
      }
    }
    SameByProduct(Survivors(items, stock), Serve(items, stock));
  }
}
