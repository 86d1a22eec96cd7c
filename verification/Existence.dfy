/**
 * The contract of a batch is met by runs of its statements: whatever outcome it allows, commit, failure
 * or panic, some run ends with. Each function below is one possible answer of a loop or
 * a query whose contract leaves the order open.
 */
module Existence {
  import opened Domain
  import opened Items
  import opened Merge
  import opened Trim
  import opened Ledger
  import opened Database
  import opened Prepare
  import opened Batch
  import opened BatchProof

  /** One row for each known product of `ids`. */
  ghost function RowsFor(ids: seq<Uuid>, stock: map<Uuid, Int32>): seq<Product> {
    if ids == [] then []
    else
      var p := ids[|ids| - 1];
      RowsFor(ids[..|ids| - 1], stock) + if p in stock then [Product(p, stock[p])] else []
  }

  ghost predicate RowsAmong(rows: seq<Product>, ids: seq<Uuid>) {
    forall i :: 0 <= i < |rows| ==> rows[i].id in ids
  }

  ghost function StockAmong(stock: map<Uuid, Int32>, ids: seq<Uuid>): map<Uuid, Int32> {
    map p | p in stock && p in ids :: stock[p]
  }

  ghost predicate AreRowsFor(rows: seq<Product>, ids: seq<Uuid>, stock: map<Uuid, Int32>) {
    RowsAmong(rows, ids) && DistinctIds(rows) && StockOf(rows) == StockAmong(stock, ids)
  }

  lemma StockAmongPush(stock: map<Uuid, Int32>, ids: seq<Uuid>, p: Uuid)
    ensures StockAmong(stock, ids + [p]) ==
      if p in stock then StockAmong(stock, ids)[p := stock[p]] else StockAmong(stock, ids)
  {
  }

  lemma RowsForPush(rows: seq<Product>, ids: seq<Uuid>, stock: map<Uuid, Int32>, p: Uuid)
    requires AreRowsFor(rows, ids, stock) && p !in ids
    ensures AreRowsFor(rows + if p in stock then [Product(p, stock[p])] else [], ids + [p], stock)
  {
    StockAmongPush(stock, ids, p);
    if p in stock {
      assert (rows + [Product(p, stock[p])])[..|rows|] == rows;
    } else {
      assert rows + [] == rows;
    }
  }

  lemma {:induction false} RowsForAnswers(ids: seq<Uuid>, stock: map<Uuid, Int32>)
    requires NoDuplicates(ids)
    ensures AreRowsFor(RowsFor(ids, stock), ids, stock)
  {
    if ids != [] {
      var init, p := ids[..|ids| - 1], ids[|ids| - 1];
      RowsForAnswers(init, stock);
      RowsForPush(RowsFor(init, stock), init, stock, p);
      assert ids == init + [p];
    }
  }

  ghost function ShortMap(before: OrderMap, popped: seq<OrderItem>): OrderMap
    requires !Overdraws(popped, before)
  {
    map o | o in before ::
      assert Count(popped, o) <= |before[o].orderItems|;
      before[o].(orderItems := before[o].orderItems[..|before[o].orderItems| - Count(popped, o)])
  }

  lemma ShortMapShortens(before: OrderMap, popped: seq<OrderItem>)
    requires !Overdraws(popped, before)
    ensures ShortenedBy(before, ShortMap(before, popped), popped)
  {
    forall o | o in before ensures ShortenedAt(before[o], ShortMap(before, popped)[o], Count(popped, o)) {
      assert Count(popped, o) <= |before[o].orderItems|;
    }
  }

  ghost function IdsOf(orders: seq<CreateOrder>): seq<Uuid> {
    seq(|orders|, i requires 0 <= i < |orders| => orders[i].id)
  }

  lemma StartExists(seen: map<Uuid, Int32>, orders: seq<CreateOrder>)
    ensures var items := AllItems(orders);
      var ids := FirstAppearances(items);
      Started(seen, orders, GroupsOf(items), OrdersById(orders), ids, RowsFor(ids, seen))
  {
    var items := AllItems(orders);
    BatchIsGrouped(items);
    OrdersAreFirst(orders);
    RowsForAnswers(FirstAppearances(items), seen);
  }

  /** A batch has a plan at every stock that overdraws none of its orders. */
  lemma PlanExists(seen: map<Uuid, Int32>, orders: seq<CreateOrder>) returns (t: Plan)
    requires !Overdrawn(orders, seen)
    ensures PlanStarts(seen, orders, t) && PlanFits(t) && PlanTrims(t)
  {
    var items := AllItems(orders);
    var merged0, mapOrder0, ids := GroupsOf(items), OrdersById(orders), FirstAppearances(items);
    var rows := RowsFor(ids, seen);
    StartExists(seen, orders);
    PanicsWhenOverdrawn(seen, orders, merged0, mapOrder0, ids, rows);
    ShortMapShortens(mapOrder0, Popped(rows, merged0));
    t := Plan(merged0, mapOrder0, ids, IdsOf(orders), rows,
      Trimmed(merged0, StockOf(rows)), ShortMap(mapOrder0, Popped(rows, merged0)));
    forall i | 0 <= i < |orders| ensures orders[i].id in t.orderIds {
      assert t.orderIds[i] == orders[i].id;
    }
  }

  // ----- the writing statements -----

  ghost function QueryOf(keys: seq<Uuid>, merged: Groups): seq<When> {
    if keys == [] then []
    else
      var p := keys[|keys| - 1];
      QueryOf(keys[..|keys| - 1], merged) + if p in merged then [When(p, merged[p].orderedItemQuantity)] else []
  }

  lemma {:induction false} QueryOfEvaluates(keys: seq<Uuid>, merged: Groups, p: Uuid)
    ensures EvalCase(QueryOf(keys, merged), p) ==
      if p in keys && p in merged then Some(merged[p].orderedItemQuantity) else None
  {
    if keys != [] {
      var init, last := keys[..|keys| - 1], keys[|keys| - 1];
      QueryOfEvaluates(init, merged, p);
      if last in merged {
        EvalCasePush(QueryOf(init, merged), When(last, merged[last].orderedItemQuantity), p);
      } else {
        assert QueryOf(keys, merged) == QueryOf(init, merged);
      }
    }
  }

  lemma QueryExists(keys: seq<Uuid>, merged: Groups)
    requires Visits(keys, merged)
    ensures IsQuery(QueryOf(keys, merged), merged)
  {
    var query := QueryOf(keys, merged);
    forall p ensures EvalCase(query, p) == if p in merged then Some(merged[p].orderedItemQuantity) else None {
      QueryOfEvaluates(keys, merged, p);
    }
    if query == [] {
      forall p ensures p !in merged {
        assert EvalCase(query, p) == None;
      }
    } else {
      assert EvalCase(query, query[0].id).Some?;
    }
  }

  ghost function RowOf(o: Uuid, mapOrder: OrderMap): seq<OrderRow> {
    if o in mapOrder && mapOrder[o].orderItems != [] then [OrderRow(o, mapOrder[o].userId)] else []
  }

  /** One row per id, at its first occurrence. */
  ghost function OrderRowsOf(orders: seq<CreateOrder>, mapOrder: OrderMap): seq<OrderRow> {
    if orders == [] then []
    else
      var init, o := orders[..|orders| - 1], orders[|orders| - 1].id;
      OrderRowsOf(init, mapOrder) + if o in CartsOf(init) then [] else RowOf(o, mapOrder)
  }

  ghost function CartsOf(orders: seq<CreateOrder>): set<Uuid> {
    set order | order in orders :: order.id
  }

  /** A row, with its user, for each order of `carts` that still lists an item. */
  ghost predicate AreOrderRows(rows: seq<OrderRow>, carts: set<Uuid>, mapOrder: OrderMap) {
    && |OrderIds(rows)| == |rows|
    && (forall o :: o in OrderIds(rows) <==> o in carts && o in mapOrder && mapOrder[o].orderItems != [])
    && (forall r :: r in rows ==> r.id in mapOrder && r.userId == mapOrder[r.id].userId)
  }

  lemma OrderRowsPush(rows: seq<OrderRow>, carts: set<Uuid>, mapOrder: OrderMap, o: Uuid)
    requires AreOrderRows(rows, carts, mapOrder) && o !in carts
    ensures AreOrderRows(rows + RowOf(o, mapOrder), carts + {o}, mapOrder)
  {
    var row := RowOf(o, mapOrder);
    OrderIdsConcat(rows, row);
    if row == [] {
      assert rows + row == rows;
    } else {
      assert OrderIds(row) == {o};
    }
  }

  lemma {:induction false} OrderRowsMeaning(orders: seq<CreateOrder>, mapOrder: OrderMap)
    ensures AreOrderRows(OrderRowsOf(orders, mapOrder), CartsOf(orders), mapOrder)
  {
    if orders != [] {
      var init, order := orders[..|orders| - 1], orders[|orders| - 1];
      OrderRowsMeaning(init, mapOrder);
      assert orders == init + [order] && CartsOf(orders) == CartsOf(init) + {order.id};
      if order.id in CartsOf(init) {
        assert OrderRowsOf(orders, mapOrder) == OrderRowsOf(init, mapOrder) && CartsOf(orders) == CartsOf(init);
      } else {
        OrderRowsPush(OrderRowsOf(init, mapOrder), CartsOf(init), mapOrder, order.id);
      }
    }
  }

  lemma OrderRowsExist(seen: map<Uuid, Int32>, orders: seq<CreateOrder>, mapOrder: OrderMap)
    requires Shortened(orders, seen, mapOrder)
    ensures IsOrderArgs(OrderRowsOf(orders, mapOrder), mapOrder)
  {
    OrderRowsMeaning(orders, mapOrder);
    forall o | o in mapOrder ensures o in CartsOf(orders) {
      assert ShortAt(orders, seen, o, mapOrder[o]);
      var i :| FirstAt(orders, o, i);
      assert orders[i] in orders;
    }
  }

  /** A planned batch that the database would accept has a commit, on whatever stock it was planned. */
  lemma PlannedBatchCommits(db: Db, seen: map<Uuid, Int32>, orders: seq<CreateOrder>, t: Plan)
    returns (w: Writes, db': Db)
    requires AdmissibleFor(db, seen, orders) && seen.Keys <= db.products.Keys
    requires PlanStarts(seen, orders, t) && PlanTrims(t)
    ensures TraceWrites(db, {}, t, w, None, db')
  {
    TracePlans(seen, orders, t);
    w := WritesExist(seen, orders, t);
    UnrefusedIsAdmissible(db, seen, orders);
    UpdateJudged(db, seen, orders, t, w);
    OrdersJudged(db, seen, orders, t, w);
    ItemsJudged(db, seen, orders, t, w);
    db' := db.(products := db.Updated(w.query, t.productIds).products,
               orders := db.orders + w.orderArgs, items := db.items + w.itemArgs);
  }

  lemma WritesExist(seen: map<Uuid, Int32>, orders: seq<CreateOrder>, t: Plan) returns (w: Writes)
    requires Planned(seen, orders, t.merged, t.mapOrder, t.productIds)
    ensures IsQuery(w.query, t.merged) && IsOrderArgs(w.orderArgs, t.mapOrder) && IsItemArgs(w.itemArgs, t.merged)
  {
    var items, keys := AllItems(orders), t.productIds;
    BatchIsGrouped(items);
    GroupsAreSorted(items, GroupsOf(items));
    PlannedIsSorted(seen, orders, t.merged, t.mapOrder, keys);
    QueryExists(keys, t.merged);
    OrderRowsExist(seen, orders, t.mapOrder);
    w := Writes(QueryOf(keys, t.merged), OrderRowsOf(orders, t.mapOrder), Rows(keys, t.merged));
    forall p ensures Select(w.itemArgs, OfProduct(p)) == ItemsOf(t.merged, p) {
      RowsPerProduct(keys, t.merged, p);
    }
  }

  // ----- the answers -----

  ghost function AnswerTo(db: Db, ids: seq<Uuid>, row: OrderRow): seq<GetOrdersRow> {
    var items := Select(db.items, OfOrder(row.id));
    if row.id in ids && items != [] then [GetOrdersRow(row.id, row.userId, items)] else []
  }

  ghost function AnswerOf(db: Db, ids: seq<Uuid>, n: nat): seq<GetOrdersRow>
    requires n <= |db.orders|
  {
    if n == 0 then []
    else
      AnswerOf(db, ids, n - 1) + AnswerTo(db, ids, db.orders[n - 1])
  }

  /** The rows answer for the first n orders of the table. */
  ghost predicate AreAnswers(rows: seq<GetOrdersRow>, db: Db, ids: seq<Uuid>, n: nat)
    requires n <= |db.orders|
  {
    && (forall r :: r in rows ==>
      r.id in ids && OrderRow(r.id, r.userId) in db.orders && r.orderItems != []
      && r.orderItems == Select(db.items, OfOrder(r.id)))
    && (forall i :: 0 <= i < n ==> IsAnswered(rows, db, ids, db.orders[i].id))
  }

  ghost predicate IsAnswered(rows: seq<GetOrdersRow>, db: Db, ids: seq<Uuid>, o: Uuid) {
    o in ids && Count(db.items, o) > 0 ==> exists r :: r in rows && r.id == o
  }

  lemma AnswersGrow(rows: seq<GetOrdersRow>, more: seq<GetOrdersRow>, db: Db, ids: seq<Uuid>, o: Uuid)
    requires IsAnswered(rows, db, ids, o)
    ensures IsAnswered(rows + more, db, ids, o)
  {
    if o in ids && Count(db.items, o) > 0 {
      var r :| r in rows && r.id == o;
      assert r in rows + more;
    }
  }

  lemma {:induction false} AnswerOfMeaning(db: Db, ids: seq<Uuid>, n: nat)
    requires n <= |db.orders|
    ensures AreAnswers(AnswerOf(db, ids, n), db, ids, n)
  {
    if n > 0 {
      var row, before := db.orders[n - 1], AnswerOf(db, ids, n - 1);
      AnswerOfMeaning(db, ids, n - 1);
      var more := AnswerTo(db, ids, row);
      forall i | 0 <= i < n ensures IsAnswered(before + more, db, ids, db.orders[i].id) {
        if i < n - 1 {
          AnswersGrow(before, more, db, ids, db.orders[i].id);
        } else if more != [] {
          assert more[0] in before + more;
        }
      }
    }
  }

  lemma AnswerExists(db: Db, ids: seq<Uuid>) returns (rows: seq<GetOrdersRow>)
    ensures IsOrdersAnswer(db, ids, rows)
  {
    rows := AnswerOf(db, ids, |db.orders|);
    AnswerOfMeaning(db, ids, |db.orders|);
    forall o | o in OrderIds(db.orders) ensures IsAnswered(rows, db, ids, o) {
      var i :| 0 <= i < |db.orders| && db.orders[i].id == o;
    }
  }

  ghost function ResponsesOf(rows: seq<GetOrdersRow>, mapOrder: OrderMap): map<Uuid, Order> {
    map o | o in mapOrder && mapOrder[o].orderItems != [] && exists r :: r in rows && r.id == o ::
      var r :| r in rows && r.id == o;
      Order(r.id, r.userId, r.orderItems)
  }

  lemma ResponsesExist(rows: seq<GetOrdersRow>, mapOrder: OrderMap)
    ensures IsResponses(ResponsesOf(rows, mapOrder), rows, mapOrder)
  {
  }

  /** The other half of the commit condition: when nothing fails or panics, an admissible batch runs to its commit. */
  lemma AdmissibleBatchCommits(db: Db, orders: seq<CreateOrder>)
    returns (t: Plan, w: Writes, rows: seq<GetOrdersRow>, outcome: Outcome, db': Db)
    requires orders != [] && !Overdrawn(orders, db.products) && Admissible(db, orders)
    ensures Traced(db, orders, {}, t, w, rows, outcome, db') && outcome.Committed?
    ensures BatchStep(db, orders, {}, outcome, db')
  {
    t := PlanExists(db.products, orders);
    w, db' := PlannedBatchCommits(db, db.products, orders, t);
    rows := AnswerExists(db', t.orderIds);
    ResponsesExist(rows, t.mapOrder);
    outcome := Committed(ResponsesOf(rows, t.mapOrder));
    TracedIsStep(db, orders, {}, t, w, rows, outcome, db');
  }

  lemma OverdrawnPlanStops(seen: map<Uuid, Int32>, orders: seq<CreateOrder>) returns (t: Plan)
    requires Overdrawn(orders, seen)
    ensures PlanStarts(seen, orders, t) && !PlanFits(t)
  {
    var items := AllItems(orders);
    var merged0, mapOrder0, ids := GroupsOf(items), OrdersById(orders), FirstAppearances(items);
    StartExists(seen, orders);
    PanicsWhenOverdrawn(seen, orders, merged0, mapOrder0, ids, RowsFor(ids, seen));
    t := Plan(merged0, mapOrder0, ids, IdsOf(orders), RowsFor(ids, seen), map[], map[]);
    forall i | 0 <= i < |orders| ensures orders[i].id in t.orderIds {
      assert t.orderIds[i] == orders[i].id;
    }
  }

  /** The other half of the panic condition: an overdrawn batch whose stock is read runs into the reslice. */
  lemma OverdrawnBatchPanics(db: Db, orders: seq<CreateOrder>, faults: set<Call>) returns (t: Plan)
    requires orders != [] && faults !! {BeginCall, ReadProductsCall} && Overdrawn(orders, db.products)
    ensures forall w, rows :: Traced(db, orders, faults, t, w, rows, Panicked, db)
  {
    t := OverdrawnPlanStops(db.products, orders);
  }

  lemma RankOrder(call: Call)
    ensures !call.BeginCall? ==> Rank(BeginCall) < Rank(call)
    ensures !call.BeginCall? && !call.ReadProductsCall? ==> Rank(ReadProductsCall) < Rank(call)
    ensures call.InsertOrdersCall? || call.InsertItemsCall? || call.ReadOrdersCall? || call.CommitCall? ==>
      Rank(UpdateCall) < Rank(call)
    ensures call.InsertItemsCall? || call.ReadOrdersCall? || call.CommitCall? ==> Rank(InsertOrdersCall) < Rank(call)
    ensures call.ReadOrdersCall? || call.CommitCall? ==> Rank(InsertItemsCall) < Rank(call)
    ensures call.CommitCall? ==> Rank(ReadOrdersCall) < Rank(call)
  {
  }

  /** The calls before `call`, one by one. */
  lemma EarlierCallsRun(db: Db, orders: seq<CreateOrder>, faults: set<Call>, call: Call)
    requires forall e: Call :: Rank(e) < Rank(call) ==> !Stops(db, orders, faults, e)
    ensures RunsUpTo(db, orders, faults, call)
  {
    RankOrder(call);
  }

  /** Whenever `call` is the first that stops, the statements run up to it and fail there. */
  lemma FailureIsTraced(db: Db, orders: seq<CreateOrder>, faults: set<Call>, call: Call) returns (t: Plan, w: Writes)
    requires FailsAt(db, orders, faults, call)
    ensures TraceFailure(db, orders, faults, t, w, call)
  {
    EarlierCallsRun(db, orders, faults, call);
    if call.BeginCall? || call.ReadProductsCall? {
      t, w := Plan(map[], map[], [], [], [], map[], map[]), Writes([], [], []);
    } else {
      t, w := WriteFailureIsTraced(db, orders, faults, call);
    }
  }

  lemma WriteFailureIsTraced(db: Db, orders: seq<CreateOrder>, faults: set<Call>, call: Call)
    returns (t: Plan, w: Writes)
    requires !call.BeginCall? && !call.ReadProductsCall? && !Overdrawn(orders, db.products)
    requires Stops(db, orders, faults, call) && RunsUpTo(db, orders, faults, call)
    ensures TraceFailure(db, orders, faults, t, w, call)
  {
    t := PlanExists(db.products, orders);
    w := FailingWritesExist(db, orders, faults, t, call);
  }

  lemma FailingWritesExist(db: Db, orders: seq<CreateOrder>, faults: set<Call>, t: Plan, call: Call)
    returns (w: Writes)
    requires PlanStarts(db.products, orders, t) && PlanTrims(t) && Rank(call) >= Rank(UpdateCall)
    requires Stops(db, orders, faults, call) && RunsUpTo(db, orders, faults, call)
    ensures ExecutionFails(db, faults, t, w, call)
  {
    TracePlans(db.products, orders, t);
    w := JudgedWritesExist(db, orders, t);
    JudgedFails(db, orders, faults, t, w, call);
  }

  // ----- some outcome -----

  lemma NothingStopsMeansCommit(db: Db, orders: seq<CreateOrder>, faults: set<Call>)
    requires forall call: Call :: !Stops(db, orders, faults, call)
    ensures faults == {} && Admissible(db, orders)
  {
    forall call: Call ensures call !in faults && !Refused(db, db.products, orders, call) {
      assert !Stops(db, orders, faults, call);
    }
    UnrefusedIsAdmissible(db, db.products, orders);
  }

  /** If some call stops, one of them is the first. */
  lemma {:induction false} FirstStopExists(db: Db, orders: seq<CreateOrder>, faults: set<Call>, call: Call)
    returns (first: Call)
    requires Stops(db, orders, faults, call)
    ensures Stops(db, orders, faults, first)
    ensures forall e: Call :: Rank(e) < Rank(first) ==> !Stops(db, orders, faults, e)
    decreases Rank(call)
  {
    if e: Call :| Rank(e) < Rank(call) && Stops(db, orders, faults, e) {
      first := FirstStopExists(db, orders, faults, e);
    } else {
      first := call;
    }
  }

  /** A call always has an outcome: whatever batch, tables and failing calls, the contract allows one. */
  lemma OutcomeExists(db: Db, orders: seq<CreateOrder>, faults: set<Call>) returns (outcome: Outcome, db': Db)
    ensures BatchStep(db, orders, faults, outcome, db')
  {
    if orders == [] {
      outcome, db' := NoOrders, db;
    } else if faults !! {BeginCall, ReadProductsCall} && Overdrawn(orders, db.products) {
      PanickedStep(db, orders, faults);
      outcome, db' := Panicked, db;
    } else if call: Call :| Stops(db, orders, faults, call) {
      var first := FirstStopExists(db, orders, faults, call);
      ReadStopsFirst(db, orders, faults, first);
      FailedStep(db, orders, faults, first);
      outcome, db' := Failed(first), db;
    } else {
      NothingStopsMeansCommit(db, orders, faults);
      var t, w, rows;
      t, w, rows, outcome, db' := AdmissibleBatchCommits(db, orders);
    }
  }

  /** A trim that would panic is not reached if one of the first two calls fails. */
  lemma ReadStopsFirst(db: Db, orders: seq<CreateOrder>, faults: set<Call>, first: Call)
    requires forall e: Call :: Rank(e) < Rank(first) ==> !Stops(db, orders, faults, e)
    requires !(faults !! {BeginCall, ReadProductsCall} && Overdrawn(orders, db.products))
    ensures Rank(first) >= Rank(UpdateCall) ==> !Overdrawn(orders, db.products)
  {
    if Rank(first) >= Rank(UpdateCall) {
      assert !Stops(db, orders, faults, BeginCall) && !Stops(db, orders, faults, ReadProductsCall);
    }
  }

  /** The statements given to the three writing calls, and what the database makes of them. */
  ghost predicate AreJudged(db: Db, orders: seq<CreateOrder>, t: Plan, w: Writes) {
    && IsQuery(w.query, t.merged) && IsOrderArgs(w.orderArgs, t.mapOrder) && IsItemArgs(w.itemArgs, t.merged)
    && (db.AcceptsUpdate(w.query, t.productIds) <==> !Refused(db, db.products, orders, UpdateCall))
    && (db.AcceptsOrders(w.orderArgs) <==> !Refused(db, db.products, orders, InsertOrdersCall))
    && (db.(orders := db.orders + w.orderArgs).AcceptsItems(w.itemArgs)
        <==> !Refused(db, db.products, orders, InsertItemsCall))
  }

  lemma JudgedUpdateFails(db: Db, orders: seq<CreateOrder>, faults: set<Call>, t: Plan, w: Writes)
    requires AreJudged(db, orders, t, w) && Stops(db, orders, faults, UpdateCall)
    ensures ExecutionFails(db, faults, t, w, UpdateCall)
  {
  }

  lemma JudgedInsertFails(db: Db, orders: seq<CreateOrder>, faults: set<Call>, t: Plan, w: Writes)
    requires AreJudged(db, orders, t, w) && RunsUpTo(db, orders, faults, InsertOrdersCall)
    requires Stops(db, orders, faults, InsertOrdersCall)
    ensures ExecutionFails(db, faults, t, w, InsertOrdersCall)
  {
  }

  lemma JudgedItemsFail(db: Db, orders: seq<CreateOrder>, faults: set<Call>, t: Plan, w: Writes)
    requires AreJudged(db, orders, t, w) && RunsUpTo(db, orders, faults, InsertItemsCall)
    requires Stops(db, orders, faults, InsertItemsCall)
    ensures ExecutionFails(db, faults, t, w, InsertItemsCall)
  {
  }

  lemma JudgedAllRun(db: Db, orders: seq<CreateOrder>, faults: set<Call>, t: Plan, w: Writes)
    requires AreJudged(db, orders, t, w) && RunsUpTo(db, orders, faults, ReadOrdersCall)
    ensures AllRun(db, faults, t, w)
  {
  }

  lemma CommitIsLast(db: Db, orders: seq<CreateOrder>, faults: set<Call>)
    requires RunsUpTo(db, orders, faults, CommitCall)
    ensures RunsUpTo(db, orders, faults, ReadOrdersCall) && ReadOrdersCall !in faults
  {
  }

  lemma LateCallFails(db: Db, faults: set<Call>, t: Plan, w: Writes, call: Call)
    requires AllRun(db, faults, t, w) && call in faults
    requires call.ReadOrdersCall? || (call.CommitCall? && ReadOrdersCall !in faults)
    ensures ExecutionFails(db, faults, t, w, call)
  {
  }

  lemma JudgedFails(db: Db, orders: seq<CreateOrder>, faults: set<Call>, t: Plan, w: Writes, call: Call)
    requires AreJudged(db, orders, t, w) && Rank(call) >= Rank(UpdateCall)
    requires Stops(db, orders, faults, call) && RunsUpTo(db, orders, faults, call)
    ensures ExecutionFails(db, faults, t, w, call)
  {
    match call {
      case BeginCall =>
      case ReadProductsCall =>
      case UpdateCall => JudgedUpdateFails(db, orders, faults, t, w);
      case InsertOrdersCall => JudgedInsertFails(db, orders, faults, t, w);
      case InsertItemsCall => JudgedItemsFail(db, orders, faults, t, w);
      case ReadOrdersCall =>
        JudgedAllRun(db, orders, faults, t, w);
        LateCallFails(db, faults, t, w, call);
      case CommitCall =>
        CommitIsLast(db, orders, faults);
        JudgedAllRun(db, orders, faults, t, w);
        LateCallFails(db, faults, t, w, call);
    }
  }

  lemma JudgedWritesExist(db: Db, orders: seq<CreateOrder>, t: Plan) returns (w: Writes)
    requires Planned(db.products, orders, t.merged, t.mapOrder, t.productIds)
    ensures AreJudged(db, orders, t, w)
  {
    w := WritesExist(db.products, orders, t);
    UpdateJudged(db, db.products, orders, t, w);
    OrdersJudged(db, db.products, orders, t, w);
    ItemsJudged(db, db.products, orders, t, w);
  }
}
