/** BatchCreateOrder: one transaction for the batch, then one answer for every caller. */
module Service {
  import opened Domain
  import opened Items
  import opened Merge
  import opened Trim
  import opened Ledger
  import opened Database
  import opened Prepare
  import opened Batch
  import opened BatchProof
  import opened Channels

  class OrderService {
    var db: Db

    constructor (db: Db)
      ensures this.db == db
    {
      this.db := db;
    }

    /** Read the stock of the batch's products and trim the batch to it. */
    method PlanBatch(tx: Transaction, merged0: Groups, mapOrder0: OrderMap, productIds: seq<Uuid>,
        ghost orderIds: seq<Uuid>, ghost params: seq<CreateOrder>)
      returns (read: bool, fits: bool, merged: Groups, mapOrder: OrderMap, ghost t: Plan)
      requires IsMerged(params, merged0, mapOrder0, productIds, orderIds)
      ensures read <==> ReadProductsCall !in tx.faults
      ensures read ==> PlanStarts(tx.view.products, params, t) && (fits <==> PlanFits(t))
      ensures read && fits ==> PlanTrims(t) && Keyed(mapOrder) && Sorted(merged)
      ensures t.merged == merged && t.mapOrder == mapOrder && t.productIds == productIds && t.orderIds == orderIds
    {
      merged, mapOrder := merged0, mapOrder0;
      t := Plan(merged, mapOrder, productIds, orderIds, [], merged, mapOrder);
      var products;
      read, products := tx.FindProductsByIds(productIds);
      if !read {
        return false, false, merged, mapOrder, t;
      }
      t := t.(products := products);
      GroupsAreSorted(AllItems(params), merged);
      fits, merged, mapOrder := CheckDecreaseQuantity(products, merged, mapOrder);
      t := t.(merged := merged, mapOrder := mapOrder);
      if fits {
        TrimmedIsSorted(t.merged0, StockOf(products));
        ShortenedIsKeyed(t.mapOrder0, mapOrder, Popped(products, t.merged0), params);
      }
    }

    /** The three writing statements; the first that fails is reported. */
    method WriteBatch(tx: Transaction, merged: Groups, mapOrder: OrderMap, productIds: seq<Uuid>, ghost t: Plan)
      returns (failed: Option<Call>, ghost w: Writes)
      requires Keyed(mapOrder) && Sorted(merged)
      requires t.merged == merged && t.mapOrder == mapOrder && t.productIds == productIds
      modifies tx
      ensures TraceWrites(old(tx.view), tx.faults, t, w, failed, tx.view)
    {
      var query := BuildQuery(merged);
      w := Writes(query, [], []);
      var ok := tx.UpdateProducts(query, productIds);
      if !ok {
        return Some(UpdateCall), w;
      }
      var insertOrderArgs := PrepareOrderArgs(mapOrder);
      w := w.(orderArgs := insertOrderArgs);
      ok := tx.InsertOrders(insertOrderArgs);
      if !ok {
        return Some(InsertOrdersCall), w;
      }
      var insertOrderItemArgs := PrepareOrderItemArgs(merged);
      w := w.(itemArgs := insertOrderItemArgs);
      ok := tx.InsertOrderItem(insertOrderItemArgs);
      if !ok {
        return Some(InsertItemsCall), w;
      }
      return None, w;
    }

    /** Write the planned batch, read the orders back, commit. */
    method Execute(tx: Transaction, merged: Groups, mapOrder: OrderMap, productIds: seq<Uuid>,
        orderIds: seq<Uuid>, ghost t: Plan)
      returns (failed: Option<Call>, responses: map<Uuid, Order>, ghost w: Writes, ghost rows: seq<GetOrdersRow>)
      requires Keyed(mapOrder) && Sorted(merged)
      requires t.merged == merged && t.mapOrder == mapOrder && t.productIds == productIds && t.orderIds == orderIds
      modifies tx
      ensures match failed
        case Some(call) => ExecutionFails(old(tx.view), tx.faults, t, w, call)
        case None =>
          && TraceWrites(old(tx.view), tx.faults, t, w, None, tx.view)
          && IsOrdersAnswer(tx.view, t.orderIds, rows) && IsResponses(responses, rows, t.mapOrder)
          && ReadOrdersCall !in tx.faults && CommitCall !in tx.faults
    {
      responses, rows := map[], [];
      failed, w := WriteBatch(tx, merged, mapOrder, productIds, t);
      if failed.Some? {
        return;
      }
      var ok, orders := tx.GetOrders(orderIds);
      rows := orders;
      if !ok {
        failed := Some(ReadOrdersCall);
        return;
      }
      responses := OrderToResponse(orders, mapOrder);
      ok := tx.Commit();
      if !ok {
        failed := Some(CommitCall);
      }
    }

    /** The transaction from its first write on. */
    method RunPlan(tx: Transaction, merged: Groups, mapOrder: OrderMap, productIds: seq<Uuid>, orderIds: seq<Uuid>,
        ghost params: seq<CreateOrder>, ghost t: Plan)
      returns (outcome: Outcome, ghost w: Writes, ghost rows: seq<GetOrdersRow>)
      requires params != [] && Keyed(mapOrder) && Sorted(merged) && tx.faults !! {BeginCall, ReadProductsCall}
      requires t.merged == merged && t.mapOrder == mapOrder && t.productIds == productIds && t.orderIds == orderIds
      requires PlanStarts(tx.view.products, params, t) && PlanFits(t) && PlanTrims(t)
      modifies tx
      ensures Traced(old(tx.view), params, tx.faults, t, w, rows, outcome,
        if outcome.Committed? then tx.view else old(tx.view))
    {
      var failed, responses;
      failed, responses, w, rows := Execute(tx, merged, mapOrder, productIds, orderIds, t);
      if failed.Some? {
        ExecutionTraced(old(tx.view), params, tx.faults, t, w, rows, failed.value);
        return Failed(failed.value), w, rows;
      }
      NoFaultLeft(tx.faults);
      CommitTraced(old(tx.view), params, tx.faults, t, w, rows, responses, tx.view);
      return Committed(responses), w, rows;
    }

    /** The transaction from its first read to its commit; the outcome is never NoOrders. */
    method RunTransaction(tx: Transaction, merged0: Groups, mapOrder0: OrderMap, productIds: seq<Uuid>,
        orderIds: seq<Uuid>, ghost params: seq<CreateOrder>)
      returns (outcome: Outcome, ghost t: Plan, ghost w: Writes, ghost rows: seq<GetOrdersRow>)
      requires params != [] && IsMerged(params, merged0, mapOrder0, productIds, orderIds)
      requires BeginCall !in tx.faults
      modifies tx
      ensures Traced(old(tx.view), params, tx.faults, t, w, rows, outcome,
        if outcome.Committed? then tx.view else old(tx.view))
    {
      w, rows := Writes([], [], []), [];
      var read, fits, merged, mapOrder;
      read, fits, merged, mapOrder, t := PlanBatch(tx, merged0, mapOrder0, productIds, orderIds, params);
      if !read {
        ReadFailureTraced(tx.view, params, tx.faults, t, w, rows);
        return Failed(ReadProductsCall), t, w, rows;
      }
      if !fits {
        PanicTraced(tx.view, params, tx.faults, t, w, rows);
        return Panicked, t, w, rows;
      }
      outcome, w, rows := RunPlan(tx, merged, mapOrder, productIds, orderIds, params, t);
    }

    /** One transaction on a non-empty batch; until the commit all writes go to its own view. */
    method RunBatch(params: seq<CreateOrder>, faults: set<Call>) returns (outcome: Outcome, view: Db)
      requires params != []
      ensures BatchStep(db, params, faults, outcome, view)
    {
      view := db;
      var merged, mapOrder, productIds, orderIds := MergeOrderItems(params);
      if BeginCall in faults {
        FailedStep(db, params, faults, BeginCall);
        return Failed(BeginCall), view;
      }
      var tx := new Transaction(db, faults);
      ghost var t, w, rows;
      outcome, t, w, rows := RunTransaction(tx, merged, mapOrder, productIds, orderIds, params);
      if outcome.Committed? {
        view := tx.view;
      }
      TracedIsStep(db, params, faults, t, w, rows, outcome, view);
    }

    /** Everything up to and including the commit. */
    method Transact(params: seq<CreateOrder>, faults: set<Call>) returns (outcome: Outcome)
      modifies this
      ensures BatchStep(old(db), params, faults, outcome, db)
    {
      if |params| == 0 {
        return NoOrders;
      }
      var view;
      outcome, view := RunBatch(params, faults);
      db := view;
    }

    /**
     * One call: the database has taken its step, and the callers have been told exactly what became of it, up to
     * the first whose channel an earlier attempt has closed: sending to that one panics. A panic in the trim leaves
     * the channels untouched.
     */
    method BatchCreateOrder(params: seq<Request>, faults: set<Call>) returns (outcome: Outcome, answered: nat)
      requires Separate(params) && AllSettled(States(params))
      modifies this, set r | r in params :: r.resultChannel
      ensures BatchStep(old(db), OrdersOf(params), faults, outcome, db)
      ensures CallersTold(old(States(params)), States(params), OrdersOf(params), outcome, answered)
    {
      ghost var before := States(params);
      outcome := Transact(OrdersOf(params), faults);
      assert States(params) == before;
      answered := Return(params, outcome);
    }
  }

  /** The answers after the transaction. */
  method Return(params: seq<Request>, outcome: Outcome) returns (answered: nat)
    requires Separate(params) && AllSettled(States(params))
    modifies set r | r in params :: r.resultChannel
    ensures CallersTold(old(States(params)), States(params), OrdersOf(params), outcome, answered)
  {
    answered := 0;
    match outcome {
      case Failed(call) => answered := ReturnOrderError(params, call);
      case Committed(responses) => answered := ReturnOrderResult(params, responses);
      case _ =>
    }
  }
}
