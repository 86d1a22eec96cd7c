/**
 * The tables the order service touches, with their keys, and a transaction over them. A query
 * promises its rows but not their order; a statement fails when a constraint is violated or
 * when the environment (connection, server, timeout) makes that call fail.
 */
module Database {
  import opened Domain
  import opened Items
  import opened Trim
  import CopyFrom

  datatype Option<+T> = None | Some(value: T)

  datatype OrderRow = OrderRow(id: Uuid, userId: Uuid)

  datatype GetOrdersRow = GetOrdersRow(id: Uuid, userId: Uuid, orderItems: seq<OrderItem>)

  /** One `when id = p then total` branch. */
  datatype When = When(id: Uuid, total: Int32)

  datatype Call =
    | BeginCall
    | ReadProductsCall
    | UpdateCall
    | InsertOrdersCall
    | InsertItemsCall
    | ReadOrdersCall
    | CommitCall

  function OrderIds(rows: seq<OrderRow>): set<Uuid> {
    set r | r in rows :: r.id
  }

  function ItemIds(items: seq<OrderItem>): set<Uuid> {
    set x | x in items :: x.id
  }

  lemma OrderIdsConcat(a: seq<OrderRow>, b: seq<OrderRow>)
    ensures OrderIds(a + b) == OrderIds(a) + OrderIds(b)
  {
  }

  datatype Db = Db(users: set<Uuid>, products: map<Uuid, Int32>, orders: seq<OrderRow>, items: seq<OrderItem>) {

    /** Primary keys and foreign keys. */
    ghost predicate KeysIntact() {
      && |OrderIds(orders)| == |orders|
      && |ItemIds(items)| == |items|
      && (forall r :: r in orders ==> r.userId in users)
      && (forall x :: x in items ==> x.orderId in OrderIds(orders) && x.productId in products)
    }

    /** The keys, and the repository's own check that no order is empty. */
    ghost predicate Consistent() {
      KeysIntact() && forall o :: o in OrderIds(orders) ==> Count(items, o) > 0
    }

    predicate AcceptsOrders(rows: seq<OrderRow>) {
      && |OrderIds(rows)| == |rows|
      && OrderIds(rows) !! OrderIds(orders)
      && forall r :: r in rows ==> r.userId in users
    }

    predicate AcceptsItems(rows: seq<OrderItem>) {
      && |ItemIds(rows)| == |rows|
      && ItemIds(rows) !! ItemIds(items)
      && forall x :: x in rows ==> x.orderId in OrderIds(orders) && x.productId in products
    }

    /** `quantity - case … end` for every named product: never NULL, never outside int4, never an empty CASE. */
    predicate AcceptsUpdate(query: seq<When>, ids: seq<Uuid>) {
      && query != []
      && forall p :: p in ids && p in products ==>
        EvalCase(query, p).Some? && INT32_MIN <= products[p] - EvalCase(query, p).value <= INT32_MAX
    }

    function Updated(query: seq<When>, ids: seq<Uuid>): Db
      requires AcceptsUpdate(query, ids)
    {
      this.(products := map p | p in products ::
        if p in ids then products[p] - EvalCase(query, p).value else products[p])
    }
  }

  /** SQL evaluates the branches in order; without a match the CASE is NULL. */
  function EvalCase(query: seq<When>, p: Uuid): Option<Int32> {
    if query == [] then None
    else if query[0].id == p then Some(query[0].total)
    else EvalCase(query[1..], p)
  }

  lemma {:induction false} EvalCasePush(query: seq<When>, w: When, p: Uuid)
    ensures EvalCase(query + [w], p) ==
      if EvalCase(query, p).Some? then EvalCase(query, p)
      else if w.id == p then Some(w.total) else None
  {
    if query == [] {
      assert query + [w] == [w] && [w][1..] == [];
    } else {
      assert (query + [w])[1..] == query[1..] + [w];
      EvalCasePush(query[1..], w, p);
    }
  }

  /** The inner join of orders and order_items, grouped by order; neither rows nor items are ordered. */
  ghost predicate IsOrdersAnswer(db: Db, ids: seq<Uuid>, rows: seq<GetOrdersRow>) {
    && (forall r :: r in rows ==>
        r.id in ids && OrderRow(r.id, r.userId) in db.orders && r.orderItems != []
        && multiset(r.orderItems) == multiset(Select(db.items, OfOrder(r.id))))
    && (forall o :: o in ids && o in OrderIds(db.orders) && Count(db.items, o) > 0 ==>
        exists r :: r in rows && r.id == o)
  }

  class Transaction {
    var view: Db
    const faults: set<Call>

    constructor (db: Db, faults: set<Call>)
      ensures view == db && this.faults == faults
    {
      view := db;
      this.faults := faults;
    }

    method FindProductsByIds(ids: seq<Uuid>) returns (ok: bool, rows: seq<Product>)
      ensures ok <==> ReadProductsCall !in faults
      ensures ok ==> DistinctIds(rows)
      ensures ok ==> StockOf(rows) == map p | p in view.products && p in ids :: view.products[p]
    {
      if ReadProductsCall in faults {
        return false, [];
      }
      ok, rows := true, [];
      var left := set p | p in view.products && p in ids;
      while left != {}
        invariant left <= set p | p in view.products && p in ids
        invariant DistinctIds(rows)
        invariant forall i :: 0 <= i < |rows| ==> rows[i].id !in left
        invariant StockOf(rows) == map p | p in view.products && p in ids && p !in left :: view.products[p]
      {
        var p :| p in left;
        ghost var before := rows;
        rows := rows + [Product(p, view.products[p])];
        assert rows[..|rows| - 1] == before;
        left := left - {p};
      }
    }

    method UpdateProducts(query: seq<When>, ids: seq<Uuid>) returns (ok: bool)
      modifies this
      ensures ok <==> UpdateCall !in faults && old(view).AcceptsUpdate(query, ids)
      ensures ok ==> view == old(view).Updated(query, ids)
    {
      ok := UpdateCall !in faults && view.AcceptsUpdate(query, ids);
      if ok {
        view := view.Updated(query, ids);
      }
    }

    method InsertOrders(args: seq<OrderRow>) returns (ok: bool)
      modifies this
      ensures ok <==> InsertOrdersCall !in faults && old(view).AcceptsOrders(args)
      ensures ok ==> view == old(view).(orders := old(view).orders + args)
    {
      var rows := CopyFrom.Drain(args);
      ok := InsertOrdersCall !in faults && view.AcceptsOrders(rows);
      if ok {
        view := view.(orders := view.orders + rows);
      }
    }

    method InsertOrderItem(args: seq<OrderItem>) returns (ok: bool)
      modifies this
      ensures ok <==> InsertItemsCall !in faults && old(view).AcceptsItems(args)
      ensures ok ==> view == old(view).(items := old(view).items + args)
    {
      var rows := CopyFrom.Drain(args);
      ok := InsertItemsCall !in faults && view.AcceptsItems(rows);
      if ok {
        view := view.(items := view.items + rows);
      }
    }

    method GetOrders(ids: seq<Uuid>) returns (ok: bool, rows: seq<GetOrdersRow>)
      ensures ok <==> ReadOrdersCall !in faults
      ensures ok ==> IsOrdersAnswer(view, ids, rows)
    {
      if ReadOrdersCall in faults {
        return false, [];
      }
      ok, rows := true, [];
      for i := 0 to |view.orders|
        invariant forall r :: r in rows ==>
          r.id in ids && OrderRow(r.id, r.userId) in view.orders && r.orderItems != []
          && multiset(r.orderItems) == multiset(Select(view.items, OfOrder(r.id)))
        invariant forall j :: 0 <= j < i && view.orders[j].id in ids && Count(view.items, view.orders[j].id) > 0 ==>
          exists r :: r in rows && r.id == view.orders[j].id
      {
        var order := view.orders[i];
        var items := Select(view.items, OfOrder(order.id));
        if order.id in ids && items != [] {
          ghost var before := rows;
          var row := GetOrdersRow(order.id, order.userId, items);
          rows := rows + [row];
          assert forall r :: r in before ==> r in rows;
          assert row in rows;
        }
      }
    }

    method Commit() returns (ok: bool)
      ensures ok <==> CommitCall !in faults
    {
      ok := CommitCall !in faults;
    }
  }
}
