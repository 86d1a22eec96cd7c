/** The feeder: merging cart lines per product, storing them, and turning a cart into an order. */
module Carts {
  import opened Domain
  import opened Items
  import opened Merge
  import opened Database
  import opened Channels
  import opened Protocol
  import opened SameCart
  import opened Guarantees

  /** request.CartItem */
  datatype CartItem = CartItem(productId: Uuid, price: Decimal, quantity: Int32)

  /** A cart_items row, and equally a line of response.Cart. */
  datatype CartLine = CartLine(id: Uuid, cartId: Uuid, productId: Uuid, price: Decimal, quantity: Int32)

  datatype Cart = Cart(id: Uuid, userId: Uuid, cartItems: seq<CartLine>)

  ghost function LinesOf(items: seq<CartItem>, p: Uuid): seq<CartItem> {
    if items == [] then []
    else
      var last := items[|items| - 1];
      LinesOf(items[..|items| - 1], p) + if last.productId == p then [last] else []
  }

  ghost function Pieces(items: seq<CartItem>): int {
    if items == [] then 0 else Pieces(items[..|items| - 1]) + items[|items| - 1].quantity
  }

  /** One line for all of a product's lines: their int32 total at the price given last. */
  ghost function Merged(lines: seq<CartItem>): CartItem
    requires lines != []
  {
    var last := lines[|lines| - 1];
    CartItem(last.productId, last.price, Wrap32(Pieces(lines)))
  }

  ghost predicate LineAt(items: seq<CartItem>, mp: map<Uuid, CartItem>, p: Uuid) {
    var lines := LinesOf(items, p);
    if p in mp then lines != [] && mp[p] == Merged(lines) else lines == []
  }

  ghost predicate IsMergedMap(items: seq<CartItem>, mp: map<Uuid, CartItem>) {
    forall p :: LineAt(items, mp, p)
  }

  /** One line per product of the request, whatever order the map was ranged over in. */
  ghost predicate IsMergedCart(items: seq<CartItem>, merged: seq<CartItem>) {
    && (forall i, j :: 0 <= i < j < |merged| ==> merged[i].productId != merged[j].productId)
    && (forall x :: x in merged ==> LinesOf(items, x.productId) != [] && x == Merged(LinesOf(items, x.productId)))
    && (forall p :: LinesOf(items, p) != [] ==> exists x :: x in merged && x.productId == p)
  }

  lemma LinesPush(items: seq<CartItem>, x: CartItem, p: Uuid)
    ensures LinesOf(items + [x], p) == if x.productId == p then LinesOf(items, p) + [x] else LinesOf(items, p)
  {
    assert (items + [x])[..|items|] == items;
  }

  lemma {:induction false} LinesAreOfProduct(items: seq<CartItem>, p: Uuid)
    ensures forall x :: x in LinesOf(items, p) ==> x.productId == p
  {
    if items != [] {
      LinesAreOfProduct(items[..|items| - 1], p);
    }
  }

  lemma MergedPush(lines: seq<CartItem>, x: CartItem)
    ensures lines != [] ==>
      Merged(lines + [x]) == CartItem(x.productId, x.price, Wrap32(Merged(lines).quantity + x.quantity))
    ensures Merged([x]) == x
  {
    assert (lines + [x])[..|lines|] == lines;
    assert [x][..0] == [] && Pieces([x]) == x.quantity;
    WrapAdd(Pieces(lines), x.quantity);
  }

  lemma MapPush(items: seq<CartItem>, mp: map<Uuid, CartItem>, x: CartItem, entry: CartItem, p: Uuid)
    requires LineAt(items, mp, p)
    requires x.productId in mp ==>
      entry == CartItem(x.productId, x.price, Wrap32(mp[x.productId].quantity + x.quantity))
    requires x.productId !in mp ==> entry == x
    ensures LineAt(items + [x], mp[x.productId := entry], p)
  {
    LinesPush(items, x, p);
    if p == x.productId {
      MergedPush(LinesOf(items, p), x);
      assert LinesOf(items, p) == [] ==> LinesOf(items, p) + [x] == [x];
    }
  }

  /** InsertCart's merging loop over the request's lines. */
  method MergeLines(items: seq<CartItem>) returns (mp: map<Uuid, CartItem>)
    ensures IsMergedMap(items, mp)
  {
    mp := map[];
    for i := 0 to |items|
      invariant IsMergedMap(items[..i], mp)
    {
      var item := items[i];
      var entry := item;
      if item.productId in mp {
        entry := CartItem(item.productId, item.price, Wrap32(mp[item.productId].quantity + item.quantity));
      }
      ghost var before, seen := mp, items[..i] + [item];
      mp := mp[item.productId := entry];
      forall p ensures LineAt(seen, mp, p) {
        MapPush(items[..i], before, item, entry, p);
      }
      assert items[..i + 1] == seen;
    }
    assert items[..|items|] == items;
  }

  /** Merge and then range over the map. */
  method MergeCartItems(items: seq<CartItem>) returns (merged: seq<CartItem>)
    ensures IsMergedCart(items, merged)
  {
    var mp := MergeLines(items);
    MergedIsKeyed(items, mp);
    merged := [];
    var left := mp.Keys;
    while left != {}
      invariant left <= mp.Keys
      invariant forall i, j :: 0 <= i < j < |merged| ==> merged[i].productId != merged[j].productId
      invariant forall x :: x in merged ==> x.productId in mp && x.productId !in left && x == mp[x.productId]
      invariant forall p :: p in mp && p !in left ==> mp[p] in merged
    {
      var p :| p in left;
      merged := merged + [mp[p]];
      left := left - {p};
    }
    forall p ensures p in mp <==> LinesOf(items, p) != [] {
      assert LineAt(items, mp, p);
    }
    forall x | x in merged ensures LinesOf(items, x.productId) != [] && x == Merged(LinesOf(items, x.productId)) {
      assert LineAt(items, mp, x.productId);
    }
  }

  lemma MergedIsKeyed(items: seq<CartItem>, mp: map<Uuid, CartItem>)
    requires IsMergedMap(items, mp)
    ensures forall p :: p in mp ==> mp[p].productId == p
  {
    forall p | p in mp ensures mp[p].productId == p {
      assert LineAt(items, mp, p);
      LinesAreOfProduct(items, p);
      assert LinesOf(items, p)[|LinesOf(items, p)| - 1] in LinesOf(items, p);
    }
  }

  /** The rows to insert, filled in by index; the ids are those uuid.New hands out. */
  method CartRows(cartId: Uuid, merged: seq<CartItem>, newIds: seq<Uuid>) returns (rows: seq<CartLine>)
    requires |newIds| == |merged|
    ensures |rows| == |merged|
    ensures forall i :: 0 <= i < |merged| ==>
      rows[i] == CartLine(newIds[i], cartId, merged[i].productId, merged[i].price, merged[i].quantity)
  {
    var args := new CartLine[|merged|](_ => CartLine(0, 0, 0, Decimal(0, 0), 0));
    for i := 0 to |merged|
      invariant forall j :: 0 <= j < i ==>
        args[j] == CartLine(newIds[j], cartId, merged[j].productId, merged[j].price, merged[j].quantity)
    {
      var item := merged[i];
      args[i] := CartLine(newIds[i], cartId, item.productId, item.price, item.quantity);
    }
    rows := args[..];
  }

  /** Every line becomes an item of the order that carries the cart's own id. */
  ghost predicate IsOrderOf(cart: Cart, order: CreateOrder) {
    && order.id == cart.id && order.userId == cart.userId && |order.orderItems| == |cart.cartItems|
    && forall i :: 0 <= i < |cart.cartItems| ==>
         var line := cart.cartItems[i];
         order.orderItems[i] == OrderItem(line.id, cart.id, line.productId, line.price, line.quantity)
  }

  /** Cart.Order */
  method ToOrder(cart: Cart) returns (order: CreateOrder)
    ensures IsOrderOf(cart, order)
  {
    var orderItems := new OrderItem[|cart.cartItems|](_ => OrderItem(0, 0, 0, Decimal(0, 0), 0));
    for i := 0 to |cart.cartItems|
      invariant forall j :: 0 <= j < i ==>
        var line := cart.cartItems[j];
        orderItems[j] == OrderItem(line.id, cart.id, line.productId, line.price, line.quantity)
    {
      var item := cart.cartItems[i];
      orderItems[i] := OrderItem(item.id, cart.id, item.productId, item.price, item.quantity);
    }
    order := CreateOrder(cart.id, cart.userId, orderItems[..]);
  }

  /** Orders meet what the allocator relies on exactly when only empty carts occur twice. */
  lemma CartsMakeWellFormedBatch(carts: seq<Cart>, orders: seq<CreateOrder>)
    requires |carts| == |orders| && forall i :: 0 <= i < |carts| ==> IsOrderOf(carts[i], orders[i])
    ensures WellFormed(orders) <==> forall i, j :: 0 <= i < j < |carts| && carts[i].id == carts[j].id ==>
      carts[i].cartItems == [] && carts[j].cartItems == []
  {
    forall i, x | 0 <= i < |orders| && x in orders[i].orderItems ensures x.orderId == orders[i].id {
      var k :| 0 <= k < |orders[i].orderItems| && orders[i].orderItems[k] == x;
      assert IsOrderOf(carts[i], orders[i]);
    }
    forall i | 0 <= i < |orders| ensures orders[i].id == carts[i].id {
      assert IsOrderOf(carts[i], orders[i]);
    }
  }

  ghost function ItemFor(line: CartLine, cartId: Uuid): OrderItem {
    OrderItem(line.id, cartId, line.productId, line.price, line.quantity)
  }

  ghost function ItemsFor(lines: seq<CartLine>, cartId: Uuid): (items: seq<OrderItem>)
    ensures |items| == |lines| && forall i :: 0 <= i < |lines| ==> items[i] == ItemFor(lines[i], cartId)
  {
    seq(|lines|, i requires 0 <= i < |lines| => ItemFor(lines[i], cartId))
  }

  ghost function Without<T>(s: seq<T>, k: nat): (rest: seq<T>)
    requires k < |s|
    ensures |rest| == |s| - 1
  {
    s[..k] + s[k + 1..]
  }

  lemma TakeOut<T>(s: seq<T>, k: nat)
    requires k < |s|
    ensures multiset(s) == multiset(Without(s, k)) + multiset{s[k]}
  {
    assert s == s[..k] + ([s[k]] + s[k + 1..]);
  }

  lemma CancelOne<T>(a: multiset<T>, b: multiset<T>, x: T)
    requires a + multiset{x} == b + multiset{x}
    ensures a == b
  {
    assert a == (a + multiset{x}) - multiset{x} && b == (b + multiset{x}) - multiset{x};
  }

  lemma TakeOutItem(lines: seq<CartLine>, k: nat, cartId: Uuid)
    requires k < |lines|
    ensures multiset(ItemsFor(lines, cartId)) ==
      multiset(ItemsFor(Without(lines, k), cartId)) + multiset{ItemFor(lines[k], cartId)}
  {
    TakeOut(ItemsFor(lines, cartId), k);
    var rest, items := ItemsFor(Without(lines, k), cartId), Without(ItemsFor(lines, cartId), k);
    forall i | 0 <= i < |rest| ensures rest[i] == items[i] {
      assert Without(lines, k)[i] == lines[if i < k then i else i + 1];
    }
    assert rest == items;
  }

  lemma {:induction false} SameLinesSameItems(a: seq<CartLine>, b: seq<CartLine>, cartId: Uuid)
    requires multiset(a) == multiset(b)
    ensures multiset(ItemsFor(a, cartId)) == multiset(ItemsFor(b, cartId))
    decreases |a|
  {
    if a == [] {
      assert |b| == |multiset(b)| == 0;
    } else {
      assert a[0] in multiset(b);
      var k :| 0 <= k < |b| && b[k] == a[0];
      TakeOut(a, 0);
      TakeOut(b, k);
      CancelOne(multiset(Without(a, 0)), multiset(Without(b, k)), a[0]);
      SameLinesSameItems(Without(a, 0), Without(b, k), cartId);
      TakeOutItem(a, 0, cartId);
      TakeOutItem(b, k, cartId);
    }
  }

  /** A cart that is stored only once, with its lines read in any order, makes orders that agree. */
  lemma StoredCartsAgree(carts: seq<Cart>, orders: seq<CreateOrder>)
    requires |carts| == |orders| && forall i :: 0 <= i < |carts| ==> IsOrderOf(carts[i], orders[i])
    requires forall i, j :: 0 <= i < |carts| && 0 <= j < |carts| && carts[i].id == carts[j].id ==>
      multiset(carts[i].cartItems) == multiset(carts[j].cartItems)
    ensures BatchAgrees(orders)
  {
    forall i | 0 <= i < |orders|
      ensures orders[i].id == carts[i].id && orders[i].orderItems == ItemsFor(carts[i].cartItems, carts[i].id)
    {
      assert IsOrderOf(carts[i], orders[i]);
    }
    forall i, j | 0 <= i < |orders| && 0 <= j < |orders| && orders[i].id == orders[j].id
      ensures SameItems(orders[i].orderItems, orders[j].orderItems)
    {
      SameLinesSameItems(carts[i].cartItems, carts[j].cartItems, carts[i].id);
    }
  }

  /** From the cart to the tables: a checkout that succeeds has ordered lines of this cart, for the cart's own user. */
  lemma CartIsOrderedForItsUser(run: seq<System>, steps: seq<Step>, i: nat, t: Ticket, cart: Cart, result: Result)
    requires IsRegular(run, steps) && i <= |steps| && InPhase(run[i], t, Replied(result)) && result.err.None?
    requires IsOrderOf(cart, run[i].clients[t].order)
    ensures result.order.id == cart.id && result.order.userId == cart.userId
    ensures OrderRow(cart.id, cart.userId) in run[i].db.orders
    ensures multiset(result.order.orderItems) <= multiset(ItemsFor(cart.cartItems, cart.id))
  {
    CreatedMeansCommitted(run, steps, i, t, result);
    assert run[i].clients[t].order.orderItems == ItemsFor(cart.cartItems, cart.id);
  }

  ghost predicate SameLine(line: CartLine, item: CartItem) {
    line.productId == item.productId && line.price == item.price && line.quantity == item.quantity
  }

  /** The stored cart has one line for each merged one, in whatever order they are read back, and no others. */
  ghost predicate Stores(cart: Cart, merged: seq<CartItem>) {
    && |cart.cartItems| == |merged|
    && (forall i, j :: 0 <= i < j < |cart.cartItems| ==> cart.cartItems[i].productId != cart.cartItems[j].productId)
    && (forall item :: item in merged ==> exists line :: line in cart.cartItems && SameLine(line, item))
  }

  lemma {:induction false} OneLinePerProduct(items: seq<OrderItem>, k: nat)
    requires k < |items| && forall i, j :: 0 <= i < j < |items| ==> items[i].productId != items[j].productId
    ensures Select(items, OfProduct(items[k].productId)) == [items[k]]
  {
    var a, b, sel := items[..k], items[k + 1..], OfProduct(items[k].productId);
    assert items == a + ([items[k]] + b);
    SelectConcat(a, [items[k]] + b, sel);
    SelectConcat([items[k]], b, sel);
    SelectNone(a, sel);
    SelectNone(b, sel);
    SelectAll([items[k]], sel);
  }

  lemma LineIsOrdered(cart: Cart, merged: seq<CartItem>, order: CreateOrder, x: CartItem)
    requires Stores(cart, merged) && IsOrderOf(cart, order) && x in merged
    ensures var ordered := Select(order.orderItems, OfProduct(x.productId));
      |ordered| == 1 && ordered[0].price == x.price && ordered[0].quantity == x.quantity
  {
    var line :| line in cart.cartItems && SameLine(line, x);
    var k :| 0 <= k < |cart.cartItems| && cart.cartItems[k] == line;
    forall i, j | 0 <= i < j < |order.orderItems|
      ensures order.orderItems[i].productId != order.orderItems[j].productId
    {
      assert cart.cartItems[i].productId != cart.cartItems[j].productId;
    }
    OneLinePerProduct(order.orderItems, k);
  }

  lemma WrapIsExact(n: int)
    ensures Wrap32(n) == n <==> INT32_MIN <= n <= INT32_MAX
  {
  }

  lemma MergedLineOf(items: seq<CartItem>, merged: seq<CartItem>, p: Uuid) returns (x: CartItem)
    requires IsMergedCart(items, merged) && LinesOf(items, p) != []
    ensures x in merged && x == Merged(LinesOf(items, p)) && x.productId == p
  {
    x :| x in merged && x.productId == p;
  }

  /**
   * From the request to the order: each product is ordered once, at the price given last, and in the
   * quantity all its lines asked for, unless that total overflows int32.
   */
  lemma OrderKeepsQuantities(items: seq<CartItem>, merged: seq<CartItem>, cart: Cart, order: CreateOrder, p: Uuid)
    requires IsMergedCart(items, merged) && Stores(cart, merged) && IsOrderOf(cart, order)
    requires LinesOf(items, p) != []
    ensures var lines, ordered := LinesOf(items, p), Select(order.orderItems, OfProduct(p));
      && |ordered| == 1 && ordered[0].price == lines[|lines| - 1].price
      && (ordered[0].quantity == Pieces(lines) <==> INT32_MIN <= Pieces(lines) <= INT32_MAX)
  {
    var x := MergedLineOf(items, merged, p);
    LineIsOrdered(cart, merged, order, x);
    WrapIsExact(Pieces(LinesOf(items, p)));
  }
}
