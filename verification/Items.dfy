/** Selecting, counting and totalling order items; every specification is phrased with these. */
module Items {
  import opened Domain

  datatype Selector = OfProduct(productId: Uuid) | OfOrder(orderId: Uuid) {
    predicate Matches(item: OrderItem) {
      match this
      case OfProduct(p) => item.productId == p
      case OfOrder(o) => item.orderId == o
    }
  }

  /** The items a selector matches, in their original order. */
  function Select(items: seq<OrderItem>, sel: Selector): (r: seq<OrderItem>)
    ensures |r| <= |items|
  {
    if items == [] then []
    else
      var last := items[|items| - 1];
      Select(items[..|items| - 1], sel) + if sel.Matches(last) then [last] else []
  }

  ghost function Count(items: seq<OrderItem>, orderId: Uuid): nat {
    |Select(items, OfOrder(orderId))|
  }

  /** The exact, unbounded total quantity. */
  ghost function Sum(items: seq<OrderItem>): int {
    if items == [] then 0 else Sum(items[..|items| - 1]) + items[|items| - 1].quantity
  }

  ghost function AllItems(orders: seq<CreateOrder>): seq<OrderItem> {
    if orders == [] then [] else AllItems(orders[..|orders| - 1]) + orders[|orders| - 1].orderItems
  }

  ghost predicate NoneNegative(items: seq<OrderItem>) {
    forall x :: x in items ==> x.quantity >= 0
  }

  lemma {:induction false} SelectMembers(items: seq<OrderItem>, sel: Selector)
    ensures forall x :: x in Select(items, sel) <==> x in items && sel.Matches(x)
  {
    if items != [] {
      SelectMembers(items[..|items| - 1], sel);
      assert items == items[..|items| - 1] + [items[|items| - 1]];
    }
  }

  lemma SelectPush(items: seq<OrderItem>, x: OrderItem, sel: Selector)
    ensures Select(items + [x], sel) == if sel.Matches(x) then Select(items, sel) + [x] else Select(items, sel)
  {
    assert (items + [x])[..|items|] == items;
  }

  lemma {:induction false} SelectConcat(a: seq<OrderItem>, b: seq<OrderItem>, sel: Selector)
    ensures Select(a + b, sel) == Select(a, sel) + Select(b, sel)
  {
    if b == [] {
      assert a + b == a;
    } else {
      var init, last := b[..|b| - 1], b[|b| - 1];
      SelectConcat(a, init, sel);
      SelectPush(a + init, last, sel);
      SelectPush(init, last, sel);
      assert b == init + [last] && a + b == (a + init) + [last];
      assert Select(a, sel) + (Select(init, sel) + [last]) == (Select(a, sel) + Select(init, sel)) + [last];
    }
  }

  lemma {:induction false} SumConcat(a: seq<OrderItem>, b: seq<OrderItem>)
    ensures Sum(a + b) == Sum(a) + Sum(b)
  {
    if b == [] {
      assert a + b == a;
    } else {
      SumConcat(a, b[..|b| - 1]);
      assert (a + b)[..|a + b| - 1] == a + b[..|b| - 1];
    }
  }

  lemma {:induction false} AllItemsConcat(a: seq<CreateOrder>, b: seq<CreateOrder>)
    ensures AllItems(a + b) == AllItems(a) + AllItems(b)
  {
    if b == [] {
      assert a + b == a;
    } else {
      var init, last := b[..|b| - 1], b[|b| - 1];
      AllItemsConcat(a, init);
      assert a + b == (a + init) + [last] && ((a + init) + [last])[..|a + init|] == a + init;
      assert AllItems(a + init) + last.orderItems == AllItems(a) + (AllItems(init) + last.orderItems);
    }
  }

  lemma {:induction false} SelectAll(items: seq<OrderItem>, sel: Selector)
    requires forall x :: x in items ==> sel.Matches(x)
    ensures Select(items, sel) == items
  {
    if items != [] {
      SelectAll(items[..|items| - 1], sel);
    }
  }

  lemma {:induction false} SelectNone(items: seq<OrderItem>, sel: Selector)
    requires forall x :: x in items ==> !sel.Matches(x)
    ensures Select(items, sel) == []
  {
    if items != [] {
      SelectNone(items[..|items| - 1], sel);
    }
  }

  lemma {:induction false} SelectMultiplicity(items: seq<OrderItem>, sel: Selector, x: OrderItem)
    ensures multiset(Select(items, sel))[x] == if sel.Matches(x) then multiset(items)[x] else 0
  {
    if items != [] {
      var init, last := items[..|items| - 1], items[|items| - 1];
      SelectMultiplicity(init, sel, x);
      assert items == init + [last];
    }
  }

  /** Two arrangements of the same items select the same items. */
  lemma SameItemsSameSelection(a: seq<OrderItem>, b: seq<OrderItem>, sel: Selector)
    requires multiset(a) == multiset(b)
    ensures multiset(Select(a, sel)) == multiset(Select(b, sel))
    ensures |Select(a, sel)| == |Select(b, sel)|
  {
    forall x ensures multiset(Select(a, sel))[x] == multiset(Select(b, sel))[x] {
      SelectMultiplicity(a, sel, x);
      SelectMultiplicity(b, sel, x);
    }
    SameSize(Select(a, sel), Select(b, sel));
  }

  lemma SameSize(a: seq<OrderItem>, b: seq<OrderItem>)
    requires multiset(a) == multiset(b)
    ensures |a| == |b|
  {
    assert |multiset(a)| == |a| && |multiset(b)| == |b|;
  }

  /** Agreement product by product is agreement as multisets. */
  lemma SameByProduct(a: seq<OrderItem>, b: seq<OrderItem>)
    requires forall p :: Select(a, OfProduct(p)) == Select(b, OfProduct(p))
    ensures multiset(a) == multiset(b)
  {
    forall x ensures multiset(a)[x] == multiset(b)[x] {
      SelectMultiplicity(a, OfProduct(x.productId), x);
      SelectMultiplicity(b, OfProduct(x.productId), x);
      assert Select(a, OfProduct(x.productId)) == Select(b, OfProduct(x.productId));
    }
  }

  lemma {:induction false} SumMonotone(items: seq<OrderItem>, i: nat, j: nat)
    requires NoneNegative(items) && i <= j <= |items|
    ensures Sum(items[..i]) <= Sum(items[..j])
    decreases j
  {
    if i < j {
      assert items[..j][..j - 1] == items[..j - 1];
      assert items[j - 1] in items;
      SumMonotone(items, i, j - 1);
    }
  }
}
