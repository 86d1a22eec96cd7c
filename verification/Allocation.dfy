/**
 * What the tail-popping loop allocates to one product, and to a whole batch, against the
 * rule a shop assistant would follow: first come, first served.
 */
module Allocation {
  import opened Domain
  import opened Items

  /** The loop's exit test, in the 32-bit arithmetic it is computed with. */
  ghost predicate Fits(items: seq<OrderItem>, stock: Int32) {
    Wrap32(stock - Wrap32(Sum(items))) >= 0
  }

  /** How many of a product's items are left once popping from the tail stops. */
  ghost function KeepCount(items: seq<OrderItem>, stock: Int32): (k: nat)
    ensures k <= |items|
    ensures k > 0 ==> Fits(items[..k], stock)
    ensures forall j :: k < j <= |items| ==> !Fits(items[..j], stock)
  {
    if items == [] then 0
    else if Fits(items, stock) then
      assert items[..|items|] == items;
      |items|
    else
      var init := items[..|items| - 1];
      var k := KeepCount(init, stock);
      assert forall j :: 0 <= j < |items| ==> init[..j] == items[..j];
      assert items[..|items|] == items;
      k
  }

  ghost function Kept(items: seq<OrderItem>, stock: Int32): seq<OrderItem> {
    items[..KeepCount(items, stock)]
  }

  /** The two facts in KeepCount's contract leave no choice: they say "the longest prefix that fits". */
  lemma KeepCountIsLongest(items: seq<OrderItem>, stock: Int32, k: nat)
    requires k <= |items|
    requires k > 0 ==> Fits(items[..k], stock)
    requires forall j :: k < j <= |items| ==> !Fits(items[..j], stock)
    ensures KeepCount(items, stock) == k
  {
    var m := KeepCount(items, stock);
    assert !(m < k <= |items|) && !(k < m <= |items|);
  }

  /** Trimming an already trimmed product with the same stock pops nothing. */
  lemma KeptIsStable(items: seq<OrderItem>, stock: Int32)
    ensures Kept(Kept(items, stock), stock) == Kept(items, stock)
  {
    var kept := Kept(items, stock);
    assert kept[..|kept|] == kept;
    KeepCountIsLongest(kept, stock, |kept|);
  }

  // ----- exact arithmetic -----

  /** Serve a product's items in arrival order and stop at the first that does not fit. */
  ghost function ServedCount(items: seq<OrderItem>, stock: int): (n: nat)
    ensures n <= |items|
  {
    if items == [] || items[0].quantity > stock then 0
    else 1 + ServedCount(items[1..], stock - items[0].quantity)
  }

  ghost function Served(items: seq<OrderItem>, stock: int): seq<OrderItem> {
    items[..ServedCount(items, stock)]
  }

  lemma SumHead(items: seq<OrderItem>)
    requires items != []
    ensures Sum(items) == items[0].quantity + Sum(items[1..])
  {
    assert items == [items[0]] + items[1..];
    SumConcat([items[0]], items[1..]);
    assert Sum([items[0]]) == items[0].quantity;
  }

  lemma {:induction false} ServedCountMeaning(items: seq<OrderItem>, stock: int)
    requires stock >= 0
    ensures var n := ServedCount(items, stock);
      Sum(items[..n]) <= stock && (n < |items| ==> Sum(items[..n + 1]) > stock)
  {
    var n := ServedCount(items, stock);
    if n == 0 {
      assert items[..0] == [];
      if items != [] {
        SumHead(items[..1]);
        assert items[..1][1..] == [];
      }
    } else {
      ServedCountMeaning(items[1..], stock - items[0].quantity);
      SumHead(items[..n]);
      assert items[..n][1..] == items[1..][..n - 1];
      if n < |items| {
        SumHead(items[..n + 1]);
        assert items[..n + 1][1..] == items[1..][..n];
      }
    }
  }

  /** On totals of at most 2^31 the wrapped comparison is the exact one. */
  lemma FitsIsExact(items: seq<OrderItem>, stock: Int32)
    requires stock >= 0 && 0 <= Sum(items) <= 0x8000_0000
    ensures Fits(items, stock) <==> Sum(items) <= stock
  {
    WrapSub(stock, Sum(items));
  }

  lemma PrefixSum(items: seq<OrderItem>, j: nat)
    requires NoneNegative(items) && j <= |items|
    ensures 0 <= Sum(items[..j]) <= Sum(items)
  {
    assert items[..0] == [] && items[..|items|] == items;
    SumMonotone(items, 0, j);
    SumMonotone(items, j, |items|);
  }

  lemma TailPopIsForwardScan(items: seq<OrderItem>, stock: Int32)
    requires NoneNegative(items) && Sum(items) <= 0x8000_0000 && stock >= 0
    ensures KeepCount(items, stock) == ServedCount(items, stock)
    ensures 0 <= Sum(Kept(items, stock)) <= stock
  {
    var n := ServedCount(items, stock);
    ServedCountMeaning(items, stock);
    PrefixSum(items, n);
    FitsIsExact(items[..n], stock);
    forall j | n < j <= |items| ensures !Fits(items[..j], stock) {
      PrefixSum(items, j);
      SumMonotone(items, n + 1, j);
      FitsIsExact(items[..j], stock);
    }
    KeepCountIsLongest(items, stock, n);
  }

  lemma {:induction false} PrefixPastLimit(items: seq<OrderItem>) returns (j: nat)
    requires NoneNegative(items) && Sum(items) > 0x8000_0000
    ensures 0 < j <= |items| && 0x8000_0000 < Sum(items[..j]) <= 0x1_0000_0000
  {
    var init := items[..|items| - 1];
    if Sum(init) > 0x8000_0000 {
      j := PrefixPastLimit(init);
      assert init[..j] == items[..j];
    } else {
      j := |items|;
      assert items[..j] == items;
    }
  }

  /** Past 2^31 the running total turns negative, and a sold-out product still keeps items. */
  lemma OverflowKeepsTooMuch(items: seq<OrderItem>)
    requires NoneNegative(items) && Sum(items) > 0x8000_0000
    ensures KeepCount(items, 0) > ServedCount(items, 0)
  {
    var n := ServedCount(items, 0);
    var j := PrefixPastLimit(items);
    WrapSub(0, Sum(items[..j]));
    assert Fits(items[..j], 0);
    ServedCountMeaning(items, 0);
    if j <= n {
      SumMonotone(items, j, n);
    }
  }

  /**
   * Exactly when the 32-bit loop is the first-come-first-served rule: for quantities of
   * zero or more it is so at every stock level if and only if they total at most 2^31.
   */
  lemma ExactForEveryStock(items: seq<OrderItem>)
    requires NoneNegative(items)
    ensures (forall stock: Int32 :: stock >= 0 ==> KeepCount(items, stock) == ServedCount(items, stock))
      <==> Sum(items) <= 0x8000_0000
  {
    if Sum(items) <= 0x8000_0000 {
      forall stock: Int32 | stock >= 0 ensures KeepCount(items, stock) == ServedCount(items, stock) {
        TailPopIsForwardScan(items, stock);
      }
    } else {
      var soldOut: Int32 := 0;
      OverflowKeepsTooMuch(items);
      assert !(KeepCount(items, soldOut) == ServedCount(items, soldOut));
    }
  }

  lemma OverflowKeptTotal(items: seq<OrderItem>)
    requires NoneNegative(items) && Sum(items) > 0x8000_0000
    ensures Sum(Kept(items, 0)) > INT32_MAX
  {
    var j := PrefixPastLimit(items);
    WrapSub(0, Sum(items[..j]));
    assert Fits(items[..j], 0);
    SumMonotone(items, j, KeepCount(items, 0));
  }

  /** What is kept totals an int32, at every stock level, if and only if all the items total at most 2^31. */
  lemma KeptTotalFitsExactlyWhen(items: seq<OrderItem>)
    requires NoneNegative(items)
    ensures (forall stock: Int32 :: stock >= 0 ==> Sum(Kept(items, stock)) <= INT32_MAX) <==> Sum(items) <= 0x8000_0000
  {
    if Sum(items) <= 0x8000_0000 {
      forall stock: Int32 | stock >= 0 ensures Sum(Kept(items, stock)) <= INT32_MAX {
        TailPopIsForwardScan(items, stock);
      }
    } else {
      var soldOut: Int32 := 0;
      OverflowKeptTotal(items);
      assert !(Sum(Kept(items, soldOut)) <= INT32_MAX);
    }
  }

  /** A bigger stock never keeps less. */
  lemma MoreStockKeepsMore(items: seq<OrderItem>, less: Int32, more: Int32)
    requires NoneNegative(items) && Sum(items) <= 0x8000_0000 && 0 <= less <= more
    ensures Kept(items, less) <= Kept(items, more)
    ensures Sum(items) <= more ==> Kept(items, more) == items
  {
    var a, b := KeepCount(items, less), KeepCount(items, more);
    TailPopIsForwardScan(items, less);
    if a > b {
      PrefixSum(items, a);
      FitsIsExact(items[..a], more);
      assert false;
    }
    if Sum(items) <= more {
      PrefixSum(items, |items|);
      assert items[..|items|] == items;
      FitsIsExact(items, more);
    }
  }

  // ----- a whole batch -----

  /** Products outside the map are not rationed. */
  ghost predicate Admits(left: map<Uuid, Int32>, x: OrderItem) {
    x.productId in left ==> x.quantity <= left[x.productId]
  }

  /** What is left of a product after its first refused item: less than any quantity. */
  const CLOSED: Int32 := -1

  /** An admitted item takes its quantity; the first refused one closes its product. */
  ghost function Remaining(left: map<Uuid, Int32>, x: OrderItem): (r: map<Uuid, Int32>)
    requires x.quantity >= 0
  {
    if x.productId !in left then left
    else left[x.productId := if Admits(left, x) then left[x.productId] - x.quantity else CLOSED]
  }

  /** First come, first served over a whole batch in arrival order. */
  ghost function Serve(items: seq<OrderItem>, left: map<Uuid, Int32>): seq<OrderItem>
    requires NoneNegative(items)
  {
    if items == [] then []
    else
      var later := Serve(items[1..], Remaining(left, items[0]));
      if Admits(left, items[0]) then [items[0]] + later else later
  }

  lemma SelectHead(x: OrderItem, rest: seq<OrderItem>, sel: Selector)
    ensures Select([x] + rest, sel) == if sel.Matches(x) then [x] + Select(rest, sel) else Select(rest, sel)
  {
    SelectConcat([x], rest, sel);
    SelectPush([], x, sel);
    assert [] + [x] == [x];
  }

  lemma ServedHead(x: OrderItem, rest: seq<OrderItem>, stock: int)
    ensures x.quantity <= stock ==> Served([x] + rest, stock) == [x] + Served(rest, stock - x.quantity)
    ensures x.quantity > stock ==> Served([x] + rest, stock) == []
  {
    assert ([x] + rest)[1..] == rest;
  }

  lemma ClosedServesNothing(items: seq<OrderItem>)
    requires NoneNegative(items)
    ensures Served(items, CLOSED) == []
  {
    if items != [] {
      assert items[0] in items;
    }
  }

  lemma SelectNoneNegative(items: seq<OrderItem>, sel: Selector)
    requires NoneNegative(items)
    ensures NoneNegative(Select(items, sel))
  {
    SelectMembers(items, sel);
  }

  /** What a batch should keep of product p when served against `left`. */
  ghost function ServedOf(items: seq<OrderItem>, left: map<Uuid, Int32>, p: Uuid): seq<OrderItem> {
    if p in left then Served(Select(items, OfProduct(p)), left[p]) else Select(items, OfProduct(p))
  }

  lemma ServedOfHead(x: OrderItem, rest: seq<OrderItem>, left: map<Uuid, Int32>, p: Uuid)
    requires NoneNegative([x] + rest) && x.quantity >= 0
    ensures ServedOf([x] + rest, left, p) ==
      if Admits(left, x) && x.productId == p
      then [x] + ServedOf(rest, Remaining(left, x), p)
      else ServedOf(rest, Remaining(left, x), p)
  {
    var sel := OfProduct(p);
    SelectHead(x, rest, sel);
    if p == x.productId && p in left {
      ServedHead(x, Select(rest, sel), left[p]);
      assert forall y :: y in rest ==> y in [x] + rest;
      SelectNoneNegative(rest, sel);
      ClosedServesNothing(Select(rest, sel));
    }
  }

  /** Per product, Serve is the forward scan of that product's items alone. */
  lemma {:induction false} ServePerProduct(items: seq<OrderItem>, left: map<Uuid, Int32>, p: Uuid)
    requires NoneNegative(items)
    ensures Select(Serve(items, left), OfProduct(p)) == ServedOf(items, left, p)
    decreases |items|
  {
    if items != [] {
      var x, rest := items[0], items[1..];
      assert items == [x] + rest && x in items;
      ServePerProduct(rest, Remaining(left, x), p);
      ServedOfHead(x, rest, left, p);
      SelectHead(x, Serve(rest, Remaining(left, x)), OfProduct(p));
    }
  }
}
