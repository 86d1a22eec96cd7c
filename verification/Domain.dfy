/** The values that travel between the cart, the order service and the database. */
module Domain {

  /** A UUID is only ever compared for equality. */
  type Uuid = nat

  const INT32_MIN: int := -0x8000_0000
  const INT32_MAX: int := 0x7fff_ffff

  /** Go's `int32` and PostgreSQL's `int4`. */
  type Int32 = x: int | INT32_MIN <= x <= INT32_MAX

  /** The two's-complement value that 32-bit arithmetic stores for `x`: `x` shifted into range by multiples of 2^32. */
  function Wrap32(x: int): (r: Int32)
    ensures INT32_MIN <= x <= INT32_MAX ==> r == x
    decreases if x < 0 then -x else x + 1
  {
    if x > INT32_MAX then Wrap32(x - 0x1_0000_0000)
    else if x < INT32_MIN then Wrap32(x + 0x1_0000_0000)
    else x
  }

  lemma WrapPeriod(x: int)
    ensures Wrap32(x - 0x1_0000_0000) == Wrap32(x)
  {
    if x <= INT32_MAX {
      assert x - 0x1_0000_0000 < INT32_MIN;
    }
  }

  /** 32-bit addition of an already wrapped number. */
  lemma {:induction false} WrapAdd(a: int, b: int)
    ensures Wrap32(Wrap32(a) + b) == Wrap32(a + b)
    decreases if a < 0 then -a else a + 1
  {
    if a > INT32_MAX {
      WrapAdd(a - 0x1_0000_0000, b);
      WrapPeriod(a + b);
    } else if a < INT32_MIN {
      WrapAdd(a + 0x1_0000_0000, b);
      WrapPeriod(a + b + 0x1_0000_0000);
    }
  }

  /** 32-bit subtraction of an already wrapped number. */
  lemma {:induction false} WrapSub(a: int, b: int)
    ensures Wrap32(a - Wrap32(b)) == Wrap32(a - b)
    decreases if b < 0 then -b else b + 1
  {
    if b > INT32_MAX {
      WrapSub(a, b - 0x1_0000_0000);
      WrapPeriod(a - b + 0x1_0000_0000);
    } else if b < INT32_MIN {
      WrapSub(a, b + 0x1_0000_0000);
      WrapPeriod(a - b);
    }
  }

  /** shopspring's Decimal: only copied, never computed with. */
  datatype Decimal = Decimal(coefficient: int, exponent: int)

  datatype OrderItem = OrderItem(id: Uuid, orderId: Uuid, productId: Uuid, price: Decimal, quantity: Int32)

  /** A checkout request; its result channel is paired with it in module Service. */
  datatype CreateOrder = CreateOrder(id: Uuid, userId: Uuid, orderItems: seq<OrderItem>)

  datatype MergedOrderItem = MergedOrderItem(items: seq<OrderItem>, orderedItemQuantity: Int32)

  datatype Product = Product(id: Uuid, quantity: Int32)

  ghost predicate NoDuplicates<T>(s: seq<T>) {
    forall i, j :: 0 <= i < j < |s| ==> s[i] != s[j]
  }
}
