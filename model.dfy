/**
 * The value types of the store: catalog products, the add/modify request body,
 * cart lines with their cached subtotal, and orders.
 *
 * Prices and subtotals are exact (`BigDecimal` in the system), so they are
 * unbounded integers in minor units here. Stock counts and quantities are Java
 * `Integer`s, so they are 32-bit values and their arithmetic wraps.
 */
module Model {

  datatype Option<+T> = None | Some(value: T)

  datatype Result<+T, +E> = Success(value: T) | Failure(error: E)

  /** True when the exact integer `x` fits in a Java `int`. */
  predicate InInt32(x: int) {
    -0x8000_0000 <= x <= 0x7FFF_FFFF
  }

  /** A Java `int`. */
  type Int32 = x: int | InInt32(x)

  /** Java `int` subtraction `a - b`: the exact difference reduced modulo 2^32 into the `int` range. */
  function Int32Sub(a: Int32, b: Int32): (r: Int32)
    ensures InInt32(a - b) ==> r == a - b
    // implied by the result type; stated to document that an overflowing difference wraps
    ensures !InInt32(a - b) ==> r != a - b
    ensures (a - b - r) % 0x1_0000_0000 == 0
  {
    var d := a - b;
    assert InInt32(a) && InInt32(b);
    if d < -0x8000_0000 then d + 0x1_0000_0000
    else if d > 0x7FFF_FFFF then d - 0x1_0000_0000
    else d
  }

  /** Product ids are Java `Long`s; they are only compared, never computed with. */
  type ProductId = int

  /** An exact amount of money in minor units. */
  type Money = int

  /** A catalog product: id, title, available stock and unit price. */
  datatype Product = Product(id: ProductId, title: string, available: Int32, price: Money)

  /** The body of an add or modify request; either field may be missing (null). */
  datatype ProductDto = ProductDto(id: Option<ProductId>, quantity: Option<Int32>)

  /** One line of the session cart: the subtotal is computed once, when the line is built. */
  datatype CartLine = CartLine(id: ProductId, title: string, quantity: Int32, subTotal: Money)

  /** The order status; CONFIRMED is the only value this model knows, and the default. */
  datatype OrderStatus = Confirmed

  /** A saved order: the checkout total and its status (generated id and date are not modelled). */
  datatype Order = Order(total: Money, status: OrderStatus)
}
