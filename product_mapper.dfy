/**
 * Building a cart line from the catalog product and the request body.
 */
module ProductMapper {
  import opened Model

  /**
   * The cart line for `product` at the requested quantity. Id and title come
   * from the catalog product, the quantity from the request, and the subtotal
   * is price times quantity, fixed at this moment.
   * The request quantity is dereferenced, so it must be present.
   */
  function ToCartProductDto(product: Product, dto: ProductDto): (line: CartLine)
    requires dto.quantity.Some?
    ensures line.id == product.id
    ensures line.title == product.title
    ensures line.quantity == dto.quantity.value
    ensures line.subTotal == product.price * dto.quantity.value
    ensures dto.quantity.value >= 1 && product.price >= 0 ==> line.subTotal >= product.price >= 0
  {
    CartLine(product.id, product.title, dto.quantity.value, product.price * dto.quantity.value)
  }

  /** The line does not take its id from the request: only the product's id matters. */
  lemma LineIdIgnoresRequestId(product: Product, a: ProductDto, b: ProductDto)
    requires a.quantity == b.quantity && a.quantity.Some?
    ensures ToCartProductDto(product, a) == ToCartProductDto(product, b)
  {
  }
}
