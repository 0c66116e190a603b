/**
 * The cart endpoints. The session's "cart" attribute is either absent (null)
 * or an ordered list of lines; absent and empty are different states.
 *
 * Each endpoint is a method of `ProductController` that follows the handler's
 * steps, and is tied to a pure step function (response and new cart) about
 * which the properties are proved.
 */
module Controller {
  import opened Model
  import opened Repository
  import opened Service
  import opened ProductMapper

  /** The bean-validation messages of the request body. */
  const ID_MANDATORY: string := "Id is mandatory"
  const QUANTITY_MANDATORY: string := "quantity is mandatory"
  const QUANTITY_AT_LEAST_ONE: string := "Add at least 1no"

  /**
   * The binding errors of a request body: a missing id, a missing quantity, a
   * quantity below 1 (a missing quantity is not also below 1).
   */
  function BindingErrors(dto: ProductDto): (errors: set<string>)
    ensures errors == {} <==> dto.id.Some? && dto.quantity.Some? && dto.quantity.value >= 1
    ensures ID_MANDATORY in errors <==> dto.id.None?
    ensures QUANTITY_MANDATORY in errors <==> dto.quantity.None?
    ensures QUANTITY_AT_LEAST_ONE in errors <==> dto.quantity.Some? && dto.quantity.value < 1
  {
    (if dto.id.None? then {ID_MANDATORY} else {})
    + (if dto.quantity.None? then {QUANTITY_MANDATORY} else {})
    + (if dto.quantity.Some? && dto.quantity.value < 1 then {QUANTITY_AT_LEAST_ONE} else {})
  }

  /** What an endpoint answers: 200 with a body, 400, 409, 204, or 500 for an unhandled exception. */
  datatype Response<T> =
    | Ok(body: T)
    | BadRequest(messages: set<string>)
    | Conflict(error: ServiceError)
    | NoContent
    | InternalServerError

  /** One request's effect on the session: the response and the cart attribute afterwards. */
  datatype Step<T> = Step(response: Response<T>, cart: Option<seq<CartLine>>)

  /** The lines of the session cart; an absent cart reads as no lines. */
  function Lines(cart: Option<seq<CartLine>>): seq<CartLine> {
    match cart
    case None => []
    case Some(lines) => lines
  }

  /** No line of `lines` has product id `id` (`noneMatch`). */
  predicate NoneMatch(lines: seq<CartLine>, id: ProductId) {
    forall i | 0 <= i < |lines| :: lines[i].id != id
  }

  /** The number of lines with product id `id`. */
  function CountId(lines: seq<CartLine>, id: ProductId): nat {
    if lines == [] then 0 else (if lines[0].id == id then 1 else 0) + CountId(lines[1..], id)
  }

  /** `removeIf(line -> line.getId().equals(id))`: every line with that id goes, the rest stay in order. */
  function RemoveAll(lines: seq<CartLine>, id: ProductId): (r: seq<CartLine>)
    ensures forall l :: l in r <==> l in lines && l.id != id
    ensures |r| <= |lines|
  {
    if lines == [] then []
    else (if lines[0].id == id then [] else [lines[0]]) + RemoveAll(lines[1..], id)
  }

  /** `replaceAll(line -> line.getId().equals(id) ? replacement : line)`: every matching slot gets the replacement. */
  function ReplaceAll(lines: seq<CartLine>, id: ProductId, replacement: CartLine): (r: seq<CartLine>)
    ensures |r| == |lines|
    ensures forall i | 0 <= i < |lines| :: r[i] == if lines[i].id == id then replacement else lines[i]
  {
    if lines == [] then []
    else [if lines[0].id == id then replacement else lines[0]] + ReplaceAll(lines[1..], id, replacement)
  }

  /** POST /cart: validate the body, check the catalog, then append the new line to the (possibly new) cart. */
  function AddToCart(catalog: Catalog, cart: Option<seq<CartLine>>, dto: ProductDto): Step<CartLine> {
    if BindingErrors(dto) != {} then Step(BadRequest(BindingErrors(dto)), cart)
    else match GetProductIfValidToAddInCart(catalog, dto.id.value, dto.quantity.value)
      case Failure(e) => Step(Conflict(e), cart)
      case Success(product) =>
        var line := ToCartProductDto(product, dto);
        Step(Ok(line), Some(Lines(cart) + [line]))
  }

  /**
   * The cart after a modify that passed validation: a new cart holding just the
   * line, the line appended when no line has the path id, otherwise every line
   * with the path id replaced by it.
   */
  function ModifiedCart(cart: Option<seq<CartLine>>, pathId: ProductId, line: CartLine): seq<CartLine> {
    match cart
    case None => [line]
    case Some(lines) => if NoneMatch(lines, pathId) then lines + [line] else ReplaceAll(lines, pathId, line)
  }

  /**
   * PUT /cart/products/{pathId}: validate the body, check the catalog for the
   * BODY's id, build the line from that product, and place it by the PATH id.
   */
  function ModifyCart(catalog: Catalog, cart: Option<seq<CartLine>>, pathId: ProductId, dto: ProductDto)
    : Step<CartLine>
  {
    if BindingErrors(dto) != {} then Step(BadRequest(BindingErrors(dto)), cart)
    else match GetProductIfValidToAddInCart(catalog, dto.id.value, dto.quantity.value)
      case Failure(e) => Step(Conflict(e), cart)
      case Success(product) =>
        var line := ToCartProductDto(product, dto);
        Step(Ok(line), Some(ModifiedCart(cart, pathId, line)))
  }

  /** DELETE /{id}: the remaining lines; an absent cart stays absent and answers no lines. */
  function RemoveFromCart(cart: Option<seq<CartLine>>, id: ProductId): Step<seq<CartLine>> {
    match cart
    case None => Step(Ok([]), None)
    case Some(lines) => var rest := RemoveAll(lines, id); Step(Ok(rest), Some(rest))
  }

  /** GET /cart/checkout: no content without a cart; otherwise the service's order, or 500 when it throws. */
  function CheckoutResponse(catalog: Catalog, cart: Option<seq<CartLine>>): Response<Order> {
    match cart
    case None => NoContent
    case Some(lines) =>
      match CheckOut(catalog, lines)
      case Success(order) => Ok(order)
      case Failure(_) => InternalServerError
  }

  /** The catalog after GET /cart/checkout. */
  function CheckoutCatalog(catalog: Catalog, cart: Option<seq<CartLine>>): Catalog {
    match cart
    case None => catalog
    case Some(lines) => CheckedOutCatalog(catalog, lines)
  }

  // ---------------------------------------------------------------------------
  // Validation and the catalog check, shared by add and modify

  /** A malformed body answers 400 with its messages, leaves the cart as it was, and never looks at the catalog. */
  lemma MalformedRequestRejected(c1: Catalog, c2: Catalog, cart: Option<seq<CartLine>>, pathId: ProductId,
                                 dto: ProductDto)
    requires dto.id.None? || dto.quantity.None? || dto.quantity.value < 1
    ensures AddToCart(c1, cart, dto) == Step(BadRequest(BindingErrors(dto)), cart) == AddToCart(c2, cart, dto)
    ensures ModifyCart(c1, cart, pathId, dto) == Step(BadRequest(BindingErrors(dto)), cart)
            == ModifyCart(c2, cart, pathId, dto)
    ensures BindingErrors(dto) != {}
  {
  }

  /** A well-formed body for an unknown product, or for more than is in stock, answers 409 and leaves the cart. */
  lemma CatalogRejectionLeavesCart(catalog: Catalog, cart: Option<seq<CartLine>>, pathId: ProductId,
                                   dto: ProductDto)
    requires dto.id.Some? && dto.quantity.Some? && dto.quantity.value >= 1
    requires dto.id.value !in catalog || catalog[dto.id.value].available < dto.quantity.value
    ensures var e := if dto.id.value !in catalog then ProductNotFound else InsufficientQuantity;
            && AddToCart(catalog, cart, dto) == Step(Conflict(e), cart)
            && ModifyCart(catalog, cart, pathId, dto) == Step(Conflict(e), cart)
  {
  }

  // ---------------------------------------------------------------------------
  // Add

  /**
   * A successful add appends exactly one line, built from the stored product, at
   * the end of the cart (creating it when absent); earlier lines are untouched.
   */
  lemma AddAppendsOneLine(catalog: Catalog, cart: Option<seq<CartLine>>, dto: ProductDto)
    requires dto.id.Some? && dto.quantity.Some? && dto.quantity.value >= 1
    requires dto.id.value in catalog && catalog[dto.id.value].available >= dto.quantity.value
    ensures var step := AddToCart(catalog, cart, dto);
            var row := catalog[dto.id.value];
            && step.response.Ok?
            && step.response.body == CartLine(dto.id.value, row.title, dto.quantity.value,
                                              row.price * dto.quantity.value)
            && step.cart == Some(Lines(cart) + [step.response.body])
  {
  }

  /** Adding the same product twice gives two equal lines, not one merged line. */
  lemma {:induction false} AddTwiceTwoLines(catalog: Catalog, cart: Option<seq<CartLine>>, dto: ProductDto)
    requires AddToCart(catalog, cart, dto).response.Ok?
    ensures var first := AddToCart(catalog, cart, dto);
            var second := AddToCart(catalog, first.cart, dto);
            var line := first.response.body;
            && second.response == first.response
            && Lines(second.cart) == Lines(cart) + [line, line]
            && CountId(Lines(second.cart), line.id) == CountId(Lines(cart), line.id) + 2
  {
    var first := AddToCart(catalog, cart, dto);
    var line := first.response.body;
    assert Lines(first.cart) + [line] == Lines(cart) + [line, line];
    CountIdOfConcat(Lines(cart), [line, line], line.id);
    assert [line, line][1..] == [line];
    assert [line][1..] == [];
    assert CountId([line], line.id) == 1;
  }

  /** Counting lines with an id splits over concatenation. */
  lemma {:induction false} CountIdOfConcat(a: seq<CartLine>, b: seq<CartLine>, id: ProductId)
    ensures CountId(a + b, id) == CountId(a, id) + CountId(b, id)
    decreases |a|
  {
    if a == [] {
      assert a + b == b;
    } else {
      assert (a + b)[1..] == a[1..] + b;
      CountIdOfConcat(a[1..], b, id);
    }
  }

  // ---------------------------------------------------------------------------
  // Remove

  /** Removal splits over concatenation, so the remaining lines keep their relative order. */
  lemma {:induction false} RemoveAllOfConcat(a: seq<CartLine>, b: seq<CartLine>, id: ProductId)
    ensures RemoveAll(a + b, id) == RemoveAll(a, id) + RemoveAll(b, id)
    decreases |a|
  {
    if a == [] {
      assert a + b == b;
    } else {
      assert (a + b)[1..] == a[1..] + b;
      RemoveAllOfConcat(a[1..], b, id);
    }
  }

  /** Every line with the id is gone, every other line keeps its multiplicity, and the size drops by the matches. */
  lemma {:induction false} RemoveAllContents(lines: seq<CartLine>, id: ProductId)
    ensures forall l :: multiset(RemoveAll(lines, id))[l] == if l.id == id then 0 else multiset(lines)[l]
    ensures |RemoveAll(lines, id)| == |lines| - CountId(lines, id)
    decreases |lines|
  {
    if lines != [] {
      RemoveAllContents(lines[1..], id);
      assert lines == [lines[0]] + lines[1..];
    }
  }

  /** Removing an id no line has changes nothing, size included. */
  lemma {:induction false} RemoveAllAbsent(lines: seq<CartLine>, id: ProductId)
    requires NoneMatch(lines, id)
    ensures RemoveAll(lines, id) == lines
    decreases |lines|
  {
    if lines != [] {
      RemoveAllAbsent(lines[1..], id);
    }
  }

  /** Removing twice is removing once. */
  lemma RemoveAllIdempotent(lines: seq<CartLine>, id: ProductId)
    ensures RemoveAll(RemoveAll(lines, id), id) == RemoveAll(lines, id)
  {
    var r := RemoveAll(lines, id);
    assert forall i | 0 <= i < |r| :: r[i] in r;
    RemoveAllAbsent(r, id);
  }

  /**
   * DELETE answers the remaining lines and never fails; without a cart it answers
   * no lines and creates no cart; removing again changes nothing more.
   */
  lemma RemoveFromCartOutcome(cart: Option<seq<CartLine>>, id: ProductId)
    ensures RemoveFromCart(cart, id).response == Ok(Lines(RemoveFromCart(cart, id).cart))
    ensures cart.None? ==> RemoveFromCart(cart, id) == Step(Ok([]), None)
    ensures cart.Some? ==> RemoveFromCart(cart, id).cart == Some(RemoveAll(cart.value, id))
    ensures RemoveFromCart(RemoveFromCart(cart, id).cart, id) == RemoveFromCart(cart, id)
  {
    if cart.Some? {
      RemoveAllIdempotent(cart.value, id);
    }
  }

  // ---------------------------------------------------------------------------
  // Modify

  /**
   * The three cases of modify: an absent cart becomes exactly the new line; a
   * cart without the path id grows by the line at the end; otherwise the size
   * and all positions stay and each matching line is replaced, not merged.
   */
  lemma ModifiedCartCases(cart: Option<seq<CartLine>>, pathId: ProductId, line: CartLine)
    ensures cart.None? ==> ModifiedCart(cart, pathId, line) == [line]
    ensures cart.Some? && NoneMatch(cart.value, pathId) ==>
              ModifiedCart(cart, pathId, line) == cart.value + [line]
    ensures cart.Some? && !NoneMatch(cart.value, pathId) ==>
              && |ModifiedCart(cart, pathId, line)| == |cart.value|
              && forall i | 0 <= i < |cart.value| ::
                   ModifiedCart(cart, pathId, line)[i] == if cart.value[i].id == pathId then line else cart.value[i]
  {
  }

  /** The line placed by a successful modify is built from the product of the BODY's id. */
  lemma ModifyLineFromBodyId(catalog: Catalog, cart: Option<seq<CartLine>>, pathId: ProductId, dto: ProductDto)
    requires ModifyCart(catalog, cart, pathId, dto).response.Ok?
    ensures var step := ModifyCart(catalog, cart, pathId, dto);
            var line := step.response.body;
            && dto.id.Some? && dto.quantity.Some?
            && line.id == dto.id.value
            && line.quantity == dto.quantity.value
            && line.subTotal == catalog[dto.id.value].price * dto.quantity.value
            && step.cart == Some(ModifiedCart(cart, pathId, line))
  {
  }

  /** Replacing by a line that itself has the id, then replacing again, keeps only the second line. */
  lemma ReplaceAllTwice(lines: seq<CartLine>, id: ProductId, l1: CartLine, l2: CartLine)
    requires l1.id == id
    ensures ReplaceAll(ReplaceAll(lines, id, l1), id, l2) == ReplaceAll(lines, id, l2)
  {
  }

  /** When no line has the id, replacing in the cart with one matching line appended touches only that line. */
  lemma ReplaceAllAfterAppend(lines: seq<CartLine>, id: ProductId, l1: CartLine, l2: CartLine)
    requires NoneMatch(lines, id) && l1.id == id
    ensures ReplaceAll(lines + [l1], id, l2) == lines + [l2]
  {
    var r := ReplaceAll(lines + [l1], id, l2);
    assert forall i | 0 <= i < |lines| :: r[i] == lines[i];
  }

  /** Modifying the same product twice keeps only the second request's line: replace, never accumulate. */
  lemma ModifyTwiceReplaces(cart: Option<seq<CartLine>>, id: ProductId, l1: CartLine, l2: CartLine)
    requires l1.id == id
    ensures ModifiedCart(Some(ModifiedCart(cart, id, l1)), id, l2) == ModifiedCart(cart, id, l2)
  {
    var once := ModifiedCart(cart, id, l1);
    match cart
    case None =>
      assert once[0].id == id;
    case Some(lines) =>
      if NoneMatch(lines, id) {
        assert once[|lines|] == l1;
        ReplaceAllAfterAppend(lines, id, l1, l2);
      } else {
        var k :| 0 <= k < |lines| && lines[k].id == id;
        assert once[k] == l1;
        ReplaceAllTwice(lines, id, l1, l2);
      }
  }

  /**
   * Upserting quantity 2 and then quantity 5 of a product into an absent cart
   * leaves exactly one line, of quantity 5.
   */
  lemma UpsertTwiceExample(catalog: Catalog, id: ProductId)
    requires id in catalog && catalog[id].available >= 5
    ensures var first := ModifyCart(catalog, None, id, ProductDto(Some(id), Some(2)));
            var second := ModifyCart(catalog, first.cart, id, ProductDto(Some(id), Some(5)));
            && second.response.Ok?
            && Lines(second.cart) == [second.response.body]
            && second.response.body.quantity == 5
  {
    var first := ModifyCart(catalog, None, id, ProductDto(Some(id), Some(2)));
    var second := ModifyCart(catalog, first.cart, id, ProductDto(Some(id), Some(5)));
    ModifyTwiceReplaces(None, id, first.response.body, second.response.body);
  }

  /**
   * When the body names another product than the path, the matching lines are
   * replaced by a line with the BODY's id: afterwards no line has the path id,
   * so a second such request appends instead of replacing.
   */
  lemma ModifyWithOtherBodyId(lines: seq<CartLine>, pathId: ProductId, line: CartLine, next: CartLine)
    requires line.id != pathId && !NoneMatch(lines, pathId)
    ensures NoneMatch(ModifiedCart(Some(lines), pathId, line), pathId)
    ensures |ModifiedCart(Some(lines), pathId, line)| == |lines|
    ensures var once := ModifiedCart(Some(lines), pathId, line);
            ModifiedCart(Some(once), pathId, next) == once + [next]
  {
  }

  // ---------------------------------------------------------------------------
  // Checkout dispatch

  /**
   * Without a cart, checkout answers 204 and writes nothing. Any present cart,
   * the empty list included, goes to the service; the empty list yields a
   * CONFIRMED order of total 0.
   */
  lemma CheckoutDispatch(catalog: Catalog, cart: Option<seq<CartLine>>)
    ensures cart.None? ==> CheckoutResponse(catalog, cart) == NoContent && CheckoutCatalog(catalog, cart) == catalog
    ensures cart == Some([]) ==>
              CheckoutResponse(catalog, cart) == Ok(Order(0, Confirmed)) && CheckoutCatalog(catalog, cart) == catalog
    ensures cart.Some? ==>
              (CheckoutResponse(catalog, cart).Ok? <==> forall i | 0 <= i < |cart.value| :: cart.value[i].id in catalog)
    ensures cart.Some? && CheckoutResponse(catalog, cart).Ok? ==>
              CheckoutResponse(catalog, cart).body == Order(CalculateTotalAmount(SubTotals(cart.value)), Confirmed)
  {
    EmptyCartCheckOut(catalog);
  }

  /** The cart endpoints over one session. */
  class ProductController {
    const service: ProductService
    /** The session attribute "cart"; `None` when the session has none. */
    var cart: Option<seq<CartLine>>

    constructor (service: ProductService)
      ensures this.service == service && cart == None
    {
      this.service := service;
      cart := None;
    }

    method AddItemsToCart(dto: ProductDto) returns (r: Response<CartLine>)
      modifies this
      ensures Step(r, cart) == AddToCart(service.repo.rows, old(cart), dto)
    {
      var errors := BindingErrors(dto);
      if errors == {} {
        var product := GetProductIfValidToAddInCart(service.repo.rows, dto.id.value, dto.quantity.value);
        if product.Failure? {
          return Conflict(product.error);
        }
        var products := Lines(cart);
        var line := ToCartProductDto(product.value, dto);
        products := products + [line];
        cart := Some(products);
        return Ok(line);
      }
      return BadRequest(errors);
    }

    method DisplayCart() returns (lines: seq<CartLine>)
      ensures cart.None? ==> lines == []
      ensures cart.Some? ==> lines == cart.value
    {
      lines := if cart.None? then [] else cart.value;
    }

    method RemoveProductFromCart(id: ProductId) returns (r: Response<seq<CartLine>>)
      modifies this
      ensures Step(r, cart) == RemoveFromCart(old(cart), id)
    {
      if cart.None? {
        return Ok([]);
      }
      cart := Some(RemoveAll(cart.value, id));
      return Ok(cart.value);
    }

    method ModifyProductInCart(dto: ProductDto, id: ProductId) returns (r: Response<CartLine>)
      modifies this
      ensures Step(r, cart) == ModifyCart(service.repo.rows, old(cart), id, dto)
    {
      var errors := BindingErrors(dto);
      if errors == {} {
        var product := GetProductIfValidToAddInCart(service.repo.rows, dto.id.value, dto.quantity.value);
        if product.Failure? {
          return Conflict(product.error);
        }
        var line := ToCartProductDto(product.value, dto);
        if cart.None? {
          cart := Some([line]);
        } else {
          var isProductNotInCart := NoneMatch(cart.value, id);
          if isProductNotInCart {
            cart := Some(cart.value + [line]);
          } else {
            cart := Some(ReplaceAll(cart.value, id, line));
          }
        }
        return Ok(line);
      }
      return BadRequest(errors);
    }

    /** Checkout leaves the session cart as it was. */
    method CheckOutProductsInTheCart() returns (r: Response<Order>)
      modifies service.repo, service.orders
      ensures r == CheckoutResponse(old(service.repo.rows), cart)
      ensures service.repo.rows == CheckoutCatalog(old(service.repo.rows), cart)
      ensures service.orders.saved == old(service.orders.saved) + (if r.Ok? then [r.body] else [])
      ensures cart == old(cart)
    {
      if cart.None? {
        return NoContent;
      }
      var order := service.CheckOutProductsInTheCart(cart.value);
      if order.Success? {
        r := Ok(order.value);
      } else {
        r := InternalServerError;
      }
    }
  }
}
