/**
 * Catalog validation for the cart, and checkout: the order total from the
 * cached subtotals and the stock writes computed from one catalog read.
 */
module Service {
  import opened Model
  import opened Repository

  /** The two business exceptions; both reach the client as a 409 conflict. */
  datatype ServiceError = ProductNotFound | InsufficientQuantity

  /**
   * How checkout fails: a cart line whose product the catalog read did not
   * return makes the snapshot lookup yield null, and unboxing it throws.
   */
  datatype CheckoutError = UnknownCartProduct

  /** The stored product for `id`; a missing product and a null id are both not found. */
  function GetProductById(catalog: Catalog, id: Option<ProductId>): (r: Result<Product, ServiceError>)
    ensures r.Success? <==> id.Some? && id.value in catalog
    ensures r.Success? ==> r.value == AsProduct(id.value, catalog[id.value])
    ensures r.Failure? ==> r.error == ProductNotFound
  {
    if id.None? then Failure(ProductNotFound)
    else match FindById(catalog, id.value)
      case None => Failure(ProductNotFound)
      case Some(p) => Success(p)
  }

  /**
   * The stored product, when it exists and has at least `quantity` in stock
   * (equality passes); otherwise the reason it cannot go into the cart.
   * It only reads the catalog.
   */
  function GetProductIfValidToAddInCart(catalog: Catalog, id: ProductId, quantity: Int32)
    : (r: Result<Product, ServiceError>)
    ensures r.Success? <==> id in catalog && catalog[id].available >= quantity
    ensures r.Success? ==> r.value == AsProduct(id, catalog[id])
    ensures r == Failure(ProductNotFound) <==> id !in catalog
    ensures r == Failure(InsufficientQuantity) <==> id in catalog && catalog[id].available < quantity
  {
    match GetProductById(catalog, Some(id))
    case Failure(e) => Failure(e)
    case Success(product) =>
      if product.available >= quantity then Success(product) else Failure(InsufficientQuantity)
  }

  /** `reduce(BigDecimal::add).orElse(ZERO)`: the left-to-right sum, zero for no subtotals. */
  function CalculateTotalAmount(subTotals: seq<Money>): Money
    decreases |subTotals|
  {
    if subTotals == [] then 0
    else CalculateTotalAmount(subTotals[..|subTotals| - 1]) + subTotals[|subTotals| - 1]
  }

  /** Non-negative subtotals give a non-negative total, at least as large as each of them. */
  lemma {:induction false} TotalBounds(subTotals: seq<Money>)
    requires forall i | 0 <= i < |subTotals| :: subTotals[i] >= 0
    ensures CalculateTotalAmount(subTotals) >= 0
    ensures forall i | 0 <= i < |subTotals| :: subTotals[i] <= CalculateTotalAmount(subTotals)
    decreases |subTotals|
  {
    if subTotals != [] {
      TotalBounds(subTotals[..|subTotals| - 1]);
    }
  }

  /** The total splits over concatenation, so no order of summation matters. */
  lemma {:induction false} TotalOfConcat(a: seq<Money>, b: seq<Money>)
    ensures CalculateTotalAmount(a + b) == CalculateTotalAmount(a) + CalculateTotalAmount(b)
    decreases |b|
  {
    if b == [] {
      assert a + b == a;
    } else {
      var b' := b[..|b| - 1];
      assert (a + b)[..|a + b| - 1] == a + b';
      TotalOfConcat(a, b');
    }
  }

  /** The subtotals of the cart lines, in cart order. */
  function SubTotals(cart: seq<CartLine>): seq<Money> {
    seq(|cart|, i requires 0 <= i < |cart| => cart[i].subTotal)
  }

  /** The product ids of the cart lines, in cart order, duplicates kept. */
  function Ids(cart: seq<CartLine>): seq<ProductId> {
    seq(|cart|, i requires 0 <= i < |cart| => cart[i].id)
  }

  /** The order total of a cart: the sum of its lines' cached subtotals. */
  function CartTotal(cart: seq<CartLine>): Money {
    CalculateTotalAmount(SubTotals(cart))
  }

  /** The cart total is the sum of the line subtotals, one line after another. */
  lemma {:induction false} CartTotalOfAppend(cart: seq<CartLine>, line: CartLine)
    ensures CartTotal(cart + [line]) == CartTotal(cart) + line.subTotal
  {
    assert SubTotals(cart + [line]) == SubTotals(cart) + [line.subTotal];
    TotalOfConcat(SubTotals(cart), [line.subTotal]);
    assert CalculateTotalAmount([line.subTotal]) == CalculateTotalAmount([]) + line.subTotal;
  }

  /**
   * `Collectors.toMap(Product::getId, Product::getAvailable)` over the read
   * products; the read never returns two products with one id, so the
   * collector's duplicate-key failure cannot arise.
   */
  function AvailabilityById(products: set<Product>): (m: map<ProductId, Int32>)
    requires forall p, q | p in products && q in products && p.id == q.id :: p == q
    ensures m.Keys == set p | p in products :: p.id
    ensures forall p | p in products :: m[p.id] == p.available
  {
    map p | p in products :: p.id := p.available
  }

  /**
   * The `idWithQuantity` map of checkout: the stock of every catalog product the
   * cart refers to, as read once before any write.
   */
  function Snapshot(catalog: Catalog, cart: seq<CartLine>): (m: map<ProductId, Int32>)
    ensures forall k | k in m :: k in catalog && k in Ids(cart) && m[k] == catalog[k].available
    ensures forall i | 0 <= i < |cart| :: cart[i].id in m <==> cart[i].id in catalog
  {
    var found := FindQuantityByIds(catalog, Ids(cart));
    var m := AvailabilityById(found);
    assert forall i | 0 <= i < |cart| :: Ids(cart)[i] == cart[i].id;
    m
  }

  /** Every cart line refers to a product in the catalog. */
  predicate AllInCatalog(catalog: Catalog, cart: seq<CartLine>) {
    forall i | 0 <= i < |cart| :: cart[i].id in catalog
  }

  /**
   * The stock writes of checkout over `lines`, in order: each line's product
   * gets the snapshot stock minus the line's quantity (Java `int` arithmetic),
   * never a value computed from an earlier write.
   */
  function ApplyWrites(catalog: Catalog, snapshot: map<ProductId, Int32>, lines: seq<CartLine>): (r: Catalog)
    requires forall i | 0 <= i < |lines| :: lines[i].id in snapshot
    ensures r.Keys == catalog.Keys
    decreases |lines|
  {
    if lines == [] then catalog
    else
      var last := lines[|lines| - 1];
      SetAvailable(ApplyWrites(catalog, snapshot, lines[..|lines| - 1]), last.id,
                   Int32Sub(snapshot[last.id], last.quantity))
  }

  /** The outcome of checkout: the order with the cart's total, or the failure. */
  function CheckOut(catalog: Catalog, cart: seq<CartLine>): Result<Order, CheckoutError> {
    if AllInCatalog(catalog, cart) then Success(Order(CartTotal(cart), Confirmed))
    else Failure(UnknownCartProduct)
  }

  /** The catalog after checkout; a failed checkout is rolled back. */
  function CheckedOutCatalog(catalog: Catalog, cart: seq<CartLine>): (r: Catalog)
    ensures r.Keys == catalog.Keys
  {
    if AllInCatalog(catalog, cart) then
      var snapshot := Snapshot(catalog, cart);
      assert forall i | 0 <= i < |cart| :: cart[i].id in snapshot by {
        forall i | 0 <= i < |cart| ensures cart[i].id in snapshot {
          assert Ids(cart)[i] == cart[i].id;
        }
      }
      ApplyWrites(catalog, snapshot, cart)
    else catalog
  }

  /** Writing line `i` after the lines before it is one more write on top of theirs. */
  lemma ApplyWritesStep(catalog: Catalog, snapshot: map<ProductId, Int32>, lines: seq<CartLine>, i: nat)
    requires i < |lines|
    requires forall j | 0 <= j <= i :: lines[j].id in snapshot
    ensures ApplyWrites(catalog, snapshot, lines[..i + 1])
            == SetAvailable(ApplyWrites(catalog, snapshot, lines[..i]), lines[i].id,
                            Int32Sub(snapshot[lines[i].id], lines[i].quantity))
  {
    assert lines[..i + 1][..i] == lines[..i];
  }

  /** The writes keep every row's title and price and touch only products the lines name. */
  lemma {:induction false} ApplyWritesFrame(catalog: Catalog, snapshot: map<ProductId, Int32>, lines: seq<CartLine>)
    requires forall i | 0 <= i < |lines| :: lines[i].id in snapshot
    ensures forall k | k in catalog :: ApplyWrites(catalog, snapshot, lines)[k].title == catalog[k].title
                                       && ApplyWrites(catalog, snapshot, lines)[k].price == catalog[k].price
    ensures forall k | k in catalog && (forall i | 0 <= i < |lines| :: lines[i].id != k) ::
              ApplyWrites(catalog, snapshot, lines)[k] == catalog[k]
    decreases |lines|
  {
    if lines != [] {
      ApplyWritesFrame(catalog, snapshot, lines[..|lines| - 1]);
    }
  }

  /**
   * The last write wins: a product's final stock is its snapshot stock minus the
   * quantity of the LAST line naming it, whatever earlier lines for it asked.
   */
  lemma {:induction false} ApplyWritesLastWins(catalog: Catalog, snapshot: map<ProductId, Int32>,
                                               lines: seq<CartLine>, j: nat)
    requires forall i | 0 <= i < |lines| :: lines[i].id in snapshot
    requires j < |lines| && lines[j].id in catalog
    requires forall i | j < i < |lines| :: lines[i].id != lines[j].id
    ensures lines[j].id in ApplyWrites(catalog, snapshot, lines)
    ensures ApplyWrites(catalog, snapshot, lines)[lines[j].id].available
            == Int32Sub(snapshot[lines[j].id], lines[j].quantity)
    decreases |lines|
  {
    var prefix := lines[..|lines| - 1];
    ApplyWritesFrame(catalog, snapshot, prefix);
    if j < |lines| - 1 {
      ApplyWritesLastWins(catalog, snapshot, prefix, j);
    }
  }

  /** Checkout succeeds exactly when every line's product is in the catalog; the order carries the cart total and is CONFIRMED. */
  lemma CheckOutOutcome(catalog: Catalog, cart: seq<CartLine>)
    ensures CheckOut(catalog, cart).Success? <==> forall i | 0 <= i < |cart| :: cart[i].id in catalog
    ensures CheckOut(catalog, cart).Success? ==>
              CheckOut(catalog, cart).value.total == CalculateTotalAmount(SubTotals(cart))
              && CheckOut(catalog, cart).value.status == Confirmed
  {
  }

  /**
   * The total depends on the cart alone: two catalogs that differ in prices (or
   * anything else) give the same order, as long as both know the cart's products.
   */
  lemma TotalIgnoresCatalog(c1: Catalog, c2: Catalog, cart: seq<CartLine>)
    requires CheckOut(c1, cart).Success? && CheckOut(c2, cart).Success?
    ensures CheckOut(c1, cart) == CheckOut(c2, cart)
  {
  }

  /** An empty cart checks out as a zero-total order and writes nothing. */
  lemma EmptyCartCheckOut(catalog: Catalog)
    ensures CheckOut(catalog, []) == Success(Order(0, Confirmed))
    ensures CheckedOutCatalog(catalog, []) == catalog
  {
  }

  /** A failed checkout leaves the catalog as it was. */
  lemma FailedCheckOutWritesNothing(catalog: Catalog, cart: seq<CartLine>)
    requires CheckOut(catalog, cart).Failure?
    ensures CheckedOutCatalog(catalog, cart) == catalog
  {
  }

  /** Checkout keeps every title and price and every product the cart does not name. */
  lemma CheckOutFrame(catalog: Catalog, cart: seq<CartLine>)
    ensures forall k | k in catalog :: CheckedOutCatalog(catalog, cart)[k].title == catalog[k].title
                                       && CheckedOutCatalog(catalog, cart)[k].price == catalog[k].price
    ensures forall k | k in catalog && (forall i | 0 <= i < |cart| :: cart[i].id != k) ::
              CheckedOutCatalog(catalog, cart)[k] == catalog[k]
  {
    if AllInCatalog(catalog, cart) {
      var snapshot := Snapshot(catalog, cart);
      forall i | 0 <= i < |cart| ensures cart[i].id in snapshot {
        assert Ids(cart)[i] == cart[i].id;
      }
      ApplyWritesFrame(catalog, snapshot, cart);
    }
  }

  /**
   * For the last line `j` naming a product, that product's stock after checkout is
   * the stock read at checkout minus line `j`'s quantity, and no check keeps it
   * non-negative. With an exact (non-wrapping) difference it is the plain difference.
   */
  lemma CheckOutLastWriteWins(catalog: Catalog, cart: seq<CartLine>, j: nat)
    requires AllInCatalog(catalog, cart)
    requires j < |cart|
    requires forall i | j < i < |cart| :: cart[i].id != cart[j].id
    ensures cart[j].id in CheckedOutCatalog(catalog, cart)
    ensures CheckedOutCatalog(catalog, cart)[cart[j].id].available
            == Int32Sub(catalog[cart[j].id].available, cart[j].quantity)
    ensures InInt32(catalog[cart[j].id].available - cart[j].quantity) ==>
              CheckedOutCatalog(catalog, cart)[cart[j].id].available
              == catalog[cart[j].id].available - cart[j].quantity
  {
    var snapshot := Snapshot(catalog, cart);
    forall i | 0 <= i < |cart| ensures cart[i].id in snapshot {
      assert Ids(cart)[i] == cart[i].id;
    }
    ApplyWritesLastWins(catalog, snapshot, cart, j);
  }

  /** With distinct ids in the cart, each product loses exactly its line's quantity. */
  lemma CheckOutDistinctIds(catalog: Catalog, cart: seq<CartLine>, i: nat)
    requires AllInCatalog(catalog, cart)
    requires forall a, b | 0 <= a < b < |cart| :: cart[a].id != cart[b].id
    requires i < |cart|
    requires InInt32(catalog[cart[i].id].available - cart[i].quantity)
    ensures CheckedOutCatalog(catalog, cart)[cart[i].id].available
            == catalog[cart[i].id].available - cart[i].quantity
  {
    CheckOutLastWriteWins(catalog, cart, i);
  }

  /**
   * The unit test's scenario: lines (1, qty 2, 250) and (2, qty 3, 150) against
   * stock 5 and 7 give an order of 400 and stock 3 and 4.
   */
  lemma CheckOutExample()
    ensures var catalog := map[1 := Row("product 1", 5, 125), 2 := Row("product 2", 7, 75)];
            var cart := [CartLine(1, "product 1", 2, 250), CartLine(2, "product 2", 3, 150)];
            && CheckOut(catalog, cart) == Success(Order(400, Confirmed))
            && CheckedOutCatalog(catalog, cart)[1].available == 3
            && CheckedOutCatalog(catalog, cart)[2].available == 4
  {
    var catalog := map[1 := Row("product 1", 5, 125), 2 := Row("product 2", 7, 75)];
    var cart := [CartLine(1, "product 1", 2, 250), CartLine(2, "product 2", 3, 150)];
    assert SubTotals(cart) == [250, 150];
    assert CalculateTotalAmount([250, 150]) == 400 by {
      assert [250, 150][..1] == [250];
      assert [250][..0] == [];
    }
    CheckOutDistinctIds(catalog, cart, 0);
    CheckOutDistinctIds(catalog, cart, 1);
  }

  /**
   * Two lines for one product (stock 5, quantities 2 and 2): the stock ends at 3,
   * not 1, so the stock removed (2) is less than the quantity ordered (4).
   */
  lemma DuplicateLinesLastWriteWins()
    ensures var catalog := map[1 := Row("p", 5, 10)];
            var cart := [CartLine(1, "p", 2, 20), CartLine(1, "p", 2, 20)];
            && CheckOut(catalog, cart).Success?
            && CheckedOutCatalog(catalog, cart)[1].available == 3
  {
    var catalog := map[1 := Row("p", 5, 10)];
    var cart := [CartLine(1, "p", 2, 20), CartLine(1, "p", 2, 20)];
    CheckOutLastWriteWins(catalog, cart, 1);
  }

  /** Nothing keeps stock non-negative: stock 1 and a line of quantity 3 leave -2. */
  lemma CheckOutCanOversell()
    ensures var catalog := map[1 := Row("p", 1, 10)];
            var cart := [CartLine(1, "p", 3, 30)];
            && CheckOut(catalog, cart).Success?
            && CheckedOutCatalog(catalog, cart)[1].available == -2
  {
    var catalog := map[1 := Row("p", 1, 10)];
    var cart := [CartLine(1, "p", 3, 30)];
    CheckOutLastWriteWins(catalog, cart, 0);
  }

  /** The service over the product and order stores. */
  class ProductService {
    const repo: ProductRepository
    const orders: OrderRepository

    constructor (repo: ProductRepository, orders: OrderRepository)
      ensures this.repo == repo && this.orders == orders
    {
      this.repo := repo;
      this.orders := orders;
    }

    /**
     * Checkout: sum the cached subtotals, read the stock of the cart's products
     * once, write snapshot minus quantity for each line in cart order, then save
     * one order. A line whose product was not read fails the whole call, and the
     * transaction undoes the writes already made.
     */
    method CheckOutProductsInTheCart(cart: seq<CartLine>) returns (r: Result<Order, CheckoutError>)
      modifies repo, orders
      ensures r == CheckOut(old(repo.rows), cart)
      ensures repo.rows == CheckedOutCatalog(old(repo.rows), cart)
      ensures orders.saved == old(orders.saved) + (if r.Success? then [r.value] else [])
    {
      var totalAmount := CalculateTotalAmount(SubTotals(cart));
      var productQuantities := FindQuantityByIds(repo.rows, Ids(cart));
      var idWithQuantity := AvailabilityById(productQuantities);
      var rollback := repo.rows;
      assert idWithQuantity == Snapshot(rollback, cart);
      var i := 0;
      while i < |cart|
        invariant 0 <= i <= |cart|
        invariant forall j | 0 <= j < i :: cart[j].id in idWithQuantity
        invariant repo.rows == ApplyWrites(rollback, idWithQuantity, cart[..i])
        invariant orders.saved == old(orders.saved)
      {
        var id := cart[i].id;
        if id !in idWithQuantity {
          assert Ids(cart)[i] == id;
          assert !AllInCatalog(rollback, cart);
          repo.rows := rollback;
          return Failure(UnknownCartProduct);
        }
        var updatedQuantity := Int32Sub(idWithQuantity[id], cart[i].quantity);
        repo.UpdateProductAvailability(updatedQuantity, id);
        ApplyWritesStep(rollback, idWithQuantity, cart, i);
        i := i + 1;
      }
      assert cart[..i] == cart;
      assert AllInCatalog(rollback, cart);
      var order := orders.Save(Order(totalAmount, Confirmed));
      r := Success(order);
    }
  }
}
