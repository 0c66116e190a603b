/**
 * The catalog store and the order store.
 *
 * The catalog is a table of product rows keyed by id. A `Product` value is
 * built from a row when it is read, so a product read from the catalog always
 * carries the id it is stored under.
 */
module Repository {
  import opened Model

  /** The stored columns of a product, apart from its id. */
  datatype Row = Row(title: string, available: Int32, price: Money)

  /** The product table: id to row. */
  type Catalog = map<ProductId, Row>

  /** The product entity for the row stored under `id`. */
  function AsProduct(id: ProductId, row: Row): Product {
    Product(id, row.title, row.available, row.price)
  }

  /** `findById`: the stored product for `id`, or nothing. */
  function FindById(catalog: Catalog, id: ProductId): (r: Option<Product>)
    ensures r.Some? <==> id in catalog
    ensures r.Some? ==> r.value.id == id && r.value.title == catalog[id].title
                        && r.value.available == catalog[id].available && r.value.price == catalog[id].price
  {
    if id in catalog then Some(AsProduct(id, catalog[id])) else None
  }

  /**
   * `UPDATE Product p SET p.available = :quantity WHERE p.id = :id`: the row's
   * stock becomes exactly `quantity`, whatever its sign; its title and price and
   * every other row stay as they were; an unknown id changes nothing.
   */
  function SetAvailable(catalog: Catalog, id: ProductId, quantity: Int32): (r: Catalog)
    ensures r.Keys == catalog.Keys
    ensures id in catalog ==> r[id].available == quantity
    ensures id in catalog ==> r[id].title == catalog[id].title && r[id].price == catalog[id].price
    ensures forall k | k in catalog && k != id :: r[k] == catalog[k]
    ensures id !in catalog ==> r == catalog
  {
    if id in catalog then catalog[id := catalog[id].(available := quantity)] else catalog
  }

  /**
   * `SELECT p FROM Product p WHERE p.id IN :ids`: exactly the stored products
   * whose id occurs in `ids`, each once however often its id is repeated.
   * (The query's result order is unspecified, so the result is a set.)
   */
  function FindQuantityByIds(catalog: Catalog, ids: seq<ProductId>): (r: set<Product>)
    ensures forall p :: p in r <==> p.id in ids && p.id in catalog && p == AsProduct(p.id, catalog[p.id])
    ensures forall p, q | p in r && q in r && p.id == q.id :: p == q
  {
    set k | k in catalog && k in ids :: AsProduct(k, catalog[k])
  }

  /** The product table, updated in place by the inventory write. */
  class ProductRepository {
    var rows: Catalog

    constructor (rows: Catalog)
      ensures this.rows == rows
    {
      this.rows := rows;
    }

    /** The inventory write: an unconditional overwrite of one row's stock. */
    method UpdateProductAvailability(quantity: Int32, id: ProductId)
      modifies this
      ensures rows == SetAvailable(old(rows), id, quantity)
    {
      rows := SetAvailable(rows, id, quantity);
    }
  }

  /** The order table; saving appends the order and hands it back. */
  class OrderRepository {
    var saved: seq<Order>

    constructor ()
      ensures saved == []
    {
      saved := [];
    }

    method Save(order: Order) returns (r: Order)
      modifies this
      ensures r == order
      ensures saved == old(saved) + [order]
    {
      saved := saved + [order];
      r := order;
    }
  }
}
