/** The logical content of the database behind the store's DbContext: one table per entity,
    each an ordered sequence of rows, with the key constraints the schema declares. */
module Persistence {
  import opened Basics
  import opened Customers
  import opened Products
  import opened Orders

  datatype Store = Store(customers: seq<Customer>, products: seq<ProductRecord>, orders: seq<OrderRecord>)

  /** Primary key on products: no two rows share an id. */
  predicate ProductKeysUnique(products: seq<ProductRecord>)
  {
    forall i, j :: 0 <= i < j < |products| ==> products[i].id != products[j].id
  }

  /** Primary key on orders: no two rows share an id. */
  predicate OrderKeysUnique(orders: seq<OrderRecord>)
  {
    forall i, j :: 0 <= i < j < |orders| ==> orders[i].id != orders[j].id
  }

  /** The unique index on customer emails. */
  predicate EmailsUnique(customers: seq<Customer>)
  {
    forall i, j :: 0 <= i < j < |customers| ==> customers[i].email != customers[j].email
  }

  /** Non-negative stock for every product row. */
  predicate StockNonNegative(products: seq<ProductRecord>)
  {
    forall i :: 0 <= i < |products| ==> products[i].stockQuantity >= 0
  }
}
