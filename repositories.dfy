/** The repository queries the handlers rely on, as functions over the stored tables
    (src/OnlineStore.Infrastructure/Repositories/SpecificRepositories.cs). GetByIdAsync comes from a
    generic base repository that is not part of this model; it is read as "the row with that key". */
module Repositories {
  import opened Basics
  import opened Customers
  import opened Products
  import opened Orders
  import opened Persistence

  /** The key column of the product table, row by row. */
  function ProductIds(products: seq<ProductRecord>): (ids: seq<Guid>)
    ensures |ids| == |products|
    ensures forall i :: 0 <= i < |products| ==> ids[i] == products[i].id
  {
    seq(|products|, i requires 0 <= i < |products| => products[i].id)
  }

  /** GetByIdAsync on customers. */
  function FindCustomer(customers: seq<Customer>, id: Guid): (r: Option<Customer>)
    ensures r.None? <==> forall c <- customers :: c.id != id
    ensures r.Some? ==> r.value in customers && r.value.id == id
  {
    if customers == [] then None
    else if customers[0].id == id then Some(customers[0])
    else FindCustomer(customers[1..], id)
  }

  /** GetByIdAsync on products: the first row with that id. */
  function FindProduct(products: seq<ProductRecord>, id: Guid): (r: Option<ProductRecord>)
    ensures r.None? <==> id !in ProductIds(products)
    ensures r.Some? ==> r.value in products && r.value.id == id
  {
    var ids := ProductIds(products);
    if id in ids then Some(products[IndexOf(ids, id)]) else None
  }

  /** GetByEmailAsync: a customer whose email equals the argument exactly, or none. */
  function GetByEmail(customers: seq<Customer>, email: string): (r: Option<Customer>)
    ensures r.None? <==> forall c <- customers :: c.email != email
    ensures r.Some? ==> r.value in customers && r.value.email == email
  {
    if customers == [] then None
    else if customers[0].email == email then Some(customers[0])
    else GetByEmail(customers[1..], email)
  }

  /** GetByIdsAsync: the stored products whose id is among the given ids. */
  function GetByIds(products: seq<ProductRecord>, ids: seq<Guid>): (r: seq<ProductRecord>)
    ensures forall p :: p in r <==> p in products && p.id in ids
    ensures |r| <= |products|
    ensures ProductKeysUnique(products) ==> ProductKeysUnique(r)
  {
    if products == [] then []
    else
      var rest := GetByIds(products[1..], ids);
      if products[0].id in ids then
        assert forall p <- rest :: p in products[1..];
        assert ProductKeysUnique(products) ==> forall p <- rest :: p.id != products[0].id;
        [products[0]] + rest
      else rest
  }

  /** Asking for every stored id selects the whole table, in order. */
  lemma {:induction false} GetByIdsAll(products: seq<ProductRecord>, ids: seq<Guid>)
    requires forall p <- products :: p.id in ids
    ensures GetByIds(products, ids) == products
    decreases |products|
  {
    if products != [] {
      assert forall p <- products[1..] :: p in products;
      GetByIdsAll(products[1..], ids);
      assert products == [products[0]] + products[1..];
    }
  }

  /** HasSufficientStockAsync: false for an unknown product, otherwise whether its stock
      covers the quantity. */
  function HasSufficientStock(products: seq<ProductRecord>, productId: Guid, quantity: int): (r: bool)
    ensures (forall p <- products :: p.id != productId) ==> !r
    ensures r ==> exists p <- products :: p.id == productId && p.stockQuantity >= quantity
    ensures ProductKeysUnique(products) && (exists p <- products :: p.id == productId && p.stockQuantity >= quantity) ==> r
  {
    var p := FindProduct(products, productId);
    p.Some? && p.value.stockQuantity >= quantity
  }

  /** GetWithItemsAsync: the order with the given id, or none. */
  function GetWithItems(orders: seq<OrderRecord>, id: Guid): (r: Option<OrderRecord>)
    ensures r.None? <==> forall o <- orders :: o.id != id
    ensures r.Some? ==> r.value in orders && r.value.id == id
  {
    if orders == [] then None
    else if orders[0].id == id then Some(orders[0])
    else GetWithItems(orders[1..], id)
  }

  /** The orders of one customer (the Where clause). */
  function OrdersOf(orders: seq<OrderRecord>, customerId: Guid): (r: seq<OrderRecord>)
    ensures forall o :: multiset(r)[o] == if o.customerId == customerId then multiset(orders)[o] else 0
  {
    if orders == [] then []
    else
      assert orders == [orders[0]] + orders[1..];
      (if orders[0].customerId == customerId then [orders[0]] else []) + OrdersOf(orders[1..], customerId)
  }

  predicate NewestFirst(orders: seq<OrderRecord>)
  {
    forall i, j :: 0 <= i < j < |orders| ==> orders[i].createdAt >= orders[j].createdAt
  }

  /** Places o in front of the first order that is not newer than it. */
  function InsertNewestFirst(o: OrderRecord, sorted: seq<OrderRecord>): (r: seq<OrderRecord>)
    ensures multiset(r) == multiset(sorted) + multiset{o}
  {
    if sorted == [] || sorted[0].createdAt <= o.createdAt then [o] + sorted
    else
      assert sorted == [sorted[0]] + sorted[1..];
      [sorted[0]] + InsertNewestFirst(o, sorted[1..])
  }

  /** Inserting into a newest-first list keeps it newest first. */
  lemma {:induction false} InsertKeepsNewestFirst(o: OrderRecord, sorted: seq<OrderRecord>)
    requires NewestFirst(sorted)
    ensures NewestFirst(InsertNewestFirst(o, sorted))
    decreases |sorted|
  {
    if !(sorted == [] || sorted[0].createdAt <= o.createdAt) {
      var rest := InsertNewestFirst(o, sorted[1..]);
      InsertKeepsNewestFirst(o, sorted[1..]);
      var r := [sorted[0]] + rest;
      forall i, j | 0 <= i < j < |r|
        ensures r[i].createdAt >= r[j].createdAt
      {
        if i == 0 {
          var x := r[j];
          assert x in multiset(rest);
          assert x == o || x in multiset(sorted[1..]);
          if x != o {
            var k :| 0 <= k < |sorted[1..]| && sorted[1..][k] == x;
            assert sorted[k + 1] == x;
          }
        } else {
          assert r[i] == rest[i - 1] && r[j] == rest[j - 1];
        }
      }
    }
  }

  /** OrderByDescending(CreatedAt): the same orders, newest first. */
  function SortNewestFirst(orders: seq<OrderRecord>): (r: seq<OrderRecord>)
    ensures NewestFirst(r)
    ensures multiset(r) == multiset(orders)
  {
    if orders == [] then []
    else
      assert orders == [orders[0]] + orders[1..];
      var sorted := SortNewestFirst(orders[1..]);
      InsertKeepsNewestFirst(orders[0], sorted);
      InsertNewestFirst(orders[0], sorted)
  }

  /** GetByCustomerIdAsync: exactly that customer's orders, newest first. */
  function GetByCustomerId(orders: seq<OrderRecord>, customerId: Guid): (r: seq<OrderRecord>)
    ensures forall o :: multiset(r)[o] == if o.customerId == customerId then multiset(orders)[o] else 0
    ensures NewestFirst(r)
  {
    SortNewestFirst(OrdersOf(orders, customerId))
  }
}
