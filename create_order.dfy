/** Placing an order (src/OnlineStore.Application/Commands/CreateOrderCommand.cs): inside a database
    transaction, check the customer and the products, reserve stock line by line, add the order,
    save and commit; on any failure roll back and report the failure. */
module CreateOrderHandler {
  import opened Basics
  import opened Enums
  import opened DomainExceptions
  import opened OrderItems
  import opened Products
  import opened Orders
  import opened Persistence
  import opened Repositories
  import opened UnitOfWorks
  import opened Dtos

  datatype CreateOrderCommand = CreateOrderCommand(customerId: Guid, items: seq<OrderItemRequest>)

  /** Which steps after the loop throw: the handler's SaveChanges, the save inside
      CommitTransaction, the commit of the database transaction, and the read of the stored
      order after the commit. */
  datatype Faults = Faults(save: bool, commitSave: bool, commit: bool, reload: bool)

  /** The product id of every line, in order. */
  function LineIds(lines: seq<OrderItemRequest>): (ids: seq<Guid>)
    ensures |ids| == |lines|
    ensures forall i :: 0 <= i < |lines| ==> ids[i] == lines[i].productId
  {
    seq(|lines|, i requires 0 <= i < |lines| => lines[i].productId)
  }

  /** The total quantity the first n lines request of product `id`. */
  function Requested(lines: seq<OrderItemRequest>, n: nat, id: Guid): int
    requires n <= |lines|
  {
    if n == 0 then 0
    else Requested(lines, n - 1, id) + (if lines[n - 1].productId == id then lines[n - 1].quantity else 0)
  }

  /** The total quantity all the lines request of product `id`. */
  function QtyFor(lines: seq<OrderItemRequest>, id: Guid): int
  {
    Requested(lines, |lines|, id)
  }

  /** Line k passes the stock check: its product's stock, less what the earlier lines took of it,
      covers its quantity. */
  predicate Serves(rows: seq<ProductRecord>, lines: seq<OrderItemRequest>, k: nat)
    requires k < |lines|
  {
    var p := FindProduct(rows, lines[k].productId);
    p.Some? && p.value.stockQuantity - Requested(lines, k, lines[k].productId) >= lines[k].quantity
  }

  /** The first line, from `from` on, that fails the stock check. */
  function FirstShortfall(rows: seq<ProductRecord>, lines: seq<OrderItemRequest>, from: nat): (r: Option<nat>)
    requires from <= |lines|
    ensures r.None? <==> forall k :: from <= k < |lines| ==> Serves(rows, lines, k)
    ensures r.Some? ==> from <= r.value < |lines| && !Serves(rows, lines, r.value)
    ensures r.Some? ==> forall k :: from <= k < r.value ==> Serves(rows, lines, k)
    decreases |lines| - from
  {
    if from == |lines| then None
    else if !Serves(rows, lines, from) then Some(from)
    else FirstShortfall(rows, lines, from + 1)
  }

  /** Every line names one of the rows. */
  predicate Resolved(rows: seq<ProductRecord>, lines: seq<OrderItemRequest>)
  {
    forall i :: 0 <= i < |lines| ==> lines[i].productId in ProductIds(rows)
  }

  /** The order item for a line, priced at its product's current price. */
  function ItemFor(rows: seq<ProductRecord>, line: OrderItemRequest, orderId: Guid): OrderItem
    requires line.productId in ProductIds(rows)
  {
    OrderItem(orderId, line.productId, line.quantity, FindProduct(rows, line.productId).value.price)
  }

  /** The order's items for the first n lines: one per line, in line order. */
  function BuildItems(rows: seq<ProductRecord>, lines: seq<OrderItemRequest>, n: nat, orderId: Guid): (items: seq<OrderItem>)
    requires Resolved(rows, lines) && n <= |lines|
    ensures |items| == n
    ensures forall i :: 0 <= i < n ==> items[i] == ItemFor(rows, lines[i], orderId)
  {
    seq(n, i requires 0 <= i < n => ItemFor(rows, lines[i], orderId))
  }

  /** A product table after the lines have taken their quantities from it. */
  function Drawn(rows: seq<ProductRecord>, lines: seq<OrderItemRequest>): (r: seq<ProductRecord>)
    ensures |r| == |rows|
    ensures forall i :: 0 <= i < |rows| ==> r[i] == rows[i].(stockQuantity := rows[i].stockQuantity - QtyFor(lines, rows[i].id))
  {
    seq(|rows|, i requires 0 <= i < |rows| => rows[i].(stockQuantity := rows[i].stockQuantity - QtyFor(lines, rows[i].id)))
  }

  /** The error for a line that fails the stock check: the product's name, the stock left for
      it after the earlier lines, and the line's quantity. */
  function Shortfall(rows: seq<ProductRecord>, lines: seq<OrderItemRequest>, k: nat): Error
    requires k < |lines| && lines[k].productId in ProductIds(rows)
  {
    var p := FindProduct(rows, lines[k].productId).value;
    InsufficientStock(p.name, p.stockQuantity - Requested(lines, k, p.id), lines[k].quantity)
  }

  /** What a successful placement writes: the new product table and the new order row. */
  datatype Placement = Placement(products: seq<ProductRecord>, order: OrderRecord)

  /** The outcome the handler's steps lead to, before persistence: the first check that fails
      decides the error; otherwise the placement. */
  function PlaceOrder(db: Store, customerId: Guid, lines: seq<OrderItemRequest>, orderId: Guid, now: int)
    : (r: Result<Placement, Error>)
    ensures FindCustomer(db.customers, customerId).None? ==> r == Failure(NotFound(CustomerEntity, [customerId]))
    ensures r.Failure? ==> r.error.NotFound? || r.error.InsufficientStock?
    ensures r.Success? ==>
      && r.value.order.id == orderId && r.value.order.customerId == customerId
      && r.value.order.createdAt == now && r.value.order.status == Pending
      && r.value.order.totalAmount == SumSubtotals(r.value.order.items)
      && |r.value.products| == |db.products|
    ensures r.Success? ==> |r.value.order.items| == |lines|
    ensures r.Success? ==>
      forall i :: 0 <= i < |lines| ==>
        && r.value.order.items[i].orderId == orderId
        && r.value.order.items[i].productId == lines[i].productId
        && r.value.order.items[i].quantity == lines[i].quantity
  {
    if FindCustomer(db.customers, customerId).None? then Failure(NotFound(CustomerEntity, [customerId]))
    else
      var productIds := Distinct(LineIds(lines));
      var found := GetByIds(db.products, productIds);
      var missing := Except(productIds, ProductIds(found));
      if missing != [] then Failure(NotFound(ProductEntity, missing))
      else
        assert Resolved(found, lines) by {
          forall i | 0 <= i < |lines|
            ensures lines[i].productId in ProductIds(found)
          {
            assert LineIds(lines)[i] == lines[i].productId;
          }
        }
        match FirstShortfall(found, lines, 0)
        case Some(k) => Failure(Shortfall(found, lines, k))
        case None =>
          var items := BuildItems(found, lines, |lines|, orderId);
          Success(Placement(Drawn(db.products, lines), OrderRecord(orderId, customerId, SumSubtotals(items), now, Pending, items)))
  }

  /** The store after a placement is written. */
  function Placed(db: Store, p: Placement): Store
  {
    Store(db.customers, p.products, db.orders + [p.order])
  }

  /** An order whose lines name every stored product, and only stored products, selects the
      whole product table, so placement is decided by the stock check over the table itself. */
  lemma PlaceOrderOnWholeTable(db: Store, customerId: Guid, lines: seq<OrderItemRequest>, orderId: Guid, now: int)
    requires FindCustomer(db.customers, customerId).Some?
    requires forall r <- db.products :: r.id in LineIds(lines)
    requires Resolved(db.products, lines)
    ensures PlaceOrder(db, customerId, lines, orderId, now) ==
      match FirstShortfall(db.products, lines, 0)
      case Some(k) => Failure(Shortfall(db.products, lines, k))
      case None =>
        var items := BuildItems(db.products, lines, |lines|, orderId);
        Success(Placement(Drawn(db.products, lines), OrderRecord(orderId, customerId, SumSubtotals(items), now, Pending, items)))
  {
    var ids := Distinct(LineIds(lines));
    GetByIdsAll(db.products, ids);
    forall x | x in ids
      ensures x in ProductIds(db.products)
    {
      var i :| 0 <= i < |lines| && LineIds(lines)[i] == x;
      assert lines[i].productId == x;
    }
    var missing := Except(ids, ProductIds(db.products));
    assert missing == [];
    assert GetByIds(db.products, ids) == db.products;
  }

  /** A product none of the first n lines names is asked for nothing by them. */
  lemma {:induction false} RequestedAbsent(lines: seq<OrderItemRequest>, n: nat, id: Guid)
    requires n <= |lines|
    requires forall i :: 0 <= i < n ==> lines[i].productId != id
    ensures Requested(lines, n, id) == 0
  {
    if n > 0 {
      RequestedAbsent(lines, n - 1, id);
    }
  }

  /** With no negative quantity, more lines ask for at least as much. */
  lemma {:induction false} RequestedGrows(lines: seq<OrderItemRequest>, n: nat, m: nat, id: Guid)
    requires n <= m <= |lines|
    requires forall i :: 0 <= i < |lines| ==> lines[i].quantity >= 0
    ensures Requested(lines, n, id) <= Requested(lines, m, id)
    decreases m - n
  {
    if n < m {
      RequestedGrows(lines, n, m - 1, id);
    }
  }

  /** Drawing stock keeps the catalogue: every row keeps its key, name and price; a product no
      line names keeps its stock; and with no negative quantity no stock rises. */
  lemma DrawnKeepsCatalogue(rows: seq<ProductRecord>, lines: seq<OrderItemRequest>)
    ensures ProductIds(Drawn(rows, lines)) == ProductIds(rows)
    ensures forall i :: 0 <= i < |rows| ==>
      Drawn(rows, lines)[i].name == rows[i].name && Drawn(rows, lines)[i].price == rows[i].price
    ensures forall i :: 0 <= i < |rows| && rows[i].id !in LineIds(lines) ==> Drawn(rows, lines)[i] == rows[i]
    ensures (forall k :: 0 <= k < |lines| ==> lines[k].quantity >= 0) ==>
      forall i :: 0 <= i < |rows| ==> Drawn(rows, lines)[i].stockQuantity <= rows[i].stockQuantity
  {
    var after := Drawn(rows, lines);
    forall i | 0 <= i < |rows| && rows[i].id !in LineIds(lines)
      ensures after[i] == rows[i]
    {
      forall k | 0 <= k < |lines|
        ensures lines[k].productId != rows[i].id
      {
        assert LineIds(lines)[k] == lines[k].productId;
      }
      RequestedAbsent(lines, |lines|, rows[i].id);
    }
    if forall k :: 0 <= k < |lines| ==> lines[k].quantity >= 0 {
      forall i | 0 <= i < |rows|
        ensures after[i].stockQuantity <= rows[i].stockQuantity
      {
        RequestedGrows(lines, 0, |lines|, rows[i].id);
      }
    }
  }

  /** When the first n lines pass the check, a product they name has stock for all they ask of
      it, whatever the signs of the quantities. */
  lemma {:induction false} ServedTotalsFit(rows: seq<ProductRecord>, lines: seq<OrderItemRequest>, n: nat, id: Guid)
    requires n <= |lines|
    requires forall k :: 0 <= k < n ==> Serves(rows, lines, k)
    ensures (exists k :: 0 <= k < n && lines[k].productId == id) ==> HasSufficientStock(rows, id, Requested(lines, n, id))
  {
    if n > 0 {
      ServedTotalsFit(rows, lines, n - 1, id);
      if lines[n - 1].productId == id {
        assert Serves(rows, lines, n - 1);
      } else if exists k :: 0 <= k < n && lines[k].productId == id {
        var k :| 0 <= k < n && lines[k].productId == id;
        assert k < n - 1;
      }
    }
  }

  /** The line-by-line check that the handler runs passes exactly when, for every product, the
      stock covers the total of all lines naming it. Repeated lines of one product are thus
      checked against their sum, not each against the full stock. Quantities must be positive,
      as the order validator demands: for the "only if" direction none is needed. */
  lemma StockCheckMatchesTotals(rows: seq<ProductRecord>, lines: seq<OrderItemRequest>)
    requires forall i :: 0 <= i < |lines| ==> lines[i].quantity > 0
    ensures FirstShortfall(rows, lines, 0).None? <==>
              forall i :: 0 <= i < |lines| ==> HasSufficientStock(rows, lines[i].productId, QtyFor(lines, lines[i].productId))
  {
    if FirstShortfall(rows, lines, 0).None? {
      forall i | 0 <= i < |lines|
        ensures HasSufficientStock(rows, lines[i].productId, QtyFor(lines, lines[i].productId))
      {
        ServedTotalsFit(rows, lines, |lines|, lines[i].productId);
      }
    } else {
      var k := FirstShortfall(rows, lines, 0).value;
      var id := lines[k].productId;
      if HasSufficientStock(rows, id, QtyFor(lines, id)) {
        RequestedGrows(lines, k + 1, |lines|, id);
        assert false;
      }
    }
  }

  /** Taking the stored rows that match some ids and then looking one of those ids up gives the
      row a direct look-up finds. */
  lemma FindProductInSelection(rows: seq<ProductRecord>, ids: seq<Guid>, id: Guid)
    requires ProductKeysUnique(rows)
    requires id in ids
    ensures FindProduct(GetByIds(rows, ids), id) == FindProduct(rows, id)
  {
    var f := GetByIds(rows, ids);
    var direct := FindProduct(rows, id);
    if direct.Some? {
      assert direct.value in f;
      var a :| 0 <= a < |f| && f[a] == direct.value;
      assert ProductIds(f)[a] == id;
      var r := FindProduct(f, id).value;
      var i :| 0 <= i < |rows| && rows[i] == r;
      var j :| 0 <= j < |rows| && rows[j] == direct.value;
      assert i == j;
    }
  }

  /** Placing an order succeeds exactly when the customer exists and every product's stock
      covers the total the lines ask of it (an unknown product has no stock). */
  lemma {:induction false} PlaceOrderSucceedsIff(db: Store, customerId: Guid, lines: seq<OrderItemRequest>, orderId: Guid, now: int)
    requires ProductKeysUnique(db.products)
    requires forall i :: 0 <= i < |lines| ==> lines[i].quantity > 0
    ensures PlaceOrder(db, customerId, lines, orderId, now).Success? <==>
              FindCustomer(db.customers, customerId).Some? &&
              forall i :: 0 <= i < |lines| ==> HasSufficientStock(db.products, lines[i].productId, QtyFor(lines, lines[i].productId))
  {
    if FindCustomer(db.customers, customerId).Some? {
      var productIds := Distinct(LineIds(lines));
      var found := GetByIds(db.products, productIds);
      var missing := Except(productIds, ProductIds(found));
      forall i | 0 <= i < |lines|
        ensures FindProduct(found, lines[i].productId) == FindProduct(db.products, lines[i].productId)
      {
        assert LineIds(lines)[i] == lines[i].productId;
        FindProductInSelection(db.products, productIds, lines[i].productId);
      }
      if missing != [] {
        var x := missing[0];
        assert x in LineIds(lines);
        var i :| 0 <= i < |lines| && LineIds(lines)[i] == x;
        assert !HasSufficientStock(db.products, lines[i].productId, QtyFor(lines, lines[i].productId));
      } else {
        StockCheckMatchesTotals(found, lines);
      }
    }
  }

  /** For a known customer, the missing-product failure names exactly the requested ids that no
      stored product has, each once, and happens exactly when there is such an id. */
  lemma {:induction false} MissingProductsNamed(db: Store, customerId: Guid, lines: seq<OrderItemRequest>, orderId: Guid, now: int)
    requires FindCustomer(db.customers, customerId).Some?
    ensures var r := PlaceOrder(db, customerId, lines, orderId, now);
      (r.Failure? && r.error.NotFound?) <==> exists x :: x in LineIds(lines) && x !in ProductIds(db.products)
    ensures var r := PlaceOrder(db, customerId, lines, orderId, now);
      r.Failure? && r.error.NotFound? ==>
        && r.error.entity == ProductEntity
        && (forall x :: x in r.error.keys <==> x in LineIds(lines) && x !in ProductIds(db.products))
        && (forall i, j :: 0 <= i < j < |r.error.keys| ==> r.error.keys[i] != r.error.keys[j])
  {
    var productIds := Distinct(LineIds(lines));
    var found := GetByIds(db.products, productIds);
    var missing := Except(productIds, ProductIds(found));
    forall x
      ensures x in missing <==> x in LineIds(lines) && x !in ProductIds(db.products)
    {
      if x in ProductIds(found) {
        var k :| 0 <= k < |found| && ProductIds(found)[k] == x;
        assert found[k] in db.products;
      }
      if x in productIds && x in ProductIds(db.products) {
        var k :| 0 <= k < |db.products| && ProductIds(db.products)[k] == x;
        assert db.products[k] in found;
      }
    }
    if missing == [] {
      LinesResolved(db.products, lines);
    }
  }

  /** Rows that agree on every line's look-up agree on which line first fails the stock check. */
  lemma FirstShortfallSame(rows: seq<ProductRecord>, other: seq<ProductRecord>, lines: seq<OrderItemRequest>)
    requires forall k :: 0 <= k < |lines| ==> FindProduct(rows, lines[k].productId) == FindProduct(other, lines[k].productId)
    ensures FirstShortfall(rows, lines, 0) == FirstShortfall(other, lines, 0)
  {
    assert forall k :: 0 <= k < |lines| ==> (Serves(rows, lines, k) <==> Serves(other, lines, k));
  }

  /** When every line names a stored product, the missing-product check finds nothing. */
  lemma NoneMissing(rows: seq<ProductRecord>, lines: seq<OrderItemRequest>)
    requires Resolved(rows, lines)
    ensures Except(Distinct(LineIds(lines)), ProductIds(GetByIds(rows, Distinct(LineIds(lines))))) == []
  {
    var productIds := Distinct(LineIds(lines));
    var found := GetByIds(rows, productIds);
    forall x | x in productIds
      ensures x in ProductIds(found)
    {
      var i :| 0 <= i < |lines| && LineIds(lines)[i] == x;
      assert x in ProductIds(rows);
      var k :| 0 <= k < |rows| && ProductIds(rows)[k] == x;
      assert rows[k] in found;
      var m :| 0 <= m < |found| && found[m] == rows[k];
      assert ProductIds(found)[m] == x;
    }
  }

  /** Rows that agree on a line's look-up report the same shortfall for it. */
  lemma ShortfallSame(rows: seq<ProductRecord>, other: seq<ProductRecord>, lines: seq<OrderItemRequest>, k: nat)
    requires k < |lines| && lines[k].productId in ProductIds(rows) && lines[k].productId in ProductIds(other)
    requires FindProduct(rows, lines[k].productId) == FindProduct(other, lines[k].productId)
    ensures Shortfall(rows, lines, k) == Shortfall(other, lines, k)
  {
  }

  /** For a known customer and products that are all stored, placement fails exactly when a line
      fails the stock check against the stored rows, and the error is the first such line's:
      its product's name, the stock the earlier lines left and the line's quantity. */
  lemma {:induction false} ShortfallReported(db: Store, customerId: Guid, lines: seq<OrderItemRequest>, orderId: Guid, now: int)
    requires ProductKeysUnique(db.products)
    requires FindCustomer(db.customers, customerId).Some?
    requires Resolved(db.products, lines)
    ensures PlaceOrder(db, customerId, lines, orderId, now).Failure? <==> FirstShortfall(db.products, lines, 0).Some?
    ensures FirstShortfall(db.products, lines, 0).Some? ==>
      PlaceOrder(db, customerId, lines, orderId, now)
        == Failure(Shortfall(db.products, lines, FirstShortfall(db.products, lines, 0).value))
  {
    var productIds := Distinct(LineIds(lines));
    var found := GetByIds(db.products, productIds);
    forall i | 0 <= i < |lines|
      ensures FindProduct(found, lines[i].productId) == FindProduct(db.products, lines[i].productId)
    {
      assert LineIds(lines)[i] == lines[i].productId;
      FindProductInSelection(db.products, productIds, lines[i].productId);
    }
    FirstShortfallSame(found, db.products, lines);
    NoneMissing(db.products, lines);
    var first := FirstShortfall(db.products, lines, 0);
    if first.Some? {
      var k := first.value;
      assert lines[k].productId in ProductIds(found) by {
        assert LineIds(lines)[k] == lines[k].productId;
      }
      assert FindProduct(found, lines[k].productId) == FindProduct(db.products, lines[k].productId);
      ShortfallSame(found, db.products, lines, k);
    }
  }

  /** Drawing from the rows leaves their ids as they were, so look-ups find the drawn row. */
  lemma FindProductDrawn(rows: seq<ProductRecord>, lines: seq<OrderItemRequest>, id: Guid)
    ensures FindProduct(Drawn(rows, lines), id) ==
              match FindProduct(rows, id)
              case Some(p) => Some(p.(stockQuantity := p.stockQuantity - QtyFor(lines, p.id)))
              case None => None
  {
    assert ProductIds(Drawn(rows, lines)) == ProductIds(rows);
  }

  /** Writing the loaded products back, after the lines drew from them, over the whole table is
      the same as drawing from the whole table: rows the order does not name are untouched. */
  lemma {:induction false} OverlayDrawn(rows: seq<ProductRecord>, ids: seq<Guid>, lines: seq<OrderItemRequest>)
    requires ProductKeysUnique(rows)
    requires forall i :: 0 <= i < |lines| ==> lines[i].productId in ids
    ensures Overlay(rows, Drawn(GetByIds(rows, ids), lines)) == Drawn(rows, lines)
  {
    var f := GetByIds(rows, ids);
    forall i | 0 <= i < |rows|
      ensures Refresh(rows[i], Drawn(f, lines)) == Drawn(rows, lines)[i]
    {
      var r := rows[i];
      FindProductDrawn(f, lines, r.id);
      if r.id in ids {
        FindProductInSelection(rows, ids, r.id);
        assert ProductIds(rows)[i] == r.id;
        var k := IndexOf(ProductIds(rows), r.id);
        assert rows[k].id == r.id;
      } else {
        if FindProduct(f, r.id).Some? {
          assert FindProduct(f, r.id).value in f;
        }
        RequestedAbsent(lines, |lines|, r.id);
      }
    }
  }

  /** A placement never drives a stock below zero, even for lines with negative quantities
      (those raise the stock instead). */
  lemma {:induction false} PlacementKeepsStockNonNegative(db: Store, customerId: Guid, lines: seq<OrderItemRequest>, orderId: Guid, now: int)
    requires ProductKeysUnique(db.products) && StockNonNegative(db.products)
    requires PlaceOrder(db, customerId, lines, orderId, now).Success?
    ensures StockNonNegative(PlaceOrder(db, customerId, lines, orderId, now).value.products)
  {
    var productIds := Distinct(LineIds(lines));
    var found := GetByIds(db.products, productIds);
    assert FirstShortfall(found, lines, 0).None?;
    forall j | 0 <= j < |db.products|
      ensures db.products[j].stockQuantity - QtyFor(lines, db.products[j].id) >= 0
    {
      var id := db.products[j].id;
      ServedTotalsFit(found, lines, |lines|, id);
      if exists k :: 0 <= k < |lines| && lines[k].productId == id {
        var k :| 0 <= k < |lines| && lines[k].productId == id;
        assert LineIds(lines)[k] == id;
        FindProductInSelection(db.products, productIds, id);
        assert ProductIds(db.products)[j] == id;
        var m := IndexOf(ProductIds(db.products), id);
        assert db.products[m].id == id;
      } else {
        RequestedAbsent(lines, |lines|, id);
      }
    }
  }

  /** What a successful placement writes to the product table: every stock reduced by exactly
      what the lines asked of that product, and nothing else changed. */
  lemma PlacementDrawsStock(db: Store, customerId: Guid, lines: seq<OrderItemRequest>, orderId: Guid, now: int)
    requires PlaceOrder(db, customerId, lines, orderId, now).Success?
    ensures var p := PlaceOrder(db, customerId, lines, orderId, now).value;
      && |p.products| == |db.products|
      && (forall j :: 0 <= j < |db.products| ==>
            p.products[j] == db.products[j].(stockQuantity := db.products[j].stockQuantity - QtyFor(lines, db.products[j].id)))
  {
    assert PlaceOrder(db, customerId, lines, orderId, now).value.products == Drawn(db.products, lines);
  }

  /** What a successful placement holds: a Pending order of the customer, one item per line
      carrying the line's product and quantity and the product's stored price, and a total equal
      to the sum of the items' subtotals. */
  lemma {:induction false} PlacementContents(db: Store, customerId: Guid, lines: seq<OrderItemRequest>, orderId: Guid, now: int)
    requires ProductKeysUnique(db.products)
    requires PlaceOrder(db, customerId, lines, orderId, now).Success?
    ensures var p := PlaceOrder(db, customerId, lines, orderId, now).value;
      && p.order == OrderRecord(orderId, customerId, SumSubtotals(p.order.items), now, Pending, p.order.items)
      && |p.order.items| == |lines|
      && (forall i :: 0 <= i < |lines| ==>
            && FindProduct(db.products, lines[i].productId).Some?
            && p.order.items[i] == OrderItem(orderId, lines[i].productId, lines[i].quantity,
                                             FindProduct(db.products, lines[i].productId).value.price))
      && FindCustomer(db.customers, customerId).Some?
  {
    var productIds := Distinct(LineIds(lines));
    forall i | 0 <= i < |lines|
      ensures FindProduct(GetByIds(db.products, productIds), lines[i].productId) == FindProduct(db.products, lines[i].productId)
    {
      assert LineIds(lines)[i] == lines[i].productId;
      FindProductInSelection(db.products, productIds, lines[i].productId);
    }
  }

  /** The first line that fails the check, once the lines before it are known to pass. */
  lemma FirstShortfallAt(rows: seq<ProductRecord>, lines: seq<OrderItemRequest>, i: nat)
    requires i < |lines|
    requires forall k :: 0 <= k < i ==> Serves(rows, lines, k)
    requires !Serves(rows, lines, i)
    ensures FirstShortfall(rows, lines, 0) == Some(i)
  {
  }

  /** With unique keys, looking up a row's id finds that row. */
  lemma FindProductAt(rows: seq<ProductRecord>, m: nat)
    requires ProductKeysUnique(rows) && m < |rows|
    ensures FindProduct(rows, rows[m].id) == Some(rows[m])
  {
    assert ProductIds(rows)[m] == rows[m].id;
  }

  /** One more line adds one more item: the line's product and quantity at the row's price. */
  lemma BuildItemsStep(rows: seq<ProductRecord>, lines: seq<OrderItemRequest>, i: nat, m: nat, orderId: Guid)
    requires Resolved(rows, lines) && i < |lines| && ProductKeysUnique(rows)
    requires m < |rows| && rows[m].id == lines[i].productId
    ensures BuildItems(rows, lines, i + 1, orderId)
            == BuildItems(rows, lines, i, orderId) + [OrderItem(orderId, rows[m].id, lines[i].quantity, rows[m].price)]
  {
    FindProductAt(rows, m);
  }

  /** The stock each row has left once the first n lines have taken their quantities. */
  function StocksAfter(rows: seq<ProductRecord>, lines: seq<OrderItemRequest>, n: nat): (r: seq<int>)
    requires n <= |lines|
    ensures |r| == |rows|
    ensures forall j :: 0 <= j < |rows| ==> r[j] == rows[j].stockQuantity - Requested(lines, n, rows[j].id)
  {
    seq(|rows|, j requires 0 <= j < |rows| => rows[j].stockQuantity - Requested(lines, n, rows[j].id))
  }

  /** One more line lowers the stock of its own product, and of no other. */
  lemma StocksAfterStep(rows: seq<ProductRecord>, lines: seq<OrderItemRequest>, i: nat, m: nat)
    requires ProductKeysUnique(rows) && i < |lines| && m < |rows| && rows[m].id == lines[i].productId
    ensures StocksAfter(rows, lines, i + 1)
            == StocksAfter(rows, lines, i)[m := StocksAfter(rows, lines, i)[m] - lines[i].quantity]
  {
    var before := StocksAfter(rows, lines, i);
    var after := StocksAfter(rows, lines, i + 1);
    forall j | 0 <= j < |rows|
      ensures after[j] == before[m := before[m] - lines[i].quantity][j]
    {
      if j != m {
        assert rows[j].id != rows[m].id;
      }
    }
  }

  /** The state of Handle's loop after the first i lines: every loaded entity holds its stored
      row less what those lines took of it, those lines all passed the stock check, and the order
      holds their items and the matching total. */
  ghost predicate Reserved(order: Order, products: seq<Product>, found: seq<ProductRecord>, lines: seq<OrderItemRequest>, i: nat)
    reads order, products
  {
    && i <= |lines| && |products| == |found| && Resolved(found, lines)
    && (forall j :: 0 <= j < |products| ==>
          && products[j].id == found[j].id && products[j].name == found[j].name
          && products[j].price == found[j].price
          && products[j].stockQuantity == StocksAfter(found, lines, i)[j])
    && (forall k :: 0 <= k < i ==> Serves(found, lines, k))
    && order.items == BuildItems(found, lines, i, order.id) && order.TotalMatchesItems()
  }

  /** The head of one pass of the loop over the request lines: finds the line's product entity
      and checks its current stock, changing nothing. */
  method CheckLine(order: Order, products: seq<Product>, ghost found: seq<ProductRecord>, lines: seq<OrderItemRequest>, i: nat)
      returns (m: nat, shortfall: Option<Error>)
    requires Reserved(order, products, found, lines, i) && i < |lines| && ProductKeysUnique(found)
    ensures m < |found| && found[m].id == lines[i].productId
    ensures shortfall.None? <==> Serves(found, lines, i)
    ensures shortfall.Some? ==> shortfall.value == Shortfall(found, lines, i)
  {
    var line := lines[i];
    assert ProductIds(Records(products)) == ProductIds(found);
    m := IndexOf(ProductIds(Records(products)), line.productId);
    var product := products[m];
    FindProductAt(found, m);
    if !product.HasStock(line.quantity) {
      return m, Some(InsufficientStock(product.name, product.stockQuantity, line.quantity));
    }
    shortfall := None;
  }

  /** The rest of the pass, once the check has passed: the stock reduction and the new order item. */
  method ReserveLine(order: Order, products: seq<Product>, ghost found: seq<ProductRecord>, lines: seq<OrderItemRequest>, i: nat, m: nat)
    requires Reserved(order, products, found, lines, i) && i < |lines| && ProductKeysUnique(found)
    requires forall j, k :: 0 <= j < k < |products| ==> products[j] != products[k]
    requires m < |found| && found[m].id == lines[i].productId && Serves(found, lines, i)
    modifies order`items, order`totalAmount, products
    ensures Reserved(order, products, found, lines, i + 1)
  {
    var line := lines[i];
    var product := products[m];
    FindProductAt(found, m);
    var item := OrderItem(EmptyGuid, product.id, line.quantity, product.price);
    BuildItemsStep(found, lines, i, m, order.id);
    StocksAfterStep(found, lines, i, m);
    ghost var stocks := StocksAfter(found, lines, i + 1);
    assert product.HasStock(line.quantity);
    var reduced := product.ReduceStock(line.quantity);
    assert product.stockQuantity == stocks[m];
    order.AddItem(item);
    assert forall j :: 0 <= j < |products| ==> products[j].stockQuantity == stocks[j];
  }

  /** Before the first line: the entities hold their stored rows and the order is empty. */
  lemma ReservedAtStart(order: Order, products: seq<Product>, found: seq<ProductRecord>, lines: seq<OrderItemRequest>)
    requires |products| == |found| && Resolved(found, lines)
    requires forall j :: 0 <= j < |products| ==> products[j].Record() == found[j]
    requires order.items == [] && order.TotalMatchesItems()
    ensures Reserved(order, products, found, lines, 0)
  {
  }

  /** After the last line: the entities hold the drawn rows. */
  lemma ReservedAtEnd(order: Order, products: seq<Product>, found: seq<ProductRecord>, lines: seq<OrderItemRequest>)
    requires Reserved(order, products, found, lines, |lines|)
    ensures FirstShortfall(found, lines, 0).None?
    ensures Records(products) == Drawn(found, lines)
    ensures order.items == BuildItems(found, lines, |lines|, order.id) && order.TotalMatchesItems()
  {
    assert Records(products) == Drawn(found, lines);
  }

  /** The lines before the i-th passed their stock check, so when the i-th fails it is the first
      shortfall, its error is the one reported, and the state is the one reached before it. */
  lemma ReservedStops(order: Order, products: seq<Product>, found: seq<ProductRecord>, lines: seq<OrderItemRequest>, i: nat,
                      shortfall: Option<Error>)
    requires Reserved(order, products, found, lines, i) && i < |lines| && !Serves(found, lines, i)
    requires shortfall == Some(Shortfall(found, lines, i))
    ensures shortfall.None? <==> FirstShortfall(found, lines, 0).None?
    ensures shortfall.Some? ==> shortfall.value == Shortfall(found, lines, FirstShortfall(found, lines, 0).value)
    ensures shortfall.Some? ==> Reserved(order, products, found, lines, FirstShortfall(found, lines, 0).value)
  {
    FirstShortfallAt(found, lines, i);
  }

  /** The loop of Handle over the request lines: checks each line against its product entity's
      current stock, takes the quantity from it and adds the item to the order, stopping at the
      first line the stock does not cover. */
  method AddLines(order: Order, products: seq<Product>, ghost found: seq<ProductRecord>, lines: seq<OrderItemRequest>)
      returns (shortfall: Option<Error>)
    requires |products| == |found| && ProductKeysUnique(found)
    requires forall j :: 0 <= j < |products| ==> products[j].Record() == found[j]
    requires forall j, k :: 0 <= j < k < |products| ==> products[j] != products[k]
    requires Resolved(found, lines)
    requires order.items == [] && order.TotalMatchesItems()
    modifies order`items, order`totalAmount, products
    ensures shortfall.None? <==> FirstShortfall(found, lines, 0).None?
    ensures shortfall.Some? ==> shortfall.value == Shortfall(found, lines, FirstShortfall(found, lines, 0).value)
    ensures shortfall.Some? ==> Reserved(order, products, found, lines, FirstShortfall(found, lines, 0).value)
    ensures shortfall.None? ==> && Records(products) == Drawn(found, lines)
                                && order.items == BuildItems(found, lines, |lines|, order.id)
                                && order.TotalMatchesItems()
  {
    ReservedAtStart(order, products, found, lines);
    var i := 0;
    while i < |lines|
      invariant 0 <= i <= |lines|
      invariant Reserved(order, products, found, lines, i)
    {
      var m;
      m, shortfall := CheckLine(order, products, found, lines, i);
      if shortfall.Some? {
        ReservedStops(order, products, found, lines, i, shortfall);
        return;
      }
      ReserveLine(order, products, found, lines, i, m);
      i := i + 1;
    }
    ReservedAtEnd(order, products, found, lines);
    shortfall := None;
  }

  /** Saving after the loop writes the drawn product table: the loaded entities are the selected
      rows less what the lines took. */
  lemma DrawnSnapshot(uow: UnitOfWork, ids: seq<Guid>, lines: seq<OrderItemRequest>)
    requires ProductKeysUnique(uow.pending.products)
    requires forall i :: 0 <= i < |lines| ==> lines[i].productId in ids
    requires Records(uow.tracked) == Drawn(GetByIds(uow.pending.products, ids), lines)
    ensures uow.Snapshot() == uow.pending.(products := Drawn(uow.pending.products, lines))
  {
    OverlayDrawn(uow.pending.products, ids, lines);
  }

  /** Handle's product load: the entities for the requested ids and the ids no stored product has. */
  method LoadProducts(uow: UnitOfWork, productIds: seq<Guid>)
      returns (products: seq<Product>, ghost found: seq<ProductRecord>, missing: seq<Guid>)
    requires uow.tracked == []
    modifies uow`tracked
    ensures found == GetByIds(uow.database.products, productIds)
    ensures |products| == |found|
    ensures forall j :: 0 <= j < |products| ==> products[j].Record() == found[j]
    ensures forall j :: 0 <= j < |products| ==> fresh(products[j])
    ensures forall j, k :: 0 <= j < k < |products| ==> products[j] != products[k]
    ensures uow.tracked == products
    ensures missing == Except(productIds, ProductIds(found))
  {
    products := uow.GetProductsByIds(productIds);
    found := GetByIds(uow.database.products, productIds);
    assert forall j :: 0 <= j < |products| ==> products[j].Record() == Records(products)[j];
    assert Records(products) == found;
    missing := Except(productIds, ProductIds(Records(products)));
  }

  /** Once no requested id is missing, every line names a selected row. */
  lemma LinesResolved(rows: seq<ProductRecord>, lines: seq<OrderItemRequest>)
    requires Except(Distinct(LineIds(lines)), ProductIds(GetByIds(rows, Distinct(LineIds(lines))))) == []
    ensures Resolved(GetByIds(rows, Distinct(LineIds(lines))), lines)
    ensures forall i :: 0 <= i < |lines| ==> lines[i].productId in Distinct(LineIds(lines))
  {
    forall i | 0 <= i < |lines|
      ensures lines[i].productId in Distinct(LineIds(lines))
    {
      assert LineIds(lines)[i] == lines[i].productId;
    }
  }

  /** The part of Handle inside the transaction that precedes the save: the customer lookup,
      the product load, the missing-product check and the loop over the lines. It fails exactly
      as PlaceOrder does; otherwise it yields the new order entity, whose row is the placed
      order, and the loaded entities hold the drawn product table. */
  method Reserve(uow: UnitOfWork, request: CreateOrderCommand, orderId: Guid, now: int)
      returns (r: Result<Order, Error>)
    requires uow.pending == uow.database && uow.tracked == []
    requires ProductKeysUnique(uow.database.products)
    modifies uow`tracked
    ensures match PlaceOrder(uow.database, request.customerId, request.items, orderId, now)
      case Failure(e) => r == Failure(e)
      case Success(placement) =>
        && r.Success? && fresh(r.value)
        && r.value.Record() == placement.order
        && uow.Snapshot() == uow.database.(products := placement.products)
  {
    var db := uow.database;
    var customer := FindCustomer(db.customers, request.customerId);
    if customer.None? {
      return Failure(NotFound(CustomerEntity, [request.customerId]));
    }

    var lines := request.items;
    var productIds := Distinct(LineIds(lines));
    var products, found, missing := LoadProducts(uow, productIds);
    if missing != [] {
      return Failure(NotFound(ProductEntity, missing));
    }
    LinesResolved(db.products, lines);

    var order := new Order(orderId, request.customerId, now);
    var shortfall := AddLines(order, products, found, lines);
    if shortfall.Some? {
      return Failure(shortfall.value);
    }
    assert uow.tracked == products;
    DrawnSnapshot(uow, productIds, lines);
    r := Success(order);
  }

  /** The transaction events of Handle's save and commit, by which step throws: some saves, then
      a commit when nothing throws and a rollback otherwise. */
  function Committing(faults: Faults): (events: seq<TxEvent>)
    ensures |events| >= 1 && forall i :: 0 <= i < |events| - 1 ==> events[i] == Saved
    ensures events[|events| - 1] == if faults.save || faults.commitSave || faults.commit then RolledBack else Committed
  {
    if faults.save then [RolledBack]
    else if faults.commitSave then [Saved, RolledBack]
    else if faults.commit then [Saved, Saved, RolledBack]
    else [Saved, Saved, Committed]
  }

  /** Handle's tail: stages the order row, saves, and commits the transaction; a failure of the
      save rolls back at once, a failure inside the commit has already rolled back. On success
      the database holds what the first save wrote, since saving again writes nothing new. */
  method Persist(uow: UnitOfWork, row: OrderRecord, faults: Faults) returns (ok: bool)
    requires uow.transaction == Some(uow.database) && uow.pending == uow.database
    modifies uow`database, uow`pending, uow`transaction, uow`events
    ensures uow.transaction.None?
    ensures ok == !(faults.save || faults.commitSave || faults.commit)
    ensures ok ==> uow.database == old(uow.Snapshot()).(orders := old(uow.database.orders) + [row])
    ensures !ok ==> uow.database == old(uow.database)
    ensures uow.events == old(uow.events) + Committing(faults)
  {
    OverlayIdempotent(uow.pending.products, Records(uow.tracked));
    uow.AddOrder(row);
    ok := uow.SaveChanges(faults.save);
    if !ok {
      uow.RollbackTransaction();
      return;
    }
    ok := uow.CommitTransaction(faults.commitSave, faults.commit);
    if !ok {
      uow.RollbackTransaction();
    }
  }

  /** CreateOrderCommandHandler.Handle on a fresh request context. The new order's id and the
      current time are parameters; `faults` says which steps after the loop throw. The outcome is
      the one PlaceOrder describes: on its failures, and on a failure of the save or the commit,
      the transaction is rolled back and the database is as before; otherwise the placement is
      committed. The stored order is then read back and returned; when that read throws, the
      caller gets the failure although the placement stays committed. */
  method Handle(uow: UnitOfWork, request: CreateOrderCommand, orderId: Guid, now: int, faults: Faults)
      returns (result: Result<OrderRecord, Error>)
    requires uow.Idle()
    requires ProductKeysUnique(uow.database.products)
    requires forall o <- uow.database.orders :: o.id != orderId
    modifies uow
    ensures uow.transaction.None?
    ensures match PlaceOrder(old(uow.database), request.customerId, request.items, orderId, now)
      case Failure(e) =>
        && result == Failure(e)
        && uow.database == old(uow.database)
        && uow.events == old(uow.events) + [Began] + [RolledBack]
      case Success(placement) =>
        && uow.events == old(uow.events) + [Began] + Committing(faults)
        && if faults.save || faults.commitSave || faults.commit then
             && result == Failure(PersistenceFailure)
             && uow.database == old(uow.database)
           else if faults.reload then
             && result == Failure(PersistenceFailure)
             && uow.database == Placed(old(uow.database), placement)
           else
             && result == Success(placement.order)
             && uow.database == Placed(old(uow.database), placement)
  {
    ghost var db := uow.database;
    uow.BeginTransaction();
    var reserved := Reserve(uow, request, orderId, now);
    if reserved.Failure? {
      uow.RollbackTransaction();
      return Failure(reserved.error);
    }
    var order := reserved.value;
    var persisted := Persist(uow, order.Record(), faults);
    if !persisted {
      return Failure(PersistenceFailure);
    }
    if faults.reload {
      // The catch block's rollback finds no transaction: the commit has already cleared it.
      uow.RollbackTransaction();
      return Failure(PersistenceFailure);
    }
    var stored := GetWithItems(uow.database.orders, orderId);
    assert order.Record() in uow.database.orders;
    result := Success(stored.value);
  }
}
