/** The create-order cases of tests/OnlineStore.Application.Tests/Commands/CreateOrderCommandTests.cs,
    stated on PlaceOrder over a one-customer, one-product store, with prices in cents. */
module CreateOrderScenarios {
  import opened Basics
  import opened Enums
  import opened DomainExceptions
  import opened OrderItems
  import opened Products
  import opened Orders
  import opened Customers
  import opened Persistence
  import opened Repositories
  import opened Dtos
  import opened CreateOrderHandler

  const CustomerKey: Guid := 1
  const ProductKey: Guid := 2
  const OrderKey: Guid := 3

  function Shop(stock: int): Store
  {
    Store([Customer(CustomerKey, "Test Customer", "test@example.com", "123")],
          [ProductRecord(ProductKey, "Test Product", 10000, stock)],
          [])
  }

  /** The one-product store meets the conditions of PlaceOrderOnWholeTable for lines that all
      name its product. */
  lemma ShopSelectsWholeTable(stock: int, lines: seq<OrderItemRequest>)
    requires lines != [] && forall i :: 0 <= i < |lines| ==> lines[i].productId == ProductKey
    ensures FindCustomer(Shop(stock).customers, CustomerKey).Some?
    ensures forall r <- Shop(stock).products :: r.id in LineIds(lines)
    ensures Resolved(Shop(stock).products, lines)
  {
    assert LineIds(lines)[0] == ProductKey;
    assert ProductIds(Shop(stock).products) == [ProductKey];
  }

  /** Two units of a product with ten in stock: the order is placed, one item at the product's
      price, a total of twice the price, and the stock drops to eight. */
  lemma ValidOrderReducesStock(now: int)
    ensures PlaceOrder(Shop(10), CustomerKey, [OrderItemRequest(ProductKey, 2)], OrderKey, now)
            == Success(Placement(
                 [ProductRecord(ProductKey, "Test Product", 10000, 8)],
                 OrderRecord(OrderKey, CustomerKey, 20000, now, Pending, [OrderItem(OrderKey, ProductKey, 2, 10000)])))
  {
    var lines := [OrderItemRequest(ProductKey, 2)];
    var rows := Shop(10).products;
    ShopSelectsWholeTable(10, lines);
    PlaceOrderOnWholeTable(Shop(10), CustomerKey, lines, OrderKey, now);
    assert Requested(lines, 0, ProductKey) == 0;
    assert Serves(rows, lines, 0);
    assert FirstShortfall(rows, lines, 0) == None;
    assert QtyFor(lines, ProductKey) == 2;
    assert Drawn(rows, lines) == [ProductRecord(ProductKey, "Test Product", 10000, 8)];
    var items := BuildItems(rows, lines, 1, OrderKey);
    assert items == [OrderItem(OrderKey, ProductKey, 2, 10000)];
    assert SumSubtotals(items) == 20000 by {
      assert items[..0] == [];
    }
  }

  /** Ten units of a product with five in stock: InsufficientStock with five available and ten
      requested, and nothing is placed. */
  lemma InsufficientStockFails(now: int)
    ensures PlaceOrder(Shop(5), CustomerKey, [OrderItemRequest(ProductKey, 10)], OrderKey, now)
            == Failure(InsufficientStock("Test Product", 5, 10))
  {
    var lines := [OrderItemRequest(ProductKey, 10)];
    var rows := Shop(5).products;
    ShopSelectsWholeTable(5, lines);
    PlaceOrderOnWholeTable(Shop(5), CustomerKey, lines, OrderKey, now);
    assert Requested(lines, 0, ProductKey) == 0;
    assert !Serves(rows, lines, 0);
    assert FirstShortfall(rows, lines, 0) == Some(0);
  }

  /** The same product on two lines of three each, with five in stock: the first line passes and
      leaves two, so the second fails with two available and three requested. */
  lemma RepeatedProductSeesEarlierLines(now: int)
    ensures PlaceOrder(Shop(5), CustomerKey, [OrderItemRequest(ProductKey, 3), OrderItemRequest(ProductKey, 3)], OrderKey, now)
            == Failure(InsufficientStock("Test Product", 2, 3))
  {
    var lines := [OrderItemRequest(ProductKey, 3), OrderItemRequest(ProductKey, 3)];
    var rows := Shop(5).products;
    ShopSelectsWholeTable(5, lines);
    PlaceOrderOnWholeTable(Shop(5), CustomerKey, lines, OrderKey, now);
    assert Requested(lines, 0, ProductKey) == 0;
    assert Serves(rows, lines, 0);
    assert Requested(lines, 1, ProductKey) == 3;
    assert !Serves(rows, lines, 1);
    assert FirstShortfall(rows, lines, 0) == Some(1);
  }

  /** An unknown customer: NotFound naming the customer id, whatever the lines. */
  lemma UnknownCustomerFails(lines: seq<OrderItemRequest>, now: int)
    ensures PlaceOrder(Shop(10), 7, lines, OrderKey, now) == Failure(NotFound(CustomerEntity, [7]))
  {
  }
}
