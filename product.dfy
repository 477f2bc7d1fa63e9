/** The product entity and its stock counter (src/OnlineStore.Domain/Entities/Product.cs). */
module Products {
  import opened Basics
  import opened DomainExceptions

  /** A product as the database stores it. */
  datatype ProductRecord = ProductRecord(id: Guid, name: string, price: int, stockQuantity: int)

  /** A product entity loaded into memory; only its stock is changed by the core. */
  class Product {
    const id: Guid
    var name: string
    var price: int
    var stockQuantity: int

    constructor (id: Guid, name: string, price: int, stockQuantity: int)
      ensures this.id == id && this.name == name && this.price == price
      ensures this.stockQuantity == stockQuantity
    {
      this.id := id;
      this.name := name;
      this.price := price;
      this.stockQuantity := stockQuantity;
    }

    /** The row this entity is written back as. */
    function Record(): ProductRecord
      reads this
    {
      ProductRecord(id, name, price, stockQuantity)
    }

    /** HasStock: the stock covers the requested quantity. */
    predicate HasStock(quantity: int)
      reads this
    {
      stockQuantity >= quantity
    }

    /** ReduceStock: refuses (throws) when the quantity exceeds the stock, otherwise subtracts it.
        A negative quantity is not guarded against and raises the stock. */
    method ReduceStock(quantity: int) returns (outcome: Outcome<Error>)
      modifies this`stockQuantity
      ensures outcome.Pass? <==> old(HasStock(quantity))
      ensures outcome.Pass? ==> stockQuantity == old(stockQuantity) - quantity
      ensures outcome.Fail? ==> stockQuantity == old(stockQuantity)
      ensures outcome.Fail? ==> outcome.error == StockRefused(name, stockQuantity, quantity)
      ensures old(stockQuantity) >= 0 ==> stockQuantity >= 0
      ensures outcome.Pass? && quantity < 0 ==> stockQuantity > old(stockQuantity)
    {
      if quantity > stockQuantity {
        return Fail(StockRefused(name, stockQuantity, quantity));
      }
      stockQuantity := stockQuantity - quantity;
      outcome := Pass;
    }

    /** IncreaseStock: adds the quantity, unguarded. */
    method IncreaseStock(quantity: int)
      modifies this`stockQuantity
      ensures stockQuantity == old(stockQuantity) + quantity
    {
      stockQuantity := stockQuantity + quantity;
    }
  }
}
