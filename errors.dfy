/** The exceptions the core raises, as values (src/OnlineStore.Domain/Exceptions/DomainExceptions.cs
    and the InvalidOperationException thrown by the entities). Message texts are not modelled. */
module DomainExceptions {
  import opened Basics
  import opened Enums

  /** The entity a NotFoundException names. */
  datatype Entity = CustomerEntity | ProductEntity | OrderEntity

  datatype Error =
      /** NotFoundException(entityName, key); for products the key lists every missing id. */
    | NotFound(entity: Entity, keys: seq<Guid>)
      /** ValidationException raised when an email is already registered. */
    | DuplicateEmail(email: string)
      /** InsufficientStockException(productName, available, requested). */
    | InsufficientStock(productName: string, available: int, requested: int)
      /** InvalidOperationException from Product.ReduceStock. */
    | StockRefused(productName: string, available: int, requested: int)
      /** InvalidOperationException from Order.UpdateStatus. */
    | InvalidTransition(from: OrderStatus, to: OrderStatus)
      /** InvalidOperationException from Order.Cancel. */
    | AlreadyDelivered
      /** Any exception raised by SaveChanges or by the database transaction's commit. */
    | PersistenceFailure
}
