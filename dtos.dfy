/** The request line of an order (OrderItemRequestDto in src/OnlineStore.Application/DTOs/Dtos.cs). */
module Dtos {
  import opened Basics

  datatype OrderItemRequest = OrderItemRequest(productId: Guid, quantity: int)
}
