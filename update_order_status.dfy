/** UpdateOrderStatusCommandHandler (src/OnlineStore.Application/Commands/UpdateOrderStatusCommand.cs):
    load the order, apply the entity's guarded status transition, then stage and save it. */
module UpdateOrderStatusHandler {
  import opened Basics
  import opened Enums
  import opened DomainExceptions
  import opened Orders
  import opened Persistence
  import opened Repositories
  import opened UnitOfWorks

  datatype UpdateOrderStatusCommand = UpdateOrderStatusCommand(orderId: Guid, status: OrderStatus)

  /** What the handler makes of a request against a store: NotFound for an unknown order, the
      rejected transition when the table forbids it, otherwise the stored order with the new
      status and nothing else changed. */
  function ChangeStatus(orders: seq<OrderRecord>, orderId: Guid, status: OrderStatus): (r: Result<OrderRecord, Error>)
    ensures r.Success? ==> r.value.id == orderId && r.value.status == status
    ensures r.Success? ==>
      exists o <- orders :: o.id == orderId && IsValidStatusTransition(o.status, status) && r.value == o.(status := status)
    ensures r.Failure? ==> r.error == NotFound(OrderEntity, [orderId]) || (r.error.InvalidTransition? && r.error.to == status)
  {
    match GetWithItems(orders, orderId)
    case None => Failure(NotFound(OrderEntity, [orderId]))
    case Some(stored) =>
      if IsValidStatusTransition(stored.status, status) then Success(stored.(status := status))
      else Failure(InvalidTransition(stored.status, status))
  }

  /** The orders table after a request has been handled and saved; a failed request writes nothing. */
  function AfterRequest(orders: seq<OrderRecord>, orderId: Guid, status: OrderStatus): seq<OrderRecord>
  {
    match ChangeStatus(orders, orderId, status)
    case Success(updated) => ReplaceOrder(orders, updated)
    case Failure(_) => orders
  }

  /** The request succeeds exactly when the order exists and the table allows the move from its
      stored status; the error names the reason otherwise. */
  lemma ChangeStatusIff(orders: seq<OrderRecord>, orderId: Guid, status: OrderStatus)
    ensures ChangeStatus(orders, orderId, status).Success? <==>
              exists o <- orders :: o.id == orderId && o == GetWithItems(orders, orderId).value
                                   && IsValidStatusTransition(o.status, status)
    ensures (forall o <- orders :: o.id != orderId) ==>
              ChangeStatus(orders, orderId, status) == Failure(NotFound(OrderEntity, [orderId]))
    ensures GetWithItems(orders, orderId).Some? && !IsValidStatusTransition(GetWithItems(orders, orderId).value.status, status) ==>
              ChangeStatus(orders, orderId, status) == Failure(InvalidTransition(GetWithItems(orders, orderId).value.status, status))
  {
    var found := GetWithItems(orders, orderId);
    if found.Some? && IsValidStatusTransition(found.value.status, status) {
      assert found.value in orders;
    }
  }

  /** Under the primary key, a handled request changes at most the requested order's row and in
      it only the status: its items, total, customer and creation time are as stored. */
  lemma RequestChangesOnlyStatus(orders: seq<OrderRecord>, orderId: Guid, status: OrderStatus)
    requires OrderKeysUnique(orders)
    ensures var after := AfterRequest(orders, orderId, status);
      && |after| == |orders|
      && forall i :: 0 <= i < |orders| ==>
           after[i] == if orders[i].id == orderId && ChangeStatus(orders, orderId, status).Success?
                       then orders[i].(status := status) else orders[i]
  {
    var r := ChangeStatus(orders, orderId, status);
    if r.Success? {
      var stored := GetWithItems(orders, orderId).value;
      forall i | 0 <= i < |orders| && orders[i].id == orderId
        ensures orders[i] == stored
      {
        var k :| 0 <= k < |orders| && orders[k] == stored;
        if k != i {
          assert orders[k].id == orders[i].id;
        }
      }
    }
  }

  /** The table after several requests for one order, each applied to the result of the last. */
  function AfterRequests(orders: seq<OrderRecord>, orderId: Guid, requests: seq<OrderStatus>): seq<OrderRecord>
    decreases |requests|
  {
    if requests == [] then orders
    else AfterRequest(AfterRequests(orders, orderId, requests[..|requests| - 1]), orderId, requests[|requests| - 1])
  }

  /** A request that is applied makes the updated row the one later lookups find. */
  lemma {:induction false} LookupAfterRequest(orders: seq<OrderRecord>, orderId: Guid, status: OrderStatus)
    requires GetWithItems(orders, orderId).Some?
    ensures var stored := GetWithItems(orders, orderId).value;
      GetWithItems(AfterRequest(orders, orderId, status), orderId)
      == Some(if IsValidStatusTransition(stored.status, status) then stored.(status := status) else stored)
    decreases |orders|
  {
    var stored := GetWithItems(orders, orderId).value;
    if IsValidStatusTransition(stored.status, status) {
      var updated := stored.(status := status);
      FirstMatchAfterReplace(orders, updated);
    }
  }

  /** After replacing every row with o's id by o, the first row with that id is o. */
  lemma {:induction false} FirstMatchAfterReplace(orders: seq<OrderRecord>, o: OrderRecord)
    requires GetWithItems(orders, o.id).Some?
    ensures GetWithItems(ReplaceOrder(orders, o), o.id) == Some(o)
    decreases |orders|
  {
    var after := ReplaceOrder(orders, o);
    if orders[0].id != o.id {
      FirstMatchAfterReplace(orders[1..], o);
      assert after[1..] == ReplaceOrder(orders[1..], o);
    }
  }

  /** Handling a series of requests for a stored order moves it along exactly the statuses that
      Order.UpdateStatus reaches on the same requests, so from Pending it follows one of the
      lifecycles and stays in the table. */
  lemma {:induction false} RequestsFollowTrail(orders: seq<OrderRecord>, orderId: Guid, requests: seq<OrderStatus>)
    requires GetWithItems(orders, orderId).Some?
    ensures GetWithItems(AfterRequests(orders, orderId, requests), orderId).Some?
    ensures GetWithItems(AfterRequests(orders, orderId, requests), orderId).value.status
            == Reached(GetWithItems(orders, orderId).value.status, requests)
    decreases |requests|
  {
    if requests != [] {
      var before := requests[..|requests| - 1];
      RequestsFollowTrail(orders, orderId, before);
      LookupAfterRequest(AfterRequests(orders, orderId, before), orderId, requests[|requests| - 1]);
      ReachedStep(GetWithItems(orders, orderId).value.status, requests);
    }
  }

  /** From a Pending order: asking for Shipped is rejected and leaves it Pending; Paid, Shipped
      and Delivered in turn deliver it, and any later request is rejected. */
  lemma StatusScenario(orders: seq<OrderRecord>, orderId: Guid, late: OrderStatus)
    requires GetWithItems(orders, orderId).Some? && GetWithItems(orders, orderId).value.status == Pending
    ensures ChangeStatus(orders, orderId, Shipped) == Failure(InvalidTransition(Pending, Shipped))
    ensures var delivered := AfterRequests(orders, orderId, [Paid, Shipped, Delivered]);
      && GetWithItems(delivered, orderId).Some?
      && GetWithItems(delivered, orderId).value.status == Delivered
      && ChangeStatus(delivered, orderId, late) == Failure(InvalidTransition(Delivered, late))
  {
    RequestsFollowTrail(orders, orderId, [Paid, Shipped, Delivered]);
    DeliveryScenario(late);
    assert [Paid, Shipped, Delivered, late][..3] == [Paid, Shipped, Delivered];
  }

  /** UpdateOrderStatusCommandHandler.Handle on a fresh request context; `saveFails` stands for
      an exception from SaveChangesAsync. A failed lookup or transition saves nothing; otherwise
      the updated order replaces the stored row and is returned. */
  method Handle(uow: UnitOfWork, request: UpdateOrderStatusCommand, saveFails: bool)
      returns (result: Result<OrderRecord, Error>)
    requires uow.Idle()
    modifies uow
    ensures uow.transaction.None?
    ensures match ChangeStatus(old(uow.database.orders), request.orderId, request.status)
      case Failure(e) => result == Failure(e) && uow.database == old(uow.database) && uow.events == old(uow.events)
      case Success(updated) =>
        if saveFails then
          && result == Failure(PersistenceFailure)
          && uow.database == old(uow.database) && uow.events == old(uow.events)
        else
          && result == Success(updated)
          && uow.database == old(uow.database).(orders := ReplaceOrder(old(uow.database.orders), updated))
          && uow.events == old(uow.events) + [Saved]
  {
    var stored := GetWithItems(uow.pending.orders, request.orderId);
    if stored.None? {
      return Failure(NotFound(OrderEntity, [request.orderId]));
    }
    var order := new Order.FromRecord(stored.value);
    var outcome := order.UpdateStatus(request.status);
    if outcome.Fail? {
      return Failure(outcome.error);
    }
    uow.UpdateOrder(order.Record());
    OverlayNothing(uow.pending.products);
    var saved := uow.SaveChanges(saveFails);
    if !saved {
      return Failure(PersistenceFailure);
    }
    result := Success(order.Record());
  }
}
