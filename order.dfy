/** The order aggregate: its status state machine, its separate cancel path and its total
    (src/OnlineStore.Domain/Entities/Order.cs). */
module Orders {
  import opened Basics
  import opened Enums
  import opened OrderItems
  import opened DomainExceptions

  /** An order as the database stores it, items included. */
  datatype OrderRecord = OrderRecord(
    id: Guid,
    customerId: Guid,
    totalAmount: int,
    createdAt: int,
    status: OrderStatus,
    items: seq<OrderItem>)

  /** IsValidStatusTransition: the switch over the current status. */
  function IsValidStatusTransition(current: OrderStatus, next: OrderStatus): (allowed: bool)
    ensures allowed ==> current != Delivered && current != Cancelled
    ensures allowed ==> StatusValue(current) < StatusValue(next)
  {
    match current
    case Pending => next == Paid || next == Cancelled
    case Paid => next == Shipped || next == Cancelled
    case Shipped => next == Delivered
    case Delivered => false
    case Cancelled => false
  }

  /** The transition table as a plain list of the five allowed (from, to) pairs. */
  const LegalTransitions: set<(OrderStatus, OrderStatus)> :=
    {(Pending, Paid), (Pending, Cancelled), (Paid, Shipped), (Paid, Cancelled), (Shipped, Delivered)}

  lemma TransitionTable(current: OrderStatus, next: OrderStatus)
    ensures IsValidStatusTransition(current, next) <==> (current, next) in LegalTransitions
    ensures !IsValidStatusTransition(current, current)
  {
  }

  /** Delivered and Cancelled, and only they, have no way out through UpdateStatus. */
  lemma TerminalStates(s: OrderStatus)
    ensures (forall t :: !IsValidStatusTransition(s, t)) <==> (s == Delivered || s == Cancelled)
  {
    if s == Pending {
      assert IsValidStatusTransition(s, Paid);
    } else if s == Paid {
      assert IsValidStatusTransition(s, Shipped);
    } else if s == Shipped {
      assert IsValidStatusTransition(s, Delivered);
    }
  }

  /** The guard of Cancel: only a delivered order cannot be cancelled. */
  function CanCancel(s: OrderStatus): (allowed: bool)
    ensures IsValidStatusTransition(s, Cancelled) ==> allowed
  {
    s != Delivered
  }

  /** Cancel allows every cancellation the table allows, and in addition cancels a shipped
      order and re-cancels a cancelled one, both of which UpdateStatus rejects. */
  lemma CancelIsLooserThanUpdateStatus(s: OrderStatus)
    ensures IsValidStatusTransition(s, Cancelled) ==> CanCancel(s)
    ensures (CanCancel(s) && !IsValidStatusTransition(s, Cancelled)) <==> (s == Shipped || s == Cancelled)
  {
  }

  /** The statuses an order takes when the requests are applied one after another with
      UpdateStatus from `start`; a request the table rejects leaves the status as it was. */
  function Trail(start: OrderStatus, requests: seq<OrderStatus>): (trail: seq<OrderStatus>)
    ensures |trail| >= 1 && trail[0] == start
    decreases |requests|
  {
    if requests == [] then [start]
    else
      var trail := Trail(start, requests[..|requests| - 1]);
      var next := requests[|requests| - 1];
      if IsValidStatusTransition(trail[|trail| - 1], next) then trail + [next] else trail
  }

  /** The status an order ends with: the last one of its trail. */
  function Reached(start: OrderStatus, requests: seq<OrderStatus>): OrderStatus
  {
    var trail := Trail(start, requests);
    trail[|trail| - 1]
  }

  /** One more request moves the reached status exactly when the table allows the move. */
  lemma ReachedStep(start: OrderStatus, requests: seq<OrderStatus>)
    requires requests != []
    ensures var prior := Reached(start, requests[..|requests| - 1]);
      var next := requests[|requests| - 1];
      Reached(start, requests) == if IsValidStatusTransition(prior, next) then next else prior
  {
  }

  /** Every path a new order can take: straight to delivery, or cancelled from Pending or Paid. */
  const Lifecycles: set<seq<OrderStatus>> := {
    [Pending], [Pending, Paid], [Pending, Paid, Shipped], [Pending, Paid, Shipped, Delivered],
    [Pending, Cancelled], [Pending, Paid, Cancelled]
  }

  lemma {:induction false} TrailFollowsLifecycle(requests: seq<OrderStatus>)
    ensures Trail(Pending, requests) in Lifecycles
    decreases |requests|
  {
    if requests != [] {
      var before := Trail(Pending, requests[..|requests| - 1]);
      TrailFollowsLifecycle(requests[..|requests| - 1]);
      var next := requests[|requests| - 1];
      var last := before[|before| - 1];
      assert Trail(Pending, requests) == if IsValidStatusTransition(last, next) then before + [next] else before;
      if IsValidStatusTransition(last, next) {
        if before == [Pending] {
          if next == Paid {
            assert before + [next] == [Pending, Paid];
          } else {
            assert before + [next] == [Pending, Cancelled];
          }
        } else if before == [Pending, Paid] {
          if next == Shipped {
            assert before + [next] == [Pending, Paid, Shipped];
          } else {
            assert before + [next] == [Pending, Paid, Cancelled];
          }
        } else if before == [Pending, Paid, Shipped] {
          assert before + [next] == [Pending, Paid, Shipped, Delivered];
        }
      }
    }
  }

  /** A new order asked to ship at once stays Pending; paid, shipped and delivered in turn it
      is Delivered, and no later request moves it. */
  lemma DeliveryScenario(late: OrderStatus)
    ensures Trail(Pending, [Shipped]) == [Pending]
    ensures Trail(Pending, [Paid, Shipped, Delivered, late]) == [Pending, Paid, Shipped, Delivered]
  {
    assert [Paid, Shipped, Delivered, late][..3] == [Paid, Shipped, Delivered];
    assert [Paid, Shipped, Delivered][..2] == [Paid, Shipped];
    assert [Paid, Shipped][..1] == [Paid];
  }

  /** An order entity in memory. */
  class Order {
    const id: Guid
    var customerId: Guid
    var totalAmount: int
    var createdAt: int
    var status: OrderStatus
    var items: seq<OrderItem>

    /** The total agrees with the items, as AddItem and CalculateTotalAmount leave it. */
    ghost predicate TotalMatchesItems()
      reads this
    {
      totalAmount == SumSubtotals(items)
    }

    /** Order(customerId); the generated Id and the current time are parameters here. */
    constructor (id: Guid, customerId: Guid, createdAt: int)
      ensures this.id == id && this.customerId == customerId && this.createdAt == createdAt
      ensures status == Pending && totalAmount == 0 && items == []
      ensures TotalMatchesItems()
    {
      this.id := id;
      this.customerId := customerId;
      this.createdAt := createdAt;
      status := Pending;
      totalAmount := 0;
      items := [];
    }

    /** An entity materialised from a stored row. */
    constructor FromRecord(r: OrderRecord)
      ensures Record() == r
    {
      id := r.id;
      customerId := r.customerId;
      totalAmount := r.totalAmount;
      createdAt := r.createdAt;
      status := r.status;
      items := r.items;
    }

    /** The row this entity is written as. */
    function Record(): OrderRecord
      reads this
    {
      OrderRecord(id, customerId, totalAmount, createdAt, status, items)
    }

    /** AddItem: stamps the item with this order's id, appends it, and recomputes the total. */
    method AddItem(item: OrderItem)
      modifies this`items, this`totalAmount
      ensures items == old(items) + [item.(orderId := id)]
      ensures old(TotalMatchesItems()) ==> totalAmount == old(totalAmount) + Subtotal(item)
      ensures TotalMatchesItems()
    {
      items := items + [item.(orderId := id)];
      CalculateTotalAmount();
      SumSubtotalsAppend(old(items), item.(orderId := id));
    }

    /** CalculateTotalAmount: the total becomes the sum of the subtotals; calling it again
        changes nothing, since the result depends on the items alone. */
    method CalculateTotalAmount()
      modifies this`totalAmount
      ensures TotalMatchesItems()
      ensures old(TotalMatchesItems()) ==> totalAmount == old(totalAmount)
    {
      totalAmount := SumSubtotals(items);
    }

    /** UpdateStatus: assigns the new status when the table allows it, otherwise throws and
        leaves the status as it was. */
    method UpdateStatus(newStatus: OrderStatus) returns (outcome: Outcome<Error>)
      modifies this`status
      ensures outcome.Pass? <==> IsValidStatusTransition(old(status), newStatus)
      ensures status == if outcome.Pass? then newStatus else old(status)
      ensures outcome.Fail? ==> outcome.error == InvalidTransition(old(status), newStatus)
    {
      if !IsValidStatusTransition(status, newStatus) {
        return Fail(InvalidTransition(status, newStatus));
      }
      status := newStatus;
      outcome := Pass;
    }

    /** Cancel: throws for a delivered order, otherwise sets Cancelled, whatever the status. */
    method Cancel() returns (outcome: Outcome<Error>)
      modifies this`status
      ensures outcome.Pass? <==> CanCancel(old(status))
      ensures status == if outcome.Pass? then Cancelled else old(status)
      ensures outcome.Fail? ==> outcome.error == AlreadyDelivered
    {
      if status == Delivered {
        return Fail(AlreadyDelivered);
      }
      status := Cancelled;
      outcome := Pass;
    }
  }
}
