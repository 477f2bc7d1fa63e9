/** An order line with its unit price snapshot (src/OnlineStore.Domain/Entities/OrderItem.cs). */
module OrderItems {
  import opened Basics

  /** The constructor OrderItem(productId, quantity, unitPrice) leaves orderId empty;
      Order.AddItem fills it in. The unit price is a copied value, not a link to the product. */
  datatype OrderItem = OrderItem(orderId: Guid, productId: Guid, quantity: int, unitPrice: int)

  /** GetSubtotal: quantity times the captured unit price. */
  function Subtotal(item: OrderItem): int
  {
    item.quantity * item.unitPrice
  }

  /** Every line has a non-negative quantity and price. */
  predicate NonNegativeLines(items: seq<OrderItem>)
  {
    forall i :: 0 <= i < |items| ==> items[i].quantity >= 0 && items[i].unitPrice >= 0
  }

  /** The sum of the subtotals of a list of items (LINQ Sum over GetSubtotal). */
  function SumSubtotals(items: seq<OrderItem>): int
    decreases |items|
  {
    if items == [] then 0
    else SumSubtotals(items[..|items| - 1]) + Subtotal(items[|items| - 1])
  }

  /** An order of non-negative lines, each line's subtotal among them, never has a negative total. */
  lemma {:induction false} SumSubtotalsNonNegative(items: seq<OrderItem>)
    requires NonNegativeLines(items)
    ensures SumSubtotals(items) >= 0
    ensures forall i :: 0 <= i < |items| ==> Subtotal(items[i]) >= 0
    decreases |items|
  {
    if items != [] {
      var prefix := items[..|items| - 1];
      assert NonNegativeLines(prefix) by {
        forall i | 0 <= i < |prefix|
          ensures prefix[i].quantity >= 0 && prefix[i].unitPrice >= 0
        {
          assert prefix[i] == items[i];
        }
      }
      SumSubtotalsNonNegative(prefix);
    }
  }

  lemma SumSubtotalsAppend(items: seq<OrderItem>, item: OrderItem)
    ensures SumSubtotals(items + [item]) == SumSubtotals(items) + Subtotal(item)
  {
    assert (items + [item])[..|items|] == items;
  }
}
