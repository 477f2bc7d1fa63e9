/** The order status enumeration (src/OnlineStore.Domain/Enums/OrderStatus.cs). */
module Enums {
  import opened Basics

  datatype OrderStatus = Pending | Paid | Shipped | Delivered | Cancelled

  /** The integer each enumeration member is declared with. */
  function StatusValue(s: OrderStatus): (v: int)
    ensures 0 <= v <= 4
  {
    match s
    case Pending => 0
    case Paid => 1
    case Shipped => 2
    case Delivered => 3
    case Cancelled => 4
  }

  /** The member whose declared integer is v, if v names one (what IsInEnum accepts). */
  function StatusOfValue(v: int): (r: Option<OrderStatus>)
    ensures r.Some? <==> 0 <= v <= 4
    ensures r.Some? ==> StatusValue(r.value) == v
  {
    if v == 0 then Some(Pending)
    else if v == 1 then Some(Paid)
    else if v == 2 then Some(Shipped)
    else if v == 3 then Some(Delivered)
    else if v == 4 then Some(Cancelled)
    else None
  }

  /** Distinct members carry distinct integers, and each integer maps back to its member. */
  lemma StatusValueRoundTrip(s: OrderStatus, t: OrderStatus)
    ensures StatusOfValue(StatusValue(s)) == Some(s)
    ensures StatusValue(s) == StatusValue(t) ==> s == t
  {
  }
}
