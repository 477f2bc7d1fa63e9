/** The request validators (src/OnlineStore.Application/Validators/Validators.cs) as functions from
    a command to the list of rule failures it raises, in the order the rules are declared; a
    command passes when the list is empty. */
module Validators {
  import opened Basics
  import opened Enums
  import opened Dtos
  import opened Persistence
  import opened Repositories
  import CreateCustomerHandler
  import CreateOrderHandler

  /** The property a failure is reported against; a line's properties carry the line's index. */
  datatype Property = Name | Email | PhoneNumber | CustomerId | Items | ProductId(line: nat) | Quantity(line: nat) | OrderId | Status

  /** The rule that failed. */
  datatype Rule = NotEmpty | MaximumLength(max: nat) | AtLeastOneItem | GreaterThanZero | IsInEnum

  datatype ValidationFailure = ValidationFailure(property: Property, rule: Rule)

  /** Char.IsWhiteSpace: the separators and the control characters tab to carriage return,
      the next-line character and the no-break space. */
  predicate IsWhiteSpace(c: char)
  {
    var v := c as int;
    || (0x09 <= v <= 0x0D) || v == 0x20 || v == 0x85 || v == 0xA0 || v == 0x1680
    || (0x2000 <= v <= 0x200A) || v == 0x2028 || v == 0x2029 || v == 0x202F || v == 0x205F || v == 0x3000
  }

  /** String.IsNullOrWhiteSpace on a non-null string: empty or nothing but white space. */
  predicate Blank(s: string)
  {
    forall i :: 0 <= i < |s| ==> IsWhiteSpace(s[i])
  }

  /** String.Length, which counts UTF-16 code units: a character beyond the Basic Multilingual
      Plane is a surrogate pair and counts twice. */
  function Utf16Length(s: string): (n: nat)
    ensures |s| <= n <= 2 * |s|
    ensures (forall i :: 0 <= i < |s| ==> s[i] as int <= 0xFFFF) ==> n == |s|
    decreases |s|
  {
    if s == [] then 0
    else Utf16Length(s[..|s| - 1]) + (if s[|s| - 1] as int > 0xFFFF then 2 else 1)
  }

  /** NotEmpty on a string property. */
  function CheckNotBlank(p: Property, s: string): seq<ValidationFailure>
  {
    if Blank(s) then [ValidationFailure(p, NotEmpty)] else []
  }

  /** MaximumLength(max) on a string property. */
  function CheckLength(p: Property, s: string, max: nat): seq<ValidationFailure>
  {
    if Utf16Length(s) > max then [ValidationFailure(p, MaximumLength(max))] else []
  }

  /** CreateCustomerCommandValidator: a non-blank name and email of at most 100 characters each
      and a phone number of at most 20; the email format rule is not part of this model. */
  function ValidateCreateCustomer(c: CreateCustomerHandler.CreateCustomerCommand): (failures: seq<ValidationFailure>)
    ensures failures == [] <==>
              && !Blank(c.name) && Utf16Length(c.name) <= 100
              && !Blank(c.email) && Utf16Length(c.email) <= 100
              && Utf16Length(c.phoneNumber) <= 20
    ensures forall f <- failures :: f.property == Name || f.property == Email || f.property == PhoneNumber
  {
    CheckNotBlank(Name, c.name) + CheckLength(Name, c.name, 100)
    + CheckNotBlank(Email, c.email) + CheckLength(Email, c.email, 100)
    + CheckLength(PhoneNumber, c.phoneNumber, 20)
  }

  /** The child rules for one order line. */
  function LineRuleFailures(line: OrderItemRequest, i: nat): seq<ValidationFailure>
  {
    (if line.productId == EmptyGuid then [ValidationFailure(ProductId(i), NotEmpty)] else [])
    + (if line.quantity <= 0 then [ValidationFailure(Quantity(i), GreaterThanZero)] else [])
  }

  /** A failure the child rules can report for the line it names. */
  predicate LineFailureHolds(items: seq<OrderItemRequest>, f: ValidationFailure)
  {
    || (f.property.ProductId? && f.property.line < |items|
        && f.rule == NotEmpty && items[f.property.line].productId == EmptyGuid)
    || (f.property.Quantity? && f.property.line < |items|
        && f.rule == GreaterThanZero && items[f.property.line].quantity <= 0)
  }

  /** RuleForEach over the first n lines, in order. */
  function LineFailures(items: seq<OrderItemRequest>, n: nat): (failures: seq<ValidationFailure>)
    requires n <= |items|
    ensures failures == [] <==> forall i :: 0 <= i < n ==> items[i].productId != EmptyGuid && items[i].quantity > 0
    ensures forall f <- failures :: LineFailureHolds(items, f) && f.property.line < n
  {
    if n == 0 then []
    else
      var earlier := LineFailures(items, n - 1);
      var last := LineRuleFailures(items[n - 1], n - 1);
      assert forall f <- last :: LineFailureHolds(items, f);
      earlier + last
  }

  /** CreateOrderCommandValidator: a non-empty customer id, at least one line (reported by both
      the NotEmpty and the Must rule), and per line a non-empty product id and a positive quantity. */
  function ValidateCreateOrder(c: CreateOrderHandler.CreateOrderCommand): (failures: seq<ValidationFailure>)
    ensures failures == [] <==>
              && c.customerId != EmptyGuid && c.items != []
              && forall i :: 0 <= i < |c.items| ==> c.items[i].productId != EmptyGuid && c.items[i].quantity > 0
  {
    (if c.customerId == EmptyGuid then [ValidationFailure(CustomerId, NotEmpty)] else [])
    + (if c.items == [] then [ValidationFailure(Items, NotEmpty), ValidationFailure(Items, AtLeastOneItem)] else [])
    + LineFailures(c.items, |c.items|)
  }

  /** UpdateOrderStatusCommandValidator on the order id and the integer the status arrives as:
      a non-empty id and a value that one of the enumeration's members is declared with. */
  function ValidateUpdateOrderStatus(orderId: Guid, statusValue: int): (failures: seq<ValidationFailure>)
    ensures failures == [] <==> orderId != EmptyGuid && exists s :: StatusValue(s) == statusValue
  {
    var r := (if orderId == EmptyGuid then [ValidationFailure(OrderId, NotEmpty)] else [])
      + (if StatusOfValue(statusValue).None? then [ValidationFailure(Status, IsInEnum)] else []);
    assert StatusOfValue(statusValue).Some? ==> StatusValue(StatusOfValue(statusValue).value) == statusValue;
    r
  }

  /** For a command that passes its validator, order placement succeeds exactly when the
      customer exists and every line's product has stock for the total its lines request. */
  lemma ValidatedOrderSucceedsIff(db: Store, c: CreateOrderHandler.CreateOrderCommand, orderId: Guid, now: int)
    requires ValidateCreateOrder(c) == []
    requires ProductKeysUnique(db.products)
    ensures CreateOrderHandler.PlaceOrder(db, c.customerId, c.items, orderId, now).Success? <==>
              && FindCustomer(db.customers, c.customerId).Some?
              && forall i :: 0 <= i < |c.items| ==>
                   HasSufficientStock(db.products, c.items[i].productId, CreateOrderHandler.QtyFor(c.items, c.items[i].productId))
  {
    CreateOrderHandler.PlaceOrderSucceedsIff(db, c.customerId, c.items, orderId, now);
  }

  /** Whitespace-only names fail NotEmpty; characters outside the Basic Multilingual Plane count
      twice toward the length caps. */
  lemma CustomerRuleExamples(email: string)
    requires !Blank(email) && Utf16Length(email) <= 100
    ensures ValidateCreateCustomer(CreateCustomerHandler.CreateCustomerCommand(" \t", email, "")) == [ValidationFailure(Name, NotEmpty)]
    ensures Utf16Length("\U{1F600}") == 2
  {
    assert IsWhiteSpace(" \t"[0]) && IsWhiteSpace(" \t"[1]);
    assert Utf16Length("") == 0;
  }
}
