/** CreateCustomerCommandHandler (src/OnlineStore.Application/Commands/CreateCustomerCommand.cs):
    refuse an email that is already registered, otherwise add the customer and save. */
module CreateCustomerHandler {
  import opened Basics
  import opened DomainExceptions
  import opened Customers
  import opened Persistence
  import opened Repositories
  import opened UnitOfWorks

  datatype CreateCustomerCommand = CreateCustomerCommand(name: string, email: string, phoneNumber: string)

  /** What the handler makes of a request against the customers table: a ValidationException
      when some customer already has the email, otherwise the new customer with the requested
      name, email and phone number. The new id is a parameter. */
  function RegisterCustomer(customers: seq<Customer>, request: CreateCustomerCommand, customerId: Guid): (r: Result<Customer, Error>)
    ensures r.Failure? <==> exists c <- customers :: c.email == request.email
    ensures r.Failure? ==> r.error == DuplicateEmail(request.email)
    ensures r.Success? ==> r.value == Customer(customerId, request.name, request.email, request.phoneNumber)
  {
    if GetByEmail(customers, request.email).Some? then Failure(DuplicateEmail(request.email))
    else Success(Customer(customerId, request.name, request.email, request.phoneNumber))
  }

  /** Registering keeps the unique email index intact, and every existing customer keeps its row
      and its place in the table. */
  lemma {:induction false} RegisterKeepsEmailsUnique(customers: seq<Customer>, request: CreateCustomerCommand, customerId: Guid)
    requires EmailsUnique(customers)
    requires RegisterCustomer(customers, request, customerId).Success?
    ensures EmailsUnique(customers + [RegisterCustomer(customers, request, customerId).value])
  {
    var all := customers + [RegisterCustomer(customers, request, customerId).value];
    forall i, j | 0 <= i < j < |all|
      ensures all[i].email != all[j].email
    {
      if j == |customers| {
        assert all[i] in customers;
      } else {
        assert all[i] == customers[i] && all[j] == customers[j];
      }
    }
  }

  /** Two registrations with the same email in a row: the second is refused. */
  lemma SecondRegistrationRefused(customers: seq<Customer>, first: CreateCustomerCommand, second: CreateCustomerCommand, id1: Guid, id2: Guid)
    requires RegisterCustomer(customers, first, id1).Success?
    requires second.email == first.email
    ensures RegisterCustomer(customers + [RegisterCustomer(customers, first, id1).value], second, id2)
            == Failure(DuplicateEmail(first.email))
  {
    var added := RegisterCustomer(customers, first, id1).value;
    assert added in customers + [added];
  }

  /** CreateCustomerCommandHandler.Handle on a fresh request context; `saveFails` stands for an
      exception from SaveChangesAsync. A duplicate email adds nothing; otherwise the customer is
      appended to the table, the earlier rows untouched, and returned. */
  method Handle(uow: UnitOfWork, request: CreateCustomerCommand, customerId: Guid, saveFails: bool)
      returns (result: Result<Customer, Error>)
    requires uow.Idle()
    modifies uow
    ensures uow.transaction.None?
    ensures match RegisterCustomer(old(uow.database.customers), request, customerId)
      case Failure(e) => result == Failure(e) && uow.database == old(uow.database) && uow.events == old(uow.events)
      case Success(customer) =>
        if saveFails then
          && result == Failure(PersistenceFailure)
          && uow.database == old(uow.database) && uow.events == old(uow.events)
        else
          && result == Success(customer)
          && uow.database == old(uow.database).(customers := old(uow.database.customers) + [customer])
          && uow.events == old(uow.events) + [Saved]
  {
    var existing := GetByEmail(uow.pending.customers, request.email);
    if existing.Some? {
      return Failure(DuplicateEmail(request.email));
    }
    var customer := Customer(customerId, request.name, request.email, request.phoneNumber);
    uow.AddCustomer(customer);
    OverlayNothing(uow.pending.products);
    var saved := uow.SaveChanges(saveFails);
    if !saved {
      return Failure(PersistenceFailure);
    }
    result := Success(customer);
  }
}
