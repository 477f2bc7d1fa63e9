# OnlineStore order handling in Dafny

A model of the order-handling core of the OnlineStore web shop (a C# service built on Entity
Framework Core and MediatR), with proofs of what that core promises.

What it covers:

- **Order entity.** The status state machine (`UpdateStatus` and its transition table), the
  separate, looser `Cancel`, and the total kept as the sum of the item subtotals.
- **Product entity.** The stock counter with `HasStock`, `ReduceStock` and `IncreaseStock`.
- **The three command handlers.**
  - Placing an order inside a database transaction: customer lookup, batch product load,
    missing-product check, a loop over the lines that checks and draws stock and appends items,
    then save and commit, with a rollback on any failure.
  - Changing an order's status.
  - Registering a customer under a unique email.
- **Infrastructure.** The unit of work's transaction field and save, and the repository queries
  the handlers use.
- **Request validators.**

Modelling choices:

- **Entities and state.**
  - Entities that the code changes in place are classes: `Products.Product`, `Orders.Order` and
    `UnitOfWorks.UnitOfWork`.
  - Stored rows are datatypes (`ProductRecord`, `OrderRecord`, `Customer`), collected in a
    `Persistence.Store`.
- **The unit of work.**
  - `database` is what the database holds. `pending` is what the context has staged.
  - `tracked` is the product entities the context has loaded; a save writes their current state.
  - `transaction` is the `_transaction` field: none, or the state to roll back to.
  - A ghost `events` trace records begin, save, commit and rollback in order.
- **Handlers.** Each handler is a method proved against a pure description of its outcome:
  `CreateOrderHandler.PlaceOrder`, `UpdateOrderStatusHandler.ChangeStatus` and
  `CreateCustomerHandler.RegisterCustomer`. Lemmas then state what those descriptions imply.
- **Placement.** `PlaceOrder` checks the lines in input order against the stock that earlier
  lines have already drawn. `StockCheckMatchesTotals` proves that this line-by-line check
  amounts to "each product's stock covers the sum of its lines".
- **Exceptions.** Each exception kind is a constructor of `DomainExceptions.Error`. Methods that
  throw return a `Result` or an `Outcome`.
- **Failing persistence steps.** Which steps throw is a parameter: `saveFails` for the customer
  and status handlers, `Faults` for order placement.
- **Identifiers and values.**
  - A Guid is a natural number, and 0 is `Guid.Empty`.
  - Prices are integers in minor units (cents). Every price enters through the seed data with two
    decimals, and every money column is declared with precision 18 and scale 2, so cents hold each
    stored amount exactly.
  - The new order's id and the current time are parameters.
- **Order items.** The unit price is copied into the `OrderItem` value when the item is created.
  No later change to the product can reach an existing item.

## Model

| member | source | states |
|---|---|---|
| Basics.Distinct | src/OnlineStore.Application/Commands/CreateOrderCommand.cs:46 | every requested product id appears exactly once and no other id appears |
| Basics.Except | src/OnlineStore.Application/Commands/CreateOrderCommand.cs:50-51 | the requested ids that no loaded product has, each once; the list is empty exactly when every requested id was found |
| Basics.IndexOf | src/OnlineStore.Application/Commands/CreateOrderCommand.cs:62 | the position First finds: an occurrence of the id with no earlier one |
| Enums.StatusValue | src/OnlineStore.Domain/Enums/OrderStatus.cs:8-12 | every status is declared with an integer from 0 to 4 |
| Enums.StatusOfValue | src/OnlineStore.Domain/Enums/OrderStatus.cs:6-13 | an integer names a status exactly when it is 0 to 4, and that status is declared with it |
| Enums.StatusValueRoundTrip | src/OnlineStore.Domain/Enums/OrderStatus.cs:6-13 | each status maps to its integer and back, and no two statuses share an integer |
| Orders.IsValidStatusTransition | src/OnlineStore.Domain/Entities/Order.cs:72-83 | no move leaves Delivered or Cancelled, and every allowed move goes to a status declared with a larger integer, so no status is ever reached twice |
| Orders.TransitionTable | src/OnlineStore.Domain/Entities/Order.cs:72-83 | UpdateStatus allows exactly Pending to Paid or Cancelled, Paid to Shipped or Cancelled, and Shipped to Delivered; no status moves to itself |
| Orders.TerminalStates | src/OnlineStore.Domain/Entities/Order.cs:74-82 | a status has no move out of it exactly when it is Delivered or Cancelled |
| Orders.CanCancel | src/OnlineStore.Domain/Entities/Order.cs:90 | every status from which the table allows a move to Cancelled is one Cancel accepts |
| Orders.CancelIsLooserThanUpdateStatus | src/OnlineStore.Domain/Entities/Order.cs:88-96 | every cancellation the table allows is one Cancel allows; Cancel also allows exactly two the table rejects, from Shipped and from Cancelled |
| Orders.Trail | src/OnlineStore.Domain/Entities/Order.cs:57-67 | the statuses an order passes through under a series of UpdateStatus calls begin with its starting status |
| Orders.ReachedStep | src/OnlineStore.Domain/Entities/Order.cs:57-67 | one more request moves the reached status to the requested one when the table allows it, and leaves it otherwise |
| Orders.TrailFollowsLifecycle | src/OnlineStore.Domain/Entities/Order.cs:74-82 | from Pending, any series of requests traces a prefix of Pending-Paid-Shipped-Delivered or a cancellation from Pending or Paid |
| Orders.DeliveryScenario | src/OnlineStore.Domain/Entities/Order.cs:72-83 | Shipped is refused for a Pending order; Paid, Shipped and Delivered in turn deliver it, and a later request changes nothing |
| Orders.Order.constructor | src/OnlineStore.Domain/Entities/Order.cs:27-34 | a new order has the given customer, status Pending, total 0 and no items |
| Orders.Order.FromRecord | src/OnlineStore.Application/Commands/UpdateOrderStatusCommand.cs:38 | the entity loaded for a stored order holds exactly that row |
| Orders.Order.AddItem | src/OnlineStore.Domain/Entities/Order.cs:39-44 | appends exactly one item stamped with the order id, leaves the earlier items as they were, and raises the total by the new subtotal so it stays the sum of the subtotals |
| Orders.Order.CalculateTotalAmount | src/OnlineStore.Domain/Entities/Order.cs:49-52 | the total becomes the sum of the item subtotals, and recomputing a total already in that state leaves it as it was |
| Orders.Order.UpdateStatus | src/OnlineStore.Domain/Entities/Order.cs:57-67 | succeeds exactly when the table allows the move and then sets the new status; otherwise fails with both statuses named and keeps the status; nothing else changes |
| Orders.Order.Cancel | src/OnlineStore.Domain/Entities/Order.cs:88-96 | fails exactly for a Delivered order, which keeps its status; otherwise the status becomes Cancelled; nothing else changes |
| OrderItems.SumSubtotalsNonNegative | src/OnlineStore.Domain/Entities/OrderItem.cs:34-37 | with non-negative quantities and prices, every subtotal and the total of the subtotals are non-negative |
| OrderItems.SumSubtotalsAppend | src/OnlineStore.Domain/Entities/Order.cs:51 | the Sum over GetSubtotal grows, when an item is added, by exactly that item's quantity times its unit price |
| Products.Product.constructor | src/OnlineStore.Domain/Entities/Product.cs:18-24 | the entity holds the given id, name, price and stock unchanged |
| Products.Product.ReduceStock | src/OnlineStore.Domain/Entities/Product.cs:29-37 | succeeds exactly when the stock covers the quantity (HasStock beforehand), then lowers the stock by exactly the quantity; otherwise fails with the name, stock and quantity and keeps the stock; non-negative stock stays non-negative, and a negative quantity raises it |
| Products.Product.IncreaseStock | src/OnlineStore.Domain/Entities/Product.cs:42-45 | the stock rises by exactly the quantity, unguarded |
| Repositories.FindCustomer | src/OnlineStore.Application/Commands/CreateOrderCommand.cs:39 | the customer with that id when one exists, none exactly when none does |
| Repositories.FindProduct | src/OnlineStore.Infrastructure/Repositories/SpecificRepositories.cs:79 | the product row with that id when one exists, none exactly when none does |
| Repositories.GetByEmail | src/OnlineStore.Infrastructure/Repositories/SpecificRepositories.cs:14-18 | a customer whose email equals the argument exactly, or none exactly when no customer has it |
| Repositories.GetByIds | src/OnlineStore.Infrastructure/Repositories/SpecificRepositories.cs:65-72 | exactly the stored products whose id is among the given ids, no more rows than stored, with unique keys kept |
| Repositories.GetByIdsAll | src/OnlineStore.Infrastructure/Repositories/SpecificRepositories.cs:65-72 | asking for every stored id returns the whole table in table order |
| Repositories.HasSufficientStock | src/OnlineStore.Infrastructure/Repositories/SpecificRepositories.cs:74-81 | false for an unknown product; true only for a product whose stock covers the quantity, and, under unique keys, for every such product |
| Repositories.GetWithItems | src/OnlineStore.Infrastructure/Repositories/SpecificRepositories.cs:49-56 | the order with the given id, or none exactly when no order has it |
| Repositories.OrdersOf | src/OnlineStore.Infrastructure/Repositories/SpecificRepositories.cs:44 | each order of the customer, as often as it is stored, and no order of another customer |
| Repositories.InsertNewestFirst | src/OnlineStore.Infrastructure/Repositories/SpecificRepositories.cs:45 | placing one order into a list adds exactly that order |
| Repositories.InsertKeepsNewestFirst | src/OnlineStore.Infrastructure/Repositories/SpecificRepositories.cs:45 | placing an order into a list sorted by CreatedAt descending keeps it sorted |
| Repositories.SortNewestFirst | src/OnlineStore.Infrastructure/Repositories/SpecificRepositories.cs:45 | the result is a permutation of the input sorted by CreatedAt descending |
| Repositories.GetByCustomerId | src/OnlineStore.Infrastructure/Repositories/SpecificRepositories.cs:36-47 | exactly the customer's orders, each as often as stored, sorted by CreatedAt descending |
| UnitOfWorks.OverlayKeepsUntracked | src/OnlineStore.Infrastructure/Repositories/UnitOfWork.cs:24-27 | a save keeps every product key where it was, writes back unchanged a row no tracked entity has the key of, and writes a tracked entity's values over the row with its key |
| UnitOfWorks.OverlayIdempotent | src/OnlineStore.Infrastructure/Repositories/UnitOfWork.cs:38 | saving the same tracked entities a second time, as CommitTransactionAsync does, writes nothing new |
| UnitOfWorks.OverlayNothing | src/OnlineStore.Infrastructure/Repositories/UnitOfWork.cs:24-27 | with no product entity loaded, a save leaves the product table unchanged |
| UnitOfWorks.ReplaceOrderKeepsKeys | src/OnlineStore.Application/Commands/UpdateOrderStatusCommand.cs:50 | an update keeps every order key where it was; under the primary key it keeps the keys unique and rewrites at most one row; the updated order is in the table when a row had its key |
| UnitOfWorks.UnitOfWork.constructor | src/OnlineStore.Infrastructure/Repositories/UnitOfWork.cs:16-22 | a new unit of work has no open transaction, nothing staged and nothing loaded |
| UnitOfWorks.UnitOfWork.SaveChanges | src/OnlineStore.Infrastructure/Repositories/UnitOfWork.cs:24-27 | a save writes the staged rows and the loaded products; a failed save changes nothing |
| UnitOfWorks.UnitOfWork.BeginTransaction | src/OnlineStore.Infrastructure/Repositories/UnitOfWork.cs:29-32 | a transaction is open afterwards and remembers the database state |
| UnitOfWorks.UnitOfWork.CommitTransaction | src/OnlineStore.Infrastructure/Repositories/UnitOfWork.cs:34-58 | saves, then commits an open transaction; a failure of either rolls back to the state at begin; no transaction is open afterwards; with no transaction the save alone persists |
| UnitOfWorks.UnitOfWork.RollbackTransaction | src/OnlineStore.Infrastructure/Repositories/UnitOfWork.cs:60-68 | with an open transaction, restores the state at begin and clears it; with none, changes nothing, so a second rollback is harmless |
| UnitOfWorks.UnitOfWork.AddCustomer | src/OnlineStore.Application/Commands/CreateCustomerCommand.cs:43 | stages exactly one new customer row after the existing ones |
| UnitOfWorks.UnitOfWork.AddOrder | src/OnlineStore.Application/Commands/CreateOrderCommand.cs:82 | stages exactly one new order row after the existing ones |
| UnitOfWorks.UnitOfWork.UpdateOrder | src/OnlineStore.Application/Commands/UpdateOrderStatusCommand.cs:50 | stages the order's values over the row with its id |
| UnitOfWorks.UnitOfWork.GetProductsByIds | src/OnlineStore.Infrastructure/Repositories/SpecificRepositories.cs:65-72 | returns one new, distinct entity per selected row, holding that row, and starts tracking them |
| CreateOrderHandler.FirstShortfall | src/OnlineStore.Application/Commands/CreateOrderCommand.cs:60-71 | none exactly when every line passes its stock check; otherwise the first line that fails, all lines before it passing |
| CreateOrderHandler.PlaceOrder | src/OnlineStore.Application/Commands/CreateOrderCommand.cs:39-79 | an unknown customer fails with NotFound naming it; every failure is NotFound or InsufficientStock; a placement is a Pending order with the given id, customer and time, one item per line carrying the line's product and quantity, a total equal to the sum of the subtotals, and a product table of the same size |
| CreateOrderHandler.PlaceOrderOnWholeTable | src/OnlineStore.Application/Commands/CreateOrderCommand.cs:46-79 | when the lines name every stored product, the outcome is decided by the stock check over the stored rows themselves |
| CreateOrderHandler.RequestedAbsent | src/OnlineStore.Application/Commands/CreateOrderCommand.cs:60-74 | a product no line names is asked for nothing |
| CreateOrderHandler.RequestedGrows | src/OnlineStore.Application/Commands/CreateOrderCommand.cs:60-74 | with non-negative quantities, more lines ask for at least as much of a product |
| CreateOrderHandler.DrawnKeepsCatalogue | src/OnlineStore.Application/Commands/CreateOrderCommand.cs:72-74 | drawing stock keeps every row's key, name and price, leaves a product no line names untouched, and raises no stock when no quantity is negative |
| CreateOrderHandler.ServedTotalsFit | src/OnlineStore.Application/Commands/CreateOrderCommand.cs:60-75 | when the first lines pass their checks, the stock of each product they name covers all they ask of it |
| CreateOrderHandler.StockCheckMatchesTotals | src/OnlineStore.Application/Commands/CreateOrderCommand.cs:60-75 | with positive quantities, the line-by-line check passes exactly when each product's stock covers the sum of the quantities of the lines naming it |
| CreateOrderHandler.FindProductInSelection | src/OnlineStore.Application/Commands/CreateOrderCommand.cs:47-62 | looking a requested id up among the loaded products finds the same row as in the whole table |
| CreateOrderHandler.PlaceOrderSucceedsIff | src/OnlineStore.Application/Commands/CreateOrderCommand.cs:39-79 | placement succeeds exactly when the customer exists and every requested product exists with stock for the summed quantity |
| CreateOrderHandler.FindProductDrawn | src/OnlineStore.Application/Commands/CreateOrderCommand.cs:74 | after drawing, a product lookup finds the same row with its stock lowered by what the lines asked |
| CreateOrderHandler.OverlayDrawn | src/OnlineStore.Application/Commands/CreateOrderCommand.cs:74-83 | saving the loaded products after the loop changes exactly the rows the lines name, by what they asked |
| CreateOrderHandler.PlacementKeepsStockNonNegative | src/OnlineStore.Application/Commands/CreateOrderCommand.cs:65-74 | a successful placement never leaves a stock below zero |
| CreateOrderHandler.PlacementDrawsStock | src/OnlineStore.Application/Commands/CreateOrderCommand.cs:72-74 | a placement lowers each product's stock by exactly the total its lines ask and changes nothing else in the product table |
| CreateOrderHandler.PlacementContents | src/OnlineStore.Application/Commands/CreateOrderCommand.cs:57-79 | a placed order is Pending for the customer with one item per line carrying the line's product and quantity and the product's stored price, and a total equal to the sum of the subtotals |
| CreateOrderHandler.MissingProductsNamed | src/OnlineStore.Application/Commands/CreateOrderCommand.cs:45-54 | for a known customer, the request fails with NotFound exactly when some line names a product that is not stored; the error is then about products and lists, without repeats, exactly the requested ids that are not stored |
| CreateOrderHandler.ShortfallReported | src/OnlineStore.Application/Commands/CreateOrderCommand.cs:59-71 | for a known customer whose lines all name stored products, the request fails exactly when some line's stock does not cover it after the earlier lines; the failure is then the InsufficientStock of the first such line, with that product's name, its remaining stock and the line's quantity |
| CreateOrderHandler.CheckLine | src/OnlineStore.Application/Commands/CreateOrderCommand.cs:61-70 | the head of one pass, changing nothing: finds the line's product entity and fails exactly when its remaining stock does not cover the line, with the name, remaining stock and quantity |
| CreateOrderHandler.ReserveLine | src/OnlineStore.Application/Commands/CreateOrderCommand.cs:72-77 | the rest of a pass whose check passed: lowers that product's stock by the quantity and appends the priced item, so the loop state covers one more line |
| CreateOrderHandler.AddLines | src/OnlineStore.Application/Commands/CreateOrderCommand.cs:60-79 | the loop fails exactly at the first line whose stock check fails, with its error, leaving the entities and the order as the lines before it left them; otherwise the entities hold the drawn rows and the order holds one item per line and the matching total |
| CreateOrderHandler.LoadProducts | src/OnlineStore.Application/Commands/CreateOrderCommand.cs:46-50 | one fresh tracked entity per stored row with a requested id, and the requested ids no row has |
| CreateOrderHandler.Reserve | src/OnlineStore.Application/Commands/CreateOrderCommand.cs:39-79 | fails with the same error as PlaceOrder; otherwise yields the order PlaceOrder describes and leaves the drawn product table to be saved |
| CreateOrderHandler.Committing | src/OnlineStore.Application/Commands/CreateOrderCommand.cs:83-99 | the events of save and commit: saves, then a commit when no step throws and a rollback otherwise |
| CreateOrderHandler.Persist | src/OnlineStore.Application/Commands/CreateOrderCommand.cs:82-84 | adds the order once, saves and commits; on success the database holds the drawn products and the new order; on any failure it is as before the transaction |
| CreateOrderHandler.Handle | src/OnlineStore.Application/Commands/CreateOrderCommand.cs:30-101 | the outcome PlaceOrder describes; a failure before the commit rolls back once, never commits and leaves the database as before; a failure of the read after the commit reports PersistenceFailure while the placed order and drawn stock stay committed, the rollback finding no transaction; otherwise success commits once and adds exactly the placed order and the drawn stock |
| CreateOrderScenarios.ValidOrderReducesStock | tests/OnlineStore.Application.Tests/Commands/CreateOrderCommandTests.cs:41-103 | two units of a product with ten in stock: one item, total twice the price, stock eight |
| CreateOrderScenarios.InsufficientStockFails | tests/OnlineStore.Application.Tests/Commands/CreateOrderCommandTests.cs:106-152 | ten units of a product with five in stock: InsufficientStock with five available and ten requested |
| CreateOrderScenarios.RepeatedProductSeesEarlierLines | src/OnlineStore.Application/Commands/CreateOrderCommand.cs:60-71 | two lines of three for a product with five: the second line fails with two available and three requested |
| CreateOrderScenarios.UnknownCustomerFails | tests/OnlineStore.Application.Tests/Commands/CreateOrderCommandTests.cs:155-181 | an unknown customer fails with NotFound naming the customer id |
| UpdateOrderStatusHandler.ChangeStatus | src/OnlineStore.Application/Commands/UpdateOrderStatusCommand.cs:37-47 | success returns the stored order with that id and the new status, and the stored status allows the move; failure is NotFound for the id or the refused transition to the requested status |
| UpdateOrderStatusHandler.ChangeStatusIff | src/OnlineStore.Application/Commands/UpdateOrderStatusCommand.cs:38-48 | a request succeeds exactly when the order exists and the table allows the move; otherwise it fails with NotFound or with the refused transition |
| UpdateOrderStatusHandler.RequestChangesOnlyStatus | src/OnlineStore.Application/Commands/UpdateOrderStatusCommand.cs:48-51 | a handled request changes at most the requested order's row, and in it only the status |
| UpdateOrderStatusHandler.LookupAfterRequest | src/OnlineStore.Application/Commands/UpdateOrderStatusCommand.cs:38-51 | after a request, the order is found with the new status when the move was allowed and as before otherwise |
| UpdateOrderStatusHandler.RequestsFollowTrail | src/OnlineStore.Application/Commands/UpdateOrderStatusCommand.cs:31-70 | a series of requests leaves the stored order with the status that UpdateStatus reaches on the same requests |
| UpdateOrderStatusHandler.StatusScenario | src/OnlineStore.Application/Commands/UpdateOrderStatusCommand.cs:48 | Pending to Shipped is refused; Paid, Shipped and Delivered in turn deliver the order; any later request fails |
| UpdateOrderStatusHandler.Handle | src/OnlineStore.Application/Commands/UpdateOrderStatusCommand.cs:31-71 | an unknown order or refused move fails and saves nothing; otherwise the order with the new status replaces the stored row and is returned |
| CreateCustomerHandler.RegisterCustomer | src/OnlineStore.Application/Commands/CreateCustomerCommand.cs:35-41 | a request fails, with the email named, exactly when a customer already has that email; otherwise the new customer carries the request's name, email and phone |
| CreateCustomerHandler.RegisterKeepsEmailsUnique | src/OnlineStore.Application/Commands/CreateCustomerCommand.cs:35-44 | registering keeps customer emails pairwise distinct |
| CreateCustomerHandler.SecondRegistrationRefused | tests/OnlineStore.Application.Tests/Commands/CreateCustomerCommandTests.cs:75-100 | a second registration with the same email is refused |
| CreateCustomerHandler.Handle | src/OnlineStore.Application/Commands/CreateCustomerCommand.cs:30-49 | a duplicate email adds nothing; otherwise exactly one customer with the request's fields is appended, the earlier ones untouched, saved once and returned |
| Validators.Utf16Length | src/OnlineStore.Application/Validators/Validators.cs:13 | the length MaximumLength compares: at least the character count and at most twice it, and equal to it when every character lies in the Basic Multilingual Plane |
| Validators.ValidateCreateCustomer | src/OnlineStore.Application/Validators/Validators.cs:7-23 | a customer command passes exactly when the name and email are non-blank and at most 100 long and the phone number at most 20 |
| Validators.LineFailures | src/OnlineStore.Application/Validators/Validators.cs:36-43 | no line failure exactly when every line has a non-empty product id and a positive quantity; each failure reported holds for the line it names |
| Validators.ValidateCreateOrder | src/OnlineStore.Application/Validators/Validators.cs:25-45 | an order command passes exactly when the customer id is non-empty, there is at least one line and every line is valid |
| Validators.ValidateUpdateOrderStatus | src/OnlineStore.Application/Validators/Validators.cs:47-57 | a status command passes exactly when the order id is non-empty and the integer is one a status is declared with |
| Validators.ValidatedOrderSucceedsIff | src/OnlineStore.Application/Validators/Validators.cs:25-45 | for a validated order command, placement succeeds exactly when the customer exists and every product has stock for its summed quantity |
| Validators.CustomerRuleExamples | src/OnlineStore.Application/Validators/Validators.cs:11-13 | a name of white space only fails NotEmpty, and a character outside the Basic Multilingual Plane counts twice |

## Left out

- Concurrency: requests are handled one at a time. There is no locking or versioning to model.
- Transactions: the model gives transactions their ordinary meaning, in which a rollback restores
  the state at begin. The store runs on Entity Framework's in-memory provider, which ignores
  transactions (src/OnlineStore.API/Program.cs:26-29). On that provider, a save that succeeded
  before a later failure is not undone.
- Change tracking after a rollback: the context is request-scoped and discarded after the
  request. The model does not follow the tracked entities once a request ends; each handler
  starts from an idle unit of work.
- The identity map: the model materialises a fresh entity per loaded row and does not model two
  lookups returning the same instance.
- The generic base repository (`Repository<T>`, with `GetByIdAsync`, `AddAsync` and
  `UpdateAsync`) is not part of this model. Its lookups are read as "the first row with that key"
  and its writes as staging a row.
- Exception message texts, logging, the AutoMapper mapping to DTOs, `CancellationToken`s and
  `async` are not modelled. Handlers return the stored record instead of the mapped DTO.
- Guid generation and `DateTime.UtcNow` are parameters. The order handler requires the new order
  id to be unused, as a fresh Guid is.
- `int` overflow of quantities and stock is not modelled: integers are unbounded.
- Null strings and null item lists are not modelled. The validators see strings and sequences
  that are always present.
- Validators.ValidateCreateCustomer: does not model FluentValidation's `EmailAddress()` format
  rule. That rule is library code, so an email that only breaks the format rule passes here.
- Validators.ValidateUpdateOrderStatus: takes the status as the raw integer `IsInEnum` inspects.
- Out-of-range status values: a C# enum holds any integer, and the request body binds one into
  `UpdateOrderStatusDto.Status` (src/OnlineStore.Application/DTOs/Dtos.cs:47-48).
  `IsValidStatusTransition` has a default arm for such values that allows nothing
  (src/OnlineStore.Domain/Entities/Order.cs:81). What keeps them from the handler is the
  validation pipeline behaviour registered at src/OnlineStore.API/Program.cs:52, which runs the
  validator first. The model's `OrderStatus` has only the five declared members, so it leaves out
  both the out-of-range values and the default arm.
- OrderItem ids: the generated `Id` of an order item (src/OnlineStore.Domain/Entities/OrderItem.cs:8,
  25) is not modelled. Items are identified by their position in the order.
- Repositories.SortNewestFirst: does not state the order of orders with equal creation times.
  Its contract says only that the result is a permutation of the input, newest first.
- Basics.Distinct: does not state the order of its result, only which ids appear and that each
  appears once.
- Basics.Except: does not state the order of its result, only which ids appear and that each
  appears once. The order shows only in the key list of the NotFound error.
- Disposal of the transaction object and of the context is not modelled. The field is cleared
  wherever the code disposes it.
