/** A registered customer (src/OnlineStore.Domain/Entities/Customer.cs), a plain data holder. */
module Customers {
  import opened Basics

  datatype Customer = Customer(id: Guid, name: string, email: string, phoneNumber: string)
}
