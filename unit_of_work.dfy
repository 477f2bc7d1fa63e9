/** The unit of work over the database context (src/OnlineStore.Infrastructure/Repositories/UnitOfWork.cs),
    with the part of the context's change tracking the handlers rely on: entities staged by the
    repositories' Add and Update, and product entities loaded by GetByIdsAsync whose in-memory edits
    SaveChanges writes back. */
module UnitOfWorks {
  import opened Basics
  import opened Customers
  import opened Products
  import opened Orders
  import opened Persistence
  import opened Repositories

  /** What the database transaction has done, in order. */
  datatype TxEvent = Began | Saved | Committed | RolledBack

  /** The rows of a list of product entities, as they are now. */
  function Records(ps: seq<Product>): (rs: seq<ProductRecord>)
    reads ps
    ensures |rs| == |ps|
    ensures forall i :: 0 <= i < |ps| ==> rs[i] == ps[i].Record()
  {
    seq(|ps|, i requires 0 <= i < |ps| reads ps => ps[i].Record())
  }

  /** A stored row as the tracked entities have it: the tracked one with the same id, if any. */
  function Refresh(r: ProductRecord, tracked: seq<ProductRecord>): ProductRecord
  {
    match FindProduct(tracked, r.id)
    case Some(t) => t
    case None => r
  }

  /** The product table after the tracked entities' changes are written over it. */
  function Overlay(rows: seq<ProductRecord>, tracked: seq<ProductRecord>): (r: seq<ProductRecord>)
    ensures |r| == |rows|
    ensures forall i :: 0 <= i < |rows| ==> r[i] == Refresh(rows[i], tracked)
  {
    seq(|rows|, i requires 0 <= i < |rows| => Refresh(rows[i], tracked))
  }

  /** Writing the same tracked entities twice writes nothing new: saving again is harmless. */
  lemma OverlayIdempotent(rows: seq<ProductRecord>, tracked: seq<ProductRecord>)
    ensures Overlay(Overlay(rows, tracked), tracked) == Overlay(rows, tracked)
  {
    var once := Overlay(rows, tracked);
    forall i | 0 <= i < |rows|
      ensures Refresh(once[i], tracked) == once[i]
    {
      var t := FindProduct(tracked, rows[i].id);
      if t.Some? {
        assert once[i] == t.value && t.value.id == rows[i].id;
      }
    }
  }

  /** Saving keeps every key where it was: a row whose key no tracked entity has is written back
      as it was, and a row whose key one has takes that entity's values. */
  lemma OverlayKeepsUntracked(rows: seq<ProductRecord>, tracked: seq<ProductRecord>)
    ensures ProductIds(Overlay(rows, tracked)) == ProductIds(rows)
    ensures forall i :: 0 <= i < |rows| && rows[i].id !in ProductIds(tracked) ==> Overlay(rows, tracked)[i] == rows[i]
    ensures forall i :: 0 <= i < |rows| && rows[i].id in ProductIds(tracked) ==> Overlay(rows, tracked)[i] in tracked
  {
    var after := Overlay(rows, tracked);
    forall i | 0 <= i < |rows|
      ensures after[i].id == rows[i].id
    {
      var t := FindProduct(tracked, rows[i].id);
      if t.Some? {
        assert after[i] == t.value;
      }
    }
  }

  /** Saving with no product entities loaded writes the product table unchanged. */
  lemma OverlayNothing(rows: seq<ProductRecord>)
    ensures Overlay(rows, []) == rows
  {
  }

  /** Entity Update: the row with the entity's key takes the entity's values. */
  function ReplaceOrder(orders: seq<OrderRecord>, o: OrderRecord): (r: seq<OrderRecord>)
    ensures |r| == |orders|
    ensures forall i :: 0 <= i < |orders| ==> r[i] == if orders[i].id == o.id then o else orders[i]
  {
    seq(|orders|, i requires 0 <= i < |orders| => if orders[i].id == o.id then o else orders[i])
  }

  /** Under the primary key, an update rewrites at most one row, keeps every key where it was,
      and leaves the key unique; when a row has o's key, o is now in the table. */
  lemma ReplaceOrderKeepsKeys(orders: seq<OrderRecord>, o: OrderRecord)
    ensures forall i :: 0 <= i < |orders| ==> ReplaceOrder(orders, o)[i].id == orders[i].id
    ensures OrderKeysUnique(orders) ==> OrderKeysUnique(ReplaceOrder(orders, o))
    ensures OrderKeysUnique(orders) ==>
      forall i, j :: 0 <= i < |orders| && 0 <= j < |orders| && i != j && ReplaceOrder(orders, o)[i] != orders[i]
        ==> ReplaceOrder(orders, o)[j] == orders[j]
    ensures (exists i :: 0 <= i < |orders| && orders[i].id == o.id) ==> o in ReplaceOrder(orders, o)
  {
    var after := ReplaceOrder(orders, o);
    if exists i :: 0 <= i < |orders| && orders[i].id == o.id {
      var i :| 0 <= i < |orders| && orders[i].id == o.id;
      assert after[i] == o;
    }
  }

  class UnitOfWork {
    /** What the database holds: the last successful save, or the state a rollback restored. */
    var database: Store
    /** The context's staged state: the database plus the rows added or updated since. */
    var pending: Store
    /** The product entities this context has loaded; their current state is what SaveChanges writes. */
    var tracked: seq<Product>
    /** The `_transaction` field: None when it is null, otherwise the database state at
        BeginTransactionAsync, which a rollback returns to. */
    var transaction: Option<Store>
    /** Every effect on the database transaction, in order. */
    ghost var events: seq<TxEvent>

    /** A context as a request starts with it: no transaction, nothing staged, nothing loaded. */
    predicate Idle()
      reads this
    {
      transaction.None? && pending == database && tracked == []
    }

    /** The state a SaveChanges call would write. */
    function Snapshot(): Store
      reads this, tracked
    {
      pending.(products := Overlay(pending.products, Records(tracked)))
    }

    /** The state other requests can rely on: what the database holds outside a transaction,
        and the state the open transaction would roll back to inside one. */
    ghost function Durable(): Store
      reads this
    {
      if transaction.Some? then transaction.value else database
    }

    constructor (db: Store)
      ensures database == db && Idle() && events == []
    {
      database := db;
      pending := db;
      tracked := [];
      transaction := None;
      events := [];
    }

    /** SaveChangesAsync: writes the staged rows and the tracked products' current state.
        `fails` stands for an exception from the database. */
    method SaveChanges(fails: bool) returns (ok: bool)
      modifies this`database, this`pending, this`events
      ensures ok == !fails
      ensures ok ==> database == old(Snapshot()) && pending == database
      ensures ok ==> events == old(events) + [Saved]
      ensures !ok ==> database == old(database) && pending == old(pending) && events == old(events)
    {
      if fails {
        return false;
      }
      database := Snapshot();
      pending := database;
      events := events + [Saved];
      ok := true;
    }

    /** BeginTransactionAsync: a transaction is open afterwards. */
    method BeginTransaction()
      modifies this`transaction, this`events
      ensures transaction == Some(database)
      ensures events == old(events) + [Began]
    {
      transaction := Some(database);
      events := events + [Began];
    }

    /** RollbackTransactionAsync: with an open transaction, restores the database to the state at
        its beginning and clears the field; with none, does nothing. */
    method RollbackTransaction()
      modifies this`database, this`transaction, this`events
      ensures transaction.None?
      ensures database == old(Durable()) && Durable() == old(Durable())
      ensures old(transaction).None? ==> database == old(database) && events == old(events)
      ensures old(transaction).Some? ==> events == old(events) + [RolledBack]
    {
      if transaction.Some? {
        database := transaction.value;
        transaction := None;
        events := events + [RolledBack];
      }
    }

    /** CommitTransactionAsync: saves, then commits an open transaction; on any failure rolls
        back and reports it; in every case no transaction is open afterwards. `saveFails` and
        `commitFails` stand for exceptions from the save and from the transaction's commit. */
    method CommitTransaction(saveFails: bool, commitFails: bool) returns (ok: bool)
      modifies this`database, this`pending, this`transaction, this`events
      ensures transaction.None?
      ensures ok == (!saveFails && (old(transaction).None? || !commitFails))
      ensures ok ==> database == old(Snapshot()) && pending == database
      ensures !ok ==> database == old(Durable())
      ensures Durable() == if ok then old(Snapshot()) else old(Durable())
      ensures events == old(events) + (if saveFails then [] else [Saved])
                        + (if old(transaction).None? then [] else if ok then [Committed] else [RolledBack])
    {
      ok := SaveChanges(saveFails);
      if ok && transaction.Some? {
        ok := !commitFails;
        if ok {
          events := events + [Committed];
        }
      }
      if !ok {
        RollbackTransaction();
      }
      transaction := None;
    }

    /** Customers.AddAsync: stages a new customer row. */
    method AddCustomer(c: Customer)
      modifies this`pending
      ensures pending == old(pending).(customers := old(pending).customers + [c])
    {
      pending := pending.(customers := pending.customers + [c]);
    }

    /** Orders.AddAsync: stages a new order row. */
    method AddOrder(o: OrderRecord)
      modifies this`pending
      ensures pending == old(pending).(orders := old(pending).orders + [o])
    {
      pending := pending.(orders := pending.orders + [o]);
    }

    /** Orders.UpdateAsync: stages the order's new values over the row with its id. */
    method UpdateOrder(o: OrderRecord)
      modifies this`pending
      ensures pending == old(pending).(orders := ReplaceOrder(old(pending).orders, o))
    {
      pending := pending.(orders := ReplaceOrder(pending.orders, o));
    }

    /** Products.GetByIdsAsync: materialises one new entity per matching stored row, in table
        order, and starts tracking them. */
    method GetProductsByIds(ids: seq<Guid>) returns (ps: seq<Product>)
      modifies this`tracked
      ensures Records(ps) == GetByIds(database.products, ids)
      ensures forall i :: 0 <= i < |ps| ==> fresh(ps[i])
      ensures forall i, j :: 0 <= i < j < |ps| ==> ps[i] != ps[j]
      ensures tracked == old(tracked) + ps
    {
      var rows := GetByIds(database.products, ids);
      ps := [];
      var i := 0;
      while i < |rows|
        invariant 0 <= i <= |rows| && |ps| == i
        invariant tracked == old(tracked)
        invariant Records(ps) == rows[..i]
        invariant forall k :: 0 <= k < i ==> fresh(ps[k])
        invariant forall k, l :: 0 <= k < l < i ==> ps[k] != ps[l]
      {
        var p := new Product(rows[i].id, rows[i].name, rows[i].price, rows[i].stockQuantity);
        assert (ps + [p])[..i] == ps;
        ps := ps + [p];
        assert rows[..i + 1] == rows[..i] + [rows[i]];
        i := i + 1;
      }
      assert rows[..i] == rows;
      tracked := tracked + ps;
    }
  }
}
