/** One call among others: what everybody else does to the tables between its transactions. */
module Interleaving {
  import opened Database
  import opened Transactions
  import opened Repositories

  // What others do before the n-th transaction of the call.
  type Interference = (nat, Db) -> Db

  /** Others only move the tables forward, as every transaction of the system does. */
  ghost predicate Forward(others: Interference) {
    forall n, db | FreshRows(db) :: FreshRows(others(n, db)) && Later(db, others(n, db))
  }

  // Nobody else is there.
  ghost predicate Undisturbed(others: Interference) {
    forall n, db :: others(n, db) == db
  }

  // Others act before the next transaction.
  method Interfere(tables: Tables, others: Interference, n: nat)
    requires FreshRows(tables.Snapshot()) && Forward(others)
    modifies tables
    ensures tables.Snapshot() == others(n, old(tables.Snapshot()))
    ensures FreshRows(tables.Snapshot()) && Later(old(tables.Snapshot()), tables.Snapshot())
  {
    tables.Rollback(others(n, tables.Snapshot()));
  }
}
