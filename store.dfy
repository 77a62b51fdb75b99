/**
 * The persistence context shared by all services: one in-memory collection per
 * entity set, a counter of persisted ledger transactions (a count query sees
 * only those) and the identity generator that stands for `Guid.NewGuid()`.
 */
module Store {
  import opened Domain

  class Database {
    var members: map<Id, Member>
    var groups: map<Id, Group>
    var branches: map<Id, Branch>
    var loans: map<Id, Loan>
    var installments: map<Id, Installment>
    var payments: map<Id, Payment>
    var savingsAccounts: map<Id, SavingsAccount>
    var savingsTransactions: seq<SavingsTransaction>
    var ledgerAccounts: map<Id, LedgerAccount>
    var transactions: seq<Transaction>
    /** How many entries of `transactions` have been saved. */
    var savedTransactions: nat
    /** Every identity handed out so far is below this one. */
    var nextId: Id

    /** Fresh identities stay fresh, and saved transactions are a prefix of the log. */
    ghost predicate Valid()
      reads this
    {
      && savedTransactions <= |transactions|
      && (forall k :: k in loans ==> k < nextId)
      && (forall k :: k in installments ==> k < nextId)
      && (forall k :: k in payments ==> k < nextId)
      && (forall k :: k in savingsAccounts ==> k < nextId)
      && (forall k :: k in ledgerAccounts ==> k < nextId)
    }

    constructor ()
      ensures Valid()
      ensures members == map[] && groups == map[] && branches == map[]
      ensures loans == map[] && installments == map[] && payments == map[]
      ensures savingsAccounts == map[] && savingsTransactions == []
      ensures ledgerAccounts == map[] && transactions == [] && savedTransactions == 0
    {
      members, groups, branches := map[], map[], map[];
      loans, installments, payments := map[], map[], map[];
      savingsAccounts, savingsTransactions := map[], [];
      ledgerAccounts, transactions := map[], [];
      savedTransactions, nextId := 0, 0;
    }

    /** The identity stamped on an entity when it is first saved. */
    method NewId() returns (id: Id)
      requires Valid()
      modifies this`nextId
      ensures Valid()
      ensures id == old(nextId) && nextId == id + 1
    {
      id := nextId;
      nextId := nextId + 1;
    }

    /** `SaveChangesAsync`: every pending transaction becomes visible to counts. */
    method SaveChanges()
      requires Valid()
      modifies this`savedTransactions
      ensures Valid()
      ensures savedTransactions == |transactions|
    {
      savedTransactions := |transactions|;
    }
  }
}
