/**
 * Savings accounts (SavingsService): opening an account, deposits and
 * withdrawals with their guards, the running totals and the balance
 * snapshot written on each movement, and the ledger posting of each movement.
 *
 * Every account keeps Balance = TotalDeposits - TotalWithdrawals with a
 * non-negative balance (`Sound`); each operation is proved to keep that for
 * every account, to change the one account it names by the reference update
 * (`Deposited`, `Withdrawn`), and to append one movement and one posting.
 */
module Savings {
  import opened Domain
  import opened Store
  import opened Accounting
  import Codes

  /** The running totals agree with the balance, and the balance is not negative. */
  predicate Sound(a: SavingsAccount)
  {
    && a.balance == a.totalDeposits - a.totalWithdrawals
    && a.balance >= 0.0 && a.totalDeposits >= 0.0 && a.totalWithdrawals >= 0.0
  }

  ghost predicate AllSound(accts: map<Id, SavingsAccount>)
  {
    forall id :: id in accts ==> Sound(accts[id])
  }

  /** At most one account per member: the one-to-one relation of members and accounts (a unique index on the member). */
  ghost predicate OneAccountPerMember(accts: map<Id, SavingsAccount>)
  {
    forall i, j :: i in accts && j in accts && accts[i].memberId == accts[j].memberId ==> i == j
  }

  /** The savings balance of a member, when the member holds an account. */
  ghost function MemberBalance(accts: map<Id, SavingsAccount>, memberId: Id): Option<real>
  {
    if exists k :: k in accts && accts[k].memberId == memberId
    then var k :| k in accts && accts[k].memberId == memberId; Some(accts[k].balance)
    else None
  }

  /** With one account per member, the balance found through any account of the member is the member's balance. */
  lemma MemberBalanceAt(accts: map<Id, SavingsAccount>, k: Id)
    requires OneAccountPerMember(accts) && k in accts
    ensures MemberBalance(accts, accts[k].memberId) == Some(accts[k].balance)
  {
  }

  /** Replacing an account by a sound one of the same member keeps the store's invariants. */
  lemma ReplaceAccount(accts: map<Id, SavingsAccount>, id: Id, a: SavingsAccount)
    requires AllSound(accts) && OneAccountPerMember(accts)
    requires id in accts && Sound(a) && a.memberId == accts[id].memberId
    ensures AllSound(accts[id := a]) && OneAccountPerMember(accts[id := a])
  {
    var b := accts[id := a];
    forall i, j | i in b && j in b && b[i].memberId == b[j].memberId ensures i == j {
      assert accts[i].memberId == b[i].memberId && accts[j].memberId == b[j].memberId;
    }
  }

  /** The account after a deposit of `amount`. */
  function Deposited(a: SavingsAccount, amount: real): SavingsAccount
  {
    a.(balance := a.balance + amount, totalDeposits := a.totalDeposits + amount)
  }

  /** The account after a withdrawal of `amount`. */
  function Withdrawn(a: SavingsAccount, amount: real): SavingsAccount
  {
    a.(balance := a.balance - amount, totalWithdrawals := a.totalWithdrawals + amount)
  }

  /** The first guard of `DepositAsync` that fails, if any. */
  function DepositCheck(accts: map<Id, SavingsAccount>, accountId: Id, amount: real): Option<Error>
  {
    if amount <= 0.0 then Some(RuleViolation("Deposit amount must be greater than zero"))
    else if accountId !in accts then Some(NotFound("Savings account"))
    else if !accts[accountId].isActive then Some(RuleViolation("Savings account is not active"))
    else None
  }

  /** The first guard of `WithdrawAsync` that fails, if any. */
  function WithdrawCheck(accts: map<Id, SavingsAccount>, accountId: Id, amount: real): Option<Error>
  {
    if amount <= 0.0 then Some(RuleViolation("Withdrawal amount must be greater than zero"))
    else if accountId !in accts then Some(NotFound("Savings account"))
    else if !accts[accountId].isActive then Some(RuleViolation("Savings account is not active"))
    else if accts[accountId].balance < amount then Some(RuleViolation("Insufficient balance"))
    else None
  }

  /** A deposit that passes the guards keeps the account sound and raises the balance by the amount. */
  lemma DepositKeepsSound(a: SavingsAccount, amount: real)
    requires Sound(a) && amount > 0.0
    ensures Sound(Deposited(a, amount))
    ensures Deposited(a, amount).balance == a.balance + amount
    ensures Deposited(a, amount).totalWithdrawals == a.totalWithdrawals
  {
  }

  /** A withdrawal that passes the guards keeps the account sound; the balance never goes negative. */
  lemma WithdrawKeepsSound(a: SavingsAccount, amount: real)
    requires Sound(a) && amount > 0.0 && a.balance >= amount
    ensures Sound(Withdrawn(a, amount))
    ensures Withdrawn(a, amount).balance == a.balance - amount
    ensures Withdrawn(a, amount).totalDeposits == a.totalDeposits
  {
  }

  /** Withdrawing what was just deposited restores the balance, while both totals grow. */
  lemma DepositThenWithdraw(a: SavingsAccount, amount: real)
    requires Sound(a) && amount > 0.0
    ensures WithdrawCheck(map[0 := Deposited(a, amount)], 0, amount) == (if a.isActive then None else Some(RuleViolation("Savings account is not active")))
    ensures Withdrawn(Deposited(a, amount), amount).balance == a.balance
    ensures Withdrawn(Deposited(a, amount), amount).totalDeposits == a.totalDeposits + amount
    ensures Withdrawn(Deposited(a, amount), amount).totalWithdrawals == a.totalWithdrawals + amount
  {
  }

  /** Requesting more than the balance is refused, for instance 150 from 100. */
  lemma OverdraftRefused(accts: map<Id, SavingsAccount>, accountId: Id, amount: real)
    requires accountId in accts && accts[accountId].isActive && amount > 0.0
    ensures WithdrawCheck(accts, accountId, amount) == None <==> accts[accountId].balance >= amount
    ensures accts[accountId].balance < amount ==> WithdrawCheck(accts, accountId, amount) == Some(RuleViolation("Insufficient balance"))
  {
  }

  lemma OverdraftExample()
    ensures WithdrawCheck(map[7 := SavingsAccount("SAV-26-000001", 1, 100.0, 100.0, 0.0, true, 0.0)], 7, 150.0)
            == Some(RuleViolation("Insufficient balance"))
  {
  }

  /** A deposit moves cash and the savings liability up by the amount, and nothing else. */
  lemma DepositLedger(amount: real, code: string)
    ensures LegsDelta(SavingsLegs("Deposit", amount), code)
            == if code == CashCode || code == SavingsLiabilityCode then amount else 0.0
  {
    assert SavingsLegs("Deposit", amount)[..0] == [];
  }

  /** A withdrawal moves cash and the savings liability down by the amount, and nothing else. */
  lemma WithdrawalLedger(amount: real, code: string)
    ensures LegsDelta(SavingsLegs("Withdrawal", amount), code)
            == if code == CashCode || code == SavingsLiabilityCode then -amount else 0.0
  {
    assert SavingsLegs("Withdrawal", amount)[..0] == [];
  }

  class SavingsService {
    const db: Database
    const accounting: AccountingService

    constructor (db: Database, accounting: AccountingService)
      requires accounting.db == db
      ensures this.db == db && this.accounting == accounting
    {
      this.db := db;
      this.accounting := accounting;
    }

    /** The ledger is consistent and every savings account is sound. */
    ghost predicate Valid()
      reads this, db, accounting, accounting.db
    {
      && accounting.db == db
      && accounting.Valid()
      && AllSound(db.savingsAccounts)
      && OneAccountPerMember(db.savingsAccounts)
    }

    /** `GenerateAccountNumberAsync`: "SAV-", the year, and the count of accounts plus one in at least six digits. */
    function GenerateAccountNumber(yy: string): (number: string)
      reads db
      ensures Codes.ReadsBack(number, "SAV-" + yy + "-", |db.savingsAccounts| + 1, 6)
    {
      Codes.CodeReadsBack("SAV-" + yy + "-", |db.savingsAccounts| + 1, 6);
      Codes.AccountNumber(yy, |db.savingsAccounts|)
    }

    /** `GetBalanceAsync`: the balance of the account, or 0 for an unknown one. */
    function GetBalance(accountId: Id): (r: real)
      reads db
      ensures accountId !in db.savingsAccounts ==> r == 0.0
      ensures AllSound(db.savingsAccounts) ==> r >= 0.0
    {
      if accountId in db.savingsAccounts then db.savingsAccounts[accountId].balance else 0.0
    }

    /**
     * `CreateSavingsAccountAsync`: refuses a member who already has an
     * account; otherwise opens one at zero. A member id with no member row
     * fails the save, and nothing is stored.
     */
    method CreateSavingsAccount(memberId: Id, now: Date, yy: string) returns (r: Result<Id>)
      requires Valid()
      modifies db`savingsAccounts, db`nextId, db`savedTransactions
      ensures Valid()
      ensures r.Err? <==>
        (exists k :: k in old(db.savingsAccounts) && old(db.savingsAccounts)[k].memberId == memberId) || memberId !in old(db.members)
      ensures (exists k :: k in old(db.savingsAccounts) && old(db.savingsAccounts)[k].memberId == memberId) ==>
        r == Err(RuleViolation("Member already has a savings account"))
      ensures r.Err? && r != Err(RuleViolation("Member already has a savings account")) ==>
        r == Err(ForeignKey("Member")) && memberId !in old(db.members)
      ensures r.Err? ==> unchanged(db)
      ensures r.Ok? ==>
        && r.value !in old(db.savingsAccounts)
        && db.savingsAccounts == old(db.savingsAccounts)[r.value :=
             SavingsAccount(Codes.AccountNumber(yy, |old(db.savingsAccounts)|), memberId, 0.0, 0.0, 0.0, true, now)]
    {
      if exists k :: k in db.savingsAccounts && db.savingsAccounts[k].memberId == memberId {
        return Err(RuleViolation("Member already has a savings account"));
      }
      var number := GenerateAccountNumber(yy);
      if memberId !in db.members {
        return Err(ForeignKey("Member"));
      }
      var id := db.NewId();
      db.savingsAccounts := db.savingsAccounts[id := SavingsAccount(number, memberId, 0.0, 0.0, 0.0, true, now)];
      db.SaveChanges();
      r := Ok(id);
    }

    /**
     * The block `DepositAsync` and `WithdrawAsync` share once the guards have
     * passed: store the updated account, append the movement, save, post it.
     */
    method ApplyMovement(account: SavingsAccount, st: SavingsTransaction, now: Date, yy: string)
      requires Valid() && Sound(account) && st.savingsAccountId in db.savingsAccounts
      requires account.memberId == db.savingsAccounts[st.savingsAccountId].memberId
      modifies db`savingsAccounts, db`savingsTransactions, db`savedTransactions
      modifies accounting`accountCache, db`ledgerAccounts, db`nextId, db`transactions
      ensures Valid()
      ensures db.savingsAccounts == old(db.savingsAccounts)[st.savingsAccountId := account]
      ensures db.savingsTransactions == old(db.savingsTransactions) + [st]
      ensures forall c {:trigger BalanceOf(db.ledgerAccounts, c)} ::
        BalanceOf(db.ledgerAccounts, c) == BalanceOf(old(db.ledgerAccounts), c) + LegsDelta(SavingsLegs(st.transactionType, st.amount), c)
      ensures Posted(old(db.transactions), db.transactions, SavingsLegs(st.transactionType, st.amount), accounting.accountCache)
      ensures Stamped(db.transactions, |old(db.transactions)|, now, st.processedBy, None, None)
      ensures db.transactions[|old(db.transactions)|].transactionCode == Codes.TransactionCode(yy, |old(db.transactions)|)
    {
      ReplaceAccount(db.savingsAccounts, st.savingsAccountId, account);
      db.savingsAccounts := db.savingsAccounts[st.savingsAccountId := account];
      db.savingsTransactions := db.savingsTransactions + [st];
      db.SaveChanges();
      accounting.RecordSavingsTransaction(st, st.processedBy, now, yy);
    }

    /** `DepositAsync`: the guards, the account update, the movement record and its posting. */
    method Deposit(accountId: Id, amount: real, processedBy: Id, remarks: Option<string>, now: Date, yy: string)
      returns (r: Result<SavingsTransaction>)
      requires Valid()
      modifies db`savingsAccounts, db`savingsTransactions, db`savedTransactions
      modifies accounting`accountCache, db`ledgerAccounts, db`nextId, db`transactions
      ensures Valid()
      ensures r.Err? <==> DepositCheck(old(db.savingsAccounts), accountId, amount).Some?
      ensures r.Err? ==> r.error == DepositCheck(old(db.savingsAccounts), accountId, amount).value && unchanged(db, accounting)
      ensures r.Ok? ==>
        && db.savingsAccounts == old(db.savingsAccounts)[accountId := Deposited(old(db.savingsAccounts[accountId]), amount)]
        && r.value == SavingsTransaction(accountId, "Deposit", amount, db.savingsAccounts[accountId].balance, now, processedBy, remarks)
        && db.savingsTransactions == old(db.savingsTransactions) + [r.value]
        && GetBalance(accountId) == old(GetBalance(accountId)) + amount
        && (forall c {:trigger BalanceOf(db.ledgerAccounts, c)} ::
              BalanceOf(db.ledgerAccounts, c) == BalanceOf(old(db.ledgerAccounts), c) + LegsDelta(SavingsLegs("Deposit", amount), c))
        && Posted(old(db.transactions), db.transactions, SavingsLegs("Deposit", amount), accounting.accountCache)
        && Stamped(db.transactions, |old(db.transactions)|, now, processedBy, None, None)
        && db.transactions[|old(db.transactions)|].transactionCode == Codes.TransactionCode(yy, |old(db.transactions)|)
    {
      if amount <= 0.0 {
        return Err(RuleViolation("Deposit amount must be greater than zero"));
      }
      if accountId !in db.savingsAccounts {
        return Err(NotFound("Savings account"));
      }
      var account := db.savingsAccounts[accountId];
      if !account.isActive {
        return Err(RuleViolation("Savings account is not active"));
      }
      DepositKeepsSound(account, amount);
      account := Deposited(account, amount);
      var st := SavingsTransaction(accountId, "Deposit", amount, account.balance, now, processedBy, remarks);
      ApplyMovement(account, st, now, yy);
      r := Ok(st);
    }

    /** `WithdrawAsync`: as a deposit, with the balance check, in the other direction. */
    method Withdraw(accountId: Id, amount: real, processedBy: Id, remarks: Option<string>, now: Date, yy: string)
      returns (r: Result<SavingsTransaction>)
      requires Valid()
      modifies db`savingsAccounts, db`savingsTransactions, db`savedTransactions
      modifies accounting`accountCache, db`ledgerAccounts, db`nextId, db`transactions
      ensures Valid()
      ensures r.Err? <==> WithdrawCheck(old(db.savingsAccounts), accountId, amount).Some?
      ensures r.Err? ==> r.error == WithdrawCheck(old(db.savingsAccounts), accountId, amount).value && unchanged(db, accounting)
      ensures r.Ok? ==>
        && db.savingsAccounts == old(db.savingsAccounts)[accountId := Withdrawn(old(db.savingsAccounts[accountId]), amount)]
        && r.value == SavingsTransaction(accountId, "Withdrawal", amount, db.savingsAccounts[accountId].balance, now, processedBy, remarks)
        && db.savingsTransactions == old(db.savingsTransactions) + [r.value]
        && GetBalance(accountId) == old(GetBalance(accountId)) - amount
        && (forall c {:trigger BalanceOf(db.ledgerAccounts, c)} ::
              BalanceOf(db.ledgerAccounts, c) == BalanceOf(old(db.ledgerAccounts), c) + LegsDelta(SavingsLegs("Withdrawal", amount), c))
        && Posted(old(db.transactions), db.transactions, SavingsLegs("Withdrawal", amount), accounting.accountCache)
        && Stamped(db.transactions, |old(db.transactions)|, now, processedBy, None, None)
        && db.transactions[|old(db.transactions)|].transactionCode == Codes.TransactionCode(yy, |old(db.transactions)|)
    {
      if amount <= 0.0 {
        return Err(RuleViolation("Withdrawal amount must be greater than zero"));
      }
      if accountId !in db.savingsAccounts {
        return Err(NotFound("Savings account"));
      }
      var account := db.savingsAccounts[accountId];
      if !account.isActive {
        return Err(RuleViolation("Savings account is not active"));
      }
      if account.balance < amount {
        return Err(RuleViolation("Insufficient balance"));
      }
      WithdrawKeepsSound(account, amount);
      account := Withdrawn(account, amount);
      var st := SavingsTransaction(accountId, "Withdrawal", amount, account.balance, now, processedBy, remarks);
      ApplyMovement(account, st, now, yy);
      r := Ok(st);
    }
  }
}
