/**
 * The double-entry ledger (AccountingService): a small chart of accounts
 * created on demand and cached by code, and the postings for loan
 * disbursement, loan repayment and savings movements.
 *
 * The reference for every posting is the natural sign convention of double
 * entry (a debit raises an asset and lowers a liability or income account, a
 * credit does the reverse) applied to the routing table of the source
 * (`DebitCode`, `CreditCode`). Each service method is proved to change the
 * balances by exactly that reference, and the reference is proved to keep
 * CASH + LOAN_RECEIVABLE = SAVINGS_LIABILITY + INTEREST_INCOME + FINE_INCOME.
 */
module Accounting {
  import opened Domain
  import opened Store
  import Codes

  const CashCode: string := "CASH"
  const LoanReceivableCode: string := "LOAN_RECEIVABLE"
  const SavingsLiabilityCode: string := "SAVINGS_LIABILITY"
  const InterestIncomeCode: string := "INTEREST_INCOME"
  const FineIncomeCode: string := "FINE_INCOME"

  predicate InChart(code: string)
  {
    code == CashCode || code == LoanReceivableCode || code == SavingsLiabilityCode || code == InterestIncomeCode || code == FineIncomeCode
  }

  /** The type each chart account is created with. */
  function ChartType(code: string): AccountType
    requires InChart(code)
  {
    if code == CashCode || code == LoanReceivableCode then Asset
    else if code == SavingsLiabilityCode then Liability
    else Income
  }

  /** Natural sign convention: the change of a balance when it is debited or credited. */
  function Effect(t: AccountType, isDebit: bool, amount: real): real
  {
    if t == Asset || t == Expense then (if isDebit then amount else -amount)
    else (if isDebit then -amount else amount)
  }

  /** The account each kind of posting debits. */
  function DebitCode(kind: TransactionType): (code: string)
    ensures InChart(code)
  {
    match kind
    case LoanDisbursement => LoanReceivableCode
    case LoanRepayment => CashCode
    case InterestIncome => CashCode
    case FineCollection => CashCode
    case SavingsDeposit => CashCode
    case SavingsWithdrawal => SavingsLiabilityCode
  }

  /** The account each kind of posting credits. */
  function CreditCode(kind: TransactionType): (code: string)
    ensures InChart(code) && code != DebitCode(kind)
  {
    match kind
    case LoanDisbursement => CashCode
    case LoanRepayment => LoanReceivableCode
    case InterestIncome => InterestIncomeCode
    case FineCollection => FineIncomeCode
    case SavingsDeposit => SavingsLiabilityCode
    case SavingsWithdrawal => CashCode
  }

  /** One posting: what kind of economic event, and how much. */
  datatype Leg = Leg(kind: TransactionType, amount: real)

  /** The change one posting makes to the balance of the account with `code`. */
  function LegDelta(leg: Leg, code: string): real
  {
    (if code == DebitCode(leg.kind) then Effect(ChartType(code), true, leg.amount) else 0.0)
    + (if code == CreditCode(leg.kind) then Effect(ChartType(code), false, leg.amount) else 0.0)
  }

  /** The change a sequence of postings makes to the balance of the account with `code`. */
  function LegsDelta(legs: seq<Leg>, code: string): real
  {
    if legs == [] then 0.0 else LegsDelta(legs[..|legs| - 1], code) + LegDelta(legs[|legs| - 1], code)
  }

  /** The postings of a disbursement: one, of the loan amount. */
  function DisbursementLegs(loanAmount: real): seq<Leg>
  {
    [Leg(LoanDisbursement, loanAmount)]
  }

  /** The posting of one repayment component: none unless it is strictly positive. */
  function Part(kind: TransactionType, amount: real): (legs: seq<Leg>)
    ensures |legs| <= 1
  {
    if amount > 0.0 then [Leg(kind, amount)] else []
  }

  /** The postings of a repayment: one per strictly positive component, principal first. */
  function RepaymentLegs(principalPaid: real, interestPaid: real, finePaid: real): (legs: seq<Leg>)
    ensures |legs| <= 3
    ensures forall k :: 0 <= k < |legs| ==> legs[k].amount > 0.0
  {
    Part(LoanRepayment, principalPaid) + Part(InterestIncome, interestPaid) + Part(FineCollection, finePaid)
  }

  /** The posting of a savings movement: "Deposit" is a deposit, any other type a withdrawal. */
  function SavingsLegs(transactionType: string, amount: real): seq<Leg>
  {
    [Leg(if transactionType == "Deposit" then SavingsDeposit else SavingsWithdrawal, amount)]
  }

  function Pos(x: real): real { if x > 0.0 then x else 0.0 }

  // ---------------------------------------------------------------------------
  // Balances by account code

  ghost predicate HasCode(accts: map<Id, LedgerAccount>, code: string)
  {
    exists id :: id in accts && accts[id].accountCode == code
  }

  ghost predicate SameCode(accts: map<Id, LedgerAccount>, i: Id, j: Id)
  {
    i in accts && j in accts && accts[i].accountCode == accts[j].accountCode
  }

  /** At most one account per code. */
  ghost predicate CodesUnique(accts: map<Id, LedgerAccount>)
  {
    forall i, j {:trigger SameCode(accts, i, j)} :: SameCode(accts, i, j) ==> i == j
  }

  /** The balance of the account with `code`, or 0 when there is none yet. */
  ghost function BalanceOf(accts: map<Id, LedgerAccount>, code: string): real
  {
    if HasCode(accts, code) then accts[AccountOf(accts, code)].balance else 0.0
  }

  /** Some account holding `code`; the one, when codes are unique (as the unique index on the code enforces). */
  ghost function AccountOf(accts: map<Id, LedgerAccount>, code: string): (id: Id)
    requires HasCode(accts, code)
    ensures id in accts && accts[id].accountCode == code
  {
    var id :| id in accts && accts[id].accountCode == code; id
  }

  /** The accounting equation. */
  ghost predicate Balanced(accts: map<Id, LedgerAccount>)
  {
    BalanceOf(accts, CashCode) + BalanceOf(accts, LoanReceivableCode)
      == BalanceOf(accts, SavingsLiabilityCode) + BalanceOf(accts, InterestIncomeCode) + BalanceOf(accts, FineIncomeCode)
  }

  /** An empty ledger satisfies the equation, so a new store starts balanced. */
  lemma EmptyLedgerBalanced()
    ensures Balanced(map[])
  {
  }

  lemma BalanceOfAt(accts: map<Id, LedgerAccount>, id: Id)
    requires CodesUnique(accts) && id in accts
    ensures BalanceOf(accts, accts[id].accountCode) == accts[id].balance
  {
    assert SameCode(accts, id, AccountOf(accts, accts[id].accountCode));
  }

  /** Replacing an account by one with the same code, or adding one with a new code, keeps codes unique. */
  lemma UpdateKeepsUnique(accts: map<Id, LedgerAccount>, id: Id, acct: LedgerAccount)
    requires CodesUnique(accts)
    requires if id in accts then acct.accountCode == accts[id].accountCode else !HasCode(accts, acct.accountCode)
    ensures CodesUnique(accts[id := acct])
  {
    var a := accts[id := acct];
    forall i, j | SameCode(a, i, j) ensures i == j {
      if i != id && j != id {
        assert SameCode(accts, i, j);
      } else if i != id {
        if id in accts { assert SameCode(accts, i, id); }
      } else if j != id {
        if id in accts { assert SameCode(accts, id, j); }
      }
    }
  }

  /** The ledger with `delta` added to the balance of account `id`. */
  function AdjustBalance(accts: map<Id, LedgerAccount>, id: Id, delta: real): map<Id, LedgerAccount>
    requires id in accts
  {
    accts[id := accts[id].(balance := accts[id].balance + delta)]
  }

  /** Changing one account's balance changes the balance of its code, and of no other code. */
  lemma {:induction false} AdjustOne(accts: map<Id, LedgerAccount>, id: Id, delta: real)
    requires CodesUnique(accts) && id in accts
    ensures CodesUnique(AdjustBalance(accts, id, delta))
    ensures forall c {:trigger BalanceOf(accts, c)} ::
      BalanceOf(AdjustBalance(accts, id, delta), c) == BalanceOf(accts, c) + (if c == accts[id].accountCode then delta else 0.0)
    ensures forall c {:trigger HasCode(accts, c)} :: HasCode(AdjustBalance(accts, id, delta), c) == HasCode(accts, c)
  {
    var a := AdjustBalance(accts, id, delta);
    UpdateKeepsUnique(accts, id, accts[id].(balance := accts[id].balance + delta));
    forall c ensures HasCode(a, c) == HasCode(accts, c) {
      if HasCode(accts, c) {
        var j :| j in accts && accts[j].accountCode == c;
        assert a[j].accountCode == c;
      }
      if HasCode(a, c) {
        var j :| j in a && a[j].accountCode == c;
        assert accts[j].accountCode == c;
      }
    }
    forall c
      ensures BalanceOf(a, c) == BalanceOf(accts, c) + (if c == accts[id].accountCode then delta else 0.0)
    {
      if c == accts[id].accountCode {
        BalanceOfAt(accts, id);
        BalanceOfAt(a, id);
      } else if HasCode(accts, c) {
        var j :| j in accts && accts[j].accountCode == c;
        BalanceOfAt(accts, j);
        BalanceOfAt(a, j);
      } else {
        assert !HasCode(a, c);
      }
    }
  }

  /** Opening an account at zero for a new code changes no balance. */
  lemma {:induction false} AddZeroAccount(accts: map<Id, LedgerAccount>, id: Id, acct: LedgerAccount)
    requires CodesUnique(accts) && id !in accts && !HasCode(accts, acct.accountCode) && acct.balance == 0.0
    ensures CodesUnique(accts[id := acct])
    ensures forall c {:trigger BalanceOf(accts, c)} :: BalanceOf(accts[id := acct], c) == BalanceOf(accts, c)
    ensures forall c {:trigger HasCode(accts, c)} :: c != acct.accountCode ==> HasCode(accts[id := acct], c) == HasCode(accts, c)
  {
    var a := accts[id := acct];
    UpdateKeepsUnique(accts, id, acct);
    forall c | c != acct.accountCode ensures HasCode(a, c) == HasCode(accts, c) {
      if HasCode(accts, c) {
        var j :| j in accts && accts[j].accountCode == c;
        assert a[j].accountCode == c;
      }
      if HasCode(a, c) {
        var j :| j in a && a[j].accountCode == c;
        assert accts[j].accountCode == c;
      }
    }
    forall c ensures BalanceOf(a, c) == BalanceOf(accts, c) {
      if c == acct.accountCode {
        BalanceOfAt(a, id);
      } else if HasCode(accts, c) {
        var j :| j in accts && accts[j].accountCode == c;
        BalanceOfAt(accts, j);
        BalanceOfAt(a, j);
      } else {
        assert !HasCode(a, c);
      }
    }
  }

  // ---------------------------------------------------------------------------
  // The reference postings keep the equation

  /** Every kind of posting moves the two sides of the equation by the same amount. */
  lemma LegNeutral(leg: Leg)
    ensures LegDelta(leg, CashCode) + LegDelta(leg, LoanReceivableCode)
      == LegDelta(leg, SavingsLiabilityCode) + LegDelta(leg, InterestIncomeCode) + LegDelta(leg, FineIncomeCode)
  {
  }

  lemma {:induction false} LegsNeutral(legs: seq<Leg>)
    ensures LegsDelta(legs, CashCode) + LegsDelta(legs, LoanReceivableCode)
      == LegsDelta(legs, SavingsLiabilityCode) + LegsDelta(legs, InterestIncomeCode) + LegsDelta(legs, FineIncomeCode)
  {
    if legs != [] {
      LegsNeutral(legs[..|legs| - 1]);
      LegNeutral(legs[|legs| - 1]);
    }
  }

  /** A ledger moved by any sequence of reference postings is balanced iff it was before. */
  lemma LegsKeepEquation(before: map<Id, LedgerAccount>, after: map<Id, LedgerAccount>, legs: seq<Leg>)
    requires forall c {:trigger BalanceOf(after, c)} :: BalanceOf(after, c) == BalanceOf(before, c) + LegsDelta(legs, c)
    ensures Balanced(after) <==> Balanced(before)
  {
    LegsNeutral(legs);
    assert BalanceOf(after, CashCode) == BalanceOf(before, CashCode) + LegsDelta(legs, CashCode);
    assert BalanceOf(after, LoanReceivableCode) == BalanceOf(before, LoanReceivableCode) + LegsDelta(legs, LoanReceivableCode);
    assert BalanceOf(after, SavingsLiabilityCode) == BalanceOf(before, SavingsLiabilityCode) + LegsDelta(legs, SavingsLiabilityCode);
    assert BalanceOf(after, InterestIncomeCode) == BalanceOf(before, InterestIncomeCode) + LegsDelta(legs, InterestIncomeCode);
    assert BalanceOf(after, FineIncomeCode) == BalanceOf(before, FineIncomeCode) + LegsDelta(legs, FineIncomeCode);
  }

  /** The cash received by a repayment is the sum of its positive components. */
  lemma RepaymentCash(p: real, i: real, f: real, code: string)
    ensures LegsDelta(RepaymentLegs(p, i, f), code) ==
      if code == CashCode then Pos(p) + Pos(i) + Pos(f)
      else if code == LoanReceivableCode then -Pos(p)
      else if code == InterestIncomeCode then Pos(i)
      else if code == FineIncomeCode then Pos(f)
      else 0.0
  {
    var lp, li, lf := Part(LoanRepayment, p), Part(InterestIncome, i), Part(FineCollection, f);
    LegsDeltaAppend(lp, li, code);
    LegsDeltaAppend(lp + li, lf, code);
    PartDelta(LoanRepayment, p, code);
    PartDelta(InterestIncome, i, code);
    PartDelta(FineCollection, f, code);
    assert LegsDelta(RepaymentLegs(p, i, f), code) == LegsDelta(lp, code) + LegsDelta(li, code) + LegsDelta(lf, code);
  }

  lemma RepaymentLegsFromEmpty(p: real, i: real, f: real)
    ensures [] + Part(LoanRepayment, p) + Part(InterestIncome, i) + Part(FineCollection, f) == RepaymentLegs(p, i, f)
  {
    assert [] + Part(LoanRepayment, p) == Part(LoanRepayment, p);
  }

  lemma PartDelta(kind: TransactionType, amount: real, code: string)
    ensures LegsDelta(Part(kind, amount), code) == if amount > 0.0 then LegDelta(Leg(kind, amount), code) else 0.0
  {
    if amount > 0.0 {
      assert Part(kind, amount)[..0] == [];
    }
  }

  lemma {:induction false} LegsDeltaAppend(xs: seq<Leg>, ys: seq<Leg>, code: string)
    ensures LegsDelta(xs + ys, code) == LegsDelta(xs, code) + LegsDelta(ys, code)
    decreases |ys|
  {
    if ys != [] {
      var init := ys[..|ys| - 1];
      assert (xs + ys)[..|xs + ys| - 1] == xs + init;
      LegsDeltaAppend(xs, init, code);
    } else {
      assert xs + ys == xs;
    }
  }

  // ---------------------------------------------------------------------------
  // The log of postings

  /**
   * Transaction `t` records posting `leg` between the accounts that `cache`
   * registers for the routing table's codes.
   */
  ghost predicate LegRecorded(t: Transaction, leg: Leg, cache: map<string, Id>)
  {
    && t.transactionType == leg.kind
    && t.amount == leg.amount
    && DebitCode(leg.kind) in cache && t.debitAccountId == cache[DebitCode(leg.kind)]
    && CreditCode(leg.kind) in cache && t.creditAccountId == cache[CreditCode(leg.kind)]
  }

  /** `after` is `before` with one transaction appended per leg, in order. */
  ghost predicate Posted(before: seq<Transaction>, after: seq<Transaction>, legs: seq<Leg>, cache: map<string, Id>)
  {
    && |after| == |before| + |legs|
    && after[..|before|] == before
    && forall k :: 0 <= k < |legs| ==> LegRecorded(after[|before| + k], legs[k], cache)
  }

  /** Every transaction appended after `start` carries this date, author, loan and payment. */
  ghost predicate Stamped(ts: seq<Transaction>, start: nat, now: Date, userId: Id, loanId: Option<Id>, paymentId: Option<Id>)
  {
    forall k :: start <= k < |ts| ==>
      ts[k].transactionDate == now && ts[k].createdBy == userId && ts[k].loanId == loanId && ts[k].paymentId == paymentId
  }

  /** The cache only gains entries. */
  ghost predicate CacheGrows(before: map<string, Id>, after: map<string, Id>)
  {
    forall c :: c in before ==> c in after && after[c] == before[c]
  }

  lemma LegsDeltaSnoc(legs: seq<Leg>, leg: Leg)
    ensures forall c {:trigger LegsDelta(legs + [leg], c)} :: LegsDelta(legs + [leg], c) == LegsDelta(legs, c) + LegDelta(leg, c)
  {
    assert (legs + [leg])[..|legs|] == legs;
  }

  /** Appending the record of one more leg extends a posting log. */
  lemma StampedSnoc(ts: seq<Transaction>, start: nat, t: Transaction, now: Date, userId: Id, loanId: Option<Id>, paymentId: Option<Id>)
    requires start <= |ts| && Stamped(ts, start, now, userId, loanId, paymentId)
    requires t.transactionDate == now && t.createdBy == userId && t.loanId == loanId && t.paymentId == paymentId
    ensures Stamped(ts + [t], start, now, userId, loanId, paymentId)
  {
    forall k | start <= k < |ts + [t]|
      ensures (ts + [t])[k].transactionDate == now && (ts + [t])[k].createdBy == userId
      ensures (ts + [t])[k].loanId == loanId && (ts + [t])[k].paymentId == paymentId
    {
      if k < |ts| { assert (ts + [t])[k] == ts[k]; }
    }
  }

  lemma CacheGrowsTrans(a: map<string, Id>, b: map<string, Id>, c: map<string, Id>)
    requires CacheGrows(a, b) && CacheGrows(b, c)
    ensures CacheGrows(a, c)
  {
  }

  lemma PostedSnoc(before: seq<Transaction>, mid: seq<Transaction>, legs: seq<Leg>, t: Transaction, leg: Leg,
                   a: map<string, Id>, b: map<string, Id>)
    requires Posted(before, mid, legs, a) && CacheGrows(a, b) && LegRecorded(t, leg, b)
    ensures Posted(before, mid + [t], legs + [leg], b)
  {
    forall k | 0 <= k < |legs| ensures LegRecorded((mid + [t])[|before| + k], (legs + [leg])[k], b) {
      assert LegRecorded(mid[|before| + k], legs[k], a);
    }
  }

  lemma PostedGrow(before: seq<Transaction>, after: seq<Transaction>, legs: seq<Leg>, a: map<string, Id>, b: map<string, Id>)
    requires Posted(before, after, legs, a) && CacheGrows(a, b)
    ensures Posted(before, after, legs, b)
  {
    forall k | 0 <= k < |legs| ensures LegRecorded(after[|before| + k], legs[k], b) {
      assert LegRecorded(after[|before| + k], legs[k], a);
    }
  }

  /**
   * What a repayment has done so far, from ledger `accts0`, log `ts0` and
   * cache `cache0` to `accts`, `ts` and `cache`: the postings `legs` are
   * logged in order and stamped, and have moved the balances by exactly
   * their reference amounts; each logged code counts the transactions saved
   * when it was generated.
   */
  ghost predicate RepaymentProgress(accts0: map<Id, LedgerAccount>, ts0: seq<Transaction>, cache0: map<string, Id>,
                                    legs: seq<Leg>, yy: string, now: Date, userId: Id, loanId: Id, paymentId: Id,
                                    fineOpened: bool, accts: map<Id, LedgerAccount>, ts: seq<Transaction>, cache: map<string, Id>)
  {
    && CacheGrows(cache0, cache)
    && Posted(ts0, ts, legs, cache)
    && Stamped(ts, |ts0|, now, userId, Some(loanId), Some(paymentId))
    && (forall c {:trigger BalanceOf(accts, c)} :: BalanceOf(accts, c) == BalanceOf(accts0, c) + LegsDelta(legs, c))
    && (forall k :: |ts0| <= k < |ts| ==>
          ts[k].transactionCode == Codes.TransactionCode(yy, if ts[k].transactionType == FineCollection && fineOpened then k else |ts0|))
  }

  /** A repayment whose three blocks are done has posted its reference legs and kept the equation. */
  lemma RepaymentDone(accts0: map<Id, LedgerAccount>, ts0: seq<Transaction>, cache0: map<string, Id>,
                      p: real, i: real, f: real, yy: string, now: Date, userId: Id, loanId: Id, paymentId: Id,
                      fineOpened: bool, accts: map<Id, LedgerAccount>, ts: seq<Transaction>, cache: map<string, Id>)
    requires RepaymentProgress(accts0, ts0, cache0, [] + Part(LoanRepayment, p) + Part(InterestIncome, i) + Part(FineCollection, f),
                               yy, now, userId, loanId, paymentId, fineOpened, accts, ts, cache)
    ensures RepaymentProgress(accts0, ts0, cache0, RepaymentLegs(p, i, f), yy, now, userId, loanId, paymentId, fineOpened, accts, ts, cache)
    ensures Balanced(accts) <==> Balanced(accts0)
  {
    RepaymentLegsFromEmpty(p, i, f);
    LegsKeepEquation(accts0, accts, RepaymentLegs(p, i, f));
  }

  class AccountingService {
    const db: Database
    /** `_accountCache`: account code to account identity. */
    var accountCache: map<string, Id>

    constructor (db: Database)
      ensures this.db == db && accountCache == map[]
    {
      this.db := db;
      accountCache := map[];
    }

    /** The store is sound, codes are unique and the cache points at the account of each code. */
    ghost predicate Consistent()
      reads this, db
    {
      && db.Valid()
      && CodesUnique(db.ledgerAccounts)
      && forall c :: c in accountCache ==>
           accountCache[c] in db.ledgerAccounts && db.ledgerAccounts[accountCache[c]].accountCode == c
    }

    /** Consistent, every transaction saved, and the ledger balanced. */
    ghost predicate Valid()
      reads this, db
    {
      Consistent() && db.savedTransactions == |db.transactions| && Balanced(db.ledgerAccounts)
    }

    /**
     * `GenerateTransactionCodeAsync`: "TXN-", the year, and the count of saved
     * transactions (unsaved ones are not seen) plus one in at least seven digits.
     */
    function GenerateTransactionCode(yy: string): (code: string)
      reads db
      ensures Codes.ReadsBack(code, "TXN-" + yy + "-", db.savedTransactions + 1, 7)
    {
      Codes.CodeReadsBack("TXN-" + yy + "-", db.savedTransactions + 1, 7);
      Codes.TransactionCode(yy, db.savedTransactions)
    }

    /** `GetOrCreateLedgerAccountAsync`: the cached account, else the account with the code, else a new one. */
    method GetOrCreateLedgerAccount(code: string, name: string, accountType: AccountType) returns (id: Id)
      requires Consistent()
      modifies this`accountCache, db`ledgerAccounts, db`nextId, db`savedTransactions
      ensures Consistent()
      ensures id in db.ledgerAccounts && db.ledgerAccounts[id].accountCode == code
      ensures accountCache == old(accountCache)[code := id] && CacheGrows(old(accountCache), accountCache)
      ensures forall c {:trigger BalanceOf(db.ledgerAccounts, c)} :: BalanceOf(db.ledgerAccounts, c) == BalanceOf(old(db.ledgerAccounts), c)
      ensures forall c {:trigger HasCode(db.ledgerAccounts, c)} :: c != code ==> HasCode(db.ledgerAccounts, c) == HasCode(old(db.ledgerAccounts), c)
      ensures HasCode(old(db.ledgerAccounts), code) ==>
        && id in old(db.ledgerAccounts)
        && db.ledgerAccounts == old(db.ledgerAccounts)
        && db.savedTransactions == old(db.savedTransactions)
      ensures !HasCode(old(db.ledgerAccounts), code) ==>
        && id !in old(db.ledgerAccounts)
        && db.ledgerAccounts == old(db.ledgerAccounts)[id := LedgerAccount(code, name, accountType, 0.0, true)]
        && db.savedTransactions == |db.transactions|
    {
      if code in accountCache && accountCache[code] in db.ledgerAccounts {
        id := accountCache[code];
        return;
      }
      if exists k :: k in db.ledgerAccounts && db.ledgerAccounts[k].accountCode == code {
        id :| id in db.ledgerAccounts && db.ledgerAccounts[id].accountCode == code;
      } else {
        id := db.NewId();
        var account := LedgerAccount(code, name, accountType, 0.0, true);
        AddZeroAccount(db.ledgerAccounts, id, account);
        db.ledgerAccounts := db.ledgerAccounts[id := account];
        db.SaveChanges();
      }
      accountCache := accountCache[code := id];
    }

    /** `SaveChangesAsync` on the shared store, seen from the ledger. */
    method SaveChanges()
      requires Consistent() && Balanced(db.ledgerAccounts)
      modifies db`savedTransactions
      ensures Valid()
    {
      db.SaveChanges();
    }

    /** Two `GetOrCreateLedgerAccountAsync` calls in a row: every balance, and the log, is as before. */
    method OpenPair(code1: string, name1: string, type1: AccountType, code2: string, name2: string, type2: AccountType)
      returns (id1: Id, id2: Id)
      requires Valid()
      modifies this`accountCache, db`ledgerAccounts, db`nextId, db`savedTransactions
      ensures Valid() && CacheGrows(old(accountCache), accountCache)
      ensures code1 in accountCache && id1 == accountCache[code1]
      ensures code2 in accountCache && id2 == accountCache[code2]
      ensures forall c {:trigger BalanceOf(db.ledgerAccounts, c)} :: BalanceOf(db.ledgerAccounts, c) == BalanceOf(old(db.ledgerAccounts), c)
      ensures Balanced(db.ledgerAccounts) <==> Balanced(old(db.ledgerAccounts))
      ensures forall c {:trigger HasCode(db.ledgerAccounts, c)} ::
        c != code1 && c != code2 ==> HasCode(db.ledgerAccounts, c) == HasCode(old(db.ledgerAccounts), c)
    {
      ghost var cache0 := accountCache;
      id1 := GetOrCreateLedgerAccount(code1, name1, type1);
      ghost var cache1 := accountCache;
      id2 := GetOrCreateLedgerAccount(code2, name2, type2);
      CacheGrowsTrans(cache0, cache1, accountCache);
      LegsKeepEquation(old(db.ledgerAccounts), db.ledgerAccounts, []);
    }

    /** Add `delta` to the balance of one account (a tracked-entity field write). */
    method Adjust(id: Id, delta: real)
      requires Consistent() && id in db.ledgerAccounts
      modifies db`ledgerAccounts
      ensures Consistent()
      ensures db.ledgerAccounts == AdjustBalance(old(db.ledgerAccounts), id, delta)
      ensures forall c {:trigger BalanceOf(db.ledgerAccounts, c)} ::
        BalanceOf(db.ledgerAccounts, c) == BalanceOf(old(db.ledgerAccounts), c) + (if c == old(db.ledgerAccounts[id]).accountCode then delta else 0.0)
      ensures forall c {:trigger HasCode(db.ledgerAccounts, c)} :: HasCode(db.ledgerAccounts, c) == HasCode(old(db.ledgerAccounts), c)
    {
      AdjustOne(db.ledgerAccounts, id, delta);
      db.ledgerAccounts := db.ledgerAccounts[id := db.ledgerAccounts[id].(balance := db.ledgerAccounts[id].balance + delta)];
    }

    /**
     * Post one transaction between the cached accounts of its kind: move the
     * two balances by the amounts the source writes (`debitDelta`,
     * `creditDelta`), which must be those of the natural sign convention, and
     * append the transaction to the log.
     */
    method Post(t: Transaction, debitDelta: real, creditDelta: real)
      requires Consistent()
      requires DebitCode(t.transactionType) in accountCache && t.debitAccountId == accountCache[DebitCode(t.transactionType)]
      requires CreditCode(t.transactionType) in accountCache && t.creditAccountId == accountCache[CreditCode(t.transactionType)]
      requires debitDelta == Effect(ChartType(DebitCode(t.transactionType)), true, t.amount)
      requires creditDelta == Effect(ChartType(CreditCode(t.transactionType)), false, t.amount)
      modifies db`ledgerAccounts, db`transactions
      ensures Consistent()
      ensures forall c {:trigger BalanceOf(db.ledgerAccounts, c)} ::
        BalanceOf(db.ledgerAccounts, c) == BalanceOf(old(db.ledgerAccounts), c) + LegDelta(Leg(t.transactionType, t.amount), c)
      ensures forall c {:trigger HasCode(db.ledgerAccounts, c)} :: HasCode(db.ledgerAccounts, c) == HasCode(old(db.ledgerAccounts), c)
      ensures db.transactions == old(db.transactions) + [t]
    {
      Adjust(t.debitAccountId, debitDelta);
      ghost var mid := db.ledgerAccounts;
      Adjust(t.creditAccountId, creditDelta);
      db.transactions := db.transactions + [t];
      forall c ensures HasCode(db.ledgerAccounts, c) == HasCode(old(db.ledgerAccounts), c) {
        assert HasCode(mid, c) == HasCode(old(db.ledgerAccounts), c);
      }
    }

    /** `RecordLoanDisbursementAsync`: debit the receivable, credit cash, by the loan amount. */
    method RecordLoanDisbursement(loanId: Id, loan: Loan, userId: Id, now: Date, yy: string)
      requires Valid()
      modifies this`accountCache, db`ledgerAccounts, db`nextId, db`savedTransactions, db`transactions
      ensures Valid() && CacheGrows(old(accountCache), accountCache)
      ensures forall c {:trigger BalanceOf(db.ledgerAccounts, c)} ::
        BalanceOf(db.ledgerAccounts, c) == BalanceOf(old(db.ledgerAccounts), c) + LegsDelta(DisbursementLegs(loan.loanAmount), c)
      ensures Balanced(db.ledgerAccounts) <==> Balanced(old(db.ledgerAccounts))
      ensures Posted(old(db.transactions), db.transactions, DisbursementLegs(loan.loanAmount), accountCache)
      ensures Stamped(db.transactions, |old(db.transactions)|, now, userId, Some(loanId), None)
      ensures db.transactions[|old(db.transactions)|].transactionCode == Codes.TransactionCode(yy, |old(db.transactions)|)
    {
      var receivable, cash := OpenPair(LoanReceivableCode, "Loan Receivable", Asset, CashCode, "Cash", Asset);
      PostAndSave(LoanDisbursement, loan.loanAmount, receivable, cash, loan.loanAmount, -loan.loanAmount,
                  Some(loanId), None, userId, now, yy);
    }

    /**
     * The block shared by the single-posting operations: one transaction of
     * `kind` between the cached accounts of its codes, the two balance writes
     * (`debitDelta`, `creditDelta`, which must be those of the natural sign
     * convention) and `SaveChangesAsync`.
     */
    method PostAndSave(kind: TransactionType, amount: real, debitId: Id, creditId: Id, debitDelta: real, creditDelta: real,
                       loanId: Option<Id>, paymentId: Option<Id>, userId: Id, now: Date, yy: string)
      requires Consistent() && db.savedTransactions == |db.transactions| && Balanced(db.ledgerAccounts)
      requires DebitCode(kind) in accountCache && debitId == accountCache[DebitCode(kind)]
      requires CreditCode(kind) in accountCache && creditId == accountCache[CreditCode(kind)]
      requires debitDelta == Effect(ChartType(DebitCode(kind)), true, amount)
      requires creditDelta == Effect(ChartType(CreditCode(kind)), false, amount)
      modifies db`ledgerAccounts, db`savedTransactions, db`transactions
      ensures Valid()
      ensures forall c {:trigger BalanceOf(db.ledgerAccounts, c)} ::
        BalanceOf(db.ledgerAccounts, c) == BalanceOf(old(db.ledgerAccounts), c) + LegsDelta([Leg(kind, amount)], c)
      ensures Balanced(db.ledgerAccounts) <==> Balanced(old(db.ledgerAccounts))
      ensures Posted(old(db.transactions), db.transactions, [Leg(kind, amount)], accountCache)
      ensures Stamped(db.transactions, |old(db.transactions)|, now, userId, loanId, paymentId)
      ensures db.transactions[|old(db.transactions)|].transactionCode == Codes.TransactionCode(yy, |old(db.transactions)|)
    {
      ghost var accts0, ts0 := db.ledgerAccounts, db.transactions;
      var t := Transaction(GenerateTransactionCode(yy), now, kind, debitId, creditId, amount, loanId, paymentId, userId);
      Post(t, debitDelta, creditDelta);
      LegsDeltaSnoc([], Leg(kind, amount));
      LegsKeepEquation(accts0, db.ledgerAccounts, [Leg(kind, amount)]);
      SaveChanges();
      PostedSnoc(ts0, ts0, [], t, Leg(kind, amount), accountCache, accountCache);
      StampedSnoc(ts0, |ts0|, t, now, userId, loanId, paymentId);
    }

    /**
     * `RecordLoanRepaymentAsync`: one posting per positive component, principal
     * then interest then fine. The code of each posting counts saved
     * transactions only, so all share the code of the first unless the fine
     * income account had to be opened (opening saves).
     */
    method RecordLoanRepayment(paymentId: Id, payment: Payment, userId: Id, now: Date, yy: string)
      requires Valid()
      modifies this`accountCache, db`ledgerAccounts, db`nextId, db`savedTransactions, db`transactions
      ensures Valid() && CacheGrows(old(accountCache), accountCache)
      ensures forall c {:trigger BalanceOf(db.ledgerAccounts, c)} ::
        BalanceOf(db.ledgerAccounts, c)
          == BalanceOf(old(db.ledgerAccounts), c) + LegsDelta(RepaymentLegs(payment.principalPaid, payment.interestPaid, payment.finePaid), c)
      ensures Balanced(db.ledgerAccounts) <==> Balanced(old(db.ledgerAccounts))
      ensures Posted(old(db.transactions), db.transactions,
                     RepaymentLegs(payment.principalPaid, payment.interestPaid, payment.finePaid), accountCache)
      ensures Stamped(db.transactions, |old(db.transactions)|, now, userId, Some(payment.loanId), Some(paymentId))
      ensures forall k :: |old(db.transactions)| <= k < |db.transactions| ==>
        db.transactions[k].transactionCode == Codes.TransactionCode(yy,
          if db.transactions[k].transactionType == FineCollection && !HasCode(old(db.ledgerAccounts), FineIncomeCode)
          then k else |old(db.transactions)|)
    {
      ghost var accts0, cache0, ts0 := db.ledgerAccounts, accountCache, db.transactions;
      ghost var fineOpened := !HasCode(db.ledgerAccounts, FineIncomeCode);
      var cash, receivable, interest := OpenRepaymentAccounts(yy, now, userId, payment.loanId, paymentId, fineOpened);
      PostRepaymentBlocks(payment.principalPaid, payment.interestPaid, payment.finePaid, cash, receivable, interest,
                          userId, now, yy, payment.loanId, paymentId, accts0, ts0, cache0, fineOpened);
      RepaymentDone(accts0, ts0, cache0, payment.principalPaid, payment.interestPaid, payment.finePaid, yy, now, userId,
                    payment.loanId, paymentId, fineOpened, db.ledgerAccounts, db.transactions, accountCache);
      SaveChanges();
    }

    /** The three posting blocks of `RecordLoanRepaymentAsync`: principal, interest, fine. */
    method PostRepaymentBlocks(principal: real, interest: real, fine: real, cashId: Id, receivableId: Id, interestId: Id,
                               userId: Id, now: Date, yy: string, loanId: Id, paymentId: Id,
                               ghost accts0: map<Id, LedgerAccount>, ghost ts0: seq<Transaction>, ghost cache0: map<string, Id>,
                               ghost fineOpened: bool)
      requires Consistent()
      requires RepaymentProgress(accts0, ts0, cache0, [], yy, now, userId, loanId, paymentId, fineOpened,
                                 db.ledgerAccounts, db.transactions, accountCache)
      requires db.savedTransactions == |ts0| && fineOpened == !HasCode(db.ledgerAccounts, FineIncomeCode)
      requires CashCode in accountCache && cashId == accountCache[CashCode]
      requires LoanReceivableCode in accountCache && receivableId == accountCache[LoanReceivableCode]
      requires InterestIncomeCode in accountCache && interestId == accountCache[InterestIncomeCode]
      modifies this`accountCache, db`ledgerAccounts, db`nextId, db`savedTransactions, db`transactions
      ensures Consistent()
      ensures RepaymentProgress(accts0, ts0, cache0, [] + Part(LoanRepayment, principal) + Part(InterestIncome, interest) + Part(FineCollection, fine),
                                yy, now, userId, loanId, paymentId, fineOpened, db.ledgerAccounts, db.transactions, accountCache)
    {
      ghost var legs: seq<Leg> := [];
      PostRepaymentPart(LoanRepayment, principal, principal, -principal, cashId, receivableId,
                        userId, now, yy, loanId, paymentId, accts0, ts0, cache0, legs, fineOpened);
      legs := legs + Part(LoanRepayment, principal);
      PostRepaymentPart(InterestIncome, interest, interest, interest, cashId, interestId,
                        userId, now, yy, loanId, paymentId, accts0, ts0, cache0, legs, fineOpened);
      legs := legs + Part(InterestIncome, interest);
      PostFinePart(fine, cashId, userId, now, yy, loanId, paymentId, accts0, ts0, cache0, legs, fineOpened);
    }

    /** The first block of `RecordLoanRepaymentAsync`: the cash, receivable and interest income accounts. */
    method OpenRepaymentAccounts(yy: string, now: Date, userId: Id, loanId: Id, paymentId: Id, ghost fineOpened: bool)
      returns (cash: Id, receivable: Id, interest: Id)
      requires Valid() && fineOpened == !HasCode(db.ledgerAccounts, FineIncomeCode)
      modifies this`accountCache, db`ledgerAccounts, db`nextId, db`savedTransactions
      ensures Consistent()
      ensures RepaymentProgress(old(db.ledgerAccounts), db.transactions, old(accountCache), [], yy, now, userId, loanId, paymentId, fineOpened,
                                db.ledgerAccounts, db.transactions, accountCache)
      ensures db.savedTransactions == |db.transactions|
      ensures fineOpened == !HasCode(db.ledgerAccounts, FineIncomeCode)
      ensures CashCode in accountCache && cash == accountCache[CashCode]
      ensures LoanReceivableCode in accountCache && receivable == accountCache[LoanReceivableCode]
      ensures InterestIncomeCode in accountCache && interest == accountCache[InterestIncomeCode]
    {
      ghost var cache0 := accountCache;
      cash, receivable := OpenPair(CashCode, "Cash", Asset, LoanReceivableCode, "Loan Receivable", Asset);
      ghost var cache1 := accountCache;
      interest := GetOrCreateLedgerAccount(InterestIncomeCode, "Interest Income", Income);
      CacheGrowsTrans(cache0, cache1, accountCache);
    }

    /** The fine block of `RecordLoanRepaymentAsync`: open the fine income account and post, when the fine is positive. */
    method PostFinePart(amount: real, cash: Id, userId: Id, now: Date, yy: string, loanId: Id, paymentId: Id,
                        ghost accts0: map<Id, LedgerAccount>, ghost ts0: seq<Transaction>, ghost cache0: map<string, Id>,
                        ghost legs: seq<Leg>, ghost fineOpened: bool)
      requires Consistent()
      requires RepaymentProgress(accts0, ts0, cache0, legs, yy, now, userId, loanId, paymentId, fineOpened,
                                db.ledgerAccounts, db.transactions, accountCache)
      requires CashCode in accountCache && cash == accountCache[CashCode]
      requires db.savedTransactions == |ts0| && fineOpened == !HasCode(db.ledgerAccounts, FineIncomeCode)
      modifies this`accountCache, db`ledgerAccounts, db`nextId, db`savedTransactions, db`transactions
      ensures Consistent()
      ensures RepaymentProgress(accts0, ts0, cache0, legs + Part(FineCollection, amount), yy, now, userId, loanId, paymentId, fineOpened,
                                db.ledgerAccounts, db.transactions, accountCache)
    {
      if amount > 0.0 {
        ghost var cache1 := accountCache;
        var fine := GetOrCreateLedgerAccount(FineIncomeCode, "Fine Income", Income);
        CacheGrowsTrans(cache0, cache1, accountCache);
        PostedGrow(ts0, db.transactions, legs, cache1, accountCache);
        PostRepaymentPart(FineCollection, amount, amount, amount, cash, fine,
                          userId, now, yy, loanId, paymentId, accts0, ts0, cache0, legs, fineOpened);
      } else {
        assert legs + Part(FineCollection, amount) == legs;
      }
    }

    /**
     * One block of `RecordLoanRepaymentAsync`: when `amount` is positive, post
     * it between the cached accounts of `kind`, moving their balances by the
     * deltas the source writes.
     */
    method PostRepaymentPart(kind: TransactionType, amount: real, debitDelta: real, creditDelta: real,
                             debitId: Id, creditId: Id, userId: Id, now: Date, yy: string, loanId: Id, paymentId: Id,
                             ghost accts0: map<Id, LedgerAccount>, ghost ts0: seq<Transaction>, ghost cache0: map<string, Id>,
                             ghost legs: seq<Leg>, ghost fineOpened: bool)
      requires Consistent()
      requires RepaymentProgress(accts0, ts0, cache0, legs, yy, now, userId, loanId, paymentId, fineOpened,
                                db.ledgerAccounts, db.transactions, accountCache)
      requires DebitCode(kind) in accountCache && debitId == accountCache[DebitCode(kind)]
      requires CreditCode(kind) in accountCache && creditId == accountCache[CreditCode(kind)]
      requires debitDelta == Effect(ChartType(DebitCode(kind)), true, amount)
      requires creditDelta == Effect(ChartType(CreditCode(kind)), false, amount)
      requires db.savedTransactions == if kind == FineCollection && fineOpened then |db.transactions| else |ts0|
      modifies db`ledgerAccounts, db`transactions
      ensures Consistent()
      ensures RepaymentProgress(accts0, ts0, cache0, legs + Part(kind, amount), yy, now, userId, loanId, paymentId, fineOpened,
                                db.ledgerAccounts, db.transactions, accountCache)
      ensures HasCode(db.ledgerAccounts, FineIncomeCode) == HasCode(old(db.ledgerAccounts), FineIncomeCode)
    {
      if amount > 0.0 {
        PostRepaymentLeg(kind, amount, debitDelta, creditDelta, debitId, creditId, userId, now, yy, loanId, paymentId,
                         accts0, ts0, cache0, legs, fineOpened);
      } else {
        assert legs + Part(kind, amount) == legs;
      }
    }

    /** The posting of one positive block of `RecordLoanRepaymentAsync`. */
    method PostRepaymentLeg(kind: TransactionType, amount: real, debitDelta: real, creditDelta: real,
                            debitId: Id, creditId: Id, userId: Id, now: Date, yy: string, loanId: Id, paymentId: Id,
                            ghost accts0: map<Id, LedgerAccount>, ghost ts0: seq<Transaction>, ghost cache0: map<string, Id>,
                            ghost legs: seq<Leg>, ghost fineOpened: bool)
      requires amount > 0.0
      requires Consistent()
      requires RepaymentProgress(accts0, ts0, cache0, legs, yy, now, userId, loanId, paymentId, fineOpened,
                                db.ledgerAccounts, db.transactions, accountCache)
      requires DebitCode(kind) in accountCache && debitId == accountCache[DebitCode(kind)]
      requires CreditCode(kind) in accountCache && creditId == accountCache[CreditCode(kind)]
      requires debitDelta == Effect(ChartType(DebitCode(kind)), true, amount)
      requires creditDelta == Effect(ChartType(CreditCode(kind)), false, amount)
      requires db.savedTransactions == if kind == FineCollection && fineOpened then |db.transactions| else |ts0|
      modifies db`ledgerAccounts, db`transactions
      ensures Consistent()
      ensures RepaymentProgress(accts0, ts0, cache0, legs + [Leg(kind, amount)], yy, now, userId, loanId, paymentId, fineOpened,
                                db.ledgerAccounts, db.transactions, accountCache)
      ensures HasCode(db.ledgerAccounts, FineIncomeCode) == HasCode(old(db.ledgerAccounts), FineIncomeCode)
    {
      var t := Transaction(GenerateTransactionCode(yy), now, kind, debitId, creditId, amount, Some(loanId), Some(paymentId), userId);
      ghost var ts := db.transactions;
      Post(t, debitDelta, creditDelta);
      PostedSnoc(ts0, ts, legs, t, Leg(kind, amount), accountCache, accountCache);
      StampedSnoc(ts, |ts0|, t, now, userId, Some(loanId), Some(paymentId));
      LegsDeltaSnoc(legs, Leg(kind, amount));
      assert db.transactions[|ts|] == t;
    }

    /** `RecordSavingsTransactionAsync`: a deposit debits cash and credits savings; anything else reverses it. */
    method RecordSavingsTransaction(st: SavingsTransaction, userId: Id, now: Date, yy: string)
      requires Valid()
      modifies this`accountCache, db`ledgerAccounts, db`nextId, db`savedTransactions, db`transactions
      ensures Valid() && CacheGrows(old(accountCache), accountCache)
      ensures forall c {:trigger BalanceOf(db.ledgerAccounts, c)} ::
        BalanceOf(db.ledgerAccounts, c) == BalanceOf(old(db.ledgerAccounts), c) + LegsDelta(SavingsLegs(st.transactionType, st.amount), c)
      ensures Balanced(db.ledgerAccounts) <==> Balanced(old(db.ledgerAccounts))
      ensures Posted(old(db.transactions), db.transactions, SavingsLegs(st.transactionType, st.amount), accountCache)
      ensures Stamped(db.transactions, |old(db.transactions)|, now, userId, None, None)
      ensures db.transactions[|old(db.transactions)|].transactionCode == Codes.TransactionCode(yy, |old(db.transactions)|)
    {
      var cash, savings := OpenPair(CashCode, "Cash", Asset, SavingsLiabilityCode, "Savings Liability", Liability);
      var deposit := st.transactionType == "Deposit";
      var kind := if deposit then SavingsDeposit else SavingsWithdrawal;
      var delta := if deposit then st.amount else -st.amount;
      PostAndSave(kind, st.amount, if deposit then cash else savings, if deposit then savings else cash, delta, delta,
                  None, None, userId, now, yy);
    }
  }
}
