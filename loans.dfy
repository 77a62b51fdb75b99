/**
 * The loan life cycle (LoanService): the totals of each interest method, the
 * eligibility rules of an application, the Pending -> Approved -> Disbursed
 * transitions, the weekly installment schedule and the loan code.
 *
 * The schedule is specified installment by installment (`Entry`) over the
 * principal still owed after k installments (`RemainingPrincipal`); the
 * loop that builds it is proved to produce exactly those entries, and the
 * entries are proved to add up to the amount payable.
 */
module Loans {
  import opened Domain
  import opened Store
  import opened Accounting
  import Codes
  import Savings
  import Payments

  // ---------------------------------------------------------------------------
  // Totals

  /**
   * `CalculateLoanDetails`: the loan with its total interest, total payable
   * and weekly installment filled in. Dividing a decimal by a zero duration
   * throws; the EMI installment is computed in floating point outside the
   * model and given as `emi`, `None` when the conversion to decimal throws.
   * At a zero weekly rate the EMI formula is zero over zero, and over zero
   * weeks a nonzero amount over zero: neither converts, so both throw
   * whatever `emi` says.
   */
  function CalculateLoanDetails(loan: Loan, emi: Option<real>): (r: Result<Loan>)
    ensures r.Err? <==>
      if loan.interestType == DecliningBalanceEMI then emi.None? || loan.interestRate == 0.0 || loan.durationInWeeks == 0
      else loan.durationInWeeks == 0
    ensures r.Ok? ==> r.value == loan.(totalInterest := r.value.totalInterest, totalPayable := r.value.totalPayable,
                                       weeklyInstallment := r.value.weeklyInstallment)
  {
    var n := loan.durationInWeeks as real;
    match loan.interestType
    case Flat =>
      if loan.durationInWeeks == 0 then Err(DivideByZero)
      else
        var interest := loan.loanAmount * (loan.interestRate / 100.0);
        var payable := loan.loanAmount + interest;
        Ok(loan.(totalInterest := interest, totalPayable := payable, weeklyInstallment := payable / n))
    case ReducingBalance =>
      if loan.durationInWeeks == 0 then Err(DivideByZero)
      else Ok(loan.(weeklyInstallment := loan.loanAmount / n, totalInterest := 0.0, totalPayable := loan.loanAmount))
    case DecliningBalanceEMI =>
      if loan.interestRate == 0.0 || loan.durationInWeeks == 0 then Err(Overflow)
      else match emi
      case None => Err(Overflow)
      case Some(w) => Ok(loan.(weeklyInstallment := w, totalPayable := w * n, totalInterest := w * n - loan.loanAmount))
  }

  /** The totals agree with each other: what `CalculateLoanDetails` establishes for every method. */
  predicate TotalsConsistent(loan: Loan)
  {
    && loan.totalPayable == loan.weeklyInstallment * loan.durationInWeeks as real
    && loan.totalPayable == loan.loanAmount + loan.totalInterest
    && loan.durationInWeeks != 0
  }

  /** Every successful computation is consistent: the n installments pay the total, which is principal plus interest. */
  lemma CalculatedConsistent(loan: Loan, emi: Option<real>)
    requires CalculateLoanDetails(loan, emi).Ok?
    ensures TotalsConsistent(CalculateLoanDetails(loan, emi).value)
  {
    var l := CalculateLoanDetails(loan, emi).value;
    var n := loan.durationInWeeks as real;
    if loan.interestType != DecliningBalanceEMI {
      assert n != 0.0;
      assert l.weeklyInstallment * n == (l.weeklyInstallment * n / n) * n;
    }
  }

  /** Flat interest: the rate applies once to the whole amount. */
  lemma FlatTotals(loan: Loan, emi: Option<real>)
    requires loan.interestType == Flat && loan.durationInWeeks != 0
    ensures var r := CalculateLoanDetails(loan, emi);
      && r.Ok?
      && r.value.totalInterest == loan.loanAmount * loan.interestRate / 100.0
      && r.value.totalPayable == loan.loanAmount + r.value.totalInterest
      && r.value.weeklyInstallment * loan.durationInWeeks as real == r.value.totalPayable
  {
    CalculatedConsistent(loan, emi);
  }

  /** Reducing balance: no interest on the loan, the amount split evenly over the weeks. */
  lemma ReducingBalanceTotals(loan: Loan, emi: Option<real>)
    requires loan.interestType == ReducingBalance && loan.durationInWeeks != 0
    ensures var r := CalculateLoanDetails(loan, emi);
      && r.Ok?
      && r.value.totalInterest == 0.0
      && r.value.totalPayable == loan.loanAmount
      && r.value.weeklyInstallment * loan.durationInWeeks as real == loan.loanAmount
  {
    CalculatedConsistent(loan, emi);
  }

  lemma FlatExample(loan: Loan)
    requires loan.interestType == Flat && loan.loanAmount == 10000.0 && loan.interestRate == 15.0 && loan.durationInWeeks == 50
    ensures var r := CalculateLoanDetails(loan, None);
      r.Ok? && r.value.totalInterest == 1500.0 && r.value.totalPayable == 11500.0 && r.value.weeklyInstallment == 230.0
  {
  }

  // ---------------------------------------------------------------------------
  // Eligibility

  predicate IsOpen(status: LoanStatus)
  {
    status == Approved || status == Disbursed || status == Active
  }

  /** `HasActiveLoanAsync` over the loan set: some loan of the member is approved, disbursed or active. */
  ghost predicate HasOpenLoan(loans: map<Id, Loan>, memberId: Id)
  {
    exists k :: k in loans && loans[k].memberId == memberId && IsOpen(loans[k].status)
  }

  /** The first rule of `CreateLoanApplicationAsync` that refuses the application, if any. */
  ghost function ApplicationCheck(members: map<Id, Member>, loans: map<Id, Loan>, savings: map<Id, SavingsAccount>,
                                  groups: map<Id, Group>, loan: Loan): Option<Error>
  {
    if loan.memberId !in members then Some(NotFound("Member"))
    else if members[loan.memberId].status != MemberActive then Some(RuleViolation("Member is not active"))
    else if HasOpenLoan(loans, loan.memberId) then Some(RuleViolation("Member already has an active loan"))
    else if Savings.MemberBalance(savings, loan.memberId).None? || Savings.MemberBalance(savings, loan.memberId).value < 100.0
    then Some(RuleViolation("Insufficient savings balance. Minimum 100 required."))
    else if loan.groupId.Some? && loan.groupId.value in groups && groups[loan.groupId.value].performanceRating < 0.5
    then Some(RuleViolation("Group performance is below threshold"))
    else None
  }

  /**
   * The foreign keys the store enforces when a loan row is saved: its branch
   * must exist, and so must its group when it names one. The branch is
   * checked first.
   */
  function ReferenceError(branches: map<Id, Branch>, groups: map<Id, Group>, loan: Loan): (e: Option<Error>)
    ensures e.None? <==> loan.branchId in branches && (loan.groupId.Some? ==> loan.groupId.value in groups)
    ensures loan.branchId !in branches ==> e == Some(ForeignKey("Branch"))
    ensures e.Some? && loan.branchId in branches ==> e == Some(ForeignKey("Group")) && loan.groupId.value !in groups
  {
    if loan.branchId !in branches then Some(ForeignKey("Branch"))
    else if loan.groupId.Some? && loan.groupId.value !in groups then Some(ForeignKey("Group"))
    else None
  }

  /** The eligibility rules, then the computation of the totals, then the keys checked when the loan is saved. */
  ghost function ApplicationError(members: map<Id, Member>, loans: map<Id, Loan>, savings: map<Id, SavingsAccount>,
                                  groups: map<Id, Group>, branches: map<Id, Branch>, loan: Loan, emi: Option<real>): Option<Error>
  {
    var check := ApplicationCheck(members, loans, savings, groups, loan);
    if check.Some? then check
    else if CalculateLoanDetails(loan, emi).Err? then Some(CalculateLoanDetails(loan, emi).error)
    else ReferenceError(branches, groups, loan)
  }

  /** An application passes exactly when all five rules hold; a group that is not found passes. */
  lemma ApplicationRules(members: map<Id, Member>, loans: map<Id, Loan>, savings: map<Id, SavingsAccount>,
                         groups: map<Id, Group>, loan: Loan)
    ensures ApplicationCheck(members, loans, savings, groups, loan).None? <==>
      && loan.memberId in members && members[loan.memberId].status == MemberActive
      && !HasOpenLoan(loans, loan.memberId)
      && (exists k :: k in savings && savings[k].memberId == loan.memberId)
      && Savings.MemberBalance(savings, loan.memberId).value >= 100.0
      && (loan.groupId.Some? && loan.groupId.value in groups ==> groups[loan.groupId.value].performanceRating >= 0.5)
  {
  }

  /** The stored loans whose status says they were approved carry their approver. */
  ghost predicate ApprovalsRecorded(loans: map<Id, Loan>)
  {
    forall k :: k in loans && (loans[k].status == Approved || loans[k].status == Disbursed) ==> loans[k].approvedBy.Some?
  }

  /**
   * A recorded payment leaves its loan Active or Closed and keeps its approver,
   * so approvals stay recorded across `RecordPaymentAsync`.
   */
  lemma PaymentKeepsApprovals(loans: map<Id, Loan>, id: Id, p: Payment, paidInstallments: nat, now: Date)
    requires ApprovalsRecorded(loans) && id in loans
    ensures ApprovalsRecorded(loans[id := Payments.SettleLoan(loans[id], p, paidInstallments, now)])
  {
  }

  // ---------------------------------------------------------------------------
  // The schedule

  /** The weekly rate of a yearly percentage. */
  function WeeklyRate(rate: real): real { rate / 100.0 / 52.0 }

  /** The principal still owed after `k` installments of a reducing-balance or EMI schedule. */
  function RemainingPrincipal(loan: Loan, k: nat): real
  {
    if k == 0 then loan.loanAmount
    else
      var r := RemainingPrincipal(loan, k - 1);
      r - (loan.weeklyInstallment - r * WeeklyRate(loan.interestRate))
  }

  /** Installment `i` of the schedule, due `7 i` days after `start`, when `remaining` principal is owed before it. */
  function ScheduledInstallment(loanId: Id, loan: Loan, start: Date, i: nat, remaining: real): Installment
    requires 1 <= i <= loan.durationInWeeks
  {
    var n := loan.durationInWeeks as real;
    var w := loan.weeklyInstallment;
    var interest := if loan.interestType == Flat then loan.totalInterest / n else remaining * WeeklyRate(loan.interestRate);
    var principal := if loan.interestType == Flat then loan.loanAmount / n else w - interest;
    Installment(loanId, i, start + 7.0 * i as real, principal, interest, w, 0.0, w, InstallmentPending, None, 0, 0.0)
  }

  /** The `i`-th installment of the schedule of `loan`. */
  function Entry(loanId: Id, loan: Loan, start: Date, i: nat): Installment
    requires 1 <= i <= loan.durationInWeeks
  {
    ScheduledInstallment(loanId, loan, start, i, RemainingPrincipal(loan, i - 1))
  }

  /** Installment `i` is numbered `i`, due a week later per number, pending, and owes its whole total. */
  lemma EntryShape(loanId: Id, loan: Loan, start: Date, i: nat)
    requires 1 <= i <= loan.durationInWeeks
    ensures var e := Entry(loanId, loan, start, i);
      && e.loanId == loanId && e.installmentNumber == i && e.dueDate == start + 7.0 * i as real
      && e.status == InstallmentPending && e.paidAmount == 0.0
      && e.totalAmount == loan.weeklyInstallment && e.remainingAmount == e.totalAmount
  {
  }

  /** With consistent totals, every installment's total is its principal plus its interest. */
  lemma EntrySplit(loanId: Id, loan: Loan, start: Date, i: nat)
    requires 1 <= i <= loan.durationInWeeks && TotalsConsistent(loan)
    ensures Entry(loanId, loan, start, i).principalAmount + Entry(loanId, loan, start, i).interestAmount == loan.weeklyInstallment
  {
    if loan.interestType == Flat {
      var n := loan.durationInWeeks as real;
      assert loan.loanAmount / n + loan.totalInterest / n == (loan.loanAmount + loan.totalInterest) / n;
      assert loan.weeklyInstallment == loan.totalPayable / n;
    }
  }

  /**
   * Under reducing balance and EMI, the interest of installment `i` is the
   * weekly rate on the principal owed before it, and the principal owed drops
   * by the installment's principal.
   */
  lemma EntryReducing(loanId: Id, loan: Loan, start: Date, i: nat)
    requires 1 <= i <= loan.durationInWeeks && loan.interestType != Flat
    ensures Entry(loanId, loan, start, i).interestAmount == RemainingPrincipal(loan, i - 1) * WeeklyRate(loan.interestRate)
    ensures RemainingPrincipal(loan, i) == RemainingPrincipal(loan, i - 1) - Entry(loanId, loan, start, i).principalAmount
  {
  }

  /** The whole schedule: one entry per week of the duration, none when the duration is not positive. */
  function Schedule(loanId: Id, loan: Loan, start: Date): seq<Installment>
  {
    seq(Weeks(loan), j requires 0 <= j < Weeks(loan) => Entry(loanId, loan, start, j + 1))
  }

  /** How many installments the loop of the schedule produces. */
  function Weeks(loan: Loan): nat
  {
    if loan.durationInWeeks > 0 then loan.durationInWeeks else 0
  }

  function SumTotals(s: seq<Installment>): real
  {
    if s == [] then 0.0 else SumTotals(s[..|s| - 1]) + s[|s| - 1].totalAmount
  }

  function SumPrincipal(s: seq<Installment>): real
  {
    if s == [] then 0.0 else SumPrincipal(s[..|s| - 1]) + s[|s| - 1].principalAmount
  }

  /** The schedule of `loan`: its first `k` entries. */
  ghost predicate IsSchedulePrefix(s: seq<Installment>, loanId: Id, loan: Loan, start: Date)
  {
    && |s| <= Weeks(loan)
    && forall j :: 0 <= j < |s| ==> s[j] == Entry(loanId, loan, start, j + 1)
  }

  lemma ScheduleSnoc(s: seq<Installment>, loanId: Id, loan: Loan, start: Date)
    requires IsSchedulePrefix(s, loanId, loan, start) && |s| < loan.durationInWeeks
    ensures IsSchedulePrefix(s + [Entry(loanId, loan, start, |s| + 1)], loanId, loan, start)
  {
  }

  /** The installments of a schedule add up to `k` weekly installments. */
  lemma {:induction false} ScheduleTotals(s: seq<Installment>, loanId: Id, loan: Loan, start: Date)
    requires IsSchedulePrefix(s, loanId, loan, start)
    ensures SumTotals(s) == |s| as real * loan.weeklyInstallment
    decreases |s|
  {
    if s != [] {
      ScheduleTotals(s[..|s| - 1], loanId, loan, start);
    }
  }

  /** A complete schedule of a loan with consistent totals adds up to the total payable, in every method. */
  lemma ScheduleSumsToPayable(s: seq<Installment>, loanId: Id, loan: Loan, start: Date)
    requires IsSchedulePrefix(s, loanId, loan, start) && |s| == loan.durationInWeeks && TotalsConsistent(loan)
    ensures SumTotals(s) == loan.totalPayable
  {
    ScheduleTotals(s, loanId, loan, start);
  }

  /** Under reducing balance and EMI, the principal parts of the first `k` installments are what the owed principal dropped by. */
  lemma {:induction false} PrincipalTelescopes(s: seq<Installment>, loanId: Id, loan: Loan, start: Date)
    requires IsSchedulePrefix(s, loanId, loan, start) && loan.interestType != Flat
    ensures SumPrincipal(s) == loan.loanAmount - RemainingPrincipal(loan, |s|)
    decreases |s|
  {
    if s != [] {
      PrincipalTelescopes(s[..|s| - 1], loanId, loan, start);
      EntryReducing(loanId, loan, start, |s|);
    }
  }

  /**
   * Under reducing balance the installments are the amount split evenly, yet
   * part of each is booked as interest; while the principal and the rate are
   * positive, the owed principal after `k <= n` installments stays above what
   * the even split leaves, `P - k W`.
   */
  lemma {:induction false} ReducingResidue(loan: Loan, k: nat)
    requires loan.interestType == ReducingBalance
    requires loan.weeklyInstallment * loan.durationInWeeks as real == loan.loanAmount
    requires loan.loanAmount > 0.0 && loan.interestRate > 0.0 && 1 <= k <= loan.durationInWeeks
    ensures RemainingPrincipal(loan, k) > loan.loanAmount - k as real * loan.weeklyInstallment
    decreases k
  {
    var n := loan.durationInWeeks as real;
    var w := WeeklyRate(loan.interestRate);
    var W := loan.weeklyInstallment;
    assert W > 0.0;
    assert w > 0.0;
    if k == 1 {
      assert loan.loanAmount * w > 0.0;
    } else {
      ReducingResidue(loan, k - 1);
      var r := RemainingPrincipal(loan, k - 1);
      assert (k - 1) as real * W < n * W;
      assert r > 0.0;
      assert r * w > 0.0;
    }
  }

  /**
   * Hence the schedule of a reducing-balance loan does not repay the
   * principal: its principal parts add up to strictly less than the loan
   * amount, the difference having been booked as interest that the loan's own
   * totals (no interest, the amount payable) do not charge; the installments
   * still add up to the amount payable.
   */
  lemma ReducingBalanceUnderAmortizes(loanId: Id, application: Loan, emi: Option<real>, start: Date)
    requires application.interestType == ReducingBalance && application.durationInWeeks >= 1
    requires application.loanAmount > 0.0 && application.interestRate > 0.0
    ensures var loan := CalculateLoanDetails(application, emi).value;
      && SumPrincipal(Schedule(loanId, loan, start)) < loan.loanAmount
      && SumTotals(Schedule(loanId, loan, start)) == loan.totalPayable == loan.loanAmount
  {
    var loan := CalculateLoanDetails(application, emi).value;
    var s := Schedule(loanId, loan, start);
    CalculatedConsistent(application, emi);
    ScheduleIsPrefix(loanId, loan, start);
    PrincipalTelescopes(s, loanId, loan, start);
    ReducingResidue(loan, |s|);
    ScheduleSumsToPayable(s, loanId, loan, start);
  }

  /** The schedule lists the entries in order, one per week. */
  lemma ScheduleIsPrefix(loanId: Id, loan: Loan, start: Date)
    ensures IsSchedulePrefix(Schedule(loanId, loan, start), loanId, loan, start)
    ensures |Schedule(loanId, loan, start)| == Weeks(loan)
  {
  }

  /** `map[...]` with the installments of `s` added under the consecutive identities `base`, `base + 1`, ... */
  function WithIds(m: map<Id, Installment>, base: Id, s: seq<Installment>): map<Id, Installment>
  {
    if s == [] then m else WithIds(m, base, s[..|s| - 1])[base + |s| - 1 := s[|s| - 1]]
  }

  /** The installments land under `base`, `base + 1`, ..., and nothing stored before moves. */
  lemma {:induction false} WithIdsContents(m: map<Id, Installment>, base: Id, s: seq<Installment>)
    requires forall k :: k in m ==> k < base
    ensures forall k :: base <= k < base + |s| ==> k in WithIds(m, base, s) && WithIds(m, base, s)[k] == s[k - base]
    ensures forall k :: k in m ==> k in WithIds(m, base, s) && WithIds(m, base, s)[k] == m[k]
    ensures forall k :: k in WithIds(m, base, s) ==> k in m || base <= k < base + |s|
    decreases |s|
  {
    if s != [] {
      var init := s[..|s| - 1];
      WithIdsContents(m, base, init);
    }
  }

  // ---------------------------------------------------------------------------
  // The service

  class LoanService {
    const db: Database
    const accounting: AccountingService

    constructor (db: Database, accounting: AccountingService)
      requires accounting.db == db
      ensures this.db == db && this.accounting == accounting
    {
      this.db := db;
      this.accounting := accounting;
    }

    ghost predicate Valid()
      reads this, db, accounting, accounting.db
    {
      && accounting.db == db
      && accounting.Valid()
      && Savings.OneAccountPerMember(db.savingsAccounts)
      && ApprovalsRecorded(db.loans)
    }

    /** `HasActiveLoanAsync`. */
    predicate HasActiveLoan(memberId: Id)
      reads db
      ensures HasActiveLoan(memberId) <==> HasOpenLoan(db.loans, memberId)
    {
      exists k :: k in db.loans && db.loans[k].memberId == memberId && IsOpen(db.loans[k].status)
    }

    /** How many loans the branch has. */
    function BranchLoanCount(branchId: Id): nat
      reads db
    {
      |set k | k in db.loans && db.loans[k].branchId == branchId|
    }

    /** `GenerateLoanCodeAsync`: the branch's code (or "BR" for an unknown branch) and its loan count plus one. */
    function GenerateLoanCode(branchId: Id, yy: string): string
      reads db
    {
      Codes.LoanCode(if branchId in db.branches then Some(db.branches[branchId].branchCode) else None, yy, BranchLoanCount(branchId))
    }

    /**
     * What `GenerateLoanCode` produces: "LN-", the branch's code ("BR" for an
     * unknown branch), the year, then the branch's loan count plus one in at
     * least five digits.
     */
    lemma GeneratedLoanCode(branchId: Id, yy: string)
      ensures var b := if branchId in db.branches then db.branches[branchId].branchCode else "BR";
        Codes.ReadsBack(GenerateLoanCode(branchId, yy), "LN-" + b + "-" + yy + "-", BranchLoanCount(branchId) + 1, 5)
    {
      var b := if branchId in db.branches then db.branches[branchId].branchCode else "BR";
      Codes.CodeReadsBack("LN-" + b + "-" + yy + "-", BranchLoanCount(branchId) + 1, 5);
    }

    /** The eligibility rules of `CreateLoanApplicationAsync`, in the order it applies them. */
    method CheckApplication(loan: Loan) returns (e: Option<Error>)
      requires Savings.OneAccountPerMember(db.savingsAccounts)
      ensures e == ApplicationCheck(db.members, db.loans, db.savingsAccounts, db.groups, loan)
    {
      if loan.memberId !in db.members {
        return Some(NotFound("Member"));
      }
      var member := db.members[loan.memberId];
      if member.status != MemberActive {
        return Some(RuleViolation("Member is not active"));
      }
      if HasActiveLoan(loan.memberId) {
        return Some(RuleViolation("Member already has an active loan"));
      }
      if !exists k :: k in db.savingsAccounts && db.savingsAccounts[k].memberId == loan.memberId {
        return Some(RuleViolation("Insufficient savings balance. Minimum 100 required."));
      }
      var k :| k in db.savingsAccounts && db.savingsAccounts[k].memberId == loan.memberId;
      Savings.MemberBalanceAt(db.savingsAccounts, k);
      if db.savingsAccounts[k].balance < 100.0 {
        return Some(RuleViolation("Insufficient savings balance. Minimum 100 required."));
      }
      if loan.groupId.Some? {
        if loan.groupId.value in db.groups && db.groups[loan.groupId.value].performanceRating < 0.5 {
          return Some(RuleViolation("Group performance is below threshold"));
        }
      }
      return None;
    }

    /**
     * `CreateLoanApplicationAsync`: the eligibility rules, the totals, the
     * code; stored as pending. An unknown branch or group fails the save, and
     * nothing is stored.
     */
    method CreateLoanApplication(loan: Loan, emi: Option<real>, now: Date, yy: string) returns (r: Result<Id>)
      requires Valid()
      modifies db`loans, db`nextId, db`savedTransactions
      ensures Valid()
      ensures r.Err? <==>
        ApplicationError(old(db.members), old(db.loans), old(db.savingsAccounts), old(db.groups), old(db.branches), loan, emi).Some?
      ensures r.Err? ==>
        && unchanged(db)
        && Some(r.error)
           == ApplicationError(old(db.members), old(db.loans), old(db.savingsAccounts), old(db.groups), old(db.branches), loan, emi)
      ensures r.Ok? ==>
        var l := CalculateLoanDetails(loan, emi).value;
        && r.value !in old(db.loans)
        && db.loans == old(db.loans)[r.value := l.(loanCode := old(GenerateLoanCode(loan.branchId, yy)), applicationDate := now,
                                                   status := Pending, remainingBalance := l.totalPayable)]
    {
      var e := CheckApplication(loan);
      if e.Some? {
        return Err(e.value);
      }
      var calculated := CalculateLoanDetails(loan, emi);
      if calculated.Err? {
        return Err(calculated.error);
      }
      var l := calculated.value;
      var code := GenerateLoanCode(loan.branchId, yy);
      var missing := ReferenceError(db.branches, db.groups, loan);
      if missing.Some? {
        return Err(missing.value);
      }
      l := l.(loanCode := code, applicationDate := now, status := Pending, remainingBalance := l.totalPayable);
      var id := db.NewId();
      db.loans := db.loans[id := l];
      db.SaveChanges();
      r := Ok(id);
    }

    /** `ApproveLoanAsync`: only a pending loan; it becomes approved, with its approver and date. */
    method ApproveLoan(loanId: Id, approvedBy: Id, now: Date) returns (r: Result<Loan>)
      requires Valid()
      modifies db`loans, db`savedTransactions
      ensures Valid()
      ensures loanId !in old(db.loans) ==> r == Err(NotFound("Loan"))
      ensures loanId in old(db.loans) && old(db.loans[loanId]).status != Pending ==>
        r == Err(RuleViolation("Loan is not in pending status"))
      ensures r.Err? ==> unchanged(db)
      ensures r.Ok? <==> loanId in old(db.loans) && old(db.loans[loanId]).status == Pending
      ensures r.Ok? ==>
        && r.value == old(db.loans[loanId]).(status := Approved, approvalDate := Some(now), approvedBy := Some(approvedBy))
        && db.loans == old(db.loans)[loanId := r.value]
    {
      if loanId !in db.loans {
        return Err(NotFound("Loan"));
      }
      var loan := db.loans[loanId];
      if loan.status != Pending {
        return Err(RuleViolation("Loan is not in pending status"));
      }
      loan := loan.(status := Approved, approvalDate := Some(now), approvedBy := Some(approvedBy));
      db.loans := db.loans[loanId := loan];
      db.SaveChanges();
      r := Ok(loan);
    }

    /** The loop of `GenerateInstallmentScheduleAsync`: one installment per week, carrying the owed principal. */
    method BuildSchedule(loanId: Id, loan: Loan, start: Date) returns (installments: seq<Installment>)
      ensures installments == Schedule(loanId, loan, start)
    {
      installments := [];
      var remaining := loan.loanAmount;
      var i := 1;
      while i <= loan.durationInWeeks
        invariant 1 <= i && (loan.durationInWeeks > 0 ==> i <= loan.durationInWeeks + 1)
        invariant |installments| == i - 1
        invariant IsSchedulePrefix(installments, loanId, loan, start)
        invariant loan.interestType != Flat ==> remaining == RemainingPrincipal(loan, i - 1)
        decreases loan.durationInWeeks - i
      {
        var n := loan.durationInWeeks as real;
        var interest, principal;
        match loan.interestType {
          case Flat =>
            principal := loan.loanAmount / n;
            interest := loan.totalInterest / n;
          case ReducingBalance =>
            interest := remaining * WeeklyRate(loan.interestRate);
            principal := loan.weeklyInstallment - interest;
            remaining := remaining - principal;
          case DecliningBalanceEMI =>
            interest := remaining * WeeklyRate(loan.interestRate);
            principal := loan.weeklyInstallment - interest;
            remaining := remaining - principal;
        }
        var installment := Installment(loanId, i, start + 7.0 * i as real, principal, interest, loan.weeklyInstallment,
                                       0.0, loan.weeklyInstallment, InstallmentPending, None, 0, 0.0);
        assert installment == Entry(loanId, loan, start, i);
        ScheduleSnoc(installments, loanId, loan, start);
        installments := installments + [installment];
        i := i + 1;
      }
      assert |installments| == |Schedule(loanId, loan, start)|;
    }

    /** The schedule built and stored, then saved. */
    method StoreSchedule(loanId: Id, loan: Loan, start: Date)
      requires Valid()
      modifies db`installments, db`nextId
      ensures Valid()
      ensures db.installments == WithIds(old(db.installments), old(db.nextId), Schedule(loanId, loan, start))
    {
      var installments := BuildSchedule(loanId, loan, start);
      var _ := AddInstallments(installments);
    }

    /** The stored part of a disbursement: the loan, its schedule and the member's loan cycle. */
    method MarkDisbursed(loanId: Id, loan: Loan, now: Date)
      requires Valid() && loanId in db.loans && loan.approvedBy.Some?
      modifies db`loans, db`installments, db`members, db`nextId, db`savedTransactions
      ensures Valid()
      ensures db.loans == old(db.loans)[loanId := loan]
      ensures db.installments == WithIds(old(db.installments), old(db.nextId), Schedule(loanId, loan, now))
      ensures db.members == if loan.memberId in old(db.members)
                            then old(db.members)[loan.memberId := old(db.members[loan.memberId]).(loanCycle := old(db.members[loan.memberId]).loanCycle + 1)]
                            else old(db.members)
    {
      db.loans := db.loans[loanId := loan];
      StoreSchedule(loanId, loan, now);
      if loan.memberId in db.members {
        var member := db.members[loan.memberId];
        db.members := db.members[loan.memberId := member.(loanCycle := member.loanCycle + 1)];
      }
      db.SaveChanges();
    }

    /**
     * `DisburseLoanAsync`: only an approved loan; it becomes disbursed, its
     * schedule is stored, the member's loan cycle goes up, and the
     * disbursement is posted under the approver.
     */
    method DisburseLoan(loanId: Id, now: Date, yy: string) returns (r: Result<Loan>)
      requires Valid()
      modifies db`loans, db`installments, db`members, db`nextId, db`savedTransactions, db`transactions, db`ledgerAccounts
      modifies accounting`accountCache
      ensures Valid()
      ensures loanId !in old(db.loans) ==> r == Err(NotFound("Loan"))
      ensures loanId in old(db.loans) && old(db.loans[loanId]).status != Approved ==>
        r == Err(RuleViolation("Loan must be approved before disbursement"))
      ensures r.Err? ==> unchanged(db) && unchanged(accounting)
      ensures r.Ok? <==> loanId in old(db.loans) && old(db.loans[loanId]).status == Approved
      ensures r.Ok? ==>
        && r.value == old(db.loans[loanId]).(status := Disbursed, disbursementDate := Some(now))
        && db.loans == old(db.loans)[loanId := r.value]
        && db.installments == WithIds(old(db.installments), old(db.nextId), Schedule(loanId, r.value, now))
        && db.members == (if r.value.memberId in old(db.members)
                          then old(db.members)[r.value.memberId := old(db.members[r.value.memberId]).(loanCycle := old(db.members[r.value.memberId]).loanCycle + 1)]
                          else old(db.members))
        && (forall c {:trigger BalanceOf(db.ledgerAccounts, c)} ::
              BalanceOf(db.ledgerAccounts, c) == BalanceOf(old(db.ledgerAccounts), c) + LegsDelta(DisbursementLegs(r.value.loanAmount), c))
        && (Balanced(db.ledgerAccounts) <==> Balanced(old(db.ledgerAccounts)))
        && Posted(old(db.transactions), db.transactions, DisbursementLegs(r.value.loanAmount), accounting.accountCache)
        && r.value.approvedBy.Some?
        && Stamped(db.transactions, |old(db.transactions)|, now, r.value.approvedBy.value, Some(loanId), None)
        && db.transactions[|old(db.transactions)|].transactionCode == Codes.TransactionCode(yy, |old(db.transactions)|)
    {
      if loanId !in db.loans {
        return Err(NotFound("Loan"));
      }
      var loan := db.loans[loanId];
      if loan.status != Approved {
        return Err(RuleViolation("Loan must be approved before disbursement"));
      }
      loan := loan.(status := Disbursed, disbursementDate := Some(now));
      MarkDisbursed(loanId, loan, now);
      if loan.approvedBy.Some? {
        accounting.RecordLoanDisbursement(loanId, loan, loan.approvedBy.value, now, yy);
      }
      r := Ok(loan);
    }

    /** `AddRangeAsync` of the schedule: each installment stored under a fresh identity. */
    method AddInstallments(s: seq<Installment>) returns (base: Id)
      requires db.Valid()
      modifies db`installments, db`nextId
      ensures db.Valid()
      ensures base == old(db.nextId) && db.nextId == base + |s|
      ensures db.installments == WithIds(old(db.installments), base, s)
    {
      base := db.nextId;
      var j := 0;
      while j < |s|
        invariant 0 <= j <= |s| && db.Valid()
        invariant db.nextId == base + j
        invariant db.installments == WithIds(old(db.installments), base, s[..j])
        invariant unchanged(db`loans, db`payments, db`savingsAccounts, db`ledgerAccounts, db`savedTransactions, db`transactions)
      {
        var id := db.NewId();
        assert s[..j + 1][..j] == s[..j];
        db.installments := db.installments[id := s[j]];
        j := j + 1;
      }
      assert s[..|s|] == s;
    }
  }
}
