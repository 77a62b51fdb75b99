/**
 * Recording a repayment (PaymentService): the installment it goes to, the
 * late fine refreshed on that installment, the split of the cash fine ->
 * interest -> principal, the running totals and statuses of the installment
 * and the loan, the payment code and the ledger posting.
 */
module Payments {
  import opened Domain
  import opened Store
  import opened Accounting
  import Codes

  // ---------------------------------------------------------------------------
  // The late fine

  const FinePerDay: real := 5.0

  /** `CalculateFineAsync` for an installment due at `due`: five per day late, fractions of a day included. */
  function Fine(due: Date, now: Date): (fine: real)
    ensures fine >= 0.0
    ensures fine == 0.0 <==> now <= due
  {
    var lateDays := now - due;
    if lateDays <= 0.0 then 0.0 else lateDays * FinePerDay
  }

  /** `CalculateFineAsync`: no fine for an installment that is not found. */
  function CalculateFine(installments: map<Id, Installment>, id: Id, now: Date): (fine: real)
    ensures id !in installments ==> fine == 0.0
    ensures id in installments ==> fine == Fine(installments[id].dueDate, now)
  {
    if id !in installments then 0.0 else Fine(installments[id].dueDate, now)
  }

  /** Whole days late: the truncated day count, never negative. */
  function LateDays(due: Date, now: Date): (days: int)
    ensures days >= 0
    ensures now - due >= 1.0 ==> days as real <= now - due < days as real + 1.0
    ensures now - due < 1.0 ==> days == 0
  {
    var d := now - due;
    if d <= 0.0 then 0 else d.Floor
  }

  /** The fine is zero up to the due date and then grows by five a day: it only grows with time. */
  lemma FineGrows(due: Date, now: Date, later: Date)
    requires now <= later
    ensures Fine(due, now) <= Fine(due, later)
    ensures due < now ==> Fine(due, later) - Fine(due, now) == (later - now) * FinePerDay
  {
  }

  /** The fine refresh of `RecordPaymentAsync`: the fine and the late days of the target installment. */
  function Refreshed(inst: Installment, now: Date): Installment
  {
    inst.(fineAmount := Fine(inst.dueDate, now), lateDays := LateDays(inst.dueDate, now))
  }

  // ---------------------------------------------------------------------------
  // The split

  /** The part of the installment's interest (or principal) not yet covered, when paid amounts are spread pro rata. */
  function Outstanding(part: real, inst: Installment): real
    requires inst.paidAmount > 0.0 ==> inst.totalAmount != 0.0
  {
    part - (if inst.paidAmount > 0.0 then inst.paidAmount * (part / inst.totalAmount) else 0.0)
  }

  /**
   * The waterfall of `RecordPaymentAsync`: the cash pays the fine, then the
   * interest due, then the principal due; a component whose guard fails
   * keeps the value it came with. The pro-rata shares divide by the
   * installment's total, which throws when it is zero and something was paid.
   */
  function Waterfall(p: Payment, inst: Installment): Result<Payment>
  {
    if inst.paidAmount > 0.0 && inst.totalAmount == 0.0 then Err(DivideByZero)
    else
      var cash := p.totalAmount;
      var finePaid := if inst.fineAmount > 0.0 then Min(cash, inst.fineAmount) else p.finePaid;
      var afterFine := if inst.fineAmount > 0.0 then cash - finePaid else cash;
      var interestDue := Outstanding(inst.interestAmount, inst);
      var interestPaid := if afterFine > 0.0 && interestDue > 0.0 then Min(afterFine, interestDue) else p.interestPaid;
      var afterInterest := if afterFine > 0.0 && interestDue > 0.0 then afterFine - interestPaid else afterFine;
      var principalDue := Outstanding(inst.principalAmount, inst);
      var principalPaid := if afterInterest > 0.0 && principalDue > 0.0 then Min(afterInterest, principalDue) else p.principalPaid;
      Ok(p.(finePaid := finePaid, interestPaid := interestPaid, principalPaid := principalPaid))
  }

  /** A payment as the API builds it: cash only, no component allocated yet. */
  predicate Unallocated(p: Payment)
  {
    p.finePaid == 0.0 && p.interestPaid == 0.0 && p.principalPaid == 0.0
  }

  /** The waterfall fails exactly on the zero-total installment that has been paid into, and touches nothing but the three components. */
  lemma WaterfallDefined(p: Payment, inst: Installment)
    ensures Waterfall(p, inst).Err? <==> inst.paidAmount > 0.0 && inst.totalAmount == 0.0
    ensures Waterfall(p, inst).Err? ==> Waterfall(p, inst).error == DivideByZero
    ensures Waterfall(p, inst).Ok? ==>
      var q := Waterfall(p, inst).value;
      q == p.(finePaid := q.finePaid, interestPaid := q.interestPaid, principalPaid := q.principalPaid)
  {
  }

  /**
   * For a non-negative cash amount and a payment with nothing allocated yet,
   * each component lies between zero and what is due for it (the fine in
   * full, the outstanding interest and principal), and together they do not
   * exceed the cash.
   */
  lemma WaterfallBounds(p: Payment, inst: Installment)
    requires Unallocated(p) && p.totalAmount >= 0.0 && Waterfall(p, inst).Ok?
    ensures var q := Waterfall(p, inst).value;
      && 0.0 <= q.finePaid <= Max(inst.fineAmount, 0.0)
      && 0.0 <= q.interestPaid <= Max(Outstanding(inst.interestAmount, inst), 0.0)
      && 0.0 <= q.principalPaid <= Max(Outstanding(inst.principalAmount, inst), 0.0)
      && q.finePaid + q.interestPaid + q.principalPaid <= p.totalAmount
  {
  }

  /** Interest is paid only once the fine is covered, and principal only once the fine and the interest are. */
  lemma WaterfallPriority(p: Payment, inst: Installment)
    requires Unallocated(p) && Waterfall(p, inst).Ok?
    ensures var q := Waterfall(p, inst).value;
      && (q.interestPaid != 0.0 ==> q.finePaid == Max(inst.fineAmount, 0.0))
      && (q.principalPaid != 0.0 ==>
            q.finePaid == Max(inst.fineAmount, 0.0) && q.interestPaid == Max(Outstanding(inst.interestAmount, inst), 0.0))
  {
  }

  /** Cash that covers everything due pays every component in full and leaves the excess unallocated. */
  lemma WaterfallCoversAll(p: Payment, inst: Installment)
    requires Unallocated(p) && Waterfall(p, inst).Ok?
    requires p.totalAmount >= Max(inst.fineAmount, 0.0) + Max(Outstanding(inst.interestAmount, inst), 0.0)
                              + Max(Outstanding(inst.principalAmount, inst), 0.0)
    ensures var q := Waterfall(p, inst).value;
      && q.finePaid == Max(inst.fineAmount, 0.0)
      && q.interestPaid == Max(Outstanding(inst.interestAmount, inst), 0.0)
      && q.principalPaid == Max(Outstanding(inst.principalAmount, inst), 0.0)
  {
  }

  /** The cash a split brings into the ledger is exactly its three components, never more than was paid. */
  lemma WaterfallCashPosting(p: Payment, inst: Installment)
    requires Unallocated(p) && p.totalAmount >= 0.0 && Waterfall(p, inst).Ok?
    ensures var q := Waterfall(p, inst).value;
      && LegsDelta(RepaymentLegs(q.principalPaid, q.interestPaid, q.finePaid), CashCode) == q.principalPaid + q.interestPaid + q.finePaid
      && LegsDelta(RepaymentLegs(q.principalPaid, q.interestPaid, q.finePaid), CashCode) <= p.totalAmount
      && LegsDelta(RepaymentLegs(q.principalPaid, q.interestPaid, q.finePaid), LoanReceivableCode) == -q.principalPaid
  {
    var q := Waterfall(p, inst).value;
    WaterfallBounds(p, inst);
    RepaymentCash(q.principalPaid, q.interestPaid, q.finePaid, CashCode);
    RepaymentCash(q.principalPaid, q.interestPaid, q.finePaid, LoanReceivableCode);
  }

  // ---------------------------------------------------------------------------
  // Running totals

  /** The installment after the payment: everything but the fine counts as paid, the excess included. */
  function Settle(inst: Installment, p: Payment, now: Date): (s: Installment)
    ensures s.paidAmount == inst.paidAmount + (p.totalAmount - p.finePaid)
    ensures s.remainingAmount == s.totalAmount - s.paidAmount
    ensures s.status == Paid <==> s.remainingAmount <= 0.0
    ensures s.status != Paid ==> s.status == Partial && s.paymentDate == inst.paymentDate
    ensures s.status == Paid ==> s.paymentDate == Some(now)
    ensures s == inst.(paidAmount := s.paidAmount, remainingAmount := s.remainingAmount, status := s.status, paymentDate := s.paymentDate)
  {
    var paid := inst.paidAmount + (p.totalAmount - p.finePaid);
    var remaining := inst.totalAmount - paid;
    if remaining <= 0.0 then inst.(paidAmount := paid, remainingAmount := remaining, status := Paid, paymentDate := Some(now))
    else inst.(paidAmount := paid, remainingAmount := remaining, status := Partial)
  }

  /** How many of the loan's installments are paid. */
  function PaidCount(installments: map<Id, Installment>, loanId: Id): nat
  {
    |set k | k in installments && installments[k].loanId == loanId && installments[k].status == Paid|
  }

  /**
   * The loan after the payment: only principal and interest count as paid;
   * it is closed when nothing remains and active otherwise, whatever its
   * status was.
   */
  function SettleLoan(loan: Loan, p: Payment, paidInstallments: nat, now: Date): (l: Loan)
    ensures l.paidAmount == loan.paidAmount + p.principalPaid + p.interestPaid
    ensures l.remainingBalance == l.totalPayable - l.paidAmount
    ensures l.status == Closed <==> l.remainingBalance <= 0.0
    ensures l.status != Closed ==> l.status == Active && l.closedDate == loan.closedDate
    ensures l.status == Closed ==> l.closedDate == Some(now)
    ensures l.lastPaymentDate == Some(now) && l.paidInstallments == paidInstallments
    ensures l == loan.(paidAmount := l.paidAmount, remainingBalance := l.remainingBalance, lastPaymentDate := l.lastPaymentDate,
                       paidInstallments := l.paidInstallments, status := l.status, closedDate := l.closedDate)
  {
    var paid := loan.paidAmount + p.principalPaid + p.interestPaid;
    var remaining := loan.totalPayable - paid;
    var l := loan.(paidAmount := paid, remainingBalance := remaining, lastPaymentDate := Some(now), paidInstallments := paidInstallments);
    if remaining <= 0.0 then l.(status := Closed, closedDate := Some(now)) else l.(status := Active)
  }

  /**
   * The fine is charged in full at every payment, whatever was paid of it
   * before: two payments into the same past-due installment at the same
   * moment both owe the whole fine first.
   */
  lemma FineChargedEachPayment(p1: Payment, p2: Payment, inst: Installment, now: Date)
    requires now > inst.dueDate && Unallocated(p1) && Unallocated(p2) && inst.totalAmount != 0.0
    requires p1.totalAmount >= Fine(inst.dueDate, now) && p2.totalAmount >= Fine(inst.dueDate, now)
    ensures var q1 := Waterfall(p1, Refreshed(inst, now)).value;
      var after := Settle(Refreshed(inst, now), q1, now);
      && Waterfall(p2, Refreshed(after, now)).Ok?
      && q1.finePaid == Fine(inst.dueDate, now)
      && Waterfall(p2, Refreshed(after, now)).value.finePaid == Fine(inst.dueDate, now)
  {
  }

  // ---------------------------------------------------------------------------
  // The installment a payment goes to

  /** An installment still open for the loan. */
  predicate Open(inst: Installment, loanId: Id)
  {
    inst.loanId == loanId && (inst.status == InstallmentPending || inst.status == Partial)
  }

  /** `a` (stored under `ka`) comes no later than `b` (under `kb`): by number, and by identity among equal numbers. */
  predicate Precedes(a: Installment, ka: Id, b: Installment, kb: Id)
  {
    a.installmentNumber < b.installmentNumber || (a.installmentNumber == b.installmentNumber && ka <= kb)
  }

  /** `k` is, among the open installments of the loan stored under the identities of `s`, the one that comes first. */
  ghost predicate FirstIn(installments: map<Id, Installment>, loanId: Id, s: set<Id>, k: Id)
  {
    && k in s && k in installments && Open(installments[k], loanId)
    && forall i :: i in s && i in installments && Open(installments[i], loanId) ==>
         Precedes(installments[k], k, installments[i], i)
  }

  /** `k` is the open installment of the loan that comes first. */
  ghost predicate IsNext(installments: map<Id, Installment>, loanId: Id, k: Id)
  {
    FirstIn(installments, loanId, installments.Keys, k)
  }

  /** The installment a payment without one goes to, if any is open. */
  ghost function NextInstallment(installments: map<Id, Installment>, loanId: Id): Option<Id>
  {
    if exists k :: IsNext(installments, loanId, k) then Some(var k :| IsNext(installments, loanId, k); k) else None
  }

  lemma IsNextUnique(installments: map<Id, Installment>, loanId: Id, k1: Id, k2: Id)
    requires IsNext(installments, loanId, k1) && IsNext(installments, loanId, k2)
    ensures k1 == k2
  {
    assert Precedes(installments[k1], k1, installments[k2], k2);
    assert Precedes(installments[k2], k2, installments[k1], k1);
  }

  /** Among the open installments whose identities lie in `s`, one comes first. */
  lemma {:induction false} FirstExists(installments: map<Id, Installment>, loanId: Id, s: set<Id>, j: Id) returns (k: Id)
    requires j in s && j in installments && Open(installments[j], loanId)
    ensures FirstIn(installments, loanId, s, k)
    decreases |s|
  {
    var rest := s - {j};
    if i :| i in rest && i in installments && Open(installments[i], loanId) {
      k := FirstExists(installments, loanId, rest, i);
      if !Precedes(installments[k], k, installments[j], j) {
        k := j;
      }
    } else {
      k := j;
    }
  }

  /**
   * The payment goes to the open installment of the loan with the smallest
   * number; there is one exactly when the loan has an open installment.
   */
  lemma NextInstallmentChoice(installments: map<Id, Installment>, loanId: Id)
    ensures NextInstallment(installments, loanId).None? <==> forall j :: j in installments ==> !Open(installments[j], loanId)
    ensures NextInstallment(installments, loanId).Some? ==>
      var k := NextInstallment(installments, loanId).value;
      && k in installments && Open(installments[k], loanId)
      && forall j :: j in installments && Open(installments[j], loanId) ==>
           installments[k].installmentNumber <= installments[j].installmentNumber
  {
    if j :| j in installments && Open(installments[j], loanId) {
      var k := FirstExists(installments, loanId, installments.Keys, j);
      assert IsNext(installments, loanId, k);
    }
  }

  /** Where a payment goes: the installment it names, or else the next open one. */
  ghost function Target(installments: map<Id, Installment>, p: Payment): Option<Id>
  {
    if p.installmentId.Some? then p.installmentId else NextInstallment(installments, p.loanId)
  }

  /** The payment with its target and its components, when the target installment is found. */
  ghost function Allocation(installments: map<Id, Installment>, p: Payment, now: Date): Result<Payment>
  {
    var t := Target(installments, p);
    var q := p.(installmentId := t);
    if t.Some? && t.value in installments then Waterfall(q, Refreshed(installments[t.value], now)) else Ok(q)
  }

  /** The installments after the payment `q` has been allocated. */
  ghost function SettledInstallments(installments: map<Id, Installment>, q: Payment, now: Date): map<Id, Installment>
  {
    if q.installmentId.Some? && q.installmentId.value in installments
    then installments[q.installmentId.value := Settle(Refreshed(installments[q.installmentId.value], now), q, now)]
    else installments
  }

  /** With no target installment found, nothing is allocated: the components stay as they came. */
  lemma NoTargetNoAllocation(installments: map<Id, Installment>, p: Payment, now: Date)
    requires var t := Target(installments, p); t.None? || t.value !in installments
    ensures Allocation(installments, p, now) == Ok(p.(installmentId := Target(installments, p)))
    ensures SettledInstallments(installments, Allocation(installments, p, now).value, now) == installments
  {
  }

  /**
   * The foreign keys the store enforces when a payment row is saved: the
   * installment it names, if any, and its member must exist. The
   * installment is checked first.
   */
  function ReferenceError(installments: map<Id, Installment>, members: map<Id, Member>, p: Payment): (e: Option<Error>)
    ensures e.None? <==> (p.installmentId.Some? ==> p.installmentId.value in installments) && p.memberId in members
    ensures p.installmentId.Some? && p.installmentId.value !in installments ==> e == Some(ForeignKey("Installment"))
    ensures e.Some? && e != Some(ForeignKey("Installment")) ==> e == Some(ForeignKey("Member")) && p.memberId !in members
  {
    if p.installmentId.Some? && p.installmentId.value !in installments then Some(ForeignKey("Installment"))
    else if p.memberId !in members then Some(ForeignKey("Member"))
    else None
  }

  // ---------------------------------------------------------------------------
  // The service

  class PaymentService {
    const db: Database
    const accounting: AccountingService

    constructor (db: Database, accounting: AccountingService)
      requires accounting.db == db
      ensures this.db == db && this.accounting == accounting
    {
      this.db := db;
      this.accounting := accounting;
    }

    ghost predicate Valid()
      reads this, db, accounting, accounting.db
    {
      accounting.db == db && accounting.Valid()
    }

    /** `GeneratePaymentCodeAsync`: "PAY-", the year, and the count of stored payments plus one in at least six digits. */
    function GeneratePaymentCode(yy: string): (code: string)
      reads db
      ensures Codes.ReadsBack(code, "PAY-" + yy + "-", |db.payments| + 1, 6)
    {
      Codes.CodeReadsBack("PAY-" + yy + "-", |db.payments| + 1, 6);
      Codes.PaymentCode(yy, |db.payments|)
    }

    /** The open installment of the loan with the smallest number, over the installments loaded with it. */
    method SelectInstallment(loanId: Id) returns (k: Option<Id>)
      ensures k == NextInstallment(db.installments, loanId)
    {
      k := None;
      var todo := db.installments.Keys;
      ghost var done: set<Id> := {};
      while todo != {}
        invariant todo + done == db.installments.Keys && todo !! done
        invariant k.None? ==> forall j :: j in done ==> !Open(db.installments[j], loanId)
        invariant k.Some? ==> k.value in done && Open(db.installments[k.value], loanId)
        invariant k.Some? ==> forall j :: j in done && Open(db.installments[j], loanId) ==>
          Precedes(db.installments[k.value], k.value, db.installments[j], j)
        decreases todo
      {
        var j :| j in todo;
        var inst := db.installments[j];
        if Open(inst, loanId) && (k.None? || !Precedes(db.installments[k.value], k.value, inst, j)) {
          k := Some(j);
        }
        todo := todo - {j};
        done := done + {j};
      }
      if k.Some? {
        assert IsNext(db.installments, loanId, k.value);
        var n := NextInstallment(db.installments, loanId);
        IsNextUnique(db.installments, loanId, k.value, n.value);
      }
    }

    /** The fine refreshed on installment `id`, the split made and the installment settled. */
    method ApplyToInstallment(q: Payment, id: Id, now: Date) returns (r: Result<Payment>)
      requires Valid() && id in db.installments && q.installmentId == Some(id)
      modifies db`installments
      ensures Valid()
      ensures r == Waterfall(q, Refreshed(old(db.installments[id]), now))
      ensures r.Err? ==> unchanged(db)
      ensures r.Ok? ==> db.installments == SettledInstallments(old(db.installments), r.value, now)
    {
      var inst := Refreshed(db.installments[id], now);
      r := Waterfall(q, inst);
      if r.Ok? {
        db.installments := db.installments[id := Settle(inst, r.value, now)];
      }
    }

    /** The loan's running totals and status after the payment, its paid installments counted again. */
    method UpdateLoan(loanId: Id, q: Payment, now: Date)
      requires Valid() && loanId in db.loans
      modifies db`loans
      ensures Valid()
      ensures db.loans == old(db.loans)[loanId := SettleLoan(old(db.loans[loanId]), q, PaidCount(db.installments, loanId), now)]
    {
      var loan := db.loans[loanId];
      db.loans := db.loans[loanId := SettleLoan(loan, q, PaidCount(db.installments, loanId), now)];
    }

    /** The target chosen, the fine refreshed and the split made; a zero-total installment that was paid into throws. */
    method Allocate(payment: Payment, now: Date) returns (r: Result<Payment>)
      requires Valid() && payment.loanId in db.loans
      modifies db`installments, db`loans
      ensures Valid()
      ensures r == Allocation(old(db.installments), payment, now)
      ensures r.Err? ==> unchanged(db)
      ensures r.Ok? ==> db.installments == SettledInstallments(old(db.installments), r.value, now)
      ensures r.Ok? ==>
        db.loans == old(db.loans)[payment.loanId := SettleLoan(old(db.loans[payment.loanId]), r.value,
                                                                PaidCount(db.installments, payment.loanId), now)]
    {
      var target := payment.installmentId;
      if target.None? {
        target := SelectInstallment(payment.loanId);
      }
      var q := payment.(installmentId := target);
      if target.Some? && target.value in db.installments {
        var w := ApplyToInstallment(q, target.value, now);
        if w.Err? {
          return w;
        }
        q := w.value;
      }
      UpdateLoan(payment.loanId, q, now);
      r := Ok(q);
    }

    /** The payment stamped with its code and date, stored, saved and posted to the ledger under its collector. */
    method StorePayment(q: Payment, now: Date, yy: string) returns (p: Payment)
      requires Valid()
      modifies db`payments, db`nextId, db`savedTransactions, db`transactions, db`ledgerAccounts, accounting`accountCache
      ensures Valid()
      ensures p == q.(paymentCode := Codes.PaymentCode(yy, |old(db.payments)|), paymentDate := now)
      ensures old(db.nextId) !in old(db.payments) && db.payments == old(db.payments)[old(db.nextId) := p]
      ensures forall c {:trigger BalanceOf(db.ledgerAccounts, c)} ::
        BalanceOf(db.ledgerAccounts, c) == BalanceOf(old(db.ledgerAccounts), c) + LegsDelta(RepaymentLegs(p.principalPaid, p.interestPaid, p.finePaid), c)
      ensures Balanced(db.ledgerAccounts) <==> Balanced(old(db.ledgerAccounts))
      ensures Posted(old(db.transactions), db.transactions, RepaymentLegs(p.principalPaid, p.interestPaid, p.finePaid), accounting.accountCache)
      ensures Stamped(db.transactions, |old(db.transactions)|, now, p.collectedBy, Some(p.loanId), Some(old(db.nextId)))
    {
      p := q.(paymentCode := GeneratePaymentCode(yy), paymentDate := now);
      var id := db.NewId();
      db.payments := db.payments[id := p];
      db.SaveChanges();
      accounting.RecordLoanRepayment(id, p, p.collectedBy, now, yy);
    }

    /**
     * `RecordPaymentAsync`. An unknown loan and a failed split throw before
     * anything is saved; a payment naming an unknown installment or member
     * fails when it is saved, after the installment and the loan have been
     * updated in memory. Either way the unit of work is rolled back.
     */
    method RecordPayment(payment: Payment, now: Date, yy: string) returns (r: Result<Payment>)
      requires Valid()
      modifies db`installments, db`loans, db`payments, db`nextId, db`savedTransactions, db`transactions, db`ledgerAccounts
      modifies accounting`accountCache
      ensures Valid()
      ensures payment.loanId !in old(db.loans) ==> r == Err(NotFound("Loan"))
      ensures r.Err? <==> || payment.loanId !in old(db.loans)
                          || Allocation(old(db.installments), payment, now).Err?
                          || ReferenceError(old(db.installments), old(db.members), payment).Some?
      ensures payment.loanId in old(db.loans) && Allocation(old(db.installments), payment, now).Ok?
                && ReferenceError(old(db.installments), old(db.members), payment).Some? ==>
              r == Err(ReferenceError(old(db.installments), old(db.members), payment).value)
      ensures r.Err? ==> unchanged(db) && unchanged(accounting)
      ensures r.Ok? ==>
        var q := Allocation(old(db.installments), payment, now).value;
        && r.value == q.(paymentCode := Codes.PaymentCode(yy, |old(db.payments)|), paymentDate := now)
        && db.installments == SettledInstallments(old(db.installments), q, now)
        && db.loans == old(db.loans)[payment.loanId := SettleLoan(old(db.loans[payment.loanId]), q,
                                                                   PaidCount(db.installments, payment.loanId), now)]
        && db.payments == old(db.payments)[old(db.nextId) := r.value]
        && (forall c {:trigger BalanceOf(db.ledgerAccounts, c)} ::
              BalanceOf(db.ledgerAccounts, c)
                == BalanceOf(old(db.ledgerAccounts), c) + LegsDelta(RepaymentLegs(q.principalPaid, q.interestPaid, q.finePaid), c))
        && (Balanced(db.ledgerAccounts) <==> Balanced(old(db.ledgerAccounts)))
        && Posted(old(db.transactions), db.transactions, RepaymentLegs(q.principalPaid, q.interestPaid, q.finePaid), accounting.accountCache)
        && Stamped(db.transactions, |old(db.transactions)|, now, r.value.collectedBy, Some(r.value.loanId), Some(old(db.nextId)))
    {
      if payment.loanId !in db.loans {
        return Err(NotFound("Loan"));
      }
      var installments0, loans0 := db.installments, db.loans;
      var split := Allocate(payment, now);
      if split.Err? {
        return split;
      }
      var missing := ReferenceError(installments0, db.members, payment);
      if missing.Some? {
        // the insert breaks a foreign key; the rollback discards the updates tracked so far
        db.installments, db.loans := installments0, loans0;
        return Err(missing.value);
      }
      var p := StorePayment(split.value, now, yy);
      r := Ok(p);
    }
  }
}
