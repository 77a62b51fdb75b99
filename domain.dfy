/**
 * The entities of the microcredit back end, as plain values.
 *
 * Every entity that the services look up by identity lives in a map of the
 * `Store.Database` keyed by `Id`; a field write on a tracked entity is a map
 * update there. Only the fields that the modelled services read or write are
 * kept.
 */
module Domain {

  /** Entity identity. The source mixes Guid and int keys; the model only compares them. */
  type Id = nat

  /**
   * A point in time as a number of days since an arbitrary epoch; the fraction
   * is the time of day. `AddDays(k)` is `+ k` and `(a - b).TotalDays` is `a - b`.
   */
  type Date = real

  datatype Option<+T> = None | Some(value: T)

  /** The exceptions the services raise, by kind. */
  datatype Error =
    | NotFound(entity: string)
    | RuleViolation(message: string)
    | DivideByZero
    | Overflow
    | OutOfRange   // a substring past the end of a string
    | ForeignKey(entity: string)   // a saved row names a row the store does not hold

  datatype Result<+T> = Ok(value: T) | Err(error: Error)

  datatype MemberStatus = MemberActive | MemberInactive | Blacklisted

  datatype LoanStatus = Pending | Approved | Disbursed | Active | Closed | Rejected | WrittenOff

  datatype InterestType = Flat | ReducingBalance | DecliningBalanceEMI

  datatype InstallmentStatus = InstallmentPending | Paid | Partial | Overdue

  datatype AccountType = Asset | Liability | Equity | Income | Expense

  datatype TransactionType =
    | LoanDisbursement | LoanRepayment | SavingsDeposit | SavingsWithdrawal | FineCollection | InterestIncome

  datatype Member = Member(
    status: MemberStatus,
    branchId: Id,
    groupId: Id,
    loanCycle: int)

  datatype Group = Group(performanceRating: real)

  datatype Branch = Branch(branchCode: string)

  datatype Loan = Loan(
    loanCode: string,
    memberId: Id,
    branchId: Id,
    groupId: Option<Id>,
    loanAmount: real,
    interestRate: real,          // yearly percentage
    interestType: InterestType,
    durationInWeeks: int,
    totalInterest: real,
    totalPayable: real,
    weeklyInstallment: real,
    status: LoanStatus,
    applicationDate: Date,
    approvalDate: Option<Date>,
    disbursementDate: Option<Date>,
    approvedBy: Option<Id>,
    paidAmount: real,
    remainingBalance: real,
    paidInstallments: int,
    lastPaymentDate: Option<Date>,
    closedDate: Option<Date>)

  datatype Installment = Installment(
    loanId: Id,
    installmentNumber: int,
    dueDate: Date,
    principalAmount: real,
    interestAmount: real,
    totalAmount: real,
    paidAmount: real,
    remainingAmount: real,
    status: InstallmentStatus,
    paymentDate: Option<Date>,
    lateDays: int,
    fineAmount: real)

  datatype Payment = Payment(
    paymentCode: string,
    loanId: Id,
    memberId: Id,
    installmentId: Option<Id>,
    paymentDate: Date,
    principalPaid: real,
    interestPaid: real,
    finePaid: real,
    totalAmount: real,
    collectedBy: Id)

  datatype SavingsAccount = SavingsAccount(
    accountNumber: string,
    memberId: Id,
    balance: real,
    totalDeposits: real,
    totalWithdrawals: real,
    isActive: bool,
    openingDate: Date)

  datatype SavingsTransaction = SavingsTransaction(
    savingsAccountId: Id,
    transactionType: string,     // "Deposit" or "Withdrawal"
    amount: real,
    balanceAfter: real,
    transactionDate: Date,
    processedBy: Id,
    remarks: Option<string>)

  datatype LedgerAccount = LedgerAccount(
    accountCode: string,
    accountName: string,
    accountType: AccountType,
    balance: real,
    isActive: bool)

  datatype Transaction = Transaction(
    transactionCode: string,
    transactionDate: Date,
    transactionType: TransactionType,
    debitAccountId: Id,
    creditAccountId: Id,
    amount: real,
    loanId: Option<Id>,
    paymentId: Option<Id>,
    createdBy: Id)

  function Min(a: real, b: real): real { if a <= b then a else b }

  function Max(a: real, b: real): real { if a >= b then a else b }
}
