# Microcredit back end: a verified model of its financial core

This project models the back end of a microcredit institution. Members in
groups and branches save money and borrow it on weekly installment schedules.
Collectors record repayments against those installments. Every movement of
money is posted to a small double-entry ledger. Around this core sit four
rule-based scoring services: credit risk, fraud screening, late-payment
prediction and collection optimisation.

The modules follow the services:

| module | file | models |
|---|---|---|
| `Domain` | domain.dfy | the entities read or written by the services, as values (`Loan`, `Installment`, `Payment`, `SavingsAccount`, `SavingsTransaction`, `LedgerAccount`, `Transaction`, `Member`, `Group`), the enumerations, `Option`, `Result` and the error kinds |
| `Store` | store.dfy | the persistence context: a `Database` class with one map per entity set, the transaction log, the count of saved transactions and the identity generator |
| `Codes` | codes.dfy | the human-readable codes `LN-…`, `PAY-…`, `TXN-…`, `SAV-…` and .NET's zero-padded `D<w>` format |
| `Accounting` | accounting.dfy | `AccountingService`: the chart of accounts created on demand and cached by code, and the postings |
| `Savings` | savings.dfy | `SavingsService`: opening accounts, deposits and withdrawals |
| `Loans` | loans.dfy | `LoanService`: totals, eligibility, the Pending → Approved → Disbursed life cycle, the schedule and the loan code |
| `Payments` | payments.dfy | `PaymentService`: the target installment, the fine refresh, the fine → interest → principal waterfall, and the installment and loan updates |
| `Risk` | risk.dfy | `AIRiskAssessmentService`: the credit-risk score and the batch |
| `Fraud` | fraud.dfy | `AIFraudDetectionService`: the phone pattern, the request score and the group screening |
| `Prediction` | prediction.dfy | `AIPaymentPredictionService`: the probability of delay and the high-risk list |
| `Collection` | collection.dfy | `AICollectionOptimizationService`: branch and area classification, the forecast and the recommendations |
| `Sorting` | sorting.dfy | LINQ `OrderBy` on a numeric key as an insertion sort |

The stateful services follow the shape of the C# code:

- `AccountingService`, `SavingsService`, `LoanService` and `PaymentService` are classes over one shared `Store.Database`.
- They change the database's fields in place, with `modifies` clauses as narrow as a single field.
- Each method is proved against a value-level specification: a function of the old state, such as `Schedule`, `Waterfall`, `Settle`, `SettleLoan`, `Deposited` or `RepaymentLegs`.
- Separate lemmas then prove what those specifications promise.

The ledger has a reference semantics:

- Each kind of posting names a debit account and a credit account.
- Natural double-entry signs say how a posting moves each balance.
- Every posting method is proved to move balances by exactly that reference.
- The reference is proved to preserve CASH + LOAN_RECEIVABLE = SAVINGS_LIABILITY + INTEREST_INCOME + FINE_INCOME.
- The equation is part of `AccountingService.Valid`. An empty ledger satisfies it, and every operation that requires `Valid` gives it back, so the equation holds after every operation.

The scoring services are module-level methods that accumulate a score and a list of factors, as the C# code does. Each is proved equal to a scoring function, and the lemmas bound, decompose and classify that function. The database aggregates these services query are passed in as values:

- `MemberProfile` for risk;
- `Findings` and the member and group tables for fraud;
- `History` and `Candidate` for prediction;
- the branch, resident and due-item rows for collection.

Amounts and rates are `real`. A date is a `real` number of days, with the fraction as the time of day. Identities are natural numbers that are only compared.

## Model

| member | source | states |
|---|---|---|
| Codes.FormatDRoundTrip | src/Application/Services/AccountingService.cs:191 | reading the digits of `{n:D<w>}` back gives `n`, and the text has at least `w` characters |
| Codes.FormatDWidth | src/Application/Services/PaymentService.cs:147 | a number below 10^w is written with exactly `w` digits |
| Codes.TransactionCodeInjective | src/Application/Services/AccountingService.cs:187-192 | two `TXN-{yy}-{count+1:D7}` codes of one year are equal iff their counts are |
| Codes.PaymentCodeInjective | src/Application/Services/PaymentService.cs:143-148 | two `PAY-{yy}-{count+1:D6}` codes of one year are equal iff their counts are |
| Codes.AccountNumberInjective | src/Application/Services/SavingsService.cs:122-127 | two `SAV-{yy}-{count+1:D6}` numbers of one year are equal iff their counts are |
| Codes.LoanCodeInjective | src/Application/Services/LoanService.cs:193-200 | two `LN-{branch}-{yy}-{count+1:D5}` codes of one branch code and year are equal iff their counts are |
| Codes.LoanCodeExample | src/Application/Services/LoanService.cs:196-199 | an unknown branch with 41 loans in year 26 gets `LN-BR-26-00042` |
| Accounting.EmptyLedgerBalanced | src/Application/Services/AccountingService.cs:159-186 | a ledger with no accounts satisfies the accounting equation, so a new store meets the ledger invariant before any account is created |
| Accounting.RepaymentLegs | src/Application/Services/AccountingService.cs:44-110 | a repayment posts at most three entries, each of a strictly positive amount |
| Accounting.LegNeutral | src/Application/Services/AccountingService.cs:34-154 | every kind of posting moves CASH + LOAN_RECEIVABLE and SAVINGS_LIABILITY + INTEREST_INCOME + FINE_INCOME by the same amount |
| Accounting.LegsNeutral | src/Application/Services/AccountingService.cs:34-154 | so does any sequence of postings |
| Accounting.LegsKeepEquation | src/Application/Services/AccountingService.cs:34-154 | a ledger moved by reference postings satisfies the accounting equation iff it did before |
| Accounting.RepaymentCash | src/Application/Services/AccountingService.cs:62-108 | a repayment raises CASH by the sum of its positive components, lowers LOAN_RECEIVABLE by the principal, raises INTEREST_INCOME and FINE_INCOME by interest and fine, and moves nothing else |
| Accounting.RepaymentDone | src/Application/Services/AccountingService.cs:39-112 | the three posting blocks together post exactly the reference legs of the repayment and keep the equation |
| Accounting.AccountingService.constructor | src/Application/Services/AccountingService.cs:11-14 | a new service starts with an empty account cache |
| Accounting.AccountingService.GenerateTransactionCode | src/Application/Services/AccountingService.cs:187-192 | "TXN-", the year, a dash, then at least seven digits that read back as the number of saved transactions plus one |
| Accounting.AccountingService.GetOrCreateLedgerAccount | src/Application/Services/AccountingService.cs:159-186 | returns the account holding the code (the existing one when any, else a new zero-balance one), caches its id under the code, keeps one account per code and changes no balance |
| Accounting.AccountingService.OpenPair | src/Application/Services/AccountingService.cs:17-18 | both codes are cached with their accounts, no balance changes, and only those two codes can gain an account |
| Accounting.AccountingService.Adjust | src/Application/Services/AccountingService.cs:34-35 | adding to one account's balance moves the balance of its code and of no other code |
| Accounting.AccountingService.Post | src/Application/Services/AccountingService.cs:34-36 | a posting moves exactly the debit and credit accounts it names, by the reference amounts, and appends its transaction |
| Accounting.AccountingService.RecordLoanDisbursement | src/Application/Services/AccountingService.cs:15-38 | one transaction debiting LOAN_RECEIVABLE and crediting CASH by the loan amount, stamped with the loan and the approver, coded from the saved count; the equation is kept |
| Accounting.AccountingService.RecordLoanRepayment | src/Application/Services/AccountingService.cs:39-112 | one transaction per positive component, principal then interest then fine; balances move by exactly those legs; the equation is kept; every code counts the transactions saved before the repayment, except that a fine posted after opening FINE_INCOME counts the transactions saved by that opening |
| Accounting.AccountingService.OpenRepaymentAccounts | src/Application/Services/AccountingService.cs:41-43 | the cash, receivable and interest accounts are cached, with no balance changed and nothing posted |
| Accounting.AccountingService.PostRepaymentBlocks | src/Application/Services/AccountingService.cs:44-110 | the three conditional blocks extend the repayment's progress by the principal, interest and fine legs |
| Accounting.AccountingService.PostFinePart | src/Application/Services/AccountingService.cs:88-110 | the fine block opens FINE_INCOME and posts only when the fine is positive |
| Accounting.AccountingService.PostRepaymentPart | src/Application/Services/AccountingService.cs:44-87 | a component block posts one leg when its amount is positive and nothing otherwise |
| Accounting.AccountingService.PostRepaymentLeg | src/Application/Services/AccountingService.cs:46-64 | one positive block: the transaction appended, stamped and coded, and the balances moved by its leg |
| Accounting.AccountingService.RecordSavingsTransaction | src/Application/Services/AccountingService.cs:113-158 | "Deposit" debits CASH and credits SAVINGS_LIABILITY; any other type reverses both; one transaction posted; the equation is kept |
| Savings.DepositKeepsSound | src/Application/Services/SavingsService.cs:43-44 | a deposit keeps Balance = TotalDeposits − TotalWithdrawals ≥ 0, raises the balance by the amount and leaves the withdrawals total alone |
| Savings.WithdrawKeepsSound | src/Application/Services/SavingsService.cs:82-85 | a withdrawal that passes the balance check keeps the account sound, lowers the balance by the amount and leaves the deposits total alone |
| Savings.DepositThenWithdraw | src/Application/Services/SavingsService.cs:43-85 | withdrawing what was just deposited passes the balance check, restores the balance and raises both totals by the amount |
| Savings.OverdraftRefused | src/Application/Services/SavingsService.cs:82-83 | on an active account, a positive withdrawal passes the guards iff the balance covers it, and is otherwise refused as insufficient |
| Savings.OverdraftExample | src/Application/Services/SavingsService.cs:82-83 | 150 from a balance of 100 is refused |
| Savings.DepositLedger | src/Application/Services/AccountingService.cs:118-136 | a deposit raises CASH and SAVINGS_LIABILITY by the amount and moves nothing else |
| Savings.WithdrawalLedger | src/Application/Services/AccountingService.cs:137-155 | a withdrawal lowers CASH and SAVINGS_LIABILITY by the amount and moves nothing else |
| Savings.SavingsService.constructor | src/Application/Services/SavingsService.cs:10-14 | the service shares the store with its ledger |
| Savings.SavingsService.GetBalance | src/Application/Services/SavingsService.cs:117-121 | 0 for an unknown account, and never negative while every account is sound |
| Savings.SavingsService.GenerateAccountNumber | src/Application/Services/SavingsService.cs:122-127 | "SAV-", the year, a dash, then at least six digits that read back as the number of accounts plus one |
| Savings.SavingsService.CreateSavingsAccount | src/Application/Services/SavingsService.cs:15-30 | fails, changing nothing, iff the member already has an account (a RuleViolation) or has no member row (a ForeignKey error on the save, checked second); otherwise stores an active account with zero balance and totals under a fresh id and the number `SAV-{yy}-{count+1:D6}` |
| Savings.SavingsService.ApplyMovement | src/Application/Services/SavingsService.cs:57-60 | the account stored, exactly one movement appended and exactly one posting made, stamped with the date and the processing user and coded from the saved-transaction count |
| Savings.SavingsService.Deposit | src/Application/Services/SavingsService.cs:31-69 | fails, changing nothing, iff the amount is not positive or the account is missing or inactive; otherwise balance and deposits rise by the amount, the movement's BalanceAfter is the new balance, and the ledger is posted, the postings stamped with the date and the processing user and coded from the saved-transaction count |
| Savings.SavingsService.Withdraw | src/Application/Services/SavingsService.cs:70-110 | the same guards plus the balance check; otherwise balance falls and withdrawals rise by the amount, BalanceAfter is the new balance, and the ledger is posted, the postings stamped with the date and the processing user and coded from the saved-transaction count |
| Loans.CalculateLoanDetails | src/Application/Services/LoanService.cs:123-148 | fails iff the duration is zero (Flat, ReducingBalance), or, for EMI, the rate or the duration is zero or the given conversion fails; otherwise changes only the three totals |
| Loans.CalculatedConsistent | src/Application/Services/LoanService.cs:127-145 | every successful computation gives TotalPayable = n·WeeklyInstallment = LoanAmount + TotalInterest |
| Loans.FlatTotals | src/Application/Services/LoanService.cs:127-131 | Flat: TotalInterest = P·r/100, TotalPayable = P + TotalInterest, WeeklyInstallment = TotalPayable/n |
| Loans.ReducingBalanceTotals | src/Application/Services/LoanService.cs:132-136 | ReducingBalance: TotalInterest = 0, TotalPayable = P, WeeklyInstallment = P/n |
| Loans.PaymentKeepsApprovals | src/Application/Services/PaymentService.cs:91-103 | settling a loan after a payment keeps every Approved or Disbursed loan's approver recorded, so a payment gives the loan service its invariant back |
| Loans.FlatExample | src/Application/Services/LoanService.cs:127-131 | P = 10000, r = 15, n = 50 gives 1500, 11500 and 230 |
| Loans.ApplicationRules | src/Application/Services/LoanService.cs:18-35 | an application passes iff the member exists and is active, has no approved, disbursed or active loan, has a savings account with a balance of at least 100, and any group found has a rating of at least 0.5 |
| Loans.ReferenceError | src/Infrastructure/Data/Configurations/EntityConfigurations.cs:101-108 | no error iff the loan's branch, and its group when it names one, are in the store; the branch is reported first |
| Loans.EntryShape | src/Application/Services/LoanService.cs:154-189 | installment i is numbered i, due 7·i days after disbursement, pending, with RemainingAmount = TotalAmount = WeeklyInstallment and nothing paid |
| Loans.EntrySplit | src/Application/Services/LoanService.cs:166-186 | with consistent totals, every installment's principal plus interest is the weekly installment, in every method |
| Loans.EntryReducing | src/Application/Services/LoanService.cs:172-184 | ReducingBalance and EMI: interestᵢ is the principal owed before step i times r/100/52, and the principal owed drops by principalᵢ |
| Loans.ScheduleTotals | src/Application/Services/LoanService.cs:166-188 | the first k installments add up to k weekly installments |
| Loans.ScheduleSumsToPayable | src/Application/Services/LoanService.cs:149-189 | a complete schedule adds up to TotalPayable |
| Loans.PrincipalTelescopes | src/Application/Services/LoanService.cs:172-185 | ReducingBalance and EMI: the principal parts of the first k installments sum to what the owed principal dropped by |
| Loans.ReducingResidue | src/Application/Services/LoanService.cs:172-178 | ReducingBalance with a positive rate: after k installments more principal is owed than P − k·WeeklyInstallment |
| Loans.ReducingBalanceUnderAmortizes | src/Application/Services/LoanService.cs:132-178 | ReducingBalance with a positive rate: the schedule's principal parts sum to strictly less than the loan amount, while its totals sum to TotalPayable = LoanAmount |
| Loans.ScheduleIsPrefix | src/Application/Services/LoanService.cs:154-189 | the schedule holds exactly n entries, entry i being installment i |
| Loans.WithIdsContents | src/Application/Services/LoanService.cs:190 | the added installments land under consecutive fresh ids and nothing stored before moves |
| Loans.LoanService.constructor | src/Application/Services/LoanService.cs:11-15 | the service shares the store with its ledger |
| Loans.LoanService.HasActiveLoan | src/Application/Services/LoanService.cs:108-115 | true iff the member has a loan that is Approved, Disbursed or Active, which is the `HasOpenLoan` the eligibility rules are stated with |
| Loans.LoanService.GeneratedLoanCode | src/Application/Services/LoanService.cs:193-200 | `GenerateLoanCode` yields "LN-", the branch's code ("BR" for an unknown branch), the year, then at least five digits that read back as the branch's loan count plus one |
| Loans.LoanService.CheckApplication | src/Application/Services/LoanService.cs:18-35 | returns the first eligibility rule that fails, in the order the service checks them |
| Loans.LoanService.CreateLoanApplication | src/Application/Services/LoanService.cs:16-44 | fails, storing nothing, iff a rule fails, the totals fail, or the loan names an unknown branch or group (a ForeignKey error on the save), reporting the first in that order; otherwise stores the computed loan under a fresh id with its code, the date, status Pending and RemainingBalance = TotalPayable |
| Loans.LoanService.ApproveLoan | src/Application/Services/LoanService.cs:45-59 | succeeds iff the loan exists and is Pending; it becomes Approved with approver and date, and only it changes; otherwise the error names the failed check and nothing changes |
| Loans.LoanService.BuildSchedule | src/Application/Services/LoanService.cs:149-189 | the loop that carries the owed principal produces exactly the specified schedule |
| Loans.LoanService.StoreSchedule | src/Application/Services/LoanService.cs:149-192 | the schedule is stored under fresh ids |
| Loans.LoanService.MarkDisbursed | src/Application/Services/LoanService.cs:67-75 | the loan stored, its schedule added, and the member's loan cycle up by one when the member exists |
| Loans.LoanService.DisburseLoan | src/Application/Services/LoanService.cs:60-81 | succeeds iff the loan exists and is Approved; it becomes Disbursed with its schedule, the loan cycle of its member (when the member exists) rises by 1, and one disbursement is posted while the equation is kept; otherwise nothing changes. The service invariant says every Approved or Disbursed loan has an approver, so the posting is unconditional; the posting is stamped with the date, the approver and the loan and coded from the saved-transaction count |
| Loans.LoanService.AddInstallments | src/Application/Services/LoanService.cs:190-191 | each installment gets a fresh consecutive id |
| Payments.Fine | src/Application/Services/PaymentService.cs:137-141 | the fine is never negative, and zero iff the installment is not past due |
| Payments.CalculateFine | src/Application/Services/PaymentService.cs:132-142 | zero for an unknown installment; otherwise the fine of its due date |
| Payments.LateDays | src/Application/Services/PaymentService.cs:46-48 | whole days late: the day count truncated, never negative |
| Payments.FineGrows | src/Application/Services/PaymentService.cs:137-141 | the fine never shrinks as time passes, and once the installment is past due it grows by exactly five per day |
| Payments.WaterfallDefined | src/Application/Services/PaymentService.cs:57-77 | the split fails, by division by zero, iff the installment has a zero total and something paid; it changes only the three components |
| Payments.WaterfallBounds | src/Application/Services/PaymentService.cs:57-77 | for non-negative cash, each component lies between 0 and what is due for it, and together they do not exceed the cash |
| Payments.WaterfallPriority | src/Application/Services/PaymentService.cs:57-77 | interest is paid only once the fine is covered, and principal only once fine and interest are |
| Payments.WaterfallCoversAll | src/Application/Services/PaymentService.cs:57-77 | cash covering everything due pays each component in full |
| Payments.WaterfallCashPosting | src/Application/Services/PaymentService.cs:57-77 | the cash a split posts is its three components, never more than was paid, and the receivable falls by the principal part |
| Payments.Waterfall | src/Application/Services/PaymentService.cs:57-77 | the split itself; its contract is stated by Payments.WaterfallDefined, WaterfallBounds, WaterfallPriority and WaterfallCoversAll |
| Payments.ReferenceError | src/Infrastructure/Data/Configurations/EntityConfigurations.cs:147-154 | no error iff the payment's installment, when it names one, and its member are in the store; the installment is reported first |
| Payments.Settle | src/Application/Services/PaymentService.cs:78-88 | PaidAmount grows by the payment amount less its fine part, RemainingAmount = TotalAmount − PaidAmount, the status is Paid iff nothing remains and Partial otherwise, and nothing else changes |
| Payments.SettleLoan | src/Application/Services/PaymentService.cs:91-103 | PaidAmount grows by principal plus interest only, RemainingBalance = TotalPayable − PaidAmount, the status is Closed iff nothing remains and Active otherwise, and nothing else changes |
| Payments.FineChargedEachPayment | src/Application/Services/PaymentService.cs:41-59 | the whole fine is charged again at each payment, however much of it was paid before |
| Payments.IsNextUnique | src/Application/Services/PaymentService.cs:30-33 | at most one open installment comes first |
| Payments.NextInstallmentChoice | src/Application/Services/PaymentService.cs:28-38 | without a named installment the payment goes to the open (Pending or Partial) installment of the loan with the smallest number, and to none iff none is open |
| Payments.NoTargetNoAllocation | src/Application/Services/PaymentService.cs:39-77 | with no target installment found, no component is allocated and no installment changes |
| Payments.PaymentService.constructor | src/Application/Services/PaymentService.cs:12-17 | the service shares the store with its ledger |
| Payments.PaymentService.SelectInstallment | src/Application/Services/PaymentService.cs:30-33 | finds exactly the next open installment |
| Payments.PaymentService.ApplyToInstallment | src/Application/Services/PaymentService.cs:41-89 | the fine refreshed, the split made, the installment settled; a failed split changes nothing |
| Payments.PaymentService.UpdateLoan | src/Application/Services/PaymentService.cs:91-103 | the loan settled with its paid installments counted again, and no other loan changes |
| Payments.PaymentService.Allocate | src/Application/Services/PaymentService.cs:28-90 | the target chosen and the split made, as `Allocation` specifies |
| Payments.PaymentService.StorePayment | src/Application/Services/PaymentService.cs:104-108 | the payment stored with code `PAY-{yy}-{count+1:D6}` and the date, then posted to the ledger with the equation kept |
| Payments.PaymentService.GeneratePaymentCode | src/Application/Services/PaymentService.cs:143-148 | "PAY-", the year, a dash, then at least six digits that read back as the number of stored payments plus one |
| Payments.PaymentService.RecordPayment | src/Application/Services/PaymentService.cs:18-117 | fails, changing nothing, iff the loan is unknown, the split fails, or the payment names an unknown installment or member (that foreign-key error comes last, after the in-memory updates, which the rollback discards); otherwise the installment is settled, the loan is settled with its paid installments recounted, the payment is stored with its code, and exactly the repayment legs are appended to the log, stamped with the date, the collector, the loan and the payment's id, moving the balances by those legs while the equation is kept |
| Risk.Clamp | src/Application/Services/AIRiskAssessmentService.cs:84 | the result lies in [0, 100], and a score already within it is kept |
| Risk.Categorize | src/Application/Services/AIRiskAssessmentService.cs:88-111 | Low below 30, Medium below 60, High below 80, Very High from 80 on, each as an iff |
| Risk.ScoreRange | src/Application/Services/AIRiskAssessmentService.cs:24-84 | the raw score lies in [10, 135]; the final score is the raw score capped at 100, in [10, 100] |
| Risk.CategoryThresholds | src/Application/Services/AIRiskAssessmentService.cs:88-111 | the assessment's category follows 30, 60 and 80; approval is recommended iff the score is below 60 |
| Risk.NoSavingsRatio | src/Application/Services/AIRiskAssessmentService.cs:25-60 | without savings the ratio is 100, so the ratio rule adds 15 whatever is requested, and the low-savings rule adds 15 |
| Risk.NoGroupNoAdjustment | src/Application/Services/AIRiskAssessmentService.cs:69-78 | a member without a group gets no group weight, and is assessed exactly as a member of a group rated 0.65, a rating that carries no weight |
| Risk.FactorsExplainScore | src/Application/Services/AIRiskAssessmentService.cs:22-83 | with no risk factor the score is at most 50; with no positive factor at least 50 |
| Risk.BandsPartition | src/Application/Services/AIRiskAssessmentService.cs:147-150 | the low, medium and high counts add up to the number of assessments |
| Risk.AssessRisk | src/Application/Services/AIRiskAssessmentService.cs:13-123 | an unknown member is an error; otherwise the accumulated score, factors and category are those of `Assessment` |
| Risk.MemberRules | src/Application/Services/AIRiskAssessmentService.cs:24-54 | the savings and payment-history rules add their weights and factors to the base |
| Risk.LoanAndGroupRules | src/Application/Services/AIRiskAssessmentService.cs:55-83 | the ratio, running-loan, group and cycle rules add their weights and factors |
| Risk.AssessAll | src/Application/Services/AIRiskAssessmentService.cs:126-143 | the loop assesses the members in order and skips the ones that fail |
| Risk.BatchAssessRisk | src/Application/Services/AIRiskAssessmentService.cs:124-152 | TotalProcessed = number of assessments = Low + Medium + High, each band counted over the assessments |
| Risk.AssessedCount | src/Application/Services/AIRiskAssessmentService.cs:127-143 | the batch holds exactly as many assessments as there are members found |
| Fraud.RequestAction | src/Application/Services/AIFraudDetectionService.cs:121-137 | Approve below 20, Review below 50, Investigate below 75, Reject from 75 on, each as an iff |
| Fraud.GroupAction | src/Application/Services/AIFraudDetectionService.cs:221-223 | Investigate iff the group score is at least 50, Monitor otherwise |
| Fraud.CleanSeparators | src/Application/Services/AIFraudDetectionService.cs:154 | a cleaned number has no dash or space left, keeps every other character, and cleaning it again changes nothing |
| Fraud.ValidPhoneIff | src/Application/Services/AIFraudDetectionService.cs:150-158 | valid iff the number without dashes and spaces has length 11 and starts with "01", so the separators never change the verdict |
| Fraud.DetectFraud | src/Application/Services/AIFraudDetectionService.cs:13-145 | the alerts raised in check order, the score their capped total weight, suspicious iff the score is at least 30, and the action the one for the score |
| Fraud.TextChecks | src/Application/Services/AIFraudDetectionService.cs:17-76 | the NID, phone and address checks append their alerts and add their weights |
| Fraud.PhoneChecks | src/Application/Services/AIFraudDetectionService.cs:32-59 | an invalid pattern adds 15, and more than two other members with the phone add 25 |
| Fraud.AddressCheck | src/Application/Services/AIFraudDetectionService.cs:60-76 | more than ten members at a similar address add 15 |
| Fraud.RecordChecks | src/Application/Services/AIFraudDetectionService.cs:77-119 | a group under a day old with five or more members adds 20; a member under a week old with a loan above 50000 adds 25 |
| Fraud.RequestScoreRange | src/Application/Services/AIFraudDetectionService.cs:17-120 | at most six alerts and a raw total in [0, 140]; the capped score lies in [0, 100] |
| Fraud.RequestScoreFormula | src/Application/Services/AIFraudDetectionService.cs:17-120 | the raw score is exactly 40, 15, 25, 15, 20 and 25 for the checks that fire |
| Fraud.AbsentFieldsContributeNothing | src/Application/Services/AIFraudDetectionService.cs:17-103 | a missing field raises none of the alerts it drives; an empty request raises none at all |
| Fraud.DuplicateNidScore | src/Application/Services/AIFraudDetectionService.cs:17-129 | a registered NID alone gives a score of at least 40, never approved |
| Fraud.Nids | src/Application/Services/AIFraudDetectionService.cs:180 | the NIDs of the members, in order |
| Fraud.SimilarPairsPositive | src/Application/Services/AIFraudDetectionService.cs:180-192 | the pair count is positive iff some two members' NIDs share their first eight characters |
| Fraud.CountSimilarNids | src/Application/Services/AIFraudDetectionService.cs:180-191 | the nested loop fails when a NID read is shorter than eight characters, and otherwise counts the pairs i < j with equal eight-character prefixes |
| Fraud.GroupPatterns | src/Application/Services/AIFraudDetectionService.cs:168-214 | the join-date, similar-NID and address patterns append their alerts and add 30, 40 and 20 |
| Fraud.DetectSuspiciousGroup | src/Application/Services/AIFraudDetectionService.cs:159-225 | an unknown group is an error, so is a short NID; otherwise the group's alerts, the capped score, suspicious iff at least 30, and the group action |
| Fraud.GroupScoreFormula | src/Application/Services/AIFraudDetectionService.cs:168-215 | the group score is 30·[one join day ∧ ≥ 5 members] + 40·[a similar pair] + 20·[one address], at most 90, so the cap never bites |
| Fraud.SingleMemberGroup | src/Application/Services/AIFraudDetectionService.cs:203-214 | a one-member group cannot fail on its NIDs and always "shares" one address: its only alert is that one, worth 20 |
| Prediction.LateCountBound | src/Application/Services/AIPaymentPredictionService.cs:24-32 | the late count never exceeds the member's installments, and is positive only when some installment was paid late |
| Prediction.LateRate | src/Application/Services/AIPaymentPredictionService.cs:29-35 | the late-payment rate lies in [0, 1] and is 0 iff nothing was paid late |
| Prediction.RecentLateCountBound | src/Application/Services/AIPaymentPredictionService.cs:55-61 | the recent count is at most 5 and ignores all but the five newest payments |
| Prediction.Categorize | src/Application/Services/AIPaymentPredictionService.cs:71-88 | OnTime below 30, MayDelay below 60, HighRisk from 60 on, each as an iff |
| Prediction.PredictLatePayment | src/Application/Services/AIPaymentPredictionService.cs:13-108 | an unknown installment is an error; otherwise the accumulated probability, factors and plan are those of `PredictionOf` |
| Prediction.HistoryRules | src/Application/Services/AIPaymentPredictionService.cs:23-46 | base 20 plus the late-rate weight, the seasonal weight of months 12, 1 and 4 and the weight of installments beyond the 40th, with one factor per rule that fires |
| Prediction.GroupAndTrendRules | src/Application/Services/AIPaymentPredictionService.cs:47-66 | adds the weight of a group rated below 0.6 and of three or more of the last five payments late, with the trend factor |
| Prediction.ProbabilityRange | src/Application/Services/AIPaymentPredictionService.cs:23-67 | the raw probability lies in [20, 120]; capped at 100 it lies in [20, 100] |
| Prediction.CategoryRules | src/Application/Services/AIPaymentPredictionService.cs:71-88 | category by 30 and 60, reminder iff the probability is at least 30, and 1, 3 or 5 days ahead |
| Prediction.FactorsExplainProbability | src/Application/Services/AIPaymentPredictionService.cs:22-66 | the raw probability is 20 plus the sum of the weights of the factors listed, so every point above the base is explained |
| Prediction.NoFactorsOnTime | src/Application/Services/AIPaymentPredictionService.cs:22-88 | with no factor the probability is 20, OnTime, and no reminder |
| Prediction.Upcoming | src/Application/Services/AIPaymentPredictionService.cs:112-118 | only candidates that are pending installments due within [start, end] are taken, in store order |
| Prediction.UpcomingMembers | src/Application/Services/AIPaymentPredictionService.cs:112-118 | a candidate is taken iff it is one of the installments, pending, and due within [start, end] |
| Prediction.Predictions | src/Application/Services/AIPaymentPredictionService.cs:120-129 | one prediction per upcoming installment, in order |
| Prediction.KeptMembers | src/Application/Services/AIPaymentPredictionService.cs:130-133 | exactly the predictions of at least 50 are kept |
| Prediction.CollectFlagged | src/Application/Services/AIPaymentPredictionService.cs:119-139 | the loop keeps, in order, the predictions of at least 50 |
| Prediction.GetHighRiskUpcomingPayments | src/Application/Services/AIPaymentPredictionService.cs:109-141 | the kept predictions sorted by probability, highest first |
| Prediction.HighRiskList | src/Application/Services/AIPaymentPredictionService.cs:119-140 | the list is a permutation of the kept predictions, ordered highest first, holding exactly the upcoming predictions of at least 50 |
| Sorting.SortBy | src/Application/Services/AICollectionOptimizationService.cs:92 | the result is ordered by the key and is a permutation of the input |
| Sorting.SortByMembers | src/Application/Services/AIPaymentPredictionService.cs:140 | sorting keeps exactly the elements it was given |
| Collection.Classify | src/Application/Services/AICollectionOptimizationService.cs:72-80 | Excellent iff rate ≥ 90 ∧ PAR < 5; otherwise Good iff rate ≥ 75 ∧ PAR < 10; otherwise NeedsImprovement iff rate ≥ 60; otherwise Critical |
| Collection.Selected | src/Application/Services/AICollectionOptimizationService.cs:38-40 | all branches, or those with the requested id |
| Collection.InsightsCover | src/Application/Services/AICollectionOptimizationService.cs:42-48 | a branch has an insight iff it has loans |
| Collection.InsightsClassified | src/Application/Services/AICollectionOptimizationService.cs:72-90 | every insight carries the category its rate and PAR call for |
| Collection.RecoveryRateRange | src/Application/Services/AICollectionOptimizationService.cs:49-51 | paid/due·100 (0 without anything due) lies in [0, 100] when no loan is paid beyond what it owes |
| Collection.BranchInsightOf | src/Application/Services/AICollectionOptimizationService.cs:49-90 | the rate, PAR, issues, strengths and category of one branch |
| Collection.CollectInsights | src/Application/Services/AICollectionOptimizationService.cs:41-91 | the loop skips branches without loans |
| Collection.GetBranchInsights | src/Application/Services/AICollectionOptimizationService.cs:36-93 | the insights of the selected branches, sorted by recovery rate |
| Collection.BranchInsightsOrdered | src/Application/Services/AICollectionOptimizationService.cs:92 | the result is ordered lowest rate first and is a permutation of the insights |
| Collection.UnderperformingMembers | src/Application/Services/AICollectionOptimizationService.cs:99-106 | a classified insight underperforms (NeedsImprovement or Critical) iff its rate is below 75 or its PAR at least 10 |
| Collection.Underperforming | src/Application/Services/AICollectionOptimizationService.cs:99-106 | an insight is kept iff it is in the list and of category NeedsImprovement or Critical |
| Collection.OfficerInsights | src/Application/Services/AICollectionOptimizationService.cs:94-98 | always empty |
| Collection.UnderperformingOfficers | src/Application/Services/AICollectionOptimizationService.cs:107-114 | exactly the officers rated Average or Poor |
| Collection.Keys | src/Application/Services/AICollectionOptimizationService.cs:121-129 | the (village, address) keys are distinct, cover every member and come only from members |
| Collection.At | src/Application/Services/AICollectionOptimizationService.cs:121-129 | an area's members are exactly the members with its key |
| Collection.DefaultedCount | src/Application/Services/AICollectionOptimizationService.cs:135-136 | at most the area's members |
| Collection.Level | src/Application/Services/AICollectionOptimizationService.cs:140-156 | Critical above 50, High above 35, Medium otherwise, each as an iff |
| Collection.AreaRows | src/Application/Services/AICollectionOptimizationService.cs:121-137 | one row per distinct (village, address) key, built from exactly the members with that key |
| Collection.RiskyMembers | src/Application/Services/AICollectionOptimizationService.cs:133-138 | an area is kept iff it has at least 3 members and a default rate above 20 |
| Collection.CollectRiskyAreas | src/Application/Services/AICollectionOptimizationService.cs:130-168 | the loop skips small areas and keeps those above 20 |
| Collection.GetHighRiskAreas | src/Application/Services/AICollectionOptimizationService.cs:115-170 | the high-risk areas sorted by default rate, highest first |
| Collection.HighRiskAreasListed | src/Application/Services/AICollectionOptimizationService.cs:133-169 | ordered highest first; exactly the high-risk areas; each with ≥ 3 members, 20 < rate ≤ 100, its level, and defaulters ≤ members |
| Collection.AreasPartitionMembers | src/Application/Services/AICollectionOptimizationService.cs:121-129 | every member falls in some area, and only in the area of its own village and address |
| Collection.Upcoming | src/Application/Services/AICollectionOptimizationService.cs:173-180 | only pending installments due within the 30 days from now are counted |
| Collection.UpcomingMembers | src/Application/Services/AICollectionOptimizationService.cs:173-180 | an installment is counted iff some item carries it, it is pending, due within the 30 days from now, and the item is of the branch asked for (any branch when none is) |
| Collection.LastMonth | src/Application/Services/AICollectionOptimizationService.cs:188-191 | only installments due in the 30 days before now are counted |
| Collection.LastMonthMembers | src/Application/Services/AICollectionOptimizationService.cs:188-191 | an installment is counted iff some item carries it and it fell due in the 30 days before now, whatever its branch or status |
| Collection.HistoricalRateRange | src/Application/Services/AICollectionOptimizationService.cs:186-199 | the historical rate lies in [0, 1] when no installment is paid beyond its amount |
| Collection.ForecastBounds | src/Application/Services/AICollectionOptimizationService.cs:171-185 | the prediction lies between 0 and 0.95 of what is due next month |
| Collection.ForecastRange | src/Application/Services/AICollectionOptimizationService.cs:183 | expected · min(historical, 0.95): at most 0.95 of expected, and expected · historical when the rate is at most 0.95 |
| Collection.NoHistoryForecast | src/Application/Services/AICollectionOptimizationService.cs:192-193 | with nothing due last month, the forecast is 0.85 of what is due |
| Collection.PredictedCollection | src/Application/Services/AICollectionOptimizationService.cs:171-199 | the forecast itself; its contract is stated by Collection.ForecastBounds and Collection.NoHistoryForecast |
| Collection.GenerateRecommendations | src/Application/Services/AICollectionOptimizationService.cs:200-237 | the recommendations appended as `Recommendations` specifies |
| Collection.CountedNotes | src/Application/Services/AICollectionOptimizationService.cs:205-220 | one note each for critical branches, poor officers and critical areas when there are any |
| Collection.AverageNotes | src/Application/Services/AICollectionOptimizationService.cs:221-226 | stricter follow-up and SMS reminders when the mean recovery rate is below 80, and PAR reduction when the mean PAR is above 10 |
| Collection.RecommendationsShape | src/Application/Services/AICollectionOptimizationService.cs:200-237 | never empty; the all-is-well note comes alone and iff there is no other advice; without branches stricter follow-up and SMS are advised; officers are never mentioned |
| Collection.Started | src/Application/Services/AICollectionOptimizationService.cs:18-20 | exactly the loans past Pending |
| Collection.GetCollectionInsights | src/Application/Services/AICollectionOptimizationService.cs:13-35 | every part of the report as specified, with no officer insights and a non-empty list of recommendations |

## Left out

- The EMI annuity is computed in floating point with `Math.Pow` (LoanService.cs:137-146). It enters the model as a given weekly installment, `emi`, whose absence stands for a failed decimal conversion. At rate 0 the formula divides zero by zero, and over zero weeks it divides a nonzero amount by zero; the model fails both, whatever `emi` says. A nonzero rate whose decimal weekly rate rounds to zero is left to `emi`.
- Loans.CalculateLoanDetails: the EMI totals are modelled only from the given installment; the formula itself is not.
- Payments.LateDays: the day count is a `real` difference of dates, standing for `TimeSpan.TotalDays`. The `(int)` cast is modelled as truncation toward zero. The fine uses the unrounded day count, as the source does.
- `Math.Round` to two decimals in the scoring responses is not modelled, nor is `decimal` rounding in general; amounts are exact reals.
  - The branch insights are sorted and filtered on unrounded rates, where the source uses the rounded ones. The same holds for the high-risk areas and for the 50 threshold of the payment high-risk list.
  - Risk.ScoreRange shows the risk score is a whole number, so rounding cannot change it.
- Unique indexes (EntityConfigurations.cs) are not modelled. They matter for one case: the principal and interest postings of one repayment get the same transaction code, because the count only sees saved rows. The model keeps that behaviour (Accounting.AccountingService.RecordLoanRepayment states it) and asserts no uniqueness. A unique index on the code would reject that save.
- Database transactions and rollback are modelled only as "an error leaves the store and the ledger cache unchanged". Foreign-key failures of a save are modelled as a check just before the write. Of these, only the one in `RecordPaymentAsync` comes after an in-memory update: `RecordPayment` updates the installment and the loan, finds the broken key, and restores both before it returns the error. The loan's branch and group keys in `CreateLoanApplication`, and the member key in `CreateSavingsAccount`, fail before anything is written. Every other error of the modelled operations is raised before anything is written.
- Payments.ReferenceError: keys to the users table are not checked anywhere, because the store model has no users. These are `Payments.CollectedBy` (EntityConfigurations.cs:155-158), `SavingsTransactions.ProcessedBy` (:185-188), `Transactions.CreatedByUserId` (:252-255) and `Loans.ApprovedBy` (:109-112). Loans.ReferenceError likewise checks only the branch and group keys; the member key is covered by the first eligibility rule.
- When a saved row breaks two keys at once, the database reports one of them. The model fixes an order: a payment's installment before its member, and a loan's branch before its group.
- EF Core query filters, change tracking, `CreatedAt`/`UpdatedAt` stamping and the concurrency of the count-plus-one code generators are not modelled; the model is sequential.
- Payments.NextInstallmentChoice: `OrderBy(InstallmentNumber).FirstOrDefault()` breaks ties between equal numbers by the store's order. The model breaks them by identity. A loan's schedule never has two installments with one number.
- Every query result and aggregate of the scoring services is a parameter, and so is the clock:
  - risk: `MemberProfile`;
  - fraud: `Findings`, with `Find` relating it to the member and group tables;
  - prediction: `History`, `Candidate` and the due month;
  - collection: the branch, resident and due-item rows, and `now`.
- The calendar month of a due date is given with the installment, because dates are day counts.
- Message sentences are enumerations with text functions: `Factor`, `Alert`, `FraudAction`, `DelayFactor`, `Recommendation`, `Issue` and `Strength`. The risk `Recommendation` text, the prediction `Message` and the area `Reason` are functions of the category and are not stored in the responses.
- The decoration is not modelled: emoji prefixes, the alert evidence and description sentences, and the "F1" and "P0" formatting culture. One exception: the late-rate factor text rounds the percentage half up.
- Fraud.GroupAction: the group and request Investigate sentences differ in the source; the model represents both as `Investigate`.
- Fraud: a null NID in a group makes `Substring` throw; the model has no null strings, and a missing text field of a request is the empty string. `StartsWith("01")` is ordinal, not culture-aware.
- Fraud.DetectSuspiciousGroup: the model counts NID pairs before building the join-date alert, where the source does it after. Both are pure, and a short NID fails the whole call either way, so the outcome is the same.
- Sorting.SortBy: LINQ's `OrderBy` is stable. The model's insertion sort is stable too, but stability is not stated or proved; only order and permutation are.
- Prediction.GetHighRiskUpcomingPayments: the `catch` around each prediction never fires, because each candidate is an installment the store holds.
- Collection.HistoricalRate ignores the branch filter, as the source does: the forecast for one branch uses the rate of all branches.
- `SendAutomatedRemindersAsync` (console output only), `AIChatbotService`, the HTTP controllers, authentication, startup, seed data and the DTO classes are not part of this model.
- The read-only queries `GetLoanByIdAsync`, `GetLoansByMemberIdAsync`, `GetPendingLoansAsync`, `GetInstallmentScheduleAsync`, `GetPaymentsByLoanIdAsync`, `GetPaymentsByMemberIdAsync` and `GetAccountByMemberIdAsync` are not modelled; they compute nothing.

## Design notes

- A ReducingBalance loan books no interest in its totals: TotalPayable = LoanAmount and WeeklyInstallment = LoanAmount/n. Its schedule still charges interest on the owed principal each week and takes it out of the weekly installment. So the principal parts of a complete schedule sum to strictly less than the loan amount. `Loans.ReducingBalanceUnderAmortizes` states this, and `Loans.ScheduleSumsToPayable` shows the installments still add up to TotalPayable.
- `RecordPaymentAsync` counts the whole payment except the fine as paid into the installment, excess included. It charges the full fine again at every payment (`Payments.FineChargedEachPayment`).
- The loan service's invariant `Loans.ApprovalsRecorded` says every Approved or Disbursed loan has an approver. In the source only `ApproveLoanAsync` sets Approved, and it sets `ApprovedBy` in the same update (LoanService.cs:54-56), so the invariant holds for every loan the services write. Its `if (loan.ApprovedBy.HasValue)` test before the disbursement posting (LoanService.cs:76-79) therefore always passes. A loan written as Approved without an approver by some other path is outside the model; the source would disburse it without posting anything to the ledger. `Loans.PaymentKeepsApprovals` shows that recording a payment keeps the invariant.
- A loan whose status is Closed returns to Active if a later payment leaves a positive remaining balance. `Payments.SettleLoan` states the status as a function of the balance alone.
