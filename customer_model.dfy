/**
  The persisted Customer (loan) document and the schema rules that
  Mongoose enforces when such a document is saved.
 */
module CustomerModel {
  /** An abstract instant: the clock reading taken when a schedule is built. */
  type Time = int

  /** A due date, kept as a number of calendar months after an instant. */
  datatype DueDate = MonthsAfter(start: Time, months: int)

  /** One entry of the repayment schedule. */
  datatype Installment = Installment(
    installmentNumber: int,
    dueDate: DueDate,
    installmentAmount: real,
    remainingBalance: real,
    isPaid: bool)

  /** A Customer document: one customer's loan and its repayment plan. */
  datatype Loan = Loan(
    customerName: string,
    loanAmount: real,
    remainingAmount: real,
    loanDuration: int,
    bankFile: string,
    repaymentSchedule: seq<Installment>)

  const MinNameLength: nat := 2
  const MaxNameLength: nat := 50
  const MinLoanAmount: real := 10.0
  const MaxLoanAmount: real := 1000000.0
  const MinLoanDuration: int := 1
  const MaxLoanDuration: int := 120
  const MaxBankFileLength: nat := 255

  /** customerName: a required string of 2 to 50 characters. */
  predicate NameValid(name: string) {
    MinNameLength <= |name| <= MaxNameLength
  }

  /** loanAmount: a required number between 10 and 1,000,000. */
  predicate LoanAmountValid(amount: real) {
    MinLoanAmount <= amount <= MaxLoanAmount
  }

  /** loanDuration: a required number of months between 1 and 120. */
  predicate LoanDurationValid(duration: int) {
    MinLoanDuration <= duration <= MaxLoanDuration
  }

  /** bankFile: a required string (so not empty) of at most 255 characters. */
  predicate BankFileValid(file: string) {
    0 < |file| <= MaxBankFileLength
  }

  /**
    What a save accepts. remainingAmount is required but has no bounds, and
    the schedule entries carry no validators.
   */
  predicate Valid(loan: Loan) {
    && NameValid(loan.customerName)
    && LoanAmountValid(loan.loanAmount)
    && LoanDurationValid(loan.loanDuration)
    && BankFileValid(loan.bankFile)
  }

  /** The schema bounds, written out with the schema's own numbers. */
  lemma ValidMeansSchemaBounds(loan: Loan)
    ensures Valid(loan) <==>
      && 2 <= |loan.customerName| <= 50
      && 10.0 <= loan.loanAmount <= 1000000.0
      && 1 <= loan.loanDuration <= 120
      && 1 <= |loan.bankFile| <= 255
  {
  }

  /** Neither the remaining amount nor the schedule takes part in validation. */
  lemma ValidIgnoresBalanceAndSchedule(loan: Loan, remaining: real, schedule: seq<Installment>)
    ensures Valid(loan) <==> Valid(loan.(remainingAmount := remaining, repaymentSchedule := schedule))
  {
  }
}
