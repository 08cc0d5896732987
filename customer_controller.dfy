/**
  The two request handlers of the customer controller, the upload file
  filter in front of the first, and the document store they work against.

  Amounts are exact reals, a due date is a month offset from the clock
  reading given to the handler, and the store is a sequential map from
  document ids to documents.
 */
module CustomerController {
  import opened Wrappers
  import opened CustomerModel

  /** A document id, assigned by the store when a document is first saved. */
  type Id = nat

  /** The uploaded bank document as the upload middleware describes it. */
  datatype UploadedFile = UploadedFile(mimetype: string, filename: string)

  /** One payment request: the parsed installment number (None for NaN) and the paid amount. */
  datatype Payment = Payment(number: Option<int>, paidAmount: real)

  /** The errors the handlers pass on. */
  datatype Error =
    | FileTypeNotAllowed      // the filter's "Only PDF and CSV files are allowed!"
    | FileMissing             // no file attached: reading its filename throws
    | ValidationFailed        // the save rejected the document
    | CustomerNotFound        // 404
    | InstallmentNotFound     // 404
    | InstallmentAlreadyPaid  // 400

  // ---------------------------------------------------------------------
  // Upload filter

  const PdfMimeType: string := "application/pdf"
  const CsvMimeType: string := "text/csv"

  /** The two allowed types as a set. */
  const AllowedMimeTypes: set<string> := {PdfMimeType, CsvMimeType}

  /** multerFilter: accept exactly the two listed MIME types, compared exactly. */
  predicate AcceptsFile(mimetype: string) {
    mimetype == PdfMimeType || mimetype == CsvMimeType
  }

  lemma AcceptsFileIffAllowed(mimetype: string)
    ensures AcceptsFile(mimetype) <==> mimetype in AllowedMimeTypes
  {
  }

  lemma FilterRejectsOthers()
    ensures !AcceptsFile("image/png")
    ensures !AcceptsFile("application/PDF")
    ensures !AcceptsFile("")
  {
  }

  // ---------------------------------------------------------------------
  // Schedule generator

  /**
    amount / duration. For duration 0 the source yields an infinite or NaN
    amount, but then the schedule is empty and the value is never stored.
   */
  function InstallmentAmount(amount: real, duration: int): real {
    if duration == 0 then 0.0 else amount / (duration as real)
  }

  /** The i-th entry the loop pushes. */
  function Entry(created: Time, amount: real, each: real, i: int): Installment {
    Installment(i, MonthsAfter(created, i), each, amount - (i as real) * each, false)
  }

  /** The schedule after the loop has pushed entries 1..n. */
  function EntriesUpTo(created: Time, amount: real, each: real, n: nat): seq<Installment>
    decreases n
  {
    if n == 0 then [] else EntriesUpTo(created, amount, each, n - 1) + [Entry(created, amount, each, n)]
  }

  /** The number of times `for (i = 1; i <= duration; i++)` runs. */
  function Iterations(duration: int): nat {
    if duration < 0 then 0 else duration
  }

  /** The repayment schedule the handler builds. */
  function Schedule(created: Time, amount: real, duration: int): seq<Installment> {
    EntriesUpTo(created, amount, InstallmentAmount(amount, duration), Iterations(duration))
  }

  lemma {:induction false} EntriesUpToAt(created: Time, amount: real, each: real, n: nat)
    ensures |EntriesUpTo(created, amount, each, n)| == n
    ensures forall k :: 0 <= k < n ==> EntriesUpTo(created, amount, each, n)[k] == Entry(created, amount, each, k + 1)
  {
    if n > 0 {
      EntriesUpToAt(created, amount, each, n - 1);
    }
  }

  /** Shape of a schedule: one entry per month, numbered from 1, equal split, projected balance, unpaid. */
  lemma ScheduleShape(created: Time, amount: real, duration: int)
    ensures |Schedule(created, amount, duration)| == Iterations(duration)
    ensures forall k :: 0 <= k < |Schedule(created, amount, duration)| ==>
      var e := Schedule(created, amount, duration)[k];
      && e.installmentNumber == k + 1
      && e.dueDate == MonthsAfter(created, k + 1)
      && e.installmentAmount * (duration as real) == amount
      && e.remainingBalance == amount - ((k + 1) as real) * e.installmentAmount
      && !e.isPaid
  {
    var each := InstallmentAmount(amount, duration);
    EntriesUpToAt(created, amount, each, Iterations(duration));
    if duration > 0 {
      assert each * (duration as real) == amount;
    }
  }

  /** With exact arithmetic the last projected balance is zero. */
  lemma LastBalanceIsZero(created: Time, amount: real, duration: int)
    requires duration >= 1
    ensures |Schedule(created, amount, duration)| == duration
    ensures Schedule(created, amount, duration)[duration - 1].remainingBalance == 0.0
  {
    ScheduleShape(created, amount, duration);
  }

  /** Each installment is a positive share of a positive amount. */
  lemma SplitEvenly(amount: real, duration: int)
    requires duration >= 1
    ensures InstallmentAmount(amount, duration) * (duration as real) == amount
    ensures (duration as real) * InstallmentAmount(amount, duration) == amount
    ensures amount > 0.0 ==> InstallmentAmount(amount, duration) > 0.0
  {
  }

  lemma ScaleStrict(a: real, b: real, c: real)
    requires a < b && c > 0.0
    ensures a * c < b * c
  {
  }

  /** A later entry projects a smaller balance when the installment amount is positive. */
  lemma EntryBalancesOrdered(created: Time, amount: real, each: real, i: int, j: int)
    requires each > 0.0 && i < j
    ensures Entry(created, amount, each, i).remainingBalance > Entry(created, amount, each, j).remainingBalance
  {
    ScaleStrict(i as real, j as real, each);
    assert Entry(created, amount, each, i).remainingBalance == amount - (i as real) * each;
    assert Entry(created, amount, each, j).remainingBalance == amount - (j as real) * each;
  }

  /** An entry of a positive schedule projects a balance in [0, amount). */
  lemma EntryBalanceInRange(created: Time, amount: real, duration: int, i: int)
    requires amount > 0.0 && 1 <= i <= duration
    ensures 0.0 <= Entry(created, amount, InstallmentAmount(amount, duration), i).remainingBalance < amount
  {
  }

  /** For a positive amount the projected balances strictly decrease and stay in [0, amount). */
  lemma BalancesDecrease(created: Time, amount: real, duration: int)
    requires amount > 0.0 && duration >= 1
    ensures forall j, k :: 0 <= j < k < |Schedule(created, amount, duration)| ==>
      Schedule(created, amount, duration)[j].remainingBalance > Schedule(created, amount, duration)[k].remainingBalance
    ensures forall k :: 0 <= k < |Schedule(created, amount, duration)| ==>
      0.0 <= Schedule(created, amount, duration)[k].remainingBalance < amount
  {
    var s := Schedule(created, amount, duration);
    var each := InstallmentAmount(amount, duration);
    EntriesUpToAt(created, amount, each, Iterations(duration));
    SplitEvenly(amount, duration);
    forall j, k | 0 <= j < k < |s|
      ensures s[j].remainingBalance > s[k].remainingBalance
    {
      EntryBalancesOrdered(created, amount, each, j + 1, k + 1);
    }
    forall k | 0 <= k < |s|
      ensures 0.0 <= s[k].remainingBalance < amount
    {
      EntryBalanceInRange(created, amount, duration, k + 1);
    }
  }

  /** Sum of the installment amounts of a schedule. */
  function TotalDue(schedule: seq<Installment>): real {
    if schedule == [] then 0.0 else TotalDue(schedule[..|schedule| - 1]) + schedule[|schedule| - 1].installmentAmount
  }

  lemma {:induction false} TotalDueUpTo(created: Time, amount: real, each: real, n: nat)
    ensures TotalDue(EntriesUpTo(created, amount, each, n)) == (n as real) * each
  {
    if n > 0 {
      var s := EntriesUpTo(created, amount, each, n);
      assert s[..|s| - 1] == EntriesUpTo(created, amount, each, n - 1);
      TotalDueUpTo(created, amount, each, n - 1);
    }
  }

  /** The installments add up to the principal. */
  lemma ScheduleRepaysPrincipal(created: Time, amount: real, duration: int)
    requires duration >= 1
    ensures TotalDue(Schedule(created, amount, duration)) == amount
  {
    TotalDueUpTo(created, amount, InstallmentAmount(amount, duration), duration);
    SplitEvenly(amount, duration);
  }

  /** uploadCustomerInfo's loop: push one entry per month for i = 1..duration. */
  method BuildSchedule(created: Time, amount: real, duration: int) returns (schedule: seq<Installment>)
    ensures schedule == Schedule(created, amount, duration)
    ensures |schedule| == Iterations(duration)
    ensures forall k :: 0 <= k < |schedule| ==>
      && schedule[k].installmentNumber == k + 1
      && schedule[k].dueDate == MonthsAfter(created, k + 1)
      && schedule[k].installmentAmount * (duration as real) == amount
      && schedule[k].remainingBalance == amount - ((k + 1) as real) * schedule[k].installmentAmount
      && !schedule[k].isPaid
  {
    var installmentAmount := if duration == 0 then 0.0 else amount / (duration as real);
    schedule := [];
    var i := 1;
    while i <= duration
      invariant 1 <= i <= Iterations(duration) + 1
      invariant schedule == EntriesUpTo(created, amount, installmentAmount, i - 1)
    {
      var installment := Installment(i, MonthsAfter(created, i), installmentAmount,
                                     amount - (i as real) * installmentAmount, false);
      assert installment == Entry(created, amount, installmentAmount, i);
      schedule := schedule + [installment];
      i := i + 1;
    }
    ScheduleShape(created, amount, duration);
  }

  // ---------------------------------------------------------------------
  // Creating a loan

  /**
    What the upload route ends in: the filter, then the schedule, then the
    document, then the save with its validation.
   */
  function CreateOutcome(name: string, amount: real, duration: int, file: Option<UploadedFile>, created: Time): Result<Loan, Error> {
    if file.Some? && !AcceptsFile(file.value.mimetype) then Err(FileTypeNotAllowed)
    else if file.None? then Err(FileMissing)
    else
      var loan := Loan(name, amount, amount, duration, file.value.filename, Schedule(created, amount, duration));
      if Valid(loan) then Ok(loan) else Err(ValidationFailed)
  }

  /** A created loan owes its whole principal, has one unpaid entry per month and is valid. */
  lemma CreatedLoan(name: string, amount: real, duration: int, file: Option<UploadedFile>, created: Time, loan: Loan)
    requires CreateOutcome(name, amount, duration, file, created) == Ok(loan)
    ensures Valid(loan)
    ensures loan.customerName == name && loan.loanAmount == amount && loan.loanDuration == duration
    ensures loan.remainingAmount == loan.loanAmount
    ensures file.Some? && loan.bankFile == file.value.filename
    ensures |loan.repaymentSchedule| == loan.loanDuration
    ensures forall k :: 0 <= k < |loan.repaymentSchedule| ==>
      loan.repaymentSchedule[k].installmentNumber == k + 1 && !loan.repaymentSchedule[k].isPaid
    ensures TotalDue(loan.repaymentSchedule) == loan.loanAmount
    ensures PaidCount(loan.repaymentSchedule) == 0
  {
    ScheduleShape(created, amount, duration);
    ScheduleRepaysPrincipal(created, amount, duration);
    NoneUnpaidCount(loan.repaymentSchedule);
  }

  /** Creation succeeds exactly when an allowed file is attached and every schema bound holds. */
  lemma CreateSucceedsIff(name: string, amount: real, duration: int, file: Option<UploadedFile>, created: Time)
    ensures CreateOutcome(name, amount, duration, file, created).Ok? <==>
      && file.Some?
      && (file.value.mimetype == "application/pdf" || file.value.mimetype == "text/csv")
      && 2 <= |name| <= 50
      && 10.0 <= amount <= 1000000.0
      && 1 <= duration <= 120
      && 1 <= |file.value.filename| <= 255
  {
  }

  /** Which error a failed creation reports, checked in the order the route runs. */
  lemma CreateErrorOrder(name: string, amount: real, duration: int, file: Option<UploadedFile>, created: Time)
    ensures file.Some? && !AcceptsFile(file.value.mimetype) <==>
      CreateOutcome(name, amount, duration, file, created) == Err(FileTypeNotAllowed)
    ensures file.None? <==> CreateOutcome(name, amount, duration, file, created) == Err(FileMissing)
    ensures CreateOutcome(name, amount, duration, file, created) == Err(ValidationFailed) <==>
      && file.Some? && AcceptsFile(file.value.mimetype)
      && !(NameValid(name) && LoanAmountValid(amount) && LoanDurationValid(duration) && BankFileValid(file.value.filename))
  {
  }

  // ---------------------------------------------------------------------
  // Payment recorder

  /** schedule.find(inst => inst.installmentNumber === number): the index of the first match. */
  function FindInstallment(schedule: seq<Installment>, number: Option<int>): (r: Option<nat>)
    ensures r.Some? ==> r.value < |schedule| && number == Some(schedule[r.value].installmentNumber)
    ensures r.Some? ==> forall j :: 0 <= j < r.value ==> number != Some(schedule[j].installmentNumber)
    ensures r.None? <==> forall j :: 0 <= j < |schedule| ==> number != Some(schedule[j].installmentNumber)
    decreases |schedule|
  {
    if schedule == [] then None
    else if number == Some(schedule[0].installmentNumber) then Some(0)
    else
      match FindInstallment(schedule[1..], number)
      case None => None
      case Some(k) => Some(k + 1)
  }

  /** Two schedules numbered alike. */
  ghost predicate SameNumbers(s: seq<Installment>, t: seq<Installment>) {
    |s| == |t| && forall j :: 0 <= j < |s| ==> s[j].installmentNumber == t[j].installmentNumber
  }

  /** The search looks only at the numbers. */
  lemma FindDependsOnNumbersOnly(s: seq<Installment>, t: seq<Installment>, number: Option<int>)
    requires SameNumbers(s, t)
    ensures FindInstallment(s, number) == FindInstallment(t, number)
  {
  }

  /**
    Steps 2 to 5 of the payment on a document that was found: locate the
    installment, refuse a paid one, deduct paidAmount, mark it paid.
   */
  function Pay(loan: Loan, number: Option<int>, paidAmount: real): Result<Loan, Error> {
    match FindInstallment(loan.repaymentSchedule, number)
    case None => Err(InstallmentNotFound)
    case Some(k) =>
      if loan.repaymentSchedule[k].isPaid then Err(InstallmentAlreadyPaid)
      else Ok(loan.(remainingAmount := loan.remainingAmount - paidAmount,
                    repaymentSchedule := loan.repaymentSchedule[k := loan.repaymentSchedule[k].(isPaid := true)]))
  }

  /** The whole payment request against the stored documents. */
  function PayOutcome(loans: map<Id, Loan>, id: Id, number: Option<int>, paidAmount: real): Result<Loan, Error> {
    if id !in loans then Err(CustomerNotFound) else Pay(loans[id], number, paidAmount)
  }

  /** The three failures, each exactly when its check is the first to fail. */
  lemma PayErrorOrder(loans: map<Id, Loan>, id: Id, number: Option<int>, paidAmount: real)
    ensures PayOutcome(loans, id, number, paidAmount) == Err(CustomerNotFound) <==> id !in loans
    ensures PayOutcome(loans, id, number, paidAmount) == Err(InstallmentNotFound) <==>
      id in loans && forall j :: 0 <= j < |loans[id].repaymentSchedule| ==>
        number != Some(loans[id].repaymentSchedule[j].installmentNumber)
    ensures PayOutcome(loans, id, number, paidAmount) == Err(InstallmentAlreadyPaid) <==>
      id in loans && exists k ::
        && 0 <= k < |loans[id].repaymentSchedule|
        && number == Some(loans[id].repaymentSchedule[k].installmentNumber)
        && (forall j :: 0 <= j < k ==> number != Some(loans[id].repaymentSchedule[j].installmentNumber))
        && loans[id].repaymentSchedule[k].isPaid
    ensures PayOutcome(loans, id, number, paidAmount).Err? ==>
      PayOutcome(loans, id, number, paidAmount).error in {CustomerNotFound, InstallmentNotFound, InstallmentAlreadyPaid}
  {
  }

  /** A successful payment deducts paidAmount and marks the matched, previously unpaid entry; nothing else changes. */
  lemma PayChangesOnlyMatched(loan: Loan, number: Option<int>, paidAmount: real, after: Loan)
    requires Pay(loan, number, paidAmount) == Ok(after)
    ensures after.remainingAmount == loan.remainingAmount - paidAmount
    ensures after.customerName == loan.customerName && after.loanAmount == loan.loanAmount
    ensures after.loanDuration == loan.loanDuration && after.bankFile == loan.bankFile
    ensures |after.repaymentSchedule| == |loan.repaymentSchedule|
    ensures forall j :: 0 <= j < |loan.repaymentSchedule| ==>
      after.repaymentSchedule[j].(isPaid := loan.repaymentSchedule[j].isPaid) == loan.repaymentSchedule[j]
    ensures exists k ::
      && 0 <= k < |loan.repaymentSchedule|
      && number == Some(loan.repaymentSchedule[k].installmentNumber)
      && (forall j :: 0 <= j < k ==> number != Some(loan.repaymentSchedule[j].installmentNumber))
      && !loan.repaymentSchedule[k].isPaid && after.repaymentSchedule[k].isPaid
      && forall j :: 0 <= j < |loan.repaymentSchedule| && j != k ==> after.repaymentSchedule[j] == loan.repaymentSchedule[j]
  {
  }

  /** The save after a payment never fails validation. */
  lemma PayPreservesValid(loan: Loan, number: Option<int>, paidAmount: real, after: Loan)
    requires Valid(loan) && Pay(loan, number, paidAmount) == Ok(after)
    ensures Valid(after)
  {
  }

  /** Paying the same installment again is refused (Unpaid -> Paid is terminal). */
  lemma PayTwiceRefused(loan: Loan, number: Option<int>, paidAmount: real, after: Loan, again: real)
    requires Pay(loan, number, paidAmount) == Ok(after)
    ensures Pay(after, number, again) == Err(InstallmentAlreadyPaid)
  {
    var k := FindInstallment(loan.repaymentSchedule, number).value;
    FindDependsOnNumbersOnly(loan.repaymentSchedule, after.repaymentSchedule, number);
  }

  /** Number of paid entries. */
  function PaidCount(schedule: seq<Installment>): nat {
    if schedule == [] then 0 else PaidCount(schedule[1..]) + (if schedule[0].isPaid then 1 else 0)
  }

  lemma {:induction false} NoneUnpaidCount(schedule: seq<Installment>)
    requires forall k :: 0 <= k < |schedule| ==> !schedule[k].isPaid
    ensures PaidCount(schedule) == 0
  {
    if schedule != [] {
      NoneUnpaidCount(schedule[1..]);
    }
  }

  lemma {:induction false} PaidCountBound(schedule: seq<Installment>)
    ensures PaidCount(schedule) <= |schedule|
  {
    if schedule != [] {
      PaidCountBound(schedule[1..]);
    }
  }

  lemma {:induction false} PaidCountMark(schedule: seq<Installment>, k: nat)
    requires k < |schedule| && !schedule[k].isPaid
    ensures PaidCount(schedule[k := schedule[k].(isPaid := true)]) == PaidCount(schedule) + 1
  {
    var t := schedule[k := schedule[k].(isPaid := true)];
    if k == 0 {
      assert t[1..] == schedule[1..];
    } else {
      assert t[1..] == schedule[1..][k - 1 := schedule[k].(isPaid := true)];
      PaidCountMark(schedule[1..], k - 1);
    }
  }

  /** Each successful payment marks exactly one more installment paid. */
  lemma PayMarksOneMore(loan: Loan, number: Option<int>, paidAmount: real, after: Loan)
    requires Pay(loan, number, paidAmount) == Ok(after)
    ensures PaidCount(after.repaymentSchedule) == PaidCount(loan.repaymentSchedule) + 1
  {
    var k := FindInstallment(loan.repaymentSchedule, number).value;
    PaidCountMark(loan.repaymentSchedule, k);
  }

  // ---------------------------------------------------------------------
  // A sequence of payment requests on one document

  /** The document after each request in turn: a refused request changes nothing. */
  function Replay(loan: Loan, payments: seq<Payment>): Loan
    decreases |payments|
  {
    if payments == [] then loan
    else
      match Pay(loan, payments[0].number, payments[0].paidAmount)
      case Ok(next) => Replay(next, payments[1..])
      case Err(_) => Replay(loan, payments[1..])
  }

  /** The sum of the amounts of the accepted requests. */
  function AppliedTotal(loan: Loan, payments: seq<Payment>): real
    decreases |payments|
  {
    if payments == [] then 0.0
    else
      match Pay(loan, payments[0].number, payments[0].paidAmount)
      case Ok(next) => payments[0].paidAmount + AppliedTotal(next, payments[1..])
      case Err(_) => AppliedTotal(loan, payments[1..])
  }

  /** The number of accepted requests. */
  function AcceptedCount(loan: Loan, payments: seq<Payment>): nat
    decreases |payments|
  {
    if payments == [] then 0
    else
      match Pay(loan, payments[0].number, payments[0].paidAmount)
      case Ok(next) => 1 + AcceptedCount(next, payments[1..])
      case Err(_) => AcceptedCount(loan, payments[1..])
  }

  /** The ledger: remainingAmount drops by exactly the accepted amounts, one paid entry per accepted request. */
  lemma {:induction false} ReplayLedger(loan: Loan, payments: seq<Payment>)
    ensures Replay(loan, payments).remainingAmount == loan.remainingAmount - AppliedTotal(loan, payments)
    ensures Replay(loan, payments).loanAmount == loan.loanAmount
    ensures Replay(loan, payments).loanDuration == loan.loanDuration
    ensures Replay(loan, payments).customerName == loan.customerName
    ensures Replay(loan, payments).bankFile == loan.bankFile
    ensures |Replay(loan, payments).repaymentSchedule| == |loan.repaymentSchedule|
    ensures PaidCount(Replay(loan, payments).repaymentSchedule) == PaidCount(loan.repaymentSchedule) + AcceptedCount(loan, payments)
    ensures Valid(loan) ==> Valid(Replay(loan, payments))
    decreases |payments|
  {
    if payments != [] {
      match Pay(loan, payments[0].number, payments[0].paidAmount)
      case Ok(next) =>
        PayChangesOnlyMatched(loan, payments[0].number, payments[0].paidAmount, next);
        PayMarksOneMore(loan, payments[0].number, payments[0].paidAmount, next);
        ReplayLedger(next, payments[1..]);
      case Err(_) =>
        ReplayLedger(loan, payments[1..]);
    }
  }

  /**
    On a freshly created loan: the balance is the principal less the accepted
    payments, and no more requests are accepted than there are months.
   */
  lemma CreatedLoanLedger(name: string, amount: real, duration: int, file: Option<UploadedFile>, created: Time,
                          loan: Loan, payments: seq<Payment>)
    requires CreateOutcome(name, amount, duration, file, created) == Ok(loan)
    ensures Replay(loan, payments).remainingAmount == loan.loanAmount - AppliedTotal(loan, payments)
    ensures AcceptedCount(loan, payments) <= loan.loanDuration
    ensures Valid(Replay(loan, payments))
  {
    CreatedLoan(name, amount, duration, file, created, loan);
    ReplayLedger(loan, payments);
    PaidCountBound(Replay(loan, payments).repaymentSchedule);
  }

  // ---------------------------------------------------------------------
  // Worked examples

  /** 1200 over 12 months: twelve installments of 100, the last leaving 0. */
  lemma TwelveMonthExample(created: Time)
    ensures |Schedule(created, 1200.0, 12)| == 12
    ensures forall k :: 0 <= k < 12 ==> Schedule(created, 1200.0, 12)[k].installmentAmount == 100.0
    ensures Schedule(created, 1200.0, 12)[11].remainingBalance == 0.0
  {
    ScheduleShape(created, 1200.0, 12);
  }

  /** 5000 over 10 months, pay installment 3 with 500: 4500 remains, only entry 3 is paid. */
  lemma PayThirdExample(name: string, file: UploadedFile, created: Time, loan: Loan)
    requires CreateOutcome(name, 5000.0, 10, Some(file), created) == Ok(loan)
    ensures Pay(loan, Some(3), 500.0).Ok?
    ensures Pay(loan, Some(3), 500.0).value.remainingAmount == 4500.0
    ensures Pay(loan, Some(3), 500.0).value.repaymentSchedule[2].isPaid
    ensures forall j :: 0 <= j < 10 && j != 2 ==> !Pay(loan, Some(3), 500.0).value.repaymentSchedule[j].isPaid
  {
    CreatedLoan(name, 5000.0, 10, Some(file), created, loan);
    var s := loan.repaymentSchedule;
    assert s[2].installmentNumber == 3;
    assert FindInstallment(s, Some(3)) == Some(2) by {
      assert forall j :: 0 <= j < 2 ==> s[j].installmentNumber == j + 1;
    }
  }

  // ---------------------------------------------------------------------
  // The document store and the two handlers

  class LoanStore {
    /** The saved documents by id. */
    var loans: map<Id, Loan>
    /** The next id to hand out. */
    var nextId: Id

    /** Every saved document passed validation, and every id in use is below nextId. */
    ghost predicate Valid()
      reads this
    {
      && (forall id :: id in loans ==> id < nextId)
      && (forall id :: id in loans ==> CustomerModel.Valid(loans[id]))
    }

    constructor ()
      ensures Valid() && loans == map[]
    {
      loans := map[];
      nextId := 0;
    }

    /**
      The upload route: the file filter, then uploadCustomerInfo (build the
      schedule, construct the document, save it).
     */
    method UploadCustomerInfo(name: string, amount: real, duration: int, file: Option<UploadedFile>, created: Time)
      returns (r: Result<Id, Error>)
      requires Valid()
      modifies this
      ensures Valid()
      ensures CreateOutcome(name, amount, duration, file, created).Ok? ==>
        && r == Ok(old(nextId)) && old(nextId) !in old(loans)
        && loans == old(loans)[old(nextId) := CreateOutcome(name, amount, duration, file, created).value]
      ensures CreateOutcome(name, amount, duration, file, created).Err? ==>
        r == Err(CreateOutcome(name, amount, duration, file, created).error) && loans == old(loans)
    {
      if file.Some? && !AcceptsFile(file.value.mimetype) {
        return Err(FileTypeNotAllowed);
      }
      var repaymentSchedule := BuildSchedule(created, amount, duration);
      if file.None? {
        return Err(FileMissing);
      }
      var customer := Loan(name, amount, amount, duration, file.value.filename, repaymentSchedule);
      if !CustomerModel.Valid(customer) {
        return Err(ValidationFailed);
      }
      var id := nextId;
      loans := loans[id := customer];
      nextId := nextId + 1;
      r := Ok(id);
    }

    /**
      updateInstallmentPaymentStatus: find the document, find the
      installment, refuse a paid one, deduct, mark paid, save.
     */
    method UpdateInstallmentPaymentStatus(id: Id, number: Option<int>, paidAmount: real)
      returns (r: Result<Loan, Error>)
      requires Valid()
      modifies this
      ensures Valid() && nextId == old(nextId)
      ensures r == PayOutcome(old(loans), id, number, paidAmount)
      ensures loans == if r.Ok? then old(loans)[id := r.value] else old(loans)
    {
      if id !in loans {
        return Err(CustomerNotFound);
      }
      var customer := loans[id];
      var found := FindInstallment(customer.repaymentSchedule, number);
      if found.None? {
        return Err(InstallmentNotFound);
      }
      var k := found.value;
      if customer.repaymentSchedule[k].isPaid {
        return Err(InstallmentAlreadyPaid);
      }
      customer := customer.(remainingAmount := customer.remainingAmount - paidAmount);
      customer := customer.(repaymentSchedule := customer.repaymentSchedule[k := customer.repaymentSchedule[k].(isPaid := true)]);
      PayPreservesValid(loans[id], number, paidAmount, customer);
      loans := loans[id := customer];
      r := Ok(customer);
    }
  }
}
