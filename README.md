# Loan servicing core: a Dafny model

This project models a small loan-servicing backend. A customer uploads a bank document
together with a principal and a duration in months. The backend builds an equal-split
repayment schedule, one installment per month, and saves a Customer (loan) document.
Later requests record the payment of single installments.

The model has three modules:

- `Wrappers`: `Option` and `Result`.
- `CustomerModel` (`models/customerModel.js`): the `Installment` and `Loan` datatypes,
  and the schema bounds as a `Valid(loan)` predicate.
- `CustomerController` (`controllers/customerController.js`):
  - the upload file filter (`AcceptsFile`);
  - the schedule generator, both as the specification function `Schedule` and as the
    loop method `BuildSchedule`;
  - the payment step as the function `Pay`;
  - a `LoanStore` class holding `map<Id, Loan>`. Its methods `UploadCustomerInfo` and
    `UpdateInstallmentPaymentStatus` mirror the two handlers step by step, and their
    contracts tie them to `CreateOutcome` and `PayOutcome`.

Modelling choices:

- Amounts are exact `real`s. So `amount / duration` is exact, the last projected balance
  is exactly 0, and the installments add up to the principal.
- A due date is `MonthsAfter(created, i)`, a month offset from the clock reading, which is
  a parameter.
- Document ids are natural numbers. The store hands them out from a counter.
- The installment number from the request path is an `Option<int>`. `None` stands for
  the `NaN` that `parseInt` returns on a non-number, and `NaN` matches no installment.
- A request with no file attached fails with `FileMissing`. In the source, reading
  `req.file.filename` throws at that point, after the schedule loop has run.
- The payment handler's save is not modelled as a check. For a numeric `paidAmount`,
  `PayPreservesValid` proves that this save cannot fail validation.

Details of the source that the model follows:

- A second payment of the same installment is answered with status 400, the status
  the handler gives every refused request of that kind.
- Validation happens only when the document is saved, after the whole schedule is
  built. Nothing is stored before the save.
- `bankFile` is `required`, and Mongoose's `required` rejects the empty string. So a
  valid record needs 1 to 255 characters there.
- The schema does not require `loanDuration == |repaymentSchedule|`. It holds for every
  created loan (`CreatedLoan`). Payments keep both `loanDuration` and the schedule length
  (`ReplayLedger`).

## Model

| member | source | states |
|---|---|---|
| `CustomerModel.Valid` | models/customerModel.js:3-43 | definition: the four field bounds the save enforces; remainingAmount and the schedule are unconstrained |
| `CustomerController.AcceptsFile` | controllers/customerController.js:17-23 | definition: the filter's exact comparison against application/pdf and text/csv |
| `CustomerController.Schedule` | controllers/customerController.js:36-52 | definition: the entries the loop pushes for i = 1..duration |
| `CustomerController.CreateOutcome` | controllers/customerController.js:17-64 | definition: filter, schedule, document construction, save validation, in that order |
| `CustomerController.Pay` | controllers/customerController.js:85-103 | definition: first-match search, paid check, deduction and flag update on a found document |
| `CustomerController.PayOutcome` | controllers/customerController.js:79-103 | definition: the document lookup followed by `Pay` |
| `CustomerModel.ValidMeansSchemaBounds` | models/customerModel.js:3-30 | a document validates iff the name has 2 to 50 characters, the amount is in [10, 1000000], the duration in [1, 120] and bankFile has 1 to 255 characters |
| `CustomerModel.ValidIgnoresBalanceAndSchedule` | models/customerModel.js:16-19 | remainingAmount and the schedule take no part in validation: any balance (negative included) and any schedule leave validity unchanged |
| `CustomerController.AcceptsFileIffAllowed` | controllers/customerController.js:17-23 | the filter accepts a MIME type iff it is one of application/pdf and text/csv |
| `CustomerController.FilterRejectsOthers` | controllers/customerController.js:18-21 | image/png, a differently cased application/PDF and the empty type are rejected |
| `CustomerController.EntriesUpToAt` | controllers/customerController.js:39-52 | after n passes of the loop the schedule has n entries and entry k is the one built for i = k+1 |
| `CustomerController.ScheduleShape` | controllers/customerController.js:36-52 | the schedule has duration entries (none if duration < 1); entry k is number k+1, due k+1 months after creation, unpaid, carries an amount that times duration gives the principal, and projects amount - (k+1) * installmentAmount |
| `CustomerController.SplitEvenly` | controllers/customerController.js:36 | for duration >= 1 the installment amount times the duration is the principal, and it is positive for a positive principal |
| `CustomerController.LastBalanceIsZero` | controllers/customerController.js:47 | the last entry's projected balance is exactly 0 |
| `CustomerController.BalancesDecrease` | controllers/customerController.js:47 | for a positive principal the projected balances strictly decrease along the schedule and lie in [0, amount) |
| `CustomerController.TotalDueUpTo` | controllers/customerController.js:39-52 | the first n entries' amounts sum to n times the installment amount |
| `CustomerController.ScheduleRepaysPrincipal` | controllers/customerController.js:36-52 | the installment amounts of a schedule add up to the principal |
| `CustomerController.BuildSchedule` | controllers/customerController.js:36-52 | the loop builds exactly `Schedule`: one entry per month, numbered from 1, due i months ahead, equal amounts, projected balances, all unpaid |
| `CustomerController.CreatedLoan` | controllers/customerController.js:55-64 | a created document is valid, has remainingAmount == loanAmount, its name, amount, duration and file name are the inputs, it has loanDuration entries numbered 1.. all unpaid, and its amounts sum to the principal |
| `CustomerController.CreateSucceedsIff` | controllers/customerController.js:17-64 | creation succeeds iff a PDF or CSV file is attached and every schema bound holds |
| `CustomerController.CreateErrorOrder` | controllers/customerController.js:17-64 | a disallowed type fails with FileTypeNotAllowed, a missing file with FileMissing, and otherwise a bound violation with ValidationFailed, in that order |
| `CustomerController.FindInstallment` | controllers/customerController.js:86-88 | returns the first index whose installmentNumber equals the parsed number, or nothing iff no entry has that number |
| `CustomerController.FindDependsOnNumbersOnly` | controllers/customerController.js:86-88 | the search gives the same answer on any two schedules numbered alike, whatever their paid flags |
| `CustomerController.PayErrorOrder` | controllers/customerController.js:79-97 | CustomerNotFound iff the id is unknown; InstallmentNotFound iff the id is known and no entry has the number; InstallmentAlreadyPaid iff the first matching entry is paid; no other error |
| `CustomerController.PayChangesOnlyMatched` | controllers/customerController.js:99-103 | a successful payment deducts exactly paidAmount, marks paid the entry that is the first with the requested number and was unpaid, changes no other entry and no other field, and keeps each entry's number, date and amounts |
| `CustomerController.PayPreservesValid` | controllers/customerController.js:99-106 | the save after a payment passes validation, even when the balance goes negative |
| `CustomerController.PayTwiceRefused` | controllers/customerController.js:94-97 | after an installment is paid, paying it again fails with InstallmentAlreadyPaid |
| `CustomerController.PayMarksOneMore` | controllers/customerController.js:103 | a successful payment raises the number of paid entries by exactly one |
| `CustomerController.ReplayLedger` | controllers/customerController.js:74-106 | over any sequence of requests, remainingAmount drops by the sum of the accepted amounts; one entry is paid per accepted request; schedule length, principal, duration, name and bank file stay the same; validity is kept |
| `CustomerController.CreatedLoanLedger` | controllers/customerController.js:55-106 | on a created loan, remainingAmount is always loanAmount minus the accepted payments; at most loanDuration requests are ever accepted |
| `CustomerController.TwelveMonthExample` | controllers/customerController.js:36-52 | 1200 over 12 months gives twelve installments of 100, the last leaving 0 |
| `CustomerController.PayThirdExample` | controllers/customerController.js:74-106 | on a loan of 5000 over 10 months, paying installment 3 with 500 leaves 4500; only entry 3 is paid |
| `CustomerController.LoanStore.UploadCustomerInfo` | controllers/customerController.js:32-72 | adds exactly the document `CreateOutcome` builds under a fresh id, or leaves the store unchanged and returns its error; the store stays valid |
| `CustomerController.LoanStore.UpdateInstallmentPaymentStatus` | controllers/customerController.js:74-115 | returns `PayOutcome` of the old store; on success only that document is replaced by the paid one; on failure nothing changes; the store stays valid |

## Left out

- Disk storage of the upload (`multerStorage`): the destination directory and the file name built from the user id and the clock. The file name is an input of the model.
- The generic read handlers `getCustomer` and `getAllCustomers`. They delegate to a handler factory that is not part of this model.
- Routing, the authentication middleware, the server bootstrap and the process-level exit handlers.
- HTTP response shaping, and how `catchAsync` routes errors. The handlers' errors are the `Error` datatype.
- Storage failures. A save or a lookup in the model always reaches the store.
- The lost-update race between concurrent payments on the same document. The store is a sequential map and each handler runs to completion.
- IEEE double arithmetic. Amounts are exact reals, so the cent-level drift of `amount / duration` is not captured.
- Calendar month arithmetic (`setMonth` with day-of-month rollover). A due date is a month offset.
- The clock is read once per schedule. The source reads it anew on every pass of the loop: a few milliseconds apart, usually the same month.
- Request fields are taken as numbers. The JavaScript coercion of form text, absent fields, non-numeric text and a non-integer duration (which a Mongoose `Number` field would accept) are not modelled.
- `paidAmount` is a number. In the source an absent or non-numeric `paidAmount` makes the deduction give `NaN`. Mongoose refuses to cast `NaN` to a Number, so that save fails: the request errors and nothing is stored. The model has no such request, and its claim that the payment save always validates covers numeric amounts only.
- Malformed document ids, which make the lookup throw a cast error in the source. Ids are naturals here.
- `parseInt`'s parsing of the path text. The model takes its result, with `NaN` as `None`.
- String lengths count Dafny characters. Mongoose counts UTF-16 code units.
- The time and memory of the schedule loop. The loop runs for the full requested duration before the save checks the 1..120 bound. A huge duration (say 100000000) makes the source push that many entries and can exhaust memory before any validation error is produced. The model returns `ValidationFailed` for every out-of-range duration.
- The schema's `isPaid` default (models/customerModel.js:37-40). It never applies in these handlers, because the schedule loop always supplies `isPaid: false` (controllers/customerController.js:48).
