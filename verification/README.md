# Neobank: a verified model of the money paths

This project models the parts of the Neo backend that decide where money and permissions are, and proves
what those parts keep over whole runs:

- the double-entry ledger client with its two-phase holds, and the outbound transfer protocol on top of it,
  when acknowledgements from the ledger can be lost (`Chart`, `Ledger`, `Outbound`);
- peer-to-peer and batch payments that draw on and repay an overdraft kept half in the ledger and half in a
  table (`Overdraft`, `Payments`, `PaymentOutcomes`, `BankRuns`);
- card authorization: limits, spend waterfall, hold, clearing, reversal (`CardAuth`, `CardRuns`,
  `CardOutcomes`, `CardMeters`, `CardExtremes`);
- loans: schedule, manual repayment and daily sweep over the same rows (`Lending`, `LoanOutcomes`, `LoanRuns`);
- IBAN check digits (ISO 13616, MOD 97-10 of ISO/IEC 7064) and ISO 8583 framing (`Decimal`, `Iban`, `Framing`);
- the permission cache and its writers (`Cache`, `Permissions`, `PermissionRuns`,
  `PermissionOutcomes`);
- regulatory limits and the rate limiter over time (`Regulatory`, `RegulatoryRuns`, `RateLimit`);
- what holds across them: all of these on the one ledger they share, interleaved in any order (`SharedLedger`), the
  same with the regulatory counters (`RegulatedBank`), and conservation of every asset (`Conservation`).

`dafny verify dfyconfig.toml` checks everything.

## Conventions

State that the source changes in place is a class; each method's contract says that the new state and the
result are a function (`AfterPayment`, `AfterClear`, …) of the old state, and the lemmas are about those functions.
For each operation one of them says when it succeeds and what it then does, read off its inputs and the old state
alone (`…Exactly`, and the modules `PaymentOutcomes`, `CardOutcomes`, `LoanOutcomes`, `PermissionOutcomes`).
Run theorems are inductions over sequences of operations.

- The remote ledger is one atomic posting operation: all postings of a transaction or none, and no account
  but `world` goes below zero. Each call carries a `Delivery`: applied and acknowledged, applied with the
  acknowledgement lost, or never applied.
- Time, calendar dates, identifiers, exchange rates, query failures and the switch's reply are parameters.
  Rates and ratios are exact reals or rationals; amounts are unbounded integers.
- SQL statements are updates of maps and sequences. Database writes after a ledger posting succeed, except
  where a constraint of the schema turns them down (role names, role permissions, members, foreign keys).
- Operations run one at a time.

## Where the code does less than it seems to promise

Each has a lemma that shows the failure, and the exact condition under which the promise holds or a bound that
is reached.

- A settlement whose acknowledgement is lost is reported to the caller as a failure, because every retry finds
  the hold closed (`Outbound.LostSettlementExample`, `Outbound.SettledButReportedFailed`).
- A payment that fails leaves everybody's worth alone if and only if none of its postings was applied without
  being acknowledged (`Payments.StrayExample`, `Payments.PaymentExactly`).
- Card limits count what was held, in the wallet's currency, but check what was asked, in the merchant's: they
  hold in every run if and only if no ask rate exceeds one (`CardExtremes.MarkupReached`,
  `CardExtremes.LimitsIffNoMarkup`). So does the cap on foreign spending (`CardExtremes.CapMissesConversion`,
  `CardExtremes.CapIffNoMarkup`). Both fail open when a sum query errors (`CardExtremes.FailsOpen`,
  `CardExtremes.AbroadFailsOpen`); in all cases the excess is bounded by what slipped past the check, and the bound
  is reached (`CardMeters.MeterBound`).
- An approval that holds nothing can neither be cleared nor reversed, because its hold looks closed
  (`CardOutcomes.ApproveThenClear`, `CardOutcomes.ReversalExactly`).
- Manual repayments and sweeps together can collect a loan twice; every cent is accounted for if and only if
  every manual repayment that goes through pays for whole installments (`LoanRuns.OvercollectionRun`,
  `LoanRuns.ExactMixture`).
- Swapping a letter and a digit in an IBAN is missed exactly when the letter's number is that digit twice
  (`Iban.TranspositionExample`, `Iban.TranspositionDetected`).
- `send` accepts messages that `readFrame` cannot return, or returns as a different message
  (`Framing.MisreadExample`, `Framing.FrameRoundTrip`).
- `UpdateRole` never compares the role's business with the one named in the call, and fails on a repeated
  permission after writing but before invalidating; either leaves stale permissions in the cache
  (`PermissionRuns.StaleExample`, `PermissionRuns.UpdateRoleExactly`).
- Batches, and transfers whose total could not be read, pass the daily limit by what they book, and no others do
  (`RegulatoryRuns.BoundReached`, `RegulatoryRuns.DailyLimitHolds`); the monthly remittance cap fails open the same
  way (`RegulatoryRuns.CapReached`, `RegulatoryRuns.MonthlyCapHolds`), and only ever counts dollar rows, so other
  currencies are held against it one transfer at a time (`RegulatoryRuns.CapMissesOtherCurrencies`).
- The counters miss what batches that stop half-way and unacknowledged settlements take out of a wallet, and nothing
  else (`RegulatedBank.CountersFollow`).

## Model

| member | source | states |
|---|---|---|
| `Chart.AddressInjective` | internal/ledger/chart.go:30-142 | For ids of the shape the services mint, two accounts share an address if and only if they are the same account: the main, hold, transit, system and world families never collide. |
| `Chart.SanitizeInjective` | internal/ledger/chart.go:39-45 | Dropping the hyphens of UUIDs loses nothing. |
| `Ledger.ApplyConserves` | internal/ledger/formance.go:699-725 | A transaction, whatever its postings, leaves every asset's grand total alone and overdraws nobody but the world. |
| `Conservation.OutboundConserves` | internal/services/payments/service.go:112-265 | Over any sequence of outbound transfers, lost and dropped postings included, the balances of every asset add up to the same. |
| `Conservation.BankConserves` | internal/services/overdraft/service.go:198-359 | So they do over every run of overdraft operations, payments, batches and top-ups. |
| `Conservation.CardsConserve` | internal/services/card_auth/service.go:319-482 | And over every run of decisions, clearings, reversals and top-ups. |
| `Conservation.LoansConserve` | internal/services/lending/repayment.go:44-123 | And over every run of disbursements, repayments, sweeps and top-ups. |
| `Ledger.Client.CreateTransaction` | internal/ledger/formance.go:699-725 | All postings in order or none; the caller hears success only when the reply is not lost. |
| `Ledger.Client.GetAccountBalance` | internal/ledger/formance.go:771-807 | The balance read is what the postings left in that account and asset. |
| `Ledger.Client.HoldFunds` | internal/ledger/formance.go:296-334 | Moves the amount from the wallet to a hold account and records the hold's metadata when the posting lands. |
| `Ledger.Client.SettleHold` | internal/ledger/formance.go:336-380 | Sends what is left in the hold to its transit account; refuses a closed or unknown hold. |
| `Ledger.Client.VoidHold` | internal/ledger/formance.go:382-438 | Sends what is left back along the original transaction's sources; refuses a closed hold or one that was not funded exactly once. |
| `Ledger.HoldOpens` | internal/ledger/formance.go:296-334 | A fresh hold that lands contains exactly the amount, the wallet is down by it, and nothing else moved; otherwise the books are unchanged. |
| `Ledger.SettleOnce` | internal/ledger/formance.go:336-380 | An open hold is emptied into transit by one settlement that lands, in full; a closed one refuses every further call. |
| `Ledger.VoidOnce` | internal/ledger/formance.go:382-438 | The same for voiding, back into the wallet the hold came from. |
| `Outbound.Service.RetryLedgerOp` | internal/services/payments/service.go:628-648 | Up to three attempts, stopping at an acknowledged one or when the context ends. |
| `Outbound.Service.ProcessOutboundTransfer` | internal/services/payments/service.go:112-265 | Hold, transmit, then settle on SUCCESS, void on any other status, nothing on a transport error. |
| `Outbound.RetryOpen` | internal/services/payments/service.go:628-648 | Over all retries the hold is emptied at most once, by the first attempt that gets through, and the caller is told so only if that very attempt is acknowledged. |
| `Outbound.OutboundTrace` | internal/services/payments/service.go:154-265 | Exactly what one run does to balances, log and hold records, and when it returns nil, in terms of where the amount ends up. |
| `Outbound.OutboundSafety` | internal/services/payments/service.go:154-265 | The amount is in exactly one of wallet, hold and transit, leaves the hold at most once, reaches transit only on SUCCESS, returns only on another reply, stays in the hold on a transport error, and nil means it is in transit. |
| `Outbound.SettledButReportedFailed` | internal/services/payments/service.go:195-201 | A transfer that reached transit is reported as done if and only if the settlement that landed was not one whose acknowledgement was lost. |
| `Outbound.LostSettlementExample` | internal/services/payments/service.go:628-648 | A concrete transfer in transit that is reported as failed. |
| `Outbound.OutboundRun` | internal/services/payments/service.go:112-265 | Over any sequence of transfers by any number of users every hold contains its transfer's amount or nothing, each wallet is down by what it has in holds and transit, and transit is up by what all senders have there. |
| `Overdraft.EligibilityExactly` | internal/services/overdraft/service.go:64-77 | A limit is offered exactly to unblacklisted users with a score above 600 and at least ten cents approved; it is a tenth of the approval or the cap. |
| `Overdraft.Service.OptIn` | internal/services/overdraft/service.go:112-162 | The row written and the error for every prior status and profile. |
| `Overdraft.Service.OptOut` | internal/services/overdraft/service.go:165-194 | Refused while anything is owed; otherwise the row becomes inactive with its limit kept. |
| `Overdraft.Service.UseCover` | internal/services/overdraft/service.go:198-238 | Draws the shortfall from the pool and adds it to the row, or refuses; a ledger failure leaves the row alone. |
| `Overdraft.Service.Repay` | internal/services/overdraft/service.go:241-301 | Debits at most what is owed and reduces the row, fee first. |
| `Overdraft.Service.AutoRepayOnInflow` | internal/services/overdraft/service.go:306-359 | The bank and the amount reported after an inflow; `Overdraft.InflowRepays` says what they are. |
| `Overdraft.Service.UpdateFeeAccrual` | internal/repository/overdraft.go:84-89 | Adds a fee to the accrued amount of an existing row. |
| `Overdraft.ReducedExactly` | internal/services/overdraft/service.go:241-301 | A repayment lowers used plus accrued by exactly the amount debited, touches principal only once the fee is gone, and keeps the row's invariant. |
| `Overdraft.OptInKeeps` | internal/repository/overdraft.go:47-63 | Opting in keeps 0 ≤ used ≤ limit ≤ 5,000,000, accrued ≥ 0, Used exactly when something is owed, and the pool-plus-debt sum. |
| `Overdraft.OptOutKeeps` | internal/services/overdraft/service.go:165-194 | So does opting out. |
| `Overdraft.CoverKeeps` | internal/services/overdraft/service.go:198-238 | A draw keeps the row invariant, and the pool falls by exactly what the debts rise. |
| `Overdraft.RepaymentKeeps` | internal/services/overdraft/service.go:241-301 | A repayment keeps the row invariant, and the pool rises by exactly what the debts fall. |
| `Overdraft.FeeKeeps` | internal/repository/overdraft.go:84-89 | A fee accrued while the facility is used keeps the row invariant and raises the sum by the fee. |
| `Overdraft.OptInExactly` | internal/services/overdraft/service.go:112-162 | Opting in succeeds exactly for an eligible user whose facility is neither active nor in use; the limit is a tenth of the approval up to 50,000 birr and nothing owed is forgotten. |
| `Overdraft.OptOutExactly` | internal/services/overdraft/service.go:165-194 | Opting out succeeds exactly when there is a facility, not inactive, on which nothing is owed. |
| `Overdraft.CoverExactly` | internal/services/overdraft/service.go:198-238 | A draw succeeds exactly when it is acknowledged, in birr, from an active or used facility, within limit less used, and covered by the pool; which error is given otherwise, and what moves. |
| `Overdraft.RepayExactly` | internal/services/overdraft/service.go:241-301 | A manual repayment succeeds exactly when something is owed and the wallet has the smaller of amount and debt; it takes exactly that, fee first, and leaves max(0, owed − amount). |
| `Overdraft.InflowRepays` | internal/services/overdraft/service.go:306-359 | An acknowledged inflow moves min(credit, owed) from wallet to pool, leaves max(0, owed − credit), and ends the overdraft exactly when the credit is at least the debt; in every other case what little happens. |
| `Payments.Service.ProcessInboundTransfer` | internal/services/payments/service.go:273-429 | Refusals in order, balance check with optional draw, debit, then the recipient's auto-repay. |
| `Payments.Service.ProcessBatchTransfer` | internal/services/payments/service.go:460-624 | Validation, recipient resolution, one funding step for the total, then the debit loop that stops at the first failure. |
| `Payments.ValidateBatch` | internal/services/payments/forms.go:85-105 | Accepts exactly 2 to 10 items of positive amount with distinct normalised recipients. |
| `Payments.TotalCents` | internal/services/payments/forms.go:107-113 | The loop adds up all amounts. |
| `Payments.PaymentExactly` | internal/services/payments/service.go:324-382 | A completed payment moves exactly the amount between the net worths of sender and recipient and leaves everyone else's alone, and a failed one changes nobody's, whatever draw and auto-repay happen inside, if and only if no posting was applied without acknowledgement. |
| `Payments.PaymentWorth` | internal/services/payments/service.go:324-382 | Every user's worth in every asset after a payment, faults included: the ideal movement plus exactly what went astray. |
| `Payments.StrayExample` | internal/services/payments/service.go:341-352 | A debit applied but not acknowledged: the payment fails and the money has moved. |
| `Payments.ItemsProgress` | internal/services/payments/service.go:516-583 | From funds that suffice for all items the loop fails only where a debit is dropped: no step touches the sender except its own debits. |
| `Payments.BatchExactly` | internal/services/payments/service.go:496-583 | Exactly the first `paid` items are transferred; absent ledger faults a batch stops before any debit or performs all; the sender's worth falls by the total and each recipient's rises by the sum of their items. |
| `PaymentOutcomes.FundingExactly` | internal/services/payments/service.go:324-340 | Funding succeeds exactly when the balance is read and wallet and overdraft together suffice; it draws exactly what is missing. |
| `PaymentOutcomes.PaymentCompletes` | internal/services/payments/service.go:273-352 | A payment completes exactly when sender and recipient are two known users, neither frozen, the amount is positive, the regulator agrees, there are funds and the debit is acknowledged; an improper one touches nothing and is refused for the first thing wrong. |
| `PaymentOutcomes.CompletedPayment` | internal/services/payments/service.go:324-382 | What a completed birr payment does to both wallets, both overdrafts and the pool: the draw, the repayment of min(amount, owed), and when the recipient is out of the overdraft. |
| `PaymentOutcomes.BatchCompletes` | internal/services/payments/service.go:460-583 | A batch completes exactly with two to ten positive items for distinct, known, unfrozen recipients other than the known, unfrozen sender, with funds for the total, and every debit acknowledged. |
| `PaymentOutcomes.CompletedBatch` | internal/services/payments/service.go:516-583 | Every recipient then owes what they owed less what all their items brought, down to nothing, and the sender what was drawn on top. |
| `BankRuns.EveryRun` | internal/services/overdraft/service.go:112-359 | Over every run of opt-in, opt-out, cover, repay, auto-repay, fees, payments, batches and top-ups by any number of users: row invariants hold, nobody is overdrawn, overdraft capital plus everything owed equals the initial sum plus all fees, and each user's worth is the initial one plus the effects of the run. |
| `CardAuth.Waterfall` | internal/services/card_auth/service.go:246-317 | The loop returns what the recursive specification chooses. |
| `CardAuth.WaterfallRefines` | internal/services/card_auth/service.go:246-322 | The loop picks the earliest usable entry, none exactly when none is usable, and holds the request amount or the least integer not below amount times ask, never above that currency's balance. |
| `CardAuth.DecisionExactly` | internal/services/card_auth/service.go:246-333 | For a fresh hold and an acknowledged posting, decide answers 51 exactly when both gates pass and no entry is usable, and 00 exactly when both pass and some entry is: the ledger never turns down what the waterfall chose. |
| `CardAuth.PriceMeans` | internal/services/card_auth/service.go:262-313 | An entry has a price if and only if its currency is active, convertible where needed and affordable at the exact rate. |
| `CardAuth.Service.Decide` | internal/services/card_auth/service.go:99-373 | The response code, books and authorization row for every request and environment; the `CardOutcomes` rows say which. |
| `CardAuth.Service.CheckCard` | internal/services/card_auth/service.go:112-200 | The first card, channel, limit or holder check that fails; `CardOutcomes.CardRefused` and `CardOutcomes.SpendingRefused` say which code it answers when. |
| `CardAuth.Service.SumApproved` | internal/repository/card_authorizations.go:144-198 | The sum queries add exactly the amounts of the matching rows. |
| `CardAuth.Service.SettleAuthorization` | internal/services/card_auth/service.go:417-448 | The desk and the answer after a clearing; `CardOutcomes.ClearingExactly` says what they are. |
| `CardAuth.Service.ReverseAuthorization` | internal/services/card_auth/service.go:451-482 | The same for a reversal; see `CardOutcomes.ReversalExactly`. |
| `CardOutcomes.CardRefused` | internal/services/card_auth/service.go:112-159 | 05 and no row for an unknown card, 62 for a frozen one, 54 for an expired or cancelled one, 05 for a pending one and for a channel that is switched off; nothing is held and one declined row written. |
| `CardOutcomes.SpendingRefused` | internal/services/card_auth/service.go:161-200 | 61 above the per-transaction, daily or monthly limit, 05 for an unknown or frozen holder, with the same effects. |
| `CardOutcomes.AbroadRefused` | internal/services/card_auth/service.go:202-244 | 05 where spending abroad is off nationally or on the card, 96 for euros without a rate, 61 above the cap. |
| `CardOutcomes.AdmittedMeans` | internal/services/card_auth/service.go:112-244 | 00 and 51 are answered exactly when card, channel, limits, holder and the rules abroad all pass. |
| `CardOutcomes.ApprovedExactly` | internal/services/card_auth/service.go:112-333 | For a fresh hold, an acknowledged posting and rates that are not negative, 00 exactly when all those pass and some waterfall entry is affordable, 51 exactly when all pass and none is. |
| `CardOutcomes.ApprovalHolds` | internal/services/card_auth/service.go:319-363 | An approval takes its row's amount from the holder's wallet into the hold, appends that row and changes nothing else. |
| `CardOutcomes.ShortOfFunds` | internal/services/card_auth/service.go:315-333 | A request answered 51 holds nothing and leaves one declined row. |
| `CardOutcomes.DefaultPays` | internal/services/card_auth/service.go:246-275 | A holder without a waterfall pays in the merchant's currency where it is funded: dollars for 840, euros for 978, birr otherwise. |
| `CardOutcomes.ClearingExactly` | internal/services/card_auth/service.go:417-448 | A clearing succeeds exactly for an approved first row of its number with something in its hold, read and acknowledged; the whole hold goes to card transit, the row is cleared with the settlement amount, and nothing else changes. |
| `CardOutcomes.ReversalExactly` | internal/services/card_auth/service.go:451-482 | A reversal, likewise, sends the whole hold back into the wallet and marks the row reversed. |
| `CardOutcomes.UnknownNumber` | internal/services/card_auth/service.go:417-422 | A number no row has closes nothing. |
| `CardOutcomes.ApprovalCounts` | internal/repository/card_authorizations.go:144-198 | An approval counts in full in the sums of its card, day and month and, if foreign, of its holder abroad; a refused request nowhere. |
| `CardOutcomes.ClearingCountsOn` | internal/repository/card_authorizations.go:144-178 | A clearing leaves the sums where they are. |
| `CardOutcomes.ReversalCountsOut` | internal/repository/card_authorizations.go:144-178 | A reversal takes its amount out of them. |
| `CardOutcomes.ApproveThenClear` | internal/services/card_auth/service.go:319-448 | Approving and clearing under a fresh number moves what was held from the wallet to card transit and nothing else; only an approval of nothing cannot be cleared. |
| `CardOutcomes.ApproveThenReverse` | internal/services/card_auth/service.go:319-482 | Approving and reversing leaves every balance as it was. |
| `CardRuns.EveryRun` | internal/services/card_auth/service.go:319-363 | In every reachable state, with failed queries and changed limits included, an approved row's hold contains exactly its amount in its currency, a cleared or reversed one's is empty, each wallet is down by exactly its approved plus cleared amounts, and card transit is up by the cleared ones. |
| `CardRuns.ClosedForGood` | internal/repository/card_authorizations.go:101-112 | A row that is no longer approved never changes again, so none is both cleared and reversed. |
| `CardMeters.DecideAdds` | internal/services/card_auth/service.go:161-373 | A decision appends at most one row; only an approved one counts, and then both gates passed and the row holds the asked amount in the merchant's currency or less than one unit above amount times ask in another. |
| `CardMeters.MeterGate` | internal/services/card_auth/service.go:161-244 | Whatever is approved passed every check that was made: for the daily, monthly and international sums, the sum before it plus what the check counted is within the limit. |
| `CardMeters.MeterBound` | internal/services/card_auth/service.go:161-244 | Over every run, with failed queries, lowered limits and conversions, no daily, monthly or international sum exceeds the highest limit it was checked against, plus the most a checked approval held above what its check counted, plus everything approved without that check, or with a check that could not read the sum. |
| `CardMeters.LimitsHold` | internal/services/card_auth/service.go:161-187 | With answering queries and limits not lowered, no day's or month's sum exceeds the limit by more than the most that an approval held above what was asked; what was spent in the merchant's own currency never exceeds it at all. |
| `CardExtremes.LimitsIffNoMarkup` | internal/repository/card_authorizations.go:144-178 | The sums the service itself computes stay within the limits in every such run, for every card, day and month, if and only if no ask rate exceeds one. |
| `CardExtremes.MarkupReached` | internal/services/card_auth/service.go:161-187 | For every amount and every ask rate above one, a request equal to the limit is approved and leaves the day above it by all that the conversion adds. |
| `CardExtremes.FailsOpen` | internal/services/card_auth/service.go:168-176 | With the daily query down any amount is approved against a daily limit of zero, and the general bound is reached. |
| `CardMeters.CapHolds` | internal/services/card_auth/service.go:217-243 | Where foreign requests are dollar requests and the sum is read, a user's international sum exceeds the cap by at most the most that an approval held above what was asked. |
| `CardExtremes.CapMissesConversion` | internal/services/card_auth/service.go:217-243 | That bound is reached: for every amount and ask rate above one, a request of the whole cap paid in birr leaves the sum above it by all that the conversion adds. |
| `CardExtremes.CapIffNoMarkup` | internal/services/card_auth/service.go:217-243 | The cap holds in every run of checked dollar requests, for every user and month, if and only if no ask rate exceeds one. |
| `CardExtremes.AbroadFailsOpen` | internal/services/card_auth/service.go:223-243 | A sum that cannot be read counts as zero: a second request of the whole cap is approved, and the sum is twice the cap. |
| `Lending.MakeSchedule` | internal/services/lending/disbursement.go:123-142 | The loop builds the specified schedule; `LoanOutcomes.DisbursementExactly` says what is in it. |
| `Lending.ScheduleAddsUp` | internal/services/lending/disbursement.go:123-145 | Dues add up to the total, none is negative, and all are positive exactly when there is a cent per month. |
| `Lending.Service.DisburseLoan` | internal/services/lending/disbursement.go:46-145 | The book after a disbursement; `LoanOutcomes.DisbursementExactly` says when it goes through and what it writes. |
| `Lending.Service.CollectLoanRepayment` | internal/ledger/formance.go:467-490 | One transaction of two postings, principal share and fee share. |
| `Lending.Service.ManualRepay` | internal/services/lending/disbursement.go:169-253 | The collection, the marked installments and the new status. |
| `Lending.Service.MarkInstallments` | internal/services/lending/disbursement.go:223-238 | The loop marks unpaid installments in order while the payment covers them. |
| `Lending.Service.ProcessInstallment` | internal/services/lending/repayment.go:68-123 | Collects the full due and marks the installment, whatever the loan's status. |
| `Lending.Service.AutoSweep` | internal/services/lending/repayment.go:44-66 | Every due installment in turn, failures skipped. |
| `Lending.ShareBounds` | internal/services/lending/disbursement.go:199-203 | The truncated principal share is between zero and the amount and within one cent of the exact ratio. |
| `Lending.RoundingBound` | internal/services/lending/repayment.go:82-88 | After k collections that together equal the total due, loan capital has received more than principal − k and at most the principal, interest at least the fee and less than fee + k. |
| `Lending.MarkBounds` | internal/services/lending/disbursement.go:223-238 | Marking changes no due and newly marks at most the amount paid. |
| `Lending.MarkExact` | internal/services/lending/disbursement.go:223-238 | Marking uses up the whole payment if and only if it equals the unpaid dues of the first k installments for some k. |
| `Lending.WholeKeepsSlack` | internal/services/lending/disbursement.go:199-242 | A manual repayment leaves no unaccounted cents exactly when it pays for whole installments. |
| `Lending.Overcollection` | internal/services/lending/repayment.go:68-111 | Once every installment is paid, the excess collected is exactly the unaccounted cents. |
| `LoanOutcomes.DisbursementExactly` | internal/services/lending/disbursement.go:93-145 | Goes through exactly for a positive principal, 7 to 365 days, an approved borrower, a pool that has it and an acknowledged posting. Then the principal is in the wallet, the fee is five percent rounded down, and there is one installment below 30 days and one per full 30 days otherwise, numbered, unpaid, equal but for the last, which takes the rest. |
| `LoanOutcomes.MarkPaysFirst` | internal/services/lending/disbursement.go:223-238 | The loop marks exactly the longest run of installments from the front whose unpaid dues the amount covers. |
| `LoanOutcomes.ManualGoesThrough` | internal/services/lending/disbursement.go:169-206 | A repayment goes through exactly when offered by the borrower of an active or overdue loan, with the smaller of amount and remainder in the wallet and an acknowledged posting; otherwise no row changes. |
| `LoanOutcomes.ManualWrites` | internal/services/lending/disbursement.go:185-242 | Then exactly that is taken, split, counted and receipted, the installments it covers are marked, and the loan is repaid exactly when the total is reached. |
| `LoanOutcomes.InstallmentExactly` | internal/services/lending/repayment.go:68-123 | An installment is collected in full exactly when the wallet has it and the posting is acknowledged, whatever the loan's status. |
| `LoanOutcomes.SweepTouchesListed` | internal/services/lending/repayment.go:44-66 | A sweep changes no installment that is not on its list, and no due. |
| `LoanOutcomes.SweepPays` | internal/services/lending/repayment.go:44-66 | An entry is paid after the sweep exactly when it was collectable at its turn, whatever failed before. |
| `LoanRuns.EveryRun` | internal/services/lending/disbursement.go:93-253 | Over any sequence of disbursements, manual repayments, sweeps and top-ups schedules add up and dues marked paid never exceed what was collected; with no acknowledgement lost, loan capital plus principal still out is constant and interest grew by what the receipts booked. |
| `LoanRuns.ManualOnly` | internal/services/lending/disbursement.go:185-242 | With manual repayments alone the total paid never exceeds the total due, and the status is Repaid exactly when they are equal. |
| `LoanRuns.SweepOnly` | internal/services/lending/repayment.go:54-111 | With sweeps alone the total paid equals the dues of paid installments. |
| `LoanRuns.ExactMixture` | internal/services/lending/repayment.go:44-123 | Over any mixture of both writers every collected cent is accounted for by a paid installment if and only if every manual repayment that went through paid for whole installments; then nothing is collected beyond the total, and once all installments are paid, only then. |
| `LoanRuns.OvercollectionRun` | internal/services/lending/repayment.go:68-111 | A run through the service and the ledger: disbursed, paid by hand in two parts, marked Repaid, and swept in full all the same. |
| `Iban.LettersToDigits` | pkg/iban/generator.go:53-63 | The loop expands every letter to its two-digit number and leaves other characters. |
| `Iban.SubstitutionDetected` | pkg/iban/generator.go:26-39 | Replacing one digit by a different digit or one letter by a different letter makes any valid IBAN invalid. |
| `Iban.TranspositionDetected` | pkg/iban/generator.go:26-39 | Swapping two adjacent letters or digits on the same side of position 4 is missed if and only if their expansion reads the same both ways; unequal digits are always caught. |
| `Iban.TranspositionExample` | pkg/iban/generator.go:26-39 | A valid IBAN that stays valid when B1 is swapped to 1B. |
| `Iban.RoundTrip` | pkg/iban/generator.go:19-50 | Generate succeeds for exactly the alphanumeric inputs, and Validate accepts every result. |
| `Iban.GenerateInjective` | pkg/iban/generator.go:19-68 | For non-negative sequence numbers and three-character alphanumeric currencies Generate succeeds and the IBAN determines both, up to the case of the currency. |
| `Iban.GeneratedForm` | pkg/iban/generator.go:19-50 | ET, two check digits, NEO0001, account number, currency in capitals; the check is 98 less the remainder by 97 of the rest with ET00 behind it. |
| `Iban.AccountNumberForm` | pkg/iban/generator.go:66-68 | Ten digits with the value of the sequence number. |
| `Iban.ValidMeans` | pkg/iban/generator.go:26-39 | Text of letters and digits is valid exactly when it has five characters or more and its rearranged number leaves one by 97. |
| `Framing.Wire.Send` | internal/gateway/ethswitch/iso8583/router.go:251-270 | Appends the two-byte length, wrapped to 16 bits, and the message. |
| `Framing.Wire.ReadFrame` | internal/gateway/ethswitch/iso8583/router.go:223-249 | Returns the first frame's payload and leaves the rest, or an error for a short stream or a refused length. |
| `Framing.FrameRoundTrip` | internal/gateway/ethswitch/iso8583/router.go:223-270 | A frame is read back whole if and only if the message is 1 to 9999 bytes long. |
| `Framing.BigEndian` | internal/gateway/ethswitch/iso8583/router.go:251-270 | The high byte of the length first, then the low byte, then the message. |
| `Framing.ReadExactly` | internal/gateway/ethswitch/iso8583/router.go:223-249 | A frame is read exactly when the first byte times 256 plus the second is 1 to 9999 and that many bytes follow; they are the payload. |
| `Framing.Misread` | internal/gateway/ethswitch/iso8583/router.go:223-270 | What becomes of every other message: below 65536 bytes it stops the reader for good, and one whose length wraps into the range is cut down to its beginning. |
| `Framing.MisreadExample` | internal/gateway/ethswitch/iso8583/router.go:251-270 | A message of 65537 bytes arrives as one byte, an empty one not at all. |
| `Framing.StreamRoundTrip` | internal/gateway/ethswitch/iso8583/router.go:223-270 | The frames of a list of messages are read back as exactly that list with nothing left over if and only if all are 1 to 9999 bytes long. |
| `Cache.MemoryCache.Get` | pkg/cache/memory.go:26-40 | The unexpired value, and an expired entry is dropped. |
| `Cache.MemoryCache.Set` | pkg/cache/memory.go:42-51 | Replaces the entry; a non-positive lifetime never expires. |
| `Cache.MemoryCache.DeleteByPrefix` | pkg/cache/memory.go:60-69 | The loop removes exactly the keys with the prefix. |
| `Cache.MemoryCache.Increment` | pkg/cache/memory.go:71-85 | Counts from one when absent or expired, otherwise adds one without extending the lifetime. |
| `Cache.Lifetime` | pkg/cache/memory.go:26-51 | A value answers until its lifetime is over, that instant included, or for ever without one. |
| `Cache.AskingIsHarmless` | pkg/cache/memory.go:26-40 | Dropping an expired entry on the way changes no later answer. |
| `Cache.Dropped` | pkg/cache/memory.go:60-69 | Exactly the keys that start with the prefix fall silent. |
| `Cache.CounterLifetime` | pkg/cache/memory.go:71-85 | A counter's lifetime runs from its first step; within it every step adds one, after it counting starts again. |
| `Permissions.Service.GetMemberRole` | internal/services/permissions/service.go:98-124 | The answer and the cache after a read-through lookup. |
| `Permissions.Service.HasPermission` | internal/services/permissions/service.go:38-44 | Whether the looked-up role grants the permission, or the lookup's error. |
| `Permissions.Service.InvalidateCache` | internal/services/permissions/service.go:94-96 | Drops every cached role of one business. |
| `Permissions.Service.InviteMember` | internal/services/business/service.go:195-239 | Adds a member with any existing role; refuses one who is or was a member. |
| `Permissions.Service.UpdateMemberRole` | internal/services/business/service.go:243-286 | Checks in order, the role change, then the invalidation. |
| `Permissions.Service.RemoveMember` | internal/services/business/service.go:288-320 | Deactivates a member who is not the owner. |
| `Permissions.Service.SetPermissions` | internal/repository/business_roles.go:140-152 | Row by row, so that a repeated permission leaves the part before it; succeeds exactly for lists without repeats. |
| `Permissions.Service.CreateRole` | internal/services/business/service.go:338-384 | The role row, its permissions and the invalidation, with what a refused statement leaves behind. |
| `Permissions.Service.UpdateRole` | internal/services/business/service.go:386-446 | Fields left out keep their value; a repeated permission fails after the writes and before the invalidation. |
| `Permissions.Service.DeleteRole` | internal/services/business/service.go:448-486 | Refused for system roles and while any member row refers to the role. |
| `PermissionOutcomes.RemovalExactly` | internal/services/business/service.go:288-320 | A removal succeeds exactly for an active member of the business who is not the owner; from then on their role is not found at any instant, by table or cache, and everyone else's answer is unchanged. |
| `PermissionOutcomes.RoleChangeExactly` | internal/services/business/service.go:243-286 | A role change succeeds exactly for such a member and an existing role; the member then has that role, everyone else theirs. |
| `PermissionOutcomes.InvitationExactly` | internal/services/business/service.go:195-239 | An invitation succeeds exactly for an existing role and a user with no row in the business; the member has the role at once. |
| `PermissionOutcomes.CreationExactly` | internal/services/business/service.go:338-384 | A creation succeeds exactly for a valid request with a free name and no repeated permission; the role grants exactly what was listed. |
| `PermissionOutcomes.UpdateExactly` | internal/services/business/service.go:386-446 | When an update succeeds, every field and permission after it, and what a repeated permission leaves behind. |
| `PermissionOutcomes.DeletionExactly` | internal/services/business/service.go:448-486 | A deletion succeeds exactly for a role that is not a system role and that no member row refers to; the role is gone and no answer changes. |
| `PermissionOutcomes.UpdateTakesEffect` | internal/services/permissions/service.go:38-124 | After an update that names the role's own business a member is granted exactly what was listed, from the first question on. |
| `PermissionOutcomes.ReadFills` | internal/services/permissions/service.go:98-124 | A miss keeps the table's answer for the cache's lifetime; a hit does not prolong it. |
| `PermissionRuns.ReadAgrees` | internal/services/permissions/service.go:98-124 | Through a cache that agrees with the tables every read answers as the tables do, whatever the expiry times, and leaves it agreeing. |
| `PermissionRuns.EveryRead` | internal/services/business/service.go:195-486 | After every run of reads, member and role operations in which role writes name the owning business, members hold only own or system roles and updates do not repeat a permission, asking through the cache gives what the role tables say, for every business, user, permission and instant. |
| `PermissionRuns.UpdateRoleExactly` | internal/services/business/service.go:386-446 | After a role update the cache still agrees if and only if the update is turned down before writing, asks for what the role already is, or there is no entry of the role that it does not clear. |
| `PermissionRuns.StaleExample` | internal/services/business/service.go:386-446 | A permission that was taken away is still granted: after an update naming another business, and after one that repeats a permission. |
| `Regulatory.BestIsFirstTop` | internal/services/regulatory/service.go:61-88 | The scan ends with the first rule of maximal match priority, and with none exactly when none matches. |
| `Regulatory.OrderIndependent` | internal/services/regulatory/service.go:61-88 | The resolved value is the same in every order of the rules if and only if the most specific rules carry one value. |
| `Regulatory.Precedence` | internal/services/regulatory/service.go:290-319 | A rule for the currency beats one for the account type, that one for the KYC level, that a global one; among equals the first decides. |
| `Regulatory.ParseReads` | internal/services/regulatory/service.go:83-87 | A value is read as a number with optional sign exactly when it fits 64 bits. |
| `Regulatory.AllowedExactly` | internal/services/regulatory/service.go:167-247 | A transfer is allowed exactly when daily, monthly and advance limits have room, birr stays in the country, whoever sends abroad is verified, investing is on where it is one, and no documents are missing. |
| `Regulatory.RefusedByLimit` | internal/services/regulatory/service.go:167-210 | Which limit a refusal names, or the missing rate. |
| `Regulatory.RefusedByRule` | internal/services/regulatory/service.go:212-245 | Which of the other rules. |
| `Common.RoundIsNearest` | internal/services/regulatory/service.go:249-260 | Dollars are rounded to the nearest cent, halves away from zero. |
| `Regulatory.Service.BestRule` | internal/services/regulatory/service.go:67-77 | The loop returns the first rule of maximal priority. |
| `Regulatory.Service.GetAmountLimit` | internal/services/regulatory/service.go:61-88 | The best rule's value as a 64-bit number, through a cache that agrees with the rule table. |
| `Regulatory.Service.IsEnabled` | internal/services/regulatory/service.go:91-114 | Whether the best rule says "true". |
| `Regulatory.Service.EffectiveRules` | internal/services/regulatory/service.go:268-286 | Whatever is cached is what the table has, before and after. |
| `Regulatory.Service.ReplaceRules` | internal/services/regulatory/service.go:262-265 | Clearing the cache makes it agree with any new rule table. |
| `Regulatory.Service.CheckTransferAllowed` | internal/services/regulatory/service.go:167-247 | The first of the seven rules that objects, or none, with totals that could not be read taken as zero. |
| `Regulatory.Service.GetDailyTotal` | internal/repository/transfer_totals.go:24-36 | The row's total; zero when there is no row or the query fails. |
| `Regulatory.Service.GetMonthlyTotal` | internal/repository/transfer_totals.go:38-50 | The sum over the rows of the month or later; zero when the query fails. |
| `Regulatory.Service.Increment` | internal/repository/transfer_totals.go:52-66 | Adds to the day's counter, starting from zero. |
| `RegulatoryRuns.DailyLimitHolds` | internal/services/regulatory/service.go:167-178 | With fixed rules no run, one operation at a time, takes a (user, currency, direction, day) total above the resolved limit by more than what batches and transfers with a failed query booked into it; transfers that straddle midnight stay within. |
| `RegulatoryRuns.SingleTransfersStayWithin` | internal/services/payments/service.go:407-410 | Single outbound and peer-to-peer transfers whose query answers never take a total above the limit, on whatever date they are booked. |
| `RegulatoryRuns.BoundReached` | internal/services/payments/service.go:613-615 | That bound is reached for every limit, every batch and every transfer up to the limit that could not be checked. |
| `RegulatoryRuns.MonthlyCapHolds` | internal/services/regulatory/service.go:180-195 | A user's outbound dollar transfers of any month, those checked in the month before included, never add up to more than the cap plus those whose query failed. |
| `RegulatoryRuns.CapReached` | internal/repository/transfer_totals.go:38-50 | And that bound is reached. |
| `RegulatoryRuns.CapMissesOtherCurrencies` | internal/services/regulatory/service.go:180-195 | In another currency any number of transfers of the whole cap are let through in one day. |
| `RegulatedBank.BankSide` | internal/services/payments/service.go:112-429 | Payments and outbound transfers with their checks and bookings, and everything else the bank does, are seen from the bank one of the shared ledger's own legal runs. |
| `RegulatedBank.RegulatorSide` | internal/services/payments/service.go:290-311 | Seen from the regulator they are a run of checked transfers and unchecked batches, booked exactly when they complete. |
| `RegulatedBank.CountersFollow` | internal/services/payments/service.go:234-237 | A day's total grows by exactly what payments and outbound transfers took out of the wallet, less what batches that stopped half-way and settlements without acknowledgement took uncounted. |
| `RegulatedBank.RegulatedRun` | internal/services/payments/service.go:112-624 | What payments and transfers take out of a user's wallet on a day exceeds the resolved limit at most by what was booked unchecked and what no counter saw, while the shared ledger keeps everything it keeps. |
| `RegulatedBank.CappedRun` | internal/services/regulatory/service.go:180-195 | In the same system a month's outbound dollars stay within the cap plus transfers whose query failed. |
| `SharedLedger.EveryRun` | internal/ledger/formance.go:245-542 | On one ledger, over every interleaving of payments, overdraft operations, card decisions, clearings and reversals, loan operations, top-ups and outbound transfers with lost acknowledgements: every card hold and switch hold contains what its record says, rows and loans keep their invariants, nobody is overdrawn, assets are conserved, the overdraft pool plus debts grows by the fees alone, loan capital, interest and both transit accounts agree with the tables, and every user's wallet is fully explained. |
| `SharedLedger.CardHoldsApart` | internal/ledger/formance.go:296-334 | A card step never works on the hold of an outbound transfer. |
| `Conservation.BankKept` | internal/ledger/formance.go:245-292 | Payments and overdrafts touch no account but wallets, the overdraft pool and the world, and no hold. |
| `Conservation.LoanKept` | internal/ledger/formance.go:442-490 | Lending touches no account but wallets, loan capital, interest and the world, and no hold. |
| `RateLimit.Limiter.Handle` | internal/transport/http/middleware/ratelimit.go:22-44 | Passes a request on exactly when its caller's counter for the clock second is within the burst. |
| `RateLimit.CounterKeyInjective` | internal/transport/http/middleware/ratelimit.go:28-29 | The counter key determines caller and second, even when the caller contains colons. |
| `RateLimit.WindowExact` | internal/transport/http/middleware/ratelimit.go:17-45 | Of n requests of one caller in one clock second exactly min(n, burst) pass, whatever others do and in whatever order they arrive. |
| `RateLimit.AnySecond` | internal/transport/http/middleware/ratelimit.go:17-45 | No second, wherever it begins, passes more than two bursts of one caller. |
| `RateLimit.TwoBurstsPass` | internal/transport/http/middleware/ratelimit.go:17-45 | That bound is reached. |

## Left out

- HTTP handlers, authentication, configuration, logging, notification and identity clients: plumbing.
- The Formance SDK, Numscript templates and idempotency keys: replaced by the atomic posting; the second send of the settlement script finds nothing to move and is omitted.
- Pots, beneficiaries, business wallets, currency conversion, invoices, documents, onboarding and staff administration: they would add only easy members.
- Audit entries, receipts other than a loan's, narration, saved recipients, timestamps such as overdrawn_since and opted_in_at: no property depends on them.
- DebitWallet with pending holds, CreditWallet and DebitWalletWithFee: the payments modelled debit wallet to wallet in one posting.
- 64-bit overflow of amounts and the rounding of float64 rates: amounts are unbounded integers, rates exact.
- Concurrent operations, including two requests between a limit check and its counter: operations run one at a time, interleaved in any order.
- Lost acknowledgements in the hold lifecycle of cards and in the net worths of bank runs: single payments, outbound transfers (on the shared ledger too), loan invariants and conservation are proved with them.
- Ledger.Client.GetAccountBalance: models the volumes as one balance, not input and output separately.
- The database check that an installment is positive, which turns down a schedule with less than a cent per month.
- The credit profile, blacklist and active-loan checks before a disbursement, recipient resolution and phone normalisation: parameters.
- Permissions.CheckTransferAllowed and its approval thresholds: one pass of comparisons over the role that GetMemberRole returns.
- Membership of businesses in the database and the creation of the owner: the members table is any one that satisfies the stated invariant.
- Percent and duration rules, rule effectivity dates, and rules that change between two steps of a run.
- Regulatory.Service.Increment: does not model the transaction counter kept beside the total.
- A cache back end other than the in-memory one, and cached values that fail to decode.
- An empty string as a currency in a spend waterfall, processing codes shorter than two characters, and characters outside ASCII in an IBAN.
- ISO 8583 parsing, keep-alive, reconnection and the matching of replies to requests.
