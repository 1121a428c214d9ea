# Parkrr, modelled and proved in Dafny

This project models the parts of the Parkrr storage-billing server in which a mistake costs money,
data or safety, and proves what they keep over whole runs. Amounts are integer cents, days are day
numbers with day 0 at 0000-01-01, and times are whole seconds.

* **What a rental costs and what an invoice bills** (`Calendar`, `PeriodKeys`, `Accrual`,
  `AccrualLaws`, `OwedLines`, `InvoiceLines`, `BilledLines`): prorating over calendar months and years
  with price changes and pauses, period keys as text, and the open lines of a person.
* **The ledger** (`LedgerState` with the tables and transactions, `LedgerMoney`, `LedgerCredit`,
  `LedgerBooks`, `LedgerClaims`, `LedgerReceipts`, `LedgerRuns`, `LedgerHistory`, `LedgerUndo`,
  `LedgerFootprint`, `ReceiptOutcomes`, `CreditOutcomes` and `DocumentOutcomes` with what they keep, undo, leave alone and
  bring about, and class `Ledgers.Ledger` with the row-by-row code): invoices, Storno, payments, credit,
  extras, deposits, bank receipts and one-off charges.
* **Agreements** (`Agreements`, `AgreementOutcomes`, class `AgreementBooks.AgreementBook`): conflict
  rules, the freeze of invoiced periods, and vehicles that come and go with an agreement.
* **Locks and interleavings** (`Transactions`): ordered lock plans, revalidation of a row's owner,
  and serial equivalence of transactions that stay within their locks.
* **The backup archive** (`BackupStream`, `BackupFormat`, `BackupPipes`) and **its publication** (`Publication`).
* **Restores across replicas** (`RestoreProtocol`, `RestoreSafety`, `RestoreOutcomes`,
  `RestoreReplica`) and **the drain gate** (`DrainGate`).
* **Throttles, forecast and audit chain** (`SecondFactor`, `LoginLimiter`, `Forecast`, `AuditChain`).

Code that changes rows or fields is a class or a method with the loops of the original, proved
against a function on values; the theorems are about that function and about serial runs of it. The
ledger and agreement operations are transactions: on an error the state is unchanged. That they write
nothing outside their locks is proved (`LedgerFootprint.StepStaysWithin`, `Agreements.SavesStayWithin`),
and that they read nothing outside them for payments and the credit sweep
(`LedgerFootprint.PaymentReadsItsPerson`, `LedgerFootprint.CreditReadsItsPerson`). For transactions that do
both, `Transactions.InterleavingsAreSerial` reduces concurrent runs to serial ones.

What each operation is for is said twice: as the function the code is proved against, and as a theorem
on the rows and fields before and after, which does not go through the helpers of that function. The
latter are in `AccrualLaws`, `BilledLines`, the `Outcomes` modules and `BackupFormat`.

The cipher is ideal: a frame opens only if it was sealed, under the same key, nonce and associated
data. The hash of the audit chain is arbitrary; its theorems end in a concrete collision instead of
assuming that there is none. What the outside world decides, such as failing reads and writes, crashes,
interleavings, late heartbeats and clocks, is a parameter or an arbitrary choice.

## What the proofs found

Each of these is proved of the model; the code is modelled as it is.

* Resuming after a restore does not look for another job. If a second restore has begun and its owner
  died, a replica serves the restored database, always migrated (`RestoreSafety.MigratedBeforeServing`)
  but possibly before its session purge (`RestoreSafety.ResumeServesUnpurgedSessions`). It is the only
  such step and `RestoreSafety.OnlyResumingBeforeAPurgeIsUnsafe` says exactly when; waiting for an open job
  by its phase would close it (`RestoreSafety.PurgedBeforeServing`).
* Deleting the last vehicle an agreement names turns it into a person-wide one, which can bill a
  vehicle-day twice (`Agreements.DeletedVehicleWidensAgreement`); exactly when is
  `Agreements.DeleteVehicleSafeIff`, `Agreements.DeleteVehicleCoversTwiceIff` and
  `Agreements.RunCoversOnceIff`.
* The overlap test stands in 9999-01-01 for an open end, so it misses agreements that start at or
  after that day (`Agreements.OverlapIsExact`).
* An agreement that ends inside an invoiced period cannot be saved, not even unchanged, and no other that
  validates is refused so (`Agreements.SavingUnchanged`, with a run for every month in
  `Agreements.EndedAgreementIsFrozen`).
* Period keys lead back to their period exactly through year 9999 (`PeriodKeys.KeyEndInvertsIff`), and
  `PeriodKeys.KeyOrderAgreesIff` says which pairs sort in time order; year 10000 sorts before almost all
  earlier ones (`PeriodKeys.KeysBreakInYear10000`).
* A reader that ends with an empty read instead of an end of file makes the decoder reject a valid
  archive (`BackupPipes.DecryptV3`).
* Refunding an attempt past the budget of a sticky limiter keeps its lock
  (`LoginLimiter.StickyRefundKeepsTheLock`).
* Archive names carry local time, so a clock set back, or the repeated hour of a time change, can make
  a run prune the archive it has just published (`Publication.ClockSetBackLosesTheNewArchive`); exactly
  when is `Publication.OwnArchiveIsPrunedIff`, and never while names move on (`Publication.NoRunPrunesItsOwn`).

## Model

| member | source | states |
|---|---|---|
| Calendar.PeriodOfUnique | internal/models/models.go:70-98 | calendar months and years partition the days: a day lies in exactly one sub-period, and the search finds it |
| Calendar.YearIsTwelveMonths | internal/models/models.go:77-97 | a year starts on the first day of its January and has 365 or 366 days, so the monthly and the yearly walk share their boundaries |
| Calendar.MonthsAreCivil | internal/models/models.go:70-98 | summing the lengths of the months gives, for every month of every year, the day number of the civil calendar in closed form |
| PeriodKeys.KeyEndInvertsKey | internal/handlers/billing.go:627-635 | turning a period key back into a date gives exactly the end of the period the key was made for, through year 9999 |
| PeriodKeys.KeyInjective | internal/models/models.go:356-361 | two sub-periods with one key text are the same sub-period, in whatever year |
| PeriodKeys.KeyOrderIsCalendarOrder | internal/handlers/billing.go:642-659 | comparing keys as text is comparing periods in time, in both directions; this is what taking max(period_key) needs |
| PeriodKeys.KeyEndInvertsIff | internal/handlers/billing.go:627-635 | for every period: its key leads back to its end if and only if its year has at most four digits; later keys read as the zero date |
| PeriodKeys.KeyOrderAgreesIff | internal/handlers/billing.go:642-659 | for every pair of periods: text order is calendar order if and only if the earlier year is not above the leading digits of the later one |
| PeriodKeys.KeysBreakInYear10000 | internal/handlers/billing.go:627-635 | so the bound on years is sharp: every period of the years 1001 to 9999 sorts after every period of year 10000 |
| Accrual.WholePeriodIsExact | internal/models/models.go:129-137 | a whole month or year costs the configured price to the cent |
| Accrual.RateIsLatestChange | internal/models/models.go:258-266 | the price of a day is that of the latest change in force on it, the later entry winning a tie, or the base price |
| Accrual.ComputeRateAt | internal/models/models.go:258-266 | the loop over the price changes returns that price |
| Accrual.SortDays | internal/models/models.go:304 | the cut days come out ascending, none lost and none invented |
| Accrual.ComputeSliceCents | internal/models/models.go:287-314 | collecting, sorting and walking the cut days costs what cutting at one boundary after the other costs, also with duplicate cuts, pauses and price changes |
| Accrual.SliceMonotone | internal/models/models.go:287-314 | inside one sub-period more days never cost less, whatever price changes and pauses there are |
| Accrual.WalkSubPeriods | internal/models/models.go:70-98 | the calendar walk emits exactly the sub-periods the range meets, each clipped to it, in order |
| Accrual.ComputeCostInRange | internal/models/models.go:505-518 | the cost of a range is the sum over the walked sub-periods inside the accrual window |
| Accrual.WalkCostSplits | internal/models/models.go:70-98 | rounding is per sub-period, so costs add up exactly when a range is cut at any sub-period start |
| Accrual.CostMonotone | internal/models/models.go:505-523 | cost accrued through a later day is never smaller, and never negative |
| AccrualLaws.FractionIsNearest | internal/models/models.go:129-137 | a share of a price is the nearest cent, halves upwards |
| AccrualLaws.QuietStretch | internal/models/models.go:287-314 | days among which no price change and no pause begins or ends cost nothing if they are paused, and else their share of the price of the latest change in force |
| AccrualLaws.UnpausedStretch | internal/models/models.go:287-314 | days that no pause covers and no price change divides cost their share of one price |
| AccrualLaws.SliceSplits | internal/models/models.go:287-314 | a slice is the sum of its parts at any price change, pause start or day after a pause, so rounding happens between those and nowhere else |
| AccrualLaws.PausedDaysAreFree | internal/models/models.go:304-312 | days that all lie in pauses cost nothing |
| AccrualLaws.PauseIsCutOut | internal/models/models.go:304-312 | a pause inside a slice splits it into the parts before and after, and is itself free |
| AccrualLaws.PausedRangeIsFree | internal/models/models.go:505-518 | a range of days that all lie in pauses costs nothing |
| AccrualLaws.RangeIsClipped | internal/models/models.go:505-518 | only the days between the start and the end of the accrual count |
| AccrualLaws.RangeInOnePeriod | internal/models/models.go:505-518 | days inside one sub-period cost what their slice costs |
| AccrualLaws.RangesAddUp | internal/models/models.go:70-98 | ranges that meet at the start of a sub-period add up |
| OwedLines.ComputeElapsed | internal/models/models.go:445-473 | every sub-period begun by the day, with its cost and whether it has fully elapsed |
| OwedLines.PeriodOwedLines | internal/handlers/billing.go:544-575 | one line per complete, open, not yet locked sub-period, with what is not settled of it |
| OwedLines.PortionIsCostBefore | internal/handlers/billing.go:582-593 | the settled portion of a period is the cost of its days before the settled day, to the cent |
| OwedLines.PortionBounds | internal/handlers/billing.go:582-593 | it lies in 0..cost and never shrinks as the settled day moves on |
| OwedLines.SettlementAddsUp | internal/handlers/billing.go:544-593 | over all completed periods the settled portions sum to the accrual before the settled day, capped at the last completed period |
| OwedLines.LinesAndSettlementCoverAccrual | internal/handlers/billing.go:544-593 | whatever is invoiced already, open lines plus the rest of the locked periods plus the settled portions are exactly what accrued over the completed periods: no cent is lost or billed twice |
| BilledLines.WalkMeets | internal/models/models.go:70-98 | the walk visits exactly the sub-periods that have a day in the range, each cut to it |
| BilledLines.SourceBills | internal/handlers/billing.go:544-575 | a source has a line for a sub-period if and only if that is over, unlocked and still owed: not marked paid, and worth more than its fixed part or its settled days; amount, first and last day are those of what is owed |
| InvoiceLines.ComputeLines | internal/handlers/billing.go:346-538 | the lines in the order the code appends them: unbound charges, vehicles, bound charges, agreements, recurring items |
| InvoiceLines.AllLinesFresh | internal/handlers/billing.go:346-538 | no line repeats an invoiced position and every line has a positive amount |
| InvoiceLines.AllLinesDistinct | internal/handlers/billing.go:346-538 | one invoice never bills one position twice |
| InvoiceLines.SecondInvoiceFindsNothing | internal/handlers/billing.go:346-538 | once the positions of the lines are locked, the same moment has no line left |
| BilledLines.InvoiceBills | internal/handlers/billing.go:346-538 | a line is on the next invoice if and only if some charge, vehicle, agreement or recurring item owes it |
| LedgerMoney.BookLoopKeepsMoney | internal/handlers/billing.go:1361-1402 | the allocation loop keeps the books balanced and spends exactly what it reports as spent |
| LedgerMoney.PaymentFlows | internal/handlers/billing.go:1361-1402 | a payment is a waterfall over the open items: each, in order, gets what the older ones left, up to its open amount or the chosen part of it; min(amount, total wanted) is booked and nothing else moves |
| LedgerMoney.AutoPaymentWaterfall | internal/handlers/billing.go:1361-1402 | without a selection exactly min(amount, total open) is booked |
| LedgerMoney.DropInvoiceSums | internal/handlers/billing.go:1098-1106 | dropping a document's links clears its sum, keeps every other, and frees exactly its share of every receipt |
| LedgerMoney.DropPaymentSums | internal/handlers/payments.go:1091-1309 | dropping a receipt's links takes exactly its share off every document |
| LedgerCredit.OpenOldestFirstIsComplete | internal/handlers/billing.go:1328-1350 | what the loop walks is exactly the person's open items, each once, by issue day and then id |
| LedgerCredit.OlderItemsCloseFirst | internal/handlers/billing.go:1361-1402 | an item gets money only if every older one is fully paid, so the closed ones are a prefix and at most one touched item stays open |
| LedgerCredit.DrawForDraws | internal/handlers/invoice_credit.go:64-104 | covering one invoice draws min(open, free credit) and keeps the books |
| LedgerCredit.ApplyCreditSweeps | internal/handlers/invoice_credit.go:36-106 | the credit sweep moves exactly min(free credit, total open) and keeps the books |
| LedgerCredit.NoCreditBesideDebt | internal/handlers/invoice_credit.go:36-106 | after it, leftover credit and an open invoice of one person never coexist |
| LedgerCredit.SweepIsIdempotent | internal/handlers/invoice_credit.go:36-106 | a second sweep changes nothing |
| CreditOutcomes.DocumentsAreCoveredInOrder | internal/handlers/invoice_credit.go:36-106 | credit reaches an open document only if every open one with a smaller id ends up paid in full |
| CreditOutcomes.ReceiptsAreDrawnInOrder | internal/handlers/invoice_credit.go:12-106 | a receipt is drawn on only if every one with credit and a smaller id ends up spent |
| CreditOutcomes.CreditStaysWithThem | internal/handlers/invoice_credit.go:12-106 | only the open documents and the receipts with credit of the person take part, and no document gets more than it is open for |
| LedgerBooks.SettledReceiptIsSpent | internal/handlers/agreements.go:1232-1274 | the receipt booked for extras is fully used up by its allocations |
| LedgerBooks.CancelInvoiceKeepsMoney | internal/handlers/billing.go:1088-1106 | cancelling gives the linked receipts their money back and leaves the books balanced |
| LedgerBooks.GiveBackExact | internal/handlers/payments.go:1091-1309 | reversal takes exactly the receipt's share off a document, although the code clips at zero |
| LedgerClaims.NoPositionBilledTwice | internal/handlers/billing.go:597-620 | a position is on at most one active document, and once on it |
| LedgerClaims.LockAllSound | internal/handlers/billing.go:870-889 | inserting the lock rows succeeds exactly if the positions are distinct, unlocked and no receipt claims a charge among them |
| LedgerClaims.StornoReleasesExactly | internal/handlers/billing.go:1060-1097 | a Storno releases exactly the positions of the document it cancels |
| LedgerReceipts.RecordPaymentBooks | internal/handlers/billing.go:1285-1411 | booking a receipt adds that receipt, moves money onto documents only, and leaves as free credit what it reports as unallocated |
| LedgerReceipts.PaymentBooksWhatWasAsked | internal/handlers/billing.go:1285-1411 | the loop books everything, the chosen parts of the chosen open items, or nothing, oldest first; a selection never reaches an item that is not open |
| LedgerReceipts.AutomaticPayment | internal/handlers/billing.go:1285-1411 | an automatic payment books min(amount, total open) over exactly the open items, oldest first |
| ReceiptOutcomes.LastEntryDecides | internal/handlers/billing.go:1289-1292 | of several entries for one document the last one counts |
| ReceiptOutcomes.PaymentPaysTheChosenParts | internal/handlers/billing.go:1285-1411 | said on the entries of the request: each named open document, oldest first, gets the least of its open amount, the amount of the last entry that names it, and what the older ones left; all others get nothing |
| ReceiptOutcomes.ReceiptIsBookedIff | internal/handlers/billing.go:1285-1325 | a receipt is booked if and only if its amount is positive, its key is new and every entry names an open document of the person; a known key replays the same request and refuses another |
| ReceiptOutcomes.ReceiptIsAdded | internal/handlers/billing.go:1300-1411 | one receipt row, and as free credit what was not allocated |
| ReceiptOutcomes.AssignsIff | internal/handlers/bank_import.go:404-518 | a bank transaction is assigned if and only if nobody uses its money, it is in euros and positive, its key is new and its target is open or known |
| ReceiptOutcomes.AssignmentPays | internal/handlers/bank_import.go:440-518 | assigned to a document, that document gets the least of the amount and what it is open for, no other changes, and the rest is free; assigned to a person, all of it is free |
| ReceiptOutcomes.WithheldDepositPays | internal/handlers/deposits.go:125-200 | a withheld deposit pays the open documents of its person, oldest first, with one receipt of its amount |
| ReceiptOutcomes.DepositIsBookedIff | internal/handlers/deposits.go:125-200 | a deposit is booked if and only if it is positive, its person exists and, unless received, the balance covers it |
| LedgerReceipts.OneReceiptPerTransaction | internal/handlers/bank_import.go:584-589 | a bank transaction has at most one standing receipt, and one exactly while its effective status is assigned |
| LedgerRuns.StepKeepsValid | internal/handlers/billing.go:728-1411 | each of the fifteen transactions, however it ends, keeps the ledger valid: paid amounts are link sums in 0..total, receipts are not overspent, positions have one owner, charges stay as billed, deposit balances are not negative, bank transactions have one receipt |
| LedgerRuns.RunKeepsValid | internal/handlers/billing.go:728-1411 | so does every run of them, in any order and of any length |
| LedgerRuns.EmptyIsValid | internal/handlers/billing.go:108-117 | a fresh installation is valid |
| LedgerRuns.DepositKeyIsNew | internal/handlers/deposits.go:125-200 | the key of the next deposit was never used, so withholding always books a new receipt |
| LedgerHistory.SecondCreateFindsNothing | internal/handlers/billing.go:728-951 | a second invoice at the same moment rolls back with nothing to bill |
| LedgerHistory.StornoReopensTheLines | internal/handlers/billing.go:957-1150 | issuing and cancelling leaves exactly the same lines open |
| LedgerHistory.OnlyAnotherPersonBlocks | internal/handlers/billing.go:870-940 | issuing fails as already billed if and only if another person's active document holds one of the positions |
| LedgerHistory.ClaimedChargesAreNotBilled | internal/handlers/billing.go:928-938 | an open line is never a charge that a receipt covers, so that conflict cannot arise in serial runs |
| LedgerHistory.IssuedDocumentsAreImmutable | internal/handlers/billing.go:952-956 | in every run a document keeps its person, number, date, total and lines, and a cancelled one stays cancelled |
| LedgerHistory.NumbersAreGapless | internal/handlers/billing.go:817-860 | without a change of settings the documents issued in any run are numbered consecutively; a rolled-back attempt burns no number |
| LedgerHistory.RunKeepsRevenue | internal/handlers/billing.go:1005-1060 | the sum of all document totals equals that of the active ones, because each Storno negates what it cancels |
| LedgerHistory.BilledChargeIsFrozen | internal/handlers/charges.go:559-585 | while a charge is on a document or covered by a receipt, its row keeps owner, vehicle, amount and quantity through any run |
| LedgerHistory.RepeatedPaymentIsReplayed | internal/handlers/billing.go:1300-1325 | a keyed payment sent again is replayed: no second receipt and no money moved |
| LedgerUndo.ReversalUndoesPayment | internal/handlers/payments.go:1091-1309 | reversing a receipt undoes booking it row for row; only the reversed receipt remains |
| LedgerUndo.ReversalUndoesAssignment | internal/handlers/payments.go:1341-1368 | reversing an assigned bank receipt restores the books and leaves the transaction open to be assigned again |
| LedgerUndo.ReversalUndoesWithholding | internal/handlers/deposits.go:35-46 | reversing the receipt of a withheld deposit restores documents, links and every deposit balance |
| LedgerUndo.DepositMovesBalance | internal/handlers/deposits.go:92-225 | a deposit booking moves its person's balance by exactly its amount and nobody else's |
| LedgerUndo.DeletionUndoesDeposit | internal/handlers/deposits.go:229-287 | deleting a deposit that kept no receipt undoes booking it; its id is not used again |
| LedgerUndo.SettlingLeavesNoneOpen | internal/handlers/agreements.go:1174-1275 | after settling, every extra that was open is paid and allocated at its full amount, no extra is left open, and no other charge changed |
| DocumentOutcomes.OpenLinesAre | internal/handlers/billing.go:346-538 | the open lines of a person are exactly what the rows owe and no active document of theirs holds |
| DocumentOutcomes.InvoiceIsIssued | internal/handlers/billing.go:728-951 | an issued document has exactly those lines, their sum with tax to the nearest cent, and the next number; its positions are locked for it and nothing else changes |
| DocumentOutcomes.InvoiceIsIssuedIff | internal/handlers/billing.go:728-940 | a person is invoiced if and only if they exist, a line is open, the particulars are there, the number is free and nobody else holds a position |
| DocumentOutcomes.StornoIsIssuedIff | internal/handlers/billing.go:957-1060 | a document is cancelled if and only if it is active and the next number is free |
| DocumentOutcomes.StornoNegates | internal/handlers/billing.go:1005-1106 | the Storno negates it line by line and in total; links and positions of the document go, and no others |
| DocumentOutcomes.SettingsMoveForward | internal/handlers/billing.go:188-230 | the number moves to the wanted one or stays, never back; prefix and width are as saved |
| DocumentOutcomes.ExtrasAreSettled | internal/handlers/agreements.go:1174-1275 | exactly the unpaid, unbilled, uncovered charges of covered vehicles are marked and allocated at their price, from one receipt spent to the cent |
| DocumentOutcomes.DepositIsDeletedIff | internal/handlers/deposits.go:229-287 | a deposit is deleted if and only if it kept no receipt and the balance stays covered; only its row goes |
| DocumentOutcomes.ReversedIff | internal/handlers/payments.go:1091-1165 | a receipt is reversed if and only if it stands and was not booked for a period |
| DocumentOutcomes.ReversalTakesBack | internal/handlers/payments.go:1091-1309 | each document loses exactly what the receipt paid on it, its links and allocations go, standalone charges it alone covered open again, and its bank transaction is free |
| DocumentOutcomes.IgnoredIff | internal/handlers/bank_import.go:522-575 | a transaction is put aside only while nobody uses its money, and taken back only while it is put aside |
| DocumentOutcomes.ImportedOnce | internal/handlers/bank_import.go:186-233 | a new statement line becomes an open row, a known one changes nothing |
| DocumentOutcomes.ChargeIsUpdatedIff | internal/handlers/charges.go:524-635 | a charge is changed if and only if it is not in use or keeps owner, vehicle, amount and quantity; it then is as asked for |
| DocumentOutcomes.ChargeIsDeletedIff | internal/handlers/charges.go:638-697 | a charge is deleted if and only if it is not in use; only its row goes |
| DocumentOutcomes.ChargeIsCreated | internal/handlers/charges.go:427-521 | a new charge is open, as asked for, under an id above all others |
| LedgerFootprint.StepStaysWithin | internal/handlers/billing.go:60-74 | each transaction writes only rows of the persons whose lock it takes, the bank row it names and those their receipts stand for, and the numbering only under the settings row |
| LedgerFootprint.StepKeepsOwnAllocs | internal/handlers/agreements.go:1232-1274 | receipts for extras are allocated to charges of their own person only; every transaction keeps that |
| LedgerFootprint.RunsLeaveOthersRows | internal/handlers/billing.go:60-74 | no run of transactions that never take a person's lock changes a document, receipt, link, allocation, lock row, charge or deposit of that person |
| LedgerFootprint.EmptyOwnsAll | internal/handlers/billing.go:108-117 | a fresh installation satisfies both hypotheses of the previous rows |
| LedgerFootprint.PaymentReadsItsPerson | internal/handlers/billing.go:1285-1411 | what a payment does to the documents of its person depends on those documents alone, once its key is new |
| LedgerFootprint.CreditReadsItsPerson | internal/handlers/invoice_credit.go:36-106 | what the credit sweep does to a person's documents and receipts depends on them alone |
| Ledgers.Ledger.constructor | internal/handlers/billing.go:108-117 | an empty ledger numbering from 1 |
| Ledgers.Ledger.CreateInvoice | internal/handlers/billing.go:728-951 | row by row it does what the transaction says, or rolls back with the right error and no change; the ledger stays valid. What the transaction bills is DocumentOutcomes.InvoiceIsIssued |
| Ledgers.Ledger.LockPositions | internal/handlers/billing.go:870-889 | one lock row per line; the first line that cannot be locked decides the error |
| Ledgers.Ledger.CancelInvoice | internal/handlers/billing.go:957-1150 | counter-document, flags, released positions and links as specified, or the right error and no change |
| Ledgers.Ledger.SaveSettings | internal/handlers/billing.go:188-230 | the next number only moves forward |
| Ledgers.Ledger.RecordPayment | internal/handlers/billing.go:1285-1411 | accepted, replayed or refused as specified, with the exact new tables |
| Ledgers.Ledger.Allocate | internal/handlers/billing.go:1361-1402 | the loop over the open items leaves the tables and the rest of the specified allocation |
| Ledgers.Ledger.PayInvoices | internal/handlers/billing.go:1171-1216 | books the request under its key and keeps the ledger valid |
| Ledgers.Ledger.ApplyCredit | internal/handlers/invoice_credit.go:36-106 | open amounts read once, then receipts drawn down by id, as specified |
| Ledgers.Ledger.DrawOn | internal/handlers/invoice_credit.go:64-104 | the inner loop covers one invoice from the receipts in turn and touches no other document |
| Ledgers.Ledger.SettleExtras | internal/handlers/agreements.go:1174-1275 | one receipt over all open extras of the covered vehicles, one allocation and one stamp per charge |
| Ledgers.Ledger.CreateDeposit | internal/handlers/deposits.go:92-225 | received, withheld with its receipt, or refunded; never beyond the balance |
| Ledgers.Ledger.DeleteDeposit | internal/handlers/deposits.go:229-287 | removes the row unless a receipt hangs on it or the balance would go negative |
| Ledgers.Ledger.ReversePayment | internal/handlers/payments.go:1091-1309 | links, allocations, stamps and bank status taken back as specified; a period's receipt is refused |
| Ledgers.Ledger.AssignBank | internal/handlers/bank_import.go:404-518 | assigns an effectively open euro transaction to a document or a person, or fails with the right error and no change |
| Ledgers.Ledger.SetIgnored | internal/handlers/bank_import.go:522-575 | ignores or reopens a transaction without a standing receipt |
| Ledgers.Ledger.ImportBank | internal/handlers/bank_import.go:186-233 | a line seen before is skipped |
| Ledgers.Ledger.CreateCharge | internal/handlers/charges.go:427-521 | a new open charge under the next id |
| Ledgers.Ledger.UpdateCharge | internal/handlers/charges.go:524-635 | a locked charge keeps owner, vehicle, amount and quantity; a change of vehicle reopens it |
| Ledgers.Ledger.DeleteCharge | internal/handlers/charges.go:638-697 | an invoiced or allocated charge is not deleted |
| Agreements.OverlapIsExact | internal/handlers/agreements.go:419-428 | the overlap test holds exactly if the two share a day and no open end meets a start at or after the far-future day |
| Agreements.AgreementsConflict | internal/handlers/agreements.go:432-449 | the loops over the vehicle lists decide whether the two can bill one vehicle on one day; an empty list stands for all vehicles |
| Agreements.MaxKeyIsLatest | internal/handlers/billing.go:642-659 | the greatest key of an agreement's invoiced rows is that of its latest invoiced period |
| Agreements.GuardsPinThePeriod | internal/handlers/vehicle_closure.go:62-83 | wherever the end day moves, the guard against retracting and the one against extending pin the end of every invoiced period |
| Agreements.InvoicedPeriodsKeepTheirAccrual | internal/handlers/agreements.go:753-799 | in every run of edits, invoicing, Storno and deletion each invoiced agreement period keeps the accrual it was billed with |
| Agreements.RetractsIff | internal/handlers/billing.go:642-659 | the guard against retracting fires if and only if the new end day lies before the last day of some invoiced period |
| Agreements.SavingUnchanged | internal/handlers/agreements.go:753-799 | saving an agreement as it is commits with no change if and only if it validates and does not end inside an invoiced period, and is refused as invoiced exactly in the latter case |
| Agreements.EndedAgreementIsFrozen | internal/handlers/agreements.go:753-799 | so for every month there is a run of two requests, create and bill, after which saving the agreement unchanged is refused as invoiced |
| Agreements.CoveredOnce | internal/handlers/agreements.go:524-582 | a vehicle-day is covered by at most one agreement |
| Agreements.RunCoversOnce | internal/handlers/agreements.go:662-863 | in every run of saves and deletes, with vehicles created along the way, that stays so, as long as starts lie before the far-future day and no vehicle deletion empties the list of an overlapping agreement |
| Agreements.RunCoversOnceIff | internal/handlers/agreements.go:662-863 | and in no other run: within those years the runs that never reach a conflict are exactly those without such a vehicle deletion |
| Agreements.DeleteLeavesOthersAlone | internal/handlers/agreements.go:923-957 | deleting an agreement, with its vehicles or without, changes no other agreement |
| Agreements.SavesStayWithin | internal/handlers/agreements.go:662-991 | a save or deletion writes only agreements and new vehicles of its own person, and removes at most vehicles that the deleted agreement names |
| Agreements.DeleteVehicleSafeIff | internal/handlers/vehicles.go:762-827 | deleting a vehicle keeps agreements free of conflicts if and only if it does not empty the list of one that overlaps another of its owner |
| Agreements.DeleteVehicleCoversTwiceIff | internal/handlers/vehicles.go:762-827 | deleting a vehicle covers a vehicle-day twice if and only if it empties the list of an agreement and another of the person, overlapping it in time, lists one more vehicle of theirs |
| Agreements.DeletedVehicleWidensAgreement | internal/handlers/vehicles.go:762-827 | a concrete state in which it does, and a vehicle-day is then covered twice |
| AgreementOutcomes.ValidIff | internal/handlers/agreements.go:524-582 | a request is valid if and only if the person owns its vehicles and no other agreement of theirs shares time and a vehicle with it; which of the two failed decides the error |
| AgreementOutcomes.MadeIff | internal/handlers/agreements.go:662-863 | an agreement is made exactly from a valid request, as asked for, with its new vehicles, and nothing else changes |
| AgreementOutcomes.ExtendsIff | internal/handlers/vehicle_closure.go:62-83 | the guard against extending fires if and only if the old end lies inside an invoiced period and the new one is later |
| AgreementOutcomes.ChangedIff | internal/handlers/agreements.go:753-863 | an agreement is changed if and only if the request is valid, a settled one stays as it is, and no invoiced period is redefined, cut or extended |
| AgreementOutcomes.DeletedIff | internal/handlers/agreements.go:872-991 | an agreement is deleted if and only if it is neither settled nor invoiced, along with the vehicles only it lists if so asked |
| AgreementOutcomes.VehicleLeavesLists | internal/handlers/vehicles.go:762-827 | a deleted vehicle leaves every list and nothing else changes |
| AgreementBooks.InvoicedCostIsPeriodCost | internal/models/models.go:445-473 | what a completed agreement period is invoiced with is the accrual that the freeze protects |
| AgreementBooks.AgreementBook.ValidateAgreementTx | internal/handlers/agreements.go:524-582 | ownership, then overlap, agreement by agreement; the first failure decides |
| AgreementBooks.AgreementBook.CreateVehicles | internal/handlers/agreements.go:237-264 | the vehicles made along with an agreement, all of its person, under new ids |
| AgreementBooks.AgreementBook.CreateAgreement | internal/handlers/agreements.go:662-863 | validates, makes the vehicles and inserts the agreement, or fails with no change; vehicle-days stay covered once |
| AgreementBooks.AgreementBook.UpdateAgreement | internal/handlers/agreements.go:662-863 | applies every freeze before it writes; invoiced periods keep their accrual |
| AgreementBooks.AgreementBook.DeleteAgreement | internal/handlers/agreements.go:872-991 | refused while invoiced or settled; takes its vehicles only where no other agreement names them |
| BackupStream.AadInjective | internal/backup/stream.go:65-71 | header, counter and length can be read back off the authenticated data |
| BackupStream.NoncesAreUnique | internal/backup/stream.go:73-78 | within one archive no nonce is used twice, as section 8 of NIST SP 800-38D requires |
| BackupStream.FramesExist | internal/backup/stream.go:97-158 | encoding succeeds exactly for plaintexts within the frame limit |
| BackupStream.RoundTrip | internal/backup/stream.go:97-212 | decoding inverts encoding for every plaintext within the frame limit |
| BackupStream.TruncationIsRejected | internal/backup/stream.go:160-212 | every proper prefix of an archive is rejected, at a frame boundary too, with output that is a prefix of the plaintext |
| BackupStream.TrailingDataIsRejected | internal/backup/stream.go:200-207 | anything appended to an archive is rejected |
| BackupStream.OpenedFrameIsTheArchives | internal/backup/stream.go:65-78 | a frame that opens under an archive's header is that archive's frame at that position, bytes and all: no reordering, dropping or duplication |
| BackupStream.OnlyWrittenArchivesAreAccepted | internal/backup/stream.go:160-212 | under an ideal cipher nothing is accepted but the exact bytes of an archive that was written, and all output is a prefix of one plaintext |
| BackupFormat.EveryInputIsJudged | internal/backup/stream.go:160-212 | every input is rejected for its header, or is a header, good frames, and a rest that decides between acceptance and the error; what is handed out is exactly what those frames hold |
| BackupFormat.AcceptedIffArchive | internal/backup/stream.go:160-212 | accepted with a plaintext is exactly what is a header with a frame size in range, sealed frames of its pieces in order, a sealed empty frame, and the end |
| BackupPipes.WriteBackupBytes | internal/backup/stream.go:80-92 | writes everything however a healthy sink splits it; on failure a leading part is out |
| BackupPipes.ReadFull | internal/backup/stream.go:143-194 | fills a buffer however the reader splits the input, and tells end, short end and failure apart |
| BackupPipes.EncryptStream | internal/backup/stream.go:97-158 | writes exactly the encoding of what it read, always if sink and source are healthy, or a leading part of it and an error; a broken source never yields a whole archive |
| BackupPipes.DecryptV3 | internal/backup/stream.go:160-212 | unless a write fails, it accepts if and only if the bytes decode, the source ends and its last read is not empty-handed; a source that never returns empty-handed has every archive accepted; on every error only what opened before it is written |
| BackupPipes.InterruptedArchiveIsRejected | internal/backup/stream.go:97-212 | no leading part of an archive is ever accepted, so an interrupted backup cannot be restored by mistake |
| RestoreProtocol.StepKeeps | cmd/parkrr/main.go:257-331 | each step of each process, any crash and any late heartbeat keeps the protocol invariant |
| RestoreProtocol.RunsKeepInv | cmd/parkrr/main.go:257-331 | so does every run, with any number of replicas |
| RestoreSafety.NobodyServesDuringARestore | internal/database/maintenance.go:42-117 | while a process holds the exclusive lease no replica serves requests or runs workers |
| RestoreSafety.NoRestoreIsReplayed | cmd/parkrr/browser_restore.go:79-190 | the archive of a job is handed to the restore at most once, by whomever |
| RestoreSafety.PendingJobStaysOpen | cmd/parkrr/main.go:200-232 | a job a replica saw active stays active until the replica has given up its shared lease |
| RestoreSafety.RunsKeepMigrated | cmd/parkrr/main.go:257-331 | every run, of any length and with crashes anywhere, keeps every replica that has migrated apart from a database replaced since |
| RestoreSafety.MigratedBeforeServing | cmd/parkrr/main.go:312-320 | in every reachable state no replica serves a database that was replaced, by a job or offline, and not migrated since |
| RestoreSafety.OpenJobTells | internal/restorectl/controller.go:255-273 | what the row of the open job tells about its session purge: nothing is owed before PhaseRestoring and in PhaseVerifying, something is in PhaseRestoring, and in between exactly if the archive was handed over and no repair has purged yet |
| RestoreSafety.NoActiveJobMeansPurged | internal/restorectl/controller.go:255-273 | if no job is active no purge is owed, so looking for one before resuming would be enough |
| RestoreSafety.OnlyResumingBeforeAPurgeIsUnsafe | cmd/parkrr/main.go:312-329 | a step lets a replica serve unpurged sessions if and only if it resumes after coordination while an active job past PhaseDraining has handed over its archive and not purged |
| RestoreSafety.PurgedBeforeServing | cmd/parkrr/main.go:257-331 | in every run whose resumes look first and wait for an open job between PhaseRestoring and PhaseVerifying, nobody serves before the session purge succeeded |
| RestoreSafety.ResumeServesUnpurgedSessions | cmd/parkrr/main.go:312-329 | a concrete run that gets there, with the database migrated |
| RestoreSafety.CrossedJobMayBeHarmless | internal/restorectl/controller.go:474-485 | a concrete run with an open job past PhaseDraining and nothing to purge, so the phase alone is not exact |
| RestoreSafety.JobsCloseUnderTheLease | cmd/parkrr/browser_restore.go:79-190 | a job is closed only by a process holding the exclusive lease, with no purge owed |
| RestoreOutcomes.JobsEndAsTheirRestoreDid | cmd/parkrr/browser_restore.go:129-190 | in every run a job is closed as complete if and only if the restore of the owner that closes it returned with success, and as failed if it returned with an error or the owner took the job over |
| RestoreOutcomes.OwnerCanFinish | cmd/parkrr/browser_restore.go:79-142 | an owner left alone can restore, end its job either way, and serve a migrated database without owed purges; the archive is handed over once |
| RestoreOutcomes.WaiterCanFinish | cmd/parkrr/browser_restore.go:24-190 | a replica left alone with a job whose owner is gone can take it over, close it as failed and serve; it repairs first unless the archive was never announced |
| RestoreOutcomes.RoundCanFinish | cmd/parkrr/main.go:257-331 | left alone with an open job, a serving replica can drain, restore as its owner or take it over otherwise, close it accordingly, and serve again |
| RestoreOutcomes.StartsUp | cmd/parkrr/main.go:200-232 | a replica that starts serves at once if and only if no job is open, and else has seen the oldest one |
| RestoreReplica.Replica.RepairRestoredDatabase | cmd/parkrr/browser_restore.go:192-232 | marks, migrates, marks, purges sessions, marks and verifies; true means the database is migrated and its sessions are purged, otherwise the process is gone |
| RestoreReplica.Replica.MigrateRestored | cmd/parkrr/browser_restore.go:192-232 | the mark and the migration, or the process is gone |
| RestoreReplica.Replica.PurgeSessions | cmd/parkrr/browser_restore.go:192-232 | the mark and the purge, or the process is gone |
| RestoreReplica.Replica.ExecuteBrowserRestore | cmd/parkrr/browser_restore.go:79-142 | the owner ends with its lease given back and its job complete exactly if the restore went well, else failed, or open if even closing failed; it is gone only if a call failed, a lease is taken, or job or key are lost |
| RestoreReplica.Replica.RecoverInterruptedRestore | cmd/parkrr/browser_restore.go:148-190 | repairs a job taken over unless it never crossed PhaseRestoring, closes it as failed and gives the lease back; it is gone only if a call failed, a lease is taken or the job is lost |
| RestoreReplica.Replica.FinishAndRelease | cmd/parkrr/browser_restore.go:125-142 | closes the job as the restore went and gives the lease back |
| RestoreReplica.Replica.WaitOrRecover | cmd/parkrr/browser_restore.go:24-58 | looks until the job is closed, or claims it when its coordinator is lost; for any number of looks the outcome is ready to resume after a job that is closed, still waiting for one that is open, or gone |
| RestoreReplica.Replica.CoordinateRestore | cmd/parkrr/browser_restore.go:24-58 | owner, waiter or rescuer: afterwards ready to resume, still waiting for a job of somebody else, or gone |
| RestoreReplica.Replica.RestoreRound | cmd/parkrr/main.go:290-330 | drain, release, coordinate, resume: the replica serves again, over a migrated database, or still waits, or is gone |
| RestoreReplica.Replica.ResumeServing | cmd/parkrr/main.go:312-329 | re-acquires the shared lease, migrates and activates: the replica serves a migrated database or is gone |
| DrainGate.InFlightIsRunning | cmd/parkrr/lifecycle.go:32-90 | in every interleaving the in-flight count equals the requests running |
| DrainGate.ChannelsCloseOnce | cmd/parkrr/lifecycle.go:41-90 | a drain channel closes once per maintenance, and at the moment it closes nothing runs |
| DrainGate.DrainedStaysEmpty | cmd/parkrr/lifecycle.go:41-90 | once drained nothing runs and nothing is admitted until the next activation |
| DrainGate.MaintenanceOnlyDrains | cmd/parkrr/lifecycle.go:41-90 | between closing the gate and the next activation requests only leave |
| DrainGate.AdmittedIffOpened | cmd/parkrr/lifecycle.go:64-76 | in every interleaving a request is let in and counted if and only if some activation has no maintenance after it, and otherwise changes nothing |
| DrainGate.LifecycleHandler.Activate | cmd/parkrr/lifecycle.go:32-39 | opens the gate |
| DrainGate.LifecycleHandler.EnterMaintenance | cmd/parkrr/lifecycle.go:41-62 | closes the gate and hands out a channel that is closed exactly if nothing runs |
| DrainGate.LifecycleHandler.Begin | cmd/parkrr/lifecycle.go:64-76 | admits a request exactly if something is active and the gate is not closed, and counts it |
| DrainGate.LifecycleHandler.End | cmd/parkrr/lifecycle.go:77-90 | counts the request out; the last one during maintenance closes the channel |
| Publication.PrunableFiles | internal/backup/schedule.go:796-817 | all but the newest keep, and of those only what is older than keepDays; an unreadable age keeps the file |
| Publication.PrunedAreOld | internal/backup/schedule.go:796-817 | what is pruned is listed, old enough and not among the newest keep |
| Publication.VisibleWasVerified | internal/backup/schedule.go:313-421 | in every run with crashes between any two steps, every visible archive holds exactly what passed verification under its name |
| Publication.OnlyVerifiedPartsAppear | internal/backup/schedule.go:398-412 | an archive becomes visible only by the rename of a part that passed as it is |
| Publication.FailedRunsPruneNothing | internal/backup/schedule.go:413-421 | a visible archive is removed only by the prune of a run whose own archive passed verification and is in its listing; that archive still stands with that content, or is itself one of the older files |
| Publication.NewestStay | internal/backup/schedule.go:819-844 | while a run prunes, its listing is in order by name and every one of the newest keep of it stays |
| Publication.NeverBelowKeep | internal/backup/schedule.go:819-844 | in every reachable state of a prune at least min(keep, listed) archives are visible, and all listed ones without a keep |
| Publication.NewestCount | internal/backup/schedule.go:796-800 | the newest keep of a listing are min(keep, listed) files |
| Publication.PruneTakesOnlyOldFiles | internal/backup/schedule.go:796-844 | one prune takes only visible files outside the newest keep, and with an age limit only those older than it |
| Publication.SweepSparesLiveParts | internal/backup/schedule.go:769-784 | under the lease a sweep never removes a part file another run still works on |
| Publication.OthersOnlyWait | internal/backup/schedule.go:122-178 | while one run holds the lease no other run changes any file |
| Publication.OwnArchiveIsPrunedIff | internal/backup/schedule.go:796-844 | a run prunes the archive it has just published if and only if keep is set, at least keep archives carry later names, and with an age limit its age is readable and past it |
| Publication.NoRunPrunesItsOwn | internal/backup/schedule.go:92-98 | in every run in which each name is made at a later second than the one before, no run prunes what it has just published, and it stands verified throughout |
| Publication.OwnLosesOnlyToItsOwnSecond | internal/backup/schedule.go:92-98 | in every run in which names are never made at an earlier second, a run prunes its own archive only if keep later names were made in that very second |
| Publication.ClockSetBackLosesTheNewArchive | internal/backup/schedule.go:819-844 | for every two names with the second made at an earlier second, a run in which the archive published last is the one removed |
| Publication.ListedForRemovalIff | internal/backup/schedule.go:796-844 | a run lists an archive for removal if and only if keep is set and at least keep are newer and, with an age limit, its age is known and past it |
| Publication.PublishedLeaves | internal/backup/schedule.go:413-421 | after a verified run exactly those archives are gone that may go by that rule and can be removed |
| Publication.Volume.SweepStaleParts | internal/backup/schedule.go:769-784 | every part file but the kept one is gone, except those that cannot be removed |
| Publication.Volume.PruneDir | internal/backup/schedule.go:819-844 | lists and sorts the directory and removes exactly the prunable files that can be removed; the newest keep stay |
| Publication.Volume.WritePart | internal/backup/schedule.go:343-361 | an exclusive create, a failed dump that cleans up, a failed sync that leaves the part |
| Publication.Volume.RunVolume | internal/backup/schedule.go:313-421 | when the run fails, when it is verified, which part files are left in each case, and that only a verified run changes visible archives |
| SecondFactor.FailuresTakeTheirTime | internal/auth/secondfactor.go:45-102 | from a clear counter, n failures take at least the sum of all earlier locks, with releases freely interleaved |
| SecondFactor.BoundIsTight | internal/auth/secondfactor.go:45-85 | guessing as soon as each lock ends reaches the n-th failure at exactly that time |
| SecondFactor.SixteenthFailure | internal/auth/secondfactor.go:30-33 | the sixteenth comes no earlier than minute 2047, and each later one a day after the one before |
| SecondFactor.CountIsAttemptsLessReleases | internal/auth/secondfactor.go:45-102 | in every run the count is the attempts on the credential that met no lock, less the releases |
| SecondFactor.ReleaseTakesOneBack | internal/auth/secondfactor.go:91-102 | a release takes its attempt off the count and leaves the lock the attempt caused |
| SecondFactor.UserRow.ReserveSecondFactorAttempt | internal/auth/secondfactor.go:45-85 | counts, refuses with the time left, or reports a changed credential, and which of the three |
| SecondFactor.UserRow.ReleaseSecondFactorAttempt | internal/auth/secondfactor.go:91-102 | takes one failure back, never below zero, and keeps the lock |
| SecondFactor.UserRow.ResetSecondFactorFailures | internal/auth/secondfactor.go:107-118 | clears count and lock of the checked credential only |
| LoginLimiter.CountIsAdmittedMinusRefunded | internal/auth/ratelimit.go:86-158 | within a window and before a cooldown ends the recorded count, adding back a reset, is admitted minus refunded |
| LoginLimiter.StickyBound | internal/auth/ratelimit.go:135-158 | without refunds a sticky limiter admits at most maxFails + floor(failWindow / lockFor) attempts per window |
| LoginLimiter.UsernameBudget | internal/handlers/auth.go:62 | for the configured username limiter that is 35 per quarter of an hour |
| LoginLimiter.BudgetIsExact | internal/auth/ratelimit.go:86-158 | a fresh key is let in exactly maxFails times in its window, plain or sticky, and is then locked for exactly lockFor |
| LoginLimiter.CleanupIsInvisible | internal/auth/ratelimit.go:161-171 | cleaning up never changes a later answer |
| LoginLimiter.ConsumeThenRefundIsNeutral | internal/auth/ratelimit.go:86-124 | on a plain limiter whose lock outlasts its window, reserving and refunding is as if nothing had happened |
| LoginLimiter.StickyRefundKeepsTheLock | internal/auth/ratelimit.go:100-124 | on a sticky limiter the lock of a refunded attempt stays if and only if the budget was already used up |
| LoginLimiter.Limiter.Consume | internal/auth/ratelimit.go:86-95 | refuses with the exact time left, or records the attempt; no other key changes |
| LoginLimiter.Limiter.RecordLocked | internal/auth/ratelimit.go:135-158 | one more failure, the lock at the threshold, and the reset of a plain limiter |
| LoginLimiter.Limiter.Refund | internal/auth/ratelimit.go:100-124 | takes one reservation back and the lock it caused |
| LoginLimiter.Limiter.Cleanup | internal/auth/ratelimit.go:161-171 | removes exactly the entries that are over |
| LoginLimiter.Limiter.Reset | internal/auth/ratelimit.go:174-178 | forgets the key and no other |
| LoginLimiter.ThrottleLogin | internal/handlers/auth.go:106-146 | admitted exactly if none of the three limiters is locked; if refused the username budget is untouched and the other two answer as before |
| Forecast.ForecastRangeCents | internal/handlers/dashboard_forecast.go:391-405 | the loop sums every periodic source over the range and every one-off due in it |
| Forecast.ForecastMonths | internal/handlers/dashboard_forecast.go:407-447 | twelve figures, each the difference of the cumulative cost at its boundaries inside the range |
| Forecast.MonthsTelescope | internal/handlers/dashboard_forecast.go:407-455 | their sum is exactly the cumulative cost at the end minus that at the start |
| Forecast.CutoffLosesNothing | internal/handlers/dashboard_forecast.go:407-455 | splitting a year at any cutoff day loses and invents no cent |
| Forecast.MonthsAreNonnegative | internal/handlers/dashboard_forecast.go:391-447 | without credits no month is negative |
| Forecast.OneOffCountsInItsMonth | internal/handlers/dashboard_forecast.go:391-447 | a one-off adds its amount to exactly the month its day lies in, if that day is forecast, and nothing to any other |
| Forecast.SourceAddsItsAccrual | internal/handlers/dashboard_forecast.go:391-447 | a periodic source adds to a month what it accrues from New Year to its end less what to its beginning |
| AuditChain.OneSplit | internal/handlers/audit_export.go:50-55 | what was hashed splits into previous link and row in one way only |
| AuditChain.SameEndSameRows | internal/handlers/audit_export.go:50-55 | two exports with one final chain have the same rows in the same order and number, or two named strings collide |
| AuditChain.TamperingShows | internal/handlers/audit_export.go:50-55 | a changed row shows in every later link of exports of any length, or two named strings collide |
| AuditChain.WriteAuditExportRows | internal/handlers/audit_export.go:89-121 | count and chain always describe exactly what was written, also when a write fails; to a healthy output everything is written |
| Transactions.PlansAscend | internal/handlers/financial_source_lock.go:12-47 | the four shapes of blocking lock plans ascend: settings then person; a person; person, agreement lock and agreement row; and owner and wanted person by id, then the source row |
| Transactions.WaitingGoesUp | internal/handlers/financial_source_lock.go:12-47 | who waits for a waiting transaction wants a lower lock than that one does |
| Transactions.NoDeadlock | internal/handlers/billing.go:60-74 | the waits-for relation has no cycle, for any number of transactions |
| Transactions.ReachableHasNoDeadlock | internal/handlers/agreements.go:670-678 | in every state a run of transactions reaches |
| Transactions.CheckedHoldsOwnersLock | internal/handlers/financial_source_lock.go:30-47 | after revalidation a transaction holds the locks of the row, of its current owner and of the wanted person, although ownership may have been changing |
| Transactions.InterleavingsAreSerial | internal/handlers/billing.go:60-74 | every interleaving of transactions that read and write under their own locks equals running them one after the other in commit order |
| Transactions.Session.LockFinancialSourceTx | internal/handlers/financial_source_lock.go:14-47 | success means holding those locks; otherwise the transaction is gone and holds nothing, and it fails only if the row is missing, its owner changed, or somebody holds a lock it needs |

## Left out

- The tax-year locks on bookings, and the compliance particulars other than presence of seller, buyer name and buyer address.
- Allocation of a person's free credit to items other than invoices, in `internal/handlers/payments.go`.
- The paid toggles of charges and of whole agreements, and with them the reversal of receipts booked for extras.
- Vehicle paid-through flags, archiving and reopening of vehicles after a closure.
- Which vehicle-days an agreement relieves a vehicle's own rent of: the covered flag is an input of `InvoiceLines`.
- How clients spell the keys of deposits and bank receipts: keys here are distinct by construction.
- Floating point: the code's comparisons against half a cent are comparisons of integer cents, and `round2` is exact.
- Time of day, time zones and database collation: days are whole, keys compare by code point.
- Loss of a lock session while its process lives on, and a restore child process that survives its parent.
- Archive formats before version 3 and their detection; key derivation and the cipher itself.
- Backups to S3, the scheduler's due times, and alerts.
- Enrolment of second factors, passkeys, sessions and roles.
- HTTP, SQL text, PDF, mail and configuration; statement parsing and match suggestions of the bank import.
- Reads outside any lock in `Transactions`: a transaction there reads and writes what it has locked. In the code document numbers, position lock rows, idempotency keys and charge claims of all persons are also read, through unique indexes.
- An instance of `Transactions.Body` for each ledger operation: what they write, and for two of them what they read, is in `LedgerFootprint` and `Agreements.SavesStayWithin`.
- Sessions left by an offline restore that dies before its own purge: no job row records them, so the purge results are about restores by a job.
- Ledgers.Ledger.CreateInvoice: buyer, note and due date are not part of a document here, because nothing later depends on them.
- Ledgers.Ledger.UpdateCharge: the description and the service of a charge are not part of its row here, because they do not affect money.
- RestoreReplica.Replica.RestoreRound: does not promise purged sessions on return, because the code does not guarantee it; see `RestoreSafety.OnlyResumingBeforeAPurgeIsUnsafe`.
- Transactions.PlansAscend: does not cover the rows of vehicles, invoices and payments that transactions lock in addition after their person's lock; `Source(n)` numbers the rows of all four source tables.
- LoginLimiter.ThrottleLogin: stated for plain limiters whose lock outlasts their window, as the configured ones do.
