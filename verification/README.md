# Verified model of the stock, sales and support cores

This project models the parts of the inventory and point-of-sale backend whose behaviour spans several
functions, and proves what they guarantee over all inputs, all runs and all interleavings.

| file | what it models |
|---|---|
| `StockPool.dfy`, `Ledger.dfy`, `Tables.dfy` | stock rows and their movement lists, the meaning of a movement list, the shared tables as values (`Db`) and as a store updated in place (`Database`) |
| `StockOrchestration.dfy`, `StockProofs.dfy` | the stock service inside its transactions; what each call explains and conserves, transfer batches |
| `StockEffects.dfy`, `BillEffects.dfy` | what publishing, transferring, selling and each step of a completion decide and write, column by column |
| `BillCompletion.dfy`, `BillProofs.dfy` | completing a bill step by step: credit gate, stock transaction, commission, credit, status |
| `Dispatch.dfy`, `GateProofs.dfy` | the dispatch and payment decision; the requests the credit gate files |
| `Runs.dfy` | serial runs of requests: the credit limit and the credit ledger |
| `Isolation.dfy` | stock transactions that read rows, and save them later without a lock |
| `Interleaving.dfy` | any interleaving of requests, half-done completions, overlapping stock transactions, edits and decisions, and crashes; ledger replay |
| `Conservation.dfy` | the total stock under every interleaving of transfers, batches and publishes |
| `CrashSafety.dfy`, `SaleEvidence.dfy` | every completed bill has been settled, in every reachable state, on movements of its own |
| `CompletedBills.dfy` | what later events do to a completed bill: which undo its completion, which edits leave it settled |
| `StockSafety.dfy`, `Reservations.dfy` | quantities never below zero; which operations take reserved stock |
| `CreditRuns.dfy`, `CreditRaces.dfy`, `CreditLimit.dfy` | balances, transactions and limits under overlapping completions |
| `GateRuns.dfy` | credit approvals and blocked orders in every run |
| `RedisReconnection.dfy` | the reconnection protocol of the Redis client |
| `Seeding.dfy` | the seed runner under crashes and redeployments |
| `RetryPolicy.dfy`, `TimeSpan.dfy`, `MapObject.dfy`, `Paginate.dfy` | the retry loop, time spans, recursive key renaming, pagination |
| `LocalCalendar.dfy`, `AnalyticsPeriod.dfy`, `AnalyticsTiling.dfy` | local dates, the analytics windows and the windows before them |

How to read the model:

- Quantities and amounts are integers in units of 0.0001, the scale of the decimal columns. Half of an odd
  total (`required` of a half payment) is a real number.
- Published inventory and unpublished stock share one type, `Pool`: rows, the unique index on
  organization, location and product, and the append-only movements. The repository calls follow
  `src/infrastructure/persistence/repositories/inventory.repo.ts:49-142` and
  `unpublished-stock.repo.ts:28-66`. A row created on the way is identified by its unique key, which stands
  for its generated uuid.
- Every service method works on `Database` in place, rolls back where its transaction does, and is proved
  equal to a function on `Db`; the properties are proved of that function.
- `completeBill` is a process: `Advance` is the work between two awaits, so a call can stop, or be
  interleaved with others, after any write. The service method is the same process driven for `lifetime`
  steps; a large enough lifetime is a full run.
- An adjustment, a stock transaction, an approval decision and an edit or deletion of a bill read in one event and
  commit in a later one; anything may happen in between. A transaction that reports a quantity from one
  read and computes on another (publishing, adding unpublished stock, selling) has both reads.
- Saving a row writes the columns that differ from the row stored at that moment, which leaves the saved
  row as a whole; that is how `Saved` has it.
- `COMPLETED` and `CANCELLED` bills are called `Closed` and `Voided`, a pending approval request `Requested`.
- The clock, the outcome of a retried call, the seed data, the equality checks and the key transformer are
  parameters.

Where the code differs from what is said about it, the model follows the code:

- `removeStockAsync` compares with the unreserved quantity, `deductStockAsync` only with the quantity on
  hand; damage, write-off, transfers and sales use the second, so they can take reserved stock
  (`Reservations.TransferTakesReserved`, `Reservations.SaleTakesReserved`; exactly when, for every call
  and in every run: `Reservations.ReservationsKeptIff`, `Reservations.StepKeepsIff`,
  `Reservations.BackedIffNoneEats`).
- The repositories read a row and later save it, without a lock: of two overlapping stock
  transactions on a row one update can be lost, with both movements recorded
  (`Isolation.OverlappingAddsLoseOne`; exactly when: `Interleaving.ReplaysIffCurrent`; what moves then do
  to the total: `Conservation.ConservedIffNoneOutdated`). Where the reported quantity has a read of its
  own, the chain can break although replay holds (`Isolation.OutdatedFirstBreaksChain`).
- Nothing stops an edit of a bill in flight or completed: a line added late has no movement
  (`CompletedBills.LateLineIsUnsettled`; exactly which edits leave the bill settled:
  `CompletedBills.EditKeepsSettledIff`), and an edit that has loaded the bill before its completion writes
  the old status back (`CompletedBills.LateEditReopens`, `CompletedBills.EmptyBillReopens`; exactly when a
  completion stands: `CompletedBills.CompletionStays`).
- Approving and rejecting check for a pending request and save later: of two overlapping decisions the
  later overwrites the earlier, and a bill whose approval the gate has accepted is sent for approval again
  (`GateRuns.OverlappingDecisionsOverwrite`; exactly when a decision stands: `GateRuns.ApprovalStays`).
- The window before is documented as of equal length (`analytics-period.util.ts:93`). That holds for today,
  seven days and custom windows; for a month or a year it holds only on the days that
  `AnalyticsTiling.MonthEqualLengthIff` and `AnalyticsTiling.YearEqualLengthIff` name, and not on 1 January
  1970 (`AnalyticsTiling.FirstOfJanuary`). A year is compared with as many months as the current year has
  begun (`AnalyticsTiling.YearComparesMonths`).
- The range of the last N months loses its first month late in a longer month
  (`AnalyticsTiling.MonthsRangeIff`; on 31 March 1970: `AnalyticsTiling.LastOfMarch`).
- `today` reads the clock twice; after a midnight in between, the window is empty
  (`AnalyticsTiling.TodayIsOneDayIff`).
- A seed that raises a stored version to one that is still at most 1 inserts a second row of the same
  name (`Seeding.RunKeepsUniqueIff`; 1 over 0: `Seeding.FirstVersionOverZero`).
- Overlapping completions for one customer lose a charge (`CreditRaces.OverlappingChargesLoseOne`; exactly
  when: `CreditRaces.BothChargedIff`), and two that pass the gate before either charges exceed the limit
  together (`CreditLimit.TwoGatesBeforeTwoCharges`; exactly when: `CreditLimit.WithinIffGainsFit`).
- A deleted bill no longer blocks its order, undecided approval or not: the order is then dispatched
  unpaid (`GateRuns.ThrownGateBlocksOrder`).
- A paid order is not always dispatchable: a deposit larger than the total blocks it
  (`Dispatch.PaidSatisfiesIffDepositWithinTotal`).
- A Redis error after the attempts are used up still starts one more attempt
  (`RedisReconnection.ExhaustedStartTriesAgain`).
- `caseTransform` turns an inner array, or a Date inside an array, into a record
  (`MapObject.ShapeKeptIff`, `MapObject.InnerArrayLost`), and drops one of two keys renamed alike
  (`MapObject.MergedKeyLost`).
- `toString` of a negative span throws for -10 seconds, for one (`TimeSpans.NegativeSpanThrows`), and
  exactly for the components that `TimeSpans.ToStringSucceedsIff` names.
- An adjustment records the quantity it read before its transaction began
  (`StockProofs.AdjustChainedIffCurrent`).

## Model

| member | source | states |
|---|---|---|
| `Tables.StockTable.AddStock` | src/infrastructure/persistence/repositories/inventory.repo.ts:49-58 | adds exactly the quantity to the row and returns its snapshot; an unknown row is an error that changes nothing |
| `Tables.StockTable.RemoveStock` | src/infrastructure/persistence/repositories/inventory.repo.ts:60-67 | subtracts exactly the quantity, or fails without a change when it exceeds on hand minus reserved |
| `Tables.StockTable.AdjustStock` | src/infrastructure/persistence/repositories/inventory.repo.ts:69-77 | sets the quantity on hand and nothing else |
| `Tables.StockTable.ReserveStock` | src/infrastructure/persistence/repositories/inventory.repo.ts:79-86 | adds to the reserved quantity only, up to what is unreserved |
| `Tables.StockTable.ReleaseReservation` | src/infrastructure/persistence/repositories/inventory.repo.ts:88-95 | takes from the reserved quantity only, down to zero |
| `Tables.StockTable.DeductStock` | src/infrastructure/persistence/repositories/inventory.repo.ts:97-104 | subtracts exactly the quantity, or fails without a change when it exceeds on hand |
| `Tables.StockTable.FindOrCreate` | src/infrastructure/persistence/repositories/inventory.repo.ts:128-143 | finds the row of the key, or adds an empty one |
| `StockOrchestration.StockOrchestrationService.AddStock` | src/application/shared/services/stock-orchestration.service.ts:38-46 | in place, the whole new state and the outcome of the call are those of the transaction `Exec`, whose properties follow below |
| `StockOrchestration.StockOrchestrationService.RemoveStock` | src/application/shared/services/stock-orchestration.service.ts:48-56 | same, for removing |
| `StockOrchestration.StockOrchestrationService.CommitAdjustment` | src/application/shared/services/stock-orchestration.service.ts:61-66 | same, for an adjustment's transaction with a quantity read earlier |
| `StockOrchestration.StockOrchestrationService.AdjustStock` | src/application/shared/services/stock-orchestration.service.ts:58-67 | same, for an adjustment whose read is not overtaken |
| `StockOrchestration.StockOrchestrationService.ReserveStock` | src/application/shared/services/stock-orchestration.service.ts:69-76 | same, for reserving |
| `StockOrchestration.StockOrchestrationService.ReleaseReservation` | src/application/shared/services/stock-orchestration.service.ts:78-85 | same, for releasing |
| `StockOrchestration.StockOrchestrationService.AddUnpublishedStock` | src/application/shared/services/stock-orchestration.service.ts:87-103 | same, for unpublished stock, creating its row when missing; how much: `StockEffects.AddUnpublishedAdds` |
| `StockOrchestration.StockOrchestrationService.PublishStock` | src/application/shared/services/stock-orchestration.service.ts:105-131 | same, for publishing: both pools change, or neither; when and how much: `StockEffects.PublishIff` |
| `StockOrchestration.StockOrchestrationService.DamageStock` | src/application/shared/services/stock-orchestration.service.ts:133-140 | same, for damage |
| `StockOrchestration.StockOrchestrationService.WriteOffStock` | src/application/shared/services/stock-orchestration.service.ts:142-149 | same, for write-offs |
| `StockOrchestration.StockOrchestrationService.RunTransfer` | src/application/shared/services/stock-orchestration.service.ts:166-182 | works inside the caller's transaction and reports its outcome; on success the pool is that of the transfer |
| `StockOrchestration.StockOrchestrationService.TransferStock` | src/application/shared/services/stock-orchestration.service.ts:151-155 | a failed transfer is rolled back, the row it created included |
| `StockOrchestration.StockOrchestrationService.CompleteTransferBatch` | src/application/shared/services/stock-orchestration.service.ts:157-164 | the loop over the items equals the recursive batch; a failure at any item restores the state before the first |
| `Ledger.ReplayConcat` | src/application/shared/services/stock-orchestration.service.ts:184-191 | replaying two stretches of movements one after the other is replaying them together, and the chain is unbroken over both exactly when it is over each |
| `Ledger.ChainUnbroken` | src/application/shared/services/stock-orchestration.service.ts:184-191 | in an unbroken chain a movement starts from the value at which the row's previous movement on the same channel ended |
| `Ledger.ExplainedTrans` | src/application/shared/services/stock-orchestration.service.ts:38-182 | being explained by recorded movements carries over from call to call |
| `StockProofs.ExecExplained` | src/application/shared/services/stock-orchestration.service.ts:38-182 | each stock call, committed or rolled back, leaves the quantities of every row in both pools equal to the replay of its movements, and chained unless an adjustment's snapshot is outdated |
| `StockProofs.AdjustChainedIffCurrent` | src/application/shared/services/stock-orchestration.service.ts:58-67 | an adjustment keeps the chain unbroken exactly when the quantity read before its transaction is still the quantity on hand |
| `Isolation.SerialCommit` | src/infrastructure/persistence/repositories/inventory.repo.ts:49-104 | a transaction whose reads are the stored rows commits exactly what the isolated service call does |
| `Isolation.SavedExplainedIff` | src/infrastructure/persistence/repositories/inventory.repo.ts:49-104 | saving rows computed from copies keeps replay exactly when every row written was read at its current quantities, on hand not counting where an adjustment overwrites it |
| `Isolation.OverlappingAddsLoseOne` | src/infrastructure/persistence/repositories/inventory.repo.ts:49-58 | two overlapping additions of 5 to a row of 10 leave 15 with two movements, whose replay gives 20 |
| `Isolation.StampedChainedIff` | src/application/shared/services/stock-orchestration.service.ts:89-96 | where the quantity reported has a read of its own, the chain stays unbroken exactly when that read, too, was of what is stored |
| `Isolation.OutdatedFirstBreaksChain` | src/application/shared/services/stock-orchestration.service.ts:89-96 | an addition that reports an outdated quantity and computes on a current one keeps replay and breaks the chain |
| `Interleaving.ReplaysIffCurrent` | src/application/shared/services/stock-orchestration.service.ts:38-182 | over every interleaving of requests, half-done completions, overlapping stock transactions, crashes and late adjustments, every step leaves each row equal to the replay of its movements exactly when no transaction commits a row it read at outdated quantities |
| `Interleaving.LedgerReplay` | src/application/shared/services/stock-orchestration.service.ts:38-182 | from the first state of such an interleaving to the last: with current reads replay gives every row's quantities, and in a pool without outdated copies, snapshots or reported quantities the before/after chain is unbroken |
| `StockSafety.CallPostsIffHeadroom` | src/application/shared/services/stock-orchestration.service.ts:38-85 | a call on one row goes through exactly when the row exists and has the headroom, posts one movement of its own kind and changes no other row; otherwise nothing changes |
| `StockSafety.BatchMovements` | src/application/shared/services/stock-orchestration.service.ts:166-182 | a batch posts an out and an in movement per item, in the order of the items, to the rows the items name |
| `StockEffects.PublishIff` | src/application/shared/services/stock-orchestration.service.ts:105-131 | publishing goes through exactly when the unpublished row is there with its organization and enough on hand and a published row has its key; then exactly the quantity leaves the one row and reaches the other, each pool gains one movement of it with its kind, no other quantity changes; otherwise nothing does |
| `StockEffects.PublishFails` | src/application/shared/services/stock-orchestration.service.ts:107-114 | and then it fails as not found for want of the row in that organization, as a bad request for anything else |
| `StockEffects.OutdatedReadRefuses` | src/application/shared/services/stock-orchestration.service.ts:107-111 | a publish whose first read of the row was below the quantity changes nothing, whatever the row holds when it would be saved |
| `StockEffects.AddUnpublishedAdds` | src/application/shared/services/stock-orchestration.service.ts:87-103 | adding unpublished stock always goes through: the one row of the key, empty where there was none, rises by exactly the quantity, with one stock-in movement of it, and nothing else changes |
| `StockEffects.TransferOutcome` | src/application/shared/services/stock-orchestration.service.ts:166-182 | a transfer fails as not found for want of a row and as a bad request for want of quantity, the source before the destination; otherwise each of its two movements carries the quantity, its own row, kind and location, and the columns of the request |
| `StockEffects.SingleCallFails` | src/infrastructure/persistence/repositories/inventory.repo.ts:49-104 | a call on one row that fails does so as not found without the row, as a bad request with it |
| `Reservations.ReservationsKeptIff` | src/application/shared/services/stock-orchestration.service.ts:38-182 | for every stock call, committed or rolled back: all reservations stay backed by stock on hand exactly unless the call goes through and eats one, by the guard of its kind |
| `Reservations.TransferKeepsIff` | src/application/shared/services/stock-orchestration.service.ts:166-182 | a transfer keeps them exactly when it moves no more than is free, or moves a row to itself |
| `Reservations.BatchKeepsIff` | src/application/shared/services/stock-orchestration.service.ts:157-164 | a batch keeps them exactly when no source ends short in sum |
| `Reservations.SaleKeepsIff` | src/application/shared/services/bill-completion.service.ts:175-202 | an official sale keeps them exactly when no product's demand exceeds what is free of it |
| `Reservations.StepKeepsIff` | src/application/shared/services/bill-completion.service.ts:79-108 | every step of a completion keeps them exactly unless it is a sale that goes through and exceeds that |
| `Reservations.BackedIffNoneEats` | src/application/shared/services/stock-orchestration.service.ts:38-182 | over every interleaving, overlapping transactions included, reservations are backed in all states exactly when no event eats one |
| `Reservations.TransferTakesReserved` | src/application/shared/services/stock-orchestration.service.ts:172 | of 10 on hand and 5 reserved, 8 are transferred away |
| `Reservations.SaleTakesReserved` | src/application/shared/services/bill-completion.service.ts:185 | and 8 are sold |
| `StockSafety.StockNeverNegative` | src/application/shared/services/stock-orchestration.service.ts:38-182 | over every interleaving with non-negative quantities, lost updates included, no row of either pool falls below zero, on hand or reserved |
| `StockProofs.TransferTotal` | src/application/shared/services/stock-orchestration.service.ts:166-182 | the exact effect of a transfer on the total of all rows or of one product, self-transfers and created rows included |
| `StockProofs.RunConserves` | src/application/shared/services/stock-orchestration.service.ts:105-182 | any run of transfers, batches and publishes, successful or rolled back, keeps published plus unpublished stock, and every product's share when the rows' products match |
| `Conservation.CommitTotal` | src/application/shared/services/stock-orchestration.service.ts:105-182 | a transfer, batch or publish that commits on copies changes the total stock, of all products or of one, by exactly how much its copies of the rows it wrote exceeded what is stored |
| `Conservation.ConservedIffNoneOutdated` | src/application/shared/services/stock-orchestration.service.ts:105-182 | over every interleaving of such moves with anything else but sales, adjustments and other stock calls, the total is the same in all states exactly when no commit's copies exceed or fall short of what is stored, in sum |
| `Conservation.CurrentMovesConserve` | src/application/shared/services/stock-orchestration.service.ts:105-182 | in particular when every commit has read current rows |
| `StockProofs.BatchSucceedsIffCovered` | src/application/shared/services/stock-orchestration.service.ts:157-173 | a batch succeeds exactly when no prefix drives a source row below zero and the rows exist; it then adds to each row the sum of its deltas |
| `StockProofs.BatchAllOrNothing` | src/application/shared/services/stock-orchestration.service.ts:157-164 | covered, a batch moves the stock and completes the transfer; otherwise rows, movements and status stay |
| `StockProofs.SumDeltaPermutation` | src/application/shared/services/stock-orchestration.service.ts:157-164 | what a batch adds to a row does not depend on the order of its items |
| `StockProofs.BatchOrderIndependent` | src/application/shared/services/stock-orchestration.service.ts:157-164 | two orders of the same batch that both succeed leave the same rows |
| `StockProofs.ExecFrame` | src/application/shared/services/stock-orchestration.service.ts:38-182 | stock calls touch the two pools and a transfer's status, nothing else |
| `BillCompletion.BillCompletionService.PassCreditGate` | src/application/shared/services/bill-completion.service.ts:110-144 | in place, the gate's outcome and the request it files; for which bills: `BillEffects.GateDecides` |
| `BillCompletion.BillCompletionService.AssertCreditLimit` | src/application/shared/services/bill-completion.service.ts:74-77 | only credit sales go through the gate |
| `BillCompletion.BillCompletionService.DeductLines` | src/application/shared/services/bill-completion.service.ts:175-237 | the loop over the lines equals the recursive deduction, for the published and for the unpublished pool |
| `BillCompletion.BillCompletionService.RunStockTransaction` | src/application/shared/services/bill-completion.service.ts:88-94 | all lines are deducted, or the pools are restored |
| `BillCompletion.BillCompletionService.ApplyCredit` | src/application/shared/services/bill-completion.service.ts:157-173 | read, balance write and transaction write as separate steps, cut off anywhere |
| `BillCompletion.BillCompletionService.RecordCommissionFor` | src/application/shared/services/bill-completion.service.ts:239-250 | in place, appends the commission of a bill that owes one; which and how much: `BillEffects.CommissionStep` |
| `BillCompletion.BillCompletionService.CompleteBill` | src/application/shared/services/bill-completion.service.ts:79-108 | the whole method, cut off after any number of steps, equals the process driven that far |
| `BillCompletion.AdvanceFrame` | src/application/shared/services/bill-completion.service.ts:79-108 | each step appends to ledgers, moves stock only in the stock transaction, and closes only its own bill, last |
| `BillEffects.Begins` | src/application/shared/services/bill-completion.service.ts:79-81 | a call starts at the gate with the bill as stored, exactly when there is such a bill and it is not deleted |
| `BillEffects.GateDecides` | src/application/shared/services/bill-completion.service.ts:110-155 | from the stored columns: a credit bill passes exactly when balance plus total is at most the limit, or the customer is exempt (the own flag first, then the rule of the bill's customer type, then that of the customer's), or an approval of the bill is granted; without a customer or a limit it is refused; otherwise one pending request over exactly the total is filed, for this bill, customer and user |
| `BillEffects.GateStep` | src/application/shared/services/bill-completion.service.ts:84-86 | an overridden completion goes on to the stock step with every table unchanged, any other exactly when the gate passes it |
| `BillEffects.SaleStepRecords` | src/application/shared/services/bill-completion.service.ts:175-237 | a black sale is drawn from the unpublished stock, any other from the published, and nothing else changes; one movement per line is recorded, in order, of the line's quantity, product and location and by the completing user; an official one references the bill, a black one only names its number |
| `BillEffects.SaleStepTakes` | src/application/shared/services/bill-completion.service.ts:175-237 | every row of the bill's organization and location there falls by what all lines together ask of its product, every other row stays |
| `BillEffects.SaleStepFails` | src/application/shared/services/bill-completion.service.ts:88-94 | a stock step that fails is a bad request and changes nothing |
| `BillEffects.CommissionStep` | src/application/shared/services/bill-completion.service.ts:239-250 | a commission is appended exactly when the bill is black, has a facilitator user or name and a nonzero commission: one row with the bill's organization, id, facilitator and exactly its amount |
| `BillEffects.CreditSteps` | src/application/shared/services/bill-completion.service.ts:157-173 | the three steps of a charge by column: the customer as read, its balance raised by exactly the total, the transaction between the two balances |
| `BillEffects.CloseStep` | src/application/shared/services/bill-completion.service.ts:103-107 | closing sets status and time, the payment method where one is named, and leaves the stored lines; every other column is that of the loaded copy |
| `BillProofs.LinesSucceedIffCovered` | src/application/shared/services/bill-completion.service.ts:175-237 | the line loop succeeds exactly when no prefix of the lines asks for more of a product than is on hand; then each product falls by its demand, nothing else moves, and each line has its movement |
| `BillProofs.CoveredIffDemandCovered` | src/application/shared/services/bill-completion.service.ts:175-237 | for non-negative lines that is the same as the whole demand of every product being on hand |
| `BillProofs.StockStepMeetsDemand` | src/application/shared/services/bill-completion.service.ts:88-94 | the stock step, official or black, goes through exactly when every product's summed demand is on hand, and otherwise leaves all tables as they were |
| `CrashSafety.CompletedBillsAreSettled` | src/application/shared/services/bill-completion.service.ts:79-108 | in every state reachable by any interleaving of requests, steps, edits, overlapping stock transactions and crashes, a completed bill was loaded by a completion that has left a stock movement for each line it loaded, the commission if owed, by column and amount, and the credit transaction if on credit; a bill not edited is the one that was loaded |
| `CrashSafety.UneditedBillsAreSettled` | src/application/shared/services/bill-completion.service.ts:79-108 | from tables without completed bills, every completed bill that the run has not edited has these for its own lines and amounts |
| `CompletedBills.CompletionStays` | src/application/modules/bills/commands/update-bill/update-bill.command-handler.ts:19-34 | over every interleaving a completed bill stays completed in all states exactly when nothing cancels it, no edit saves a copy loaded with another status or moves it to one, and no deletion rests on such a copy |
| `Runs.VoidingCancels` | src/application/modules/bills/commands/transition-bill-status/transition-bill-status.command-handler.ts:43-48 | cancelling a bill that queries find changes its status and nothing else |
| `CompletedBills.LateEditReopens` | src/application/modules/bills/commands/update-bill/update-bill.command-handler.ts:19-34 | an edit that has loaded the bill before its completion and saves after it leaves stock, commission and credit as the completion has left them and writes the old status back: where the completion ran to its end the bill was completed, and is no longer, unless it had been before |
| `CompletedBills.EmptyBillReopens` | src/application/modules/bills/commands/update-bill/update-bill.command-handler.ts:19-34 | such a run, of a normal bill without lines in its four steps |
| `CompletedBills.LateLineIsUnsettled` | src/application/modules/bills/commands/add-bill-item/add-bill-item.command-handler.ts:19-42 | a line added to a completed bill, of a quantity no movement has, leaves the bill completed and not settled as it stands |
| `CompletedBills.EditKeepsSettledIff` | src/application/modules/bills/commands/update-bill-item/update-bill-item.command-handler.ts:21-45 | of a settled bill whose sale is the only one of its name, an edit leaves a bill with a movement for every line, its commission and its credit transaction exactly when the lines are among those sold, none more often, at the same location, and a credit bill keeps customer and total; the movements stand together in the order of the lines exactly when the lines are a stretch of those sold |
| `CompletedBills.CompletedBillSettledIff` | src/application/shared/services/bill-completion.service.ts:79-108 | in every state of every run from tables without completed bills: a completed bill, however edited, goes back to a copy that a completion has loaded and settled, and is settled as it stands by that same condition |
| `SaleEvidence.CompletedBillsDoNotShare` | src/application/shared/services/bill-completion.service.ts:88-108 | two different bills completed in a run were sold on movements of their own: stretches of the list that do not overlap |
| `Runs.CompletionCharges` | src/application/shared/services/bill-completion.service.ts:79-173 | a completion leaves customers and credit transactions alone, or charges the bill to the balance the gate checked; a transaction is missing only after a crash between the two writes |
| `Runs.OverLimitWasWaived` | src/application/shared/services/bill-completion.service.ts:84-162 | a completion that changes a customer and ends above the limit had an override, a skip rule or an approved request |
| `Runs.LimitIsInvariant` | src/application/shared/services/bill-completion.service.ts:84-162 | over every serial run without such a waiver a balance within its limit stays within it |
| `Runs.ServeCredit` | src/application/shared/services/bill-completion.service.ts:157-173 | the transactions a request appends start at the old balance, chain, and sum to the balance change except for what it lost |
| `Runs.CreditChainUnbroken` | src/application/shared/services/bill-completion.service.ts:157-173 | without a crash between the two writes the transactions chain from the first balance to the last, which is the first plus their sum |
| `Runs.BalanceIsLoggedPlusUnlogged` | src/application/shared/services/bill-completion.service.ts:157-173 | over every serial run with crashes the balance grows by the logged amounts plus exactly the lost ones |
| `Runs.LedgerNeverAhead` | src/application/shared/services/bill-completion.service.ts:157-173 | with non-negative totals the ledger never runs ahead of the balance |
| `CreditRuns.BalanceIsLastCharge` | src/application/shared/services/bill-completion.service.ts:157-163 | with balances written by completions only, over every interleaving a balance is exactly what the last charge wrote |
| `CreditRuns.ChargesChainIffCurrent` | src/application/shared/services/bill-completion.service.ts:157-163 | over every interleaving each charge starts where the one before ended exactly when every balance is written from a copy that is still current |
| `CreditRuns.CurrentChargesAddUp` | src/application/shared/services/bill-completion.service.ts:157-163 | then the balance grows by the charged totals, whatever the interleaving |
| `CreditRuns.SerialRunsAreCurrent` | src/application/shared/services/bill-completion.service.ts:79-108 | serial runs, crashes included, write from current copies only |
| `CreditRaces.TwoChargesIff` | src/application/shared/services/bill-completion.service.ts:157-163 | of two charges in any run, the first from the balance at the start, both count exactly when both writes are current; otherwise the later one is what remains |
| `CreditRaces.BothChargedIff` | src/application/shared/services/bill-completion.service.ts:157-173 | two completions for one customer, from their reads on and under any schedule of their steps: both are charged exactly when both writes are current, and otherwise one of the two totals is lost |
| `CreditRaces.OverlappingChargesLoseOne` | src/application/shared/services/bill-completion.service.ts:157-163 | read, read, write, write: the balance has grown by the second total only |
| `CreditRaces.TransactionsChain` | src/application/shared/services/bill-completion.service.ts:157-173 | over every interleaving with current writes and charges logged in their order, the transactions chain from the first balance, and the last balance is their sum plus the charges still unlogged |
| `CreditRaces.TransactionsChainIff` | src/application/shared/services/bill-completion.service.ts:157-173 | with current writes and positive totals the transactions of a run chain from the first balance exactly when they are, in order, the oldest charges |
| `CreditLimit.LimitHoldsAsChecked` | src/application/shared/services/bill-completion.service.ts:84-162 | over every interleaving in which nothing is waived and each balance is written from a copy no higher than the gate saw it, a balance within the limit stays within it in all states |
| `CreditLimit.WithinIffGainsFit` | src/application/shared/services/bill-completion.service.ts:84-162 | over every interleaving, lost charges included, a balance is within its limit in all states exactly when, for each write, what other bills have charged in net between its gate's look and its read of the customer is no more than the room the look left; a completion served alone needs nothing but its own gate, unless that is waived |
| `CreditLimit.WithinIffChargesFit` | src/application/shared/services/bill-completion.service.ts:84-162 | with current writes, and nothing waived that is served alone: exactly when, for each write, the totals charged since its gate's look are no more than that room |
| `CreditLimit.TwoGatesBeforeTwoCharges` | src/application/shared/services/bill-completion.service.ts:84-101 | two bills that pass the gate before either is charged: nothing is overwritten or waived, and the balance ends above the limit exactly when both totals exceed what was left |
| `Dispatch.OrderDispatchPaymentService.Sync` | src/application/shared/services/order-dispatch-payment.service.ts:96-114 | in place, the order's new payment status and nothing else |
| `Dispatch.DispatchIff` | src/application/shared/services/order-dispatch-payment.service.ts:30-74 | a known order may be fulfilled exactly when no request of its bill is pending, and dispatched exactly when, besides, it has no bill, pays on or after delivery, or is short by at most one unit of the total (prepaid), the deposit, or half of the total (half payment) |
| `Dispatch.UnknownOrder` | src/application/shared/services/order-dispatch-payment.service.ts:25-28 | an unknown order is neither fulfilled nor dispatched |
| `Dispatch.BillIff` | src/application/shared/services/order-dispatch-payment.service.ts:30 | the bill of an order is the row its query finds, unless it is deleted |
| `Dispatch.RequiredAmounts` | src/application/shared/services/order-dispatch-payment.service.ts:124-133 | the amount asked for: the total, the deposit, exactly half of the total, or nothing |
| `Dispatch.ReasonsGiven` | src/application/shared/services/order-dispatch-payment.service.ts:38-73 | timing, label and block reason: a pending request first, then the payment missing; the general reason is never given |
| `Dispatch.PaymentsCount` | src/infrastructure/persistence/repositories/payment-transaction.repo.ts:26-40 | what is paid are the completed payments of type bill that name the bill, and no others |
| `Runs.PaymentRaises` | src/application/shared/services/order-dispatch-payment.service.ts:34-36 | a further payment raises what an order has paid by its amount exactly when it is completed and names the bill of the order; amount asked for, timing and fulfilment stay |
| `Dispatch.StatusIff` | src/application/shared/services/order-dispatch-payment.service.ts:102-113 | a sync leaves PAID exactly for a positive total that is paid, PARTIAL exactly for less but something, UNPAID otherwise |
| `Dispatch.SumGrows` | src/infrastructure/persistence/repositories/payment-transaction.repo.ts:26-40 | more non-negative payments never lower the completed sum |
| `Dispatch.PaymentsAreMonotone` | src/application/shared/services/order-dispatch-payment.service.ts:33-73 | further non-negative payments never turn dispatch off and never lower UNPAID < PARTIAL < PAID |
| `Dispatch.PaidSatisfiesIffDepositWithinTotal` | src/application/shared/services/order-dispatch-payment.service.ts:124-151 | full payment satisfies the timing exactly unless a deposit above the total was agreed |
| `Dispatch.PaidOrdersDispatch` | src/application/shared/services/order-dispatch-payment.service.ts:33-73 | a paid order without a pending approval is dispatchable for every timing, with such a deposit excluded |
| `Dispatch.DispatchedPrepaidIsPaid` | src/application/shared/services/order-dispatch-payment.service.ts:96-143 | a dispatchable prepaid order is paid, or short by exactly one unit |
| `Dispatch.SyncIsIdempotent` | src/application/shared/services/order-dispatch-payment.service.ts:96-114 | syncing stores the computed status, changes no evaluation, and repeats without effect |
| `GateProofs.GateFilesOneRequest` | src/application/shared/services/bill-completion.service.ts:74-144 | the gate files exactly one pending request, for its bill, when it throws limit-exceeded, and otherwise changes nothing |
| `GateRuns.StepChangesIff` | src/application/modules/credit-approvals/commands/approve-credit-approval/approve-credit-approval.command-handler.ts:20-36 | an event changes a request exactly when it decides it, or commits a decision that was read while the request was pending, and never more than its decision |
| `GateRuns.ApprovalStays` | src/application/modules/credit-approvals/commands/approve-credit-approval/approve-credit-approval.command-handler.ts:20-36 | over every interleaving a decided request keeps its decision in all states exactly when no other decision is committed on an outdated read |
| `GateRuns.OverlappingDecisionsOverwrite` | src/application/modules/credit-approvals/commands/reject-credit-approval/reject-credit-approval.command-handler.ts:23-43 | approval and rejection both read a pending request; once the approval is saved the gate passes, once the rejection is saved over it the gate files a second request |
| `GateRuns.ThrownGateBlocksOrder` | src/application/shared/services/order-dispatch-payment.service.ts:30-49 | after the gate has thrown for an order's bill, every undecided request of the bill blocks dispatch and fulfilment in any interleaving that does not decide it, whatever is paid meanwhile, exactly unless the bill is deleted; then the order goes out |
| `GateRuns.ApprovedBillPassesGate` | src/application/shared/services/bill-completion.service.ts:122-132 | after an approval, in every interleaving that does not overwrite it, the gate never files for that bill again |
| `RedisReconnection.BaseRedisService.constructor` | src/common/redis/base-redis.service.ts:12-15 | the service starts disconnected, with no chain and no attempts |
| `RedisReconnection.BaseRedisService.StartReconnection` | src/common/redis/base-redis.service.ts:334-369 | starts one timer, unless a chain is already running |
| `RedisReconnection.BaseRedisService.OnError` | src/common/redis/base-redis.service.ts:302-307 | in place, the step of an error event |
| `RedisReconnection.BaseRedisService.OnReady` | src/common/redis/base-redis.service.ts:309-312 | in place, the step of a ready event |
| `RedisReconnection.BaseRedisService.OnConnect` | src/common/redis/base-redis.service.ts:314-317 | in place, the step of a connect event |
| `RedisReconnection.BaseRedisService.OnDisconnect` | src/common/redis/base-redis.service.ts:319-322 | in place, the step of a disconnect event |
| `RedisReconnection.BaseRedisService.StartConnection` | src/common/redis/base-redis.service.ts:325-332 | a failed first connection starts a chain |
| `RedisReconnection.BaseRedisService.OnTimer` | src/common/redis/base-redis.service.ts:346-350 | the timer turns into one attempt |
| `RedisReconnection.BaseRedisService.OnAttemptResolved` | src/common/redis/base-redis.service.ts:351-355 | success ends the chain and forgets its attempts |
| `RedisReconnection.BaseRedisService.OnAttemptRejected` | src/common/redis/base-redis.service.ts:356-368 | failure counts, and goes on unless the maximum is passed |
| `RedisReconnection.OneOutstandingAlways` | src/common/redis/base-redis.service.ts:301-370 | over every interleaving of events, `reconnecting` holds exactly while one timer or one attempt is outstanding, never two |
| `RedisReconnection.StepUsesBudget` | src/common/redis/base-redis.service.ts:346-369 | the measure of a chain, exactly: a failed attempt uses one unit of the budget, a start from outside after exhaustion adds one, nothing else changes it |
| `RedisReconnection.ExhaustedStartTriesAgain` | src/common/redis/base-redis.service.ts:302-307 | an error after exhaustion sets one timer for one more attempt |
| `RedisReconnection.FailuresUseBudget` | src/common/redis/base-redis.service.ts:301-370 | without a success the failures of a run and the budget left account exactly for the budget and the starts from outside |
| `RedisReconnection.ChainGivesUp` | src/common/redis/base-redis.service.ts:334-369 | from zero attempts and without a success at most maxReconnectionAttempts + 1 attempts are made, plus one per later start from outside; all have failed exactly when the attempts are used up and nothing is outstanding |
| `RedisReconnection.NeverStopsEarly` | src/common/redis/base-redis.service.ts:356-368 | a started chain without a success goes on until the attempts are used up |
| `RedisReconnection.AttemptsSinceSuccess` | src/common/redis/base-redis.service.ts:346-369 | over every run the attempts counted are exactly the failures since the last success, which leaves nothing outstanding and the whole budget restored |
| `RedisReconnection.FlagsFollowEvents` | src/common/redis/base-redis.service.ts:301-323 | over every run the connected flag is set exactly when a connect comes after every error and disconnect, the ready flag when a ready comes after every error, or when they were set and never cleared |
| `RedisReconnection.DisconnectsIff` | src/common/redis/base-redis.service.ts:334-344 | the client is disconnected exactly when a chain starts, or goes on, while it counts as connected, and so never after an error |
| `Seeding.BaseSeed.LoadEntity` | src/common/db/base.seed.ts:65-68 | the version of the first row with the seed's name, or none |
| `Seeding.BaseSeed.UpdateEntity` | src/common/db/base.seed.ts:70-78 | updates the rows of the name, or inserts one |
| `Seeding.BaseSeed.RunAsync` | src/common/db/base.seed.ts:27-63 | in place, a run cut off after any of its writes equals `Run` |
| `Seeding.DifferenceCopies` | src/common/db/base.seed.ts:51-60 | the difference holds an item once when no found row equals it, and otherwise not at all |
| `Seeding.UpdateKeepsUniqueIff` | src/common/db/base.seed.ts:70-78 | the write keeps at most one row per name exactly unless a version of at most 1 meets an existing row |
| `Seeding.RunKeepsUniqueIff` | src/common/db/base.seed.ts:23-78 | a full run keeps at most one row per name exactly unless it raises a stored version to one that is still at most 1 |
| `Seeding.FirstVersionOverZero` | src/common/db/base.seed.ts:70-78 | version 1 over a stored version of 0 leaves two rows of the name |
| `Seeding.DeploymentsKeepTables` | src/common/db/base.seed.ts:23-78 | over every sequence of deployments and crashes names stay unique and no data row is lost |
| `Seeding.RerunConverges` | src/common/db/base.seed.ts:27-63 | after any deployments of other data at lower versions or of its own, and any crashes, one full run leaves exactly one row for every missing item and the old rows for the others |
| `Seeding.SecondRunDoesNothing` | src/common/db/base.seed.ts:23-31 | after a full run the same version changes nothing |
| `Seeding.RunApplies` | src/common/db/base.seed.ts:23-78 | with versions from 1 on, a full run changes nothing exactly when the table has the seed at its version or a later one; otherwise it adds the missing rows and leaves the seed on one row at its own version, and the rows of other seeds as they were |
| `RetryPolicy.Retry` | src/common/tools/retry-policy.ts:50-70 | runs the executable up to and including the first success, first unhandled failure or end of the retries, with exactly that trace, and returns or throws accordingly |
| `RetryPolicy.HandledMeaning` | src/common/tools/retry-policy.ts:57-68 | the count of handled failures is the index of the first success or unhandled failure, or the number of retries |
| `RetryPolicy.FailureTraceAt` | src/common/tools/retry-policy.ts:57-67 | the j-th handled failure is tried, executed, reported with its exception and delay, and waited for, in that order |
| `RetryPolicy.GenerateRetries` | src/common/tools/retry-policy.ts:40-48 | yields exactly `count` delays, each from the one before; none for a negative count |
| `RetryPolicy.GeneratedDelays` | src/common/tools/retry-policy.ts:75-77 | the k-th delay is init * k for linear and init to the power k + 1 for quadratic |
| `RetryPolicy.RetryLinearly` | src/common/tools/retry-policy.ts:40-75 | with linear retries f handled failures wait init * f * (f + 1) / 2 in all, however the policy ends |
| `TimeSpans.TimeSpan.AddMinutes` | src/common/utils/time-span.ts:85-88 | adds the minutes to the stamp in place; the other `add` methods alike |
| `TimeSpans.ComponentsRecombine` | src/common/utils/time-span.ts:47-65 | for every stamp the five components recombine to it exactly, each within its range and with the sign of the stamp, despite rounding |
| `TimeSpans.TotalsRound` | src/common/utils/time-span.ts:27-41 | a total is the nearest unit, halves up, except where FLOAT_FIX lifts a rest just short of the half: possible for hours and days, impossible for seconds and minutes |
| `TimeSpans.ToStringSucceedsIff` | src/common/utils/time-span.ts:13-16 | the text form asks for a negative padding exactly for components below -9, or below -99 milliseconds; never for a stamp of at least 0 |
| `TimeSpans.TextForm` | src/common/utils/time-span.ts:120-126 | the text of a span of at least 0, by division: its whole days, where there are any, and then the clock of the rest in twelve characters, two digits each for hours, minutes and seconds and three for milliseconds |
| `TimeSpans.NegativeSpanThrows` | src/common/utils/time-span.ts:13-16 | the span of -10 seconds has no text form |
| `TimeSpans.ToStringInjective` | src/common/utils/time-span.ts:120-126 | different non-negative spans have different texts |
| `MapObject.CaseTransformLoop` | src/common/utils/map-object.ts:4-18 | the loop over the keys, recursing into records and arrays, equals the recursive renaming |
| `MapObject.SizeKeptIff` | src/common/utils/map-object.ts:4-19 | a record keeps its size exactly when the renaming keeps its keys apart, and otherwise shrinks |
| `MapObject.FieldByField` | src/common/utils/map-object.ts:7-17 | then the result is the record renamed field by field, in order |
| `MapObject.LeafKept` | src/common/utils/map-object.ts:12-16 | every leaf is found at its renamed path |
| `MapObject.NoNewLeaf` | src/common/utils/map-object.ts:12-16 | every leaf of the result sits at the renamed path of an original leaf |
| `MapObject.ShapeKeptIff` | src/common/utils/map-object.ts:4-19 | the tree keeps its shape exactly when no array or non-record object lies directly inside an array and every record's keys stay apart |
| `MapObject.InnerArrayLost` | src/common/utils/map-object.ts:4-19 | an array inside an array comes back as a record of its indices |
| `MapObject.IndexedFields` | src/common/utils/map-object.ts:4-19 | the fields of that record: the items in order, each under its renamed index, as long as the renaming keeps the indices apart |
| `MapObject.MergedKeyLost` | src/common/utils/map-object.ts:7-17 | of two keys renamed alike one remains, with the later value |
| `MapObject.MergedKeyKeepsPlace` | src/common/utils/map-object.ts:7-17 | in the place of the earlier key: the order of the others stays |
| `MapObject.RenamingsCompose` | src/common/utils/map-object.ts:4-19 | renaming by f and then by g equals renaming by g after f |
| `AnalyticsPeriod.ResolveCustom` | src/application/modules/analytics/analytics-period.util.ts:36-43 | the chosen days, whole, by month when more than 62 of them |
| `AnalyticsPeriod.ResolveAnalyticsPeriod` | src/application/modules/analytics/analytics-period.util.ts:28-69 | with dates changed in place, the window of each preset as whole days and months of the calendar, for two separate readings of the clock |
| `AnalyticsPeriod.ResolvePreviousAnalyticsPeriod` | src/application/modules/analytics/analytics-period.util.ts:94-128 | with dates changed in place, the window before, for every preset and any two dates |
| `LocalCalendar.MonthLength` | src/application/modules/analytics/analytics-period.util.ts:60 | Gregorian months follow one another and have 28 to 31 days |
| `LocalCalendar.ClockRecombines` | src/application/modules/analytics/analytics-period.util.ts:118 | copying hours, minutes, seconds and milliseconds copies the distance from midnight |
| `AnalyticsTiling.ResolvedIsContiguous` | src/application/modules/analytics/analytics-period.util.ts:28-69 | every resolved window is made of whole days and the window before it is contiguous |
| `AnalyticsTiling.ResolvedDays` | src/application/modules/analytics/analytics-period.util.ts:28-69 | which instants each preset's window holds, by calendar day and month, for two separate readings of the clock and any chosen dates |
| `AnalyticsTiling.UnitIff` | src/application/modules/analytics/analytics-period.util.ts:41-68 | the unit is hours exactly for today, months exactly for a year or more than 62 chosen days, days otherwise |
| `AnalyticsTiling.PresetNames` | src/application/modules/analytics/analytics-period.util.ts:18-26 | the names of each preset; any other, and none, is a month |
| `AnalyticsTiling.PreviousKeepsClock` | src/application/modules/analytics/analytics-period.util.ts:115-119 | of any two dates, whole days or not, the window before ends with the millisecond before and begins at the same time of day, on the day that lies as far back |
| `AnalyticsTiling.TodayIsOneDayIff` | src/application/modules/analytics/analytics-period.util.ts:45-49 | today is one day exactly when no midnight passes between the two clock readings, and empty otherwise |
| `AnalyticsTiling.SpansTile` | src/application/modules/analytics/analytics-period.util.ts:115-118 | iterated n times, today, seven days and custom windows tile the past: every earlier instant lies in exactly one window, all are of equal length and made of whole days |
| `AnalyticsTiling.MonthsTile` | src/application/modules/analytics/analytics-period.util.ts:99-105 | iterated n times, the month window is exactly the n-th month back |
| `AnalyticsTiling.YearsTile` | src/application/modules/analytics/analytics-period.util.ts:107-113 | iterated, the year window first reaches back to January, then covers calendar years |
| `AnalyticsTiling.MonthEqualLengthIff` | src/application/modules/analytics/analytics-period.util.ts:93-105 | a month window is as long as the one before exactly when today's date is the length of last month |
| `AnalyticsTiling.YearComparesMonths` | src/application/modules/analytics/analytics-period.util.ts:107-113 | the window before a year holds as many months as the current year has begun |
| `AnalyticsTiling.YearEqualLengthIff` | src/application/modules/analytics/analytics-period.util.ts:93-113 | a year window is as long as the one before exactly in December, on the day whose number is the length of last year |
| `AnalyticsTiling.FirstOfJanuary` | src/application/modules/analytics/analytics-period.util.ts:93-113 | on 1 January 1970 one day is compared with 31, and 335 days of a year with 31 |
| `AnalyticsPeriod.ResolveMonthsRange` | src/application/modules/analytics/analytics-period.util.ts:72-79 | with dates changed in place, the range of the last months, its month set before its day |
| `AnalyticsTiling.MonthsRangeIff` | src/application/modules/analytics/analytics-period.util.ts:71-77 | it begins with the first of those months exactly when that month is long enough to have today's date, and otherwise later |
| `AnalyticsTiling.LastOfMarch` | src/application/modules/analytics/analytics-period.util.ts:71-77 | on 31 March 1970 the last two months begin in March |
| `Paginate.PagesHoldAll` | src/common/filtering/paginate.ts:1-2 | the page count is the least number of pages that holds everything |
| `Paginate.PageIsQueryPage` | src/common/db/base-read-only.repo.ts:160-164 | from page 1 on, a page of the array is the page the query's offset and limit select |
| `Paginate.PagesConcatenate` | src/common/filtering/paginate.ts:7-13 | pages 1 to the page count, one after the other, are the source in order |
| `Paginate.PageSizes` | src/common/filtering/paginate.ts:7-13 | all pages but the last are full, and the last holds the rest and is not empty |
| `Paginate.ElementPage` | src/common/filtering/paginate.ts:7-13 | every element is on exactly the page its index says, at its place |
| `Paginate.PageEmptyIff` | src/common/filtering/paginate.ts:7-13 | a page is empty exactly when the source is, or the page lies beyond the last |
| `Paginate.PageZeroIsTail` | src/common/filtering/paginate.ts:7-9 | page 0 wraps around to the tail of the list |
| `Paginate.EarlyPageWraps` | src/common/filtering/paginate.ts:7-9 | so does every page below 1: page -k is the page that ends k pages from the end |
| `Paginate.PageDescribes` | src/common/filtering/paginate.ts:1-13 | a page reports what was asked for, the size of the source and its page count: infinite for pages of no elements, not a number for an empty source, and for a negative size minus the number of full pages of that size |

## Left out

- Runs.LimitIsInvariant: serial runs only. The code takes no lock: two completions can pass the gate on the same balance and then exceed the limit together (`CreditLimit.TwoGatesBeforeTwoCharges`), and a charge can be overwritten (`CreditRaces.BothChargedIff`). `CreditLimit.WithinIffGainsFit` and `CreditLimit.LimitHoldsAsChecked` are the forms for interleavings.
- Runs.CreditChainUnbroken: serial runs only, for the same reason, and over completions: repayments and manual adjustments of a balance are another handler. `CreditRaces.TransactionsChain` is the form for interleavings.
- StockProofs.RunConserves: one transaction after the other; `Conservation.ConservedIffNoneOutdated` is the form for interleavings.
- Isolation.ExecOn: the rows a transaction writes are locked from its first write to its commit, as the database does, so its writes take effect together. A write by others between the comparison of the saved row with the stored one and the update that follows from it is not modelled, nor are two transactions that create the same row at once (the unique index fails one of them).
- CreditRuns.BalanceIsLastCharge: balances are written by completions only, here and in the other theorems of `CreditRuns`, `CreditRaces` and `CreditLimit`. `src/application/modules/customers/commands/create-credit-transaction/create-credit-transaction.command-handler.ts:23-54` writes them for repayments and manual adjustments, and `src/application/modules/customers/commands/update-customer/update-customer.command-handler.ts:20-29` saves the whole customer as it has read it; neither is modelled.
- GateRuns.OverlappingDecisionsOverwrite: a rejection also cancels the bill, which is a request or an edit of its own in the model.
- GateRuns.ThrownGateBlocksOrder: the bill of an order is the row its query returns, and orders are not moved to another bill.
- CrashSafety.CompletedBillsAreSettled: bills are completed by `completeBill` only. `src/application/modules/trip-operations/commands/confirm-delivery-otp/confirm-delivery-otp.command-handler.ts:63-71` also sets the status, with no stock movement, commission or credit, and is not modelled. An edit saves lines and header together. Status guards of the calling handlers are not assumed.
- StockProofs.BatchOrderIndependent: rows only; the movements are in the order of the items.
- LocalCalendar.LocalDate.SetHours: fixed offset from UTC, so no daylight-saving change; invalid dates and dates outside the range of a Date are not modelled.
- MapObject.CaseTransformLoop: keys are in insertion order; integer-like keys, which the engine moves to the front, and the key `__proto__` are not modelled. The inner loop over an array inside an array is a function.
- AnalyticsPeriod.ResolveAnalyticsPeriod: preset names are compared as already in lower case.
- BillCompletion.BillCompletionService.DeductLines: one loop for the two that the source writes, and the reads inside one gate call are taken at one moment.
- Dispatch.OrderDispatchPaymentService.Sync: its read and its write are one step, and the numbers in the text of a block reason are not modelled.
- RetryPolicy.Retry: `beforeTry`, `afterTry` and `handle` do not throw.
- Seeding.BaseSeed.RunAsync: saving an array of rows is one transaction, which is the ORM's default.
- Average and unit costs: unit costs are plain columns of a movement, the average cost of a row is not modelled.
- Product activity logging and low-stock warnings: they cannot fail the operation and change no stock.
- Floating point: quantities are exact, so binary rounding of decimal fractions is not modelled; `logarithmic`, `roundToTens`, `roundNumber` and the distance formulas are left out.
- `substract*`, the factories and `toDate` of a time span: one-line wrappers of what is modelled.
- Storage, mail, PDF, messaging, spreadsheet reading, access checks, controllers, mappers and query handlers: wrappers and single-branch checks.
