# MegaMall CRM: money and stock ledgers

A Dafny model of the ledgers of the MegaMall CRM backend (`megamall-crm/internal`) and proofs about
them. Tables are maps from row keys to rows; a database transaction is a function from tables to
tables or an error, and a class with one field per table performs the same transaction statement by
statement and is proved against that function. Where the program relies on locks, transactions are
interleaved statement by statement instead. Money is integer cents, rates are integers over 100000
(the scale of `numeric(6,5)`), instants are integers.

`dafny verify dfyconfig.toml` checks everything.

| component | source | files |
|---|---|---|
| FEFO batch inventory | `inventory/service.go`, `inventory/repository.go` | `Fefo`, `StockTables`, `StockMoves`, `StockService` (specification), `StockOutcomes` (column by column), `Warehouse` (class), `StockTheorems`, `StockCosts`, `StockSamples` |
| courier cash handovers | `courier/*.go`, `logistics/repository.go`, `dispatch/repository.go` | `Handovers`, `HandoverRules` (specification), `HandoverOutcomes` (column by column), `HandoverProtocol`, `HandoverMoney`, `HandoverRuns` (interleavings), `HandoverService` (class), `HandoverReports` |
| commission split, rates, income reports | `compensation/*.go` | `Commission`, `RateBook`, `LiveIncome`, `IncomeReports` |
| budget ledger, withdrawal approval | `budget/*.go` | `Budget`, `Withdrawals` |
| hierarchy, activity log, tariffs | `hierarchy/*.go`, `activity/logger.go`, `courier_tariffs/*.go` | `Hierarchy`, `ActivityLog`, `Tariffs` |
| shared | | `Basics`, `Totals` (sums over tables) |

## Main results

- **Stock.** After any run of receipts, invoices, issues, returns, write-offs, adjustments, sales,
  reservations and edits (also of the product of a receipt) the stock row, the batches and the signed
  movements of every product show one number, and every batch accounts for every unit it gave away
  (`StockService.RunKeepsLedgers`, `ThreeLedgersAgree`, `LotsAccountForStock`). Hence "FEFO batches
  exhausted" is unreachable (`Warehouse.Service.DrawStock`). FEFO is characterised without its loop:
  it is the only allocation that dominates every other on every prefix of the expiry order, and by any
  day it uses up as much as possible of what expires by then (`Fefo.ExpiringFirst`). Restoring
  undoes consuming exactly, and an edited write-off ends where the corrected write-off would have,
  also when the product was reserved or blocked in between.
- **Handovers.** In an interleaving of submissions with decisions, manual entries, deletions and
  deliveries no order is ever claimed twice, whatever the hash behind the advisory lock, exactly when
  no correction revives a handover whose order is claimed or about to be
  (`HandoverProtocol.SingleExactly`); and declared money stays within the debt exactly when every
  raise, manual entry and undeclared submission fits what the limit and the submissions in flight
  leave (`HandoverMoney.HoldsExactly`). Runs from empty tables break each side condition.
- **Commissions.** Who gets what of an order is fixed to the cent (`Commission.WhoGetsWhat`). The
  split is exact if and only if the revenue is not negative and rounding does not overdraw a seller
  order's pool. Rates over time are a step function outside one-millisecond gaps. The memoised live
  report is the per-row one; when its figures add up, and when they match the frozen report's once
  all is paid, is an exact condition on how often running totals dip below zero.
- **Budget.** Running balances are prefix sums through appends and retroactive edits; a withdrawal
  request is decided once and has exactly one ledger row when approved, in every interleaving.
- **Hierarchy, log, tariffs.** When the cycle check is exact; that the logger neither loses nor
  reorders what it accepts before it returns; that the first matching bracket is the only one.

## Where the code and its documentation differ

The model follows the code.

- An edit of a write-off needs a valid `expiry_date` (`inventory/service.go:430-437`), although the
  request type says the field is ignored for write-offs (`inventory/dto.go:67-69`).
- Movements are documented as never updated (`inventory/model.go:41`), but an edit rewrites them.
- Neither an adjustment nor a write-off edit looks at blocked stock; the schema only keeps quantity
  at or above reservations (`StockCosts.AdjustFreeStock`, `StockCosts.EditFreeStock`).
- The commission split is documented as exact; a seller order can hand out one cent more, and a loss
  is never split exactly (`Commission.ConservedExactly`), because `round2` moves negative amounts
  toward zero.
- `EditHandover` takes no lock and looks at no other handover when it revives a rejected one
  (`HandoverRuns.RevivalDoubleClaims`, `HandoverRuns.StaleRevivalDoubleClaims`).
- Only a declared amount is compared with the limit; a raised amount, a manual entry and a submission
  without an amount are not (`HandoverRuns.StaleRaiseExceedsDebt`, `UndeclaredExceedsDebt`).
- A manual handover confirmed at an amount other than its `total_to_return` moves the debt by t - 2a
  (`HandoverRules.ConfirmManualMovesDebt`).
- Closing a window one millisecond before the next opens leaves a gap in which a lower-priority rate
  applies, or none (`RateBook.GapFallsThrough`, `RateBook.GapHasNoRate`).
- `recalcBalanceAfter` is documented to leave legacy rows untouched; it rewrites their balances too.
- `ExpirePendingRequests` is documented to return what it marked; it returns what it read, also if it
  was approved in between (`Withdrawals.SweepReports`).
- `WouldCreateCycle` misses a user without an entry and one ten or more links up
  (`Hierarchy.RunKeepsAcyclic`, `Hierarchy.TwoAssignmentsCloseACycle`, `Hierarchy.LongChainClosesACycle`).
- Shutdown is documented to drain the buffer; entries logged after the goroutine returned are
  accepted and never written (`ActivityLog.LateEntryIsLost`).
- A zero payout stands for "no rule", also when a percent bracket covers an order of zero
  (`Tariffs.ZeroMeansNoRule`).

## Model

| member | source | states |
|---|---|---|
| Fefo.SegmentTake | megamall-crm/internal/inventory/repository.go:631-658 | Whatever the batches are, consuming q units takes min(q, stock) in all from every initial segment of the product's FEFO order |
| Fefo.TakeBounds | megamall-crm/internal/inventory/repository.go:637-658 | A consumption takes between nothing and what a batch holds from it, and q in all whenever the batches hold q |
| Fefo.DrawnOnHand | megamall-crm/internal/inventory/repository.go:631-669 | After a consumption the product holds q units less (or none) and every other product what it held |
| Fefo.DrawnAhead | megamall-crm/internal/inventory/repository.go:504-515 | After a consumption q units less stand in front of every batch, never fewer than none |
| Fefo.DrawnCompose | megamall-crm/internal/inventory/repository.go:631-669 | Consuming a and then b leaves the same batches as consuming a + b at once |
| Fefo.FirstExpiredFirst | megamall-crm/internal/inventory/repository.go:504-515 | While a batch gives anything, every batch of the product with an earlier expiry (none is last) gives all it holds; at equal expiry so does one received earlier, then one created earlier, then one with a smaller id |
| Fefo.ExpiringFirst | megamall-crm/internal/inventory/repository.go:504-515 | Of what expires by any given day a consumption of q uses up q units, or all of it: the soonest expiring stock goes first as far as possible |
| Fefo.FefoDominates | megamall-crm/internal/inventory/repository.go:497-515 | On every initial segment of the order FEFO takes at least as much as any other allocation of the same total |
| Fefo.FefoAllocates | megamall-crm/internal/inventory/repository.go:637-658 | FEFO is itself an allocation of the quantity whenever there is one |
| Fefo.DominantIsFefo | megamall-crm/internal/inventory/repository.go:497-515 | An allocation dominates every other one on every initial segment if and only if it is what FEFO takes from every batch |
| StockTables.RecordsByBatch | megamall-crm/internal/inventory/repository.go:637-669 | The records of a consumption give every listed batch exactly its share |
| StockTables.RecordsByMovement | megamall-crm/internal/inventory/repository.go:637-669 | The records of a consumption add up to what the movement took |
| StockTables.OrderIsCandidates | megamall-crm/internal/inventory/repository.go:504-515 | The FEFO list holds every non-empty batch of the product once |
| StockTables.OrderByColumns | megamall-crm/internal/inventory/repository.go:504-515 | Along the list expiry dates never decrease and missing ones come last; equal dates go by receipt, then creation, then id |
| StockTables.UntouchedLot | megamall-crm/internal/inventory/service.go:463-472 | A batch with nothing consumed has no consumption record, so moving it to another product cannot strand one |
| StockTables.LotWithinStock | megamall-crm/internal/inventory/service.go:474-504 | One batch never holds more than the stock row of its product |
| StockMoves.AddLotKeeps | megamall-crm/internal/inventory/service.go:202-296 | Adding a lot with its stock and movement rows keeps all tables in agreement and no product drifts from its movements |
| StockMoves.DeductKeeps | megamall-crm/internal/inventory/service.go:66-114 | A deduction (stock, movement, batches, records) keeps all tables in agreement for every kind of movement that lowers stock |
| StockMoves.UndoKeeps | megamall-crm/internal/inventory/service.go:591-625 | Taking a write-off back, records and all, keeps all tables in agreement |
| StockMoves.UndoDeduct | megamall-crm/internal/inventory/service.go:667-682 | restoreFIFOConsumption exactly undoes ConsumeFEFO: undoing a fresh deduction gives the very tables it started from |
| StockMoves.EditLotKeeps | megamall-crm/internal/inventory/service.go:452-522 | Editing a receipt's quantity, cost, expiry or product keeps all tables in agreement, also when stock moves between two products |
| StockMoves.EditNeverNegative | megamall-crm/internal/inventory/service.go:474-504 | Neither "would make stock negative" branch of UpdateReceiving is reachable once its earlier checks have passed |
| StockService.BringKeeps | megamall-crm/internal/inventory/service.go:120-163 | Receiving or returning keeps the tables in agreement |
| StockService.ReceiveLinesKeeps | megamall-crm/internal/inventory/service.go:298-428 | So does an invoice of any number of lines, repeated products included |
| StockService.SellKeeps | megamall-crm/internal/orders/service.go:2093-2134 | So does the delivery of a reserved order from the main warehouse |
| StockService.SetRowKeeps | megamall-crm/internal/inventory/repository.go:414-438 | Reserving, releasing and blocking leave the ledgers in agreement |
| StockService.NoteKeeps | megamall-crm/internal/inventory/service.go:729-835 | An adjustment to the same quantity records a movement of quantity 1 that the signed sum does not count |
| StockService.AdjustKeeps | megamall-crm/internal/inventory/service.go:729-835 | Every adjustment, up, down or to the same number, keeps the tables in agreement |
| StockService.EditWriteoffKeeps | megamall-crm/internal/inventory/service.go:578-665 | Editing a write-off keeps the tables in agreement |
| StockService.EditPurchaseKeeps | megamall-crm/internal/inventory/service.go:452-522 | Editing a receipt, product change included, keeps the tables in agreement |
| StockService.IssueKeeps | megamall-crm/internal/inventory/service.go:66-114 | An external issue keeps the tables in agreement |
| StockService.WriteOffKeeps | megamall-crm/internal/inventory/service.go:847-921 | A write-off keeps the tables in agreement |
| StockService.StepKeeps | megamall-crm/internal/inventory/service.go:66-921 | Every operation, refused or not, keeps the tables in agreement and no product drifts |
| StockService.RunKeepsLedgers | megamall-crm/internal/inventory/service.go:66-921 | So does every run of every operation, from any agreeing tables |
| StockService.ThreeLedgersAgree | megamall-crm/internal/inventory/service.go:66-921 | From empty tables, after any run: stock row = sum of batch remainders = signed sum of movements, for every product |
| StockService.AuditFindsNothing | megamall-crm/internal/inventory/repository.go:690-714 | InventoryIntegrityCheck returns no row in any reachable state |
| StockService.LotsAccountForStock | megamall-crm/internal/inventory/service.go:66-921 | After any run every batch has 0 <= remaining <= received, and received - remaining is the sum of its consumption records |
| StockService.OpeningAgrees | megamall-crm/internal/inventory/repository.go:121-152 | Empty tables with any product list are in agreement and drift by nothing |
| StockOutcomes.ReceiptWrites | megamall-crm/internal/inventory/service.go:202-296 | A receipt is accepted exactly for a date that is not past, an existing product, a positive quantity and a cost that is not negative; stock, movement and the new batch then read the received quantity, cost and date |
| StockOutcomes.ReturnWrites | megamall-crm/internal/inventory/service.go:120-163 | A return is accepted for a positive quantity and comes back as a batch without a date |
| StockOutcomes.InvoiceWrites | megamall-crm/internal/inventory/service.go:298-428 | Every line of an accepted invoice has its own batch and movement, each product's stock rises by what the lines order of it, and what was there stays |
| StockOutcomes.IssueWrites | megamall-crm/internal/inventory/service.go:66-114 | An issue is accepted exactly when stock neither reserved nor blocked covers it; stock falls by it, and a transfer_out movement with the old and new quantity is on record |
| StockOutcomes.WriteOffWrites | megamall-crm/internal/inventory/service.go:847-921 | The same for a write-off |
| StockOutcomes.SaleWrites | megamall-crm/internal/orders/service.go:2093-2134 | A sale is accepted exactly when the reservation covers it; stock and reservation both fall by it |
| StockOutcomes.AdjustmentWrites | megamall-crm/internal/inventory/service.go:729-835 | An adjustment that covers the reservation ends at its target: a surplus comes in as a batch at the given cost or none, a shortage goes out by FEFO, no difference records one unit |
| StockOutcomes.ReceiptEditAccepted | megamall-crm/internal/inventory/service.go:452-504 | From agreeing tables a receipt edit is accepted exactly when it leaves what was consumed, changes product only while nothing was, and leaves what is reserved |
| StockOutcomes.ReceiptEditWrites | megamall-crm/internal/inventory/service.go:496-522 | The batch then reads the corrected product, quantity, cost and expiry, the movement product and quantity, and the stock rows moved by the difference |
| StockOutcomes.WriteOffEditWrites | megamall-crm/internal/inventory/service.go:578-661 | A write-off edit is accepted exactly when unreserved stock with the old write-off taken back covers it, and rewrites the movement and the stock row to the new quantity |
| StockOutcomes.EditDispatches | megamall-crm/internal/inventory/service.go:430-462 | Only receipts and write-offs can be edited, and both need a date that is not past |
| StockOutcomes.HoldsWrite | megamall-crm/internal/inventory/repository.go:411-438 | Reserving and blocking set their own column within the checks and nothing else |
| Warehouse.Service.constructor | megamall-crm/internal/inventory/repository.go:81-88 | A service over a product catalogue and empty tables, which are in agreement |
| Warehouse.Service.Rollback | megamall-crm/internal/inventory/service.go:202-296 | A refused transaction leaves the database as it found it |
| Warehouse.Service.GetOrCreateForUpdate | megamall-crm/internal/inventory/repository.go:121-152 | Returns the product's stock row, a fresh zero row if there was none, and refuses an unknown product |
| Warehouse.Service.UpdateQuantity | megamall-crm/internal/inventory/repository.go:154-165 | Writes the quantity of one stock row; the CHECK constraint refuses less than is reserved |
| Warehouse.Service.UpdateReservedQuantity | megamall-crm/internal/inventory/repository.go:411-424 | Writes the reservation of one stock row; the CHECK constraint refuses more than the quantity |
| Warehouse.Service.UpdateBlockedQuantity | megamall-crm/internal/inventory/repository.go:426-438 | Writes the blocked quantity of one stock row |
| Warehouse.Service.InsertMovement | megamall-crm/internal/inventory/repository.go:167-172 | Inserts one movement; refuses a non-positive quantity or a key that exists |
| Warehouse.Service.CreateBatch | megamall-crm/internal/inventory/repository.go:448-455 | Inserts one batch; refuses a non-positive quantity, a negative cost or a key that exists |
| Warehouse.Service.DrawListed | megamall-crm/internal/inventory/repository.go:637-663 | The loop over the listed batches computes the loop-free FEFO allocation and its records, and reports exhaustion exactly when they hold too little |
| Warehouse.Service.ConsumeFEFO | megamall-crm/internal/inventory/repository.go:631-669 | Batches and records after the loop are the specified drawing; it fails only if the product's batches hold less than asked |
| Warehouse.Service.RestoreFIFOConsumption | megamall-crm/internal/inventory/service.go:667-682 | Every batch gets back exactly what the movement took and the movement's records are gone |
| Warehouse.Service.DrawStock | megamall-crm/internal/inventory/service.go:82-110 | Stock row, movement, batches and records of a deduction; never "FEFO batches exhausted" on agreeing tables |
| Warehouse.Service.BringLot | megamall-crm/internal/inventory/service.go:131-162 | Stock row, movement and batch of a receipt, or a refusal with nothing but the zero stock row written |
| Warehouse.Service.Receive | megamall-crm/internal/inventory/service.go:202-296 | Performs the specified receipt as one transaction, or refuses and changes nothing; the tables stay in agreement |
| Warehouse.Service.ReceiveBatch | megamall-crm/internal/inventory/service.go:298-428 | The same for an invoice: all lines or none |
| Warehouse.Service.IssueExternalTx | megamall-crm/internal/inventory/service.go:66-114 | Performs the specified issue, never exhausts the batches, and returns total cost over quantity |
| Warehouse.Service.TotalCost | megamall-crm/internal/inventory/service.go:110-113 | The accumulated cost is the cost of the records |
| Warehouse.Service.ReturnExternalTx | megamall-crm/internal/inventory/service.go:120-163 | Performs the specified return at the given cost rounded to the column's cents |
| Warehouse.Service.Writeoff | megamall-crm/internal/inventory/service.go:847-921 | Performs the specified write-off or changes nothing; never exhausts the batches |
| Warehouse.Service.SellTx | megamall-crm/internal/orders/service.go:2093-2134 | One item of a delivered order: its reservation is released, stock, movement, batches and records follow as specified |
| Warehouse.Service.Sell | megamall-crm/internal/orders/service.go:2093-2134 | Performs the specified sale or changes nothing; never exhausts the batches |
| Warehouse.Service.Reserve | megamall-crm/internal/inventory/repository.go:411-424 | Sets the reservation of a product or changes nothing; the tables stay in agreement |
| Warehouse.Service.Block | megamall-crm/internal/inventory/repository.go:426-438 | Sets the blocked quantity of a product or changes nothing; the tables stay in agreement |
| Warehouse.Service.Adjust | megamall-crm/internal/inventory/service.go:729-835 | Performs the specified adjustment or changes nothing; never exhausts the batches |
| Warehouse.Service.EditWriteoffTx | megamall-crm/internal/inventory/service.go:578-665 | Restore, check, consume again under the same movement: the specified edit |
| Warehouse.Service.EditPurchaseTx | megamall-crm/internal/inventory/service.go:452-522 | The receipt half of UpdateReceiving: the specified edit |
| Warehouse.Service.EditStock | megamall-crm/internal/inventory/service.go:474-504 | The stock rows of an edited receipt, one product or two |
| Warehouse.Service.UpdateReceiving | megamall-crm/internal/inventory/service.go:430-576 | Performs the specified edit of a receipt or a write-off, or changes nothing |
| Warehouse.FefoServed | megamall-crm/internal/inventory/repository.go:637-658 | What the loop has taken from a listed batch is what its place in the order gives it |
| Warehouse.ListingStep | megamall-crm/internal/inventory/repository.go:637-658 | One iteration of the loop extends the specified drawing by one batch |
| Warehouse.DrawnFromAll | megamall-crm/internal/inventory/repository.go:631-669 | What the loop computes over the query's list is the loop-free drawing over all batches |
| Warehouse.GivenBackIsRestored | megamall-crm/internal/inventory/service.go:667-682 | Giving records back one at a time restores the same remainders as doing it all at once |
| Warehouse.RefusedLine | megamall-crm/internal/inventory/service.go:330-420 | A refused line refuses every longer invoice that starts the same way |
| Warehouse.UndoneRow | megamall-crm/internal/inventory/service.go:591-602 | What a write-off edit finds in the stock row once the old drawing is back |
| Warehouse.EndedKeeps | megamall-crm/internal/inventory/service.go:66-921 | A transaction that ends as specified leaves agreeing tables |
| StockTheorems.EditIsFirstWriteoff | megamall-crm/internal/inventory/service.go:578-665 | Writing off q1 and editing it to q2 ends as writing off q2 in the first place, tables or refusal, if and only if q2 is not in the range that only blocked stock covers |
| StockTheorems.TakeIsLocal | megamall-crm/internal/inventory/repository.go:504-515 | What a batch gives depends on its own product's batches only |
| StockTheorems.DrawnIsLocal | megamall-crm/internal/inventory/repository.go:631-669 | So do the batches a consumption leaves |
| StockTheorems.StepElsewhere | megamall-crm/internal/inventory/service.go:66-921 | An operation on other products leaves this product's stock row, batches, records and movements alone |
| StockTheorems.StepSpares | megamall-crm/internal/inventory/service.go:66-921 | Nor does one on this product that only reserves, releases, blocks, confirms its quantity or is refused: quantity, batches and the records of its movements stay |
| StockTheorems.RunSpares | megamall-crm/internal/inventory/service.go:66-921 | Nor does any run of such operations |
| StockTheorems.UntouchedEdit | megamall-crm/internal/inventory/service.go:578-665 | Editing a write-off of q1 to q2 while the product's batches and the write-off's records are what they were is accepted if and only if 0 < q2 fits the restored quantity less the reservation at that time, and leaves the stock quantity and batch remainders that writing off q2 in the first place leaves |
| StockTheorems.LateEditIsFirstWriteoff | megamall-crm/internal/inventory/service.go:578-665 | So it is after any run that left the product's batches untouched, reservations and blocks of the product included |
| StockCosts.DrawnValue | megamall-crm/internal/inventory/service.go:106-113 | A consumption lowers the stock value by exactly the cost of its records |
| StockCosts.IssueCostBetween | megamall-crm/internal/inventory/service.go:106-113 | The unit cost of an issue lies between the least and the greatest unit cost consumed |
| StockCosts.RoundedWorth | megamall-crm/internal/inventory/model.go:115 | Storing a unit cost to two decimals is off by at most half a cent a unit, and exact if and only if it is whole cents |
| StockCosts.IssueThenReturn | megamall-crm/internal/inventory/service.go:66-163 | Issuing q and returning q at the returned cost restores quantity, and value within q half-cents always and exactly if and only if the average is whole cents |
| StockCosts.CostEditKeepsRecords | megamall-crm/internal/inventory/service.go:515-522 | A corrected unit cost does not reach the consumption records: they still show the batch's cost if and only if the cost stayed or nothing was consumed |
| StockCosts.AdjustFreeStock | megamall-crm/internal/inventory/service.go:729-751 | After an accepted adjustment free stock is non-negative if and only if the target covers reserved and blocked units |
| StockCosts.EditFreeStock | megamall-crm/internal/inventory/service.go:600-613 | The same for a write-off edit: free stock is non-negative if and only if the new quantity leaves the blocked units too |
| StockSamples.AdjustIgnoresBlocked | megamall-crm/internal/inventory/service.go:729-751 | A run that receives five units, blocks three and adjusts to one: accepted, free stock two short |
| StockSamples.BlockedEdit | megamall-crm/internal/inventory/service.go:600-613 | Correcting a write-off into the range that only blocked stock covers is accepted and leaves free stock short, although writing off as much at once is refused |
| StockSamples.EditIgnoresBlocked | megamall-crm/internal/inventory/service.go:600-613 | A run that reaches such a correction |
| StockSamples.ReturnLosesACent | megamall-crm/internal/inventory/service.go:66-163 | Two units at one cent and one at two, all issued and returned, come back worth three cents instead of four |
| StockSamples.MixedCanReturn | megamall-crm/internal/inventory/service.go:66-163 | That issue and that return are accepted |
| Handovers.ClampsAgree | megamall-crm/internal/courier/service.go:597-610 | The submission's two-step clamp equals the queries' single clamp if and only if the payout is not negative or there was something to collect |
| Handovers.SettledCash | megamall-crm/internal/courier/repository.go:888-905 | While orders are claimed once, the cash of all settled orders is the sum over the confirmed handovers that link them |
| Handovers.LinkedIsReturned | megamall-crm/internal/courier/service.go:589-639 | A courier-app handover links cash worth its total_to_return to its own courier and none to anyone else |
| Handovers.OwedIsUnsettled | megamall-crm/internal/courier/repository.go:888-905 | Order debt is what was earned less what confirmed handovers link |
| Handovers.ShareOfHandover | megamall-crm/internal/courier/repository.go:906-933 | One handover's effect on debt and pending together is the weight its status and amount give it |
| Handovers.DebtIsBalance | megamall-crm/internal/courier/repository.go:882-942 | Conservation of cash: debt less open declarations is what was earned less what was declared or accepted |
| Handovers.OpenNonneg | megamall-crm/internal/courier/repository.go:915-933 | The pending amount is never negative |
| Handovers.LimitIsBalance | megamall-crm/internal/courier/repository.go:882-942 | While no more was declared than earned the limit shows exactly the balance and the unclamped debt is not negative |
| HandoverRules.RewriteKeepsSingleClaim | megamall-crm/internal/logistics/repository.go:1015-1143 | Right after a decision every order is still claimed once if and only if it did not revive a rejected handover while another one held one of its orders |
| HandoverRules.RewriteBalance | megamall-crm/internal/courier/service.go:685-796 | A decision moves its courier's balance by the change in that handover's weight and no one else's at all |
| HandoverRules.ConfirmTransactionMovesBoth | megamall-crm/internal/courier/service.go:728-763 | ConfirmTransaction on a courier-app handover lowers debt and pending by the same accepted amount |
| HandoverRules.ConfirmManualMovesDebt | megamall-crm/internal/courier/repository.go:906-914 | Confirming a manual handover of t at amount a moves the debt by t - 2a |
| HandoverRules.ConfirmWithinBalance | megamall-crm/internal/courier/service.go:685-726 | Right after ConfirmHandover at another amount declarations are within earnings if and only if the extra fitted into the balance |
| HandoverRules.DecisionEffect | megamall-crm/internal/courier/service.go:685-796 | A decision moves only its own courier's balance, by the change in the handover's weight, and keeps the tables well formed and orders claimed once if and only if it reclaims nothing |
| HandoverRules.ClosingFrees | megamall-crm/internal/courier/repository.go:944-974 | Rejecting or deleting an open handover makes exactly the orders it linked eligible again, for its own courier only |
| HandoverRules.DeleteKeeps | megamall-crm/internal/logistics/repository.go:1212-1221 | Deleting a pending handover keeps orders claimed once and gives its amount back |
| HandoverRules.InsertBalance | megamall-crm/internal/courier/repository.go:976-991 | A new handover lowers its own courier's balance by what it declares |
| HandoverRules.InsertKeepsGood | megamall-crm/internal/courier/service.go:589-646 | A new handover over eligible orders keeps the tables well formed and orders claimed once |
| HandoverRules.SubmitClaimsAll | megamall-crm/internal/courier/repository.go:944-974 | After a submission its courier has no eligible order left and other couriers have theirs |
| HandoverRules.SubmitEffect | megamall-crm/internal/courier/service.go:564-646 | A submission keeps orders claimed once, leaves its courier nothing eligible and takes what it declares off the balance |
| HandoverRules.ManualEffect | megamall-crm/internal/logistics/repository.go:997-1013 | A manual entry claims no order and takes its amount off the balance, unchecked |
| HandoverRules.SubmitWithinBalance | megamall-crm/internal/courier/service.go:564-646 | A submission keeps declarations within earnings if and only if what it declares fits; only a declared amount is checked |
| HandoverOutcomes.ConfirmedRow | megamall-crm/internal/courier/service.go:685-726 | ConfirmHandover accepts pending and disputed handovers, records the counted amount and leaves the handover disputed exactly when it is more than a cent off, confirmed otherwise |
| HandoverOutcomes.TransactionRow | megamall-crm/internal/courier/service.go:728-763 | ConfirmTransaction accepts pending handovers only and records the declared amount, or else total_to_return |
| HandoverOutcomes.RejectedRow | megamall-crm/internal/courier/service.go:765-796 | Rejecting accepts pending and disputed handovers and changes the status only |
| HandoverOutcomes.UpdatedRow | megamall-crm/internal/logistics/repository.go:1015-1074 | UpdateHandover accepts pending and disputed handovers, a rejection only with a note; requested status and amount are what the row then holds, the rest stays |
| HandoverOutcomes.EditedRow | megamall-crm/internal/logistics/repository.go:1076-1143 | EditHandover corrects decided handovers to confirmed or rejected, only if something changes; requested status and amount are what the row then holds |
| HandoverOutcomes.DeletedRow | megamall-crm/internal/logistics/repository.go:1212-1221 | Exactly pending handovers can be deleted |
| HandoverOutcomes.ManualRow | megamall-crm/internal/logistics/repository.go:997-1013 | A manual entry holds the given courier and amounts, pending and without orders |
| HandoverOutcomes.EligibleMeans | megamall-crm/internal/courier/repository.go:944-974 | Eligible are the delivered, not deleted orders of the courier that no pending, confirmed or disputed handover links |
| HandoverOutcomes.SubmitAccepted | megamall-crm/internal/courier/service.go:572-588 | A submission is accepted exactly when a declared amount is within the limit and there is an order or a positive amount to hand over |
| HandoverOutcomes.SubmittedRow | megamall-crm/internal/courier/service.go:589-646 | The new handover links every eligible order at cash in hand, payout and amount due, and its three totals are the sums over those orders |
| HandoverProtocol.StepIsSafe | megamall-crm/internal/courier/service.go:564-646 | From any safe state an event (statement, decision, deletion, delivery, manual entry) leaves a safe one if and only if it is not a revival of a handover one of whose orders is claimed or chosen by a submission about to commit |
| HandoverProtocol.CommitIsSafe | megamall-crm/internal/courier/repository.go:854-880 | A commit claims orders no other chooser of that courier holds, because of the advisory lock |
| HandoverProtocol.RunIsSafe | megamall-crm/internal/courier/service.go:564-646 | Every state of an interleaving is safe if and only if none of its revivals clashes; harmless revivals are allowed |
| HandoverProtocol.NoDoubleClaim | megamall-crm/internal/courier/service.go:564-646 | In every interleaving without a clashing revival no order is in two pending, confirmed or disputed handovers, whatever the lock's hash function |
| HandoverProtocol.StaleRevival | megamall-crm/internal/logistics/repository.go:1076-1143 | A revival whose orders a submission in flight has read keeps orders claimed once at that step exactly when none is claimed yet, and the commit then claims one twice |
| HandoverProtocol.ClashDoubleClaims | megamall-crm/internal/logistics/repository.go:1076-1143 | After a clashing revival some order is claimed twice, or is after one commit already under way |
| HandoverProtocol.SingleExactly | megamall-crm/internal/courier/service.go:564-646 | Throughout an interleaving orders are claimed once, and stay so whichever submission commits next, if and only if no revival clashes |
| HandoverProtocol.UninterruptedIsSubmit | megamall-crm/internal/courier/service.go:564-646 | A submission nobody interrupts is SubmitHandover as one transaction |
| HandoverProtocol.AbortFrees | megamall-crm/internal/courier/repository.go:854-880 | A submission that gives up changes no row and lets the next one of the same lock go on |
| HandoverMoney.DecisionStep | megamall-crm/internal/courier/service.go:685-796 | A decision keeps all declarations covered if and only if the extra it accepts fits the limit, alone and on top of each declaration of that courier in flight |
| HandoverMoney.EntryStep | megamall-crm/internal/logistics/repository.go:997-1013 | A manual entry keeps all declarations covered if and only if its total fits the limit, alone and on top of each declaration in flight |
| HandoverMoney.CommitStep | megamall-crm/internal/courier/service.go:589-646 | A commit keeps all declarations covered if and only if it declared an amount or the total of its orders fits |
| HandoverMoney.StepIsSolvent | megamall-crm/internal/courier/service.go:572-726 | From any safe and solvent state an event leaves every declaration covered, those of submissions in flight included, if and only if what it takes fits what balance and submissions in flight leave: the extra of a decision, the total of a manual entry, the orders of a submission that declares nothing |
| HandoverMoney.RunIsSolvent | megamall-crm/internal/courier/service.go:572-646 | Every state of an interleaving has claims single and declarations covered if and only if no revival clashes and every event fits; raises, manual entries and undeclared submissions that fit are allowed |
| HandoverMoney.DebtCoversDeclarations | megamall-crm/internal/courier/service.go:572-796 | In every such interleaving open declared amounts never exceed the unclamped debt, which is never negative |
| HandoverMoney.SolventMeans | megamall-crm/internal/courier/service.go:572-588 | A safe state is solvent if and only if open amounts are within the debt and stay there whichever declared submission goes in next |
| HandoverMoney.StaleRaise | megamall-crm/internal/courier/service.go:685-726 | A decision whose extra fits the limit, but not together with a declaration in flight, leaves declarations within the debt, and the commit that follows does not |
| HandoverMoney.HoldsExactly | megamall-crm/internal/courier/service.go:564-796 | Throughout an interleaving orders are claimed once and declarations are within the debt, whichever submission under way (for the debt: with a declared amount) goes in next, if and only if no revival clashes and every event fits |
| HandoverMoney.OrdinaryRunIsFair | megamall-crm/internal/courier/service.go:572-796 | Runs of declared submissions, deliveries, deletions and decisions that accept no more than was declared and revive nothing meet that condition |
| HandoverRuns.UnlockedDoubleClaim | megamall-crm/internal/courier/repository.go:854-880 | In the protocol with a lock that makes no one wait, two submissions statement by statement in turn leave orders claimed once if and only if nothing was eligible |
| HandoverRuns.RevivalDoubleClaims | megamall-crm/internal/logistics/repository.go:1076-1143 | A run from empty tables (deliver, submit, reject, submit) after which EditHandover from rejected to confirmed double-links the order |
| HandoverRuns.StaleRevivalDoubleClaims | megamall-crm/internal/logistics/repository.go:1076-1143 | A run from empty tables (deliver, submit, reject, submit again up to its reads) after which the same edit keeps the order claimed once and the commit claims it twice |
| HandoverRuns.StaleRaiseExceedsDebt | megamall-crm/internal/courier/service.go:685-726 | A run from empty tables after which confirming a raised amount stays within the debt and the commit of a submission checked before goes over it |
| HandoverRuns.UndeclaredExceedsDebt | megamall-crm/internal/courier/service.go:572-588 | A run from empty tables to a state where everything earned is declared, and a submission without an amount that then takes open declarations over the debt |
| HandoverService.Service.constructor | megamall-crm/internal/courier/service.go:100-118 | A service over delivered orders and no handovers, in a valid state |
| HandoverService.Service.GetHandoverPaymentLimit | megamall-crm/internal/courier/repository.go:882-942 | The three numbers of the limit query |
| HandoverService.Service.BuildLines | megamall-crm/internal/courier/service.go:589-625 | The loop over eligible orders builds one line each and the three totals are the sums of the lines |
| HandoverService.Service.SubmitHandover | megamall-crm/internal/courier/service.go:533-646 | Performs the specified submission or changes nothing; orders stay claimed once, the courier has none left to hand over and the balance falls by what was declared |
| HandoverService.Service.ConfirmHandover | megamall-crm/internal/courier/service.go:685-726 | Keeps every order claimed once; moves only the courier's balance, by the change in the handover's weight, or changes nothing |
| HandoverService.Service.ConfirmTransaction | megamall-crm/internal/courier/service.go:728-763 | Keeps every order claimed once; on a courier-app handover debt and pending both fall by the accepted amount |
| HandoverService.Service.RejectHandover | megamall-crm/internal/courier/service.go:765-796 | Keeps every order claimed once; exactly the linked orders become eligible again and the accepted amount goes back to the balance |
| HandoverService.Service.UpdateHandover | megamall-crm/internal/logistics/repository.go:1015-1074 | Keeps every order claimed once; moves only the courier's balance, by the change in the handover's weight, or changes nothing |
| HandoverService.Service.EditHandover | megamall-crm/internal/logistics/repository.go:1076-1143 | Keeps every order claimed once if and only if it does not revive a handover whose orders were claimed again; moves the balance by the change in weight |
| HandoverService.Service.DeleteHandover | megamall-crm/internal/logistics/repository.go:1212-1221 | Keeps every order claimed once; exactly the linked orders become eligible again and the amount goes back to the balance |
| HandoverService.Service.CreateHandover | megamall-crm/internal/logistics/repository.go:997-1013 | Keeps every order claimed once, makes no order ineligible and takes the entry's total off the balance |
| HandoverReports.GroupSumIsTotal | megamall-crm/internal/logistics/repository.go:486-519 | GROUP BY courier in any scan order gives every courier the sum over its rows |
| HandoverReports.OneDebt | megamall-crm/internal/dispatch/repository.go:136-161 | The grouped debt of ListCouriers, the joined debt of GetCouriersOverview and the per-courier debt of the courier app are one number |
| Commission.CentsOfWhole | megamall-crm/internal/compensation/service.go:625-628 | round2 leaves whole cents alone when they are not negative and adds a cent when they are |
| Commission.ShareBounds | megamall-crm/internal/compensation/service.go:566-600 | Shares are monotone in the rate and never exceed non-negative revenue |
| Commission.Residual | megamall-crm/internal/compensation/service.go:573-584 | Pool less seller less manager is never below -1 cent, and is -1 exactly when rounding overdraws the pool |
| Commission.SharesOfRevenue | megamall-crm/internal/compensation/service.go:546-620 | For net revenue n >= 0 all shares are >= 0 and add up to n, or to n + 1 for an overdrawn seller order |
| Commission.AcceptedExactly | megamall-crm/internal/compensation/service.go:563-612 | The split is refused exactly when the commissions the order type pays exceed the pool rate |
| Commission.WhoGetsWhat | megamall-crm/internal/compensation/service.go:546-622 | For revenue that is not negative, by order type: seller and manager each get their rate's share to the nearest cent where the type pays them and nothing otherwise; the company keeps all but the pool rate's share; the pool gets that share less the commissions, never less than nothing; a house order is the company's alone |
| Commission.SharesOfLoss | megamall-crm/internal/compensation/service.go:546-628 | For a loss the shares always add up to more than it |
| Commission.ConservedExactly | megamall-crm/internal/compensation/service.go:519-536 | The documented exact split holds if and only if n >= 0 and rounding does not overdraw the pool of a seller order |
| Commission.OneCentTooMany | megamall-crm/internal/compensation/service.go:573-584 | One cent at 50% + 50% of a 100% pool hands out two |
| Commission.NoManagerNoCut | megamall-crm/internal/compensation/service.go:527-536 | Without a manager nothing is paid to one and a non-negative split is exact |
| RateBook.CreateKeepsOneOpen | megamall-crm/internal/compensation/service.go:104-139 | A valid creation is never refused by the unique index and leaves at most one open configuration per scope and type |
| RateBook.DisableKeepsOneOpen | megamall-crm/internal/compensation/service.go:202-223 | So does disabling |
| RateBook.CreateKeepsDisjoint | megamall-crm/internal/compensation/service.go:104-139 | A creation keeps windows disjoint if and only if no closed window of the scope and type reaches past its start |
| RateBook.OldCover | megamall-crm/internal/compensation/service.go:104-139 | What covers an instant after a creation is the new row from its start on or covered it before |
| RateBook.DisableKeepsDisjoint | megamall-crm/internal/compensation/service.go:202-223 | Disabling keeps windows disjoint |
| RateBook.CoveringIsRate | megamall-crm/internal/compensation/repository.go:103-140 | With disjoint windows the covering configuration is the answer |
| RateBook.LatestWins | megamall-crm/internal/compensation/repository.go:103-140 | Of the configurations that cover an instant, overlapping or not, the one that started last is the answer |
| RateBook.ResolvedLayers | megamall-crm/internal/compensation/resolver.go:48-103 | The person's rate wins over the team's and the team's over the global one |
| RateBook.CreateWrites | megamall-crm/internal/compensation/service.go:77-187 | A creation is refused exactly for a rate outside (0, 1] or a taken key; it inserts one open row and closes the one open for the scope and type a millisecond before |
| RateBook.DisableWrites | megamall-crm/internal/compensation/service.go:189-254 | Exactly an open row is closed, at the given instant, and no other row changes |
| RateBook.CreateIsStep | megamall-crm/internal/compensation/service.go:104-139 | The rate after a creation: the new one from its start on, none in the millisecond before a change, the old one earlier |
| RateBook.CreateIsLocal | megamall-crm/internal/compensation/service.go:104-139 | Other scopes and types keep their rates, whatever windows the book holds |
| RateBook.DisableIsStep | megamall-crm/internal/compensation/service.go:189-254 | Disabling ends the rate from the given instant on and changes nothing before |
| RateBook.DisableIsLocal | megamall-crm/internal/compensation/service.go:189-254 | Other scopes and types keep their rates, whatever windows the book holds |
| RateBook.PastRatesStay | megamall-crm/internal/compensation/resolver.go:48-103 | A new configuration leaves every rate resolved more than a millisecond before its start unchanged, through all three levels, whatever windows the book holds |
| RateBook.GapFallsThrough | megamall-crm/internal/compensation/resolver.go:48-103 | In the millisecond before an employee's rate changes the employee resolves to the team or global rate |
| RateBook.GapHasNoRate | megamall-crm/internal/compensation/resolver.go:83-103 | In the millisecond before a global rate changes nothing resolves globally |
| RateBook.RunKeepsOneOpen | megamall-crm/internal/compensation/repository.go:54-90 | Any run of creations and disables has at most one open configuration per scope and type |
| RateBook.RunKeepsDisjoint | megamall-crm/internal/compensation/service.go:104-139 | Any run whose creations start after the closed windows keeps windows disjoint |
| RateBook.RunIsStepFunction | megamall-crm/internal/compensation/repository.go:103-140 | Over such runs the rate of a scope is the step function of the change log at every instant outside the gaps |
| RateBook.ResolvedIsExpected | megamall-crm/internal/compensation/resolver.go:48-103 | And so is the rate resolved employee, then team, then global |
| RateBook.Service.constructor | megamall-crm/internal/compensation/service.go:28-49 | A service with no configurations |
| RateBook.Service.GetActiveConfig | megamall-crm/internal/compensation/repository.go:54-90 | Finds the open configuration of a scope and type if there is one |
| RateBook.Service.CloseConfig | megamall-crm/internal/compensation/repository.go:35-52 | Closes an open row and reports failure on any other |
| RateBook.Service.CreateConfig | megamall-crm/internal/compensation/service.go:77-178 | Performs the specified creation or changes nothing |
| RateBook.Service.DisableConfig | megamall-crm/internal/compensation/service.go:189-254 | Performs the specified closing or changes nothing |
| LiveIncome.TallyLive | megamall-crm/internal/compensation/live_income.go:132-171 | The memoised loop credits every row what recomputing that row alone would give: frozen if paid, recomputed if unpaid, frozen if that fails |
| LiveIncome.GetTeamIncomeLive | megamall-crm/internal/compensation/live_income.go:116-203 | Members, order set and team figures of the live report |
| LiveIncome.TeamTotals | megamall-crm/internal/compensation/live_income.go:177-193 | The loop over the members lists each once and adds up in that order |
| LiveIncome.AddTypes | megamall-crm/internal/compensation/live_income.go:189-192 | Adds a member's figures by type to the team's, in any order |
| LiveIncome.BuildTeamReport | megamall-crm/internal/compensation/income_service.go:286-332 | Members and team figures of the frozen report, and orders_count: the largest of each member's rows and of all rows |
| LiveIncome.Detailed | megamall-crm/internal/compensation/income_repository.go:237-257 | Every row carries the columns of its own order and is no courier fee |
| LiveIncome.DetailedRows | megamall-crm/internal/compensation/income_repository.go:237-257 | The live report's rows are exactly the lead's events of the period that have a payee, belong to no deleted order and are no courier fee, each once and in order |
| LiveIncome.EntriesRows | megamall-crm/internal/compensation/income_repository.go:196-232 | The frozen report's rows are exactly those events, courier fees apart, at the recorded amounts |
| LiveIncome.LiveRatesAre | megamall-crm/internal/compensation/live_income.go:49-67 | A live split takes the seller's rate without team level, the manager's two rates and the team lead's pool rate with it, and needs a global company rate |
| LiveIncome.UnpaidRow | megamall-crm/internal/compensation/live_income.go:139-164 | An unpaid row whose order can be split today is credited the column of the split that its type names |
| LiveIncome.RecordedRow | megamall-crm/internal/compensation/live_income.go:139-164 | A paid row, and one whose order cannot be split today, is credited the recorded amount |
| LiveIncome.UnpaidSeller | megamall-crm/internal/compensation/live_income.go:31-67 | An unpaid seller's commission on a seller order is today's rate of its net revenue to the nearest cent |
| LiveIncome.TallyOrders | megamall-crm/internal/compensation/live_income.go:122-169 | A member's orders are exactly those the member is credited for |
| LiveIncome.RollingDips | megamall-crm/internal/compensation/service.go:625-628 | A rounded running total is the sum and one cent for every time it dips below zero |
| LiveIncome.RollingIsSum | megamall-crm/internal/compensation/service.go:625-628 | A rounded running total is the exact sum if and only if no running sum is ever negative, and above it otherwise |
| LiveIncome.TallyTotal | megamall-crm/internal/compensation/live_income.go:166-167 | A member is listed exactly when credited, with the rounded running total of the member's entries |
| LiveIncome.TallyByType | megamall-crm/internal/compensation/live_income.go:166 | A type is listed exactly when credited, with the rounded running total of its entries |
| LiveIncome.TypeTallyFigures | megamall-crm/internal/compensation/income_service.go:313-317 | The frozen report's team figure of a type is the rounded running total of that type's rows |
| IncomeReports.MemberAddsUp | megamall-crm/internal/compensation/live_income.go:166-175 | A member's total is the sum of the member's figures by type if and only if the entries dip below zero together as often as type by type |
| IncomeReports.DipsDoNotAddUp | megamall-crm/internal/compensation/live_income.go:166-167 | +1.00 and -0.50 of two types: 0.50 in total and 0.51 by type |
| IncomeReports.DipsCanAddUp | megamall-crm/internal/compensation/live_income.go:166-167 | -0.50 of one type: -0.49 in total and by type |
| IncomeReports.ShownIs | megamall-crm/internal/compensation/live_income.go:166-167 | Every figure of a member is the sum of its entries and a cent for every dip |
| IncomeReports.TeamAddsUp | megamall-crm/internal/compensation/live_income.go:177-193 | The team total is the sum of all entries if and only if no member's running total dips, whatever order the member map yields; it is the sum of the members' totals if and only if it does not dip itself |
| IncomeReports.TeamTypesAddUp | megamall-crm/internal/compensation/live_income.go:177-193 | The same for the team's figure of every type, by the members' running totals of that type alone |
| IncomeReports.GroupingSum | megamall-crm/internal/compensation/income_repository.go:196-229 | GROUP BY user, type loses nothing a filter by user and type could tell |
| IncomeReports.DetailedIsCoherent | megamall-crm/internal/compensation/income_repository.go:237-257 | Rows of one order agree on its columns, so one recomputation serves them all |
| IncomeReports.PaidIsFrozen | megamall-crm/internal/compensation/live_income.go:139-141 | Rows covered by a cutoff are credited as recorded, whatever today's rates are |
| IncomeReports.FrozenAddsUp | megamall-crm/internal/compensation/income_service.go:286-332 | A figure of the frozen report is the sum of the events it was grouped from if and only if its grouped rows never dip |
| IncomeReports.LiveMatchesFrozen | megamall-crm/internal/compensation/live_income.go:132-192 | With every event covered, a figure of the frozen report is the live one plus the courier fees if and only if both were rounded up equally often |
| IncomeReports.NonnegativeNeverDips | megamall-crm/internal/compensation/live_income.go:132-192 | With no negative amount no figure of either report is ever rounded up |
| IncomeReports.NonnegativeMatches | megamall-crm/internal/compensation/income_service.go:286-332 | With every row paid out and no negative amount, team total, type, member and member-by-type figures of the frozen report are the live ones plus the courier fees |
| IncomeReports.FeesAreCourierFees | megamall-crm/internal/compensation/income_repository.go:231-257 | Courier fees touch no other type, so those figures agree exactly |
| Budget.RecalcBalances | megamall-crm/internal/budget/repository.go:309-328 | From any ledger, however stale, the recalculation makes every balance_after the prefix sum in (created_at, id) order |
| Budget.RecalcIsIncremental | megamall-crm/internal/budget/repository.go:309-328 | On a balanced ledger it changes no visible row: appending and recalculating agree |
| Budget.LastIsNet | megamall-crm/internal/budget/repository.go:39-60 | The last visible balance is manualNet |
| Budget.ToppedUp | megamall-crm/internal/budget/repository.go:219-241 | A top-up is refused exactly for a negative amount or a taken key; it adds one manual_income row and raises the net by its amount |
| Budget.Withdrawn | megamall-crm/internal/budget/repository.go:248-272 | A withdrawal adds one owner_withdrawal row and lowers the net by its amount, below zero if need be |
| Budget.Edited | megamall-crm/internal/budget/repository.go:277-302 | An edit is accepted exactly for a visible row at an amount that is not negative; it changes that amount and, balances apart, nothing else |
| Budget.AppendKeepsBalanced | megamall-crm/internal/budget/repository.go:219-269 | An append keeps every balance exact if and only if no visible row is later (or it is empty and the later rows cancel out) |
| Budget.AppendBalances | megamall-crm/internal/budget/repository.go:219-269 | The same for an append that read any net: exact if and only if the net it read is that of the rows before it |
| Budget.EditMovesLater | megamall-crm/internal/budget/repository.go:277-306 | An edit moves the balance of every visible row from the edited one on by the change, and no earlier one |
| Budget.ConcurrentAppends | megamall-crm/internal/budget/repository.go:219-269 | Two appends that read the same net stay balanced if and only if the first was empty |
| Budget.StepKeepsBalanced | megamall-crm/internal/budget/repository.go:219-328 | Every operation keeps the ledger balanced |
| Budget.RunKeepsBalanced | megamall-crm/internal/budget/repository.go:219-328 | So does every run with increasing timestamps |
| Budget.Repository.constructor | megamall-crm/internal/budget/repository.go:26-31 | A repository over imported rows |
| Budget.Repository.Net | megamall-crm/internal/budget/repository.go:39-60 | manualNet without bounds |
| Budget.Repository.TopUp | megamall-crm/internal/budget/repository.go:219-241 | Performs the specified top-up or changes nothing, and returns net plus live profit |
| Budget.Repository.Withdraw | megamall-crm/internal/budget/repository.go:248-270 | Performs the specified withdrawal, whatever the balance, or changes nothing |
| Budget.Repository.Update | megamall-crm/internal/budget/repository.go:277-306 | Performs the specified edit and leaves every balance exact, or changes nothing |
| Budget.Repository.RecalcBalanceAfter | megamall-crm/internal/budget/repository.go:313-328 | Accumulating row by row in (created_at, id) order writes the window sum to every row |
| Withdrawals.StepIsSound | megamall-crm/internal/budget/withdrawal_requests.go:82-201 | Every statement of approvals, rejections, sweeps and ledger operations keeps locks, statuses and ledger rows consistent |
| Withdrawals.RunIsSound | megamall-crm/internal/budget/withdrawal_requests.go:82-201 | So does every interleaving |
| Withdrawals.OneRowEach | megamall-crm/internal/budget/withdrawal_requests.go:97-126 | In every interleaving an approved request has exactly one owner_withdrawal row, the one in transaction_id, and no other request has any |
| Withdrawals.DecidedOnce | megamall-crm/internal/budget/withdrawal_requests.go:75-81 | In every interleaving a request leaves pending at most once and its final row never changes |
| Withdrawals.StepKeepsFaithful | megamall-crm/internal/budget/withdrawal_requests.go:101-108 | A ledger row keeps its request's amount under everything but an owner's edit of that row |
| Withdrawals.RunKeepsFaithful | megamall-crm/internal/budget/withdrawal_requests.go:101-108 | So over every interleaving without such an edit |
| Withdrawals.EditMovesWithdrawn | megamall-crm/internal/budget/repository.go:277-306 | An owner's edit of such a row moves the withdrawn total by the change and the approved one not at all |
| Withdrawals.ApprovedIsWithdrawn | megamall-crm/internal/budget/withdrawal_requests.go:97-126 | In every interleaving in which no owner edits such a row, what approvals took from the ledger is the sum of the approved requests |
| Withdrawals.CommitKeepsBalanced | megamall-crm/internal/budget/withdrawal_requests.go:97-112 | An approval keeps stored balances exact if and only if the net it read is still current when it commits |
| Withdrawals.SweepReports | megamall-crm/internal/budget/withdrawal_requests.go:167-201 | What the sweep reports is what it expired if and only if no reported request was decided in between |
| Withdrawals.SweepReportsApproved | megamall-crm/internal/budget/withdrawal_requests.go:167-201 | An approval between the sweep's two statements is reported as expired |
| Withdrawals.UninterruptedApproval | megamall-crm/internal/budget/withdrawal_requests.go:82-131 | An approval nobody interrupts is ApproveWithdrawalRequest as one transaction |
| Withdrawals.UninterruptedRejection | megamall-crm/internal/budget/withdrawal_requests.go:136-158 | A rejection nobody interrupts is RejectWithdrawalRequest as one transaction |
| Withdrawals.UninterruptedSweep | megamall-crm/internal/budget/withdrawal_requests.go:170-190 | A sweep that finds its rows unlocked expires exactly the overdue pending requests, in whatever order it visits them |
| Withdrawals.AbortFrees | megamall-crm/internal/budget/withdrawal_requests.go:82-95 | A transaction that gives up leaves the tables alone and its rows to others |
| Withdrawals.SingleStatements | megamall-crm/internal/budget/withdrawal_requests.go:21-34 | A request is submitted in one statement, as asked for |
| Withdrawals.CreatedRequest | megamall-crm/internal/budget/withdrawal_requests.go:21-34 | A request for a positive amount is stored pending, with its amount and expiry |
| Withdrawals.ApprovedRequest | megamall-crm/internal/budget/withdrawal_requests.go:82-134 | Exactly a pending request is approved: one owner withdrawal of its amount, stamped with the net it leaves and named in the request |
| Withdrawals.RejectedRequest | megamall-crm/internal/budget/withdrawal_requests.go:136-156 | Exactly a pending request is rejected; only its status changes |
| Withdrawals.SweptRequests | megamall-crm/internal/budget/withdrawal_requests.go:170-190 | The sweep expires exactly the pending requests whose time has passed |
| Withdrawals.ApplyAllKeepsBalanced | megamall-crm/internal/budget/withdrawal_requests.go:97-112 | One after the other, approvals, top-ups, withdrawals and retroactive edits with increasing timestamps keep every balance_after the prefix sum |
| Withdrawals.Repository.constructor | megamall-crm/internal/budget/withdrawal_requests.go:21-34 | A repository with a ledger and no requests |
| Withdrawals.Repository.CreateWithdrawalRequest | megamall-crm/internal/budget/withdrawal_requests.go:21-34 | Adds a new pending request, decides none, loses none and leaves the ledger alone |
| Withdrawals.Repository.Approve | megamall-crm/internal/budget/withdrawal_requests.go:82-131 | Only a pending request is approved; it gets a ledger row of its own over its amount, which comes off the net, and no decided request changes |
| Withdrawals.Repository.Reject | megamall-crm/internal/budget/withdrawal_requests.go:136-158 | Only a pending request is rejected; no ledger row is written, no decided request changes and approved ones keep their rows |
| Withdrawals.Repository.ExpirePendingRequests | megamall-crm/internal/budget/withdrawal_requests.go:170-201 | On its own the sweep expires exactly the overdue pending requests and returns them; ledger and decided requests stay |
| Hierarchy.ChainMeans | megamall-crm/internal/hierarchy/repository.go:84-114 | The walk returns exactly the users with an entry that are fewer than ten links above, in any table |
| Hierarchy.LinkClosesCycle | megamall-crm/internal/hierarchy/repository.go:116-130 | In an acyclic hierarchy a new parent link closes a cycle if and only if the parent reaches the user |
| Hierarchy.AssignKeepsAcyclic | megamall-crm/internal/hierarchy/service.go:36-91 | An accepted assignment keeps the hierarchy acyclic if and only if the check missed nothing: the user has an entry and is within ten links |
| Hierarchy.RootedIsExact | megamall-crm/internal/hierarchy/repository.go:118-130 | If the walk from the parent ends at an entry with no parent, the check answers exactly |
| Hierarchy.TwoAssignmentsCloseACycle | megamall-crm/internal/hierarchy/service.go:36-91 | Two accepted assignments from an empty table make two users each other's parent |
| Hierarchy.TeamKeepsAncestors | megamall-crm/internal/hierarchy/repository.go:36-52 | Attaching a user to a team changes no parent link and no ancestor of anyone |
| Hierarchy.AssignWrites | megamall-crm/internal/hierarchy/service.go:36-91 | An assignment is refused exactly for a missing user, parent or team, for oneself as parent and for a cycle the check sees; the entry then holds parent and team |
| Hierarchy.TeamWrites | megamall-crm/internal/hierarchy/service.go:98-107 | A team assignment of an existing user sets the team, keeps the parent and touches no other entry |
| Hierarchy.StepKeepsAcyclic | megamall-crm/internal/hierarchy/service.go:36-107 | An assignment or team assignment keeps the hierarchy acyclic if and only if it is not an accepted assignment whose cycle the check missed |
| Hierarchy.RunKeepsAcyclic | megamall-crm/internal/hierarchy/service.go:36-107 | The hierarchy stays acyclic throughout a run if and only if the check missed no accepted assignment of it |
| Hierarchy.LongChainClosesACycle | megamall-crm/internal/hierarchy/repository.go:84-130 | Assignments from an empty table that put users one under the next; putting the last under the first is refused exactly when the chain has fewer than ten links, and otherwise is accepted and closes a cycle |
| Hierarchy.Service.constructor | megamall-crm/internal/hierarchy/service.go:31-33 | A service over an empty hierarchy |
| Hierarchy.Service.GetChainUpward | megamall-crm/internal/hierarchy/repository.go:84-114 | The loop returns the user and the users above, in order, up to the top, a missing entry, a repetition or ten entries |
| Hierarchy.Service.WouldCreateCycle | megamall-crm/internal/hierarchy/repository.go:118-130 | True exactly when the user has an entry and is fewer than ten links above the parent |
| Hierarchy.Service.Assign | megamall-crm/internal/hierarchy/service.go:36-91 | Performs the specified assignment or changes nothing |
| Hierarchy.Service.AssignTeamID | megamall-crm/internal/hierarchy/service.go:98-107 | Sets the team and keeps the parent, or changes nothing |
| ActivityLog.StepIsSound | megamall-crm/internal/activity/logger.go:44-134 | Every step keeps batches ++ pending ++ channel equal to the accepted entries in order, pending below a batch while running, and batches nonempty and bounded but for the drain's |
| ActivityLog.HandsOver | megamall-crm/internal/activity/logger.go:87-134 | Everything pending becomes one batch exactly when the ticker fires, when the drain is through, and with the received entry when that makes a hundred |
| ActivityLog.Moves | megamall-crm/internal/activity/logger.go:44-134 | An entry is accepted exactly while fewer than 500 are queued; loop and drain take one entry at a time; the goroutine drains once stopped and returns on an empty channel |
| ActivityLog.RunIsSound | megamall-crm/internal/activity/logger.go:44-134 | So does every interleaving of callers, ticker, shutdown and goroutine |
| ActivityLog.ReturnHandsAll | megamall-crm/internal/activity/logger.go:119-131 | When the goroutine returns, everything accepted so far has been handed over |
| ActivityLog.LateEntriesStay | megamall-crm/internal/activity/logger.go:44-54 | After that no batch is written: everything accepted was handed over if and only if the channel is empty |
| ActivityLog.LateEntryIsLost | megamall-crm/internal/activity/logger.go:44-54 | An entry logged after the goroutine returned is accepted and never handed over |
| ActivityLog.DrainIsOneBatch | megamall-crm/internal/activity/logger.go:119-131 | Undisturbed, the drain ends with one batch of everything, whatever its size |
| ActivityLog.Logger.constructor | megamall-crm/internal/activity/logger.go:31-39 | A running logger with nothing accepted |
| ActivityLog.Logger.LogAsync | megamall-crm/internal/activity/logger.go:44-54 | Accepts the entry exactly when the buffer has room and never blocks |
| ActivityLog.Logger.Flush | megamall-crm/internal/activity/logger.go:97-108 | Hands over everything pending, nothing when there is nothing |
| ActivityLog.Logger.Receive | megamall-crm/internal/activity/logger.go:112-116 | Takes one entry and flushes exactly when a batch is full |
| ActivityLog.Logger.Tick | megamall-crm/internal/activity/logger.go:118-119 | Flushes |
| ActivityLog.Logger.Shutdown | megamall-crm/internal/activity/logger.go:68-72 | Closes the stop channel |
| ActivityLog.Logger.Stop | megamall-crm/internal/activity/logger.go:121-133 | Hands over pending and channel as one batch and returns with everything accepted handed over |
| Tariffs.OverlapIsShared | megamall-crm/internal/courier_tariffs/service.go:28-40 | rangesOverlap is true if and only if the two brackets share an amount |
| Tariffs.AddKeepsDisjoint | megamall-crm/internal/courier_tariffs/service.go:50-60 | Adding a stored bracket keeps brackets disjoint if and only if the check finds no overlap |
| Tariffs.CreateKeepsGood | megamall-crm/internal/courier_tariffs/service.go:42-77 | A creation keeps every bracket nonempty and all disjoint |
| Tariffs.DeleteKeepsGood | megamall-crm/internal/courier_tariffs/repository.go:66-74 | So does a deletion |
| Tariffs.ConcurrentCreations | megamall-crm/internal/courier_tariffs/service.go:50-73 | Two creations checked against the same rules stay disjoint if and only if they do not overlap each other |
| Tariffs.RunKeepsGood | megamall-crm/internal/courier_tariffs/service.go:42-92 | So does every run |
| Tariffs.OnlyMatch | megamall-crm/internal/courier_tariffs/repository.go:78-93 | The first match is the only match: the payout does not depend on the scan order |
| Tariffs.PayoutIs | megamall-crm/internal/courier_tariffs/model.go:45-59 | A rule pays within [from, to) only: a fixed rule its value, a percent rule that percentage of the order, unrounded |
| Tariffs.CreateWrites | megamall-crm/internal/courier_tariffs/service.go:42-77 | A rule is accepted exactly for a nonempty bracket, a positive value (at most 100 for a percentage) and no overlap within courier and delivery type |
| Tariffs.DeleteWrites | megamall-crm/internal/courier_tariffs/repository.go:66-74 | A deletion removes the named rule if it is the courier's, and nothing else |
| Tariffs.PercentWithinOrder | megamall-crm/internal/courier_tariffs/model.go:45-59 | A percent rule never pays more than the order amount |
| Tariffs.ZeroMeansNoRule | megamall-crm/internal/courier_tariffs/repository.go:76-93 | A zero means that no rule matches, except exactly for a percent bracket that covers an order of zero |
| Tariffs.Service.constructor | megamall-crm/internal/courier_tariffs/service.go:14 | A service with no rules |
| Tariffs.Service.CreateRule | megamall-crm/internal/courier_tariffs/service.go:42-77 | Performs the specified creation or changes nothing |
| Tariffs.Service.DeleteRule | megamall-crm/internal/courier_tariffs/repository.go:66-74 | Removes the rule if it belongs to the courier |
| Tariffs.Service.ResolveForOrder | megamall-crm/internal/courier_tariffs/repository.go:78-93 | The first match of the listing, zero without one |

## Left out

- HTTP handlers, request validation tags, pagination, authorisation, notifications, media proofs, seeding: input and output only.
- Audit rows (activity entries, `adjustments`, `writeoffs`, receiving edits, record edits, handover edits), notes and reasons: written beside the ledgers and read by none of the modelled decisions. A write-off edit does not update its `writeoffs` row, which the model therefore does not have.
- The sale-price update of a receipt, goods-receipt headers and supplier data: they touch no ledger modelled here.
- UUIDs, clock readings and the business date are parameters; a key that is taken refuses the insert. Expiry parsing is an optional date, absent when missing or malformed.
- Floating point: amounts are exact cents or rationals, so drift of `float64` sums below a cent is not modelled; a requested rate is already a multiple of 1/100000.
- SQL text: queries are filters, sums and sorts over maps; scan orders are arbitrary where no ORDER BY fixes them.
- Courier warehouses and their transfers, pharmacy documents: not part of this model, so a sale is always from the main warehouse and issues and returns stand for the main warehouse's side of a transfer.
- The order status machine: reserving, releasing and blocking are operations that set a stock row's columns to a given number, and the delivery of an order is one sale per item.
- Two dispatchers deciding on one handover at the same time: the program reads and saves without a row lock, so decisions are single steps here and only submissions are interleaved.
- Dashboard figures with other formulas (`GetDashboard`, `GetCourier`, `ListCouriersWithOutstandingCash`) and dispatcher settlements.
- HandoverReports.OneDebt: covers the debt columns only, not the counts and period figures of the same reports.
- IncomeReports.LiveMatchesFrozen: compares money, not `orders_count`, which is a maximum over grouped rows in the frozen report and a count of distinct orders in the live one.
- HandoverService.Service.constructor: asks that payouts of delivered orders are not negative; the schema does not, but tariffs and payout settings never yield a negative one.
- RateBook.RunIsStepFunction: is about runs whose creations start after the windows already closed; `RateBook.CreateKeepsDisjoint` shows that this is exactly when windows stay disjoint.
- ActivityLog.StepIsSound: counts batches handed to `BatchInsert`; a batch whose insert fails is logged and dropped by the program, and `LogSync` is not modelled.
- Budget listings and period sums; the live profit from Finance is a parameter.
