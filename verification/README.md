# Books, returns and offline sales

A Dafny model of the accounting core of a shop-management system: a NestJS server
(`apps/api`) and a point-of-sale web client (`apps/web`).  Every business document (sale,
purchase, return, payment, transfer between parties) is one kind of row, and posting it moves item
stock, warehouse levels, party balances with their ledger, money accounts with cheques, and the
paid and open amounts of other bills.

## How the engine is modelled

`Books` holds the rows a business keeps, and for every derived column a function that recomputes it
from the rows alone (`StockDue`, `LevelDue`, `PartyDue`, `AccountDue`, `PaidDue`).  `TxnCore.Engine`
is the imperative engine: its fields are the rows and the running columns, its methods loop over
lines, payments and allocations as the server does, and every one of them keeps the columns equal to
the recomputation (`Valid()`) and changes the rows as the functions in `Steps` say.  `Runs` strings
the operations together and `Performing` shows that the engine does what the runs say; `Recycle`,
`History` and `Restoring` are about deleting and restoring, `Soundness`, `Agreement` and
`Reconciliation` about what whole runs keep, `Boundaries` about where they do not, and `DataCheck`
about what the server's own check of the columns reports.  `Billing` puts pricing, branches and credit
limits in front of the engine.

`net` on a document, payment or allocation row counts how often its effect was added less how often
it was taken back.  No method branches on it; with it the columns are described exactly also
where posting and reversing do not match up.  A row's id is its place in its table, and rows are never
physically removed, as in the server (deleting sets a flag).

The other modules stand beside the engine: `Numbering` (with `Digits`), `Pricing`, `Refunds`, `Returns`,
`OverReturn`, `GoodsBound`, `ReturnGrid`, `ReturnDialog`, `Receipts`, `Fifo`, `PosTotals`, `OfflineSync`,
`ExactlyOnce`, `SyncServer`, `Lifecycle`, `Conversions`, `Cheques`, `Csv` and `Barcode`.  Amounts are exact reals; a
returned quantity is stored in thousandths, as the database does.  A database transaction is one step
that happens whole or not at all; an update "where status is ..." is a compare-and-swap; the advisory
lock on a client key is a mutex held until its request is over.

## Where the code falls short of what it promises

The project's own description says that each transaction atomically updates everything and that
deletes reverse all effects.  The model follows the code.  Proved boundaries:

- Deleting puts money back exactly when every payment's account is of the document's own branch, or no
  account was found then and none is now (`DeleteErasesMoney`, `NewRowComesBack`); a sale whose cash
  fell back to another branch's till leaves it there (`CashOfAnotherBranchStays`).
- It restores the party exactly when the document was charged with what its payment rows say
  (`DeleteErasesParty`).  A created document always was; a charged held bill was exactly when no payment
  was negative (`DeleteAfterCharging`), and the server accepts negative ones (`NegativeChargeStays`).
- A held bill can be deleted and then charged; allocating to one, deleting its conversion, claiming it
  for conversion or marking it refunded lifts its hold without posting it.  `SoundNext` is the exact
  condition, `DeletedHoldIsCharged` and `HoldsAreLifted` are instances.
- Restoring a conversion does not close its source again (`CreateThenCycles`), and overlapping deletions of
  one, or deleting or giving up one of a part, open it although another has taken it: a source can have two
  live conversions (`RestoringBreaksIt`, `TwoDeletionsBreakIt`, `DeletedPartBreaksIt`).
  `OneConversionExactlyWhen` is the exact condition.
- Deletions and restorings that overlap take a document's effects back, or give them again, more than once
  (`DeletedTwice`); `StraightExactlyWhen` is the exact condition.
- Moving stock to the warehouse it is in makes it appear from nothing (`TransferBetween`).
- Allocation discounts are never taken off the party's balance (`ControlAccount`).
- The check of one shop reports right balances when something was booked elsewhere, and its fix then
  makes them wrong (`CleanExactlyWhen`, `FixSpoilsExactly`); every transfer between parties is booked
  without a shop (`TransfersLookLikeDrift`).
- A direct sale is held to the credit limit only by the total the client states, and not at all when it
  states none, as the till does (`InvoiceKeepsLimitExactlyWhen`); charging a held bill keeps the limit
  (`ChargeKeepsLimit`).
- A returned quantity is checked as asked and stored rounded to thousandths.  A request stays within what
  was sold exactly when what it stores fits (`StaysSettledExactlyWhen`), which holds of every request in
  thousandths (`NeverMoreThanSold`); half thousandths come back double (`HalvesAreStoredDouble`).
  Restoring a credit note is not checked at all (`RestoringOverReturns`): it stays within what was sold
  exactly when what the note returned is still to be returned (`RestoringStaysSettledExactlyWhen`).
- Two requests under one client key can become two sales exactly when one of them brings a hold
  (`SellsTwiceExactlyWhen`); one request alone cannot (`SentByOneNeverSoldTwice`).
- A conversion of part of a held bill leaves the hold, and gives it back when it fails, without looking; a bill
  charged meanwhile is then charged again (`ChargedTwice`, `HoldGivenBackOwesTwice`).
  `PostedOnceExactlyWhen` is the exact condition.
- A stale reopening takes a cheque's money from the wrong account (`StaleReopening`);
  `AccountsKeptExactlyWhen` is the exact condition.
- The till's discount in money is ignored by the server, and its percentage goes stale when the cart
  changes: the amount shown is then the amount billed only if the gap, given in closed form, rounds away
  (`MoneyDiscountIgnored`, `ScreenAgreesExactlyWhen`).
- All retries for a unique barcode try the same one exactly when the SKU has five digits or more
  (`RetriesRepeatExactlyWhen`, `RetriesCannotHelp`).

## Model

| member | source | states |
|---|---|---|
| TxnCore.Engine.ApplyStock | apps/api/src/txns/txn-core.service.ts:199-291 | checking the stock line by line accepts exactly when, per tracked item, the converted demand of all lines together is covered; then stock and the branch's level move by exactly that demand |
| Laws.GuardStep | apps/api/src/txns/txn-core.service.ts:223-237 | the guard met at one line, after the lines before it were taken, decides exactly whether the lines so far are covered in total |
| TxnCore.Engine.MoveStock | apps/api/src/inventory/warehouse.util.ts:1-27 | stock moves at the first warehouse of the branch, which is found, claimed or added as the server does, and is recorded as a movement |
| Laws.ResolveKeepsLevels | apps/api/src/inventory/warehouse.util.ts:1-27 | claiming or adding a warehouse for a branch changes no stock level that is due anywhere |
| TxnCore.Engine.PostParty | apps/api/src/txns/txn-core.service.ts:657-680 | the party (both parties of a transfer) moves by the signed unpaid or total amount of its kind, and the ledger gets the entry with the new balance, of the document's branch, of none for a transfer |
| TxnCore.Engine.TenderPayments | apps/api/src/txns/txn-core.service.ts:415-455 | payments are stored and move the accounts they resolve to, opening one for the branch if it has none; refused exactly if a named account does not exist, as the foreign key of the row does |
| TxnCore.Engine.UndoPayments | apps/api/src/txns/txn-core.service.ts:359-387 | taking payments back undoes each settled cheque once, however many cheque payments there are, and never opens an account |
| TxnCore.Engine.RedoPayments | apps/api/src/txns/txn-core.service.ts:388-414 | restoring applies the stored payment rows again with fresh cheques, exactly if no row still has one |
| TxnCore.Engine.ApplyAllocations | apps/api/src/txns/txn-core.service.ts:492-534 | a payment's allocations raise the paid amounts of bills of the right kind and party and set the statuses these call for, or all are refused |
| TxnCore.Engine.ShiftAllocations | apps/api/src/txns/txn-core.service.ts:503-534 | deleting or restoring a payment takes its stored allocations back or gives them again, row by row, leaving the state in which all were shifted at once |
| TxnCore.Engine.CreateTxn | apps/api/src/txns/txn-core.service.ts:538-638 | accepted exactly when all checks pass; then written down, with the status asked for if one was, and posted unless that is held; otherwise nothing changes; all columns stay equal to their recomputation |
| TxnCore.Engine.ResumeHeld | apps/api/src/sale/sale.service.ts:68-139 | charges a held bill with its edited lines and given payments, or refuses and changes nothing |
| TxnCore.Engine.DeleteTxn | apps/api/src/txns/txn-core.service.ts:792-829 | deletes and reverses exactly when not deleted, not converted and with no allocation to it; reopens its source; columns stay right |
| TxnCore.Engine.RestoreTxn | apps/api/src/txns/txn-core.service.ts:831-859 | restores and posts again, or leaves every column as it was when the stock guard or a leftover cheque refuses |
| TxnCore.Engine.ClaimSource | apps/api/src/txns/txn-core.service.ts:868-898 | a conversion claims its source exactly when it is not closed or converted yet; an order of which only some lines are received and not everything is covered stays as it is; only the status changes and every column stays right |
| Receipts.ClosedOnceReceived | apps/api/src/txns/txn-core.service.ts:877-898 | claimed and then received in part, an order is closed exactly when its live receipts, this one among them, cover every line |
| TxnCore.Engine.ReleaseSource | apps/api/src/txns/txn-core.service.ts:923-927 | a conversion that failed gives its source the status it had before, unless that puts a bill on hold that has moved since |
| Runs.ReleaseKeepsWellFormedExactlyWhen | apps/api/src/txns/txn-core.service.ts:923-927 | giving any status back keeps the tables well formed exactly when it puts nothing on hold that has moved since, which the server does not look at |
| TxnCore.Engine.MarkRefunded | apps/api/src/sale/sale.service.ts:264-270 | an invoice whose lines have all come back is marked, whatever its status was |
| TxnCore.Engine.SettleCheque | apps/api/src/cash-bank/cash-bank.service.ts:187-211 | an open cheque's signed amount goes into the chosen account, nothing else changes |
| TxnCore.Engine.ReopenCheque | apps/api/src/cash-bank/cash-bank.service.ts:213-231 | a settled cheque's amount leaves the account it was settled into |
| TxnCore.Engine.CreateTransfer | apps/api/src/cash-bank/cash-bank.service.ts:131-169 | two-sided transfers, even from an account to itself, keep the total over all accounts; corrections move exactly one |
| TxnCore.Engine.CreateLoanTxn | apps/api/src/cash-bank/cash-bank.service.ts:241-326 | a loan's cash leg moves the chosen account by its signed amount |
| TxnCore.Engine.CreateAccount | apps/api/src/cash-bank/cash-bank.service.ts:60-81 | a new account starts at its opening balance and changes no other |
| TxnCore.Engine.CreateParty | apps/api/src/parties/parties.service.ts:106-160 | a new party's opening balance is its first ledger entry |
| TxnCore.Engine.CreateItem | apps/api/src/items/items.service.ts:163-244 | opening stock goes to the item and, if tracked and a branch is known, to that branch's warehouse |
| TxnCore.Engine.AdjustStock | apps/api/src/items/items.service.ts:307-356 | an adjustment moves item stock and the branch's level together |
| TxnCore.Engine.AdjustWarehouse | apps/api/src/inventory/inventory.service.ts:25-65 | an adjustment at a warehouse moves its level and the item's stock together |
| TxnCore.Engine.TransferBetween | apps/api/src/inventory/inventory.service.ts:67-127 | levels stay explained by their movements exactly when the two warehouses differ (or nothing is moved) |
| TxnCore.Engine.VerifyData | apps/api/src/utilities/utilities.service.ts:15-68 | for the whole business or one shop, reports exactly the parties, items and bills in scope that drift; a fix overwrites exactly those, and then nothing in scope drifts |
| DataCheck.BooksShowNoDrift | apps/api/src/utilities/utilities.service.ts:15-68 | columns as the engine keeps them show no drift to a check of everything, in parties and bills, nor in items whose stock is all placed |
| DataCheck.CleanExactlyWhen | apps/api/src/utilities/utilities.service.ts:18-62 | of right books a check reports nothing exactly when no party in scope was booked more than a paisa out of scope and no tracked item in scope has more than a thousandth of its stock there |
| DataCheck.FixSpoilsExactly | apps/api/src/utilities/utilities.service.ts:27-32 | the fix of one shop's check makes exactly the reported balances of right books wrong |
| DataCheck.TransfersLookLikeDrift | apps/api/src/txns/txn-core.service.ts:657-668 | a transfer between two parties of a shop makes its check report both exactly when it is more than a paisa |
| Performing.Perform | apps/api/src/txns/txn-core.service.ts:538-928 | every operation of a run is one the engine performs: it goes through exactly when allowed (a warehouse move also needs the stock), leaves the rows the run has next, and keeps every column right |
| Performing.PerformAll | apps/api/src/txns/txn-core.service.ts:538-928 | over a whole run every column equals its recomputation, every level the sum of its movements if warehouse moves are between different ones, and without such moves the rows are those of the run |
| Runs.RunKeepsWellFormed | apps/api/src/txns/txn-core.service.ts:538-928 | every run of operations, claims, releases and refund marks included, refused or not, keeps all references, stored payment totals, homes of stock and allocation rules |
| History.DeleteAfterAnything | apps/api/src/txns/txn-core.service.ts:792-829 | create, then any run without deleting or restoring it, then delete: stock, levels, bills and parties are as if it had never been posted, and accounts are exactly when every payment comes back |
| History.DeleteAfterCharging | apps/api/src/sale/sale.service.ts:68-139 | charge a held bill, then any run without deleting or restoring it, then delete: stock, levels and bills are as if it had never been posted, parties are exactly when none is on account or no payment was negative, accounts exactly when every payment comes back |
| History.ResumePostsOnce | apps/api/src/sale/sale.service.ts:106-138 | charging posts the bill once, counted as paid with all its payments, stored with the positive ones |
| History.RunLeavesIt | apps/api/src/txns/txn-core.service.ts:641-691 | no run of other operations changes a posted document's own figures or payment rows, but for cheque states and status flags |
| Recycle.DeleteErasesGoods | apps/api/src/txns/txn-core.service.ts:792-829 | deleting a document posted once leaves every stock, level and paid amount as if it had never been posted |
| Recycle.DeleteErasesParty | apps/api/src/txns/txn-core.service.ts:657-681 | parties are as if never posted exactly when the amount charged is the one its payment rows give |
| Recycle.DeleteErasesMoney | apps/api/src/txns/txn-core.service.ts:359-387 | accounts are as if never posted exactly when each payment comes back |
| Recycle.NewRowComesBack | apps/api/src/txns/txn-core.service.ts:472-489 | a new payment row comes back exactly when its account is of the document's branch, or it moved nothing and there is still nothing to move |
| Recycle.NegativePaymentsSkew | apps/api/src/sale/sale.service.ts:92-94 | counted as paid and stored as rows agree exactly when no payment is negative |
| Boundaries.CashOfAnotherBranchStays | apps/api/src/txns/txn-core.service.ts:472-489 | a concrete sale, accepted and posted by the engine's own rules, whose cash is still in another branch's till after deleting it |
| Boundaries.DeletedHoldIsCharged | apps/api/src/sale/sale.service.ts:68-111 | a concrete held bill that is deleted, charged, and then in the books though in the recycle bin |
| Boundaries.NegativeChargeStays | apps/api/src/sale/sale.service.ts:92-94 | a concrete held bill of ten, charged with minus five, which is accepted: deleted, the customer still owes five |
| Boundaries.HoldsAreLifted | apps/api/src/txns/txn-core.service.ts:870-897 | a concrete held bill of ten in sound books, converted or marked as refunded: its hold is gone, nothing is posted, and ten more are open than the customer owes |
| Boundaries.HoldGivenBackOwesTwice | apps/api/src/txns/txn-core.service.ts:877-927 | a concrete held bill of ten, converted in part, charged meanwhile and given its hold back when the conversion fails, is charged again: the customer owes twenty |
| Restoring.RestoreUndoesDelete | apps/api/src/txns/txn-core.service.ts:831-859 | delete then restore gives the same rows, with cheques fresh and the source reopened |
| Restoring.RestoreGoesThrough | apps/api/src/txns/txn-core.service.ts:831-859 | right after a deletion, restoring is refused exactly when an item it takes out was already oversold before |
| Restoring.CreateThenCycles | apps/api/src/txns/txn-core.service.ts:792-859 | create followed by any number of delete-and-restore rounds has the rows of the one creation, but for a converted source left open |
| Restoring.ChargeThenCycles | apps/api/src/txns/txn-core.service.ts:792-859 | the same for a held bill that was charged |
| Soundness.SoundNext | apps/api/src/txns/txn-core.service.ts:641-928 | an operation, claims, releases and refund marks included, keeps every live posted document counted once, and nothing else, exactly when it is orderly |
| Soundness.StatusSound | apps/api/src/sale/sale.service.ts:264-270 | a write of a status alone does so exactly when it does not lift the hold of a parked bill |
| Soundness.SoundRun | apps/api/src/txns/txn-core.service.ts:538-928 | so does every run of orderly operations |
| Agreement.ControlAccount | apps/api/src/txns/txn-core.service.ts:294-304 | a party's balance is its opening plus its open items, off by exactly what allocations fail to cancel |
| Agreement.AllocationsBothWays | apps/api/src/txns/txn-core.service.ts:503-521 | allocations added up by bill and by payment are the allocations added up row by row |
| Agreement.StatementOff | apps/api/src/cash-bank/cash-bank.service.ts:100-129 | in every state a statement is off from the balance, less opening and loan legs, by exactly the payment rows whose showing and moving differ and the corrections that name an account they did not move |
| Reconciliation.PartiesReconcile | apps/api/src/txns/txn-core.service.ts:294-534 | over every run with discount-free allocations to live bills in which no held bill is claimed, released, marked or reopened, each party's balance is its opening balance plus unpaid invoices and debit notes less bills, credit notes and unallocated receipts, plus unallocated payments out and transfers |
| Reconciliation.StatementsReconcile | apps/api/src/cash-bank/cash-bank.service.ts:100-129 | over every run in which money stays within its branch, each account statement adds up to the balance less opening and loan legs |
| Reconciliation.StockReconciles | apps/api/src/items/items.service.ts:228-241 | over every run in which stock always has a warehouse, each item's stock is the sum of its warehouse levels |
| Agreement.StockIsLevelsPlusUnplaced | apps/api/src/txns/txn-core.service.ts:234-289 | item stock is the sum of its levels plus what was never placed, in every state |
| Numbering.Register.NextNumber | apps/api/src/txns/txn-core.service.ts:78-108 | the least unused number from the counter's start within 5000 attempts, the counter then one past it; or none is free and nothing changes |
| Numbering.Register.Issue | apps/api/src/txns/txn-core.service.ts:593-602 | numbers of documents stay unique; issuing fails only without a shop or with 5000 documents of the kind there already |
| Numbering.Register.Configure | apps/api/src/settings/settings.service.ts:63-85 | the owner's prefix and next number replace the counter's, documents untouched |
| Numbering.ExhaustedMeansMany | apps/api/src/txns/txn-core.service.ts:93-107 | pigeonhole: all attempts taken means at least as many documents of that kind and branch |
| Numbering.PrintedApart | apps/api/src/txns/txn-core.service.ts:94 | zero-padded printing is injective |
| Numbering.NumbersStayUnique | apps/api/src/txns/txn-core.service.ts:78-108 | over every run no two documents, live or deleted, share a number |
| Numbering.LaterIsLarger | apps/api/src/txns/txn-core.service.ts:99-103 | a later number from the same counter is strictly larger unless the owner reset it between |
| Pricing.BuildLines | apps/api/src/txns/txn-core.service.ts:112-172 | prices all lines or refuses exactly if an item is missing or not the branch's, a quantity not positive or a sale below cost; the running totals are those of the lines |
| Pricing.ComputeTotals | apps/api/src/txns/txn-core.service.ts:174-195 | total is gross less discount plus charges plus round-off, whole and within half of raw when rounding |
| Pricing.RoundsAgree | apps/api/src/txns/txn-core.service.ts:188-192 | the client's and the server's rounding differ exactly on negative halves |
| Pricing.PricedBillIsStored | apps/api/src/txns/txn-core.service.ts:145-195 | a priced invoice is stored with the figures refunds rely on |
| Billing.CreateDocument | apps/api/src/txns/txn-core.service.ts:540-590 | lines are priced and totalled before the engine creates the document: accepted exactly when party and items are the branch's, every line can be priced, and the engine accepts the draft they come to |
| Billing.CreateInvoice | apps/api/src/sale/sale.service.ts:14-56 | a request whose client key has a finalised sale gets that sale and changes nothing; otherwise it is refused for credit exactly when the client states a total that goes over the party's limit, and created as `Billing.CreateDocument` says |
| Billing.ChargeHeld | apps/api/src/sale/sale.service.ts:68-139 | a held bill's edited lines are priced and the credit limit checked with the server's total before the engine charges it, or nothing changes |
| Billing.ChargeKeepsLimit | apps/api/src/sale/sale.service.ts:97-104 | after charging a held sale the party is within its limit exactly when the check passed |
| Billing.InvoiceKeepsLimitExactlyWhen | apps/api/src/sale/sale.service.ts:46-56 | after a direct sale it is exactly when the check would have passed with the server's total; stating none passes always |
| Refunds.RefundIsShare | apps/api/src/sale/sale.service.ts:223-226 | for percentage and flat discounts alike a returned quantity is refunded its share of the stored line total, which is what the dialog shows |
| Refunds.SplitsRefundTheLine | apps/api/src/sale/sale.service.ts:208-238 | however a line's quantity is split over returns, the refunds add up to its stored total |
| Refunds.FlooredCashAccepted | apps/api/src/sale/sale.service.ts:240-241 | the floored cash refund is accepted whenever the total is not negative and leaves less than a cent |
| Refunds.PristineReturn | apps/api/src/sale/sale.service.ts:203-262 | an untouched invoice returned whole totals its total less round-off, so its default cash is accepted exactly when round-off is not positive |
| Returns.Invoice.AlreadyReturned | apps/api/src/sale/sale.service.ts:172-185 | linked and unlinked returns tallied over the credit notes and handed out line by line |
| Returns.Invoice.ReturnedQuantities | apps/api/src/txns/txn-core.service.ts:771-787 | the dialog's copy of that calculation, over deleted credit notes as well |
| Returns.Invoice.Collect | apps/api/src/sale/sale.service.ts:208-239 | the requested lines pass the check one by one exactly when, per line, all that is asked for fits what remains |
| Returns.Invoice.Refund | apps/api/src/sale/sale.service.ts:149-272 | a credit note is made exactly when something positive fits, its total covers the cash, and customer and items are still found; the invoice is marked once everything has come back |
| Returns.GreedyHandsOut | apps/api/src/sale/sale.service.ts:179-186 | per kind of goods the greedy hand-out gives exactly the smaller of what is unlinked and the room there is |
| OverReturn.NeverOverReturned | apps/api/src/sale/sale.service.ts:164-238 | over every sequence of returns, credit-note deletions and restorings that fit, whose requests ask for a line at most n times, each line's linked returns, as stored, stay within what was sold plus the tolerance and n half thousandths |
| GoodsBound.GoodsNeverOverReturned | apps/api/src/sale/sale.service.ts:164-238 | over the same sequences linked and unlinked returns of a kind of goods stay within what was sold of it plus one such slack for each of its lines |
| OverReturn.OverReturnedExactlyWhen | apps/api/src/sale/sale.service.ts:217-219 | linked and unlinked returns of a kind of goods stay within what was sold exactly when what the request stores is no more than remains |
| OverReturn.StaysSettledExactlyWhen | apps/api/src/sale/sale.service.ts:208-238 | for any request, no kind of goods is over-returned afterwards exactly when what it stores fits what remains of each |
| OverReturn.RestoringStaysSettledExactlyWhen | apps/api/src/txns/txn-core.service.ts:831-859 | restoring a credit note over-returns nothing exactly when, line by line and goods by goods, what it returned is still to be returned |
| OverReturn.AlwaysSettledExactlyWhen | apps/api/src/sale/sale.service.ts:149-272 | over every run of returns, deletions and restorings nothing is ever over-returned exactly when each of them fitted when it was made |
| ReturnGrid.NeverMoreThanSold | apps/api/src/sale/sale.service.ts:164-238 | over every sequence of returns, credit-note deletions and restorings that fit, which asks for a line once or in thousandths, as the dialog does, linked and unlinked returns never exceed what was sold |
| ReturnGrid.HalvesAreStoredDouble | apps/api/prisma/schema.prisma:503 | stored in thousandths, up to twenty thousand half thousandths of a line asked for together are accepted and come back double |
| ReturnGrid.RestoringOverReturns | apps/api/src/txns/txn-core.service.ts:831-859 | an instance that does not fit: restoring a credit note after further returns gives fifteen pieces back of ten |
| ReturnDialog.DialogAgreesExactlyWhen | apps/api/src/txns/txn-core.service.ts:771-787 | for every kind of goods, unlinked returns included, the dialog's figures are right exactly when deleted credit notes returned none of it, or it has come back whole already with the deleted notes' links still fitting |
| ReturnDialog.DialogNeverShowsLess | apps/api/src/txns/txn-core.service.ts:771-787 | deleted credit notes only ever make the dialog show more of a line as returned |
| ReturnDialog.NothingDeleted | apps/api/src/txns/txn-core.service.ts:771-787 | with no credit note deleted both copies look at the same notes |
| Fifo.AutoAllocate | apps/api/src/sale/sale.service.ts:413-427 | gives out exactly the smaller of the amount and the open balances, no bill more than it owes, each bill before the last in full |
| Fifo.FifoUnique | apps/api/src/sale/sale.service.ts:413-427 | there is only one such allocation |
| Fifo.FifoSettles | apps/api/src/txns/txn-core.service.ts:511-521 | applied, each bill owes what it owed less its share, never negative, with the status that goes with it; other bills are unchanged |
| Fifo.FifoIsAccepted | apps/api/src/sale/sale.service.ts:384-406 | a known party's receipt spread this way is accepted exactly when its payments add up to it and go to accounts there are, so always when none are stated; no more is allocated than received |
| Fifo.CreatePaymentIn | apps/api/src/sale/sale.service.ts:384-409 | refused exactly without a positive amount or with chosen allocations of another total; spread first in first out if none are chosen, and then accepted as a whole |
| PosTotals.PosStore.AddItem | apps/web/src/stores/pos-store.ts:81-100 | there is that much more of the item, on one line, and the same of everything else; a fresh discount stays fresh exactly when the percentage of the subtotal is unchanged |
| PosTotals.PosStore.UpdateQuantity | apps/web/src/stores/pos-store.ts:102-108 | an item in the cart is there in that quantity, or gone if it is not positive, everything else as it was; a fresh discount stays fresh exactly when the percentage of the subtotal is unchanged |
| PosTotals.PosStore.Do | apps/web/src/stores/pos-store.ts:81-175 | every action keeps one line per item and the stored discount equal to the percentage of the subtotal it was worked out on |
| PosTotals.PosStore.SetDiscountPercent | apps/web/src/stores/pos-store.ts:126-138 | afterwards the stored discount is the one the percentage gives for the cart |
| PosTotals.SharesAddUp | apps/web/src/stores/pos-store.ts:191-201 | the lines' shares of the bill discount add up to it |
| PosTotals.RawsAgreeExactlyWhen | apps/web/src/stores/pos-store.ts:183-223 | discounting before tax (till) and after tax (server) give the same amount exactly when the stored discount leaves of the subtotal what the percentage leaves |
| PosTotals.TotalsAgreeExactlyWhen | apps/web/src/stores/pos-store.ts:183-223 | the amount shown and the amount billed agree exactly when there is no gap before rounding, or, if the till rounds, when both sides of the gap round alike; never across a gap of one or more |
| PosTotals.FreshTotalsAgree | apps/api/src/txns/txn-core.service.ts:174-195 | with a fresh percentage and no discount in money or points, totals and round-offs of till and server are equal |
| PosTotals.ScreenMatchesBill | apps/web/src/app/(app)/pos/page.tsx:126-159 | so the amount the till shows and sends as payment is the amount billed |
| PosTotals.ScreenAgreesExactlyWhen | apps/web/src/stores/pos-store.ts:81-175 | after any sequence of actions, with a percentage from 0 to 100 and no discount in money or points, the amount shown is the amount billed exactly when the percentage comes to the same for the subtotal as for the one at the last recalculation or, if the till rounds, when the gap the change makes rounds away |
| PosTotals.StaleDiscountDiffers | apps/web/src/stores/pos-store.ts:134-138 | a percentage from 0 to 100 worked out on another subtotal shows exactly if it comes to something else for this one, and the till does not round or the gap, given in closed form, does not round away |
| PosTotals.MoneyDiscountIgnored | apps/web/src/app/(app)/pos/page.tsx:152-153 | a discount in money makes the amounts shown and billed differ unless it takes nothing more off or, if the till rounds, the gap it makes rounds away |
| PosTotals.RoundingCanHideIt | apps/web/src/stores/pos-store.ts:215-223 | ten percent of 100 kept for 101: a gap of a tenth that rounds away |
| OfflineSync.NoRowIsLost | apps/web/src/lib/sync-manager.ts:8-50 | for every interleaving of tabs, pushes, lost answers and failures, a queued row is still queued unchanged or a push that contained it settled it: its key (its device's, if it has none) has a bill, or its failure is recorded |
| ExactlyOnce.NeverSoldTwice | apps/api/src/sale/sale.service.ts:30-56 | for every interleaving, a key under which nothing is put on hold never gets two finalised sales |
| ExactlyOnce.LeftQueueIsSold | apps/web/src/lib/sync-manager.ts:8-50 | a queued sale under a key with no holds that has left the queue has its finalised sale or its recorded failure |
| ExactlyOnce.SentByOneNeverSoldTwice | apps/api/src/sale/sale.service.ts:30-56 | for every interleaving, a key under which one request only ever sends anything, any number of operations of a batch, on hold or not, never gets two sales |
| ExactlyOnce.SellsTwiceExactlyWhen | apps/api/src/sale/sale.service.ts:30-56 | of two requests that send under one key, online or pushed in batches of any operations, some interleaving ends in two finalised sales exactly when at least one operation they send under it is a hold |
| ExactlyOnce.HoldsCanSellTwice | apps/web/src/app/(app)/pos/page.tsx:122-190 | that interleaving, for any two such requests of which one brings a hold |
| SyncServer.Server.PushOperations | apps/api/src/sync/sync.service.ts:48-104 | a batch completes unless a transient error, or one while writing down an outcome, stops it; it settles every operation, gives no key a second bill, and makes none when pushed again |
| Lifecycle.PostedOnceExactlyWhen | apps/api/src/txns/txn-core.service.ts:877-927 | however charges, conversions of all or part of it with their releases, deletions, restorings and status writes overlap, a document is posted for the first time once at most, by one charge at most, and not while on hold, exactly as long as no failed conversion gives a hold back to a bill charged meanwhile |
| Lifecycle.ChargedTwice | apps/api/src/sale/sale.service.ts:106-138 | a concrete interleaving in which one does, and both charges are in the books |
| Lifecycle.ChargedOnce | apps/api/src/sale/sale.service.ts:106-138 | so it is under every interleaving in which a bill on hold is converted only as a whole |
| Lifecycle.StraightExactlyWhen | apps/api/src/txns/txn-core.service.ts:792-927 | over every such interleaving a document is posted once at most, and in the books once while live and not at all while deleted, exactly when no deleted bill is charged, no hold is given back to a charged one, and each deletion and restoring commits while what it saw is still so |
| Lifecycle.DeletedTwice | apps/api/src/txns/txn-core.service.ts:792-829 | two deletions of an ordinary document that overlap take its effects back twice |
| Conversions.OneConversion | apps/api/src/txns/txn-core.service.ts:863-928 | so under every interleaving without parts, restorings and two overlapping deletions of one conversion a source has at most one conversion live or on its way |
| Conversions.OneConversionExactlyWhen | apps/api/src/txns/txn-core.service.ts:792-928 | over every interleaving of conversions of a source as a whole or of a part that leaves it open, deletions and restorings, a source has at most one conversion of the whole live or on its way, and is taken exactly when it has one, exactly as long as every deletion that goes through finds its conversion live or the source free, no deleted conversion is restored, and none of a part is given up or deleted while the source is taken |
| Conversions.PartBalancesExactlyWhen | apps/api/src/txns/txn-core.service.ts:816-927 | giving up or deleting a conversion of a part keeps that exactly when the source is free |
| Conversions.DeletionBalancesExactlyWhen | apps/api/src/txns/txn-core.service.ts:792-821 | a deletion that goes through keeps that exactly when it finds its conversion live or the source free |
| Conversions.RestoringBalancesExactlyWhen | apps/api/src/txns/txn-core.service.ts:831-859 | restoring a conversion keeps that only if it is live already |
| Conversions.TwoDeletionsBreakIt | apps/api/src/txns/txn-core.service.ts:792-821 | a concrete interleaving, with two deletions of one conversion overlapping, ends with two live conversions of one source |
| Conversions.RestoringBreaksIt | apps/api/src/txns/txn-core.service.ts:831-859 | one person, step by step: a conversion deleted, another made, the first restored, and the source has two live conversions |
| Conversions.DeletedPartBreaksIt | apps/api/src/txns/txn-core.service.ts:818-821 | an order received in part and then converted as a whole: the part is deleted, and the whole can be converted once more |
| Cheques.MoneyInExactlyWhileSettled | apps/api/src/cash-bank/cash-bank.service.ts:187-231 | under every interleaving, deletions and restorings of the documents included, all accounts together hold a cheque's amount exactly while it is settled |
| Cheques.CommitKeepsAccountsExactlyWhen | apps/api/src/cash-bank/cash-bank.service.ts:213-231 | each account by itself does exactly when a reopening finds the cheque in the account it saw |
| Cheques.AccountsKeptExactlyWhen | apps/api/src/cash-bank/cash-bank.service.ts:187-231 | over every interleaving, deletions and restorings of the documents included, each account keeps step with the cheques settled into it exactly as long as every reopening that takes money out finds the cheque in the account it saw |
| Cheques.StaleReopening | apps/api/src/cash-bank/cash-bank.service.ts:213-231 | a concrete interleaving after which no cheque is settled and one account is short of what another has |
| Csv.ToCsv | apps/api/src/exports/exports.service.ts:18-28 | prints the headings and then each row's escaped cells; nothing for no rows |
| Csv.RoundTrip | apps/api/src/exports/exports.service.ts:18-28 | a reader after RFC 4180 section 2 gets every field of every row back exactly, unless a single-column table ends in an empty value; headings, which are printed raw, hold no comma or line feed and do not begin with a quote |
| Csv.HeadingsAreNotEscaped | apps/api/src/exports/exports.service.ts:20-25 | why that is asked of headings: one with a comma, which no export has, would be read as two |
| Barcode.BarcodeRoundTrip | apps/api/src/items/barcode.util.ts:2-28 | thirteen digits always, the last five giving the cost back to the nearest cent up to 999.99 |
| Barcode.GenerateUniqueBarcode | apps/api/src/items/items.service.ts:394-418 | the first of thirty candidates nobody has, or the unchecked fallback if all are taken |
| Barcode.PrefixKept | apps/api/src/items/items.service.ts:246-264 | over any sequence of cost changes whose first candidate is free the item keeps its prefix and its barcode carries the latest cost |
| Barcode.RetriesCannotHelp | apps/api/src/items/items.service.ts:400-417 | with five digits in the SKU, if the first two different candidates are taken the fallback is what comes out |
| Barcode.RetriesRepeatExactlyWhen | apps/api/src/items/items.service.ts:400-417 | all retries try one and the same barcode exactly when the SKU has at least five digits |

## Left out

- DeleteTxn, RestoreTxn: each is one atomic step; `Lifecycle` and `Conversions` say what overlapping ones do to how often a document counts and to its source.
- TransferBetween, AdjustWarehouse: the server reads and writes these levels outside a transaction; here each is one step.
- CreateTxn: takes the draft priced; `Billing.CreateDocument` prices the request and checks its branch.
- ResumeHeld: likewise; `Billing.ChargeHeld` prices the edited lines and checks the credit limit.
- ReleaseSource: does not give a hold back to a bill that has moved since, as the server would, because the engine's books would no longer be well formed (`ReleaseKeepsWellFormedExactlyWhen`); what follows then is in `Lifecycle` and `HoldGivenBackOwesTwice`.
- TenderPayments: accounts of another business; the server stores the id of one on the payment row and moves nothing.
- ConvertTxn itself, refunds and exchanges as callers of the engine: `Draft.source` carries a conversion's source, and claim and release are steps of their own.
- OneConversionExactlyWhen: a last part that closes the order is not counted as a conversion of the whole; `Receipts` says when a part closes it.
- NeverSoldTwice, SentByOneNeverSoldTwice: the lock is held until its request is over; a lock lost earlier to the database driver's transaction timeout is not modelled.
- NoRowIsLost: the queue and requests are a machine of steps, since what matters is how they interleave; the in-flight flag of one tab is left out, which only admits more interleavings.  Rows without a key share their device's, and so its one bill; the till queues none.
- Ledger dates, document dates and descriptions; automatic allocation takes the eligible bills in the order it is given.
- Conversion rates are positive and stay as they are; items, parties and accounts are never removed.  The shop columns of parties, items and levels, prices and credit limits are given to the operations that read them and not kept by the engine.
- Refund: payments given for a pristine return are taken as one amount; whether customer and items are still found is given with the request.
- CreateThenCycles: a payment allocated to the very document it is recorded as converted from is not covered.
- Column precision and floating point: amounts are exact; only returned quantities are rounded as the database stores them.
- PosStore: the action that sets the discount's amount directly, which no screen calls, the unit shown on a line, and the customer and split payments it also keeps.
- Loans' own balances, payroll links, loyalty points earned, low-stock notices, realtime events, authentication, reports and screens.
- AutoAllocate: for purchase payments the same procedure; the caller there is not modelled.
- GenerateUniqueBarcode: the final fallback and the bulk generator do not check uniqueness, so only form, cost and prefix are claimed of them.
