# A verified model of the shop's transactional core

The model covers stock, orders, payments and invoices acting on one shared database, and the
components that hang off it: events and notifications after a commit, the refresh-token denylist,
and the approval of AI-generated product drafts.

It has two layers.

**One call at a time.** `Schema` holds the tables with their unique indexes and CHECKs. Each service
is a class on a `Session` (working tables over committed ones, with flush, commit and rollback), and
each of its methods is proved equal to a function from the committed tables and the inputs to an
outcome: new tables, published events, answer. Row ids, the clock, gateway answers and faults are
inputs. A fault either prevents the commit or loses the call after the commit is durable and before
its events are published. `Api` makes runs of such calls, among them the refusal of a client's PAY.
`Invariant` gives what every reachable state satisfies; `Acceptance`, `Faults`, `Stock`, `Conservation`,
`Ledger`, `Reconciliation`, `MoneyTrail`, `EventLog` and `Tenancy` prove the results on top.

**Steps of concurrent transactions.** `StockRace`, `InvoiceRace` and `PaymentRace` are state machines
whose steps are the row locks, private writes, index entries, commits, aborts and publications of
any number of transactions, in any order. A blocked or disabled step changes nothing, so every
sequence of actions is an interleaving. `StockServices` shows that a stock transaction running alone is
what the inventory and order services stage, and `StaleReads` and `Misreads` add a first read without a lock.

`Rotation` does the same for refresh tokens over time, and `Approvals` for drafts and products.

| file | part of the system |
|---|---|
| Options, MapSums, Permutations, Decimals | missing values, table sums, reordering, decimal text |
| Money, InvoiceNumbers, Lifecycle | money arithmetic, invoice number text, the order lifecycle table |
| Schema, Sessions, Events | tables and constraints, the database session, the event bus |
| InventoryService, OrderService, PaymentService, InvoiceService | the four services |
| Api, Invariant | calls, runs, the invariant of reachable states |
| Acceptance, Faults, KeyReuse, Stock, Conservation, Ledger, Reconciliation, MoneyTrail | results over calls and runs |
| Notifications, EventLog | notification table, events of runs |
| Tenancy | isolation of businesses |
| StockRace, InvoiceRace, PaymentRace | the interleaved models |
| StockServices, StaleReads, Misreads | stock transactions as service calls, and with a first read that takes no lock |
| Tokens, AuthService, Rotation | denylist, refresh and logout, runs of them |
| CatalogAiService, Approvals, DraftAnswers | draft lifecycle, runs of it, the answer of every call |

## Findings

- Approving a draft commits the product before the draft. When the second commit fails the product
  stays behind and a second approval can make another one (`Approvals.OrphanProduct`), although the
  documentation of `approve` calls it idempotent. Drafts and products are in bijection exactly when no
  approval is cut short between its commits (`Approvals.ApprovalsBijective`).
- A price supplied together with an approval is dropped when the approval is refused, for example
  because the model suggested no SKU (`Approvals.RefusedApprovalLosesPrice`). Two histories that differ
  only in model output give equal prices at every point exactly when each edit or approval that asks for
  a new price passes its guards in both or in neither (`Approvals.PricesAgreeExactly`, call by call
  `Approvals.StepPricesAgreeExactly`).
- A repeated idempotency key returns the business's earlier attempt even when that attempt is for
  another order (`KeyReuse.KeyAnswersForAnotherOrder`, a run with two confirmed orders). An accepted call
  answers for the order it names exactly when the key is new to the business or held by an attempt of that
  order (`KeyReuse.AnswersForTheOrderExactly`).
- `adjust_stock_by_product` reads the row before it locks it, and does not ask for the locked read to
  refresh the row object already loaded. With a session that keeps the object, a commit between the two
  reads can be overwritten (`StaleReads.LostUpdate`). A run is serializable in commit order exactly when no
  transaction that was granted its lock while the kept quantity differed from the committed one has
  committed (`Misreads.SerializableExactly`). A commit between the two reads does no harm by itself
  (`Misreads.StaleLockAloneIsHarmless`).

## Model

| member | source | states |
|---|---|---|
| Money.RoundingIsNearest | app/common/money.py:24-29 | a number of cents is what an amount is rounded to exactly when it is nearest, and the one further from zero on a tie |
| Money.ArithmeticIsExact | app/common/money.py:33-43 | sums and differences of amounts already in cents are not changed by the re-rounding at construction; currencies must agree |
| Money.ProductRoundedOnce | app/common/money.py:45-46 | a product is rounded once, to the nearest cent |
| Money.ScalingIsExact | app/common/money.py:45-46 | multiplying by a whole quantity is exact |
| Money.CurrenciesGuarded | app/common/money.py:24-35 | an amount exists iff its currency code has three characters, at the nearest cent; sums and differences exist iff the currencies agree |
| Money.ComputeOrderTotals | app/order/service.py:47-60 | the accumulating, re-rounding loop computes the closed-form totals |
| Money.TotalsWithinHalfCent | app/order/service.py:47-60 | for two-decimal prices the subtotal is the exact rational sum and the tax is the nearest cent to the exact tax, however many lines there are |
| Money.TaxBounded | app/config.py:74 | 0 <= tax <= subtotal <= total for every rate in [0, 1] |
| Money.TotalsIgnoreOrderAndSplitting | app/order/service.py:47-60 | totals do not depend on the order of the lines or on splitting one price's quantity over lines |
| InvoiceNumbers.ParseRoundTrip | app/invoice/service.py:121 | every invoice number reads back as its year and sequence |
| InvoiceNumbers.NumberInjective | app/invoice/models.py:42-43 | two numbers are equal only for the same year and sequence |
| InvoiceNumbers.PaddingWidth | app/invoice/service.py:121 | four digits up to 9999, then as many as the number needs |
| InvoiceNumbers.NumbersInPrint | app/invoice/service.py:121 | the text of two numbers, below and above four digits |
| Lifecycle.CourseBounded | app/order/models.py:69-88 | for every word of events the net stock effect is decided by the end statuses, and a strictly rising rank allows at most six accepted events |
| Lifecycle.FreshOrderCourse | app/order/models.py:69-88 | from creation the net effect is zero or minus one demand, decided by the final status; cancelled orders are back at zero |
| Lifecycle.SixIsReached | app/order/models.py:69-88 | the bound of six is reached by the events of a completed sale |
| Lifecycle.PaidForGood | app/order/models.py:69-88 | from a sales state no events lead out of the sales states, and completed and cancelled orders stay what they are |
| Schema.FindInventory | app/inventory/repository.py:33-37 | a product-keyed query finds a row of the business and product exactly when there is one |
| Sessions.Session.Commit | app/inventory/service.py:161-165 | a commit makes the staged rows durable, or raises an integrity or database error and changes nothing durable |
| Sessions.Session.Rollback | app/inventory/service.py:163-165 | a rollback drops everything staged |
| Sessions.Session.InventoryByProduct | app/inventory/repository.py:53-64 | the product lookup against the staged rows |
| Events.EventBus.Subscribe | app/common/events.py:95-98 | a handler is added after the earlier ones of its event type, others unchanged |
| Events.EventBus.Publish | app/common/events.py:100-105 | every handler of exactly the event's type is called once, in registration order, whichever of them raise |
| Events.EventBus.Clear | app/common/events.py:107-109 | no handler is left |
| Events.TopicsAreTypes | app/common/events.py:100-101 | handlers are looked up by the event's exact type |
| Inventories.InventoryService.CreateInventory | app/inventory/service.py:52-87 | equals the table-level effect, with the duplicate check, the unique index as backstop, and rollback |
| Inventories.InventoryService.UpdateThreshold | app/inventory/service.py:106-119 | equals the table-level effect |
| Inventories.InventoryService.AdjustStock | app/inventory/service.py:123-189 | equals the table-level effect: locked read-modify-write, one movement, one commit, event only afterwards |
| Inventories.InventoryService.StageAdjustment | app/inventory/service.py:191-237 | stages the same write in the caller's transaction and returns the warning to publish later |
| Inventories.InventoryService.AdjustStockByProduct | app/inventory/service.py:239-258 | the product-keyed entry equals the row-keyed adjustment of that product's row |
| Orders.OrderService.CreateOrder | app/order/service.py:87-134 | equals the table-level effect: catalog snapshot, totals, one commit, event afterwards |
| Orders.OrderService.ApplyInventory | app/order/service.py:181-201 | the loop over lines stages them in order and stops at the first refusal |
| Orders.OrderService.Transition | app/order/service.py:149-179 | equals the table-level effect of one lifecycle event, on a session that may carry its caller's staged rows |
| Orders.OrderService.PublishLifecycle | app/order/service.py:203-219 | the events of confirmation and cancellation |
| Payments.PaymentService.Initiate | app/payment/service.py:75-140 | equals the table-level effect, idempotency key included |
| Payments.PaymentService.Insert | app/payment/service.py:108-138 | when the database refuses the insert, an attempt holding the key by then is returned, else a conflict |
| Payments.PaymentService.Verify | app/payment/service.py:144-202 | equals the table-level effect of verification, every check in its order |
| Payments.PaymentService.ConfirmCod | app/payment/service.py:206-228 | equals the table-level effect of cash confirmation |
| Payments.PaymentService.Succeed | app/payment/service.py:230-260 | the flush of SUCCESS and the order's PAY transition share one commit; conflicts leave nothing |
| Payments.PaymentService.Fail | app/payment/service.py:262-276 | the attempt ends FAILED, the event follows the commit, the caller gets an error |
| Invoices.InvoiceService.Generate | app/invoice/service.py:90-105 | equals the table-level effect; a repeated request returns the existing invoice |
| Invoices.InvoiceService.CreateSnapshot | app/invoice/service.py:107-161 | number, invoice and items share one transaction; a lost race answers with the winner |
| Invoices.InvoiceService.NextInSequence | app/invoice/repository.py:56-73 | insert 1 or increment in place, inside the caller's transaction |
| Invoices.InvoiceService.ReturnWinner | app/invoice/service.py:149-156 | after an integrity error the invoice that is there is returned, else a conflict |
| Invoices.InvoiceService.EnsurePdf | app/invoice/service.py:165-180 | only the PDF reference changes, in a transaction of its own; a failure leaves the invoice without one |
| Invoices.InvoiceService.GetPdf | app/invoice/service.py:182-201 | a missing document is stored again, touching only the PDF reference |
| Invariant.StageLinesKeepsStockSound | app/order/service.py:181-201 | staging any lines keeps the stock tables sound and touches nothing else |
| Invariant.SucceedOutcome | app/payment/service.py:230-260 | in a reachable state the success path has exactly the joint commit of SUCCESS and PAID as its effect, or none |
| Invariant.StepKeepsInv | app/order/service.py:149-201 | every call keeps the invariant: shared business of parent and child rows, billed totals, stock rows of held orders, PAID iff one SUCCESS, attempt amounts, faithful invoices |
| Invariant.RunKeepsInv | app/payment/models.py:53-80 | every state reachable by any run of calls, whatever fails, satisfies the invariant |
| Invariant.RunKeepsIndexes | app/payment/models.py:53-80 | no run leaves two rows that share a stock row's product, an order's SUCCESS, a reference, a key, an invoiced order or an invoice number, nor a row its CHECK forbids |
| Acceptance.InventoryOpenedExactly | app/inventory/service.py:65-87 | opening a stock row in every case: not found without an active product of the business, conflict when it has a row or a number is negative, else exactly that row |
| Acceptance.ThresholdSetExactly | app/inventory/service.py:109-119 | a validation error for a negative threshold, not found off the business, else that row's threshold alone |
| Acceptance.AdjustAcceptedExactly | app/inventory/service.py:138-189 | a direct adjustment in every case: validation for zero, not found off the business, insufficient stock for a shortage; else exactly that row moves, one movement says so, and a warning follows iff it ends low |
| Acceptance.AdjustByProductExactly | app/inventory/service.py:239-258 | by product: not found before the delta is looked at, else the one row of the product moves as asked, with that kind and actor |
| Acceptance.OrderAcceptedExactly | app/order/service.py:87-134 | not found without an active customer, validation without every product active, else exactly one new CREATED order with the catalog's names and prices, tax to the nearest cent and total lines plus tax, announced once |
| Acceptance.PlainTransitionExactly | app/order/models.py:69-88 | every status and event: which pairs move the order on and to what, that a cancelled CREATED order is announced and the others are not, and conflict or not found for the rest |
| Acceptance.ClientCannotPay | app/order/router.py:59-68 | a client's PAY is a conflict whatever the order, and no other client event makes an order PAID |
| Acceptance.InitiateAcceptedExactly | app/payment/service.py:75-140 | opening an attempt in every case, refusals in their order; a known key is answered with the attempt that holds it; a new attempt is CREATED for the order total, with every column stated |
| KeyReuse.AnswersForTheOrderExactly | app/payment/service.py:93-96 | an accepted call answers with an attempt of the requested order iff the key is new to the business or held by an attempt of that order |
| KeyReuse.KeyAnswersForAnotherOrder | app/payment/router.py:24-37 | a run with two confirmed orders and one key: the second call is answered with the first order's attempt |
| Acceptance.PayAcceptedExactly | app/payment/models.py:65-71 | an attempt that passed the checks pays iff its gateway reference backs no other payment of the business; then SUCCESS, reference, time and PAID are all that changes |
| Acceptance.VerifyExactly | app/payment/service.py:144-202 | verification in every case: early answers, pending recorded, success paid iff reference, amount and currency match and the reference is free, and each failure with its own recorded and published code |
| Acceptance.ConfirmCodExactly | app/payment/service.py:206-228 | cash confirmation in every case: only an open COD attempt of an order awaiting payment is paid, without a reference |
| Acceptance.PaidOrdersGetInvoices | app/invoice/models.py:41-44 | no index or CHECK can refuse the first invoice of a paid order |
| Acceptance.GenerateAcceptedExactly | app/invoice/service.py:90-161 | generation in every case and under every fault: not found, conflict before payment, the existing invoice, or exactly one new row with every column stated, the next number and its document |
| Acceptance.GetPdfExactly | app/invoice/service.py:182-201 | not found, the stored document, a storage error, or the document stored again under its key; a failed commit costs the reference alone |
| Stock.StagedUnits | app/order/service.py:181-201 | staging all lines moves every product by exactly its demand over all lines, and no other business's stock |
| Stock.StagedExactly | app/order/service.py:181-201 | the loop over lines amounts to three closed forms: rows shifted by aggregate demand, one movement per line with what was left at that point, and the warnings in line order |
| Stock.TakenIffEnough | app/inventory/service.py:211-216 | the line-by-line loop succeeds iff every ordered product has a row and enough for its total demand; else the error is that of the first line that cannot be served, not found without a row and insufficient stock with one |
| Stock.ConfirmExact | app/order/service.py:157-179 | CONFIRM of a created order in every case: refused for the first line that cannot be served, else every row down by its demand, one sale movement per line, the warnings, and OrderConfirmed last; faults included |
| Stock.WarningsExact | app/inventory/service.py:230-237 | the products warned of are exactly those ordered that end at or below their threshold, and the last warning of each carries the final quantity |
| Stock.CancelAlwaysRestores | app/order/models.py:77-79 | CANCEL of a confirmed order in any reachable state fails at its commit alone: every row up by its demand, one restock movement per line, and OrderCancelled last |
| Stock.LineOrderIrrelevant | app/order/service.py:181-201 | acceptance and resulting stock do not depend on the order of the lines |
| Faults.EveryFaultHandled | app/inventory/service.py:161-189 | for every call: a fault at the commit leaves no row and no event, one after it loses events, answer and a new invoice's document but no row, and a call that commits nothing is beyond any fault |
| Conservation.StepConserves | app/order/service.py:149-201 | every call keeps shelf units plus units in stock-holding orders, up to what an accepted direct call puts in |
| Conservation.RunConserves | app/order/models.py:69-88 | over every run, shelf units plus units of orders now holding stock equal the opening quantities plus direct adjustments that pass their guards and commit, and shelf units are never negative |
| Ledger.RunAccounted | app/inventory/repository.py:86-95 | after every run each row's movements form a chain from a non-negative opening quantity to the current one |
| Ledger.OpeningFixed | app/inventory/service.py:145-160 | no later call changes the opening quantity a row's history starts from |
| Reconciliation.PaidByExactlyOne | app/payment/models.py:59-64 | an order is in a sales state iff exactly one attempt succeeded, and that attempt is for the order total |
| Reconciliation.RunReconciles | app/analytics/service.py:56-73 | after every run all-time revenue and order count equal all-time payment total and count |
| Reconciliation.CountsByStatus | app/analytics/service.py:75-84 | the loop gives every status its group's count, and zero to statuses without orders |
| Reconciliation.StatusCountsMatchReceipts | app/analytics/service.py:139-156 | the counts of paid-or-later statuses add up to the number of successful payments |
| MoneyTrail.InvoiceBalances | app/invoice/service.py:107-147 | line totals sum to the subtotal, subtotal plus tax is the total, and that is both the order's total and the successful payment's amount |
| MoneyTrail.StepFreezes | app/invoice/models.py:39-56 | no call changes an order but its status (which only rises), an attempt's terms, an invoice but its PDF reference, or the movement log but by appending |
| MoneyTrail.RunFreezes | app/invoice/service.py:165-180 | the same over every continuation of a run, catalog and customer edits included |
| MoneyTrail.QuotedPaidInvoiced | app/payment/service.py:98-122 | the amount fixed at creation is the amount paid and the amount invoiced, whatever happens between |
| MoneyTrail.GenerateReturnsTheInvoice | app/invoice/service.py:100-102 | once an order has its invoice every later generation returns that one and changes nothing, whichever year it is asked in |
| MoneyTrail.SixChangesAtMost | app/order/models.py:69-88 | no run changes an order's status more than six times |
| Notifications.KeysInjective | app/notification/messages.py:34-107 | dedup keys are equal only for the same event type and entity |
| Notifications.OrdersInWords | app/notification/messages.py:50-83 | title, body, entity and key of the three order notifications |
| Notifications.StockAndPaymentsInWords | app/notification/messages.py:34-107 | the same for low stock and for both payment events |
| Notifications.NotificationService.CreateFromDraft | app/notification/service.py:28-52 | inserts unless the key is there already, and treats a duplicate as success |
| Notifications.Handle | app/notification/listener.py:55-69 | handling an event records its notification or, if the write fails, loses it without raising |
| Notifications.TableIsFirstPerKey | app/notification/service.py:28-52 | the table holds, once each, exactly the first event of every key |
| Notifications.OnlyLowStockIsLost | app/notification/messages.py:34-48 | when other events never repeat a key, the rows that are not low-stock warnings are those events, one for one and in order |
| EventLog.StepSound | app/order/service.py:174-179 | what a call publishes is true of the committed tables and, but for low-stock warnings, was not true before |
| EventLog.EventsOncePerEntity | app/payment/service.py:254-260 | in every run each published order or payment event is true of the tables at the end, and is published at most once per entity |
| EventLog.NotificationsOfRun | app/notification/listener.py:55-69 | over every run the table is the first event per key and its other rows correspond one to one with the published events |
| Tenancy.RulesAgree | app/payment/models.py:53-80 | the database accepts a business's change iff it would accept it with that business's rows alone |
| Tenancy.StepMirrors | app/inventory/repository.py:27-64 | a business's call gives the same answer, events and own rows when the other businesses' rows are gone |
| Tenancy.StepElsewhere | app/payment/repository.py:20-60 | a call of another business changes no row of this one |
| Tenancy.TenantsApart | app/order/service.py:87-108 | deleting every other business's calls from a run leaves one business's rows, answers and events unchanged |
| StockRace.EveryRunSerializable | app/inventory/service.py:141-167 | under every interleaving with arbitrary aborts, committed quantities and movements equal a serial replay of the committed transactions in commit order |
| StockRace.EveryCommitListed | app/inventory/service.py:161-165 | that order lists every committed transaction exactly once |
| StockRace.StockNeverNegative | app/inventory/models.py:44-45 | no committed quantity or recorded result is ever negative |
| StockRace.RefusalsJustified | app/inventory/service.py:211-216 | a transaction is refused only if running alone on the tables committed at that moment would be refused too |
| StockRace.UndisturbedRunsAsAlone | app/inventory/service.py:191-237 | a transaction whose rows are free commits iff running alone accepts it, with exactly that effect |
| StockRace.StepKeepsOrder | app/inventory/repository.py:39-64 | on each row the ids of a lock holder follow all committed ones |
| StockRace.HistoryIsChain | app/inventory/repository.py:86-95 | each row's history ordered by movement id is a chain from its initial to its current quantity, although ids are shared and have gaps |
| StockServices.JobAgrees | app/inventory/service.py:191-237 | an adjustment or an order's lines staged by the services are the transaction's program run alone: accepted alike, same quantities, same movements |
| StockServices.InterleavingIsStaging | app/order/service.py:181-201 | however such calls interleave and abort, the committed tables are those of staging the committed calls one after the other |
| StaleReads.LockUnaffected | app/inventory/service.py:249-252 | a locked read that keeps the row loaded before is the plain one iff the loaded quantity is the committed one |
| Misreads.SerializableExactly | app/inventory/service.py:239-258 | a run with unlocked first reads is serializable in commit order iff no transaction that was shown a wrong quantity with its lock has committed |
| Misreads.NeverStaleSerializable | app/inventory/service.py:239-258 | where no lock follows a commit of the row made after the transaction's first read of it nobody is misled, and the run is serializable |
| Misreads.StaleLockAloneIsHarmless | app/inventory/service.py:249-252 | a run with such a commit whose transaction aborts is serializable all the same |
| StaleReads.LostUpdate | app/inventory/service.py:239-258 | a run with such a commit: both transactions commit and no serial replay gives the quantity that is left |
| InvoiceRace.NumbersWithoutGaps | app/invoice/repository.py:56-73 | under every interleaving with aborts the committed sequence numbers per business and year are exactly 1 up to the counter, in commit order |
| InvoiceRace.InvoicesDistinct | app/invoice/models.py:41-44 | no two committed invoices share an order, none of one business share a number, also across a year change |
| InvoiceRace.FreshNumber | app/invoice/service.py:149-156 | only an existing invoice of the same order can make an insert fail |
| InvoiceRace.GenerationsAgree | app/invoice/service.py:99-105 | every generation that returns an invoice returns the order's one committed invoice, made, found or lost to |
| InvoiceRace.WinnerAlwaysFound | app/invoice/service.py:149-156 | a generation that lost always finds the winner; the final conflict is unreachable |
| InvoiceRace.LaterGenerationsReturnIt | app/invoice/service.py:100-102 | once committed, the invoice is what every later lookup returns |
| InvoiceRace.UndisturbedGeneration | app/invoice/service.py:90-147 | a generation nobody gets in the way of is refused for an order not the business's, returns the invoice there is, or issues the next number of its business and year |
| PaymentRace.OnePaymentPerOrder | app/payment/models.py:59-64 | with any number of concurrent verifiers at most one attempt is SUCCESS, and the order is PAID iff one is |
| PaymentRace.PaidInTheSameCommit | app/payment/service.py:230-245 | SUCCESS and PAID appear in the same commit and in no other step |
| PaymentRace.SuccessPublishedOnce | app/payment/service.py:254-260 | PaymentSucceeded is published at most once, only after that commit |
| PaymentRace.LosersLeaveNothing | app/payment/service.py:246-253 | a verification that is refused, rolled back or still running has written no row, and one that is over, or has committed, holds no row lock and no index entry |
| PaymentRace.EveryRunHeldByHolders | app/payment/repository.py:24-33 | every row lock belongs to a verification at work on that row, every uncommitted index entry to one past its flush |
| PaymentRace.SuccessIsFinal | app/payment/models.py:45-50 | once an attempt is SUCCESS no later step changes its row |
| PaymentRace.PayNeverConflictsAfterFlush | app/order/service.py:152-155 | once SUCCESS is flushed the PAY transition cannot conflict, whether the order row is stale or read again |
| PaymentRace.DuplicateIsIdempotent | app/payment/service.py:152-165 | a verification begun after its attempt became SUCCESS never waits, can only end as already paid or rolled back, and the row stays as it is |
| PaymentRace.UndisturbedVerification | app/payment/service.py:144-202 | a verification nobody gets in the way of, in every case: who is refused, who is told it is paid already, and the row and event each gateway answer leaves |
| Tokens.InMemoryRefreshTokenStore.Purge | app/auth/tokens.py:35-38 | exactly the expired entries are deleted |
| Tokens.InMemoryRefreshTokenStore.Revoke | app/auth/tokens.py:40-43 | the entry lasts the given time, never negative, and the history records it |
| Tokens.InMemoryRefreshTokenStore.IsRevoked | app/auth/tokens.py:45-53 | with lazy deletion and purging the answer is exactly that of the full revocation history |
| Tokens.InMemoryRefreshTokenStore.Clear | app/auth/tokens.py:55-56 | nothing is revoked any more |
| Tokens.AnyLiveRevocationCounts | app/auth/tokens.py:40-43 | with one lifetime for all, an id is revoked while any of its revocations lasts |
| Tokens.RevokingKeepsOneLifetime | app/auth/service.py:120-125 | revoking always for the same time on a rising clock keeps the expiries rising and within one lifetime of now |
| Auth.AuthService.IssuePair | app/auth/service.py:47-50 | the pair carries the user's current business and role |
| Auth.AuthService.Refresh | app/auth/service.py:112-121 | equals the effect on denylist and issued tokens; an accepted token has no revocation in the whole history that still lasts |
| Auth.AuthService.Logout | app/auth/service.py:123-125 | revokes the presented token, for the one lifetime all revocations have |
| Rotation.RunKeepsSound | app/auth/service.py:119-125 | every reachable denylist holds each spent token until that token has expired by itself |
| Rotation.AcceptedExactlyWhenUnspent | app/auth/service.py:112-121 | a refresh is accepted iff the token was signed here as a refresh token, has not expired, was never rotated or logged out, and its user is active in the business it names |
| Rotation.NeverAcceptedAgain | app/common/security.py:70-81 | a token rotated or logged out is never accepted again at any later time |
| Rotation.NewPairUsable | app/auth/service.py:47-50 | what a login or rotation hands out works: the new refresh token is accepted until it expires while its user is active, the new access token never is in its place |
| Rotation.LoginSignsExactly | app/auth/service.py:102-110 | a login is accepted iff an active account has that address and password; both tokens carry its id, business, role, kind, drawn id and own expiry |
| Rotation.RefreshSignsExactly | app/common/security.py:70-81 | a rotation's tokens carry the user's business and role of that moment, their kinds, ids and expiries; the old id is denied for a refresh lifetime; a refusal forgets no live entry |
| Rotation.LogoutAcceptedExactly | app/auth/service.py:123-125 | a logout is accepted iff the token was signed here as a refresh token and has not expired, and then denies it |
| CatalogAi.FindKeyed | app/catalogai/repository.py:30-35 | the request-key lookup finds a draft of the business with the key exactly when there is one |
| CatalogAi.FirstNamedIsNamed | app/catalogai/service.py:151-158 | the search stops at the first category of that folded name, and finds none iff there is none |
| CatalogAi.SuggestionMatched | app/catalogai/service.py:151-158 | the match is a category of the business with that stripped, folded name, and none iff the suggestion is empty or no own category has the name |
| CatalogAi.CatalogAiService.FindCategory | app/catalogai/service.py:151-158 | the loop over the business's categories computes that match |
| CatalogAi.CatalogAiService.GenerateDraft | app/catalogai/service.py:57-98 | equals the table-level effect: a repeated key returns the old draft, the pending row is committed before the provider is asked |
| CatalogAi.CatalogAiService.RunGeneration | app/catalogai/service.py:111-149 | a provider failure leaves a FAILED draft; a payload fills everything but the price |
| CatalogAi.CatalogAiService.Regenerate | app/catalogai/service.py:100-109 | not from a terminal state |
| CatalogAi.CatalogAiService.ApplyEdit | app/catalogai/service.py:177-196 | only provided fields change, and none when the category is not the business's |
| CatalogAi.CatalogAiService.EditDraft | app/catalogai/service.py:168-175 | equals the table-level effect |
| CatalogAi.CatalogAiService.Reject | app/catalogai/service.py:235-242 | equals the table-level effect |
| CatalogAi.CatalogAiService.CreateProduct | app/catalog/service.py:76-100 | category ownership, active SKU uniqueness and its own commit |
| CatalogAi.CatalogAiService.Approve | app/catalogai/service.py:200-233 | equals the table-level effect with its two commits |
| DraftAnswers.StripRemovesBlanks | app/catalogai/service.py:245-246 | stripping removes the blanks at both ends and nothing else |
| DraftAnswers.FirstOwnFound | app/catalogai/service.py:151-158 | the match is the first category in list order among the business's own of that name |
| DraftAnswers.GenerateDraftExactly | app/catalogai/service.py:57-98 | an upload in every case and under every fault: refusal, the old draft of a known key, the pending row, the failed or filled one with every column stated |
| DraftAnswers.RegenerateExactly | app/catalogai/service.py:100-109 | not found, conflict from a terminal state, else one generation's commit |
| DraftAnswers.EditDraftExactly | app/catalogai/service.py:168-196 | not found, conflict, validation for another business's category, else the set fields as set and all others as they were |
| DraftAnswers.RejectExactly | app/catalogai/service.py:235-242 | not found, conflict from a terminal state, else REJECTED and nothing else |
| DraftAnswers.ApproveExactly | app/catalogai/service.py:200-260 | approval in every case and under every pair of faults: the refusals in their order, the product column by column, and the draft's approver and product |
| Approvals.ApprovalCreatesExactly | app/catalogai/service.py:211-226 | exactly when an approval makes its product durable |
| Approvals.ApproveEffect | app/catalogai/service.py:220-233 | an approval changes nothing, or makes its product from the edited draft and approves the draft iff it gets through its commits |
| Approvals.ApprovedStays | app/catalogai/models.py:49-50 | an approved draft never changes again |
| Approvals.ApprovalsBijective | app/catalogai/service.py:200-233 | approved drafts and products made by approval are in bijection iff no approval was cut short between its commits |
| Approvals.OrphanProduct | app/catalogai/service.py:226-233 | a run in which the second commit fails: the product is orphaned and a retry makes another |
| Approvals.ReapprovalCreatesNothing | app/catalogai/service.py:213-215 | re-approval changes nothing and answers with the product while it is not deleted |
| Approvals.PriceIsMerchants | app/catalogai/service.py:188-189 | a draft's price is always the last committed price its merchant supplied |
| Approvals.ProductPriced | app/catalogai/service.py:244-260 | a product made by approval has that price |
| Approvals.ProductComplete | app/catalogai/service.py:244-260 | a product made by approval has a stripped, non-blank name and SKU, a category of the business or none, and an SKU no other active product has |
| Approvals.DraftCategoriesOwned | app/catalogai/service.py:146-158 | over every run no draft carries another business's category, whatever the model suggests |
| Approvals.PricesIgnoreTheModel | app/catalogai/service.py:137-149 | runs that differ only in model output, and in which the same approvals pass their guards, give every draft the same status and price |
| Approvals.StepPricesAgreeExactly | app/catalogai/service.py:217-226 | one call on equal prices over different model output keeps them equal iff, when it asks for a new price, its guards pass in both or in neither |
| Approvals.PricesAgreeExactly | app/catalogai/service.py:188-189 | two histories that differ only in model output give equal prices at every point iff every call that asks for a new price passes its guards in both or in neither |
| Approvals.RefusedApprovalLosesPrice | app/catalogai/service.py:220-226 | two runs that differ only in model output and give different prices, because a refused approval drops the price sent with it |

## Left out

- HTTP routing, request parsing, role and PIN checks: their guarantees (positive quantities, two-decimal
  positive prices, no client PAY) appear as inputs of that shape or as preconditions of the result that needs them.
- Column widths: 32-bit quantities, NUMERIC(12, 2) and the decimal context are unbounded integers of cents
  and exact rationals.
- SQLAlchemy: the identity map, autoflush and migrations are not modelled; the two places where a row object
  loaded earlier matters are explicit, the order row of a payment in PaymentRace and the stock row adjusted by
  product in StaleReads. The serial layer takes an adjustment by product as one atomic call.
- Failures inside a call before its commit, such as a lost connection during a query, have the effect of a
  failed commit and are modelled as one.
- Tables: rows are maps from ids to rows whose ids are inputs, because a sequence hands them out with gaps;
  movements are kept in insertion order in the serial layer and carry ids in StockRace only.
- Order status under concurrent transitions of one order: the code takes no order lock, so status claims
  belong to the serial layer.
- Deadlock freedom and liveness: confirmation locks rows in line order, so a deadlock victim is an abort like
  any other.
- Tenancy.TenantsApart: row ids are assumed not to be drawn by two businesses, which is what the database
  sequences guarantee.
- StockRace.EveryRunSerializable: inventory rows exist from the start; creating one concurrently is not a step.
- PaymentRace.OnePaymentPerOrder: one order at a time; references backing other orders' payments are a fixed set.
- Auth.AuthService.Refresh: two refreshes of one token interleaved between lookup and revocation are not
  modelled; each call is atomic.
- Rotation.AcceptedExactlyWhenUnspent: signatures are taken as unforgeable and token ids as never drawn twice;
  password hashing is equality.
- The Redis token store and its one-second minimum lifetime.
- Payment columns without influence on the lifecycle (provider name, payment URL, the free-text failure reason)
  and the gateway adapters; any gateway answer is possible.
- CatalogAi.CatalogAiService.RunGeneration: a storage failure before the first write is not a step. Case folding
  is an arbitrary function and the collation that orders category names an arbitrary order.
- CatalogAi.CatalogAiService.Approve: stripping removes ASCII blanks only.
- PDF rendering and object storage: a document either gets a URL or does not.
- Reconciliation.RunReconciles: all-time totals only; periods depend on time zones.
- Marking notifications read, top products, dashboard composition, category, customer and image management
  beyond create, edit and soft delete of the rows orders depend on.
- The conversation layer: its stock effect is one adjustment by product, which is modelled.
