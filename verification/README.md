# Ketapod backend: verified model

Ketapod sells Persian audiobooks. This project models, in Dafny, the parts of its Go backend on which money, access
and sessions depend, and proves what they promise.

**Commerce** (`CommerceModel`, `CommerceTx`, `CommerceInvariants`, `Interleaving`, `InterleavingProofs`, `Stability`,
`Runs`, `Completion`, `Pricing`, `Guarantees`, `CouponBound`, `CouponTight`, `CouponWindows`, `CommerceService`,
`PaidOnce`). The wallet is an append-only ledger without a balance column. `CommerceTx.Atomic` says what each transaction
does when it runs alone. `Interleaving` is the real thing: a state machine whose steps are single statements of any number
of open transactions, each with a private workspace, under PostgreSQL's Read Committed: a statement sees the committed
rows and its own; a wallet lock, an updated row and a written unique key stay locked until the transaction ends.
`Stability` and `InterleavingProofs` show that a transaction that reaches its commit does exactly its atomic effect at
that instant, so that every run equals a serial one (`Runs`); `Completion` shows that undisturbed each comes to its end;
and `Guarantees` reads off what that means for balances, payments, orders, refunds, entitlements and subscriptions.
`Pricing` follows discounts and periods from the coupon and the plan they were quoted from to the rows. `CouponBound`
bounds how far racing purchases can overshoot a coupon, `CouponTight` builds runs that do, and `CouponWindows` traces every
redemption back to an evaluation inside the coupon's window. `CommerceService` is the service statement by statement,
sequentially, as a class over the tables. `PaidOnce` says when a buyer pays at most once for an edition.

**Renewal over time** (`Renewals`, `Lifetimes`, `LostRenewals`). The sweep as methods over the same service, runs of any
number of sweeps mixed with everything else, and, for each condition under which nothing is lost, runs that break it and
lose a renewal. Times are microseconds; windows are in hours.

**Sessions** (`Sessions`, `SessionProofs`, `SessionRuns`, `LoginCodes`, `SessionService`). Token families, the device cap
and account status, as relations, invariants over runs, and a class whose methods refine the relations. `LoginCodes` says,
over whole runs, which code logs in whom.

**Streaming** (`GoText`, `Base64Url`, `ByteRange`, `StreamAccess`). Decision, token, claims, byte limit and Range header,
with the parsers and printers written out, from the edition to the bytes asked of storage.

**Smaller algorithms** (`Streaks`, `PersianText`, `Chapters`). The loops against set-based, canonical-form and tiling
definitions.

`Basics.dfy` holds result types, Go's 64-bit arithmetic, sums over maps and finite sets.

Check everything with `dafny verify dfyconfig.toml`.

## Where the code and its comments differ

The model follows the code.

- `backend/internal/identity/service.go:70-72` says a zero device cap disables it; `withDefaults` turns zero into five,
  and only a negative cap disables it.
- `backend/internal/commerce/service.go:298-301` calls the whole purchase one transaction; lines are priced and the coupon
  is evaluated before the transaction opens, which is why a coupon can be overshot (`CouponBound`).
- `backend/internal/commerce/service.go:335-337` calls buying something already owned no purchase; the check sees only
  what was owned before the order, so an edition named twice in one order, or bought by two requests at once, is paid
  for twice (`PaidOnce`).
- `backend/internal/identity/repo.go:312-314` says a first token is its own family root; the code draws a separate
  identifier. The model uses the token's own, which is as fresh.

## Model

| member | source | states |
|---|---|---|
| `Guarantees.NeverOverdrawn` | backend/internal/commerce/service.go:178-196 | After any run of purchases, debits, subscriptions, renewals, top-ups, credits and refunds, interleaved statement by statement in any order, no user has a negative balance: the wallet lock, the balance read inside it and the append make every debit wait for the earlier ones, although credits take no lock |
| `Guarantees.RunsAreSerial` | backend/internal/commerce/repo.go:37-56 | Serializability: the committed tables of any interleaved run are those of the same transactions performed whole, one at a time, in commit order, each passing all its own checks |
| `Runs.PlayIsSerial` | backend/internal/commerce/repo.go:37-56 | The same from any state that satisfies the invariant: the history read off the run executes serially to the same tables |
| `InterleavingProofs.CommitIsAtomic` | backend/internal/commerce/service.go:178-196 | At its commit, whatever ran in between, the private workspace of a transaction is exactly the effect of the whole transaction on the tables of that instant; its balance check, key check and conditional updates all hold there |
| `InterleavingProofs.RunKeeps` | backend/internal/commerce/service.go:354-419 | Each statement of a transaction leaves it in order: the workspace it has built, the locks it must hold and the tests it has passed |
| `Stability.TxStable` | backend/internal/commerce/queries/wallet.sql:23-24 | What others commit while a transaction holds its locks never spoils its workspace, its locks or the tests it has passed |
| `Stability.CommitEvolves` | backend/internal/commerce/queries/wallet.sql:43-50 | A commit changes no row, takes no unique key and lowers no balance that another transaction has locked |
| `Stability.OpEvolves` | backend/internal/commerce/queries/wallet.sql:52-56 | Neither does a statement that commits on its own |
| `Completion.AloneFinishes` | backend/internal/commerce/repo.go:37-56 | Begun alone in any state of the invariant, every transaction is finished by its own statements and its commit, and the tables are then exactly what the whole transaction makes of them, or as before when the whole transaction fails |
| `Completion.AbortLeavesNoTrace` | backend/internal/commerce/repo.go:37-56 | Broken off after any statement a transaction leaves the tables and every other transaction as they were and frees its locks |
| `Runs.ApplyKeeps` | backend/internal/commerce/repo.go:37-56 | One step of any transaction at any moment keeps the invariant: consistent tables, disjoint locks, identifiers and evaluations, every open transaction in order |
| `Runs.PlayKeeps` | backend/internal/commerce/repo.go:37-56 | So does any run |
| `Runs.EmptyInv` | backend/internal/commerce/repo.go:37-56 | An empty shop satisfies the invariant |
| `Guarantees.CreditedOnce` | backend/internal/commerce/service.go:235-285 | For any number of concurrent callbacks with any verify outcomes, a payment has exactly one credit, of its own amount, if it succeeded and none otherwise; succeeded and failed are final, and no later callback adds or removes a credit |
| `Guarantees.RefusedNeverCredited` | backend/internal/commerce/service.go:245-254 | A payment marked failed at any moment of any interleaved run is failed from then on and has no credit in any continuation |
| `Guarantees.BooksBalance` | backend/internal/commerce/service.go:136-176 | In every committed state a balance equals succeeded payments plus approved refunds plus direct credits less direct debits, order totals and subscription charges |
| `Guarantees.RowsHaveDocuments` | backend/internal/commerce/queries/wallet.sql:1-4 | Every ledger row names a document of the same user and direction that justifies it: a succeeded payment or an approved refund of that amount, a paid or refunded order with that total, a subscription that was granted a period at that price, or a direct movement |
| `Guarantees.OrdersAddUp` | backend/internal/commerce/service.go:353-418 | A visible order is paid or refunded, never pending; its prices sum to the subtotal, subtotal = discount + total with 0 <= discount <= subtotal; one debit of the total when it is positive and none otherwise; one redemption exactly when there is a discount; without a coupon the discount is 0, with one it is exactly what that coupon gives on the subtotal |
| `Guarantees.KeysNameOneOrder` | backend/migrations/00008_commerce_orders.sql:26-27 | One idempotency key of one buyer never names two orders |
| `Guarantees.RefundedOnce` | backend/internal/commerce/service_access.go:351-384 | Under any interleaving of approvals and rejections a refund row is credited once if approved and never otherwise, and its answer is final |
| `Guarantees.RefundEndsAccess` | backend/internal/commerce/queries/entitlements.sql:50-53 | Once a refund is approved no live entitlement names its order, then or later |
| `Guarantees.OneLiveEntitlement` | backend/migrations/00008_commerce_orders.sql:155-157 | Never more than one live entitlement for a user, an edition and an origin |
| `Guarantees.PurchaseGivesAccess` | backend/internal/commerce/service.go:377-401 | When a purchase commits, the owner of every line, recipient or buyer, passes the edition check at any time and holds a live, endless row for the edition: a gift when somebody else sends it, a purchase otherwise |
| `Guarantees.PaidIsGranted` | backend/internal/commerce/service_access.go:118-155 | A subscription expires at its first expiry plus the days of every later period granted, and its ledger rows are the prices of exactly the priced periods, in order; for every period there is a plan with just that price and length |
| `Guarantees.PlayProgress` | backend/internal/commerce/queries/wallet.sql:1-4 | Along any run the ledger and the redemptions only grow, settled payments, resolved refunds and revoked entitlements never change again, orders only become refunded, subscriptions only gain periods |
| `Pricing.PlayPriced` | backend/internal/commerce/service.go:405-419 | Along any interleaved run every evaluation, order and subscription stays priced by the coupons and plans on offer |
| `Pricing.CommitPriced` | backend/internal/commerce/service.go:433-470 | A commit writes the discount that its own evaluation worked out on its own subtotal, and periods quoted from a plan |
| `CouponBound.BoundedOvershoot` | backend/internal/commerce/service.go:427-470 | When at most k purchases with a limited coupon are ever between evaluation and commit at once, committed redemptions never exceed the limit plus k - 1: over everybody for MaxRedemptions, for each user for PerUserLimit |
| `CouponBound.SequentialUseKeepsLimit` | backend/internal/commerce/service.go:427-470 | Used by one purchase at a time a coupon never exceeds its limit |
| `CouponTight.OvershootIsAttained` | backend/internal/commerce/service.go:427-432 | For every limit and every k there is a run with at most k purchases in flight at once whose redemptions are exactly the limit plus k - 1, over everybody for MaxRedemptions and by a single user for PerUserLimit: neither bound can be lowered |
| `CouponTight.BuyOne` | backend/internal/commerce/service.go:352-424 | A purchase in flight, run alone, goes through every statement to its commit and redeems once, whatever the count is by then |
| `CouponTight.EvaluateMany` | backend/internal/commerce/service.go:445-453 | While the limit is open any number of purchases pass the evaluation before the first commits |
| `CouponBound.StepExposes` | backend/internal/commerce/service.go:405-409 | Only an evaluation that finds the limit open raises redemptions plus purchases in flight, and by one |
| `CouponWindows.RedeemedInWindow` | backend/internal/commerce/queries/orders.sql:54-59 | Every redemption of any interleaved run, however late it commits, was promised by an earlier evaluation of that coupon for that user, made while the coupon was active, not before it starts and before it ends, and of exactly the amount that evaluation gave |
| `CouponWindows.PlayTraced` | backend/internal/commerce/service.go:427-470 | So were the purchases still in flight after any run |
| `CommerceInvariants.AtomicKeeps` | backend/internal/commerce/service.go:352-424 | Each whole transaction keeps every invariant of the tables |
| `CommerceInvariants.OpKeeps` | backend/internal/commerce/queries/orders.sql:71-86 | Each statement that commits on its own keeps them too |
| `CommerceModel.PercentRoundsDown` | backend/internal/commerce/model.go:144-166 | A percent discount lies between 0 and the subtotal, never exceeds the percentage, and unless capped misses it by less than one rial; under the bound below which the 64-bit product does not overflow |
| `CommerceModel.Discount` | backend/internal/commerce/model.go:144-166 | A discount is never larger than the subtotal or the cap and is 0 below the floor or for another kind; at or above the floor a fixed coupon gives the smallest of its amount, its cap and the subtotal |
| `CommerceModel.CountsAreRows` | backend/internal/commerce/queries/orders.sql:61-65 | The two redemption counts are the numbers of redemption rows of the coupon, and of the coupon and the user |
| `CommerceModel.EachLineCounts` | backend/internal/commerce/service.go:345-350 | A subtotal counts every line once with its own price, wherever it stands |
| `CommerceTx.GrantKeepsUnique` | backend/internal/commerce/queries/entitlements.sql:9-14 | The upsert of an entitlement keeps the unique index |
| `CommerceTx.GrantsEntitle` | backend/internal/commerce/service.go:377-401 | After all lines are granted each line has a live row for its owner that never expires |
| `CommerceTx.GrantsRowByRow` | backend/internal/commerce/queries/entitlements.sql:9-14 | Row by row, granting the lines of an order writes live, endless rows that name the order, each for the owner, edition, book and origin of one of its lines, or makes a live row that covers a line endless, and touches nothing else |
| `CommerceTx.GrantPassesCheck` | backend/internal/commerce/queries/entitlements.sql:29-36 | A live endless row of the owner passes the edition check at any time |
| `CommerceService.Service.DebitLocked` | backend/internal/commerce/service.go:178-196 | Succeeds exactly when the balance covers the amount; appends one debit row or changes nothing |
| `CommerceService.Service.CreditWallet` | backend/internal/commerce/service.go:138-147 | Refuses amounts that are not positive; otherwise appends one credit and raises the balance by it |
| `CommerceService.Service.Debit` | backend/internal/commerce/service.go:161-176 | Lowers the balance by the amount exactly when it is positive and covered, otherwise changes nothing |
| `CommerceService.Service.StartTopUp` | backend/internal/commerce/service.go:206-226 | Accepted exactly from 10,000 to 50,000,000 when the gateway starts; then one pending payment of that user and amount is added and nothing else changes |
| `CommerceService.Service.SettleTopUp` | backend/internal/commerce/service.go:235-287 | By status and verify outcome, the whole new state: a succeeded payment is returned and a failed one refused, both unchanged; a pending one that verifies succeeds with one credit of its amount; a pending one that does not verify becomes failed, the ledger and every other payment unchanged |
| `CommerceService.Service.SettleTx` | backend/internal/commerce/service.go:257-285 | The settling transaction does its atomic effect or rolls its credit back |
| `CommerceService.Service.PriceLines` | backend/internal/commerce/service.go:322-350 | Succeeds exactly when every edition is in the catalogue and none the buyer keeps is covered already, gifts to others not being checked; each priced line has the edition, book and price of the catalogue and the recipient asked for, and they sum to the subtotal; the first failing line decides the error |
| `CommerceService.Service.EvaluateCoupon` | backend/internal/commerce/service.go:433-470 | Not found exactly when there is no such coupon, it is inactive, has not started or has ended; not usable exactly when it is in its window and the subtotal is below its floor, a limit is reached or the discount is not positive; otherwise the discount, positive and at most the subtotal |
| `CommerceService.Service.GrantEntitlement` | backend/internal/commerce/queries/entitlements.sql:9-14 | A live row with the same user, edition and origin gets the new expiry and keeps its source; otherwise the row is inserted |
| `CommerceService.Service.WriteLines` | backend/internal/commerce/service.go:377-401 | The item loop writes every line to the order and grants it, one after another |
| `CommerceService.Service.PurchaseTx` | backend/internal/commerce/service.go:353-420 | The purchase transaction does its atomic effect or leaves no trace |
| `CommerceService.Service.Purchase` | backend/internal/commerce/service.go:306-425 | A known key returns its order and changes nothing; otherwise it succeeds exactly when every line can be sold, the coupon can be used and the wallet covers the rest, and reports insufficient funds exactly when only the last fails, a coupon error only when all lines can be sold; a success used a coupon that was active and in its window, took no line its buyer owned, recorded each line at its catalogue price, charged exactly subtotal less discount and lets every owner play; an error changes nothing |
| `CommerceService.PurchaseCharges` | backend/internal/commerce/service.go:364-371 | The purchase transaction lowers the buyer's balance by exactly subtotal less discount |
| `CommerceService.PurchaseGrants` | backend/internal/commerce/service.go:377-401 | The purchase transaction lets the owner of every line play its edition at any time, with a live endless row of the right origin |
| `CommerceService.PurchaseRowByRow` | backend/internal/commerce/service.go:377-401 | It writes entitlements of its own order for its lines, makes rows that cover a line endless, and leaves every other entitlement as it was |
| `CommerceService.ApproveMeans` | backend/internal/commerce/service_access.go:363-378 | An approval appends one credit of the amount to the buyer, leaves no live entitlement of the order, marks the order refunded and the refund approved, and changes no entitlement, order, refund, payment or subscription besides |
| `PaidOnce.PaysAtMostOnce` | backend/internal/commerce/service.go:334-344 | When purchases come one at a time, mixed with refunds and everything else, nobody ever has two paid, unrefunded lines of his own for one edition exactly when no purchase that goes through names an edition on two lines for its buyer |
| `PaidOnce.SoldPaysOnce` | backend/internal/commerce/service.go:322-350 | The same for a single purchase: it leaves nobody paying twice exactly when nobody did before and its own lines differ |
| `PaidOnce.SoldIsNotSellable` | backend/internal/commerce/service.go:334-344 | While a buyer has a paid line for an edition no line for it can be sold to him, at any time |
| `PaidOnce.RefundBacked` | backend/internal/commerce/queries/entitlements.sql:50-53 | An approved refund takes back no entitlement that another paid order stands for |
| `PaidOnce.RepeatedLine` | backend/internal/commerce/service.go:322-350 | An order that names an edition twice for its buyer passes every check, is charged twice the price and leaves one entitlement |
| `PaidOnce.StaleQuote` | backend/internal/commerce/service.go:334-344 | Two orders for one edition quoted before either is written are both charged and leave one entitlement; after the first the second could no longer be quoted |
| `PaidOnce.BuyAt` | backend/internal/commerce/service.go:306-425 | Every call of Purchase is such a purchase, quoted and written with nothing in between, or changes nothing |
| `CommerceService.RetriedPurchase` | backend/internal/commerce/service.go:311-320 | Sending a successful purchase again with its key returns the same order and changes nothing, whatever the catalogue says by then |
| `CommerceService.RepeatedCallback` | backend/internal/commerce/service.go:241-243 | A second gateway callback answers the same and changes nothing |
| `CommerceService.RefusedThenVerified` | backend/internal/commerce/service.go:245-254 | After a refused verification a verified callback for the same payment is an error: the payment stays failed, without a credit, and nothing moves |
| `CommerceService.RepeatedApproval` | backend/internal/commerce/service_access.go:359-362 | Approving again or rejecting after approval is refused and changes nothing |
| `CommerceService.RejectedThenApproved` | backend/internal/commerce/service_access.go:382-384 | A rejected refund stays rejected: approving it later is refused, and no money moves |
| `CommerceService.Service.FindActive` | backend/internal/commerce/queries/subscriptions.sql:10-14 | Returns an active, unexpired subscription of the user, and no such subscription runs longer than the one returned; none exactly when there is none |
| `CommerceService.Service.IsEntitledToEdition` | backend/internal/commerce/service_access.go:21-42 | True exactly with a live, unexpired entitlement to the edition or to its whole book, or when the longest running active, unexpired subscription has used fewer hours than the cap of its plan; never for an anonymous listener |
| `CommerceService.Service.Subscribe` | backend/internal/commerce/service_access.go:111-161 | Succeeds exactly when the plan exists and the wallet covers a positive price; charges the price; extends an active subscription by the days of the plan and resets its hours, keeping its own plan and renewal switch, or starts one now with the plan and the switch asked for; no other subscription changes; an error changes nothing |
| `CommerceService.Service.SubscribeTx` | backend/internal/commerce/service_access.go:118-155 | The transaction does its atomic effect, charging exactly the price, or leaves no trace |
| `CommerceService.Service.RequestRefund` | backend/internal/commerce/service_access.go:307-344 | Succeeds exactly for the owner of a paid, eligible order with a positive total, and then adds one requested refund of that total to that user; an error changes nothing |
| `CommerceService.Service.ApproveRefund` | backend/internal/commerce/service_access.go:351-380 | Succeeds exactly for a requested refund: credits its amount, ends every entitlement of the order and marks it refunded, all or nothing |
| `CommerceService.Service.RejectRefund` | backend/internal/commerce/service_access.go:382-384 | Succeeds exactly for a requested refund, which becomes rejected; nothing else changes |
| `CommerceService.OrgGrantCovers` | backend/internal/commerce/service_access.go:84-90 | What an organisation grants lets its user play every edition of the book until it ends, and changes nobody's access to anything else |
| `CommerceService.HoursUseUpCapacity` | backend/internal/commerce/queries/subscriptions.sql:36-40 | Hours listened to close the capacity of their own subscription exactly when they reach the cap, and of no other |
| `CommerceService.ExpiredIsOver` | backend/internal/commerce/queries/subscriptions.sql:44-48 | An expired subscription is nobody's active one at any time; every other stays as active as it was |
| `Renewals.RenewedWhenAffordable` | backend/internal/commerce/service_access.go:275-298 | A renewal succeeds exactly when the plan exists and the wallet covers its price at that turn; the error tells which failed |
| `Renewals.TurnIsTransaction` | backend/internal/commerce/service_access.go:235-241 | A turn of the sweep is the renewal transaction, kept only if it succeeded, followed by the attempt marker |
| `Renewals.AttemptMeans` | backend/internal/commerce/queries/subscriptions.sql:74-78 | An attempt that fails changes nothing but the marker and its counter; one that succeeds takes exactly the price, adds the days of the plan, resets hours and failures, marks the attempt and reactivates an expired row |
| `Renewals.TriedOnce` | backend/internal/commerce/service_access.go:235-255 | Each listed subscription is tried once, against the wallet as the earlier turns left it |
| `Renewals.SweepRow` | backend/internal/commerce/queries/subscriptions.sql:62-72 | What a sweep does to any one subscription: a due one is extended, or only marked; any other is left alone; what is then active and over is expired |
| `Renewals.SweepSpares` | backend/internal/commerce/queries/subscriptions.sql:62-72 | What a sweep does not list it does not charge, mark or extend; it only expires it when it is active and over |
| `Renewals.NothingOverdue` | backend/internal/commerce/queries/subscriptions.sql:44-48 | After a sweep no subscription is both active and overdue |
| `Renewals.RenewedIsActive` | backend/internal/commerce/queries/subscriptions.sql:82-85 | A renewed subscription, even one picked up expired, is active after the sweep exactly when its new expiry lies beyond now |
| `Renewals.PeriodCoversGrace` | backend/internal/commerce/service_access.go:199-203 | That holds for everything the window can pick up exactly when 24 * PeriodDays >= GraceHours |
| `Renewals.ListDue` | backend/internal/commerce/queries/subscriptions.sql:62-72 | Lists, once each and earliest expiry first, exactly the subscriptions that renew themselves, are active or expired, end within the lookahead, have not been over for as long as the grace, and were not tried within the back-off |
| `Renewals.TryRenew` | backend/internal/commerce/service_access.go:275-298 | renewOne does its transaction or leaves no trace |
| `Renewals.Turns` | backend/internal/commerce/service_access.go:235-255 | The loop does the turns in order and counts each under what came of it |
| `Renewals.TallyOf` | backend/internal/commerce/service_access.go:243-254 | Renewed plus insufficient plus failed is the number of turns |
| `Renewals.TallyIsCount` | backend/internal/commerce/service_access.go:243-254 | Each of the three counters is the number of turns that ended its way |
| `Renewals.TurnTells` | backend/internal/commerce/service_access.go:243-254 | A turn counts as renewed exactly when its transaction succeeds, as insufficient exactly when it lacks funds, as failed exactly when the plan is gone |
| `Renewals.ExpireOverdue` | backend/internal/commerce/service_access.go:257-261 | Expires exactly what is active and over, changes no other subscription, and reports how many |
| `Renewals.Reconcile` | backend/internal/commerce/service_access.go:227-265 | One sweep tries exactly the due subscriptions in order of expiry, then expires what is over; a subscription that does not renew itself or is canceled is never listed, charged, marked or extended; renewed + insufficient + failed equals the number due |
| `Lifetimes.NoRenewalLost` | backend/internal/commerce/service_access.go:189-203 | In any run of sweeps, sign-ups, cancellations, purchases and credits with sweeps at most lookahead + grace apart and periods long enough, every self-renewing subscription whose window had opened by the last sweep was tried inside its window, for the very expiry it has now and not for an earlier one |
| `Lifetimes.DefaultWindowLosesNothing` | backend/internal/commerce/service_access.go:199-203 | With the default window: sweeps at most 73 hours apart and periods of at least 4 days lose no renewal: once the window is open, a try for the present expiry has been made in it |
| `LostRenewals.LongGapLosesRenewal` | backend/internal/commerce/service_access.go:206-216 | For every window, period and gap longer than lookahead + grace there is a run, from an empty shop, that leaves a self-renewing subscription never tried for the expiry whose window has closed |
| `LostRenewals.ShortPeriodLosesRenewal` | backend/internal/commerce/service_access.go:206-216 | So there is for every period shorter than lookahead + grace + back-off or no longer than the lookahead, even with sweeps at most lookahead + grace apart, whether there is a back-off or not |
| `LostRenewals.ThreeDaysLoseRenewal` | backend/internal/commerce/service_access.go:199-203 | With the default window three-day periods lose a renewal, so four days is the least |
| `LostRenewals.NothingLost` | backend/internal/commerce/service_access.go:189-203 | Within both conditions no run ever loses one |
| `LostRenewals.PeriodIsExact` | backend/internal/commerce/service_access.go:206-216 | With sweeps as far apart as lookahead + grace, no run ever loses a renewal exactly when every period is longer than the lookahead and at least lookahead + grace + back-off |
| `LostRenewals.ReachIsExact` | backend/internal/commerce/service_access.go:206-216 | With such periods, no run ever loses a renewal exactly when sweeps are at most lookahead + grace apart |
| `Lifetimes.GapIsExact` | backend/internal/commerce/service_access.go:206-216 | A first sweep after a window opens is always inside it exactly when sweeps are at most lookahead + grace apart |
| `Lifetimes.AttemptsSpaced` | backend/internal/commerce/queries/subscriptions.sql:68-71 | Across any run, however its sweeps are spaced, two attempts on one subscription are more than RetryAfterHours apart, and the marker is the last of them |
| `Lifetimes.DefaultAttemptsSpaced` | backend/internal/commerce/service_access.go:199-203 | With the default window they are more than six hours apart |
| `Lifetimes.StoppedNeverTried` | backend/internal/commerce/queries/subscriptions.sql:62-65 | A subscription that does not renew itself is never tried again in any continuation of any run |
| `Lifetimes.CancelIsFinal` | backend/internal/commerce/queries/subscriptions.sql:27-31 | After its owner cancels it, however the run goes on, a subscription is never tried, charged or extended again and ends when it would have ended |
| `Lifetimes.EventKeeps` | backend/internal/commerce/service_access.go:227-265 | Each event keeps every subscription on track |
| `SessionRuns.OneLiveToken` | backend/internal/identity/service.go:247-287 | After any run of operations each token family has at most one token that is neither used nor revoked |
| `SessionRuns.OneChain` | backend/internal/identity/service.go:282-284 | The tokens of a family form one replacement chain: of any two, the earlier leads to the later |
| `SessionRuns.ReplayIsFinal` | backend/internal/identity/service.go:255-260 | After a replay no later operation of the run revives the family: none of its tokens, old or new, is ever live again |
| `SessionRuns.ReplayKillsFamily` | backend/internal/identity/service.go:255-260 | Presenting a used or revoked token is answered as a replay and leaves its family dead |
| `SessionRuns.DeadNeverRefreshes` | backend/internal/identity/service.go:255-260 | A token of a dead family is never exchanged |
| `SessionRuns.DeadStays` | backend/internal/identity/queries/refresh_tokens.sql:33-36 | No operation adds a live token to a dead family |
| `SessionRuns.LogoutIsFinal` | backend/internal/identity/service.go:289-295 | A token that was signed out is never exchanged again in any continuation; presenting it is answered as a replay |
| `SessionRuns.LiveTokenLinks` | backend/internal/identity/service.go:359-371 | A live token belongs to an active user and, if bound to a device, to a device of that user that is signed in |
| `SessionRuns.DeviceCap` | backend/internal/identity/service.go:82-86 | Active devices never exceed the cap; an unset cap is five |
| `LoginCodes.LoginAnswersToRequest` | backend/internal/identity/service.go:162-180 | In every run a successful verification answers to an earlier request of that very phone number and code, less than its lifetime ago, tried with fewer wrong codes than it allows and never before with the right one |
| `LoginCodes.CodeLogsInOnce` | backend/internal/identity/service.go:179-181 | Each requested code logs in at most once |
| `LoginCodes.LoginIsNewest` | backend/internal/identity/queries/otp.sql:6-13 | A code does not log in once a later one was requested for the same number, unless that is spent or over |
| `LoginCodes.RightCodeLogsIn` | backend/internal/identity/service.go:162-207 | The newest code of a number, in time, unspent and not tried too often, logs in unless the account is not active |
| `LoginCodes.LoginToken` | backend/internal/identity/service.go:183-207 | The token of a login is live, lasts as long as configured, is bound to the device the login came from and belongs to the one account of that phone number; no live token of anybody else is touched |
| `SessionRuns.RunKeeps` | backend/internal/identity/service.go:162-371 | Every run keeps the session invariants |
| `SessionRuns.NextKeeps` | backend/internal/identity/service.go:162-371 | Every operation keeps them |
| `SessionProofs.RegisteredOk` | backend/internal/identity/service.go:215-237 | Registering a device meets the cap, keeps the device just registered and signs out only with its tokens |
| `SessionProofs.NewestStays` | backend/internal/identity/queries/devices.sql:47-54 | The device just registered is never the one evicted |
| `SessionProofs.RegisteredMeans` | backend/internal/identity/service.go:215-237 | Of the devices of a user, the new one among them, exactly as many as the cap allows stay signed in, each more recently active than each that goes; the tokens of a device go with it, and no other device or token changes |
| `SessionProofs.Rotated` | backend/internal/identity/service.go:277-284 | Rotation extends the chain at its end |
| `SessionProofs.TipIsLatest` | backend/internal/identity/service.go:282-284 | The unused token of a family is its latest |
| `SessionProofs.SignedOutKeeps` | backend/internal/identity/repo.go:269-299 | Signing devices out takes their tokens along |
| `SessionService.Service.UpsertDevice` | backend/internal/identity/queries/devices.sql:3-14 | A device of the user with the same fingerprint comes back to life, any other gets its own row; either way it is signed in as of now and no other row changes |
| `SessionService.Service.RevokeOldest` | backend/internal/identity/queries/devices.sql:47-54 | Signs out a least recently active device with its tokens |
| `SessionService.Service.CapDevices` | backend/internal/identity/service.go:225-234 | The loop ends having signed out exactly the least recently active devices, as many as exceed the cap |
| `SessionService.Service.RegisterDevice` | backend/internal/identity/service.go:215-237 | Upsert, then the cap: exactly the surplus of least recently active devices goes, with its tokens; a cap of zero or less evicts nobody |
| `SessionService.Service.IssueToken` | backend/internal/identity/repo.go:301-334 | Inserts one live token into the given family, or into one of its own |
| `SessionService.Service.RefreshToken` | backend/internal/identity/service.go:247-287 | Succeeds exactly for a token that is neither used, revoked nor expired and whose user is active; the presented token dies and one live successor of the same user, device and family replaces it, no other token changing; a replay kills the family, an inactive account all its tokens, and only those |
| `SessionService.Service.RequestOtp` | backend/internal/identity/service.go:111-160 | Refused exactly when an account of the number is not active; otherwise one fresh code of that number and code is added |
| `SessionService.Service.FindOtp` | backend/internal/identity/queries/otp.sql:6-13 | A code of that very number, unconsumed and unexpired, and no such code is newer; none exactly when there is none |
| `SessionService.Service.VerifyOtp` | backend/internal/identity/service.go:162-207 | Answers to the newest unconsumed, unexpired code of that very number: without one it is invalid; once its tries are used up nothing changes; a wrong code is invalid and counts; a right one is consumed and logs in or meets an account that is not active |
| `SessionService.Service.Logout` | backend/internal/identity/service.go:289-295 | The presented token is dead; nothing else changes |
| `SessionService.Service.LogoutAll` | backend/internal/identity/service.go:297-302 | Leaves the user no live token and changes nobody else's |
| `SessionService.Service.RevokeDevice` | backend/internal/identity/repo.go:269-284 | Leaves the device no live token; the device row is revoked exactly for its owner; no other device or token changes |
| `SessionService.Service.SetStatus` | backend/internal/identity/service.go:359-371 | Sets the status; leaving the active one leaves the user no live token; nobody else is touched |
| `ByteRange.ClampMeans` | backend/internal/media/rangeclamp.go:31-77 | Success exactly when one well-formed interval starts inside a positive window; the output asks for exactly that interval cut to the window, never empty, and reads back as it |
| `ByteRange.RequestedGrammar` | backend/internal/media/rangeclamp.go:40-72 | A header asks for an interval exactly when it is the unit, a first position, a hyphen and a last position that is missing or not smaller; suffixes, several ranges and malformed or oversized numbers ask for none |
| `ByteRange.ClampIntersects` | backend/internal/media/rangeclamp.go:31-77 | Byte by byte the output covers what the header asked for and the window allows |
| `ByteRange.ClampTwice` | backend/internal/media/rangeclamp.go:31-77 | Clamping by l1 and then l2 is clamping by the smaller, refusals included |
| `ByteRange.ClampIdempotent` | backend/internal/media/rangeclamp.go:31-77 | Clamping a clamped header changes nothing |
| `ByteRange.PrintedReadsBack` | backend/internal/media/rangeclamp.go:76-76 | A printed range reads back as the interval it was printed from |
| `Base64Url.RoundTrip` | backend/internal/media/access.go:88-89 | Decoding undoes encoding for every byte string (section 5 of RFC 4648, without padding) |
| `Base64Url.Injective` | backend/internal/media/access.go:88-89 | Different byte strings have different encodings |
| `Base64Url.EncodedInAlphabet` | backend/internal/media/access.go:88-89 | An encoding holds only characters of the alphabet, hence no full stop |
| `Base64Url.GroupIsNumber` | backend/internal/media/access.go:88-89 | Three bytes are written as the four base-64 digits of their 24-bit number, in the alphabet of table 2 of RFC 4648 |
| `Base64Url.LastGroup` | backend/internal/media/access.go:88-89 | One or two last bytes are written like a group filled up with zeros, without the characters it lacks |
| `StreamAccess.SignVerify` | backend/internal/media/access.go:86-126 | A minted token verifies to exactly what was signed, unless it has expired or the asset id holds the separator, and then never |
| `StreamAccess.VerifiedIsSigned` | backend/internal/media/access.go:92-126 | Whatever verifies is some text, a full stop and the keyed hash of that text, and has not expired |
| `StreamAccess.PayloadSplits` | backend/internal/media/access.go:106-109 | A payload splits into three parts exactly when the asset id holds no separator |
| `StreamAccess.DecisionRestricts` | backend/internal/media/service.go:79-116 | Whatever is playable is published and let through by the kids policy; full access is for what is free or owned, a preview is as long as the edition says |
| `StreamAccess.DecisionMeans` | backend/internal/media/service.go:81-116 | Full access is decided exactly for what may be heard and is free or owned, a preview exactly for what may be heard, is neither and has one; an error exactly when a check that was needed failed |
| `StreamAccess.MintedExactly` | backend/internal/media/service.go:125-151 | A token is minted exactly for those who may hear the edition in full or for its preview |
| `StreamAccess.OwnerHearsEverything` | backend/internal/media/service.go:81-205 | From the edition to the bytes: whoever may hear a free or an owned edition gets a token with which, until it expires, every header is passed on to storage unclamped |
| `StreamAccess.PreviewIsServed` | backend/internal/media/service.go:81-205 | Whoever may hear only the preview gets a token with which a request is served exactly when it asks for one well-formed range that starts inside the window |
| `StreamAccess.LimitIsLinear` | backend/internal/media/access.go:146-155 | Below the overflow bound the limit is 125 bytes per second and kilobit, plus 64 KiB |
| `StreamAccess.PreviewContained` | backend/internal/media/service.go:177-205 | Whatever Range header is sent with a preview token, storage is asked for exactly the requested bytes inside the preview window |
| `StreamAccess.PreviewUnionContained` | backend/internal/media/service.go:177-205 | Any number of requests with one preview token together stay inside [0, PreviewByteLimit) |
| `StreamAccess.UnlimitedMeansFull` | backend/internal/media/service.go:139-150 | A valid token makes the endpoint pass Range headers on to storage unclamped, all of them or just the empty one, exactly when it was minted from a full-access decision |
| `StreamAccess.ReadRefused` | backend/internal/media/service.go:177-195 | A read is refused exactly when the token does not verify, the asset is gone, or a preview token meets a header that asks for no single range starting inside the window |
| `StreamAccess.NotOwnedHearsPreviewOnly` | backend/internal/media/service.go:125-151 | From the edition to the bytes: a listener who does not own a paid edition is never served a byte past its preview window |
| `GoText.ParseUndoesFormat` | backend/internal/media/access.go:111-123 | Parsing undoes printing exactly for numbers of 64 bits |
| `GoText.ParseMeans` | backend/internal/media/access.go:111-123 | Digits with or without one sign are read as their value exactly when it fits 64 bits |
| `GoText.SplitCount` | backend/internal/media/access.go:106-109 | Splitting gives one part more than there are separators |
| `GoText.TrimSpaceMeans` | backend/internal/media/rangeclamp.go:40-40 | Trimming takes all white space off both ends and nothing else |
| `Streaks.Compute` | backend/internal/library/service.go:272-315 | The longest streak is the largest block of consecutive days in the set, positive exactly when there are days; the current one is the maximal block that ends at the newest day, and is positive exactly when today or yesterday is among the days and none lies in the future; current <= longest |
| `Streaks.Dedupe` | backend/internal/library/service.go:277-286 | Keeps each day once |
| `Streaks.Longest` | backend/internal/library/service.go:291-300 | The run-counting loop finds the largest block |
| `Streaks.CountBack` | backend/internal/library/service.go:307-314 | The second loop finds the maximal block that ends at the newest day |
| `Streaks.CurrentWithinLongest` | backend/internal/library/service.go:272-315 | The current streak is at most the longest |
| `Streaks.StreakUnique` | backend/internal/library/service.go:272-315 | The set of days decides both streaks |
| `Streaks.TodayCarriesOn` | backend/internal/library/service.go:303-315 | Listening today lengthens a streak that ended yesterday by one, and the longest with it when it is overtaken |
| `Streaks.OrderAndRepetitionIrrelevant` | backend/internal/library/service.go:277-287 | Permuting or repeating the days changes neither streak |
| `PersianText.NormalizedIsCanonical` | backend/internal/catalog/service.go:109-132 | The output has no foldable variant, mark or haraka and no leading, trailing or doubled white space |
| `PersianText.FixedExactlyWhenCanonical` | backend/internal/catalog/service.go:109-132 | A text is left alone exactly when it is in that form |
| `PersianText.Idempotent` | backend/internal/catalog/service.go:109-132 | Normalising twice is normalising once |
| `PersianText.CollideExactlyOnWords` | backend/internal/catalog/service.go:109-132 | Two texts get the same output exactly when their folded word lists are equal |
| `PersianText.SpellingsCollide` | backend/internal/catalog/service.go:109-132 | Two texts whose letters agree up to the three yehs, the two kafs and the digits of three scripts are normalised to the same |
| `PersianText.FoldsTogether` | backend/internal/catalog/service.go:109-132 | No other two letters are made the same |
| `PersianText.MarksVanish` | backend/internal/catalog/service.go:109-132 | A direction mark or a vowel sign anywhere makes no difference |
| `PersianText.JoinerIsSpace` | backend/internal/catalog/service.go:109-132 | A zero-width non-joiner separates words like a space |
| `PersianText.SplitUndoesJoin` | backend/internal/catalog/service.go:131-131 | Splitting undoes joining on lists of words |
| `Chapters.ReadyParts` | backend/internal/ingest/audio.go:189-202 | Keeps the finished parts with a file, in order |
| `Chapters.ReadyMeans` | backend/internal/ingest/audio.go:189-202 | A part is kept exactly when it is not unfinished and its key is not blank |
| `Chapters.LeftOutMeans` | backend/internal/ingest/audio.go:189-202 | A part is left out exactly when its status is some spelling of pending, processing, failed or error, or its key is blank |
| `Chapters.ReadyInOrder` | backend/internal/ingest/audio.go:189-202 | The parts kept stay in the order they came in |
| `Chapters.ChaptersFrom` | backend/internal/ingest/audio.go:243-266 | Chapter i bears the title of part i, or its number when it has none, and runs from the cumulative duration before part i to the one after it; there are none exactly for no parts or a single untitled one |
| `Chapters.TotalDuration` | backend/internal/ingest/audio.go:296-311 | The reported total is the end of the last part |
| `Chapters.FirstFormatMeans` | backend/internal/ingest/audio.go:268-275 | The joined file has the first format that is not blank, in lower case, mp3 when there is none |
| `Chapters.ChaptersTile` | backend/internal/ingest/audio.go:243-266 | With durations that are not negative the chapters are ordered and contiguous from 0 to the total that concatenation reports |
| `Chapters.SeamsSurviveRounding` | backend/internal/catalog/write.go:279-285 | They still tile after each boundary is rounded to a millisecond |
| `Chapters.StoredIsClose` | backend/internal/catalog/write.go:243-260 | A stored chapter keeps its title and its place, and each boundary to half a millisecond |
| `Chapters.RoundingIsMonotone` | backend/internal/catalog/write.go:279-285 | Rounding keeps order |
| `Chapters.RoundingIsClose` | backend/internal/catalog/write.go:279-285 | A boundary moves by at most half a millisecond, and a tie goes to the even one |
| `Chapters.SyncedEditionTiles` | backend/internal/catalog/write.go:243-260 | The stored chapters of a synced edition tile the joined audio to the millisecond |
| `Chapters.Ingest.Materialise` | backend/internal/ingest/audio.go:217-239 | One file is used where it lies and needs a duration; several are joined under the key of the narrated book and report their sum; the chapters are those of the parts |
| `Chapters.Ingest.SyncAudio` | backend/internal/ingest/audio.go:92-161 | Unchanged audio is left alone; otherwise it succeeds exactly when the file is made and the edition is saved; either failure marks the submission failed and touches no edition; a success writes one edition whose chapters, key, format and length are those of the parts, and records the signature |
| `Chapters.SyncTwice` | backend/internal/ingest/audio.go:109-114 | A second sync over the same parts changes nothing |
| `Chapters.SignatureMeans` | backend/internal/ingest/audio.go:204-213 | Under a hash without collisions two signatures are equal exactly for the same keys and durations, to the millisecond, in the same order |
| `Chapters.SyncChanged` | backend/internal/ingest/audio.go:109-114 | So after a sync a part added, dropped, replaced or of another length makes the next sync make the edition anew |

## Left out

- Advisory lock keys are hashes of user ids; two users that collide would only wait for each other, so the model locks by user.
- Sums of money are unbounded integers: an order subtotal or a balance beyond 64 bits is not modelled. The product in `Discount` and all of `PreviewByteLimit` do wrap.
- A coupon is looked up by its row; trimming and upper-casing the code a client types is not modelled.
- In the interleaved model, whether Subscribe extends or creates is part of the transaction started, because the code decides it by a read without a lock; `CommerceService.Service.Subscribe` models the decision itself.
- Refund eligibility (the seven-day window and the listened ratio) and the gateway's verify answer are inputs.
- At most one refund per order, one active subscription per user, a single renewal under overlapping sweeps and a single use of one refresh token under concurrency are not claimed: nothing in the code decides them. Sweeps and identity operations are sequential.
- The three hours of a renewal window are natural numbers, and a window of no width never reaches the sweep: its caller replaces it by the default.
- One instant `now` serves a whole sweep; a crash between two statements that are not in one transaction is not modelled.
- Deadlocks: PostgreSQL aborts one of the transactions, which is the machine's abort step at any moment.
- Rows deleted in cascade with a user or a book, and administrators editing coupons or plans, are not modelled.
- The hash behind a refresh token, the keyed hash of a stream token and the signature hash of audio parts are functions about which nothing is assumed; unforgeability is not claimed.
- A Range header is a sequence of Unicode code points; invalid UTF-8 is not modelled.
- Floating point: hours consumed and durations are reals. The addition that lays out chapters is any addition that never moves backwards, which covers machine rounding; decimal rounding is half to even.
- The rate limiter, the outbox, SMS, object storage, ffmpeg, HTTP handlers, JSON shapes, roles, profiles and listing queries.
- `Slugify`, listening-position upserts, kids policy rules (used as a verdict in `ResolveAccess`) and the AI dispatch.
- CommerceModel.Discount: a percentage whose 64-bit product overflows is bounded by the subtotal and the cap and nothing else is stated about it; below that bound `PercentRoundsDown` states the rounding.
- CommerceService.Service.IsEntitledToEdition: when two active subscriptions end at the same instant the database may pick either, and so may the model.
- Chapters.Ingest.SyncAudio: the generated summary carried over to an empty book description, and the edition's voice, language and price, are not modelled.
- Lifetimes.NoRenewalLost: sweeps at most lookahead plus grace apart and long enough periods are assumed, as the window's design does; `LostRenewals` shows what happens without either.
