# Points, orders and travel: a verified model of the backend's books

The backend keeps three interlocking books: points with expiring grants, paid
orders over two stock stores, and travel orders bought with points. This
project models them in Dafny and proves that each agrees with a simpler account
of itself over every run, and says exactly when it does not.

`dafny verify dfyconfig.toml` checks the whole project.

## How it is organised

| files | what they hold |
|---|---|
| `sums.dfy`, `digits.dfy` | sums over table rows; decimal strings |
| `point_book.dfy`, `point_lots.dfy` | the points tables and the operations on them as functions; how lots are drawn and restored |
| `point_service.dfy` | class `PointAccount`: the operations as loops over mutable tables, proved against `point_book.dfy` |
| `point_history.dfy`, `point_theorems.dfy` | what every run keeps; optimality, replay, refund |
| `point_effects.dfy`, `point_revocation.dfy` | what each operation writes, row by row; taking a reward back |
| `point_expiry.dfy`, `point_blocking.dfy`, `point_clock.dfy` | expiry keys; when an expiry is refused and what that blocks; the clock readings of a debit |
| `order_protocol.dfy` | order creation, cancel and refund as interleaved single statements and Redis commands |
| `order_stock.dfy`, `order_balance.dfy` | what every interleaving keeps of the shelf; stock conservation and its exact condition |
| `order_redis.dfy` | the Redis mirror and compensation |
| `order_identity.dfy`, `order_voiding.dfy` | one order per key, status pairs; when an unlocked cancel voids a paid order |
| `order_service.dfy`, `order_alone.dfy` | class `StockCache` and the loops of order creation as methods; the state machine run without interruption amounts to them |
| `shop.dfy`, `shop_history.dfy`, `shop_theorems.dfy`, `shop_service.dfy` | payment, cancel, refund, wallet, sales and entitlements as transactions; what every run keeps; wallet, refund and timeout results; class `Store` |
| `shop_effects.dfy` | what each transaction leaves behind: order, entitlements, counters, stock, wallet |
| `shop_stranded.dfy`, `shop_misfiled.dfy` | orders voided after being paid; orders paid from a wallet but filed under WeChat |
| `shop_counters.dfy`, `shop_overlap.dfy` | sales counters under overlapping payments and cancels |
| `travel.dfy`, `travel_history.dfy`, `travel_ledger.dfy`, `travel_theorems.dfy`, `travel_effects.dfy`, `travel_service.dfy` | travel endpoints, coupled to the points tables; the diagram of a trip; class `TravelDesk` |
| `snowflake.dfy`, `vip.dfy` | the id generator and VIP time, each with its class |

An operation that changes rows step by step is a method of a class, proved to
take a step of the corresponding state machine. `Store`, `TravelDesk` and
`PointAccount` carry the invariant of all reachable states as `Valid()`, and
their endpoints state what a caller can rely on afterwards. Order creation is a state machine, because
its promises are about interleavings.

## Assumptions

- `SELECT ... FOR UPDATE` returns the committed row and holds it to commit or
  rollback. The row locks one statement takes are taken together.
- An error, including a unique-key violation, rolls the transaction back.
- Rows are numbered by their position in their table and never deleted; the
  refund of an expense picks the first matching row.
- Runs of point operations read the clock once per operation. The three readings
  of a debit are modelled as three parameters where that matters.
- Outside the creation protocol, one endpoint or service call is one step.
  Where the code does not lock, the gap is its own step: a payment reads the
  product rows (`BeginPay`) and commits later, a WeChat session is opened and its
  channel stamped later (`StartWechat`, `Stamp`), and a payment sync reads its
  order without a lock and cancels it later (`SyncRead`, `SyncItems`, `SyncCancel`
  in the shop, `StartRestore` with `locked` false in the creation protocol).
- A call that needs an order row which a payment in progress holds does not get
  it (`RowLocked`); waiting for it is the same call made later.
- Redis keys can expire or be corrupted at any moment where a theorem says so.
  A crash between a Redis command and the commit beside it is not modelled.
- Money is integer cents. Tokens and transaction numbers are unique.

## What the proofs found

- A debit reads the clock three times. Points that lapse between the first two
  readings are granted a second time; the books stay balanced if and only if no
  lot lapses there (`DebitBalancedIffNothingLapses`, with the run `LapseUnbalances`).
  An account that has had its opening grant is refused instead (`LapseRefuses`).
  In terms of the caller's book, on any book, `DebitRefusedIff` says when each
  refusal is given; in a consistent book the mismatch error is raised if and only
  if the coverage check passes and the amount exceeds what does not lapse between
  the last two readings (`MismatchIffLapsed`, with the run `LapseMismatches`).
- The expiry key is built from the highest due lot. Over every history an expiry
  is refused if and only if that lot was also the highest one at an earlier posted
  expiry (`ExpiryRefusedIff`); some refund has then revived an expired lot
  (`RefusedMeansRevived`), and as long as that holds every new debit is refused
  as well (`RefusedExpiryBlocksDebits`, with the run `RevivedLotBlocksAccount`).
- The payment sync cancels without locking the order row (`app/api/commerce.py:395-407`).
  Over every run, stock is conserved if and only if each commit still finds what
  its call had read, and otherwise grows by exactly the difference
  (`RunBalancesStock`, `RunConservesIffFresh`); a paid order is voided if and only if it was
  paid between such a cancel's read and its commit (`VoidedIffPaidDuringCancel`).
  Redis mirrors the database all the same (`RunMirrors`). Both failures are
  reachable (`UnlockedCancelsRestoreTwice`, `UnlockedCancelVoidsPaidOrder`).
- An order voided that way keeps its entitlements active and its price for good:
  its entitlements disagree with its status, and a wallet has lost the price, if
  and only if it was paid inside a sync that cancelled it with no refund in between
  (`StrandedIffPaidDuringSync`, `EntitlementsDisagreeIff`, `PriceLostIff`, `StrandedForever`,
  with the run `LateCancel`).
- Sales counters are read without a lock when an order is paid. Over every run a
  counter is its opening value plus the units in paid orders and in orders voided
  after being paid, less what payments overwrote, plus what refunds clipped at
  zero (`SalesMatchPaidOrders`). It is right throughout if and only if every
  payment commits on the counter it read and none commits inside a sync that
  cancels the order (`AlwaysRightIffFresh`); without refunds, if and only if no
  payment that sells the product commits inside another or inside such a sync
  (`AlwaysRightIffNoOverlap`). With refunds an overlap can cancel out, so only one
  half remains (`UntouchedIsRight`). `LostSale` is a run with a counter too low,
  `LateCounter` one with a counter too high. A refund is never clipped while every
  payment commits on the counter it read (`FreshNeverClips`).
- Opening a WeChat payment writes the channel column without a lock. A
  wallet-paid order ends up filed under WeChat if and only if a session opened
  before its payment was stamped after it (`MisfiledIffStampedLate`, with the run
  `MisfiledReachable`); from then on its refund never reaches the wallet
  (`MisfiledForever`, `RefundReachesWalletIffFiled`).
- The timeout reports a change also for an order that was paid long before
  through WeChat, and then changes nothing (`TimeoutReportIff`, `PaidOrderReported`).
  The sweep lists such orders as cancelled (`SweepListsIff`).
- Every signed travel order can be cancelled, refunded and still travelled, since
  rejecting its contract reopens it (`RefundedOrderTravels`); nothing but that and
  an exception mark does (`CancelledStaysIff`).
- A VIP purchase shortens the membership if and only if it was permanent
  (`ShortensIffPermanent`).
- Each refund builds its own id generator, so two refunds get the same number if
  and only if they read the same millisecond (`FreshGeneratorsCollideIff`).
- A point operation with a key longer than 160 characters would not be
  replayable, because the key is cut when stored (`ReplayIffKeyFits`). The
  callers build short keys, so this concerns the service's own contract only.

## Model

| member | source | states |
|---|---|---|
| PointService.PointAccount.CreditLocked | app/services/point_service.py:92-146 | a credit is refused for a non-positive amount or a taken cut key, replays a known key, or posts one income row and one active lot; consistent books stay consistent |
| PointService.PointAccount.ExpireDueLocked | app/services/point_service.py:314-365 | expiry posts at most the balance, writes off every due lot and books the shares in lot order; consistent books stay consistent and nothing is left due |
| PointService.PointAccount.WriteOff | app/services/point_service.py:356-364 | the write-off loop empties exactly the due lots and allocates the posted amount over them |
| PointService.PointAccount.EnsureLotCoverage | app/services/point_service.py:368-409 | balance that no spendable lot explains becomes one opening grant |
| PointService.PointAccount.DebitLocked | app/services/point_service.py:149-227 | a debit with its three clock readings: replay, expiry, sufficiency, coverage, lots in spend order; when the readings agree, consistent books stay consistent and the mismatch error is not raised |
| PointService.PointAccount.SpendLots | app/services/point_service.py:174-227 | the spending part of a debit, with the mismatch error when lots do not cover it |
| PointService.PointAccount.DrawDown | app/services/point_service.py:211-226 | the consuming loop takes the amount from the lots in order, each giving what it can, and allocates it |
| PointService.PointAccount.RefundLocked | app/services/point_service.py:230-311 | a refund replays a known key, refuses an unknown debit, otherwise restores lots and puts the rest on one new lot; consistent books stay consistent |
| PointService.PointAccount.RestoreLots | app/services/point_service.py:275-299 | the restoring loop returns to each lot the open part of its allocations and moves a past expiry to the fallback |
| PointService.PointAccount.RevokeCreditLocked | app/services/point_service.py:38-89 | a revocation takes what is left of the lot of the credit it names, from that lot and the balance alone, and nothing if the credit is not on the ledger; consistent books stay consistent |
| PointService.PointAccount.Rollback | app/services/point_service.py:128-135 | a rollback restores the saved tables |
| PointLots.SpendOrderIs | app/services/point_service.py:174-191 | the spend order holds every spendable lot once, sorted by expiry with never-expiring lots last |
| PointLots.DrawShape | app/services/point_service.py:211-226 | the lots touched are a prefix of the spend order and only the last may be partly consumed |
| PointLots.DrawTotal | app/services/point_service.py:211-226 | the allocations of a draw sum exactly to the amount drawn |
| PointLots.ExpiryLeavesNothingDue | app/services/point_service.py:313-365 | after expiry no lot is due at that moment |
| PointLots.RestoredTotal | app/services/point_service.py:275-299 | a restore raises the lot total by exactly the open allocations of the expense |
| PointHistory.ExpireKeepsSound | app/services/point_service.py:314-365 | expiry keeps balance, lots, allocations, rows and keys consistent |
| PointHistory.CoverageIsNoOp | app/services/point_service.py:368-383 | on a consistent book with nothing due, lot coverage does nothing |
| PointHistory.DebitKeepsSound | app/services/point_service.py:149-227 | a debit keeps the book consistent |
| PointHistory.CreditKeepsSound | app/services/point_service.py:92-146 | a credit keeps the book consistent |
| PointHistory.RefundKeepsSound | app/services/point_service.py:230-311 | a refund keeps the book consistent |
| PointHistory.RevokeKeepsSound | app/services/point_service.py:38-89 | a revocation keeps the book consistent |
| PointHistory.RunKeepsSound | app/services/point_service.py:38-439 | over every run: balance equals the lots, double entry per lot, every expense row fully allocated, rows chained, keys distinct |
| PointTheorems.SoundBalance | app/services/point_service.py:108-126 | in a consistent book the balance is the signed sum of the ledger, not negative, and no lot exceeds it |
| PointTheorems.LotWithinGrant | app/services/point_service.py:275-299 | no lot ever holds less than nothing or more than its grant |
| PointTheorems.MismatchUnreachable | app/services/point_service.py:192-193 | with one clock reading a debit never raises the mismatch error, from any book |
| PointTheorems.DebitBalancedIffNothingLapses | app/services/point_service.py:168-174 | with three readings the lots exceed the balance by exactly what lapsed between the first two, so they agree if and only if nothing did |
| PointClock.MismatchIffLapsed | app/services/point_service.py:168-193 | in a consistent book, by the lots the caller holds: the coverage check of an affordable debit is refused if and only if points lapse between the first two readings and the opening grant was made before; the mismatch error is raised if and only if it is not refused and the amount exceeds what is spendable at the first reading less what lapses between the last two |
| PointClock.DebitRefusedIff | app/services/point_service.py:168-193 | on any book and for any three readings in order: when a debit under a new key lacks points, when its expiry or coverage check is refused, and when it ends in the mismatch error |
| PointClock.LapseRefuses | app/services/point_service.py:368-409 | an account from before lots, after its first debit and one grant, whose next debit is refused because the grant lapses between two readings |
| PointClock.LapseUnbalances | app/services/point_service.py:168-174 | a reachable account and three readings after which the lots exceed the balance |
| PointClock.LapseMismatches | app/services/point_service.py:192-193 | a reachable account and three readings for which the mismatch error is raised |
| PointTheorems.LegacyDebitSettles | app/services/point_service.py:368-409 | from an account with more points than lots, one successful debit makes them equal |
| PointTheorems.EarliestFirstIsOptimal | app/services/point_service.py:174-227 | for every cutoff, no other way of paying from the same lots leaves fewer points to expire by then |
| PointTheorems.ReplayIffKeyFits | app/services/point_service.py:55-60 | repeating a keyed operation after anything else returns the original row and changes nothing, exactly when the key fits 160 characters |
| PointTheorems.RunGrows | app/services/point_service.py:411-439 | no operation changes or removes a ledger row |
| PointTheorems.RunKeepsShares | app/services/point_service.py:275-299 | only the refund of an expense changes the open part of its allocations |
| PointTheorems.RefundRestoresOpen | app/services/point_service.py:275-311 | a refund raises each lot by exactly what its expense still has open there |
| PointTheorems.RefundReturnsWhatWasTaken | app/services/point_service.py:230-311 | after any operations in between, a refund gives every lot exactly what the debit took from it, raises the balance by the debit and creates no lot |
| PointTheorems.RefundInvertsDebit | app/services/point_service.py:149-311 | with nothing due, debit then refund restores the balance and every lot with its status and expiry |
| PointRevocation.RevokeTakesBack | app/services/point_service.py:55-89 | after a credit under a new key and any operations, revoking that key under a new one takes exactly what is left of that credit: lot to zero and revoked, balance down by as much, one expense row if it was anything, no other lot or allocation moved |
| PointRevocation.RevokeActsIff | app/services/point_service.py:55-72 | over every run a revocation changes the books if and only if its own key is new and the key it names is an income row whose lot is not revoked (and the stored key is new if a row is to be posted) |
| PointRevocation.RevokeOnce | app/services/point_service.py:55-72 | repeating a revocation at once changes nothing |
| PointRevocation.RevokeReplays | app/services/point_service.py:55-57 | a revocation that posted a row under a key that fits returns that row ever after and changes nothing |
| PointEffects.CreditDoes | app/services/point_service.py:92-146 | a credit is refused for no amount, answered for a known key, refused for a taken stored key, and otherwise adds exactly one row and one lot with the date given |
| PointEffects.ExpiryDoes | app/services/point_service.py:314-365 | in consistent books an expiry empties exactly the due lots, on one row that names the highest of them and books each in full |
| PointEffects.ExpiryWritesOff | app/services/point_service.py:331-364 | on any book an expiry empties exactly the due lots and lowers the balance by what they held, but not below zero |
| PointEffects.DebitDoes | app/services/point_service.py:149-227 | in consistent books a debit under a new key goes through if and only if what expiry leaves suffices and the stored key is new; its row takes the amount and each lot's loss is booked against it |
| PointEffects.RefundDoes | app/services/point_service.py:230-311 | a refund under a new key pays back the first expense of that business in full: each lot what it had open, dates renewed where they had passed, the rest on one new lot, nothing left open |
| PointExpiry.ExpiryKeyInjective | app/services/point_service.py:339-355 | different lots give different expiry keys |
| PointExpiry.OpeningKeyInjective | app/services/point_service.py:385-399 | different users have different opening keys |
| PointExpiry.ExpiryNeverRefused | app/services/point_service.py:339-355 | in every run without revival of an expired lot, expiry at any moment goes through |
| PointExpiry.RevivedLotBlocksAccount | app/services/point_service.py:289-297 | a reachable account: after one refund revived the only lot of an earlier expiry, the next expiry and every new debit are refused |
| PointBlocking.RefusedIffKeyTaken | app/services/point_service.py:339-355 | in a consistent book an expiry is refused if and only if some lot is due and the key of the highest due lot is on the ledger |
| PointBlocking.KeyTakenIffPosted | app/services/point_service.py:339-355 | over every history whose callers keep to their own keys, the expiry key of a lot is on the ledger if and only if an expiry was posted in which that lot was the highest due |
| PointBlocking.ExpiryRefusedIff | app/services/point_service.py:314-355 | over every such history an expiry is refused if and only if the highest lot due now was the highest due at an earlier posted expiry |
| PointBlocking.RefusedExpiryBlocksDebits | app/services/point_service.py:168-174 | in that state every debit of a positive amount under a new key is refused, whatever its later clock readings |
| PointBlocking.RefusedMeansRevived | app/services/point_service.py:289-297 | whenever an expiry is refused, some earlier refund had revived a lot |
| OrderService.StockCache.constructor | app/core/cache.py:51-52 | the stock keys start as given |
| OrderService.StockCache.SetStockIfAbsent | app/core/cache.py:199-201 | a stock key is set only when it is absent |
| OrderService.StockCache.DecrStock | app/core/cache.py:217-227 | a decrement counts an absent key from zero and returns the new value |
| OrderService.StockCache.IncrStock | app/core/cache.py:229-234 | an increment counts an absent key from zero and returns the new value |
| OrderService.MergeItems | app/services/order_service.py:604-610 | the merging loop gives one line per product in order of first mention |
| OrderService.ValidateProducts | app/services/order_service.py:624-632 | the loop reports the first line that is unavailable or exceeds the locked stock, each with its own error, and nothing if and only if every line is acceptable |
| OrderProtocol.Problem | app/services/order_service.py:624-632 | the refusal is that of the first line not acceptable: unavailable if it is not on sale, short otherwise |
| OrderService.PreDeductStock | app/services/order_service.py:634-653 | it succeeds if and only if Redis covers every finite line, then has taken exactly those; otherwise every key is back where it was or at its seeded value |
| OrderService.RollbackRedisStock | app/services/order_service.py:655-663 | it adds back everything on the list and clears the list |
| OrderService.DeductValue | app/services/order_service.py:634-653 | each key ends at its old or seeded value less the total of its lines |
| OrderAlone.PreDeductAlone | app/services/order_service.py:634-663 | undisturbed, the single Redis commands of deduction and compensation do what the method PreDeductStock promises |
| OrderAlone.CreateAlone | app/services/order_service.py:40-129 | an undisturbed create ends in the one outcome its starting state determines: replay, conflict, refused line, short stock without a trace, or exactly the merged order placed |
| OrderAlone.ConflictAlone | app/services/order_service.py:90-105 | undisturbed, a create that meets the unique key gives every deduction back, frees its reservation and returns the order that is there |
| OrderAlone.FailureAlone | app/services/order_service.py:116-129 | undisturbed, a create that fails with deductions made gives them back, frees its reservation and raises its error |
| OrderStock.MergeTotal | app/services/order_service.py:604-610 | merging asks for exactly what the payload asked for, one line per product |
| OrderStock.CommitStock | app/services/order_service.py:416-450 | the commit of a cancel or refund, locked or not, keeps the shelf sound for every other call |
| OrderStock.RunKeepsStockSound | app/services/order_service.py:416-493 | over every interleaving, with unlocked cancels and any Redis contents, finite stock is never negative and every open call still holds rows that fit its order |
| OrderBalance.RunBalancesStock | app/services/order_service.py:550-632 | over every interleaving stock plus units held by orders is the opening stock plus what stale commits put back twice, finite stock is never negative and unlimited stock never moves |
| OrderBalance.RunConservesIffFresh | app/services/order_service.py:470-501 | a run conserves the stock of a product if and only if every cancel and refund committed while its order still held what the call had read |
| OrderBalance.CommitConservesIffFresh | app/services/order_service.py:470-501 | after every run, one more step keeps the balance of a product if and only if it is not a stale commit |
| OrderBalance.LockedRunConservesStock | app/services/order_service.py:455-468 | when every cancel locks its order row, stock plus units held is the opening stock |
| OrderRedis.FailedCreateNetsZero | app/services/order_service.py:88-129 | a create that raised, or returned another call's order, has in total changed no stock key |
| OrderRedis.RunMirrors | app/services/order_service.py:429-439 | in every run without Redis faults, unlocked cancels included, each stock key is the committed stock less open deductions plus uncommitted restores |
| OrderRedis.AtRestStoresAgree | app/services/order_service.py:480-492 | with no call in progress Redis and database stock agree, also after unlocked cancels |
| OrderRedis.RedisCheckIs | app/services/order_service.py:634-653 | the Redis check fails if and only if the quantity exceeds the locked stock less what unfinished creates hold |
| OrderIdentity.OneOrderPerSlot | app/services/order_service.py:65-129 | over every interleaving with the reservation expiring at will, at most one order per user and key, returned by every call that returns |
| OrderIdentity.RunReachable | app/services/order_service.py:455-501 | only four pairs of order and payment status occur, even with unlocked cancels |
| OrderIdentity.PaidIsOnlyRefunded | app/services/order_service.py:455-468 | with locked cancels a paid order stays paid or is refunded |
| OrderVoiding.VoidedIffPaidDuringCancel | app/api/commerce.py:395-407 | over every run, an order that was paid is voided if and only if it was paid between an unlocked cancel's order read and that cancel's commit |
| OrderVoiding.RestoreDecides | app/services/order_service.py:466-468 | over every run a cancel or refund goes on if and only if the order it reads is pending and unpaid, or paid, at that moment |
| OrderVoiding.RestoreSettles | app/services/order_service.py:470-501 | over every run its commit leaves the order voided or refunded with nothing held; if it locked the order, that could be cancelled, or refunded, right then |
| OrderVoiding.RestoreLocks | app/services/order_service.py:417-426 | over every run, while it gives stock back, a cancel holds the rows of the products it took and a refund those of all its products |
| OrderIdentity.UnlockedCancelVoidsPaidOrder | app/api/commerce.py:395-407 | a cancel that did not lock the order can void one that was paid meanwhile |
| OrderIdentity.UnlockedCancelsRestoreTwice | app/api/commerce.py:395-407 | two such cancels can raise stock above its opening value in both stores |
| ShopService.Store.constructor | app/models/entities.py:537-571 | the tables start without orders, rows or entitlements, in a state where everything that holds in all reachable states holds |
| ShopService.Store.MarkVipItems | app/services/order_service.py:169-185 | a VIP item is marked paid exactly when the member and its plan are found |
| ShopService.Store.Grant | app/services/order_service.py:196-205 | one entitlement is appended per unit |
| ShopService.Store.SellItems | app/services/order_service.py:186-206 | the study loop writes the counters it has read plus the units sold, grants entitlements and marks items, skipping products that are gone |
| ShopService.Store.MarkOrderPaid | app/services/order_service.py:132-232 | payment replays a paid order, refuses any other settled one, and otherwise pays it from the counters it has read; it ends paid and the shop stays sound |
| ShopService.Store.PayFromWallet | app/services/order_service.py:235-290 | payment from the wallet checks owner, state, amount and balance in that order; when it pays, one chained row takes exactly the price, not below zero, and the order is paid with its entitlements and counters |
| ShopService.Store.CloseUnpaid | app/services/order_service.py:476-493 | the cancel loop raises finite stock, and each Redis key with it, by exactly what the items took, moves no other key and closes every item |
| ShopService.Store.CancelUnpaidOrder | app/services/order_service.py:455-501 | a cancel judges the order by the row it is handed, current or read earlier without a lock; if that row is unpaid and no payment holds the order, it is voided whatever it is by then, its stock and Redis keys rise by exactly what that row's items took, and nothing else changes |
| ShopService.Store.SyncReadOrder | app/api/commerce.py:390-400 | a payment sync that goes on has an unpaid order of its owner on record, read without a lock |
| ShopService.Store.SyncCancelOrder | app/api/commerce.py:401-407 | the sync voids the order it has read unless a payment holds it; if the order is bought by then it is left stranded |
| ShopService.Store.ExpireEntitlements | app/services/order_service.py:406-414 | every entitlement of the order expires and no other |
| ShopService.Store.UnsellItems | app/services/order_service.py:427-440 | the refund loop lowers sales with a floor at zero, raises finite stock, and each Redis key with it, by exactly what the items took, and closes items |
| ShopService.Store.SettleRefund | app/services/order_service.py:345-452 | a refund replays a refunded order, refuses an unpaid one, posts at most one wallet row and undoes the sale; afterwards no entitlement of the order is active and stock and Redis keys have risen by exactly what its items took |
| ShopService.Store.ApplyWechatPayment | app/api/commerce.py:376-386 | a WeChat success pays an unpaid order under its transaction, changes nothing for one settled under the same one, and is refused for one settled under another or voided |
| ShopService.Store.CancelTimedOut | app/services/order_service.py:293-342 | the timeout acts on what the gateway says and leaves an order alone while its user is paying; it reports a change if and only if it ended the order or found it paid before |
| ShopService.Store.SweepUnscheduled | app/tasks/order_tasks.py:84-120 | the sweep applies timeouts in order, keeps what was done before an exception and then reports nothing; otherwise it lists exactly the orders it ended or that had been paid before |
| ShopService.Store.RequestOrderRefund | app/api/commerce.py:283-306 | a refund request is recorded for the owner of a paid order unless one is under way, refused for others; it settles no order, moves no money or entitlement, and repeating an accepted one changes nothing |
| ShopService.Store.RefundCommerceOrder | app/api/admin.py:1542-1623 | an administrator's refund follows the recorded channel and the provider's answer |
| ShopService.Store.WechatRefundNotification | app/api/commerce.py:422-446 | a success notice with the order's number refunds a paid order completely and moves no money; any other answer changes only the recorded state; another number is refused |
| ShopService.Store.AdjustUserWallet | app/api/admin.py:1327-1356 | an adjustment is accepted if and only if the member exists, its number is new and an expense is covered; then the wallet moves by exactly the amount |
| ShopHistory.GrantedCount | app/services/order_service.py:196-205 | a payment grants exactly as many entitlements per product as units |
| ShopHistory.TallyCounts | app/services/order_service.py:191-195 | a payment raises each counter it has read by exactly the units of the order |
| ShopHistory.GiveBackCounts | app/services/order_service.py:427-437 | giving items back lowers each counter by exactly its units when the counter holds them |
| ShopHistory.GiveBackStock | app/services/order_service.py:480-491 | giving items back raises each finite stock by exactly what the items took of it and leaves unlimited stock |
| ShopHistory.KeysBackStock | app/services/order_service.py:431-439 | each Redis key rises by exactly as much as the stock, and no other key moves or appears |
| ShopHistory.LapsedCount | app/services/order_service.py:406-414 | a refund leaves no active entitlement on its order and the others as they were |
| ShopHistory.MarkKeepsSound | app/services/order_service.py:132-232 | payment through another channel keeps entitlements, time stamps, wallet and postings consistent |
| ShopHistory.BuyKeepsSound | app/services/order_service.py:235-290 | payment from the wallet keeps them consistent |
| ShopHistory.CancelKeepsSound | app/services/order_service.py:455-501 | a cancel that holds the order row keeps them consistent |
| ShopHistory.CancelAsKeepsSound | app/services/order_service.py:466-501 | so does a cancel by a row that is out of date |
| ShopHistory.SyncKeepsSound | app/api/commerce.py:390-407 | so does every step of a payment sync |
| ShopHistory.FinalizeKeepsSound | app/services/order_service.py:345-452 | a refund keeps them consistent |
| ShopHistory.AdminRefundKeepsSound | app/api/admin.py:1542-1623 | an administrator's refund keeps them consistent |
| ShopHistory.NoticeKeepsSound | app/api/commerce.py:422-446 | a refund notice keeps them consistent, whatever it says |
| ShopHistory.RunKeepsSound | app/services/order_service.py:132-501 | every sequence of these transactions, replayed in any order, with payments overlapping and with unlocked cancels, keeps them consistent: active entitlements are exactly the units of the orders that have been paid for and not refunded |
| ShopEffects.NoticeDoes | app/api/commerce.py:422-446 | in every reachable state a success notice that matches leaves a paid order refunded under its number and id, no active entitlement on it, counters down by its units to zero, stock returned and wallets untouched, and repeating it changes nothing; other answers change only the recorded state, another number is refused |
| ShopEffects.AdminRefundDoes | app/api/admin.py:1581-1616 | in every reachable state an administrator's refund of a paid order refunds a mock order without money, a wallet order with its price on one row, and a WeChat order as the provider answers, under the number on record or a new one |
| ShopEffects.ProcessingRefundDoes | app/api/admin.py:1556-1580 | a refund the provider is still processing is settled under its number on success and otherwise only recorded |
| ShopEffects.AdminRefundRefused | app/api/admin.py:1581-1582 | an order neither paid nor refunded is refused |
| ShopEffects.MarkDoes | app/services/order_service.py:150-206 | in every consistent state a payment of an unpaid order pays it: columns, marked items, one active entitlement per unit, counters raised from what was read, stock untouched; of a paid one changes nothing, of any other is refused |
| ShopEffects.BuyDoes | app/services/order_service.py:235-290 | an owner's wallet payment of an unpaid order goes through if and only if the balance covers the price and the number is new, and then does exactly that payment and one chained row |
| ShopEffects.NotifyDoes | app/api/commerce.py:376-386 | a WeChat success pays an unpaid order, is a replay under the same transaction, and is refused under another or for a voided order |
| ShopEffects.CancelDoes | app/services/order_service.py:466-501 | a cancel is done if and only if the row it was handed is unpaid and nobody holds the order; then the order is voided and what that row's items took is given back |
| ShopEffects.TimeoutDoes | app/services/order_service.py:293-342 | over every run, for an unpaid order: paid if the gateway says so, left alone while the user is paying, an error while the gateway is unclear, cancelled otherwise; reported in the first and last case |
| ShopEffects.RequestDoes | app/api/commerce.py:283-306 | over every run a refund request is recorded exactly for the owner of a paid order with none under way |
| ShopEffects.SessionDoes | app/api/commerce.py:354-373 | a WeChat session is opened exactly for the owner of an unpaid order, and its stamp changes the channel and nothing else |
| ShopEffects.SyncDoes | app/api/commerce.py:390-407 | a payment sync records the row exactly of its user's unpaid WeChat order; its cancel voids the order and gives back what that row took |
| ShopEffects.BeginDoes | app/services/order_service.py:186-190 | a payment that begins holds the counters of exactly the products its order sells |
| ShopTheorems.EntitlementsMatchPayments | app/services/order_service.py:186-206 | over every run an order is in one of four states and has one active entitlement per unit if it is paid or was voided after being paid, and none otherwise |
| ShopStranded.StrandedIffPaidDuringSync | app/api/commerce.py:395-407 | over every run an order is voided with its purchase standing if and only if it was paid after a sync had read it and before that sync cancelled it, with no refund in between |
| ShopStranded.EntitlementsDisagreeIff | app/services/order_service.py:466-501 | over every run the active entitlements of an order differ from one per unit if paid and none otherwise if and only if it was paid inside such a sync and sells the product |
| ShopStranded.PriceLostIff | app/services/order_service.py:359-363 | with an honest provider a wallet-charged order ends voided with its price kept if and only if it was paid inside such a sync |
| ShopStranded.StrandedForever | app/services/order_service.py:359-363 | from then on, whatever is refunded or replayed, the order stays voided, its entitlements active and a charged wallet without its price |
| ShopStranded.LateCancel | app/api/commerce.py:395-407 | a reachable run: read by the sync, paid from the wallet, cancelled by the sync; an administrator's refund then changes nothing |
| ShopCounters.SalesMatchPaidOrders | app/services/order_service.py:187-195 | over every run, however payments and cancels overlap, a sales counter is its opening value plus the units in paid orders and in orders voided after being paid, less the units overwritten, plus the units clipped, and never negative |
| ShopCounters.RefundClipsIff | app/services/order_service.py:428-430 | a refund takes back all units of its order unless the counter holds fewer, which is so if and only if more was overwritten than the opening value, the other paid orders and the voided ones make up for |
| ShopOverlap.AlwaysRightIffFresh | app/services/order_service.py:187-195 | a counter is right after every event of a run if and only if every payment commits while the counter still holds what the payment read, and no order selling the product was paid inside a sync that cancelled it |
| ShopOverlap.AlwaysRightIffNoOverlap | app/services/order_service.py:187-195 | in a run without refunds a counter is right throughout if and only if no sale of the product commits between the read and the commit of another order's payment that sells it, nor inside a sync that cancels its order |
| ShopOverlap.UntouchedIsRight | app/services/order_service.py:424-430 | with refunds too: when no sale of the product and no refund commits inside another payment that sells it, a counter is right throughout if and only if no order selling it was paid inside a sync that cancelled it |
| ShopOverlap.LostSale | app/services/order_service.py:187-195 | a reachable run after which two units are paid for and one is counted, and after one refund one is paid for and none counted, so that its refund is clipped |
| ShopOverlap.LateCounter | app/api/commerce.py:395-407 | a reachable run with every payment fresh and no refund after which one unit is counted and none paid for |
| ShopOverlap.FreshNeverClips | app/services/order_service.py:428-430 | as long as every payment commits on the counter it read, no refund is clipped |
| ShopTheorems.WalletConserved | app/services/order_service.py:262-288 | a wallet is its opening balance plus its signed rows and never negative |
| ShopTheorems.WalletRowsChain | app/services/order_service.py:365-391 | consecutive rows of one user chain from after to before |
| ShopTheorems.OnePurchaseOneRefund | app/services/order_service.py:366-391 | an order is charged to a wallet at most once and refunded at most once, for its price, and then nets to zero |
| ShopTheorems.BalanceRefundNetsToZero | app/api/admin.py:1611-1616 | if the provider refunds only what it was paid, a wallet-paid order that is refunded nets to zero |
| ShopTheorems.RefundReachesWalletIffFiled | app/api/admin.py:1581-1616 | a refund of an order that a wallet was charged for reaches the wallet if and only if the order is still paid and its channel column still says wallet |
| ShopTheorems.MisfiledForever | app/api/admin.py:1586-1609 | a wallet-paid order filed under WeChat is never refunded in an honest run, voided or not |
| ShopTheorems.MisfiledReachable | app/api/commerce.py:354-373 | such an order is reachable, because the channel is written without a lock |
| ShopMisfiled.MisfiledIffStampedLate | app/api/commerce.py:354-373 | over every run an order bought from the wallet is filed under WeChat if and only if it was paid while a session opened before was unstamped, and one was stamped after the payment |
| ShopTheorems.TimeoutReportIff | app/services/order_service.py:322-342 | in every reachable state a timeout reports a change if and only if it ends the order, or the order was paid before, is filed under WeChat and the gateway confirms it; in the second case it changes nothing |
| ShopTheorems.SweepListsIff | app/tasks/order_tasks.py:84-120 | a sweep that is not cut short lists exactly the orders it ended or that had been paid before their turn |
| ShopTheorems.SweepRuns | app/tasks/order_tasks.py:84-120 | up to its first exception a sweep handles order after order; there it stops, keeps what it did and has no list |
| ShopTheorems.PaidOrderReported | app/services/order_service.py:322-332 | a reachable order, paid in time through WeChat, for which the timeout reports a change and makes none |
| TravelService.TravelDesk.constructor | app/models/entities.py:196-246 | the desk starts without orders, in a state where everything that holds in all reachable states holds |
| TravelService.TravelDesk.ExchangeRoute | app/api/travel_orders.py:472-572 | an exchange replays its key without any change, checks route, stock and points, then makes one order, one debit and takes one seat; the key is found afterwards and the desk stays sound |
| TravelService.TravelDesk.CancelTravelOrder | app/services/travel_order_service.py:111-197 | a cancel checks actor and status and gives points and seat back at most once; afterwards nothing is owed and no token checks the order in |
| TravelService.TravelDesk.GetMyOrder | app/api/travel_orders.py:211-216 | the owner sees the order with its status normalized, others nothing |
| TravelService.TravelDesk.SignContract | app/api/travel_orders.py:576-636 | a signed contract was not approved before; its order carries no token, cannot be checked in, can be cancelled by its owner and can be approved |
| TravelService.TravelDesk.ReviewContract | app/api/admin.py:663-708 | after an approval no signature by anybody is accepted again; after a rejection the owner can sign again and no token is live |
| TravelService.TravelDesk.SubmitPickupInfo | app/api/travel_orders.py:640-679 | submitted pickup information means an approved contract; any token is gone, no check-in is possible and the owner may still cancel |
| TravelService.TravelDesk.SchedulePickup | app/api/admin.py:712-759 | a scheduled pickup means an approved contract and no token; no check-in is possible and the owner's own cancel is refused from here on |
| TravelService.TravelDesk.ConfirmPickup | app/api/travel_orders.py:683-720 | a confirmation issues a token never used before and held by no other order, which checks in exactly for a day and through the day of departure, or for three days without a departure date |
| TravelService.TravelDesk.IssueOrderQr | app/api/admin.py:763-798 | the order ends with a token that checks in now and is held by no other order: a live one is kept, a new one checks in exactly for a day and through the day of departure, or for three days without a departure date; issuing again at that moment keeps it |
| TravelService.TravelDesk.CheckInOrder | app/api/admin.py:802-881 | an accepted token was unused and on this order alone, under an approved contract; afterwards it checks in nowhere, and an expired one neither |
| TravelService.TravelDesk.StartOrderTrip | app/api/admin.py:885-907 | a started trip has an approved contract, can be cancelled by nobody and not be checked in again |
| TravelService.TravelDesk.CompleteOrder | app/api/admin.py:911-939 | a completed trip has an approved contract, can be cancelled by nobody, and no event changes its status |
| TravelService.TravelDesk.MarkOrderException | app/api/admin.py:943-968 | an exception suspends check-in but keeps the token and everything about stock and points; a completed order is never marked |
| TravelService.TravelDesk.ListOrders | app/api/admin.py:647-659 | listing orders normalizes every row |
| TravelHistory.StepKeepsStages | app/api/admin.py:662-968 | every endpoint keeps trips under way approved and tokens where they can be used |
| TravelHistory.StepKeepsTokens | app/api/admin.py:763-881 | no token is live on two orders or live after use |
| TravelHistory.StepKeepsStock | app/services/travel_order_service.py:170-174 | every step keeps seats left plus seats held |
| TravelLedger.GiveBackRefunds | app/services/travel_order_service.py:132-168 | in every consistent state the debit is found, so points come back by refund and the plain credit for old orders is not used |
| TravelLedger.StepKeepsLedgers | app/api/travel_orders.py:536-546 | every step keeps exactly one debit row per order and a refund row exactly when refunded |
| TravelTheorems.RunKeepsSound | app/api/travel_orders.py:472-720 | every run of endpoints and unrelated point operations keeps stages, tokens, seats, ledgers, flags and keys consistent |
| TravelTheorems.UnderwayIsApproved | app/api/travel_orders.py:104-110 | from pickup form to completion the contract is approved; a token exists only when confirmed, issued or set aside |
| TravelTheorems.FinalStatesAbsorb | app/api/admin.py:662-708 | an approved contract, a completed trip and a made refund never go back |
| TravelTheorems.TokenChecksInOnce | app/api/admin.py:842-870 | no token checks in twice on any orders |
| TravelTheorems.CancelledStaysIff | app/api/admin.py:942-968 | a cancelled order stays cancelled through all that follows if and only if no exception mark and no rejection of a still open contract reaches it |
| TravelTheorems.SeatsConserved | app/services/travel_order_service.py:170-174 | seats left plus seats of orders whose stock was not restored is the opening stock, and seats left are never negative |
| TravelTheorems.ExchangeNetsOut | app/services/travel_order_service.py:132-168 | the rows of an order sum to minus its price until refunded and to zero afterwards, also after cancelled orders reopen |
| TravelTheorems.CancelAlwaysRefunds | app/services/travel_order_service.py:132-168 | a permitted cancel that owes points always succeeds and raises the balance by exactly the price |
| TravelEffects.CancelIffPermitted | app/services/travel_order_service.py:111-130 | over every run a cancel goes ahead if and only if the order is cancelled already or the caller may cancel it: the owner until the pickup is confirmed, an administrator until the check-in |
| TravelEffects.CancelRenewsExpiry | app/services/travel_order_service.py:132-168 | over every run, points a cancel returns to lots that have run out last for the days of the rule, at least one; other lots keep their date |
| TravelEffects.DiagramHolds | app/api/admin.py:663-968 | each of the ten calls on a trip goes ahead if and only if the caller may make it and the order is ready for it, and then leads to the status the diagram says |
| TravelEffects.ColumnsHaveWriters | app/api/travel_orders.py:576-720 | no call changes a column that is not its own: departure by signature, address by pickup form, contract by signature and review, refund and seat by cancel, identity and price never |
| TravelEffects.ExchangeDoes | app/api/travel_orders.py:472-572 | over every run an exchange under a new key goes ahead if and only if the route is offered with seats left and the account can be charged; the order records route, price, key and date, one seat goes and exactly the price leaves the account |
| TravelTheorems.ExchangeOncePerKey | app/api/travel_orders.py:480-500 | repeating an exchange with its key after anything else changes nothing and finds the same order |
| TravelTheorems.OneOrderPerKey | app/models/entities.py:198-201 | a user has at most one order per key |
| TravelTheorems.RefundedOrderTravels | app/api/admin.py:685-691 | every signed order can be cancelled, refunded and then completed, with its rows summing to zero |
| Snowflake.OrAdds | app/core/snowflake.py:47-52 | or-ing a shifted field with a smaller one adds them, also before the epoch |
| Snowflake.ComposeIsSum | app/core/snowflake.py:47-52 | an id is the arithmetic sum of its four fields |
| Snowflake.DecodeInvertsCompose | app/core/snowflake.py:8-12 | timestamp, datacenter, worker and sequence decode back from an id |
| Snowflake.FitsSixtyThreeBits | app/core/snowflake.py:8-12 | an id fits 63 bits if and only if the timestamp offset fits 41 |
| Snowflake.IdsIncrease | app/core/snowflake.py:34-52 | on every clock the ids of one generator strictly increase and carry its worker and datacenter |
| Snowflake.NextDoes | app/core/snowflake.py:34-68 | an id decodes to the clock reading with sequence zero, to the next sequence in the same millisecond, or, when those are used up, to the first later reading; it is refused exactly when the clock is behind |
| Snowflake.GeneratorsDisjoint | app/core/snowflake.py:34-52 | generators with different worker or datacenter never share an id |
| Snowflake.FreshGeneratorsCollideIff | app/api/admin.py:1583-1585 | two generators built for one number each collide if and only if they read the same millisecond |
| Snowflake.SnowflakeGenerator.constructor | app/core/snowflake.py:28-32 | a generator starts at sequence zero before any timestamp |
| Snowflake.SnowflakeGenerator.Make | app/core/snowflake.py:17-32 | a generator exists exactly for worker and datacenter in 0 to 31 |
| Snowflake.SnowflakeGenerator.NextId | app/core/snowflake.py:34-52 | the next id follows the clock: refused when it ran backwards, waiting when the sequence is used up |
| Snowflake.SnowflakeGenerator.WaitNextMillis | app/core/snowflake.py:63-68 | the wait returns the first reading past the current millisecond |
| Vip.Account.constructor | app/services/order_service.py:172-173 | the membership columns start as given |
| Vip.Account.GrantVip | app/services/order_service.py:170-185 | the VIP loop, item by item under one clock reading: items not on file change nothing, a single item adds exactly the days of the plan it names and takes its kind, and together they add the days of all plans named |
| Vip.FindPlan | app/core/vip.py:133-135 | the first plan on file with the id, and none if and only if no plan has it |
| Vip.PlanAdds | app/services/order_service.py:176-184 | each item in turn adds exactly the days of the plan with its id to the time left and takes its kind, or changes nothing if no plan has the id |
| Vip.BoughtIs | app/services/order_service.py:176-183 | the time counted as bought is, item by item, the days of the plan the item names |
| Vip.ActiveUntilExpiry | app/core/vip.py:59-63 | a membership that is not permanent checks as active for exactly the seconds it has left |
| Vip.TimeNeverLost | app/services/order_service.py:170-185 | over every run of purchases, active seconds so far plus seconds ahead is the starting time plus the days of every plan named by an item paid for |
| Vip.ShortensIffPermanent | app/services/order_service.py:179-183 | a purchase takes covered time away if and only if the membership was permanent and a plan was found |

## Left out

- HTTP, schemas, sessions, uploads, captcha, chat, decoration and article endpoints: no state that the three books depend on.
- WeChat calls, signatures and decryption: their validated answers are parameters of the steps.
- Audit and verification log rows, names, phones, notes and the time stamps of orders other than whether they were paid and refunded: written, never read back by the modelled code.
- The `status` number of a travel order and the contract template fields: they repeat or decorate the fulfillment status.
- Reward points of a paid order: the credit and its revocation are modelled for the points tables, not inside the order transactions; neither is the creation of a learning profile.
- VIP columns of the account: modelled in `vip.dfy`, not inside the order transactions. A refund does not take VIP time back, so no such claim is made.
- Expiry dates of entitlements: a fixed offset from the payment.
- The old study-order path (`app/api/commerce.py:164-204`, `app/api/commerce.py:465-526`): it bypasses Redis and shares entitlement rows, so the results about entitlements, sales and the mirror are for runs without it.
- Product, route and stock edits by administrators and merchants, and `sync_stock`: they reset what is conserved. Price and availability changes of routes are events, and stock changes are events of the shop model, where nothing depends on them.
- Crashes and lost replies between a Redis command and the commit beside it, and isolation levels weaker than the row locks.
- Order creation as a method of a class: its loops are methods in `order_service.dfy`, its statements a state machine so that calls can interleave; `CreateAlone` ties the two for a call that runs alone.
- Conservation of stock and the Redis mirror in the shop transactions: the loops return exactly what the items took, while conservation and the mirror over runs are proved in the interleaved protocol.
- ShopService.Store.MarkVipItems: marks the items; the membership columns its loop also writes are modelled in `vip.dfy`.
- ShopService.Store.MarkOrderPaid: writes no reward points, membership columns or learning profile.
- ShopService.Store.SettleRefund: does not revoke the reward points of the order.
- ShopOverlap.UntouchedIsRight: for runs without a touched payment only, since with refunds two overlapping changes of a counter can cancel out; the exact condition for all runs is the one of `AlwaysRightIffFresh`.
- The memory stand-in for Redis beyond its three stock commands, and the pipeline and rate-limit code.
- Plan normalisation, settings, migrations and seed data.
- The masking of the sequence with `& 0xFFF` is written as the remainder by 4096, which it equals for the non-negative sequence.
- Snowflake.SnowflakeGenerator.WaitNextMillis: the wait ends because a finite clock is given; that a real clock moves on is assumed.
