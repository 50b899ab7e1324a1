# Verified model of the e-commerce backend

A Dafny model of the parts of the backend where money, stock and coupons change hands, with proofs of what they
guarantee. `dafny verify dfyconfig.toml` checks all of it.

The shop keeps orders, payments, balances and stock in MySQL and coordinates with Redis locks. Four things in it are
hard to get right, and they are what is modelled:

1. **Paying and cancelling** (`Store`, `BalanceRepository`, `PaymentTx`, `StockLoop`, `Redlock`, `PaymentRepository`,
   `SerialRuns`, `PaymentClient`, `PaymentSteps`, `PaymentMachine`, `PaymentInterleavings`, `PaymentTheorems`,
   `PaymentProgress`, `PaymentRegions`, `PaymentIsolation`, `PaymentLaws`).
   `PaymentTx` says what the two transactions do as functions on the tables. `PaymentRepository` has the code as
   it runs, one client at a time, failing at every call it makes. `PaymentMachine` has any number of clients, interleaved
   call by call. The main theorem is that every interleaving leaves the tables of a serial run of the committed operations;
   consistency, conservation, the audit log, and refunding at most once follow from what `SerialRuns` proves of serial
   runs. The locks are shown not to leak and not to deadlock, and to keep out just those they should. Two things make the
   proof more than bookkeeping: `cancelPayment` reads the payment outside its transaction, so only the `payment:` lock keeps
   that read current, and the `product:` and `balance:` locks are released before the commit, so stock and balances rest on
   the isolation level.
2. **First-come-first-served coupons** (`CouponIssue`, `CouponMachine`, `CouponRuns`, `RequestQueue`, `CouponScheduler`,
   `CouponTicks`): the direct path under every interleaving, and the batch scheduler with the sorted set it pops from.
3. **The event saga** (`SagaEvents`, `Orchestrators`, `SagaTermination`, `SagaCompensation`, `SagaOutcomes`, `SagaFailures`,
   `SagaLaws`): the six orchestrators with their loops, one method a handler, each proved to do what `SagaEvents` says it
   does; every cascade drains; where the money is at every moment of one; and the runs in which it goes missing.
4. **Prices, product cache, payment pages** (`Pricing`, `ProductCache`, `PaymentPages`).

The `...Laws` modules, and lemmas named so elsewhere, state each operation over the tables and payloads alone, without the
functions the other proofs share: when it goes through, what it answers when it does not, and what it writes.

`Wrappers` and `Tally` are an Option/Result and a sum over the rows of a table.

## Assumptions

- Money is exact (`real`). The code stores decimals and computes in JavaScript numbers.
- Ordered quantities are at least 1 (src/interfaces/dto/order.dto.ts:26-28); outside charges and final amounts are not
  negative.
- A lease does not run out while its lock is held, and a release reaches Redis.
- A serializable transaction commits only if everything it read through `tx` is still what it read. What it wrote is invisible
  to others before. Any call may throw at any time, which also covers lock timeouts and database deadlock victims.
- A client whose transaction commits is told so: an answer lost between the commit and the client is not modelled, so a client
  that reports failure has not committed.
- A client's steps are repository calls: one statement of its transaction each, but a call of the balance repository, with
  its read, update and history insert, is one step.
- One scheduler instance runs, and no coupon is issued both directly and by the scheduler. Scheduler transactions run one at
  a time.
- The clock that stamps coupon requests does not run backwards, and a tick of the scheduler, all its coupons included, is one
  step; requests come before or after it.
- A saga handler's calls into the database happen in one step. Between two steps the rest of the system may do anything.

## What the proofs found

- Every charge through the repository is logged as `REFUND`, also one that is no refund
  (src/domain/balance/repository/balance.repository.prisma.ts:41-47 and 57-63).
- Isolation alone would let any payment be refunded twice, money and stock; the `payment:` lock is needed
  (`PaymentIsolation.IsolationAloneRefundsTwice`).
- Direct issuing with k failed marks in Redis creates at most stock + k coupons, and for every positive stock and every k some
  run creates that many (`CouponMachine.IssuedWithinStock`, `CouponRuns.FailedMarksOverIssue`).
- A batch of the scheduler that is rolled back leaves its marks in Redis, so the direct path refuses users who have no coupon
  (`CouponScheduler.RolledBackMarkStays`). While every batch commits, no mark is wrong
  (`CouponScheduler.CommittedRunMarksExactly`).
- A cart checkout announces its order without an order id, so no checkout ever leads to a payment
  (`SagaOutcomes.CheckoutsNeverPay`).
- The saga refunds a failed payment, unless the history row after the deduction fails (the deduction has committed on its own)
  or the refund is refused; that condition is exact (`SagaOutcomes.FailedPaymentCostsNothing`), and both ways of losing the
  price happen (`SagaFailures.UnloggedDeductionIsLost`, `SagaFailures.RefundDecides`).
- A saga that completes takes the price twice (`SagaOutcomes.CompletedPaymentCostsTwice`), and one does
  (`SagaFailures.CompletedCascade`).
- The handler of a failed payment cancels the order whatever its status (`SagaFailures.FailureBreaksOrderStory`), so a cascade
  started on a paid order leaves it cancelled with its payment completed (`SagaFailures.PaidOrderEndsCancelled`). The payment
  controller starts one for whatever order a request names
  (src/interfaces/controllers/payment/payment.controller.ts:35-40). Runs of the payment protocol leave the saga's status
  changes out.
- The handler of a completed payment marks the order paid whatever its status, also when it has been cancelled meanwhile
  (`SagaFailures.CompletionBreaksOrderStory`).
- Payments of one `createdAt` may be shown twice or never over the pages of a list; without such ties every payment is shown
  once (`PaymentPages.CompleteJustWithoutTies`).
- Final amounts are between zero and the total exactly for well-formed coupons, which the code does not demand
  (`Pricing.SoundCoupons`).
- The comment at src/orchestration/orchestrators/product/product.orchestrator.ts:49 speaks of a lock; the code takes none.

## Model

| member | source | states |
|---|---|---|
| BalanceRepository.BalanceRepository.DeductBalance | src/domain/balance/repository/balance.repository.prisma.ts:77-106 | throws without a row or with too little money, changing nothing; otherwise moves the balance and logs it |
| BalanceRepository.BalanceRepository.ChargeBalanceWithTx | src/domain/balance/repository/balance.repository.prisma.ts:23-66 | throws for an unknown user; otherwise creates or increments the balance row and logs it as a refund |
| BalanceRepository.AuditedAppend | src/domain/balance/repository/balance.repository.prisma.ts:108-123 | a row whose `afterBalance` follows from the log so far keeps the whole log replayable |
| PaymentLaws.BalanceLaws | src/domain/balance/repository/balance.repository.prisma.ts:23-106 | a deduction needs a row with at least the amount, a charge an existing user; the rows each writes, and each error |
| PaymentLaws.ReplayIsSum | src/domain/balance/repository/balance.repository.prisma.ts:108-123 | replaying the log adds a user's refunds and subtracts what was used, over any log one stretch after another |
| Redlock.RedisRedlock.AcquireLock | src/infrastructure/redis/redis.redlock.ts:28-37 | succeeds exactly when nobody holds the resource and Redis answers; a failure leaves the lock table alone |
| Redlock.RedisRedlock.ReleaseLock | src/infrastructure/redis/redis.redlock.ts:39-46 | takes out the caller's own entry and no other |
| StockLoop.ReserveExactly | src/domain/payment/repository/payment.repository.prisma.ts:37-54 | the stock loop goes through if and only if every variant exists and covers the summed quantity of all lines naming it, and then takes exactly that |
| StockLoop.ReturnExactly | src/domain/payment/repository/payment.repository.prisma.ts:112-122 | the returning loop goes through if and only if every variant exists, and gives back the summed quantities |
| StockLoop.ReserveAnyOrder | src/domain/payment/repository/payment.repository.prisma.ts:31-54 | outcome and final stock do not depend on the order in which the lines are found |
| StockLoop.ReturnAnyOrder | src/domain/payment/repository/payment.repository.prisma.ts:107-122 | the same for a cancellation |
| StockLoop.ReturnUndoesReserve | src/domain/payment/repository/payment.repository.prisma.ts:112-122 | returning what was reserved restores every variant, repeated variants included |
| PaymentRepository.BlockedLaw | src/domain/payment/repository/payment.repository.prisma.ts:22-84 | what stands in the way of a transaction besides the tables: every call it makes and every lock it takes, and nothing else |
| PaymentRepository.PaymentRepositoryPrisma.ReserveLine | src/domain/payment/repository/payment.repository.prisma.ts:38-53 | one line under its variant lock: succeeds exactly when unblocked and in stock; lock table restored on every way out |
| PaymentRepository.PaymentRepositoryPrisma.PayInTransaction | src/domain/payment/repository/payment.repository.prisma.ts:21-86 | the loop and the balance step together are the payment transaction; exact success condition over all throw points and locks held by others |
| PaymentRepository.PaymentRepositoryPrisma.ProcessPayment | src/domain/payment/repository/payment.repository.prisma.ts:17-93 | pays atomically or changes no row; the error is the one the data calls for; every lock is given back on every path |
| PaymentRepository.PaymentRepositoryPrisma.ReturnLine | src/domain/payment/repository/payment.repository.prisma.ts:113-121 | one line of a cancellation under its variant lock |
| PaymentRepository.PaymentRepositoryPrisma.FindPaymentWithOrderById | src/domain/payment/repository/payment.repository.prisma.ts:157-162 | reads the committed row, not the transaction's |
| PaymentRepository.PaymentRepositoryPrisma.CancelInTransaction | src/domain/payment/repository/payment.repository.prisma.ts:99-148 | the cancellation transaction with its exact success condition |
| PaymentRepository.PaymentRepositoryPrisma.CancelPayment | src/domain/payment/repository/payment.repository.prisma.ts:95-155 | refunds atomically or changes no row; every lock is given back on every path |
| SerialRuns.PayEffect | src/domain/payment/repository/payment.repository.prisma.ts:26-84 | everything a successful payment did, row by row, and what must have held before it |
| SerialRuns.CancelEffect | src/domain/payment/repository/payment.repository.prisma.ts:100-146 | everything a successful cancellation did, row by row, and what must have held before it |
| PaymentLaws.NeededIsSum | src/domain/payment/repository/payment.repository.prisma.ts:37-50 | a line asks for its own quantity of its own variant, and lines together for the sum |
| PaymentLaws.PaymentGoesThrough | src/domain/payment/repository/payment.repository.prisma.ts:26-66 | over the tables' own rows: exactly when a payment goes through, and which error it answers otherwise, down to the line at which the stock loop stops |
| PaymentLaws.PaymentWrites | src/domain/payment/repository/payment.repository.prisma.ts:46-84 | over the tables' own rows: everything a payment writes and leaves alone |
| PaymentLaws.CancellationGoesThrough | src/domain/payment/repository/payment.repository.prisma.ts:100-146 | over the tables' own rows: exactly when a cancellation goes through, and which error it answers otherwise |
| PaymentLaws.CancellationWrites | src/domain/payment/repository/payment.repository.prisma.ts:115-146 | over the tables' own rows: everything a cancellation writes and leaves alone |
| PaymentLaws.CreationWrites | src/domain/order/service/order.service.ts:89-107 | an order is created just when its id is new, with the rows given |
| PaymentLaws.FlowLaw | src/domain/balance/repository/balance.repository.prisma.ts:23-106 | only a charge or deduction from outside that goes through counts as money from outside, at its amount |
| PaymentLaws.StoryLaw | src/domain/payment/repository/payment.repository.prisma.ts:26-146 | what the story of an order says, payment by payment: none while pending, one completed when paid, one cancelled when cancelled |
| PaymentLaws.OrderedIsTaken | src/domain/payment/repository/payment.repository.prisma.ts:31-50 | whatever runs between, paying takes from stock exactly the units of the lines the order was created with, and cancelling puts exactly those back |
| SerialRuns.ConsistentPay | src/domain/payment/repository/payment.repository.prisma.ts:26-84 | a payment keeps orders and payments in step and nothing below zero |
| SerialRuns.ConsistentCancel | src/domain/payment/repository/payment.repository.prisma.ts:102-146 | so does a cancellation |
| SerialRuns.EveryRunConsistent | src/domain/payment/repository/payment.repository.prisma.ts:26-84 | over every run: pending orders have no payment, paid ones one completed payment of their owner and amount, cancelled ones one cancelled payment; stock and balances never below zero |
| SerialRuns.ExecConserves | src/domain/payment/repository/payment.repository.prisma.ts:36-84 | an operation moves a user's money and a variant's units between balance or stock and completed payments, and nothing else |
| SerialRuns.EveryRunConserves | src/domain/payment/repository/payment.repository.prisma.ts:112-146 | over every run, balance plus completed payments changes only by outside charges and deductions, and stock plus units of paid orders not at all |
| SerialRuns.OneRowAtMost | src/domain/balance/repository/balance.repository.prisma.ts:35-65 | an operation leaves balances and log alone or logs the one balance it moved |
| SerialRuns.OneRowAudited | src/domain/balance/repository/balance.repository.prisma.ts:35-65 | one operation's row keeps the log replayable up to the balance |
| SerialRuns.EveryRunAudited | src/domain/balance/repository/balance.repository.prisma.ts:92-123 | over every run the log only grows, each `afterBalance` is the signed prefix sum, and the last one is the balance |
| SerialRuns.EveryRunOnlyForward | src/domain/payment/repository/payment.repository.prisma.ts:103-105 | no payment row disappears or is rewritten, and a cancelled payment is never revived |
| SerialRuns.StandsUntilOwnerCancels | src/domain/payment/repository/payment.repository.prisma.ts:102-105 | a completed payment stays as it is through any run without its owner's cancellation |
| SerialRuns.OwnerCanCancel | src/domain/payment/repository/payment.repository.prisma.ts:100-146 | in consistent tables the owner of a completed payment can cancel it |
| SerialRuns.CancelUndoesPay | src/domain/payment/repository/payment.repository.prisma.ts:107-133 | after a payment and any run in between, the owner's cancellation succeeds and moves every stock and the balance back by exactly what the payment moved |
| SerialRuns.PayThenCancelRestores | src/domain/payment/repository/payment.repository.prisma.ts:107-133 | with nothing in between, stock and balances are restored |
| PaymentSteps.StepKeepsEffect | src/domain/payment/repository/payment.repository.prisma.ts:21-86 | after any statement, what is left of the transaction still adds up to the whole, on any tables that agree with what was read |
| PaymentSteps.StepKeepsCoherent | src/domain/payment/repository/payment.repository.prisma.ts:99-148 | the same invariant for a client that has made the statement's call |
| PaymentRegions.NeverTwoInside | src/domain/payment/repository/payment.repository.prisma.ts:18-133 | in every reachable state no two clients are inside for one order or one payment, at lines of one variant, or at the balance step of one user |
| PaymentRegions.EntersJustWhenFree | src/domain/payment/repository/payment.repository.prisma.ts:18-18 | in every reachable state a waiting payment may go in if and only if nobody is inside for its order, a waiting cancellation if and only if nobody is for its payment |
| PaymentRegions.LineJustWhenFree | src/domain/payment/repository/payment.repository.prisma.ts:38-38 | a client may go on to a line if and only if nobody is at that line's variant |
| PaymentRegions.BalanceJustWhenFree | src/domain/payment/repository/payment.repository.prisma.ts:56-56 | a client may go on to the balance step if and only if nobody is at its user's |
| PaymentMachine.StepKeepsLocks | src/domain/payment/repository/payment.repository.prisma.ts:51-53 | the lock table is always what the clients' positions in the code say |
| PaymentInterleavings.CommitIsAtomic | src/domain/payment/repository/payment.repository.prisma.ts:87-89 | the rows a commit writes are those of the whole operation run at that moment |
| PaymentInterleavings.CommitKeepsGuards | src/domain/payment/repository/payment.repository.prisma.ts:96-103 | a commit leaves the payment rows other running cancellations have read, because only the lock's holder changes them |
| PaymentInterleavings.StepKeepsInv | src/domain/payment/repository/payment.repository.prisma.ts:17-155 | every step of every client keeps the invariant of the machine |
| PaymentTheorems.EveryInterleavingIsSerial | src/domain/payment/repository/payment.repository.prisma.ts:17-155 | every interleaving leaves the tables of a serial run of the committed operations; clients reporting success are in it once, failed ones have left no trace |
| PaymentTheorems.RefundedAtMostOnce | src/domain/payment/repository/payment.repository.prisma.ts:95-154 | no payment is cancelled twice under any interleaving |
| PaymentTheorems.ReadPaymentStaysCurrent | src/domain/payment/repository/payment.repository.prisma.ts:100-105 | the payment read outside the transaction is still the committed, completed row up to the commit |
| PaymentIsolation.IsolationAloneRefundsTwice | src/domain/payment/repository/payment.repository.prisma.ts:99-151 | for every cancellable payment, a cancellation that read it before another one committed would pass the isolation check, and refund the amount and every variant's units a second time |
| PaymentTheorems.EveryInterleavingConsistent | src/domain/payment/repository/payment.repository.prisma.ts:26-29 | orders and payments keep to their status machine and nothing goes below zero at any moment |
| PaymentTheorems.EveryInterleavingConserves | src/domain/payment/repository/payment.repository.prisma.ts:36-84 | money and stock are conserved at any moment |
| PaymentTheorems.EveryInterleavingAudited | src/domain/balance/repository/balance.repository.prisma.ts:108-123 | the audit log replays to every balance at any moment |
| PaymentTheorems.FinishedHoldsNothing | src/domain/payment/repository/payment.repository.prisma.ts:152-154 | a client that is through holds no lock, however it ended |
| PaymentTheorems.WaitsWithOuterOnly | src/domain/payment/repository/payment.repository.prisma.ts:37-66 | in every reachable state, whoever waits for a variant or balance lock has exactly its order or payment lock in the lock table, and whoever waits for that one has none |
| PaymentTheorems.WaitChainsEnd | src/domain/payment/repository/payment.repository.prisma.ts:37-66 | chains of waiting clients are at most two long and end at one that can move |
| PaymentTheorems.NoDeadlock | src/domain/payment/repository/payment.repository.prisma.ts:18-92 | while any client is not through, some client can make its next call |
| PaymentTheorems.EveryCallAdvances | src/domain/payment/repository/payment.repository.prisma.ts:17-155 | every call brings its client closer to the end, at most eleven calls plus four a line away |
| PaymentProgress.AloneOutcome | src/domain/payment/repository/payment.repository.prisma.ts:17-155 | whatever calls a client makes undisturbed, if it gets through it has committed just when its operation succeeds on the tables of the start, with that operation's effect |
| PaymentProgress.AloneCommitsJustWhenItCan | src/domain/payment/repository/payment.repository.prisma.ts:17-155 | when nobody holds a lock, an undisturbed client does get through, and commits if and only if its operation succeeds |
| CouponIssue.AdmissionLaw | src/domain/coupon/service/coupon.service.ts:94-111 | the checks in their order with the error each answers, told of the row and the set alone |
| CouponIssue.CreateLaw | src/domain/coupon/service/coupon.service.ts:114-133 | a coupon is created just for users who own none of it; the error otherwise |
| CouponIssue.CouponService.CheckAdmission | src/domain/coupon/service/coupon.service.ts:94-111 | the checks on row, clock and Redis set, in order, with every throw point |
| CouponIssue.CouponService.IssueFcfsCoupon | src/domain/coupon/service/coupon.service.ts:88-142 | either nothing happens or the coupon is created and marked; only a failing mark leaves one behind; the lock is given back on every path |
| CouponMachine.EveryRunKeepsInv | src/domain/coupon/service/coupon.service.ts:88-142 | over every interleaving the issued-set lags the table only by the lock holder between commit and mark and by failed marks |
| CouponMachine.IssuedWithinStock | src/domain/coupon/service/coupon.service.ts:107-136 | no more coupons than stock plus failed marks, none without stock, and exactly whom the issued-set misses |
| CouponMachine.NoUserGetsTwo | prisma/schema.prisma:112-112 | no two commits give one user the same coupon |
| CouponRuns.FailedMarksOverIssue | src/domain/coupon/service/coupon.service.ts:135-136 | the bound is exact: for every positive stock, every number k of failed marks and any stock + k eligible users, some run fails k marks and issues stock + k coupons |
| CouponRuns.RequestAlone | src/domain/coupon/service/coupon.service.ts:88-142 | call by call in the interleaved machine, a request nobody interferes with does exactly what the service does in one go |
| RequestQueue.RedisService.Zadd | src/infrastructure/redis/redis.service.ts:45-47 | the member has the given score and no other, nobody else's entry is disturbed, every set stays sorted |
| RequestQueue.RedisService.Zpopmin | src/infrastructure/redis/redis.service.ts:49-57 | the extraction loop returns exactly the popped members in order, and the rest stays |
| RequestQueue.AddKeeps | src/domain/coupon/repository/coupon.redis.repository.ts:16-19 | adding keeps the set sorted and free of repetitions, replaces the user's old entry and disturbs no other |
| RequestQueue.SplitSorted | src/domain/coupon/repository/coupon.redis.repository.ts:21-23 | a batch is sorted and nowhere later than what it leaves |
| RequestQueue.PopKeepsSorted | src/infrastructure/redis/redis.service.ts:49-50 | what popping leaves is sorted and free of repetitions |
| RequestQueue.CouponRedisRepository.AddToRequestQueue | src/domain/coupon/repository/coupon.redis.repository.ts:16-19 | queues the user at the present time behind everybody who has asked, leaving everybody else in place |
| RequestQueue.CouponRedisRepository.GetRequestUsers | src/domain/coupon/repository/coupon.redis.repository.ts:21-23 | takes the first users of the queue, in order, and leaves the rest |
| CouponScheduler.CouponIssueScheduler.IssueBatch | src/domain/coupon/service/coupon-issue.scheduler.ts:41-76 | the inner loop with its `continue`s and swallowed errors, against the batch specification |
| CouponScheduler.CouponIssueScheduler.ProcessCouponRequests | src/domain/coupon/service/coupon-issue.scheduler.ts:30-78 | one tick over all coupons; a transaction that fails ends the tick, with its pops and marks kept |
| CouponTicks.TickPops | src/domain/coupon/service/coupon-issue.scheduler.ts:30-78 | a tick pops for every coupon found, up to and including the first whose transaction fails, just its first min(waiting, 100, stock) users, and touches no later queue |
| CouponTicks.TickLeavesOthers | src/domain/coupon/service/coupon-issue.scheduler.ts:28-35 | coupons not found keep their queues |
| CouponTicks.TickServes | src/domain/coupon/service/coupon-issue.scheduler.ts:41-77 | every user popped for a coupon whose transaction commits owns it afterwards, unless a call before the insert threw |
| CouponScheduler.EveryRunBalanced | src/domain/coupon/service/coupon-issue.scheduler.ts:30-77 | stock plus coupons issued is constant up to mark and decrement failures, each issue is a new row, and stock never goes below zero |
| CouponScheduler.EveryRunTradesStock | src/domain/coupon/service/coupon-issue.scheduler.ts:50-75 | remaining stock plus coupons issued is the starting stock if and only if no coupon was issued whose mark or decrement threw, in particular without errors of those calls; each coupon issued is one new row, so users who have it and inserts that fail cost nothing |
| CouponScheduler.EveryRunMarks | src/domain/coupon/service/coupon-issue.scheduler.ts:68-69 | over every run whoever got a coupon from the scheduler is marked in Redis, unless the mark itself failed; marks are never taken back |
| CouponScheduler.CommittedRunMarksExactly | src/domain/coupon/service/coupon-issue.scheduler.ts:40-77 | while every transaction commits, the marked users are exactly those with a coupon whose mark did not fail |
| CouponScheduler.RolledBackMarkStays | src/domain/coupon/service/coupon-issue.scheduler.ts:68-77 | a batch that is rolled back leaves a mark without a coupon, and the direct path refuses that user after any further run |
| CouponScheduler.FirstComeFirstServed | src/domain/coupon/service/coupon-issue.scheduler.ts:30-42 | over every run of requests and ticks, users of a coupon are taken by request time, nobody before anybody still waiting who asked earlier |
| CouponScheduler.WaitsOrIsTaken | src/domain/coupon/repository/coupon.redis.repository.ts:16-23 | over every run nobody is lost from a queue: whoever asked still waits or has been taken |
| CouponScheduler.NextBatchIsFair | src/domain/coupon/service/coupon-issue.scheduler.ts:32-35 | after any run the next batch is by request time, within batch size and stock, as large as they allow, and passes nobody over |
| SagaEvents.StockUpdateIsReversible | src/orchestration/orchestrators/product/product.orchestrator.ts:46-104 | a stock update is announced as made exactly when it was, moves its variant by the quantity and no other, a decrease never goes below zero, and the opposite update undoes it |
| SagaLaws.StockCheckAnswers | src/orchestration/orchestrators/product/product.orchestrator.ts:16-43 | a check answers available if and only if the product can be read, has the variant, and has at least the quantity of it |
| SagaLaws.ValidationAsks | src/orchestration/orchestrators/cart/cart.orchestrator.ts:65-79 | one stock check per item in order, then completion |
| SagaLaws.CheckoutAsks | src/orchestration/orchestrators/cart/cart.orchestrator.ts:16-61 | one validation per item in order, one order of the whole cart at its total, and when it fails instead |
| SagaLaws.CartTotalIsSum | src/orchestration/orchestrators/cart/cart.orchestrator.ts:35-37 | the total is the sum of price times quantity |
| SagaLaws.OrderAsks | src/orchestration/orchestrators/order/order.orchestrator.ts:25-51 | one stock check per item, a coupon check for a coupon named, then the payment |
| SagaLaws.CouponAnswers | src/orchestration/orchestrators/coupon/coupon.orchestrator.ts:17-64 | a coupon is valid if and only if the user has one and the amount meets its minimum; its discount is the whole part of the percentage, or the fixed amount |
| SagaLaws.CouponIssueAnswers | src/orchestration/orchestrators/coupon/coupon.orchestrator.ts:67-87 | completion is announced just when the coupon was issued |
| SagaLaws.InitiationAsks | src/orchestration/orchestrators/payment/payment.orchestrator.ts:20-44 | the deduction asked for is the stored final amount |
| SagaLaws.DeductionAnswers | src/orchestration/orchestrators/balance/balance.orchestrator.ts:22-57 | completion is announced just when the deduction was made and logged twice; what is written in each case |
| SagaLaws.ChargeAnswers | src/orchestration/orchestrators/balance/balance.orchestrator.ts:60-94 | completion is announced just when the charge was made and logged twice; what is written in each case |
| SagaLaws.PaymentAnswers | src/orchestration/orchestrators/payment/payment.orchestrator.ts:47-78 | paid and announced at the order's amount, or unpaid with the deducted amount asked back |
| SagaLaws.CompletionAsks | src/orchestration/orchestrators/order/order.orchestrator.ts:64-100 | the order is marked paid and the units of each of its rows asked for, in order |
| SagaLaws.FailureAnswers | src/orchestration/orchestrators/order/order.orchestrator.ts:103-105 | a failure ends the cascade and marks the order cancelled, if it is named, exists and can be written |
| SagaLaws.EveryShortItemFails | src/orchestration/orchestrators/cart/cart.orchestrator.ts:65-97 | in every cascade of validations and orders, failures announced and still to come are as many as short items |
| SagaLaws.ValidationFailsJustWhenShort | src/orchestration/orchestrators/cart/cart.orchestrator.ts:65-97 | a validation, run dry, announces failure if and only if some item cannot be read, is not listed, or is short |
| SagaLaws.CompletionTakesStock | src/orchestration/orchestrators/order/order.orchestrator.ts:79-87 | the cascade of a completed payment, undisturbed and run dry, takes the units of the order's rows from stock, after the payment has done so |
| SagaTermination.EmitsRankLower | src/orchestration/orchestrators/order/order.orchestrator.ts:24-105 | every handler emits only events of strictly lower rank, however many |
| SagaTermination.HandledGoesDown | src/orchestration/orchestrators/cart/cart.orchestrator.ts:13-97 | handling any pending event lowers the counts per rank lexicographically |
| SagaTermination.NoEndlessCascade | src/orchestration/orchestrators/payment/payment.orchestrator.ts:19-78 | there is no infinite cascade, in any order of handling and with any answers of the services |
| SagaTermination.Application.Dispatch | src/orchestration/orchestrators/payment/payment.orchestrator.ts:19-46 | hands an event to the handler subscribed to it in any of the six orchestrators; with the given answers and faults the handler, loops included, changes and emits exactly what the event calls for |
| SagaTermination.Application.Drain | src/orchestration/orchestrators/balance/balance.orchestrator.ts:21-94 | whichever pending event is taken next, the queue runs dry, and no lock is left behind |
| SagaCompensation.PayMovesBalance | src/domain/payment/repository/payment.repository.prisma.ts:56-66 | a payment moves its owner's balance by the order's amount and no other balance |
| SagaCompensation.HandlerBalances | src/orchestration/orchestrators/balance/balance.orchestrator.ts:22-94 | what a handler takes from a balance is in an event, spent on a payment, or lost |
| SagaCompensation.EverySagaConserves | src/orchestration/orchestrators/payment/payment.orchestrator.ts:20-78 | over every run from any events, interleaved with anything else, balance plus money owed by events changes only by others, payments and losses |
| SagaOutcomes.EveryRunTells | src/orchestration/orchestrators/payment/payment.orchestrator.ts:20-78 | in a cascade from a payment request one event at a time carries the money, and the payment ends in at most one way |
| SagaOutcomes.SettledHasEnded | src/orchestration/orchestrators/payment/payment.orchestrator.ts:20-78 | once settled, exactly one of completion and failure has been announced |
| SagaOutcomes.FailedPaymentCostsNothing | src/orchestration/orchestrators/payment/payment.orchestrator.ts:65-77 | a settled failed payment has net balance effect zero if and only if no history row failed after a deduction and no refund was refused |
| SagaOutcomes.CompletedPaymentCostsTwice | src/orchestration/orchestrators/payment/payment.orchestrator.ts:31-56 | a completed cascade takes twice the order's price |
| SagaFailures.UnloggedDeductionIsLost | src/orchestration/orchestrators/balance/balance.orchestrator.ts:24-56 | for every order and price, a cascade whose second history row throws after the deduction fails and loses just the price |
| SagaFailures.RefundDecides | src/orchestration/orchestrators/payment/payment.orchestrator.ts:65-77 | for every order and price, a cascade whose payment is refused after the deduction loses the price if the refund is refused, and nothing otherwise |
| SagaFailures.CompletedCascade | src/orchestration/orchestrators/payment/payment.orchestrator.ts:20-64 | for every payable order whose price the balance covers twice, the cascade completes and takes it twice |
| SagaFailures.EveryEndingIsReached | src/orchestration/orchestrators/payment/payment.orchestrator.ts:20-78 | from one concrete start the cascade fails with loss, fails without, or completes at twice the price |
| SagaFailures.FailureBreaksOrderStory | src/orchestration/orchestrators/order/order.orchestrator.ts:103-105 | a failure leaves order and payments in step if and only if it could not write or the order was cancelled already |
| SagaFailures.CompletionBreaksOrderStory | src/orchestration/orchestrators/order/order.orchestrator.ts:64-77 | a completion leaves order and payments in step if and only if it could not write or the order is still paid |
| SagaFailures.PaidOrderEndsCancelled | src/orchestration/orchestrators/order/order.orchestrator.ts:103-105 | a cascade started on a paid order, left alone, ends with the order cancelled and its payment completed |
| SagaOutcomes.CheckoutsNeverPay | src/orchestration/orchestrators/cart/cart.orchestrator.ts:39-49 | cascades from checkouts change no table modelled here (cart rows are not), and each order they announce ends in a failed payment |
| Pricing.OrderService.PriceItems | src/domain/order/service/order.service.ts:33-51 | all lines are priced exactly when every item's product is active and its variant in stock; an error names an offending item |
| Pricing.OrderService.CreateOrder | src/domain/order/service/order.service.ts:33-107 | exactly which items can be ordered and at what price; final amount plus discount is the total; exactly when a coupon applies, and that a percentage of the total or the coupon's amount comes off |
| Pricing.SumIsSum | src/domain/order/service/order.service.ts:54-56 | each line counts with its own total, and lists of lines with the sum |
| Pricing.ReduceIsSumOfLines | src/domain/order/service/order.service.ts:54-56 | the reduce over price times quantity equals the sum of the stored line totals |
| Pricing.SoundCoupons | src/domain/order/service/order.service.ts:74-86 | a coupon's discount is between zero and the total on every total it applies to if and only if it is well-formed |
| Pricing.SensibleOrder | src/domain/order/service/order.service.ts:86-86 | with such a coupon, prices from zero and quantities from one, the final amount is between zero and the total |
| Pricing.SagaRoundsDown | src/orchestration/orchestrators/coupon/coupon.orchestrator.ts:36-46 | the saga's discount is the whole part of the percentage of the total, at most the order service's and less than one unit below it |
| ProductCache.KeysApart | src/domain/product/service/product.service.ts:41-64 | keys of different reads never collide |
| ProductCache.MappingLaw | src/domain/product/service/product.service.ts:28-38 | a reader gets the row's own fields and those of each of its variants |
| ProductCache.DetailLaw | src/domain/product/service/product.service.ts:67-83 | the detail of an id is that of its row, and missing without one |
| ProductCache.PopularLaw | src/domain/product/service/product.service.ts:44-57 | the popular products are the first of the ranking, as many as asked for, in order |
| ProductCache.ReadIsKept | src/infrastructure/cache/cache.service.ts:22-29 | what a read fetched is answered for thirty, or ten, minutes to the millisecond, whatever the repository holds by then |
| ProductCache.ReadIsDropped | src/infrastructure/cache/cache.service.ts:22-29 | the first read after that goes to the repository |
| ProductCache.CacheService.GetOrSet | src/infrastructure/cache/cache.service.ts:22-29 | returns and keeps an unexpired value, otherwise fetches and stores it with its time to live; what throws is not cached |
| ProductCache.ProductService.GetProductById | src/domain/product/service/product.service.ts:63-86 | one step of the read model, kept half an hour |
| ProductCache.ProductService.GetPopularProducts | src/domain/product/service/product.service.ts:40-60 | one step of the read model, kept ten minutes |
| ProductCache.EntriesWereFetched | src/infrastructure/cache/cache.service.ts:22-29 | over every run each cached value was fetched for its own read, its time to live before it expires |
| ProductCache.ReadIsRecent | src/domain/product/service/product.service.ts:40-86 | over every run a read equals what the repository would have given at some instant no longer ago than the time to live |
| ProductCache.QuietReadIsExact | src/domain/product/service/product.service.ts:63-86 | a read is exact when nothing it shows changed for its time to live |
| PaymentPages.Ceil | src/domain/payment/service/payment.service.ts:62-62 | the number of pages is the least that holds everything |
| PaymentPages.PageLaw | src/domain/payment/service/payment.service.ts:49-63 | a page shows the rows after those of the pages before it, a full page unless they run out, with total, page and page size |
| PaymentPages.EmptyJustBeyond | src/domain/payment/service/payment.service.ts:50-63 | whatever listing a page is cut from, it is empty if and only if it lies beyond `totalPages`, which is the same for all of them |
| PaymentPages.CompleteJustWithoutTies | src/domain/payment/repository/payment.repository.prisma.ts:177-189 | with each page cut from any listing ordered by `createdAt`, every payment is shown exactly once if and only if no two have the same `createdAt` |

## Left out

- `updateOrderStatus` outside the saga, and SHIPPING and DELIVERED orders in payment runs: any status may be set at any time, and `processPayment` accepts those two.
- Atomicity of `createOrder` and its outbox row: both write outside the transaction. Only the pricing is modelled.
- Which of several failing items `createOrder` reports: the checks run concurrently, so the contract names some offending item.
- Redlock's retries, clock drift, lease expiry and automatic extension; a release that fails in Redis leaves its lock until the lease ends.
- MySQL row locks: a statement that waits is a later statement, one that is chosen as a deadlock victim is a throw.
- Columns nothing depends on: timestamps, `paidAt`, payment method and transaction id, coupon expiry dates in issuing, product ids in stock events and stock history rows. A balance row is identified by its unique user id.
- PaymentRepository.PaymentRepositoryPrisma.ProcessPayment: lists an order's lines in stored order; that no order matters is `StockLoop.ReserveAnyOrder`, and the interleaved machine reads them in any order.
- RequestQueue.RedisService.Zadd: users with equal request times keep their order of arrival, where Redis orders them by member. User ids are integers, where Redis stores their decimal strings.
- Runs mixing direct and scheduled issuing of one coupon: only the scheduler lowers the stock, so together they can issue more than there is.
- `CouponRepositoryPrisma.issueFcfsCoupon`: not called.
- `handleStockUpdate` between other writers: it reads and then writes an absolute number without a lock. Its step is atomic here.
- The saga's coupon rows: marking a coupon used after a payment emits nothing and touches no table modelled here.
- The catch blocks of `handleOrderCreation` and `handleCartValidation`: nothing in their try blocks throws for a payload with a list of items.
- Conservation of stock over a completed saga: the payment and the events after it both lower it (`SagaLaws.CompletionTakesStock`).
- `getPopularProducts` with a negative limit, and payment pages with `page` or `pageSize` below 1: the database client's own conventions apply.
- Concurrent cache misses; the reads of a run are sequential.
- The outbox relay: its filter asks for two different statuses at once and selects nothing.
- Statistics, cart rows and their editing, controllers, guards, logging, Kafka and Redis transport.
