# RustPay, verified in Dafny

RustPay is a payment gateway whose services meet in one PostgreSQL database: the payment service creates,
captures, cancels and refunds payments, opens disputes, and keeps a hash-linked double-entry ledger; a
settlement worker pays merchants out; an outbox worker and a webhook dispatcher deliver events under leases; an
acquirer router fails over between acquirers behind circuit breakers. This project models those parts and proves
what they keep, for every interleaving of every actor.

`dafny verify dfyconfig.toml` checks the whole project.

## How the model is built

* **Statements, transactions, steps.** `Schema` gives each SQL statement its meaning on tables as values.
  `Transactions` composes them into the committed effect of one transaction. `Db`, `LedgerWriter`,
  `Orchestrator` and `Settler` are the imperative code, statement by statement on a transaction's working copy,
  each method proved to commit exactly that effect. `Protocol.Next` interleaves transactions: any number of
  requests, settlement workers and disputes, and a crash of any request between two of its transactions.
  Fraud and acquirer answers are free inputs. Row locks make one transaction per payment row a single step.
* **Invariant.** `Invariant.TablesOk` is what every table state satisfies; `Preservation` shows that each
  transaction keeps it; `Runs` adds the tie between an in-flight creator and its row, which is what makes the
  unguarded `Failed` write harmless; `Safety`, `StatusGraph` and `RunningBalances` draw the conclusions, and
  `Scenarios` builds the runs in which a promise fails.
* **Answers.** `Outcomes` says of every transaction, error by error, when it commits and what. `Verdicts.Answers`
  is the list of the fraud check's and the acquirer's answers in a run; `Verdicts`, `Refunds` and `Notices` tie
  charges, captures, refund rows and announcements to it. `Events` counts the outbox log against the tables, and
  `Tenants` says whose rows a step may write.
* **Reads that lag.** Locks are per payment, so two transactions of one merchant can read the ledger before
  either commits. `Stamp.seen` and `Stamp.seenByHash` say how much of the committed ledger the two SELECTs of a
  write saw, and `Stamp.tie` which row wins among equal `created_at`.
* **Leases.** `Outbox` and `Webhooks` are state machines over workers, a clock and crashes; what depends on the
  five-minute lease is proved under the weakest condition, that no reclaim meets an overdue worker. `Stranding`
  tells which deliveries can still end, `Deliveries` what the outbox columns say of the broker's answers. `OutboxWorker` and `RetryScheduler` are the loops, proved against the same
  statement functions.
* **Breakers and router.** A breaker keeps the history of its calls; its state is proved to be a function of that
  history, defined without the state. The router's methods are proved to extend the histories by exactly the calls
  its rules prescribe.

Conventions: ids are text; strings are byte sequences held as characters; the fee rate is an exact rational in
place of the f64 setting; SHA-256, HMAC and lossy UTF-8 conversion are arbitrary functions; times are whole
seconds; clocks, fresh ids and random jitter are parameters. `System.charges`, `System.replies` and
`System.skipped` and the `members`, `total` and `fee` of a settlement are records of what happened, read by no
step.

## Where documentation and code disagree

* `docs/ledger.md` declares `reference_entry_id` DEFERRABLE INITIALLY DEFERRED; `migrations/008_ledger_accounts.sql:41`
  does not, and the debit row is inserted before the credit row it refers to. The model checks the foreign key at
  each insert or at the commit, as `Config.deferredReference` says, and the theorems hold for both readings.
  Under the migration's, no capture ever commits (`Safety.ImmediateReferenceBlocksCapture`); under the
  documentation's, the check never fails one (`Safety.DeferredReferenceHolds`).
* `docs/ledger.md` names the debited and credited accounts of captures and refunds the other way round; the
  model follows the code.
* `docs/idempotency.md` describes an `idempotency_keys` table; the payment service relies on the unique index
  of `payments`, which is what is modelled. It refuses a key reused with another request; `create_payment` returns
  the first payment whatever the second call asks for (`Safety.CreateOutcome`). `docs/outbox.md` calls the column `processed`; it is `published`.
* `tests/invariants.rs` expects `refunded_amount` to equal the succeeded refunds; a failed refund is not
  reversed and a reused key skips its row, and `Safety.RefundedIsSucceeded` gives the exact condition.

## Promises that fail, and exactly when

* A status change stays inside the closure of the transition table if and only if the old status has successors
  (`StatusGraph.StatusChanges`; the race is `StatusGraph.FailedOverCancelled`).
* A stored running balance is exact if and only if the commits the write did not see cancel out
  (`Ledger.RunningBalanceExact`; a run with two overlapping captures is `Scenarios.OverlapMisstates`).
* `refunded_amount` is the sum of the succeeded refunds if and only if every refund row of the payment succeeded
  and none was skipped (`Safety.RefundedIsSucceeded`; the runs are `Scenarios.FailedRefundCounts` and
  `Scenarios.ReusedKeyCounts`).
* `docs/idempotency.md:22` has exactly one of several concurrent requests trigger a capture. Exactly one commits
  (`Safety.AtMostOneCapture`), but every request that reads Authorized before the first commits asks the acquirer
  (`Scenarios.CaptureRace`). A manual capture commits whatever positive amount is asked, more than was authorized
  too (`Outcomes.CaptureOutcome`).
* `docs/outbox.md:3` has state and events never diverge. A refund's success and its refund.succeeded are two
  transactions: the event is published at most once and only after the success, and it is lost if and only if the
  request vanishes between the two, for good (`Notices.AnnouncedOnce`, `Notices.LostByCrash`,
  `Notices.LostForever`; the run is `Scenarios.CrashLosesNotice`). Everything else has its one event
  (`Events.OneEventEach`).
* A merchant's step writes that merchant's rows only, but for the answer to a refund whose id is that of a skipped
  refund (`Tenants.OnlyOwnRows`).
* A ledger write can commit if and only if the schema defers the reference's foreign key, given a positive amount
  and new ids (`Ledger.WriteOutcome`).
* Outbox claims stay disjoint and capped throughout a run if and only if no reclaim of it meets a worker that
  still holds events after its lease (`Outbox.LeaseExact`, `Outbox.ClaimsDisjoint`). A worker that overruns its
  lease unmet does no harm; one that is met always lets another claim what it holds (`Outbox.OverdueShares`,
  `Outbox.OverrunSharesClaim`). Workers that keep within their lease are never met (`Outbox.TimelyIsPunctual`).
* Deliveries stay with their worker, counted and capped, under the same condition (`Webhooks.LeaseExact`,
  `Webhooks.OwnershipExact`); the attempt cap, the backoff and the finality of success and dead_lettered follow
  from it, and `Webhooks.OverrunBuriesSuccess` is a run without it in which they break.
* The backoff grows from one attempt to the next exactly up to attempt 13 (`Webhooks.DelayGrowsUntilCap`), and,
  while no reclaim meets an overdue worker, a retry never comes before the lease of the failed attempt is over
  (`Webhooks.RetryWaitsForLease`); after a reclaim that met one, two workers may post at once.
* Not every webhook delivery ends in success or dead_lettered. While no reclaim meets an overdue worker, a delivery
  can still end if and only if it is not stranded: neither delivered nor given up, no attempt left, in nobody's
  hands (`Stranding.EndsUnlessStranded`); a stranded one stays so for ever (`Stranding.StrandedForever`). A delivery
  gets there exactly when its worker vanishes after it counted the last allowed attempt and before it recorded the
  answer, or, with max_attempts 0, at its creation (`Stranding.StrandsByCrash`). `Stranding.CrashAfterCount` is such
  a run; the same crash before the count strands nothing (`Stranding.CrashBeforeCount`).
* `docs/ledger.md:8` has the hash detect any tampering. It covers a row's id, amount and second and, through the
  previous hash, those of its predecessors: up to a collision that is named, two hashes are equal if and only if
  these agree along the two paths (`Ledger.HashExact`, `Safety.SameHashSameChain`). Payment, account, reference,
  currency, balances and the merchant's name can be overwritten without a trace in the hashes
  (`Ledger.EditUnnoticed`), and any two payments of one amount have reachable ledgers with equal hashes
  (`Scenarios.HashesLeaveOut`).
* `charge` never probes an open circuit, however long ago it opened (`Router.OpenNeverProbed`,
  `Router.ChargesNeverRecover`); captures and refunds do (`Router.ForwardProbesElapsed`).
* Signature age is the distance in time unless the 64-bit subtraction or absolute value wraps
  (`Signature.RoundTrip`).

## Model

| member | source | states |
|---|---|---|
| Safety.AtMostOneCapture | crates/payment-service/src/orchestrator.rs:124-303 | in every run a payment has at most one capture pair, exactly when its captured amount is set, with that amount; its status is then Captured, Settled or Disputed, although the Failed write and the dispute write check nothing |
| Safety.CapturedForever | crates/payment-service/src/orchestrator.rs:252-303 | no continuation of a run takes a capture or its money status away |
| Safety.LedgerGrows | migrations/004_ledger.sql:28-29 | any later ledger extends any earlier one |
| Safety.ClosedForm | crates/payment-service/src/ledger.rs:166-179 | folded account balances equal a closed form over the payments table, payable and fee income together equal what the float holds, and that is never negative |
| Safety.RefundsBounded | crates/payment-service/src/orchestrator.rs:414-468 | 0 <= refunded_amount <= COALESCE(captured_amount, amount); it equals the payment's refund pairs, and its refund rows plus the refunds whose row was skipped |
| Safety.SucceededWithinCharged | tests/invariants.rs:66-90 | succeeded refunds never exceed the charged amount |
| Outcomes.RefundOutcome | crates/payment-service/src/orchestrator.rs:409-468 | the outcome of create_refund on any tables, error by error: the refund it commits is pending, of the amount asked or else all that is left, in the payment's currency; its amount error is always can_refund's on the locked row, never that of the guard in the UPDATE |
| Outcomes.GuardSuffices | crates/payment-service/src/db.rs:160-186 | the guard in the UPDATE alone keeps refunded_amount within what was charged, whatever its caller checked |
| Outcomes.CaptureOutcome | crates/payment-service/src/orchestrator.rs:336-393 | capture_payment's commit succeeds exactly on the merchant's own authorized payment, for a positive amount and new ledger ids, and captures the amount asked, else the whole; otherwise which error |
| Outcomes.FinishOutcome | crates/payment-service/src/orchestrator.rs:164-245 | after an approved charge, exactly a payment still Created is authorized or captured in full; otherwise which error |
| Outcomes.CancelOutcome | crates/payment-service/src/orchestrator.rs:527-562 | cancels exactly the merchant's own payment that is Created, RequiresAction or Authorized |
| Outcomes.DisputeOutcome | crates/payment-service/src/dispute.rs:6-143 | disputes exactly the merchant's own payment, in any status, for a positive amount and a new id |
| Outcomes.SettleOutcome | crates/settlement-worker/src/settler.rs:56-165 | one settlement of exactly the merchant's captured, unsettled, unlocked payments; available grows by the payout, pending shrinks by the total down to zero, other merchants' balances stay |
| Refunds.RefundStatusTold | crates/payment-service/src/orchestrator.rs:435-518 | in every run a refund row is succeeded or failed only after the acquirer answered so; unless a refund with its id was skipped, exactly then, and pending exactly while it has not answered |
| Refunds.PendingUntilAnswered | crates/payment-service/src/orchestrator.rs:435-472 | while a request waits for the acquirer its refund is pending, and its row is the refund unless it was skipped |
| Notices.AnnouncedOnce | crates/payment-service/src/orchestrator.rs:472-497 | a succeeded refund is announced once, about to be announced, or lost; refund.succeeded never comes before or without the success |
| Notices.LostByCrash | crates/payment-service/src/orchestrator.rs:472-497 | a step loses the announcement if and only if it is a crash of the request between its two transactions |
| Notices.LostForever | crates/payment-service/src/orchestrator.rs:472-497 | no continuation announces a lost one |
| Scenarios.CrashLosesNotice | crates/payment-service/src/orchestrator.rs:472-497 | a run that loses one |
| Events.OneEventEach | crates/payment-service/src/db.rs:205-227 | in every reachable state one event for each payment created, refund taken, dispute and settlement, authorizations on both topics, each kind on its topic; no two refunds, disputes or settlements share an id |
| Events.SucceededWasConfirmed | crates/payment-service/src/orchestrator.rs:472-497 | subscribers hear refund.succeeded only of refunds that the acquirer confirmed |
| Verdicts.BlockedNeverCharged | crates/payment-service/src/orchestrator.rs:124-161 | in every run a payment that the fraud check blocked, or has not passed, is never sent to the acquirer and never captured |
| Verdicts.CapturedWasApproved | crates/payment-service/src/orchestrator.rs:124-380 | the acquirer is asked to charge a payment at most once, exactly if it answered, and to capture it only after it approved the charge; a captured payment was approved, and granted if the capture was manual |
| Verdicts.FailedWasRefused | crates/payment-service/src/orchestrator.rs:124-303 | a payment fails only if it was blocked or refused, and is authorized only if it was approved |
| Tenants.OnlyOwnRows | crates/payment-service/src/db.rs:90-105 | in every run a step writes payments, ledger rows, refunds, settlements, disputes and balances of its own merchant only, except the answer to a refund with the id of a skipped one |
| Tenants.LedgerMatchesPayments | crates/payment-service/src/ledger.rs:38-116 | in every reachable state each ledger row is about a payment there is, of its merchant and in its currency |
| Safety.RefundedIsSucceeded | tests/invariants.rs:99-123 | refunded_amount is the sum of succeeded refunds if and only if every refund row of the payment succeeded and none was skipped for a reused key |
| Safety.OutboxTellsStatus | crates/payment-service/src/orchestrator.rs:208-235 | replaying a payment's committed events, with its settlement membership, yields its status column; each capture pair has one payment.captured on each topic |
| Safety.Idempotent | crates/payment-service/src/db.rs:29-88 | for any number of create calls with one (merchant, key): one row, at most one charge call, one id in all replies |
| Safety.CreateOutcome | crates/payment-service/src/db.rs:29-88 | one create call in any reachable state: with a taken key it returns the one payment that has it and does nothing else, otherwise it inserts the payment as asked unless amount or id is refused |
| Safety.FinishReplies | crates/payment-service/src/orchestrator.rs:235-250 | the caller of a create call that commits is told its payment; if the commit fails nothing has changed |
| Safety.SettlementConserves | crates/settlement-worker/src/settler.rs:56-143 | a payment is in at most one settlement; payouts plus fees equal what was captured on all settled payments; available grows by exactly the payouts; pending is what was pending at the start less the totals settled, or zero if that is negative |
| Safety.SettlementFeeAgainstLedger | crates/settlement-worker/src/settler.rs:79-92 | the settlement fee exceeds the fees its members posted to the ledger by 0 to n-1, and 0 <= net <= total |
| Safety.LedgerBalanced | tests/invariants.rs:18-54 | every reachable ledger is paired, and debits equal credits for any group of merchants, payments and currencies |
| Safety.SameHashSameChain | crates/payment-service/src/ledger.rs:182-195 | two rows of reachable ledgers have equal hashes if and only if the chains of ids, amounts and seconds behind them are equal; otherwise it names two strings hashed along the chains that collide; no other column is part of a chain |
| Ledger.HashExact | crates/common/src/crypto.rs:153-161 | the same for any two tables whose hashes are paths of rows: equality of ids, amounts and seconds along the paths is necessary and sufficient, up to the collision it names |
| Ledger.EditUnnoticed | docs/ledger.md:8-8 | overwriting payment, account, reference, currency or balances, or renaming merchants, leaves the check of the hashes as it was |
| Scenarios.HashesLeaveOut | docs/ledger.md:8-8 | any two payments of one amount, whatever their merchants, ids and currencies, have reachable ledgers whose capture pairs carry equal hashes |
| Safety.ImmediateReferenceBlocksCapture | migrations/008_ledger_accounts.sql:40-42 | with the foreign key checked at each insert no capture ever commits, because the debit row names a credit row that is not there yet |
| Safety.DeferredReferenceHolds | docs/ledger.md:52-52 | deferred to the commit, the same foreign key never fails a capture |
| Ledger.WriteOutcome | crates/payment-service/src/ledger.rs:198-247 | a double entry succeeds if and only if the amount is positive, both ids are new and the foreign key is deferred |
| Ledger.WriteResolves | docs/ledger.md:52-52 | the pair written passes the check that a deferred foreign key leaves to the commit |
| Runs.ReachedOk | crates/payment-service/src/orchestrator.rs:46-562 | in every reachable state the system invariant holds, which ties each creating request to its row |
| Protocol.EveryRunPasses | crates/payment-service/src/orchestrator.rs:46-562 | every sequence of steps is a run, so the theorems about reachable states cover all interleavings |
| Runs.FailStep | crates/payment-service/src/orchestrator.rs:281-300 | the unguarded Failed write keeps the invariant, because only the inserting request can make it |
| Preservation.FinishKeeps | crates/payment-service/src/orchestrator.rs:164-235 | the success path of create keeps the table invariant |
| Preservation.CaptureKeeps | crates/payment-service/src/orchestrator.rs:336-380 | capture keeps the table invariant |
| Preservation.RefundKeeps | crates/payment-service/src/orchestrator.rs:409-468 | a refund keeps the table invariant, also when its row insert is skipped |
| Preservation.DisputeKeeps | crates/payment-service/src/dispute.rs:116-138 | the dispute's unguarded status write keeps the table invariant |
| Preservation.SettleKeeps | crates/settlement-worker/src/settler.rs:56-165 | a settlement keeps the table invariant, whatever rows are locked |
| StatusGraph.StatusChanges | crates/common/src/models.rs:96-108 | from every reachable state a status change stays in the closure of the transition table (a path of edges, not always one) if and only if the old status has successors; the only other writes are a late creator failure and a dispute |
| StatusGraph.FailedOverCancelled | crates/payment-service/src/orchestrator.rs:124-147 | a concrete run in which Failed overwrites Cancelled |
| StatusGraph.ClosureExact | crates/common/src/models.rs:96-112 | which statuses a status can become along the table: nothing becomes Refunded, a settled payment only Disputed |
| RunningBalances.StoredBalancesExact | crates/payment-service/src/ledger.rs:165-179 | when transactions of one merchant do not overlap, every stored balance is the fold of all earlier rows |
| Scenarios.OverlapMisstates | crates/payment-service/src/ledger.rs:165-179 | a run in which two captures of one merchant overlap and the stored balance is wrong |
| Scenarios.FailedRefundCounts | crates/payment-service/src/orchestrator.rs:503-518 | a run in which a refused refund stays in refunded_amount although no refund succeeded |
| Scenarios.ReusedKeyCounts | crates/payment-service/src/db.rs:229-253 | a run in which every refund row succeeded and refunded_amount still differs, because a reused key skipped a row |
| Scenarios.CaptureRace | crates/payment-service/src/orchestrator.rs:316-380 | a run in which two requests to capture one payment both get the acquirer's consent; the first to commit captures what it asked for, the second is refused |
| Ledger.RunningBalanceExact | crates/payment-service/src/ledger.rs:165-179 | a write's balance is exact if and only if the commits it did not see cancel out on the credited account |
| Ledger.LatestIndexCorrect | crates/payment-service/src/ledger.rs:262-273 | the previous-hash query finds a latest row, and any latest row for some tie-break |
| Ledger.WriteKeepsPaired | crates/payment-service/src/ledger.rs:198-247 | a write keeps the table a sequence of paired rows with distinct ids |
| Ledger.WriteKeepsChained | crates/payment-service/src/ledger.rs:182-195 | a write keeps the hash links a tree: a credit hangs on its debit, a debit on genesis or an earlier row of its merchant, also under ties and lagging reads |
| Ledger.HashCommitsToPath | crates/payment-service/src/ledger.rs:182-195 | every stored hash is the hash of a whole path of rows back to genesis |
| Ledger.ReferenceInvolution | tests/invariants.rs:133-156 | reference_entry_id pairs a debit with a credit of equal amount, currency, payment and merchant on another account, both ways and with no third row |
| Ledger.DebitsEqualCredits | docs/ledger.md:5-8 | pairing makes debits equal credits in any group |
| LedgerWriter.Writer.GetPrevHash | crates/payment-service/src/ledger.rs:262-273 | the scan returns the hash of the latest visible row of the merchant, or genesis |
| LedgerWriter.Writer.InsertEntry | crates/payment-service/src/ledger.rs:198-221 | inserts the row unless its amount, its id or, when checked at once, its reference is refused |
| LedgerWriter.Writer.WriteDoubleEntry | crates/payment-service/src/ledger.rs:150-260 | inserts the debit row and then the credit row of the specification, or fails as one of the inserts does |
| LedgerWriter.Writer.RecordCapture | crates/payment-service/src/ledger.rs:38-57 | writes the captured amount from GATEWAY_FLOAT to MERCHANT_PAYABLE |
| LedgerWriter.Writer.RecordRefund | crates/payment-service/src/ledger.rs:66-85 | writes the refund from MERCHANT_PAYABLE to GATEWAY_FLOAT |
| LedgerWriter.Writer.RecordFee | crates/payment-service/src/ledger.rs:92-116 | writes a non-zero fee from MERCHANT_PAYABLE to FEE_INCOME, nothing for zero |
| HashChain.PreimageInjective | crates/common/src/crypto.rs:153-161 | the unseparated preimage determines previous hash, id, amount and timestamp |
| HashChain.TamperEvident | crates/common/src/crypto.rs:153-161 | from two different histories with one final hash it extracts two strings hashed along them that collide |
| Fees.BatchFee | crates/settlement-worker/src/settler.rs:79-92 | the fee on a batch total against the fees on its n parts: never less, at most n-1 more |
| Fees.FeeExact | crates/payment-service/src/orchestrator.rs:202-202 | the fee is the largest whole amount that the rate's share reaches, and no other |
| StateMachine.PaymentStateMachine.Transition | crates/payment-service/src/state_machine.rs:21-37 | moves along one edge of the table, or refuses and stays |
| Db.Transaction.Commit | crates/payment-service/src/orchestrator.rs:235-235 | publishes the working copy unless a reference deferred to the commit is missing |
| Db.InsertPaymentIdempotent | crates/payment-service/src/db.rs:29-88 | inserts, finds the one row with the key, or is refused, and says which |
| Db.LockPaymentForUpdate | crates/payment-service/src/db.rs:90-105 | the row with this id and merchant, or NotFound |
| Db.UpdatePaymentAfterCharge | crates/payment-service/src/db.rs:107-132 | writes status and captured amount only |
| Db.UpdatePaymentStatus | crates/payment-service/src/db.rs:134-158 | overwrites the status whatever it was |
| Db.IncrementRefundedAmount | crates/payment-service/src/db.rs:160-186 | adds the refund when it fits the charged amount, else fails and changes nothing |
| Db.InsertOutboxEvent | crates/payment-service/src/db.rs:205-227 | appends the event |
| Db.HasRefundKey | migrations/007_outbox_refunds_processed.sql:67-69 | finds whether the merchant's refund key is taken, as the unique index does |
| Db.InsertRefund | crates/payment-service/src/db.rs:229-253 | a taken key leaves the table as it is and succeeds |
| Db.UpdateRefundStatus | crates/payment-service/src/db.rs:255-279 | changes the status of the refund's row and nothing else |
| Db.InsertDispute | crates/payment-service/src/dispute.rs:85-113 | appends the dispute or fails on its key or amount |
| Db.InsertSettlement | crates/settlement-worker/src/settler.rs:98-110 | appends the settlement or fails on its id |
| Db.MarkPaymentsSettled | crates/settlement-worker/src/settler.rs:118-128 | settles exactly the selected rows |
| Db.CreditMerchant | crates/settlement-worker/src/settler.rs:131-143 | credits the merchant's balance row if there is one |
| Orchestrator.PaymentOrchestrator.BeginCreate | crates/payment-service/src/orchestrator.rs:86-119 | inserts the payment with its event, or returns the row that has the key, changing nothing |
| Orchestrator.PaymentOrchestrator.FailCreate | crates/payment-service/src/orchestrator.rs:281-300 | commits the blind Failed write with its event |
| Orchestrator.PaymentOrchestrator.FinishCreate | crates/payment-service/src/orchestrator.rs:164-249 | commits status, capture and fee pairs and both events, or nothing |
| Orchestrator.PaymentOrchestrator.CommitCharge | crates/payment-service/src/orchestrator.rs:194-235 | commits the row, the pairs and both events of a charge or capture, or nothing |
| Orchestrator.PaymentOrchestrator.PostCapture | crates/payment-service/src/orchestrator.rs:196-206 | posts the capture pair and, for a positive fee, the fee pair |
| Orchestrator.PaymentOrchestrator.BeginCapture | crates/payment-service/src/orchestrator.rs:323-330 | lets a capture go on to the acquirer exactly when the payment exists and may become Captured |
| Orchestrator.PaymentOrchestrator.FinishCapture | crates/payment-service/src/orchestrator.rs:336-387 | re-checks the status under the lock and commits the whole capture, or nothing |
| Orchestrator.PaymentOrchestrator.BeginRefund | crates/payment-service/src/orchestrator.rs:409-468 | commits refund row, counter, ledger pair and event, or nothing, with the source's errors |
| Orchestrator.PaymentOrchestrator.CommitRefund | crates/payment-service/src/orchestrator.rs:451-468 | the statements of a refund that passed its checks, up to the commit |
| Orchestrator.PaymentOrchestrator.RecordRefundVerdict | crates/payment-service/src/orchestrator.rs:472-513 | records the acquirer's answer outside any transaction |
| Orchestrator.PaymentOrchestrator.AnnounceRefund | crates/payment-service/src/orchestrator.rs:484-494 | commits refund.succeeded by itself |
| Orchestrator.PaymentOrchestrator.Cancel | crates/payment-service/src/orchestrator.rs:527-562 | cancels under the lock when the table allows it |
| Orchestrator.PaymentOrchestrator.OpenDispute | crates/payment-service/src/dispute.rs:6-143 | commits dispute row, Disputed status and event, or nothing |
| Settler.TotalOf | crates/settlement-worker/src/settler.rs:79-88 | the loop adds up the charged amounts of exactly the selected rows, in any order |
| Settler.Worker.SettleMerchant | crates/settlement-worker/src/settler.rs:56-178 | commits one settlement of every unsettled, unlocked capture of the merchant, or nothing |
| Settler.Worker.CommitSettlement | crates/settlement-worker/src/settler.rs:97-165 | settlement row, settled payments, balance and event, or nothing |
| Settler.Worker.RunSettlementBatch | crates/settlement-worker/src/settler.rs:18-54 | afterwards no unlocked capture of a merchant that did not fail is unsettled, all other rows are untouched, and every merchant is counted or failed |
| Settler.SettledPayments | crates/settlement-worker/src/settler.rs:60-128 | a settlement settles exactly the merchant's unlocked unsettled rows |
| Claims.TakeSmallest | crates/outbox-worker/src/worker.rs:66-73 | takes the candidates with the smallest keys, as many as the limit allows, each once |
| Outbox.PublishedWasSent | crates/outbox-worker/src/worker.rs:160-173 | for any workers, speeds and crashes: a published event was sent at least once |
| Outbox.NothingLost | crates/outbox-worker/src/worker.rs:160-189 | no event leaves the table, published never reverts, failed_attempts never falls |
| Outbox.LeaseExact | crates/outbox-worker/src/worker.rs:48-58 | a step breaks disjoint, capped claims if and only if it is a reclaim that meets a worker whose lease is over |
| Outbox.ClaimsDisjoint | crates/outbox-worker/src/worker.rs:48-81 | throughout a run claims are disjoint, every claimed row is still its worker's and failed_attempts <= 10, if and only if no reclaim of the run meets an overdue worker |
| Outbox.ClaimExact | crates/outbox-worker/src/worker.rs:60-81 | a claim is what the query allows if and only if it holds at most the limit of claimable events and leaves one only for that many no younger |
| Deliveries.ColumnsTold | crates/outbox-worker/src/worker.rs:160-189 | published and failed_attempts are exactly what the committed batches of the run recorded |
| Deliveries.ColumnsWereAnswered | crates/outbox-worker/src/worker.rs:125-189 | for any workers and crashes, an event is published only if the broker acknowledged it and charged no more failures than it refused; a dead-lettered one was refused ten times |
| Deliveries.FinishedForever | crates/outbox-worker/src/worker.rs:48-81 | while no reclaim meets an overdue worker, a published or dead-lettered event is never written again |
| Outbox.OverdueShares | crates/outbox-worker/src/worker.rs:48-81 | whenever a reclaim meets an overdue worker, another worker can claim an event the first still holds |
| Outbox.TimelyIsPunctual | crates/outbox-worker/src/worker.rs:48-58 | workers that finish or vanish within their five minutes are never met overdue |
| Outbox.OverrunSharesClaim | crates/outbox-worker/src/worker.rs:48-58 | past the lease two workers hold the same event |
| Outbox.WorkBounded | crates/outbox-worker/src/worker.rs:160-212 | all rows ever in committed batches number at most ten per event |
| Outbox.RoundIsRun | crates/outbox-worker/src/worker.rs:46-213 | the steps of one undisturbed pass, sends in any order, leave the table as the round says and every other worker as it was |
| Outbox.RoundLowers | crates/outbox-worker/src/worker.rs:46-212 | an undisturbed run lowers the attempts left by the size of its batch, and an empty batch means all is finished |
| Outbox.ManyWorkersDrain | crates/outbox-worker/src/worker.rs:160-212 | however many workers take turns and crash, with nothing appended every batch committed uses up at least one of the attempts that are left, and every event is finished exactly when none is left |
| Outbox.DrainGoesOn | crates/outbox-worker/src/worker.rs:48-81 | while some event is unfinished, a lease and a reclaim later any idle worker's claim takes a non-empty batch, the oldest its limit allows |
| Claims.HasPrefix | crates/outbox-worker/src/worker.rs:66-73 | whatever the limit, some batch is what ORDER BY and LIMIT allow |
| Outbox.NothingStrands | crates/outbox-worker/src/worker.rs:48-58 | a lease after any point of any run, a reclaim makes every unfinished event claimable |
| Outbox.DrainTerminates | crates/outbox-worker/src/worker.rs:22-22 | for one worker, as many passes as there are attempts left leave every event published or dead-lettered, whatever the broker answers |
| OutboxWorker.Worker.ReclaimExpired | crates/outbox-worker/src/worker.rs:48-58 | frees exactly the unpublished rows whose lease ran out |
| OutboxWorker.Worker.SelectBatch | crates/outbox-worker/src/worker.rs:66-73 | the oldest eligible rows not locked by others |
| OutboxWorker.Worker.SendAll | crates/outbox-worker/src/worker.rs:125-158 | sorts the batch by the broker's answers, in any order of completion |
| OutboxWorker.Worker.CommitResults | crates/outbox-worker/src/worker.rs:160-189 | publishes what was sent and counts one failure for each row that was not |
| OutboxWorker.Worker.RunOnce | crates/outbox-worker/src/worker.rs:46-213 | a pass is exactly one round of the drain and returns how many events were sent |
| Webhooks.LeaseExact | crates/webhook-service/src/retry_scheduler.rs:33-44 | a step breaks the ownership and counter invariant if and only if it is a reclaim that meets a worker whose lease is over |
| Webhooks.OwnershipExact | crates/webhook-service/src/retry_scheduler.rs:31-200 | the delivery invariant holds throughout a run if and only if no reclaim of the run meets an overdue worker |
| Webhooks.TimelyIsPunctual | crates/webhook-service/src/retry_scheduler.rs:33-44 | workers that finish or vanish within their lease are never met overdue |
| Webhooks.AttemptsBounded | crates/webhook-service/src/retry_scheduler.rs:108-181 | while no reclaim meets an overdue worker, POSTs <= attempt_count <= max_attempts; success needs a successful POST, dead_lettered a failed POST of the last allowed attempt |
| Webhooks.BackoffRespected | crates/webhook-service/src/retry_scheduler.rs:228-265 | no POST before the delay drawn for an earlier failed attempt of the delivery has passed |
| Webhooks.FinalForever | crates/webhook-service/src/retry_scheduler.rs:137-226 | while no reclaim meets an overdue worker, success and dead_lettered are absorbing |
| Webhooks.RetryWaitsForLease | crates/webhook-service/src/retry_scheduler.rs:250-265 | two POSTs of one delivery belong to claims more than a lease apart, because a failed attempt leaves the row claimed; a POST sent within its lease is strictly earlier than the next |
| Webhooks.PostedInLease | crates/webhook-service/src/retry_scheduler.rs:120-130 | workers that keep within their lease post within it |
| Webhooks.OverdueShares | crates/webhook-service/src/retry_scheduler.rs:33-77 | after a reclaim that met an overdue worker, another one can claim the same delivery if and only if attempts remain |
| Webhooks.OverrunBuriesSuccess | crates/webhook-service/src/retry_scheduler.rs:33-44 | a run in which a delivered webhook becomes dead_lettered and its attempts exceed the limit |
| Webhooks.DelayBounded | crates/webhook-service/src/retry_scheduler.rs:238-245 | the delay lies in [1, 4319] seconds and is the whole seconds of cap plus jitter, if that is one at least |
| Webhooks.DelaySpread | crates/webhook-service/src/retry_scheduler.rs:238-245 | from the thirteenth attempt on exactly the delays from 48 minutes to just under 72 can come |
| Webhooks.ClaimExact | crates/webhook-service/src/retry_scheduler.rs:47-77 | a claim is what the query allows if and only if it holds at most twenty claimable deliveries and leaves one only for twenty due no later |
| Webhooks.DelayGrowsUntilCap | crates/webhook-service/src/retry_scheduler.rs:238-245 | the next attempt never waits less, whatever the jitters, if and only if the attempt is at most 12 |
| Webhooks.Reachable | crates/webhook-service/src/retry_scheduler.rs:31-200 | the delivery invariant holds after every run in which no reclaim meets an overdue worker |
| Stranding.EndsUnlessStranded | crates/webhook-service/src/retry_scheduler.rs:31-200 | after any run in which no reclaim meets an overdue worker, a delivery can still end in success or dead_lettered if and only if it is not stranded |
| Stranding.StrandedForever | crates/webhook-service/src/retry_scheduler.rs:33-77 | a stranded delivery stays stranded in every continuation, overrun leases included |
| Stranding.CanEnd | crates/webhook-service/src/retry_scheduler.rs:31-200 | builds the continuation that ends a delivery, from any phase of its worker |
| Stranding.StrandsByCrash | crates/webhook-service/src/retry_scheduler.rs:108-226 | a delivery strands in a step if and only if its worker vanishes after the count of the last allowed attempt and before the record of the answer, or it is created with no attempt allowed |
| Stranding.CrashAfterCount | crates/webhook-service/src/retry_scheduler.rs:108-118 | a run in which such a crash strands a delivery |
| Stranding.CrashBeforeCount | crates/webhook-service/src/retry_scheduler.rs:33-77 | the same crash one step earlier: a lease later the delivery is due again |
| RetryScheduler.DispatchIsTask | crates/webhook-service/src/retry_scheduler.rs:94-181 | the steps of one undisturbed dispatch, a failed UPDATE ending it like a crash, leave its row as the dispatch function says |
| RetryScheduler.RetryScheduler.ReclaimStale | crates/webhook-service/src/retry_scheduler.rs:33-44 | frees exactly the deliveries whose worker overran its lease |
| RetryScheduler.RetryScheduler.ClaimDue | crates/webhook-service/src/retry_scheduler.rs:47-77 | claims the deliveries due longest, at most twenty, and touches no other |
| RetryScheduler.RetryScheduler.Dispatch | crates/webhook-service/src/retry_scheduler.rs:94-181 | counts the attempt on the row as it is now and records the answer with the counters read at the claim, on this row only, and tells whether both UPDATEs went through |
| RetryScheduler.RetryScheduler.HandleFailure | crates/webhook-service/src/retry_scheduler.rs:203-265 | gives up on the last allowed attempt, else moves next_retry_at and leaves the status |
| RetryScheduler.RetryScheduler.RunOnce | crates/webhook-service/src/retry_scheduler.rs:31-200 | a whole pass: the deliveries due longest are dispatched once each, nothing else changes but reclaimed leases, and exactly the dispatches whose UPDATEs went through are counted |
| CircuitBreakers.StateFromHistory | crates/acquirer-router/src/circuit_breaker.rs:49-99 | the state is a function of the history alone (last trip, first later probe after the timeout, successes since), failure_count is the number of failures since the last success or trip and stays below five, success_count the successes since the probe |
| CircuitBreakers.LatestTrip | crates/acquirer-router/src/circuit_breaker.rs:84-99 | the last trip of a history is a trip and none follows it |
| CircuitBreakers.OpensOnFifth | crates/acquirer-router/src/circuit_breaker.rs:84-99 | a closed circuit opens exactly on the fifth such failure |
| CircuitBreakers.HalfOpenHistory | crates/acquirer-router/src/circuit_breaker.rs:52-66 | half-open means probed after the timeout, no failure since, and success_count counts the successes since |
| CircuitBreakers.ClosesAfterTwo | crates/acquirer-router/src/circuit_breaker.rs:70-81 | a half-open circuit closes exactly on the second success since its probe and opens exactly on a failure |
| CircuitBreakers.OpenUntil | crates/acquirer-router/src/circuit_breaker.rs:84-99 | while open, the deadline is thirty seconds after the latest trip |
| CircuitBreakers.RefusedAfterTrip | crates/acquirer-router/src/circuit_breaker.rs:49-67 | with a monotone clock every request within thirty seconds of a trip is refused |
| CircuitBreakers.RefusedOnlyAfterTrip | crates/acquirer-router/src/circuit_breaker.rs:49-67 | nothing else is ever refused |
| CircuitBreakers.CircuitBreaker.constructor | crates/acquirer-router/src/circuit_breaker.rs:34-46 | a fresh closed circuit with an empty history |
| CircuitBreakers.CircuitBreaker.AllowRequest | crates/acquirer-router/src/circuit_breaker.rs:49-67 | answers as the history prescribes and records the call |
| CircuitBreakers.CircuitBreaker.RecordSuccess | crates/acquirer-router/src/circuit_breaker.rs:70-81 | records the success in the history the state is a function of |
| CircuitBreakers.CircuitBreaker.RecordFailure | crates/acquirer-router/src/circuit_breaker.rs:84-99 | records the failure in the history the state is a function of |
| CircuitBreakers.CircuitBreaker.IsOpen | crates/acquirer-router/src/circuit_breaker.rs:102-105 | tells whether the circuit is open, whatever the clock says |
| Router.StableSortUnique | crates/acquirer-router/src/router.rs:38-38 | the stable sort by priority of a list is unique, so the sorting algorithm does not matter |
| Router.SortByPriority | crates/acquirer-router/src/router.rs:32-38 | the pushed entry ends after all entries of its priority, and the list is sorted with ties in their order |
| Router.AcquirerRouter.Register | crates/acquirer-router/src/router.rs:30-40 | after any series of registrations the list is sorted by priority, ties in registration order |
| Router.Failover | crates/acquirer-router/src/router.rs:57-93 | success or a decline comes from one entry: earlier tried entries failed and got one record_failure each, it got one record_success or nothing, later breakers are untouched |
| Router.AllFailed | crates/acquirer-router/src/router.rs:83-95 | otherwise every entry tried failed once and the answer is the last error |
| Router.OpenNeverProbed | crates/acquirer-router/src/router.rs:45-53 | a charge touches some breaker exactly when some circuit is not open, and never an open one |
| Router.ChargesNeverRecover | crates/acquirer-router/src/router.rs:45-53 | once all circuits are open, any series of charges at any times fails and changes nothing |
| Router.ForwardProbesElapsed | crates/acquirer-router/src/router.rs:98-115 | a capture or refund that reaches an elapsed open circuit makes it half-open |
| Router.Forwarding | crates/acquirer-router/src/router.rs:98-133 | one entry serves a capture or refund, or all refuse: those before it refused and recorded nothing, it records a success or, on any error, a failure, later breakers are untouched |
| Router.FailingForwardsOpen | crates/acquirer-router/src/router.rs:98-133 | captures and refunds that fail, declined ones too, open a closed circuit exactly when they make five failures since its last success, for thirty seconds |
| Router.SucceedingForwardsNeverOpen | crates/acquirer-router/src/router.rs:98-133 | those that succeed never open one |
| Router.AcquirerRouter.Candidates | crates/acquirer-router/src/router.rs:45-49 | the entries whose circuit is not open, in order |
| Router.AcquirerRouter.Attempt | crates/acquirer-router/src/router.rs:58-92 | one turn of the loop: asks, records, and stops on success or decline |
| Router.AcquirerRouter.Charge | crates/acquirer-router/src/router.rs:44-96 | the answer and every breaker's new history are those of the failover rules |
| Router.AcquirerRouter.Forward | crates/acquirer-router/src/router.rs:98-133 | the first allowed acquirer gets the capture or refund, and any error, a decline too, is a failure |
| Luhn.SeparatorsIgnored | crates/vault-service/src/tokenizer.rs:172-175 | the check depends only on the digits |
| Luhn.OneDigitChanged | crates/vault-service/src/tokenizer.rs:181-195 | changing one digit of an accepted number gives a rejected one |
| Luhn.NeighboursExchanged | crates/vault-service/src/tokenizer.rs:181-195 | exchanging two neighbouring digits goes unnoticed exactly when they are equal or 0 and 9 |
| Luhn.LuhnExact | crates/vault-service/src/tokenizer.rs:171-196 | accepts exactly 13 to 19 digits whose even places from the right and the decimal digits of twice the others add up to a multiple of ten |
| Luhn.DigitsInOrder | crates/vault-service/src/tokenizer.rs:172-175 | without separators, one digit for each character, in order and of its value |
| Luhn.OneCheckDigit | crates/vault-service/src/tokenizer.rs:171-196 | exactly one check digit completes a number of 12 to 18 digits, none any other |
| Signature.VerifyHmacExact | crates/common/src/crypto.rs:28-37 | the xor/or fold accepts exactly the right signature |
| Signature.VerifyWebhookSignature | crates/common/src/crypto.rs:176-210 | accepts exactly when the last t= part of the header is a number and young enough and the last v1= part is the signature of the payload under it |
| Signature.AcceptsExact | crates/common/src/crypto.rs:176-210 | the same in terms of the parts themselves: a header without the payload's signature, or without any, is refused |
| Signature.SplitExact | crates/common/src/crypto.rs:186-186 | the parts of a header are the one list of comma-free texts that joins to it |
| Signature.SignedPayloadInjective | crates/common/src/crypto.rs:170-170 | the signed text determines the time and the payload |
| Signature.BuiltParts | crates/common/src/crypto.rs:169-173 | the built header is read back into its timestamp and signature, exactly when the timestamp fits 64 bits |
| Signature.RoundTrip | crates/common/src/crypto.rs:169-210 | the built header is accepted if and only if it is young enough; when the age wraps around, exactly when the wrapped age is small |
| Signature.SignatureBinds | crates/common/src/crypto.rs:169-210 | any header accepted with the signature made for one time and payload bears that time and is accepted for that payload, or two different signed texts collide under HMAC |
| Decimal.PrintParse | crates/common/src/crypto.rs:188-188 | reading back a printed integer gives it, exactly when it fits 64 bits |
| Decimal.ParseExact | crates/common/src/crypto.rs:188-188 | a text is read as a number if and only if it is a sign or none, zeros, and the number's digits, and the number fits 64 bits |

## Left out

- Fees.BatchFee: exact rational rate; rounding of the f64 product (crates/payment-service/src/orchestrator.rs:202) is not modelled.
- Safety.SettlementFeeAgainstLedger: exact rational rate, as for Fees.BatchFee.
- 64-bit overflow of sums and balances; only the signature age models wrap-around.
- Db.InsertPaymentIdempotent: foreign keys to merchants and orders, and a second waiting insert, are not modelled; a transaction takes effect at its commit.
- Db.UpdatePaymentAfterCharge: acquirer id, acquirer reference and captured_at, which no rule reads, are left out.
- Protocol: balance rows exist from the start or never; merchants registered during a run are not modelled.
- Orchestrator.PaymentOrchestrator.FailCreate: failure codes and messages are columns no rule reads; the three failure paths are one method.
- Router.AcquirerRouter.Forward: one capture or refund whose breakers no other request touches meanwhile.
- Router.AcquirerRouter.Charge: one charge whose breakers no other request touches meanwhile; the lemmas on outcomes also allow a circuit that opens between selection and attempt.
- RetryScheduler.RetryScheduler.RunOnce: one pass without interference from other workers; interleaved passes are the subject of `Webhooks`, where a batch is a series of claims at one clock reading and the order among claims is free.
- OutboxWorker.Worker.RunOnce: one pass without interference; interleaved passes are the subject of `Outbox`.
- Webhooks.DelayBounded: real arithmetic, so the last f64 rounding step at the cap is not modelled; the cut of a long error body at 500 bytes, which can panic inside a character, counts as a crash.
- Signature: HMAC is an arbitrary function with comma-free results where that matters; payloads are taken after their lossy conversion.
- Luhn: tokenize, detokenize and card brands; AES-GCM.
- crates/ledger-service writes one-sided entries from events without the field it reads; it is not an actor of the model.
- record_settlement and mark_payment_settled, which nothing calls. create_dispute has no caller in the repository either; it is an actor of the model because its status write is one the invariants have to survive.
- The HTTP handlers, among them the capture-method check, authentication, the Redis idempotency cache and rate limits: they forward to the operations modelled here or would only add easy members.
- Fraud rule scoring, reconciliation, currency conversion, merchant and order CRUD, consumers' deduplication, metrics and tracing: outside the money and delivery paths.
- Stranding.EndsUnlessStranded: says which deliveries can still end, not that fair workers end them; fairness of the scheduler is not modelled.
