# Payment saga verification

A Dafny model of the payment platform's money path and the services around it, with proofs
about every input, every run and every reachable state.

- **Payment saga.** `SagaMachine` cuts each call of the orchestrator at every store statement
  and every remote call; a handler holds the copy of the saga row it last read. A statement or
  call that fails ends its handler, before or after its effect. The row an operator's decision
  is answered with is read once more at the end; that read changes nothing, so it is a step of the
  call (`SagaSteps.RunCall`) and not of the machine. `Orchestrator` is the same code in the form
  of its source, proved equal to the machine.
- **Wallets and ledger.** `Bank` is each repository transaction as one atomic command,
  `Database` the same in statement form, and `RowLocks` the transactions at the level of row
  locks and pending unique keys, proved to be those atomic commands; `Deadlocks` is about
  which of them can wait for each other. `Acceptance` says when each command is accepted and what
  it then writes, `Ownership` who can send money.
- **Around them.** Payment processor, fraud-session leases, scoring graph, verification
  service, token bucket, ledger pagination, and the chat stream's printer and parser.

## Settings

Theorems about the saga name their setting.

- *Interleaved* (`SagaInterleaved`, `Announcements`, `SagaMoney`, `SagaIdentity`): any number of handlers of
  the same payment interleave at every statement and call, hold stale copies, and die anywhere;
  wallet API calls, the ledger consumer and the verification service run in between.
- *Serialised* (`SagaSerialised`, `ReviewDecisions`, `ForwardPath`, `ForwardRuns`, `Launching`,
  `Completion`, `Compensation`, `ReviewCrashes`, `Reaper`, `Recovery`): one handler at a time
  per payment, deaths anywhere, payments still interleave with each other. Rail events and fraud
  flags may come at any time, in any order, repeated and contradictory, launched or not.
  `Overlap` shows that the stored state is not reliable without this.
- *Crash-free* (`ReviewCommutes`): handlers run to their end, at any clock readings.

What carries the interleaved results is not the saga row, which is overwritten blindly, but
the reservation, which once CONFIRMED or CANCELED never moves, and the wallet operations, which
happen at most once. Settled and refunded therefore exclude each other in every reachable state.

## Where the code and what is expected of it differ

- `ReviewCrashes.SettledThenFlagged`: a payment confirmed just before a crash and then flagged
  can never be rejected; the sweep reports it. `Compensation.RejectionOutcome` has the exact condition.
- `Reaper.RejectedYetReportedAsFailure`: a review rejected and refunded whose announcement or final
  read fails is counted as a failure. `Reaper.SweepRejectsOverdueReviews` has the exact condition.
- `ReviewCrashes.DeferredResultLostIff`: a resume clears the deferred result before it applies it, so
  a crash in between loses it.
- `ReviewCrashes.ResumedPaymentIsHeldAgain`: a flag delivered again after a resume holds the payment
  again; `ReviewCrashes.FlagHoldsIff` has the exact condition.
- `Deadlocks.CrossingIsReachable`: a debit locks the wallet before it looks again for the debit
  row, a compensation locks the debit row before the wallet, so the two can deadlock.
  `Deadlocks.DeadlockIffCrossing` shows that nothing else can while the debits and compensations of
  a payment name one wallet, and `Deadlocks.MixedWalletsDeadlock` that they must.
- `Pagination.CompleteIff`: the page limit is cut to 32 bits, so limits above 2147483646 fail or
  silently lose entries. The service above it admits far smaller limits only.
- `RateLimiter.WindowBoundIff`: a first request is admitted without looking at the burst, so the
  window bound needs a positive burst, which configuration guarantees.
- `Processor.CounterGoesDownIff`: the attempt counter falls if the backoff table was shortened
  between deliveries.
- `Processor.OverlapPublishesBoth`: two overlapping deliveries can publish contradictory results.
- `Overlap.StaleFailureHidesDebit`: see above.

Integers that are 64 bits wide in the source are `int64` here, with the wrap-around of `Credit`
written out; the schema's CHECK on balances then refuses the wrapped row. Identifiers drawn at
random in the source come from a supply of unused numbers. The schema's uniqueness and CHECK
constraints are taken from `services/db/migrations`.

## Model

| member | source | states |
|---|---|---|
| SagaInterleaved.NeverSettledAndRefunded | services/internal/saga/orchestrator.go:158-311 | Interleaved: in every reachable state a payment with a compensation row has a cancelled reservation that owns no transfer and so no ledger entry, and got back exactly its debit |
| SagaInterleaved.CrossServiceAgreement | services/internal/saga/orchestrator.go:313-381 | Interleaved: once debited, the user is verified in every later state, the start payload never changes, and debit, reservation, both ledger entries and refund carry the start amount |
| Announcements.AnnouncementsAreTrue | services/internal/saga/orchestrator.go:804-841 | Interleaved: every enqueued event carries the start payload; tx.completed only for settled, never refunded payments, tx.failed only for cancelled and fully refunded ones; so never both for one payment |
| SagaIdentity.OneSagaPerKey | services/internal/saga/postgres_store.go:31-86 | Interleaved: no two payments of a user share an idempotency key, and identity columns never change |
| SagaMoney.MoneyIsConserved | services/internal/repo/wallets.go:136-319 | Interleaved: balances plus unrefunded saga debits is constant over every run of the whole system |
| SagaMoney.BalancesStayExplained | services/internal/repo/wallets.go:136-319 | Interleaved: every balance stays non-negative and equals what the rows naming the wallet say |
| SagaSerialised.StoredStateIsTrue | services/internal/saga/orchestrator.go:114-427 | Serialised with deaths anywhere: each stored state implies its wallet, ledger and outbox facts; COMPLETED is debited, unrefunded, confirmed and announced; FAILED is undebited or cancelled and refunded in full |
| SagaSerialised.TerminalStatesAbsorb | services/internal/saga/orchestrator.go:158-311 | Serialised: COMPLETED and FAILED are absorbing |
| SagaSerialised.ForwardPathHappensOnce | services/internal/saga/orchestrator.go:382-424 | Serialised: at most one payment.execute and one fraud.score.requested row ever; exactly one of each, one debit and one reservation, for the start payload, once processing |
| ReviewDecisions.ReviewHold | services/internal/saga/orchestrator.go:501-653 | Serialised, after any run: in review no step but the commit of an operator decision changes state, money, reservation or a stored deferred result; that commit stores its audit row in the same transaction, and the operator it names started the very call that commits |
| ReviewDecisions.OnlyDecisionsEndTheHold | services/internal/saga/fraud_review.go:33-126 | Serialised: over every run without a decision the payment stays in review with its money untouched and its first deferred result kept |
| ReviewDecisions.DecisionsNameTheirOperator | services/internal/saga/fraud_review.go:54-61 | Interleaved: in every reachable state each decision in the audit trail, and each about to be stored, was given on that payment by the operator it names |
| Overlap.StaleFailureHidesDebit | services/internal/saga/orchestrator.go:728-737 | why that needs one handler at a time: two overlapping handlers of a payment can store FAILED over a live debit |
| ForwardRuns.CrashesAreInvisible | services/internal/saga/orchestrator.go:313-450 | Serialised, a clock reading of its own for every statement: any retries, restarts and deaths leave, but for update times, exactly the stores of some prefix of the undisturbed run; once processing, of all of it |
| ReviewCommutes.ReviewOnlyDelays | services/internal/saga/fraud_review.go:33-75 | crash-free: flag, result, resume and flag, resume, result and the result alone end in the same state, failure, wallets and ledger |
| ReviewCommutes.HeldCompletionApplies | services/internal/saga/fraud_review.go:131-151 | crash-free: a held completion is applied on resume if and only if its event id has the completion prefix |
| ReviewCommutes.ProcessorIdsReplay | services/internal/paymentprocessor/processor.go:157-197 | event ids of the payment processor always replay as their own kind |
| ReviewCommutes.CallsFinish | services/internal/saga/fraud_review.go:33-126 | every call of the orchestrator returns within ten statements and calls, the last read of a resume or a rejection included |
| ReviewCommutes.FlagIsAudited | services/internal/saga/orchestrator.go:501-566 | a first flag leaves one audit row that tells whether it moved the payment to review (and announced it), only noted it, or named no payment |
| ReviewCommutes.LateResultIsAudited | services/internal/saga/orchestrator.go:568-653 | a result in review or after the end moves nothing, is audited as duplicate, contradiction or deferral, and only the first of a review is stored |
| Reaper.SweepRejectsOverdueReviews | services/internal/saga/review_reaper.go:26-58 | an overdue review ends FAILED with fraud_rejected and refunded in full if and only if its reservation is RESERVED and six statements and calls on it succeed; all other payments keep their rows; outcomes are independent of each other; every overdue review is counted as expired or as failure, expired ones are all rejected, and the numbers agree if and only if none failed between refund and answer |
| Reaper.SweepGoesByTheClock | services/internal/saga/review_reaper.go:36-40 | by the clock: a review whose flag is from now minus ttl or before is rejected in full if and only if it is RESERVED and six statements and calls succeed, a later one keeps all its rows; without a timed flag the last update counts; what is not in review keeps all its rows |
| Reaper.RejectedYetReportedAsFailure | services/internal/saga/review_reaper.go:44-57 | they can differ: a review whose refund is stored but whose announcement or final read fails is reported as a failure |
| Compensation.RejectionOutcome | services/internal/saga/fraud_review.go:84-126 | a rejection answers success if and only if its eight statements and calls succeed and the reservation is RESERVED; the payment is FAILED with fraud_rejected and its reason and refunded in full if and only if six do; audited from the second, announced once from the seventh and never before |
| ReviewCrashes.SettledThenFlagged | services/internal/saga/orchestrator.go:189-202 | the run that leads there: a completion confirmed and then dead, a flag, and no rejection ever succeeds or refunds, however many statements and calls do |
| ReviewCrashes.DeferredResultLostIff | services/internal/saga/fraud_review.go:46-75 | a deferred result is lost in a resume if and only if the resume is stored and what follows is not: before the fifth statement for a completion, before the fourth for a failure, always for an unreadable id |
| ReviewCrashes.FlagHoldsIff | services/internal/saga/orchestrator.go:501-566 | a flag, first or repeated, puts a payment in review if and only if it says flag or block, names event, payment, session, reason and time, has a score between 0 and 1, the stored state is PAYMENT_PROCESSING and its two statements succeed |
| ReviewCrashes.ResumedPaymentIsHeldAgain | services/internal/saga/fraud_review.go:33-75 | so the flag that caused a review, delivered again after the resume, holds the payment again |
| ReviewCrashes.ResumeOutcome | services/internal/saga/fraud_review.go:33-75 | a resume with nothing deferred puts the payment back under processing and is answered, if and only if its two statements succeed; nothing else of it changes |
| ReviewCrashes.ResumeCompletes | services/internal/saga/fraud_review.go:62-75 | a resume with a deferred completion completes the payment in full if and only if seven statements and calls succeed, and is answered if and only if eight do |
| ReviewCrashes.ResumeFails | services/internal/saga/fraud_review.go:62-75 | a resume with a deferred failure refunds the payment in full if and only if eight succeed and it is not settled, and is answered if and only if ten do |
| Compensation.FailureOutcome | services/internal/saga/orchestrator.go:225-311 | a rail failure of a launched payment, delivered or redelivered, succeeds if and only if its seven statements and calls do and the payment is not settled; it is FAILED with the rail's code and message and refunded in full if and only if six do; announced once by the seventh; out of processing from the second |
| Compensation.RefundOutcome | services/internal/saga/orchestrator.go:780-802 | taken up at the refund, made already or not: FAILED and refunded in full if and only if two statements and calls succeed, announced by the third |
| Launching.StartOutcome | services/internal/saga/orchestrator.go:114-139 | a new request succeeds and launches its payment in full (amount taken from its wallet only, debited, RESERVED, PAYMENT_PROCESSING, both outbox rows) if and only if its eight statements and calls succeed, its key is free, its user verified, its amount positive and within the balance, and its two wallets are different and hold dollars |
| Launching.AdvanceOutcome | services/internal/saga/orchestrator.go:313-427 | from any stored state of the forward path: launched if and only if what is left of its statements and calls succeeds and what is left of its conditions holds; otherwise stuck, and not answered as done |
| Launching.UnverifiedOutcome | services/internal/saga/orchestrator.go:317-341 | an unverified user's request ends FAILED before any money moves |
| Launching.RepeatedStart | services/internal/saga/postgres_store.go:31-86 | a request for a payment that is under way is answered as done, another payload or a used key is refused, and nothing changes |
| Launching.StartContinues | services/internal/saga/orchestrator.go:114-139 | the same request while the payment is only STARTED goes on with it, with the same exact condition |
| Completion.CompletionOutcome | services/internal/saga/orchestrator.go:158-223 | a rail completion of a launched payment, delivered or redelivered, succeeds and leaves it COMPLETED, settled in full (confirmed transfer and both ledger entries for the start payload, nothing refunded) and announced once, if and only if its five statements and calls succeed: the ledger never refuses it |
| Completion.ConfirmationAccepted | services/internal/repo/wallets.go:563-660 | in every consistent state the ledger accepts the confirmation of every launched payment |
| Compensation.CompensationOutcome | services/internal/saga/orchestrator.go:761-802 | from COMPENSATING_LEDGER, for every number of statements and calls: refunded in full if and only if four succeed and the payment is not settled, announced by the fifth and not before |
| Recovery.RecoverySettlesEverything | services/internal/saga/orchestrator.go:145-156 | no interference: a recovery without error leaves every payment processing, in review or ended; ended payments are untouched |
| Recovery.RecoveryLaunches | services/internal/saga/orchestrator.go:739-759 | recovery of a payment on its forward path launches it if and only if the statements and calls that are left succeed and the rest of its conditions hold |
| Recovery.RecoveryCompletes | services/internal/saga/orchestrator.go:739-747 | recovery of a LEDGER_CONFIRMED payment completes and announces it if and only if its three statements succeed |
| Recovery.RecoveryCompensates | services/internal/saga/orchestrator.go:748-802 | recovery finishes an interrupted compensation, refunded in full with its first code and message, if and only if what is left succeeds and the payment is not settled |
| BankLaws.RunLaws | services/internal/repo/wallets.go:60-319 | over every sequence of commands: tables stay consistent (double entry; CONFIRMED exactly when owning one complete transfer; balances non-negative; reservations and transfers between existing wallets of their currency), rows only grow, wallets keep owner and currency, money is conserved |
| BankLaws.CreditsNeverOverflow | services/internal/domain/wallet.go:47-53 | if all the money fits 64 bits then in every reachable state every possible credit is exact |
| BankLaws.RepeatChangesNothing | services/internal/repo/wallets.go:400-713 | a saga or ledger command once accepted changes nothing when repeated, whatever ran in between |
| Acceptance.TransferAcceptedIff | services/internal/repo/wallets.go:60-134 | a direct transfer is accepted if and only if its user owns the source, both different wallets exist and agree in currency, the amount is positive and covered, and the credit fits; a refused one changes nothing |
| Acceptance.DebitAcceptedIff | services/internal/repo/wallets.go:136-217 | a debit is accepted if and only if it was made before, or the wallet exists in its currency with that much money and the key is free |
| Acceptance.CompensationAcceptedIff | services/internal/repo/wallets.go:219-319 | a refund is accepted if and only if it was made before, or the payment was debited as the command says, the credit fits and the key is free |
| Acceptance.ReserveAcceptedIff | services/internal/repo/wallets.go:472-561 | a first reservation is accepted if and only if both wallets exist and hold USD, a repeated one if and only if it says the same; what is written |
| Acceptance.ConfirmAcceptedIff | services/internal/repo/wallets.go:563-660 | over consistent tables a confirmation is accepted if and only if it names its payment's reservation and that is not cancelled; no balance matters |
| Acceptance.CancelAcceptedIff | services/internal/repo/wallets.go:662-713 | a cancellation is accepted if and only if it names its payment's reservation and that is not confirmed; what is written |
| Acceptance.AppendAcceptedIff | services/internal/repo/wallets.go:400-470 | the entries of a direct transfer are appended if and only if its currency is supported; what is written, once |
| Ownership.OwnersAsk | services/internal/repo/wallets.go:80-83 | over every sequence of commands each recorded direct transfer was asked for, with its destination and amount, by the owner of its source |
| Ownership.OnlyTheOwnerSends | services/internal/repo/wallets.go:60-134 | over every sequence of commands in which the owner of a wallet sends nothing, the wallet and its open saga debits together do not fall |
| Ownership.OwnersAskUnderLocks | services/internal/repo/wallets.go:60-134 | the same under every interleaving of transactions: the owner's request is among those begun |
| WalletAccounts.BalancesAreExplained | services/internal/repo/wallets.go:60-319 | over every sequence of commands each balance plus its open debits plus sent minus received is constant |
| RowLocks.TransactionsAreSerial | services/internal/repo/wallets.go:136-319 | under every interleaving of lock, read, insert and commit steps, with aborts, the committed rows are those of the committed commands run one at a time in commit order |
| RowLocks.NoWriteIsLost | services/internal/repo/wallets.go:780-811 | after every interleaving money is conserved, each balance is explained by the committed rows, and committed rows stay: at most one debit and one compensation per payment, each moving its wallet once |
| RowLocks.AnswersAreAtomic | services/internal/repo/wallets.go:194-216 | a transaction that answers success committed exactly its command and answers its answer at that moment; any other has committed nothing |
| LoneTransactions.LoneTransactionIsItsCommand | services/internal/repo/wallets.go:60-319 | any transaction, undisturbed, comes within six statements to exactly the rows and the answer of its atomic command, errors included |
| Deadlocks.DeadlockNeedsCrossing | services/internal/repo/wallets.go:756-778 | lock order excludes every deadlock, among any of the transactions, without a debit and a compensation of the same payment, the one holding a wallet row and the other the debit row |
| Deadlocks.DeadlockIffCrossing | services/internal/repo/wallets.go:756-778 | when debits and compensations of a payment name the same wallet, as those of the saga do, some transactions deadlock if and only if a debit and a compensation of one payment hold each other's row |
| Deadlocks.MixedWalletsDeadlock | services/internal/repo/wallets.go:219-270 | without that, any two payable debits from different wallets reach a deadlock of four transactions in which no debit and compensation hold each other's row |
| Deadlocks.CrossingIsReachable | services/internal/repo/wallets.go:169-180 | that one is reachable: a debit requested twice with its compensation begun in between |
| Deadlocks.CrossingIsForever | services/internal/repo/wallets.go:240-270 | the pair waits for each other until one is aborted |
| Verification.DecisionsAreFinal | services/internal/verification/postgres_store.go:70-111 | over every sequence of calls a decided verification never changes and each user gets at most one terminal event, which agrees with it |
| Verification.EveryDecisionIsAnnounced | services/internal/verification/service.go:199-230 | when no call dies before its event, every decided user has exactly one terminal event |
| Verification.DecisionIsStored | services/internal/verification/postgres_store.go:70-111 | a decision on an undecided user is stored with exactly its status, reason and time and published; on a decided one it changes nothing; on an unknown one it is refused |
| Verification.SubmissionIsStored | services/internal/verification/postgres_store.go:21-60 | a submission of a new user, or of an undecided one under a new key, is stored as decided; under another user's key it is refused; any other changes nothing |
| Processor.OneResultPerPayment | services/internal/paymentprocessor/processor.go:77-197 | over all deliveries with deaths anywhere and any rail: the counter never falls and never passes backoffs plus one, a final status is stored once, all results published for a payment are one event |
| Processor.OverlapPublishesBoth | services/internal/paymentprocessor/processor.go:77-155 | why that needs one delivery at a time: two overlapping deliveries of a payment can publish a completion and a failure |
| Processor.DeliveryConcludes | services/internal/paymentprocessor/processor.go:97-155 | an uninterrupted delivery of a payment not concluded, first or after a crash, goes on with the next attempt and publishes exactly one result: what the first non-retryable answer, or the last allowed one, says |
| Processor.RedeliveryPublishes | services/internal/paymentprocessor/processor.go:86-89 | a redelivery of a concluded payment asks the rail nothing and publishes its stored result |
| Processor.CrashIsRepaired | services/internal/paymentprocessor/processor.go:77-95 | an interrupted delivery published nothing, and the next publishes the result that was stored |
| Processor.RefusedIff | services/internal/paymentprocessor/processor.go:198-212 | a command is refused if and only if a field is missing or the amount is not positive |
| Processor.CounterGoesDownIff | services/internal/paymentprocessor/processor.go:98-104 | with backoff tables that may change, the counter falls if and only if more attempts were made than the present table allows |
| FraudLease.OutcomeIsFinal | app/fraud/repo/postgres.py:17-149 | over any workers, clocks, expiries, heartbeats, deaths and redeliveries, a completed session's stored outcome never changes |
| FraudLease.WorkersAgree | app/fraud/worker.py:86-157 | every fraud.flagged event published for a source event carries the action and verdict of the one stored outcome |
| FraudLease.NoFlagIsLost | app/fraud/worker.py:86-157 | over every run of any number of workers, a delivery is committed only once its session is completed and, for a flag or a block, a fraud.flagged event was published; otherwise it is retried |
| FraudLease.RequestOutcome | app/fraud/worker.py:86-157 | one request on a free session, within its lease and with publications going through, ends with the session completed, released and stored in the table's words; a block or a flag is published exactly once with its verdict and marked, an allowed payment is not flagged, a failure is marked, and the delivery committed; a failed audit is retried |
| FraudLease.RedeliveryOutcome | app/fraud/worker.py:113-137 | a redelivery of a completed session publishes and marks what its stored outcome calls for, unless it was before |
| FraudLease.ClaimRefusedIff | app/fraud/repo/postgres.py:17-49 | a claim is refused if and only if another worker holds an unexpired lease on a session not completed |
| FraudLease.RowRoundTripIff | app/fraud/repo/postgres.py:82-109 | the whole outcome survives if and only if its reason code is absent, or not empty and at most 100 characters |
| FraudGraph.ScoringIsBounded | app/fraud/graph.py:124-202 | for every behaviour of store, enrichment and model: at most twelve nodes and two model calls, each with safe text; an action only as canonical action of a verdict validated from a model answer; the result is what was stored unless the audit failed |
| FraudGraph.ModelSeesAcceptedMessages | app/fraud/graph.py:260-321 | the model is called with exactly the messages that last passed the guard |
| FraudGraph.GuardLetsSafeTextThrough | app/fraud/guards.py:10-22 | accepted if and only if not blank, not too long, and free of UUIDs and sensitive keys |
| FraudGraph.ValidVerdictsAreSound | app/fraud/validator.py:18-62 | an accepted verdict has a score in [0,1], blocks if and only if that reaches the block threshold and flags if and only if it reaches the score threshold but not that, and has a reason of 1 to 300 characters |
| FraudGraph.ValidatesUsableAnswers | app/fraud/validator.py:18-79 | an answer is accepted if and only if it is short enough, an object with a known action, a score within a hundredth of 0 to 1, a reason of up to 300 characters that is not blank, and nothing sensitive; the verdict has its cut score and stripped reason |
| ScoringRuns.ScoringOutcome | app/fraud/graph.py:76-202 | with a working store: the prompt of the facts is sent if and only if it is safe, the first usable answer decides by its verdict, after an unusable one the model is asked exactly once more with the reason, and every other end has no action and says what failed; the answer is what is stored |
| ScoringRuns.EnrichmentFails | app/fraud/graph.py:140-152 | without enrichment the model is not asked and enrichment_failed is stored |
| Pagination.PagesAreComplete | services/internal/repo/wallets.go:321-347 | following the cursors ends, and returns every entry present at the start exactly once in strictly descending order, whatever is inserted between pages |
| Pagination.CompleteIff | services/internal/repo/wallets.go:322-329 | a limit is complete for every store if and only if it is at least 1 and its successor fits 32 bits |
| Pagination.LimitWraps | services/internal/repo/wallets.go:325-329 | beyond that, the query fails or a page silently misses entries and gives no cursor |
| RateLimiter.LazyIsEager | services/internal/gateway/middleware/ratelimit.go:52-73 | the lazy bucket decides every request sequence as a bucket that gets one capped token per tick |
| RateLimiter.WindowBound | services/internal/gateway/middleware/ratelimit.go:52-73 | after any history, any window of requests admits at most the burst plus one per refill interval begun |
| RateLimiter.WindowBoundIff | services/internal/gateway/middleware/ratelimit.go:57-61 | that bound holds for every history and window if and only if the burst is positive |
| RateLimiter.BucketsAreSound | services/internal/gateway/middleware/ratelimit.go:52-73 | over every history with a clock that does not go back, a bucket never holds more than the burst and was never refilled in the future |
| Sse.SseEvents | web/app/api/chat/route.ts:57-102 | for any chunks the events are those of the concatenated text |
| Sse.RoundTrip | app/llm/sse_presenter.py:22-29 | for every delta sequence the parser yields the printed payloads in order, then [DONE], and each delta can be read back from its payload; with SseEvents, under every chunking |
| Sse.ContentSurvives | app/llm/sse_presenter.py:7-19 | the content of a payload decodes to the delta it was printed for |
| SagaInterleaved.ExecKeeps | services/internal/saga/orchestrator.go:158-427 | one statement or call of any handler, with any stale copy, keeps the cross-service invariant and takes nothing back that another handler relies on |
| SagaInterleaved.SaveKeeps | services/internal/saga/postgres_store.go:260-298 | a blind full-row update from a stale copy keeps the invariant, because what a copy guarantees never depends on its being fresh |
| SagaInterleaved.CompensateStep | services/internal/saga/orchestrator.go:761-802 | a refund for a payment whose reservation is cancelled keeps the invariant, whatever stale copy asks for it |
| SagaInterleaved.ConfirmStep | services/internal/saga/orchestrator.go:189-202 | a confirmation that succeeds leaves the reservation confirmed for good |
| SagaInterleaved.CancelStep | services/internal/saga/orchestrator.go:761-779 | a cancellation that succeeds leaves the reservation cancelled for good |
| SagaInterleaved.RunKeeps | services/internal/saga/orchestrator.go:114-311 | Interleaved: the invariant holds after any sequence of spawns, steps, deaths, other services' commands and clock ticks |
| Announcements.ExecAnnounces | services/internal/saga/orchestrator.go:280-311 | one step of any handler keeps that, whatever it holds |
| SagaIdentity.ContinueSaves | services/internal/saga/postgres_store.go:260-298 | no handler writes a saga row other than by the one blind update of its own payment |
| SagaMoney.BankMoves | services/internal/saga/orchestrator.go:313-381 | a step of the saga changes wallets and ledger by at most one wallet or ledger command |
| ReviewDecisions.DecisionRecorded | services/internal/saga/postgres_store.go:152-170 | row and audit record of a decision are one transaction; an audit row is lost only to one with the same event id |
| SagaSerialised.ExecTells | services/internal/saga/orchestrator.go:313-427 | one step of the only live handler of a payment keeps the stored state true, keeps terminal states, and touches no other payment |
| SagaSerialised.RunTells | services/internal/saga/orchestrator.go:739-802 | Serialised: the invariant behind those results holds over every run |
| ForwardPath.DebitAgain | services/internal/repo/wallets.go:160-167 | a debit repeated after a lost reply answers the same and changes nothing |
| ForwardPath.ReserveAgain | services/internal/repo/wallets.go:496-505 | a reservation repeated after a lost reply answers the same and changes nothing |
| ForwardPath.AttemptFollows | services/internal/saga/orchestrator.go:739-759 | re-reading the row after a death leads back to the point the dead handler had reached |
| ReviewCommutes.RunSame | services/internal/saga/orchestrator.go:158-311 | fraud metadata, audit rows and clock readings never influence a rail handler's state, wallet or ledger effects |
| ReviewCommutes.FlagHolds | services/internal/saga/orchestrator.go:538-562 | a flag on a processing payment stores FRAUD_REVIEW and changes neither money nor the rest of the row |
| Compensation.RejectionSaysReason | services/internal/saga/fraud_review.go:98-104 | the stored message is the reason without the blanks around it, or the default for a blank one |
| Compensation.CompensationRefused | services/internal/repo/wallets.go:691-692 | a confirmed payment cannot be compensated: the cancel is refused and the handler errs |
| ReviewCrashes.DecisionRefused | services/internal/saga/fraud_review.go:33-45 | a decision on a payment that is not in review is refused and changes nothing |
| Completion.UnknownPaymentRefused | services/internal/saga/orchestrator.go:158-177 | a rail result of an unknown payment is an error and changes nothing |
| Compensation.RefundSucceeds | services/internal/repo/wallets.go:219-319 | in every consistent state whose money fits 64 bits the refund of an unrefunded debit is accepted |
| Compensation.RunConsistent | services/internal/saga/orchestrator.go:158-311 | one handler, however long it runs, leaves a consistent world, the same total, and all other payments alone |
| Compensation.SerialRunsAreConsistent | services/internal/saga/orchestrator.go:114-427 | every state the serialised setting reaches is consistent |
| Recovery.ResumeAllAt | services/internal/saga/orchestrator.go:739-802 | what the recovery loop does to one payment whatever happens to the others, and that it leaves a consistent world however it ends |
| BankLaws.CommandConserves | services/internal/repo/wallets.go:60-319 | each command conserves balances plus unrefunded debits |
| BankLaws.CommandKeeps | services/internal/repo/wallets.go:400-713 | each command keeps double entry and the reservation automaton |
| BankLaws.CommandExtends | services/internal/repo/wallets.go:563-713 | each command leaves committed operations as they are, and CONFIRMED and CANCELED reservations for good |
| Acceptance.TransferWrites | services/internal/repo/wallets.go:91-134 | an accepted transfer moves the amount between the two wallets, records it once and announces it, and changes nothing else |
| Acceptance.DebitWrites | services/internal/repo/wallets.go:183-216 | a new debit lowers its wallet, records the operation, and changes nothing else |
| Acceptance.CompensationWrites | services/internal/repo/wallets.go:278-318 | a new refund raises the debited wallet by the debited amount, records the operation, and changes nothing else |
| Acceptance.ConfirmWrites | services/internal/repo/wallets.go:600-659 | an accepted confirmation writes the transfer, both entries and the CONFIRMED reservation, and moves no wallet |
| Acceptance.CreateWalletWrites | services/internal/repo/wallets.go:38-47 | a new wallet is empty and its creator's, and no other changes |
| Ownership.OwnersStay | services/internal/repo/wallets.go:38-134 | over every sequence of commands a wallet keeps its owner |
| Domain.Debited | services/internal/domain/wallet.go:36-45 | accepted exactly for a positive amount within the balance, and then exact |
| Domain.Credited | services/internal/domain/wallet.go:47-53 | accepted exactly for a positive amount; exact when it fits, negative by wrap-around when not |
| Domain.NormalizeIsIdempotent | services/internal/domain/wallet.go:21-30 | a normalized currency normalizes to itself |
| Domain.CurrencyAcceptedIff | services/internal/domain/wallet.go:21-30 | a currency is accepted if and only if it is blank or, but for surrounding blanks and case, USD |
| BankFrames.DebitShape | services/internal/repo/wallets.go:136-217 | a debit writes rows of its own payment only, and a new row carries the command |
| BankFrames.CompensationShape | services/internal/repo/wallets.go:219-319 | a compensation writes rows of its own payment only |
| BankFrames.ReserveShape | services/internal/repo/wallets.go:472-561 | a reservation never changes an existing one |
| BankFrames.ConfirmShape | services/internal/repo/wallets.go:563-660 | a confirmation changes only its reservation, and never a cancelled one |
| BankFrames.CancelShape | services/internal/repo/wallets.go:662-713 | a cancellation changes only its reservation, and never a confirmed one |
| RowLocks.AdvanceOk | services/internal/repo/wallets.go:756-789 | one statement keeps locks exclusive and every running transaction's reads valid |
| RowLocks.DebitCommitOk | services/internal/repo/wallets.go:183-216 | the balance computed from the locked row is the one the atomic debit would write |
| RowLocks.CompCommitOk | services/internal/repo/wallets.go:278-318 | the balance computed from the locked row is the one the atomic compensation would write |
| RowLocks.TransferCommitOk | services/internal/repo/wallets.go:76-116 | both balances computed from the two locked rows are those of the atomic transfer |
| RowLocks.ConfirmCommitOk | services/internal/repo/wallets.go:600-659 | the blind status update of a confirmation is the atomic confirmation, under the reservation's lock |
| RowLocks.CancelCommitOk | services/internal/repo/wallets.go:695-712 | the blind status update of a cancellation is the atomic cancellation |
| Verification.ServeKeeps | services/internal/verification/service.go:113-164 | one call keeps decided rows and the event log |
| Processor.HandleKeeps | services/internal/paymentprocessor/processor.go:77-95 | one delivery keeps all that, and never falls through the loop |
| Processor.RetryKeeps | services/internal/paymentprocessor/processor.go:97-155 | the loop keeps all that from any attempt number in range |
| FraudLease.FailedPublicationIsLeft | app/fraud/worker.py:115-131 | a publication that fails leaves the session completed, released and unmarked, and the delivery is retried |
| FraudLease.LeaseGuards | app/fraud/repo/postgres.py:51-149 | audit, completion and marking succeed if and only if the worker owns the lease and it has not run out; renewal if and only if it owns a session not completed |
| FraudLease.ActOk | app/fraud/worker.py:90-150 | one step of a worker: a scoring worker whose session was completed elsewhere has lost the lease; a worker with a returned outcome holds the stored one |
| FraudLease.RowKeepsOutcome | app/fraud/repo/postgres.py:192-241 | action and verdict survive the row, and writing back what was read changes nothing |
| FraudGraph.NodeOk | app/fraud/graph.py:87-122 | every node keeps the run's invariant and shortens what can follow |
| Pagination.OnePage | services/internal/repo/queries/ledger.sql.go:146-156 | a page is the first rows selected, and all other selected rows are below its cursor |
| Pagination.CursorFalls | services/internal/repo/queries/ledger.sql.go:146-156 | each cursor is below the one before |
| Sse.Drain | web/app/api/chat/route.ts:70-86 | cuts the buffer at every blank line |
| Sse.EventsGoOn | web/app/api/chat/route.ts:68-87 | reading more text goes on from the leftover buffer |
| Sse.DecodeAll | app/llm/sse_presenter.py:25-25 | every text survives being written as an ASCII JSON string |
| Orchestrator.Orchestrator.Update | services/internal/saga/postgres_store.go:144-146 | the row is overwritten without a version check, or the statement fails and nothing changed |
| Orchestrator.Orchestrator.UpdateWithAudit | services/internal/saga/postgres_store.go:152-170 | row and audit record change together or not at all |
| Orchestrator.Orchestrator.InsertAudit | services/internal/saga/postgres_store.go:430-446 | an audit row is inserted once per event id, none for an empty id |
| Orchestrator.Orchestrator.Enqueue | services/internal/saga/orchestrator.go:804-841 | the outbox row is appended, or the statement fails and nothing changed |
| Orchestrator.Orchestrator.RecordFraudAudit | services/internal/saga/orchestrator.go:494-499 | equal to the audit handler of the machine, for every number of statements that succeed |
| Orchestrator.Orchestrator.Create | services/internal/saga/postgres_store.go:31-86 | equal to the machine's first step of a start request: insert, same payload, or conflict |
| Orchestrator.Orchestrator.StartPaymentSaga | services/internal/saga/orchestrator.go:114-139 | equal to the start handler, for every number of statements and calls that succeed before one fails |
| Orchestrator.Orchestrator.Verify | services/internal/saga/orchestrator.go:317-341 | equal to the machine up to the stored VERIFICATION_CHECKED |
| Orchestrator.Orchestrator.FailUnverified | services/internal/saga/orchestrator.go:728-737 | equal to the machine's unverified end |
| Orchestrator.Orchestrator.Debit | services/internal/saga/orchestrator.go:342-362 | equal to the machine up to the stored WALLET_DEBITED |
| Orchestrator.Orchestrator.Reserve | services/internal/saga/orchestrator.go:363-381 | equal to the machine up to the stored LEDGER_RESERVED |
| Orchestrator.Orchestrator.LaunchPayment | services/internal/saga/orchestrator.go:382-424 | one transaction stores PAYMENT_PROCESSING and both outbox rows |
| Orchestrator.Orchestrator.AdvanceFrom | services/internal/saga/orchestrator.go:313-427 | the four blocks in sequence equal the machine's forward path from any stored state |
| Orchestrator.Orchestrator.HandlePaymentCompleted | services/internal/saga/orchestrator.go:158-223 | equal to the completion handler |
| Orchestrator.Orchestrator.Settle | services/internal/saga/orchestrator.go:189-222 | equal to the machine from confirmation to COMPLETED |
| Orchestrator.Orchestrator.PublishAndComplete | services/internal/saga/orchestrator.go:741-747 | announced before COMPLETED is stored |
| Orchestrator.Orchestrator.DeferTerminalPaymentResult | services/internal/saga/orchestrator.go:568-653 | equal to the machine's deferral |
| Orchestrator.Orchestrator.HandlePaymentFailed | services/internal/saga/orchestrator.go:225-311 | equal to the failure handler |
| Orchestrator.Orchestrator.ResumeCompensation | services/internal/saga/orchestrator.go:761-802 | equal to the machine from cancelling or from refunding |
| Orchestrator.Orchestrator.Refund | services/internal/saga/orchestrator.go:780-801 | refund, then FAILED, then the announcement |
| Orchestrator.Orchestrator.HandleFraudFlagged | services/internal/saga/orchestrator.go:501-566 | equal to the flag handler |
| Orchestrator.Orchestrator.Pause | services/internal/saga/orchestrator.go:466-492 | held row, tx.paused row and audit record in one transaction |
| Orchestrator.Orchestrator.ResumeFraudReview | services/internal/saga/fraud_review.go:33-75 | equal to the resume call, replay and the read after a replay included |
| Orchestrator.Orchestrator.ApplyDeferredResult | services/internal/saga/fraud_review.go:131-151 | a deferred result goes to the handler its id prefix names, or fails |
| Orchestrator.Orchestrator.RejectFraudReview | services/internal/saga/fraud_review.go:84-126 | equal to the reject call, its last read included |
| Orchestrator.Orchestrator.ResumeOne | services/internal/saga/orchestrator.go:739-759 | equal to the machine's recovery of one row |
| Orchestrator.Orchestrator.ResumeNonTerminal | services/internal/saga/orchestrator.go:145-156 | the loop equals the recovery fold that stops at the first error |
| Orchestrator.Orchestrator.ExpireFraudReviews | services/internal/saga/review_reaper.go:26-58 | the loop equals the sweep; a non-positive ttl is refused and changes nothing |
| Database.WalletRecord.Debit | services/internal/domain/wallet.go:36-45 | in place: lowered exactly, or refused and unchanged |
| Database.WalletRecord.Credit | services/internal/domain/wallet.go:47-53 | in place: raised exactly while it fits, or refused and unchanged |
| Database.Database.CreateTransfer | services/internal/repo/wallets.go:60-134 | statement form equals the atomic command, rollback included |
| Database.Database.DebitForSaga | services/internal/repo/wallets.go:136-217 | statement form equals the atomic command, rollback included |
| Database.Database.CompensateDebit | services/internal/repo/wallets.go:219-319 | statement form equals the atomic command, rollback included |
| Database.Database.ReserveTransfer | services/internal/repo/wallets.go:472-561 | statement form equals the atomic command |
| Database.Database.ConfirmTransfer | services/internal/repo/wallets.go:563-660 | statement form equals the atomic command |
| Database.Database.CancelReservation | services/internal/repo/wallets.go:662-713 | statement form equals the atomic command |
| Database.Database.AppendTransferEntries | services/internal/repo/wallets.go:400-470 | statement form equals the atomic command |
| Verification.Store.SubmitRow | services/internal/verification/postgres_store.go:21-60 | statement form equals the submit function and keeps decided rows |
| Verification.Store.DecideRow | services/internal/verification/postgres_store.go:70-111 | statement form equals the decide function and keeps decided rows |
| Processor.Processor.ProcessPending | services/internal/paymentprocessor/processor.go:97-155 | the loop equals its specification, indexes the backoffs in range, and does not fall through |
| Processor.Processor.HandleExecute | services/internal/paymentprocessor/processor.go:77-95 | equals one delivery of the specification |
| Processor.Processor.MarkAndPublish | services/internal/paymentprocessor/store.go:80-120 | status stored, then published; or interrupted before either |
| FraudLease.FraudWorker.ClaimSession | app/fraud/repo/postgres.py:17-49 | equals the claim function: free, own, expired or completed sessions only |
| FraudLease.FraudWorker.AppendEvent | app/fraud/repo/postgres.py:51-80 | guarded by an unexpired own lease |
| FraudLease.FraudWorker.CompleteSession | app/fraud/repo/postgres.py:82-109 | guarded by an unexpired own lease |
| FraudLease.FraudWorker.MarkAsPublished | app/fraud/repo/postgres.py:111-125 | guarded by an unexpired own lease |
| FraudLease.FraudWorker.RenewLease | app/fraud/repo/postgres.py:127-139 | only an own, uncompleted session, expired or not |
| FraudLease.FraudWorker.ReleaseLease | app/fraud/repo/postgres.py:141-149 | only an own lease |
| FraudLease.FraudWorker.RunGraph | app/fraud/graph.py:375-392 | audits until an outcome is decided, then completes under the lease |
| FraudLease.FraudWorker.HandleRequest | app/fraud/worker.py:86-157 | equals the worker's steps for every sequence of outside choices, ended anywhere |
| FraudGraph.FraudScoringGraph.NodeCreateSession | app/fraud/graph.py:124-132 | in-place form equals the node's specification |
| FraudGraph.FraudScoringGraph.NodeBuildContext | app/fraud/graph.py:134-138 | in-place form equals the node's specification |
| FraudGraph.FraudScoringGraph.NodeEnrich | app/fraud/graph.py:140-152 | in-place form equals the node's specification |
| FraudGraph.FraudScoringGraph.NodeBuildPrompt | app/fraud/graph.py:154-158 | in-place form equals the node's specification |
| FraudGraph.FraudScoringGraph.NodeInputGuard | app/fraud/graph.py:160-169 | in-place form equals the node's specification |
| FraudGraph.FraudScoringGraph.NodeCallLlm | app/fraud/graph.py:171-178 | in-place form equals the node's specification |
| FraudGraph.FraudScoringGraph.NodeValidateVerdict | app/fraud/graph.py:180-189 | in-place form equals the node's specification |
| FraudGraph.FraudScoringGraph.NodeRetryPrompt | app/fraud/graph.py:191-196 | in-place form equals the node's specification |
| FraudGraph.FraudScoringGraph.NodeCompleteSession | app/fraud/graph.py:198-202 | in-place form equals the node's specification |
| FraudGraph.FraudScoringGraph.Score | app/fraud/graph.py:76-85 | the walk along the edges equals the specified run, exceptions included |
| RateLimiter.RateLimiter.AllowRequest | services/internal/gateway/middleware/ratelimit.go:52-73 | in-place form equals the specification and moves nobody else's bucket |

## Left out

- gRPC, HTTP, protobuf, authentication, telemetry, traces, configuration loading, the web UI, command-line mains and load tools: plumbing around the modelled code.
- JSON, base64, UUID and time formatting of events, cursors and deferred results: values stand for their encodings, except the chat payloads in `Sse`.
- TextDecoder and UTF-8: the parser is modelled on decoded text.
- At-least-once consumption in the Kafka loops: a failed record can be passed by a later commit, so it is not claimed.
- tx.failed for every FAILED saga: the state is stored before the event is enqueued; `Compensation.RejectionOutcome` and `Compensation.FailureOutcome` have the one statement between them.
- Unconditional progress of recovery and compensation: recovery stops at the first error; `Recovery.RecoverySettlesEverything` says what holds when there is none.
- A resume that is final against a redelivered fraud flag, and a deferred result that survives a crash inside resume: the code promises neither; `ReviewCrashes.FlagHoldsIff` and `ReviewCrashes.DeferredResultLostIff` say exactly when they fail.
- Crediting the destination wallet when a saga succeeds: the code writes ledger rows only; money in open debits counts as outside the wallets, and `balance_after` is not claimed to be a running balance.
- Outbox publisher, retention sweepers, notifications, dead-letter encoding, in-memory stores: easier than what is here.
- Wallet creation's own checks, the fraud history and velocity queries: read-only or trivial.
- The verification service's trimming of command text and its mapping to a decision: the decision is a parameter.
- ReserveTransfer and AppendTransferEntries at lock level: in `RowLocks` they are atomic; they insert rows under unique constraints and change none.
- FOR KEY SHARE locks taken by foreign keys: the inserting transaction already holds the wallet rows.
- The id and creation time of a saga row, and trace ids: nothing modelled depends on them.
- updated_at inside a multi-step handler: the source keeps one clock reading in two handlers, the model reads the clock at each step; nothing but the reaper's fallback reads it, and only for rows without a flag.
- ForwardRuns.CrashesAreInvisible: the other payments stand still during the attempts; `SagaSerialised.ForwardPathHappensOnce` lets them run.
- ReviewDecisions.ReviewHold: an audit row of a decision is kept out by an earlier one of the same kind, payment and instant, as the table's unique event id demands.
- FraudLease.OutcomeIsFinal: workers have names of their own and handle one request at a time (`app/fraud/main.py` draws a fresh name per process); retention deletes are not modelled.
- FraudGraph.ScoringIsBounded: the wording of the facts is two strings, JSON parsing of an answer is a parameter, lower-casing is that of ASCII.
- fraud.error events: only that one was due and marked is modelled, not the event; its failure to go out is ignored by the source.
- FraudLease.FraudWorker.HandleRequest: the heartbeat is the separate `Heartbeat` step of the system, not a thread of this method.
- Processor.OneResultPerPayment: deliveries of one payment are handled one at a time, without which it is false (`Processor.OverlapPublishesBoth`); jitter and sleeping have no effect on the stores.
- RateLimiter.LazyIsEager: time differences beyond what a 64-bit duration holds are not modelled.
