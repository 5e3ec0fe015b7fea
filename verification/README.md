# A verified model of the fiat payment orchestrator

The orchestrator takes payment intents on five rails (card, ACH, SEPA, PIX, UPI), drives each through
authorization, optional 3DS challenge, capture, settlement, refund and chargeback, keeps money counters
next to tables of rows, writes an audit log, and protects its write endpoints with idempotency keys.
This project models that behaviour in Dafny and proves what the code keeps over whole runs. Verify it
with `dafny verify dfyconfig.toml`.

## How the model is built

* **Requests on one intent** (`Domain`, `Engine`, `Numeric`). Each handler callback is a function of the
  intent, the answers of rail, 3DS provider and fraud service, and the time. Its result holds the intent
  as the callback left it (also when it failed), the error, the row decided on, the audit events and the
  outside calls. Amounts are 64-bit and wrap.
* **The system** (`World`). A request is a short program of atomic actions, one per lock acquisition of
  the store: update the intent, append the row, emit an event, mark the webhook. A run is any
  interleaving of any number of requests; `RunAll` is the special case of one request after another.
* **What each request comes to** (`Decisions`, `Answers`, `Deliveries`). Exactly which requests are accepted,
  what they move and how they are answered, told from the request and the answers it received, in true
  integers and without the functions of the handlers.
* **Invariants over every run** (`Ledger`, `History`, `Runs`, `Safety`, `Conservation`, `Progress`,
  `Audit`, `AuditOrder`, `Gate`, `Webhooks`, `Redelivery`, `Isolation`, `Interleaving`, `Sequential`,
  `TwoStores`).
* **The idempotency protocol** (`Idempotency`, `IdempotencyTiming`, `IdempotencyReplies`,
  `IdempotencyAnswers`): lookup, claim, handle and store as separate timed steps of any number of callers
  over the in-memory or the Redis layout, including lost requests, lost answers and crashed handlers.
* **The objects** (`Store`, `Service`, `IdempotencyStores`). Intents are records changed in place, the
  stores are classes with map fields, and the handlers are methods in the branch order of the source.
  Each is proved against the functions above, so every theorem about runs speaks about them.
* **The webhook worker, the migration runner and the metrics** (`Worker`, `Migrations`, `Metrics`).

## Where the code differs from its documents

The model follows the code.

* `settled` is terminal in the code, although the table lists edges out of it. A refund of a settled
  intent calls the rail, moves the counter, records a row and then fails (`TwoStores.StoresDiffer`);
  opening a chargeback fails exactly on a settled intent and is answered 500
  (`Service.WebhookUpdatesFailExactly`, `Service.DeliveryFailsExactly`).
* `charged_back`, which the documentation lists as terminal, is left by the reversal of the dispute; the
  other statuses it lists are kept by every request (`Progress.DocumentedTerminalLeftExactly`).
* In memory a failing callback keeps what it did. Postgres rolls the intent back, but not the rows, the
  audit events and the rail calls: a refunded settled intent gets a row without the counter
  (`TwoStores.TxConservesExactlyUnless`) and a failed challenge can be repeated
  (`TwoStores.RetryAfterFailure`).
* The int64 sums of capture and refund can wrap past their guards. `Ledger.ApplyKeepsLedger` says exactly
  when that breaks the ledger, `Conservation.ConservedExactly` when it separates counters from rows, and
  `Safety.ModestRunsAreSafe` gives a bound on the requests for a payment that excludes both.
* The documentation promises 409 for every invalid transition. A capture in the wrong state is answered
  502, and a 409 can come after the intent changed, also when it is the 3DS provider that timed out
  (`Service.ConflictsExactly`, `Service.ProviderTimeoutConflicts`).
* The claim key in Redis expires before the response key, so "replays within the key's TTL return the
  original response" holds exactly under a timing condition: on the runs
  in `IdempotencyTiming.AtMostOnceExactly`, on the responses in `IdempotencyReplies.OneResponseExactly`.
* A refund of part of a captured payment makes it `refunded`, which is terminal, so the rest can never be
  refunded (`Decisions.OneRefundOnly`).
* A void checks the status only, so a partly captured intent can be voided
  (`Ledger.VoidWithCapturesExactly`, `Ledger.PartlyCapturedCanBeVoided`).
* 3DS intents are never scored for fraud; all others are (`Gate.ScoredUnless3DS`).
* ACH and SEPA intents are authorized and can never be captured (`Safety.BankRailsNeverCapture`).
* Audit events can be out of order: exactly when a request with an event of its own acts on an intent
  before its creation has emitted its last one (`AuditOrder.ChainExactly`).
* `Worker.Stop` drains the queue only if it is empty when Stop is called (`Worker.StopDrainsExactly`, with
  `Worker.StopLeavesItem` as the witness).
* `Worker.Idle` can return with a webhook unhandled. It can be trusted exactly if, when it is called, the
  queue is empty and no worker is between taking and counting (`Worker.IdleHoldsExactly`, with
  `Worker.IdleTooEarly` as the witness); or if no worker is left, when it does not return.
* The absolute value of the smallest duration is negative, so a webhook timestamp at least 292 years ahead
  passes the replay window, except for the last 62135596800 timestamps, which wrap into the past
  (`Webhooks.ReplayWindowExactly`).
* `itoa` renders the smallest int64 as a lone minus sign (`Numeric.ItoaRoundTrip`).

## Model

| member | source | states |
|---|---|---|
| Domain.Add64 | internal/api/handlers.go:438-444 | two's-complement addition: the true sum, or off by exactly 2^64 |
| Domain.RailNamesParse | internal/domain/intent.go:48-54 | a name is recognised as a rail if and only if it is that rail's name |
| Numeric.Itoa | internal/api/handlers.go:936-953 | the digit loop (the same as `intToStr` of the metrics) returns the decimal rendering, including the lost digits of the smallest int64 |
| Numeric.ItoaRoundTrip | internal/api/handlers.go:936-953 | parsing the rendering gives the number back, without leading zeros, if and only if it is not the smallest int64 |
| Numeric.ItoaInjective | internal/api/handlers.go:936-953 | different amounts never render alike |
| Engine.Is3DSExpired | internal/api/handlers.go:663-674 | the backward scan decides expiry against the most recent 3ds_pending event |
| Ledger.ApplyKeepsLedger | internal/api/handlers.go:421-570 | the status-indexed ledger invariant survives a request if and only if the request does not wrap |
| Ledger.WrapGoesNegative | internal/api/handlers.go:438-444 | a request that wraps leaves a negative counter |
| Ledger.CreateKeepsLedger | internal/api/handlers.go:287-373 | a created intent satisfies the invariant if and only if an instant rail reported an amount in 1..amount |
| Ledger.CapturesStayInBounds | internal/api/handlers.go:428-455 | for amounts up to 2^62, in every run of partial and default captures no sum or difference wraps and the ledger invariant holds |
| Ledger.CaptureBoundIsExact | internal/api/handlers.go:428-455 | 2^62 is the exact bound: above it some run of captures wraps past the guard |
| Ledger.VoidWithCapturesExactly | internal/api/handlers.go:490-503 | a void leaves a voided intent with captured money if and only if the intent was authorized with some captured and the rail agreed |
| Ledger.PartlyCapturedCanBeVoided | internal/api/handlers.go:490-503 | capturing one unit of a larger amount and voiding leaves one unit captured |
| History.ApplyKeepsHistory | internal/domain/intent.go:175-187 | every request only appends to the history; reading it yields the status along permitted edges, the audit events emitted and the captures decided |
| History.CreateKeepsHistory | internal/api/handlers.go:289-373 | the same for the history a creation starts with |
| World.RowsAfterAppend | internal/store/store.go:106-151 | appending a row extends one table of one intent and no other |
| World.ExecShrinks | internal/api/handlers.go:419-911 | every action leaves less to do than it was, so every request finishes |
| Decisions.CaptureSucceedsExactly | internal/api/handlers.go:421-441 | which captures call the rail and succeed, on every sound ledger: by rail, status, reply and the amounts as true integers; any other changes nothing, with which error |
| Decisions.CaptureMovesAmount | internal/api/handlers.go:442-465 | a capture moves exactly the amount asked for, the whole amount if none, and the intent is captured exactly when the sum reaches its amount; row, event and call carry that amount |
| Decisions.CapturesFinish | internal/api/handlers.go:428-465 | from any point of its captures one request captures the rest of a card payment, and another refunds the whole |
| Decisions.VoidExactly | internal/api/handlers.go:490-503 | what a void leaves, for each status and reply |
| Decisions.RefundSucceedsExactly | internal/api/handlers.go:536-570 | which refunds call the rail, which succeed, and that the refund of a settled payment ends in the terminal error |
| Decisions.RefundRefused | internal/api/handlers.go:537-552 | any other refund changes nothing, with which error |
| Decisions.RefundMovesAmount | internal/api/handlers.go:553-570 | a refund moves exactly the amount asked for, all that was captured if none; row and call carry it, and only a captured intent becomes refunded |
| Decisions.DefaultRefundReturnsAll | internal/api/handlers.go:540-570 | a refund without an amount returns everything captured |
| Decisions.OneRefundOnly | internal/api/handlers.go:537-565 | after a refund of a captured payment, of all or of part, every further one is refused and reaches no rail |
| Decisions.ChallengeAuthorizesExactly | internal/api/handlers.go:604-638 | a pending challenge authorizes the intent if and only if it is in time and the 3DS provider, the verification and the authorization all say yes; otherwise it fails the intent with the error of the first no |
| Decisions.ChallengePasses | internal/api/handlers.go:604-638 | everything that a passed challenge leaves |
| Decisions.ChallengeFails | internal/api/handlers.go:608-632 | everything that a failed one leaves: details, event, and the calls up to the first no |
| Decisions.SettleExactly | internal/api/handlers.go:786-811 | a captured intent is settled with exactly the amount reported, by a row of that amount, and a break is recorded if and only if it differs from the captured one |
| Decisions.OpenChargebackExactly | internal/api/handlers.go:860-871 | what opening a chargeback leaves in each status |
| Decisions.ReverseExactly | internal/api/handlers.go:888-904 | what a reversal leaves |
| Decisions.CallsRecordReplies | internal/api/handlers.go:441-631 | every call logged by a request has the answer that came with the request, and every call before it got a yes |
| Decisions.CreateCallsRecordReplies | internal/api/handlers.go:306-366 | the same for a creation |
| Decisions.ValidExactly | internal/api/handlers.go:255-284 | which creations are accepted |
| Decisions.CreatesExactly | internal/api/handlers.go:289-373 | what a creation comes to, in every branch: the intent with every field, its row, events and calls |
| Decisions.TransitionsFollowLifecycle | internal/domain/intent.go:128-187 | a transition succeeds if and only if it is an edge of the lifecycle that can be taken; otherwise it changes nothing, and the error says whether any could |
| Runs.ExecKeyed | internal/store/store.go:92-103 | every action keeps each intent under its own id with a history that accounts for it |
| Runs.RunKeyed | internal/domain/intent.go:115-187 | at every point of every interleaving, each stored intent has a history that replays to its status, none is in intent or refunding, and settled is zero until settlement |
| Runs.ExecSound | internal/api/handlers.go:421-570 | an action keeps every ledger sound if and only if it is safe: it overflows no counter, and what an instant rail reports for a new intent is in range |
| Runs.RunSoundFor | internal/api/handlers.go:287-814 | the ledger invariant of one intent holds at every point of an interleaving if and only if every action on that intent is safe, whatever happens to others |
| Runs.RunSound | internal/api/handlers.go:287-814 | the ledger invariant of all intents holds at every point of an interleaving if and only if every action of it is safe |
| Safety.ModestRunsAreSafe | internal/api/handlers.go:421-570 | if the requests for a payment keep to amounts below 2^62, its rail within the amount and refunds that leave room, no interleaving overflows its counters, whatever other requests ask for |
| Safety.BankRailsNeverCapture | internal/api/handlers.go:332-422 | in every run, overflowing or not, ACH and SEPA intents have nothing captured and never reach captured or a later status |
| Conservation.ApplyMoves | internal/api/handlers.go:438-571 | a request moves each counter by exactly the amount of the row it decides if and only if the true sum fits in 64 bits |
| Conservation.ExecConserves | internal/api/handlers.go:421-468 | every action changes counters, rows and rows decided but not appended so that they still balance, if and only if it is not a capture or refund whose true sum does not fit; then they are off by 2^64 |
| Conservation.ConservedModulo | internal/api/handlers.go:347-354 | in every interleaving whatsoever, counters equal appended plus pending rows modulo 2^64 |
| Conservation.SafeRunsNeverWrap | internal/api/handlers.go:438-571 | if every action on an intent is safe, no sum of it ever wraps |
| Conservation.ConservedExactly | internal/api/handlers.go:421-574 | a quantity of an intent equals appended plus pending rows at every point of an interleaving if and only if no accepted capture or refund of that intent wraps its sum |
| Conservation.Conserved | internal/api/handlers.go:421-574 | at every point of every interleaving, captured events, the settled status and counter, and the amounts the rail accepted each equal appended plus pending rows; so do the captured and refunded counters of an intent of which no sum has wrapped, whatever happens to other intents |
| Conservation.ConservedAtRest | internal/store/store.go:92-141 | with no request in flight they equal the rows alone, also after the refund of a settled intent |
| Conservation.SettledOnce | internal/api/handlers.go:786-814 | in any run an intent has at most one settlement row, and none unless it is settled |
| Conservation.CapturesLogged | internal/api/handlers.go:455-468 | at rest, captured events and capture rows are equally many |
| Progress.ApplyEvolves | internal/domain/intent.go:27-34 | a request moves the status rank down or leaves it, keeps identity, extends the history and freezes captured once past authorized |
| Progress.RunEvolves | internal/domain/intent.go:128-187 | between any two points of any interleaving the same holds |
| Progress.TerminalForEver | internal/domain/intent.go:27-34 | a terminal status is never left |
| Progress.DocumentedTerminalLeftExactly | internal/domain/intent.go:159-162 | of the statuses documented as terminal only charged_back is ever left, exactly by a reversal, to won for amount zero and lost otherwise |
| Progress.AtMostFiveChanges | internal/domain/intent.go:128-187 | at most five status changes per intent, despite the cycle in the table |
| Progress.BoundedProgress | internal/api/handlers.go:421-571 | as long as the requests for an intent overflow none of its counters, at most 5 + 2 * amount steps of any run change its status or money: each spends a potential |
| Progress.BreakIffMismatch | internal/api/handlers.go:799-810 | for ever after settlement, the history holds a reconciliation break if and only if settled and captured differ |
| Audit.HistorySpellsChain | internal/domain/intent.go:128-187 | a history spells out a chain of permitted edges from intent to the current status, whose targets are its statuses without refunding |
| Audit.SequentialInStep | internal/api/handlers.go:967-978 | after each action of a sequence, events emitted and still to be emitted are those the histories spell out |
| Audit.AuditChain | internal/api/handlers.go:459-462 | after any sequence of requests, the audit events of each intent are that chain |
| Audit.AuditComplete | internal/api/handlers.go:311-371 | under any interleaving no audit event is lost or invented: counted with those still queued, they are those of the history |
| AuditOrder.ChainExactly | internal/api/handlers.go:347-371 | for every schedule, once the creation has emitted its last event, the audit events form the chain from intent to the current status if and only if no update with an event acted on the intent before that |
| AuditOrder.SettlementOvertakes | internal/api/handlers.go:347-355 | an interleaving that ends at rest with the events out of order: a settlement overtakes the last event of an instant creation |
| Gate.ScanFindsEntry | internal/api/handlers.go:663-674 | a history with one challenge has one 3ds_pending event, and the scan finds it |
| Gate.ExpiryCountsFromEntry | internal/api/handlers.go:604-612 | in every run, a pending challenge expires counting from the one entry into 3ds_pending |
| Gate.RunGated | internal/api/handlers.go:306-366 | in every interleaving, each rail authorize or submit is preceded by a fraud allow, or for 3DS by an unexpired window, a resume and a verification, in this order, in a log that `Gate.RunRecordsReplies` shows to be true |
| Gate.RunRecordsReplies | internal/api/handlers.go:306-631 | in every interleaving, each logged answer was given by a rail, the 3DS provider or the fraud service to a request of the run, all of whose earlier answers were yes: no refusal is taken for an approval |
| Gate.ScoredUnless3DS | internal/api/handlers.go:306-317 | in every interleaving an intent has been scored for fraud if and only if it is stored and does not require 3DS |
| Webhooks.WebhookKeyInjective | internal/store/store.go:228-230 | the webhook key determines rail and event id |
| Webhooks.DuplicateIffSeen | internal/store/store.go:185-194 | a delivery counts as duplicate if and only if the same event of the same rail was accepted before |
| Webhooks.RunAllConcat | internal/api/handlers.go:691-752 | running requests in two batches is running them all |
| Webhooks.DuplicatesChangeNothing | internal/api/handlers.go:729-751 | removing every repeated delivery from any request sequence leaves the whole final state the same |
| Webhooks.RedeliveryInvariance | internal/api/handlers.go:729-751 | two sequences that differ in repeated deliveries end alike |
| Webhooks.AgeWithinExactly | internal/api/handlers.go:720-726 | for every clock: which distances between now and the time a timestamp denotes pass, including those that saturate a duration |
| Webhooks.ReplayWindowExactly | internal/api/handlers.go:720-726 | for clocks from 1970 to 2262: which signed timestamps pass the replay window, including those that saturate and those that wrap |
| Redelivery.RepeatsVanish | internal/api/handlers.go:729-751 | in every interleaving, leaving out the requests that turned out to be duplicates changes neither the store nor what other requests still have to do |
| Redelivery.LaterOnesRepeat | internal/store/store.go:185-194 | in every interleaving, of all deliveries of an event only the first to be executed is not a duplicate |
| Isolation.RunsAlike | internal/api/handlers.go:419-911 | the full run and the run of a payment's own actions give that payment the same intent, rows, chargebacks, events and calls |
| Isolation.PaymentsAreIsolated | internal/store/store.go:92-181 | if no two payments share an event key or case reference, a payment's final state is that of the requests naming it |
| Interleaving.RunMirrors | internal/api/handlers.go:419-911 | at every point of every interleaving, the run and the part of its schedule that concerns a payment agree on that payment and on its requests in flight |
| Interleaving.SchedulesAreIsolated | internal/store/store.go:92-181 | the same isolation for every interleaving: the payment ends up with what the schedule of its own requests alone gives it |
| Sequential.SequenceIsInterleaving | internal/store/store.go:92-103 | every sequence of requests is one of the interleavings, ending at rest |
| Sequential.ConservedAfterRequests | internal/api/handlers.go:421-574 | so after every sequence of requests the rails' amounts, the events and settled equal the rows, and captured and refunded do modulo 2^64 |
| Sequential.RequestConserves | internal/api/handlers.go:421-574 | a whole request keeps the difference between a quantity and its rows if and only if it does not wrap its sum |
| Sequential.RequestsConserveExactly | internal/api/handlers.go:421-574 | in a sequence of requests a quantity of an intent equals its rows after each of them if and only if none of them wraps its sum |
| TwoStores.StoresDiffer | internal/store/postgres/postgres.go:118-149 | in-place and transactional UpdateIntent leave different intents if and only if a challenge fails or the rail refunds a settled intent a non-zero amount |
| TwoStores.TxConservesExactlyUnless | internal/store/postgres/postgres.go:124-134 | under Postgres counters follow rows if and only if the request wraps no sum and is no refund of a settled intent by a non-zero amount |
| TwoStores.TxAccountsUnless | internal/store/postgres/postgres.go:124-134 | under Postgres the audit events follow the stored history if and only if the request is not a failed challenge |
| TwoStores.TxExcess | internal/store/postgres/postgres.go:118-149 | one request moves a counter by its row, less the late refund, if and only if it is a late refund or its true sum fits |
| TwoStores.TxRunConservesExactly | internal/store/postgres/postgres.go:118-149 | this holds after each request of the run if and only if no request that is committed wraps its sum |
| TwoStores.TxRunConserves | internal/store/postgres/postgres.go:118-149 | after any run of requests under Postgres in which no sum wraps, captured and settled equal their rows and refunded falls short of its rows by exactly the refunds of settled intents |
| TwoStores.RetryAfterFailure | internal/api/handlers.go:604-638 | after a failed challenge MemStore refuses the next one, Postgres judges it as if nothing had happened |
| Answers.CaptureStatus | internal/api/handlers.go:469-480 | the HTTP status of every capture |
| Answers.VoidStatus | internal/api/handlers.go:504-513 | the HTTP status of every void |
| Answers.RefundStatus | internal/api/handlers.go:575-584 | the HTTP status of every refund, including the 409 for one that the rail carried out |
| Answers.ChallengeStatus | internal/api/handlers.go:639-657 | the HTTP status of every challenge |
| Answers.CreationStatus | internal/api/handlers.go:254-373 | the HTTP status of every creation: 400, 201, 403 or 502 |
| Answers.EndpointLeaves | internal/api/handlers.go:466-468 | what an endpoint leaves in the whole store: the intent, at most one row, the logs, and nothing else |
| Answers.CreationLeaves | internal/api/handlers.go:340-356 | what a creation leaves in the whole store |
| Deliveries.StageNamesParse | internal/domain/chargeback.go:8-22 | each stage has its own name, and no name stands for the opening |
| Deliveries.RefusedExactly | internal/api/handlers.go:694-726 | a delivery for an unknown rail is answered 400, an unsigned or untimely one 401, and exactly these change nothing |
| Deliveries.RepeatedChangesNothing | internal/api/handlers.go:737-741 | a repeated event is acknowledged and changes nothing |
| Deliveries.SettlementDelivered | internal/api/handlers.go:783-819 | a genuine settlement leaves the amount delivered as settled amount and as row, and a break if and only if that is not what was captured; ignored, unknown or not, it is acknowledged and stamped as processed |
| Deliveries.SettleByWebhook | internal/api/handlers.go:691-752 | the same of the service and its store tables |
| Deliveries.UnnamedDelivered | internal/api/handlers.go:757-760 | a delivery that names no payment is only recorded |
| Deliveries.OtherDelivered | internal/api/handlers.go:767-777 | a delivery of another type is noted in the history |
| Deliveries.BadDisputeDelivered | internal/api/handlers.go:825-837 | a dispute of an unknown stage or without a case reference is answered 400 and only recorded |
| Deliveries.NewCaseDelivered | internal/api/handlers.go:847-879 | a new case is filed with the stage, amount and reason delivered; its opening charges the intent back, and is answered 500 on a settled one |
| Deliveries.KnownCaseDelivered | internal/api/handlers.go:881-910 | of a case on file exactly one dispute, the first of its list, moves to the stage delivered, and a reversal decides the intent |
| Store.Payment.AppendEvent | internal/domain/intent.go:115-118 | the record's history grows by the event and nothing else changes |
| Store.Payment.Transition | internal/domain/intent.go:175-187 | the record and the error are those of the transition function |
| Store.MemStore.CreateIntent | internal/store/store.go:53-57 | the record is stored under its id, shared with nothing else |
| Store.MemStore.GetIntent | internal/store/store.go:60-68 | the clone equals the stored intent and shares nothing with it |
| Store.MemStore.UpdateChargeback | internal/store/store.go:170-181 | whatever the map order, the first matching chargeback of some list is restaged, and none is if none matches |
| Store.MemStore.RecordWebhook | internal/store/store.go:185-194 | a known key is reported as duplicate, any other is recorded |
| Store.MemStore.MarkWebhookProcessed | internal/store/store.go:198-206 | only a recorded webhook is stamped |
| Service.ConflictsExactly | internal/api/handlers.go:469-477 | which requests on which intents are answered 409 |
| Service.ProviderTimeoutConflicts | internal/api/handlers.go:614-618 | an on-time challenge for which the 3DS provider times out is answered 409 and fails the intent |
| Service.CreatedExactly | internal/api/handlers.go:306-373 | a creation is answered 201 if and only if it is valid and did not end in failed |
| Service.WebhookUpdatesFailExactly | internal/api/handlers.go:786-904 | of the updates by webhooks only opening a chargeback can fail, exactly on a settled intent, which it leaves unchanged |
| Service.DeliveryFailsExactly | internal/api/handlers.go:872-875 | a delivery is answered 500 if and only if it passes the checks, is no duplicate and opens a new case on a settled intent |
| Service.Orchestrator.CaptureCallback | internal/api/handlers.go:421-465 | the capture callback changes record, audit log and calls as the capture function says, about which `Decisions.CaptureSucceedsExactly` and `Decisions.CaptureMovesAmount` are |
| Service.Orchestrator.VoidCallback | internal/api/handlers.go:490-503 | the same for void |
| Service.Orchestrator.RefundCallback | internal/api/handlers.go:536-571 | the same for refund, including what stays behind on its error paths (`Decisions.RefundSucceedsExactly`, `Decisions.RefundMovesAmount`) |
| Service.Orchestrator.ChallengeCallback | internal/api/handlers.go:604-638 | the same for the challenge (`Decisions.ChallengeAuthorizesExactly`) |
| Service.Orchestrator.SettleCallback | internal/api/handlers.go:786-811 | the same for a settlement (`Decisions.SettleExactly`) |
| Service.Orchestrator.ChargebackCallback | internal/api/handlers.go:860-871 | the same for opening a chargeback |
| Service.Orchestrator.ReverseCallback | internal/api/handlers.go:888-904 | the same for the outcome of a dispute |
| Service.Orchestrator.UpdateIntent | internal/store/store.go:92-103 | the stored record is what the callback left, whether it failed or not, and no other record changes |
| Service.Orchestrator.UpdateIntentTx | internal/store/postgres/postgres.go:118-149 | the table changes only if the callback succeeds |
| Service.Orchestrator.Update | internal/api/handlers.go:466-468 | updating the intent and then appending the row does to the store what the request does in the model, and returns its error |
| Service.Orchestrator.Endpoint | internal/api/handlers.go:419-480 | a payment endpoint does so and answers the status of that error |
| Service.Orchestrator.CreateIntent | internal/api/handlers.go:254-376 | creation does to the store what its request does in the model, on all its branches, and answers their status |
| Service.Orchestrator.Webhook | internal/api/handlers.go:691-752 | a delivery does to the store what its request does in the model, refused, duplicate or processed, and answers the status of that case |
| Service.Orchestrator.Process | internal/api/handlers.go:756-820 | dispatch by type and stage, with the status: 400 for a bad dispute, 500 for a failed update, else 200 |
| Service.Orchestrator.Dispute | internal/api/handlers.go:839-910 | a dispute is filed or restaged and the intent follows, for some visiting order of the map; a failed update is answered 500 |
| Idempotency.RunsAreSpaced | internal/idempotency/idempotency.go:84-104 | over either store, in every interleaving, handler runs of a key start at least ttl apart, and in memory at least ttl after every response stored before |
| IdempotencyTiming.RunTimed | internal/api/handlers.go:199-241 | over Redis with callers in time, every interleaving keeps the timing invariant |
| IdempotencyTiming.LateCallerRunsAgain | internal/idempotency/idempotency.go:149-166 | otherwise a concrete schedule runs a handler twice while the first response is valid |
| IdempotencyTiming.AtMostOnceExactly | internal/idempotency/idempotency.go:134-166 | no second run starts before store time + ttl, in all interleavings, if and only if handling is instant or handling + patience < ttl |
| IdempotencyReplies.LastRunDuring | internal/api/handlers.go:207-235 | until a run's claim and response have expired, no other run of its key starts |
| IdempotencyReplies.RepliesDuringRun | internal/api/handlers.go:207-235 | every reply for the key in that time is the in-flight 409, a store error, or that run's own response (`IdempotencyAnswers.LookupExactly` and `IdempotencyAnswers.ClaimExactly` say which) |
| IdempotencyReplies.OneResponsePerRun | internal/api/handlers.go:228-235 | all responses given in that time have one status and body |
| IdempotencyReplies.OneResponseExactly | internal/api/handlers.go:199-241 | over either store, in all interleavings, all responses given in that time are the same if and only if handling takes less than ttl and, over Redis, the callers are in time |
| IdempotencyAnswers.LiveIsReplayed | internal/api/handlers.go:207-217 | over either store, in every interleaving, a lookup while a stored response lives is answered with exactly that response |
| IdempotencyAnswers.LookupExactly | internal/api/handlers.go:200-217 | what every arriving caller is told, told from the log: unprotected without a key, an error if the lookup fails, the live response if there is one, and nothing yet otherwise |
| IdempotencyAnswers.ClaimExactly | internal/api/handlers.go:218-227 | what a caller is told that goes on to claim: the in-flight 409 if and only if the key is held, an error if and only if something is lost, and otherwise its handler runs |
| IdempotencyAnswers.StoreExactly | internal/api/handlers.go:228-240 | the caller whose handler ran gets its response, stored or not |
| IdempotencyAnswers.RetryIsReplayed | internal/api/handlers.go:199-241 | after any history: an unused key is handled, and a retry within ttl gets the same response again |
| IdempotencyStores.ScopedKeyInjective | internal/api/handlers.go:205 | stored keys of different endpoints or client keys never coincide |
| IdempotencyStores.MemStore.LookupResponse | internal/idempotency/idempotency.go:64-82 | returns the live response and deletes an expired entry, for that key only |
| IdempotencyStores.MemStore.Claim | internal/idempotency/idempotency.go:84-93 | succeeds if and only if the key is free, and then holds it for ttl |
| IdempotencyStores.MemStore.StoreResponse | internal/idempotency/idempotency.go:95-104 | replaces the claim by the response with a fresh ttl |
| IdempotencyStores.RedisStore.KeysApart | internal/idempotency/idempotency.go:131-132 | claim and response keys never collide and each determines the client's key |
| IdempotencyStores.RedisStore.LookupResponse | internal/idempotency/idempotency.go:134-147 | returns the live response |
| IdempotencyStores.RedisStore.Claim | internal/idempotency/idempotency.go:149-155 | SET NX: succeeds if and only if no live claim exists, and touches no response and no other key |
| IdempotencyStores.RedisStore.StoreResponse | internal/idempotency/idempotency.go:157-166 | SET: the response gets a fresh ttl, the claim keeps its own |
| Worker.Conserved | internal/webhook/worker.go:59-101 | in every interleaving: first in first out, each accepted webhook queued, held or finished exactly once and marked once, queue within capacity, gauge off by exactly the updates still to be made |
| Worker.DropsAndExits | internal/webhook/worker.go:59-101 | a webhook is dropped if and only if the queue holds its capacity, and no worker exits before Stop |
| Worker.WorkIsBounded | internal/webhook/worker.go:82-101 | however the workers are scheduled they take a bounded number of steps, and after all of them every accepted webhook is finished |
| Worker.NeverStuck | internal/webhook/worker.go:82-101 | a worker that has not exited can move until everything is drained |
| Worker.IdleExactly | internal/webhook/worker.go:114-128 | when queue and in-flight counter are zero, everything is finished if and only if no worker is between taking and counting |
| Worker.IdleTwoReadings | internal/webhook/worker.go:118-121 | with the queue empty at one reading and the counter zero at a later one, everything taken is finished if and only if no worker is between taking and counting, and then everything accepted by the first reading is |
| Worker.IdleHoldsExactly | internal/webhook/worker.go:112-128 | exactly from which states a call of Idle cannot return, in any continuation without new workers and items, before everything accepted is finished |
| Worker.IdleTooEarly | internal/webhook/worker.go:88-90 | a schedule in which they are zero with a webhook unhandled |
| Worker.StopDrainsExactly | internal/webhook/worker.go:82-107 | whatever the workers then do, Stop leaves everything accepted finished if and only if the queue is empty when it is called |
| Worker.StopLeavesQueue | internal/webhook/worker.go:103-107 | once every worker has exited, exactly the queued webhooks are unfinished |
| Worker.StopLeavesItem | internal/webhook/worker.go:85-107 | a schedule in which every worker has exited and an accepted webhook is still queued |
| Worker.StoppedForGood | internal/webhook/worker.go:82-107 | unless workers are started again, no continuation takes, marks or finishes anything more |
| Worker.NewWorkerTakesAll | internal/webhook/worker.go:71-91 | whatever happened before, a worker started then can take everything that was left |
| Worker.GaugeCatchesUp | internal/webhook/worker.go:59-63 | after the updates that enqueuers still owe, the gauge counts what is queued and what workers have not yet taken off it |
| Migrations.Runner.Up | internal/store/migrations/migrations.go:86-115 | the loop does what the recursive specification says, with any call failing |
| Migrations.Runner.Down | internal/store/migrations/migrations.go:117-141 | the same for the descending loop |
| Migrations.UpRunsMissing | internal/store/migrations/migrations.go:97-113 | Up executes the up scripts of the missing versions in order: all of them on success, the first few on failure, nothing else |
| Migrations.UpTwice | internal/store/migrations/migrations.go:98-106 | a second Up after a successful one executes nothing |
| Migrations.UpKeepsPrefix | internal/store/migrations/migrations.go:86-115 | from any recorded prefix, whatever the schema and whichever call fails, the recorded versions are a prefix at least as long, and the schema has the scripts in between applied, one more if the recording failed |
| Migrations.DownKeepsPrefix | internal/store/migrations/migrations.go:117-141 | the mirror image for Down, with no assumption on the scripts |
| Migrations.AlwaysAPrefix | internal/store/migrations/migrations.go:86-141 | no sequence of Up and Down calls, whatever fails in them, ever leaves the prefixes |
| Migrations.UpKeepsSchema | internal/store/migrations/migrations.go:107-112 | if the schema matched the record, it still does after Up, or is exactly one migration ahead when the recording failed |
| Migrations.DownKeepsSchema | internal/store/migrations/migrations.go:122-139 | the same for Down with inverse scripts, one behind when deleting a record failed |
| Migrations.UpThenDown | internal/store/migrations/migrations.go:86-141 | with inverse scripts, Up followed by Down restores the schema and records nothing |
| Migrations.RetryUp | internal/store/migrations/migrations.go:107-112 | an Up after another, whether or not either succeeds, goes on where the first stopped recording, so an unrecorded script is executed again |
| Migrations.RetryCompletes | internal/store/migrations/migrations.go:107-112 | a successful retry reaches the full schema unless the recording had failed, and then if and only if the scripts from the unrecorded one on lead there from the schema that has it already |
| Migrations.WithoutQueryAllRun | internal/store/migrations/migrations.go:98-136 | a runner without a query executes every script each time, Down in reverse order |
| Migrations.UpCreatesFirst | internal/store/migrations/migrations.go:86-92 | Up begins by creating the table of records, stops at the first call that fails, and its error says which kind of call that was |
| Migrations.UpStops | internal/store/migrations/migrations.go:97-114 | the same from any migration on |
| Migrations.DownStops | internal/store/migrations/migrations.go:117-141 | the same for Down |
| Metrics.Registry.ObserveIntentCreation | internal/metrics/metrics.go:50-57 | the buffer becomes the last 1000 of old samples and new one |
| Metrics.Registry.P99 | internal/metrics/metrics.go:60-75 | zero when empty; otherwise a sample with more than floor(99k/100) samples at or below it and at least k - floor(99k/100) at or above |
| Metrics.Registry.IncTransition | internal/metrics/metrics.go:29-38 | one counter is incremented, starting from zero |
| Metrics.BufferIsRecent | internal/metrics/metrics.go:50-57 | after any run the buffer is the last min(n, 1000) samples in order |
| Metrics.SortedIsPermutation | internal/metrics/metrics.go:66-69 | sorting orders the samples and keeps every count over them |
| Metrics.RankIsUnique | internal/metrics/metrics.go:70-74 | only one value has a given rank, so the counts fix the result of P99 |
| Metrics.CountersCount | internal/metrics/metrics.go:29-38 | each counter is the number of its increments while that fits in an int64 |

## Left out

- HTTP, JSON, routing, logging, health checks and listing: request bodies are decoded records, and marshalling a response and reading it back is the identity.
- HMAC, JWT and mTLS: whether a webhook's signature is valid is an input.
- Rail, 3DS and fraud clients: their answers are inputs; what a successful authorize or submit writes to the intent is modelled, a missing adapter for a rail is not.
- Clocks and ids: the time is an input, one value per action, although the code reads the clock several times; ids are fresh; `CreatedAt`, `UpdatedAt` and record ids are dropped.
- The three branches of creation that report a transition error are unreachable, because a new intent may enter each of the statuses used.
- The legacy idempotency cache without a store, and deleting idempotency keys.
- Postgres beyond commit and rollback of `UpdateIntent`: its `RecordWebhook` does not report duplicates, so the results on duplicate deliveries are about MemStore.
- Data races on the record that creation returns to its caller while the store already shares it.
- The closures that the handlers pass to `UpdateIntent` are an operation value with its inputs, and the lock is the atomicity of an action.
- Audit.AuditChain: is stated for one request after another; `AuditOrder.ChainExactly` says exactly which interleavings keep the order, and `Audit.AuditComplete` that in all of them the events are the right ones.
- The stage of a chargeback is overwritten without any order, so nothing is claimed about its progression.
- Conservation.ConservedModulo: is about all runs, so captured and refunded are claimed modulo 2^64; `Conservation.ConservedExactly` says exactly in which runs they equal their rows throughout.
- Worker.StopLeavesQueue: reads the queue after the workers have exited; `Worker.StopDrainsExactly` reads it when Stop is called.
- Worker.IdleExactly: is about one instant; `Worker.IdleTwoReadings` is about the two that Idle reads at.
- Metrics.Registry.P99: computes the index on integers instead of multiplying by 0.99 in floating point; the Prometheus text is not modelled.
- Migrations: `All`, which reads the embedded files; the runner is given its list of distinct versions. A failing statement is taken to have no effect.
- Worker and the idempotency protocol are state machines over their steps, not objects with threads.
- The instant at which a key expires: Redis keeps a key at that instant, the model does not, a difference of one tick at the boundary.
- Kafka sink, configuration, tracing and process wiring.
