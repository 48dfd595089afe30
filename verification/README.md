# Payment lifecycle and double-entry ledger

A Dafny 4.11 model of a multi-tenant payment service. Each consumer has its own database holding
payments, an append-only event table, an append-only journal, a chart of accounts and provider
credentials. Payments are started by four initiators (M-PESA STK push, B2C and B2B through Daraja,
and Paystack charges) and settled by three independent parties: a queue worker that handles STK
callbacks and is retried on error, Paystack webhooks, and one sequential reconciler that asks Daraja
about old pending payments. Redis holds the short-lived map from a checkout id to a payment.

`dafny verify dfyconfig.toml` checks the whole project.

## How the model is built

Every call to a database, to Redis or to a provider is one step, and every step may fail.

| file | contents |
|---|---|
| `Base`, `Money`, `Phones`, `Domain` | int64 arithmetic, decimal text, the two phone normalisers, rows and requests |
| `Ledger`, `Balances` | the journal templates, the wrapping balance check, sums over journal rows, the `account_balances` grouping |
| `Redis`, `Routing`, `Tables`, `Steps` | expiring values, routing values, one database as a value with its constraints, and each activity cut at its calls |
| `Machine` | the running service: all databases, Redis, the clock, any number of interleaved requests, tasks and deliveries, and the reconciler; a run is a list of moves |
| `Invariants` | a rely/guarantee proof that every move of every agent keeps one invariant |
| `LedgerTheorems`, `Lifecycle`, `Provenance`, `Requests`, `Inquiries`, `Signatures`, `SoleReconciler`, `Completeness`, `Duplicates`, `Counterexamples` | the theorems about all reachable states and all runs |
| `Schedules` | activities run without interruption, and the proof that they are schedules of the machine |
| `Store`, `PaymentServices`, `Workers`, `Reconciliation`, `Tokens`, `Onboarding` | the imperative code as classes and loops, each method proved against the step functions |

The machine keeps a history beside each database that nothing in the service reads: who inserted each
payment, the provider calls, the checkout ids issued, the status queries answered, the successful
"completed" updates and the committed journal writes. Most
theorems relate the tables to this history. The central invariant is that the journal is exactly the
book of the committed postings.

Two layers describe the same behaviour. The classes are the code, statement by statement. The step
functions are its calls, one at a time. Each method's contract equates its effect with the step
functions run to the end, and `Schedules` shows that this uninterrupted run is one of the
interleavings the theorems quantify over.

Assumptions: a call that reports an error has changed nothing, and a handler is not killed between
two calls. Consumer ids are non-empty and contain no colon, client ids contain no colon (both are
generated or configured identifiers), and a request carries the id of the consumer whose database it
runs on. Requests for money that fail are still counted as provider calls.

## What the code does not guarantee

The model follows the code where it differs from its documentation or from what one would expect. The
members named below prove each point; `Counterexamples` holds the concrete runs.

- Settlement has no status guard, and nothing recognises a callback that was already handled, so two
  deliveries of one callback journal a payment twice (`TwoDeliveriesPostTwice`; `JournalledTwice`
  reaches such a state). Exactly-once holds in a database that only the reconciler completes payments
  in (`SoleReconcilerIsExactlyOnce`), and a single call keeps it exactly when `completed_at` was not set
  before (`ExactlyOnceIff`).
- "Completed" does not imply "journalled", because journal errors after the row update are dropped
  (`CompletedNotJournalled` reaches such a state). `EveryCompletionIsAccountedFor` gives the exact
  account, `JournalledExactlyWhenNothingDropped` the exact condition, `ProvisionedMeansJournalled` one
  that can be checked beforehand, and `PostableIff` says which missing account makes a write fail.
- The fifty minutes of a cached token start at the cache write, not when the token is issued, so an
  issuer lifetime of fifty minutes is not enough as soon as any time passes in between (`StaleRunIs`);
  `LiveIffLifetimeCoversTheDelay` gives the lifetime that is.
- The balance check accumulates in int64 and accepts sums that differ by a multiple of 2^64
  (`VerifyBalanceFooled`); below that bound it is exact (`VerifyBalanceExact`).
- The strict phone parser refuses its own output for numbers entered as 01... or +2541...
  (`StrictReaccepts`, `StrictRefusesOwnOutput`).
- A journalled payment need not stay completed: a failure that arrives later turns it into a failed one
  (`FailureAfterSuccess`, reached in `JournalledButFailed`). `JournalledStaysCompletedIff` gives the
  exact condition.
- Events always claim that the payment came from `pending`, which is true exactly when it did
  (`EventIsTrueIff`; false in `JournalledButFailed`).
- Recording the provider's request id clears the transaction id (`RecordingKeepsTransactionIff`); when
  the reconciler has completed the payment first, that loses it (`TransactionIdLost`).
- A status query for a payment without a recorded request id carries an empty transaction id, and its
  answer is acted on all the same, so a payment can be completed that no provider was called for
  (`CompletedWithoutACall`). `InquiriesNameTheirPayment` says which queries name their payment.
- The Paystack webhook does not look at the payment's provider (`DeliveryIgnoresProvider`, reached in
  `WebhookCompletesMpesaPayment`).
- An operator client that already exists is never re-seeded, however many of its accounts are missing
  (`EnsureOperatorClient`).
- Reconciliation asks Daraja about Paystack payments too, because the list is not filtered by provider
  (`InquiryIsMpesaIff`, reached in `DarajaAskedAboutPaystack`).
- `docs/prd.md` line 88 gives the routing value as client and payment; the code writes consumer, client
  and payment (`RouteRoundTrip`). `docs/trd.md` lines 658-678 describe a VAT split of inbound payments; the code posts
  the gross amount to `revenue.sales` (`WriteInboundEntries`).

## Model

| member | source | states |
|---|---|---|
| Money.WrapEqual | internal/domain/journal.go:70-79 | two wrapped int64 totals are equal exactly when the true totals are congruent modulo 2^64 |
| Money.DecimalRoundTrip | internal/service/payment_service.go:286-297 | the printed shilling amount parses back to the same number, for every number |
| Money.ItoaRoundTrip | internal/service/paystack_service.go:266 | the printed transaction id reads back as the same number, with its sign |
| Money.DecimalReads | internal/service/payment_service.go:297 | three concrete numbers as they are printed: base ten, most significant digit first |
| Domain.BillIsExact | internal/service/payment_service.go:286-297 | for every accepted request, the amount the provider reads out of it is exactly the recorded amount in cents; Paystack alone is asked in cents |
| Domain.ShillingsExactIff | internal/service/payment_service.go:49-51 | the shillings text stands for the recorded amount if and only if the whole-shilling guard passes |
| Domain.SettledColumns | internal/db/queries/payments.sql:20-30 | column by column: a completion writes status, completion time, receipt and transaction id, NULL for empty ones; a failure writes the status alone |
| Phones.NormalizePhone | internal/daraja/webhook.go:9-23 | the rune loop keeps exactly the digits, in order, and replaces one leading zero by 254 |
| Phones.ParsersAgree | internal/domain/payment.go:79-90 | on every string the strict parser accepts, both parsers give the same 12-character result starting 254 |
| Phones.StrictAcceptsIff | internal/domain/payment.go:79-90 | the strict parser accepts exactly 0, +254 or 254 before a nine-digit subscriber number (the bare 254 only before a 7), and returns 254 before it |
| Phones.PermissiveIdempotent | internal/daraja/webhook.go:9-23 | normalising twice is normalising once, on every string |
| Phones.StrictReaccepts | internal/domain/payment.go:34-90 | the strict parser accepts its own output, unchanged, exactly when the operator digit is 7 |
| Phones.StrictRefusesOwnOutput | internal/domain/payment.go:34-90 | a concrete number that is accepted once and refused the second time |
| Ledger.VerifyBalance | internal/domain/journal.go:69-83 | the two-accumulator loop accepts exactly when the true debit and credit sums agree modulo 2^64; unknown entry types count on neither side |
| Ledger.SideSumAdds | internal/domain/journal.go:70-78 | the sums in question: an entry counts its amount on its own side only, and lists add up |
| Ledger.VerifyBalanceExact | internal/domain/journal.go:69-83 | for positive amounts with both sums below 2^64, acceptance is equality of the true sums |
| Ledger.VerifyBalanceFooled | internal/domain/journal.go:69-83 | three positive debits with no credit that the check accepts |
| Ledger.BookBalances | internal/service/journal_service.go:30-82 | any journal made of postings has equal debit and credit totals for every client |
| Ledger.BookConserves | internal/service/journal_service.go:30-82 | each account's net is the posted inbound or outbound volume it stands for; every other account nets to zero |
| Ledger.BookPerPayment | internal/service/journal_service.go:30-82 | a payment's rows are exactly as many copies of its two-row template as it has postings |
| Ledger.TemplateIsPair | internal/service/journal_service.go:30-82 | the two rows of a payment, column by column: client, payment, amount, currency, accounts, sides and texts |
| Ledger.KindNames | internal/db/migrations/consumer/003_payments.sql:4 | the names of the payment kinds as they appear in journal texts |
| Ledger.VolumeByKind | internal/service/payment_service.go:246-257 | what came in is what came by STK push and Paystack charge, what went out is what went by B2C and B2B |
| Ledger.TotalOfMultiset | internal/db/migrations/consumer/005_journal.sql:26-34 | the view's sums do not depend on the order of the journal rows |
| Balances.GroupIsFilteredSums | internal/db/migrations/consumer/005_journal.sql:26-34 | the one-pass grouping has a row for a client and account exactly when entries exist, holding the filtered debit and credit sums and their difference |
| Balances.GroupKeysDistinct | internal/db/migrations/consumer/005_journal.sql:33-34 | no client and account pair is reported twice |
| Balances.TrialBalanceTotals | internal/db/migrations/consumer/005_journal.sql:26-34 | a client's rows add up to its whole-journal totals and net is debits minus credits |
| Balances.OtherClientsRows | internal/db/migrations/consumer/005_journal.sql:26-34 | rows of other clients change no reported balance of this client |
| Routing.RouteRoundTrip | internal/service/payment_service.go:318-319 | the routing value splits back into its three parts if and only if consumer and client ids contain no colon; the payment id may be anything |
| Routing.TwoColonsIff | internal/queue/worker.go:88-91 | a value splits into three parts exactly when it has two colons |
| Machine.EffectIsExec | internal/service/tenant_completer.go:31-63 | every move changes at most one consumer's database, by exactly the step of the agent that moves |
| Invariants.SettleStepKeeps | internal/service/payment_service.go:621-677 | one call of a settlement, by anyone in any sound state, keeps the database invariant and stays within that agent's guarantee; a refusal changes nothing |
| Invariants.InitStepKeeps | internal/service/payment_service.go:219-337 | one call of an initiation keeps the database invariant, including one provider call per payment and its exact amount |
| Invariants.ThreadStable | internal/service/payment_service.go:621-656 | what a request, task or delivery knows about its payment survives every call by anyone else |
| Invariants.EffectGuarantee | internal/db/queries/payments.sql:1-35 | whatever a move does to a database only grows it: immutable columns, settled statuses, completion times, events and journal rows are never taken back |
| Invariants.ExecKeeps | internal/service/payment_service.go:219-337 | every move of every agent keeps the global invariant, whatever call fails |
| Invariants.ReachableInv | internal/service/payment_service.go:219-677 | every state of every run from empty databases satisfies the invariant |
| LedgerTheorems.TrialBalanceIsExact | internal/service/journal_service.go:30-113 | in every reachable state each client's trial balance has equal debit and credit totals and nets to zero |
| LedgerTheorems.PaymentRowsAreTemplates | internal/service/payment_service.go:639-652 | in every reachable state a payment's journal rows are exactly k copies of its template, k being its committed bulk writes and never more than its completion writes |
| LedgerTheorems.KindDecides | internal/service/payment_service.go:246-257 | in every reachable state a payment is outbound exactly when it is B2C or B2B, and Paystack's exactly when it is a Paystack charge |
| LedgerTheorems.JournalRowsCarryTheirPayment | internal/service/journal_service.go:30-82 | in every reachable state each journal row belongs to a stored payment and carries its client, amount and currency; account, side and text follow from the payment's kind |
| LedgerTheorems.MoneyIsConserved | internal/service/journal_service.go:30-82 | till, sales and operations balances equal the journalled inbound and outbound money, by direction and by kind; no other account has a row |
| LedgerTheorems.JournalledImpliesCompleted | internal/service/payment_service.go:621-656 | in every reachable state each journal row, each committed posting and each completed event belongs to a stored payment with completed_at set, which is set exactly for payments that were written as completed |
| LedgerTheorems.SettlingIsIsolated | internal/service/payment_service.go:641-652 | no call of a settlement changes any balance row of another client |
| LedgerTheorems.OtherConsumersUntouched | internal/service/tenant_completer.go:31-63 | a move for one consumer leaves every other consumer's database and history as they were, whatever is in progress there |
| LedgerTheorems.OtherConsumersRun | internal/service/tenant_completer.go:31-63 | the same over whole runs, for a consumer that no move of the run is for |
| LedgerTheorems.SeededClientsPost | internal/db/migrations/consumer/005_journal.sql:10-15 | with the default accounts in place, the bulk write of any stored payment breaks no constraint and appends exactly its two rows |
| Tables.PostableIff | internal/db/migrations/consumer/005_journal.sql:10-15 | a payment's journal write is accepted exactly when the payment is stored with a positive amount and the till and the one account of its direction exist |
| Lifecycle.OneCallPerKey | internal/service/payment_service.go:229-308 | at most one payment and one provider call per client and idempotency key across all interleavings, even when a lookup fails, and each call bills the recorded amount |
| Lifecycle.OnlyThreeStatuses | internal/db/queries/payments.sql:1-35 | only pending, completed and failed are ever reached, and a pending payment has no completion time |
| Lifecycle.RunGrows | internal/db/queries/payments.sql:15-35 | over any run, immutable columns never change, nothing returns to pending, completed_at is never cleared, events, journal and accounts only grow |
| Lifecycle.SeededForever | internal/service/client_service.go:146-162 | once a client is fully seeded, every payment it has then or gets later can be journalled in every later state |
| Lifecycle.PendingNeverRises | internal/db/queries/payments.sql:20-30 | with no new initiation the set of pending payments only shrinks, over any run |
| Lifecycle.SettlingDrains | internal/db/queries/payments.sql:20-30 | a successful settlement of a pending row takes exactly that payment out of the pending set |
| Provenance.TaskCompletesAtMostOnce | internal/queue/worker.go:68-118 | one queued task or delivery causes at most one completion write and at most one journal pair over all databases together, however often it is retried |
| Provenance.RefusedTaskChangesNothing | internal/queue/worker.go:82-108 | a task that goes back to the queue has changed no database and no route |
| Provenance.RoutesAreSound | internal/service/payment_service.go:318-324 | every routing entry names an inbound STK payment of the printed client in the printed consumer's database, and that payment was issued this checkout id |
| Provenance.CallbacksSettleTheirOwnPayment | internal/queue/worker.go:79-110 | a callback about to settle, as success or failure, targets the payment its checkout id was issued for |
| Requests.RequestIdsAreOwn | internal/service/payment_service.go:310-316 | a stored request id is never empty, its payment's provider was called, and for an STK payment it is the checkout id issued to it |
| Inquiries.InquiriesNameTheirPayment | internal/service/reconciliation_service.go:159-168 | a status query carries the request id its row had when listed, which the provider gave to that payment, or, if it had none, an empty transaction id that names no payment |
| Inquiries.InquiriesAreLate | internal/service/reconciliation_service.go:85-86 | in every reachable state only payments older than two minutes have been asked about |
| Inquiries.CompletionsAreJustified | internal/service/reconciliation_service.go:164-191 | every completion has its reason: a Daraja answer with code 0 or status completed to the query made for this payment, pending when listed, which names it exactly when a request id was recorded by then; a successful STK callback issued to it; or a Paystack success with exactly the recorded amount; with distinct checkout ids no other payment fits the callback |
| Counterexamples.CompletedWithoutACall | internal/service/reconciliation_service.go:159-191 | from empty databases: a payment completed on the answer to a query without a transaction id, although no provider was ever called for it |
| Inquiries.InquiryIsMpesaIff | internal/db/queries/payments.sql:43-46 | an answered query is about an M-PESA payment exactly when its row is not a Paystack charge |
| Counterexamples.DarajaAskedAboutPaystack | internal/db/queries/payments.sql:43-46 | from empty databases: Daraja is asked about a Paystack charge |
| Signatures.PaystackCompletionsWereSigned | internal/service/paystack_service.go:241-268 | every completion by a Paystack delivery: at some moment of the run the delivery carried this payment's amount and was signed with the secret its client then had active |
| Signatures.DeliveryIgnoresProvider | internal/service/paystack_service.go:242-275 | the payment's own provider and kind play no part in what a delivery does |
| Signatures.CompletesPaystackIff | internal/service/paystack_service.go:242-275 | so a completed payment is a Paystack one exactly when it was started as a Paystack charge |
| Counterexamples.WebhookCompletesMpesaPayment | internal/service/paystack_service.go:242-268 | from empty databases: a Paystack delivery completes an M-PESA payment |
| SoleReconciler.SoleReconcilerIsExactlyOnce | internal/service/reconciliation_service.go:85-109 | in any run, a database in which every completion so far is the reconciler's has each payment completed at most once and journalled at most once, over any number of cycles and with anything else arriving and failing |
| SoleReconciler.WithoutSuccessesOnlyTheReconciler | internal/queue/worker.go:98-108 | as long as no success callback and no charge.success delivery has arrived, that premise holds; failing and ignored ones may |
| SoleReconciler.TwoCompletionsPostTwice | internal/db/queries/payments.sql:20-25 | for every payment that can be posted, two faultless settlements add exactly two completions and exactly two journal pairs |
| Duplicates.TwoDeliveriesPostTwice | internal/queue/worker.go:68-118 | in every reachable state, for a success callback with a live route to a payment whose template the constraints accept: delivering it twice leads to a reachable state with that payment's two rows journalled twice more |
| Duplicates.FailureAfterSuccess | internal/queue/worker.go:98-110 | likewise, a failure callback after the success leaves the payment failed with its journal rows in place, and a second event that claims it was pending |
| Counterexamples.JournalledTwice | internal/queue/worker.go:98-103 | from empty databases: one payment with two postings, two completions or more, and four journal rows |
| Counterexamples.JournalledButFailed | internal/queue/worker.go:98-110 | from empty databases: a journalled payment that reads failed, both of its events claiming that it was pending |
| Lifecycle.StatusIsLastWritten | internal/db/queries/payments.sql:20-30 | over any run a payment's status is that of the last settlement written on it |
| Lifecycle.JournalledStaysCompletedIff | internal/db/queries/payments.sql:20-30 | a journalled payment reads completed exactly when no failure was written on it after its last completion, and failed otherwise |
| Duplicates.EventIsTrueIff | internal/service/payment_service.go:630-634 | a settlement's event names the status the payment had exactly when that was pending |
| Duplicates.RecordingKeepsTransactionIff | internal/db/queries/payments.sql:32-35 | recording the request id keeps the transaction id exactly when there is none |
| Counterexamples.TransactionIdLost | internal/service/payment_service.go:310-313 | from empty databases: the reconciler completes a payment with its transaction id before the initiator records the request id, and the transaction id is gone |
| SoleReconciler.ExactlyOnceIff | internal/db/queries/payments.sql:20-25 | a completion leaves its payment completed exactly once if and only if completed_at was not set before the call, and then journalled exactly once |
| Completeness.SettleAccounts | internal/service/payment_service.go:621-656 | a settlement call opens what it completes, closes what it posts, and passes on or drops the rest |
| Completeness.EveryCompletionIsAccountedFor | internal/service/payment_service.go:630-649 | over every run, an agent's completions of a payment are its journalled ones, plus the one in flight, plus those whose journal write was refused |
| Completeness.JournalledExactlyWhenNothingDropped | internal/service/payment_service.go:639-652 | once nobody is mid-settlement, journal pairs and completion writes agree one for one if and only if no journal write was refused |
| Completeness.CompletedThenJournalled | internal/service/payment_service.go:639-652 | then each payment has exactly one template copy per completion, and is completed exactly when it has journal rows |
| Completeness.ProvisionedMeansJournalled | internal/service/client_service.go:146-162 | if every client has its default accounts when a payment of its is completed and no journal write meets a fault, then at rest every payment has one template copy per completion and is completed exactly when journalled |
| Counterexamples.CompletedNotJournalled | internal/service/payment_service.go:639-652 | a reachable state, nobody mid-settlement, with a completed payment that has no journal row |
| Schedules.FinishIs | internal/service/payment_service.go:621-677 | a whole settlement, call by call: a refused row update changes nothing, otherwise the row is settled and the event and journal rows are added exactly when their own calls succeed |
| Schedules.SettlementIs | internal/service/payment_service.go:621-677 | a whole settlement column by column, for every combination of call outcomes: row, event and journal pair as the code writes them, everything else untouched |
| Schedules.InitiationIs | internal/service/payment_service.go:219-337 | a whole initiation from the outside: nothing unless its payment is inserted; then one row with the request's columns, at most one call for the exact amount, at most one route, and the status the call's outcome gives |
| Schedules.FailureIgnoresJournal | internal/service/payment_service.go:659-677 | a failure never depends on the journal |
| Schedules.FinishIsSchedule | internal/service/payment_service.go:621-656 | an uninterrupted settlement of a task is a schedule of that task's own moves |
| Schedules.CallbackIsSchedule | internal/queue/worker.go:68-118 | so is the handling of a queued callback from its routing lookup on |
| Schedules.DeliveryIsSchedule | internal/service/paystack_service.go:232-280 | so is the handling of an authentic Paystack delivery from its arrival on |
| Schedules.AbortIs | internal/service/payment_service.go:262-308 | the error path of an initiation is one unguarded failure update without an event, whose own error is dropped |
| Schedules.SoloIsSchedule | internal/service/payment_service.go:219-337 | an uninterrupted initiation is a schedule of the machine |
| Store.ConsumerDb.GetPaymentByIdempotencyKey | internal/db/queries/payments.sql:12-13 | a row is found exactly when one with this client and key is stored, and it is such a row |
| Store.ConsumerDb.CreatePayment | internal/db/migrations/consumer/003_payments.sql:7-31 | inserts exactly when primary key, unique key, client reference and amount check allow it, else changes nothing |
| Store.ConsumerDb.CompletePayment | internal/db/queries/payments.sql:20-25 | the unguarded completion update: status, completion time, receipt and transaction id each in its own column, nothing else |
| Store.ConsumerDb.FailPayment | internal/db/queries/payments.sql:27-30 | the unguarded failure update: whole new state |
| Store.ConsumerDb.UpdateProviderRequestID | internal/db/queries/payments.sql:32-35 | sets the request id and clears the transaction id, nothing else |
| Store.ConsumerDb.CreatePaymentEvent | internal/db/queries/payments.sql:48-51 | appends exactly the given event when its payment exists |
| Store.ConsumerDb.CreateJournalEntryBulk | internal/repository/journal_repo.go:50-74 | the insert loop is all or nothing, wherever begin, an insert, a constraint or the commit fails |
| Store.ConsumerDb.ListPendingPaymentsOlderThan | internal/db/queries/payments.sql:43-46 | returns every old pending row exactly once, oldest first |
| Store.WriteBalancedEntries | internal/service/journal_service.go:85-114 | writes the given rows all or not at all; succeeds exactly when the check on the converted copy, the transaction and the constraints all pass |
| Store.PostedListsBalance | internal/service/journal_service.go:85-114 | any list that passes the check and the constraints, with sums below 2^64, balances exactly |
| Store.WriteInboundEntries | internal/service/journal_service.go:30-54 | appends the till debit and the sales credit with the payment's client, amount and currency, or nothing; succeeds exactly when transaction and constraints allow |
| Store.WriteOutboundEntries | internal/service/journal_service.go:58-82 | appends the operations debit and the till credit with the payment's client, amount and currency, or nothing; succeeds exactly when transaction and constraints allow |
| PaymentServices.CompletePayment | internal/service/payment_service.go:621-656 | stores the receipt as the receipt and the transaction id as the transaction id, adds the event and the journal pair exactly when their calls succeed, and equals the step functions run to the end |
| PaymentServices.WriteEntries | internal/service/payment_service.go:640-652 | posts the pair of the payment's direction, column by column, or nothing when the transaction or a constraint fails |
| PaymentServices.FailPayment | internal/service/payment_service.go:659-677 | writes the status and an event with the reason, nothing else, and equals the step functions run to the end |
| PaymentServices.Validate | internal/service/payment_service.go:40-160 | accepts exactly the requests with every field their kind requires and, for M-PESA, whole shillings |
| PaymentServices.PaymentService.Admit | internal/service/payment_service.go:229-260 | lookup and insert: a replay reports a stored payment of this key and changes nothing; otherwise the initiation goes on only after its own insert |
| PaymentServices.PaymentService.OpenCredentials | internal/service/payment_service.go:262-284 | succeeds exactly when the credentials load and every secret the call needs decrypts |
| PaymentServices.PaymentService.CallDaraja | internal/service/payment_service.go:262-337 | from the credentials on, the effect is that of the step functions; a call is counted whether or not it is answered |
| PaymentServices.PaymentService.RecordRequest | internal/service/payment_service.go:310-324 | request id and routing entry are written as the steps say, each error dropped |
| PaymentServices.PaymentService.GiveUp | internal/service/payment_service.go:263-266 | the abort path: exactly the failure update of the steps |
| PaymentServices.PaymentService.InitiateDaraja | internal/service/payment_service.go:219-604 | the stored columns, provider call, route and final status of every outcome, stated outright; equal to the uninterrupted initiation; replay and start conditions are exact |
| PaymentServices.PaymentService.InitiateCharge | internal/service/paystack_service.go:151-227 | the same for a Paystack charge, billed in unconverted subunits |
| PaymentServices.PaymentService.CallPaystack | internal/service/paystack_service.go:186-227 | from the credentials on, the effect is that of the step functions |
| Workers.ExtractMpesaReceipt | internal/queue/worker.go:143-152 | the first item of that name with a text value, or the empty string when there is none |
| Workers.SettleIn | internal/service/tenant_completer.go:48-63 | completion or failure on one database, equal to the step functions run to the end |
| Workers.SettleOn | internal/service/tenant_completer.go:48-63 | settles on the named consumer's database only; an unknown consumer is refused and nothing changes |
| Workers.DestinationIs | internal/queue/worker.go:79-96 | a live entry whose text is consumer, client and payment routes to that consumer and payment; the task's consumer fills in for an empty one |
| Workers.NoDestinationIff | internal/queue/worker.go:82-91 | a callback is routed exactly when it is well formed and has a live entry with two colons |
| Workers.HandleSTKWebhook | internal/queue/worker.go:68-118 | a handled success completes the routed payment with the receipt and the checkout id as its transaction id, a handled failure fails it with the callback's text in the event; every error leaves all databases as they were |
| Workers.RefusedChangesNothing | internal/queue/worker.go:98-108 | a settlement that reports an error has changed nothing, because nothing after the row update is refused |
| Workers.HandlePaystackWebhook | internal/service/paystack_service.go:232-280 | acts only on a stored payment with an authentic signature: success with the recorded amount completes it, failure fails it with the delivery's status in the event, another event changes nothing, all else is an error without change |
| Reconciliation.ReconcilePayment | internal/service/reconciliation_service.go:114-215 | when credentials, query and row update succeed the payment is completed exactly when the answer has code 0 or status completed, with its receipt and conversation id, and failed with the code in the event otherwise; else nothing changes |
| Reconciliation.OpenCredentials | internal/service/reconciliation_service.go:122-153 | succeeds exactly when the credentials load and every secret of the query decrypts |
| Reconciliation.SweptStep | internal/service/reconciliation_service.go:101-109 | settling one more payment of a snapshot extends the pointwise result by exactly that payment |
| Reconciliation.SweptEndsRight | internal/service/reconciliation_service.go:101-109 | after a cycle a listed payment whose query was answered is completed or failed by its own answer, column by column; every other payment is as it was |
| Reconciliation.ReconcileConsumer | internal/service/reconciliation_service.go:78-111 | the loop is a pointwise map over the snapshot: listed payments are settled by their own answers, all others are untouched, journal and events gain exactly the matching rows |
| Reconciliation.ReconcileOne | internal/service/reconciliation_service.go:64-73 | one turn of the loop over consumers changes only that consumer's database |
| Reconciliation.RunOnce | internal/service/reconciliation_service.go:57-86 | every consumer gets that pointwise result for its own reading of the clock, in whatever order they are visited and whichever of them fail |
| Reconciliation.OrderDoesNotMatter | internal/service/reconciliation_service.go:57-111 | two cycles over the same snapshot with the same answers end with equal payments, journal and events as multisets, and account balances |
| Reconciliation.ReconcilePaymentIsSchedule | internal/service/reconciliation_service.go:114-215 | reconciling the next payment without interruption is a schedule of the machine's reconciler |
| Reconciliation.ConsumerIsSchedule | internal/service/reconciliation_service.go:78-111 | one consumer's whole turn, list and loop, is a schedule of the machine's reconciler and ends in the pointwise result |
| Tokens.TokenCache.GetOrFetchToken | internal/daraja/auth.go:68-88 | a live cached token is returned; otherwise an issued one is cached for 3000 seconds and returned; any failure returns none and caches nothing |
| Tokens.LookupIsRun | internal/daraja/auth.go:68-88 | such an uninterrupted lookup is one of the interleaved runs |
| Tokens.CacheKeyInjective | internal/daraja/client.go:41-43 | different consumer keys never share a cache entry |
| Tokens.TokensAreFreshAndOwn | internal/daraja/auth.go:13-88 | over any timed run of interleaved lookups, every token handed out was issued to that same consumer key, and its age is below fifty minutes plus the time from its issue to its cache write |
| Tokens.LiveIffLifetimeCoversTheDelay | internal/daraja/auth.go:76-83 | every token of every run is live when handed out if and only if the issuer lifetime is at least fifty minutes plus the longest issue-to-write delay |
| Tokens.StaleRunIs | internal/daraja/auth.go:76-83 | a run that hands out a token of age fifty minutes minus a second plus the delay |
| Onboarding.ClientService.SeedAccounts | internal/service/client_service.go:146-162 | the loop adds exactly the accounts whose inserts succeed |
| Onboarding.ClientService.Enrol | internal/service/client_service.go:95-162 | client row, encrypted credentials and accounts end exactly as the individual calls decide, wherever one fails |
| Onboarding.ClientService.RegisterClient | internal/service/client_service.go:66-169 | succeeds exactly when every check, encryption and statement does; each stored secret decrypts to the field it was given as; the client is seeded exactly when no account insert failed |
| Onboarding.ClientService.EnsureOperatorClient | internal/service/client_service.go:174-248 | an existing client is returned with nothing changed; a new one gets empty credentials and is seeded exactly when no account insert failed |
| Onboarding.SeededIffAllInserted | internal/service/client_service.go:24-33 | the default accounts are distinct, so one failed insert is one missing account |
| Onboarding.SeededMeans | internal/service/client_service.go:24-33 | the eight accounts of a fully seeded client, by name |

## Left out

- Crashes: a handler killed between two calls, and a call that reports an error after committing, are not modelled.
- HTTP handlers, middleware, JSON decoding, asynq and Redis internals: a decoded callback or delivery with a well-formedness flag stands for them.
- Cryptography: decryption either inverts encryption or fails, a signature is the key it was made with, and bcrypt is not part of this model.
- Row ids and timestamps of events and journal rows, `updated_at`, `reversal_of`, payment metadata and raw provider payloads: nothing in the modelled code reads them.
- Provider request fields that do not carry money or identity: callback URLs, command ids, remarks and the default identifier types of B2B.
- PaymentServices.PaymentService.InitiateDaraja: one method stands for `InitiateSTKPush`, `InitiateB2C` and `InitiateB2B`, whose bodies differ only in the kind-dependent branches written out in it; the optional nil Redis client is a failed route write.
- Store.WriteBalancedEntries: requires a non-empty list, because the code reads the first element after writing.
- Phones.NormalizePhone: the Unicode digit test is a parameter, of which only its treatment of ASCII digits and the plus sign is fixed where a theorem needs it.
- Reconciliation.RunOnce: Daraja's answer is a function of the payment, which is the premise of order independence.
- Tokens.TokenCache.GetOrFetchToken: a fetch counts from the moment the issuer makes the token, so the answer's way back is part of the delay before the cache write; the nil cache is left out.
- Onboarding.ClientService.RegisterClient: client names, account names and types are not stored.
- Credential updates and deactivation appear only as administrator moves that put or drop the active row.
- C2B, B2C and B2B callbacks: their handlers only log.
- Inquiries.CompletionsAreJustified: that Daraja issues each checkout id once is a hypothesis of its last clause, not a theorem.
- List endpoints and pagination, environment parsing and credential checks.
