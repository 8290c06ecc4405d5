# The purchase lifecycle of streamingbot, verified

A buyer starts a purchase, pays with Telegram stars, receives a link with a one-time token, and redeems
the token. Four handlers and an outbox worker carry this out over Postgres tables and a Redis cache,
without database transactions: a handler makes several independent calls, may stop after any of them,
and writes whole purchase rows back from copies it read earlier. This project models the tables with the
constraints the schema declares, the handlers call by call, and the worker's batch loop, and proves which
guarantees survive failing calls, stops, redelivered payments, endless retries and stale writes. It also
models the synchronisation of the catalog with the video library.

## How the model is built

- `Text`, `Domain`, `Tables`: trimming, decimal numbers, JSON strings and the invoice payload; the
  entities and the status machine; the tables as a value, where an operation that would break a PRIMARY
  KEY, UNIQUE or CHECK constraint yields `None`.
- `Protocol`: the interleaved system. Each repository, provider, token, sender or cache call is one step.
  Any number of start, confirm, issue and use runs are in flight, each with its own copies of the rows it
  read. The environment decides for every call whether it is served, refused, or carried out although
  the caller sees an error (`Outcome`), may stop a run between two calls (`Drop`), edits the catalog and
  loses cache entries. A list of labels is an execution; a label that is not enabled does nothing, so a
  statement about all lists is a statement about all executions.
- `Invariants`, `Effects`, `Delivery`: what every execution keeps, and what follows from it. An issue run
  may be spawned for any row of the outbox at any time, published or not, by any number of workers.
- `Orderly`, `OrderlyResults`: the system as `cmd/bot/main.go` deploys it (one outbox worker that takes up
  unpublished events), with at most one confirmation in flight per invoice payload. `StatusMachine`,
  `ChargeRace`: exactly when, without that, statuses and charges behave.
- `Serial`, `Redelivery`, `SerialResults`, `LostPayments`, `Completion`, `OutboxProgress`, `Backlog`,
  `DeadEvents`, `Publishable`: serial execution with faults. Commands are served one after the other, a plan
  decides every call of every handler. `ServeIsOrderly` shows that such executions are orderly ones, so all
  earlier results hold for them; `StopIsRefusal` and `BatchStopIsRefusal` show that plans cover a handler and
  a batch that stop anywhere.
- `Answers`, `IssueAnswers`, `Prices`, `Json`: what each handler answers and leaves behind for every plan of the
  environment, told field by field and with the source's own constants; where a price comes from; and the
  invoice payload read back as JSON.
- `Redemption`, `TokenRace`, `CacheFree`: one-time tokens, exactly when one is accepted twice, and the cache
  that changes nothing.
- `Store`, `Handlers`: the repositories as a class over mutable tables (rows with NULL), and the handlers
  and `RunOnce` statement by statement. Each handler is proved to do to the tables exactly what the step
  machine of `Protocol` does when it is driven alone, so that the theorems are about this code. The
  longer handlers are cut into two or three methods where the source has one.
- `CatalogSync`: the paginated loop, proved against a description of the resulting table that does not
  mention the loop. `CatalogRace`: the same sync call by call, with administrators editing in between.
- `Witnesses`: executions that show where a guarantee ends.

In a few places an ensures clause is written `P(...) == true`. It means the same as `P(...)`, and keeps the
verifier from unfolding a large `P` where the clause is used.

Where the code departs from what the repository's README.md describes, the model follows the code:

- Confirming a payment is not one transaction; a confirmation that stops between its update and its
  publish loses the purchase for good (`LostExactlyWhenCut`, `StrandedForever`).
- Registering an issue failure does not look at the status, so `access_issued -> error` is an edge.
- Issuing access calls the provider before looking at the status.
- Marking a grant used ignores the affected-row count, so redemptions that race are all accepted
  (`TokenAcceptedTwice`); they then overlap in time (`AcceptedOverlap`). Every token is accepted at most once
  if and only if no mark that is answered with success finds `used_at` set (`AcceptedOnceByGuard`). Where
  marks may lose their answer that condition still suffices (`UnusedMarksSuffice`), and `AcceptedOnceExactly`
  has the exact one.
- Redemption accepts the instant `now = ExpiresAt`, at which `IsUsable` says no (`AcceptsUsableOrAtExpiry`).
- A failed send is final: the event can never be published afterwards and the link is never sent again
  (`FailedSendWedges`, `WedgedForever`). Twenty such events stop the worker (`StarvedForever`); fewer only slow
  it down, by exactly as much as `BacklogExactly` says.
- Retry accounting holds exactly when at least one retry is configured (`RetryAccountingExact`).
- The catalog sync reads a row and writes the whole row back, so an administrator's edit between the two is
  lost, and only such an edit (`EditLostExactly`, `DeleteUndoneExactly`).
- Two overlapping confirmations of one invoice can move a purchase from `access_issued` back to `paid`, under
  another charge (`StatusCanRegress`). `MachineHoldsExactly` says when the status machine holds, and
  `ChargesStayExactly` when a paid purchase keeps its charge: always, unless two such confirmations overlap
  (`ChargesStayUnlessOverlap`).
- Issuing access creates a grant before it looks at the status, so an event of a purchase in `error` leaves a
  grant whose link is never sent (`UnhealthyServed`); such an event can never be published (`DeadExactly`).
  `NeverPublishedExactly` says which events never are: the dead ones, and those with 20 dead ones ahead.

## Model

| member | source | states |
|---|---|---|
| Delivery.OneGrantOneSend | internal/app/issue_access/handler.go:88-111 | over a whole history of interleaved runs a purchase gets one grant at most, which keeps all its fields but used_at, and SendAccessLink is called for it once at most; calls made are never forgotten |
| Delivery.IssuedHasGrant | internal/app/issue_access/handler.go:96-108 | every row and every in-flight copy with status access_issued has a grant of the same purchase and user |
| Delivery.OutboxIsPaid | internal/app/confirm_payment/handler.go:54-64 | a purchase named in the outbox is not pending, has a charge id and paid_at; no write, however stale, returns a paid row to pending |
| Delivery.RetryAccounting | internal/domain/purchase/purchase.go:58-65 | with MaxRetries >= 1, every reachable row and in-flight copy is in error exactly when its attempts have reached the limit |
| Witnesses.RetryAccountingExact | internal/domain/purchase/purchase.go:58-65 | retry accounting holds in all reachable states if and only if MaxRetries >= 1 |
| Delivery.InvoiceIdentity | internal/app/start_purchase/handler.go:42-69 | from its creation on, a purchase's payload finds exactly that purchase, and its user, content, payload, creation time and positive price never change |
| Delivery.StrandedForever | internal/app/confirm_payment/handler.go:58-66 | a paid purchase that is not in the outbox and has no confirmation left in flight never changes again, never reaches the outbox and never gets a grant |
| Delivery.WedgedForever | internal/app/issue_access/handler.go:96-98 | an unpublished event whose purchase has a grant from a run that is gone is never published, in any continuation |
| Invariants.ExecKeeps | internal/adapters/storage/postgres/schema.go:27-80 | every execution from tables in order ends in tables in order, and undoes no row, grant, event, payment, key, publication or send |
| Invariants.RunOkKept | internal/adapters/storage/postgres/purchase_repo.go:42-60 | what a run relies on about its own copies survives every step of every other run |
| Invariants.UpdatePurchaseKeeps | internal/adapters/storage/postgres/purchase_repo.go:42-60 | a whole-row write of a non-pending copy, stale or not, keeps the unique columns and every fact about the tables |
| Invariants.ClaimAdvances | internal/app/issue_access/handler.go:96-111 | the right to send a purchase's link arises only while it has no grant, and is gone after the one send |
| Effects.StepEffect | internal/app/confirm_payment/handler.go:58-68 | which table each kind of call can change and how: at most one row inserted or replaced, one event appended or flagged, one grant added or marked, one send |
| OrderlyResults.StatusOnlyMovesForward | internal/domain/purchase/purchase.go:29-65 | with one worker and one confirmation per payload, statuses only move up the machine, attempts never fall, charge and payment time stay once set, and the rank bounds the number of changes |
| OrderlyResults.AtMostThreeStatusChanges | internal/domain/purchase/purchase.go:29-65 | an execution changes the status of a purchase three times at most |
| OrderlyResults.SendsOnlyWhenIssued | internal/app/issue_access/handler.go:103-111 | a run about to send holds exactly the stored row, and that row is access_issued, never error |
| OrderlyResults.DurablePrefix | internal/app/confirm_payment/handler.go:58-68 | a processed charge implies the purchase holding it, its log entry and its outbox event; an outbox event implies the log entry; a log entry implies the paid row |
| OrderlyResults.ConfirmedOnce | internal/app/confirm_payment/handler.go:37-68 | under any redelivery a purchase has one outbox event at most, charge and payment time are fixed once set, and a charge belongs to one purchase over the whole history |
| OrderlyResults.PublishedMeansDelivered | internal/jobs/outbox_processor.go:32-36 | a published event means status access_issued, a grant and a delivered link, then and in every continuation |
| OrderlyResults.AttemptsCountFailures | internal/app/issue_access/handler.go:64-73 | a row's attempts are the provider failures whose update was stored, and with MaxRetries >= 1 they decide the status error |
| OrderlyResults.LostExactlyWhenCut | internal/app/confirm_payment/handler.go:58-66 | a purchase is paid without outbox event and without a confirmation left exactly when some confirm run for it stopped after its update took effect and before its publish did |
| Orderly.StepOrderly | cmd/bot/main.go:164-169 | one label allowed by the deployment keeps the whole stronger invariant, and moves every row along the machine |
| StatusMachine.MachineHoldsExactly | internal/adapters/storage/postgres/purchase_repo.go:42-60 | with any runs in flight, all statuses move along the machine's edges throughout if and only if no row is ever written with a status that it has passed already |
| StatusMachine.OrderlyNeverStale | cmd/bot/main.go:164-169 | with one worker and one confirmation per payload no copy is ever overtaken |
| StatusMachine.OvertakenSinceLoad | internal/adapters/storage/postgres/purchase_repo.go:42-60 | a copy is overtaken only because somebody else changed the row's status after this run loaded it |
| StatusMachine.WritesWhatItLoaded | internal/app/issue_access/handler.go:51-106 | a run that is not stopped writes a row derived from the one it loaded, whatever others did meanwhile |
| ChargeRace.ChargesStayExactly | internal/adapters/storage/postgres/purchase_repo.go:42-60 | with any runs in flight, every paid row keeps its charge and payment time throughout if and only if no write that the table accepts hits a paid row from a copy with another charge or payment time |
| ChargeRace.OneConfirmationEnough | internal/app/confirm_payment/handler.go:45-60 | with any number of issue workers, as long as no two confirmations of one payload overlap, no such write ever happens |
| ChargeRace.ChargesStayUnlessOverlap | internal/app/confirm_payment/handler.go:45-60 | from empty tables on, every paid row keeps its charge and payment time throughout, unless two confirmations of one payload overlap |
| ChargeRace.OrderlyNeverRewrites | cmd/bot/main.go:164-169 | so the deployment with one worker and one confirmation per payload has no such write |
| ChargeRace.RewritesSinceLoad | internal/app/confirm_payment/handler.go:45-60 | such a write comes from a copy whose row was paid for, or paid for anew, after this run loaded it |
| Witnesses.StatusCanRegress | internal/app/confirm_payment/handler.go:45-60 | two overlapping confirmations of one invoice can take a row from access_issued back to paid under another charge |
| Redemption.AcceptedOverlap | internal/app/use_access/handler.go:37-60 | any two accepted redemptions of one grant overlap: each read the grant before the other's mark completed |
| Redemption.UsedStaysUsed | internal/adapters/storage/postgres/access_repo.go:35-38 | used_at never changes once set, and every later read of the token is answered with token already used |
| Redemption.EachTokenOnce | internal/app/use_access/handler.go:37-60 | when redemptions of one token take turns, the token is accepted at most once |
| Redemption.AcceptsUsableOrAtExpiry | internal/domain/access/grant.go:15-17 | redemption goes on exactly when IsUsable holds or the grant is unused at the very instant of expiry |
| Redemption.SentTokenRedeems | internal/app/use_access/handler.go:29-60 | any link ever sent ends in "?token=" and its raw token; that token names the purchase and user it was sent for, and redeeming it succeeds if and only if its grant is unused and not past expiry, whatever happened in between |
| TokenRace.AcceptedOnceByGuard | internal/adapters/storage/postgres/access_repo.go:35-38 | for every execution in which no mark loses its answer: each token is accepted at most once if and only if no mark answered with success finds used_at set |
| TokenRace.UnusedMarksSuffice | internal/adapters/storage/postgres/access_repo.go:35-38 | for every execution, lost answers included: if no mark answered with success finds used_at set, each token is accepted at most once |
| TokenRace.AcceptedOnceExactly | internal/adapters/storage/postgres/access_repo.go:35-38 | the exact condition with lost answers: no mark answered with success finds used_at set, unless by a mark whose answer got lost and that nobody was told of since |
| TokenRace.StepUsesTold | internal/app/use_access/handler.go:53-60 | every step keeps the account of used grants: used by an accepted redemption, or by a mark whose answer got lost, never both |
| Witnesses.BothAccepted | internal/app/use_access/handler.go:46-60 | from any state with an unused grant two racing redemptions are both accepted |
| Witnesses.TokenAcceptedTwice | internal/app/use_access/handler.go:46-60 | an execution from empty tables in which the token of a purchase is accepted twice |
| CacheFree.CacheTransparent | internal/app/use_access/handler.go:33-58 | executions that differ only in the cache (its presence, faults, losses, contents) have the same tables, sends, runs and replies |
| CacheFree.CacheEntriesTrue | internal/app/issue_access/handler.go:99-101 | every cache entry names the purchase of the grant with that token hash |
| Serial.ServeIsOrderly | internal/jobs/scheduler.go:24-33 | serving one command alone, with any faults, is an orderly execution with the same final tables |
| Serial.ServeAllIsOrderly | internal/jobs/scheduler.go:24-33 | so is serving any list of commands |
| Serial.HandleEventOutbox | internal/jobs/outbox_processor.go:30-38 | handling an event leaves the outbox alone or flags exactly that event |
| SerialResults.SerialTables | internal/app/confirm_payment/handler.go:54-68 | between commands all invariants hold; a paid purchase lacks its outbox event exactly when one of the deliveries served, by its own plan, carried out its update but not its publish; the history of the execution says the same |
| LostPayments.LostExactlyByPlans | internal/app/confirm_payment/handler.go:33-66 | from any tables in order: which payments a list of commands loses, told from the plans of its deliveries |
| LostPayments.CourseOfDelivery | internal/app/confirm_payment/handler.go:33-56 | a delivery changes nothing, or goes on to store the purchase its payload finds, marked as paid |
| SerialResults.AcceptedOnceSerially | internal/app/use_access/handler.go:46-60 | after one accepted redemption, whatever is served next, the token is refused |
| Redelivery.SpentIsInert | internal/app/confirm_payment/handler.go:37-56 | a delivery of an event whose charge is processed or whose invoice is paid changes nothing, whatever fails |
| Redelivery.EffectSpends | internal/app/confirm_payment/handler.go:54-68 | a delivery that changed anything at all, or was answered with success, leaves its event in that state, partial failures included |
| Redelivery.SpentRemovable | internal/app/confirm_payment/handler.go:37-56 | deliveries of spent events, of any payments, can be removed from an execution without changing its final tables |
| Redelivery.RedeliveriesRemovable | internal/app/confirm_payment/handler.go:37-43 | once a payment is spent, removing every delivery with its charge and invoice, whatever time or amount it is stamped with, leads to the same final tables |
| SerialResults.PaymentDeliveredOnce | internal/app/confirm_payment/handler.go:32-69 | from empty tables on: after one delivery that had any effect or was answered with success, removing every redelivery of the payment leads to the same final tables |
| Redelivery.StopIsRefusal | internal/app/confirm_payment/handler.go:58-68 | stopping a handler after any number of calls leaves the world of a handler whose calls are refused from there on, but for the record of one refused send if it stopped right before its send |
| Redelivery.BatchStopIsRefusal | internal/jobs/outbox_processor.go:30-38 | the same for the outbox worker that stops anywhere in a batch, right before MarkPublished included |
| Completion.IssueServed | internal/app/issue_access/handler.go:50-111 | with the calls before the send served, the run gets to the send exactly for a paid, purchasable purchase without a grant and an unused hash, and then leaves exactly its grant and access_issued behind whether or not the send succeeds |
| Completion.UnhealthyServed | internal/app/issue_access/handler.go:88-105 | for any other purchase such a run ends before the send and leaves the tables as they were; but one that is not paid and could get a grant has got exactly that grant, whose link is not sent |
| Completion.PublishedIffHealthy | internal/jobs/outbox_processor.go:30-38 | with all calls served, an unpublished event is published if and only if its purchase is healthy in that sense |
| Completion.FailedSendWedges | internal/app/issue_access/handler.go:106-111 | one failed send leaves access_issued, an unpublished event, and the state from which it is never published |
| OutboxProgress.ProgressBound | internal/jobs/outbox_processor.go:24-40 | with k < 20 failing and g succeeding events ahead, a succeeding event is published after g / (20 - k) + 1 ticks, whatever is served in between and however many newer events arrive |
| OutboxProgress.BatchOfTwenty | internal/jobs/outbox_processor.go:25 | a tick that gets its batch handles exactly the unpublished rows with fewer than 20 unpublished ones before them, each in its place |
| OutboxProgress.TickShrinks | internal/adapters/storage/postgres/outbox_repo.go:36-66 | one tick publishes the event or strictly reduces that bound without changing the number of failing events ahead |
| OutboxProgress.BlockedForever | internal/jobs/outbox_processor.go:24-40 | with 20 or more failing events ahead, however many others are among them, an event is never published |
| OutboxProgress.PublishedExactly | internal/jobs/outbox_processor.go:24-40 | given that many ticks, an event is published if and only if it succeeds and fewer than 20 failing ones are ahead |
| Backlog.BacklogExactly | internal/jobs/outbox_processor.go:24-40 | told from the tables alone, from empty ones on, when ticks have their calls served and draw new tokens and no edit puts a purchased content on or off sale: with g issuable and k other unpublished events ahead, an event is published within g / (20 - k) + 1 ticks if its own purchase is issuable (paid, purchasable, without grant) and k < 20, and never otherwise |
| Backlog.SyncIsHarmless | internal/adapters/streaming/sync.go:42-60 | a row that the catalog sync writes is such an edit if and only if the row was there or no purchase is of it |
| Backlog.BatchPublishes | internal/jobs/outbox_processor.go:30-38 | of a batch whose calls are served exactly those events are published whose purchases were issuable when the batch began |
| Backlog.ForeignEvent | internal/app/issue_access/handler.go:50-112 | handling one event changes neither the row nor the grant of any other purchase, nor the catalog |
| DeadEvents.DeadExactly | internal/app/issue_access/handler.go:88-105 | from empty tables on, as long as there is a token with a new hash: handling a waiting event never publishes it, after any commands and however its calls end, if and only if its purchase is not paid or has a grant |
| Publishable.NeverPublishedExactly | internal/jobs/outbox_processor.go:24-40 | from empty tables on, as long as tokens do not run out of hashes: an event's row stays unpublished in every continuation, faults and edits included, if and only if its purchase is dead in that sense or 20 unpublished events ahead of it are |
| Publishable.LiveGetsPublished | internal/jobs/outbox_processor.go:24-40 | any other event is published by some continuation: the contents put on sale, then ticks with their calls served |
| Publishable.BarredForever | internal/adapters/storage/postgres/outbox_repo.go:40-46 | an event that is dead or has 20 dead ones ahead stays so, and unpublished, whatever is served |
| DeadEvents.StarvedForever | internal/adapters/storage/postgres/outbox_repo.go:40-46 | from empty tables on: when the 20 oldest unpublished events are all of that kind, they are the batch of every later tick, whatever is served |
| OutboxProgress.Starvation | internal/jobs/outbox_processor.go:30-38 | starvation from any tables, by events of unknown types, missing purchases or purchases with a grant, as long as no new purchase takes an id such an event is missing; no other row of the outbox ever changes |
| OutboxProgress.DoomedHandled | internal/app/issue_access/handler.go:50-98 | an event of an unknown type, of a missing purchase or of a purchase with a grant is never published by handling it |
| Answers.StartRefused | internal/app/start_purchase/handler.go:29-40 | why a purchase is not attempted, what is answered, and that nothing changes |
| Answers.StartServed | internal/app/start_purchase/handler.go:37-75 | a purchase of what is offered adds exactly one row unless the id is taken: this user and content, the content's price, pending, uncharged; the answer has the same price |
| Prices.PriceWasOffered | internal/app/start_purchase/handler.go:29-67 | interleaved: every row has the price at which its content was offered at some moment before |
| Prices.PriceAsRead | internal/app/start_purchase/handler.go:29-75 | interleaved: a start run that reads an offered content stores and answers the price it read, whatever happens to the catalog meanwhile |
| Prices.AskedForItsContent | internal/app/issue_access/handler.go:52-64 | interleaved: the provider is asked only for the content of the run's own purchase, by a row that was stored for it and on offer at some moment before |
| Json.PayloadReads | internal/app/start_purchase/handler.go:42-51 | the invoice payload reads back as a JSON object with exactly the members content_id, purchase_id and user_id, with these values |
| Json.EscapeSafe | internal/app/start_purchase/handler.go:47-51 | a written string holds no control character and none that is unsafe in HTML or JavaScript |
| Handlers.StartPurchase | internal/app/start_purchase/handler.go:28-76 | the handler over the mutable tables ends in the tables and the reply of the start machine driven alone |
| Answers.DeliveryRefused | internal/app/confirm_payment/handler.go:33-48 | why a delivery does not get to its update, what is answered, and that nothing changes |
| Answers.DeliveryFinds | internal/app/confirm_payment/handler.go:45-56 | a delivery whose invoice is not pending is refused; otherwise it goes on with that row, paid with this charge at this time and otherwise as it was |
| Answers.PaymentConfirmed | internal/app/confirm_payment/handler.go:45-68 | a pending purchase, a new charge and all calls served: success, with the paid row, the log entry, the event and the key all there, and nothing else changed |
| Answers.AcceptedIsProcessed | internal/app/confirm_payment/handler.go:68 | success is answered only with the key of the charge stored |
| Answers.AcceptedForGood | internal/app/confirm_payment/handler.go:37-43 | after a success, and whatever is served next, every delivery of the charge whose key check is served is answered with success and changes nothing |
| Answers.RowStored | internal/app/confirm_payment/handler.go:58-60 | the update for every outcome of its call: the row, or nothing where payload or charge belong to another purchase |
| Answers.PaymentLogged | internal/app/confirm_payment/handler.go:61-63 | the log entry for every outcome of its call |
| Answers.EventStored | internal/app/confirm_payment/handler.go:64-66 | the outbox event for every outcome of its call, with its id, type and purchase |
| Answers.KeyStored | internal/adapters/storage/postgres/idempotency_repo.go:29-32 | the key for every outcome of its call |
| Handlers.ConfirmPayment | internal/app/confirm_payment/handler.go:32-69 | the same for the confirm machine, for every outcome of every call |
| Handlers.StorePayment | internal/app/confirm_payment/handler.go:58-60 | the part from the update on |
| Handlers.LogPaid | internal/app/confirm_payment/handler.go:61-68 | the part from the event log on |
| IssueAnswers.IssueRefused | internal/app/issue_access/handler.go:51-62 | what is refused before the provider is asked, and that nothing changes |
| IssueAnswers.ProviderFailed | internal/app/issue_access/handler.go:64-73 | a failed attempt adds one to the attempts, stores message and time, and sets error at the limit; nothing else changes |
| IssueAnswers.AccessIssuedServed | internal/app/issue_access/handler.go:75-111 | calls served: exactly the grant, until the provider's expiry, the cache entry, the status, and one message to the buyer with the provider's link, "?token=" and the token of the grant |
| IssueAnswers.GrantStored | internal/app/issue_access/handler.go:88-98 | the grant for every outcome of its call: stored, or nothing where its id, purchase or hash has one |
| IssueAnswers.StatusChecked | internal/app/issue_access/handler.go:99-105 | the token is cached whatever comes of it; only a paid purchase goes on |
| IssueAnswers.StatusStored | internal/app/issue_access/handler.go:106-108 | the status for every outcome of its call |
| IssueAnswers.LinkSent | internal/app/issue_access/handler.go:110-111 | the message is the provider's link with the raw token as its query, to the buyer |
| IssueAnswers.EventHandled | internal/jobs/outbox_processor.go:31-37 | after success exactly this event is flagged, if MarkPublished takes effect; other types are left alone |
| Handlers.IssueAccess | internal/app/issue_access/handler.go:50-62 | the same for the issue machine up to its return: an error, or success with only MarkPublished left |
| Handlers.RequestLink | internal/app/issue_access/handler.go:64-73 | the part from the provider call on, with the retry accounting of a failure |
| Handlers.GrantAccess | internal/app/issue_access/handler.go:75-98 | the part from the token on |
| Handlers.DeliverLink | internal/app/issue_access/handler.go:99-105 | the part from the cache on |
| Handlers.AnnounceAccess | internal/app/issue_access/handler.go:106-111 | the part from the status update on |
| Handlers.GenerateToken | internal/platform/crypto/token.go:15-24 | the hash handed out is the hash of the raw token handed out |
| Answers.TokenUnknown | internal/app/use_access/handler.go:37-40 | a token that no grant has, or that cannot be looked up, is answered with invalid token |
| Answers.TokenAnswered | internal/app/use_access/handler.go:42-60 | the whole answer to a known token for every outcome of its calls: used, expired, or redeemed with used_at set once and the cache entry dropped |
| Handlers.UseAccess | internal/app/use_access/handler.go:29-61 | the same for the redemption machine, with its reply |
| Handlers.RunOnce | internal/jobs/outbox_processor.go:24-40 | the batch loop over the mutable tables is the tick of the serial model: it skips failures and flags successes; it fails only when the batch cannot be read |
| Domain.PurchaseRecord.MarkPaid | internal/domain/purchase/purchase.go:29-40 | the record in memory changes as the status machine says, or not at all when refused |
| Domain.PurchaseRecord.MarkAccessIssued | internal/domain/purchase/purchase.go:42-48 | the same for the step to access_issued |
| Domain.PurchaseRecord.RegisterIssueAccessFailure | internal/domain/purchase/purchase.go:58-65 | the same for a failed attempt, whatever the status |
| Store.RowRoundTrip | internal/adapters/storage/postgres/purchase_repo.go:62-120 | storing and loading a purchase is the identity; loading and storing a row is, exactly when it has NULL rather than an empty string for a missing charge or error |
| Store.Store.CreatePurchase | internal/adapters/storage/postgres/purchase_repo.go:31-40 | inserts exactly this row, or changes nothing when a key or unique column clashes |
| Store.Store.UpdatePurchase | internal/adapters/storage/postgres/purchase_repo.go:42-60 | overwrites the whole row of this id, nothing without such a row, and changes nothing on a clash |
| Store.Store.ClashIsConflict | internal/adapters/storage/postgres/schema.go:28-33 | the unique indexes on rows with NULL are the conflicts of purchases with empty strings |
| Store.Store.GetPurchase | internal/adapters/storage/postgres/purchase_repo.go:19-21 | the stored purchase of this id, if any |
| Store.Store.GetByPayload | internal/adapters/storage/postgres/purchase_repo.go:23-25 | the stored purchase with this payload, if any |
| Store.Store.CreateGrant | internal/adapters/storage/postgres/access_repo.go:27-33 | inserts exactly this grant, or changes nothing when id, purchase or hash exists |
| Store.Store.GetByTokenHash | internal/adapters/storage/postgres/access_repo.go:23-25 | the grant with this hash, if any |
| Store.Store.MarkGrantUsed | internal/adapters/storage/postgres/access_repo.go:35-38 | sets used_at only where it is unset, and succeeds either way |
| Store.Store.SavePaymentEvent | internal/adapters/storage/postgres/event_log_repo.go:18-25 | adds the event unless its charge is logged, in which case the old entry stays |
| Store.Store.IsProcessed | internal/adapters/storage/postgres/idempotency_repo.go:17-27 | whether the key is in the table |
| Store.Store.MarkProcessed | internal/adapters/storage/postgres/idempotency_repo.go:29-32 | the processed keys are the old ones and this one, which may be there already |
| Store.Store.PublishPurchaseConfirmed | internal/adapters/storage/postgres/outbox_repo.go:27-34 | appends one unpublished event with an id made of time and purchase, or changes nothing when the id exists |
| Store.Store.UnpublishedEvents | internal/adapters/storage/postgres/outbox_repo.go:36-61 | the oldest unpublished events in order, up to the limit, or up to 20 where the limit is not positive |
| Store.Store.MarkEventPublished | internal/adapters/storage/postgres/outbox_repo.go:63-66 | flags exactly the rows of this id |
| Store.Store.GetContent | internal/adapters/storage/postgres/content_repo.go:18-29 | the content row of this id, if any |
| Store.Store.PutToken | internal/adapters/storage/redis/token_store.go:33-35 | sets one cache entry and touches no table |
| Store.Store.DeleteToken | internal/adapters/storage/redis/token_store.go:48-50 | removes one cache entry and touches no table |
| Store.Store.PeekToken | internal/adapters/storage/redis/token_store.go:37-46 | the cached purchase id, or the empty string |
| Store.Store.SendAccessLink | internal/adapters/telegram/sender.go:18-26 | one more send is on record, delivered or not |
| Text.InvoicePayloadInjective | internal/app/start_purchase/handler.go:42-51 | the JSON payload determines content, purchase and user |
| Text.EscapeRoundTrip | internal/app/start_purchase/handler.go:47-51 | a JSON string (section 7 of RFC 8259) reads back as the string written, with exactly what followed it left over |
| Tables.Flagged | internal/adapters/storage/postgres/outbox_repo.go:63-66 | keeps every row in place and changes only the published flag of the rows with this id |
| CatalogSync.MergeAllIsExpected | internal/adapters/streaming/sync.go:31-62 | for every id the row after a sync: existing price, activity and non-empty description win, else default price, active and the first description; the title of the last video with the id; rows of other ids untouched |
| CatalogSync.SyncResumes | internal/adapters/streaming/sync.go:20-70 | a sync stopped after any number of videos, followed by a full one, leaves the catalog of one full sync |
| CatalogSync.SyncIdempotent | internal/adapters/streaming/sync.go:20-70 | a full sync is idempotent, repeated ids included |
| CatalogSync.AdministratorEditsSurvive | internal/adapters/streaming/sync.go:50-56 | price, active flag and a non-empty description set before a sync survive it, and rows of other videos do not change |
| CatalogRace.EditLostExactly | internal/adapters/streaming/sync.go:37-60 | an edit at any moment of a sync, after any edits and before edits of other rows, stays in force if and only if it does not fall between the read and the upsert of its own id with another price or active flag read; its description stays if and only if it is not overwritten or the description written over it is the same |
| CatalogRace.DeleteUndoneExactly | internal/adapters/storage/postgres/content_repo.go:63-66 | a row deleted during a sync comes back if and only if the sync goes on to deal with a video of its id, and with which price and active flag |
| CatalogRace.OtherEditsHarmless | internal/adapters/streaming/sync.go:31-62 | edits of other rows at any moments do not change what the sync makes of a row |
| CatalogRace.MovesRow | internal/adapters/streaming/sync.go:31-62 | from any state of a sync, a row that is not edited becomes what the remaining videos make of it, or of the row held if that is written |
| CatalogSync.SchemaKept | internal/adapters/storage/postgres/schema.go:18-26 | a sync keeps prices positive and keys right |
| CatalogSync.FullCoverage | internal/adapters/streaming/sync.go:20-70 | a library of n usable videos in pages of 100 is seen completely, in order, in n / 100 + 1 page requests |
| CatalogSync.ListLibraryVideos | internal/adapters/streaming/client.go:102-144 | the page's items in order, without those whose id is blank |
| CatalogSync.PageDone | internal/adapters/streaming/sync.go:22-68 | the videos of a page are the next of the covered ones; a short page is the last one the loop looks at |
| CatalogSync.SyncVideo | internal/adapters/streaming/sync.go:32-61 | one read, merge and upsert, or an error that leaves the table as it was or merged |
| CatalogSync.SyncPage | internal/adapters/streaming/sync.go:31-62 | the inner loop folds in the page's videos one by one, or stops with an error after a prefix |
| CatalogSync.SyncLibraryContent | internal/adapters/streaming/sync.go:15-71 | without an error and with nobody else writing, the loop folds in exactly the pages up to the first with fewer than 100 usable ids and counts them; stopped by an error it has folded in a prefix |
| CatalogSync.ContentStore.GetById | internal/adapters/storage/postgres/content_repo.go:18-29 | the row of this id, if any |
| CatalogSync.ContentStore.Upsert | internal/adapters/storage/postgres/content_repo.go:49-61 | sets the row of this id and no other; CHECK (price_stars > 0) refuses the rest |
| CatalogSync.StoredTextTrimmed | internal/adapters/streaming/sync.go:32-46 | the id a sync stores is trimmed, and so is a description that was not there before |
| CatalogSync.NewVideoStored | internal/adapters/streaming/sync.go:42-49 | a video the table had not is stored under its trimmed id, with the title of its last entry or "Video " and the id where that is blank, the default price or 25, active |
| CatalogSync.KnownVideoStored | internal/adapters/streaming/sync.go:50-58 | one it had gets the same title, and keeps price, activity and a description that is there |
| CatalogSync.FirstDescriptionAt | internal/adapters/streaming/sync.go:46-55 | the description stored otherwise is the trimmed one of the first entry of the video that is not blank |
| Text.TrimSpaceExactly | internal/adapters/streaming/sync.go:32-46 | trimming takes the white space off both ends and nothing else |

## Left out

- HTTP server, Telegram bot commands, menus and invoices: user interface; calls of SendAccessLink are recorded.
- SQL and Redis drivers, connection pools, HTTP requests to the video service: foreign calls, replaced by table operations and the environment's choices.
- SHA-256, hexadecimal and random generation: the hash is a parameter, fresh ids and tokens are the environment's choice, and a repeated id or hash is refused by the tables.
- Redemption.SentTokenRedeems: says what the redemption replies when its own calls are served; a refused call yields an error as in the step machine.
- OutboxProgress.ProgressBound: speaks of observed outcomes of ticks (`Behaves`); Backlog.BacklogExactly tells them from the tables, for ticks whose calls are served.
- OutboxProgress.Starvation: for events of missing purchases it assumes that no new purchase gets such an id; from empty tables on there are no such events (DeadEvents.StarvedForever).
- Redemption.AcceptedOverlap: an acceptance is recorded when its mark is answered with success, before the cache entry is deleted and the reply given; a run stopped in between counts as accepted, so there can be more acceptances than replies.
- Store.Store.SendAccessLink: success is the sender's answer; a sender without a bot (internal/adapters/telegram/sender.go:20-22) answers with success and sends nothing, which is not told apart.
- OrderlyResults.PublishedMeansDelivered: a delivered link is one that the sender answered with success.
- The order of outbox rows: created_at is taken to be a strict total order, the order of insertion.
- Request and submission of reviews, the users and reviews tables: not part of the lifecycle proved here.
- MarkExpired, bans, and the expiry, timeout and refund jobs that only the repository's README.md describes: no running code uses them.
- Paid amounts: the code compares them with nothing, and so does the model.
- Text that is not valid UTF-8: strings are sequences of Unicode characters, without the replacement characters that Go's JSON encoder writes for invalid bytes.
- Integer widths, database timestamp rounding, the clock of the database as opposed to the process: numbers and times are unbounded integers.
- Time to live of cache entries: covered by losing any entries at any moment.
- The bot's admin commands: an edit of the catalog is one write within the schema at any moment; the row /setcontent reads before it writes is not modelled.
- Seeding and listing content rows.
- A library that never returns a short page: the number of pages is finite.
- The link's query string beyond its token, and the signature the video service checks: string formatting for a foreign service.
- Config, logger, deployment files.
