# Checkout saga, idempotent services and event delivery: a Dafny model

This project models the order checkout of a food-delivery platform and proves what its runs guarantee. Everything is
stated for all inputs, all interleavings and all reachable states of the model.

* **The saga** (`SagaRow`, `SagaOrchestrator`, `SagaProtocol`, `SagaInvariant`, `SagaSteps`, `SagaSettlement`,
  `SagaWitness`, `HttpAdapters`). Any number of sagas run against one payment ledger and one inventory. A call can be
  answered, fail before its commit, or take effect although the orchestrator saw an error, even long after the
  orchestrator gave up on it. An orchestrator can crash at any point and then only its committed row and step log
  remain. The final state of a saga, together with the responses that were lost, determines the money and the stock
  exactly, and runs are given in which each kind of loss and of doubt occurs.
* **Idempotent services under races** (`PaymentRace`, `PaymentService`, `InventoryRace`, `FlashSale`, `SoldOutCache`,
  `OrderRace`, `OrderOwnership`, `OrderService`). Cache check, transaction and cache fill are separate steps of every request, requests
  interleave freely, transactions abort, and restarts lose the cache. At-most-once rests on the UNIQUE columns and on
  rollback.
* **Inventory** (`Stock`, `Inventory`). The two-pass reserve refines an all-or-nothing multiset subtraction;
  conservation of stock is proved with its exact exception.
* **Outbox, relay, consumer, notifier** (`Relay`, `RelayGuarantees`, `RelayProgress`, `RelayDelivery`, `Consumer`,
  `ConsumerDelivery`, `Notifier`, `Pipeline`). No phantom entries, exactly which events and messages get through,
  bounded duplication, order, a progress bound, accounting of acknowledgements, exactly-once notification.
* **Guards** (`RateLimiter`, `ResilientHttp`). The sliding window and the circuit breaker against their full histories.

Objects that the program updates in place are classes, and each of their methods is proved equal to a function of the
old state; the lemmas are about those functions. Concurrency is modelled by step functions over a system value, with the
schedule as a sequence of actions. An action that is not possible in a state leaves the state unchanged.

## Choices

* A saga is named by its position in the table, so saga ids are unique; the key hash of core/idempotency.py is taken as
  injective in its parts. The random ids of payments, orders and events are arbitrary and a collision fails on its
  UNIQUE column; in `InventoryRace` the reservation id a request draws is identified with the request, and a collision
  would be one of its aborts.
* `InventoryRace` assumes the row locks of PostgreSQL. The default database URL is SQLite
  (services/inventory/app.py:30), where `FOR UPDATE` has no effect.
* Money in the ledger is `int`, order totals and times are `real`. Stock is `int` and may go negative, as the column
  may.
* In the saga protocol each key is sent at most once (`SagaSettlement.SingleCharge` proves it), so a service's cache
  cannot answer a saga; the caches are modelled in the race modules.
* Outcomes of calls, sleeps, clocks, random draws and schedules are parameters or action fields; nothing is assumed
  about them except where a `requires` says so (a nondecreasing clock for the rate limiter).
* The relay is a single one: the documented row locking is not in the query (core/outbox.py:85-91). Row ids are assumed
  to follow commit order.

## Where code and documentation differ

The model follows the code.

* The repository's README.md:54 promises a `CHECK stock >= 0`; the column has none (services/inventory/app.py:41).
  `Stock.NeverOversellsIff` and `Stock.OversellsIff` give the exact conditions under which stock stays non-negative, on
  the request alone and with the stock at hand, and `Stock.RepeatedItemOversells` an input on which it does not.
* Its README.md:49 speaks of `order.confirmed` and `order.cancelled` outbox rows; the order service writes only
  `order.created`. The relay and the notifier are modelled for all types.
* Its README.md:50 promises at-least-once delivery. The relay gives up on a row after five failed attempts in committed
  batches: `RelayDelivery.FiveFailuresLoseEvent` is such a run, and `RelayDelivery.NothingLostIff` says exactly when no
  event is lost. The consumer never asks again for a message that a broker failure left pending:
  `ConsumerDelivery.LostReplyLosesMessage` is such a run, and `ConsumerDelivery.NothingLostIff` the exact condition.
* The state graph in the header of services/orchestrator/saga_state_machine.py leaves out MANUAL_REVIEW and mentions
  ETA_FAILED, which is never entered (nor is ETA_OK).
* A cached OUT_OF_STOCK reply can contradict a reservation under its key (`SoldOutCache.SoldOutEntryMayLie`);
  `SoldOutCache.SoldOutEntriesAreRightIff` gives the exact condition, that no two requests with items share a key.
* A second release of a reservation under another key creates stock: `Inventory.SecondKeyReleasesTwice`;
  `Inventory.RunAccounting` says exactly how much.

## Model

| member | source | states |
|---|---|---|
| SagaSettlement.SettlementUnderLoss | services/orchestrator/saga_state_machine.py:118-260 | in every run, a terminated saga's state and its lost responses determine its order's net ledger and its number of reservations |
| SagaSettlement.Settlement | services/orchestrator/saga_state_machine.py:118-260 | with no lost response: CONFIRMED or CONFIRMED_DEGRADED iff charged once and one reservation held, CANCELLED iff neither, MANUAL_REVIEW iff charged with nothing held |
| SagaSettlement.ResidueNeedsLoss | services/orchestrator/saga_state_machine.py:120-157 | a CANCELLED order keeps a charge only if a committed authorize was reported as an error, keeps stock only if a committed reserve was, never both; MANUAL_REVIEW nets to zero only after a lost refund |
| SagaSettlement.QuiescentStock | services/orchestrator/saga_state_machine.py:142-161 | once all sagas are over, stock is the initial stock minus the units of confirmed orders and lost reservations |
| SagaSettlement.HeldIsOwed | services/orchestrator/saga_state_machine.py:146-161 | over any table of terminated sagas, units held equal the units of confirmed sagas plus those of lost reservations |
| SagaSettlement.SingleCharge | services/orchestrator/saga_state_machine.py:105-121 | however often a saga is started for an order, at most one authorize, one reserve and one refund is ever sent for it, and the ledger has at most one row of each kind |
| SagaSettlement.CallAfterCommit | services/orchestrator/saga_state_machine.py:115-148 | no request leaves before its pending state is in the durable log |
| SagaSettlement.RefundIsNeverMissing | services/orchestrator/http_adapters.py:36-43 | the refund endpoint never answers a saga with 404, so REFUNDED in a log means a refund was made and the order nets to zero |
| SagaSteps.RefundFindsCharge | services/payment/app.py:144-147 | whenever a refund is in flight, the payment it names is in the ledger with the saga's amount and was authorized |
| SagaSettlement.CrashRecoverability | services/orchestrator/saga_state_machine.py:115-251 | at every point of every run the durable row alone (state and step log) fixes the balance except while a charge or refund is pending, after payment_error and in MANUAL_REVIEW, and the reservation except while it is pending and after inventory_error; payment_declined and inventory_out_of_stock on record are final |
| SagaSettlement.CrashStops | services/orchestrator/saga_state_machine.py:105-223 | a crash stops the orchestrator for good, leaves the committed row and touches nothing else |
| SagaSettlement.DoubtIsReal | services/orchestrator/saga_state_machine.py:118-152 | what is in doubt is really open: with a request in flight, two reachable states share the durable row and differ in exactly its effect |
| SagaWitness.TwoDoubts | services/orchestrator/saga_state_machine.py:149-152 | after inventory_error, four reachable states with one durable row in REFUNDING have every combination of charged or repaid and held or not |
| SagaWitness.CancelledButCharged | services/orchestrator/saga_state_machine.py:120-128 | a run to CANCELLED with the charge kept, for any order, amount and stock |
| SagaWitness.CancelledButHeld | services/orchestrator/saga_state_machine.py:147-152 | a run to CANCELLED with a reservation kept |
| SagaWitness.ReviewButRepaid | services/orchestrator/saga_state_machine.py:236-246 | a run to MANUAL_REVIEW with net zero |
| SagaInvariant.LocalKeepsNames | services/orchestrator/saga_state_machine.py:120-157 | each step of an orchestrator keeps the equivalence between the failure names in the log and how the two forward calls ended |
| SagaRow.AdvanceLogs | services/orchestrator/saga_state_machine.py:122-157 | a failure name enters the log exactly with the commit that records it |
| SagaSettlement.DurableLog | services/orchestrator/saga_state_machine.py:53-72 | at every point the log is a chain from CREATED along the acyclic graph, at most seven steps, ending in the stored state, with COMPENSATE as a suffix, and ETA_PENDING excludes CANCELLED |
| SagaSteps.NextKeepsInv | services/orchestrator/saga_state_machine.py:99-260 | every action of every orchestrator and service keeps the protocol invariant (rows, calls, ledger balance per order, holds per order, stock, uniqueness on the wire) |
| SagaSteps.RunKeepsInv | services/orchestrator/saga_state_machine.py:99-260 | hence it holds in every reachable state |
| SagaSteps.LedgerAuthorize | services/payment/app.py:110-118 | an authorization changes the balance of its own order only, and by the amount unless declined |
| SagaSteps.RepayKeepsLedger | services/payment/app.py:150-161 | flipping the original and adding the negative row keeps every order's balance equal to charge minus refund |
| SagaSteps.StockReserve | services/inventory/app.py:135-148 | a committed reservation keeps stock plus held units constant and gives its order exactly one hold |
| SagaInvariant.LocalKeepsCalls | services/orchestrator/saga_state_machine.py:118-260 | what the durable state says about the three calls survives every step of the orchestrator |
| SagaInvariant.NetFlip | services/payment/app.py:160-161 | marking a charged payment REFUNDED does not change any balance |
| SagaRow.ChainIsShort | services/orchestrator/saga_state_machine.py:66-72 | a chain in the graph has at most seven entries |
| SagaRow.EtaNeverCancels | services/orchestrator/saga_state_machine.py:163-200 | a log that reaches ETA_PENDING never reaches CANCELLED |
| SagaRow.AdvanceKeepsRow | services/orchestrator/saga_state_machine.py:115-251 | every commit keeps the log a chain, compensation a suffix, the payment id recorded, and completion equal to being terminal |
| SagaRow.AdvanceDescends | services/orchestrator/saga_state_machine.py:4-11 | every commit moves strictly deeper into the graph |
| SagaRow.AdvanceRefunds | services/orchestrator/saga_state_machine.py:236-251 | REFUNDED enters the log only together with CANCELLED, after a refund call that returned |
| SagaOrchestrator.EveryCommitIsGood | services/orchestrator/saga_state_machine.py:99-260 | whatever the calls answer, every committed row is good and the run ends in a terminal state |
| SagaOrchestrator.OutcomeIs | services/orchestrator/saga_state_machine.py:118-260 | whatever the calls answer, the run ends in one explicit row: state, payment, reservation and refund ids, estimate with its fallbacks, and every log entry |
| SagaOrchestrator.FinalStateIff | services/orchestrator/saga_state_machine.py:118-260 | from the answers alone, exactly when a saga ends CONFIRMED, CONFIRMED_DEGRADED, CANCELLED or MANUAL_REVIEW |
| SagaRow.EtaDecides | services/orchestrator/saga_state_machine.py:167-200 | from ETA_PENDING an estimate not marked degraded confirms with exactly its figures; no service, an exception, no estimate or a degraded one confirms degraded with 32, 25 and 40 for what is missing |
| SagaRow.NotFoundWouldPass | services/orchestrator/http_adapters.py:36-43 | a 404 on the refund would be recorded as REFUNDED without an id |
| HttpAdapters.RulesDiffer | services/orchestrator/http_adapters.py:25-62 | authorize and reserve raise on 5xx and 422, refund on 5xx alone, and they differ on 422 only |
| SagaProtocol.HearsAs | services/orchestrator/http_adapters.py:25-62 | what the orchestrator takes each reply for, by status code and call |
| SagaProtocol.LearnsAs | services/orchestrator/saga_state_machine.py:120-157 | a timed-out call is taken for an exception and a crashed orchestrator learns nothing |
| SagaProtocol.AuthorizeServes | services/payment/app.py:87-132 | what an authorization of a saga is answered and the row it adds |
| SagaProtocol.RefundServes | services/payment/app.py:144-161 | a refund of a saga marks the payment REFUNDED and adds the negative row |
| SagaProtocol.ReserveServes | services/inventory/app.py:117-148 | what a reservation of a saga is answered and what it takes from the stock |
| SagaOrchestrator.Orchestrator.StartSaga | services/orchestrator/saga_state_machine.py:99-216 | the commits are exactly the iterated single-commit transitions and the result is the row that the answers of the four calls spell out; a second saga for an order fails at its first commit and changes nothing |
| SagaOrchestrator.Orchestrator.MoveTo | services/orchestrator/saga_state_machine.py:66-72 | changes the state and appends the matching log entry in the session only |
| SagaOrchestrator.Orchestrator.Authorize | services/orchestrator/saga_state_machine.py:118-140 | step 1 and everything after it commits what the transition relation prescribes |
| SagaOrchestrator.Orchestrator.ReserveInventory | services/orchestrator/saga_state_machine.py:142-161 | the same for step 2 |
| SagaOrchestrator.Orchestrator.RequestEta | services/orchestrator/saga_state_machine.py:163-200 | the same for step 3 |
| SagaOrchestrator.Orchestrator.RunCompensation | services/orchestrator/saga_state_machine.py:225-251 | the same for the compensation |
| PaymentRace.AtMostOnce | services/payment/app.py:87-174 | in any interleaving with any drawn ids, aborts and restarts each key and each payment id has at most one row, every response and cache entry names the committed row, and a status edit stays only if its refund was committed |
| PaymentRace.DoneReplies | services/payment/app.py:110-127 | in every run a carried-out authorization replies its own order, amount and key with DECLINED iff declined, a refund the positive amount of the payment it names, each backed by the row it inserted |
| PaymentRace.WhatIsForgotten | core/idempotency.py:22-29 | a restart loses the cache and the requests under way, an abort one request, and the ledger stays |
| PaymentRace.CommitKeepsRows | services/payment/app.py:41-49 | a commit keeps keys and ids unique and REFUNDED equivalent to a committed refund |
| PaymentService.RepeatIsReplayed | services/payment/app.py:91-94 | a repeat under the same key gets the first response again and changes neither ledger nor cache |
| PaymentService.AuthorizeAnswer | services/payment/app.py:87-132 | which of Invalid, Replayed, Failed and Done an authorization gets, with its response and row, from the request, the old ledger and the old cache |
| PaymentService.RefundAnswer | services/payment/app.py:135-174 | the same for refunds: Replayed, NotFound, Failed or Done, with the row marked and the row added |
| PaymentService.PaymentLedger.AuthorizePayment | services/payment/app.py:87-132 | an uninterrupted call is its four steps of the racing model; Invalid iff the amount is not positive, a cached reply replayed, otherwise DECLINED iff declined in reply and row |
| PaymentService.PaymentLedger.RefundPayment | services/payment/app.py:135-174 | the same for refunds; NotFound iff no row has the id, and Done with the payment marked and the negative row added |
| InventoryRace.NextKeepsInv | services/inventory/app.py:107-161 | with row locks, each step keeps: a worker's memory of a locked row is current, stock is the initial stock minus committed units, rows match committed requests |
| InventoryRace.StepSays | services/inventory/app.py:111-160 | what each step answers and caches: replay or entry, OUT_OF_STOCK, RESERVED |
| InventoryRace.WhatIsForgotten | core/idempotency.py:22-29 | a restart loses cache, locks and requests under way, an abort one request, and stock and reservations stay |
| FlashSale.AtMostOnce | services/inventory/app.py:107-161 | in any schedule with aborts and restarts each key has at most one reservation, losers leave the stock unchanged, RESERVED replies, replays and cache entries name the committed reservation, nobody is turned away with everything in stock |
| FlashSale.StockBound | services/inventory/app.py:117-138 | in any schedule stock never falls below 1 minus the largest multiplicity of the item in a request |
| FlashSale.ExactlyTheStockIsSold | services/inventory/app.py:117-148 | every complete schedule of n single-item requests against stock s gives exactly min(n, s) RESERVED replies and final stock s - min(n, s) |
| FlashSale.RushBound | services/inventory/app.py:117-138 | on the way the stock is never negative |
| FlashSale.NeverStuck | services/inventory/app.py:117-148 | until all requests are answered some request can move |
| FlashSale.ScheduleEnds | services/inventory/app.py:117-161 | every effective step uses up one of finitely many, for any requests, and all are answered once those are taken |
| FlashSale.SaleCanEnd | services/inventory/app.py:117-161 | from every point of a flash sale the remaining requests can all be answered |
| FlashSale.SaleEnds | services/inventory/app.py:117-161 | no schedule has more than 6n effective steps and after 6n all n requests are answered |
| SoldOutCache.SoldOutEntriesAreRightIff | services/inventory/app.py:111-133 | for every stock and schedule a key cached OUT_OF_STOCK has no reservation, if and only if no two requests with items share a key |
| SoldOutCache.SoldOutEntryMayLie | services/inventory/app.py:111-133 | any two requests with items under one key have a stock and a schedule that leave OUT_OF_STOCK cached for a reserved key |
| OrderRace.AtMostOnce | services/order/app.py:70-118 | over both routes, any interleaving, id collisions, aborts and restarts: one order per key, as many orders as requests past their commit, and every response and cache entry names the committed order |
| OrderRace.WhatIsForgotten | core/idempotency.py:22-29 | a restart loses the cache and the requests under way, an abort one request, and orders and outbox stay |
| OrderOwnership.EveryOrderHasItsRequest | services/order/app.py:77-88 | in every run each order carries the restaurant, items, total and key of one committed request and its user's id (the body's customer only without a user, never on the versioned route); each committed request has its order, and a first reply reports it |
| OrderOwnership.PreparedAsRequested | services/order/app.py:78-86 | the order a request prepares has the fields of that request |
| OrderRace.OneEventPerOrder | services/order/app.py:77-109 | the k-th outbox row announces the k-th order, ids are unique, and the stream speaks only of committed orders |
| OrderRace.OutboxRunsTheRelay | core/outbox.py:46-62 | seen from the outbox every run is the run of the relay model that its trace spells out |
| OrderRace.OrdersAreAnnounced | core/outbox.py:80-126 | a PUBLISHED order is in the stream; without publish exceptions orders are first announced in commit order |
| OrderService.OrderEndpoints.CreateOrder | services/order/app.py:57-121 | an uninterrupted call is its five steps of the racing model; Unauthorized iff there is no user, a cached reply replayed, otherwise the order is created for the user |
| OrderService.OrderEndpoints.CreateOrderLegacy | services/order/app.py:263-316 | the same for the legacy route, which draws the order id before the cache check and falls back to the customer of the body |
| OrderService.OrderAnswer | services/order/app.py:57-121 | which reply a call on either route gets, and the order, event and cache entry it leaves, from the request and the old state |
| Stock.UnitsIsMultiplicity | services/inventory/app.py:136-138 | the number of times an item is listed is its multiplicity as a multiset |
| Stock.SubtractBound | services/inventory/app.py:119-138 | an admitted reservation leaves at least 1 minus the item's multiplicity |
| Stock.OversellsIff | services/inventory/app.py:119-138 | an admitted reservation keeps stock non-negative iff no item is listed more often than it is in stock |
| Stock.NeverOversellsIff | services/inventory/app.py:119-138 | a list is safe for every stock that admits it iff it repeats no item |
| Stock.BoundIsAttained | services/inventory/app.py:119-138 | the bound 1 minus multiplicity is reached on every list |
| Stock.RepeatedItemOversells | services/inventory/app.py:119-138 | one unit listed twice is admitted and leaves minus one |
| Inventory.ReserveAnswer | services/inventory/app.py:107-161 | what a reservation is answered and leaves in stock, rows and cache, case by case |
| Inventory.ReleaseAnswer | services/inventory/app.py:164-201 | what a release is answered and leaves behind; an error iff the reservation is unknown |
| Inventory.CachedRepliesAreTrue | services/inventory/app.py:111-160 | over every serial run cached RESERVED, RELEASED and OUT_OF_STOCK replies are true of the reservations |
| Inventory.FirstReplyIsReplayed | services/inventory/app.py:111-113 | whatever happens in between, a later call with the key returns the first reply and changes nothing |
| Inventory.CallAccounting | services/inventory/app.py:107-201 | every call changes stock plus reserved units by exactly the units of a reservation released although no longer RESERVED |
| Inventory.RunAccounting | services/inventory/app.py:107-201 | stock plus reserved units of every serial run is the initial stock plus exactly the units that double releases created |
| Inventory.SecondKeyCreates | services/inventory/app.py:164-201 | wherever a reservation is held, releasing it under two new keys creates all its units once |
| Inventory.Conservation | services/inventory/app.py:107-201 | in every serial run with one release key per reservation, replays included, stock plus reserved units is constant |
| Inventory.SecondKeyReleasesTwice | services/inventory/app.py:172-188 | from the initial state, a reservation released under two keys leaves two units where there was one |
| Inventory.StockBound | services/inventory/app.py:119-138 | in every serial run stock stays at or above 1 minus the largest multiplicity |
| Inventory.InventoryService.CheckAll | services/inventory/app.py:118-133 | the first pass succeeds iff every listed item has a row with positive stock |
| Inventory.InventoryService.DecrementAll | services/inventory/app.py:135-138 | the second pass is the multiset subtraction |
| Inventory.InventoryService.ReserveStock | services/inventory/app.py:107-161 | both passes, the unique insert and the cache refine the all-or-nothing reservation; OUT_OF_STOCK iff a listed item is missing, RESERVED iff none is and no row is in the way |
| Inventory.InventoryService.ReleaseStock | services/inventory/app.py:164-201 | restores the multiset of the reservation whatever its status, marks it and replies RELEASED with its items |
| Relay.RunKeepsInv | core/outbox.py:80-126 | in every reachable state ids are unique, retry counts agree with the status, the stream has only committed events, and the open batch is consistent |
| Relay.AfterCommit | core/outbox.py:93-121 | after a commit a selected row is as one attempt leaves it and every other row is unchanged |
| Relay.PublishTable | core/outbox.py:93-114 | what one attempt does to the stream and the row, by how the publish ends |
| RelayGuarantees.Safety | core/outbox.py:80-126 | PUBLISHED rows are in the stream, stream entries come from committed rows, PENDING means fewer than five retries, FAILED means five |
| RelayGuarantees.BoundedDuplication | core/outbox.py:85-126 | the copies of an event never exceed the batches that selected it |
| RelayGuarantees.FirstOccurrencesInRowOrder | core/outbox.py:85-126 | without publish exceptions, whatever rolls back or crashes, first occurrences are in row order |
| RelayProgress.ProgressBound | core/outbox.py:73-121 | a row at place p of the pending queue is settled after at most 5 * ceil(p / batch) committed batches |
| RelayProgress.SelectCovers | core/outbox.py:85-91 | a pending row with fewer than the batch size before it is selected |
| RelayProgress.OutboxRelay.RelayBatch | core/outbox.py:80-130 | the loop with its commit or rollback is one batch of the relay model and returns the number of successful publishes |
| RelayProgress.OutboxRelay.PublishAll | core/outbox.py:93-121 | the loop over the selected rows leaves the edited copies, the stream and the count of one attempt each |
| RelayProgress.CountOkIsCount | core/outbox.py:103-105 | the count returned is the number of publishes that succeeded |
| RelayDelivery.ExactDelivery | core/outbox.py:93-126 | a row's retry counter is its failed attempts in committed batches, FAILED iff five, PUBLISHED iff a committed attempt succeeded; its event is in the stream iff some attempt, rolled back or not, appended it |
| RelayDelivery.NothingLostIff | core/outbox.py:93-126 | with every row settled, all events are in the stream iff every row with five committed failures had an attempt that appended |
| RelayDelivery.LostForGood | core/outbox.py:85-91 | what is not in the stream when its row is settled never gets there |
| RelayDelivery.FiveFailuresLoseEvent | core/outbox.py:107-114 | five failing batches leave the row FAILED and the stream empty |
| Consumer.Accounting | core/streams.py:92-123 | in every run each message read is acknowledged or pending, acknowledged ones were handled or dead-lettered, none is tried twice, and pending messages are at most one batch per cut-short turn |
| Consumer.TurnStep | core/streams.py:92-123 | a turn strands a tail of its own batch, empty unless it was cut short, and keeps what was stranded |
| Consumer.NothingPending | core/streams.py:105-116 | with no turn cut short nothing is pending, and each message is where its handler's outcome puts it |
| Consumer.SmoothRun | core/streams.py:105-116 | without broker failures handled and dead-lettered messages are exactly those whose handler completed or raised |
| Consumer.StrandedForGood | core/streams.py:95-101 | what is pending between two turns stays pending for the rest of the run |
| ConsumerDelivery.TurnExactly | core/streams.py:92-123 | from the read's reply and the messages' outcomes alone, exactly what a turn strands, handles and dead-letters: the whole batch if the reply was lost, else what follows the first message that cuts it short, and that message if no acknowledgement took effect |
| ConsumerDelivery.MessageTable | core/streams.py:109-120 | what happens to one message, by the outcomes of handler, acknowledgements and dead-letter append |
| ConsumerDelivery.ReadExactly | core/streams.py:95-123 | how far a read moves the group, that a lost reply is retried and a cancellation ends the loop |
| ConsumerDelivery.ExactDelivery | core/streams.py:92-123 | the same for whole runs: which messages are read, pending, handled and dead-lettered |
| ConsumerDelivery.NothingLostIff | core/streams.py:92-123 | every message read is handled or dead-lettered iff each turn takes nothing, or gets its reply and is cut short at most by a last message that was delivered |
| ConsumerDelivery.NothingPendingIff | core/streams.py:92-123 | nothing is pending iff each turn takes nothing, or gets its reply and is cut short at most by a last message that was acknowledged |
| ConsumerDelivery.LostReplyLosesMessage | core/streams.py:95-101 | a lost reply to a read loses its message whatever follows |
| Consumer.RedisStreamBroker.ProcessMessage | core/streams.py:109-116 | one message: handle, acknowledge, and on an error dead-letter and acknowledge |
| Consumer.RedisStreamBroker.ConsumeLoop | core/streams.py:75-123 | the nested loops with their two exception handlers compute the modelled run |
| Notifier.NotifiesFirstOccurrences | services/notifier/app.py:25-58 | for every stream the notifications are those of the first relevant entries, in stream order |
| Notifier.HandleTable | services/notifier/app.py:29-58 | type by type, which events are notified, how, and which are recorded |
| Notifier.EveryNoticeIsTrue | services/notifier/app.py:34-50 | every notification has the id and order of an entry and its notice is that entry's type |
| Notifier.ExactlyOnce | services/notifier/app.py:25-58 | an event id is notified once if it has a confirmed or cancelled entry, never otherwise |
| Notifier.DedupIsEnoughIff | services/notifier/app.py:29-58 | handling a stream equals handling only the first entry of every id iff no id changes from an unknown to a known type |
| Notifier.TypeChangeIsNotified | services/notifier/app.py:52-55 | a stream on which the two differ |
| Notifier.EndToEnd | services/notifier/app.py:25-58 | over any relay run and any delivery with duplicates and reordering: one notification per delivered event of the two types, none missing for PUBLISHED rows, none invented |
| Pipeline.OncePerHandledEvent | core/streams.py:105-116 | relay, consumer and notifier together, whatever fails: a row is notified once if it is of the two types and its handling completed, otherwise never, and nothing is invented |
| Pipeline.ExactlyOnceEndToEnd | services/notifier/app.py:25-58 | with a consumer that the broker does not fail and that has read the stream, every PUBLISHED row of the two types has exactly one notification |
| Notifier.NotifierService.HandleEvent | services/notifier/app.py:25-58 | handles one event and extends the handled stream by it |
| RateLimiter.PrunedListIsEnough | core/rate_limiter.py:55-81 | the pruned list accepts exactly when the full acceptance history has fewer than max entries in the window |
| RateLimiter.WindowBound | core/rate_limiter.py:60-81 | no half-open interval of the window's length has more than max acceptances |
| RateLimiter.RetryHintSuffices | core/rate_limiter.py:66-81 | a rejection's reset is between 1 and window + 1 and a request that waits so long is accepted |
| RateLimiter.RetryHintIsTight | core/rate_limiter.py:73-76 | a request more than a second before the hint is rejected again |
| RateLimiter.VerdictSays | core/rate_limiter.py:69-81 | limit, remaining and reset in terms of the full acceptance history |
| RateLimiter.KeysAreIndependent | core/rate_limiter.py:53-81 | under any interleaving each key is limited as if it were alone |
| RateLimiter.SlidingWindowRateLimiter.Cleanup | core/rate_limiter.py:55-58 | keeps exactly the timestamps after the cutoff, in order |
| RateLimiter.SlidingWindowRateLimiter.Check | core/rate_limiter.py:60-81 | decides one request and leaves other keys alone |
| ResilientHttp.CounterIsTrailingRun | core/http.py:43-67 | under any interleaving failure_count is the trailing run of failures and the circuit is CLOSED iff that run is below the threshold |
| ResilientHttp.TrippedState | core/http.py:43-67 | over any interleaving a tripped circuit is HALF_OPEN iff a check came later than the timeout after the last trip, and OPEN since that trip otherwise |
| ResilientHttp.ProbeDecides | core/http.py:93-118 | after the timeout an open circuit lets a probe through; success closes and clears, giving up reopens from that failure |
| ResilientHttp.BlockedIff | core/http.py:93-97 | a request is blocked iff the circuit is open and the timeout has not passed |
| ResilientHttp.ReplyExactly | core/http.py:104-126 | returns at the first good response, lets the first other exception through, gives up iff all attempts fail |
| ResilientHttp.BackoffSum | core/http.py:120-124 | sleeps within their intervals add up to at most the geometric bound |
| ResilientHttp.OpenUntilTimeout | core/http.py:43-49 | with no success since the trip, every request within the recovery timeout is blocked |
| ResilientHttp.TripCost | core/http.py:58-67 | in sequential runs a trip from CLOSED costs exactly threshold * (max_retries + 1) failed attempts by requests that gave up since the last success |
| ResilientHttp.GaveUpTriedAll | core/http.py:104-118 | a request gives up iff all max_retries + 1 attempts fail, and makes no attempt after one that does not |
| ResilientHttp.ResilientHttpClient.Request | core/http.py:85-126 | blocked iff open within the timeout; otherwise the specified attempts, one sleep between each two, in total at most 0.2 * (2^(max_retries + 1) - 2) |
| ResilientHttp.CircuitBreaker.CheckState | core/http.py:43-49 | moves OPEN to HALF_OPEN once the timeout has passed |
| ResilientHttp.CircuitBreaker.RecordSuccess | core/http.py:51-56 | closes the circuit and clears the counter |
| ResilientHttp.CircuitBreaker.RecordFailure | core/http.py:58-67 | counts, trips at the threshold, and returns HALF_OPEN to OPEN |

## Left out

- Concurrent releases and releases in the saga: release takes no row lock and stores no key, and the saga never calls it, so claims about it are for serial runs of a process that keeps its cache.
- `set_stock` and the stock endpoints: single assignments and lookups.
- The order status callback of the saga: best effort, its errors are swallowed, and it says nothing about the saga.
- Message texts, error reasons, timestamps of rows, metrics, logging and the chaos settings of the payment service (a decline is an input).
- Several relays at once: two would publish the same rows without any guard.
- Redis stream trimming and redelivery by other consumers of a group.
- Serialisation of event envelopes: a stream entry is a record of event id, type and order id.
- Floating-point rounding of amounts and times.
- The idempotency store as a class of its own: a dictionary with `get` and `set`, used as a map here.
- Web UI, ops console, machine-learning code, authentication, webhooks, monitoring, order listing.
