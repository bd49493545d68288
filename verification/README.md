# ShinGo: orders, inventory, counters and streams

A Dafny model of the two ShinGo nodes and proofs of what their code keeps. **Edge** (the shop floor) reads PLC
counters, draws down payloads, raises orders and confirms deliveries. **Core** claims inventory, dispatches robots
through the fleet manager and moves stock when a receipt arrives. They exchange messages through outboxes.

Verify with `dafny verify dfyconfig.toml --resource-limit 2000000 --verification-time-limit 0`.

## How it is put together

Every stateful part comes twice: a `class` whose methods do what the code does to its fields, and a datatype with a
step function. Each method is proved to take the state where the step function says; the step functions are what the
lemmas about runs speak of.

| file | part |
|---|---|
| `Protocol.dfy` | statuses, order types and messages both nodes share |
| `EdgeOrders.dfy`, `EdgeNode.dfy` | edge order manager and engine wiring: step functions; the class |
| `EdgeLifecycle.dfy` | one order over every run: history, completion, message language, replayed replies |
| `EdgeAnswers.dfy` | what each message and operation does to an order, in every state a run of the edge can reach |
| `Replenishment.dfy` | one outstanding replenishment per payload; consumption independent of batching |
| `CoreTables.dfy`, `StorageQuery.dfy` | core's inventory queries; the SQL of the source and storage queries against their meaning |
| `CoreState.dfy`, `CoreDispatch.dfy`, `CoreNode.dfy` | core's tables, cache and handlers: step functions; the class |
| `CoreClaims.dfy`, `CoreRuns.dfy` | inventory claims, exactly one reply, conservation, successive retrieves |
| `CoreAnswers.dfy` | every outcome of every message and fleet report: row, payload rows, history, reply |
| `ClaimLeaks.dfy` | which step makes a claim outlive its order |
| `CacheAgreement.dfy` | the Redis cache against SQL |
| `OrderSystem.dfy`, `TypeCodes.dfy` | any number of edges and core over a network that loses, repeats and reorders |
| `Walkthrough.dfy`, `StockMoves.dfy` | concrete runs of both nodes: a store order, and a retrieve whose receipt moves stock |
| `EdgeOutbox.dfy` | bounded retries, batches, purging, no starvation |
| `EventStream.dfy`, `EventFields.dfy` | the event-stream reader against the event hub's printer, and against any lines a server may send |
| `Production.dfy`, `HourlyCounts.dfy` | production totals to core; hourly buckets |
| `Counter.dfy` | counter deltas with 16- and 32-bit wrap, polling |
| `Changeover.dfy` | changeover machines and recovery from their shared log |
| `Poller.dfy` | the fleet poller's change detection |

## Conventions

- Tables are sequences of rows in insertion order. Order ids are positions (order rows are never deleted); an edge
  payload's id is its position in the table listed by location. A lookup by a non-unique column takes the newest row.
- Fresh identifiers (order UUIDs, the random part of a vendor id), times, the fleet's answers and the row a query picks
  among equals come in with the step. On the edge an insert whose UUID is taken, or whose payload does not exist, is
  refused, as the UNIQUE and foreign-key constraints do. `CoreDispatch.Enabled` says which choices the queries allow.
- The network is the set of outbox entries: a step may deliver any entry, any number of times, at any later moment.
- Handlers, poll iterations and drains are atomic. Database, cache and codec operations succeed, except that storing the
  acknowledgement of a publish may fail (`EdgeOutbox.SentNotAcked`).
- Event emission is a direct call in registration order. Free-text details are abbreviated to codes; the detail of a
  history entry made by a fleet report keeps the fleet state.
- Quantities are reals, production counts and timestamps integers. Counter arithmetic is 64-bit with wrap-around.
- For the claims results core's schema constraints hold and node names are not empty (`CoreDispatch.Configured`); node
  and payload-type rows are fixed.

## What turned out to be different

- `ManualRetrieveBreaksTheBound`: an operator's own retrieve order for a payload can lead to two live replenishments.
  `StepAtMostOne` gives the exact condition for one step.
- `StatusDependsOnBatching`: remaining units and event counts do not depend on how production is split over deltas, the
  final payload status does. `StatusExact` gives it from the total and the last delta; `SameStatusIff` and
  `StatusSplitIff` say when splits agree: always, unless the total uses up an active auto-reordering row whose reorder
  point is not negative and can be crossed before the last unit.
- `EdgeRequestsNeedANamelessType`: the edge never fills in the payload type code of an `order.request`, so core answers
  each one with `payload_type_error` unless a payload type with the empty name exists.
- `FailedOrderKeepsItsClaim`: a claim can outlive its order; the code releases nothing when the fleet fails or stops one.
  `StepLeaksIff` gives the exact step: a report of FAILED or STOPPED whose vendor id is that of an order holding a
  payload. `ClaimsNeverLeak` says that over every run this is the one way.
- `UnackedRepeats`: a message among the first fifty pending whose acknowledgement is never stored is published in every
  connected drain, its refusals unchanged; `AttemptsBounded` bounds the attempts by ten plus the unacknowledged ones.
  The starvation bound counts drains in which every publish of the message and those ahead of it that succeeds is recorded.
- `ParserUndoesPrinter`: the round trip holds exactly when every line fits the scanner's 64 KiB buffer and no value ends
  in CR; a longer line ends the stream with an error.
- `Conservation`: core drops the empty category, so for it production is conserved exactly until a report naming it is
  consumed.
- `Exact32Iff`, `Exact16`: a 32-bit counter is decoded exactly at every reading if and only if the jump threshold is at
  most 2^32 - 2^16; a 16-bit one if and only if less than 2^16 was produced between polls.
- `OverflowIff`: the counter's 64-bit arithmetic decides as unbounded arithmetic would exactly when the new count exceeds
  the last by less than 2^63, so only a step up from a negative reading can overflow.
- `docs/wire-protocol.md` (lines 594-625) calls the edge's first status `queued` and core's last one `completed`; the code
  starts with pending and completes a confirmed order by a timestamp. The model follows the code.

## Model

| member | source | states |
|---|---|---|
| `EdgeNode.Node.TransitionOrder` | shingo-edge/orders/manager.go:157-196 | succeeds exactly when the table (see `TransitionTable`) allows it and a store order's count is confirmed; then status, history, events and (on completion) the payload refill are those of the step, otherwise nothing changes |
| `EdgeNode.Node.HandleOrderCompleted` | shingo-edge/engine/wiring.go:111-150 | completing a retrieve order refills exactly its linked payload and announces it |
| `EdgeNode.Node.CreateRetrieveOrder` | shingo-edge/orders/manager.go:51-95 | succeeds exactly when the UUID is new and the payload exists: inserted, requested and submitted in one go; otherwise nothing changes |
| `EdgeNode.Node.CreateMoveOrder` | shingo-edge/orders/manager.go:113-154 | the same for move orders, success included |
| `EdgeNode.Node.CreateStoreOrder` | shingo-edge/orders/manager.go:98-110 | under the same condition a store order is inserted, and no request leaves |
| `EdgeNode.Node.SubmitOrder` | shingo-edge/orders/manager.go:253-284 | succeeds exactly when the order may become submitted; a counted store order then sends its waybill, carrying the count |
| `EdgeNode.Node.AbortOrder` | shingo-edge/orders/manager.go:199-223 | succeeds exactly for an order that exists, is not terminal and may be cancelled: cancelled, with a cancel message; otherwise left alone |
| `EdgeNode.Node.RedirectOrder` | shingo-edge/orders/manager.go:226-250 | succeeds exactly for an order that exists and is not terminal: new delivery node, redirect message |
| `EdgeNode.Node.UpdateOrderFinalCount` | shingo-edge/store/orders.go:170-173 | count stored and confirmed |
| `EdgeNode.Node.ConfirmDelivery` | shingo-edge/orders/manager.go:287-315 | succeeds exactly for a delivered order: count, receipt, confirmed |
| `EdgeNode.Node.HandleDispatchReply` | shingo-edge/orders/manager.go:318-356 | the reply's effect, and whether it was acted on or refused |
| `EdgeNode.Node.HandleCounterDelta` | shingo-edge/engine/wiring.go:34-89 | the loop over the rows listed before it equals drawing each listed row once, in order |
| `EdgeNode.Node.ConsumePayload` | shingo-edge/engine/wiring.go:48-89 | saturating draw, empty and reorder events, reorder order |
| `EdgeNode.Node.HandlePayloadReorder` | shingo-edge/engine/wiring.go:92-109 | a reorder raises one retrieve order for the payload |
| `EdgeLifecycle.StepKeeps` | shingo-edge/orders/manager.go:51-356 | every operation keeps: chained histories, one completion per terminal order, the message automaton; nothing logged is ever lost and ranks never fall |
| `EdgeLifecycle.Lifecycle` | shingo-edge/orders/types.go:24-47 | over every run: history is the beginning of pending, submitted, acknowledged, in transit, delivered, confirmed, or such a beginning and one hop to failed or cancelled; completed once iff terminal, submitted store orders are counted |
| `EdgeLifecycle.TerminalAbsorbing` | shingo-edge/orders/types.go:24-47 | a terminal order keeps status and history in every continuation |
| `EdgeLifecycle.AcceptedWords` | shingo-edge/orders/manager.go:199-315 | the automaton accepts only words of the message language |
| `EdgeLifecycle.MessageLanguage` | shingo-edge/orders/manager.go:51-315 | an order's messages are request redirect* (cancel or receipt)?, for store orders redirect* (waybill redirect*)? (cancel or receipt)? with receipt only after waybill; receipt present iff confirmed |
| `EdgeLifecycle.ReplaySafe` | shingo-edge/orders/manager.go:318-356 | a reply accepted once changes no status, history, event, payload or message when it arrives again at any later time |
| `EdgeAnswers.TransitionTable` | shingo-edge/orders/types.go:24-47 | the table allows exactly the five steps from pending to confirmed and, from each status before confirmed, failing and cancelling |
| `EdgeAnswers.StatusReached` | shingo-edge/orders/types.go:13-22 | over every run an edge order is in one of these eight statuses, never in one of core's own |
| `EdgeAnswers.AckAnswer` | shingo-edge/orders/manager.go:324-326 | over every run an ack is accepted iff the order is submitted: acknowledged, recorded and announced; otherwise nothing changes |
| `EdgeAnswers.WaybillAnswer` | shingo-edge/orders/manager.go:327-331 | over every run a waybill stores number and ETA, and is accepted iff the order is acknowledged: in transit |
| `EdgeAnswers.UpdateAnswer` | shingo-edge/orders/manager.go:332-339 | over every run an update stores a non-empty ETA and changes nothing else |
| `EdgeAnswers.DeliveredAnswer` | shingo-edge/orders/manager.go:340-348 | over every run a delivered notice is accepted iff the order is in transit: delivered, and with automatic confirmation confirmed and receipted with the ordered quantity |
| `EdgeAnswers.FailureAnswer` | shingo-edge/orders/manager.go:349-352 | over every run an error fails and a cancellation cancels the order iff it is not terminal; a closed retrieve refills its payload |
| `EdgeAnswers.StrayAnswer` | shingo-edge/orders/manager.go:318-323 | a reply that names no order is refused and changes nothing |
| `EdgeAnswers.SubmitAnswer` | shingo-edge/orders/manager.go:253-284 | over every run exactly pending orders, store orders once counted, are submitted; the waybill names pickup node and count |
| `EdgeAnswers.AbortAnswer` | shingo-edge/orders/manager.go:199-223 | over every run exactly the orders that are not terminal are cancelled, with a cancel message that says why |
| `EdgeAnswers.RedirectAnswer` | shingo-edge/orders/manager.go:226-250 | over every run exactly the orders that are not terminal get the new delivery node, with a redirect message |
| `EdgeAnswers.CountAnswer` | shingo-edge/orders/manager.go:287-315 | a count is stored and confirmed; confirming a delivered order adds the receipt with that count, any other order stays as it is |
| `EdgeAnswers.RetrieveAnswer` | shingo-edge/orders/manager.go:51-95 | the row made, the request sent, the history and events, field by field; or nothing on a used UUID or unknown payload |
| `EdgeAnswers.MoveAnswer` | shingo-edge/orders/manager.go:113-154 | the same for a move, which names its pickup node |
| `EdgeAnswers.StoreAnswer` | shingo-edge/orders/manager.go:98-110 | the same for a store order, which stays pending and sends nothing |
| `EdgeAnswers.DeltaOrdersOnly` | shingo-edge/engine/wiring.go:34-109 | every order a counter delta makes is the replenishment of a row of the style that crossed its reorder point, with that row's node, staging node and quantity |
| `EdgeAnswers.DeltaAnswer` | shingo-edge/engine/wiring.go:34-109 | every row of the style that crosses is replenished when its UUID is new; without a job style a delta does nothing |
| `EdgeAnswers.SettingAnswer` | shingo-edge/store/payloads.go:136-146 | reorder point and reorder switch are stored in their row and no other |
| `Replenishment.CreateExact` | shingo-edge/orders/manager.go:51-95 | inserting a retrieve order keeps the one-live-order bound iff none is live and the payload waits |
| `Replenishment.StepAtMostOne` | shingo-edge/engine/wiring.go:34-150 | any step keeps the bound iff it is no untimely manual retrieve |
| `Replenishment.SingleOutstanding` | shingo-edge/engine/wiring.go:34-150 | over every careful run at most one live retrieve per payload, and the payload is replenishing or empty meanwhile |
| `Replenishment.SingleOutstandingFromInit` | shingo-edge/engine/wiring.go:92-109 | in particular when retrieves for the payload come only from reorder events |
| `Replenishment.ManualRetrieveBreaksTheBound` | shingo-edge/orders/manager.go:51-95 | a concrete run with a manual retrieve ends with two live ones |
| `Replenishment.BatchingIndependence` | shingo-edge/engine/wiring.go:48-89 | however a total is split over deltas, remaining is max(0, R - total) and reorder and empty events depend on the total alone, each at most one |
| `Replenishment.StatusExact` | shingo-edge/engine/wiring.go:48-89 | for every regular row and every non-empty sequence of positive deltas, the final status as a function of the total and the last delta |
| `Replenishment.SameStatusIff` | shingo-edge/engine/wiring.go:48-89 | two splits of one total end in the same status iff the row is not contested or both cross the reorder point with their last delta, or neither does |
| `Replenishment.StatusSplitIff` | shingo-edge/engine/wiring.go:48-89 | all splits of a total end in the same status iff the row is not contested or the reorder point can be crossed by the last unit only |
| `Replenishment.StatusDependsOnBatching` | shingo-edge/engine/wiring.go:55-82 | two concrete runs from an initial state: ten units at once leave the row replenishing, five and five leave it empty |
| `CoreTables.FindSourcePayloadFIFO` | shingo-core/store/payloads.go:165-177 | an eligible payload no other eligible one is older than, or none if nothing is eligible |
| `CoreTables.ListByNodeIs` | shingo-core/store/payloads.go:131-138 | the listing of a node is every payload at it, highest id first |
| `CoreTables.Consolidate` | shingo-core/store/payloads.go:179-197 | a node with room holding most of the type, if any holds one |
| `CoreTables.Emptiest` | shingo-core/store/payloads.go:198-211 | a node with room of least occupancy |
| `CoreTables.FindStorageDestination` | shingo-core/store/payloads.go:179-211 | consolidation first, else least occupancy; none exactly when no storage node has room |
| `StorageQuery.QueryMeansDestination` | shingo-core/store/payloads.go:179-211 | the joins, grouping, COUNT(DISTINCT) and HAVING return exactly the intended choices, for every table content |
| `StorageQuery.QueryMeansSource` | shingo-core/store/payloads.go:165-177 | the joins and the WHERE, ORDER BY and LIMIT clauses return exactly the intended FIFO choices, for every table content |
| `CoreNode.Server.HandleOrderRequest` | shingo-core/dispatch/dispatcher.go:44-103 | request handling, with query results the queries may return |
| `CoreNode.Server.RetrieveOrder` | shingo-core/dispatch/dispatcher.go:105-140 | FIFO source claimed for the order, or the order failed |
| `CoreNode.Server.FindMovable` | shingo-core/dispatch/dispatcher.go:156-176 | the scan finds the first unclaimed payload of the type in the node's listing |
| `CoreNode.Server.MoveOrder` | shingo-core/dispatch/dispatcher.go:142-185 | the move's validation, claim and dispatch |
| `CoreNode.Server.StoreOrder` | shingo-core/dispatch/dispatcher.go:187-231 | destination chosen and recorded; without a pickup node it doubles as pickup |
| `CoreNode.Server.DispatchTransport` | shingo-core/dispatch/dispatcher.go:233-264 | accepted: vendor id, dispatched, ack; rejected: failed |
| `CoreNode.Server.FailOrder` | shingo-core/dispatch/dispatcher.go:398-404 | failed, claims released, error sent |
| `CoreNode.Server.UnclaimOrderPayloads` | shingo-core/dispatch/dispatcher.go:406-422 | the loop releases exactly the rows the order claims |
| `CoreNode.Server.HandleOrderCancel` | shingo-core/dispatch/dispatcher.go:267-310 | claims released, cancelled, edge told; unknown orders ignored |
| `CoreNode.Server.HandleOrderReceipt` | shingo-core/dispatch/dispatcher.go:313-328 | two confirmed entries, completed, inventory moved |
| `CoreNode.Server.HandleOrderCompleted` | shingo-core/engine/wiring.go:191-226 | the loop moves every payload the order claims to its stored delivery node |
| `CoreNode.Server.HandleOrderRedirect` | shingo-core/dispatch/dispatcher.go:331-370 | re-dispatch to the new node; the row keeps its old destination |
| `CoreNode.Server.HandleOrderStorageWaybill` | shingo-core/dispatch/dispatcher.go:373-396 | a store order made from the waybill and handled like a requested one |
| `CoreNode.Server.HandleVendorStatusChange` | shingo-core/engine/wiring.go:85-164 | robot and waybill, status change and update, terminal states closed |
| `CoreNode.Server.AdvanceOrder` | shingo-core/engine/wiring.go:118-188 | a status change with its messages; delivered notice after the delivered entry |
| `CoreNode.Server.Add` | shingo-core/nodestate/manager.go:36-45 | row inserted, its node refreshed |
| `CoreNode.Server.Remove` | shingo-core/nodestate/manager.go:47-60 | row deleted, its node refreshed |
| `CoreNode.Server.Move` | shingo-core/nodestate/manager.go:62-79 | moved and unclaimed, the node left and the node reached refreshed |
| `CoreNode.Server.Refresh` | shingo-core/nodestate/manager.go:187-213 | cached items and count are the node's listing |
| `CoreNode.Server.FlushAll` | shingo-core/nodestate/redis.go:118-127 | entries of known nodes and the set itself are dropped, others stay |
| `CoreNode.Server.SyncRedisFromSQL` | shingo-core/nodestate/manager.go:139-167 | the loop rebuilds meta, items and counts of every node |
| `CoreNode.Server.Read` | shingo-core/nodestate/manager.go:82-105 | cache on a meta hit, SQL otherwise |
| `CoreNode.Server.FindByUuid` | shingo-core/store/orders.go:154-157 | the newest order with the UUID |
| `CoreNode.Server.FindByVendor` | shingo-core/store/orders.go:159-162 | the newest order with the vendor id |
| `CoreClaims.RetrieveSourced` | shingo-core/dispatch/dispatcher.go:105-140 | every exit of a retrieve: dispatched with a resolvable route, or failed and holding nothing, one reply |
| `CoreClaims.MoveSourced` | shingo-core/dispatch/dispatcher.go:142-185 | the same for a move |
| `CoreClaims.StoreSourced` | shingo-core/dispatch/dispatcher.go:187-231 | the same for a store order, which never claims |
| `CoreClaims.CancelKeeps` | shingo-core/dispatch/dispatcher.go:267-310 | a cancelled order holds nothing, nothing else changes |
| `CoreClaims.RedirectKeeps` | shingo-core/dispatch/dispatcher.go:331-370 | a redirect touches only its own order's claims |
| `CoreClaims.ReportKeeps` | shingo-core/engine/wiring.go:85-164 | a fleet report changes no payload and keeps the claims invariant |
| `CoreClaims.CompletedRows` | shingo-core/engine/wiring.go:191-226 | row by row: the order's payloads land at its delivery node unclaimed, every other row is untouched |
| `CoreAnswers.UnknownTypeAnswer` | shingo-core/dispatch/dispatcher.go:65-73 | a request for a type nobody knows gets one error and makes no order |
| `CoreAnswers.UnknownNodeAnswer` | shingo-core/dispatch/dispatcher.go:44-103 | a request for an unknown delivery node gets one error and makes no order |
| `CoreAnswers.OtherTypeAnswer` | shingo-core/dispatch/dispatcher.go:44-103 | an order of an unknown type is made, failed and answered with an error |
| `CoreAnswers.RetrieveAnswer` | shingo-core/dispatch/dispatcher.go:105-140 | every outcome: the chosen payload claimed and picked up where it is, or a failed order and every row as before; row, history and reply field by field |
| `CoreAnswers.MoveTakesNewest` | shingo-core/dispatch/dispatcher.go:156-176 | a move takes the newest unclaimed payload of the type at the node, if there is one |
| `CoreAnswers.MoveAnswer` | shingo-core/dispatch/dispatcher.go:142-185 | every outcome of a move, from the node it names |
| `CoreAnswers.StoreAnswer` | shingo-core/dispatch/dispatcher.go:187-231 | every outcome: picked up at the node the message names, or at the destination if it names none; delivered to the destination; the ack names the pickup node; nothing claimed |
| `CoreAnswers.WaybillAnswer` | shingo-core/dispatch/dispatcher.go:373-396 | a storage waybill has the same outcomes, from the waybill's pickup node |
| `CoreAnswers.CancelAnswer` | shingo-core/dispatch/dispatcher.go:267-310 | the newest order of the UUID is cancelled in any status, its claims released, its sender answered with its own reason |
| `CoreAnswers.ReceiptAnswer` | shingo-core/dispatch/dispatcher.go:313-328 | the order is confirmed and completed, its payloads land at its delivery node, nothing is sent |
| `CoreAnswers.RedirectAnswer` | shingo-core/dispatch/dispatcher.go:331-370 | turned down for an unknown node or pickup; else dispatched anew with its stored delivery node, or failed if the fleet rejects |
| `CoreAnswers.ReportAnswer` | shingo-core/engine/wiring.go:85-188 | after a report the order has the status the fleet state means, state by state; waybill, update and delivered notice go to its station exactly when a robot is first named, the status changes, and the transport has finished |
| `CoreAnswers.AddAnswer` | shingo-core/nodestate/manager.go:36-45 | a free row with the next id, if type and node exist; otherwise nothing |
| `CoreAnswers.RemoveAnswer` | shingo-core/nodestate/manager.go:47-60 | that row is gone and no other, the order of the rest kept |
| `CoreAnswers.ReadAnswer` | shingo-core/nodestate/manager.go:82-105 | read from the tables, a node has one item per payload at it, with the payload's fields, newest first |
| `CoreRuns.StepKeeps` | shingo-core/dispatch/dispatcher.go:44-422 | every step of core keeps the claims invariant and the table constraints |
| `CoreRuns.ClaimsNeverLeak` | shingo-core/dispatch/dispatcher.go:398-422 | over every run a claimed payload sits at a node and its order is dispatched, in transit or delivered, unless FAILED or STOPPED by the fleet is the last thing that happened to it |
| `ClaimLeaks.ReportLeaksIff` | shingo-core/engine/wiring.go:85-164 | with every claim held by an order under way, a fleet report keeps that iff it does not fail or stop an order holding a payload |
| `ClaimLeaks.StepLeaksIff` | shingo-core/engine/wiring.go:145-163 | the same for any step of core: it is lost iff the step is such a report |
| `ClaimLeaks.LeakFreeRun` | shingo-core/dispatch/dispatcher.go:398-422 | over every run without such a report every claim is held by an order under way |
| `ClaimLeaks.FailedOrderKeepsItsClaim` | shingo-core/engine/wiring.go:151-160 | a concrete run: the fleet fails a dispatched retrieve, and the payload stays claimed by the failed order |
| `CoreRuns.NoClaimOverwritten` | shingo-core/store/payloads.go:147-157 | except by a receipt no step moves a row; a held claim is kept or released, a new one belongs to the order being made |
| `CoreRuns.ReceiptConserves` | shingo-core/engine/wiring.go:191-226 | a receipt relocates exactly what its order claims and frees it; other rows, the set of ids and the sum of per-node counts stay |
| `CoreRuns.RepeatedReceiptMovesNothing` | shingo-core/dispatch/dispatcher.go:313-328 | a later receipt for the same order moves nothing, whatever ran in between |
| `CoreRuns.ExactlyOneReply` | shingo-core/dispatch/dispatcher.go:44-264 | each request or waybill appends one ack or error, correlated and addressed to its sender; ack iff dispatched, and only if the fleet accepted; on error any order made is failed and empty-handed |
| `CoreRuns.SuccessiveRetrieves` | shingo-core/dispatch/dispatcher.go:105-140 | k dispatched retrieves of a type take k distinct payloads, none newer than one still eligible |
| `CacheAgreement.SyncAgrees` | shingo-core/nodestate/manager.go:139-167 | a sync brings every node into agreement with SQL and leaves no other |
| `CacheAgreement.SyncKeys` | shingo-core/nodestate/redis.go:118-127 | a sync leaves entries for exactly the current nodes and for ids it never knew of |
| `CacheAgreement.StepAgrees` | shingo-core/nodestate/manager.go:36-79 | every step of core keeps the agreement |
| `CacheAgreement.CacheIsSQL` | shingo-core/nodestate/manager.go:82-105 | after a sync and any run, reading any node from the cache equals reading it from SQL up to the claimed-by field, and the count is the SQL count |
| `OrderSystem.ReplyHops` | shingo-edge/messaging/edge_handler.go:75-115 | a reply adds no history but the hop it asks for on the order it names, and the edge's own |
| `OrderSystem.DeliveredToAddressee` | protocol/types.go:47 | a core message changes no edge but one it is addressed to, by station or to all |
| `OrderSystem.AdvanceOk` | shingo-core/engine/wiring.go:118-188 | core's messages are backed by its record: a delivered notice follows dispatched and then delivered |
| `OrderSystem.CoreStepOk` | shingo-core/messaging/core_handler.go:173-201 | no step but a receipt records confirmed, and every message sent stays backed |
| `OrderSystem.ReceiptMeansConfirmed` | shingo-edge/orders/manager.go:287-315 | a receipt in an outbox means its order went through the whole chain |
| `OrderSystem.Causality` | shingo-core/dispatch/dispatcher.go:313-328 | under loss, repetition and reordering: core records confirmed for a UUID only if an edge order of that UUID went through the whole chain, and only after dispatched and then delivered were recorded for it |
| `OrderSystem.EdgeFollowsCore` | shingo-edge/orders/manager.go:318-356 | an edge order is acknowledged or in transit only after core recorded dispatched, delivered only after dispatched and delivered |
| `OrderSystem.InventoryFollowsConfirmation` | shingo-core/engine/wiring.go:191-226 | a payload changes place only on delivery of a receipt whose order went through the whole chain |
| `TypeCodes.EdgeRequestsNeedANamelessType` | shingo-core/dispatch/dispatcher.go:65-73 | a request from an edge is refused for its payload type iff no type has the empty name |
| `Walkthrough.ConfirmationIsReachable` | shingo-core/dispatch/dispatcher.go:373-396 | a concrete run of both nodes in which core confirms a store order |
| `StockMoves.ReceiptMovesStock` | shingo-core/engine/wiring.go:191-226 | a concrete enabled run of both nodes whose receipt moves the claimed payload from the shelf to the line, frees it and confirms the order |
| `EdgeOutbox.Drainer.EnqueueOutbox` | shingo-edge/store/outbox.go:15-21 | appended with the next id |
| `EdgeOutbox.Drainer.DrainBatch` | shingo-edge/messaging/outbox.go:77-103 | the loop publishes the first fifty pending rows, each once, going on after failures |
| `EdgeOutbox.Drainer.DrainCycle` | shingo-edge/messaging/outbox.go:47-75 | one turn of the loop, with the purge every hundredth |
| `EdgeOutbox.PurgeSparesPending` | shingo-edge/store/outbox.go:58-65 | purging removes no pending row and keeps their order |
| `EdgeOutbox.PublishAllRow` | shingo-edge/store/outbox.go:46-54 | a batch changes exactly the listed rows, each as its publish went |
| `EdgeOutbox.ListedIff` | shingo-edge/store/outbox.go:27-44 | a pending message is listed iff fewer than fifty pending ones have lower ids |
| `EdgeOutbox.DrainPublishes` | shingo-edge/messaging/outbox.go:77-103 | a connected drain publishes exactly those, in id order, each once; an unconnected one does nothing |
| `EdgeOutbox.TickPurges` | shingo-edge/store/outbox.go:58-65 | with every hundredth cycle exactly the rows sent or given up that are over a day old go |
| `EdgeOutbox.RowsTellTheirStory` | shingo-edge/store/outbox.go:15-21 | over every run a row carries the time of its enqueueing and, once sent, that of the drain that sent it |
| `EdgeOutbox.AttemptsBounded` | shingo-edge/store/outbox.go:23-27 | over every run the publish attempts of a message are its refusals, recorded sends and unacknowledged publishes, at most ten beyond the last; with none unacknowledged at most ten attempts and one success |
| `EdgeOutbox.BatchByBatch` | shingo-edge/messaging/outbox.go:77-103 | ten clean drains settle a message or take fifty from ahead of it |
| `EdgeOutbox.NoStarvation` | shingo-edge/messaging/outbox.go:77-103 | the message at pending position k is sent or given up after ten refusals within 10 * (k / 50 + 1) clean drains, whatever else happens |
| `EdgeOutbox.UnackedRepeats` | shingo-edge/messaging/outbox.go:99-101 | from any reachable table, a waiting message with fewer than fifty ahead of it whose acknowledgement is never stored is published in every connected drain, whatever else is enqueued or drained, and still waits with its refusals unchanged |
| `EventStream.Reader.ScanLine` | shingo-edge/plc/sse_client.go:33-34 | the scanner's next line, its end, or failure at an oversized line; scanning on after that yields the full buffer once and then nothing |
| `EventStream.Reader.Next` | shingo-edge/plc/sse_client.go:28-86 | the loop returns the event the stream's lines spell, the rest left for the next call |
| `EventStream.Connection.Write` | shingo-edge/www/sse.go:134-138 | the text of one event or keepalive |
| `EventStream.Connection.HandleSSE` | shingo-edge/www/sse.go:111-142 | the greeting and every chunk, in order |
| `EventStream.NextConcat` | shingo-edge/plc/sse_client.go:36-43 | what follows a blank line does not affect the events before it |
| `EventStream.ParseConcat` | shingo-edge/plc/sse_client.go:36-43 | parsing distributes over concatenation at blank lines, up to the first oversized line |
| `EventStream.ChunkRead` | shingo-edge/www/sse.go:134-138 | one printed chunk is read as its event, as nothing, or as an error |
| `EventStream.PrintedIsParsed` | shingo-edge/www/sse.go:134-138 | for all one-line events and keepalives: those before the first oversized one come back in order, then end or error |
| `EventStream.ParserUndoesPrinter` | shingo-edge/plc/sse_client.go:28-86 | the round trip holds iff every line fits and none ends in CR |
| `EventStream.MultiLineData` | shingo-edge/plc/sse_client.go:60-66 | data over several lines comes back joined by LF |
| `EventFields.EventRead` | shingo-edge/plc/sse_client.go:28-86 | for any lines of names, data, ids, comments and unknown fields, with or without the space and with LF or CR LF: one event of the last name, all data joined by LF and the last id, at a blank line or at the end |
| `Production.Reporter.RecordDelta` | shingo-edge/messaging/production_reporter.go:39-52 | every category of the style gets the delta, by multiplicity; others and non-positive deltas change nothing |
| `Production.Reporter.Enqueue` | shingo-edge/messaging/production_reporter.go:91-119 | a report lists the snapshot, each category once |
| `Production.Reporter.Flush` | shingo-edge/messaging/production_reporter.go:80-119 | nothing to flush, or the accumulator becomes one report |
| `Production.Ledger.HandleProductionReport` | shingo-core/messaging/core_handler.go:203-218 | the loop accepts named positive entries: totals, log and accepted count |
| `Production.KeptConcat` | shingo-core/messaging/core_handler.go:203-218 | core judges each entry by itself, named and positive, and keeps the accepted ones in order |
| `Production.ListedSum` | shingo-edge/messaging/production_reporter.go:91-94 | in whatever order the map is listed, the report totals to the snapshot |
| `Production.Conservation` | shingo-core/messaging/core_handler.go:203-218 | recorded equals accumulator + snapshots in flight + unconsumed reports + log when reports are consumed at most once; for the empty category iff no consumed report names it |
| `Production.LogIsDelivered` | shingo-core/store/demands.go:108-133 | log and demand totals count a category once per consumption |
| `HourlyCounts.Tracker.UpsertHourlyCount` | shingo-edge/store/hourly_counts.go:15-24 | added to the key's row, or a new row |
| `HourlyCounts.Tracker.HandleDelta` | shingo-edge/engine/hourly_tracker.go:34-49 | deltas without line or style and reset deltas are skipped |
| `HourlyCounts.BucketsHoldEmitted` | shingo-edge/engine/hourly_tracker.go:34-49 | per line and style the buckets hold what was emitted less what came from resets |
| `HourlyCounts.EachInItsHour` | shingo-edge/engine/hourly_tracker.go:34-49 | the bucket of a line, style, date and hour holds exactly what was handled for them then, resets left out |
| `HourlyCounts.NoNamelessBucket` | shingo-edge/engine/hourly_tracker.go:34-37 | no bucket is without line or style |
| `HourlyCounts.OneBucketPerHour` | shingo-edge/store/hourly_counts.go:15-24 | no hour of a line and style has two buckets |
| `Counter.OverflowIff` | shingo-edge/plc/counter.go:12-44 | for all 64-bit readings and thresholds, the result is the one of unbounded arithmetic iff count - last < 2^63 |
| `Counter.NegativeReadingOverflows` | shingo-edge/plc/counter.go:27 | readings of which the last is not negative never overflow; a concrete pair does, with its delta |
| `Counter.Exact16` | shingo-edge/plc/counter.go:12-44 | a 16-bit counter within the threshold: no anomaly, right modulo 2^16, exact iff less than 2^16 was produced |
| `Counter.Exact32Iff` | shingo-edge/plc/counter.go:34-44 | a 32-bit counter is decoded exactly at every reading iff the threshold is at most 2^32 - 2^16 |
| `Counter.ReportingPoint.PollReportingPoint` | shingo-edge/plc/manager.go:540-591 | snapshot, last count, anomaly and delta events of one poll |
| `Counter.PollTotals` | shingo-edge/plc/manager.go:540-591 | what one poll adds to recorded, confirmed and emitted totals |
| `Counter.EmittedIsConfirmed` | shingo-edge/plc/manager.go:562-591 | what is emitted downstream is what was recorded as confirmed: resets in, jumps out |
| `Counter.ResetFreeRun` | shingo-edge/plc/counter.go:12-44 | without a recorded reset the last count is the first plus all recorded deltas modulo 2^16 |
| `Counter.RunIsExact` | shingo-edge/plc/manager.go:540-591 | within the decodable range a whole run reports no anomaly and emits true production |
| `Counter.CounterTrail` | shingo-edge/plc/manager.go:540-591 | over every run of readings that are not negative: last count, snapshots and events in closed form, by unbounded arithmetic |
| `Changeover.Database.GetLatestChangeoverState` | shingo-edge/store/changeover.go:60-70 | the newest entry of the line, or none |
| `Changeover.LineMachine.StartChangeover` | shingo-edge/changeover/machine.go:86-104 | refused while active; otherwise state, log entry and events of a start |
| `Changeover.LineMachine.AdvanceChangeover` | shingo-edge/changeover/machine.go:107-133 | succeeds exactly while active with a next state: that state, logged and announced; completion on return to running |
| `Changeover.LineMachine.CancelChangeover` | shingo-edge/changeover/machine.go:136-156 | back to running with styles cleared, logged and announced |
| `Changeover.LineMachine.Restore` | shingo-edge/changeover/machine.go:37-52 | a fresh machine takes what the line's newest entry says |
| `Changeover.RecoveryIsFaithful` | shingo-edge/changeover/machine.go:37-52 | after any interleaving over any number of lines, restarts included, a restored machine has the lost machine's state and activity, and its styles when active |
| `Changeover.StartedIsAccountedFor` | shingo-edge/changeover/machine.go:86-156 | active iff not running; started = completed + cancelled + one if active |
| `Changeover.ExactlySixAdvances` | shingo-edge/changeover/machine.go:107-133 | n advances of a line put it at stage n, the stages named one by one; completed exactly at the sixth |
| `Changeover.ChangeoverTrail` | shingo-edge/changeover/types.go:15-24 | a changeover goes stopping, counting out, storing, delivering, counting in, ready, running, one stage per advance, whatever other lines do and through restarts; its events and log entries are exactly those of the start and the advances |
| `Changeover.CancelTrail` | shingo-edge/changeover/machine.go:136-156 | cancelled at any stage: running without styles, the log entry without them too, the events with them; after the sixth advance refused |
| `Poller.FleetPoller.TrackOrder` | shingo-core/rds/poller.go:52-58 | a new id starts as CREATED, a tracked one is left as it is |
| `Poller.FleetPoller.UntrackOrder` | shingo-core/rds/poller.go:61-65 | forgotten |
| `Poller.FleetPoller.ActiveIds` | shingo-core/rds/poller.go:100-105 | every active id once, in some order |
| `Poller.FleetPoller.PollOrder` | shingo-core/rds/poller.go:115-154 | a changed state is stored or, when terminal, ends tracking; the change is emitted if the id resolves |
| `Poller.FleetPoller.Poll` | shingo-core/rds/poller.go:99-155 | the loop polls each id active at its start |
| `Poller.ActiveNeverTerminal` | shingo-core/rds/poller.go:136-143 | over every run no tracked state is terminal |
| `Poller.PolledOnce` | shingo-core/rds/poller.go:99-155 | for one order a poll is the poll of that order alone |
| `Poller.UpToTerminalIs` | shingo-core/rds/poller.go:136-143 | the cut used below is the longest prefix with no terminal state before its end |
| `Poller.DedupIs` | shingo-core/rds/poller.go:125-132 | removing repetitions leaves no equal neighbours, the same last state and the same states |
| `Poller.StutterFree` | shingo-core/rds/poller.go:99-155 | the changes emitted for a tracked order are the consecutive pairs of CREATED and the polled states without repetitions, up to the first terminal one, and nothing after |
| `Poller.PolledState` | shingo-core/rds/poller.go:107-143 | after a poll a tracked order has the state shown, is dropped at a new FINISHED, FAILED or STOPPED, and is as before when the fleet did not answer |
| `Poller.TrackAnswer` | shingo-core/rds/poller.go:52-65 | tracking starts once, at CREATED; untracking forgets; no other order is touched |
| `Poller.ChangesWereShown` | shingo-core/rds/poller.go:145-153 | every change emitted over a run was shown by one of its polls, with that vehicle, for the order the id resolves to |

## Left out

- Kafka, HTTP, SQL and Redis drivers, JSON encoding, UUID generation, clocks and failing database writes.
- Web handlers that write rows directly (payload and node edits, terminate, manual count, test orders, manual messages): they bypass the state machines and break the invariants above.
- The RDS REST client, scene synchronisation, robot control, WarLink discovery, configuration, heartbeats, stale-edge marking, time-to-live tables: plumbing or one-branch logic.
- The audit log, the wiring between dispatcher and poller (`Track` on dispatch, `Untrack` on redirect) and the fleet's answer to a cancel: none of them feeds back into the tables.
- The line id that polling adds to a counter delta by looking up its job style; bucketing starts from deltas that carry one.
- Interleaving inside one handler, poll or drain; reconnect backoff; the event hub's client set and its dropping of events when a buffer is full.
- Claims the code does not support: core terminal states are not absorbing, a fleet failure releases no claim, a redirect is not stored, capacity is checked but not reserved, a repeated request makes a second core order.
- EventStream.Reader.ScanLine: an unterminated last line of exactly 65536 bytes counts as too long; the scanner accepts it when the underlying reader delivers those bytes together with the end of input.
- Production.Conservation: one station's reports; counts are integers, so float64 rounding beyond 2^53 is not captured.
- CacheAgreement.CacheIsSQL: the cache must hold no meta record of a node missing from its node set before the sync, since the flush goes by that set.
- Counter.RunIsExact: polls that read no value add nothing; the production between two polls that do is one amount.
- Poller.StutterFree: for polls of the order whose id resolves; when resolving fails the state still advances and that one event is lost.
