# Batch order allocation in hedonify

Many checkouts compete for limited stock. The order service queues them, takes a batch every 300 ms,
trims the batch to the stock in memory and commits it in one transaction, then answers every caller.
This project models that path and proves what it guarantees, and exactly where it stops guaranteeing it.

| file | models |
|---|---|
| Domain, Items | int32 arithmetic, order items, selecting and totalling them |
| Merge, Trim, Prepare | the allocator's functions: regrouping, popping from the tail, building the statements and answers |
| Database, CopyFrom | the three tables with their keys, a transaction whose calls may each fail, the sqlc row iterators |
| Channels, Service | result channels and `BatchCreateOrder` as one transaction followed by the answers to its callers |
| Rounds, Listener | the worker's select loop: what each event makes of batch, books, channels and tables |
| Carts | merging cart lines and turning a cart into an order |
| Protocol | clients, the capacity-one queue, the worker and the answering goroutines as a state machine |
| Allocation, Ledger, Batch, BatchProof | the meaning of the allocator, without its maps and loops |
| Existence | that the contracts can be met: every commit, failure and panic they allow has a run of the statements, and one of them always can |
| Stock, Workers | conservation and stock safety, for one worker and for several |
| ProtocolProof, Guarantees | the invariants of the protocol, and what follows from them |
| Reasons | which tick each answer goes back to, and what it says of it |
| Progress | what each participant can do next, and who can still be answered |
| SameCart | requests for one cart in one batch: why such a batch is never committed |
| Schedules, Refinement | the worker's loop as a schedule of the protocol |
| Checkouts, Incidents | runs that end well, a full queue, and two runs that end badly |
| Counters | the version with item counts instead of shrinking slices |

The main results, each for all inputs or all runs:

- The tail-popping loop is "first come, first served" at every stock level if and only if a product's
  batch total is at most 2^31 (`Allocation.ExactForEveryStock`), and a whole committed batch answers
  every request as that rule does (`Stock.AnswersFollowFirstComeFirstServed`).
- The code shortens an order's slice by its last item, not by the item popped. The slice lengths
  nevertheless count the items left for the order, in every state of the loops (`Ledger.LoopIsBalanced`), so a
  batch of different carts never panics, whatever the stock. Any batch is safe from the reslice panic, at every
  stock level, if no order id is named by more items than the first order with that id lists; with positive
  quantities and totals of at most 2^31 it is safe only then (`Ledger.PanicFreeExactlyWhen`). With zero quantities
  as well, it is safe exactly when it is safe with everything sold out (`Stock.NeverOverdrawnExactlyWhen`).
- Counts instead of slices panic, insert and answer exactly as the code does (`Counters.CountersDoTheSame`).
- What a call does is decided by batch, tables and failing calls alone, for every batch: it panics if and only
  if an order is overdrawn, reports a call if and only if that is the first that fails or is refused, and
  commits if and only if nothing stops it (`Service.OrderService.Transact`, `Batch.FailsExactlyWhen`). Each of
  these has a run of the statements (`Existence.AdmissibleBatchCommits`, `Existence.FailureIsTraced`,
  `Existence.OverdrawnBatchPanics`).
- On every path of the protocol, whatever is checked out, no stock becomes negative
  (`Guarantees.StockIsNeverNegative`), and initial stock = stock + ordered for every product of which no committed
  batch can have kept more than 2^31 pieces (`Guarantees.StockIsBalanced`).
- In every interleaving a client that answers 201 read the value sent to it, and its order is committed for its user
  with exactly the items it was told, all of them asked for. However often a cart is checked out, at most one
  checkout succeeds, and a committed order never changes (`Guarantees`). All that is asked of the checkouts is that
  those of one cart list the same items (`SameCart.AgreeingRunCommitsWellFormed`).
- Every answer goes back to one tick that had its request in the batch. A failure names the very call at which that
  transaction stopped; in regular runs any other answer is what survived of the order, or that nothing did
  (`Reasons.EveryAnswerHasItsTick`, `Reasons.EveryAnswerIsAllocated`).
- Nobody is blocked: every client can leave either select whatever the queue and the channel hold, takes a result
  exactly when one was sent, and the worker and each of its goroutines always have a step. A waiting client can still
  be answered exactly as long as the worker attends to it (`Progress.WaitingIsAnswerableExactlyWhen`). Any batch of new
  carts that the database accepts can be checked out, every client answering what first come, first served gives it
  (`Checkouts.BatchCanBeServed`).
- The loop of the worker object, on any sequence of events, is round by round a path of the protocol, with one tick for
  every tick that finds a batch; tables, books and channels agree after each (`Refinement.LoopRefines`).

Four promises turn out to need a condition:

- The error path of the worker keeps the failed batch (order/cmd/listener.go:54-58) although its
  channels are closed (order/internal/service/order.go:380). After a failed batch no batch is ever
  completed again. The next tick still commits an order whose client was told that it failed, if and only if
  nothing fails this time, the batch is admissible and the order still lists an item; a run that does so is exhibited.
- A cart is removed only after a 201 (cart/internal/service/cart.go:688-705), so it can be checked out again
  although its order exists, after a timeout for example. As soon as such a request is in the batch and would be
  given an item, nothing is ever committed or completed again; a run that gets there is exhibited.
- A batch of new carts keeps the balance check for a product, on all tables with non-negative stock, if and only
  if it asks for at most 2^31 pieces of it. Past that the wrapped total lets a sold-out product sell.
- With several workers on one database conservation survives every interleaving. A product's stock stays
  non-negative if no two workers may be handed batches that both ask for it, whatever the batches; for bounded
  batches of different carts, only then.

## Preconditions, and where they come from

- The items of a batch carry their order's id, and no cart with items is in it twice (`WellFormed`). A cart's
  order has the cart's id, so this says that no two requests for one cart are in the same batch
  (`Carts.CartsMakeWellFormedBatch`). Nothing in the order service enforces it. In the protocol it is demanded of
  the batches that are committed (`CommitsWellFormed`), and only by the results about answers and orders; a repeated
  checkout that stops the shop also rests on it. It follows from either of two conditions. One is that the requests
  for one cart list the same items, in whatever order, and that an order already stored for the cart holds only
  those (`SameCart.RequestsAgree`): then a batch with a cart in it twice panics, is refused or fails, but is never
  committed. The other is that no two requests for one cart wait for the same tick
  (`ProtocolProof.TicksWellFormedExactlyWhen`), which also excludes the panic: it is what
  `Guarantees.NoCrashBeforeFailure` rests on, and in one state `Progress.WaitingIsAnswerableExactlyWhen`.
  The results about channels, the worker's books and the stock need neither, nor does what becomes of a failed batch.
- No quantity is negative and a product's batch total is at most 2^31 (`Bounded`). The item type declares more, that
  quantities are at least 1 (order/pkg/request/order.go:44), but the validation of the enclosing slice (line 14) does
  not descend into it; only the converse in `Ledger.PanicFreeExactlyWhen` needs that much. `Bounded` is assumed where a batch is compared with first come, first served, where more or enough
  stock is said to serve more or everything, for the update staying in int4, and where a run is constructed. That
  stock is never oversold does not need it; for the balance it is replaced by a bound on the prefix totals of the
  one product, whatever the signs of the quantities (`PrefixesFit`), which bounded batches meet.
- Stock is non-negative where stock safety is claimed, where a batch is compared with first come, first served,
  where more stock is said to serve more and where a bounded batch stays in int4; for the balance, only of the
  product in question and only with a single worker. "Every stock level" of one product means every non-negative
  one. The other results hold for any stock.
- The database starts with its keys intact and without empty orders (`Consistent`), for the results about answers
  and orders. It may hold any orders, those of the clients included.

## Modelling choices

- A UUID is a number that is only compared; SQL text is an association list for the CASE expression; the
  JSON mapping of rows is lossless; timestamps are dropped and prices are copied.
- A call of the environment fails when it is in the set `faults`. Answers of queries, and ranging over a
  Go map, come in an arbitrary order: the contracts promise nothing about it.
- A failed commit leaves the tables as they were. A commit that takes effect while its answer is lost is not
  modelled, so what is said of failed batches and of clients told of a failure does not cover it.
- A panic is an outcome (`Panicked`, `Crashed`), not a precondition: of the reslice, and of a send on a closed channel,
  before which the answering methods stop. Blocking is a missing step in `Protocol`.
- `CreateOrder` and its result channel, one struct in Go, are a value and an object paired in `Request`.
- The README of the repository gives 1000 as initial stock in its balance query, the query file 2000;
  here it is any map from products to initial stock.

## Model

| member | source | states |
|---|---|---|
| Domain.WrapAdd | order/internal/service/order.go:563 | adding to a running int32 total that has wrapped gives the wrapped sum of everything added |
| Domain.WrapSub | order/internal/service/order.go:603 | comparing with a wrapped total is comparing with the true total modulo 2^32 |
| Merge.MergeOrderItems | order/internal/service/order.go:524-572 | each product has its items in arrival order and their int32 total, each order id its first order, the product ids are duplicate-free by first appearance |
| Merge.OwnItems | order/internal/service/order.go:545-567 | in a well-formed batch the items that name an order are that order's items, in its own sequence |
| Ledger.MergeConserves | order/internal/service/order.go:552-566 | merging neither loses nor invents an item |
| Allocation.KeepCount | order/internal/service/order.go:603-626 | popping stops at the longest arrival-order prefix that passes the int32 test, every longer one failing it |
| Allocation.TailPopIsForwardScan | order/internal/service/order.go:603-626 | for quantities of zero or more and up to 2^31 pieces, popping from the tail keeps what a forward scan stopping at the first misfit keeps, and its total fits the stock |
| Allocation.ExactForEveryStock | order/internal/service/order.go:603 | that agreement holds at every stock level if and only if the product's total is at most 2^31 |
| Allocation.KeptTotalFitsExactlyWhen | order/internal/service/order.go:603-626 | the items kept total an int32 at every stock level if and only if all the product's items total at most 2^31 |
| Allocation.MoreStockKeepsMore | order/internal/service/order.go:602-636 | a bigger stock keeps at least the same prefix, and enough stock keeps everything |
| Allocation.ServePerProduct | order/internal/service/order.go:594-637 | serving a whole batch in arrival order serves each product as if its items came alone |
| Trim.TrimProduct | order/internal/service/order.go:602-637 | the loop leaves the kept prefix with its total and shortens each order by as many items as it lost, or finds an order that would lose more than it lists |
| Trim.CheckDecreaseQuantity | order/internal/service/order.go:574-646 | over all rows: the trimmed groups, every order a prefix of itself short of its popped items, and a panic exactly when an order is overdrawn |
| Ledger.TrimConserves | order/internal/service/order.go:594-638 | items left and items popped together are exactly the items before |
| Ledger.RowOrderIrrelevant | internal/repository/products.sql.go:122-125 | two answers of the unordered query with the same stock pop the same items |
| Ledger.RowOrderSameMaps | order/internal/service/order.go:594-637 | on two answers of the query with the same stock both runs panic or neither does, and both end with the same order map |
| Ledger.TrimIsIdempotent | order/internal/service/order.go:594-637 | trimming again on the same rows keeps every group and pops nothing, so no order is shortened either |
| Ledger.WellFormedIsBalanced | order/internal/service/order.go:545-567 | after the merge every order lists as many items as the groups hold for it |
| Ledger.PopKeepsBalance | order/internal/service/order.go:608-634 | every single pop keeps that count and finds the order's slice non-empty |
| Ledger.LoopIsBalanced | order/internal/service/order.go:594-637 | the count of listed items equals the count of items left, for every order, between any two pops of the two loops |
| Ledger.BalancedTrimIsSafe | order/internal/service/order.go:628-634 | from that count on no stock makes the trim panic, and the count holds at its end |
| Ledger.PanicFreeExactlyWhen | order/internal/service/order.go:631 | the reslice never panics, for any non-negative stock, if no order id is named by more items than its first order lists; with positive quantities and per-product totals of at most 2^31, if and only if |
| Ledger.DuplicateOrderPanics | order/internal/service/order.go:548-551 | two one-item orders with the same id and product in one batch do panic for some stock |
| Counters.CountersRefineSlices | README.md:113 | replacing the slices by counts simulates any sequence of pops step for step, panics included |
| Counters.PopsAccountForSlices | order/internal/service/order.go:628-634 | popping in any sequence panics exactly when an order is overdrawn and otherwise leaves the prefixes the allocator promises |
| Counters.PrepareOrderArgsByCount | order/internal/service/order.go:441-469 | with counts: one row with the first order's user for exactly the orders whose count is positive |
| Counters.OrderToResponseByCount | order/internal/service/order.go:648-675 | with counts: a response for exactly the read orders whose count is positive |
| Counters.CountersDoTheSame | README.md:113 | on what the trim pops, for any batch and any product rows, the counts panic exactly when the reslice does, and otherwise exactly the same order rows and responses are right for the counts and for the order map the trim leaves |
| Prepare.BuildQuery | order/internal/service/order.go:509-522 | whatever order the map is ranged over, the CASE yields each product's total and NULL elsewhere, and is empty only for an empty map |
| Prepare.PrepareOrderArgs | order/internal/service/order.go:441-469 | exactly one row, with its user, for each order that still lists an item |
| Prepare.PrepareOrderItemArgs | order/internal/service/order.go:471-507 | per product the rows are exactly its remaining items in arrival order |
| Prepare.OrderToResponse | order/internal/service/order.go:648-675 | a response for exactly the read orders that still list an item |
| BatchProof.CaseIsKeptTotal | order/internal/service/order.go:513-520 | for every product of the batch the CASE yields the total it keeps at the stock just read, never NULL |
| BatchProof.UpdateAccepted | order/internal/service/order.go:260-275 | the update is accepted exactly when the batch has an item and no row leaves int4 |
| BatchProof.OrderArgsMeaning | order/internal/service/order.go:282-289 | for any batch the orders inserted are exactly those whose first request still lists an item after the trim, with that batch's users, and are accepted exactly when those orders are new and the users of their first requests known |
| BatchProof.ItemArgsMeaning | migrations/20241125115439_create_table_orders.up.sql:13-21 | for any batch the items are accepted exactly when their ids are new and differ, their products are known, and each one's order is in the table already or still lists an item |
| BatchProof.WritesCommit | order/internal/service/order.go:260-309 | for any batch, the update and the inserts, planned on one stock level and executed on tables with any other, subtract what the plan kept from the current rows and append exactly the kept items |
| BatchProof.PanicsWhenOverdrawn | order/internal/service/order.go:628-634 | the trim of a batch panics exactly when an order loses more items than its first order lists |
| BatchProof.WellFormedNeverOverdrawn | order/internal/service/order.go:631 | no batch of different carts loses more items of an order than the order lists, whatever the stock |
| BatchProof.ResponsesAnswer | order/internal/service/order.go:323-337 | the responses are for exactly the committed orders and list exactly their new items, no older rows mixed in |
| Batch.SurvivorsAreServed | order/internal/service/order.go:245 | under the int32 bound the items a batch keeps are those first come, first served hands out |
| Batch.FailsExactlyWhen | order/internal/service/order.go:181-350 | for any batch a call is reported as failed if and only if it is the first, in the order of the code, that the environment lets fail or the database refuses, and the trim before it does not panic |
| CopyFrom.RowIterator.Next | internal/repository/copyfrom.go:18-28 | answers true exactly when a row is pending and then puts that row first |
| CopyFrom.Drain | internal/repository/copyfrom.go:54-84 | COPY receives every row once and in order |
| Database.Transaction.FindProductsByIds | internal/repository/products.sql.go:122-152 | one row with the current stock for each known product asked for, in no particular order |
| Database.Transaction.UpdateProducts | order/internal/service/order.go:517-520 | subtracts from the current rows, or fails on an empty CASE, a NULL or an int4 overflow |
| Database.Transaction.GetOrders | internal/repository/orders.sql.go:212-256 | the orders asked for that have items, each with exactly its items |
| Service.OrderService.RunTransaction | order/internal/service/order.go:228-350 | each statement runs with what the previous ones computed, the first failure ends the transaction, nothing is visible before the commit |
| Existence.PlanExists | order/internal/service/order.go:228-245 | every batch that loses no more items of an order than its first request lists has a panic-free plan, at that stock |
| Service.OrderService.Transact | order/internal/service/order.go:181-350 | for any batch: it panics exactly when no read fails and an order is overdrawn; it reports a call only if that call failed or was refused and none before it was; it commits exactly when it is not empty, nothing fails, no order is overdrawn and the database accepts what the trim left; a commit appends the kept items and exactly the orders that still list one, and everything else leaves the tables alone |
| Existence.AdmissibleBatchCommits | order/internal/service/order.go:228-350 | any admissible batch that is not overdrawn commits when no call fails: its statements run from the read to the commit |
| Existence.FailureIsTraced | order/internal/service/order.go:181-350 | whenever a call is the first that stops, for any batch, a run of the statements before it exists that fails there |
| Existence.OverdrawnBatchPanics | order/internal/service/order.go:181-245 | any overdrawn batch whose stock can be read has a run of the statements that ends in the reslice's panic |
| Channels.ReturnOrderError | order/internal/service/order.go:364-387 | up to the first channel that an earlier attempt has closed, every caller gets once the error of the call that failed, that very one, on a channel then closed; there it panics |
| Channels.ReturnOrderResult | order/internal/service/order.go:403-439 | up to the first closed channel, every caller gets once the order exactly as it was read if it was committed and out of stock if not, on a channel then closed; there it panics |
| Service.OrderService.BatchCreateOrder | order/internal/service/order.go:159-362 | the database takes its step, and each channel receives exactly the result that fits the outcome and is closed, up to the first that an earlier attempt has closed; a panic of the trim touches no channel |
| Stock.AnswersFollowFirstComeFirstServed | order/internal/service/order.go:323-357 | after a commit a request succeeds exactly when first come, first served leaves it an item; its answer is the order of its own user and lists exactly those items, and all others are out of stock |
| Stock.NewRowHasItsUser | order/internal/service/order.go:441-469 | in a batch of different carts the row inserted for an order carries the user of the request that lists its items |
| Stock.CommitServesInOrder | order/internal/service/order.go:471-507 | the rows a bounded batch commits are exactly the items served |
| Stock.MoreStockServesMore | order/internal/service/order.go:594-637 | raising a non-negative stock never turns an item of a bounded batch away |
| Stock.MoreStockAcceptsMore | order/internal/service/order.go:594-646 | for any bounded batch, raising a non-negative stock never turns an order away either, and makes no batch panic that would not have |
| Stock.NeverOverdrawnExactlyWhen | order/internal/service/order.go:628-634 | a bounded batch, with or without repeated orders, panics at no non-negative stock if and only if it does not panic when everything it asks for is sold out |
| Stock.EnoughStockServesAll | order/internal/service/order.go:603 | with enough of every product nothing of a bounded batch is turned away |
| Stock.BalanceIsSafeExactlyWhen | postgres/quantity_balanced_check:2-10 | a batch of new carts keeps a product's balance, whatever the tables and the non-negative stock, if and only if it asks for at most 2^31 pieces of it |
| Stock.OverflowSellsFromNothing | order/internal/service/order.go:563 | a commit: two lines of 2^31 - 1 pieces of a sold-out product are both sold and its stock becomes 2 |
| Stock.BoundedIsInRange | order/internal/service/order.go:260-275 | the update of a bounded batch on non-negative stock is never refused for leaving int4 |
| Stock.SerialCommitNeverOversells | order/internal/service/order.go:603 | a commit on the non-negative stock its trim has read leaves no stock negative, for any batch: not with negative quantities, and not with totals that wrap |
| Stock.RowStaysNonNegative | order/internal/service/order.go:603 | one product's row never becomes negative if the trim has read its current value, whatever else it has read and whatever the quantities |
| Stock.FitKeepsBalance | order/internal/service/order.go:509-522 | a commit keeps a product's balance, whatever stock its trim had read, if every prefix of the product's items totals an int32 |
| Stock.SerialFitKeepsBalance | order/internal/service/order.go:603-626 | on the non-negative stock the trim has read, prefix totals of up to 2^31 are enough |
| Stock.CommitKeepsConsistency | postgres/quantity_balanced_check:12-17 | a commit of different carts keeps every key and leaves no order without items and no item without its order |
| Stock.CommitKeepsKeys | migrations/20241125115439_create_table_orders.up.sql:5-21 | a commit of any batch keeps every primary key and every foreign key |
| Stock.CommitKeepsOld | order/internal/service/order.go:282-309 | a commit leaves the items of every order that existed before as they were |
| Stock.NewItemsWereAsked | order/internal/service/order.go:479-505 | a commit gives an order of the batch only items it lists, none more often |
| Workers.WriteApplies | order/internal/service/order.go:509-522 | the statements of a worker that read its stock earlier take what its trim kept off the rows as they are now |
| Workers.ReadExactlyWhen | order/internal/service/order.go:228-245 | an idle worker can plan a batch exactly when that overdraws no order at the stock it reads |
| Workers.WriteExactlyWhen | order/internal/service/order.go:260-350 | a busy worker can commit exactly when the tables as they are by then accept what it had trimmed before |
| Workers.InterleavingConserves | order/internal/service/order.go:509-522 | for any number of workers in any interleaving, initial stock = stock + ordered in every state for a product whose prefix totals fit int32 in every batch; quantities may have any sign and stock may be anything |
| Workers.NeverOversellsExactlyWhen | order/internal/service/order.go:231 | no interleaving drives a product below zero, for any batches and from any tables in which it is not, if no two workers may be handed batches that both ask for a piece of it; for workers handed bounded batches of different carts, if and only if |
| Workers.TwoWorkersOversell | order/cmd/order.go:163-171 | a run: two workers that both see the last piece drive the stock to minus one |
| Listener.OrderWorker.Receive | order/cmd/listener.go:61-66 | a received request joins the end of the batch, with its channel untouched |
| Listener.OrderWorker.Tick | order/cmd/listener.go:45-60 | nothing for an empty batch; otherwise one call for all of it; after a success the batch is processed and cleared, after an error it is kept; either way everyone in it holds the outcome; a batch that was answered before takes the process down, whatever the call has done to the tables |
| Listener.OrderWorker.StartWorker | order/cmd/listener.go:27-69 | every event up to a shutdown, the end of the process, or the last one given is handled in order, each as the select statement says; batch, books, channels and tables in the end are those that follow |
| Rounds.EveryTickRunsItsBatch | order/cmd/listener.go:45-53 | every tick takes up exactly the requests received since the last success: with none it does nothing, otherwise one call runs for all of them |
| Rounds.SuccessProcessesAll | order/cmd/listener.go:54-60 | after a successful tick the batch is empty and every request received so far is processed |
| Rounds.BatchStaysInformed | order/internal/service/order.go:403-439 | whatever events follow, the callers of a batch that was run still hold what that call has told them |
| ProtocolProof.RunFlows | order/cmd/listener.go:41-68 | every state of every run, whatever carts are checked out and whatever order clients, timeouts, ticks, sends and closes come in, keeps the books; each channel carries at most one value, and a client that took one took that one |
| ProtocolProof.CommitTells | order/internal/service/order.go:323-357 | a commit of different carts keeps every answer true: successes match the tables, every new order belongs to the one request told of it and to its user, and none is announced twice |
| ProtocolProof.RunTells | order/cmd/listener.go:41-68 | every state of every run in which no committed batch holds a cart twice has true answers, and an owner for every new order |
| ProtocolProof.TicksWellFormedExactlyWhen | cart/pkg/response/mapper.go:12-22 | no tick finds a cart with items twice in its batch if and only if no two requests of such a cart ever wait for the same tick |
| SameCart.RepeatedIsNotAdmissible | cart/internal/service/cart.go:688-705 | a batch that asks twice for a cart with items, listing the same items, is never committed by tables that hold only such items of the cart: unless the reslice panics, an item is inserted twice, finds no order, or is there already |
| SameCart.AgreeingRunCommitsWellFormed | cart/internal/service/cart.go:688-705 | if the requests for one cart list the same items, no batch committed on any path holds a cart with items twice, however often and whenever the carts are checked out |
| Guarantees.CreatedMeansCommitted | order/internal/controller/order.go:292-313 | a client that answers 201 read the one value sent to it, and its order is in the database for its own user, with exactly the items it was told, all of which it asked for |
| Guarantees.CheckoutSucceedsOnce | cart/internal/service/cart.go:688-705 | however often a cart is checked out, at most one checkout answers 201, and none if its order was there at the start |
| Guarantees.OutOfStockMeansNoOrder | order/internal/service/order.go:426-431 | while a client has been told out of stock, an order with its id exists only if it was there at the start or another checkout of the cart made it; if the cart was checked out once it does not exist |
| Guarantees.GivenUpIsNeverProcessed | order/internal/controller/order.go:267-277 | in every run, whatever is checked out, a client that times out before enqueuing is never queued, received, processed or answered |
| Guarantees.GivenUpMakesNoOrder | order/internal/controller/order.go:267-277 | an order with the id of such a client exists only if it was there at the start or another checkout of the cart made it; if the cart was checked out once it does not exist |
| Guarantees.SendsNeverBlock | order/internal/controller/order.go:263 | every pending send can be taken at once, even if its client has gone; the channel is closed only if the request was answered before in a failed batch, and until a batch has failed the send does not panic |
| Guarantees.NoCrashBeforeFailure | order/internal/service/order.go:403-439 | in every run in which no tick finds a cart with items twice in its batch, no reslice, send or close takes the process down before a batch has failed |
| Guarantees.OnlyAskedItemsAreOrdered | order/internal/service/order.go:479-505 | in every run a new order is for the user of one request for its cart, and holds only items that request listed, none more often than listed |
| Guarantees.CommittedOrdersAreFinal | internal/repository/copyfrom.go:54-84 | once an order is in the database its items never change again, even when its cart is checked out again |
| Guarantees.WorkerAccounts | order/cmd/listener.go:39-67 | received = completed batches followed by the current one; a completed request was answered once; before any failure, between batches, only completed requests were answered |
| Guarantees.RetryCannotFinish | order/cmd/listener.go:54-58 | answering a kept batch again cannot finish: its first send panics |
| Guarantees.NothingCompletesAfterFailure | order/cmd/listener.go:54-58 | from the failed transaction on no batch is ever completed again |
| Guarantees.FailedOrderIsCommittedExactlyWhen | order/cmd/listener.go:53-58 | for any batch: a tick on the kept batch commits an order whose client was told it failed if and only if nothing faults, no order is overdrawn, the batch is admissible and the order still lists an item |
| Guarantees.FailedCartIsCommittedExactlyWhen | order/cmd/listener.go:53-58 | for a batch of different carts: if and only if nothing faults, the batch is admissible and an item of the order survives |
| Guarantees.RepeatIsRefused | migrations/20241125115439_create_table_orders.up.sql:5-11 | a batch of different carts that would give an item to an order that exists already fails as a whole and commits none of its orders |
| Guarantees.RepeatsExactlyWhenServed | order/internal/service/order.go:594-637 | a bounded batch would do so exactly when first come, first served leaves such an order an item |
| Guarantees.RepeatedCheckoutStopsTheShop | cart/internal/service/cart.go:688-705 | from the moment such a request is in the batch, nothing is ever committed or completed again, and the batch only grows |
| Guarantees.StockIsNeverNegative | order/internal/service/order.go:603 | on every path, from any state of the worker, for any carts and quantities, a product whose stock is not negative never becomes so |
| Guarantees.StockIsBalanced | postgres/quantity_balanced_check:1-10 | on every path a product starting balanced and not negative stays balanced, if the prefixes of its items in each committed batch total between -2^31 and 2^31 |
| Guarantees.NoOrderIsEverEmpty | postgres/quantity_balanced_check:12-17 | in every state of every run an order exists exactly when it has an item |
| Reasons.EveryAnswerHasItsTick | order/internal/service/order.go:364-387 | in every run each answer was told by an earlier tick with its request in the batch; a failure carries no order and names the very call at which that tick's transaction stopped |
| Reasons.EveryAnswerIsAllocated | order/internal/service/order.go:426-436 | in regular runs the answer of a commit is, for the request's own user, exactly what survived of the order, or out of stock exactly when nothing did |
| Progress.GiveUpIsPossible | order/internal/controller/order.go:267-277 | a client at its first select can give up whatever waits in the queue, and nothing else changes |
| Progress.TimeOutIsPossible | order/internal/controller/order.go:281-291 | a client at its second select can time out whatever its channel holds, and nothing else changes |
| Progress.EnqueueExactlyWhen | order/cmd/order.go:106 | at most one request is queued, and another client can enqueue exactly when none is |
| Progress.AwaitExactlyWhen | order/internal/controller/order.go:292-313 | a waiting client can take a result exactly when one was sent, and what it answers is that one, success or failure |
| Progress.ReceiveExactlyWhen | order/cmd/listener.go:61-66 | the worker can take a request exactly when one waits and no batch is being answered, and it joins the batch |
| Progress.TickIsPossible | order/cmd/listener.go:45-53 | whatever calls fail, a tick on a non-empty batch has an outcome |
| Existence.OutcomeExists | order/internal/service/order.go:159-362 | whatever batch, tables and failing calls, one of the outcomes of a call is possible |
| Progress.SendExactlyWhen | order/internal/service/order.go:421-436 | every pending send can happen; it takes the process down exactly when the request was answered in a failed batch before |
| Progress.CloseExactlyWhen | order/internal/service/order.go:423 | a goroutine that has sent can always close its channel, and that never panics |
| Progress.FinishExactlyWhen | order/cmd/listener.go:54-60 | the call returns exactly when all its goroutines have closed; a success clears the batch and an error keeps it |
| Progress.WaitingIsAnswerableExactlyWhen | order/internal/controller/order.go:281-314 | if the requests at hand are of different carts, a waiting client can still be answered if and only if its result was sent, or the worker selects, or it answers this request's batch or a batch for the first time |
| Incidents.FailedOrderIsCommitted | order/cmd/listener.go:53-58 | a run: any order that could be committed is failed by the commit call, its client is told so, and the next tick commits it |
| Incidents.CommitCallFails | order/internal/service/order.go:341-350 | the statements of any admissible batch that is not overdrawn run up to the commit, and fail there when it reports an error, with the tables left alone |
| Incidents.RepeatedCheckoutGetsStuck | cart/internal/service/cart.go:688-705 | a run: any cart in stock twice is checked out, created, checked out again, and leaves the worker stuck |
| Checkouts.BatchCanBeServed | order/internal/controller/order.go:292-313 | a run: any batch of new, bounded carts that the database accepts is checked out together, and every client answers with exactly what first come, first served gives it, for its user |
| Checkouts.CartCanBeCreated | order/internal/controller/order.go:305-313 | a run: any new cart in stock is checked out, and its client answers 201 with the whole cart |
| Checkouts.FullQueueTurnsOneAway | order/internal/controller/order.go:267-280 | a run: a client that finds the queue full gives up, while the request that filled it is received, committed and answered 201 |
| Schedules.SequentialTickIsAPath | order/internal/service/order.go:403-439 | for any batch, answering one request after the other, as the methods do, is a path of the protocol and leaves every caller its result in a closed channel |
| Refinement.TickRefines | order/cmd/listener.go:45-60 | whatever a tick of the worker object does, a path of the protocol leads from the state the object represents to the one it represents afterwards, tables, books and channels included, and that path is one tick with its answers; a panic, of the trim or of a repeated answer, is the crash of the protocol |
| Refinement.LoopRefines | order/cmd/listener.go:27-69 | the whole loop, on any events: round by round a path of the protocol, each tick that finds a batch being one tick of it and each request one enqueued and received; the object represents the state reached, and the process is down on both sides or on neither |
| Refinement.ReceiveRefines | order/cmd/listener.go:61-66 | a request received by the object is enqueued and received on a path of the protocol from the state the object represents, and it represents the state reached |
| Carts.MergeLines | cart/internal/service/cart.go:141-162 | each product's lines become one, with their int32 total and the last price |
| Carts.MergeCartItems | cart/internal/service/cart.go:163-166 | whatever order the map is ranged over, there is exactly one such line per product |
| Carts.CartRows | cart/internal/service/cart.go:173-188 | row i is line i with the cart's id |
| Carts.ToOrder | cart/pkg/response/mapper.go:5-25 | every line becomes an item that carries the order's own id |
| Carts.CartIsOrderedForItsUser | cart/pkg/response/mapper.go:12-22 | a checkout of a cart that succeeds has put an order with the cart's id and for the cart's own user into the tables, with items made from the cart's lines |
| Carts.CartsMakeWellFormedBatch | cart/pkg/response/mapper.go:12-22 | orders made from carts form a well-formed batch if and only if no cart with lines occurs twice |
| Carts.StoredCartsAgree | cart/pkg/response/mapper.go:5-25 | orders made from carts whose lines are the same whenever the cart is, read in any order, list the same items for the same cart |
| Carts.OrderKeepsQuantities | cart/internal/service/cart.go:149-153 | a product is ordered once, at the price given last, and in the quantity its lines asked for if and only if that total fits int32 |

## Left out

- Logging, tracing, metrics, configuration, HTTP routing, authentication, JSON encoding and decoding errors: no property rests on them; in particular the skip of undecodable rows in `orderToResponse` is not modelled.
- Checkout as a blocking method: it waits on other goroutines, so it is modelled as steps of the protocol state machine instead.
- Goroutine scheduling inside `returnOrderError` and `returnOrderResult`: the methods answer the callers one after the other, up to the first closed channel, which is one schedule of the protocol (`Schedules.SequentialTickIsAPath`); the protocol lets the same sends and closes interleave freely.
- Listener.OrderWorker.StartWorker: runs on a given sequence of select outcomes, of any length but finite, because the loop of the service ends only with the process.
- Workers.InterleavingConserves: a transaction is one read and then its three writing statements with the commit as one atomic step; row locks, deadlocks and isolation levels beyond that are not modelled.
- Other writers of stock, such as the product service's update: the single order worker is taken to be the only one.
- Time: ticks and timeouts may come at any moment, so nothing is said about how long a caller waits.
- Redis caches, the user, product and notification services, and the read-only order queries: nothing about allocation depends on them.
- Storing the cart and reading it back: `Carts.Stores` only assumes that the lines come back as stored, in any order.
