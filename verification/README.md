# hau-cex in Dafny

A model of the spot exchange hau-cex with proofs: the matching engine (Go), the order, settlement and wallet
services (NestJS over PostgreSQL), and the protocol that joins them.

## What is modelled

**The matching engine.** Each side of a book is a heap of price levels, a map from price text to the same levels, and
in every level a queue with an id index and a running total; above both sides is one index of all active orders. These
are classes (`PriceLevel`, `PriceHeap`, `SideBook`, `OrderBook`) with the methods of the Go types, including the sifting
that Go's `container/heap` does over `Less` and `Swap`. What they represent is one list per side, best price first and then
by arrival (`BookSpec`, `Flattening`). `Matching.Match` changes all of them at once and is proved to do on the objects what
a ten-line recursive match does on the lists. `PairEngine` and `Customer` are proved equal to functions on values
(`EngineSpec`); `EngineAnswers` says exactly when they emit which event, and everything about runs is proved about them.

**Lives of orders.** `Lifecycle` reads the events of an order one by one: unborn, refused, live with a quantity left, gone, or
broken as soon as an event contradicts the order's side, limit or quantity or an earlier event. That no life ever breaks
(`EngineRuns.HandleKeeps`) is what the backend relies on.

**The backend.** `BackendSpec` has the tables as one value and each transaction as a function from tables to tables or an error.
`Databases.Database` is the same as mutable rows, statement by statement, with rollback, proved equal. `Funds` and `Transactions`
show what any transactions keep, even for senseless messages; `Requests` and `Settlements` say what each of them does in terms of
users, amounts and statuses.

**The composition.** `Exchange` is the whole system as a state machine: requests, lost command numbers, deliveries of any
command of the outbox in any order and any number of times, consumption of the event stream in order, and redelivery of
messages. `Exchange.WorldOk` is its invariant, `ExchangeTheorems.Reachable` the states that runs end in. `ExchangeTheorems` says what holds in
them, above all that no settlement ever fails (`NothingFails`) and that the tables end up agreeing with the books (`DatabaseFollowsEngine`).
`ExchangeHistories` follows one order, one pair or one trade through runs: only its user cancels an order (`OnlyItsUserCancels`).
`ExchangeStalls` says when a market goes on, and `ExchangeExamples` has runs that reach the states the other theorems warn of.

**Pages.** `Pagination` follows cursors over a table.

Prices and quantities are whole multiples of 10^-18 on both sides; balances and fees are exact rational amounts.

## What is assumed of the outside

- The backend checks that price and quantity are positive before it issues a command; the engine does not check them
  (`EngineSpec.Acceptable`). The exchange proves that this always holds.
- Order ids are fresh: a colliding id is a failed insertion, as the primary key makes it.
- Who places an order has wallets for both assets of the pair (`Exchange.Provided`), a treasury user is configured, fee rates are at
  least 0 and below 1, and base and quote differ (`Exchange.Fresh`). Without them a settlement can fail, exactly as `Funds.TransferSucceeds` says.
- A new exchange has no orders. The engine process does not restart, and one consumer handles messages in stream order.

## Where the code differs from its documents

The model follows the code.

- A command that is turned down does not take its number, and a gap makes the engine fail. So a market is stopped for good by one command
  delivered to its open engine ahead of its turn, unless the next number is that of an opening (`ExchangeStalls.AheadOfTurn`), by one cancellation
  of an order that does not rest when its turn comes, by one refused placement (`RefusalBlocks`), or by one number lost in a transaction that was
  rolled back (`LostNumberBlocks`): whatever happens later, its engine takes no command and its book never changes (`BlockedForever`).
  `BlockedExactly` says exactly when that is so; `ExchangeExamples.SecondFirstBlocks` and `RejectionCanBeLost` reach such states.
- `FAILED` is left by an opening with the next number, and an engine that has handled nothing accepts an opening with any number
  (`EngineTraces.TakesTurn`). `SUSPENDED` is never entered. The batch in flight is stored and never sent again.
- Price improvement is not refunded: it stays locked for good (`ExchangeTheorems.FilledReleases`, `FinalForever`, and `ExchangeExamples.FilledCanStayLocked` for an order that keeps it).
- Settlement overwrites CANCEL_PENDING (`Settlements.SettlingFills`, `ExchangeHistories.TradeOverwrites`), and a pending order may be cancelled. A rejection that meets CANCEL_PENDING is lost,
  and the order waits for its cancellation for ever (`ExchangeTheorems.RejectionRecorded`, `RejectionLost`, reached in `ExchangeExamples.RejectionCanBeLost`). A recorded rejection unlocks nothing (`RejectedKeepsLock`).
- Orders of one price are served in order of arrival at the engine; their order number is never compared.
- The rates stored with a trade are swapped when the taker sells (`Funds.StoredRates`).
- Cursors keep milliseconds of timestamps that the database keeps in microseconds, so rows can be passed over (`Pagination.CompleteIff`).

## Model

| member | source | states |
|---|---|---|
| Fixed.ParseString | services/matching-engine/internal/fixed/decimal.go:43-105 | Reading the text of any decimal, negative or below one, gives back that decimal. |
| Fixed.ParseMeans | services/matching-engine/internal/fixed/decimal.go:43-81 | What a text of digits with or without fraction and sign is worth; digits behind the eighteenth of the fraction are cut off. |
| Fixed.StringInjective | services/matching-engine/internal/fixed/decimal.go:94-105 | Two decimals have the same text only if they are equal, so the text is a safe level key. |
| Fixed.Min | services/matching-engine/internal/fixed/decimal.go:107-112 | The result is one of the two arguments and not above either. |
| Fixed.ParseFormatDecimal | apps/backend/src/common/helpers/decimal.helper.ts:13-21 | Trimming trailing zeros (and a bare point) keeps the value. |
| Fixed.FormatDecimalInjective | apps/backend/src/common/helpers/decimal.helper.ts:13-21 | Trimmed text is the same only for equal values. |
| BookSpec.SweepTakesPrefix | services/matching-engine/internal/matching/matcher.go:29-94 | A match takes a prefix of the opposite side in priority order: fill i is with its i-th order, at that order's price; all but the last take it whole. |
| BookSpec.SweepStops | services/matching-engine/internal/matching/matcher.go:29-48 | No quantity is lost, and the match stops only when the order is used up, the side is empty, or the best price left is out of its limit. |
| BookSpec.FillsWorsen | services/matching-engine/internal/matching/matcher.go:42-63 | Every fill of a match respects the limit of the taker, and from one fill to the next prices only get worse for it. |
| BookSpec.QueuePosition | services/matching-engine/internal/orderbook/side_book.go:49-52 | A new order stands behind every order as good and before every worse one. |
| BookSpec.RestOutOfLimit | services/matching-engine/internal/matching/matcher.go:42-48 | What is left of the opposite side is out of the limit of an order that is not used up. |
| BookSpec.PlaceKeepsBook | services/matching-engine/internal/matching/matcher.go:24-104 | After any placement the book is sorted, has positive quantities and unique ids, and every bid is strictly below every ask. |
| BookSpec.WithoutMembers | services/matching-engine/internal/orderbook/price_level.go:51-61 | Taking an order out leaves exactly the other orders. |
| BookSpec.CancelKeepsBook | services/matching-engine/internal/orderbook/order_book.go:32-47 | A cancellation keeps the book sound and uncrossed, and the order is on neither side afterwards. |
| Flattening.FlattenInPriority | services/matching-engine/internal/orderbook/side_book.go:12-15 | Queues keyed by price, read best price first, form one list in priority order. |
| Flattening.FlattenMembers | services/matching-engine/internal/orderbook/side_book.go:12-15 | That list holds exactly the orders of the queues. |
| Flattening.FlattenHead | services/matching-engine/internal/orderbook/side_book.go:18-24 | It is empty exactly if there is no queue; else its head is the front of the queue at the best price. |
| Flattening.FlattenQueue | services/matching-engine/internal/orderbook/side_book.go:49-52 | Appending to the queue of a price is queueing in the priority list. |
| Flattening.FlattenWithout | services/matching-engine/internal/orderbook/side_book.go:54-65 | Taking an order out of its queue is taking it out of the priority list. |
| Flattening.FlattenBest | services/matching-engine/internal/matching/matcher.go:60-81 | Replacing the best queue replaces the head part of the priority list. |
| PriceLevels.PriceLevel.constructor | services/matching-engine/internal/orderbook/side_book.go:29 | A new level is empty and its total is zero. |
| PriceLevels.PriceLevel.Enqueue | services/matching-engine/internal/orderbook/price_level.go:16-24 | The order is appended to the queue and to the id index, and the total stays the sum of what is left of the orders. |
| PriceLevels.PriceLevel.Front | services/matching-engine/internal/orderbook/price_level.go:26-32 | The oldest order, or nothing exactly if the queue is empty. |
| PriceLevels.PriceLevel.Dequeue | services/matching-engine/internal/orderbook/price_level.go:34-44 | Takes the oldest order out of queue and index without touching the total. |
| PriceLevels.PriceLevel.PartialFill | services/matching-engine/internal/orderbook/price_level.go:46-49 | Lowers the total and nothing else. |
| PriceLevels.PriceLevel.FillFront | services/matching-engine/internal/matching/matcher.go:62-72 | Fill, lower the total, dequeue if used up: afterwards the total is again the sum, and the queue lost just that quantity at its front. |
| PriceLevels.PriceLevel.Remove | services/matching-engine/internal/orderbook/price_level.go:51-61 | An order at any place is found by its id and cut out; the others keep their order and the total stays the sum. |
| PriceHeaps.PriceHeap.Swap | services/matching-engine/internal/orderbook/price_heap.go:22-24 | Exchanges two places and keeps all others. |
| PriceHeaps.PriceHeap.Push | services/matching-engine/internal/orderbook/price_heap.go:26-28 | The heap property holds again and the contents grew by exactly that level. |
| PriceHeaps.PriceHeap.Remove | services/matching-engine/internal/orderbook/side_book.go:43-45 | A level at any index is taken out: the heap property holds again and the contents lost exactly that level. |
| PriceHeaps.PriceHeap.Pop | services/matching-engine/internal/orderbook/price_heap.go:30-35 | Takes out the last place only. |
| PriceHeaps.PriceHeap.Up | services/matching-engine/internal/orderbook/price_heap.go:14-24 | Sifting up repairs a heap that is out of order at one place, permuting its contents. |
| PriceHeaps.PriceHeap.Down | services/matching-engine/internal/orderbook/price_heap.go:14-24 | Sifting down repairs it downwards, or reports that nothing moved. |
| PriceHeaps.PriceHeap.Find | services/matching-engine/internal/orderbook/price_heap.go:37-44 | An index of a level with that price, or -1 exactly if there is none. |
| PriceHeaps.PriceHeap.Top | services/matching-engine/internal/orderbook/price_heap.go:46-51 | Nothing if the heap is empty, else a level that no level is better than. |
| PriceHeaps.TopIsBest | services/matching-engine/internal/orderbook/price_heap.go:14-20 | In a heap the first level is at least as good as every level. |
| SideBooks.KeyInjective | services/matching-engine/internal/orderbook/side_book.go:14 | Levels of different prices have different keys. |
| SideBooks.SideBook.HeapAndMapAgree | services/matching-engine/internal/orderbook/side_book.go:12-15 | Heap and map hold the same levels, each once. |
| SideBooks.SideBook.BestPrice | services/matching-engine/internal/orderbook/side_book.go:18-24 | The price of the best resting order, or none exactly if the side is empty. |
| SideBooks.SideBook.GetOrCreateLevel | services/matching-engine/internal/orderbook/side_book.go:26-34 | The one level of that price; a new one enters heap and map together. |
| SideBooks.SideBook.RemoveLevelIfEmpty | services/matching-engine/internal/orderbook/side_book.go:36-47 | An emptied level leaves heap and map together, and the whole representation is sound again. |
| SideBooks.SideBook.AddOrder | services/matching-engine/internal/orderbook/side_book.go:49-52 | The side as a priority list is the old one with the order queued. |
| SideBooks.SideBook.RemoveOrder | services/matching-engine/internal/orderbook/side_book.go:54-65 | True exactly if the order rests at that price; the priority list is the old one without it. |
| SideBooks.SideBook.FillBest | services/matching-engine/internal/matching/matcher.go:60-81 | Filling the front of the best level takes that quantity from the head of the priority list. |
| OrderBooks.OrderBook.constructor | services/matching-engine/internal/orderbook/order_book.go:9-21 | Two empty sides, bids highest first, asks lowest first, and an empty index. |
| OrderBooks.OrderBook.AddOrder | services/matching-engine/internal/orderbook/order_book.go:23-30 | The order is queued on its side and indexed; the index stays exactly the resting orders. |
| OrderBooks.OrderBook.RemoveOrder | services/matching-engine/internal/orderbook/order_book.go:32-47 | True exactly if the order rests; it leaves its side and the index, the rest is as before. |
| OrderBooks.OrderBook.FillBest | services/matching-engine/internal/matching/matcher.go:60-81 | A fill at the front of a side takes the order out of the index exactly if it is used up. |
| PairEngines.FindActive | services/matching-engine/internal/orderbook/order_book.go:3-7 | The index finds exactly the listed orders, with what is left of them. |
| Matching.MatchOnce | services/matching-engine/internal/matching/matcher.go:30-93 | One turn of the loop does one step of the simple match on the priority list, or stops where it stops; the front of the best level always exists. |
| Matching.TakeAll | services/matching-engine/internal/matching/matcher.go:29-94 | The whole loop takes what the simple match takes and leaves what it leaves, and terminates. |
| Matching.Match | services/matching-engine/internal/matching/matcher.go:24-104 | On heap, map, queues and index together, matching terminates and gives the same trades, rest and book as the simple match on priority lists. |
| Snapshots.BookLevels | services/matching-engine/internal/pair/events.go:221-239 | Sorting the levels of the map gives exactly the aggregate of the resting orders. |
| Snapshots.SnapshotMeaning | services/matching-engine/internal/pair/events.go:221-239 | The aggregate has strictly ascending prices, a row for exactly the prices that occur, each with total and count. |
| Snapshots.SnapshotUnique | services/matching-engine/internal/pair/events.go:221-239 | No other list of rows says the same. |
| EngineSpec.MatchIdInjective | services/matching-engine/internal/pair/engine.go:91 | pair:command:index is the same text only for the same pair, command and index, whatever characters pair ids have. |
| PairEngines.PairEngine.HandleOpenMarket | services/matching-engine/internal/pair/engine.go:42-62 | The engine on the mutable book opens as its description says; a first opening takes any number; a later one beyond the next number gives one failure and fails the engine. |
| PairEngines.PairEngine.HandlePlaceOrder | services/matching-engine/internal/pair/engine.go:64-106 | Duplicate, gap, not ready, accepted: state and events are those of the description; a number beyond the next gives one failure, fails the engine and changes nothing else. |
| PairEngines.PairEngine.HandleCancelOrder | services/matching-engine/internal/pair/engine.go:108-137 | Duplicate, gap, not ready, not found, cancelled: state and events are those of the description; a number beyond the next gives one failure, fails the engine and changes nothing else. |
| PairEngines.PairEngine.EmitTrades | services/matching-engine/internal/pair/engine.go:89-93 | The loop numbers the trades and maps maker and taker to buyer and seller. |
| PairEngines.PairEngine.PlaceAndEmit | services/matching-engine/internal/pair/engine.go:76-101 | Trades, then the opening if anything rests, then the aggregate of the book after the match. |
| PairEngines.PairEngine.CancelAndEmit | services/matching-engine/internal/pair/engine.go:125-133 | The cancelled quantity is what was left, and the aggregate is that of the book after it. |
| PairEngines.PairEngine.BuildBookChanged | services/matching-engine/internal/pair/events.go:173-182 | The event carries the aggregates of both sides and the book number. |
| PairEngines.HandleCommand | services/matching-engine/internal/transport/redis_customer.go:175-199 | Each command goes to its handler. |
| Customers.Customer.GetEngine | services/matching-engine/internal/transport/redis_customer.go:162-170 | The engine of the pair, created recovering on first use; all other engines are as before. |
| Customers.Customer.Route | services/matching-engine/internal/transport/redis_customer.go:172-199 | The engine of the pair handles the command, no other engine changes. |
| Customers.Customer.Dispatch | services/matching-engine/internal/transport/redis_customer.go:127-213 | The engines of all pairs, as objects that share nothing, do what the description on values says; a message without header or number leaves no engine, one with an unreadable command may leave a new one. |
| Lifecycle.RunConserves | services/matching-engine/internal/matching/matcher.go:62-93 | As long as the events do not contradict each other: left before = executed + left after + cancelled. |
| EngineRuns.TakerRuns | services/matching-engine/internal/pair/events.go:124-161 | After each trade of a match the taker has left what that trade reports for its side. |
| EngineRuns.MakerRuns | services/matching-engine/internal/pair/events.go:124-161 | Each resting order loses what its one trade takes, at its own price. |
| EngineRuns.PlaceKeeps | services/matching-engine/internal/pair/engine.go:72-105 | An accepted placement: every order it touches still agrees with its events. |
| EngineRuns.CancelKeeps | services/matching-engine/internal/pair/engine.go:120-137 | A cancellation ends the life of its order with what was left of it. |
| EngineRuns.RefuseKeeps | services/matching-engine/internal/pair/engine.go:72-74 | A refused order is refused for good. |
| EngineRuns.OpenKeeps | services/matching-engine/internal/pair/engine.go:42-62 | Opening changes no order. |
| EngineRuns.HandleKeeps | services/matching-engine/internal/pair/engine.go:42-137 | Any command, in any state: book sound and uncrossed, resting orders exactly the live ones with what their events leave of them, no event contradicts an order's limit or side. |
| EngineRuns.HandleLocal | services/matching-engine/internal/pair/engine.go:64-137 | Commands of one pair never concern orders of another. |
| EngineRuns.AlwaysAcceptable | services/matching-engine/internal/pair/engine.go:76-86 | An order the engine is about to accept never rests already, so callers need not check. |
| EngineTraces.EveryRun | services/matching-engine/internal/pair/engine.go:42-137 | Every run over commands in any order, any number of times: the book is sound and uncrossed, and quantity = executed + resting + cancelled for each accepted order. |
| EngineTraces.RefusedForever | services/matching-engine/internal/pair/engine.go:72-74 | An order rejected once never rests, trades or is cancelled, even if its command comes again after the opening. |
| EngineTraces.TakesTurn | services/matching-engine/internal/pair/engine.go:149-158 | A command takes its turn, or changes nothing but perhaps the state to FAILED; a gap never touches the book. |
| EngineTraces.ConsecutiveTurns | services/matching-engine/internal/pair/engine.go:149-158 | Whatever is delivered, the commands that take their turn have consecutive numbers. |
| EngineTraces.RedeliveryHasNoEffect | services/matching-engine/internal/pair/engine.go:65-66 | A command that comes again after its turn, anywhere in a run, changes neither states nor events. |
| EngineTraces.HandleNumbers | services/matching-engine/internal/pair/engine.go:89-101 | Trades and book changes of one command are numbered on; the book number rises by one exactly when the book may change. |
| EngineTraces.RunNumbers | services/matching-engine/internal/pair/engine.go:89-101 | In every run trade numbers are 1..n in order of emission, and so are book numbers. |
| EngineTraces.RunMatchIds | services/matching-engine/internal/pair/engine.go:91 | No two trades of a run have the same match id. |
| EngineTraces.StoresBatch | services/matching-engine/internal/pair/engine.go:139-144 | A command that takes its turn leaves its number and its events in flight. |
| EngineTraces.PublishedIsBook | services/matching-engine/internal/pair/events.go:173-182 | In every run the last aggregate published is that of the book as it is. |
| EngineStalls.StopsAtRejection | services/matching-engine/internal/pair/engine.go:116-123 | Commands delivered once and in order are all taken up to the first cancellation of an order that does not rest; from there on none is, and the engine fails with its book as it was. |
| EngineStalls.AllGaps | services/matching-engine/internal/pair/engine.go:67-69 | Behind a gap every command is a gap. |
| EngineStalls.StaysBlocked | services/matching-engine/internal/pair/engine.go:64-137 | If whatever has the next number is turned down, any deliveries whatever leave the engine as it is, but perhaps for failing. |
| EngineTurns.TurnsKeep | services/matching-engine/internal/pair/engine.go:64-137 | Every command keeps: unheard orders have numbers to come, a refused order has the next number of an engine that is not ready. |
| EngineTurns.AnswersAccepted | services/matching-engine/internal/pair/engine.go:116-123 | A cancellation is turned down only for an order that was accepted before. |
| EngineEvents.HandleNames | services/matching-engine/internal/pair/events.go:124-161 | The events of a command name orders of its pair only; a trade's parties are its maker and its taker, sides by the taker's side. |
| EngineEvents.HandleSequences | services/matching-engine/internal/pair/engine.go:90 | The trades of a command have new and distinct numbers. |
| EngineAnswers.FailsAhead | services/matching-engine/internal/pair/engine.go:64-70 | A failure is emitted if and only if the number is beyond the next one (an opening of a new engine never is); then it is the only event and the only change is the state. |
| EngineAnswers.SilentOnOld | services/matching-engine/internal/pair/engine.go:149-158 | No event is emitted if and only if the command came before; then nothing changes. |
| EngineAnswers.RefusesWhenNotReady | services/matching-engine/internal/pair/engine.go:72-74 | An order is rejected if and only if its turn finds the market not ready, with that reason and no other event or change. |
| EngineAnswers.TurnsDown | services/matching-engine/internal/pair/engine.go:116-123 | A cancellation is rejected if and only if its turn finds the market not ready or no order with that id resting, with the reason of each, and no other event or change. |
| EngineAnswers.CancelsResting | services/matching-engine/internal/pair/engine.go:125-136 | A cancellation in its turn at a ready market cancels the order that rests, and reports what was left of it. |
| EngineAnswers.OpensInTurn | services/matching-engine/internal/pair/engine.go:42-62 | The opening of the market is reported if and only if an opening has its turn; the book and its numbers stay. |
| EngineAnswers.TradesReported | services/matching-engine/internal/pair/engine.go:87-93 | The events of an accepted order begin with its trades: the i-th with the i-th resting order of the other side, at that order's price, with what is left of it; then its opening if anything rests, last the new aggregate. |
| EngineAnswers.DispatchMeans | services/matching-engine/internal/transport/redis_customer.go:127-193 | A message without header, number or readable command is an error and changes no engine; any other is handled by the engine of its pair alone. |
| Ledger.ChainSums | apps/backend/src/modules/wallets/wallet-balance.service.ts:247-269 | If every entry starts where the previous one of its balance ended, the last balance is the initial one plus all amounts. |
| Ledger.ReconciledSums | apps/backend/src/modules/wallets/wallet-balance.service.ts:247-269 | Each balance is its initial value plus the amounts of its entries. |
| Ledger.PostReconciles | apps/backend/src/modules/wallets/wallet-balance.service.ts:34-63 | A change of a balance with its entry keeps the chain and its end. |
| Ledger.EnsuredReconciles | apps/backend/src/modules/engine-events/trade-settlement.service.ts:229-240 | So does a wallet created on first use. |
| Ledger.PostTotals | apps/backend/src/modules/wallets/wallet-balance.service.ts:34-63 | A posting changes the total of its asset by its amount and no other total. |
| Funds.LockingMoves | apps/backend/src/modules/wallets/wallet-balance.service.ts:21-66 | Locking takes the amount from the available balance of one wallet to its locked one and changes no other balance; totals, ledger and signs hold. |
| Funds.UnlockingMoves | apps/backend/src/modules/wallets/wallet-balance.service.ts:69-115 | Unlocking takes the amount from the locked balance of one wallet to its available one and changes no other balance; totals, ledger and signs hold. |
| Funds.CreditMoves | apps/backend/src/modules/wallets/wallet-balance.service.ts:118-142 | A credit raises the available balance of one wallet and its total by the amount and changes no other balance. |
| Funds.DebitMoves | apps/backend/src/modules/wallets/wallet-balance.service.ts:145-173 | A debit takes the amount from the locked balance of one wallet and its total, changes no other balance, and never goes below zero. |
| Funds.WithdrawalMoves | apps/backend/src/modules/wallets/wallet-balance.service.ts:176-204 | A withdrawal takes the amount from the available balance of one wallet and its total, and changes no other balance. |
| Funds.FeeMoves | apps/backend/src/modules/engine-events/trade-settlement.service.ts:188-215 | A positive fee is paid into the available balance of the treasury's wallet for the asset, which may be new, and no other balance changes; any other fee changes nothing. |
| Funds.TransferMoves | apps/backend/src/modules/engine-events/trade-settlement.service.ts:127-215 | For any parties, even sharing wallets: the buyer gets base less its fee, the seller quote less its fee, the treasury each positive fee, all available; locked balances fall by exactly the two amounts; totals change only by fees below zero. |
| Funds.TransferSucceeds | apps/backend/src/modules/engine-events/trade-settlement.service.ts:127-215 | The transfer goes through if and only if wallets, locked amounts, fees and treasury are as listed. |
| Funds.StoredRates | apps/backend/src/modules/engine-events/trade-settlement.service.ts:35-46 | The stored rates are those of taker and maker if and only if the taker bought or the rates are equal (lines 87-92). |
| Funds.LockedForUpdate | apps/backend/src/modules/engine-events/trade-settlement.service.ts:106-125 | What a user's orders have locked changes by what one order's lock changes. |
| Funds.LocksCover | apps/backend/prisma/add-contrains.sql:39-41 | A wallet's orders have locked at least what one of them has. |
| Transactions.PlacingKeeps | apps/backend/src/modules/orders/orders.service.ts:94-164 | A placement takes what the new order locks out of the available balance of that wallet and of no other; lock, locked balance, totals, ledger, signs and checks stay in step. |
| Transactions.PlacingSucceeds | apps/backend/src/modules/orders/orders.service.ts:44-103 | A placement goes through if and only if its key names the same request, or key and id are new, the request is admissible and the funds are there. |
| Requests.PlacingErrors | apps/backend/src/modules/orders/orders.service.ts:72-103 | Exactly which error answers a placement under a new key, or that it goes through. |
| Requests.PlacingDoes | apps/backend/src/modules/orders/orders.service.ts:94-164 | The stored order is pending and whole, with its cost locked, whole ticks and steps and the next order number; its command is sent under the next number; no other order and no other table changes. |
| Requests.PlacingAgain | apps/backend/src/modules/orders/orders.service.ts:63-71 | A key that was used before gives its order if the request is the same, else a conflict. |
| Requests.CancellingSucceeds | apps/backend/src/modules/orders/orders.service.ts:185-197 | Only the user of an order can ask to cancel it, and only while it is pending, open or partially filled; to others it is not found. |
| Requests.CancellingDoes | apps/backend/src/modules/orders/orders.service.ts:199-228 | The order becomes CANCEL_PENDING, its command is sent under the next number of its pair, nothing else changes. |
| Requests.OpeningDoes | apps/backend/src/modules/engine/open-market.bootstrap.service.ts:27-70 | A recovering pair without an unsent opening gets one command to open under the next number; otherwise nothing changes. |
| BackendSpec.ValidatedMeans | apps/backend/src/modules/orders/orders.service.ts:79-92 | A request passes if and only if its pair is ready, price and quantity are positive and k ticks and j steps for integers k and j, and both minima are reached; exactly which error else. |
| Transactions.CancellingKeeps | apps/backend/src/modules/orders/orders.service.ts:172-230 | A cancellation request moves no funds. |
| Transactions.CancelledKeeps | apps/backend/src/modules/engine-events/order-cancellation.service.ts:13-63 | A cancelled order gives what it still had locked back to the available balance of its own wallet, and no other balance changes; lock, locked balance and totals stay in step. |
| Transactions.SettlingKeeps | apps/backend/src/modules/engine-events/trade-settlement.service.ts:15-220 | A settlement, even of a senseless trade, keeps totals, ledger, signs, checks and keys; for a proper trade it also takes from locked balances just what it takes off the orders' locks. |
| Settlements.SettlingCharges | apps/backend/src/modules/engine-events/trade-settlement.service.ts:37-215 | A trade of q at price c gives the buyer q * (1 - r), the seller q * c * (1 - s) and the treasury q * r and q * c * s, r and s being the rates of taker and maker by side, out of the q * c and q that the two had locked; no other balance changes. |
| Settlements.SettlingSucceeds | apps/backend/src/modules/engine-events/trade-settlement.service.ts:15-220 | A trade settles if and only if its pair and orders are known, it is new, positive and covered by both orders, and the wallets and the treasury can pay and be paid. |
| Settlements.SettlingFills | apps/backend/src/modules/engine-events/trade-settlement.service.ts:101-125 | Whatever the status before, also CANCEL_PENDING, each order of a trade is filled if the trade took what was left of it, else partially filled; quantities and lock change by the trade, nothing else of any order does. |
| Settlements.SettlingStores | apps/backend/src/modules/engine-events/trade-settlement.service.ts:70-99 | One row is added: its parties are the users of the two orders, its fees the shares of both, its rates the two charged, swapped when the taker sells. |
| Settlements.TransferLines | apps/backend/src/modules/engine-events/trade-settlement.service.ts:127-215 | The ledger gets four lines and one for each positive fee, with wallet, balance, kind, amount and trade as listed. |
| Settlements.LockingLines | apps/backend/src/modules/wallets/wallet-balance.service.ts:40-63 | A placement adds two ledger lines, out of available and into locked. |
| Settlements.UnlockingLines | apps/backend/src/modules/wallets/wallet-balance.service.ts:88-112 | A cancellation adds two, the other way. |
| Settlements.AnswersMove | apps/backend/src/modules/engine-events/engine-event-consumer.service.ts:294-349 | What every message but a trade does to the status and the lock of an order, for each status before; nothing else of it changes. |
| Settlements.MessagesMark | apps/backend/src/modules/engine-events/engine-event-consumer.service.ts:287-319 | A pair is ready after its opening and suspended after the failure of its engine; no other message and no message of another pair changes it. |
| Settlements.AnswersSucceed | apps/backend/src/modules/engine-events/order-cancellation.service.ts:13-97 | A message that is no trade fails if and only if it cancels, or refuses to cancel, an order that is not stored, or one whose lock its wallet does not have. |
| Settlements.HandledWhole | apps/backend/src/modules/engine-events/engine-event-consumer.service.ts:166-192 | A message has its effect together with its mark, once; one that fails has neither. |
| Transactions.ReceivingKeeps | apps/backend/src/modules/engine-events/engine-event-consumer.service.ts:147-192 | So does every message, handled or failed. |
| Transactions.EveryRunConserves | apps/backend/src/modules/engine-events/engine-event-consumer.service.ts:147-192 | Whatever is requested and received, in any order: totals never change, no balance is negative, the ledger reconciles, trades share no key. |
| Transactions.RecordsGrow | apps/backend/src/modules/engine-events/engine-event-consumer.service.ts:183-191 | Nothing processed or placed is forgotten. |
| Transactions.RedeliveryHasNoEffect | apps/backend/src/modules/engine-events/engine-event-consumer.service.ts:166-176 | A message id delivered again, anywhere later and with whatever content, leaves the final tables the same. |
| Transactions.PlacingTwice | apps/backend/src/modules/orders/orders.service.ts:44-71 | The same key later names the same order and changes nothing, or fails for another request. |
| Transactions.EveryRunKeepsKeys | apps/backend/prisma/schema.prisma:268-269 | In every run a key stays with one order, that of its user and request, and orders of a pair have different numbers. |
| Databases.Database.MoveToLocked | apps/backend/src/modules/wallets/wallet-balance.service.ts:21-66 | Guards, both balances and both entries are those of the description. |
| Databases.Database.MoveToAvailable | apps/backend/src/modules/wallets/wallet-balance.service.ts:69-115 | Guards, both balances and both entries are those of the description. |
| Databases.Database.Credit | apps/backend/src/modules/wallets/wallet-balance.service.ts:118-142 | Guard, balance and entry are those of the description. |
| Databases.Database.DebitFromLocked | apps/backend/src/modules/wallets/wallet-balance.service.ts:145-173 | Guards, balance and entry are those of the description. |
| Databases.Database.DebitFromAvailable | apps/backend/src/modules/wallets/wallet-balance.service.ts:176-204 | Guards, balance and entry are those of the description. |
| Databases.Database.MoveFunds | apps/backend/src/modules/engine-events/trade-settlement.service.ts:127-215 | The four amounts and two fees in their order, stopping at the first that fails. |
| Databases.Database.InsertTrade | apps/backend/prisma/schema.prisma:276-314 | A trade is stored exactly if no stored one shares its match id, message or number in the pair and the checks hold. |
| Databases.Database.SettleTrade | apps/backend/src/modules/engine-events/trade-settlement.service.ts:15-220 | Step by step on rows, the result or error is that of the description; each order of a settled trade ends as filled or partially filled. |
| Databases.Database.OrderCancelledEvent | apps/backend/src/modules/engine-events/order-cancellation.service.ts:13-63 | Step by step on rows, the result or error is that of the description. |
| Databases.Database.HandleMessage | apps/backend/src/modules/engine-events/engine-event-consumer.service.ts:147-192 | Once per message id, and if anything throws every row is as before; sound tables stay sound with the same totals. |
| Databases.Database.Validate | apps/backend/src/modules/orders/orders.service.ts:73-92 | A request passes if and only if its pair is ready, price and quantity are positive and whole numbers of ticks and steps, and both minima are reached; which market error comes when. |
| Databases.Database.PlaceUserOrder | apps/backend/src/modules/orders/orders.service.ts:34-170 | Result and tables are those of the description; an error changes nothing; sound tables stay sound with the same totals. |
| Databases.Database.RequestOpening | apps/backend/src/modules/engine/open-market.bootstrap.service.ts:20-79 | A recovering pair gets a command to open; while one is unsent, nothing changes. |
| Databases.Database.CancelUserOrder | apps/backend/src/modules/orders/orders.service.ts:172-230 | Only the user of an order that is pending, open or partially filled can cancel it, others are told that there is none; result and tables are those of the description; an error changes nothing; sound tables stay sound with the same totals. |
| Exchange.FreshOk | apps/backend/src/modules/engine-events/engine-event-consumer.service.ts:147-192 | A new exchange satisfies everything that runs keep. |
| ExchangeRequests.PlacingStep | apps/backend/src/modules/orders/orders.service.ts:34-170 | A placement keeps the invariant of the whole exchange. |
| ExchangeRequests.CancellingStep | apps/backend/src/modules/orders/orders.service.ts:172-230 | A cancellation request keeps it. |
| ExchangeRequests.OpeningStep | apps/backend/src/modules/engine/open-market.bootstrap.service.ts:20-79 | A request to open keeps it. |
| ExchangeRequests.SkippedStep | apps/backend/src/common/helpers/sequence.helper.ts:4-9 | A number lost by a rolled back transaction keeps it. |
| ExchangeRequests.PublishedStep | apps/backend/src/modules/outbox/outbox-poller.service.ts:86-92 | Marking a command as sent keeps it. |
| ExchangeDeliveries.TurnsDelivered | services/matching-engine/internal/transport/redis_customer.go:127-213 | Orders have their turns in the order of their numbers, and no cancellation of a refused or unheard order is ever answered. |
| ExchangeDeliveries.DeliveredStep | services/matching-engine/internal/transport/redis_customer.go:127-213 | A command reaching its engine, for the first time or again, keeps it. |
| ExchangeDeliveries.DeliveriesAcceptable | services/matching-engine/internal/transport/redis_customer.go:172-199 | What an engine asks of its caller holds at every delivery. |
| ExchangeConsumption.BuyCovers | apps/backend/src/modules/engine-events/trade-settlement.service.ts:106-115 | What a buy order has locked covers a trade within its limit and then still the rest at its limit. |
| ExchangeConsumption.LifeNotBroken | services/matching-engine/internal/pair/engine.go:64-137 | No message of the stream contradicts an order or its earlier messages. |
| ExchangeConsumption.RowFollowsOn | apps/backend/src/modules/engine-events/engine-event-consumer.service.ts:279-350 | After the next message the row of an order says what the messages so far say. |
| ExchangeConsumption.SettlementSucceeds | apps/backend/src/modules/engine-events/trade-settlement.service.ts:15-220 | In every reachable state the trade that comes next settles: quantities, locks, wallets, fees and keys all fit. |
| ExchangeConsumption.ConsumptionSucceeds | apps/backend/src/modules/engine-events/engine-event-consumer.service.ts:166-192 | In every reachable state the message that comes next is handled without error. |
| ExchangeRuns.TradesConsumed | apps/backend/src/modules/engine-events/trade-settlement.service.ts:70-99 | Each handled trade has exactly one row and each row is that of a handled trade, in the order of the stream; a message adds its own row or none. |
| ExchangeRuns.RedeliveredStep | apps/backend/src/modules/engine-events/engine-event-consumer.service.ts:167-176 | An earlier message that comes again changes nothing. |
| ExchangeRuns.StepKeeps | apps/backend/src/modules/engine-events/engine-event-consumer.service.ts:147-192 | Every step of backend, engines and consumer keeps the invariant. |
| ExchangeRuns.EveryRun | apps/backend/src/modules/engine-events/engine-event-consumer.service.ts:147-192 | So does every run. |
| ExchangeTheorems.ReachableOk | apps/backend/src/modules/engine-events/engine-event-consumer.service.ts:147-192 | Every state that a run of a new exchange ends in satisfies the invariant. |
| ExchangeTheorems.NothingFails | apps/backend/src/modules/engine-events/trade-settlement.service.ts:101-186 | In every reachable state the next message is handled: no settlement ever lacks locked funds. |
| ExchangeTheorems.DatabaseFollowsEngine | apps/backend/src/modules/engine-events/trade-settlement.service.ts:101-125 | When the messages left are handled, each order of the tables rests in the book of its pair exactly if it was accepted and is neither filled nor cancelled, and whatever rests in any book has a row of that pair with that side, price and quantity; the table of trades holds the trades of the stream and nothing else, each once and in their order. |
| ExchangeTheorems.RemaindersAgree | apps/backend/src/modules/engine-events/trade-settlement.service.ts:101-104 | The remainders computed at settlement are those the engine reported, and the price lies within both limits. |
| ExchangeTheorems.TradePays | apps/backend/src/modules/engine-events/trade-settlement.service.ts:37-215 | In every reachable state the next trade changes each balance by exactly what quantity, price and the rates of its pair give for buyer, seller and treasury. |
| ExchangeTheorems.BooksNeverCrossed | services/matching-engine/internal/matching/matcher.go:42-48 | In no reachable state of the exchange is a book crossed. |
| ExchangeTheorems.QuantityConserved | services/matching-engine/internal/matching/matcher.go:62-93 | Quantity = executed in the stream + resting + cancelled, per accepted order. |
| ExchangeTheorems.FinalStays | apps/backend/src/modules/engine-events/engine-event-consumer.service.ts:294-349 | The row of a filled, cancelled or rejected order is not changed by any step. |
| ExchangeTheorems.FinalForever | apps/backend/src/modules/engine-events/engine-event-consumer.service.ts:294-349 | Nor, from any reachable state, by any run. |
| ExchangeTheorems.StatusMeans | apps/backend/prisma/schema.prisma:51-61 | Each status agrees with the messages handled: pending and nothing heard, open and accepted whole, partially filled and something left, filled and nothing left, cancelled, rejected. |
| ExchangeTheorems.PairStatusFollows | apps/backend/src/modules/engine-events/engine-event-consumer.service.ts:287-319 | In every run a pair is ready or suspended as the last message about it that was handled said. |
| ExchangeTheorems.RejectionRecorded | apps/backend/src/modules/engine-events/engine-event-consumer.service.ts:304-312 | A rejection is recorded if and only if the order is pending (or was recorded) when its message is handled; one that waits for its cancellation is left as it is. |
| ExchangeTheorems.RejectionLost | apps/backend/src/modules/engine-events/engine-event-consumer.service.ts:304-312 | In every later run an order whose rejection met CANCEL_PENDING stays CANCEL_PENDING with its whole lock. |
| ExchangeTheorems.RejectedKeepsLock | apps/backend/src/modules/engine-events/engine-event-consumer.service.ts:304-312 | A rejected order keeps everything locked. |
| ExchangeTheorems.ImprovementStaysLocked | apps/backend/src/modules/engine-events/trade-settlement.service.ts:106-115 | What a buy order has locked is what its rest costs at its limit plus all price improvement so far. |
| ExchangeTheorems.FilledReleases | apps/backend/src/modules/engine-events/trade-settlement.service.ts:106-115 | A filled buy order has everything released if and only if each of its trades was at its limit. |
| ExchangeTheorems.FundsAreSafe | apps/backend/src/modules/wallets/wallet-balance.service.ts:21-204 | In every run: totals constant, no balance negative, ledger reconciled, and locked = locked by orders + locked at the beginning, for each wallet. |
| ExchangeTheorems.RedeliveryMakesNoDifference | apps/backend/src/modules/engine-events/engine-event-consumer.service.ts:167-176 | A message delivered again anywhere in a run of the exchange makes no difference. |
| ExchangeHistories.AheadIsReported | services/matching-engine/internal/pair/engine.go:64-70 | A delivery ahead of turn puts one failure into the stream. |
| ExchangeHistories.AheadSuspends | apps/backend/src/modules/engine-events/engine-event-consumer.service.ts:314-319 | Once that failure is handled and no later opening is, the pair is suspended, and no order can be placed in it. |
| ExchangeHistories.TradeOverwrites | apps/backend/src/modules/engine-events/trade-settlement.service.ts:101-125 | In every reachable state, an order is filled or partially filled once a trade of it is handled, and waits for its cancellation afterwards only if its user asks again. |
| ExchangeHistories.OnlyItsUserCancels | apps/backend/src/modules/orders/orders.service.ts:185-197 | In every run of a new exchange an order whose user does not ask for it is never cancelled nor waits for that; no engine is told so, no message says so. |
| ExchangeHistories.EveryTradeCharged | apps/backend/src/modules/engine-events/trade-settlement.service.ts:37-99 | In every reachable state each stored trade names the users of its two orders and the fees that the rates of its pair make. |
| ExchangeHistories.TradesAtMakersPrice | services/matching-engine/internal/matching/matcher.go:60-63 | In every reachable state each trade of the stream was made at the limit price of its maker. |
| ExchangeStalls.RefusalBlocks | services/matching-engine/internal/pair/engine.go:72-74 | One refused placement blocks its market. |
| ExchangeStalls.BlockedForever | services/matching-engine/internal/pair/engine.go:116-123 | Once the next number belongs to a command that is turned down, or to none, then in every later run the engine takes no command and its book never changes. |
| ExchangeStalls.BlockedExactly | services/matching-engine/internal/pair/engine.go:42-137 | A market is blocked if and only if no later run gets its engine to take a command. An engine that is ready and has taken all numbers given out is left aside. |
| ExchangeStalls.Reopens | apps/backend/src/modules/engine/open-market.bootstrap.service.ts:20-79 | A pair still recovering whose engine has taken all its numbers, or none, can be asked to open and is, whatever openings wait. |
| ExchangeStalls.AheadOfTurn | services/matching-engine/internal/pair/engine.go:67-69 | A command that reaches an open engine ahead of its turn blocks the market if and only if the next number is not that of an opening. |
| ExchangeStalls.LostNumberBlocks | apps/backend/src/common/helpers/sequence.helper.ts:4-9 | A lost number blocks an open market that has taken all others. |
| ExchangeExamples.RejectionGetsLost | apps/backend/src/modules/engine-events/engine-event-consumer.service.ts:304-312 | In any new exchange an order placed and cancelled before the engine of its pair is opened ends as one whose rejection is lost, and its market is blocked. |
| ExchangeExamples.RejectionCanBeLost | apps/backend/src/modules/engine-events/engine-event-consumer.service.ts:304-312 | Such an exchange and order. |
| ExchangeExamples.DifferenceStaysLocked | apps/backend/src/modules/engine-events/trade-settlement.service.ts:106-115 | In any new exchange where a sell order and a buy order of the same quantity at a higher limit can be placed, a run fills the buy order and leaves it exactly the difference locked. |
| ExchangeExamples.FilledCanStayLocked | apps/backend/src/modules/engine-events/trade-settlement.service.ts:106-115 | Such an exchange: one unit bought at one with a limit of two leaves one locked. |
| ExchangeExamples.SecondFirstBlocks | services/matching-engine/internal/pair/engine.go:67-69 | If of two such placements the second is delivered first, the market is blocked. |
| Pagination.SelectsSuffix | apps/backend/src/common/helpers/cursor.helper.ts:35-48 | A cursor selects all rows from some row on. |
| Pagination.PageHolds | apps/backend/src/common/helpers/cursor.helper.ts:53-70 | A page holds the next rows up to the limit and has a cursor exactly if more follow; the cursor passes its page. |
| Pagination.WalkDescends | apps/backend/src/common/helpers/cursor.helper.ts:35-70 | Following cursors ends, in descending order and without seeing a row twice, for any table and limit. |
| Pagination.CompleteAt | apps/backend/src/common/helpers/cursor.helper.ts:35-70 | With a given limit all rows are seen exactly once in order if and only if every two neighbours between which a page ends are joined. |
| Pagination.CompleteIff | apps/backend/src/common/helpers/cursor.helper.ts:35-70 | All rows are seen, whatever the limit, if and only if every two neighbours are joined. |
| Pagination.JoinedMeans | apps/backend/src/common/helpers/cursor.helper.ts:9-16 | Neighbours are joined if and only if they lie in different milliseconds, or the second lies on a whole one and has the smaller id. |
| Pagination.WholeMillisecondsComplete | apps/backend/src/common/helpers/cursor.helper.ts:35-70 | With timestamps of whole milliseconds every row is seen exactly once, however many are equal. |
| Pagination.MicrosecondsLoseRows | apps/backend/src/common/helpers/cursor.helper.ts:9-16 | Two rows within one millisecond: the second is never seen. |

## Left out

- Redis clients, consumer groups and pending lists, the outbox poller and its backoff: streams are sequences, delivery is arbitrary.
- Publishing that fails after the engine has changed, engine restarts and retries of the batch in flight: the code has no recovery.
- Messages that cannot be parsed or have an unknown type: the consumer acknowledges the first and records the second without effect.
- The market name, timestamps, UUIDs, digests and base64 and JSON text in rows, events and cursors: ids are opaque and fresh, a digest is the
  request it is taken of. A message id is the place of the message in the stream.
- The lookup of a pair by its symbol: requests name the pair.
- Rounding of NUMERIC(38,18) and of decimal.js, and decimals with more than 18 places: amounts are exact. Fees and quote amounts may need up to 54 places.
- Widths of integers: sequence numbers are unbounded instead of 64 bits.
- Multiplication of decimals in the engine: nothing uses it.
- ExchangeStalls.BlockedExactly: an engine that is ready and has taken every number given out is neither blocked nor has it a command to take; whether
  any request can still be made then depends on all balances and orders.
- Isolation of concurrent transactions: each transaction is one step.
- Matching.Match: a negative quantity, and an order with something left whose id rests already. The engine does not check for them, and its
  indexes would no longer fit its queues; the exchange never delivers one (`ExchangeDeliveries.DeliveriesAcceptable`).
- Matching.TakeAll: the same two kinds of order.
- Matching.MatchOnce: the same two kinds of order.
- OrderBooks.OrderBook.AddOrder: an order of no or negative quantity, or with the id of a resting one; matching never lets one rest.
- SideBooks.SideBook.AddOrder: the same two kinds of order.
- PriceLevels.PriceLevel.Enqueue: an order whose id is queued already; the index of the level would lose the first.
- PairEngines.PairEngine.HandlePlaceOrder: the same two kinds of order as Matching.Match.
- PairEngines.PairEngine.PlaceAndEmit: the same two kinds of order.
- PairEngines.HandleCommand: the same two kinds of order.
- Customers.Customer.Route: the same two kinds of order.
- Customers.Customer.Dispatch: the same two kinds of order.
- PriceLevels.PriceLevel.Remove: list elements are represented by the orders they hold; the id index maps to orders.
- The incoming order's id in a trade result: every trade of a match has the same one, which the events take from the command.
- Snapshots.BookLevels: inserts the levels of the map, in any order of its keys, one by one into a sorted list instead of sorting afterwards.
- Foreign keys other than those of a trade's orders, the status in the answer of a repeated placement, and the post-commit order book cache.
- Market queries that sort through JavaScript numbers, the websocket gateway, controllers, validation of request bodies, auth, the seed script, the web app.
- The Solidity contracts are not modelled.
