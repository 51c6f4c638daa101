# The Dalal Street exchange core, modelled and proved

Dalal Street is a stock market game server. Users place limit, market and stop-loss orders; a matcher
per stock keeps two binary heaps and two stop-loss heaps, pairs incoming orders with the best order of
another user, and calls the accounts to fill the pair; the accounts move cash in and out of reserve and
write a ledger; a depth stream publishes the open quantity at each price. This project models that core
and proves what holds of it in every run.

## How the model is built

Each part of the program appears twice. The objects, loops and rollbacks are classes and methods
(`OrderQueue`, `MarketDepthStream`, `OrderBook`, `OrderFill`, `Server`, `StockRow`, `SummaryRow`), and the
`ensures` of each method says that its new state is a function of its old state. Those functions
(`Heap.Push`, `Matching.Process`, `Accounts.Fill`, ...) are defined on values, and the theorems about all
inputs, all runs and all schedules are lemmas about them.

| file | what it is about |
|---|---|
| `Words`, `Orders`, `State`, `Seqs`, `Sums`, `Wrappers` | machine words; orders, rows and tables; sequences and sums |
| `Heap`, `PQueue` | the heap and the queue object |
| `MarketDepth` | the depth stream, its differences and its listeners |
| `Matching`, `OrderBook` | matching on values and as an object with loops |
| `BookTheorems`, `NoOrderLost`, `Uncrossed`, `ClearExisting` | what matching keeps and when it loses an order |
| `Ranking`, `TradePrices` | who comes first, at what price, and what a trade does to its stock's price, in the orders' own fields |
| `DepthAgrees`, `DepthStops`, `DepthTurn`, `DepthRuns` | incremental depth against the sum over resting orders |
| `ClearDepth`, `ClearRuns` | the same for start-up matching, and when it leaves the book uncrossed |
| `Tax`, `Accounts`, `FillTransaction`, `Server` | tax, accounts, fills with rollback, placing, cancelling, banks |
| `Reservations`, `OrderLife`, `DoubleEntry`, `StockReserves`, `Conservation`, `Mortgages` | invariants of every run of the accounts |
| `Effects` | which orders are accepted, and who has how much cash and how many stocks after each operation, in numbers |
| `RealFills`, `MarketRuns`, `Exchange`, `Startup` | the matcher over the real accounts, from a restart on |
| `Locks` | account and stock locks: every interleaving finishes |
| `Stocks`, `PriceHistory`, `StockRecorder` | the running average, highs and lows, price bars |
| `Witnesses` | concrete inputs at which the conditions of the theorems fail |

Conventions. The twin structs and methods for asks and bids are one, parametrised by side. An order's
fixed fields are a value. What fills and cancellations write (quantity filled, closed) exists up to three
times, by order id, because the program's copies can come apart: `progress` is the object in the queue,
`stored` the row of the table, `entries` what `asksMap` or `bidsMap` holds, which is nothing, the queue's
object, or another one. A save writes over the order's row, or inserts one where there is none.
`fillOrderFn` is a function variable in the source, and saving a woken stop-loss may fail, so the matcher is
proved for any `Desk` that fills and saves, and `RealFills` puts the real one in. A database that may fail is
a `budget`: how many more writes succeed. A user's cash is an unsigned 64-bit word: every credit and debit wraps (`Wrap64`), and
every check reads it as the source does, signed (`Signed64`) or unsigned. The running average and cost
bases are exact reals.

## Main results

* **A server's runs** (`ServerIsLegal`): in every run of one stock's orders of any type, with stop-losses
  waiting and woken, orders whose placing was rolled back, cancellations, other legal operations in between
  and any writes failing, the accounts move by legal operations only. So everything below that holds of
  legal runs holds of the server: `ServerBalances` draws two of the conclusions.
* **Reservations** (`ReservedCashIsOpenBids`): in every legal run each user's reserved cash stays the sum of
  what their open bids still need, if and only if no step uses a reservation twice or gives one up. While
  every order's row and objects stay together only the saving of a stop-loss whose cancellation had failed
  does so (`StaysTogether`), and exactly which steps take them apart is `StepAttachedIff`.
* **Reserved stocks** (`SetAsideIsOpenAsks`): the stocks the ledger sets aside are what open asks still offer,
  if and only if no step deals in stocks never set aside, or gives some up.
* **Double entry** (`LedgerBalances`, `ExactIffTaxesCovered`): in every run cash is the opening cash plus the
  ledger modulo 2^64; the two are equal after every step, and nobody is ever in debt, if and only if no
  buyer's tax exceeds what the trade leaves them.
* **Finality** (`ClosedIsFinal`) and **conservation of stocks** (`StocksConserved`).
* **Depth** (`TurnKeepsDepthIff`, `ArrivalKeepsDepthIff`, `RealTurnKeepsDepthIff`, `RealCallKeepsDepthIff`,
  `ClearTurnIff`): for any fill, any stop-losses and an order open or cancelled, exactly which turns of
  matching keep the depth right; over the real accounts, by cash, share of the reservation and writes.
* **No order lost** (`PopsExactlyFinishedIff`, `DroppedIff`): what leaves the counter queue in a call is
  exactly what finished, if and only if no woken stop-loss overtakes the counter-order in some turn; and the
  incoming order ends open and in no queue if and only if some fill cannot be written.
* **Fair trades** (`DrainRanks`, `DealsOnTerms`, `NewcomerTakesPrice`, `DealsReported`): queues give up market
  orders by age, then limit orders by price and quantity; every trade of a call is at the older limit order's
  price, or the limit order's against a market order, so a newcomer takes the resting orders' prices; and
  listeners are told of exactly these trades.
* **Prices** (`FillMovesPrice`, `PricesStayInRange`): a trade moves its own stock by its price and quantity, and
  over any run of all operations a stock's price stays within the range of the prices traded at.
* **Accounts** (`AskBorrows`, `BidReserves`, `FillPays`, `SellTaxIs`, ...): what each operation takes from whom, as
  numbers: an ask borrows exactly what its user lacks, a profit is taxed at exactly its bracket's rate.
* **An uncrossed book** (`StaysUncrossedIff`, `ClearedUncrossedIff`): exactly which turns leave two users'
  orders crossing.
* **One stock's exchange** (`StockStaysInOrder`): for limit orders and market asks, without stop-losses and
  with working writes, in every run of placements and cancellations in one stock, with any legal operations
  beside them, the depth at each side and price is the sum of the open quantities, every open order of the
  stock is in its queue, no two resting orders of different users match, and the accounts only move by legal
  operations. `NoTradeMissed` follows: no two open orders of different users are left that could trade. A
  restarted server whose open orders are of these kinds is in that state once it has loaded and matched them
  (`StartsInOrder`).
* **Mortgages** (`NoPumpIff`), **locks** (`OperationsFinish`: any operations, under every schedule, finish) and
  **bars** (`CombinedIsRecordedOnce`).

## Where the code falls short of its intent

Each of these is a lemma that says exactly when the intended property holds, most with an input at which
it fails.

* `makeTrade` wakes stop-losses before the finished counter-order is popped, so a woken one that ranks
  above it is popped and lost in its place (`PopsFinishedIff`, `WrongOrderPopped`). At start-up the bidder's
  own skipped asks are put back before the pop, with the same effect (`ClearPopsFinishedIff`,
  `WrongAskCleared`).
* When a fill neither trades nor finds the resting order closed, the depth forgets that order although it
  stays in the queue: after a failed write, when the incoming order was cancelled before it was processed,
  and when an incoming bid lacks the cash and is closed instead (`TurnKeepsDepthIff`,
  `RealTurnKeepsDepthIff`, `ShortBidForgetsAsk`). A cancelled order that rests is counted (`ClosedRestBreaks`).
* A stop-loss cancelled while dormant enters the depth when it is woken and is never taken out again
  (`WakingKeepsDepthIff`, `CancelledStopCounted`).
* A fill whose writes fail, or whose bid has no deposit, leaves the incoming order open and in no queue
  (`DroppedIff`, `IncomingDropped`).
* Closing a bid for lack of cash takes it out of `bidsMap` before the commit. If a later write fails the bid
  stays open in the queue, a cancellation finds a second object, closes that one and refunds the bid, and
  the queue's object can still be filled: its reservation is used twice and its closed row written over
  (`HalfClosedDetaches`, `CancelAfterHalfClose`, `RowFinalIff`, `BidsCanComeApart`).
* A cancellation whose first write fails leaves the order closed in memory and its row open, and refuses
  every retry (`FirstWriteSticks`, `StuckStays`); a restart undoes that (`RestartSyncs`). But if it is a
  stop-loss and a trade wakes it first, the closed object is saved over the row: what it held in reserve, or
  set aside, is never returned, not even by a restart (`WokenStuckIsLost`, `LostForGood`, `StuckStopIsLost`).
  If a later write fails a retry succeeds (`FailedCancelRetryIff`). Until then the depth still counts the
  order (`UntoldCancelBreaks`).
* Placing an order whose writes fail returns a nil error, so the rolled-back order goes to the matcher and,
  if its own row had been written, stays in the map. An ask that trades then was never set aside in the
  ledger; cancelling one pays its user stocks never set aside (`UnrecordedIsForeign`, `SetAsideIsOpenAsks`,
  `UnrecordedCancelPays`); both, and the waking of a stop-loss, record the order after all (`ForeignStays`).
  A bid has no deposit and never trades (`ForeignBidNeverTrades`).
* Woken stop-losses can leave the book crossed (`StaysUncrossedIff`, `WokenStopCrosses`). Start-up matching
  stops as soon as the best bid meets only asks of its own user, whatever the next bids would match
  (`ClearedWithoutStopsIff`, `StartUpStopsEarly`).
* A depth listener registers at another time than its snapshot is taken and misses or counts twice what
  changes in between (`ListenerExactIff`, `SnapshotFirstIff`, `RegistrationFirstIff`).
* A buyer's tax is subtracted unsigned and can exceed the buyer's cash, which then wraps to almost 2^64
  (`BuyerTaxCanUnderflow`).
* At prices 1 to 4, retrieving mortgaged stocks one at a time costs less than mortgaging paid
  (`PumpGains`).
* The lock on a pair of users blocks on itself if both are the same (`SelfFillBlocks`); the matcher never
  asks for that (`TopMatchCorrect`). Updating the price of an unknown stock never lets go of the lock on the
  map of stocks (`LeakBlocksForever`).
* With no record inside the window, an N-minute bar is made of all older records (`WindowExactIff`).

## Model

| member | source | states |
|---|---|---|
| Orders.LessIsStrictWeakOrder | matchingengine/pqueue.go:270-341 | both comparators are strict weak orders |
| Orders.BestDecidesMatch | matchingengine/helpers.go:18-23 | if the best-ranked order does not match, no lower-ranked one does |
| Orders.LimitProtection | matchingengine/helpers.go:28-50 | limit sellers never get less, limit buyers never pay more than their price; nothing is overfilled and one side is exhausted |
| TradePrices.NextDealOnTerms | matchingengine/helpers.go:35-47 | a turn trades at the older limit order's price, the bid's on a tie; against a market order at the limit order's; between market orders at the stock's current price |
| TradePrices.DealsOnTerms | matchingengine/OrderBook.go:310-417 | so does every trade of a whole call, none of them beyond a limit or with the same user |
| TradePrices.NewcomerTakesPrice | matchingengine/OrderBook.go:310-417 | a limit order newer than every resting limit order trades with each of them at the resting order's price |
| TradePrices.DealsReported | datastreams/MarketDepth.go:236-260 | listeners are told of exactly the trades of a call, in order, with price and quantity |
| TradePrices.FillMovesPrice | models/User.go:2143-2146 | a trade adds its quantity to its stock's volume and closes as many parts of the gap between average and trade price as it has stocks, of one, two or three counting; a large enough one sets the price; other stocks stay; if the price is not saved only average and volume change |
| TradePrices.OthersKeepPrices | models/User.go:1682-1830 | no other operation changes the price or average of any stock |
| TradePrices.PricesStayInRange | models/Stock.go:160-175 | over any run of all operations, whatever writes fail, average and price of a stock stay between the lowest and highest price it traded at or started from |
| Heap.HeadMaximal | matchingengine/pqueue.go:198-224 | nothing in the queue ranks above its head |
| Heap.PushRefines | matchingengine/pqueue.go:135-155 | a push keeps heap order and adds exactly the pushed order |
| Heap.PopRefines | matchingengine/pqueue.go:158-195 | a pop keeps heap order and removes exactly a best order |
| Heap.DrainSorts | matchingengine/pqueue.go:158-195 | popping until empty gives a permutation of the queue, best first |
| Heap.HeadSurvivesIff | matchingengine/pqueue.go:135-155 | after pushes the old head is still first if and only if no pushed order ranks above it |
| Ranking.DrainRanks | matchingengine/pqueue.go:262-341 | popping until empty gives market orders by age, then bids by falling and asks by rising price, at equal price the larger first |
| Ranking.PushRanks | matchingengine/pqueue.go:262-341 | a pushed order becomes the head exactly if it comes before the old head in that order |
| PQueue.OrderQueue.Push | matchingengine/pqueue.go:135-155 | heap order kept, the multiset gains the order |
| PQueue.OrderQueue.Pop | matchingengine/pqueue.go:158-195 | none when empty; otherwise the best order leaves and the rest stay a heap |
| PQueue.OrderQueue.Head | matchingengine/pqueue.go:198-224 | the best order, or none exactly when empty |
| PQueue.OrderQueue.SwimUp | matchingengine/pqueue.go:357-370 | the loop that moves an order up does what the recursive definition says |
| PQueue.OrderQueue.SinkDown | matchingengine/pqueue.go:372-403 | the loop that moves an order down does what the recursive definition says |
| Depths.MarketDepthStream.AddOrder | datastreams/MarketDepth.go:202-233 | total and pending difference at one level grow together; market orders go to level 0 |
| Depths.MarketDepthStream.CloseOrder | datastreams/MarketDepth.go:264-309 | both shrink by at most the total there, and empty levels disappear |
| Depths.MarketDepthStream.AddTrade | datastreams/MarketDepth.go:236-260 | the trade joins the recent ones and the pending ones |
| Depths.MarketDepthStream.Flush | datastreams/MarketDepth.go:84-145 | listeners get the pending differences, which are then forgotten; without listeners nothing happens |
| Depths.AddingGives | datastreams/MarketDepth.go:202-233 | an order adds its quantity to one side and price level, market orders at level 0, and to what listeners are still to be told about it; nothing else changes |
| Depths.ClosingTakes | datastreams/MarketDepth.go:264-309 | a closing takes its quantity, or all there is if less, from one side and level and from what is pending there; a level with nothing left disappears |
| Depths.CloseUndoesAdd | datastreams/MarketDepth.go:202-309 | closing what was added restores every level |
| Depths.ListenerExactIff | datastreams/MarketDepth.go:84-189 | a subscriber whose snapshot and registration happen at different times, in either order, sees true totals if and only if the snapshot had what was already broadcast at registration |
| Depths.SnapshotFirstIff | datastreams/MarketDepth.go:147-189 | with the snapshot first: if and only if the broadcasts missed add up to what was pending then |
| Depths.RegistrationFirstIff | datastreams/MarketDepth.go:147-189 | with registration first: if and only if what was pending and what changed until the snapshot cancel out |
| Depths.KeepsLast21 | datastreams/MarketDepth.go:236-260 | the recent trades are always the last 21 ever reported |
| BookTheorems.TopMatchCorrect | matchingengine/OrderBook.go:241-301 | the counter-order is best among other users' orders; none exactly when no other user's order matches; never the same user |
| Ranking.BestCounterRanks | matchingengine/OrderBook.go:241-301 | the counter-order of an ask is the oldest market bid or highest limit bid of another user, of a bid the oldest market ask or lowest limit ask, the larger at equal price, and within the limit |
| Ranking.NoCounterMeans | matchingengine/helpers.go:18-23 | if there is none, all orders of other users are limit orders priced strictly beyond the limit of a limit order |
| BookTheorems.PutBackRestores | matchingengine/OrderBook.go:241-301 | putting skipped orders back restores the queue as a multiset and a heap |
| BookTheorems.TriggerExact | matchingengine/OrderBook.go:516-554 | dormant stops left are exactly those not reached by the price, and every reached one is active in the live queue |
| Ranking.WakesByPrice | matchingengine/OrderBook.go:525-546 | a trade at a price wakes exactly the stops to sell set at or above it and the stops to buy set at or below it |
| Ranking.NewStopWaits | matchingengine/OrderBook.go:131-181 | a new stop to sell waits exactly while the current price is above its own, one to buy while it is below |
| BookTheorems.TriggerKeepsPopulation | matchingengine/OrderBook.go:516-554 | waking loses and duplicates no order |
| BookTheorems.RacingPushIsSafe | matchingengine/OrderBook.go:523-551 | if the head was to be triggered, so is whatever is popped after another stop was pushed in between |
| NoOrderLost.ProcessConserves | matchingengine/OrderBook.go:310-417 | the counter side loses exactly what was popped; the order joins its side exactly when it rests |
| NoOrderLost.ProcessKeepsValid | matchingengine/OrderBook.go:310-417 | all four queues stay heaps of their own kind of order |
| NoOrderLost.PopsFinishedIff | matchingengine/OrderBook.go:321-335 | the popped order is the finished one if and only if no woken stop-loss of its side ranks above it |
| NoOrderLost.PopsExactlyFinishedIff | matchingengine/OrderBook.go:310-417 | over a whole call, popped equals finished if and only if no turn is overtaken |
| NoOrderLost.NothingLost | matchingengine/OrderBook.go:310-417 | without counter-side stop-losses the counter queue loses exactly the finished orders |
| NoOrderLost.AddNewKeepsValid | matchingengine/OrderBook.go:131-181 | a new order of any type leaves all four queues heaps of their own kind |
| NoOrderLost.StopWaitsIff | matchingengine/OrderBook.go:131-181 | a new stop-loss waits in its dormant queue if and only if the price has not reached it |
| Uncrossed.RestedMatchesNobody | matchingengine/OrderBook.go:310-417 | when an order rests, no other user's live order matches it |
| Uncrossed.StaysUncrossed | matchingengine/OrderBook.go:310-417 | a call that wakes no stop-loss leaves an uncrossed book uncrossed |
| Uncrossed.OnlyWokenOrdersCross | matchingengine/OrderBook.go:455-554 | any crossing pair after a call includes a stop-loss that was dormant before it |
| Uncrossed.StaysUncrossedIff | matchingengine/OrderBook.go:455-554 | from an uncrossed book, a call leaves the book uncrossed after every turn if and only if in each turn every stop-loss the price reaches, unless it is the order popped, has only its own user's orders opposite it, those reached included |
| Uncrossed.EndsUncrossedIff | matchingengine/OrderBook.go:310-554 | from any book, whether the call ends uncrossed is decided by its last turn: no two users' orders that are live or reached, and not popped, match |
| ClearExisting.ClearConservesAsks | matchingengine/OrderBook.go:559-609 | start-up matching takes from the asks exactly what it pops |
| ClearExisting.ClearConservesBids | matchingengine/OrderBook.go:559-609 | the bids lack exactly the finished ones and, after a failed fill, the bid held |
| ClearExisting.ClearPopsFinishedIff | matchingengine/OrderBook.go:573-600 | the ask popped is the finished one if and only if neither a woken stop nor one of the bidder's own asks ranks above it |
| OrderBooks.OrderBook.CancelOrder | matchingengine/OrderBook.go:188-213 | only the depth hears of a cancellation, and not for a dormant stop |
| OrderBooks.OrderBook.GetTopMatching | matchingengine/OrderBook.go:241-301 | the loop over the user's own orders picks what the theorems above describe |
| OrderBooks.OrderBook.ProcessOrder | matchingengine/OrderBook.go:310-417 | the loop of processAsk and processBid ends and does what the theorems above describe |
| OrderBooks.OrderBook.TradeBetween | matchingengine/OrderBook.go:455-511 | depth, trades and stop-losses after a fill, by who was incoming and what the fill reported |
| OrderBooks.OrderBook.TriggerStops | matchingengine/OrderBook.go:516-554 | both loops wake exactly the reached stops, in pop order, and save each |
| OrderBooks.OrderBook.WakeTop | matchingengine/OrderBook.go:528-535 | one stop leaves its queue, is saved or not, and joins the live queue and the depth with its whole quantity |
| OrderBooks.OrderBook.ClearExistingOrders | matchingengine/OrderBook.go:559-609 | the start-up loop ends and does what the theorems above describe |
| DepthAgrees.ShrinkKeeps | datastreams/MarketDepth.go:264-309 | a fill or closing takes exactly its quantity: the clamp is not reached and agreement is kept |
| DepthAgrees.CountsAt | datastreams/MarketDepth.go:202-233 | in the sum the depth is compared with, an open limit order counts at its price with what is unfilled, one that trades at any price at level 0 |
| DepthTurn.TurnKeepsDepthIff | matchingengine/OrderBook.go:455-511 | one turn, with any honest fill, any dormant stop-losses and the incoming order open or cancelled, keeps depth equal to the sum of open quantities if and only if it trades, wakes no cancelled stop and pops only what finished, or does not trade and finds the counter-order closed or closes it |
| DepthRuns.ArrivalKeepsDepthIff | matchingengine/OrderBook.go:310-511 | over a whole call the depth is right after every turn if and only if no turn breaks it and no cancelled order rests |
| DepthRuns.ProcessKeepsDepthIff | matchingengine/OrderBook.go:310-417 | without dormant stop-losses it is right at the end of the call if and only if no turn breaks it |
| DepthRuns.ClosedRestBreaks | matchingengine/OrderBook.go:351-356 | a cancelled order that meets nobody is counted although nothing of it is for sale |
| DepthRuns.LoadKeepsDepth | matchingengine/OrderBook.go:92-127 | loading an open order, stop-loss or not, keeps depth and book in agreement |
| DepthRuns.CancelKeepsDepth | matchingengine/OrderBook.go:188-213 | cancelling a resting open order keeps it |
| DepthRuns.CancelStopKeepsDepth | matchingengine/OrderBook.go:188-213 | cancelling a dormant stop-loss keeps it too, but marks that stop as one whose waking will not |
| DepthRuns.UntoldCancelBreaks | grpcapi/actionservice/OrderActionService.go:43-62 | while the book has not been told of a cancellation the depth counts the order |
| DepthStops.WakingKeepsDepthIff | matchingengine/OrderBook.go:516-554 | waking keeps depth equal to the sum of open quantities if and only if no woken stop had been cancelled while dormant |
| RealFills.FillHonest | models/User.go:1895-2171 | whatever the accounts answer to a fill, with any writes failing, is one of the answers the depth theorems allow |
| RealFills.TradesIff | models/User.go:1974-2045 | two open orders trade if and only if the bid's deposit is found, the buyer's cash and the bid's share of its reservation cover the cost, and every write succeeds |
| RealFills.RealTurnKeepsDepthIff | matchingengine/OrderBook.go:455-554 | over the real accounts, with any dormant stop-losses, a turn keeps the depth if and only if the counter-order was closed, or both are open, the trade is covered and written, no stop reached was cancelled while dormant and none overtakes a counter-order that finishes, or an ask meets a bid that cannot pay and closing it is written |
| RealFills.RealCallKeepsDepthIff | matchingengine/OrderBook.go:310-417 | over a whole call the depth is right after every turn if and only if every answer keeps it and no cancelled order rests; without dormant stops it is right at the end only then |
| RealFills.TurnFailsIff | matchingengine/OrderBook.go:321-335 | a turn ends with neither order done if and only if both are open and the bid has no deposit, or fewer writes succeed than the trade takes, if the buyer can pay, or than closing the bid takes |
| RealFills.DroppedIff | matchingengine/OrderBook.go:310-367 | after a call the incoming order is open and in no queue if and only if some turn of it fails |
| MarketRuns.StepRows | models/Ask.go:105-131 | every legal operation inserts rows only for the orders it concerns and never removes one |
| MarketRuns.WakesAreLegal | matchingengine/OrderBook.go:516-554 | waking any stops, with any writes failing, is a run of legal operations that loses no order |
| MarketRuns.TurnServes | matchingengine/OrderBook.go:455-554 | a turn moves the accounts by exactly a fill and, if it trades, the wakings of both sides, all legal |
| MarketRuns.CallIsLegal | matchingengine/OrderBook.go:310-417 | a call with any dormant stop-losses and any writes failing moves the accounts by a run of legal operations, and leaves only orders that were handed over in the book |
| MarketRuns.ServerIsLegal | matchingengine/OrderBook.go:611-626 | so does every run of arrivals of any type, whether recorded or rolled back, cancellations and other operations |
| MarketRuns.ServerBalances | models/User.go:1863-2171 | in every such run cash is the opening cash plus the ledger modulo 2^64, and stocks are conserved |
| ClearDepth.ClearTurnIff | matchingengine/OrderBook.go:573-600 | a turn of start-up matching keeps both depths right if and only if it trades and wakes no cancelled stop, or finds both orders closed, and, if the ask is done, either the bidder's best own ask ranks above it and all stops woken and is closed, or none does and no stop woken ranks above it |
| ClearRuns.ClearingKeepsDepthIff | matchingengine/OrderBook.go:559-609 | the whole of start-up matching keeps the depth right after every turn if and only if no turn breaks it |
| ClearRuns.ClearedUncrossedIff | matchingengine/OrderBook.go:559-609 | ended by a bid that meets no ask, it leaves the book uncrossed if and only if, before that bid goes back, the best ask, if it is of the same user, meets no other user's bid, and bids woken above it face only their own user's asks |
| ClearRuns.ClearedWithoutStopsIff | matchingengine/OrderBook.go:559-609 | without stop-losses: if and only if that best own ask meets no other user's bid |
| Taxes.GetTaxPercent | models/User.go:1506-1520 | the loop finds the first bracket not exceeded |
| Taxes.TaxPercentGrows | models/User.go:1506-1520 | richer users never pay a lower rate, nobody more than a quarter |
| Taxes.SummaryRow.GetTaxForBiddingUser | models/User.go:1525-1600 | the tax and the summary row after a purchase, through zero and from short |
| Taxes.SummaryRow.GetTaxForAskingUser | models/User.go:1605-1680 | the tax and the summary row after a sale, through zero and into short |
| Taxes.CostBasisInRange | models/User.go:1546-1671 | over any deals the summary holds the net position, at a price within the range dealt at |
| Taxes.AverageCost | models/User.go:1577-1591 | while only buying, the price is exactly the average cost |
| Taxes.SellTaxAtMostQuarter | models/User.go:1626-1650 | the seller's tax is at most a quarter of the proceeds |
| Taxes.SellTaxIs | models/User.go:1626-1650 | a sale out of a long position above its cost is taxed on exactly the profit of the stocks sold, at 0, 2, 5, 9, 15 or 25 percent by net worth; no other sale is taxed |
| Taxes.BuyTaxIs | models/User.go:1546-1570 | a purchase back into a short position below what it brought likewise; no other purchase is taxed |
| Taxes.PositionAfterBuying | models/User.go:1546-1591 | a long position grows by the cost, a short one keeps its price, and what is bought beyond it is held at the price paid |
| Taxes.PositionAfterSelling | models/User.go:1626-1671 | a short position grows by the proceeds, a long one keeps its price, and what is sold beyond it is short at the price got |
| FillTransaction.OpenOrder.Close | models/Bid.go:151-179 | refuses a closed order; marks it closed even when the save fails, and takes it out of asksMap or bidsMap once it is saved, before any commit |
| FillTransaction.OrderFill.PerformOrderFillTransaction | models/User.go:1863-2171 | whichever write fails: nothing traded and no bid closed means only the bid's entry in bidsMap may have gone; a closed bid changes only its closure, its entry and its refund |
| Effects.FillPays | models/User.go:1979-1997 | the seller gets quantity times price less tax; the buyer pays that out of the filled share of the reservation and cash, and the tax; nobody else's account changes |
| Effects.FillMovesStocks | models/User.go:1983-1997 | the buyer owns the quantity more, the seller has it no longer set aside; no other holding changes |
| Effects.FillIsNoted | models/User.go:2047-2146 | the ledger gains a row for each with the price of the trade, and each position changes by a sale or purchase at it |
| FillTransaction.OrderFill.SaveBidCancelOrderTransaction | models/User.go:1342-1389 | the unfilled part of the reservation goes back to the user |
| FillTransaction.OrderFill.CloseForLackOfCash | models/User.go:2028-2045 | closes and refunds; or changes nothing but, unless the very first write failed, the bid's entry in bidsMap |
| Servers.Server.PlaceBidOrder | models/User.go:1134-1305 | error cases in order; otherwise fee, reserve, order, deposit and rows all appear; or, when a write fails, no error is reported, nothing is recorded, and the order's object stays in memory |
| Servers.Server.PlaceAskOrder | models/User.go:896-1124 | the same for asks, with missing stocks borrowed within the limits |
| Effects.RowCounts | models/User.go:507-528 | a user's stock count grows by the stocks of each of their ledger rows, and by nobody else's |
| Effects.LendCounts | models/ShortSell.go:193-219 | and what they have borrowed by each lend of theirs not yet given back |
| Effects.BidAcceptedIff | models/User.go:1146-1211 | a bid is accepted if and only if a limit price is above 10 and within a fifth of the current price, it is for 1 to 50 stocks and the cash covers its worth and the fee; otherwise nothing changes |
| Effects.BidRefusedFor | models/User.go:1146-1211 | the error is that of the first of these that fails |
| Effects.BidReserves | models/User.go:1195-1276 | a recorded bid moves quantity times price into reserve, the current price for a market order and the order's own otherwise, and costs the fee |
| Effects.AskAcceptedIff | models/User.go:909-1014 | an ask is accepted if and only if its price is so allowed, it is for 1 to 50 stocks, the cash covers the fee, and what its user lacks can be borrowed; one covered by the holding never needs the bank |
| Effects.AskRefusedFor | models/User.go:909-1014 | the error is that of the first that fails; too few stocks only if more are offered than owned |
| Effects.AskBorrows | models/User.go:957-1085 | a recorded ask borrows exactly the stocks its user lacks, which leave the bank; all offered is set aside and the user keeps the rest |
| Servers.Server.SaveShortSellLendTransaction | models/ShortSell.go:54-73 | bank, ledger and lend change together |
| Servers.Server.UpdateShortSellBank | models/ShortSell.go:75-95 | the bank's 32-bit counter after an unsigned addition |
| Servers.Server.SquareOffLends | models/ShortSell.go:128-191 | active lends are given back one transaction each, up to the first failure, and all of them without one |
| Effects.SquareOffReturns | models/ShortSell.go:128-191 | squaring off one lend moves its stocks from the user to the bank |
| Servers.Server.CancelOrder | models/User.go:1395-1503 | error cases; otherwise the object found, in the map or by its row, is closed and what the order had reserved returned; when the first write fails that object is left closed in the map, when a later one fails it is out of the map; an order without a row gets one |
| Effects.CancelAcceptedIff | models/User.go:1395-1503 | a recorded order can be cancelled by its own user and nobody else, while the object the map holds, or its row where it holds none, is open, a bid has its deposit and the writes succeed |
| Effects.AskCancelReturns | models/User.go:1308-1339 | cancelling an ask makes exactly what it still offered its user's again |
| Effects.BidCancelReturns | models/User.go:1342-1385 | cancelling a bid returns the share of its reservation that belongs to what is unfilled |
| Servers.Server.CreateOrder | models/Ask.go:178-201 | the saved order is in the map before the commit; one that could not be saved is not, but its object exists |
| Servers.Server.TriggerStoploss | models/Bid.go:54-80 | the object in the queue is saved over its row, or inserted, unless the write fails |
| Servers.Server.PerformBuyFromExchangeTransaction | models/User.go:1682-1830 | stocks, cash, tax and summary change together or not at all |
| Servers.Server.MortgageStocksAction | models/MortgageDetail.go:44-84 | inserts or adds to the mortgage row, or reports too few stocks |
| Servers.Server.RetrieveStocksAction | models/MortgageDetail.go:87-128 | reduces or deletes the row, or reports what is missing |
| Servers.Server.PerformMortgageTransaction | models/User.go:2184-2277 | cash, row and mortgage change together or not at all |
| Effects.PurchaseAcceptedIff | models/User.go:1696-1735 | a purchase is accepted if and only if it is of at most 30 stocks, the exchange has some, cash covers as many as it has, and the writes succeed; otherwise nothing changes |
| Effects.PurchaseIs | models/User.go:1682-1830 | a purchase of at most 30 stocks gets as many as the exchange has, at the current price, for that and the tax |
| Effects.MortgageAcceptedIff | models/MortgageDetail.go:53-62 | stocks are mortgaged if and only if the user owns that many and the writes succeed |
| Effects.RetrievalAcceptedIff | models/MortgageDetail.go:99-128 | stocks are retrieved if and only if mortgaged at that price, cash covers their full worth, the bank has that many and the writes succeed |
| Effects.MortgagePays | models/MortgageDetail.go:44-84 | mortgaging pays 80 percent of current worth for stocks the user owns, which go to the bank |
| Effects.RetrievalCosts | models/MortgageDetail.go:87-128 | retrieving costs 90 percent of their worth when mortgaged and takes them out of the bank, of which there must be enough |
| Reservations.PlaceBidBooked | models/User.go:1194-1276 | placing a bid reserves exactly what it needs |
| Reservations.TradeBooked | models/User.go:1979-1997 | a trade with a bid whose row is open takes exactly the filled part's share, so the clamp at zero is not reached |
| Reservations.RefundIs | models/User.go:1349-1369 | a refund is exactly what is unfilled of the reservation |
| Reservations.FillBookedIff | models/User.go:1863-2171 | every outcome of a fill, with any writes failing, keeps reserves equal to open bids if and only if it does not trade or close a bid whose row is closed and that holds something |
| Reservations.CancelBookedIff | models/User.go:1395-1503 | a cancellation, whether or not its writes succeed and whether or not the order is recorded, keeps them equal if and only if it does not act on a copy of an order that has been filled, or closed and refunded, since |
| Reservations.ClosedShape | models/User.go:2028-2045 | what closing for lack of cash changes: the bid's object, row and entry, its user, one ledger row |
| Reservations.FillGuards | models/User.go:1900-2045 | what a fill does is decided by the orders, the deposit, the buyer's cash and the writes that succeed |
| Reservations.WakeBookedIff | models/Bid.go:56-80 | saving a woken stop-loss keeps reserves right if and only if its object and its row agree on whether it is closed, or it holds nothing |
| Reservations.ReservedCashIsOpenBids | models/User.go:1195-1276 | in every run, wakings included, each user's reserved cash is, after every step, the sum of what their open bids need, if and only if no step uses a reservation twice or gives one up |
| Reservations.NothingHeldBack | models/User.go:1342-1385 | after such a run, once the rows of all of a user's bids are closed nothing is left in reserve |
| StockReserves.AskSetsAside | models/User.go:1080-1095 | placing an ask sets aside exactly what it offers |
| StockReserves.FillSetsAsideIff | models/User.go:1983-1985 | every outcome of a fill keeps what is set aside equal to what open asks offer, if and only if it does not trade an ask without a row |
| StockReserves.CancelSetsAsideIff | models/User.go:1308-1339 | so does a cancellation, if and only if it does not succeed on an ask without a row or with a closed one |
| StockReserves.WakeSetsAsideIff | models/Ask.go:107-131 | and the saving of a woken ask, if and only if it neither closes an open row nor inserts an open one |
| StockReserves.SetAsideIsOpenAsks | models/User.go:1308-1339 | in every run, after every step, the ledger sets aside for each user and stock exactly what their open asks still offer, if and only if no step trades, cancels or records an open ask without a row, cancels a copy of one whose row is closed, or closes an open row by waking |
| StockReserves.UnrecordedIsForeign | models/User.go:1016-1029 | placing whose writes fail reports no error and leaves an open object of an order that is in no table, and in the map exactly if its own row had been written |
| StockReserves.ForeignStays | models/Ask.go:134-174 | it stays such an order in every legal step until one records it |
| StockReserves.UnrecordedCancelPays | models/User.go:1308-1339 | cancelling such an ask succeeds and pays its user stocks that were never set aside |
| StockReserves.ForeignBidNeverTrades | models/User.go:1974-1979 | a bid without a recorded deposit never trades |
| DoubleEntry.FillLosesOnlyTaxes | models/User.go:1980-1997 | two users together lose exactly the taxes of their trade, others nothing, if and only if the buyer's tax does not underflow |
| DoubleEntry.LedgerBalances | models/User.go:1230-1270 | in every run cash is opening cash plus the ledger's totals modulo 2^64, so equal to that sum exactly while it is a word |
| DoubleEntry.ExactIffTaxesCovered | models/User.go:1561-1566 | while balances stay below 2^63, cash equals the ledger after every step if and only if no buyer's tax underflows |
| DoubleEntry.NeverInDebt | models/User.go:1979-1997 | and then no balance is ever negative, and no cost basis either |
| DoubleEntry.ReserveExplainedIff | models/User.go:1995-1997 | over any run the ledger explains every change of reserved cash if and only if no more is taken from a reserve than is in it |
| DoubleEntry.ReserveExplained | models/User.go:1349-1369 | which never happens while orders' objects stay together and no waking gives up a reservation |
| OrderLife.ClosedIsFinal | models/User.go:1395-1503 | while no step takes an order's row and objects apart, a closed row never changes in any run |
| OrderLife.RowFinalIff | models/User.go:1979-2045 | a step changes a closed row if and only if it trades or wakes an order still open in the queue, or cancels a copy less filled than the row |
| OrderLife.StepAttachedIff | models/Bid.go:151-179 | every operation keeps an order's row, queue object and map entry together, except exactly a closing for lack of cash that fails after its first write, a trade or waking that records an order cancellations cannot find, and a waking that closes a row while another copy is open |
| OrderLife.StaysTogether | models/User.go:1863-2171 | in a run without those, whatever other writes fail, row and objects stay together and reserves stay right, if and only if no woken bid is saved as closed while its row is open |
| OrderLife.QueueClosedIsFinal | models/User.go:1906-1916 | an order closed in the queue is never reopened or filled further, in any run |
| OrderLife.CancelAfterHalfClose | models/User.go:2028-2043 | after a half-failed closing a cancellation refunds the bid, which stays open in the queue, and a fill that leaves it open takes the reservation again |
| OrderLife.FailedCancelRetryIff | models/User.go:1455-1497 | after a failed cancellation a retry succeeds if and only if the failing write was not the very first and a bid has its deposit |
| OrderLife.StuckStays | models/Bid.go:159-179 | an order stuck by a failing first write stays closed in memory and open in its row in every run that does not save it when it is woken |
| OrderLife.WokenStuckIsLost | models/Bid.go:56-80 | saved then, its row is closed without a refund, and no later cancellation in any run is accepted |
| OrderLife.TradeClosesOne | models/User.go:2005-2009 | a trade of all that both can take overfills neither and closes at least one |
| OrderLife.LimitBidNeverShort | models/User.go:1974-1981 | a limit bid of a user not in debt is never closed for lack of cash |
| OrderLife.ClosedShortIff | models/User.go:1974-2045 | a bid is closed for lack of cash if and only if its deposit is found, cash and its share of the reserve do not cover the trade, and the writes succeed |
| Conservation.NegationSubtractsIff | models/ShortSell.go:56-95 | adding a negated 32-bit number subtracts if and only if the bank has that many |
| Conservation.StocksConserved | models/User.go:957-1085 | per stock, holdings plus bank plus mortgaged minus market never change in any run, and borrowing stays within the limit |
| Conservation.SquareOffReturnsAll | models/ShortSell.go:128-186 | squaring off brings every lent stock back and ends all borrowing |
| Mortgages.NoPumpIff | models/MortgageDetail.go:83-127 | no sequence of deposits and split retrievals gains uncovered cash, if and only if the price is 0 or at least 5 |
| Mortgages.PumpGains | models/MortgageDetail.go:83-127 | at prices 1 to 4 five stocks retrieved singly gain 5 minus the price |
| Mortgages.LedgerNeverPumps | models/User.go:2223-2243 | over any run of all operations the ledger's mortgage cash at such a price is covered by the stocks in the bank |
| Exchange.ProcessSettles | matchingengine/OrderBook.go:310-417 | for limit orders and market asks, no dormant stop-losses and working writes: a call over the real accounts leaves depth, queues and accounts in order by a legal run of operations |
| Exchange.RestingFill | models/User.go:1863-2171 | two resting open orders of different users always trade: a limit bid can pay |
| Exchange.StockStaysInOrder | matchingengine/OrderBook.go:611-626 | in every run of one stock's placements and cancellations, of limit orders and market asks without stop-losses, with any legal operations elsewhere on the same accounts: depth, queues, uncrossed book and accounts stay in order together |
| Exchange.NoTradeMissed | matchingengine/OrderBook.go:310-417 | after such a run no two open orders of different users are left that could trade: of any two, both are limit orders and the bid is below the ask |
| Startup.RestartSyncs | models/Bid.go:182-206 | a restart brings every order's row, object and map entry together again and leaves the reserves as they are |
| Startup.LostForGood | models/Bid.go:182-206 | an order whose row is closed is not loaded again, and no cancellation of it is ever accepted |
| Startup.LoadAllKeepsDepth | matchingengine/OrderBook.go:92-127 | loading any list of open orders keeps depth and book in agreement |
| Startup.LoadedServed | matchingengine/MatchingEngine.go:92-145 | loading any recorded open orders, stop-losses among them, gives a book from which a server's run can start |
| Startup.LoadedSettled | matchingengine/MatchingEngine.go:92-145 | loading all open orders of a stock, none a stop-loss and all bids limit bids, gives a book whose depth is right and which mirrors the accounts |
| Startup.ClearingSettles | matchingengine/OrderBook.go:559-609 | matching such orders, nobody having orders on both sides or a debt and all writes working, leaves everything in order by legal operations |
| Startup.StartsInOrder | matchingengine/MatchingEngine.go:92-145 | a restarted server whose open orders are no stop-losses, its bids limit bids with their deposits, is in order once these are loaded and matched, unless someone has orders on both sides or a debt |
| Locks.NoDeadlock | models/User.go:679-792 | in every state that tasks can reach, someone unfinished can take a step |
| Locks.EveryScheduleFinishes | models/User.go:679-792 | locks stay exclusive and every interleaving of operations ends |
| Locks.OperationDisciplinedIff | models/User.go:679-792 | every operation takes its locks in the common order, except exactly a fill between a user and themselves |
| Locks.DisciplinedIff | models/Stock.go:130-217 | nested locking follows the common order if and only if every inner lock comes after those around it |
| Locks.OperationsFinish | models/User.go:679-792 | goroutines that start without locks and run any operations, fills being between different users, all finish under every schedule |
| Locks.SelfFillBlocks | models/User.go:743-792 | a pair of one user blocks on its own lock |
| Locks.LeakBlocksForever | models/Stock.go:140-145 | after the price of an unknown stock was updated nothing that wants the map of stocks ever goes on |
| StockRecorder.StockRow.UpdateStockPrice | models/Stock.go:130-212 | average, price, highs and lows after a trade; a failed save restores all but the average |
| StockRecorder.RecordOneMinuteOHLC | models/StockHistory.go:101-153 | one bar per stock until a save fails; recorded stocks, and the failing one, restart at their close |
| StockRecorder.RecordNMinuteOHLC | models/StockHistory.go:155-213 | both loops compute the open, highest, lowest, close and volume of the window |
| StockRecorder.WindowExactIff | models/StockHistory.go:166-176 | the window is exactly the records late enough, if and only if the newest is |
| PriceHistory.TradeMovesPrice | models/Stock.go:160-172 | a trade closes as many parts of the gap to its price as it has stocks; a large enough one sets the price |
| PriceHistory.PriceInRange | models/Stock.go:153-175 | average and price stay within the range of the traded prices |
| PriceHistory.RangesExact | models/Stock.go:177-193 | highs and lows are exactly the highest and lowest prices seen |
| PriceHistory.BarExact | models/StockHistory.go:113-130 | a minute's bar opens at the previous close and spans exactly the minute's prices |
| PriceHistory.BarsChain | models/StockHistory.go:113-130 | every bar has low <= open, close <= high and opens where the one before closed |
| PriceHistory.CombinedSplits | models/StockHistory.go:178-196 | combining two consecutive windows and joining gives the bar of both |
| PriceHistory.CombinedIsRecordedOnce | models/StockHistory.go:155-204 | combining one-minute bars gives the bar of a recorder that ran once over the whole time |
| Witnesses.BuyerTaxCanUnderflow | models/User.go:1561-1566 | a legal purchase in an orderly state wraps an account to almost 2^64, and a later mortgage makes it agree with the ledger again |
| Witnesses.BidsCanComeApart | models/User.go:2028-2043 | a closing that fails at its third write, then a cancellation: open in the queue, closed in its row |
| Witnesses.ShortBidForgetsAsk | matchingengine/OrderBook.go:486-508 | a market bid that meets a dearer ask makes the depth forget that ask, every write succeeding |
| Witnesses.IncomingDropped | matchingengine/OrderBook.go:369-399 | the same bid when no write succeeds is dropped: open, and in no queue |
| Witnesses.StuckStopIsLost | models/Bid.go:56-80 | a stop-loss bid whose cancellation fails is woken: its row is closed, its 1000 stay in reserve, and no cancellation returns them |
| Witnesses.WokenStopCrosses | matchingengine/OrderBook.go:516-554 | an ask of 1 at 100 against a bid of 5 wakes a third user's stop, which is left crossing the bid |
| Witnesses.WrongOrderPopped | matchingengine/OrderBook.go:321-335 | a bid of 5 takes an ask of 1, and the stop woken is popped in its place |
| Witnesses.WrongAskCleared | matchingengine/OrderBook.go:573-600 | at start-up the bidder's own cheaper ask is popped instead of the one filled |
| Witnesses.CancelledStopCounted | matchingengine/OrderBook.go:516-554 | a stop cancelled while dormant is counted once woken |
| Witnesses.StartUpStopsEarly | matchingengine/OrderBook.go:559-609 | start-up leaves two orders of different users crossing |

## Left out

- Servers.Server.PerformBuyFromExchangeTransaction: requires a known stock, which the source looks up in a map without checking.
- FillTransaction.OrderFill.PerformOrderFillTransaction: requires two different users, as the matcher guarantees, and a positive quantity for two open orders, as the trade terms guarantee.
- Exchange.StockStaysInOrder: this stock's own orders are limit orders, or market asks, whose writes succeed, and no balance leaves the range below 2^63; with stop-losses, market bids, failing writes or debts the lemmas above say exactly what can go wrong, and MarketRuns.ServerIsLegal has none of these bounds.
- Exchange.StockStaysInOrder: a cancellation reaches accounts and book in one step; an order cancelled before it is processed is the subject of DepthTurn.TurnKeepsDepthIff.
- DoubleEntry.ReserveExplained: for runs in which no waking gives up a reservation; DoubleEntry.ReserveExplainedIff needs no bound.
- MarketRuns.ServerIsLegal: a run starts after start-up matching, whose operations are shown legal only by Startup.ClearingSettles.
- Startup.StartsInOrder: open bids have their deposits, which only a stop-loss bid recorded by its waking after a rolled-back placing lacks.
- ClearRuns.ClearedUncrossedIff: says nothing when the loop ends because a fill fails, which drops the bid held.
- DoubleEntry.ExactIffTaxesCovered: for balances that stay below 2^63; DoubleEntry.LedgerBalances needs no bound.
- Locks.OperationsFinish: read locks are exclusive, and entries in the lock map persist; `Logout`, which deletes entries, dividends, which lock users in query order, and locks inside a single order or queue are not modelled.
- PriceHistory.BarsChain: one recorder run without `SetBankruptcy`, which sets the price without touching lows or average.
- Matching: goroutines and channels are an arbitrary sequence of calls; a stop-loss pushed while another is being triggered is covered by BookTheorems.RacingPushIsSafe.
- Aliasing: objects are told apart by what holds them (queue, row, map), not by address; a triggered stop-loss is a changed copy in the queue, and two objects loaded at different times while the map holds none are one.
- Rows keep orders as they were placed: that waking also writes the order's new type, and so loads it as active after a restart, is omitted; loading is proved for any list of orders.
- Looking up an id that belongs to no order leaves an empty object in the source's map; here nothing is left.
- Identity of rows: an unknown user leaves an empty entry in the source's lock map that a second attempt finds; here unknown users always get the first answer.
- Arithmetic: price times quantity, what a bid has in deposit, and volumes do not overflow 63 bits; reserved cash is an integer whose subtractions clamp or wrap as in the source; floating-point shares of a reservation are exact integers (they are below 2^53, being multiples of the quantity), and averages and cost bases are reals.
- Administration of stocks (adding stocks to the exchange, setting prices or bankruptcy): separate operations.
- The order fee is any natural number; time stamps are natural numbers or integers; the previous day's close and the up-or-down flag are omitted, and so are the recent trades read at start-up.
- Stocks that are bankrupt are refused before any operation starts; the check is omitted.
- SQL and gorm, logging, streams to clients, sessions, e-mail, gRPC services: input and output.
- IPO allotment, dividends, leaderboards, daily challenges, referral credit, block penalties: separate features, some of which change cash without a ledger row.
- `getComponents` in models/InspectComponents.go: unrelated to trading.
