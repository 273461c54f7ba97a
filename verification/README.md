# Verified model of the backtesting and data services

This project models, in Dafny, the parts of the trading platform whose correctness is hardest to see
from the code, and proves what they promise. Code that updates state in place is modelled by classes
and loops, each proved against a specification function; the theorems are then about every run of
those functions. `dafny verify dfyconfig.toml` checks the whole project.

| file | models |
|---|---|
| `Engine.dfy`, `BacktestEngine.dfy` | the backtest clock loop: its meaning as a function, and the engine class that computes it |
| `AccountProofs.dfy`, `AuditTrail.dfy`, `SettlementProofs.dfy`, `Marks.dfy` | book conservation and strict cash; the log as an audit trail of cash, holdings and decisions; settlement; marks |
| `OrderProofs.dfy`, `OrderFate.dfy`, `TimingProofs.dfy`, `FillProofs.dfy`, `FillReports.dfy`, `CausalityProofs.dfy` | conservation of orders, their fate row by row, timing, fill prices and what fills report, no look-ahead |
| `Assignments.dfy`, `SaleFees.dfy`, `CashRuns.dfy`, `AssignedRuns.dfy` | cash bounded from the inputs alone: which shorts can be assigned, what sales cost, the runs that overdraw, and the exact conditions |
| `SampleRuns.dfy` | concrete runs that show where a promise stops |
| `Market.dfy`, `Orders.dfy`, `TickContext.dfy` | bars, the closed-bar views and the union clock; orders and fills; the context an algorithm is handed |
| `BarStore.dfy`, `Aggregation.dfy` | merging saved pages; deriving longer bars from one-minute bars |
| `Backfill.dfy`, `LedgerProofs.dfy`, `EquityCurve.dfy` | account history: replay, backward calibration, forward fill, pricing |
| `Coverage.dfy` | contiguous runs of days on disk, gaps, and filling them |
| `StdinFramer.dfy`, `CachedSnapshot.dfy`, `ChunkWriter.dfy` | line framing, the refresh cache, the chunked result stream |
| `WorkerAgent.dfy`, `Approvals.dfy` | the worker's tick chain and approval queue; which answer a request gets |
| `Drawdown.dfy` | one-pass drawdown and streaks |
| `Common.dfy`, `Timeline.dfy` | insertion-ordered dictionaries; sorting, de-duplicating and searching rows by time |

## Reading the model

- Money, prices and quantities are `real`; times are whole seconds in UTC, a date is a day number,
  and day 0 is Thursday 1970-01-01. Python dictionaries whose iteration order matters are sequences
  of distinct keys; the others are maps.
- An algorithm is any total function of everything it has been shown. Option quotes and marks, cost
  profiles, asset classification and symbol resolution, and the random stream are arbitrary
  functions given to a run. A run that meets an expired contract with no underlying price is marked
  `failed`; what is said of its account, its fills and its settlements still holds, while the theorems
  about pending orders and equity points are for runs that have not failed.
- A pending order's `id` is its emission number and stands for the identity of the order object.
- The three concurrent components are step protocols: an action is the code between two awaits (or
  one event of either thread), and the theorems hold for every sequence of enabled actions. What a
  theorem asks of a sequence beyond that is a guard on single actions.

## Where the code and its promises differ

- `backtest_engine_v2.py` says a triggered STOP_LIMIT becomes a limit order. The leg is rewritten,
  but the triggered flag is looked at first, so it fills at market (`StopsOfRunsFillAtMarket`,
  `StopLimitOverruns`), and the rewritten leg takes the default DAY time in force
  (`StopsNeverFillOnDailyClock`).
- A limit fill is worse than its limit exactly when limit slippage is configured
  (`LimitFillsOfRuns`).
- The union-clock row is the fallback fill bar of a symbol without closed data. With mixed timeframes
  it may still be open, and a run then looks ahead (`MixedTimeframesLookAhead`);
  `NoLookAheadExactly` says on which stores this cannot happen.
- Sale fees and the assignment of expired shorts are not checked against cash, so strict cash holds
  up to their total (`StrictCash`). `SalesOneByOne` and `AssignedPutOverdraws` are runs that
  overdraw; `SaleFeesExactly` and `AssignmentsExactly` say on which inputs none does.
- A cancellation asked for during discovery is still pending when the replay starts, and rejects all
  that the first row emits (`LeftoverCancelRejectsFirstRow`). An empty clock ends in an error, because
  the closing summary reads its last row.
- Replay subtracts an outflow as given and skips fills without a symbol; calibration does neither.
  `CalibrationTranslates` gives the exact condition under which the two agree up to a constant.
- The newest snapshot is not carried forward when it is dated on a weekend: a Saturday deposit is
  missing from the curve until the next snapshot of a weekday (`NewestIsCarriedExactly`).
- A derived bar can hold a row that has not closed, exactly when the row is stamped less than a
  minute before the end of its interval (`RowLeaksExactly`).
- Gap windows are widened by one calendar day, which misses the business day beyond a Sunday start
  or a Saturday end (`WeekdayFillingClosesExactly`).
- A direct refresh begun before an invalidation can return after the drain that served it and leave
  the cache idle with the older value (`NoLostInvalidation`). A refresh that fails while another
  invalidation arrives leaves the stale mark set with no drainer (`FailureLeavesMark`,
  `FailureCanLeaveMark`).
- Approval responses carry no request id: a request made while a timed-out one is still owed its
  answer gets that answer (`GuardIsExact`), and one made after a failed send gets none
  (`FailedSendTakesNextAnswer`).
- Chunks of two or more days can break inside a date (`RolloverShape`).
- The percentage drawdown of a curve that goes negative can be understated
  (`DepthIsExactAboveZero`).

## Model

| member | source | states |
|---|---|---|
| `CausalityProofs.Causality` | `coordinator/services/backtest_engine_v2.py:237-502` | Two stores of sorted non-empty series with the same keys and timeframes, mixed or not, whose clocks take no row from a series longer than the clock's, and which agree series by series on every bar closed at the simulated time of row k, traded by any algorithm: the whole state after row k is identical (cash, positions, pending orders, every fill, rejection, equity point and view) |
| `CausalityProofs.FillBarIsNewestClosed` | `coordinator/services/backtest_engine_v2.py:297-338` | Whatever the timeframes, an order is tried against the newest closed bar of the first series that carries its symbol, and against the clock row only when there is none |
| `CausalityProofs.FillBarNoLookAhead` | `coordinator/services/backtest_engine_v2.py:297-338` | With one shared timeframe, at every row of the union clock every symbol meets a bar that has closed at the simulated time |
| `CausalityProofs.NoLookAheadExactly` | `coordinator/services/backtest_engine_v2.py:305-338` | Whatever the timeframes and symbol names, every symbol meets a closed bar at every row exactly when every row of the union clock comes from a series whose bars are no longer than the clock's |
| `SampleRuns.MixedTimeframesLookAhead` | `coordinator/services/backtest_engine_v2.py:237-502` | Day bars on a one-minute clock: two stores that differ only in the low of a bar still open show the algorithm the same data, yet after the second row one run has filled an order and the other has not |
| `Market.ClosedWindowIsNewest` | `coordinator/services/backtest_tick_context.py:233-256` | The slice handed to an algorithm is the newest `count` of exactly the bars closed at the simulated time |
| `Market.ClosedWindowNoLookAhead` | `coordinator/services/backtest_tick_context.py:233-256` | Every bar of the slice has closed at the simulated time |
| `Market.LastClosedIsNewest` | `coordinator/services/backtest_engine_v2.py:324-336` | The binary search finds the last of exactly the bars closed at the simulated time |
| `Market.LastClosedNoLookAhead` | `coordinator/services/backtest_engine_v2.py:936-946` | The bar a price is taken from has closed |
| `Market.WindowFromVisible` | `coordinator/services/backtest_tick_context.py:233-256` | Every answer to a data request is a function of the visible store alone |
| `Market.SeriesForIsFirst` | `coordinator/services/backtest_engine_v2.py:305-323` | A symbol takes its data from the first non-empty series under its own or its provider's name, and from none when there is none |
| `Market.UnderlyingIsNewestClose` | `coordinator/services/asset_services/options.py:214-224` | An option's underlying is priced at the newest closed bar of the first series under exactly that name, and has no price when that series has none |
| `Market.LookupAgree` | `coordinator/services/backtest_engine_v2.py:901-947` | Stores that agree series by series on the bars closed at a time resolve a symbol to the same newest closed bar |
| `Market.VisibleAgree` | `coordinator/services/backtest_tick_context.py:233-256` | Stores that agree on the bars closed at a time show an algorithm the same data |
| `Market.DateHolds` | `coordinator/services/backtest_engine_v2.py:268-272` | A date holds exactly the 86400 seconds from its midnight UTC |
| `Market.UnionClockRows` | `coordinator/services/backtest_engine_v2.py:1056-1082` | The union clock strictly increases, has exactly the stamps of the store, and takes each row from the earliest series that has its stamp |
| `Market.UnionClockAgree` | `coordinator/services/backtest_engine_v2.py:1056-1082` | Stores that agree on the bars closed at a time, with clocks that take no row from a longer series, have union clocks with the same closed rows |
| `Market.UnionClockPrefix` | `coordinator/services/backtest_engine_v2.py:1056-1082` | Such stores share the first k + 1 clock rows when row k of one clock has closed at that time |
| `AccountProofs.BookConservation` | `coordinator/services/backtest_engine_v2.py:801-861` | At every loop head of every run, cash plus the signed cost of what is held equals initial cash plus all realized profit less opening fees; a flat book ends on exactly that |
| `AccountProofs.EquityDecomposes` | `coordinator/services/backtest_engine_v2.py:490-497` | Each row's equity point is initial cash plus realized profit less opening fees plus what the open positions would realize at their marks |
| `Marks.EquityIsMarked` | `coordinator/services/backtest_engine_v2.py:489-497` | Each row's equity point is cash plus mark times quantity, a hundredfold for options, where a stock's mark is the close of its newest closed bar, and its cost when there is none or it is zero |
| `Marks.ViewsAreMarked` | `coordinator/services/backtest_engine_v2.py:243-256` | At each row the algorithm is shown the account as it then is, at those marks, and of every series exactly the closed bars |
| `Marks.MarkIsNewestClose` | `coordinator/services/backtest_engine_v2.py:1015-1031` | A stock's mark, from the rows of its own series |
| `AccountProofs.RebookConserves` | `coordinator/services/backtest_engine_v2.py:801-861` | One fill, crossing zero or not, moves cash and cost basis by offsetting amounts up to the profit it reports, or its fees when it opens |
| `AccountProofs.SettlementConserves` | `coordinator/services/asset_services/options.py:166-212` | Settling an expired contract pays its intrinsic value and reports exactly that payment less the cost basis |
| `SettlementProofs.SettlementParity` | `coordinator/services/asset_services/options.py:166-212` | An expired call and put on one underlying and strike settle at prices that differ by what the underlying is above the strike, neither negative and one zero; longs are sold and shorts bought back |
| `SettlementProofs.RowSettles` | `coordinator/services/backtest_engine_v2.py:863-899` | In every row of a run settlement moves cash by a hundred times what each held contract that has expired pays its holder, shorts paying, and removes exactly those positions |
| `SettlementProofs.ForwardSettles` | `coordinator/services/backtest_engine_v2.py:863-899` | A row that settles a call held against an equal put owed moves cash by a hundred times what the underlying is above the strike, for each contract |
| `AccountProofs.ApplyFillOk` | `coordinator/services/backtest_engine_v2.py:801-861` | An accepted fill keeps the book balance, the cash bound, distinct keys and sound positions |
| `AccountProofs.PositionsKeepOrder` | `coordinator/services/backtest_engine_v2.py:801-861` | Positions keep the order in which they were opened: a new one goes last, a closed one leaves no gap, any other keeps its place |
| `AccountProofs.StrictCash` | `coordinator/services/backtest_engine_v2.py:353-427` | In every reachable state cash is at or above -0.000001 (or a lower start) less what is taken unchecked by sale fees beyond proceeds and by assignments; nothing but an option is short beyond 0.000000001; no stored position is empty |
| `AuditTrail.AcceptedExactly` | `coordinator/services/backtest_engine_v2.py:353-427` | A fill is booked exactly when cash covers a purchase and its fees, the stock sold is held, or what an option sale leaves uncovered is covered at its strike by cash after the sale; else the stated reason is given |
| `AuditTrail.ClosingSaleAccepted` | `coordinator/services/backtest_engine_v2.py:386-389` | Closing costs no margin: an option sale no larger than the long held is never refused |
| `AuditTrail.LogAccounts` | `coordinator/services/backtest_engine_v2.py:801-899` | In every run cash is the starting cash plus what the logged fills and settlements moved, and the holding of every symbol is what they bought less what they sold |
| `AuditTrail.DecisionsFollow` | `coordinator/services/backtest_engine_v2.py:297-430` | Every event of a run follows from the log before it: a fill is the simulation of its leg with the next random number and cash and holdings at that point allowed it, a refusal was so executed and they did not, a settlement closes what was held |
| `SaleFees.StrictCashFromInputs` | `coordinator/services/backtest_engine_v2.py:353-427` | With non-negative prices, no cost profile, bounded slippage, sell fees that in either role hold no flat part and at most 100%, and no contract that can be shorted and assigned at a cost, cash never falls below -0.000001 at any loop head, options or not |
| `SaleFees.SaleWithinProceeds` | `coordinator/services/backtest_engine_v2.py:669-797` | With such prices, slippage and sell fees no sale of a run, of stock or options, costs more in fees than it brings |
| `CashRuns.SalesOneByOne` | `coordinator/services/backtest_engine_v2.py:371-427` | Sale fees are not checked: a run that spends its cash on n shares and sells them one at a time at the same price, as taker or maker, ends its second row with n times what one sale nets, however negative |
| `CashRuns.SaleFeesExactly` | `coordinator/services/backtest_engine_v2.py:353-427` | Over all runs with given sell fees, non-negative prices, no profile, bounded slippage and nothing to assign: no sale costs more than it brings, and cash never falls below -0.000001, exactly when the fees each role pays hold no flat part and at most 100% of the proceeds |
| `Assignments.DrawsAreAssignable` | `coordinator/services/backtest_engine_v2.py:863-899` | In any run a settlement that takes cash at row k is of a contract quoted for sale at some row f <= k, unexpired from row f - 1 to row k - 1, and expired in the money at k |
| `AssignedRuns.SpentMarginOverdraws` | `coordinator/services/backtest_engine_v2.py:371-427` | Margin is checked once and not reserved: a run that opens an assignable short at row f and spends all its cash on stock there ends row k owing the whole assignment |
| `AssignedRuns.AssignedPutOverdraws` | `coordinator/services/asset_services/options.py:166-212` | Such a run in numbers: cash 10000, a put struck at 100 sold for 1, 101 shares bought at 100, the stock at 50 after expiry, cash -5000 |
| `AssignedRuns.AssignmentsExactly` | `coordinator/services/backtest_engine_v2.py:863-899` | With positive prices, a stock to buy and sell fees that pay for themselves, cash stays at or above -0.000001 for every algorithm and start exactly when no contract can be shorted at some row and assigned at a cost at a later or the same one |
| `SaleFees.FeesByRole` | `coordinator/services/backtest_engine_v2.py:779-797` | The fees of a fill are the flat fees its role pays plus its price times quantity times the percentages its role pays |
| `OrderProofs.OrderConservation` | `coordinator/services/backtest_engine_v2.py:261-462` | At every loop head each emitted leg is exactly once among fills, rejections and pending orders, and pending keeps emission order |
| `OrderProofs.CompletedRunResolvesAll` | `coordinator/services/backtest_engine_v2.py:504-518` | A run that completes has resolved every leg exactly once and leaves none pending; what was still open is rejected in order as the end of the backtest |
| `OrderFate.RowFate` | `coordinator/services/backtest_engine_v2.py:276-487` | What a row of a run does to a pending order, exactly: executed just when its price is met (a stop needs a bar through its price, then fills a row later), rejected for each reason just when its rule applies, cancelled just when the algorithm asks, and open just when it waits through all that |
| `OrderFate.OpenExactly` | `coordinator/services/backtest_engine_v2.py:428-487` | A leg other than a stop is open at row n of a run just when from its emission on nobody cancelled, its contract did not expire, and every attempt left it unexecuted, DAY orders on no later date and IOC and option orders never |
| `OrderFate.GtcLimitRests` | `coordinator/services/backtest_engine_v2.py:446-455` | A GTC limit order on stock that nobody cancels is open for exactly as long as no bar it meets has strictly crossed its limit |
| `OrderFate.SignalsBecomeOrders` | `coordinator/services/backtest_engine_v2.py:259-274` | The orders emitted at a row of a run are the legs of the algorithm's signals in their order, under that row and date |
| `OrderProofs.RejectsInOrder` | `coordinator/services/backtest_engine_v2.py:465-469` | Rejecting a list of orders logs exactly one rejection each, in their order, and changes nothing else |
| `OrderProofs.LeftoverCancelRejectsFirstRow` | `coordinator/services/backtest_engine_v2.py:465-469` | A cancellation left over from discovery rejects, on the first row, every order emitted there, and nothing fills |
| `TimingProofs.PendingIsDue` | `coordinator/services/backtest_engine_v2.py:268-295` | Every order pending at the head of row b is scheduled for exactly b, under its own emission date |
| `TimingProofs.FillTiming` | `coordinator/services/backtest_engine_v2.py:268-295` | No leg fills on its emission row, stops need two rows, a DAY order past its first attempt fills on no later date than its own (on an increasing clock, on its own date), and the fill is for the leg's own symbol, side and quantity |
| `TimingProofs.FillsAreSimulated` | `coordinator/services/backtest_engine_v2.py:297-344` | Every fill of every run is the simulation of the leg as it was emitted, against the bar its symbol resolves to on that row |
| `TimingProofs.StopsNeverFillOnDailyClock` | `coordinator/services/backtest_engine_v2.py:559-580` | On a clock with one row per date no STOP_LIMIT and no DAY stop ever fills |
| `FillProofs.LimitOrderFills` | `coordinator/services/backtest_engine_v2.py:722-771` | One attempt: a limit order fills exactly on a strict cross, and no worse than its limit exactly when the limit slippage is zero |
| `FillProofs.LimitFillsOfRuns` | `coordinator/services/backtest_engine_v2.py:722-771` | Every limit fill of a run crossed its limit on its own bar and is no worse than it exactly when the limit slippage is zero; an option limit order fills at a quote no worse than its limit |
| `FillProofs.MarketOrderNeverBeatsOpen` | `coordinator/services/backtest_engine_v2.py:697-708` | Without bar-range sampling a market fill is never better than the open |
| `FillProofs.BarRangeFillIsInsideBar` | `coordinator/services/backtest_engine_v2.py:693-695` | With bar-range sampling the price lies inside the bar and costs one random draw |
| `FillProofs.StopsOfRunsFillAtMarket` | `coordinator/services/backtest_engine_v2.py:553-580` | Every fill of a STOP or STOP_LIMIT leg in a run is at the market price of its own bar, whatever the slippage model; without friction it honours its limit exactly when that bar's open does |
| `FillReports.FillsAreReported` | `coordinator/services/backtest_engine_v2.py:669-797` | Every fill of a run reports the side of its signal, its bar's stamp, the requested price (open or limit), the price after so many basis points of slippage and of volume impact against the side, what that cost against the request, and the fees of its role; options at their quote |
| `SampleRuns.StopLimitOverruns` | `coordinator/services/backtest_engine_v2.py:553-580` | A run that buys a triggered STOP_LIMIT at the next open, however far above its limit |
| `FillProofs.FeesFollowRole` | `coordinator/services/backtest_engine_v2.py:779-797` | Taker-only fees never reach a limit fill, maker-only fees never a market fill, and single-role fees are each charged once |
| `Backtest.BacktestEngine.Run` | `coordinator/services/backtest_engine_v2.py:216-520` | The clock loop leaves exactly the state of the row function, cancelled at the first set token with orders still pending, errored, or completed with everything rejected |
| `Backtest.BacktestEngine.RunRow` | `coordinator/services/backtest_engine_v2.py:237-502` | One row: tick, fills, cancellation, expiry, marking, in that order |
| `Backtest.BacktestEngine.TradeRow` | `coordinator/services/backtest_engine_v2.py:237-469` | Tick, pending orders, then the cancellation the algorithm asked for |
| `Backtest.BacktestEngine.TickAlgorithm` | `coordinator/services/backtest_engine_v2.py:243-274` | The account is handed to the context, which then shows exactly the view the algorithm is given; every emitted leg is queued for the next row |
| `Backtest.BacktestEngine.QueueAllSignals` | `coordinator/services/backtest_engine_v2.py:259-274` | Signals and their legs are queued in order |
| `Backtest.BacktestEngine.ProcessPending` | `coordinator/services/backtest_engine_v2.py:276-462` | The pending list is rebuilt from exactly the orders that stay open |
| `Backtest.BacktestEngine.AttemptOrder` | `coordinator/services/backtest_engine_v2.py:277-461` | One order at one row: wait, expire, fill, trigger, or apply its time in force |
| `Backtest.BacktestEngine.BookFill` | `coordinator/services/backtest_engine_v2.py:346-430` | A fill is booked exactly when buying power covers it, else its order is rejected |
| `Backtest.BacktestEngine.HandleUnfilled` | `coordinator/services/backtest_engine_v2.py:436-461` | Options, IOC and unset orders are rejected, DAY and GTC wait for the next row |
| `Backtest.BacktestEngine.ApplyFill` | `coordinator/services/backtest_engine_v2.py:801-861` | Cash, position and realized profit after one fill, whatever the sign of the position |
| `Backtest.BacktestEngine.RebookPosition` | `coordinator/services/backtest_engine_v2.py:806-855` | What a fill makes of one signed position, including crossing zero |
| `Backtest.BacktestEngine.RejectPending` | `coordinator/services/backtest_engine_v2.py:465-469` | Every pending order is rejected, in order, and none is left |
| `Backtest.BacktestEngine.SettleExpired` | `coordinator/services/backtest_engine_v2.py:863-899` | Every position held at the start of settlement is settled if its contract expired; a missing underlying price aborts the run |
| `Backtest.BacktestEngine.DropExpiredOrders` | `coordinator/services/backtest_engine_v2.py:475-487` | Pending orders on expired contracts are rejected, the others keep their order |
| `Backtest.BacktestEngine.MarkToMarket` | `coordinator/services/backtest_engine_v2.py:489-497` | One equity point per row of a run that has not aborted |
| `TickContexts.TickContext.MarketData` | `coordinator/services/backtest_tick_context.py:171-256` | A request resolves to its own source, the default, the first cached or polygon; a frame comes from cache, disk or download and is then cached; the answer is the closed window of that frame, or an error for an unset time or unknown timeframe |
| `TickContexts.TickContext.ResetForReplay` | `coordinator/services/backtest_tick_context.py:112-132` | Account and time are reset, bars kept; a cancellation requested during discovery survives into the replay |
| `TickContexts.RequestReadsView` | `coordinator/services/backtest_tick_context.py:171-256` | A request for a cached frame is answered with the newest bars of the series the tick's view makes visible, so the view is all an algorithm can read |
| `TickContexts.SourceRules` | `coordinator/services/backtest_tick_context.py:177-188` | A request reads the source it names, else the default, else that of the first cached frame of its symbol and timeframe, else polygon |
| `TickContexts.RequestSeesElapsed` | `coordinator/services/backtest_tick_context.py:233-256` | A request sees a bar of a named timeframe exactly when that many minutes have passed since its stamp |
| `BarStore.BarFile.Save` | `coordinator/services/data_service.py:35-51` | The file after a save: a keep-last merge, or the page itself when either side has no timestamps |
| `BarStore.MergedRowAt` | `coordinator/services/data_service.py:47-49` | The merged file is strictly increasing and holds the page's row at each stamp the page has, the old row elsewhere |
| `BarStore.SavesOverride` | `coordinator/services/data_service.py:35-51` | After any saves the row at every stamp is that of the last page containing it; the file is strictly increasing exactly when a merge has happened or the only page was |
| `BarStore.ResaveChangesNothing` | `coordinator/services/data_service.py:35-51` | Saving the latest page again changes nothing |
| `BarStore.UntimedPageIsLost` | `coordinator/services/data_service.py:35-51` | A page without timestamps replaces the file and is replaced by the next page, so the file is what the pages after it alone would leave |
| `Aggregation.GatherIsSummary` | `coordinator/services/data_service.py:175-182` | One bar per interval that has rows, in time order, each with first open, highest high, lowest low, last close and summed volume of exactly its rows |
| `Aggregation.AggregationComposes` | `coordinator/services/data_service.py:161-183` | Aggregating to a shorter interval first changes nothing |
| `Aggregation.DerivedTimeframesCompose` | `coordinator/services/data_service.py:161-183` | 5min, 15min, 1h and 1d can each be derived from any shorter one |
| `Aggregation.TargetBars` | `coordinator/services/data_service.py:161-183` | A bar of 5min, 15min, 1h or 1d starts at a whole number of those minutes and summarizes exactly the rows stamped in them, and every row is in one |
| `Aggregation.OtherTargets` | `coordinator/services/data_service.py:161-183` | 1min returns the rows as they are; any other name is an error |
| `Aggregation.AggregationKeepsVolume` | `coordinator/services/data_service.py:175-182` | Total volume is conserved |
| `Aggregation.ClosedDerivedBars` | `coordinator/services/data_service.py:161-183` | The derived bars closed at a time depend only on the one-minute bars closed then, as long as every row ends inside its interval |
| `Aggregation.AlignedEndsInside` | `coordinator/services/data_service.py:161-183` | Rows stamped on whole minutes end inside their interval at every width |
| `Aggregation.RowLeaksExactly` | `coordinator/services/data_service.py:161-183` | A row, still open, is held by a closed derived bar at some time exactly when it does not end inside its interval |
| `Backfill.ReplayTransactions` | `coordinator/services/account_backfill.py:58-134` | The ledger and cash of the replay function over the transactions in time order |
| `Backfill.FillMovesItsLot` | `coordinator/services/account_backfill.py:89-113` | A fill moves its own lot by the signed quantity and no other; a sale's remainder under 0.001 is dropped; a buy adds its cost to a long lot |
| `LedgerProofs.RemainderKeepsCost` | `coordinator/services/account_backfill.py:89-113` | A lot is opened at its fill's price, and a sale or a cover leaves the average cost of what remains |
| `LedgerProofs.ExpirationClosesLot` | `coordinator/services/account_backfill.py:78-85` | A zero-quantity sale closes its lot, changes nothing else and records the day |
| `LedgerProofs.ExpiredStaysOut` | `coordinator/services/account_backfill.py:58-134` | After a contract has expired worthless it is held again only after it has been traded again |
| `LedgerProofs.SnapshotIsReplay` | `coordinator/services/account_backfill.py:58-134` | The snapshot of a recorded day holds the lots after exactly the transactions dated up to it |
| `LedgerProofs.RecordedExactly` | `coordinator/services/account_backfill.py:72-134` | A transaction records its day unless it is a fill without a symbol, or a fill of nothing that is not a sale |
| `Backfill.ReplayCash` | `coordinator/services/account_backfill.py:58-134` | Cash recorded on a day is starting cash plus every replayed amount up to it; exactly the days with a recorded transaction appear |
| `LedgerProofs.CashByKind` | `coordinator/services/account_backfill.py:58-134` | Recorded cash is the start plus deposits and sale proceeds less withdrawals and purchases up to the day, option contracts for a hundred shares |
| `LedgerProofs.CalibrationIsReplay` | `coordinator/services/account_backfill.py:200-222` | Calibration moves what replay moves for the same transaction with its outflow counted by size and a missing symbol read as a stock |
| `Backfill.DailyDeltas` | `coordinator/services/account_backfill.py:200-222` | Daily changes are the per-day sums, in any order of transactions |
| `Backfill.WalkBack` | `coordinator/services/account_backfill.py:224-228` | The backward walk and its lowest value |
| `Backfill.CalibrateCashBackwards` | `coordinator/services/account_backfill.py:182-239` | Same days as the input; the backward walk from the broker's cash, shifted by the least amount that leaves no day negative |
| `Backfill.ReplayedChange` | `coordinator/services/account_backfill.py:58-134` | Between consecutive recorded days replayed cash moves by the later day's own transactions |
| `Backfill.CalibrationTranslates` | `coordinator/services/account_backfill.py:182-239` | Calibrated cash is a translation of replayed cash exactly when each recorded day but the first moves the same amount in both algorithms |
| `Backfill.PlainIsExact` | `coordinator/services/account_backfill.py:200-222` | One transaction moves the same amount in both exactly when its fill names a symbol (or moves nothing) and its outflow is non-negative |
| `Backfill.PlainTransactionsTranslate` | `coordinator/services/account_backfill.py:182-239` | With only such transactions the two series always differ by one constant |
| `EquityCurve.ForwardFillLedger` | `coordinator/services/account_backfill.py:141-175` | Exactly the weekdays of the window, each holding the newest weekday snapshot without contracts expired before that day |
| `EquityCurve.NewestSnapshotIsNewest` | `coordinator/services/account_backfill.py:158-173` | The snapshot carried forward is the newest weekday one in the window |
| `EquityCurve.NewestIsCarriedExactly` | `coordinator/services/account_backfill.py:158-173` | For any set of recorded days, a day carries the lots and cash of the newest recorded day, whatever was recorded, exactly when that newest day is a weekday or there is none |
| `EquityCurve.UnexpiredLots` | `coordinator/services/account_backfill.py:164-170` | Exactly the lots without an expiration, and those that expire on the day or later, are kept |
| `EquityCurve.PriceLot` | `coordinator/services/account_backfill.py:269-281` | A lot is priced today, else at its last seen price, else at cost; the last two are estimates |
| `EquityCurve.MaterializeEquity` | `coordinator/services/account_backfill.py:246-292` | Every row, in date order: each lot at the day's quote, else at that of the latest earlier day it was held and quoted, else at cost; total value is that plus cash; an estimate exactly when some held symbol has no quote that day |
| `EquityCurve.QuotedDay` | `coordinator/services/account_backfill.py:264-289` | A day on which every held symbol is quoted is worth the sum of quantity, that day's quote and the contract size, and is no estimate |
| `EquityCurve.LastSeenIsLatest` | `coordinator/services/account_backfill.py:256-281` | The price carried into a day is that of the latest earlier day on which the symbol was held and quoted |
| `EquityCurve.FilledDistinct` | `coordinator/services/account_backfill.py:58-175` | Replayed and filled ledgers list each symbol once per day, as pricing needs |
| `Coverage.FindContiguousRanges` | `coordinator/services/coverage_index.py:19-42` | The loop returns the runs of the date list |
| `Coverage.RangesAreMaximalRuns` | `coordinator/services/coverage_index.py:19-42` | Ranges are disjoint and ordered, start and end on dates, cover every date, and are separated by at least three business days |
| `Coverage.CoveredExactly` | `coordinator/services/coverage_index.py:19-42` | A day is covered exactly when it lies between two dates with at most two business days between them |
| `Coverage.CoverageMonotone` | `coordinator/services/coverage_index.py:19-42` | Adding dates never uncovers a day |
| `Coverage.GapsBetween` | `coordinator/services/coverage_index.py:61-91` | Gaps are sorted, disjoint and contain exactly the days of the window in no range |
| `Coverage.CoverageIndex.GetRanges` | `coordinator/services/coverage_index.py:54-59` | The ranges as of the last scan, scanned and kept when missing |
| `Coverage.CoverageIndex.GetGaps` | `coordinator/services/coverage_index.py:61-91` | The exact gaps against the cached ranges |
| `Coverage.CoverageIndex.EnsureCoverage` | `coordinator/services/coverage_utils.py:30-58` | One window per gap, a day wider on each side, from providers that can download; the cached ranges are then forgotten |
| `Coverage.FillingCloses` | `coordinator/services/coverage_utils.py:30-58` | Once every day of every requested window is on disk a rescan leaves no gap |
| `Coverage.WeekdayFillingClosesExactly` | `coordinator/services/coverage_utils.py:30-58` | With weekday data only, filling always closes the window exactly when it neither starts on a Sunday nor ends on a Saturday |
| `StdinFramer.StdinReader.Read` | `sdk/scraper_login.py:1278-1298` | One read leaves the state of the framing function, with at most the command limit buffered |
| `StdinFramer.FramingIgnoresChunking` | `sdk/scraper_login.py:1268-1298` | However the stream is cut into reads, the deliveries are those of splitting the whole stream at newlines, one None per oversize line and the in-limit tail at the end |
| `StdinFramer.BufferBounded` | `sdk/scraper_login.py:1285-1290` | Between reads the buffer never exceeds 8192 bytes and holds no newline |
| `StdinFramer.FrameFirstLine` | `sdk/scraper_login.py:1291-1297` | A terminated line is delivered whole with its newline, or as one None when longer than 8192 bytes |
| `Snapshots.CachedSnapshot.Invalidate` | `coordinator/services/cached_snapshot.py:45-49` | Marks stale and creates a drainer only when none is alive |
| `Snapshots.CachedSnapshot.ResumeDrainer` | `coordinator/services/cached_snapshot.py:51-69` | A returned call stores its value and re-enters the loop; a raised one ends the drainer |
| `Snapshots.CachedSnapshot.EndRefreshNow` | `coordinator/services/cached_snapshot.py:35-43` | A direct refresh stores its value when it returns and changes nothing when it raises |
| `Snapshots.AtMostOneDrainer` | `coordinator/services/cached_snapshot.py:45-69` | In every interleaving, failures and direct refreshes included, at most one drainer is alive |
| `Snapshots.NoLostInvalidation` | `coordinator/services/cached_snapshot.py:45-69` | In every interleaving whose last drainer did not fail, an idle cache that was ever invalidated holds a value from a call begun after the last invalidation, except exactly when the last call to return was a direct refresh begun before it |
| `Snapshots.FailureLeavesMark` | `coordinator/services/cached_snapshot.py:51-64` | A producer failure ends the drainer and leaves the mark set exactly when an invalidation arrived during the failing call |
| `Snapshots.FailureCanLeaveMark` | `coordinator/services/cached_snapshot.py:51-64` | The mark does stay: an invalidation during a call that then fails leaves an idle cache that is marked stale and holds no value |
| `Snapshots.BurstCausesOneMoreCall` | `coordinator/services/cached_snapshot.py:51-69` | Any number of invalidations during one refresh cause exactly one more producer call, after which the drainer ends up to date |
| `Snapshots.OverlappingRefreshGoesStale` | `coordinator/services/cached_snapshot.py:35-43` | The exception arises: a direct refresh begun before an invalidation returns after the drain and leaves the idle cache stale |
| `Worker.WorkerAgent.HandleTickBatch` | `worker/agent.py:237-253` | Every entry of a known instance is chained behind that instance's last one; unknown instances are skipped |
| `Worker.WorkerAgent.RequestSignalApproval` | `worker/agent.py:116-121` | A request appends one open future to its instance's queue before its message is sent |
| `Worker.WorkerAgent.ResumeAfterSend` | `worker/agent.py:122-126` | A send that returns starts the wait for an answer; one that raises leaves the future queued with nobody waiting |
| `Worker.WorkerAgent.HandleSignalResponse` | `worker/agent.py:212-224` | Any response, asked for or not, discards futures already done and resolves the first open one, if there is one |
| `Worker.WorkerAgent.FinishRequest` | `worker/agent.py:128-136` | An answered or expired request leaves the queue |
| `Worker.EntriesRunInOrder` | `worker/agent.py:237-266` | In every interleaving an entry that has started finds every earlier entry of its instance over, raised or not |
| `Worker.OneRequestOutstanding` | `worker/agent.py:116-136` | At most one approval request per instance is being sent or awaited at any time |
| `Worker.RequestsAreNumbered` | `worker/agent.py:116-121` | In every interleaving the requests an instance sends are numbered in the order it asked |
| `Approvals.FinishedRequestsLeave` | `worker/agent.py:116-136` | In every interleaving an instance queues its own futures, each once, and only those somebody still asks for or whose message was never sent |
| `Approvals.AnswersPairWithRequests` | `worker/agent.py:116-136` | As long as nothing is asked while an answer is owed and no send fails, timeouts or not, once n answers have come every request numbered below n has its own answer or has timed out, and no other has any |
| `Approvals.GuardIsExact` | `worker/agent.py:212-224` | After any such run the next request sent gets its own answer exactly when nothing was owed when it was asked; otherwise it gets an earlier request's |
| `Approvals.TimeoutLeavesOwed` | `worker/agent.py:125-136` | A timeout leaves an answer owed while the entry is free to ask again |
| `Approvals.FailedSendTakesNextAnswer` | `worker/agent.py:120-125` | After a failed send the next answer goes to the abandoned future and the next request stays open, although nothing was owed and nothing timed out |
| `Streaming.DaysPerChunk` | `coordinator/services/backtest_writer.py:34-42` | Between 1 and 30 days, and the fewest that hold 5000 of the rows spread over their dates (over five at least) |
| `Streaming.ChunkingObserver.OnEquityPoint` | `coordinator/services/backtest_writer.py:78-103` | The observer state after one equity point, rollover included |
| `Streaming.ChunkingObserver.OnFill` | `coordinator/services/backtest_writer.py:105-118` | A fill joins the trade buffer and nothing else changes |
| `Streaming.ChunkingObserver.FlushBuffers` | `coordinator/services/backtest_writer.py:128-130` | A flush queues one chunk when anything is buffered |
| `Streaming.ParquetWriter.Run` | `coordinator/services/backtest_writer.py:168-179` | The writer appends the rows of every queued chunk, in order, until it has taken the sentinel or the queue is empty |
| `Streaming.StreamingLosesNothing` | `coordinator/services/backtest_writer.py:78-153` | In every interleaving of replay and writer, rows written, queued and buffered concatenate to exactly the emitted points and fills |
| `Streaming.DrainedFilesAreComplete` | `coordinator/services/backtest_writer.py:120-179` | After a flush and a drain the files hold exactly what was emitted, in order |
| `Streaming.ChunksWithinLimit` | `coordinator/services/backtest_writer.py:81-94` | In every run, in whatever order points come, no chunk spans more distinct dates than the limit |
| `Streaming.ChunksNameTheirWindow` | `coordinator/services/backtest_writer.py:142-153` | In every run every queued chunk holds something and names the stamps of its own first and last points |
| `Streaming.RolloverShape` | `coordinator/services/backtest_writer.py:85-94` | With points in date order a rolled chunk holds exactly the limit of dates; at a limit of one it is one whole date, at two or more its last date has a single point |
| `Streaming.MidDayRollover` | `coordinator/services/backtest_writer.py:85-94` | A two-day chunk that breaks inside a date |
| `Streaming.DailyHoldsLastValue` | `coordinator/services/backtest_writer.py:95-103` | The daily curve holds exactly the dates emitted, each with its last value |
| `Metrics.MaxDrawdown` | `coordinator/services/metrics_engine.py:70-96` | One pass computes the worst loss from the running peak, the dollars lost when it was first reached, and the longest span from a record through a dip to strict recovery or the end |
| `Metrics.DepthIsQuadratic` | `coordinator/services/metrics_engine.py:70-91` | On curves that never go negative the depth is the maximum over all i <= j of the share lost between them |
| `Metrics.DepthIsExactAboveZero` | `coordinator/services/metrics_engine.py:70-91` | The one-pass depth is the maximum over all pairs on every curve at or above a floor exactly when that floor is not negative |
| `Metrics.Streaks` | `coordinator/services/metrics_engine.py:122-135` | The longest runs of winning and of losing trades |
| `Metrics.Compute` | `coordinator/services/metrics_engine.py:7-15` | Fewer than two equity points give no metrics at all |

## Left out

- Causality: both runs have the same option quotes; chains, quotes and marks are given functions.
- OrderConservation: runs that have failed, where the code abandons the row with orders half sorted.
- SaleFeesExactly: cost profiles, volume impact and slippage above 100%, under which a sale price can itself be negative; StrictCash bounds those runs.
- OpenExactly: stops, whose leg changes when they trip; RowFate describes them row by row.
- EquityIsMarked: option marks, chains and quotes, which are given functions.
- FillTiming: slippage in basis points and the signal id of a fill are not recorded.
- NoLostInvalidation: a cache whose last drainer failed; only its mark is described, by FailureLeavesMark.
- AnswersPairWithRequests: task cancellation is not an action.
- EntriesRunInOrder: the set of running instances is fixed during a run, so stopping and restarting an instance is not an action.
- NoLookAheadExactly: the bar an order meets; option quotes and marks are given functions.
- StreamingLosesNothing: a writer error, after which the remaining chunks are discarded.
- MaterializeEquity: NaN prices.
- The discovery pass of the engine, beyond the cancellation flag it can leave behind.
- A first-time data request during the replay adds a frame; the engine's store is fixed, and only the context class models the miss.
- Division by a zero open in the reported bar-range slippage.
- Exceptions raised by an algorithm, which end the run in `on_error`.
- Building and repricing option chains, implied volatility, and the underlying price they use.
- The asset registry's symbol patterns, cost-profile files and bitemporal dataset storage.
- The position snapshot every fifty rows, progress callbacks and timing logs.
- Path resolution, timeframe aliases and provider validation in market-data loading.
- Reading transactions' text timestamps, and transactions without one.
- Loading daily prices for the equity curve.
- Which file of a symbol a coverage scan reads; the model starts from its dates.
- A closed event loop while the stdin reader delivers a line.
- Page tracking, commands and the browser session of the login helper.
- Sharpe, Sortino, profit factor and the other closed-form metrics.
- Goal processing, the download manager, the TTL cache, the profile lock, and all network and database code.
- Float rounding and time zones.
