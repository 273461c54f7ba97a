/**
 The backtest clock loop as a function of its inputs: one `Step` per clock row, from the
 algorithm's tick to the equity point.
 */
module EngineSpec {
  import opened Common
  import opened OrderedDict
  import opened Market
  import opened Orders

  type Positions = seq<Entry<Symbol, Position>>

  datatype PositionView = PositionView(symbol: Symbol, quantity: real, avgCost: real, price: real, assetType: AssetType)

  /** Everything an algorithm can read on one tick. */
  datatype View = View(now: int, cash: real, accountValue: real, positions: seq<PositionView>, visible: Store)

  /** What it answers: signals, and whether it asked to cancel every open order. */
  datatype Decision = Decision(signals: seq<Signal>, cancelAll: bool)

  /**
   The fixed inputs of a run. An algorithm is any function of all it has been shown so far.
   Option quotes, option marks and the random stream are oracles.
   */
  datatype Env = Env(
    store: Store, duration: nat,
    slippage: SlippageModel, buyFees: seq<TradingFee>, sellFees: seq<TradingFee>,
    profile: Option<Leg -> CostBundle>,
    assetTypeOf: Symbol -> AssetType,
    resolve: (Symbol, string) -> Symbol,
    contractOf: Symbol -> Option<OptionContract>,
    optionQuote: (Symbol, Side, int) -> Option<real>,
    optionMark: (Symbol, real, int) -> real,
    uniform: nat -> real,
    algorithm: seq<View> -> Decision)

  datatype State = State(
    cash: real, positions: Positions, pending: seq<PendingOrder>, emitted: seq<Emission>, log: seq<Event>,
    draws: nat, cancelRequested: bool, history: seq<View>, failed: bool)

  function Start(cash: real, cancelRequested: bool): State {
    State(cash, [], [], [], [], 0, cancelRequested, [], false)
  }

  function IsOption(env: Env, symbol: Symbol): bool {
    env.assetTypeOf(symbol).Options?
  }

  function Multiplier(env: Env, symbol: Symbol): real {
    if IsOption(env, symbol) then 100.0 else 1.0
  }

  // ---- fill simulation ----

  function SumFees(fees: seq<TradingFee>, quantity: real, price: real, maker: bool): real {
    if fees == [] then 0.0
    else
      var tf := fees[|fees| - 1];
      SumFees(fees[..|fees| - 1], quantity, price, maker)
      + (if (tf.maker && maker) || (tf.taker && !maker) then tf.flat + price * quantity * tf.percent else 0.0)
  }

  function CostsFor(env: Env, leg: Leg): CostBundle {
    match env.profile
    case Some(resolveCosts) => resolveCosts(leg)
    case None => CostBundle(env.slippage, if SideOf(leg).Buy? then env.buyFees else env.sellFees)
  }

  function Sign(side: Side): real {
    if side.Buy? then 1.0 else -1.0
  }

  function StopTriggered(leg: Leg, bar: Bar): bool {
    leg.stopPrice.Some? && bar.low <= leg.stopPrice.value <= bar.high
  }

  datatype Attempt =
    | Executed(fill: Fill, draws: nat)
    | Triggered(leg: Leg)
    | NotExecuted

  /** A price moved against the order's side by so many basis points. */
  function Slipped(price: real, bps: real, side: Side): real {
    price + price * (bps / 10000.0) * Sign(side)
  }

  /** The point that lies a share `u` of the way from `low` to `high`. */
  function Between(low: real, high: real, u: real): real {
    low + (high - low) * u
  }

  function OptionMarketFill(env: Env, leg: Leg, bar: Bar, now: int, costs: CostBundle, draws: nat): Attempt {
    var side := SideOf(leg);
    match env.optionQuote(leg.symbol, side, now)
    case None => NotExecuted
    case Some(quote) =>
      if quote <= 0.0 then NotExecuted
      else
        var price := if costs.slippage.marketBps > 0.0 then Slipped(quote, costs.slippage.marketBps, side) else quote;
        Executed(Fill(bar.time, leg.symbol, Options, side, leg.quantity, price, price, 0.0,
                      SumFees(costs.fees, leg.quantity, price, false), None), draws)
  }

  /** The price of a market order before volume impact. */
  function BaseMarketPrice(env: Env, bar: Bar, side: Side, slippage: SlippageModel, draws: nat): real {
    if slippage.useBarRange then Between(bar.low, bar.high, env.uniform(draws))
    else Slipped(bar.open, slippage.marketBps, side)
  }

  function VolumeImpact(bar: Bar, leg: Leg, slippage: SlippageModel): real {
    if slippage.volumeImpact > 0.0 && bar.volume > 0.0
    then bar.open * ((leg.quantity / bar.volume) * 100.0 * slippage.volumeImpact / 10000.0) * Sign(SideOf(leg))
    else 0.0
  }

  function MarketFill(env: Env, leg: Leg, bar: Bar, now: int, draws: nat): (a: Attempt)
    ensures !a.Triggered?
  {
    var costs := CostsFor(env, leg);
    var side := SideOf(leg);
    if IsOption(env, leg.symbol) then OptionMarketFill(env, leg, bar, now, costs, draws)
    else
      var price := BaseMarketPrice(env, bar, side, costs.slippage, draws) + VolumeImpact(bar, leg, costs.slippage);
      Executed(Fill(bar.time, leg.symbol, leg.assetType, side, leg.quantity, bar.open, price,
                    Abs(price - bar.open) * leg.quantity, SumFees(costs.fees, leg.quantity, price, false), None),
               if costs.slippage.useBarRange then draws + 1 else draws)
  }

  function OptionLimitFill(env: Env, leg: Leg, limit: real, bar: Bar, now: int, costs: CostBundle, draws: nat): Attempt {
    var side := SideOf(leg);
    match env.optionQuote(leg.symbol, side, now)
    case None => NotExecuted
    case Some(quote) =>
      if (side.Buy? && quote <= limit) || (side.Sell? && quote >= limit) then
        Executed(Fill(bar.time, leg.symbol, Options, side, leg.quantity, limit, quote, 0.0,
                      SumFees(costs.fees, leg.quantity, quote, true), None), draws)
      else NotExecuted
  }

  function SlippedLimit(limit: real, bps: real, side: Side): real {
    if bps > 0.0 then Slipped(limit, bps, side) else limit
  }

  function LimitFill(env: Env, leg: Leg, bar: Bar, now: int, draws: nat): (a: Attempt)
    ensures !a.Triggered?
  {
    var costs := CostsFor(env, leg);
    var side := SideOf(leg);
    match leg.limitPrice
    case None => NotExecuted
    case Some(limit) =>
      if IsOption(env, leg.symbol) then OptionLimitFill(env, leg, limit, bar, now, costs, draws)
      else if (side.Buy? && !(bar.low < limit)) || (side.Sell? && !(bar.high > limit)) then NotExecuted
      else
        var price := SlippedLimit(limit, costs.slippage.limitBps, side);
        Executed(Fill(bar.time, leg.symbol, leg.assetType, side, leg.quantity, limit, price,
                      Abs(price - limit) * leg.quantity, SumFees(costs.fees, leg.quantity, price, true), None), draws)
  }

  /** The leg a triggered STOP_LIMIT is replaced with: it takes the default time in force. */
  function AsLimit(leg: Leg): Leg {
    Leg(leg.symbol, leg.signalType, leg.quantity, leg.assetType, LimitOrder, leg.limitPrice, None, Day)
  }

  function TryFill(env: Env, po: PendingOrder, bar: Bar, now: int, draws: nat): Attempt {
    var leg := po.leg;
    if leg.orderType.MarketOrder? || po.stopTriggered then MarketFill(env, leg, bar, now, draws)
    else match leg.orderType
      case LimitOrder => LimitFill(env, leg, bar, now, draws)
      case StopOrder => if StopTriggered(leg, bar) then Triggered(leg) else NotExecuted
      case StopLimitOrder => if StopTriggered(leg, bar) then Triggered(AsLimit(leg)) else NotExecuted
  }

  // ---- buying power ----

  function Held(positions: Positions, symbol: Symbol): real {
    match Find(positions, symbol)
    case None => 0.0
    case Some(ps) => ps.quantity
  }

  /** Price times quantity times multiplier. */
  function Worth(price: real, quantity: real, multiplier: real): real {
    price * quantity * multiplier
  }

  function Notional(env: Env, fill: Fill): real {
    Worth(fill.fillPrice, fill.quantity, Multiplier(env, fill.symbol))
  }

  const CASH_SLACK: real := 0.000001
  const QUANTITY_SLACK: real := 0.000000001

  /** Why a fill may not be booked, if it may not. */
  function Refusal(env: Env, cash: real, positions: Positions, fill: Fill): Option<Reason> {
    if fill.side.Buy? then
      if Notional(env, fill) + fill.fees > cash + CASH_SLACK then Some(InsufficientBuyingPower) else None
    else
      var held := Held(positions, fill.symbol);
      if !IsOption(env, fill.symbol) then
        if fill.quantity > held + QUANTITY_SLACK then Some(InsufficientPosition) else None
      else
        var short := fill.quantity - Max(held, 0.0);
        if short > QUANTITY_SLACK then
          match env.contractOf(fill.symbol)
          case None => Some(StrikeUnparseable)
          case Some(contract) =>
            var margin := contract.strike * Multiplier(env, fill.symbol) * short;
            if margin > cash + (Notional(env, fill) - fill.fees) + CASH_SLACK then Some(InsufficientBuyingPower) else None
        else None
  }

  // ---- position tracking ----

  /** The position left by a fill, and the profit the fill realizes when it closes. */
  datatype Rebooking = Opened(position: Position) | Closed(position: Position, realized: real)

  function Realized(r: Rebooking): Option<real> {
    if r.Closed? then Some(r.realized) else None
  }

  /** Quantity-weighted average price. */
  function Blend(price: real, quantity: real, newPrice: real, newQuantity: real): real
    requires quantity + newQuantity != 0.0
  {
    (price * quantity + newPrice * newQuantity) / (quantity + newQuantity)
  }

  /** Close part or all of a position; what crosses zero is a new position at the fill's price. */
  function Close(ps: Position, fill: Fill, quantity: real, remainder: real, realized: real): Rebooking {
    var avg := if remainder > 0.0 then fill.fillPrice else if quantity == 0.0 then 0.0 else ps.avgPrice;
    Closed(ps.(quantity := quantity, avgPrice := avg), realized)
  }

  function Rebook(ps: Position, fill: Fill, multiplier: real): Rebooking
    requires fill.quantity > 0.0
  {
    if fill.side.Buy? then
      if ps.quantity < 0.0 then
        var closed := Min(fill.quantity, -ps.quantity);
        Close(ps, fill, ps.quantity + fill.quantity, fill.quantity - closed,
              Worth(ps.avgPrice - fill.fillPrice, closed, multiplier) - fill.fees)
      else
        var total := ps.quantity + fill.quantity;
        Opened(ps.(quantity := total, avgPrice := Blend(ps.avgPrice, ps.quantity, fill.fillPrice, fill.quantity)))
    else
      if ps.quantity > 0.0 then
        var closed := Min(fill.quantity, ps.quantity);
        Close(ps, fill, ps.quantity - fill.quantity, fill.quantity - closed,
              Worth(fill.fillPrice - ps.avgPrice, closed, multiplier) - fill.fees)
      else
        var short := -ps.quantity;
        var avg := if short == 0.0 then fill.fillPrice else Blend(ps.avgPrice, short, fill.fillPrice, fill.quantity);
        Opened(ps.(quantity := -(short + fill.quantity), avgPrice := avg))
  }

  function PositionFor(positions: Positions, fill: Fill): Position {
    match Find(positions, fill.symbol)
    case None => Position(0.0, 0.0, fill.assetType)
    case Some(ps) => ps
  }

  function StorePosition(positions: Positions, symbol: Symbol, ps: Position): Positions {
    var p := Put(positions, symbol, ps);
    if ps.quantity == 0.0 then Remove(p, symbol) else p
  }

  /** Book a fill: cash, position and log entry. */
  function ApplyFill(env: Env, st: State, id: nat, row: nat, fill: Fill): State
    requires fill.quantity > 0.0
  {
    var rebooked := Rebook(PositionFor(st.positions, fill), fill, Multiplier(env, fill.symbol));
    var cash := if fill.side.Buy? then st.cash - (Notional(env, fill) + fill.fees)
                else st.cash + (Notional(env, fill) - fill.fees);
    st.(cash := cash, positions := StorePosition(st.positions, fill.symbol, rebooked.position),
        log := st.log + [Filled(id, row, fill.(realizedPnl := Realized(rebooked)))])
  }

  // ---- one pending order at one row ----

  function Keep(st: State, po: PendingOrder): State {
    st.(pending := st.pending + [po])
  }

  function Reject(st: State, po: PendingOrder, row: nat, reason: Reason): State {
    st.(log := st.log + [Rejected(po.id, row, po.leg, reason)])
  }

  /** The symbol's own newest closed bar, or the clock row when it has none. */
  function FillBar(env: Env, symbol: Symbol, bar: Bar): Bar {
    match LookupBar(env.store, symbol, env.resolve, bar.time + env.duration)
    case None => bar
    case Some(own) => own
  }

  /** What happens to an order that neither filled nor triggered. */
  function Unfilled(env: Env, st: State, po: PendingOrder, row: nat): State {
    if IsOption(env, po.leg.symbol) then Reject(st, po, row, NoOptionPrice)
    else match po.leg.timeInForce
      case Unset => Reject(st, po, row, NoFillWithinTimeout)
      case Ioc => Reject(st, po, row, NoFillWithinTimeout)
      case Day => Keep(st, po.(scheduledFor := row + 1))
      case Gtc => Keep(st, po.(scheduledFor := row + 1))
      case Unknown => Reject(st, po, row, UnknownTimeInForce)
  }

  function IsDayExpired(po: PendingOrder, bar: Bar): bool {
    po.leg.timeInForce.Day? && po.attempted && DateOf(bar.time) > po.createdDate
  }

  /** Try an order against the bar its symbol resolves to. An execution is for the leg's own quantity. */
  function TryFillAt(env: Env, po: PendingOrder, bar: Bar, draws: nat): (a: Attempt)
    ensures a.Executed? ==> a.fill.symbol == po.leg.symbol && a.fill.side == SideOf(po.leg)
    ensures a.Executed? ==> a.fill.quantity == po.leg.quantity && a.fill.realizedPnl.None?
    ensures a.Executed? ==> a.fill.time == FillBar(env, po.leg.symbol, bar).time
  {
    TryFill(env, po, FillBar(env, po.leg.symbol, bar), bar.time + env.duration, draws)
  }

  /** Book a fill that buying power covers; refuse the order otherwise. */
  function BookOrRefuse(env: Env, st: State, po: PendingOrder, row: nat, fill: Fill): State
    requires fill.quantity > 0.0
  {
    match Refusal(env, st.cash, st.positions, fill)
    case Some(reason) => Reject(st, po, row, reason)
    case None => ApplyFill(env, st, po.id, row, fill)
  }

  /** Settle one order at one row, adding it to `st.pending` when it stays open. */
  function AttemptOrder(env: Env, st: State, po: PendingOrder, row: nat, bar: Bar): State {
    if po.scheduledFor > row then Keep(st, po)
    else if IsDayExpired(po, bar) then Reject(st, po, row, DayExpired)
    else
      var tried := po.(attempted := true);
      match TryFillAt(env, tried, bar, st.draws)
      case Executed(fill, draws) =>
        BookOrRefuse(env, st.(draws := draws), tried, row, fill)
      case Triggered(leg) =>
        Keep(st, tried.(leg := leg, stopTriggered := true, scheduledFor := row + 1))
      case NotExecuted => Unfilled(env, st, tried, row)
  }

  /** Orders in turn; `st.pending` collects the ones that stay open. */
  function AttemptAll(env: Env, st: State, todo: seq<PendingOrder>, row: nat, bar: Bar): State {
    if todo == [] then st
    else AttemptOrder(env, AttemptAll(env, st, todo[..|todo| - 1], row, bar), todo[|todo| - 1], row, bar)
  }

  function ProcessPending(env: Env, st: State, row: nat, bar: Bar): State {
    AttemptAll(env, st.(pending := []), st.pending, row, bar)
  }

  // ---- ticking the algorithm ----

  function NonOptionPrice(env: Env, symbol: Symbol, now: int, fallback: real): real {
    var price := LookupClose(env.store, symbol, env.resolve, now);
    if price == 0.0 then fallback else price
  }

  function MarkPrice(env: Env, symbol: Symbol, ps: Position, now: int): real {
    if IsOption(env, symbol) then env.optionMark(symbol, ps.quantity, now)
    else NonOptionPrice(env, symbol, now, ps.avgPrice)
  }

  function MarketValue(env: Env, positions: Positions, now: int): real {
    if positions == [] then 0.0
    else
      var e := positions[|positions| - 1];
      MarketValue(env, positions[..|positions| - 1], now)
      + e.value.quantity * MarkPrice(env, e.key, e.value, now) * Multiplier(env, e.key)
  }

  function ContextPositions(env: Env, positions: Positions, now: int): seq<PositionView> {
    if positions == [] then []
    else
      var e := positions[|positions| - 1];
      var mark := MarkPrice(env, e.key, e.value, now);
      var price := if mark == 0.0 then e.value.avgPrice else mark;
      ContextPositions(env, positions[..|positions| - 1], now)
      + [PositionView(e.key, e.value.quantity, e.value.avgPrice, price, e.value.assetType)]
  }

  function ViewAt(env: Env, st: State, now: int): View {
    View(now, st.cash, st.cash + MarketValue(env, st.positions, now), ContextPositions(env, st.positions, now),
         Visible(env.store, now))
  }

  /** Queue one emitted leg for the next row. */
  function QueueLeg(st: State, leg: Leg, row: nat, bar: Bar): State {
    st.(emitted := st.emitted + [Emission(row, leg, DateOf(bar.time))],
        pending := st.pending + [PendingOrder(|st.emitted|, leg, row + 1, false, DateOf(bar.time), false)])
  }

  function QueueLegs(st: State, legs: seq<Leg>, row: nat, bar: Bar): State {
    if legs == [] then st else QueueLeg(QueueLegs(st, legs[..|legs| - 1], row, bar), legs[|legs| - 1], row, bar)
  }

  function QueueSignals(st: State, signals: seq<Signal>, row: nat, bar: Bar): State {
    if signals == [] then st
    else QueueLegs(QueueSignals(st, signals[..|signals| - 1], row, bar), signals[|signals| - 1].legs, row, bar)
  }

  function Tick(env: Env, st: State, row: nat, bar: Bar): State {
    var history := st.history + [ViewAt(env, st, bar.time + env.duration)];
    var decision := env.algorithm(history);
    QueueSignals(st.(history := history, cancelRequested := st.cancelRequested || decision.cancelAll),
                 decision.signals, row, bar)
  }

  // ---- cancellation, expiry, marking ----

  function RejectAll(st: State, orders: seq<PendingOrder>, row: nat, reason: Reason): State {
    if orders == [] then st
    else Reject(RejectAll(st, orders[..|orders| - 1], row, reason), orders[|orders| - 1], row, reason)
  }

  function CancelRequested(st: State, row: nat): State {
    if st.cancelRequested
    then RejectAll(st, st.pending, row, CancelledByAlgorithm).(pending := [], cancelRequested := false)
    else st
  }

  datatype Expiry = NotExpired | Unpriced | Expires(side: Side, quantity: real, price: real, realized: real)

  /** The asset service's expiry rule: only option contracts past their expiration date settle. */
  function HandleExpiry(env: Env, symbol: Symbol, quantity: real, avgPrice: real, now: int): Expiry {
    if !IsOption(env, symbol) then NotExpired
    else
      match env.contractOf(symbol)
      case None => NotExpired
      case Some(contract) =>
        if DateOf(now) <= contract.expiration then NotExpired
        else match UnderlyingPrice(env.store, contract.underlying, now)
          case None => Unpriced
          case Some(price) =>
            var intrinsic := Max(0.0, if contract.isCall then price - contract.strike else contract.strike - price);
            var qty := Abs(quantity);
            if quantity < 0.0 then Expires(Buy, qty, intrinsic, Worth(avgPrice - intrinsic, qty, 100.0))
            else Expires(Sell, qty, intrinsic, Worth(intrinsic - avgPrice, qty, 100.0))
  }

  /** Settle one held position if its contract has expired; an unpriced contract aborts the run. */
  function SettleOne(env: Env, st: State, held: Entry<Symbol, Position>, row: nat, now: int): State {
    if st.failed then st
    else match HandleExpiry(env, held.key, held.value.quantity, held.value.avgPrice, now)
      case NotExpired => st
      case Unpriced => st.(failed := true)
      case Expires(side, quantity, price, realized) =>
        var moved := Worth(price, quantity, Multiplier(env, held.key));
        st.(cash := if price > 0.0 then (if side.Sell? then st.cash + moved else st.cash - moved) else st.cash,
            positions := Remove(st.positions, held.key),
            log := st.log + [Settled(row, Fill(now, held.key, Options, side, quantity, price, price, 0.0, 0.0, Some(realized)))])
  }

  function SettleAll(env: Env, st: State, held: Positions, row: nat, now: int): State {
    if held == [] then st else SettleOne(env, SettleAll(env, st, held[..|held| - 1], row, now), held[|held| - 1], row, now)
  }

  /** Reject one pending order when its contract has expired, else keep it. */
  function DropOne(env: Env, st: State, po: PendingOrder, row: nat, now: int): State {
    if st.failed then st
    else match HandleExpiry(env, po.leg.symbol, 1.0, 0.0, now)
      case NotExpired => Keep(st, po)
      case Unpriced => st.(failed := true)
      case Expires(_, _, _, _) => Reject(st, po, row, ContractExpired)
  }

  function DropAll(env: Env, st: State, orders: seq<PendingOrder>, row: nat, now: int): State {
    if orders == [] then st else DropOne(env, DropAll(env, st, orders[..|orders| - 1], row, now), orders[|orders| - 1], row, now)
  }

  function DropExpired(env: Env, st: State, row: nat, now: int): State {
    if st.failed then st else DropAll(env, st.(pending := []), st.pending, row, now)
  }

  function Mark(env: Env, st: State, row: nat, now: int): State {
    if st.failed then st
    else st.(log := st.log + [EquityPoint(row, now, st.cash + MarketValue(env, st.positions, now), st.cash)])
  }

  // ---- rows and runs ----

  /** The trading half of a row: tick, fills and cancellation. */
  function Trade(env: Env, st: State, row: nat, bar: Bar): State {
    CancelRequested(ProcessPending(env, Tick(env, st, row, bar), row, bar), row)
  }

  /** One iteration of the clock loop. */
  function Step(env: Env, st: State, row: nat, bar: Bar): State {
    if st.failed then st
    else
      var now := bar.time + env.duration;
      var traded := Trade(env, st, row, bar);
      Mark(env, DropExpired(env, SettleAll(env, traded, traded.positions, row, now), row, now), row, now)
  }

  /** The state at the head of the loop after `n` rows. */
  function Rows(env: Env, st: State, clock: seq<Bar>, n: nat): State
    requires n <= |clock|
  {
    if n == 0 then st else Step(env, Rows(env, st, clock, n - 1), n - 1, clock[n - 1])
  }

  /** After the last row, whatever is still pending is rejected. */
  function Finish(st: State, clock: seq<Bar>): State
    requires clock != []
  {
    RejectAll(st, st.pending, |clock| - 1, EndOfBacktest).(pending := [])
  }

  /** A run that has not aborted by row `n` had not aborted before. */
  lemma FailureSticks(env: Env, st: State, clock: seq<Bar>, n: nat)
    requires 0 < n <= |clock| && !Rows(env, st, clock, n).failed
    ensures !Rows(env, st, clock, n - 1).failed
  {
    hide Trade, SettleAll, DropExpired, Mark;
  }

  /** Queueing touches only the emissions and the pending orders. */
  lemma {:induction false} QueueLegsFrame(st: State, legs: seq<Leg>, row: nat, bar: Bar)
    ensures var after := QueueLegs(st, legs, row, bar); after == st.(emitted := after.emitted, pending := after.pending)
  {
    if legs != [] {
      QueueLegsFrame(st, legs[..|legs| - 1], row, bar);
    }
  }

  lemma {:induction false} QueueSignalsFrame(st: State, signals: seq<Signal>, row: nat, bar: Bar)
    ensures var after := QueueSignals(st, signals, row, bar); after == st.(emitted := after.emitted, pending := after.pending)
  {
    if signals != [] {
      var rest := signals[..|signals| - 1];
      QueueSignalsFrame(st, rest, row, bar);
      QueueLegsFrame(QueueSignals(st, rest, row, bar), signals[|signals| - 1].legs, row, bar);
    }
  }

  /** Rejecting orders touches only the log. */
  lemma {:induction false} RejectAllFrame(st: State, orders: seq<PendingOrder>, row: nat, reason: Reason)
    ensures var after := RejectAll(st, orders, row, reason); after == st.(log := after.log)
  {
    if orders != [] {
      RejectAllFrame(st, orders[..|orders| - 1], row, reason);
    }
  }
}
