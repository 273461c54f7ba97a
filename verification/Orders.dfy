/** Signals, orders, cost models and fills. */
module Orders {
  import opened Common
  import opened Market

  type Positive = r: real | r > 0.0 witness 1.0
  type NonNegative = r: real | r >= 0.0 witness 0.0

  datatype AssetType = Equities | Options | Crypto | Index

  datatype SignalType = BuySignal | SellSignal | SellShort | BuyToCover

  datatype OrderType = MarketOrder | LimitOrder | StopOrder | StopLimitOrder

  /** `Unset` and `Unknown` stand for a leg whose field holds None or a foreign value. */
  datatype TimeInForce = Day | Gtc | Ioc | Unset | Unknown

  datatype Side = Buy | Sell

  /** One order leg; construction rejects non-positive quantities and prices. */
  datatype Leg = Leg(symbol: Symbol, signalType: SignalType, quantity: Positive, assetType: AssetType,
                     orderType: OrderType, limitPrice: Option<Positive>, stopPrice: Option<Positive>,
                     timeInForce: TimeInForce)

  datatype Signal = Signal(legs: seq<Leg>)

  function SideOf(leg: Leg): Side {
    if leg.signalType == BuySignal || leg.signalType == BuyToCover then Buy else Sell
  }

  datatype TradingFee = TradingFee(flat: NonNegative, percent: NonNegative, maker: bool, taker: bool)

  datatype SlippageModel = SlippageModel(marketBps: NonNegative, limitBps: NonNegative, useBarRange: bool,
                                         volumeImpact: NonNegative)

  datatype CostBundle = CostBundle(slippage: SlippageModel, fees: seq<TradingFee>)

  /** What the engine reports for one execution. */
  datatype Fill = Fill(time: int, symbol: Symbol, assetType: AssetType, side: Side, quantity: real,
                       requestedPrice: real, fillPrice: real, slippageDollars: real, fees: real,
                       realizedPnl: Option<real>)

  datatype Reason =
    | DayExpired | InsufficientBuyingPower | InsufficientPosition | StrikeUnparseable | NoOptionPrice
    | NoFillWithinTimeout | UnknownTimeInForce | CancelledByAlgorithm | ContractExpired | EndOfBacktest

  /** The reasons for refusing to book an execution. */
  predicate IsPower(reason: Reason) {
    reason.InsufficientBuyingPower? || reason.InsufficientPosition? || reason.StrikeUnparseable?
  }

  /** A queued leg. `id` is its emission number; it stands for the identity of the order object. */
  datatype PendingOrder = PendingOrder(id: nat, leg: Leg, scheduledFor: nat, stopTriggered: bool,
                                       createdDate: int, attempted: bool)

  /** What the algorithm emitted: leg number `id` is `emitted[id]`. */
  datatype Emission = Emission(row: nat, leg: Leg, date: int)

  /** What the observer is told, in order. */
  datatype Event =
    | Filled(id: nat, row: nat, fill: Fill)
    | Settled(row: nat, fill: Fill)
    | Rejected(id: nat, row: nat, leg: Leg, reason: Reason)
    | EquityPoint(row: nat, time: int, value: real, cash: real)

  /** A parsed option symbol. */
  datatype OptionContract = OptionContract(underlying: Symbol, expiration: int, strike: NonNegative, isCall: bool)

  datatype Position = Position(quantity: real, avgPrice: real, assetType: AssetType)
}
