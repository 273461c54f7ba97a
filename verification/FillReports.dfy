/** Every number that a fill reports. */
module FillReports {
  import opened Common
  import opened Market
  import opened Orders
  import opened EngineSpec
  import opened TimingProofs
  import opened SaleFees

  /** `price` is `from` moved against the side by so many basis points. */
  predicate MovedBy(price: real, from: real, bps: real, side: Side) {
    10000.0 * price == from * (if side.Buy? then 10000.0 + bps else 10000.0 - bps)
  }

  /** `price` is `before` moved against the side by `impact` basis points for each percent of the bar's volume. */
  predicate ImpactedBy(price: real, before: real, own: Bar, quantity: real, impact: real, side: Side) {
    if impact > 0.0 && own.volume > 0.0
    then 100.0 * own.volume * (price - before) == own.open * quantity * impact * (if side.Buy? then 1.0 else -1.0)
    else price == before
  }

  /** The price of a market fill, from its bar: inside it when sampled, else at the open moved by slippage; then moved by volume. */
  ghost predicate IsMarketPrice(env: Env, slippage: SlippageModel, own: Bar, quantity: real, side: Side, draws: nat, price: real) {
    exists before ::
      && (if slippage.useBarRange then before - own.low == env.uniform(draws) * (own.high - own.low)
          else MovedBy(before, own.open, slippage.marketBps, side))
      && ImpactedBy(price, before, own, quantity, slippage.volumeImpact, side)
  }

  /** The fees of a fill: what its role pays flat, and on its price times quantity. */
  predicate IsFee(fees: seq<TradingFee>, fill: Fill, maker: bool) {
    fill.fees == FlatOf(fees, maker) + fill.fillPrice * fill.quantity * PercentOf(fees, maker)
  }

  predicate IsSlippage(fill: Fill) {
    var worse := fill.fillPrice - fill.requestedPrice;
    fill.slippageDollars == (if worse >= 0.0 then worse else -worse) * fill.quantity
  }

  /** The terms of a leg: a cost profile's own for it, else the run's slippage and the fees of its side. */
  function Terms(env: Env, leg: Leg): CostBundle {
    if env.profile.Some? then env.profile.value(leg)
    else CostBundle(env.slippage, if SideOf(leg) == Sell then env.sellFees else env.buyFees)
  }

  /** What the fill of a market leg reports. */
  ghost predicate MarketReport(env: Env, leg: Leg, own: Bar, now: int, draws: nat, fill: Fill) {
    var costs, side := Terms(env, leg), SideOf(leg);
    && fill.time == own.time && IsFee(costs.fees, fill, false)
    && if IsOption(env, leg.symbol) then
         var quote := env.optionQuote(leg.symbol, side, now);
         && fill.assetType == Options && quote.Some? && MovedBy(fill.fillPrice, quote.value, costs.slippage.marketBps, side)
         && fill.requestedPrice == fill.fillPrice && fill.slippageDollars == 0.0
       else
         && fill.assetType == leg.assetType && IsMarketPrice(env, costs.slippage, own, leg.quantity, side, draws, fill.fillPrice)
         && fill.requestedPrice == own.open && IsSlippage(fill)
  }

  /** What the fill of a limit leg reports. */
  predicate LimitReport(env: Env, leg: Leg, own: Bar, now: int, fill: Fill) {
    var costs, side := Terms(env, leg), SideOf(leg);
    && fill.time == own.time && IsFee(costs.fees, fill, true) && leg.limitPrice == Some(fill.requestedPrice)
    && if IsOption(env, leg.symbol)
       then fill.assetType == Options && env.optionQuote(leg.symbol, side, now) == Some(fill.fillPrice) && fill.slippageDollars == 0.0
       else fill.assetType == leg.assetType && MovedBy(fill.fillPrice, fill.requestedPrice, costs.slippage.limitBps, side) && IsSlippage(fill)
  }

  // ---- arithmetic ----

  lemma SlippedMoves(price: real, bps: real, side: Side)
    ensures MovedBy(Slipped(price, bps, side), price, bps, side)
    ensures bps == 0.0 ==> Slipped(price, bps, side) == price
  {
    var share := bps / 10000.0;
    assert price * bps == price * share * 10000.0;
  }

  lemma ImpactMoves(own: Bar, leg: Leg, slippage: SlippageModel, before: real)
    ensures ImpactedBy(before + VolumeImpact(own, leg, slippage), before, own, leg.quantity, slippage.volumeImpact, SideOf(leg))
  {
    if slippage.volumeImpact > 0.0 && own.volume > 0.0 {
      var share := leg.quantity / own.volume;
      assert share * own.volume == leg.quantity;
      var extra := share * slippage.volumeImpact;
      assert extra * own.volume == leg.quantity * slippage.volumeImpact by { Regroup(share, slippage.volumeImpact, own.volume); }
      assert share * 100.0 * slippage.volumeImpact / 10000.0 == extra / 100.0;
      ImpactWorth(own.open, extra, own.volume, leg.quantity * slippage.volumeImpact);
    }
  }

  lemma Regroup(a: real, b: real, c: real)
    ensures a * b * c == a * c * b
  {
  }

  lemma ImpactWorth(open: real, extra: real, volume: real, total: real)
    requires extra * volume == total
    ensures 100.0 * volume * (open * (extra / 100.0)) == open * total
  {
    var h := extra / 100.0;
    assert h * volume * 100.0 == total;
    assert open * h * volume == open * (h * volume);
  }

  lemma FeeOf(fees: seq<TradingFee>, fill: Fill, maker: bool)
    ensures fill.fees == SumFees(fees, fill.quantity, fill.fillPrice, maker) ==> IsFee(fees, fill, maker)
  {
    FeesByRole(fees, fill.quantity, fill.fillPrice, maker);
  }

  // ---- one attempt ----

  lemma MarketFillReports(env: Env, leg: Leg, own: Bar, now: int, draws: nat)
    ensures var a := MarketFill(env, leg, own, now, draws); a.Executed? ==> MarketReport(env, leg, own, now, draws, a.fill)
  {
    hide SumFees, Slipped, VolumeImpact, IsFee, MovedBy, ImpactedBy;
    var a := MarketFill(env, leg, own, now, draws);
    var costs, side := CostsFor(env, leg), SideOf(leg);
    if a.Executed? {
      FeeOf(costs.fees, a.fill, false);
      if IsOption(env, leg.symbol) {
        SlippedMoves(env.optionQuote(leg.symbol, side, now).value, costs.slippage.marketBps, side);
      } else {
        var before := BaseMarketPrice(env, own, side, costs.slippage, draws);
        SlippedMoves(own.open, costs.slippage.marketBps, side);
        ImpactMoves(own, leg, costs.slippage, before);
        BetweenShare(own.low, own.high, env.uniform(draws));
        assert IsMarketPrice(env, costs.slippage, own, leg.quantity, side, draws, a.fill.fillPrice);
      }
    }
  }

  lemma BetweenShare(low: real, high: real, u: real)
    ensures Between(low, high, u) - low == u * (high - low)
  {
  }

  lemma LimitFillReports(env: Env, leg: Leg, own: Bar, now: int, draws: nat)
    ensures var a := LimitFill(env, leg, own, now, draws); a.Executed? ==> LimitReport(env, leg, own, now, a.fill)
  {
    hide SumFees, Slipped, IsFee, MovedBy;
    var a := LimitFill(env, leg, own, now, draws);
    var costs, side := CostsFor(env, leg), SideOf(leg);
    if a.Executed? {
      FeeOf(costs.fees, a.fill, true);
      SlippedMoves(leg.limitPrice.value, costs.slippage.limitBps, side);
    }
  }

  // ---- in every run ----

  /** What the fill of an emitted leg reports: a limit leg by its limit, every other at market. */
  ghost predicate Reports(env: Env, leg: Leg, row: Bar, draws: nat, fill: Fill) {
    var own, now := FillBar(env, leg.symbol, row), row.time + env.duration;
    && (fill.side == Sell <==> leg.signalType == SellSignal || leg.signalType == SellShort)
    && if leg.orderType.LimitOrder? then LimitReport(env, leg, own, now, fill)
       else MarketReport(env, FillingLeg(leg), own, now, draws, fill)
  }

  /** The profit that a fill realizes is no part of its price. */
  lemma FeeWhateverGained(fees: seq<TradingFee>, fill: Fill, maker: bool)
    requires IsFee(fees, fill.(realizedPnl := None), maker)
    ensures IsFee(fees, fill, maker)
  {
  }

  lemma SlippageWhateverGained(fill: Fill)
    requires IsSlippage(fill.(realizedPnl := None))
    ensures IsSlippage(fill)
  {
  }

  lemma ReportWhateverGained(env: Env, leg: Leg, row: Bar, draws: nat, fill: Fill)
    requires Reports(env, leg, row, draws, fill.(realizedPnl := None))
    ensures Reports(env, leg, row, draws, fill)
  {
    hide IsFee, IsSlippage, IsMarketPrice, MovedBy, FillBar;
    var booked := fill.(realizedPnl := None);
    var costs, maker := Terms(env, if leg.orderType.LimitOrder? then leg else FillingLeg(leg)), leg.orderType.LimitOrder?;
    FeeWhateverGained(costs.fees, fill, maker);
    if !IsOption(env, leg.symbol) {
      SlippageWhateverGained(fill);
    }
  }

  lemma SimulatedSide(env: Env, leg: Leg, bar: Bar, now: int, draws: nat)
    ensures var a := Simulated(env, leg, bar, now, draws); a.Executed? ==> a.fill.side == SideOf(leg)
  {
    hide SumFees, Slipped, BaseMarketPrice, VolumeImpact, Abs, SlippedLimit;
  }

  lemma PricedReports(env: Env, leg: Leg, row: Bar, draws: nat, fill: Fill)
    requires PricedBy(env, leg, row, fill, draws)
    ensures Reports(env, leg, row, draws, fill)
  {
    hide MarketFill, LimitFill, FillBar, MarketReport, LimitReport;
    var own, now := FillBar(env, leg.symbol, row), row.time + env.duration;
    SimulatedSide(env, leg, own, now, draws);
    LimitFillReports(env, leg, own, now, draws);
    MarketFillReports(env, FillingLeg(leg), own, now, draws);
    ReportWhateverGained(env, leg, row, draws, fill);
  }

  /**
   What every fill of a run reports: its bar's stamp, the requested price, the price it got after
   slippage and volume, what that cost against the request, and the fees of its role.
   */
  lemma {:induction false} FillsAreReported(env: Env, cash0: real, cancelled: bool, clock: seq<Bar>, n: nat, e: Event)
    requires n <= |clock|
    ensures var st := Rows(env, Start(cash0, cancelled), clock, n);
            FillOf(st, e) ==>
            && e.id < |st.emitted| && e.row < |clock|
            && exists draws: nat :: Reports(env, st.emitted[e.id].leg, clock[e.row], draws, e.fill)
  {
    hide Step, Reports, Simulated;
    FillsAreSimulated(env, cash0, cancelled, clock, n, e);
    var st := Rows(env, Start(cash0, cancelled), clock, n);
    if FillOf(st, e) {
      var draws: nat :| PricedBy(env, st.emitted[e.id].leg, clock[e.row], e.fill, draws);
      PricedReports(env, st.emitted[e.id].leg, clock[e.row], draws, e.fill);
    }
  }
}
