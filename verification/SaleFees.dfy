/** Cash bounded from the inputs alone: sales that pay for themselves, and nothing to be assigned. */
module SaleFees {
  import opened Common
  import opened Market
  import opened Orders
  import opened EngineSpec
  import opened AccountProofs
  import opened Assignments
  import opened FillProofs
  import opened TimingProofs

  // ---- the fees of one role ----

  /** The fee is charged to a fill of that role. */
  predicate Applies(fee: TradingFee, maker: bool) {
    if maker then fee.maker else fee.taker
  }

  /** The flat fees a fill of that role pays. */
  function FlatOf(fees: seq<TradingFee>, maker: bool): (flat: real)
    ensures flat >= 0.0
  {
    if fees == [] then 0.0
    else FlatOf(fees[..|fees| - 1], maker) + if Applies(fees[|fees| - 1], maker) then fees[|fees| - 1].flat else 0.0
  }

  /** The share of its price times quantity that a fill of that role pays. */
  function PercentOf(fees: seq<TradingFee>, maker: bool): (percent: real)
    ensures percent >= 0.0
  {
    if fees == [] then 0.0
    else PercentOf(fees[..|fees| - 1], maker) + if Applies(fees[|fees| - 1], maker) then fees[|fees| - 1].percent else 0.0
  }

  /** Sales in that role cannot cost more than they bring. */
  predicate PaysFor(fees: seq<TradingFee>, maker: bool) {
    FlatOf(fees, maker) == 0.0 && PercentOf(fees, maker) <= 1.0
  }

  lemma SharesAdd(price: real, quantity: real, a: real, b: real)
    ensures Worth(price, quantity, a + b) == Worth(price, quantity, a) + Worth(price, quantity, b)
    ensures Worth(price, quantity, 0.0) == 0.0
  {
    var worth := price * quantity;
    assert worth * (a + b) == worth * a + worth * b;
  }

  lemma LastFee(fees: seq<TradingFee>, quantity: real, price: real, maker: bool)
    requires fees != []
    ensures var fee := fees[|fees| - 1];
            SumFees(fees, quantity, price, maker)
            == SumFees(fees[..|fees| - 1], quantity, price, maker)
               + if Applies(fee, maker) then fee.flat + Worth(price, quantity, fee.percent) else 0.0
  {
  }

  /** The fees of a fill are affine in its price times quantity. */
  lemma {:induction false} FeesByRole(fees: seq<TradingFee>, quantity: real, price: real, maker: bool)
    ensures SumFees(fees, quantity, price, maker) == FlatOf(fees, maker) + Worth(price, quantity, PercentOf(fees, maker))
  {
    hide Worth, SumFees;
    if fees == [] {
      SharesAdd(price, quantity, 0.0, 0.0);
      NoFees(quantity, price, maker);
    } else {
      var rest, last := fees[..|fees| - 1], fees[|fees| - 1];
      FeesByRole(rest, quantity, price, maker);
      LastFee(fees, quantity, price, maker);
      SharesAdd(price, quantity, PercentOf(rest, maker), last.percent);
    }
  }

  lemma NoFees(quantity: real, price: real, maker: bool)
    ensures SumFees([], quantity, price, maker) == 0.0
  {
  }

  lemma FeesWithinProceeds(fees: seq<TradingFee>, quantity: real, price: real, maker: bool)
    requires quantity >= 0.0 && price >= 0.0 && PaysFor(fees, maker)
    ensures SumFees(fees, quantity, price, maker) <= price * quantity
  {
    hide SumFees;
    FeesByRole(fees, quantity, price, maker);
    ProductNonNegative(price, quantity);
    ProductNonNegative(price * quantity, 1.0 - PercentOf(fees, maker));
  }

  // ---- runs with gentle settings ----

  predicate SaneBar(bar: Bar) {
    0.0 <= bar.open && 0.0 <= bar.low <= bar.high
  }

  /** Non-negative prices in the clock and in every series. */
  ghost predicate SaneMarket(env: Env, clock: seq<Bar>) {
    && (forall k :: 0 <= k < |clock| ==> SaneBar(clock[k]))
    && (forall i, k :: 0 <= i < |env.store| && 0 <= k < |env.store[i].bars| ==> SaneBar(env.store[i].bars[k]))
  }

  /** No cost profile, and slippage that cannot push a sale price below zero. */
  ghost predicate Gentle(env: Env) {
    && env.profile.None?
    && env.slippage.marketBps <= 10000.0 && env.slippage.limitBps <= 10000.0 && env.slippage.volumeImpact == 0.0
    && (env.slippage.useBarRange ==> forall k :: 0.0 <= env.uniform(k) <= 1.0)
  }

  /** The price of a fill is not negative, and its fees are those of its role. */
  predicate FairSale(env: Env, fill: Fill, maker: bool) {
    fill.fillPrice >= 0.0 && fill.fees == SumFees(env.sellFees, fill.quantity, fill.fillPrice, maker)
  }

  lemma MarketSale(env: Env, leg: Leg, bar: Bar, now: int, draws: nat)
    requires Gentle(env) && SaneBar(bar) && SideOf(leg).Sell?
    ensures var a := MarketFill(env, leg, bar, now, draws); a.Executed? ==> FairSale(env, a.fill, false)
  {
    hide SumFees, Slipped, Between, BaseMarketPrice, VolumeImpact, Abs;
    if IsOption(env, leg.symbol) {
      var quote := env.optionQuote(leg.symbol, Sell, now);
      if quote.Some? && quote.value > 0.0 {
        SlippedAgainst(quote.value, env.slippage.marketBps, Sell);
      }
    } else {
      MarketFillPrice(env, leg, bar, now, draws);
      SanePrice(env, leg, bar, draws);
    }
  }

  /** No market price of such a run is negative. */
  lemma SanePrice(env: Env, leg: Leg, bar: Bar, draws: nat)
    requires Gentle(env) && SaneBar(bar)
    ensures MarketPrice(env, leg, bar, draws) >= 0.0
  {
    hide Slipped, Between;
    SlippedAgainst(bar.open, env.slippage.marketBps, SideOf(leg));
    if env.slippage.useBarRange {
      BetweenIsInside(bar.low, bar.high, env.uniform(draws));
    }
  }

  lemma LimitSale(env: Env, leg: Leg, bar: Bar, now: int, draws: nat)
    requires Gentle(env) && SideOf(leg).Sell?
    ensures var a := LimitFill(env, leg, bar, now, draws); a.Executed? ==> FairSale(env, a.fill, true)
  {
    hide SumFees, Slipped, Abs;
    if leg.limitPrice.Some? {
      SlippedAgainst(leg.limitPrice.value, env.slippage.limitBps, Sell);
    }
  }

  lemma SalePays(env: Env, leg: Leg, bar: Bar, now: int, draws: nat)
    requires Gentle(env) && PaysFor(env.sellFees, true) && PaysFor(env.sellFees, false) && SaneBar(bar) && SideOf(leg).Sell?
    ensures var a := Simulated(env, leg, bar, now, draws);
            a.Executed? && a.fill.quantity >= 0.0 ==> a.fill.fillPrice >= 0.0 && a.fill.fees <= a.fill.fillPrice * a.fill.quantity
  {
    hide MarketFill, LimitFill, SumFees, Gentle, PaysFor, SaneBar;
    var a := Simulated(env, leg, bar, now, draws);
    var maker := leg.orderType.LimitOrder?;
    if maker {
      LimitSale(env, leg, bar, now, draws);
    } else {
      MarketSale(env, FillingLeg(leg), bar, now, draws);
    }
    if a.Executed? && a.fill.quantity >= 0.0 {
      FeesWithinProceeds(env.sellFees, a.fill.quantity, a.fill.fillPrice, maker);
    }
  }

  lemma FillBarIsSane(env: Env, symbol: Symbol, bar: Bar)
    requires SaneBar(bar)
    requires forall i, k :: 0 <= i < |env.store| && 0 <= k < |env.store[i].bars| ==> SaneBar(env.store[i].bars[k])
    ensures SaneBar(FillBar(env, symbol, bar))
  {
    if SeriesFor(env.store, symbol, env.resolve).Some? {
      SeriesForIsFirst(env.store, symbol, env.resolve);
    }
  }

  lemma WithinNotional(env: Env, fill: Fill)
    requires fill.fillPrice >= 0.0 && fill.quantity >= 0.0 && fill.fees <= fill.fillPrice * fill.quantity
    ensures fill.fees <= Notional(env, fill)
  {
    ProductNonNegative(fill.fillPrice, fill.quantity);
  }

  /** With sale fees that pay for themselves in both roles no sale of a run costs more than it brings. */
  lemma {:induction false} SaleWithinProceeds(env: Env, cash0: real, cancelled: bool, clock: seq<Bar>, n: nat, e: Event)
    requires SaneMarket(env, clock) && Gentle(env) && n <= |clock|
    requires PaysFor(env.sellFees, true) && PaysFor(env.sellFees, false)
    ensures FillOf(Rows(env, Start(cash0, cancelled), clock, n), e) && e.fill.side.Sell? ==> e.fill.fees <= Notional(env, e.fill)
  {
    hide Step, Simulated, FillBar, Gentle, PaysFor, SaneBar, Notional;
    FillTiming(env, cash0, cancelled, clock, n, e);
    FillsAreSimulated(env, cash0, cancelled, clock, n, e);
    var st := Rows(env, Start(cash0, cancelled), clock, n);
    if FillOf(st, e) && e.fill.side.Sell? {
      var leg := st.emitted[e.id].leg;
      var draws: nat :| PricedBy(env, leg, clock[e.row], e.fill, draws);
      FillBarIsSane(env, leg.symbol, clock[e.row]);
      SalePays(env, leg, FillBar(env, leg.symbol, clock[e.row]), clock[e.row].time + env.duration, draws);
      WithinNotional(env, e.fill);
    }
  }

  // ---- strict cash, from the inputs ----

  lemma {:induction false} NothingUnchecked(env: Env, log: seq<Event>)
    requires forall e :: e in log ==> Unchecked(env, e) == 0.0
    ensures UncheckedTotal(env, log) == 0.0
  {
    if log != [] {
      NothingUnchecked(env, log[..|log| - 1]);
      assert log[|log| - 1] in log;
    }
  }

  /** Sales that pay for themselves and nothing assignable leave cash strict. */
  lemma {:induction false} StrictWhenPaid(env: Env, cash0: real, cancelled: bool, clock: seq<Bar>, n: nat)
    requires NothingAssignable(env, clock) && n <= |clock| && cash0 >= 0.0
    requires forall e :: FillOf(Rows(env, Start(cash0, cancelled), clock, n), e) && e.fill.side.Sell? ==> e.fill.fees <= Notional(env, e.fill)
    ensures Rows(env, Start(cash0, cancelled), clock, n).cash >= -CASH_SLACK
  {
    hide Step, Notional, Assignable;
    StrictCash(env, cash0, cancelled, clock, n);
    var st := Rows(env, Start(cash0, cancelled), clock, n);
    forall e | e in st.log ensures Unchecked(env, e) == 0.0 {
      DrawsAreAssignable(env, cash0, cancelled, clock, n, e);
      assert e.Filled? ==> FillOf(st, e);
    }
    NothingUnchecked(env, st.log);
  }

  /**
   Strict cash, from the inputs. With non-negative prices, sell fees that pay for themselves in both
   roles, and no short that can be assigned at a cost, cash never falls below -0.000001, whatever the
   algorithm does.
   */
  lemma {:induction false} StrictCashFromInputs(env: Env, cash0: real, cancelled: bool, clock: seq<Bar>, n: nat)
    requires SaneMarket(env, clock) && Gentle(env) && NothingAssignable(env, clock)
    requires PaysFor(env.sellFees, true) && PaysFor(env.sellFees, false)
    requires n <= |clock| && cash0 >= 0.0
    ensures Rows(env, Start(cash0, cancelled), clock, n).cash >= -CASH_SLACK
  {
    hide Step, Notional, SaneMarket, Gentle, NothingAssignable;
    forall e | FillOf(Rows(env, Start(cash0, cancelled), clock, n), e) && e.fill.side.Sell?
      ensures e.fill.fees <= Notional(env, e.fill)
    {
      SaleWithinProceeds(env, cash0, cancelled, clock, n, e);
    }
    StrictWhenPaid(env, cash0, cancelled, clock, n);
  }
}
