/** What a simulated fill promises about its price. */
module FillProofs {
  import opened Common
  import opened Market
  import opened Orders
  import opened EngineSpec
  import opened TimingProofs

  /** Strict cross: the bar traded beyond the limit, not merely at it. */
  predicate StrictlyCrosses(side: Side, bar: Bar, limit: real) {
    if side.Buy? then bar.low < limit else bar.high > limit
  }

  /** A price no worse for the order's side than `bound`. */
  predicate NoWorse(side: Side, price: real, bound: real) {
    if side.Buy? then price <= bound else price >= bound
  }

  // ---- prices ----

  lemma ProductNonNegative(a: real, b: real)
    requires a >= 0.0 && b >= 0.0
    ensures a * b >= 0.0
  {
  }

  /** Slippage moves a non-negative price against the order, and at most 100% of it leaves it non-negative. */
  lemma SlippedAgainst(price: real, bps: real, side: Side)
    requires price >= 0.0 && bps >= 0.0
    ensures NoWorse(side, price, Slipped(price, bps, side))
    ensures bps == 0.0 ==> Slipped(price, bps, side) == price
    ensures bps <= 10000.0 ==> Slipped(price, bps, side) >= 0.0
  {
    var share := bps / 10000.0;
    ProductNonNegative(price, share);
    if bps <= 10000.0 {
      ProductNonNegative(price, 1.0 - share);
      assert price * (1.0 - share) == price - price * share;
    }
  }

  /** A positive limit is kept exactly when the limit slippage is zero. */
  lemma SlippedIsWorse(limit: real, bps: real, side: Side)
    requires limit > 0.0 && bps >= 0.0
    ensures NoWorse(side, SlippedLimit(limit, bps, side), limit) <==> bps == 0.0
  {
    if bps > 0.0 {
      var share := bps / 10000.0;
      assert share > 0.0;
      assert limit * share > 0.0;
    }
  }

  lemma BetweenIsInside(low: real, high: real, u: real)
    requires low <= high && 0.0 <= u <= 1.0
    ensures low <= Between(low, high, u) <= high
  {
    ProductNonNegative(high - low, u);
    ProductNonNegative(high - low, 1.0 - u);
    assert (high - low) * (1.0 - u) == (high - low) - (high - low) * u;
  }

  /** Volume impact never favours the order. */
  lemma ImpactAgainst(bar: Bar, leg: Leg, slippage: SlippageModel)
    requires bar.open >= 0.0
    ensures if SideOf(leg).Buy? then VolumeImpact(bar, leg, slippage) >= 0.0 else VolumeImpact(bar, leg, slippage) <= 0.0
  {
    if slippage.volumeImpact > 0.0 && bar.volume > 0.0 {
      var share := leg.quantity / bar.volume;
      assert share > 0.0;
      ProductNonNegative(share * 100.0, slippage.volumeImpact);
      ProductNonNegative(bar.open, share * 100.0 * slippage.volumeImpact / 10000.0);
    }
  }

  /** The market price of a leg against a bar, at this point of the random stream. */
  function MarketPrice(env: Env, leg: Leg, bar: Bar, draws: nat): real {
    var slippage := CostsFor(env, leg).slippage;
    BaseMarketPrice(env, bar, SideOf(leg), slippage, draws) + VolumeImpact(bar, leg, slippage)
  }

  /** Anything but an option fills at market unconditionally, at the market price. */
  lemma MarketFillPrice(env: Env, leg: Leg, bar: Bar, now: int, draws: nat)
    requires !IsOption(env, leg.symbol)
    ensures var a := MarketFill(env, leg, bar, now, draws);
            && a.Executed? && a.fill.fillPrice == MarketPrice(env, leg, bar, draws)
            && a.fill.fees == SumFees(CostsFor(env, leg).fees, leg.quantity, a.fill.fillPrice, false)
            && a.draws == if CostsFor(env, leg).slippage.useBarRange then draws + 1 else draws
  {
    hide SumFees, BaseMarketPrice, VolumeImpact, Abs, OptionMarketFill;
  }

  /**
   A limit order on anything but an option fills exactly on a strict cross, and then never worse
   than its limit exactly when the limit slippage is zero.
   */
  lemma LimitOrderFills(env: Env, po: PendingOrder, bar: Bar, now: int, draws: nat)
    requires po.leg.orderType.LimitOrder? && !po.stopTriggered && po.leg.limitPrice.Some? && !IsOption(env, po.leg.symbol)
    ensures var a := TryFill(env, po, bar, now, draws);
            && (a.Executed? <==> StrictlyCrosses(SideOf(po.leg), bar, po.leg.limitPrice.value))
            && (a.Executed? ==> (NoWorse(SideOf(po.leg), a.fill.fillPrice, po.leg.limitPrice.value)
                                 <==> CostsFor(env, po.leg).slippage.limitBps == 0.0))
            && (a.Executed? && CostsFor(env, po.leg).slippage.limitBps == 0.0 ==> a.fill.fillPrice == po.leg.limitPrice.value)
  {
    hide SumFees, Slipped, Abs;
    SlippedIsWorse(po.leg.limitPrice.value, CostsFor(env, po.leg).slippage.limitBps, SideOf(po.leg));
  }

  /** Without bar-range sampling, slippage and volume impact only ever worsen a market fill. */
  lemma MarketOrderNeverBeatsOpen(env: Env, leg: Leg, bar: Bar, now: int, draws: nat)
    requires !IsOption(env, leg.symbol) && bar.open >= 0.0 && !CostsFor(env, leg).slippage.useBarRange
    ensures MarketFill(env, leg, bar, now, draws).Executed?
    ensures NoWorse(SideOf(leg), bar.open, MarketFill(env, leg, bar, now, draws).fill.fillPrice)
  {
    hide MarketFill, Slipped, VolumeImpact;
    MarketFillPrice(env, leg, bar, now, draws);
    SlippedAgainst(bar.open, CostsFor(env, leg).slippage.marketBps, SideOf(leg));
    ImpactAgainst(bar, leg, CostsFor(env, leg).slippage);
  }

  /** Sampling inside the bar: a draw from [0, 1] gives a price the bar traded at, before volume impact. */
  lemma BarRangeFillIsInsideBar(env: Env, leg: Leg, bar: Bar, now: int, draws: nat)
    requires !IsOption(env, leg.symbol) && bar.low <= bar.high && 0.0 <= env.uniform(draws) <= 1.0
    requires var s := CostsFor(env, leg).slippage; s.useBarRange && s.volumeImpact == 0.0
    ensures var a := MarketFill(env, leg, bar, now, draws);
            a.Executed? && bar.low <= a.fill.fillPrice <= bar.high && a.draws == draws + 1
  {
    hide MarketFill, Between, Slipped;
    MarketFillPrice(env, leg, bar, now, draws);
    BetweenIsInside(bar.low, bar.high, env.uniform(draws));
  }

  /** Fees charged to takers only never reach a limit fill, and fees charged to makers only never a market fill. */
  lemma {:induction false} FeesFollowRole(fees: seq<TradingFee>, quantity: real, price: real)
    ensures (forall f :: f in fees ==> !f.maker) ==> SumFees(fees, quantity, price, true) == 0.0
    ensures (forall f :: f in fees ==> !f.taker) ==> SumFees(fees, quantity, price, false) == 0.0
    ensures (forall f :: f in fees ==> f.maker != f.taker) ==>
              SumFees(fees, quantity, price, true) + SumFees(fees, quantity, price, false) == AllFees(fees, quantity, price)
  {
    if fees != [] {
      var rest, last := fees[..|fees| - 1], fees[|fees| - 1];
      FeesFollowRole(rest, quantity, price);
      AllFeesSnoc(fees, quantity, price);
      assert last in fees && forall f :: f in rest ==> f in fees;
    }
  }

  /** Every fee's flat part and share of the notional, whoever pays it. */
  function AllFees(fees: seq<TradingFee>, quantity: real, price: real): real {
    if fees == [] then 0.0
    else AllFees(fees[1..], quantity, price) + fees[0].flat + fees[0].percent * (price * quantity)
  }

  lemma {:induction false} AllFeesSnoc(fees: seq<TradingFee>, quantity: real, price: real)
    requires fees != []
    ensures var last := fees[|fees| - 1];
            AllFees(fees, quantity, price) == AllFees(fees[..|fees| - 1], quantity, price) + last.flat + last.percent * (price * quantity)
  {
    if |fees| > 1 {
      assert fees[1..][..|fees| - 2] == fees[..|fees| - 1][1..];
      AllFeesSnoc(fees[1..], quantity, price);
    }
  }

  // ---- fills of whole runs ----

  /**
   Every limit fill of a run crossed its limit and is no worse than it, except by configured limit
   slippage: a non-option fill is no worse exactly when that slippage is zero, and an option fills at
   a quote no worse than its limit.
   */
  lemma {:induction false} LimitFillsOfRuns(env: Env, cash0: real, cancelled: bool, clock: seq<Bar>, n: nat, e: Event)
    requires n <= |clock|
    ensures var st := Rows(env, Start(cash0, cancelled), clock, n);
            FillOf(st, e) ==>
            && e.id < |st.emitted| && e.row < |clock|
            && var leg := st.emitted[e.id].leg;
            leg.orderType.LimitOrder? ==>
              && leg.limitPrice.Some?
              && (if IsOption(env, leg.symbol)
                  then Some(e.fill.fillPrice) == env.optionQuote(leg.symbol, SideOf(leg), clock[e.row].time + env.duration)
                       && NoWorse(SideOf(leg), e.fill.fillPrice, leg.limitPrice.value)
                  else StrictlyCrosses(SideOf(leg), FillBar(env, leg.symbol, clock[e.row]), leg.limitPrice.value)
                       && (NoWorse(SideOf(leg), e.fill.fillPrice, leg.limitPrice.value)
                           <==> CostsFor(env, leg).slippage.limitBps == 0.0))
  {
    hide Step;
    FillsAreSimulated(env, cash0, cancelled, clock, n, e);
    var st := Rows(env, Start(cash0, cancelled), clock, n);
    if FillOf(st, e) && st.emitted[e.id].leg.orderType.LimitOrder? {
      var leg := st.emitted[e.id].leg;
      var draws: nat :| PricedBy(env, leg, clock[e.row], e.fill, draws);
      LimitFillPrice(env, leg, FillBar(env, leg.symbol, clock[e.row]), clock[e.row].time + env.duration, draws);
    }
  }

  lemma LimitFillPrice(env: Env, leg: Leg, bar: Bar, now: int, draws: nat)
    requires LimitFill(env, leg, bar, now, draws).Executed?
    ensures leg.limitPrice.Some?
    ensures var fill, limit := LimitFill(env, leg, bar, now, draws).fill, leg.limitPrice.value;
            if IsOption(env, leg.symbol)
            then Some(fill.fillPrice) == env.optionQuote(leg.symbol, SideOf(leg), now) && NoWorse(SideOf(leg), fill.fillPrice, limit)
            else StrictlyCrosses(SideOf(leg), bar, limit)
                 && (NoWorse(SideOf(leg), fill.fillPrice, limit) <==> CostsFor(env, leg).slippage.limitBps == 0.0)
  {
    hide SumFees, Slipped, Abs;
    if !IsOption(env, leg.symbol) {
      SlippedIsWorse(leg.limitPrice.value, CostsFor(env, leg).slippage.limitBps, SideOf(leg));
    }
  }

  /** Neither bar-range sampling nor any kind of slippage on market fills. */
  predicate Frictionless(slippage: SlippageModel) {
    !slippage.useBarRange && slippage.marketBps == 0.0 && slippage.volumeImpact == 0.0
  }

  /**
   Stops of a run, STOP_LIMIT included, always fill at the market price of the bar their symbol
   resolves to, whatever the slippage model, and never look at their limit. Without friction that is
   the bar's open, so the limit is honoured exactly when the open is no worse.
   */
  lemma {:induction false} StopsOfRunsFillAtMarket(env: Env, cash0: real, cancelled: bool, clock: seq<Bar>, n: nat, e: Event)
    requires n <= |clock|
    ensures var st := Rows(env, Start(cash0, cancelled), clock, n);
            FillOf(st, e) ==>
            && e.id < |st.emitted| && e.row < |clock|
            && var leg := st.emitted[e.id].leg;
            var bar := FillBar(env, leg.symbol, clock[e.row]);
            IsStop(leg) && !IsOption(env, leg.symbol) ==>
              && (exists draws: nat :: e.fill.fillPrice == MarketPrice(env, AfterTrigger(leg), bar, draws))
              && (leg.limitPrice.Some? && Frictionless(CostsFor(env, AfterTrigger(leg)).slippage) ==>
                    (NoWorse(SideOf(leg), e.fill.fillPrice, leg.limitPrice.value)
                     <==> NoWorse(SideOf(leg), bar.open, leg.limitPrice.value)))
  {
    hide Step, FillBar, SumFees, MarketFill, MarketPrice;
    FillsAreSimulated(env, cash0, cancelled, clock, n, e);
    var st := Rows(env, Start(cash0, cancelled), clock, n);
    if FillOf(st, e) && IsStop(st.emitted[e.id].leg) && !IsOption(env, st.emitted[e.id].leg.symbol) {
      var leg := st.emitted[e.id].leg;
      var bar := FillBar(env, leg.symbol, clock[e.row]);
      var draws: nat :| PricedBy(env, leg, clock[e.row], e.fill, draws);
      MarketFillPrice(env, AfterTrigger(leg), bar, clock[e.row].time + env.duration, draws);
      assert e.fill.fillPrice == MarketPrice(env, AfterTrigger(leg), bar, draws);
      FrictionlessIsOpen(env, AfterTrigger(leg), bar, draws);
    }
  }

  lemma FrictionlessIsOpen(env: Env, leg: Leg, bar: Bar, draws: nat)
    ensures Frictionless(CostsFor(env, leg).slippage) ==> MarketPrice(env, leg, bar, draws) == bar.open
  {
    assert Slipped(bar.open, 0.0, SideOf(leg)) == bar.open;
  }
}
