/** Runs that sell at a loss, and the exact condition on the sell fees under which none can. */
module CashRuns {
  import opened Common
  import opened OrderedDict
  import opened Market
  import opened Orders
  import opened EngineSpec
  import opened TimingProofs
  import opened FillProofs
  import opened Assignments
  import opened SaleFees
  import opened SampleRuns

  // ---- shares bought together and sold one by one ----

  function BuyLeg(symbol: Symbol, quantity: Positive): Leg {
    Leg(symbol, BuySignal, quantity, Equities, MarketOrder, None, None, Day)
  }

  /** One share sold at market, or by a limit order as a maker. */
  function SaleLeg(symbol: Symbol, price: Positive, maker: bool): Leg {
    Leg(symbol, SellSignal, 1.0, Equities, if maker then LimitOrder else MarketOrder, if maker then Some(price) else None, None, Day)
  }

  function RoundTrip(symbol: Symbol, price: Positive, maker: bool, n: nat): (legs: seq<Leg>)
    requires n > 0
    ensures |legs| == n + 1
  {
    [BuyLeg(symbol, n as real)] + seq(n, i => SaleLeg(symbol, price, maker))
  }

  function SaleFill(fees: seq<TradingFee>, symbol: Symbol, price: Positive, maker: bool, bar: Bar): Fill {
    Fill(bar.time, symbol, Equities, Sell, 1.0, price, price, 0.0, SumFees(fees, 1.0, price, maker), None)
  }

  /** What the sale of one share brings, net of its fees. */
  function NetOfSale(fees: seq<TradingFee>, price: Positive, maker: bool): real {
    price - SumFees(fees, 1.0, price, maker)
  }

  function Shares(symbol: Symbol, left: nat, price: real): Positions {
    if left == 0 then [] else [Entry(symbol, Position(left as real, price, Equities))]
  }

  lemma SaleTried(fees: seq<TradingFee>, legs: seq<Leg>, symbol: Symbol, price: Positive, maker: bool, po: PendingOrder,
                  bar: Bar, draws: nat)
    requires po.leg == SaleLeg(symbol, price, maker) && !po.stopTriggered && bar.open == price < bar.high
    ensures TryFillAt(OneSignal([], 60, fees, legs), po, bar, draws) == Executed(SaleFill(fees, symbol, price, maker, bar), draws)
  {
    hide SumFees;
    assert price - price == 0.0 && 0.0 * 1.0 == 0.0;
    FillsAtOpen([], 60, fees, legs, po.leg, bar, bar.time + 60, draws);
  }

  lemma SharesBought(env: Env, st: State, id: nat, n: nat, price: Positive, fill: Fill)
    requires !IsOption(env, fill.symbol) && st.cash == n as real * price && st.positions == [] && n > 0
    requires fill.side.Buy? && fill.quantity == n as real && fill.fillPrice == price && fill.fees == 0.0 && fill.assetType == Equities
    ensures Refusal(env, st.cash, st.positions, fill).None?
    ensures var after := ApplyFill(env, st, id, 1, fill);
            after.cash == 0.0 && after.positions == Shares(fill.symbol, n, price) && after.draws == st.draws
  {
  }

  lemma ShareSold(env: Env, st: State, id: nat, left: nat, price: Positive, fill: Fill)
    requires !IsOption(env, fill.symbol) && left > 0 && st.positions == Shares(fill.symbol, left, price)
    requires fill.side.Sell? && fill.quantity == 1.0 && fill.fillPrice == price
    ensures Refusal(env, st.cash, st.positions, fill).None?
    ensures var after := ApplyFill(env, st, id, 1, fill);
            && after.cash == st.cash + price - fill.fees && after.draws == st.draws
            && after.positions == Shares(fill.symbol, left - 1, price)
  {
    hide Worth;
    assert Worth(price, 1.0, 1.0) == price by { OneShare(price); }
  }

  lemma OneShare(price: real)
    ensures Worth(price, 1.0, 1.0) == price
  {
  }

  /** The queue of the second row: the purchase, then one order a share. */
  ghost predicate RoundTripQueued(orders: seq<PendingOrder>, symbol: Symbol, price: Positive, maker: bool, n: nat, date: int)
    requires n > 0
  {
    |orders| == n + 1 && forall i :: 0 <= i <= n ==>
      orders[i] == PendingOrder(i, RoundTrip(symbol, price, maker, n)[i], 1, false, date, false)
  }

  lemma PurchaseAttempted(fees: seq<TradingFee>, legs: seq<Leg>, symbol: Symbol, price: Positive, n: nat,
                          po: PendingOrder, st: State, bar: Bar)
    requires n > 0 && po.leg == BuyLeg(symbol, n as real) && !po.stopTriggered && !po.attempted && po.scheduledFor == 1
    requires bar.open == price && st.cash == n as real * price && st.positions == []
    ensures var after := AttemptOrder(OneSignal([], 60, fees, legs), st, po, 1, bar);
            after.cash == 0.0 && after.positions == Shares(symbol, n, price)
  {
    hide Refusal, ApplyFill, MarketFill, SumFees;
    var env := OneSignal([], 60, fees, legs);
    FillsAtOpen([], 60, fees, legs, po.leg, bar, bar.time + 60, st.draws);
    NoFees(n as real, price, false);
    SharesBought(env, st, po.id, n, price, OpenFill(env, po.leg, bar));
    NoSeries(env, symbol, bar);
    assert AttemptOrder(env, st, po, 1, bar) == ApplyFill(env, st, po.id, 1, OpenFill(env, po.leg, bar));
  }

  /** Without data every order meets the clock row. */
  lemma NoSeries(env: Env, symbol: Symbol, bar: Bar)
    requires env.store == []
    ensures FillBar(env, symbol, bar) == bar
  {
  }

  lemma SaleAttempted(fees: seq<TradingFee>, legs: seq<Leg>, symbol: Symbol, price: Positive, maker: bool, left: nat,
                      po: PendingOrder, st: State, bar: Bar)
    requires po.leg == SaleLeg(symbol, price, maker) && !po.stopTriggered && !po.attempted && po.scheduledFor == 1
    requires bar.open == price < bar.high && left > 0 && st.positions == Shares(symbol, left, price)
    ensures var after := AttemptOrder(OneSignal([], 60, fees, legs), st, po, 1, bar);
            after.cash == st.cash + NetOfSale(fees, price, maker) && after.positions == Shares(symbol, left - 1, price)
  {
    hide Refusal, ApplyFill, TryFillAt, SumFees;
    var env, fill := OneSignal([], 60, fees, legs), SaleFill(fees, symbol, price, maker, bar);
    SaleTried(fees, legs, symbol, price, maker, po.(attempted := true), bar, st.draws);
    ShareSold(env, st, po.id, left, price, fill);
    assert AttemptOrder(env, st, po, 1, bar) == ApplyFill(env, st, po.id, 1, fill);
  }

  /** After the purchase and `j` sales. */
  lemma {:induction false} SharesGo(fees: seq<TradingFee>, symbol: Symbol, price: Positive, maker: bool, n: nat, j: nat,
                                    orders: seq<PendingOrder>, date: int, st: State, bar: Bar)
    requires n > 0 && j <= n && RoundTripQueued(orders, symbol, price, maker, n, date)
    requires bar.open == price < bar.high && st.cash == n as real * price && st.positions == []
    ensures var env := OneSignal([], 60, fees, RoundTrip(symbol, price, maker, n));
            var after := AttemptAll(env, st, orders[..j + 1], 1, bar);
            after.cash == j as real * NetOfSale(fees, price, maker) && after.positions == Shares(symbol, n - j, price)
  {
    hide AttemptOrder, Shares, NetOfSale;
    var legs := RoundTrip(symbol, price, maker, n);
    var env := OneSignal([], 60, fees, legs);
    if j == 0 {
      AttemptedOne(env, st, orders[0], 1, bar);
      assert orders[..1] == [orders[0]];
      PurchaseAttempted(fees, legs, symbol, price, n, orders[0], st, bar);
    } else {
      SharesGo(fees, symbol, price, maker, n, j - 1, orders, date, st, bar);
      assert orders[..j + 1][..j] == orders[..j];
      var before := AttemptAll(env, st, orders[..j], 1, bar);
      SaleAttempted(fees, legs, symbol, price, maker, n - j + 1, orders[j], before, bar);
      OneMore(j, NetOfSale(fees, price, maker));
    }
  }

  lemma OneMore(j: nat, net: real)
    requires j > 0
    ensures (j - 1) as real * net + net == j as real * net
  {
    assert (j - 1) as real == j as real - 1.0;
  }

  /**
   Sale fees are not checked against cash. A run that buys `n` shares with all its cash and sells them
   one at a time at the same price, as taker or as maker, ends its second row with `n` times what one
   sale nets, however negative that is.
   */
  lemma {:induction false} SalesOneByOne(fees: seq<TradingFee>, symbol: Symbol, price: Positive, maker: bool, n: nat, clock: seq<Bar>)
    requires n > 0 && |clock| >= 2 && clock[1].open == price < clock[1].high
    ensures var env := OneSignal([], 60, fees, RoundTrip(symbol, price, maker, n));
            Rows(env, Start(n as real * price, false), clock, 2).cash == n as real * NetOfSale(fees, price, maker)
  {
    hide ViewAt, Step, AttemptAll, MarketValue, NetOfSale, Shares, RoundTrip;
    var legs := RoundTrip(symbol, price, maker, n);
    var env, cash := OneSignal([], 60, fees, legs), n as real * price;
    FirstRow([], 60, fees, legs, cash, clock);
    var st := Rows(env, Start(cash, false), clock, 1);
    LaterRow([], 60, fees, legs, st, 1, clock[1]);
    SharesGo(fees, symbol, price, maker, n, n, st.pending, DateOf(clock[0].time), Shown(env, st, clock[1]).(pending := []), clock[1]);
    assert st.pending[..n + 1] == st.pending;
  }

  // ---- sale fees, exactly ----

  /** A run over non-negative prices, with no cost profile, bounded slippage, these sell fees and nothing to be assigned. */
  ghost predicate GentleRun(env: Env, fees: seq<TradingFee>, clock: seq<Bar>) {
    Gentle(env) && env.sellFees == fees && SaneMarket(env, clock) && NothingAssignable(env, clock)
  }

  /** No sale of any such run costs more in fees than it brings. */
  ghost predicate SalesAlwaysPay(fees: seq<TradingFee>) {
    forall env: Env, cash0: real, cancelled, clock: seq<Bar>, n: nat, e ::
      GentleRun(env, fees, clock) && n <= |clock| && FillOf(Rows(env, Start(cash0, cancelled), clock, n), e) && e.fill.side.Sell? ==>
        e.fill.fees <= Notional(env, e.fill)
  }

  /** Cash is strict in every such run from a non-negative start. */
  ghost predicate CashAlwaysStrict(fees: seq<TradingFee>) {
    forall env: Env, cash0: real, cancelled, clock: seq<Bar>, n: nat ::
      GentleRun(env, fees, clock) && cash0 >= 0.0 && n <= |clock| ==>
        Rows(env, Start(cash0, cancelled), clock, n).cash >= -CASH_SLACK
  }

  /** A price at which a sale in that role loses money. */
  lemma LosingPrice(fees: seq<TradingFee>, maker: bool) returns (price: Positive)
    requires !PaysFor(fees, maker)
    ensures NetOfSale(fees, price, maker) < 0.0
  {
    hide SumFees;
    price := if PercentOf(fees, maker) > 1.0 then 1.0 else FlatOf(fees, maker) / 2.0;
    FeesByRole(fees, 1.0, price, maker);
    if PercentOf(fees, maker) <= 1.0 {
      ProductNonNegative(price, PercentOf(fees, maker));
    }
  }

  lemma EnoughSales(net: real) returns (n: nat)
    requires net < 0.0
    ensures n > 0 && n as real * net < -CASH_SLACK
  {
    n := (CASH_SLACK / -net).Floor + 1;
    assert n as real > CASH_SLACK / -net;
    LongEnough(n as real, -net, CASH_SLACK);
  }

  lemma LongEnough(n: real, loss: real, bound: real)
    requires loss > 0.0 && n > bound / loss
    ensures n * loss > bound
  {
    assert bound / loss * loss == bound;
    assert (n - bound / loss) * loss > 0.0;
  }

  /** A fee list under which some sale loses money overdraws some run. */
  lemma UnpaidOverdraws(fees: seq<TradingFee>, maker: bool)
    requires !PaysFor(fees, maker)
    ensures !CashAlwaysStrict(fees)
  {
    hide NetOfSale, PaysFor, Rows;
    var price := LosingPrice(fees, maker);
    var n := EnoughSales(NetOfSale(fees, price, maker));
    var clock := [Bar(0, price, price, price, price, 0.0), Bar(60, price, price + 1.0, price, price, 0.0)];
    var env := OneSignal([], 60, fees, RoundTrip("SHARE", price, maker, n));
    SalesOneByOne(fees, "SHARE", price, maker, n, clock);
    ProductNonNegative(n as real, price);
    StocksNotAssigned(env, clock);
    assert GentleRun(env, fees, clock);
  }

  lemma StocksNotAssigned(env: Env, clock: seq<Bar>)
    requires forall symbol :: !IsOption(env, symbol)
    ensures NothingAssignable(env, clock)
  {
  }

  lemma PaidSalesPay(fees: seq<TradingFee>)
    requires PaysFor(fees, true) && PaysFor(fees, false)
    ensures SalesAlwaysPay(fees)
  {
    hide Rows, Gentle, SaneMarket, NothingAssignable, PaysFor, Notional;
    forall env: Env, cash0: real, cancelled, clock: seq<Bar>, n: nat, e
      | GentleRun(env, fees, clock) && n <= |clock| && FillOf(Rows(env, Start(cash0, cancelled), clock, n), e) && e.fill.side.Sell?
      ensures e.fill.fees <= Notional(env, e.fill)
    {
      SaleWithinProceeds(env, cash0, cancelled, clock, n, e);
    }
  }

  lemma PayingSalesKeepCash(fees: seq<TradingFee>)
    requires SalesAlwaysPay(fees)
    ensures CashAlwaysStrict(fees)
  {
    hide Rows, Gentle, SaneMarket, NothingAssignable, Notional;
    forall env: Env, cash0: real, cancelled, clock: seq<Bar>, n: nat
      | GentleRun(env, fees, clock) && cash0 >= 0.0 && n <= |clock|
      ensures Rows(env, Start(cash0, cancelled), clock, n).cash >= -CASH_SLACK
    {
      StrictWhenPaid(env, cash0, cancelled, clock, n);
    }
  }

  /**
   Strict cash and sale fees, exactly. Over all such runs, no sale costs more than it brings, and cash
   never goes below -0.000001, just when the fees that one role pays hold no flat part and at most
   100% of the proceeds, for either role.
   */
  lemma SaleFeesExactly(fees: seq<TradingFee>)
    ensures SalesAlwaysPay(fees) <==> PaysFor(fees, true) && PaysFor(fees, false)
    ensures CashAlwaysStrict(fees) <==> PaysFor(fees, true) && PaysFor(fees, false)
  {
    hide PaysFor, SalesAlwaysPay, CashAlwaysStrict;
    if PaysFor(fees, true) && PaysFor(fees, false) {
      PaidSalesPay(fees);
    } else {
      UnpaidOverdraws(fees, PaysFor(fees, false));
    }
    if SalesAlwaysPay(fees) {
      PayingSalesKeepCash(fees);
    }
  }
}
