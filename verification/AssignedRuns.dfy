/** Runs that spend the margin of a short before it is assigned, and the exact condition under which none can. */
module AssignedRuns {
  import opened Common
  import opened OrderedDict
  import opened Timeline
  import opened Market
  import opened Orders
  import opened EngineSpec
  import opened AccountProofs
  import opened FillProofs
  import opened Assignments
  import opened SaleFees
  import opened SampleRuns
  import opened CashRuns
  import opened Marks

  // ---- a short is opened, its margin spent, and it is assigned ----

  function ShortLeg(symbol: Symbol, quantity: Positive): Leg {
    Leg(symbol, SellShort, quantity, Options, MarketOrder, None, None, Day)
  }

  /** Sell `contracts` of `option` short and buy `shares` of `stock`, on tick `f`. */
  function SpendMargin(option: Symbol, contracts: Positive, stock: Symbol, shares: Positive, f: nat): seq<View> -> Decision {
    SignalAt(f, [ShortLeg(option, contracts), BuyLeg(stock, shares)])
  }

  /** The fill of a market leg at clock row `f`, before any random draw. */
  function MarketAt(env: Env, leg: Leg, clock: seq<Bar>, f: nat): Attempt
    requires f < |clock|
  {
    MarketFill(env, leg, FillBar(env, leg.symbol, clock[f]), TimeOf(env, clock, f), 0)
  }

  lemma AttemptedTwo(env: Env, st: State, a: PendingOrder, b: PendingOrder, row: nat, bar: Bar)
    ensures AttemptAll(env, st, [a, b], row, bar) == AttemptOrder(env, AttemptOrder(env, st, a, row, bar), b, row, bar)
  {
    hide AttemptOrder;
    AttemptedOne(env, st, a, row, bar);
    assert [a, b][..1] == [a];
  }

  /** The state before row `f` of a run that first trades there. */
  ghost predicate Idle(st: State, cash: real, n: nat) {
    && st.cash == cash && st.positions == [] && st.pending == [] && st.emitted == [] && st.draws == 0
    && !st.failed && !st.cancelRequested && |st.history| == n
  }

  lemma {:induction false} IdleUntil(env: Env, clock: seq<Bar>, tick: nat, legs: seq<Leg>, cash: real, n: nat)
    requires env.algorithm == SignalAt(tick, legs) && n < tick && n <= |clock|
    ensures Idle(Rows(env, Start(cash, false), clock, n), cash, n)
  {
    hide Step, ViewAt, MarketValue;
    if n > 0 {
      IdleUntil(env, clock, tick, legs, cash, n - 1);
      var st := Rows(env, Start(cash, false), clock, n - 1);
      assert Attempted(env, st, n - 1, clock[n - 1]) == Shown(env, st, clock[n - 1]);
      SilentRow(env, st, tick, legs, n - 1, clock[n - 1]);
    }
  }

  lemma ShortSold(env: Env, st: State, id: nat, row: nat, fill: Fill)
    requires IsOption(env, fill.symbol) && env.contractOf(fill.symbol).Some? && st.positions == []
    requires fill.side.Sell? && fill.quantity > 0.0
    requires env.contractOf(fill.symbol).value.strike * 100.0 * fill.quantity <= st.cash + (Notional(env, fill) - fill.fees)
    ensures Refusal(env, st.cash, st.positions, fill).None?
    ensures var after := ApplyFill(env, st, id, row, fill);
            && after.cash == st.cash + (Notional(env, fill) - fill.fees) && after.draws == st.draws && after.pending == st.pending
            && after.positions == [Entry(fill.symbol, Position(-fill.quantity, fill.fillPrice, fill.assetType))]
            && after == st.(cash := after.cash, positions := after.positions, log := after.log)
  {
    hide Worth;
  }

  lemma MarginSpent(env: Env, st: State, id: nat, row: nat, fill: Fill)
    requires |st.positions| == 1 && st.positions[0].key != fill.symbol
    requires fill.side.Buy? && fill.quantity > 0.0 && st.cash == Notional(env, fill) + fill.fees
    ensures Refusal(env, st.cash, st.positions, fill).None?
    ensures var after := ApplyFill(env, st, id, row, fill);
            && after.cash == 0.0 && |after.positions| == 2
            && after.positions[0] == st.positions[0] && after.positions[1].key == fill.symbol
            && after == st.(cash := 0.0, positions := after.positions, log := after.log)
  {
    hide Notional, Rebook;
    var ps := Position(0.0, 0.0, fill.assetType);
    RebookQuantity(ps, fill, Multiplier(env, fill.symbol));
    assert st.positions[1..] == [];
    assert Find(st.positions, fill.symbol) == Find([], fill.symbol) == None;
    var rebooked := Rebook(ps, fill, Multiplier(env, fill.symbol)).position;
    assert Put(st.positions, fill.symbol, rebooked) == [st.positions[0]] + Put([], fill.symbol, rebooked);
  }

  /** The account once the margin of the short is spent: no cash, the short, and the stock. */
  ghost predicate Drained(st: State, option: Symbol, contracts: real, stock: Symbol) {
    && st.cash == 0.0 && st.pending == [] && !st.failed && !st.cancelRequested
    && |st.positions| == 2 && st.positions[0].key == option && st.positions[0].value.quantity == -contracts
    && st.positions[1].key == stock
  }

  /** Both legs fill at row `f`, the margin of the short is covered, and the purchase takes all the cash. */
  ghost predicate SpendsMargin(env: Env, clock: seq<Bar>, option: Symbol, contracts: Positive, stock: Symbol,
                               shares: Positive, f: nat, cash: real) {
    && f < |clock| && IsOption(env, option) && !IsOption(env, stock) && env.contractOf(option).Some?
    && var sale, purchase := MarketAt(env, ShortLeg(option, contracts), clock, f), MarketAt(env, BuyLeg(stock, shares), clock, f);
    && sale.Executed? && purchase.Executed? && sale.draws == 0
    && env.contractOf(option).value.strike * 100.0 * contracts <= cash + (Notional(env, sale.fill) - sale.fill.fees)
    && cash + (Notional(env, sale.fill) - sale.fill.fees) == Notional(env, purchase.fill) + purchase.fill.fees
  }

  /** The trading half of row `f` opens the short and spends the margin. */
  lemma MarginGone(env: Env, clock: seq<Bar>, option: Symbol, contracts: Positive, stock: Symbol, shares: Positive,
                   f: nat, cash: real, st: State, before: State, date: int)
    requires SpendsMargin(env, clock, option, contracts, stock, shares, f, cash) && f >= 1
    requires before.cash == cash && before.positions == [] && before.draws == 0
    requires Queued(before, st, [ShortLeg(option, contracts), BuyLeg(stock, shares)], f - 1, date)
    ensures Drained(Attempted(env, st, f, clock[f]), option, contracts, stock)
  {
    hide MarketFill, ViewAt, Notional, Refusal, ApplyFill, AttemptAll, FillBar;
    var bar := clock[f];
    var a, b := st.pending[0], st.pending[1];
    assert st.pending == [a, b];
    var base := Shown(env, st, bar).(pending := []);
    AttemptedTwo(env, base, a, b, f, bar);
    var sale, purchase := MarketAt(env, a.leg, clock, f).fill, MarketAt(env, b.leg, clock, f).fill;
    assert TryFillAt(env, a.(attempted := true), bar, 0) == MarketAt(env, a.leg, clock, f);
    assert TryFillAt(env, b.(attempted := true), bar, 0) == MarketAt(env, b.leg, clock, f);
    ShortSold(env, base, 0, f, sale);
    var short := AttemptOrder(env, base, a, f, bar);
    assert short == ApplyFill(env, base, 0, f, sale);
    var draws := MarketAt(env, b.leg, clock, f).draws;
    MarginSpent(env, short.(draws := draws), 1, f, purchase);
    assert AttemptOrder(env, short, b, f, bar) == ApplyFill(env, short.(draws := draws), 1, f, purchase);
  }

  /** With nothing pending and no signal the trading half of a row only shows the account. */
  lemma NothingAttempted(env: Env, st: State, row: nat, bar: Bar)
    requires st.pending == []
    ensures Attempted(env, st, row, bar) == Shown(env, st, bar)
  {
    hide ViewAt;
  }

  /** A drained account stays drained through a row on which its contract has not expired. */
  lemma StillDrained(env: Env, st: State, tick: nat, legs: seq<Leg>, option: Symbol, contracts: real, stock: Symbol, row: nat, bar: Bar)
    requires env.algorithm == SignalAt(tick, legs) && |st.history| + 1 != tick && !st.failed && !st.cancelRequested
    requires Drained(Attempted(env, st, row, bar), option, contracts, stock)
    requires !IsOption(env, stock) && !Expired(env, option, bar.time + env.duration)
    ensures var after := Step(env, st, row, bar);
            Drained(after, option, contracts, stock) && |after.history| == |Attempted(env, st, row, bar).history|
  {
    hide Attempted, MarketValue, Step;
    SilentRow(env, st, tick, legs, row, bar);
  }

  /** From the row that opens the short to the row that settles it. */
  lemma {:induction false} DrainedUntil(env: Env, clock: seq<Bar>, option: Symbol, contracts: Positive, stock: Symbol,
                                        shares: Positive, f: nat, b: nat, cash: real)
    requires env.algorithm == SpendMargin(option, contracts, stock, shares, f)
    requires SpendsMargin(env, clock, option, contracts, stock, shares, f, cash) && Shortable(env, clock, option, f, b) && b < |clock|
    ensures var st := Rows(env, Start(cash, false), clock, b);
            && |st.history| == b && !st.failed && !st.cancelRequested
            && Drained(Attempted(env, st, b, clock[b]), option, contracts, stock)
    decreases b
  {
    hide Step, Attempted, MarketAt, Expired, SpendsMargin;
    var legs := [ShortLeg(option, contracts), BuyLeg(stock, shares)];
    var st := Rows(env, Start(cash, false), clock, b);
    var before := Rows(env, Start(cash, false), clock, b - 1);
    assert !Expired(env, option, TimeOf(env, clock, b - 1));
    if b == f {
      IdleUntil(env, clock, f, legs, cash, f - 1);
      StocksUnexpired(env, clock, option, contracts, stock, shares, f, cash);
      EmittingRow(env, before, f, legs, f - 1, clock[f - 1]);
      MarginGone(env, clock, option, contracts, stock, shares, f, cash, st, before, DateOf(clock[f - 1].time));
    } else {
      DrainedUntil(env, clock, option, contracts, stock, shares, f, b - 1, cash);
      StocksUnexpired(env, clock, option, contracts, stock, shares, f, cash);
      StillDrained(env, before, f, legs, option, contracts, stock, b - 1, clock[b - 1]);
      AttemptedShows(env, before, b - 1, clock[b - 1]);
      NothingAttempted(env, st, b, clock[b]);
    }
  }

  lemma AttemptedShows(env: Env, st: State, row: nat, bar: Bar)
    ensures |Attempted(env, st, row, bar).history| == |st.history| + 1
  {
    hide AttemptAll, ViewAt;
    AttemptAllShows(env, Shown(env, st, bar).(pending := []), st.pending, row, bar);
  }

  lemma StocksUnexpired(env: Env, clock: seq<Bar>, option: Symbol, contracts: Positive, stock: Symbol, shares: Positive,
                        f: nat, cash: real)
    requires SpendsMargin(env, clock, option, contracts, stock, shares, f, cash)
    ensures !IsOption(env, stock) && forall now :: !Expired(env, stock, now)
  {
    hide MarketAt;
  }

  /** Settling the drained account takes the intrinsic value of the short from no cash. */
  lemma AssignmentTaken(env: Env, st: State, option: Symbol, contracts: Positive, stock: Symbol, row: nat, now: int)
    requires Drained(st, option, contracts, stock) && !IsOption(env, stock)
    requires HandleExpiry(env, option, -1.0, 0.0, now).Expires?
    ensures var after := SettleAll(env, st, st.positions, row, now);
            && !after.failed && after.pending == []
            && after.cash == -Worth(HandleExpiry(env, option, -1.0, 0.0, now).price, contracts, 100.0)
  {
    hide Worth;
    var short, held := st.positions[0], st.positions[1];
    assert st.positions == [short, held];
    assert st.positions[..1] == [short] && [short][..0] == [];
    assert SettleAll(env, st, [short], row, now) == SettleOne(env, st, short, row, now);
    SettlementParts(env, st, short, row, now);
    SettlementConserves(env, option, short.value, now);
    assert SettleAll(env, st, st.positions, row, now) == SettleOne(env, SettleOne(env, st, short, row, now), held, row, now);
  }

  /**
   Assignments are not checked against cash either. A run that opens an assignable short at row `f` and
   spends all its cash, margin included, on stock ends row `k` owing the whole assignment.
   */
  lemma {:induction false} SpentMarginOverdraws(env: Env, clock: seq<Bar>, option: Symbol, contracts: Positive,
                                                stock: Symbol, shares: Positive, f: nat, k: nat, cash: real)
    requires env.algorithm == SpendMargin(option, contracts, stock, shares, f)
    requires SpendsMargin(env, clock, option, contracts, stock, shares, f, cash) && Assignable(env, clock, option, f, k)
    ensures Rows(env, Start(cash, false), clock, k + 1).cash
         == -Worth(HandleExpiry(env, option, -1.0, 0.0, TimeOf(env, clock, k)).price, contracts, 100.0)
  {
    hide Attempted, MarketAt, Worth, SettleAll, SpendsMargin, HandleExpiry, Trade, MarketValue, Shortable;
    var st, now := Rows(env, Start(cash, false), clock, k), TimeOf(env, clock, k);
    assert 1 <= f <= k by { ShortableRows(env, clock, option, f, k); }
    DrainedUntil(env, clock, option, contracts, stock, shares, f, k, cash);
    StocksUnexpired(env, clock, option, contracts, stock, shares, f, cash);
    SilentTrade(env, st, f, [ShortLeg(option, contracts), BuyLeg(stock, shares)], k, clock[k]);
    AssignmentTaken(env, Trade(env, st, k, clock[k]), option, contracts, stock, k, now);
  }

  lemma ShortableRows(env: Env, clock: seq<Bar>, symbol: Symbol, f: nat, b: nat)
    requires Shortable(env, clock, symbol, f, b)
    ensures 1 <= f <= b
  {
  }

  // ---- assignments, exactly ----

  predicate PositiveBar(bar: Bar) {
    0.0 < bar.open && 0.0 < bar.low <= bar.high
  }

  /** Positive prices in the clock and in every series. */
  ghost predicate PositiveMarket(env: Env, clock: seq<Bar>) {
    && (forall k :: 0 <= k < |clock| ==> PositiveBar(clock[k]))
    && (forall i, k :: 0 <= i < |env.store| && 0 <= k < |env.store[i].bars| ==> PositiveBar(env.store[i].bars[k]))
  }

  function TradedBy(env: Env, algorithm: seq<View> -> Decision): Env {
    env.(algorithm := algorithm)
  }

  /** Cash is strict whatever the algorithm and the start. */
  ghost predicate StrictForAll(env: Env, clock: seq<Bar>) {
    forall algorithm: seq<View> -> Decision, cash0: real, cancelled, n: nat :: cash0 >= 0.0 && n <= |clock| ==>
      Rows(TradedBy(env, algorithm), Start(cash0, cancelled), clock, n).cash >= -CASH_SLACK
  }

  lemma FillBarIsPositive(env: Env, symbol: Symbol, bar: Bar)
    requires PositiveBar(bar)
    requires forall i, k :: 0 <= i < |env.store| && 0 <= k < |env.store[i].bars| ==> PositiveBar(env.store[i].bars[k])
    ensures PositiveBar(FillBar(env, symbol, bar))
  {
    if SeriesFor(env.store, symbol, env.resolve).Some? {
      SeriesForIsFirst(env.store, symbol, env.resolve);
    }
  }

  /** A purchase is possible at a positive price that does not depend on its size. */
  lemma PurchasePrice(env: Env, stock: Symbol, shares: Positive, bar: Bar)
    requires Gentle(env) && PositiveBar(bar)
    ensures MarketPrice(env, BuyLeg(stock, shares), bar, 0) == BaseMarketPrice(env, bar, Buy, env.slippage, 0) > 0.0
  {
    hide Slipped, Between;
    SlippedAgainst(bar.open, env.slippage.marketBps, Buy);
    if env.slippage.useBarRange {
      BetweenIsInside(bar.low, bar.high, env.uniform(0));
    }
  }

  /** How many shares at `price` a sum of money buys when each unit of worth costs `factor`. */
  lemma SharesFor(price: real, factor: real, money: real) returns (shares: Positive)
    requires price > 0.0 && factor >= 1.0 && money > 0.0
    ensures Worth(price, shares, factor) == money
  {
    var cost := price * factor;
    assert cost > 0.0;
    shares := money / cost;
    assert shares * cost == money;
    assert price * shares * factor == shares * (price * factor);
  }

  /** The market sale of an option quoted for sale brings something, and costs no draw. */
  lemma ShortBrings(env: Env, clock: seq<Bar>, option: Symbol, contracts: Positive, f: nat)
    requires Gentle(env) && PositiveMarket(env, clock) && PaysFor(env.sellFees, false) && f < |clock|
    requires IsOption(env, option) && QuotedForSale(env, option, TimeOf(env, clock, f))
    ensures var sale := MarketAt(env, ShortLeg(option, contracts), clock, f);
            sale.Executed? && sale.draws == 0 && Notional(env, sale.fill) - sale.fill.fees >= 0.0
  {
    hide SumFees, Slipped, FillBar, Notional, PaysFor;
    var leg := ShortLeg(option, contracts);
    var bar := FillBar(env, option, clock[f]);
    FillBarIsPositive(env, option, clock[f]);
    MarketSale(env, leg, bar, TimeOf(env, clock, f), 0);
    var fill := MarketAt(env, leg, clock, f).fill;
    FeesWithinProceeds(env.sellFees, contracts, fill.fillPrice, false);
    WithinNotional(env, fill);
  }

  /** A market purchase of stock costs its price times the share of its fees, and the flat part. */
  lemma PurchaseCosts(env: Env, clock: seq<Bar>, stock: Symbol, shares: Positive, f: nat, price: real)
    requires Gentle(env) && PositiveMarket(env, clock) && f < |clock| && !IsOption(env, stock)
    requires price == BaseMarketPrice(env, FillBar(env, stock, clock[f]), Buy, env.slippage, 0)
    ensures var purchase := MarketAt(env, BuyLeg(stock, shares), clock, f);
            && purchase.Executed? && price > 0.0
            && Notional(env, purchase.fill) + purchase.fill.fees
               == FlatOf(env.buyFees, false) + Worth(price, shares, 1.0 + PercentOf(env.buyFees, false))
  {
    hide SumFees, FillBar, Worth, BaseMarketPrice, MarketPrice, VolumeImpact, Abs;
    var bar := FillBar(env, stock, clock[f]);
    FillBarIsPositive(env, stock, clock[f]);
    PurchasePrice(env, stock, shares, bar);
    MarketFillPrice(env, BuyLeg(stock, shares), bar, TimeOf(env, clock, f), 0);
    FeesByRole(env.buyFees, shares, price, false);
    SharesAdd(price, shares, 1.0, PercentOf(env.buyFees, false));
  }

  /** Some start and some purchase spend the margin of any short that can be opened. */
  lemma MarginCanBeSpent(env: Env, clock: seq<Bar>, option: Symbol, contracts: Positive, stock: Symbol, f: nat)
    returns (shares: Positive, cash: real)
    requires Gentle(env) && PositiveMarket(env, clock) && PaysFor(env.sellFees, false) && f < |clock|
    requires IsOption(env, option) && QuotedForSale(env, option, TimeOf(env, clock, f))
    requires !IsOption(env, stock) && env.contractOf(option).Some?
    ensures cash >= 0.0 && SpendsMargin(env, clock, option, contracts, stock, shares, f, cash)
  {
    hide MarketAt, Notional, PaysFor, Gentle, PositiveMarket, Worth, BaseMarketPrice, FillBar;
    ShortBrings(env, clock, option, contracts, f);
    var sale := MarketAt(env, ShortLeg(option, contracts), clock, f).fill;
    var flat, percent := FlatOf(env.buyFees, false), PercentOf(env.buyFees, false);
    var margin := env.contractOf(option).value.strike * 100.0 * contracts;
    ProductNonNegative(env.contractOf(option).value.strike * 100.0, contracts);
    cash := margin + flat + 1.0;
    var price := BaseMarketPrice(env, FillBar(env, stock, clock[f]), Buy, env.slippage, 0);
    PurchaseCosts(env, clock, stock, 1.0, f, price);
    shares := SharesFor(price, 1.0 + percent, cash + (Notional(env, sale) - sale.fees) - flat);
    PurchaseCosts(env, clock, stock, shares, f, price);
  }

  /** The algorithm has no part in quotes and expiry. */
  lemma SameContracts(env: Env, algorithm: seq<View> -> Decision)
    ensures var other := TradedBy(env, algorithm);
            && (forall symbol, now :: HandleExpiry(other, symbol, -1.0, 0.0, now) == HandleExpiry(env, symbol, -1.0, 0.0, now))
            && (forall symbol, now :: Expired(other, symbol, now) == Expired(env, symbol, now))
            && (forall symbol, now :: QuotedForSale(other, symbol, now) == QuotedForSale(env, symbol, now))
  {
    hide Worth;
  }

  lemma SameShortable(env: Env, algorithm: seq<View> -> Decision, clock: seq<Bar>, symbol: Symbol, f: nat, b: nat)
    ensures Shortable(TradedBy(env, algorithm), clock, symbol, f, b) <==> Shortable(env, clock, symbol, f, b)
  {
    SameContracts(env, algorithm);
    hide HandleExpiry, Expired, QuotedForSale;
    var other := TradedBy(env, algorithm);
    assert forall j: nat :: j < |clock| ==> TimeOf(other, clock, j) == TimeOf(env, clock, j);
    assert IsOption(other, symbol) == IsOption(env, symbol);
  }

  lemma SameAssignable(env: Env, algorithm: seq<View> -> Decision, clock: seq<Bar>, symbol: Symbol, f: nat, k: nat)
    ensures Assignable(TradedBy(env, algorithm), clock, symbol, f, k) <==> Assignable(env, clock, symbol, f, k)
  {
    SameContracts(env, algorithm);
    SameShortable(env, algorithm, clock, symbol, f, k);
    hide HandleExpiry, Expired, QuotedForSale, Shortable;
  }

  /** Nor in fills. */
  lemma SameFill(env: Env, algorithm: seq<View> -> Decision, clock: seq<Bar>, leg: Leg, f: nat)
    requires f < |clock|
    ensures MarketAt(TradedBy(env, algorithm), leg, clock, f) == MarketAt(env, leg, clock, f)
  {
    hide SumFees, Slipped, Between;
  }

  lemma SameSpending(env: Env, algorithm: seq<View> -> Decision, clock: seq<Bar>, option: Symbol, contracts: Positive,
                     stock: Symbol, shares: Positive, f: nat, cash: real)
    requires SpendsMargin(env, clock, option, contracts, stock, shares, f, cash)
    ensures SpendsMargin(TradedBy(env, algorithm), clock, option, contracts, stock, shares, f, cash)
  {
    SameFill(env, algorithm, clock, ShortLeg(option, contracts), f);
    SameFill(env, algorithm, clock, BuyLeg(stock, shares), f);
    hide MarketAt;
  }

  /** An assignable short lets some algorithm overdraw. */
  lemma AssignableOverdraws(env: Env, clock: seq<Bar>, option: Symbol, stock: Symbol, f: nat, k: nat)
    requires Gentle(env) && PositiveMarket(env, clock) && PaysFor(env.sellFees, false) && !IsOption(env, stock)
    requires Assignable(env, clock, option, f, k)
    ensures !StrictForAll(env, clock)
  {
    hide Gentle, PositiveMarket, PaysFor, SpendsMargin, Rows, Worth;
    var price := HandleExpiry(env, option, -1.0, 0.0, TimeOf(env, clock, k)).price;
    var contracts: Positive := 1.0 / price;
    var shares, cash := MarginCanBeSpent(env, clock, option, contracts, stock, f);
    var algorithm := SpendMargin(option, contracts, stock, shares, f);
    var other := TradedBy(env, algorithm);
    SameSpending(env, algorithm, clock, option, contracts, stock, shares, f, cash);
    SameAssignable(env, algorithm, clock, option, f, k);
    SameContracts(env, algorithm);
    SpentMarginOverdraws(other, clock, option, contracts, stock, shares, f, k, cash);
    WholeHundred(price);
  }

  lemma WholeHundred(price: real)
    requires price > 0.0
    ensures Worth(price, 1.0 / price, 100.0) == 100.0
  {
    assert price * (1.0 / price) == 1.0;
  }

  lemma PositiveIsSane(env: Env, clock: seq<Bar>)
    requires PositiveMarket(env, clock)
    ensures SaneMarket(env, clock)
  {
  }

  lemma UnassignableIsStrict(env: Env, clock: seq<Bar>)
    requires Gentle(env) && SaneMarket(env, clock) && PaysFor(env.sellFees, true) && PaysFor(env.sellFees, false)
    requires NothingAssignable(env, clock)
    ensures StrictForAll(env, clock)
  {
    hide PaysFor, Rows, Assignable;
    forall algorithm: seq<View> -> Decision, cash0: real, cancelled, n: nat | cash0 >= 0.0 && n <= |clock|
      ensures Rows(TradedBy(env, algorithm), Start(cash0, cancelled), clock, n).cash >= -CASH_SLACK
    {
      forall symbol, f: nat, k: nat ensures !Assignable(TradedBy(env, algorithm), clock, symbol, f, k) {
        SameAssignable(env, algorithm, clock, symbol, f, k);
      }
      StrictCashFromInputs(TradedBy(env, algorithm), cash0, cancelled, clock, n);
    }
  }

  /**
   Strict cash and assignments, exactly. On a market of positive prices with a stock to buy, and with
   sell fees that pay for themselves, no algorithm and no start ever takes cash below -0.000001 just
   when no contract is quoted for sale before its expiry and then expires in the money.
   */
  lemma AssignmentsExactly(env: Env, clock: seq<Bar>, stock: Symbol)
    requires Gentle(env) && PositiveMarket(env, clock) && PaysFor(env.sellFees, true) && PaysFor(env.sellFees, false)
    requires !IsOption(env, stock)
    ensures StrictForAll(env, clock) <==> NothingAssignable(env, clock)
  {
    hide Gentle, PositiveMarket, PaysFor, SaneMarket, StrictForAll, Assignable;
    PositiveIsSane(env, clock);
    if NothingAssignable(env, clock) {
      UnassignableIsStrict(env, clock);
    } else {
      var option, f: nat, k: nat :| Assignable(env, clock, option, f, k);
      AssignableOverdraws(env, clock, option, stock, f, k);
    }
  }

  // ---- one such run ----

  function FlatBar(time: int, price: real): Bar {
    Bar(time, price, price, price, price, 0.0)
  }

  /** Three days of a stock: 100 on two, 50 on the third. */
  const Days := [FlatBar(0, 100.0), FlatBar(86400, 100.0), FlatBar(172800, 50.0)]

  /** The put "P" on the stock "U", struck at 100, expires on the second day; options are quoted at 1. */
  const PutEnv := Env([Series("source", "U", 60, Days)], 60, SlippageModel(0.0, 0.0, false, 0.0), [], [], None,
                      symbol => if symbol == "P" then Options else Equities, (symbol, source) => symbol,
                      symbol => if symbol == "P" then Some(OptionContract("U", 1, 100.0, false)) else None,
                      (symbol, side, now) => Some(1.0), (symbol, quantity, now) => 0.0, k => 0.0,
                      SpendMargin("P", 1.0, "U", 101.0, 1))

  lemma DayVisible(k: nat)
    requires k < 3
    ensures LastClosed(Days, 60, Days[k].time + 60) == Some(Days[k])
  {
    hide UpTo;
    LastClosedIsNewest(Days, 60, Days[k].time + 60);
    UpToPrefix(Days, BarTime, k);
  }

  lemma PutSpendsMargin()
    ensures SpendsMargin(PutEnv, Days, "P", 1.0, "U", 101.0, 1, 10000.0)
  {
    DayVisible(1);
    assert SeriesFor(PutEnv.store, "U", PutEnv.resolve) == Some(PutEnv.store[0]);
    NoFees(1.0, 1.0, false);
    NoFees(101.0, 100.0, false);
  }

  lemma PutAssignable()
    ensures Assignable(PutEnv, Days, "P", 1, 2) && HandleExpiry(PutEnv, "P", -1.0, 0.0, 172860).price == 50.0
  {
    DayVisible(2);
  }

  /** With cash 10000 the run sells the put for 100, buys 101 shares at 100, and owes 5000 when the put is assigned. */
  lemma AssignedPutOverdraws()
    ensures Rows(PutEnv, Start(10000.0, false), Days, 3).cash == -5000.0
  {
    PutSpendsMargin();
    PutAssignable();
    hide SpendsMargin, Assignable, Rows, HandleExpiry;
    SpentMarginOverdraws(PutEnv, Days, "P", 1.0, "U", 101.0, 1, 2, 10000.0);
  }
}
