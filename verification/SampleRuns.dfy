/** Concrete runs that show where a promise stops: whole replays of a few rows, from the first state on. */
module SampleRuns {
  import opened Common
  import opened Timeline
  import opened Market
  import opened Orders
  import opened EngineSpec
  import opened OrderProofs
  import opened Assignments
  import opened SaleFees

  /** The algorithm that emits one signal, on its tick number `tick`. */
  function SignalAt(tick: nat, legs: seq<Leg>): seq<View> -> Decision {
    (history: seq<View>) => Decision(if |history| == tick then [Signal(legs)] else [], false)
  }

  /** No slippage, no options, and an algorithm that emits one signal on its first tick. */
  function OneSignal(store: Store, duration: nat, sellFees: seq<TradingFee>, legs: seq<Leg>): Env {
    Env(store, duration, SlippageModel(0.0, 0.0, false, 0.0), [], sellFees, None,
        symbol => Equities, (symbol, source) => symbol, symbol => None,
        (symbol, side, now) => None, (symbol, quantity, now) => 0.0, k => 0.0, SignalAt(1, legs))
  }

  /** The state after a row that only emits: the legs are queued, and the account is as it was. */
  ghost predicate Queued(before: State, st: State, legs: seq<Leg>, row: nat, date: int) {
    && st.cash == before.cash && st.positions == before.positions && !st.failed && !st.cancelRequested
    && |st.history| == |before.history| + 1 && st.draws == before.draws
    && |st.log| == |before.log| + 1 && st.log[|before.log|].EquityPoint?
    && |st.pending| == |legs| && |st.emitted| == |legs|
    && forall i :: 0 <= i < |legs| ==>
         && st.pending[i] == PendingOrder(i, legs[i], row + 1, false, date, false)
         && st.emitted[i] == Emission(row, legs[i], date)
  }

  lemma {:induction false} LegsQueued(st: State, legs: seq<Leg>, row: nat, bar: Bar)
    requires st.emitted == [] && st.pending == []
    ensures var q := QueueLegs(st, legs, row, bar);
            && q == st.(emitted := q.emitted, pending := q.pending)
            && |q.pending| == |legs| && |q.emitted| == |legs|
            && forall i :: 0 <= i < |legs| ==>
                 && q.pending[i] == PendingOrder(i, legs[i], row + 1, false, DateOf(bar.time), false)
                 && q.emitted[i] == Emission(row, legs[i], DateOf(bar.time))
  {
    if legs != [] {
      LegsQueued(st, legs[..|legs| - 1], row, bar);
    }
  }

  /** What the tick of a row shows the algorithm. */
  function Shown(env: Env, st: State, bar: Bar): State {
    st.(history := st.history + [ViewAt(env, st, bar.time + env.duration)])
  }

  /** On its own tick the algorithm's legs are queued; on any other nothing happens. */
  lemma SignalTick(env: Env, st: State, tick: nat, legs: seq<Leg>, row: nat, bar: Bar)
    requires env.algorithm == SignalAt(tick, legs)
    ensures Tick(env, st, row, bar)
         == if |st.history| + 1 == tick then QueueLegs(Shown(env, st, bar), legs, row, bar) else Shown(env, st, bar)
  {
    hide ViewAt, QueueLegs;
    var shown := Shown(env, st, bar);
    assert [Signal(legs)][..0] == [];
    assert QueueSignals(shown, [], row, bar) == shown;
    assert QueueSignals(shown, [Signal(legs)], row, bar) == QueueLegs(shown, legs, row, bar);
    assert Tick(env, st, row, bar) == QueueSignals(shown, env.algorithm(shown.history).signals, row, bar);
  }

  ghost predicate NoLegExpired(env: Env, legs: seq<Leg>, now: int) {
    forall i :: 0 <= i < |legs| ==> !Expired(env, legs[i].symbol, now)
  }

  /** The row of that tick, when nothing is pending and nothing expires, only queues the legs. */
  lemma EmittingRow(env: Env, st: State, tick: nat, legs: seq<Leg>, row: nat, bar: Bar)
    requires env.algorithm == SignalAt(tick, legs) && |st.history| + 1 == tick
    requires st.emitted == [] && st.pending == [] && st.positions == [] && !st.failed && !st.cancelRequested
    requires NoLegExpired(env, legs, bar.time + env.duration)
    ensures Queued(st, Step(env, st, row, bar), legs, row, DateOf(bar.time))
  {
    hide ViewAt, QueueLegs, AttemptAll, MarketValue, Tick, Trade, Expired;
    SignalTick(env, st, tick, legs, row, bar);
    LegsQueued(Shown(env, st, bar), legs, row, bar);
    var ticked := Tick(env, st, row, bar);
    QuietTrade(env, st, row, bar);
    NothingDueYet(env, ticked.(pending := []), ticked.pending, row, bar);
    assert [] + ticked.pending == ticked.pending;
    assert Trade(env, st, row, bar) == ticked;
    QuietRow(env, st, row, bar);
  }

  lemma FirstRow(store: Store, duration: nat, fees: seq<TradingFee>, legs: seq<Leg>, cash: real, clock: seq<Bar>)
    requires |clock| > 0
    ensures Queued(Start(cash, false), Rows(OneSignal(store, duration, fees, legs), Start(cash, false), clock, 1), legs, 0, DateOf(clock[0].time))
  {
    hide Step;
    EmittingRow(OneSignal(store, duration, fees, legs), Start(cash, false), 1, legs, 0, clock[0]);
    assert Rows(OneSignal(store, duration, fees, legs), Start(cash, false), clock, 0) == Start(cash, false);
  }

  /** Without a cancellation the trading half of a row is its tick and its attempts. */
  lemma QuietTrade(env: Env, st: State, row: nat, bar: Bar)
    requires !Tick(env, st, row, bar).cancelRequested
    ensures var ticked := Tick(env, st, row, bar);
            Trade(env, st, row, bar) == AttemptAll(env, ticked.(pending := []), ticked.pending, row, bar)
  {
    hide Tick;
    var ticked := Tick(env, st, row, bar);
    StillQuiet(env, ticked.(pending := []), ticked.pending, row, bar);
  }

  /** What a row without a signal makes of the orders pending at its head. */
  function Attempted(env: Env, st: State, row: nat, bar: Bar): State {
    AttemptAll(env, Shown(env, st, bar).(pending := []), st.pending, row, bar)
  }

  lemma SilentTrade(env: Env, st: State, tick: nat, legs: seq<Leg>, row: nat, bar: Bar)
    requires env.algorithm == SignalAt(tick, legs) && |st.history| + 1 != tick && !st.cancelRequested
    ensures Trade(env, st, row, bar) == Attempted(env, st, row, bar)
  {
    hide ViewAt, AttemptAll, Tick, Trade;
    SignalTick(env, st, tick, legs, row, bar);
    QuietTrade(env, st, row, bar);
  }

  /** A row without a signal on which nothing expires: only the attempts and the equity point. */
  lemma SilentRow(env: Env, st: State, tick: nat, legs: seq<Leg>, row: nat, bar: Bar)
    requires env.algorithm == SignalAt(tick, legs) && |st.history| + 1 != tick && !st.failed && !st.cancelRequested
    requires NoneHeldExpired(env, Attempted(env, st, row, bar).positions, bar.time + env.duration)
    requires NonePendingExpired(env, Attempted(env, st, row, bar).pending, bar.time + env.duration)
    ensures Step(env, st, row, bar) == Mark(env, Attempted(env, st, row, bar), row, bar.time + env.duration)
  {
    hide Attempted, Mark, Trade, NoneHeldExpired, NonePendingExpired;
    SilentTrade(env, st, tick, legs, row, bar);
    QuietRow(env, st, row, bar);
  }

  lemma LaterRow(store: Store, duration: nat, fees: seq<TradingFee>, legs: seq<Leg>, st: State, row: nat, bar: Bar)
    requires |st.history| > 0 && !st.failed && !st.cancelRequested
    ensures var env := OneSignal(store, duration, fees, legs);
            Step(env, st, row, bar) == Mark(env, Attempted(env, st, row, bar), row, bar.time + duration)
  {
    hide Attempted, Mark;
    SilentRow(OneSignal(store, duration, fees, legs), st, 1, legs, row, bar);
  }

  lemma AttemptedOne(env: Env, st: State, po: PendingOrder, row: nat, bar: Bar)
    ensures AttemptAll(env, st, [po], row, bar) == AttemptOrder(env, st, po, row, bar)
  {
    hide AttemptOrder;
    assert [po][..0] == [];
    assert AttemptAll(env, st, [], row, bar) == st;
  }

  /** Without slippage a market fill of such a run is at the bar's open. */
  function OpenFill(env: Env, leg: Leg, bar: Bar): Fill {
    Fill(bar.time, leg.symbol, leg.assetType, SideOf(leg), leg.quantity, bar.open, bar.open, 0.0,
         SumFees(if SideOf(leg).Buy? then env.buyFees else env.sellFees, leg.quantity, bar.open, false), None)
  }

  lemma FillsAtOpen(store: Store, duration: nat, fees: seq<TradingFee>, legs: seq<Leg>, leg: Leg, bar: Bar, now: int, draws: nat)
    ensures var env := OneSignal(store, duration, fees, legs);
            MarketFill(env, leg, bar, now, draws) == Executed(OpenFill(env, leg, bar), draws)
  {
    hide SumFees;
    assert Slipped(bar.open, 0.0, SideOf(leg)) == bar.open;
    assert bar.open - bar.open == 0.0 && 0.0 * leg.quantity == 0.0;
  }

  // ---- a stop-limit order that overruns its limit ----

  function StopLimitBuy(symbol: Symbol, limit: Positive, stop: Positive): Leg {
    Leg(symbol, BuySignal, 1.0, Equities, StopLimitOrder, Some(limit), Some(stop), Gtc)
  }

  /** After a second row that trades through the stop, the order waits triggered, under its rewritten leg. */
  lemma {:induction false} StopTriggers(leg: Leg, cash: real, clock: seq<Bar>)
    requires |clock| >= 2 && leg.orderType.StopLimitOrder? && StopTriggered(leg, clock[1]) && leg.timeInForce.Gtc?
    ensures var st := Rows(OneSignal([], 60, [], [leg]), Start(cash, false), clock, 2);
            && st.pending == [PendingOrder(0, AsLimit(leg), 2, true, DateOf(clock[0].time), true)]
            && st.cash == cash && st.positions == [] && st.draws == 0 && |st.history| > 0 && !st.failed && !st.cancelRequested
  {
    hide ViewAt, Step, AttemptAll, MarketValue, StopTriggered;
    var env := OneSignal([], 60, [], [leg]);
    FirstRow([], 60, [], [leg], cash, clock);
    var st := Rows(env, Start(cash, false), clock, 1);
    LaterRow([], 60, [], [leg], st, 1, clock[1]);
    var po := st.pending[0];
    assert st.pending == [po];
    var base := Shown(env, st, clock[1]).(pending := []);
    AttemptedOne(env, base, po, 1, clock[1]);
    assert AttemptOrder(env, base, po, 1, clock[1])
        == base.(pending := [PendingOrder(0, AsLimit(leg), 2, true, DateOf(clock[0].time), true)]);
  }

  /**
   A buy STOP_LIMIT that triggers on the second row is bought at the third row's open, however far
   above its limit that is.
   */
  lemma {:induction false} StopLimitOverruns(symbol: Symbol, limit: Positive, stop: Positive, cash: real, clock: seq<Bar>)
    requires |clock| >= 3 && clock[1].low <= stop <= clock[1].high && clock[2].open > limit
    requires DateOf(clock[2].time) <= DateOf(clock[0].time) && cash >= clock[2].open
    ensures var log := Rows(OneSignal([], 60, [], [StopLimitBuy(symbol, limit, stop)]), Start(cash, false), clock, 3).log;
            exists e :: e in log && e.Filled? && e.id == 0 && e.row == 2 && e.fill.fillPrice == clock[2].open > limit
  {
    hide ViewAt, Step, MarketFill, SumFees, Refusal, ApplyFill, MarketValue, AttemptAll;
    var leg := StopLimitBuy(symbol, limit, stop);
    var env := OneSignal([], 60, [], [leg]);
    StopTriggers(leg, cash, clock);
    var st := Rows(env, Start(cash, false), clock, 2);
    LaterRow([], 60, [], [leg], st, 2, clock[2]);
    var base := Shown(env, st, clock[2]).(pending := []);
    AttemptedOne(env, base, st.pending[0], 2, clock[2]);
    FillsAtOpen([], 60, [], [leg], AsLimit(leg), clock[2], clock[2].time + 60, 0);
    var fill := OpenFill(env, AsLimit(leg), clock[2]);
    NoFees(1.0, clock[2].open, false);
    Affordable(env, base, fill);
    assert AttemptOrder(env, base, st.pending[0], 2, clock[2]) == ApplyFill(env, base, 0, 2, fill);
    LoggedLast(env, base, 0, 2, fill);
    var log := Rows(env, Start(cash, false), clock, 3).log;
    assert log[|base.log|] in log && log[|base.log|].fill.fillPrice == clock[2].open;
  }

  /** A buy that cash covers is not refused. */
  lemma Affordable(env: Env, st: State, fill: Fill)
    requires !IsOption(env, fill.symbol) && fill.side.Buy? && fill.quantity == 1.0 && fill.fillPrice + fill.fees <= st.cash
    ensures Refusal(env, st.cash, st.positions, fill).None?
  {
  }

  lemma LoggedLast(env: Env, st: State, id: nat, row: nat, fill: Fill)
    requires fill.quantity > 0.0
    ensures var log := ApplyFill(env, st, id, row, fill).log;
            |log| == |st.log| + 1 && log[|st.log|].Filled? && log[|st.log|].id == id && log[|st.log|].row == row
            && log[|st.log|].fill == fill.(realizedPnl := log[|st.log|].fill.realizedPnl)
  {
    hide Rebook, StorePosition;
  }

  // ---- looking into an open bar ----

  function DayStore(first: Bar, second: Bar): Store {
    [Series("src", "DAY", 86400, [first, second])]
  }

  lemma DayClock(first: Bar, second: Bar)
    requires first.time < second.time
    ensures UnionClock(DayStore(first, second)) == [first, second]
  {
    var rows := [first, second];
    assert Concatenated(DayStore(first, second)) == rows + [] == rows;
    assert rows[..1] == [first] && [first][..0] == [];
    assert KeepFirst([first], BarTime) == [first];
    assert !HasKey([first], BarTime, second.time);
    assert KeepFirst(rows, BarTime) == rows;
    assert SortBy([first], BarTime) == [first];
    assert SortBy(rows, BarTime) == rows;
  }

  function LimitBuy(limit: Positive): Leg {
    Leg("MIN", BuySignal, 1.0, Equities, LimitOrder, Some(limit), None, Gtc)
  }

  /** The order for a symbol without data meets the clock row itself. */
  lemma MeetsClockRow(first: Bar, second: Bar, limit: Positive, bar: Bar)
    ensures FillBar(OneSignal(DayStore(first, second), 60, [], [LimitBuy(limit)]), "MIN", bar) == bar
  {
    var store, resolve := DayStore(first, second), (symbol: Symbol, source: string) => symbol;
    assert store[1..] == [] && "DAY"[0] != "MIN"[0];
    assert SeriesFor(store, "MIN", resolve) == SeriesFor([], "MIN", resolve) == None;
  }

  /** The second row of the run: the order fills exactly when the open day bar will have traded below the limit. */
  lemma SecondDayRow(first: Bar, second: Bar, limit: Positive, cash: real)
    requires first.time < second.time && cash >= limit
    ensures var env := OneSignal(DayStore(first, second), 60, [], [LimitBuy(limit)]);
            var log := Rows(env, Start(cash, false), [first, second], 2).log;
            (exists e :: e in log && e.Filled?) <==> second.low < limit
  {
    hide ViewAt, Step, LimitFill, SumFees, Refusal, ApplyFill, MarketValue, AttemptAll, FillBar;
    var leg, clock := LimitBuy(limit), [first, second];
    var store := DayStore(first, second);
    var env := OneSignal(store, 60, [], [leg]);
    FirstRow(store, 60, [], [leg], cash, clock);
    var st := Rows(env, Start(cash, false), clock, 1);
    LaterRow(store, 60, [], [leg], st, 1, second);
    var po := st.pending[0];
    assert st.pending == [po];
    var base := Shown(env, st, second).(pending := []);
    AttemptedOne(env, base, po, 1, second);
    MeetsClockRow(first, second, limit, second);
    FillsAtLimit(store, leg, second, second.time + 60);
    var a := LimitFill(env, leg, second, second.time + 60, 0);
    if second.low < limit {
      Affordable(env, base, a.fill);
      assert AttemptOrder(env, base, po, 1, second) == ApplyFill(env, base, 0, 1, a.fill);
      LoggedLast(env, base, 0, 1, a.fill);
      var log := Rows(env, Start(cash, false), clock, 2).log;
      assert log[|base.log|] in log && log[|base.log|].Filled?;
    } else {
      assert AttemptOrder(env, base, po, 1, second).log == base.log;
    }
  }

  lemma FillsAtLimit(store: Store, leg: Leg, bar: Bar, now: int)
    requires leg.limitPrice.Some? && SideOf(leg).Buy?
    ensures var a := LimitFill(OneSignal(store, 60, [], [leg]), leg, bar, now, 0);
            if bar.low < leg.limitPrice.value
            then a.Executed? && a.draws == 0 && a.fill.fillPrice == leg.limitPrice.value && a.fill.fees == 0.0
                 && a.fill.symbol == leg.symbol && a.fill.side.Buy? && a.fill.quantity == leg.quantity
            else a.NotExecuted?
  {
  }

  /**
   With mixed timeframes a run looks ahead. Replay day bars on a one-minute clock and trade a symbol
   without data: two stores that differ only in the low of a bar that closes 86340 seconds later
   show the algorithm the same data, yet one run has filled and the other has not.
   */
  lemma {:induction false} MixedTimeframesLookAhead(first: Bar, second: Bar, low: real, limit: Positive, cash: real)
    requires first.time < second.time && second.low < limit <= low && cash >= limit
    ensures var other := second.(low := low);
            var env, changed := OneSignal(DayStore(first, second), 60, [], [LimitBuy(limit)]),
                                OneSignal(DayStore(first, other), 60, [], [LimitBuy(limit)]);
            && UnionClock(env.store) == [first, second] && UnionClock(changed.store) == [first, other]
            && Visible(env.store, second.time + 60) == Visible(changed.store, second.time + 60)
            && (exists e :: e in Rows(env, Start(cash, false), UnionClock(env.store), 2).log && e.Filled?)
            && !(exists e :: e in Rows(changed, Start(cash, false), UnionClock(changed.store), 2).log && e.Filled?)
  {
    hide Step, ViewAt;
    var other := second.(low := low);
    DayClock(first, second);
    DayClock(first, other);
    SecondDayRow(first, second, limit, cash);
    SecondDayRow(first, other, limit, cash);
    OpenBarUnseen(first, second, second.time + 60);
    OpenBarUnseen(first, other, second.time + 60);
  }

  lemma OpenBarUnseen(first: Bar, second: Bar, now: int)
    requires first.time < second.time && now < second.time + 86400
    ensures Visible(DayStore(first, second), now) == [Series("src", "DAY", 86400, if first.time + 86400 <= now then [first] else [])]
  {
    hide Visible;
    var store := DayStore(first, second);
    VisibleIsClosed(store, now, 0);
    FirstRowUpTo(first, second, now - 86400);
    assert |Visible(store, now)| == 1;
  }

  lemma FirstRowUpTo(first: Bar, second: Bar, t: int)
    requires t < second.time
    ensures UpTo([first, second], BarTime, t) == if first.time <= t then [first] else []
  {
    var rows := [first, second];
    assert rows[..1] == [first] && [first][..0] == [];
    assert UpTo(rows[..1], BarTime, t) == if first.time <= t then [first] else [];
  }
}
