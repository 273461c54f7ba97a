/**
 No look-ahead for the whole run: change every bar after a clock row and nothing that happened up
 to that row changes, for any algorithm.
 */
module CausalityProofs {
  import opened Common
  import opened OrderedDict
  import opened Timeline
  import opened Market
  import opened Orders
  import opened EngineSpec

  /** `other` is a store with the same past at `now`: all that has closed by then is the same. */
  ghost predicate SamePast(env: Env, other: Store, now: int) {
    WellFormed(env.store) && WellFormed(other) && AgreeClosed(env.store, other, now)
  }

  function With(env: Env, other: Store): Env {
    env.(store := other)
  }

  lemma {:induction false} UnderlyingAgree(a: Store, b: Store, now: int, underlying: Symbol)
    requires WellFormed(a) && WellFormed(b) && AgreeClosed(a, b, now)
    ensures UnderlyingPrice(a, underlying, now) == UnderlyingPrice(b, underlying, now)
  {
    if a != [] {
      if a[0].symbol == underlying {
        ClosedAgree(a[0].bars, b[0].bars, a[0].duration, now);
      } else {
        AgreeTail(a, b, now);
        UnderlyingAgree(a[1..], b[1..], now, underlying);
      }
    }
  }

  // ---- fills ----

  lemma MarketFillAgree(env: Env, other: Store, leg: Leg, bar: Bar, now: int, draws: nat)
    ensures MarketFill(env, leg, bar, now, draws) == MarketFill(With(env, other), leg, bar, now, draws)
  {
    hide SumFees, VolumeImpact, Slipped, Between, Abs;
    assert BaseMarketPrice(env, bar, SideOf(leg), CostsFor(env, leg).slippage, draws)
        == BaseMarketPrice(With(env, other), bar, SideOf(leg), CostsFor(env, leg).slippage, draws);
  }

  lemma LimitFillAgree(env: Env, other: Store, leg: Leg, bar: Bar, now: int, draws: nat)
    ensures LimitFill(env, leg, bar, now, draws) == LimitFill(With(env, other), leg, bar, now, draws)
  {
    hide SumFees, SlippedLimit, Abs;
    assert CostsFor(env, leg) == CostsFor(With(env, other), leg);
  }

  lemma TryFillAgree(env: Env, other: Store, po: PendingOrder, bar: Bar, draws: nat)
    requires SamePast(env, other, bar.time + env.duration)
    ensures TryFillAt(env, po, bar, draws) == TryFillAt(With(env, other), po, bar, draws)
  {
    hide MarketFill, LimitFill, LookupBar;
    LookupAgree(env.store, other, bar.time + env.duration, po.leg.symbol, env.resolve);
    MarketFillAgree(env, other, po.leg, FillBar(env, po.leg.symbol, bar), bar.time + env.duration, draws);
    LimitFillAgree(env, other, po.leg, FillBar(env, po.leg.symbol, bar), bar.time + env.duration, draws);
  }

  lemma BookAgree(env: Env, other: Store, st: State, po: PendingOrder, row: nat, fill: Fill)
    requires fill.quantity > 0.0
    ensures BookOrRefuse(env, st, po, row, fill) == BookOrRefuse(With(env, other), st, po, row, fill)
  {
    hide Worth, Rebook, StorePosition, Find;
  }

  lemma AttemptAgree(env: Env, other: Store, st: State, po: PendingOrder, row: nat, bar: Bar)
    requires SamePast(env, other, bar.time + env.duration)
    ensures AttemptOrder(env, st, po, row, bar) == AttemptOrder(With(env, other), st, po, row, bar)
  {
    hide TryFillAt, BookOrRefuse, SamePast;
    var tried := po.(attempted := true);
    TryFillAgree(env, other, tried, bar, st.draws);
    match TryFillAt(env, tried, bar, st.draws) {
      case Executed(fill, draws) => BookAgree(env, other, st.(draws := draws), tried, row, fill);
      case Triggered(leg) =>
      case NotExecuted =>
    }
  }

  lemma {:induction false} AttemptAllAgree(env: Env, other: Store, st: State, todo: seq<PendingOrder>, row: nat, bar: Bar)
    requires SamePast(env, other, bar.time + env.duration)
    ensures AttemptAll(env, st, todo, row, bar) == AttemptAll(With(env, other), st, todo, row, bar)
  {
    hide AttemptOrder, SamePast;
    if todo != [] {
      var rest := todo[..|todo| - 1];
      AttemptAllAgree(env, other, st, rest, row, bar);
      AttemptAgree(env, other, AttemptAll(env, st, rest, row, bar), todo[|todo| - 1], row, bar);
    }
  }

  // ---- what the algorithm is shown ----

  lemma MarkAgree(env: Env, other: Store, symbol: Symbol, ps: Position, now: int)
    requires SamePast(env, other, now)
    ensures MarkPrice(env, symbol, ps, now) == MarkPrice(With(env, other), symbol, ps, now)
  {
    hide LookupBar;
    LookupAgree(env.store, other, now, symbol, env.resolve);
  }

  lemma {:induction false} MarketValueAgree(env: Env, other: Store, positions: Positions, now: int)
    requires SamePast(env, other, now)
    ensures MarketValue(env, positions, now) == MarketValue(With(env, other), positions, now)
  {
    hide MarkPrice, SamePast;
    if positions != [] {
      MarketValueAgree(env, other, positions[..|positions| - 1], now);
      MarkAgree(env, other, positions[|positions| - 1].key, positions[|positions| - 1].value, now);
    }
  }

  lemma {:induction false} ContextAgree(env: Env, other: Store, positions: Positions, now: int)
    requires SamePast(env, other, now)
    ensures ContextPositions(env, positions, now) == ContextPositions(With(env, other), positions, now)
  {
    hide MarkPrice, SamePast;
    if positions != [] {
      ContextAgree(env, other, positions[..|positions| - 1], now);
      MarkAgree(env, other, positions[|positions| - 1].key, positions[|positions| - 1].value, now);
    }
  }

  lemma TickAgree(env: Env, other: Store, st: State, row: nat, bar: Bar)
    requires SamePast(env, other, bar.time + env.duration)
    ensures Tick(env, st, row, bar) == Tick(With(env, other), st, row, bar)
  {
    hide MarketValue, ContextPositions, Visible, QueueSignals;
    var now := bar.time + env.duration;
    VisibleAgree(env.store, other, now);
    MarketValueAgree(env, other, st.positions, now);
    ContextAgree(env, other, st.positions, now);
  }

  // ---- expiry and the row ----

  lemma ExpiryAgree(env: Env, other: Store, symbol: Symbol, quantity: real, avgPrice: real, now: int)
    requires SamePast(env, other, now)
    ensures HandleExpiry(env, symbol, quantity, avgPrice, now) == HandleExpiry(With(env, other), symbol, quantity, avgPrice, now)
  {
    hide Worth, UnderlyingPrice;
    if IsOption(env, symbol) && env.contractOf(symbol).Some? {
      UnderlyingAgree(env.store, other, now, env.contractOf(symbol).value.underlying);
    }
  }

  lemma {:induction false} SettleAgree(env: Env, other: Store, st: State, held: Positions, row: nat, now: int)
    requires SamePast(env, other, now)
    ensures SettleAll(env, st, held, row, now) == SettleAll(With(env, other), st, held, row, now)
  {
    hide HandleExpiry, SamePast, Worth;
    if held != [] {
      SettleAgree(env, other, st, held[..|held| - 1], row, now);
      var e := held[|held| - 1];
      ExpiryAgree(env, other, e.key, e.value.quantity, e.value.avgPrice, now);
    }
  }

  lemma {:induction false} DropAgree(env: Env, other: Store, st: State, orders: seq<PendingOrder>, row: nat, now: int)
    requires SamePast(env, other, now)
    ensures DropAll(env, st, orders, row, now) == DropAll(With(env, other), st, orders, row, now)
  {
    hide HandleExpiry, SamePast;
    if orders != [] {
      DropAgree(env, other, st, orders[..|orders| - 1], row, now);
      ExpiryAgree(env, other, orders[|orders| - 1].leg.symbol, 1.0, 0.0, now);
    }
  }

  lemma StepAgree(env: Env, other: Store, st: State, row: nat, bar: Bar)
    requires SamePast(env, other, bar.time + env.duration)
    ensures Step(env, st, row, bar) == Step(With(env, other), st, row, bar)
  {
    hide Tick, AttemptAll, RejectAll, SettleAll, DropAll, MarketValue, SamePast;
    var now := bar.time + env.duration;
    TickAgree(env, other, st, row, bar);
    var ticked := Tick(env, st, row, bar);
    AttemptAllAgree(env, other, ticked.(pending := []), ticked.pending, row, bar);
    var traded := Trade(env, st, row, bar);
    SettleAgree(env, other, traded, traded.positions, row, now);
    var settled := SettleAll(env, traded, traded.positions, row, now);
    DropAgree(env, other, settled.(pending := []), settled.pending, row, now);
    MarketValueAgree(env, other, DropExpired(env, settled, row, now).positions, now);
  }

  lemma {:induction false} RowsAgree(env: Env, other: Store, st: State, clock: seq<Bar>, n: nat)
    requires n <= |clock| && Increasing(clock, BarTime) && WellFormed(env.store) && WellFormed(other)
    requires n > 0 ==> AgreeClosed(env.store, other, clock[n - 1].time + env.duration)
    ensures Rows(env, st, clock, n) == Rows(With(env, other), st, clock, n)
  {
    hide Step;
    if n > 0 {
      if n > 1 {
        assert BarTime(clock[n - 2]) < BarTime(clock[n - 1]);
        AgreeEarlier(env.store, other, clock[n - 1].time + env.duration, clock[n - 2].time + env.duration);
      }
      RowsAgree(env, other, st, clock, n - 1);
      StepAgree(env, other, Rows(env, st, clock, n - 1), n - 1, clock[n - 1]);
    }
  }

  lemma {:induction false} RowsOfPrefix(env: Env, st: State, a: seq<Bar>, b: seq<Bar>, n: nat)
    requires n <= |a| && n <= |b| && a[..n] == b[..n]
    ensures Rows(env, st, a, n) == Rows(env, st, b, n)
  {
    hide Step;
    if n > 0 {
      assert a[..n - 1] == a[..n][..n - 1] == b[..n][..n - 1] == b[..n - 1];
      assert a[n - 1] == a[..n][n - 1] == b[..n][n - 1] == b[n - 1];
      RowsOfPrefix(env, st, a, b, n - 1);
    }
  }

  /**
   Causality. Take two stores of sorted, non-empty series with the same keys and durations, whose
   union clocks take every row from a series no longer than the clock's own timeframe, and which
   agree, series by series, on every bar that has closed at the simulated time of row `k`. Run any
   algorithm on each, with the same option quotes. After row `k` the two runs are in the same state:
   cash, positions, pending orders, random draws, everything emitted, filled, rejected or marked, and
   everything shown to the algorithm.
   */
  lemma {:induction false} Causality(env: Env, other: Store, cash0: real, cancelled: bool, k: nat)
    requires WellFormed(env.store) && WellFormed(other) && k < |UnionClock(env.store)|
    requires ClockCloses(env.store, env.duration) && ClockCloses(other, env.duration)
    requires AgreeClosed(env.store, other, UnionClock(env.store)[k].time + env.duration)
    ensures k < |UnionClock(other)|
    ensures Rows(env, Start(cash0, cancelled), UnionClock(env.store), k + 1)
         == Rows(With(env, other), Start(cash0, cancelled), UnionClock(other), k + 1)
  {
    hide Step, UnionClock, ClockCloses, AgreeClosed;
    var clock := UnionClock(env.store);
    UnionClockPrefix(env.store, other, env.duration, k);
    UnionClockRows(env.store);
    RowsAgree(env, other, Start(cash0, cancelled), clock, k + 1);
    RowsOfPrefix(With(env, other), Start(cash0, cancelled), clock, UnionClock(other), k + 1);
  }

  ghost predicate OneTimeframe(store: Store, duration: nat) {
    forall i :: 0 <= i < |store| ==> store[i].duration == duration
  }

  /** With one shared timeframe the clock never waits for a longer bar. */
  lemma {:induction false} OneTimeframeCloses(store: Store, duration: nat)
    requires OneTimeframe(store, duration)
    ensures ClockCloses(store, duration)
  {
    hide UnionClock;
    UnionClockRows(store);
    forall k | 0 <= k < |UnionClock(store)| ensures StampCloses(store, duration, UnionClock(store)[k].time) {
      FirstSeriesIsMember(store, UnionClock(store)[k].time);
    }
  }

  // ---- the bar a fill is priced from ----

  /**
   Whatever the timeframes, the bar an order is tried against is its own symbol's newest bar closed
   at the row's simulated time; only a symbol with no closed bar falls back to the clock row.
   */
  lemma FillBarIsNewestClosed(env: Env, symbol: Symbol, bar: Bar)
    requires WellFormed(env.store)
    ensures forall i: nat :: IsOwnSeries(env.store, symbol, env.resolve, i) ==>
              var closed := UpTo(env.store[i].bars, BarTime, bar.time + env.duration - env.store[i].duration);
              FillBar(env, symbol, bar) == if closed == [] then bar else closed[|closed| - 1]
    ensures (forall i :: 0 <= i < |env.store| ==> !Carries(env.store[i], symbol, env.resolve)) ==> FillBar(env, symbol, bar) == bar
  {
    hide LastClosed, UpTo;
    SeriesForIsFirst(env.store, symbol, env.resolve);
    forall i: nat | IsOwnSeries(env.store, symbol, env.resolve, i)
      ensures var closed := UpTo(env.store[i].bars, BarTime, bar.time + env.duration - env.store[i].duration);
              FillBar(env, symbol, bar) == if closed == [] then bar else closed[|closed| - 1]
    {
      OwnSeriesFound(env.store, symbol, env.resolve, i);
      LastClosedIsNewest(env.store[i].bars, env.store[i].duration, bar.time + env.duration);
    }
  }

  /** How long the bar an order for `symbol` meets at a clock row takes to close: that of the series it comes from. */
  function FillDuration(env: Env, symbol: Symbol, row: Bar): nat {
    var own := SeriesFor(env.store, symbol, env.resolve);
    if own.Some? && LastClosed(own.value.bars, own.value.duration, row.time + env.duration).Some? then own.value.duration
    else match FirstSeries(env.store, row.time)
      case None => env.duration
      case Some(s) => s.duration
  }

  /** The bar an order for `symbol` meets has closed at the row's simulated time. */
  predicate MeetsClosedBar(env: Env, symbol: Symbol, row: Bar) {
    FillBar(env, symbol, row).time + FillDuration(env, symbol, row) <= row.time + env.duration
  }

  lemma ClosedRowClosedBar(env: Env, symbol: Symbol, row: Bar)
    requires WellFormed(env.store) && StampCloses(env.store, env.duration, row.time)
    ensures MeetsClosedBar(env, symbol, row)
  {
    var own := SeriesFor(env.store, symbol, env.resolve);
    if own.Some? {
      SeriesForIsFirst(env.store, symbol, env.resolve);
      if LastClosed(own.value.bars, own.value.duration, row.time + env.duration).Some? {
        LastClosedNoLookAhead(own.value.bars, own.value.duration, row.time + env.duration);
      }
    }
  }

  /** With one shared timeframe, at every row of the union clock every symbol meets a bar that has closed. */
  lemma {:induction false} FillBarNoLookAhead(env: Env, symbol: Symbol, k: nat)
    requires WellFormed(env.store) && k < |UnionClock(env.store)|
    requires OneTimeframe(env.store, env.duration)
    ensures MeetsClosedBar(env, symbol, UnionClock(env.store)[k])
  {
    hide FillBar, FillDuration, UnionClock;
    OneTimeframeCloses(env.store, env.duration);
    ClosedRowClosedBar(env, symbol, UnionClock(env.store)[k]);
  }

  lemma {:induction false} FirstSeriesIsMember(store: Store, t: int)
    requires FirstSeries(store, t).Some?
    ensures exists i :: 0 <= i < |store| && store[i] == FirstSeries(store, t).value
  {
    if FirstAt(store[0].bars, t).None? {
      FirstSeriesIsMember(store[1..], t);
      var i :| 0 <= i < |store[1..]| && store[1..][i] == FirstSeries(store, t).value;
      assert store[i + 1] == store[1..][i];
    }
  }

  /** A name longer than every name in the store. */
  function UnlistedName(store: Store): (name: Symbol)
    ensures forall i :: 0 <= i < |store| ==> |store[i].symbol| < |name|
  {
    if store == [] then ""
    else
      var name := UnlistedName(store[1..]);
      assert forall i :: 0 < i < |store| ==> store[i] == store[1..][i - 1];
      if |store[0].symbol| < |name| then name else store[0].symbol + "X"
  }

  const ByName: (Symbol, string) -> Symbol := (symbol: Symbol, source: string) => symbol

  lemma {:induction false} Unlisted(store: Store, name: Symbol)
    requires forall i :: 0 <= i < |store| ==> |store[i].symbol| < |name|
    ensures SeriesFor(store, name, ByName).None?
  {
    if store != [] {
      assert store[0].symbol != name;
      Unlisted(store[1..], name);
    }
  }

  /** However symbols are resolved, every symbol meets a closed bar at every row of the union clock. */
  ghost predicate NeverLooksAhead(env: Env) {
    forall resolve, symbol, k :: 0 <= k < |UnionClock(env.store)| ==>
      MeetsClosedBar(env.(resolve := resolve), symbol, UnionClock(env.store)[k])
  }

  /**
   When the clock looks ahead: every symbol meets a closed bar at every row exactly when every row
   of the union clock comes from a series whose bars are no longer than the clock's own.
   */
  lemma NoLookAheadExactly(env: Env)
    requires WellFormed(env.store)
    ensures NeverLooksAhead(env) <==> ClockCloses(env.store, env.duration)
  {
    hide UnionClock, FillBar, FillDuration, UnlistedName;
    UnionClockRows(env.store);
    if ClockCloses(env.store, env.duration) {
      forall resolve, symbol, k | 0 <= k < |UnionClock(env.store)|
        ensures MeetsClosedBar(env.(resolve := resolve), symbol, UnionClock(env.store)[k])
      {
        assert StampCloses(env.store, env.duration, UnionClock(env.store)[k].time);
        ClosedRowClosedBar(env.(resolve := resolve), symbol, UnionClock(env.store)[k]);
      }
    }
    if NeverLooksAhead(env) {
      var name := UnlistedName(env.store);
      forall k | 0 <= k < |UnionClock(env.store)| ensures StampCloses(env.store, env.duration, UnionClock(env.store)[k].time) {
        assert MeetsClosedBar(env.(resolve := ByName), name, UnionClock(env.store)[k]);
        UnlistedMeetsRow(env.(resolve := ByName), name, UnionClock(env.store)[k]);
      }
    }
  }

  /** A symbol without data meets the clock row itself. */
  lemma UnlistedMeetsRow(env: Env, name: Symbol, row: Bar)
    requires env.resolve == ByName && (forall i :: 0 <= i < |env.store| ==> |env.store[i].symbol| < |name|)
    requires FirstSeries(env.store, row.time).Some?
    ensures MeetsClosedBar(env, name, row) <==> StampCloses(env.store, env.duration, row.time)
  {
    Unlisted(env.store, name);
  }
}
