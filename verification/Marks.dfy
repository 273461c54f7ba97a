/** What a position is marked at: in every equity point and in everything an algorithm is shown. */
module Marks {
  import opened OrderedDict
  import opened Timeline
  import opened Market
  import opened Orders
  import opened EngineSpec
  import opened AccountProofs

  /** The close of the newest closed bar of series `i`, when there is one and it is not zero. */
  function CloseOr(s: Series, now: int, otherwise: real): real {
    var closed := UpTo(s.bars, BarTime, now - s.duration);
    if closed != [] && closed[|closed| - 1].close != 0.0 then closed[|closed| - 1].close else otherwise
  }

  /** `mark` is what a position of anything but an option is marked at. */
  ghost predicate IsStockMark(env: Env, symbol: Symbol, avgPrice: real, now: int, mark: real) {
    && (forall i: nat :: IsOwnSeries(env.store, symbol, env.resolve, i) ==> mark == CloseOr(env.store[i], now, avgPrice))
    && ((forall i :: 0 <= i < |env.store| ==> !Carries(env.store[i], symbol, env.resolve)) ==> mark == avgPrice)
  }

  /** A stock is marked at the close of its own newest closed bar, and at cost when there is none or it is zero. */
  lemma MarkIsNewestClose(env: Env, symbol: Symbol, ps: Position, now: int)
    requires WellFormed(env.store) && !IsOption(env, symbol)
    ensures IsStockMark(env, symbol, ps.avgPrice, now, MarkPrice(env, symbol, ps, now))
  {
    hide LastClosed, UpTo;
    SeriesForIsFirst(env.store, symbol, env.resolve);
    forall i: nat | IsOwnSeries(env.store, symbol, env.resolve, i)
      ensures MarkPrice(env, symbol, ps, now) == CloseOr(env.store[i], now, ps.avgPrice)
    {
      OwnSeriesFound(env.store, symbol, env.resolve, i);
      LastClosedIsNewest(env.store[i].bars, env.store[i].duration, now);
    }
  }

  /** `mark` is what the position is marked at: an option at its model value, anything else as a stock. */
  ghost predicate IsMark(env: Env, e: Entry<Symbol, Position>, now: int, mark: real) {
    if env.assetTypeOf(e.key).Options? then mark == env.optionMark(e.key, e.value.quantity, now)
    else IsStockMark(env, e.key, e.value.avgPrice, now, mark)
  }

  ghost predicate AreMarks(env: Env, positions: Positions, now: int, marks: seq<real>) {
    |marks| == |positions| && forall i :: 0 <= i < |positions| ==> IsMark(env, positions[i], now, marks[i])
  }

  /** Mark times quantity, a hundredfold for options. */
  function ValueAt(env: Env, positions: Positions, marks: seq<real>): real
    requires |marks| == |positions|
  {
    if positions == [] then 0.0
    else
      var e := positions[0];
      Worth(marks[0], e.value.quantity, if env.assetTypeOf(e.key).Options? then 100.0 else 1.0)
      + ValueAt(env, positions[1..], marks[1..])
  }

  function MarksOf(env: Env, positions: Positions, now: int): (marks: seq<real>)
    ensures |marks| == |positions|
  {
    seq(|positions|, i requires 0 <= i < |positions| => MarkPrice(env, positions[i].key, positions[i].value, now))
  }

  lemma MarksAreMarks(env: Env, positions: Positions, now: int)
    requires WellFormed(env.store)
    ensures AreMarks(env, positions, now, MarksOf(env, positions, now))
  {
    hide IsStockMark, NonOptionPrice;
    forall i | 0 <= i < |positions| ensures IsMark(env, positions[i], now, MarksOf(env, positions, now)[i]) {
      if !IsOption(env, positions[i].key) {
        MarkIsNewestClose(env, positions[i].key, positions[i].value, now);
      }
    }
  }

  lemma {:induction false} ValueOfMarks(env: Env, positions: Positions, now: int)
    ensures MarketValue(env, positions, now) == ValueAt(env, positions, MarksOf(env, positions, now))
  {
    hide MarkPrice, MarketValue, Worth;
    if positions == [] {
      NoMarketValue(env, now);
    } else {
      MarketValueFront(env, positions, now);
      ValueOfMarks(env, positions[1..], now);
      assert MarksOf(env, positions, now)[1..] == MarksOf(env, positions[1..], now);
      var e := positions[0];
      WorthAdds(MarkPrice(env, e.key, e.value, now), e.value.avgPrice, e.value.quantity, 0.0, Multiplier(env, e.key));
    }
  }

  // ---- in every run ----

  lemma {:induction false} AttemptAllShows(env: Env, st: State, todo: seq<PendingOrder>, row: nat, bar: Bar)
    ensures AttemptAll(env, st, todo, row, bar).history == st.history
  {
    hide TryFillAt, Refusal, Rebook, StorePosition, Notional;
    if todo != [] {
      AttemptAllShows(env, st, todo[..|todo| - 1], row, bar);
    }
  }

  lemma {:induction false} SettleAllShows(env: Env, st: State, held: Positions, row: nat, now: int)
    ensures SettleAll(env, st, held, row, now).history == st.history
  {
    hide HandleExpiry, Worth;
    if held != [] {
      SettleAllShows(env, st, held[..|held| - 1], row, now);
    }
  }

  lemma {:induction false} DropAllShows(env: Env, st: State, orders: seq<PendingOrder>, row: nat, now: int)
    ensures DropAll(env, st, orders, row, now).history == st.history
  {
    hide HandleExpiry;
    if orders != [] {
      DropAllShows(env, st, orders[..|orders| - 1], row, now);
    }
  }

  /** A row shows the algorithm one view, taken before anything else happens. */
  lemma StepShows(env: Env, st: State, row: nat, bar: Bar)
    requires !st.failed
    ensures Step(env, st, row, bar).history == st.history + [ViewAt(env, st, bar.time + env.duration)]
  {
    hide ViewAt, QueueSignals, AttemptAll, RejectAll, SettleAll, DropAll, MarketValue;
    var now := bar.time + env.duration;
    var history := st.history + [ViewAt(env, st, now)];
    var decision := env.algorithm(history);
    QueueSignalsFrame(st.(history := history, cancelRequested := st.cancelRequested || decision.cancelAll),
                      decision.signals, row, bar);
    var ticked := Tick(env, st, row, bar);
    AttemptAllShows(env, ticked.(pending := []), ticked.pending, row, bar);
    var processed := ProcessPending(env, ticked, row, bar);
    RejectAllFrame(processed, processed.pending, row, CancelledByAlgorithm);
    var traded := Trade(env, st, row, bar);
    SettleAllShows(env, traded, traded.positions, row, now);
    var settled := SettleAll(env, traded, traded.positions, row, now);
    DropAllShows(env, settled.(pending := []), settled.pending, row, now);
  }

  lemma {:induction false} ContextShowsMarks(env: Env, positions: Positions, now: int)
    ensures var shown, marks := ContextPositions(env, positions, now), MarksOf(env, positions, now);
            |shown| == |positions| && forall i :: 0 <= i < |positions| ==>
              var e := positions[i];
              shown[i] == PositionView(e.key, e.value.quantity, e.value.avgPrice,
                                       if marks[i] == 0.0 then e.value.avgPrice else marks[i], e.value.assetType)
  {
    hide MarkPrice;
    if positions != [] {
      ContextShowsMarks(env, positions[..|positions| - 1], now);
    }
  }

  /** A view shows the account at its marks, and of every series the bars that have closed. */
  ghost predicate ShowsAccount(env: Env, st: State, now: int, v: View, marks: seq<real>)
    requires |marks| == |st.positions|
  {
    && v.now == now && v.cash == st.cash && v.accountValue == st.cash + ValueAt(env, st.positions, marks)
    && |v.positions| == |st.positions| && |v.visible| == |env.store|
    && (forall i :: 0 <= i < |v.positions| ==>
          var e := st.positions[i];
          v.positions[i] == PositionView(e.key, e.value.quantity, e.value.avgPrice,
                                         if marks[i] == 0.0 then e.value.avgPrice else marks[i], e.value.assetType))
    && forall i :: 0 <= i < |v.visible| ==>
         v.visible[i] == env.store[i].(bars := UpTo(env.store[i].bars, BarTime, now - env.store[i].duration))
  }

  lemma ViewShowsAccount(env: Env, st: State, now: int)
    requires WellFormed(env.store)
    ensures ShowsAccount(env, st, now, ViewAt(env, st, now), MarksOf(env, st.positions, now))
  {
    hide MarketValue, ContextPositions, MarksOf, ValueAt, UpTo, Visible;
    ValueOfMarks(env, st.positions, now);
    ContextShowsMarks(env, st.positions, now);
    forall i | 0 <= i < |env.store|
      ensures Visible(env.store, now)[i] == env.store[i].(bars := UpTo(env.store[i].bars, BarTime, now - env.store[i].duration))
    {
      VisibleIsClosed(env.store, now, i);
    }
  }

  ghost predicate ShowsMarks(env: Env, st: State, now: int, v: View) {
    exists marks :: AreMarks(env, st.positions, now, marks) && ShowsAccount(env, st, now, v, marks)
  }

  lemma ViewShowsMarks(env: Env, st: State, now: int)
    requires WellFormed(env.store)
    ensures ShowsMarks(env, st, now, ViewAt(env, st, now))
  {
    hide AreMarks, ShowsAccount, ViewAt;
    MarksAreMarks(env, st.positions, now);
    ViewShowsAccount(env, st, now);
  }

  /**
   What an algorithm is shown at row `n` of a run: cash, and every position at its mark. A stock is
   marked at the close of its newest closed bar, and at cost when there is none.
   */
  lemma {:induction false} ViewsAreMarked(env: Env, cash0: real, cancelled: bool, clock: seq<Bar>, n: nat)
    requires WellFormed(env.store) && n < |clock| && !Rows(env, Start(cash0, cancelled), clock, n).failed
    ensures var st, history := Rows(env, Start(cash0, cancelled), clock, n), Rows(env, Start(cash0, cancelled), clock, n + 1).history;
            && |history| == |st.history| + 1 && st.history <= history
            && ShowsMarks(env, st, clock[n].time + env.duration, history[|st.history|])
  {
    hide Step, ShowsMarks, ViewAt;
    var st := Rows(env, Start(cash0, cancelled), clock, n);
    StepShows(env, st, n, clock[n]);
    ViewShowsMarks(env, st, clock[n].time + env.duration);
  }

  /** The equity point of each row of a run: cash plus every position at its mark. */
  lemma {:induction false} EquityIsMarked(env: Env, cash0: real, cancelled: bool, clock: seq<Bar>, n: nat)
    requires WellFormed(env.store) && 0 < n <= |clock| && !Rows(env, Start(cash0, cancelled), clock, n).failed
    ensures var st, now := Rows(env, Start(cash0, cancelled), clock, n), clock[n - 1].time + env.duration;
            st.log != [] && IsMarkedPoint(env, st, n - 1, now, st.log[|st.log| - 1])
  {
    hide Step, MarketValue, IsMarkedPoint;
    var st, now := Rows(env, Start(cash0, cancelled), clock, n), clock[n - 1].time + env.duration;
    StepEndsWithMark(env, Rows(env, Start(cash0, cancelled), clock, n - 1), n - 1, clock[n - 1]);
    PointIsMarked(env, st, n - 1, now);
  }

  /** The equity point says what cash there is, and what it is worth with every position at its mark. */
  ghost predicate IsMarkedPoint(env: Env, st: State, row: nat, now: int, e: Event) {
    exists marks :: AreMarks(env, st.positions, now, marks)
                    && e == EquityPoint(row, now, st.cash + ValueAt(env, st.positions, marks), st.cash)
  }

  lemma PointIsMarked(env: Env, st: State, row: nat, now: int)
    requires WellFormed(env.store)
    ensures IsMarkedPoint(env, st, row, now, EquityPoint(row, now, st.cash + MarketValue(env, st.positions, now), st.cash))
  {
    hide AreMarks, MarketValue, ValueAt, MarksOf;
    MarksAreMarks(env, st.positions, now);
    ValueOfMarks(env, st.positions, now);
  }
}
