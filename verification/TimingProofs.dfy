/** When orders may fill: never on the row that emitted them, stops a row later, DAY orders only on their day. */
module TimingProofs {
  import opened Common
  import opened Timeline
  import opened Market
  import opened Orders
  import opened EngineSpec

  predicate IsStop(leg: Leg) {
    leg.orderType.StopOrder? || leg.orderType.StopLimitOrder?
  }

  /** The leg an emitted stop becomes once its trigger has fired. */
  function AfterTrigger(leg: Leg): Leg {
    if leg.orderType.StopLimitOrder? then AsLimit(leg) else leg
  }

  /** The leg that is in the queue when an emitted leg fills. */
  function FillingLeg(leg: Leg): Leg {
    if IsStop(leg) then AfterTrigger(leg) else leg
  }

  /** A pending order at the head of row `b`, traced back to its emission. */
  ghost predicate Timely(emitted: seq<Emission>, po: PendingOrder, b: nat) {
    && po.id < |emitted|
    && var e := emitted[po.id];
    && e.row < b && po.scheduledFor == b && po.createdDate == e.date
    && (po.attempted <==> e.row + 1 < b)
    && (po.stopTriggered ==> IsStop(e.leg) && e.row + 2 <= b)
    && po.leg == if po.stopTriggered then AfterTrigger(e.leg) else e.leg
  }

  ghost predicate AllTimely(emitted: seq<Emission>, orders: seq<PendingOrder>, b: nat) {
    forall i :: 0 <= i < |orders| ==> Timely(emitted, orders[i], b)
  }

  /** During row `b` the queue holds the orders due at `b`, then the ones just emitted, due at `b + 1`. */
  ghost predicate DueOrNext(emitted: seq<Emission>, orders: seq<PendingOrder>, b: nat) {
    forall i :: 0 <= i < |orders| ==> Timely(emitted, orders[i], b) || Timely(emitted, orders[i], b + 1)
  }

  /** What the simulation makes of an emitted leg once it may fill: a limit order by its limit, all others at market. */
  function Simulated(env: Env, leg: Leg, bar: Bar, now: int, draws: nat): Attempt {
    if leg.orderType.LimitOrder? then LimitFill(env, leg, bar, now, draws) else MarketFill(env, FillingLeg(leg), bar, now, draws)
  }

  /** `fill` is what the simulation gives for `leg` against its own bar at the clock row `row`, at this point of the random stream. */
  predicate PricedBy(env: Env, leg: Leg, row: Bar, fill: Fill, draws: nat) {
    var a := Simulated(env, leg, FillBar(env, leg.symbol, row), row.time + env.duration, draws);
    a.Executed? && a.fill == fill.(realizedPnl := None)
  }

  ghost predicate PricedAt(env: Env, leg: Leg, row: Bar, fill: Fill) {
    exists draws: nat :: PricedBy(env, leg, row, fill, draws)
  }

  /** The date rule, the delays and the price of one recorded fill. */
  ghost predicate FillTimely(env: Env, emitted: seq<Emission>, clock: seq<Bar>, e: Event) {
    e.Filled? ==>
      && e.id < |emitted| && e.row < |clock|
      && var m := emitted[e.id];
      && m.row + 1 <= e.row
      && (IsStop(m.leg) ==> m.row + 2 <= e.row)
      && (FillingLeg(m.leg).timeInForce.Day? && m.row + 1 < e.row ==> DateOf(clock[e.row].time) <= m.date)
      && e.fill.symbol == m.leg.symbol && e.fill.side == SideOf(m.leg) && e.fill.quantity == m.leg.quantity
      && PricedAt(env, m.leg, clock[e.row], e.fill)
  }

  ghost predicate LogTimely(env: Env, emitted: seq<Emission>, clock: seq<Bar>, log: seq<Event>) {
    forall i :: 0 <= i < |log| ==> FillTimely(env, emitted, clock, log[i])
  }

  /** Emissions name the row and the date they were made on. */
  ghost predicate EmissionsDated(emitted: seq<Emission>, clock: seq<Bar>, b: nat) {
    forall i :: 0 <= i < |emitted| ==>
      emitted[i].row < b && emitted[i].row < |clock| && emitted[i].date == DateOf(clock[emitted[i].row].time)
  }

  ghost predicate TimingOk(env: Env, st: State, clock: seq<Bar>, b: nat) {
    AllTimely(st.emitted, st.pending, b) && LogTimely(env, st.emitted, clock, st.log) && EmissionsDated(st.emitted, clock, b)
  }

  // ---- one attempt ----

  /** Nothing but a triggered stop, a market or a limit order executes. */
  lemma ExecutesOnlyWhenReady(env: Env, po: PendingOrder, bar: Bar, draws: nat)
    ensures TryFillAt(env, po, bar, draws).Executed? ==> po.stopTriggered || !IsStop(po.leg)
    ensures TryFillAt(env, po, bar, draws).Triggered? ==>
              !po.stopTriggered && IsStop(po.leg) && TryFillAt(env, po, bar, draws).leg == AfterTrigger(po.leg)
  {
    hide MarketFill, LimitFill, StopTriggered, FillBar;
  }

  /** An execution of a pending order is the simulation of the leg it was emitted as. */
  lemma ExecutionIsPriced(env: Env, po: PendingOrder, leg: Leg, row: Bar, draws: nat)
    requires po.stopTriggered ==> IsStop(leg)
    requires po.leg == if po.stopTriggered then AfterTrigger(leg) else leg
    ensures var a := TryFillAt(env, po, row, draws);
            a.Executed? ==> PricedAt(env, leg, row, a.fill)
  {
    hide MarketFill, LimitFill, StopTriggered, FillBar;
    var a := TryFillAt(env, po, row, draws);
    if a.Executed? {
      assert a == Simulated(env, leg, FillBar(env, leg.symbol, row), row.time + env.duration, draws);
      assert a.fill == a.fill.(realizedPnl := None);
      assert PricedBy(env, leg, row, a.fill, draws);
    }
  }

  /** The profit a fill reports is not part of its simulation. */
  lemma PricedWhateverGained(env: Env, leg: Leg, row: Bar, fill: Fill, gain: Option<real>)
    requires PricedAt(env, leg, row, fill)
    ensures PricedAt(env, leg, row, fill.(realizedPnl := gain))
  {
    hide Simulated;
    var draws: nat :| PricedBy(env, leg, row, fill, draws);
    assert PricedBy(env, leg, row, fill.(realizedPnl := gain), draws);
  }

  /** The step from one state to the next adds one well-timed event or one order due at the next row. */
  ghost predicate TimelyStep(env: Env, before: State, after: State, clock: seq<Bar>, b: nat) {
    && after.emitted == before.emitted
    && ((after.pending == before.pending
         && |after.log| > 0 && after.log == before.log + [after.log[|after.log| - 1]]
         && FillTimely(env, before.emitted, clock, after.log[|after.log| - 1]))
        || (after.log == before.log
            && |after.pending| > 0 && after.pending == before.pending + [after.pending[|after.pending| - 1]]
            && Timely(before.emitted, after.pending[|after.pending| - 1], b + 1)))
  }

  lemma UnfilledTimely(env: Env, st: State, po: PendingOrder, row: nat, clock: seq<Bar>)
    requires row < |clock| && Timely(st.emitted, po, row)
    ensures TimelyStep(env, st, Unfilled(env, st, po.(attempted := true), row), clock, row)
  {
  }

  lemma BookTimely(env: Env, st: State, po: PendingOrder, row: nat, fill: Fill, clock: seq<Bar>)
    requires row < |clock| && Timely(st.emitted, po, row) && fill.quantity > 0.0
    requires po.stopTriggered || !IsStop(po.leg)
    requires fill.symbol == po.leg.symbol && fill.side == SideOf(po.leg) && fill.quantity == po.leg.quantity
    requires !IsDayExpired(po, clock[row]) && PricedAt(env, st.emitted[po.id].leg, clock[row], fill)
    ensures TimelyStep(env, st, BookOrRefuse(env, st, po.(attempted := true), row, fill), clock, row)
  {
    hide Refusal, Rebook, StorePosition, Notional, PricedAt;
    forall gain ensures PricedAt(env, st.emitted[po.id].leg, clock[row], fill.(realizedPnl := gain)) {
      PricedWhateverGained(env, st.emitted[po.id].leg, clock[row], fill, gain);
    }
  }

  lemma AttemptTimely(env: Env, st: State, po: PendingOrder, row: nat, clock: seq<Bar>)
    requires row < |clock| && (Timely(st.emitted, po, row) || Timely(st.emitted, po, row + 1))
    ensures TimelyStep(env, st, AttemptOrder(env, st, po, row, clock[row]), clock, row)
  {
    hide TryFillAt, BookOrRefuse, Unfilled, PricedAt;
    var tried := po.(attempted := true);
    if po.scheduledFor <= row && !IsDayExpired(po, clock[row]) {
      ExecutesOnlyWhenReady(env, tried, clock[row], st.draws);
      ExecutionIsPriced(env, tried, st.emitted[po.id].leg, clock[row], st.draws);
      match TryFillAt(env, tried, clock[row], st.draws) {
        case Executed(fill, draws) => BookTimely(env, st.(draws := draws), po, row, fill, clock);
        case Triggered(leg) =>
        case NotExecuted => UnfilledTimely(env, st, po, row, clock);
      }
    }
  }

  lemma TimelyStepKeeps(env: Env, before: State, after: State, clock: seq<Bar>, b: nat)
    requires TimelyStep(env, before, after, clock, b)
    requires AllTimely(before.emitted, before.pending, b + 1) && LogTimely(env, before.emitted, clock, before.log)
    ensures AllTimely(after.emitted, after.pending, b + 1) && LogTimely(env, after.emitted, clock, after.log)
  {
    hide Timely, FillTimely;
  }

  lemma {:induction false} AttemptAllTimely(env: Env, st: State, todo: seq<PendingOrder>, row: nat, clock: seq<Bar>)
    requires row < |clock| && DueOrNext(st.emitted, todo, row)
    requires AllTimely(st.emitted, st.pending, row + 1) && LogTimely(env, st.emitted, clock, st.log)
    ensures var after := AttemptAll(env, st, todo, row, clock[row]);
            && after.emitted == st.emitted
            && AllTimely(after.emitted, after.pending, row + 1) && LogTimely(env, after.emitted, clock, after.log)
  {
    hide AttemptOrder, Timely, FillTimely, AllTimely, LogTimely;
    if todo != [] {
      var rest, last := todo[..|todo| - 1], todo[|todo| - 1];
      AttemptAllTimely(env, st, rest, row, clock);
      var before := AttemptAll(env, st, rest, row, clock[row]);
      AttemptTimely(env, before, last, row, clock);
      TimelyStepKeeps(env, before, AttemptOrder(env, before, last, row, clock[row]), clock, row);
    }
  }

  // ---- emission ----

  /** During the tick of row `b`: what was due stays due, what is emitted is due next. */
  ghost predicate TickOk(env: Env, st: State, clock: seq<Bar>, b: nat) {
    DueOrNext(st.emitted, st.pending, b) && LogTimely(env, st.emitted, clock, st.log) && EmissionsDated(st.emitted, clock, b + 1)
  }

  lemma QueueLegTimely(env: Env, st: State, leg: Leg, row: nat, clock: seq<Bar>)
    requires row < |clock| && TickOk(env, st, clock, row)
    ensures TickOk(env, QueueLeg(st, leg, row, clock[row]), clock, row)
  {
    var after := QueueLeg(st, leg, row, clock[row]);
    assert Timely(after.emitted, after.pending[|st.pending|], row + 1);
    forall i | 0 <= i < |st.pending|
      ensures Timely(after.emitted, after.pending[i], row) || Timely(after.emitted, after.pending[i], row + 1)
    {
      assert after.emitted[st.pending[i].id] == st.emitted[st.pending[i].id];
    }
    forall i | 0 <= i < |after.log| ensures FillTimely(env, after.emitted, clock, after.log[i]) {
      assert FillTimely(env, st.emitted, clock, st.log[i]);
    }
  }

  lemma {:induction false} QueueLegsTimely(env: Env, st: State, legs: seq<Leg>, row: nat, clock: seq<Bar>)
    requires row < |clock| && TickOk(env, st, clock, row)
    ensures TickOk(env, QueueLegs(st, legs, row, clock[row]), clock, row)
  {
    hide TickOk, QueueLeg;
    if legs != [] {
      QueueLegsTimely(env, st, legs[..|legs| - 1], row, clock);
      QueueLegTimely(env, QueueLegs(st, legs[..|legs| - 1], row, clock[row]), legs[|legs| - 1], row, clock);
    }
  }

  lemma {:induction false} QueueSignalsTimely(env: Env, st: State, signals: seq<Signal>, row: nat, clock: seq<Bar>)
    requires row < |clock| && TickOk(env, st, clock, row)
    ensures TickOk(env, QueueSignals(st, signals, row, clock[row]), clock, row)
  {
    hide TickOk, QueueLegs;
    if signals != [] {
      var rest := signals[..|signals| - 1];
      QueueSignalsTimely(env, st, rest, row, clock);
      QueueLegsTimely(env, QueueSignals(st, rest, row, clock[row]), signals[|signals| - 1].legs, row, clock);
    }
  }

  // ---- the rest of the row adds only rejections, settlements and equity points ----

  lemma LogOneTimely(env: Env, emitted: seq<Emission>, clock: seq<Bar>, log: seq<Event>, e: Event)
    requires LogTimely(env, emitted, clock, log) && !e.Filled?
    ensures LogTimely(env, emitted, clock, log + [e])
  {
  }

  lemma {:induction false} RejectAllTimely(env: Env, st: State, orders: seq<PendingOrder>, row: nat, reason: Reason, clock: seq<Bar>)
    requires LogTimely(env, st.emitted, clock, st.log)
    ensures var after := RejectAll(st, orders, row, reason);
            after == st.(log := after.log) && LogTimely(env, st.emitted, clock, after.log)
  {
    hide LogTimely;
    if orders != [] {
      var rest, last := orders[..|orders| - 1], orders[|orders| - 1];
      RejectAllTimely(env, st, rest, row, reason, clock);
      LogOneTimely(env, st.emitted, clock, RejectAll(st, rest, row, reason).log, Rejected(last.id, row, last.leg, reason));
    }
  }

  lemma {:induction false} SettleAllTimely(env: Env, st: State, held: Positions, row: nat, now: int, clock: seq<Bar>)
    requires LogTimely(env, st.emitted, clock, st.log)
    ensures var after := SettleAll(env, st, held, row, now);
            after.emitted == st.emitted && after.pending == st.pending && LogTimely(env, st.emitted, clock, after.log)
  {
    hide LogTimely, HandleExpiry, Worth;
    if held != [] {
      var rest := held[..|held| - 1];
      SettleAllTimely(env, st, rest, row, now, clock);
      var before := SettleAll(env, st, rest, row, now);
      var after := SettleOne(env, before, held[|held| - 1], row, now);
      if after.log != before.log {
        LogOneTimely(env, st.emitted, clock, before.log, after.log[|before.log|]);
      }
    }
  }

  lemma {:induction false} DropAllTimely(env: Env, st: State, orders: seq<PendingOrder>, row: nat, now: int, clock: seq<Bar>, b: nat)
    requires LogTimely(env, st.emitted, clock, st.log) && AllTimely(st.emitted, orders, b) && AllTimely(st.emitted, st.pending, b)
    ensures var after := DropAll(env, st, orders, row, now);
            && after.emitted == st.emitted
            && AllTimely(st.emitted, after.pending, b) && LogTimely(env, st.emitted, clock, after.log)
  {
    hide LogTimely, HandleExpiry, Timely;
    if orders != [] {
      var rest, last := orders[..|orders| - 1], orders[|orders| - 1];
      DropAllTimely(env, st, rest, row, now, clock, b);
      var before := DropAll(env, st, rest, row, now);
      LogOneTimely(env, st.emitted, clock, before.log, Rejected(last.id, row, last.leg, ContractExpired));
    }
  }

  lemma TradeTimely(env: Env, st: State, row: nat, clock: seq<Bar>)
    requires row < |clock| && TimingOk(env, st, clock, row)
    ensures TimingOk(env, Trade(env, st, row, clock[row]), clock, row + 1)
  {
    hide ViewAt, AttemptAll, QueueSignals, RejectAll, Timely, FillTimely;
    var bar := clock[row];
    var history := st.history + [ViewAt(env, st, bar.time + env.duration)];
    var decision := env.algorithm(history);
    var asked := st.(history := history, cancelRequested := st.cancelRequested || decision.cancelAll);
    assert TickOk(env, asked, clock, row);
    QueueSignalsTimely(env, asked, decision.signals, row, clock);
    var ticked := Tick(env, st, row, bar);
    AttemptAllTimely(env, ticked.(pending := []), ticked.pending, row, clock);
    var processed := ProcessPending(env, ticked, row, bar);
    RejectAllTimely(env, processed, processed.pending, row, CancelledByAlgorithm, clock);
  }

  lemma StepTimely(env: Env, st: State, row: nat, clock: seq<Bar>)
    requires row < |clock| && TimingOk(env, st, clock, row) && !st.failed
    ensures TimingOk(env, Step(env, st, row, clock[row]), clock, row + 1)
  {
    hide Trade, SettleAll, DropAll, MarketValue, Timely, FillTimely;
    var bar := clock[row];
    var now := bar.time + env.duration;
    var traded := Trade(env, st, row, bar);
    TradeTimely(env, st, row, clock);
    SettleAllTimely(env, traded, traded.positions, row, now, clock);
    var settled := SettleAll(env, traded, traded.positions, row, now);
    DropAllTimely(env, settled.(pending := []), settled.pending, row, now, clock, row + 1);
    var dropped := DropExpired(env, settled, row, now);
    LogOneTimely(env, dropped.emitted, clock, dropped.log,
                 EquityPoint(row, now, dropped.cash + MarketValue(env, dropped.positions, now), dropped.cash));
  }

  lemma {:induction false} RowsTimely(env: Env, cash0: real, cancelled: bool, clock: seq<Bar>, n: nat)
    requires n <= |clock| && !Rows(env, Start(cash0, cancelled), clock, n).failed
    ensures TimingOk(env, Rows(env, Start(cash0, cancelled), clock, n), clock, n)
  {
    hide Step, Timely, FillTimely;
    if n > 0 {
      var st := Rows(env, Start(cash0, cancelled), clock, n - 1);
      FailureSticks(env, Start(cash0, cancelled), clock, n);
      RowsTimely(env, cash0, cancelled, clock, n - 1);
      StepTimely(env, st, n - 1, clock);
    }
  }

  /** What a run has logged stays well timed when it aborts, and after. */
  lemma {:induction false} RowsLogged(env: Env, cash0: real, cancelled: bool, clock: seq<Bar>, n: nat)
    requires n <= |clock|
    ensures var st := Rows(env, Start(cash0, cancelled), clock, n);
            LogTimely(env, st.emitted, clock, st.log) && EmissionsDated(st.emitted, clock, n)
  {
    hide Timely, FillTimely, Trade, SettleAll, DropExpired, Mark;
    if n > 0 {
      var st := Rows(env, Start(cash0, cancelled), clock, n - 1);
      if st.failed {
        RowsLogged(env, cash0, cancelled, clock, n - 1);
      } else {
        RowsTimely(env, cash0, cancelled, clock, n - 1);
        StepTimely(env, st, n - 1, clock);
      }
    }
  }

  /** `e` is a fill that the run has reported. */
  predicate FillOf(st: State, e: Event) {
    e.Filled? && e in st.log
  }

  lemma LoggedFill(env: Env, cash0: real, cancelled: bool, clock: seq<Bar>, n: nat, e: Event)
    requires n <= |clock|
    ensures var st := Rows(env, Start(cash0, cancelled), clock, n);
            FillOf(st, e) ==> FillTimely(env, st.emitted, clock, e) && EmissionsDated(st.emitted, clock, n)
  {
    hide Step, FillTimely;
    RowsLogged(env, cash0, cancelled, clock, n);
    var st := Rows(env, Start(cash0, cancelled), clock, n);
    if FillOf(st, e) {
      var i :| 0 <= i < |st.log| && st.log[i] == e;
      assert FillTimely(env, st.emitted, clock, st.log[i]);
    }
  }

  // ---- main results ----

  /** Every order pending at the head of row `n` is scheduled for exactly row `n`, under its emission's date. */
  lemma {:induction false} PendingIsDue(env: Env, cash0: real, cancelled: bool, clock: seq<Bar>, n: nat)
    requires n <= |clock| && !Rows(env, Start(cash0, cancelled), clock, n).failed
    ensures var st := Rows(env, Start(cash0, cancelled), clock, n);
            forall i :: 0 <= i < |st.pending| ==>
              && st.pending[i].id < |st.emitted| && st.pending[i].scheduledFor == n
              && st.emitted[st.pending[i].id].row < n && st.pending[i].createdDate == st.emitted[st.pending[i].id].date
  {
    RowsTimely(env, cash0, cancelled, clock, n);
    hide Step;
    var st := Rows(env, Start(cash0, cancelled), clock, n);
    forall i | 0 <= i < |st.pending| ensures Timely(st.emitted, st.pending[i], n) {
    }
  }

  /**
   The timing of a fill: at least one row after its emission, at least two for stops, on the leg's
   own symbol, side and quantity; a DAY order fills after its first attempt on no later date than its
   own, which on an increasing clock is its own date.
   */
  lemma {:induction false} FillTiming(env: Env, cash0: real, cancelled: bool, clock: seq<Bar>, n: nat, e: Event)
    requires n <= |clock|
    ensures var st := Rows(env, Start(cash0, cancelled), clock, n);
            FillOf(st, e) ==>
            && e.id < |st.emitted| && e.row < |clock|
            && var m := st.emitted[e.id];
            && m.row + 1 <= e.row && (IsStop(m.leg) ==> m.row + 2 <= e.row)
            && m.date == DateOf(clock[m.row].time)
            && (FillingLeg(m.leg).timeInForce.Day? && m.row + 1 < e.row ==>
                  DateOf(clock[e.row].time) <= m.date
                  && (Increasing(clock, BarTime) ==> DateOf(clock[e.row].time) == m.date))
            && e.fill.symbol == m.leg.symbol && e.fill.side == SideOf(m.leg) && e.fill.quantity == m.leg.quantity
  {
    hide Step, PricedAt;
    LoggedFill(env, cash0, cancelled, clock, n, e);
    var st := Rows(env, Start(cash0, cancelled), clock, n);
    if FillOf(st, e) && Increasing(clock, BarTime) {
      assert BarTime(clock[st.emitted[e.id].row]) < BarTime(clock[e.row]);
    }
  }

  /** Every fill of a run is the simulation of the leg it was emitted as, against the bar that leg's symbol resolves to. */
  lemma {:induction false} FillsAreSimulated(env: Env, cash0: real, cancelled: bool, clock: seq<Bar>, n: nat, e: Event)
    requires n <= |clock|
    ensures var st := Rows(env, Start(cash0, cancelled), clock, n);
            FillOf(st, e) ==> e.id < |st.emitted| && e.row < |clock| && PricedAt(env, st.emitted[e.id].leg, clock[e.row], e.fill)
  {
    hide Step, PricedAt;
    LoggedFill(env, cash0, cancelled, clock, n, e);
  }

  /**
   On a clock with one row per date no STOP_LIMIT order ever fills, whatever its time in force, and
   no DAY stop does: the trigger costs a row, and the DAY rule then rejects the order.
   */
  lemma {:induction false} StopsNeverFillOnDailyClock(env: Env, cash0: real, cancelled: bool, clock: seq<Bar>, n: nat, e: Event)
    requires n <= |clock|
    requires forall i, j :: 0 <= i < j < |clock| ==> DateOf(clock[i].time) < DateOf(clock[j].time)
    ensures var st := Rows(env, Start(cash0, cancelled), clock, n);
            FillOf(st, e) ==>
            && e.id < |st.emitted|
            && !st.emitted[e.id].leg.orderType.StopLimitOrder?
            && !(st.emitted[e.id].leg.orderType.StopOrder? && st.emitted[e.id].leg.timeInForce.Day?)
  {
    FillTiming(env, cash0, cancelled, clock, n, e);
    hide Step;
    var st := Rows(env, Start(cash0, cancelled), clock, n);
    if FillOf(st, e) && IsStop(st.emitted[e.id].leg) {
      assert DateOf(clock[st.emitted[e.id].row].time) < DateOf(clock[e.row].time);
    }
  }
}
