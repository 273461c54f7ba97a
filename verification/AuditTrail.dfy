/** The log of a run as an audit trail: it accounts for the cash, the holdings and every decision. */
module AuditTrail {
  import opened Common
  import opened OrderedDict
  import opened Market
  import opened Orders
  import opened EngineSpec
  import opened TimingProofs
  import AccountProofs

  // ---- what the log says ----

  /** Price times quantity, a hundredfold for options. */
  function Amount(env: Env, fill: Fill): real {
    fill.fillPrice * fill.quantity * (if env.assetTypeOf(fill.symbol).Options? then 100.0 else 1.0)
  }

  /** The cash one event moves: a purchase costs its fees too, a sale brings the rest, a settlement has none. */
  function CashOf(env: Env, e: Event): real {
    match e
    case Filled(_, _, fill) => if fill.side.Buy? then -Amount(env, fill) - fill.fees else Amount(env, fill) - fill.fees
    case Settled(_, fill) => if fill.side.Buy? then -Amount(env, fill) else Amount(env, fill)
    case _ => 0.0
  }

  function CashMoved(env: Env, log: seq<Event>): real {
    if log == [] then 0.0 else CashMoved(env, log[..|log| - 1]) + CashOf(env, log[|log| - 1])
  }

  function QuantityOf(e: Event, symbol: Symbol): real {
    if (e.Filled? || e.Settled?) && e.fill.symbol == symbol then (if e.fill.side.Buy? then e.fill.quantity else -e.fill.quantity)
    else 0.0
  }

  /** Bought less sold. */
  function NetQuantity(log: seq<Event>, symbol: Symbol): real {
    if log == [] then 0.0 else NetQuantity(log[..|log| - 1], symbol) + QuantityOf(log[|log| - 1], symbol)
  }

  predicate IsRefusal(e: Event) {
    e.Rejected? && IsPower(e.reason)
  }

  /** The event is an execution, booked or refused, priced inside its bar. */
  predicate TakesDraw(env: Env, emitted: seq<Emission>, e: Event) {
    && (e.Filled? || IsRefusal(e)) && e.id < |emitted|
    && var leg := emitted[e.id].leg;
       !leg.orderType.LimitOrder? && !IsOption(env, leg.symbol) && CostsFor(env, FillingLeg(leg)).slippage.useBarRange
  }

  /** How many random numbers the events so far have used. */
  function DrawsTaken(env: Env, emitted: seq<Emission>, log: seq<Event>): nat {
    if log == [] then 0
    else DrawsTaken(env, emitted, log[..|log| - 1]) + if TakesDraw(env, emitted, log[|log| - 1]) then 1 else 0
  }

  // ---- buying power ----

  /**
   When a fill may be booked. Cash covers a purchase and its fees; stock sold is held; an option sold
   beyond what is held long is covered at its strike by cash after the sale.
   */
  predicate CanBook(env: Env, cash: real, held: real, fill: Fill) {
    if fill.side.Buy? then Amount(env, fill) + fill.fees <= cash + 0.000001
    else if !env.assetTypeOf(fill.symbol).Options? then fill.quantity <= held + 0.000000001
    else
      var uncovered := if held > 0.0 then fill.quantity - held else fill.quantity;
      uncovered <= 0.000000001
      || (env.contractOf(fill.symbol).Some?
          && env.contractOf(fill.symbol).value.strike * 100.0 * uncovered <= cash + Amount(env, fill) - fill.fees + 0.000001)
  }

  /** The reason given when it may not. */
  function WhyNot(env: Env, fill: Fill): Reason {
    if fill.side.Sell? && !env.assetTypeOf(fill.symbol).Options? then InsufficientPosition
    else if fill.side.Sell? && env.contractOf(fill.symbol).None? then StrikeUnparseable
    else InsufficientBuyingPower
  }

  /** Buying power, exactly: a fill is booked just when it may be. */
  lemma AcceptedExactly(env: Env, cash: real, positions: Positions, fill: Fill)
    ensures var refusal := Refusal(env, cash, positions, fill);
            && (refusal.None? <==> CanBook(env, cash, Held(positions, fill.symbol), fill))
            && (refusal.Some? ==> refusal.value == WhyNot(env, fill))
  {
  }

  /** Closing costs nothing: an option sale no larger than the long held is never refused. */
  lemma ClosingSaleAccepted(env: Env, cash: real, positions: Positions, fill: Fill)
    requires IsOption(env, fill.symbol) && fill.side.Sell? && fill.quantity <= Held(positions, fill.symbol)
    ensures Refusal(env, cash, positions, fill).None?
  {
  }

  // ---- every event is justified by the log before it ----

  /** The simulation of leg `id` at clock row `n`, with the next random number, gives this fill; it may be booked, or not. */
  ghost predicate Decides(env: Env, emitted: seq<Emission>, clock: seq<Bar>, cash0: real, before: seq<Event>,
                          id: nat, n: nat, fill: Fill, booked: bool) {
    && id < |emitted| && n < |clock| && PricedBy(env, emitted[id].leg, clock[n], fill, DrawsTaken(env, emitted, before))
    && CanBook(env, cash0 + CashMoved(env, before), NetQuantity(before, fill.symbol), fill) == booked
  }

  ghost predicate Justified(env: Env, emitted: seq<Emission>, clock: seq<Bar>, cash0: real, before: seq<Event>, e: Event) {
    match e
    case Filled(id, n, fill) => Decides(env, emitted, clock, cash0, before, id, n, fill, true)
    case Settled(_, fill) =>
      var net := NetQuantity(before, fill.symbol);
      fill.quantity == Abs(net) && (fill.side.Buy? <==> net < 0.0)
    case Rejected(id, n, _, reason) =>
      IsRefusal(e) ==> exists fill :: Decides(env, emitted, clock, cash0, before, id, n, fill, false) && reason == WhyNot(env, fill)
    case _ => true
  }

  ghost predicate AllJustified(env: Env, emitted: seq<Emission>, clock: seq<Bar>, cash0: real, log: seq<Event>) {
    forall i :: 0 <= i < |log| ==> Justified(env, emitted, clock, cash0, log[..i], log[i])
  }

  /** The log accounts for the state, and for itself. */
  ghost predicate Audited(env: Env, clock: seq<Bar>, cash0: real, st: State) {
    && st.cash == cash0 + CashMoved(env, st.log)
    && Distinct(st.positions) && (forall symbol :: Held(st.positions, symbol) == NetQuantity(st.log, symbol))
    && st.draws == DrawsTaken(env, st.emitted, st.log)
    && AllJustified(env, st.emitted, clock, cash0, st.log)
  }

  /** The changes that one event accounts for. */
  ghost predicate AccountedBy(env: Env, before: State, after: State, e: Event) {
    && after.log == before.log + [e] && after.emitted == before.emitted
    && after.cash == before.cash + CashOf(env, e)
    && Distinct(after.positions)
    && (forall symbol :: Held(after.positions, symbol) == Held(before.positions, symbol) + QuantityOf(e, symbol))
    && after.draws == before.draws + if TakesDraw(env, before.emitted, e) then 1 else 0
  }

  lemma LogOne(env: Env, emitted: seq<Emission>, log: seq<Event>, e: Event)
    ensures CashMoved(env, log + [e]) == CashMoved(env, log) + CashOf(env, e)
    ensures forall symbol :: NetQuantity(log + [e], symbol) == NetQuantity(log, symbol) + QuantityOf(e, symbol)
    ensures DrawsTaken(env, emitted, log + [e]) == DrawsTaken(env, emitted, log) + if TakesDraw(env, emitted, e) then 1 else 0
  {
    hide CashOf, QuantityOf, TakesDraw;
    assert (log + [e])[..|log|] == log;
  }

  lemma JustifiedOne(env: Env, emitted: seq<Emission>, clock: seq<Bar>, cash0: real, log: seq<Event>, e: Event)
    requires AllJustified(env, emitted, clock, cash0, log) && Justified(env, emitted, clock, cash0, log, e)
    ensures AllJustified(env, emitted, clock, cash0, log + [e])
  {
    hide Justified;
    var after := log + [e];
    assert after[..|log|] == log;
    forall i | 0 <= i < |after| ensures Justified(env, emitted, clock, cash0, after[..i], after[i]) {
      if i < |log| {
        assert after[..i] == log[..i];
      }
    }
  }

  lemma AuditOne(env: Env, clock: seq<Bar>, cash0: real, before: State, after: State, e: Event)
    requires Audited(env, clock, cash0, before) && AccountedBy(env, before, after, e)
    requires Justified(env, before.emitted, clock, cash0, before.log, e)
    ensures Audited(env, clock, cash0, after)
  {
    hide CashOf, QuantityOf, TakesDraw, Justified, Held, CashMoved, NetQuantity, DrawsTaken, AllJustified, Distinct;
    LogOne(env, before.emitted, before.log, e);
    JustifiedOne(env, before.emitted, clock, cash0, before.log, e);
  }

  /** The audit is about cash, positions, draws and the log. */
  lemma SameAudit(env: Env, clock: seq<Bar>, cash0: real, a: State, b: State)
    requires Audited(env, clock, cash0, a)
    requires b.cash == a.cash && b.positions == a.positions && b.draws == a.draws && b.log == a.log && b.emitted == a.emitted
    ensures Audited(env, clock, cash0, b)
  {
  }

  // ---- attempts ----

  lemma HeldStored(positions: Positions, symbol: Symbol, ps: Position, other: Symbol)
    requires Distinct(positions)
    ensures Distinct(StorePosition(positions, symbol, ps))
    ensures Held(StorePosition(positions, symbol, ps), other) == if other == symbol then ps.quantity else Held(positions, other)
  {
    var put := Put(positions, symbol, ps);
    PutKeys(positions, symbol, ps, (s: Symbol, p: Position) => true);
    PutFind(positions, symbol, ps, other);
    if ps.quantity == 0.0 {
      RemoveKeys(put, symbol);
      RemoveFind(put, symbol, other);
    }
  }

  /** A booked fill moves what its event says. */
  lemma FillAccounted(env: Env, st: State, id: nat, n: nat, fill: Fill, draws: nat)
    requires fill.quantity > 0.0 && Distinct(st.positions)
    requires st.draws == draws + if TakesDraw(env, st.emitted, Filled(id, n, fill)) then 1 else 0
    ensures var after := ApplyFill(env, st, id, n, fill);
            && |after.log| == |st.log| + 1 && after.log[|st.log|].Filled? && after.log[|st.log|].id == id && after.log[|st.log|].row == n
            && after.log[|st.log|].fill == fill.(realizedPnl := after.log[|st.log|].fill.realizedPnl)
            && AccountedBy(env, st.(draws := draws), after, after.log[|st.log|])
  {
    hide Rebook, StorePosition;
    var ps, m := PositionFor(st.positions, fill), Multiplier(env, fill.symbol);
    var after := ApplyFill(env, st, id, n, fill);
    AccountProofs.RebookQuantity(ps, fill, m);
    HeldStored(st.positions, fill.symbol, Rebook(ps, fill, m).position, fill.symbol);
    forall symbol ensures Held(after.positions, symbol) == Held(st.positions, symbol) + QuantityOf(after.log[|st.log|], symbol) {
      HeldStored(st.positions, fill.symbol, Rebook(ps, fill, m).position, symbol);
    }
  }

  /** An event that is neither an execution nor a settlement changes nothing but the log. */
  lemma QuietAudit(env: Env, clock: seq<Bar>, cash0: real, st: State, e: Event)
    requires Audited(env, clock, cash0, st) && !e.Filled? && !e.Settled? && !IsRefusal(e)
    ensures Audited(env, clock, cash0, st.(log := st.log + [e]))
  {
    hide Audited, Held;
    assert Distinct(st.positions) by { AuditedDistinct(env, clock, cash0, st); }
    AuditOne(env, clock, cash0, st, st.(log := st.log + [e]), e);
  }

  lemma AuditedDistinct(env: Env, clock: seq<Bar>, cash0: real, st: State)
    requires Audited(env, clock, cash0, st)
    ensures Distinct(st.positions)
  {
  }

  /** The simulation uses a random number just for a market price inside the bar. */
  lemma SimulationDraws(env: Env, leg: Leg, bar: Bar, now: int, draws: nat)
    ensures var a := Simulated(env, leg, bar, now, draws);
            a.Executed? ==>
              a.fill.symbol == leg.symbol && a.fill.side == SideOf(leg)
              && a.draws == draws + if !leg.orderType.LimitOrder? && !IsOption(env, leg.symbol)
                                       && CostsFor(env, FillingLeg(leg)).slippage.useBarRange then 1 else 0
  {
    hide SumFees, Slipped, BaseMarketPrice, VolumeImpact, Abs, SlippedLimit;
  }

  /** What a pending order executes as is the simulation of the leg it was emitted as. */
  lemma ExecutionIsSimulated(env: Env, po: PendingOrder, leg: Leg, row: Bar, draws: nat)
    requires po.stopTriggered ==> IsStop(leg)
    requires po.leg == if po.stopTriggered then AfterTrigger(leg) else leg
    ensures var a := TryFillAt(env, po, row, draws);
            a.Executed? ==> a == Simulated(env, leg, FillBar(env, leg.symbol, row), row.time + env.duration, draws)
  {
    hide MarketFill, LimitFill, StopTriggered, FillBar;
  }

  lemma BookableWhateverGained(env: Env, cash: real, held: real, fill: Fill, gain: Option<real>)
    ensures CanBook(env, cash, held, fill.(realizedPnl := gain)) == CanBook(env, cash, held, fill)
  {
    assert Amount(env, fill.(realizedPnl := gain)) == Amount(env, fill);
    hide Amount;
  }

  lemma DecidesWhateverGained(env: Env, emitted: seq<Emission>, clock: seq<Bar>, cash0: real, before: seq<Event>,
                              id: nat, n: nat, fill: Fill, booked: bool, gain: Option<real>)
    requires Decides(env, emitted, clock, cash0, before, id, n, fill, booked)
    ensures Decides(env, emitted, clock, cash0, before, id, n, fill.(realizedPnl := gain), booked)
  {
    hide Simulated, CanBook, CashMoved, NetQuantity, DrawsTaken;
    BookableWhateverGained(env, cash0 + CashMoved(env, before), NetQuantity(before, fill.symbol), fill, gain);
  }

  lemma BookingAudited(env: Env, clock: seq<Bar>, cash0: real, st: State, po: PendingOrder, n: nat, fill: Fill, draws: nat)
    requires Audited(env, clock, cash0, st) && fill.quantity > 0.0
    requires po.id < |st.emitted| && n < |clock| && PricedBy(env, st.emitted[po.id].leg, clock[n], fill, st.draws)
    requires draws == st.draws + if TakesDraw(env, st.emitted, Filled(po.id, n, fill)) then 1 else 0
    ensures Audited(env, clock, cash0, BookOrRefuse(env, st.(draws := draws), po, n, fill))
  {
    hide PricedBy, Refusal, CanBook, ApplyFill, Held, TakesDraw;
    var drawn := st.(draws := draws);
    var after := BookOrRefuse(env, drawn, po, n, fill);
    AcceptedExactly(env, st.cash, st.positions, fill);
    var booked := Refusal(env, st.cash, st.positions, fill).None?;
    assert Decides(env, st.emitted, clock, cash0, st.log, po.id, n, fill, booked);
    if booked {
      TakesDrawAnyFill(env, st.emitted, Filled(po.id, n, fill));
      FillAccounted(env, drawn, po.id, n, fill, st.draws);
      var e := after.log[|st.log|];
      DecidesWhateverGained(env, st.emitted, clock, cash0, st.log, po.id, n, fill, true, e.fill.realizedPnl);
      assert drawn.(draws := st.draws) == st;
      AuditOne(env, clock, cash0, st, after, e);
    } else {
      var e := Rejected(po.id, n, po.leg, WhyNot(env, fill));
      TakesDrawAnyFill(env, st.emitted, e);
      TakesDrawAnyFill(env, st.emitted, Filled(po.id, n, fill));
      assert after == drawn.(log := st.log + [e]);
      AuditOne(env, clock, cash0, st, after, e);
    }
  }

  /** Whether a draw is taken depends on the leg alone. */
  lemma TakesDrawAnyFill(env: Env, emitted: seq<Emission>, e: Event)
    requires (e.Filled? || IsRefusal(e)) && e.id < |emitted|
    ensures TakesDraw(env, emitted, e) <==>
            var leg := emitted[e.id].leg;
            !leg.orderType.LimitOrder? && !IsOption(env, leg.symbol) && CostsFor(env, FillingLeg(leg)).slippage.useBarRange
  {
  }

  lemma AttemptAudited(env: Env, clock: seq<Bar>, cash0: real, st: State, po: PendingOrder, n: nat)
    requires n < |clock| && Audited(env, clock, cash0, st)
    requires Timely(st.emitted, po, n) || Timely(st.emitted, po, n + 1)
    ensures Audited(env, clock, cash0, AttemptOrder(env, st, po, n, clock[n]))
  {
    hide TryFillAt, BookOrRefuse, Audited, Simulated;
    var row, tried := clock[n], po.(attempted := true);
    if po.scheduledFor > n {
      SameAudit(env, clock, cash0, st, Keep(st, po));
    } else if IsDayExpired(po, row) {
      QuietAudit(env, clock, cash0, st, Rejected(po.id, n, po.leg, DayExpired));
    } else {
      var leg := st.emitted[po.id].leg;
      ExecutesOnlyWhenReady(env, tried, row, st.draws);
      ExecutionIsSimulated(env, tried, leg, row, st.draws);
      SimulationDraws(env, leg, FillBar(env, leg.symbol, row), row.time + env.duration, st.draws);
      match TryFillAt(env, tried, row, st.draws) {
        case Executed(fill, draws) =>
          assert fill == fill.(realizedPnl := None);
          TakesDrawAnyFill(env, st.emitted, Filled(po.id, n, fill));
          BookingAudited(env, clock, cash0, st, tried, n, fill, draws);
        case Triggered(after) =>
          SameAudit(env, clock, cash0, st, AttemptOrder(env, st, po, n, row));
        case NotExecuted =>
          UnfilledAudited(env, clock, cash0, st, tried, n);
      }
    }
  }

  lemma UnfilledAudited(env: Env, clock: seq<Bar>, cash0: real, st: State, po: PendingOrder, n: nat)
    requires Audited(env, clock, cash0, st)
    ensures Audited(env, clock, cash0, Unfilled(env, st, po, n))
  {
    hide Audited;
    QuietAudit(env, clock, cash0, st, Rejected(po.id, n, po.leg, NoOptionPrice));
    QuietAudit(env, clock, cash0, st, Rejected(po.id, n, po.leg, NoFillWithinTimeout));
    QuietAudit(env, clock, cash0, st, Rejected(po.id, n, po.leg, UnknownTimeInForce));
    SameAudit(env, clock, cash0, st, Keep(st, po.(scheduledFor := n + 1)));
  }

  lemma {:induction false} AttemptAllAudited(env: Env, clock: seq<Bar>, cash0: real, st: State, todo: seq<PendingOrder>, n: nat)
    requires n < |clock| && Audited(env, clock, cash0, st) && DueOrNext(st.emitted, todo, n)
    ensures var after := AttemptAll(env, st, todo, n, clock[n]);
            Audited(env, clock, cash0, after) && after.emitted == st.emitted
  {
    hide AttemptOrder, Audited, Timely;
    if todo != [] {
      var rest, last := todo[..|todo| - 1], todo[|todo| - 1];
      AttemptAllAudited(env, clock, cash0, st, rest, n);
      var before := AttemptAll(env, st, rest, n, clock[n]);
      AttemptAudited(env, clock, cash0, before, last, n);
      AttemptEmitted(env, before, last, n, clock[n]);
    }
  }

  lemma AttemptEmitted(env: Env, st: State, po: PendingOrder, n: nat, row: Bar)
    ensures AttemptOrder(env, st, po, n, row).emitted == st.emitted
  {
    hide TryFillAt, Refusal, Rebook, StorePosition, Notional, PositionFor;
  }

  // ---- the rest of the row ----

  /** Executions in the log are of legs emitted before them. */
  ghost predicate Known(emitted: seq<Emission>, log: seq<Event>) {
    forall i :: 0 <= i < |log| && (log[i].Filled? || IsRefusal(log[i])) ==> log[i].id < |emitted|
  }

  lemma {:induction false} DrawsExtended(env: Env, emitted: seq<Emission>, more: seq<Emission>, log: seq<Event>)
    requires emitted <= more && Known(emitted, log)
    ensures DrawsTaken(env, more, log) == DrawsTaken(env, emitted, log)
  {
    if log != [] {
      DrawsExtended(env, emitted, more, log[..|log| - 1]);
    }
  }

  lemma JustifiedKnown(env: Env, emitted: seq<Emission>, clock: seq<Bar>, cash0: real, log: seq<Event>)
    requires AllJustified(env, emitted, clock, cash0, log)
    ensures Known(emitted, log)
  {
    forall i | 0 <= i < |log| && (log[i].Filled? || IsRefusal(log[i])) ensures log[i].id < |emitted| {
      assert Justified(env, emitted, clock, cash0, log[..i], log[i]);
    }
  }

  /** Emitting more legs leaves the audit of the log as it was. */
  lemma EmittedAudited(env: Env, clock: seq<Bar>, cash0: real, a: State, b: State)
    requires Audited(env, clock, cash0, a) && a.emitted <= b.emitted
    requires b.cash == a.cash && b.positions == a.positions && b.draws == a.draws && b.log == a.log
    ensures Audited(env, clock, cash0, b)
  {
    hide PricedBy, CanBook, Held;
    JustifiedKnown(env, a.emitted, clock, cash0, a.log);
    DrawsExtended(env, a.emitted, b.emitted, a.log);
    forall i | 0 <= i < |b.log| ensures Justified(env, b.emitted, clock, cash0, b.log[..i], b.log[i]) {
      assert Justified(env, a.emitted, clock, cash0, a.log[..i], a.log[i]);
      DrawsExtended(env, a.emitted, b.emitted, a.log[..i]);
      DecisionsStay(env, a.emitted, b.emitted, clock, cash0, a.log[..i]);
    }
  }

  lemma DecisionsStay(env: Env, emitted: seq<Emission>, more: seq<Emission>, clock: seq<Bar>, cash0: real, before: seq<Event>)
    requires emitted <= more && DrawsTaken(env, more, before) == DrawsTaken(env, emitted, before)
    ensures forall id, n, fill, booked ::
              Decides(env, emitted, clock, cash0, before, id, n, fill, booked) ==> Decides(env, more, clock, cash0, before, id, n, fill, booked)
  {
    hide PricedBy, CanBook;
  }

  lemma {:induction false} RejectAllAudited(env: Env, clock: seq<Bar>, cash0: real, st: State, orders: seq<PendingOrder>, n: nat, reason: Reason)
    requires Audited(env, clock, cash0, st) && !IsPower(reason)
    ensures Audited(env, clock, cash0, RejectAll(st, orders, n, reason))
  {
    hide Audited;
    if orders != [] {
      var rest, last := orders[..|orders| - 1], orders[|orders| - 1];
      RejectAllAudited(env, clock, cash0, st, rest, n, reason);
      QuietAudit(env, clock, cash0, RejectAll(st, rest, n, reason), Rejected(last.id, n, last.leg, reason));
    }
  }

  lemma {:induction false} QueueLegsExtends(st: State, legs: seq<Leg>, n: nat, row: Bar)
    ensures st.emitted <= QueueLegs(st, legs, n, row).emitted
  {
    if legs != [] {
      QueueLegsExtends(st, legs[..|legs| - 1], n, row);
    }
  }

  lemma {:induction false} QueueSignalsExtends(st: State, signals: seq<Signal>, n: nat, row: Bar)
    ensures st.emitted <= QueueSignals(st, signals, n, row).emitted
  {
    hide QueueLegs;
    if signals != [] {
      var rest := signals[..|signals| - 1];
      QueueSignalsExtends(st, rest, n, row);
      QueueLegsExtends(QueueSignals(st, rest, n, row), signals[|signals| - 1].legs, n, row);
    }
  }

  lemma TradeAudited(env: Env, clock: seq<Bar>, cash0: real, st: State, n: nat)
    requires n < |clock| && Audited(env, clock, cash0, st) && TimingOk(env, st, clock, n)
    ensures Audited(env, clock, cash0, Trade(env, st, n, clock[n]))
  {
    hide ViewAt, AttemptAll, QueueSignals, RejectAll, Timely, FillTimely, Audited;
    var row := clock[n];
    var history := st.history + [ViewAt(env, st, row.time + env.duration)];
    var decision := env.algorithm(history);
    var asked := st.(history := history, cancelRequested := st.cancelRequested || decision.cancelAll);
    assert TickOk(env, asked, clock, n);
    QueueSignalsTimely(env, asked, decision.signals, n, clock);
    QueueSignalsFrame(asked, decision.signals, n, row);
    QueueSignalsExtends(asked, decision.signals, n, row);
    var ticked := Tick(env, st, n, row);
    EmittedAudited(env, clock, cash0, st, ticked.(pending := []));
    AttemptAllAudited(env, clock, cash0, ticked.(pending := []), ticked.pending, n);
    var processed := ProcessPending(env, ticked, n, row);
    RejectAllAudited(env, clock, cash0, processed, processed.pending, n, CancelledByAlgorithm);
    var rejected := RejectAll(processed, processed.pending, n, CancelledByAlgorithm);
    SameAudit(env, clock, cash0, rejected, rejected.(pending := [], cancelRequested := false));
  }

  // ---- settlement ----

  lemma SettlementAccounted(env: Env, st: State, held: Entry<Symbol, Position>, n: nat, now: int)
    requires !st.failed && Distinct(st.positions) && Find(st.positions, held.key) == Some(held.value)
    requires HandleExpiry(env, held.key, held.value.quantity, held.value.avgPrice, now).Expires?
    ensures var after := SettleOne(env, st, held, n, now);
            && |after.log| == |st.log| + 1 && after.log[|st.log|].Settled?
            && after.log[|st.log|].fill.symbol == held.key && after.log[|st.log|].fill.quantity == Abs(held.value.quantity)
            && (after.log[|st.log|].fill.side.Buy? <==> held.value.quantity < 0.0)
            && AccountedBy(env, st, after, after.log[|st.log|])
  {
    hide UnderlyingPrice;
    AccountProofs.SettlementParts(env, st, held, n, now);
    AccountProofs.SettlementConserves(env, held.key, held.value, now);
    RemoveKeys(st.positions, held.key);
    forall symbol ensures Find(Remove(st.positions, held.key), symbol) == if symbol == held.key then None else Find(st.positions, symbol) {
      RemoveFind(st.positions, held.key, symbol);
    }
  }

  lemma SettleOneAudited(env: Env, clock: seq<Bar>, cash0: real, st: State, held: Entry<Symbol, Position>, n: nat, now: int)
    requires Audited(env, clock, cash0, st) && Find(st.positions, held.key) == Some(held.value)
    ensures Audited(env, clock, cash0, SettleOne(env, st, held, n, now))
  {
    hide HandleExpiry, Audited, AccountedBy;
    assert Distinct(st.positions) by { AuditedDistinct(env, clock, cash0, st); }
    if !st.failed && HandleExpiry(env, held.key, held.value.quantity, held.value.avgPrice, now).Expires? {
      SettlementAccounted(env, st, held, n, now);
      assert NetQuantity(st.log, held.key) == held.value.quantity by { AuditedHeld(env, clock, cash0, st, held.key); }
      AuditOne(env, clock, cash0, st, SettleOne(env, st, held, n, now), SettleOne(env, st, held, n, now).log[|st.log|]);
    } else {
      SameAudit(env, clock, cash0, st, SettleOne(env, st, held, n, now));
    }
  }

  lemma AuditedHeld(env: Env, clock: seq<Bar>, cash0: real, st: State, symbol: Symbol)
    requires Audited(env, clock, cash0, st)
    ensures NetQuantity(st.log, symbol) == Held(st.positions, symbol)
  {
  }

  /** Settling works through a snapshot of the positions; the ones not reached yet are still held. */
  lemma {:induction false} SettleAllAudited(env: Env, clock: seq<Bar>, cash0: real, st: State, held: Positions, k: nat, n: nat, now: int)
    requires Audited(env, clock, cash0, st) && held == st.positions && k <= |held|
    ensures var after := SettleAll(env, st, held[..k], n, now);
            && Audited(env, clock, cash0, after) && after.emitted == st.emitted
            && forall i :: k <= i < |held| ==> Find(after.positions, held[i].key) == Some(held[i].value)
  {
    hide Audited, SettleOne;
    assert Distinct(held) by { AuditedDistinct(env, clock, cash0, st); }
    if k == 0 {
      forall i | 0 <= i < |held| ensures Find(held, held[i].key) == Some(held[i].value) {
        FindAt(held, i);
      }
    } else {
      assert held[..k][..k - 1] == held[..k - 1];
      SettleAllAudited(env, clock, cash0, st, held, k - 1, n, now);
      var before := SettleAll(env, st, held[..k - 1], n, now);
      SettleOneAudited(env, clock, cash0, before, held[k - 1], n, now);
      assert Distinct(before.positions) by { AuditedDistinct(env, clock, cash0, before); }
      forall i | k <= i < |held|
        ensures Find(SettleOne(env, before, held[k - 1], n, now).positions, held[i].key) == Some(held[i].value)
      {
        SettleOneKeeps(env, before, held[k - 1], n, now, held[i].key);
      }
      SettleOneEmits(env, before, held[k - 1], n, now);
    }
  }

  lemma SettleOneKeeps(env: Env, st: State, held: Entry<Symbol, Position>, n: nat, now: int, other: Symbol)
    requires Distinct(st.positions) && other != held.key
    ensures Find(SettleOne(env, st, held, n, now).positions, other) == Find(st.positions, other)
  {
    hide HandleExpiry, Worth;
    RemoveFind(st.positions, held.key, other);
  }

  lemma SettleOneEmits(env: Env, st: State, held: Entry<Symbol, Position>, n: nat, now: int)
    ensures SettleOne(env, st, held, n, now).emitted == st.emitted
  {
    hide HandleExpiry, Worth;
  }

  lemma {:induction false} DropAllAudited(env: Env, clock: seq<Bar>, cash0: real, st: State, orders: seq<PendingOrder>, n: nat, now: int)
    requires Audited(env, clock, cash0, st)
    ensures Audited(env, clock, cash0, DropAll(env, st, orders, n, now))
  {
    hide HandleExpiry, Audited;
    if orders != [] {
      var rest, last := orders[..|orders| - 1], orders[|orders| - 1];
      DropAllAudited(env, clock, cash0, st, rest, n, now);
      var before := DropAll(env, st, rest, n, now);
      QuietAudit(env, clock, cash0, before, Rejected(last.id, n, last.leg, ContractExpired));
      SameAudit(env, clock, cash0, before, Keep(before, last));
      SameAudit(env, clock, cash0, before, before.(failed := true));
    }
  }

  lemma StepAudited(env: Env, clock: seq<Bar>, cash0: real, st: State, n: nat)
    requires n < |clock| && Audited(env, clock, cash0, st) && (!st.failed ==> TimingOk(env, st, clock, n))
    ensures Audited(env, clock, cash0, Step(env, st, n, clock[n]))
  {
    hide Trade, SettleAll, DropAll, MarketValue, Audited, TimingOk;
    if !st.failed {
      var now := clock[n].time + env.duration;
      TradeAudited(env, clock, cash0, st, n);
      var traded := Trade(env, st, n, clock[n]);
      SettleAllAudited(env, clock, cash0, traded, traded.positions, |traded.positions|, n, now);
      assert traded.positions[..|traded.positions|] == traded.positions;
      var settled := SettleAll(env, traded, traded.positions, n, now);
      SameAudit(env, clock, cash0, settled, settled.(pending := []));
      DropAllAudited(env, clock, cash0, settled.(pending := []), settled.pending, n, now);
      var dropped := DropExpired(env, settled, n, now);
      QuietAudit(env, clock, cash0, dropped, EquityPoint(n, now, dropped.cash + MarketValue(env, dropped.positions, now), dropped.cash));
    }
  }

  lemma {:induction false} RowsAudited(env: Env, cash0: real, cancelled: bool, clock: seq<Bar>, n: nat)
    requires n <= |clock|
    ensures Audited(env, clock, cash0, Rows(env, Start(cash0, cancelled), clock, n))
  {
    hide Step, TimingOk;
    if n > 0 {
      var st := Rows(env, Start(cash0, cancelled), clock, n - 1);
      RowsAudited(env, cash0, cancelled, clock, n - 1);
      if !st.failed {
        RowsTimely(env, cash0, cancelled, clock, n - 1);
      }
      StepAudited(env, clock, cash0, st, n - 1);
    }
  }

  // ---- main results ----

  /**
   The log accounts for the account. At every loop head of every run, cash is the starting cash and all
   that the logged fills and settlements moved, and the holding of every symbol is what they bought less
   what they sold.
   */
  lemma {:induction false} LogAccounts(env: Env, cash0: real, cancelled: bool, clock: seq<Bar>, n: nat, symbol: Symbol)
    requires n <= |clock|
    ensures var st := Rows(env, Start(cash0, cancelled), clock, n);
            && st.cash == cash0 + CashMoved(env, st.log)
            && Held(st.positions, symbol) == NetQuantity(st.log, symbol)
  {
    hide Step;
    RowsAudited(env, cash0, cancelled, clock, n);
  }

  /**
   Every decision follows from the log before it. Each fill is the simulation of its emitted leg with the
   next random number, and cash and holdings at that point allowed it; each order refused for want of
   buying power was so executed, and they did not; each settlement closes exactly what was then held.
   */
  lemma {:induction false} DecisionsFollow(env: Env, cash0: real, cancelled: bool, clock: seq<Bar>, n: nat, i: nat)
    requires n <= |clock| && i < |Rows(env, Start(cash0, cancelled), clock, n).log|
    ensures var st := Rows(env, Start(cash0, cancelled), clock, n);
            Justified(env, st.emitted, clock, cash0, st.log[..i], st.log[i])
  {
    hide Step, Justified;
    RowsAudited(env, cash0, cancelled, clock, n);
  }
}
