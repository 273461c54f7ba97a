/** What every run keeps about orders: none is lost or resolved twice, and none fills early or late. */
module OrderProofs {
  import opened OrderedDict
  import opened Market
  import opened Orders
  import opened EngineSpec

  // ---- conservation of legs ----

  /** How many times leg `id` is in an order list. */
  function PendingCount(orders: seq<PendingOrder>, id: nat): nat {
    if orders == [] then 0
    else PendingCount(orders[..|orders| - 1], id) + (if orders[|orders| - 1].id == id then 1 else 0)
  }

  /** A fill or a rejection resolves its own leg. */
  predicate Resolves(e: Event, id: nat) {
    (e.Filled? || e.Rejected?) && e.id == id
  }

  /** How many times leg `id` has been resolved. */
  function ResolvedCount(log: seq<Event>, id: nat): nat {
    if log == [] then 0 else ResolvedCount(log[..|log| - 1], id) + (if Resolves(log[|log| - 1], id) then 1 else 0)
  }

  ghost predicate Ascending(orders: seq<PendingOrder>) {
    forall i, j :: 0 <= i < j < |orders| ==> orders[i].id < orders[j].id
  }

  ghost predicate Below(orders: seq<PendingOrder>, bound: nat) {
    forall i :: 0 <= i < |orders| ==> orders[i].id < bound
  }

  /** Leg `id` is pending or resolved, exactly once, when emitted; the queue keeps emission order. */
  ghost predicate LegsOk(st: State, id: nat) {
    && ResolvedCount(st.log, id) + PendingCount(st.pending, id) == (if id < |st.emitted| then 1 else 0)
    && Ascending(st.pending) && Below(st.pending, |st.emitted|)
  }

  lemma ResolvedOne(log: seq<Event>, e: Event, id: nat)
    ensures ResolvedCount(log + [e], id) == ResolvedCount(log, id) + if Resolves(e, id) then 1 else 0
  {
    assert (log + [e])[..|log|] == log;
  }

  lemma PendingOne(orders: seq<PendingOrder>, po: PendingOrder, id: nat)
    ensures PendingCount(orders + [po], id) == PendingCount(orders, id) + if po.id == id then 1 else 0
  {
    assert (orders + [po])[..|orders|] == orders;
  }

  /** An attempted order is either kept, last in the queue, or resolved by one new event. */
  ghost predicate HandsOver(before: State, after: State, id: nat) {
    && after.emitted == before.emitted
    && (|| (|after.log| == |before.log| + 1 && after.log == before.log + [after.log[|before.log|]]
            && Resolves(after.log[|before.log|], id) && after.pending == before.pending)
        || (after.log == before.log
            && |after.pending| == |before.pending| + 1 && after.pending == before.pending + [after.pending[|before.pending|]]
            && after.pending[|before.pending|].id == id))
  }

  lemma UnfilledHandsOver(env: Env, st: State, po: PendingOrder, row: nat)
    ensures HandsOver(st, Unfilled(env, st, po, row), po.id)
  {
  }

  lemma BookHandsOver(env: Env, st: State, po: PendingOrder, row: nat, fill: Fill)
    requires fill.quantity > 0.0
    ensures HandsOver(st, BookOrRefuse(env, st, po, row, fill), po.id)
  {
    hide Refusal, Rebook, StorePosition, Notional;
  }

  lemma AttemptHandsOver(env: Env, st: State, po: PendingOrder, row: nat, bar: Bar)
    ensures HandsOver(st, AttemptOrder(env, st, po, row, bar), po.id)
  {
    hide TryFillAt, BookOrRefuse, Unfilled;
    var tried := po.(attempted := true);
    match TryFillAt(env, tried, bar, st.draws) {
      case Executed(fill, draws) => BookHandsOver(env, st.(draws := draws), tried, row, fill);
      case Triggered(leg) =>
      case NotExecuted => UnfilledHandsOver(env, st, tried, row);
    }
  }

  /** What working through a list of orders, collecting survivors, keeps. */
  ghost predicate Collected(start: State, after: State, todo: seq<PendingOrder>, bound: nat, id: nat) {
    && after.emitted == start.emitted
    && ResolvedCount(after.log, id) + PendingCount(after.pending, id) == ResolvedCount(start.log, id) + PendingCount(todo, id)
    && Ascending(after.pending) && Below(after.pending, bound)
  }

  lemma CollectOne(start: State, before: State, after: State, todo: seq<PendingOrder>, bound: nat, id: nat)
    requires todo != [] && Below(todo, bound) && HandsOver(before, after, todo[|todo| - 1].id)
    requires Collected(start, before, todo[..|todo| - 1], todo[|todo| - 1].id, id)
    ensures Collected(start, after, todo, bound, id)
  {
    if after.pending == before.pending {
      ResolvedOne(before.log, after.log[|before.log|], id);
    } else {
      PendingOne(before.pending, after.pending[|before.pending|], id);
    }
  }

  lemma {:induction false} AttemptAllCollects(env: Env, st: State, todo: seq<PendingOrder>, row: nat, bar: Bar, bound: nat, id: nat)
    requires st.pending == [] && Ascending(todo) && Below(todo, bound)
    ensures Collected(st, AttemptAll(env, st, todo, row, bar), todo, bound, id)
  {
    hide AttemptOrder, HandsOver;
    if todo != [] {
      var rest, last := todo[..|todo| - 1], todo[|todo| - 1];
      AttemptAllCollects(env, st, rest, row, bar, last.id, id);
      var before := AttemptAll(env, st, rest, row, bar);
      AttemptHandsOver(env, before, last, row, bar);
      CollectOne(st, before, AttemptOrder(env, before, last, row, bar), todo, bound, id);
    }
  }

  lemma {:induction false} DropAllCollects(env: Env, st: State, todo: seq<PendingOrder>, row: nat, now: int, bound: nat, id: nat)
    requires st.pending == [] && Ascending(todo) && Below(todo, bound)
    requires !DropAll(env, st, todo, row, now).failed
    ensures Collected(st, DropAll(env, st, todo, row, now), todo, bound, id)
  {
    hide DropOne, HandsOver;
    if todo != [] {
      var rest, last := todo[..|todo| - 1], todo[|todo| - 1];
      var before := DropAll(env, st, rest, row, now);
      DropHandsOver(env, before, last, row, now);
      DropAllCollects(env, st, rest, row, now, last.id, id);
      CollectOne(st, before, DropOne(env, before, last, row, now), todo, bound, id);
    }
  }

  lemma DropHandsOver(env: Env, st: State, po: PendingOrder, row: nat, now: int)
    requires !DropOne(env, st, po, row, now).failed
    ensures !st.failed && HandsOver(st, DropOne(env, st, po, row, now), po.id)
  {
    hide HandleExpiry;
  }

  lemma {:induction false} RejectAllResolves(st: State, orders: seq<PendingOrder>, row: nat, reason: Reason, id: nat)
    ensures var after := RejectAll(st, orders, row, reason);
            ResolvedCount(after.log, id) == ResolvedCount(st.log, id) + PendingCount(orders, id) && after == st.(log := after.log)
  {
    if orders != [] {
      var rest := orders[..|orders| - 1];
      RejectAllResolves(st, rest, row, reason, id);
      var before := RejectAll(st, rest, row, reason);
      ResolvedOne(before.log, Rejected(orders[|orders| - 1].id, row, orders[|orders| - 1].leg, reason), id);
    }
  }

  lemma {:induction false} QueueLegsLegs(st: State, legs: seq<Leg>, row: nat, bar: Bar, id: nat)
    requires LegsOk(st, id)
    ensures LegsOk(QueueLegs(st, legs, row, bar), id)
  {
    if legs != [] {
      var rest := legs[..|legs| - 1];
      QueueLegsLegs(st, rest, row, bar, id);
      var before := QueueLegs(st, rest, row, bar);
      PendingOne(before.pending, PendingOrder(|before.emitted|, legs[|legs| - 1], row + 1, false, DateOf(bar.time), false), id);
    }
  }

  lemma {:induction false} QueueSignalsLegs(st: State, signals: seq<Signal>, row: nat, bar: Bar, id: nat)
    requires LegsOk(st, id)
    ensures LegsOk(QueueSignals(st, signals, row, bar), id)
  {
    hide LegsOk;
    if signals != [] {
      var rest := signals[..|signals| - 1];
      QueueSignalsLegs(st, rest, row, bar, id);
      QueueLegsLegs(QueueSignals(st, rest, row, bar), signals[|signals| - 1].legs, row, bar, id);
    }
  }

  lemma TradeLegs(env: Env, st: State, row: nat, bar: Bar, id: nat)
    requires LegsOk(st, id)
    ensures LegsOk(Trade(env, st, row, bar), id)
  {
    hide ViewAt, AttemptAll, QueueSignals, RejectAll;
    var history := st.history + [ViewAt(env, st, bar.time + env.duration)];
    var decision := env.algorithm(history);
    QueueSignalsLegs(st.(history := history, cancelRequested := st.cancelRequested || decision.cancelAll),
                     decision.signals, row, bar, id);
    var ticked := Tick(env, st, row, bar);
    AttemptAllCollects(env, ticked.(pending := []), ticked.pending, row, bar, |ticked.emitted|, id);
    var processed := ProcessPending(env, ticked, row, bar);
    RejectAllResolves(processed, processed.pending, row, CancelledByAlgorithm, id);
  }

  /** Settling positions touches neither the order queue nor any leg. */
  ghost predicate LeavesOrders(before: State, after: State, id: nat) {
    && after.emitted == before.emitted && after.pending == before.pending
    && ResolvedCount(after.log, id) == ResolvedCount(before.log, id)
  }

  lemma SettleOneQuiet(env: Env, st: State, held: Entry<Symbol, Position>, row: nat, now: int, id: nat)
    ensures LeavesOrders(st, SettleOne(env, st, held, row, now), id)
  {
    hide HandleExpiry, Worth, ResolvedCount;
    var after := SettleOne(env, st, held, row, now);
    if after.log != st.log {
      ResolvedOne(st.log, after.log[|st.log|], id);
    }
  }

  lemma {:induction false} SettleAllQuiet(env: Env, st: State, held: Positions, row: nat, now: int, id: nat)
    ensures LeavesOrders(st, SettleAll(env, st, held, row, now), id)
  {
    hide SettleOne, ResolvedCount;
    if held != [] {
      var rest := held[..|held| - 1];
      SettleAllQuiet(env, st, rest, row, now, id);
      SettleOneQuiet(env, SettleAll(env, st, rest, row, now), held[|held| - 1], row, now, id);
    }
  }

  lemma StepLegs(env: Env, st: State, row: nat, bar: Bar, id: nat)
    requires LegsOk(st, id) && !Step(env, st, row, bar).failed
    ensures LegsOk(Step(env, st, row, bar), id)
  {
    hide Trade, SettleAll, DropAll, MarketValue;
    if !st.failed {
      var now := bar.time + env.duration;
      var traded := Trade(env, st, row, bar);
      TradeLegs(env, st, row, bar, id);
      SettleAllQuiet(env, traded, traded.positions, row, now, id);
      var settled := SettleAll(env, traded, traded.positions, row, now);
      DropAllCollects(env, settled.(pending := []), settled.pending, row, now, |settled.emitted|, id);
      var dropped := DropExpired(env, settled, row, now);
      ResolvedOne(dropped.log, EquityPoint(row, now, dropped.cash + MarketValue(env, dropped.positions, now), dropped.cash), id);
    }
  }

  lemma {:induction false} RowsLegs(env: Env, cash0: real, cancelled: bool, clock: seq<Bar>, n: nat, id: nat)
    requires n <= |clock| && !Rows(env, Start(cash0, cancelled), clock, n).failed
    ensures LegsOk(Rows(env, Start(cash0, cancelled), clock, n), id)
  {
    hide Step;
    if n > 0 {
      FailureSticks(env, Start(cash0, cancelled), clock, n);
      RowsLegs(env, cash0, cancelled, clock, n - 1, id);
      StepLegs(env, Rows(env, Start(cash0, cancelled), clock, n - 1), n - 1, clock[n - 1], id);
    }
  }

  /**
   Conservation of orders. At every loop head each emitted leg is exactly once among the fills,
   the rejections or the pending orders, and pending keeps emission order.
   */
  lemma {:induction false} OrderConservation(env: Env, cash0: real, cancelled: bool, clock: seq<Bar>, n: nat, id: nat)
    requires n <= |clock| && !Rows(env, Start(cash0, cancelled), clock, n).failed
    ensures var st := Rows(env, Start(cash0, cancelled), clock, n);
            && ResolvedCount(st.log, id) + PendingCount(st.pending, id) == (if id < |st.emitted| then 1 else 0)
            && Ascending(st.pending)
  {
    hide Step;
    RowsLegs(env, cash0, cancelled, clock, n, id);
  }

  /** The end-of-backtest rejections of what is still open, in order. */
  function EndRejections(orders: seq<PendingOrder>, row: nat): seq<Event> {
    seq(|orders|, i requires 0 <= i < |orders| => Rejected(orders[i].id, row, orders[i].leg, EndOfBacktest))
  }

  lemma FinishRejects(st: State, clock: seq<Bar>)
    requires clock != []
    ensures Finish(st, clock) == st.(pending := [], log := st.log + EndRejections(st.pending, |clock| - 1))
  {
    hide RejectAll;
    RejectsInOrder(st, st.pending, |clock| - 1, EndOfBacktest);
  }

  lemma FinishResolves(st: State, clock: seq<Bar>, id: nat)
    requires clock != [] && LegsOk(st, id)
    ensures ResolvedCount(Finish(st, clock).log, id) == if id < |st.emitted| then 1 else 0
  {
    hide RejectAll, ResolvedCount, PendingCount;
    RejectAllResolves(st, st.pending, |clock| - 1, EndOfBacktest, id);
  }

  /**
   A run that completes has resolved every leg it emitted exactly once, and leaves none pending: what was
   still open is rejected as the end of the backtest, in order, and nothing else changes.
   */
  lemma {:induction false} CompletedRunResolvesAll(env: Env, cash0: real, cancelled: bool, clock: seq<Bar>, id: nat)
    requires clock != [] && !Rows(env, Start(cash0, cancelled), clock, |clock|).failed
    ensures var before := Rows(env, Start(cash0, cancelled), clock, |clock|);
            var st := Finish(before, clock);
            && ResolvedCount(st.log, id) == (if id < |st.emitted| then 1 else 0)
            && st == before.(pending := [], log := before.log + EndRejections(before.pending, |clock| - 1))
  {
    hide Step, Finish, LegsOk, ResolvedCount, EndRejections;
    RowsLegs(env, cash0, cancelled, clock, |clock|, id);
    FinishResolves(Rows(env, Start(cash0, cancelled), clock, |clock|), clock, id);
    FinishRejects(Rows(env, Start(cash0, cancelled), clock, |clock|), clock);
  }

  // ---- a cancellation left over from discovery ----

  /** Attempting orders that are not due keeps them all. */
  lemma {:induction false} NothingDueYet(env: Env, st: State, todo: seq<PendingOrder>, row: nat, bar: Bar)
    requires forall i :: 0 <= i < |todo| ==> todo[i].scheduledFor > row
    ensures AttemptAll(env, st, todo, row, bar) == st.(pending := st.pending + todo)
  {
    if todo == [] {
      assert st.pending + todo == st.pending;
    } else {
      var rest := todo[..|todo| - 1];
      NothingDueYet(env, st, rest, row, bar);
      assert st.pending + rest + [todo[|todo| - 1]] == st.pending + todo;
    }
  }

  lemma {:induction false} StillQuiet(env: Env, st: State, todo: seq<PendingOrder>, row: nat, bar: Bar)
    ensures AttemptAll(env, st, todo, row, bar).cancelRequested == st.cancelRequested
  {
    hide TryFillAt, Refusal, Rebook, StorePosition, Notional, PositionFor;
    if todo != [] {
      StillQuiet(env, st, todo[..|todo| - 1], row, bar);
    }
  }

  /** Everything emitted so far was emitted on this row, and waits for the next. */
  ghost predicate EmittedOn(st: State, row: nat) {
    && |st.pending| == |st.emitted|
    && forall i :: 0 <= i < |st.pending| ==>
         st.pending[i].id == i && st.pending[i].leg == st.emitted[i].leg && st.pending[i].scheduledFor > row
  }

  lemma {:induction false} QueueLegsEmits(st: State, legs: seq<Leg>, row: nat, bar: Bar)
    requires EmittedOn(st, row)
    ensures EmittedOn(QueueLegs(st, legs, row, bar), row)
  {
    if legs != [] {
      QueueLegsEmits(st, legs[..|legs| - 1], row, bar);
    }
  }

  lemma {:induction false} QueueSignalsEmits(st: State, signals: seq<Signal>, row: nat, bar: Bar)
    requires EmittedOn(st, row)
    ensures EmittedOn(QueueSignals(st, signals, row, bar), row)
  {
    hide EmittedOn;
    if signals != [] {
      var rest := signals[..|signals| - 1];
      QueueSignalsEmits(st, rest, row, bar);
      QueueLegsEmits(QueueSignals(st, rest, row, bar), signals[|signals| - 1].legs, row, bar);
    }
  }

  /** Rejecting a list of orders logs exactly one rejection each, in their order. */
  lemma {:induction false} RejectsInOrder(st: State, orders: seq<PendingOrder>, row: nat, reason: Reason)
    ensures RejectAll(st, orders, row, reason)
         == st.(log := st.log + seq(|orders|, i requires 0 <= i < |orders| => Rejected(orders[i].id, row, orders[i].leg, reason)))
  {
    if orders == [] {
      assert st.log + [] == st.log;
    } else {
      var rest, last := orders[..|orders| - 1], orders[|orders| - 1];
      RejectsInOrder(st, rest, row, reason);
      assert RejectAll(st, orders, row, reason).log
          == st.log + seq(|orders|, i requires 0 <= i < |orders| => Rejected(orders[i].id, row, orders[i].leg, reason));
    }
  }

  lemma RejectAllLogs(st: State, orders: seq<PendingOrder>, row: nat, reason: Reason)
    ensures var after := RejectAll(st, orders, row, reason);
            && after == st.(log := after.log)
            && (forall e :: e in after.log ==> e in st.log || e.Rejected?)
            && forall i :: 0 <= i < |orders| ==> Rejected(orders[i].id, row, orders[i].leg, reason) in after.log
  {
    RejectsInOrder(st, orders, row, reason);
    var after := RejectAll(st, orders, row, reason);
    forall i | 0 <= i < |orders| ensures Rejected(orders[i].id, row, orders[i].leg, reason) in after.log {
      assert after.log[|st.log| + i] == Rejected(orders[i].id, row, orders[i].leg, reason);
    }
  }

  /** A cancellation asked for before the first tick rejects all that the first tick emits. */
  lemma FirstTradeCancelled(env: Env, cash0: real, bar: Bar)
    ensures var st := Trade(env, Start(cash0, true), 0, bar);
            && st.pending == [] && st.positions == [] && st.cash == cash0 && !st.cancelRequested && !st.failed
            && (forall e :: e in st.log ==> e.Rejected?)
            && forall id :: 0 <= id < |st.emitted| ==> Rejected(id, 0, st.emitted[id].leg, CancelledByAlgorithm) in st.log
  {
    hide ViewAt, QueueSignals, AttemptAll, RejectAll;
    var start := Start(cash0, true);
    var history := start.history + [ViewAt(env, start, bar.time + env.duration)];
    var decision := env.algorithm(history);
    QueueSignalsEmits(start.(history := history), decision.signals, 0, bar);
    QueueSignalsFrame(start.(history := history), decision.signals, 0, bar);
    var ticked := Tick(env, start, 0, bar);
    NothingDueYet(env, ticked.(pending := []), ticked.pending, 0, bar);
    assert [] + ticked.pending == ticked.pending;
    RejectAllLogs(ticked, ticked.pending, 0, CancelledByAlgorithm);
  }

  /**
   A cancellation left over from the discovery pass is honoured on the first row of the replay: every
   order the algorithm emits there is rejected there, nothing fills, and trading starts a row late.
   */
  lemma {:induction false} LeftoverCancelRejectsFirstRow(env: Env, cash0: real, clock: seq<Bar>)
    requires clock != []
    ensures var st := Rows(env, Start(cash0, true), clock, 1);
            && st.pending == [] && st.positions == [] && st.cash == cash0 && !st.cancelRequested
            && (forall e :: e in st.log ==> !e.Filled?)
            && forall id :: 0 <= id < |st.emitted| ==> Rejected(id, 0, st.emitted[id].leg, CancelledByAlgorithm) in st.log
  {
    hide Trade, MarketValue;
    FirstTradeCancelled(env, cash0, clock[0]);
    assert Rows(env, Start(cash0, true), clock, 0) == Start(cash0, true);
    var traded := Trade(env, Start(cash0, true), 0, clock[0]);
    assert SettleAll(env, traded, [], 0, clock[0].time + env.duration) == traded;
    assert DropAll(env, traded, [], 0, clock[0].time + env.duration) == traded;
  }
}
