/** Which shorts a run can have assigned, read from its inputs alone. */
module Assignments {
  import opened OrderedDict
  import opened Market
  import opened Orders
  import opened EngineSpec
  import opened AccountProofs

  /** The simulated time of clock row `k`: its bar's close. */
  function TimeOf(env: Env, clock: seq<Bar>, k: nat): int
    requires k < |clock|
  {
    clock[k].time + env.duration
  }

  predicate Expired(env: Env, symbol: Symbol, now: int) {
    IsOption(env, symbol) && env.contractOf(symbol).Some? && DateOf(now) > env.contractOf(symbol).value.expiration
  }

  predicate QuotedForSale(env: Env, symbol: Symbol, now: int) {
    env.optionQuote(symbol, Sell, now).Some? && env.optionQuote(symbol, Sell, now).value > 0.0
  }

  /** The assignment of a short of `symbol` at `now` takes cash. */
  predicate DrawsAt(env: Env, symbol: Symbol, now: int) {
    var x := HandleExpiry(env, symbol, -1.0, 0.0, now);
    x.Expires? && x.price > 0.0
  }

  /** A short of `symbol` can be opened at row `f` and still be open after the trading of row `b`. */
  ghost predicate Shortable(env: Env, clock: seq<Bar>, symbol: Symbol, f: nat, b: nat) {
    && 1 <= f <= b && f < |clock| && IsOption(env, symbol) && QuotedForSale(env, symbol, TimeOf(env, clock, f))
    && forall j: nat :: f - 1 <= j < b && j < |clock| ==> !Expired(env, symbol, TimeOf(env, clock, j))
  }

  /** A short of `symbol` can be opened at row `f` and be assigned, at a cost, at row `k`. */
  ghost predicate Assignable(env: Env, clock: seq<Bar>, symbol: Symbol, f: nat, k: nat) {
    Shortable(env, clock, symbol, f, k) && k < |clock| && DrawsAt(env, symbol, TimeOf(env, clock, k))
  }

  ghost predicate NothingAssignable(env: Env, clock: seq<Bar>) {
    forall symbol, f: nat, k: nat :: !Assignable(env, clock, symbol, f, k)
  }

  /** A settlement that takes cash. */
  predicate Draws(env: Env, e: Event) {
    e.Settled? && Unchecked(env, e) != 0.0
  }

  // ---- what the state of a run owes to its inputs ----

  /** Every short option can have been opened at some earlier row. */
  ghost function Opened(env: Env, clock: seq<Bar>, b: nat): (Symbol, Position) -> bool {
    (symbol: Symbol, ps: Position) =>
      IsOption(env, symbol) && ps.quantity < 0.0 ==> exists f: nat :: Shortable(env, clock, symbol, f, b)
  }

  /** An order that may be attempted at row `b` is on a contract that had not expired a row earlier. */
  ghost predicate Live(env: Env, clock: seq<Bar>, po: PendingOrder, b: nat) {
    po.scheduledFor > b || (1 <= b <= |clock| && !Expired(env, po.leg.symbol, TimeOf(env, clock, b - 1)))
  }

  ghost predicate AllLive(env: Env, clock: seq<Bar>, orders: seq<PendingOrder>, b: nat) {
    forall i :: 0 <= i < |orders| ==> Live(env, clock, orders[i], b)
  }

  ghost predicate DrawAssignable(env: Env, clock: seq<Bar>, e: Event) {
    Draws(env, e) ==> exists f: nat :: Assignable(env, clock, e.fill.symbol, f, e.row)
  }

  ghost predicate LogAssignable(env: Env, clock: seq<Bar>, log: seq<Event>) {
    forall i :: 0 <= i < |log| ==> DrawAssignable(env, clock, log[i])
  }

  ghost predicate HeldOk(env: Env, clock: seq<Bar>, positions: Positions, b: nat) {
    Distinct(positions) && All(positions, Opened(env, clock, b))
  }

  ghost predicate AssignOk(env: Env, clock: seq<Bar>, st: State, b: nat) {
    && LogAssignable(env, clock, st.log)
    && (!st.failed ==> HeldOk(env, clock, st.positions, b) && AllLive(env, clock, st.pending, b))
  }

  // ---- fills ----

  lemma OptionSaleQuoted(env: Env, po: PendingOrder, bar: Bar, draws: nat)
    requires IsOption(env, po.leg.symbol) && SideOf(po.leg).Sell?
    ensures TryFillAt(env, po, bar, draws).Executed? ==> QuotedForSale(env, po.leg.symbol, bar.time + env.duration)
  {
    hide SumFees, Slipped, StopTriggered;
  }

  lemma FoundOpened(env: Env, clock: seq<Bar>, positions: Positions, fill: Fill, b: nat)
    requires HeldOk(env, clock, positions, b)
    ensures Opened(env, clock, b)(fill.symbol, PositionFor(positions, fill))
  {
    FindIsEntry(positions, fill.symbol);
    if Find(positions, fill.symbol).Some? {
      var i :| 0 <= i < |positions| && positions[i].key == fill.symbol && positions[i].value == Find(positions, fill.symbol).value;
      assert Opened(env, clock, b)(positions[i].key, positions[i].value);
    }
  }

  lemma ApplyFillOpened(env: Env, clock: seq<Bar>, st: State, id: nat, row: nat, fill: Fill)
    requires fill.quantity > 0.0 && HeldOk(env, clock, st.positions, row)
    requires IsOption(env, fill.symbol) && fill.side.Sell? ==> Shortable(env, clock, fill.symbol, row, row)
    ensures HeldOk(env, clock, ApplyFill(env, st, id, row, fill).positions, row)
  {
    hide Rebook, StorePosition, PositionFor;
    var ps, m := PositionFor(st.positions, fill), Multiplier(env, fill.symbol);
    FoundOpened(env, clock, st.positions, fill, row);
    RebookQuantity(ps, fill, m);
    StoreKeeps(st.positions, fill.symbol, Rebook(ps, fill, m).position, Opened(env, clock, row));
  }

  /** The step adds one event, no settlement, to the log, or one order that waits for a later row to the queue. */
  predicate AttemptStep(before: State, after: State, row: nat) {
    && after.failed == before.failed
    && (after.log == before.log
        || (|after.log| > 0 && after.log == before.log + [after.log[|after.log| - 1]] && !after.log[|after.log| - 1].Settled?))
    && (after.pending == before.pending
        || (|after.pending| > 0 && after.pending == before.pending + [after.pending[|after.pending| - 1]]
            && after.pending[|after.pending| - 1].scheduledFor > row))
  }

  lemma BookFrame(env: Env, st: State, po: PendingOrder, row: nat, fill: Fill)
    requires fill.quantity > 0.0
    ensures AttemptStep(st, BookOrRefuse(env, st, po, row, fill), row)
  {
    hide Refusal, Rebook, StorePosition, Notional, PositionFor;
  }

  lemma UnfilledFrame(env: Env, st: State, po: PendingOrder, row: nat)
    ensures AttemptStep(st, Unfilled(env, st, po, row), row)
  {
  }

  lemma AttemptFrame(env: Env, st: State, po: PendingOrder, row: nat, bar: Bar)
    ensures AttemptStep(st, AttemptOrder(env, st, po, row, bar), row)
  {
    hide TryFillAt, BookOrRefuse, Unfilled;
    var tried := po.(attempted := true);
    UnfilledFrame(env, st, tried, row);
    match TryFillAt(env, tried, bar, st.draws) {
      case Executed(fill, draws) => BookFrame(env, st.(draws := draws), tried, row, fill);
      case _ =>
    }
  }

  lemma AttemptOpened(env: Env, clock: seq<Bar>, st: State, po: PendingOrder, row: nat)
    requires row < |clock| && HeldOk(env, clock, st.positions, row) && Live(env, clock, po, row)
    ensures HeldOk(env, clock, AttemptOrder(env, st, po, row, clock[row]).positions, row)
  {
    hide TryFillAt, Refusal, ApplyFill, HeldOk, Expired;
    var tried, bar := po.(attempted := true), clock[row];
    match TryFillAt(env, tried, bar, st.draws) {
      case Executed(fill, draws) =>
        if po.scheduledFor <= row {
          if IsOption(env, po.leg.symbol) && fill.side.Sell? {
            OptionSaleQuoted(env, tried, bar, st.draws);
            assert Shortable(env, clock, fill.symbol, row, row);
          }
          ApplyFillOpened(env, clock, st.(draws := draws), po.id, row, fill);
        }
      case _ =>
    }
  }

  lemma AttemptAssign(env: Env, clock: seq<Bar>, st: State, po: PendingOrder, row: nat)
    requires row < |clock| && AssignOk(env, clock, st, row) && Live(env, clock, po, row) && !st.failed
    ensures AssignOk(env, clock, AttemptOrder(env, st, po, row, clock[row]), row)
  {
    hide AttemptOrder, HeldOk, Expired, Assignable;
    AttemptFrame(env, st, po, row, clock[row]);
    AttemptOpened(env, clock, st, po, row);
  }

  lemma {:induction false} AttemptAllAssign(env: Env, clock: seq<Bar>, st: State, todo: seq<PendingOrder>, row: nat)
    requires row < |clock| && AssignOk(env, clock, st, row) && AllLive(env, clock, todo, row) && !st.failed
    ensures var after := AttemptAll(env, st, todo, row, clock[row]); AssignOk(env, clock, after, row) && !after.failed
  {
    hide AttemptOrder, AssignOk, Live;
    if todo != [] {
      var rest, last := todo[..|todo| - 1], todo[|todo| - 1];
      AttemptAllAssign(env, clock, st, rest, row);
      var before := AttemptAll(env, st, rest, row, clock[row]);
      AttemptAssign(env, clock, before, last, row);
      AttemptFrame(env, before, last, row, clock[row]);
    }
  }

  // ---- the rest of the trading half ----

  lemma {:induction false} QueueLegsLive(env: Env, clock: seq<Bar>, st: State, legs: seq<Leg>, row: nat, bar: Bar)
    requires AllLive(env, clock, st.pending, row)
    ensures AllLive(env, clock, QueueLegs(st, legs, row, bar).pending, row)
  {
    hide Expired;
    if legs != [] {
      QueueLegsLive(env, clock, st, legs[..|legs| - 1], row, bar);
    }
  }

  lemma {:induction false} QueueSignalsLive(env: Env, clock: seq<Bar>, st: State, signals: seq<Signal>, row: nat, bar: Bar)
    requires AllLive(env, clock, st.pending, row)
    ensures AllLive(env, clock, QueueSignals(st, signals, row, bar).pending, row)
  {
    hide AllLive, QueueLegs;
    if signals != [] {
      var rest := signals[..|signals| - 1];
      QueueSignalsLive(env, clock, st, rest, row, bar);
      QueueLegsLive(env, clock, QueueSignals(st, rest, row, bar), signals[|signals| - 1].legs, row, bar);
    }
  }

  lemma LogOneAssign(env: Env, clock: seq<Bar>, log: seq<Event>, e: Event)
    requires LogAssignable(env, clock, log) && DrawAssignable(env, clock, e)
    ensures LogAssignable(env, clock, log + [e])
  {
  }

  lemma {:induction false} RejectAllAssign(env: Env, clock: seq<Bar>, st: State, orders: seq<PendingOrder>, row: nat, reason: Reason)
    requires LogAssignable(env, clock, st.log)
    ensures LogAssignable(env, clock, RejectAll(st, orders, row, reason).log)
  {
    hide LogAssignable;
    if orders != [] {
      var rest, last := orders[..|orders| - 1], orders[|orders| - 1];
      RejectAllAssign(env, clock, st, rest, row, reason);
      LogOneAssign(env, clock, RejectAll(st, rest, row, reason).log, Rejected(last.id, row, last.leg, reason));
    }
  }

  lemma TradeAssign(env: Env, clock: seq<Bar>, st: State, row: nat)
    requires row < |clock| && AssignOk(env, clock, st, row) && !st.failed
    ensures var after := Trade(env, st, row, clock[row]); AssignOk(env, clock, after, row) && !after.failed
  {
    hide ViewAt, AttemptAll, QueueSignals, RejectAll, Live, HeldOk, LogAssignable;
    var bar := clock[row];
    var history := st.history + [ViewAt(env, st, bar.time + env.duration)];
    var decision := env.algorithm(history);
    var asked := st.(history := history, cancelRequested := st.cancelRequested || decision.cancelAll);
    QueueSignalsFrame(asked, decision.signals, row, bar);
    QueueSignalsLive(env, clock, asked, decision.signals, row, bar);
    var ticked := Tick(env, st, row, bar);
    AttemptAllAssign(env, clock, ticked.(pending := []), ticked.pending, row);
    var processed := ProcessPending(env, ticked, row, bar);
    RejectAllFrame(processed, processed.pending, row, CancelledByAlgorithm);
    RejectAllAssign(env, clock, processed, processed.pending, row, CancelledByAlgorithm);
  }

  // ---- settlement ----

  /** The contract rule by itself: what has not expired is left alone, what has settles or stops the run. */
  lemma ExpiryRule(env: Env, symbol: Symbol, quantity: real, avgPrice: real, now: int)
    ensures var x := HandleExpiry(env, symbol, quantity, avgPrice, now);
            && (x.NotExpired? <==> !Expired(env, symbol, now))
            && (x.Expires? ==> (x.side.Buy? <==> quantity < 0.0) && IsOption(env, symbol))
            && (x.Expires? ==> (x.price > 0.0 <==> DrawsAt(env, symbol, now)))
  {
    hide Worth, UnderlyingPrice;
  }

  /** After part of the settlement: what is left is held, and nothing settled so far is. */
  ghost predicate Settling(env: Env, clock: seq<Bar>, st: State, held: Positions, n: nat, row: nat, now: int)
    requires n <= |held|
  {
    && LogAssignable(env, clock, st.log)
    && (!st.failed ==>
          HeldOk(env, clock, st.positions, row)
          && forall e :: e in st.positions ==> e in held && forall i :: 0 <= i < n && e.key == held[i].key ==> !Expired(env, e.key, now))
  }

  lemma SettleOneAssign(env: Env, clock: seq<Bar>, st: State, held: Positions, n: nat, row: nat)
    requires row < |clock| && n < |held| && All(held, Opened(env, clock, row))
    requires Settling(env, clock, st, held, n, row, TimeOf(env, clock, row))
    ensures Settling(env, clock, SettleOne(env, st, held[n], row, TimeOf(env, clock, row)), held, n + 1, row, TimeOf(env, clock, row))
  {
    hide HandleExpiry, LogAssignable, Worth, Expired, DrawsAt;
    var now, e := TimeOf(env, clock, row), held[n];
    ExpiryRule(env, e.key, e.value.quantity, e.value.avgPrice, now);
    if !st.failed && HandleExpiry(env, e.key, e.value.quantity, e.value.avgPrice, now).Expires? {
      SettlementParts(env, st, e, row, now);
      SettlementConserves(env, e.key, e.value, now);
      RemoveKeeps(st.positions, e.key, Opened(env, clock, row));
      RemoveKeys(st.positions, e.key);
      var after := SettleOne(env, st, e, row, now);
      var settled := after.log[|st.log|];
      if Draws(env, settled) {
        assert Opened(env, clock, row)(e.key, e.value);
        var f: nat :| Shortable(env, clock, e.key, f, row);
        assert Assignable(env, clock, e.key, f, row);
      }
      LogOneAssign(env, clock, st.log, settled);
    }
  }

  lemma {:induction false} SettleAllAssign(env: Env, clock: seq<Bar>, st: State, held: Positions, n: nat, row: nat)
    requires row < |clock| && n <= |held| && held == st.positions && !st.failed
    requires LogAssignable(env, clock, st.log) && HeldOk(env, clock, st.positions, row)
    ensures Settling(env, clock, SettleAll(env, st, held[..n], row, TimeOf(env, clock, row)), held, n, row, TimeOf(env, clock, row))
  {
    hide SettleOne, LogAssignable;
    if n > 0 {
      hide Settling;
      SettleAllAssign(env, clock, st, held, n - 1, row);
      assert held[..n][..n - 1] == held[..n - 1];
      SettleOneAssign(env, clock, SettleAll(env, st, held[..n - 1], row, TimeOf(env, clock, row)), held, n - 1, row);
    }
  }

  /** Whatever is held after settlement has not expired, so its short can last another row. */
  lemma SettledNext(env: Env, clock: seq<Bar>, st: State, held: Positions, row: nat)
    requires row < |clock| && !st.failed && Settling(env, clock, st, held, |held|, row, TimeOf(env, clock, row))
    ensures HeldOk(env, clock, st.positions, row + 1)
  {
    hide Expired;
    var now := TimeOf(env, clock, row);
    forall i | 0 <= i < |st.positions| ensures Opened(env, clock, row + 1)(st.positions[i].key, st.positions[i].value) {
      var e := st.positions[i];
      assert e in st.positions && !Expired(env, e.key, now);
      assert Opened(env, clock, row)(e.key, e.value);
      if IsOption(env, e.key) && e.value.quantity < 0.0 {
        var f: nat :| Shortable(env, clock, e.key, f, row);
        assert Shortable(env, clock, e.key, f, row + 1);
      }
    }
  }

  lemma {:induction false} DropAllAssign(env: Env, clock: seq<Bar>, st: State, orders: seq<PendingOrder>, row: nat)
    requires row < |clock| && LogAssignable(env, clock, st.log) && AllLive(env, clock, st.pending, row + 1)
    ensures var after := DropAll(env, st, orders, row, TimeOf(env, clock, row));
            && LogAssignable(env, clock, after.log) && after.positions == st.positions && (st.failed ==> after.failed)
            && AllLive(env, clock, after.pending, row + 1)
  {
    hide HandleExpiry, Expired, LogAssignable;
    if orders != [] {
      var rest, last, now := orders[..|orders| - 1], orders[|orders| - 1], TimeOf(env, clock, row);
      DropAllAssign(env, clock, st, rest, row);
      ExpiryRule(env, last.leg.symbol, 1.0, 0.0, now);
      LogOneAssign(env, clock, DropAll(env, st, rest, row, now).log, Rejected(last.id, row, last.leg, ContractExpired));
    }
  }

  lemma StepAssign(env: Env, clock: seq<Bar>, st: State, row: nat)
    requires row < |clock| && AssignOk(env, clock, st, row)
    ensures AssignOk(env, clock, Step(env, st, row, clock[row]), row + 1)
  {
    hide Trade, SettleAll, DropAll, MarketValue, HeldOk, AllLive, LogAssignable, Settling;
    if !st.failed {
      var bar, now := clock[row], TimeOf(env, clock, row);
      var traded := Trade(env, st, row, bar);
      TradeAssign(env, clock, st, row);
      SettleAllAssign(env, clock, traded, traded.positions, |traded.positions|, row);
      assert traded.positions[..|traded.positions|] == traded.positions;
      var settled := SettleAll(env, traded, traded.positions, row, now);
      assert LogAssignable(env, clock, settled.log) by { SettlingLog(env, clock, settled, traded.positions, row, now); }
      assert AllLive(env, clock, [], row + 1) by { NoneLive(env, clock, row + 1); }
      DropAllAssign(env, clock, settled.(pending := []), settled.pending, row);
      var dropped := DropExpired(env, settled, row, now);
      if !settled.failed {
        SettledNext(env, clock, settled, traded.positions, row);
      }
      LogOneAssign(env, clock, dropped.log, EquityPoint(row, now, dropped.cash + MarketValue(env, dropped.positions, now), dropped.cash));
    }
  }

  lemma SettlingLog(env: Env, clock: seq<Bar>, st: State, held: Positions, row: nat, now: int)
    requires Settling(env, clock, st, held, |held|, row, now)
    ensures LogAssignable(env, clock, st.log)
  {
  }

  lemma NoneLive(env: Env, clock: seq<Bar>, b: nat)
    ensures AllLive(env, clock, [], b)
  {
  }

  lemma StartAssign(env: Env, clock: seq<Bar>, cash0: real, cancelled: bool)
    ensures AssignOk(env, clock, Start(cash0, cancelled), 0)
  {
  }

  lemma {:induction false} RowsAssign(env: Env, cash0: real, cancelled: bool, clock: seq<Bar>, n: nat)
    requires n <= |clock|
    ensures AssignOk(env, clock, Rows(env, Start(cash0, cancelled), clock, n), n)
  {
    hide Step, AssignOk;
    if n == 0 {
      StartAssign(env, clock, cash0, cancelled);
    } else {
      RowsAssign(env, cash0, cancelled, clock, n - 1);
      StepAssign(env, clock, Rows(env, Start(cash0, cancelled), clock, n - 1), n - 1);
    }
  }

  /**
   Assignments come from the inputs. Whatever is traded, a settlement that takes cash at row `k` is of
   a contract that is quoted for sale at some row `f`, unexpired from the row before `f` to the row
   before `k`, and expired in the money at `k`.
   */
  lemma {:induction false} DrawsAreAssignable(env: Env, cash0: real, cancelled: bool, clock: seq<Bar>, n: nat, e: Event)
    requires n <= |clock|
    ensures e in Rows(env, Start(cash0, cancelled), clock, n).log && Draws(env, e) ==>
              exists f: nat :: Assignable(env, clock, e.fill.symbol, f, e.row)
  {
    hide Step, Assignable;
    RowsAssign(env, cash0, cancelled, clock, n);
    var log := Rows(env, Start(cash0, cancelled), clock, n).log;
    if e in log {
      var i :| 0 <= i < |log| && log[i] == e;
      assert DrawAssignable(env, clock, log[i]);
    }
  }

  // ---- rows on which nothing expires ----

  ghost predicate NoneHeldExpired(env: Env, positions: Positions, now: int) {
    forall i :: 0 <= i < |positions| ==> !Expired(env, positions[i].key, now)
  }

  ghost predicate NonePendingExpired(env: Env, orders: seq<PendingOrder>, now: int) {
    forall i :: 0 <= i < |orders| ==> !Expired(env, orders[i].leg.symbol, now)
  }

  lemma {:induction false} NothingSettles(env: Env, st: State, held: Positions, row: nat, now: int)
    requires NoneHeldExpired(env, held, now)
    ensures SettleAll(env, st, held, row, now) == st
  {
    hide Expired, HandleExpiry;
    if held != [] {
      var e := held[|held| - 1];
      NothingSettles(env, st, held[..|held| - 1], row, now);
      ExpiryRule(env, e.key, e.value.quantity, e.value.avgPrice, now);
    }
  }

  lemma {:induction false} NothingDrops(env: Env, st: State, orders: seq<PendingOrder>, row: nat, now: int)
    requires NonePendingExpired(env, orders, now) && !st.failed
    ensures DropAll(env, st, orders, row, now) == st.(pending := st.pending + orders)
  {
    hide Expired, HandleExpiry;
    if orders != [] {
      var rest, last := orders[..|orders| - 1], orders[|orders| - 1];
      NothingDrops(env, st, rest, row, now);
      ExpiryRule(env, last.leg.symbol, 1.0, 0.0, now);
      assert st.pending + rest + [last] == st.pending + orders;
    } else {
      assert st.pending + [] == st.pending;
    }
  }

  lemma {:induction false} AttemptAllRunning(env: Env, st: State, todo: seq<PendingOrder>, row: nat, bar: Bar)
    ensures AttemptAll(env, st, todo, row, bar).failed == st.failed
  {
    hide AttemptOrder;
    if todo != [] {
      AttemptAllRunning(env, st, todo[..|todo| - 1], row, bar);
      AttemptFrame(env, AttemptAll(env, st, todo[..|todo| - 1], row, bar), todo[|todo| - 1], row, bar);
    }
  }

  /** The trading half of a row never aborts a run. */
  lemma TradeRunning(env: Env, st: State, row: nat, bar: Bar)
    ensures Trade(env, st, row, bar).failed == st.failed
  {
    hide ViewAt, AttemptAll, QueueSignals, RejectAll;
    var history := st.history + [ViewAt(env, st, bar.time + env.duration)];
    var decision := env.algorithm(history);
    QueueSignalsFrame(st.(history := history, cancelRequested := st.cancelRequested || decision.cancelAll),
                      decision.signals, row, bar);
    var ticked := Tick(env, st, row, bar);
    AttemptAllRunning(env, ticked.(pending := []), ticked.pending, row, bar);
    var processed := ProcessPending(env, ticked, row, bar);
    RejectAllFrame(processed, processed.pending, row, CancelledByAlgorithm);
  }

  /** Such a row is its trading half and its equity point. */
  lemma QuietRow(env: Env, st: State, row: nat, bar: Bar)
    requires !st.failed
    requires NoneHeldExpired(env, Trade(env, st, row, bar).positions, bar.time + env.duration)
    requires NonePendingExpired(env, Trade(env, st, row, bar).pending, bar.time + env.duration)
    ensures Step(env, st, row, bar) == Mark(env, Trade(env, st, row, bar), row, bar.time + env.duration)
  {
    hide Trade, SettleAll, DropAll, Mark, NoneHeldExpired, NonePendingExpired;
    var now := bar.time + env.duration;
    var traded := Trade(env, st, row, bar);
    TradeRunning(env, st, row, bar);
    NothingSettles(env, traded, traded.positions, row, now);
    NothingDrops(env, traded.(pending := []), traded.pending, row, now);
    assert [] + traded.pending == traded.pending;
  }
}
