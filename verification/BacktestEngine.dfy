/** The engine itself: the clock loop and its helpers, updating the account in place. */
module Backtest {
  import opened Common
  import opened OrderedDict
  import opened Market
  import opened Orders
  import opened EngineSpec
  import opened TickContexts

  datatype Outcome = Completed | Cancelled | Errored

  class BacktestEngine {
    const env: Env
    const ctx: TickContext
    var cash: real
    var positions: Positions
    var pending: seq<PendingOrder>
    var emitted: seq<Emission>
    var log: seq<Event>
    var draws: nat
    var history: seq<View>
    var failed: bool

    ghost function Snapshot(): State
      reads this, ctx
    {
      State(cash, positions, pending, emitted, log, draws, ctx.cancelRequested, history, failed)
    }

    /** The context may still carry a cancellation request from the discovery pass. */
    constructor (env: Env, ctx: TickContext, initialCash: real)
      ensures this.env == env && this.ctx == ctx && Snapshot() == Start(initialCash, ctx.cancelRequested)
    {
      this.env, this.ctx := env, ctx;
      cash, positions, pending, emitted, log := initialCash, [], [], [], [];
      draws, history, failed := 0, [], false;
    }

    /** The branches of position tracking: what a fill makes of one signed position. */
    method RebookPosition(held: Position, fill: Fill, multiplier: real) returns (ps: Position, realized: Option<real>)
      requires fill.quantity > 0.0
      ensures ps == Rebook(held, fill, multiplier).position
      ensures realized == Realized(Rebook(held, fill, multiplier))
    {
      hide EngineSpec.Worth, EngineSpec.Blend;
      ps, realized := held, None;
      ghost var spec := Rebook(held, fill, multiplier);
      if fill.side.Buy? {
        if ps.quantity < 0.0 {
          var closed := Min(fill.quantity, -ps.quantity);
          var gain := Worth(ps.avgPrice - fill.fillPrice, closed, multiplier) - fill.fees;
          assert spec.Closed? && gain == spec.realized;
          realized := Some(gain);
          ps := ps.(quantity := ps.quantity + fill.quantity);
          if fill.quantity - closed > 0.0 {
            ps := ps.(avgPrice := fill.fillPrice);
          } else if ps.quantity == 0.0 {
            ps := ps.(avgPrice := 0.0);
          }
        } else {
          var total := ps.quantity + fill.quantity;
          if total == 0.0 {
            ps := ps.(avgPrice := 0.0);
          } else {
            ps := ps.(avgPrice := Blend(ps.avgPrice, ps.quantity, fill.fillPrice, fill.quantity));
          }
          ps := ps.(quantity := total);
        }
      } else {
        if ps.quantity > 0.0 {
          var closed := Min(fill.quantity, ps.quantity);
          var gain := Worth(fill.fillPrice - ps.avgPrice, closed, multiplier) - fill.fees;
          assert spec.Closed? && gain == spec.realized;
          realized := Some(gain);
          ps := ps.(quantity := ps.quantity - fill.quantity);
          if fill.quantity - closed > 0.0 {
            ps := ps.(avgPrice := fill.fillPrice);
          } else if ps.quantity == 0.0 {
            ps := ps.(avgPrice := 0.0);
          }
        } else {
          var short := -ps.quantity;
          if short == 0.0 {
            ps := ps.(avgPrice := fill.fillPrice);
          } else {
            ps := ps.(avgPrice := Blend(ps.avgPrice, short, fill.fillPrice, fill.quantity));
          }
          ps := ps.(quantity := -(short + fill.quantity));
        }
      }
    }

    /** Book a fill into cash and the signed position it touches. */
    method ApplyFill(id: nat, row: nat, fill: Fill)
      requires fill.quantity > 0.0
      modifies this
      ensures Snapshot() == EngineSpec.ApplyFill(env, old(Snapshot()), id, row, fill)
    {
      hide EngineSpec.Rebook, EngineSpec.Notional, EngineSpec.Worth;
      var ps, realized := RebookPosition(PositionFor(positions, fill), fill, Multiplier(env, fill.symbol));
      var notional := Notional(env, fill);
      if fill.side.Buy? {
        cash := cash - (notional + fill.fees);
      } else {
        cash := cash + (notional - fill.fees);
      }
      positions := Put(positions, fill.symbol, ps);
      if ps.quantity == 0.0 {
        positions := Remove(positions, fill.symbol);
      }
      log := log + [Filled(id, row, fill.(realizedPnl := realized))];
    }

    method RejectOrder(po: PendingOrder, row: nat, reason: Reason)
      modifies this`log
      ensures Snapshot() == Reject(old(Snapshot()), po, row, reason)
    {
      log := log + [Rejected(po.id, row, po.leg, reason)];
    }

    /** Check buying power, then book or refuse. */
    method BookFill(po: PendingOrder, row: nat, fill: Fill)
      requires fill.quantity > 0.0
      modifies this
      ensures Snapshot() == BookOrRefuse(env, old(Snapshot()), po, row, fill)
    {
      hide EngineSpec.Refusal, EngineSpec.ApplyFill;
      var refusal := Refusal(env, cash, positions, fill);
      if refusal.Some? {
        RejectOrder(po, row, refusal.value);
      } else {
        ApplyFill(po.id, row, fill);
      }
    }

    /** Apply the time-in-force rule to an order that did not fill. */
    method HandleUnfilled(po: PendingOrder, row: nat)
      modifies this
      ensures Snapshot() == Unfilled(env, old(Snapshot()), po, row)
    {
      if IsOption(env, po.leg.symbol) {
        RejectOrder(po, row, NoOptionPrice);
      } else if po.leg.timeInForce.Unset? || po.leg.timeInForce.Ioc? {
        RejectOrder(po, row, NoFillWithinTimeout);
      } else if po.leg.timeInForce.Day? || po.leg.timeInForce.Gtc? {
        pending := pending + [po.(scheduledFor := row + 1)];
      } else {
        RejectOrder(po, row, UnknownTimeInForce);
      }
    }

    /** Try one order at one row; it joins `pending` again when it stays open. */
    method AttemptOrder(po: PendingOrder, row: nat, bar: Bar)
      modifies this
      ensures Snapshot() == EngineSpec.AttemptOrder(env, old(Snapshot()), po, row, bar)
    {
      hide EngineSpec.TryFillAt, EngineSpec.BookOrRefuse, EngineSpec.Unfilled;
      if po.scheduledFor > row {
        pending := pending + [po];
      } else if IsDayExpired(po, bar) {
        RejectOrder(po, row, DayExpired);
      } else {
        var tried := po.(attempted := true);
        match TryFillAt(env, tried, bar, draws) {
          case Executed(fill, drawn) =>
            draws := drawn;
            BookFill(tried, row, fill);
          case Triggered(leg) =>
            pending := pending + [tried.(leg := leg, stopTriggered := true, scheduledFor := row + 1)];
          case NotExecuted =>
            HandleUnfilled(tried, row);
        }
      }
    }

    /** Rebuild the pending list, filling, rejecting or re-queueing every order on it. */
    method ProcessPending(row: nat, bar: Bar)
      modifies this
      ensures Snapshot() == EngineSpec.ProcessPending(env, old(Snapshot()), row, bar)
    {
      hide EngineSpec.AttemptOrder;
      var todo := pending;
      pending := [];
      ghost var start := Snapshot();
      for i := 0 to |todo|
        invariant Snapshot() == AttemptAll(env, start, todo[..i], row, bar)
      {
        assert todo[..i + 1][..i] == todo[..i];
        AttemptOrder(todo[i], row, bar);
      }
      assert todo[..|todo|] == todo;
    }

    method QueueOrders(legs: seq<Leg>, row: nat, bar: Bar)
      modifies this`pending, this`emitted
      ensures Snapshot() == QueueLegs(old(Snapshot()), legs, row, bar)
    {
      ghost var start := Snapshot();
      for j := 0 to |legs|
        invariant Snapshot() == QueueLegs(start, legs[..j], row, bar)
      {
        assert legs[..j + 1][..j] == legs[..j];
        pending := pending + [PendingOrder(|emitted|, legs[j], row + 1, false, DateOf(bar.time), false)];
        emitted := emitted + [Emission(row, legs[j], DateOf(bar.time))];
      }
      assert legs[..|legs|] == legs;
    }

    method QueueAllSignals(signals: seq<Signal>, row: nat, bar: Bar)
      modifies this`pending, this`emitted
      ensures Snapshot() == QueueSignals(old(Snapshot()), signals, row, bar)
    {
      ghost var start := Snapshot();
      for i := 0 to |signals|
        invariant Snapshot() == QueueSignals(start, signals[..i], row, bar)
      {
        assert signals[..i + 1][..i] == signals[..i];
        QueueOrders(signals[i].legs, row, bar);
      }
      assert signals[..|signals|] == signals;
    }

    /** Hand the account over to the context, let the algorithm read it, and queue every leg it emits for the next row. */
    method TickAlgorithm(row: nat, bar: Bar)
      modifies this, ctx
      ensures Snapshot() == EngineSpec.Tick(env, old(Snapshot()), row, bar)
      ensures history != [] && ctx.Shows(history[|history| - 1]) && ctx.bars == old(ctx.bars)
    {
      hide EngineSpec.MarketValue, EngineSpec.ContextPositions, EngineSpec.QueueSignals;
      var now := bar.time + env.duration;
      ctx.SetSimTime(now);
      ctx.UpdateAccount(cash, cash + MarketValue(env, positions, now), cash, ContextPositions(env, positions, now));
      history := history + [View(now, ctx.cash, ctx.accountValue, ctx.positions, Visible(env.store, now))];
      var decision := env.algorithm(history);
      if decision.cancelAll {
        ctx.CancelAllOrders();
      }
      QueueAllSignals(decision.signals, row, bar);
    }

    method RejectPending(row: nat, reason: Reason)
      modifies this
      ensures Snapshot() == RejectAll(old(Snapshot()), old(pending), row, reason).(pending := [])
    {
      hide EngineSpec.Reject;
      ghost var start := Snapshot();
      for i := 0 to |pending|
        invariant pending == start.pending
        invariant Snapshot() == RejectAll(start, pending[..i], row, reason)
      {
        assert pending[..i + 1][..i] == pending[..i];
        RejectOrder(pending[i], row, reason);
      }
      assert pending[..|pending|] == pending;
      pending := [];
    }

    /** Settle one held position if its contract has expired. */
    method SettlePosition(symbol: Symbol, ps: Position, row: nat, now: int)
      modifies this
      ensures Snapshot() == SettleOne(env, old(Snapshot()), Entry(symbol, ps), row, now)
    {
      hide EngineSpec.HandleExpiry, EngineSpec.Worth;
      if failed {
        return;
      }
      match HandleExpiry(env, symbol, ps.quantity, ps.avgPrice, now) {
        case NotExpired =>
        case Unpriced =>
          failed := true;
        case Expires(side, quantity, price, realized) =>
          if price > 0.0 {
            var delta := Worth(price, quantity, Multiplier(env, symbol));
            cash := if side.Sell? then cash + delta else cash - delta;
          }
          log := log + [Settled(row, Fill(now, symbol, Options, side, quantity, price, price, 0.0, 0.0, Some(realized)))];
          positions := Remove(positions, symbol);
      }
    }

    /** Settle every held contract that has expired. */
    method SettleExpired(row: nat, now: int)
      modifies this
      ensures Snapshot() == SettleAll(env, old(Snapshot()), old(positions), row, now)
    {
      hide EngineSpec.SettleOne;
      ghost var start := Snapshot();
      var held := positions;
      for i := 0 to |held|
        invariant Snapshot() == SettleAll(env, start, held[..i], row, now)
      {
        assert held[..i + 1][..i] == held[..i];
        SettlePosition(held[i].key, held[i].value, row, now);
      }
      assert held[..|held|] == held;
    }

    /** Keep one pending order unless its contract has expired. */
    method KeepUnexpired(po: PendingOrder, row: nat, now: int)
      modifies this
      ensures Snapshot() == DropOne(env, old(Snapshot()), po, row, now)
    {
      hide EngineSpec.HandleExpiry;
      if failed {
        return;
      }
      match HandleExpiry(env, po.leg.symbol, 1.0, 0.0, now) {
        case NotExpired => pending := pending + [po];
        case Unpriced => failed := true;
        case Expires(_, _, _, _) => RejectOrder(po, row, ContractExpired);
      }
    }

    /** Reject the pending orders whose contract has expired. */
    method DropExpiredOrders(row: nat, now: int)
      modifies this
      ensures Snapshot() == DropExpired(env, old(Snapshot()), row, now)
    {
      hide EngineSpec.DropOne;
      if failed {
        return;
      }
      var orders := pending;
      pending := [];
      ghost var start := Snapshot();
      for i := 0 to |orders|
        invariant Snapshot() == DropAll(env, start, orders[..i], row, now)
      {
        assert orders[..i + 1][..i] == orders[..i];
        KeepUnexpired(orders[i], row, now);
      }
      assert orders[..|orders|] == orders;
    }

    /** Steps 1 and 2 of a row: tick, fills, and the cancellation the algorithm asked for. */
    method TradeRow(row: nat, bar: Bar)
      modifies this, ctx
      ensures Snapshot() == Trade(env, old(Snapshot()), row, bar)
    {
      hide EngineSpec.Tick, EngineSpec.ProcessPending;
      TickAlgorithm(row, bar);
      ProcessPending(row, bar);
      if ctx.cancelRequested {
        RejectPending(row, CancelledByAlgorithm);
        ctx.cancelRequested := false;
      }
    }

    /** Step 3 of a row: the equity point, unless expiry aborted the run. */
    method MarkToMarket(row: nat, now: int)
      modifies this
      ensures Snapshot() == Mark(env, old(Snapshot()), row, now)
    {
      if !failed {
        log := log + [EquityPoint(row, now, cash + MarketValue(env, positions, now), cash)];
      }
    }

    /** One iteration of the clock loop. */
    method RunRow(row: nat, bar: Bar)
      requires !failed
      modifies this, ctx
      ensures Snapshot() == Step(env, old(Snapshot()), row, bar)
    {
      hide EngineSpec.Trade, EngineSpec.SettleAll, EngineSpec.DropExpired, EngineSpec.Mark;
      TradeRow(row, bar);
      SettleExpired(row, bar.time + env.duration);
      DropExpiredOrders(row, bar.time + env.duration);
      MarkToMarket(row, bar.time + env.duration);
    }

    /**
     Run over a clock. `cancelAt` tells at which loop heads the cancel token is seen set. The run
     ends cancelled with orders still pending, errored, or completed with none pending; an empty
     clock errors, because the closing summary reads its last row.
     */
    method Run(clock: seq<Bar>, cancelAt: nat -> bool) returns (outcome: Outcome, rows: nat)
      requires !failed
      modifies this, ctx
      ensures rows <= |clock| && forall i :: 0 <= i < rows ==> !cancelAt(i)
      ensures outcome == if failed || clock == [] then Errored else if rows < |clock| then Cancelled else Completed
      ensures outcome.Cancelled? ==> cancelAt(rows)
      ensures outcome.Completed? ==> Snapshot() == Finish(Rows(env, old(Snapshot()), clock, |clock|), clock)
      ensures !outcome.Completed? ==> Snapshot() == Rows(env, old(Snapshot()), clock, rows)
    {
      hide EngineSpec.Step;
      ghost var start := Snapshot();
      rows := 0;
      while rows < |clock|
        invariant rows <= |clock| && !failed
        invariant forall i :: 0 <= i < rows ==> !cancelAt(i)
        invariant Snapshot() == Rows(env, start, clock, rows)
      {
        if cancelAt(rows) {
          return Cancelled, rows;
        }
        RunRow(rows, clock[rows]);
        rows := rows + 1;
        if failed {
          return Errored, rows;
        }
      }
      if clock == [] {
        return Errored, rows;
      }
      RejectAllFrame(Snapshot(), pending, |clock| - 1, EndOfBacktest);
      RejectPending(|clock| - 1, EndOfBacktest);
      return Completed, rows;
    }
  }
}
