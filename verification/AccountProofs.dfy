/**
 What every run keeps about the account: the book balances to the cent, and cash never goes
 below zero by more than the sale fees and assignments that the engine does not check.
 */
module AccountProofs {
  import opened Common
  import opened OrderedDict
  import opened Market
  import opened Orders
  import opened EngineSpec

  // ---- the book value and the ledger of gains ----

  function CostBasis(env: Env): (Symbol, Position) -> real {
    (symbol: Symbol, ps: Position) => Worth(ps.avgPrice, ps.quantity, Multiplier(env, symbol))
  }

  /** What the open positions cost: quantity times average price times multiplier, signed. */
  function BookValue(env: Env, positions: Positions): real {
    Total(positions, CostBasis(env))
  }

  /** Realized profit of a closing or settling fill; an opening fill only costs its fees. */
  function Gain(e: Event): real {
    match e
    case Filled(_, _, fill) => if fill.realizedPnl.Some? then fill.realizedPnl.value else -fill.fees
    case Settled(_, fill) => if fill.realizedPnl.Some? then fill.realizedPnl.value else 0.0
    case _ => 0.0
  }

  function Gains(log: seq<Event>): real {
    if log == [] then 0.0 else Gains(log[..|log| - 1]) + Gain(log[|log| - 1])
  }

  /** What an event takes from cash without a buying-power check. */
  function Unchecked(env: Env, e: Event): real {
    match e
    case Filled(_, _, fill) => if fill.side.Sell? then Max(0.0, fill.fees - Notional(env, fill)) else 0.0
    case Settled(_, fill) => if fill.side.Buy? then Max(0.0, Notional(env, fill)) else 0.0
    case _ => 0.0
  }

  function UncheckedTotal(env: Env, log: seq<Event>): real {
    if log == [] then 0.0 else UncheckedTotal(env, log[..|log| - 1]) + Unchecked(env, log[|log| - 1])
  }

  /** A stored position is never empty, and only options are ever sold short. */
  function Sound(env: Env): (Symbol, Position) -> bool {
    (symbol: Symbol, ps: Position) => ps.quantity != 0.0 && (IsOption(env, symbol) || ps.quantity >= -QUANTITY_SLACK)
  }

  /** Positions are sound, and the book balances for a run that started with `cash0`. */
  ghost predicate BookOk(env: Env, st: State, cash0: real) {
    && Distinct(st.positions) && All(st.positions, Sound(env))
    && st.cash + BookValue(env, st.positions) == cash0 + Gains(st.log)
  }

  /** Cash is short of nothing but what was taken unchecked. */
  predicate CashOk(env: Env, st: State, cash0: real) {
    st.cash >= Min(cash0, -CASH_SLACK) - UncheckedTotal(env, st.log)
  }

  /** The account invariant. */
  ghost predicate AccountOk(env: Env, st: State, cash0: real) {
    BookOk(env, st, cash0) && CashOk(env, st, cash0)
  }

  // ---- one fill ----

  lemma LogOne(env: Env, log: seq<Event>, e: Event)
    ensures Gains(log + [e]) == Gains(log) + Gain(e)
    ensures UncheckedTotal(env, log + [e]) == UncheckedTotal(env, log) + Unchecked(env, e)
  {
    assert (log + [e])[..|log|] == log;
  }

  lemma BlendWorth(price: real, quantity: real, newPrice: real, newQuantity: real, m: real)
    requires quantity + newQuantity != 0.0
    ensures Worth(Blend(price, quantity, newPrice, newQuantity), quantity + newQuantity, m)
         == Worth(price, quantity, m) + Worth(newPrice, newQuantity, m)
  {
    var total := price * quantity + newPrice * newQuantity;
    assert total / (quantity + newQuantity) * (quantity + newQuantity) == total;
    assert total * m == price * quantity * m + newPrice * newQuantity * m;
  }

  lemma WorthNegated(price: real, quantity: real, m: real)
    ensures Worth(price, -quantity, m) == -Worth(price, quantity, m)
    ensures Worth(-price, quantity, m) == -Worth(price, quantity, m)
    ensures Worth(price, 0.0, m) == 0.0
  {
  }

  lemma WorthAdds(price: real, other: real, q: real, f: real, m: real)
    ensures Worth(price, q + f, m) == Worth(price, q, m) + Worth(price, f, m)
    ensures Worth(price - other, q, m) == Worth(price, q, m) - Worth(other, q, m)
  {
    assert (price - other) * q * m == price * q * m - other * q * m;
  }

  /** The cash a fill moves, before any profit is reckoned. */
  function CashFlow(fill: Fill, worth: real): real {
    if fill.side.Buy? then -(worth + fill.fees) else worth - fill.fees
  }

  /** A fill moves cash and cost basis by offsetting amounts, up to the gain it reports. */
  lemma {:induction false} RebookConserves(ps: Position, fill: Fill, m: real)
    requires fill.quantity > 0.0
    ensures var r := Rebook(ps, fill, m);
            Worth(r.position.avgPrice, r.position.quantity, m) - Worth(ps.avgPrice, ps.quantity, m)
            + CashFlow(fill, Worth(fill.fillPrice, fill.quantity, m))
            == if r.Closed? then r.realized else -fill.fees
  {
    hide Worth, Blend;
    if Rebook(ps, fill, m).Opened? {
      OpeningConserves(ps, fill, m);
    } else {
      ClosingConserves(ps, fill, m);
    }
  }

  lemma OpeningConserves(ps: Position, fill: Fill, m: real)
    requires fill.quantity > 0.0 && Rebook(ps, fill, m).Opened?
    ensures var r := Rebook(ps, fill, m);
            Worth(r.position.avgPrice, r.position.quantity, m) - Worth(ps.avgPrice, ps.quantity, m)
            + CashFlow(fill, Worth(fill.fillPrice, fill.quantity, m)) == -fill.fees
  {
    hide Worth, Blend;
    var q, avg, f, price := ps.quantity, ps.avgPrice, fill.quantity, fill.fillPrice;
    if fill.side.Buy? {
      BlendWorth(avg, q, price, f, m);
    } else {
      if q != 0.0 {
        BlendWorth(avg, -q, price, f, m);
      } else {
        WorthNegated(avg, 0.0, m);
      }
      WorthNegated(Rebook(ps, fill, m).position.avgPrice, -q + f, m);
      WorthNegated(avg, q, m);
    }
  }

  lemma ClosingConserves(ps: Position, fill: Fill, m: real)
    requires fill.quantity > 0.0 && Rebook(ps, fill, m).Closed?
    ensures var r := Rebook(ps, fill, m);
            Worth(r.position.avgPrice, r.position.quantity, m) - Worth(ps.avgPrice, ps.quantity, m)
            + CashFlow(fill, Worth(fill.fillPrice, fill.quantity, m)) == r.realized
  {
    hide Worth, Blend;
    var q, avg, f, price := ps.quantity, ps.avgPrice, fill.quantity, fill.fillPrice;
    var closed, d := Min(f, Abs(q)), if fill.side.Buy? then f else -f;
    WorthNegated(price, f, m);
    WorthNegated(avg, f, m);
    WorthNegated(price, q, m);
    WorthNegated(avg, q, m);
    WorthNegated(0.0, 0.0, m);
    WorthAdds(avg, price, closed, 0.0, m);
    WorthAdds(price, avg, closed, 0.0, m);
    WorthAdds(if f > closed then price else avg, price, q, d, m);
    if f == closed && q + d == 0.0 {
      WorthNegated(Rebook(ps, fill, m).position.avgPrice, 0.0, m);
      assert closed == Abs(q);
    }
  }

  lemma RebookQuantity(ps: Position, fill: Fill, m: real)
    requires fill.quantity > 0.0
    ensures Rebook(ps, fill, m).position.quantity == ps.quantity + (if fill.side.Buy? then fill.quantity else -fill.quantity)
  {
    hide Worth, Blend;
  }

  function CostOrZero(env: Env, positions: Positions, symbol: Symbol): real {
    match Find(positions, symbol)
    case None => 0.0
    case Some(ps) => Worth(ps.avgPrice, ps.quantity, Multiplier(env, symbol))
  }

  /** Storing a position changes the book value by exactly that position's change. */
  lemma StoreValue(env: Env, positions: Positions, symbol: Symbol, ps: Position)
    ensures BookValue(env, StorePosition(positions, symbol, ps))
         == BookValue(env, positions) + Worth(ps.avgPrice, ps.quantity, Multiplier(env, symbol)) - CostOrZero(env, positions, symbol)
  {
    hide Worth;
    WorthNegated(ps.avgPrice, 0.0, Multiplier(env, symbol));
    TotalPut(positions, symbol, ps, CostBasis(env));
    if ps.quantity == 0.0 {
      PutFind(positions, symbol, ps, symbol);
      TotalRemove(Put(positions, symbol, ps), symbol, CostBasis(env));
    }
  }

  /** What holds of every position and of a newly stored one holds of all that are then stored. */
  lemma StoreKeeps(positions: Positions, symbol: Symbol, ps: Position, p: (Symbol, Position) -> bool)
    requires Distinct(positions) && All(positions, p) && (ps.quantity != 0.0 ==> p(symbol, ps))
    ensures Distinct(StorePosition(positions, symbol, ps)) && All(StorePosition(positions, symbol, ps), p)
  {
    var put := Put(positions, symbol, ps);
    PutKeys(positions, symbol, ps, p);
    if ps.quantity == 0.0 {
      RemoveKeys(put, symbol);
      var r := Remove(put, symbol);
      forall i | 0 <= i < |r| ensures p(r[i].key, r[i].value) {
        assert r[i] in r;
        var j :| 0 <= j < |put| && put[j] == r[i];
        var k :| 0 <= k < |positions| && positions[k] == put[j];
      }
    }
  }

  lemma RemoveKeeps(positions: Positions, symbol: Symbol, p: (Symbol, Position) -> bool)
    requires Distinct(positions) && All(positions, p)
    ensures Distinct(Remove(positions, symbol)) && All(Remove(positions, symbol), p)
  {
    RemoveKeys(positions, symbol);
    var r := Remove(positions, symbol);
    forall i | 0 <= i < |r| ensures p(r[i].key, r[i].value) {
      assert r[i] in r;
      var k :| 0 <= k < |positions| && positions[k] == r[i];
    }
  }

  function Symbols(positions: Positions): (symbols: seq<Symbol>)
    ensures |symbols| == |positions|
  {
    seq(|positions|, i requires 0 <= i < |positions| => positions[i].key)
  }

  lemma SymbolsCons(e: Entry<Symbol, Position>, rest: Positions)
    ensures Symbols([e] + rest) == [e.key] + Symbols(rest)
  {
  }

  lemma {:induction false} PutOrder(positions: Positions, symbol: Symbol, ps: Position)
    ensures Symbols(Put(positions, symbol, ps)) == if Find(positions, symbol).Some? then Symbols(positions) else Symbols(positions) + [symbol]
  {
    if positions == [] {
      SymbolsCons(Entry(symbol, ps), []);
      assert [Entry(symbol, ps)] + [] == [Entry(symbol, ps)];
      assert Symbols([]) == [];
    } else {
      var rest := positions[1..];
      assert positions == [positions[0]] + rest;
      SymbolsCons(positions[0], rest);
      hide Symbols;
      if positions[0].key == symbol {
        SymbolsCons(Entry(symbol, ps), rest);
      } else {
        PutOrder(rest, symbol, ps);
        SymbolsCons(positions[0], Put(rest, symbol, ps));
      }
    }
  }

  lemma {:induction false} RemoveOrder(positions: Positions, i: nat)
    requires Distinct(positions) && i < |positions|
    ensures Remove(positions, positions[i].key) == positions[..i] + positions[i + 1..]
  {
    if i > 0 {
      assert positions[0].key != positions[i].key;
      RemoveOrder(positions[1..], i - 1);
    }
  }

  lemma SymbolsConcat(a: Positions, b: Positions)
    ensures Symbols(a + b) == Symbols(a) + Symbols(b)
  {
  }

  lemma SymbolsSlices(positions: Positions, i: nat)
    requires i < |positions|
    ensures Symbols(positions[..i]) == Symbols(positions)[..i]
    ensures Symbols(positions[i + 1..]) == Symbols(positions)[i + 1..]
  {
  }

  lemma ClosingOrder(positions: Positions, i: nat)
    requires Distinct(positions) && i < |positions|
    ensures Symbols(Remove(positions, positions[i].key)) == Symbols(positions)[..i] + Symbols(positions)[i + 1..]
  {
    hide Symbols, Remove;
    RemoveOrder(positions, i);
    SymbolsConcat(positions[..i], positions[i + 1..]);
    SymbolsSlices(positions, i);
  }

  /** Positions keep the order in which they were opened: a new one goes last, and a closed one leaves no gap. */
  lemma PositionsKeepOrder(positions: Positions, symbol: Symbol, ps: Position)
    requires Distinct(positions)
    ensures var after := Symbols(StorePosition(positions, symbol, ps));
            && (ps.quantity != 0.0 && Find(positions, symbol).Some? ==> after == Symbols(positions))
            && (ps.quantity != 0.0 && Find(positions, symbol).None? ==> after == Symbols(positions) + [symbol])
            && (ps.quantity == 0.0 ==> forall i :: 0 <= i < |positions| && positions[i].key == symbol ==>
                  after == Symbols(positions)[..i] + Symbols(positions)[i + 1..])
  {
    hide Put, Remove, Find;
    var put := Put(positions, symbol, ps);
    PutOrder(positions, symbol, ps);
    if ps.quantity == 0.0 {
      PutKeys(positions, symbol, ps, (s: Symbol, p: Position) => true);
      forall i | 0 <= i < |positions| && positions[i].key == symbol
        ensures Symbols(Remove(put, symbol)) == Symbols(positions)[..i] + Symbols(positions)[i + 1..]
      {
        FindAt(positions, i);
        assert Symbols(put)[i] == symbol;
        ClosingOrder(put, i);
      }
    }
  }

  /** A fill that buying power let through leaves the position it touches within bounds. */
  lemma AcceptedQuantity(env: Env, st: State, fill: Fill)
    requires fill.quantity > 0.0 && Refusal(env, st.cash, st.positions, fill).None?
    requires Distinct(st.positions) && All(st.positions, Sound(env))
    ensures var ps := PositionFor(st.positions, fill);
            IsOption(env, fill.symbol) || Rebook(ps, fill, Multiplier(env, fill.symbol)).position.quantity >= -QUANTITY_SLACK
  {
    hide Worth, Blend, Rebook;
    RebookQuantity(PositionFor(st.positions, fill), fill, Multiplier(env, fill.symbol));
    FindIsEntry(st.positions, fill.symbol);
    if Find(st.positions, fill.symbol).Some? {
      var i :| 0 <= i < |st.positions| && st.positions[i].key == fill.symbol && st.positions[i].value == Find(st.positions, fill.symbol).value;
      assert Sound(env)(st.positions[i].key, st.positions[i].value);
    }
  }

  /** The position a fill finds costs what the book says it does. */
  lemma FoundCost(env: Env, positions: Positions, fill: Fill)
    ensures var ps := PositionFor(positions, fill);
            CostOrZero(env, positions, fill.symbol) == Worth(ps.avgPrice, ps.quantity, Multiplier(env, fill.symbol))
  {
    hide Worth;
    WorthNegated(0.0, 0.0, Multiplier(env, fill.symbol));
  }

  /** What booking a fill does, part by part. */
  lemma BookingParts(env: Env, st: State, id: nat, row: nat, fill: Fill)
    requires fill.quantity > 0.0
    ensures var r := Rebook(PositionFor(st.positions, fill), fill, Multiplier(env, fill.symbol));
            var e := Filled(id, row, fill.(realizedPnl := Realized(r)));
            var after := ApplyFill(env, st, id, row, fill);
            && after.cash == st.cash + CashFlow(fill, Notional(env, fill))
            && after.positions == StorePosition(st.positions, fill.symbol, r.position)
            && after.log == st.log + [e]
            && Gain(e) == (if r.Closed? then r.realized else -fill.fees)
            && Unchecked(env, e) == if fill.side.Sell? then Max(0.0, fill.fees - Notional(env, fill)) else 0.0
  {
    hide Rebook, StorePosition, Worth, PositionFor, Multiplier;
  }

  /** Booking an accepted fill keeps the book balanced. */
  lemma ApplyFillBook(env: Env, st: State, id: nat, row: nat, fill: Fill, cash0: real)
    requires BookOk(env, st, cash0) && fill.quantity > 0.0
    requires Refusal(env, st.cash, st.positions, fill).None?
    ensures BookOk(env, ApplyFill(env, st, id, row, fill), cash0)
  {
    hide Worth, Blend, Rebook, StorePosition, Refusal, ApplyFill, PositionFor, Gain, Unchecked, CostOrZero, BookValue, Multiplier;
    var m := Multiplier(env, fill.symbol);
    var ps := PositionFor(st.positions, fill);
    var r := Rebook(ps, fill, m);
    BookingParts(env, st, id, row, fill);
    RebookConserves(ps, fill, m);
    AcceptedQuantity(env, st, fill);
    FoundCost(env, st.positions, fill);
    StoreValue(env, st.positions, fill.symbol, r.position);
    StoreKeeps(st.positions, fill.symbol, r.position, Sound(env));
    LogOne(env, st.log, Filled(id, row, fill.(realizedPnl := Realized(r))));
  }

  /** Booking an accepted fill takes no more from cash than was checked. */
  lemma ApplyFillCash(env: Env, st: State, id: nat, row: nat, fill: Fill, cash0: real)
    requires CashOk(env, st, cash0) && fill.quantity > 0.0
    requires Refusal(env, st.cash, st.positions, fill).None?
    ensures CashOk(env, ApplyFill(env, st, id, row, fill), cash0)
  {
    hide Rebook, StorePosition, ApplyFill, PositionFor, Gain, Unchecked, Notional, Multiplier;
    BookingParts(env, st, id, row, fill);
    LogOne(env, st.log, Filled(id, row, fill.(realizedPnl := Realized(Rebook(PositionFor(st.positions, fill), fill, Multiplier(env, fill.symbol))))));
    UncheckedNonNegative(env, st.log);
  }

  /** Booking an accepted fill keeps the account invariant. */
  lemma ApplyFillOk(env: Env, st: State, id: nat, row: nat, fill: Fill, cash0: real)
    requires AccountOk(env, st, cash0) && fill.quantity > 0.0
    requires Refusal(env, st.cash, st.positions, fill).None?
    ensures AccountOk(env, ApplyFill(env, st, id, row, fill), cash0)
  {
    hide ApplyFill, Refusal, BookOk, CashOk;
    ApplyFillBook(env, st, id, row, fill, cash0);
    ApplyFillCash(env, st, id, row, fill, cash0);
  }

  lemma {:induction false} UncheckedNonNegative(env: Env, log: seq<Event>)
    ensures UncheckedTotal(env, log) >= 0.0
  {
    if log != [] {
      UncheckedNonNegative(env, log[..|log| - 1]);
    }
  }

  // ---- one row ----

  /** The account invariant is about cash, positions and the log alone. */
  lemma SameAccount(env: Env, a: State, b: State, cash0: real)
    requires AccountOk(env, a, cash0) && b.cash == a.cash && b.positions == a.positions && b.log == a.log
    ensures AccountOk(env, b, cash0)
  {
  }

  lemma RejectOk(env: Env, st: State, po: PendingOrder, row: nat, reason: Reason, cash0: real)
    requires AccountOk(env, st, cash0)
    ensures AccountOk(env, Reject(st, po, row, reason), cash0)
  {
    hide BookValue, Gains, UncheckedTotal, Sound;
    LogOne(env, st.log, Rejected(po.id, row, po.leg, reason));
  }

  lemma UnfilledOk(env: Env, st: State, po: PendingOrder, row: nat, cash0: real)
    requires AccountOk(env, st, cash0)
    ensures AccountOk(env, Unfilled(env, st, po, row), cash0)
  {
    hide Reject;
    RejectOk(env, st, po, row, NoOptionPrice, cash0);
    RejectOk(env, st, po, row, NoFillWithinTimeout, cash0);
    RejectOk(env, st, po, row, UnknownTimeInForce, cash0);
  }

  lemma BookOrRefuseOk(env: Env, st: State, po: PendingOrder, row: nat, fill: Fill, cash0: real)
    requires AccountOk(env, st, cash0) && fill.quantity > 0.0
    ensures AccountOk(env, BookOrRefuse(env, st, po, row, fill), cash0)
  {
    hide Reject, Refusal, ApplyFill;
    match Refusal(env, st.cash, st.positions, fill) {
      case Some(reason) => RejectOk(env, st, po, row, reason, cash0);
      case None => ApplyFillOk(env, st, po.id, row, fill, cash0);
    }
  }

  lemma AttemptOrderOk(env: Env, st: State, po: PendingOrder, row: nat, bar: Bar, cash0: real)
    requires AccountOk(env, st, cash0)
    ensures AccountOk(env, AttemptOrder(env, st, po, row, bar), cash0)
  {
    hide TryFillAt, BookOrRefuse, Unfilled, Reject, AccountOk;
    var tried := po.(attempted := true);
    RejectOk(env, st, po, row, DayExpired, cash0);
    forall more ensures AccountOk(env, st.(pending := more), cash0) {
      SameAccount(env, st, st.(pending := more), cash0);
    }
    match TryFillAt(env, tried, bar, st.draws) {
      case Executed(fill, draws) =>
        SameAccount(env, st, st.(draws := draws), cash0);
        BookOrRefuseOk(env, st.(draws := draws), tried, row, fill, cash0);
      case Triggered(leg) =>
      case NotExecuted => UnfilledOk(env, st, tried, row, cash0);
    }
  }

  lemma {:induction false} AttemptAllOk(env: Env, st: State, todo: seq<PendingOrder>, row: nat, bar: Bar, cash0: real)
    requires AccountOk(env, st, cash0)
    ensures AccountOk(env, AttemptAll(env, st, todo, row, bar), cash0)
  {
    hide AttemptOrder, AccountOk;
    if todo != [] {
      AttemptAllOk(env, st, todo[..|todo| - 1], row, bar, cash0);
      AttemptOrderOk(env, AttemptAll(env, st, todo[..|todo| - 1], row, bar), todo[|todo| - 1], row, bar, cash0);
    }
  }

  lemma {:induction false} RejectAllOk(env: Env, st: State, orders: seq<PendingOrder>, row: nat, reason: Reason, cash0: real)
    requires AccountOk(env, st, cash0)
    ensures AccountOk(env, RejectAll(st, orders, row, reason), cash0)
  {
    hide AccountOk, Reject;
    if orders != [] {
      var rest := orders[..|orders| - 1];
      RejectAllOk(env, st, rest, row, reason, cash0);
      RejectOk(env, RejectAll(st, rest, row, reason), orders[|orders| - 1], row, reason, cash0);
    }
  }

  lemma TickOk(env: Env, st: State, row: nat, bar: Bar, cash0: real)
    requires AccountOk(env, st, cash0)
    ensures AccountOk(env, Tick(env, st, row, bar), cash0)
  {
    hide ViewAt, QueueSignals, AccountOk;
    var history := st.history + [ViewAt(env, st, bar.time + env.duration)];
    var decision := env.algorithm(history);
    var asked := st.(history := history, cancelRequested := st.cancelRequested || decision.cancelAll);
    QueueSignalsFrame(asked, decision.signals, row, bar);
    SameAccount(env, st, Tick(env, st, row, bar), cash0);
  }

  lemma TradeOk(env: Env, st: State, row: nat, bar: Bar, cash0: real)
    requires AccountOk(env, st, cash0)
    ensures AccountOk(env, Trade(env, st, row, bar), cash0)
  {
    hide Tick, AttemptAll, RejectAll, AccountOk;
    TickOk(env, st, row, bar, cash0);
    var ticked := Tick(env, st, row, bar);
    SameAccount(env, ticked, ticked.(pending := []), cash0);
    AttemptAllOk(env, ticked.(pending := []), ticked.pending, row, bar, cash0);
    var processed := ProcessPending(env, ticked, row, bar);
    RejectAllOk(env, processed, processed.pending, row, CancelledByAlgorithm, cash0);
    var rejected := RejectAll(processed, processed.pending, row, CancelledByAlgorithm);
    SameAccount(env, rejected, rejected.(pending := [], cancelRequested := false), cash0);
  }

  /** The cash and the profit of a settlement balance the cost basis it removes. */
  lemma SettlementConserves(env: Env, symbol: Symbol, ps: Position, now: int)
    requires HandleExpiry(env, symbol, ps.quantity, ps.avgPrice, now).Expires?
    ensures var x := HandleExpiry(env, symbol, ps.quantity, ps.avgPrice, now);
            && IsOption(env, symbol) && x.price >= 0.0 && Worth(x.price, x.quantity, 100.0) >= 0.0
            && (x.price == 0.0 ==> Worth(x.price, x.quantity, 100.0) == 0.0)
            && x.realized == (if x.side.Sell? then Worth(x.price, x.quantity, 100.0) else -Worth(x.price, x.quantity, 100.0))
                             - Worth(ps.avgPrice, ps.quantity, 100.0)
  {
    hide Worth, UnderlyingPrice;
    var x := HandleExpiry(env, symbol, ps.quantity, ps.avgPrice, now);
    WorthNegated(ps.avgPrice, ps.quantity, 100.0);
    WorthAdds(x.price, ps.avgPrice, x.quantity, 0.0, 100.0);
    WorthAdds(ps.avgPrice, x.price, x.quantity, 0.0, 100.0);
    WorthSign(x.price, x.quantity);
  }

  lemma WorthSign(price: real, quantity: real)
    requires price >= 0.0 && quantity >= 0.0
    ensures Worth(price, quantity, 100.0) >= 0.0
    ensures price == 0.0 ==> Worth(price, quantity, 100.0) == 0.0
  {
    assert price * quantity >= 0.0;
  }

  /** What settling one expired position does, part by part. */
  lemma SettlementParts(env: Env, st: State, held: Entry<Symbol, Position>, row: nat, now: int)
    requires !st.failed && HandleExpiry(env, held.key, held.value.quantity, held.value.avgPrice, now).Expires?
    ensures var x := HandleExpiry(env, held.key, held.value.quantity, held.value.avgPrice, now);
            var after := SettleOne(env, st, held, row, now);
            var paid := Worth(x.price, x.quantity, 100.0);
            var e := Settled(row, Fill(now, held.key, Options, x.side, x.quantity, x.price, x.price, 0.0, 0.0, Some(x.realized)));
            && after.cash == st.cash + (if x.side.Sell? then paid else -paid)
            && after.positions == Remove(st.positions, held.key)
            && after.log == st.log + [e] && Gain(e) == x.realized
            && Unchecked(env, e) == if x.side.Buy? then paid else 0.0
  {
    SettlementConserves(env, held.key, held.value, now);
    hide Worth, HandleExpiry;
  }

  lemma SettleOneOk(env: Env, st: State, held: Entry<Symbol, Position>, row: nat, now: int, cash0: real)
    requires AccountOk(env, st, cash0) && Find(st.positions, held.key) == Some(held.value)
    ensures AccountOk(env, SettleOne(env, st, held, row, now), cash0)
  {
    hide HandleExpiry;
    var x := HandleExpiry(env, held.key, held.value.quantity, held.value.avgPrice, now);
    if x.Expires? && !st.failed {
      SettleExpiredOk(env, st, held, row, now, cash0);
    }
  }

  lemma SettleExpiredOk(env: Env, st: State, held: Entry<Symbol, Position>, row: nat, now: int, cash0: real)
    requires AccountOk(env, st, cash0) && Find(st.positions, held.key) == Some(held.value)
    requires !st.failed && HandleExpiry(env, held.key, held.value.quantity, held.value.avgPrice, now).Expires?
    ensures AccountOk(env, SettleOne(env, st, held, row, now), cash0)
  {
    SettlementParts(env, st, held, row, now);
    SettlementConserves(env, held.key, held.value, now);
    RemoveKeeps(st.positions, held.key, Sound(env));
    RemovedCost(env, st.positions, held);
    LogOne(env, st.log, SettleOne(env, st, held, row, now).log[|st.log|]);
    UncheckedNonNegative(env, st.log);
    hide Worth, HandleExpiry, SettleOne, Gain, Unchecked, BookValue;
  }

  /** Removing an option's position removes its cost. */
  lemma RemovedCost(env: Env, positions: Positions, held: Entry<Symbol, Position>)
    requires Find(positions, held.key) == Some(held.value) && IsOption(env, held.key)
    ensures BookValue(env, Remove(positions, held.key))
         == BookValue(env, positions) - Worth(held.value.avgPrice, held.value.quantity, 100.0)
  {
    hide Worth;
    TotalRemove(positions, held.key, CostBasis(env));
  }

  /** Settling works through a snapshot of the positions; the ones not reached yet are still held. */
  lemma {:induction false} SettleAllOk(env: Env, st: State, held: Positions, row: nat, now: int, cash0: real, n: nat)
    requires AccountOk(env, st, cash0) && held == st.positions && n <= |held|
    ensures AccountOk(env, SettleAll(env, st, held[..n], row, now), cash0)
    ensures forall i :: n <= i < |held| ==> Find(SettleAll(env, st, held[..n], row, now).positions, held[i].key) == Some(held[i].value)
  {
    if n == 0 {
      forall i | 0 <= i < |held| ensures Find(st.positions, held[i].key) == Some(held[i].value) {
        FindAt(held, i);
      }
    } else {
      SettleAllOk(env, st, held, row, now, cash0, n - 1);
      assert held[..n][..n - 1] == held[..n - 1];
      var before := SettleAll(env, st, held[..n - 1], row, now);
      SettleNext(env, before, held, n, row, now, cash0);
    }
  }

  lemma SettleNext(env: Env, before: State, held: Positions, n: nat, row: nat, now: int, cash0: real)
    requires 0 < n <= |held| && Distinct(held) && AccountOk(env, before, cash0)
    requires forall i :: n - 1 <= i < |held| ==> Find(before.positions, held[i].key) == Some(held[i].value)
    ensures var after := SettleOne(env, before, held[n - 1], row, now);
            AccountOk(env, after, cash0)
            && forall i :: n <= i < |held| ==> Find(after.positions, held[i].key) == Some(held[i].value)
  {
    SettleOneOk(env, before, held[n - 1], row, now, cash0);
    hide HandleExpiry, Worth;
    forall i | n <= i < |held|
      ensures Find(SettleOne(env, before, held[n - 1], row, now).positions, held[i].key) == Some(held[i].value)
    {
      RemoveFind(before.positions, held[n - 1].key, held[i].key);
    }
  }

  lemma {:induction false} DropAllOk(env: Env, st: State, orders: seq<PendingOrder>, row: nat, now: int, cash0: real)
    requires AccountOk(env, st, cash0)
    ensures AccountOk(env, DropAll(env, st, orders, row, now), cash0)
  {
    hide AccountOk, DropOne;
    if orders != [] {
      var rest := orders[..|orders| - 1];
      DropAllOk(env, st, rest, row, now, cash0);
      DropOneOk(env, DropAll(env, st, rest, row, now), orders[|orders| - 1], row, now, cash0);
    }
  }

  lemma DropOneOk(env: Env, st: State, po: PendingOrder, row: nat, now: int, cash0: real)
    requires AccountOk(env, st, cash0)
    ensures AccountOk(env, DropOne(env, st, po, row, now), cash0)
  {
    hide HandleExpiry, Reject, AccountOk;
    RejectOk(env, st, po, row, ContractExpired, cash0);
    SameAccount(env, st, Keep(st, po), cash0);
    SameAccount(env, st, st.(failed := true), cash0);
  }

  lemma StepOk(env: Env, st: State, row: nat, bar: Bar, cash0: real)
    requires AccountOk(env, st, cash0)
    ensures AccountOk(env, Step(env, st, row, bar), cash0)
  {
    hide Trade, SettleAll, DropAll, Mark, AccountOk;
    var now := bar.time + env.duration;
    var traded := Trade(env, st, row, bar);
    TradeOk(env, st, row, bar, cash0);
    SettleAllOk(env, traded, traded.positions, row, now, cash0, |traded.positions|);
    assert traded.positions[..|traded.positions|] == traded.positions;
    var settled := SettleAll(env, traded, traded.positions, row, now);
    SameAccount(env, settled, settled.(pending := []), cash0);
    DropAllOk(env, settled.(pending := []), settled.pending, row, now, cash0);
    MarkOk(env, DropExpired(env, settled, row, now), row, now, cash0);
  }

  lemma MarkOk(env: Env, st: State, row: nat, now: int, cash0: real)
    requires AccountOk(env, st, cash0)
    ensures AccountOk(env, Mark(env, st, row, now), cash0)
  {
    hide MarketValue, BookValue;
    LogOne(env, st.log, EquityPoint(row, now, st.cash + MarketValue(env, st.positions, now), st.cash));
  }

  lemma {:induction false} RowsOk(env: Env, cash0: real, cancelled: bool, clock: seq<Bar>, n: nat)
    requires n <= |clock|
    ensures AccountOk(env, Rows(env, Start(cash0, cancelled), clock, n), cash0)
  {
    hide Step;
    if n > 0 {
      RowsOk(env, cash0, cancelled, clock, n - 1);
      StepOk(env, Rows(env, Start(cash0, cancelled), clock, n - 1), n - 1, clock[n - 1], cash0);
    }
  }

  // ---- main results ----

  /**
   Conservation. At every loop head of every run, cash plus the cost of what is held equals the
   starting cash plus everything reported as realized, less the fees of opening fills.
   */
  lemma {:induction false} BookConservation(env: Env, cash0: real, cancelled: bool, clock: seq<Bar>, n: nat)
    requires n <= |clock|
    ensures var st := Rows(env, Start(cash0, cancelled), clock, n);
            && st.cash + BookValue(env, st.positions) == cash0 + Gains(st.log)
            && (st.positions == [] ==> st.cash == cash0 + Gains(st.log))
  {
    RowsOk(env, cash0, cancelled, clock, n);
  }

  /** What closing every open position at its mark would realize. */
  function Unrealized(env: Env, positions: Positions, now: int): real {
    if positions == [] then 0.0
    else
      var e := positions[0];
      Worth(MarkPrice(env, e.key, e.value, now) - e.value.avgPrice, e.value.quantity, Multiplier(env, e.key))
      + Unrealized(env, positions[1..], now)
  }

  /** A position's value at its mark: what it cost plus what is unrealized. */
  function MarkedWorth(env: Env, e: Entry<Symbol, Position>, now: int): real {
    Worth(e.value.avgPrice, e.value.quantity, Multiplier(env, e.key))
    + Worth(MarkPrice(env, e.key, e.value, now) - e.value.avgPrice, e.value.quantity, Multiplier(env, e.key))
  }

  lemma MarketValueBack(env: Env, positions: Positions, now: int)
    requires positions != []
    ensures MarketValue(env, positions, now)
         == MarketValue(env, positions[..|positions| - 1], now) + MarkedWorth(env, positions[|positions| - 1], now)
  {
    hide MarkPrice, Multiplier;
    var e := positions[|positions| - 1];
    WorthSplits(MarkPrice(env, e.key, e.value, now), e.value.avgPrice, e.value.quantity, Multiplier(env, e.key));
  }

  lemma {:induction false} MarketValueFront(env: Env, positions: Positions, now: int)
    requires positions != []
    ensures MarketValue(env, positions, now) == MarkedWorth(env, positions[0], now) + MarketValue(env, positions[1..], now)
  {
    hide MarkedWorth, MarketValue;
    MarketValueBack(env, positions, now);
    if |positions| > 1 {
      var init := positions[..|positions| - 1];
      assert init[1..] == positions[1..][..|positions| - 2];
      MarketValueBack(env, positions[1..], now);
      MarketValueFront(env, init, now);
    } else {
      assert positions[..0] == [] && positions[1..] == [];
      NoMarketValue(env, now);
    }
  }

  lemma NoMarketValue(env: Env, now: int)
    ensures MarketValue(env, [], now) == 0.0
  {
  }

  lemma WorthSplits(mark: real, avg: real, quantity: real, m: real)
    ensures quantity * mark * m == Worth(avg, quantity, m) + Worth(mark - avg, quantity, m)
  {
    assert (mark - avg) * quantity * m == mark * quantity * m - avg * quantity * m;
  }

  /** Positions are worth what they cost plus what is unrealized. */
  lemma {:induction false} MarketValueSplits(env: Env, positions: Positions, now: int)
    ensures MarketValue(env, positions, now) == BookValue(env, positions) + Unrealized(env, positions, now)
  {
    hide MarkPrice, Multiplier, MarketValue, Worth;
    if positions == [] {
      NoMarketValue(env, now);
    } else {
      MarketValueFront(env, positions, now);
      MarketValueSplits(env, positions[1..], now);
    }
  }

  lemma StepEndsWithMark(env: Env, st: State, row: nat, bar: Bar)
    requires !Step(env, st, row, bar).failed
    ensures var after := Step(env, st, row, bar);
            var now := bar.time + env.duration;
            && after.log != []
            && after.log[|after.log| - 1] == EquityPoint(row, now, after.cash + MarketValue(env, after.positions, now), after.cash)
  {
    hide Trade, SettleAll, DropExpired, MarketValue;
  }

  /**
   The equity curve. The point recorded at the end of each row is the starting cash, plus all that
   was realized, less opening fees, plus what the open positions would realize at their marks.
   */
  lemma {:induction false} EquityDecomposes(env: Env, cash0: real, cancelled: bool, clock: seq<Bar>, n: nat)
    requires 0 < n <= |clock| && !Rows(env, Start(cash0, cancelled), clock, n).failed
    ensures var st, now := Rows(env, Start(cash0, cancelled), clock, n), clock[n - 1].time + env.duration;
            && st.log != []
            && st.log[|st.log| - 1]
               == EquityPoint(n - 1, now, cash0 + Gains(st.log) + Unrealized(env, st.positions, now), st.cash)
  {
    hide Step, MarketValue, BookValue, Gains, Unrealized;
    StepEndsWithMark(env, Rows(env, Start(cash0, cancelled), clock, n - 1), n - 1, clock[n - 1]);
    var before := Rows(env, Start(cash0, cancelled), clock, n - 1);
    var st, now := Rows(env, Start(cash0, cancelled), clock, n), clock[n - 1].time + env.duration;
    assert st == Step(env, before, n - 1, clock[n - 1]);
    BookConservation(env, cash0, cancelled, clock, n);
    MarketValueSplits(env, st.positions, now);
  }

  /**
   Strict cash. Whatever is traded, cash stays above -0.000001 (or a lower start) less the sale
   fees beyond proceeds and the assignments of expired shorts; nothing but an option is ever
   short by more than the tolerance; no stored position is empty.
   */
  lemma {:induction false} StrictCash(env: Env, cash0: real, cancelled: bool, clock: seq<Bar>, n: nat)
    requires n <= |clock|
    ensures var st := Rows(env, Start(cash0, cancelled), clock, n);
            && st.cash >= Min(cash0, -CASH_SLACK) - UncheckedTotal(env, st.log)
            && forall i :: 0 <= i < |st.positions| ==>
                 && st.positions[i].value.quantity != 0.0
                 && (!IsOption(env, st.positions[i].key) ==> st.positions[i].value.quantity >= -QUANTITY_SLACK)
  {
    RowsOk(env, cash0, cancelled, clock, n);
    var st := Rows(env, Start(cash0, cancelled), clock, n);
    forall i | 0 <= i < |st.positions|
      ensures st.positions[i].value.quantity != 0.0
      ensures !IsOption(env, st.positions[i].key) ==> st.positions[i].value.quantity >= -QUANTITY_SLACK
    {
      assert Sound(env)(st.positions[i].key, st.positions[i].value);
    }
  }
}
