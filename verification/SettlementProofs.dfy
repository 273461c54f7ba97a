/** What expired contracts pay, and what a row's settlement does to the account. */
module SettlementProofs {
  import opened Common
  import opened OrderedDict
  import opened Market
  import opened Orders
  import opened EngineSpec
  import opened AccountProofs
  import opened Assignments

  /**
   Put-call parity at expiry. An expired call and put on one underlying, at one strike, settle at
   prices that differ by exactly what the underlying is above the strike; neither is negative, and one
   is zero. Longs are sold at them and shorts bought back.
   */
  lemma SettlementParity(env: Env, call: Symbol, put: Symbol, held: real, avg: real, now: int, s: real)
    requires Expired(env, call, now) && Expired(env, put, now)
    requires var c, p := env.contractOf(call).value, env.contractOf(put).value;
             c.isCall && !p.isCall && c.underlying == p.underlying && c.strike == p.strike
             && UnderlyingPrice(env.store, c.underlying, now) == Some(s)
    ensures var c, p := HandleExpiry(env, call, held, avg, now), HandleExpiry(env, put, held, avg, now);
            && c.Expires? && p.Expires?
            && c.price - p.price == s - env.contractOf(call).value.strike
            && c.price >= 0.0 && p.price >= 0.0 && (c.price == 0.0 || p.price == 0.0)
            && c.side == p.side == (if held < 0.0 then Buy else Sell) && c.quantity == p.quantity == Abs(held)
  {
    hide Worth, UnderlyingPrice;
  }

  /** What one unit of an expired contract pays its holder. */
  function Payoff(contract: OptionContract, s: real): real {
    if contract.isCall && s > contract.strike then s - contract.strike
    else if !contract.isCall && s < contract.strike then contract.strike - s
    else 0.0
  }

  /** Such a call and put, one held and one owed, pay the forward. */
  lemma PayoffParity(call: OptionContract, put: OptionContract, s: real)
    requires call.isCall && !put.isCall && call.strike == put.strike
    ensures Payoff(call, s) - Payoff(put, s) == s - call.strike
  {
  }

  /** What a held position brings when a row settles it: a short pays, and what has not expired brings nothing. */
  function ExpiryFlow(env: Env, now: int): (Symbol, Position) -> real {
    (symbol: Symbol, ps: Position) =>
      if !Expired(env, symbol, now) then 0.0
      else
        var contract := env.contractOf(symbol).value;
        match UnderlyingPrice(env.store, contract.underlying, now)
        case None => 0.0
        case Some(s) => Worth(Payoff(contract, s), ps.quantity, 100.0)
  }

  lemma PriceIsPayoff(env: Env, symbol: Symbol, quantity: real, avg: real, now: int)
    ensures var x := HandleExpiry(env, symbol, quantity, avg, now);
            && (x.NotExpired? <==> !Expired(env, symbol, now))
            && (x.Expires? ==>
                  var contract := env.contractOf(symbol).value;
                  var s := UnderlyingPrice(env.store, contract.underlying, now);
                  s.Some? && x.price == Payoff(contract, s.value) && x.quantity == Abs(quantity)
                  && (x.side.Buy? <==> quantity < 0.0) && IsOption(env, symbol))
  {
    hide Worth, UnderlyingPrice;
  }

  /** Settling one position moves cash by what it pays. */
  lemma OneSettles(env: Env, st: State, held: Entry<Symbol, Position>, row: nat, now: int)
    requires !SettleOne(env, st, held, row, now).failed
    ensures SettleOne(env, st, held, row, now).cash == st.cash + ExpiryFlow(env, now)(held.key, held.value)
    ensures SettleOne(env, st, held, row, now).positions
         == if Expired(env, held.key, now) then Remove(st.positions, held.key) else st.positions
  {
    hide HandleExpiry, Worth, UnderlyingPrice, Payoff, Expired;
    var q := held.value.quantity;
    PriceIsPayoff(env, held.key, q, held.value.avgPrice, now);
    var x := HandleExpiry(env, held.key, q, held.value.avgPrice, now);
    if x.Expires? {
      SettlementParts(env, st, held, row, now);
      WorthNegated(x.price, q, 100.0);
    }
  }

  lemma {:induction false} SettlementMovesCash(env: Env, st: State, held: Positions, row: nat, now: int)
    requires !SettleAll(env, st, held, row, now).failed
    ensures SettleAll(env, st, held, row, now).cash == st.cash + Total(held, ExpiryFlow(env, now))
  {
    hide SettleOne, ExpiryFlow;
    if held != [] {
      var rest, last := held[..|held| - 1], held[|held| - 1];
      assert held == rest + [last];
      SettleStops(env, SettleAll(env, st, rest, row, now), last, row, now);
      SettlementMovesCash(env, st, rest, row, now);
      OneSettles(env, SettleAll(env, st, rest, row, now), last, row, now);
      TotalAppend(rest, last, ExpiryFlow(env, now));
    }
  }

  lemma SettleStops(env: Env, st: State, held: Entry<Symbol, Position>, row: nat, now: int)
    requires !SettleOne(env, st, held, row, now).failed
    ensures !st.failed
  {
  }

  /** The entry is among the first `n` held, and its contract has expired. */
  ghost predicate SettledBy(env: Env, held: Positions, n: nat, now: int, e: Entry<Symbol, Position>) {
    n <= |held| && e in held[..n] && Expired(env, e.key, now)
  }

  /** Settlement removes the first `n` held positions that have expired, and nothing else. */
  lemma {:induction false} SettlementRemoves(env: Env, st: State, held: Positions, n: nat, row: nat, now: int)
    requires held == st.positions && Distinct(held) && n <= |held| && !SettleAll(env, st, held[..n], row, now).failed
    ensures var after := SettleAll(env, st, held[..n], row, now).positions;
            Distinct(after) && forall e :: e in after <==> e in held && !SettledBy(env, held, n, now, e)
  {
    hide SettleOne, Expired;
    if n > 0 {
      hide SettledBy, Distinct;
      assert held[..n][..n - 1] == held[..n - 1];
      var before, last := SettleAll(env, st, held[..n - 1], row, now), held[n - 1];
      SettleStops(env, before, last, row, now);
      SettlementRemoves(env, st, held, n - 1, row, now);
      OneSettles(env, before, last, row, now);
      RemoveKeys(before.positions, last.key);
      forall e | e in held ensures SettledBy(env, held, n, now, e) <==> SettledBy(env, held, n - 1, now, e) || (e.key == last.key && Expired(env, last.key, now)) {
        SettledByOne(env, held, n, now, e);
      }
    }
  }

  lemma SettledByOne(env: Env, held: Positions, n: nat, now: int, e: Entry<Symbol, Position>)
    requires Distinct(held) && 0 < n <= |held| && e in held
    ensures SettledBy(env, held, n, now, e)
       <==> SettledBy(env, held, n - 1, now, e) || (e.key == held[n - 1].key && Expired(env, held[n - 1].key, now))
  {
    hide Expired;
    assert held[..n] == held[..n - 1] + [held[n - 1]];
    var i :| 0 <= i < |held| && held[i] == e;
    assert e.key == held[n - 1].key ==> i == n - 1;
  }

  lemma {:induction false} DropAllAccount(env: Env, st: State, orders: seq<PendingOrder>, row: nat, now: int)
    ensures var after := DropAll(env, st, orders, row, now);
            after.cash == st.cash && after.positions == st.positions && (st.failed ==> after.failed)
  {
    hide HandleExpiry;
    if orders != [] {
      DropAllAccount(env, st, orders[..|orders| - 1], row, now);
    }
  }

  /** The settlement of a row, after its trading: cash and positions. */
  ghost predicate Settles(env: Env, traded: State, after: State, now: int) {
    && after.cash == traded.cash + Total(traded.positions, ExpiryFlow(env, now))
    && forall e :: e in after.positions <==> e in traded.positions && !Expired(env, e.key, now)
  }

  lemma StepSettles(env: Env, st: State, row: nat, bar: Bar)
    requires !st.failed && !Step(env, st, row, bar).failed && Distinct(Trade(env, st, row, bar).positions)
    ensures Settles(env, Trade(env, st, row, bar), Step(env, st, row, bar), bar.time + env.duration)
  {
    hide Trade, SettleAll, DropAll, MarketValue, ExpiryFlow, Expired;
    var now, traded := bar.time + env.duration, Trade(env, st, row, bar);
    var held := traded.positions;
    var settled := SettleAll(env, traded, held, row, now);
    DropAllAccount(env, settled.(pending := []), settled.pending, row, now);
    assert held[..|held|] == held;
    SettlementMovesCash(env, traded, held, row, now);
    SettlementRemoves(env, traded, held, |held|, row, now);
    forall e | e in held ensures SettledBy(env, held, |held|, now, e) <==> Expired(env, e.key, now) {
    }
  }

  /**
   The settlement of a row of a run. Cash moves by what each held contract that has expired pays its
   holder, shorts paying; exactly those positions go.
   */
  lemma {:induction false} RowSettles(env: Env, cash0: real, cancelled: bool, clock: seq<Bar>, n: nat)
    requires n < |clock| && !Rows(env, Start(cash0, cancelled), clock, n + 1).failed
    ensures Settles(env, Trade(env, Rows(env, Start(cash0, cancelled), clock, n), n, clock[n]),
                    Rows(env, Start(cash0, cancelled), clock, n + 1), clock[n].time + env.duration)
  {
    hide Step, Trade, Settles;
    var st := Rows(env, Start(cash0, cancelled), clock, n);
    FailureSticks(env, Start(cash0, cancelled), clock, n + 1);
    RowsOk(env, cash0, cancelled, clock, n);
    TradeOk(env, st, n, clock[n], cash0);
    StepSettles(env, st, n, clock[n]);
  }

  // ---- parity, in cash ----

  lemma {:induction false} TotalNothing(d: Positions, f: (Symbol, Position) -> real)
    requires forall k :: 0 <= k < |d| ==> f(d[k].key, d[k].value) == 0.0
    ensures Total(d, f) == 0.0
  {
    if d != [] {
      TotalNothing(d[1..], f);
    }
  }

  lemma {:induction false} TotalOfTwo(d: Positions, i: nat, j: nat, f: (Symbol, Position) -> real)
    requires i < |d| && j < |d| && i != j
    requires forall k :: 0 <= k < |d| && k != i && k != j ==> f(d[k].key, d[k].value) == 0.0
    ensures Total(d, f) == f(d[i].key, d[i].value) + f(d[j].key, d[j].value)
  {
    if i == 0 {
      TotalOfOne(d[1..], j - 1, f);
    } else if j == 0 {
      TotalOfOne(d[1..], i - 1, f);
    } else {
      TotalOfTwo(d[1..], i - 1, j - 1, f);
    }
  }

  lemma {:induction false} TotalOfOne(d: Positions, i: nat, f: (Symbol, Position) -> real)
    requires i < |d| && forall k :: 0 <= k < |d| && k != i ==> f(d[k].key, d[k].value) == 0.0
    ensures Total(d, f) == f(d[i].key, d[i].value)
  {
    if i == 0 {
      TotalNothing(d[1..], f);
    } else {
      TotalOfOne(d[1..], i - 1, f);
    }
  }

  /** A call held against a put owed, in equal number, and no other contract that has expired. */
  ghost predicate HoldsForward(env: Env, positions: Positions, call: nat, put: nat, quantity: real, now: int) {
    && call < |positions| && put < |positions|
    && positions[call].value.quantity == quantity && positions[put].value.quantity == -quantity
    && Expired(env, positions[call].key, now) && Expired(env, positions[put].key, now)
    && (forall k :: 0 <= k < |positions| && k != call && k != put ==> !Expired(env, positions[k].key, now))
    && var c, p := env.contractOf(positions[call].key).value, env.contractOf(positions[put].key).value;
       c.isCall && !p.isCall && c.underlying == p.underlying && c.strike == p.strike
  }

  /**
   Put-call parity in the cash of a run. A row that settles a call held against an equal put owed, at one
   strike, moves cash by a hundred times what the underlying is above the strike, for each contract.
   */
  lemma {:induction false} ForwardSettles(env: Env, cash0: real, cancelled: bool, clock: seq<Bar>, n: nat,
                                          call: nat, put: nat, quantity: real, s: real)
    requires n < |clock| && !Rows(env, Start(cash0, cancelled), clock, n + 1).failed
    requires var positions := Trade(env, Rows(env, Start(cash0, cancelled), clock, n), n, clock[n]).positions;
             var now := clock[n].time + env.duration;
             HoldsForward(env, positions, call, put, quantity, now)
             && UnderlyingPrice(env.store, env.contractOf(positions[call].key).value.underlying, now) == Some(s)
    ensures var traded := Trade(env, Rows(env, Start(cash0, cancelled), clock, n), n, clock[n]);
            Rows(env, Start(cash0, cancelled), clock, n + 1).cash
            == traded.cash + (s - env.contractOf(traded.positions[call].key).value.strike) * quantity * 100.0
  {
    hide Rows, Trade, UnderlyingPrice, Payoff, Worth;
    RowSettles(env, cash0, cancelled, clock, n);
    var traded := Trade(env, Rows(env, Start(cash0, cancelled), clock, n), n, clock[n]);
    var now := clock[n].time + env.duration;
    var c, p := env.contractOf(traded.positions[call].key).value, env.contractOf(traded.positions[put].key).value;
    TotalOfTwo(traded.positions, call, put, ExpiryFlow(env, now));
    PayoffParity(c, p, s);
    ForwardWorth(Payoff(c, s), Payoff(p, s), quantity);
  }

  lemma ForwardWorth(call: real, put: real, quantity: real)
    ensures Worth(call, quantity, 100.0) + Worth(put, -quantity, 100.0) == (call - put) * quantity * 100.0
  {
  }
}
