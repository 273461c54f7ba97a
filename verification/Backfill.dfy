/**
 Account history reconstruction: replay broker transactions into a ledger, recompute cash
 backwards from today's balance, fill the weekdays between, and price the result.
 */
module Backfill {
  import opened Common
  import opened OrderedDict
  import opened Timeline
  import opened Market

  datatype TxnSide = Buying | Selling | NoSide

  /** An empty symbol stands for a fill whose symbol is missing. */
  datatype TxnKind =
    | FillTxn(symbol: string, side: TxnSide, quantity: real, price: real)
    | Inflow(amount: real)
    | Outflow(amount: real)
    | OtherTxn

  datatype Txn = Txn(timestamp: int, kind: TxnKind)

  datatype Lot = Lot(quantity: real, avgCost: real)

  type Lots = seq<Entry<string, Lot>>

  const TxnTime: Txn -> int := (t: Txn) => t.timestamp

  function TxnDate(t: Txn): int {
    DateOf(t.timestamp)
  }

  function OptionMultiplier(symbol: string): real {
    if |symbol| > 15 then 100.0 else 1.0
  }

  /** What an OCC-style symbol says about its expiration day, if anything. */
  type Expiries = string -> Option<int>

  predicate HasExpired(expiry: Expiries, symbol: string, day: int) {
    expiry(symbol).Some? && expiry(symbol).value < day
  }

  /** The lots without the contracts that expired before `day`. */
  function Unexpired(lots: Lots, expiry: Expiries, day: int): Lots {
    if lots == [] then []
    else
      var rest := Unexpired(lots[..|lots| - 1], expiry, day);
      if HasExpired(expiry, lots[|lots| - 1].key, day) then rest else rest + [lots[|lots| - 1]]
  }

  // ---- replay ----

  datatype Replayed = Replayed(lots: Lots, cash: real, ledger: map<int, Lots>, cashByDate: map<int, real>)

  function Snapshot(st: Replayed, day: int): Replayed {
    st.(ledger := st.ledger[day := st.lots], cashByDate := st.cashByDate[day := st.cash])
  }

  function BuyLot(lots: Lots, symbol: string, quantity: real, price: real): Lots {
    match Find(lots, symbol)
    case None => Put(lots, symbol, Lot(quantity, price))
    case Some(lot) =>
      var total := lot.quantity + quantity;
      Put(lots, symbol, Lot(total, if total > 0.0 then (lot.avgCost * lot.quantity + price * quantity) / total else lot.avgCost))
  }

  function SellLot(lots: Lots, symbol: string, quantity: real, price: real): Lots {
    match Find(lots, symbol)
    case None => Put(lots, symbol, Lot(-quantity, price))
    case Some(lot) =>
      var left := lot.quantity - quantity;
      if Abs(left) < 0.001 then Remove(lots, symbol) else Put(lots, symbol, Lot(left, lot.avgCost))
  }

  /** Cash moved by one transaction in forward replay. */
  function ReplayDelta(t: Txn): real {
    match t.kind
    case FillTxn(symbol, side, quantity, price) =>
      if symbol == "" || quantity == 0.0 then 0.0
      else (match side
        case Buying => -(quantity * price * OptionMultiplier(symbol))
        case Selling => quantity * price * OptionMultiplier(symbol)
        case NoSide => 0.0)
    case Inflow(amount) => amount
    case Outflow(amount) => -amount
    case OtherTxn => 0.0
  }

  /** Cash moved by the same transaction in backward calibration. */
  function CalibrationDelta(t: Txn): real {
    match t.kind
    case FillTxn(symbol, side, quantity, price) =>
      (match side
       case Buying => -(quantity * price * OptionMultiplier(symbol))
       case Selling => quantity * price * OptionMultiplier(symbol)
       case NoSide => 0.0)
    case Inflow(amount) => amount
    case Outflow(amount) => -Abs(amount)
    case OtherTxn => 0.0
  }

  /** A zero-quantity sale: an option that expired worthless. */
  predicate IsExpiration(t: Txn) {
    t.kind.FillTxn? && t.kind.symbol != "" && t.kind.quantity == 0.0 && t.kind.side.Selling?
  }

  /** Fills with no symbol, and zero-quantity fills that are not sales, leave no trace. */
  predicate Ignored(t: Txn) {
    t.kind.FillTxn? && (t.kind.symbol == "" || (t.kind.quantity == 0.0 && !t.kind.side.Selling?))
  }

  function TradeLots(lots: Lots, t: Txn): Lots {
    match t.kind
    case FillTxn(symbol, side, quantity, price) =>
      (match side
       case Buying => BuyLot(lots, symbol, quantity, price)
       case Selling => SellLot(lots, symbol, quantity, price)
       case NoSide => lots)
    case _ => lots
  }

  function ReplayOne(st: Replayed, t: Txn, expiry: Expiries): Replayed {
    if Ignored(t) then st
    else if IsExpiration(t) then Snapshot(st.(lots := Remove(st.lots, t.kind.symbol)), TxnDate(t))
    else Snapshot(st.(lots := Unexpired(TradeLots(st.lots, t), expiry, TxnDate(t)), cash := st.cash + ReplayDelta(t)), TxnDate(t))
  }

  function ReplayAll(txns: seq<Txn>, cash: real, expiry: Expiries): Replayed {
    if txns == [] then Replayed([], cash, map[], map[])
    else ReplayOne(ReplayAll(txns[..|txns| - 1], cash, expiry), txns[|txns| - 1], expiry)
  }

  /** Replay a transaction list in time order. */
  method ReplayTransactions(transactions: seq<Txn>, startingCash: real, expiry: Expiries)
    returns (ledger: map<int, Lots>, cashByDate: map<int, real>)
    ensures var r := ReplayAll(SortBy(transactions, TxnTime), startingCash, expiry);
            ledger == r.ledger && cashByDate == r.cashByDate
  {
    hide BuyLot, SellLot, Unexpired, OptionMultiplier;
    var txns := SortBy(transactions, TxnTime);
    var lots: Lots, cash := [], startingCash;
    ledger, cashByDate := map[], map[];
    for i := 0 to |txns|
      invariant Replayed(lots, cash, ledger, cashByDate) == ReplayAll(txns[..i], startingCash, expiry)
    {
      assert txns[..i + 1][..i] == txns[..i];
      var t := txns[i];
      var day := TxnDate(t);
      ghost var before := Replayed(lots, cash, ledger, cashByDate);
      assert ReplayAll(txns[..i + 1], startingCash, expiry) == ReplayOne(before, t, expiry);
      if Ignored(t) {
        continue;
      }
      if IsExpiration(t) {
        lots := Remove(lots, t.kind.symbol);
      } else {
        match t.kind {
          case FillTxn(symbol, side, quantity, price) =>
            match side {
              case Buying =>
                lots := BuyLot(lots, symbol, quantity, price);
                cash := cash - quantity * price * OptionMultiplier(symbol);
              case Selling =>
                lots := SellLot(lots, symbol, quantity, price);
                cash := cash + quantity * price * OptionMultiplier(symbol);
              case NoSide =>
            }
          case Inflow(amount) => cash := cash + amount;
          case Outflow(amount) => cash := cash - amount;
          case OtherTxn =>
        }
        assert lots == TradeLots(before.lots, t) && cash == before.cash + ReplayDelta(t);
        lots := Unexpired(lots, expiry, day);
      }
      ledger := ledger[day := lots];
      cashByDate := cashByDate[day := cash];
    }
    assert txns[..|txns|] == txns;
  }

  function LotQuantity(lots: Lots, symbol: string): real {
    match Find(lots, symbol)
    case None => 0.0
    case Some(lot) => lot.quantity
  }

  /** Quantity times average cost of one lot. */
  function LotCost(lots: Lots, symbol: string): real {
    match Find(lots, symbol)
    case None => 0.0
    case Some(lot) => lot.avgCost * lot.quantity
  }

  function SignedQuantity(side: TxnSide, quantity: real): real {
    match side
    case Buying => quantity
    case Selling => -quantity
    case NoSide => 0.0
  }

  /**
   A replayed fill moves its own lot by the signed quantity and no other lot; a remainder under
   0.001 left by a sale is dropped. A buy that leaves a long lot adds its cost to the lot's.
   */
  lemma FillMovesItsLot(lots: Lots, t: Txn, other: string)
    requires Distinct(lots) && t.kind.FillTxn?
    ensures var symbol, after := t.kind.symbol, TradeLots(lots, t);
            var target := LotQuantity(lots, symbol) + SignedQuantity(t.kind.side, t.kind.quantity);
            && (other != symbol ==> Find(after, other) == Find(lots, other))
            && LotQuantity(after, symbol)
               == (if t.kind.side.Selling? && Find(lots, symbol).Some? && Abs(target) < 0.001 then 0.0 else target)
            && (t.kind.side.Buying? && target > 0.0 ==>
                  LotCost(after, symbol) == LotCost(lots, symbol) + t.kind.price * t.kind.quantity)
  {
    var symbol, after := t.kind.symbol, TradeLots(lots, t);
    RemoveFind(lots, symbol, other);
    RemoveFind(lots, symbol, symbol);
    if t.kind.side.Buying? {
      BuyFinds(lots, symbol, t.kind.quantity, t.kind.price, other);
      BuyFinds(lots, symbol, t.kind.quantity, t.kind.price, symbol);
    } else if t.kind.side.Selling? {
      var lot := if Find(lots, symbol).Some? then Lot(LotQuantity(lots, symbol) - t.kind.quantity, Find(lots, symbol).value.avgCost)
                 else Lot(-t.kind.quantity, t.kind.price);
      PutFind(lots, symbol, lot, other);
      PutFind(lots, symbol, lot, symbol);
    }
  }

  lemma BuyFinds(lots: Lots, symbol: string, quantity: real, price: real, q: string)
    ensures var after := BuyLot(lots, symbol, quantity, price);
            && (q != symbol ==> Find(after, q) == Find(lots, q))
            && LotQuantity(after, symbol) == LotQuantity(lots, symbol) + quantity
            && (LotQuantity(after, symbol) > 0.0 ==> LotCost(after, symbol) == LotCost(lots, symbol) + price * quantity)
  {
    var before := Find(lots, symbol);
    var total := LotQuantity(lots, symbol) + quantity;
    var cost := LotCost(lots, symbol) + price * quantity;
    var avg := if before.None? then price else if total > 0.0 then cost / total else before.value.avgCost;
    PutFind(lots, symbol, Lot(total, avg), q);
    PutFind(lots, symbol, Lot(total, avg), symbol);
    if total > 0.0 {
      assert cost / total * total == cost;
    }
  }

  // ---- calibration ----

  function SumOn(txns: seq<Txn>, delta: Txn -> real, day: int): real {
    if txns == [] then 0.0
    else SumOn(txns[..|txns| - 1], delta, day) + (if TxnDate(txns[|txns| - 1]) == day then delta(txns[|txns| - 1]) else 0.0)
  }

  function SumThrough(txns: seq<Txn>, delta: Txn -> real, day: int): real {
    if txns == [] then 0.0
    else SumThrough(txns[..|txns| - 1], delta, day) + (if TxnDate(txns[|txns| - 1]) <= day then delta(txns[|txns| - 1]) else 0.0)
  }

  const Replaying: Txn -> real := (t: Txn) => ReplayDelta(t)
  const Calibrating: Txn -> real := (t: Txn) => CalibrationDelta(t)

  lemma Inhabited(days: set<int>)
    ensures days == {} || exists d :: d in days
  {
    assert (forall d :: d !in days) ==> days == {};
  }

  predicate IsLeast(days: set<int>, m: int) {
    m in days && forall d :: d in days ==> m <= d
  }

  lemma {:induction false} LeastExists(days: set<int>)
    requires days != {}
    ensures exists m :: IsLeast(days, m)
  {
    Inhabited(days);
    var y :| y in days;
    if days == {y} {
      assert IsLeast(days, y);
    } else {
      assert days == (days - {y}) + {y};
      assert days - {y} != {};
      LeastExists(days - {y});
      var m :| IsLeast(days - {y}, m);
      assert IsLeast(days, if m <= y then m else y);
    }
  }

  /** `sorted(keys)` */
  function SortedDays(days: set<int>): seq<int>
    decreases |days|
  {
    if days == {} then []
    else
      LeastExists(days);
      var m :| IsLeast(days, m);
      [m] + SortedDays(days - {m})
  }

  lemma OneMoreDay(days: set<int>, m: int, rest: seq<int>, all: seq<int>)
    requires IsLeast(days, m) && all == [m] + rest
    requires forall d :: d in rest <==> d in days - {m}
    requires forall i, j :: 0 <= i < j < |rest| ==> rest[i] < rest[j]
    ensures forall d :: d in all <==> d in days
    ensures forall i, j :: 0 <= i < j < |all| ==> all[i] < all[j]
  {
    assert forall d :: d in all <==> d == m || d in rest;
    forall i | 0 <= i < |rest| ensures m < rest[i] {
      assert rest[i] in rest;
    }
  }

  lemma {:induction false} SortedDaysMembers(days: set<int>)
    ensures forall d :: d in SortedDays(days) <==> d in days
    ensures forall i, j :: 0 <= i < j < |SortedDays(days)| ==> SortedDays(days)[i] < SortedDays(days)[j]
    decreases |days|
  {
    if days != {} {
      LeastExists(days);
      var m :| IsLeast(days, m) && SortedDays(days) == [m] + SortedDays(days - {m});
      var rest := SortedDays(days - {m});
      SortedDaysMembers(days - {m});
      OneMoreDay(days, m, rest, SortedDays(days));
    }
  }

  /** The unshifted backward walk at position `i` of the sorted days. */
  function Backward(days: seq<int>, txns: seq<Txn>, actual: real, i: nat): real
    requires i < |days|
    decreases |days| - i
  {
    if i == |days| - 1 then actual
    else Backward(days, txns, actual, i + 1) - SumOn(txns, Calibrating, days[i + 1])
  }

  /** A day's total change, from the transactions in any order. */
  method DailyDeltas(txns: seq<Txn>) returns (daily: map<int, real>)
    ensures forall d :: (if d in daily then daily[d] else 0.0) == SumOn(txns, Calibrating, d)
  {
    daily := map[];
    for i := 0 to |txns|
      invariant forall d :: (if d in daily then daily[d] else 0.0) == SumOn(txns[..i], Calibrating, d)
    {
      assert txns[..i + 1][..i] == txns[..i];
      var day := TxnDate(txns[i]);
      daily := daily[day := (if day in daily then daily[day] else 0.0) + CalibrationDelta(txns[i])];
    }
    assert txns[..|txns|] == txns;
  }

  lemma BackwardStep(days: seq<int>, txns: seq<Txn>, actual: real, i: nat)
    requires i < |days|
    ensures Backward(days, txns, actual, i)
         == if i == |days| - 1 then actual else Backward(days, txns, actual, i + 1) - SumOn(txns, Calibrating, days[i + 1])
  {
  }

  /** Days walked so far, latest first, hold the unshifted walk. */
  ghost predicate Walked(days: seq<int>, txns: seq<Txn>, actual: real, calibrated: map<int, real>, from: nat) {
    && from <= |days|
    && (forall j :: from <= j < |days| ==> days[j] in calibrated && calibrated[days[j]] == Backward(days, txns, actual, j))
    && (forall d :: d in calibrated ==> exists j :: from <= j < |days| && days[j] == d)
  }

  ghost predicate LowestSoFar(days: seq<int>, txns: seq<Txn>, actual: real, low: real, from: nat) {
    && from < |days|
    && (exists j :: from <= j < |days| && Backward(days, txns, actual, j) == low)
    && forall j :: from <= j < |days| ==> low <= Backward(days, txns, actual, j)
  }

  /** The backward walk before any shift, and its lowest value. */
  method WalkBack(days: seq<int>, txns: seq<Txn>, actual: real) returns (calibrated: map<int, real>, low: real)
    requires days != [] && forall i, j :: 0 <= i < j < |days| ==> days[i] < days[j]
    ensures Walked(days, txns, actual, calibrated, 0) && LowestSoFar(days, txns, actual, low, 0)
  {
    hide Backward, SumOn, Walked, LowestSoFar;
    var daily := DailyDeltas(txns);
    var last := |days| - 1;
    BackwardStep(days, txns, actual, last);
    WalkStarts(days, txns, actual);
    calibrated, low := map[days[last] := actual], actual;
    var cash := actual - (if days[last] in daily then daily[days[last]] else 0.0);
    var i := last;
    while i > 0
      invariant 0 <= i <= last
      invariant Walked(days, txns, actual, calibrated, i) && LowestSoFar(days, txns, actual, low, i)
      invariant cash == Backward(days, txns, actual, i) - SumOn(txns, Calibrating, days[i])
    {
      i := i - 1;
      BackwardStep(days, txns, actual, i);
      WalkedOne(days, txns, actual, calibrated, i + 1);
      LowestOne(days, txns, actual, low, i + 1);
      calibrated := calibrated[days[i] := cash];
      low := if cash < low then cash else low;
      cash := cash - (if days[i] in daily then daily[days[i]] else 0.0);
    }
  }

  lemma WalkStarts(days: seq<int>, txns: seq<Txn>, actual: real)
    requires days != []
    ensures Walked(days, txns, actual, map[days[|days| - 1] := actual], |days| - 1)
    ensures LowestSoFar(days, txns, actual, actual, |days| - 1)
  {
    BackwardStep(days, txns, actual, |days| - 1);
    assert days[|days| - 1] in map[days[|days| - 1] := actual];
  }

  lemma WalkedOne(days: seq<int>, txns: seq<Txn>, actual: real, calibrated: map<int, real>, i: nat)
    requires 0 < i < |days| && forall j, k :: 0 <= j < k < |days| ==> days[j] < days[k]
    requires Walked(days, txns, actual, calibrated, i)
    ensures Walked(days, txns, actual, calibrated[days[i - 1] := Backward(days, txns, actual, i - 1)], i - 1)
  {
    hide Backward;
    var after := calibrated[days[i - 1] := Backward(days, txns, actual, i - 1)];
    forall d | d in after ensures exists j :: i - 1 <= j < |days| && days[j] == d {
      if d != days[i - 1] {
        var j :| i <= j < |days| && days[j] == d;
      }
    }
  }

  lemma LowestOne(days: seq<int>, txns: seq<Txn>, actual: real, low: real, i: nat)
    requires 0 < i < |days| && LowestSoFar(days, txns, actual, low, i)
    ensures var cash := Backward(days, txns, actual, i - 1);
            LowestSoFar(days, txns, actual, if cash < low then cash else low, i - 1)
  {
    hide Backward;
  }

  /**
   Walk back from today's broker cash, then shift the whole series up when it dips below zero.
   */
  method CalibrateCashBackwards(cashByDate: map<int, real>, txns: seq<Txn>, actual: real) returns (calibrated: map<int, real>, ghost shift: real)
    ensures calibrated.Keys == cashByDate.Keys && shift >= 0.0
    ensures var days := SortedDays(cashByDate.Keys);
            && (forall i :: 0 <= i < |days| ==> days[i] in calibrated && calibrated[days[i]] == Backward(days, txns, actual, i) + shift)
            && (shift > 0.0 ==> LowestSoFar(days, txns, actual, -shift, 0))
    ensures forall d :: d in calibrated ==> calibrated[d] >= 0.0
  {
    hide Backward, SortedDays;
    var days := SortedDays(cashByDate.Keys);
    SortedDaysMembers(cashByDate.Keys);
    if days == [] {
      assert forall d :: d in cashByDate.Keys <==> d in days;
      return cashByDate, 0.0;
    }
    var low;
    calibrated, low := WalkBack(days, txns, actual);
    forall d ensures d in calibrated.Keys <==> d in cashByDate.Keys {
      assert d in cashByDate.Keys <==> d in days;
      if d in days {
        var j :| 0 <= j < |days| && days[j] == d;
      }
    }
    assert calibrated.Keys == cashByDate.Keys;
    shift := if low < 0.0 then -low else 0.0;
    if low < 0.0 {
      calibrated := map d | d in calibrated :: calibrated[d] - low;
    }
  }

  // ---- the two cash series ----

  /** Every recorded day's cash is the starting cash plus everything replayed up to that day. */
  ghost predicate CashOk(txns: seq<Txn>, st: Replayed, start: real) {
    && st.cash == start + SumAll(txns)
    && forall d :: d in st.cashByDate ==> st.cashByDate[d] == start + SumThrough(txns, Replaying, d)
  }

  function SumAll(txns: seq<Txn>): real {
    if txns == [] then 0.0 else SumAll(txns[..|txns| - 1]) + ReplayDelta(txns[|txns| - 1])
  }

  lemma {:induction false} SumThroughAll(txns: seq<Txn>, day: int)
    requires forall i :: 0 <= i < |txns| ==> TxnDate(txns[i]) <= day
    ensures SumThrough(txns, Replaying, day) == SumAll(txns)
  {
    if txns != [] {
      SumThroughAll(txns[..|txns| - 1], day);
    }
  }

  lemma DatesFollowTime(txns: seq<Txn>)
    requires Sorted(txns, TxnTime)
    ensures forall i, j :: 0 <= i < j < |txns| ==> TxnDate(txns[i]) <= TxnDate(txns[j])
  {
    forall i, j | 0 <= i < j < |txns| ensures TxnDate(txns[i]) <= TxnDate(txns[j]) {
      assert TxnTime(txns[i]) <= TxnTime(txns[j]);
    }
  }

  /** Some transaction leaves a snapshot on day `d`. */
  ghost predicate Recorded(txns: seq<Txn>, d: int) {
    exists i :: 0 <= i < |txns| && !Ignored(txns[i]) && TxnDate(txns[i]) == d
  }

  /** Replayed cash in closed form. */
  lemma {:induction false} ReplayCash(txns: seq<Txn>, start: real, expiry: Expiries)
    requires forall i, j :: 0 <= i < j < |txns| ==> TxnDate(txns[i]) <= TxnDate(txns[j])
    ensures CashOk(txns, ReplayAll(txns, start, expiry), start)
    ensures var r := ReplayAll(txns, start, expiry);
            r.cashByDate.Keys == r.ledger.Keys
            && forall d :: d in r.cashByDate <==> Recorded(txns, d)
  {
    hide TradeLots, Unexpired;
    if txns != [] {
      var init, last := txns[..|txns| - 1], txns[|txns| - 1];
      ReplayCash(init, start, expiry);
      var before, after := ReplayAll(init, start, expiry), ReplayAll(txns, start, expiry);
      var today := TxnDate(last);
      IgnoredMovesNothing(last);
      SumThroughAll(txns, today);
      forall d | d in after.cashByDate ensures after.cashByDate[d] == start + SumThrough(txns, Replaying, d) {
        if d in before.cashByDate && d != today {
          assert Recorded(init, d);
          var i :| 0 <= i < |init| && !Ignored(init[i]) && TxnDate(init[i]) == d;
          assert TxnDate(txns[i]) <= TxnDate(txns[|txns| - 1]);
        }
      }
      forall d ensures d in after.cashByDate <==> Recorded(txns, d) {
        RecordedOne(txns, d);
      }
    }
  }

  lemma RecordedOne(txns: seq<Txn>, d: int)
    requires txns != []
    ensures Recorded(txns, d) <==>
            Recorded(txns[..|txns| - 1], d) || (!Ignored(txns[|txns| - 1]) && TxnDate(txns[|txns| - 1]) == d)
  {
    var init := txns[..|txns| - 1];
    if i :| 0 <= i < |txns| && !Ignored(txns[i]) && TxnDate(txns[i]) == d {
      if i < |init| {
        assert init[i] == txns[i];
      }
    }
    if i :| 0 <= i < |init| && !Ignored(init[i]) && TxnDate(init[i]) == d {
      assert init[i] == txns[i];
    }
  }

  lemma IgnoredMovesNothing(t: Txn)
    ensures Ignored(t) || IsExpiration(t) ==> ReplayDelta(t) == 0.0
  {
  }

  /** Summing through a later day adds the days in between, of which only the last can move anything. */
  lemma {:induction false} SumThroughNext(txns: seq<Txn>, a: int, b: int)
    requires a < b
    requires forall i :: 0 <= i < |txns| && a < TxnDate(txns[i]) < b ==> ReplayDelta(txns[i]) == 0.0
    ensures SumThrough(txns, Replaying, b) == SumThrough(txns, Replaying, a) + SumOn(txns, Replaying, b)
  {
    if txns != [] {
      SumThroughNext(txns[..|txns| - 1], a, b);
      assert txns[|txns| - 1] in txns;
    }
  }

  /** Consecutive recorded days: the replayed change is the later day's own transactions. */
  lemma ReplayedChange(txns: seq<Txn>, start: real, expiry: Expiries, i: nat)
    requires Sorted(txns, TxnTime)
    requires var days := SortedDays(ReplayAll(txns, start, expiry).cashByDate.Keys); i + 1 < |days|
    ensures var cash := ReplayAll(txns, start, expiry).cashByDate;
            var days := SortedDays(cash.Keys);
            && days[i] in cash && days[i + 1] in cash
            && cash[days[i + 1]] == cash[days[i]] + SumOn(txns, Replaying, days[i + 1])
  {
    hide ReplayAll, SortedDays, SumOn, SumThrough;
    DatesFollowTime(txns);
    ReplayCash(txns, start, expiry);
    var cash := ReplayAll(txns, start, expiry).cashByDate;
    var days := SortedDays(cash.Keys);
    SortedDaysMembers(cash.Keys);
    assert days[i] in days && days[i + 1] in days;
    forall k | 0 <= k < |txns| && days[i] < TxnDate(txns[k]) < days[i + 1] ensures ReplayDelta(txns[k]) == 0.0 {
      IgnoredMovesNothing(txns[k]);
      if !Ignored(txns[k]) {
        assert Recorded(txns, TxnDate(txns[k]));
        assert TxnDate(txns[k]) in days;
        var j :| 0 <= j < |days| && days[j] == TxnDate(txns[k]);
        assert false;
      }
    }
    SumThroughNext(txns, days[i], days[i + 1]);
  }

  /** On every recorded day but the first, replay and calibration move the same amount. */
  ghost predicate DaysAgree(txns: seq<Txn>, days: seq<int>) {
    forall i :: 0 < i < |days| ==> SumOn(txns, Replaying, days[i]) == SumOn(txns, Calibrating, days[i])
  }

  /** The two series differ by one constant. */
  ghost predicate Translated(cash: map<int, real>, days: seq<int>, txns: seq<Txn>, actual: real)
    requires forall i :: 0 <= i < |days| ==> days[i] in cash
  {
    forall i, j :: 0 <= i < |days| && 0 <= j < |days| ==>
      cash[days[i]] - cash[days[j]] == Backward(days, txns, actual, i) - Backward(days, txns, actual, j)
  }

  lemma {:induction false} OffsetFromFirst(txns: seq<Txn>, start: real, expiry: Expiries, actual: real, i: nat)
    requires Sorted(txns, TxnTime)
    requires var days := SortedDays(ReplayAll(txns, start, expiry).cashByDate.Keys); i < |days| && DaysAgree(txns, days)
    ensures var cash := ReplayAll(txns, start, expiry).cashByDate;
            var days := SortedDays(cash.Keys);
            && days[i] in cash && days[0] in cash
            && cash[days[i]] - cash[days[0]] == Backward(days, txns, actual, i) - Backward(days, txns, actual, 0)
  {
    hide ReplayAll, SortedDays, SumOn, Backward;
    var cash := ReplayAll(txns, start, expiry).cashByDate;
    var days := SortedDays(cash.Keys);
    if i == 0 {
      SortedDaysMembers(cash.Keys);
      assert days[0] in days;
    } else {
      OffsetFromFirst(txns, start, expiry, actual, i - 1);
      ReplayedChange(txns, start, expiry, i - 1);
      BackwardStep(days, txns, actual, i - 1);
    }
  }

  /** Order is irrelevant to a day's sum. */
  lemma {:induction false} SumOnInsert(txns: seq<Txn>, t: Txn, delta: Txn -> real, d: int)
    ensures SumOn(Insert(txns, TxnTime, t), delta, d) == SumOn(txns + [t], delta, d)
  {
    assert (txns + [t])[..|txns|] == txns;
    if txns != [] && TxnTime(txns[|txns| - 1]) > TxnTime(t) {
      var init, last := txns[..|txns| - 1], txns[|txns| - 1];
      SumOnInsert(init, t, delta, d);
      var r := Insert(init, TxnTime, t);
      assert (r + [last])[..|r|] == r;
      assert (init + [t])[..|init|] == init;
    }
  }

  lemma {:induction false} SumOnSorted(txns: seq<Txn>, delta: Txn -> real, d: int)
    ensures SumOn(SortBy(txns, TxnTime), delta, d) == SumOn(txns, delta, d)
  {
    if txns != [] {
      var init := txns[..|txns| - 1];
      SumOnSorted(init, delta, d);
      var r := SortBy(init, TxnTime);
      SumOnInsert(r, txns[|txns| - 1], delta, d);
      assert (r + [txns[|txns| - 1]])[..|r|] == r;
    }
  }

  lemma {:induction false} BackwardSorted(days: seq<int>, txns: seq<Txn>, actual: real, i: nat)
    requires i < |days|
    ensures Backward(days, SortBy(txns, TxnTime), actual, i) == Backward(days, txns, actual, i)
    decreases |days| - i
  {
    hide SumOn;
    if i < |days| - 1 {
      BackwardSorted(days, txns, actual, i + 1);
      SumOnSorted(txns, Calibrating, days[i + 1]);
    }
  }

  /**
   Calibrated cash is a translation of replayed cash exactly when, on every recorded day but the
   first, the day's transactions move the same amount in both algorithms.
   */
  lemma CalibrationTranslates(transactions: seq<Txn>, start: real, expiry: Expiries, actual: real)
    ensures var txns := SortBy(transactions, TxnTime);
            var cash := ReplayAll(txns, start, expiry).cashByDate;
            var days := SortedDays(cash.Keys);
            && (forall i :: 0 <= i < |days| ==> days[i] in cash)
            && (Translated(cash, days, transactions, actual) <==> DaysAgree(transactions, days))
  {
    hide ReplayAll, SortedDays, SumOn, Backward;
    var txns := SortBy(transactions, TxnTime);
    SortIsSorted(transactions, TxnTime);
    var cash := ReplayAll(txns, start, expiry).cashByDate;
    var days := SortedDays(cash.Keys);
    SortedDaysMembers(cash.Keys);
    forall i | 0 <= i < |days| ensures days[i] in cash {
      assert days[i] in days;
    }
    forall i | 0 <= i < |days| ensures Backward(days, txns, actual, i) == Backward(days, transactions, actual, i) {
      BackwardSorted(days, transactions, actual, i);
    }
    forall i | 0 < i < |days|
      ensures SumOn(txns, Replaying, days[i]) == SumOn(transactions, Replaying, days[i])
      ensures SumOn(txns, Calibrating, days[i]) == SumOn(transactions, Calibrating, days[i])
    {
      SumOnSorted(transactions, Replaying, days[i]);
      SumOnSorted(transactions, Calibrating, days[i]);
    }
    if DaysAgree(txns, days) {
      forall i | 0 <= i < |days|
        ensures cash[days[i]] - cash[days[0]] == Backward(days, txns, actual, i) - Backward(days, txns, actual, 0)
      {
        OffsetFromFirst(txns, start, expiry, actual, i);
      }
    }
    if Translated(cash, days, txns, actual) {
      forall i | 0 < i < |days| ensures SumOn(txns, Replaying, days[i]) == SumOn(txns, Calibrating, days[i]) {
        ReplayedChange(txns, start, expiry, i - 1);
        BackwardStep(days, txns, actual, i - 1);
        assert cash[days[i]] - cash[days[i - 1]] == Backward(days, txns, actual, i) - Backward(days, txns, actual, i - 1);
      }
    }
  }

  /** Fills that name their symbol or move nothing, and non-negative outflows, move the same amount in both. */
  predicate Plain(t: Txn) {
    match t.kind
    case FillTxn(symbol, side, quantity, price) => symbol != "" || quantity == 0.0 || price == 0.0 || side.NoSide?
    case Outflow(amount) => amount >= 0.0
    case _ => true
  }

  lemma PlainIsExact(t: Txn)
    ensures Plain(t) <==> ReplayDelta(t) == CalibrationDelta(t)
  {
    match t.kind {
      case FillTxn(symbol, side, quantity, price) => FillIsPlain(symbol, side, quantity, price);
      case Inflow(_) =>
      case Outflow(_) =>
      case OtherTxn =>
    }
  }

  /** Only a fill without a symbol can move something in calibration alone, and only by its own proceeds. */
  lemma FillIsPlain(symbol: string, side: TxnSide, quantity: real, price: real)
    ensures var t := Txn(0, FillTxn(symbol, side, quantity, price));
            Plain(t) <==> ReplayDelta(t) == CalibrationDelta(t)
  {
    if quantity == 0.0 {
      NothingTimes(price, OptionMultiplier(symbol));
    } else if symbol == "" {
      UnitMultiplier(quantity, price);
      ProductZero(quantity, price);
    }
  }

  lemma NothingTimes(price: real, m: real)
    ensures 0.0 * price * m == 0.0
  {
  }

  lemma UnitMultiplier(quantity: real, price: real)
    ensures quantity * price * OptionMultiplier("") == quantity * price
  {
    assert OptionMultiplier("") == 1.0;
  }

  lemma ProductZero(a: real, b: real)
    ensures a * b == 0.0 <==> a == 0.0 || b == 0.0
  {
    if a * b == 0.0 && a != 0.0 {
      assert b == a * b / a;
    }
  }

  lemma {:induction false} PlainDaysAgree(txns: seq<Txn>, d: int)
    requires forall t :: t in txns ==> Plain(t)
    ensures SumOn(txns, Replaying, d) == SumOn(txns, Calibrating, d)
  {
    if txns != [] {
      PlainDaysAgree(txns[..|txns| - 1], d);
      assert txns[|txns| - 1] in txns;
      PlainIsExact(txns[|txns| - 1]);
    }
  }

  /** With only plain transactions the two cash series always differ by one constant. */
  lemma PlainTransactionsTranslate(transactions: seq<Txn>, start: real, expiry: Expiries, actual: real)
    requires forall t :: t in transactions ==> Plain(t)
    ensures var txns := SortBy(transactions, TxnTime);
            var cash := ReplayAll(txns, start, expiry).cashByDate;
            var days := SortedDays(cash.Keys);
            && (forall i :: 0 <= i < |days| ==> days[i] in cash)
            && Translated(cash, days, transactions, actual)
  {
    hide ReplayAll, SortedDays, SumOn, Backward, Translated;
    CalibrationTranslates(transactions, start, expiry, actual);
    var txns := SortBy(transactions, TxnTime);
    var days := SortedDays(ReplayAll(txns, start, expiry).cashByDate.Keys);
    forall i | 0 < i < |days| ensures SumOn(transactions, Replaying, days[i]) == SumOn(transactions, Calibrating, days[i]) {
      PlainDaysAgree(transactions, days[i]);
    }
  }
}
