/** What a replayed ledger says: cash by kind of transaction, snapshots by day, and lots that are gone. */
module LedgerProofs {
  import opened Common
  import opened OrderedDict
  import opened Backfill
  import opened EquityCurve

  // ---- cash ----

  /** Option contracts, recognized by names of more than fifteen characters, are for a hundred shares. */
  function TradedAmount(t: Txn): real {
    if t.kind.FillTxn? && t.kind.symbol != ""
    then t.kind.quantity * t.kind.price * (if |t.kind.symbol| >= 16 then 100.0 else 1.0)
    else 0.0
  }

  const Deposited: Txn -> real := (t: Txn) => if t.kind.Inflow? then t.kind.amount else 0.0
  const Withdrawn: Txn -> real := (t: Txn) => if t.kind.Outflow? then t.kind.amount else 0.0
  const Received: Txn -> real := (t: Txn) => if t.kind.FillTxn? && t.kind.side.Selling? then TradedAmount(t) else 0.0
  const Spent: Txn -> real := (t: Txn) => if t.kind.FillTxn? && t.kind.side.Buying? then TradedAmount(t) else 0.0

  lemma DeltaByKind(t: Txn)
    ensures ReplayDelta(t) == Deposited(t) - Withdrawn(t) + Received(t) - Spent(t)
  {
    if t.kind.FillTxn? && t.kind.quantity == 0.0 {
      NothingTimes(t.kind.price, if |t.kind.symbol| >= 16 then 100.0 else 1.0);
    }
  }

  lemma {:induction false} SumByKind(txns: seq<Txn>, d: int)
    ensures SumThrough(txns, Replaying, d)
         == SumThrough(txns, Deposited, d) - SumThrough(txns, Withdrawn, d) + SumThrough(txns, Received, d) - SumThrough(txns, Spent, d)
  {
    hide ReplayDelta, TradedAmount;
    if txns != [] {
      SumByKind(txns[..|txns| - 1], d);
      DeltaByKind(txns[|txns| - 1]);
    }
  }

  /**
   Replayed cash by kind. Cash recorded on a day is what the account started with and what was deposited
   and received for sales up to that day, less what was withdrawn and spent on purchases.
   */
  lemma {:induction false} CashByKind(txns: seq<Txn>, start: real, expiry: Expiries, d: int)
    requires forall i, j :: 0 <= i < j < |txns| ==> TxnDate(txns[i]) <= TxnDate(txns[j])
    ensures var cash := ReplayAll(txns, start, expiry).cashByDate;
            d in cash ==>
              cash[d] == start + SumThrough(txns, Deposited, d) - SumThrough(txns, Withdrawn, d)
                         + SumThrough(txns, Received, d) - SumThrough(txns, Spent, d)
  {
    hide ReplayAll, SumThrough;
    ReplayCash(txns, start, expiry);
    SumByKind(txns, d);
  }

  /** How calibration reads a transaction: outflows count by their size, and a fill without a symbol as one of a stock. */
  function AsCalibrated(t: Txn): Txn {
    match t.kind
    case FillTxn(symbol, side, quantity, price) => Txn(t.timestamp, FillTxn(if symbol == "" then "-" else symbol, side, quantity, price))
    case Outflow(amount) => Txn(t.timestamp, Outflow(if amount < 0.0 then -amount else amount))
    case _ => t
  }

  /** Backward calibration moves what forward replay moves for the transaction so read. */
  lemma CalibrationIsReplay(t: Txn)
    ensures CalibrationDelta(t) == ReplayDelta(AsCalibrated(t))
  {
    if t.kind.FillTxn? && t.kind.quantity == 0.0 {
      NothingTimes(t.kind.price, OptionMultiplier(t.kind.symbol));
    }
  }

  // ---- lots ----

  /** A purchase or sale leaves the average cost of what remains alone, unless it opens or extends a long lot. */
  lemma RemainderKeepsCost(lots: Lots, t: Txn)
    requires Distinct(lots) && t.kind.FillTxn?
    ensures var before, after := Find(lots, t.kind.symbol), Find(TradeLots(lots, t), t.kind.symbol);
            && (before.None? && after.Some? ==> after.value.avgCost == t.kind.price)
            && (before.Some? && after.Some? && (t.kind.side.Selling? || after.value.quantity <= 0.0) ==>
                  after.value.avgCost == before.value.avgCost)
            && (t.kind.side.Buying? ==> after.Some?)
  {
    forall lot: Lot ensures Find(Put(lots, t.kind.symbol, lot), t.kind.symbol) == Some(lot) {
      PutFind(lots, t.kind.symbol, lot, t.kind.symbol);
    }
    RemoveFind(lots, t.kind.symbol, t.kind.symbol);
  }

  /** A contract reported as expired worthless is closed and nothing else changes; the day records it. */
  lemma ExpirationClosesLot(st: Replayed, t: Txn, expiry: Expiries, other: string)
    requires Distinct(st.lots) && t.kind.FillTxn? && t.kind.symbol != "" && t.kind.quantity == 0.0 && t.kind.side.Selling?
    ensures var after := ReplayOne(st, t, expiry);
            && Find(after.lots, t.kind.symbol).None? && (other != t.kind.symbol ==> Find(after.lots, other) == Find(st.lots, other))
            && after.cash == st.cash
            && after.ledger == st.ledger[TxnDate(t) := after.lots] && after.cashByDate == st.cashByDate[TxnDate(t) := st.cash]
  {
    RemoveFind(st.lots, t.kind.symbol, t.kind.symbol);
    RemoveFind(st.lots, t.kind.symbol, other);
  }

  /** Which transactions leave a snapshot: all but fills without a symbol, and fills of nothing that are not sales. */
  lemma RecordedExactly(st: Replayed, t: Txn, expiry: Expiries)
    requires TxnDate(t) !in st.ledger && TxnDate(t) !in st.cashByDate
    ensures var after := ReplayOne(st, t, expiry);
            var traceless := t.kind.FillTxn? && (t.kind.symbol == "" || (t.kind.quantity == 0.0 && t.kind.side != Selling));
            && (TxnDate(t) in after.ledger <==> !traceless) && (TxnDate(t) in after.cashByDate <==> !traceless)
            && (traceless ==> after == st)
  {
  }

  lemma StaysOut(lots: Lots, t: Txn, expiry: Expiries, day: int, symbol: string)
    requires Distinct(lots) && Find(lots, symbol).None? && (t.kind.FillTxn? ==> t.kind.symbol != symbol)
    ensures Find(Unexpired(TradeLots(lots, t), expiry, day), symbol).None?
  {
    hide Unexpired, TradeLots;
    if t.kind.FillTxn? {
      FillMovesItsLot(lots, t, symbol);
    } else {
      assert TradeLots(lots, t) == lots by { OnlyFillsTrade(lots, t); }
    }
    var traded := TradeLots(lots, t);
    UnexpiredLots(traded, expiry, day);
    NotAmongFewer(Unexpired(traded, expiry, day), traded, symbol);
  }

  lemma NotAmongFewer(fewer: Lots, lots: Lots, symbol: string)
    requires forall e :: e in fewer ==> e in lots
    ensures Find(lots, symbol).None? ==> Find(fewer, symbol).None?
  {
    FindIsEntry(lots, symbol);
    FindIsEntry(fewer, symbol);
    if Find(fewer, symbol).Some? {
      var i :| 0 <= i < |fewer| && fewer[i].key == symbol;
      assert fewer[i] in lots;
    }
  }

  lemma OnlyFillsTrade(lots: Lots, t: Txn)
    requires !t.kind.FillTxn?
    ensures TradeLots(lots, t) == lots
  {
  }

  /** A contract that has expired worthless is held again only after it has been traded again. */
  lemma {:induction false} ExpiredStaysOut(txns: seq<Txn>, start: real, expiry: Expiries, i: nat)
    requires i < |txns| && IsExpiration(txns[i])
    requires forall j :: i < j < |txns| && txns[j].kind.FillTxn? ==> txns[j].kind.symbol != txns[i].kind.symbol
    ensures Find(ReplayAll(txns, start, expiry).lots, txns[i].kind.symbol).None?
  {
    hide TradeLots, Unexpired, ReplayDelta;
    var init, last, symbol := txns[..|txns| - 1], txns[|txns| - 1], txns[i].kind.symbol;
    var before := ReplayAll(init, start, expiry);
    ReplayedDistinct(init, start, expiry);
    if i == |txns| - 1 {
      ExpirationClosesLot(before, last, expiry, symbol);
    } else {
      ExpiredStaysOut(init, start, expiry, i);
      StaysOut(before.lots, last, expiry, TxnDate(last), symbol);
      if IsExpiration(last) {
        RemoveFind(before.lots, last.kind.symbol, symbol);
      }
    }
  }

  /** `k` transactions are the ones dated up to day `d`. */
  ghost predicate UpToDay(txns: seq<Txn>, d: int, k: nat) {
    && k <= |txns| && (forall j :: 0 <= j < k ==> TxnDate(txns[j]) <= d) && (forall j :: k <= j < |txns| ==> TxnDate(txns[j]) > d)
  }

  /** One more transaction records its day, or leaves no trace. */
  lemma OneMore(txns: seq<Txn>, start: real, expiry: Expiries)
    requires txns != []
    ensures var last := txns[|txns| - 1];
            var before, after := ReplayAll(txns[..|txns| - 1], start, expiry), ReplayAll(txns, start, expiry);
            if Ignored(last) then after == before else after.ledger == before.ledger[TxnDate(last) := after.lots]
  {
    hide TradeLots, Unexpired, ReplayDelta;
  }

  /** The snapshot of a recorded day holds the lots after exactly the transactions dated up to it. */
  lemma {:induction false} SnapshotIsReplay(txns: seq<Txn>, start: real, expiry: Expiries, d: int)
    requires forall i, j :: 0 <= i < j < |txns| ==> TxnDate(txns[i]) <= TxnDate(txns[j])
    ensures var ledger := ReplayAll(txns, start, expiry).ledger;
            d in ledger ==> exists k: nat :: UpToDay(txns, d, k) && ledger[d] == ReplayAll(txns[..k], start, expiry).lots
  {
    assert ReplayAll([], start, expiry).ledger == map[];
    hide ReplayAll, Ignored, UpToDay;
    if txns != [] && d in ReplayAll(txns, start, expiry).ledger {
      var init, last := txns[..|txns| - 1], txns[|txns| - 1];
      OneMore(txns, start, expiry);
      assert txns[..|txns|] == txns && init[..|init|] == init;
      if TxnDate(last) == d && !Ignored(last) {
        AllUpToDay(txns, d);
      } else {
        SnapshotIsReplay(init, start, expiry, d);
        SnapshotsSoFar(txns, start, expiry, d);
        var k: nat :| UpToDay(init, d, k) && ReplayAll(init, start, expiry).ledger[d] == ReplayAll(init[..k], start, expiry).lots;
        StillUpToDay(txns, d, k);
        assert init[..k] == txns[..k] by { assert k <= |init| by { UpToDaySize(init, d, k); } }
      }
    }
  }

  lemma UpToDaySize(txns: seq<Txn>, d: int, k: nat)
    requires UpToDay(txns, d, k)
    ensures k <= |txns|
  {
  }

  lemma AllUpToDay(txns: seq<Txn>, d: int)
    requires txns != [] && TxnDate(txns[|txns| - 1]) == d
    requires forall i, j :: 0 <= i < j < |txns| ==> TxnDate(txns[i]) <= TxnDate(txns[j])
    ensures UpToDay(txns, d, |txns|)
  {
  }

  /** No snapshot before the last transaction is of a later day. */
  lemma SnapshotsSoFar(txns: seq<Txn>, start: real, expiry: Expiries, d: int)
    requires txns != [] && forall i, j :: 0 <= i < j < |txns| ==> TxnDate(txns[i]) <= TxnDate(txns[j])
    ensures d in ReplayAll(txns[..|txns| - 1], start, expiry).ledger ==> d <= TxnDate(txns[|txns| - 1])
  {
    hide ReplayAll, Ignored;
    var init := txns[..|txns| - 1];
    ReplayCash(init, start, expiry);
    if d in ReplayAll(init, start, expiry).ledger {
      assert Recorded(init, d);
      var i :| 0 <= i < |init| && TxnDate(init[i]) == d;
      assert init[i] == txns[i];
    }
  }

  lemma StillUpToDay(txns: seq<Txn>, d: int, k: nat)
    requires txns != [] && UpToDay(txns[..|txns| - 1], d, k)
    requires forall i, j :: 0 <= i < j < |txns| ==> TxnDate(txns[i]) <= TxnDate(txns[j])
    ensures if TxnDate(txns[|txns| - 1]) > d then UpToDay(txns, d, k) else k == |txns| - 1 && UpToDay(txns, d, |txns|)
  {
    var init := txns[..|txns| - 1];
    assert k < |init| ==> init[k] == txns[k] && TxnDate(init[k]) <= TxnDate(txns[|txns| - 1]);
  }
}
