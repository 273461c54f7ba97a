/** The daily equity curve: a declarative reading of the ledger, and the two loops that compute it. */
module EquityCurve {
  import opened Common
  import opened OrderedDict
  import opened Backfill

  /** Monday to Friday. Day 0 is Thursday 1970-01-01. */
  predicate IsWeekday(day: int) {
    (day + 3) % 7 < 5
  }

  // ---- forward fill ----

  /** The newest weekday in [start, day] that has a ledger snapshot. */
  function NewestSnapshot(ledger: map<int, Lots>, start: int, day: int): Option<int>
    decreases day - start
  {
    if day < start then None
    else if IsWeekday(day) && day in ledger then Some(day)
    else NewestSnapshot(ledger, start, day - 1)
  }

  /** What the account holds on a day: the newest weekday snapshot without the contracts expired before the day. */
  function HeldOn(ledger: map<int, Lots>, expiry: Expiries, start: int, day: int): Lots {
    match NewestSnapshot(ledger, start, day)
    case None => []
    case Some(d) => if d in ledger then Unexpired(ledger[d], expiry, day) else []
  }

  function CashOn(ledger: map<int, Lots>, cashByDate: map<int, real>, start: int, day: int): real {
    match NewestSnapshot(ledger, start, day)
    case None => 0.0
    case Some(d) => if d in cashByDate then cashByDate[d] else 0.0
  }

  lemma {:induction false} UnexpiredAgain(lots: Lots, expiry: Expiries, a: int, b: int)
    requires a <= b
    ensures Unexpired(Unexpired(lots, expiry, a), expiry, b) == Unexpired(lots, expiry, b)
  {
    if lots != [] {
      UnexpiredAgain(lots[..|lots| - 1], expiry, a, b);
      var r := Unexpired(lots[..|lots| - 1], expiry, a);
      assert (r + [lots[|lots| - 1]])[..|r|] == r;
    }
  }

  /** What is kept: exactly the lots without an expiration, and those that expire on the day or later. */
  lemma {:induction false} UnexpiredLots(lots: Lots, expiry: Expiries, day: int)
    ensures forall e :: e in Unexpired(lots, expiry, day) <==> e in lots && (expiry(e.key).Some? ==> day <= expiry(e.key).value)
  {
    if lots != [] {
      UnexpiredLots(lots[..|lots| - 1], expiry, day);
      assert lots == lots[..|lots| - 1] + [lots[|lots| - 1]];
    }
  }

  lemma {:induction false} NewestSnapshotIsNewest(ledger: map<int, Lots>, start: int, day: int)
    ensures match NewestSnapshot(ledger, start, day)
            case None => forall d :: start <= d <= day && IsWeekday(d) ==> d !in ledger
            case Some(n) => start <= n <= day && IsWeekday(n) && n in ledger
                            && forall d :: n < d <= day && IsWeekday(d) ==> d !in ledger
    decreases day - start
  {
    if day >= start && !(IsWeekday(day) && day in ledger) {
      NewestSnapshotIsNewest(ledger, start, day - 1);
    }
  }

  lemma HeldNext(ledger: map<int, Lots>, expiry: Expiries, start: int, day: int)
    requires start <= day
    ensures HeldOn(ledger, expiry, start, day)
         == Unexpired(if IsWeekday(day) && day in ledger then ledger[day] else HeldOn(ledger, expiry, start, day - 1), expiry, day)
  {
    if !(IsWeekday(day) && day in ledger) {
      match NewestSnapshot(ledger, start, day - 1) {
        case None =>
        case Some(d) =>
          if d in ledger {
            UnexpiredAgain(ledger[d], expiry, day - 1, day);
          }
      }
    }
  }

  /** Carry the last snapshot over every weekday of [start, end]. */
  method ForwardFillLedger(ledger: map<int, Lots>, cashByDate: map<int, real>, start: int, end: int, expiry: Expiries)
    returns (filled: map<int, Lots>, filledCash: map<int, real>)
    requires ledger.Keys <= cashByDate.Keys
    ensures forall d :: d in filled <==> start <= d <= end && IsWeekday(d)
    ensures forall d :: d in filledCash <==> start <= d <= end && IsWeekday(d)
    ensures forall d :: d in filled ==> filled[d] == HeldOn(ledger, expiry, start, d)
    ensures forall d :: d in filledCash ==> filledCash[d] == CashOn(ledger, cashByDate, start, d)
  {
    hide HeldOn, Unexpired;
    filled, filledCash := map[], map[];
    var lots: Lots, cash := [], 0.0;
    var current := start;
    HeldBefore(ledger, expiry, start);
    while current <= end
      invariant start <= current && (if start <= end then current <= end + 1 else current == start)
      invariant Unexpired(lots, expiry, current - 1) == HeldOn(ledger, expiry, start, current - 1)
      invariant cash == CashOn(ledger, cashByDate, start, current - 1)
      invariant forall d :: d in filled <==> start <= d < current && IsWeekday(d)
      invariant forall d :: d in filledCash <==> start <= d < current && IsWeekday(d)
      invariant forall d :: d in filled ==> filled[d] == HeldOn(ledger, expiry, start, d)
      invariant forall d :: d in filledCash ==> filledCash[d] == CashOn(ledger, cashByDate, start, d)
      decreases end - current
    {
      HeldNext(ledger, expiry, start, current);
      UnexpiredAgain(lots, expiry, current - 1, current);
      if IsWeekday(current) {
        if current in ledger {
          lots, cash := ledger[current], cashByDate[current];
        }
        UnexpiredAgain(lots, expiry, current, current);
        lots := Unexpired(lots, expiry, current);
        filled := filled[current := lots];
        filledCash := filledCash[current := cash];
      }
      current := current + 1;
    }
  }

  lemma HeldBefore(ledger: map<int, Lots>, expiry: Expiries, start: int)
    ensures HeldOn(ledger, expiry, start, start - 1) == [] == Unexpired([], expiry, start - 1)
  {
  }

  // ---- weekend snapshots ----

  /** The newest recorded day in [start, day], weekend or not. */
  function NewestRecorded(recorded: set<int>, start: int, day: int): (newest: Option<int>)
    ensures newest.None? ==> forall d :: start <= d <= day ==> d !in recorded
    ensures newest.Some? ==> start <= newest.value <= day && newest.value in recorded
                             && forall d :: newest.value < d <= day ==> d !in recorded
    decreases day - start
  {
    if day < start then None
    else if day in recorded then Some(day)
    else NewestRecorded(recorded, start, day - 1)
  }

  /** The day carries the newest recorded snapshot, its lots and its cash. */
  predicate CarriesNewest(ledger: map<int, Lots>, cashByDate: map<int, real>, expiry: Expiries, start: int, day: int)
    requires ledger.Keys <= cashByDate.Keys
  {
    match NewestRecorded(ledger.Keys, start, day)
    case None => HeldOn(ledger, expiry, start, day) == [] && CashOn(ledger, cashByDate, start, day) == 0.0
    case Some(n) => HeldOn(ledger, expiry, start, day) == Unexpired(ledger[n], expiry, day)
                    && CashOn(ledger, cashByDate, start, day) == cashByDate[n]
  }

  ghost predicate AlwaysCarriesNewest(recorded: set<int>, expiry: Expiries, start: int, day: int) {
    forall ledger: map<int, Lots>, cashByDate: map<int, real> ::
      ledger.Keys == recorded <= cashByDate.Keys ==> CarriesNewest(ledger, cashByDate, expiry, start, day)
  }

  lemma NewestWeekdayIsCarried(ledger: map<int, Lots>, cashByDate: map<int, real>, expiry: Expiries, start: int, day: int)
    requires ledger.Keys <= cashByDate.Keys
    requires var newest := NewestRecorded(ledger.Keys, start, day); newest.Some? ==> IsWeekday(newest.value)
    ensures CarriesNewest(ledger, cashByDate, expiry, start, day)
  {
    hide Unexpired;
    NewestSnapshotIsNewest(ledger, start, day);
  }

  /** The lost snapshot: cash 1 on the weekend day `n`, none before, and no lots. */
  lemma WeekendCashIsLost(recorded: set<int>, expiry: Expiries, start: int, day: int, n: int)
    requires NewestRecorded(recorded, start, day) == Some(n) && !IsWeekday(n)
    ensures var ledger: map<int, Lots> := map d | d in recorded :: [];
            var cashByDate := map d | d in recorded :: if d == n then 1.0 else 0.0;
            ledger.Keys == recorded == cashByDate.Keys && !CarriesNewest(ledger, cashByDate, expiry, start, day)
  {
    var ledger: map<int, Lots> := map d | d in recorded :: [];
    var cashByDate := map d | d in recorded :: if d == n then 1.0 else 0.0;
    assert ledger.Keys == recorded == cashByDate.Keys;
    NewestSnapshotIsNewest(ledger, start, day);
    assert CashOn(ledger, cashByDate, start, day) == 0.0;
  }

  /**
   Weekend snapshots, exactly. Whatever was recorded, a day carries the newest recorded snapshot just
   when that snapshot is of a weekday: one dated on a weekend is lost until the next weekday one.
   */
  lemma NewestIsCarriedExactly(recorded: set<int>, expiry: Expiries, start: int, day: int)
    ensures AlwaysCarriesNewest(recorded, expiry, start, day)
       <==> var newest := NewestRecorded(recorded, start, day); newest.None? || IsWeekday(newest.value)
  {
    hide CarriesNewest;
    var newest := NewestRecorded(recorded, start, day);
    if newest.None? || IsWeekday(newest.value) {
      forall ledger: map<int, Lots>, cashByDate: map<int, real> | ledger.Keys == recorded <= cashByDate.Keys
        ensures CarriesNewest(ledger, cashByDate, expiry, start, day)
      {
        NewestWeekdayIsCarried(ledger, cashByDate, expiry, start, day);
      }
    } else {
      WeekendCashIsLost(recorded, expiry, start, day, newest.value);
    }
  }

  // ---- pricing ----

  type Prices = map<(string, int), real>

  function LotsOn(ledger: map<int, Lots>, day: int): Lots {
    if day in ledger then ledger[day] else []
  }

  function Quoted(prices: Prices, symbol: string, day: int): Option<real> {
    if (symbol, day) in prices then Some(prices[(symbol, day)]) else None
  }

  function Known(known: map<string, real>, symbol: string): Option<real> {
    if symbol in known then Some(known[symbol]) else None
  }

  function OrElse(first: Option<real>, second: Option<real>): Option<real> {
    if first.Some? then first else second
  }

  /** The latest price seen on a held day among the first `n` days. */
  function LastSeen(days: seq<int>, ledger: map<int, Lots>, prices: Prices, symbol: string, n: nat): Option<real>
    requires n <= |days|
  {
    if n == 0 then None
    else
      var today := if Find(LotsOn(ledger, days[n - 1]), symbol).Some? then Quoted(prices, symbol, days[n - 1]) else None;
      OrElse(today, LastSeen(days, ledger, prices, symbol, n - 1))
  }

  /** Today's price, else the latest seen on an earlier held day, else what the lot cost. */
  function PriceOn(prices: Prices, symbol: string, lot: Lot, day: int, seen: Option<real>): real {
    var price := OrElse(Quoted(prices, symbol, day), seen);
    if price.Some? then price.value else lot.avgCost
  }

  function ValueOf(days: seq<int>, ledger: map<int, Lots>, prices: Prices, n: nat, lots: Lots): real
    requires n < |days|
  {
    if lots == [] then 0.0
    else
      var e := lots[|lots| - 1];
      ValueOf(days, ledger, prices, n, lots[..|lots| - 1])
      + e.value.quantity * PriceOn(prices, e.key, e.value, days[n], LastSeen(days, ledger, prices, e.key, n)) * OptionMultiplier(e.key)
  }

  /** Some lot of the day has no price of the day. */
  predicate Estimated(prices: Prices, lots: Lots, day: int) {
    exists i :: 0 <= i < |lots| && Quoted(prices, lots[i].key, day).None?
  }

  datatype EquityRow = EquityRow(day: int, totalValue: real, positionsValue: real, cash: real, estimated: bool)

  function RowOn(days: seq<int>, ledger: map<int, Lots>, cashByDate: map<int, real>, prices: Prices, n: nat): EquityRow
    requires n < |days|
  {
    var day := days[n];
    var value := ValueOf(days, ledger, prices, n, LotsOn(ledger, day));
    var cash := if day in cashByDate then cashByDate[day] else 0.0;
    EquityRow(day, value + cash, value, cash, Estimated(prices, LotsOn(ledger, day), day))
  }

  /** The forward-fill memory before day `n`: each symbol's last seen price. */
  ghost predicate Remembers(known: map<string, real>, days: seq<int>, ledger: map<int, Lots>, prices: Prices, n: nat)
    requires n <= |days|
  {
    forall s :: Known(known, s) == LastSeen(days, ledger, prices, s, n)
  }

  ghost predicate Among(lots: Lots, symbol: string, j: nat)
    requires j <= |lots|
  {
    exists i :: 0 <= i < j && lots[i].key == symbol
  }

  /** In the middle of a day, after `j` of its lots: those lots' prices of the day are remembered too. */
  ghost predicate RemembersPartly(known: map<string, real>, before: map<string, real>, lots: Lots, prices: Prices, day: int, j: nat)
    requires j <= |lots|
  {
    forall s :: Known(known, s) == OrElse(if Among(lots, s, j) then Quoted(prices, s, day) else None, Known(before, s))
  }

  lemma RemembersDay(known: map<string, real>, before: map<string, real>, days: seq<int>, ledger: map<int, Lots>, prices: Prices, n: nat)
    requires n < |days| && Remembers(before, days, ledger, prices, n)
    requires var lots := LotsOn(ledger, days[n]); RemembersPartly(known, before, lots, prices, days[n], |lots|)
    ensures Remembers(known, days, ledger, prices, n + 1)
  {
    hide Quoted, Known, OrElse, Find;
    var lots := LotsOn(ledger, days[n]);
    forall s ensures Known(known, s) == LastSeen(days, ledger, prices, s, n + 1) {
      FindIsEntry(lots, s);
      assert Among(lots, s, |lots|) <==> Find(lots, s).Some?;
    }
  }

  /** One lot: its price, whether it is an estimate, and the memory afterwards. */
  method PriceLot(lots: Lots, j: nat, prices: Prices, day: int, known: map<string, real>, ghost before: map<string, real>)
    returns (price: real, estimate: bool, after: map<string, real>)
    requires j < |lots| && Distinct(lots) && RemembersPartly(known, before, lots, prices, day, j)
    ensures price == PriceOn(prices, lots[j].key, lots[j].value, day, Known(before, lots[j].key))
    ensures (lots[j].key, day) in prices ==> price == prices[(lots[j].key, day)]
    ensures estimate == Quoted(prices, lots[j].key, day).None?
    ensures RemembersPartly(after, before, lots, prices, day, j + 1)
  {
    var symbol, lot := lots[j].key, lots[j].value;
    assert !Among(lots, symbol, j);
    assert Known(known, symbol) == Known(before, symbol);
    after, estimate := known, false;
    if (symbol, day) in prices {
      price := prices[(symbol, day)];
      after := known[symbol := price];
    } else if symbol in known {
      price, estimate := known[symbol], true;
    } else {
      price, estimate := lot.avgCost, true;
    }
    forall s ensures Among(lots, s, j + 1) <==> Among(lots, s, j) || s == symbol {
      if s == symbol {
        assert lots[j].key == s;
      }
    }
    assert forall s :: s != symbol ==> Known(after, s) == Known(known, s);
  }

  /** Price the lots of one day. */
  method PriceDay(days: seq<int>, ledger: map<int, Lots>, prices: Prices, n: nat, before: map<string, real>)
    returns (value: real, estimated: bool, known: map<string, real>)
    requires n < |days| && Distinct(LotsOn(ledger, days[n])) && Remembers(before, days, ledger, prices, n)
    ensures value == ValueOf(days, ledger, prices, n, LotsOn(ledger, days[n]))
    ensures estimated == Estimated(prices, LotsOn(ledger, days[n]), days[n])
    ensures Remembers(known, days, ledger, prices, n + 1)
  {
    hide LastSeen, PriceOn, Quoted, Known, RemembersPartly, LotsOn;
    var day, lots := days[n], LotsOn(ledger, days[n]);
    value, estimated, known := 0.0, false, before;
    NothingAmong(before, lots, prices, day);
    for j := 0 to |lots|
      invariant value == ValueOf(days, ledger, prices, n, lots[..j])
      invariant estimated == exists i :: 0 <= i < j && Quoted(prices, lots[i].key, day).None?
      invariant RemembersPartly(known, before, lots, prices, day, j)
    {
      assert lots[..j + 1][..j] == lots[..j];
      var price, estimate;
      price, estimate, known := PriceLot(lots, j, prices, day, known, before);
      value := value + lots[j].value.quantity * price * OptionMultiplier(lots[j].key);
      estimated := estimated || estimate;
    }
    assert lots[..|lots|] == lots;
    RemembersDay(known, before, days, ledger, prices, n);
  }

  lemma NothingAmong(before: map<string, real>, lots: Lots, prices: Prices, day: int)
    ensures RemembersPartly(before, before, lots, prices, day, 0)
  {
  }

  /** Join the ledger with daily prices, day by day in order, remembering the last price of each symbol. */
  method MaterializeEquity(ledger: map<int, Lots>, cashByDate: map<int, real>, prices: Prices) returns (rows: seq<EquityRow>)
    requires forall d :: d in ledger ==> Distinct(ledger[d])
    ensures var days := SortedDays(ledger.Keys);
            |rows| == |days| && forall n :: 0 <= n < |days| ==> IsRow(rows[n], days, ledger, cashByDate, prices, n)
  {
    hide ValueOf, LastSeen, SortedDays, Estimated, IsRow;
    var days := SortedDays(ledger.Keys);
    rows := [];
    var known: map<string, real> := map[];
    NothingSeen(days, ledger, prices);
    for n := 0 to |days|
      invariant |rows| == n && forall i :: 0 <= i < n ==> IsRow(rows[i], days, ledger, cashByDate, prices, i)
      invariant Remembers(known, days, ledger, prices, n)
    {
      var day := days[n];
      var cash := if day in cashByDate then cashByDate[day] else 0.0;
      var value, estimated;
      value, estimated, known := PriceDay(days, ledger, prices, n, known);
      RowOnIsRow(days, ledger, cashByDate, prices, n);
      rows := rows + [EquityRow(day, value + cash, value, cash, estimated)];
    }
  }

  lemma NothingSeen(days: seq<int>, ledger: map<int, Lots>, prices: Prices)
    ensures Remembers(map[], days, ledger, prices, 0)
  {
  }

  /** The price carried into day `n` is that of the latest earlier day on which the symbol was held and quoted. */
  lemma {:induction false} LastSeenIsLatest(days: seq<int>, ledger: map<int, Lots>, prices: Prices, symbol: string, n: nat)
    requires n <= |days|
    ensures match LastSeen(days, ledger, prices, symbol, n)
            case None => forall i :: 0 <= i < n ==> !SeenOn(days, ledger, prices, symbol, i)
            case Some(price) => exists i :: 0 <= i < n && SeenOn(days, ledger, prices, symbol, i)
                                  && Quoted(prices, symbol, days[i]) == Some(price)
                                  && forall j :: i < j < n ==> !SeenOn(days, ledger, prices, symbol, j)
  {
    if n > 0 {
      LastSeenIsLatest(days, ledger, prices, symbol, n - 1);
      if SeenOn(days, ledger, prices, symbol, n - 1) {
        assert Quoted(prices, symbol, days[n - 1]) == LastSeen(days, ledger, prices, symbol, n);
      }
    }
  }

  predicate SeenOn(days: seq<int>, ledger: map<int, Lots>, prices: Prices, symbol: string, i: nat)
    requires i < |days|
  {
    Find(LotsOn(ledger, days[i]), symbol).Some? && Quoted(prices, symbol, days[i]).Some?
  }

  /** `price` is what the lot is priced at on day `n`: the day's quote, else the latest one of an earlier held day, else cost. */
  ghost predicate IsPrice(days: seq<int>, ledger: map<int, Lots>, prices: Prices, n: nat, e: Entry<string, Lot>, price: real)
    requires n < |days|
  {
    if (e.key, days[n]) in prices then price == prices[(e.key, days[n])]
    else
      || ((forall i :: 0 <= i < n ==> !SeenOn(days, ledger, prices, e.key, i)) && price == e.value.avgCost)
      || exists i :: 0 <= i < n && SeenOn(days, ledger, prices, e.key, i) && price == prices[(e.key, days[i])]
                     && forall j :: i < j < n ==> !SeenOn(days, ledger, prices, e.key, j)
  }

  /** Quantity times price, a hundredfold for option symbols. */
  function Worths(lots: Lots, at: seq<real>): real
    requires |at| == |lots|
  {
    if lots == [] then 0.0
    else
      var e := lots[|lots| - 1];
      Worths(lots[..|lots| - 1], at[..|lots| - 1]) + e.value.quantity * at[|lots| - 1] * (if |e.key| > 15 then 100.0 else 1.0)
  }

  /** What row `n` of the curve must say. */
  ghost predicate IsRow(row: EquityRow, days: seq<int>, ledger: map<int, Lots>, cashByDate: map<int, real>, prices: Prices, n: nat)
    requires n < |days|
  {
    var day := days[n];
    var lots := LotsOn(ledger, day);
    && row.day == day && row.totalValue == row.positionsValue + row.cash
    && row.cash == (if day in cashByDate then cashByDate[day] else 0.0)
    && (row.estimated <==> exists i :: 0 <= i < |lots| && (lots[i].key, day) !in prices)
    && exists at: seq<real> :: IsPriced(days, ledger, prices, n, lots, at) && row.positionsValue == Worths(lots, at)
  }

  ghost predicate IsPriced(days: seq<int>, ledger: map<int, Lots>, prices: Prices, n: nat, lots: Lots, at: seq<real>)
    requires n < |days|
  {
    |at| == |lots| && forall i :: 0 <= i < |lots| ==> IsPrice(days, ledger, prices, n, lots[i], at[i])
  }

  lemma PriceOnIsPrice(days: seq<int>, ledger: map<int, Lots>, prices: Prices, n: nat, e: Entry<string, Lot>)
    requires n < |days|
    ensures IsPrice(days, ledger, prices, n, e, PriceOn(prices, e.key, e.value, days[n], LastSeen(days, ledger, prices, e.key, n)))
  {
    hide LastSeen;
    LastSeenIsLatest(days, ledger, prices, e.key, n);
  }

  lemma {:induction false} ValueIsWorth(days: seq<int>, ledger: map<int, Lots>, prices: Prices, n: nat, lots: Lots) returns (at: seq<real>)
    requires n < |days|
    ensures IsPriced(days, ledger, prices, n, lots, at) && ValueOf(days, ledger, prices, n, lots) == Worths(lots, at)
  {
    hide IsPrice, LastSeen, PriceOn;
    at := [];
    if lots != [] {
      var e := lots[|lots| - 1];
      var rest := ValueIsWorth(days, ledger, prices, n, lots[..|lots| - 1]);
      at := rest + [PriceOn(prices, e.key, e.value, days[n], LastSeen(days, ledger, prices, e.key, n))];
      assert at[..|lots| - 1] == rest;
      PriceOnIsPrice(days, ledger, prices, n, e);
    }
  }

  lemma RowOnIsRow(days: seq<int>, ledger: map<int, Lots>, cashByDate: map<int, real>, prices: Prices, n: nat)
    requires n < |days|
    ensures IsRow(RowOn(days, ledger, cashByDate, prices, n), days, ledger, cashByDate, prices, n)
  {
    hide IsPrice, ValueOf, Worths;
    var at := ValueIsWorth(days, ledger, prices, n, LotsOn(ledger, days[n]));
  }

  /** The value of a day on which every lot is quoted: quantity times the day's own quote. */
  function QuoteValue(prices: Prices, day: int): (string, Lot) -> real {
    (symbol: string, lot: Lot) =>
      if (symbol, day) in prices then lot.quantity * prices[(symbol, day)] * (if |symbol| > 15 then 100.0 else 1.0) else 0.0
  }

  lemma {:induction false} WorthAtQuotes(days: seq<int>, ledger: map<int, Lots>, prices: Prices, n: nat, lots: Lots, at: seq<real>)
    requires n < |days| && IsPriced(days, ledger, prices, n, lots, at)
    requires forall i :: 0 <= i < |lots| ==> (lots[i].key, days[n]) in prices
    ensures Worths(lots, at) == Total(lots, QuoteValue(prices, days[n]))
  {
    if lots != [] {
      var rest, last := lots[..|lots| - 1], lots[|lots| - 1];
      WorthAtQuotes(days, ledger, prices, n, rest, at[..|lots| - 1]);
      assert lots == rest + [last];
      TotalAppend(rest, last, QuoteValue(prices, days[n]));
    }
  }

  /** A day on which every held symbol is quoted is valued at that day's quotes, and is no estimate. */
  lemma QuotedDay(row: EquityRow, days: seq<int>, ledger: map<int, Lots>, cashByDate: map<int, real>, prices: Prices, n: nat)
    requires n < |days| && IsRow(row, days, ledger, cashByDate, prices, n)
    requires forall i :: 0 <= i < |LotsOn(ledger, days[n])| ==> (LotsOn(ledger, days[n])[i].key, days[n]) in prices
    ensures row.positionsValue == Total(LotsOn(ledger, days[n]), QuoteValue(prices, days[n])) && !row.estimated
  {
    hide IsPrice, Worths, QuoteValue;
    var lots := LotsOn(ledger, days[n]);
    var at: seq<real> :| IsPriced(days, ledger, prices, n, lots, at) && row.positionsValue == Worths(lots, at);
    WorthAtQuotes(days, ledger, prices, n, lots, at);
  }

  // ---- the pieces fit: replayed snapshots list each symbol once ----

  lemma {:induction false} UnexpiredDistinct(lots: Lots, expiry: Expiries, day: int)
    requires Distinct(lots)
    ensures Distinct(Unexpired(lots, expiry, day))
  {
    if lots != [] {
      var init, last := lots[..|lots| - 1], lots[|lots| - 1];
      UnexpiredDistinct(init, expiry, day);
      UnexpiredLots(init, expiry, day);
      var r := Unexpired(init, expiry, day);
      forall i | 0 <= i < |r| ensures r[i].key != last.key {
        assert r[i] in r;
        var j :| 0 <= j < |init| && init[j] == r[i];
        assert lots[j] == init[j];
      }
    }
  }

  lemma TradeDistinct(lots: Lots, t: Txn)
    requires Distinct(lots)
    ensures Distinct(TradeLots(lots, t))
  {
    var any := (k: string, v: Lot) => true;
    if t.kind.FillTxn? {
      RemoveKeys(lots, t.kind.symbol);
      forall lot: Lot ensures Distinct(Put(lots, t.kind.symbol, lot)) {
        PutKeys(lots, t.kind.symbol, lot, any);
      }
    }
  }

  lemma {:induction false} ReplayedDistinct(txns: seq<Txn>, cash: real, expiry: Expiries)
    ensures var r := ReplayAll(txns, cash, expiry);
            Distinct(r.lots) && forall d :: d in r.ledger ==> Distinct(r.ledger[d])
  {
    hide TradeLots, Unexpired, ReplayDelta;
    if txns != [] {
      var last := txns[|txns| - 1];
      ReplayedDistinct(txns[..|txns| - 1], cash, expiry);
      var before := ReplayAll(txns[..|txns| - 1], cash, expiry);
      if IsExpiration(last) {
        RemoveKeys(before.lots, last.kind.symbol);
      } else {
        TradeDistinct(before.lots, last);
        UnexpiredDistinct(TradeLots(before.lots, last), expiry, TxnDate(last));
      }
    }
  }

  /** A filled ledger made from a replayed one can be priced: every day lists each symbol once. */
  lemma FilledDistinct(txns: seq<Txn>, cash: real, expiry: Expiries, start: int, day: int)
    ensures Distinct(HeldOn(ReplayAll(txns, cash, expiry).ledger, expiry, start, day))
  {
    hide ReplayAll, Unexpired;
    ReplayedDistinct(txns, cash, expiry);
    var ledger := ReplayAll(txns, cash, expiry).ledger;
    var newest := NewestSnapshot(ledger, start, day);
    if newest.Some? && newest.value in ledger {
      UnexpiredDistinct(ledger[newest.value], expiry, day);
    }
  }
}
