/**
 Bars, symbol series and the closed-bar views of them: the lookups that decide which data a
 simulated instant may see.
 */
module Market {
  import opened Common
  import opened Timeline

  type Symbol = string

  const SECONDS_PER_DAY := 86400

  /** The calendar day of a UTC time in seconds. */
  function DateOf(time: int): int {
    time / SECONDS_PER_DAY
  }

  /** Day `d` is the 86400 seconds that begin `d` days after 1970-01-01 00:00. */
  lemma DateHolds(time: int, d: int)
    ensures DateOf(time) == d <==> 86400 * d <= time < 86400 * (d + 1)
  {
  }

  /** One OHLCV bar, stamped at its OPEN time. */
  datatype Bar = Bar(time: int, open: real, high: real, low: real, close: real, volume: real)

  const BarTime: Bar -> int := (b: Bar) => b.time

  /** One entry of the bars cache: its key (source, symbol, timeframe) and its frame. */
  datatype Series = Series(source: string, symbol: Symbol, duration: nat, bars: seq<Bar>)

  /** The bars cache, in insertion order. */
  type Store = seq<Series>

  ghost predicate WellFormed(store: Store) {
    forall i :: 0 <= i < |store| ==> Increasing(store[i].bars, BarTime)
  }

  // ---- what is visible at a simulated time ----

  /** How many bars have closed at `now`: a bar stamped T is known at T + duration. */
  function ClosedCount(bars: seq<Bar>, duration: nat, now: int): (n: nat)
    ensures n <= |bars|
  {
    SearchRight(bars, BarTime, now - duration)
  }

  function LastClosed(bars: seq<Bar>, duration: nat, now: int): Option<Bar> {
    var n := ClosedCount(bars, duration, now);
    if n == 0 then None else Some(bars[n - 1])
  }

  /** The last `count` bars that have closed at `now`. */
  function ClosedWindow(bars: seq<Bar>, duration: nat, now: int, count: nat): seq<Bar> {
    var end := ClosedCount(bars, duration, now);
    var start := if end < count then 0 else end - count;
    bars[start..end]
  }

  /** The store as an algorithm can see it at `now`. */
  function Visible(store: Store, now: int): (v: Store)
    ensures |v| == |store|
  {
    if store == [] then []
    else
      var s := store[0];
      [s.(bars := s.bars[..ClosedCount(s.bars, s.duration, now)])] + Visible(store[1..], now)
  }

  /** The first non-empty series that carries `symbol`, under its own or its provider's name. */
  function SeriesFor(store: Store, symbol: Symbol, resolve: (Symbol, string) -> Symbol): Option<Series> {
    if store == [] then None
    else if store[0].bars != [] && (store[0].symbol == symbol || store[0].symbol == resolve(symbol, store[0].source))
      then Some(store[0])
    else SeriesFor(store[1..], symbol, resolve)
  }

  /** The newest closed bar of `symbol`, if it has one at `now`. */
  function LookupBar(store: Store, symbol: Symbol, resolve: (Symbol, string) -> Symbol, now: int): Option<Bar> {
    match SeriesFor(store, symbol, resolve)
    case None => None
    case Some(s) => LastClosed(s.bars, s.duration, now)
  }

  /** The newest closed price of `symbol`; 0 when the symbol has no closed bar. */
  function LookupClose(store: Store, symbol: Symbol, resolve: (Symbol, string) -> Symbol, now: int): real {
    match LookupBar(store, symbol, resolve, now)
    case None => 0.0
    case Some(bar) => bar.close
  }

  /** Price of an option's underlying: the first series under exactly that name, even an empty one. */
  function UnderlyingPrice(store: Store, underlying: Symbol, now: int): Option<real> {
    if store == [] then None
    else if store[0].symbol == underlying then
      match LastClosed(store[0].bars, store[0].duration, now)
      case None => None
      case Some(bar) => Some(bar.close)
    else UnderlyingPrice(store[1..], underlying, now)
  }

  /** The series is a non-empty one under the symbol's own or its provider's name. */
  predicate Carries(s: Series, symbol: Symbol, resolve: (Symbol, string) -> Symbol) {
    s.bars != [] && (s.symbol == symbol || s.symbol == resolve(symbol, s.source))
  }

  /** Series `i` is the one that data for `symbol` is taken from: no earlier one carries it. */
  ghost predicate IsOwnSeries(store: Store, symbol: Symbol, resolve: (Symbol, string) -> Symbol, i: nat) {
    i < |store| && Carries(store[i], symbol, resolve) && forall j :: 0 <= j < i ==> !Carries(store[j], symbol, resolve)
  }

  lemma {:induction false} SeriesForIsFirst(store: Store, symbol: Symbol, resolve: (Symbol, string) -> Symbol)
    ensures match SeriesFor(store, symbol, resolve)
            case None => forall i :: 0 <= i < |store| ==> !Carries(store[i], symbol, resolve)
            case Some(s) => exists i: nat :: IsOwnSeries(store, symbol, resolve, i) && store[i] == s
  {
    if store != [] {
      if Carries(store[0], symbol, resolve) {
        assert IsOwnSeries(store, symbol, resolve, 0);
      } else {
        var rest := store[1..];
        SeriesForIsFirst(rest, symbol, resolve);
        assert forall i :: 0 < i < |store| ==> store[i] == rest[i - 1];
        if SeriesFor(store, symbol, resolve).Some? {
          var i: nat :| IsOwnSeries(rest, symbol, resolve, i) && rest[i] == SeriesFor(store, symbol, resolve).value;
          assert IsOwnSeries(store, symbol, resolve, i + 1);
        }
      }
    }
  }

  lemma OwnSeriesFound(store: Store, symbol: Symbol, resolve: (Symbol, string) -> Symbol, i: nat)
    requires IsOwnSeries(store, symbol, resolve, i)
    ensures SeriesFor(store, symbol, resolve) == Some(store[i])
  {
    SeriesForIsFirst(store, symbol, resolve);
    if SeriesFor(store, symbol, resolve).Some? {
      var j: nat :| IsOwnSeries(store, symbol, resolve, j) && store[j] == SeriesFor(store, symbol, resolve).value;
      assert i == j;
    }
  }

  // ---- the union clock ----

  function Concatenated(store: Store): seq<Bar> {
    if store == [] then [] else store[0].bars + Concatenated(store[1..])
  }

  /** Every stamp of every series once, in time order; the earliest series supplies the row. */
  function UnionClock(store: Store): seq<Bar> {
    SortBy(KeepFirst(Concatenated(store), BarTime), BarTime)
  }

  // ---- two stores that agree on the past ----

  /** Same keys and durations, no empty series, and in each series the same bars closed at `now`. */
  ghost predicate AgreeClosed(a: Store, b: Store, now: int) {
    && |a| == |b|
    && forall i :: 0 <= i < |a| ==>
        && a[i].source == b[i].source && a[i].symbol == b[i].symbol && a[i].duration == b[i].duration
        && a[i].bars != [] && b[i].bars != []
        && UpTo(a[i].bars, BarTime, now - a[i].duration) == UpTo(b[i].bars, BarTime, now - a[i].duration)
  }

  // ---- no look-ahead ----

  /** The last `count` rows, or all of them when there are fewer. */
  function Newest(bars: seq<Bar>, count: nat): seq<Bar> {
    bars[if |bars| < count then 0 else |bars| - count..]
  }

  /** A closed window is the newest `count` of the bars that have closed at `now`. */
  lemma ClosedWindowIsNewest(bars: seq<Bar>, duration: nat, now: int, count: nat)
    requires Increasing(bars, BarTime)
    ensures ClosedWindow(bars, duration, now, count) == Newest(UpTo(bars, BarTime, now - duration), count)
  {
    SearchIsUpTo(bars, BarTime, now - duration);
  }

  /** No bar of a closed window is still open at `now`. */
  lemma ClosedWindowNoLookAhead(bars: seq<Bar>, duration: nat, now: int, count: nat, b: Bar)
    requires Increasing(bars, BarTime) && b in ClosedWindow(bars, duration, now, count)
    ensures b in bars && b.time + duration <= now
  {
    hide ClosedWindow, UpTo;
    var closed := UpTo(bars, BarTime, now - duration);
    ClosedWindowIsNewest(bars, duration, now, count);
    assert b in closed;
    UpToRows(bars, BarTime, now - duration);
  }

  function LastOf(bars: seq<Bar>): Option<Bar> {
    if bars == [] then None else Some(bars[|bars| - 1])
  }

  /** The newest closed bar is the last of the bars that have closed at `now`, if any has. */
  lemma LastClosedIsNewest(bars: seq<Bar>, duration: nat, now: int)
    requires Increasing(bars, BarTime)
    ensures LastClosed(bars, duration, now) == LastOf(UpTo(bars, BarTime, now - duration))
  {
    SearchIsUpTo(bars, BarTime, now - duration);
  }

  /** Series `i` is the first under exactly that name. */
  ghost predicate IsFirstNamed(store: Store, name: Symbol, i: nat) {
    i < |store| && store[i].symbol == name && forall j :: 0 <= j < i ==> store[j].symbol != name
  }

  lemma {:induction false} UnderlyingFound(store: Store, underlying: Symbol, now: int, i: nat)
    requires IsFirstNamed(store, underlying, i)
    ensures UnderlyingPrice(store, underlying, now) == UnderlyingPrice([store[i]], underlying, now)
  {
    hide LastClosed;
    if i > 0 {
      assert store[0].symbol != underlying;
      forall j | 0 <= j < i - 1 ensures store[1..][j].symbol != underlying {
        assert store[1..][j] == store[j + 1];
      }
      UnderlyingFound(store[1..], underlying, now, i - 1);
    }
  }

  lemma {:induction false} UnderlyingMissing(store: Store, underlying: Symbol, now: int)
    requires forall i :: 0 <= i < |store| ==> store[i].symbol != underlying
    ensures UnderlyingPrice(store, underlying, now).None?
  {
    if store != [] {
      UnderlyingMissing(store[1..], underlying, now);
    }
  }

  /** An option's underlying is priced at its newest closed bar, from the first series under exactly that name. */
  lemma UnderlyingIsNewestClose(store: Store, underlying: Symbol, now: int)
    requires WellFormed(store)
    ensures (forall i :: 0 <= i < |store| ==> store[i].symbol != underlying) ==> UnderlyingPrice(store, underlying, now).None?
    ensures forall i: nat :: IsFirstNamed(store, underlying, i) ==>
              var closed := UpTo(store[i].bars, BarTime, now - store[i].duration);
              UnderlyingPrice(store, underlying, now) == if closed == [] then None else Some(closed[|closed| - 1].close)
  {
    hide UpTo, LastClosed;
    if forall i :: 0 <= i < |store| ==> store[i].symbol != underlying {
      UnderlyingMissing(store, underlying, now);
    }
    forall i: nat | IsFirstNamed(store, underlying, i)
      ensures var closed := UpTo(store[i].bars, BarTime, now - store[i].duration);
              UnderlyingPrice(store, underlying, now) == if closed == [] then None else Some(closed[|closed| - 1].close)
    {
      UnderlyingFound(store, underlying, now, i);
      LastClosedIsNewest(store[i].bars, store[i].duration, now);
    }
  }

  /** The newest closed bar is not still open at `now`. */
  lemma LastClosedNoLookAhead(bars: seq<Bar>, duration: nat, now: int)
    requires Increasing(bars, BarTime) && LastClosed(bars, duration, now).Some?
    ensures LastClosed(bars, duration, now).value in bars
    ensures LastClosed(bars, duration, now).value.time + duration <= now
  {
    LastClosedIsNewest(bars, duration, now);
    UpToRows(bars, BarTime, now - duration);
    assert LastClosed(bars, duration, now).value in UpTo(bars, BarTime, now - duration);
  }

  /** What an algorithm asks of its context is computable from the visible store alone. */
  lemma WindowFromVisible(store: Store, i: nat, now: int, count: nat)
    requires WellFormed(store) && i < |store|
    ensures ClosedWindow(store[i].bars, store[i].duration, now, count) == Newest(Visible(store, now)[i].bars, count)
  {
    VisibleAt(store, now, i);
  }

  lemma {:induction false} VisibleAt(store: Store, now: int, i: nat)
    requires i < |store|
    ensures var s := store[i];
            Visible(store, now)[i] == s.(bars := s.bars[..ClosedCount(s.bars, s.duration, now)])
  {
    if i > 0 {
      VisibleAt(store[1..], now, i - 1);
    }
  }

  lemma VisibleIsClosed(store: Store, now: int, i: nat)
    requires WellFormed(store) && i < |store|
    ensures Visible(store, now)[i] == store[i].(bars := UpTo(store[i].bars, BarTime, now - store[i].duration))
  {
    hide UpTo, Visible;
    VisibleAt(store, now, i);
    SearchIsUpTo(store[i].bars, BarTime, now - store[i].duration);
  }

  // ---- agreement on the past gives agreement on every lookup ----

  lemma AgreeTail(a: Store, b: Store, now: int)
    requires WellFormed(a) && WellFormed(b) && AgreeClosed(a, b, now) && a != []
    ensures WellFormed(a[1..]) && WellFormed(b[1..]) && AgreeClosed(a[1..], b[1..], now)
  {
  }

  /** Agreement on what has closed at a time is agreement on what had closed at every earlier time. */
  lemma AgreeEarlier(a: Store, b: Store, now: int, earlier: int)
    requires AgreeClosed(a, b, now) && earlier <= now
    ensures AgreeClosed(a, b, earlier)
  {
    forall i | 0 <= i < |a|
      ensures UpTo(a[i].bars, BarTime, earlier - a[i].duration) == UpTo(b[i].bars, BarTime, earlier - a[i].duration)
    {
      UpToUpTo(a[i].bars, BarTime, earlier - a[i].duration, now - a[i].duration);
      UpToUpTo(b[i].bars, BarTime, earlier - a[i].duration, now - a[i].duration);
    }
  }

  lemma ClosedAgree(a: seq<Bar>, b: seq<Bar>, duration: nat, now: int)
    requires Increasing(a, BarTime) && Increasing(b, BarTime)
    requires UpTo(a, BarTime, now - duration) == UpTo(b, BarTime, now - duration)
    ensures a[..ClosedCount(a, duration, now)] == b[..ClosedCount(b, duration, now)]
    ensures LastClosed(a, duration, now) == LastClosed(b, duration, now)
  {
    SearchIsUpTo(a, BarTime, now - duration);
    SearchIsUpTo(b, BarTime, now - duration);
    LastClosedIsNewest(a, duration, now);
    LastClosedIsNewest(b, duration, now);
  }

  lemma {:induction false} VisibleAgree(a: Store, b: Store, now: int)
    requires WellFormed(a) && WellFormed(b) && AgreeClosed(a, b, now)
    ensures Visible(a, now) == Visible(b, now)
  {
    if a != [] {
      ClosedAgree(a[0].bars, b[0].bars, a[0].duration, now);
      AgreeTail(a, b, now);
      VisibleAgree(a[1..], b[1..], now);
    }
  }

  lemma {:induction false} LookupAgree(a: Store, b: Store, now: int, symbol: Symbol, resolve: (Symbol, string) -> Symbol)
    requires WellFormed(a) && WellFormed(b) && AgreeClosed(a, b, now)
    ensures LookupBar(a, symbol, resolve, now) == LookupBar(b, symbol, resolve, now)
  {
    if a != [] {
      if a[0].symbol == symbol || a[0].symbol == resolve(symbol, a[0].source) {
        ClosedAgree(a[0].bars, b[0].bars, a[0].duration, now);
      } else {
        AgreeTail(a, b, now);
        LookupAgree(a[1..], b[1..], now, symbol, resolve);
      }
    }
  }

  /** The first row stamped `t`, if any. */
  function FirstAt(rows: seq<Bar>, t: int): Option<Bar> {
    if rows == [] then None else if rows[0].time == t then Some(rows[0]) else FirstAt(rows[1..], t)
  }

  /** The earliest series that has a row stamped `t`. */
  function FirstSeries(store: Store, t: int): Option<Series> {
    if store == [] then None else if FirstAt(store[0].bars, t).Some? then Some(store[0]) else FirstSeries(store[1..], t)
  }

  lemma {:induction false} FirstAtIndex(rows: seq<Bar>, t: int)
    ensures FirstAt(rows, t).None? ==> forall i :: 0 <= i < |rows| ==> BarTime(rows[i]) != t
    ensures FirstAt(rows, t).Some? ==>
              exists i :: 0 <= i < |rows| && FirstAt(rows, t) == Some(rows[i]) && BarTime(rows[i]) == t
                          && forall j :: 0 <= j < i ==> BarTime(rows[j]) != t
  {
    if rows != [] {
      FirstAtIndex(rows[1..], t);
      assert rows == [rows[0]] + rows[1..];
      if rows[0].time == t {
        assert BarTime(rows[0]) == t;
      } else if FirstAt(rows, t).Some? {
        var i :| 0 <= i < |rows[1..]| && FirstAt(rows[1..], t) == Some(rows[1..][i]) && BarTime(rows[1..][i]) == t
                 && forall j :: 0 <= j < i ==> BarTime(rows[1..][j]) != t;
        assert rows[i + 1] == rows[1..][i];
        forall j | 0 <= j < i + 1 ensures BarTime(rows[j]) != t {
          if j > 0 {
            assert rows[j] == rows[1..][j - 1];
          }
        }
      }
    }
  }

  lemma {:induction false} FirstAtConcat(a: seq<Bar>, b: seq<Bar>, t: int)
    ensures FirstAt(a + b, t) == if FirstAt(a, t).Some? then FirstAt(a, t) else FirstAt(b, t)
  {
    if a == [] {
      assert a + b == b;
    } else {
      assert (a + b)[1..] == a[1..] + b;
      FirstAtConcat(a[1..], b, t);
    }
  }

  lemma {:induction false} ConcatenatedFirst(store: Store, t: int)
    ensures FirstAt(Concatenated(store), t)
         == match FirstSeries(store, t) case None => None case Some(s) => FirstAt(s.bars, t)
  {
    if store != [] {
      FirstAtConcat(store[0].bars, Concatenated(store[1..]), t);
      ConcatenatedFirst(store[1..], t);
    }
  }

  /** Of the rows that share a stamp the first is kept. */
  lemma KeptIsFirst(rows: seq<Bar>, x: Bar)
    requires x in KeepFirst(rows, BarTime)
    ensures FirstAt(rows, x.time) == Some(x)
  {
    KeepFirstRows(rows, BarTime);
    FirstAtIndex(rows, x.time);
    var k :| 0 <= k < |rows| && rows[k] == x;
    assert BarTime(rows[k]) == x.time;
    var i :| 0 <= i < |rows| && FirstAt(rows, x.time) == Some(rows[i]) && BarTime(rows[i]) == x.time
             && forall j :: 0 <= j < i ==> BarTime(rows[j]) != x.time;
    KeepFirstIsFirst(rows, BarTime, i);
    SameKeySameRow(KeepFirst(rows, BarTime), x, rows[i]);
  }

  lemma SameKeySameRow(rows: seq<Bar>, x: Bar, y: Bar)
    requires UniqueKeys(rows, BarTime) && x in rows && y in rows && BarTime(x) == BarTime(y)
    ensures x == y
  {
    var i :| 0 <= i < |rows| && rows[i] == x;
    var j :| 0 <= j < |rows| && rows[j] == y;
    assert i == j;
  }

  /**
   Stamps of the union clock strictly increase, and are exactly the stamps of the store; the row at
   each stamp is the one of the earliest series that has it.
   */
  lemma UnionClockRows(store: Store)
    ensures Increasing(UnionClock(store), BarTime)
    ensures forall k :: 0 <= k < |UnionClock(store)| ==>
              var row := UnionClock(store)[k];
              FirstSeries(store, row.time).Some? && FirstAt(FirstSeries(store, row.time).value.bars, row.time) == Some(row)
    ensures forall t :: HasKey(UnionClock(store), BarTime, t)
                   <==> exists i :: 0 <= i < |store| && HasKey(store[i].bars, BarTime, t)
  {
    var all := Concatenated(store);
    KeepFirstRows(all, BarTime);
    SortUnique(KeepFirst(all, BarTime), BarTime);
    SortIsSorted(KeepFirst(all, BarTime), BarTime);
    forall t ensures HasKey(UnionClock(store), BarTime, t)
                <==> exists i :: 0 <= i < |store| && HasKey(store[i].bars, BarTime, t)
    {
      SameRowsSameKeys(UnionClock(store), KeepFirst(all, BarTime), t);
      ConcatenatedStamps(store, t);
    }
    forall k | 0 <= k < |UnionClock(store)|
      ensures var row := UnionClock(store)[k];
              FirstSeries(store, row.time).Some? && FirstAt(FirstSeries(store, row.time).value.bars, row.time) == Some(row)
    {
      assert UnionClock(store)[k] in UnionClock(store);
      KeptIsFirst(all, UnionClock(store)[k]);
      ConcatenatedFirst(store, UnionClock(store)[k].time);
    }
  }

  lemma SameRowsSameKeys(a: seq<Bar>, b: seq<Bar>, t: int)
    requires forall x :: x in a <==> x in b
    ensures HasKey(a, BarTime, t) <==> HasKey(b, BarTime, t)
  {
    if i :| 0 <= i < |a| && BarTime(a[i]) == t {
      assert a[i] in b;
    }
    if i :| 0 <= i < |b| && BarTime(b[i]) == t {
      assert b[i] in a;
    }
  }

  lemma {:induction false} ConcatenatedStamps(store: Store, t: int)
    ensures HasKey(Concatenated(store), BarTime, t)
       <==> exists i :: 0 <= i < |store| && HasKey(store[i].bars, BarTime, t)
  {
    if store != [] {
      ConcatenatedStamps(store[1..], t);
      var head, rest := store[0].bars, Concatenated(store[1..]);
      if i :| 0 <= i < |head + rest| && BarTime((head + rest)[i]) == t {
        if i < |head| {
          assert BarTime(head[i]) == t;
          assert HasKey(store[0].bars, BarTime, t);
        } else {
          assert BarTime(rest[i - |head|]) == t;
          var j :| 0 <= j < |store[1..]| && HasKey(store[1..][j].bars, BarTime, t);
          assert store[j + 1] == store[1..][j];
        }
      }
      if i :| 0 <= i < |store| && HasKey(store[i].bars, BarTime, t) {
        if i == 0 {
          var j :| 0 <= j < |head| && BarTime(head[j]) == t;
          assert BarTime((head + rest)[j]) == t;
        } else {
          assert store[1..][i - 1] == store[i];
          var j :| 0 <= j < |rest| && BarTime(rest[j]) == t;
          assert BarTime((head + rest)[|head| + j]) == t;
        }
      }
    }
  }

  /** The stamp `t` is contributed by a series whose bars are no longer than `duration`. */
  predicate StampCloses(store: Store, duration: nat, t: int) {
    FirstSeries(store, t).Some? && FirstSeries(store, t).value.duration <= duration
  }

  /** Every row of the union clock comes from a series whose bars are no longer than the clock's. */
  ghost predicate ClockCloses(store: Store, duration: nat) {
    forall k :: 0 <= k < |UnionClock(store)| ==> StampCloses(store, duration, UnionClock(store)[k].time)
  }

  lemma {:induction false} FirstSeriesStamp(store: Store, t: int)
    ensures FirstSeries(store, t).Some? ==> exists i :: 0 <= i < |store| && HasKey(store[i].bars, BarTime, t)
  {
    if store != [] {
      FirstAtIndex(store[0].bars, t);
      if FirstAt(store[0].bars, t).Some? {
        assert HasKey(store[0].bars, BarTime, t);
      } else if FirstSeries(store, t).Some? {
        FirstSeriesStamp(store[1..], t);
        var i :| 0 <= i < |store[1..]| && HasKey(store[1..][i].bars, BarTime, t);
        assert store[i + 1] == store[1..][i];
      }
    }
  }

  /** Every stamp of the store is a row of its clock. */
  lemma StampIsRow(store: Store, t: int)
    requires FirstSeries(store, t).Some?
    ensures exists k :: 0 <= k < |UnionClock(store)| && UnionClock(store)[k].time == t
                        && FirstAt(FirstSeries(store, t).value.bars, t) == Some(UnionClock(store)[k])
  {
    hide UnionClock;
    FirstSeriesStamp(store, t);
    UnionClockRows(store);
    assert HasKey(UnionClock(store), BarTime, t);
    var k :| 0 <= k < |UnionClock(store)| && BarTime(UnionClock(store)[k]) == t;
  }

  lemma {:induction false} FirstAtUpTo(rows: seq<Bar>, t: int, u: int)
    requires t <= u
    ensures FirstAt(UpTo(rows, BarTime, u), t) == FirstAt(rows, t)
  {
    if rows != [] {
      var init, last := rows[..|rows| - 1], rows[|rows| - 1];
      assert rows == init + [last];
      FirstAtUpTo(init, t, u);
      FirstAtConcat(init, [last], t);
      FirstAtConcat(UpTo(init, BarTime, u), [last], t);
    }
  }

  /** Two such stores take a closed stamp from the same series. */
  lemma {:induction false} FirstSeriesAgree(a: Store, b: Store, now: int, duration: nat, t: int)
    requires WellFormed(a) && WellFormed(b) && AgreeClosed(a, b, now) && t + duration <= now
    requires FirstSeries(a, t).Some? ==> FirstSeries(a, t).value.duration <= duration
    requires FirstSeries(b, t).Some? ==> FirstSeries(b, t).value.duration <= duration
    ensures FirstSeries(a, t).Some? == FirstSeries(b, t).Some?
    ensures FirstSeries(a, t).Some? ==> FirstAt(FirstSeries(a, t).value.bars, t) == FirstAt(FirstSeries(b, t).value.bars, t)
  {
    if a != [] {
      if FirstAt(a[0].bars, t).Some? || FirstAt(b[0].bars, t).Some? {
        FirstAtUpTo(a[0].bars, t, now - a[0].duration);
        FirstAtUpTo(b[0].bars, t, now - a[0].duration);
      } else {
        AgreeTail(a, b, now);
        FirstSeriesAgree(a[1..], b[1..], now, duration, t);
      }
    }
  }

  /** A row of one clock whose bar has closed is a row of the other. */
  lemma ClosedRowShared(a: Store, b: Store, duration: nat, now: int, k: nat)
    requires WellFormed(a) && WellFormed(b) && ClockCloses(a, duration) && ClockCloses(b, duration) && AgreeClosed(a, b, now)
    requires k < |UnionClock(a)| && UnionClock(a)[k].time + duration <= now
    ensures UnionClock(a)[k] in UnionClock(b)
  {
    hide UnionClock, FirstSeries;
    var t := UnionClock(a)[k].time;
    UnionClockRows(a);
    assert StampCloses(a, duration, t);
    if FirstSeries(b, t).Some? {
      StampIsRow(b, t);
    }
    FirstSeriesAgree(a, b, now, duration, t);
    var l :| 0 <= l < |UnionClock(b)| && UnionClock(b)[l].time == t
             && FirstAt(FirstSeries(b, t).value.bars, t) == Some(UnionClock(b)[l]);
  }

  lemma AgreeSymmetric(a: Store, b: Store, now: int)
    requires AgreeClosed(a, b, now)
    ensures AgreeClosed(b, a, now)
  {
  }

  /** Stores that agree on what has closed at `now` have union clocks with the same closed rows. */
  lemma UnionClockAgree(a: Store, b: Store, duration: nat, now: int)
    requires WellFormed(a) && WellFormed(b) && ClockCloses(a, duration) && ClockCloses(b, duration) && AgreeClosed(a, b, now)
    ensures UpTo(UnionClock(a), BarTime, now - duration) == UpTo(UnionClock(b), BarTime, now - duration)
  {
    hide UnionClock, ClockCloses, AgreeClosed;
    var ca, cb, t := UnionClock(a), UnionClock(b), now - duration;
    UnionClockRows(a);
    UnionClockRows(b);
    UpToRows(ca, BarTime, t);
    UpToRows(cb, BarTime, t);
    AgreeSymmetric(a, b, now);
    forall x ensures x in UpTo(ca, BarTime, t) <==> x in UpTo(cb, BarTime, t) {
      if x in ca && BarTime(x) <= t {
        var k :| 0 <= k < |ca| && ca[k] == x;
        ClosedRowShared(a, b, duration, now, k);
      }
      if x in cb && BarTime(x) <= t {
        var k :| 0 <= k < |cb| && cb[k] == x;
        ClosedRowShared(b, a, duration, now, k);
      }
    }
    UpToIncreasing(ca, BarTime, t);
    UpToIncreasing(cb, BarTime, t);
    SameRowsSameSeq(UpTo(ca, BarTime, t), UpTo(cb, BarTime, t), BarTime);
  }

  /** Such clocks share their first `k + 1` rows when row `k` of one of them has closed at `now`. */
  lemma UnionClockPrefix(a: Store, b: Store, duration: nat, k: nat)
    requires WellFormed(a) && WellFormed(b) && ClockCloses(a, duration) && ClockCloses(b, duration) && k < |UnionClock(a)|
    requires AgreeClosed(a, b, UnionClock(a)[k].time + duration)
    ensures k < |UnionClock(b)| && UnionClock(a)[..k + 1] == UnionClock(b)[..k + 1]
  {
    hide UnionClock, ClockCloses, AgreeClosed;
    var ca, cb, t := UnionClock(a), UnionClock(b), UnionClock(a)[k].time;
    UnionClockRows(a);
    UnionClockRows(b);
    UpToPrefix(ca, BarTime, k);
    UnionClockAgree(a, b, duration, t + duration);
    SearchIsUpTo(cb, BarTime, t);
    assert cb[..SearchRight(cb, BarTime, t)] == ca[..k + 1];
  }
}
