/** The context object an algorithm is handed on each tick. */
module TickContexts {
  import opened Common
  import opened OrderedDict
  import opened Timeline
  import opened Market
  import opened EngineSpec

  datatype Key = Key(source: string, symbol: Symbol, timeframe: string)

  datatype Answer = Bars(bars: seq<Bar>) | NoSimTime | UnsupportedTimeframe

  type Cache = seq<Entry<Key, seq<Bar>>>

  function TimeframeToSeconds(timeframe: string): Option<nat> {
    if timeframe == "1tick" then Some(0)
    else if timeframe == "1min" then Some(60)
    else if timeframe == "5min" then Some(300)
    else if timeframe == "15min" then Some(900)
    else if timeframe == "30min" then Some(1800)
    else if timeframe == "1hour" then Some(3600)
    else if timeframe == "1day" then Some(86400)
    else None
  }

  /** The first cached source that has this symbol and timeframe. */
  function CachedSource(cache: Cache, symbol: Symbol, timeframe: string): Option<string> {
    if cache == [] then None
    else if cache[0].key.symbol == symbol && cache[0].key.timeframe == timeframe then Some(cache[0].key.source)
    else CachedSource(cache[1..], symbol, timeframe)
  }

  /** Which source a request goes to: its own, the default, the first cached one, else polygon. */
  function SourceFor(cache: Cache, symbol: Symbol, timeframe: string, source: Option<string>, default: Option<string>): string {
    var given := if source.Some? && source.value != "" then source else default;
    var chosen := if given.None? then CachedSource(cache, symbol, timeframe) else given;
    if chosen.None? || chosen.value == "" then "polygon" else chosen.value
  }

  /** Entry `i` is the first cached frame of this symbol and timeframe. */
  ghost predicate FirstCached(cache: Cache, symbol: Symbol, timeframe: string, i: nat) {
    && i < |cache| && cache[i].key.symbol == symbol && cache[i].key.timeframe == timeframe
    && forall j :: 0 <= j < i ==> cache[j].key.symbol != symbol || cache[j].key.timeframe != timeframe
  }

  lemma {:induction false} CachedSourceIsFirst(cache: Cache, symbol: Symbol, timeframe: string)
    ensures forall i: nat :: FirstCached(cache, symbol, timeframe, i) ==> CachedSource(cache, symbol, timeframe) == Some(cache[i].key.source)
    ensures (forall i: nat :: !FirstCached(cache, symbol, timeframe, i)) ==> CachedSource(cache, symbol, timeframe).None?
  {
    if cache != [] {
      if cache[0].key.symbol == symbol && cache[0].key.timeframe == timeframe {
        assert FirstCached(cache, symbol, timeframe, 0);
      } else {
        var rest := cache[1..];
        CachedSourceIsFirst(rest, symbol, timeframe);
        assert forall j :: 0 < j < |cache| ==> cache[j] == rest[j - 1];
        forall i: nat | FirstCached(cache, symbol, timeframe, i) ensures FirstCached(rest, symbol, timeframe, i - 1) {
          forall j | 0 <= j < i - 1 ensures rest[j].key.symbol != symbol || rest[j].key.timeframe != timeframe {
            assert rest[j] == cache[j + 1];
          }
        }
        forall i: nat | FirstCached(rest, symbol, timeframe, i) ensures FirstCached(cache, symbol, timeframe, i + 1) {
        }
      }
    }
  }

  /**
   Which source a request reads. The one it names; else the context's default; else that of the first
   cached frame of its symbol and timeframe; else polygon, which also stands in for an empty name.
   */
  lemma SourceRules(cache: Cache, symbol: Symbol, timeframe: string, source: Option<string>, default: Option<string>)
    ensures var chosen := SourceFor(cache, symbol, timeframe, source, default);
            var named := source.Some? && source.value != "";
            && (named ==> chosen == source.value)
            && (!named && default.Some? ==> chosen == if default.value == "" then "polygon" else default.value)
            && (!named && default.None? ==> forall i: nat :: FirstCached(cache, symbol, timeframe, i) ==>
                  chosen == if cache[i].key.source == "" then "polygon" else cache[i].key.source)
            && (!named && default.None? && (forall i: nat :: !FirstCached(cache, symbol, timeframe, i)) ==> chosen == "polygon")
  {
    CachedSourceIsFirst(cache, symbol, timeframe);
  }

  /** A request sees a bar of a timeframe of so many minutes exactly when that many minutes have passed since its stamp. */
  lemma RequestSeesElapsed(timeframe: string, minutes: nat, bars: seq<Bar>, now: int, b: Bar)
    requires Increasing(bars, BarTime)
    requires (timeframe, minutes) in {("1tick", 0), ("1min", 1), ("5min", 5), ("15min", 15), ("30min", 30), ("1hour", 60), ("1day", 1440)}
    ensures TimeframeToSeconds(timeframe).Some?
    ensures b in ClosedWindow(bars, TimeframeToSeconds(timeframe).value, now, |bars|) <==> b in bars && b.time + 60 * minutes <= now
  {
    hide ClosedWindow, UpTo;
    var duration := TimeframeToSeconds(timeframe).value;
    ClosedWindowIsNewest(bars, duration, now, |bars|);
    UpToRows(bars, BarTime, now - duration);
    UpToShorter(bars, BarTime, now - duration);
  }

  function Cached(cache: Cache, key: Key): seq<Bar> {
    match Find(cache, key)
    case None => []
    case Some(bars) => bars
  }

  /** The frame a request resolves to: cached, else on disk, else downloaded; empty when nowhere. */
  function Resolve(cache: Cache, disk: Key -> seq<Bar>, onMiss: Key -> seq<Bar>, key: Key): seq<Bar> {
    if Cached(cache, key) != [] then Cached(cache, key)
    else if disk(key) != [] then disk(key)
    else onMiss(key)
  }

  /** The cached frames are the series of `store`, in order. */
  ghost predicate Mirrors(cache: Cache, store: Store) {
    && |cache| == |store| && Distinct(cache)
    && forall i :: 0 <= i < |cache| ==>
         && cache[i].key.source == store[i].source && cache[i].key.symbol == store[i].symbol
         && TimeframeToSeconds(cache[i].key.timeframe) == Some(store[i].duration) && cache[i].value == store[i].bars
  }

  /**
   What an algorithm reads is what it is shown: a request for a cached frame with data is answered
   from that frame, with the newest bars of the series that the view of the tick makes visible.
   */
  lemma {:induction false} RequestReadsView(cache: Cache, store: Store, disk: Key -> seq<Bar>, onMiss: Key -> seq<Bar>,
                                            i: nat, now: int, count: nat)
    requires Mirrors(cache, store) && WellFormed(store) && i < |store| && store[i].bars != []
    ensures Cached(cache, cache[i].key) == Resolve(cache, disk, onMiss, cache[i].key) == store[i].bars
    ensures ClosedWindow(Resolve(cache, disk, onMiss, cache[i].key), store[i].duration, now, count)
         == Newest(Visible(store, now)[i].bars, count)
  {
    hide Visible, ClosedWindow, Newest;
    FindAt(cache, i);
    WindowFromVisible(store, i, now, count);
  }

  class TickContext {
    var bars: Cache
    var positions: seq<PositionView>
    var cash: real
    const initialCash: real
    var accountValue: real
    var buyingPower: real
    var now: Option<int>
    var cancelRequested: bool
    const defaultSource: Option<string>
    const disk: Key -> seq<Bar>
    const onMiss: Key -> seq<Bar>

    constructor (bars: Cache, positions: seq<PositionView>, cash: real, defaultSource: Option<string>,
                 disk: Key -> seq<Bar>, onMiss: Key -> seq<Bar>)
      ensures this.bars == bars && this.positions == positions && this.cash == cash && initialCash == cash
      ensures accountValue == cash && buyingPower == cash && now.None? && !cancelRequested
      ensures this.defaultSource == defaultSource && this.disk == disk && this.onMiss == onMiss
    {
      this.bars, this.positions, this.cash, initialCash := bars, positions, cash, cash;
      accountValue, buyingPower, now, cancelRequested := cash, cash, None, false;
      this.defaultSource, this.disk, this.onMiss := defaultSource, disk, onMiss;
    }

    /** The account an algorithm reads is that of `view`. */
    predicate Shows(view: View)
      reads this
    {
      now == Some(view.now) && cash == buyingPower == view.cash && accountValue == view.accountValue && positions == view.positions
    }

    method SetSimTime(t: int)
      modifies this`now
      ensures now == Some(t)
    {
      now := Some(t);
    }

    method UpdateAccount(cash: real, accountValue: real, buyingPower: real, positions: seq<PositionView>)
      modifies this`cash, this`accountValue, this`buyingPower, this`positions
      ensures this.cash == cash && this.accountValue == accountValue
      ensures this.buyingPower == buyingPower && this.positions == positions
    {
      this.cash, this.accountValue, this.buyingPower, this.positions := cash, accountValue, buyingPower, positions;
    }

    method CancelAllOrders()
      modifies this`cancelRequested
      ensures cancelRequested
    {
      cancelRequested := true;
    }

    /**
     Clear what discovery left behind before the replay. The bars stay; so does a cancellation
     request made during discovery, which the replay then honours on its first row.
     */
    method ResetForReplay()
      modifies this
      ensures now.None? && positions == [] && cash == accountValue == buyingPower == initialCash
      ensures bars == old(bars) && cancelRequested == old(cancelRequested)
    {
      now, positions := None, [];
      cash, accountValue, buyingPower := initialCash, initialCash, initialCash;
    }

    /** The newest `count` closed bars of a symbol; a frame found off-cache is cached under its key. */
    method MarketData(symbol: Symbol, timeframe: string, count: nat, source: Option<string>) returns (answer: Answer)
      modifies this`bars
      ensures now.None? ==> answer.NoSimTime? && bars == old(bars)
      ensures now.Some? ==>
                var key := Key(SourceFor(old(bars), symbol, timeframe, source, defaultSource), symbol, timeframe);
                var frame := Resolve(old(bars), disk, onMiss, key);
                && answer == (if frame == [] then Bars([])
                              else match TimeframeToSeconds(timeframe)
                                case None => UnsupportedTimeframe
                                case Some(duration) => Bars(ClosedWindow(frame, duration, now.value, count)))
                && bars == (if frame == [] || Cached(old(bars), key) != [] then old(bars) else Put(old(bars), key, frame))
    {
      if now.None? {
        return NoSimTime;
      }
      var key := Key(SourceFor(bars, symbol, timeframe, source, defaultSource), symbol, timeframe);
      var frame := Cached(bars, key);
      if frame == [] {
        frame := disk(key);
        if frame != [] {
          bars := Put(bars, key, frame);
        }
      }
      if frame == [] {
        frame := onMiss(key);
        if frame != [] {
          bars := Put(bars, key, frame);
        }
      }
      if frame == [] {
        return Bars([]);
      }
      var duration := TimeframeToSeconds(timeframe);
      if duration.None? {
        return UnsupportedTimeframe;
      }
      answer := Bars(ClosedWindow(frame, duration.value, now.value, count));
    }
  }
}
