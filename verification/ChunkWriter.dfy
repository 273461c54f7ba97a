/** Streaming a backtest to disk: the observer buffers, rolls chunks over into a queue, and a writer drains it. */
module Streaming {
  import opened Common
  import opened Market
  import Orders

  type Fill = Orders.Fill

  const TARGET_TICKS_PER_CHUNK := 5000.0
  const MIN_DAYS_PER_CHUNK := 1
  const MAX_DAYS_PER_CHUNK := 30

  datatype Point = Point(time: int, value: real, cash: real)

  datatype Chunk = Chunk(equity: seq<Point>, trades: seq<Fill>, windowStart: Option<int>, windowEnd: Option<int>)

  datatype Observer = Observer(bufEquity: seq<Point>, bufTrades: seq<Fill>, start: Option<int>, windowDays: int,
                               daily: map<int, real>, queue: seq<Chunk>)

  /** The observer, and the rows the writer has put in its two files. */
  datatype Pipeline = Pipeline(observer: Observer, equityRows: seq<Point>, tradeRows: seq<Fill>)

  /** What happens, in any interleaving of the replay and the writer thread. */
  datatype Event = EquityPoint(point: Point) | FillMade(fill: Fill) | Flush | WriteChunk

  function Day(p: Point): int {
    DateOf(p.time)
  }

  /** Ticks a day on average, over five days at least, and one tick at least. */
  function AverageTicks(rows: nat, dates: nat): (avg: real)
    ensures avg >= 1.0
  {
    Max(1.0, rows as real / (if dates > 5 then dates else 5) as real)
  }

  /**
   The fewest days, between 1 and 30, that are worth 5000 ticks, for a run of so many rows spread over its
   dates, or over five when there are fewer, and for one tick a day at least.
   */
  function DaysPerChunk(rows: nat, dates: nat): (days: int)
    ensures 1 <= days <= 30 && (rows == 0 ==> days == 1)
    ensures days > 1 ==> (days - 1) as real * rows as real < 5000.0 * (if dates > 5 then dates else 5) as real
    ensures rows > 0 && days < 30 ==> days as real * rows as real >= 5000.0 * (if dates > 5 then dates else 5) as real
  {
    if rows == 0 then MIN_DAYS_PER_CHUNK
    else
      FewestDays(rows, dates);
      var days := Ceiling(TARGET_TICKS_PER_CHUNK / AverageTicks(rows, dates));
      var capped := if days < MAX_DAYS_PER_CHUNK then days else MAX_DAYS_PER_CHUNK;
      if capped > MIN_DAYS_PER_CHUNK then capped else MIN_DAYS_PER_CHUNK
  }

  lemma FewestDays(rows: nat, dates: nat)
    requires rows > 0
    ensures var uncapped := Ceiling(TARGET_TICKS_PER_CHUNK / AverageTicks(rows, dates));
            var days := if uncapped < MAX_DAYS_PER_CHUNK then uncapped else MAX_DAYS_PER_CHUNK;
            var spread := (if dates > 5 then dates else 5) as real;
            && days >= 1
            && (days > 1 ==> (days - 1) as real * rows as real < TARGET_TICKS_PER_CHUNK * spread)
            && (days < MAX_DAYS_PER_CHUNK ==> days as real * rows as real >= TARGET_TICKS_PER_CHUNK * spread)
  {
    hide Ceiling, AverageTicks;
    var avg := AverageTicks(rows, dates);
    var uncapped := Ceiling(TARGET_TICKS_PER_CHUNK / avg);
    var days := if uncapped < MAX_DAYS_PER_CHUNK then uncapped else MAX_DAYS_PER_CHUNK;
    CeilingOfQuotient(TARGET_TICKS_PER_CHUNK, avg);
    ScaledLess(days - 1, uncapped - 1, avg);
    AverageScaled(rows, dates, days - 1);
    AverageScaled(rows, dates, days);
  }

  /** So many days at the average hold the target just when they do of the rows spread over the dates. */
  lemma AverageScaled(rows: nat, dates: nat, days: int)
    requires 0 <= days < 5000
    ensures var spread := (if dates > 5 then dates else 5) as real;
            days as real * AverageTicks(rows, dates) < TARGET_TICKS_PER_CHUNK <==> days as real * rows as real < TARGET_TICKS_PER_CHUNK * spread
  {
    var spread := (if dates > 5 then dates else 5) as real;
    if rows as real / spread > 1.0 {
      BusyDays(days as real, rows as real, spread, TARGET_TICKS_PER_CHUNK);
    } else {
      QuietDays(days as real, rows as real, spread, TARGET_TICKS_PER_CHUNK);
    }
  }

  lemma LessTimes(a: real, b: real, c: real)
    requires c > 0.0
    ensures a < b <==> a * c < b * c
  {
    if a < b {
      assert (b - a) * c > 0.0;
    } else {
      assert (a - b) * c >= 0.0;
    }
  }

  lemma BusyDays(days: real, rows: real, spread: real, target: real)
    requires spread > 0.0
    ensures days * (rows / spread) < target <==> days * rows < target * spread
  {
    var share := rows / spread;
    assert share * spread == rows;
    assert days * share * spread == days * (share * spread);
    LessTimes(days * share, target, spread);
  }

  /** At a tick a day or fewer, less than the target in days is less than the target in ticks. */
  lemma QuietDays(days: real, rows: real, spread: real, target: real)
    requires spread > 0.0 && 0.0 <= days < target && rows / spread <= 1.0
    ensures days * rows < target * spread
  {
    assert rows / spread * spread == rows;
    LessTimes(1.0, rows / spread, spread);
    assert rows <= spread;
    NotLessTimes(days, spread - rows);
    assert days * (spread - rows) == days * spread - days * rows;
    LessTimes(days, target, spread);
  }

  lemma NotLessTimes(a: real, b: real)
    requires a >= 0.0 && b >= 0.0
    ensures a * b >= 0.0
  {
  }

  function Ceiling(x: real): int {
    -((-x).Floor)
  }

  lemma CeilingOfQuotient(a: real, b: real)
    requires a > 0.0 && b > 0.0
    ensures Ceiling(a / b) >= 1
    ensures (Ceiling(a / b) - 1) as real * b < a <= Ceiling(a / b) as real * b
  {
    var q, c := a / b, Ceiling(a / b);
    assert q * b == a;
    assert (c - 1) as real < q <= c as real;
    assert (c - 1) as real * b < q * b;
    assert q * b <= c as real * b;
  }

  lemma ScaledLess(m: int, n: int, b: real)
    requires b > 0.0
    ensures m <= n ==> m as real * b <= n as real * b
  {
  }

  // ---- the observer ----

  function Starting(): Pipeline {
    Pipeline(Observer([], [], None, 0, map[], []), [], [])
  }

  function ChunkOf(equity: seq<Point>, trades: seq<Fill>): Chunk {
    if equity == [] then Chunk(equity, trades, None, None)
    else Chunk(equity, trades, Some(equity[0].time), Some(equity[|equity| - 1].time))
  }

  function FlushedChunk(o: Observer): Observer {
    Observer([], [], None, 0, o.daily, o.queue + [ChunkOf(o.bufEquity, o.bufTrades)])
  }

  function Flushed(o: Observer): Observer {
    if o.bufEquity != [] || o.bufTrades != [] then FlushedChunk(o) else o
  }

  /** A point on a date other than the chunk's first, with the window already full. */
  predicate RollsOver(o: Observer, limit: int, p: Point) {
    o.start.Some? && Day(p) != o.start.value && o.windowDays >= limit
  }

  function Windowed(o: Observer, limit: int, p: Point): Observer {
    if o.start.None? then o.(start := Some(Day(p)), windowDays := 1)
    else if Day(p) == o.start.value then o
    else if o.windowDays >= limit then FlushedChunk(o).(start := Some(Day(p)), windowDays := 1)
    else if o.bufEquity == [] || Day(o.bufEquity[|o.bufEquity| - 1]) != Day(p) then o.(windowDays := o.windowDays + 1)
    else o
  }

  function Recorded(o: Observer, limit: int, p: Point): Observer {
    var w := Windowed(o, limit, p);
    w.(bufEquity := w.bufEquity + [p], daily := w.daily[Day(p) := p.value])
  }

  function Filled(o: Observer, f: Fill): Observer {
    o.(bufTrades := o.bufTrades + [f])
  }

  /** The writer takes the oldest chunk and appends its rows. */
  function Written(s: Pipeline): Pipeline {
    if s.observer.queue == [] then s
    else
      var chunk := s.observer.queue[0];
      Pipeline(s.observer.(queue := s.observer.queue[1..]), s.equityRows + chunk.equity, s.tradeRows + chunk.trades)
  }

  function Next(s: Pipeline, limit: int, e: Event): Pipeline {
    match e
    case EquityPoint(p) => s.(observer := Recorded(s.observer, limit, p))
    case FillMade(f) => s.(observer := Filled(s.observer, f))
    case Flush => s.(observer := Flushed(s.observer))
    case WriteChunk => Written(s)
  }

  function After(limit: int, events: seq<Event>): Pipeline {
    if events == [] then Starting()
    else Next(After(limit, events[..|events| - 1]), limit, events[|events| - 1])
  }

  // ---- the two classes and the queue between them ----

  /** The queue the observer puts chunks in; `None` is the sentinel that ends the writer. */
  class ChunkQueue {
    var items: seq<Option<Chunk>>

    constructor ()
      ensures items == []
    {
      items := [];
    }
  }

  function Present(items: seq<Option<Chunk>>): seq<Chunk> {
    if items == [] then []
    else if items[0].Some? then [items[0].value] + Present(items[1..])
    else Present(items[1..])
  }

  lemma {:induction false} PresentAppend(items: seq<Option<Chunk>>, c: Chunk)
    ensures Present(items + [Some(c)]) == Present(items) + [c]
  {
    if items != [] {
      assert (items + [Some(c)])[1..] == items[1..] + [Some(c)];
      PresentAppend(items[1..], c);
    }
  }

  class ChunkingObserver {
    const queue: ChunkQueue
    const daysPerChunk: int
    var bufEquity: seq<Point>
    var bufTrades: seq<Fill>
    var chunkStart: Option<int>
    var windowDays: int
    var dailyAggregate: map<int, real>

    function State(): Observer
      reads this, queue
    {
      Observer(bufEquity, bufTrades, chunkStart, windowDays, dailyAggregate, Present(queue.items))
    }

    constructor (queue: ChunkQueue, daysPerChunk: int)
      ensures this.queue == queue && this.daysPerChunk == daysPerChunk
      ensures State() == Starting().observer.(queue := Present(queue.items))
    {
      this.queue, this.daysPerChunk := queue, daysPerChunk;
      bufEquity, bufTrades, chunkStart, windowDays, dailyAggregate := [], [], None, 0, map[];
    }

    method OnEquityPoint(time: int, value: real, cash: real)
      modifies this, queue
      ensures State() == Recorded(old(State()), daysPerChunk, Point(time, value, cash))
    {
      var d := DateOf(time);
      if chunkStart.None? {
        chunkStart := Some(d);
        windowDays := 1;
      } else if d != chunkStart.value {
        if windowDays >= daysPerChunk {
          FlushChunk();
          chunkStart := Some(d);
          windowDays := 1;
        } else if bufEquity == [] || DateOf(bufEquity[|bufEquity| - 1].time) != d {
          windowDays := windowDays + 1;
        }
      }
      bufEquity := bufEquity + [Point(time, value, cash)];
      dailyAggregate := dailyAggregate[d := value];
    }

    method OnFill(fill: Fill)
      modifies this
      ensures State() == Filled(old(State()), fill)
    {
      bufTrades := bufTrades + [fill];
    }

    /** Also what the observer does when a run completes or fails. */
    method FlushBuffers()
      modifies this, queue
      ensures State() == Flushed(old(State()))
    {
      if bufEquity != [] || bufTrades != [] {
        FlushChunk();
      }
    }

    method FlushChunk()
      modifies this, queue
      ensures State() == FlushedChunk(old(State()))
    {
      var chunk := ChunkOf(bufEquity, bufTrades);
      bufEquity, bufTrades, chunkStart, windowDays := [], [], None, 0;
      PresentAppend(queue.items, chunk);
      queue.items := queue.items + [Some(chunk)];
    }
  }

  class ParquetWriter {
    const queue: ChunkQueue
    var equityRows: seq<Point>
    var tradeRows: seq<Fill>

    constructor (queue: ChunkQueue)
      ensures this.queue == queue && equityRows == [] && tradeRows == []
    {
      this.queue := queue;
      equityRows, tradeRows := [], [];
    }

    /**
     Take what is queued, oldest first, writing each chunk, until the sentinel has been taken or the
     queue is empty and the thread would block.
     */
    method Run() returns (ended: bool)
      modifies this, queue
      ensures ended == (None in old(queue.items))
      ensures equityRows == old(equityRows) + EquityOf(BeforeSentinel(old(queue.items)))
      ensures tradeRows == old(tradeRows) + TradesOf(BeforeSentinel(old(queue.items)))
      ensures queue.items == AfterSentinel(old(queue.items))
    {
      ghost var all, equity, trades := queue.items, equityRows, tradeRows;
      while queue.items != []
        invariant None in queue.items <==> None in all
        invariant AfterSentinel(queue.items) == AfterSentinel(all)
        invariant equityRows + EquityOf(BeforeSentinel(queue.items)) == equity + EquityOf(BeforeSentinel(all))
        invariant tradeRows + TradesOf(BeforeSentinel(queue.items)) == trades + TradesOf(BeforeSentinel(all))
        decreases |queue.items|
      {
        var chunk := queue.items[0];
        assert queue.items == [chunk] + queue.items[1..];
        queue.items := queue.items[1..];
        if chunk.None? {
          return true;
        }
        equityRows := equityRows + chunk.value.equity;
        tradeRows := tradeRows + chunk.value.trades;
      }
      return false;
    }
  }

  /** The chunks queued ahead of the sentinel, or all of them when it has not been queued. */
  function BeforeSentinel(items: seq<Option<Chunk>>): seq<Chunk> {
    if items == [] || items[0].None? then [] else [items[0].value] + BeforeSentinel(items[1..])
  }

  /** What is queued behind the sentinel. */
  function AfterSentinel(items: seq<Option<Chunk>>): seq<Option<Chunk>> {
    if items == [] then [] else if items[0].None? then items[1..] else AfterSentinel(items[1..])
  }

  function EquityOf(chunks: seq<Chunk>): seq<Point> {
    if chunks == [] then [] else chunks[0].equity + EquityOf(chunks[1..])
  }

  function TradesOf(chunks: seq<Chunk>): seq<Fill> {
    if chunks == [] then [] else chunks[0].trades + TradesOf(chunks[1..])
  }

  // ---- what was emitted ----

  function Points(events: seq<Event>): seq<Point> {
    if events == [] then []
    else Points(events[..|events| - 1]) + (if events[|events| - 1].EquityPoint? then [events[|events| - 1].point] else [])
  }

  function Fills(events: seq<Event>): seq<Fill> {
    if events == [] then []
    else Fills(events[..|events| - 1]) + (if events[|events| - 1].FillMade? then [events[|events| - 1].fill] else [])
  }

  /** The rows on disk, in the queue and in the buffers, in that order. */
  function AllEquity(s: Pipeline): seq<Point> {
    s.equityRows + EquityOf(s.observer.queue) + s.observer.bufEquity
  }

  function AllTrades(s: Pipeline): seq<Fill> {
    s.tradeRows + TradesOf(s.observer.queue) + s.observer.bufTrades
  }

  lemma {:induction false} RowsAppend(chunks: seq<Chunk>, c: Chunk)
    ensures EquityOf(chunks + [c]) == EquityOf(chunks) + c.equity
    ensures TradesOf(chunks + [c]) == TradesOf(chunks) + c.trades
  {
    if chunks != [] {
      assert (chunks + [c])[1..] == chunks[1..] + [c];
      RowsAppend(chunks[1..], c);
    }
  }

  lemma FlushKeepsRows(s: Pipeline)
    ensures var t := s.(observer := FlushedChunk(s.observer));
            AllEquity(t) == AllEquity(s) && AllTrades(t) == AllTrades(s) && t.observer.bufEquity == [] && t.observer.bufTrades == []
  {
    RowsAppend(s.observer.queue, ChunkOf(s.observer.bufEquity, s.observer.bufTrades));
  }

  lemma StepEmits(s: Pipeline, limit: int, e: Event)
    ensures AllEquity(Next(s, limit, e)) == AllEquity(s) + (if e.EquityPoint? then [e.point] else [])
    ensures AllTrades(Next(s, limit, e)) == AllTrades(s) + (if e.FillMade? then [e.fill] else [])
  {
    hide EquityOf, TradesOf, ChunkOf;
    match e {
      case EquityPoint(p) =>
        FlushKeepsRows(s);
        var w := Windowed(s.observer, limit, p);
        assert AllEquity(s.(observer := w)) == AllEquity(s) && AllTrades(s.(observer := w)) == AllTrades(s);
      case FillMade(f) =>
      case Flush => FlushKeepsRows(s);
      case WriteChunk => WriteKeepsRows(s);
    }
  }

  lemma WriteKeepsRows(s: Pipeline)
    ensures AllEquity(Written(s)) == AllEquity(s) && AllTrades(Written(s)) == AllTrades(s)
  {
  }

  // ---- main results ----

  /**
   Nothing is lost, duplicated or reordered: in every interleaving, the rows written, then those
   queued, then those buffered are exactly the points and fills emitted so far.
   */
  lemma {:induction false} StreamingLosesNothing(limit: int, events: seq<Event>)
    ensures AllEquity(After(limit, events)) == Points(events)
    ensures AllTrades(After(limit, events)) == Fills(events)
  {
    hide Next, AllEquity, AllTrades;
    if events == [] {
      assert AllEquity(Starting()) == [] && AllTrades(Starting()) == [] by { StartsEmpty(); }
    } else {
      StreamingLosesNothing(limit, events[..|events| - 1]);
      StepEmits(After(limit, events[..|events| - 1]), limit, events[|events| - 1]);
    }
  }

  lemma StartsEmpty()
    ensures AllEquity(Starting()) == [] && AllTrades(Starting()) == []
  {
  }

  /** Once a run is flushed and the queue is drained, the files hold exactly what was emitted. */
  lemma DrainedFilesAreComplete(limit: int, events: seq<Event>)
    ensures var s := Drained(After(limit, events + [Flush]));
            s.equityRows == Points(events) && s.tradeRows == Fills(events)
  {
    hide After, Points, Fills;
    StreamingLosesNothing(limit, events + [Flush]);
    DrainWritesAll(After(limit, events + [Flush]));
    FlushEmpties(limit, events);
  }

  function Drained(s: Pipeline): Pipeline
    decreases |s.observer.queue|
  {
    if s.observer.queue == [] then s else Drained(Written(s))
  }

  lemma {:induction false} DrainWritesAll(s: Pipeline)
    ensures AllEquity(Drained(s)) == AllEquity(s) && AllTrades(Drained(s)) == AllTrades(s)
    ensures Drained(s).observer == s.observer.(queue := [])
    decreases |s.observer.queue|
  {
    if s.observer.queue != [] {
      WriteKeepsRows(s);
      DrainWritesAll(Written(s));
    }
  }

  lemma FlushEmpties(limit: int, events: seq<Event>)
    ensures var o := After(limit, events + [Flush]).observer; o.bufEquity == [] && o.bufTrades == []
    ensures Points(events + [Flush]) == Points(events) && Fills(events + [Flush]) == Fills(events)
  {
    assert (events + [Flush])[..|events|] == events;
  }

  // ---- chunk windows ----

  function Dates(points: seq<Point>): set<int> {
    set p | p in points :: Day(p)
  }

  lemma DatesAppend(points: seq<Point>, p: Point)
    ensures Dates(points + [p]) == Dates(points) + {Day(p)}
  {
    assert forall q :: q in points + [p] <==> q in points || q == p;
  }

  /** The window counts at least the buffer's dates, and never more than the limit. */
  ghost predicate WindowCounts(o: Observer, limit: int) {
    && (o.bufEquity == [] <==> o.start.None?)
    && (o.bufEquity != [] ==> Day(o.bufEquity[0]) == o.start.value)
    && |Dates(o.bufEquity)| <= o.windowDays <= (if limit > 1 then limit else 1)
    && (forall c :: c in o.queue ==> |Dates(c.equity)| <= (if limit > 1 then limit else 1))
  }

  lemma FlushKeepsWindow(o: Observer, limit: int)
    requires WindowCounts(o, limit)
    ensures WindowCounts(FlushedChunk(o), limit)
  {
    assert Dates([]) == {};
  }

  lemma RecordKeepsWindow(o: Observer, limit: int, p: Point)
    requires WindowCounts(o, limit)
    ensures WindowCounts(Recorded(o, limit, p), limit)
  {
    hide Dates, ChunkOf;
    FlushKeepsWindow(o, limit);
    DatesAppend(o.bufEquity, p);
    DatesAppend([], p);
    EmptyDates();
    if o.bufEquity != [] {
      DayInDates(o.bufEquity, 0);
      DayInDates(o.bufEquity, |o.bufEquity| - 1);
    }
    assert |{Day(p)}| == 1;
    AddOne(Dates(o.bufEquity), Day(p));
  }

  lemma EmptyDates()
    ensures Dates([]) == {}
  {
  }

  lemma DayInDates(points: seq<Point>, i: nat)
    requires i < |points|
    ensures Day(points[i]) in Dates(points)
  {
  }

  lemma AddOne(s: set<int>, d: int)
    ensures |s + {d}| == if d in s then |s| else |s| + 1
  {
    if d in s {
      assert s + {d} == s;
    }
  }

  lemma WindowStep(s: Pipeline, limit: int, e: Event)
    requires WindowCounts(s.observer, limit)
    ensures WindowCounts(Next(s, limit, e).observer, limit)
  {
    match e {
      case EquityPoint(p) => RecordKeepsWindow(s.observer, limit, p);
      case FillMade(f) =>
      case Flush => FlushKeepsWindow(s.observer, limit);
      case WriteChunk =>
    }
  }

  /**
   In every run, whatever order the points come in, no chunk spans more distinct dates than the
   limit (one, if the limit is below one).
   */
  lemma {:induction false} ChunksWithinLimit(limit: int, events: seq<Event>)
    ensures WindowCounts(After(limit, events).observer, limit)
  {
    hide Next, WindowCounts;
    if events == [] {
      StartsCounting(limit);
    } else {
      ChunksWithinLimit(limit, events[..|events| - 1]);
      WindowStep(After(limit, events[..|events| - 1]), limit, events[|events| - 1]);
    }
  }

  lemma StartsCounting(limit: int)
    ensures WindowCounts(Starting().observer, limit)
  {
    EmptyDates();
  }

  // ---- daily curve ----

  /** The value of the last point on a date. */
  function LastOn(points: seq<Point>, date: int): Option<real> {
    if points == [] then None
    else if Day(points[|points| - 1]) == date then Some(points[|points| - 1].value)
    else LastOn(points[..|points| - 1], date)
  }

  function DailyValue(o: Observer, date: int): Option<real> {
    if date in o.daily then Some(o.daily[date]) else None
  }

  lemma NothingOn(date: int)
    ensures DailyValue(Starting().observer, date) == None == LastOn([], date)
  {
  }

  lemma LastOnAppend(points: seq<Point>, p: Point, date: int)
    ensures LastOn(points + [p], date) == if Day(p) == date then Some(p.value) else LastOn(points, date)
  {
    assert (points + [p])[..|points|] == points;
  }

  lemma DailyStep(s: Pipeline, limit: int, e: Event, date: int)
    ensures DailyValue(Next(s, limit, e).observer, date)
         == if e.EquityPoint? && Day(e.point) == date then Some(e.point.value) else DailyValue(s.observer, date)
  {
    hide ChunkOf;
  }

  /** The daily curve holds exactly the dates of the emitted points, each with its last value. */
  lemma {:induction false} DailyHoldsLastValue(limit: int, events: seq<Event>, date: int)
    ensures DailyValue(After(limit, events).observer, date) == LastOn(Points(events), date)
  {
    hide Next, DailyValue, LastOn;
    if events == [] {
      NothingOn(date);
    } else {
      var before, e := events[..|events| - 1], events[|events| - 1];
      DailyHoldsLastValue(limit, before, date);
      DailyStep(After(limit, before), limit, e, date);
      if e.EquityPoint? {
        LastOnAppend(Points(before), e.point, date);
      } else {
        assert Points(events) == Points(before);
      }
    }
  }

  /** A chunk names the stamps of its first and last points, or none when it has trades alone. */
  ghost predicate NamesWindow(c: Chunk) {
    if c.equity == [] then c.windowStart.None? && c.windowEnd.None?
    else c.windowStart == Some(c.equity[0].time) && c.windowEnd == Some(c.equity[|c.equity| - 1].time)
  }

  /** In every run, every queued chunk names its own window and holds something. */
  lemma {:induction false} ChunksNameTheirWindow(limit: int, events: seq<Event>)
    ensures forall c :: c in After(limit, events).observer.queue ==> NamesWindow(c) && (c.equity != [] || c.trades != [])
  {
    hide Dates, WindowCounts;
    if events != [] {
      var before := events[..|events| - 1];
      ChunksNameTheirWindow(limit, before);
      ChunksWithinLimit(limit, before);
      StepNamesWindow(After(limit, before), limit, events[|events| - 1]);
    }
  }

  lemma StepNamesWindow(s: Pipeline, limit: int, e: Event)
    requires WindowCounts(s.observer, limit)
    requires forall c :: c in s.observer.queue ==> NamesWindow(c) && (c.equity != [] || c.trades != [])
    ensures forall c :: c in Next(s, limit, e).observer.queue ==> NamesWindow(c) && (c.equity != [] || c.trades != [])
  {
    hide Dates;
    var o := s.observer;
    assert NamesWindow(ChunkOf(o.bufEquity, o.bufTrades));
  }

  // ---- where chunks break ----

  ghost predicate InDateOrder(points: seq<Point>) {
    forall i, j :: 0 <= i < j < |points| ==> Day(points[i]) <= Day(points[j])
  }

  /** The last date of `points` occurs once in it, after earlier dates. */
  ghost predicate LastDateOnce(points: seq<Point>) {
    |points| >= 2 && forall i :: 0 <= i < |points| - 1 ==> Day(points[i]) < Day(points[|points| - 1])
  }

  /** With points in date order the window counts exactly; full at two or more, its last date is new. */
  ghost predicate WindowExact(o: Observer, limit: int) {
    InDateOrder(o.bufEquity) ==>
      && o.windowDays == |Dates(o.bufEquity)|
      && (limit >= 2 && o.windowDays == limit ==> LastDateOnce(o.bufEquity))
  }

  lemma OrderedSnoc(points: seq<Point>, p: Point)
    requires InDateOrder(points + [p])
    ensures InDateOrder(points)
    ensures forall i :: 0 <= i < |points| ==> Day(points[i]) <= Day(p)
  {
    var all := points + [p];
    assert forall i :: 0 <= i < |points| ==> points[i] == all[i] && Day(all[i]) <= Day(all[|points|]);
  }

  lemma NewestIsNew(points: seq<Point>, p: Point)
    requires points != [] && InDateOrder(points) && Day(points[|points| - 1]) < Day(p)
    ensures Day(p) !in Dates(points) && LastDateOnce(points + [p])
  {
  }

  lemma RecordKeepsExact(o: Observer, limit: int, p: Point)
    requires WindowCounts(o, limit) && WindowExact(o, limit)
    ensures WindowExact(Recorded(o, limit, p), limit)
  {
    hide Dates, ChunkOf;
    var r := Recorded(o, limit, p);
    DatesAppend([], p);
    EmptyDates();
    AddOne({}, Day(p));
    assert {} + {Day(p)} == {Day(p)};
    if o.start.Some? && !RollsOver(o, limit, p) && InDateOrder(r.bufEquity) {
      OrderedSnoc(o.bufEquity, p);
      DatesAppend(o.bufEquity, p);
      AddOne(Dates(o.bufEquity), Day(p));
      DayInDates(o.bufEquity, 0);
      DayInDates(o.bufEquity, |o.bufEquity| - 1);
      if Day(o.bufEquity[|o.bufEquity| - 1]) < Day(p) {
        NewestIsNew(o.bufEquity, p);
      }
    }
  }

  lemma {:induction false} WindowIsExact(limit: int, events: seq<Event>)
    ensures WindowExact(After(limit, events).observer, limit)
  {
    hide WindowCounts, Recorded;
    if events == [] {
      EmptyDates();
    } else {
      var before, e := After(limit, events[..|events| - 1]), events[|events| - 1];
      WindowIsExact(limit, events[..|events| - 1]);
      ChunksWithinLimit(limit, events[..|events| - 1]);
      if e.EquityPoint? {
        RecordKeepsExact(before.observer, limit, e.point);
      } else {
        EmptyDates();
      }
    }
  }

  /**
   Where chunks break, for points in date order. With a limit of one, a chunk that rolls over holds
   one whole date. With a limit of two or more it holds exactly that many dates, the last of them by
   a single point, so the break falls inside a date exactly when the next point is on that date.
   */
  lemma RolloverShape(limit: int, events: seq<Event>, p: Point)
    requires limit >= 1 && InDateOrder(Points(events + [EquityPoint(p)]))
    requires RollsOver(After(limit, events).observer, limit, p)
    ensures var o := After(limit, events).observer;
            var chunk := ChunkOf(o.bufEquity, o.bufTrades);
            && Next(After(limit, events), limit, EquityPoint(p)).observer.queue == o.queue + [chunk]
            && |Dates(chunk.equity)| == limit
            && (limit >= 2 ==> LastDateOnce(chunk.equity))
            && (limit == 1 ==> Day(p) !in Dates(chunk.equity))
  {
    hide WindowCounts, After, Points, EquityOf;
    var o := After(limit, events).observer;
    WindowIsExact(limit, events);
    ChunksWithinLimit(limit, events);
    BufferInOrder(limit, events, p);
    FullWindow(o, limit, p);
  }

  lemma BufferInOrder(limit: int, events: seq<Event>, p: Point)
    requires InDateOrder(Points(events + [EquityPoint(p)]))
    ensures InDateOrder(After(limit, events).observer.bufEquity)
  {
    hide After, Next;
    StreamingLosesNothing(limit, events);
    assert (events + [EquityPoint(p)])[..|events|] == events;
    OrderedSnoc(Points(events), p);
    var s := After(limit, events);
    var earlier := s.equityRows + EquityOf(s.observer.queue);
    SuffixInOrder(earlier, s.observer.bufEquity);
  }

  lemma SuffixInOrder(a: seq<Point>, b: seq<Point>)
    requires InDateOrder(a + b)
    ensures InDateOrder(b)
  {
    assert forall i :: 0 <= i < |b| ==> b[i] == (a + b)[|a| + i];
  }

  lemma FullWindow(o: Observer, limit: int, p: Point)
    requires limit >= 1 && WindowCounts(o, limit) && WindowExact(o, limit) && InDateOrder(o.bufEquity) && RollsOver(o, limit, p)
    ensures |Dates(o.bufEquity)| == limit && (limit >= 2 ==> LastDateOnce(o.bufEquity))
    ensures limit == 1 ==> Day(p) !in Dates(o.bufEquity)
  {
    hide Dates;
    if limit == 1 {
      DayInDates(o.bufEquity, 0);
      OnlyDate(Dates(o.bufEquity), Day(o.bufEquity[0]), Day(p));
    }
  }

  lemma OnlyDate(s: set<int>, d: int, e: int)
    requires |s| == 1 && d in s
    ensures e in s ==> e == d
  {
    assert |s - {d}| == 0;
  }

  /** Two-day chunks: the second point of the second day starts a new chunk. */
  lemma MidDayRollover()
    ensures var run := [EquityPoint(Point(0, 1.0, 1.0)), EquityPoint(Point(86400, 2.0, 1.0)), EquityPoint(Point(86460, 3.0, 1.0))];
            var o := After(2, run).observer;
            && o.queue == [ChunkOf([Point(0, 1.0, 1.0), Point(86400, 2.0, 1.0)], [])]
            && o.bufEquity == [Point(86460, 3.0, 1.0)]
            && Day(o.bufEquity[0]) in Dates(o.queue[0].equity)
  {
    var p0, p1, p2 := Point(0, 1.0, 1.0), Point(86400, 2.0, 1.0), Point(86460, 3.0, 1.0);
    var run := [EquityPoint(p0), EquityPoint(p1), EquityPoint(p2)];
    assert run[..2][..1] == [EquityPoint(p0)] && run[..2] == [EquityPoint(p0), EquityPoint(p1)];
    assert After(2, run[..2][..1][..0]) == Starting();
    var o1 := After(2, run[..2][..1]).observer;
    assert o1.bufEquity == [p0] && o1.start == Some(0) && o1.windowDays == 1;
    var o2 := After(2, run[..2]).observer;
    assert o2.bufEquity == [p0, p1] && o2.windowDays == 2;
    assert p1 in [p0, p1];
  }
}
