/** Which days of market data are on disk: contiguous ranges, gaps, and what filling the gaps achieves. */
module Coverage {
  import opened EquityCurve

  /** A closed interval of days. */
  datatype Range = Range(start: int, end: int)

  const GAP_THRESHOLD := 3

  /** Weekdays in the half-open interval [a, b). */
  function Weekdays(a: int, b: int): nat
    decreases b - a
  {
    if b <= a then 0 else Weekdays(a, b - 1) + (if IsWeekday(b - 1) then 1 else 0)
  }

  /** Business days strictly between two days. */
  function BusinessDaysBetween(a: int, b: int): nat {
    Weekdays(a + 1, b)
  }

  /** Near enough to be one run: at most two business days lie between. */
  predicate Contiguous(a: int, b: int) {
    BusinessDaysBetween(a, b) <= 2
  }

  ghost predicate SortedDates(dates: seq<int>) {
    forall i, j :: 0 <= i < j < |dates| ==> dates[i] < dates[j]
  }

  /** A later date extends the last run when it is near enough, and starts a new one otherwise. */
  function AddDate(runs: seq<Range>, d: int): seq<Range> {
    if runs == [] || !Contiguous(runs[|runs| - 1].end, d) then runs + [Range(d, d)]
    else runs[..|runs| - 1] + [Range(runs[|runs| - 1].start, d)]
  }

  /** The maximal contiguous runs of a sorted date list. */
  function Runs(dates: seq<int>): seq<Range> {
    if dates == [] then [] else AddDate(Runs(dates[..|dates| - 1]), dates[|dates| - 1])
  }

  method FindContiguousRanges(dates: seq<int>) returns (ranges: seq<Range>)
    ensures ranges == Runs(dates)
  {
    if dates == [] {
      return [];
    }
    ranges := [];
    var runStart, prev := dates[0], dates[0];
    assert dates[..1][..0] == [];
    assert Runs(dates[..1]) == [Range(dates[0], dates[0])];
    for i := 1 to |dates|
      invariant ranges + [Range(runStart, prev)] == Runs(dates[..i])
    {
      assert dates[..i + 1][..i] == dates[..i];
      var d := dates[i];
      if BusinessDaysBetween(prev, d) >= GAP_THRESHOLD {
        ranges := ranges + [Range(runStart, prev)];
        runStart := d;
      }
      prev := d;
    }
    assert dates[..|dates|] == dates;
    ranges := ranges + [Range(runStart, prev)];
  }

  // ---- what the runs are ----

  predicate InRange(r: Range, day: int) {
    r.start <= day <= r.end
  }

  predicate InSome(ranges: seq<Range>, day: int) {
    exists i :: 0 <= i < |ranges| && InRange(ranges[i], day)
  }

  /** Each range is non-empty and ends before the next begins. */
  ghost predicate Ordered(ranges: seq<Range>) {
    && (forall i :: 0 <= i < |ranges| ==> ranges[i].start <= ranges[i].end)
    && forall i, j :: 0 <= i < j < |ranges| ==> ranges[i].end < ranges[j].start
  }

  lemma {:induction false} WeekdaysSplit(a: int, b: int, c: int)
    requires a <= b <= c
    ensures Weekdays(a, c) == Weekdays(a, b) + Weekdays(b, c)
    decreases c - b
  {
    if b < c {
      WeekdaysSplit(a, b, c - 1);
    }
  }

  /** Fewer days between them, nearer together. */
  lemma BetweenMonotone(a: int, p: int, n: int, b: int)
    requires a <= p <= n <= b && Contiguous(a, b)
    ensures Contiguous(p, n)
  {
    if p < n {
      WeekdaysSplit(a + 1, p + 1, b);
      WeekdaysSplit(p + 1, n, b);
    }
  }

  /** Two of the dates, at most two business days apart, enclose the day. */
  ghost predicate Enclosed(dates: seq<int>, day: int) {
    exists i, j :: 0 <= i < |dates| && 0 <= j < |dates| && dates[i] <= day <= dates[j] && Contiguous(dates[i], dates[j])
  }

  /** Ranges start and end on dates, and the last one ends at the last date. */
  ghost predicate OnDates(runs: seq<Range>, dates: seq<int>) {
    && (runs == [] <==> dates == [])
    && (runs != [] ==> runs[|runs| - 1].end == dates[|dates| - 1])
    && forall k :: 0 <= k < |runs| ==> runs[k].start in dates && runs[k].end in dates
  }

  /** Neighbouring ranges are too far apart to be one run. */
  ghost predicate Separated(runs: seq<Range>) {
    forall k :: 0 <= k < |runs| - 1 ==> !Contiguous(runs[k].end, runs[k + 1].start)
  }

  ghost predicate CoversAll(runs: seq<Range>, dates: seq<int>) {
    forall d :: d in dates ==> InSome(runs, d)
  }

  ghost predicate RunsOk(runs: seq<Range>, dates: seq<int>) {
    Ordered(runs) && OnDates(runs, dates) && Separated(runs) && CoversAll(runs, dates)
  }

  lemma {:induction false} RunsAreOk(dates: seq<int>)
    requires SortedDates(dates)
    ensures RunsOk(Runs(dates), dates)
  {
    hide Contiguous, AddDate, OnDates, Separated, CoversAll, Ordered;
    if dates == [] {
      NoRuns();
    } else {
      var init, d := dates[..|dates| - 1], dates[|dates| - 1];
      assert dates == init + [d];
      RunsAreOk(init);
      AddDateOrdered(Runs(init), init, d);
      AddDateOnDates(Runs(init), init, d);
      AddDateSeparated(Runs(init), init, d);
      AddDateCovers(Runs(init), init, d);
    }
  }

  lemma NoRuns()
    ensures RunsOk([], [])
  {
  }

  lemma AddDateOrdered(runs: seq<Range>, init: seq<int>, d: int)
    requires Ordered(runs) && OnDates(runs, init) && SortedDates(init + [d])
    ensures Ordered(AddDate(runs, d))
  {
    hide Contiguous;
    if runs != [] {
      assert (init + [d])[|init| - 1] < (init + [d])[|init|];
      forall k | 0 <= k < |runs| ensures runs[k].end < d {
        if k < |runs| - 1 {
          assert runs[k].end < runs[|runs| - 1].start;
        }
      }
    }
  }

  lemma AddDateOnDates(runs: seq<Range>, init: seq<int>, d: int)
    requires OnDates(runs, init)
    ensures OnDates(AddDate(runs, d), init + [d])
  {
    hide Contiguous;
    assert d == (init + [d])[|init|];
    var next := AddDate(runs, d);
    forall k | 0 <= k < |next| ensures next[k].start in init + [d] && next[k].end in init + [d] {
      if k < |runs| {
        assert runs[k].start in init && runs[k].end in init;
      }
    }
  }

  lemma AddDateSeparated(runs: seq<Range>, init: seq<int>, d: int)
    requires Separated(runs)
    ensures Separated(AddDate(runs, d))
  {
    hide Contiguous;
    var next := AddDate(runs, d);
    forall k | 0 <= k < |next| - 1 ensures !Contiguous(next[k].end, next[k + 1].start) {
      if k < |runs| - 1 {
        assert !Contiguous(runs[k].end, runs[k + 1].start);
      }
    }
  }

  lemma AddDateKeeps(runs: seq<Range>, d: int, day: int)
    requires InSome(runs, day) && (runs != [] ==> runs[|runs| - 1].end <= d)
    ensures InSome(AddDate(runs, d), day)
  {
    hide Contiguous;
    var k :| 0 <= k < |runs| && InRange(runs[k], day);
    assert InRange(AddDate(runs, d)[k], day);
  }

  lemma AddDateCovers(runs: seq<Range>, init: seq<int>, d: int)
    requires OnDates(runs, init) && CoversAll(runs, init) && Ordered(runs) && SortedDates(init + [d])
    ensures CoversAll(AddDate(runs, d), init + [d])
  {
    hide Contiguous, InSome;
    var dates, next := init + [d], AddDate(runs, d);
    forall x | x in dates ensures InSome(next, x) {
      if x in init {
        assert runs != [] ==> dates[|init| - 1] < dates[|init|];
        AddDateKeeps(runs, d, x);
      } else {
        LastCovered(runs, d);
      }
    }
  }

  lemma LastCovered(runs: seq<Range>, d: int)
    requires runs != [] ==> runs[|runs| - 1].start <= d || !Contiguous(runs[|runs| - 1].end, d)
    ensures InSome(AddDate(runs, d), d)
  {
    hide Contiguous;
    var next := AddDate(runs, d);
    assert InRange(next[|next| - 1], d);
  }

  lemma NothingCovered(day: int)
    ensures !InSome([], day)
  {
  }

  /** A day is in some range exactly when two nearby dates enclose it. */
  lemma {:induction false} CoveredIsEnclosed(dates: seq<int>, day: int)
    requires SortedDates(dates)
    ensures InSome(Runs(dates), day) <==> Enclosed(dates, day)
  {
    hide AddDate, Contiguous, InSome, RunsOk;
    if dates == [] {
      NothingCovered(day);
    } else {
      var init, d := dates[..|dates| - 1], dates[|dates| - 1];
      assert dates == init + [d];
      CoveredIsEnclosed(init, day);
      RunsAreOk(init);
      CoveredNext(Runs(init), init, d, day);
    }
  }

  /** A day is covered exactly when it lies between two dates with at most two business days between them. */
  lemma CoveredExactly(dates: seq<int>, day: int)
    requires SortedDates(dates)
    ensures InSome(Runs(dates), day)
       <==> exists i, j :: 0 <= i < |dates| && 0 <= j < |dates| && dates[i] <= day <= dates[j] && Weekdays(dates[i] + 1, dates[j]) <= 2
  {
    hide Runs, InSome, Weekdays;
    CoveredIsEnclosed(dates, day);
  }

  lemma CoveredNext(runs: seq<Range>, init: seq<int>, d: int, day: int)
    requires RunsOk(runs, init) && SortedDates(init + [d])
    requires InSome(runs, day) <==> Enclosed(init, day)
    ensures InSome(AddDate(runs, d), day) <==> Enclosed(init + [d], day)
  {
    hide Contiguous, AddDate, InSome, Separated, CoversAll, OnDates, Ordered;
    var dates := init + [d];
    if Enclosed(dates, day) {
      var i, j :| 0 <= i < |dates| && 0 <= j < |dates| && dates[i] <= day <= dates[j] && Contiguous(dates[i], dates[j]);
      EnclosedThenCovered(runs, init, d, day, i, j);
    }
    if InSome(AddDate(runs, d), day) {
      CoveredThenEnclosed(runs, init, d, day);
    }
  }

  lemma EnclosedThenCovered(runs: seq<Range>, init: seq<int>, d: int, day: int, i: nat, j: nat)
    requires RunsOk(runs, init) && SortedDates(init + [d]) && i < |init + [d]| && j < |init + [d]|
    requires var dates := init + [d]; dates[i] <= day <= dates[j] && Contiguous(dates[i], dates[j])
    requires Enclosed(init, day) ==> InSome(runs, day)
    ensures InSome(AddDate(runs, d), day)
  {
    hide Contiguous, AddDate, InSome, Separated, CoversAll;
    var dates := init + [d];
    assert forall k :: 0 <= k < |init| ==> dates[k] <= dates[|init| - 1] && dates[k] < dates[|init|];
    if i < |init| {
      var last := init[|init| - 1];
      if day <= last {
        if j == |init| {
          BetweenMonotone(init[i], init[i], last, d);
          assert Contiguous(init[i], init[|init| - 1]);
        }
        assert Enclosed(init, day) by {
          var k := if j < |init| then j else |init| - 1;
          assert init[i] <= day <= init[k] && Contiguous(init[i], init[k]);
        }
        AddDateKeeps(runs, d, day);
      } else {
        BetweenMonotone(init[i], last, d, d);
        TailCovered(runs, d, day);
      }
    } else {
      LastCovered(runs, d);
    }
  }

  lemma TailCovered(runs: seq<Range>, d: int, day: int)
    requires Ordered(runs) && runs != [] && Contiguous(runs[|runs| - 1].end, d) && runs[|runs| - 1].end <= day <= d
    ensures InSome(AddDate(runs, d), day)
  {
    hide Contiguous;
    var next := AddDate(runs, d);
    assert InRange(next[|next| - 1], day);
  }

  lemma EnclosedGrows(init: seq<int>, d: int, day: int)
    requires Enclosed(init, day)
    ensures Enclosed(init + [d], day)
  {
    hide Contiguous;
    var dates := init + [d];
    var i, j :| 0 <= i < |init| && 0 <= j < |init| && init[i] <= day <= init[j] && Contiguous(init[i], init[j]);
    assert dates[i] <= day <= dates[j] && Contiguous(dates[i], dates[j]);
  }

  lemma CoveredThenEnclosed(runs: seq<Range>, init: seq<int>, d: int, day: int)
    requires RunsOk(runs, init) && InSome(AddDate(runs, d), day)
    requires InSome(runs, day) ==> Enclosed(init, day)
    ensures Enclosed(init + [d], day)
  {
    hide Contiguous, Separated, CoversAll, Enclosed;
    var dates, next := init + [d], AddDate(runs, d);
    var k :| 0 <= k < |next| && InRange(next[k], day);
    if k < |runs| && InRange(runs[k], day) {
      EnclosedGrows(init, d, day);
    } else if k < |runs| {
      EnclosedBy(dates, |init| - 1, |init|, day);
    } else {
      NoDaysBetween(d);
      EnclosedBy(dates, |init|, |init|, day);
    }
  }

  lemma EnclosedBy(dates: seq<int>, i: nat, j: nat, day: int)
    requires i < |dates| && j < |dates| && dates[i] <= day <= dates[j] && Contiguous(dates[i], dates[j])
    ensures Enclosed(dates, day)
  {
  }

  lemma NoDaysBetween(d: int)
    ensures Contiguous(d, d)
  {
  }

  /** Ranges are maximal: ordered, on dates, covering every date, neighbours three business days apart or more. */
  lemma {:induction false} RangesAreMaximalRuns(dates: seq<int>)
    requires SortedDates(dates)
    ensures Ordered(Runs(dates))
    ensures forall d :: d in dates ==> InSome(Runs(dates), d)
    ensures forall k :: 0 <= k < |Runs(dates)| ==> Runs(dates)[k].start in dates && Runs(dates)[k].end in dates
    ensures forall k :: 0 <= k < |Runs(dates)| - 1 ==>
              Weekdays(Runs(dates)[k].end + 1, Runs(dates)[k + 1].start) >= 3
  {
    hide Runs, InSome;
    RunsAreOk(dates);
  }

  /** Adding dates never uncovers a day. */
  lemma CoverageMonotone(dates: seq<int>, more: seq<int>, day: int)
    requires SortedDates(dates) && SortedDates(more) && forall d :: d in dates ==> d in more
    requires InSome(Runs(dates), day)
    ensures InSome(Runs(more), day)
  {
    hide Contiguous, Runs;
    CoveredIsEnclosed(dates, day);
    CoveredIsEnclosed(more, day);
    var i, j :| 0 <= i < |dates| && 0 <= j < |dates| && dates[i] <= day <= dates[j] && Contiguous(dates[i], dates[j]);
    assert dates[i] in more && dates[j] in more;
    var k :| 0 <= k < |more| && more[k] == dates[i];
    var l :| 0 <= l < |more| && more[l] == dates[j];
    assert more[k] <= day <= more[l] && Contiguous(more[k], more[l]);
  }

  // ---- gaps ----

  /** The days of [start, cursor) outside every range are exactly the days in the gaps so far. */
  ghost predicate GapsExact(gaps: seq<Range>, ranges: seq<Range>, start: int, cursor: int, end: int) {
    && Ordered(gaps)
    && (forall k :: 0 <= k < |gaps| ==> gaps[k].end < cursor && gaps[k].end <= end)
    && forall day :: InSome(gaps, day) <==> start <= day < cursor && day <= end && !InSome(ranges, day)
  }

  lemma GapsExtend(gaps: seq<Range>, ranges: seq<Range>, start: int, cursor: int, end: int, gap: Range)
    requires GapsExact(gaps, ranges, start, cursor, end)
    requires start <= cursor == gap.start <= gap.end <= end
    requires forall day :: gap.start <= day <= gap.end ==> !InSome(ranges, day)
    ensures GapsExact(gaps + [gap], ranges, start, gap.end + 1, end)
  {
    forall day ensures InSome(gaps + [gap], day) <==> InSome(gaps, day) || InRange(gap, day) {
      if InSome(gaps, day) {
        var k :| 0 <= k < |gaps| && InRange(gaps[k], day);
        assert InRange((gaps + [gap])[k], day);
      }
      if InRange(gap, day) {
        assert InRange((gaps + [gap])[|gaps|], day);
      }
    }
  }

  lemma GapsSkip(gaps: seq<Range>, ranges: seq<Range>, start: int, cursor: int, end: int, i: nat)
    requires GapsExact(gaps, ranges, start, cursor, end) && i < |ranges|
    requires ranges[i].start <= cursor <= ranges[i].end + 1
    ensures GapsExact(gaps, ranges, start, ranges[i].end + 1, end)
  {
    forall day | cursor <= day <= ranges[i].end && day <= end ensures InSome(ranges, day) {
      assert InRange(ranges[i], day);
    }
  }

  /** Days before range `i` but after the ranges before it lie in no range. */
  lemma UncoveredBefore(ranges: seq<Range>, i: nat, from: int)
    requires Ordered(ranges) && i <= |ranges|
    requires forall j :: 0 <= j < i ==> ranges[j].end < from
    ensures forall day :: from <= day && (i < |ranges| ==> day < ranges[i].start) ==> !InSome(ranges, day)
  {
    forall day | from <= day && (i < |ranges| ==> day < ranges[i].start) ensures !InSome(ranges, day) {
      forall k | 0 <= k < |ranges| ensures !InRange(ranges[k], day) {
        if k > i {
          assert ranges[i].end < ranges[k].start;
        }
      }
    }
  }

  /** The parts of [start, end] that no range covers: sorted, disjoint, and exact day by day. */
  method GapsBetween(ranges: seq<Range>, start: int, end: int) returns (gaps: seq<Range>)
    requires Ordered(ranges)
    ensures Ordered(gaps)
    ensures forall day :: InSome(gaps, day) <==> start <= day <= end && !InSome(ranges, day)
  {
    hide InSome;
    gaps := [];
    var cursor := start;
    NoGaps(ranges, start, end);
    var i := 0;
    while i < |ranges|
      invariant 0 <= i <= |ranges| && start <= cursor
      invariant forall j :: 0 <= j < i ==> ranges[j].end < cursor
      invariant GapsExact(gaps, ranges, start, cursor, end)
    {
      if cursor > end {
        break;
      }
      if ranges[i].end < cursor {
        i := i + 1;
        continue;
      }
      if ranges[i].start > end {
        break;
      }
      UncoveredBefore(ranges, i, cursor);
      ghost var from := cursor;
      if ranges[i].start > cursor {
        var gapEnd := if ranges[i].start - 1 < end then ranges[i].start - 1 else end;
        if cursor <= gapEnd {
          GapsExtend(gaps, ranges, start, cursor, end, Range(cursor, gapEnd));
          gaps := gaps + [Range(cursor, gapEnd)];
          from := gapEnd + 1;
        }
      }
      GapsSkip(gaps, ranges, start, from, end, i);
      cursor := ranges[i].end + 1;
      i := i + 1;
    }
    if cursor <= end {
      UncoveredUpTo(ranges, i, cursor, end);
      GapsExtend(gaps, ranges, start, cursor, end, Range(cursor, end));
      gaps := gaps + [Range(cursor, end)];
    }
  }

  lemma NoGaps(ranges: seq<Range>, start: int, end: int)
    ensures GapsExact([], ranges, start, start, end)
  {
  }

  lemma UncoveredUpTo(ranges: seq<Range>, i: nat, cursor: int, end: int)
    requires Ordered(ranges) && i <= |ranges| && (i < |ranges| ==> ranges[i].start > end)
    requires forall j :: 0 <= j < i ==> ranges[j].end < cursor
    ensures forall day :: cursor <= day <= end ==> !InSome(ranges, day)
  {
    UncoveredBefore(ranges, i, cursor);
  }

  // ---- the index and its cache ----

  type Key = (string, string)

  ghost predicate AllOrdered(cache: map<Key, seq<Range>>) {
    forall k :: k in cache ==> Ordered(cache[k])
  }

  /** One window per gap, a day wider on each side. */
  function Windows(gaps: seq<Range>): seq<Range> {
    if gaps == [] then []
    else Windows(gaps[..|gaps| - 1]) + [Range(gaps[|gaps| - 1].start - 1, gaps[|gaps| - 1].end + 1)]
  }

  class CoverageIndex {
    /** The dates on disk, sorted, per (provider, symbol); other parts of the system write it. */
    var disk: map<Key, seq<int>>
    var cache: map<Key, seq<Range>>

    ghost predicate Valid()
      reads this
    {
      (forall k :: k in disk ==> SortedDates(disk[k])) && AllOrdered(cache)
    }

    function OnDisk(key: Key): seq<Range>
      reads this
    {
      if key in disk then Runs(disk[key]) else []
    }

    /** The ranges as of the last scan; a missing entry is scanned and kept. */
    method GetRanges(key: Key) returns (ranges: seq<Range>)
      requires Valid()
      modifies this`cache
      ensures Valid() && Ordered(ranges)
      ensures ranges == if key in old(cache) then old(cache)[key] else OnDisk(key)
      ensures cache == old(cache)[key := ranges]
    {
      if key !in cache {
        if key in disk {
          ScanOrdered(disk[key]);
        }
        cache := cache[key := OnDisk(key)];
      }
      ranges := cache[key];
    }

    method GetGaps(key: Key, start: int, end: int) returns (gaps: seq<Range>)
      requires Valid()
      modifies this`cache
      ensures Valid() && Ordered(gaps) && key in cache && cache == old(cache)[key := cache[key]]
      ensures cache[key] == if key in old(cache) then old(cache)[key] else OnDisk(key)
      ensures forall day :: InSome(gaps, day) <==> start <= day <= end && !InSome(cache[key], day)
    {
      var ranges := GetRanges(key);
      gaps := GapsBetween(ranges, start, end);
    }

    method Invalidate(key: Key)
      modifies this`cache
      ensures cache == old(cache) - {key}
    {
      cache := cache - {key};
    }

    /**
     Request every gap, widened by a day, from a provider that can download; then forget the cached
     ranges so that the next look rescans the disk.
     */
    method EnsureCoverage(key: Key, start: int, end: int, downloadable: bool) returns (requested: seq<Range>, ghost gaps: seq<Range>)
      requires Valid()
      modifies this`cache
      ensures Valid() && Ordered(gaps)
      ensures var ranges := if key in old(cache) then old(cache)[key] else OnDisk(key);
              && (forall day :: InSome(gaps, day) <==> start <= day <= end && !InSome(ranges, day))
              && cache == if requested == [] then old(cache)[key := ranges] else old(cache) - {key}
      ensures requested == if downloadable then Windows(gaps) else []
    {
      var found := GetGaps(key, start, end);
      gaps := found;
      requested := [];
      if found == [] || !downloadable {
        return;
      }
      for i := 0 to |found|
        invariant requested == Windows(found[..i])
      {
        assert found[..i + 1][..i] == found[..i];
        requested := requested + [Range(found[i].start - 1, found[i].end + 1)];
      }
      assert found[..|found|] == found;
      Invalidate(key);
    }
  }

  lemma ScanOrdered(dates: seq<int>)
    requires SortedDates(dates)
    ensures Ordered(Runs(dates))
  {
    hide Runs, OnDates, Separated, CoversAll;
    RunsAreOk(dates);
  }

  lemma {:induction false} WindowsAt(gaps: seq<Range>, k: nat)
    requires k < |gaps|
    ensures |Windows(gaps)| == |gaps| && Windows(gaps)[k] == Range(gaps[k].start - 1, gaps[k].end + 1)
  {
    if k < |gaps| - 1 {
      WindowsAt(gaps[..|gaps| - 1], k);
    } else if |gaps| > 1 {
      WindowsAt(gaps[..|gaps| - 1], 0);
    }
  }

  // ---- filling the gaps closes them ----

  /** The gaps of a date list over [start, end], as `GapsBetween` returns them. */
  ghost predicate GapsOf(gaps: seq<Range>, dates: seq<int>, start: int, end: int) {
    forall day :: InSome(gaps, day) <==> start <= day <= end && !InSome(Runs(dates), day)
  }

  lemma DateIsCovered(dates: seq<int>, day: int)
    requires SortedDates(dates) && day in dates
    ensures InSome(Runs(dates), day)
  {
    hide Runs, OnDates, Separated, Ordered;
    RunsAreOk(dates);
  }

  /** When every day of every requested window is on disk, a rescan finds [start, end] covered. */
  lemma FillingCloses(dates: seq<int>, more: seq<int>, gaps: seq<Range>, start: int, end: int, day: int)
    requires SortedDates(dates) && SortedDates(more) && (forall d :: d in dates ==> d in more)
    requires GapsOf(gaps, dates, start, end)
    requires forall d :: InSome(Windows(gaps), d) ==> d in more
    requires start <= day <= end
    ensures InSome(Runs(more), day)
  {
    hide Runs, Windows;
    if InSome(Runs(dates), day) {
      CoverageMonotone(dates, more, day);
    } else {
      assert InSome(gaps, day);
      InWindow(gaps, day, day);
      DateIsCovered(more, day);
    }
  }

  /** The neighbours of a day in a gap are in a requested window. */
  lemma InWindow(gaps: seq<Range>, day: int, near: int)
    requires InSome(gaps, day) && day - 1 <= near <= day + 1
    ensures InSome(Windows(gaps), near)
  {
    hide Windows;
    var k :| 0 <= k < |gaps| && InRange(gaps[k], day);
    WindowsAt(gaps, k);
    assert InRange(Windows(gaps)[k], near);
  }

  predicate IsSaturday(day: int) {
    (day + 3) % 7 == 5
  }

  predicate IsSunday(day: int) {
    (day + 3) % 7 == 6
  }

  lemma EnclosedByDates(more: seq<int>, a: int, b: int, day: int)
    requires SortedDates(more) && a in more && b in more && a <= day <= b && Contiguous(a, b)
    ensures InSome(Runs(more), day)
  {
    hide Contiguous, Runs;
    var i :| 0 <= i < |more| && more[i] == a;
    var j :| 0 <= j < |more| && more[j] == b;
    EnclosedBy(more, i, j, day);
    CoveredIsEnclosed(more, day);
  }

  /** A covered day next to an uncovered one is itself a date. */
  lemma EdgeIsDate(dates: seq<int>, day: int, uncovered: int)
    requires SortedDates(dates) && InSome(Runs(dates), day) && !InSome(Runs(dates), uncovered)
    requires uncovered == day - 1 || uncovered == day + 1
    ensures day in dates
  {
    hide Contiguous, Runs;
    CoveredIsEnclosed(dates, day);
    CoveredIsEnclosed(dates, uncovered);
    var i, j :| 0 <= i < |dates| && 0 <= j < |dates| && dates[i] <= day <= dates[j] && Contiguous(dates[i], dates[j]);
    EnclosesNeighbour(dates, i, j, day, uncovered);
    assert dates[i] == day || dates[j] == day;
  }

  /** A pair of dates around a day either meets the day or encloses its neighbours too. */
  lemma EnclosesNeighbour(dates: seq<int>, i: nat, j: nat, day: int, near: int)
    requires i < |dates| && j < |dates| && dates[i] <= day <= dates[j] && Contiguous(dates[i], dates[j])
    requires near == day - 1 || near == day + 1
    ensures dates[i] == day || dates[j] == day || Enclosed(dates, near)
  {
    hide Contiguous;
    if dates[i] != day && dates[j] != day {
      EnclosedBy(dates, i, j, near);
    }
  }

  lemma WeekendNeighbours(day: int)
    ensures IsSaturday(day) ==> IsWeekday(day - 1) && !IsWeekday(day) && IsSunday(day + 1) && IsWeekday(day + 2)
    ensures IsSunday(day) ==> IsSaturday(day - 1) && !IsWeekday(day) && IsWeekday(day + 1) && IsWeekday(day - 2)
    ensures IsWeekday(day) || IsSaturday(day) || IsSunday(day)
  {
    var r := (day + 3) % 7;
    assert (day + 4) % 7 == if r == 6 then 0 else r + 1;
    assert (day + 5) % 7 == if r >= 5 then r - 5 else r + 2;
    assert (day + 2) % 7 == if r == 0 then 6 else r - 1;
    assert (day + 1) % 7 == if r <= 1 then r + 5 else r - 2;
  }

  lemma WeekendIsContiguous(friday: int)
    requires IsSaturday(friday + 1)
    ensures Contiguous(friday, friday + 2) && Contiguous(friday, friday + 3) && Contiguous(friday + 1, friday + 3)
  {
    assert Weekdays(friday + 1, friday + 1) == 0;
    assert Weekdays(friday + 1, friday + 2) == 0;
    assert Weekdays(friday + 1, friday + 3) == 0;
    assert Weekdays(friday + 2, friday + 2) == 0;
    assert Weekdays(friday + 2, friday + 3) == 0;
  }

  lemma SaturdayCloses(dates: seq<int>, more: seq<int>, gaps: seq<Range>, start: int, end: int, day: int)
    requires SortedDates(dates) && SortedDates(more) && (forall d :: d in dates ==> d in more)
    requires GapsOf(gaps, dates, start, end) && IsSaturday(day) && start <= day < end
    requires forall d :: InSome(Windows(gaps), d) && IsWeekday(d) ==> d in more
    requires !InSome(Runs(dates), day)
    ensures InSome(Runs(more), day)
  {
    hide Runs, Windows, Contiguous, InSome, IsWeekday, IsSaturday, IsSunday;
    WeekendNeighbours(day);
    WeekendIsContiguous(day - 1);
    InWindow(gaps, day, day - 1);
    if InSome(Runs(dates), day + 1) {
      EdgeIsDate(dates, day + 1, day);
      EnclosedByDates(more, day - 1, day + 1, day);
    } else {
      InWindow(gaps, day + 1, day + 2);
      EnclosedByDates(more, day - 1, day + 2, day);
    }
  }

  lemma SundayCloses(dates: seq<int>, more: seq<int>, gaps: seq<Range>, start: int, end: int, day: int)
    requires SortedDates(dates) && SortedDates(more) && (forall d :: d in dates ==> d in more)
    requires GapsOf(gaps, dates, start, end) && IsSunday(day) && start < day <= end
    requires forall d :: InSome(Windows(gaps), d) && IsWeekday(d) ==> d in more
    requires !InSome(Runs(dates), day)
    ensures InSome(Runs(more), day)
  {
    hide Runs, Windows, Contiguous, InSome, IsWeekday, IsSaturday, IsSunday;
    WeekendNeighbours(day);
    WeekendIsContiguous(day - 2);
    InWindow(gaps, day, day + 1);
    if InSome(Runs(dates), day - 1) {
      EdgeIsDate(dates, day - 1, day);
      EnclosedByDates(more, day - 1, day + 1, day);
    } else {
      InWindow(gaps, day - 1, day - 2);
      EnclosedByDates(more, day - 2, day + 1, day);
    }
  }

  /**
   Downloads bring weekdays only. That still closes [start, end], unless it starts on a Sunday or
   ends on a Saturday: the widened window then misses the business day on the other side.
   */
  lemma WeekdayFillingCloses(dates: seq<int>, more: seq<int>, gaps: seq<Range>, start: int, end: int, day: int)
    requires SortedDates(dates) && SortedDates(more) && (forall d :: d in dates ==> d in more)
    requires GapsOf(gaps, dates, start, end)
    requires forall d :: InSome(Windows(gaps), d) && IsWeekday(d) ==> d in more
    requires !IsSunday(start) && !IsSaturday(end) && start <= day <= end
    ensures InSome(Runs(more), day)
  {
    hide Runs, Windows, InSome, IsWeekday, IsSaturday, IsSunday;
    WeekendNeighbours(day);
    if InSome(Runs(dates), day) {
      CoverageMonotone(dates, more, day);
    } else if IsWeekday(day) {
      InWindow(gaps, day, day);
      DateIsCovered(more, day);
    } else if IsSaturday(day) {
      SaturdayCloses(dates, more, gaps, start, end, day);
    } else {
      SundayCloses(dates, more, gaps, start, end, day);
    }
  }

  /** The days of [a, b] that are weekdays, in order. */
  function WeekdaysIn(a: int, b: int): seq<int>
    decreases b - a
  {
    if b < a then [] else WeekdaysIn(a, b - 1) + (if IsWeekday(b) then [b] else [])
  }

  lemma {:induction false} WeekdaysInMembers(a: int, b: int)
    ensures SortedDates(WeekdaysIn(a, b)) && forall d :: d in WeekdaysIn(a, b) <==> a <= d <= b && IsWeekday(d)
    decreases b - a
  {
    hide IsWeekday;
    if a <= b {
      WeekdaysInMembers(a, b - 1);
      var init := WeekdaysIn(a, b - 1);
      forall i | 0 <= i < |init| ensures init[i] < b {
        assert init[i] in init;
      }
    }
  }

  /** `more` is what the disk holds once the weekdays of every requested window have arrived. */
  ghost predicate WeekdayFilled(dates: seq<int>, more: seq<int>, gaps: seq<Range>, start: int, end: int) {
    && SortedDates(dates) && SortedDates(more) && (forall d :: d in dates ==> d in more)
    && GapsOf(gaps, dates, start, end)
    && forall d :: InSome(Windows(gaps), d) && IsWeekday(d) ==> d in more
  }

  /** Whatever was on disk, filling leaves no gap in [start, end]. */
  ghost predicate AlwaysCloses(start: int, end: int) {
    forall dates, more, gaps, day :: WeekdayFilled(dates, more, gaps, start, end) && start <= day <= end ==> InSome(Runs(more), day)
  }

  lemma EmptyDiskFilled(start: int, end: int)
    requires start <= end
    ensures WeekdayFilled([], WeekdaysIn(start - 1, end + 1), [Range(start, end)], start, end)
  {
    var gaps := [Range(start, end)];
    WeekdaysInMembers(start - 1, end + 1);
    forall day ensures InSome(gaps, day) <==> start <= day <= end && !InSome(Runs([]), day) {
      assert InRange(gaps[0], day) <==> start <= day <= end;
    }
    assert gaps[..0] == [] && Windows(gaps) == [Range(start - 1, end + 1)];
  }

  /** On an empty disk a Sunday start has no date at or before it, and a Saturday end none at or after it. */
  lemma EdgeStaysOpen(start: int, end: int)
    requires start <= end
    ensures IsSunday(start) ==> !InSome(Runs(WeekdaysIn(start - 1, end + 1)), start)
    ensures IsSaturday(end) ==> !InSome(Runs(WeekdaysIn(start - 1, end + 1)), end)
  {
    hide Runs, WeekdaysIn, Contiguous, IsWeekday, IsSaturday, IsSunday, InSome;
    var more := WeekdaysIn(start - 1, end + 1);
    WeekdaysInMembers(start - 1, end + 1);
    WeekendNeighbours(start);
    WeekendNeighbours(end);
    WeekendNeighbours(start - 1);
    WeekendNeighbours(end + 1);
    CoveredIsEnclosed(more, start);
    CoveredIsEnclosed(more, end);
    forall i | 0 <= i < |more| ensures start - 1 <= more[i] <= end + 1 && IsWeekday(more[i]) {
      assert more[i] in more;
    }
  }

  /**
   Filling with weekdays always closes [start, end] exactly when it neither starts on a Sunday nor
   ends on a Saturday.
   */
  lemma WeekdayFillingClosesExactly(start: int, end: int)
    requires start <= end
    ensures AlwaysCloses(start, end) <==> !IsSunday(start) && !IsSaturday(end)
  {
    hide Runs, Windows, InSome, IsSaturday, IsSunday, GapsOf, WeekdaysIn;
    if !IsSunday(start) && !IsSaturday(end) {
      forall dates, more, gaps, day | WeekdayFilled(dates, more, gaps, start, end) && start <= day <= end
        ensures InSome(Runs(more), day)
      {
        WeekdayFillingCloses(dates, more, gaps, start, end, day);
      }
    } else {
      EmptyDiskFilled(start, end);
      EdgeStaysOpen(start, end);
    }
  }
}
