/** Longer bars derived from one-minute bars. */
module Aggregation {
  import opened Common
  import opened Timeline
  import opened Market

  /** The interval lengths one-minute bars can be aggregated to. */
  datatype Width = FiveMinutes | FifteenMinutes | OneHour | OneDay

  function Seconds(w: Width): nat {
    match w
    case FiveMinutes => 300
    case FifteenMinutes => 900
    case OneHour => 3600
    case OneDay => 86400
  }

  /** Start of the interval of width `w` that holds time `t`, aligned to midnight UTC. */
  function Bucket(t: int, w: Width): int {
    match w
    case FiveMinutes => t - t % 300
    case FifteenMinutes => t - t % 900
    case OneHour => t - t % 3600
    case OneDay => t - t % 86400
  }

  /** Extend an interval's bar by one more row. */
  function Absorb(bar: Bar, x: Bar): Bar {
    bar.(high := Max(bar.high, x.high), low := Min(bar.low, x.low), close := x.close, volume := bar.volume + x.volume)
  }

  function AddBar(bars: seq<Bar>, x: Bar, w: Width): seq<Bar>
  {
    if bars != [] && bars[|bars| - 1].time == Bucket(x.time, w)
    then bars[..|bars| - 1] + [Absorb(bars[|bars| - 1], x)]
    else bars + [x.(time := Bucket(x.time, w))]
  }

  /** Rows in order, gathered into intervals of width `w`. */
  function Gather(rows: seq<Bar>, w: Width): seq<Bar>
  {
    if rows == [] then [] else AddBar(Gather(rows[..|rows| - 1], w), rows[|rows| - 1], w)
  }

  /** Resampling sorts by time first. */
  function Aggregate(rows: seq<Bar>, w: Width): seq<Bar>
  {
    Gather(SortBy(rows, BarTime), w)
  }

  function TargetWidth(target: string): Option<Width> {
    if target == "5min" then Some(FiveMinutes)
    else if target == "15min" then Some(FifteenMinutes)
    else if target == "1h" then Some(OneHour)
    else if target == "1d" then Some(OneDay)
    else None
  }

  /** One-minute bars pass through; an unknown target is an error. */
  function AggregateBars(rows: seq<Bar>, target: string): Option<seq<Bar>> {
    if target == "1min" then Some(rows)
    else match TargetWidth(target)
      case None => None
      case Some(w) => Some(Aggregate(rows, w))
  }

  // ---- what a gathered bar is ----

  /** The rows of one interval, in order. */
  function InBucket(rows: seq<Bar>, b: int, w: Width): seq<Bar>
  {
    if rows == [] then []
    else
      var rest := InBucket(rows[..|rows| - 1], b, w);
      if Bucket(rows[|rows| - 1].time, w) == b then rest + [rows[|rows| - 1]] else rest
  }

  /** First open, highest high, lowest low, last close, summed volume. */
  ghost predicate Summarizes(bar: Bar, rows: seq<Bar>) {
    && rows != [] && bar.open == rows[0].open && bar.close == rows[|rows| - 1].close
    && (forall i :: 0 <= i < |rows| ==> rows[i].high <= bar.high && bar.low <= rows[i].low)
    && (exists i :: 0 <= i < |rows| && rows[i].high == bar.high)
    && (exists i :: 0 <= i < |rows| && rows[i].low == bar.low)
    && bar.volume == TotalVolume(rows)
  }

  function TotalVolume(rows: seq<Bar>): real {
    if rows == [] then 0.0 else TotalVolume(rows[..|rows| - 1]) + rows[|rows| - 1].volume
  }

  lemma BucketMonotone(s: int, t: int, w: Width)
    requires s <= t
    ensures Bucket(s, w) <= Bucket(t, w) <= t < Bucket(t, w) + Seconds(w)
  {
    match w {
      case FiveMinutes => FloorMonotone300(s, t);
      case FifteenMinutes => FloorMonotone900(s, t);
      case OneHour => FloorMonotone3600(s, t);
      case OneDay => FloorMonotone86400(s, t);
    }
  }

  lemma FloorMonotone300(s: int, t: int)
    requires s <= t
    ensures s - s % 300 <= t - t % 300
  {
  }

  lemma FloorMonotone900(s: int, t: int)
    requires s <= t
    ensures s - s % 900 <= t - t % 900
  {
  }

  lemma FloorMonotone3600(s: int, t: int)
    requires s <= t
    ensures s - s % 3600 <= t - t % 3600
  {
  }

  lemma FloorMonotone86400(s: int, t: int)
    requires s <= t
    ensures s - s % 86400 <= t - t % 86400
  {
  }

  lemma SummaryExtends(bar: Bar, rows: seq<Bar>, x: Bar)
    requires Summarizes(bar, rows)
    ensures Summarizes(Absorb(bar, x), rows + [x])
  {
    var more, after := rows + [x], Absorb(bar, x);
    assert more[..|rows|] == rows;
    var h :| 0 <= h < |rows| && rows[h].high == bar.high;
    var l :| 0 <= l < |rows| && rows[l].low == bar.low;
    assert more[h] == rows[h] && more[l] == rows[l] && more[|rows|] == x;
    assert more[if after.high == bar.high then h else |rows|].high == after.high;
    assert more[if after.low == bar.low then l else |rows|].low == after.low;
  }

  lemma SummaryOfOne(x: Bar, b: int)
    ensures Summarizes(x.(time := b), [x])
  {
    assert [x][..0] == [];
    assert [x][0].high == x.high && [x][0].low == x.low;
  }

  lemma {:induction false} BucketEmpty(rows: seq<Bar>, b: int, w: Width)
    requires forall i :: 0 <= i < |rows| ==> Bucket(rows[i].time, w) != b
    ensures InBucket(rows, b, w) == []
  {
    if rows != [] {
      BucketEmpty(rows[..|rows| - 1], b, w);
    }
  }

  /** Gathered bars of sorted rows: one per interval that has rows, in time order, each the summary of its rows. */
  ghost predicate Gathered(bars: seq<Bar>, rows: seq<Bar>, w: Width)
  {
    && Increasing(bars, BarTime)
    && (forall i :: 0 <= i < |bars| ==> Summarizes(bars[i], InBucket(rows, bars[i].time, w)))
    && (forall i :: 0 <= i < |rows| ==> HasKey(bars, BarTime, Bucket(rows[i].time, w)))
    && (bars == [] <==> rows == [])
    && (bars != [] ==> bars[|bars| - 1].time == Bucket(rows[|rows| - 1].time, w))
  }

  lemma {:induction false} GatherIsSummary(rows: seq<Bar>, w: Width)
    requires Sorted(rows, BarTime)
    ensures Gathered(Gather(rows, w), rows, w)
  {
    hide AddBar, Gathered, InBucket;
    if rows == [] {
      GatheredNone(w);
    } else {
      var init, x := rows[..|rows| - 1], rows[|rows| - 1];
      assert init + [x] == rows && Gather(rows, w) == AddBar(Gather(init, w), x, w);
      GatherIsSummary(init, w);
      GatherOne(Gather(init, w), init, x, w);
    }
  }

  lemma GatheredNone(w: Width)
    ensures Gathered([], [], w)
  {
  }

  lemma InBucketOne(init: seq<Bar>, x: Bar, b: int, w: Width)
    ensures InBucket(init + [x], b, w) == InBucket(init, b, w) + if Bucket(x.time, w) == b then [x] else []
  {
    assert (init + [x])[..|init|] == init;
  }

  lemma GatherOne(bars: seq<Bar>, init: seq<Bar>, x: Bar, w: Width)
    requires Gathered(bars, init, w) && Sorted(init + [x], BarTime)
    ensures Gathered(AddBar(bars, x, w), init + [x], w)
  {
    hide Summarizes, Bucket, InBucket, Absorb;
    var b, rows, after := Bucket(x.time, w), init + [x], AddBar(bars, x, w);
    forall i | 0 <= i < |init| ensures Bucket(init[i].time, w) <= b {
      assert BarTime(rows[i]) <= BarTime(rows[|init|]);
      BucketMonotone(init[i].time, x.time, w);
    }
    forall i | 0 <= i < |bars| ensures bars[i].time <= b {
      if i < |bars| - 1 {
        assert BarTime(bars[i]) < BarTime(bars[|bars| - 1]);
      }
      assert init[|init| - 1] == rows[|init| - 1];
    }
    GatherOneRows(bars, init, x, w);
    GatherOneKeys(bars, init, x, w);
    assert rows[|rows| - 1] == x && after[|after| - 1].time == b;
    forall i, j | 0 <= i < j < |after| ensures BarTime(after[i]) < BarTime(after[j]) {
      if j < |bars| {
        assert BarTime(bars[i]) < BarTime(bars[j]);
      }
    }
  }

  lemma GatherOneKeys(bars: seq<Bar>, init: seq<Bar>, x: Bar, w: Width)
    requires forall i :: 0 <= i < |init| ==> HasKey(bars, BarTime, Bucket(init[i].time, w))
    ensures var rows := init + [x];
            forall i :: 0 <= i < |rows| ==> HasKey(AddBar(bars, x, w), BarTime, Bucket(rows[i].time, w))
  {
    hide Bucket;
    var rows, after := init + [x], AddBar(bars, x, w);
    forall i | 0 <= i < |rows| ensures HasKey(after, BarTime, Bucket(rows[i].time, w)) {
      if i < |init| {
        assert rows[i] == init[i];
        var j :| 0 <= j < |bars| && BarTime(bars[j]) == Bucket(init[i].time, w);
        assert BarTime(after[j]) == BarTime(bars[j]);
      } else {
        assert BarTime(after[|after| - 1]) == Bucket(x.time, w);
      }
    }
  }

  lemma GatherOneRows(bars: seq<Bar>, init: seq<Bar>, x: Bar, w: Width)
    requires Gathered(bars, init, w)
    requires forall i :: 0 <= i < |init| ==> Bucket(init[i].time, w) <= Bucket(x.time, w)
    requires forall i :: 0 <= i < |bars| ==> bars[i].time <= Bucket(x.time, w)
    ensures var after := AddBar(bars, x, w);
            forall i :: 0 <= i < |after| ==> Summarizes(after[i], InBucket(init + [x], after[i].time, w))
  {
    hide Summarizes, Bucket;
    var b, after := Bucket(x.time, w), AddBar(bars, x, w);
    forall i | 0 <= i < |after| ensures Summarizes(after[i], InBucket(init + [x], after[i].time, w)) {
      InBucketOne(init, x, after[i].time, w);
      if i < |after| - 1 {
        assert after[i] == bars[i];
        if |after| == |bars| {
          assert BarTime(bars[i]) < BarTime(bars[|bars| - 1]);
        } else {
          NewBucket(bars, init, x, w);
        }
      } else if |after| == |bars| {
        SummaryExtends(bars[i], InBucket(init, b, w), x);
      } else {
        NewBucket(bars, init, x, w);
        SummaryOfOne(x, b);
        assert InBucket(init + [x], b, w) == [] + [x] == [x];
      }
    }
  }

  /** When the last interval is an earlier one, none of the rows so far is in the new interval. */
  lemma NewBucket(bars: seq<Bar>, init: seq<Bar>, x: Bar, w: Width)
    requires Gathered(bars, init, w) && |AddBar(bars, x, w)| == |bars| + 1
    requires forall i :: 0 <= i < |bars| ==> bars[i].time <= Bucket(x.time, w)
    ensures InBucket(init, Bucket(x.time, w), w) == []
    ensures forall i :: 0 <= i < |bars| ==> bars[i].time < Bucket(x.time, w)
  {
    hide Summarizes, Bucket, InBucket;
    var b := Bucket(x.time, w);
    forall i | 0 <= i < |bars| ensures bars[i].time < b {
      if i < |bars| - 1 {
        assert BarTime(bars[i]) < BarTime(bars[|bars| - 1]);
      }
    }
    forall i | 0 <= i < |init| ensures Bucket(init[i].time, w) != b {
      var j :| 0 <= j < |bars| && BarTime(bars[j]) == Bucket(init[i].time, w);
    }
    BucketEmpty(init, b, w);
  }

  // ---- composition ----

  function Longer(w: Width): Width {
    match w
    case FiveMinutes => FifteenMinutes
    case FifteenMinutes => OneHour
    case OneHour => OneDay
    case OneDay => OneDay
  }

  lemma Nest900(t: int)
    ensures (t - t % 300) % 900 == (t - t % 300) - (t - t % 900)
  {
    var q, a := t / 300, t / 900;
    assert t == 300 * q + t % 300 && t == 900 * a + t % 900;
    assert 3 * a <= q < 3 * a + 3;
    Remainder900(300 * q, a, 300 * q - 900 * a);
  }

  lemma Remainder900(x: int, a: int, r: int)
    requires x == 900 * a + r && 0 <= r < 900
    ensures x % 900 == r
  {
  }

  lemma Remainder300(x: int, a: int, r: int)
    requires x == 300 * a + r && 0 <= r < 300
    ensures x % 300 == r
  {
  }

  lemma Nest3600(t: int)
    ensures (t - t % 900) % 3600 == (t - t % 900) - (t - t % 3600)
  {
    var q, a := t / 900, t / 3600;
    assert t == 900 * q + t % 900 && t == 3600 * a + t % 3600;
    assert 4 * a <= q < 4 * a + 4;
    Remainder3600(900 * q, a, 900 * q - 3600 * a);
  }

  lemma Remainder3600(x: int, a: int, r: int)
    requires x == 3600 * a + r && 0 <= r < 3600
    ensures x % 3600 == r
  {
  }

  lemma Nest86400(t: int)
    ensures (t - t % 3600) % 86400 == (t - t % 3600) - (t - t % 86400)
  {
    var q, a := t / 3600, t / 86400;
    assert t == 3600 * q + t % 3600 && t == 86400 * a + t % 86400;
    assert 24 * a <= q < 24 * a + 24;
    Remainder86400(3600 * q, a, 3600 * q - 86400 * a);
  }

  lemma Remainder86400(x: int, a: int, r: int)
    requires x == 86400 * a + r && 0 <= r < 86400
    ensures x % 86400 == r
  {
  }

  lemma BucketOfNext(t: int, w: Width)
    ensures Bucket(Bucket(t, w), Longer(w)) == Bucket(t, Longer(w))
  {
    match w {
      case FiveMinutes => Nest900(t);
      case FifteenMinutes => Nest3600(t);
      case OneHour => Nest86400(t);
      case OneDay => Remainder86400(t - t % 86400, t / 86400, 0);
    }
  }

  lemma BucketOfItself(t: int, w: Width)
    ensures Bucket(Bucket(t, w), w) == Bucket(t, w)
  {
    match w {
      case FiveMinutes => Remainder300(t - t % 300, t / 300, 0);
      case FifteenMinutes => Remainder900(t - t % 900, t / 900, 0);
      case OneHour => Remainder3600(t - t % 3600, t / 3600, 0);
      case OneDay => Remainder86400(t - t % 86400, t / 86400, 0);
    }
  }

  lemma {:induction false} BucketOfBucket(t: int, w: Width, v: Width)
    requires Seconds(w) <= Seconds(v)
    ensures Bucket(Bucket(t, w), v) == Bucket(t, v)
    decreases Seconds(v) - Seconds(w)
  {
    hide Bucket;
    if w == v {
      BucketOfItself(t, w);
    } else {
      BucketOfBucket(Bucket(t, w), Longer(w), v);
      BucketOfNext(t, w);
      BucketOfBucket(t, Longer(w), v);
    }
  }

  lemma AbsorbAssociates(c: Bar, a: Bar, x: Bar)
    ensures Absorb(Absorb(c, a), x) == Absorb(c, Absorb(a, x))
  {
  }

  /** Adding an interval's bar and then one more of its rows is adding the extended bar. */
  lemma AddTwice(bars: seq<Bar>, a: Bar, x: Bar, v: Width)
    requires Bucket(a.time, v) == Bucket(x.time, v)
    ensures AddBar(AddBar(bars, a, v), x, v) == AddBar(bars, Absorb(a, x), v)
  {
    hide Bucket;
    if bars != [] && bars[|bars| - 1].time == Bucket(a.time, v) {
      AbsorbAssociates(bars[|bars| - 1], a, x);
    }
    assert AddBar(bars, a, v)[..|AddBar(bars, a, v)| - 1] == AddBar(bars, Absorb(a, x), v)[..|AddBar(bars, a, v)| - 1];
  }

  lemma GatherAppend(bars: seq<Bar>, x: Bar, v: Width)
    ensures Gather(bars + [x], v) == AddBar(Gather(bars, v), x, v)
  {
    assert (bars + [x])[..|bars|] == bars;
  }

  lemma AddBarTime(bars: seq<Bar>, x: Bar, b: int, v: Width)
    requires Bucket(b, v) == Bucket(x.time, v)
    ensures AddBar(bars, x.(time := b), v) == AddBar(bars, x, v)
  {
    hide Bucket;
  }

  /** One more row, gathered finely and then coarsely, is one more row gathered coarsely. */
  lemma GatherAdded(fine: seq<Bar>, x: Bar, w: Width, v: Width)
    requires Seconds(w) <= Seconds(v)
    ensures Gather(AddBar(fine, x, w), v) == AddBar(Gather(fine, v), x, v)
  {
    hide Bucket, Gather, Absorb;
    BucketOfBucket(x.time, w, v);
    var b := Bucket(x.time, w);
    if fine != [] && fine[|fine| - 1].time == b {
      var rest, a := fine[..|fine| - 1], fine[|fine| - 1];
      assert fine == rest + [a];
      GatherAppend(rest, a, v);
      GatherAppend(rest, Absorb(a, x), v);
      AddTwice(Gather(rest, v), a, x, v);
    } else {
      GatherAppend(fine, x.(time := b), v);
      AddBarTime(Gather(fine, v), x, b, v);
    }
  }

  lemma {:induction false} GatherComposes(rows: seq<Bar>, w: Width, v: Width)
    requires Seconds(w) <= Seconds(v)
    ensures Gather(Gather(rows, w), v) == Gather(rows, v)
  {
    hide AddBar;
    if rows != [] {
      GatherComposes(rows[..|rows| - 1], w, v);
      GatherAdded(Gather(rows[..|rows| - 1], w), rows[|rows| - 1], w, v);
    }
  }

  /** Aggregating twice is aggregating once to the longer interval, for any rows in any order. */
  lemma AggregationComposes(rows: seq<Bar>, w: Width, v: Width)
    requires Seconds(w) <= Seconds(v)
    ensures Aggregate(Aggregate(rows, w), v) == Aggregate(rows, v)
  {
    SortIsSorted(rows, BarTime);
    GatherIsSummary(SortBy(rows, BarTime), w);
    SortOfSorted(Aggregate(rows, w), BarTime);
    GatherComposes(SortBy(rows, BarTime), w, v);
  }

  /** Every derived timeframe can be derived from every shorter one. */
  lemma DerivedTimeframesCompose(rows: seq<Bar>, fine: string, coarse: string)
    requires TargetWidth(fine).Some? && TargetWidth(coarse).Some?
    requires Seconds(TargetWidth(fine).value) <= Seconds(TargetWidth(coarse).value)
    ensures AggregateBars(AggregateBars(rows, fine).value, coarse) == AggregateBars(rows, coarse)
  {
    AggregationComposes(rows, TargetWidth(fine).value, TargetWidth(coarse).value);
  }

  /** The rows stamped from `from` on, for so many seconds, in order. */
  function Within(rows: seq<Bar>, from: int, seconds: nat): seq<Bar> {
    if rows == [] then []
    else
      var rest, x := Within(rows[..|rows| - 1], from, seconds), rows[|rows| - 1];
      if from <= x.time < from + seconds then rest + [x] else rest
  }

  lemma BucketIsInterval(t: int, b: int, w: Width)
    requires Aligned(b, Seconds(w))
    ensures Bucket(t, w) == b <==> b <= t < b + Seconds(w)
  {
    match w {
      case FiveMinutes => SameInterval(t, 300, t / 300, b / 300);
      case FifteenMinutes => SameInterval(t, 900, t / 900, b / 900);
      case OneHour => SameInterval(t, 3600, t / 3600, b / 3600);
      case OneDay => SameInterval(t, 86400, t / 86400, b / 86400);
    }
  }

  /** Of the intervals of length `n` only number `q` holds a time in it. */
  lemma SameInterval(t: int, n: int, q: int, k: int)
    requires n > 0 && n * q <= t < n * q + n
    ensures q == k <==> n * k <= t < n * k + n
  {
    LaterInterval(n, q, k);
    LaterInterval(n, k, q);
  }

  lemma LaterInterval(n: int, q: int, k: int)
    requires n > 0
    ensures q < k ==> n * q + n <= n * k
    decreases k - q
  {
    if q + 1 < k {
      LaterInterval(n, q + 1, k);
      assert n * (q + 1) == n * q + n;
    }
  }

  /** A whole number of intervals of so many seconds since midnight of day 0. */
  predicate Aligned(t: int, seconds: nat) {
    seconds > 0 && t % seconds == 0
  }

  lemma BucketAligned(t: int, w: Width)
    ensures Aligned(Bucket(t, w), Seconds(w))
  {
    hide Aligned;
    match w {
      case FiveMinutes => Multiple300(t / 300);
      case FifteenMinutes => Multiple900(t / 900);
      case OneHour => Multiple3600(t / 3600);
      case OneDay => Multiple86400(t / 86400);
    }
  }

  lemma Multiple300(q: int)
    ensures Aligned(300 * q, 300)
  {
  }

  lemma Multiple900(q: int)
    ensures Aligned(900 * q, 900)
  {
  }

  lemma Multiple3600(q: int)
    ensures Aligned(3600 * q, 3600)
  {
  }

  lemma Multiple86400(q: int)
    ensures Aligned(86400 * q, 86400)
  {
  }

  lemma {:induction false} InBucketIsWithin(rows: seq<Bar>, b: int, w: Width)
    requires Aligned(b, Seconds(w))
    ensures InBucket(rows, b, w) == Within(rows, b, Seconds(w))
  {
    hide Bucket, Aligned, Seconds;
    if rows != [] {
      InBucketIsWithin(rows[..|rows| - 1], b, w);
      BucketIsInterval(rows[|rows| - 1].time, b, w);
    }
  }

  /** A bar holds some row, so it is stamped where an interval starts. */
  lemma StampAligned(rows: seq<Bar>, b: int, w: Width)
    requires InBucket(rows, b, w) != []
    ensures Aligned(b, Seconds(w))
  {
    hide Bucket, Aligned;
    InBucketMember(rows, b, w);
    var x :| x in rows && Bucket(x.time, w) == b;
    BucketAligned(x.time, w);
  }

  lemma {:induction false} InBucketMember(rows: seq<Bar>, b: int, w: Width)
    ensures InBucket(rows, b, w) != [] ==> exists x :: x in rows && Bucket(x.time, w) == b
  {
    hide Bucket;
    if rows != [] && InBucket(rows, b, w) != [] {
      var init, last := rows[..|rows| - 1], rows[|rows| - 1];
      assert rows == init + [last];
      InBucketMember(init, b, w);
      if Bucket(last.time, w) == b {
        assert last in rows;
      } else {
        var x :| x in init && Bucket(x.time, w) == b;
        assert x in rows;
      }
    }
  }

  /** Bars of so many seconds: each starts at a whole number of them and summarizes exactly the rows stamped in them; every row is in one. */
  ghost predicate AreBarsOf(bars: seq<Bar>, rows: seq<Bar>, sorted: seq<Bar>, seconds: nat) {
    && Increasing(bars, BarTime)
    && (forall k :: 0 <= k < |bars| ==> Aligned(bars[k].time, seconds) && Summarizes(bars[k], Within(sorted, bars[k].time, seconds)))
    && forall x :: x in rows ==> exists k :: 0 <= k < |bars| && bars[k].time <= x.time < bars[k].time + seconds
  }

  lemma AggregateIsBarsOf(rows: seq<Bar>, w: Width)
    ensures AreBarsOf(Aggregate(rows, w), rows, SortBy(rows, BarTime), Seconds(w))
  {
    hide Bucket, Summarizes, Gather, Seconds, Aligned, Within, InBucket;
    var seconds := Seconds(w);
    var sorted, bars := SortBy(rows, BarTime), Aggregate(rows, w);
    SortIsSorted(rows, BarTime);
    GatherIsSummary(sorted, w);
    forall k | 0 <= k < |bars|
      ensures Aligned(bars[k].time, seconds) && Summarizes(bars[k], Within(sorted, bars[k].time, seconds))
    {
      BarIsInterval(sorted, bars[k], w);
    }
    forall x | x in rows ensures exists k :: 0 <= k < |bars| && bars[k].time <= x.time < bars[k].time + seconds {
      RowHasBar(bars, sorted, x, w);
    }
  }

  lemma RowHasBar(bars: seq<Bar>, sorted: seq<Bar>, x: Bar, w: Width)
    requires Gathered(bars, sorted, w) && x in sorted
    ensures exists k :: 0 <= k < |bars| && bars[k].time <= x.time < bars[k].time + Seconds(w)
  {
    hide Bucket, Seconds, Aligned, InBucket, Summarizes;
    var i :| 0 <= i < |sorted| && sorted[i] == x;
    assert HasKey(bars, BarTime, Bucket(sorted[i].time, w));
    var k :| 0 <= k < |bars| && BarTime(bars[k]) == Bucket(x.time, w);
    BucketAligned(x.time, w);
    BucketIsInterval(x.time, bars[k].time, w);
  }

  lemma BarIsInterval(sorted: seq<Bar>, bar: Bar, w: Width)
    requires Summarizes(bar, InBucket(sorted, bar.time, w))
    ensures Aligned(bar.time, Seconds(w)) && Summarizes(bar, Within(sorted, bar.time, Seconds(w)))
  {
    hide Bucket, Seconds, Aligned;
    SummaryHasRows(bar, InBucket(sorted, bar.time, w));
    StampAligned(sorted, bar.time, w);
    InBucketIsWithin(sorted, bar.time, w);
  }

  /**
   The derived timeframes by name. A bar of one of so many minutes starts at a whole number of them
   since midnight and summarizes exactly the rows stamped in those minutes; every row is in one.
   */
  lemma TargetBars(rows: seq<Bar>, target: string, minutes: nat)
    requires (target, minutes) in {("5min", 5), ("15min", 15), ("1h", 60), ("1d", 1440)}
    ensures AggregateBars(rows, target).Some?
    ensures AreBarsOf(AggregateBars(rows, target).value, rows, SortBy(rows, BarTime), 60 * minutes)
  {
    hide AreBarsOf, Aggregate;
    var w := TargetWidth(target).value;
    assert Seconds(w) == 60 * minutes;
    AggregateIsBarsOf(rows, w);
  }

  lemma SummaryHasRows(bar: Bar, rows: seq<Bar>)
    requires Summarizes(bar, rows)
    ensures rows != []
  {
  }

  /** One-minute bars are returned as they are, and no other name is known. */
  lemma OtherTargets(rows: seq<Bar>, target: string)
    requires target !in {"5min", "15min", "1h", "1d"}
    ensures AggregateBars(rows, target) == if target == "1min" then Some(rows) else None
  {
  }

  // ---- volume ----

  lemma {:induction false} GatherVolume(rows: seq<Bar>, w: Width)
    ensures TotalVolume(Gather(rows, w)) == TotalVolume(rows)
  {
    hide Bucket;
    if rows != [] {
      GatherVolume(rows[..|rows| - 1], w);
      var g := Gather(rows[..|rows| - 1], w);
      assert AddBar(g, rows[|rows| - 1], w)[..|AddBar(g, rows[|rows| - 1], w)| - 1] <= g;
    }
  }

  lemma {:induction false} InsertVolume(rows: seq<Bar>, x: Bar)
    ensures TotalVolume(Insert(rows, BarTime, x)) == TotalVolume(rows) + x.volume
  {
    if rows == [] || BarTime(rows[|rows| - 1]) <= BarTime(x) {
      assert (rows + [x])[..|rows|] == rows;
    } else {
      InsertVolume(rows[..|rows| - 1], x);
      var r := Insert(rows[..|rows| - 1], BarTime, x);
      assert (r + [rows[|rows| - 1]])[..|r|] == r;
    }
  }

  lemma {:induction false} SortVolume(rows: seq<Bar>)
    ensures TotalVolume(SortBy(rows, BarTime)) == TotalVolume(rows)
  {
    if rows != [] {
      SortVolume(rows[..|rows| - 1]);
      InsertVolume(SortBy(rows[..|rows| - 1], BarTime), rows[|rows| - 1]);
    }
  }

  lemma AggregationKeepsVolume(rows: seq<Bar>, w: Width)
    ensures TotalVolume(Aggregate(rows, w)) == TotalVolume(rows)
  {
    SortVolume(rows);
    GatherVolume(SortBy(rows, BarTime), w);
  }

  // ---- time ----

  ghost predicate MinuteAligned(rows: seq<Bar>) {
    forall i :: 0 <= i < |rows| ==> rows[i].time % 60 == 0
  }

  /** The minute that starts at `time` ends no later than the interval of width `w` that holds `time`. */
  predicate EndsInside(time: int, w: Width) {
    time - Bucket(time, w) <= Seconds(w) - 60
  }

  ghost predicate AllEndInside(rows: seq<Bar>, w: Width) {
    forall i :: 0 <= i < |rows| ==> EndsInside(rows[i].time, w)
  }

  /** Rows stamped on whole minutes end inside their interval, whatever its width. */
  lemma AlignedEndsInside(rows: seq<Bar>, w: Width)
    requires MinuteAligned(rows)
    ensures AllEndInside(rows, w)
  {
    forall i | 0 <= i < |rows| ensures EndsInside(rows[i].time, w) {
      WholeMinute(rows[i].time, w);
    }
  }

  lemma WholeMinute(time: int, w: Width)
    requires time % 60 == 0
    ensures EndsInside(time, w)
  {
    match w {
      case FiveMinutes => LastMinute(time, 300, time / 300, time / 60, 5);
      case FifteenMinutes => LastMinute(time, 900, time / 900, time / 60, 15);
      case OneHour => LastMinute(time, 3600, time / 3600, time / 60, 60);
      case OneDay => LastMinute(time, 86400, time / 86400, time / 60, 1440);
    }
  }

  /** A whole minute is at most a width less one minute into its interval. */
  lemma LastMinute(time: int, width: int, k: int, minutes: int, n: int)
    requires width == 60 * n && n > 0 && time == 60 * minutes && width * k <= time < width * k + width
    ensures time - width * k <= width - 60
  {
    var past := minutes - n * k;
    assert width * k == 60 * (n * k);
    assert 60 * past < 60 * n;
  }

  lemma {:induction false} ClosedIntervals(rows: seq<Bar>, w: Width, now: int)
    requires Sorted(rows, BarTime) && AllEndInside(rows, w)
    ensures UpTo(Gather(rows, w), BarTime, now - Seconds(w)) == UpTo(Gather(UpTo(rows, BarTime, now - 60), w), BarTime, now - Seconds(w))
  {
    hide Bucket;
    if rows != [] {
      var init, x := rows[..|rows| - 1], rows[|rows| - 1];
      if x.time <= now - 60 {
        UpToAll(rows, BarTime, now - 60);
      } else {
        ClosedIntervals(init, w, now);
        assert EndsInside(x.time, w);
        OpenBarHidden(Gather(init, w), x, w, now - Seconds(w));
      }
    }
  }

  lemma OpenBarHidden(bars: seq<Bar>, x: Bar, w: Width, t: int)
    requires Bucket(x.time, w) > t
    ensures UpTo(AddBar(bars, x, w), BarTime, t) == UpTo(bars, BarTime, t)
  {
    hide Bucket;
    var after := AddBar(bars, x, w);
    var kept := after[..|after| - 1];
    assert after == kept + [after[|after| - 1]];
    if |after| == |bars| {
      assert bars == kept + [bars[|bars| - 1]];
    } else {
      assert bars == kept;
    }
  }

  /**
   The derived bars closed at `now` depend only on the one-minute bars closed at `now`, as long as
   every row ends inside its interval.
   */
  lemma {:induction false} ClosedDerivedBars(a: seq<Bar>, b: seq<Bar>, w: Width, now: int)
    requires AllEndInside(a, w) && AllEndInside(b, w)
    requires UpTo(a, BarTime, now - 60) == UpTo(b, BarTime, now - 60)
    ensures UpTo(Aggregate(a, w), BarTime, now - Seconds(w)) == UpTo(Aggregate(b, w), BarTime, now - Seconds(w))
  {
    SortEndsInside(a, w);
    SortEndsInside(b, w);
    SortUpTo(a, BarTime, now - 60);
    SortUpTo(b, BarTime, now - 60);
    ClosedIntervals(SortBy(a, BarTime), w, now);
    ClosedIntervals(SortBy(b, BarTime), w, now);
  }

  lemma SortEndsInside(rows: seq<Bar>, w: Width)
    requires AllEndInside(rows, w)
    ensures Sorted(SortBy(rows, BarTime), BarTime) && AllEndInside(SortBy(rows, BarTime), w)
  {
    SortIsSorted(rows, BarTime);
    var sorted := SortBy(rows, BarTime);
    forall i | 0 <= i < |sorted| ensures EndsInside(sorted[i].time, w) {
      assert sorted[i] in sorted;
      var j :| 0 <= j < |rows| && rows[j] == sorted[i];
    }
  }

  /** At `now` the row is still open, yet a closed derived bar holds it. */
  predicate LeaksAt(x: Bar, w: Width, now: int) {
    UpTo([x], BarTime, now - 60) == [] && UpTo(Aggregate([x], w), BarTime, now - Seconds(w)) != []
  }

  lemma LeakTimes(x: Bar, w: Width, now: int)
    ensures LeaksAt(x, w, now) <==> Bucket(x.time, w) + Seconds(w) <= now < x.time + 60
  {
    hide Bucket;
    var y := x.(time := Bucket(x.time, w));
    assert [x][..0] == [] && [y][..0] == [];
    assert SortBy([x], BarTime) == [x];
    assert Gather([x], w) == [y];
    assert UpTo([x], BarTime, now - 60) == if x.time <= now - 60 then [x] else [];
    assert UpTo([y], BarTime, now - Seconds(w)) == if y.time <= now - Seconds(w) then [y] else [];
  }

  /** A row leaks into a closed derived bar at some time exactly when it does not end inside its interval. */
  lemma RowLeaksExactly(x: Bar, w: Width)
    ensures (exists now :: LeaksAt(x, w, now)) <==> !EndsInside(x.time, w)
  {
    hide Bucket, LeaksAt;
    forall now ensures LeaksAt(x, w, now) <==> Bucket(x.time, w) + Seconds(w) <= now < x.time + 60 {
      LeakTimes(x, w, now);
    }
    if !EndsInside(x.time, w) {
      assert LeaksAt(x, w, Bucket(x.time, w) + Seconds(w));
    }
  }
}
