/** One-pass drawdown depth and duration, and the longest winning and losing streaks. */
module Metrics {
  import opened Common

  datatype Summary = Summary(maxPct: real, maxDollars: real, maxDuration: nat, maxWins: nat, maxLosses: nat)

  const EMPTY := Summary(0.0, 0.0, 0, 0, 0)

  /** Loss from `peak` to `e` in percent; a peak that is not positive has none. */
  function LossPct(peak: real, e: real): real {
    if peak > 0.0 then (peak - e) / peak * 100.0 else 0.0
  }

  /** `p` is a strict record that nothing before `n` exceeds. */
  ghost predicate IsPeak(equities: seq<real>, p: int, n: int) {
    && 0 <= p < n <= |equities|
    && (forall k :: 0 <= k < p ==> equities[k] < equities[p])
    && (forall k :: p < k < n ==> equities[k] <= equities[p])
  }

  /** Where the first `n` values first reach their maximum. */
  ghost function PeakIndex(equities: seq<real>, n: nat): (p: nat)
    requires 1 <= n <= |equities|
    ensures IsPeak(equities, p, n)
  {
    if n == 1 then 0
    else
      var p := PeakIndex(equities, n - 1);
      if equities[n - 1] > equities[p] then n - 1 else p
  }

  /** The value at `j` and the highest value so far. */
  ghost function PeakAt(equities: seq<real>, j: int): real
    requires 0 <= j < |equities|
  {
    equities[PeakIndex(equities, j + 1)]
  }

  ghost function LossAt(equities: seq<real>, j: int): real
    requires 0 <= j < |equities|
  {
    LossPct(PeakAt(equities, j), equities[j])
  }

  /** `pct` is the worst loss among the first `n`, and `dollars` the amount lost the first time it was reached. */
  ghost predicate WorstLoss(equities: seq<real>, n: int, pct: real, dollars: real) {
    && 0 <= n <= |equities|
    && (forall j :: 0 <= j < n ==> LossAt(equities, j) <= pct)
    && (if pct > 0.0 then exists j :: 0 <= j < n && FirstWorst(equities, j, pct, dollars) else pct == 0.0 && dollars == 0.0)
  }

  ghost predicate FirstWorst(equities: seq<real>, j: int, pct: real, dollars: real) {
    && 0 <= j < |equities|
    && LossAt(equities, j) == pct && PeakAt(equities, j) - equities[j] == dollars
    && forall i :: 0 <= i < j ==> LossAt(equities, i) < pct
  }

  /** A dip below the record at `p`, before index `r`. */
  ghost predicate Dips(equities: seq<real>, p: int, r: int) {
    exists k :: 0 <= p < k < r <= |equities| && equities[k] < equities[p]
  }

  /** From a record down and back to the first value above it. */
  ghost predicate Recovered(equities: seq<real>, p: int, r: int) {
    IsPeak(equities, p, r) && r < |equities| && equities[r] > equities[p] && Dips(equities, p, r)
  }

  /** A drawdown from `p` to `r`: to its recovery, or to the end of a curve that never recovers. */
  ghost predicate Drawdown(equities: seq<real>, p: int, r: int) {
    || Recovered(equities, p, r)
    || (r == |equities| - 1 && IsPeak(equities, p, |equities|) && Dips(equities, p, |equities|))
  }

  /** `d` is the length of the longest recovered drawdown before `n`, or zero without one. */
  ghost predicate LongestRecovered(equities: seq<real>, n: int, d: int) {
    && (forall p, r :: Recovered(equities, p, r) && r < n ==> r - p <= d)
    && (d > 0 ==> exists p, r :: Recovered(equities, p, r) && r < n && r - p == d)
  }

  /** `d` is the length of the longest drawdown, or zero without one. */
  ghost predicate LongestDrawdown(equities: seq<real>, d: int) {
    && (forall p, r :: Drawdown(equities, p, r) ==> r - p <= d)
    && (d > 0 ==> exists p, r :: Drawdown(equities, p, r) && r - p == d)
  }

  lemma PeakUnique(equities: seq<real>, p: int, q: int, n: int)
    requires IsPeak(equities, p, n) && IsPeak(equities, q, n)
    ensures p == q
  {
    assert equities[p] <= equities[q] && equities[q] <= equities[p];
  }

  /** Taking one more value into account. */
  lemma WorstLossStep(equities: seq<real>, p: int, j: int, pct: real, dollars: real)
    requires IsPeak(equities, p, j + 1) && WorstLoss(equities, j, pct, dollars)
    ensures var loss := LossPct(equities[p], equities[j]);
            if loss > pct then WorstLoss(equities, j + 1, loss, equities[p] - equities[j])
            else WorstLoss(equities, j + 1, pct, dollars)
  {
    hide LossPct, PeakIndex;
    PeakUnique(equities, p, PeakIndex(equities, j + 1), j + 1);
    if LossPct(equities[p], equities[j]) > pct {
      assert FirstWorst(equities, j, LossPct(equities[p], equities[j]), equities[p] - equities[j]);
    }
  }

  /** A drawdown recovers at `r` only from the peak before it, so one more value adds at most one. */
  lemma RecoveredStep(equities: seq<real>, peak: int, n: int, d: int)
    requires IsPeak(equities, peak, n) && n < |equities| && LongestRecovered(equities, n, d)
    ensures Recovered(equities, peak, n) ==> LongestRecovered(equities, n + 1, if n - peak > d then n - peak else d)
    ensures !Recovered(equities, peak, n) ==> LongestRecovered(equities, n + 1, d)
  {
    hide IsPeak;
    forall p | Recovered(equities, p, n) ensures p == peak {
      PeakUnique(equities, p, peak, n);
    }
    assert forall p, r :: Recovered(equities, p, r) && r < n + 1 ==> r < n || r == n;
  }

  lemma OpenStep(equities: seq<real>, peak: int, d: int)
    requires IsPeak(equities, peak, |equities|) && LongestRecovered(equities, |equities|, d)
    ensures var open := |equities| - 1 - peak;
            LongestDrawdown(equities, if Dips(equities, peak, |equities|) && open > d then open else d)
  {
    hide IsPeak;
    var n, open := |equities|, |equities| - 1 - peak;
    forall p | IsPeak(equities, p, n) ensures p == peak {
      PeakUnique(equities, p, peak, n);
    }
    RecoveredInside(equities);
    if Dips(equities, peak, n) {
      assert Drawdown(equities, peak, n - 1);
    }
  }

  lemma RecoveredInside(equities: seq<real>)
    ensures forall p, r :: Recovered(equities, p, r) ==> r < |equities| && Drawdown(equities, p, r)
  {
  }

  /** Depth in percent and dollars, and duration in bars, in one pass. */
  method MaxDrawdown(equities: seq<real>) returns (maxPct: real, maxDollars: real, maxDuration: nat)
    requires equities != []
    ensures WorstLoss(equities, |equities|, maxPct, maxDollars)
    ensures LongestDrawdown(equities, maxDuration)
  {
    hide WorstLoss, LongestRecovered, LongestDrawdown;
    var peak, peakIndex := equities[0], 0;
    maxPct, maxDollars, maxDuration := 0.0, 0.0, 0;
    var start: Option<nat> := None;
    NothingYet(equities);
    for i := 0 to |equities|
      invariant if i == 0 then peakIndex == 0 else IsPeak(equities, peakIndex, i)
      invariant peak == equities[peakIndex]
      invariant start == if Dips(equities, peakIndex, i) then Some(peakIndex) else None
      invariant WorstLoss(equities, i, maxPct, maxDollars) && maxPct >= 0.0
      invariant LongestRecovered(equities, i, maxDuration)
    {
      var equity := equities[i];
      if i > 0 {
        RecoveredStep(equities, peakIndex, i, maxDuration);
      } else {
        NoneAtStart(equities);
      }
      if equity > peak {
        if start.Some? {
          maxDuration := if i - start.value > maxDuration then i - start.value else maxDuration;
          start := None;
        }
        peak, peakIndex := equity, i;
        WorstLossStep(equities, i, i, maxPct, maxDollars);
      } else {
        WorstLossStep(equities, peakIndex, i, maxPct, maxDollars);
        var loss := if peak > 0.0 then (peak - equity) / peak * 100.0 else 0.0;
        if loss > maxPct {
          maxPct, maxDollars := loss, peak - equity;
        }
        DipsStep(equities, peakIndex, i);
        if equity < peak && start.None? {
          start := Some(peakIndex);
        }
      }
    }
    OpenStep(equities, peakIndex, maxDuration);
    if start.Some? {
      var open := |equities| - 1 - start.value;
      maxDuration := if open > maxDuration then open else maxDuration;
    }
  }

  lemma NothingYet(equities: seq<real>)
    ensures WorstLoss(equities, 0, 0.0, 0.0) && LongestRecovered(equities, 0, 0)
  {
  }

  lemma NoneAtStart(equities: seq<real>)
    requires equities != []
    ensures forall d :: LongestRecovered(equities, 0, d) ==> LongestRecovered(equities, 1, d)
  {
  }

  lemma DipsStep(equities: seq<real>, p: int, n: int)
    requires 0 <= p <= n < |equities|
    ensures Dips(equities, p, n + 1) <==> Dips(equities, p, n) || (p < n && equities[n] < equities[p])
  {
  }

  // ---- the quadratic definition ----

  /** No value of the curve is below `floor`. */
  ghost predicate AtLeast(equities: seq<real>, floor: real) {
    forall i :: 0 <= i < |equities| ==> equities[i] >= floor
  }

  /** The share lost between two points of the curve. */
  predicate LosesBetween(equities: seq<real>, i: int, j: int, pct: real) {
    0 <= i <= j < |equities| && LossPct(equities[i], equities[j]) == pct
  }

  /** `pct` is the maximum over all pairs i <= j of the share lost between them. */
  ghost predicate PairMaximum(equities: seq<real>, pct: real) {
    && (forall i, j, loss :: LosesBetween(equities, i, j, loss) ==> loss <= pct)
    && exists i, j :: LosesBetween(equities, i, j, pct)
  }

  /** Falling to the same value from a higher peak loses a larger share of it. */
  lemma HigherPeakLosesMore(low: real, high: real, e: real)
    requires low <= high && 0.0 <= e <= high
    ensures LossPct(low, e) <= LossPct(high, e)
  {
    if low > 0.0 {
      var a, b := (low - e) / low, (high - e) / high;
      assert a * low == low - e && b * high == high - e;
      ShareGrows(low, high, e, a, b);
    } else if high > 0.0 {
      assert (high - e) / high >= 0.0;
    }
  }

  lemma ShareGrows(low: real, high: real, e: real, a: real, b: real)
    requires 0.0 < low <= high && e >= 0.0 && a * low == low - e && b * high == high - e
    ensures a <= b
  {
    assert (1.0 - a) * low == e && (1.0 - b) * high == e;
    SmallerFactor(1.0 - a, low, 1.0 - b, high);
  }

  lemma SmallerFactor(a: real, low: real, b: real, high: real)
    requires 0.0 < low <= high && a * low == b * high >= 0.0
    ensures a >= b
  {
    assert b >= 0.0;
    assert b * low <= b * high;
  }

  /** On curves that never go negative the one-pass depth is the maximum over all pairs. */
  lemma DepthIsQuadratic(equities: seq<real>, pct: real, dollars: real)
    requires equities != [] && AtLeast(equities, 0.0) && WorstLoss(equities, |equities|, pct, dollars)
    ensures PairMaximum(equities, pct)
  {
    hide LossPct, PeakIndex;
    forall i, j, loss | LosesBetween(equities, i, j, loss) ensures loss <= pct {
      var p := PeakIndex(equities, j + 1);
      assert LossAt(equities, j) <= pct;
      HigherPeakLosesMore(equities[i], equities[p], equities[j]);
    }
    if pct > 0.0 {
      var j :| 0 <= j < |equities| && FirstWorst(equities, j, pct, dollars);
      assert LosesBetween(equities, PeakIndex(equities, j + 1), j, pct);
    } else {
      NoLossAtOnce(equities[0]);
      assert LosesBetween(equities, 0, 0, pct);
    }
  }

  lemma NoLossAtOnce(e: real)
    ensures LossPct(e, e) == 0.0
  {
  }

  /** Every curve that stays at or above `floor` has the depth of its pairs. */
  ghost predicate DepthExactAbove(floor: real) {
    forall equities, pct, dollars ::
      equities != [] && AtLeast(equities, floor) && WorstLoss(equities, |equities|, pct, dollars) ==> PairMaximum(equities, pct)
  }

  /** A curve that ends below zero loses more of its first, lower peak than of its highest one. */
  lemma NegativeEnd(floor: real)
    requires floor < 0.0
    ensures var equities := [1.0, 2.0, floor];
            && equities != [] && AtLeast(equities, floor) && WorstLoss(equities, |equities|, 100.0 - 50.0 * floor, 2.0 - floor)
            && !PairMaximum(equities, 100.0 - 50.0 * floor)
  {
    hide WorstLoss;
    var equities := [1.0, 2.0, floor];
    NothingYet(equities);
    WorstLossStep(equities, 0, 0, 0.0, 0.0);
    WorstLossStep(equities, 1, 1, 0.0, 0.0);
    WorstLossStep(equities, 1, 2, 0.0, 0.0);
    assert LosesBetween(equities, 0, 2, 100.0 - 100.0 * floor);
  }

  /**
   Depth. The one-pass depth is the maximum over all pairs on every curve that stays at or above a
   floor exactly when that floor is not negative.
   */
  lemma DepthIsExactAboveZero(floor: real)
    ensures DepthExactAbove(floor) <==> floor >= 0.0
  {
    hide WorstLoss, PairMaximum;
    if floor >= 0.0 {
      forall equities, pct, dollars | equities != [] && AtLeast(equities, floor) && WorstLoss(equities, |equities|, pct, dollars)
        ensures PairMaximum(equities, pct)
      {
        DepthIsQuadratic(equities, pct, dollars);
      }
    } else {
      NegativeEnd(floor);
      var equities := [1.0, 2.0, floor];
      assert WorstLoss(equities, |equities|, 100.0 - 50.0 * floor, 2.0 - floor) && !PairMaximum(equities, 100.0 - 50.0 * floor);
    }
  }

  // ---- streaks ----

  /** Trades `lo` up to `hi` all win, or all do not. */
  ghost predicate Run(pnls: seq<real>, winning: bool, lo: int, hi: int) {
    0 <= lo <= hi <= |pnls| && forall k :: lo <= k < hi ==> (pnls[k] > 0.0) == winning
  }

  ghost predicate LongestRun(pnls: seq<real>, winning: bool, n: int, longest: int) {
    && (forall lo, hi :: Run(pnls, winning, lo, hi) && hi <= n ==> hi - lo <= longest)
    && (exists lo, hi :: Run(pnls, winning, lo, hi) && hi <= n && hi - lo == longest)
  }

  /** The run that ends at `n` cannot be extended backwards. */
  ghost predicate CurrentRun(pnls: seq<real>, winning: bool, n: int, current: int) {
    && 0 <= current <= n
    && Run(pnls, winning, n - current, n)
    && (current < n ==> (pnls[n - current - 1] > 0.0) != winning)
  }

  lemma RunStep(pnls: seq<real>, winning: bool, n: int, current: int, longest: int)
    requires n < |pnls| && CurrentRun(pnls, winning, n, current) && LongestRun(pnls, winning, n, longest)
    ensures var now := if (pnls[n] > 0.0) == winning then current + 1 else 0;
            CurrentRun(pnls, winning, n + 1, now) && LongestRun(pnls, winning, n + 1, if now > longest then now else longest)
  {
    var now := if (pnls[n] > 0.0) == winning then current + 1 else 0;
    forall lo, hi | Run(pnls, winning, lo, hi) && hi <= n + 1 ensures hi - lo <= (if now > longest then now else longest) {
      assert hi == n + 1 && lo < hi ==> (pnls[n] > 0.0) == winning && (current < n ==> lo > n - current - 1);
    }
    assert Run(pnls, winning, n + 1 - now, n + 1);
  }

  lemma NoRunYet(pnls: seq<real>, winning: bool)
    ensures CurrentRun(pnls, winning, 0, 0) && LongestRun(pnls, winning, 0, 0)
  {
    assert Run(pnls, winning, 0, 0);
  }

  /** The longest runs of winning and of losing trades. */
  method Streaks(pnls: seq<real>) returns (maxWins: nat, maxLosses: nat)
    ensures LongestRun(pnls, true, |pnls|, maxWins) && LongestRun(pnls, false, |pnls|, maxLosses)
  {
    hide LongestRun, CurrentRun;
    maxWins, maxLosses := 0, 0;
    var wins, losses := 0, 0;
    NoRunYet(pnls, true);
    NoRunYet(pnls, false);
    for i := 0 to |pnls|
      invariant CurrentRun(pnls, true, i, wins) && CurrentRun(pnls, false, i, losses)
      invariant LongestRun(pnls, true, i, maxWins) && LongestRun(pnls, false, i, maxLosses)
    {
      RunStep(pnls, true, i, wins, maxWins);
      RunStep(pnls, false, i, losses, maxLosses);
      if pnls[i] > 0.0 {
        wins, losses := wins + 1, 0;
        maxWins := if wins > maxWins then wins else maxWins;
      } else {
        losses, wins := losses + 1, 0;
        maxLosses := if losses > maxLosses then losses else maxLosses;
      }
    }
  }

  /** A curve with fewer than two points has no metrics, whatever the trades were. */
  method Compute(equities: seq<real>, pnls: seq<real>) returns (s: Summary)
    ensures |equities| < 2 ==> s == EMPTY
    ensures |equities| >= 2 ==> WorstLoss(equities, |equities|, s.maxPct, s.maxDollars) && LongestDrawdown(equities, s.maxDuration)
    ensures |equities| >= 2 ==> LongestRun(pnls, true, |pnls|, s.maxWins) && LongestRun(pnls, false, |pnls|, s.maxLosses)
  {
    if |equities| < 2 {
      return EMPTY;
    }
    var pct, dollars, duration := MaxDrawdown(equities);
    var wins, losses := Streaks(pnls);
    return Summary(pct, dollars, duration, wins, losses);
  }
}
