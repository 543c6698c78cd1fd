/**
 * The helper functions a custom rule script can call: Fibonacci retracement
 * levels, the peak/trough scan of `wave_analysis`, and the `is_*` condition
 * checks. The checks take pandas floats, so a NaN argument is `None` and
 * every ordered comparison with it is false.
 */
module RuleHelpers {
  import opened Wrappers
  import Series
  import MaCross
  import Rsi

  // ---------------------------------------------------------------------------
  // fibonacci_retracements
  // ---------------------------------------------------------------------------

  /** The five retracement levels, named by their ratio in thousandths. */
  datatype Levels = Levels(level236: real, level382: real, level500: real, level618: real, level786: real)

  /** The level `ratio` of the way down from `high` towards `low`. */
  function Retrace(high: real, low: real, ratio: real): real
  {
    high - (high - low) * ratio
  }

  /** `fibonacci_retracements(high_price, low_price)`. */
  function FibonacciRetracements(high: real, low: real): (l: Levels)
  {
    Levels(Retrace(high, low, 0.236), Retrace(high, low, 0.382), Retrace(high, low, 0.5),
           Retrace(high, low, 0.618), Retrace(high, low, 0.786))
  }

  /**
   * A level's distance below `high` is its ratio of the range. With
   * `high >= low` the levels descend from `high` towards `low` and all lie
   * between them; with `high < low` the order reverses. The 50% level is the
   * midpoint, and the 38.2% and 61.8% levels sit symmetrically about it.
   */
  lemma FibonacciLevels(high: real, low: real)
    ensures var l := FibonacciRetracements(high, low);
            var d := high - low;
            high - l.level236 == d * 0.236 && high - l.level382 == d * 0.382
            && high - l.level500 == d * 0.5 && high - l.level618 == d * 0.618
            && high - l.level786 == d * 0.786
            && (low <= high ==> low <= l.level786 <= l.level618 <= l.level500 <= l.level382 <= l.level236 <= high)
            && (high < low ==> high < l.level236 < l.level382 < l.level500 < l.level618 < l.level786 < low)
            && l.level500 * 2.0 == high + low
            && l.level382 + l.level618 == high + low
  {
  }

  // ---------------------------------------------------------------------------
  // wave_analysis
  // ---------------------------------------------------------------------------

  /** The two kinds of turning point. */
  datatype Turn = Peak | Trough

  /** Index `j` is an interior point strictly above (a peak) or strictly below (a trough) both neighbours. */
  predicate IsTurn(s: seq<real>, kind: Turn, j: nat)
  {
    1 <= j && j + 1 < |s|
    && match kind
       case Peak => s[j] > s[j - 1] && s[j] > s[j + 1]
       case Trough => s[j] < s[j - 1] && s[j] < s[j + 1]
  }

  /** The turning points of one kind among the first `n` indices, as `(index, value)` pairs in index order. */
  function Turns(s: seq<real>, kind: Turn, n: nat): (ts: seq<(nat, real)>)
    requires n <= |s|
    ensures |ts| <= n
  {
    if n == 0 then []
    else Turns(s, kind, n - 1) + (if IsTurn(s, kind, n - 1) then [(n - 1, s[n - 1])] else [])
  }

  /** The pairs `wave_analysis` lists under `'peaks'`. */
  function Peaks(s: seq<real>): seq<(nat, real)>
  {
    Turns(s, Peak, |s|)
  }

  /** The pairs `wave_analysis` lists under `'troughs'`. */
  function Troughs(s: seq<real>): seq<(nat, real)>
  {
    Turns(s, Trough, |s|)
  }

  /**
   * `wave_analysis(series)`: one pass over the interior indices, appending a
   * peak, or else a trough. The `period` argument is unused by the source and
   * is not a parameter here.
   */
  method WaveAnalysis(s: seq<real>) returns (peaks: seq<(nat, real)>, troughs: seq<(nat, real)>)
    ensures peaks == Peaks(s) && troughs == Troughs(s)
  {
    peaks, troughs := [], [];
    var j := 1;
    while j < |s| - 1
      invariant 1 <= j
      invariant j <= |s| - 1 || j == 1
      invariant peaks == Turns(s, Peak, if j <= |s| then j else |s|)
      invariant troughs == Turns(s, Trough, if j <= |s| then j else |s|)
    {
      if s[j] > s[j - 1] && s[j] > s[j + 1] {
        peaks := peaks + [(j, s[j])];
      } else if s[j] < s[j - 1] && s[j] < s[j + 1] {
        troughs := troughs + [(j, s[j])];
      }
      j := j + 1;
    }
  }

  /** A pair is listed exactly when its index is a turning point of that kind below `n` and its value is the series value there. */
  lemma {:induction false} TurnsMembers(s: seq<real>, kind: Turn, n: nat)
    requires n <= |s|
    ensures forall p :: p in Turns(s, kind, n) <==> p.0 < n && IsTurn(s, kind, p.0) && p.1 == s[p.0]
  {
    if n > 0 {
      TurnsMembers(s, kind, n - 1);
    }
  }

  /** The listed indices strictly increase and stay below `n`. */
  lemma {:induction false} TurnsOrdered(s: seq<real>, kind: Turn, n: nat)
    requires n <= |s|
    ensures forall a, b :: 0 <= a < b < |Turns(s, kind, n)| ==> Turns(s, kind, n)[a].0 < Turns(s, kind, n)[b].0
    ensures forall a :: 0 <= a < |Turns(s, kind, n)| ==> Turns(s, kind, n)[a].0 < n
  {
    if n > 0 {
      TurnsOrdered(s, kind, n - 1);
      var prev, ts := Turns(s, kind, n - 1), Turns(s, kind, n);
      assert forall a :: 0 <= a < |prev| ==> ts[a] == prev[a];
    }
  }

  /**
   * The peaks are exactly the interior strict local maxima and the troughs
   * exactly the interior strict local minima, each paired with its value;
   * both lists are in increasing index order, and no index is in both.
   */
  lemma WaveAnalysisSound(s: seq<real>)
    ensures forall p :: p in Peaks(s) <==> IsTurn(s, Peak, p.0) && p.1 == s[p.0]
    ensures forall p :: p in Troughs(s) <==> IsTurn(s, Trough, p.0) && p.1 == s[p.0]
    ensures forall a, b :: 0 <= a < b < |Peaks(s)| ==> Peaks(s)[a].0 < Peaks(s)[b].0
    ensures forall a, b :: 0 <= a < b < |Troughs(s)| ==> Troughs(s)[a].0 < Troughs(s)[b].0
    ensures forall p, q :: p in Peaks(s) && q in Troughs(s) ==> p.0 != q.0
  {
    TurnsMembers(s, Peak, |s|);
    TurnsMembers(s, Trough, |s|);
    TurnsOrdered(s, Peak, |s|);
    TurnsOrdered(s, Trough, |s|);
  }

  // ---------------------------------------------------------------------------
  // Condition checks
  // ---------------------------------------------------------------------------

  /** The default thresholds of `is_oversold`, `is_overbought` and the breakout volume ratio. */
  const OversoldDefault := 30.0
  const OverboughtDefault := 70.0
  const VolumeRatioDefault := 1.5

  /** `is_golden_cross`: fast above slow now, at or below it on the previous bar. */
  predicate IsGoldenCross(fast: Option<real>, slow: Option<real>, prevFast: Option<real>, prevSlow: Option<real>)
  {
    Series.Gt(fast, slow) && Series.Le(prevFast, prevSlow)
  }

  /** `is_death_cross`: fast below slow now, at or above it on the previous bar. */
  predicate IsDeathCross(fast: Option<real>, slow: Option<real>, prevFast: Option<real>, prevSlow: Option<real>)
  {
    Series.Lt(fast, slow) && Series.Ge(prevFast, prevSlow)
  }

  /**
   * The two crosses never hold together, neither holds when any argument is
   * NaN, and on two moving-average series they are exactly the golden and
   * death crosses the MA-cross strategy detects at that bar.
   */
  lemma CrossChecks(fast: Option<real>, slow: Option<real>, prevFast: Option<real>, prevSlow: Option<real>)
    ensures !(IsGoldenCross(fast, slow, prevFast, prevSlow) && IsDeathCross(fast, slow, prevFast, prevSlow))
    ensures (fast.None? || slow.None? || prevFast.None? || prevSlow.None?) ==>
              !IsGoldenCross(fast, slow, prevFast, prevSlow) && !IsDeathCross(fast, slow, prevFast, prevSlow)
  {
  }

  /** On bar `i` of two average series, the script's checks agree with the strategy's cross detection. */
  lemma CrossChecksMatchStrategy(shortMa: seq<Option<real>>, longMa: seq<Option<real>>, i: nat)
    requires 0 < i < |shortMa| == |longMa|
    ensures IsGoldenCross(shortMa[i], longMa[i], shortMa[i - 1], longMa[i - 1]) <==> MaCross.Golden(shortMa, longMa, i)
    ensures IsDeathCross(shortMa[i], longMa[i], shortMa[i - 1], longMa[i - 1]) <==> MaCross.Death(shortMa, longMa, i)
  {
  }

  /** `is_oversold(rsi, threshold)`: strictly below the threshold. */
  predicate IsOversold(rsi: Option<real>, threshold: real)
  {
    Series.Lt(rsi, Some(threshold))
  }

  /** `is_overbought(rsi, threshold)`: strictly above the threshold. */
  predicate IsOverbought(rsi: Option<real>, threshold: real)
  {
    Series.Gt(rsi, Some(threshold))
  }

  /**
   * With thresholds in order, no RSI is both oversold and overbought; a NaN
   * RSI is neither; and with the default thresholds the checks are the RSI
   * strategy's own entry and exit conditions.
   */
  lemma RsiChecks(rsi: Option<real>, low: real, high: real)
    ensures low <= high ==> !(IsOversold(rsi, low) && IsOverbought(rsi, high))
    ensures rsi.None? ==> !IsOversold(rsi, low) && !IsOverbought(rsi, high)
    ensures rsi.Some? ==> (IsOversold(rsi, low) <==> rsi.value < low) && (IsOverbought(rsi, high) <==> rsi.value > high)
    ensures OversoldDefault == Rsi.DefaultConfig.oversold && OverboughtDefault == Rsi.DefaultConfig.overbought
  {
  }

  /** `is_breakout`: price above resistance with a volume ratio above the hard-coded 1.5. */
  predicate IsBreakout(price: Option<real>, resistance: Option<real>, volumeRatio: real)
  {
    Series.Gt(price, resistance) && volumeRatio > 1.5
  }

  /** `is_breakdown`: price below support with a volume ratio above the hard-coded 1.5. */
  predicate IsBreakdown(price: Option<real>, support: Option<real>, volumeRatio: real)
  {
    Series.Lt(price, support) && volumeRatio > 1.5
  }

  /**
   * The volume test compares against the same 1.5 that is the argument's
   * default, so a call that leaves the ratio at its default never reports a
   * breakout or a breakdown; with a larger ratio only the price test remains,
   * and the two never hold together.
   */
  lemma BreakChecks(price: Option<real>, level: Option<real>, volumeRatio: real)
    ensures !IsBreakout(price, level, VolumeRatioDefault) && !IsBreakdown(price, level, VolumeRatioDefault)
    ensures volumeRatio > VolumeRatioDefault ==>
              (IsBreakout(price, level, volumeRatio) <==> Series.Gt(price, level))
              && (IsBreakdown(price, level, volumeRatio) <==> Series.Lt(price, level))
    ensures !(IsBreakout(price, level, volumeRatio) && IsBreakdown(price, level, volumeRatio))
  {
  }

  /** `np.sign`: -1, 0 or 1, and NaN for NaN. */
  function Sign(x: Option<real>): (r: Option<int>)
    ensures r.None? <==> x.None?
  {
    match x
    case None => None
    case Some(v) => Some(if v < 0.0 then -1 else if v > 0.0 then 1 else 0)
  }

  /** `is_divergence`: the signs differ; a NaN sign differs from everything, itself included. */
  predicate IsDivergence(priceTrend: Option<real>, indicatorTrend: Option<real>)
  {
    var a, b := Sign(priceTrend), Sign(indicatorTrend);
    !(a.Some? && b.Some? && a.value == b.value)
  }

  /**
   * Two defined trends diverge exactly when they point in opposite directions
   * or exactly one of them is flat; a NaN trend always diverges. The check is
   * symmetric.
   */
  lemma DivergenceChecks(p: Option<real>, q: Option<real>)
    ensures p.Some? && q.Some? ==>
              (IsDivergence(p, q) <==> p.value * q.value < 0.0 || ((p.value == 0.0) != (q.value == 0.0)))
    ensures p.None? || q.None? ==> IsDivergence(p, q)
    ensures IsDivergence(p, q) == IsDivergence(q, p)
  {
    if p.Some? && q.Some? {
      var x, y := p.value, q.value;
      if x < 0.0 && y > 0.0 { assert x * y < 0.0; }
      if x > 0.0 && y < 0.0 { assert x * y < 0.0; }
      if x > 0.0 && y > 0.0 { assert x * y > 0.0; }
      if x < 0.0 && y < 0.0 { assert x * y > 0.0; }
    }
  }
}
