/**
 * The moving-average cross strategy (backend/strategies/ma_cross_strategy.py):
 * a golden cross (the short average rising through the long one) is a +1
 * trade signal, a death cross a -1; the position column folds those signals
 * into long/flat; the equity curve compounds the close-to-close returns of
 * the bars the position column marks as held.
 */
module MaCross {
  import opened Wrappers
  import opened Market
  import Series
  import Signals
  import StrategyMetrics

  // ---------------------------------------------------------------------------
  // Cross detection
  // ---------------------------------------------------------------------------

  /** `series.shift(1)[i]`: the previous bar's value, NaN on the first bar. */
  function Prev(ma: seq<Option<real>>, i: nat): Option<real>
    requires i < |ma|
  {
    if i == 0 then None else ma[i - 1]
  }

  /** Golden cross at bar `i`: short was at or below long on the previous bar and is above it now. */
  predicate Golden(shortMa: seq<Option<real>>, longMa: seq<Option<real>>, i: nat)
    requires i < |shortMa| == |longMa|
  {
    Series.Le(Prev(shortMa, i), Prev(longMa, i)) && Series.Gt(shortMa[i], longMa[i])
  }

  /** Death cross at bar `i`: short was at or above long on the previous bar and is below it now. */
  predicate Death(shortMa: seq<Option<real>>, longMa: seq<Option<real>>, i: nat)
    requires i < |shortMa| == |longMa|
  {
    Series.Ge(Prev(shortMa, i), Prev(longMa, i)) && Series.Lt(shortMa[i], longMa[i])
  }

  /**
   * The `trade_signal` column: 0, then 1 on golden-cross bars, then -1 on
   * death-cross bars. The two never coincide, so the order of the two
   * assignments does not matter.
   */
  function TradeSignals(shortMa: seq<Option<real>>, longMa: seq<Option<real>>): (ts: seq<int>)
    requires |shortMa| == |longMa|
    ensures |ts| == |shortMa|
    ensures forall i :: 0 <= i < |ts| ==> -1 <= ts[i] <= 1
    ensures forall i :: 0 <= i < |ts| ==> (ts[i] == 1 <==> Golden(shortMa, longMa, i))
    ensures forall i :: 0 <= i < |ts| ==> (ts[i] == -1 <==> Death(shortMa, longMa, i))
  {
    seq(|shortMa|, i requires 0 <= i < |shortMa| =>
      if Death(shortMa, longMa, i) then -1 else if Golden(shortMa, longMa, i) then 1 else 0)
  }

  /** The signal column the strategy computes from the closes and its two windows. */
  function CrossSignals(closes: seq<real>, shortW: nat, longW: nat): (ts: seq<int>)
    requires shortW >= 1 && longW >= 1
    ensures |ts| == |closes|
  {
    TradeSignals(Series.RollingMean(closes, shortW), Series.RollingMean(closes, longW))
  }

  /** A golden and a death cross can never happen on the same bar. */
  lemma CrossesExclusive(shortMa: seq<Option<real>>, longMa: seq<Option<real>>, i: nat)
    requires i < |shortMa| == |longMa|
    ensures !(Golden(shortMa, longMa, i) && Death(shortMa, longMa, i))
  {
  }

  /**
   * No signal fires while either average, on this bar or the previous one, is
   * still warming up: comparisons with NaN are false. With windows `shortW` and
   * `longW`, that is every bar before index `max(shortW, longW)`.
   */
  lemma WarmUpSilent(closes: seq<real>, shortW: nat, longW: nat, i: nat)
    requires shortW >= 1 && longW >= 1 && i < |closes|
    requires i < shortW || i < longW
    ensures CrossSignals(closes, shortW, longW)[i] == 0
  {
    var sm, lm := Series.RollingMean(closes, shortW), Series.RollingMean(closes, longW);
    assert Prev(sm, i).None? || Prev(lm, i).None?;
  }

  /**
   * The raw signals need not alternate: when the averages touch without
   * crossing, two golden crosses can follow each other with no death cross
   * between them. Only the folded position column is guaranteed long/flat.
   */
  lemma RawSignalsNeedNotAlternate()
    ensures var ts := TradeSignals([Some(1.0), Some(3.0), Some(2.0), Some(3.0)],
                                   [Some(2.0), Some(2.0), Some(2.0), Some(2.0)]);
            ts == [0, 1, 0, 1] && !Signals.AlternatesFrom(0, ts)
  {
    var sm := [Some(1.0), Some(3.0), Some(2.0), Some(3.0)];
    var lm := [Some(2.0), Some(2.0), Some(2.0), Some(2.0)];
    var ts := TradeSignals(sm, lm);
    assert ts == [0, 1, 0, 1] by {
      assert !Golden(sm, lm, 0) && !Death(sm, lm, 0);
      assert Golden(sm, lm, 1);
      assert !Golden(sm, lm, 2) && !Death(sm, lm, 2);
      assert Golden(sm, lm, 3);
    }
    assert ts[..3][..2] == [0, 1];
    assert ts[..3][..2][..1] == [0];
    assert ts[..3] == [0, 1, 0];
    assert Signals.PositionAfter(0, ts[..3]) == 1;
  }

  /**
   * Closes 10, 10, 10, 12, 14, 16, 9, 9, 9 with windows 2 and 3: the short
   * average crosses above the long one on bar 3 and below it on bar 6.
   */
  lemma CrossExample()
    ensures CrossSignals([10.0, 10.0, 10.0, 12.0, 14.0, 16.0, 9.0, 9.0, 9.0], 2, 3)
            == [0, 0, 0, 1, 0, 0, -1, 0, 0]
  {
    var sm := [None, Some(10.0), Some(10.0), Some(11.0), Some(13.0), Some(15.0), Some(12.5), Some(9.0), Some(9.0)];
    var lm := [None, None, Some(10.0), Some(32.0 / 3.0), Some(12.0), Some(14.0), Some(13.0), Some(34.0 / 3.0), Some(9.0)];
    ExampleShortAverage();
    ExampleLongAverage();
    var ts := TradeSignals(sm, lm);
    assert ts[0] == 0 && ts[1] == 0 && ts[2] == 0;
    assert ts[3] == 1 && ts[4] == 0 && ts[5] == 0;
    assert ts[6] == -1 && ts[7] == 0 && ts[8] == 0;
  }

  /** The two-bar average of the example closes. */
  lemma ExampleShortAverage()
    ensures Series.RollingMean([10.0, 10.0, 10.0, 12.0, 14.0, 16.0, 9.0, 9.0, 9.0], 2)
            == [None, Some(10.0), Some(10.0), Some(11.0), Some(13.0), Some(15.0), Some(12.5), Some(9.0), Some(9.0)]
  {
    var cs := [10.0, 10.0, 10.0, 12.0, 14.0, 16.0, 9.0, 9.0, 9.0];
    assert cs[0..2] == [10.0, 10.0] && cs[1..3] == [10.0, 10.0] && cs[2..4] == [10.0, 12.0];
    assert cs[3..5] == [12.0, 14.0] && cs[4..6] == [14.0, 16.0] && cs[5..7] == [16.0, 9.0];
    assert cs[6..8] == [9.0, 9.0] && cs[7..9] == [9.0, 9.0];
    Series.SumSmall(10.0, 10.0, 0.0);
    Series.SumSmall(10.0, 12.0, 0.0);
    Series.SumSmall(12.0, 14.0, 0.0);
    Series.SumSmall(14.0, 16.0, 0.0);
    Series.SumSmall(16.0, 9.0, 0.0);
    Series.SumSmall(9.0, 9.0, 0.0);
  }

  /** The three-bar average of the example closes. */
  lemma ExampleLongAverage()
    ensures Series.RollingMean([10.0, 10.0, 10.0, 12.0, 14.0, 16.0, 9.0, 9.0, 9.0], 3)
            == [None, None, Some(10.0), Some(32.0 / 3.0), Some(12.0), Some(14.0), Some(13.0), Some(34.0 / 3.0), Some(9.0)]
  {
    var cs := [10.0, 10.0, 10.0, 12.0, 14.0, 16.0, 9.0, 9.0, 9.0];
    assert cs[0..3] == [10.0, 10.0, 10.0] && cs[1..4] == [10.0, 10.0, 12.0];
    assert cs[2..5] == [10.0, 12.0, 14.0] && cs[3..6] == [12.0, 14.0, 16.0];
    assert cs[4..7] == [14.0, 16.0, 9.0] && cs[5..8] == [16.0, 9.0, 9.0];
    assert cs[6..9] == [9.0, 9.0, 9.0];
    Series.SumSmall(10.0, 10.0, 10.0);
    Series.SumSmall(10.0, 10.0, 12.0);
    Series.SumSmall(10.0, 12.0, 14.0);
    Series.SumSmall(12.0, 14.0, 16.0);
    Series.SumSmall(14.0, 16.0, 9.0);
    Series.SumSmall(16.0, 9.0, 9.0);
    Series.SumSmall(9.0, 9.0, 9.0);
  }

  // ---------------------------------------------------------------------------
  // The signal pass
  // ---------------------------------------------------------------------------

  /** The columns `generate_signals` adds to the frame. */
  datatype Columns = Columns(maShort: seq<Option<real>>, maLong: seq<Option<real>>,
                             tradeSignal: seq<int>, position: seq<int>, signal: seq<int>)

  /**
   * The loop of `generate_signals` that folds the trade signals into the
   * position column: +1 goes long, -1 goes flat, anything else carries the
   * position forward.
   */
  method FoldPositions(ts: seq<int>) returns (positions: seq<int>)
    ensures |positions| == |ts|
    ensures forall i :: 0 <= i < |ts| ==> positions[i] == Signals.PositionAfter(0, ts[..i + 1])
    ensures forall i :: 0 <= i < |ts| ==> positions[i] == 0 || positions[i] == 1
    ensures forall i :: 0 <= i < |ts| ==>
              positions[i] == Signals.Act(if i == 0 then 0 else positions[i - 1], ts[i])
  {
    var current := 0;
    positions := [];
    var i := 0;
    assert ts[..0] == [];
    while i < |ts|
      invariant 0 <= i <= |ts| && |positions| == i
      invariant current == Signals.PositionAfter(0, ts[..i])
      invariant forall k :: 0 <= k < i ==> positions[k] == Signals.PositionAfter(0, ts[..k + 1])
    {
      if ts[i] == 1 {
        current := 1;
      } else if ts[i] == -1 {
        current := 0;
      }
      assert ts[..i + 1] == ts[..i] + [ts[i]];
      Signals.PositionAfterSnoc(0, ts[..i], ts[i]);
      positions := positions + [current];
      i := i + 1;
    }
    forall k | 0 <= k < |ts|
      ensures positions[k] == 0 || positions[k] == 1
      ensures positions[k] == Signals.Act(if k == 0 then 0 else positions[k - 1], ts[k])
    {
      Signals.PositionAfterIsBinary(0, ts[..k + 1]);
      assert ts[..k + 1] == ts[..k] + [ts[k]];
      Signals.PositionAfterSnoc(0, ts[..k], ts[k]);
    }
  }

  /** `generate_signals`: the averages, the cross signals and the position fold; `signal` copies `trade_signal`. */
  method GenerateSignals(closes: seq<real>, shortW: nat, longW: nat) returns (df: Columns)
    requires shortW >= 1 && longW >= 1
    ensures df.maShort == Series.RollingMean(closes, shortW) && df.maLong == Series.RollingMean(closes, longW)
    ensures df.tradeSignal == CrossSignals(closes, shortW, longW)
    ensures df.signal == df.tradeSignal
    ensures |df.position| == |closes|
    ensures forall i :: 0 <= i < |closes| ==> df.position[i] == Signals.PositionAfter(0, df.tradeSignal[..i + 1])
    ensures forall i :: 0 <= i < |closes| ==> df.position[i] == 0 || df.position[i] == 1
    ensures df.position == HeldPositions(df.tradeSignal)
  {
    var maShort := Series.RollingMean(closes, shortW);
    var maLong := Series.RollingMean(closes, longW);
    var ts := TradeSignals(maShort, maLong);
    var positions := FoldPositions(ts);
    df := Columns(maShort, maLong, ts, positions, ts);
    assert forall i :: 0 <= i < |ts| ==> positions[i] == HeldPositions(ts)[i];
  }

  /** The long/flat machine's state after the cross signals up to and including bar `i`. */
  ghost function HeldAt(ts: seq<int>, i: nat): (p: int)
    requires i < |ts|
    ensures p == 0 || p == 1
  {
    Signals.PositionAfterIsBinary(0, ts[..i + 1]);
    Signals.PositionAfter(0, ts[..i + 1])
  }

  /** The `position` column as a value: bar `i` holds `HeldAt(ts, i)`. */
  ghost function HeldPositions(ts: seq<int>): (ps: seq<int>)
    ensures |ps| == |ts|
    ensures forall i :: 0 <= i < |ps| ==> ps[i] == 0 || ps[i] == 1
  {
    seq(|ts|, i requires 0 <= i < |ts| => HeldAt(ts, i))
  }

  // ---------------------------------------------------------------------------
  // Trades
  // ---------------------------------------------------------------------------

  /** The bar indices whose signal is nonzero, in bar order. */
  function SignalBars(s: seq<int>): (ix: seq<nat>)
    ensures |ix| <= |s|
    ensures forall k :: 0 <= k < |ix| ==> ix[k] < |s|
  {
    if |s| == 0 then []
    else SignalBars(s[..|s| - 1]) + (if s[|s| - 1] != 0 then [|s| - 1] else [])
  }

  /**
   * `SignalBars` lists exactly the bars with a nonzero signal, each once, in
   * increasing order.
   */
  lemma {:induction false} SignalBarsExact(s: seq<int>)
    ensures var ix := SignalBars(s);
            (forall k :: 0 <= k < |ix| ==> s[ix[k]] != 0)
            && (forall k, m :: 0 <= k < m < |ix| ==> ix[k] < ix[m])
            && (forall j :: 0 <= j < |s| && s[j] != 0 ==> j in ix)
  {
    if |s| > 0 {
      var t := s[..|s| - 1];
      SignalBarsExact(t);
      var p := SignalBars(t);
      assert forall k :: 0 <= k < |p| ==> t[p[k]] == s[p[k]];
      forall j | 0 <= j < |s| && s[j] != 0
        ensures j in SignalBars(s)
      {
        if j < |s| - 1 {
          assert t[j] == s[j];
          assert j in p;
        }
      }
    }
  }

  lemma SignalBarsSnoc(s: seq<int>, x: int)
    ensures SignalBars(s + [x]) == SignalBars(s) + (if x != 0 then [|s|] else [])
  {
    assert (s + [x])[..|s|] == s;
  }

  /** The record `_generate_trades` emits for a bar with a +1 or -1 signal: 100 shares at the close. */
  function MaTrade(bar: Bar, x: int): Trade
  {
    if x == 1 then Trade(bar.date, Buy, bar.close, 100, None, GoldenCross, None)
    else Trade(bar.date, Sell, bar.close, 100, None, DeathCross, None)
  }

  /**
   * `_generate_trades`: one trade per bar with a nonzero signal, in bar
   * order, a buy for +1 and a sell for -1, each for 100 shares at the close.
   */
  method GenerateTrades(bars: seq<Bar>, ts: seq<int>) returns (trades: seq<Trade>)
    requires |ts| == |bars|
    requires forall i :: 0 <= i < |ts| ==> -1 <= ts[i] <= 1
    ensures |trades| == |SignalBars(ts)|
    ensures forall k :: 0 <= k < |trades| ==>
              trades[k] == MaTrade(bars[SignalBars(ts)[k]], ts[SignalBars(ts)[k]])
    ensures forall k :: 0 <= k < |trades| ==>
              trades[k].quantity == 100 && (trades[k].action == Buy <==> ts[SignalBars(ts)[k]] == 1)
  {
    trades := [];
    var i := 0;
    while i < |bars|
      invariant 0 <= i <= |bars|
      invariant |trades| == |SignalBars(ts[..i])|
      invariant forall k :: 0 <= k < |trades| ==>
                  trades[k] == MaTrade(bars[SignalBars(ts[..i])[k]], ts[SignalBars(ts[..i])[k]])
    {
      assert ts[..i + 1] == ts[..i] + [ts[i]];
      SignalBarsSnoc(ts[..i], ts[i]);
      if ts[i] == 1 {
        trades := trades + [Trade(bars[i].date, Buy, bars[i].close, 100, None, GoldenCross, None)];
      } else if ts[i] == -1 {
        trades := trades + [Trade(bars[i].date, Sell, bars[i].close, 100, None, DeathCross, None)];
      }
      i := i + 1;
    }
    assert ts[..|bars|] == ts;
  }

  // ---------------------------------------------------------------------------
  // Returns and the equity curve
  // ---------------------------------------------------------------------------

  /** `close.pct_change().fillna(0)`: 0 on the first bar, then the close-to-close return. */
  function Returns(closes: seq<real>): (rs: seq<real>)
    requires forall i :: 0 <= i < |closes| ==> closes[i] > 0.0
    ensures |rs| == |closes|
    ensures |rs| > 0 ==> rs[0] == 0.0
  {
    seq(|closes|, i requires 0 <= i < |closes| => if i == 0 then 0.0 else closes[i] / closes[i - 1] - 1.0)
  }

  /** A bar's growth factor `1 + return` is positive and carries the previous close to this one. */
  lemma ReturnStep(closes: seq<real>, i: nat)
    requires forall j :: 0 <= j < |closes| ==> closes[j] > 0.0
    requires 0 < i < |closes|
    ensures (1.0 + Returns(closes)[i]) * closes[i - 1] == closes[i]
    ensures 1.0 + Returns(closes)[i] > 0.0
  {
    var g := 1.0 + Returns(closes)[i];
    assert g == closes[i] / closes[i - 1];
  }

  /** `position * returns`: a bar's return counts only when the position column marks it held. */
  function StrategyReturns(closes: seq<real>, positions: seq<int>): (sr: seq<real>)
    requires forall i :: 0 <= i < |closes| ==> closes[i] > 0.0
    requires |positions| == |closes|
    ensures |sr| == |closes|
    ensures |sr| > 0 ==> sr[0] == 0.0
    ensures forall i :: 0 <= i < |sr| && positions[i] == 0 ==> sr[i] == 0.0
    ensures forall i :: 0 <= i < |sr| && positions[i] == 1 ==> sr[i] == Returns(closes)[i]
  {
    var rs := Returns(closes);
    seq(|closes|, i requires 0 <= i < |closes| => positions[i] as real * rs[i])
  }

  /** `(1 + r).cumprod()` at the last bar of `rs`. */
  function Growth(rs: seq<real>): real
  {
    if |rs| == 0 then 1.0 else Growth(rs[..|rs| - 1]) * (1.0 + rs[|rs| - 1])
  }

  /** `initial_capital * (1 + strategy_returns).cumprod()`: the equity curve, one value per bar. */
  function PortfolioValues(initial: real, sr: seq<real>): (vs: seq<real>)
    ensures |vs| == |sr|
  {
    if |sr| == 0 then [] else PortfolioValues(initial, sr[..|sr| - 1]) + [initial * Growth(sr)]
  }

  /** Bar `i` of the equity curve is the initial capital grown by the returns up to and including bar `i`. */
  lemma {:induction false} ValueAt(initial: real, sr: seq<real>, i: nat)
    requires i < |sr|
    ensures PortfolioValues(initial, sr)[i] == initial * Growth(sr[..i + 1])
    decreases |sr|
  {
    if i < |sr| - 1 {
      ValueAt(initial, sr[..|sr| - 1], i);
      assert sr[..|sr| - 1][..i + 1] == sr[..i + 1];
    } else {
      assert sr[..i + 1] == sr;
    }
  }

  /** Each bar's value is the previous bar's value grown by the bar's strategy return. */
  lemma ValueStep(initial: real, sr: seq<real>, i: nat)
    requires 0 < i < |sr|
    ensures PortfolioValues(initial, sr)[i] == PortfolioValues(initial, sr)[i - 1] * (1.0 + sr[i])
  {
    ValueAt(initial, sr, i);
    ValueAt(initial, sr, i - 1);
    assert sr[..i + 1][..i] == sr[..i];
    var g := Growth(sr[..i]);
    assert Growth(sr[..i + 1]) == g * (1.0 + sr[i]);
    assert initial * (g * (1.0 + sr[i])) == (initial * g) * (1.0 + sr[i]);
  }

  /** The first bar is worth the initial capital: its return is taken as 0. */
  lemma FirstValue(initial: real, closes: seq<real>, positions: seq<int>)
    requires |closes| > 0 && |positions| == |closes|
    requires forall i :: 0 <= i < |closes| ==> closes[i] > 0.0
    ensures PortfolioValues(initial, StrategyReturns(closes, positions))[0] == initial
  {
    var sr := StrategyReturns(closes, positions);
    ValueAt(initial, sr, 0);
    assert sr[..1][..0] == [];
    assert Growth(sr[..1]) == Growth([]) * (1.0 + sr[0]);
  }

  /** While the position is flat, the equity curve does not move. */
  lemma {:induction false} FlatStretchConstant(initial: real, closes: seq<real>, positions: seq<int>, a: nat, b: nat)
    requires a <= b < |closes| && |positions| == |closes|
    requires forall i :: 0 <= i < |closes| ==> closes[i] > 0.0
    requires forall i :: a < i <= b ==> positions[i] == 0
    ensures var vs := PortfolioValues(initial, StrategyReturns(closes, positions));
            vs[b] == vs[a]
    decreases b
  {
    if a < b {
      FlatStretchConstant(initial, closes, positions, a, b - 1);
      ValueStep(initial, StrategyReturns(closes, positions), b);
    }
  }

  /** The arithmetic of one held bar: if `v' = v g`, `g c0 = c1` and `v ca = va c0`, then `v' ca = va c1`. */
  lemma TrackStep(v: real, v': real, va: real, g: real, ca: real, c0: real, c1: real)
    requires v' == v * g && g * c0 == c1 && v * ca == va * c0
    ensures v' * ca == va * c1
  {
    calc {
      v' * ca;
      == v * g * ca;
      == g * (v * ca);
      == g * (va * c0);
      == va * (g * c0);
    }
  }

  /**
   * While the position is held, the equity curve moves with the close:
   * `value[b] / value[a] == close[b] / close[a]`.
   */
  lemma {:induction false} HeldStretchTracksClose(initial: real, closes: seq<real>, positions: seq<int>, a: nat, b: nat)
    requires a <= b < |closes| && |positions| == |closes|
    requires forall i :: 0 <= i < |closes| ==> closes[i] > 0.0
    requires forall i :: a < i <= b ==> positions[i] == 1
    ensures var vs := PortfolioValues(initial, StrategyReturns(closes, positions));
            vs[b] * closes[a] == vs[a] * closes[b]
    decreases b
  {
    if a < b {
      var sr := StrategyReturns(closes, positions);
      var vs := PortfolioValues(initial, sr);
      HeldStretchTracksClose(initial, closes, positions, a, b - 1);
      ValueStep(initial, sr, b);
      HeldBarGrowth(closes, positions, b);
      TrackStep(vs[b - 1], vs[b], vs[a], 1.0 + sr[b], closes[a], closes[b - 1], closes[b]);
    }
  }

  /** On a held bar the strategy's growth factor carries the previous close to this one. */
  lemma HeldBarGrowth(closes: seq<real>, positions: seq<int>, i: nat)
    requires 0 < i < |closes| && |positions| == |closes| && positions[i] == 1
    requires forall j :: 0 <= j < |closes| ==> closes[j] > 0.0
    ensures (1.0 + StrategyReturns(closes, positions)[i]) * closes[i - 1] == closes[i]
  {
    ReturnStep(closes, i);
  }

  /** An equity curve whose every growth factor is positive stays positive. */
  lemma {:induction false} GrowthPositive(initial: real, sr: seq<real>, i: nat)
    requires i < |sr| && initial > 0.0
    requires forall j :: 0 <= j < |sr| ==> 1.0 + sr[j] > 0.0
    ensures PortfolioValues(initial, sr)[i] > 0.0
    decreases i
  {
    if i == 0 {
      ValueAt(initial, sr, 0);
      assert sr[..1][..0] == [];
      assert Growth(sr[..1]) == 1.0 + sr[0];
      ProductPositive(initial, 1.0 + sr[0]);
    } else {
      var vs := PortfolioValues(initial, sr);
      GrowthPositive(initial, sr, i - 1);
      ValueStep(initial, sr, i);
      ProductPositive(vs[i - 1], 1.0 + sr[i]);
    }
  }

  lemma ProductPositive(x: real, y: real)
    requires x > 0.0 && y > 0.0
    ensures x * y > 0.0
  {
  }

  /** With positive closes and capital, a long/flat equity curve stays strictly positive. */
  lemma ValuesPositive(initial: real, closes: seq<real>, positions: seq<int>, i: nat)
    requires i < |closes| && |positions| == |closes| && initial > 0.0
    requires forall j :: 0 <= j < |closes| ==> closes[j] > 0.0
    requires forall j :: 0 <= j < |positions| ==> positions[j] == 0 || positions[j] == 1
    ensures PortfolioValues(initial, StrategyReturns(closes, positions))[i] > 0.0
  {
    var sr := StrategyReturns(closes, positions);
    var rs := Returns(closes);
    forall j | 0 <= j < |sr|
      ensures 1.0 + sr[j] > 0.0
    {
      if j > 0 && positions[j] == 1 {
        ReturnStep(closes, j);
      }
    }
    GrowthPositive(initial, sr, i);
  }

  // ---------------------------------------------------------------------------
  // Metrics and the backtest
  // ---------------------------------------------------------------------------

  /** `mean()` of a non-empty series. */
  function Mean(xs: seq<real>): real
    requires |xs| > 0
  {
    Series.Sum(xs) / |xs| as real
  }

  /**
   * `_calculate_metrics` of the MA-cross strategy, over a non-empty frame. The
   * drawdown is reported as the (non-positive) minimum, not its absolute value;
   * the win rate is the share of bars whose strategy return is positive; pandas'
   * sample std of a single value is NaN, so volatility and Sharpe fall back to 0.
   */
  function MaMetrics(closes: seq<real>, ts: seq<int>, positions: seq<int>, initial: real, lib: FloatLib): (m: Metrics)
    requires |closes| > 0 && |ts| == |positions| == |closes| && initial > 0.0
    requires forall i :: 0 <= i < |closes| ==> closes[i] > 0.0
    requires forall i :: 0 <= i < |positions| ==> positions[i] == 0 || positions[i] == 1
    ensures var vs := PortfolioValues(initial, StrategyReturns(closes, positions));
            m.finalValue == vs[|vs| - 1] && m.totalReturn == (vs[|vs| - 1] / initial - 1.0) * 100.0
    ensures m.totalTrades == |SignalBars(ts)|
    ensures -100.0 < m.maxDrawdown <= 0.0
    ensures m.winRate == StrategyMetrics.WinRate(StrategyReturns(closes, positions))
    ensures 0.0 <= m.winRate <= 100.0
    ensures |closes| == 1 ==> m.volatility == 0.0 && m.sharpeRatio == 0.0
    ensures m.sharpeRatio != 0.0 ==> lib.std(StrategyReturns(closes, positions)) > 0.0
  {
    var sr := StrategyReturns(closes, positions);
    var vs := PortfolioValues(initial, sr);
    var final := vs[|vs| - 1];
    var days := |closes|;
    var annualized := (lib.pow(final / initial, 252.0 / days as real) - 1.0) * 100.0;
    var std := lib.std(sr);
    var sharpe := if days > 1 && std > 0.0 then Mean(sr) / std * lib.sqrt(252.0) else 0.0;
    var volatility := if days > 1 then std * lib.sqrt(252.0) * 100.0 else 0.0;
    forall i | 0 <= i < |vs|
      ensures vs[i] > 0.0
    {
      ValuesPositive(initial, closes, positions, i);
    }
    StrategyMetrics.WorstDrawdownBounds(vs);
    Metrics((final / initial - 1.0) * 100.0, annualized, volatility, sharpe,
            StrategyMetrics.WorstDrawdown(vs), |SignalBars(ts)|, StrategyMetrics.WinRate(sr), final)
  }

  /** One point of the equity curve. */
  datatype EquityPoint = EquityPoint(date: string, value: real)

  /** What `backtest` returns, without the frame itself. */
  datatype MaResult = MaResult(trades: seq<Trade>, equity: seq<EquityPoint>, metrics: Metrics)

  /** `_empty_results`: no trades, no equity curve and the all-zero metrics. */
  const EmptyResult := MaResult([], [], ZeroMetrics)

  /**
   * `backtest`: signals, compounded equity curve, trades and metrics; an empty
   * frame gives the empty result.
   */
  method Backtest(bars: seq<Bar>, shortW: nat, longW: nat, initial: real, lib: FloatLib) returns (r: MaResult)
    requires shortW >= 1 && longW >= 1 && PositiveCloses(bars)
    requires bars != [] ==> initial > 0.0
    ensures bars == [] ==> r == EmptyResult
    ensures bars != [] ==> |r.equity| == |bars| && r.metrics.totalTrades == |r.trades|
    ensures forall i :: 0 <= i < |r.equity| ==> r.equity[i].date == bars[i].date && r.equity[i].value > 0.0
    ensures bars != [] ==> r.equity[0].value == initial
    ensures bars != [] ==>
              var closes := Closes(bars);
              var ts := CrossSignals(closes, shortW, longW);
              var sr := StrategyReturns(closes, HeldPositions(ts));
              (forall i :: 0 <= i < |bars| ==> r.equity[i].value == PortfolioValues(initial, sr)[i])
              && r.metrics == MaMetrics(closes, ts, HeldPositions(ts), initial, lib)
    ensures -100.0 < r.metrics.maxDrawdown <= 0.0
    ensures var ts := CrossSignals(Closes(bars), shortW, longW);
            |r.trades| == |SignalBars(ts)|
            && forall k :: 0 <= k < |r.trades| ==> r.trades[k] == MaTrade(bars[SignalBars(ts)[k]], ts[SignalBars(ts)[k]])
  {
    var closes := Closes(bars);
    var df := GenerateSignals(closes, shortW, longW);
    if bars == [] {
      return EmptyResult;
    }
    var sr := StrategyReturns(closes, df.position);
    var vs := PortfolioValues(initial, sr);
    var trades := GenerateTrades(bars, df.tradeSignal);
    var metrics := MaMetrics(closes, df.tradeSignal, df.position, initial, lib);
    forall i | 0 <= i < |vs|
      ensures vs[i] > 0.0
    {
      ValuesPositive(initial, closes, df.position, i);
    }
    FirstValue(initial, closes, df.position);
    var equity := seq(|bars|, i requires 0 <= i < |bars| => EquityPoint(bars[i].date, vs[i]));
    r := MaResult(trades, equity, metrics);
    assert sr == StrategyReturns(Closes(bars), HeldPositions(CrossSignals(Closes(bars), shortW, longW)));
  }
}
