/**
 * The Bollinger-band breakout strategy (backend/strategies/bollinger_strategy.py):
 * the bands, a flat/long/short state machine that enters on a band breakout
 * and exits on a return towards the middle band, the long-only whole-share
 * simulator, and the strategy's fixed placeholder metrics.
 */
module Bollinger {
  import opened Wrappers
  import opened Market
  import Series
  import Signals
  import Portfolio

  // ---------------------------------------------------------------------------
  // The bands
  // ---------------------------------------------------------------------------

  /** `a + b` on pandas floats: NaN if either side is. */
  function Plus(a: Option<real>, b: Option<real>): Option<real>
  {
    if a.Some? && b.Some? then Some(a.value + b.value) else None
  }

  /** `a - b` on pandas floats: NaN if either side is. */
  function Minus(a: Option<real>, b: Option<real>): Option<real>
  {
    if a.Some? && b.Some? then Some(a.value - b.value) else None
  }

  /**
   * `xs.rolling(window=w).std()`: the sample standard deviation of the last `w`
   * values, computed by the float library; NaN while the window is filling, and
   * always NaN for a one-bar window, whose sample deviation divides by zero.
   */
  function RollingStd(xs: seq<real>, w: nat, lib: FloatLib): (sd: seq<Option<real>>)
    requires w >= 1
    ensures |sd| == |xs|
    ensures forall i :: 0 <= i < |xs| ==> (sd[i].Some? <==> 2 <= w <= i + 1)
  {
    seq(|xs|, i requires 0 <= i < |xs| =>
      if w < 2 || i + 1 < w then None else Some(lib.std(xs[i + 1 - w..i + 1])))
  }

  /** The three bands at one bar. */
  datatype Band = Band(upper: Option<real>, middle: Option<real>, lower: Option<real>)

  /**
   * `calculate_bollinger_bands`: the rolling mean as the middle band, and the
   * middle band plus and minus `std_dev` rolling deviations as the outer ones.
   */
  function Bands(closes: seq<real>, period: nat, stdDev: real, lib: FloatLib): (bands: seq<Band>)
    requires period >= 1
    ensures |bands| == |closes|
    ensures forall i :: 0 <= i < |closes| ==> (bands[i].middle.Some? <==> period <= i + 1)
    ensures forall i :: 0 <= i < |closes| ==>
              (bands[i].upper.Some? <==> 2 <= period <= i + 1) && (bands[i].lower.Some? <==> 2 <= period <= i + 1)
  {
    var middle := Series.RollingMean(closes, period);
    var sd := RollingStd(closes, period, lib);
    seq(|closes|, i requires 0 <= i < |closes| =>
      Band(Plus(middle[i], Series.Scale(sd[i], stdDev)), middle[i], Minus(middle[i], Series.Scale(sd[i], stdDev))))
  }

  /**
   * Where the outer bands are defined they sit symmetrically about the middle
   * band, `std_dev` deviations away; with a non-negative deviation and
   * multiplier they enclose it, and the middle band lies between the lowest
   * and highest close of its window.
   */
  lemma BandsEnclose(closes: seq<real>, period: nat, stdDev: real, lib: FloatLib, i: nat, lo: real, hi: real)
    requires period >= 1 && i < |closes| && period <= i + 1
    requires forall j :: i + 1 - period <= j <= i ==> lo <= closes[j] <= hi
    ensures var b := Bands(closes, period, stdDev, lib)[i];
            lo <= b.middle.value <= hi
            && (b.upper.Some? ==> b.upper.value - b.middle.value == b.middle.value - b.lower.value)
            && (b.upper.Some? && stdDev >= 0.0 && lib.std(closes[i + 1 - period..i + 1]) >= 0.0 ==>
                  b.lower.value <= b.middle.value <= b.upper.value)
  {
    Series.RollingMeanBounded(closes, period, i, lo, hi);
    var b := Bands(closes, period, stdDev, lib)[i];
    if b.upper.Some? {
      var d := lib.std(closes[i + 1 - period..i + 1]);
      if stdDev >= 0.0 && d >= 0.0 {
        assert d * stdDev >= 0.0;
      }
    }
  }

  // ---------------------------------------------------------------------------
  // The signal state machine
  // ---------------------------------------------------------------------------

  /** The strategy's parameters; `exitThreshold` is a percentage. */
  datatype Config = Config(period: nat, stdDev: real, entryThreshold: real, exitThreshold: real)

  /** The constructor's defaults: 20 bars, 2 deviations, a 1% breakout, a 0.5% return to the middle. */
  const DefaultConfig := Config(20, 2.0, 0.01, 0.5)

  /** The fields the signal pass updates: the position (-1 short, 0 flat, 1 long) and the entry price. */
  datatype State = State(position: int, entryPrice: real)

  /** Flat with no entry: the state at construction and after `backtest`'s reset. */
  const Reset := State(0, 0.0)

  /** Short, flat or long, and an open position has a positive entry price to measure profit from. */
  predicate ValidState(s: State)
  {
    -1 <= s.position <= 1 && (s.position != 0 ==> s.entryPrice > 0.0)
  }

  /** The state after one bar and the row the bar gets. */
  datatype Move = Move(state: State, row: SignalRow)

  /**
   * One bar of the signal loop. Flat: a close below the lower band less the
   * entry threshold goes long; failing that, a close above the upper band plus
   * the threshold goes short; both enter at the close. Long: a close above the
   * middle band less `exit_threshold` percent goes flat. Short: a close below
   * the middle band plus `exit_threshold` percent goes flat. The row records
   * the new position; the entry price survives an exit.
   */
  function Step(c: Config, s: State, bar: Bar, band: Band): (m: Move)
    requires ValidState(s) && bar.close > 0.0
    ensures ValidState(m.state)
  {
    var price := bar.close;
    if s.position == 0 then
      if Series.Lt(Some(price), Series.Scale(band.lower, 1.0 - c.entryThreshold)) then
        Move(State(1, price), SignalRow(1, 1, BelowLowerBand(price, band.lower.value)))
      else if Series.Gt(Some(price), Series.Scale(band.upper, 1.0 + c.entryThreshold)) then
        Move(State(-1, price), SignalRow(-1, -1, AboveUpperBand(price, band.upper.value)))
      else
        Move(s, SignalRow(0, 0, NoReason))
    else if s.position == 1 then
      if Series.Gt(Some(price), Series.Scale(band.middle, 1.0 - c.exitThreshold * 0.01)) then
        Move(State(0, s.entryPrice), SignalRow(-1, 0, LongReverted(price, s.entryPrice)))
      else
        Move(s, SignalRow(0, 1, NoReason))
    else
      if Series.Lt(Some(price), Series.Scale(band.middle, 1.0 + c.exitThreshold * 0.01)) then
        Move(State(0, s.entryPrice), SignalRow(1, 0, ShortReverted(price, s.entryPrice)))
      else
        Move(s, SignalRow(0, -1, NoReason))
  }

  /**
   * What a bar's signal means. The signal is the change of position and the
   * row records the new one. Entries happen only from flat (the lower band
   * first), so no entry test runs while a position is open; a long position
   * can only be closed by a -1 and a short one only by a +1, each exactly when
   * the close has come back across its side of the middle band.
   */
  lemma StepSignals(c: Config, s: State, bar: Bar, band: Band)
    requires ValidState(s) && bar.close > 0.0
    ensures var m := Step(c, s, bar, band);
            var price := bar.close;
            -1 <= m.row.signal <= 1
            && m.state.position == s.position + m.row.signal
            && m.row.position == m.state.position
            && (m.row.reason.BelowLowerBand? || m.row.reason.AboveUpperBand? ==> s.position == 0)
            && (s.position == 0 ==>
                  (m.row.signal == 1 <==> band.lower.Some? && price < band.lower.value * (1.0 - c.entryThreshold))
                  && (m.row.signal == -1 <==>
                        !(band.lower.Some? && price < band.lower.value * (1.0 - c.entryThreshold))
                        && band.upper.Some? && price > band.upper.value * (1.0 + c.entryThreshold))
                  && (m.row.signal != 0 ==> m.state.entryPrice == price))
            && (s.position == 1 ==>
                  m.row.signal != 1
                  && (m.row.signal == -1 <==> band.middle.Some? && price > band.middle.value * (1.0 - c.exitThreshold * 0.01)))
            && (s.position == -1 ==>
                  m.row.signal != -1
                  && (m.row.signal == 1 <==> band.middle.Some? && price < band.middle.value * (1.0 + c.exitThreshold * 0.01)))
  {
  }

  /** The state and the signal rows after the first `n` bars. */
  datatype Scan = Scan(state: State, rows: seq<SignalRow>)

  /**
   * `generate_signals` over the first `n` bars from state `s0`: the bars
   * before `period` keep the blank row and leave the state alone.
   */
  function Pass(c: Config, s0: State, bars: seq<Bar>, bands: seq<Band>, n: nat): (p: Scan)
    requires ValidState(s0) && PositiveCloses(bars) && |bands| == |bars| && n <= |bars|
    ensures ValidState(p.state) && |p.rows| == n
    decreases n
  {
    if n == 0 then Scan(s0, [])
    else
      var prev := Pass(c, s0, bars, bands, n - 1);
      if n - 1 < c.period then Scan(prev.state, prev.rows + [Blank])
      else
        var m := Step(c, prev.state, bars[n - 1], bands[n - 1]);
        Scan(m.state, prev.rows + [m.row])
  }

  /** Later bars never rewrite earlier rows. */
  lemma {:induction false} PassPrefix(c: Config, s0: State, bars: seq<Bar>, bands: seq<Band>, n: nat, k: nat)
    requires ValidState(s0) && PositiveCloses(bars) && |bands| == |bars| && n <= |bars|
    requires k <= n
    ensures Pass(c, s0, bars, bands, n).rows[..k] == Pass(c, s0, bars, bands, k).rows
    decreases n
  {
    if k < n {
      PassPrefix(c, s0, bars, bands, n - 1, k);
      assert Pass(c, s0, bars, bands, n).rows[..k] == Pass(c, s0, bars, bands, n - 1).rows[..k];
    }
  }

  /** Later bars never rewrite an earlier row. */
  lemma PassRow(c: Config, s0: State, bars: seq<Bar>, bands: seq<Band>, n: nat, k: nat)
    requires ValidState(s0) && PositiveCloses(bars) && |bands| == |bars| && n <= |bars|
    requires k < n
    ensures Pass(c, s0, bars, bands, n).rows[k] == Pass(c, s0, bars, bands, k + 1).rows[k]
  {
    PassPrefix(c, s0, bars, bands, n, k + 1);
    assert Pass(c, s0, bars, bands, n).rows[k] == Pass(c, s0, bars, bands, n).rows[..k + 1][k];
  }

  /** Up to bar `period` nothing is written and the state is untouched. */
  lemma {:induction false} PassQuiet(c: Config, s0: State, bars: seq<Bar>, bands: seq<Band>, n: nat)
    requires ValidState(s0) && PositiveCloses(bars) && |bands| == |bars| && n <= |bars|
    requires n <= c.period
    ensures Pass(c, s0, bars, bands, n) == Scan(s0, BlankRows(n))
    decreases n
  {
    if n > 0 {
      PassQuiet(c, s0, bars, bands, n - 1);
      assert BlankRows(n - 1) + [Blank] == BlankRows(n);
    }
  }

  /** No signal at a bar index below `period`. */
  lemma WarmUpSilent(c: Config, s0: State, bars: seq<Bar>, bands: seq<Band>, k: nat)
    requires ValidState(s0) && PositiveCloses(bars) && |bands| == |bars|
    requires k < |bars| && k < c.period
    ensures Pass(c, s0, bars, bands, |bars|).rows[k] == Blank
  {
    PassRow(c, s0, bars, bands, |bars|, k);
    PassQuiet(c, s0, bars, bands, k + 1);
  }

  /**
   * The position after `n` bars is the starting one plus the sum of the
   * signals so far: every signal is exactly the change of position it causes.
   */
  lemma {:induction false} PassNet(c: Config, s0: State, bars: seq<Bar>, bands: seq<Band>, n: nat)
    requires ValidState(s0) && PositiveCloses(bars) && |bands| == |bars| && n <= |bars|
    ensures var p := Pass(c, s0, bars, bands, n);
            p.state.position == s0.position + Signals.Sum(SignalColumn(p.rows))
    decreases n
  {
    if n > 0 {
      var prev := Pass(c, s0, bars, bands, n - 1);
      PassNet(c, s0, bars, bands, n - 1);
      var p := Pass(c, s0, bars, bands, n);
      var x := p.rows[n - 1];
      assert p.rows == prev.rows + [x];
      assert SignalColumn(p.rows) == SignalColumn(prev.rows) + [x.signal];
      Signals.SumSnoc(SignalColumn(prev.rows), x.signal);
      if n - 1 >= c.period {
        StepSignals(c, prev.state, bars[n - 1], bands[n - 1]);
      }
    }
  }

  /** Every row of the position column holds -1, 0 or 1. */
  lemma RowPositionBounded(c: Config, s0: State, bars: seq<Bar>, bands: seq<Band>, k: nat)
    requires ValidState(s0) && PositiveCloses(bars) && |bands| == |bars| && k < |bars|
    ensures -1 <= Pass(c, s0, bars, bands, |bars|).rows[k].position <= 1
  {
    PassRow(c, s0, bars, bands, |bars|, k);
    if k >= c.period {
      StepSignals(c, Pass(c, s0, bars, bands, k).state, bars[k], bands[k]);
    }
  }

  /** A bar at or after `period` records the position its step reaches. */
  lemma LastRowPosition(c: Config, s0: State, bars: seq<Bar>, bands: seq<Band>, k: nat)
    requires ValidState(s0) && PositiveCloses(bars) && |bands| == |bars| && c.period <= k < |bars|
    ensures Pass(c, s0, bars, bands, k + 1).rows[k].position == Pass(c, s0, bars, bands, k + 1).state.position
  {
    StepSignals(c, Pass(c, s0, bars, bands, k).state, bars[k], bands[k]);
  }

  /**
   * Row `k` at or after `period` records the position reached after bar `k`:
   * the start plus the signals up to and including `k`.
   */
  lemma RowPosition(c: Config, s0: State, bars: seq<Bar>, bands: seq<Band>, k: nat)
    requires ValidState(s0) && PositiveCloses(bars) && |bands| == |bars| && c.period <= k < |bars|
    ensures var rows := Pass(c, s0, bars, bands, |bars|).rows;
            rows[k].position == s0.position + Signals.Sum(SignalColumn(rows[..k + 1]))
  {
    var rows := Pass(c, s0, bars, bands, |bars|).rows;
    var upTo := Pass(c, s0, bars, bands, k + 1);
    LastRowPosition(c, s0, bars, bands, k);
    PassRow(c, s0, bars, bands, |bars|, k);
    PassPrefix(c, s0, bars, bands, |bars|, k + 1);
    PassNet(c, s0, bars, bands, k + 1);
    assert SignalColumn(rows[..k + 1]) == SignalColumn(upTo.rows);
    assert rows[k].position == s0.position + Signals.Sum(SignalColumn(upTo.rows));
  }

  // ---------------------------------------------------------------------------
  // The backtest
  // ---------------------------------------------------------------------------

  /** The Bollinger simulator: buy when cash exceeds the price, no fees, bare trade records. */
  const Terms := Portfolio.Terms(Portfolio.CashAbovePrice, 1.0, 1.0, false)

  /**
   * The simulator buys on every +1 that passes its cash test: with cash above
   * the price at least one whole share is affordable, so the buy is never
   * empty (the source does not test for zero shares, and need not).
   */
  lemma BuyNeverEmpty(b: Portfolio.Book, bar: Bar, row: SignalRow)
    requires Portfolio.Solvent(b) && bar.close > 0.0
    requires row.signal == 1 && b.capital > bar.close
    ensures var o := Portfolio.Execute(Terms, b, bar, row);
            o.trade.Some? && o.trade.value.action == Buy && o.trade.value.quantity >= 1
            && o.book.shares == b.shares + o.trade.value.quantity
  {
    Portfolio.QuantityAffordable(Terms, b.capital, bar.close);
    Portfolio.ExecuteTrade(Terms, b, bar, row);
  }

  /**
   * `_calculate_basic_metrics`: the total return, reused as the annualised
   * return and, over 15, as the Sharpe ratio; fixed volatility, drawdown and
   * win rate; the trade count is the length of the trade log.
   */
  function BasicMetrics(initial: real, final: real, tradeCount: nat): (m: Metrics)
    requires initial > 0.0
    ensures m.totalReturn == (final - initial) / initial * 100.0 && m.finalValue == final
    ensures m.annualizedReturn == m.totalReturn && m.sharpeRatio * 15.0 == m.totalReturn
    ensures m.totalTrades == tradeCount
    ensures m.volatility == 15.0 && m.maxDrawdown == -10.0 && m.winRate == 60.0
    ensures m.totalReturn > 0.0 <==> final > initial
  {
    var totalReturn := (final - initial) / initial * 100.0;
    GainSign(initial, final);
    Metrics(totalReturn, totalReturn, 15.0, totalReturn / 15.0, -10.0, tradeCount, 60.0, final)
  }

  /** The total return is positive exactly when the final value exceeds the initial capital. */
  lemma GainSign(initial: real, final: real)
    requires initial > 0.0
    ensures (final - initial) / initial * 100.0 > 0.0 <==> final > initial
  {
    var q := (final - initial) / initial;
    assert q * initial == final - initial;
  }

  /** What `backtest` returns: trades, snapshots, metrics and the frame's band and signal columns. */
  datatype Outcome = Outcome(trades: seq<Trade>, snapshots: seq<Snapshot>, metrics: Metrics,
                             bands: seq<Band>, rows: seq<SignalRow>)

  /**
   * `backtest` as a function of its inputs: reset, signals, simulation, final
   * value and metrics. A frame with no rows fails at `df.iloc[-1]`.
   */
  function BacktestOf(c: Config, bars: seq<Bar>, initial: real, lib: FloatLib): (r: Result<Outcome, BacktestError>)
    requires c.period >= 1 && PositiveCloses(bars) && initial > 0.0
    ensures r.Failure? <==> bars == []
  {
    if bars == [] then Failure(EmptySeries)
    else
      var bands := Bands(Closes(bars), c.period, c.stdDev, lib);
      var scan := Pass(c, Reset, bars, bands, |bars|);
      var run := Portfolio.Simulate(Terms, bars, scan.rows, initial, |bars|);
      var final := Portfolio.Value(run.book, bars[|bars| - 1].close);
      Success(Outcome(run.trades, run.snapshots, BasicMetrics(initial, final, |run.trades|), bands, scan.rows))
  }

  /**
   * A successful backtest has one snapshot per bar, dated by the bar and worth
   * more than nothing; no bar before `period` carries a signal; every recorded
   * position is -1, 0 or 1; every buy takes at least one share; the final value
   * is positive and the trade total is the log's length.
   */
  lemma BacktestSound(c: Config, bars: seq<Bar>, initial: real, lib: FloatLib)
    requires c.period >= 1 && PositiveCloses(bars) && initial > 0.0 && bars != []
    ensures var o := BacktestOf(c, bars, initial, lib).value;
            |o.snapshots| == |bars| && |o.rows| == |bars|
            && (forall k :: 0 <= k < |bars| ==> o.snapshots[k].date == bars[k].date && o.snapshots[k].value > 0.0)
            && (forall k :: 0 <= k < |bars| && k < c.period ==> o.rows[k] == Blank)
            && (forall k :: 0 <= k < |bars| ==> -1 <= o.rows[k].position <= 1)
            && (forall k :: 0 <= k < |o.trades| && o.trades[k].action == Buy ==> o.trades[k].quantity >= 1)
            && o.metrics.finalValue > 0.0 && o.metrics.totalTrades == |o.trades|
  {
    var bands := Bands(Closes(bars), c.period, c.stdDev, lib);
    var rows := Pass(c, Reset, bars, bands, |bars|).rows;
    var run := Portfolio.Simulate(Terms, bars, rows, initial, |bars|);
    Portfolio.SnapshotsPositive(Terms, bars, rows, initial);
    Portfolio.TradesNonempty(Terms, bars, rows, initial, |bars|);
    assert BacktestOf(c, bars, initial, lib).value.trades == run.trades;
    forall k | 0 <= k < |bars|
      ensures run.snapshots[k].date == bars[k].date
      ensures -1 <= rows[k].position <= 1
    {
      Portfolio.SnapshotsPerBar(Terms, bars, rows, initial, |bars|, k);
      RowPositionBounded(c, Reset, bars, bands, k);
    }
    forall k | 0 <= k < |bars| && k < c.period
      ensures rows[k] == Blank
    {
      WarmUpSilent(c, Reset, bars, bands, k);
    }
    assert Portfolio.FinalValue(Terms, bars, rows, initial) > 0.0;
  }

  /**
   * The strategy object: its parameters, and the position and entry price the
   * signal pass updates in place.
   */
  class BollingerStrategy {
    const period: nat
    const stdDev: real
    const entryThreshold: real
    const exitThreshold: real
    var position: int
    var entryPrice: real

    function Settings(): Config
    {
      Config(period, stdDev, entryThreshold, exitThreshold)
    }

    function Current(): State
      reads this
    {
      State(position, entryPrice)
    }

    predicate Valid()
      reads this
    {
      period >= 1 && ValidState(Current())
    }

    constructor (period: nat, stdDev: real, entryThreshold: real, exitThreshold: real)
      requires period >= 1
      ensures Valid() && Current() == Reset
      ensures Settings() == Config(period, stdDev, entryThreshold, exitThreshold)
    {
      this.period := period;
      this.stdDev := stdDev;
      this.entryThreshold := entryThreshold;
      this.exitThreshold := exitThreshold;
      position := 0;
      entryPrice := 0.0;
    }

    /** The body of the signal loop for one bar at or after `period`. */
    method OnBar(bar: Bar, band: Band) returns (row: SignalRow)
      requires Valid() && bar.close > 0.0
      modifies this
      ensures Valid()
      ensures Move(Current(), row) == Step(Settings(), old(Current()), bar, band)
    {
      var price := bar.close;
      row := SignalRow(0, position, NoReason);
      if position == 0 {
        if Series.Lt(Some(price), Series.Scale(band.lower, 1.0 - entryThreshold)) {
          position := 1;
          entryPrice := price;
          row := SignalRow(1, position, BelowLowerBand(price, band.lower.value));
        } else if Series.Gt(Some(price), Series.Scale(band.upper, 1.0 + entryThreshold)) {
          position := -1;
          entryPrice := price;
          row := SignalRow(-1, position, AboveUpperBand(price, band.upper.value));
        }
      } else if position == 1 {
        if Series.Gt(Some(price), Series.Scale(band.middle, 1.0 - exitThreshold * 0.01)) {
          position := 0;
          row := SignalRow(-1, position, LongReverted(price, entryPrice));
        }
      } else if position == -1 {
        if Series.Lt(Some(price), Series.Scale(band.middle, 1.0 + exitThreshold * 0.01)) {
          position := 0;
          row := SignalRow(1, position, ShortReverted(price, entryPrice));
        }
      }
    }

    /**
     * `generate_signals`: the bands, then the blank signal rows filled in from
     * bar `period` on, carrying the object's state from wherever the previous
     * call left it.
     */
    method GenerateSignals(bars: seq<Bar>, lib: FloatLib) returns (bands: seq<Band>, rows: seq<SignalRow>)
      requires Valid() && PositiveCloses(bars)
      modifies this
      ensures Valid()
      ensures bands == Bands(Closes(bars), period, stdDev, lib)
      ensures Scan(Current(), rows) == Pass(Settings(), old(Current()), bars, bands, |bars|)
    {
      bands := Bands(Closes(bars), period, stdDev, lib);
      rows := BlankRows(|bars|);
      ghost var s0 := Current();
      var i := if period < |bars| then period else |bars|;
      PassQuiet(Settings(), s0, bars, bands, i);
      assert rows == BlankRows(i) + BlankRows(|bars| - i);
      while i < |bars|
        invariant i <= |bars| && (period <= i || i == |bars|)
        invariant Valid()
        invariant Current() == Pass(Settings(), s0, bars, bands, i).state
        invariant rows == Pass(Settings(), s0, bars, bands, i).rows + BlankRows(|bars| - i)
      {
        ghost var done := Pass(Settings(), s0, bars, bands, i).rows;
        var row := OnBar(bars[i], bands[i]);
        BlankRowsFill(done, row, |bars| - i);
        rows := rows[i := row];
        i := i + 1;
      }
      assert BlankRows(0) == [];
    }

    /**
     * `backtest`: reset the state, generate the signals, run the long-only
     * simulator and compute the basic metrics. The result depends only on the
     * parameters and the inputs.
     */
    method Backtest(bars: seq<Bar>, initial: real, lib: FloatLib) returns (r: Result<Outcome, BacktestError>)
      requires Valid() && PositiveCloses(bars) && initial > 0.0
      modifies this
      ensures Valid()
      ensures r == BacktestOf(Settings(), bars, initial, lib)
      ensures Current() == Pass(Settings(), Reset, bars, Bands(Closes(bars), period, stdDev, lib), |bars|).state
    {
      position, entryPrice := 0, 0.0;
      var bands, rows := GenerateSignals(bars, lib);
      var capital, shares, trades, snapshots := Portfolio.RunSimulator(Terms, bars, rows, initial);
      if |bars| == 0 {
        return Failure(EmptySeries);
      }
      ghost var run := Portfolio.Simulate(Terms, bars, rows, initial, |bars|);
      assert rows == Pass(Settings(), Reset, bars, bands, |bars|).rows;
      assert trades == run.trades && snapshots == run.snapshots && Portfolio.Book(capital, shares) == run.book;
      var final := Portfolio.Value(Portfolio.Book(capital, shares), bars[|bars| - 1].close);
      r := Success(Outcome(trades, snapshots, BasicMetrics(initial, final, |trades|), bands, rows));
    }
  }
}
