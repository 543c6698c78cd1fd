/**
 * The RSI overbought/oversold strategy (backend/strategies/rsi_strategy.py):
 * the RSI indicator, a long/flat state machine that checks stop-loss and
 * take-profit before the RSI rules, the whole-share simulator without fees,
 * and the strategy's own metrics with its positional win rate.
 */
module Rsi {
  import opened Wrappers
  import opened Market
  import Series
  import Signals
  import Portfolio
  import StrategyMetrics

  // ---------------------------------------------------------------------------
  // The indicator
  // ---------------------------------------------------------------------------

  /** `diff().where(delta > 0, 0)`: the rise into each bar; the first bar's NaN difference becomes 0. */
  function Gains(closes: seq<real>): (g: seq<real>)
    ensures |g| == |closes|
  {
    seq(|closes|, i requires 0 <= i < |closes| =>
      if i > 0 && closes[i] > closes[i - 1] then closes[i] - closes[i - 1] else 0.0)
  }

  /** `-diff().where(delta < 0, 0)`: the fall into each bar, as a non-negative amount. */
  function Losses(closes: seq<real>): (l: seq<real>)
    ensures |l| == |closes|
  {
    seq(|closes|, i requires 0 <= i < |closes| =>
      if i > 0 && closes[i] < closes[i - 1] then closes[i - 1] - closes[i] else 0.0)
  }

  /**
   * Gains and losses split each close-to-close move: both are non-negative,
   * at most one of them is nonzero, and their difference is the move itself.
   */
  lemma GainsAndLosses(closes: seq<real>)
    ensures forall i :: 0 <= i < |closes| ==> Gains(closes)[i] >= 0.0 && Losses(closes)[i] >= 0.0
    ensures forall i :: 0 <= i < |closes| ==> Gains(closes)[i] == 0.0 || Losses(closes)[i] == 0.0
    ensures forall i :: 0 < i < |closes| ==> Gains(closes)[i] - Losses(closes)[i] == closes[i] - closes[i - 1]
    ensures |closes| > 0 ==> Gains(closes)[0] == 0.0 && Losses(closes)[0] == 0.0
  {
  }

  /**
   * `100 - 100 / (1 + avg_gain / avg_loss)` on pandas floats: NaN while either
   * average is NaN; with no losses, `avg_gain / 0` is infinite and the RSI is
   * 100, unless there were no gains either, when `0 / 0` is NaN.
   */
  function RsiOf(avgGain: Option<real>, avgLoss: Option<real>): Option<real>
    requires avgGain.Some? ==> avgGain.value >= 0.0
    requires avgLoss.Some? ==> avgLoss.value >= 0.0
  {
    if avgGain.None? || avgLoss.None? then None
    else if avgLoss.value != 0.0 then Some(100.0 - 100.0 / (1.0 + avgGain.value / avgLoss.value))
    else if avgGain.value > 0.0 then Some(100.0)
    else None
  }

  /**
   * On non-negative averages the RSI is defined exactly when both averages are
   * and one of them is nonzero, and it is then the share of the average gain
   * in the average total move, `100 g / (g + l)`, so it lies in [0, 100].
   */
  lemma RsiOfShare(avgGain: Option<real>, avgLoss: Option<real>)
    requires avgGain.Some? ==> avgGain.value >= 0.0
    requires avgLoss.Some? ==> avgLoss.value >= 0.0
    ensures RsiOf(avgGain, avgLoss).Some? <==>
              avgGain.Some? && avgLoss.Some? && (avgGain.value > 0.0 || avgLoss.value > 0.0)
    ensures RsiOf(avgGain, avgLoss).Some? ==>
              var g, l := avgGain.value, avgLoss.value;
              RsiOf(avgGain, avgLoss).value == 100.0 * g / (g + l)
              && 0.0 <= RsiOf(avgGain, avgLoss).value <= 100.0
  {
    if avgGain.Some? && avgLoss.Some? && (avgGain.value > 0.0 || avgLoss.value > 0.0) {
      var g, l := avgGain.value, avgLoss.value;
      ShareBounds(g, l);
      if l > 0.0 {
        ShareOfMove(g, l);
      } else {
        assert g + l == g;
      }
    }
  }

  /** `100 - 100 / (1 + g / l)` is `100 g / (g + l)`. */
  lemma ShareOfMove(g: real, l: real)
    requires g >= 0.0 && l > 0.0
    ensures 100.0 - 100.0 / (1.0 + g / l) == 100.0 * g / (g + l)
  {
    var d := g + l;
    var rs := g / l;
    assert rs * l == g;
    assert (1.0 + rs) * l == d;
    var q := 100.0 / (1.0 + rs);
    assert q * (1.0 + rs) == 100.0;
    assert q * d == 100.0 * l by {
      assert q * d == (q * (1.0 + rs)) * l;
    }
    var share := 100.0 * g / d;
    assert share * d == 100.0 * g;
    assert (100.0 - q - share) * d == (100.0 - q) * d - share * d;
    assert (100.0 - q - share) * d == 0.0;
    ZeroFactor(100.0 - q - share, d);
  }

  /** A product with a positive factor is zero only when the other factor is. */
  lemma ZeroFactor(x: real, d: real)
    requires d > 0.0 && x * d == 0.0
    ensures x == 0.0
  {
    assert x == (x * d) / d;
  }

  /** `100 g / (g + l)` lies in [0, 100], and is 100 when `l` is 0. */
  lemma ShareBounds(g: real, l: real)
    requires g >= 0.0 && l >= 0.0 && g + l > 0.0
    ensures 0.0 <= 100.0 * g / (g + l) <= 100.0
    ensures l == 0.0 ==> 100.0 * g / (g + l) == 100.0
  {
    var d := g + l;
    var share := g / d;
    assert share * d == g;
    assert 100.0 * g / d == 100.0 * share;
  }

  /** The rolling averages of gains and losses are non-negative wherever they are defined. */
  lemma AveragesNonnegative(closes: seq<real>, period: nat)
    requires period >= 1
    ensures var avgGain := Series.RollingMean(Gains(closes), period);
            forall i :: 0 <= i < |closes| && avgGain[i].Some? ==> avgGain[i].value >= 0.0
    ensures var avgLoss := Series.RollingMean(Losses(closes), period);
            forall i :: 0 <= i < |closes| && avgLoss[i].Some? ==> avgLoss[i].value >= 0.0
  {
    GainsAndLosses(closes);
    forall i | 0 <= i < |closes|
      ensures Series.RollingMean(Gains(closes), period)[i].Some? ==> Series.RollingMean(Gains(closes), period)[i].value >= 0.0
      ensures Series.RollingMean(Losses(closes), period)[i].Some? ==> Series.RollingMean(Losses(closes), period)[i].value >= 0.0
    {
      Series.RollingMeanNonnegative(Gains(closes), period, i);
      Series.RollingMeanNonnegative(Losses(closes), period, i);
    }
  }

  /** `calculate_rsi`: the RSI of the rolling means of gains and losses over `period` bars. */
  function Rsi(closes: seq<real>, period: nat): (rsi: seq<Option<real>>)
    requires period >= 1
    ensures |rsi| == |closes|
    ensures forall i :: 0 <= i < |closes| && i + 1 < period ==> rsi[i].None?
  {
    var avgGain := Series.RollingMean(Gains(closes), period);
    var avgLoss := Series.RollingMean(Losses(closes), period);
    AveragesNonnegative(closes, period);
    seq(|closes|, i requires 0 <= i < |closes| => RsiOf(avgGain[i], avgLoss[i]))
  }

  /** Every defined RSI value lies in [0, 100]; from bar `period - 1` on it is NaN only on a perfectly flat window. */
  lemma RsiBounded(closes: seq<real>, period: nat, i: nat)
    requires period >= 1 && i < |closes|
    ensures Rsi(closes, period)[i].Some? ==> 0.0 <= Rsi(closes, period)[i].value <= 100.0
    ensures period <= i + 1 && Rsi(closes, period)[i].None? ==>
              forall j :: i + 1 - period <= j <= i ==> Gains(closes)[j] == 0.0 && Losses(closes)[j] == 0.0
  {
    GainsAndLosses(closes);
    var gains, losses := Gains(closes), Losses(closes);
    var avgGain := Series.RollingMean(gains, period);
    var avgLoss := Series.RollingMean(losses, period);
    Series.RollingMeanNonnegative(gains, period, i);
    Series.RollingMeanNonnegative(losses, period, i);
    RsiOfShare(avgGain[i], avgLoss[i]);
    if period <= i + 1 && Rsi(closes, period)[i].None? {
      Series.RollingMeanZero(gains, period, i);
      Series.RollingMeanZero(losses, period, i);
    }
  }

  // ---------------------------------------------------------------------------
  // The signal state machine
  // ---------------------------------------------------------------------------

  /** The strategy's parameters. */
  datatype Config = Config(rsiPeriod: nat, oversold: real, overbought: real, stopLoss: real, takeProfit: real)

  /** The constructor's defaults: a 14-bar RSI, 30/70 thresholds, 5% stop-loss, 10% take-profit. */
  const DefaultConfig := Config(14, 30.0, 70.0, 0.05, 0.10)

  /** The fields the signal pass updates: the position, the entry price and the entry date. */
  datatype State = State(position: int, entryPrice: real, entryDate: Option<string>)

  /** Flat with no entry: the state at construction and after `backtest`'s reset. */
  const Reset := State(0, 0.0, None)

  /** Long or flat, and a long position has a positive entry price to measure the change from. */
  predicate ValidState(s: State)
  {
    (s.position == 0 || s.position == 1) && (s.position == 1 ==> s.entryPrice > 0.0)
  }

  /** `(current_price - entry_price) / entry_price`. */
  function Change(price: real, entry: real): real
    requires entry > 0.0
  {
    (price - entry) / entry
  }

  /**
   * The exit thresholds as prices: the stop-loss fires once the close has
   * fallen to `entry * (1 - stop_loss)`, the take-profit once it has risen to
   * `entry * (1 + take_profit)`.
   */
  lemma ChangeThresholds(price: real, entry: real, stopLoss: real, takeProfit: real)
    requires entry > 0.0
    ensures Change(price, entry) <= -stopLoss <==> price <= entry * (1.0 - stopLoss)
    ensures Change(price, entry) >= takeProfit <==> price >= entry * (1.0 + takeProfit)
  {
    var c := Change(price, entry);
    assert c * entry == price - entry;
    assert price == entry * (1.0 + c);
    if c <= -stopLoss {
      assert entry * c <= entry * -stopLoss;
    }
    if price <= entry * (1.0 - stopLoss) {
      assert entry * c <= entry * -stopLoss;
    }
    if c >= takeProfit {
      assert entry * c >= entry * takeProfit;
    }
    if price >= entry * (1.0 + takeProfit) {
      assert entry * c >= entry * takeProfit;
    }
  }

  /** The state after one bar and the row the bar gets. */
  datatype Move = Move(state: State, row: SignalRow)

  /**
   * One bar of the signal loop. While long, the stop-loss and then the
   * take-profit test run first; either one exits and skips the RSI rules (the
   * row's position keeps its initial 0). Otherwise an RSI below `oversold` while
   * flat enters at the close, an RSI above `overbought` while long exits, and
   * any other bar records the position unchanged. The entry price and date
   * survive an exit.
   */
  function Step(c: Config, s: State, bar: Bar, rsi: Option<real>): (m: Move)
    requires ValidState(s) && bar.close > 0.0
    ensures ValidState(m.state)
  {
    var price := bar.close;
    if s.position == 1 && Change(price, s.entryPrice) <= -c.stopLoss then
      Move(State(0, s.entryPrice, s.entryDate), SignalRow(-1, 0, StopLoss(price, s.entryPrice)))
    else if s.position == 1 && Change(price, s.entryPrice) >= c.takeProfit then
      Move(State(0, s.entryPrice, s.entryDate), SignalRow(-1, 0, TakeProfit(price, s.entryPrice)))
    else if Series.Lt(rsi, Some(c.oversold)) && s.position == 0 then
      Move(State(1, price, Some(bar.date)), SignalRow(1, 1, Oversold(rsi.value)))
    else if Series.Gt(rsi, Some(c.overbought)) && s.position == 1 then
      Move(State(0, s.entryPrice, s.entryDate), SignalRow(-1, 0, Overbought(rsi.value, price, s.entryPrice)))
    else
      Move(s, SignalRow(0, s.position, NoReason))
  }

  /**
   * What a bar's signal means. A +1 fires exactly when flat with an RSI below
   * `oversold`, and enters at the bar's close and date. A -1 fires exactly when
   * long and the close is at the stop-loss or take-profit price or the RSI is
   * above `overbought`, and goes flat. Each signal is one a long/flat machine
   * may emit, the new position is the old one acted on by the signal, and the
   * row records the new position.
   */
  lemma StepSignals(c: Config, s: State, bar: Bar, rsi: Option<real>)
    requires ValidState(s) && bar.close > 0.0
    ensures var m := Step(c, s, bar, rsi);
            (m.row.signal == 1 <==> s.position == 0 && Series.Lt(rsi, Some(c.oversold)))
            && (m.row.signal == 1 ==> m.state.entryPrice == bar.close && m.state.entryDate == Some(bar.date))
            && (m.row.signal == -1 <==>
                  s.position == 1 && (bar.close <= s.entryPrice * (1.0 - c.stopLoss)
                                      || bar.close >= s.entryPrice * (1.0 + c.takeProfit)
                                      || Series.Gt(rsi, Some(c.overbought))))
            && Signals.Permitted(s.position, m.row.signal)
            && m.state.position == Signals.Act(s.position, m.row.signal)
            && m.row.position == m.state.position
  {
    if s.position == 1 {
      ChangeThresholds(bar.close, s.entryPrice, c.stopLoss, c.takeProfit);
    }
  }

  /** The state and the signal rows after the first `n` bars. */
  datatype Scan = Scan(state: State, rows: seq<SignalRow>)

  /**
   * `generate_signals` over the first `n` bars from state `s0`: the bars
   * before `rsi_period` keep the blank row and leave the state alone.
   */
  function Pass(c: Config, s0: State, bars: seq<Bar>, rsi: seq<Option<real>>, n: nat): (p: Scan)
    requires ValidState(s0) && PositiveCloses(bars) && |rsi| == |bars| && n <= |bars|
    ensures ValidState(p.state) && |p.rows| == n
    decreases n
  {
    if n == 0 then Scan(s0, [])
    else
      var prev := Pass(c, s0, bars, rsi, n - 1);
      if n - 1 < c.rsiPeriod then Scan(prev.state, prev.rows + [Blank])
      else
        var m := Step(c, prev.state, bars[n - 1], rsi[n - 1]);
        Scan(m.state, prev.rows + [m.row])
  }

  /** Later bars never rewrite an earlier row. */
  lemma {:induction false} PassRow(c: Config, s0: State, bars: seq<Bar>, rsi: seq<Option<real>>, n: nat, k: nat)
    requires ValidState(s0) && PositiveCloses(bars) && |rsi| == |bars| && n <= |bars|
    requires k < n
    ensures Pass(c, s0, bars, rsi, n).rows[k] == Pass(c, s0, bars, rsi, k + 1).rows[k]
    decreases n
  {
    if k < n - 1 {
      PassRow(c, s0, bars, rsi, n - 1, k);
    }
  }

  /** Up to bar `rsi_period` nothing is written and the state is untouched. */
  lemma {:induction false} PassQuiet(c: Config, s0: State, bars: seq<Bar>, rsi: seq<Option<real>>, n: nat)
    requires ValidState(s0) && PositiveCloses(bars) && |rsi| == |bars| && n <= |bars|
    requires n <= c.rsiPeriod
    ensures Pass(c, s0, bars, rsi, n) == Scan(s0, BlankRows(n))
    decreases n
  {
    if n > 0 {
      PassQuiet(c, s0, bars, rsi, n - 1);
      assert BlankRows(n - 1) + [Blank] == BlankRows(n);
    }
  }

  /** No signal at a bar index below `rsi_period`. */
  lemma WarmUpSilent(c: Config, s0: State, bars: seq<Bar>, rsi: seq<Option<real>>, k: nat)
    requires ValidState(s0) && PositiveCloses(bars) && |rsi| == |bars|
    requires k < |bars| && k < c.rsiPeriod
    ensures Pass(c, s0, bars, rsi, |bars|).rows[k] == Blank
  {
    PassRow(c, s0, bars, rsi, |bars|, k);
    PassQuiet(c, s0, bars, rsi, k + 1);
  }

  /** The last bar of a pass emits a signal its position permits and acts on it, recording a position in {0, 1}. */
  lemma PassStep(c: Config, s0: State, bars: seq<Bar>, rsi: seq<Option<real>>, n: nat)
    requires ValidState(s0) && PositiveCloses(bars) && |rsi| == |bars| && 0 < n <= |bars|
    ensures var prev, p := Pass(c, s0, bars, rsi, n - 1), Pass(c, s0, bars, rsi, n);
            p.rows == prev.rows + [p.rows[n - 1]]
            && Signals.Permitted(prev.state.position, p.rows[n - 1].signal)
            && p.state.position == Signals.Act(prev.state.position, p.rows[n - 1].signal)
            && (p.rows[n - 1].position == 0 || p.rows[n - 1].position == 1)
  {
    var prev := Pass(c, s0, bars, rsi, n - 1);
    if n - 1 >= c.rsiPeriod {
      StepSignals(c, prev.state, bars[n - 1], rsi[n - 1]);
    }
  }

  /**
   * The signal column is one a long/flat machine emits from the starting
   * position, and the final position is the fold of that column.
   */
  lemma {:induction false} PassAlternates(c: Config, s0: State, bars: seq<Bar>, rsi: seq<Option<real>>, n: nat)
    requires ValidState(s0) && PositiveCloses(bars) && |rsi| == |bars| && n <= |bars|
    ensures var p := Pass(c, s0, bars, rsi, n);
            Signals.AlternatesFrom(s0.position, SignalColumn(p.rows))
            && p.state.position == Signals.PositionAfter(s0.position, SignalColumn(p.rows))
    decreases n
  {
    if n > 0 {
      var prev := Pass(c, s0, bars, rsi, n - 1);
      PassAlternates(c, s0, bars, rsi, n - 1);
      PassStep(c, s0, bars, rsi, n);
      var p := Pass(c, s0, bars, rsi, n);
      var x := p.rows[n - 1].signal;
      assert SignalColumn(p.rows) == SignalColumn(prev.rows) + [x];
      Signals.AlternatesSnoc(s0.position, SignalColumn(prev.rows), x);
      Signals.PositionAfterSnoc(s0.position, SignalColumn(prev.rows), x);
    }
  }

  /** Every row of the position column holds 0 or 1. */
  lemma PassPositions(c: Config, s0: State, bars: seq<Bar>, rsi: seq<Option<real>>, k: nat)
    requires ValidState(s0) && PositiveCloses(bars) && |rsi| == |bars| && k < |bars|
    ensures Pass(c, s0, bars, rsi, |bars|).rows[k].position == 0 || Pass(c, s0, bars, rsi, |bars|).rows[k].position == 1
  {
    PassRow(c, s0, bars, rsi, |bars|, k);
    PassStep(c, s0, bars, rsi, k + 1);
  }

  /**
   * From a reset, the nonzero signals strictly alternate +1, -1, +1, ...
   * starting with +1, and the strategy ends long exactly when their count is odd.
   */
  lemma ResetAlternates(c: Config, bars: seq<Bar>, rsi: seq<Option<real>>)
    requires PositiveCloses(bars) && |rsi| == |bars|
    ensures var s := SignalColumn(Pass(c, Reset, bars, rsi, |bars|).rows);
            Pass(c, Reset, bars, rsi, |bars|).state.position == |Signals.Nonzero(s)| % 2
            && forall k :: 0 <= k < |Signals.Nonzero(s)| ==> Signals.Nonzero(s)[k] == (if k % 2 == 0 then 1 else -1)
  {
    PassAlternates(c, Reset, bars, rsi, |bars|);
    Signals.AlternationFromFlat(SignalColumn(Pass(c, Reset, bars, rsi, |bars|).rows));
  }

  // ---------------------------------------------------------------------------
  // Metrics
  // ---------------------------------------------------------------------------

  /** How many of the first `n` buy/sell pairs, matched by position, sold for more than they bought. */
  function ProfitablePairs(buys: seq<Trade>, sells: seq<Trade>, n: nat): (p: nat)
    requires n <= |buys| && n <= |sells|
    ensures p <= n
  {
    if n == 0 then 0
    else ProfitablePairs(buys, sells, n - 1) + (if Series.Gt(sells[n - 1].amount, buys[n - 1].amount) then 1 else 0)
  }

  function Min(a: nat, b: nat): nat
  {
    if a < b then a else b
  }

  /**
   * The positional win rate: the i-th sell is compared with the i-th buy, and
   * the profitable count is divided by `total_trades // 2`; 0 with fewer than
   * two trades.
   */
  function WinRate(trades: seq<Trade>): (w: real)
    ensures 0.0 <= w <= 100.0
    ensures |trades| < 2 ==> w == 0.0
  {
    if |trades| < 2 then 0.0
    else
      var buys, sells := StrategyMetrics.Buys(trades), StrategyMetrics.Sells(trades);
      var p := ProfitablePairs(buys, sells, Min(|buys|, |sells|));
      StrategyMetrics.BuysAndSellsSplit(trades);
      Percent(p, |trades| / 2)
  }

  /** `count / of * 100`: a share of `of`, as a percentage. */
  function Percent(count: nat, of: nat): (r: real)
    requires of > 0
    ensures count <= of ==> 0.0 <= r <= 100.0
    ensures count == of ==> r == 100.0
  {
    var q := count as real / of as real;
    assert q * of as real == count as real;
    q * 100.0
  }

  /** A log whose every matched pair sold for more than it bought has a win rate of 100 when it alternates. */
  lemma WinRateAllProfitable(trades: seq<Trade>)
    requires |trades| >= 2 && |trades| % 2 == 0
    requires |StrategyMetrics.Buys(trades)| == |StrategyMetrics.Sells(trades)|
    requires var buys, sells := StrategyMetrics.Buys(trades), StrategyMetrics.Sells(trades);
             forall i :: 0 <= i < |buys| ==> Series.Gt(sells[i].amount, buys[i].amount)
    ensures WinRate(trades) == 100.0
  {
    var buys, sells := StrategyMetrics.Buys(trades), StrategyMetrics.Sells(trades);
    StrategyMetrics.BuysAndSellsSplit(trades);
    AllProfitable(buys, sells, |buys|);
    assert |buys| == |trades| / 2;
  }

  lemma {:induction false} AllProfitable(buys: seq<Trade>, sells: seq<Trade>, n: nat)
    requires n <= |buys| && n <= |sells|
    requires forall i :: 0 <= i < n ==> Series.Gt(sells[i].amount, buys[i].amount)
    ensures ProfitablePairs(buys, sells, n) == n
  {
    if n > 0 {
      AllProfitable(buys, sells, n - 1);
    }
  }

  /** The profitable-pair loop of `_calculate_metrics`. */
  method CountProfitable(buys: seq<Trade>, sells: seq<Trade>) returns (profitable: nat)
    ensures profitable == ProfitablePairs(buys, sells, Min(|buys|, |sells|))
  {
    profitable := 0;
    if |buys| > 0 && |sells| > 0 {
      var i := 0;
      while i < Min(|buys|, |sells|)
        invariant i <= Min(|buys|, |sells|)
        invariant profitable == ProfitablePairs(buys, sells, i)
      {
        if Series.Gt(sells[i].amount, buys[i].amount) {
          profitable := profitable + 1;
        }
        i := i + 1;
      }
    }
  }

  /** `(final / initial) ** (252 / days) - 1`, as a percentage. */
  function Annualized(final: real, initial: real, days: nat, lib: FloatLib): real
    requires initial > 0.0 && days > 0
  {
    (lib.pow(final / initial, 252.0 / days as real) - 1.0) * 100.0
  }

  /** `std() * sqrt(252) * 100` of the daily returns, or 0 with fewer than two of them. */
  function Volatility(changes: seq<real>, lib: FloatLib): (v: real)
    ensures |changes| <= 1 ==> v == 0.0
  {
    if |changes| > 1 then lib.std(changes) * lib.sqrt(252.0) * 100.0 else 0.0
  }

  /** `(annualized / 100 - 0.03) / (volatility / 100)`, or 0 without volatility. */
  function Sharpe(annualized: real, volatility: real): (s: real)
    ensures volatility <= 0.0 ==> s == 0.0
  {
    if volatility > 0.0 then (annualized / 100.0 - 0.03) / (volatility / 100.0) else 0.0
  }

  /**
   * `_calculate_metrics` of the RSI strategy, without rounding: the drawdown is
   * the (non-positive) minimum, the trade total counts buys and sells, and the
   * Sharpe ratio subtracts a 3% risk-free rate.
   */
  function Metrics(snaps: seq<Snapshot>, trades: seq<Trade>, initial: real, final: real, lib: FloatLib): (m: Market.Metrics)
    requires snaps != [] ==> initial > 0.0 && PositiveValues(snaps)
    ensures snaps == [] ==> m == ZeroMetrics
    ensures snaps != [] ==> m.finalValue == final && m.totalReturn == (final - initial) / initial * 100.0
    ensures snaps != [] ==> m.totalTrades == |trades| && -100.0 < m.maxDrawdown <= 0.0
    ensures 0.0 <= m.winRate <= 100.0
    ensures |trades| < 2 ==> m.winRate == 0.0
    ensures |snaps| <= 2 ==> m.volatility == 0.0
    ensures m.volatility <= 0.0 ==> m.sharpeRatio == 0.0
  {
    if snaps == [] then ZeroMetrics
    else
      var totalReturn := (final - initial) / initial * 100.0;
      var values := Values(snaps);
      var annualized := Annualized(final, initial, |snaps|, lib);
      var volatility := Volatility(StrategyMetrics.PctChange(values), lib);
      StrategyMetrics.WorstDrawdownBounds(values);
      Market.Metrics(totalReturn, annualized, volatility, Sharpe(annualized, volatility), StrategyMetrics.WorstDrawdown(values),
                     |trades|, WinRate(trades), final)
  }

  /** The trade statistics of `_calculate_metrics`: the profitable pairs over `total_trades // 2`. */
  method PositionalWinRate(trades: seq<Trade>) returns (winRate: real)
    ensures winRate == WinRate(trades)
  {
    winRate := 0.0;
    if |trades| > 0 {
      var buys, sells := StrategyMetrics.Buys(trades), StrategyMetrics.Sells(trades);
      var profitable := CountProfitable(buys, sells);
      winRate := if |trades| >= 2 then Percent(profitable, |trades| / 2) else 0.0;
    }
  }

  /** `_calculate_metrics`: the formulas of `Metrics`, with the profitable pairs counted by a loop. */
  method CalculateMetrics(snaps: seq<Snapshot>, trades: seq<Trade>, initial: real, final: real, lib: FloatLib)
    returns (m: Market.Metrics)
    requires snaps != [] ==> initial > 0.0 && PositiveValues(snaps)
    ensures m == Metrics(snaps, trades, initial, final, lib)
  {
    if snaps == [] {
      return ZeroMetrics;
    }
    var totalReturn := (final - initial) / initial * 100.0;
    var values := Values(snaps);
    var annualized := Annualized(final, initial, |snaps|, lib);
    var volatility := Volatility(StrategyMetrics.PctChange(values), lib);
    var sharpe := Sharpe(annualized, volatility);
    var maxDrawdown := StrategyMetrics.WorstDrawdown(values);
    var winRate := PositionalWinRate(trades);
    m := Market.Metrics(totalReturn, annualized, volatility, sharpe, maxDrawdown, |trades|, winRate, final);
  }

  // ---------------------------------------------------------------------------
  // The backtest
  // ---------------------------------------------------------------------------

  /** The RSI simulator: buy when cash is positive, no fees, full trade records. */
  const Terms := Portfolio.Terms(Portfolio.CashPositive, 1.0, 1.0, true)

  /** What `backtest` returns: trades, snapshots, metrics and the frame's RSI and signal columns. */
  datatype Outcome = Outcome(trades: seq<Trade>, snapshots: seq<Snapshot>, metrics: Market.Metrics,
                             rsi: seq<Option<real>>, rows: seq<SignalRow>)

  /**
   * `backtest` as a function of its inputs: reset, signals, simulation, final
   * value and metrics. A frame with no rows fails at `df.iloc[-1]`.
   */
  function BacktestOf(c: Config, bars: seq<Bar>, initial: real, lib: FloatLib): (r: Result<Outcome, BacktestError>)
    requires c.rsiPeriod >= 1 && PositiveCloses(bars) && initial > 0.0
    ensures r.Failure? <==> bars == []
  {
    if bars == [] then Failure(EmptySeries)
    else
      var rsi := Rsi(Closes(bars), c.rsiPeriod);
      var scan := Pass(c, Reset, bars, rsi, |bars|);
      var run := Portfolio.Simulate(Terms, bars, scan.rows, initial, |bars|);
      var final := Portfolio.Value(run.book, bars[|bars| - 1].close);
      Portfolio.SnapshotsPositive(Terms, bars, scan.rows, initial);
      Success(Outcome(run.trades, run.snapshots, Metrics(run.snapshots, run.trades, initial, final, lib),
                      rsi, scan.rows))
  }

  /**
   * A successful backtest has one snapshot per bar, dated by the bar and worth
   * more than nothing; trades alternate buy, sell, buy, ... from a buy; no bar
   * before `rsi_period` carries a signal; every recorded position is 0 or 1;
   * the reported final value is positive and the trade total is the log's length.
   */
  lemma BacktestSound(c: Config, bars: seq<Bar>, initial: real, lib: FloatLib)
    requires c.rsiPeriod >= 1 && PositiveCloses(bars) && initial > 0.0 && bars != []
    ensures var o := BacktestOf(c, bars, initial, lib).value;
            |o.snapshots| == |bars| && |o.rows| == |bars|
            && (forall k :: 0 <= k < |bars| ==> o.snapshots[k].date == bars[k].date && o.snapshots[k].value > 0.0)
            && (forall k :: 0 <= k < |o.trades| ==> o.trades[k].action == (if k % 2 == 0 then Buy else Sell))
            && (forall k :: 0 <= k < |bars| && k < c.rsiPeriod ==> o.rows[k] == Blank)
            && (forall k :: 0 <= k < |bars| ==> o.rows[k].position == 0 || o.rows[k].position == 1)
            && o.metrics.finalValue > 0.0 && o.metrics.totalTrades == |o.trades|
  {
    var rsi := Rsi(Closes(bars), c.rsiPeriod);
    var rows := Pass(c, Reset, bars, rsi, |bars|).rows;
    var run := Portfolio.Simulate(Terms, bars, rows, initial, |bars|);
    PassAlternates(c, Reset, bars, rsi, |bars|);
    assert rows[..|bars|] == rows;
    Portfolio.TradesAlternate(Terms, bars, rows, initial, |bars|);
    Portfolio.SnapshotsPositive(Terms, bars, rows, initial);
    forall k | 0 <= k < |bars|
      ensures run.snapshots[k].date == bars[k].date
    {
      Portfolio.SnapshotsPerBar(Terms, bars, rows, initial, |bars|, k);
    }
    forall k | 0 <= k < |bars| && k < c.rsiPeriod
      ensures rows[k] == Blank
    {
      WarmUpSilent(c, Reset, bars, rsi, k);
    }
    forall k | 0 <= k < |bars|
      ensures rows[k].position == 0 || rows[k].position == 1
    {
      PassPositions(c, Reset, bars, rsi, k);
    }
    assert Portfolio.FinalValue(Terms, bars, rows, initial) > 0.0;
  }

  /**
   * The strategy object: its parameters, and the position, entry price and
   * entry date the signal pass updates in place.
   */
  class RsiStrategy {
    const rsiPeriod: nat
    const oversold: real
    const overbought: real
    const stopLoss: real
    const takeProfit: real
    var position: int
    var entryPrice: real
    var entryDate: Option<string>

    function Settings(): Config
    {
      Config(rsiPeriod, oversold, overbought, stopLoss, takeProfit)
    }

    function Current(): State
      reads this
    {
      State(position, entryPrice, entryDate)
    }

    predicate Valid()
      reads this
    {
      rsiPeriod >= 1 && ValidState(Current())
    }

    constructor (rsiPeriod: nat, oversold: real, overbought: real, stopLoss: real, takeProfit: real)
      requires rsiPeriod >= 1
      ensures Valid() && Current() == Reset
      ensures Settings() == Config(rsiPeriod, oversold, overbought, stopLoss, takeProfit)
    {
      this.rsiPeriod := rsiPeriod;
      this.oversold := oversold;
      this.overbought := overbought;
      this.stopLoss := stopLoss;
      this.takeProfit := takeProfit;
      position := 0;
      entryPrice := 0.0;
      entryDate := None;
    }

    /** The body of the signal loop for one bar at or after `rsi_period`. */
    method OnBar(bar: Bar, rsi: Option<real>) returns (row: SignalRow)
      requires Valid() && bar.close > 0.0
      modifies this
      ensures Valid()
      ensures Move(Current(), row) == Step(Settings(), old(Current()), bar, rsi)
    {
      var price := bar.close;
      if position == 1 {
        var change := (price - entryPrice) / entryPrice;
        if change <= -stopLoss {
          row := SignalRow(-1, 0, StopLoss(price, entryPrice));
          position := 0;
          return;
        } else if change >= takeProfit {
          row := SignalRow(-1, 0, TakeProfit(price, entryPrice));
          position := 0;
          return;
        }
      }
      if Series.Lt(rsi, Some(oversold)) && position == 0 {
        row := SignalRow(1, 1, Oversold(rsi.value));
        position := 1;
        entryPrice := price;
        entryDate := Some(bar.date);
      } else if Series.Gt(rsi, Some(overbought)) && position == 1 {
        row := SignalRow(-1, 0, Overbought(rsi.value, price, entryPrice));
        position := 0;
      } else {
        row := SignalRow(0, position, NoReason);
      }
    }

    /**
     * `generate_signals`: the RSI column, then the blank signal rows filled in
     * from bar `rsi_period` on, carrying the object's state from wherever the
     * previous call left it.
     */
    method GenerateSignals(bars: seq<Bar>) returns (rsi: seq<Option<real>>, rows: seq<SignalRow>)
      requires Valid() && PositiveCloses(bars)
      modifies this
      ensures Valid()
      ensures rsi == Rsi(Closes(bars), rsiPeriod)
      ensures Scan(Current(), rows) == Pass(Settings(), old(Current()), bars, rsi, |bars|)
    {
      rsi := Rsi(Closes(bars), rsiPeriod);
      rows := BlankRows(|bars|);
      ghost var s0 := Current();
      var i := if rsiPeriod < |bars| then rsiPeriod else |bars|;
      PassQuiet(Settings(), s0, bars, rsi, i);
      assert rows == BlankRows(i) + BlankRows(|bars| - i);
      while i < |bars|
        invariant i <= |bars| && (rsiPeriod <= i || i == |bars|)
        invariant Valid()
        invariant Current() == Pass(Settings(), s0, bars, rsi, i).state
        invariant rows == Pass(Settings(), s0, bars, rsi, i).rows + BlankRows(|bars| - i)
      {
        ghost var done := Pass(Settings(), s0, bars, rsi, i).rows;
        var row := OnBar(bars[i], rsi[i]);
        BlankRowsFill(done, row, |bars| - i);
        rows := rows[i := row];
        i := i + 1;
      }
      assert BlankRows(0) == [];
    }

    /**
     * `backtest`: reset the state, generate the signals, run the simulator and
     * compute the metrics. The result depends only on the parameters and the
     * inputs, so two runs on the same data agree.
     */
    method Backtest(bars: seq<Bar>, initial: real, lib: FloatLib) returns (r: Result<Outcome, BacktestError>)
      requires Valid() && PositiveCloses(bars) && initial > 0.0
      modifies this
      ensures Valid()
      ensures r == BacktestOf(Settings(), bars, initial, lib)
      ensures Current() == Pass(Settings(), Reset, bars, Rsi(Closes(bars), rsiPeriod), |bars|).state
    {
      position, entryPrice, entryDate := 0, 0.0, None;
      var rsi, rows := GenerateSignals(bars);
      var capital, shares, trades, snapshots := Portfolio.RunSimulator(Terms, bars, rows, initial);
      if |bars| == 0 {
        return Failure(EmptySeries);
      }
      ghost var run := Portfolio.Simulate(Terms, bars, rows, initial, |bars|);
      assert rows == Pass(Settings(), Reset, bars, rsi, |bars|).rows;
      assert trades == run.trades && snapshots == run.snapshots && Portfolio.Book(capital, shares) == run.book;
      var final := Portfolio.Value(Portfolio.Book(capital, shares), bars[|bars| - 1].close);
      Portfolio.SnapshotsPositive(Terms, bars, rows, initial);
      var metrics := CalculateMetrics(snapshots, trades, initial, final, lib);
      r := Success(Outcome(trades, snapshots, metrics, rsi, rows));
    }
  }
}
