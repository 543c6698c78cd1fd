/**
 * The values the backtesting engine passes around: price bars, signal rows,
 * trade records, portfolio snapshots and the metrics record.
 */
module Market {
  import opened Wrappers

  /** One OHLCV observation. Dates are opaque strings ordered lexicographically. */
  datatype Bar = Bar(date: string, open: real, high: real, low: real, close: real, volume: real)

  /** The close column of a series. */
  function Closes(bars: seq<Bar>): (cs: seq<real>)
    ensures |cs| == |bars|
    ensures forall i :: 0 <= i < |bars| ==> cs[i] == bars[i].close
  {
    seq(|bars|, i requires 0 <= i < |bars| => bars[i].close)
  }

  /** Every close is strictly positive, so dividing by a close is defined. */
  predicate PositiveCloses(bars: seq<Bar>)
  {
    forall i :: 0 <= i < |bars| ==> bars[i].close > 0.0
  }

  /** Python's `str <` on strings: lexicographic order on characters. */
  predicate StrLess(a: string, b: string)
    decreases |a|
  {
    if |b| == 0 then false
    else if |a| == 0 then true
    else if a[0] != b[0] then a[0] < b[0]
    else StrLess(a[1..], b[1..])
  }

  /** What a script assigned to `signal`: a number (bools are 0/1) or some other object. */
  datatype RawSignal = Number(x: real) | NonNumeric

  /**
   * The text a strategy attaches to a signal and to the trade it causes. The
   * numbers the source formats into the text are kept; the rendering is not modelled.
   */
  datatype Reason =
    | NoReason                                   // ''
    | GoldenCross                                // MA golden-cross buy
    | DeathCross                                 // MA death-cross sell
    | StopLoss(price: real, entry: real)         // RSI stop-loss exit
    | TakeProfit(price: real, entry: real)       // RSI take-profit exit
    | Oversold(rsi: real)                        // RSI entry
    | Overbought(rsi: real, price: real, entry: real)  // RSI exit
    | BelowLowerBand(price: real, lower: real)   // Bollinger long entry
    | AboveUpperBand(price: real, upper: real)   // Bollinger short entry
    | LongReverted(price: real, entry: real)     // Bollinger long exit
    | ShortReverted(price: real, entry: real)    // Bollinger short exit
    | Script(text: string)                       // reason a custom script assigned
    | InvalidSignal(shown: RawSignal)            // custom script returned an out-of-range signal
    | ScriptFailed(message: string)              // custom script raised

  /** The per-bar columns a signal pass writes: signal, position and reason. */
  datatype SignalRow = SignalRow(signal: int, position: int, reason: Reason)

  /** The row every signal pass starts from: `signal = 0`, `position = 0`, `reason = ''`. */
  const Blank := SignalRow(0, 0, NoReason)

  /** A column of `n` untouched rows. */
  function BlankRows(n: nat): (rows: seq<SignalRow>)
    ensures |rows| == n
    ensures forall i :: 0 <= i < n ==> rows[i] == Blank
  {
    seq(n, _ => Blank)
  }

  /**
   * Writing row `|done|` of a column whose first `|done|` rows are filled and
   * whose rest is untouched fills one more row.
   */
  lemma BlankRowsFill(done: seq<SignalRow>, row: SignalRow, m: nat)
    requires m >= 1
    ensures (done + BlankRows(m))[|done| := row] == done + [row] + BlankRows(m - 1)
  {
    var lhs := (done + BlankRows(m))[|done| := row];
    var rhs := done + [row] + BlankRows(m - 1);
    assert |lhs| == |rhs|;
    forall k | 0 <= k < |lhs|
      ensures lhs[k] == rhs[k]
    {
      if k > |done| {
        assert rhs[k] == BlankRows(m - 1)[k - |done| - 1];
      }
    }
  }

  /** The signal column of a signal pass. */
  function SignalColumn(rows: seq<SignalRow>): (s: seq<int>)
    ensures |s| == |rows|
    ensures forall i :: 0 <= i < |rows| ==> s[i] == rows[i].signal
  {
    seq(|rows|, i requires 0 <= i < |rows| => rows[i].signal)
  }

  datatype Action = Buy | Sell

  /**
   * A trade record. `amount` and `valueAfter` (the trade's `portfolio_value`)
   * are absent from the records the MA-cross and Bollinger strategies emit.
   */
  datatype Trade = Trade(date: string, action: Action, price: real, quantity: int,
                         amount: Option<real>, reason: Reason, valueAfter: Option<real>)

  /** A per-bar portfolio snapshot: mark-to-market value, cash, shares and close. */
  datatype Snapshot = Snapshot(date: string, value: real, capital: real, shares: int, price: real)

  /** The `portfolio_value` column of a snapshot list. */
  function Values(snaps: seq<Snapshot>): (vs: seq<real>)
    ensures |vs| == |snaps|
    ensures forall i :: 0 <= i < |snaps| ==> vs[i] == snaps[i].value
  {
    seq(|snaps|, i requires 0 <= i < |snaps| => snaps[i].value)
  }

  /** Every snapshot value is strictly positive, so running peaks can be divided by. */
  predicate PositiveValues(snaps: seq<Snapshot>)
  {
    forall i :: 0 <= i < |snaps| ==> snaps[i].value > 0.0
  }

  /** The metrics record every strategy reports. */
  datatype Metrics = Metrics(totalReturn: real, annualizedReturn: real, volatility: real,
                             sharpeRatio: real, maxDrawdown: real, totalTrades: int,
                             winRate: real, finalValue: real)

  /** The all-zero record returned when there is nothing to measure. */
  const ZeroMetrics := Metrics(0.0, 0.0, 0.0, 0.0, 0.0, 0, 0.0, 0.0)

  /**
   * The floating-point library routines the metrics call, supplied by the
   * caller: `pow(x, y)` is `x ** y`, `std(xs)` is the sample standard deviation
   * pandas computes (undefined for fewer than two values, which every caller
   * guards against) and `sqrt(x)` is `x ** 0.5`.
   */
  datatype FloatLib = FloatLib(pow: (real, real) -> real, std: seq<real> -> real, sqrt: real -> real)

  /** Why a backtest aborts. */
  datatype BacktestError =
    | EmptySeries            // `df.iloc[-1]` on a frame with no rows raises IndexError
}
