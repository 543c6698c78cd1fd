/**
 * The custom-rule strategy: a user script, run once per bar, proposes a
 * signal; a long/flat gate accepts a buy only when flat and a sell only when
 * long; a fee-charging whole-share simulator trades the accepted signals.
 *
 * The script itself is arbitrary host-language code run in a sandbox. Here it
 * is a function from the bar's context to what the script assigned (or the
 * exception it raised); the indicator panel the strategy computes before the
 * loop is likewise an input.
 */
module Custom {
  import opened Wrappers
  import opened Market
  import Signals
  import Portfolio
  import StrategyMetrics

  // ---------------------------------------------------------------------------
  // validate_code
  // ---------------------------------------------------------------------------

  /** The characters Python's `str.isspace` accepts, which `str.strip()` removes. */
  predicate IsSpace(ch: char)
  {
    ('\t' <= ch <= '\r') || ('\U{1C}' <= ch <= '\U{1F}') || ch == ' ' || ch == '\U{85}' || ch == '\U{A0}'
    || ch == '\U{1680}' || ('\U{2000}' <= ch <= '\U{200A}') || ch == '\U{2028}' || ch == '\U{2029}'
    || ch == '\U{202F}' || ch == '\U{205F}' || ch == '\U{3000}'
  }

  /** `s.lstrip()`: the leading whitespace removed. */
  function TrimStart(s: string): (t: string)
    ensures |t| <= |s| && t == s[|s| - |t|..]
    ensures forall i :: 0 <= i < |s| - |t| ==> IsSpace(s[i])
    ensures t != [] ==> !IsSpace(t[0])
  {
    if s != [] && IsSpace(s[0]) then TrimStart(s[1..]) else s
  }

  /** `s.rstrip()`: the trailing whitespace removed. */
  function TrimEnd(s: string): (t: string)
    ensures |t| <= |s| && t == s[..|t|]
    ensures forall i :: |t| <= i < |s| ==> IsSpace(s[i])
    ensures t != [] ==> !IsSpace(t[|t| - 1])
  {
    if s != [] && IsSpace(s[|s| - 1]) then TrimEnd(s[..|s| - 1]) else s
  }

  /** `s.strip()`. */
  function Strip(s: string): string
  {
    TrimEnd(TrimStart(s))
  }

  /** Code that strips to nothing: no script to run. */
  predicate BlankCode(code: string)
  {
    Strip(code) == []
  }

  /** Code strips to nothing exactly when every character of it is whitespace. */
  lemma BlankIffAllSpace(code: string)
    ensures BlankCode(code) <==> forall i :: 0 <= i < |code| ==> IsSpace(code[i])
  {
    var t := TrimStart(code);
    if BlankCode(code) {
      assert |t| == 0;
    } else {
      var u := Strip(code);
      assert u != [] && !IsSpace(u[0]);
      assert u[0] == code[|code| - |t|];
    }
  }

  /**
   * `validate_code`: blank code is accepted without being parsed; otherwise a
   * syntax error (what the parser, here a parameter, reports) becomes the
   * constructor's `ValueError`.
   */
  function ValidateCode(code: string, syntaxError: string -> Option<string>): (r: Option<string>)
    ensures BlankCode(code) ==> r.None?
    ensures r.Some? ==> syntaxError(code) == Some(r.value)
    ensures !BlankCode(code) && syntaxError(code).Some? ==> r.Some?
  {
    if BlankCode(code) then None else syntaxError(code)
  }

  // ---------------------------------------------------------------------------
  // execute_custom_logic
  // ---------------------------------------------------------------------------

  /**
   * A row of the frame the script sees: the bar and the indicator columns the
   * strategy adds to it (missing values already filled, so every one is a number).
   */
  datatype FrameRow = FrameRow(bar: Bar, indicators: map<string, real>)

  /** The close column of the frame, as bars. */
  function BarsOf(frame: seq<FrameRow>): (bars: seq<Bar>)
    ensures |bars| == |frame|
    ensures forall i :: 0 <= i < |frame| ==> bars[i] == frame[i].bar
  {
    seq(|frame|, i requires 0 <= i < |frame| => frame[i].bar)
  }

  /**
   * The variables the script can read: the current and previous rows, the
   * whole frame (later bars included), the index, the three history windows
   * and the strategy's own position, entry price and entry date. The rows are
   * the indicator frame; the `signal`, `position` and `reason` columns the
   * loop fills are not part of them, and the script is a pure function of
   * what it reads, so it cannot write into the frame.
   */
  datatype Context = Context(current: FrameRow, prev: FrameRow, data: seq<FrameRow>, index: nat,
                             history5: seq<FrameRow>, history10: seq<FrameRow>, history20: seq<FrameRow>,
                             position: int, entryPrice: real, entryDate: Option<string>)

  /** What running the script left behind: the `signal` and `reason` it assigned, or the exception it raised. */
  datatype ScriptResult = Assigned(signal: RawSignal, reason: string) | Raised(message: string)

  /**
   * `history_k`: `data.iloc[max(0, i-k+1):i+1]` once `i >= k - 1`, and
   * `data.iloc[:i+1]` before: the last `min(k, i + 1)` rows up to row `i`.
   */
  function History(frame: seq<FrameRow>, i: nat, k: nat): seq<FrameRow>
    requires k >= 1 && i < |frame|
  {
    if i >= k - 1 then
      var lo := if i - (k - 1) > 0 then i - (k - 1) else 0;
      frame[lo..i + 1]
    else frame[..i + 1]
  }

  /** A history window holds the last `min(k, i + 1)` rows, in order, ending with row `i`. */
  lemma HistoryWindow(frame: seq<FrameRow>, i: nat, k: nat)
    requires k >= 1 && i < |frame|
    ensures var h := History(frame, i, k);
            |h| == (if k < i + 1 then k else i + 1)
            && h == frame[i + 1 - |h|..i + 1]
            && h[|h| - 1] == frame[i]
  {
  }

  /** The variables `execute_custom_logic` hands the script at row `i`. */
  function ContextOf(frame: seq<FrameRow>, i: nat, s: State): Context
    requires i < |frame|
  {
    Context(frame[i], if i > 0 then frame[i - 1] else frame[i], frame, i,
            History(frame, i, 5), History(frame, i, 10), History(frame, i, 20),
            s.position, s.entryPrice, s.entryDate)
  }

  /**
   * What the script sees at row `i`: that row, the one before it (the row
   * itself on the first bar), the whole frame, and windows of the last 5, 10
   * and 20 rows (fewer near the start), each ending with row `i`; the
   * position and entry are the strategy's own.
   */
  lemma ContextFields(frame: seq<FrameRow>, i: nat, s: State)
    requires i < |frame|
    ensures var ctx := ContextOf(frame, i, s);
            ctx.current == frame[i] && ctx.data == frame && ctx.index == i
            && (i > 0 ==> ctx.prev == frame[i - 1]) && (i == 0 ==> ctx.prev == ctx.current)
            && |ctx.history5| == (if i < 5 then i + 1 else 5) && ctx.history5 == frame[i + 1 - |ctx.history5|..i + 1]
            && |ctx.history10| == (if i < 10 then i + 1 else 10) && ctx.history10 == frame[i + 1 - |ctx.history10|..i + 1]
            && |ctx.history20| == (if i < 20 then i + 1 else 20) && ctx.history20 == frame[i + 1 - |ctx.history20|..i + 1]
            && ctx.position == s.position && ctx.entryPrice == s.entryPrice && ctx.entryDate == s.entryDate
  {
    HistoryWindow(frame, i, 5);
    HistoryWindow(frame, i, 10);
    HistoryWindow(frame, i, 20);
  }

  /** A value `signal not in [-1, 0, 1]` lets through: a number equal to -1, 0 or 1 (`True` counts as 1). */
  predicate InRange(x: RawSignal)
  {
    x.Number? && (x.x == -1.0 || x.x == 0.0 || x.x == 1.0)
  }

  /** The reason column's text: empty text is the blank reason. */
  function ScriptReason(text: string): Reason
  {
    if text == [] then NoReason else Script(text)
  }

  /** A signal and its reason, as `execute_custom_logic` returns them. */
  datatype Decision = Decision(signal: int, reason: Reason)

  /**
   * `execute_custom_logic`, with the invalid-signal reason naming the value
   * the script returned. Blank code gives `(0, '')`; a raised exception gives
   * `(0, message)`; a value other than -1, 0 or 1 becomes 0.
   */
  function CustomLogic(code: string, script: Context -> ScriptResult, ctx: Context): (d: Decision)
  {
    if BlankCode(code) then Decision(0, NoReason)
    else
      match script(ctx)
      case Raised(message) => Decision(0, ScriptFailed(message))
      case Assigned(x, text) =>
        if !InRange(x) then Decision(0, InvalidSignal(x))
        else Decision(if x.x == 1.0 then 1 else if x.x == -1.0 then -1 else 0, ScriptReason(text))
  }

  /**
   * `execute_custom_logic` exactly as written: the signal is reset to 0
   * before the message is formatted, so the message always shows 0.
   */
  function CustomLogicAsWritten(code: string, script: Context -> ScriptResult, ctx: Context): (d: Decision)
  {
    if BlankCode(code) then Decision(0, NoReason)
    else
      match script(ctx)
      case Raised(message) => Decision(0, ScriptFailed(message))
      case Assigned(x, text) =>
        if !InRange(x) then
          var signal := Number(0.0);
          Decision(0, InvalidSignal(signal))
        else Decision(if x.x == 1.0 then 1 else if x.x == -1.0 then -1 else 0, ScriptReason(text))
  }

  /**
   * The returned signal is always -1, 0 or 1. A nonzero one is exactly what
   * the script assigned; blank code, a raised exception and an out-of-range
   * value all give 0, with the blank reason, the exception's message and the
   * offending value respectively.
   */
  lemma CustomLogicSignals(code: string, script: Context -> ScriptResult, ctx: Context)
    ensures var d := CustomLogic(code, script, ctx);
            -1 <= d.signal <= 1
            && (d.signal != 0 ==> !BlankCode(code) && script(ctx).Assigned? && script(ctx).signal == Number(d.signal as real))
            && (BlankCode(code) ==> d == Decision(0, NoReason))
            && (!BlankCode(code) && script(ctx).Raised? ==> d == Decision(0, ScriptFailed(script(ctx).message)))
            && (!BlankCode(code) && script(ctx).Assigned? && !InRange(script(ctx).signal) ==>
                  d == Decision(0, InvalidSignal(script(ctx).signal)))
  {
  }

  /**
   * As written, the invalid-signal reason names 0 whatever value the script
   * returned, a value that is not invalid at all: with a script that assigns
   * 2, the reason reads "invalid signal value: 0".
   */
  lemma InvalidReasonShowsZero(code: string, script: Context -> ScriptResult, ctx: Context)
    requires !BlankCode(code) && script(ctx).Assigned? && !InRange(script(ctx).signal)
    ensures CustomLogicAsWritten(code, script, ctx).reason == InvalidSignal(Number(0.0))
    ensures InRange(Number(0.0)) && CustomLogicAsWritten(code, script, ctx).reason != InvalidSignal(script(ctx).signal)
  {
  }

  /**
   * The corrected reason names the offending value, so two different invalid
   * values give two different reasons; otherwise the two versions agree.
   */
  lemma InvalidReasonShowsValue(code: string, script: Context -> ScriptResult, ctx: Context)
    ensures var d, w := CustomLogic(code, script, ctx), CustomLogicAsWritten(code, script, ctx);
            d.signal == w.signal
            && (d.reason != w.reason <==> !BlankCode(code) && script(ctx).Assigned? && !InRange(script(ctx).signal))
            && (d.reason.InvalidSignal? ==> !InRange(d.reason.shown) && d.reason.shown == script(ctx).signal)
  {
  }

  // ---------------------------------------------------------------------------
  // generate_signals
  // ---------------------------------------------------------------------------

  /** The fields the gate updates: long (1) or flat (0), the entry price and the entry date. */
  datatype State = State(position: int, entryPrice: real, entryDate: Option<string>)

  /** Flat with no entry: the state `generate_signals` starts from. */
  const Reset := State(0, 0.0, None)

  /** Long or flat; flat carries no entry, long carries the date it entered. */
  predicate ValidState(s: State)
  {
    (s.position == 0 && s.entryPrice == 0.0 && s.entryDate.None?) || (s.position == 1 && s.entryDate.Some?)
  }

  /** The state after one bar and the row the bar gets. */
  datatype Move = Move(state: State, row: SignalRow)

  /**
   * The gate for one bar: a +1 while flat enters at the close and the bar's
   * date, a -1 while long clears the entry; either writes its signal and
   * reason. Anything else leaves the state alone and writes no signal. The
   * row records the position after the bar.
   */
  function Gate(s: State, d: Decision, bar: Bar): (m: Move)
    requires ValidState(s)
    ensures ValidState(m.state)
  {
    if d.signal == 1 && s.position == 0 then
      Move(State(1, bar.close, Some(bar.date)), SignalRow(1, 1, d.reason))
    else if d.signal == -1 && s.position == 1 then
      Move(Reset, SignalRow(-1, 0, d.reason))
    else
      Move(s, SignalRow(0, s.position, NoReason))
  }

  /** One bar of the signal loop: the script's decision in the current state, through the gate. */
  function Step(code: string, script: Context -> ScriptResult, frame: seq<FrameRow>, s: State, i: nat): (m: Move)
    requires ValidState(s) && i < |frame|
    ensures ValidState(m.state)
  {
    Gate(s, CustomLogic(code, script, ContextOf(frame, i, s)), frame[i].bar)
  }

  /**
   * What the gate does. The row's signal is one a long/flat machine may emit
   * in the current position, and the position moves accordingly. A +1 is
   * written exactly when the script says 1 while flat, and enters at the bar's
   * close and date; a -1 exactly when the script says -1 while long, and
   * clears the entry. A written signal carries the script's reason; a quiet
   * bar carries none.
   */
  lemma GateSignals(s: State, d: Decision, bar: Bar)
    requires ValidState(s) && -1 <= d.signal <= 1
    ensures var m := Gate(s, d, bar);
            Signals.Permitted(s.position, m.row.signal)
            && m.state.position == Signals.Act(s.position, m.row.signal)
            && m.row.position == m.state.position
            && (m.row.signal == 1 <==> d.signal == 1 && s.position == 0)
            && (m.row.signal == -1 <==> d.signal == -1 && s.position == 1)
            && (m.row.signal == 1 ==> m.state == State(1, bar.close, Some(bar.date)))
            && (m.row.signal == -1 ==> m.state == Reset)
            && (m.row.signal == 0 ==> m.state == s && m.row.reason == NoReason)
            && (m.row.signal != 0 ==> m.row.signal == d.signal && m.row.reason == d.reason)
  {
  }

  /** `max(20, min(50, len(df) // 10))`: the first bar the script runs on. */
  function StartIndex(n: nat): (k: nat)
    ensures 20 <= k <= 50
    ensures 200 <= n <= 500 ==> k == n / 10
  {
    var m := if 50 < n / 10 then 50 else n / 10;
    if 20 < m then m else 20
  }

  /** The state and the signal rows after the first `n` bars. */
  datatype Scan = Scan(state: State, rows: seq<SignalRow>)

  /**
   * `generate_signals` over the first `n` rows of the frame: the state is
   * reset, the rows before the start index stay blank, and every later row
   * goes through `Step`.
   */
  function Pass(code: string, script: Context -> ScriptResult, frame: seq<FrameRow>, start: nat, n: nat): (p: Scan)
    requires n <= |frame|
    ensures ValidState(p.state) && |p.rows| == n
  {
    if n == 0 then Scan(Reset, [])
    else
      var prev := Pass(code, script, frame, start, n - 1);
      if n - 1 < start then Scan(prev.state, prev.rows + [Blank])
      else
        var m := Step(code, script, frame, prev.state, n - 1);
        Scan(m.state, prev.rows + [m.row])
  }

  /** A pass over `n` bars extends the pass over `n - 1` bars by one row. */
  lemma PassSnoc(code: string, script: Context -> ScriptResult, frame: seq<FrameRow>, start: nat, n: nat)
    requires 0 < n <= |frame|
    ensures Pass(code, script, frame, start, n).rows
            == Pass(code, script, frame, start, n - 1).rows + [Pass(code, script, frame, start, n).rows[n - 1]]
  {
  }

  /** From the start index on, one more bar is one more `Step`. */
  lemma PassExtend(code: string, script: Context -> ScriptResult, frame: seq<FrameRow>, start: nat, n: nat)
    requires start <= n < |frame|
    ensures var prev := Pass(code, script, frame, start, n);
            var m := Step(code, script, frame, prev.state, n);
            Pass(code, script, frame, start, n + 1) == Scan(m.state, prev.rows + [m.row])
  {
  }

  /** Later bars never rewrite an earlier row. */
  lemma {:induction false} PassRow(code: string, script: Context -> ScriptResult, frame: seq<FrameRow>, start: nat, n: nat, k: nat)
    requires n <= |frame| && k < n
    ensures Pass(code, script, frame, start, n).rows[k] == Pass(code, script, frame, start, k + 1).rows[k]
    decreases n
  {
    if k < n - 1 {
      PassSnoc(code, script, frame, start, n);
      PassRow(code, script, frame, start, n - 1, k);
    }
  }

  /** Before the start index nothing is written and the state stays reset. */
  lemma {:induction false} PassQuiet(code: string, script: Context -> ScriptResult, frame: seq<FrameRow>, start: nat, n: nat)
    requires n <= |frame| && n <= start
    ensures Pass(code, script, frame, start, n) == Scan(Reset, BlankRows(n))
    decreases n
  {
    if n > 0 {
      PassQuiet(code, script, frame, start, n - 1);
      assert BlankRows(n - 1) + [Blank] == BlankRows(n);
    }
  }

  /** No bar before the start index carries a signal, a position or a reason. */
  lemma WarmUpSilent(code: string, script: Context -> ScriptResult, frame: seq<FrameRow>, start: nat, k: nat)
    requires k < |frame| && k < start
    ensures Pass(code, script, frame, start, |frame|).rows[k] == Blank
  {
    PassRow(code, script, frame, start, |frame|, k);
    PassQuiet(code, script, frame, start, k + 1);
  }

  /** The last bar of a pass emits a signal its position permits and acts on it, recording a position in {0, 1}. */
  lemma PassStep(code: string, script: Context -> ScriptResult, frame: seq<FrameRow>, start: nat, n: nat)
    requires 0 < n <= |frame|
    ensures var prev, p := Pass(code, script, frame, start, n - 1), Pass(code, script, frame, start, n);
            p.rows == prev.rows + [p.rows[n - 1]]
            && Signals.Permitted(prev.state.position, p.rows[n - 1].signal)
            && p.state.position == Signals.Act(prev.state.position, p.rows[n - 1].signal)
            && p.rows[n - 1].position == p.state.position
  {
    var prev := Pass(code, script, frame, start, n - 1);
    if n - 1 >= start {
      var d := CustomLogic(code, script, ContextOf(frame, n - 1, prev.state));
      CustomLogicSignals(code, script, ContextOf(frame, n - 1, prev.state));
      GateSignals(prev.state, d, frame[n - 1].bar);
    } else {
      PassQuiet(code, script, frame, start, n - 1);
    }
  }

  /**
   * The signal column is one a long/flat machine emits from flat, and the
   * final position is the fold of that column.
   */
  lemma {:induction false} PassAlternates(code: string, script: Context -> ScriptResult, frame: seq<FrameRow>, start: nat, n: nat)
    requires n <= |frame|
    ensures var p := Pass(code, script, frame, start, n);
            Signals.AlternatesFrom(0, SignalColumn(p.rows))
            && p.state.position == Signals.PositionAfter(0, SignalColumn(p.rows))
    decreases n
  {
    if n > 0 {
      var prev := Pass(code, script, frame, start, n - 1);
      PassAlternates(code, script, frame, start, n - 1);
      PassStep(code, script, frame, start, n);
      var p := Pass(code, script, frame, start, n);
      var x := p.rows[n - 1].signal;
      assert SignalColumn(p.rows) == SignalColumn(prev.rows) + [x];
      Signals.AlternatesSnoc(0, SignalColumn(prev.rows), x);
      Signals.PositionAfterSnoc(0, SignalColumn(prev.rows), x);
    }
  }

  /** Every row of the position column holds 0 or 1: the position after that bar. */
  lemma PassPositions(code: string, script: Context -> ScriptResult, frame: seq<FrameRow>, start: nat, k: nat)
    requires k < |frame|
    ensures var r := Pass(code, script, frame, start, |frame|).rows[k];
            r.position == Pass(code, script, frame, start, k + 1).state.position
            && (r.position == 0 || r.position == 1)
  {
    PassRow(code, script, frame, start, |frame|, k);
    PassStep(code, script, frame, start, k + 1);
  }

  /**
   * The accepted signals strictly alternate +1, -1, +1, ... starting with +1,
   * and the pass ends long exactly when their count is odd.
   */
  lemma SignalsAlternate(code: string, script: Context -> ScriptResult, frame: seq<FrameRow>, start: nat)
    ensures var p := Pass(code, script, frame, start, |frame|);
            var s := SignalColumn(p.rows);
            p.state.position == |Signals.Nonzero(s)| % 2
            && forall k :: 0 <= k < |Signals.Nonzero(s)| ==> Signals.Nonzero(s)[k] == (if k % 2 == 0 then 1 else -1)
  {
    PassAlternates(code, script, frame, start, |frame|);
    Signals.AlternationFromFlat(SignalColumn(Pass(code, script, frame, start, |frame|).rows));
  }

  /**
   * A written signal is the script's own: row `k` carries a nonzero signal
   * only when the script, run on row `k` in the state the earlier bars left,
   * assigned exactly that value, and the row carries the script's reason.
   */
  lemma SignalFromScript(code: string, script: Context -> ScriptResult, frame: seq<FrameRow>, start: nat, k: nat)
    requires k < |frame|
    ensures var r := Pass(code, script, frame, start, |frame|).rows[k];
            var ctx := ContextOf(frame, k, Pass(code, script, frame, start, k).state);
            r.signal != 0 ==>
              k >= start && !BlankCode(code) && script(ctx).Assigned?
              && script(ctx).signal == Number(r.signal as real) && r.reason == ScriptReason(script(ctx).reason)
  {
    PassRow(code, script, frame, start, |frame|, k);
    var prev := Pass(code, script, frame, start, k);
    if k >= start {
      var ctx := ContextOf(frame, k, prev.state);
      CustomLogicSignals(code, script, ctx);
      GateSignals(prev.state, CustomLogic(code, script, ctx), frame[k].bar);
    }
  }

  /**
   * Since the gate writes a reason only with a nonzero signal, the signal
   * pass is the same whichever invalid-signal message the logic produces.
   */
  lemma GateHidesInvalidReason(s: State, code: string, script: Context -> ScriptResult, ctx: Context, bar: Bar)
    requires ValidState(s)
    ensures Gate(s, CustomLogic(code, script, ctx), bar) == Gate(s, CustomLogicAsWritten(code, script, ctx), bar)
  {
    InvalidReasonShowsValue(code, script, ctx);
  }

  // ---------------------------------------------------------------------------
  // backtest
  // ---------------------------------------------------------------------------

  /** The custom simulator: buy when cash exceeds the price, 0.1% fee each way, detailed trade records. */
  const Terms := Portfolio.Terms(Portfolio.CashAbovePrice, 1.001, 0.999, true)

  /** The parameters the result echoes: the code and the initial capital. */
  datatype Params = Params(code: string, initialCapital: real)

  /** What `backtest` returns: trades, snapshots, metrics, the signal rows and the parameters. */
  datatype Outcome = Outcome(trades: seq<Trade>, snapshots: seq<Snapshot>, metrics: Metrics,
                             rows: seq<SignalRow>, params: Params)

  /** `_get_empty_result`: nothing traded, zero metrics, and the capital the strategy was built with. */
  function EmptyResult(code: string, initialCapital: real): (o: Outcome)
    ensures o.trades == [] && o.snapshots == [] && o.rows == [] && o.metrics == ZeroMetrics
    ensures o.params == Params(code, initialCapital)
  {
    Outcome([], [], ZeroMetrics, [], Params(code, initialCapital))
  }

  /** The capital a backtest starts from: the argument, or the constructor's when none is given. */
  function Capital(initialCapital: real, initial: Option<real>): real
  {
    if initial.Some? then initial.value else initialCapital
  }

  /**
   * `backtest` as a function of its inputs. `frame` is the indicator frame
   * the strategy builds from the bars, or the error building it raised; that
   * error makes the empty result. A frame with no rows fails at `df.iloc[-1]`.
   */
  function BacktestOf(code: string, script: Context -> ScriptResult, initialCapital: real,
                      frame: Result<seq<FrameRow>, string>, initial: Option<real>, lib: FloatLib)
    : (r: Result<Outcome, BacktestError>)
    requires frame.Success? ==> PositiveCloses(BarsOf(frame.value))
    requires Capital(initialCapital, initial) > 0.0
    ensures r.Failure? <==> frame.Success? && frame.value == []
    ensures frame.Failure? ==> r == Success(EmptyResult(code, initialCapital))
  {
    if frame.Failure? then Success(EmptyResult(code, initialCapital))
    else if frame.value == [] then Failure(EmptySeries)
    else
      var capital := Capital(initialCapital, initial);
      var bars := BarsOf(frame.value);
      var rows := Pass(code, script, frame.value, StartIndex(|bars|), |bars|).rows;
      var run := Portfolio.Simulate(Terms, bars, rows, capital, |bars|);
      var final := Portfolio.Value(run.book, bars[|bars| - 1].close);
      Portfolio.SnapshotsPositive(Terms, bars, rows, capital);
      Success(Outcome(run.trades, run.snapshots,
                      StrategyMetrics.CalculateMetrics(run.snapshots, run.trades, capital, final, lib),
                      rows, Params(code, capital)))
  }

  /** The signal pass and the simulator over a non-empty frame, before the metrics are taken. */
  lemma RunSound(code: string, script: Context -> ScriptResult, frame: seq<FrameRow>, capital: real)
    requires PositiveCloses(BarsOf(frame)) && capital > 0.0 && frame != []
    ensures var bars := BarsOf(frame);
            var rows := Pass(code, script, frame, StartIndex(|bars|), |bars|).rows;
            var run := Portfolio.Simulate(Terms, bars, rows, capital, |bars|);
            |run.snapshots| == |frame| && |rows| == |frame|
            && (forall k :: 0 <= k < |frame| ==> run.snapshots[k].date == frame[k].bar.date && run.snapshots[k].value > 0.0)
            && (forall k :: 0 <= k < |run.trades| ==> run.trades[k].action == (if k % 2 == 0 then Buy else Sell))
            && (forall k :: 0 <= k < |frame| && k < StartIndex(|frame|) ==> rows[k] == Blank)
            && (forall k :: 0 <= k < |frame| ==> rows[k].position == 0 || rows[k].position == 1)
            && Portfolio.Value(run.book, bars[|bars| - 1].close) > 0.0
  {
    var bars := BarsOf(frame);
    var start := StartIndex(|bars|);
    var rows := Pass(code, script, frame, start, |bars|).rows;
    var run := Portfolio.Simulate(Terms, bars, rows, capital, |bars|);
    PassAlternates(code, script, frame, start, |bars|);
    assert rows[..|bars|] == rows;
    Portfolio.TradesAlternate(Terms, bars, rows, capital, |bars|);
    Portfolio.SnapshotsPositive(Terms, bars, rows, capital);
    forall k | 0 <= k < |bars|
      ensures run.snapshots[k].date == bars[k].date
      ensures rows[k].position == 0 || rows[k].position == 1
    {
      Portfolio.SnapshotsPerBar(Terms, bars, rows, capital, |bars|, k);
      PassPositions(code, script, frame, start, k);
    }
    forall k | 0 <= k < |bars| && k < start
      ensures rows[k] == Blank
    {
      WarmUpSilent(code, script, frame, start, k);
    }
    assert Portfolio.FinalValue(Terms, bars, rows, capital) > 0.0;
  }

  /**
   * A backtest over a non-empty frame has one positive snapshot per bar, dated
   * by the bar; trades alternate buy, sell, ... starting with a buy; no bar
   * before the start index carries a signal; every recorded position is 0 or
   * 1; the final value is positive; the trade total counts the sells and the
   * win rate is a percentage.
   */
  lemma BacktestSound(code: string, script: Context -> ScriptResult, initialCapital: real,
                      frame: seq<FrameRow>, initial: Option<real>, lib: FloatLib)
    requires PositiveCloses(BarsOf(frame)) && Capital(initialCapital, initial) > 0.0 && frame != []
    ensures var o := BacktestOf(code, script, initialCapital, Success(frame), initial, lib).value;
            |o.snapshots| == |frame| && |o.rows| == |frame|
            && (forall k :: 0 <= k < |frame| ==> o.snapshots[k].date == frame[k].bar.date && o.snapshots[k].value > 0.0)
            && (forall k :: 0 <= k < |o.trades| ==> o.trades[k].action == (if k % 2 == 0 then Buy else Sell))
            && (forall k :: 0 <= k < |frame| && k < StartIndex(|frame|) ==> o.rows[k] == Blank)
            && (forall k :: 0 <= k < |frame| ==> o.rows[k].position == 0 || o.rows[k].position == 1)
            && o.metrics.finalValue > 0.0
            && o.metrics.totalTrades == |StrategyMetrics.Sells(o.trades)|
            && 0.0 <= o.metrics.winRate <= 100.0
  {
    RunSound(code, script, frame, Capital(initialCapital, initial));
  }

  /**
   * The strategy object: its code, the script that code runs as, the
   * constructor's capital, and the position, entry price and entry date the
   * signal pass updates in place.
   */
  class CustomStrategy {
    const code: string
    const script: Context -> ScriptResult
    const initialCapital: real
    var position: int
    var entryPrice: real
    var entryDate: Option<string>

    function Current(): State
      reads this
    {
      State(position, entryPrice, entryDate)
    }

    predicate Valid()
      reads this
    {
      ValidState(Current())
    }

    /** `__init__` once `validate_code` has passed: flat, no entry. */
    constructor (code: string, script: Context -> ScriptResult, initialCapital: real)
      ensures Valid() && Current() == Reset
      ensures this.code == code && this.script == script && this.initialCapital == initialCapital
    {
      this.code := code;
      this.script := script;
      this.initialCapital := initialCapital;
      position := 0;
      entryPrice := 0.0;
      entryDate := None;
    }

    /** The body of `execute_custom_logic`: build the script's variables, run it, read `signal` and `reason` back. */
    method ExecuteCustomLogic(frame: seq<FrameRow>, i: nat) returns (signal: int, reason: Reason)
      requires i < |frame|
      ensures Decision(signal, reason) == CustomLogic(code, script, ContextOf(frame, i, Current()))
      ensures -1 <= signal <= 1
    {
      if Strip(code) == [] {
        return 0, NoReason;
      }
      var ctx := ContextOf(frame, i, Current());
      CustomLogicSignals(code, script, ctx);
      var outcome := script(ctx);
      match outcome {
        case Raised(message) =>
          signal, reason := 0, ScriptFailed(message);
        case Assigned(x, text) =>
          if !InRange(x) {
            signal, reason := 0, InvalidSignal(x);
          } else {
            signal := if x.x == 1.0 then 1 else if x.x == -1.0 then -1 else 0;
            reason := ScriptReason(text);
          }
      }
    }

    /** One bar of the loop from the start index on: run the logic, pass it through the gate. */
    method OnBar(frame: seq<FrameRow>, i: nat) returns (row: SignalRow)
      requires Valid() && i < |frame|
      modifies this
      ensures Valid()
      ensures Move(Current(), row) == Step(code, script, frame, old(Current()), i)
    {
      ghost var s0 := Current();
      var signal, reason := ExecuteCustomLogic(frame, i);
      var bar := frame[i].bar;
      assert Step(code, script, frame, s0, i) == Gate(s0, Decision(signal, reason), bar);
      if signal == 1 && position == 0 {
        position, entryPrice, entryDate := 1, bar.close, Some(bar.date);
        row := SignalRow(1, position, reason);
      } else if signal == -1 && position == 1 {
        position, entryPrice, entryDate := 0, 0.0, None;
        row := SignalRow(-1, position, reason);
      } else {
        row := SignalRow(0, position, NoReason);
      }
    }

    /**
     * `generate_signals` over the indicator frame: reset the state, blank
     * columns, then the gated script decisions from the start index on.
     */
    method GenerateSignals(frame: seq<FrameRow>) returns (rows: seq<SignalRow>)
      requires Valid()
      modifies this
      ensures Valid()
      ensures Scan(Current(), rows) == Pass(code, script, frame, StartIndex(|frame|), |frame|)
    {
      rows := BlankRows(|frame|);
      position, entryPrice, entryDate := 0, 0.0, None;
      var start := StartIndex(|frame|);
      var i := if start < |frame| then start else |frame|;
      PassQuiet(code, script, frame, start, i);
      assert rows == BlankRows(i) + BlankRows(|frame| - i);
      while i < |frame|
        invariant i <= |frame| && (start <= i || i == |frame|)
        invariant Valid()
        invariant Current() == Pass(code, script, frame, start, i).state
        invariant rows == Pass(code, script, frame, start, i).rows + BlankRows(|frame| - i)
      {
        ghost var done := Pass(code, script, frame, start, i).rows;
        PassExtend(code, script, frame, start, i);
        var row := OnBar(frame, i);
        BlankRowsFill(done, row, |frame| - i);
        rows := rows[i := row];
        i := i + 1;
      }
      assert BlankRows(0) == [];
    }

    /**
     * `backtest`: the empty result when the frame could not be built;
     * otherwise signals, the fee-charging simulator, the final value and the
     * shared metrics. The result depends only on the parameters and inputs.
     */
    method Backtest(frame: Result<seq<FrameRow>, string>, initial: Option<real>, lib: FloatLib)
      returns (r: Result<Outcome, BacktestError>)
      requires Valid()
      requires frame.Success? ==> PositiveCloses(BarsOf(frame.value))
      requires Capital(initialCapital, initial) > 0.0
      modifies this
      ensures Valid()
      ensures r == BacktestOf(code, script, initialCapital, frame, initial, lib)
      ensures frame.Failure? ==> Current() == old(Current())
      ensures frame.Success? ==>
                Current() == Pass(code, script, frame.value, StartIndex(|frame.value|), |frame.value|).state
    {
      var capital := if initial.Some? then initial.value else initialCapital;
      if frame.Failure? {
        return Success(EmptyResult(code, initialCapital));
      }
      var rows := GenerateSignals(frame.value);
      var bars := BarsOf(frame.value);
      var cash, shares, trades, snapshots := Portfolio.RunSimulator(Terms, bars, rows, capital);
      if |bars| == 0 {
        return Failure(EmptySeries);
      }
      ghost var run := Portfolio.Simulate(Terms, bars, rows, capital, |bars|);
      assert trades == run.trades && snapshots == run.snapshots && Portfolio.Book(cash, shares) == run.book;
      var final := Portfolio.Value(Portfolio.Book(cash, shares), bars[|bars| - 1].close);
      Portfolio.SnapshotsPositive(Terms, bars, rows, capital);
      var metrics := StrategyMetrics.CalculateMetrics(snapshots, trades, capital, final, lib);
      r := Success(Outcome(trades, snapshots, metrics, rows, Params(code, capital)));
    }
  }

  /**
   * `CustomStrategy(custom_code, initial_capital)`: the constructor validates
   * the code and raises on a syntax error.
   */
  method New(code: string, script: Context -> ScriptResult, initialCapital: real,
             syntaxError: string -> Option<string>)
    returns (r: Result<CustomStrategy, string>)
    ensures r.Failure? <==> ValidateCode(code, syntaxError).Some?
    ensures r.Failure? ==> r.error == ValidateCode(code, syntaxError).value
    ensures r.Success? ==> fresh(r.value) && r.value.Valid() && r.value.Current() == Reset
                           && r.value.code == code && r.value.initialCapital == initialCapital
  {
    var error := ValidateCode(code, syntaxError);
    if error.Some? {
      return Failure(error.value);
    }
    var s := new CustomStrategy(code, script, initialCapital);
    r := Success(s);
  }
}
