/**
 * The default performance metrics of `BaseStrategy` (backend/strategies/base.py):
 * total return, the annualisation and risk guards, running-peak drawdown,
 * and the win rate of sells paired with the latest earlier buy.
 *
 * The drawdown, return and win-rate helpers are shared with the strategies
 * that override the metrics.
 */
module StrategyMetrics {
  import opened Wrappers
  import opened Market

  // ---------------------------------------------------------------------------
  // Returns and drawdown over a value series
  // ---------------------------------------------------------------------------

  /** `pct_change().dropna()` of a positive series: one return per bar after the first. */
  function PctChange(vs: seq<real>): (rs: seq<real>)
    requires forall i :: 0 <= i < |vs| ==> vs[i] > 0.0
    ensures |vs| > 0 ==> |rs| == |vs| - 1
    ensures |vs| == 0 ==> rs == []
  {
    if |vs| <= 1 then []
    else seq(|vs| - 1, i requires 0 <= i < |vs| - 1 => vs[i + 1] / vs[i] - 1.0)
  }

  /** Each return is the move from one value to the next relative to the first: `r v = v' - v`. */
  lemma PctChangeStep(vs: seq<real>, i: nat)
    requires forall j :: 0 <= j < |vs| ==> vs[j] > 0.0
    requires i + 1 < |vs|
    ensures PctChange(vs)[i] * vs[i] == vs[i + 1] - vs[i]
  {
    var q := vs[i + 1] / vs[i];
    assert q * vs[i] == vs[i + 1];
  }

  /** `np.maximum.accumulate(values)[i]`: the highest value up to and including bar `i`. */
  function RunningPeak(vs: seq<real>, i: nat): (p: real)
    requires i < |vs|
    ensures forall j :: 0 <= j <= i ==> vs[j] <= p
    ensures exists j :: 0 <= j <= i && vs[j] == p
  {
    if i == 0 then vs[0]
    else
      var before := RunningPeak(vs, i - 1);
      if vs[i] > before then vs[i] else before
  }

  /** `(values - peak) / peak * 100`: each bar's percentage below its running peak. */
  function Drawdowns(vs: seq<real>): (ds: seq<real>)
    requires forall i :: 0 <= i < |vs| ==> vs[i] > 0.0
    ensures |ds| == |vs|
  {
    seq(|vs|, i requires 0 <= i < |vs| => (vs[i] - RunningPeak(vs, i)) / RunningPeak(vs, i) * 100.0)
  }

  /** `min()` of a non-empty series. */
  function MinOf(xs: seq<real>): (m: real)
    requires |xs| > 0
    ensures forall i :: 0 <= i < |xs| ==> m <= xs[i]
    ensures exists i :: 0 <= i < |xs| && xs[i] == m
  {
    if |xs| == 1 then xs[0]
    else
      var rest := MinOf(xs[..|xs| - 1]);
      if xs[|xs| - 1] < rest then xs[|xs| - 1] else rest
  }

  /** The deepest drawdown of a positive series, as a (non-positive) percentage. */
  function WorstDrawdown(vs: seq<real>): real
    requires |vs| > 0 && forall i :: 0 <= i < |vs| ==> vs[i] > 0.0
  {
    MinOf(Drawdowns(vs))
  }

  /**
   * A positive series never falls below its running peak by 100% or more,
   * and never rises above it: the worst drawdown lies in (-100, 0].
   */
  lemma WorstDrawdownBounds(vs: seq<real>)
    requires |vs| > 0 && forall i :: 0 <= i < |vs| ==> vs[i] > 0.0
    ensures -100.0 < WorstDrawdown(vs) <= 0.0
  {
    var ds := Drawdowns(vs);
    forall i | 0 <= i < |vs|
      ensures -100.0 < ds[i] <= 0.0
    {
      BelowPeak(vs[i], RunningPeak(vs, i));
    }
  }

  /** A positive value at or below its peak is less than 100% and at least 0% below it. */
  lemma BelowPeak(v: real, p: real)
    requires 0.0 < v <= p
    ensures -100.0 < (v - p) / p * 100.0 <= 0.0
  {
    var f := (v - p) / p;
    assert f * p == v - p;
    assert f <= 0.0;
    assert f > -1.0;
  }

  /** A series that never falls has no drawdown at all. */
  lemma {:induction false} RisingSeriesNoDrawdown(vs: seq<real>)
    requires |vs| > 0 && forall i :: 0 <= i < |vs| ==> vs[i] > 0.0
    requires forall i, j :: 0 <= i <= j < |vs| ==> vs[i] <= vs[j]
    ensures WorstDrawdown(vs) == 0.0
  {
    var ds := Drawdowns(vs);
    forall i | 0 <= i < |vs|
      ensures ds[i] == 0.0
    {
      var p := RunningPeak(vs, i);
      var j :| 0 <= j <= i && vs[j] == p;
      assert vs[i] == p;
    }
  }

  // ---------------------------------------------------------------------------
  // Trade pairing and win rate
  // ---------------------------------------------------------------------------

  /** `[t for t in trades if t['action'] == '买入']`. */
  function Buys(trades: seq<Trade>): (bs: seq<Trade>)
    ensures forall i :: 0 <= i < |bs| ==> bs[i].action == Buy
    ensures |bs| <= |trades|
  {
    if |trades| == 0 then []
    else Buys(trades[..|trades| - 1]) + (if trades[|trades| - 1].action == Buy then [trades[|trades| - 1]] else [])
  }

  /** `[t for t in trades if t['action'] == '卖出']`. */
  function Sells(trades: seq<Trade>): (ss: seq<Trade>)
    ensures forall i :: 0 <= i < |ss| ==> ss[i].action == Sell
    ensures |ss| <= |trades|
  {
    if |trades| == 0 then []
    else Sells(trades[..|trades| - 1]) + (if trades[|trades| - 1].action == Sell then [trades[|trades| - 1]] else [])
  }

  /** Every trade is a buy or a sell, so the two lists split the log. */
  lemma {:induction false} BuysAndSellsSplit(trades: seq<Trade>)
    ensures |Buys(trades)| + |Sells(trades)| == |trades|
  {
    if |trades| > 0 {
      BuysAndSellsSplit(trades[..|trades| - 1]);
    }
  }

  /**
   * The buy a sell dated `date` is paired with: the last buy in list order whose
   * date is strictly earlier, or -1 when there is none.
   */
  function LatestEarlierBuy(buys: seq<Trade>, date: string): (k: int)
    ensures -1 <= k < |buys|
    ensures k >= 0 ==> StrLess(buys[k].date, date)
    ensures forall j :: k < j < |buys| ==> !StrLess(buys[j].date, date)
  {
    if |buys| == 0 then -1
    else if StrLess(buys[|buys| - 1].date, date) then |buys| - 1
    else LatestEarlierBuy(buys[..|buys| - 1], date)
  }

  /** `corresponding_buy`: the buy a sell dated `date` is paired with, if any. */
  function CorrespondingBuy(buys: seq<Trade>, date: string): Option<Trade>
  {
    var k := LatestEarlierBuy(buys, date);
    if k >= 0 then Some(buys[k]) else None
  }

  /** The return of one sell: `(sell - buy) / buy` against its corresponding buy, or nothing. */
  function PairReturn(buys: seq<Trade>, sell: Trade): (r: seq<real>)
    ensures |r| <= 1
  {
    match CorrespondingBuy(buys, sell.date)
    case Some(buy) => if buy.price > 0.0 then [(sell.price - buy.price) / buy.price] else []
    case None => []
  }

  /**
   * A sell contributes a return exactly when some buy is dated strictly
   * before it and the latest such buy has a positive price.
   */
  lemma PairReturnPresent(buys: seq<Trade>, sell: Trade)
    ensures |PairReturn(buys, sell)| == 1 <==>
              (exists j :: 0 <= j < |buys| && StrLess(buys[j].date, sell.date))
              && buys[LatestEarlierBuy(buys, sell.date)].price > 0.0
  {
    var k := LatestEarlierBuy(buys, sell.date);
    if exists j :: 0 <= j < |buys| && StrLess(buys[j].date, sell.date) {
      var j :| 0 <= j < |buys| && StrLess(buys[j].date, sell.date);
      assert k >= j;
    }
  }

  /** `trade_returns`: the returns of the sells, in sell order. */
  function TradeReturns(buys: seq<Trade>, sells: seq<Trade>): (rs: seq<real>)
    ensures |rs| <= |sells|
  {
    if |sells| == 0 then []
    else TradeReturns(buys, sells[..|sells| - 1]) + PairReturn(buys, sells[|sells| - 1])
  }

  lemma TradeReturnsStep(buys: seq<Trade>, sells: seq<Trade>, i: nat)
    requires i < |sells|
    ensures TradeReturns(buys, sells[..i + 1]) == TradeReturns(buys, sells[..i]) + PairReturn(buys, sells[i])
  {
    assert sells[..i + 1][..i] == sells[..i];
  }

  /**
   * The inner search of the pairing loop: walk the buys from the last one
   * backwards and stop at the first one dated strictly before `date`.
   */
  method FindCorrespondingBuy(buys: seq<Trade>, date: string) returns (corresponding: Option<Trade>)
    ensures corresponding == CorrespondingBuy(buys, date)
  {
    corresponding := None;
    var j := |buys|;
    while j > 0
      invariant 0 <= j <= |buys|
      invariant forall m :: j <= m < |buys| ==> !StrLess(buys[m].date, date)
    {
      if StrLess(buys[j - 1].date, date) {
        corresponding := Some(buys[j - 1]);
        return;
      }
      j := j - 1;
    }
  }

  /**
   * One step of the pairing loop: pair the sell with its corresponding buy and,
   * when the buy price is positive, produce its return.
   */
  method SellReturn(buys: seq<Trade>, sell: Trade) returns (r: seq<real>)
    ensures r == PairReturn(buys, sell)
  {
    r := [];
    var corresponding := FindCorrespondingBuy(buys, sell.date);
    if corresponding.Some? {
      var buyPrice := corresponding.value.price;
      if buyPrice > 0.0 {
        r := [(sell.price - buyPrice) / buyPrice];
      }
    }
  }

  /** The pairing loop: each sell, in order, contributes its return if it has one. */
  method PairTrades(trades: seq<Trade>) returns (tradeReturns: seq<real>)
    ensures tradeReturns == TradeReturns(Buys(trades), Sells(trades))
  {
    var buys := Buys(trades);
    var sells := Sells(trades);
    tradeReturns := [];
    var i := 0;
    while i < |sells|
      invariant 0 <= i <= |sells|
      invariant tradeReturns == TradeReturns(buys, sells[..i])
    {
      var r := SellReturn(buys, sells[i]);
      TradeReturnsStep(buys, sells, i);
      tradeReturns := tradeReturns + r;
      i := i + 1;
    }
    assert sells[..|sells|] == sells;
  }

  /** How many returns are strictly positive. */
  function CountPositive(rs: seq<real>): (n: nat)
    ensures n <= |rs|
  {
    if |rs| == 0 then 0 else CountPositive(rs[..|rs| - 1]) + (if rs[|rs| - 1] > 0.0 then 1 else 0)
  }

  /** Every return is positive exactly when all of them count as wins. */
  lemma {:induction false} AllPositiveCount(rs: seq<real>)
    ensures CountPositive(rs) == |rs| <==> forall i :: 0 <= i < |rs| ==> rs[i] > 0.0
  {
    if |rs| > 0 {
      AllPositiveCount(rs[..|rs| - 1]);
      assert forall i :: 0 <= i < |rs| - 1 ==> rs[..|rs| - 1][i] == rs[i];
    }
  }

  /** `len(winning) / len(trade_returns) * 100`, or 0 without pairs. */
  function WinRate(rs: seq<real>): (w: real)
    ensures 0.0 <= w <= 100.0
    ensures |rs| == 0 ==> w == 0.0
  {
    if |rs| == 0 then 0.0 else CountPositive(rs) as real / |rs| as real * 100.0
  }

  /** The win rate is 100 exactly when there are pairs and every one of them gained. */
  lemma WinRateFull(rs: seq<real>)
    ensures WinRate(rs) == 100.0 <==> |rs| > 0 && forall i :: 0 <= i < |rs| ==> rs[i] > 0.0
  {
    AllPositiveCount(rs);
    if |rs| > 0 && WinRate(rs) == 100.0 {
      var q := CountPositive(rs) as real / |rs| as real;
      assert q == 1.0;
      assert q * |rs| as real == CountPositive(rs) as real;
    }
  }

  // ---------------------------------------------------------------------------
  // The metrics record
  // ---------------------------------------------------------------------------

  /** `_calculate_metrics`, without the final `round(…, 2)`. */
  function CalculateMetrics(snaps: seq<Snapshot>, trades: seq<Trade>, initial: real, final: real,
                            lib: FloatLib): (m: Metrics)
    requires snaps != [] ==> initial > 0.0 && PositiveValues(snaps)
    ensures snaps == [] ==> m == ZeroMetrics
    ensures snaps != [] ==> m.finalValue == final && m.totalReturn == (final - initial) / initial * 100.0
    ensures m.totalTrades == if snaps == [] then 0 else |Sells(trades)|
    ensures 0.0 <= m.winRate <= 100.0
    ensures 0.0 <= m.maxDrawdown < 100.0
    ensures |snaps| <= 2 ==> m.volatility == 0.0
    ensures m.volatility <= 0.0 ==> m.sharpeRatio == 0.0
  {
    if snaps == [] then ZeroMetrics
    else
      var totalReturn := (final - initial) / initial * 100.0;
      var days := |snaps|;
      var annualized := (lib.pow(final / initial, 252.0 / days as real) - 1.0) * 100.0;
      var values := Values(snaps);
      var changes := PctChange(values);
      var volatility := if |changes| > 1 then lib.std(changes) * lib.sqrt(252.0) * 100.0 else 0.0;
      var sharpe := if volatility > 0.0 then (annualized - 3.0) / volatility else 0.0;
      WorstDrawdownBounds(values);
      var maxDrawdown := -WorstDrawdown(values);
      var winRate := if trades != [] then WinRate(TradeReturns(Buys(trades), Sells(trades))) else 0.0;
      Metrics(totalReturn, annualized, volatility, sharpe, maxDrawdown,
              |Sells(trades)|, winRate, final)
  }
}
