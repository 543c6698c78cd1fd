/**
 * The whole-share portfolio simulator the RSI, Bollinger and custom
 * strategies run over their signal columns: cash and a share count, a buy of
 * as many whole shares as the cash affords, a sell of the whole holding, and
 * one mark-to-market snapshot per bar taken before that bar's trade.
 *
 * The three simulators differ only in their trading terms, which `Terms`
 * names; each strategy's own loop is proved equal to `Simulate` with its terms.
 */
module Portfolio {
  import opened Wrappers
  import opened Market
  import Signals

  /** The cash test a buy signal must pass: `capital > 0` or `capital > price`. */
  datatype BuyGuard = CashPositive | CashAbovePrice

  /**
   * The trading terms of one simulator: the cash test before a buy, the
   * per-share cost multiplier of a buy (`1.001` where a fee is charged), the
   * per-share proceeds multiplier of a sell (`0.999` where a fee is charged),
   * and whether trade records carry `amount` and `portfolio_value`.
   */
  datatype Terms = Terms(guard: BuyGuard, buyFactor: real, sellFactor: real, detailed: bool)

  /** Fees make buying dearer and selling cheaper, never the other way round. */
  predicate ValidTerms(t: Terms)
  {
    t.buyFactor >= 1.0 && 0.0 < t.sellFactor <= 1.0
  }

  /** The simulator's state: cash (`capital`) and whole shares held. */
  datatype Book = Book(capital: real, shares: int)

  /** Cash is never overdrawn and no share is ever sold short. */
  predicate Solvent(b: Book)
  {
    b.capital >= 0.0 && b.shares >= 0
  }

  /** Something is held: the book is worth more than nothing at any positive price. */
  predicate Funded(b: Book)
  {
    Solvent(b) && (b.capital > 0.0 || b.shares > 0)
  }

  /** `capital + shares * price`. */
  function Value(b: Book, price: real): real
  {
    b.capital + b.shares as real * price
  }

  /** `int(capital / (price * buyFactor))`: the whole shares the cash affords. */
  function Quantity(t: Terms, capital: real, price: real): int
    requires price > 0.0 && t.buyFactor > 0.0
  {
    (capital / (price * t.buyFactor)).Floor
  }

  /** The shares `Quantity` picks are affordable, and at least one when cash covers one fee-free share. */
  lemma QuantityAffordable(t: Terms, capital: real, price: real)
    requires ValidTerms(t) && price > 0.0 && capital >= 0.0
    ensures Quantity(t, capital, price) >= 0
    ensures Quantity(t, capital, price) as real * price * t.buyFactor <= capital
    ensures t.buyFactor == 1.0 && capital > price ==> Quantity(t, capital, price) >= 1
  {
    var q := price * t.buyFactor;
    var x := capital / q;
    var n := Quantity(t, capital, price);
    assert x * q == capital;
    assert n as real <= x;
    assert n as real * q <= x * q;
    assert n as real * price * t.buyFactor == n as real * q;
    if t.buyFactor == 1.0 && capital > price {
      assert x > 1.0;
    }
  }

  /** A funded book is worth strictly more than nothing at a positive price. */
  lemma ValuePositive(b: Book, price: real)
    requires Funded(b) && price > 0.0
    ensures Value(b, price) > 0.0
  {
    if b.shares > 0 {
      assert b.shares as real * price > 0.0;
    } else {
      assert b.shares as real * price == 0.0;
    }
  }

  /** Buying `n` shares at `price` with the fee multiplier: cash stays covered, value only drops by the fee. */
  lemma BuyArithmetic(t: Terms, b: Book, price: real, n: int)
    requires ValidTerms(t) && Solvent(b) && price > 0.0 && n >= 1
    requires n as real * price * t.buyFactor <= b.capital
    ensures var after := Book(b.capital - n as real * price * t.buyFactor, b.shares + n);
            Funded(after) && Value(after, price) <= Value(b, price)
            && (t.buyFactor == 1.0 ==> Value(after, price) == Value(b, price))
  {
    var np := n as real * price;
    assert np > 0.0;
    assert n as real * price * t.buyFactor == np * t.buyFactor;
    assert np * t.buyFactor >= np;
    assert (b.shares + n) as real * price == b.shares as real * price + np;
  }

  /** Selling all `b.shares` at `price` with the proceeds multiplier: cash grows, value only drops by the fee. */
  lemma SellArithmetic(t: Terms, b: Book, price: real)
    requires ValidTerms(t) && Solvent(b) && price > 0.0 && b.shares > 0
    ensures var after := Book(b.capital + b.shares as real * price * t.sellFactor, 0);
            Funded(after) && Value(after, price) <= Value(b, price)
            && (t.sellFactor == 1.0 ==> Value(after, price) == Value(b, price))
  {
    var sp := b.shares as real * price;
    assert sp > 0.0;
    assert b.shares as real * price * t.sellFactor == sp * t.sellFactor;
    assert sp * t.sellFactor <= sp;
    assert sp * t.sellFactor > 0.0;
  }

  /** An `amount` or `portfolio_value` entry of a trade record, for the simulators whose records carry them. */
  function Detail(t: Terms, x: real): Option<real>
  {
    if t.detailed then Some(x) else None
  }

  /** What one bar's trade does to the book, and the trade record it appends, if any. */
  datatype Outcome = Outcome(book: Book, trade: Option<Trade>)

  /** The buy branch is taken: a +1 signal that passes the cash test. */
  predicate BuyTaken(t: Terms, b: Book, price: real, signal: int)
  {
    signal == 1 && (if t.guard == CashPositive then b.capital > 0.0 else b.capital > price)
  }

  /**
   * One bar's trade. A +1 that passes the cash test buys the affordable whole
   * shares (nothing when that is zero); otherwise a -1 with shares held sells
   * all of them; anything else leaves the book alone.
   */
  function Execute(t: Terms, b: Book, bar: Bar, row: SignalRow): (o: Outcome)
    requires ValidTerms(t) && bar.close > 0.0
  {
    var price := bar.close;
    if BuyTaken(t, b, price, row.signal) then
      var n := Quantity(t, b.capital, price);
      if n > 0 then
        var cost := n as real * price * t.buyFactor;
        var after := Book(b.capital - cost, b.shares + n);
        Outcome(after, Some(Trade(bar.date, Buy, price, n, Detail(t, cost), row.reason, Detail(t, Value(after, price)))))
      else
        Outcome(b, None)
    else if row.signal == -1 && b.shares > 0 then
      var revenue := b.shares as real * price * t.sellFactor;
      var after := Book(b.capital + revenue, 0);
      Outcome(after, Some(Trade(bar.date, Sell, price, b.shares, Detail(t, revenue), row.reason, Detail(t, after.capital))))
    else
      Outcome(b, None)
  }

  /** One bar's trade never overdraws cash or sells short, and a funded book stays funded. */
  lemma ExecuteSolvent(t: Terms, b: Book, bar: Bar, row: SignalRow)
    requires ValidTerms(t) && Solvent(b) && bar.close > 0.0
    ensures Solvent(Execute(t, b, bar, row).book)
    ensures Funded(b) ==> Funded(Execute(t, b, bar, row).book)
  {
    var price := bar.close;
    if BuyTaken(t, b, price, row.signal) {
      var n := Quantity(t, b.capital, price);
      QuantityAffordable(t, b.capital, price);
      if n > 0 {
        BuyArithmetic(t, b, price, n);
      }
    } else if row.signal == -1 && b.shares > 0 {
      SellArithmetic(t, b, price);
    }
  }

  /**
   * The trade one bar records: dated and priced at the bar with the signal's
   * reason; a buy answers a +1 signal, takes at least one share and adds it to
   * the holding; a sell answers a -1 signal and liquidates the whole holding;
   * no trade leaves the book alone.
   */
  lemma ExecuteTrade(t: Terms, b: Book, bar: Bar, row: SignalRow)
    requires ValidTerms(t) && Solvent(b) && bar.close > 0.0
    ensures var o := Execute(t, b, bar, row);
            (o.trade.None? ==> o.book == b)
            && (o.trade.Some? ==> o.trade.value.date == bar.date && o.trade.value.price == bar.close
                                  && o.trade.value.reason == row.reason)
            && (o.trade.Some? && o.trade.value.action == Buy ==>
                  row.signal == 1 && o.trade.value.quantity >= 1 && o.book.shares == b.shares + o.trade.value.quantity)
            && (o.trade.Some? && o.trade.value.action == Sell ==>
                  row.signal == -1 && o.trade.value.quantity == b.shares > 0 && o.book.shares == 0)
  {
  }

  /**
   * What a trade costs or brings in: a buy of `n` shares costs `n * price *
   * buyFactor`, no more than the cash, and adds `n` shares; a sale credits
   * `shares * price * sellFactor` and empties the holding. Detailed records
   * carry that amount and the value (for a sale, the cash) after the trade.
   */
  lemma ExecuteAmounts(t: Terms, b: Book, bar: Bar, row: SignalRow)
    requires ValidTerms(t) && Solvent(b) && bar.close > 0.0
    ensures var o := Execute(t, b, bar, row);
            var price := bar.close;
            (o.trade.Some? && o.trade.value.action == Buy ==>
               o.trade.value.quantity == Quantity(t, b.capital, price)
               && o.trade.value.quantity as real * price * t.buyFactor <= b.capital
               && o.book == Book(b.capital - o.trade.value.quantity as real * price * t.buyFactor,
                                 b.shares + o.trade.value.quantity)
               && o.trade.value.amount == Detail(t, o.trade.value.quantity as real * price * t.buyFactor)
               && o.trade.value.valueAfter == Detail(t, Value(o.book, price)))
            && (o.trade.Some? && o.trade.value.action == Sell ==>
               o.book == Book(b.capital + b.shares as real * price * t.sellFactor, 0)
               && o.trade.value.amount == Detail(t, b.shares as real * price * t.sellFactor)
               && o.trade.value.valueAfter == Detail(t, o.book.capital))
  {
    QuantityAffordable(t, b.capital, bar.close);
  }

  /** The book's value at the bar's close never rises across a trade, and is unchanged without fees. */
  lemma ExecuteValue(t: Terms, b: Book, bar: Bar, row: SignalRow)
    requires ValidTerms(t) && Solvent(b) && bar.close > 0.0
    ensures Value(Execute(t, b, bar, row).book, bar.close) <= Value(b, bar.close)
    ensures t.buyFactor == 1.0 && t.sellFactor == 1.0 ==>
              Value(Execute(t, b, bar, row).book, bar.close) == Value(b, bar.close)
  {
    var price := bar.close;
    if BuyTaken(t, b, price, row.signal) {
      var n := Quantity(t, b.capital, price);
      QuantityAffordable(t, b.capital, price);
      if n > 0 {
        BuyArithmetic(t, b, price, n);
      }
    } else if row.signal == -1 && b.shares > 0 {
      SellArithmetic(t, b, price);
    }
  }

  /** The snapshot of a bar: the book before the bar's trade, marked at the bar's close. */
  function Snap(b: Book, bar: Bar): Snapshot
  {
    Snapshot(bar.date, Value(b, bar.close), b.capital, b.shares, bar.close)
  }

  /** The simulator's state after some bars: the book, the trade log and the snapshots. */
  datatype Run = Run(book: Book, trades: seq<Trade>, snapshots: seq<Snapshot>)

  /** The simulator over the first `n` bars, starting with `initial` cash and no shares. */
  function Simulate(t: Terms, bars: seq<Bar>, rows: seq<SignalRow>, initial: real, n: nat): (r: Run)
    requires ValidTerms(t) && PositiveCloses(bars) && |rows| == |bars| && n <= |bars| && initial >= 0.0
    ensures Solvent(r.book) && |r.snapshots| == n && |r.trades| <= n
    ensures initial > 0.0 ==> Funded(r.book)
    decreases n
  {
    if n == 0 then Run(Book(initial, 0), [], [])
    else
      var prev := Simulate(t, bars, rows, initial, n - 1);
      var o := Execute(t, prev.book, bars[n - 1], rows[n - 1]);
      ExecuteSolvent(t, prev.book, bars[n - 1], rows[n - 1]);
      Run(o.book,
          prev.trades + (if o.trade.Some? then [o.trade.value] else []),
          prev.snapshots + [Snap(prev.book, bars[n - 1])])
  }

  /** `capital + shares * last close` after the whole series: what `final_value` reports. */
  function FinalValue(t: Terms, bars: seq<Bar>, rows: seq<SignalRow>, initial: real): (v: real)
    requires ValidTerms(t) && PositiveCloses(bars) && |rows| == |bars| && |bars| > 0 && initial >= 0.0
    ensures v >= 0.0
    ensures initial > 0.0 ==> v > 0.0
  {
    Value(Simulate(t, bars, rows, initial, |bars|).book, bars[|bars| - 1].close)
  }

  /**
   * One snapshot per bar: snapshot `k` is the book as it stood before bar `k`'s
   * trade, marked at bar `k`'s close, so its value is cash plus shares times
   * that close, with cash and shares never negative.
   */
  lemma {:induction false} SnapshotsPerBar(t: Terms, bars: seq<Bar>, rows: seq<SignalRow>, initial: real, n: nat, k: nat)
    requires ValidTerms(t) && PositiveCloses(bars) && |rows| == |bars| && n <= |bars| && initial >= 0.0
    requires k < n
    ensures Simulate(t, bars, rows, initial, n).snapshots[k] == Snap(Simulate(t, bars, rows, initial, k).book, bars[k])
    ensures Simulate(t, bars, rows, initial, n).snapshots[k].date == bars[k].date
    ensures Simulate(t, bars, rows, initial, n).snapshots[k].capital >= 0.0
    ensures Simulate(t, bars, rows, initial, n).snapshots[k].shares >= 0
    decreases n
  {
    if k < n - 1 {
      SnapshotsPerBar(t, bars, rows, initial, n - 1, k);
    }
  }

  /** Starting with cash, every snapshot is worth strictly more than nothing. */
  lemma SnapshotsPositive(t: Terms, bars: seq<Bar>, rows: seq<SignalRow>, initial: real)
    requires ValidTerms(t) && PositiveCloses(bars) && |rows| == |bars| && initial > 0.0
    ensures PositiveValues(Simulate(t, bars, rows, initial, |bars|).snapshots)
  {
    var snaps := Simulate(t, bars, rows, initial, |bars|).snapshots;
    forall k | 0 <= k < |snaps|
      ensures snaps[k].value > 0.0
    {
      SnapshotsPerBar(t, bars, rows, initial, |bars|, k);
      ValuePositive(Simulate(t, bars, rows, initial, k).book, bars[k].close);
    }
  }

  /**
   * When the signal column is one a long/flat machine emits from flat, the
   * trade log alternates buy, sell, buy, ... starting with a buy, and shares
   * are held exactly when the last trade was a buy. So pairing the i-th buy
   * with the i-th sell pairs each sell with the buy just before it.
   */
  lemma {:induction false} TradesAlternate(t: Terms, bars: seq<Bar>, rows: seq<SignalRow>, initial: real, n: nat)
    requires ValidTerms(t) && PositiveCloses(bars) && |rows| == |bars| && n <= |bars| && initial >= 0.0
    requires Signals.AlternatesFrom(0, SignalColumn(rows[..n]))
    ensures var r := Simulate(t, bars, rows, initial, n);
            (r.book.shares > 0 <==> |r.trades| % 2 == 1)
            && (r.book.shares > 0 ==> Signals.PositionAfter(0, SignalColumn(rows[..n])) == 1)
            && forall k :: 0 <= k < |r.trades| ==> r.trades[k].action == (if k % 2 == 0 then Buy else Sell)
    decreases n
  {
    if n > 0 {
      var s := SignalColumn(rows[..n]);
      var s' := SignalColumn(rows[..n - 1]);
      assert s == s' + [rows[n - 1].signal];
      Signals.AlternatesSnoc(0, s', rows[n - 1].signal);
      Signals.PositionAfterSnoc(0, s', rows[n - 1].signal);
      TradesAlternate(t, bars, rows, initial, n - 1);
      ExecuteTrade(t, Simulate(t, bars, rows, initial, n - 1).book, bars[n - 1], rows[n - 1]);
    }
  }

  /**
   * Every logged trade moves at least one share: a buy only happens when the
   * cash buys a whole share, and a sell only while shares are held.
   */
  lemma {:induction false} TradesNonempty(t: Terms, bars: seq<Bar>, rows: seq<SignalRow>, initial: real, n: nat)
    requires ValidTerms(t) && PositiveCloses(bars) && |rows| == |bars| && n <= |bars| && initial >= 0.0
    ensures forall k :: 0 <= k < |Simulate(t, bars, rows, initial, n).trades| ==>
              Simulate(t, bars, rows, initial, n).trades[k].quantity >= 1
    decreases n
  {
    if n > 0 {
      var prev := Simulate(t, bars, rows, initial, n - 1);
      var o := Execute(t, prev.book, bars[n - 1], rows[n - 1]);
      TradesNonempty(t, bars, rows, initial, n - 1);
      ExecuteTrade(t, prev.book, bars[n - 1], rows[n - 1]);
      SimulateStep(t, bars, rows, initial, n - 1);
      assert o.trade.Some? ==> o.trade.value.quantity >= 1;
    }
  }

  /** One more bar: the snapshot of the book so far, then that bar's trade. */
  lemma SimulateStep(t: Terms, bars: seq<Bar>, rows: seq<SignalRow>, initial: real, n: nat)
    requires ValidTerms(t) && PositiveCloses(bars) && |rows| == |bars| && n < |bars| && initial >= 0.0
    ensures var prev := Simulate(t, bars, rows, initial, n);
            var o := Execute(t, prev.book, bars[n], rows[n]);
            Simulate(t, bars, rows, initial, n + 1)
              == Run(o.book, prev.trades + (if o.trade.Some? then [o.trade.value] else []),
                     prev.snapshots + [Snap(prev.book, bars[n])])
  {
  }

  /**
   * The body of the simulator loop for one bar after its snapshot: buy on a +1
   * that passes the cash test, or sell everything on a -1 while holding shares.
   */
  method TradeBar(t: Terms, capital: real, shares: int, bar: Bar, row: SignalRow)
    returns (capital': real, shares': int, trade: Option<Trade>)
    requires ValidTerms(t) && Solvent(Book(capital, shares)) && bar.close > 0.0
    ensures Outcome(Book(capital', shares'), trade) == Execute(t, Book(capital, shares), bar, row)
  {
    var price := bar.close;
    if row.signal == 1 && (if t.guard == CashPositive then capital > 0.0 else capital > price) {
      var quantity := Quantity(t, capital, price);
      if quantity > 0 {
        var cost := quantity as real * price * t.buyFactor;
        shares' := shares + quantity;
        capital' := capital - cost;
        trade := Some(Trade(bar.date, Buy, price, quantity, Detail(t, cost), row.reason,
                            Detail(t, Value(Book(capital', shares'), price))));
        ghost var o := Execute(t, Book(capital, shares), bar, row);
        assert o.book == Book(capital', shares');
        assert o.trade.value.valueAfter == Detail(t, Value(Book(capital', shares'), price));
        assert o.trade == trade;
        return;
      }
    } else if row.signal == -1 && shares > 0 {
      var revenue := shares as real * price * t.sellFactor;
      capital' := capital + revenue;
      shares' := 0;
      trade := Some(Trade(bar.date, Sell, price, shares, Detail(t, revenue), row.reason, Detail(t, capital')));
      ghost var o := Execute(t, Book(capital, shares), bar, row);
      assert o.book == Book(capital', shares');
      assert o.trade.value.amount == Detail(t, revenue);
      return;
    }
    capital', shares', trade := capital, shares, None;
  }

  /**
   * The simulator loop of the RSI, Bollinger and custom backtests: for each
   * bar, record the snapshot of the book before the bar's trade, then trade.
   */
  method RunSimulator(t: Terms, bars: seq<Bar>, rows: seq<SignalRow>, initial: real)
    returns (capital: real, shares: int, trades: seq<Trade>, snapshots: seq<Snapshot>)
    requires ValidTerms(t) && PositiveCloses(bars) && |rows| == |bars| && initial >= 0.0
    ensures Run(Book(capital, shares), trades, snapshots) == Simulate(t, bars, rows, initial, |bars|)
  {
    capital, shares := initial, 0;
    trades, snapshots := [], [];
    var i := 0;
    while i < |bars|
      invariant 0 <= i <= |bars|
      invariant Run(Book(capital, shares), trades, snapshots) == Simulate(t, bars, rows, initial, i)
    {
      SimulateStep(t, bars, rows, initial, i);
      var bar := bars[i];
      snapshots := snapshots + [Snap(Book(capital, shares), bar)];
      var trade;
      capital, shares, trade := TradeBar(t, capital, shares, bar, rows[i]);
      if trade.Some? {
        trades := trades + [trade.value];
      }
      i := i + 1;
    }
  }
}
