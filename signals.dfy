/**
 * Signal columns and the positions they imply. A signal is a transition:
 * +1 opens (or covers), -1 closes (or opens a short), 0 holds.
 */
module Signals {

  /** The long/flat position after acting on signal `x`: +1 opens, -1 closes, anything else holds. */
  function Act(pos: int, x: int): int
  {
    if x == 1 then 1 else if x == -1 then 0 else pos
  }

  /** The long/flat position reached from `pos` after the signals `s`, in order. */
  function PositionAfter(pos: int, s: seq<int>): int
  {
    if |s| == 0 then pos else Act(PositionAfter(pos, s[..|s| - 1]), s[|s| - 1])
  }

  /** A long/flat state machine may emit `x` while holding `pos`: +1 only when flat, -1 only when long. */
  predicate Permitted(pos: int, x: int)
  {
    -1 <= x <= 1 && (x == 1 ==> pos == 0) && (x == -1 ==> pos == 1)
  }

  /** Every signal of `s` is one a long/flat machine starting at `pos` may emit. */
  predicate AlternatesFrom(pos: int, s: seq<int>)
  {
    |s| == 0 || (AlternatesFrom(pos, s[..|s| - 1]) && Permitted(PositionAfter(pos, s[..|s| - 1]), s[|s| - 1]))
  }

  /** The nonzero signals of `s`, in order. */
  function Nonzero(s: seq<int>): seq<int>
  {
    if |s| == 0 then []
    else Nonzero(s[..|s| - 1]) + (if s[|s| - 1] != 0 then [s[|s| - 1]] else [])
  }

  /** The sum of a signal column: for a three-state machine, the net position change. */
  function Sum(s: seq<int>): int
  {
    if |s| == 0 then 0 else Sum(s[..|s| - 1]) + s[|s| - 1]
  }

  lemma PositionAfterSnoc(pos: int, s: seq<int>, x: int)
    ensures PositionAfter(pos, s + [x]) == Act(PositionAfter(pos, s), x)
  {
    assert (s + [x])[..|s|] == s;
  }

  lemma AlternatesSnoc(pos: int, s: seq<int>, x: int)
    ensures AlternatesFrom(pos, s + [x]) <==> AlternatesFrom(pos, s) && Permitted(PositionAfter(pos, s), x)
  {
    assert (s + [x])[..|s|] == s;
  }

  lemma SumSnoc(s: seq<int>, x: int)
    ensures Sum(s + [x]) == Sum(s) + x
  {
    assert (s + [x])[..|s|] == s;
  }

  lemma NonzeroSnoc(s: seq<int>, x: int)
    ensures Nonzero(s + [x]) == Nonzero(s) + (if x != 0 then [x] else [])
  {
    assert (s + [x])[..|s|] == s;
  }

  /** Folding signals from a long/flat position always leaves a long/flat position. */
  lemma {:induction false} PositionAfterIsBinary(pos: int, s: seq<int>)
    requires pos == 0 || pos == 1
    ensures PositionAfter(pos, s) == 0 || PositionAfter(pos, s) == 1
  {
    if |s| > 0 {
      PositionAfterIsBinary(pos, s[..|s| - 1]);
    }
  }

  /** With no nonzero signal yet, the position is still the starting one. */
  lemma {:induction false} PositionAfterQuiet(pos: int, s: seq<int>)
    requires forall k :: 0 <= k < |s| ==> s[k] == 0
    ensures PositionAfter(pos, s) == pos
  {
    if |s| > 0 {
      PositionAfterQuiet(pos, s[..|s| - 1]);
    }
  }

  /**
   * A column a long/flat machine emits from flat has its nonzero signals
   * strictly alternating +1, -1, +1, ... starting with +1, and the position it
   * ends in is the parity of the number of those signals.
   */
  lemma {:induction false} AlternationFromFlat(s: seq<int>)
    requires AlternatesFrom(0, s)
    ensures PositionAfter(0, s) == |Nonzero(s)| % 2
    ensures forall k :: 0 <= k < |Nonzero(s)| ==> Nonzero(s)[k] == (if k % 2 == 0 then 1 else -1)
  {
    if |s| > 0 {
      var t, x := s[..|s| - 1], s[|s| - 1];
      assert s == t + [x];
      AlternationFromFlat(t);
      NonzeroSnoc(t, x);
    }
  }

  /**
   * For a long/flat machine the position is also the running sum of its
   * signals: each +1 adds one share of exposure, each -1 removes it.
   */
  lemma {:induction false} PositionIsSum(pos: int, s: seq<int>)
    requires pos == 0 || pos == 1
    requires AlternatesFrom(pos, s)
    ensures PositionAfter(pos, s) == pos + Sum(s)
  {
    if |s| > 0 {
      PositionIsSum(pos, s[..|s| - 1]);
    }
  }
}
