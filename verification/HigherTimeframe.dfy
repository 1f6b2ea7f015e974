/**
 Which higher-timeframe bars a strategy is shown: only bars that closed before
 its decision, never one that is still forming.
 */
module HigherTimeframe {
  import opened Wrappers

  /** Bars in the order they arrived; only trailing ones can still be forming. */
  predicate Chronological(opens: seq<int>) {
    forall i, j | 0 <= i < j < |opens| :: opens[i] < opens[j]
  }

  /** The bar that opened at `open` has closed by the decision. */
  predicate ClosedBy(open: int, length: int, decision: int) {
    open + length <= decision
  }

  /** Bar `i` is shown: closed, inside the window, and among the last `history` closed ones. */
  predicate Shown(opens: seq<int>, length: int, decision: int, window: Option<int>, history: nat, i: nat)
    requires i < |opens|
  {
    && ClosedBy(opens[i], length, decision)
    && (window.Some? ==> opens[i] >= window.value)
    && (i + history < |opens| ==> !ClosedBy(opens[i + history], length, decision))
  }

  /**
   Scan back over forming bars, take at most `history`, and drop those before
   the window: bars `first` up to `last` are exactly the ones to show.
   */
  method SelectClosed(opens: seq<int>, length: int, decision: int, window: Option<int>, history: nat)
    returns (first: nat, last: nat)
    requires Chronological(opens)
    ensures first <= last <= |opens|
    ensures forall i: nat | i < |opens| :: first <= i < last <==> Shown(opens, length, decision, window, history, i)
  {
    var skip := 0;
    while skip < |opens| && opens[|opens| - 1 - skip] + length > decision
      invariant 0 <= skip <= |opens|
      invariant forall i | |opens| - skip <= i < |opens| :: !ClosedBy(opens[i], length, decision)
    {
      skip := skip + 1;
    }
    last := |opens| - skip;
    assert forall i: nat | i < last :: ClosedBy(opens[i], length, decision) by {
      assert forall i: nat | i < last :: last > 0 && opens[i] <= opens[last - 1];
    }
    var m := if history < last then history else last;
    while window.Some? && m > 0 && opens[last - m] < window.value
      invariant 0 <= m <= last && m <= history
      invariant forall i: nat | i < last - m ::
                  i + history < last || (window.Some? && opens[i] < window.value)
    {
      m := m - 1;
    }
    first := last - m;
  }
}
