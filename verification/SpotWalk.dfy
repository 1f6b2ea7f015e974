/**
 The causal price walk of one leg of a candle. Each next point is the nearest
 eligible limit (or the stop) between the cursor and the end of the leg, read
 from the order book as it stands when the step is chosen.
 */
module SpotWalk {
  import opened Wrappers
  import opened Rounding
  import opened SpotTypes
  import opened SpotEngine

  /** A resting buy on a falling leg, or a resting sell on a rising one, still ahead of the cursor. */
  predicate Crosses(s: State, o: Order, cursor: real, end: real) {
    && Eligible(s, o)
    && o.intent.limitPrice.Some?
    && (if end < cursor then o.intent.side == Buy && end <= o.intent.limitPrice.value < cursor
        else o.intent.side == Sell && cursor < o.intent.limitPrice.value <= end)
  }

  predicate StopCrosses(s: State, cursor: real, end: real) {
    end < cursor && s.stop.Some? && s.netBase != 0.0 && end <= s.stop.value < cursor
  }

  /** `a` is met no later than `b` when moving from `cursor` to `end`. */
  predicate NoLater(a: real, b: real, cursor: real, end: real) {
    if end < cursor then a >= b else a <= b
  }

  predicate Ahead(next: real, cursor: real, end: real) {
    if end < cursor then end <= next < cursor else cursor < next <= end
  }

  /** `next` is the first crossing after `cursor`, or the end of the leg. */
  ghost predicate IsNext(s: State, cursor: real, end: real, next: real) {
    && Ahead(next, cursor, end)
    && (forall k | 0 <= k < |s.orders| && Crosses(s, s.orders[k], cursor, end) ::
          NoLater(next, s.orders[k].intent.limitPrice.value, cursor, end))
    && (StopCrosses(s, cursor, end) ==> NoLater(next, s.stop.value, cursor, end))
    && (|| next == end
        || (exists k :: 0 <= k < |s.orders| && Crosses(s, s.orders[k], cursor, end)
                        && next == s.orders[k].intent.limitPrice.value)
        || (StopCrosses(s, cursor, end) && next == s.stop.value))
  }

  method NextPoint(s: State, cursor: real, end: real) returns (next: real)
    requires cursor != end
    ensures IsNext(s, cursor, end, next)
  {
    next := end;
    for n := 0 to |s.orders|
      invariant Ahead(next, cursor, end)
      invariant forall k | 0 <= k < n && Crosses(s, s.orders[k], cursor, end) ::
                  NoLater(next, s.orders[k].intent.limitPrice.value, cursor, end)
      invariant next == end || exists k :: 0 <= k < n && Crosses(s, s.orders[k], cursor, end)
                                           && next == s.orders[k].intent.limitPrice.value
    {
      if Crosses(s, s.orders[n], cursor, end) {
        var limit := s.orders[n].intent.limitPrice.value;
        if NoLater(limit, next, cursor, end) {
          next := limit;
        }
      }
    }
    if StopCrosses(s, cursor, end) && NoLater(s.stop.value, next, cursor, end) {
      next := s.stop.value;
    }
  }

  // -------------------------------------------------------- termination

  /** Bounds how many grid prices lie strictly inside the rest of the leg. */
  function Gap(cursor: real, end: real, tick: real): int
    requires tick > 0.0
  {
    -Lots(-Max(cursor, end), tick) - Lots(Min(cursor, end), tick)
  }

  lemma GapNatural(cursor: real, end: real, tick: real)
    requires tick > 0.0
    ensures Gap(cursor, end, tick) >= 0
  {
    var low, high := Min(cursor, end), Max(cursor, end);
    FloorStepBounds(low, tick);
    CeilStepBounds(high, tick);
    MultipleMono(Lots(low, tick), -Lots(-high, tick), tick);
  }

  /** Lots strictly below and at a grid price. */
  lemma LotsAtGrid(k: int, low: real, tick: real)
    requires tick > 0.0 && low < Multiple(k, tick)
    ensures Lots(low, tick) < k == Lots(Multiple(k, tick), tick)
  {
    FloorStepOfMultiple(k, tick);
    FloorStepLargest(low, tick, k);
  }

  lemma GapShrinks(cursor: real, end: real, next: real, tick: real)
    requires tick > 0.0 && Ahead(next, cursor, end) && next != end
    requires FloorStep(next, tick) == next
    ensures Gap(next, end, tick) < Gap(cursor, end, tick)
  {
    var k := Lots(next, tick);
    FloorStepBounds(next, tick);
    if end < cursor {
      MultipleAdd(k, 0, tick);
      LotsAtGrid(-k, -cursor, tick);
    } else {
      LotsAtGrid(k, cursor, tick);
    }
  }

  /** The price grid ends the walk: every step but the last crosses a tick for good. */
  lemma StepShrinksGap(s: State, cursor: real, end: real, next: real)
    requires Healthy(s) && IsNext(s, cursor, end, next) && next != end
    ensures Gap(next, end, s.binding.rules.priceTick) < Gap(cursor, end, s.binding.rules.priceTick)
  {
    var tick := s.binding.rules.priceTick;
    if StopCrosses(s, cursor, end) && next == s.stop.value {
      assert PriceOnGrid(s.stop, tick);
    } else {
      var k :| 0 <= k < |s.orders| && Crosses(s, s.orders[k], cursor, end)
               && next == s.orders[k].intent.limitPrice.value;
      assert PriceOnGrid(s.orders[k].intent.limitPrice, tick);
    }
    GapShrinks(cursor, end, next, tick);
  }

  // ------------------------------------------------------------ coverage

  /** Points visited on the way to `end`, and the state each step was chosen in. */
  ghost predicate Path(points: seq<real>, chosen: seq<State>, cursor: real, end: real) {
    && |points| == |chosen| + 1
    && points[|chosen|] == cursor
    && forall i | 0 <= i < |chosen| :: points[i] != end && IsNext(chosen[i], points[i], end, points[i + 1])
  }

  /** A completed leg. */
  ghost predicate Walk(points: seq<real>, chosen: seq<State>, end: real) {
    Path(points, chosen, end, end)
  }

  /** The walk moves strictly from its start to its end and never turns. */
  lemma {:induction false} WalkIsMonotone(points: seq<real>, chosen: seq<State>, end: real, i: nat, j: nat)
    requires Walk(points, chosen, end) && i < j < |points|
    ensures end < points[0] ==> end <= points[j] < points[i] <= points[0]
    ensures end >= points[0] ==> points[0] <= points[i] < points[j] <= end
    decreases j
  {
    assert IsNext(chosen[j - 1], points[j - 1], end, points[j]);
    if i < j - 1 {
      WalkIsMonotone(points, chosen, end, i, j - 1);
    } else if i > 0 {
      WalkIsMonotone(points, chosen, end, 0, i);
    }
  }

  /** An order on the leg's resting side: buys when it falls, sells when it rises. */
  predicate Rests(s: State, k: nat, limit: real, falling: bool) {
    && k < |s.orders|
    && Eligible(s, s.orders[k])
    && s.orders[k].intent.limitPrice == Some(limit)
    && s.orders[k].intent.side == (if falling then Buy else Sell)
  }

  /**
   No resting limit is jumped over: between two consecutive points there is no
   limit that was eligible when the step was chosen.
   */
  lemma NothingIsSkipped(points: seq<real>, chosen: seq<State>, end: real, i: nat, k: nat, limit: real)
    requires Walk(points, chosen, end) && i < |chosen|
    requires Rests(chosen[i], k, limit, end < points[0])
    ensures !(points[i + 1] < limit < points[i]) && !(points[i] < limit < points[i + 1])
  {
    assert IsNext(chosen[i], points[i], end, points[i + 1]);
    if i > 0 {
      WalkIsMonotone(points, chosen, end, 0, i);
    }
    if Crosses(chosen[i], chosen[i].orders[k], points[i], end) {
      assert NoLater(points[i + 1], limit, points[i], end);
    }
  }

  /**
   An order that rests ahead of point `j` and stays eligible for the rest of
   the leg is visited at its own limit price.
   */
  lemma {:induction false} RestingOrderIsVisited(
    points: seq<real>, chosen: seq<State>, end: real, j: nat, k: nat, limit: real)
    requires Walk(points, chosen, end) && j < |chosen|
    requires forall i | j <= i < |chosen| :: Rests(chosen[i], k, limit, end < points[0])
    requires Ahead(limit, points[j], end)
    ensures limit in points[j + 1..]
    decreases |chosen| - j
  {
    assert IsNext(chosen[j], points[j], end, points[j + 1]);
    assert Rests(chosen[j], k, limit, end < points[0]);
    if j > 0 {
      WalkIsMonotone(points, chosen, end, 0, j);
    }
    assert Crosses(chosen[j], chosen[j].orders[k], points[j], end);
    assert NoLater(points[j + 1], limit, points[j], end);
    assert points[j + 1] == points[j + 1..][0];
    if points[j + 1] != limit {
      RestingOrderIsVisited(points, chosen, end, j + 1, k, limit);
      assert points[j + 2..] == points[j + 1..][1..];
    }
  }
}
