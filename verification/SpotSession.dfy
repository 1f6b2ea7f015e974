/**
 The historical session: every reducer step is journaled before and after it
 happens, fills are allocated against one candle-wide allowance, and each
 candle is walked open, low, high, close over the live order book. Every method
 is proved to write exactly the records its move in `SpotLane` writes, or, when
 the journal fails, to stop short inside them.
 */
module SpotSession {
  import opened Wrappers
  import opened Rounding
  import opened StableSort
  import opened SpotTypes
  import opened SpotMatching
  import opened SpotEngine
  import opened SpotJournal
  import opened SpotWalk
  import opened SpotLane
  import opened SpotFills
  import opened SpotTrace

  // ------------------------------------------------------------- drain

  /** Nothing is left for the simulator to acknowledge or reconcile. */
  predicate Drained(s: State) {
    || s.reconciliationRequired
    || s.quarantine
    || forall k | 0 <= k < |s.orders| ::
         && !AwaitsReply(s.orders[k].status)
         && (Terminal(s.orders[k].status) ==> s.orders[k].terminalReconciled)
  }

  lemma StatusEventCovered(s: State, key: nat, status: Status, timestamp: int)
    requires Healthy(s) && key < |s.orders|
    ensures Covered(s, StatusEvent(s, key, s.orders[key], status, timestamp))
  {
    assert Sized(s.orders[key]);
  }

  /** `after` is what one observation may make of `before`. */
  ghost predicate Reduced(before: State, body: Body, after: State) {
    && Healthy(after)
    && Reduces(before, after)
    && Since(before, after) == (if body.Executed? then [body.event] else [])
    && (Terminates(before, body) ==> after.terminalAction.Some?)
    && Settles(before, after)
  }

  /** The reducer step taken from the state that journaled its observation. */
  lemma AdvanceSummary(before: State, middle: State, o: Observation, recipe: Recipe)
    requires Healthy(before) && Rewritten(before, middle) && Advance(middle, o, recipe).Some?
    requires o.body.Executed? ==> Covered(before, o.body.event)
    ensures Reduced(before, o.body, Advance(middle, o, recipe).value)
  {
    RewrittenReduces(before, middle);
    AdvanceHealthy(middle, o, recipe);
    AdvanceSettles(middle, o, recipe);
    ReducesTransitive(before, middle, Advance(middle, o, recipe).value);
    if Terminates(before, o.body) {
      TerminationStands(middle, o, recipe);
    }
  }

  lemma ReducedRewritten(before: State, body: Body, mid: State, after: State)
    requires Reduced(before, body, mid) && Rewritten(mid, after)
    ensures Reduced(before, body, after)
  {
    RewrittenReduces(mid, after);
    ReducesTransitive(before, mid, after);
  }

  // ------------------------------------------------------------- match

  lemma AllocationHealthy(s: State, quantity: real)
    requires Healthy(s) && 0.0 <= quantity <= Unused(s)
    ensures Healthy(Debited(s, quantity))
  {
  }

  /** Once its quantity is allocated, a matched event is covered. */
  lemma MatchedIsCovered(s: State, key: nat, reference: real, atOpen: bool, timestamp: int)
    requires Healthy(s) && key < |s.orders|
    requires MatchEvent(s, key, s.orders[key], reference, atOpen, timestamp).Some?
    ensures var e := MatchEvent(s, key, s.orders[key], reference, atOpen, timestamp).value;
            && 0.0 <= e.quantity <= Unused(s)
            && e.key == key && e.side == s.orders[key].intent.side
            && Covered(Debited(s, e.quantity), e)
  {
    var e := MatchEvent(s, key, s.orders[key], reference, atOpen, timestamp).value;
    if e.quantity > 0.0 {
      FillShape(s, key, s.orders[key], reference, atOpen, timestamp);
      FillIsLargest(s, key, s.orders[key], reference, atOpen, timestamp, 0.0);
      FillRespectsSize(s, key, s.orders[key], reference, atOpen, timestamp);
    } else {
      assert Sized(s.orders[key]);
    }
  }

  /** At most one fill was logged between two states, and it is a fill of `key` on `side`. */
  ghost predicate OnlyFills(a: State, b: State, key: nat, side: Side) {
    && a.events <= b.events
    && (forall e | e in Since(a, b) && e.quantity != 0.0 :: e.key == key && e.side == side)
    && (forall i, j | 0 <= i < j < |Since(a, b)| :: Since(a, b)[i].quantity == 0.0 || Since(a, b)[j].quantity == 0.0)
  }

  lemma OnlyFillsThenNone(a: State, b: State, c: State, key: nat, side: Side)
    requires OnlyFills(a, b, key, side) && NoFill(b, c)
    ensures OnlyFills(a, c, key, side)
  {
    assert c.events == b.events + Since(b, c);
    assert b.events == a.events + Since(a, b);
    assert Since(a, c) == Since(a, b) + Since(b, c);
  }

  /** What matching one order may do to the state. */
  ghost predicate Matches(a: State, b: State, key: nat, side: Side) {
    && Evolves(a, b)
    && b.stopReferenceBar == a.stopReferenceBar
    && OnlyFills(a, b, key, side)
  }

  lemma AllocatedMatches(a: State, b: State, quantity: real, e: Event)
    requires Rewritten(Debited(a, quantity), b) && quantity >= 0.0
    requires Covered(Debited(a, quantity), e) && Tame(a, Executed(e))
    ensures Matches(a, b, e.key, e.side) && Covered(b, e) && Tame(b, Executed(e))
    ensures b.orders == a.orders && b.events == a.events
  {
  }

  lemma MatchesThenReduces(a: State, b: State, c: State, key: nat, side: Side)
    requires Matches(a, b, key, side) && a.events == b.events
    requires Reduces(b, c) && OnlyFills(b, c, key, side)
    ensures Matches(a, c, key, side)
  {
    EvolvesTransitive(a, b, c);
  }

  lemma ConsumedMatches(a: State, b: State, c: State, key: nat, side: Side)
    requires Matches(a, b, key, side) && (Rewritten(Consumed(b), c) || b == c)
    ensures Evolves(a, c) && OnlyFills(a, c, key, side)
    ensures c.stopReferenceBar == if Rewritten(Consumed(b), c) then c.barIndex else a.stopReferenceBar
  {
    assert Since(a, c) == Since(a, b);
  }

  lemma ConsumeReady(s: State, binding: Binding)
    requires Restorable(s, binding)
    ensures Restorable(Consumed(s), binding)
    ensures s.pendingObservation == None ==> Writes(s, Consumed(s), StopReferenceConsumed)
  {
    if s.pendingObservation == None {
      PlainWrites(s, Consumed(s), StopReferenceConsumed);
    }
  }

  lemma ReceiveReady(s: State, observation: Observation, binding: Binding)
    requires Restorable(s, binding)
    ensures var written := s.(pendingObservation := Some(observation));
            && Restorable(written, binding) && Rewritten(s, written)
            && (s.pendingObservation == None ==> Writes(s, written, ObservationReceived))
  {
    RewrittenReduces(s, s.(pendingObservation := Some(observation)));
  }

  lemma BarEndReady(s: State, binding: Binding)
    requires Restorable(s, binding)
    ensures Restorable(BarEnded(s), binding)
    ensures s.pendingObservation == None ==> Writes(s, BarEnded(s), CandleProcessed)
  {
    if s.pendingObservation == None {
      PlainWrites(s, BarEnded(s), CandleProcessed);
    }
  }

  lemma FinalReady(s: State, binding: Binding)
    requires Restorable(s, binding)
    ensures Restorable(Final(s), binding)
    ensures s.pendingObservation == None ==> Writes(s, Final(s), EndOfData)
  {
    if s.pendingObservation == None {
      PlainWrites(s, Final(s), EndOfData);
    }
  }

  /** A reduced observation is settled before it is written. */
  lemma ReducedReady(before: State, body: Body, middle: State, next: State, binding: Binding)
    requires before.binding == binding && Reduced(before, body, next) && Steady(middle, next) && Settles(middle, next)
    ensures var reduced := next.(pendingObservation := None);
            && Restorable(reduced, binding)
            && Writes(middle, reduced, ObservationReduced)
            && Reduced(before, body, reduced)
  {
    var reduced := next.(pendingObservation := None);
    RewrittenReduces(next, reduced);
    ReducedRewritten(before, body, next, reduced);
    assert Since(middle, reduced) == Since(middle, next);
  }

  // ------------------------------------------------------------- candles

  datatype Verdict = Refuse(error: Failure) | Repeat | Take

  predicate WellFormed(c: Candle, interval: int)
    requires interval > 0
  {
    && c.timestamp >= 0 && c.timestamp % interval == 0
    && Min(Min(c.open, c.high), Min(c.low, c.close)) > 0.0
    && c.volume >= 0.0
    && c.low <= Min(c.open, c.close) && Max(c.open, c.close) <= c.high
  }

  /** The checks on a supplied candle, given the candle before it. */
  function Judge(s: State, failed: bool, previous: Option<Candle>, c: Candle): Verdict
    requires s.binding.interval > 0
  {
    if failed then Refuse(JournalFailed)
    else if s.finished then Refuse(SessionFinished)
    else if s.barInProgress then Refuse(IncompleteCandle)
    else if !WellFormed(c, s.binding.interval) then Refuse(InvalidCandle)
    else if previous.Some? && c.timestamp == previous.value.timestamp then
      if c != previous.value then Refuse(ConflictingReconnect) else Repeat
    else if previous.Some? && c.timestamp != previous.value.timestamp + s.binding.interval then Refuse(CandleGap)
    else if s.binding.evaluationEnd.Some? && c.timestamp >= s.binding.evaluationEnd.value then Refuse(OutsideEvaluation)
    else if s.binding.coverage.Some?
            && !(s.binding.coverage.value.0 <= c.timestamp <= s.binding.coverage.value.1) then Refuse(NotCovered)
    else Take
  }

  /** What a session that neither failed, ended nor stands inside a bar takes: the next whole candle of its evaluation. */
  predicate NextWhole(s: State, previous: Option<Candle>, c: Candle)
    requires s.binding.interval > 0
  {
    && c.timestamp >= 0 && c.timestamp % s.binding.interval == 0
    && 0.0 < c.low && Ordered(c) && c.volume >= 0.0
    && (previous.Some? ==> c.timestamp == previous.value.timestamp + s.binding.interval)
    && (s.binding.evaluationEnd.Some? ==> c.timestamp < s.binding.evaluationEnd.value)
    && (s.binding.coverage.Some? ==> s.binding.coverage.value.0 <= c.timestamp <= s.binding.coverage.value.1)
  }

  /** A candle is taken exactly when it is the next one, and repeats exactly when it is the last one again. */
  lemma TakenExactly(s: State, failed: bool, previous: Option<Candle>, c: Candle)
    requires s.binding.interval > 0
    requires previous.Some? ==> WellFormed(previous.value, s.binding.interval)
    ensures var standing := !failed && !s.finished && !s.barInProgress;
            && (Judge(s, failed, previous, c) == Take <==> standing && NextWhole(s, previous, c))
            && (Judge(s, failed, previous, c) == Repeat <==> standing && previous == Some(c))
  {
    assert WellFormed(c, s.binding.interval) <==>
           c.timestamp >= 0 && c.timestamp % s.binding.interval == 0 && 0.0 < c.low && Ordered(c) && c.volume >= 0.0;
  }

  lemma OpenedHealthy(s: State, c: Candle)
    requires Healthy(s) && c.volume >= 0.0
    ensures Healthy(Opened(s, c)) && Opened(s, c).binding == s.binding
    ensures s.pendingObservation == None ==> Writes(s, Opened(s, c), CandleReceived)
  {
    NoFillsYet(s.events, s.barIndex + 1);
    assert Allowance(s.binding, c) >= 0.0;
  }

  /** An expiry reported from an earlier snapshot of the order. */
  lemma ExpiryCovered(s: State, earlier: seq<Order>, key: nat, timestamp: int)
    requires Healthy(s) && key < |earlier| && Keyed(earlier, s.orders)
    requires OrdersHealthy(earlier, s.binding.rules.priceTick)
    ensures Covered(s, StatusEvent(s, key, earlier[key], Expired, timestamp))
  {
    assert Sized(earlier[key]);
  }

  /** Nothing was filled and no stop reference consumed on the way to the end of the bar. */
  ghost predicate Winds(a: State, b: State) {
    && NoFill(a, b)
    && Keyed(a.orders, b.orders)
    && b.barIndex == a.barIndex && b.stopReferenceBar == a.stopReferenceBar
  }

  /** A bar that ended: nothing filled since, and no longer in progress. */
  ghost predicate Closed(a: State, b: State) {
    && Winds(a, b)
    && !b.barInProgress
    && b.lastCandle == a.lastCandle
    && b.liquidityAllowance == a.liquidityAllowance && b.liquidityUsed == a.liquidityUsed
    && b.finished == a.finished
    && (a.terminalAction.Some? ==> b.terminalAction == a.terminalAction)
  }

  /** A completed candle: its fills, over all orders and both sides, fit its allowance. */
  ghost predicate Processed(a: State, b: State, c: Candle) {
    && b.barIndex == a.barIndex + 1
    && !b.barInProgress
    && b.lastCandle == Some(c)
    && b.finished == a.finished
    && a.events <= b.events
    && (a.terminalAction.Some? ==> b.terminalAction == a.terminalAction)
    && BarFills(b.events, b.barIndex) <= c.volume * a.binding.policy.participation
  }

  lemma BarSoFar(a: State, c: Candle, start: State, b: State)
    requires Evolves(Opened(a, c), start) && Evolves(start, b)
    ensures Evolves(Opened(a, c), b) && a.events <= b.events
  {
    EvolvesTransitive(Opened(a, c), start, b);
  }

  lemma BarClosed(a: State, c: Candle, walked: State, b: State)
    requires Evolves(Opened(a, c), walked) && Closed(walked, b) && Healthy(b)
    ensures Processed(a, b, c)
  {
  }

  // ---------------------------------------------------------- priority

  /** Fills on `side` were taken in matching priority. */
  ghost predicate InPriority(orders: seq<Order>, events: seq<Event>, side: Side) {
    forall i, j | 0 <= i < j < |events|
               && events[i].quantity != 0.0 && events[j].quantity != 0.0
               && events[i].side == side && events[j].side == side ::
      events[i].key != events[j].key && Precedes(orders, events[i].key, events[j].key)
  }

  /** Fills on `side` name only keys from `keys`. */
  ghost predicate FillsAmong(events: seq<Event>, side: Side, keys: seq<int>) {
    forall e | e in events && e.quantity != 0.0 && e.side == side :: e.key in keys
  }

  /** At most one fill on `side`, and it is a fill of `key`. */
  ghost predicate OneFill(events: seq<Event>, key: int, side: Side) {
    && (forall e | e in events && e.quantity != 0.0 && e.side == side :: e.key == key)
    && (forall i, j | 0 <= i < j < |events| && events[i].side == side && events[j].side == side ::
          events[i].quantity == 0.0 || events[j].quantity == 0.0)
  }

  lemma OneFillThenNone(done: seq<Event>, more: seq<Event>, key: int, side: Side)
    requires OneFill(done, key, side)
    requires forall e | e in more && e.side == side :: e.quantity == 0.0
    ensures OneFill(done + more, key, side)
  {
    var all := done + more;
    forall j | |done| <= j < |all| ensures all[j].side == side ==> all[j].quantity == 0.0 {
      assert all[j] == more[j - |done|] && more[j - |done|] in more;
    }
  }

  lemma PriorityExtends(orders: seq<Order>, keys: seq<int>, n: nat, done: seq<Event>, more: seq<Event>, side: Side)
    requires NoDup(keys) && n < |keys|
    requires forall i, j | 0 <= i < j < |keys| :: Precedes(orders, keys[i], keys[j])
    requires InPriority(orders, done, side) && FillsAmong(done, side, keys[..n])
    requires OneFill(more, keys[n], side)
    ensures InPriority(orders, done + more, side) && FillsAmong(done + more, side, keys[..n + 1])
  {
    var all := done + more;
    forall i, j | 0 <= i < j < |all|
               && all[i].quantity != 0.0 && all[j].quantity != 0.0
               && all[i].side == side && all[j].side == side
      ensures all[i].key != all[j].key && Precedes(orders, all[i].key, all[j].key)
    {
      if j >= |done| {
        assert all[j] in more;
        if i < |done| {
          assert all[i] in done;
          var m :| 0 <= m < n && keys[m] == all[i].key;
        } else {
          assert false;
        }
      } else {
        assert all[i] == done[i] && all[j] == done[j];
      }
    }
    forall e | e in all && e.quantity != 0.0 && e.side == side ensures e.key in keys[..n + 1] {
      if e in done {
        assert e.key in keys[..n];
      } else {
        assert keys[..n + 1][n] == keys[n];
      }
    }
  }

  /** Once a terminal action stands, no buy is reported. */
  ghost predicate Tame(s: State, body: Body) {
    body.Executed? && s.terminalAction.Some? ==> body.event.side == Sell || body.event.quantity == 0.0
  }

  lemma ReducedSteady(before: State, middle: State, body: Body, next: State)
    requires Reduced(before, body, next) && Rewritten(before, middle) && Tame(before, body)
    requires middle.pendingObservation.Some? && middle.pendingObservation.value.body == body
    ensures Steady(middle, next) && Settles(middle, next)
  {
    assert Since(middle, next) == Since(before, next);
  }

  /** A reply names no fill, and continues its order. */
  lemma ReplyCovered(s: State, timestamp: int)
    requires Healthy(s) && NextReply(s, timestamp).Some?
    ensures var body := NextReply(s, timestamp).value;
            && Tame(s, body) && !Terminates(s, body)
            && (body.Executed? ==> Covered(s, body.event) && body.event.quantity == 0.0)
  {
    var waiting := FirstAwaiting(s.orders, 0);
    if waiting.Some? {
      var status := if s.orders[waiting.value].status == Pending then Accepted else Canceled;
      StatusEventCovered(s, waiting.value, status, timestamp);
    }
  }

  lemma NothingOwed(s: State, timestamp: int)
    requires NextReply(s, timestamp) == None
    ensures Drained(s)
  {
  }

  /** An observation that reports no fill logs none. */
  lemma QuietAfter(before: State, body: Body, after: State)
    requires Reduced(before, body, after) || Rewritten(before, after)
    requires body.Executed? ==> body.event.quantity == 0.0
    ensures Reduces(before, after) && NoFill(before, after)
  {
  }

  /** What observing `body` and draining what it leads to may log. */
  ghost predicate Logs(before: State, body: Body, after: State) {
    && Reduces(before, after)
    && (if body.Executed? then OnlyFills(before, after, body.event.key, body.event.side) else NoFill(before, after))
  }

  lemma LogsAfter(before: State, body: Body, seen: State, after: State)
    requires Reduced(before, body, seen) && Reduces(seen, after) && NoFill(seen, after)
    ensures Logs(before, body, after)
    ensures Terminates(before, body) ==> after.terminalAction.Some?
  {
    ReducesTransitive(before, seen, after);
    if body.Executed? {
      OnlyFillsThenNone(before, seen, after, body.event.key, body.event.side);
    }
  }

  lemma LogsNothing(before: State, body: Body, after: State)
    requires Rewritten(before, after)
    ensures Logs(before, body, after)
  {
  }

  /** A record that is neither an observation nor its reduction changes nothing that containment rests on. */
  lemma PlainWrites(a: State, b: State, kind: Kind)
    requires a.pendingObservation == None && kind != ObservationReceived
    requires b.events == a.events && b.terminalAction == a.terminalAction
    requires b.netBase == a.netBase && b.quoteCash == a.quoteCash
    ensures Writes(a, b, kind)
  {
  }

  lemma DebitReady(s: State, quantity: real, binding: Binding)
    requires Restorable(s, binding) && 0.0 <= quantity <= Unused(s)
    ensures Restorable(Debited(s, quantity), binding)
    ensures s.pendingObservation == None ==> Writes(s, Debited(s, quantity), LiquidityAllocation)
    ensures quantity == 0.0 ==> Debited(s, quantity) == s
  {
    AllocationHealthy(s, quantity);
    if s.pendingObservation == None {
      PlainWrites(s, Debited(s, quantity), LiquidityAllocation);
    }
  }

  lemma MatchesItself(a: State, e: Event)
    ensures Matches(a, a, e.key, e.side)
  {
  }

  /** Nothing was filled, and nothing but reducer steps was taken. */
  ghost predicate Quiet(a: State, b: State) {
    Reduces(a, b) && NoFill(a, b)
  }

  lemma NothingDone(s: State)
    ensures Quiet(s, s)
  {
  }

  lemma QuietThen(a: State, b: State, c: State)
    requires Quiet(a, b) && Quiet(b, c)
    ensures Quiet(a, c)
  {
    ReducesTransitive(a, b, c);
  }

  // --------------------------------------------------------- emergencies

  /** A sell of a market order. */
  ghost predicate MarketSale(orders: seq<Order>, e: Event) {
    && e.quantity != 0.0 && e.side == Sell
    && e.key < |orders| && orders[e.key].intent.orderType == Market
  }

  ghost predicate NoMarketSale(a: State, b: State) {
    a.events <= b.events && forall e | e in Since(a, b) :: !MarketSale(b.orders, e)
  }

  /** The bar's stop reference has been consumed by an off-open close. */
  ghost predicate Spent(s: State) {
    s.stopReferenceBar == s.barIndex
  }

  /**
   What may happen off the open of one bar: at most one market order sells,
   it is a close, and none sells once the bar's stop reference is consumed.
   */
  ghost predicate OneEmergency(a: State, b: State) {
    && a.events <= b.events
    && (forall e | e in Since(a, b) && MarketSale(b.orders, e) :: b.orders[e.key].intent.purpose == Flatten)
    && (forall i, j | 0 <= i < j < |Since(a, b)| ::
          !(MarketSale(b.orders, Since(a, b)[i]) && MarketSale(b.orders, Since(a, b)[j])))
    && (Spent(a) ==> NoMarketSale(a, b) && Spent(b))
  }

  /** As `OneEmergency`; a close that sold has consumed the reference, unless the run broke off. */
  ghost predicate Bounded(a: State, b: State, done: bool) {
    OneEmergency(a, b) && (done ==> NoMarketSale(a, b) || Spent(b))
  }

  lemma SaleKept(b: State, c: State, e: Event)
    requires Healthy(b) && Keyed(b.orders, c.orders) && e in b.events
    ensures MarketSale(c.orders, e) <==> MarketSale(b.orders, e)
  {
  }

  lemma NoSaleThen(a: State, b: State, c: State)
    requires Healthy(b) && Keyed(b.orders, c.orders) && NoMarketSale(a, b) && NoMarketSale(b, c)
    ensures NoMarketSale(a, c)
  {
    assert c.events == b.events + Since(b, c);
    assert b.events == a.events + Since(a, b);
    forall e | e in Since(a, c) ensures !MarketSale(c.orders, e) {
      if e in Since(a, b) {
        SaleKept(b, c, e);
      } else {
        assert Since(a, c) == Since(a, b) + Since(b, c);
      }
    }
  }

  lemma SalesApart(b: State, c: State, first: seq<Event>, next: seq<Event>)
    requires Healthy(b) && Keyed(b.orders, c.orders) && (forall e | e in first :: e in b.events)
    requires forall i, j | 0 <= i < j < |first| :: !(MarketSale(b.orders, first[i]) && MarketSale(b.orders, first[j]))
    requires forall i, j | 0 <= i < j < |next| :: !(MarketSale(c.orders, next[i]) && MarketSale(c.orders, next[j]))
    requires (forall e | e in first :: !MarketSale(b.orders, e)) || (forall e | e in next :: !MarketSale(c.orders, e))
    ensures var all := first + next;
            forall i, j | 0 <= i < j < |all| :: !(MarketSale(c.orders, all[i]) && MarketSale(c.orders, all[j]))
  {
    var all := first + next;
    forall i, j | 0 <= i < j < |all| ensures !(MarketSale(c.orders, all[i]) && MarketSale(c.orders, all[j])) {
      if i < |first| {
        assert all[i] == first[i] && first[i] in first;
        SaleKept(b, c, first[i]);
        if j < |first| {
          assert all[j] == first[j] && first[j] in first;
          SaleKept(b, c, first[j]);
        } else {
          assert all[j] == next[j - |first|];
        }
      } else {
        assert all[i] == next[i - |first|] && all[j] == next[j - |first|];
      }
    }
  }

  lemma SinceJoined(a: State, b: State, c: State)
    requires a.events <= b.events && b.events <= c.events
    ensures Since(a, c) == Since(a, b) + Since(b, c) && a.events <= c.events
    ensures forall e | e in Since(a, b) :: e in b.events
  {
    assert c.events == b.events + Since(b, c);
    assert b.events == a.events + Since(a, b);
  }

  lemma ClosesOnly(a: State, b: State, c: State)
    requires Healthy(b) && Keyed(b.orders, c.orders) && OneEmergency(a, b) && OneEmergency(b, c)
    ensures a.events <= c.events
    ensures forall e | e in Since(a, c) && MarketSale(c.orders, e) :: c.orders[e.key].intent.purpose == Flatten
  {
    SinceJoined(a, b, c);
    forall e | e in Since(a, b) ensures MarketSale(c.orders, e) <==> MarketSale(b.orders, e) {
      SaleKept(b, c, e);
    }
  }

  /** Off the open of one bar, what happened first bounds what happens next. */
  lemma BoundedThen(a: State, b: State, c: State, done: bool)
    requires Healthy(b) && Keyed(b.orders, c.orders) && c.barIndex == b.barIndex
    requires Bounded(a, b, true) && Bounded(b, c, done)
    ensures Bounded(a, c, done)
  {
    SinceJoined(a, b, c);
    if NoMarketSale(a, b) && NoMarketSale(b, c) {
      NoSaleThen(a, b, c);
    }
    ClosesOnly(a, b, c);
    SalesApart(b, c, Since(a, b), Since(b, c));
  }

  lemma QuietBounded(a: State, b: State)
    requires Evolves(a, b) && b.stopReferenceBar == a.stopReferenceBar
    requires forall e | e in Since(a, b) :: e.quantity != 0.0 ==> e.side == Buy
    ensures Bounded(a, b, true)
  {
  }

  /** One sell offered off the open, however it ended. */
  lemma SaleBounded(a: State, b: State, key: nat, done: bool)
    requires Evolves(a, b) && key < |a.orders| && OnlyFills(a, b, key, Sell)
    requires a.orders[key].intent.orderType == Market ==> a.orders[key].intent.purpose == Flatten && !Spent(a)
    requires b.stopReferenceBar == a.stopReferenceBar || Spent(b)
    requires done && a.orders[key].intent.orderType == Market ==> Spent(b)
    ensures Bounded(a, b, done)
  {
    if a.orders[key].intent.orderType == Limit {
      forall e | e in Since(a, b) ensures !MarketSale(b.orders, e) {
      }
    }
  }

  /**
   Filled or not, a market order offered off the open spends the bar's stop
   reference, and then no market order may be offered off the open.
   */
  lemma OneAttempt(run: Run, advance: Reducer, key: int, p: real, other: int, q: real)
    requires ValidBinding(run.state.binding) && run.error == None
    requires MaySell(run.state, key, p, false) && run.state.orders[key].intent.orderType == Market
    requires DoSellOne(run, advance, key, p, false).error == None
    ensures var s := DoSellOne(run, advance, key, p, false).state;
            Spent(s) && (MaySell(s, other, q, false) ==> s.orders[other].intent.orderType == Limit)
  {
    SaleTurn(run, advance, key, p, false);
    var matched := DoOffer(run, advance, key, p, false);
    assert Consume(matched).state == Commit(RecordFor(matched.state, Consumed(matched.state), StopReferenceConsumed));
  }

  /** What the first `n` offers of a sell pass made of `before`. */
  ghost predicate SoldSoFar(before: State, now: State, keys: seq<int>, n: nat, atOpen: bool, done: bool) {
    && Evolves(before, now)
    && NoBuyFill(before, now)
    && n <= |keys|
    && InPriority(before.orders, Since(before, now), Sell)
    && FillsAmong(Since(before, now), Sell, keys[..n])
    && (!atOpen ==> Bounded(before, now, done))
  }

  lemma NothingSold(s: State, keys: seq<int>, atOpen: bool)
    ensures SoldSoFar(s, s, keys, 0, atOpen, true)
  {
  }

  /** One more sell of a pass, added to the ones before it. */
  lemma SoldNext(before: State, middle: State, after: State, keys: seq<int>, n: nat, atOpen: bool, done: bool)
    requires PriorityOrder(before.orders, keys) && n < |keys| && keys[n] >= 0
    requires SoldSoFar(before, middle, keys, n, atOpen, true) && Healthy(middle)
    requires Evolves(middle, after) && OnlyFills(middle, after, keys[n], Sell)
    requires !atOpen ==> Bounded(middle, after, done)
    ensures SoldSoFar(before, after, keys, n + 1, atOpen, done)
  {
    EvolvesTransitive(before, middle, after);
    PriorityExtends(before.orders, keys, n, Since(before, middle), Since(middle, after), Sell);
    if !atOpen {
      BoundedThen(before, middle, after, done);
    }
  }

  lemma QuietAfterSales(before: State, sold: State, after: State, atOpen: bool, done: bool)
    requires Evolves(before, sold) && NoBuyFill(before, sold) && Healthy(sold)
    requires Reduces(sold, after) && NoFill(sold, after)
    requires !atOpen ==> Bounded(before, sold, true)
    ensures Evolves(before, after) && NoBuyFill(before, after)
    ensures !atOpen ==> Bounded(before, after, done)
  {
    EvolvesTransitive(before, sold, after);
    if !atOpen {
      QuietBounded(sold, after);
      BoundedThen(before, sold, after, done);
    }
  }

  /** What a point sells once the stop is contained. */
  lemma SoldAfterQuiet(before: State, contained: State, after: State, atOpen: bool, done: bool)
    requires Quiet(before, contained) && Healthy(contained)
    requires Evolves(contained, after) && NoBuyFill(contained, after)
    requires !atOpen ==> Bounded(contained, after, done)
    ensures Evolves(before, after) && NoBuyFill(before, after)
    ensures !atOpen ==> Bounded(before, after, done)
  {
    EvolvesTransitive(before, contained, after);
    if !atOpen {
      QuietBounded(before, contained);
      BoundedThen(before, contained, after, done);
    }
  }

  lemma VisitedOnward(before: State, middle: State, after: State, atOpen: bool, done: bool)
    requires Evolves(before, middle) && Healthy(middle) && Evolves(middle, after)
    requires !atOpen ==> Bounded(before, middle, true) && Bounded(middle, after, done)
    ensures Evolves(before, after)
    ensures !atOpen ==> Bounded(before, after, done)
  {
    EvolvesTransitive(before, middle, after);
    if !atOpen {
      BoundedThen(before, middle, after, done);
    }
  }

  /** What the first `n` offers of a buy pass made of `before`. */
  ghost predicate BoughtSoFar(
    before: State, now: State, ranked: seq<Order>, keys: seq<int>, n: nat, done: bool) {
    && Evolves(before, now)
    && n <= |keys|
    && InPriority(ranked, Since(before, now), Buy)
    && FillsAmong(Since(before, now), Buy, keys[..n])
    && Bounded(before, now, done)
  }

  lemma NothingBought(s: State, ranked: seq<Order>, keys: seq<int>)
    ensures BoughtSoFar(s, s, ranked, keys, 0, true)
  {
  }

  /** One more buy of a pass, added to the ones before it. */
  lemma BoughtNext(before: State, middle: State, after: State, ranked: seq<Order>, keys: seq<int>, n: nat, done: bool)
    requires PriorityOrder(ranked, keys) && n < |keys|
    requires BoughtSoFar(before, middle, ranked, keys, n, true) && Healthy(middle)
    requires Evolves(middle, after) && OneFill(Since(middle, after), keys[n], Buy) && Bounded(middle, after, done)
    ensures BoughtSoFar(before, after, ranked, keys, n + 1, done)
  {
    EvolvesTransitive(before, middle, after);
    PriorityExtends(ranked, keys, n, Since(before, middle), Since(middle, after), Buy);
    BoundedThen(before, middle, after, done);
  }

  /** A buy, then the visit that contains it. */
  lemma ContainedTurn(before: State, bought: State, after: State, key: nat, done: bool)
    requires Evolves(before, bought) && OnlyFills(before, bought, key, Buy) && Healthy(bought)
    requires Evolves(bought, after) && NoBuyFill(bought, after)
    requires Bounded(before, bought, true) && Bounded(bought, after, done)
    ensures Evolves(before, after) && OneFill(Since(before, after), key, Buy)
    ensures Bounded(before, after, done)
  {
    EvolvesTransitive(before, bought, after);
    OneFillThenNone(Since(before, bought), Since(bought, after), key, Buy);
    BoundedThen(before, bought, after, done);
  }

  /** One more visit of a leg, added to the ones before it. */
  lemma StepWalked(
    from: Run, advance: Reducer, start: real, end: real, points: seq<real>, last: real, next: real, middle: Run)
    requires ValidBinding(from.state.binding)
    requires Walked(from, advance, points) == middle && middle.error == None
    requires Leads(from, advance, start, end, points, last) && Heads(middle.state, last, end, next)
    ensures Walked(from, advance, points + [next]) == DoVisit(middle, advance, next, false)
    ensures Leads(from, advance, start, end, points + [next], next)
  {
    WalkedOnward(from, advance, points, next);
    LeadsOnward(from, advance, start, end, points, last, next);
    VisitDone(middle, advance, next, false);
  }

  lemma BarEnds(before: State, heard: State, after: State)
    requires Quiet(before, heard)
    requires after == heard || Rewritten(BarEnded(heard), after)
    ensures Winds(before, after)
    ensures Rewritten(BarEnded(heard), after) ==> Closed(before, after)
  {
    assert Since(before, after) == Since(before, heard);
  }

  lemma ClosedAfter(before: State, priced: State, after: State, done: bool)
    requires Quiet(before, priced)
    requires Winds(priced, after) && (done ==> Closed(priced, after))
    ensures Winds(before, after) && (done ==> Closed(before, after))
  {
    SinceJoined(before, priced, after);
  }

  /** The end of a bar adds no sale to the ones its walk made. */
  lemma WindsBounded(a: State, walked: State, after: State, done: bool)
    requires Healthy(walked) && Winds(walked, after) && Bounded(a, walked, true)
    ensures Bounded(a, after, done)
  {
    assert Bounded(walked, after, true);
    BoundedThen(a, walked, after, done);
  }

  lemma BarDone(found: State, c: Candle, touched: State, walked: State, after: State, done: bool)
    requires Evolves(Opened(found, c), walked) && Healthy(walked) && Healthy(after)
    requires Winds(walked, after) && (done ==> Closed(walked, after))
    requires Bounded(touched, walked, true)
    ensures found.events <= after.events && (done ==> Processed(found, after, c))
    ensures Bounded(touched, after, done)
  {
    WindsBounded(touched, walked, after, done);
    if done {
      BarClosed(found, c, walked, after);
    }
  }

  /** A close sells. */
  lemma ClosesSell(s: State, key: nat)
    requires Healthy(s) && key < |s.orders| && s.orders[key].intent.purpose == Flatten
    ensures s.orders[key].intent.side == Sell
  {
    assert WellPosed(s.orders[key].intent);
  }

  // ------------------------------------------------------------ session

  /** How a call that should make the move `out` ended, when it left the session at `now`. */
  ghost predicate RanTo(out: Run, now: Run, failed: bool, r: Outcome<Failure>) {
    && now.journal <= out.journal
    && match r
       case Done => out == now
       case Raised(error) =>
         || (failed && error in {JournalFailed, SinkRefused} && |now.journal| < |out.journal|)
         || out == now.(error := Some(error))
  }

  /** A call that raised has raised for every move that goes on from its own. */
  lemma RaisedOnward(out: Run, more: Run, now: Run, failed: bool, r: Outcome<Failure>)
    requires RanTo(out, now, failed, r) && r.Raised? && Extends(out, more)
    ensures RanTo(more, now, failed, r)
  {
  }

  class HistoricalSpotSession {
    const binding: Binding
    const advance: Reducer
    var state: State
    var failed: bool
    var isFresh: bool
    var timestamp: int
    ghost var origin: State        // what the session started from, or was restored to
    ghost var journal: seq<Record> // what it has written since

    /** The committed state is the one the accepted records lead to, and they contain every stop. */
    ghost predicate Sound()
      reads this
    {
      Restorable(state, binding) && Chronicled(origin, journal, binding, state)
    }

    /** Between two calls no observation is half processed, unless the session has failed. */
    ghost predicate Valid()
      reads this
    {
      Sound() && (failed || state.pendingObservation == None)
    }

    ghost function Now(): Run
      reads this
    {
      Run(state, journal, timestamp, None)
    }

    /** The call made the move `out`, or stopped inside it. */
    ghost predicate Ran(out: Run, r: Outcome<Failure>)
      reads this
    {
      RanTo(out, Now(), failed, r)
    }

    /** The journal only grew, from the same origin, during the same candle. */
    twostate predicate Moved()
      reads this
    {
      && Sound()
      && timestamp == old(timestamp)
      && origin == old(origin)
      && old(journal) <= journal
    }

    twostate predicate Kept()
      reads this
    {
      Moved() && Valid()
    }

    constructor (binding: Binding, advance: Reducer, cash: real)
      requires ValidBinding(binding)
      ensures Valid() && isFresh && !failed && journal == []
      ensures state.orders == [] && state.journalSha == Genesis && state.quoteCash == cash
    {
      this.binding, this.advance := binding, advance;
      var initial := State(binding, [], cash, 0.0, None, None, None, Running, false, false, [], 0, None, None,
                           0, false, None, 0.0, 0.0, -1, false, 0, Genesis);
      state := initial;
      failed, isFresh, timestamp := false, true, 0;
      origin, journal := initial, [];
    }

    /** What one more record leads to. */
    lemma JournalGrows(candidate: State, kind: Kind)
      requires Sound() && Restorable(candidate, binding) && Writes(state, candidate, kind)
      ensures var r := RecordFor(state, candidate, kind);
              Chronicled(origin, journal + [r], binding, Commit(r)) && Restorable(Commit(r), binding)
    {
      var r := RecordFor(state, candidate, kind);
      ReplayExtend(origin, journal, candidate, kind, binding);
      ContainedExtends(origin, journal, r);
      assert At(origin, journal + [r], |journal| + 1) == Commit(r);
    }

    /** Append one record, then commit. The sink may refuse; the state is then untouched. */
    method Persist(candidate: State, kind: Kind) returns (r: Outcome<Failure>)
      requires Sound() && Restorable(candidate, binding)
      requires !failed ==> Writes(state, candidate, kind)
      modifies this
      ensures Moved()
      ensures Ran(Write(old(Now()), candidate, kind), r)
      ensures old(failed) ==> r == Raised(JournalFailed)
      ensures r.Done? ==>
                && !failed && !isFresh
                && journal == old(journal) + [RecordFor(old(state), candidate, kind)]
                && state == Commit(RecordFor(old(state), candidate, kind))
                && Rewritten(candidate, state)
      ensures r.Raised? ==> failed && state == old(state) && journal == old(journal)
    {
      if failed {
        return Raised(JournalFailed);
      }
      var record := RecordFor(state, candidate, kind);
      var accepted: bool := *;
      if !accepted {
        failed := true;
        return Raised(SinkRefused);
      }
      CommitRecord(record, candidate, kind);
      return Done;
    }

    /** The sink accepted the record: its state is the committed one from here on. */
    method CommitRecord(record: Record, ghost candidate: State, ghost kind: Kind)
      requires Sound() && Restorable(candidate, binding) && Writes(state, candidate, kind)
      requires record == RecordFor(state, candidate, kind)
      modifies this`state, this`journal, this`isFresh
      ensures Moved() && !isFresh
      ensures state == Commit(record) && journal == old(journal) + [record]
    {
      JournalGrows(candidate, kind);
      journal := journal + [record];
      state := Commit(record);
      isFresh := false;
    }

    /** One step of the engine, summed up from the state that journaled its observation. */
    lemma StepReduced(observation: Observation, before: State)
      requires Sound() && Healthy(before) && Rewritten(before, state) && advance(state, observation).Some?
      requires observation.body.Executed? ==> Covered(before, observation.body.event)
      ensures Reduced(before, observation.body, advance(state, observation).value)
    {
      assert IsStep(advance, state, observation);
      var recipe :| advance(state, observation) == Advance(state, observation, recipe);
      AdvanceSummary(before, state, observation, recipe);
    }

    /** Journal an observation before it is reduced. */
    method Receive(observation: Observation) returns (r: Outcome<Failure>)
      requires Valid() && observation == Received(Now(), observation.body)
      modifies this
      ensures Moved()
      ensures r.Raised? ==> failed && Rewritten(old(state), state) && Ran(DoSee(old(Now()), advance, observation.body), r)
      ensures r.Done? ==>
                && !failed
                && Now() == Write(old(Now()), old(state).(pendingObservation := Some(observation)), ObservationReceived)
                && Rewritten(old(state), state) && state.pendingObservation == Some(observation)
    {
      ghost var start := Now();
      var written := state.(pendingObservation := Some(observation));
      ReceiveReady(state, observation, binding);
      SeeReceives(start, advance, observation.body);
      r := Persist(written, ObservationReceived);
      if r.Raised? {
        RaisedOnward(Write(start, written, ObservationReceived), DoSee(start, advance, observation.body),
                     Now(), failed, r);
      }
    }

    /** Journal the state an observation was reduced to. */
    method CommitReduced(next: State, body: Body, ghost before: State) returns (r: Outcome<Failure>)
      requires Sound() && !failed && before.binding == binding && Reduced(before, body, next)
      requires Steady(state, next) && Settles(state, next)
      modifies this
      ensures Kept()
      ensures Ran(Write(old(Now()), next.(pendingObservation := None), ObservationReduced), r)
      ensures r.Done? ==> !failed && Reduced(before, body, state)
      ensures r.Raised? ==> failed && state == old(state)
    {
      var reduced := next.(pendingObservation := None);
      ReducedReady(before, body, state, next, binding);
      r := Persist(reduced, ObservationReduced);
      if r.Done? {
        ReducedRewritten(before, body, reduced, state);
      }
    }

    /** Reduce the observation just journaled, and journal the result. */
    method ReduceReceived(observation: Observation, ghost start: Run) returns (r: Outcome<Failure>)
      requires Sound() && !failed && timestamp == start.timestamp && start.error == None
      requires Healthy(start.state) && Tame(start.state, observation.body)
      requires observation == Received(start, observation.body)
      requires observation.body.Executed? ==> Covered(start.state, observation.body.event)
      requires Now() == Write(start, start.state.(pendingObservation := Some(observation)), ObservationReceived)
      requires Rewritten(start.state, state) && state.pendingObservation == Some(observation)
      modifies this
      ensures Kept()
      ensures Ran(DoSee(start, advance, observation.body), r)
      ensures r.Done? ==> !failed && Reduced(start.state, observation.body, state)
      ensures r.Raised? ==> failed && Rewritten(start.state, state)
    {
      var next := advance(state, observation);
      if next == None {
        failed := true;
        return Raised(EngineRefused);
      }
      StepReduced(observation, start.state);
      ReducedSteady(start.state, state, observation.body, next.value);
      r := CommitReduced(next.value, observation.body, start.state);
    }

    /** Journal an observation, reduce it, journal the result. */
    method Observe(body: Body) returns (r: Outcome<Failure>)
      requires Valid() && Tame(state, body)
      requires body.Executed? ==> Covered(state, body.event)
      modifies this
      ensures Kept()
      ensures Ran(DoSee(old(Now()), advance, body), r)
      ensures r.Done? ==> !failed && Reduced(old(state), body, state)
      ensures r.Raised? ==> failed && Rewritten(old(state), state)
    {
      ghost var start := Now();
      var observation := Observation(state.observationSequence + 1, timestamp, body);
      r := Receive(observation);
      if r.Done? {
        r := ReduceReceived(observation, start);
      }
    }

    /** The simulator's reply to what it still owes. */
    method Answer(body: Body) returns (r: Outcome<Failure>)
      requires Valid() && NextReply(state, timestamp) == Some(body)
      modifies this
      ensures Kept() && Quiet(old(state), state)
      ensures Ran(DoSee(old(Now()), advance, body), r)
      ensures r.Raised? ==> failed
      ensures r.Done? ==> !failed
    {
      ghost var before := state;
      ReplyCovered(before, timestamp);
      r := Observe(body);
      QuietAfter(before, body, state);
    }

    /** One round of a drain: nothing is owed any more, or a reply is given and `left` remain. */
    method Round(left: nat, ghost before: State, ghost all: Run) returns (r: Outcome<Failure>, over: bool)
      requires Valid() && Quiet(before, state)
      requires all == Do(Now(), advance, Move.Drain(left + 1))
      modifies this
      ensures Kept() && Quiet(before, state)
      ensures if r.Raised? || over then Ran(all, r) else all == Do(Now(), advance, Move.Drain(left))
      ensures over ==> r.Done? && Drained(state)
      ensures r.Done? ==> (failed ==> old(failed))
      ensures r.Raised? ==> failed
    {
      ghost var start := Now();
      DrainTurn(start, advance, left + 1);
      var reply := NextReply(state, timestamp);
      over := reply == None;
      if over {
        NothingOwed(state, timestamp);
        return Done, true;
      }
      r := Answer(reply.value);
      QuietThen(before, start.state, state);
      if r.Raised? {
        RaisedOnward(DoSee(start, advance, reply.value), all, Now(), failed, r);
      }
    }

    lemma GaveUp(all: Run)
      requires ValidBinding(state.binding) && all == Do(Now(), advance, Move.Drain(0))
      ensures Ran(all, Raised(NotConverged))
    {
      DrainEnds(Now(), advance);
    }

    /** Give replies until nothing is owed, at most `limit` of them. */
    method Rounds(limit: nat, ghost all: Run) returns (r: Outcome<Failure>)
      requires Valid() && all == Do(Now(), advance, Move.Drain(limit))
      modifies this
      ensures Kept() && Quiet(old(state), state)
      ensures Ran(all, r)
      ensures r.Done? ==> Drained(state) && (failed ==> old(failed))
      ensures r.Raised? ==> failed || r.error == NotConverged
    {
      ghost var before := state;
      NothingDone(state);
      for left := limit downto 0
        invariant Kept() && Quiet(before, state) && (failed ==> old(failed))
        invariant all == Do(Now(), advance, Move.Drain(left))
      {
        var over;
        r, over := Round(left, before, all);
        if over || r.Raised? {
          return;
        }
      }
      GaveUp(all);
      return Raised(NotConverged);
    }

    /** Acknowledge and reconcile until nothing is left, or give up after 512 rounds. */
    method Drain() returns (r: Outcome<Failure>)
      requires Valid()
      modifies this
      ensures Kept() && Quiet(old(state), state)
      ensures Ran(Do(old(Now()), advance, Move.Drain(ROUNDS)), r)
      ensures r.Done? ==> Drained(state) && (failed ==> old(failed))
      ensures r.Raised? ==> failed || r.error == NotConverged
    {
      r := Rounds(ROUNDS, Do(Now(), advance, Move.Drain(ROUNDS)));
    }

    /** Observe, then drain what it leads to. */
    method Hear(body: Body) returns (r: Outcome<Failure>)
      requires Valid() && Tame(state, body)
      requires body.Executed? ==> Covered(state, body.event)
      modifies this
      ensures Kept() && Logs(old(state), body, state)
      ensures Ran(DoHear(old(Now()), advance, body), r)
      ensures r.Done? ==> !failed && Drained(state)
      ensures r.Done? && Terminates(old(state), body) ==> state.terminalAction.Some?
      ensures r.Raised? ==> failed || r.error == NotConverged
    {
      ghost var start := Now();
      HearTurns(start, advance, body);
      r := Observe(body);
      if r.Raised? {
        LogsNothing(start.state, body, state);
        RaisedOnward(DoSee(start, advance, body), DoHear(start, advance, body), Now(), failed, r);
        return;
      }
      ghost var seen := state;
      r := Drain();
      LogsAfter(start.state, body, seen, state);
    }

    /** Observe a price: containment is in force before anything else. */
    method Price(reference: real) returns (r: Outcome<Failure>)
      requires Valid()
      modifies this
      ensures Kept() && Quiet(old(state), state)
      ensures Ran(DoPrice(old(Now()), advance, reference), r)
      ensures r.Done? ==> !failed && Drained(state)
      ensures r.Done? && StopBreached(old(state), reference) ==> state.terminalAction.Some?
      ensures r.Raised? ==> failed || r.error == NotConverged
    {
      ghost var start := Now();
      PriceTurn(start, advance, reference);
      r := Hear(PriceSeen(reference, state.barIndex));
    }

    /** Debit the candle's allowance before the fill it pays for is reported. */
    method Allocate(quantity: real) returns (r: Outcome<Failure>)
      requires Valid() && 0.0 < quantity <= Unused(state)
      modifies this
      ensures Kept()
      ensures Ran(Paid(old(Now()), quantity), r)
      ensures r.Done? ==> !failed && Rewritten(Debited(old(state), quantity), state)
      ensures r.Raised? ==> failed && state == old(state)
    {
      DebitReady(state, quantity, binding);
      r := Persist(Debited(state, quantity), LiquidityAllocation);
    }

    /** A fill is paid for before it is reported; a mere status change costs nothing. */
    method Pay(e: Event) returns (r: Outcome<Failure>)
      requires Valid() && 0.0 <= e.quantity <= Unused(state)
      modifies this
      ensures Kept()
      ensures Ran(Paid(old(Now()), e.quantity), r)
      ensures r.Done? ==> Rewritten(Debited(old(state), e.quantity), state)
      ensures r.Raised? ==> failed && state == old(state)
    {
      if e.quantity == 0.0 {
        DebitReady(state, e.quantity, binding);
        return Done;
      }
      r := Allocate(e.quantity);
    }

    /** Pay for a matched event: the state covers it from then on. */
    method Reserve(e: Event) returns (r: Outcome<Failure>)
      requires Valid() && 0.0 <= e.quantity <= Unused(state) && Tame(state, Executed(e))
      requires Covered(Debited(state, e.quantity), e)
      modifies this
      ensures Kept() && Matches(old(state), state, e.key, e.side) && state.events == old(state).events
      ensures Ran(Paid(old(Now()), e.quantity), r)
      ensures r.Done? ==> Covered(state, e) && Tame(state, Executed(e))
      ensures r.Raised? ==> failed
    {
      ghost var before := state;
      r := Pay(e);
      if r.Raised? {
        MatchesItself(state, e);
      } else {
        AllocatedMatches(before, state, e.quantity, e);
      }
    }

    /** Pay for a matched event, then report it. */
    method Book(e: Event) returns (r: Outcome<Failure>)
      requires Valid() && 0.0 <= e.quantity <= Unused(state) && Tame(state, Executed(e))
      requires Covered(Debited(state, e.quantity), e)
      modifies this
      ensures Kept() && Matches(old(state), state, e.key, e.side)
      ensures Ran(DoHear(Paid(old(Now()), e.quantity), advance, Executed(e)), r)
      ensures r.Raised? ==> failed || r.error == NotConverged
      ensures r.Done? ==> !failed
    {
      ghost var start := Now();
      r := Reserve(e);
      if r.Raised? {
        RaisedOnward(Paid(start, e.quantity), DoHear(Paid(start, e.quantity), advance, Executed(e)), Now(), failed, r);
        return;
      }
      r := Report(e, start.state);
    }

    /** Report an event the state already covers; nothing was logged since `before`. */
    method Report(e: Event, ghost before: State) returns (r: Outcome<Failure>)
      requires Valid() && Covered(state, e) && Tame(state, Executed(e))
      requires Matches(before, state, e.key, e.side) && before.events == state.events
      modifies this
      ensures Kept() && Matches(before, state, e.key, e.side)
      ensures Ran(DoHear(old(Now()), advance, Executed(e)), r)
      ensures r.Raised? ==> failed || r.error == NotConverged
      ensures r.Done? ==> !failed
    {
      ghost var paid := state;
      r := Hear(Executed(e));
      MatchesThenReduces(before, paid, state, e.key, e.side);
    }

    /** Match one order at a reference price: the matcher's event, allocated, reported and drained. */
    method Match(key: nat, reference: real, atOpen: bool) returns (r: Outcome<Failure>)
      requires Valid() && key < |state.orders|
      requires state.terminalAction.Some? ==> state.orders[key].intent.side == Sell
      modifies this
      ensures Kept() && Matches(old(state), state, key, old(state).orders[key].intent.side)
      ensures Ran(DoOffer(old(Now()), advance, key, reference, atOpen), r)
      ensures r.Raised? ==> failed || r.error == NotConverged
      ensures r.Done? ==> (failed ==> old(failed))
    {
      var event := MatchEvent(state, key, state.orders[key], reference, atOpen, timestamp);
      ghost var start := Now();
      if event == None {
        NoOffer(start, advance, key, reference, atOpen);
        return Done;
      }
      MatchedIsCovered(state, key, reference, atOpen, timestamp);
      OfferTurn(start, advance, key, reference, atOpen, event.value);
      r := Book(event.value);
    }

    /** An off-open close has consumed this bar's stop reference. */
    method ConsumeStopReference() returns (r: Outcome<Failure>)
      requires Valid()
      modifies this
      ensures Kept()
      ensures Ran(Consume(old(Now())), r)
      ensures r.Done? ==> !failed && Rewritten(Consumed(old(state)), state)
      ensures r.Raised? ==> failed && state == old(state)
    {
      ConsumeReady(state, binding);
      r := Persist(Consumed(state), StopReferenceConsumed);
    }

    lemma Unsold(start: Run, key: nat, reference: real, atOpen: bool, r: Outcome<Failure>)
      requires ValidBinding(start.state.binding) && start.error == None && MaySell(start.state, key, reference, atOpen)
      requires r.Raised? && Ran(DoOffer(start, advance, key, reference, atOpen), r)
      ensures Ran(DoSellOne(start, advance, key, reference, atOpen), r)
    {
      SaleTurn(start, advance, key, reference, atOpen);
      RaisedOnward(DoOffer(start, advance, key, reference, atOpen), DoSellOne(start, advance, key, reference, atOpen),
                   Now(), failed, r);
    }

    /** Match a sell that may trade here; an off-open close then consumes the bar's stop reference. */
    method SellMatched(key: nat, reference: real, atOpen: bool) returns (r: Outcome<Failure>)
      requires Valid() && MaySell(state, key, reference, atOpen)
      modifies this
      ensures Kept() && Evolves(old(state), state) && OnlyFills(old(state), state, key, Sell)
      ensures Ran(DoSellOne(old(Now()), advance, key, reference, atOpen), r)
      ensures state.stopReferenceBar == old(state).stopReferenceBar || Spent(state)
      ensures r.Done? && !atOpen && Closes(old(state), key) ==> Spent(state)
      ensures r.Raised? ==> failed || r.error == NotConverged
    {
      ghost var start := Now();
      var closes := Closes(state, key) && !atOpen;
      r := Match(key, reference, atOpen);
      if r.Raised? {
        Unsold(start, key, reference, atOpen, r);
        return;
      }
      SaleTurn(start, advance, key, reference, atOpen);
      r := AfterSale(key, closes, start.state);
    }

    /** An order matched since `before`; an off-open close consumes the bar's stop reference, filled or not. */
    method AfterSale(ghost key: nat, closes: bool, ghost before: State) returns (r: Outcome<Failure>)
      requires Valid() && Matches(before, state, key, Sell)
      modifies this
      ensures Kept() && Evolves(before, state) && OnlyFills(before, state, key, Sell)
      ensures Ran(if closes then Consume(old(Now())) else old(Now()), r)
      ensures state.stopReferenceBar == before.stopReferenceBar || Spent(state)
      ensures r.Done? && closes ==> Spent(state)
      ensures r.Raised? ==> failed
    {
      ghost var matched := state;
      r := Done;
      if closes {
        r := ConsumeStopReference();
      }
      ConsumedMatches(before, matched, state, key, Sell);
    }

    /** Offer one order the reference price, if it is a sell that may trade there. */
    method SellOffered(key: nat, reference: real, atOpen: bool) returns (r: Outcome<Failure>)
      requires Valid() && key < |state.orders|
      modifies this
      ensures Kept() && Evolves(old(state), state) && OnlyFills(old(state), state, key, Sell)
      ensures Ran(DoSellOne(old(Now()), advance, key, reference, atOpen), r)
      ensures !atOpen ==> Bounded(old(state), state, r.Done?)
      ensures r.Raised? ==> failed || r.error == NotConverged
    {
      ghost var start := Now();
      SaleTurn(start, advance, key, reference, atOpen);
      if !MaySell(state, key, reference, atOpen) {
        QuietBounded(state, state);
        return Done;
      }
      r := SellMatched(key, reference, atOpen);
      if !atOpen {
        SaleBounded(start.state, state, key, r.Done?);
      }
    }

    /** Offer the reference to every sell, in priority. */
    method SellPass(keys: seq<int>, reference: real, atOpen: bool) returns (r: Outcome<Failure>)
      requires Valid() && PriorityOrder(state.orders, keys)
      modifies this
      ensures Kept() && Evolves(old(state), state) && NoBuyFill(old(state), state)
      ensures Ran(Do(old(Now()), advance, SellAll(keys, reference, atOpen)), r)
      ensures InPriority(old(state).orders, Since(old(state), state), Sell)
      ensures !atOpen ==> Bounded(old(state), state, r.Done?)
      ensures r.Raised? ==> failed || r.error == NotConverged
    {
      ghost var start := Now();
      ghost var all := Do(start, advance, SellAll(keys, reference, atOpen));
      assert keys[0..] == keys;
      NothingSold(state, keys, atOpen);
      for n := 0 to |keys|
        invariant Kept() && SoldSoFar(start.state, state, keys, n, atOpen, true)
        invariant all == Do(Now(), advance, SellAll(keys[n..], reference, atOpen))
      {
        ghost var middle := Now();
        SellTurn(middle, advance, keys, n, reference, atOpen);
        assert keys[n] in keys;
        r := SellOffered(keys[n], reference, atOpen);
        SoldNext(start.state, middle.state, state, keys, n, atOpen, r.Done?);
        if r.Raised? {
          RaisedOnward(DoSellOne(middle, advance, keys[n], reference, atOpen), all, Now(), failed, r);
          return;
        }
      }
      SellTurn(Now(), advance, keys, |keys|, reference, atOpen);
      return Done;
    }

    /** A breached stop is observed before anything is matched. */
    method Contain(reference: real) returns (r: Outcome<Failure>)
      requires Valid()
      modifies this
      ensures Kept() && Quiet(old(state), state)
      ensures Ran(DoContain(old(Now()), advance, reference), r)
      ensures r.Done? && StopBreached(old(state), reference) ==> state.terminalAction.Some?
      ensures r.Raised? ==> failed || r.error == NotConverged
    {
      if StopBreached(state, reference) && state.phase != StoppedHolding {
        r := Price(reference);
      } else {
        RewrittenReduces(state, state);
        r := Done;
      }
    }

    /** The sells of one point, then the price observation that follows them. */
    method SellThenSee(keys: seq<int>, reference: real, atOpen: bool) returns (r: Outcome<Failure>)
      requires Valid() && PriorityOrder(state.orders, keys)
      modifies this
      ensures Kept() && Evolves(old(state), state) && NoBuyFill(old(state), state)
      ensures Ran(DoFace(old(Now()), advance, keys, reference, atOpen), r)
      ensures !atOpen ==> Bounded(old(state), state, r.Done?)
      ensures r.Raised? ==> failed || r.error == NotConverged
    {
      ghost var start := Now();
      FaceTurns(start, advance, keys, reference, atOpen);
      r := SellPass(keys, reference, atOpen);
      if r.Raised? {
        RaisedOnward(Do(start, advance, SellAll(keys, reference, atOpen)),
                     DoFace(start, advance, keys, reference, atOpen), Now(), failed, r);
        return;
      }
      ghost var sold := state;
      r := Price(reference);
      QuietAfterSales(start.state, sold, state, atOpen, r.Done?);
    }

    /** Everything a point does before it buys; `keys` ranks the orders it found. */
    method SellSide(reference: real, atOpen: bool)
      returns (r: Outcome<Failure>, keys: seq<int>, ghost ranked: seq<Order>)
      requires Valid()
      modifies this
      ensures Kept() && Evolves(old(state), state) && NoBuyFill(old(state), state)
      ensures Ran(DoTouch(old(Now()), advance, reference, atOpen), r)
      ensures r.Done? ==> PriorityOrder(ranked, keys) && |ranked| <= |state.orders|
      ensures r.Done? ==> keys == Working(DoContain(old(Now()), advance, reference).state.orders)
      ensures r.Done? && StopBreached(old(state), reference) ==> state.terminalAction.Some?
      ensures !atOpen ==> Bounded(old(state), state, r.Done?)
      ensures r.Raised? ==> failed || r.error == NotConverged
    {
      keys, ranked := [], [];
      ghost var start := Now();
      TouchTurns(start, advance, reference, atOpen);
      r := Contain(reference);
      if r.Raised? {
        QuietBounded(start.state, state);
        RaisedOnward(DoContain(start, advance, reference), DoTouch(start, advance, reference, atOpen), Now(), failed, r);
        return;
      }
      ghost var contained := state;
      keys, ranked := Working(state.orders), state.orders;
      WorkingInPriority(state.orders);
      r := SellThenSee(keys, reference, atOpen);
      SoldAfterQuiet(start.state, contained, state, atOpen, r.Done?);
    }

    /** Offer one order the reference price, if it is a buy that may trade there. */
    method BuyOffered(key: nat, reference: real, atOpen: bool) returns (r: Outcome<Failure>, offered: bool)
      requires Valid() && key < |state.orders| && state.terminalAction == None
      modifies this
      ensures Kept() && Evolves(old(state), state) && OnlyFills(old(state), state, key, Buy)
      ensures state.stopReferenceBar == old(state).stopReferenceBar
      ensures offered <==> MayBuy(old(state), key, reference, atOpen)
      ensures if offered then Ran(DoOffer(old(Now()), advance, key, reference, atOpen), r)
              else r.Done? && Now() == old(Now())
      ensures r.Raised? ==> failed || r.error == NotConverged
    {
      var order := state.orders[key];
      offered := !(!Eligible(state, order) || order.intent.side != Buy
                   || (order.intent.orderType == Market && !atOpen)
                   || (order.intent.limitPrice.Some? && reference > order.intent.limitPrice.value));
      if !offered {
        return Done, false;
      }
      r := Match(key, reference, atOpen);
    }

    /**
     Offer the reference to every buy, in priority, until a terminal action or
     an unknown outcome stops it. A buy that leaves inventory at or below the
     stop is contained at once, by visiting the same point again.
     */
    method BuyPass(keys: seq<int>, ghost ranked: seq<Order>, reference: real, atOpen: bool) returns (r: Outcome<Failure>)
      requires Valid() && PriorityOrder(ranked, keys) && |ranked| <= |state.orders|
      modifies this
      ensures Kept() && Evolves(old(state), state)
      ensures Ran(Do(old(Now()), advance, BuyAll(keys, reference, atOpen)), r)
      ensures InPriority(ranked, Since(old(state), state), Buy)
      ensures old(state).terminalAction.Some? ==> r.Done? && Now() == old(Now())
      ensures Bounded(old(state), state, r.Done?)
      ensures r.Raised? ==> failed || r.error == NotConverged
      decreases if state.terminalAction.Some? then 0 else 3
    {
      ghost var start := Now();
      ghost var all := Do(start, advance, BuyAll(keys, reference, atOpen));
      assert keys[0..] == keys;
      NothingBought(state, ranked, keys);
      for n := 0 to |keys|
        invariant Kept() && BoughtSoFar(start.state, state, ranked, keys, n, true)
        invariant all == Do(Now(), advance, BuyAll(keys[n..], reference, atOpen))
        invariant start.state.terminalAction.Some? ==> Now() == start
      {
        ghost var middle := Now();
        BuyTurns(middle, advance, keys, n, reference, atOpen);
        if state.terminalAction.Some? || state.reconciliationRequired {
          return Done;
        }
        assert keys[n] in keys;
        var contained;
        r, contained := BuyTurn(keys[n], keys[n + 1..], reference, atOpen);
        BoughtNext(start.state, middle.state, state, ranked, keys, n, r.Done?);
        if r.Raised? || contained {
          return;
        }
      }
      BuyTurns(Now(), advance, keys, |keys|, reference, atOpen);
      return Done;
    }

    /** Offer the reference to one buy; contain at once if that leaves the stop breached. */
    method BuyTurn(key: nat, ghost rest: seq<int>, reference: real, atOpen: bool)
      returns (r: Outcome<Failure>, contained: bool)
      requires Valid() && key < |state.orders| && state.terminalAction == None
      modifies this
      ensures Kept() && Evolves(old(state), state)
      ensures var next := BuyNext(old(Now()), advance, key, rest, reference, atOpen);
              if r.Raised? || contained then Ran(next, r)
              else next == Do(Now(), advance, BuyAll(rest, reference, atOpen))
      ensures OneFill(Since(old(state), state), key, Buy)
      ensures Bounded(old(state), state, r.Done?)
      ensures r.Raised? ==> failed || r.error == NotConverged
      decreases 2
    {
      contained := false;
      ghost var start := Now();
      var offered;
      r, offered := BuyOffered(key, reference, atOpen);
      ghost var bought := Now();
      QuietBounded(start.state, bought.state);
      if offered {
        BuyNextTurns(start, advance, key, rest, reference, atOpen);
        if r.Raised? {
          RaisedOnward(DoOffer(start, advance, key, reference, atOpen),
                       BuyNext(start, advance, key, rest, reference, atOpen), Now(), failed, r);
        } else if StopBreached(state, reference) {
          contained := true;
          TouchDone(bought, advance, reference, false);
          r := Point(reference, false);
          ContainedTurn(start.state, bought.state, state, key, r.Done?);
        }
      }
    }

    /**
     Visit one price of the causal walk: contain a breached stop, sell, observe
     the price, buy. The recursion through `BuyPass` goes at most one deep,
     because a breached visit leaves a terminal action standing.
     */
    method Point(reference: real, atOpen: bool) returns (r: Outcome<Failure>)
      requires Valid()
      modifies this
      ensures Kept() && Evolves(old(state), state)
      ensures Ran(DoVisit(old(Now()), advance, reference, atOpen), r)
      ensures StopBreached(old(state), reference) ==> Ran(DoTouch(old(Now()), advance, reference, atOpen), r)
      ensures StopBreached(old(state), reference) ==> NoBuyFill(old(state), state)
      ensures r.Done? && StopBreached(old(state), reference) ==> state.terminalAction.Some?
      ensures if atOpen then BoundedSince(DoTouch(old(Now()), advance, reference, true), r.Done?)
              else Bounded(old(state), state, r.Done?)
      ensures r.Raised? ==> failed || r.error == NotConverged
      decreases if state.terminalAction.Some? || StopBreached(state, reference) then 1 else 4
    {
      var keys; ghost var ranked;
      ghost var start := Now();
      r, keys, ranked := SellSide(reference, atOpen);
      if r.Raised? {
        BrokeOff(start, reference, atOpen, r);
        return;
      }
      VisitTurns(start, advance, reference, atOpen);
      ghost var touched := state;
      r := BuyPass(keys, ranked, reference, atOpen);
      VisitedOnward(start.state, touched, state, atOpen, r.Done?);
    }

    /** A visit that stopped in its first half bought nothing. */
    lemma BrokeOff(start: Run, reference: real, atOpen: bool, r: Outcome<Failure>)
      requires ValidBinding(start.state.binding) && start.error == None
      requires r.Raised? && Ran(DoTouch(start, advance, reference, atOpen), r)
      ensures Ran(DoVisit(start, advance, reference, atOpen), r)
      ensures BoundedSince(DoTouch(start, advance, reference, atOpen), false)
    {
      VisitTurns(start, advance, reference, atOpen);
      RaisedOnward(DoTouch(start, advance, reference, atOpen), DoVisit(start, advance, reference, atOpen),
                   Now(), failed, r);
      QuietBounded(state, state);
    }

    /** Once the run has come as far as `from`, the bar's off-open sells are bounded from there on. */
    ghost predicate BoundedSince(from: Run, done: bool)
      reads this
    {
      done || |journal| >= |from.journal| ==> Bounded(from.state, state, done)
    }

    // ------------------------------------------------------------ walking

    /** Walk one leg of the candle; `points` are the prices visited. */
    method Leg(start: real, end: real) returns (r: Outcome<Failure>, ghost points: seq<real>)
      requires Valid()
      modifies this
      ensures Kept() && Evolves(old(state), state)
      ensures Ran(Walked(old(Now()), advance, points), r)
      ensures r.Done? ==> Leads(old(Now()), advance, start, end, points, end)
      ensures Bounded(old(state), state, r.Done?)
      ensures r.Raised? ==> failed || r.error == NotConverged
    {
      ghost var from := Now();
      var cursor := start;
      r, points := Done, [];
      QuietBounded(state, state);
      while cursor != end
        invariant Kept() && Evolves(from.state, state) && r.Done?
        invariant Walked(from, advance, points) == Now() && Leads(from, advance, start, end, points, cursor)
        invariant Bounded(from.state, state, true)
        decreases StepsLeft(cursor, end)
      {
        r, cursor := StepOn(cursor, end, from, start, points);
        points := points + [cursor];
        if r.Raised? {
          return;
        }
      }
    }

    /** One more point of a leg that has come from `from` along `points`. */
    method StepOn(cursor: real, end: real, ghost from: Run, ghost start: real, ghost points: seq<real>)
      returns (r: Outcome<Failure>, next: real)
      requires Valid() && cursor != end && ValidBinding(from.state.binding)
      requires Evolves(from.state, state) && Bounded(from.state, state, true)
      requires Walked(from, advance, points) == Now() && Leads(from, advance, start, end, points, cursor)
      modifies this
      ensures Kept() && Evolves(from.state, state) && Bounded(from.state, state, r.Done?)
      ensures Ran(Walked(from, advance, points + [next]), r)
      ensures Leads(from, advance, start, end, points + [next], next)
      ensures StepsLeft(next, end) < StepsLeft(cursor, end)
      ensures r.Raised? ==> failed || r.error == NotConverged
    {
      ghost var middle := Now();
      r, next := Step(cursor, end);
      StepWalked(from, advance, start, end, points, cursor, next, middle);
      VisitedOnward(from.state, middle.state, state, false, r.Done?);
    }

    /** Bounds the points still to be visited. */
    ghost function StepsLeft(cursor: real, end: real): nat
      requires ValidBinding(binding)
    {
      GapNatural(cursor, end, binding.rules.priceTick);
      if cursor == end then 0 else 1 + Gap(cursor, end, binding.rules.priceTick)
    }

    lemma NextIsCloser(s: State, cursor: real, end: real, next: real)
      requires Restorable(s, binding) && cursor != end && IsNext(s, cursor, end, next)
      ensures StepsLeft(next, end) < StepsLeft(cursor, end)
    {
      if next != end {
        StepShrinksGap(s, cursor, end, next);
      }
    }

    /** Move to the next point of the leg and visit it. */
    method Step(cursor: real, end: real) returns (r: Outcome<Failure>, next: real)
      requires Valid() && cursor != end
      modifies this
      ensures Kept() && Evolves(old(state), state)
      ensures Heads(old(state), cursor, end, next)
      ensures Ran(DoVisit(old(Now()), advance, next, false), r)
      ensures StepsLeft(next, end) < StepsLeft(cursor, end)
      ensures Bounded(old(state), state, r.Done?)
      ensures r.Raised? ==> failed || r.error == NotConverged
    {
      next := NextPoint(state, cursor, end);
      NextIsCloser(state, cursor, end, next);
      r := Point(next, false);
    }

    /** The rise from the low to the high, then the leg to the close. */
    method WalkUp(c: Candle) returns (r: Outcome<Failure>, ghost rises: seq<real>, ghost settles: seq<real>)
      requires Valid()
      modifies this
      ensures Kept() && Evolves(old(state), state)
      ensures Ran(Walked(Walked(old(Now()), advance, rises), advance, settles), r)
      ensures r.Done? ==>
                && Leads(old(Now()), advance, c.low, c.high, rises, c.high)
                && Leads(Walked(old(Now()), advance, rises), advance, c.high, c.close, settles, c.close)
      ensures Bounded(old(state), state, r.Done?)
      ensures r.Raised? ==> failed || r.error == NotConverged
    {
      rises, settles := [], [];
      ghost var start := state;
      r, rises := Leg(c.low, c.high);
      if r.Done? {
        ghost var atHigh := state;
        r, settles := Leg(c.high, c.close);
        EvolvesTransitive(start, atHigh, state);
        BoundedThen(start, atHigh, state, r.Done?);
      }
    }

    /** The three legs: down to the low, up to the high, on to the close. */
    method WalkLegs(c: Candle) returns (r: Outcome<Failure>, ghost path: Path)
      requires Valid()
      modifies this
      ensures Kept() && Evolves(old(state), state)
      ensures Ran(Legs(old(Now()), advance, path), r)
      ensures r.Done? ==> Follow(old(Now()), advance, c, path)
      ensures Bounded(old(state), state, r.Done?)
      ensures r.Raised? ==> failed || r.error == NotConverged
    {
      ghost var falls, rises, settles := [], [], [];
      ghost var start := state;
      r, falls := Leg(c.open, c.low);
      if r.Done? {
        ghost var atLow := state;
        r, rises, settles := WalkUp(c);
        EvolvesTransitive(start, atLow, state);
        BoundedThen(start, atLow, state, r.Done?);
      }
      path := Path(falls, rises, settles);
    }

    // ------------------------------------------------------------ candles

    /** Report one order of the candle's snapshot if its time is up. */
    method ExpireOne(found: seq<Order>, key: nat) returns (r: Outcome<Failure>)
      requires Valid() && key < |found| && Keyed(found, state.orders)
      requires OrdersHealthy(found, binding.rules.priceTick)
      modifies this
      ensures Kept() && Quiet(old(state), state)
      ensures var all := Do(old(Now()), advance, Expire(found, key));
              if r.Raised? then Ran(all, r) else all == Do(Now(), advance, Expire(found, key + 1))
      ensures r.Raised? ==> failed
    {
      ghost var start := Now();
      ExpireTurn(start, advance, found, key);
      RewrittenReduces(state, state);
      if !Expires(state, found[key]) {
        return Done;
      }
      r := ReportExpiry(found, key);
      if r.Raised? {
        RaisedOnward(DoSee(start, advance, Expiry(start, found, key)), Do(start, advance, Expire(found, key)),
                     Now(), failed, r);
      }
    }

    /** Expire the orders whose time is up, as the candle found them. */
    method ExpireOrders() returns (r: Outcome<Failure>)
      requires Valid()
      modifies this
      ensures Kept() && Quiet(old(state), state)
      ensures Ran(Do(old(Now()), advance, Expire(old(state).orders, 0)), r)
      ensures r.Raised? ==> failed
    {
      ghost var before := state;
      var found := state.orders;
      ghost var all := Do(Now(), advance, Expire(found, 0));
      RewrittenReduces(state, state);
      for key := 0 to |found|
        invariant Kept() && Quiet(before, state)
        invariant all == Do(Now(), advance, Expire(found, key))
      {
        ghost var middle := state;
        r := ExpireOne(found, key);
        QuietThen(before, middle, state);
        if r.Raised? {
          return;
        }
      }
      ExpireEnds(Now(), advance, found);
      return Done;
    }

    method ReportExpiry(found: seq<Order>, key: nat) returns (r: Outcome<Failure>)
      requires Valid() && key < |found| && Keyed(found, state.orders)
      requires OrdersHealthy(found, binding.rules.priceTick)
      modifies this
      ensures Kept() && Quiet(old(state), state)
      ensures Ran(DoSee(old(Now()), advance, Expiry(old(Now()), found, key)), r)
      ensures r.Raised? ==> failed
    {
      ghost var before := state;
      var event := StatusEvent(state, key, found[key], Expired, timestamp);
      ExpiryCovered(state, found, key, timestamp);
      r := Observe(Executed(event));
      QuietAfter(before, Executed(event), state);
    }

    /** The housekeeping that precedes the first price of a candle. */
    method Prepare() returns (r: Outcome<Failure>)
      requires Valid()
      modifies this
      ensures Kept() && Quiet(old(state), state)
      ensures Ran(Prepared(old(Now()), advance), r)
      ensures r.Raised? ==> failed || r.error == NotConverged
    {
      ghost var start := Now();
      r := ExpireOrders();
      if r.Raised? {
        RaisedOnward(Do(start, advance, Expire(start.state.orders, 0)), Prepared(start, advance), Now(), failed, r);
        return;
      }
      ghost var expired := state;
      r := Drain();
      ReducesTransitive(start.state, expired, state);
    }

    /** Start a candle: it is journaled, then expiries are reported. */
    method OpenBar(c: Candle) returns (r: Outcome<Failure>)
      requires Valid() && c.volume >= 0.0 && timestamp == c.timestamp
      modifies this
      ensures Kept()
      ensures Ran(Open(old(Now()), advance, c), r)
      ensures r.Done? ==> Evolves(Opened(old(state), c), state)
      ensures r.Raised? ==> failed || r.error == NotConverged
    {
      ghost var start := Now();
      ghost var ready := Opened(start.state, c);
      OpenedHealthy(state, c);
      r := Persist(Opened(state, c), CandleReceived);
      if r.Raised? {
        RaisedOnward(Write(start, ready, CandleReceived), Open(start, advance, c), Now(), failed, r);
        return;
      }
      RewrittenReduces(ready, state);
      ghost var received := state;
      r := Prepare();
      ReducesTransitive(ready, received, state);
    }

    /** The closed-bar observation, whatever the strategy decides on it, and the end of the bar. */
    method EndBar(c: Candle) returns (r: Outcome<Failure>)
      requires Valid()
      modifies this
      ensures Kept() && Winds(old(state), state)
      ensures Ran(Ended(old(Now()), advance, c), r)
      ensures r.Done? ==> !failed && Closed(old(state), state)
      ensures r.Raised? ==> failed || r.error == NotConverged
    {
      ghost var start := Now();
      r := Hear(ClosedBar(state.barIndex, c.close));
      if r.Raised? {
        RaisedOnward(DoHear(start, advance, ClosedBar(start.state.barIndex, c.close)), Ended(start, advance, c),
                     Now(), failed, r);
        return;
      }
      ghost var heard := state;
      r := RecordBarEnd();
      BarEnds(start.state, heard, state);
    }

    method RecordBarEnd() returns (r: Outcome<Failure>)
      requires Valid() && !failed
      modifies this
      ensures Kept()
      ensures Ran(Write(old(Now()), BarEnded(old(state)), CandleProcessed), r)
      ensures r.Done? ==> !failed && Rewritten(BarEnded(old(state)), state)
      ensures r.Raised? ==> failed && state == old(state)
    {
      BarEndReady(state, binding);
      r := Persist(BarEnded(state), CandleProcessed);
    }

    /** The close is observed once more, and the bar ends. */
    method CloseBar(c: Candle) returns (r: Outcome<Failure>)
      requires Valid()
      modifies this
      ensures Kept() && Winds(old(state), state)
      ensures Ran(Shut(old(Now()), advance, c), r)
      ensures r.Done? ==> !failed && Closed(old(state), state)
      ensures r.Raised? ==> failed || r.error == NotConverged
    {
      ghost var start := Now();
      r := Price(c.close);
      if r.Raised? {
        RaisedOnward(DoPrice(start, advance, c.close), Shut(start, advance, c), Now(), failed, r);
        return;
      }
      ghost var priced := state;
      r := EndBar(c);
      ClosedAfter(start.state, priced, state, r.Done?);
    }

    /** The three legs, added to what the visit to the open did since `before` and sold off the open since `touched`. */
    method WalkOn(c: Candle, ghost before: State, ghost touched: State) returns (r: Outcome<Failure>, ghost path: Path)
      requires Valid() && Evolves(before, state) && Bounded(touched, state, true)
      modifies this
      ensures Kept() && Evolves(before, state)
      ensures Ran(Legs(old(Now()), advance, path), r)
      ensures r.Done? ==> Follow(old(Now()), advance, c, path)
      ensures Bounded(touched, state, r.Done?)
      ensures r.Raised? ==> failed || r.error == NotConverged
    {
      ghost var atOpen := state;
      r, path := WalkLegs(c);
      EvolvesTransitive(before, atOpen, state);
      BoundedThen(touched, atOpen, state, r.Done?);
    }

    /** The candle's walk: the open, then the three legs. */
    method WalkCandle(c: Candle) returns (r: Outcome<Failure>, ghost path: Path)
      requires Valid()
      modifies this
      ensures Kept() && Evolves(old(state), state)
      ensures Ran(Strolled(old(Now()), advance, c, path), r)
      ensures r.Done? ==> Follow(Do(old(Now()), advance, Visit(c.open, true)), advance, c, path)
      ensures BoundedSince(DoTouch(old(Now()), advance, c.open, true), r.Done?)
      ensures r.Raised? ==> failed || r.error == NotConverged
    {
      ghost var start := Now();
      ghost var touched := DoTouch(start, advance, c.open, true);
      VisitDone(start, advance, c.open, true);
      path := Path([], [], []);
      r := Point(c.open, true);
      if r.Raised? {
        RaisedOnward(DoVisit(start, advance, c.open, true), Strolled(start, advance, c, path), Now(), failed, r);
        return;
      }
      VisitTurns(start, advance, c.open, true);
      r, path := WalkOn(c, start.state, touched.state);
    }

    /** The walk and the close of an opened candle; `found` is the state it opened on. */
    method TradeBar(c: Candle, ghost found: State) returns (r: Outcome<Failure>, ghost path: Path)
      requires Valid() && Evolves(Opened(found, c), state)
      modifies this
      ensures Kept() && found.events <= state.events
      ensures Ran(Traded(old(Now()), advance, c, path), r)
      ensures r.Done? ==> !failed && Processed(found, state, c)
      ensures r.Done? ==> Follow(Do(old(Now()), advance, Visit(c.open, true)), advance, c, path)
      ensures BoundedSince(DoTouch(old(Now()), advance, c.open, true), r.Done?)
      ensures r.Raised? ==> failed || r.error == NotConverged
    {
      ghost var start := Now();
      r, path := WalkCandle(c);
      ghost var walked := state;
      BarSoFar(found, c, start.state, walked);
      if r.Raised? {
        RaisedOnward(Strolled(start, advance, c, path), Traded(start, advance, c, path), Now(), failed, r);
        return;
      }
      r := CloseBar(c);
      BarDone(found, c, DoTouch(start, advance, c.open, true).state, walked, state, r.Done?);
    }

    /** The call made the candle's run along some path, and along the one the order book dictates if it completed. */
    ghost predicate BarRan(start: Run, c: Candle, r: Outcome<Failure>)
      reads this
      requires ValidBinding(start.state.binding) && start.error == None
    {
      var ready := Open(start, advance, c);
      && (exists path :: Ran(Traded(ready, advance, c, path), r)
                         && (r.Done? ==> Follow(Do(ready, advance, Visit(c.open, true)), advance, c, path)))
      && BoundedSince(DoTouch(ready, advance, c.open, true), r.Done?)
    }

    /**
     What a completed candle leaves: its journal shows the whole journey, what
     it reports is fair, and its fills fit its allowance.
     */
    ghost predicate Completed(start: Run, c: Candle)
      reads this
    {
      && !failed && Processed(start.state, state, c)
      && |start.journal| <= |journal|
      && Travelled(origin, journal, |start.journal|, c)
      && Traversed(Visited(journal, |start.journal|, |journal|), c)
      && MetSince(journal, |start.journal|, c)
    }

    /** Process one candle of the feed. */
    method OnCandle(c: Candle) returns (r: Outcome<Failure>)
      requires Valid()
      modifies this
      ensures Valid() && origin == old(origin) && old(journal) <= journal
      ensures match Judge(old(state), old(failed), old(state).lastCandle, c)
              case Refuse(error) => r == Raised(error) && unchanged(this)
              case Repeat => r == Done && unchanged(this)
              case Take =>
                && (r.Raised? ==> failed || r.error == NotConverged)
                && BarRan(old(Now()), c, r)
                && (r.Done? ==> Completed(old(Now()), c))
      ensures old(state).terminalAction.Some? ==> StaysStopped(old(state), state)
    {
      ghost var start := Now();
      var verdict := Judge(state, failed, state.lastCandle, c);
      if verdict.Refuse? {
        StoppedSince(start, origin);
        return Raised(verdict.error);
      }
      if verdict.Repeat? {
        StoppedSince(start, origin);
        return Done;
      }
      timestamp := c.timestamp;
      r := RunBar(c, start);
      StoppedSince(start, origin);
    }

    /** A terminal action that stood when the session was at `start` still stands, and no buy filled since. */
    lemma StoppedSince(start: Run, from: State)
      requires Sound() && origin == from && start.journal <= journal
      requires start.state == At(from, start.journal, |start.journal|)
      ensures start.state.terminalAction.Some? ==> StaysStopped(start.state, state)
    {
      if start.state.terminalAction.Some? {
        assert At(from, journal, |start.journal|) == start.state;
        NoBuyOnceTerminal(from, journal, |start.journal|, |journal|);
      }
    }

    /** Everything that happens on an admitted candle. */
    method RunBar(c: Candle, ghost start: Run) returns (r: Outcome<Failure>)
      requires Valid() && c.volume >= 0.0 && timestamp == c.timestamp
      requires start.error == None && Now() == start.(timestamp := c.timestamp)
      modifies this
      ensures Kept()
      ensures BarRan(start, c, r)
      ensures r.Done? ==> Completed(start, c)
      ensures r.Raised? ==> failed || r.error == NotConverged
    {
      assert Stands(origin, start);
      r := OpenBar(c);
      if r.Raised? {
        Unopened(start, c, r);
        return;
      }
      r := TradeOpened(c, start);
    }

    /** The candle has been opened: walk it and close it. */
    method TradeOpened(c: Candle, ghost start: Run) returns (r: Outcome<Failure>)
      requires Valid() && start.error == None && Stands(origin, start) && start.state.binding == binding
      requires Now() == Open(start, advance, c) && Evolves(Opened(start.state, c), state)
      modifies this
      ensures Kept()
      ensures BarRan(start, c, r)
      ensures r.Done? ==> Completed(start, c)
      ensures r.Raised? ==> failed || r.error == NotConverged
    {
      ghost var path;
      r, path := TradeBar(c, start.state);
      RanAlong(start, c, r, path);
      if r.Done? {
        Arrived(start, c, path);
      }
    }

    /** The path walked is the one that witnesses the candle's run. */
    lemma RanAlong(start: Run, c: Candle, r: Outcome<Failure>, path: Path)
      requires ValidBinding(start.state.binding) && start.error == None
      requires Ran(Traded(Open(start, advance, c), advance, c, path), r)
      requires r.Done? ==> Follow(Do(Open(start, advance, c), advance, Visit(c.open, true)), advance, c, path)
      requires BoundedSince(DoTouch(Open(start, advance, c), advance, c.open, true), r.Done?)
      ensures BarRan(start, c, r)
    {
    }

    /** A candle that could not be opened was not traded. */
    lemma Unopened(start: Run, c: Candle, r: Outcome<Failure>)
      requires ValidBinding(start.state.binding) && start.error == None && Sound()
      requires r.Raised? && Ran(Open(start, advance, c), r)
      ensures BarRan(start, c, r)
    {
      var ready := Open(start, advance, c);
      var path := Path([], [], []);
      RaisedOnward(ready, Traded(ready, advance, c, path), Now(), failed, r);
      QuietBounded(state, state);
      RanAlong(start, c, r, path);
    }

    lemma Arrived(start: Run, c: Candle, path: Path)
      requires Sound() && start.error == None && Stands(origin, start) && start.state.binding == binding
      requires Follow(Do(Open(start, advance, c), advance, Visit(c.open, true)), advance, c, path)
      requires Traded(Open(start, advance, c), advance, c, path) == Now()
      ensures |start.journal| <= |journal|
      ensures Travelled(origin, journal, |start.journal|, c)
      ensures Traversed(Visited(journal, |start.journal|, |journal|), c)
      ensures MetSince(journal, |start.journal|, c)
    {
      BarTravels(origin, start, advance, c, path);
      Unfold(start, c);
    }

    lemma Unfold(start: Run, c: Candle)
      requires Travelled(origin, journal, |start.journal|, c) && |start.journal| <= |journal|
      ensures Traversed(Visited(journal, |start.journal|, |journal|), c)
      ensures MetSince(journal, |start.journal|, c)
    {
      var falls, rises, settles :| Journey(origin, journal, |start.journal|, c, falls, rises, settles);
      JourneyTraverses(origin, journal, |start.journal|, c, falls, rises, settles);
      ReportsAreFair(origin, journal, |start.journal|, c, falls, rises, settles);
    }

    // --------------------------------------------------- commands and end

    /** A terminal command, observed and drained. */
    method Command(action: Action) returns (r: Outcome<Failure>)
      requires Valid()
      modifies this
      ensures Kept() && Quiet(old(state), state)
      ensures Ran(DoHear(old(Now()), advance, Commanded(action)), r)
      ensures r.Done? ==> !failed && state.terminalAction.Some?
      ensures r.Raised? ==> failed || r.error == NotConverged
    {
      r := Hear(Commanded(action));
    }

    /** End of data: the bound terminal policy, on the last candle's unused allowance only. */
    method Finish() returns (r: Outcome<Failure>)
      requires Valid()
      modifies this
      ensures Kept() && old(state).events <= state.events && NoBuyFill(old(state), state)
      ensures old(state).finished ==> r == Done && unchanged(this)
      ensures !old(state).finished ==>
                Ran(Sealed(RunOut(DoHear(old(Now()), advance, Commanded(binding.endOfData)), advance)), r)
      ensures r.Done? ==> state.finished && (!old(state).finished ==> state.terminalAction.Some?)
      ensures state.barIndex == old(state).barIndex && state.liquidityAllowance == old(state).liquidityAllowance
      ensures r.Raised? ==> failed || r.error == NotConverged
    {
      if state.finished {
        return Done;
      }
      ghost var start := Now();
      ghost var out := RunOut(DoHear(start, advance, Commanded(binding.endOfData)), advance);
      r := TerminateRun();
      if r.Raised? {
        RaisedOnward(out, Sealed(out), Now(), failed, r);
        return;
      }
      r := RecordEnd(start.state);
    }

    /** The session is over: nothing that was filled since `before` was bought. */
    method RecordEnd(ghost before: State) returns (r: Outcome<Failure>)
      requires Valid() && before.events <= state.events && NoBuyFill(before, state)
      modifies this
      ensures Kept() && before.events <= state.events && NoBuyFill(before, state)
      ensures Ran(Sealed(old(Now())), r)
      ensures r.Done? ==> state.finished && state.terminalAction == old(state).terminalAction
      ensures state.barIndex == old(state).barIndex && state.liquidityAllowance == old(state).liquidityAllowance
      ensures r.Raised? ==> failed
    {
      ghost var ended := state;
      FinalReady(state, binding);
      r := Persist(Final(state), EndOfData);
      assert Since(before, state) == Since(before, ended);
    }

    /** The bound terminal command, and what it still sells at the last mark. */
    method TerminateRun() returns (r: Outcome<Failure>)
      requires Valid()
      modifies this
      ensures Kept() && Evolves(old(state), state) && NoBuyFill(old(state), state)
      ensures Ran(RunOut(DoHear(old(Now()), advance, Commanded(binding.endOfData)), advance), r)
      ensures r.Done? ==> state.terminalAction.Some?
      ensures r.Raised? ==> failed || r.error == NotConverged
    {
      ghost var start := Now();
      ghost var commanded := DoHear(start, advance, Commanded(binding.endOfData));
      r := Command(binding.endOfData);
      if r.Raised? {
        RaisedOnward(commanded, RunOut(commanded, advance), Now(), failed, r);
        return;
      }
      ghost var middle := state;
      OutTurns(commanded, advance);
      r := FlattenAtMark();
      EvolvesTransitive(start.state, middle, state);
    }

    /** Offer the last mark to every close still open, as the command left them. */
    method FlattenAtMark() returns (r: Outcome<Failure>)
      requires Valid()
      modifies this
      ensures Kept() && Evolves(old(state), state) && NoBuyFill(old(state), state)
      ensures Ran(RunOut(old(Now()), advance), r)
      ensures r.Raised? ==> failed || r.error == NotConverged
    {
      ghost var start := Now();
      var found := state.orders;
      OutTurns(start, advance);
      if binding.endOfData != StopAndFlatten || state.reconciliationRequired {
        return Done;
      }
      ghost var all := Do(start, advance, CloseOut(found, 0));
      for key := 0 to |found|
        invariant Kept() && Evolves(start.state, state) && NoBuyFill(start.state, state)
        invariant all == Do(Now(), advance, CloseOut(found, key))
      {
        ghost var middle := state;
        r := FlattenOne(found, key);
        EvolvesTransitive(start.state, middle, state);
        if r.Raised? {
          return;
        }
      }
      CloseOutEnds(Now(), advance, found);
      return Done;
    }

    method FlattenOne(found: seq<Order>, key: nat) returns (r: Outcome<Failure>)
      requires Valid() && key < |found| && Keyed(found, state.orders)
      modifies this
      ensures Kept() && Evolves(old(state), state) && NoBuyFill(old(state), state)
      ensures var all := Do(old(Now()), advance, CloseOut(found, key));
              if r.Raised? then Ran(all, r) else all == Do(Now(), advance, CloseOut(found, key + 1))
      ensures r.Raised? ==> failed || r.error == NotConverged
    {
      ghost var start := Now();
      CloseOutTurn(start, advance, found, key);
      if !(found[key].intent.purpose == Flatten && !Terminal(found[key].status) && state.mark.Some?) {
        return Done;
      }
      ClosesSell(state, key);
      r := Match(key, state.mark.value, false);
      if r.Raised? {
        RaisedOnward(DoOffer(start, advance, key, start.state.mark.value, false),
                     Do(start, advance, CloseOut(found, key)), Now(), failed, r);
      }
    }

    // ----------------------------------------------------------- recovery

    /**
     Recover a fresh session from a checkpoint and the records committed since.
     Anything but an unbroken chain that ends on a settled state is refused.
     What the session writes from here on follows the recovered state.
     */
    method RestoreState(document: State, suffix: seq<Record>) returns (r: Outcome<Failure>)
      requires Valid()
      modifies this
      ensures Valid()
      ensures !old(isFresh) || old(failed) ==> r == Raised(NotFresh) && unchanged(this)
      ensures old(isFresh) && !old(failed) ==>
                match Recover(document, suffix, binding)
                case Some(recovered) => r == Done && state == recovered && !isFresh && origin == recovered && journal == []
                case None => r.Raised? && unchanged(this)
    {
      if !isFresh || failed {
        return Raised(NotFresh);
      }
      if !Restorable(document, binding) {
        return Raised(ConflictingSuffix);
      }
      var recovered := ReplaySuffix(document, suffix, binding);
      if recovered == None {
        return Raised(ConflictingSuffix);
      }
      if !SpotJournal.Settled(recovered.value) {
        return Raised(Unsettled);
      }
      Adopt(recovered.value);
      return Done;
    }

    method Adopt(head: State)
      requires Valid() && Restorable(head, binding) && SpotJournal.Settled(head)
      modifies this
      ensures Valid() && state == head && !isFresh && origin == head && journal == []
    {
      state := head;
      timestamp := if head.lastCandle.Some? then head.lastCandle.value.timestamp else 0;
      isFresh := false;
      origin, journal := head, [];
    }
  }
}
