/**
 Which order a price fills. What the simulator reports is judged by the record
 that reports it: the order it names, as the session had committed it, and the
 price the walk was visiting. Conversely an order that waits where the walk
 passes is served.
 */
module SpotFills {
  import opened Wrappers
  import opened Rounding
  import opened SpotTypes
  import opened SpotMatching
  import opened SpotEngine
  import opened SpotJournal
  import opened SpotLane

  /** A price being visited, at the open of the candle or after it. */
  datatype Place = Place(price: real, atOpen: bool)

  predicate Fills(body: Body) {
    body.Executed? && body.event.quantity != 0.0
  }

  /** The fill a record reports. */
  function FillOf(r: Record): Option<Event> {
    if r.unsigned.kind == ObservationReceived && r.unsigned.doc.pendingObservation.Some?
       && Fills(r.unsigned.doc.pendingObservation.value.body)
    then Some(r.unsigned.doc.pendingObservation.value.body.event)
    else None
  }

  /** The market has come to the order's limit: down to a buy's, up to a sell's. */
  predicate Comes(intent: Intent, price: real) {
    intent.limitPrice.Some? ==>
      if intent.side == Buy then price <= intent.limitPrice.value else price >= intent.limitPrice.value
  }

  /** The one close a reached stop may make off the open of a bar. */
  predicate StopClose(s: State, intent: Intent) {
    && intent.side == Sell && intent.purpose == Flatten
    && s.terminalReason == Some(StopReached)
    && s.stopReferenceBar != s.barIndex
  }

  /** A limit order may fill where the market has come to it, a market order at the open or as the stop's close. */
  predicate MayFill(s: State, intent: Intent, at: Place) {
    match intent.orderType
    case Limit => Comes(intent, at.price)
    case Market => at.atOpen || StopClose(s, intent)
  }

  /** No better than the visited price, and never past the order's own limit. */
  predicate Adverse(intent: Intent, at: real, price: real) {
    && (Comes(intent, at) ==> if intent.side == Buy then price >= at else price <= at)
    && (intent.limitPrice.Some? ==>
          if intent.side == Buy then price <= intent.limitPrice.value else price >= intent.limitPrice.value)
  }

  /** The event names an order of the book and its side. */
  predicate Concerns(s: State, e: Event) {
    e.key < |s.orders| && e.side == s.orders[e.key].intent.side
  }

  /** An order that is active, live, and may fill at the place; a buy only while nothing stops buying. */
  predicate Offerable(s: State, o: Order, at: Place) {
    && Eligible(s, o) && MayFill(s, o.intent, at)
    && (o.intent.side == Buy ==> s.terminalAction == None && !s.reconciliationRequired)
  }

  predicate FairFill(s: State, e: Event, at: Place) {
    && Concerns(s, e) && (e.status == Filled || e.status == Partial)
    && Offerable(s, s.orders[e.key], at)
    && (at.price > 0.0 ==> Adverse(s.orders[e.key].intent, at.price, e.price))
  }

  /** The order has rested for all the bars its intent grants it. */
  predicate Overdue(s: State, intent: Intent) {
    intent.expiresAfterBars > 0 && s.barIndex >= intent.activationBar + intent.expiresAfterBars
  }

  /** A report without a fill: a reply the order was owed, its expiry, or a refusal where it may fill. */
  predicate FairReport(s: State, e: Event, at: Option<Place>) {
    && Concerns(s, e)
    && match e.status
       case Accepted => s.orders[e.key].status == Pending
       case Canceled => s.orders[e.key].status == CancelPending
       case Expired => Overdue(s, s.orders[e.key].intent)
       case Rejected => at.Some? && Offerable(s, s.orders[e.key], at.value)
       case _ => false
  }

  predicate FairBody(s: State, body: Body, at: Option<Place>) {
    body.Executed? ==>
      if body.event.quantity != 0.0 then at.Some? && FairFill(s, body.event, at.value) else FairReport(s, body.event, at)
  }

  predicate FairRecord(r: Record, at: Option<Place>) {
    r.unsigned.kind == ObservationReceived && r.unsigned.doc.pendingObservation.Some? ==>
      FairBody(r.unsigned.doc, r.unsigned.doc.pendingObservation.value.body, at)
  }

  /** From record `i` up to record `j`, only fair reports, and fair fills at `at`; without a place, no fills. */
  ghost predicate Fair(journal: seq<Record>, i: nat, j: nat, at: Option<Place>) {
    j <= |journal| && forall k | i <= k < j :: FairRecord(journal[k], at)
  }

  /** After `run`, `r` reported nothing but fairly, and filled nothing but fairly at `at`. */
  ghost predicate Trades(run: Run, r: Run, at: Option<Place>) {
    run.journal <= r.journal && Fair(r.journal, |run.journal|, |r.journal|, at)
  }

  lemma TradesThen(a: Run, b: Run, c: Run, at: Option<Place>)
    requires Trades(a, b, at) || Trades(a, b, None)
    requires Trades(b, c, at) || Trades(b, c, None)
    ensures Trades(a, c, at)
  {
    forall k | |a.journal| <= k < |c.journal| ensures FairRecord(c.journal[k], at) {
      if k < |b.journal| {
        assert c.journal[k] == b.journal[k];
        assert FairRecord(b.journal[k], at);
      }
    }
  }

  lemma FairLater(journal: seq<Record>, more: seq<Record>, i: nat, j: nat, at: Option<Place>)
    requires Fair(journal, i, j, at) && journal <= more
    ensures Fair(more, i, j, at)
  {
    forall k | i <= k < j ensures FairRecord(more[k], at) {
      assert more[k] == journal[k];
    }
  }

  // ------------------------------------------------ what a move may fill

  lemma SeeTrades(run: Run, advance: Reducer, body: Body, at: Option<Place>)
    requires run.error == None && FairBody(run.state, body, at)
    ensures Trades(run, DoSee(run, advance, body), at)
  {
  }

  lemma ReplyIsFair(s: State, timestamp: int)
    ensures NextReply(s, timestamp).Some? ==> FairBody(s, NextReply(s, timestamp).value, None)
  {
  }

  lemma AnswerTrades(run: Run, advance: Reducer, rounds: nat) returns (seen: Run)
    requires ValidBinding(run.state.binding) && run.error == None && rounds > 0
    requires NextReply(run.state, run.timestamp).Some?
    ensures Trades(run, seen, None) && ValidBinding(seen.state.binding)
    ensures Do(run, advance, Drain(rounds)) == Do(seen, advance, Drain(rounds - 1))
  {
    var body := NextReply(run.state, run.timestamp).value;
    seen := DoSee(run, advance, body);
    DrainTurn(run, advance, rounds);
    ReplyIsFair(run.state, run.timestamp);
    SeeTrades(run, advance, body, None);
    SeeDone(run, advance, body);
  }

  lemma {:induction false} DrainTrades(run: Run, advance: Reducer, rounds: nat)
    requires ValidBinding(run.state.binding)
    ensures Trades(run, Do(run, advance, Drain(rounds)), None)
    decreases rounds
  {
    if run.error == None {
      if rounds == 0 {
        DrainEnds(run, advance);
      } else if NextReply(run.state, run.timestamp) == None {
        DrainTurn(run, advance, rounds);
      } else {
        var seen := AnswerTrades(run, advance, rounds);
        DrainTrades(seen, advance, rounds - 1);
        TradesThen(run, seen, Do(seen, advance, Drain(rounds - 1)), None);
      }
    }
  }

  lemma SeeDone(run: Run, advance: Reducer, body: Body)
    requires ValidBinding(run.state.binding) && run.error == None
    ensures Do(run, advance, See(body)) == DoSee(run, advance, body)
  {
  }

  lemma HearTrades(run: Run, advance: Reducer, body: Body)
    requires ValidBinding(run.state.binding) && run.error == None && !body.Executed?
    ensures Trades(run, DoHear(run, advance, body), None)
  {
    var seen := DoSee(run, advance, body);
    HearTurns(run, advance, body);
    SeeTrades(run, advance, body, None);
    DrainTrades(seen, advance, ROUNDS);
    TradesThen(run, seen, Do(seen, advance, Drain(ROUNDS)), None);
  }

  lemma PriceTrades(run: Run, advance: Reducer, p: real)
    requires ValidBinding(run.state.binding)
    ensures Trades(run, Do(run, advance, Price(p)), None)
  {
    if run.error == None {
      PriceTurn(run, advance, p);
      HearTrades(run, advance, PriceSeen(p, run.state.barIndex));
    }
  }

  lemma ContainTrades(run: Run, advance: Reducer, p: real)
    requires ValidBinding(run.state.binding) && run.error == None
    ensures Trades(run, DoContain(run, advance, p), None)
  {
    PriceTrades(run, advance, p);
  }

  lemma SeeKeepsIntents(run: Run, advance: Reducer, body: Body)
    requires run.error == None
    ensures Keyed(run.state.orders, DoSee(run, advance, body).state.orders)
    ensures DoSee(run, advance, body).state.barIndex == run.state.barIndex
  {
    var o := Received(run, body);
    var received := Write(run, run.state.(pendingObservation := Some(o)), ObservationReceived);
    if advance(received.state, o).Some? {
      assert IsStep(advance, received.state, o);
      var recipe :| advance(received.state, o) == Advance(received.state, o, recipe);
      AdvanceKeepsIntents(received.state, o, recipe);
    }
  }

  lemma KeyedThen(a: seq<Order>, b: seq<Order>, c: seq<Order>)
    requires Keyed(a, b) && Keyed(b, c)
    ensures Keyed(a, c)
  {
  }

  lemma ExpiryTrades(run: Run, advance: Reducer, found: seq<Order>, n: nat) returns (next: Run)
    requires ValidBinding(run.state.binding) && run.error == None && n < |found| && Keyed(found, run.state.orders)
    ensures Trades(run, next, None) && ValidBinding(next.state.binding) && Keyed(found, next.state.orders)
    ensures Do(run, advance, Expire(found, n)) == Do(next, advance, Expire(found, n + 1))
  {
    ExpireTurn(run, advance, found, n);
    if Expires(run.state, found[n]) {
      next := DoSee(run, advance, Expiry(run, found, n));
      SeeTrades(run, advance, Expiry(run, found, n), None);
      SeeKeepsIntents(run, advance, Expiry(run, found, n));
      KeyedThen(found, run.state.orders, next.state.orders);
    } else {
      next := run;
    }
  }

  lemma {:induction false} ExpireTrades(run: Run, advance: Reducer, found: seq<Order>, n: nat)
    requires ValidBinding(run.state.binding) && n <= |found| && Keyed(found, run.state.orders)
    ensures Trades(run, Do(run, advance, Expire(found, n)), None)
    decreases |found| - n
  {
    if run.error == None {
      if n == |found| {
        ExpireEnds(run, advance, found);
      } else {
        var next := ExpiryTrades(run, advance, found, n);
        ExpireTrades(next, advance, found, n + 1);
        TradesThen(run, next, Do(next, advance, Expire(found, n + 1)), None);
      }
    }
  }

  /** What the matcher reports is about the order it was given: a fill at an adverse price, or a refusal. */
  lemma MatchIsAdverse(s: State, key: nat, order: Order, at: Place, timestamp: int, e: Event)
    requires ValidBinding(s.binding)
    requires MatchEvent(s, key, order, at.price, at.atOpen, timestamp) == Some(e)
    ensures e.key == key && e.side == order.intent.side
    ensures if e.quantity == 0.0 then e.status == Rejected else e.status == Filled || e.status == Partial
    ensures e.quantity != 0.0 && at.price > 0.0 ==> Adverse(order.intent, at.price, e.price)
  {
    if at.price > 0.0 {
      PriceIsAdverse(s.binding.rules, s.binding.policy, order.intent, at.price);
    }
  }

  /** Offered where it may fill, an order fills fairly or not at all. */
  lemma OfferTrades(run: Run, advance: Reducer, key: nat, at: Place)
    requires ValidBinding(run.state.binding) && run.error == None && key < |run.state.orders|
    requires Offerable(run.state, run.state.orders[key], at)
    ensures Trades(run, DoOffer(run, advance, key, at.price, at.atOpen), Some(at))
  {
    var order := run.state.orders[key];
    var event := MatchEvent(run.state, key, order, at.price, at.atOpen, run.timestamp);
    if event.Some? {
      var e := event.value;
      MatchIsAdverse(run.state, key, order, at, run.timestamp, e);
      OfferTurn(run, advance, key, at.price, at.atOpen, e);
      BookTrades(run, advance, key, at, e);
    } else {
      NoOffer(run, advance, key, at.price, at.atOpen);
    }
  }

  lemma PaidRun(run: Run, quantity: real)
    requires run.error == None
    ensures Trades(run, Paid(run, quantity), None)
    ensures Paid(run, quantity).error == None && Paid(run, quantity).state.orders == run.state.orders
    ensures Paid(run, quantity).state.mark == run.state.mark
    ensures Paid(run, quantity).state.terminalAction == run.state.terminalAction
    ensures Paid(run, quantity).state.reconciliationRequired == run.state.reconciliationRequired
    ensures Paid(run, quantity).state.terminalReason == run.state.terminalReason
    ensures Paid(run, quantity).state.stopReferenceBar == run.state.stopReferenceBar
    ensures Paid(run, quantity).state.barIndex == run.state.barIndex
  {
  }

  /** The two records of an observation: what was received, and what it led to. */
  lemma SeeRecords(run: Run, advance: Reducer, body: Body)
    requires run.error == None
    ensures var r := DoSee(run, advance, body);
            && run.journal <= r.journal
            && |run.journal| < |r.journal|
            && r.journal[|run.journal|].unsigned.kind == ObservationReceived
            && r.journal[|run.journal|].unsigned.doc == run.state.(pendingObservation := Some(Received(run, body)))
            && FillOf(r.journal[|run.journal|]) == (if Fills(body) then Some(body.event) else None)
            && forall k | |run.journal| < k < |r.journal| :: FillOf(r.journal[k]) == None
  {
  }

  lemma BookTrades(run: Run, advance: Reducer, key: nat, at: Place, e: Event)
    requires ValidBinding(run.state.binding) && run.error == None
    requires FairBody(run.state, Executed(e), Some(at))
    ensures Trades(run, DoHear(Paid(run, e.quantity), advance, Executed(e)), Some(at))
  {
    var paid := Paid(run, e.quantity);
    var seen := DoSee(paid, advance, Executed(e));
    PaidRun(run, e.quantity);
    HearTurns(paid, advance, Executed(e));
    SeeTrades(paid, advance, Executed(e), Some(at));
    DrainTrades(seen, advance, ROUNDS);
    TradesThen(run, paid, seen, Some(at));
    TradesThen(run, seen, Do(seen, advance, Drain(ROUNDS)), Some(at));
  }

  lemma SaleTrades(run: Run, advance: Reducer, key: int, at: Place)
    requires ValidBinding(run.state.binding) && run.error == None
    ensures Trades(run, DoSellOne(run, advance, key, at.price, at.atOpen), Some(at))
  {
    SaleTurn(run, advance, key, at.price, at.atOpen);
    if MaySell(run.state, key, at.price, at.atOpen) {
      var matched := DoOffer(run, advance, key, at.price, at.atOpen);
      OfferTrades(run, advance, key, at);
      ConsumeTrades(matched);
      TradesThen(run, matched, Consume(matched), Some(at));
    }
  }

  lemma ConsumeTrades(run: Run)
    ensures Trades(run, Consume(run), None)
  {
  }

  lemma {:induction false} SalesTrade(run: Run, advance: Reducer, keys: seq<int>, n: nat, at: Place)
    requires ValidBinding(run.state.binding) && n <= |keys|
    ensures Trades(run, Do(run, advance, SellAll(keys[n..], at.price, at.atOpen)), Some(at))
    decreases |keys| - n
  {
    if run.error == None {
      SellTurn(run, advance, keys, n, at.price, at.atOpen);
      if n < |keys| {
        var sold := DoSellOne(run, advance, keys[n], at.price, at.atOpen);
        SaleTrades(run, advance, keys[n], at);
        SalesTrade(sold, advance, keys, n + 1, at);
        TradesThen(run, sold, Do(sold, advance, SellAll(keys[n + 1..], at.price, at.atOpen)), Some(at));
      }
    }
  }

  lemma FaceTrades(run: Run, advance: Reducer, keys: seq<int>, at: Place)
    requires ValidBinding(run.state.binding) && run.error == None
    ensures Trades(run, DoFace(run, advance, keys, at.price, at.atOpen), Some(at))
  {
    var sold := Do(run, advance, SellAll(keys, at.price, at.atOpen));
    assert keys[0..] == keys;
    SalesTrade(run, advance, keys, 0, at);
    PriceTrades(sold, advance, at.price);
    TradesThen(run, sold, Do(sold, advance, Price(at.price)), Some(at));
  }

  lemma TouchTrades(run: Run, advance: Reducer, at: Place)
    requires ValidBinding(run.state.binding) && run.error == None
    ensures Trades(run, DoTouch(run, advance, at.price, at.atOpen), Some(at))
  {
    var contained := DoContain(run, advance, at.price);
    var keys := Working(contained.state.orders);
    TouchTurns(run, advance, at.price, at.atOpen);
    ContainTrades(run, advance, at.price);
    if contained.error == None {
      FaceTrades(contained, advance, keys, at);
      TradesThen(run, contained, DoFace(contained, advance, keys, at.price, at.atOpen), Some(at));
    } else {
      TradesThen(run, contained, contained, Some(at));
    }
  }

  /** A visit after the open is no stricter than the same visit at the open. */
  lemma OpenIsWider(run: Run, r: Run, at: Place)
    requires Trades(run, r, Some(at.(atOpen := false)))
    ensures Trades(run, r, Some(at))
  {
    forall k | |run.journal| <= k < |r.journal| ensures FairRecord(r.journal[k], Some(at)) {
      assert FairRecord(r.journal[k], Some(at.(atOpen := false)));
    }
  }

  lemma TouchedTrades(run: Run, advance: Reducer, at: Place)
    requires ValidBinding(run.state.binding) && run.error == None
    ensures Trades(run, Do(run, advance, Touch(at.price, false)), Some(at))
  {
    TouchDone(run, advance, at.price, false);
    TouchTrades(run, advance, at.(atOpen := false));
    OpenIsWider(run, Do(run, advance, Touch(at.price, false)), at);
  }

  lemma {:induction false} BuysTrade(run: Run, advance: Reducer, keys: seq<int>, n: nat, at: Place)
    requires ValidBinding(run.state.binding) && n <= |keys|
    ensures Trades(run, Do(run, advance, BuyAll(keys[n..], at.price, at.atOpen)), Some(at))
    decreases |keys| - n
  {
    if run.error == None {
      BuyTurns(run, advance, keys, n, at.price, at.atOpen);
      if n < |keys| && run.state.terminalAction == None && !run.state.reconciliationRequired {
        if MayBuy(run.state, keys[n], at.price, at.atOpen) {
          var bought := DoOffer(run, advance, keys[n], at.price, at.atOpen);
          OfferTrades(run, advance, keys[n], at);
          BuysTrade(bought, advance, keys, n + 1, at);
          BoughtTrades(run, advance, keys, n, at);
        } else {
          BuysTrade(run, advance, keys, n + 1, at);
        }
      }
    }
  }

  lemma BoughtTrades(run: Run, advance: Reducer, keys: seq<int>, n: nat, at: Place)
    requires ValidBinding(run.state.binding) && run.error == None && n < |keys|
    requires MayBuy(run.state, keys[n], at.price, at.atOpen)
    requires var bought := DoOffer(run, advance, keys[n], at.price, at.atOpen);
             && Trades(run, bought, Some(at))
             && Trades(bought, Do(bought, advance, BuyAll(keys[n + 1..], at.price, at.atOpen)), Some(at))
    ensures Trades(run, BuyNext(run, advance, keys[n], keys[n + 1..], at.price, at.atOpen), Some(at))
  {
    var rest := keys[n + 1..];
    var bought := DoOffer(run, advance, keys[n], at.price, at.atOpen);
    BuyNextTurns(run, advance, keys[n], rest, at.price, at.atOpen);
    var next := BuyNext(run, advance, keys[n], rest, at.price, at.atOpen);
    if bought.error == None && StopBreached(bought.state, at.price) {
      TouchedTrades(bought, advance, at);
    }
    TradesThen(run, bought, next, Some(at));
  }

  /** A visit fills only orders that may fill at its price. */
  lemma VisitTrades(run: Run, advance: Reducer, at: Place)
    requires ValidBinding(run.state.binding)
    ensures Trades(run, Do(run, advance, Visit(at.price, at.atOpen)), Some(at))
  {
    if run.error == None {
      var touched := DoTouch(run, advance, at.price, at.atOpen);
      var keys := Working(DoContain(run, advance, at.price).state.orders);
      VisitDone(run, advance, at.price, at.atOpen);
      VisitTurns(run, advance, at.price, at.atOpen);
      TouchTrades(run, advance, at);
      assert keys[0..] == keys;
      BuysTrade(touched, advance, keys, 0, at);
      TradesThen(run, touched, DoVisit(run, advance, at.price, at.atOpen), Some(at));
    }
  }

  // ---------------------------------------------------- what must be served

  /** An order that may fill at `at`, and for a buy, nothing that stops buying. */
  predicate Ready(s: State, key: nat, side: Side, at: Place) {
    && key < |s.orders|
    && Eligible(s, s.orders[key])
    && s.orders[key].intent.side == side
    && Comes(s.orders[key].intent, at.price)
    && MayFill(s, s.orders[key].intent, at)
    && (side == Buy ==> s.terminalAction == None && s.phase != StoppedHolding && !s.reconciliationRequired)
  }

  /** The order is ready in every state committed from record `i` to record `j`. */
  ghost predicate Stays(origin: State, journal: seq<Record>, i: nat, j: nat, key: nat, side: Side, at: Place) {
    j <= |journal| && forall m: nat | i <= m <= j :: Ready(At(origin, journal, m), key, side, at)
  }

  /** Some record from `i` up to `j` reports a fill of the order. */
  ghost predicate HasFill(journal: seq<Record>, i: nat, j: nat, key: nat) {
    exists k | i <= k < j && k < |journal| :: FillOf(journal[k]).Some? && FillOf(journal[k]).value.key == key
  }

  /** Offered in this state, the order would not fill: there is no room for a step of it, or it is refused. */
  predicate InVain(s: State, key: nat, at: Place) {
    && key < |s.orders| && ValidBinding(s.binding)
    && !IsFill(MatchEvent(s, key, s.orders[key], at.price, at.atOpen, 0))
  }

  /** The order filled, or some committed state had nothing to fill it with. */
  ghost predicate Served(origin: State, journal: seq<Record>, i: nat, j: nat, key: nat, at: Place) {
    || HasFill(journal, i, j, key)
    || exists m: nat | i <= m <= j && m <= |journal| :: InVain(At(origin, journal, m), key, at)
  }

  /** Every order that is ready from record `i` to record `j`, or until it fills, is served there. */
  ghost predicate Honours(origin: State, journal: seq<Record>, i: nat, j: nat, at: Place) {
    forall key: nat, side :: Waits(origin, journal, i, j, key, side, at) ==> Served(origin, journal, i, j, key, at)
  }

  ghost predicate Waits(origin: State, journal: seq<Record>, i: nat, j: nat, key: nat, side: Side, at: Place) {
    && j <= |journal|
    && forall m: nat | i <= m <= j && !HasFill(journal, i, m, key) :: Ready(At(origin, journal, m), key, side, at)
  }

  lemma StaysWithin(
    origin: State, journal: seq<Record>, i: nat, j: nat, a: nat, b: nat, key: nat, side: Side, at: Place)
    requires Stays(origin, journal, i, j, key, side, at) && i <= a <= b <= j
    ensures Stays(origin, journal, a, b, key, side, at)
  {
  }

  lemma ServedWithin(origin: State, journal: seq<Record>, i: nat, j: nat, a: nat, b: nat, key: nat, at: Place)
    requires Served(origin, journal, a, b, key, at) && i <= a <= b <= j
    ensures Served(origin, journal, i, j, key, at)
  {
    if HasFill(journal, a, b, key) {
      var k :| a <= k < b && k < |journal| && FillOf(journal[k]).Some? && FillOf(journal[k]).value.key == key;
    }
  }

  /** Either it fills, or it is ready throughout. */
  lemma WaitsOrFills(origin: State, journal: seq<Record>, i: nat, j: nat, key: nat, side: Side, at: Place)
    requires Waits(origin, journal, i, j, key, side, at) && !HasFill(journal, i, j, key)
    ensures Stays(origin, journal, i, j, key, side, at)
  {
    forall m: nat | i <= m <= j ensures Ready(At(origin, journal, m), key, side, at) {
      assert !HasFill(journal, i, m, key);
    }
  }

  lemma MatchIgnoresTime(s: State, key: nat, order: Order, at: Place, t: int, u: int)
    requires ValidBinding(s.binding)
    ensures IsFill(MatchEvent(s, key, order, at.price, at.atOpen, t))
       <==> IsFill(MatchEvent(s, key, order, at.price, at.atOpen, u))
  {
  }

  lemma StateAt(origin: State, run: Run, journal: seq<Record>)
    requires Stands(origin, run) && run.journal <= journal
    ensures At(origin, journal, |run.journal|) == run.state
  {
  }

  lemma ReadyAt(origin: State, run: Run, journal: seq<Record>, j: nat, key: nat, side: Side, at: Place)
    requires Stands(origin, run) && run.journal <= journal && |run.journal| <= j
    requires Stays(origin, journal, |run.journal|, j, key, side, at)
    ensures Ready(run.state, key, side, at)
  {
    StateAt(origin, run, journal);
    assert Ready(At(origin, journal, |run.journal|), key, side, at);
  }

  /** The fill an offer leads to is in the journal. */
  lemma BookedIsFilled(run: Run, advance: Reducer, e: Event, journal: seq<Record>)
    requires ValidBinding(run.state.binding) && run.error == None && e.quantity != 0.0
    requires var booked := DoHear(Paid(run, e.quantity), advance, Executed(e)); booked.journal <= journal
    ensures HasFill(journal, |run.journal|, |DoHear(Paid(run, e.quantity), advance, Executed(e)).journal|, e.key)
  {
    var paid := Paid(run, e.quantity);
    var seen := DoSee(paid, advance, Executed(e));
    PaidRun(run, e.quantity);
    SeeRecords(paid, advance, Executed(e));
    HearTurns(paid, advance, Executed(e));
    assert journal[|paid.journal|] == seen.journal[|paid.journal|];
  }

  lemma OfferServes(origin: State, run: Run, advance: Reducer, key: nat, at: Place, journal: seq<Record>)
    requires ValidBinding(run.state.binding) && run.error == None && Stands(origin, run) && key < |run.state.orders|
    requires DoOffer(run, advance, key, at.price, at.atOpen).journal <= journal
    ensures Served(origin, journal, |run.journal|, |DoOffer(run, advance, key, at.price, at.atOpen).journal|, key, at)
  {
    var order := run.state.orders[key];
    var event := MatchEvent(run.state, key, order, at.price, at.atOpen, run.timestamp);
    if IsFill(event) {
      MatchIsAdverse(run.state, key, order, at, run.timestamp, event.value);
      OfferTurn(run, advance, key, at.price, at.atOpen, event.value);
      BookedIsFilled(run, advance, event.value, journal);
    } else {
      StateAt(origin, run, journal);
      MatchIgnoresTime(run.state, key, order, at, run.timestamp, 0);
      assert InVain(At(origin, journal, |run.journal|), key, at);
    }
  }

  /** The order whose turn it is in the sell pass. */
  lemma SaleServes(origin: State, run: Run, advance: Reducer, key: nat, at: Place, journal: seq<Record>)
    requires ValidBinding(run.state.binding) && run.error == None && Stands(origin, run)
    requires Ready(run.state, key, Sell, at)
    requires DoSellOne(run, advance, key, at.price, at.atOpen).journal <= journal
    ensures Served(origin, journal, |run.journal|, |DoSellOne(run, advance, key, at.price, at.atOpen).journal|, key, at)
  {
    var matched := DoOffer(run, advance, key, at.price, at.atOpen);
    SaleTurn(run, advance, key, at.price, at.atOpen);
    OfferServes(origin, run, advance, key, at, journal);
    ServedWithin(origin, journal, |run.journal|, |DoSellOne(run, advance, key, at.price, at.atOpen).journal|,
                 |run.journal|, |matched.journal|, key, at);
  }

  lemma SaleStands(origin: State, run: Run, advance: Reducer, key: int, at: Place)
    requires ValidBinding(run.state.binding) && run.error == None && Stands(origin, run)
    ensures Stands(origin, DoSellOne(run, advance, key, at.price, at.atOpen))
  {
    StandsExtends(origin, run, DoSellOne(run, advance, key, at.price, at.atOpen));
  }

  lemma {:induction false} SalesServe(
    origin: State, run: Run, advance: Reducer, keys: seq<int>, n: nat, key: nat, at: Place, journal: seq<Record>)
    requires ValidBinding(run.state.binding) && run.error == None && Stands(origin, run)
    requires n <= |keys| && key in keys[n..]
    requires var sold := Do(run, advance, SellAll(keys[n..], at.price, at.atOpen));
             && sold.error == None && sold.journal <= journal
             && Stays(origin, journal, |run.journal|, |sold.journal|, key, Sell, at)
    ensures var sold := Do(run, advance, SellAll(keys[n..], at.price, at.atOpen));
            Served(origin, journal, |run.journal|, |sold.journal|, key, at)
    decreases |keys| - n
  {
    var sold := Do(run, advance, SellAll(keys[n..], at.price, at.atOpen));
    SellTurn(run, advance, keys, n, at.price, at.atOpen);
    var next := DoSellOne(run, advance, keys[n], at.price, at.atOpen);
    if keys[n] == key {
      ReadyAt(origin, run, journal, |sold.journal|, key, Sell, at);
      SaleServes(origin, run, advance, key, at, journal);
      ServedWithin(origin, journal, |run.journal|, |sold.journal|, |run.journal|, |next.journal|, key, at);
    } else {
      SaleStands(origin, run, advance, keys[n], at);
      StaysWithin(origin, journal, |run.journal|, |sold.journal|, |next.journal|, |sold.journal|, key, Sell, at);
      SalesServe(origin, next, advance, keys, n + 1, key, at, journal);
      ServedWithin(origin, journal, |run.journal|, |sold.journal|, |next.journal|, |sold.journal|, key, at);
    }
  }

  // ------------------------------------------------------ the buys' turn

  /** A price that breaches the stop leaves a terminal action. */
  lemma BreachTerminates(run: Run, advance: Reducer, p: real)
    requires run.error == None && StopBreached(run.state, p) && run.state.phase != StoppedHolding
    requires DoSee(run, advance, PriceSeen(p, run.state.barIndex)).error == None
    ensures DoSee(run, advance, PriceSeen(p, run.state.barIndex)).state.terminalAction.Some?
  {
    var body := PriceSeen(p, run.state.barIndex);
    var o := Received(run, body);
    var received := Write(run, run.state.(pendingObservation := Some(o)), ObservationReceived);
    assert IsStep(advance, received.state, o);
    var recipe :| advance(received.state, o) == Advance(received.state, o, recipe);
    assert React(received.state, body).value.terminalAction.Some?;
  }

  lemma PriceSees(run: Run, advance: Reducer, p: real)
    requires ValidBinding(run.state.binding) && run.error == None
    ensures var seen := DoSee(run, advance, PriceSeen(p, run.state.barIndex));
            Extends(run, seen) && Extends(seen, DoPrice(run, advance, p))
  {
    PriceTurn(run, advance, p);
    HearTurns(run, advance, PriceSeen(p, run.state.barIndex));
  }

  lemma ContainIsPrice(run: Run, advance: Reducer, p: real)
    requires ValidBinding(run.state.binding) && run.error == None
    requires StopBreached(run.state, p) && run.state.phase != StoppedHolding
    ensures DoContain(run, advance, p) == DoPrice(run, advance, p)
  {
    PriceDone(run, advance, p);
  }

  lemma PriceDone(run: Run, advance: Reducer, p: real)
    requires ValidBinding(run.state.binding) && run.error == None
    ensures Do(run, advance, Price(p)) == DoPrice(run, advance, p)
  {
  }

  /** The observation a contained visit starts with. */
  lemma ContainSees(run: Run, advance: Reducer, p: real) returns (seen: Run)
    requires ValidBinding(run.state.binding) && run.error == None
    requires StopBreached(run.state, p) && run.state.phase != StoppedHolding
    requires DoContain(run, advance, p).error == None
    ensures Extends(run, seen) && Extends(seen, DoContain(run, advance, p))
    ensures seen.state.terminalAction.Some?
  {
    seen := DoSee(run, advance, PriceSeen(p, run.state.barIndex));
    ContainIsPrice(run, advance, p);
    PriceSees(run, advance, p);
    BreachTerminates(run, advance, p);
  }

  lemma ExtendsOn(a: Run, b: Run, c: Run)
    requires Extends(a, b) && Extends(b, c)
    ensures Extends(a, c)
  {
  }

  /** A visit to a breached stop keeps no buy ready. */
  lemma TouchStops(origin: State, run: Run, advance: Reducer, key: nat, at: Place, last: Run, journal: seq<Record>)
    requires ValidBinding(run.state.binding) && run.error == None && Stands(origin, run)
    requires StopBreached(run.state, at.price) && run.state.phase != StoppedHolding
    requires last == Do(run, advance, Touch(at.price, false)) && last.error == None && last.journal <= journal
    ensures !Stays(origin, journal, |run.journal|, |last.journal|, key, Buy, at)
  {
    var contained := DoContain(run, advance, at.price);
    TouchDone(run, advance, at.price, false);
    TouchTurns(run, advance, at.price, false);
    var seen := ContainSees(run, advance, at.price);
    ExtendsOn(seen, contained, last);
    StandsExtends(origin, run, seen);
    StateAt(origin, seen, journal);
    assert !Ready(At(origin, journal, |seen.journal|), key, Buy, at);
  }

  /** The order whose turn it is in the buy pass. */
  lemma BuyServes(
    origin: State, run: Run, advance: Reducer, key: nat, rest: seq<int>, at: Place, journal: seq<Record>)
    requires ValidBinding(run.state.binding) && run.error == None && Stands(origin, run)
    requires Ready(run.state, key, Buy, at)
    requires BuyNext(run, advance, key, rest, at.price, at.atOpen).journal <= journal
    ensures Served(origin, journal, |run.journal|, |BuyNext(run, advance, key, rest, at.price, at.atOpen).journal|, key, at)
  {
    var bought := DoOffer(run, advance, key, at.price, at.atOpen);
    BuyNextTurns(run, advance, key, rest, at.price, at.atOpen);
    OfferServes(origin, run, advance, key, at, journal);
    ServedWithin(origin, journal, |run.journal|, |BuyNext(run, advance, key, rest, at.price, at.atOpen).journal|,
                 |run.journal|, |bought.journal|, key, at);
  }

  /** What the turn of another order leaves the rest of the buy pass to. */
  lemma PassedOver(
    origin: State, run: Run, advance: Reducer, other: int, rest: seq<int>, key: nat, at: Place, journal: seq<Record>)
    returns (next: Run)
    requires ValidBinding(run.state.binding) && run.error == None && Stands(origin, run)
    requires var bought := BuyNext(run, advance, other, rest, at.price, at.atOpen);
             && bought.error == None && bought.journal <= journal
             && Stays(origin, journal, |run.journal|, |bought.journal|, key, Buy, at)
    ensures Extends(run, next) && Stands(origin, next) && next.error == None
    ensures BuyNext(run, advance, other, rest, at.price, at.atOpen)
         == Do(next, advance, BuyAll(rest, at.price, at.atOpen))
  {
    var bought := BuyNext(run, advance, other, rest, at.price, at.atOpen);
    if !MayBuy(run.state, other, at.price, at.atOpen) {
      next := run;
    } else {
      next := DoOffer(run, advance, other, at.price, at.atOpen);
      BuyNextTurns(run, advance, other, rest, at.price, at.atOpen);
      StandsExtends(origin, run, next);
      StaysWithin(origin, journal, |run.journal|, |bought.journal|, |next.journal|, |bought.journal|, key, Buy, at);
      ReadyAt(origin, next, journal, |bought.journal|, key, Buy, at);
      if StopBreached(next.state, at.price) {
        TouchStops(origin, next, advance, key, at, bought, journal);
      }
    }
  }

  lemma {:induction false} BuysServe(
    origin: State, run: Run, advance: Reducer, keys: seq<int>, n: nat, key: nat, at: Place, journal: seq<Record>)
    requires ValidBinding(run.state.binding) && run.error == None && Stands(origin, run)
    requires n <= |keys| && key in keys[n..]
    requires var bought := Do(run, advance, BuyAll(keys[n..], at.price, at.atOpen));
             && bought.error == None && bought.journal <= journal
             && Stays(origin, journal, |run.journal|, |bought.journal|, key, Buy, at)
    ensures var bought := Do(run, advance, BuyAll(keys[n..], at.price, at.atOpen));
            Served(origin, journal, |run.journal|, |bought.journal|, key, at)
    decreases |keys| - n
  {
    var bought := Do(run, advance, BuyAll(keys[n..], at.price, at.atOpen));
    BuyTurns(run, advance, keys, n, at.price, at.atOpen);
    ReadyAt(origin, run, journal, |bought.journal|, key, Buy, at);
    if keys[n] == key {
      BuyServes(origin, run, advance, key, keys[n + 1..], at, journal);
    } else {
      var next := PassedOver(origin, run, advance, keys[n], keys[n + 1..], key, at, journal);
      StaysWithin(origin, journal, |run.journal|, |bought.journal|, |next.journal|, |bought.journal|, key, Buy, at);
      BuysServe(origin, next, advance, keys, n + 1, key, at, journal);
      ServedWithin(origin, journal, |run.journal|, |bought.journal|, |next.journal|, |bought.journal|, key, at);
    }
  }

  // ------------------------------------------------------- a whole visit

  lemma FaceServes(origin: State, run: Run, advance: Reducer, keys: seq<int>, key: nat, at: Place, journal: seq<Record>)
    requires ValidBinding(run.state.binding) && run.error == None && Stands(origin, run) && key in keys
    requires var faced := DoFace(run, advance, keys, at.price, at.atOpen);
             && faced.error == None && faced.journal <= journal
             && Stays(origin, journal, |run.journal|, |faced.journal|, key, Sell, at)
    ensures Served(origin, journal, |run.journal|, |DoFace(run, advance, keys, at.price, at.atOpen).journal|, key, at)
  {
    var faced := DoFace(run, advance, keys, at.price, at.atOpen);
    var sold := Do(run, advance, SellAll(keys, at.price, at.atOpen));
    FaceTurns(run, advance, keys, at.price, at.atOpen);
    assert keys[0..] == keys;
    StaysWithin(origin, journal, |run.journal|, |faced.journal|, |run.journal|, |sold.journal|, key, Sell, at);
    SalesServe(origin, run, advance, keys, 0, key, at, journal);
    ServedWithin(origin, journal, |run.journal|, |faced.journal|, |run.journal|, |sold.journal|, key, at);
  }

  /** Every order is ranked. */
  lemma Ranked(s: State, key: nat, side: Side, at: Place)
    requires Ready(s, key, side, at)
    ensures key in Working(s.orders)
  {
    WorkingInPriority(s.orders);
  }

  /** An order that is ready once containment is over is ranked. */
  lemma ContainRanks(
    origin: State, run: Run, advance: Reducer, key: nat, side: Side, at: Place, j: nat, journal: seq<Record>)
    requires ValidBinding(run.state.binding) && Stands(origin, run)
    requires var contained := DoContain(run, advance, at.price);
             contained.journal <= journal && |contained.journal| <= j
    requires Stays(origin, journal, |run.journal|, j, key, side, at)
    ensures key in Working(DoContain(run, advance, at.price).state.orders)
  {
    var contained := DoContain(run, advance, at.price);
    StandsExtends(origin, run, contained);
    StaysWithin(origin, journal, |run.journal|, j, |contained.journal|, j, key, side, at);
    ReadyAt(origin, contained, journal, j, key, side, at);
    Ranked(contained.state, key, side, at);
  }

  /** Containment is the first part of a touch, and it leaves the order ranked. */
  lemma TouchParts(origin: State, run: Run, advance: Reducer, key: nat, at: Place, touched: Run, journal: seq<Record>)
    returns (contained: Run)
    requires ValidBinding(run.state.binding) && run.error == None && Stands(origin, run)
    requires touched == DoTouch(run, advance, at.price, at.atOpen) && touched.error == None && touched.journal <= journal
    requires Stays(origin, journal, |run.journal|, |touched.journal|, key, Sell, at)
    ensures ValidBinding(contained.state.binding) && contained.error == None && Stands(origin, contained)
    ensures |run.journal| <= |contained.journal| && key in Working(contained.state.orders)
    ensures touched == DoFace(contained, advance, Working(contained.state.orders), at.price, at.atOpen)
  {
    contained := DoContain(run, advance, at.price);
    TouchTurns(run, advance, at.price, at.atOpen);
    ContainRanks(origin, run, advance, key, Sell, at, |touched.journal|, journal);
    StandsExtends(origin, run, contained);
  }

  lemma TouchServes(origin: State, run: Run, advance: Reducer, key: nat, at: Place, touched: Run, journal: seq<Record>)
    requires ValidBinding(run.state.binding) && run.error == None && Stands(origin, run)
    requires touched == DoTouch(run, advance, at.price, at.atOpen) && touched.error == None && touched.journal <= journal
    requires Stays(origin, journal, |run.journal|, |touched.journal|, key, Sell, at)
    ensures Served(origin, journal, |run.journal|, |touched.journal|, key, at)
  {
    var contained := TouchParts(origin, run, advance, key, at, touched, journal);
    var keys := Working(contained.state.orders);
    StaysWithin(origin, journal, |run.journal|, |touched.journal|, |contained.journal|, |touched.journal|, key, Sell, at);
    FaceServes(origin, contained, advance, keys, key, at, journal);
    ServedWithin(origin, journal, |run.journal|, |touched.journal|, |contained.journal|, |touched.journal|, key, at);
  }

  lemma TouchedFirst(run: Run, advance: Reducer, at: Place, last: Run) returns (touched: Run)
    requires ValidBinding(run.state.binding) && run.error == None
    requires last == DoVisit(run, advance, at.price, at.atOpen) && last.error == None
    ensures touched == DoTouch(run, advance, at.price, at.atOpen) && touched.error == None
    ensures touched.journal <= last.journal && run.journal <= touched.journal
  {
    touched := DoTouch(run, advance, at.price, at.atOpen);
    VisitTurns(run, advance, at.price, at.atOpen);
  }

  lemma SellServed(origin: State, run: Run, advance: Reducer, key: nat, at: Place, last: Run, journal: seq<Record>)
    requires ValidBinding(run.state.binding) && run.error == None && Stands(origin, run)
    requires last == DoVisit(run, advance, at.price, at.atOpen) && last.error == None && last.journal <= journal
    requires Stays(origin, journal, |run.journal|, |last.journal|, key, Sell, at)
    ensures Served(origin, journal, |run.journal|, |last.journal|, key, at)
  {
    var touched := TouchedFirst(run, advance, at, last);
    var i, j, m := |run.journal|, |last.journal|, |touched.journal|;
    StaysWithin(origin, journal, i, j, i, m, key, Sell, at);
    TouchServes(origin, run, advance, key, at, touched, journal);
    ServedWithin(origin, journal, i, j, i, m, key, at);
  }

  /** The buy pass is the last part of a visit, and the order is among those it passes. */
  lemma VisitParts(origin: State, run: Run, advance: Reducer, key: nat, at: Place, last: Run, journal: seq<Record>)
    returns (touched: Run, keys: seq<int>)
    requires ValidBinding(run.state.binding) && run.error == None && Stands(origin, run)
    requires last == DoVisit(run, advance, at.price, at.atOpen) && last.error == None && last.journal <= journal
    requires Stays(origin, journal, |run.journal|, |last.journal|, key, Buy, at)
    ensures ValidBinding(touched.state.binding) && touched.error == None && Stands(origin, touched)
    ensures |run.journal| <= |touched.journal| <= |last.journal| && key in keys
    ensures last == Do(touched, advance, BuyAll(keys, at.price, at.atOpen))
  {
    touched := TouchedFirst(run, advance, at, last);
    keys := VisitKeys(run, advance, at, last);
    TouchTurns(run, advance, at.price, at.atOpen);
    ContainRanks(origin, run, advance, key, Buy, at, |last.journal|, journal);
    StandsExtends(origin, run, touched);
  }

  lemma VisitKeys(run: Run, advance: Reducer, at: Place, last: Run) returns (keys: seq<int>)
    requires ValidBinding(run.state.binding) && run.error == None
    requires last == DoVisit(run, advance, at.price, at.atOpen)
    ensures keys == Working(DoContain(run, advance, at.price).state.orders)
    ensures last == Do(DoTouch(run, advance, at.price, at.atOpen), advance, BuyAll(keys, at.price, at.atOpen))
  {
    keys := Working(DoContain(run, advance, at.price).state.orders);
    VisitTurns(run, advance, at.price, at.atOpen);
  }

  lemma BuyServed(origin: State, run: Run, advance: Reducer, key: nat, at: Place, last: Run, journal: seq<Record>)
    requires ValidBinding(run.state.binding) && run.error == None && Stands(origin, run)
    requires last == DoVisit(run, advance, at.price, at.atOpen) && last.error == None && last.journal <= journal
    requires Stays(origin, journal, |run.journal|, |last.journal|, key, Buy, at)
    ensures Served(origin, journal, |run.journal|, |last.journal|, key, at)
  {
    var touched, keys := VisitParts(origin, run, advance, key, at, last, journal);
    StaysWithin(origin, journal, |run.journal|, |last.journal|, |touched.journal|, |last.journal|, key, Buy, at);
    assert keys[0..] == keys;
    BuysServe(origin, touched, advance, keys, 0, key, at, journal);
    ServedWithin(origin, journal, |run.journal|, |last.journal|, |touched.journal|, |last.journal|, key, at);
  }

  /** A visit that ends well serves every order that waits for it. */
  lemma VisitHonours(origin: State, run: Run, advance: Reducer, at: Place, last: Run, journal: seq<Record>)
    requires ValidBinding(run.state.binding) && Stands(origin, run)
    requires last == Do(run, advance, Visit(at.price, at.atOpen)) && last.error == None && last.journal <= journal
    ensures Honours(origin, journal, |run.journal|, |last.journal|, at)
  {
    VisitDone(run, advance, at.price, at.atOpen);
    var i, j := |run.journal|, |last.journal|;
    forall key: nat, side | Waits(origin, journal, i, j, key, side, at)
      ensures Served(origin, journal, i, j, key, at)
    {
      if !HasFill(journal, i, j, key) {
        WaitsOrFills(origin, journal, i, j, key, side, at);
        if side == Sell {
          SellServed(origin, run, advance, key, at, last, journal);
        } else {
          BuyServed(origin, run, advance, key, at, last, journal);
        }
      }
    }
  }

  /** Between the two records, `at` fills what may fill there, and whatever waits there is served. */
  ghost predicate Serves(origin: State, journal: seq<Record>, i: nat, j: nat, at: Place) {
    && Fair(journal, i, j, Some(at))
    && Honours(origin, journal, i, j, at)
  }

  lemma VisitServes(origin: State, run: Run, advance: Reducer, at: Place, last: Run, journal: seq<Record>)
    requires ValidBinding(run.state.binding) && Stands(origin, run)
    requires last == Do(run, advance, Visit(at.price, at.atOpen)) && last.error == None && last.journal <= journal
    ensures Serves(origin, journal, |run.journal|, |last.journal|, at)
  {
    VisitTrades(run, advance, at);
    FairLater(last.journal, journal, |run.journal|, |last.journal|, Some(at));
    VisitHonours(origin, run, advance, at, last, journal);
  }

  /** What waits longer is served no less. */
  lemma HonoursWider(origin: State, journal: seq<Record>, i: nat, a: nat, j: nat, at: Place)
    requires Honours(origin, journal, a, j, at) && i <= a <= j
    ensures Honours(origin, journal, i, j, at)
  {
    forall key: nat, side | Waits(origin, journal, i, j, key, side, at)
      ensures Served(origin, journal, i, j, key, at)
    {
      if !HasFill(journal, i, j, key) {
        WaitsOrFills(origin, journal, i, j, key, side, at);
        assert Waits(origin, journal, a, j, key, side, at);
        ServedWithin(origin, journal, i, j, a, j, key, at);
      }
    }
  }

  // ------------------------------------------------------------- expiry

  /** Some record from `i` up to `j` reports that the order expired. */
  ghost predicate Lapsed(journal: seq<Record>, i: nat, j: nat, key: nat) {
    exists k | i <= k < j && k < |journal| :: ReportsExpiry(journal[k], key)
  }

  predicate ReportsExpiry(r: Record, key: nat) {
    && r.unsigned.kind == ObservationReceived && r.unsigned.doc.pendingObservation.Some?
    && var body := r.unsigned.doc.pendingObservation.value.body;
       body.Executed? && body.event.key == key && body.event.status == Expired
  }

  predicate IsOverdue(s: State, o: Order) {
    Eligible(s, o) && Overdue(s, o.intent)
  }

  /** Every order that is active and overdue in the state record `i` committed expires before record `j`. */
  ghost predicate Lapses(origin: State, journal: seq<Record>, i: nat, j: nat)
    requires i <= |journal|
  {
    forall key: nat | key < |At(origin, journal, i).orders| ::
      IsOverdue(At(origin, journal, i), At(origin, journal, i).orders[key]) ==> Lapsed(journal, i, j, key)
  }

  lemma ExpiryTurn(run: Run, advance: Reducer, found: seq<Order>, n: nat) returns (next: Run)
    requires ValidBinding(run.state.binding) && run.error == None && n < |found|
    ensures Extends(run, next) && next.state.barIndex == run.state.barIndex
    ensures Do(run, advance, Expire(found, n)) == Do(next, advance, Expire(found, n + 1))
    ensures Expires(run.state, found[n]) ==>
              |run.journal| < |next.journal| && ReportsExpiry(next.journal[|run.journal|], n)
  {
    ExpireTurn(run, advance, found, n);
    if Expires(run.state, found[n]) {
      next := DoSee(run, advance, Expiry(run, found, n));
      SeeRecords(run, advance, Expiry(run, found, n));
      SeeKeepsIntents(run, advance, Expiry(run, found, n));
    } else {
      next := run;
    }
  }

  lemma {:induction false} ExpireReports(
    run: Run, advance: Reducer, found: seq<Order>, n: nat, key: nat, journal: seq<Record>)
    requires ValidBinding(run.state.binding) && run.error == None && n <= key < |found|
    requires Expires(run.state, found[key])
    requires var r := Do(run, advance, Expire(found, n)); r.error == None && r.journal <= journal
    ensures Lapsed(journal, |run.journal|, |Do(run, advance, Expire(found, n)).journal|, key)
    decreases |found| - n
  {
    var next := ExpiryTurn(run, advance, found, n);
    if n == key {
      assert journal[|run.journal|] == next.journal[|run.journal|];
    } else {
      ExpireReports(next, advance, found, n + 1, key, journal);
    }
  }

  /** What is overdue when the candle comes in has expired before its first price. */
  lemma OpenLapses(origin: State, run: Run, advance: Reducer, c: Candle, ready: Run, journal: seq<Record>)
    requires ValidBinding(run.state.binding) && run.error == None
    requires ready == Open(run, advance, c) && ready.error == None && ready.journal <= journal
    ensures |run.journal| < |journal|
    ensures Lapses(origin, journal, |run.journal| + 1, |ready.journal|)
  {
    var received := Write(run.(timestamp := c.timestamp), Opened(run.state, c), CandleReceived);
    var expired := Do(received, advance, Expire(received.state.orders, 0));
    assert |received.journal| == |run.journal| + 1 && At(origin, journal, |run.journal| + 1) == received.state;
    forall key: nat | key < |received.state.orders| && IsOverdue(received.state, received.state.orders[key])
      ensures Lapsed(journal, |received.journal|, |ready.journal|, key)
    {
      ExpireReports(received, advance, received.state.orders, 0, key, journal);
    }
  }

  lemma LapsesLater(origin: State, journal: seq<Record>, i: nat, j: nat, later: nat)
    requires i <= |journal| && Lapses(origin, journal, i, j) && j <= later
    ensures Lapses(origin, journal, i, later)
  {
    forall key: nat | key < |At(origin, journal, i).orders|
                      && IsOverdue(At(origin, journal, i), At(origin, journal, i).orders[key])
      ensures Lapsed(journal, i, later, key)
    {
      assert Lapsed(journal, i, j, key);
    }
  }

  // ------------------------------------------------- around the visits

  lemma OpenTrades(run: Run, advance: Reducer, c: Candle)
    requires ValidBinding(run.state.binding) && run.error == None
    ensures Trades(run, Open(run, advance, c), None) && |run.journal| < |Open(run, advance, c).journal|
  {
    var received := Write(run.(timestamp := c.timestamp), Opened(run.state, c), CandleReceived);
    var orders := received.state.orders;
    var expired := Do(received, advance, Expire(orders, 0));
    ExpireTrades(received, advance, orders, 0);
    DrainTrades(expired, advance, ROUNDS);
    TradesThen(run, received, expired, None);
    TradesThen(run, expired, Open(run, advance, c), None);
  }

  lemma EndedTrades(run: Run, advance: Reducer, c: Candle)
    requires ValidBinding(run.state.binding) && run.error == None
    ensures Trades(run, Ended(run, advance, c), None)
  {
    var closed := DoHear(run, advance, ClosedBar(run.state.barIndex, c.close));
    HearTrades(run, advance, ClosedBar(run.state.barIndex, c.close));
    TradesThen(run, closed, Ended(run, advance, c), None);
  }

  lemma ShutTrades(run: Run, advance: Reducer, c: Candle)
    requires ValidBinding(run.state.binding) && run.error == None
    requires DoPrice(run, advance, c.close).error == None
    ensures Trades(run, Shut(run, advance, c), None)
  {
    var priced := DoPrice(run, advance, c.close);
    PriceDone(run, advance, c.close);
    PriceTrades(run, advance, c.close);
    EndedTrades(priced, advance, c);
    TradesThen(run, priced, Ended(priced, advance, c), None);
  }

  lemma OpeningLapses(origin: State, run: Run, advance: Reducer, c: Candle, met: Run, journal: seq<Record>)
    requires ValidBinding(run.state.binding) && run.error == None
    requires met == Do(Open(run, advance, c), advance, Visit(c.open, true)) && met.error == None
    requires met.journal <= journal
    ensures |run.journal| < |journal| && Lapses(origin, journal, |run.journal| + 1, |met.journal|)
  {
    var ready := Open(run, advance, c);
    OpenLapses(origin, run, advance, c, ready, journal);
    LapsesLater(origin, journal, |run.journal| + 1, |ready.journal|, |met.journal|);
  }

  /** From the first record of a candle on, the visit to the open serves. */
  lemma OpeningServes(origin: State, run: Run, advance: Reducer, c: Candle, met: Run, journal: seq<Record>)
    requires ValidBinding(run.state.binding) && run.error == None && Stands(origin, run)
    requires met == Do(Open(run, advance, c), advance, Visit(c.open, true)) && met.error == None
    requires met.journal <= journal
    ensures Fair(journal, |run.journal|, |met.journal|, Some(Place(c.open, true)))
    ensures Honours(origin, journal, |run.journal| + 1, |met.journal|, Place(c.open, true))
  {
    var ready := Open(run, advance, c);
    var at := Place(c.open, true);
    StandsExtends(origin, run.(timestamp := c.timestamp), ready);
    OpenTrades(run, advance, c);
    VisitTrades(ready, advance, at);
    TradesThen(run, ready, met, Some(at));
    FairLater(met.journal, journal, |run.journal|, |met.journal|, Some(at));
    VisitHonours(origin, ready, advance, at, met, journal);
    HonoursWider(origin, journal, |run.journal| + 1, |ready.journal|, |met.journal|, at);
  }

  // --------------------------------------------------------- end of data

  /** The mark stays, and no order leaves the book. */
  predicate Abides(a: State, b: State) {
    b.mark == a.mark && |a.orders| <= |b.orders|
  }

  lemma SeeAbides(run: Run, advance: Reducer, body: Body)
    requires run.error == None && (body.Executed? || body.Reconciled?)
    ensures Abides(run.state, DoSee(run, advance, body).state)
  {
    var o := Received(run, body);
    var received := Write(run, run.state.(pendingObservation := Some(o)), ObservationReceived);
    SeeKeepsIntents(run, advance, body);
    if advance(received.state, o).Some? {
      assert IsStep(advance, received.state, o);
      var recipe :| advance(received.state, o) == Advance(received.state, o, recipe);
      AdvanceKeepsMark(received.state, o, recipe);
    }
  }

  lemma AnswerAbides(run: Run, advance: Reducer, rounds: nat) returns (seen: Run)
    requires ValidBinding(run.state.binding) && run.error == None && rounds > 0
    requires NextReply(run.state, run.timestamp).Some?
    ensures Abides(run.state, seen.state) && ValidBinding(seen.state.binding)
    ensures Do(run, advance, Drain(rounds)) == Do(seen, advance, Drain(rounds - 1))
  {
    var body := NextReply(run.state, run.timestamp).value;
    seen := DoSee(run, advance, body);
    DrainTurn(run, advance, rounds);
    SeeAbides(run, advance, body);
    SeeDone(run, advance, body);
  }

  lemma {:induction false} DrainAbides(run: Run, advance: Reducer, rounds: nat)
    requires ValidBinding(run.state.binding)
    ensures Abides(run.state, Do(run, advance, Drain(rounds)).state)
    decreases rounds
  {
    if run.error == None {
      if rounds == 0 {
        DrainEnds(run, advance);
      } else if NextReply(run.state, run.timestamp) == None {
        DrainTurn(run, advance, rounds);
      } else {
        var seen := AnswerAbides(run, advance, rounds);
        DrainAbides(seen, advance, rounds - 1);
      }
    }
  }

  lemma OfferAbides(run: Run, advance: Reducer, key: nat, p: real, atOpen: bool)
    requires ValidBinding(run.state.binding) && run.error == None && key < |run.state.orders|
    ensures Abides(run.state, DoOffer(run, advance, key, p, atOpen).state)
  {
    var event := MatchEvent(run.state, key, run.state.orders[key], p, atOpen, run.timestamp);
    if event.Some? {
      var e := event.value;
      var paid := Paid(run, e.quantity);
      OfferTurn(run, advance, key, p, atOpen, e);
      PaidRun(run, e.quantity);
      HearTurns(paid, advance, Executed(e));
      SeeAbides(paid, advance, Executed(e));
      DrainAbides(DoSee(paid, advance, Executed(e)), advance, ROUNDS);
    } else {
      NoOffer(run, advance, key, p, atOpen);
    }
  }

  lemma CloseTurn(origin: State, run: Run, advance: Reducer, found: seq<Order>, n: nat) returns (next: Run)
    requires ValidBinding(run.state.binding) && run.error == None && Stands(origin, run)
    requires n < |found| <= |run.state.orders|
    ensures Extends(run, next) && Stands(origin, next) && Abides(run.state, next.state)
    ensures Do(run, advance, CloseOut(found, n)) == Do(next, advance, CloseOut(found, n + 1))
    ensures ClosesOut(run.state, found[n]) ==> next == DoOffer(run, advance, n, run.state.mark.value, false)
  {
    CloseOutTurn(run, advance, found, n);
    if ClosesOut(run.state, found[n]) {
      next := DoOffer(run, advance, n, run.state.mark.value, false);
      OfferAbides(run, advance, n, run.state.mark.value, false);
      StandsExtends(origin, run, next);
    } else {
      next := run;
    }
  }

  lemma {:induction false} ClosesServe(
    origin: State, run: Run, advance: Reducer, found: seq<Order>, n: nat, key: nat, mark: real, last: Run)
    requires ValidBinding(run.state.binding) && run.error == None && Stands(origin, run)
    requires n <= key < |found| <= |run.state.orders| && run.state.mark == Some(mark)
    requires ClosesOut(run.state, found[key])
    requires last == Do(run, advance, CloseOut(found, n)) && last.error == None
    ensures Served(origin, last.journal, |run.journal|, |last.journal|, key, Place(mark, false))
    decreases |found| - n
  {
    var at := Place(mark, false);
    var next := CloseTurn(origin, run, advance, found, n);
    if n == key {
      OfferServes(origin, run, advance, key, at, last.journal);
      ServedWithin(origin, last.journal, |run.journal|, |last.journal|, |run.journal|, |next.journal|, key, at);
    } else {
      ClosesServe(origin, next, advance, found, n + 1, key, mark, last);
      ServedWithin(origin, last.journal, |run.journal|, |last.journal|, |next.journal|, |last.journal|, key, at);
    }
  }

  /**
   The end of the data, when positions are flattened and nothing awaits
   reconciliation: every close that is still open is served at the last mark.
   */
  lemma RunOutServes(origin: State, run: Run, advance: Reducer, key: nat, mark: real, last: Run)
    requires ValidBinding(run.state.binding) && run.error == None && Stands(origin, run)
    requires run.state.binding.endOfData == StopAndFlatten && !run.state.reconciliationRequired
    requires last == RunOut(run, advance) && last.error == None
    requires key < |run.state.orders| && run.state.mark == Some(mark)
    requires run.state.orders[key].intent.purpose == Flatten && !Terminal(run.state.orders[key].status)
    ensures Served(origin, last.journal, |run.journal|, |last.journal|, key, Place(mark, false))
  {
    OutTurns(run, advance);
    ClosesServe(origin, run, advance, run.state.orders, 0, key, mark, last);
  }
}
