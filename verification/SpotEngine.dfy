/**
 The public reducer the session drives. Its recipe decisions are arbitrary: a
 `Recipe` stands for whatever the strategy recipe submits, cancels or decides
 on one observation, limited only by what the reducer admits.
 */
module SpotEngine {
  import opened Wrappers
  import opened Rounding
  import opened SpotTypes

  /** One arbitrary decision of the strategy recipe. */
  datatype Recipe = Recipe(
    submit: seq<Intent>,
    cancel: set<nat>,
    moveStop: bool,
    stop: Option<real>,
    phase: Option<Phase>,
    halt: bool,
    quarantine: bool)

  // ------------------------------------------------------------ fill sums

  /** Base quantity filled on bar `bar`. */
  function BarFills(events: seq<Event>, bar: int): real {
    if events == [] then 0.0
    else
      var last := events[|events| - 1];
      BarFills(events[..|events| - 1], bar) + (if last.bar == bar then last.quantity else 0.0)
  }

  /** Base quantity filled on order `key`. */
  function FilledOf(events: seq<Event>, key: nat): real {
    if events == [] then 0.0
    else
      var last := events[|events| - 1];
      FilledOf(events[..|events| - 1], key) + (if last.key == key then last.quantity else 0.0)
  }

  /** Quote spent or earned on order `key`. */
  function QuoteOf(events: seq<Event>, key: nat): real {
    if events == [] then 0.0
    else
      var last := events[|events| - 1];
      QuoteOf(events[..|events| - 1], key) + (if last.key == key then last.notional else 0.0)
  }

  lemma SumsAppend(events: seq<Event>, e: Event, bar: int, key: nat)
    ensures BarFills(events + [e], bar) == BarFills(events, bar) + (if e.bar == bar then e.quantity else 0.0)
    ensures FilledOf(events + [e], key) == FilledOf(events, key) + (if e.key == key then e.quantity else 0.0)
    ensures QuoteOf(events + [e], key) == QuoteOf(events, key) + (if e.key == key then e.notional else 0.0)
  {
    assert (events + [e])[..|events|] == events;
  }

  lemma {:induction false} NoFillsYet(events: seq<Event>, bar: int)
    requires forall e | e in events :: e.bar < bar
    ensures BarFills(events, bar) == 0.0
  {
    if events != [] {
      NoFillsYet(events[..|events| - 1], bar);
      assert events[|events| - 1] in events;
    }
  }

  // --------------------------------------------------------------- health

  predicate Sized(o: Order) {
    match o.intent.quoteCap
    case Some(cap) => o.filledQuote <= cap
    case None => o.filledQuantity <= o.intent.quantity
  }

  /** A price, if there is one, is a whole number of ticks. */
  predicate PriceOnGrid(p: Option<real>, tick: real) {
    tick > 0.0 && (p.Some? ==> FloorStep(p.value, tick) == p.value)
  }

  predicate OrdersHealthy(orders: seq<Order>, tick: real) {
    forall k | 0 <= k < |orders| ::
      Sized(orders[k]) && PriceOnGrid(orders[k].intent.limitPrice, tick) && WellPosed(orders[k].intent)
  }

  /** A limit order states a limit price, and a close sells. */
  predicate WellPosed(intent: Intent) {
    && (intent.orderType == Limit ==> intent.limitPrice.Some?)
    && (intent.purpose == Flatten ==> intent.side == Sell)
  }

  /** Every order carries exactly the fills the event log records for it. */
  predicate Conserved(orders: seq<Order>, events: seq<Event>) {
    && (forall e | e in events :: e.key < |orders|)
    && (forall k | 0 <= k < |orders| ::
          orders[k].filledQuantity == FilledOf(events, k) && orders[k].filledQuote == QuoteOf(events, k))
  }

  /** Fills on the current bar are covered by allocated liquidity, and that by the allowance. */
  predicate LiquidityHealthy(events: seq<Event>, bar: int, used: real, allowance: real) {
    && 0.0 <= used <= allowance
    && (forall e | e in events :: e.bar <= bar && e.quantity >= 0.0)
    && BarFills(events, bar) <= used
  }

  predicate ControllerHealthy(action: Option<Action>, reason: Option<Reason>, phase: Phase) {
    && (phase == StoppedHolding ==> action.Some?)
    && (reason.Some? <==> action.Some?)
  }

  /** What every committed state satisfies. */
  predicate Healthy(s: State) {
    && ValidBinding(s.binding)
    && OrdersHealthy(s.orders, s.binding.rules.priceTick)
    && PriceOnGrid(s.stop, s.binding.rules.priceTick)
    && Conserved(s.orders, s.events)
    && LiquidityHealthy(s.events, s.barIndex, s.liquidityUsed, s.liquidityAllowance)
    && ControllerHealthy(s.terminalAction, s.terminalReason, s.phase)
  }

  // -------------------------------------------------------------- reducer

  /** Inventory at or below the stop at `price`. */
  predicate StopBreached(s: State, price: real) {
    s.stop.Some? && s.netBase != 0.0 && price <= s.stop.value
  }

  predicate IsWorking(status: Status) {
    status in {Pending, Accepted, Partial}
  }

  /** Terminal commands freeze every owned order before any replacement close. */
  function CancelAll(orders: seq<Order>): (r: seq<Order>)
    ensures |r| == |orders|
    ensures forall k | 0 <= k < |r| ::
              r[k] == if IsWorking(orders[k].status) then orders[k].(status := CancelPending) else orders[k]
  {
    seq(|orders|, k requires 0 <= k < |orders| =>
      if IsWorking(orders[k].status) then orders[k].(status := CancelPending) else orders[k])
  }

  function CancelSome(orders: seq<Order>, keys: set<nat>): (r: seq<Order>)
    ensures |r| == |orders|
    ensures forall k | 0 <= k < |r| ::
              r[k] == if k in keys && IsWorking(orders[k].status) then orders[k].(status := CancelPending) else orders[k]
  {
    seq(|orders|, k requires 0 <= k < |orders| =>
      if k in keys && IsWorking(orders[k].status) then orders[k].(status := CancelPending) else orders[k])
  }

  function MarkReconciled(orders: seq<Order>): (r: seq<Order>)
    ensures |r| == |orders|
    ensures forall k | 0 <= k < |r| ::
              r[k] == if Terminal(orders[k].status) then orders[k].(terminalReconciled := true) else orders[k]
  {
    seq(|orders|, k requires 0 <= k < |orders| =>
      if Terminal(orders[k].status) then orders[k].(terminalReconciled := true) else orders[k])
  }

  function Terminate(s: State, action: Action, reason: Reason): State {
    if s.terminalAction.Some? then s
    else s.(terminalAction := Some(action), terminalReason := Some(reason), phase := Stopping,
            orders := CancelAll(s.orders))
  }

  /** An execution event that continues the order it names. */
  predicate Fits(s: State, e: Event) {
    && e.key < |s.orders|
    && e.sequence == |s.events| + 1
    && e.side == s.orders[e.key].intent.side
    && !Terminal(s.orders[e.key].status)
    && e.cumulativeQuantity == s.orders[e.key].filledQuantity + e.quantity
    && e.cumulativeQuote == s.orders[e.key].filledQuote + e.notional
  }

  function BaseFee(e: Event): real {
    if e.fee.Some? && e.fee.value.asset == BaseAsset then e.fee.value.quantity else 0.0
  }

  function QuoteFee(e: Event): real {
    if e.fee.Some? && e.fee.value.asset == QuoteAsset then e.fee.value.quantity else 0.0
  }

  /** A raced fill on an order being cancelled leaves the cancellation pending. */
  function NextStatus(o: Order, e: Event): Status {
    if o.status == CancelPending && e.status == Partial then CancelPending else e.status
  }

  function Booked(o: Order, e: Event, sequence: nat): Order {
    o.(status := NextStatus(o, e), filledQuantity := e.cumulativeQuantity, filledQuote := e.cumulativeQuote,
       acceptedSequence := if e.status == Accepted then sequence else o.acceptedSequence)
  }

  function Execute(s: State, e: Event): State
    requires Fits(s, e)
  {
    var delta := if e.side == Buy then e.quantity else -e.quantity;
    var quote := if e.side == Buy then -e.notional else e.notional;
    s.(orders := s.orders[e.key := Booked(s.orders[e.key], e, e.sequence)],
       events := s.events + [e],
       netBase := s.netBase + delta - BaseFee(e),
       quoteCash := s.quoteCash + quote - QuoteFee(e))
  }

  /** What the observation itself does, before the recipe reacts. `None` refuses it. */
  function React(s: State, body: Body): Option<State> {
    match body
    case PriceSeen(price, _) =>
      var seen := s.(mark := Some(price));
      Some(if StopBreached(s, price) && s.phase != StoppedHolding
           then Terminate(seen, StopAndFlatten, StopReached) else seen)
    case Executed(e) => if Fits(s, e) then Some(Execute(s, e)) else None
    case Reconciled => Some(s.(orders := MarkReconciled(s.orders)))
    case Commanded(action) => Some(Terminate(s, action, CommandIssued))
    case ClosedBar(_, close) => Some(s.(mark := Some(close)))
  }

  /** New orders rest on the tick grid; after a terminal action only closes are admitted. */
  predicate Admitted(s: State, intent: Intent) {
    && PriceOnGrid(intent.limitPrice, s.binding.rules.priceTick)
    && WellPosed(intent)
    && intent.quantity >= 0.0
    && (intent.quoteCap.Some? ==> intent.quoteCap.value >= 0.0)
    && (s.terminalAction.Some? ==> intent.purpose == Flatten && intent.side == Sell)
  }

  predicate Admissible(s: State, r: Recipe) {
    && (forall i | 0 <= i < |r.submit| :: Admitted(s, r.submit[i]))
    && (r.moveStop ==> PriceOnGrid(r.stop, s.binding.rules.priceTick))
    && (r.phase.Some? ==> s.terminalAction.Some?)
  }

  function NewOrders(submit: seq<Intent>): (r: seq<Order>)
    ensures |r| == |submit|
    ensures forall i | 0 <= i < |r| :: r[i] == Order(submit[i], Pending, 0.0, 0.0, 0, false)
  {
    seq(|submit|, i requires 0 <= i < |submit| => Order(submit[i], Pending, 0.0, 0.0, 0, false))
  }

  function Decide(s: State, r: Recipe): State {
    s.(orders := CancelSome(s.orders, r.cancel) + NewOrders(r.submit),
       stop := if r.moveStop then r.stop else s.stop,
       phase := if r.phase.Some? then r.phase.value else s.phase,
       reconciliationRequired := r.halt,
       quarantine := r.quarantine)
  }

  /** One reducer step; inadmissible recipes have no effect. */
  function Advance(s: State, o: Observation, r: Recipe): Option<State> {
    match React(s, o.body)
    case None => None
    case Some(t) =>
      var u := t.(observationSequence := o.sequence);
      Some(if Admissible(u, r) then Decide(u, r) else u)
  }

  lemma ReactKeepsBinding(s: State, body: Body)
    requires React(s, body).Some?
    ensures React(s, body).value.binding == s.binding
  {
  }

  lemma AdvanceKeepsBinding(s: State, o: Observation, r: Recipe)
    requires Advance(s, o, r).Some?
    ensures Advance(s, o, r).value.binding == s.binding
  {
    ReactKeepsBinding(s, o.body);
  }

  lemma TerminateKeepsIntents(s: State, action: Action, reason: Reason)
    ensures Keyed(s.orders, Terminate(s, action, reason).orders) && Terminate(s, action, reason).barIndex == s.barIndex
  {
  }

  lemma ReactKeepsIntents(s: State, body: Body)
    requires React(s, body).Some?
    ensures Keyed(s.orders, React(s, body).value.orders) && React(s, body).value.barIndex == s.barIndex
  {
    match body
    case PriceSeen(price, _) => TerminateKeepsIntents(s.(mark := Some(price)), StopAndFlatten, StopReached);
    case Executed(e) => assert Keyed(s.orders, Execute(s, e).orders);
    case Reconciled => assert Keyed(s.orders, MarkReconciled(s.orders));
    case Commanded(action) => TerminateKeepsIntents(s, action, CommandIssued);
    case ClosedBar(_, _) =>
  }

  lemma DecideKeepsIntents(s: State, r: Recipe)
    ensures Keyed(s.orders, Decide(s, r).orders)
  {
  }

  /** Intents never change, and the bar is the feed's to count. */
  lemma AdvanceKeepsIntents(s: State, o: Observation, r: Recipe)
    requires Advance(s, o, r).Some?
    ensures Keyed(s.orders, Advance(s, o, r).value.orders) && Advance(s, o, r).value.barIndex == s.barIndex
  {
    ReactKeepsIntents(s, o.body);
    DecideKeepsIntents(React(s, o.body).value.(observationSequence := o.sequence), r);
  }

  /** Only a price or a closed bar moves the mark. */
  lemma AdvanceKeepsMark(s: State, o: Observation, r: Recipe)
    requires Advance(s, o, r).Some? && (o.body.Executed? || o.body.Reconciled?)
    ensures Advance(s, o, r).value.mark == s.mark
  {
  }

  // ------------------------------------------------------------ evolution

  /** Orders keep their key and their intent for ever. */
  ghost predicate Keyed(a: seq<Order>, b: seq<Order>) {
    && |a| <= |b|
    && forall k | 0 <= k < |a| :: b[k].intent == a[k].intent
  }

  /** What any number of reducer steps inside one candle leave in place. */
  ghost predicate Evolves(a: State, b: State) {
    && b.binding == a.binding
    && Keyed(a.orders, b.orders)
    && a.events <= b.events
    && (a.terminalAction.Some? ==> b.terminalAction == a.terminalAction && b.terminalReason == a.terminalReason)
    && b.barIndex == a.barIndex
    && b.barInProgress == a.barInProgress
    && b.lastCandle == a.lastCandle
    && b.liquidityAllowance == a.liquidityAllowance
    && a.liquidityUsed <= b.liquidityUsed
    && b.finished == a.finished
  }

  /** A reducer step touches no liquidity and no consumed stop reference. */
  ghost predicate Reduces(a: State, b: State) {
    && Evolves(a, b)
    && b.liquidityUsed == a.liquidityUsed
    && b.stopReferenceBar == a.stopReferenceBar
  }

  /** The events logged between two states. */
  function Since(a: State, b: State): seq<Event>
    requires a.events <= b.events
  {
    b.events[|a.events|..]
  }

  ghost predicate NoFill(a: State, b: State) {
    a.events <= b.events && forall e | e in Since(a, b) :: e.quantity == 0.0
  }

  ghost predicate NoBuyFill(a: State, b: State) {
    a.events <= b.events && forall e | e in Since(a, b) :: e.side == Buy ==> e.quantity == 0.0
  }

  lemma EvolvesTransitive(a: State, b: State, c: State)
    requires Evolves(a, b) && Evolves(b, c)
    ensures Evolves(a, c)
    ensures Since(a, c) == Since(a, b) + Since(b, c)
    ensures NoFill(a, b) && NoFill(b, c) ==> NoFill(a, c)
    ensures NoBuyFill(a, b) && NoBuyFill(b, c) ==> NoBuyFill(a, c)
  {
    assert c.events == b.events + Since(b, c);
    assert b.events == a.events + Since(a, b);
    assert Since(a, c) == Since(a, b) + Since(b, c);
  }

  lemma ReducesTransitive(a: State, b: State, c: State)
    requires Reduces(a, b) && Reduces(b, c)
    ensures Reduces(a, c) && Since(a, c) == Since(a, b) + Since(b, c)
    ensures NoFill(a, b) && NoFill(b, c) ==> NoFill(a, c)
  {
    EvolvesTransitive(a, b, c);
  }

  /** `b` is `a` but for its journal position and its pending observation. */
  predicate Rewritten(a: State, b: State) {
    b == a.(pendingObservation := b.pendingObservation,
            journalSequence := b.journalSequence, journalSha := b.journalSha)
  }

  lemma RewrittenReduces(a: State, b: State)
    requires Rewritten(a, b)
    ensures Reduces(a, b) && Since(a, b) == [] && b.terminalAction == a.terminalAction
    ensures Healthy(a) <==> Healthy(b)
  {
  }

  // --------------------------------------------------------- conservation

  /** The inventory an event adds: what was bought or sold, less a fee paid in it. */
  function BaseOf(e: Event): real {
    (if e.side == Buy then e.quantity else -e.quantity)
    - (if e.fee.Some? && e.fee.value.asset == BaseAsset then e.fee.value.quantity else 0.0)
  }

  /** The cash an event adds: what was sold or bought for, less a fee paid in it. */
  function CashOf(e: Event): real {
    (if e.side == Buy then -e.notional else e.notional)
    - (if e.fee.Some? && e.fee.value.asset == QuoteAsset then e.fee.value.quantity else 0.0)
  }

  function BaseFlow(events: seq<Event>): real {
    if events == [] then 0.0 else BaseFlow(events[..|events| - 1]) + BaseOf(events[|events| - 1])
  }

  function CashFlow(events: seq<Event>): real {
    if events == [] then 0.0 else CashFlow(events[..|events| - 1]) + CashOf(events[|events| - 1])
  }

  lemma {:induction false} FlowsJoin(x: seq<Event>, y: seq<Event>)
    ensures BaseFlow(x + y) == BaseFlow(x) + BaseFlow(y) && CashFlow(x + y) == CashFlow(x) + CashFlow(y)
  {
    if y == [] {
      assert x + y == x;
    } else {
      FlowsJoin(x, y[..|y| - 1]);
      assert (x + y)[..|x + y| - 1] == x + y[..|y| - 1];
    }
  }

  /** Inventory and cash moved by exactly what was logged. */
  ghost predicate Settles(a: State, b: State) {
    && a.events <= b.events
    && b.netBase == a.netBase + BaseFlow(Since(a, b))
    && b.quoteCash == a.quoteCash + CashFlow(Since(a, b))
  }

  lemma SettlesThen(a: State, b: State, c: State)
    requires Settles(a, b) && Settles(b, c)
    ensures Settles(a, c)
  {
    assert c.events == b.events + Since(b, c);
    assert b.events == a.events + Since(a, b);
    assert Since(a, c) == Since(a, b) + Since(b, c);
    FlowsJoin(Since(a, b), Since(b, c));
  }

  lemma ExecuteSettles(s: State, e: Event)
    requires Fits(s, e)
    ensures Settles(s, Execute(s, e))
  {
    assert Since(s, Execute(s, e)) == [e];
    assert [e][..0] == [];
  }

  lemma ReactSettles(s: State, body: Body)
    requires React(s, body).Some?
    ensures Settles(s, React(s, body).value)
  {
    match body
    case Executed(e) => ExecuteSettles(s, e);
    case Reconciled =>
    case PriceSeen(price, _) =>
    case Commanded(action) =>
    case ClosedBar(_, _) =>
  }

  /** A reducer step moves inventory and cash by what it logs, whatever the recipe decides. */
  lemma AdvanceSettles(s: State, o: Observation, r: Recipe)
    requires Advance(s, o, r).Some?
    ensures Settles(s, Advance(s, o, r).value)
  {
    ReactSettles(s, o.body);
  }

  // ----------------------------------------------------- step preservation

  /** A fill the matcher may report: sized, non-negative, inside the allocated liquidity. */
  ghost predicate Covered(s: State, e: Event) {
    && e.bar == s.barIndex
    && e.quantity >= 0.0
    && BarFills(s.events, s.barIndex) + e.quantity <= s.liquidityUsed
    && (e.key < |s.orders| ==> Sized(Booked(s.orders[e.key], e, e.sequence)))
  }

  lemma SumsOfUnnamed(events: seq<Event>, n: nat, key: nat)
    requires (forall e | e in events :: e.key < n) && key >= n
    ensures FilledOf(events, key) == 0.0 && QuoteOf(events, key) == 0.0
  {
    if events != [] {
      var rest := events[..|events| - 1];
      assert events[|events| - 1] in events;
      SumsOfUnnamed(rest, n, key);
    }
  }

  lemma ExecuteConserves(orders: seq<Order>, events: seq<Event>, e: Event)
    requires Conserved(orders, events) && e.key < |orders|
    requires e.cumulativeQuantity == orders[e.key].filledQuantity + e.quantity
    requires e.cumulativeQuote == orders[e.key].filledQuote + e.notional
    ensures Conserved(orders[e.key := Booked(orders[e.key], e, e.sequence)], events + [e])
  {
    var booked := orders[e.key := Booked(orders[e.key], e, e.sequence)];
    forall k | 0 <= k < |booked|
      ensures booked[k].filledQuantity == FilledOf(events + [e], k)
      ensures booked[k].filledQuote == QuoteOf(events + [e], k)
    {
      SumsAppend(events, e, 0, k);
    }
  }

  lemma ExecuteHealthy(s: State, e: Event)
    requires Healthy(s) && Fits(s, e) && Covered(s, e)
    ensures Healthy(Execute(s, e))
    ensures Reduces(s, Execute(s, e)) && Since(s, Execute(s, e)) == [e]
  {
    ExecuteConserves(s.orders, s.events, e);
    SumsAppend(s.events, e, s.barIndex, e.key);
    var booked := Booked(s.orders[e.key], e, e.sequence);
    assert OrdersHealthy(s.orders[e.key := booked], s.binding.rules.priceTick);
  }

  /** Status-only rewrites of the order book keep its sums and sizes. */
  ghost predicate StatusOnly(a: seq<Order>, b: seq<Order>) {
    && |a| == |b|
    && forall k | 0 <= k < |a| ::
         && b[k].intent == a[k].intent
         && b[k].filledQuantity == a[k].filledQuantity
         && b[k].filledQuote == a[k].filledQuote
  }

  lemma StatusOnlyHealthy(a: seq<Order>, b: seq<Order>, events: seq<Event>, tick: real)
    requires StatusOnly(a, b) && OrdersHealthy(a, tick) && Conserved(a, events)
    ensures OrdersHealthy(b, tick) && Conserved(b, events) && Keyed(a, b)
  {
  }

  lemma TerminateHealthy(s: State, action: Action, reason: Reason)
    requires Healthy(s)
    ensures var t := Terminate(s, action, reason);
            Healthy(t) && Reduces(s, t) && t.events == s.events && t.terminalAction.Some?
  {
    StatusOnlyHealthy(s.orders, CancelAll(s.orders), s.events, s.binding.rules.priceTick);
  }

  lemma ReactHealthy(s: State, body: Body)
    requires Healthy(s) && React(s, body).Some?
    requires body.Executed? ==> Covered(s, body.event)
    ensures var t := React(s, body).value;
            Healthy(t) && Reduces(s, t) && Since(s, t) == (if body.Executed? then [body.event] else [])
  {
    var tick := s.binding.rules.priceTick;
    match body
    case Executed(e) => ExecuteHealthy(s, e);
    case Reconciled => StatusOnlyHealthy(s.orders, MarkReconciled(s.orders), s.events, tick);
    case PriceSeen(price, _) =>
      var seen := s.(mark := Some(price));
      assert Healthy(seen) && Reduces(s, seen);
      TerminateHealthy(seen, StopAndFlatten, StopReached);
    case Commanded(action) => TerminateHealthy(s, action, CommandIssued);
    case ClosedBar(_, _) =>
  }

  lemma AppendOrders(orders: seq<Order>, submit: seq<Intent>, events: seq<Event>, tick: real)
    requires OrdersHealthy(orders, tick) && Conserved(orders, events)
    requires forall i | 0 <= i < |submit| ::
               && PriceOnGrid(submit[i].limitPrice, tick) && WellPosed(submit[i]) && submit[i].quantity >= 0.0
               && (submit[i].quoteCap.Some? ==> submit[i].quoteCap.value >= 0.0)
    ensures var all := orders + NewOrders(submit);
            OrdersHealthy(all, tick) && Conserved(all, events) && Keyed(orders, all)
  {
    var all := orders + NewOrders(submit);
    forall k | 0 <= k < |all|
      ensures all[k].filledQuantity == FilledOf(events, k) && all[k].filledQuote == QuoteOf(events, k)
      ensures Sized(all[k]) && PriceOnGrid(all[k].intent.limitPrice, tick) && WellPosed(all[k].intent)
    {
      if k >= |orders| {
        SumsOfUnnamed(events, |orders|, k);
        assert all[k] == Order(submit[k - |orders|], Pending, 0.0, 0.0, 0, false);
      }
    }
  }

  lemma DecideHealthy(s: State, r: Recipe)
    requires Healthy(s) && Admissible(s, r)
    ensures Healthy(Decide(s, r)) && Reduces(s, Decide(s, r)) && Since(s, Decide(s, r)) == []
  {
    var tick := s.binding.rules.priceTick;
    var kept := CancelSome(s.orders, r.cancel);
    StatusOnlyHealthy(s.orders, kept, s.events, tick);
    AppendOrders(kept, r.submit, s.events, tick);
  }

  /** Every reducer step, whatever the recipe decides, keeps the state healthy. */
  lemma AdvanceHealthy(s: State, o: Observation, r: Recipe)
    requires Healthy(s) && Advance(s, o, r).Some?
    requires o.body.Executed? ==> Covered(s, o.body.event)
    ensures var t := Advance(s, o, r).value;
            Healthy(t) && Reduces(s, t) && Since(s, t) == (if o.body.Executed? then [o.body.event] else [])
  {
    ReactHealthy(s, o.body);
    var t := React(s, o.body).value;
    var u := t.(observationSequence := o.sequence);
    assert Healthy(u) && Reduces(s, u) && Since(s, u) == Since(s, t);
    if Admissible(u, r) {
      DecideHealthy(u, r);
      EvolvesTransitive(s, u, Decide(u, r));
    }
  }

  /** An observation that must leave a terminal action standing. */
  predicate Terminates(s: State, body: Body) {
    body.Commanded? || (body.PriceSeen? && StopBreached(s, body.price))
  }

  /** A terminal command, or a price at or below the stop with inventory, terminates. */
  lemma TerminationStands(s: State, o: Observation, r: Recipe)
    requires Healthy(s) && Advance(s, o, r).Some? && Terminates(s, o.body)
    ensures Advance(s, o, r).value.terminalAction.Some?
  {
    var t := React(s, o.body).value;
    assert t.terminalAction.Some?;
    var u := t.(observationSequence := o.sequence);
    assert Decide(u, r).terminalAction == u.terminalAction;
  }
}
