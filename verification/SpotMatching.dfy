/**
 The exact Decimal matcher: one order against one reference price under the
 liquidity that is left on the bar.
 */
module SpotMatching {
  import opened Wrappers
  import opened Rounding
  import opened SpotTypes

  function Adjustment(p: Policy): real {
    (p.spreadBps / 2.0 + p.slippageBps) / 10000.0
  }

  /** The reference moved by half the spread plus slippage, before rounding. */
  function RawPrice(policy: Policy, side: Side, reference: real): real {
    reference * (if side == Buy then 1.0 + Adjustment(policy) else 1.0 - Adjustment(policy))
  }

  /** Reference price moved adversely and rounded adversely to a tick. */
  function TickPrice(rules: Rules, policy: Policy, side: Side, reference: real): real
    requires ValidRules(rules)
  {
    match side
    case Buy => CeilStep(RawPrice(policy, side, reference), rules.priceTick)
    case Sell => FloorStep(RawPrice(policy, side, reference), rules.priceTick)
  }

  function FillPrice(rules: Rules, policy: Policy, intent: Intent, reference: real): real
    requires ValidRules(rules)
  {
    var price := TickPrice(rules, policy, intent.side, reference);
    match intent.limitPrice
    case None => price
    case Some(limit) => if intent.side == Buy then Min(price, limit) else Max(price, limit)
  }

  predicate PriceAllowed(rules: Rules, price: real) {
    && rules.minimumPrice <= price <= rules.maximumPrice
    && (rules.priceBand.Some? ==> rules.priceBand.value.0 <= price <= rules.priceBand.value.1)
  }

  function Step(rules: Rules, orderType: OrderType): real {
    if orderType == Market then rules.marketQuantityStep else rules.quantityStep
  }

  /** What the order still wants, in base units at `price`. */
  function Remaining(order: Order, price: real): real
    requires price > 0.0
  {
    match order.intent.quoteCap
    case Some(cap) => (cap - order.filledQuote) / price
    case None => order.intent.quantity - order.filledQuantity
  }

  function OrElse(preferred: Option<real>, fallback: real): real {
    if preferred.Some? && preferred.value != 0.0 then preferred.value else fallback
  }

  /** An untouched market order is refused outright when its size breaks a filter. */
  predicate MarketRefused(rules: Rules, order: Order, requested: real, price: real) {
    && order.intent.orderType == Market
    && order.filledQuantity == 0.0
    && (|| requested < OrElse(rules.marketMinimumQuantity, rules.minimumQuantity)
        || requested > OrElse(rules.marketMaximumQuantity, rules.maximumQuantity)
        || (rules.applyNotionalToMarket
            && !(rules.minimumNotional <= requested * price <= rules.maximumNotional)))
  }

  function StatusEvent(s: State, key: nat, order: Order, status: Status, timestamp: int): Event {
    Event(key, |s.events| + 1, timestamp, s.barIndex, order.intent.side, order.intent.purpose, status,
          order.filledQuantity, order.filledQuote, 0.0, 0.0, 0.0, None)
  }

  function FeeRate(policy: Policy, intent: Intent, atOpen: bool): real {
    if intent.orderType == Market || atOpen then policy.takerFeeBps else policy.makerFeeBps
  }

  function FeeFor(policy: Policy, value: real, price: real): Option<Fee>
    requires price > 0.0 && ValidPolicy(policy)
  {
    var quantity := match policy.feeAsset
      case BaseAsset => value / price
      case QuoteAsset => value
      case ThirdAsset => value / policy.thirdAssetQuotePrice;
    if quantity == 0.0 then None
    else Some(Fee(policy.feeAsset, quantity, if policy.feeAsset == ThirdAsset then Some(value) else None))
  }

  /** The unallocated part of this candle's volume allowance. */
  function Unused(s: State): real {
    s.liquidityAllowance - s.liquidityUsed
  }

  /** The fee's worth in quote. */
  function FeeWorth(policy: Policy, intent: Intent, atOpen: bool, notional: real): real {
    notional * FeeRate(policy, intent, atOpen) / 10000.0
  }

  /** The quantity taken from `remaining` demand and `unused` allowance. */
  function Take(remaining: real, unused: real, step: real): real
    requires step > 0.0
  {
    FloorStep(Min(FloorStep(remaining, step), unused), step)
  }

  /** What a quote cap still buys at `price` once `quantity` more is bought. */
  function CapLeft(order: Order, cap: real, price: real, quantity: real): real
    requires price > 0.0
  {
    (cap - order.filledQuote - quantity * price) / price
  }

  /** Is an order that now takes `quantity` at `price` full? */
  predicate Full(order: Order, price: real, quantity: real, step: real)
    requires price > 0.0 && step > 0.0
  {
    match order.intent.quoteCap
    case None => quantity == FloorStep(Remaining(order, price), step)
    case Some(cap) => FloorStep(CapLeft(order, cap, price, quantity), step) == 0.0
  }

  function Notional(quantity: real, price: real): real {
    quantity * price
  }

  function FillEvent(s: State, key: nat, order: Order, price: real, quantity: real, atOpen: bool, timestamp: int): Event
    requires ValidBinding(s.binding) && price > 0.0
  {
    var intent := order.intent;
    var notional := Notional(quantity, price);
    Event(key, |s.events| + 1, timestamp, s.barIndex, intent.side, intent.purpose,
          if Full(order, price, quantity, Step(s.binding.rules, intent.orderType)) then Filled else Partial,
          order.filledQuantity + quantity, order.filledQuote + notional, quantity, price, notional,
          FeeFor(s.binding.policy, FeeWorth(s.binding.policy, intent, atOpen, notional), price))
  }

  function MatchEvent(s: State, key: nat, order: Order, reference: real, atOpen: bool, timestamp: int): (r: Option<Event>)
    requires ValidBinding(s.binding)
  {
    var rules, intent := s.binding.rules, order.intent;
    var price := FillPrice(rules, s.binding.policy, intent, reference);
    if !PriceAllowed(rules, price) then Some(StatusEvent(s, key, order, Rejected, timestamp))
    else
      var step := Step(rules, intent.orderType);
      var requested := FloorStep(Remaining(order, price), step);
      if MarketRefused(rules, order, requested, price) then
        Some(StatusEvent(s, key, order, Rejected, timestamp))
      else
        var quantity := FloorStep(Min(requested, Unused(s)), step);
        if quantity <= 0.0 then None
        else Some(FillEvent(s, key, order, price, quantity, atOpen, timestamp))
  }

  // ---------------------------------------------------------------- prices

  lemma RawPriceIsAdverse(policy: Policy, side: Side, reference: real)
    requires ValidPolicy(policy) && reference > 0.0
    ensures side == Buy ==> RawPrice(policy, side, reference) >= reference
    ensures side == Sell ==> RawPrice(policy, side, reference) <= reference
  {
    var a := Adjustment(policy);
    assert a >= 0.0;
    if side == Buy {
      MulMono(1.0, 1.0 + a, reference);
    } else {
      MulMono(1.0 - a, 1.0, reference);
    }
  }

  /** The tick price is the nearest tick on the adverse side of the raw price. */
  lemma TickIsNearest(rules: Rules, policy: Policy, side: Side, reference: real, k: int)
    requires ValidRules(rules)
    ensures var moved := (policy.spreadBps / 2.0 + policy.slippageBps) / 10000.0;
            var raw := reference * (if side == Buy then 1.0 + moved else 1.0 - moved);
            var tick := TickPrice(rules, policy, side, reference);
            && raw == RawPrice(policy, side, reference)
            && OnGrid(tick, rules.priceTick)
            && (side == Buy ==>
                  && raw <= tick
                  && (raw <= Multiple(k, rules.priceTick) ==> tick <= Multiple(k, rules.priceTick)))
            && (side == Sell ==>
                  && tick <= raw
                  && (Multiple(k, rules.priceTick) <= raw ==> Multiple(k, rules.priceTick) <= tick))
  {
    var raw := RawPrice(policy, side, reference);
    match side
    case Buy =>
      CeilStepBounds(raw, rules.priceTick);
      CeilStepSmallest(raw, rules.priceTick, k);
    case Sell =>
      FloorStepBounds(raw, rules.priceTick);
      FloorStepLargest(raw, rules.priceTick, k);
  }

  /**
   A fill never beats the adversely moved reference unless the order's own
   limit does, never passes that limit, and stays on the tick grid.
   */
  lemma PriceIsAdverse(rules: Rules, policy: Policy, intent: Intent, reference: real)
    requires ValidRules(rules) && ValidPolicy(policy) && reference > 0.0
    ensures var p := FillPrice(rules, policy, intent, reference);
            var limit := intent.limitPrice;
            && (intent.side == Buy ==>
                  && (limit.Some? ==> p <= limit.value)
                  && (limit == Some(p) || p >= RawPrice(policy, Buy, reference) >= reference))
            && (intent.side == Sell ==>
                  && (limit.Some? ==> p >= limit.value)
                  && (limit == Some(p) || p <= RawPrice(policy, Sell, reference) <= reference))
            && (limit == None || OnGrid(limit.value, rules.priceTick) ==> OnGrid(p, rules.priceTick))
  {
    RawPriceIsAdverse(policy, intent.side, reference);
    TickIsNearest(rules, policy, intent.side, reference, 0);
  }

  // ------------------------------------------------------------ quantities

  /** An event that carries a fill. */
  predicate IsFill(r: Option<Event>) {
    r.Some? && r.value.quantity > 0.0
  }

  /** The order once a fill has been booked on it. */
  function AfterFill(order: Order, e: Event): Order {
    order.(filledQuantity := e.cumulativeQuantity, filledQuote := e.cumulativeQuote)
  }

  /** A fill takes exactly its quantity off the demand at its price. */
  lemma RemainingAfter(s: State, key: nat, order: Order, price: real, quantity: real, atOpen: bool, timestamp: int)
    requires ValidBinding(s.binding) && price > 0.0
    ensures Remaining(AfterFill(order, FillEvent(s, key, order, price, quantity, atOpen, timestamp)), price)
         == Remaining(order, price) - quantity
  {
    if order.intent.quoteCap.Some? {
      var left := order.intent.quoteCap.value - order.filledQuote;
      DivSub(left, quantity, price);
      assert order.intent.quoteCap.value - (order.filledQuote + quantity * price) == left - quantity * price;
    }
  }

  lemma DivSub(left: real, quantity: real, price: real)
    requires price > 0.0
    ensures (left - quantity * price) / price == left / price - quantity
  {
    var x := left / price;
    MulDiv(left, price);
    assert left - quantity * price == (x - quantity) * price;
    DivCancel(x - quantity, price);
  }

  lemma DivCancel(x: real, price: real)
    requires price > 0.0
    ensures (x * price) / price == x
  {
  }

  lemma TakeIsLargest(remaining: real, unused: real, step: real, c: real)
    requires step > 0.0
    ensures var q := Take(remaining, unused, step);
            && OnGrid(q, step)
            && q <= remaining && q <= unused
            && (OnGrid(c, step) && c <= remaining && c <= unused ==> c <= q)
            && (q > 0.0 ==> q >= step)
  {
    var requested := FloorStep(remaining, step);
    var q := Take(remaining, unused, step);
    FloorStepBounds(remaining, step);
    FloorStepBounds(Min(requested, unused), step);
    if OnGrid(c, step) {
      var k :| c == Multiple(k, step);
      FloorStepLargest(remaining, step, k);
      FloorStepLargest(Min(requested, unused), step, k);
    }
    if q > 0.0 {
      GridPositive(q, step);
    }
  }

  /** A matched fill is `FillEvent` of the fill price and the quantity taken. */
  lemma FillShape(s: State, key: nat, order: Order, reference: real, atOpen: bool, timestamp: int)
    requires ValidBinding(s.binding)
    requires IsFill(MatchEvent(s, key, order, reference, atOpen, timestamp))
    ensures var price := FillPrice(s.binding.rules, s.binding.policy, order.intent, reference);
            && price > 0.0
            && var quantity := Take(Remaining(order, price), Unused(s), Step(s.binding.rules, order.intent.orderType));
               quantity > 0.0
               && MatchEvent(s, key, order, reference, atOpen, timestamp)
                  == Some(FillEvent(s, key, order, price, quantity, atOpen, timestamp))
  {
  }

  /**
   A fill is the largest whole number of steps that neither the order's
   remaining demand nor the candle's unused allowance forbids.
   */
  lemma FillIsLargest(s: State, key: nat, order: Order, reference: real, atOpen: bool, timestamp: int, c: real)
    requires ValidBinding(s.binding)
    requires IsFill(MatchEvent(s, key, order, reference, atOpen, timestamp))
    ensures var e := MatchEvent(s, key, order, reference, atOpen, timestamp).value;
            var step := Step(s.binding.rules, order.intent.orderType);
            var price := FillPrice(s.binding.rules, s.binding.policy, order.intent, reference);
            && e.price == price > 0.0
            && OnGrid(e.quantity, step) && e.quantity >= step
            && e.quantity <= Remaining(order, price)
            && e.quantity <= Unused(s)
            && (OnGrid(c, step) && c <= Remaining(order, price) && c <= Unused(s) ==> c <= e.quantity)
  {
    FillShape(s, key, order, reference, atOpen, timestamp);
    var price := FillPrice(s.binding.rules, s.binding.policy, order.intent, reference);
    TakeIsLargest(Remaining(order, price), Unused(s), Step(s.binding.rules, order.intent.orderType), c);
  }

  lemma CapLeftIsDemand(order: Order, cap: real, price: real, quantity: real)
    requires price > 0.0 && order.intent.quoteCap == Some(cap)
    ensures CapLeft(order, cap, price, quantity) == Remaining(order, price) - quantity
  {
    DivSub(cap - order.filledQuote, quantity, price);
  }

  /** Neither definition of a completed fill differs from the other. */
  lemma FullnessAgrees(order: Order, price: real, quantity: real, step: real, cap: real)
    requires price > 0.0 && step > 0.0 && OnGrid(quantity, step)
    requires order.intent.quoteCap == Some(cap)
    ensures FloorStep(CapLeft(order, cap, price, quantity), step) == 0.0
       <==> quantity == FloorStep(Remaining(order, price), step)
  {
    CapLeftIsDemand(order, cap, price, quantity);
    FloorStepMinus(Remaining(order, price), quantity, step);
  }

  /** Demand is exhausted exactly when the whole floored demand was taken. */
  lemma ExhaustedExactly(remaining: real, quantity: real, step: real)
    requires step > 0.0 && OnGrid(quantity, step) && quantity <= remaining
    ensures quantity == FloorStep(remaining, step) <==> remaining - quantity < step
  {
    var m :| quantity == Multiple(m, step);
    FloorStepBounds(remaining, step);
    FloorStepLargest(remaining, step, m);
    FloorStepLargest(remaining, step, m + 1);
    MultipleAdd(m, 1, step);
    MultipleOne(step);
    MultipleMono(m, Lots(remaining, step), step);
  }

  /**
   A fill is reported `filled` exactly when less than one step of demand is
   left at that price, whichever way the order states its size.
   */
  lemma FilledExactlyWhenExhausted(s: State, key: nat, order: Order, reference: real, atOpen: bool, timestamp: int)
    requires ValidBinding(s.binding)
    requires IsFill(MatchEvent(s, key, order, reference, atOpen, timestamp))
    ensures var e := MatchEvent(s, key, order, reference, atOpen, timestamp).value;
            && (e.status == Filled || e.status == Partial)
            && (e.status == Filled <==> Remaining(AfterFill(order, e), e.price) < Step(s.binding.rules, order.intent.orderType))
  {
    FillShape(s, key, order, reference, atOpen, timestamp);
    var step := Step(s.binding.rules, order.intent.orderType);
    var price := FillPrice(s.binding.rules, s.binding.policy, order.intent, reference);
    var quantity := Take(Remaining(order, price), Unused(s), step);
    TakeIsLargest(Remaining(order, price), Unused(s), step, 0.0);
    RemainingAfter(s, key, order, price, quantity, atOpen, timestamp);
    FullExactly(order, price, quantity, step);
  }

  /** Both definitions of a full order say the floored demand was taken whole. */
  lemma FullMeans(order: Order, price: real, quantity: real, step: real)
    requires price > 0.0 && step > 0.0 && OnGrid(quantity, step)
    ensures Full(order, price, quantity, step) <==> quantity == FloorStep(Remaining(order, price), step)
  {
    match order.intent.quoteCap
    case None =>
    case Some(cap) => FullnessAgrees(order, price, quantity, step, cap);
  }

  lemma FullExactly(order: Order, price: real, quantity: real, step: real)
    requires price > 0.0 && step > 0.0 && OnGrid(quantity, step) && quantity <= Remaining(order, price)
    ensures Full(order, price, quantity, step) <==> Remaining(order, price) - quantity < step
  {
    FullMeans(order, price, quantity, step);
    ExhaustedExactly(Remaining(order, price), quantity, step);
  }

  /** No fill takes an order past its quantity or its quote cap. */
  lemma FillRespectsSize(s: State, key: nat, order: Order, reference: real, atOpen: bool, timestamp: int)
    requires ValidBinding(s.binding)
    requires IsFill(MatchEvent(s, key, order, reference, atOpen, timestamp))
    ensures var e := MatchEvent(s, key, order, reference, atOpen, timestamp).value;
            match order.intent.quoteCap
            case Some(cap) => e.cumulativeQuote <= cap
            case None => e.cumulativeQuantity <= order.intent.quantity
  {
    FillShape(s, key, order, reference, atOpen, timestamp);
    var price := FillPrice(s.binding.rules, s.binding.policy, order.intent, reference);
    var quantity := Take(Remaining(order, price), Unused(s), Step(s.binding.rules, order.intent.orderType));
    TakeIsLargest(Remaining(order, price), Unused(s), Step(s.binding.rules, order.intent.orderType), 0.0);
    SizeRespected(order, price, quantity);
  }

  lemma SizeRespected(order: Order, price: real, quantity: real)
    requires price > 0.0 && quantity <= Remaining(order, price)
    ensures match order.intent.quoteCap
            case Some(cap) => order.filledQuote + Notional(quantity, price) <= cap
            case None => order.filledQuantity + quantity <= order.intent.quantity
  {
    if order.intent.quoteCap.Some? {
      var left := order.intent.quoteCap.value - order.filledQuote;
      MulDiv(left, price);
      MulMono(quantity, left / price, price);
    }
  }

  /** Silence means that not even one step fits. */
  lemma SilentOnlyWithoutRoom(s: State, key: nat, order: Order, reference: real, atOpen: bool, timestamp: int)
    requires ValidBinding(s.binding)
    requires MatchEvent(s, key, order, reference, atOpen, timestamp) == None
    ensures var rules := s.binding.rules;
            var price := FillPrice(rules, s.binding.policy, order.intent, reference);
            && price > 0.0
            && Min(Remaining(order, price), Unused(s)) < Step(rules, order.intent.orderType)
  {
    var rules := s.binding.rules;
    var price := FillPrice(rules, s.binding.policy, order.intent, reference);
    var step := Step(rules, order.intent.orderType);
    var remaining := Remaining(order, price);
    FloorStepLargest(remaining, step, 1);
    FloorStepLargest(Min(FloorStep(remaining, step), Unused(s)), step, 1);
    MultipleOne(step);
  }

  /** A price, quantity or notional outside what the instrument admits. */
  predicate OutOfBand(rules: Rules, price: real) {
    || price < rules.minimumPrice || price > rules.maximumPrice
    || (rules.priceBand.Some? && (price < rules.priceBand.value.0 || price > rules.priceBand.value.1))
  }

  /** The market filter if the instrument has one, else the general one. */
  predicate OffMarketSize(rules: Rules, quantity: real, price: real) {
    || quantity < (match rules.marketMinimumQuantity
                   case None => rules.minimumQuantity
                   case Some(q) => if q == 0.0 then rules.minimumQuantity else q)
    || quantity > (match rules.marketMaximumQuantity
                   case None => rules.maximumQuantity
                   case Some(q) => if q == 0.0 then rules.maximumQuantity else q)
    || (rules.applyNotionalToMarket
        && (quantity * price < rules.minimumNotional || quantity * price > rules.maximumNotional))
  }

  /**
   The matcher refuses an order exactly when its fill price is out of band, or
   an untouched market order's whole demand is of a size its market does not
   take; what it refuses it does not fill.
   */
  lemma RefusedExactly(s: State, key: nat, order: Order, reference: real, atOpen: bool, timestamp: int)
    requires ValidBinding(s.binding)
    ensures var rules, event := s.binding.rules, MatchEvent(s, key, order, reference, atOpen, timestamp);
            var price := FillPrice(rules, s.binding.policy, order.intent, reference);
            var refused := || OutOfBand(rules, price)
                           || (price > 0.0 && order.intent.orderType == Market && order.filledQuantity == 0.0
                               && OffMarketSize(rules, FloorStep(Remaining(order, price), rules.marketQuantityStep), price));
            && (event.Some? && event.value.status == Rejected <==> refused)
            && (refused ==> event.value.quantity == 0.0)
            && (IsFill(event) ==> price == event.value.price && !OutOfBand(rules, price))
  {
    var rules := s.binding.rules;
    var price := FillPrice(rules, s.binding.policy, order.intent, reference);
    assert PriceAllowed(rules, price) <==> !OutOfBand(rules, price);
    if price > 0.0 {
      var requested := FloorStep(Remaining(order, price), Step(rules, order.intent.orderType));
      MarketRefusedExactly(rules, order, requested, price);
    }
  }

  lemma MarketRefusedExactly(rules: Rules, order: Order, requested: real, price: real)
    ensures MarketRefused(rules, order, requested, price)
       <==> order.intent.orderType == Market && order.filledQuantity == 0.0 && OffMarketSize(rules, requested, price)
  {
  }

  /** `fee`, charged at `price`, is worth `worth` in quote. */
  predicate Pays(policy: Policy, fee: Option<Fee>, worth: real, price: real) {
    match fee
    case None => worth == 0.0
    case Some(f) =>
      && worth != 0.0
      && f.asset == policy.feeAsset
      && (f.quoteValue == if f.asset == ThirdAsset then Some(worth) else None)
      && (match f.asset
          case BaseAsset => f.quantity * price == worth
          case QuoteAsset => f.quantity == worth
          case ThirdAsset => f.quantity * policy.thirdAssetQuotePrice == worth)
  }

  lemma FeeValue(policy: Policy, worth: real, price: real)
    requires price > 0.0 && ValidPolicy(policy)
    ensures Pays(policy, FeeFor(policy, worth, price), worth, price)
  {
    MulDiv(worth, price);
    MulDiv(worth, policy.thirdAssetQuotePrice);
  }

  /** A limit that rested past the open pays the maker's rate on its notional, any other fill the taker's. */
  lemma MakerOrTaker(policy: Policy, intent: Intent, atOpen: bool, notional: real)
    ensures FeeWorth(policy, intent, atOpen, notional)
         == if intent.orderType == Limit && !atOpen then notional * policy.makerFeeBps / 10000.0
            else notional * policy.takerFeeBps / 10000.0
  {
  }

  /** Whatever asset pays the fee, its value in quote is the fee rate on the notional. */
  lemma FeeIsWorthItsRate(s: State, key: nat, order: Order, reference: real, atOpen: bool, timestamp: int)
    requires ValidBinding(s.binding)
    requires IsFill(MatchEvent(s, key, order, reference, atOpen, timestamp))
    ensures var e := MatchEvent(s, key, order, reference, atOpen, timestamp).value;
            && e.notional == Notional(e.quantity, e.price)
            && Pays(s.binding.policy, e.fee, FeeWorth(s.binding.policy, order.intent, atOpen, e.notional), e.price)
  {
    FillShape(s, key, order, reference, atOpen, timestamp);
    var price := FillPrice(s.binding.rules, s.binding.policy, order.intent, reference);
    var quantity := Take(Remaining(order, price), Unused(s), Step(s.binding.rules, order.intent.orderType));
    FeeValue(s.binding.policy, FeeWorth(s.binding.policy, order.intent, atOpen, Notional(quantity, price)), price);
  }
}
