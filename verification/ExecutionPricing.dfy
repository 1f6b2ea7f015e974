/**
 Reference prices an order matches at, the adverse adjustment of both costed
 profiles, and what that adjustment costs.
 */
module ExecutionPricing {
  import opened Wrappers
  import opened Rounding
  import opened TradeBook

  datatype Kind = MarketOrder | LimitOrder | StopOrder

  datatype Bar = Bar(timestamp: int, open: real, high: real, low: real, close: real, volume: real)

  /** The reference an order matches at on a bar: the open when it is already there, else its trigger. */
  function MatchReference(kind: Kind, buy: bool, trigger: real, bar: Bar): Option<real> {
    match kind
    case MarketOrder => Some(bar.open)
    case LimitOrder =>
      if buy then
        if trigger >= bar.open then Some(bar.open) else if trigger >= bar.low then Some(trigger) else None
      else
        if trigger <= bar.open then Some(bar.open) else if trigger <= bar.high then Some(trigger) else None
    case StopOrder =>
      if buy then
        if bar.open >= trigger then Some(bar.open) else if bar.high >= trigger then Some(trigger) else None
      else
        if bar.open <= trigger then Some(bar.open) else if bar.low <= trigger then Some(trigger) else None
  }

  /**
   An order is matched exactly when the bar reaches it: a limit when the market
   comes to its price, a stop when it runs away to it. A limit then gets the
   better of the open and its price, a stop the worse.
   */
  lemma MatchedWhenReached(kind: Kind, buy: bool, trigger: real, bar: Bar)
    requires bar.low <= bar.open <= bar.high
    ensures var reached := match kind
                           case MarketOrder => true
                           case LimitOrder => if buy then bar.low <= trigger else bar.high >= trigger
                           case StopOrder => if buy then bar.high >= trigger else bar.low <= trigger;
            var reference := match kind
                             case MarketOrder => bar.open
                             case LimitOrder => if buy then Min(bar.open, trigger) else Max(bar.open, trigger)
                             case StopOrder => if buy then Max(bar.open, trigger) else Min(bar.open, trigger);
            MatchReference(kind, buy, trigger, bar) == if reached then Some(reference) else None
  {
  }

  function Adverse(buy: bool, reference: real, fraction: real): real {
    if buy then reference * (1.0 + fraction) else reference * (1.0 - fraction)
  }

  /** Only an entry limit caps its adjusted price; a take-profit pays the full adjustment. */
  function Adjusted(buy: bool, cap: Option<real>, reference: real, fraction: real): real {
    var adjusted := Adverse(buy, reference, fraction);
    match cap
    case None => adjusted
    case Some(limit) => if buy then Min(adjusted, limit) else Max(adjusted, limit)
  }

  /** The price is at or inside its cap. */
  predicate Inside(buy: bool, cap: Option<real>, reference: real) {
    cap.Some? ==> if buy then reference <= cap.value else reference >= cap.value
  }

  function SignedCost(buy: bool, size: real, reference: real, price: real): real {
    Value(if buy then size else -size, price - reference)
  }

  /** The fixed profile records the absolute price difference as a cost. */
  function AbsoluteCost(size: real, reference: real, price: real): real {
    Value(size, Abs(price - reference))
  }

  /** A limit only ever matches at or inside its price. */
  lemma LimitMatchesInside(buy: bool, trigger: real, bar: Bar)
    requires MatchReference(LimitOrder, buy, trigger, bar).Some?
    ensures Inside(buy, Some(trigger), MatchReference(LimitOrder, buy, trigger, bar).value)
  {
  }

  lemma AdverseIsAdverse(buy: bool, reference: real, fraction: real)
    requires reference > 0.0 && fraction >= 0.0
    ensures buy ==> Adverse(buy, reference, fraction) >= reference
    ensures !buy ==> Adverse(buy, reference, fraction) <= reference
  {
    assert reference * fraction >= 0.0;
    assert reference * (1.0 + fraction) == reference + reference * fraction;
    assert reference * (1.0 - fraction) == reference - reference * fraction;
  }

  /**
   The absolute cost the fixed profile records equals the signed cost the
   audit needs exactly when the reference is at or inside the order's cap.
   */
  lemma AbsoluteCostIsSigned(buy: bool, cap: Option<real>, size: real, reference: real, fraction: real)
    requires size > 0.0 && reference > 0.0 && fraction >= 0.0
    ensures var price := Adjusted(buy, cap, reference, fraction);
            AbsoluteCost(size, reference, price) == SignedCost(buy, size, reference, price)
            <==> Inside(buy, cap, reference)
  {
    AdverseIsAdverse(buy, reference, fraction);
    var d := Adjusted(buy, cap, reference, fraction) - reference;
    AbsIsSignedValue(size, d, buy);
  }

  lemma AbsIsSignedValue(size: real, d: real, buy: bool)
    requires size > 0.0
    ensures Value(size, Abs(d)) == Value(if buy then size else -size, d) <==> (if buy then d >= 0.0 else d <= 0.0)
  {
    assert d > 0.0 ==> size * d > 0.0;
    assert d < 0.0 ==> size * d < 0.0;
  }

  /** Hence every matched fill of the fixed profile is one the books admit. */
  lemma FixedProfileCostsAreSigned(kind: Kind, takeProfit: bool, buy: bool, trigger: real, bar: Bar, size: real, fraction: real)
    requires size > 0.0 && fraction >= 0.0
    requires MatchReference(kind, buy, trigger, bar).Some? && MatchReference(kind, buy, trigger, bar).value > 0.0
    ensures var reference := MatchReference(kind, buy, trigger, bar).value;
            var cap := if kind == LimitOrder && !takeProfit then Some(trigger) else None;
            var price := Adjusted(buy, cap, reference, fraction);
            AbsoluteCost(size, reference, price) == SignedCost(buy, size, reference, price)
  {
    var reference := MatchReference(kind, buy, trigger, bar).value;
    var cap := if kind == LimitOrder && !takeProfit then Some(trigger) else None;
    AbsoluteCostIsSigned(buy, cap, size, reference, fraction);
    if kind == LimitOrder {
      LimitMatchesInside(buy, trigger, bar);
    }
  }
}
