/**
 The fixed profile: every order that matches fills in full, at its reference
 moved against it by a fixed fraction. Matching and one-cancels-other are the
 engine's own; what reaches this broker is an entry on a flat account or an
 order that closes the whole position.
 */
module FixedProfile {
  import opened Wrappers
  import opened Rounding
  import opened TradeBook
  import opened ExecutionPricing

  /** Half spread plus slippage, and commission, as fractions. */
  datatype Costs = Costs(adjustment: real, commission: real)

  datatype Order = Order(kind: Kind, takeProfit: bool, buy: bool, trigger: real, size: real)

  /** One attempt at an order on a bar; `affordable` is the engine's own cash check at the fill price. */
  datatype Attempt = Attempt(order: Order, bar: Bar, affordable: bool)

  /** Only an entry limit keeps its cap. */
  function Cap(o: Order): Option<real> {
    if o.kind == LimitOrder && !o.takeProfit then Some(o.trigger) else None
  }

  /** Margin and commission of an entry on a flat account exceed its balance. */
  predicate Unaffordable(b: Book, costs: Costs, o: Order, price: real)
    requires b.leverage > 0.0
  {
    b.size == 0.0 && Value(o.size, price) / b.leverage + Value(Value(o.size, price), costs.commission) > b.balance
  }

  function FillAt(b: Book, costs: Costs, o: Order, reference: real): Fill {
    var price := Adjusted(o.buy, Cap(o), reference, costs.adjustment);
    Fill(b.trade, b.size == 0.0, o.buy, o.size, reference, price, AbsoluteCost(o.size, reference, price),
         Value(Value(o.size, price), costs.commission), 0.0)
  }

  /** What one attempt does to the books. A price that is not positive raises and books nothing. */
  function Attempted(b: Book, costs: Costs, a: Attempt): (t: Book)
    requires b.leverage > 0.0
    ensures t.leverage == b.leverage
  {
    match MatchReference(a.order.kind, a.order.buy, a.order.trigger, a.bar)
    case None => b
    case Some(reference) =>
      var f := FillAt(b, costs, a.order, reference);
      if reference <= 0.0 || f.price <= 0.0 || Unaffordable(b, costs, a.order, f.price) || !a.affordable then b
      else Recorded(b, f)
  }

  /** What the fixed profile charges: the adjustment on the reference, the commission on the price. */
  predicate Charged(costs: Costs, o: Order, f: Fill) {
    var adjusted := f.reference * (if o.buy then 1.0 + costs.adjustment else 1.0 - costs.adjustment);
    && f.price == (if o.kind == LimitOrder && !o.takeProfit
                   then if o.buy then Min(adjusted, o.trigger) else Max(adjusted, o.trigger) else adjusted)
    && f.cost == f.size * Abs(f.price - f.reference)
    && f.commission == f.size * f.price * costs.commission && f.liquidationFee == 0.0
  }

  /** Margin and commission fit the balance; a position may always be closed. */
  predicate Pays(b: Book, costs: Costs, f: Fill)
    requires b.leverage > 0.0
  {
    b.size != 0.0 || f.size * f.price / b.leverage + f.commission <= b.balance
  }

  lemma FillIsCharged(b: Book, costs: Costs, o: Order, reference: real)
    requires b.leverage > 0.0
    ensures var f := FillAt(b, costs, o, reference);
            Charged(costs, o, f) && (Unaffordable(b, costs, o, f.price) <==> !Pays(b, costs, f))
  {
  }

  /** The fill of the whole order at a reference. */
  predicate Whole(b: Book, o: Order, reference: real, f: Fill) {
    f.trade == b.trade && f.entry == (b.size == 0.0) && f.buy == o.buy && f.size == o.size && f.reference == reference
  }

  /**
   An attempt fills its order whole, at the reference the bar reaches it at, or
   books nothing: the second exactly when the bar does not reach it, a price is
   not positive, or the account or the engine refuses it.
   */
  lemma AttemptExplained(b: Book, costs: Costs, a: Attempt)
    requires b.leverage > 0.0 && a.bar.low <= a.bar.open <= a.bar.high
    ensures var reference := MatchReference(a.order.kind, a.order.buy, a.order.trigger, a.bar);
            if reference == None then Attempted(b, costs, a) == b
            else exists f ::
                   && Whole(b, a.order, reference.value, f) && Charged(costs, a.order, f)
                   && Attempted(b, costs, a) == if f.reference > 0.0 && f.price > 0.0 && a.affordable && Pays(b, costs, f)
                                                then Recorded(b, f) else b
  {
    var reference := MatchReference(a.order.kind, a.order.buy, a.order.trigger, a.bar);
    if reference.Some? {
      FillIsCharged(b, costs, a.order, reference.value);
      assert Whole(b, a.order, reference.value, FillAt(b, costs, a.order, reference.value));
    }
  }

  function Traded(b: Book, costs: Costs, attempts: seq<Attempt>): (t: Book)
    requires b.leverage > 0.0
    ensures t.leverage == b.leverage
    decreases |attempts|
  {
    if attempts == [] then b else Traded(Attempted(b, costs, attempts[0]), costs, attempts[1..])
  }

  /** An entry on a flat account, or a close of the whole position. */
  predicate Fits(b: Book, o: Order) {
    o.size > 0.0 && (b.size != 0.0 ==> o.size == Abs(b.size) && (o.buy <==> b.size < 0.0))
  }

  predicate Bracketed(b: Book, costs: Costs, attempts: seq<Attempt>)
    requires b.leverage > 0.0
    decreases |attempts|
  {
    attempts != [] ==>
      Fits(b, attempts[0].order) && Bracketed(Attempted(b, costs, attempts[0]), costs, attempts[1..])
  }

  /** Each fill of the fixed profile is one the books admit: its recorded cost is the signed one. */
  lemma FixedFillAdmissible(b: Book, costs: Costs, o: Order, bar: Bar)
    requires Sound(b) && costs.adjustment >= 0.0 && Fits(b, o)
    requires MatchReference(o.kind, o.buy, o.trigger, bar).Some? && MatchReference(o.kind, o.buy, o.trigger, bar).value > 0.0
    ensures Admissible(b, FillAt(b, costs, o, MatchReference(o.kind, o.buy, o.trigger, bar).value))
  {
    FixedProfileCostsAreSigned(o.kind, o.takeProfit, o.buy, o.trigger, bar, o.size, costs.adjustment);
  }

  lemma AttemptSound(b: Book, costs: Costs, a: Attempt)
    requires Sound(b) && costs.adjustment >= 0.0 && Fits(b, a.order)
    ensures Sound(Attempted(b, costs, a))
  {
    var reference := MatchReference(a.order.kind, a.order.buy, a.order.trigger, a.bar);
    if reference.Some? && reference.value > 0.0 {
      var f := FillAt(b, costs, a.order, reference.value);
      FixedFillAdmissible(b, costs, a.order, a.bar);
      ApplySound(b, Filled(f));
      assert b.size + Signed(f) == 0.0 ==> !f.entry;
    }
  }

  /** Whatever the fixed profile trades, its books stay sound and its audit is silent at any close. */
  lemma {:induction false} FixedRunsBalance(b: Book, costs: Costs, attempts: seq<Attempt>, close: real)
    requires Sound(b) && costs.adjustment >= 0.0 && Bracketed(b, costs, attempts)
    ensures Sound(Traded(b, costs, attempts)) && !AuditRaises(Traded(b, costs, attempts), close)
    decreases |attempts|
  {
    if attempts == [] {
      CostIdentity(b, close);
      TradeIdentity(b, close);
    } else {
      AttemptSound(b, costs, attempts[0]);
      FixedRunsBalance(Attempted(b, costs, attempts[0]), costs, attempts[1..], close);
    }
  }

  /** So is the audit of every run from a fresh account. */
  lemma FixedAuditNeverRaises(initial: real, leverage: real, costs: Costs, attempts: seq<Attempt>, close: real)
    requires leverage > 0.0 && costs.adjustment >= 0.0 && Bracketed(Opened(initial, leverage), costs, attempts)
    ensures !AuditRaises(Traded(Opened(initial, leverage), costs, attempts), close)
  {
    OpenedSound(initial, leverage);
    FixedRunsBalance(Opened(initial, leverage), costs, attempts, close);
  }
}
