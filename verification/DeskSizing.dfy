/**
 How much an entry takes: the most whole lots the order asks for whose loss at
 the modelled stop, on top of what the position already stands to lose, fits
 the order's budget, and of those the most the bar's volume leaves.
 */
module DeskSizing {
  import opened Wrappers
  import opened Rounding
  import opened TradeBook
  import opened ExecutionPricing
  import opened StopRisk
  import opened DeskTypes
  import opened DeskExecution
  import opened DeskStructure
  import opened DeskSafety
  import opened DeskEntry
  import opened DeskAdapter
  import opened DeskRisk

  /** What an entry is sized with: its fill price, both fee rates, and the price its stop is modelled to fill at. */
  datatype Quote = Quote(price: real, rate: real, exitRate: real, stopFill: real)

  ghost predicate Lots(m: Model, c: real) {
    m.step.Some? ==> OnGrid(c, m.step.value)
  }

  /** A quantity the risk budget of the order allows. */
  ghost predicate Fits(d: Desk, m: Model, o: Order, q: Quote, c: real) {
    && 0.0 < c <= o.remaining && Lots(m, c)
    && StopLossOf(d, q.stopFill, q.exitRate) + Value(c, UnitLoss(q.price, q.stopFill, q.rate, q.exitRate)) <= o.budget
  }

  /** A quantity the volume left on the bar allows. */
  ghost predicate Tradable(d: Desk, m: Model, quantity: real, c: real) {
    && 0.0 < c <= quantity && Lots(m, c)
    && (d.liquidity.Some? ==> c <= d.liquidity.value)
  }

  ghost predicate MostThatFits(d: Desk, m: Model, o: Order, q: Quote, quantity: real) {
    Fits(d, m, o, q, quantity) && forall c | Fits(d, m, o, q, c) :: c <= quantity
  }

  ghost predicate MostThatTrades(d: Desk, m: Model, quantity: real, fill: real) {
    Tradable(d, m, quantity, fill) && forall c | Tradable(d, m, quantity, c) :: c <= fill
  }

  /**
   The account pays: the ledger balance, with the open profit except on a spot
   market, covers the margin of the position and of the fill and its commission,
   and Backtrader's cash does not go negative.
   */
  predicate Pays(d: Desk, m: Model, o: Order, q: Quote, reference: real, c: real)
    requires d.book.leverage > 0.0
  {
    var b := d.book;
    && Value(Abs(b.size), b.price) / b.leverage + Value(c, q.price) / b.leverage + Value(c, q.price * q.rate)
       <= b.balance + (if m.spot then 0.0 else Value(b.size, reference - b.price))
    && Collateral(if o.buy then c else -c, q.price, b.leverage) + Value(c, q.price * q.rate) <= b.cash
  }

  // ------------------------------------------------------------ the budget

  lemma FlatLosesNothing(average: real, stopFill: real, exitRate: real)
    ensures LossAtStop(0.0, average, stopFill, 0.0, exitRate) == 0.0
  {
  }

  lemma QuotientOrder(budget: real, unit: real, c: real)
    requires unit > 0.0
    ensures c <= budget / unit <==> Value(c, unit) <= budget
  {
    Quotient(budget, unit);
    MulMono(c, budget / unit, unit);
  }

  /** A positive quantity is within the remaining budget's quotient exactly when its own loss fits beside the position's. */
  lemma BudgetAllows(
    budget: real, size: real, average: real, stopFill: real, paid: real, exitRate: real, unit: real, c: real)
    requires unit > 0.0 && c > 0.0 && (size == 0.0 ==> paid == 0.0)
    ensures c <= MaxQuantity(Max(0.0, RemainingBudget(budget, size, average, stopFill, paid, exitRate)), unit)
       <==> LossAtStop(size, average, stopFill, paid, exitRate) + Value(c, unit) <= budget
  {
    var left := RemainingBudget(budget, size, average, stopFill, paid, exitRate);
    FlatLosesNothing(average, stopFill, exitRate);
    QuotientOrder(Max(0.0, left), unit, c);
    Positive(c, unit);
  }

  // ------------------------------------------------------------- the sizing

  function QuoteFor(d: Desk, m: Model, bar: Bar, o: Order, reference: real): Quote
    requires o.setup.Some?
  {
    var fraction := Fraction(m, bar.volume, Budgeted(d, EntryRole, o.remaining));
    Quote(Adjusted(o.buy, EntryCap(o), reference, fraction),
          Rate(m, o.kind == LimitOrder, bar.timestamp), Rate(m, false, bar.timestamp),
          StopFill(o.buy, o.setup.value.stop, fraction))
  }

  predicate Stepped(m: Model) {
    m.step.Some? ==> m.step.value > 0.0
  }

  /** What rounding to lots leaves: a whole number of lots no larger, and no smaller than any other. */
  lemma LotsMost(m: Model, quantity: real)
    requires Stepped(m)
    ensures var lots := NormalizeLot(m, quantity);
            && (lots.Some? ==> Lots(m, lots.value) && lots.value <= quantity)
            && (forall c | 0.0 < c <= quantity && Lots(m, c) :: lots.Some? && c <= lots.value)
  {
    if m.step.Some? {
      var step := m.step.value;
      FloorStepBounds(quantity, step);
      forall c | 0.0 < c <= quantity && Lots(m, c)
        ensures NormalizeLot(m, quantity).Some? && c <= NormalizeLot(m, quantity).value
      {
        var k: int :| c == Multiple(k, step);
        FloorStepLargest(quantity, step, k);
      }
    }
  }

  /** The quantity the risk budget caps an entry at is the bound of what fits. */
  lemma RiskAllows(d: Desk, o: Order, q: Quote, fraction: real, c: real)
    requires o.setup.Some? && Sound(d.book) && c > 0.0
    requires q.stopFill == StopFill(o.buy, o.setup.value.stop, fraction)
    requires UnitLoss(q.price, q.stopFill, q.rate, q.exitRate) > 0.0
    ensures c <= RiskQuantity(d, o, o.setup.value.stop, q.price, q.rate, q.exitRate, fraction)
       <==> c <= o.remaining
            && StopLossOf(d, q.stopFill, q.exitRate) + Value(c, UnitLoss(q.price, q.stopFill, q.rate, q.exitRate)) <= o.budget
  {
    if d.book.size == 0.0 {
      FlatPaidNothing(d);
    }
    BudgetAllows(o.budget, Held(d), d.book.price, q.stopFill, PaidCommissions(d), q.exitRate,
                 UnitLoss(q.price, q.stopFill, q.rate, q.exitRate), c);
  }

  /** Rounded to lots, it is the most that fits, if anything does. */
  lemma MostFits(d: Desk, m: Model, o: Order, q: Quote, fraction: real)
    requires o.setup.Some? && Sound(d.book) && Stepped(m)
    requires q.stopFill == StopFill(o.buy, o.setup.value.stop, fraction)
    requires UnitLoss(q.price, q.stopFill, q.rate, q.exitRate) > 0.0
    ensures var quantity := NormalizeLot(m, RiskQuantity(d, o, o.setup.value.stop, q.price, q.rate, q.exitRate, fraction));
            if quantity.Some? && quantity.value > 0.0 then MostThatFits(d, m, o, q, quantity.value)
            else forall c :: !Fits(d, m, o, q, c)
  {
    var asked := RiskQuantity(d, o, o.setup.value.stop, q.price, q.rate, q.exitRate, fraction);
    var quantity := NormalizeLot(m, asked);
    LotsMost(m, asked);
    if quantity.Some? && quantity.value > 0.0 {
      RiskAllows(d, o, q, fraction, quantity.value);
    }
    forall c | Fits(d, m, o, q, c) ensures quantity.Some? && c <= quantity.value {
      RiskAllows(d, o, q, fraction, c);
    }
  }

  /** Of a quantity, the volume left takes the most lots it can, if any. */
  lemma MostTrades(d: Desk, m: Model, remaining: real, quantity: real)
    requires Stepped(m) && 0.0 < quantity <= remaining && Lots(m, quantity)
    ensures var fill := NormalizeLot(m, Min(Budgeted(d, EntryRole, remaining), quantity));
            if fill.Some? && Min(fill.value, quantity) > 0.0
            then Min(fill.value, quantity) == fill.value && MostThatTrades(d, m, quantity, fill.value)
            else forall c :: !Tradable(d, m, quantity, c)
  {
    LotsMost(m, Min(Budgeted(d, EntryRole, remaining), quantity));
  }

  /** An order's risk budget is what all of it would lose from its price to its stop, costs aside. */
  lemma BudgetIsPlannedLoss(s: Setup, size: real, bar: Bar, decidedAt: int)
    requires size >= 0.0
    ensures EntryOrder(s, size, bar, decidedAt).budget == LossAtStop(size, s.entryPrice, s.stop, 0.0, 0.0)
  {
  }

  /** The entry is tried: its order carries a setup and the bar has volume left for it. */
  predicate Tried(d: Desk, r: nat) {
    && r < |d.orders| && d.orders[r].setup.Some? && d.book.leverage > 0.0
    && Budgeted(d, EntryRole, d.orders[r].remaining) > 0.0
  }

  /** What each outcome of sizing an entry means. */
  ghost predicate SizedRight(d: Desk, m: Model, o: Order, q: Quote, reference: real, s: Sizing)
    requires d.book.leverage > 0.0
  {
    match s
    case Sized(quantity, fill, price, rate, exitRate, _) =>
      && price == q.price && rate == q.rate && exitRate == q.exitRate
      && MostThatFits(d, m, o, q, quantity) && MostThatTrades(d, m, quantity, fill) && Pays(d, m, o, q, reference, fill)
    case Refused(status) =>
      if status == Rejected then forall c | Fits(d, m, o, q, c) :: !Tradable(d, m, o.remaining, c)
      else
        && status == Margin
        && exists quantity, fill :: MostThatFits(d, m, o, q, quantity) && MostThatTrades(d, m, quantity, fill)
                                    && !Pays(d, m, o, q, reference, fill)
    case Idle => false
  }

  lemma Payment(d: Desk, m: Model, o: Order, q: Quote, reference: real, c: real)
    requires d.book.leverage > 0.0
    ensures Pays(d, m, o, q, reference, c)
       <==> RequiredCash(d, c, q.price, q.rate) <= AvailableCash(d, m, reference) && CashAfter(d, o, c, q.price, q.rate) >= 0.0
  {
    var b := d.book;
    var held, margin, fee := Value(Abs(b.size), b.price) / b.leverage, Value(c, q.price) / b.leverage, Value(c, q.price * q.rate);
    var profit := if m.spot then 0.0 else Value(b.size, reference - b.price);
    assert AvailableCash(d, m, reference) == b.balance + profit - held;
    assert RequiredCash(d, c, q.price, q.rate) == margin + fee;
  }

  lemma NoneTrades(d: Desk, m: Model, o: Order, q: Quote, quantity: real)
    requires MostThatFits(d, m, o, q, quantity) && forall c :: !Tradable(d, m, quantity, c)
    ensures forall c | Fits(d, m, o, q, c) :: !Tradable(d, m, o.remaining, c)
  {
    forall c | Fits(d, m, o, q, c) ensures !Tradable(d, m, o.remaining, c) {
      assert !Tradable(d, m, quantity, c);
    }
  }

  lemma GrantedRight(d: Desk, m: Model, bar: Bar, o: Order, reference: real)
    requires o.setup.Some? && Sound(d.book) && Stepped(m) && Budgeted(d, EntryRole, o.remaining) > 0.0
    requires var q := QuoteFor(d, m, bar, o, reference); UnitLoss(q.price, q.stopFill, q.rate, q.exitRate) > 0.0
    ensures SizedRight(d, m, o, QuoteFor(d, m, bar, o, reference), reference,
                       Granted(d, m, bar, o, o.setup.value.stop, Budgeted(d, EntryRole, o.remaining), reference))
  {
    var q := QuoteFor(d, m, bar, o, reference);
    var granted := Budgeted(d, EntryRole, o.remaining);
    var fraction := Fraction(m, bar.volume, granted);
    MostFits(d, m, o, q, fraction);
    var quantity := NormalizeLot(m, RiskQuantity(d, o, o.setup.value.stop, q.price, q.rate, q.exitRate, fraction));
    if quantity.Some? && quantity.value > 0.0 {
      MostTrades(d, m, o.remaining, quantity.value);
      var fill := NormalizeLot(m, Min(granted, quantity.value));
      if fill.Some? && Min(fill.value, quantity.value) > 0.0 {
        Payment(d, m, o, q, reference, fill.value);
      } else {
        NoneTrades(d, m, o, q, quantity.value);
      }
    }
  }

  /**
   An entry takes the most whole lots its remaining risk budget allows, and of
   those the most the volume left can fill. It is rejected only when not one
   lot is both within budget and within volume, and refused for margin only
   when the account cannot pay for that most.
   */
  lemma EntryTakesMost(d: Desk, m: Model, bar: Bar, r: nat, reference: real)
    requires Sound(d.book) && Stepped(m) && Tried(d, r)
    requires var q := QuoteFor(d, m, bar, d.orders[r], reference); UnitLoss(q.price, q.stopFill, q.rate, q.exitRate) > 0.0
    ensures SizedRight(d, m, d.orders[r], QuoteFor(d, m, bar, d.orders[r], reference), reference,
                       SizeEntry(d, m, bar, r, reference))
  {
    GrantedRight(d, m, bar, d.orders[r], reference);
  }

  /** An entry that would lose nothing at its stop, because it fills beyond it, is rejected. */
  lemma NothingAtRisk(d: Desk, m: Model, bar: Bar, r: nat, reference: real)
    requires Stepped(m) && Tried(d, r)
    requires var q := QuoteFor(d, m, bar, d.orders[r], reference); UnitLoss(q.price, q.stopFill, q.rate, q.exitRate) <= 0.0
    ensures SizeEntry(d, m, bar, r, reference) == Refused(Rejected)
  {
    NoLots(m);
  }

  lemma NoLots(m: Model)
    requires Stepped(m)
    ensures NormalizeLot(m, 0.0) == if m.step.Some? then None else Some(0.0)
  {
    if m.step.Some? {
      FloorStepBounds(0.0, m.step.value);
    }
  }
}
