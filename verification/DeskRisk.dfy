/**
 What an entry fill may cost: closing everything at the modelled stop stays
 within the order's original budget, and on a spot market the account can
 always pay for what it buys.
 */
module DeskRisk {
  import opened Wrappers
  import opened Rounding
  import opened TradeBook
  import opened ExecutionPricing
  import opened StopRisk
  import opened DeskTypes
  import opened DeskExecution
  import opened DeskStructure
  import opened DeskSafety
  import opened DeskEntry
  import opened DeskBooks
  import opened DeskPrices

  // ------------------------------------------------------------ stop risk

  /** The loss of closing the whole position at its modelled stop, every entry commission included. */
  function StopLossOf(d: Desk, stopFill: real, exitRate: real): real {
    LossAtStop(Held(d), d.book.price, stopFill, PaidCommissions(d), exitRate)
  }

  /** Averaging works alike on both sides of the market. */
  lemma AverageOfShort(size: real, price: real, added: real, at: real)
    requires size + added != 0.0
    ensures AveragePrice(-size, price, -added, at) == AveragePrice(size, price, added, at)
  {
    AverageCarriesCost(size, price, added, at);
    AverageCarriesCost(-size, price, -added, at);
    ValueOfSum(size, 0.0, price);
    ValueOfSum(added, 0.0, at);
    var x, y := AveragePrice(size, price, added, at), AveragePrice(-size, price, -added, at);
    ValueOfSum(size + added, 0.0, y);
    CancelFactor(size + added, x, y);
  }

  lemma CancelFactor(size: real, x: real, y: real)
    requires size != 0.0 && Value(size, x) == Value(size, y)
    ensures x == y
  {
    Quotient(Value(size, x), size);
    assert size * (x - y) == 0.0;
  }

  /** A sized entry never asks for more than the remaining budget allows. */
  lemma SizedWithinRisk(d: Desk, m: Model, bar: Bar, r: nat, reference: real)
    requires m.step.Some? ==> m.step.value > 0.0
    requires SizeEntry(d, m, bar, r, reference).Sized?
    ensures d.book.leverage > 0.0 && r < |d.orders| && d.orders[r].setup.Some?
    ensures var s, o := SizeEntry(d, m, bar, r, reference), d.orders[r];
            var stopFill := StopFill(o.buy, o.setup.value.stop, s.fraction);
            var unit := UnitLoss(s.price, stopFill, s.rate, s.exitRate);
            && s.fill > 0.0 && unit > 0.0
            && s.fill <= MaxQuantity(Max(0.0, RemainingBudget(o.budget, Held(d), d.book.price, stopFill, PaidCommissions(d), s.exitRate)), unit)
  {
    SizedWell(d, m, bar, r, reference);
    var o := d.orders[r];
    var s := SizeEntry(d, m, bar, r, reference);
    GrantedWithinRisk(d, m, bar, o, o.setup.value.stop, Budgeted(d, EntryRole, o.remaining), reference);
  }

  lemma GrantedWithinRisk(d: Desk, m: Model, bar: Bar, o: Order, stop: real, granted: real, reference: real)
    requires d.book.leverage > 0.0 && (m.step.Some? ==> m.step.value > 0.0)
    requires Granted(d, m, bar, o, stop, granted, reference).Sized?
    ensures var s := Granted(d, m, bar, o, stop, granted, reference);
            0.0 < s.fill <= RiskQuantity(d, o, stop, s.price, s.rate, s.exitRate, s.fraction)
  {
    var fraction := Fraction(m, bar.volume, granted);
    var price := Adjusted(o.buy, EntryCap(o), reference, fraction);
    var rate, exitRate := Rate(m, o.kind == LimitOrder, bar.timestamp), Rate(m, false, bar.timestamp);
    var asked := RiskQuantity(d, o, stop, price, rate, exitRate, fraction);
    NormalizedLots(m, asked);
  }

  /** No commission has been paid for a trade that has not begun. */
  lemma FlatPaidNothing(d: Desk)
    requires Sound(d.book) && d.book.size == 0.0
    ensures PaidCommissions(d) == 0.0
  {
    TotalOfNone(d.book.fills, EntryCommission, d.book.trade);
  }

  /** An entry's books, in the terms sizing is stated in. */
  lemma BookEntered(b: Book, f: Fill)
    requires b.leverage > 0.0 && f.entry && f.size > 0.0 && (b.size == 0.0 || (b.size > 0.0 <==> f.buy))
    ensures b.size + Signed(f) != 0.0
    ensures Abs(BookEntry(b, f).size) == Abs(b.size) + f.size
    ensures BookEntry(b, f).price == AveragePrice(Abs(b.size), b.price, f.size, f.price)
  {
    AverageOfShort(Abs(b.size), b.price, f.size, f.price);
  }

  lemma BookEnteredPaid(b: Book, f: Fill)
    requires b.leverage > 0.0 && f.entry && f.trade == b.trade && b.size + Signed(f) != 0.0
    ensures var t := BookEntry(b, f);
            Total(t.fills, EntryCommission, t.trade) == Total(b.fills, EntryCommission, b.trade) + f.commission
  {
    TotalAppend(b.fills, f, EntryCommission, b.trade);
  }

  /** The same, of the desk. */
  ghost predicate Priced(d: Desk, t: Desk, s: Sizing)
    requires s.Sized? && Held(d) + s.fill != 0.0
  {
    && Held(t) == Held(d) + s.fill
    && t.book.price == AveragePrice(Held(d), d.book.price, s.fill, s.price)
    && PaidCommissions(t) == PaidCommissions(d) + Value(s.fill, s.price * s.rate)
  }

  lemma FillPriced(d: Desk, r: nat, reference: real, s: Sizing)
    requires r < |d.orders| && s.Sized? && s.fill > 0.0 && d.book.leverage > 0.0
    requires d.book.size == 0.0 || (d.book.size > 0.0 <==> d.orders[r].buy)
    ensures Held(d) + s.fill != 0.0
    ensures Priced(d, BookFill(d, EntryFill(d, r, reference, s)), s)
  {
    var f := EntryFill(d, r, reference, s);
    BookEntered(d.book, f);
    BookEnteredPaid(d.book, f);
  }

  lemma EnteredBooks(d: Desk, m: Model, timestamp: int, r: nat, reference: real, s: Sizing)
    requires EntryInHand(d, m, timestamp, r) && s.Sized? && s.fill > 0.0
    ensures Held(d) + s.fill != 0.0 && Priced(d, Enter(d, r, reference, s), s)
  {
    EntryFacts(d, m, timestamp, r);
    FillPriced(d, r, reference, s);
    EnteredBook(d, r, reference, s);
  }

  /** The stop an order's fill is sized against, at the slippage of that fill. */
  function ModelledStop(o: Order, s: Sizing): real
    requires o.setup.Some? && s.Sized?
  {
    StopFill(o.buy, o.setup.value.stop, s.fraction)
  }

  /** Prices and rates a fill can be sized with. */
  predicate Sensible(o: Order, s: Sizing)
    requires o.setup.Some? && s.Sized?
  {
    s.price > 0.0 && s.rate >= 0.0 && s.exitRate >= 0.0 && ModelledStop(o, s) > 0.0
  }

  /** The fill is no more than the budget still allows per unit lost at the modelled stop. */
  predicate WithinRisk(d: Desk, o: Order, s: Sizing)
    requires o.setup.Some? && s.Sized?
  {
    var unit := UnitLoss(s.price, ModelledStop(o, s), s.rate, s.exitRate);
    && s.fill > 0.0 && unit > 0.0
    && s.fill <= MaxQuantity(Max(0.0, RemainingBudget(o.budget, Held(d), d.book.price, ModelledStop(o, s), PaidCommissions(d), s.exitRate)), unit)
  }

  lemma PricedWithinBudget(d: Desk, t: Desk, o: Order, s: Sizing)
    requires o.setup.Some? && s.Sized? && Sensible(o, s) && WithinRisk(d, o, s)
    requires Held(d) + s.fill != 0.0 && Priced(d, t, s)
    requires Held(d) == 0.0 ==> PaidCommissions(d) == 0.0
    ensures StopLossOf(t, ModelledStop(o, s), s.exitRate) <= o.budget
  {
    var size, average, paid := Held(d), d.book.price, PaidCommissions(d);
    var sizeAfter, averageAfter, paidAfter := Held(t), t.book.price, PaidCommissions(t);
    FiguresStayInBudget(o.budget, size, average, paid, s.fill, s.price, ModelledStop(o, s), s.rate, s.exitRate,
                        sizeAfter, averageAfter, paidAfter);
  }

  lemma StopFillPositive(buy: bool, stop: real, fraction: real)
    requires stop > 0.0 && 0.0 <= fraction < 1.0
    ensures StopFill(buy, stop, fraction) > 0.0
  {
    var factor := 1.0 + (if buy then -fraction else fraction);
    assert factor > 0.0;
    assert stop * factor > 0.0;
  }

  lemma AdjustedPositive(o: Order, reference: real, fraction: real)
    requires PricedOrder(o) && o.role == EntryRole && reference > 0.0 && 0.0 <= fraction < 1.0
    ensures Adjusted(o.buy, EntryCap(o), reference, fraction) > 0.0
  {
    AdversePositive(o.buy, reference, fraction);
  }

  /** What a granted entry is sized with. */
  lemma GrantedFigures(d: Desk, m: Model, bar: Bar, o: Order, stop: real, granted: real, reference: real)
    requires d.book.leverage > 0.0 && Granted(d, m, bar, o, stop, granted, reference).Sized?
    ensures var s := Granted(d, m, bar, o, stop, granted, reference);
            && s.fraction == Fraction(m, bar.volume, granted)
            && s.price == Adjusted(o.buy, EntryCap(o), reference, s.fraction)
            && s.rate == Rate(m, o.kind == LimitOrder, bar.timestamp)
            && s.exitRate == Rate(m, false, bar.timestamp)
  {
  }

  /** With fair costs and positive prices, every sized entry is at sensible figures. */
  lemma SizedSensible(d: Desk, m: Model, bar: Bar, r: nat, reference: real)
    requires Fair(m) && FairBar(bar) && PricedDesk(d) && reference > 0.0
    requires r < |d.orders| && d.orders[r].role == EntryRole
    requires SizeEntry(d, m, bar, r, reference).Sized?
    ensures d.orders[r].setup.Some? && Sensible(d.orders[r], SizeEntry(d, m, bar, r, reference))
  {
    var o := d.orders[r];
    assert PricedOrder(o);
    var granted := Budgeted(d, EntryRole, o.remaining);
    GrantedSensible(d, m, bar, o, granted, reference);
  }

  lemma GrantedSensible(d: Desk, m: Model, bar: Bar, o: Order, granted: real, reference: real)
    requires Fair(m) && FairBar(bar) && PricedOrder(o) && o.role == EntryRole && o.setup.Some?
    requires reference > 0.0 && granted > 0.0 && d.book.leverage > 0.0
    requires Granted(d, m, bar, o, o.setup.value.stop, granted, reference).Sized?
    ensures Sensible(o, Granted(d, m, bar, o, o.setup.value.stop, granted, reference))
  {
    var fraction := Fraction(m, bar.volume, granted);
    GrantedFigures(d, m, bar, o, o.setup.value.stop, granted, reference);
    FairFraction(m, bar.volume, granted);
    AdjustedPositive(o, reference, fraction);
    FairRate(m, o.kind == LimitOrder, bar.timestamp);
    FairRate(m, false, bar.timestamp);
    StopFillPositive(o.buy, o.setup.value.stop, fraction);
  }

  /**
   After every entry fill, a carried remainder at a new average and under new
   slippage included, closing the whole position at its modelled stop loses
   at most the order's original budget.
   */
  lemma EntryStaysWithinBudget(d: Desk, m: Model, bar: Bar, r: nat, reference: real)
    requires EntryInHand(d, m, bar.timestamp, r) && SizeEntry(d, m, bar, r, reference).Sized?
    requires Fair(m) && FairBar(bar) && PricedDesk(d) && reference > 0.0
    ensures d.orders[r].setup.Some?
    ensures var s := SizeEntry(d, m, bar, r, reference);
            StopLossOf(Enter(d, r, reference, s), ModelledStop(d.orders[r], s), s.exitRate) <= d.orders[r].budget
  {
    var s := SizeEntry(d, m, bar, r, reference);
    SizedSensible(d, m, bar, r, reference);
    SizedWithinRisk(d, m, bar, r, reference);
    EnteredBooks(d, m, bar.timestamp, r, reference, s);
    if d.book.size == 0.0 {
      FlatPaidNothing(d);
    }
    assert WithinRisk(d, d.orders[r], s);
    PricedWithinBudget(d, Enter(d, r, reference, s), d.orders[r], s);
  }

  // ----------------------------------------------------------- spot cash

  /** Cash a spot entry may use is the ledger balance less the cost of held inventory. */
  lemma SpotAvailable(d: Desk, m: Model, reference: real)
    requires m.spot && d.book.leverage == 1.0 && d.book.size >= 0.0
    ensures AvailableCash(d, m, reference) == FreeCash(d.book)
  {
    Quotient(Value(Held(d), d.book.price), 1.0);
  }

  lemma GrantedIsAffordable(d: Desk, m: Model, bar: Bar, o: Order, stop: real, granted: real, reference: real)
    requires d.book.leverage > 0.0 && Granted(d, m, bar, o, stop, granted, reference).Sized?
    ensures var s := Granted(d, m, bar, o, stop, granted, reference);
            RequiredCash(d, s.fill, s.price, s.rate) <= AvailableCash(d, m, reference)
  {
  }

  lemma SpotCost(d: Desk, quantity: real, price: real, rate: real)
    requires d.book.leverage == 1.0
    ensures RequiredCash(d, quantity, price, rate) == Value(quantity, price) + Value(quantity, price * rate)
  {
    Quotient(Value(quantity, price), 1.0);
  }
}
