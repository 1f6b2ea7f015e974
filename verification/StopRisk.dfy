/**
 Sizing an entry so that, whatever earlier partial fills cost, closing the
 whole position at its modelled stop loses no more than the order's budget.
 */
module StopRisk {
  import opened Wrappers
  import opened Rounding
  import opened TradeBook

  /** Price a stop-out is modelled to fill at, the adverse adjustment included. */
  function StopFill(buy: bool, stop: real, fraction: real): real {
    stop * (1.0 + (if buy then -fraction else fraction))
  }

  /** Loss per unit at the modelled stop: price distance and both commissions. */
  function UnitLoss(entry: real, stopFill: real, entryRate: real, exitRate: real): real {
    Abs(entry - stopFill) + entry * entryRate + stopFill * exitRate
  }

  /** The largest quantity whose loss at the modelled stop fits the budget. */
  function MaxQuantity(budget: real, unitLoss: real): real
    requires unitLoss > 0.0
  {
    budget / unitLoss
  }

  /** Loss if `size` bought or sold at `average` is closed at the modelled stop. */
  function LossAtStop(size: real, average: real, stopFill: real, commissions: real, exitRate: real): real {
    Value(size, Abs(average - stopFill)) + commissions + Value(size, stopFill * exitRate)
  }

  /** The budget left for more quantity once the position already held is accounted for. */
  function RemainingBudget(budget: real, size: real, average: real, stopFill: real, commissions: real, exitRate: real): real {
    if size == 0.0 then budget else budget - LossAtStop(size, average, stopFill, commissions, exitRate)
  }

  lemma UnitLossFits(quantity: real, budget: real, unitLoss: real)
    requires unitLoss > 0.0 && budget >= 0.0 && 0.0 <= quantity <= MaxQuantity(budget, unitLoss)
    ensures Value(quantity, unitLoss) <= budget
  {
    var most := MaxQuantity(budget, unitLoss);
    Quotient(budget, unitLoss);
    MulMono(quantity, most, unitLoss);
    assert Value(quantity, unitLoss) == quantity * unitLoss;
  }

  /** Averaging never widens the distance to the stop beyond its parts. */
  lemma AverageDistance(size: real, average: real, added: real, at: real, stopFill: real)
    requires size >= 0.0 && added > 0.0
    ensures Value(size + added, Abs(AveragePrice(size, average, added, at) - stopFill))
         <= Value(size, Abs(average - stopFill)) + Value(added, Abs(at - stopFill))
  {
    var total := size + added;
    var next := AveragePrice(size, average, added, at);
    AverageCarriesCost(size, average, added, at);
    ValueOfSum(total, stopFill, next);
    ValueOfSum(size, added, stopFill);
    ValueOfSum(size, stopFill, average);
    ValueOfSum(added, stopFill, at);
    AbsBound(size, average - stopFill);
    AbsBound(added, at - stopFill);
    AbsValue(total, next - stopFill);
  }

  lemma AbsBound(size: real, d: real)
    requires size >= 0.0
    ensures -Value(size, Abs(d)) <= Value(size, d) <= Value(size, Abs(d))
  {
    MulSign(size, Abs(d) - d);
    MulSign(size, Abs(d) + d);
    assert size * (Abs(d) - d) == Value(size, Abs(d)) - Value(size, d);
    assert size * (Abs(d) + d) == Value(size, Abs(d)) + Value(size, d);
  }

  lemma MulSign(a: real, b: real)
    requires a >= 0.0 && b >= 0.0
    ensures a * b >= 0.0
  {
  }

  lemma AbsValue(size: real, d: real)
    requires size >= 0.0
    ensures Value(size, Abs(d)) == Abs(Value(size, d))
  {
    AbsBound(size, d);
  }

  /**
   After an entry fill, carried remainder or not, at a new average and under
   new slippage, closing everything at the modelled stop loses at most the
   original budget: price distance, every entry commission paid so far and
   the exit commission.
   */
  lemma EntryStaysInBudget(
    budget: real, size: real, average: real, commissions: real,
    quantity: real, price: real, stopFill: real, entryRate: real, exitRate: real)
    requires size >= 0.0 && (size == 0.0 ==> commissions == 0.0)
    requires quantity > 0.0 && price > 0.0 && stopFill > 0.0 && entryRate >= 0.0 && exitRate >= 0.0
    requires UnitLoss(price, stopFill, entryRate, exitRate) > 0.0
    requires quantity <= MaxQuantity(Max(0.0, RemainingBudget(budget, size, average, stopFill, commissions, exitRate)),
                                     UnitLoss(price, stopFill, entryRate, exitRate))
    ensures LossAtStop(size + quantity, AveragePrice(size, average, quantity, price), stopFill,
                       commissions + Value(quantity, price * entryRate), exitRate) <= budget
  {
    var unit := UnitLoss(price, stopFill, entryRate, exitRate);
    var left := RemainingBudget(budget, size, average, stopFill, commissions, exitRate);
    UnitLossFits(quantity, Max(0.0, left), unit);
    UnitLossSplits(quantity, price, stopFill, entryRate, exitRate);
    AverageDistance(size, average, quantity, price, stopFill);
    ValueOfSum(size, quantity, stopFill * exitRate);
    Positive(quantity, unit);
    ValueOfSum(size, 0.0, stopFill * exitRate);
    ValueOfSum(size, 0.0, Abs(average - stopFill));
  }

  /** The same, of figures known to be those after the fill. */
  lemma FiguresStayInBudget(
    budget: real, size: real, average: real, commissions: real,
    quantity: real, price: real, stopFill: real, entryRate: real, exitRate: real,
    sizeAfter: real, averageAfter: real, commissionsAfter: real)
    requires size >= 0.0 && (size == 0.0 ==> commissions == 0.0)
    requires quantity > 0.0 && price > 0.0 && stopFill > 0.0 && entryRate >= 0.0 && exitRate >= 0.0
    requires UnitLoss(price, stopFill, entryRate, exitRate) > 0.0
    requires quantity <= MaxQuantity(Max(0.0, RemainingBudget(budget, size, average, stopFill, commissions, exitRate)),
                                     UnitLoss(price, stopFill, entryRate, exitRate))
    requires sizeAfter == size + quantity && averageAfter == AveragePrice(size, average, quantity, price)
    requires commissionsAfter == commissions + Value(quantity, price * entryRate)
    ensures LossAtStop(sizeAfter, averageAfter, stopFill, commissionsAfter, exitRate) <= budget
  {
    EntryStaysInBudget(budget, size, average, commissions, quantity, price, stopFill, entryRate, exitRate);
  }

  lemma Positive(a: real, b: real)
    requires a > 0.0 && b > 0.0
    ensures Value(a, b) > 0.0
  {
  }

  lemma UnitLossSplits(quantity: real, price: real, stopFill: real, entryRate: real, exitRate: real)
    ensures Value(quantity, UnitLoss(price, stopFill, entryRate, exitRate))
         == Value(quantity, Abs(price - stopFill)) + Value(quantity, price * entryRate) + Value(quantity, stopFill * exitRate)
  {
    var a, b, c := Abs(price - stopFill), price * entryRate, stopFill * exitRate;
    Distribute3(quantity, a, b, c);
  }

  lemma Distribute3(q: real, a: real, b: real, c: real)
    ensures Value(q, a + b + c) == Value(q, a) + Value(q, b) + Value(q, c)
  {
  }
}
