/**
 What trading costs: every fill but a liquidation pays half the spread and the
 slippage on its reference notional, and a commission on what it trades at.
 */
module DeskCosts {
  import opened Wrappers
  import opened Rounding
  import opened TradeBook
  import opened ExecutionPricing
  import opened DeskTypes
  import opened DeskExecution

  /** The share of the bar's volume a quantity takes, as far as a proxy measures it. */
  function Share(m: Model, volume: real, quantity: real): real {
    if m.proxy == None || volume == 0.0 then 0.0 else Min(1.0, quantity / volume)
  }

  /** Basis points of a notional. */
  function Bps(notional: real, points: real): real {
    notional * points / 10000.0
  }

  /** Half the spread and the slippage of that share, in basis points of the notional. */
  function CostOf(m: Model, notional: real, share: real): real {
    Bps(notional, m.spreadBps / 2.0 + m.slippage(share))
  }

  lemma Scaled(a: real, b: real)
    ensures a * (b / 10000.0) == a * b / 10000.0
  {
  }

  /** Whichever side it is on, an adverse adjustment costs its fraction of the notional. */
  lemma AdverseCost(buy: bool, size: real, reference: real, fraction: real)
    ensures SignedCost(buy, size, reference, Adjusted(buy, None, reference, fraction)) == Value(size, reference) * fraction
  {
  }

  lemma FractionCosts(m: Model, volume: real, quantity: real, notional: real)
    ensures notional * Fraction(m, volume, quantity) == CostOf(m, notional, Share(m, volume, quantity))
  {
    Scaled(notional, m.spreadBps / 2.0 + m.slippage(Share(m, volume, quantity)));
  }

  /** A voluntary exit pays the costs of the share it takes, and the taker's fee. */
  lemma ExitCosts(t: Desk, m: Model, bar: Bar, r: nat, quantity: real, reference: real)
    requires r < |t.orders| && t.orders[r].role != Liquidation
    ensures var f := ExitFill(t, m, bar, r, quantity, reference, 0.0);
            && f.cost == CostOf(m, Value(quantity, reference),
                                if t.orders[r].role == EndOfData then 0.0 else Share(m, bar.volume, quantity))
            && f.commission == Bps(Value(quantity, f.price), m.feeBps(false, bar.timestamp))
  {
    var volume := if t.orders[r].role == EndOfData then 0.0 else bar.volume;
    var fraction := Fraction(m, volume, quantity);
    AdverseCost(t.orders[r].buy, quantity, reference, fraction);
    FractionCosts(m, volume, quantity, Value(quantity, reference));
  }

  /** What a sized entry is priced and charged with. */
  lemma SizedCosts(d: Desk, m: Model, bar: Bar, r: nat, reference: real)
    requires SizeEntry(d, m, bar, r, reference).Sized?
    ensures r < |d.orders|
    ensures var o, s := d.orders[r], SizeEntry(d, m, bar, r, reference);
            && s.price == Adjusted(o.buy, EntryCap(o), reference, Fraction(m, bar.volume, Budgeted(d, EntryRole, o.remaining)))
            && s.rate == m.feeBps(o.kind == LimitOrder, bar.timestamp) / 10000.0
  {
  }

  lemma RateCosts(size: real, price: real, bps: real)
    ensures Value(size, price * (bps / 10000.0)) == Bps(Value(size, price), bps)
  {
  }

  /** A cap holds the price at or inside the limit, and no dearer than the costs make it. */
  lemma CapHelps(buy: bool, limit: real, size: real, reference: real, fraction: real)
    requires size >= 0.0
    ensures var price := Adjusted(buy, Some(limit), reference, fraction);
            && (if buy then price <= limit else price >= limit)
            && SignedCost(buy, size, reference, price) <= Value(size, reference) * fraction
  {
    var free, held := Adjusted(buy, None, reference, fraction), Adjusted(buy, Some(limit), reference, fraction);
    AdverseCost(buy, size, reference, fraction);
    var less := if buy then free - held else held - free;
    assert less >= 0.0 && size * less >= 0.0;
    assert SignedCost(buy, size, reference, free) - SignedCost(buy, size, reference, held) == size * less;
  }

  lemma CappedCosts(o: Order, size: real, reference: real, fraction: real, price: real)
    requires size >= 0.0 && price == Adjusted(o.buy, EntryCap(o), reference, fraction)
    ensures if o.kind == LimitOrder
            then SignedCost(o.buy, size, reference, price) <= Value(size, reference) * fraction
                 && (if o.buy then price <= o.price else price >= o.price)
            else SignedCost(o.buy, size, reference, price) == Value(size, reference) * fraction
  {
    AdverseCost(o.buy, size, reference, fraction);
    CapHelps(o.buy, o.price, size, reference, fraction);
  }

  /** A resting limit never trades beyond its price; any other order pays exactly the costs. */
  predicate Paid(o: Order, f: Fill, costs: real) {
    if o.kind == LimitOrder then f.cost <= costs && (if o.buy then f.price <= o.price else f.price >= o.price)
    else f.cost == costs
  }

  lemma EntryFillCosts(d: Desk, r: nat, reference: real, s: Sizing, fraction: real, bps: real, costs: real)
    requires r < |d.orders| && s.Sized? && s.fill >= 0.0
    requires s.price == Adjusted(d.orders[r].buy, EntryCap(d.orders[r]), reference, fraction) && s.rate == bps / 10000.0
    requires costs == Value(s.fill, reference) * fraction
    ensures var f := EntryFill(d, r, reference, s);
            && Paid(d.orders[r], f, costs) && f.size == s.fill
            && f.commission == Bps(Value(f.size, f.price), bps)
  {
    CappedCosts(d.orders[r], s.fill, reference, fraction, s.price);
    RateCosts(s.fill, s.price, bps);
  }

  /**
   An entry pays the costs of the share it may take. A resting limit pays the
   maker's fee and never trades beyond its price; any other entry pays the taker's.
   */
  lemma EntryCosts(d: Desk, m: Model, bar: Bar, r: nat, reference: real)
    requires SizeEntry(d, m, bar, r, reference).Sized? && SizeEntry(d, m, bar, r, reference).fill >= 0.0
    ensures var o, f := d.orders[r], EntryFill(d, r, reference, SizeEntry(d, m, bar, r, reference));
            && Paid(o, f, CostOf(m, Value(f.size, reference), Share(m, bar.volume, Budgeted(d, EntryRole, o.remaining))))
            && f.commission == Bps(Value(f.size, f.price), m.feeBps(o.kind == LimitOrder, bar.timestamp))
  {
    var o, s := d.orders[r], SizeEntry(d, m, bar, r, reference);
    var granted := Budgeted(d, EntryRole, o.remaining);
    var costs := CostOf(m, Value(s.fill, reference), Share(m, bar.volume, granted));
    SizedCosts(d, m, bar, r, reference);
    FractionCosts(m, bar.volume, granted, Value(s.fill, reference));
    EntryFillCosts(d, r, reference, s, Fraction(m, bar.volume, granted), m.feeBps(o.kind == LimitOrder, bar.timestamp), costs);
  }
}
