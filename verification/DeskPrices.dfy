/**
 Every price a desk can trade at is positive: setups and protection updates are
 validated, new legs rest where a setup says, and nothing moves a price later.
 With cost rates below one hundred percent every fill is then at a positive
 price whose proceeds cover its fee.
 */
module DeskPrices {
  import opened Wrappers
  import opened Rounding
  import opened TradeBook
  import opened ExecutionPricing
  import opened DeskTypes
  import opened DeskExecution
  import opened DeskBar
  import opened DeskSteps
  import opened DeskPass
  import opened DeskOpening
  import opened DeskAdapter
  import opened DeskBooks

  // -------------------------------------------------------- configuration

  /** Half spread and slippage stay below the whole price, for any share of a bar's volume. */
  ghost predicate FairAdjustment(m: Model) {
    forall p | 0.0 <= p <= 1.0 :: 0.0 <= m.spreadBps / 2.0 + m.slippage(p) < 10000.0
  }

  /** Fee rates lie between nothing and the whole notional. */
  ghost predicate FairFees(m: Model) {
    forall maker, t :: 0.0 <= m.feeBps(maker, t) <= 10000.0
  }

  /** What configuration validation guarantees of a model. */
  ghost predicate Fair(m: Model) {
    FairAdjustment(m) && FairFees(m) && (m.step.Some? ==> m.step.value > 0.0)
  }

  predicate FairBar(bar: Bar) {
    bar.open > 0.0 && bar.high > 0.0 && bar.low > 0.0 && bar.close > 0.0 && bar.volume >= 0.0
  }

  lemma FairFraction(m: Model, volume: real, granted: real)
    requires FairAdjustment(m) && volume >= 0.0 && granted >= 0.0
    ensures 0.0 <= Fraction(m, volume, granted) < 1.0
  {
    var participation := if m.proxy.Some? && volume != 0.0 then Min(1.0, granted / volume) else 0.0;
    if m.proxy.Some? && volume != 0.0 {
      assert granted / volume >= 0.0;
    }
    assert 0.0 <= participation <= 1.0;
    var bps := m.spreadBps / 2.0 + m.slippage(participation);
    assert 0.0 <= bps < 10000.0;
  }

  lemma FairRate(m: Model, maker: bool, t: int)
    requires FairFees(m)
    ensures 0.0 <= Rate(m, maker, t) <= 1.0
  {
    assert 0.0 <= m.feeBps(maker, t) <= 10000.0;
  }

  lemma AdversePositive(buy: bool, reference: real, fraction: real)
    requires reference > 0.0 && 0.0 <= fraction < 1.0
    ensures Adverse(buy, reference, fraction) > 0.0
  {
    var factor := if buy then 1.0 + fraction else 1.0 - fraction;
    assert factor > 0.0;
    assert reference * factor > 0.0;
  }

  // --------------------------------------------------------------- orders

  predicate PricedSetup(s: Setup) {
    s.stop > 0.0 && (s.target.Some? ==> s.target.value > 0.0)
  }

  /** An entry is on the side, of the kind and at the price of its setup. */
  predicate AsPlanned(o: Order) {
    && o.setup.Some?
    && o.buy == o.setup.value.long && o.kind == o.setup.value.kind && o.price == o.setup.value.entryPrice
  }

  predicate PricedOrder(o: Order) {
    && (o.setup.Some? ==> PricedSetup(o.setup.value))
    && (o.role == EntryRole ==> AsPlanned(o))
    && (o.role == EntryRole || Protective(o.role) ==> o.price > 0.0)
  }

  /** A remembered leg is an order of its role. */
  predicate LegOf(orders: seq<Order>, r: Option<nat>, role: Role) {
    r.Some? ==> r.value < |orders| && orders[r.value].role == role
  }

  /** Every entry, leg and setup has a positive price, and remembered legs are legs. */
  predicate PricedDesk(d: Desk) {
    && (forall i | 0 <= i < |d.orders| :: PricedOrder(d.orders[i]))
    && LegOf(d.orders, d.stop, StopLoss)
    && LegOf(d.orders, d.target, TakeProfit)
  }

  lemma SourcedIsPriced(orders: seq<Order>, o: Order)
    requires Sourced(orders, o) && forall i | 0 <= i < |orders| :: PricedOrder(orders[i])
    ensures PricedOrder(o)
  {
    if Protective(o.role) {
      var j :| 0 <= j < |orders| && Names(orders[j], o.price);
      assert PricedOrder(orders[j]);
    }
  }

  /** Whatever the broker does, its desk stays priced. */
  lemma KeepsPriced(d: Desk, e: Desk)
    requires PricedDesk(d) && Keeps(d, e)
    ensures PricedDesk(e)
  {
    forall i | 0 <= i < |e.orders| ensures PricedOrder(e.orders[i]) {
      if i < |d.orders| {
        assert SameTerms(d.orders[i], e.orders[i]) && PricedOrder(d.orders[i]);
      } else {
        SourcedIsPriced(d.orders, e.orders[i]);
      }
    }
    LegStays(d, e, d.stop, e.stop, StopLoss);
    LegStays(d, e, d.target, e.target, TakeProfit);
  }

  lemma LegStays(d: Desk, e: Desk, before: Option<nat>, after: Option<nat>, role: Role)
    requires LegOf(d.orders, before, role) && LegKept(before, after, role, d.orders, e.orders)
    requires RolesKept(d.orders, e.orders)
    ensures LegOf(e.orders, after, role)
  {
    if after.Some? && after == before {
      assert SameTerms(d.orders[after.value], e.orders[after.value]);
    }
  }

  // ----------------------------------------------------- reference prices

  /** A known breach is met at a positive reference. */
  predicate PricedBreach(breach: Option<Pick>) {
    breach.Some? ==> breach.value.reference > 0.0
  }

  lemma SelectionPriced(d: Desk, bar: Bar, allowGap: bool, breach: Option<Pick>, openOnly: bool)
    requires PricedDesk(d) && FairBar(bar) && PricedBreach(breach)
    ensures var selected := Selection(d, bar, allowGap, breach, openOnly);
            selected.Some? ==> selected.value.reference > 0.0
  {
    if ProtectionMayAct(d, bar, breach) {
      assert PricedOrder(d.orders[d.stop.value]);
      if IsAlive(d, d.target) {
        assert PricedOrder(d.orders[d.target.value]);
      }
    }
  }

  lemma ReferencePriced(o: Order, bar: Bar)
    requires PricedOrder(o) && o.role == EntryRole && FairBar(bar)
    ensures var reference := MatchReference(o.kind, o.buy, o.price, bar);
            reference.Some? ==> reference.value > 0.0
  {
  }

  // --------------------------------------------------------------- fills

  lemma FeeWithinProceeds(quantity: real, price: real, rate: real)
    requires quantity > 0.0 && price >= 0.0 && 0.0 <= rate <= 1.0
    ensures Value(quantity, price * rate) <= Value(quantity, price)
  {
    var kept := price * (1.0 - rate);
    assert kept >= 0.0;
    assert price - price * rate == kept;
    ValueOfSum(quantity, price, price * rate);
    assert Value(quantity, kept) >= 0.0;
  }

  /** A voluntary exit is at a positive price and brings in at least its fee. */
  lemma ExitCoversItsFee(d: Desk, m: Model, bar: Bar, r: nat, quantity: real, reference: real)
    requires Fair(m) && FairBar(bar) && r < |d.orders| && quantity > 0.0 && reference > 0.0
    ensures var f := ExitFill(d, m, bar, r, quantity, reference, 0.0);
            f.price > 0.0 && f.commission + f.liquidationFee <= Value(f.size, f.price)
  {
    var o := d.orders[r];
    var volume := if o.role == EndOfData then 0.0 else bar.volume;
    FairFraction(m, volume, quantity);
    AdversePositive(o.buy, reference, Fraction(m, volume, quantity));
    FairRate(m, false, bar.timestamp);
    var price := ExitFill(d, m, bar, r, quantity, reference, 0.0).price;
    FeeWithinProceeds(quantity, price, Rate(m, false, bar.timestamp));
    FeeWithinProceeds(quantity, price, 0.0);
  }

  // -------------------------------------------------------------- adapter

  lemma SetupPriced(s: Setup)
    requires ValidSetup(s)
    ensures PricedSetup(s) && s.entryPrice > 0.0
  {
  }

  lemma DeliverOnePriced(d: Desk, n: Notice)
    requires PricedDesk(d)
    ensures PricedDesk(DeliverOne(d, n))
  {
    if n.status == Completed && n.role == StopLoss && d.target.Some? {
      CancelSteps(d, d.target.value);
      KeepsPriced(d, Cancel(d, d.target.value));
    } else if n.status == Completed && n.role == TakeProfit && d.stop.Some? {
      CancelSteps(d, d.stop.value);
      KeepsPriced(d, Cancel(d, d.stop.value));
    }
  }

  lemma DropPriced(d: Desk)
    requires PricedDesk(d)
    ensures PricedDesk(DropEntry(d)) && DropEntry(d).book == d.book
  {
    if IsAlive(d, d.entry) {
      var marked := d.(cancelledEntry := d.entry);
      CancelSteps(marked, d.entry.value);
      KeepsPriced(marked, Cancel(marked, d.entry.value));
      CancelKeepsBook(marked, d.entry.value);
    }
  }

  lemma SubmitPriced(d: Desk, o: Order, leader: Option<nat>)
    requires PricedDesk(d) && PricedOrder(o)
    ensures PricedDesk(Submit(d, o, leader)) && Submit(d, o, leader).book == d.book
  {
    var e := Submit(d, o, leader);
    forall i | 0 <= i < |e.orders| ensures PricedOrder(e.orders[i]) {
      assert i < |d.orders| ==> PricedOrder(d.orders[i]);
    }
  }

  lemma BracketPriced(d: Desk, long: bool, stop: real, target: Option<real>, timestamp: int)
    requires PricedDesk(d) && stop > 0.0 && (target.Some? ==> target.value > 0.0)
    ensures PricedDesk(PlaceBracket(d, long, stop, target, timestamp))
    ensures PlaceBracket(d, long, stop, target, timestamp).book == d.book
  {
    var leg := Leg(StopLoss, !long, StopOrder, stop, Held(d), timestamp);
    SubmitPriced(d, leg, None);
    var stopped := Submit(d, leg, None).(stop := Some(|d.orders|));
    if target.Some? {
      SubmitPriced(stopped, Leg(TakeProfit, !long, LimitOrder, target.value, Held(d), timestamp), Some(|d.orders|));
    }
  }

  lemma RewritePriced(d: Desk, stop: real, target: Option<real>)
    requires PricedDesk(d) && stop > 0.0 && (target.Some? ==> target.value > 0.0)
    ensures PricedDesk(RewriteEntry(d, stop, target)) && RewriteEntry(d, stop, target).book == d.book
  {
  }

  lemma UpdatePriced(d: Desk, bar: Bar, decision: Decision)
    requires PricedDesk(d)
    ensures PricedDesk(UpdateExits(d, bar, decision)) && UpdateExits(d, bar, decision).book == d.book
  {
    if IsAlive(d, d.stop) && UpdateExits(d, bar, decision) != d {
      var stop, target := NextStop(d, decision), NextTarget(d, decision);
      var w := RewriteEntry(d, stop, target);
      RewritePriced(d, stop, target);
      CancelSteps(w, d.stop.value);
      CancelKeepsBook(w, d.stop.value);
      KeepsPriced(w, Cancel(w, d.stop.value));
      BracketPriced(Cancel(w, d.stop.value), d.book.size > 0.0, stop, target, bar.timestamp);
    }
  }

  lemma AcceptPriced(d: Desk, bar: Bar, decision: Decision)
    requires PricedDesk(d)
    ensures PricedDesk(AcceptExit(d, bar, decision)) && AcceptExit(d, bar, decision).book == d.book
  {
    DropPriced(d);
    var t := DropEntry(d);
    SubmitPriced(t, SignalOrder(t, bar, decision.decidedAt), None);
  }

  lemma PlacePriced(d: Desk, m: Model, bar: Bar, s: Setup, size: real, decidedAt: int)
    requires PricedDesk(d)
    ensures PricedDesk(PlaceEntry(d, m, bar, s, size, decidedAt)) && PlaceEntry(d, m, bar, s, size, decidedAt).book == d.book
  {
    if MayEnter(d, m, bar, s, size) {
      SetupPriced(s);
      SubmitPriced(d, EntryOrder(s, size, bar, decidedAt), None);
    }
  }

  /** Whatever the strategy decides, only validated prices enter the desk. */
  lemma StrategyPriced(d: Desk, m: Model, bar: Bar, decision: Decision)
    requires PricedDesk(d)
    ensures PricedDesk(Strategy(d, m, bar, decision)) && Strategy(d, m, bar, decision).book == d.book
  {
    var t := AcceptExit(d, bar, decision);
    AcceptPriced(d, bar, decision);
    UpdatePriced(t, bar, decision);
    DropPriced(t);
    if decision.enter.Some? {
      PlacePriced(t, m, bar, decision.enter.value.0, decision.enter.value.1, decision.decidedAt);
    }
  }

  lemma {:induction false} DeliverPriced(d: Desk, ns: seq<Notice>)
    requires PricedDesk(d)
    ensures PricedDesk(DeliverAll(d, ns))
    decreases |ns|
  {
    if ns != [] {
      DeliverOnePriced(d, ns[0]);
      DeliverPriced(DeliverOne(d, ns[0]), ns[1..]);
    }
  }
}
