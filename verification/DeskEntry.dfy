/**
 Entries: a fill is sized by the remaining stop-risk budget, whole lots and the
 bar's volume, and the position it builds is protected before anything else
 happens. A partly filled entry has always used up the bar's budget, so no
 exit can follow it on the same bar.
 */
module DeskEntry {
  import opened Wrappers
  import opened Rounding
  import opened TradeBook
  import opened ExecutionPricing
  import opened StopRisk
  import opened DeskTypes
  import opened DeskExecution
  import opened DeskStructure
  import opened DeskSafety
  import opened DeskSignal

  // --------------------------------------------------------------- sizing

  /** Whole lots that fit, or the quantity itself without an instrument. */
  ghost predicate WholeLots(m: Model, quantity: real, lots: real) {
    && lots <= quantity
    && (if m.step.Some? then m.step.value > 0.0 && OnGrid(lots, m.step.value) && quantity < lots + m.step.value
        else lots == quantity)
  }

  lemma NormalizedLots(m: Model, quantity: real)
    requires m.step.Some? ==> m.step.value > 0.0
    ensures NormalizeLot(m, quantity).Some? ==> WholeLots(m, quantity, NormalizeLot(m, quantity).value)
  {
    if m.step.Some? {
      FloorStepBounds(quantity, m.step.value);
    }
  }

  /** What the sizing promises: a positive fill in whole lots that takes all the order asks or all the bar offers. */
  ghost predicate WellSized(d: Desk, m: Model, s: Sizing)
    requires s.Sized?
  {
    && 0.0 < s.fill <= s.quantity
    && (m.step.Some? ==> OnGrid(s.fill, m.step.value))
    && (s.fill < s.quantity ==> Dry(Spend(d, EntryRole, s.fill), m))
  }

  lemma SizedWell(d: Desk, m: Model, bar: Bar, r: nat, reference: real)
    requires m.step.Some? ==> m.step.value > 0.0
    requires SizeEntry(d, m, bar, r, reference).Sized?
    ensures WellSized(d, m, SizeEntry(d, m, bar, r, reference))
    ensures d.book.leverage > 0.0 && r < |d.orders| && d.orders[r].setup.Some?
  {
    var o := d.orders[r];
    var granted := Budgeted(d, EntryRole, o.remaining);
    var fraction := Fraction(m, bar.volume, granted);
    var price := Adjusted(o.buy, EntryCap(o), reference, fraction);
    var rate, exitRate := Rate(m, o.kind == LimitOrder, bar.timestamp), Rate(m, false, bar.timestamp);
    var asked := RiskQuantity(d, o, o.setup.value.stop, price, rate, exitRate, fraction);
    NormalizedLots(m, asked);
    var quantity := NormalizeLot(m, asked).value;
    NormalizedLots(m, Min(granted, quantity));
    FillOrDry(d, m, o.remaining, quantity, NormalizeLot(m, Min(granted, quantity)).value);
  }

  /** A fill short of its quantity has left less than one lot of the bar's budget. */
  lemma FillOrDry(d: Desk, m: Model, remaining: real, quantity: real, fill: real)
    requires var granted := Budgeted(d, EntryRole, remaining);
             WholeLots(m, Min(granted, quantity), fill) && quantity <= remaining
    requires m.step.Some? ==> m.step.value > 0.0 && OnGrid(quantity, m.step.value)
    ensures fill <= quantity
    ensures fill < quantity ==> Dry(Spend(d, EntryRole, fill), m)
  {
    if m.step.Some? && fill < quantity {
      var step := m.step.value;
      GridAdd(quantity, fill, step);
      GridPositive(quantity - fill, step);
    }
  }

  // -------------------------------------------------------- an entry fill

  /** A live entry in hand: the adapter remembers it, its setup matches its side, no signal close waits. */
  ghost predicate EntryInHand(d: Desk, m: Model, timestamp: int, r: nat) {
    && Safe(d, m, timestamp, {r})
    && Alive(d.orders, r) && d.orders[r].role == EntryRole
    && d.exitBar != Some(timestamp)
  }

  lemma EntryFacts(d: Desk, m: Model, timestamp: int, r: nat)
    requires EntryInHand(d, m, timestamp, r)
    ensures NoneLive(d, Signal) && d.entry == Some(r)
    ensures d.orders[r].setup.Some? && d.orders[r].setup.value.long == d.orders[r].buy
    ensures d.book.size == 0.0 ==> NoLegs(d)
    ensures d.book.size != 0.0 ==> d.orders[r].buy == (d.book.size > 0.0)
    ensures !HasExit(d.book.fills, d.book.trade)
  {
    assert Remembered(d, r);
  }

  /** The books after an entry fill. */
  ghost predicate GrownBy(b: Book, t: Book, buy: bool, quantity: real) {
    && Sound(t)
    && t.size == b.size + (if buy then quantity else -quantity)
    && t.size != 0.0 && (t.size > 0.0 <==> buy)
    && t.trade == b.trade && t.leverage == b.leverage
    && !HasExit(t.fills, t.trade)
  }

  /** Every entry fill is one the books admit: it adds to a position no exit has touched. */
  lemma BookEntryGrows(d: Desk, m: Model, timestamp: int, r: nat, reference: real, s: Sizing)
    requires EntryInHand(d, m, timestamp, r) && s.Sized? && s.fill > 0.0
    ensures var f := EntryFill(d, r, reference, s);
            && Allowed(d.book, Filled(f))
            && BookFill(d, f) == d.(book := Apply(d.book, Filled(f)))
            && GrownBy(d.book, BookFill(d, f).book, d.orders[r].buy, s.fill)
  {
    EntryFacts(d, m, timestamp, r);
    var f := EntryFill(d, r, reference, s);
    ApplySound(d.book, Filled(f));
    EntryAddsNoExit(d.book, f);
  }

  lemma EntryAddsNoExit(b: Book, f: Fill)
    requires !HasExit(b.fills, b.trade) && f.entry
    ensures !HasExit(b.fills + [f], b.trade)
  {
  }

  /** The desk after the fill is booked and reported, before its OCO group reacts. */
  function EntryBooked(d: Desk, r: nat, reference: real, s: Sizing): Desk
    requires r < |d.orders| && s.Sized?
  {
    var sized := Update(d, r, d.orders[r].(remaining := s.quantity));
    var f := EntryFill(d, r, reference, s);
    var b := BookFill(sized, f);
    Notify(Update(b, r, Executed(b.orders[r], Tally(d.book, f))), r)
  }

  ghost predicate EntryReported(d: Desk, e: Desk, r: nat, s: Sizing)
    requires s.Sized?
  {
    && OneOrder(d, e, r)
    && e.orders[r].status == (if s.fill == s.quantity then Completed else Partial)
    && e.orders[r].remaining == s.quantity - s.fill
    && e.notices == d.notices + [Snapshot(r, e.orders[r], e.orders[r].status)]
    && GrownBy(d.book, e.book, d.orders[r].buy, s.fill)
  }

  lemma EntryBookedShape(d: Desk, m: Model, timestamp: int, r: nat, reference: real, s: Sizing)
    requires EntryInHand(d, m, timestamp, r) && s.Sized? && s.fill > 0.0
    ensures EntryReported(d, EntryBooked(d, r, reference, s), r, s)
  {
    BookEntryGrows(d, m, timestamp, r, reference, s);
    EntryReportedShape(d, r, reference, s, EntryFill(d, r, reference, s), BookFill(d, EntryFill(d, r, reference, s)).book);
  }

  lemma EntryReportedShape(d: Desk, r: nat, reference: real, s: Sizing, f: Fill, book: Book)
    requires r < |d.orders| && s.Sized? && d.book.leverage > 0.0 && f == EntryFill(d, r, reference, s)
    requires BookFill(d, f) == d.(book := book) && GrownBy(d.book, book, d.orders[r].buy, s.fill)
    ensures EntryReported(d, EntryBooked(d, r, reference, s), r, s)
  {
    var sized := Update(d, r, d.orders[r].(remaining := s.quantity));
    assert BookFill(sized, f) == sized.(book := book);
  }

  /** The desk right after an entry fill: everything but protection is in order. */
  ghost predicate Entered(d: Desk, t: Desk, m: Model, timestamp: int, r: nat)
    requires r < |d.orders|
  {
    && Struct(t, {r}) && LotRules(t, m) && NoticeRules(t, timestamp)
    && (exists quantity :: GrownBy(d.book, t.book, d.orders[r].buy, quantity))
    && Duller(d.orders, t.orders)
    && t.exitBar == d.exitBar && t.stop == d.stop && t.target == d.target && t.entry == d.entry && t.signal == d.signal
    && (d.book.size != 0.0 && Bracketed(d) ==> KeepsBracket(d, t))
    && (Alive(t.orders, r) ==> Dry(t, m))
  }

  /** Off an exit bar no notification depends on the position. */
  lemma OffExitBar(d: Desk, e: Desk, timestamp: int, n: Notice)
    requires NoticeRules(d, timestamp) && d.exitBar != Some(timestamp) && Duller(d.orders, e.orders)
    requires e.notices == d.notices + [n] && NoticeRule(e, timestamp, n)
    ensures NoticeRules(e, timestamp)
  {
    DullerNoneLive(d, e);
    forall k | k in e.notices ensures NoticeRule(e, timestamp, k) {
      if k in d.notices {
        assert NoticeRule(d, timestamp, k);
      }
    }
  }

  lemma EnterUnfolds(d: Desk, r: nat, reference: real, s: Sizing)
    requires r < |d.orders| && s.Sized?
    ensures Enter(d, r, reference, s) == Spend(OcoCheck(EntryBooked(d, r, reference, s), r), EntryRole, s.fill)
  {
  }

  lemma EntersWell(d: Desk, m: Model, timestamp: int, r: nat, reference: real, s: Sizing)
    requires EntryInHand(d, m, timestamp, r) && s.Sized? && WellSized(d, m, s)
    ensures Entered(d, Enter(d, r, reference, s), m, timestamp, r)
  {
    var e := EntryBooked(d, r, reference, s);
    EntryBookedShape(d, m, timestamp, r, reference, s);
    EnterUnfolds(d, r, reference, s);
    EntryStruct(d, e, m, timestamp, r, s);
    EntrySettles(d, e, m, timestamp, r, s);
  }

  lemma EntryStruct(d: Desk, e: Desk, m: Model, timestamp: int, r: nat, s: Sizing)
    requires EntryInHand(d, m, timestamp, r) && s.Sized? && EntryReported(d, e, r, s)
    ensures Struct(e, {r}) && NoticeRules(e, timestamp)
  {
    EntryFacts(d, m, timestamp, r);
    OwnSoleWinner(d, {r}, r);
    BookedKeepsStruct(d, e, {r}, r);
    if e.orders[r].status == Completed {
      RememberedAlone(e, {r}, r, EntryRole);
    }
    OffExitBar(d, e, timestamp, Snapshot(r, e.orders[r], e.orders[r].status));
  }

  /** Group bookkeeping and liquidity aside, the same desk. */
  ghost predicate GroupsAside(d: Desk, e: Desk, t: Desk, r: nat)
    requires r < |d.orders|
  {
    && t == e.(groups := t.groups, done := t.done, liquidity := t.liquidity)
    && (forall g | g != d.orders[r].group :: Members(t, g) == Members(e, g))
  }

  lemma EntrySettles(d: Desk, e: Desk, m: Model, timestamp: int, r: nat, s: Sizing)
    requires EntryInHand(d, m, timestamp, r) && s.Sized? && EntryReported(d, e, r, s) && WellSized(d, m, s)
    requires Struct(e, {r}) && NoticeRules(e, timestamp)
    ensures Entered(d, Spend(OcoCheck(e, r), EntryRole, s.fill), m, timestamp, r)
  {
    var t := Spend(OcoCheck(e, r), EntryRole, s.fill);
    EntrySpends(d, e, timestamp, r, s);
    CheckKeepsLiquidity(e, r);
    EntrySpendsAlike(d, OcoCheck(e, r), s.fill);
    EntryLots(d, e, m, r, s);
    EntryKeepsBracket(d, e, t, r);
  }

  lemma EntrySpends(d: Desk, e: Desk, timestamp: int, r: nat, s: Sizing)
    requires s.Sized? && EntryReported(d, e, r, s) && Struct(e, {r}) && NoticeRules(e, timestamp)
    requires d.orders[r].role == EntryRole
    ensures var t := Spend(OcoCheck(e, r), EntryRole, s.fill);
            && Struct(t, {r}) && NoticeRules(t, timestamp) && GroupsAside(d, e, t, r)
  {
    LonelyCheck(e, {r}, timestamp, r);
    var c := OcoCheck(e, r);
    SpendKeeps(c, {r}, timestamp, s.fill);
  }

  lemma EntrySpendsAlike(d: Desk, c: Desk, fill: real)
    requires c.liquidity == d.liquidity
    ensures Spend(c, EntryRole, fill).liquidity == Spend(d, EntryRole, fill).liquidity
  {
  }

  lemma CheckKeepsLiquidity(e: Desk, r: nat)
    ensures OcoCheck(e, r).liquidity == e.liquidity
  {
  }

  lemma SpendKeeps(c: Desk, hand: set<nat>, timestamp: int, quantity: real)
    requires Struct(c, hand) && NoticeRules(c, timestamp)
    ensures var t := Spend(c, EntryRole, quantity);
            Struct(t, hand) && NoticeRules(t, timestamp) && t == c.(liquidity := t.liquidity)
  {
    var t := Spend(c, EntryRole, quantity);
    SameStructure(c, t, hand);
    SameNotices(c, t, timestamp);
  }

  lemma EntryLots(d: Desk, e: Desk, m: Model, r: nat, s: Sizing)
    requires LotRules(d, m) && r < |d.orders| && s.Sized? && GrownBy(d.book, e.book, d.orders[r].buy, s.fill) && WellSized(d, m, s)
    ensures LotRules(e, m)
  {
    if m.step.Some? {
      GridAdd(d.book.size, s.fill, m.step.value);
    }
  }

  lemma EntryKeepsBracket(d: Desk, e: Desk, t: Desk, r: nat)
    requires Struct(d, {r}) && OneOrder(d, e, r) && Alive(d.orders, r) && !Protective(d.orders[r].role)
    requires GroupsAside(d, e, t, r)
    ensures Duller(d.orders, t.orders)
    ensures d.book.size != 0.0 && Bracketed(d) ==> KeepsBracket(d, t)
  {
    if d.book.size != 0.0 && Bracketed(d) {
      OwnGroup(d, {r}, r);
      assert Members(t, d.orders[d.stop.value].group) == Members(e, d.orders[d.stop.value].group);
    }
  }

  // ----------------------------------------------------------- protection

  lemma SubmitQueue(d: Desk, hand: set<nat>, o: Order, leader: Option<nat>)
    requires QueueInv(d, hand) && forall h | h in hand :: h < |d.orders|
    ensures QueueInv(Submit(d, o, leader), hand)
  {
    var e := Submit(d, o, leader);
    assert !Queued(d.pending, |d.orders|);
    AppendDistinct(d.pending, Some(|d.orders|));
    forall x: nat ensures Alive(e.orders, x) <==> Alive(d.orders, x) || x == |d.orders| {
    }
    forall x: nat ensures Queued(e.pending, x) <==> Queued(d.pending, x) || x == |d.orders| {
    }
  }

  /** A new order starts its own group. */
  lemma SubmitAlone(d: Desk, o: Order)
    requires GroupInv(d.orders, d.groups) && DoneInv(d)
    ensures var e := Submit(d, o, None);
            && GroupInv(e.orders, e.groups) && DoneInv(e)
            && e.orders == d.orders + [o.(group := |d.orders|, status := Accepted)]
            && Members(e, |d.orders|) == {|d.orders|}
            && (forall g | g != |d.orders| :: Members(e, g) == Members(d, g))
  {
    var s := |d.orders|;
    assert forall x | 0 <= x < s :: d.orders[x].group != s;
  }

  /** A target joins the group of a stop that is alone in it. */
  lemma SubmitBeside(d: Desk, o: Order, leader: nat)
    requires GroupInv(d.orders, d.groups) && DoneInv(d) && leader < |d.orders|
    requires o.role == TakeProfit && d.orders[leader].role == StopLoss && d.orders[leader].group in d.groups
    requires forall x | 0 <= x < |d.orders| && d.orders[x].group == d.orders[leader].group :: x == leader
    ensures var e, group := Submit(d, o, Some(leader)), d.orders[leader].group;
            && GroupInv(e.orders, e.groups) && DoneInv(e)
            && e.orders == d.orders + [o.(group := group, status := Accepted)]
            && Members(e, group) == Members(d, group) + {|d.orders|}
            && (forall g | g != group :: Members(e, g) == Members(d, g))
  {
  }

  /** The desk with a stop, and perhaps a target, submitted for its position. */
  ghost predicate Placed(d: Desk, e: Desk, hand: set<nat>) {
    && Struct(e, hand) && Bracketed(e)
    && d.orders <= e.orders && d.notices <= e.notices
    && (forall i | |d.orders| <= i < |e.orders| :: Live(e.orders[i]) && Protective(e.orders[i].role))
    && (forall n | n in e.notices[|d.notices|..] ::
          n.status == Accepted && n.ref < |e.orders| && e.orders[n.ref].role == n.role)
    && e.book == d.book && e.exitBar == d.exitBar && e.entry == d.entry && e.signal == d.signal
    && e.liquidity == d.liquidity && e.cancelledEntry == d.cancelledEntry
  }

  lemma StopPlaced(d: Desk, hand: set<nat>, long: bool, stop: real, timestamp: int)
    requires Struct(d, hand) && NoLegs(d) && d.book.size != 0.0 && long == (d.book.size > 0.0)
    ensures var e := PlaceBracket(d, long, stop, None, timestamp);
            && Placed(d, e, hand) && e.stop == Some(|d.orders|)
            && |e.orders| == |d.orders| + 1
            && e.orders[|d.orders|].group == |d.orders| && |d.orders| in e.groups
  {
    var o := Leg(StopLoss, !long, StopOrder, stop, Held(d), timestamp);
    SubmitQueue(d, hand, o, None);
    SubmitAlone(d, o);
    var e := PlaceBracket(d, long, stop, None, timestamp);
    forall x: nat | Alive(e.orders, x) ensures Remembered(e, x) {
      assert x < |d.orders| ==> Alive(d.orders, x) && Remembered(d, x);
    }
  }

  lemma TargetPlaced(d: Desk, e: Desk, hand: set<nat>, long: bool, price: real, timestamp: int)
    requires Placed(d, e, hand) && d.book.size != 0.0 && long == (d.book.size > 0.0)
    requires e.target == None && e.stop == Some(|d.orders|) && |e.orders| == |d.orders| + 1
    requires e.orders[|d.orders|].group == |d.orders| && |d.orders| in e.groups && GroupRange(d.orders)
    ensures var o := Leg(TakeProfit, !long, LimitOrder, price, Held(e), timestamp);
            Placed(d, Submit(e, o, e.stop).(target := Some(|e.orders|)), hand)
  {
    var o := Leg(TakeProfit, !long, LimitOrder, price, Held(e), timestamp);
    var s := |d.orders|;
    assert e.orders[s].role == StopLoss;
    forall x | 0 <= x < s ensures e.orders[x].group != s {
      assert e.orders[x] == d.orders[x];
    }
    SubmitQueue(e, hand, o, Some(s));
    SubmitBeside(e, o, s);
    var t := Submit(e, o, Some(s)).(target := Some(|e.orders|));
    forall x: nat | Alive(t.orders, x) ensures Remembered(t, x) {
      assert x < |e.orders| ==> Alive(e.orders, x) && Remembered(e, x);
    }
    assert t.notices[|d.notices|..] == e.notices[|d.notices|..] + [Notice(|e.orders|, TakeProfit, Accepted, NOTHING)];
  }

  /** A fresh bracket covers the position. */
  lemma BracketPlaced(d: Desk, hand: set<nat>, long: bool, stop: real, target: Option<real>, timestamp: int)
    requires Struct(d, hand) && NoLegs(d) && d.book.size != 0.0 && long == (d.book.size > 0.0)
    ensures Placed(d, PlaceBracket(d, long, stop, target, timestamp), hand)
  {
    StopPlaced(d, hand, long, stop, timestamp);
    if target.Some? {
      TargetPlaced(d, PlaceBracket(d, long, stop, None, timestamp), hand, long, target.value, timestamp);
      TargetAfterStop(d, long, stop, target.value, timestamp);
    }
  }

  lemma TargetAfterStop(d: Desk, long: bool, stop: real, price: real, timestamp: int)
    ensures var e := PlaceBracket(d, long, stop, None, timestamp);
            PlaceBracket(d, long, stop, Some(price), timestamp)
            == Submit(e, Leg(TakeProfit, !long, LimitOrder, price, Held(e), timestamp), e.stop).(target := Some(|e.orders|))
  {
    var s := |d.orders|;
    var stopped := Submit(d, Leg(StopLoss, !long, StopOrder, stop, Held(d), timestamp), None).(stop := Some(s));
    var e := PlaceBracket(d, long, stop, None, timestamp);
    var o := Leg(TakeProfit, !long, LimitOrder, price, Held(d), timestamp);
    assert e == stopped.(target := None);
    assert Submit(e, o, Some(s)).(target := Some(s + 1)) == Submit(stopped, o, Some(s)).(target := Some(s + 1));
  }

  /** After an entry fill the position is protected; a live remainder means the bar's budget is gone. */
  ghost predicate Guarded(u: Desk, m: Model, timestamp: int, r: nat) {
    && Safe(u, m, timestamp, {r})
    && u.book.size != 0.0
    && NoneLive(u, Signal)
    && r < |u.orders| && u.orders[r].role == EntryRole
    && (Alive(u.orders, r) ==> Dry(u, m))
  }

  /** Live orders are those of before, or legs. */
  ghost predicate OnlyLegsAdded(d: Desk, u: Desk) {
    forall x: nat | Alive(u.orders, x) ::
      Protective(u.orders[x].role) || (Alive(d.orders, x) && SameIdentity(d.orders[x], u.orders[x]))
  }

  lemma EntryRulesHold(d: Desk, u: Desk, m: Model, timestamp: int, r: nat)
    requires EntryInHand(d, m, timestamp, r) && OnlyLegsAdded(d, u)
    requires u.book.size != 0.0 && (u.book.size > 0.0 <==> d.orders[r].buy) && !HasExit(u.book.fills, u.book.trade)
    ensures SignalRules(u) && EntryRules(u) && NoneLive(u, Signal)
  {
    EntryFacts(d, m, timestamp, r);
    forall x: nat | Alive(u.orders, x) && u.orders[x].role == EntryRole ensures x == r {
      assert Remembered(d, x);
    }
  }

  lemma ProtectResizes(d: Desk, t: Desk, m: Model, timestamp: int, r: nat)
    requires EntryInHand(d, m, timestamp, r) && Entered(d, t, m, timestamp, r) && d.book.size != 0.0
    ensures Guarded(Resize(t), m, timestamp, r) && Elder(d.orders, Resize(t).orders)
  {
    EntryFacts(d, m, timestamp, r);
    ResizeCovers(d, t);
    ResizeKeepsStruct(t, {r});
    ResizeIsDull(t);
    SameNotices(t, Resize(t), timestamp);
    DullerTransitive(d.orders, t.orders, Resize(t).orders);
    EntryRulesHold(d, Resize(t), m, timestamp, r);
  }

  lemma ProtectPlaces(d: Desk, t: Desk, u: Desk, m: Model, timestamp: int, r: nat)
    requires EntryInHand(d, m, timestamp, r) && Entered(d, t, m, timestamp, r) && d.book.size == 0.0
    requires Placed(t, u, {r})
    ensures Guarded(u, m, timestamp, r)
  {
    PlacedNotices(t, u, {r}, timestamp);
    EntryRulesHold(d, u, m, timestamp, r);
  }

  lemma PlacedNotices(t: Desk, u: Desk, hand: set<nat>, timestamp: int)
    requires NoticeRules(t, timestamp) && Placed(t, u, hand) && t.exitBar != Some(timestamp)
    ensures NoticeRules(u, timestamp)
  {
    forall n | n in u.notices ensures NoticeRule(u, timestamp, n) {
      if n in t.notices {
        assert NoticeRule(t, timestamp, n);
      } else {
        assert u.notices == t.notices + u.notices[|t.notices|..];
        assert n in u.notices[|t.notices|..];
      }
    }
  }

  lemma ProtectSafe(d: Desk, t: Desk, m: Model, bar: Bar, r: nat)
    requires EntryInHand(d, m, bar.timestamp, r) && Entered(d, t, m, bar.timestamp, r) && d.orders[r].setup.Some?
    ensures Guarded(Protect(t, m, bar, d.orders[r].setup.value), m, bar.timestamp, r)
    ensures Elder(d.orders, Protect(t, m, bar, d.orders[r].setup.value).orders)
  {
    EntryFacts(d, m, bar.timestamp, r);
    if d.book.size != 0.0 {
      ProtectResizes(d, t, m, bar.timestamp, r);
    } else {
      FirstFillProtected(d, t, m, bar, r);
    }
  }

  lemma FirstFillProtected(d: Desk, t: Desk, m: Model, bar: Bar, r: nat)
    requires EntryInHand(d, m, bar.timestamp, r) && Entered(d, t, m, bar.timestamp, r) && d.orders[r].setup.Some?
    requires d.book.size == 0.0
    ensures Guarded(Protect(t, m, bar, d.orders[r].setup.value), m, bar.timestamp, r)
    ensures Elder(d.orders, Protect(t, m, bar, d.orders[r].setup.value).orders)
  {
    var setup := d.orders[r].setup.value;
    EntryFacts(d, m, bar.timestamp, r);
    DullerNoneLive(d, t);
    BracketPlaced(t, {r}, setup.long, setup.stop, setup.target, bar.timestamp);
    var placed := PlaceBracket(t, setup.long, setup.stop, setup.target, bar.timestamp);
    var u := Protect(t, m, bar, setup);
    ActivationAside(t, placed, u, {r});
    ProtectPlaces(d, t, u, m, bar.timestamp, r);
    PlacedIsElder(d, t, u, {r});
  }

  lemma PlacedIsElder(d: Desk, t: Desk, u: Desk, hand: set<nat>)
    requires Duller(d.orders, t.orders) && Placed(t, u, hand)
    ensures Elder(d.orders, u.orders)
  {
    forall i | 0 <= i < |d.orders|
      ensures u.orders[i].role == d.orders[i].role && u.orders[i].group == d.orders[i].group
      ensures Live(d.orders[i]) || u.orders[i].status == d.orders[i].status
    {
      assert u.orders[i] == t.orders[i] && SameIdentity(d.orders[i], t.orders[i]);
    }
  }

  lemma ActivationAside(t: Desk, placed: Desk, u: Desk, hand: set<nat>)
    requires Placed(t, placed, hand) && u == placed.(protectionActive := u.protectionActive)
    ensures Placed(t, u, hand)
  {
    SameStructure(placed, u, hand);
  }

  // ----------------------------------------------------- the whole attempt

  /** Ending the life of an order in hand that does not guard an open position. */
  lemma RetireSafe(d: Desk, m: Model, timestamp: int, hand: set<nat>, r: nat, status: Status)
    requires Safe(d, m, timestamp, hand) && r in hand && Alive(d.orders, r)
    requires status == Canceled || status == Rejected || status == Margin
    requires d.book.size != 0.0 ==> d.orders[r].group != d.orders[d.stop.value].group
    ensures Safe(Retire(d, r, status), m, timestamp, hand) && !Alive(Retire(d, r, status).orders, r)
    ensures Duller(d.orders, Retire(d, r, status).orders)
  {
    var e := Retire(d, r, status);
    RetireInHand(d, hand, r, status);
    RetiredRules(d, e, r, status);
    RetiredNotices(d, e, timestamp, r, status);
    RetiredCore(d, e, m, timestamp, hand, r);
  }

  lemma RetiredRules(d: Desk, e: Desk, r: nat, status: Status)
    requires Alive(d.orders, r) && e == Retire(d, r, status) && status in {Canceled, Rejected, Margin}
    ensures Duller(d.orders, e.orders)
    ensures SignalRules(d) ==> SignalRules(e)
    ensures EntryRules(d) ==> EntryRules(e)
  {
    ShrunkSignalsOf(d, e);
  }

  /** An order outside the open bracket died: the bracket is as it was. */
  lemma RetiredCore(d: Desk, e: Desk, m: Model, timestamp: int, hand: set<nat>, r: nat)
    requires Core(d, m, timestamp, hand) && Struct(e, hand) && NoticeRules(e, timestamp) && Duller(d.orders, e.orders)
    requires r < |d.orders| == |e.orders|
    requires e == d.(orders := e.orders, notices := e.notices) && d.notices <= e.notices
    requires forall i | 0 <= i < |d.orders| && i != r :: e.orders[i] == d.orders[i]
    requires d.book.size != 0.0 ==> d.orders[r].group != d.orders[d.stop.value].group
    ensures Core(e, m, timestamp, hand)
  {
    DullerNoneLive(d, e);
  }

  lemma RetiredNotices(d: Desk, e: Desk, timestamp: int, r: nat, status: Status)
    requires NoticeRules(d, timestamp) && r < |d.orders| && Alive(d.orders, r) && e == Retire(d, r, status)
    requires status == Canceled || status == Rejected || status == Margin
    ensures NoticeRules(e, timestamp)
  {
    DullerNoneLive(d, e);
    forall n | n in e.notices ensures NoticeRule(e, timestamp, n) {
      if n in d.notices {
        assert NoticeRule(d, timestamp, n);
      }
    }
  }

  lemma RetireEntrySafe(d: Desk, m: Model, timestamp: int, r: nat, status: Status)
    requires Safe(d, m, timestamp, {r}) && Alive(d.orders, r) && d.orders[r].role == EntryRole
    requires status == Canceled || status == Rejected || status == Margin
    ensures Safe(Retire(d, r, status), m, timestamp, {r}) && NoneLive(Retire(d, r, status), Signal)
  {
    if d.book.size != 0.0 {
      OwnGroup(d, {r}, r);
    }
    RetireSafe(d, m, timestamp, {r}, r, status);
    DullerNoneLive(d, Retire(d, r, status));
  }

  lemma BreachIsLeg(d: Desk, m: Model, timestamp: int, hand: set<nat>, reference: real)
    requires Safe(d, m, timestamp, hand)
    ensures Breach(d, reference).Some? ==> PickIsLeg(d, Breach(d, reference).value)
  {
  }

  /** Protection reacts to the fill at once. */
  lemma FillMeetsProtection(u: Desk, m: Model, bar: Bar, r: nat, reference: real)
    requires Guarded(u, m, bar.timestamp, r)
    ensures var v := MatchProtection(u, m, bar, false, Breach(u, reference), false);
            && Safe(v, m, bar.timestamp, {r}) && NoneLive(v, Signal) && Elder(u.orders, v.orders)
            && r < |v.orders| && v.orders[r].role == EntryRole
  {
    var breach := Breach(u, reference);
    BreachIsLeg(u, m, bar.timestamp, {r}, reference);
    MatchProtectionSafe(u, m, bar, {r}, false, breach, false);
    var v := MatchProtection(u, m, bar, false, breach, false);
    if LegExited(u, v, bar) {
      DullerNoneLive(u, v);
    }
  }

  /** Then an unwanted remainder is canceled. */
  lemma AfterEntrySafe(u: Desk, m: Model, bar: Bar, r: nat, reference: real)
    requires Guarded(u, m, bar.timestamp, r)
    ensures var e := CancelRemainder(MatchProtection(u, m, bar, false, Breach(u, reference), false), m, r);
            Safe(e, m, bar.timestamp, {r}) && NoneLive(e, Signal) && Elder(u.orders, e.orders)
  {
    FillMeetsProtection(u, m, bar, r, reference);
    RemainderSafe(u, MatchProtection(u, m, bar, false, Breach(u, reference), false), m, bar.timestamp, r);
  }

  lemma RemainderSafe(u: Desk, v: Desk, m: Model, timestamp: int, r: nat)
    requires Safe(v, m, timestamp, {r}) && NoneLive(v, Signal) && Elder(u.orders, v.orders)
    requires r < |v.orders| && v.orders[r].role == EntryRole
    ensures var e := CancelRemainder(v, m, r);
            Safe(e, m, timestamp, {r}) && NoneLive(e, Signal) && Elder(u.orders, e.orders)
  {
    if Alive(v.orders, r) {
      RetireEntrySafe(v, m, timestamp, r, Canceled);
      ElderTrans(u.orders, v.orders, Retire(v, r, Canceled).orders);
    }
  }

  /** Executing an entry keeps the desk safe, however it ends. */
  lemma ExecuteEntrySafe(d: Desk, m: Model, bar: Bar, r: nat, reference: real)
    requires EntryInHand(d, m, bar.timestamp, r)
    ensures var e := ExecuteEntry(d, m, bar, r, reference);
            Safe(e, m, bar.timestamp, {r}) && NoneLive(e, Signal) && Elder(d.orders, e.orders)
  {
    EntryFacts(d, m, bar.timestamp, r);
    var s := SizeEntry(d, m, bar, r, reference);
    match s
    case Idle =>
    case Refused(status) =>
      RefusedStatus(d, m, bar, r, reference);
      RetireEntrySafe(d, m, bar.timestamp, r, status);
    case Sized(_, _, _, _, _, _) =>
      SizedEntrySafe(d, m, bar, r, reference, s);
  }

  lemma SizedEntrySafe(d: Desk, m: Model, bar: Bar, r: nat, reference: real, s: Sizing)
    requires EntryInHand(d, m, bar.timestamp, r) && d.orders[r].setup.Some?
    requires s == SizeEntry(d, m, bar, r, reference) && s.Sized?
    ensures var e := Answered(Enter(d, r, reference, s), m, bar, r, d.orders[r].setup.value, reference);
            Safe(e, m, bar.timestamp, {r}) && NoneLive(e, Signal) && Elder(d.orders, e.orders)
  {
    var t := Enter(d, r, reference, s);
    var u := Protect(t, m, bar, d.orders[r].setup.value);
    SizedWell(d, m, bar, r, reference);
    EntersWell(d, m, bar.timestamp, r, reference, s);
    ProtectSafe(d, t, m, bar, r);
    AfterEntrySafe(u, m, bar, r, reference);
    ElderTrans(d.orders, u.orders, Answered(t, m, bar, r, d.orders[r].setup.value, reference).orders);
  }

  lemma RefusedStatus(d: Desk, m: Model, bar: Bar, r: nat, reference: real)
    ensures SizeEntry(d, m, bar, r, reference).Refused? ==>
              SizeEntry(d, m, bar, r, reference).status == Rejected || SizeEntry(d, m, bar, r, reference).status == Margin
  {
  }

  lemma MetBarSafe(t: Desk, m: Model, bar: Bar, r: nat)
    requires EntryInHand(t, m, bar.timestamp, r)
    ensures var e := MetBar(t, m, bar, r);
            Safe(e, m, bar.timestamp, {r}) && NoneLive(e, Signal) && Elder(t.orders, e.orders)
  {
    EntryFacts(t, m, bar.timestamp, r);
    var reference := MatchReference(t.orders[r].kind, t.orders[r].buy, t.orders[r].price, bar);
    if reference.Some? {
      ExecuteEntrySafe(t, m, bar, r, reference.value);
    }
  }

  lemma LottedSafe(d: Desk, m: Model, bar: Bar, r: nat, lots: real, t: Desk)
    requires Safe(d, m, bar.timestamp, {r}) && Alive(d.orders, r) && d.orders[r].role == EntryRole
    requires EntryDue(d, m, bar, d.orders[r]) && NormalizeLot(m, d.orders[r].remaining) == Some(lots)
    requires t == Update(d, r, d.orders[r].(remaining := lots))
    ensures var e := MetBar(t, m, bar, r);
            Safe(e, m, bar.timestamp, {r}) && NoneLive(e, Signal) && Elder(d.orders, e.orders)
  {
    FiguresKeepSafe(d, m, bar.timestamp, {r}, r, t.orders[r]);
    MetBarSafe(t, m, bar, r);
    ElderTrans(d.orders, t.orders, MetBar(t, m, bar, r).orders);
  }

  /** A popped entry keeps the desk safe, whether it waits, is refused, or fills. */
  lemma TryEntrySafe(d: Desk, m: Model, bar: Bar, r: nat)
    requires Safe(d, m, bar.timestamp, {r}) && Alive(d.orders, r) && d.orders[r].role == EntryRole
    ensures var e := TryEntry(d, m, bar, r);
            Safe(e, m, bar.timestamp, {r}) && NoneLive(e, Signal) && Elder(d.orders, e.orders)
  {
    if EntryDue(d, m, bar, d.orders[r]) {
      var lots := NormalizeLot(m, d.orders[r].remaining);
      if lots == None {
        RetireEntrySafe(d, m, bar.timestamp, r, Rejected);
      } else {
        LottedSafe(d, m, bar, r, lots.value, Update(d, r, d.orders[r].(remaining := lots.value)));
      }
    }
  }
}
