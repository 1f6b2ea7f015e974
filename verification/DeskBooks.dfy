/**
 What each operation does to the books and to the bar's volume budget: most
 leave both alone; those that trade only ever append fills, referenced to the
 bar they trade on, and take their quantity from the budget.
 */
module DeskBooks {
  import opened Wrappers
  import opened Rounding
  import opened TradeBook
  import opened ExecutionPricing
  import opened DeskTypes
  import opened DeskExecution
  import opened DeskBar
  import opened DeskStructure
  import opened DeskSafety
  import opened DeskSignal
  import opened DeskEntry
  import opened DeskSteps
  import opened DeskPass

  // ------------------------------------------------- books left alone

  /** The books and the bar's budget are as they were. */
  predicate SameMoney(d: Desk, e: Desk) {
    e.book == d.book && e.liquidity == d.liquidity
  }

  lemma CheckBook(d: Desk, r: nat)
    ensures SameMoney(d, OcoCheck(d, r))
  {
  }

  lemma CancelKeepsBook(d: Desk, r: nat)
    ensures SameMoney(d, Cancel(d, r))
  {
    if r < |d.orders| && Queued(d.pending, r) {
      CheckBook(Retire(Remove(d, r), r, Canceled), r);
    }
  }

  lemma CancelBook(d: Desk, r: Option<nat>)
    ensures SameMoney(d, CancelAlive(d, r))
  {
    if IsAlive(d, r) {
      CancelKeepsBook(d, r.value);
    }
  }

  lemma FulfilBook(d: Desk, r: nat, added: Figures)
    ensures SameMoney(d, Fulfil(d, r, added))
  {
    if r < |d.orders| {
      CheckBook(Notify(Update(d, r, Executed(d.orders[r], added)), r), r);
    }
  }

  lemma AfterExitBook(d: Desk, r: nat, role: Role)
    ensures SameMoney(d, AfterExit(d, r, role))
  {
    CancelBook(d, d.stop);
    CancelBook(CancelAlive(d, d.stop), d.target);
    var legs := if role != Signal then d
                else if d.book.size != 0.0 then Resize(d)
                else CancelAlive(CancelAlive(d, d.stop), d.target);
    CancelBook(legs, legs.signal);
  }

  lemma SettledBook(booked: Desk, bar: Bar, r: nat, role: Role, quantity: real, added: Figures)
    ensures SameMoney(Spend(booked, role, quantity), AfterExit(RecordExit(Fulfil(booked, r, added), bar, role, quantity), r, role))
  {
    var filled := Fulfil(booked, r, added);
    FulfilBook(booked, r, added);
    CancelBook(Spend(filled, role, quantity).(exitBar := Some(bar.timestamp), lastExitRole := Some(role)), filled.entry);
    AfterExitBook(RecordExit(filled, bar, role, quantity), r, role);
  }

  lemma ClosedBook(t: Desk, m: Model, bar: Bar, r: nat, quantity: real, reference: real, fee: real)
    requires r < |t.orders|
    ensures var e := ClosedBy(t, m, bar, r, quantity, reference, fee);
            && e.book == BookFill(t, ExitFill(t, m, bar, r, quantity, reference, fee)).book
            && e.liquidity == Spend(t, t.orders[r].role, quantity).liquidity
  {
    var f := ExitFill(t, m, bar, r, quantity, reference, fee);
    SettledBook(BookFill(t, f), bar, r, t.orders[r].role, quantity, Tally(t.book, f));
  }

  lemma ProtectBook(d: Desk, m: Model, bar: Bar, setup: Setup)
    ensures SameMoney(d, Protect(d, m, bar, setup))
  {
  }

  lemma EnteredBook(d: Desk, r: nat, reference: real, s: Sizing)
    requires r < |d.orders| && s.Sized?
    ensures Enter(d, r, reference, s).book == BookFill(d, EntryFill(d, r, reference, s)).book
    ensures Enter(d, r, reference, s).liquidity == Spend(d, EntryRole, s.fill).liquidity
  {
    EnterUnfolds(d, r, reference, s);
    CheckBook(EntryBooked(d, r, reference, s), r);
  }

  // ------------------------------------------------------- what a bar books

  /** The quantity the fills traded. */
  function Volume(fills: seq<Fill>): real {
    if fills == [] then 0.0 else Volume(fills[..|fills| - 1]) + fills[|fills| - 1].size
  }

  lemma {:induction false} VolumeSplits(x: seq<Fill>, y: seq<Fill>)
    ensures Volume(x + y) == Volume(x) + Volume(y)
  {
    if y == [] {
      assert x + y == x;
    } else {
      VolumeSplits(x, y[..|y| - 1]);
      assert (x + y)[..|x + y| - 1] == x + y[..|y| - 1];
    }
  }

  lemma VolumeOne(f: Fill)
    ensures Volume([f]) == f.size
  {
    assert [f][..0] == [];
  }

  predicate WellFormed(bar: Bar) {
    bar.low <= bar.open <= bar.high
  }

  /** A fill is referenced to a price its bar traded at. */
  predicate Reached(bar: Bar, reference: real) {
    bar.low <= reference <= bar.high
  }

  /** Every fill is referenced to a price of its bar, save perhaps an exit right after an entry of the same bar. */
  ghost predicate OnBar(bar: Bar, fills: seq<Fill>) {
    forall i | 0 <= i < |fills| ::
      Reached(bar, fills[i].reference) || (!fills[i].entry && i > 0 && fills[i - 1].entry)
  }

  lemma OnBarThen(bar: Bar, x: seq<Fill>, y: seq<Fill>)
    requires OnBar(bar, x) && OnBar(bar, y)
    ensures OnBar(bar, x + y)
  {
    var all := x + y;
    forall i | 0 <= i < |all|
      ensures Reached(bar, all[i].reference) || (!all[i].entry && i > 0 && all[i - 1].entry)
    {
      if i >= |x| {
        assert all[i] == y[i - |x|];
        assert i > |x| ==> all[i - 1] == y[i - 1 - |x|];
      } else {
        assert all[i] == x[i] && (i > 0 ==> all[i - 1] == x[i - 1]);
      }
    }
  }

  /** The fills booked between two states. */
  function Booking(d: Desk, e: Desk): seq<Fill>
    requires d.book.fills <= e.book.fills
  {
    e.book.fills[|d.book.fills|..]
  }

  lemma BookingSplits(d: Desk, e: Desk, f: Desk)
    requires d.book.fills <= e.book.fills && e.book.fills <= f.book.fills
    ensures Booking(d, f) == Booking(d, e) + Booking(e, f)
  {
    assert f.book.fills == e.book.fills + Booking(e, f);
    assert e.book.fills == d.book.fills + Booking(d, e);
  }

  /** The budget is what it was, less what traded. */
  predicate TakenFrom(before: Option<real>, after: Option<real>, quantity: real) {
    match before
    case None => after == None
    case Some(left) => after == Some(left - quantity)
  }

  predicate Solvent(d: Desk) {
    d.liquidity.Some? ==> d.liquidity.value >= 0.0
  }

  /** Fills are only added, taken from the budget and no more than it holds; nobody settles funding. */
  ghost predicate Trades(d: Desk, e: Desk) {
    && d.book.fills <= e.book.fills
    && e.book.leverage == d.book.leverage && e.book.funding == d.book.funding
    && TakenFrom(d.liquidity, e.liquidity, Volume(Booking(d, e)))
    && (Solvent(d) ==> Solvent(e))
  }

  ghost predicate Appends(d: Desk, e: Desk, bar: Bar) {
    Trades(d, e) && (WellFormed(bar) ==> OnBar(bar, Booking(d, e)))
  }

  lemma TradesThen(d: Desk, e: Desk, f: Desk)
    requires Trades(d, e) && Trades(e, f)
    ensures Trades(d, f) && Booking(d, f) == Booking(d, e) + Booking(e, f)
  {
    BookingSplits(d, e, f);
    VolumeSplits(Booking(d, e), Booking(e, f));
  }

  lemma AppendsThen(d: Desk, e: Desk, f: Desk, bar: Bar)
    requires Appends(d, e, bar) && Appends(e, f, bar)
    ensures Appends(d, f, bar)
  {
    TradesThen(d, e, f);
    if WellFormed(bar) {
      OnBarThen(bar, Booking(d, e), Booking(e, f));
    }
  }

  lemma NothingBooked(d: Desk, e: Desk, bar: Bar)
    requires SameMoney(d, e)
    ensures Appends(d, e, bar) && Booking(d, e) == []
  {
  }

  lemma MoneyAside(d: Desk, e: Desk, f: Desk, bar: Bar)
    requires SameMoney(d, e) && Appends(e, f, bar)
    ensures Appends(d, f, bar)
  {
  }

  // ------------------------------------------------------------------ exits

  /** Nothing, or one exit at this reference. */
  predicate OneExit(fills: seq<Fill>, reference: real) {
    fills == [] || (|fills| == 1 && !fills[0].entry && fills[0].reference == reference)
  }

  lemma ExitSizeFits(d: Desk, m: Model, r: nat)
    requires r < |d.orders| && !Unbudgeted(d.orders[r].role) && d.liquidity.Some?
    ensures ExitSize(d, m, r) <= d.liquidity.value
  {
    if m.step.Some? && m.step.value > 0.0 {
      FloorStepBounds(Budgeted(d, d.orders[r].role, ExitRequest(d, r)), m.step.value);
    }
  }

  lemma FillIsTaken(d: Desk, e: Desk, f: Fill)
    requires d.book.leverage > 0.0 && e.book == Recorded(d.book, f) && e.book.fills == d.book.fills + [f]
    requires e.liquidity == Spend(d, EntryRole, f.size).liquidity
    requires d.liquidity.Some? ==> f.size <= d.liquidity.value
    ensures Trades(d, e) && Booking(d, e) == [f]
  {
    VolumeOne(f);
  }

  lemma ExitRecorded(b: Book, f: Fill)
    requires b.leverage > 0.0 && !f.entry
    ensures Recorded(b, f).fills == b.fills + [f]
  {
  }

  lemma ClosedTrades(t: Desk, m: Model, bar: Bar, r: nat, quantity: real, reference: real, fee: real)
    requires t.book.leverage > 0.0 && r < |t.orders| && !Unbudgeted(t.orders[r].role)
    requires t.liquidity.Some? ==> quantity <= t.liquidity.value
    ensures var e := ClosedBy(t, m, bar, r, quantity, reference, fee);
            Trades(t, e) && Booking(t, e) == [ExitFill(t, m, bar, r, quantity, reference, fee)]
  {
    var f := ExitFill(t, m, bar, r, quantity, reference, fee);
    ClosedBook(t, m, bar, r, quantity, reference, fee);
    ExitRecorded(t.book, f);
    FillIsTaken(t, ClosedBy(t, m, bar, r, quantity, reference, fee), f);
  }

  lemma ExitTrades(d: Desk, m: Model, bar: Bar, r: nat, reference: real, fee: real)
    requires d.book.leverage > 0.0
    requires r < |d.orders| ==> !Unbudgeted(d.orders[r].role)
    ensures var e := ExecuteExit(d, m, bar, r, reference, fee);
            Trades(d, e) && OneExit(Booking(d, e), reference)
  {
    if Closes(d, r) && ExitSize(d, m, r) > 0.0 {
      if d.liquidity.Some? {
        ExitSizeFits(d, m, r);
      }
      ClosedTrades(Trimmed(d, r), m, bar, r, ExitSize(d, m, r), reference, fee);
    }
  }

  lemma ExitAppends(d: Desk, m: Model, bar: Bar, r: nat, reference: real, fee: real)
    requires d.book.leverage > 0.0
    requires r < |d.orders| ==> !Unbudgeted(d.orders[r].role)
    requires WellFormed(bar) ==> Reached(bar, reference)
    ensures Appends(d, ExecuteExit(d, m, bar, r, reference, fee), bar)
  {
    ExitTrades(d, m, bar, r, reference, fee);
  }

  /** The remembered legs are legs. */
  predicate LegRoles(d: Desk) {
    HasRole(d.orders, d.stop, StopLoss) && HasRole(d.orders, d.target, TakeProfit)
  }

  predicate Trading(d: Desk) {
    d.book.leverage > 0.0 && LegRoles(d)
  }

  lemma KeepsLegRoles(d: Desk, e: Desk)
    requires LegRoles(d) && Keeps(d, e)
    ensures LegRoles(e)
  {
    forall i | 0 <= i < |d.orders| ensures e.orders[i].role == d.orders[i].role {
      assert SameTerms(d.orders[i], e.orders[i]);
    }
  }

  lemma ProtectionTrades(d: Desk, m: Model, bar: Bar, allowGap: bool, breach: Option<Pick>, openOnly: bool)
    requires Trading(d)
    requires breach.Some? ==> d.stop == Some(breach.value.ref) || d.target == Some(breach.value.ref)
    ensures var selected, e := Selection(d, bar, allowGap, breach, openOnly), MatchProtection(d, m, bar, allowGap, breach, openOnly);
            && Trades(d, e)
            && (if selected == None then Booking(d, e) == [] else OneExit(Booking(d, e), selected.value.reference))
  {
    var selected := Selection(d, bar, allowGap, breach, openOnly);
    if selected.Some? {
      ExitTrades(Remove(d, selected.value.ref), m, bar, selected.value.ref, selected.value.reference, 0.0);
    }
  }

  lemma SelectedInside(d: Desk, bar: Bar, openOnly: bool)
    requires WellFormed(bar) && Selection(d, bar, true, None, openOnly).Some?
    ensures Reached(bar, Selection(d, bar, true, None, openOnly).value.reference)
  {
  }

  lemma OneExitAppends(d: Desk, e: Desk, bar: Bar, reference: real)
    requires Trades(d, e) && OneExit(Booking(d, e), reference)
    requires WellFormed(bar) ==> Reached(bar, reference)
    ensures Appends(d, e, bar)
  {
  }

  lemma ProtectionAppends(d: Desk, m: Model, bar: Bar, openOnly: bool)
    requires Trading(d)
    ensures Appends(d, MatchProtection(d, m, bar, true, None, openOnly), bar)
  {
    var selected, e := Selection(d, bar, true, None, openOnly), MatchProtection(d, m, bar, true, None, openOnly);
    ProtectionTrades(d, m, bar, true, None, openOnly);
    if selected.Some? {
      if WellFormed(bar) {
        SelectedInside(d, bar, openOnly);
      }
      OneExitAppends(d, e, bar, selected.value.reference);
    }
  }

  lemma SignalAppends(d: Desk, m: Model, bar: Bar, r: nat)
    requires Trading(d) && (r < |d.orders| ==> d.orders[r].role == Signal)
    ensures Appends(d, MatchSignalOpen(d, m, bar, r), bar)
  {
    if r >= |d.orders| || d.orders[r].matchedAt == Some(bar.timestamp) || bar.timestamp <= d.orders[r].createdAt {
    } else if d.orders[r].positionId != d.book.trade || d.book.size <= 0.0 {
      CancelKeepsBook(d, r);
      NothingBooked(d, Cancel(d, r), bar);
    } else {
      var t := MatchProtection(d, m, bar, true, None, true);
      ProtectionAppends(d, m, bar, true);
      MatchProtectionSteps(d, m, bar, true, None, true);
      assert SameTerms(d.orders[r], t.orders[r]);
      SignalFillAppends(t, m, bar, r);
      AppendsThen(d, t, CloseAtOpen(t, m, bar, r), bar);
    }
  }

  lemma SignalFillAppends(t: Desk, m: Model, bar: Bar, r: nat)
    requires t.book.leverage > 0.0 && r < |t.orders| && t.orders[r].role == Signal
    ensures Appends(t, CloseAtOpen(t, m, bar, r), bar)
  {
    var marked := Remove(Update(t, r, t.orders[r].(matchedAt := Some(bar.timestamp))), r);
    ExitAppends(marked, m, bar, r, bar.open, 0.0);
    MoneyAside(t, marked, ExecuteExit(marked, m, bar, r, bar.open, 0.0), bar);
  }

  // ---------------------------------------------------------------- entries

  lemma LotsNoMore(m: Model, quantity: real)
    ensures NormalizeLot(m, quantity).Some? ==> NormalizeLot(m, quantity).value <= quantity
  {
    if m.step.Some? && m.step.value > 0.0 {
      FloorStepBounds(quantity, m.step.value);
    }
  }

  lemma GrantedFits(d: Desk, m: Model, bar: Bar, o: Order, stop: real, granted: real, reference: real)
    requires d.book.leverage > 0.0
    ensures var s := Granted(d, m, bar, o, stop, granted, reference);
            s.Sized? ==> s.fill <= granted
  {
    var fraction := Fraction(m, bar.volume, granted);
    var price := Adjusted(o.buy, EntryCap(o), reference, fraction);
    var rate, exitRate := Rate(m, o.kind == LimitOrder, bar.timestamp), Rate(m, false, bar.timestamp);
    var quantity := NormalizeLot(m, RiskQuantity(d, o, stop, price, rate, exitRate, fraction));
    if quantity.Some? {
      LotsNoMore(m, Min(granted, quantity.value));
    }
  }

  lemma SizedFits(d: Desk, m: Model, bar: Bar, r: nat, reference: real)
    requires SizeEntry(d, m, bar, r, reference).Sized? && d.liquidity.Some?
    ensures SizeEntry(d, m, bar, r, reference).fill <= d.liquidity.value
  {
    var o := d.orders[r];
    GrantedFits(d, m, bar, o, o.setup.value.stop, Budgeted(d, EntryRole, o.remaining), reference);
  }

  /** The entry fill itself. */
  lemma EnterTrades(d: Desk, m: Model, bar: Bar, r: nat, reference: real)
    requires d.book.leverage > 0.0 && r < |d.orders| && SizeEntry(d, m, bar, r, reference).Sized?
    requires d.book.size + Signed(EntryFill(d, r, reference, SizeEntry(d, m, bar, r, reference))) != 0.0
    ensures var s := SizeEntry(d, m, bar, r, reference);
            Trades(d, Enter(d, r, reference, s)) && Booking(d, Enter(d, r, reference, s)) == [EntryFill(d, r, reference, s)]
  {
    var s := SizeEntry(d, m, bar, r, reference);
    EnteredBook(d, r, reference, s);
    if d.liquidity.Some? {
      SizedFits(d, m, bar, r, reference);
    }
    FillIsTaken(d, Enter(d, r, reference, s), EntryFill(d, r, reference, s));
  }

  lemma ProtectedTrading(d: Desk, m: Model, bar: Bar, setup: Setup)
    requires Trading(d) && Carried(d.orders, setup)
    ensures Trading(Protect(d, m, bar, setup)) && SameMoney(d, Protect(d, m, bar, setup))
  {
    ProtectBook(d, m, bar, setup);
    ProtectSteps(d, m, bar, setup);
    KeepsLegRoles(d, Protect(d, m, bar, setup));
  }

  /** What follows an entry fill is at most one exit. */
  lemma AnsweredTrades(d: Desk, m: Model, bar: Bar, r: nat, setup: Setup, reference: real)
    requires Trading(d) && Carried(d.orders, setup)
    ensures var e := Answered(d, m, bar, r, setup, reference);
            && Trades(d, e)
            && (Booking(d, e) == [] || (|Booking(d, e)| == 1 && !Booking(d, e)[0].entry))
  {
    var t := Protect(d, m, bar, setup);
    ProtectedTrading(d, m, bar, setup);
    ProtectionTrades(t, m, bar, false, Breach(t, reference), false);
  }

  /** An entry adds to the position, or opens one. */
  predicate Adds(d: Desk, r: nat) {
    r < |d.orders| && (d.book.size == 0.0 || d.orders[r].buy == (d.book.size > 0.0))
  }

  lemma EnteredTrading(d: Desk, m: Model, bar: Bar, r: nat, reference: real)
    requires Trading(d) && Adds(d, r) && (m.step.Some? ==> m.step.value > 0.0)
    requires SizeEntry(d, m, bar, r, reference).Sized?
    ensures d.orders[r].setup.Some?
    ensures var s := SizeEntry(d, m, bar, r, reference);
            var t := Enter(d, r, reference, s);
            && Trading(t) && Carried(t.orders, d.orders[r].setup.value)
            && Trades(d, t) && Booking(d, t) == [EntryFill(d, r, reference, s)]
  {
    var s := SizeEntry(d, m, bar, r, reference);
    var t := Enter(d, r, reference, s);
    SizedWell(d, m, bar, r, reference);
    EnterTrades(d, m, bar, r, reference);
    EnterSteps(d, r, reference, s);
    KeepsLegRoles(d, t);
    CarriedKept(d.orders, t.orders, d.orders[r].setup.value);
  }

  /** A sized entry books its fill, and then at most one exit. */
  lemma EntryThenExit(d: Desk, m: Model, bar: Bar, r: nat, reference: real)
    requires Trading(d) && Adds(d, r) && (m.step.Some? ==> m.step.value > 0.0)
    requires SizeEntry(d, m, bar, r, reference).Sized?
    ensures d.orders[r].setup.Some?
    ensures var e, f := ExecuteEntry(d, m, bar, r, reference), EntryFill(d, r, reference, SizeEntry(d, m, bar, r, reference));
            && Trades(d, e) && d.book.fills + [f] <= e.book.fills
            && (Booking(d, e) == [f] || (|Booking(d, e)| == 2 && Booking(d, e)[0] == f && !Booking(d, e)[1].entry))
  {
    var setup := d.orders[r].setup.value;
    var t := Enter(d, r, reference, SizeEntry(d, m, bar, r, reference));
    EnteredTrading(d, m, bar, r, reference);
    AnsweredTrades(t, m, bar, r, setup, reference);
    TradesThen(d, t, ExecuteEntry(d, m, bar, r, reference));
  }

  lemma EntryAppends(d: Desk, m: Model, bar: Bar, r: nat, reference: real)
    requires Trading(d) && Adds(d, r) && (m.step.Some? ==> m.step.value > 0.0)
    requires WellFormed(bar) ==> Reached(bar, reference)
    ensures Appends(d, ExecuteEntry(d, m, bar, r, reference), bar)
  {
    var e := ExecuteEntry(d, m, bar, r, reference);
    match SizeEntry(d, m, bar, r, reference)
    case Idle => NothingBooked(d, e, bar);
    case Refused(_) => NothingBooked(d, e, bar);
    case Sized(_, _, _, _, _, _) =>
      EntryThenExit(d, m, bar, r, reference);
      EntryOnBar(bar, Booking(d, e), EntryFill(d, r, reference, SizeEntry(d, m, bar, r, reference)));
  }

  lemma EntryOnBar(bar: Bar, fills: seq<Fill>, f: Fill)
    requires f.entry
    requires fills == [f] || (|fills| == 2 && fills[0] == f && !fills[1].entry)
    ensures Reached(bar, f.reference) ==> OnBar(bar, fills)
  {
  }

  lemma MatchedInside(kind: Kind, buy: bool, trigger: real, bar: Bar)
    requires WellFormed(bar) && MatchReference(kind, buy, trigger, bar).Some?
    ensures Reached(bar, MatchReference(kind, buy, trigger, bar).value)
  {
  }

  lemma MetAppends(t: Desk, m: Model, bar: Bar, r: nat)
    requires Trading(t) && Adds(t, r) && (m.step.Some? ==> m.step.value > 0.0)
    ensures Appends(t, MetBar(t, m, bar, r), bar)
  {
    var o := t.orders[r];
    var reference := MatchReference(o.kind, o.buy, o.price, bar);
    if (o.kind == MarketOrder && bar.timestamp <= o.createdAt) || reference == None {
      NothingBooked(t, MetBar(t, m, bar, r), bar);
    } else {
      if WellFormed(bar) {
        MatchedInside(o.kind, o.buy, o.price, bar);
      }
      EntryAppends(t, m, bar, r, reference.value);
    }
  }

  lemma TryEntryAppends(d: Desk, m: Model, bar: Bar, r: nat)
    requires Trading(d) && Adds(d, r) && (m.step.Some? ==> m.step.value > 0.0)
    ensures Appends(d, TryEntry(d, m, bar, r), bar)
  {
    if EntryDue(d, m, bar, d.orders[r]) && NormalizeLot(m, d.orders[r].remaining).Some? {
      var t := Update(d, r, d.orders[r].(remaining := NormalizeLot(m, d.orders[r].remaining).value));
      MetAppends(t, m, bar, r);
      MoneyAside(d, t, MetBar(t, m, bar, r), bar);
    } else {
      NothingBooked(d, TryEntry(d, m, bar, r), bar);
    }
  }

  // --------------------------------------------------------------- the walk

  lemma TryExecAppends(d: Desk, m: Model, bar: Bar, r: nat)
    requires Trading(d) && (m.step.Some? ==> m.step.value > 0.0)
    requires r < |d.orders| && (d.orders[r].role == EntryRole ==> Adds(d, r))
    ensures Appends(d, TryExec(d, m, bar, r), bar)
  {
    match d.orders[r].role
    case Signal => SignalAppends(d, m, bar, r);
    case StopLoss => ProtectionAppends(d, m, bar, false);
    case TakeProfit => ProtectionAppends(d, m, bar, false);
    case EntryRole => TryEntryAppends(d, m, bar, r);
    case Liquidation =>
    case EndOfData =>
  }

  lemma TurnAppends(d: Desk, m: Model, bar: Bar, r: nat)
    requires Safe(d, m, bar.timestamp, {r}) && Alive(d.orders, r)
    ensures Appends(d, Turn(d, m, bar, r), bar)
  {
    if GroupDone(d, r) {
      CheckBook(Retire(d, r, Canceled), r);
      NothingBooked(d, Turn(d, m, bar, r), bar);
    } else {
      TryExecAppends(d, m, bar, r);
    }
  }

  /** Over a whole walk of the queue fills are only added, each on its bar and within the budget. */
  lemma {:induction false} PassAppends(d: Desk, m: Model, bar: Bar)
    requires Safe(d, m, bar.timestamp, {}) && SignalsSettled(d, m, bar) && None in d.pending
    ensures Appends(d, Pass(d, m, bar), bar)
    decreases |Front(d.pending)|
  {
    if d.pending[0] == None {
      NothingBooked(d, Pass(d, m, bar), bar);
    } else {
      var r := d.pending[0].value;
      var e := Turn(Popped(d), m, bar, r);
      PoppedSafe(d, m, bar.timestamp);
      PoppedSettles(d, m, bar);
      TurnSafe(Popped(d), m, bar, r);
      TurnNarrows(d, m, bar);
      TurnAppends(Popped(d), m, bar, r);
      MoneyAside(d, Popped(d), e, bar);
      PassAppends(e, m, bar);
      AppendsThen(d, e, Pass(e, m, bar), bar);
    }
  }
}
