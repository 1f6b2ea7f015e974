/**
 Free cash on a spot market: the ledger balance less the cost of held
 inventory is never negative, whatever the run, and is the broker's cash.
 */
module DeskSpot {
  import opened Wrappers
  import opened Rounding
  import opened TradeBook
  import opened ExecutionPricing
  import opened ExecutionBroker
  import opened StopRisk
  import opened OcoPriority
  import opened DeskTypes
  import opened DeskExecution
  import opened DeskBar
  import opened DeskStructure
  import opened DeskSafety
  import opened DeskEntry
  import opened DeskSteps
  import opened DeskPass
  import opened DeskOpening
  import opened DeskAdapter
  import opened DeskHearing
  import opened DeskRun
  import opened DeskRisk
  import opened DeskBooks
  import opened DeskPrices
  import opened DeskAccount
  import DeskShown
  import Bookings

  /** On a spot market there is no leverage, and inventory and free cash are not negative. */
  predicate SpotFine(m: Model, b: Book) {
    m.spot ==> b.leverage == 1.0 && b.size >= 0.0 && FreeCash(b) >= 0.0
  }

  /** A spot product has no borrow: its entries only buy. */
  predicate LongOnly(m: Model, orders: seq<Order>) {
    m.spot ==> forall i | 0 <= i < |orders| && orders[i].role == EntryRole :: orders[i].buy
  }

  predicate SpotSafe(m: Model, d: Desk) {
    SpotFine(m, d.book) && LongOnly(m, d.orders) && PricedDesk(d)
  }

  // ---------------------------------------------------------------- fills

  lemma ExitKeepsFine(m: Model, b: Book, f: Fill)
    requires SpotFine(m, b) && b.leverage > 0.0 && !f.entry && f.size > 0.0 && f.size <= Abs(b.size)
    requires b.size != 0.0 && f.buy == (b.size < 0.0)
    requires f.commission + f.liquidationFee <= Value(f.size, f.price)
    ensures SpotFine(m, Recorded(b, f))
  {
    if m.spot {
      ExitFreesCash(b, f);
    }
  }

  /** A sale frees its proceeds less its fees. */
  lemma ExitFreesCash(b: Book, f: Fill)
    requires b.leverage > 0.0 && !f.entry && !f.buy && f.size > 0.0 && f.size <= b.size
    ensures FreeCash(BookExit(b, f)) == FreeCash(b) + Value(f.size, f.price) - f.commission - f.liquidationFee
    ensures BookExit(b, f).size == b.size - f.size
  {
    PnlSplits(b, f);
    ValueOfSum(b.size, f.size, b.price);
    ValueOfSum(f.size, 0.0, f.price);
    ValueOfSum(f.size, 0.0, b.price);
    ValueOfSum(0.0, 0.0, b.price);
    ValueOfSum(0.0, 0.0, 0.0);
  }

  lemma EntryKeepsFine(m: Model, b: Book, f: Fill)
    requires SpotFine(m, b) && b.leverage > 0.0 && f.entry && f.size > 0.0 && (m.spot ==> f.buy)
    requires m.spot && b.leverage == 1.0 && b.size >= 0.0 ==> Value(f.size, f.price) + f.commission <= FreeCash(b)
    ensures SpotFine(m, Recorded(b, f))
  {
    if m.spot {
      AverageCarriesCost(b.size, b.price, f.size, f.price);
    }
  }

  // ----------------------------------------------------------- the broker

  lemma SameBook(m: Model, d: Desk, e: Desk)
    requires SpotSafe(m, d) && e.book == d.book && Keeps(d, e)
    ensures SpotSafe(m, e)
  {
    KeepsPriced(d, e);
    KeepsLongOnly(m, d, e);
  }

  lemma KeepsLongOnly(m: Model, d: Desk, e: Desk)
    requires LongOnly(m, d.orders) && RolesKept(d.orders, e.orders)
    ensures LongOnly(m, e.orders)
  {
    forall i | 0 <= i < |e.orders| && e.orders[i].role == EntryRole ensures m.spot ==> e.orders[i].buy {
      assert i < |d.orders| ==> SameTerms(d.orders[i], e.orders[i]);
    }
  }

  /** Only the books can turn a desk unsafe; the rest follows from what every operation keeps. */
  lemma FineBook(m: Model, d: Desk, e: Desk)
    requires SpotSafe(m, d) && Keeps(d, e) && SpotFine(m, e.book)
    ensures SpotSafe(m, e)
  {
    KeepsPriced(d, e);
    KeepsLongOnly(m, d, e);
  }

  lemma ExitTakesHeld(d: Desk, m: Model, r: nat)
    requires r < |d.orders|
    ensures ExitSize(d, m, r) <= Held(d)
  {
    if m.step.Some? && m.step.value > 0.0 {
      FloorStepBounds(Budgeted(d, d.orders[r].role, ExitRequest(d, r)), m.step.value);
    }
  }

  lemma ExitBooksFine(d: Desk, m: Model, bar: Bar, r: nat, reference: real)
    requires SpotSafe(m, d) && Fair(m) && FairBar(bar) && reference > 0.0
    requires Closes(d, r) && ExitSize(d, m, r) > 0.0
    ensures SpotFine(m, ClosedBy(Trimmed(d, r), m, bar, r, ExitSize(d, m, r), reference, 0.0).book)
  {
    var t, q := Trimmed(d, r), ExitSize(d, m, r);
    ExitTakesHeld(d, m, r);
    ClosedBook(t, m, bar, r, q, reference, 0.0);
    ExitCoversItsFee(t, m, bar, r, q, reference);
    if d.book.leverage > 0.0 {
      ExitKeepsFine(m, d.book, ExitFill(t, m, bar, r, q, reference, 0.0));
    }
  }

  /** An exit without a venue's fee never costs the account more than it brings in. */
  lemma ExecuteExitSpot(d: Desk, m: Model, bar: Bar, r: nat, reference: real)
    requires SpotSafe(m, d) && Fair(m) && FairBar(bar) && reference > 0.0
    ensures SpotSafe(m, ExecuteExit(d, m, bar, r, reference, 0.0))
  {
    ExecuteExitSteps(d, m, bar, r, reference, 0.0);
    if Closes(d, r) && ExitSize(d, m, r) > 0.0 {
      ExitBooksFine(d, m, bar, r, reference);
    }
    FineBook(m, d, ExecuteExit(d, m, bar, r, reference, 0.0));
  }

  lemma TakeLegSpot(d: Desk, m: Model, bar: Bar, pick: Pick)
    requires SpotSafe(m, d) && Fair(m) && FairBar(bar) && pick.reference > 0.0
    ensures SpotSafe(m, TakeLeg(d, m, bar, pick))
  {
    var removed := Remove(d, pick.ref);
    RemoveSteps(d, pick.ref);
    SameBook(m, d, removed);
    ExecuteExitSpot(removed, m, bar, pick.ref, pick.reference);
    var t := ExecuteExit(removed, m, bar, pick.ref, pick.reference, 0.0);
    AppendSteps(t, pick.ref);
    SameBook(m, t, Append(t, pick.ref));
  }

  lemma ProtectionSpot(d: Desk, m: Model, bar: Bar, allowGap: bool, breach: Option<Pick>, openOnly: bool)
    requires SpotSafe(m, d) && Fair(m) && FairBar(bar) && PricedBreach(breach)
    ensures SpotSafe(m, MatchProtection(d, m, bar, allowGap, breach, openOnly))
  {
    var selected := Selection(d, bar, allowGap, breach, openOnly);
    SelectionPriced(d, bar, allowGap, breach, openOnly);
    if selected.Some? {
      TakeLegSpot(d, m, bar, selected.value);
    }
  }

  lemma CloseAtOpenSpot(d: Desk, m: Model, bar: Bar, r: nat)
    requires SpotSafe(m, d) && Fair(m) && FairBar(bar)
    ensures SpotSafe(m, CloseAtOpen(d, m, bar, r))
  {
    if r < |d.orders| {
      var marked := Update(d, r, d.orders[r].(matchedAt := Some(bar.timestamp)));
      SameBook(m, d, marked);
      var removed := Remove(marked, r);
      RemoveSteps(marked, r);
      SameBook(m, marked, removed);
      ExecuteExitSpot(removed, m, bar, r, bar.open);
      var t := ExecuteExit(removed, m, bar, r, bar.open, 0.0);
      AppendSteps(t, r);
      SameBook(m, t, Append(t, r));
    }
  }

  lemma CancelSpot(d: Desk, m: Model, r: nat)
    requires SpotSafe(m, d)
    ensures SpotSafe(m, Cancel(d, r))
  {
    CancelSteps(d, r);
    CancelKeepsBook(d, r);
    SameBook(m, d, Cancel(d, r));
  }

  lemma SignalOpenSpot(d: Desk, m: Model, bar: Bar, r: nat)
    requires SpotSafe(m, d) && Fair(m) && FairBar(bar)
    ensures SpotSafe(m, MatchSignalOpen(d, m, bar, r))
  {
    CancelSpot(d, m, r);
    ProtectionSpot(d, m, bar, true, None, true);
    CloseAtOpenSpot(MatchProtection(d, m, bar, true, None, true), m, bar, r);
  }

  // --------------------------------------------------------------- entries

  lemma EnterSpot(d: Desk, m: Model, bar: Bar, r: nat, reference: real)
    requires SpotSafe(m, d) && r < |d.orders| && d.orders[r].role == EntryRole
    requires SizeEntry(d, m, bar, r, reference).Sized?
    ensures SpotSafe(m, Enter(d, r, reference, SizeEntry(d, m, bar, r, reference)))
  {
    var s, o := SizeEntry(d, m, bar, r, reference), d.orders[r];
    GrantedIsAffordable(d, m, bar, o, o.setup.value.stop, Budgeted(d, EntryRole, o.remaining), reference);
    EnterSteps(d, r, reference, s);
    EnteredBook(d, r, reference, s);
    EntryPaid(d, m, r, reference, s);
    EntryKeepsFine(m, d.book, EntryFill(d, r, reference, s));
    FineBook(m, d, Enter(d, r, reference, s));
  }

  lemma EntryPaid(d: Desk, m: Model, r: nat, reference: real, s: Sizing)
    requires r < |d.orders| && s.Sized? && d.book.leverage > 0.0
    requires RequiredCash(d, s.fill, s.price, s.rate) <= AvailableCash(d, m, reference)
    ensures var f := EntryFill(d, r, reference, s);
            m.spot && d.book.leverage == 1.0 && d.book.size >= 0.0 ==> Value(f.size, f.price) + f.commission <= FreeCash(d.book)
  {
    if m.spot && d.book.leverage == 1.0 && d.book.size >= 0.0 {
      SpotCost(d, s.fill, s.price, s.rate);
      SpotAvailable(d, m, reference);
    }
  }

  lemma ExecuteEntrySpot(d: Desk, m: Model, bar: Bar, r: nat, reference: real)
    requires SpotSafe(m, d) && Fair(m) && FairBar(bar) && reference > 0.0
    requires r < |d.orders| && d.orders[r].role == EntryRole
    ensures SpotSafe(m, ExecuteEntry(d, m, bar, r, reference))
  {
    var s := SizeEntry(d, m, bar, r, reference);
    match s
    case Idle =>
    case Refused(status) => SameBook(m, d, Retire(d, r, status));
    case Sized(_, _, _, _, _, _) =>
      if d.orders[r].setup.Some? {
        var entered := Enter(d, r, reference, s);
        EnterSpot(d, m, bar, r, reference);
        EnterSteps(d, r, reference, s);
        CarriedKept(d.orders, entered.orders, d.orders[r].setup.value);
        AnsweredSpot(entered, m, bar, r, d.orders[r].setup.value, reference);
      }
  }

  lemma ProtectSpot(d: Desk, m: Model, bar: Bar, setup: Setup)
    requires SpotSafe(m, d) && Carried(d.orders, setup)
    ensures SpotSafe(m, Protect(d, m, bar, setup))
  {
    ProtectSteps(d, m, bar, setup);
    ProtectBook(d, m, bar, setup);
    SameBook(m, d, Protect(d, m, bar, setup));
  }

  lemma AnsweredSpot(d: Desk, m: Model, bar: Bar, r: nat, setup: Setup, reference: real)
    requires SpotSafe(m, d) && Fair(m) && FairBar(bar) && reference > 0.0 && Carried(d.orders, setup)
    ensures SpotSafe(m, Answered(d, m, bar, r, setup, reference))
  {
    var t := Protect(d, m, bar, setup);
    ProtectSpot(d, m, bar, setup);
    ProtectionSpot(t, m, bar, false, Breach(t, reference), false);
    RemainderSpot(MatchProtection(t, m, bar, false, Breach(t, reference), false), m, r);
  }

  lemma RemainderSpot(d: Desk, m: Model, r: nat)
    requires SpotSafe(m, d)
    ensures SpotSafe(m, CancelRemainder(d, m, r))
  {
    SameBook(m, d, CancelRemainder(d, m, r));
  }

  lemma TryEntrySpot(d: Desk, m: Model, bar: Bar, r: nat)
    requires SpotSafe(m, d) && Fair(m) && FairBar(bar)
    requires r < |d.orders| && d.orders[r].role == EntryRole
    ensures SpotSafe(m, TryEntry(d, m, bar, r))
  {
    if EntryDue(d, m, bar, d.orders[r]) {
      var lots := NormalizeLot(m, d.orders[r].remaining);
      if lots == None {
        SameBook(m, d, Retire(d, r, Rejected));
      } else {
        var t := Update(d, r, d.orders[r].(remaining := lots.value));
        SameBook(m, d, t);
        var o := t.orders[r];
        var reference := MatchReference(o.kind, o.buy, o.price, bar);
        assert PricedOrder(o);
        ReferencePriced(o, bar);
        if reference.Some? {
          ExecuteEntrySpot(t, m, bar, r, reference.value);
        }
      }
    }
  }

  // ------------------------------------------------------------ whole bars

  lemma TryExecSpot(d: Desk, m: Model, bar: Bar, r: nat)
    requires SpotSafe(m, d) && Fair(m) && FairBar(bar) && r < |d.orders|
    ensures SpotSafe(m, TryExec(d, m, bar, r))
  {
    match d.orders[r].role
    case Signal => SignalOpenSpot(d, m, bar, r);
    case EntryRole => TryEntrySpot(d, m, bar, r);
    case _ => ProtectionSpot(d, m, bar, true, None, false);
  }

  lemma TurnSpot(d: Desk, m: Model, bar: Bar, r: nat)
    requires SpotSafe(m, d) && Fair(m) && FairBar(bar)
    ensures SpotSafe(m, Turn(d, m, bar, r))
  {
    if GroupDone(d, r) {
      var t := Retire(d, r, Canceled);
      CheckSteps(t, r);
      CheckBook(t, r);
      SameBook(m, d, t);
      SameBook(m, t, OcoCheck(t, r));
    } else if r < |d.orders| {
      TryExecSpot(d, m, bar, r);
      var t := TryExec(d, m, bar, r);
      AppendSteps(t, r);
      SameBook(m, t, Append(t, r));
    } else {
      SameBook(m, d, Turn(d, m, bar, r));
    }
  }

  lemma {:induction false} PassSpot(d: Desk, m: Model, bar: Bar)
    requires SpotSafe(m, d) && Fair(m) && FairBar(bar) && None in d.pending
    ensures SpotSafe(m, Pass(d, m, bar))
    decreases |Front(d.pending)|
  {
    if d.pending[0].Some? {
      TurnNarrows(d, m, bar);
      SameBook(m, d, Popped(d));
      TurnSpot(Popped(d), m, bar, d.pending[0].value);
      PassSpot(Turn(Popped(d), m, bar, d.pending[0].value), m, bar);
    } else {
      SameBook(m, d, Pass(d, m, bar));
    }
  }

  lemma {:induction false} SignalsSpot(d: Desk, m: Model, bar: Bar, refs: seq<Option<nat>>)
    requires SpotSafe(m, d) && Fair(m) && FairBar(bar)
    ensures SpotSafe(m, SignalsAtOpen(d, m, bar, refs))
    decreases |refs|
  {
    if refs != [] {
      if refs[0].Some? && Alive(d.orders, refs[0].value) && d.orders[refs[0].value].role == Signal {
        SignalOpenSpot(d, m, bar, refs[0].value);
        SignalsSpot(MatchSignalOpen(d, m, bar, refs[0].value), m, bar, refs[1..]);
      } else {
        SignalsSpot(d, m, bar, refs[1..]);
      }
    }
  }

  /** One bar on a spot market, where nothing funds and nothing liquidates. */
  lemma BrokerBarSpot(d: Desk, m: Model, bar: Bar)
    requires SpotSafe(m, d) && Fair(m) && FairBar(bar)
    ensures SpotSafe(m, BrokerBar(d, m, bar, [], None))
  {
    var o := OpenDesk(d, m, bar, []);
    var s := SignalsAtOpen(o, m, bar, o.pending);
    SameBook(m, d, o);
    SignalsSpot(o, m, bar, o.pending);
    SameBook(m, s, Prepared(s, bar));
    PassSpot(Prepared(s, bar), m, bar);
  }

  // -------------------------------------------------------------- adapter

  lemma DeliverOneSpot(d: Desk, m: Model, n: Notice)
    requires SpotSafe(m, d)
    ensures SpotSafe(m, DeliverOne(d, n))
  {
    DeliverOnePriced(d, n);
    if n.status == Completed && n.role == StopLoss && d.target.Some? {
      CancelSpot(d, m, d.target.value);
    } else if n.status == Completed && n.role == TakeProfit && d.stop.Some? {
      CancelSpot(d, m, d.stop.value);
    }
  }

  lemma {:induction false} DeliverSpot(d: Desk, m: Model, ns: seq<Notice>)
    requires SpotSafe(m, d)
    ensures SpotSafe(m, DeliverAll(d, ns))
    decreases |ns|
  {
    if ns != [] {
      DeliverOneSpot(d, m, ns[0]);
      DeliverSpot(DeliverOne(d, ns[0]), m, ns[1..]);
    }
  }

  lemma DropLong(d: Desk, m: Model)
    requires LongOnly(m, d.orders)
    ensures LongOnly(m, DropEntry(d).orders)
  {
    if IsAlive(d, d.entry) {
      var marked := d.(cancelledEntry := d.entry);
      CancelSteps(marked, d.entry.value);
      KeepsLongOnly(m, marked, Cancel(marked, d.entry.value));
    }
  }

  lemma RewriteLong(d: Desk, m: Model, stop: real, target: Option<real>)
    requires LongOnly(m, d.orders)
    ensures LongOnly(m, RewriteEntry(d, stop, target).orders)
  {
  }

  lemma BracketLong(d: Desk, m: Model, long: bool, stop: real, target: Option<real>, timestamp: int)
    requires LongOnly(m, d.orders)
    ensures LongOnly(m, PlaceBracket(d, long, stop, target, timestamp).orders)
  {
  }

  lemma UpdateLong(d: Desk, m: Model, bar: Bar, decision: Decision)
    requires LongOnly(m, d.orders)
    ensures LongOnly(m, UpdateExits(d, bar, decision).orders)
  {
    if IsAlive(d, d.stop) {
      var stop, target := NextStop(d, decision), NextTarget(d, decision);
      var w := RewriteEntry(d, stop, target);
      var c := Cancel(w, d.stop.value);
      RewriteLong(d, m, stop, target);
      CancelSteps(w, d.stop.value);
      KeepsLongOnly(m, w, c);
      BracketLong(c, m, d.book.size > 0.0, stop, target, bar.timestamp);
    }
  }

  lemma StrategyLong(d: Desk, m: Model, bar: Bar, decision: Decision)
    requires LongOnly(m, d.orders)
    ensures LongOnly(m, Strategy(d, m, bar, decision).orders)
  {
    var t := AcceptExit(d, bar, decision);
    AcceptLong(d, m, bar, decision);
    if t.book.size != 0.0 {
      UpdateLong(t, m, bar, decision);
    } else if IsAlive(t, t.entry) {
      DropLong(t, m);
    }
  }

  lemma AcceptLong(d: Desk, m: Model, bar: Bar, decision: Decision)
    requires LongOnly(m, d.orders)
    ensures LongOnly(m, AcceptExit(d, bar, decision).orders)
  {
    DropLong(d, m);
  }

  /** An input of a spot market: no funding, no mark that liquidates, positive prices. */
  predicate SpotInput(input: Input) {
    input.due == [] && input.mark == None && FairBar(input.bar)
  }

  lemma StepSpot(d: Desk, m: Model, input: Input)
    requires SpotSafe(m, d) && Fair(m) && SpotInput(input)
    ensures SpotSafe(m, Step(d, m, input))
  {
    var b := BrokerBar(d, m, input.bar, [], None);
    BrokerBarSpot(d, m, input.bar);
    DeliverSpot(b.(notices := []), m, b.notices);
    var heard := Deliver(b);
    StrategyPriced(heard, m, input.bar, input.decision);
    StrategyLong(heard, m, input.bar, input.decision);
  }

  lemma {:induction false} RunSpot(d: Desk, m: Model, inputs: seq<Input>)
    requires SpotSafe(m, d) && Fair(m) && forall i | 0 <= i < |inputs| :: SpotInput(inputs[i])
    ensures SpotSafe(m, Played(d, m, inputs))
    decreases |inputs|
  {
    if inputs != [] {
      StepSpot(d, m, inputs[0]);
      RunSpot(Step(d, m, inputs[0]), m, inputs[1..]);
    }
  }

  lemma CancelAliveSpot(d: Desk, m: Model, r: Option<nat>)
    requires SpotSafe(m, d)
    ensures SpotSafe(m, CancelAlive(d, r))
  {
    if IsAlive(d, r) {
      CancelSpot(d, m, r.value);
    }
  }

  lemma ForcedSpot(d: Desk, m: Model, bar: Bar)
    requires SpotSafe(m, d) && Fair(m) && FairBar(bar)
    ensures SpotSafe(m, ExecuteExit(Forcing(d, EndOrder(d, bar.timestamp)), m, bar, |d.orders|, bar.close, 0.0))
  {
    var o := EndOrder(d, bar.timestamp);
    ForcingSteps(d, o);
    SameBook(m, d, Forcing(d, o));
    ExecuteExitSpot(Forcing(d, o), m, bar, |d.orders|, bar.close);
  }

  /** The end of the data keeps what every bar keeps. */
  lemma EndSpot(d: Desk, m: Model, bar: Bar, retain: bool)
    requires SpotSafe(m, d) && Fair(m) && FairBar(bar)
    ensures SpotSafe(m, EndRun(d, m, bar, retain))
  {
    var a := CancelAlive(d, d.entry);
    var b := CancelAlive(a, a.stop);
    var c := CancelAlive(b, b.target);
    var cleared := CancelAlive(c, c.signal);
    CancelAliveSpot(d, m, d.entry);
    CancelAliveSpot(a, m, a.stop);
    CancelAliveSpot(b, m, b.target);
    CancelAliveSpot(c, m, c.signal);
    EndCleared(a);
    ForcedSpot(cleared, m, bar);
    var e := if retain then a else ClosedOut(a, m, bar);
    DeliverSpot(e.(notices := []), m, e.notices);
  }

  lemma EndCleared(a: Desk)
    ensures var b := CancelAlive(a, a.stop);
            var c := CancelAlive(b, b.target);
            CancelAlive(CancelAlive(CancelAlive(a, a.stop), a.target), a.signal) == CancelAlive(c, c.signal)
  {
    var b := CancelAlive(a, a.stop);
    EndRefs(a, a.stop);
    EndRefs(b, b.target);
  }

  /**
   On a spot market, over every run: inventory and free cash are never
   negative, free cash is the broker's cash, and it is the free margin of the
   account the strategy is shown, which knows only what it was notified of.
   Nothing is asked of the fills: entries are sized to the
   cash there is, and with cost rates below one hundred percent and positive
   prices every exit covers its own fee.
   */
  lemma FreeCashNeverNegative(m: Model, capital: real, inputs: seq<Input>)
    requires m.spot && capital >= 0.0 && Fair(m)
    requires forall i | 0 <= i < |inputs| :: SpotInput(inputs[i])
    ensures var b := Played(Fresh(capital, 1.0), m, inputs).book;
            && b.size >= 0.0 && FreeCash(b) == b.cash >= 0.0
            && Bookings.FreeMargin(b.balance, Followed(NewAccount(), Fresh(capital, 1.0), m, inputs).position, 1.0) == b.cash
  {
    var b := Played(Fresh(capital, 1.0), m, inputs).book;
    RunIsFine(m, capital, inputs);
    SpotCashIsFree(b);
    SpotMarginIsCash(b);
    DeskShown.AccountShowsTheBooks(m, capital, 1.0, inputs);
  }

  lemma RunIsFine(m: Model, capital: real, inputs: seq<Input>)
    requires m.spot && capital >= 0.0 && Fair(m)
    requires forall i | 0 <= i < |inputs| :: SpotInput(inputs[i])
    ensures var b := Played(Fresh(capital, 1.0), m, inputs).book;
            SpotFine(m, b) && Sound(b)
  {
    FreshRests(m, capital, 1.0);
    ValueOfSum(0.0, 0.0, 0.0);
    RunSpot(Fresh(capital, 1.0), m, inputs);
    RunSafe(Fresh(capital, 1.0), m, inputs);
  }

  /** Without leverage, what holding the position ties up is what its collateral holds. */
  lemma SpotMarginIsCash(b: Book)
    requires Sound(b) && b.leverage == 1.0 && b.size >= 0.0
    ensures Bookings.FreeMargin(b.balance, Bookings.HeldPosition(b), 1.0) == b.cash
  {
    Quotient(Value(b.size, b.price), 1.0);
    ValueOfSum(0.0, 0.0, b.price);
  }

  /** The same once the data has ended, the position closed at the last close or left marked. */
  lemma FreeCashAtTheEnd(m: Model, capital: real, inputs: seq<Input>, bar: Bar, retain: bool)
    requires m.spot && capital >= 0.0 && Fair(m) && FairBar(bar)
    requires forall i | 0 <= i < |inputs| :: SpotInput(inputs[i])
    ensures var b := EndRun(Played(Fresh(capital, 1.0), m, inputs), m, bar, retain).book;
            b.size >= 0.0 && FreeCash(b) == b.cash >= 0.0
  {
    var d := Played(Fresh(capital, 1.0), m, inputs);
    ValueOfSum(0.0, 0.0, 0.0);
    RunSpot(Fresh(capital, 1.0), m, inputs);
    EndSpot(d, m, bar, retain);
    EveryRunEnds(m, capital, 1.0, inputs, bar, retain);
    SpotCashIsFree(EndRun(d, m, bar, retain).book);
  }
}
