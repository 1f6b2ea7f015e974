/**
 No look-ahead at the open: signal closes, opening-gap exits and a flat
 account's market entry are decided by prior state, the open and the volume
 budget, never by the bar's high, low or close.
 */
module DeskCausality {
  import opened Wrappers
  import opened Rounding
  import opened TradeBook
  import opened ExecutionPricing
  import opened ExecutionBroker
  import opened StopRisk
  import opened StableSort
  import opened OcoPriority
  import opened DeskTypes
  import opened DeskExecution
  import opened DeskBar
  import opened DeskStructure
  import opened DeskSafety
  import opened DeskSignal
  import opened DeskEntry
  import opened DeskSteps
  import opened DeskPass
  import opened DeskOpening
  import opened DeskAdapter
  import opened DeskHearing
  import opened DeskBooks

  /** Two bars that may only differ in high, low and close. */
  predicate SameOpening(a: Bar, b: Bar) {
    a.timestamp == b.timestamp && a.open == b.open && a.volume == b.volume
  }

  lemma FillsAlike(d: Desk, m: Model, a: Bar, b: Bar, r: nat, quantity: real, reference: real, fee: real)
    requires SameOpening(a, b) && r < |d.orders|
    ensures ExitFill(d, m, a, r, quantity, reference, fee) == ExitFill(d, m, b, r, quantity, reference, fee)
  {
  }

  lemma RecordsAlike(d: Desk, a: Bar, b: Bar, role: Role, quantity: real)
    requires SameOpening(a, b)
    ensures RecordExit(d, a, role, quantity) == RecordExit(d, b, role, quantity)
  {
  }

  lemma ClosesAlike(t: Desk, m: Model, a: Bar, b: Bar, r: nat, quantity: real, reference: real, fee: real)
    requires SameOpening(a, b) && r < |t.orders|
    ensures ClosedBy(t, m, a, r, quantity, reference, fee) == ClosedBy(t, m, b, r, quantity, reference, fee)
  {
    FillsAlike(t, m, a, b, r, quantity, reference, fee);
    var f := ExitFill(t, m, a, r, quantity, reference, fee);
    RecordsAlike(Fulfil(BookFill(t, f), r, Tally(t.book, f)), a, b, t.orders[r].role, quantity);
  }

  lemma ExitsAlike(d: Desk, m: Model, a: Bar, b: Bar, r: nat, reference: real, fee: real)
    requires SameOpening(a, b)
    ensures ExecuteExit(d, m, a, r, reference, fee) == ExecuteExit(d, m, b, r, reference, fee)
  {
    if Closes(d, r) {
      ClosesAlike(Trimmed(d, r), m, a, b, r, ExitSize(d, m, r), reference, fee);
    }
  }

  lemma LegsAlike(d: Desk, m: Model, a: Bar, b: Bar, pick: Pick)
    requires SameOpening(a, b)
    ensures TakeLeg(d, m, a, pick) == TakeLeg(d, m, b, pick)
  {
    ExitsAlike(Remove(d, pick.ref), m, a, b, pick.ref, pick.reference, 0.0);
  }

  /** What protection selects at the open depends on the open alone. */
  lemma OpeningSelectionAlike(d: Desk, a: Bar, b: Bar)
    requires SameOpening(a, b)
    ensures Selection(d, a, true, None, true) == Selection(d, b, true, None, true)
    ensures Selection(d, a, true, None, true).Some? ==>
              Selection(d, a, true, None, false) == Selection(d, a, true, None, true)
  {
  }

  /** A leg gapped through at the open is executed alike, whatever the rest of the bar does. */
  lemma OpeningGapAlike(d: Desk, m: Model, a: Bar, b: Bar)
    requires SameOpening(a, b)
    ensures MatchProtection(d, m, a, true, None, true) == MatchProtection(d, m, b, true, None, true)
    ensures Selection(d, a, true, None, true).Some? ==>
              MatchProtection(d, m, a, true, None, false) == MatchProtection(d, m, b, true, None, false)
  {
    OpeningSelectionAlike(d, a, b);
    OpeningSelectionAlike(d, b, a);
    if Selection(d, a, true, None, true).Some? {
      LegsAlike(d, m, a, b, Selection(d, a, true, None, true).value);
    }
  }

  lemma SignalAlike(d: Desk, m: Model, a: Bar, b: Bar, r: nat)
    requires SameOpening(a, b)
    ensures MatchSignalOpen(d, m, a, r) == MatchSignalOpen(d, m, b, r)
  {
    OpeningGapAlike(d, m, a, b);
    CloseAlike(MatchProtection(d, m, a, true, None, true), m, a, b, r);
  }

  lemma CloseAlike(t: Desk, m: Model, a: Bar, b: Bar, r: nat)
    requires SameOpening(a, b)
    ensures CloseAtOpen(t, m, a, r) == CloseAtOpen(t, m, b, r)
  {
    if r < |t.orders| {
      ExitsAlike(Remove(Update(t, r, t.orders[r].(matchedAt := Some(a.timestamp))), r), m, a, b, r, a.open, 0.0);
    }
  }

  lemma {:induction false} SignalsAlike(d: Desk, m: Model, a: Bar, b: Bar, refs: seq<Option<nat>>)
    requires SameOpening(a, b)
    ensures SignalsAtOpen(d, m, a, refs) == SignalsAtOpen(d, m, b, refs)
    decreases |refs|
  {
    if refs != [] {
      if refs[0].Some? && Alive(d.orders, refs[0].value) && d.orders[refs[0].value].role == Signal {
        SignalAlike(d, m, a, b, refs[0].value);
        SignalsAlike(MatchSignalOpen(d, m, a, refs[0].value), m, a, b, refs[1..]);
      } else {
        SignalsAlike(d, m, a, b, refs[1..]);
      }
    }
  }

  lemma LiquidationAlike(d: Desk, m: Model, a: Bar, b: Bar, mark: Option<Mark>)
    requires SameOpening(a, b)
    ensures Liquidate(d, m, a, mark) == Liquidate(d, m, b, mark)
  {
    if mark.Some? && d.book.size != 0.0 {
      var c := CancelEach(d, d.pending);
      ExitsAlike(Forcing(c, LiquidationOrder(c, mark.value, a.timestamp)), m, a, b, |c.orders|, mark.value.price,
                 FeeAtMark(d, mark.value));
    }
  }

  lemma OpenDeskAlike(d: Desk, m: Model, a: Bar, b: Bar, due: seq<FundingRecord>)
    requires SameOpening(a, b)
    ensures OpenDesk(d, m, a, due) == OpenDesk(d, m, b, due)
  {
    assert BarBudget(m, a) == BarBudget(m, b);
  }

  /** The desk as signal closes leave it, before any queued order is tried. */
  function Opened(d: Desk, m: Model, bar: Bar, due: seq<FundingRecord>, mark: Option<Mark>): Desk {
    var l := Liquidate(OpenDesk(d, m, bar, due), m, bar, mark);
    SignalsAtOpen(l, m, bar, l.pending)
  }

  /**
   Funding, liquidation, gaps met by a signal close and the signal close
   itself: every such fill, its price and its size are the same on two bars
   that share timestamp, open and volume.
   */
  lemma OpeningIsCausal(d: Desk, m: Model, a: Bar, b: Bar, due: seq<FundingRecord>, mark: Option<Mark>)
    requires SameOpening(a, b)
    ensures Opened(d, m, a, due, mark) == Opened(d, m, b, due, mark)
  {
    var o := OpenDesk(d, m, a, due);
    OpenDeskAlike(d, m, a, b, due);
    LiquidationAlike(o, m, a, b, mark);
    var l := Liquidate(o, m, a, mark);
    SignalsAlike(l, m, a, b, l.pending);
  }

  // ----------------------------------------------- nothing more trades

  /** A leg has exited on this bar, or the bar's budget cannot fill a lot: nothing more can trade. */
  predicate Exhausted(d: Desk, m: Model, bar: Bar) {
    || Dry(d, m)
    || (d.exitBar == Some(bar.timestamp) && d.lastExitRole.Some? && Protective(d.lastExitRole.value))
  }

  lemma DryEntersNothing(d: Desk, m: Model, bar: Bar, r: nat, reference: real)
    requires Dry(d, m) && LotRules(d, m)
    ensures !SizeEntry(d, m, bar, r, reference).Sized?
  {
    if SizeEntry(d, m, bar, r, reference).Sized? {
      SizedWell(d, m, bar, r, reference);
      SizedWithinBudget(d, m, bar, r, reference);
      var s := SizeEntry(d, m, bar, r, reference);
      if m.step.Some? {
        GridPositive(s.fill, m.step.value);
      }
    }
  }

  /** An entry never takes more than the bar's budget. */
  lemma SizedWithinBudget(d: Desk, m: Model, bar: Bar, r: nat, reference: real)
    requires m.step.Some? ==> m.step.value > 0.0
    requires SizeEntry(d, m, bar, r, reference).Sized?
    ensures r < |d.orders| && SizeEntry(d, m, bar, r, reference).fill <= Budgeted(d, EntryRole, d.orders[r].remaining)
  {
    var o := d.orders[r];
    var granted := Budgeted(d, EntryRole, o.remaining);
    var fraction := Fraction(m, bar.volume, granted);
    var price := Adjusted(o.buy, EntryCap(o), reference, fraction);
    var rate, exitRate := Rate(m, o.kind == LimitOrder, bar.timestamp), Rate(m, false, bar.timestamp);
    var asked := RiskQuantity(d, o, o.setup.value.stop, price, rate, exitRate, fraction);
    NormalizedLots(m, Min(granted, NormalizeLot(m, asked).value));
  }

  lemma RefusedTradesNothing(d: Desk, m: Model, bar: Bar, r: nat, reference: real)
    requires !SizeEntry(d, m, bar, r, reference).Sized?
    ensures var e := ExecuteEntry(d, m, bar, r, reference);
            e.book == d.book && e.exitBar == d.exitBar && e.lastExitRole == d.lastExitRole && e.liquidity == d.liquidity
  {
  }

  /** The part of a desk that decides whether anything may still trade. */
  predicate SameMeans(d: Desk, e: Desk) {
    e.book == d.book && e.exitBar == d.exitBar && e.lastExitRole == d.lastExitRole && e.liquidity == d.liquidity
  }

  lemma ExhaustedEntry(d: Desk, m: Model, bar: Bar, r: nat)
    requires Exhausted(d, m, bar) && LotRules(d, m) && r < |d.orders|
    ensures SameMeans(d, TryEntry(d, m, bar, r))
  {
    if EntryDue(d, m, bar, d.orders[r]) && NormalizeLot(m, d.orders[r].remaining).Some? {
      var t := Update(d, r, d.orders[r].(remaining := NormalizeLot(m, d.orders[r].remaining).value));
      var o := t.orders[r];
      var reference := MatchReference(o.kind, o.buy, o.price, bar);
      if reference.Some? {
        DryEntersNothing(t, m, bar, r, reference.value);
        RefusedTradesNothing(t, m, bar, r, reference.value);
      }
    }
  }

  lemma ExhaustedProtection(d: Desk, m: Model, bar: Bar, hand: set<nat>)
    requires Exhausted(d, m, bar) && Safe(d, m, bar.timestamp, hand) && Quiet(d, m, hand)
    ensures SameMeans(d, MatchProtection(d, m, bar, true, None, false))
  {
    MatchProtectionSafe(d, m, bar, hand, true, None, false);
  }

  lemma CheckMeans(d: Desk, r: nat)
    ensures SameMeans(d, OcoCheck(d, r))
  {
  }

  /** Once nothing more can trade, a turn of the walk trades nothing. */
  lemma ExhaustedTurn(d: Desk, m: Model, bar: Bar, r: nat)
    requires Exhausted(d, m, bar) && SignalsSettled(d, m, bar)
    requires Safe(d, m, bar.timestamp, {r}) && Alive(d.orders, r)
    ensures SameMeans(d, Turn(d, m, bar, r))
  {
    if GroupDone(d, r) {
      CheckMeans(Retire(d, r, Canceled), r);
    } else {
      match d.orders[r].role
      case Signal => SettledSignalRests(d, m, bar, r);
      case EntryRole => ExhaustedEntry(d, m, bar, r);
      case StopLoss => ExhaustedProtection(d, m, bar, {r});
      case TakeProfit => ExhaustedProtection(d, m, bar, {r});
      case Liquidation =>
      case EndOfData =>
    }
  }

  lemma {:induction false} ExhaustedPass(d: Desk, m: Model, bar: Bar)
    requires Exhausted(d, m, bar) && SignalsSettled(d, m, bar)
    requires Safe(d, m, bar.timestamp, {}) && None in d.pending
    ensures SameMeans(d, Pass(d, m, bar))
    decreases |Front(d.pending)|
  {
    if d.pending[0].Some? {
      var r := d.pending[0].value;
      PoppedSafe(d, m, bar.timestamp);
      PoppedSettles(d, m, bar);
      ExhaustedTurn(Popped(d), m, bar, r);
      TurnSafe(Popped(d), m, bar, r);
      TurnNarrows(d, m, bar);
      ExhaustedPass(Turn(Popped(d), m, bar, r), m, bar);
    }
  }

  // ------------------------------------------------- a gap at the open

  /** Sorted by role, a queue with a live stop begins with one. */
  lemma StopSortsFirst(d: Desk)
    requires IsAlive(d, d.stop) && d.stop in d.pending && d.orders[d.stop.value].role == StopLoss
    ensures var sorted := ByRole(d.orders, d.pending);
            sorted != [] && RolePriority(d.orders, sorted[0]) == 0
  {
    var leq := (x: Option<nat>, y: Option<nat>) => RolePriority(d.orders, x) <= RolePriority(d.orders, y);
    var sorted := Sort(leq, d.pending);
    assert TotalPreorder(leq);
    SortIsSorted(leq, d.pending);
    SortMembers(leq, d.pending, d.stop);
    var k :| 0 <= k < |sorted| && sorted[k] == d.stop;
    assert leq(sorted[0], sorted[k]);
    assert sorted == ByRole(d.orders, d.pending);
  }

  lemma StaysFirst(orders: seq<Order>, sorted: seq<Option<nat>>, bar: Bar)
    requires sorted != [] && RolePriority(orders, sorted[0]) == 0
    ensures var p := Prioritized(orders, sorted, bar);
            p != [] && p[0].Some? && p[0].value < |orders| && Protective(orders[p[0].value].role)
  {
    PrioritizedEffect(orders, sorted, bar, 0);
    assert SameSlot(orders, bar, sorted[0], Prioritized(orders, sorted, bar)[0]);
  }

  /** With a live stop queued, the walk meets a leg first. */
  lemma LegIsFirst(d: Desk, bar: Bar)
    requires Struct(d, {}) && None !in d.pending && IsAlive(d, d.stop)
    ensures var p := Prepared(d, bar).pending;
            p != [] && p[0].Some? && p[0].value < |d.orders| && Protective(d.orders[p[0].value].role)
  {
    assert Queued(d.pending, d.stop.value);
    StopSortsFirst(d);
    StaysFirst(d.orders, ByRole(d.orders, d.pending), bar);
  }

  /** After the first leg had its turn at a gapped open, nothing more can trade. */
  lemma GapExhausts(d: Desk, m: Model, bar: Bar, r: nat)
    requires Safe(d, m, bar.timestamp, {r}) && Alive(d.orders, r) && Protective(d.orders[r].role)
    requires SignalsSettled(d, m, bar) && !GroupDone(d, r)
    requires Selection(d, bar, true, None, true).Some?
    ensures var e := Turn(d, m, bar, r);
            Exhausted(e, m, bar) && Safe(e, m, bar.timestamp, {}) && SignalsSettled(e, m, bar)
  {
    TurnSafe(d, m, bar, r);
    GapTakes(d, m, bar, r);
  }

  lemma ProtectiveTurn(d: Desk, m: Model, bar: Bar, r: nat)
    requires Alive(d.orders, r) && Protective(d.orders[r].role) && !GroupDone(d, r)
    ensures var e := MatchProtection(d, m, bar, true, None, false);
            Turn(d, m, bar, r) == if Alive(e.orders, r) then Append(e, r) else e
  {
  }

  lemma GapTakes(d: Desk, m: Model, bar: Bar, r: nat)
    requires Safe(d, m, bar.timestamp, {r}) && Alive(d.orders, r) && Protective(d.orders[r].role) && !GroupDone(d, r)
    requires Selection(d, bar, true, None, true).Some?
    ensures Exhausted(Turn(d, m, bar, r), m, bar)
  {
    OpeningSelectionAlike(d, bar, bar);
    MatchProtectionSafe(d, m, bar, {r}, true, None, false);
    var e := MatchProtection(d, m, bar, true, None, false);
    assert Exhausted(e, m, bar);
    ProtectiveTurn(d, m, bar, r);
  }

  /** The books an exit of order `r` leaves. */
  function ExitBook(d: Desk, m: Model, bar: Bar, r: nat, reference: real): Book {
    if Closes(d, r) && ExitSize(d, m, r) > 0.0
    then BookFill(d, ExitFill(Trimmed(d, r), m, bar, r, ExitSize(d, m, r), reference, 0.0)).book
    else d.book
  }

  lemma ExecutedBook(d: Desk, m: Model, bar: Bar, r: nat, reference: real)
    ensures ExecuteExit(d, m, bar, r, reference, 0.0).book == ExitBook(d, m, bar, r, reference)
  {
    if Closes(d, r) && ExitSize(d, m, r) > 0.0 {
      var t, q := Trimmed(d, r), ExitSize(d, m, r);
      ClosedBook(t, m, bar, r, q, reference, 0.0);
      var f := ExitFill(t, m, bar, r, q, reference, 0.0);
      assert BookFill(t, f).book == BookFill(d, f).book;
    }
  }

  /** The queue and the groups have no say in it. */
  lemma ExitBookFrame(d: Desk, e: Desk, m: Model, bar: Bar, r: nat, reference: real)
    requires e.orders == d.orders && e.book == d.book && e.liquidity == d.liquidity
    ensures ExitBook(e, m, bar, r, reference) == ExitBook(d, m, bar, r, reference)
  {
    assert ExitRequest(e, r) == ExitRequest(d, r) && ExitSize(e, m, r) == ExitSize(d, m, r);
    if Closes(d, r) {
      ExitFillFrame(Trimmed(d, r), Trimmed(e, r), m, bar, r, ExitSize(d, m, r), reference);
    }
  }

  lemma ExitFillFrame(d: Desk, e: Desk, m: Model, bar: Bar, r: nat, quantity: real, reference: real)
    requires r < |d.orders| && e.orders == d.orders && e.book == d.book
    ensures ExitFill(e, m, bar, r, quantity, reference, 0.0) == ExitFill(d, m, bar, r, quantity, reference, 0.0)
  {
  }

  function PickedBook(d: Desk, m: Model, bar: Bar, pick: Pick): Book {
    ExitBook(d, m, bar, pick.ref, pick.reference)
  }

  lemma PickBooks(d: Desk, m: Model, bar: Bar, pick: Pick)
    ensures TakeLeg(d, m, bar, pick).book == PickedBook(d, m, bar, pick)
  {
    ExecutedBook(Remove(d, pick.ref), m, bar, pick.ref, pick.reference);
    ExitBookFrame(d, Remove(d, pick.ref), m, bar, pick.ref, pick.reference);
  }

  lemma PickedAlike(d: Desk, m: Model, a: Bar, b: Bar, pick: Pick)
    requires SameOpening(a, b)
    ensures PickedBook(d, m, a, pick) == PickedBook(d, m, b, pick)
  {
    if Closes(d, pick.ref) {
      FillsAlike(Trimmed(d, pick.ref), m, a, b, pick.ref, ExitSize(d, m, pick.ref), pick.reference, 0.0);
    }
  }

  /** The book a bar opening through the bracket ends with: the leg it picks at the open, and nothing else. */
  lemma GapBarBook(o: Desk, m: Model, bar: Bar)
    requires Safe(o, m, bar.timestamp, {}) && None !in o.pending && SignalsSettled(o, m, bar)
    requires Selection(o, bar, true, None, true).Some?
    ensures Pass(Prepared(o, bar), m, bar).book == PickedBook(o, m, bar, Selection(o, bar, true, None, true).value)
  {
    var pick := Selection(o, bar, true, None, true).value;
    var p := Prepared(o, bar);
    PreparedSafe(o, m, bar);
    LegIsFirst(o, bar);
    var r := p.pending[0].value;
    PoppedSafe(p, m, bar.timestamp);
    PoppedSettles(p, m, bar);
    assert Selection(Popped(p), bar, true, None, true) == Some(pick);
    GapExhausts(Popped(p), m, bar, r);
    GapTurnBook(Popped(p), m, bar, r, pick);
    TurnNarrows(p, m, bar);
    ExhaustedPass(Turn(Popped(p), m, bar, r), m, bar);
    ExitBookFrame(o, Popped(p), m, bar, pick.ref, pick.reference);
  }

  lemma GapTurnBook(d: Desk, m: Model, bar: Bar, r: nat, pick: Pick)
    requires Selection(d, bar, true, None, true) == Some(pick)
    requires r < |d.orders| && Protective(d.orders[r].role) && !GroupDone(d, r)
    ensures Turn(d, m, bar, r).book == PickedBook(d, m, bar, pick)
  {
    OpeningSelectionAlike(d, bar, bar);
    PickBooks(d, m, bar, pick);
  }

  lemma OpenedSafe(d: Desk, m: Model, bar: Bar, due: seq<FundingRecord>, mark: Option<Mark>)
    requires Safe(d, m, bar.timestamp, {}) && None !in d.pending
    ensures var o := Opened(d, m, bar, due, mark);
            Safe(o, m, bar.timestamp, {}) && None !in o.pending && SignalsSettled(o, m, bar)
  {
    var l := Liquidate(OpenDesk(d, m, bar, due), m, bar, mark);
    BarOpens(d, m, bar, due, mark);
    SignalsAtOpenSafe(l, m, bar, l.pending);
  }

  /**
   A bar that opens through the bracket: the whole bar books the same, fills,
   prices and sizes, whatever its high, low and close are. After the leg has
   taken the open, or found no budget, nothing else trades on that bar.
   */
  lemma GapBarIsCausal(d: Desk, m: Model, a: Bar, b: Bar, due: seq<FundingRecord>, mark: Option<Mark>)
    requires SameOpening(a, b) && Safe(d, m, a.timestamp, {}) && None !in d.pending
    requires Selection(Opened(d, m, a, due, mark), a, true, None, true).Some?
    ensures BrokerBar(d, m, a, due, mark).book == BrokerBar(d, m, b, due, mark).book
  {
    var o := Opened(d, m, a, due, mark);
    OpeningIsCausal(d, m, a, b, due, mark);
    OpenedSafe(d, m, a, due, mark);
    OpenedSafe(d, m, b, due, mark);
    OpeningSelectionAlike(o, a, b);
    GapBarBook(o, m, a);
    GapBarBook(o, m, b);
    PickedAlike(o, m, a, b, Selection(o, a, true, None, true).value);
  }

  // -------------------------------------------- a flat account's entry

  /** Where the bar meets an entry: a market order not on its creation bar, others at their trigger. */
  function MeetsAt(o: Order, bar: Bar): Option<real> {
    if o.kind == MarketOrder && bar.timestamp <= o.createdAt then None else MatchReference(o.kind, o.buy, o.price, bar)
  }

  /** The fill an entry takes on the bar, if any. */
  function FirstFill(d: Desk, m: Model, bar: Bar, r: nat): seq<Fill> {
    if r >= |d.orders| || !EntryDue(d, m, bar, d.orders[r]) || MeetsAt(d.orders[r], bar) == None
       || NormalizeLot(m, d.orders[r].remaining) == None then []
    else
      FillFrom(Update(d, r, d.orders[r].(remaining := NormalizeLot(m, d.orders[r].remaining).value)), m, bar, r,
               MeetsAt(d.orders[r], bar).value)
  }

  /** What an entry of whole lots fills at its reference. */
  function FillFrom(t: Desk, m: Model, bar: Bar, r: nat, reference: real): seq<Fill>
    requires r < |t.orders|
  {
    var s := SizeEntry(t, m, bar, r, reference);
    if s.Sized? && t.orders[r].setup.Some? then [EntryFill(t, r, reference, s)] else []
  }

  lemma FirstFillAlike(d: Desk, m: Model, a: Bar, b: Bar, r: nat)
    requires SameOpening(a, b) && (r < |d.orders| ==> d.orders[r].kind == MarketOrder)
    ensures FirstFill(d, m, a, r) == FirstFill(d, m, b, r)
  {
  }

  /** Sizing looks at the order, the books and the budget only. */
  lemma SizeFrame(d: Desk, e: Desk, m: Model, bar: Bar, r: nat, reference: real)
    requires e.orders == d.orders && SameMeans(d, e)
    ensures SizeEntry(e, m, bar, r, reference) == SizeEntry(d, m, bar, r, reference)
  {
    if r < |d.orders| && d.orders[r].setup.Some? && d.book.leverage > 0.0 {
      var o := d.orders[r];
      GrantedFrame(d, e, m, bar, o, o.setup.value.stop, Budgeted(d, EntryRole, o.remaining), reference);
    }
  }

  lemma GrantedFrame(d: Desk, e: Desk, m: Model, bar: Bar, o: Order, stop: real, granted: real, reference: real)
    requires e.book == d.book && d.book.leverage > 0.0
    ensures Granted(e, m, bar, o, stop, granted, reference) == Granted(d, m, bar, o, stop, granted, reference)
  {
    var fraction := Fraction(m, bar.volume, granted);
    var price := Adjusted(o.buy, EntryCap(o), reference, fraction);
    var rate, exitRate := Rate(m, o.kind == LimitOrder, bar.timestamp), Rate(m, false, bar.timestamp);
    assert RiskQuantity(e, o, stop, price, rate, exitRate, fraction) == RiskQuantity(d, o, stop, price, rate, exitRate, fraction);
    assert AvailableCash(e, m, reference) == AvailableCash(d, m, reference);
    assert forall q :: RequiredCash(e, q, price, rate) == RequiredCash(d, q, price, rate);
    assert forall q :: CashAfter(e, o, q, price, rate) == CashAfter(d, o, q, price, rate);
  }

  lemma SameFirstFill(d: Desk, e: Desk, m: Model, bar: Bar, r: nat)
    requires e.orders == d.orders && SameMeans(d, e)
    ensures FirstFill(e, m, bar, r) == FirstFill(d, m, bar, r)
  {
    if r < |d.orders| && NormalizeLot(m, d.orders[r].remaining).Some? && MeetsAt(d.orders[r], bar).Some? {
      var o := d.orders[r].(remaining := NormalizeLot(m, d.orders[r].remaining).value);
      SizeFrame(Update(d, r, o), Update(e, r, o), m, bar, r, MeetsAt(d.orders[r], bar).value);
    }
  }

  /** `fills` continues `first`: it starts with it, or is it when nothing may follow. */
  predicate StartsWith(fills: seq<Fill>, before: seq<Fill>, first: seq<Fill>) {
    before + first <= fills && (first == [] ==> fills == before)
  }

  /** A flat desk on which only the entry `r` may trade. */
  ghost predicate OnlyEntry(d: Desk, m: Model, bar: Bar, r: nat, hand: set<nat>) {
    && Safe(d, m, bar.timestamp, hand) && SignalsSettled(d, m, bar)
    && d.book.size == 0.0 && d.done == {}
    && Alive(d.orders, r) && d.orders[r].role == EntryRole
  }

  /** On a flat account nobody but the entry can trade. */
  lemma OtherTurnRests(d: Desk, m: Model, bar: Bar, r: nat, x: nat)
    requires OnlyEntry(d, m, bar, r, {x}) && Alive(d.orders, x) && x != r
    ensures Turn(d, m, bar, x) == Append(d, x)
  {
    assert Remembered(d, x) && Remembered(d, r);
  }

  lemma EntryTurnFills(d: Desk, m: Model, bar: Bar, r: nat)
    requires d.done == {} && r < |d.orders| && d.orders[r].role == EntryRole
    requires Trading(d) && d.book.size == 0.0 && (m.step.Some? ==> m.step.value > 0.0)
    ensures StartsWith(Turn(d, m, bar, r).book.fills, d.book.fills, FirstFill(d, m, bar, r))
    ensures FirstFill(d, m, bar, r) == [] ==> Turn(d, m, bar, r).book == d.book
  {
    EntryTryFills(d, m, bar, r);
    assert Turn(d, m, bar, r).book == TryEntry(d, m, bar, r).book;
  }

  /** The entry is due, in whole lots, and the bar meets it. */
  predicate Meets(d: Desk, m: Model, bar: Bar, r: nat)
    requires r < |d.orders|
  {
    EntryDue(d, m, bar, d.orders[r]) && NormalizeLot(m, d.orders[r].remaining).Some? && MeetsAt(d.orders[r], bar).Some?
  }

  function InLots(d: Desk, m: Model, r: nat): Desk
    requires r < |d.orders| && NormalizeLot(m, d.orders[r].remaining).Some?
  {
    Update(d, r, d.orders[r].(remaining := NormalizeLot(m, d.orders[r].remaining).value))
  }

  lemma MeetingTries(d: Desk, m: Model, bar: Bar, r: nat)
    requires r < |d.orders| && Meets(d, m, bar, r)
    ensures var reference := MeetsAt(d.orders[r], bar).value;
            && TryEntry(d, m, bar, r) == ExecuteEntry(InLots(d, m, r), m, bar, r, reference)
            && FirstFill(d, m, bar, r) == FillFrom(InLots(d, m, r), m, bar, r, reference)
  {
    MetExecutes(InLots(d, m, r), m, bar, r);
  }

  lemma InLotsTrades(d: Desk, m: Model, r: nat)
    requires r < |d.orders| && NormalizeLot(m, d.orders[r].remaining).Some? && Trading(d)
    ensures var t := InLots(d, m, r);
            r < |t.orders| && Trading(t) && t.book == d.book
  {
  }

  lemma NoMeetingNoFill(d: Desk, m: Model, bar: Bar, r: nat)
    requires r < |d.orders| && !Meets(d, m, bar, r)
    ensures TryEntry(d, m, bar, r).book == d.book && FirstFill(d, m, bar, r) == []
  {
  }

  lemma EntryTryFills(d: Desk, m: Model, bar: Bar, r: nat)
    requires r < |d.orders|
    requires Trading(d) && d.book.size == 0.0 && (m.step.Some? ==> m.step.value > 0.0)
    ensures StartsWith(TryEntry(d, m, bar, r).book.fills, d.book.fills, FirstFill(d, m, bar, r))
    ensures FirstFill(d, m, bar, r) == [] ==> TryEntry(d, m, bar, r).book == d.book
  {
    if Meets(d, m, bar, r) {
      MeetingTries(d, m, bar, r);
      InLotsTrades(d, m, r);
      MetFillsFirst(InLots(d, m, r), m, bar, r, MeetsAt(d.orders[r], bar).value);
    } else {
      NoMeetingNoFill(d, m, bar, r);
    }
  }

  lemma MetExecutes(t: Desk, m: Model, bar: Bar, r: nat)
    requires r < |t.orders| && MeetsAt(t.orders[r], bar).Some?
    ensures MetBar(t, m, bar, r) == ExecuteEntry(t, m, bar, r, MeetsAt(t.orders[r], bar).value)
  {
  }

  lemma MetFillsFirst(t: Desk, m: Model, bar: Bar, r: nat, reference: real)
    requires r < |t.orders| && t.book.size == 0.0 && Trading(t) && (m.step.Some? ==> m.step.value > 0.0)
    ensures StartsWith(ExecuteEntry(t, m, bar, r, reference).book.fills, t.book.fills, FillFrom(t, m, bar, r, reference))
    ensures FillFrom(t, m, bar, r, reference) == [] ==> ExecuteEntry(t, m, bar, r, reference).book == t.book
  {
    if SizeEntry(t, m, bar, r, reference).Sized? {
      EntryFillsFirst(t, m, bar, r, reference);
    }
  }

  lemma EntryFillsFirst(t: Desk, m: Model, bar: Bar, r: nat, reference: real)
    requires r < |t.orders| && t.book.size == 0.0 && Trading(t) && (m.step.Some? ==> m.step.value > 0.0)
    requires SizeEntry(t, m, bar, r, reference).Sized?
    ensures t.orders[r].setup.Some?
    ensures t.book.fills + [EntryFill(t, r, reference, SizeEntry(t, m, bar, r, reference))]
         <= ExecuteEntry(t, m, bar, r, reference).book.fills
  {
    SizedWell(t, m, bar, r, reference);
    EntryThenExit(t, m, bar, r, reference);
  }

  /** Nobody is left who could trade on a flat account. */
  lemma {:induction false} IdlePass(d: Desk, m: Model, bar: Bar, r: nat)
    requires Safe(d, m, bar.timestamp, {}) && SignalsSettled(d, m, bar) && None in d.pending
    requires d.book.size == 0.0 && r !in Front(d.pending) && d.entry == Some(r)
    ensures Pass(d, m, bar).book == d.book
    decreases |Front(d.pending)|
  {
    if d.pending[0].Some? {
      var x := d.pending[0].value;
      var p := Popped(d);
      PoppedSafe(d, m, bar.timestamp);
      PoppedSettles(d, m, bar);
      TurnSafe(p, m, bar, x);
      IdleTurn(p, m, bar, r, x);
      TurnNarrows(d, m, bar);
      IdlePass(Turn(p, m, bar, x), m, bar, r);
    }
  }

  lemma IdleTurn(d: Desk, m: Model, bar: Bar, r: nat, x: nat)
    requires Safe(d, m, bar.timestamp, {x}) && Alive(d.orders, x) && x != r && d.entry == Some(r)
    requires d.book.size == 0.0
    ensures SameMeans(d, Turn(d, m, bar, x))
  {
    assert Remembered(d, x);
    CheckMeans(Retire(d, x, Canceled), x);
  }

  /** Somebody else's turn leaves the entry ahead of the sentinel, and everything as it was. */
  lemma OtherFirst(d: Desk, m: Model, bar: Bar, r: nat)
    requires OnlyEntry(d, m, bar, r, {}) && None in d.pending && r in Front(d.pending) && d.pending[0] != Some(r)
    ensures var e := Turn(Popped(d), m, bar, d.pending[0].value);
            && OnlyEntry(e, m, bar, r, {}) && r in Front(e.pending)
            && e.orders == d.orders && SameMeans(d, e)
  {
    var x := d.pending[0].value;
    var p := Popped(d);
    PoppedSafe(d, m, bar.timestamp);
    PoppedSettles(d, m, bar);
    TurnSafe(p, m, bar, x);
    OtherTurnRests(p, m, bar, r, x);
    assert None in p.pending;
    FrontAppend(p.pending, Some(x));
  }

  lemma EntryFirst(d: Desk, m: Model, bar: Bar, r: nat)
    requires OnlyEntry(d, m, bar, r, {}) && None in d.pending && d.pending[0] == Some(r)
    ensures var e := Turn(Popped(d), m, bar, r);
            None in e.pending && StartsWith(Pass(e, m, bar).book.fills, d.book.fills, FirstFill(d, m, bar, r))
  {
    var p := Popped(d);
    PoppedSafe(d, m, bar.timestamp);
    PoppedSettles(d, m, bar);
    TurnNarrows(d, m, bar);
    TurnSafe(p, m, bar, r);
    EntryTurnFills(p, m, bar, r);
    SameFirstFill(d, p, m, bar, r);
    AfterEntryTurn(d, Turn(p, m, bar, r), m, bar, r);
  }

  /** The walk of a flat account's queue fills the entry first, or nothing. */
  lemma {:induction false} EntryPass(d: Desk, m: Model, bar: Bar, r: nat)
    requires OnlyEntry(d, m, bar, r, {}) && None in d.pending && r in Front(d.pending)
    ensures StartsWith(Pass(d, m, bar).book.fills, d.book.fills, FirstFill(d, m, bar, r))
    decreases |Front(d.pending)|
  {
    TurnNarrows(d, m, bar);
    if d.pending[0] == Some(r) {
      EntryFirst(d, m, bar, r);
    } else {
      var e := Turn(Popped(d), m, bar, d.pending[0].value);
      OtherFirst(d, m, bar, r);
      SameFirstFill(d, e, m, bar, r);
      EntryPass(e, m, bar, r);
    }
  }

  lemma AfterEntryTurn(d: Desk, e: Desk, m: Model, bar: Bar, r: nat)
    requires OnlyEntry(d, m, bar, r, {}) && d.pending != [] && d.pending[0] == Some(r)
    requires e == Turn(Popped(d), m, bar, r) && None in e.pending
    requires Safe(e, m, bar.timestamp, {}) && SignalsSettled(e, m, bar)
    requires Narrower(Front(d.pending[1..]), Front(e.pending))
    requires StartsWith(e.book.fills, d.book.fills, FirstFill(d, m, bar, r))
    requires FirstFill(d, m, bar, r) == [] ==> e.book == d.book
    ensures StartsWith(Pass(e, m, bar).book.fills, d.book.fills, FirstFill(d, m, bar, r))
  {
    PassAppends(e, m, bar);
    if FirstFill(d, m, bar, r) == [] {
      assert Remembered(d, r);
      HeadIsGone(d.pending);
      TurnSteps(Popped(d), m, bar, r);
      IdlePass(e, m, bar, r);
    }
  }

  /** The fills of the whole bar begin with the entry's own, or there are none. */
  lemma EntryBarFills(o: Desk, m: Model, bar: Bar, r: nat)
    requires Safe(o, m, bar.timestamp, {}) && SignalsSettled(o, m, bar) && None !in o.pending
    requires o.book.size == 0.0 && Alive(o.orders, r) && o.orders[r].role == EntryRole
    ensures StartsWith(Pass(Prepared(o, bar), m, bar).book.fills, o.book.fills, FirstFill(o, m, bar, r))
  {
    var p := Prepared(o, bar);
    PreparedSafe(o, m, bar);
    QueuedInFront(o, bar, r);
    SameFirstFill(o, p, m, bar, r);
    EntryPass(p, m, bar, r);
  }

  /** Every queued order is ahead of the sentinel. */
  lemma QueuedInFront(o: Desk, bar: Bar, r: nat)
    requires Distinct(o.pending) && None !in o.pending && Queued(o.pending, r)
    ensures r in Front(Prepared(o, bar).pending)
  {
    var ranked := Prioritized(o.orders, ByRole(o.orders, o.pending), bar);
    PreparedQueue(o, bar);
    var all := ranked + [None];
    forall k | 0 <= k < |ranked| ensures ranked[k] != None {
      assert all[k] == ranked[k] && all[|ranked|] == None;
    }
    assert Some(r) in all && Some(r) in ranked;
    FrontOf(ranked, r);
  }

  lemma {:induction false} FrontOf(q: seq<Option<nat>>, r: nat)
    requires None !in q && Some(r) in q
    ensures r in Front(q + [None])
  {
    assert q[0] in q;
    assert (q + [None])[1..] == q[1..] + [None];
    if q[0] != Some(r) {
      FrontOf(q[1..], r);
    }
  }

  /**
   A flat account's live entry trades on the bar that meets it: whatever else is
   queued, the bar books its fill first, at the price the bar met it at and of
   the quantity it sizes to. A bar that does not meet it, or on which it is not
   due, books nothing once it is open.
   */
  lemma EntryFillsWhenMet(d: Desk, m: Model, bar: Bar, due: seq<FundingRecord>, mark: Option<Mark>)
    requires Safe(d, m, bar.timestamp, {}) && None !in d.pending
    requires var o := Opened(d, m, bar, due, mark);
             o.book.size == 0.0 && IsAlive(o, o.entry) && NormalizeLot(m, o.orders[o.entry.value].remaining).Some?
    ensures var o := Opened(d, m, bar, due, mark);
            var r, e := o.entry.value, BrokerBar(d, m, bar, due, mark);
            var lots := NormalizeLot(m, o.orders[r].remaining).value;
            var t := Update(o, r, o.orders[r].(remaining := lots));
            var met := && o.exitBar != Some(bar.timestamp)
                       && (m.proxy.Some? ==> bar.timestamp >= o.orders[r].decidedAt + m.proxy.value.fillDelay)
                       && MeetsAt(o.orders[r], bar).Some?;
            && (!met ==> e.book.fills == o.book.fills)
            && (met && SizeEntry(t, m, bar, r, MeetsAt(o.orders[r], bar).value).Sized? ==>
                  var reference := MeetsAt(o.orders[r], bar).value;
                  o.book.fills + [EntryFill(t, r, reference, SizeEntry(t, m, bar, r, reference))] <= e.book.fills)
  {
    var o := Opened(d, m, bar, due, mark);
    OpenedSafe(d, m, bar, due, mark);
    EntryBarFills(o, m, bar, o.entry.value);
  }

  /** At most the first `n` fills. */
  function First(fills: seq<Fill>, n: nat): seq<Fill> {
    if |fills| <= n then fills else fills[..n]
  }

  /**
   A flat account with a live market entry: two bars that differ only in high,
   low and close agree on the first fill of the bar, its price and its size,
   and on whether there is one at all.
   */
  lemma MarketEntryIsCausal(d: Desk, m: Model, a: Bar, b: Bar, due: seq<FundingRecord>, mark: Option<Mark>)
    requires SameOpening(a, b) && Safe(d, m, a.timestamp, {}) && None !in d.pending
    requires var o := Opened(d, m, a, due, mark);
             o.book.size == 0.0 && IsAlive(o, o.entry) && o.orders[o.entry.value].kind == MarketOrder
    ensures var n := |Opened(d, m, a, due, mark).book.fills| + 1;
            First(BrokerBar(d, m, a, due, mark).book.fills, n) == First(BrokerBar(d, m, b, due, mark).book.fills, n)
  {
    var o := Opened(d, m, a, due, mark);
    var r := o.entry.value;
    OpeningIsCausal(d, m, a, b, due, mark);
    OpenedSafe(d, m, a, due, mark);
    OpenedSafe(d, m, b, due, mark);
    EntryBarFills(o, m, a, r);
    EntryBarFills(o, m, b, r);
    FirstFillAlike(o, m, a, b, r);
    FirstOf(BrokerBar(d, m, a, due, mark).book.fills, BrokerBar(d, m, b, due, mark).book.fills, o.book.fills,
            FirstFill(o, m, a, r));
  }

  lemma FirstOf(x: seq<Fill>, y: seq<Fill>, before: seq<Fill>, first: seq<Fill>)
    requires StartsWith(x, before, first) && StartsWith(y, before, first) && |first| <= 1
    ensures First(x, |before| + 1) == First(y, |before| + 1)
  {
    if first != [] {
      assert First(x, |before| + 1) == before + first;
      assert First(y, |before| + 1) == before + first;
    }
  }
}
