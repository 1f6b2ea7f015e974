/**
 Stop risk over whole runs: every entry fill of every bar, partial fills and
 carried remainders included, leaves the position within its order's original
 budget.
 */
module DeskBudget {
  import opened Wrappers
  import opened Rounding
  import opened TradeBook
  import opened ExecutionPricing
  import opened DeskTypes
  import opened DeskExecution
  import opened DeskBar
  import opened DeskStructure
  import opened DeskSafety
  import opened DeskSignal
  import opened DeskEntry
  import opened DeskSteps
  import opened DeskPass
  import opened DeskOpening
  import opened DeskAdapter
  import opened DeskHearing
  import opened DeskRun
  import opened DeskPrices
  import opened DeskRisk
  import opened DeskBooks

  /** If order `r` is sized at `reference`, its fill stays within the order's budget. */
  ghost predicate FillWithinBudget(d: Desk, m: Model, bar: Bar, r: nat, reference: real) {
    r < |d.orders| && d.orders[r].setup.Some? && SizeEntry(d, m, bar, r, reference).Sized? ==>
      var s := SizeEntry(d, m, bar, r, reference);
      StopLossOf(Enter(d, r, reference, s), ModelledStop(d.orders[r], s), s.exitRate) <= d.orders[r].budget
  }

  /** The desk an entry is sized on, once its lots are whole. */
  function Lotted(d: Desk, m: Model, r: nat): Desk {
    if r < |d.orders| && NormalizeLot(m, d.orders[r].remaining).Some?
    then Update(d, r, d.orders[r].(remaining := NormalizeLot(m, d.orders[r].remaining).value)) else d
  }

  /** The entry popped as `r` trades on this bar, at the reference it is met at. */
  function EntryMet(d: Desk, m: Model, bar: Bar, r: nat): Option<real> {
    if r >= |d.orders| || GroupDone(d, r) || d.orders[r].role != EntryRole || d.exitBar == Some(bar.timestamp)
       || (m.proxy.Some? && bar.timestamp < d.orders[r].decidedAt + m.proxy.value.fillDelay)
       || NormalizeLot(m, d.orders[r].remaining) == None
       || (d.orders[r].kind == MarketOrder && bar.timestamp <= d.orders[r].createdAt)
    then None
    else MatchReference(d.orders[r].kind, d.orders[r].buy, d.orders[r].price, bar)
  }

  /** That is what trying the popped entry does. */
  lemma EntryMetTrades(d: Desk, m: Model, bar: Bar, r: nat)
    requires EntryMet(d, m, bar, r).Some?
    ensures TryExec(d, m, bar, r) == ExecuteEntry(Lotted(d, m, r), m, bar, r, EntryMet(d, m, bar, r).value)
  {
  }

  /** And nothing else is: an entry that is not met books nothing. */
  lemma EntryNotMet(d: Desk, m: Model, bar: Bar, r: nat)
    requires r < |d.orders| && d.orders[r].role == EntryRole && EntryMet(d, m, bar, r) == None
    ensures Turn(d, m, bar, r).book == d.book
  {
  }

  /** What was booked since is exits only. */
  predicate OnlyExits(b: Book, t: Book) {
    b.fills <= t.fills && forall f | f in t.fills[|b.fills|..] :: !f.entry
  }

  lemma OnlyExitsThen(a: Book, b: Book, c: Book)
    requires OnlyExits(a, b) && OnlyExits(b, c)
    ensures OnlyExits(a, c)
  {
    assert c.fills[|a.fills|..] == b.fills[|a.fills|..] + c.fills[|b.fills|..];
  }

  lemma ExitOnlyExits(d: Desk, m: Model, bar: Bar, r: nat, reference: real, fee: real)
    ensures OnlyExits(d.book, ExecuteExit(d, m, bar, r, reference, fee).book)
  {
    if Closes(d, r) && ExitSize(d, m, r) > 0.0 {
      var t, q := Trimmed(d, r), ExitSize(d, m, r);
      ClosedBook(t, m, bar, r, q, reference, fee);
      ExitIsRecorded(t, ExitFill(t, m, bar, r, q, reference, fee));
    }
  }

  lemma ExitIsRecorded(d: Desk, f: Fill)
    requires !f.entry
    ensures OnlyExits(d.book, BookFill(d, f).book)
  {
    if d.book.leverage > 0.0 {
      assert Recorded(d.book, f).fills == d.book.fills + [f];
    }
  }

  lemma ProtectionOnlyExits(d: Desk, m: Model, bar: Bar, openOnly: bool)
    ensures OnlyExits(d.book, MatchProtection(d, m, bar, true, None, openOnly).book)
  {
    var selected := Selection(d, bar, true, None, openOnly);
    if selected.Some? {
      ExitOnlyExits(Remove(d, selected.value.ref), m, bar, selected.value.ref, selected.value.reference, 0.0);
    }
  }

  lemma CloseOnlyExits(d: Desk, m: Model, bar: Bar, r: nat)
    ensures OnlyExits(d.book, CloseAtOpen(d, m, bar, r).book)
  {
    if r < |d.orders| {
      ExitOnlyExits(Remove(Update(d, r, d.orders[r].(matchedAt := Some(bar.timestamp))), r), m, bar, r, bar.open, 0.0);
    }
  }

  lemma SignalOnlyExits(d: Desk, m: Model, bar: Bar, r: nat)
    ensures OnlyExits(d.book, MatchSignalOpen(d, m, bar, r).book)
  {
    var t := MatchProtection(d, m, bar, true, None, true);
    CancelKeepsBook(d, r);
    ProtectionOnlyExits(d, m, bar, true);
    CloseOnlyExits(t, m, bar, r);
    OnlyExitsThen(d.book, t.book, CloseAtOpen(t, m, bar, r).book);
  }

  /** No order but an entry ever books an entry fill. */
  lemma OthersOnlyExit(d: Desk, m: Model, bar: Bar, r: nat)
    requires r < |d.orders| ==> d.orders[r].role != EntryRole
    ensures OnlyExits(d.book, Turn(d, m, bar, r).book)
  {
    if GroupDone(d, r) {
      CheckBook(Retire(d, r, Canceled), r);
    } else if r < |d.orders| && d.orders[r].role == Signal {
      SignalOnlyExits(d, m, bar, r);
    } else {
      ProtectionOnlyExits(d, m, bar, false);
    }
  }

  ghost predicate TurnWithinBudget(d: Desk, m: Model, bar: Bar, r: nat) {
    EntryMet(d, m, bar, r).Some? ==> FillWithinBudget(Lotted(d, m, r), m, bar, r, EntryMet(d, m, bar, r).value)
  }

  /** Every entry fill of the walk stays within budget. */
  ghost predicate PassWithinBudget(d: Desk, m: Model, bar: Bar)
    requires None in d.pending
    decreases |Front(d.pending)|
  {
    d.pending[0].Some? ==>
      (TurnNarrows(d, m, bar);
       && TurnWithinBudget(Popped(d), m, bar, d.pending[0].value)
       && PassWithinBudget(Turn(Popped(d), m, bar, d.pending[0].value), m, bar))
  }

  /** The desk the walk of a bar starts from. */
  function Opening(d: Desk, m: Model, input: Input): Desk {
    var l := Liquidate(OpenDesk(d, m, input.bar, input.due), m, input.bar, input.mark);
    Prepared(SignalsAtOpen(l, m, input.bar, l.pending), input.bar)
  }

  /** Every entry fill of every bar stays within budget. */
  ghost predicate RunWithinBudget(d: Desk, m: Model, inputs: seq<Input>)
    decreases |inputs|
  {
    inputs == [] ||
    (&& PassWithinBudget(Opening(d, m, inputs[0]), m, inputs[0].bar)
     && RunWithinBudget(Step(d, m, inputs[0]), m, inputs[1..]))
  }

  // --------------------------------------------------------------- one turn

  lemma LottedInHand(d: Desk, m: Model, bar: Bar, r: nat)
    requires Safe(d, m, bar.timestamp, {r}) && Alive(d.orders, r) && PricedDesk(d)
    requires EntryMet(d, m, bar, r).Some?
    ensures EntryInHand(Lotted(d, m, r), m, bar.timestamp, r) && PricedDesk(Lotted(d, m, r))
    ensures FairBar(bar) ==> EntryMet(d, m, bar, r).value > 0.0
  {
    var o := d.orders[r].(remaining := NormalizeLot(m, d.orders[r].remaining).value);
    FiguresKeepSafe(d, m, bar.timestamp, {r}, r, o);
    assert Keeps(d, Lotted(d, m, r));
    KeepsPriced(d, Lotted(d, m, r));
    assert PricedOrder(d.orders[r]);
  }

  lemma TurnStaysWithinBudget(d: Desk, m: Model, bar: Bar, r: nat)
    requires Fair(m) && FairBar(bar) && PricedDesk(d)
    requires Safe(d, m, bar.timestamp, {r}) && Alive(d.orders, r)
    ensures TurnWithinBudget(d, m, bar, r)
  {
    var reference := EntryMet(d, m, bar, r);
    if reference.Some? {
      var t := Lotted(d, m, r);
      LottedInHand(d, m, bar, r);
      if SizeEntry(t, m, bar, r, reference.value).Sized? {
        EntryStaysWithinBudget(t, m, bar, r, reference.value);
      }
    }
  }

  // -------------------------------------------------------------- the walk

  lemma {:induction false} PassStaysWithinBudget(d: Desk, m: Model, bar: Bar)
    requires Fair(m) && FairBar(bar) && PricedDesk(d)
    requires Safe(d, m, bar.timestamp, {}) && SignalsSettled(d, m, bar) && None in d.pending
    ensures PassWithinBudget(d, m, bar)
    decreases |Front(d.pending)|
  {
    if d.pending[0].Some? {
      var r := d.pending[0].value;
      PoppedSafe(d, m, bar.timestamp);
      PoppedSettles(d, m, bar);
      TurnStaysWithinBudget(Popped(d), m, bar, r);
      TurnSafe(Popped(d), m, bar, r);
      TurnNarrows(d, m, bar);
      KeepsPriced(Popped(d), Turn(Popped(d), m, bar, r));
      PassStaysWithinBudget(Turn(Popped(d), m, bar, r), m, bar);
    }
  }

  // -------------------------------------------------------------- whole runs

  lemma OpeningReady(d: Desk, m: Model, input: Input)
    requires Resting(d, m) && PricedDesk(d)
    ensures var o := Opening(d, m, input);
            && Safe(o, m, input.bar.timestamp, {}) && SignalsSettled(o, m, input.bar)
            && None in o.pending && PricedDesk(o)
  {
    var l := Liquidate(OpenDesk(d, m, input.bar, input.due), m, input.bar, input.mark);
    var s := SignalsAtOpen(l, m, input.bar, l.pending);
    RestingSafe(d, m, input.bar.timestamp);
    BarOpens(d, m, input.bar, input.due, input.mark);
    KeepsPriced(d, l);
    SignalsAtOpenSafe(l, m, input.bar, l.pending);
    KeepsPriced(l, s);
    PreparedSafe(s, m, input.bar);
  }

  lemma StepPriced(d: Desk, m: Model, input: Input)
    requires Resting(d, m) && PricedDesk(d)
    ensures PricedDesk(Step(d, m, input))
  {
    var b := BrokerBar(d, m, input.bar, input.due, input.mark);
    RestingSafe(d, m, input.bar.timestamp);
    BrokerBarSafe(d, m, input.bar, input.due, input.mark);
    KeepsPriced(d, b);
    DeliverPriced(b.(notices := []), b.notices);
    StrategyPriced(Deliver(b), m, input.bar, input.decision);
  }

  lemma BarStaysWithinBudget(d: Desk, m: Model, input: Input)
    requires Resting(d, m) && PricedDesk(d) && Fair(m) && FairBar(input.bar)
    ensures PassWithinBudget(Opening(d, m, input), m, input.bar)
  {
    OpeningReady(d, m, input);
    PassStaysWithinBudget(Opening(d, m, input), m, input.bar);
  }

  lemma StepReady(d: Desk, m: Model, input: Input)
    requires Resting(d, m) && PricedDesk(d)
    ensures Resting(Step(d, m, input), m) && PricedDesk(Step(d, m, input))
  {
    StepSafe(d, m, input);
    StepPriced(d, m, input);
  }

  lemma {:induction false} RunGoesOn(d: Desk, m: Model, inputs: seq<Input>)
    requires inputs != [] && PassWithinBudget(Opening(d, m, inputs[0]), m, inputs[0].bar)
    requires RunWithinBudget(Step(d, m, inputs[0]), m, inputs[1..])
    ensures RunWithinBudget(d, m, inputs)
  {
  }

  lemma {:induction false} RunStaysWithinBudget(d: Desk, m: Model, inputs: seq<Input>)
    requires Resting(d, m) && PricedDesk(d) && Fair(m)
    requires forall i | 0 <= i < |inputs| :: FairBar(inputs[i].bar)
    ensures RunWithinBudget(d, m, inputs)
    decreases |inputs|
  {
    if inputs != [] {
      StepReady(d, m, inputs[0]);
      RunStaysWithinBudget(Step(d, m, inputs[0]), m, inputs[1..]);
      BarStaysWithinBudget(d, m, inputs[0]);
      RunGoesOn(d, m, inputs);
    }
  }

  /**
   Over every run from a fresh account, with any funding, liquidations and
   decisions: after each entry fill, closing the whole position at its modelled
   stop loses at most the order's original budget, every entry commission paid
   so far and the exit commission counted.
   */
  lemma EveryEntryStaysWithinBudget(m: Model, initial: real, leverage: real, inputs: seq<Input>)
    requires leverage > 0.0 && Fair(m)
    requires forall i | 0 <= i < |inputs| :: FairBar(inputs[i].bar)
    ensures RunWithinBudget(Fresh(initial, leverage), m, inputs)
  {
    FreshRests(m, initial, leverage);
    RunStaysWithinBudget(Fresh(initial, leverage), m, inputs);
  }
}
