/**
 What protection does about a bar, told from where the bracket rests and what
 the bar's prices are: on the bar of an entry fill, which knows no gaps, and in
 the walk of any other bar.
 */
module DeskReaction {
  import opened Wrappers
  import opened Rounding
  import opened TradeBook
  import opened ExecutionPricing
  import opened ExecutionBroker
  import opened DeskTypes
  import opened DeskExecution
  import opened DeskBar
  import opened DeskStructure
  import opened DeskSafety
  import opened DeskSignal
  import opened DeskEntry
  import opened DeskSteps
  import opened DeskPass
  import opened DeskOpening
  import opened DeskBooks
  import opened DeskAdapter
  import opened DeskHearing
  import opened DeskTerms
  import DeskAccount
  import DeskCausality

  /** The position is exited once, by the leg of this role at this reference; or not one lot of the budget is left. */
  ghost predicate ExitsBy(d: Desk, e: Desk, m: Model, timestamp: int, role: Role, reference: real) {
    && d.book.fills <= e.book.fills
    && if Booking(d, e) == [] then Dry(d, m) && SameMoney(d, e)
       else
         && |Booking(d, e)| == 1 && !Booking(d, e)[0].entry && Booking(d, e)[0].reference == reference
         && e.lastExitRole == Some(role) && e.exitBar == Some(timestamp)
  }

  // ------------------------------------------------------------ one exit

  lemma CancelKeepsRole(d: Desk, r: Option<nat>)
    ensures CancelAlive(d, r).lastExitRole == d.lastExitRole && CancelAlive(d, r).exitBar == d.exitBar
  {
  }

  lemma AfterExitKeepsRole(d: Desk, r: nat, role: Role)
    ensures AfterExit(d, r, role).lastExitRole == d.lastExitRole && AfterExit(d, r, role).exitBar == d.exitBar
  {
    CancelKeepsRole(d, d.stop);
    CancelKeepsRole(CancelAlive(d, d.stop), d.target);
    var legs := if role != Signal then d
                else if d.book.size != 0.0 then Resize(d)
                else CancelAlive(CancelAlive(d, d.stop), d.target);
    CancelKeepsRole(legs, legs.signal);
  }

  lemma ClosedMarks(t: Desk, m: Model, bar: Bar, r: nat, quantity: real, reference: real, fee: real)
    requires r < |t.orders|
    ensures var e := ClosedBy(t, m, bar, r, quantity, reference, fee);
            e.lastExitRole == Some(t.orders[r].role) && e.exitBar == Some(bar.timestamp)
  {
    var role := t.orders[r].role;
    var f := ExitFill(t, m, bar, r, quantity, reference, fee);
    var filled := Fulfil(BookFill(t, f), r, Tally(t.book, f));
    var marked := Spend(filled, role, quantity).(exitBar := Some(bar.timestamp), lastExitRole := Some(role));
    CancelKeepsRole(marked, filled.entry);
    AfterExitKeepsRole(RecordExit(filled, bar, role, quantity), r, role);
  }

  lemma LegCloses(d: Desk, m: Model, bar: Bar, r: nat, reference: real)
    requires d.book.leverage > 0.0 && Closes(d, r) && ExitSize(d, m, r) > 0.0 && !Unbudgeted(d.orders[r].role)
    ensures var e := ExecuteExit(d, m, bar, r, reference, 0.0);
            && d.book.fills <= e.book.fills && |Booking(d, e)| == 1
            && !Booking(d, e)[0].entry && Booking(d, e)[0].reference == reference
            && e.lastExitRole == Some(d.orders[r].role) && e.exitBar == Some(bar.timestamp)
  {
    var t, q := Trimmed(d, r), ExitSize(d, m, r);
    if d.liquidity.Some? {
      ExitSizeFits(d, m, r);
    }
    ClosedTrades(t, m, bar, r, q, reference, 0.0);
    ClosedMarks(t, m, bar, r, q, reference, 0.0);
  }

  /** Taking a leg of the open bracket exits by its role at the reference, unless the budget is dry. */
  lemma LegTaken(d: Desk, m: Model, bar: Bar, hand: set<nat>, pick: Pick, role: Role)
    requires Safe(d, m, bar.timestamp, hand) && d.book.size != 0.0 && PickIsLeg(d, pick)
    requires d.orders[pick.ref].role == role
    ensures ExitsBy(d, TakeLeg(d, m, bar, pick), m, bar.timestamp, role, pick.reference)
  {
    var taken := Remove(d, pick.ref);
    if ExitSize(taken, m, pick.ref) > 0.0 {
      LegCloses(taken, m, bar, pick.ref, pick.reference);
    } else {
      TakeLegDry(d, m, bar, hand, pick);
    }
  }

  // -------------------------------------------------------- the selection

  /** Protection has not exited this bar yet, and its terms are in force. */
  predicate InForce(d: Desk, t: Terms, timestamp: int) {
    && (d.exitBar == Some(timestamp) ==> d.lastExitRole == Some(Signal))
    && (t.active.Some? ==> timestamp >= t.active.value)
  }

  /** The bar opens at or beyond the stop. */
  predicate StopGaps(long: bool, t: Terms, bar: Bar) {
    if long then bar.open <= t.stop else bar.open >= t.stop
  }

  predicate TargetGaps(long: bool, t: Terms, bar: Bar) {
    t.target.Some? && (if long then bar.open >= t.target.value else bar.open <= t.target.value)
  }

  /** The bar trades at the stop or beyond it. */
  predicate StopReached(long: bool, t: Terms, bar: Bar) {
    if long then bar.low <= t.stop else bar.high >= t.stop
  }

  predicate TargetReached(long: bool, t: Terms, bar: Bar) {
    t.target.Some? && (if long then bar.high >= t.target.value else bar.low <= t.target.value)
  }

  /** The bracket leaves the bar alone. */
  predicate Untouched(d: Desk, e: Desk) {
    e.book == d.book && e.exitBar == d.exitBar && e.lastExitRole == d.lastExitRole
  }

  /**
   What a bar does to a position at these terms. Where gaps count, the open is
   looked at first, stop before target; then the stop is taken at its price if
   the bar reaches it, whether or not it reaches the target, and the target only
   if it does not.
   */
  ghost predicate Reacts(d: Desk, e: Desk, m: Model, bar: Bar, t: Terms, gaps: bool, openOnly: bool) {
    var long := d.book.size > 0.0;
    if !InForce(d, t, bar.timestamp) then Untouched(d, e)
    else if gaps && StopGaps(long, t, bar) then ExitsBy(d, e, m, bar.timestamp, StopLoss, bar.open)
    else if gaps && TargetGaps(long, t, bar) then ExitsBy(d, e, m, bar.timestamp, TakeProfit, bar.open)
    else if openOnly then Untouched(d, e)
    else if StopReached(long, t, bar) then ExitsBy(d, e, m, bar.timestamp, StopLoss, t.stop)
    else if TargetReached(long, t, bar) then ExitsBy(d, e, m, bar.timestamp, TakeProfit, t.target.value)
    else Untouched(d, e)
  }

  lemma LegRolesOf(d: Desk, hand: set<nat>)
    requires Struct(d, hand)
    ensures HasRole(d.orders, d.stop, StopLoss) && HasRole(d.orders, d.target, TakeProfit)
  {
  }

  /** Which leg the terms say, and at what reference. */
  lemma SelectionReads(d: Desk, bar: Bar, t: Terms, gaps: bool, openOnly: bool)
    requires d.book.size != 0.0 && RestsAt(d, t)
    ensures var long, s := d.book.size > 0.0, Selection(d, bar, gaps, None, openOnly);
            if !InForce(d, t, bar.timestamp) then s == None
            else if gaps && StopGaps(long, t, bar) then s == Some(Pick(d.stop.value, bar.open))
            else if gaps && TargetGaps(long, t, bar) then d.target.Some? && s == Some(Pick(d.target.value, bar.open))
            else if openOnly then s == None
            else if StopReached(long, t, bar) then s == Some(Pick(d.stop.value, t.stop))
            else if TargetReached(long, t, bar) then d.target.Some? && s == Some(Pick(d.target.value, t.target.value))
            else s == None
  {
  }

  /** Protection reacts to a bar as its terms say. */
  lemma ProtectionReacts(
    d: Desk, m: Model, bar: Bar, hand: set<nat>, t: Terms, gaps: bool, openOnly: bool)
    requires Safe(d, m, bar.timestamp, hand) && d.book.size != 0.0 && RestsAt(d, t)
    ensures Reacts(d, MatchProtection(d, m, bar, gaps, None, openOnly), m, bar, t, gaps, openOnly)
  {
    LegRolesOf(d, hand);
    SelectionReads(d, bar, t, gaps, openOnly);
    var selected := Selection(d, bar, gaps, None, openOnly);
    if selected.Some? {
      LegTaken(d, m, bar, hand, selected.value, d.orders[selected.value.ref].role);
    }
  }

  // ------------------------------------------------- the bar of an entry fill

  /** The average fill lies at or beyond the stop. */
  predicate StopPassed(long: bool, t: Terms, average: real) {
    if long then average <= t.stop else average >= t.stop
  }

  predicate TargetPassed(long: bool, t: Terms, average: real) {
    t.target.Some? && (if long then average >= t.target.value else average <= t.target.value)
  }

  /**
   What follows an entry fill at `reference`: a position whose average already
   lies beyond a leg is exited by that leg at the same reference, stop first;
   any other meets the rest of the bar, which counts no gap.
   */
  ghost predicate Answers(d: Desk, e: Desk, m: Model, bar: Bar, t: Terms, reference: real) {
    var long := d.book.size > 0.0;
    if StopPassed(long, t, d.book.price) then ExitsBy(d, e, m, bar.timestamp, StopLoss, reference)
    else if TargetPassed(long, t, d.book.price) then ExitsBy(d, e, m, bar.timestamp, TakeProfit, reference)
    else Reacts(d, e, m, bar, t, false, false)
  }

  lemma BreachAnswers(u: Desk, m: Model, bar: Bar, r: nat, reference: real, t: Terms)
    requires Guarded(u, m, bar.timestamp, r) && RestsAt(u, t) && u.exitBar != Some(bar.timestamp)
    ensures Answers(u, MatchProtection(u, m, bar, false, Breach(u, reference), false), m, bar, t, reference)
  {
    LegRolesOf(u, {r});
    var breach := Breach(u, reference);
    if breach == None {
      ProtectionReacts(u, m, bar, {r}, t, false, false);
    } else {
      LegTaken(u, m, bar, {r}, breach.value, u.orders[breach.value.ref].role);
    }
  }

  /** Canceling what is left of the entry changes none of it. */
  lemma RemainderAnswers(u: Desk, v: Desk, m: Model, bar: Bar, r: nat, t: Terms, reference: real)
    requires Answers(u, v, m, bar, t, reference)
    ensures Answers(u, CancelRemainder(v, m, r), m, bar, t, reference)
  {
  }

  /** Placing or resizing the bracket books nothing. */
  lemma ProtectedAnswers(d: Desk, u: Desk, e: Desk, m: Model, bar: Bar, t: Terms, reference: real)
    requires Answers(u, e, m, bar, t, reference)
    requires SameMoney(d, u) && u.exitBar == d.exitBar && u.lastExitRole == d.lastExitRole
    ensures Answers(d, e, m, bar, t, reference)
  {
  }

  lemma ProtectMarksNothing(d: Desk, m: Model, bar: Bar, setup: Setup)
    ensures var u := Protect(d, m, bar, setup);
            SameMoney(d, u) && u.exitBar == d.exitBar && u.lastExitRole == d.lastExitRole
  {
  }

  lemma GuardedAnswers(u: Desk, m: Model, bar: Bar, r: nat, reference: real, t: Terms)
    requires Guarded(u, m, bar.timestamp, r) && RestsAt(u, t) && u.exitBar != Some(bar.timestamp)
    ensures Answers(u, CancelRemainder(MatchProtection(u, m, bar, false, Breach(u, reference), false), m, r), m, bar, t, reference)
  {
    BreachAnswers(u, m, bar, r, reference, t);
    RemainderAnswers(u, MatchProtection(u, m, bar, false, Breach(u, reference), false), m, bar, r, t, reference);
  }

  lemma FillAnswers(e: Desk, m: Model, bar: Bar, r: nat, setup: Setup, reference: real, t: Terms)
    requires Guarded(Protect(e, m, bar, setup), m, bar.timestamp, r) && RestsAt(Protect(e, m, bar, setup), t)
    requires e.exitBar != Some(bar.timestamp)
    ensures Answers(e, Answered(e, m, bar, r, setup, reference), m, bar, t, reference)
  {
    var u := Protect(e, m, bar, setup);
    ProtectMarksNothing(e, m, bar, setup);
    GuardedAnswers(u, m, bar, r, reference, t);
    ProtectedAnswers(e, u, Answered(e, m, bar, r, setup, reference), m, bar, t, reference);
  }

  lemma EntryGuarded(d: Desk, m: Model, bar: Bar, r: nat, reference: real, t: Terms)
    requires EntryInHand(d, m, bar.timestamp, r) && Bound(d, m, bar.timestamp, t)
    requires SizeEntry(d, m, bar, r, reference).Sized?
    ensures d.orders[r].setup.Some?
    ensures var e := Enter(d, r, reference, SizeEntry(d, m, bar, r, reference));
            var u := Protect(e, m, bar, d.orders[r].setup.value);
            Guarded(u, m, bar.timestamp, r) && RestsAt(u, t) && e.exitBar != Some(bar.timestamp)
  {
    EntryFacts(d, m, bar.timestamp, r);
    var s := SizeEntry(d, m, bar, r, reference);
    SizedWell(d, m, bar, r, reference);
    EntersWell(d, m, bar.timestamp, r, reference, s);
    ProtectSafe(d, Enter(d, r, reference, s), m, bar, r);
    ProtectedRests(d, m, bar, r, reference, s, t);
  }

  lemma SizedExecutes(d: Desk, m: Model, bar: Bar, r: nat, reference: real)
    requires r < |d.orders| && d.orders[r].setup.Some? && SizeEntry(d, m, bar, r, reference).Sized?
    ensures ExecuteEntry(d, m, bar, r, reference)
         == Answered(Enter(d, r, reference, SizeEntry(d, m, bar, r, reference)), m, bar, r, d.orders[r].setup.value, reference)
  {
  }

  /**
   On the bar of an entry fill, first or added, the whole position answers to
   the terms it trades under: the entry's own if it opened, the kept ones if not.
   */
  lemma EntryBarAnswers(d: Desk, m: Model, bar: Bar, r: nat, reference: real, t: Terms)
    requires EntryInHand(d, m, bar.timestamp, r) && Bound(d, m, bar.timestamp, t)
    requires SizeEntry(d, m, bar, r, reference).Sized?
    ensures Answers(Enter(d, r, reference, SizeEntry(d, m, bar, r, reference)), ExecuteEntry(d, m, bar, r, reference),
                    m, bar, t, reference)
  {
    EntryGuarded(d, m, bar, r, reference, t);
    var s := SizeEntry(d, m, bar, r, reference);
    SizedExecutes(d, m, bar, r, reference);
    FillAnswers(Enter(d, r, reference, s), m, bar, r, d.orders[r].setup.value, reference, t);
  }

  // ---------------------------------------------------------- the remainder

  /** Right after its fill the entry is Completed, or Partial with what it did not fill. */
  lemma FillLeaves(d: Desk, m: Model, timestamp: int, r: nat, reference: real, s: Sizing)
    requires EntryInHand(d, m, timestamp, r) && s.Sized? && WellSized(d, m, s)
    ensures r < |Enter(d, r, reference, s).orders|
    ensures var o := Enter(d, r, reference, s).orders[r];
            o.remaining == s.quantity - s.fill && o.status == (if s.fill == s.quantity then Completed else Partial)
  {
    EntryFacts(d, m, timestamp, r);
    EntryBookedShape(d, m, timestamp, r, reference, s);
    EnterUnfolds(d, r, reference, s);
  }

  /** Placing or resizing the bracket leaves the entry alone. */
  lemma ProtectLeaves(t: Desk, m: Model, bar: Bar, setup: Setup, r: nat)
    requires r < |t.orders| && t.stop != Some(r) && t.target != Some(r)
    ensures r < |Protect(t, m, bar, setup).orders| && Protect(t, m, bar, setup).orders[r] == t.orders[r]
  {
  }

  /** Protection touches no entry when the budget is dry, and revives none. */
  lemma ProtectionLeaves(u: Desk, m: Model, bar: Bar, r: nat, breach: Option<Pick>)
    requires Guarded(u, m, bar.timestamp, r) && (breach.Some? ==> PickIsLeg(u, breach.value))
    ensures var v := MatchProtection(u, m, bar, false, breach, false);
            && r < |v.orders|
            && (if Alive(u.orders, r) then v.orders[r] == u.orders[r] else !Alive(v.orders, r))
  {
    MatchProtectionSafe(u, m, bar, {r}, false, breach, false);
  }

  /**
   What an entry bar leaves of the entry: nothing when it filled whole or the
   policy cancels remainders, else the rest of it, still alive, since a partly
   filled entry left no budget for an exit.
   */
  lemma RemainderPolicy(d: Desk, m: Model, bar: Bar, r: nat, reference: real, t: Terms)
    requires EntryInHand(d, m, bar.timestamp, r) && Bound(d, m, bar.timestamp, t)
    requires SizeEntry(d, m, bar, r, reference).Sized?
    ensures var s, e := SizeEntry(d, m, bar, r, reference), ExecuteEntry(d, m, bar, r, reference);
            if s.fill == s.quantity || (m.proxy.Some? && m.proxy.value.cancelRemainder) then !Alive(e.orders, r)
            else Alive(e.orders, r) && e.orders[r].remaining == s.quantity - s.fill
  {
    EntryGuarded(d, m, bar, r, reference, t);
    SizedExecutes(d, m, bar, r, reference);
    FillStands(d, m, bar, r, reference);
    RemainderLeft(Enter(d, r, reference, SizeEntry(d, m, bar, r, reference)), m, bar, r, d.orders[r].setup.value, reference);
  }

  /** The order an entry fill leaves behind. */
  predicate LeftOver(e: Desk, r: nat, s: Sizing)
    requires s.Sized?
  {
    && r < |e.orders| && e.orders[r].role == EntryRole
    && e.orders[r].remaining == s.quantity - s.fill
    && (Alive(e.orders, r) <==> s.fill != s.quantity)
    && HasRole(e.orders, e.stop, StopLoss) && HasRole(e.orders, e.target, TakeProfit)
  }

  lemma FillStands(d: Desk, m: Model, bar: Bar, r: nat, reference: real)
    requires EntryInHand(d, m, bar.timestamp, r) && SizeEntry(d, m, bar, r, reference).Sized?
    ensures LeftOver(Enter(d, r, reference, SizeEntry(d, m, bar, r, reference)), r, SizeEntry(d, m, bar, r, reference))
  {
    var s := SizeEntry(d, m, bar, r, reference);
    var e := Enter(d, r, reference, s);
    EntryFacts(d, m, bar.timestamp, r);
    SizedWell(d, m, bar, r, reference);
    EntersWell(d, m, bar.timestamp, r, reference, s);
    LegRolesOf(e, {r});
    FillLeaves(d, m, bar.timestamp, r, reference, s);
  }

  lemma BreachIsLeg(u: Desk, reference: real)
    ensures Breach(u, reference).Some? ==> PickIsLeg(u, Breach(u, reference).value)
  {
  }

  lemma RemainderLeft(e: Desk, m: Model, bar: Bar, r: nat, setup: Setup, reference: real)
    requires r < |e.orders| && HasRole(e.orders, e.stop, StopLoss) && HasRole(e.orders, e.target, TakeProfit)
    requires e.orders[r].role == EntryRole
    requires Guarded(Protect(e, m, bar, setup), m, bar.timestamp, r)
    ensures var a := Answered(e, m, bar, r, setup, reference);
            if !Alive(e.orders, r) || (m.proxy.Some? && m.proxy.value.cancelRemainder) then !Alive(a.orders, r)
            else r < |a.orders| && a.orders[r] == e.orders[r]
  {
    var u := Protect(e, m, bar, setup);
    ProtectLeaves(e, m, bar, setup, r);
    BreachIsLeg(u, reference);
    ProtectionLeaves(u, m, bar, r, Breach(u, reference));
    RemainderEnds(MatchProtection(u, m, bar, false, Breach(u, reference), false), m, r);
  }

  lemma RemainderEnds(v: Desk, m: Model, r: nat)
    ensures var a := CancelRemainder(v, m, r);
            if m.proxy.Some? && m.proxy.value.cancelRemainder then !Alive(a.orders, r) else a == v
    ensures !Alive(v.orders, r) ==> !Alive(CancelRemainder(v, m, r).orders, r)
  {
  }

  // ------------------------------------------------------- the walk of a bar

  /** A bar whose prices reach the bracket, or open through it, while its terms are in force. */
  predicate Touched(d: Desk, t: Terms, bar: Bar) {
    var long := d.book.size > 0.0;
    && InForce(d, t, bar.timestamp)
    && (StopGaps(long, t, bar) || TargetGaps(long, t, bar) || StopReached(long, t, bar) || TargetReached(long, t, bar))
  }

  /** Only the books, the budget and the bar's exit mark have a say in what a reaction is. */
  lemma ReactsAside(d: Desk, e: Desk, x: Desk, y: Desk, m: Model, bar: Bar, t: Terms)
    requires Reacts(d, e, m, bar, t, true, false)
    requires DeskCausality.SameMeans(d, x) && DeskCausality.SameMeans(e, y)
    ensures Reacts(x, y, m, bar, t, true, false)
  {
  }

  lemma TurnReacts(d: Desk, m: Model, bar: Bar, r: nat, t: Terms)
    requires Safe(d, m, bar.timestamp, {r}) && d.book.size != 0.0 && RestsAt(d, t)
    requires r < |d.orders| && Protective(d.orders[r].role) && d.done == {}
    ensures Reacts(d, Turn(d, m, bar, r), m, bar, t, true, false)
  {
    ProtectionReacts(d, m, bar, {r}, t, true, false);
    ReactsAside(d, MatchProtection(d, m, bar, true, None, false), d, Turn(d, m, bar, r), m, bar, t);
  }

  /** A touched bracket leaves nothing more to trade on the bar. */
  lemma ReactedIsSpent(d: Desk, e: Desk, m: Model, bar: Bar, t: Terms)
    requires Touched(d, t, bar) && Reacts(d, e, m, bar, t, true, false)
    ensures DeskCausality.Exhausted(e, m, bar)
  {
  }

  /**
   A bar that touches the bracket in force: the walk books that one exit, at the
   open if it gaps, at the leg's own price if not, and nothing else, unless not
   one lot of the budget was left.
   */
  lemma WalkReacts(o: Desk, m: Model, bar: Bar, t: Terms)
    requires Safe(o, m, bar.timestamp, {}) && None !in o.pending && SignalsSettled(o, m, bar)
    requires o.book.size != 0.0 && RestsAt(o, t) && Touched(o, t, bar)
    ensures Reacts(o, Pass(Prepared(o, bar), m, bar), m, bar, t, true, false)
  {
    var p := Prepared(o, bar);
    PreparedSafe(o, m, bar);
    DeskCausality.LegIsFirst(o, bar);
    PoppedSafe(p, m, bar.timestamp);
    PoppedSettles(p, m, bar);
    var d, r := Popped(p), p.pending[0].value;
    TurnNarrows(p, m, bar);
    FirstTurn(d, m, bar, r, t);
    ReactsAside(d, Pass(Turn(d, m, bar, r), m, bar), o, Pass(p, m, bar), m, bar, t);
  }

  lemma FirstTurn(d: Desk, m: Model, bar: Bar, r: nat, t: Terms)
    requires Safe(d, m, bar.timestamp, {r}) && Alive(d.orders, r) && SignalsSettled(d, m, bar)
    requires Protective(d.orders[r].role) && d.done == {} && None in Turn(d, m, bar, r).pending
    requires d.book.size != 0.0 && RestsAt(d, t) && Touched(d, t, bar)
    ensures Reacts(d, Pass(Turn(d, m, bar, r), m, bar), m, bar, t, true, false)
  {
    TurnReacts(d, m, bar, r, t);
    TurnSafe(d, m, bar, r);
    SpentWalk(d, Turn(d, m, bar, r), m, bar, t);
  }

  lemma SpentWalk(d: Desk, e: Desk, m: Model, bar: Bar, t: Terms)
    requires Reacts(d, e, m, bar, t, true, false) && Touched(d, t, bar)
    requires Safe(e, m, bar.timestamp, {}) && SignalsSettled(e, m, bar) && None in e.pending
    ensures Reacts(d, Pass(e, m, bar), m, bar, t, true, false)
  {
    ReactedIsSpent(d, e, m, bar, t);
    DeskCausality.ExhaustedPass(e, m, bar);
    ReactsAside(d, e, d, Pass(e, m, bar), m, bar, t);
  }

  lemma {:induction false} NoSignalNoClose(d: Desk, m: Model, bar: Bar, refs: seq<Option<nat>>)
    requires NoneLive(d, Signal)
    ensures SignalsAtOpen(d, m, bar, refs) == d
    decreases |refs|
  {
    if refs != [] {
      NoSignalNoClose(d, m, bar, refs[1..]);
    }
  }

  /**
   Any bar of any run, neither liquidating nor with a signal close waiting: if
   it touches the terms kept of the open position, while they are in force, its
   only fill is the exit they call for.
   */
  lemma BarHonoursTerms(d: Desk, m: Model, input: Input, t: Terms)
    requires Resting(d, m) && d.book.size != 0.0 && AtTerms(d, Some(t))
    requires input.mark == None && NoneLive(d, Signal) && Touched(d, t, input.bar)
    ensures Reacts(OpenDesk(d, m, input.bar, input.due), BrokerBar(d, m, input.bar, input.due, input.mark), m, input.bar, t,
                   true, false)
  {
    var o := OpenDesk(d, m, input.bar, input.due);
    RestingSafe(d, m, input.bar.timestamp);
    OpenDeskSafe(d, m, input.bar, input.due);
    NoSignalNoClose(o, m, input.bar, o.pending);
    NoSignalSettles(o, m, input.bar);
    WalkReacts(o, m, input.bar, t);
  }

  // -------------------------------------------------------- signal closes

  /** The time has come for a close that was decided, has reached the venue and was not offered this bar yet. */
  predicate Ripe(m: Model, o: Order, timestamp: int) {
    && o.createdAt < timestamp && o.decidedAt <= timestamp && o.matchedAt != Some(timestamp)
    && (m.proxy.Some? ==> o.decidedAt + m.proxy.value.fillDelay <= timestamp)
  }

  lemma NoGapNoPick(d: Desk, m: Model, bar: Bar, t: Terms)
    requires d.book.size != 0.0 && RestsAt(d, t)
    requires InForce(d, t, bar.timestamp) ==> !StopGaps(d.book.size > 0.0, t, bar) && !TargetGaps(d.book.size > 0.0, t, bar)
    ensures MatchProtection(d, m, bar, true, None, true) == d
  {
  }

  lemma SignalTaken(d: Desk, m: Model, bar: Bar, r: nat)
    requires Safe(d, m, bar.timestamp, {}) && Alive(d.orders, r) && d.orders[r].role == Signal
    requires d.book.size > 0.0 && !d.orders[r].buy && d.orders[r].remaining >= Held(d)
    ensures ExitsBy(d, CloseAtOpen(d, m, bar, r), m, bar.timestamp, Signal, bar.open)
  {
    var marked := Remove(Update(d, r, d.orders[r].(matchedAt := Some(bar.timestamp))), r);
    if ExitSize(marked, m, r) > 0.0 {
      LegCloses(marked, m, bar, r, bar.open);
    } else {
      NoExitMeansDry(marked, m, r);
    }
  }

  /**
   A ripe signal close of an open long position, on a bar that does not open
   through the bracket in force, is executed at the open, before the walk.
   */
  lemma SignalCloses(d: Desk, m: Model, bar: Bar, r: nat, t: Terms)
    requires Safe(d, m, bar.timestamp, {}) && Alive(d.orders, r) && d.orders[r].role == Signal
    requires DeskAccount.SignalsCover(d) && Ripe(m, d.orders[r], bar.timestamp)
    requires d.book.size != 0.0 && RestsAt(d, t)
    requires InForce(d, t, bar.timestamp) ==> !StopGaps(d.book.size > 0.0, t, bar) && !TargetGaps(d.book.size > 0.0, t, bar)
    ensures ExitsBy(d, MatchSignalOpen(d, m, bar, r), m, bar.timestamp, Signal, bar.open)
  {
    SignalMeansLong(d, m, bar.timestamp, {}, r);
    NoGapNoPick(d, m, bar, t);
    SignalTaken(d, m, bar, r);
  }

  /** Before its time a signal close does nothing: at most the bracket takes the gap the bar opens with. */
  lemma UnripeWaits(d: Desk, m: Model, bar: Bar, r: nat, t: Terms)
    requires Safe(d, m, bar.timestamp, {}) && Alive(d.orders, r) && d.orders[r].role == Signal
    requires !Ripe(m, d.orders[r], bar.timestamp)
    requires d.book.size != 0.0 && RestsAt(d, t)
    ensures var e := MatchSignalOpen(d, m, bar, r);
            e == d || Reacts(d, e, m, bar, t, true, true)
  {
    SignalMeansLong(d, m, bar.timestamp, {}, r);
    ProtectionReacts(d, m, bar, {}, t, true, true);
  }

  // ------------------------------------------ a reference outside its bar

  /**
   An entry's bar counts no gaps, so a stop the market has already left behind
   is still taken at its own price. The reference lies within the bar unless the
   stop lies beyond the far end of it, which adverse costs alone can bring about.
   */
  lemma StopInsideItsBar(long: bool, t: Terms, bar: Bar, average: real)
    requires WellFormed(bar) && StopReached(long, t, bar) && !StopPassed(long, t, average)
    ensures Reached(bar, t.stop) <==> (if long then t.stop <= bar.high else t.stop >= bar.low)
    ensures !Reached(bar, t.stop) ==> !Reached(bar, average)
  {
  }

  /** Bought at an open of 90 with a tenth of costs, a stop at 95 is taken at 95 on a bar whose high is 94. */
  lemma StopAboveItsBar(volume: real)
    ensures var bar, t := Bar(1, 90.0, 94.0, 89.0, 93.0, volume), Terms(95.0, None, None);
            var average := Adjusted(true, None, bar.open, 0.1);
            && WellFormed(bar) && !StopPassed(true, t, average) && StopReached(true, t, bar)
            && !Reached(bar, t.stop)
  {
  }
}
