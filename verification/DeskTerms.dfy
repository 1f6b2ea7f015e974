/**
 Where protection rests. Beside a run of the desk the terms of the open
 position are kept: the stop and target of the setup that opened it, replaced
 only by accepted updates. Over every run the live bracket rests exactly there.
 */
module DeskTerms {
  import opened Wrappers
  import opened Rounding
  import opened TradeBook
  import opened ExecutionPricing
  import opened ExecutionBroker
  import opened DeskTypes
  import opened DeskExecution
  import opened DeskBar
  import opened DeskStructure
  import opened DeskSafety
  import opened DeskSignal
  import opened DeskEntry
  import opened DeskSteps
  import opened DeskPass
  import opened DeskOpening
  import opened DeskAdapter
  import opened DeskHearing
  import opened DeskRun
  import opened DeskFills

  /** Stop, target if there is one, and the time from which the bracket acts. */
  datatype Terms = Terms(stop: real, target: Option<real>, active: Option<int>)

  /** The live stop is a stop order at the terms' stop; a live target exists exactly when they name one, as a limit there. */
  ghost predicate RestsAt(d: Desk, t: Terms) {
    && IsAlive(d, d.stop) && d.orders[d.stop.value].kind == StopOrder && d.orders[d.stop.value].price == t.stop
    && (IsAlive(d, d.target) <==> t.target.Some?)
    && (IsAlive(d, d.target) ==>
          d.orders[d.target.value].kind == LimitOrder && t.target == Some(d.orders[d.target.value].price))
    && d.protectionActive == t.active
  }

  /** An entry that may still fill is sized against the terms: its setup names their stop and their target. */
  ghost predicate Follows(d: Desk, t: Terms) {
    forall x: nat | Alive(d.orders, x) && d.orders[x].role == EntryRole ::
      d.orders[x].setup.Some? && d.orders[x].setup.value.stop == t.stop && d.orders[x].setup.value.target == t.target
  }

  /** The bracket rests at the terms, and what is still to be entered follows them. */
  ghost predicate Holds(d: Desk, t: Terms) {
    RestsAt(d, t) && Follows(d, t)
  }

  lemma FollowsLast(d: Desk, e: Desk, t: Terms)
    requires Follows(d, t) && RolesKept(d.orders, e.orders) && Elder(d.orders, e.orders)
    ensures Follows(e, t)
  {
    forall x: nat | Alive(e.orders, x) && e.orders[x].role == EntryRole
      ensures e.orders[x].setup.Some? && e.orders[x].setup.value.stop == t.stop && e.orders[x].setup.value.target == t.target
    {
      assert x >= |d.orders| ==> Sourced(d.orders, e.orders[x]);
      assert SameTerms(d.orders[x], e.orders[x]) && Alive(d.orders, x);
    }
  }

  /** A bracket rests at one place only. */
  lemma RestsOnce(d: Desk, a: Terms, b: Terms)
    requires RestsAt(d, a) && RestsAt(d, b)
    ensures a == b
  {
  }

  // -------------------------------------------------------- legs that stay

  /** The bracket is the one it was. */
  predicate SameRefs(d: Desk, e: Desk) {
    e.stop == d.stop && e.target == d.target && e.protectionActive == d.protectionActive
  }

  /** Nothing booked, nothing marked, the same bracket. */
  predicate Calm(d: Desk, e: Desk) {
    SameRefs(d, e) && e.book == d.book && e.exitBar == d.exitBar
  }

  /** The same bracket, and nothing booked or the bar marked by an exit. */
  predicate Exits(d: Desk, e: Desk, timestamp: int) {
    SameRefs(d, e) && (Calm(d, e) || (d.book.size != 0.0 && e.exitBar == Some(timestamp)))
  }

  lemma CancelCalm(d: Desk, r: nat)
    ensures Calm(d, Cancel(d, r))
  {
  }

  lemma CancelAliveCalm(d: Desk, r: Option<nat>)
    ensures Calm(d, CancelAlive(d, r))
  {
  }

  lemma AfterExitCalm(d: Desk, r: nat, role: Role)
    ensures Calm(d, AfterExit(d, r, role))
  {
    CancelAliveCalm(d, d.stop);
    CancelAliveCalm(CancelAlive(d, d.stop), d.target);
    var legs := if role != Signal then d
                else if d.book.size != 0.0 then Resize(d)
                else CancelAlive(CancelAlive(d, d.stop), d.target);
    CancelAliveCalm(legs, legs.signal);
  }

  lemma RecordExitMarks(d: Desk, bar: Bar, role: Role, quantity: real)
    ensures var e := RecordExit(d, bar, role, quantity);
            SameRefs(d, e) && e.exitBar == Some(bar.timestamp)
  {
    CancelAliveCalm(Spend(d, role, quantity).(exitBar := Some(bar.timestamp), lastExitRole := Some(role)), d.entry);
  }

  lemma ExitExits(d: Desk, m: Model, bar: Bar, r: nat, reference: real, fee: real)
    ensures Exits(d, ExecuteExit(d, m, bar, r, reference, fee), bar.timestamp)
  {
    if Closes(d, r) && ExitSize(d, m, r) > 0.0 {
      ClosedExits(Trimmed(d, r), m, bar, r, ExitSize(d, m, r), reference, fee);
    }
  }

  lemma ClosedExits(t: Desk, m: Model, bar: Bar, r: nat, quantity: real, reference: real, fee: real)
    requires r < |t.orders|
    ensures var e := ClosedBy(t, m, bar, r, quantity, reference, fee);
            SameRefs(t, e) && e.exitBar == Some(bar.timestamp)
  {
    var role := t.orders[r].role;
    var f := ExitFill(t, m, bar, r, quantity, reference, fee);
    var filled := Fulfil(BookFill(t, f), r, Tally(t.book, f));
    assert SameRefs(t, filled);
    RecordExitMarks(filled, bar, role, quantity);
    AfterExitCalm(RecordExit(filled, bar, role, quantity), r, role);
  }

  lemma ProtectionExits(d: Desk, m: Model, bar: Bar, allowGap: bool, breach: Option<Pick>, openOnly: bool)
    ensures Exits(d, MatchProtection(d, m, bar, allowGap, breach, openOnly), bar.timestamp)
  {
    var selected := Selection(d, bar, allowGap, breach, openOnly);
    if selected.Some? {
      ExitExits(Remove(d, selected.value.ref), m, bar, selected.value.ref, selected.value.reference, 0.0);
    }
  }

  lemma SignalExits(d: Desk, m: Model, bar: Bar, r: nat)
    ensures Exits(d, MatchSignalOpen(d, m, bar, r), bar.timestamp)
  {
    if r >= |d.orders| || d.orders[r].matchedAt == Some(bar.timestamp) || bar.timestamp <= d.orders[r].createdAt {
    } else if d.orders[r].positionId != d.book.trade || d.book.size <= 0.0 {
      CancelCalm(d, r);
    } else {
      var t := MatchProtection(d, m, bar, true, None, true);
      ProtectionExits(d, m, bar, true, None, true);
      SignalFillExits(t, m, bar, r);
    }
  }

  lemma SignalFillExits(t: Desk, m: Model, bar: Bar, r: nat)
    ensures Exits(t, CloseAtOpen(t, m, bar, r), bar.timestamp)
  {
    if r < |t.orders| {
      ExitExits(Remove(Update(t, r, t.orders[r].(matchedAt := Some(bar.timestamp))), r), m, bar, r, bar.open, 0.0);
    }
  }

  // ----------------------------------------------------- a bracket is placed

  /** The terms a setup offers, from the bar its entry fills on. */
  function Offered(s: Setup, m: Model, timestamp: int): Terms {
    Terms(s.stop, s.target, if m.proxy.Some? then Some(timestamp + m.proxy.value.protectionDelay) else None)
  }

  lemma PlacedAt(d: Desk, long: bool, stop: real, target: Option<real>, timestamp: int)
    ensures RestsAt(PlaceBracket(d, long, stop, target, timestamp), Terms(stop, target, d.protectionActive))
  {
  }

  /** The first fill of a setup's entry rests the stop at its stop and the target at its target. */
  lemma FirstFillRests(t: Desk, m: Model, bar: Bar, s: Setup)
    requires !IsAlive(t, t.stop)
    ensures RestsAt(Protect(t, m, bar, s), Offered(s, m, bar.timestamp))
  {
    PlacedAt(t, s.long, s.stop, s.target, bar.timestamp);
  }

  /** Legs that stay, on a position that is covered before and after, rest where they did. */
  lemma StillRests(d: Desk, e: Desk, t: Terms)
    requires RestsAt(d, t) && Bracketed(d) && Bracketed(e) && SameRefs(d, e) && RolesKept(d.orders, e.orders)
    ensures RestsAt(e, t)
  {
    assert SameTerms(d.orders[d.stop.value], e.orders[d.stop.value]);
    assert d.target.Some? ==> SameTerms(d.orders[d.target.value], e.orders[d.target.value]);
  }

  // --------------------------------------------------------------- entries

  lemma EnterCalm(d: Desk, r: nat, reference: real, s: Sizing)
    requires r < |d.orders| && s.Sized?
    ensures SameRefs(d, Enter(d, r, reference, s)) && Enter(d, r, reference, s).exitBar == d.exitBar
  {
    EnterUnfolds(d, r, reference, s);
  }

  lemma RemainderCalm(d: Desk, m: Model, r: nat)
    ensures Calm(d, CancelRemainder(d, m, r))
  {
  }

  /** After an entry fill the bracket is the one `u` placed, and only an exit can have ended the position. */
  lemma FillSettles(u: Desk, m: Model, bar: Bar, r: nat, reference: real)
    ensures var e := CancelRemainder(MatchProtection(u, m, bar, false, Breach(u, reference), false), m, r);
            Exits(u, e, bar.timestamp)
  {
    ProtectionExits(u, m, bar, false, Breach(u, reference), false);
    RemainderCalm(MatchProtection(u, m, bar, false, Breach(u, reference), false), m, r);
  }

  /** While the bar runs: an open position holds `given`; on a flat account every entry that may still fill offers it. */
  ghost predicate Bound(d: Desk, m: Model, timestamp: int, given: Terms) {
    if d.book.size != 0.0 then Holds(d, given)
    else d.exitBar == Some(timestamp) || Offers(d, m, timestamp, given)
  }

  ghost predicate Offers(d: Desk, m: Model, timestamp: int, given: Terms) {
    forall x: nat | Alive(d.orders, x) && d.orders[x].role == EntryRole ::
      d.orders[x].setup.Some? && given == Offered(d.orders[x].setup.value, m, timestamp)
  }

  lemma OffersLast(d: Desk, e: Desk, m: Model, timestamp: int, given: Terms)
    requires Offers(d, m, timestamp, given) && Keeps(d, e) && Elder(d.orders, e.orders)
    ensures Offers(e, m, timestamp, given)
  {
    forall x: nat | Alive(e.orders, x) && e.orders[x].role == EntryRole
      ensures e.orders[x].setup.Some? && given == Offered(e.orders[x].setup.value, m, timestamp)
    {
      assert x >= |d.orders| ==> Sourced(d.orders, e.orders[x]);
      assert SameTerms(d.orders[x], e.orders[x]) && Alive(d.orders, x);
    }
  }

  /** An operation that may only exit keeps the position bound. */
  lemma ExitsBind(d: Desk, e: Desk, m: Model, timestamp: int, given: Terms)
    requires Bound(d, m, timestamp, given) && Covered(d) && Covered(e)
    requires Exits(d, e, timestamp) && Keeps(d, e) && Elder(d.orders, e.orders)
    ensures Bound(e, m, timestamp, given)
  {
    if e.book.size != 0.0 {
      StillRests(d, e, given);
      FollowsLast(d, e, given);
    } else if e.exitBar != Some(timestamp) {
      OffersLast(d, e, m, timestamp, given);
    }
  }

  /** An entry fill on an open position resizes the bracket where it rests. */
  lemma AddedFill(d: Desk, m: Model, bar: Bar, r: nat, reference: real, s: Sizing)
    requires EntryInHand(d, m, bar.timestamp, r) && d.book.size != 0.0
    requires s == SizeEntry(d, m, bar, r, reference) && s.Sized?
    ensures d.orders[r].setup.Some?
    ensures var u := Protect(Enter(d, r, reference, s), m, bar, d.orders[r].setup.value);
            SameRefs(d, u) && u.exitBar == d.exitBar && u.book.size != 0.0
  {
    EntryFacts(d, m, bar.timestamp, r);
    SizedWell(d, m, bar, r, reference);
    EntersWell(d, m, bar.timestamp, r, reference, s);
    EnterCalm(d, r, reference, s);
    var t := Enter(d, r, reference, s);
    assert KeepsBracket(d, t);
  }

  lemma OpeningFill(d: Desk, m: Model, bar: Bar, r: nat, reference: real, s: Sizing)
    requires EntryInHand(d, m, bar.timestamp, r) && d.book.size == 0.0
    requires s == SizeEntry(d, m, bar, r, reference) && s.Sized?
    ensures d.orders[r].setup.Some?
    ensures var u := Protect(Enter(d, r, reference, s), m, bar, d.orders[r].setup.value);
            RestsAt(u, Offered(d.orders[r].setup.value, m, bar.timestamp)) && u.book.size != 0.0
  {
    EntryFacts(d, m, bar.timestamp, r);
    SizedWell(d, m, bar, r, reference);
    EntersWell(d, m, bar.timestamp, r, reference, s);
    var t := Enter(d, r, reference, s);
    EnterCalm(d, r, reference, s);
    DullerNoneLive(d, t);
    assert HasRole(t.orders, t.stop, StopLoss);
    FirstFillRests(t, m, bar, d.orders[r].setup.value);
  }

  /** What follows the fill leaves the position bound, or ended by an exit. */
  lemma FillBinds(u: Desk, m: Model, bar: Bar, r: nat, reference: real, given: Terms)
    requires Holds(u, given) && u.book.size != 0.0 && Bracketed(u)
    requires Elder(u.orders, CancelRemainder(MatchProtection(u, m, bar, false, Breach(u, reference), false), m, r).orders)
    requires Covered(CancelRemainder(MatchProtection(u, m, bar, false, Breach(u, reference), false), m, r))
    ensures Bound(CancelRemainder(MatchProtection(u, m, bar, false, Breach(u, reference), false), m, r), m, bar.timestamp, given)
  {
    var e := CancelRemainder(MatchProtection(u, m, bar, false, Breach(u, reference), false), m, r);
    FillSettles(u, m, bar, r, reference);
    AnsweredSteps(u, m, bar, r, Breach(u, reference));
    if e.book.size != 0.0 {
      StillRests(u, e, given);
      FollowsLast(u, e, given);
    }
  }

  lemma SizedBinds(d: Desk, m: Model, bar: Bar, r: nat, reference: real, s: Sizing, given: Terms)
    requires EntryInHand(d, m, bar.timestamp, r) && Bound(d, m, bar.timestamp, given)
    requires s == SizeEntry(d, m, bar, r, reference) && s.Sized?
    ensures d.orders[r].setup.Some?
    ensures Bound(Answered(Enter(d, r, reference, s), m, bar, r, d.orders[r].setup.value, reference), m, bar.timestamp, given)
  {
    EntryFacts(d, m, bar.timestamp, r);
    var setup := d.orders[r].setup.value;
    var t := Enter(d, r, reference, s);
    var u := Protect(t, m, bar, setup);
    SizedWell(d, m, bar, r, reference);
    EntersWell(d, m, bar.timestamp, r, reference, s);
    ProtectSafe(d, t, m, bar, r);
    SizedEntrySafe(d, m, bar, r, reference, s);
    ProtectedRests(d, m, bar, r, reference, s, given);
    ProtectedFollows(d, u, m, bar, r, reference, s, given);
    AfterEntrySafe(u, m, bar, r, reference);
    FillBinds(u, m, bar, r, reference, given);
  }

  lemma ProtectedRests(d: Desk, m: Model, bar: Bar, r: nat, reference: real, s: Sizing, given: Terms)
    requires EntryInHand(d, m, bar.timestamp, r) && Bound(d, m, bar.timestamp, given)
    requires s == SizeEntry(d, m, bar, r, reference) && s.Sized? && d.orders[r].setup.Some?
    requires Guarded(Protect(Enter(d, r, reference, s), m, bar, d.orders[r].setup.value), m, bar.timestamp, r)
    ensures RestsAt(Protect(Enter(d, r, reference, s), m, bar, d.orders[r].setup.value), given)
  {
    var u := Protect(Enter(d, r, reference, s), m, bar, d.orders[r].setup.value);
    if d.book.size == 0.0 {
      OpeningFill(d, m, bar, r, reference, s);
    } else {
      AddedFill(d, m, bar, r, reference, s);
      FilledSteps(d, m, bar, r, reference, s, d.orders[r].setup.value);
      StillRests(d, u, given);
    }
  }

  lemma OffersFollow(d: Desk, m: Model, timestamp: int, given: Terms)
    requires Offers(d, m, timestamp, given)
    ensures Follows(d, given)
  {
  }

  /** A remainder follows the terms its first fill traded under. */
  lemma ProtectedFollows(d: Desk, u: Desk, m: Model, bar: Bar, r: nat, reference: real, s: Sizing, given: Terms)
    requires EntryInHand(d, m, bar.timestamp, r) && Bound(d, m, bar.timestamp, given)
    requires s == SizeEntry(d, m, bar, r, reference) && s.Sized? && d.orders[r].setup.Some?
    requires u == Protect(Enter(d, r, reference, s), m, bar, d.orders[r].setup.value) && Elder(d.orders, u.orders)
    ensures Follows(u, given)
  {
    EntryFacts(d, m, bar.timestamp, r);
    FilledSteps(d, m, bar, r, reference, s, d.orders[r].setup.value);
    if d.book.size == 0.0 {
      OffersFollow(d, m, bar.timestamp, given);
    }
    FollowsLast(d, u, given);
  }

  lemma RefusedBinds(d: Desk, m: Model, bar: Bar, r: nat, status: Status, given: Terms)
    requires Safe(d, m, bar.timestamp, {r}) && Alive(d.orders, r) && d.orders[r].role == EntryRole
    requires Bound(d, m, bar.timestamp, given) && (status == Rejected || status == Margin)
    ensures Bound(Retire(d, r, status), m, bar.timestamp, given)
  {
    var e := Retire(d, r, status);
    RetireEntrySafe(d, m, bar.timestamp, r, status);
    assert Keeps(d, e);
    ExitsBind(d, e, m, bar.timestamp, given);
  }

  lemma EntryBinds(d: Desk, m: Model, bar: Bar, r: nat, reference: real, given: Terms)
    requires EntryInHand(d, m, bar.timestamp, r) && Bound(d, m, bar.timestamp, given)
    ensures Bound(ExecuteEntry(d, m, bar, r, reference), m, bar.timestamp, given)
  {
    match SizeEntry(d, m, bar, r, reference)
    case Idle =>
    case Refused(status) =>
      RefusedStatus(d, m, bar, r, reference);
      RefusedBinds(d, m, bar, r, status, given);
    case Sized(_, _, _, _, _, _) => SizedBinds(d, m, bar, r, reference, SizeEntry(d, m, bar, r, reference), given);
  }

  lemma MetBinds(t: Desk, m: Model, bar: Bar, r: nat, given: Terms)
    requires EntryInHand(t, m, bar.timestamp, r) && Bound(t, m, bar.timestamp, given)
    ensures Bound(MetBar(t, m, bar, r), m, bar.timestamp, given)
  {
    var reference := MatchReference(t.orders[r].kind, t.orders[r].buy, t.orders[r].price, bar);
    if reference.Some? {
      EntryBinds(t, m, bar, r, reference.value, given);
    }
  }

  lemma TryEntryBinds(d: Desk, m: Model, bar: Bar, r: nat, given: Terms)
    requires Safe(d, m, bar.timestamp, {r}) && Alive(d.orders, r) && d.orders[r].role == EntryRole
    requires Bound(d, m, bar.timestamp, given)
    ensures Bound(TryEntry(d, m, bar, r), m, bar.timestamp, given)
  {
    if EntryDue(d, m, bar, d.orders[r]) {
      var lots := NormalizeLot(m, d.orders[r].remaining);
      if lots == None {
        RefusedBinds(d, m, bar, r, Rejected, given);
      } else {
        var o := d.orders[r].(remaining := lots.value);
        FiguresKeepSafe(d, m, bar.timestamp, {r}, r, o);
        UpdateBinds(d, m, bar.timestamp, r, o, given);
        MetBinds(Update(d, r, o), m, bar, r, given);
      }
    }
  }

  lemma UpdateBinds(d: Desk, m: Model, timestamp: int, r: nat, o: Order, given: Terms)
    requires Bound(d, m, timestamp, given) && r < |d.orders| && o == d.orders[r].(remaining := o.remaining)
    ensures Bound(Update(d, r, o), m, timestamp, given)
  {
  }

  // --------------------------------------------------------------- the walk

  lemma TryExecExits(d: Desk, m: Model, bar: Bar, r: nat)
    requires r < |d.orders| && d.orders[r].role != EntryRole
    ensures Exits(d, TryExec(d, m, bar, r), bar.timestamp)
  {
    match d.orders[r].role
    case Signal => SignalExits(d, m, bar, r);
    case StopLoss => ProtectionExits(d, m, bar, true, None, false);
    case TakeProfit => ProtectionExits(d, m, bar, true, None, false);
    case EntryRole =>
    case Liquidation =>
    case EndOfData =>
  }

  lemma TurnBinds(d: Desk, m: Model, bar: Bar, r: nat, given: Terms)
    requires Safe(d, m, bar.timestamp, {r}) && Alive(d.orders, r) && SignalsSettled(d, m, bar)
    requires Bound(d, m, bar.timestamp, given)
    ensures Bound(Turn(d, m, bar, r), m, bar.timestamp, given)
  {
    if GroupDone(d, r) || d.orders[r].role != EntryRole {
      TurnSafe(d, m, bar, r);
      OtherTurnBinds(d, m, bar, r, given);
    } else {
      TryEntryBinds(d, m, bar, r, given);
      Requeued(TryEntry(d, m, bar, r), m, bar.timestamp, r, given);
    }
  }

  lemma Requeued(t: Desk, m: Model, timestamp: int, r: nat, given: Terms)
    requires Bound(t, m, timestamp, given)
    ensures Bound(Append(t, r), m, timestamp, given)
  {
  }

  lemma TurnExits(d: Desk, m: Model, bar: Bar, r: nat)
    requires r < |d.orders| && (GroupDone(d, r) || d.orders[r].role != EntryRole)
    ensures Exits(d, Turn(d, m, bar, r), bar.timestamp)
  {
    if !GroupDone(d, r) {
      TryExecExits(d, m, bar, r);
    }
  }

  lemma OtherTurnBinds(d: Desk, m: Model, bar: Bar, r: nat, given: Terms)
    requires r < |d.orders| && (GroupDone(d, r) || d.orders[r].role != EntryRole)
    requires Bound(d, m, bar.timestamp, given) && Covered(d) && Covered(Turn(d, m, bar, r))
    requires Elder(d.orders, Turn(d, m, bar, r).orders)
    ensures Bound(Turn(d, m, bar, r), m, bar.timestamp, given)
  {
    TurnExits(d, m, bar, r);
    TurnSteps(d, m, bar, r);
    ExitsBind(d, Turn(d, m, bar, r), m, bar.timestamp, given);
  }

  lemma {:induction false} PassBinds(d: Desk, m: Model, bar: Bar, given: Terms)
    requires Safe(d, m, bar.timestamp, {}) && SignalsSettled(d, m, bar) && None in d.pending
    requires Bound(d, m, bar.timestamp, given)
    ensures Bound(Pass(d, m, bar), m, bar.timestamp, given)
    decreases |Front(d.pending)|
  {
    if d.pending[0].Some? {
      var r := d.pending[0].value;
      PoppedSafe(d, m, bar.timestamp);
      PoppedSettles(d, m, bar);
      TurnSafe(Popped(d), m, bar, r);
      TurnNarrows(d, m, bar);
      TurnBinds(Popped(d), m, bar, r, given);
      PassBinds(Turn(Popped(d), m, bar, r), m, bar, given);
    }
  }

  // ------------------------------------------------------------ the opening

  lemma {:induction false} SignalsBind(d: Desk, m: Model, bar: Bar, refs: seq<Option<nat>>, given: Terms)
    requires Safe(d, m, bar.timestamp, {}) && Bound(d, m, bar.timestamp, given)
    ensures Bound(SignalsAtOpen(d, m, bar, refs), m, bar.timestamp, given)
    decreases |refs|
  {
    if refs != [] {
      var r := refs[0];
      if r.Some? && Alive(d.orders, r.value) && d.orders[r.value].role == Signal {
        var t := MatchSignalOpen(d, m, bar, r.value);
        SignalAtOpenSafe(d, m, bar, r.value);
        MatchSignalOpenSteps(d, m, bar, r.value);
        SignalExits(d, m, bar, r.value);
        ExitsBind(d, t, m, bar.timestamp, given);
        SignalsBind(t, m, bar, refs[1..], given);
      } else {
        SignalsBind(d, m, bar, refs[1..], given);
      }
    }
  }

  lemma WalkBinds(l: Desk, m: Model, bar: Bar, given: Terms)
    requires Safe(l, m, bar.timestamp, {}) && None !in l.pending && Bound(l, m, bar.timestamp, given)
    ensures Bound(Pass(Prepared(SignalsAtOpen(l, m, bar, l.pending), bar), m, bar), m, bar.timestamp, given)
  {
    var s := SignalsAtOpen(l, m, bar, l.pending);
    SignalsBind(l, m, bar, l.pending, given);
    SignalsAtOpenSafe(l, m, bar, l.pending);
    PreparedSafe(s, m, bar);
    PassBinds(Prepared(s, bar), m, bar, given);
  }

  /** What every bar starts from: open and at rest, or flat with an entry that offers `given`. */
  ghost predicate Starts(d: Desk, m: Model, timestamp: int, given: Terms) {
    if d.book.size != 0.0 then Holds(d, given) else Offers(d, m, timestamp, given)
  }

  /** Over a whole bar of the broker, what is open at its end rests where it did, or at the offer of the entry that opened it. */
  lemma BarRests(d: Desk, m: Model, input: Input, given: Terms)
    requires Safe(d, m, input.bar.timestamp, {}) && None !in d.pending && Starts(d, m, input.bar.timestamp, given)
    ensures var b := BrokerBar(d, m, input.bar, input.due, input.mark);
            b.book.size != 0.0 ==> Holds(b, given)
  {
    var o := OpenDesk(d, m, input.bar, input.due);
    var l := Liquidate(o, m, input.bar, input.mark);
    OpenDeskSafe(d, m, input.bar, input.due);
    LiquidateSafe(o, m, input.bar, input.mark);
    BarOpens(d, m, input.bar, input.due, input.mark);
    assert Bound(l, m, input.bar.timestamp, given);
    WalkBinds(l, m, input.bar, given);
  }

  // --------------------------------------------------------- notifications

  /** Nothing has ended the position: the notification is of no completed leg and of no forced close. */
  lemma NoEnd(d: Desk, timestamp: int, n: Notice)
    requires NoticeRule(d, timestamp, n) && d.book.size != 0.0
    ensures n.status == Completed ==> !Protective(n.role) && !Forced(n.role)
  {
  }

  lemma OneHeard(d: Desk, n: Notice)
    requires n.status == Completed ==> !Protective(n.role) && !Forced(n.role)
    ensures var e := DeliverOne(d, n);
            e.stop == d.stop && e.target == d.target && e.protectionActive == d.protectionActive
            && e.orders == d.orders && e.book == d.book
  {
  }

  lemma {:induction false} HearingRests(d: Desk, m: Model, timestamp: int, ns: seq<Notice>, t: Terms)
    requires Hearing(d, m, timestamp, ns) && d.book.size != 0.0 && Holds(d, t)
    ensures Holds(DeliverAll(d, ns), t) && DeliverAll(d, ns).book == d.book
    decreases |ns|
  {
    if ns != [] {
      assert [ns[0]] + ns[1..] == ns;
      assert NoticeRule(d.(notices := ns), timestamp, ns[0]);
      NoEnd(d.(notices := ns), timestamp, ns[0]);
      OneHeard(d, ns[0]);
      DeliverOneSafe(d, m, timestamp, ns[0], ns[1..]);
      HearingRests(DeliverOne(d, ns[0]), m, timestamp, ns[1..], t);
    }
  }

  lemma DeliveredRests(b: Desk, m: Model, timestamp: int, t: Terms)
    requires Safe(b, m, timestamp, {}) && None !in b.pending && CancelHeard(b, b.notices)
    requires b.book.size != 0.0 && Holds(b, t)
    ensures Holds(Deliver(b), t) && Deliver(b).book == b.book
  {
    var silent := b.(notices := []);
    assert silent.(notices := b.notices) == b;
    HearingRests(silent, m, timestamp, b.notices, t);
  }

  // ---------------------------------------------------------- the strategy

  /** A proposed pair never widens the risk and still brackets. */
  predicate Tightens(t: Terms, long: bool, stop: real, target: Option<real>) {
    && stop > 0.0
    && (if long then stop >= t.stop else stop <= t.stop)
    && (target.Some? ==> target.value > 0.0 && (if long then stop < target.value else stop > target.value))
  }

  /**
   The terms after a decision: the stop and target it names, an existing target
   only, if together they differ from the present pair and tighten it.
   */
  function Renewed(t: Terms, long: bool, decision: Decision): Terms {
    var stop := if decision.newStop.Some? then decision.newStop.value else t.stop;
    var target := if t.target.Some? && decision.newTarget.Some? then decision.newTarget else t.target;
    if (stop != t.stop || target != t.target) && Tightens(t, long, stop, target)
    then t.(stop := stop, target := target) else t
  }

  /** No decision ever moves the stop away, gives a target to a position without one or takes one away. */
  lemma RenewedTightens(t: Terms, long: bool, decision: Decision)
    ensures var r := Renewed(t, long, decision);
            && (if long then r.stop >= t.stop else r.stop <= t.stop)
            && (r.target.Some? <==> t.target.Some?) && r.active == t.active
  {
  }

  lemma AcceptKeeps(d: Desk, bar: Bar, decision: Decision)
    ensures var e := AcceptExit(d, bar, decision);
            SameRefs(d, e) && RolesKept(d.orders, e.orders)
  {
    if ExitAccepted(d, decision) {
      var t := DropEntry(d);
      if IsAlive(d, d.entry) {
        CancelSteps(d.(cancelledEntry := d.entry), d.entry.value);
        CancelCalm(d.(cancelledEntry := d.entry), d.entry.value);
      }
      SubmitSteps(t, SignalOrder(t, bar, decision.decidedAt), None);
      RolesTrans(d.orders, t.orders, AcceptExit(d, bar, decision).orders);
    }
  }

  lemma AcceptedRests(d: Desk, m: Model, bar: Bar, decision: Decision, t: Terms)
    requires Ready(d, m) && d.book.size != 0.0 && Holds(d, t)
    ensures var e := AcceptExit(d, bar, decision);
            Resting(e, m) && e.book == d.book && Holds(e, t)
  {
    var e := AcceptExit(d, bar, decision);
    AcceptExitSafe(d, m, bar, decision);
    AcceptKeeps(d, bar, decision);
    StillRests(d, e, t);
    FollowsLast(d, e, t);
  }

  /** A protection update rests both legs at the renewed terms, or leaves them. */
  lemma UpdatedRests(d: Desk, bar: Bar, decision: Decision, t: Terms)
    requires RestsAt(d, t)
    ensures RestsAt(UpdateExits(d, bar, decision), Renewed(t, d.book.size > 0.0, decision))
  {
    var stop, target := NextStop(d, decision), NextTarget(d, decision);
    var w := RewriteEntry(d, stop, target);
    CancelCalm(w, d.stop.value);
    PlacedAt(Cancel(w, d.stop.value), d.book.size > 0.0, stop, target, bar.timestamp);
  }

  /** What the update rewrites of the waiting remainder, and what the replacement of the bracket leaves of it. */
  lemma ReplacedEntry(d: Desk, m: Model, stop: real, target: Option<real>, timestamp: int)
    requires Resting(d, m) && d.book.size != 0.0 && IsAlive(d, d.stop)
    requires forall x: nat | Alive(d.orders, x) && d.orders[x].role == EntryRole :: d.orders[x].setup.Some?
    ensures forall x: nat | Alive(Replace(d, stop, target, timestamp).orders, x) ::
              var o := Replace(d, stop, target, timestamp).orders[x];
              o.role == EntryRole ==> o.setup.Some? && o.setup.value.stop == stop && o.setup.value.target == target
  {
    var w := RewriteEntry(d, stop, target);
    var t := Cancel(w, d.stop.value);
    var e := Replace(d, stop, target, timestamp);
    ReplaceSafe(d, m, stop, target, timestamp);
    CancelSteps(w, d.stop.value);
    PlaceBracketRoles(t, d.book.size > 0.0, stop, target, timestamp);
    forall x: nat | Alive(e.orders, x) && e.orders[x].role == EntryRole
      ensures e.orders[x].setup.Some? && e.orders[x].setup.value.stop == stop && e.orders[x].setup.value.target == target
    {
      assert x < |t.orders| && e.orders[x] == t.orders[x] && SameTerms(w.orders[x], t.orders[x]);
      assert Alive(d.orders, x) && Remembered(d, x);
    }
  }

  lemma PlaceBracketRoles(t: Desk, long: bool, stop: real, target: Option<real>, timestamp: int)
    ensures var e := PlaceBracket(t, long, stop, target, timestamp);
            && t.orders <= e.orders
            && forall i | |t.orders| <= i < |e.orders| :: Protective(e.orders[i].role)
  {
  }

  /** After an update the remainder follows the renewed terms. */
  lemma UpdatedFollows(d: Desk, m: Model, bar: Bar, decision: Decision, t: Terms)
    requires Resting(d, m) && d.book.size != 0.0 && Holds(d, t)
    ensures Holds(UpdateExits(d, bar, decision), Renewed(t, d.book.size > 0.0, decision))
  {
    var e, renewed := UpdateExits(d, bar, decision), Renewed(t, d.book.size > 0.0, decision);
    UpdatedRests(d, bar, decision, t);
    if e == d {
      RestsOnce(d, t, renewed);
    } else {
      var stop, target := NextStop(d, decision), NextTarget(d, decision);
      var w := RewriteEntry(d, stop, target);
      CancelCalm(w, d.stop.value);
      PlacedAt(Cancel(w, d.stop.value), d.book.size > 0.0, stop, target, bar.timestamp);
      RestsOnce(e, renewed, Terms(stop, target, d.protectionActive));
      ReplacedEntry(d, m, stop, target, bar.timestamp);
    }
  }

  lemma StrategyRests(d: Desk, m: Model, bar: Bar, decision: Decision, t: Terms)
    requires Ready(d, m) && d.book.size != 0.0 && Holds(d, t)
    ensures Holds(Strategy(d, m, bar, decision), Renewed(t, d.book.size > 0.0, decision))
  {
    AcceptedRests(d, m, bar, decision, t);
    UpdatedFollows(AcceptExit(d, bar, decision), m, bar, decision, t);
  }

  // -------------------------------------------------------------- whole run

  /** The terms a bar trades under: those kept of the open position, or what the waiting entry offers. */
  function Awaited(d: Desk, m: Model, timestamp: int, kept: Option<Terms>): Option<Terms> {
    if d.book.size != 0.0 then kept
    else if IsAlive(d, d.entry) && d.orders[d.entry.value].setup.Some?
    then Some(Offered(d.orders[d.entry.value].setup.value, m, timestamp))
    else None
  }

  /** The terms kept after a bar: none once flat, renewed by the strategy's decision otherwise. */
  function TermsAfter(d: Desk, m: Model, input: Input, kept: Option<Terms>): Option<Terms> {
    var b := BrokerBar(d, m, input.bar, input.due, input.mark);
    var now := Awaited(d, m, input.bar.timestamp, kept);
    if b.book.size == 0.0 || now == None then None
    else Some(Renewed(now.value, b.book.size > 0.0, input.decision))
  }

  function TermsOf(d: Desk, m: Model, inputs: seq<Input>, kept: Option<Terms>): Option<Terms>
    decreases |inputs|
  {
    if inputs == [] then kept
    else TermsOf(Step(d, m, inputs[0]), m, inputs[1..], TermsAfter(d, m, inputs[0], kept))
  }

  /** An open position holds the terms kept of it, and a flat account keeps none. */
  ghost predicate AtTerms(d: Desk, kept: Option<Terms>) {
    if d.book.size == 0.0 then kept == None else kept.Some? && Holds(d, kept.value)
  }

  lemma BarStarts(d: Desk, m: Model, timestamp: int, kept: Option<Terms>, given: Terms)
    requires Resting(d, m) && AtTerms(d, kept)
    requires Awaited(d, m, timestamp, kept) == None || Awaited(d, m, timestamp, kept) == Some(given)
    ensures Starts(d, m, timestamp, given)
  {
    forall x: nat | d.book.size == 0.0 && Alive(d.orders, x) && d.orders[x].role == EntryRole
      ensures d.orders[x].setup.Some? && given == Offered(d.orders[x].setup.value, m, timestamp)
    {
      assert Remembered(d, x);
    }
  }

  /** Without terms to trade under no position is opened: it could not rest at two places. */
  lemma NothingAwaited(d: Desk, m: Model, input: Input, kept: Option<Terms>)
    requires Resting(d, m) && AtTerms(d, kept) && Awaited(d, m, input.bar.timestamp, kept) == None
    ensures BrokerBar(d, m, input.bar, input.due, input.mark).book.size == 0.0
  {
    var here, there := Terms(1.0, None, None), Terms(2.0, None, None);
    BarStarts(d, m, input.bar.timestamp, kept, here);
    BarStarts(d, m, input.bar.timestamp, kept, there);
    RestingSafe(d, m, input.bar.timestamp);
    BarRests(d, m, input, here);
    BarRests(d, m, input, there);
  }

  lemma BarAtTerms(d: Desk, m: Model, input: Input, kept: Option<Terms>)
    requires Resting(d, m) && AtTerms(d, kept)
    ensures var b, now := BrokerBar(d, m, input.bar, input.due, input.mark), Awaited(d, m, input.bar.timestamp, kept);
            b.book.size != 0.0 ==> now.Some? && Holds(b, now.value)
  {
    var now := Awaited(d, m, input.bar.timestamp, kept);
    if now == None {
      NothingAwaited(d, m, input, kept);
    } else {
      BarStarts(d, m, input.bar.timestamp, kept, now.value);
      RestingSafe(d, m, input.bar.timestamp);
      BarRests(d, m, input, now.value);
    }
  }

  lemma StepAtTerms(d: Desk, m: Model, input: Input, kept: Option<Terms>)
    requires Resting(d, m) && AtTerms(d, kept)
    ensures AtTerms(Step(d, m, input), TermsAfter(d, m, input, kept))
  {
    var b := BrokerBar(d, m, input.bar, input.due, input.mark);
    BarAtTerms(d, m, input, kept);
    StepBooks(d, m, input);
    if b.book.size != 0.0 {
      RestingSafe(d, m, input.bar.timestamp);
      BrokerBarSafe(d, m, input.bar, input.due, input.mark);
      StillToBeHeard(d, b);
      HeardAndDecided(b, m, input.bar, input.decision, Awaited(d, m, input.bar.timestamp, kept).value);
    }
  }

  lemma HeardAndDecided(b: Desk, m: Model, bar: Bar, decision: Decision, t: Terms)
    requires Safe(b, m, bar.timestamp, {}) && None !in b.pending && CancelHeard(b, b.notices)
    requires b.book.size != 0.0 && Holds(b, t)
    ensures Holds(Strategy(Deliver(b), m, bar, decision), Renewed(t, b.book.size > 0.0, decision))
  {
    DeliverSafe(b, m, bar.timestamp);
    DeliveredRests(b, m, bar.timestamp, t);
    StrategyRests(Deliver(b), m, bar, decision, t);
  }

  lemma {:induction false} RunAtTerms(d: Desk, m: Model, inputs: seq<Input>, kept: Option<Terms>)
    requires Resting(d, m) && AtTerms(d, kept)
    ensures AtTerms(Played(d, m, inputs), TermsOf(d, m, inputs, kept))
    decreases |inputs|
  {
    if inputs != [] {
      StepSafe(d, m, inputs[0]);
      StepAtTerms(d, m, inputs[0], kept);
      RunAtTerms(Step(d, m, inputs[0]), m, inputs[1..], TermsAfter(d, m, inputs[0], kept));
    }
  }

  /**
   Over every run from a fresh account: while a position is open, its stop
   rests at the stop of the setup that opened it or of the last accepted update,
   and its target at that target, and there is one exactly when they name one;
   and what is still to be entered is sized against the same stop and target.
   */
  lemma EveryBracketRests(m: Model, initial: real, leverage: real, inputs: seq<Input>)
    requires leverage > 0.0 && (m.step.Some? ==> m.step.value > 0.0)
    ensures var d := Fresh(initial, leverage);
            AtTerms(Played(d, m, inputs), TermsOf(d, m, inputs, None))
  {
    FreshRests(m, initial, leverage);
    RunAtTerms(Fresh(initial, leverage), m, inputs, None);
  }
}
