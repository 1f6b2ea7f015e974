/**
 What every broker operation leaves alone, whatever the state: the adapter's
 entry and signal references, notifications already given, and the part of the
 queue still ahead of the sentinel, which only ever gets shorter.
 */
module DeskSteps {
  import opened Wrappers
  import opened Rounding
  import opened TradeBook
  import opened ExecutionPricing
  import opened DeskTypes
  import opened DeskExecution
  import opened DeskBar

  /** `g` holds only elements of `f`, and no more of them. */
  ghost predicate Narrower(f: seq<nat>, g: seq<nat>) {
    |g| <= |f| && forall x | x in g :: x in f
  }

  ghost predicate QueueStep(p: seq<Option<nat>>, q: seq<Option<nat>>) {
    && (None in q <==> None in p)
    && (None in p ==> Narrower(Front(p), Front(q)))
  }

  /** A new order is no entry, and a new leg rests at a price some order's setup names. */
  predicate Sourced(orders: seq<Order>, o: Order) {
    && o.role != EntryRole && o.setup == None
    && (Protective(o.role) ==> exists j | 0 <= j < |orders| :: Names(orders[j], o.price))
  }

  predicate Names(o: Order, price: real) {
    o.setup.Some? && (o.setup.value.stop == price || o.setup.value.target == Some(price))
  }

  predicate SameTerms(a: Order, b: Order) {
    && b.role == a.role && b.buy == a.buy && b.kind == a.kind && b.price == a.price
    && b.setup == a.setup && b.budget == a.budget
  }

  /** Orders keep role, side, kind, price, setup and budget; no entry is added, and new legs stem from a setup. */
  predicate RolesKept(a: seq<Order>, b: seq<Order>) {
    && |a| <= |b|
    && (forall i | 0 <= i < |a| :: SameTerms(a[i], b[i]))
    && (forall i | |a| <= i < |b| :: Sourced(a, b[i]))
  }

  /** The remembered leg is the one it was, none, or a newly added one of its role. */
  predicate LegKept(before: Option<nat>, after: Option<nat>, role: Role, a: seq<Order>, b: seq<Order>) {
    || after == before || after == None
    || (|a| <= after.value < |b| && b[after.value].role == role)
  }

  /** Notifications are only added, and only the adapter moves its entry and signal references. */
  predicate Keeps(d: Desk, e: Desk) {
    && d.notices <= e.notices
    && RolesKept(d.orders, e.orders)
    && LegKept(d.stop, e.stop, StopLoss, d.orders, e.orders)
    && LegKept(d.target, e.target, TakeProfit, d.orders, e.orders)
    && e.entry == d.entry && e.cancelledEntry == d.cancelledEntry && e.signal == d.signal
  }

  ghost predicate Steps(d: Desk, e: Desk) {
    Keeps(d, e) && QueueStep(d.pending, e.pending)
  }

  lemma SourcedBefore(a: seq<Order>, b: seq<Order>, o: Order)
    requires RolesKept(a, b) && Sourced(b, o)
    ensures Sourced(a, o)
  {
    if Protective(o.role) {
      var j :| 0 <= j < |b| && Names(b[j], o.price);
      assert j < |a| && SameTerms(a[j], b[j]) && Names(a[j], o.price);
    }
  }

  lemma RolesTrans(a: seq<Order>, b: seq<Order>, c: seq<Order>)
    requires RolesKept(a, b) && RolesKept(b, c)
    ensures RolesKept(a, c)
  {
    forall i | |a| <= i < |c| ensures Sourced(a, c[i]) {
      if i < |b| {
        assert SameTerms(b[i], c[i]) && Sourced(a, b[i]);
        if Protective(c[i].role) {
          var j :| 0 <= j < |a| && Names(a[j], b[i].price);
        }
      } else {
        SourcedBefore(a, b, c[i]);
      }
    }
    forall i | 0 <= i < |a| ensures SameTerms(a[i], c[i]) {
      assert SameTerms(a[i], b[i]) && SameTerms(b[i], c[i]);
    }
  }

  lemma KeepsTrans(a: Desk, b: Desk, c: Desk)
    requires Keeps(a, b) && Keeps(b, c)
    ensures Keeps(a, c)
  {
    RolesTrans(a.orders, b.orders, c.orders);
    LegTrans(a.stop, b.stop, c.stop, StopLoss, a.orders, b.orders, c.orders);
    LegTrans(a.target, b.target, c.target, TakeProfit, a.orders, b.orders, c.orders);
  }

  lemma LegTrans(
    x: Option<nat>, y: Option<nat>, z: Option<nat>, role: Role, a: seq<Order>, b: seq<Order>, c: seq<Order>)
    requires LegKept(x, y, role, a, b) && LegKept(y, z, role, b, c) && RolesKept(a, b) && RolesKept(b, c)
    ensures LegKept(x, z, role, a, c)
  {
    if z.Some? && |a| <= z.value < |b| {
      assert SameTerms(b[z.value], c[z.value]);
    }
  }

  lemma StepsTrans(a: Desk, b: Desk, c: Desk)
    requires Steps(a, b) && Steps(b, c)
    ensures Steps(a, c)
  {
    KeepsTrans(a, b, c);
  }

  lemma {:induction false} FrontWithout(p: seq<Option<nat>>, refs: set<nat>)
    ensures QueueStep(p, Without(p, refs))
  {
    if None in p {
      var rest := Without(p[1..], refs);
      if p[0] == None {
        assert Without(p, refs) == [None] + rest;
        assert Front(Without(p, refs)) == [];
      } else {
        assert None in p[1..];
        FrontWithout(p[1..], refs);
        var head := p[0].value;
        var kept := [p[0]] + rest;
        assert kept[1..] == rest;
        assert Front(kept) == [head] + Front(rest) && Front(p) == [head] + Front(p[1..]);
        assert Narrower(Front(p), Front(rest)) && Narrower(Front(p), Front(kept));
        assert Without(p, refs) == kept || Without(p, refs) == rest;
      }
      assert None in Without(p, refs);
      assert Narrower(Front(p), Front(Without(p, refs)));
    }
  }

  lemma {:induction false} FrontAppend(p: seq<Option<nat>>, x: Option<nat>)
    requires None in p
    ensures Front(p + [x]) == Front(p)
  {
    if p[0].Some? {
      assert None in p[1..];
      FrontAppend(p[1..], x);
      assert (p + [x])[1..] == p[1..] + [x];
    }
  }

  lemma RemoveSteps(d: Desk, r: nat)
    ensures Steps(d, Remove(d, r))
  {
    FrontWithout(d.pending, {r});
  }

  lemma AppendSteps(d: Desk, r: nat)
    ensures Steps(d, Append(d, r))
  {
    if None in d.pending {
      FrontAppend(d.pending, Some(r));
    }
  }

  lemma CompleteSteps(d: Desk, r: nat)
    ensures Steps(d, OcoComplete(d, r))
  {
    if r < |d.orders| {
      FrontWithout(d.pending, Members(d, d.orders[r].group));
    }
  }

  lemma ResizeSteps(d: Desk)
    ensures Steps(d, Resize(d))
  {
    assert RolesKept(d.orders, Resized(d.orders, d.stop, Held(d)));
  }

  lemma CheckSteps(d: Desk, r: nat)
    ensures Steps(d, OcoCheck(d, r))
  {
    CompleteSteps(d, r);
    ResizeSteps(d);
  }

  lemma RetireSteps(d: Desk, r: nat, status: Status)
    ensures Steps(d, Retire(d, r, status))
  {
  }

  lemma CancelSteps(d: Desk, r: nat)
    ensures Steps(d, Cancel(d, r))
  {
    if r < |d.orders| && Queued(d.pending, r) {
      var removed := Remove(d, r);
      var retired := Retire(removed, r, Canceled);
      RemoveSteps(d, r);
      RetireSteps(removed, r, Canceled);
      StepsTrans(d, removed, retired);
      CheckSteps(retired, r);
      StepsTrans(d, retired, OcoCheck(retired, r));
    }
  }

  lemma CancelAliveSteps(d: Desk, r: Option<nat>)
    ensures Steps(d, CancelAlive(d, r))
  {
    if IsAlive(d, r) {
      CancelSteps(d, r.value);
    }
  }

  lemma SubmitSteps(d: Desk, o: Order, leader: Option<nat>)
    requires Sourced(d.orders, o)
    ensures Steps(d, Submit(d, o, leader))
  {
    AppendSteps(d, |d.orders|);
  }

  lemma FulfilSteps(d: Desk, r: nat, added: Figures)
    ensures Steps(d, Fulfil(d, r, added))
  {
    if r < |d.orders| {
      CheckSteps(Notify(Update(d, r, Executed(d.orders[r], added)), r), r);
    }
  }

  lemma SignalLegsSteps(d: Desk)
    ensures Steps(d, Resize(d)) && Steps(d, CancelAlive(CancelAlive(d, d.stop), d.target))
  {
    ResizeSteps(d);
    CancelAliveSteps(d, d.stop);
    CancelAliveSteps(CancelAlive(d, d.stop), d.target);
    StepsTrans(d, CancelAlive(d, d.stop), CancelAlive(CancelAlive(d, d.stop), d.target));
  }

  lemma AfterExitSteps(d: Desk, r: nat, role: Role)
    ensures Steps(d, AfterExit(d, r, role))
  {
    SignalLegsSteps(d);
    var legs := if role != Signal then d
                else if d.book.size != 0.0 then Resize(d)
                else CancelAlive(CancelAlive(d, d.stop), d.target);
    CancelAliveSteps(legs, legs.signal);
    StepsTrans(d, legs, CancelAlive(legs, legs.signal));
  }

  lemma RecordExitSteps(d: Desk, bar: Bar, role: Role, quantity: real)
    ensures Steps(d, RecordExit(d, bar, role, quantity))
  {
    CancelAliveSteps(Spend(d, role, quantity).(exitBar := Some(bar.timestamp), lastExitRole := Some(role)), d.entry);
  }

  lemma ClosedBySteps(t: Desk, m: Model, bar: Bar, r: nat, quantity: real, reference: real, fee: real)
    requires r < |t.orders|
    ensures Steps(t, ClosedBy(t, m, bar, r, quantity, reference, fee))
  {
    var role := t.orders[r].role;
    var f := ExitFill(t, m, bar, r, quantity, reference, fee);
    var booked := BookFill(t, f);
    var filled := Fulfil(booked, r, Tally(t.book, f));
    var recorded := RecordExit(filled, bar, role, quantity);
    FulfilSteps(booked, r, Tally(t.book, f));
    RecordExitSteps(filled, bar, role, quantity);
    StepsTrans(t, filled, recorded);
    AfterExitSteps(recorded, r, role);
    StepsTrans(t, recorded, AfterExit(recorded, r, role));
  }

  lemma ExecuteExitSteps(d: Desk, m: Model, bar: Bar, r: nat, reference: real, fee: real)
    ensures Steps(d, ExecuteExit(d, m, bar, r, reference, fee))
  {
    if Closes(d, r) && ExitSize(d, m, r) > 0.0 {
      ClosedBySteps(Trimmed(d, r), m, bar, r, ExitSize(d, m, r), reference, fee);
    }
  }

  lemma TakeLegSteps(d: Desk, m: Model, bar: Bar, pick: Pick)
    ensures Steps(d, TakeLeg(d, m, bar, pick))
  {
    var t := ExecuteExit(Remove(d, pick.ref), m, bar, pick.ref, pick.reference, 0.0);
    RemoveSteps(d, pick.ref);
    ExecuteExitSteps(Remove(d, pick.ref), m, bar, pick.ref, pick.reference, 0.0);
    AppendSteps(t, pick.ref);
  }

  lemma MatchProtectionSteps(d: Desk, m: Model, bar: Bar, allowGap: bool, breach: Option<Pick>, openOnly: bool)
    ensures Steps(d, MatchProtection(d, m, bar, allowGap, breach, openOnly))
  {
    var selected := Selection(d, bar, allowGap, breach, openOnly);
    if selected.Some? {
      TakeLegSteps(d, m, bar, selected.value);
    }
  }

  lemma UpdateSteps(d: Desk, r: nat, o: Order)
    requires r < |d.orders| && SameTerms(d.orders[r], o)
    ensures Steps(d, Update(d, r, o))
  {
  }

  lemma CloseAtOpenSteps(d: Desk, m: Model, bar: Bar, r: nat)
    ensures Steps(d, CloseAtOpen(d, m, bar, r))
  {
    if r < |d.orders| {
      var marked := Update(d, r, d.orders[r].(matchedAt := Some(bar.timestamp)));
      var t := ExecuteExit(Remove(marked, r), m, bar, r, bar.open, 0.0);
      UpdateSteps(d, r, d.orders[r].(matchedAt := Some(bar.timestamp)));
      RemoveSteps(marked, r);
      ExecuteExitSteps(Remove(marked, r), m, bar, r, bar.open, 0.0);
      StepsTrans(d, marked, Remove(marked, r));
      StepsTrans(d, Remove(marked, r), t);
      AppendSteps(t, r);
    }
  }

  lemma AfterGapSteps(d: Desk, m: Model, bar: Bar, r: nat)
    ensures var t := MatchProtection(d, m, bar, true, None, true);
            Steps(d, t) && Steps(d, CloseAtOpen(t, m, bar, r))
  {
    var t := MatchProtection(d, m, bar, true, None, true);
    MatchProtectionSteps(d, m, bar, true, None, true);
    CloseAtOpenSteps(t, m, bar, r);
    StepsTrans(d, t, CloseAtOpen(t, m, bar, r));
  }

  lemma MatchSignalOpenSteps(d: Desk, m: Model, bar: Bar, r: nat)
    ensures Steps(d, MatchSignalOpen(d, m, bar, r))
  {
    CancelSteps(d, r);
    AfterGapSteps(d, m, bar, r);
  }

  /** Some order carries this setup. */
  predicate Carried(orders: seq<Order>, setup: Setup) {
    exists j | 0 <= j < |orders| :: orders[j].setup == Some(setup)
  }

  lemma CarriedKept(a: seq<Order>, b: seq<Order>, setup: Setup)
    requires RolesKept(a, b) && Carried(a, setup)
    ensures Carried(b, setup)
  {
    var j :| 0 <= j < |a| && a[j].setup == Some(setup);
    assert SameTerms(a[j], b[j]);
  }

  lemma LegSourced(orders: seq<Order>, setup: Setup, role: Role, kind: Kind, price: real, size: real, timestamp: int)
    requires Carried(orders, setup) && Protective(role)
    requires price == setup.stop || setup.target == Some(price)
    ensures Sourced(orders, Leg(role, !setup.long, kind, price, size, timestamp))
  {
    var j :| 0 <= j < |orders| && orders[j].setup == Some(setup);
    assert Names(orders[j], price);
  }

  lemma StopSteps(d: Desk, setup: Setup, timestamp: int)
    requires Carried(d.orders, setup)
    ensures var t := Submit(d, Leg(StopLoss, !setup.long, StopOrder, setup.stop, Held(d), timestamp), None)
                     .(stop := Some(|d.orders|));
            Steps(d, t) && Carried(t.orders, setup)
  {
    var stop := Leg(StopLoss, !setup.long, StopOrder, setup.stop, Held(d), timestamp);
    LegSourced(d.orders, setup, StopLoss, StopOrder, setup.stop, Held(d), timestamp);
    SubmitSteps(d, stop, None);
    CarriedKept(d.orders, Submit(d, stop, None).orders, setup);
  }

  lemma TargetSteps(d: Desk, setup: Setup, price: real, size: real, timestamp: int, leader: nat)
    requires Carried(d.orders, setup) && setup.target == Some(price)
    ensures Steps(d, Submit(d, Leg(TakeProfit, !setup.long, LimitOrder, price, size, timestamp), Some(leader))
                     .(target := Some(|d.orders|)))
  {
    LegSourced(d.orders, setup, TakeProfit, LimitOrder, price, size, timestamp);
    SubmitSteps(d, Leg(TakeProfit, !setup.long, LimitOrder, price, size, timestamp), Some(leader));
  }

  /** A bracket placed from a setup that some order carries. */
  lemma BracketSteps(d: Desk, setup: Setup, timestamp: int)
    requires Carried(d.orders, setup)
    ensures Steps(d, PlaceBracket(d, setup.long, setup.stop, setup.target, timestamp))
  {
    var stopped := Submit(d, Leg(StopLoss, !setup.long, StopOrder, setup.stop, Held(d), timestamp), None)
                   .(stop := Some(|d.orders|));
    StopSteps(d, setup, timestamp);
    if setup.target.Some? {
      TargetSteps(stopped, setup, setup.target.value, Held(d), timestamp, |d.orders|);
      StepsTrans(d, stopped, PlaceBracket(d, setup.long, setup.stop, setup.target, timestamp));
    }
  }

  lemma ProtectSteps(d: Desk, m: Model, bar: Bar, setup: Setup)
    requires Carried(d.orders, setup)
    ensures Steps(d, Protect(d, m, bar, setup))
  {
    BracketSteps(d, setup, bar.timestamp);
    ResizeSteps(d);
  }

  lemma EnterSteps(d: Desk, r: nat, reference: real, s: Sizing)
    requires r < |d.orders| && s.Sized?
    ensures Steps(d, Enter(d, r, reference, s))
  {
    var sized := Update(d, r, d.orders[r].(remaining := s.quantity));
    var f := EntryFill(d, r, reference, s);
    var booked := BookFill(sized, f);
    var filled := Fulfil(booked, r, Tally(d.book, f));
    SizedSteps(d, r, s.quantity, f);
    FulfilSteps(booked, r, Tally(d.book, f));
    StepsTrans(d, booked, filled);
    SpendSteps(filled, EntryRole, s.fill);
    StepsTrans(d, filled, Spend(filled, EntryRole, s.fill));
  }

  lemma SizedSteps(d: Desk, r: nat, quantity: real, f: Fill)
    requires r < |d.orders|
    ensures Steps(d, BookFill(Update(d, r, d.orders[r].(remaining := quantity)), f))
  {
  }

  lemma SpendSteps(d: Desk, role: Role, quantity: real)
    ensures Steps(d, Spend(d, role, quantity))
  {
  }

  /** Protection's answer to an entry fill, and the end of an unwanted remainder. */
  lemma AnsweredSteps(t: Desk, m: Model, bar: Bar, r: nat, breach: Option<Pick>)
    ensures Steps(t, CancelRemainder(MatchProtection(t, m, bar, false, breach, false), m, r))
  {
    MatchProtectionSteps(t, m, bar, false, breach, false);
  }

  lemma FilledSteps(d: Desk, m: Model, bar: Bar, r: nat, reference: real, s: Sizing, setup: Setup)
    requires r < |d.orders| && s.Sized? && d.orders[r].setup == Some(setup)
    ensures Steps(d, Protect(Enter(d, r, reference, s), m, bar, setup))
  {
    EnterSteps(d, r, reference, s);
    CarriedKept(d.orders, Enter(d, r, reference, s).orders, setup);
    ProtectSteps(Enter(d, r, reference, s), m, bar, setup);
    StepsTrans(d, Enter(d, r, reference, s), Protect(Enter(d, r, reference, s), m, bar, setup));
  }

  lemma ExecuteEntrySteps(d: Desk, m: Model, bar: Bar, r: nat, reference: real)
    ensures Steps(d, ExecuteEntry(d, m, bar, r, reference))
  {
    var s := SizeEntry(d, m, bar, r, reference);
    if s.Sized? && r < |d.orders| && d.orders[r].setup.Some? {
      var t := Protect(Enter(d, r, reference, s), m, bar, d.orders[r].setup.value);
      FilledSteps(d, m, bar, r, reference, s, d.orders[r].setup.value);
      AnsweredSteps(t, m, bar, r, Breach(t, reference));
      StepsTrans(d, t, ExecuteEntry(d, m, bar, r, reference));
    }
  }

  lemma MetBarSteps(t: Desk, m: Model, bar: Bar, r: nat)
    ensures Steps(t, MetBar(t, m, bar, r))
  {
    if r < |t.orders| {
      var reference := MatchReference(t.orders[r].kind, t.orders[r].buy, t.orders[r].price, bar);
      if reference.Some? {
        ExecuteEntrySteps(t, m, bar, r, reference.value);
      }
    }
  }

  lemma TryEntrySteps(d: Desk, m: Model, bar: Bar, r: nat)
    ensures Steps(d, TryEntry(d, m, bar, r))
  {
    if r < |d.orders| && EntryDue(d, m, bar, d.orders[r]) && NormalizeLot(m, d.orders[r].remaining).Some? {
      var t := Update(d, r, d.orders[r].(remaining := NormalizeLot(m, d.orders[r].remaining).value));
      UpdateSteps(d, r, t.orders[r]);
      MetBarSteps(t, m, bar, r);
      StepsTrans(d, t, MetBar(t, m, bar, r));
    }
  }

  lemma TryExecSteps(d: Desk, m: Model, bar: Bar, r: nat)
    ensures Steps(d, TryExec(d, m, bar, r))
  {
    MatchSignalOpenSteps(d, m, bar, r);
    MatchProtectionSteps(d, m, bar, true, None, false);
    TryEntrySteps(d, m, bar, r);
  }

  lemma DoneSteps(d: Desk, r: nat)
    ensures Steps(d, OcoCheck(Retire(d, r, Canceled), r))
  {
    var t := Retire(d, r, Canceled);
    assert Steps(d, t);
    CheckSteps(t, r);
    StepsTrans(d, t, OcoCheck(t, r));
  }

  /** One turn of the queue walk only ever shortens what is still to be walked. */
  lemma TurnSteps(d: Desk, m: Model, bar: Bar, r: nat)
    ensures Steps(d, Turn(d, m, bar, r))
  {
    if GroupDone(d, r) {
      DoneSteps(d, r);
    } else {
      var t := TryExec(d, m, bar, r);
      TryExecSteps(d, m, bar, r);
      AppendSteps(t, r);
      if Alive(t.orders, r) {
        StepsTrans(d, t, Append(t, r));
      }
    }
  }
}
