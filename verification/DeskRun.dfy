/**
 Whole runs: whatever the bars, the funding, the marks and the strategy's
 decisions, no position is ever naked, no two legs of a bracket ever both
 complete, and the books are always sound.
 */
module DeskRun {
  import opened Wrappers
  import opened Rounding
  import opened TradeBook
  import opened ExecutionPricing
  import opened DeskTypes
  import opened DeskExecution
  import opened DeskBar
  import opened DeskStructure
  import opened DeskSafety
  import opened DeskSignal
  import opened DeskEntry
  import opened DeskSteps
  import opened DeskPass
  import opened DeskOpening
  import opened DeskAdapter
  import opened DeskHearing

  /** Between a bar's notifications and the strategy's orders. */
  ghost predicate Ready(d: Desk, m: Model) {
    Resting(d, m) && d.cancelledEntry == None
  }

  // --------------------------------------------------- dropping an entry

  /** No entry is alive, the position is what it was, and the desk rests. */
  ghost predicate EntryDropped(d: Desk, e: Desk, m: Model) {
    && Resting(e, m) && NoneLive(e, EntryRole)
    && e.book == d.book && e.signal == d.signal && Elder(d.orders, e.orders)
    && e.entry == (if IsAlive(d, d.entry) then None else d.entry)
  }

  lemma DropEntrySafe(d: Desk, m: Model)
    requires Ready(d, m)
    ensures EntryDropped(d, DropEntry(d), m)
  {
    if IsAlive(d, d.entry) {
      DropLiveEntry(d, m, d.entry.value);
    } else {
      forall x: nat | Alive(d.orders, x) ensures d.orders[x].role != EntryRole {
        assert Remembered(d, x);
      }
    }
  }

  lemma DropLiveEntry(d: Desk, m: Model, r: nat)
    requires Ready(d, m) && d.entry == Some(r) && Alive(d.orders, r)
    ensures EntryDropped(d, DropEntry(d), m)
  {
    var marked := d.(cancelledEntry := d.entry);
    var e := Cancel(marked, r);
    SameStructure(d, marked, {});
    CancelEffect(marked, {}, r);
    CancelSteps(marked, r);
    ThinnedIsDull(marked, e, d.orders[r].group);
    EntryCanceledRests(d, marked, e, m, r);
    CancelReports(marked, r);
  }

  lemma CancelReports(d: Desk, r: nat)
    requires Alive(d.orders, r) && Queued(d.pending, r)
    ensures Reported(Cancel(d, r).notices, r)
  {
    var t := Retire(Remove(d, r), r, Canceled);
    var n := Snapshot(r, d.orders[r], Canceled);
    CheckSteps(t, r);
    assert n in t.notices;
    assert n in Cancel(d, r).notices;
  }

  lemma EntryCanceledRests(d: Desk, marked: Desk, e: Desk, m: Model, r: nat)
    requires Ready(d, m) && d.entry == Some(r) && Alive(d.orders, r) && marked == d.(cancelledEntry := d.entry)
    requires Struct(e, {}) && Thinned(marked, e, d.orders[r].group) && !Alive(e.orders, r)
    requires None !in e.pending
    ensures NoneLive(e, EntryRole)
    ensures Reported(e.notices, r) ==> Resting(e.(entry := None), m)
  {
    RememberedAlone(e, {}, r, EntryRole);
    EntryForgotten(e);
    EntryCanceledCover(d, marked, e, m, r);
  }

  lemma EntryCanceledCover(d: Desk, marked: Desk, e: Desk, m: Model, r: nat)
    requires Ready(d, m) && d.entry == Some(r) && Alive(d.orders, r) && marked == d.(cancelledEntry := d.entry)
    requires Thinned(marked, e, d.orders[r].group)
    ensures Covered(e) && SignalRules(e) && EntryRules(e) && SettledNotices(e)
    ensures e.book.size == 0.0 ==> NoLegs(e)
  {
    if d.book.size != 0.0 {
      OwnGroup(d, {}, r);
    }
    ThinnedKeepsCover(marked, e, d.orders[r].group);
    ThinnedKeepsFlat(marked, e, d.orders[r].group, 0);
    ThinnedSettles(marked, e, d.orders[r].group);
  }

  lemma EntryForgotten(e: Desk)
    requires Struct(e, {}) && NoneLive(e, EntryRole)
    ensures Struct(e.(entry := None), {})
  {
    var z := e.(entry := None);
    forall x: nat | Alive(z.orders, x) ensures Remembered(z, x) {
      assert Remembered(e, x);
    }
  }

  // -------------------------------------------------------- new orders

  /** A submitted order, remembered under its role, in a desk that rests again. */
  lemma SubmitRests(d: Desk, m: Model, o: Order, e: Desk)
    requires Resting(d, m) && (o.role == Signal || o.role == EntryRole)
    requires o.role == Signal ==> e == Submit(d, o, None).(signal := Some(|d.orders|), exitKeys := e.exitKeys) && !o.buy
    requires o.role == EntryRole ==> e == Submit(d, o, None).(entry := Some(|d.orders|)) && d.cancelledEntry == None
                                     && o.setup.Some? && o.setup.value.long == o.buy
    requires NoneLive(d, o.role)
    ensures Struct(e, {}) && Covered(e) && SettledNotices(e) && CancelHeard(e, e.notices) && None !in e.pending
    ensures d.book.size == 0.0 ==> NoLegs(e)
  {
    SubmitQueue(d, {}, o, None);
    SubmitAlone(d, o);
    forall x: nat | Alive(e.orders, x) ensures Remembered(e, x) {
      assert x < |d.orders| ==> Alive(d.orders, x) && Remembered(d, x);
    }
    SubmitCover(d, o, e);
    SubmitNotices(d, m, e);
  }

  lemma SubmitCover(d: Desk, o: Order, e: Desk)
    requires GroupRange(d.orders) && Covered(d) && !Protective(o.role)
    requires e.orders == d.orders + [o.(group := |d.orders|, status := Accepted)]
    requires e.stop == d.stop && e.target == d.target && e.book == d.book
    requires forall g | g != |d.orders| :: Members(e, g) == Members(d, g)
    ensures Covered(e)
    ensures NoLegs(d) ==> NoLegs(e)
  {
    if d.book.size != 0.0 {
      var group := d.orders[d.stop.value].group;
      assert Members(e, group) == Members(d, group);
      forall x: nat | x < |e.orders| && e.orders[x].group == group ensures e.stop == Some(x) || e.target == Some(x) {
        assert x < |d.orders|;
      }
    }
    forall x: nat | Alive(e.orders, x) && Protective(e.orders[x].role) ensures Alive(d.orders, x) && d.orders[x].role == e.orders[x].role {
    }
  }

  lemma SubmitNotices(d: Desk, m: Model, e: Desk)
    requires SettledNotices(d) && CancelHeard(d, d.notices)
    requires |e.orders| == |d.orders| + 1 && d.orders == e.orders[..|d.orders|]
    requires e.notices == d.notices + [Snapshot(|d.orders|, e.orders[|d.orders|], Accepted)]
    requires e.cancelledEntry == d.cancelledEntry && (e.entry == d.entry || d.cancelledEntry == None)
    ensures SettledNotices(e) && CancelHeard(e, e.notices)
  {
    forall n | n in e.notices
      ensures n.ref < |e.orders| && e.orders[n.ref].role == n.role
      ensures n.status == Accepted || (DeadStatus(n.status) && !Alive(e.orders, n.ref))
    {
      assert n in d.notices ==> n.ref < |d.orders| && e.orders[n.ref] == d.orders[n.ref];
    }
    if e.cancelledEntry.Some? {
      var k :| k in d.notices && k.ref == d.cancelledEntry.value && DeadStatus(k.status);
      assert k in e.notices;
    }
  }

  /** A signal close is accepted only for the long position it names, once, and no entry survives it. */
  lemma AcceptExitSafe(d: Desk, m: Model, bar: Bar, decision: Decision)
    requires Ready(d, m)
    ensures var e := AcceptExit(d, bar, decision);
            && Resting(e, m) && e.book == d.book && Elder(d.orders, e.orders)
            && (d.book.size == 0.0 ==> e == d)
            && (e == d <==> !ExitAccepted(d, decision)) && !ExitAccepted(e, decision)
  {
    if ExitAccepted(d, decision) {
      var t := DropEntry(d);
      DropEntrySafe(d, m);
      forall x: nat | Alive(t.orders, x) ensures t.orders[x].role != Signal {
        assert Remembered(t, x);
      }
      SignalSubmitted(t, m, bar, decision.decidedAt, d.exitKeys + {(d.book.trade, decision.exitKey)});
      ElderTrans(d.orders, t.orders, AcceptExit(d, bar, decision).orders);
    }
  }

  lemma SignalSubmitted(t: Desk, m: Model, bar: Bar, decidedAt: int, keys: set<(nat, nat)>)
    requires Resting(t, m) && t.book.size > 0.0 && NoneLive(t, EntryRole) && NoneLive(t, Signal)
    ensures var e := Submit(t, SignalOrder(t, bar, decidedAt), None).(signal := Some(|t.orders|), exitKeys := keys);
            Resting(e, m) && Elder(t.orders, e.orders)
  {
    var o := SignalOrder(t, bar, decidedAt);
    var e := Submit(t, o, None).(signal := Some(|t.orders|), exitKeys := keys);
    SubmitRests(t, m, o, e);
    SubmitRoles(t, o, e);
  }

  /** Rules about live orders after one more, which is no leg. */
  lemma SubmitRoles(t: Desk, o: Order, e: Desk)
    requires e.orders == t.orders + [o.(group := |t.orders|, status := Accepted)] && e.book == t.book
    requires SignalRules(t) && EntryRules(t)
    requires o.role == Signal ==> t.book.size > 0.0 && o.positionId == t.book.trade && NoneLive(t, EntryRole)
    requires o.role == EntryRole ==> t.book.size == 0.0
    requires o.role == Signal || o.role == EntryRole
    ensures SignalRules(e) && EntryRules(e)
    ensures Elder(t.orders, e.orders)
  {
    forall x: nat | Alive(e.orders, x)
      ensures x == |t.orders| || (Alive(t.orders, x) && e.orders[x] == t.orders[x])
    {
    }
  }

  /** A new entry is only placed on a flat account, beside nothing. */
  lemma PlaceEntrySafe(d: Desk, m: Model, bar: Bar, s: Setup, size: real, decidedAt: int)
    requires Ready(d, m) && d.book.size == 0.0 && !IsAlive(d, d.entry)
    ensures var e := PlaceEntry(d, m, bar, s, size, decidedAt);
            Resting(e, m) && Elder(d.orders, e.orders)
  {
    if MayEnter(d, m, bar, s, size) {
      var o := EntryOrder(s, size, bar, decidedAt);
      var e := PlaceEntry(d, m, bar, s, size, decidedAt);
      forall x: nat | Alive(d.orders, x) ensures d.orders[x].role != EntryRole {
        assert Remembered(d, x);
      }
      SubmitRests(d, m, o, e);
      SubmitRoles(d, o, e);
    }
  }

  // ---------------------------------------------------- protection update

  /** Rewriting the setup of a waiting entry changes no rule. */
  lemma RewriteRests(d: Desk, m: Model, stop: real, target: Option<real>)
    requires Resting(d, m)
    ensures var e := RewriteEntry(d, stop, target);
            && Resting(e, m) && Elder(d.orders, e.orders)
            && e == d.(orders := e.orders) && |e.orders| == |d.orders|
            && (forall i | 0 <= i < |d.orders| && d.orders[i].role != EntryRole :: e.orders[i] == d.orders[i])
  {
    var e := RewriteEntry(d, stop, target);
    RewriteShape(d, stop, target);
    RewriteStruct(d, e);
    RewriteRules(d, e);
  }

  /** Only the setup of the remembered entry differs. */
  ghost predicate SetupAside(d: Desk, e: Desk) {
    && e == d.(orders := e.orders) && |e.orders| == |d.orders|
    && forall i | 0 <= i < |d.orders| ::
         && e.orders[i] == d.orders[i].(setup := e.orders[i].setup)
         && (d.orders[i].role != EntryRole ==> e.orders[i] == d.orders[i])
         && (d.orders[i].setup.Some? ==> e.orders[i].setup.Some? && e.orders[i].setup.value.long == d.orders[i].setup.value.long)
  }

  lemma RewriteShape(d: Desk, stop: real, target: Option<real>)
    requires HasRole(d.orders, d.entry, EntryRole)
    ensures SetupAside(d, RewriteEntry(d, stop, target))
  {
  }

  lemma RewriteStruct(d: Desk, e: Desk)
    requires Struct(d, {}) && SetupAside(d, e)
    ensures Struct(e, {})
  {
    SameLivenessKeepsQueue(d, e, {});
    forall x: nat | Alive(e.orders, x) ensures Remembered(e, x) {
      assert Remembered(d, x);
    }
    forall i, j | 0 <= i < |e.orders| && 0 <= j < |e.orders| && i != j && e.orders[i].group == e.orders[j].group
      ensures Pair(e.orders[i], e.orders[j])
    {
      GroupMates(d.orders, i, j);
    }
  }

  lemma RewriteRules(d: Desk, e: Desk)
    requires SetupAside(d, e) && RoleInv(d)
    ensures SignalRules(d) ==> SignalRules(e)
    ensures EntryRules(d) ==> EntryRules(e)
    ensures SettledNotices(d) ==> SettledNotices(e)
    ensures Covered(d) ==> Covered(e)
    ensures NoLegs(d) ==> NoLegs(e)
    ensures Elder(d.orders, e.orders)
  {
    assert forall x: nat | Alive(e.orders, x) :: Alive(d.orders, x) && e.orders[x].role == d.orders[x].role;
    if Covered(d) {
      RewriteCover(d, e);
    }
  }

  lemma RewriteCover(d: Desk, e: Desk)
    requires SetupAside(d, e) && RoleInv(d) && Covered(d)
    ensures Covered(e)
  {
    if d.book.size != 0.0 {
      var group := d.orders[d.stop.value].group;
      assert Members(e, group) == Members(d, group);
      forall x: nat | x < |e.orders| && e.orders[x].group == group ensures e.stop == Some(x) || e.target == Some(x) {
        assert d.orders[x].group == group;
      }
    }
  }

  /** Canceling the leader of the bracket cancels both legs. */
  lemma BracketCanceled(d: Desk, m: Model)
    requires Resting(d, m) && d.book.size != 0.0
    ensures var e := Cancel(d, d.stop.value);
            && Struct(e, {}) && NoLegs(e) && SettledNotices(e) && None !in e.pending && SameDesk(d, e)
            && Duller(d.orders, e.orders) && d.notices <= e.notices
  {
    var r := d.stop.value;
    CancelEffect(d, {}, r);
    CancelSteps(d, r);
    var e := Cancel(d, r);
    ThinnedIsDull(d, e, d.orders[r].group);
    ThinnedSettles(d, e, d.orders[r].group);
    forall x: nat | Alive(e.orders, x) ensures !Protective(e.orders[x].role) {
      assert Remembered(e, x);
    }
  }

  /** A bracket placed in a desk that rests but for its missing legs. */
  lemma ReplacedRests(d: Desk, t: Desk, e: Desk, m: Model)
    requires Resting(d, m) && d.book.size != 0.0
    requires SettledNotices(t) && None !in t.pending && SameDesk(d, t) && Duller(d.orders, t.orders) && d.notices <= t.notices
    requires Placed(t, e, {}) && None !in e.pending
    ensures Resting(e, m) && Elder(d.orders, e.orders)
  {
    PlacedIsElder(d, t, e, {});
    PlacedSettles(t, e);
    ReplacedRules(d, t, e);
    StillCancelHeard(d, e);
  }

  /** Notifications only added, a canceled entry is still to be heard. */
  lemma StillCancelHeard(d: Desk, e: Desk)
    requires CancelHeard(d, d.notices) && d.notices <= e.notices
    requires e.entry == d.entry && e.cancelledEntry == d.cancelledEntry
    ensures CancelHeard(e, e.notices)
  {
    if d.cancelledEntry.Some? {
      var n :| n in d.notices && n.ref == d.cancelledEntry.value && DeadStatus(n.status);
      assert n in e.notices;
    }
  }

  lemma PlacedSettles(t: Desk, e: Desk)
    requires SettledNotices(t) && Placed(t, e, {})
    ensures SettledNotices(e)
  {
    forall n | n in e.notices
      ensures n.ref < |e.orders| && e.orders[n.ref].role == n.role
      ensures n.status == Accepted || (DeadStatus(n.status) && !Alive(e.orders, n.ref))
    {
      if n in t.notices {
        assert e.orders[n.ref] == t.orders[n.ref];
      } else {
        assert e.notices == t.notices + e.notices[|t.notices|..];
        assert n in e.notices[|t.notices|..];
      }
    }
  }

  lemma ReplacedRules(d: Desk, t: Desk, e: Desk)
    requires Duller(d.orders, t.orders) && SameDesk(d, t) && Placed(t, e, {})
    requires SignalRules(d) && EntryRules(d)
    ensures SignalRules(e) && EntryRules(e)
  {
    forall x: nat | Alive(e.orders, x)
      ensures Protective(e.orders[x].role) || (Alive(d.orders, x) && SameIdentity(d.orders[x], e.orders[x]))
    {
      assert x < |t.orders| ==> e.orders[x] == t.orders[x];
    }
    OnlyLegsKeepRules(d, e);
  }

  lemma OnlyLegsKeepRules(d: Desk, e: Desk)
    requires OnlyLegsAdded(d, e) && e.book == d.book && SignalRules(d) && EntryRules(d)
    ensures SignalRules(e) && EntryRules(e)
  {
  }

  lemma PlaceBracketSteps(d: Desk, long: bool, stop: real, target: Option<real>, timestamp: int)
    ensures None in PlaceBracket(d, long, stop, target, timestamp).pending <==> None in d.pending
  {
  }

  /** Replacing the bracket leaves the position covered by a fresh one. */
  lemma UpdateExitsSafe(d: Desk, m: Model, bar: Bar, decision: Decision)
    requires Resting(d, m) && d.book.size != 0.0
    ensures Resting(UpdateExits(d, bar, decision), m) && Elder(d.orders, UpdateExits(d, bar, decision).orders)
  {
    ReplaceSafe(d, m, NextStop(d, decision), NextTarget(d, decision), bar.timestamp);
  }

  lemma ReplaceSafe(d: Desk, m: Model, stop: real, target: Option<real>, timestamp: int)
    requires Resting(d, m) && d.book.size != 0.0
    ensures Resting(Replace(d, stop, target, timestamp), m) && Elder(d.orders, Replace(d, stop, target, timestamp).orders)
  {
    var w := RewriteEntry(d, stop, target);
    RewriteRests(d, m, stop, target);
    var t := Cancel(w, d.stop.value);
    BracketCanceled(w, m);
    BracketPlaced(t, {}, d.book.size > 0.0, stop, target, timestamp);
    var e := PlaceBracket(t, d.book.size > 0.0, stop, target, timestamp);
    PlaceBracketSteps(t, d.book.size > 0.0, stop, target, timestamp);
    ReplacedRests(w, t, e, m);
    ElderTrans(d.orders, w.orders, e.orders);
  }

  // ------------------------------------------------------------- whole run

  lemma StrategySafe(d: Desk, m: Model, bar: Bar, decision: Decision)
    requires Ready(d, m)
    ensures Resting(Strategy(d, m, bar, decision), m) && Elder(d.orders, Strategy(d, m, bar, decision).orders)
  {
    var t := AcceptExit(d, bar, decision);
    AcceptExitSafe(d, m, bar, decision);
    if t.book.size != 0.0 {
      UpdateExitsSafe(t, m, bar, decision);
      ElderTrans(d.orders, t.orders, UpdateExits(t, bar, decision).orders);
    } else if IsAlive(d, d.entry) {
      DropEntrySafe(d, m);
    } else if decision.enter.Some? {
      PlaceEntrySafe(d, m, bar, decision.enter.value.0, decision.enter.value.1, decision.decidedAt);
    }
  }

  /** One bar with its notifications and the strategy's turn. */
  lemma StepSafe(d: Desk, m: Model, input: Input)
    requires Resting(d, m)
    ensures Resting(Step(d, m, input), m) && Elder(d.orders, Step(d, m, input).orders)
  {
    var b := BrokerBar(d, m, input.bar, input.due, input.mark);
    RestingSafe(d, m, input.bar.timestamp);
    BrokerBarSafe(d, m, input.bar, input.due, input.mark);
    StillToBeHeard(d, b);
    DeliverSafe(b, m, input.bar.timestamp);
    StrategySafe(Deliver(b), m, input.bar, input.decision);
    ElderTrans(d.orders, b.orders, Deliver(b).orders);
    ElderTrans(d.orders, Deliver(b).orders, Step(d, m, input).orders);
  }

  lemma StillToBeHeard(d: Desk, b: Desk)
    requires CancelHeard(d, d.notices) && Keeps(d, b)
    ensures CancelHeard(b, b.notices)
  {
    if b.cancelledEntry.Some? {
      var n :| n in d.notices && n.ref == d.cancelledEntry.value && DeadStatus(n.status);
      assert n in b.notices;
    }
  }

  lemma {:induction false} RunSafe(d: Desk, m: Model, inputs: seq<Input>)
    requires Resting(d, m)
    ensures Resting(Played(d, m, inputs), m) && Elder(d.orders, Played(d, m, inputs).orders)
    decreases |inputs|
  {
    if inputs != [] {
      var e := Step(d, m, inputs[0]);
      StepSafe(d, m, inputs[0]);
      RunSafe(e, m, inputs[1..]);
      ElderTrans(d.orders, e.orders, Played(e, m, inputs[1..]).orders);
    }
  }

  lemma FreshRests(m: Model, initial: real, leverage: real)
    requires leverage > 0.0 && (m.step.Some? ==> m.step.value > 0.0)
    ensures Resting(Fresh(initial, leverage), m)
  {
    OpenedSound(initial, leverage);
    if m.step.Some? {
      GridZero(m.step.value);
    }
  }

  // ----------------------------------------------------------- main results

  /** `r` is the one live order of its role. */
  ghost predicate OnlyLive(d: Desk, r: nat) {
    Alive(d.orders, r) && forall x: nat | Alive(d.orders, x) && d.orders[x].role == d.orders[r].role :: x == r
  }

  /**
   An open position has exactly one live stop, on its closing side and sized
   to it, and at most one live target of the same size; a flat account has no
   live stop, target or signal close.
   */
  ghost predicate NeverNaked(d: Desk) {
    if d.book.size == 0.0 then NoLegs(d) && NoneLive(d, Signal)
    else
      && d.stop.Some? && OnlyLive(d, d.stop.value) && d.orders[d.stop.value].role == StopLoss
      && SizedLeg(d, d.stop, StopOrder)
      && (forall x: nat | Alive(d.orders, x) && d.orders[x].role == TakeProfit ::
            OnlyLive(d, x) && SizedLeg(d, Some(x), LimitOrder))
  }

  lemma RestingIsNeverNaked(d: Desk, m: Model)
    requires Resting(d, m)
    ensures NeverNaked(d)
  {
    if d.book.size != 0.0 {
      forall x: nat | Alive(d.orders, x) && Protective(d.orders[x].role)
        ensures d.orders[x].role == StopLoss ==> d.stop == Some(x)
        ensures d.orders[x].role == TakeProfit ==> d.target == Some(x)
      {
        assert Remembered(d, x);
      }
    }
  }

  /**
   Never naked, over every run: any bars, volumes, funding, liquidations and
   decisions, under any costs, fees, lot step and volume proxy.
   */
  lemma EveryRunNeverNaked(m: Model, initial: real, leverage: real, inputs: seq<Input>)
    requires leverage > 0.0 && (m.step.Some? ==> m.step.value > 0.0)
    ensures NeverNaked(Played(Fresh(initial, leverage), m, inputs))
  {
    FreshRests(m, initial, leverage);
    RunSafe(Fresh(initial, leverage), m, inputs);
    RestingIsNeverNaked(Played(Fresh(initial, leverage), m, inputs), m);
  }

  /** The books agree with themselves, with the audit and with the ledger, at any mark. */
  ghost predicate Balanced(b: Book, close: real) {
    && Sound(b) && EntriesFirst(b.fills)
    && !AuditRaises(b, close)
    && Equity(b, close) == b.balance + Value(b.size, close - b.price)
  }

  lemma SoundIsBalanced(b: Book, close: real)
    requires Sound(b)
    ensures Balanced(b, close)
  {
    CostIdentity(b, close);
    TradeIdentity(b, close);
    EquityIsLedgerPlusOpenProfit(b, close);
  }

  /**
   The books of every run are sound, so its audit never raises, at whatever
   price the run is marked; and within each trade every entry fill came first.
   */
  lemma EveryRunBalances(m: Model, initial: real, leverage: real, inputs: seq<Input>, close: real)
    requires leverage > 0.0 && (m.step.Some? ==> m.step.value > 0.0)
    ensures Balanced(Played(Fresh(initial, leverage), m, inputs).book, close)
  {
    FreshRests(m, initial, leverage);
    RunSafe(Fresh(initial, leverage), m, inputs);
    SoundIsBalanced(Played(Fresh(initial, leverage), m, inputs).book, close);
  }

  /** `x` completed, and `y`, of the same group, neither did nor ever can. */
  predicate WonAlone(orders: seq<Order>, x: nat, y: nat) {
    && x < |orders| && y < |orders|
    && orders[x].status == Completed && orders[y].status != Completed && !Live(orders[y])
  }

  /**
   Over any run at most one member of an OCO group ever completes: once `x`
   has, no other member is alive after the notifications of that bar, and none
   has completed by the end of any continuation.
   */
  lemma OneWinnerPerGroup(d: Desk, m: Model, inputs: seq<Input>, x: nat, y: nat)
    requires Resting(d, m) && x < |d.orders| && d.orders[x].status == Completed
    requires x != y && y < |d.orders| && d.orders[y].group == d.orders[x].group
    ensures WonAlone(d.orders, x, y)
    ensures WonAlone(Played(d, m, inputs).orders, x, y)
  {
    GroupMates(d.orders, x, y);
    SiblingIsDead(d, m, x, y);
    RunSafe(d, m, inputs);
  }

  lemma SiblingIsDead(d: Desk, m: Model, x: nat, y: nat)
    requires Resting(d, m) && x < |d.orders| && d.orders[x].status == Completed
    requires x != y && y < |d.orders| && d.orders[y].group == d.orders[x].group && Protective(d.orders[y].role)
    ensures !Alive(d.orders, y)
  {
    assert d.book.size != 0.0 ==> d.orders[x].group != d.orders[d.stop.value].group;
    assert Alive(d.orders, y) ==> Remembered(d, y);
  }

  // ----------------------------------------------------------- end of data

  lemma EndClears(d: Desk, m: Model, timestamp: int)
    requires Resting(d, m)
    ensures var c := CancelAlive(CancelAlive(CancelAlive(CancelAlive(d, d.entry), d.stop), d.target), d.signal);
            && Cleared(c, m, timestamp) && SameDesk(d, c) && Duller(d.orders, c.orders) && Keeps(d, c) && None !in c.pending
  {
    RestingSafe(d, m, timestamp);
    var a := CancelAlive(d, d.entry);
    var b := CancelAlive(a, d.stop);
    var c := CancelAlive(b, d.target);
    var e := CancelAlive(c, d.signal);
    EndCancels(d, d.entry, timestamp);
    EndCancels(a, d.stop, timestamp);
    EndCancels(b, d.target, timestamp);
    EndCancels(c, d.signal, timestamp);
    EndChain(d, a, b, c, e, timestamp);
  }

  lemma EndChain(d: Desk, a: Desk, b: Desk, c: Desk, e: Desk, timestamp: int)
    requires Struct(d, {}) && SignalRules(d) && None !in d.pending
    requires EndStep(d, a, d.entry, timestamp) && EndStep(a, b, d.stop, timestamp)
    requires EndStep(b, c, d.target, timestamp) && EndStep(c, e, d.signal, timestamp)
    ensures AllDead(e) && Struct(e, {}) && NoticeRules(e, timestamp) && SameDesk(d, e) && Duller(d.orders, e.orders)
    ensures Keeps(d, e) && None !in e.pending
  {
    EndAllDead(d, a, b, c, e);
  }

  /** Canceling one remembered order at the end. */
  ghost predicate EndStep(d: Desk, e: Desk, r: Option<nat>, timestamp: int) {
    && Struct(e, {}) && NoticeRules(e, timestamp) && SameDesk(d, e) && Duller(d.orders, e.orders)
    && Keeps(d, e) && (None in e.pending <==> None in d.pending) && !IsAlive(e, r)
  }

  lemma EndCancels(d: Desk, r: Option<nat>, timestamp: int)
    requires Struct(d, {}) && NoticeRules(d, timestamp)
    ensures EndStep(d, CancelAlive(d, r), r, timestamp)
  {
    CancelAliveSteps(d, r);
    if IsAlive(d, r) {
      CancelOne(d, r.value, timestamp);
    }
  }

  lemma EndAllDead(d: Desk, a: Desk, b: Desk, c: Desk, e: Desk)
    requires Struct(d, {}) && SignalRules(d)
    requires Duller(d.orders, a.orders) && Duller(a.orders, b.orders) && Duller(b.orders, c.orders) && Duller(c.orders, e.orders)
    requires !IsAlive(a, d.entry) && !IsAlive(b, d.stop) && !IsAlive(c, d.target) && !IsAlive(e, d.signal)
    ensures AllDead(e) && Duller(d.orders, e.orders)
  {
    DullerTransitive(d.orders, a.orders, b.orders);
    DullerTransitive(d.orders, b.orders, c.orders);
    DullerTransitive(d.orders, c.orders, e.orders);
    DullerTransitive(a.orders, b.orders, e.orders);
    forall x: nat ensures !Alive(e.orders, x) {
      assert Alive(e.orders, x) ==> Alive(d.orders, x) && Remembered(d, x);
    }
  }

  /** What the end of the data leaves: a marked position keeps its bracket; otherwise nothing is left at all. */
  ghost predicate RunEnded(d: Desk, e: Desk, retain: bool) {
    && NeverNaked(e) && NoneLive(e, EntryRole) && Sound(e.book)
    && (if retain then e.book == d.book else e.book.size == 0.0 && AllDead(e))
  }

  lemma EndFlattens(d: Desk, m: Model, bar: Bar)
    requires Resting(d, m)
    ensures RunEnded(d, EndRun(d, m, bar, false), false)
  {
    ClosedOutIsFlat(d, CancelAlive(d, d.entry), m, bar);
    FlatEnds(d, ClosedOut(CancelAlive(d, d.entry), m, bar), m, bar.timestamp);
  }

  lemma ClosedOutIsFlat(d: Desk, a: Desk, m: Model, bar: Bar)
    requires Resting(d, m) && a == CancelAlive(d, d.entry)
    ensures var f := ClosedOut(a, m, bar);
            && Safe(f, m, bar.timestamp, {}) && AllDead(f) && f.book.size == 0.0
            && None !in f.pending && CancelHeard(f, f.notices)
  {
    EndClears(d, m, bar.timestamp);
    EndRefs(d, d.entry);
    EndRefs(a, a.stop);
    EndRefs(CancelAlive(a, a.stop), a.target);
    ClearedCloses(d, CancelAlive(CancelAlive(CancelAlive(a, a.stop), a.target), a.signal), m, bar);
  }

  lemma EndRefs(d: Desk, r: Option<nat>)
    ensures var e := CancelAlive(d, r);
            e.stop == d.stop && e.target == d.target && e.signal == d.signal && e.entry == d.entry
  {
  }

  /** A cleared desk, closed in full if it still holds a position. */
  lemma ClearedCloses(d: Desk, c: Desk, m: Model, bar: Bar)
    requires Resting(d, m) && Cleared(c, m, bar.timestamp) && Keeps(d, c) && None !in c.pending
    ensures var f := if c.book.size == 0.0 then c
                     else ExecuteExit(Forcing(c, EndOrder(c, bar.timestamp)), m, bar, |c.orders|, bar.close, 0.0);
            && Safe(f, m, bar.timestamp, {}) && AllDead(f) && f.book.size == 0.0
            && None !in f.pending && CancelHeard(f, f.notices)
  {
    StillToBeHeard(d, c);
    if c.book.size != 0.0 {
      ForcedClose(c, m, bar, EndOrder(c, bar.timestamp), bar.close, 0.0);
      ForcedSteps(c, m, bar, EndOrder(c, bar.timestamp), bar.close, 0.0);
      StillToBeHeard(c, ExecuteExit(Forcing(c, EndOrder(c, bar.timestamp)), m, bar, |c.orders|, bar.close, 0.0));
    } else {
      DeadIsSafe(c, m, bar.timestamp);
    }
  }

  lemma FlatEnds(d: Desk, f: Desk, m: Model, timestamp: int)
    requires Safe(f, m, timestamp, {}) && AllDead(f) && f.book.size == 0.0
    requires None !in f.pending && CancelHeard(f, f.notices)
    ensures RunEnded(d, Deliver(f), false)
  {
    DeliverSafe(f, m, timestamp);
    DeliverBooksNothing(f.(notices := []), f.notices);
    RestingIsNeverNaked(Deliver(f), m);
    forall x: nat ensures !Alive(Deliver(f).orders, x) {
      assert !Alive(f.orders, x);
    }
  }

  lemma EndRetains(d: Desk, m: Model, bar: Bar)
    requires Resting(d, m)
    ensures RunEnded(d, EndRun(d, m, bar, true), true)
  {
    RestingSafe(d, m, bar.timestamp);
    var a := CancelAlive(d, d.entry);
    CancelRole(d, d.entry, EntryRole, m, bar.timestamp, {});
    CancelAliveSteps(d, d.entry);
    StillToBeHeard(d, a);
    DeliverSafe(a, m, bar.timestamp);
    DeliverBooksNothing(a.(notices := []), a.notices);
    RestingIsNeverNaked(Deliver(a), m);
    forall x: nat | Alive(Deliver(a).orders, x) ensures Deliver(a).orders[x].role != EntryRole {
      assert Alive(a.orders, x);
    }
  }

  /** Every run ends with its position closed in full and nothing alive, or marked with its bracket in place. */
  lemma EveryRunEnds(m: Model, initial: real, leverage: real, inputs: seq<Input>, bar: Bar, retain: bool)
    requires leverage > 0.0 && (m.step.Some? ==> m.step.value > 0.0)
    ensures var d := Played(Fresh(initial, leverage), m, inputs);
            RunEnded(d, EndRun(d, m, bar, retain), retain)
  {
    FreshRests(m, initial, leverage);
    RunSafe(Fresh(initial, leverage), m, inputs);
    if retain {
      EndRetains(Played(Fresh(initial, leverage), m, inputs), m, bar);
    } else {
      EndFlattens(Played(Fresh(initial, leverage), m, inputs), m, bar);
    }
  }
}
