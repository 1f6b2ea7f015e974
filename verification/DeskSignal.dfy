/**
 Signal closes: offered the open once a bar, before the queue is walked, after
 any gap through the bracket; what remains of the bracket follows the position.
 */
module DeskSignal {
  import opened Wrappers
  import opened Rounding
  import opened TradeBook
  import opened ExecutionPricing
  import opened StopRisk
  import opened DeskTypes
  import opened DeskExecution
  import opened DeskStructure
  import opened DeskSafety

  // ------------------------------------------------------- lonely groups

  lemma {:induction false} WithoutNone(pending: seq<Option<nat>>, refs: set<nat>)
    requires forall x: nat | x in refs :: !Queued(pending, x)
    ensures Without(pending, refs) == pending
  {
    if pending != [] {
      assert pending[0] in pending;
      forall x: nat | x in refs ensures !Queued(pending[1..], x) {
        assert Queued(pending[1..], x) ==> Queued(pending, x);
      }
      WithoutNone(pending[1..], refs);
    }
  }

  lemma {:induction false} BackwardNone(pending: seq<Option<nat>>, refs: set<nat>)
    requires forall x: nat | x in refs :: !Queued(pending, x)
    ensures Backward(pending, refs) == []
  {
    if pending != [] {
      var rest := pending[..|pending| - 1];
      assert pending == rest + [pending[|pending| - 1]];
      BackwardNone(rest, refs);
    }
  }

  /** The group of an order that is no leg holds nothing but the order itself. */
  lemma LonelyGroup(d: Desk, hand: set<nat>, r: nat)
    requires Struct(d, hand) && r < |d.orders| && !Protective(d.orders[r].role)
    ensures Members(d, d.orders[r].group) <= {r}
  {
    forall x | x in Members(d, d.orders[r].group) ensures x == r {
      if x != r {
        GroupMates(d.orders, x, r);
      }
    }
  }

  /** Completing the group of an order in hand that is no leg touches no other order. */
  lemma LonelyComplete(d: Desk, hand: set<nat>, r: nat)
    requires Struct(d, hand) && r in hand && !Protective(d.orders[r].role)
    ensures var group := d.orders[r].group;
            OcoComplete(d, r) == d.(groups := d.groups - {group}, done := d.done + {group})
  {
    LonelyGroup(d, hand, r);
    var members := Members(d, d.orders[r].group);
    WithoutNone(d.pending, members);
    assert QueuedAmong(d.pending, members) == {};
    assert Cancelled(d.orders, {}) == d.orders;
    BackwardNone(d.pending, members);
    assert d.notices + NoticesFor(d.orders, [], Canceled) == d.notices;
  }

  /** Whatever the status of an order in hand that is no leg, its OCO check touches no other order. */
  lemma LonelyCheck(d: Desk, hand: set<nat>, timestamp: int, r: nat)
    requires Struct(d, hand) && NoticeRules(d, timestamp) && r in hand && !Protective(d.orders[r].role)
    ensures var c := OcoCheck(d, r);
            && Struct(c, hand) && NoticeRules(c, timestamp)
            && c == d.(groups := c.groups, done := c.done)
            && (forall g | g != d.orders[r].group :: Members(c, g) == Members(d, g))
  {
    LonelyComplete(d, hand, r);
    CompleteStruct(d, hand, r);
    SameNotices(d, OcoCheck(d, r), timestamp);
  }

  // ------------------------------------------------------ a signal close

  /** A signal close is in hand, so the account is long and no entry waits. */
  lemma SignalMeansLong(d: Desk, m: Model, timestamp: int, hand: set<nat>, r: nat)
    requires Safe(d, m, timestamp, hand) && Alive(d.orders, r) && d.orders[r].role == Signal
    ensures d.book.size > 0.0 && NoneLive(d, EntryRole) && d.signal == Some(r) && !d.orders[r].buy
    ensures d.orders[r].positionId == d.book.trade
    ensures Closes(d, r)
  {
    assert Remembered(d, r);
  }

  /** The desk between a signal fill and what the broker then does to the bracket. */
  ghost predicate SignalFilled(d: Desk, c: Desk, m: Model, timestamp: int, r: nat, quantity: real)
    requires d.book.size != 0.0 && Bracketed(d)
  {
    && Struct(c, {r}) && LotRules(c, m) && NoticeRules(c, timestamp)
    && KeepsBracket(d, c) && Duller(d.orders, c.orders)
    && ReducedBy(d.book, c.book, quantity)
    && c.exitBar == Some(timestamp) && c.lastExitRole == Some(Signal)
    && c.entry == d.entry && c.signal == d.signal && c.cancelledEntry == d.cancelledEntry
    && c.protectionActive == d.protectionActive
    && r < |c.orders|
    && (c.book.size == 0.0 ==> !Alive(c.orders, r))
  }

  lemma SignalBooked(d: Desk, m: Model, bar: Bar, r: nat, reference: real)
    requires Safe(d, m, bar.timestamp, {r}) && Alive(d.orders, r) && d.orders[r].role == Signal
    requires ExitSize(d, m, r) > 0.0
    ensures Closes(d, r) && ExitSize(d, m, r) <= ExitRequest(d, r) <= Held(d)
    ensures Booked(d, ExitBooked(d, m, bar, r, ExitSize(d, m, r), reference, 0.0), r, ExitSize(d, m, r))
    ensures m.step.Some? ==> OnGrid(ExitSize(d, m, r), m.step.value)
  {
    SignalMeansLong(d, m, bar.timestamp, {r}, r);
    ExitQuantityBounds(d, m, r);
    ExitBookedShape(d, m, bar, r, ExitSize(d, m, r), reference, 0.0);
  }

  lemma OwnSoleWinner(d: Desk, hand: set<nat>, r: nat)
    requires Struct(d, hand) && r < |d.orders| && !Protective(d.orders[r].role)
    ensures SoleWinner(d.orders, r)
  {
    forall x | 0 <= x < |d.orders| && x != r ensures d.orders[x].group != d.orders[r].group {
      GroupMates(d.orders, x, r);
    }
  }

  lemma SignalFills(d: Desk, e: Desk, m: Model, bar: Bar, r: nat, quantity: real)
    requires Safe(d, m, bar.timestamp, {r}) && Alive(d.orders, r) && d.orders[r].role == Signal && d.book.size != 0.0
    requires Booked(d, e, r, quantity) && quantity <= ExitRequest(d, r) <= Held(d)
    requires m.step.Some? ==> OnGrid(quantity, m.step.value)
    ensures var c := OcoCheck(Marked(e, bar, Signal, quantity), r);
            SignalFilled(d, c, m, bar.timestamp, r, quantity) && CancelAlive(c, d.entry) == c
  {
    var b := Marked(e, bar, Signal, quantity);
    OwnSoleWinner(d, {r}, r);
    BookedKeepsStruct(d, e, {r}, r);
    SameStructure(e, b, {r});
    LotsAfterExit(d, b, m, quantity);
    NoticesAfterFill(d, b, bar.timestamp, Snapshot(r, e.orders[r], e.orders[r].status));
    SignalSettles(d, e, b, m, bar.timestamp, r, quantity);
  }

  /** A signal's own group is all its completion can touch. */
  lemma SignalSettles(d: Desk, e: Desk, b: Desk, m: Model, timestamp: int, r: nat, quantity: real)
    requires Safe(d, m, timestamp, {r}) && Alive(d.orders, r) && d.orders[r].role == Signal && d.book.size != 0.0
    requires Booked(d, e, r, quantity) && quantity <= ExitRequest(d, r) <= Held(d)
    requires OnlyMarked(e, b) && b.exitBar == Some(timestamp) && b.lastExitRole == Some(Signal)
    requires Struct(b, {r}) && LotRules(b, m) && NoticeRules(b, timestamp)
    ensures var c := OcoCheck(b, r);
            SignalFilled(d, c, m, timestamp, r, quantity) && CancelAlive(c, d.entry) == c
  {
    var c := OcoCheck(b, r);
    LonelyCheck(b, {r}, timestamp, r);
    OwnGroup(d, {r}, r);
    SignalKeepsBracket(d, e, c, r);
    EntryStaysDead(d, e, c, m, timestamp, r);
  }

  lemma SignalKeepsBracket(d: Desk, e: Desk, c: Desk, r: nat)
    requires Struct(d, {r}) && d.book.size != 0.0 && Bracketed(d) && OneOrder(d, e, r) && Alive(d.orders, r)
    requires !Protective(d.orders[r].role)
    requires c.orders == e.orders && c.stop == d.stop && c.target == d.target
    requires Members(c, d.orders[d.stop.value].group) == Members(d, d.orders[d.stop.value].group)
    ensures KeepsBracket(d, c) && Duller(d.orders, c.orders)
  {
  }

  lemma EntryStaysDead(d: Desk, e: Desk, c: Desk, m: Model, timestamp: int, r: nat)
    requires Safe(d, m, timestamp, {r}) && Alive(d.orders, r) && d.orders[r].role == Signal
    requires OneOrder(d, e, r) && c.orders == e.orders
    ensures CancelAlive(c, d.entry) == c
  {
    SignalMeansLong(d, m, timestamp, {r}, r);
  }

  /** A partial signal close: the bracket is resized to what is left. */
  lemma SignalShrinks(d: Desk, c: Desk, m: Model, timestamp: int, r: nat, quantity: real)
    requires Safe(d, m, timestamp, {r}) && d.book.size != 0.0 && SignalFilled(d, c, m, timestamp, r, quantity)
    requires c.book.size != 0.0 && NoneLive(d, EntryRole)
    ensures Safe(Resize(c), m, timestamp, {r}) && SameDesk(c, Resize(c))
  {
    ResizeCovers(d, c);
    ResizeKeepsStruct(c, {r});
    ResizeIsDull(c);
    SameNotices(c, Resize(c), timestamp);
    DullerTransitive(d.orders, c.orders, Resize(c).orders);
    DullerNoneLive(d, Resize(c));
    ShrunkSignals(d, Resize(c));
  }

  lemma ShrunkSignals(d: Desk, e: Desk)
    requires SignalRules(d) && NoneLive(d, EntryRole) && Duller(d.orders, e.orders)
    requires e.book.size != 0.0 && (e.book.size > 0.0 <==> d.book.size > 0.0) && e.book.trade == d.book.trade
    ensures SignalRules(e) && EntryRules(e)
  {
    DullerNoneLive(d, e);
    forall x: nat | Alive(e.orders, x) && e.orders[x].role == Signal
      ensures e.orders[x].positionId == e.book.trade
    {
      assert Alive(d.orders, x) && SameIdentity(d.orders[x], e.orders[x]);
    }
  }

  /** A signal close that leaves the account flat cancels the whole bracket. */
  lemma SignalFlattens(d: Desk, c: Desk, m: Model, timestamp: int, r: nat, quantity: real)
    requires Safe(d, m, timestamp, {r}) && d.book.size != 0.0 && SignalFilled(d, c, m, timestamp, r, quantity)
    requires c.book.size == 0.0 && NoneLive(d, EntryRole) && d.signal == Some(r)
    ensures var e := CancelAlive(CancelAlive(c, c.stop), c.target);
            && Safe(e, m, timestamp, {r}) && SameDesk(c, e) && NoLegs(e) && Duller(c.orders, e.orders)
  {
    CancelEffect(c, {r}, c.stop.value);
    var e := CancelAlive(c, c.stop);
    FlattenedRest(d, c, e, m, timestamp, r, quantity);
  }

  lemma FlattenedRest(d: Desk, c: Desk, e: Desk, m: Model, timestamp: int, r: nat, quantity: real)
    requires Safe(d, m, timestamp, {r}) && d.book.size != 0.0 && SignalFilled(d, c, m, timestamp, r, quantity)
    requires c.book.size == 0.0 && NoneLive(d, EntryRole) && d.signal == Some(r)
    requires Struct(e, {r}) && Thinned(c, e, c.orders[c.stop.value].group) && !Alive(e.orders, c.stop.value)
    requires forall x | x in Members(c, c.orders[c.stop.value].group) && Queued(c.pending, x) :: !Alive(e.orders, x)
    ensures CancelAlive(e, c.target) == e
    ensures Safe(e, m, timestamp, {r}) && SameDesk(c, e) && NoLegs(e) && Duller(c.orders, e.orders)
  {
    BracketIsGone(d, c, e, r);
    ThinnedIsDull(c, e, c.orders[c.stop.value].group);
    ThinnedKeepsNotices(c, e, c.orders[c.stop.value].group, timestamp);
    ThinnedKeepsFlat(c, e, c.orders[c.stop.value].group, timestamp);
    DullerNoneLive(d, c);
    RememberedAlone(c, {r}, r, Signal);
  }

  /** Canceling the stop canceled its queued sibling with it. */
  lemma BracketIsGone(d: Desk, c: Desk, e: Desk, r: nat)
    requires d.book.size != 0.0 && Bracketed(d) && KeepsBracket(d, c) && Struct(c, {r}) && Struct(e, {r})
    requires Thinned(c, e, c.orders[c.stop.value].group) && !Alive(e.orders, c.stop.value)
    requires d.orders[r].role == Signal && r < |d.orders|
    requires forall x | x in Members(c, c.orders[c.stop.value].group) && Queued(c.pending, x) :: !Alive(e.orders, x)
    ensures NoLegs(e) && CancelAlive(e, c.target) == e
  {
    assert c.target.Some? ==> !Alive(e.orders, c.target.value);
    forall x: nat | Alive(e.orders, x) ensures !Protective(e.orders[x].role) {
      assert Remembered(e, x);
    }
  }

  /** Executing a signal close keeps the desk safe and does not touch who it is. */
  lemma SignalExit(d: Desk, m: Model, bar: Bar, r: nat, reference: real)
    requires Safe(d, m, bar.timestamp, {r}) && Alive(d.orders, r) && d.orders[r].role == Signal
    ensures var e := ExecuteExit(d, m, bar, r, reference, 0.0);
            Safe(e, m, bar.timestamp, {r}) && Duller(d.orders, e.orders) && e.signal == d.signal
  {
    SignalMeansLong(d, m, bar.timestamp, {r}, r);
    if ExitSize(d, m, r) <= 0.0 {
      FiguresKeepSafe(d, m, bar.timestamp, {r}, r, d.orders[r].(remaining := ExitRequest(d, r)));
    } else {
      SignalBooked(d, m, bar, r, reference);
      ExitUnfolds(d, m, bar, r, reference, 0.0);
      SignalReacts(d, ExitBooked(d, m, bar, r, ExitSize(d, m, r), reference, 0.0), m, bar, r, ExitSize(d, m, r));
    }
  }

  lemma SignalReacts(d: Desk, e: Desk, m: Model, bar: Bar, r: nat, quantity: real)
    requires Safe(d, m, bar.timestamp, {r}) && Alive(d.orders, r) && d.orders[r].role == Signal && d.book.size != 0.0
    requires Booked(d, e, r, quantity) && quantity <= ExitRequest(d, r) <= Held(d)
    requires m.step.Some? ==> OnGrid(quantity, m.step.value)
    ensures var z := AfterExit(CancelAlive(OcoCheck(Marked(e, bar, Signal, quantity), r), d.entry), r, Signal);
            Safe(z, m, bar.timestamp, {r}) && Duller(d.orders, z.orders) && z.signal == d.signal
  {
    SignalMeansLong(d, m, bar.timestamp, {r}, r);
    SignalFills(d, e, m, bar, r, quantity);
    SignalTail(d, OcoCheck(Marked(e, bar, Signal, quantity), r), m, bar.timestamp, r, quantity);
  }

  lemma SignalTail(d: Desk, c: Desk, m: Model, timestamp: int, r: nat, quantity: real)
    requires Safe(d, m, timestamp, {r}) && d.book.size != 0.0 && SignalFilled(d, c, m, timestamp, r, quantity)
    requires NoneLive(d, EntryRole) && d.signal == Some(r)
    ensures var z := AfterExit(c, r, Signal);
            Safe(z, m, timestamp, {r}) && Duller(d.orders, z.orders) && z.signal == d.signal
  {
    if c.book.size != 0.0 {
      SignalShrinks(d, c, m, timestamp, r, quantity);
      ResizeIsDull(c);
      DullerTransitive(d.orders, c.orders, Resize(c).orders);
    } else {
      SignalFlattens(d, c, m, timestamp, r, quantity);
      DullerTransitive(d.orders, c.orders, CancelAlive(CancelAlive(c, c.stop), c.target).orders);
    }
  }

  /** Rewriting figures of an order other than a leg's remaining size leaves the desk safe. */
  lemma FiguresKeepSafe(d: Desk, m: Model, timestamp: int, hand: set<nat>, r: nat, o: Order)
    requires Safe(d, m, timestamp, hand) && Alive(d.orders, r) && !Protective(d.orders[r].role)
    requires SameIdentity(d.orders[r], o) && o.status == d.orders[r].status
    ensures Safe(Update(d, r, o), m, timestamp, hand) && Duller(d.orders, Update(d, r, o).orders)
  {
    var e := Update(d, r, o);
    FiguresKeepStruct(d, hand, r, o);
    SameNotices(d, e, timestamp);
    DullerNoneLive(d, e);
    if d.book.size != 0.0 {
      OwnGroup(d, hand, r);
      ShrunkSignalsOf(d, e);
    }
  }

  /** Rules about live orders survive when none is added and none changes identity. */
  lemma ShrunkSignalsOf(d: Desk, e: Desk)
    requires Duller(d.orders, e.orders) && e.book == d.book
    ensures SignalRules(d) ==> SignalRules(e)
    ensures EntryRules(d) ==> EntryRules(e)
  {
    DullerNoneLive(d, e);
    forall x: nat | Alive(e.orders, x) ensures Alive(d.orders, x) && SameIdentity(d.orders[x], e.orders[x]) {
    }
  }

  /** Noting on which bar a signal close was matched is safe as well. */
  lemma MarkingKeepsSafe(d: Desk, m: Model, timestamp: int, hand: set<nat>, r: nat)
    requires Safe(d, m, timestamp, hand) && Alive(d.orders, r) && d.orders[r].role == Signal
    ensures Safe(Update(d, r, d.orders[r].(matchedAt := Some(timestamp))), m, timestamp, hand)
  {
    var e := Update(d, r, d.orders[r].(matchedAt := Some(timestamp)));
    MarkingKeepsStruct(d, hand, r, timestamp);
    forall x: nat | Alive(e.orders, x) ensures Alive(d.orders, x) && e.orders[x].role == d.orders[x].role {
    }
    forall n | n in e.notices ensures NoticeRule(e, timestamp, n) {
      assert NoticeRule(d, timestamp, n);
    }
  }

  lemma MarkingKeepsStruct(d: Desk, hand: set<nat>, r: nat, timestamp: int)
    requires Struct(d, hand) && Alive(d.orders, r)
    ensures Struct(Update(d, r, d.orders[r].(matchedAt := Some(timestamp))), hand)
  {
    var e := Update(d, r, d.orders[r].(matchedAt := Some(timestamp)));
    SameLivenessKeepsQueue(d, e, hand);
    forall i, j | 0 <= i < |e.orders| && 0 <= j < |e.orders| && i != j && e.orders[i].group == e.orders[j].group
      ensures Pair(e.orders[i], e.orders[j])
    {
      GroupMates(d.orders, i, j);
    }
    forall x: nat | Alive(e.orders, x) ensures Remembered(e, x) {
      assert Remembered(d, x);
    }
  }

  lemma CloseAtOpenSafe(d: Desk, m: Model, bar: Bar, r: nat)
    requires Safe(d, m, bar.timestamp, {}) && Alive(d.orders, r) && d.orders[r].role == Signal
    ensures var e := CloseAtOpen(d, m, bar, r);
            && Safe(e, m, bar.timestamp, {}) && e.signal == d.signal && Elder(d.orders, e.orders)
            && r < |e.orders| && e.orders[r].matchedAt == Some(bar.timestamp)
  {
    var marked := Update(d, r, d.orders[r].(matchedAt := Some(bar.timestamp)));
    MarkingKeepsSafe(d, m, bar.timestamp, {}, r);
    MarkedCloses(marked, m, bar, r);
    MarkStays(d, marked.orders, ExecuteExit(Remove(marked, r), m, bar, r, bar.open, 0.0).orders, r, bar.timestamp);
  }

  /** The bar a signal close was matched on is not forgotten. */
  lemma MarkStays(d: Desk, marked: seq<Order>, orders: seq<Order>, r: nat, timestamp: int)
    requires Alive(d.orders, r) && marked == d.orders[r := d.orders[r].(matchedAt := Some(timestamp))]
    requires Duller(marked, orders)
    ensures Elder(d.orders, orders) && r < |orders| && orders[r].matchedAt == Some(timestamp)
  {
    assert SameIdentity(marked[r], orders[r]);
    ElderTrans(d.orders, marked, orders);
  }

  lemma MarkedCloses(marked: Desk, m: Model, bar: Bar, r: nat)
    requires Safe(marked, m, bar.timestamp, {}) && Alive(marked.orders, r) && marked.orders[r].role == Signal
    ensures var t := ExecuteExit(Remove(marked, r), m, bar, r, bar.open, 0.0);
            && Safe(if Alive(t.orders, r) then Append(t, r) else t, m, bar.timestamp, {})
            && Duller(marked.orders, t.orders) && t.signal == marked.signal
  {
    TakenFromQueue(marked, m, bar.timestamp, {}, r);
    assert {} + {r} == {r};
    SignalExit(Remove(marked, r), m, bar, r, bar.open);
    var t := ExecuteExit(Remove(marked, r), m, bar, r, bar.open, 0.0);
    ReturnedToQueue(t, m, bar.timestamp, {}, r);
  }

  // ------------------------------------------------- settled for the bar

  /** The open offers protection nothing more on this bar. */
  predicate GapSpent(d: Desk, m: Model, bar: Bar) {
    Selection(d, bar, true, None, true) == None || Dry(d, m)
  }

  /** A signal close has had its chance on this bar, or does not get one. */
  predicate SettledSignal(d: Desk, m: Model, bar: Bar, o: Order) {
    || o.matchedAt == Some(bar.timestamp)
    || bar.timestamp <= o.createdAt
    || (!SignalDue(m, o, bar.timestamp) && GapSpent(d, m, bar))
  }

  ghost predicate SignalsSettled(d: Desk, m: Model, bar: Bar) {
    forall r: nat | Alive(d.orders, r) && d.orders[r].role == Signal :: SettledSignal(d, m, bar, d.orders[r])
  }

  /** Only the remembered signal close can be live. */
  lemma SettledByOne(d: Desk, m: Model, bar: Bar, hand: set<nat>, r: nat)
    requires Struct(d, hand) && d.signal == Some(r)
    requires r < |d.orders| ==> SettledSignal(d, m, bar, d.orders[r])
    ensures SignalsSettled(d, m, bar)
  {
    forall x: nat | Alive(d.orders, x) && d.orders[x].role == Signal ensures x == r {
      assert Remembered(d, x);
    }
  }

  lemma StillIsSettled(d: Desk, e: Desk, m: Model, bar: Bar, o: Order)
    requires SameButOrder(d, e)
    ensures SettledSignal(e, m, bar, o) == SettledSignal(d, m, bar, o)
    ensures GapSpent(e, m, bar) == GapSpent(d, m, bar)
  {
  }

  /** Once a leg has exited, the open offers protection nothing. */
  lemma ExitedIsSpent(d: Desk, e: Desk, m: Model, bar: Bar)
    requires LegExited(d, e, bar)
    ensures GapSpent(e, m, bar)
  {
  }

  /**
   A live signal close at the open: its position is still the one it was
   decided for, a gap through the bracket comes first, and afterwards it is
   settled for the bar.
   */
  lemma SignalAtOpenSafe(d: Desk, m: Model, bar: Bar, r: nat)
    requires Safe(d, m, bar.timestamp, {}) && Alive(d.orders, r) && d.orders[r].role == Signal
    ensures var e := MatchSignalOpen(d, m, bar, r);
            Safe(e, m, bar.timestamp, {}) && SignalsSettled(e, m, bar) && Elder(d.orders, e.orders)
  {
    SignalMeansLong(d, m, bar.timestamp, {}, r);
    if d.orders[r].matchedAt == Some(bar.timestamp) || bar.timestamp <= d.orders[r].createdAt {
      SettledByOne(d, m, bar, {}, r);
    } else {
      MatchProtectionSafe(d, m, bar, {}, true, None, true);
      var t := MatchProtection(d, m, bar, true, None, true);
      SignalAfterGap(d, t, m, bar, r);
    }
  }

  lemma SignalAfterGap(d: Desk, t: Desk, m: Model, bar: Bar, r: nat)
    requires Safe(d, m, bar.timestamp, {}) && Alive(d.orders, r) && d.orders[r].role == Signal && d.signal == Some(r)
    requires Safe(t, m, bar.timestamp, {})
    requires Still(d, t, m, Selection(d, bar, true, None, true)) || LegExited(d, t, bar)
    ensures var e := if t.book.size == 0.0 || !Alive(t.orders, r) || !SignalDue(m, d.orders[r], bar.timestamp) then t
                     else CloseAtOpen(t, m, bar, r);
            Safe(e, m, bar.timestamp, {}) && SignalsSettled(e, m, bar) && Elder(d.orders, e.orders)
  {
    if LegExited(d, t, bar) {
      ExitedIsSpent(d, t, m, bar);
    }
    if t.book.size != 0.0 && Alive(t.orders, r) && SignalDue(m, d.orders[r], bar.timestamp) {
      CloseAtOpenSafe(t, m, bar, r);
      ElderTrans(d.orders, t.orders, CloseAtOpen(t, m, bar, r).orders);
      SettledByOne(CloseAtOpen(t, m, bar, r), m, bar, {}, r);
    } else if Alive(t.orders, r) {
      SettledByOne(t, m, bar, {}, r);
    } else {
      RememberedAlone(t, {}, r, Signal);
    }
  }

  /**
   In the queue walk a settled signal close does nothing but, perhaps, requeue
   a leg: removing it from the queue it has already left cannot happen.
   */
  lemma SettledSignalRests(d: Desk, m: Model, bar: Bar, r: nat)
    requires Safe(d, m, bar.timestamp, {r}) && Alive(d.orders, r) && d.orders[r].role == Signal
    requires SignalsSettled(d, m, bar)
    ensures var e := MatchSignalOpen(d, m, bar, r);
            Safe(e, m, bar.timestamp, {r}) && SameButOrder(d, e) && SignalsSettled(e, m, bar)
  {
    SignalMeansLong(d, m, bar.timestamp, {r}, r);
    assert SettledSignal(d, m, bar, d.orders[r]);
    if d.orders[r].matchedAt != Some(bar.timestamp) && bar.timestamp > d.orders[r].createdAt {
      if Dry(d, m) {
        MatchProtectionSafe(d, m, bar, {r}, true, None, true);
      }
      StillIsSettled(d, MatchProtection(d, m, bar, true, None, true), m, bar, d.orders[r]);
    }
    SettledByOne(MatchSignalOpen(d, m, bar, r), m, bar, {r}, r);
  }
}
