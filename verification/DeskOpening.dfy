/**
 The bar before the queue is walked: funding, liquidation, signal closes at the
 open, and the queue sorted for the walk.
 */
module DeskOpening {
  import opened Wrappers
  import opened Rounding
  import opened StableSort
  import opened TradeBook
  import opened ExecutionPricing
  import opened ExecutionBroker
  import opened OcoPriority
  import opened DeskTypes
  import opened DeskExecution
  import opened DeskBar
  import opened DeskStructure
  import opened DeskSafety
  import opened DeskSignal
  import opened DeskEntry
  import opened DeskSteps
  import opened DeskPass

  // -------------------------------------------------------------- funding

  lemma OpenDeskSafe(d: Desk, m: Model, bar: Bar, due: seq<FundingRecord>)
    requires Safe(d, m, bar.timestamp, {})
    ensures var e := OpenDesk(d, m, bar, due);
            Safe(e, m, bar.timestamp, {}) && e == d.(liquidity := e.liquidity, book := e.book) && e.book.size == d.book.size
  {
    var e := OpenDesk(d, m, bar, due);
    SettledSound(d.book, due);
    SameStructure(d, e, {});
    SameNotices(d, e.(book := d.book), bar.timestamp);
    BookAside(d, e, m, bar.timestamp);
  }

  lemma BookAside(d: Desk, e: Desk, m: Model, timestamp: int)
    requires Safe(d, m, timestamp, {}) && Struct(e, {}) && Sound(e.book)
    requires e == d.(liquidity := e.liquidity, book := e.book)
    requires e.book.size == d.book.size && e.book.trade == d.book.trade && e.book.fills == d.book.fills
    ensures Safe(e, m, timestamp, {})
  {
    forall n | n in e.notices ensures NoticeRule(e, timestamp, n) {
      assert NoticeRule(d, timestamp, n);
    }
  }

  // ------------------------------------------------------ forced closing

  ghost predicate AllDead(d: Desk) {
    forall r: nat :: !Alive(d.orders, r)
  }

  /** A desk with no live order, whatever its position. */
  ghost predicate Cleared(d: Desk, m: Model, timestamp: int) {
    && Struct(d, {}) && AllDead(d)
    && Sound(d.book) && LotRules(d, m) && NoticeRules(d, timestamp)
  }

  predicate Forced(role: Role) {
    role == Liquidation || role == EndOfData
  }

  /** The order a forced close submits: the whole position, on its closing side. */
  predicate ClosesAll(d: Desk, o: Order) {
    Forced(o.role) && o.buy == (d.book.size < 0.0) && o.remaining == Held(d)
  }

  lemma ForcingStruct(d: Desk, o: Order)
    requires Struct(d, {}) && Forced(o.role)
    ensures Struct(Forcing(d, o), {|d.orders|})
  {
    var s, r := Submit(d, o, None), |d.orders|;
    SubmitQueue(d, {}, o, None);
    SubmitAlone(d, o);
    assert Struct(s, {}) by {
      forall x: nat | Alive(s.orders, x) ensures Remembered(s, x) {
        assert x < r ==> Alive(d.orders, x) && Remembered(d, x);
      }
    }
    RemoveToHand(s, {}, r);
    assert {} + {r} == {r};
  }

  lemma ForcingNotices(d: Desk, m: Model, timestamp: int, o: Order)
    requires Cleared(d, m, timestamp) && Forced(o.role)
    ensures NoticeRules(Forcing(d, o), timestamp)
  {
    var t := Forcing(d, o);
    forall n | n in t.notices ensures NoticeRule(t, timestamp, n) {
      if n in d.notices {
        assert NoticeRule(d, timestamp, n);
      }
    }
  }

  lemma ForcedSize(d: Desk, m: Model, timestamp: int, o: Order)
    requires Cleared(d, m, timestamp) && ClosesAll(d, o) && d.book.size != 0.0
    ensures var t, r := Forcing(d, o), |d.orders|;
            Closes(t, r) && ExitRequest(t, r) == Held(t) == Held(d) && ExitSize(t, m, r) == Held(t) > 0.0
  {
    if m.step.Some? {
      HeldOnGrid(d, m);
      FloorStepOfGrid(Held(d), m.step.value);
    }
  }

  /** Flat after a forced close, with nothing left alive. */
  ghost predicate ForcedFlat(d: Desk, e: Desk, m: Model, timestamp: int) {
    && Safe(e, m, timestamp, {}) && AllDead(e)
    && e.book.size == 0.0 && e.exitBar == Some(timestamp)
    && Elder(d.orders, e.orders)
  }

  /** A forced order filled in full: its books are flat and nothing is alive any more. */
  lemma ForcedFills(d: Desk, t: Desk, e: Desk, b: Desk, m: Model, timestamp: int, r: nat)
    requires Struct(t, {r}) && LotRules(t, m) && NoticeRules(t, timestamp) && t.book.size != 0.0
    requires r == |d.orders| && |t.orders| == r + 1 && d.orders == t.orders[..r] && AllDead(d)
    requires Alive(t.orders, r) && Forced(t.orders[r].role)
    requires Booked(t, e, r, Held(t)) && ExitRequest(t, r) == Held(t)
    requires OnlyMarked(e, b) && b.exitBar == Some(timestamp)
    ensures Struct(b, {r}) && AllDead(b) && LotRules(b, m) && NoticeRules(b, timestamp) && Elder(d.orders, b.orders)
  {
    OwnSoleWinner(t, {r}, r);
    BookedKeepsStruct(t, e, {r}, r);
    SameStructure(e, b, {r});
    FlatOnGrid(b, m, t);
    ForcedDead(d, t, b, r);
    NoticesAfterFill(t, b, timestamp, Snapshot(r, b.orders[r], Completed));
  }

  lemma ForcedDead(d: Desk, t: Desk, b: Desk, r: nat)
    requires r == |d.orders| && |t.orders| == |b.orders| == r + 1 && d.orders == t.orders[..r] && AllDead(d)
    requires b.orders == t.orders[r := b.orders[r]] && b.orders[r].status == Completed
    ensures AllDead(b) && Elder(d.orders, b.orders)
  {
    forall x: nat ensures !Alive(b.orders, x) {
      assert !Alive(d.orders, x);
    }
    assert forall i | 0 <= i < r :: b.orders[i] == d.orders[i];
    forall i | 0 <= i < |d.orders|
      ensures Live(d.orders[i]) || b.orders[i].status == d.orders[i].status
    {
      assert b.orders[i] == d.orders[i];
    }
  }

  lemma DeadCancelsNothing(c: Desk, r: nat, role: Role)
    requires AllDead(c) && c.book.size == 0.0 && role != Signal
    ensures AfterExit(CancelAlive(c, c.entry), r, role) == c
  {
  }

  /** Nothing is left to cancel after a forced close. */
  lemma ForcedSettles(d: Desk, b: Desk, m: Model, timestamp: int, r: nat, role: Role)
    requires Struct(b, {r}) && AllDead(b) && LotRules(b, m) && NoticeRules(b, timestamp) && Sound(b.book)
    requires b.book.size == 0.0 && b.exitBar == Some(timestamp) && Elder(d.orders, b.orders) && b.entry == d.entry
    requires !Protective(b.orders[r].role) && role != Signal
    ensures ForcedFlat(d, AfterExit(CancelAlive(OcoCheck(b, r), d.entry), r, role), m, timestamp)
  {
    LonelyCheck(b, {r}, timestamp, r);
    var c := OcoCheck(b, r);
    DeadCancelsNothing(c, r, role);
    DropFromHand(c, {r}, r);
    assert {r} - {r} == {};
    DeadIsSafe(c, m, timestamp);
  }

  lemma ForcedClose(d: Desk, m: Model, bar: Bar, o: Order, reference: real, fee: real)
    requires Cleared(d, m, bar.timestamp) && ClosesAll(d, o) && d.book.size != 0.0
    ensures ForcedFlat(d, ExecuteExit(Forcing(d, o), m, bar, |d.orders|, reference, fee), m, bar.timestamp)
  {
    var t, r := Forcing(d, o), |d.orders|;
    ForcedSize(d, m, bar.timestamp, o);
    ExitBookedShape(t, m, bar, r, Held(t), reference, fee);
    ExitUnfolds(t, m, bar, r, reference, fee);
    ForcedBooked(d, m, bar, o, ExitBooked(t, m, bar, r, Held(t), reference, fee));
  }

  lemma ForcedBooked(d: Desk, m: Model, bar: Bar, o: Order, e: Desk)
    requires Cleared(d, m, bar.timestamp) && ClosesAll(d, o) && d.book.size != 0.0
    requires Booked(Forcing(d, o), e, |d.orders|, Held(d))
    ensures ForcedFlat(d, AfterExit(CancelAlive(OcoCheck(Marked(e, bar, o.role, Held(d)), |d.orders|), d.entry), |d.orders|, o.role),
                       m, bar.timestamp)
  {
    var t, r := Forcing(d, o), |d.orders|;
    var b := Marked(e, bar, o.role, Held(d));
    ForcingStruct(d, o);
    ForcingNotices(d, m, bar.timestamp, o);
    ForcedSize(d, m, bar.timestamp, o);
    ForcedFills(d, t, e, b, m, bar.timestamp, r);
    ForcedSettles(d, b, m, bar.timestamp, r, o.role);
  }

  /** With nothing alive and no position, there is nothing to be unsafe about. */
  lemma DeadIsSafe(c: Desk, m: Model, timestamp: int)
    requires Cleared(c, m, timestamp) && c.book.size == 0.0
    ensures Safe(c, m, timestamp, {})
  {
  }

  // ---------------------------------------------------------- liquidation

  /** Canceling a snapshot of the queue kills every order in it, and nothing else happens. */
  lemma {:induction false} CancelEachClears(d: Desk, refs: seq<Option<nat>>, timestamp: int)
    requires Struct(d, {}) && NoticeRules(d, timestamp)
    ensures var e := CancelEach(d, refs);
            && Struct(e, {}) && NoticeRules(e, timestamp) && SameDesk(d, e) && Duller(d.orders, e.orders)
            && (forall r: nat | Queued(refs, r) :: !Alive(e.orders, r))
    decreases |refs|
  {
    if refs != [] {
      var t := if refs[0].Some? then Cancel(d, refs[0].value) else d;
      if refs[0].Some? {
        CancelOne(d, refs[0].value, timestamp);
      }
      CancelEachClears(t, refs[1..], timestamp);
      var e := CancelEach(t, refs[1..]);
      DullerTransitive(d.orders, t.orders, e.orders);
      forall r: nat | Queued(refs, r) ensures !Alive(e.orders, r) {
        assert refs[0] == Some(r) || Queued(refs[1..], r);
      }
    }
  }

  lemma CancelOne(d: Desk, r: nat, timestamp: int)
    requires Struct(d, {}) && NoticeRules(d, timestamp)
    ensures var t := Cancel(d, r);
            && Struct(t, {}) && NoticeRules(t, timestamp) && SameDesk(d, t) && Duller(d.orders, t.orders)
            && !Alive(t.orders, r)
  {
    if Queued(d.pending, r) {
      CancelEffect(d, {}, r);
      ThinnedKeepsNotices(d, Cancel(d, r), d.orders[r].group, timestamp);
      ThinnedIsDull(d, Cancel(d, r), d.orders[r].group);
    }
  }

  lemma ClearedByCancel(d: Desk, m: Model, timestamp: int)
    requires Safe(d, m, timestamp, {})
    ensures var e := CancelEach(d, d.pending);
            Cleared(e, m, timestamp) && SameDesk(d, e) && Duller(d.orders, e.orders)
  {
    CancelEachClears(d, d.pending, timestamp);
    var e := CancelEach(d, d.pending);
    forall r: nat ensures !Alive(e.orders, r) {
      assert Alive(e.orders, r) ==> Alive(d.orders, r) && Queued(d.pending, r);
    }
  }

  /** An open position always has a queued order whose owner a liquidation can be submitted for. */
  lemma LiquidationHasOwner(d: Desk, m: Model, timestamp: int)
    requires Safe(d, m, timestamp, {}) && d.book.size != 0.0
    ensures HasOwner(d)
  {
    assert d.stop in d.pending;
  }

  /** Liquidation leaves a flat account with nothing alive; without one nothing changes. */
  lemma LiquidateSafe(d: Desk, m: Model, bar: Bar, mark: Option<Mark>)
    requires Safe(d, m, bar.timestamp, {})
    ensures var e := Liquidate(d, m, bar, mark);
            && Safe(e, m, bar.timestamp, {}) && Elder(d.orders, e.orders)
            && (if mark.Some? && d.book.size != 0.0 then ForcedFlat(d, e, m, bar.timestamp) else e == d)
  {
    if mark.Some? && d.book.size != 0.0 {
      LiquidationCloses(d, m, bar, mark.value);
    }
  }

  lemma LiquidationCloses(d: Desk, m: Model, bar: Bar, mark: Mark)
    requires Safe(d, m, bar.timestamp, {}) && d.book.size != 0.0
    ensures ForcedFlat(d, Liquidate(d, m, bar, Some(mark)), m, bar.timestamp)
  {
    ClearedByCancel(d, m, bar.timestamp);
    var c := CancelEach(d, d.pending);
    ClearedCloses(d, c, m, bar, LiquidationOrder(c, mark, bar.timestamp), mark.price, FeeAtMark(d, mark));
  }

  lemma ClearedCloses(d: Desk, c: Desk, m: Model, bar: Bar, o: Order, reference: real, fee: real)
    requires Cleared(c, m, bar.timestamp) && Duller(d.orders, c.orders) && ClosesAll(c, o) && c.book.size != 0.0
    ensures ForcedFlat(d, ExecuteExit(Forcing(c, o), m, bar, |c.orders|, reference, fee), m, bar.timestamp)
  {
    ForcedClose(c, m, bar, o, reference, fee);
    ForcedElder(d, c, ExecuteExit(Forcing(c, o), m, bar, |c.orders|, reference, fee), m, bar.timestamp);
  }

  lemma ForcedElder(d: Desk, c: Desk, e: Desk, m: Model, timestamp: int)
    requires Duller(d.orders, c.orders) && ForcedFlat(c, e, m, timestamp)
    ensures ForcedFlat(d, e, m, timestamp)
  {
    ElderTrans(d.orders, c.orders, e.orders);
  }

  lemma {:induction false} CancelEachSteps(d: Desk, refs: seq<Option<nat>>)
    ensures Steps(d, CancelEach(d, refs))
    decreases |refs|
  {
    if refs != [] {
      var t := if refs[0].Some? then Cancel(d, refs[0].value) else d;
      if refs[0].Some? {
        CancelSteps(d, refs[0].value);
      }
      CancelEachSteps(t, refs[1..]);
      StepsTrans(d, t, CancelEach(t, refs[1..]));
    }
  }

  lemma ForcingSteps(d: Desk, o: Order)
    requires Forced(o.role) && o.setup == None
    ensures Steps(d, Forcing(d, o))
  {
    SubmitSteps(d, o, None);
    RemoveSteps(Submit(d, o, None), |d.orders|);
    StepsTrans(d, Submit(d, o, None), Forcing(d, o));
  }

  lemma ForcedSteps(d: Desk, m: Model, bar: Bar, o: Order, reference: real, fee: real)
    requires Forced(o.role) && o.setup == None
    ensures Steps(d, ExecuteExit(Forcing(d, o), m, bar, |d.orders|, reference, fee))
  {
    ForcingSteps(d, o);
    ExecuteExitSteps(Forcing(d, o), m, bar, |d.orders|, reference, fee);
    StepsTrans(d, Forcing(d, o), ExecuteExit(Forcing(d, o), m, bar, |d.orders|, reference, fee));
  }

  lemma LiquidateSteps(d: Desk, m: Model, bar: Bar, mark: Option<Mark>)
    ensures Steps(d, Liquidate(d, m, bar, mark))
  {
    if mark.Some? && d.book.size != 0.0 {
      var c := CancelEach(d, d.pending);
      var o := LiquidationOrder(c, mark.value, bar.timestamp);
      CancelEachSteps(d, d.pending);
      ForcedSteps(c, m, bar, o, mark.value.price, FeeAtMark(d, mark.value));
      StepsTrans(d, c, Liquidate(d, m, bar, mark));
    }
  }

  // ----------------------------------------------- signal closes at open

  /** Offering the open to every queued signal close settles them all for the bar. */
  lemma {:induction false} SignalsAtOpenSafe(d: Desk, m: Model, bar: Bar, refs: seq<Option<nat>>)
    requires Safe(d, m, bar.timestamp, {})
    requires forall r: nat | Alive(d.orders, r) && d.orders[r].role == Signal ::
               Queued(refs, r) || SettledSignal(d, m, bar, d.orders[r])
    ensures var e := SignalsAtOpen(d, m, bar, refs);
            Safe(e, m, bar.timestamp, {}) && SignalsSettled(e, m, bar) && Elder(d.orders, e.orders) && Steps(d, e)
    decreases |refs|
  {
    if refs != [] {
      var r := refs[0];
      if r.Some? && Alive(d.orders, r.value) && d.orders[r.value].role == Signal {
        var t := MatchSignalOpen(d, m, bar, r.value);
        SignalAtOpenSafe(d, m, bar, r.value);
        MatchSignalOpenSteps(d, m, bar, r.value);
        SignalsAtOpenSafe(t, m, bar, refs[1..]);
        ElderTrans(d.orders, t.orders, SignalsAtOpen(t, m, bar, refs[1..]).orders);
        StepsTrans(d, t, SignalsAtOpen(t, m, bar, refs[1..]));
      } else {
        forall x: nat | Alive(d.orders, x) && d.orders[x].role == Signal && Queued(refs, x)
          ensures Queued(refs[1..], x)
        {
          assert refs == [refs[0]] + refs[1..];
        }
        SignalsAtOpenSafe(d, m, bar, refs[1..]);
      }
    }
  }

  // ------------------------------------------------------------- the queue

  lemma PermutedDistinct(p: seq<Option<nat>>, q: seq<Option<nat>>)
    requires multiset(p) == multiset(q) && Distinct(p)
    ensures Distinct(q) && forall x :: x in q <==> x in p
  {
    assert forall x :: x in q <==> x in multiset(q);
    assert forall x :: x in p <==> x in multiset(p);
    assert NoDup(p);
    NoDupByCount(p);
    NoDupByCount(q);
    assert NoDup(q);
  }

  lemma PreparedQueue(d: Desk, bar: Bar)
    requires Distinct(d.pending) && None !in d.pending
    ensures var p := Prepared(d, bar).pending;
            && Distinct(p) && None in p
            && (forall x :: x in p <==> x == None || x in d.pending)
  {
    var sorted := ByRole(d.orders, d.pending);
    var ranked := Prioritized(d.orders, sorted, bar);
    PrioritizedEffect(d.orders, sorted, bar, 0);
    PermutedDistinct(d.pending, ranked);
    AppendDistinct(ranked, None);
  }

  lemma PreparedSafe(d: Desk, m: Model, bar: Bar)
    requires Safe(d, m, bar.timestamp, {}) && None !in d.pending && SignalsSettled(d, m, bar)
    ensures var e := Prepared(d, bar);
            Safe(e, m, bar.timestamp, {}) && SignalsSettled(e, m, bar) && None in e.pending
  {
    PreparedQueue(d, bar);
    var e := Prepared(d, bar);
    var q := d.(pending := e.pending);
    ReorderedStruct(d, e);
    ReorderedStruct(d, q);
    SameButQueue(d, q, m, bar.timestamp);
    GroupsForgotten(q, e, m, bar.timestamp);
    StillSettles(d, q, m, bar);
    GroupsSettle(q, e, m, bar);
  }

  /** Reordering the queue, with or without the sentinel, keeps the structure. */
  lemma ReorderedStruct(d: Desk, e: Desk)
    requires Struct(d, {}) && Distinct(e.pending) && (forall x :: x in e.pending <==> x == None || x in d.pending)
    requires e == d.(pending := e.pending, done := e.done) && (e.done == d.done || e.done == {})
    ensures Struct(e, {})
  {
    assert forall x: nat :: Queued(e.pending, x) <==> Queued(d.pending, x);
    forall x: nat | Alive(e.orders, x) ensures Remembered(e, x) {
      assert Remembered(d, x);
    }
  }

  lemma GroupsForgotten(q: Desk, e: Desk, m: Model, timestamp: int)
    requires Safe(q, m, timestamp, {}) && Struct(e, {}) && e == q.(done := e.done)
    ensures Safe(e, m, timestamp, {})
  {
    SameNotices(q, e, timestamp);
  }

  lemma GroupsSettle(q: Desk, e: Desk, m: Model, bar: Bar)
    requires SignalsSettled(q, m, bar) && e == q.(done := e.done)
    ensures SignalsSettled(e, m, bar)
  {
    forall x: nat | Alive(e.orders, x) && e.orders[x].role == Signal ensures SettledSignal(e, m, bar, e.orders[x]) {
      assert SettledSignal(q, m, bar, q.orders[x]);
    }
  }
}
