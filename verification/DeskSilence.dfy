/**
 What fills nothing: cancellations, OCO checks, new orders, resized legs, and
 everything the adapter and the strategy do between two bars.
 */
module DeskSilence {
  import opened Wrappers
  import opened Rounding
  import opened TradeBook
  import opened ExecutionPricing
  import opened DeskTypes
  import opened DeskExecution
  import opened DeskBar
  import opened DeskHearing
  import opened DeskAdapter
  import opened DeskAccount

  // ------------------------------------------------------ queue operations

  lemma UpdateSilent(d: Desk, r: nat, o: Order)
    requires r < |d.orders| ==> SilentOrder(d.orders[r], o, Held(d))
    ensures Silent(d, Update(d, r, o))
  {
  }

  lemma RetireSilent(d: Desk, r: nat, status: Status)
    requires DeadStatus(status)
    ensures Silent(d, Retire(d, r, status))
  {
    if r < |d.orders| {
      var o := d.orders[r].(status := status);
      assert Retire(d, r, status).notices[|d.notices|..] == [Snapshot(r, o, status)];
    }
  }

  lemma QueueSilent(d: Desk, e: Desk)
    requires e == d.(pending := e.pending, groups := e.groups, done := e.done)
    ensures Silent(d, e)
  {
  }

  lemma CompleteSilent(d: Desk, r: nat)
    ensures Silent(d, OcoComplete(d, r))
  {
    if r < |d.orders| {
      var members := Members(d, d.orders[r].group);
      var news := NoticesFor(d.orders, Backward(d.pending, members), Canceled);
      assert OcoComplete(d, r).notices[|d.notices|..] == news;
    }
  }

  lemma ResizedSilent(orders: seq<Order>, r: Option<nat>, held: real)
    ensures SilentOrders(orders, Resized(orders, r, held), held)
  {
  }

  lemma ResizeSilent(d: Desk)
    ensures Silent(d, Resize(d))
  {
    var once := Resized(d.orders, d.stop, Held(d));
    ResizedSilent(d.orders, d.stop, Held(d));
    ResizedSilent(once, d.target, Held(d));
    SilentOrdersThen(d.orders, once, Resized(once, d.target, Held(d)), Held(d));
  }

  lemma CheckSilent(d: Desk, r: nat)
    ensures Silent(d, OcoCheck(d, r))
  {
    CompleteSilent(d, r);
    ResizeSilent(d);
  }

  lemma CancelSilent(d: Desk, r: nat)
    ensures Silent(d, Cancel(d, r))
  {
    if r < |d.orders| && Queued(d.pending, r) {
      var removed := Remove(d, r);
      var t := Retire(removed, r, Canceled);
      QueueSilent(d, removed);
      RetireSilent(removed, r, Canceled);
      SilentThen(d, removed, t);
      CheckSilent(t, r);
      SilentThen(d, t, OcoCheck(t, r));
    }
  }

  lemma CancelAliveSilent(d: Desk, r: Option<nat>)
    ensures Silent(d, CancelAlive(d, r))
  {
    if IsAlive(d, r) {
      CancelSilent(d, r.value);
    }
  }

  lemma {:induction false} CancelEachSilent(d: Desk, refs: seq<Option<nat>>)
    ensures Silent(d, CancelEach(d, refs))
    decreases |refs|
  {
    if refs != [] {
      var t := if refs[0].Some? then Cancel(d, refs[0].value) else d;
      if refs[0].Some? {
        CancelSilent(d, refs[0].value);
      }
      CancelEachSilent(t, refs[1..]);
      SilentThen(d, t, CancelEach(t, refs[1..]));
    }
  }

  lemma SubmitSilent(d: Desk, o: Order, leader: Option<nat>)
    requires UnfilledOrder(o, Held(d))
    ensures Silent(d, Submit(d, o, leader))
  {
    var e := Submit(d, o, leader);
    assert e.notices[|d.notices|..] == [Snapshot(|d.orders|, e.orders[|d.orders|], Accepted)];
  }

  lemma ForcingSilent(d: Desk, o: Order)
    requires UnfilledOrder(o, Held(d))
    ensures Silent(d, Forcing(d, o))
  {
    var s := Submit(d, o, None);
    SubmitSilent(d, o, None);
    QueueSilent(s, Forcing(d, o));
    SilentThen(d, s, Forcing(d, o));
  }

  // ------------------------------------------------------------ reactions

  /** What the adapter remembers, and what the bar has been marked with, fills nothing. */
  lemma MarksSilent(d: Desk, e: Desk)
    requires e == d.(stop := e.stop, target := e.target, entry := e.entry, cancelledEntry := e.cancelledEntry,
                     signal := e.signal, protectionActive := e.protectionActive, liquidity := e.liquidity,
                     exitKeys := e.exitKeys)
    ensures Silent(d, e)
  {
  }

  lemma BracketSilent(d: Desk, long: bool, stop: real, target: Option<real>, timestamp: int)
    ensures Silent(d, PlaceBracket(d, long, stop, target, timestamp))
  {
    var s := Submit(d, Leg(StopLoss, !long, StopOrder, stop, Held(d), timestamp), None);
    var stopped := s.(stop := Some(|d.orders|));
    SubmitSilent(d, Leg(StopLoss, !long, StopOrder, stop, Held(d), timestamp), None);
    MarksSilent(s, stopped);
    SilentThen(d, s, stopped);
    TargetSilent(d, stopped, long, target, timestamp);
  }

  lemma TargetSilent(d: Desk, stopped: Desk, long: bool, target: Option<real>, timestamp: int)
    requires Silent(d, stopped)
    ensures match target
            case None => Silent(d, stopped.(target := None))
            case Some(price) =>
              Silent(d, Submit(stopped, Leg(TakeProfit, !long, LimitOrder, price, Held(d), timestamp), Some(|d.orders|))
                          .(target := Some(|d.orders| + 1)))
  {
    match target
    case None =>
      MarksSilent(stopped, stopped.(target := None));
      SilentThen(d, stopped, stopped.(target := None));
    case Some(price) =>
      var leg := Leg(TakeProfit, !long, LimitOrder, price, Held(d), timestamp);
      var both := Submit(stopped, leg, Some(|d.orders|));
      SubmitSilent(stopped, leg, Some(|d.orders|));
      SilentThen(d, stopped, both);
      MarksSilent(both, both.(target := Some(|d.orders| + 1)));
      SilentThen(d, both, both.(target := Some(|d.orders| + 1)));
  }

  lemma ProtectSilent(d: Desk, m: Model, bar: Bar, setup: Setup)
    ensures Silent(d, Protect(d, m, bar, setup))
  {
    ResizeSilent(d);
    if !IsAlive(d, d.stop) {
      var placed := PlaceBracket(d, setup.long, setup.stop, setup.target, bar.timestamp);
      BracketSilent(d, setup.long, setup.stop, setup.target, bar.timestamp);
      MarksSilent(placed, Protect(d, m, bar, setup));
      SilentThen(d, placed, Protect(d, m, bar, setup));
    }
  }

  lemma RemainderSilent(d: Desk, m: Model, r: nat)
    ensures Silent(d, CancelRemainder(d, m, r))
  {
    RetireSilent(d, r, Canceled);
  }

  lemma AfterExitSilent(d: Desk, r: nat, role: Role)
    ensures Silent(d, AfterExit(d, r, role))
  {
    var stopless := CancelAlive(d, d.stop);
    ResizeSilent(d);
    CancelAliveSilent(d, d.stop);
    CancelAliveSilent(stopless, d.target);
    SilentThen(d, stopless, CancelAlive(stopless, d.target));
    var legs := if role != Signal then d
                else if d.book.size != 0.0 then Resize(d)
                else CancelAlive(stopless, d.target);
    assert Silent(d, legs);
    CancelAliveSilent(legs, legs.signal);
    SilentThen(d, legs, CancelAlive(legs, legs.signal));
  }

  /** Everything that follows a booked exit. */
  lemma ReactionSilent(b: Desk, r: nat, entry: Option<nat>, role: Role)
    ensures Silent(b, AfterExit(CancelAlive(OcoCheck(b, r), entry), r, role))
  {
    var c := OcoCheck(b, r);
    var t := CancelAlive(c, entry);
    CheckSilent(b, r);
    CancelAliveSilent(c, entry);
    SilentThen(b, c, t);
    AfterExitSilent(t, r, role);
    SilentThen(b, t, AfterExit(t, r, role));
  }

  // -------------------------------------------------- adapter and strategy

  lemma RememberedSilent(d: Desk, r: Option<nat>)
    ensures Silent(d, CancelRemembered(d, r))
  {
    if r.Some? {
      CancelSilent(d, r.value);
    }
  }

  /** A leg completed: its sibling is canceled and both are forgotten. */
  lemma BracketForgotten(d: Desk, r: Option<nat>)
    ensures Silent(d, CancelRemembered(d, r).(stop := None, target := None))
  {
    var t := CancelRemembered(d, r);
    RememberedSilent(d, r);
    MarksSilent(t, t.(stop := None, target := None));
    SilentThen(d, t, t.(stop := None, target := None));
  }

  lemma CompletedSilent(d: Desk, n: Notice)
    requires n.status == Completed
    ensures Silent(d, DeliverOne(d, n))
  {
    match n.role
    case StopLoss => BracketForgotten(d, d.target);
    case TakeProfit => BracketForgotten(d, d.stop);
    case EntryRole => MarksSilent(d, DeliverOne(d, n));
    case Signal => MarksSilent(d, d);
    case Liquidation => MarksSilent(d, DeliverOne(d, n));
    case EndOfData => MarksSilent(d, DeliverOne(d, n));
  }

  lemma DeliverOneSilent(d: Desk, n: Notice)
    ensures Silent(d, DeliverOne(d, n))
  {
    if n.status == Completed {
      CompletedSilent(d, n);
    } else {
      MarksSilent(d, DeliverOne(d, n));
    }
  }

  lemma {:induction false} DeliverSilent(d: Desk, ns: seq<Notice>)
    ensures Silent(d, DeliverAll(d, ns))
    decreases |ns|
  {
    if ns != [] {
      DeliverOneSilent(d, ns[0]);
      DeliverSilent(DeliverOne(d, ns[0]), ns[1..]);
      SilentThen(d, DeliverOne(d, ns[0]), DeliverAll(DeliverOne(d, ns[0]), ns[1..]));
    }
  }

  lemma DropSilent(d: Desk)
    ensures Silent(d, DropEntry(d))
  {
    if IsAlive(d, d.entry) {
      var marked := d.(cancelledEntry := d.entry);
      var t := Cancel(marked, d.entry.value);
      MarksSilent(d, marked);
      CancelSilent(marked, d.entry.value);
      SilentThen(d, marked, t);
      MarksSilent(t, t.(entry := None));
      SilentThen(d, t, t.(entry := None));
    }
  }

  lemma AcceptSilent(d: Desk, bar: Bar, decision: Decision)
    ensures Silent(d, AcceptExit(d, bar, decision))
  {
    if ExitAccepted(d, decision) {
      var t := DropEntry(d);
      var s := Submit(t, SignalOrder(t, bar, decision.decidedAt), None);
      DropSilent(d);
      SubmitSilent(t, SignalOrder(t, bar, decision.decidedAt), None);
      SilentThen(d, t, s);
      MarksSilent(s, AcceptExit(d, bar, decision));
      SilentThen(d, s, AcceptExit(d, bar, decision));
    }
  }

  lemma RewriteSilent(d: Desk, stop: real, target: Option<real>)
    ensures Silent(d, RewriteEntry(d, stop, target))
  {
  }

  lemma UpdateExitsSilent(d: Desk, bar: Bar, decision: Decision)
    ensures Silent(d, UpdateExits(d, bar, decision))
  {
    if IsAlive(d, d.stop) {
      var stop, target := NextStop(d, decision), NextTarget(d, decision);
      var w := RewriteEntry(d, stop, target);
      var c := Cancel(w, d.stop.value);
      RewriteSilent(d, stop, target);
      CancelSilent(w, d.stop.value);
      SilentThen(d, w, c);
      BracketSilent(c, d.book.size > 0.0, stop, target, bar.timestamp);
      SilentThen(d, c, PlaceBracket(c, d.book.size > 0.0, stop, target, bar.timestamp));
    }
  }

  lemma PlaceEntrySilent(d: Desk, m: Model, bar: Bar, s: Setup, size: real, decidedAt: int)
    requires d.book.size == 0.0
    ensures Silent(d, PlaceEntry(d, m, bar, s, size, decidedAt))
  {
    if MayEnter(d, m, bar, s, size) {
      var t := Submit(d, EntryOrder(s, size, bar, decidedAt), None);
      SubmitSilent(d, EntryOrder(s, size, bar, decidedAt), None);
      MarksSilent(t, PlaceEntry(d, m, bar, s, size, decidedAt));
      SilentThen(d, t, PlaceEntry(d, m, bar, s, size, decidedAt));
    }
  }

  /** The strategy's turn fills nothing: it enters only on a flat account. */
  lemma StrategySilent(d: Desk, m: Model, bar: Bar, decision: Decision)
    ensures Silent(d, Strategy(d, m, bar, decision))
  {
    var t := AcceptExit(d, bar, decision);
    AcceptSilent(d, bar, decision);
    if t.book.size != 0.0 {
      UpdateExitsSilent(t, bar, decision);
    } else if IsAlive(t, t.entry) {
      DropSilent(t);
    } else if decision.enter.Some? {
      PlaceEntrySilent(t, m, bar, decision.enter.value.0, decision.enter.value.1, decision.decidedAt);
    }
    var e := Strategy(d, m, bar, decision);
    if e != t {
      SilentThen(d, t, e);
    }
  }
}
