/**
 One walk of the queue: it ends, visits each order queued at its start at most
 once, never duplicates or loses a live one, and keeps the desk safe although
 matching removes from, appends to and cancels inside the very same queue.
 */
module DeskPass {
  import opened Wrappers
  import opened Rounding
  import opened StableSort
  import opened TradeBook
  import opened ExecutionPricing
  import opened OcoPriority
  import opened DeskTypes
  import opened DeskExecution
  import opened DeskBar
  import opened DeskStructure
  import opened DeskSafety
  import opened DeskSignal
  import opened DeskEntry
  import opened DeskSteps

  // ---------------------------------------------------------------- pass

  /** The walk: turn after turn until the sentinel comes up. */
  function Pass(d: Desk, m: Model, bar: Bar): Desk
    requires None in d.pending
    decreases |Front(d.pending)|
  {
    if d.pending[0] == None then Popped(d)
    else
      TurnNarrows(d, m, bar);
      Pass(Turn(Popped(d), m, bar, d.pending[0].value), m, bar)
  }

  /** The orders the walk pops, in order. */
  function Visited(d: Desk, m: Model, bar: Bar): seq<nat>
    requires None in d.pending
    decreases |Front(d.pending)|
  {
    if d.pending[0] == None then []
    else
      TurnNarrows(d, m, bar);
      [d.pending[0].value] + Visited(Turn(Popped(d), m, bar, d.pending[0].value), m, bar)
  }

  lemma TurnNarrows(d: Desk, m: Model, bar: Bar)
    requires None in d.pending && d.pending[0].Some?
    ensures var e := Turn(Popped(d), m, bar, d.pending[0].value);
            && Steps(Popped(d), e)
            && None in e.pending
            && Narrower(Front(d.pending[1..]), Front(e.pending))
            && |Front(e.pending)| < |Front(d.pending)|
  {
    assert None in d.pending[1..];
    TurnSteps(Popped(d), m, bar, d.pending[0].value);
  }

  // ------------------------------------------------------------ one turn

  /** Popping the head is removing it. */
  lemma PoppedIsRemoved(d: Desk)
    requires Distinct(d.pending) && d.pending != [] && d.pending[0].Some?
    ensures Popped(d) == Remove(d, d.pending[0].value)
  {
    TailOmitsHead(d.pending);
    WithoutNone(d.pending[1..], {d.pending[0].value});
  }

  /** Taking the head of the queue in hand. */
  lemma PoppedSafe(d: Desk, m: Model, timestamp: int)
    requires Safe(d, m, timestamp, {}) && d.pending != [] && d.pending[0].Some?
    ensures Safe(Popped(d), m, timestamp, {d.pending[0].value})
    ensures Alive(d.orders, d.pending[0].value)
  {
    var r := d.pending[0].value;
    assert Queued(d.pending, r);
    PoppedIsRemoved(d);
    TakenFromQueue(d, m, timestamp, {}, r);
    assert {} + {r} == {r};
  }

  /** A live order whose group is done guards no open position. */
  lemma DoneIsNotBracket(d: Desk, m: Model, timestamp: int, hand: set<nat>, r: nat)
    requires Safe(d, m, timestamp, hand) && Alive(d.orders, r) && GroupDone(d, r)
    ensures d.book.size != 0.0 ==> d.orders[r].group != d.orders[d.stop.value].group && !Protective(d.orders[r].role)
  {
    if d.book.size != 0.0 {
      assert d.orders[d.stop.value].group in d.groups;
      assert Remembered(d, r);
    }
  }

  lemma DoneTurnSafe(d: Desk, m: Model, bar: Bar, r: nat)
    requires Safe(d, m, bar.timestamp, {r}) && Alive(d.orders, r) && GroupDone(d, r)
    ensures var e := OcoCheck(Retire(d, r, Canceled), r);
            Safe(e, m, bar.timestamp, {}) && NoneLive(e, Signal) && Elder(d.orders, e.orders)
  {
    DoneIsNotBracket(d, m, bar.timestamp, {r}, r);
    RetireSafe(d, m, bar.timestamp, {r}, r, Canceled);
    var t := Retire(d, r, Canceled);
    DropFromHand(t, {r}, r);
    assert {r} - {r} == {};
    DoneTurnSignals(d, t, m, bar.timestamp, r);
    DoneTurnCheck(d, t, m, bar, r);
  }

  lemma DoneTurnCheck(d: Desk, t: Desk, m: Model, bar: Bar, r: nat)
    requires r < |d.orders| && t == Retire(d, r, Canceled) && Safe(t, m, bar.timestamp, {}) && NoneLive(t, Signal)
    requires Elder(d.orders, t.orders)
    requires t.book.size != 0.0 ==> t.orders[r].group != t.orders[t.stop.value].group
    ensures var e := OcoCheck(t, r);
            Safe(e, m, bar.timestamp, {}) && NoneLive(e, Signal) && Elder(d.orders, e.orders)
  {
    CompleteStruct(t, {}, r);
    CompleteEffect(t, {}, r);
    DoneTurnThins(d, t, OcoCheck(t, r), m, bar.timestamp, r);
  }

  lemma DoneTurnThins(d: Desk, t: Desk, e: Desk, m: Model, timestamp: int, r: nat)
    requires Safe(t, m, timestamp, {}) && NoneLive(t, Signal) && Elder(d.orders, t.orders) && r < |t.orders|
    requires t.book.size != 0.0 ==> t.orders[r].group != t.orders[t.stop.value].group
    requires Struct(e, {}) && Thinned(t, e, t.orders[r].group)
    ensures Safe(e, m, timestamp, {}) && NoneLive(e, Signal) && Elder(d.orders, e.orders)
  {
    ThinnedKeepsCore(t, e, t.orders[r].group, m, timestamp, {});
    ThinnedKeepsFlat(t, e, t.orders[r].group, timestamp);
  }

  lemma DoneTurnSignals(d: Desk, t: Desk, m: Model, timestamp: int, r: nat)
    requires Safe(d, m, timestamp, {r}) && Alive(d.orders, r) && GroupDone(d, r) && t == Retire(d, r, Canceled)
    requires Struct(t, {}) && Duller(d.orders, t.orders)
    ensures NoneLive(t, Signal)
  {
    DoneIsNotBracket(d, m, timestamp, {r}, r);
    DullerNoneLive(d, t);
    if d.orders[r].role == Signal {
      assert Remembered(d, r);
      RememberedAlone(t, {}, r, Signal);
    }
  }

  lemma LegTurnSafe(d: Desk, m: Model, bar: Bar, r: nat)
    requires Safe(d, m, bar.timestamp, {r}) && Alive(d.orders, r) && Protective(d.orders[r].role)
    requires SignalsSettled(d, m, bar)
    ensures var e := MatchProtection(d, m, bar, true, None, false);
            Safe(e, m, bar.timestamp, {r}) && SignalsSettled(e, m, bar) && Elder(d.orders, e.orders)
  {
    MatchProtectionSafe(d, m, bar, {r}, true, None, false);
    var e := MatchProtection(d, m, bar, true, None, false);
    if LegExited(d, e, bar) {
      ExitedIsSpent(d, e, m, bar);
      ExitedSettles(d, e, m, bar);
    } else {
      StillSettles(d, e, m, bar);
    }
  }

  lemma ExitedSettles(d: Desk, e: Desk, m: Model, bar: Bar)
    requires SignalsSettled(d, m, bar) && Duller(d.orders, e.orders) && GapSpent(e, m, bar)
    ensures SignalsSettled(e, m, bar)
  {
    forall x: nat | Alive(e.orders, x) && e.orders[x].role == Signal ensures SettledSignal(e, m, bar, e.orders[x]) {
      assert SameIdentity(d.orders[x], e.orders[x]) && Alive(d.orders, x);
      assert SettledSignal(d, m, bar, d.orders[x]);
    }
  }

  lemma StillSettles(d: Desk, e: Desk, m: Model, bar: Bar)
    requires SignalsSettled(d, m, bar) && SameButOrder(d, e)
    ensures SignalsSettled(e, m, bar)
  {
    forall x: nat | Alive(e.orders, x) && e.orders[x].role == Signal ensures SettledSignal(e, m, bar, e.orders[x]) {
      StillIsSettled(d, e, m, bar, d.orders[x]);
    }
  }

  lemma NoSignalSettles(e: Desk, m: Model, bar: Bar)
    requires NoneLive(e, Signal)
    ensures SignalsSettled(e, m, bar)
  {
  }

  /** An order that is tried keeps the desk safe. */
  lemma TryExecSafe(d: Desk, m: Model, bar: Bar, r: nat)
    requires Safe(d, m, bar.timestamp, {r}) && Alive(d.orders, r) && SignalsSettled(d, m, bar)
    ensures var e := TryExec(d, m, bar, r);
            Safe(e, m, bar.timestamp, {r}) && SignalsSettled(e, m, bar) && Elder(d.orders, e.orders)
  {
    match d.orders[r].role
    case Signal => SettledSignalRests(d, m, bar, r);
    case StopLoss => LegTurnSafe(d, m, bar, r);
    case TakeProfit => LegTurnSafe(d, m, bar, r);
    case EntryRole =>
      TryEntrySafe(d, m, bar, r);
      NoSignalSettles(TryEntry(d, m, bar, r), m, bar);
    case Liquidation =>
    case EndOfData =>
  }

  /** One turn of the walk: the popped order is canceled, tried, requeued or dropped, and the desk stays safe. */
  lemma TurnSafe(d: Desk, m: Model, bar: Bar, r: nat)
    requires Safe(d, m, bar.timestamp, {r}) && Alive(d.orders, r) && SignalsSettled(d, m, bar)
    ensures var e := Turn(d, m, bar, r);
            Safe(e, m, bar.timestamp, {}) && SignalsSettled(e, m, bar) && Elder(d.orders, e.orders)
  {
    if GroupDone(d, r) {
      DoneTurnSafe(d, m, bar, r);
      NoSignalSettles(Turn(d, m, bar, r), m, bar);
    } else {
      TryExecSafe(d, m, bar, r);
      var t := TryExec(d, m, bar, r);
      assert {} + {r} == {r};
      ReturnedToQueue(t, m, bar.timestamp, {}, r);
      StillSettles(t, Turn(d, m, bar, r), m, bar);
    }
  }

  // ------------------------------------------------------- the whole walk

  lemma PoppedSettles(d: Desk, m: Model, bar: Bar)
    requires SignalsSettled(d, m, bar) && d.pending != []
    ensures SignalsSettled(Popped(d), m, bar)
  {
    StillSettles(d, Popped(d), m, bar);
  }

  /** Off the sentinel, the queue holds orders only. */
  lemma SentinelPopped(d: Desk, m: Model, timestamp: int)
    requires Safe(d, m, timestamp, {}) && d.pending != [] && d.pending[0] == None
    ensures Safe(Popped(d), m, timestamp, {}) && None !in Popped(d).pending
  {
    var e := Popped(d);
    TailOmitsHead(d.pending);
    SentinelQueue(d);
    SameButQueue(d, e, m, timestamp);
  }

  lemma SentinelQueue(d: Desk)
    requires Struct(d, {}) && d.pending != [] && d.pending[0] == None
    ensures Struct(Popped(d), {})
  {
    var e := Popped(d);
    assert d.pending == [None] + e.pending;
    assert forall x: nat :: Queued(d.pending, x) <==> Queued(e.pending, x);
    forall x: nat | Alive(e.orders, x) ensures Remembered(e, x) {
      assert Remembered(d, x);
    }
  }

  /** The walk keeps the desk safe and leaves no sentinel and no order behind. */
  lemma {:induction false} PassSafe(d: Desk, m: Model, bar: Bar)
    requires Safe(d, m, bar.timestamp, {}) && SignalsSettled(d, m, bar) && None in d.pending
    ensures var e := Pass(d, m, bar);
            Safe(e, m, bar.timestamp, {}) && None !in e.pending && Elder(d.orders, e.orders)
    decreases |Front(d.pending)|
  {
    if d.pending[0] == None {
      SentinelPopped(d, m, bar.timestamp);
    } else {
      var r := d.pending[0].value;
      var e := Turn(Popped(d), m, bar, r);
      PoppedSafe(d, m, bar.timestamp);
      PoppedSettles(d, m, bar);
      TurnSafe(Popped(d), m, bar, r);
      TurnNarrows(d, m, bar);
      PassSafe(e, m, bar);
      ElderTrans(d.orders, e.orders, Pass(e, m, bar).orders);
    }
  }

  lemma {:induction false} PassKeeps(d: Desk, m: Model, bar: Bar)
    requires None in d.pending
    ensures Keeps(d, Pass(d, m, bar))
    decreases |Front(d.pending)|
  {
    if d.pending[0].Some? {
      TurnNarrows(d, m, bar);
      PassKeeps(Turn(Popped(d), m, bar, d.pending[0].value), m, bar);
    }
  }

  lemma {:induction false} FrontIsQueued(p: seq<Option<nat>>, x: nat)
    requires x in Front(p)
    ensures Queued(p, x)
  {
    if x != p[0].value {
      FrontIsQueued(p[1..], x);
    }
  }

  lemma HeadIsGone(p: seq<Option<nat>>)
    requires Distinct(p) && p != [] && p[0].Some?
    ensures p[0].value !in Front(p[1..])
  {
    TailOmitsHead(p);
    forall x | x in Front(p[1..]) ensures x != p[0].value {
      FrontIsQueued(p[1..], x);
    }
  }

  /**
   Although matching takes from, adds to and cancels inside the queue it walks,
   the walk pops only orders that were queued when it began, each at most once.
   */
  lemma {:induction false} VisitsOnce(d: Desk, m: Model, bar: Bar)
    requires Safe(d, m, bar.timestamp, {}) && SignalsSettled(d, m, bar) && None in d.pending
    ensures NoDup(Visited(d, m, bar))
    ensures forall x | x in Visited(d, m, bar) :: x in Front(d.pending)
    decreases |Front(d.pending)|
  {
    if d.pending[0].Some? {
      var r := d.pending[0].value;
      var e := Turn(Popped(d), m, bar, r);
      PoppedSafe(d, m, bar.timestamp);
      PoppedSettles(d, m, bar);
      TurnSafe(Popped(d), m, bar, r);
      TurnNarrows(d, m, bar);
      VisitsOnce(e, m, bar);
      HeadIsGone(d.pending);
      VisitedNext(r, Visited(e, m, bar), Front(d.pending[1..]));
    }
  }

  lemma VisitedNext(r: nat, rest: seq<nat>, front: seq<nat>)
    requires NoDup(rest) && r !in front && forall x | x in rest :: x in front
    ensures NoDup([r] + rest)
  {
    var all := [r] + rest;
    forall i, j | 0 <= i < j < |all| ensures all[i] != all[j] {
      assert all[j] == rest[j - 1] && rest[j - 1] in rest;
    }
  }
}
