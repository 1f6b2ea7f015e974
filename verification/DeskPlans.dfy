/**
 From decision to order. An admitted entry becomes exactly the order its setup
 describes, an entry that is not admitted changes nothing, and over every run
 each entry order keeps the side, the kind and the price of its setup.
 */
module DeskPlans {
  import opened Wrappers
  import opened Rounding
  import opened TradeBook
  import opened ExecutionPricing
  import opened DeskTypes
  import opened DeskExecution
  import opened DeskCosts
  import opened DeskSafety
  import opened DeskAdapter
  import opened DeskHearing
  import opened DeskRun
  import opened DeskPrices
  import opened DeskBooks
  import opened DeskBudget

  /** Protection on both sides of the entry, at positive prices; a missing target protects nothing. */
  predicate Brackets(s: Setup) {
    && s.entryPrice > 0.0 && s.stop > 0.0 && (if s.long then s.stop < s.entryPrice else s.stop > s.entryPrice)
    && (s.target.Some? ==>
          s.target.value > 0.0 && if s.long then s.target.value > s.entryPrice else s.target.value < s.entryPrice)
  }

  /** The account's value covers the margin of an entry at its own price, and its commission. */
  predicate Covers(d: Desk, m: Model, bar: Bar, s: Setup, size: real)
    requires d.book.leverage > 0.0
  {
    var notional := Value(size, s.entryPrice);
    notional / d.book.leverage + Bps(notional, m.feeBps(s.kind == LimitOrder, bar.timestamp)) <= Equity(d.book, bar.close)
  }

  predicate Admitted(d: Desk, m: Model, bar: Bar, s: Setup, size: real) {
    && d.book.leverage > 0.0 && size > 0.0
    && (m.spot ==> s.long)
    && Brackets(s) && Covers(d, m, bar, s, size)
  }

  lemma AdmittedMayEnter(d: Desk, m: Model, bar: Bar, s: Setup, size: real)
    ensures Admitted(d, m, bar, s, size) <==> MayEnter(d, m, bar, s, size)
  {
    RateCosts(size, s.entryPrice, m.feeBps(s.kind == LimitOrder, bar.timestamp));
  }

  /** The order a setup asks for, and nothing of it filled. */
  predicate Describes(s: Setup, size: real, bar: Bar, decidedAt: int, o: Order) {
    && o.role == EntryRole && o.status == Accepted && o.setup == Some(s)
    && o.buy == s.long && o.kind == s.kind && o.price == s.entryPrice
    && o.remaining == size && o.figures == NOTHING
    && o.createdAt == bar.timestamp && o.decidedAt == decidedAt
  }

  /**
   A flat account without a waiting entry: the order the strategy asks for is
   added, queued and remembered exactly when it is admitted, and otherwise the
   decision changes nothing.
   */
  lemma EntryPlacedExactly(d: Desk, m: Model, bar: Bar, decision: Decision, s: Setup, size: real)
    requires d.book.size == 0.0 && !IsAlive(d, d.entry) && decision.enter == Some((s, size))
    ensures var e, r := Strategy(d, m, bar, decision), |d.orders|;
            if Admitted(d, m, bar, s, size)
            then && |e.orders| == r + 1 && e.orders[..r] == d.orders
                 && Describes(s, size, bar, decision.decidedAt, e.orders[r])
                 && e.entry == Some(r) && e.pending == d.pending + [Some(r)] && e.book == d.book
            else e == d
  {
    AdmittedMayEnter(d, m, bar, s, size);
    assert AcceptExit(d, bar, decision) == d;
  }

  /**
   A waiting entry on a flat account: it is canceled and forgotten when the
   strategy says so, and stays as it is, whatever else is decided, when not.
   */
  lemma WaitingEntryStays(d: Desk, m: Model, bar: Bar, decision: Decision)
    requires d.book.size == 0.0 && IsAlive(d, d.entry) && Queued(d.pending, d.entry.value)
    ensures var e := Strategy(d, m, bar, decision);
            if decision.cancelEntry then e.entry == None && !IsAlive(e, d.entry) && e.book == d.book else e == d
  {
    assert AcceptExit(d, bar, decision) == d;
    CancelKeepsBook(d.(cancelledEntry := d.entry), d.entry.value);
  }

  /** The sell of the whole position a close decision becomes. */
  predicate ClosesPosition(d: Desk, bar: Bar, decidedAt: int, o: Order) {
    && o.role == Signal && o.kind == MarketOrder && !o.buy && o.status == Accepted
    && o.remaining == Held(d) && o.positionId == d.book.trade
    && o.createdAt == bar.timestamp && o.decidedAt == decidedAt && o.matchedAt == None
  }

  /** The bracket's update leaves the signal and the decisions taken so far alone. */
  lemma UpdateKeepsSignal(d: Desk, bar: Bar, decision: Decision)
    ensures UpdateExits(d, bar, decision).signal == d.signal && UpdateExits(d, bar, decision).exitKeys == d.exitKeys
  {
    if IsAlive(d, d.stop) && UpdateExits(d, bar, decision) != d {
      var w := RewriteEntry(d, NextStop(d, decision), NextTarget(d, decision));
      CancelKeepsSignal(w, d.stop.value);
    }
  }

  lemma CancelKeepsSignal(d: Desk, r: nat)
    ensures Cancel(d, r).signal == d.signal && Cancel(d, r).exitKeys == d.exitKeys
  {
  }

  /**
   A decision to close an open long position becomes a market sell of all of it
   exactly when it names the position, no close is under way and it was not
   taken before; any other decision adds no close.
   */
  lemma CloseDecided(d: Desk, m: Model, bar: Bar, decision: Decision)
    requires Ready(d, m) && d.book.size > 0.0
    ensures var e, t := Strategy(d, m, bar, decision), AcceptExit(d, bar, decision);
            if decision.exitPosition == Some(d.book.trade) && d.signal == None
               && (d.book.trade, decision.exitKey) !in d.exitKeys
            then && e.signal == t.signal == Some(|t.orders| - 1) && |t.orders| == |d.orders| + 1
                 && ClosesPosition(d, bar, decision.decidedAt, t.orders[|d.orders|])
                 && NoneLive(t, EntryRole)
                 && e.exitKeys == d.exitKeys + {(d.book.trade, decision.exitKey)}
            else e.signal == d.signal && e.exitKeys == d.exitKeys
  {
    var t := AcceptExit(d, bar, decision);
    AcceptExitSafe(d, m, bar, decision);
    UpdateKeepsSignal(t, bar, decision);
    if ExitAccepted(d, decision) {
      DropKeepsLength(d);
      AcceptedDrops(d, m, bar, decision);
    }
  }

  lemma AcceptedDrops(d: Desk, m: Model, bar: Bar, decision: Decision)
    requires Ready(d, m) && ExitAccepted(d, decision)
    ensures NoneLive(AcceptExit(d, bar, decision), EntryRole)
  {
    var t, dropped := AcceptExit(d, bar, decision), DropEntry(d);
    DropEntrySafe(d, m);
    forall x: nat | Alive(t.orders, x) ensures t.orders[x].role != EntryRole {
      assert x < |dropped.orders| ==> t.orders[x] == dropped.orders[x] && Alive(dropped.orders, x);
    }
  }

  lemma DropKeepsLength(d: Desk)
    ensures |DropEntry(d).orders| == |d.orders| && DropEntry(d).exitKeys == d.exitKeys && DropEntry(d).book == d.book
  {
    if IsAlive(d, d.entry) {
      CancelKeepsBook(d.(cancelledEntry := d.entry), d.entry.value);
    }
  }

  ghost predicate RunAsPlanned(d: Desk) {
    forall r | 0 <= r < |d.orders| && d.orders[r].role == EntryRole :: AsPlanned(d.orders[r])
  }

  lemma {:induction false} PlayedAsPlanned(d: Desk, m: Model, inputs: seq<Input>)
    requires Resting(d, m) && PricedDesk(d)
    ensures RunAsPlanned(Played(d, m, inputs))
    decreases |inputs|
  {
    if inputs != [] {
      StepReady(d, m, inputs[0]);
      PlayedAsPlanned(Step(d, m, inputs[0]), m, inputs[1..]);
    } else {
      assert forall r | 0 <= r < |d.orders| :: PricedOrder(d.orders[r]);
    }
  }

  /** Over every run, protection updates included, an entry trades on the side, as the kind and at the price of its setup. */
  lemma EveryEntryAsPlanned(m: Model, initial: real, leverage: real, inputs: seq<Input>)
    requires leverage > 0.0 && (m.step.Some? ==> m.step.value > 0.0)
    ensures RunAsPlanned(Played(Fresh(initial, leverage), m, inputs))
  {
    FreshRests(m, initial, leverage);
    PlayedAsPlanned(Fresh(initial, leverage), m, inputs);
  }
}
