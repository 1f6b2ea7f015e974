/**
 The strategy adapter as it runs: it hears each notification of a bar in turn,
 cancels and forgets what the broker left, and then acts on the strategy's
 decision. Its order references are kept with the broker's orders.
 */
module StrategyAdapter {
  import opened Wrappers
  import opened Rounding
  import opened TradeBook
  import opened ExecutionPricing
  import opened ExecutionBroker
  import opened DeskTypes
  import opened DeskExecution
  import opened DeskBar
  import opened DeskStructure
  import opened DeskSafety
  import opened DeskEntry
  import opened DeskSteps
  import opened DeskOpening
  import opened DeskAdapter
  import opened DeskHearing
  import opened DeskRun
  import opened CostedBroker
  import Bookings
  import opened DeskAccount
  import opened DeskShown

  lemma {:induction false} DeliverNext(d: Desk, ns: seq<Notice>, i: nat)
    requires i < |ns|
    ensures DeliverAll(d, ns[i..]) == DeliverAll(DeliverOne(d, ns[i]), ns[i + 1..])
  {
    assert ns[i..][0] == ns[i] && ns[i..][1..] == ns[i + 1..];
  }

  lemma HeardUpTo(a: Account, ns: seq<Notice>, i: nat)
    requires i < |ns|
    ensures Heard(a, ns[..i + 1]) == HeardOne(Heard(a, ns[..i]), ns[i])
  {
    assert ns[..i + 1] == ns[..i] + [ns[i]];
    DeskAccount.HeardNext(a, ns[..i], ns[i]);
  }

  class BTStrategyAdapter {
    const broker: RealisticBroker
    var notifiedFills: map<nat, Figures>
    var position: Bookings.Position
    var nextTradeId: nat

    /** What the strategy is shown. */
    ghost function Shown(): Account
      reads this
    {
      Account(notifiedFills, position, nextTradeId)
    }

    constructor (broker: RealisticBroker)
      ensures this.broker == broker && Shown() == NewAccount()
    {
      this.broker := broker;
      notifiedFills, position, nextTradeId := map[], NO_POSITION, 1;
    }

    // ------------------------------------------------------ the account

    /** Book what an execution has added: an entry in any case, an exit while it is partial. */
    method BookGrowth(before: Figures, n: Notice)
      modifies this`position
      ensures position == Rebooked(old(position), before, n)
    {
      var added := n.figures.quantity - before.quantity;
      if added <= 0.0 {
        return;
      }
      if n.role == EntryRole {
        position := Bookings.BookEntrySnapshot(position, before, n.figures);
      } else if n.status == Partial {
        position := position.(quantity := position.quantity - added);
      }
    }

    method BookExecution(n: Notice)
      modifies this`notifiedFills, this`position
      ensures Shown() == HeardOne(old(Shown()), n)
    {
      if n.status != Partial && n.status != Completed {
        return;
      }
      var before := if n.ref in notifiedFills then notifiedFills[n.ref] else NOTHING;
      notifiedFills := notifiedFills[n.ref := n.figures];
      BookGrowth(before, n);
    }

    /** A trade that ended takes its position with it. */
    method NotifyTrade()
      requires broker.Valid()
      modifies this`position, this`nextTradeId
      ensures position == if old(nextTradeId) == broker.State().book.trade then old(position) else NO_POSITION
      ensures nextTradeId == broker.State().book.trade
    {
      if nextTradeId != broker.account.executionTradeId {
        position, nextTradeId := NO_POSITION, broker.account.executionTradeId;
      }
    }

    // ------------------------------------------------------ notifications

    method CancelLeg(r: Option<nat>)
      requires broker.Valid()
      modifies broker`orders, broker`pending, broker`groups, broker`done, broker`notices
      ensures broker.Valid() && broker.State() == CancelRemembered(old(broker.State()), r)
    {
      if r.Some? && r.value < |broker.orders| {
        var _ := broker.CancelOrder(r.value);
      }
    }

    method ForgetBracket()
      requires broker.Valid()
      modifies broker`stopOrder, broker`targetOrder
      ensures broker.Valid() && broker.State() == old(broker.State()).(stop := None, target := None)
    {
      broker.stopOrder, broker.targetOrder := None, None;
    }

    /** A completed order: a leg cancels its sibling, an entry is forgotten. */
    method NotifyCompleted(n: Notice)
      requires broker.Valid() && n.status == Completed
      modifies broker`orders, broker`pending, broker`groups, broker`done, broker`notices
      modifies broker`stopOrder, broker`targetOrder, broker`entryOrder
      ensures broker.Valid() && broker.State() == DeliverOne(old(broker.State()), n)
    {
      match n.role
      case EntryRole => broker.entryOrder := None;
      case StopLoss =>
        CancelLeg(broker.targetOrder);
        ForgetBracket();
      case TakeProfit =>
        CancelLeg(broker.stopOrder);
        ForgetBracket();
      case Signal =>
      case Liquidation => ForgetBracket();
      case EndOfData => ForgetBracket();
    }

    method NotifyOrder(n: Notice)
      requires broker.Valid()
      modifies this`notifiedFills, this`position
      modifies broker`orders, broker`pending, broker`groups, broker`done, broker`notices
      modifies broker`stopOrder, broker`targetOrder, broker`entryOrder, broker`cancelledEntry
      ensures broker.Valid() && broker.State() == DeliverOne(old(broker.State()), n)
      ensures Shown() == HeardOne(old(Shown()), n)
    {
      BookExecution(n);
      if n.status == Accepted || n.status == Partial {
        return;
      }
      if n.status == Completed {
        NotifyCompleted(n);
      } else if broker.entryOrder == Some(n.ref) || broker.cancelledEntry == Some(n.ref) {
        broker.entryOrder, broker.cancelledEntry := None, None;
      }
    }

    /** Every notification given so far, in order; a trade that closed ends its signal close. */
    method HearAll()
      requires broker.Valid()
      modifies this, broker
      ensures broker.Valid() && broker.State() == Deliver(old(broker.State()))
      ensures Shown() == Listened(old(Shown()), old(broker.State()))
    {
      var given := broker.notices;
      broker.notices := [];
      ghost var start, shown := broker.State(), Shown();
      for i := 0 to |given|
        invariant broker.Valid()
        invariant DeliverAll(broker.State(), given[i..]) == DeliverAll(start, given)
        invariant Shown() == Heard(shown, given[..i])
      {
        DeliverNext(broker.State(), given, i);
        HeardUpTo(shown, given, i);
        NotifyOrder(given[i]);
      }
      assert given[..|given|] == given;
      DeliverBooksNothing(start, given);
      NotifyTrade();
      CloseTrade();
    }

    method CloseTrade()
      requires broker.Valid()
      modifies broker`signalOrder
      ensures broker.Valid()
      ensures broker.State() == if old(broker.State()).book.size == 0.0 then old(broker.State()).(signal := None)
                                else old(broker.State())
    {
      if broker.account.size == 0.0 {
        broker.signalOrder := None;
      }
    }

    // ----------------------------------------------------------- decisions

    /** Cancel a waiting entry; its cancellation is only heard on the next bar. */
    method DropTheEntry()
      requires broker.Valid()
      modifies broker`orders, broker`pending, broker`groups, broker`done, broker`notices
      modifies broker`entryOrder, broker`cancelledEntry
      ensures broker.Valid() && broker.State() == DropEntry(old(broker.State()))
    {
      var entry := broker.entryOrder;
      if entry.Some? && Alive(broker.orders, entry.value) {
        broker.cancelledEntry := entry;
        var _ := broker.CancelOrder(entry.value);
        broker.entryOrder := None;
      }
    }

    method SignalFor(bar: Bar, decidedAt: int) returns (o: Order)
      requires broker.Valid()
      ensures o == SignalOrder(broker.State(), bar, decidedAt)
    {
      o := Order(Signal, false, MarketOrder, 0.0, Accepted, Abs(broker.account.size), NOTHING, 0, bar.timestamp, decidedAt,
                 None, 0.0, broker.account.executionTradeId, None);
    }

    /** Bind one decision to close to this position and to one order. */
    method AcceptPositionExit(bar: Bar, decision: Decision)
      requires broker.Valid()
      modifies broker
      ensures broker.Valid() && broker.State() == AcceptExit(old(broker.State()), bar, decision)
    {
      if broker.signalOrder.Some? || broker.account.size <= 0.0 {
        return;
      }
      var position := broker.account.executionTradeId;
      if decision.exitPosition != Some(position) || (position, decision.exitKey) in broker.exitKeys {
        return;
      }
      DropTheEntry();
      var o := SignalFor(bar, decision.decidedAt);
      var r := broker.SubmitOrder(o, None);
      broker.signalOrder, broker.exitKeys := Some(r), broker.exitKeys + {(position, decision.exitKey)};
    }

    method Refused(bar: Bar, setup: Setup, size: real) returns (refused: bool)
      requires broker.Valid()
      ensures refused <==> !MayEnter(broker.State(), broker.model, bar, setup, size)
    {
      if (broker.model.spot && !setup.long) || !ValidSetup(setup) || size <= 0.0 {
        return true;
      }
      var a := broker.account;
      var rate := Rate(broker.model, setup.kind == LimitOrder, bar.timestamp);
      var required := Value(size, setup.entryPrice) / a.leverage + Value(size, setup.entryPrice * rate);
      var equity := a.cash + Collateral(a.size, a.price, a.leverage) + Value(a.size, bar.close - a.price);
      refused := required > equity;
    }

    /** Submit an entry the account can afford. */
    method SubmitEntry(bar: Bar, setup: Setup, size: real, decidedAt: int)
      requires broker.Valid()
      modifies broker`orders, broker`pending, broker`groups, broker`notices, broker`entryOrder
      ensures broker.Valid()
      ensures broker.State() == PlaceEntry(old(broker.State()), broker.model, bar, setup, size, decidedAt)
    {
      var refused := Refused(bar, setup, size);
      if refused {
        return;
      }
      var r := broker.SubmitOrder(EntryOrder(setup, size, bar, decidedAt), None);
      broker.entryOrder := Some(r);
    }

    /** The remainder of an entry will be sized against the new protection. */
    method ProtectionUpdated(stop: real, target: Option<real>)
      requires broker.Valid()
      modifies broker`orders
      ensures broker.Valid() && broker.State() == RewriteEntry(old(broker.State()), stop, target)
    {
      var entry := broker.entryOrder;
      if entry.Some? && Alive(broker.orders, entry.value) && broker.orders[entry.value].setup.Some? {
        var o := broker.orders[entry.value];
        broker.orders := broker.orders[entry.value := o.(setup := Some(o.setup.value.(stop := stop, target := target)))];
      }
    }

    /** Cancel the leader of the bracket, which cancels both legs, and place both afresh. */
    method ReplaceBracket(bar: Bar, stop: real, target: Option<real>)
      requires broker.Valid() && IsAlive(broker.State(), broker.stopOrder)
      modifies broker
      ensures broker.Valid() && broker.State() == Replace(old(broker.State()), stop, target, bar.timestamp)
    {
      var leader := broker.stopOrder.value;
      ProtectionUpdated(stop, target);
      var _ := broker.CancelOrder(leader);
      broker.PlaceTheBracket(broker.account.size > 0.0, stop, target, bar.timestamp);
    }

    method UpdateTheExits(bar: Bar, decision: Decision)
      requires broker.Valid()
      modifies broker
      ensures broker.Valid() && broker.State() == UpdateExits(old(broker.State()), bar, decision)
    {
      var leader := broker.stopOrder;
      if leader == None || !Alive(broker.orders, leader.value) {
        return;
      }
      var current := broker.orders[leader.value].price;
      var sibling := broker.targetOrder;
      var currentTarget := if sibling.Some? && Alive(broker.orders, sibling.value) then Some(broker.orders[sibling.value].price) else None;
      var stop := if decision.newStop.Some? then decision.newStop.value else current;
      var target := if currentTarget.Some? && decision.newTarget.Some? then decision.newTarget else currentTarget;
      if stop == current && target == currentTarget {
        return;
      }
      if ValidUpdate(broker.account.size > 0.0, current, stop, target) {
        ReplaceBracket(bar, stop, target);
      }
    }

    /** The strategy's turn. */
    method Act(bar: Bar, decision: Decision)
      requires broker.Valid()
      modifies broker
      ensures broker.Valid() && broker.State() == Strategy(old(broker.State()), broker.model, bar, decision)
    {
      AcceptPositionExit(bar, decision);
      if broker.account.size != 0.0 {
        UpdateTheExits(bar, decision);
      } else if broker.entryOrder.Some? && Alive(broker.orders, broker.entryOrder.value) {
        if decision.cancelEntry {
          DropTheEntry();
        }
      } else if decision.enter.Some? {
        SubmitEntry(bar, decision.enter.value.0, decision.enter.value.1, decision.decidedAt);
      }
    }

    // -------------------------------------------------------------- whole bar

    /** The broker's bar and its notifications. */
    method HearBar(bar: Bar, mark: Option<Mark>)
      requires broker.Valid() && broker.execution.Valid() && Resting(broker.State(), broker.model)
      modifies this, broker, broker.account, broker.account.ledger, broker.execution
      ensures broker.Valid() && broker.execution.Valid()
      ensures var ended := BrokerBar(old(broker.State()), broker.model, bar,
                                     DueBetween(broker.execution, old(broker.execution.fundingCursor)), mark);
              broker.State() == Deliver(ended) && Shown() == Listened(old(Shown()), ended)
      ensures DueUpTo(broker.execution.records, old(broker.execution.fundingCursor), broker.execution.fundingCursor,
                      bar.timestamp)
    {
      RestingSafe(broker.State(), broker.model, bar.timestamp);
      broker.NextBar(bar, mark);
      HearAll();
    }

    /** The broker's bar, its notifications, the strategy's turn. */
    method RunBar(bar: Bar, mark: Option<Mark>, decision: Decision)
      requires broker.Valid() && broker.execution.Valid() && Resting(broker.State(), broker.model)
      modifies this, broker, broker.account, broker.account.ledger, broker.execution
      ensures broker.Valid() && broker.execution.Valid()
      ensures var due := DueBetween(broker.execution, old(broker.execution.fundingCursor));
              && broker.State() == Step(old(broker.State()), broker.model, Input(bar, due, mark, decision))
              && Shown() == Listened(old(Shown()), BrokerBar(old(broker.State()), broker.model, bar, due, mark))
      ensures DueUpTo(broker.execution.records, old(broker.execution.fundingCursor), broker.execution.fundingCursor,
                      bar.timestamp)
    {
      HearBar(bar, mark);
      Act(bar, decision);
    }

    /**
     One bar from funding to the strategy's orders. Whatever the bar, the mark
     and the decision, no position is left naked, the books stay sound, and the
     position the strategy is shown is the broker's.
     */
    method OnBar(bar: Bar, mark: Option<Mark>, decision: Decision)
      requires broker.Valid() && broker.execution.Valid() && Resting(broker.State(), broker.model)
      requires Shows(Shown(), broker.State())
      modifies this, broker, broker.account, broker.account.ledger, broker.execution
      ensures broker.Valid() && broker.execution.Valid() && broker.account.Valid()
      ensures AtRest(Shown(), broker.State(), broker.model)
      ensures broker.State() == Step(old(broker.State()), broker.model,
                Input(bar, DueBetween(broker.execution, old(broker.execution.fundingCursor)), mark, decision))
      ensures DueUpTo(broker.execution.records, old(broker.execution.fundingCursor), broker.execution.fundingCursor,
                      bar.timestamp)
    {
      ghost var d, a, first := broker.State(), Shown(), broker.execution.fundingCursor;
      RunBar(bar, mark, decision);
      StepRests(a, d, broker.model, Input(bar, DueBetween(broker.execution, first), mark, decision));
    }

    /** The end of the data: cancel what is left, close the position at the last close, hear it out. */
    method Finish(bar: Bar, retain: bool)
      requires broker.Valid() && Resting(broker.State(), broker.model)
      requires Shows(Shown(), broker.State())
      modifies this, broker, broker.account, broker.account.ledger
      ensures broker.Valid() && broker.State() == EndRun(old(broker.State()), broker.model, bar, retain)
      ensures RunEnded(old(broker.State()), broker.State(), retain) && Shows(Shown(), broker.State())
    {
      ghost var d, a := broker.State(), Shown();
      EndData(bar, retain);
      HearAll();
      EndRests(a, d, broker.model, bar, retain);
    }

    method EndData(bar: Bar, retain: bool)
      requires broker.Valid()
      modifies broker, broker.account, broker.account.ledger
      ensures broker.Valid() && broker.State() == Ending(old(broker.State()), broker.model, bar, retain)
    {
      broker.CancelIfAlive(broker.entryOrder);
      if !retain {
        CloseOut(bar);
      }
    }

    method CloseOut(bar: Bar)
      requires broker.Valid()
      modifies broker, broker.account, broker.account.ledger
      ensures broker.Valid() && broker.State() == ClosedOut(old(broker.State()), broker.model, bar)
    {
      broker.CancelIfAlive(broker.stopOrder);
      broker.CancelIfAlive(broker.targetOrder);
      broker.CancelIfAlive(broker.signalOrder);
      if broker.account.size == 0.0 {
        return;
      }
      var o := EndFor(bar.timestamp);
      var r := broker.ForceOrder(o);
      broker.ExecuteClose(bar, r, bar.close, 0.0);
    }

    method EndFor(timestamp: int) returns (o: Order)
      requires broker.Valid()
      ensures o == EndOrder(broker.State(), timestamp)
    {
      o := Order(EndOfData, broker.account.size < 0.0, MarketOrder, 0.0, Accepted, Abs(broker.account.size), NOTHING, 0,
                 timestamp, timestamp, None, 0.0, 0, None);
    }
  }
}
