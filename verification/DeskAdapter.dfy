/**
 The strategy adapter: it hears about fills after the broker's bar, tidies up
 what the broker left, and then takes its turn.
 */
module DeskAdapter {
  import opened Wrappers
  import opened Rounding
  import opened TradeBook
  import opened ExecutionPricing
  import opened ExecutionBroker
  import opened DeskTypes
  import opened DeskExecution
  import opened DeskBar
  import opened DeskPass

  /** The broker's whole bar. */
  function BrokerBar(d: Desk, m: Model, bar: Bar, due: seq<FundingRecord>, mark: Option<Mark>): Desk {
    var liquidated := Liquidate(OpenDesk(d, m, bar, due), m, bar, mark);
    Pass(Prepared(SignalsAtOpen(liquidated, m, bar, liquidated.pending), bar), m, bar)
  }

  // -------------------------------------------------------- notifications

  /** Cancel a remembered order whatever its state; only a queued one is affected. */
  function CancelRemembered(d: Desk, r: Option<nat>): Desk {
    if r.Some? then Cancel(d, r.value) else d
  }

  /** One notification: a completed leg cancels its sibling, a dead entry is forgotten. */
  function DeliverOne(d: Desk, n: Notice): Desk {
    match n.status
    case Accepted => d
    case Partial => d
    case Completed =>
      (match n.role
       case EntryRole => d.(entry := None)
       case StopLoss => CancelRemembered(d, d.target).(stop := None, target := None)
       case TakeProfit => CancelRemembered(d, d.stop).(stop := None, target := None)
       case Signal => d
       case Liquidation => d.(stop := None, target := None)
       case EndOfData => d.(stop := None, target := None))
    case _ =>
      if d.entry == Some(n.ref) || d.cancelledEntry == Some(n.ref) then d.(entry := None, cancelledEntry := None) else d
  }

  function DeliverAll(d: Desk, notices: seq<Notice>): Desk
    decreases |notices|
  {
    if notices == [] then d else DeliverAll(DeliverOne(d, notices[0]), notices[1..])
  }

  /** Notifications in the order given; a closed trade ends its signal close. What they cause is heard next bar. */
  function Deliver(d: Desk): Desk {
    var e := DeliverAll(d.(notices := []), d.notices);
    if e.book.size == 0.0 then e.(signal := None) else e
  }

  // ------------------------------------------------------------- strategy

  /**
   What the strategy may ask for on one bar. `exitKey` names the node, the bar
   and the time an exit decision comes from.
   */
  datatype Decision = Decision(
    exitPosition: Option<nat>,
    exitKey: nat,
    cancelEntry: bool,
    enter: Option<(Setup, real)>,
    newStop: Option<real>,
    newTarget: Option<real>,
    decidedAt: int)

  /** Cancel a waiting entry and remember that its cancellation is still to be heard. */
  function DropEntry(d: Desk): Desk {
    if IsAlive(d, d.entry) then Cancel(d.(cancelledEntry := d.entry), d.entry.value).(entry := None) else d
  }

  function SignalOrder(d: Desk, bar: Bar, decidedAt: int): Order {
    Order(Signal, false, MarketOrder, 0.0, Accepted, Held(d), NOTHING, 0, bar.timestamp, decidedAt, None, 0.0, d.book.trade, None)
  }

  /** The decision to close names this long position, for the first time. */
  predicate ExitAccepted(d: Desk, decision: Decision) {
    && decision.exitPosition == Some(d.book.trade) && d.signal == None && d.book.size > 0.0
    && (d.book.trade, decision.exitKey) !in d.exitKeys
  }

  /** One signal close per long position and one per decision, for the trade it was asked for. */
  function AcceptExit(d: Desk, bar: Bar, decision: Decision): Desk {
    if !ExitAccepted(d, decision) then d
    else
      var t := DropEntry(d);
      Submit(t, SignalOrder(t, bar, decision.decidedAt), None)
        .(signal := Some(|t.orders|), exitKeys := d.exitKeys + {(d.book.trade, decision.exitKey)})
  }

  predicate Between(a: real, b: real, c: real) {
    a < b < c
  }

  /** Positive prices, and protection that brackets the entry. */
  predicate ValidSetup(s: Setup) {
    && s.stop > 0.0 && s.entryPrice > 0.0
    && (match s.target
        case None => if s.long then s.stop < s.entryPrice else s.entryPrice < s.stop
        case Some(target) =>
          target > 0.0 && (if s.long then Between(s.stop, s.entryPrice, target) else Between(target, s.entryPrice, s.stop)))
  }

  /** Margin and commission a new entry would need at its own price. */
  function SubmissionRequirement(d: Desk, m: Model, s: Setup, size: real, timestamp: int): real
    requires d.book.leverage > 0.0
  {
    Value(size, s.entryPrice) / d.book.leverage + Value(size, s.entryPrice * Rate(m, s.kind == LimitOrder, timestamp))
  }

  /** No short on a spot market, a valid setup, a positive size the account can afford. */
  predicate MayEnter(d: Desk, m: Model, bar: Bar, s: Setup, size: real) {
    && d.book.leverage > 0.0
    && !(m.spot && !s.long)
    && ValidSetup(s) && size > 0.0
    && SubmissionRequirement(d, m, s, size, bar.timestamp) <= Equity(d.book, bar.close)
  }

  function EntryOrder(s: Setup, size: real, bar: Bar, decidedAt: int): Order {
    Order(EntryRole, s.long, s.kind, s.entryPrice, Accepted, size, NOTHING, 0, bar.timestamp, decidedAt, Some(s),
          Value(size, Abs(s.entryPrice - s.stop)), 0, None)
  }

  function PlaceEntry(d: Desk, m: Model, bar: Bar, s: Setup, size: real, decidedAt: int): Desk {
    if MayEnter(d, m, bar, s, size)
    then Submit(d, EntryOrder(s, size, bar, decidedAt), None).(entry := Some(|d.orders|))
    else d
  }

  /** A protection update may not widen the risk and must leave a bracket. */
  predicate ValidUpdate(long: bool, current: real, stop: real, target: Option<real>) {
    && stop > 0.0
    && (if long then stop >= current else stop <= current)
    && (target.Some? ==> target.value > 0.0 && (if long then stop < target.value else target.value < stop))
  }

  /** A partly filled entry keeps the protection its remainder will be sized against. */
  function RewriteEntry(d: Desk, stop: real, target: Option<real>): Desk {
    if IsAlive(d, d.entry) && d.orders[d.entry.value].setup.Some?
    then Update(d, d.entry.value, d.orders[d.entry.value].(
                  setup := Some(d.orders[d.entry.value].setup.value.(stop := stop, target := target))))
    else d
  }

  function CurrentTarget(d: Desk): Option<real> {
    if IsAlive(d, d.target) then Some(d.orders[d.target.value].price) else None
  }

  function NextStop(d: Desk, decision: Decision): real
    requires IsAlive(d, d.stop)
  {
    if decision.newStop.Some? then decision.newStop.value else d.orders[d.stop.value].price
  }

  /** A position that trades without a target is never given one. */
  function NextTarget(d: Desk, decision: Decision): Option<real> {
    if CurrentTarget(d).Some? && decision.newTarget.Some? then decision.newTarget else CurrentTarget(d)
  }

  /** Cancel the leader of the bracket, which cancels both legs, and place both afresh. */
  function Replace(d: Desk, stop: real, target: Option<real>, timestamp: int): Desk
    requires IsAlive(d, d.stop)
  {
    PlaceBracket(Cancel(RewriteEntry(d, stop, target), d.stop.value), d.book.size > 0.0, stop, target, timestamp)
  }

  /** Both legs are replaced together, and only by a changed and valid pair. */
  function UpdateExits(d: Desk, bar: Bar, decision: Decision): Desk {
    if !IsAlive(d, d.stop) then d
    else
      var current, stop, target := d.orders[d.stop.value].price, NextStop(d, decision), NextTarget(d, decision);
      if (stop == current && target == CurrentTarget(d)) || !ValidUpdate(d.book.size > 0.0, current, stop, target) then d
      else Replace(d, stop, target, bar.timestamp)
  }

  /** The strategy's turn after the notifications. */
  function Strategy(d: Desk, m: Model, bar: Bar, decision: Decision): Desk {
    var t := AcceptExit(d, bar, decision);
    if t.book.size != 0.0 then UpdateExits(t, bar, decision)
    else if IsAlive(t, t.entry) then (if decision.cancelEntry then DropEntry(t) else t)
    else match decision.enter
      case None => t
      case Some((setup, size)) => PlaceEntry(t, m, bar, setup, size, decision.decidedAt)
  }

  // ------------------------------------------------------------ whole run

  /** Everything the outside contributes to one bar. */
  datatype Input = Input(bar: Bar, due: seq<FundingRecord>, mark: Option<Mark>, decision: Decision)

  function Step(d: Desk, m: Model, input: Input): Desk {
    Strategy(Deliver(BrokerBar(d, m, input.bar, input.due, input.mark)), m, input.bar, input.decision)
  }

  function Played(d: Desk, m: Model, inputs: seq<Input>): Desk
    decreases |inputs|
  {
    if inputs == [] then d else Played(Step(d, m, inputs[0]), m, inputs[1..])
  }

  function Fresh(initial: real, leverage: real): Desk {
    Desk([], [], map[], {}, [], None, None, None, None, None, None, None, None, None, {}, Opened(initial, leverage))
  }

  // ----------------------------------------------------------- end of data

  function EndOrder(d: Desk, timestamp: int): Order {
    Order(EndOfData, d.book.size < 0.0, MarketOrder, 0.0, Accepted, Held(d), NOTHING, 0, timestamp, timestamp, None, 0.0, 0, None)
  }

  /** Without an entry: everything else is canceled and the position closed at the last close. */
  function ClosedOut(d: Desk, m: Model, bar: Bar): Desk {
    var cleared := CancelAlive(CancelAlive(CancelAlive(d, d.stop), d.target), d.signal);
    if cleared.book.size == 0.0 then cleared
    else ExecuteExit(Forcing(cleared, EndOrder(cleared, bar.timestamp)), m, bar, |cleared.orders|, bar.close, 0.0)
  }

  /** At the end of the data the entry always goes; unless the position is marked, so does everything else. */
  function Ending(d: Desk, m: Model, bar: Bar, retain: bool): Desk {
    var entryless := CancelAlive(d, d.entry);
    if retain then entryless else ClosedOut(entryless, m, bar)
  }

  function EndRun(d: Desk, m: Model, bar: Bar, retain: bool): Desk {
    Deliver(Ending(d, m, bar, retain))
  }
}
