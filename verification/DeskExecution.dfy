/**
 Matching and execution: what one queued order does to the desk on one bar.
 Exits are capped by the position, entries by the stop-risk budget, and both
 by one volume budget per bar.
 */
module DeskExecution {
  import opened Wrappers
  import opened Rounding
  import opened TradeBook
  import opened ExecutionPricing
  import opened StopRisk
  import opened DeskTypes

  // ------------------------------------------------------------- pricing

  /** Half spread plus the slippage resolved for this share of the bar's volume. */
  function Fraction(m: Model, volume: real, granted: real): real {
    var participation := if m.proxy.Some? && volume != 0.0 then Min(1.0, granted / volume) else 0.0;
    (m.spreadBps / 2.0 + m.slippage(participation)) / 10000.0
  }

  function Rate(m: Model, maker: bool, timestamp: int): real {
    m.feeBps(maker, timestamp) / 10000.0
  }

  /** Quantity rounded down to whole lots; nothing when not even one lot is left. */
  function NormalizeLot(m: Model, quantity: real): Option<real> {
    if m.step.Some? && m.step.value > 0.0 then
      var lots := FloorStep(quantity, m.step.value);
      if lots <= 0.0 then None else Some(lots)
    else Some(quantity)
  }

  /** Liquidation and end of data trade outside the bar's volume budget. */
  predicate Unbudgeted(role: Role) {
    role == Liquidation || role == EndOfData
  }

  function Budgeted(d: Desk, role: Role, quantity: real): real {
    if d.liquidity.Some? && !Unbudgeted(role) then Min(quantity, d.liquidity.value) else quantity
  }

  function Spend(d: Desk, role: Role, quantity: real): Desk {
    if d.liquidity.Some? && !Unbudgeted(role) then d.(liquidity := Some(d.liquidity.value - quantity)) else d
  }

  /** The position part of a fill. That each one is admissible is proved, not checked. */
  function BookFill(d: Desk, f: Fill): Desk {
    if d.book.leverage > 0.0 then d.(book := Recorded(d.book, f)) else d
  }

  /** What a fill adds to the figures of its order; `b` are the books it is taken from. */
  function Tally(b: Book, f: Fill): Figures {
    Figures(f.size, Value(f.size, f.price), f.commission, if f.entry then 0.0 else ClosingPnl(b, f))
  }

  /** Backtrader's order step: cumulative figures, and Completed exactly when nothing remains. */
  function Executed(o: Order, added: Figures): Order {
    var remaining := o.remaining - added.quantity;
    o.(remaining := remaining, figures := Plus(o.figures, added),
       status := if remaining == 0.0 then Completed else Partial)
  }

  /** A fill reaches the order, its notification, and then its OCO group. */
  function Fulfil(d: Desk, r: nat, added: Figures): Desk {
    if r < |d.orders|
    then OcoCheck(Notify(Update(d, r, Executed(d.orders[r], added)), r), r)
    else d
  }

  // --------------------------------------------------------------- exits

  /** An exit never asks for more than the position holds. */
  function ExitRequest(d: Desk, r: nat): real {
    if r < |d.orders| then Min(d.orders[r].remaining, Held(d)) else 0.0
  }

  function ExitSize(d: Desk, m: Model, r: nat): real {
    if r >= |d.orders| then 0.0
    else
      var role := d.orders[r].role;
      var granted := Budgeted(d, role, ExitRequest(d, r));
      if m.step.Some? && m.step.value > 0.0 && role != Liquidation
      then FloorStep(granted, m.step.value) else granted
  }

  function ExitFill(d: Desk, m: Model, bar: Bar, r: nat, quantity: real, reference: real, liquidationFee: real): Fill
    requires r < |d.orders|
  {
    var o := d.orders[r];
    var volume := if o.role == EndOfData then 0.0 else bar.volume;
    var price := if o.role == Liquidation then reference
                 else Adjusted(o.buy, None, reference, Fraction(m, volume, quantity));
    var rate := if o.role == Liquidation then 0.0 else Rate(m, false, bar.timestamp);
    Fill(d.book.trade, false, o.buy, quantity, reference, price,
         SignedCost(o.buy, quantity, reference, price), Value(quantity, price * rate), liquidationFee)
  }

  /** An exit uses up liquidity, marks its bar, and cancels an entry still queued. */
  function RecordExit(d: Desk, bar: Bar, role: Role, quantity: real): Desk {
    CancelAlive(Spend(d, role, quantity).(exitBar := Some(bar.timestamp), lastExitRole := Some(role)), d.entry)
  }

  /** A signal close resizes or cancels the legs itself; any flat exit cancels a waiting signal. */
  function AfterExit(d: Desk, r: nat, role: Role): Desk {
    var legs := if role != Signal then d
                else if d.book.size != 0.0 then Resize(d)
                else CancelAlive(CancelAlive(d, d.stop), d.target);
    if legs.book.size == 0.0 && legs.signal != Some(r) then CancelAlive(legs, legs.signal) else legs
  }

  predicate Closes(d: Desk, r: nat) {
    r < |d.orders| && d.book.size != 0.0 && d.orders[r].buy == (d.book.size < 0.0)
  }

  /** The order trimmed to the position before an exit. */
  function Trimmed(d: Desk, r: nat): Desk {
    if r < |d.orders| then Update(d, r, d.orders[r].(remaining := ExitRequest(d, r))) else d
  }

  /** An exit of a known quantity, from its booking to its last consequence. */
  function ClosedBy(t: Desk, m: Model, bar: Bar, r: nat, quantity: real, reference: real, liquidationFee: real): Desk
    requires r < |t.orders|
  {
    var role := t.orders[r].role;
    var f := ExitFill(t, m, bar, r, quantity, reference, liquidationFee);
    AfterExit(RecordExit(Fulfil(BookFill(t, f), r, Tally(t.book, f)), bar, role, quantity), r, role)
  }

  function ExecuteExit(d: Desk, m: Model, bar: Bar, r: nat, reference: real, liquidationFee: real): Desk {
    if !Closes(d, r) then d
    else if ExitSize(d, m, r) <= 0.0 then Trimmed(d, r)
    else ClosedBy(Trimmed(d, r), m, bar, r, ExitSize(d, m, r), reference, liquidationFee)
  }

  // ---------------------------------------------------------- protection

  datatype Pick = Pick(ref: nat, reference: real)

  /**
   Which leg a bar takes, and at what reference: a known breach, then opening
   gaps (stop first), then intrabar touches, conservatively stop first.
   */
  function Select(long: bool, stopRef: nat, stop: real, target: Option<(nat, real)>, bar: Bar,
                  allowGap: bool, breach: Option<Pick>, openOnly: bool): Option<Pick> {
    var hit := target.Some?;
    if breach.Some? then breach
    else if allowGap && (if long then bar.open <= stop else bar.open >= stop) then Some(Pick(stopRef, bar.open))
    else if allowGap && hit && (if long then bar.open >= target.value.1 else bar.open <= target.value.1) then
      Some(Pick(target.value.0, bar.open))
    else if openOnly then None
    else if (if long then bar.low <= stop else bar.high >= stop) then Some(Pick(stopRef, stop))
    else if hit && (if long then bar.high >= target.value.1 else bar.low <= target.value.1) then
      Some(Pick(target.value.0, target.value.1))
    else None
  }

  /** Protection may act: no other exit this bar (a signal does not count), and past its activation. */
  predicate ProtectionMayAct(d: Desk, bar: Bar, breach: Option<Pick>) {
    && !(d.exitBar == Some(bar.timestamp) && d.lastExitRole != Some(Signal))
    && (breach == None && d.protectionActive.Some? ==> bar.timestamp >= d.protectionActive.value)
    && d.book.size != 0.0
    && IsAlive(d, d.stop)
  }

  function LiveTarget(d: Desk): Option<(nat, real)> {
    if IsAlive(d, d.target) then Some((d.target.value, d.orders[d.target.value].price)) else None
  }

  function Selection(d: Desk, bar: Bar, allowGap: bool, breach: Option<Pick>, openOnly: bool): Option<Pick> {
    if ProtectionMayAct(d, bar, breach)
    then Select(d.book.size > 0.0, d.stop.value, d.orders[d.stop.value].price, LiveTarget(d), bar, allowGap, breach, openOnly)
    else None
  }

  /** Execute a leg; a queued one leaves the queue first, and returns to its end if it survives. */
  function TakeLeg(d: Desk, m: Model, bar: Bar, pick: Pick): Desk {
    var queued := Queued(d.pending, pick.ref);
    var t := ExecuteExit(Remove(d, pick.ref), m, bar, pick.ref, pick.reference, 0.0);
    if queued && Alive(t.orders, pick.ref) then Append(t, pick.ref) else t
  }

  function MatchProtection(d: Desk, m: Model, bar: Bar, allowGap: bool, breach: Option<Pick>, openOnly: bool): Desk {
    match Selection(d, bar, allowGap, breach, openOnly)
    case None => d
    case Some(pick) => TakeLeg(d, m, bar, pick)
  }

  // -------------------------------------------------------- signal close

  /** A signal close is due once its decision and its latency have passed. */
  predicate SignalDue(m: Model, o: Order, timestamp: int) {
    && timestamp >= o.decidedAt
    && (m.proxy.Some? ==> timestamp >= o.decidedAt + m.proxy.value.fillDelay)
  }

  /** A due signal close leaves the queue, executes at the open, and returns if it survives. */
  function CloseAtOpen(d: Desk, m: Model, bar: Bar, r: nat): Desk {
    if r >= |d.orders| then d
    else
      var marked := Update(d, r, d.orders[r].(matchedAt := Some(bar.timestamp)));
      var t := ExecuteExit(Remove(marked, r), m, bar, r, bar.open, 0.0);
      if Alive(t.orders, r) then Append(t, r) else t
  }

  function MatchSignalOpen(d: Desk, m: Model, bar: Bar, r: nat): Desk {
    if r >= |d.orders| || d.orders[r].matchedAt == Some(bar.timestamp) || bar.timestamp <= d.orders[r].createdAt then d
    else if d.orders[r].positionId != d.book.trade || d.book.size <= 0.0 then Cancel(d, r)
    else
      var t := MatchProtection(d, m, bar, true, None, true);
      if t.book.size == 0.0 || !Alive(t.orders, r) || !SignalDue(m, d.orders[r], bar.timestamp) then t
      else CloseAtOpen(t, m, bar, r)
  }

  // -------------------------------------------------------------- entries

  datatype Sizing =
    | Idle
    | Refused(status: Status)
    | Sized(quantity: real, fill: real, price: real, rate: real, exitRate: real, fraction: real)

  /** Commissions of the open trade's entries so far. */
  function PaidCommissions(d: Desk): real {
    Total(d.book.fills, EntryCommission, d.book.trade)
  }

  /** The quantity the remaining stop-risk budget allows at this price. */
  function RiskQuantity(d: Desk, o: Order, stop: real, price: real, rate: real, exitRate: real, fraction: real): real {
    var stopFill := StopFill(o.buy, stop, fraction);
    var unit := UnitLoss(price, stopFill, rate, exitRate);
    if unit <= 0.0 then 0.0
    else Min(o.remaining,
             MaxQuantity(Max(0.0, RemainingBudget(o.budget, Held(d), d.book.price, stopFill, PaidCommissions(d), exitRate)), unit))
  }

  /** Cash an entry may use: the ledger, open profit unless on a spot market, less what the position ties up. */
  function AvailableCash(d: Desk, m: Model, reference: real): real
    requires d.book.leverage > 0.0
  {
    d.book.balance + (if m.spot then 0.0 else Value(d.book.size, reference - d.book.price))
    - Value(Held(d), d.book.price) / d.book.leverage
  }

  function RequiredCash(d: Desk, quantity: real, price: real, rate: real): real
    requires d.book.leverage > 0.0
  {
    Value(quantity, price) / d.book.leverage + Value(quantity, price * rate)
  }

  /** Cash Backtrader itself would be left with after the entry. */
  function CashAfter(d: Desk, o: Order, quantity: real, price: real, rate: real): real
    requires d.book.leverage > 0.0
  {
    d.book.cash - Collateral(if o.buy then quantity else -quantity, price, d.book.leverage) - Value(quantity, price * rate)
  }

  function EntryCap(o: Order): Option<real> {
    if o.kind == LimitOrder then Some(o.price) else None
  }

  /** A granted quantity, capped by risk, whole lots and what the account can pay for. */
  function Granted(d: Desk, m: Model, bar: Bar, o: Order, stop: real, granted: real, reference: real): Sizing
    requires d.book.leverage > 0.0
  {
    var fraction := Fraction(m, bar.volume, granted);
    var price := Adjusted(o.buy, EntryCap(o), reference, fraction);
    var rate, exitRate := Rate(m, o.kind == LimitOrder, bar.timestamp), Rate(m, false, bar.timestamp);
    var quantity := NormalizeLot(m, RiskQuantity(d, o, stop, price, rate, exitRate, fraction));
    if quantity == None then Refused(Rejected)
    else
      var fill := NormalizeLot(m, Min(granted, quantity.value));
      if fill == None || Min(fill.value, quantity.value) <= 0.0 then Refused(Rejected)
      else
        var taken := Min(fill.value, quantity.value);
        if RequiredCash(d, taken, price, rate) > AvailableCash(d, m, reference) then Refused(Margin)
        else if CashAfter(d, o, taken, price, rate) < 0.0 then Refused(Margin)
        else Sized(quantity.value, taken, price, rate, exitRate, fraction)
  }

  function SizeEntry(d: Desk, m: Model, bar: Bar, r: nat, reference: real): Sizing {
    if r >= |d.orders| || d.orders[r].setup == None || d.book.leverage <= 0.0 then Idle
    else
      var o := d.orders[r];
      var granted := Budgeted(d, EntryRole, o.remaining);
      if granted <= 0.0 then Idle else Granted(d, m, bar, o, o.setup.value.stop, granted, reference)
  }

  function EntryFill(d: Desk, r: nat, reference: real, s: Sizing): Fill
    requires r < |d.orders| && s.Sized?
  {
    Fill(d.book.trade, true, d.orders[r].buy, s.fill, reference, s.price,
         SignedCost(d.orders[r].buy, s.fill, reference, s.price), Value(s.fill, s.price * s.rate), 0.0)
  }

  function Leg(role: Role, buy: bool, kind: Kind, price: real, size: real, timestamp: int): Order {
    Order(role, buy, kind, price, Accepted, size, NOTHING, 0, timestamp, timestamp, None, 0.0, 0, None)
  }

  /** A fresh stop sized to the position and, unless disabled, its target in the same OCO group. */
  function PlaceBracket(d: Desk, long: bool, stop: real, target: Option<real>, timestamp: int): Desk {
    var s := |d.orders|;
    var stopped := Submit(d, Leg(StopLoss, !long, StopOrder, stop, Held(d), timestamp), None).(stop := Some(s));
    match target
    case None => stopped.(target := None)
    case Some(price) =>
      Submit(stopped, Leg(TakeProfit, !long, LimitOrder, price, Held(d), timestamp), Some(s)).(target := Some(s + 1))
  }

  /** After an entry fill: a first fill places the bracket, a later one resizes it. */
  function Protect(d: Desk, m: Model, bar: Bar, setup: Setup): Desk {
    if IsAlive(d, d.stop) then Resize(d)
    else PlaceBracket(d, setup.long, setup.stop, setup.target, bar.timestamp).(
      protectionActive := if m.proxy.Some? then Some(bar.timestamp + m.proxy.value.protectionDelay) else None)
  }

  /** The average fill already lies beyond a leg of the bracket. */
  function Breach(d: Desk, reference: real): Option<Pick> {
    if !IsAlive(d, d.stop) then None
    else
      var long, fill := d.book.size > 0.0, d.book.price;
      var stop := d.orders[d.stop.value].price;
      if (if long then fill <= stop else fill >= stop) then Some(Pick(d.stop.value, reference))
      else if d.target.Some? && d.target.value < |d.orders|
              && (if long then fill >= d.orders[d.target.value].price else fill <= d.orders[d.target.value].price)
      then Some(Pick(d.target.value, reference))
      else None
  }

  /** The entry fill itself, before protection reacts to it. */
  function Enter(d: Desk, r: nat, reference: real, s: Sizing): Desk
    requires r < |d.orders| && s.Sized?
  {
    var sized := Update(d, r, d.orders[r].(remaining := s.quantity));
    var f := EntryFill(d, r, reference, s);
    Spend(Fulfil(BookFill(sized, f), r, Tally(d.book, f)), EntryRole, s.fill)
  }

  function CancelRemainder(d: Desk, m: Model, r: nat): Desk {
    if Alive(d.orders, r) && m.proxy.Some? && m.proxy.value.cancelRemainder then Retire(d, r, Canceled) else d
  }

  /** What follows an entry fill: protection, a breach already known, an unwanted remainder. */
  function Answered(d: Desk, m: Model, bar: Bar, r: nat, setup: Setup, reference: real): Desk {
    var t := Protect(d, m, bar, setup);
    CancelRemainder(MatchProtection(t, m, bar, false, Breach(t, reference), false), m, r)
  }

  function ExecuteEntry(d: Desk, m: Model, bar: Bar, r: nat, reference: real): Desk {
    var s := SizeEntry(d, m, bar, r, reference);
    match s
    case Idle => d
    case Refused(status) => Retire(d, r, status)
    case Sized(_, _, _, _, _, _) =>
      if r >= |d.orders| || d.orders[r].setup == None then d
      else Answered(Enter(d, r, reference, s), m, bar, r, d.orders[r].setup.value, reference)
  }

  /** An entry waits out exits of its bar, its latency and its creation bar, and trades whole lots. */
  predicate EntryDue(d: Desk, m: Model, bar: Bar, o: Order) {
    && d.exitBar != Some(bar.timestamp)
    && (m.proxy.Some? ==> bar.timestamp >= o.decidedAt + m.proxy.value.fillDelay)
  }

  /** An entry of whole lots meets the bar: a market order not on its creation bar, others at their trigger. */
  function MetBar(d: Desk, m: Model, bar: Bar, r: nat): Desk {
    if r >= |d.orders| || (d.orders[r].kind == MarketOrder && bar.timestamp <= d.orders[r].createdAt) then d
    else
      match MatchReference(d.orders[r].kind, d.orders[r].buy, d.orders[r].price, bar)
      case None => d
      case Some(reference) => ExecuteEntry(d, m, bar, r, reference)
  }

  function TryEntry(d: Desk, m: Model, bar: Bar, r: nat): Desk {
    if r >= |d.orders| || !EntryDue(d, m, bar, d.orders[r]) then d
    else
      var lots := NormalizeLot(m, d.orders[r].remaining);
      if lots == None then Retire(d, r, Rejected)
      else MetBar(Update(d, r, d.orders[r].(remaining := lots.value)), m, bar, r)
  }

  function TryExec(d: Desk, m: Model, bar: Bar, r: nat): Desk {
    if r >= |d.orders| then d
    else
      match d.orders[r].role
      case Signal => MatchSignalOpen(d, m, bar, r)
      case StopLoss => MatchProtection(d, m, bar, true, None, false)
      case TakeProfit => MatchProtection(d, m, bar, true, None, false)
      case EntryRole => TryEntry(d, m, bar, r)
      case Liquidation => d
      case EndOfData => d
  }
}
