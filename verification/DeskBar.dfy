/**
 One bar of the realistic broker, from funding to notifications, and the
 strategy's turn after it.
 */
module DeskBar {
  import opened Wrappers
  import opened Rounding
  import opened StableSort
  import opened TradeBook
  import opened ExecutionPricing
  import opened ExecutionBroker
  import opened OcoPriority
  import opened DeskTypes
  import opened DeskExecution

  // ---------------------------------------------------------- queue pass

  /** Orders still ahead of the sentinel. */
  function Front(pending: seq<Option<nat>>): (f: seq<nat>) {
    if pending == [] || pending[0] == None then [] else [pending[0].value] + Front(pending[1..])
  }

  predicate GroupDone(d: Desk, r: nat) {
    r < |d.orders| && d.orders[r].group in d.done
  }

  /** One popped order: canceled if its OCO group is done, else tried, and requeued if it survives. */
  function Turn(d: Desk, m: Model, bar: Bar, r: nat): Desk {
    if GroupDone(d, r) then OcoCheck(Retire(d, r, Canceled), r)
    else
      var t := TryExec(d, m, bar, r);
      if Alive(t.orders, r) then Append(t, r) else t
  }

  function Popped(d: Desk): Desk
    requires d.pending != []
  {
    d.(pending := d.pending[1..])
  }

  // -------------------------------------------------------------- opening

  /** The volume budget of a bar, when a proxy limits it. */
  function BarBudget(m: Model, bar: Bar): Option<real> {
    if m.proxy.Some? then Some(Value(bar.volume, m.proxy.value.participation)) else None
  }

  function OpenDesk(d: Desk, m: Model, bar: Bar, due: seq<FundingRecord>): Desk {
    d.(liquidity := BarBudget(m, bar), book := if d.book.leverage > 0.0 then Settled(d.book, due) else d.book)
  }

  /** The first order of the queue, whose owner a liquidation order is submitted for. */
  predicate HasOwner(d: Desk) {
    exists r :: r in d.pending && r.Some?
  }

  /** Cancel each order of a snapshot of the queue. */
  function CancelEach(d: Desk, refs: seq<Option<nat>>): Desk
    decreases |refs|
  {
    if refs == [] then d
    else CancelEach(if refs[0].Some? then Cancel(d, refs[0].value) else d, refs[1..])
  }

  /** A mark price that liquidates, and the venue's fee on the liquidated notional. */
  datatype Mark = Mark(price: real, feeBps: real)

  function LiquidationOrder(d: Desk, mark: Mark, timestamp: int): Order {
    Order(Liquidation, d.book.size < 0.0, MarketOrder, mark.price, Accepted, Held(d), NOTHING, 0, timestamp, timestamp,
          None, 0.0, 0, None)
  }

  /** The venue's fee on the notional it liquidates. */
  function FeeAtMark(d: Desk, mark: Mark): real {
    Value(Held(d), mark.price) * mark.feeBps / 10000.0
  }

  /** A forced order is submitted and taken out of the queue at once. */
  function Forcing(d: Desk, o: Order): Desk {
    Remove(Submit(d, o, None), |d.orders|)
  }

  /** Cancel everything, close in full at the mark, charge the fee. */
  function Liquidate(d: Desk, m: Model, bar: Bar, mark: Option<Mark>): Desk {
    if mark == None || d.book.size == 0.0 then d
    else
      var cleared := CancelEach(d, d.pending);
      var t := Forcing(cleared, LiquidationOrder(cleared, mark.value, bar.timestamp));
      ExecuteExit(t, m, bar, |cleared.orders|, mark.value.price, FeeAtMark(d, mark.value))
  }

  /** Offer the open to every live signal close of a snapshot of the queue. */
  function SignalsAtOpen(d: Desk, m: Model, bar: Bar, refs: seq<Option<nat>>): Desk
    decreases |refs|
  {
    if refs == [] then d
    else
      var r := refs[0];
      var t := if r.Some? && Alive(d.orders, r.value) && d.orders[r.value].role == Signal
               then MatchSignalOpen(d, m, bar, r.value) else d;
      SignalsAtOpen(t, m, bar, refs[1..])
  }

  function RolePriority(orders: seq<Order>, r: Option<nat>): nat {
    if r == None || r.value >= |orders| then 2
    else match orders[r.value].role
      case StopLoss => 0
      case TakeProfit => 1
      case _ => 2
  }

  /** Stops first, then targets, then the rest, each in queue order. */
  function ByRole(orders: seq<Order>, pending: seq<Option<nat>>): seq<Option<nat>> {
    Sort((a: Option<nat>, b: Option<nat>) => RolePriority(orders, a) <= RolePriority(orders, b), pending)
  }

  /** The queue as the pass will walk it: sorted, opening protection first, then the sentinel. */
  function Prepared(d: Desk, bar: Bar): Desk {
    d.(done := {}, pending := Prioritized(d.orders, ByRole(d.orders, d.pending), bar) + [None])
  }
}
