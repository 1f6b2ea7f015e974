/**
 The state of the costed bracket broker and its strategy adapter, and the
 queue operations both perform on it. Orders are numbered by position and
 never forgotten; `pending` holds the numbers of queued orders, with `None`
 as the sentinel of a queue pass.
 */
module DeskTypes {
  import opened Wrappers
  import opened Rounding
  import opened TradeBook
  import opened ExecutionPricing

  datatype Role = EntryRole | StopLoss | TakeProfit | Signal | Liquidation | EndOfData

  datatype Status = Accepted | Partial | Completed | Canceled | Margin | Rejected

  /** An accepted trade idea; `target` is absent when take-profit is disabled. */
  datatype Setup = Setup(long: bool, kind: Kind, entryPrice: real, stop: real, target: Option<real>)

  /** Cumulative figures of an order: quantity, quote value, commission, profit. */
  datatype Figures = Figures(quantity: real, value: real, fee: real, pnl: real)

  const NOTHING := Figures(0.0, 0.0, 0.0, 0.0)

  function Plus(a: Figures, b: Figures): Figures {
    Figures(a.quantity + b.quantity, a.value + b.value, a.fee + b.fee, a.pnl + b.pnl)
  }

  datatype Order = Order(
    role: Role,
    buy: bool,
    kind: Kind,
    price: real,
    status: Status,
    remaining: real,
    figures: Figures,
    group: nat,
    createdAt: int,
    decidedAt: int,
    setup: Option<Setup>,
    budget: real,
    positionId: nat,
    matchedAt: Option<int>)

  /** What a notification carries: a snapshot of the order's status and cumulative figures. */
  datatype Notice = Notice(ref: nat, role: Role, status: Status, figures: Figures)

  function Snapshot(r: nat, o: Order, status: Status): Notice {
    Notice(r, o.role, status, o.figures)
  }

  datatype Proxy = Proxy(participation: real, fillDelay: int, protectionDelay: int, cancelRemainder: bool)

  /** The resolved execution model: costs, fees, lot step and the optional volume proxy. */
  datatype Model = Model(
    spreadBps: real,
    slippage: real -> real,
    feeBps: (bool, int) -> real,
    spot: bool,
    step: Option<real>,
    proxy: Option<Proxy>)

  datatype Desk = Desk(
    orders: seq<Order>,
    pending: seq<Option<nat>>,
    groups: map<nat, set<nat>>,
    done: set<nat>,
    notices: seq<Notice>,
    stop: Option<nat>,
    target: Option<nat>,
    entry: Option<nat>,
    cancelledEntry: Option<nat>,
    signal: Option<nat>,
    exitBar: Option<int>,
    lastExitRole: Option<Role>,
    protectionActive: Option<int>,
    liquidity: Option<real>,
    exitKeys: set<(nat, nat)>,
    book: Book)

  predicate Protective(role: Role) {
    role == StopLoss || role == TakeProfit
  }

  predicate Live(o: Order) {
    o.status == Accepted || o.status == Partial
  }

  predicate Alive(orders: seq<Order>, r: nat) {
    r < |orders| && Live(orders[r])
  }

  predicate IsAlive(d: Desk, r: Option<nat>) {
    r.Some? && Alive(d.orders, r.value)
  }

  predicate Queued(pending: seq<Option<nat>>, r: nat) {
    Some(r) in pending
  }

  // ------------------------------------------------------------- queue

  /** Those of `refs` that are queued. */
  function QueuedAmong(pending: seq<Option<nat>>, refs: set<nat>): set<nat> {
    set x | x in refs && Queued(pending, x)
  }

  /** The queue without the orders in `refs`. */
  function Without(pending: seq<Option<nat>>, refs: set<nat>): (p: seq<Option<nat>>)
    ensures forall x :: x in p <==> x in pending && (x.Some? ==> x.value !in refs)
    ensures |p| <= |pending|
  {
    if pending == [] then []
    else
      var keep := pending[0] == None || pending[0].value !in refs;
      (if keep then [pending[0]] else []) + Without(pending[1..], refs)
  }

  /** The queued orders of `refs`, last in the queue first. */
  function Backward(pending: seq<Option<nat>>, refs: set<nat>): (v: seq<nat>)
    ensures forall r :: r in v <==> r in refs && Queued(pending, r)
  {
    if pending == [] then []
    else
      var last := pending[|pending| - 1];
      assert pending == pending[..|pending| - 1] + [last];
      (if last.Some? && last.value in refs then [last.value] else []) + Backward(pending[..|pending| - 1], refs)
  }

  function NoticesFor(orders: seq<Order>, refs: seq<nat>, status: Status): (n: seq<Notice>)
    ensures |n| == |refs|
    ensures forall i | 0 <= i < |n| :: n[i].ref == refs[i] && n[i].status == status
  {
    seq(|refs|, i requires 0 <= i < |refs| =>
      if refs[i] < |orders| then Snapshot(refs[i], orders[refs[i]], status) else Notice(refs[i], EntryRole, status, NOTHING))
  }

  /** Every order of `refs` canceled. */
  function Cancelled(orders: seq<Order>, refs: set<nat>): (r: seq<Order>)
    ensures |r| == |orders|
    ensures forall i | 0 <= i < |r| :: r[i] == if i in refs then orders[i].(status := Canceled) else orders[i]
  {
    seq(|orders|, i requires 0 <= i < |orders| => if i in refs then orders[i].(status := Canceled) else orders[i])
  }

  function Update(d: Desk, r: nat, o: Order): Desk {
    if r < |d.orders| then d.(orders := d.orders[r := o]) else d
  }

  function Notify(d: Desk, r: nat): Desk {
    if r < |d.orders| then d.(notices := d.notices + [Snapshot(r, d.orders[r], d.orders[r].status)]) else d
  }

  /** End an order's life under `status` and report it. */
  function Retire(d: Desk, r: nat, status: Status): Desk {
    if r < |d.orders| then Notify(Update(d, r, d.orders[r].(status := status)), r) else d
  }

  function Append(d: Desk, r: nat): Desk {
    d.(pending := d.pending + [Some(r)])
  }

  function Remove(d: Desk, r: nat): Desk {
    d.(pending := Without(d.pending, {r}))
  }

  // ---------------------------------------------------------- OCO groups

  function Members(d: Desk, group: nat): set<nat> {
    if group in d.groups then d.groups[group] else {}
  }

  /** The group of a finished order is done: its queued members are canceled and reported. */
  function OcoComplete(d: Desk, r: nat): Desk {
    if r >= |d.orders| then d
    else
      var group := d.orders[r].group;
      var members := Members(d, group);
      d.(orders := Cancelled(d.orders, QueuedAmong(d.pending, members)),
         pending := Without(d.pending, members),
         groups := d.groups - {group},
         done := d.done + {group},
         notices := d.notices + NoticesFor(d.orders, Backward(d.pending, members), Canceled))
  }

  function Held(d: Desk): real {
    Abs(d.book.size)
  }

  function Resized(orders: seq<Order>, r: Option<nat>, quantity: real): (s: seq<Order>)
    ensures |s| == |orders|
    ensures forall i | 0 <= i < |s| ::
              s[i] == if r == Some(i) && Live(orders[i]) then orders[i].(remaining := quantity) else orders[i]
  {
    if r.Some? && Alive(orders, r.value) then orders[r.value := orders[r.value].(remaining := quantity)] else orders
  }

  /** Both live legs are resized to the position. */
  function Resize(d: Desk): Desk {
    d.(orders := Resized(Resized(d.orders, d.stop, Held(d)), d.target, Held(d)))
  }

  /** After a partial fill of a leg both legs are resized; any other end completes the group. */
  function OcoCheck(d: Desk, r: nat): Desk {
    if r >= |d.orders| then d
    else if d.orders[r].status == Partial then
      if Protective(d.orders[r].role) then Resize(d) else d
    else OcoComplete(d, r)
  }

  /** Only a queued order can be canceled; its whole group goes with it. */
  function Cancel(d: Desk, r: nat): Desk {
    if r < |d.orders| && Queued(d.pending, r)
    then OcoCheck(Retire(Remove(d, r), r, Canceled), r)
    else d
  }

  /** Cancel an order the adapter remembers, if it is still alive. */
  function CancelAlive(d: Desk, r: Option<nat>): Desk {
    if IsAlive(d, r) then Cancel(d, r.value) else d
  }

  /** Accept a new order: it is queued, reported, and joins its leader's OCO group or its own. */
  function Submit(d: Desk, o: Order, leader: Option<nat>): Desk {
    var r := |d.orders|;
    var group := if leader.Some? && leader.value < r then d.orders[leader.value].group else r;
    Notify(d.(orders := d.orders + [o.(group := group, status := Accepted)],
              pending := d.pending + [Some(r)],
              groups := d.groups[group := Members(d, group) + {r}]), r)
  }
}
