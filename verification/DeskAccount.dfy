/**
 The account the strategy is shown: the position the adapter books from the
 notifications it hears, one after the other, and closes when a trade ends.
 Most of what the broker does is silent: it fills nothing, and what it reports
 books nothing.
 */
module DeskAccount {
  import opened Wrappers
  import opened Rounding
  import opened TradeBook
  import opened ExecutionPricing
  import opened ExecutionBroker
  import opened DeskTypes
  import opened DeskExecution
  import opened DeskBar
  import opened DeskAdapter
  import opened Bookings

  const NO_POSITION := Position(0.0, 0.0, 0.0)

  /** What each order last reported, the position booked from it, and the trade it belongs to. */
  datatype Account = Account(notified: map<nat, Figures>, position: Position, trade: nat)

  function Known(a: Account, r: nat): Figures {
    if r in a.notified then a.notified[r] else NOTHING
  }

  /** The statuses an execution is notified with. */
  predicate Reports(status: Status) {
    status == Partial || status == Completed
  }

  /** What a notification that has grown books: an entry in any case, an exit only while it is partial. */
  function Rebooked(p: Position, before: Figures, n: Notice): Position {
    if n.figures.quantity - before.quantity <= 0.0 then p
    else if n.role == EntryRole then BookEntrySnapshot(p, before, n.figures)
    else if n.status == Partial then p.(quantity := p.quantity - (n.figures.quantity - before.quantity))
    else p
  }

  function HeardOne(a: Account, n: Notice): Account {
    if !Reports(n.status) then a
    else a.(notified := a.notified[n.ref := n.figures], position := Rebooked(a.position, Known(a, n.ref), n))
  }

  function Heard(a: Account, ns: seq<Notice>): Account {
    if ns == [] then a else HeardOne(Heard(a, ns[..|ns| - 1]), ns[|ns| - 1])
  }

  /** Notifications first, then the close of a trade that ended. */
  function Listened(a: Account, d: Desk): Account {
    var h := Heard(a, d.notices);
    if h.trade == d.book.trade then h else h.(position := NO_POSITION, trade := d.book.trade)
  }

  /** The account beside a run of the desk. */
  function Followed(a: Account, d: Desk, m: Model, inputs: seq<Input>): Account
    decreases |inputs|
  {
    if inputs == [] then a
    else
      var input := inputs[0];
      Followed(Listened(a, BrokerBar(d, m, input.bar, input.due, input.mark)), Step(d, m, input), m, inputs[1..])
  }

  function NewAccount(): Account {
    Account(map[], NO_POSITION, 1)
  }

  // ---------------------------------------------------------- invariants

  predicate WellFigured(f: Figures) {
    f == NOTHING || f.quantity > 0.0
  }

  /** Every order's figures are the ones last heard of it. */
  ghost predicate Current(h: Account, orders: seq<Order>) {
    && (forall r: nat | r < |orders| :: Known(h, r) == orders[r].figures && WellFigured(orders[r].figures))
    && (forall r: nat | r in h.notified :: r < |orders|)
  }

  /** The position shown is the one held, unless its trade has just ended. */
  predicate Displays(h: Account, b: Book) {
    if h.trade == b.trade then h.position == HeldPosition(b) else b.size == 0.0
  }

  /** Beside an open position a live entry has begun to fill. */
  ghost predicate Begun(d: Desk) {
    d.book.size != 0.0 ==>
      forall r: nat | Alive(d.orders, r) && d.orders[r].role == EntryRole :: d.orders[r].figures != NOTHING
  }

  /** A live signal close asks for the whole position. */
  ghost predicate SignalsCover(d: Desk) {
    forall r: nat | Alive(d.orders, r) && d.orders[r].role == Signal :: d.orders[r].remaining >= Held(d)
  }

  predicate FlatSince(d: Desk, timestamp: int) {
    d.book.size == 0.0 && d.exitBar == Some(timestamp)
  }

  /** An exit is reported as completed only when it has left the account flat. */
  predicate CompletesFlat(d: Desk, timestamp: int) {
    forall n | n in d.notices && n.status == Completed && n.role != EntryRole :: FlatSince(d, timestamp)
  }

  /** Hearing the notifications given so far, `a` would know the desk as it is. */
  ghost predicate Told(a: Account, d: Desk, timestamp: int) {
    var h := Heard(a, d.notices);
    && Sound(d.book)
    && Current(h, d.orders) && Displays(h, d.book)
    && Begun(d) && SignalsCover(d) && CompletesFlat(d, timestamp)
    && (a.trade != d.book.trade ==> FlatSince(d, timestamp))
  }

  // -------------------------------------------------------------- hearing

  lemma {:induction false} HeardKeepsTrade(a: Account, ns: seq<Notice>)
    ensures Heard(a, ns).trade == a.trade
  {
    if ns != [] {
      HeardKeepsTrade(a, ns[..|ns| - 1]);
    }
  }

  lemma HeardNext(a: Account, ns: seq<Notice>, n: Notice)
    ensures Heard(a, ns + [n]) == HeardOne(Heard(a, ns), n)
  {
    assert (ns + [n])[..|ns|] == ns;
  }

  predicate SaysNothing(ns: seq<Notice>) {
    forall n | n in ns :: !Reports(n.status)
  }

  lemma {:induction false} HeardNothing(a: Account, ns: seq<Notice>, more: seq<Notice>)
    requires SaysNothing(more)
    ensures Heard(a, ns + more) == Heard(a, ns)
  {
    if more == [] {
      assert ns + more == ns;
    } else {
      var last := more[|more| - 1];
      var rest := more[..|more| - 1];
      assert ns + more == (ns + rest) + [last];
      assert forall n | n in rest :: n in more;
      HeardNothing(a, ns, rest);
      HeardNext(a, ns + rest, last);
      assert last in more;
    }
  }

  // --------------------------------------------------------------- silence

  /** Nothing is filled: an order keeps role and figures, never comes back to life, and a signal's size. */
  predicate SilentOrder(a: Order, b: Order, held: real) {
    && b.role == a.role && b.figures == a.figures && (Live(b) ==> Live(a))
    && (b.role == Signal ==> b.remaining >= a.remaining || b.remaining >= held)
  }

  /** An order that was not there before has filled nothing, and is an entry only on a flat account. */
  predicate UnfilledOrder(o: Order, held: real) {
    && o.figures == NOTHING && (o.role == EntryRole ==> held == 0.0)
    && (o.role == Signal ==> o.remaining >= held)
  }

  predicate SilentOrders(a: seq<Order>, b: seq<Order>, held: real) {
    && |a| <= |b|
    && (forall i | 0 <= i < |a| :: SilentOrder(a[i], b[i], held))
    && (forall i | |a| <= i < |b| :: UnfilledOrder(b[i], held))
  }

  ghost predicate Silent(d: Desk, e: Desk) {
    && e.book == d.book && e.exitBar == d.exitBar
    && SilentOrders(d.orders, e.orders, Held(d))
    && d.notices <= e.notices && SaysNothing(e.notices[|d.notices|..])
  }

  lemma SilentOrdersThen(a: seq<Order>, b: seq<Order>, c: seq<Order>, held: real)
    requires SilentOrders(a, b, held) && SilentOrders(b, c, held)
    ensures SilentOrders(a, c, held)
  {
    forall i | 0 <= i < |a| ensures SilentOrder(a[i], c[i], held) {
      assert SilentOrder(a[i], b[i], held) && SilentOrder(b[i], c[i], held);
    }
    forall i | |a| <= i < |c| ensures UnfilledOrder(c[i], held) {
      if i < |b| {
        assert UnfilledOrder(b[i], held) && SilentOrder(b[i], c[i], held);
      }
    }
  }

  lemma SilentThen(d: Desk, e: Desk, f: Desk)
    requires Silent(d, e) && Silent(e, f)
    ensures Silent(d, f)
  {
    SilentOrdersThen(d.orders, e.orders, f.orders, Held(d));
    assert f.notices[|d.notices|..] == e.notices[|d.notices|..] + f.notices[|e.notices|..];
  }

  lemma SilentCurrent(h: Account, a: seq<Order>, b: seq<Order>, held: real)
    requires Current(h, a) && SilentOrders(a, b, held)
    ensures Current(h, b)
  {
    forall r: nat | r < |b| ensures Known(h, r) == b[r].figures && WellFigured(b[r].figures) {
      if r < |a| {
        assert SilentOrder(a[r], b[r], held);
      } else {
        assert UnfilledOrder(b[r], held);
      }
    }
  }

  lemma SilentRules(d: Desk, e: Desk)
    requires Silent(d, e) && Begun(d) && SignalsCover(d)
    ensures Begun(e) && SignalsCover(e)
  {
    forall r: nat | Alive(e.orders, r)
      ensures e.orders[r].role == Signal ==> e.orders[r].remaining >= Held(e)
      ensures e.orders[r].role == EntryRole && e.book.size != 0.0 ==> e.orders[r].figures != NOTHING
    {
      if r < |d.orders| {
        assert SilentOrder(d.orders[r], e.orders[r], Held(d));
        assert Alive(d.orders, r);
      } else {
        assert UnfilledOrder(e.orders[r], Held(d));
      }
    }
  }

  /** Silence leaves the account told. */
  lemma SilentTold(a: Account, d: Desk, e: Desk, timestamp: int)
    requires Told(a, d, timestamp) && Silent(d, e)
    ensures Told(a, e, timestamp)
  {
    var more := e.notices[|d.notices|..];
    assert e.notices == d.notices + more;
    HeardNothing(a, d.notices, more);
    SilentCurrent(Heard(a, d.notices), d.orders, e.orders, Held(d));
    SilentRules(d, e);
    forall n | n in e.notices && n.status == Completed && n.role != EntryRole ensures FlatSince(e, timestamp) {
      assert n in more ==> !Reports(n.status);
      assert n in d.notices;
    }
  }
}
