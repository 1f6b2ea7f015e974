/**
 The realistic broker as it runs: orders, queue, OCO groups and notifications
 updated in place. Each method is proved equal to the desk function it
 implements, so what is proved of the desk holds of the broker.
 */
module CostedBroker {
  import opened Wrappers
  import opened Rounding
  import opened TradeBook
  import opened ExecutionPricing
  import opened StopRisk
  import opened ExecutionBroker
  import opened OcoPriority
  import opened DeskTypes
  import opened DeskExecution
  import opened DeskBar
  import opened DeskStructure
  import opened DeskSafety
  import opened DeskSignal
  import opened DeskEntry
  import opened DeskSteps
  import opened DeskPass
  import opened DeskOpening
  import opened DeskAdapter
  import opened DeskHearing

  lemma {:induction false} BackwardCons(x: Option<nat>, q: seq<Option<nat>>, refs: set<nat>)
    ensures Backward([x] + q, refs) == Backward(q, refs) + (if x.Some? && x.value in refs then [x.value] else [])
  {
    var p := [x] + q;
    if q == [] {
      assert p[..0] == [];
    } else {
      assert p[..|p| - 1] == [x] + q[..|q| - 1];
      BackwardCons(x, q[..|q| - 1], refs);
    }
  }

  lemma NoticesForAppend(orders: seq<Order>, refs: seq<nat>, r: nat, status: Status)
    requires r < |orders|
    ensures NoticesFor(orders, refs + [r], status) == NoticesFor(orders, refs, status) + [Snapshot(r, orders[r], status)]
  {
  }

  /** The reverse sweep has dealt with the queue from position `i` on. */
  ghost predicate Swept(queue: seq<Option<nat>>, table: seq<Order>, told: seq<Notice>, members: set<nat>, i: nat,
                        pending: seq<Option<nat>>, orders: seq<Order>, notices: seq<Notice>)
  {
    && i <= |queue|
    && pending == queue[..i] + Without(queue[i..], members)
    && orders == Cancelled(table, QueuedAmong(queue[i..], members))
    && notices == told + NoticesFor(table, Backward(queue[i..], members), Canceled)
  }

  lemma SweepBegins(queue: seq<Option<nat>>, table: seq<Order>, told: seq<Notice>, members: set<nat>)
    ensures Swept(queue, table, told, members, |queue|, queue, table, told)
  {
    assert queue[..|queue|] == queue && queue[|queue|..] == [];
    assert QueuedAmong(queue[|queue|..], members) == {};
    assert Cancelled(table, {}) == table;
    assert told + NoticesFor(table, [], Canceled) == told;
  }

  predicate Taken(x: Option<nat>, members: set<nat>) {
    x.Some? && x.value in members
  }

  /** Position `i` of the queue: kept, or deleted, it leaves the rest of the sweep alone. */
  lemma SweepQueue(queue: seq<Option<nat>>, members: set<nat>, i: nat, pending: seq<Option<nat>>)
    requires i < |queue| && pending == queue[..i + 1] + Without(queue[i + 1..], members)
    ensures i < |pending| && pending[i] == queue[i]
    ensures !Taken(queue[i], members) ==> pending == queue[..i] + Without(queue[i..], members)
    ensures Taken(queue[i], members) ==> pending[..i] + pending[i + 1..] == queue[..i] + Without(queue[i..], members)
  {
    var rest := queue[i + 1..];
    assert queue[i..] == [queue[i]] + rest;
    assert queue[i..][1..] == rest;
    assert queue[..i + 1] == queue[..i] + [queue[i]];
    var kept := Without(rest, members);
    assert pending == queue[..i] + ([queue[i]] + kept);
    assert pending[..i] == queue[..i] && pending[i + 1..] == kept;
  }

  lemma SweepKeeps(queue: seq<Option<nat>>, table: seq<Order>, told: seq<Notice>, members: set<nat>, i: nat,
                   pending: seq<Option<nat>>, orders: seq<Order>, notices: seq<Notice>)
    requires i < |queue| && Swept(queue, table, told, members, i + 1, pending, orders, notices)
    requires !Taken(queue[i], members)
    ensures i < |pending| && pending[i] == queue[i]
    ensures Swept(queue, table, told, members, i, pending, orders, notices)
  {
    SweepQueue(queue, members, i, pending);
    SweepPasses(queue, members, i);
  }

  /** An entry of the queue outside the group adds nothing to what is canceled or reported. */
  lemma SweepPasses(queue: seq<Option<nat>>, members: set<nat>, i: nat)
    requires i < |queue| && !Taken(queue[i], members)
    ensures Backward(queue[i..], members) == Backward(queue[i + 1..], members)
    ensures QueuedAmong(queue[i..], members) == QueuedAmong(queue[i + 1..], members)
  {
    var rest := queue[i + 1..];
    assert queue[i..] == [queue[i]] + rest;
    BackwardCons(queue[i], rest, members);
    assert forall x: nat | x in members :: Queued(queue[i..], x) <==> Queued(rest, x);
  }

  lemma SweepTakes(queue: seq<Option<nat>>, table: seq<Order>, told: seq<Notice>, members: set<nat>, i: nat,
                   pending: seq<Option<nat>>, orders: seq<Order>, notices: seq<Notice>, x: nat)
    requires i < |queue| && Swept(queue, table, told, members, i + 1, pending, orders, notices)
    requires queue[i] == Some(x) && x in members && x < |table|
    ensures i < |pending| && pending[i] == queue[i] && |orders| == |table| && orders[x].role == table[x].role && orders[x].figures == table[x].figures
    ensures Swept(queue, table, told, members, i, pending[..i] + pending[i + 1..],
                  orders[x := orders[x].(status := Canceled)], notices + [Snapshot(x, table[x], Canceled)])
  {
    SweepQueue(queue, members, i, pending);
    SweepReports(queue, table, told, members, i, notices, x);
    SweepCancels(queue, table, members, i, orders, x);
  }

  lemma SweepReports(queue: seq<Option<nat>>, table: seq<Order>, told: seq<Notice>, members: set<nat>, i: nat,
                     notices: seq<Notice>, x: nat)
    requires i < |queue| && queue[i] == Some(x) && x in members && x < |table|
    requires notices == told + NoticesFor(table, Backward(queue[i + 1..], members), Canceled)
    ensures notices + [Snapshot(x, table[x], Canceled)] == told + NoticesFor(table, Backward(queue[i..], members), Canceled)
  {
    var rest := queue[i + 1..];
    assert queue[i..] == [queue[i]] + rest;
    BackwardCons(queue[i], rest, members);
    NoticesForAppend(table, Backward(rest, members), x, Canceled);
    var some, one := NoticesFor(table, Backward(rest, members), Canceled), [Snapshot(x, table[x], Canceled)];
    assert (told + some) + one == told + (some + one);
  }

  lemma CancelledPlus(table: seq<Order>, refs: set<nat>, x: nat)
    requires x < |table|
    ensures var orders := Cancelled(table, refs);
            orders[x := orders[x].(status := Canceled)] == Cancelled(table, refs + {x})
  {
  }

  lemma SweepCancels(queue: seq<Option<nat>>, table: seq<Order>, members: set<nat>, i: nat, orders: seq<Order>, x: nat)
    requires i < |queue| && queue[i] == Some(x) && x in members && x < |table|
    requires orders == Cancelled(table, QueuedAmong(queue[i + 1..], members))
    ensures |orders| == |table|
    ensures orders[x := orders[x].(status := Canceled)] == Cancelled(table, QueuedAmong(queue[i..], members))
  {
    SweepAdds(queue, members, i, x);
    CancelledPlus(table, QueuedAmong(queue[i + 1..], members), x);
  }

  lemma SweepAdds(queue: seq<Option<nat>>, members: set<nat>, i: nat, x: nat)
    requires i < |queue| && queue[i] == Some(x) && x in members
    ensures QueuedAmong(queue[i..], members) == QueuedAmong(queue[i + 1..], members) + {x}
  {
    assert queue[i..] == [queue[i]] + queue[i + 1..];
    assert forall y: nat :: Queued(queue[i..], y) <==> y == x || Queued(queue[i + 1..], y);
  }

  lemma SweepEnds(queue: seq<Option<nat>>, table: seq<Order>, told: seq<Notice>, members: set<nat>,
                  pending: seq<Option<nat>>, orders: seq<Order>, notices: seq<Notice>)
    requires Swept(queue, table, told, members, 0, pending, orders, notices)
    ensures pending == Without(queue, members)
    ensures orders == Cancelled(table, QueuedAmong(queue, members))
    ensures notices == told + NoticesFor(table, Backward(queue, members), Canceled)
  {
    assert queue[0..] == queue && queue[..0] == [];
  }

  /** The queue names existing orders only. */
  ghost predicate InRange(pending: seq<Option<nat>>, n: nat) {
    forall r: nat | Queued(pending, r) :: r < n
  }

  lemma WithoutInRange(pending: seq<Option<nat>>, refs: set<nat>, n: nat)
    requires InRange(pending, n)
    ensures InRange(Without(pending, refs), n)
  {
    forall r: nat | Queued(Without(pending, refs), r) ensures r < n {
      assert Queued(pending, r);
    }
  }

  /** The desk without the queued members of a group, each canceled and reported. */
  function SweptDesk(d: Desk, members: set<nat>): Desk {
    d.(orders := Cancelled(d.orders, QueuedAmong(d.pending, members)),
       pending := Without(d.pending, members),
       notices := d.notices + NoticesFor(d.orders, Backward(d.pending, members), Canceled))
  }

  lemma AppendInRange(pending: seq<Option<nat>>, r: nat, n: nat)
    requires InRange(pending, n) && r < n
    ensures InRange(pending + [Some(r)], n)
  {
    forall x: nat | Queued(pending + [Some(r)], x) ensures x < n {
      assert x == r || Queued(pending, x);
    }
  }

  lemma SubmitInRange(pending: seq<Option<nat>>, n: nat)
    requires InRange(pending, n)
    ensures InRange(pending + [Some(n)], n + 1)
  {
    forall x: nat | Queued(pending + [Some(n)], x) ensures x < n + 1 {
      assert x == n || Queued(pending, x);
    }
  }

  /** If the signal close is due once gaps are dealt with, it is in the queue it will be taken from. */
  predicate TakesQueued(d: Desk, m: Model, bar: Bar, r: nat)
    requires r < |d.orders|
  {
    var t := MatchProtection(d, m, bar, true, None, true);
    Alive(t.orders, r) && SignalDue(m, d.orders[r], bar.timestamp)
    && d.orders[r].matchedAt != Some(bar.timestamp) && bar.timestamp > d.orders[r].createdAt
    ==> Queued(t.pending, r)
  }

  /** A signal close that is due when it is met is still in the queue it is about to be taken from. */
  lemma DueIsQueued(d: Desk, m: Model, bar: Bar, r: nat)
    requires Alive(d.orders, r) && d.orders[r].role == Signal
    requires Safe(d, m, bar.timestamp, {}) || (Safe(d, m, bar.timestamp, {r}) && SignalsSettled(d, m, bar))
    ensures TakesQueued(d, m, bar, r)
  {
    if Safe(d, m, bar.timestamp, {}) {
      MatchProtectionSafe(d, m, bar, {}, true, None, true);
    } else {
      assert SettledSignal(d, m, bar, d.orders[r]);
    }
  }

  /** An entry fill never nets a position to nothing. */
  lemma EntryOpens(d: Desk, m: Model, timestamp: int, r: nat, f: Fill)
    requires EntryInHand(d, m, timestamp, r) && f.buy == d.orders[r].buy && f.size > 0.0
    ensures d.book.size + Signed(f) != 0.0
  {
    EntryFacts(d, m, timestamp, r);
  }

  lemma PoppedInRange(pending: seq<Option<nat>>, n: nat)
    requires InRange(pending, n) && pending != []
    ensures InRange(pending[1..], n)
  {
    forall x: nat | Queued(pending[1..], x) ensures x < n {
      assert Queued(pending, x);
    }
  }

  /** One iteration of the walk: what the turn may rely on, and what it leaves for the next. */
  lemma WalkStep(d: Desk, m: Model, bar: Bar)
    requires None in d.pending && d.pending[0].Some? && Safe(d, m, bar.timestamp, {}) && SignalsSettled(d, m, bar)
    ensures var r := d.pending[0].value;
            && Safe(Popped(d), m, bar.timestamp, {r}) && Alive(d.orders, r) && SignalsSettled(Popped(d), m, bar)
    ensures var e := Turn(Popped(d), m, bar, d.pending[0].value);
            && Safe(e, m, bar.timestamp, {}) && SignalsSettled(e, m, bar)
            && None in e.pending && |Front(e.pending)| < |Front(d.pending)|
            && Pass(e, m, bar) == Pass(d, m, bar)
  {
    PoppedSafe(d, m, bar.timestamp);
    PoppedSettles(d, m, bar);
    TurnSafe(Popped(d), m, bar, d.pending[0].value);
    TurnNarrows(d, m, bar);
  }

  lemma CancelKeepsTable(d: Desk, r: nat)
    ensures |Cancel(d, r).orders| == |d.orders|
  {
  }

  lemma PreparedInRange(d: Desk, bar: Bar)
    requires InRange(d.pending, |d.orders|) && Distinct(d.pending) && None !in d.pending
    ensures InRange(Prepared(d, bar).pending, |d.orders|)
  {
    PreparedQueue(d, bar);
    forall x: nat | Queued(Prepared(d, bar).pending, x) ensures x < |d.orders| {
      assert Queued(d.pending, x);
    }
  }

  lemma BarHasOwner(d: Desk, m: Model, timestamp: int)
    requires Safe(d, m, timestamp, {})
    ensures d.book.size != 0.0 ==> HasOwner(d)
  {
    if d.book.size != 0.0 {
      LiquidationHasOwner(d, m, timestamp);
    }
  }

  /** The funding records consumed since the cursor stood at `first`. */
  ghost function DueBetween(execution: EvidenceExecution, first: nat): seq<FundingRecord>
    reads execution
  {
    if first <= execution.fundingCursor <= |execution.records| then execution.records[first..execution.fundingCursor] else []
  }

  /** What signal closes and the walk may rely on. */
  lemma MatchPlan(d: Desk, m: Model, bar: Bar)
    requires Safe(d, m, bar.timestamp, {}) && None !in d.pending
    ensures var s := SignalsAtOpen(d, m, bar, d.pending);
            && Distinct(s.pending) && None !in s.pending
            && var p := Prepared(s, bar);
               Safe(p, m, bar.timestamp, {}) && SignalsSettled(p, m, bar) && None in p.pending
  {
    SignalsAtOpenSafe(d, m, bar, d.pending);
    PreparedSafe(SignalsAtOpen(d, m, bar, d.pending), m, bar);
  }

  /** What liquidation and matching may rely on. */
  lemma BarPlan(d: Desk, m: Model, bar: Bar, due: seq<FundingRecord>, mark: Option<Mark>)
    requires Safe(d, m, bar.timestamp, {}) && None !in d.pending
    ensures var o := OpenDesk(d, m, bar, due);
            && (o.book.size != 0.0 ==> HasOwner(o))
            && var l := Liquidate(o, m, bar, mark);
               Safe(l, m, bar.timestamp, {}) && None !in l.pending
  {
    OpenDeskSafe(d, m, bar, due);
    BarHasOwner(OpenDesk(d, m, bar, due), m, bar.timestamp);
    BarOpens(d, m, bar, due, mark);
  }

  class RealisticBroker {
    const model: Model
    const account: ExecutionCostBroker
    const execution: EvidenceExecution
    var orders: seq<Order>
    var pending: seq<Option<nat>>
    var groups: map<nat, set<nat>>
    var done: set<nat>
    var notices: seq<Notice>
    var stopOrder: Option<nat>
    var targetOrder: Option<nat>
    var entryOrder: Option<nat>
    var cancelledEntry: Option<nat>
    var signalOrder: Option<nat>
    var exitBar: Option<int>
    var lastExitRole: Option<Role>
    var protectionActive: Option<int>
    var liquidity: Option<real>
    var exitKeys: set<(nat, nat)>

    /** The desk this broker and its account hold. */
    ghost function State(): Desk
      reads this, account, account.ledger
    {
      Desk(orders, pending, groups, done, notices, stopOrder, targetOrder, entryOrder, cancelledEntry, signalOrder,
           exitBar, lastExitRole, protectionActive, liquidity, exitKeys, account.Contents())
    }

    ghost predicate Valid()
      reads this, account, account.ledger
    {
      account.Kept() && InRange(pending, |orders|)
    }

    constructor (model: Model, capital: real, leverage: real, records: seq<FundingRecord>)
      requires leverage > 0.0
      ensures Valid() && fresh(account) && fresh(account.ledger) && fresh(execution)
      ensures this.model == model && State() == Fresh(capital, leverage) && account.Valid()
      ensures execution.Valid() && execution.records == records && execution.fundingCursor == 0
    {
      this.model := model;
      account := new ExecutionCostBroker(capital, leverage);
      execution := new EvidenceExecution(records);
      orders, pending, groups, done, notices := [], [], map[], {}, [];
      stopOrder, targetOrder, entryOrder, cancelledEntry, signalOrder := None, None, None, None, None;
      exitBar, lastExitRole, protectionActive, liquidity, exitKeys := None, None, None, None, {};
    }

    // ------------------------------------------------------ queue editing

    method NotifyOrder(r: nat)
      requires Valid() && r < |orders|
      modifies this`notices
      ensures Valid() && State() == Notify(old(State()), r)
    {
      notices := notices + [Snapshot(r, orders[r], orders[r].status)];
    }

    /** End an order's life and report it. */
    method EndOrderAs(r: nat, status: Status)
      requires Valid() && r < |orders|
      modifies this`orders, this`notices
      ensures Valid() && State() == Retire(old(State()), r, status)
    {
      orders := orders[r := orders[r].(status := status)];
      NotifyOrder(r);
    }

    /** Delete the queued members from the queue, last first, cancel and report each. */
    method SweepMembers(members: set<nat>)
      requires Valid()
      modifies this`orders, this`pending, this`notices
      ensures Valid() && State() == SweptDesk(old(State()), members)
    {
      ghost var queue, table, told := pending, orders, notices;
      var i := |pending|;
      SweepBegins(queue, table, told, members);
      while i > 0
        invariant 0 <= i <= |queue|
        invariant Swept(queue, table, told, members, i, pending, orders, notices)
      {
        i := i - 1;
        SweepAt(i, members, queue, table, told);
      }
      SweepEnds(queue, table, told, members, pending, orders, notices);
      WithoutInRange(queue, members, |table|);
    }

    /** One step of the sweep: a member is deleted, canceled and reported. */
    method SweepAt(i: nat, members: set<nat>, ghost queue: seq<Option<nat>>, ghost table: seq<Order>, ghost told: seq<Notice>)
      requires i < |queue| && InRange(queue, |table|)
      requires Swept(queue, table, told, members, i + 1, pending, orders, notices)
      modifies this`orders, this`pending, this`notices
      ensures Swept(queue, table, told, members, i, pending, orders, notices)
    {
      SweepQueue(queue, members, i, pending);
      var o := pending[i];
      if o.Some? && o.value in members {
        assert Queued(queue, o.value);
        SweepTakes(queue, table, told, members, i, pending, orders, notices, o.value);
        pending := pending[..i] + pending[i + 1..];
        orders := orders[o.value := orders[o.value].(status := Canceled)];
        notices := notices + [Snapshot(o.value, orders[o.value], Canceled)];
      } else {
        SweepKeeps(queue, table, told, members, i, pending, orders, notices);
      }
    }

    /** The group leaves the table of groups and is done. */
    method CloseGroup(group: nat) returns (members: set<nat>)
      modifies this`groups, this`done
      ensures members == Members(old(State()), group)
      ensures State() == old(State()).(groups := old(groups) - {group}, done := old(done) + {group})
    {
      members := if group in groups then groups[group] else {};
      groups := groups - {group};
      done := done + {group};
    }

    /** The group of a finished order is done before its queued members are dealt with. */
    method CompleteGroup(r: nat)
      requires Valid() && r < |orders|
      modifies this`orders, this`pending, this`groups, this`done, this`notices
      ensures Valid() && State() == OcoComplete(old(State()), r)
    {
      var members := CloseGroup(orders[r].group);
      SweepMembers(members);
    }

    // --------------------------------------------------------- OCO guard

    method ResizeLeg(r: Option<nat>)
      requires Valid()
      modifies this`orders
      ensures Valid() && State() == old(State()).(orders := Resized(old(orders), r, Held(old(State()))))
    {
      if r.Some? && Alive(orders, r.value) {
        orders := orders[r.value := orders[r.value].(remaining := Abs(account.size))];
      }
    }

    /** Both live legs are resized to the position. */
    method ResizeProtection()
      requires Valid()
      modifies this`orders
      ensures Valid() && State() == Resize(old(State()))
    {
      ResizeLeg(stopOrder);
      ResizeLeg(targetOrder);
    }

    /** A partly filled leg resizes its sibling; any other end completes the group. */
    method CheckOco(r: nat)
      requires Valid() && r < |orders|
      modifies this`orders, this`pending, this`groups, this`done, this`notices
      ensures Valid() && State() == OcoCheck(old(State()), r)
    {
      if orders[r].status == Partial {
        if Protective(orders[r].role) {
          ResizeProtection();
        }
        return;
      }
      CompleteGroup(r);
    }

    method TakeOut(r: nat) returns (removed: bool)
      requires Valid()
      modifies this`pending
      ensures Valid() && State() == Remove(old(State()), r) && removed == Queued(old(pending), r)
    {
      WithoutInRange(pending, {r}, |orders|);
      removed := Some(r) in pending;
      pending := Without(pending, {r});
    }

    method PutLast(r: nat)
      requires Valid() && r < |orders|
      modifies this`pending
      ensures Valid() && State() == Append(old(State()), r)
    {
      AppendInRange(pending, r, |orders|);
      pending := pending + [Some(r)];
    }

    /** Only a queued order can be canceled; its group goes with it. */
    method CancelOrder(r: nat) returns (canceled: bool)
      requires Valid() && r < |orders|
      modifies this`orders, this`pending, this`groups, this`done, this`notices
      ensures Valid() && State() == Cancel(old(State()), r) && canceled == Queued(old(pending), r)
    {
      if Some(r) !in pending {
        return false;
      }
      canceled := TakeOut(r);
      EndOrderAs(r, Canceled);
      CheckOco(r);
    }

    method CancelIfAlive(r: Option<nat>)
      requires Valid()
      modifies this`orders, this`pending, this`groups, this`done, this`notices
      ensures Valid() && State() == CancelAlive(old(State()), r)
    {
      if r.Some? && Alive(orders, r.value) {
        var _ := CancelOrder(r.value);
      }
    }

    /** A new order is queued, reported, and joins its leader's OCO group or its own. */
    method SubmitOrder(o: Order, leader: Option<nat>) returns (r: nat)
      requires Valid()
      modifies this`orders, this`pending, this`groups, this`notices
      ensures Valid() && State() == Submit(old(State()), o, leader) && r == |old(orders)| && |orders| == r + 1
    {
      r := |orders|;
      var group := if leader.Some? && leader.value < r then orders[leader.value].group else r;
      Admit(o.(group := group, status := Accepted));
      NotifyOrder(r);
    }

    /** A new order enters the table, the queue and its group. */
    method Admit(o: Order)
      requires Valid()
      modifies this`orders, this`pending, this`groups
      ensures Valid() && |orders| == |old(orders)| + 1
      ensures var d, r := old(State()), |old(orders)|;
              State() == d.(orders := d.orders + [o], pending := d.pending + [Some(r)],
                            groups := d.groups[o.group := Members(d, o.group) + {r}])
    {
      Join(o.group, |orders|);
      Enlist(o);
    }

    /** A new order is the last of the table and of the queue. */
    method Enlist(o: Order)
      requires Valid()
      modifies this`orders, this`pending
      ensures Valid() && orders == old(orders) + [o] && pending == old(pending) + [Some(|old(orders)|)]
    {
      SubmitInRange(pending, |orders|);
      pending := pending + [Some(|orders|)];
      orders := orders + [o];
    }

    method Join(group: nat, r: nat)
      modifies this`groups
      ensures groups == old(groups)[group := Members(old(State()), group) + {r}]
    {
      var mates := if group in groups then groups[group] else {};
      groups := groups[group := mates + {r}];
    }

    // ------------------------------------------------------------- fills

    /** The books' part of a fill. */
    method BookTheFill(f: Fill, timestamp: int)
      requires Valid() && (f.entry ==> f.liquidationFee == 0.0 && account.size + Signed(f) != 0.0)
      modifies account, account.ledger
      ensures Valid() && State() == BookFill(old(State()), f)
    {
      account.RecordFill(f, timestamp);
    }

    /** What a fill is about to add to the figures of its order. */
    method Measure(f: Fill) returns (added: Figures)
      requires Valid()
      ensures added == Tally(State().book, f)
    {
      var pnl := if f.entry then 0.0 else Value(-Signed(f), f.price - account.price);
      added := Figures(f.size, Value(f.size, f.price), f.commission, pnl);
    }

    /** The order's part of a fill: cumulative figures, its report, then its OCO group. */
    method FillOrder(r: nat, added: Figures)
      requires Valid() && r < |orders|
      modifies this`orders, this`pending, this`groups, this`done, this`notices
      ensures Valid() && State() == Fulfil(old(State()), r, added)
    {
      orders := orders[r := Executed(orders[r], added)];
      NotifyOrder(r);
      CheckOco(r);
    }

    method Allocate(role: Role, quantity: real)
      requires Valid()
      modifies this`liquidity
      ensures Valid() && State() == Spend(old(State()), role, quantity)
    {
      if liquidity.Some? && !Unbudgeted(role) {
        liquidity := Some(liquidity.value - quantity);
      }
    }

    /** An exit marks its bar and cancels an entry still queued. */
    method NoteExit(bar: Bar, role: Role, quantity: real)
      requires Valid()
      modifies this`liquidity, this`exitBar, this`lastExitRole, this`orders, this`pending, this`groups, this`done, this`notices
      ensures Valid() && State() == RecordExit(old(State()), bar, role, quantity)
    {
      Allocate(role, quantity);
      exitBar, lastExitRole := Some(bar.timestamp), Some(role);
      CancelIfAlive(entryOrder);
    }

    /** A signal close deals with the legs itself; a flat account cancels a waiting signal. */
    method SettleExit(r: nat, role: Role)
      requires Valid()
      modifies this`orders, this`pending, this`groups, this`done, this`notices
      ensures Valid() && State() == AfterExit(old(State()), r, role)
    {
      if role == Signal {
        if account.size != 0.0 {
          ResizeProtection();
        } else {
          CancelIfAlive(stopOrder);
          CancelIfAlive(targetOrder);
        }
      }
      if account.size == 0.0 && signalOrder != Some(r) {
        CancelIfAlive(signalOrder);
      }
    }

    /** What an exit may take: the position, the bar's budget, whole lots. */
    method SizeExit(r: nat) returns (quantity: real)
      requires Valid() && r < |orders|
      ensures quantity == ExitSize(State(), model, r)
    {
      var role := orders[r].role;
      quantity := Min(orders[r].remaining, Abs(account.size));
      if liquidity.Some? && !Unbudgeted(role) {
        quantity := Min(quantity, liquidity.value);
      }
      if model.step.Some? && model.step.value > 0.0 && role != Liquidation {
        quantity := FloorStep(quantity, model.step.value);
      }
    }

    method ExitFillOf(bar: Bar, r: nat, quantity: real, reference: real, fee: real) returns (f: Fill)
      requires Valid() && r < |orders|
      ensures f == ExitFill(State(), model, bar, r, quantity, reference, fee)
    {
      var o := orders[r];
      var volume := if o.role == EndOfData then 0.0 else bar.volume;
      var price := reference;
      var rate := 0.0;
      if o.role != Liquidation {
        price := Adjusted(o.buy, None, reference, Fraction(model, volume, quantity));
        rate := Rate(model, false, bar.timestamp);
      }
      f := Fill(account.executionTradeId, false, o.buy, quantity, reference, price,
                SignedCost(o.buy, quantity, reference, price), Value(quantity, price * rate), fee);
    }

    method TrimToPosition(r: nat)
      requires Valid() && r < |orders|
      modifies this`orders
      ensures Valid() && State() == Trimmed(old(State()), r)
    {
      orders := orders[r := orders[r].(remaining := Min(orders[r].remaining, Abs(account.size)))];
    }

    /** Execute a closing order at a reference. */
    method ExecuteClose(bar: Bar, r: nat, reference: real, fee: real)
      requires Valid() && r < |orders|
      modifies this, account, account.ledger
      ensures Valid() && State() == ExecuteExit(old(State()), model, bar, r, reference, fee)
    {
      if account.size == 0.0 || orders[r].buy != (account.size < 0.0) {
        return;
      }
      var quantity := SizeExit(r);
      TrimToPosition(r);
      if quantity <= 0.0 {
        return;
      }
      CloseQuantity(bar, r, quantity, reference, fee);
    }

    method CloseQuantity(bar: Bar, r: nat, quantity: real, reference: real, fee: real)
      requires Valid() && r < |orders|
      modifies this, account, account.ledger
      ensures Valid() && State() == ClosedBy(old(State()), model, bar, r, quantity, reference, fee)
    {
      var role := orders[r].role;
      var f := ExitFillOf(bar, r, quantity, reference, fee);
      var added := Measure(f);
      BookTheFill(f, bar.timestamp);
      FillOrder(r, added);
      NoteExit(bar, role, quantity);
      SettleExit(r, role);
    }

    // -------------------------------------------------------- protection

    /** The leg this bar takes, and the reference it trades at. */
    method PickLeg(bar: Bar, allowGap: bool, breach: Option<Pick>, openOnly: bool) returns (pick: Option<Pick>)
      requires Valid()
      ensures pick == Selection(State(), bar, allowGap, breach, openOnly)
    {
      if exitBar == Some(bar.timestamp) && lastExitRole != Some(Signal) {
        return None;
      }
      if breach == None && protectionActive.Some? && bar.timestamp < protectionActive.value {
        return None;
      }
      if account.size == 0.0 || stopOrder == None || !Alive(orders, stopOrder.value) {
        return None;
      }
      var target := None;
      if targetOrder.Some? && Alive(orders, targetOrder.value) {
        target := Some((targetOrder.value, orders[targetOrder.value].price));
      }
      pick := Select(account.size > 0.0, stopOrder.value, orders[stopOrder.value].price, target, bar, allowGap, breach, openOnly);
    }

    /** Execute a leg; a queued one leaves the queue first and returns if it survives. */
    method TakeTheLeg(bar: Bar, pick: Pick)
      requires Valid() && pick.ref < |orders|
      modifies this, account, account.ledger
      ensures Valid() && State() == TakeLeg(old(State()), model, bar, pick)
    {
      var queued := TakeOut(pick.ref);
      ExecuteClose(bar, pick.ref, pick.reference, 0.0);
      if queued && Alive(orders, pick.ref) {
        PutLast(pick.ref);
      }
    }

    method Protection(bar: Bar, allowGap: bool, breach: Option<Pick>, openOnly: bool)
      requires Valid() && (breach.Some? ==> breach.value.ref < |orders|)
      modifies this, account, account.ledger
      ensures Valid() && State() == MatchProtection(old(State()), model, bar, allowGap, breach, openOnly)
    {
      var pick := PickLeg(bar, allowGap, breach, openOnly);
      if pick.Some? {
        TakeTheLeg(bar, pick.value);
      }
    }

    // ------------------------------------------------------ signal close

    /** A due signal close leaves the queue it is in, executes at the open, and returns if it survives. */
    method SignalAtOpen(bar: Bar, r: nat)
      requires Valid() && r < |orders| && Queued(pending, r)
      modifies this, account, account.ledger
      ensures Valid() && State() == CloseAtOpen(old(State()), model, bar, r)
    {
      orders := orders[r := orders[r].(matchedAt := Some(bar.timestamp))];
      var removed := TakeOut(r);
      assert removed;
      ExecuteClose(bar, r, bar.open, 0.0);
      if Alive(orders, r) {
        PutLast(r);
      }
    }

    /** Offered the open before the queue is walked, or met again during the walk. */
    method MatchSignal(bar: Bar, r: nat)
      requires Valid() && r < |orders| && TakesQueued(State(), model, bar, r)
      modifies this, account, account.ledger
      ensures Valid() && State() == MatchSignalOpen(old(State()), model, bar, r)
    {
      var o := orders[r];
      if o.matchedAt == Some(bar.timestamp) || bar.timestamp <= o.createdAt {
        return;
      }
      if o.positionId != account.executionTradeId || account.size <= 0.0 {
        var _ := CancelOrder(r);
        return;
      }
      Protection(bar, true, None, true);
      if account.size == 0.0 || !Alive(orders, r) || !SignalDue(model, o, bar.timestamp) {
        return;
      }
      SignalAtOpen(bar, r);
    }

    // ------------------------------------------------------------ sizing

    /** Commissions of the open trade's entries, summed over the fills kept under it. */
    method PaidSoFar() returns (paid: real)
      requires Valid()
      ensures paid == PaidCommissions(State())
    {
      var fills := if account.executionTradeId in account.tradeFills then account.tradeFills[account.executionTradeId] else [];
      KeptFills();
      paid := 0.0;
      for i := 0 to |fills|
        invariant paid == Total(fills[..i], EntryCommission, 0)
      {
        assert fills[..i + 1] == fills[..i] + [fills[i]];
        TotalAppend(fills[..i], fills[i], EntryCommission, 0);
        if fills[i].entry {
          paid := paid + fills[i].commission;
        }
      }
      assert fills[..|fills|] == fills;
    }

    lemma KeptFills()
      requires Valid()
      ensures var fills := if account.executionTradeId in account.tradeFills
                           then account.tradeFills[account.executionTradeId] else [];
              Total(fills, EntryCommission, 0) == PaidCommissions(State())
    {
      var trade := account.executionTradeId;
      TotalOfTrade(account.executionFills, EntryCommission, trade);
      if trade !in account.tradeFills {
        FillsOfUnused(account.executionFills, trade);
      }
    }

    /** The quantity the remaining stop-risk budget allows. */
    method SizeByRisk(o: Order, stop: real, price: real, rate: real, exitRate: real, fraction: real) returns (quantity: real)
      requires Valid()
      ensures quantity == RiskQuantity(State(), o, stop, price, rate, exitRate, fraction)
    {
      var stopFill := StopFill(o.buy, stop, fraction);
      var unit := UnitLoss(price, stopFill, rate, exitRate);
      if unit <= 0.0 {
        return 0.0;
      }
      var paid := PaidSoFar();
      var left := RemainingBudget(o.budget, Abs(account.size), account.price, stopFill, paid, exitRate);
      quantity := Min(o.remaining, MaxQuantity(Max(0.0, left), unit));
    }

    /** Whether the account can pay for an entry, by its own rule and by Backtrader's. */
    method Affordable(o: Order, quantity: real, price: real, rate: real, reference: real) returns (ok: bool)
      requires Valid()
      ensures ok <==> RequiredCash(State(), quantity, price, rate) <= AvailableCash(State(), model, reference)
                      && CashAfter(State(), o, quantity, price, rate) >= 0.0
    {
      var collateral := if model.spot then 0.0 else Value(account.size, reference - account.price);
      var available := account.ledger.Balance() + collateral - Value(Abs(account.size), account.price) / account.leverage;
      var required := Value(quantity, price) / account.leverage + Value(quantity, price * rate);
      if required > available {
        return false;
      }
      ok := account.cash - Collateral(if o.buy then quantity else -quantity, price, account.leverage)
            - Value(quantity, price * rate) >= 0.0;
    }

    /** An entry's size and price on this bar, or why it gets none. */
    method SizeTheEntry(bar: Bar, r: nat, reference: real) returns (s: Sizing)
      requires Valid() && r < |orders|
      ensures s == SizeEntry(State(), model, bar, r, reference)
    {
      var o := orders[r];
      if o.setup == None {
        return Idle;
      }
      var granted := o.remaining;
      if liquidity.Some? {
        granted := Min(granted, liquidity.value);
      }
      if granted <= 0.0 {
        return Idle;
      }
      s := SizeGranted(bar, o, o.setup.value.stop, granted, reference);
    }

    method SizeGranted(bar: Bar, o: Order, stop: real, granted: real, reference: real) returns (s: Sizing)
      requires Valid()
      ensures s == Granted(State(), model, bar, o, stop, granted, reference)
    {
      var fraction := Fraction(model, bar.volume, granted);
      var price := Adjusted(o.buy, EntryCap(o), reference, fraction);
      var rate, exitRate := Rate(model, o.kind == LimitOrder, bar.timestamp), Rate(model, false, bar.timestamp);
      var asked := SizeByRisk(o, stop, price, rate, exitRate, fraction);
      var quantity := NormalizeLot(model, asked);
      if quantity == None {
        return Refused(Rejected);
      }
      var fill := NormalizeLot(model, Min(granted, quantity.value));
      if fill == None || Min(fill.value, quantity.value) <= 0.0 {
        return Refused(Rejected);
      }
      var taken := Min(fill.value, quantity.value);
      var ok := Affordable(o, taken, price, rate, reference);
      s := if ok then Sized(quantity.value, taken, price, rate, exitRate, fraction) else Refused(Margin);
    }

    // ----------------------------------------------------------- entries

    method EntryFillOf(r: nat, reference: real, s: Sizing) returns (f: Fill)
      requires Valid() && r < |orders| && s.Sized?
      ensures f == EntryFill(State(), r, reference, s)
    {
      var buy := orders[r].buy;
      f := Fill(account.executionTradeId, true, buy, s.fill, reference, s.price,
                SignedCost(buy, s.fill, reference, s.price), Value(s.fill, s.price * s.rate), 0.0);
    }

    method AskFor(r: nat, quantity: real)
      requires Valid() && r < |orders|
      modifies this`orders
      ensures Valid() && State() == Update(old(State()), r, old(orders)[r].(remaining := quantity))
    {
      orders := orders[r := orders[r].(remaining := quantity)];
    }

    /** Book an entry fill; that it adds to a position no exit has touched is what safety guarantees. */
    method EnterPosition(bar: Bar, r: nat, reference: real, s: Sizing)
      requires Valid() && r < |orders| && s.Sized? && s.fill > 0.0 && EntryInHand(State(), model, bar.timestamp, r)
      modifies this, account, account.ledger
      ensures Valid() && State() == DeskExecution.Enter(old(State()), r, reference, s)
    {
      var f := EntryFillOf(r, reference, s);
      var added := Measure(f);
      EntryOpens(State(), model, bar.timestamp, r, f);
      AskFor(r, s.quantity);
      BookTheFill(f, bar.timestamp);
      FillOrder(r, added);
      Allocate(EntryRole, s.fill);
    }

    /** A fresh stop sized to the position and, unless disabled, its target in the same OCO group. */
    method PlaceTheBracket(long: bool, stop: real, target: Option<real>, timestamp: int)
      requires Valid()
      modifies this`orders, this`pending, this`groups, this`notices, this`stopOrder, this`targetOrder
      ensures Valid() && State() == PlaceBracket(old(State()), long, stop, target, timestamp)
    {
      var s := PlaceStop(long, stop, timestamp);
      if target == None {
        targetOrder := None;
      } else {
        PlaceTarget(long, target.value, s, timestamp);
      }
    }

    method PlaceStop(long: bool, stop: real, timestamp: int) returns (s: nat)
      requires Valid()
      modifies this`orders, this`pending, this`groups, this`notices, this`stopOrder
      ensures Valid() && s == |old(orders)|
      ensures var leg := Leg(StopLoss, !long, StopOrder, stop, Held(old(State())), timestamp);
              State() == Submit(old(State()), leg, None).(stop := Some(s))
    {
      s := SubmitOrder(Leg(StopLoss, !long, StopOrder, stop, Abs(account.size), timestamp), None);
      stopOrder := Some(s);
    }

    method PlaceTarget(long: bool, target: real, leader: nat, timestamp: int)
      requires Valid()
      modifies this`orders, this`pending, this`groups, this`notices, this`targetOrder
      ensures Valid()
      ensures var leg := Leg(TakeProfit, !long, LimitOrder, target, Held(old(State())), timestamp);
              State() == Submit(old(State()), leg, Some(leader)).(target := Some(|old(orders)|))
    {
      var t := SubmitOrder(Leg(TakeProfit, !long, LimitOrder, target, Abs(account.size), timestamp), Some(leader));
      targetOrder := Some(t);
    }

    /** The first fill of a trade places its bracket, a later one resizes it. */
    method ProtectPosition(bar: Bar, setup: Setup)
      requires Valid()
      modifies this`orders, this`pending, this`groups, this`notices, this`stopOrder, this`targetOrder, this`protectionActive
      ensures Valid() && State() == Protect(old(State()), model, bar, setup)
    {
      if stopOrder.Some? && Alive(orders, stopOrder.value) {
        ResizeProtection();
      } else {
        PlaceTheBracket(setup.long, setup.stop, setup.target, bar.timestamp);
        protectionActive := if model.proxy.Some? then Some(bar.timestamp + model.proxy.value.protectionDelay) else None;
      }
    }

    /** The average fill may already lie beyond a leg of the bracket. */
    method FindBreach(reference: real) returns (breach: Option<Pick>)
      requires Valid()
      ensures breach == Breach(State(), reference)
      ensures breach.Some? ==> breach.value.ref < |orders|
    {
      if stopOrder == None || !Alive(orders, stopOrder.value) {
        return None;
      }
      var long, fill := account.size > 0.0, account.price;
      var stop := orders[stopOrder.value].price;
      if if long then fill <= stop else fill >= stop {
        return Some(Pick(stopOrder.value, reference));
      }
      if targetOrder.Some? && targetOrder.value < |orders| {
        var target := orders[targetOrder.value].price;
        if if long then fill >= target else fill <= target {
          return Some(Pick(targetOrder.value, reference));
        }
      }
      breach := None;
    }

    method DropRemainder(r: nat)
      requires Valid()
      modifies this`orders, this`notices
      ensures Valid() && State() == CancelRemainder(old(State()), model, r)
    {
      if Alive(orders, r) && model.proxy.Some? && model.proxy.value.cancelRemainder {
        EndOrderAs(r, Canceled);
      }
    }

    /** What protection does with a fresh fill. */
    method AnswerFill(bar: Bar, r: nat, setup: Setup, reference: real)
      requires Valid()
      modifies this, account, account.ledger
      ensures Valid() && State() == Answered(old(State()), model, bar, r, setup, reference)
    {
      ProtectPosition(bar, setup);
      var breach := FindBreach(reference);
      Protection(bar, false, breach, false);
      DropRemainder(r);
    }

    method ExecuteTheEntry(bar: Bar, r: nat, reference: real)
      requires Valid() && r < |orders| && EntryInHand(State(), model, bar.timestamp, r)
      modifies this, account, account.ledger
      ensures Valid() && State() == ExecuteEntry(old(State()), model, bar, r, reference)
    {
      var s := SizeTheEntry(bar, r, reference);
      if s.Idle? {
        return;
      }
      if s.Refused? {
        EndOrderAs(r, s.status);
        return;
      }
      SizedWell(State(), model, bar, r, reference);
      var setup := orders[r].setup.value;
      EnterPosition(bar, r, reference, s);
      AnswerFill(bar, r, setup, reference);
    }

    /** An entry of whole lots meets the bar. */
    method MeetBar(bar: Bar, r: nat)
      requires Valid() && EntryInHand(State(), model, bar.timestamp, r)
      modifies this, account, account.ledger
      ensures Valid() && State() == MetBar(old(State()), model, bar, r)
    {
      var o := orders[r];
      if o.kind == MarketOrder && bar.timestamp <= o.createdAt {
        return;
      }
      var reference := MatchReference(o.kind, o.buy, o.price, bar);
      if reference.Some? {
        ExecuteTheEntry(bar, r, reference.value);
      }
    }

    /** The entry asks for whole lots, then meets the bar. */
    method MeetWith(bar: Bar, r: nat, lots: real)
      requires Valid() && EntryInHand(State(), model, bar.timestamp, r)
      requires NormalizeLot(model, orders[r].remaining) == Some(lots)
      modifies this, account, account.ledger
      ensures Valid()
      ensures State() == MetBar(Update(old(State()), r, old(orders)[r].(remaining := lots)), model, bar, r)
    {
      FiguresKeepSafe(State(), model, bar.timestamp, {r}, r, orders[r].(remaining := lots));
      AskFor(r, lots);
      MeetBar(bar, r);
    }

    /** An entry whose lots, latency and trigger all allow it is executed. */
    method TryTheEntry(bar: Bar, r: nat)
      requires Valid() && Safe(State(), model, bar.timestamp, {r}) && Alive(orders, r) && orders[r].role == EntryRole
      modifies this, account, account.ledger
      ensures Valid() && State() == TryEntry(old(State()), model, bar, r)
    {
      var o := orders[r];
      if exitBar == Some(bar.timestamp) {
        return;
      }
      if model.proxy.Some? && bar.timestamp < o.decidedAt + model.proxy.value.fillDelay {
        return;
      }
      var lots := NormalizeLot(model, o.remaining);
      if lots == None {
        EndOrderAs(r, Rejected);
        return;
      }
      MeetWith(bar, r, lots.value);
    }

    // -------------------------------------------------------------- walk

    method TryOrder(bar: Bar, r: nat)
      requires Valid() && Safe(State(), model, bar.timestamp, {r}) && Alive(orders, r)
      requires SignalsSettled(State(), model, bar)
      modifies this, account, account.ledger
      ensures Valid() && State() == TryExec(old(State()), model, bar, r)
    {
      var role := orders[r].role;
      if role == Signal {
        DueIsQueued(State(), model, bar, r);
        MatchSignal(bar, r);
      } else if Protective(role) {
        Protection(bar, true, None, false);
      } else if role == EntryRole {
        TryTheEntry(bar, r);
      }
    }

    /** A popped order whose group is done is canceled; any other is tried, and requeued if it survives. */
    method TurnOrder(bar: Bar, r: nat)
      requires Valid() && Safe(State(), model, bar.timestamp, {r}) && Alive(orders, r)
      requires SignalsSettled(State(), model, bar)
      modifies this, account, account.ledger
      ensures Valid() && State() == Turn(old(State()), model, bar, r)
    {
      if orders[r].group in done {
        EndOrderAs(r, Canceled);
        CheckOco(r);
        return;
      }
      TryOrder(bar, r);
      if Alive(orders, r) {
        PutLast(r);
      }
    }

    method PopFirst() returns (first: Option<nat>)
      requires Valid() && pending != []
      modifies this`pending
      ensures Valid() && State() == Popped(old(State())) && first == old(pending)[0]
    {
      PoppedInRange(pending, |orders|);
      first := pending[0];
      pending := pending[1..];
    }

    /** Once around the queue, up to the sentinel. */
    method WalkQueue(bar: Bar)
      requires Valid() && None in pending && Safe(State(), model, bar.timestamp, {})
      requires SignalsSettled(State(), model, bar)
      modifies this, account, account.ledger
      ensures Valid() && State() == Pass(old(State()), model, bar)
    {
      ghost var start := State();
      while pending[0] != None
        invariant Valid() && None in pending && Safe(State(), model, bar.timestamp, {})
        invariant SignalsSettled(State(), model, bar)
        invariant Pass(State(), model, bar) == Pass(start, model, bar)
        decreases |Front(pending)|
      {
        WalkStep(State(), model, bar);
        var order := PopFirst();
        TurnOrder(bar, order.value);
      }
      var _ := PopFirst();
    }

    // ------------------------------------------------------- before it

    /** The owner of some queued order, for whom a liquidation is submitted. */
    method FirstQueued() returns (r: nat)
      requires Valid() && HasOwner(State())
      ensures Queued(pending, r)
    {
      var i := 0;
      r := 0;
      while i < |pending|
        invariant 0 <= i <= |pending| && forall j | 0 <= j < i :: pending[j] == None
      {
        if pending[i].Some? {
          return pending[i].value;
        }
        i := i + 1;
      }
      assert false;
    }

    /** Cancel every order of a snapshot of the queue. */
    method CancelSnapshot(refs: seq<Option<nat>>)
      requires Valid() && InRange(refs, |orders|)
      modifies this`orders, this`pending, this`groups, this`done, this`notices
      ensures Valid() && State() == CancelEach(old(State()), refs)
    {
      ghost var start := State();
      for i := 0 to |refs|
        invariant Valid() && |orders| == |start.orders|
        invariant CancelEach(State(), refs[i..]) == CancelEach(start, refs)
      {
        assert refs[i..][1..] == refs[i + 1..] && refs[i..][0] == refs[i];
        if refs[i].Some? {
          assert Queued(refs, refs[i].value);
          CancelKeepsTable(State(), refs[i].value);
          var _ := CancelOrder(refs[i].value);
        }
      }
    }

    /** A forced order is submitted and taken out of the queue at once. */
    method ForceOrder(o: Order) returns (r: nat)
      requires Valid()
      modifies this`orders, this`pending, this`groups, this`notices
      ensures Valid() && State() == Forcing(old(State()), o) && r == |old(orders)| && |orders| == r + 1
    {
      r := SubmitOrder(o, None);
      var _ := TakeOut(r);
    }

    method FeeFor(mark: Mark) returns (fee: real)
      requires Valid()
      ensures fee == FeeAtMark(State(), mark)
    {
      fee := Value(Abs(account.size), mark.price) * mark.feeBps / 10000.0;
    }

    method LiquidationFor(mark: Mark, timestamp: int) returns (o: Order)
      requires Valid()
      ensures o == LiquidationOrder(State(), mark, timestamp)
    {
      o := Order(Liquidation, account.size < 0.0, MarketOrder, mark.price, Accepted, Abs(account.size), NOTHING, 0,
                 timestamp, timestamp, None, 0.0, 0, None);
    }

    /** Cancel everything, close in full at the mark, charge the fee. */
    method LiquidateAll(bar: Bar, mark: Option<Mark>)
      requires Valid() && (mark.Some? && account.size != 0.0 ==> HasOwner(State()))
      modifies this, account, account.ledger
      ensures Valid() && State() == Liquidate(old(State()), model, bar, mark)
    {
      if mark == None || account.size == 0.0 {
        return;
      }
      var _ := FirstQueued();
      var fee := FeeFor(mark.value);
      CancelSnapshot(pending);
      var o := LiquidationFor(mark.value, bar.timestamp);
      var r := ForceOrder(o);
      ExecuteClose(bar, r, mark.value.price, fee);
    }

    /** Offer the open to every live signal close of a snapshot of the queue. */
    method OfferOpen(bar: Bar, refs: seq<Option<nat>>)
      requires Valid() && Safe(State(), model, bar.timestamp, {})
      modifies this, account, account.ledger
      ensures Valid() && State() == SignalsAtOpen(old(State()), model, bar, refs)
    {
      ghost var start := State();
      for i := 0 to |refs|
        invariant Valid() && Safe(State(), model, bar.timestamp, {})
        invariant SignalsAtOpen(State(), model, bar, refs[i..]) == SignalsAtOpen(start, model, bar, refs)
      {
        assert refs[i..][1..] == refs[i + 1..] && refs[i..][0] == refs[i];
        if refs[i].Some? && Alive(orders, refs[i].value) && orders[refs[i].value].role == Signal {
          SignalAtOpenSafe(State(), model, bar, refs[i].value);
          DueIsQueued(State(), model, bar, refs[i].value);
          MatchSignal(bar, refs[i].value);
        }
      }
    }

    // --------------------------------------------------- prioritisation

    /** The groups of the queue's active protection, in order of first appearance. */
    method FindGroups(bar: Bar) returns (found: seq<nat>)
      ensures found == ActiveGroups(orders, pending, bar)
    {
      found := [];
      for i := 0 to |pending|
        invariant found == ActiveGroups(orders, pending[..i], bar)
      {
        assert pending[..i + 1][..i] == pending[..i] && pending[..i + 1][i] == pending[i];
        var o := pending[i];
        if Active(orders, o, bar) && orders[o.value].group !in found {
          found := found + [orders[o.value].group];
        }
      }
      assert pending[..|pending|] == pending;
    }

    /** The slots one group holds. */
    method FindSlots(bar: Bar, group: nat) returns (slots: seq<nat>)
      ensures slots == Slots(orders, pending, bar, group, |pending|)
    {
      slots := [];
      for i := 0 to |pending|
        invariant slots == Slots(orders, pending, bar, group, i)
      {
        if InGroup(orders, pending[i], bar, group) {
          slots := slots + [i];
        }
      }
    }

    /** Sort one group inside the slots it holds. */
    method ReorderGroup(bar: Bar, group: nat)
      modifies this`pending
      ensures pending == SortGroup(old(orders), old(pending), bar, group)
    {
      ghost var queue := pending;
      var slots := FindSlots(bar, group);
      var ranked := Ranked(orders, bar, At(pending, slots));
      for j := 0 to |slots|
        invariant Ascending(queue, slots[..j])
        invariant pending == Put(queue, slots[..j], ranked[..j])
      {
        PutNext(queue, slots, ranked, j);
        pending := pending[slots[j] := ranked[j]];
      }
      assert slots[..|slots|] == slots && ranked[..|slots|] == ranked;
    }

    /** Reorder active protection only within its own queued slots. */
    method PrioritizeOpening(bar: Bar)
      modifies this`pending
      ensures pending == Prioritized(old(orders), old(pending), bar)
    {
      ghost var queue := pending;
      var found := FindGroups(bar);
      for i := 0 to |found|
        invariant SortGroups(orders, pending, bar, found[i..]) == SortGroups(orders, queue, bar, found)
      {
        assert found[i..][0] == found[i] && found[i..][1..] == found[i + 1..];
        ReorderGroup(bar, found[i]);
      }
    }

    /** Sort the queue for the walk and put the sentinel at its end. */
    method PrepareQueue(bar: Bar)
      requires Valid() && Distinct(pending) && None !in pending
      modifies this`pending, this`done
      ensures Valid() && State() == Prepared(old(State()), bar)
    {
      ghost var d := State();
      pending := ByRole(orders, pending);
      done := {};
      PrioritizeOpening(bar);
      pending := pending + [None];
      PreparedQueue(d, bar);
      PreparedInRange(d, bar);
    }

    /** One bar: budget, funding, liquidation, signal closes, and the walk. */
    method NextBar(bar: Bar, mark: Option<Mark>)
      requires Valid() && execution.Valid()
      requires Safe(State(), model, bar.timestamp, {}) && None !in pending
      modifies this, account, account.ledger, execution
      ensures Valid() && execution.Valid()
      ensures State() == BrokerBar(old(State()), model, bar, DueBetween(execution, old(execution.fundingCursor)), mark)
      ensures DueUpTo(execution.records, old(execution.fundingCursor), execution.fundingCursor, bar.timestamp)
    {
      ghost var d, first := State(), execution.fundingCursor;
      OpenBar(bar);
      BarPlan(d, model, bar, DueBetween(execution, first), mark);
      LiquidateAll(bar, mark);
      MatchTheBar(bar);
    }

    /** The volume budget of the bar, and funding against the position held before its orders. */
    method OpenBar(bar: Bar)
      requires Valid() && execution.Valid()
      modifies this`liquidity, account`cash, account.ledger, execution
      ensures Valid() && execution.Valid()
      ensures State() == OpenDesk(old(State()), model, bar, DueBetween(execution, old(execution.fundingCursor)))
      ensures DueUpTo(execution.records, old(execution.fundingCursor), execution.fundingCursor, bar.timestamp)
    {
      liquidity := BarBudget(model, bar);
      execution.SettleFunding(account, bar.timestamp);
    }

    /** Signal closes at the open, then the queue. */
    method MatchTheBar(bar: Bar)
      requires Valid() && Safe(State(), model, bar.timestamp, {}) && None !in pending
      modifies this, account, account.ledger
      ensures Valid()
      ensures State() == Pass(Prepared(SignalsAtOpen(old(State()), model, bar, old(pending)), bar), model, bar)
    {
      MatchPlan(State(), model, bar);
      OfferOpen(bar, pending);
      PrepareQueue(bar);
      WalkQueue(bar);
    }
  }
}
