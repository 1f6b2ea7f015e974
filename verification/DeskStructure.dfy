/**
 What every queue operation keeps: each live order is queued or in hand, never
 twice, the adapter remembers every live order of its bracket, and no two
 orders of one OCO group ever both complete.
 */
module DeskStructure {
  import opened Wrappers
  import opened Rounding
  import opened TradeBook
  import opened ExecutionPricing
  import opened DeskTypes

  // ---------------------------------------------------------- invariants

  /** Nothing is queued twice. */
  ghost predicate Distinct(pending: seq<Option<nat>>) {
    forall i, j | 0 <= i < j < |pending| :: pending[i] != pending[j]
  }

  /** Queued orders are live; live orders are queued or in hand, and only one of the two. */
  ghost predicate QueueInv(d: Desk, hand: set<nat>) {
    && Distinct(d.pending)
    && (forall r: nat :: Queued(d.pending, r) ==> Alive(d.orders, r) && r !in hand)
    && (forall r: nat | Alive(d.orders, r) :: Queued(d.pending, r) || r in hand)
  }

  /** The adapter remembers each live order under its role. */
  ghost predicate RoleInv(d: Desk) {
    && (forall r: nat | Alive(d.orders, r) :: Remembered(d, r))
    && HasRole(d.orders, d.stop, StopLoss)
    && HasRole(d.orders, d.target, TakeProfit)
    && HasRole(d.orders, d.entry, EntryRole)
    && HasRole(d.orders, d.signal, Signal)
  }

  predicate HasRole(orders: seq<Order>, r: Option<nat>, role: Role) {
    r.Some? ==> r.value < |orders| && orders[r.value].role == role
  }

  predicate Remembered(d: Desk, r: nat)
    requires r < |d.orders|
  {
    match d.orders[r].role
    case StopLoss => d.stop == Some(r)
    case TakeProfit => d.target == Some(r)
    case EntryRole => d.entry == Some(r) && d.orders[r].setup.Some? && d.orders[r].setup.value.long == d.orders[r].buy
    case Signal => d.signal == Some(r) && !d.orders[r].buy
    case Liquidation => true
    case EndOfData => true
  }

  ghost predicate GroupRange(orders: seq<Order>) {
    forall r | 0 <= r < |orders| :: orders[r].group < |orders|
  }

  ghost predicate GroupMembers(orders: seq<Order>, groups: map<nat, set<nat>>) {
    forall g | g in groups :: forall x | x in groups[g] :: x < |orders| && orders[x].group == g
  }

  /** Two orders of one group: a stop and its target, not both completed. */
  predicate Pair(a: Order, b: Order) {
    && Protective(a.role) && Protective(b.role) && a.role != b.role
    && !(a.status == Completed && b.status == Completed)
  }

  /** Only a stop and its target ever share a group, and at most one of them completes. */
  ghost predicate GroupPairs(orders: seq<Order>) {
    forall a, b | 0 <= a < |orders| && 0 <= b < |orders| && a != b && orders[a].group == orders[b].group ::
      Pair(orders[a], orders[b])
  }

  ghost predicate GroupInv(orders: seq<Order>, groups: map<nat, set<nat>>) {
    GroupRange(orders) && GroupMembers(orders, groups) && GroupPairs(orders)
  }

  lemma GroupMates(orders: seq<Order>, a: nat, b: nat)
    requires GroupPairs(orders) && a < |orders| && b < |orders| && a != b
    ensures orders[a].group == orders[b].group ==> Pair(orders[a], orders[b])
  {
  }

  /** A group that is done is no longer tracked. */
  ghost predicate DoneInv(d: Desk) {
    forall g | g in d.done :: g < |d.orders| && g !in d.groups
  }

  ghost predicate Struct(d: Desk, hand: set<nat>) {
    && QueueInv(d, hand)
    && RoleInv(d)
    && GroupInv(d.orders, d.groups)
    && DoneInv(d)
    && (forall r | r in hand :: r < |d.orders|)
  }

  // -------------------------------------------------------------- effects

  /** What an order never changes. */
  predicate SameIdentity(a: Order, b: Order) {
    && b.role == a.role && b.buy == a.buy && b.kind == a.kind && b.price == a.price
    && b.group == a.group && b.setup == a.setup && b.budget == a.budget
    && b.positionId == a.positionId && b.createdAt == a.createdAt && b.decidedAt == a.decidedAt
    && b.matchedAt == a.matchedAt
  }

  /** Everything but orders, queue, groups and notices is as it was. */
  predicate SameDesk(d: Desk, e: Desk) {
    && e.stop == d.stop && e.target == d.target && e.entry == d.entry && e.signal == d.signal
    && e.cancelledEntry == d.cancelledEntry
    && e.exitBar == d.exitBar && e.lastExitRole == d.lastExitRole && e.protectionActive == d.protectionActive
    && e.liquidity == d.liquidity && e.book == d.book
  }

  /** Some queued orders of one group were canceled; nothing else happened to any order. */
  ghost predicate Thinned(d: Desk, e: Desk, group: nat) {
    && SameDesk(d, e)
    && |e.orders| == |d.orders|
    && (forall i | 0 <= i < |d.orders| ::
          e.orders[i] == d.orders[i]
          || (e.orders[i] == d.orders[i].(status := Canceled) && Live(d.orders[i]) && d.orders[i].group == group))
    && (forall g | g != group :: Members(e, g) == Members(d, g))
    && d.notices <= e.notices
    && (forall n | n in e.notices[|d.notices|..] :: ReportsCanceled(e.orders, n))
  }

  /** A truthful report of a cancellation. */
  predicate ReportsCanceled(orders: seq<Order>, n: Notice) {
    && n.status == Canceled && n.ref < |orders|
    && n.role == orders[n.ref].role && orders[n.ref].status == Canceled
  }

  // ------------------------------------------------------------ the queue

  lemma {:induction false} WithoutDistinct(pending: seq<Option<nat>>, refs: set<nat>)
    requires Distinct(pending)
    ensures Distinct(Without(pending, refs))
  {
    if pending != [] {
      WithoutDistinct(pending[1..], refs);
      var rest := Without(pending[1..], refs);
      var all := Without(pending, refs);
      forall i, j | 0 <= i < j < |all| ensures all[i] != all[j] {
        if all != rest && i == 0 {
          assert all[j] == rest[j - 1] && rest[j - 1] in rest;
        }
      }
    }
  }

  lemma AppendDistinct(pending: seq<Option<nat>>, x: Option<nat>)
    requires Distinct(pending) && x !in pending
    ensures Distinct(pending + [x])
  {
  }

  lemma TailOmitsHead(p: seq<Option<nat>>)
    requires Distinct(p) && p != []
    ensures p[0] !in p[1..]
  {
    forall i | 0 <= i < |p[1..]| ensures p[1..][i] != p[0] {
      assert p[1..][i] == p[i + 1];
    }
  }

  /** Taking an order off the queue puts it in hand. */
  lemma RemoveToHand(d: Desk, hand: set<nat>, r: nat)
    requires Struct(d, hand) && r < |d.orders|
    ensures Struct(Remove(d, r), hand + {r})
  {
    WithoutDistinct(d.pending, {r});
  }

  /** A live order in hand may be queued again. */
  lemma AppendFromHand(d: Desk, hand: set<nat>, r: nat)
    requires Struct(d, hand) && r in hand && Alive(d.orders, r)
    ensures Struct(Append(d, r), hand - {r})
  {
    AppendDistinct(d.pending, Some(r));
    var e := Append(d, r);
    forall x: nat ensures Queued(e.pending, x) <==> Queued(d.pending, x) || x == r {
    }
  }

  /** A dead order in hand is simply dropped. */
  lemma DropFromHand(d: Desk, hand: set<nat>, r: nat)
    requires Struct(d, hand) && !Alive(d.orders, r)
    ensures Struct(d, hand - {r})
  {
  }

  // ----------------------------------------------------------- one order

  /** Orders keep their identity; none comes back to life and none newly completes. */
  ghost predicate Fades(a: seq<Order>, b: seq<Order>) {
    && |a| == |b|
    && forall i | 0 <= i < |a| ::
         && SameIdentity(a[i], b[i])
         && (Live(b[i]) ==> Live(a[i]))
         && (b[i].status == Completed ==> a[i].status == Completed)
  }

  lemma FadesKeepsGroups(a: seq<Order>, b: seq<Order>, groups: map<nat, set<nat>>, fewer: map<nat, set<nat>>)
    requires Fades(a, b) && GroupInv(a, groups)
    requires forall g | g in fewer :: g in groups && fewer[g] == groups[g]
    ensures GroupInv(b, fewer)
  {
    forall i, j | 0 <= i < |b| && 0 <= j < |b| && i != j && b[i].group == b[j].group ensures Pair(b[i], b[j]) {
      assert SameIdentity(a[i], b[i]) && SameIdentity(a[j], b[j]);
      assert Pair(a[i], a[j]);
    }
    forall i | 0 <= i < |b| ensures b[i].group < |b| {
      assert SameIdentity(a[i], b[i]);
    }
    forall g, x | g in fewer && x in fewer[g] ensures x < |b| && b[x].group == g {
      assert x in groups[g] && SameIdentity(a[x], b[x]);
    }
  }

  lemma FadesKeepsRoles(d: Desk, e: Desk)
    requires Fades(d.orders, e.orders) && RoleInv(d)
    requires e.stop == d.stop && e.target == d.target && e.entry == d.entry && e.signal == d.signal
    ensures RoleInv(e)
  {
    forall x: nat | Alive(e.orders, x) ensures Remembered(e, x) {
      assert Alive(d.orders, x) && Remembered(d, x) && SameIdentity(d.orders[x], e.orders[x]);
    }
  }

  /** Same queue, same liveness: the queue invariant carries over. */
  lemma SameLivenessKeepsQueue(d: Desk, e: Desk, hand: set<nat>)
    requires QueueInv(d, hand) && e.pending == d.pending
    requires forall x: nat :: Alive(e.orders, x) <==> Alive(d.orders, x)
    ensures QueueInv(e, hand)
  {
  }

  /** Rewriting figures of an order leaves the structure alone. */
  lemma FiguresKeepStruct(d: Desk, hand: set<nat>, r: nat, o: Order)
    requires Struct(d, hand) && r < |d.orders|
    requires SameIdentity(d.orders[r], o) && o.status == d.orders[r].status
    ensures Struct(Update(d, r, o), hand)
  {
    var e := Update(d, r, o);
    assert Fades(d.orders, e.orders);
    FadesKeepsGroups(d.orders, e.orders, d.groups, d.groups);
    FadesKeepsRoles(d, e);
    SameLivenessKeepsQueue(d, e, hand);
  }

  /** An order in hand may die or be partly filled. */
  lemma StatusInHand(d: Desk, hand: set<nat>, r: nat, o: Order)
    requires Struct(d, hand) && r in hand && Alive(d.orders, r) && SameIdentity(d.orders[r], o)
    requires o.status != Completed
    ensures Struct(Update(d, r, o), hand)
  {
    var e := Update(d, r, o);
    assert Fades(d.orders, e.orders);
    FadesKeepsGroups(d.orders, e.orders, d.groups, d.groups);
    FadesKeepsRoles(d, e);
  }

  /** No other order of the group of `r` has completed. */
  ghost predicate SoleWinner(orders: seq<Order>, r: nat)
    requires r < |orders|
  {
    forall x | 0 <= x < |orders| && x != r && orders[x].group == orders[r].group :: orders[x].status != Completed
  }

  lemma WinnerKeepsGroups(a: seq<Order>, groups: map<nat, set<nat>>, r: nat, o: Order)
    requires GroupInv(a, groups) && r < |a| && SameIdentity(a[r], o) && SoleWinner(a, r)
    ensures GroupInv(a[r := o], groups)
  {
    var b := a[r := o];
    forall i, j | 0 <= i < |b| && 0 <= j < |b| && i != j && b[i].group == b[j].group ensures Pair(b[i], b[j]) {
      assert a[i].group == a[j].group && Pair(a[i], a[j]);
    }
    forall g, x | g in groups && x in groups[g] ensures x < |b| && b[x].group == g {
      assert a[x].group == g;
    }
  }

  /** An order in hand completes, as the only one of its group. */
  lemma CompletedInHand(d: Desk, hand: set<nat>, r: nat, o: Order)
    requires Struct(d, hand) && r in hand && Alive(d.orders, r) && SameIdentity(d.orders[r], o)
    requires o.status == Completed && SoleWinner(d.orders, r)
    ensures Struct(Update(d, r, o), hand)
  {
    var e := Update(d, r, o);
    WinnerKeepsGroups(d.orders, d.groups, r, o);
    forall x: nat | Alive(e.orders, x) ensures Remembered(e, x) {
      assert Alive(d.orders, x) && Remembered(d, x);
    }
  }

  lemma NotifyKeepsStruct(d: Desk, hand: set<nat>, r: nat)
    requires Struct(d, hand)
    ensures Struct(Notify(d, r), hand)
  {
    var e := Notify(d, r);
    assert Fades(d.orders, e.orders);
    FadesKeepsRoles(d, e);
  }

  /** Ending the life of an order in hand. */
  lemma RetireInHand(d: Desk, hand: set<nat>, r: nat, status: Status)
    requires Struct(d, hand) && r in hand && Alive(d.orders, r)
    requires status == Canceled || status == Rejected || status == Margin
    ensures Struct(Retire(d, r, status), hand)
  {
    StatusInHand(d, hand, r, d.orders[r].(status := status));
    NotifyKeepsStruct(Update(d, r, d.orders[r].(status := status)), hand, r);
  }

  lemma ResizeKeepsStruct(d: Desk, hand: set<nat>)
    requires Struct(d, hand)
    ensures Struct(Resize(d), hand)
  {
    var e := Resize(d);
    assert Fades(d.orders, e.orders);
    FadesKeepsGroups(d.orders, e.orders, d.groups, d.groups);
    FadesKeepsRoles(d, e);
    SameLivenessKeepsQueue(d, e, hand);
  }

  // --------------------------------------------------------- cancellation

  /** The queued members of a group. */
  function Victims(d: Desk, group: nat): set<nat> {
    QueuedAmong(d.pending, Members(d, group))
  }

  lemma CompleteFades(d: Desk, r: nat)
    requires r < |d.orders|
    ensures Fades(d.orders, OcoComplete(d, r).orders)
    ensures OcoComplete(d, r).orders == Cancelled(d.orders, Victims(d, d.orders[r].group))
  {
  }

  lemma CompleteQueue(d: Desk, hand: set<nat>, r: nat)
    requires QueueInv(d, hand) && r < |d.orders|
    ensures QueueInv(OcoComplete(d, r), hand)
    ensures forall x: nat ::
              Queued(OcoComplete(d, r).pending, x) <==> Queued(d.pending, x) && x !in Members(d, d.orders[r].group)
  {
    var members := Members(d, d.orders[r].group);
    WithoutDistinct(d.pending, members);
    CompleteFades(d, r);
    var e := OcoComplete(d, r);
    var victims := Victims(d, d.orders[r].group);
    forall x: nat ensures Queued(e.pending, x) <==> Queued(d.pending, x) && x !in members {
    }
    forall x: nat ensures Alive(e.orders, x) <==> Alive(d.orders, x) && x !in victims {
    }
  }

  /** Completing a group keeps the structure. */
  lemma CompleteStruct(d: Desk, hand: set<nat>, r: nat)
    requires Struct(d, hand) && r < |d.orders|
    ensures Struct(OcoComplete(d, r), hand)
  {
    var e := OcoComplete(d, r);
    CompleteQueue(d, hand, r);
    CompleteFades(d, r);
    FadesKeepsGroups(d.orders, e.orders, d.groups, e.groups);
    FadesKeepsRoles(d, e);
  }

  /** Reports of what a completed group cancels are truthful. */
  lemma CompleteReports(d: Desk, hand: set<nat>, r: nat)
    requires Struct(d, hand) && r < |d.orders|
    ensures var e := OcoComplete(d, r);
            && d.notices <= e.notices
            && (forall n | n in e.notices[|d.notices|..] :: ReportsCanceled(e.orders, n))
  {
    var e := OcoComplete(d, r);
    var refs := Backward(d.pending, Members(d, d.orders[r].group));
    var news := NoticesFor(d.orders, refs, Canceled);
    assert e.notices[|d.notices|..] == news;
    forall i | 0 <= i < |news| ensures ReportsCanceled(e.orders, news[i]) {
      assert refs[i] in refs;
    }
  }

  lemma CompleteMembers(d: Desk, r: nat)
    requires r < |d.orders|
    ensures forall g | g != d.orders[r].group :: Members(OcoComplete(d, r), g) == Members(d, g)
    ensures SameDesk(d, OcoComplete(d, r))
  {
  }

  lemma CompleteVictims(d: Desk, hand: set<nat>, r: nat)
    requires Struct(d, hand) && r < |d.orders|
    ensures forall x | x in Victims(d, d.orders[r].group) ::
              x < |d.orders| ==> Live(d.orders[x]) && d.orders[x].group == d.orders[r].group
  {
  }

  lemma CompleteThins(d: Desk, hand: set<nat>, r: nat)
    requires Struct(d, hand) && r < |d.orders|
    ensures Thinned(d, OcoComplete(d, r), d.orders[r].group)
  {
    CompleteReports(d, hand, r);
    CompleteFades(d, r);
    CompleteMembers(d, r);
    CompleteVictims(d, hand, r);
  }

  /** Completing a group cancels exactly its queued members. */
  lemma CompleteEffect(d: Desk, hand: set<nat>, r: nat)
    requires Struct(d, hand) && r < |d.orders|
    ensures var e := OcoComplete(d, r);
            && Thinned(d, e, d.orders[r].group)
            && (forall x | x in Members(d, d.orders[r].group) && Queued(d.pending, x) :: !Alive(e.orders, x))
  {
    CompleteThins(d, hand, r);
    CompleteFades(d, r);
  }

  lemma ThinnedAfterRetire(d: Desk, t: Desk, e: Desk, r: nat)
    requires Alive(d.orders, r) && Queued(d.pending, r) && t == Retire(Remove(d, r), r, Canceled)
    requires Thinned(t, e, d.orders[r].group)
    ensures Thinned(d, e, d.orders[r].group)
  {
    var n := Snapshot(r, d.orders[r], Canceled);
    assert t.notices == d.notices + [n];
    assert e.notices[|d.notices|..] == [n] + e.notices[|t.notices|..];
    assert ReportsCanceled(e.orders, n);
  }

  lemma CancelStruct(d: Desk, hand: set<nat>, r: nat)
    requires Struct(d, hand) && Queued(d.pending, r)
    ensures Struct(Retire(Remove(d, r), r, Canceled), hand)
  {
    var removed := Remove(d, r);
    RemoveToHand(d, hand, r);
    RetireInHand(removed, hand + {r}, r, Canceled);
    DropFromHand(Retire(removed, r, Canceled), hand + {r}, r);
    assert hand + {r} - {r} == hand;
  }

  /** Canceling a queued order: it dies, and with it only queued members of its group. */
  lemma CancelEffect(d: Desk, hand: set<nat>, r: nat)
    requires Struct(d, hand) && Queued(d.pending, r)
    ensures var e := Cancel(d, r);
            && Struct(e, hand)
            && Thinned(d, e, d.orders[r].group)
            && !Alive(e.orders, r)
            && (forall x | x in Members(d, d.orders[r].group) && Queued(d.pending, x) :: !Alive(e.orders, x))
  {
    var t := Retire(Remove(d, r), r, Canceled);
    CancelStruct(d, hand, r);
    CompleteStruct(t, hand, r);
    CompleteEffect(t, hand, r);
    ThinnedAfterRetire(d, t, OcoComplete(t, r), r);
  }
}
