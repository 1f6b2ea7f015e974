/**
 Opening executions of active protection come before ambiguous touches, by
 reordering each OCO group inside the queue slots it already holds.
 */
module OcoPriority {
  import opened Wrappers
  import opened StableSort
  import opened ExecutionPricing
  import opened DeskTypes

  /** Opening stops first, opening targets next, everything else last. */
  function OpeningPriority(o: Order, open: real): nat {
    match o.kind
    case StopOrder => if (if o.buy then open >= o.price else open <= o.price) then 0 else 2
    case LimitOrder => if (if o.buy then open <= o.price else open >= o.price) then 1 else 2
    case MarketOrder => 2
  }

  /** Active protection: live, created before the bar, a stop or a target. */
  predicate Active(orders: seq<Order>, r: Option<nat>, bar: Bar) {
    && r.Some? && r.value < |orders|
    && Live(orders[r.value])
    && orders[r.value].createdAt < bar.timestamp
    && Protective(orders[r.value].role)
  }

  predicate InGroup(orders: seq<Order>, r: Option<nat>, bar: Bar, group: nat) {
    Active(orders, r, bar) && orders[r.value].group == group
  }

  /** The queue slots one group holds, in order. */
  function Slots(orders: seq<Order>, pending: seq<Option<nat>>, bar: Bar, group: nat, n: nat): (s: seq<nat>)
    requires n <= |pending|
    ensures forall i | 0 <= i < |s| :: s[i] < n && InGroup(orders, pending[s[i]], bar, group)
    ensures forall i, j | 0 <= i < j < |s| :: s[i] < s[j]
  {
    if n == 0 then []
    else
      var rest := Slots(orders, pending, bar, group, n - 1);
      if InGroup(orders, pending[n - 1], bar, group) then rest + [n - 1] else rest
  }

  lemma {:induction false} SlotFound(orders: seq<Order>, pending: seq<Option<nat>>, bar: Bar, group: nat, n: nat, k: nat)
    requires k < n <= |pending| && InGroup(orders, pending[k], bar, group)
    ensures k in Slots(orders, pending, bar, group, n)
  {
    if k < n - 1 {
      SlotFound(orders, pending, bar, group, n - 1, k);
    }
  }

  predicate Before(orders: seq<Order>, bar: Bar, a: Option<nat>, b: Option<nat>) {
    PriorityOf(orders, bar, a) <= PriorityOf(orders, bar, b)
  }

  function PriorityOf(orders: seq<Order>, bar: Bar, r: Option<nat>): nat {
    if r.Some? && r.value < |orders| then OpeningPriority(orders[r.value], bar.open) else 2
  }

  function ByOpening(orders: seq<Order>, bar: Bar): (Option<nat>, Option<nat>) -> bool {
    (a: Option<nat>, b: Option<nat>) => Before(orders, bar, a, b)
  }

  /** Queue entries in opening priority, ties in queue order. */
  function Ranked(orders: seq<Order>, bar: Bar, xs: seq<Option<nat>>): (ys: seq<Option<nat>>)
    ensures |ys| == |xs|
  {
    Sort(ByOpening(orders, bar), xs)
  }

  /** The queue entries at the given slots. */
  function At<T>(pending: seq<T>, slots: seq<nat>): (xs: seq<T>)
    requires forall i | 0 <= i < |slots| :: slots[i] < |pending|
    ensures |xs| == |slots| && forall i | 0 <= i < |xs| :: xs[i] == pending[slots[i]]
  {
    seq(|slots|, i requires 0 <= i < |slots| => pending[slots[i]])
  }

  /** The queue with `xs` written into the given slots. */
  function Put<T>(pending: seq<T>, slots: seq<nat>, xs: seq<T>): (p: seq<T>)
    requires |xs| == |slots| && forall i | 0 <= i < |slots| :: slots[i] < |pending|
    requires forall i, j | 0 <= i < j < |slots| :: slots[i] < slots[j]
    ensures |p| == |pending|
    ensures forall i | 0 <= i < |slots| :: p[slots[i]] == xs[i]
    ensures forall k: nat | k < |p| && k !in slots :: p[k] == pending[k]
  {
    if slots == [] then pending
    else
      var last := |slots| - 1;
      var p := Put(pending, slots[..last], xs[..last]);
      assert slots[last] !in slots[..last];
      p[slots[last] := xs[last]]
  }

  /** One group sorted inside its own slots. */
  function SortGroup(orders: seq<Order>, pending: seq<Option<nat>>, bar: Bar, group: nat): (p: seq<Option<nat>>)
    ensures |p| == |pending|
  {
    var slots := Slots(orders, pending, bar, group, |pending|);
    Put(pending, slots, Ranked(orders, bar, At(pending, slots)))
  }

  /** Every group sorted inside its own slots, groups in order of first appearance. */
  function SortGroups(orders: seq<Order>, pending: seq<Option<nat>>, bar: Bar, groups: seq<nat>): (p: seq<Option<nat>>)
    ensures |p| == |pending|
    decreases |groups|
  {
    if groups == [] then pending
    else SortGroups(orders, SortGroup(orders, pending, bar, groups[0]), bar, groups[1..])
  }

  /** The groups of the active protection in a queue, each once, in order of first appearance. */
  function ActiveGroups(orders: seq<Order>, pending: seq<Option<nat>>, bar: Bar): (g: seq<nat>)
    ensures NoDup(g)
  {
    if pending == [] then []
    else
      var last := pending[|pending| - 1];
      var rest := ActiveGroups(orders, pending[..|pending| - 1], bar);
      if Active(orders, last, bar) && orders[last.value].group !in rest
      then rest + [orders[last.value].group] else rest
  }

  function Prioritized(orders: seq<Order>, pending: seq<Option<nat>>, bar: Bar): (p: seq<Option<nat>>)
    ensures |p| == |pending|
  {
    SortGroups(orders, pending, bar, ActiveGroups(orders, pending, bar))
  }

  // ------------------------------------------------------------- effects

  lemma {:induction false} ActiveGroupsComplete(orders: seq<Order>, pending: seq<Option<nat>>, bar: Bar, k: nat)
    requires k < |pending| && Active(orders, pending[k], bar)
    ensures orders[pending[k].value].group in ActiveGroups(orders, pending, bar)
  {
    var n := |pending| - 1;
    if k < n {
      ActiveGroupsComplete(orders, pending[..n], bar, k);
    }
  }

  /** `p` and `q` hold active protection of the same groups in the same slots. */
  ghost predicate SameSlots(orders: seq<Order>, bar: Bar, p: seq<Option<nat>>, q: seq<Option<nat>>) {
    && |p| == |q|
    && forall k | 0 <= k < |p| :: SameSlot(orders, bar, p[k], q[k])
  }

  /** Anything but active protection keeps its slot; active protection yields it only to its own group. */
  predicate SameSlot(orders: seq<Order>, bar: Bar, a: Option<nat>, b: Option<nat>) {
    if Active(orders, a, bar) then InGroup(orders, b, bar, orders[a.value].group) else b == a
  }

  lemma {:induction false} SlotsAgree(orders: seq<Order>, bar: Bar, p: seq<Option<nat>>, q: seq<Option<nat>>, group: nat, n: nat)
    requires SameSlots(orders, bar, p, q) && n <= |p|
    ensures Slots(orders, p, bar, group, n) == Slots(orders, q, bar, group, n)
  {
    if n > 0 {
      SlotsAgree(orders, bar, p, q, group, n - 1);
      assert SameSlot(orders, bar, p[n - 1], q[n - 1]);
    }
  }

  lemma SameSlotsTransitive(orders: seq<Order>, bar: Bar, p: seq<Option<nat>>, q: seq<Option<nat>>, r: seq<Option<nat>>)
    requires SameSlots(orders, bar, p, q) && SameSlots(orders, bar, q, r)
    ensures SameSlots(orders, bar, p, r)
  {
    forall k | 0 <= k < |p| ensures SameSlot(orders, bar, p[k], r[k]) {
      assert SameSlot(orders, bar, p[k], q[k]) && SameSlot(orders, bar, q[k], r[k]);
    }
  }

  function Count<T(==)>(s: seq<T>, v: T): nat {
    multiset(s)[v]
  }

  lemma CountUpdate<T>(s: seq<T>, i: nat, x: T, v: T)
    requires i < |s|
    ensures Count(s[i := x], v) + Count([s[i]], v) == Count(s, v) + Count([x], v)
  {
  }

  lemma CountLast<T>(s: seq<T>, v: T)
    requires s != []
    ensures Count(s, v) == Count(s[..|s| - 1], v) + Count([s[|s| - 1]], v)
  {
    assert s == s[..|s| - 1] + [s[|s| - 1]];
  }

  ghost predicate Ascending<T>(pending: seq<T>, slots: seq<nat>) {
    && (forall i | 0 <= i < |slots| :: slots[i] < |pending|)
    && (forall i, j | 0 <= i < j < |slots| :: slots[i] < slots[j])
  }

  lemma PutStep<T>(pending: seq<T>, slots: seq<nat>, xs: seq<T>)
    requires |xs| == |slots| > 0 && Ascending(pending, slots)
    ensures Ascending(pending, slots[..|slots| - 1])
    ensures var last := |slots| - 1;
            var q := Put(pending, slots[..last], xs[..last]);
            && Put(pending, slots, xs) == q[slots[last] := xs[last]]
            && q[slots[last]] == pending[slots[last]]
            && At(pending, slots)[..last] == At(pending, slots[..last])
            && At(pending, slots)[last] == pending[slots[last]]
  {
    var last := |slots| - 1;
    assert slots[last] !in slots[..last];
  }

  /** Writing one more slot is one more step of the whole write. */
  lemma PutNext<T>(pending: seq<T>, slots: seq<nat>, xs: seq<T>, j: nat)
    requires j < |xs| == |slots| && Ascending(pending, slots)
    ensures Ascending(pending, slots[..j]) && Ascending(pending, slots[..j + 1])
    ensures Put(pending, slots[..j + 1], xs[..j + 1]) == Put(pending, slots[..j], xs[..j])[slots[j] := xs[j]]
  {
    var s, x := slots[..j + 1], xs[..j + 1];
    PutStep(pending, s, x);
    assert s[..j] == slots[..j] && x[..j] == xs[..j];
  }

  /** Writing `xs` into slots trades what the slots held for `xs`. */
  lemma {:induction false} PutCounts<T>(pending: seq<T>, slots: seq<nat>, xs: seq<T>, v: T)
    requires |xs| == |slots| && Ascending(pending, slots)
    ensures Count(Put(pending, slots, xs), v) + Count(At(pending, slots), v) == Count(pending, v) + Count(xs, v)
  {
    if slots == [] {
      assert At(pending, slots) == [] && xs == [];
    } else {
      var last := |slots| - 1;
      PutStep(pending, slots, xs);
      PutCounts(pending, slots[..last], xs[..last], v);
      PutCountsStep(pending, slots, xs, Put(pending, slots[..last], xs[..last]), v);
    }
  }

  lemma PutCountsStep<T>(pending: seq<T>, slots: seq<nat>, xs: seq<T>, q: seq<T>, v: T)
    requires |xs| == |slots| > 0 && Ascending(pending, slots) && |q| == |pending|
    requires var last := |slots| - 1;
             && Ascending(pending, slots[..last])
             && q[slots[last]] == pending[slots[last]]
             && Count(q, v) + Count(At(pending, slots[..last]), v) == Count(pending, v) + Count(xs[..last], v)
    ensures var last := |slots| - 1;
            Count(q[slots[last] := xs[last]], v) + Count(At(pending, slots), v) == Count(pending, v) + Count(xs, v)
  {
    var last := |slots| - 1;
    var held := At(pending, slots);
    CountUpdate(q, slots[last], xs[last], v);
    CountLast(held, v);
    assert held[..last] == At(pending, slots[..last]) && held[last] == q[slots[last]];
    CountLast(xs, v);
  }

  lemma SortGroupPermutes(orders: seq<Order>, pending: seq<Option<nat>>, bar: Bar, group: nat)
    ensures multiset(SortGroup(orders, pending, bar, group)) == multiset(pending)
  {
    var slots := Slots(orders, pending, bar, group, |pending|);
    var xs := At(pending, slots);
    var ys := Ranked(orders, bar, xs);
    var p := SortGroup(orders, pending, bar, group);
    assert multiset(ys) == multiset(xs);
    forall v ensures multiset(p)[v] == multiset(pending)[v] {
      PutCounts(pending, slots, ys, v);
    }
  }

  lemma SortGroupEffect(orders: seq<Order>, pending: seq<Option<nat>>, bar: Bar, group: nat)
    ensures var p := SortGroup(orders, pending, bar, group);
            var slots := Slots(orders, pending, bar, group, |pending|);
            && SameSlots(orders, bar, pending, p)
            && multiset(p) == multiset(pending)
            && At(p, slots) == Ranked(orders, bar, At(pending, slots))
            && (forall k: nat | k < |p| && !InGroup(orders, pending[k], bar, group) :: p[k] == pending[k])
  {
    var slots := Slots(orders, pending, bar, group, |pending|);
    SortGroupPermutes(orders, pending, bar, group);
    var p := SortGroup(orders, pending, bar, group);
    forall k: nat | k < |p| ensures SameSlot(orders, bar, pending[k], p[k]) {
      if k in slots {
        var i :| 0 <= i < |slots| && slots[i] == k;
        RankedStaysInGroup(orders, pending, bar, group, i);
      }
    }
  }

  lemma RankedStaysInGroup(orders: seq<Order>, pending: seq<Option<nat>>, bar: Bar, group: nat, i: nat)
    requires i < |Slots(orders, pending, bar, group, |pending|)|
    ensures InGroup(orders, Ranked(orders, bar, At(pending, Slots(orders, pending, bar, group, |pending|)))[i], bar, group)
  {
    var xs := At(pending, Slots(orders, pending, bar, group, |pending|));
    var x := Ranked(orders, bar, xs)[i];
    SortMembers(ByOpening(orders, bar), xs, x);
    assert x in xs;
  }

  lemma GroupUntouched(orders: seq<Order>, pending: seq<Option<nat>>, bar: Bar, group: nat, other: nat)
    requires group != other
    ensures var p := SortGroup(orders, pending, bar, group);
            var slots := Slots(orders, pending, bar, other, |pending|);
            At(p, slots) == At(pending, slots)
  {
    SortGroupEffect(orders, pending, bar, group);
  }

  lemma {:induction false} SortGroupsEffect(orders: seq<Order>, pending: seq<Option<nat>>, bar: Bar, groups: seq<nat>, group: nat)
    requires NoDup(groups)
    ensures var p := SortGroups(orders, pending, bar, groups);
            var slots := Slots(orders, pending, bar, group, |pending|);
            && SameSlots(orders, bar, pending, p)
            && multiset(p) == multiset(pending)
            && At(p, slots) == if group in groups then Ranked(orders, bar, At(pending, slots)) else At(pending, slots)
    decreases |groups|
  {
    if groups != [] {
      var q := SortGroup(orders, pending, bar, groups[0]);
      var p := SortGroups(orders, q, bar, groups[1..]);
      SortGroupEffect(orders, pending, bar, groups[0]);
      SortGroupsEffect(orders, q, bar, groups[1..], group);
      SameSlotsTransitive(orders, bar, pending, q, p);
      SlotsAgree(orders, bar, pending, q, group, |pending|);
      if group != groups[0] {
        GroupUntouched(orders, pending, bar, groups[0], group);
      }
    }
  }

  /**
   Prioritisation only permutes the queue: everything outside active
   protection keeps its slot, each group keeps its slots, and inside them the
   group is sorted by opening stop, opening target, then the rest.
   */
  lemma PrioritizedEffect(orders: seq<Order>, pending: seq<Option<nat>>, bar: Bar, group: nat)
    ensures var p := Prioritized(orders, pending, bar);
            var slots := Slots(orders, pending, bar, group, |pending|);
            && SameSlots(orders, bar, pending, p)
            && multiset(p) == multiset(pending)
            && Slots(orders, p, bar, group, |p|) == slots
            && SortedInGroup(orders, bar, At(p, slots))
            && (forall c: Option<nat> ::
                  RankedLike(ByOpening(orders, bar), c, At(p, slots))
                  == RankedLike(ByOpening(orders, bar), c, At(pending, slots)))
  {
    var p := Prioritized(orders, pending, bar);
    var groups := ActiveGroups(orders, pending, bar);
    var slots := Slots(orders, pending, bar, group, |pending|);
    var xs := At(pending, slots);
    SortGroupsEffect(orders, pending, bar, groups, group);
    SlotsAgree(orders, bar, pending, p, group, |pending|);
    if slots != [] {
      ActiveGroupsComplete(orders, pending, bar, slots[0]);
      RankedIsSortedAndStable(orders, bar, xs);
    }
  }

  ghost predicate SortedInGroup(orders: seq<Order>, bar: Bar, xs: seq<Option<nat>>) {
    forall i, j | 0 <= i < j < |xs| :: Before(orders, bar, xs[i], xs[j])
  }

  lemma RankedIsSortedAndStable(orders: seq<Order>, bar: Bar, xs: seq<Option<nat>>)
    ensures SortedInGroup(orders, bar, Ranked(orders, bar, xs))
    ensures forall c: Option<nat> ::
              RankedLike(ByOpening(orders, bar), c, Ranked(orders, bar, xs)) == RankedLike(ByOpening(orders, bar), c, xs)
  {
    var leq := ByOpening(orders, bar);
    assert TotalPreorder(leq);
    SortIsSorted(leq, xs);
    forall c: Option<nat> ensures RankedLike(leq, c, Ranked(orders, bar, xs)) == RankedLike(leq, c, xs) {
      SortIsStable(leq, c, xs);
    }
  }
}
