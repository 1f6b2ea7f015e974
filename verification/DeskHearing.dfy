/**
 Hearing the notifications of a bar. The one case the broker leaves open, a leg
 that was in hand when its sibling completed, is closed here and only here.
 */
module DeskHearing {
  import opened Wrappers
  import opened Rounding
  import opened TradeBook
  import opened ExecutionPricing
  import opened ExecutionBroker
  import opened DeskTypes
  import opened DeskExecution
  import opened DeskBar
  import opened DeskStructure
  import opened DeskSafety
  import opened DeskSteps
  import opened DeskPass
  import opened DeskOpening
  import opened DeskAdapter

  predicate DeadStatus(status: Status) {
    status in {Canceled, Margin, Rejected}
  }

  /** Notifications that say nothing a later bar could contradict. */
  ghost predicate SettledNotices(d: Desk) {
    forall n | n in d.notices ::
      && n.ref < |d.orders| && d.orders[n.ref].role == n.role
      && (n.status == Accepted || (DeadStatus(n.status) && !Alive(d.orders, n.ref)))
  }

  predicate Reported(notices: seq<Notice>, r: nat) {
    exists n :: n in notices && n.ref == r && DeadStatus(n.status)
  }

  /** The entry the adapter canceled is forgotten, and its cancellation will be heard. */
  predicate CancelHeard(d: Desk, notices: seq<Notice>) {
    d.cancelledEntry.Some? ==> d.entry == None && Reported(notices, d.cancelledEntry.value)
  }

  /** Between bars: every invariant, no sentinel, and nothing pending that a bar could contradict. */
  ghost predicate Resting(d: Desk, m: Model) {
    && Struct(d, {}) && Sound(d.book) && Covered(d) && LotRules(d, m)
    && (d.book.size == 0.0 ==> NoLegs(d))
    && SignalRules(d) && EntryRules(d)
    && None !in d.pending
    && SettledNotices(d) && CancelHeard(d, d.notices)
  }

  lemma RestingSafe(d: Desk, m: Model, timestamp: int)
    requires Resting(d, m)
    ensures Safe(d, m, timestamp, {})
  {
  }

  // ------------------------------------------------------- the broker's bar

  /** What a whole bar of the broker guarantees. */
  ghost predicate BarDone(d: Desk, e: Desk, m: Model, timestamp: int) {
    Safe(e, m, timestamp, {}) && None !in e.pending && Elder(d.orders, e.orders) && Keeps(d, e)
  }

  lemma BarOpens(d: Desk, m: Model, bar: Bar, due: seq<FundingRecord>, mark: Option<Mark>)
    requires Safe(d, m, bar.timestamp, {}) && None !in d.pending
    ensures var l := Liquidate(OpenDesk(d, m, bar, due), m, bar, mark);
            BarDone(d, l, m, bar.timestamp)
  {
    var o := OpenDesk(d, m, bar, due);
    OpenDeskSafe(d, m, bar, due);
    LiquidateSafe(o, m, bar, mark);
    LiquidateSteps(o, m, bar, mark);
  }

  lemma WalkDone(l: Desk, m: Model, bar: Bar)
    requires Safe(l, m, bar.timestamp, {}) && None !in l.pending
    ensures BarDone(l, Pass(Prepared(SignalsAtOpen(l, m, bar, l.pending), bar), m, bar), m, bar.timestamp)
  {
    SignalsAtOpenSafe(l, m, bar, l.pending);
    var s := SignalsAtOpen(l, m, bar, l.pending);
    PreparedSafe(s, m, bar);
    PassSafe(Prepared(s, bar), m, bar);
    PassKeeps(Prepared(s, bar), m, bar);
    KeepsTrans(l, Prepared(s, bar), Pass(Prepared(s, bar), m, bar));
    ElderTrans(l.orders, s.orders, Pass(Prepared(s, bar), m, bar).orders);
  }

  /** Funding, liquidation, signal closes and the walk: the broker's bar keeps the desk safe. */
  lemma BrokerBarSafe(d: Desk, m: Model, bar: Bar, due: seq<FundingRecord>, mark: Option<Mark>)
    requires Safe(d, m, bar.timestamp, {}) && None !in d.pending
    ensures BarDone(d, BrokerBar(d, m, bar, due, mark), m, bar.timestamp)
  {
    var l := Liquidate(OpenDesk(d, m, bar, due), m, bar, mark);
    BarOpens(d, m, bar, due, mark);
    WalkDone(l, m, bar);
    KeepsTrans(d, l, BrokerBar(d, m, bar, due, mark));
    ElderTrans(d.orders, l.orders, BrokerBar(d, m, bar, due, mark).orders);
  }

  // -------------------------------------------------------- notifications

  /** The notifications `ns` are still to be heard; those since caused wait for the next bar. */
  ghost predicate Hearing(d: Desk, m: Model, timestamp: int, ns: seq<Notice>) {
    && Safe(d.(notices := ns), m, timestamp, {})
    && SettledNotices(d)
    && None !in d.pending
    && CancelHeard(d, ns)
  }

  lemma StillReported(d: Desk, n: Notice, ns: seq<Notice>)
    requires CancelHeard(d, [n] + ns) && (d.cancelledEntry == Some(n.ref) ==> !DeadStatus(n.status))
    ensures CancelHeard(d, ns)
  {
    if d.cancelledEntry.Some? {
      var k :| k in [n] + ns && k.ref == d.cancelledEntry.value && DeadStatus(k.status);
      assert k in ns;
    }
  }

  lemma StillToHear(n: Notice, ns: seq<Notice>)
    requires !(n.status == Completed && Protective(n.role))
    ensures LegCompleted([n] + ns) ==> LegCompleted(ns)
  {
    if LegCompleted([n] + ns) {
      var k :| k in [n] + ns && k.status == Completed && Protective(k.role);
      assert k in ns;
    }
  }

  lemma FewerNotices(d: Desk, timestamp: int, n: Notice, ns: seq<Notice>)
    requires NoticeRules(d.(notices := [n] + ns), timestamp)
    ensures NoticeRules(d.(notices := ns), timestamp)
  {
    var v, w := d.(notices := [n] + ns), d.(notices := ns);
    forall k | k in ns ensures NoticeRule(w, timestamp, k) {
      assert k in v.notices && NoticeRule(v, timestamp, k);
    }
  }

  /** A notification that needs no answer. */
  lemma HearNothing(d: Desk, m: Model, timestamp: int, n: Notice, ns: seq<Notice>)
    requires Hearing(d, m, timestamp, [n] + ns)
    requires !(n.status == Completed && Protective(n.role))
    requires d.cancelledEntry == Some(n.ref) ==> !DeadStatus(n.status)
    ensures Hearing(d, m, timestamp, ns)
  {
    FewerSafe(d, m, timestamp, n, ns);
    StillReported(d, n, ns);
  }

  lemma FewerSafe(d: Desk, m: Model, timestamp: int, n: Notice, ns: seq<Notice>)
    requires Safe(d.(notices := [n] + ns), m, timestamp, {}) && !(n.status == Completed && Protective(n.role))
    ensures Safe(d.(notices := ns), m, timestamp, {})
  {
    SameStructure(d.(notices := [n] + ns), d.(notices := ns), {});
    FewerNotices(d, timestamp, n, ns);
    StillToHear(n, ns);
  }

  /** Forgetting the entry is safe once no entry is alive. */
  lemma ForgetEntry(d: Desk, m: Model, timestamp: int, n: Notice, ns: seq<Notice>, cancelled: Option<nat>)
    requires Hearing(d, m, timestamp, [n] + ns) && NoneLive(d, EntryRole)
    requires !(n.status == Completed && Protective(n.role))
    requires cancelled == None || (cancelled == d.cancelledEntry && n.status == Completed)
    ensures Hearing(d.(entry := None, cancelledEntry := cancelled), m, timestamp, ns)
  {
    var quiet := d.(cancelledEntry := cancelled);
    var e := d.(entry := None, cancelledEntry := cancelled);
    SameStructure(d.(notices := [n] + ns), quiet.(notices := [n] + ns), {});
    QuietRules(d, quiet, m, timestamp, [n] + ns);
    HearNothing(quiet, m, timestamp, n, ns);
    forall x: nat | Alive(e.orders, x) ensures Remembered(e.(notices := ns), x) {
      assert Remembered(quiet.(notices := ns), x);
    }
    QuietRules(quiet, e, m, timestamp, ns);
  }

  /** Everything but the structure only looks at orders, books and notifications. */
  lemma QuietRules(d: Desk, e: Desk, m: Model, timestamp: int, ns: seq<Notice>)
    requires Safe(d.(notices := ns), m, timestamp, {})
    requires e == d.(entry := e.entry, cancelledEntry := e.cancelledEntry)
    ensures Struct(e.(notices := ns), {}) ==> Safe(e.(notices := ns), m, timestamp, {})
  {
    forall k | k in ns ensures NoticeRule(e.(notices := ns), timestamp, k) {
      assert NoticeRule(d.(notices := ns), timestamp, k);
    }
  }

  /** The sibling of a completed leg, if it is still queued, dies when the completion is heard. */
  lemma SiblingCancels(d: Desk, r: Option<nat>, role: Role, m: Model, timestamp: int, ns: seq<Notice>)
    requires Hearing(d, m, timestamp, ns) && Protective(role) && d.book.size == 0.0
    requires r == (if role == StopLoss then d.stop else d.target)
    ensures var e := CancelRemembered(d, r);
            && Struct(e, {}) && SettledNotices(e) && SameDesk(d, e) && None !in e.pending
            && Duller(d.orders, e.orders) && NoneLive(e, role)
  {
    var e := CancelRemembered(d, r);
    SameStructure(d.(notices := ns), d, {});
    if r.Some? {
      CancelSteps(d, r.value);
      if Queued(d.pending, r.value) {
        CancelEffect(d, {}, r.value);
        ThinnedIsDull(d, e, d.orders[r.value].group);
        ThinnedSettles(d, e, d.orders[r.value].group);
      }
    }
    forall x: nat | Alive(e.orders, x) ensures e.orders[x].role != role {
      assert Remembered(e, x);
    }
  }

  lemma ThinnedSettles(d: Desk, e: Desk, group: nat)
    requires SettledNotices(d) && Thinned(d, e, group)
    ensures SettledNotices(e)
  {
    forall n | n in e.notices
      ensures n.ref < |e.orders| && e.orders[n.ref].role == n.role
      ensures n.status == Accepted || (DeadStatus(n.status) && !Alive(e.orders, n.ref))
    {
      if n !in d.notices {
        assert e.notices == d.notices + e.notices[|d.notices|..];
        assert n in e.notices[|d.notices|..];
      }
    }
  }

  lemma BracketForgotten(e: Desk)
    requires Struct(e, {}) && NoLegs(e)
    ensures Struct(e.(stop := None, target := None), {})
  {
    var z := e.(stop := None, target := None);
    forall x: nat | Alive(z.orders, x) ensures Remembered(z, x) {
      assert Remembered(e, x);
    }
  }

  /** A completed leg has been heard: its sibling is gone and both references are cleared. */
  lemma LegHeard(d: Desk, e: Desk, m: Model, timestamp: int, n: Notice, ns: seq<Notice>)
    requires Hearing(d, m, timestamp, [n] + ns) && d.book.size == 0.0
    requires Struct(e, {}) && SettledNotices(e) && SameDesk(d, e) && None !in e.pending
    requires Duller(d.orders, e.orders) && NoLegs(e) && n.status == Completed
    ensures Hearing(e.(stop := None, target := None), m, timestamp, ns)
  {
    LegHeardSafe(d, e, m, timestamp, n, ns);
    StillReported(d, n, ns);
  }

  lemma LegHeardSafe(d: Desk, e: Desk, m: Model, timestamp: int, n: Notice, ns: seq<Notice>)
    requires Safe(d.(notices := [n] + ns), m, timestamp, {}) && d.book.size == 0.0
    requires Struct(e, {}) && SameDesk(d, e) && Duller(d.orders, e.orders) && NoLegs(e)
    ensures Safe(e.(stop := None, target := None, notices := ns), m, timestamp, {})
  {
    var z := e.(stop := None, target := None);
    BracketForgotten(e);
    SameStructure(z, z.(notices := ns), {});
    LegNotices(d, e, timestamp, n, ns);
    DullerNoneLive(d, e);
  }

  lemma LegNotices(d: Desk, e: Desk, timestamp: int, n: Notice, ns: seq<Notice>)
    requires NoticeRules(d.(notices := [n] + ns), timestamp) && d.book.size == 0.0
    requires SameDesk(d, e) && Duller(d.orders, e.orders) && NoLegs(e)
    ensures NoticeRules(e.(stop := None, target := None, notices := ns), timestamp)
  {
    var z := e.(stop := None, target := None, notices := ns);
    DullerNoneLive(d, e);
    forall k | k in ns ensures NoticeRule(z, timestamp, k) {
      assert k in [n] + ns;
      assert NoticeRule(d.(notices := [n] + ns), timestamp, k);
    }
  }

  /** Each notification, heard in turn, keeps the desk safe. */
  lemma DeliverOneSafe(d: Desk, m: Model, timestamp: int, n: Notice, ns: seq<Notice>)
    requires Hearing(d, m, timestamp, [n] + ns)
    ensures Hearing(DeliverOne(d, n), m, timestamp, ns)
    ensures Elder(d.orders, DeliverOne(d, n).orders)
  {
    assert NoticeRule(d.(notices := [n] + ns), timestamp, n);
    if n.status == Completed && Protective(n.role) {
      LegCompletionHeard(d, m, timestamp, n, ns);
    } else if n.status == Completed && n.role == EntryRole {
      ForgetEntry(d, m, timestamp, n, ns, d.cancelledEntry);
    } else if n.status == Completed && Forced(n.role) {
      ForcedHeard(d, m, timestamp, n, ns);
    } else if DeadStatus(n.status) && (d.entry == Some(n.ref) || d.cancelledEntry == Some(n.ref)) {
      DeadEntryHeard(d, m, timestamp, n, ns);
    } else {
      HearNothing(d, m, timestamp, n, ns);
    }
  }

  /** A liquidation or an end of data that completed. */
  lemma ForcedHeard(d: Desk, m: Model, timestamp: int, n: Notice, ns: seq<Notice>)
    requires Hearing(d, m, timestamp, [n] + ns) && n.status == Completed && Forced(n.role)
    ensures Hearing(DeliverOne(d, n), m, timestamp, ns)
    ensures Elder(d.orders, DeliverOne(d, n).orders)
  {
    assert NoticeRule(d.(notices := [n] + ns), timestamp, n);
    SameStructure(d.(notices := [n] + ns), d, {});
    LegHeard(d, d, m, timestamp, n, ns);
  }

  lemma DeadEntryHeard(d: Desk, m: Model, timestamp: int, n: Notice, ns: seq<Notice>)
    requires Hearing(d, m, timestamp, [n] + ns) && DeadStatus(n.status)
    requires d.entry == Some(n.ref) || d.cancelledEntry == Some(n.ref)
    ensures Hearing(d.(entry := None, cancelledEntry := None), m, timestamp, ns)
  {
    assert NoticeRule(d.(notices := [n] + ns), timestamp, n);
    forall x: nat | Alive(d.orders, x) ensures d.orders[x].role != EntryRole {
      assert Remembered(d.(notices := [n] + ns), x);
    }
    ForgetEntry(d, m, timestamp, n, ns, None);
  }

  lemma LegCompletionHeard(d: Desk, m: Model, timestamp: int, n: Notice, ns: seq<Notice>)
    requires Hearing(d, m, timestamp, [n] + ns) && n.status == Completed && Protective(n.role)
    ensures Hearing(DeliverOne(d, n), m, timestamp, ns)
    ensures Elder(d.orders, DeliverOne(d, n).orders)
  {
    var v := d.(notices := [n] + ns);
    assert NoticeRule(v, timestamp, n);
    var sibling := if n.role == StopLoss then TakeProfit else StopLoss;
    var r := if n.role == StopLoss then d.target else d.stop;
    SiblingCancels(d, r, sibling, m, timestamp, [n] + ns);
    var e := CancelRemembered(d, r);
    OwnSideDead(v, e, n.role);
    LegHeard(d, e, m, timestamp, n, ns);
  }

  /** A completed leg was the remembered one of its side, so that side has nothing alive. */
  lemma OwnSideDead(v: Desk, e: Desk, role: Role)
    requires Struct(v, {}) && Duller(v.orders, e.orders) && Protective(role)
    requires !IsAlive(v, if role == StopLoss then v.stop else v.target)
    ensures NoneLive(e, role)
  {
    DullerNoneLive(v, e);
    forall x: nat | Alive(v.orders, x) ensures v.orders[x].role != role {
      assert Remembered(v, x);
    }
  }

  lemma {:induction false} DeliverAllSafe(d: Desk, m: Model, timestamp: int, ns: seq<Notice>)
    requires Hearing(d, m, timestamp, ns)
    ensures Hearing(DeliverAll(d, ns), m, timestamp, []) && Elder(d.orders, DeliverAll(d, ns).orders)
    decreases |ns|
  {
    if ns != [] {
      assert [ns[0]] + ns[1..] == ns;
      var e := DeliverOne(d, ns[0]);
      DeliverOneSafe(d, m, timestamp, ns[0], ns[1..]);
      DeliverAllSafe(e, m, timestamp, ns[1..]);
      ElderTrans(d.orders, e.orders, DeliverAll(e, ns[1..]).orders);
    }
  }

  /** After its notifications the desk rests: nothing naked, nothing stray, no canceled entry unheard. */
  lemma DeliverSafe(d: Desk, m: Model, timestamp: int)
    requires Safe(d, m, timestamp, {}) && None !in d.pending && CancelHeard(d, d.notices)
    ensures Resting(Deliver(d), m) && Deliver(d).cancelledEntry == None && Elder(d.orders, Deliver(d).orders)
  {
    var silent := d.(notices := []);
    assert silent.(notices := d.notices) == d;
    DeliverAllSafe(silent, m, timestamp, d.notices);
    HeardRests(DeliverAll(silent, d.notices), m, timestamp);
  }

  lemma HeardRests(e: Desk, m: Model, timestamp: int)
    requires Hearing(e, m, timestamp, [])
    ensures var z := if e.book.size == 0.0 then e.(signal := None) else e;
            Resting(z, m) && z.cancelledEntry == None
  {
    var z := if e.book.size == 0.0 then e.(signal := None) else e;
    assert Safe(e.(notices := []), m, timestamp, {});
    forall x: nat | Alive(z.orders, x) ensures Remembered(z, x) {
      assert Remembered(e.(notices := []), x);
    }
  }

  /** Hearing a notification neither books nor submits anything. */
  lemma {:induction false} DeliverBooksNothing(d: Desk, ns: seq<Notice>)
    ensures DeliverAll(d, ns).book == d.book && |DeliverAll(d, ns).orders| == |d.orders|
    decreases |ns|
  {
    if ns != [] {
      assert DeliverOne(d, ns[0]).book == d.book && |DeliverOne(d, ns[0]).orders| == |d.orders|;
      DeliverBooksNothing(DeliverOne(d, ns[0]), ns[1..]);
    }
  }
}
