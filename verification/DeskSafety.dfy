/**
 Never naked: an open position always has exactly one live stop on its closing
 side, sized to it, and at most one live target of the same size; a flat
 account ends its bar with no live stop, target or signal close.
 */
module DeskSafety {
  import opened Wrappers
  import opened Rounding
  import opened TradeBook
  import opened ExecutionPricing
  import opened StopRisk
  import opened DeskTypes
  import opened DeskExecution
  import opened DeskStructure

  // ---------------------------------------------------------- invariants

  /** `r` is a live leg of the given kind, on the closing side and sized to the position. */
  predicate SizedLeg(d: Desk, r: Option<nat>, kind: Kind) {
    && IsAlive(d, r)
    && d.orders[r.value].remaining == Held(d)
    && d.orders[r.value].buy == (d.book.size < 0.0)
    && d.orders[r.value].kind == kind
  }

  /** The bracket of an open position: one OCO group of a stop and, unless disabled, its target. */
  ghost predicate Bracketed(d: Desk) {
    && SizedLeg(d, d.stop, StopOrder)
    && var group := d.orders[d.stop.value].group;
       && d.stop.value in Members(d, group)
       && (d.target.Some? ==>
             && SizedLeg(d, d.target, LimitOrder)
             && d.orders[d.target.value].group == group
             && d.target.value in Members(d, group))
       && (forall x: nat | x < |d.orders| && d.orders[x].group == group :: d.stop == Some(x) || d.target == Some(x))
  }

  ghost predicate Covered(d: Desk) {
    d.book.size != 0.0 ==> Bracketed(d)
  }

  ghost predicate NoneLive(d: Desk, role: Role) {
    forall r: nat | Alive(d.orders, r) :: d.orders[r].role != role
  }

  ghost predicate NoLegs(d: Desk) {
    NoneLive(d, StopLoss) && NoneLive(d, TakeProfit)
  }

  predicate LegCompleted(notices: seq<Notice>) {
    exists n :: n in notices && n.status == Completed && Protective(n.role)
  }

  /** A leg that escaped its group outlives a flat account only until the notifications. */
  ghost predicate FlatLegs(d: Desk, timestamp: int) {
    d.book.size == 0.0 ==> NoLegs(d) || (d.exitBar == Some(timestamp) && LegCompleted(d.notices))
  }

  /**
   A signal close needs the long position it was decided for, and never waits
   beside an entry; liquidation and end-of-data orders never wait at all.
   */
  ghost predicate SignalRules(d: Desk) {
    && (d.book.size <= 0.0 ==> NoneLive(d, Signal))
    && (forall r: nat | Alive(d.orders, r) && d.orders[r].role == Signal :: d.orders[r].positionId == d.book.trade)
    && (NoneLive(d, EntryRole) || NoneLive(d, Signal))
    && NoneLive(d, Liquidation) && NoneLive(d, EndOfData)
  }

  /** An entry only ever adds to a trade no exit has touched. */
  ghost predicate EntryRules(d: Desk) {
    d.book.size != 0.0 ==>
      forall r: nat | Alive(d.orders, r) && d.orders[r].role == EntryRole ::
        d.orders[r].buy == (d.book.size > 0.0) && !HasExit(d.book.fills, d.book.trade)
  }

  /** Positions are whole lots. */
  ghost predicate LotRules(d: Desk, m: Model) {
    m.step.Some? ==> m.step.value > 0.0 && OnGrid(d.book.size, m.step.value)
  }

  /** The account went flat on this bar and no leg of its bracket has been replaced since. */
  predicate WentFlat(d: Desk, timestamp: int) {
    d.book.size == 0.0 && d.exitBar == Some(timestamp)
  }

  /** What a queued notification will find when it is delivered. */
  ghost predicate NoticeRule(d: Desk, timestamp: int, n: Notice) {
    && n.ref < |d.orders| && d.orders[n.ref].role == n.role
    && (n.status in {Canceled, Margin, Rejected} ==> !Alive(d.orders, n.ref))
    && (n.status == Completed ==>
          match n.role
          case StopLoss => WentFlat(d, timestamp) && !IsAlive(d, d.stop)
          case TakeProfit => WentFlat(d, timestamp) && !IsAlive(d, d.target)
          case EntryRole => NoneLive(d, EntryRole)
          case Signal => true
          case Liquidation => WentFlat(d, timestamp) && NoLegs(d)
          case EndOfData => WentFlat(d, timestamp) && NoLegs(d))
  }

  ghost predicate NoticeRules(d: Desk, timestamp: int) {
    forall n | n in d.notices :: NoticeRule(d, timestamp, n)
  }

  /** Safety but for what entries and signal closes may still do. */
  ghost predicate Core(d: Desk, m: Model, timestamp: int, hand: set<nat>) {
    && Struct(d, hand)
    && Sound(d.book)
    && Covered(d)
    && FlatLegs(d, timestamp)
    && LotRules(d, m)
    && NoticeRules(d, timestamp)
  }

  ghost predicate Safe(d: Desk, m: Model, timestamp: int, hand: set<nat>) {
    Core(d, m, timestamp, hand) && SignalRules(d) && EntryRules(d)
  }

  /** The bar's volume budget cannot fill one more lot. */
  predicate Dry(d: Desk, m: Model) {
    && d.liquidity.Some?
    && (if m.step.Some? then d.liquidity.value < m.step.value else d.liquidity.value <= 0.0)
  }

  // ------------------------------------------------------------- quantities

  lemma DryExitsNothing(d: Desk, m: Model, r: nat)
    requires Dry(d, m) && LotRules(d, m) && r < |d.orders| && !Unbudgeted(d.orders[r].role)
    ensures ExitSize(d, m, r) <= 0.0
  {
    if m.step.Some? {
      var step := m.step.value;
      var granted := Budgeted(d, d.orders[r].role, ExitRequest(d, r));
      LotsAtMostZero(granted, step);
    }
  }

  lemma LotsAtMostZero(value: real, step: real)
    requires step > 0.0 && value < step
    ensures FloorStep(value, step) <= 0.0
  {
    FloorStepBounds(value, step);
    FloorStepLargest(value, step, 1);
    MultipleOne(step);
    MultipleMono(Lots(value, step), 0, step);
  }

  /** An exit takes at most what the position holds, in whole lots. */
  lemma ExitQuantityBounds(d: Desk, m: Model, r: nat)
    requires LotRules(d, m) && r < |d.orders|
    ensures var q := ExitSize(d, m, r);
            && q <= ExitRequest(d, r) <= Held(d)
            && (m.step.Some? && d.orders[r].role != Liquidation ==> OnGrid(q, m.step.value))
  {
    if m.step.Some? {
      FloorStepBounds(Budgeted(d, d.orders[r].role, ExitRequest(d, r)), m.step.value);
    }
  }

  lemma HeldOnGrid(d: Desk, m: Model)
    requires LotRules(d, m) && m.step.Some?
    ensures OnGrid(Held(d), m.step.value)
  {
    GridZero(m.step.value);
    GridAdd(0.0, d.book.size, m.step.value);
  }

  // ---------------------------------------------------- cancellations

  lemma ThinnedKeepsNotices(d: Desk, e: Desk, group: nat, timestamp: int)
    requires Thinned(d, e, group) && NoticeRules(d, timestamp)
    ensures NoticeRules(e, timestamp)
  {
    forall n | n in e.notices ensures NoticeRule(e, timestamp, n) {
      if n in d.notices {
        assert NoticeRule(d, timestamp, n);
        assert forall r: nat | Alive(e.orders, r) :: Alive(d.orders, r) && d.orders[r].role == e.orders[r].role;
      } else {
        assert e.notices == d.notices + e.notices[|d.notices|..];
        assert n in e.notices[|d.notices|..];
      }
    }
  }

  lemma ThinnedKeepsFlat(d: Desk, e: Desk, group: nat, timestamp: int)
    requires Thinned(d, e, group)
    ensures FlatLegs(d, timestamp) ==> FlatLegs(e, timestamp)
    ensures SignalRules(d) ==> SignalRules(e)
    ensures EntryRules(d) ==> EntryRules(e)
    ensures forall role: Role | NoneLive(d, role) :: NoneLive(e, role)
  {
    forall r: nat | Alive(e.orders, r) ensures Alive(d.orders, r) && d.orders[r] == e.orders[r] {
    }
    if LegCompleted(d.notices) {
      var n :| n in d.notices && n.status == Completed && Protective(n.role);
      assert n in e.notices;
    }
  }

  lemma ThinnedKeepsCover(d: Desk, e: Desk, group: nat)
    requires Thinned(d, e, group) && Covered(d)
    requires d.book.size != 0.0 ==> group != d.orders[d.stop.value].group
    ensures Covered(e)
  {
    if d.book.size != 0.0 {
      var own := d.orders[d.stop.value].group;
      assert Members(e, own) == Members(d, own);
      forall x: nat | x < |e.orders| && e.orders[x].group == own ensures e.stop == Some(x) || e.target == Some(x) {
        assert d.orders[x].group == own;
      }
    }
  }

  /** Canceling within a group other than the open bracket's keeps the desk safe. */
  lemma ThinnedKeepsCore(d: Desk, e: Desk, group: nat, m: Model, timestamp: int, hand: set<nat>)
    requires Core(d, m, timestamp, hand) && Thinned(d, e, group) && Struct(e, hand)
    requires d.book.size != 0.0 ==> group != d.orders[d.stop.value].group
    ensures Core(e, m, timestamp, hand)
  {
    ThinnedKeepsNotices(d, e, group, timestamp);
    ThinnedKeepsFlat(d, e, group, timestamp);
    ThinnedKeepsCover(d, e, group);
  }

  /** An entry or a signal close has a group of its own. */
  lemma OwnGroup(d: Desk, hand: set<nat>, r: nat)
    requires Struct(d, hand) && r < |d.orders| && !Protective(d.orders[r].role)
    requires Covered(d) && d.book.size != 0.0
    ensures d.orders[r].group != d.orders[d.stop.value].group
  {
    assert d.orders[d.stop.value].role == StopLoss;
    GroupMates(d.orders, r, d.stop.value);
  }

  /** Identities stay, and an order no longer alive never changes again. */
  ghost predicate Duller(a: seq<Order>, b: seq<Order>) {
    && |a| == |b|
    && forall i | 0 <= i < |a| :: SameIdentity(a[i], b[i]) && (Live(a[i]) || b[i] == a[i])
  }

  lemma ThinnedIsDull(d: Desk, e: Desk, group: nat)
    requires Thinned(d, e, group)
    ensures Duller(d.orders, e.orders) && d.notices <= e.notices
  {
  }

  /** Under `Elder`, orders keep role and group, and a dead one never changes. */
  ghost predicate Elder(a: seq<Order>, b: seq<Order>) {
    && |a| <= |b|
    && forall i | 0 <= i < |a| ::
         b[i].role == a[i].role && b[i].group == a[i].group && (Live(a[i]) || b[i].status == a[i].status)
  }

  lemma ElderTrans(a: seq<Order>, b: seq<Order>, c: seq<Order>)
    requires Elder(a, b) && Elder(b, c)
    ensures Elder(a, c)
  {
    forall i | 0 <= i < |a|
      ensures c[i].role == a[i].role && c[i].group == a[i].group && (Live(a[i]) || c[i].status == a[i].status)
    {
      assert b[i].role == a[i].role;
    }
  }

  /** What canceling the remembered entry or signal does. */
  ghost predicate RoleCanceled(d: Desk, e: Desk, role: Role, hand: set<nat>) {
    && SameDesk(d, e)
    && Duller(d.orders, e.orders)
    && NoneLive(e, role)
    && (forall other: Role | NoneLive(d, other) :: NoneLive(e, other))
    && (SignalRules(d) ==> SignalRules(e))
    && (EntryRules(d) ==> EntryRules(e))
    && (forall x: nat | x < |d.orders| && d.orders[x].role != role :: e.orders[x] == d.orders[x])
  }

  /** The adapter's entry (or signal) is canceled if it is queued; afterwards none of its role is live. */
  lemma CancelRole(d: Desk, r: Option<nat>, role: Role, m: Model, timestamp: int, hand: set<nat>)
    requires Core(d, m, timestamp, hand)
    requires (role == EntryRole && r == d.entry) || (role == Signal && r == d.signal)
    requires forall h | h in hand && Alive(d.orders, h) :: d.orders[h].role != role
    ensures Core(CancelAlive(d, r), m, timestamp, hand) && RoleCanceled(d, CancelAlive(d, r), role, hand)
  {
    if IsAlive(d, r) {
      CancelRoleQueued(d, r.value, role, m, timestamp, hand);
    } else {
      forall x: nat | Alive(d.orders, x) ensures d.orders[x].role != role {
        assert Remembered(d, x);
      }
    }
  }

  lemma CancelRoleQueued(d: Desk, r: nat, role: Role, m: Model, timestamp: int, hand: set<nat>)
    requires Core(d, m, timestamp, hand) && Queued(d.pending, r)
    requires (role == EntryRole && Some(r) == d.entry) || (role == Signal && Some(r) == d.signal)
    ensures Core(Cancel(d, r), m, timestamp, hand) && RoleCanceled(d, Cancel(d, r), role, hand)
  {
    if d.book.size != 0.0 {
      OwnGroup(d, hand, r);
    }
    CancelEffect(d, hand, r);
    var e := Cancel(d, r);
    ThinnedKeepsCore(d, e, d.orders[r].group, m, timestamp, hand);
    ThinnedCancelsRole(d, e, hand, r, role);
  }

  lemma ThinnedCancelsRole(d: Desk, e: Desk, hand: set<nat>, r: nat, role: Role)
    requires Struct(d, hand) && Struct(e, hand) && r < |d.orders| && Thinned(d, e, d.orders[r].group) && !Alive(e.orders, r)
    requires (role == EntryRole && Some(r) == d.entry) || (role == Signal && Some(r) == d.signal)
    ensures RoleCanceled(d, e, role, hand)
  {
    ThinnedKeepsFlat(d, e, d.orders[r].group, 0);
    RememberedAlone(e, hand, r, role);
    forall x: nat | x < |d.orders| && d.orders[x].role != role ensures e.orders[x] == d.orders[x] {
      GroupMates(d.orders, x, r);
    }
  }

  /** Only the remembered order of a role can be live. */
  lemma RememberedAlone(d: Desk, hand: set<nat>, r: nat, role: Role)
    requires Struct(d, hand) && !Alive(d.orders, r)
    requires (role == EntryRole && d.entry == Some(r)) || (role == Signal && d.signal == Some(r))
    ensures NoneLive(d, role)
  {
    forall x: nat | Alive(d.orders, x) ensures d.orders[x].role != role {
      assert Remembered(d, x);
    }
  }

  // ---------------------------------------------------------------- exits

  /** No entry and no signal close is live among the orders in hand. */
  ghost predicate HandHoldsOnly(d: Desk, hand: set<nat>, r: nat) {
    forall h | h in hand && h != r && Alive(d.orders, h) ::
      d.orders[h].role != EntryRole && d.orders[h].role != Signal
  }

  /** The books after an exit fill of `quantity`. */
  ghost predicate ReducedBy(b: Book, t: Book, quantity: real) {
    && Sound(t)
    && t.size == b.size - (if b.size > 0.0 then quantity else -quantity)
    && Abs(t.size) == Abs(b.size) - quantity
    && (t.size == 0.0 <==> quantity == Abs(b.size))
    && (t.size != 0.0 ==> (t.size > 0.0 <==> b.size > 0.0) && t.trade == b.trade && HasExit(t.fills, t.trade))
  }

  lemma BookExitReduces(d: Desk, m: Model, bar: Bar, r: nat, quantity: real, reference: real, fee: real)
    requires Sound(d.book) && Closes(d, r) && 0.0 < quantity <= Held(d)
    requires fee != 0.0 ==> quantity == Held(d)
    ensures var f := ExitFill(d, m, bar, r, quantity, reference, fee);
            && Allowed(d.book, Filled(f))
            && BookFill(d, f) == d.(book := Apply(d.book, Filled(f)))
            && ReducedBy(d.book, BookFill(d, f).book, quantity)
  {
    var f := ExitFill(d, m, bar, r, quantity, reference, fee);
    ApplySound(d.book, Filled(f));
    SignNeverFlips(d.book, Filled(f));
    var t := Apply(d.book, Filled(f));
    if t.size != 0.0 {
      assert f in t.fills;
    }
  }

  /** Books, figures and status of one order change; the rest of the desk does not. */
  ghost predicate OneOrder(d: Desk, e: Desk, r: nat) {
    && r < |d.orders| == |e.orders|
    && e == d.(orders := d.orders[r := e.orders[r]], book := e.book, notices := e.notices)
    && SameIdentity(d.orders[r], e.orders[r])
  }

  /** The desk right after an exit fill has been booked, reported but not yet reacted to. */
  function ExitBooked(d: Desk, m: Model, bar: Bar, r: nat, quantity: real, reference: real, fee: real): Desk {
    if r < |d.orders| then ExitReported(Trimmed(d, r), m, bar, r, quantity, reference, fee) else d
  }

  function ExitReported(t: Desk, m: Model, bar: Bar, r: nat, quantity: real, reference: real, fee: real): Desk
    requires r < |t.orders|
  {
    var f := ExitFill(t, m, bar, r, quantity, reference, fee);
    var b := BookFill(t, f);
    Notify(Update(b, r, Executed(b.orders[r], Tally(t.book, f))), r)
  }

  /** Liquidity spent and the bar marked as one with an exit. */
  function Marked(d: Desk, bar: Bar, role: Role, quantity: real): Desk {
    Spend(d, role, quantity).(exitBar := Some(bar.timestamp), lastExitRole := Some(role))
  }

  /** Marking the bar does not interfere with the OCO reaction. */
  lemma MarkedCommutes(d: Desk, bar: Bar, role: Role, quantity: real, r: nat)
    ensures OcoCheck(Marked(d, bar, role, quantity), r) == Marked(OcoCheck(d, r), bar, role, quantity)
  {
    MarkedAs(d, bar, role, quantity);
    var liquidity := Marked(d, bar, role, quantity).liquidity;
    var e := d.(liquidity := liquidity, exitBar := Some(bar.timestamp), lastExitRole := Some(role));
    CheckCommutes(d, liquidity, bar.timestamp, role, r);
    MarkedAs(OcoCheck(d, r), bar, role, quantity);
  }

  lemma MarkedAs(d: Desk, bar: Bar, role: Role, quantity: real)
    ensures Marked(d, bar, role, quantity)
         == d.(liquidity := Marked(d, bar, role, quantity).liquidity, exitBar := Some(bar.timestamp), lastExitRole := Some(role))
    ensures forall e: Desk | e.liquidity == d.liquidity ::
              Marked(e, bar, role, quantity).liquidity == Marked(d, bar, role, quantity).liquidity
  {
  }

  lemma CheckCommutes(d: Desk, liquidity: Option<real>, timestamp: int, role: Role, r: nat)
    ensures OcoCheck(d.(liquidity := liquidity, exitBar := Some(timestamp), lastExitRole := Some(role)), r)
         == OcoCheck(d, r).(liquidity := liquidity, exitBar := Some(timestamp), lastExitRole := Some(role))
    ensures OcoCheck(d, r).liquidity == d.liquidity
  {
    var e := d.(liquidity := liquidity, exitBar := Some(timestamp), lastExitRole := Some(role));
    if r < |d.orders| {
      assert Members(e, d.orders[r].group) == Members(d, d.orders[r].group);
      var members := Members(d, d.orders[r].group);
      assert Resize(e) == Resize(d).(liquidity := liquidity, exitBar := Some(timestamp), lastExitRole := Some(role));
    }
  }

  lemma ClosedByUnfolds(t: Desk, m: Model, bar: Bar, r: nat, quantity: real, reference: real, fee: real)
    requires r < |t.orders|
    ensures var role := t.orders[r].role;
            var b := Marked(ExitReported(t, m, bar, r, quantity, reference, fee), bar, role, quantity);
            ClosedBy(t, m, bar, r, quantity, reference, fee) == AfterExit(CancelAlive(OcoCheck(b, r), t.entry), r, role)
  {
    var b := ExitReported(t, m, bar, r, quantity, reference, fee);
    MarkedCommutes(b, bar, t.orders[r].role, quantity, r);
    assert OcoCheck(b, r).entry == t.entry;
  }

  lemma ExitUnfolds(d: Desk, m: Model, bar: Bar, r: nat, reference: real, fee: real)
    requires Closes(d, r) && ExitSize(d, m, r) > 0.0
    ensures var q := ExitSize(d, m, r);
            var role := d.orders[r].role;
            var b := Marked(ExitBooked(d, m, bar, r, q, reference, fee), bar, role, q);
            ExecuteExit(d, m, bar, r, reference, fee)
            == AfterExit(CancelAlive(OcoCheck(b, r), d.entry), r, role)
  {
    ClosedByUnfolds(Trimmed(d, r), m, bar, r, ExitSize(d, m, r), reference, fee);
  }

  /** The order carries the fill, its notification reports it, and the books hold the reduced position. */
  ghost predicate Booked(d: Desk, e: Desk, r: nat, quantity: real) {
    && OneOrder(d, e, r)
    && e.orders[r].remaining == ExitRequest(d, r) - quantity
    && e.orders[r].status == (if ExitRequest(d, r) == quantity then Completed else Partial)
    && e.notices == d.notices + [Snapshot(r, e.orders[r], e.orders[r].status)]
    && ReducedBy(d.book, e.book, quantity)
  }

  /** Trimming an order does not change the fill it makes. */
  lemma TrimmedFill(d: Desk, m: Model, bar: Bar, r: nat, quantity: real, reference: real, fee: real)
    requires r < |d.orders|
    ensures r < |Trimmed(d, r).orders|
    ensures ExitFill(Trimmed(d, r), m, bar, r, quantity, reference, fee) == ExitFill(d, m, bar, r, quantity, reference, fee)
  {
  }

  lemma ExitBookedShape(d: Desk, m: Model, bar: Bar, r: nat, quantity: real, reference: real, fee: real)
    requires Sound(d.book) && Closes(d, r) && 0.0 < quantity <= Held(d)
    requires fee != 0.0 ==> quantity == Held(d)
    ensures Booked(d, ExitBooked(d, m, bar, r, quantity, reference, fee), r, quantity)
  {
    BookExitReduces(d, m, bar, r, quantity, reference, fee);
    TrimmedFill(d, m, bar, r, quantity, reference, fee);
    var f := ExitFill(d, m, bar, r, quantity, reference, fee);
    ReportedShape(d, Trimmed(d, r), m, bar, r, quantity, reference, fee, BookFill(d, f).book);
  }

  lemma ReportedShape(d: Desk, t: Desk, m: Model, bar: Bar, r: nat, quantity: real, reference: real, fee: real, book: Book)
    requires r < |d.orders| && t == Trimmed(d, r) && d.book.leverage > 0.0
    requires BookFill(d, ExitFill(t, m, bar, r, quantity, reference, fee)).book == book && ReducedBy(d.book, book, quantity)
    ensures Booked(d, ExitReported(t, m, bar, r, quantity, reference, fee), r, quantity)
  {
    assert BookFill(t, ExitFill(t, m, bar, r, quantity, reference, fee)) == t.(book := book);
  }

  /** A booked exit keeps the structure, for an order in hand that may win its group. */
  lemma BookedKeepsStruct(d: Desk, e: Desk, hand: set<nat>, r: nat)
    requires Struct(d, hand) && r in hand && Alive(d.orders, r) && OneOrder(d, e, r)
    requires e.orders[r].status == Partial || (e.orders[r].status == Completed && SoleWinner(d.orders, r))
    ensures Struct(e, hand)
  {
    var u := Update(d, r, e.orders[r]);
    if e.orders[r].status == Partial {
      StatusInHand(d, hand, r, e.orders[r]);
    } else {
      CompletedInHand(d, hand, r, e.orders[r]);
    }
    SameStructure(u, e, hand);
  }

  /** Structure only concerns orders, queue, groups and the adapter's references. */
  lemma SameStructure(d: Desk, e: Desk, hand: set<nat>)
    requires Struct(d, hand)
    requires e.orders == d.orders && e.pending == d.pending && e.groups == d.groups && e.done == d.done
    requires e.stop == d.stop && e.target == d.target && e.entry == d.entry && e.signal == d.signal
    ensures Struct(e, hand)
  {
    forall x: nat | Alive(e.orders, x) ensures Remembered(e, x) {
      assert Remembered(d, x);
    }
  }

  /** No member of the open bracket's group has completed yet. */
  lemma BracketSoleWinner(d: Desk, hand: set<nat>, r: nat)
    requires Struct(d, hand) && Bracketed(d) && (d.stop == Some(r) || (d.target == Some(r)))
    ensures r < |d.orders| && SoleWinner(d.orders, r)
  {
  }

  // ----------------------------------------------------- a leg is filled

  /** A leg in hand that may be executed: it is one of the open bracket's. */
  ghost predicate LegInHand(d: Desk, hand: set<nat>, r: nat) {
    && r in hand && d.book.size != 0.0
    && (d.stop == Some(r) || d.target == Some(r))
    && Alive(d.orders, r)
    && HandHoldsOnly(d, hand, r)
  }

  /** The bracket of `d`, perhaps at other sizes, is still there in `b`. */
  ghost predicate KeepsBracket(d: Desk, b: Desk)
    requires d.book.size != 0.0 && Bracketed(d)
  {
    && |b.orders| == |d.orders|
    && (forall i | 0 <= i < |d.orders| :: SameIdentity(d.orders[i], b.orders[i]))
    && b.stop == d.stop && b.target == d.target
    && IsAlive(b, b.stop) && (b.target.Some? ==> IsAlive(b, b.target))
    && Members(b, d.orders[d.stop.value].group) == Members(d, d.orders[d.stop.value].group)
  }

  /** Both legs resized to a position that is still open. */
  lemma ResizeCovers(d: Desk, b: Desk)
    requires d.book.size != 0.0 && Bracketed(d) && KeepsBracket(d, b)
    requires b.book.size != 0.0 && (b.book.size > 0.0 <==> d.book.size > 0.0)
    ensures Covered(Resize(b))
  {
    var c := Resize(b);
    var group := d.orders[d.stop.value].group;
    assert forall i | 0 <= i < |c.orders| :: SameIdentity(d.orders[i], c.orders[i]);
    assert Members(c, group) == Members(d, group);
    forall x: nat | x < |c.orders| && c.orders[x].group == group ensures c.stop == Some(x) || c.target == Some(x) {
      assert d.orders[x].group == group;
    }
  }

  /** A fill of an open position cannot falsify an earlier notification. */
  lemma NoticesAfterFill(d: Desk, e: Desk, timestamp: int, n: Notice)
    requires NoticeRules(d, timestamp) && d.book.size != 0.0
    requires Duller(d.orders, e.orders) && e.notices == d.notices + [n] && NoticeRule(e, timestamp, n)
    ensures NoticeRules(e, timestamp)
  {
    forall k | k in e.notices ensures NoticeRule(e, timestamp, k) {
      if k in d.notices {
        assert NoticeRule(d, timestamp, k);
        assert forall x: nat | Alive(e.orders, x) :: Alive(d.orders, x) && d.orders[x].role == e.orders[x].role;
      }
    }
  }

  lemma LegIsBooked(d: Desk, m: Model, bar: Bar, hand: set<nat>, r: nat, reference: real)
    requires Core(d, m, bar.timestamp, hand) && LegInHand(d, hand, r) && ExitSize(d, m, r) > 0.0
    ensures Closes(d, r) && ExitRequest(d, r) == Held(d) && ExitSize(d, m, r) <= Held(d)
    ensures Booked(d, ExitBooked(d, m, bar, r, ExitSize(d, m, r), reference, 0.0), r, ExitSize(d, m, r))
    ensures m.step.Some? ==> OnGrid(ExitSize(d, m, r), m.step.value)
  {
    ExitQuantityBounds(d, m, r);
    ExitBookedShape(d, m, bar, r, ExitSize(d, m, r), reference, 0.0);
  }

  lemma LotsAfterExit(d: Desk, b: Desk, m: Model, quantity: real)
    requires LotRules(d, m) && b.book.size == d.book.size - (if d.book.size > 0.0 then quantity else -quantity)
    requires m.step.Some? ==> OnGrid(quantity, m.step.value)
    ensures LotRules(b, m)
  {
    if m.step.Some? {
      GridAdd(d.book.size, quantity, m.step.value);
    }
  }

  /** A leg partly filled: both legs shrink with the position, which stays covered. */
  lemma LegPartlyFilled(d: Desk, e: Desk, b: Desk, m: Model, timestamp: int, hand: set<nat>, r: nat, quantity: real)
    requires Core(d, m, timestamp, hand) && LegInHand(d, hand, r)
    requires Booked(d, e, r, quantity) && ExitRequest(d, r) == Held(d) && quantity < Held(d)
    requires OnlyMarked(e, b) && b.exitBar == Some(timestamp)
    requires m.step.Some? ==> OnGrid(quantity, m.step.value)
    ensures OcoCheck(b, r) == Resize(b)
    ensures Core(Resize(b), m, timestamp, hand) && Alive(Resize(b).orders, r)
  {
    PartStruct(d, e, b, hand, r);
    OneOrderKeepsBracket(d, e, b, r);
    ResizeCovers(d, b);
    LotsAfterExit(d, b, m, quantity);
    PartNotices(d, e, b, timestamp, r);
  }

  lemma PartStruct(d: Desk, e: Desk, b: Desk, hand: set<nat>, r: nat)
    requires Struct(d, hand) && r in hand && Alive(d.orders, r) && OneOrder(d, e, r) && e.orders[r].status == Partial
    requires OnlyMarked(e, b)
    ensures Struct(Resize(b), hand)
  {
    BookedKeepsStruct(d, e, hand, r);
    SameStructure(e, b, hand);
    ResizeKeepsStruct(b, hand);
  }

  /** Liquidity, exit bar and exit role aside, the same desk. */
  predicate OnlyMarked(e: Desk, b: Desk) {
    b == e.(liquidity := b.liquidity, exitBar := b.exitBar, lastExitRole := b.lastExitRole)
  }

  lemma PartNotices(d: Desk, e: Desk, b: Desk, timestamp: int, r: nat)
    requires NoticeRules(d, timestamp) && d.book.size != 0.0 && OneOrder(d, e, r) && Alive(d.orders, r)
    requires e.orders[r].status == Partial && e.notices == d.notices + [Snapshot(r, e.orders[r], Partial)]
    requires OnlyMarked(e, b) && b.exitBar == Some(timestamp)
    ensures NoticeRules(Resize(b), timestamp)
  {
    NoticesAfterFill(d, b, timestamp, Snapshot(r, e.orders[r], Partial));
    SameNotices(b, Resize(b), timestamp);
  }

  lemma OneOrderKeepsBracket(d: Desk, e: Desk, b: Desk, r: nat)
    requires d.book.size != 0.0 && Bracketed(d) && OneOrder(d, e, r) && Alive(e.orders, r) && OnlyMarked(e, b)
    ensures KeepsBracket(d, b)
  {
    assert forall i | 0 <= i < |d.orders| :: SameIdentity(d.orders[i], e.orders[i]);
  }

  lemma SameNotices(b: Desk, c: Desk, timestamp: int)
    requires NoticeRules(b, timestamp) && c.notices == b.notices && Duller(b.orders, c.orders)
    requires c.book == b.book && c.exitBar == b.exitBar && c.stop == b.stop && c.target == b.target
    ensures NoticeRules(c, timestamp)
  {
    assert forall x: nat | Alive(c.orders, x) :: Alive(b.orders, x) && b.orders[x].role == c.orders[x].role;
  }

  /** A leg filled in full: the account is flat and the group's queued sibling is canceled. */
  lemma LegFilled(d: Desk, e: Desk, b: Desk, m: Model, timestamp: int, hand: set<nat>, r: nat)
    requires Core(d, m, timestamp, hand) && LegInHand(d, hand, r)
    requires Booked(d, e, r, Held(d)) && ExitRequest(d, r) == Held(d)
    requires OnlyMarked(e, b) && b.exitBar == Some(timestamp)
    ensures OcoCheck(b, r) == OcoComplete(b, r)
    ensures Core(OcoComplete(b, r), m, timestamp, hand) && b.book.size == 0.0
  {
    LegWins(d, e, b, m, timestamp, hand, r);
    FlatGroupCompletes(b, m, timestamp, hand, r);
  }

  /** The winner of a bracket leaves a flat account, and a notification that says so. */
  lemma LegWins(d: Desk, e: Desk, b: Desk, m: Model, timestamp: int, hand: set<nat>, r: nat)
    requires Core(d, m, timestamp, hand) && LegInHand(d, hand, r)
    requires Booked(d, e, r, Held(d)) && ExitRequest(d, r) == Held(d)
    requires OnlyMarked(e, b) && b.exitBar == Some(timestamp)
    ensures Core(b, m, timestamp, hand) && b.book.size == 0.0
  {
    var n := Snapshot(r, e.orders[r], Completed);
    BracketSoleWinner(d, hand, r);
    BookedKeepsStruct(d, e, hand, r);
    SameStructure(e, b, hand);
    FlatOnGrid(b, m, d);
    NoticesAfterFill(d, b, timestamp, n);
    assert n in b.notices;
  }

  lemma FlatGroupCompletes(b: Desk, m: Model, timestamp: int, hand: set<nat>, r: nat)
    requires Core(b, m, timestamp, hand) && b.book.size == 0.0 && r < |b.orders|
    ensures Core(OcoComplete(b, r), m, timestamp, hand)
  {
    CompleteStruct(b, hand, r);
    CompleteEffect(b, hand, r);
    ThinnedKeepsCore(b, OcoComplete(b, r), b.orders[r].group, m, timestamp, hand);
  }

  lemma FlatOnGrid(b: Desk, m: Model, d: Desk)
    requires b.book.size == 0.0 && LotRules(d, m)
    ensures LotRules(b, m)
  {
    if m.step.Some? {
      GridZero(m.step.value);
    }
  }

  lemma DullerNoneLive(a: Desk, b: Desk)
    requires Duller(a.orders, b.orders)
    ensures forall role: Role | NoneLive(a, role) :: NoneLive(b, role)
  {
    forall x: nat | Alive(b.orders, x) ensures Alive(a.orders, x) && a.orders[x].role == b.orders[x].role {
    }
  }

  lemma DullerHand(a: Desk, b: Desk, hand: set<nat>, r: nat)
    requires Duller(a.orders, b.orders) && HandHoldsOnly(a, hand, r)
    ensures HandHoldsOnly(b, hand, r)
  {
  }

  lemma DullerTransitive(a: seq<Order>, b: seq<Order>, c: seq<Order>)
    requires Duller(a, b) && Duller(b, c)
    ensures Duller(a, c)
  {
  }

  /** What an exit of a leg leaves behind. */
  ghost predicate LegAftermath(c: Desk, e: Desk, m: Model, timestamp: int, hand: set<nat>, r: nat)
    requires r < |c.orders|
  {
    && Safe(e, m, timestamp, hand)
    && SameDesk(c, e) && |e.orders| == |c.orders|
    && e.orders[r] == c.orders[r]
    && Duller(c.orders, e.orders)
    && NoneLive(e, EntryRole)
  }

  /** The end of an exit of a leg: entries are canceled, and signal closes too when the account is flat. */
  lemma AfterLeg(d: Desk, c: Desk, m: Model, timestamp: int, hand: set<nat>, r: nat)
    requires Core(c, m, timestamp, hand) && Duller(d.orders, c.orders) && SignalRules(d)
    requires c.entry == d.entry && c.signal == d.signal
    requires c.book.size == 0.0 || ((c.book.size > 0.0 <==> d.book.size > 0.0) && c.book.trade == d.book.trade)
    requires r < |c.orders| && Protective(c.orders[r].role) && HandHoldsOnly(c, hand, r)
    ensures LegAftermath(c, AfterExit(CancelAlive(c, d.entry), r, c.orders[r].role), m, timestamp, hand, r)
  {
    CancelRole(c, d.entry, EntryRole, m, timestamp, hand);
    var a := CancelAlive(c, d.entry);
    DullerSignals(d, c, a, hand);
    if a.book.size == 0.0 {
      AfterLastLeg(d, c, a, m, timestamp, hand, r);
    }
  }

  lemma AfterLastLeg(d: Desk, c: Desk, a: Desk, m: Model, timestamp: int, hand: set<nat>, r: nat)
    requires Core(a, m, timestamp, hand) && RoleCanceled(c, a, EntryRole, hand) && a.book.size == 0.0
    requires Duller(d.orders, c.orders) && SignalRules(d)
    requires r < |c.orders| && Protective(c.orders[r].role) && HandHoldsOnly(c, hand, r)
    ensures LegAftermath(c, AfterExit(a, r, c.orders[r].role), m, timestamp, hand, r)
  {
    SignalIsNotLeg(a, hand, r);
    HandStaysSignalFree(c, a, hand, r);
    CancelRole(a, a.signal, Signal, m, timestamp, hand);
    var e := CancelAlive(a, a.signal);
    DullerTransitive(c.orders, a.orders, e.orders);
    DullerTransitive(d.orders, c.orders, e.orders);
    DullerForced(d, e);
  }

  lemma DullerForced(d: Desk, e: Desk)
    requires Duller(d.orders, e.orders)
    ensures NoneLive(d, Liquidation) && NoneLive(d, EndOfData) ==> NoneLive(e, Liquidation) && NoneLive(e, EndOfData)
  {
  }

  /** A position that shrank but did not close keeps its signal closes valid. */
  lemma DullerSignals(d: Desk, c: Desk, a: Desk, hand: set<nat>)
    requires Duller(d.orders, c.orders) && SignalRules(d) && RoleCanceled(c, a, EntryRole, hand)
    requires c.book.size == 0.0 || ((c.book.size > 0.0 <==> d.book.size > 0.0) && c.book.trade == d.book.trade)
    ensures a.book.size != 0.0 ==> SignalRules(a)
  {
    forall x: nat | Alive(a.orders, x)
      ensures Alive(d.orders, x) && a.orders[x].role == d.orders[x].role
      ensures a.orders[x].role == Signal ==> a.orders[x].positionId == d.orders[x].positionId
    {
      assert SameIdentity(d.orders[x], c.orders[x]);
    }
  }

  lemma SignalIsNotLeg(a: Desk, hand: set<nat>, r: nat)
    requires Struct(a, hand) && r < |a.orders| && Protective(a.orders[r].role)
    ensures a.signal != Some(r)
  {
  }

  lemma HandStaysSignalFree(c: Desk, a: Desk, hand: set<nat>, r: nat)
    requires HandHoldsOnly(c, hand, r) && RoleCanceled(c, a, EntryRole, hand)
    requires r < |c.orders| && Protective(c.orders[r].role)
    ensures forall h | h in hand && Alive(a.orders, h) :: a.orders[h].role != Signal
  {
    forall h | h in hand && Alive(a.orders, h) ensures a.orders[h].role != Signal {
      assert Alive(c.orders, h) && a.orders[h].role == c.orders[h].role;
    }
  }

  /** Nothing but a bracket leg's own figures, and only to say what they already said. */
  lemma TrimmedLegUnchanged(d: Desk, r: nat)
    requires d.book.size != 0.0 && Bracketed(d) && (d.stop == Some(r) || d.target == Some(r))
    ensures Trimmed(d, r) == d && Closes(d, r)
  {
    assert d.orders[r := d.orders[r]] == d.orders;
  }

  /** What executing a leg may do: nothing without budget, else an exit of this bar. */
  ghost predicate LegOutcome(d: Desk, e: Desk, bar: Bar, r: nat) {
    && e.stop == d.stop && e.target == d.target && e.entry == d.entry && e.signal == d.signal
    && e.cancelledEntry == d.cancelledEntry && e.protectionActive == d.protectionActive
    && r < |d.orders| && Duller(d.orders, e.orders)
    && e.exitBar == Some(bar.timestamp) && e.lastExitRole == Some(d.orders[r].role)
    && NoneLive(e, EntryRole)
    && (e.book.size != 0.0 ==> Alive(e.orders, r) && (e.book.size > 0.0 <==> d.book.size > 0.0))
  }

  /** Executing a leg of the open bracket keeps the desk safe. */
  lemma LegExit(d: Desk, m: Model, bar: Bar, hand: set<nat>, r: nat, reference: real)
    requires Safe(d, m, bar.timestamp, hand) && LegInHand(d, hand, r) && ExitSize(d, m, r) > 0.0
    ensures var e := ExecuteExit(d, m, bar, r, reference, 0.0);
            Safe(e, m, bar.timestamp, hand) && LegOutcome(d, e, bar, r)
  {
    TrimmedLegUnchanged(d, r);
    LegIsBooked(d, m, bar, hand, r, reference);
    ExitUnfolds(d, m, bar, r, reference, 0.0);
    LegFills(d, m, bar, hand, r, ExitBooked(d, m, bar, r, ExitSize(d, m, r), reference, 0.0), ExitSize(d, m, r));
  }

  /** The broker's reaction to the fill itself: both legs resized, or the sibling canceled. */
  ghost predicate Reacted(d: Desk, c: Desk, m: Model, bar: Bar, hand: set<nat>, r: nat, quantity: real) {
    && Core(c, m, bar.timestamp, hand)
    && r < |d.orders| && Duller(d.orders, c.orders)
    && c.exitBar == Some(bar.timestamp) && c.lastExitRole == Some(d.orders[r].role)
    && c.stop == d.stop && c.target == d.target && c.entry == d.entry && c.signal == d.signal
    && c.cancelledEntry == d.cancelledEntry && c.protectionActive == d.protectionActive
    && ReducedBy(d.book, c.book, quantity)
    && (c.book.size != 0.0 ==> Alive(c.orders, r))
  }

  lemma LegReacts(d: Desk, m: Model, bar: Bar, hand: set<nat>, r: nat, e: Desk, b: Desk, quantity: real)
    requires Core(d, m, bar.timestamp, hand) && LegInHand(d, hand, r)
    requires Booked(d, e, r, quantity) && ExitRequest(d, r) == Held(d) && quantity <= Held(d)
    requires OnlyMarked(e, b) && b.exitBar == Some(bar.timestamp) && b.lastExitRole == Some(d.orders[r].role)
    requires m.step.Some? ==> OnGrid(quantity, m.step.value)
    ensures Reacted(d, OcoCheck(b, r), m, bar, hand, r, quantity)
  {
    if quantity < Held(d) {
      LegPartlyFilled(d, e, b, m, bar.timestamp, hand, r, quantity);
    } else {
      LegFilled(d, e, b, m, bar.timestamp, hand, r);
    }
    LegIsDull(d, e, b, hand, r);
  }

  lemma LegIsDull(d: Desk, e: Desk, b: Desk, hand: set<nat>, r: nat)
    requires Struct(d, hand) && LegInHand(d, hand, r) && Covered(d) && OneOrder(d, e, r) && OnlyMarked(e, b)
    requires e.orders[r].status == Partial || e.orders[r].status == Completed
    ensures Duller(d.orders, OcoCheck(b, r).orders) && SameDesk(b, OcoCheck(b, r))
  {
    MarkedStruct(d, e, b, hand, r);
    ReactionIsDull(d, e, b, hand, r);
  }

  lemma MarkedStruct(d: Desk, e: Desk, b: Desk, hand: set<nat>, r: nat)
    requires Struct(d, hand) && LegInHand(d, hand, r) && Covered(d) && OneOrder(d, e, r) && OnlyMarked(e, b)
    requires e.orders[r].status == Partial || e.orders[r].status == Completed
    ensures Struct(b, hand)
  {
    BracketSoleWinner(d, hand, r);
    BookedKeepsStruct(d, e, hand, r);
    SameStructure(e, b, hand);
  }

  /** A booked leg, partly or wholly filled, with everything the broker does after it. */
  lemma LegFills(d: Desk, m: Model, bar: Bar, hand: set<nat>, r: nat, e: Desk, quantity: real)
    requires Safe(d, m, bar.timestamp, hand) && LegInHand(d, hand, r)
    requires Booked(d, e, r, quantity) && ExitRequest(d, r) == Held(d) && quantity <= Held(d)
    requires m.step.Some? ==> OnGrid(quantity, m.step.value)
    ensures var z := AfterExit(CancelAlive(OcoCheck(Marked(e, bar, d.orders[r].role, quantity), r), d.entry), r, d.orders[r].role);
            Safe(z, m, bar.timestamp, hand) && LegOutcome(d, z, bar, r)
  {
    var b := Marked(e, bar, d.orders[r].role, quantity);
    var c := OcoCheck(b, r);
    LegReacts(d, m, bar, hand, r, e, b, quantity);
    DullerHand(d, c, hand, r);
    AfterLeg(d, c, m, bar.timestamp, hand, r);
    var z := AfterExit(CancelAlive(c, d.entry), r, d.orders[r].role);
    DullerTransitive(d.orders, c.orders, z.orders);
  }

  lemma ReactionIsDull(d: Desk, e: Desk, b: Desk, hand: set<nat>, r: nat)
    requires OneOrder(d, e, r) && b.orders == e.orders && Alive(d.orders, r) && QueueInv(b, hand)
    ensures Duller(d.orders, OcoCheck(b, r).orders)
    ensures SameDesk(b, OcoCheck(b, r))
  {
    CheckIsDull(b, hand, r);
    DullerTransitive(d.orders, b.orders, OcoCheck(b, r).orders);
  }

  lemma ResizeIsDull(b: Desk)
    ensures Duller(b.orders, Resize(b).orders) && SameDesk(b, Resize(b))
  {
  }

  lemma CompleteIsDull(b: Desk, hand: set<nat>, r: nat)
    requires QueueInv(b, hand)
    ensures Duller(b.orders, OcoComplete(b, r).orders) && SameDesk(b, OcoComplete(b, r))
  {
    if r < |b.orders| {
      CompleteFades(b, r);
    }
  }

  lemma CheckIsDull(b: Desk, hand: set<nat>, r: nat)
    requires QueueInv(b, hand)
    ensures Duller(b.orders, OcoCheck(b, r).orders) && SameDesk(b, OcoCheck(b, r))
  {
    ResizeIsDull(b);
    CompleteIsDull(b, hand, r);
  }

  /** What is left of an exit's request once the bar's budget has had its say. */
  function ExitGrant(d: Desk, r: nat): real
    requires r < |d.orders|
  {
    Budgeted(d, d.orders[r].role, ExitRequest(d, r))
  }

  /**
   An exit takes as much as it may: no more than it asks, the position holds
   and the bar's budget offers, in whole lots, and not one lot less.
   */
  lemma ExitTakesMost(d: Desk, m: Model, r: nat)
    requires r < |d.orders| && (m.step.Some? ==> m.step.value > 0.0)
    ensures var q, o := ExitSize(d, m, r), d.orders[r];
            && q <= o.remaining && q <= Held(d)
            && (d.liquidity.Some? && !Unbudgeted(o.role) ==> q <= d.liquidity.value)
            && (m.step.Some? && o.role != Liquidation ==> OnGrid(q, m.step.value) && ExitGrant(d, r) < q + m.step.value)
            && (m.step == None || o.role == Liquidation ==> q == ExitGrant(d, r))
  {
    if m.step.Some? {
      FloorStepBounds(ExitGrant(d, r), m.step.value);
    }
  }

  // ----------------------------------------------------------- protection

  /** No entry or signal close in hand could be left behind by an exit. */
  ghost predicate Quiet(d: Desk, m: Model, hand: set<nat>) {
    || Dry(d, m)
    || forall h | h in hand && Alive(d.orders, h) :: d.orders[h].role != EntryRole && d.orders[h].role != Signal
  }

  /** Safety does not depend on the order of the queue, only on who is in hand. */
  lemma TakenFromQueue(d: Desk, m: Model, timestamp: int, hand: set<nat>, r: nat)
    requires Safe(d, m, timestamp, hand) && r < |d.orders|
    ensures Safe(Remove(d, r), m, timestamp, hand + {r})
  {
    RemoveToHand(d, hand, r);
    SameButQueue(d, Remove(d, r), m, timestamp);
  }

  lemma SameButQueue(d: Desk, e: Desk, m: Model, timestamp: int)
    requires e == d.(pending := e.pending)
    ensures Covered(d) ==> Covered(e)
    ensures FlatLegs(d, timestamp) ==> FlatLegs(e, timestamp)
    ensures LotRules(d, m) ==> LotRules(e, m)
    ensures NoticeRules(d, timestamp) ==> NoticeRules(e, timestamp)
    ensures SignalRules(d) ==> SignalRules(e)
    ensures EntryRules(d) ==> EntryRules(e)
  {
    if NoticeRules(d, timestamp) {
      forall n | n in e.notices ensures NoticeRule(e, timestamp, n) {
        assert NoticeRule(d, timestamp, n);
      }
    }
  }

  lemma ReturnedToQueue(d: Desk, m: Model, timestamp: int, hand: set<nat>, r: nat)
    requires Safe(d, m, timestamp, hand + {r}) && r !in hand
    ensures Safe(if Alive(d.orders, r) then Append(d, r) else d, m, timestamp, hand)
  {
    assert hand + {r} - {r} == hand;
    if Alive(d.orders, r) {
      AppendFromHand(d, hand + {r}, r);
      SameButQueue(d, Append(d, r), m, timestamp);
    } else {
      DropFromHand(d, hand + {r}, r);
    }
  }

  /** An exit that takes nothing shows that the budget is dry. */
  lemma NoExitMeansDry(d: Desk, m: Model, r: nat)
    requires LotRules(d, m) && r < |d.orders| && d.book.size != 0.0
    requires ExitRequest(d, r) == Held(d) && !Unbudgeted(d.orders[r].role)
    requires ExitSize(d, m, r) <= 0.0
    ensures Dry(d, m)
  {
    if m.step.Some? {
      var step := m.step.value;
      HeldOnGrid(d, m);
      GridPositive(Held(d), step);
      FloorStepOfGrid(Held(d), step);
      if d.liquidity.Some? && d.liquidity.value >= step {
        var granted := Budgeted(d, d.orders[r].role, Held(d));
        FloorStepLargest(granted, step, 1);
        MultipleOne(step);
      }
    }
  }

  /** The desk but for the order of its queue. */
  predicate SameButOrder(d: Desk, e: Desk) {
    e == d.(pending := e.pending)
  }

  /** The selected leg belongs to the open bracket. */
  predicate PickIsLeg(d: Desk, pick: Pick) {
    d.stop == Some(pick.ref) || d.target == Some(pick.ref)
  }

  /** Without budget for one lot, taking a leg at most requeues it. */
  lemma TakeLegDry(d: Desk, m: Model, bar: Bar, hand: set<nat>, pick: Pick)
    requires Safe(d, m, bar.timestamp, hand) && d.book.size != 0.0 && PickIsLeg(d, pick)
    requires ExitSize(Remove(d, pick.ref), m, pick.ref) <= 0.0
    ensures var e := TakeLeg(d, m, bar, pick);
            Safe(e, m, bar.timestamp, hand) && SameButOrder(d, e) && Dry(d, m)
  {
    var r := pick.ref;
    var taken := Remove(d, r);
    TakenFromQueue(d, m, bar.timestamp, hand, r);
    LegAsksAll(taken, r);
    NoExitMeansDry(taken, m, r);
    TrimmedLegUnchanged(taken, r);
    PutBack(d, taken, m, bar.timestamp, hand, r);
  }

  /** A leg of the open bracket asks for the whole position. */
  lemma LegAsksAll(d: Desk, r: nat)
    requires d.book.size != 0.0 && Bracketed(d) && (d.stop == Some(r) || d.target == Some(r))
    ensures ExitRequest(d, r) == Held(d)
  {
  }

  /** A queued order that was taken comes back; one that was in hand stays there. */
  lemma PutBack(d: Desk, e: Desk, m: Model, timestamp: int, hand: set<nat>, r: nat)
    requires Safe(e, m, timestamp, hand + {r}) && Struct(d, hand) && (Queued(d.pending, r) || r in hand)
    ensures Safe(if Queued(d.pending, r) && Alive(e.orders, r) then Append(e, r) else e, m, timestamp, hand)
  {
    if Queued(d.pending, r) {
      ReturnedToQueue(e, m, timestamp, hand, r);
    } else {
      assert hand + {r} == hand;
    }
  }

  lemma TakeLegFills(d: Desk, m: Model, bar: Bar, hand: set<nat>, pick: Pick)
    requires Safe(d, m, bar.timestamp, hand) && d.book.size != 0.0 && PickIsLeg(d, pick) && Quiet(d, m, hand)
    requires ExitSize(Remove(d, pick.ref), m, pick.ref) > 0.0
    ensures var e := TakeLeg(d, m, bar, pick);
            Safe(e, m, bar.timestamp, hand) && LegOutcome(d, e, bar, pick.ref) && !Dry(d, m)
  {
    var r := pick.ref;
    var taken := Remove(d, r);
    TakenFromQueue(d, m, bar.timestamp, hand, r);
    FillNeedsBudget(taken, m, r);
    LegExit(taken, m, bar, hand + {r}, r, pick.reference);
    var e := ExecuteExit(taken, m, bar, r, pick.reference, 0.0);
    PutBack(d, e, m, bar.timestamp, hand, r);
  }

  lemma FillNeedsBudget(d: Desk, m: Model, r: nat)
    requires LotRules(d, m) && r < |d.orders| && Protective(d.orders[r].role) && ExitSize(d, m, r) > 0.0
    ensures !Dry(d, m)
  {
    if Dry(d, m) {
      DryExitsNothing(d, m, r);
    }
  }

  /** Protection left everything but the order of the queue alone: nothing selected, or no budget. */
  predicate Still(d: Desk, e: Desk, m: Model, selected: Option<Pick>) {
    SameButOrder(d, e) && (selected == None || Dry(d, m))
  }

  /** A leg of the bracket took part or all of the position on this bar. */
  ghost predicate LegExited(d: Desk, e: Desk, bar: Bar) {
    && e.stop == d.stop && e.target == d.target && e.entry == d.entry && e.signal == d.signal
    && Duller(d.orders, e.orders)
    && e.exitBar == Some(bar.timestamp) && e.lastExitRole.Some? && Protective(e.lastExitRole.value)
    && NoneLive(e, EntryRole)
    && (e.book.size != 0.0 ==> (e.book.size > 0.0 <==> d.book.size > 0.0))
  }

  /** Protection keeps the desk safe, whatever the bar and whatever breach is known. */
  lemma MatchProtectionSafe(d: Desk, m: Model, bar: Bar, hand: set<nat>, allowGap: bool, breach: Option<Pick>, openOnly: bool)
    requires Safe(d, m, bar.timestamp, hand) && Quiet(d, m, hand)
    requires breach.Some? ==> PickIsLeg(d, breach.value)
    ensures var e := MatchProtection(d, m, bar, allowGap, breach, openOnly);
            && Safe(e, m, bar.timestamp, hand)
            && (Still(d, e, m, Selection(d, bar, allowGap, breach, openOnly)) || (!Dry(d, m) && LegExited(d, e, bar)))
  {
    var selected := Selection(d, bar, allowGap, breach, openOnly);
    if selected.Some? {
      var pick := selected.value;
      if ExitSize(Remove(d, pick.ref), m, pick.ref) > 0.0 {
        TakeLegFills(d, m, bar, hand, pick);
      } else {
        TakeLegDry(d, m, bar, hand, pick);
      }
    }
  }
}
