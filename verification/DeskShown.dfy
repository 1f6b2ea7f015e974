/**
 Over every run the account the strategy is shown holds the broker's own
 position: its size, its average entry price and the entry commissions paid.
 An exit completes only when the position is flat, so nothing a completed exit
 leaves unbooked survives the close of its trade.
 */
module DeskShown {
  import opened Wrappers
  import opened Rounding
  import opened TradeBook
  import opened ExecutionPricing
  import opened ExecutionBroker
  import opened DeskTypes
  import opened DeskExecution
  import opened DeskBar
  import opened DeskStructure
  import opened DeskSafety
  import opened DeskSignal
  import opened DeskEntry
  import opened DeskSteps
  import opened DeskPass
  import opened DeskOpening
  import opened DeskAdapter
  import opened DeskHearing
  import opened DeskRun
  import opened DeskBooks
  import Bookings
  import opened DeskAccount
  import opened DeskSilence

  // ------------------------------------------------------------ exit fills

  /** An exit leaves price and entry commissions of an open trade alone; the one that flattens ends it. */
  predicate TermsKept(b: Book, t: Book) {
    if t.size == 0.0 then t.trade != b.trade
    else
      && t.price == b.price && t.trade == b.trade
      && Total(t.fills, EntryCommission, t.trade) == Total(b.fills, EntryCommission, b.trade)
  }

  lemma RecordedExit(b: Book, f: Fill)
    requires b.leverage > 0.0 && !f.entry
    ensures TermsKept(b, Recorded(b, f))
  {
    var reduced := Reduced(b, f);
    ReducedTerms(b, f);
    if reduced.size != 0.0 {
      TotalAppend(b.fills, f, EntryCommission, b.trade);
    } else {
      EndedTerms(reduced);
    }
  }

  lemma ReducedTerms(b: Book, f: Fill)
    requires b.leverage > 0.0
    ensures var t := Reduced(b, f);
            t.price == b.price && t.trade == b.trade && t.fills == b.fills + [f]
  {
  }

  lemma EndedTerms(b: Book)
    ensures Ended(b).size == b.size && Ended(b).trade == b.trade + 1
  {
  }

  /** A booked exit, with what it adds to the figures of its order. */
  ghost predicate ExitTaken(d: Desk, e: Desk, r: nat, quantity: real) {
    && Booked(d, e, r, quantity)
    && e.orders[r].figures.quantity == d.orders[r].figures.quantity + quantity
    && TermsKept(d.book, e.book)
  }

  lemma ExitTakenShape(d: Desk, m: Model, bar: Bar, r: nat, quantity: real, reference: real, fee: real)
    requires Sound(d.book) && Closes(d, r) && 0.0 < quantity <= Held(d)
    requires fee != 0.0 ==> quantity == Held(d)
    ensures ExitTaken(d, ExitBooked(d, m, bar, r, quantity, reference, fee), r, quantity)
  {
    ExitBookedShape(d, m, bar, r, quantity, reference, fee);
    TrimmedFill(d, m, bar, r, quantity, reference, fee);
    RecordedExit(d.book, ExitFill(d, m, bar, r, quantity, reference, fee));
  }

  /** The whole position is what the exit asks for. */
  ghost predicate AsksAll(d: Desk, r: nat) {
    && r < |d.orders| && d.orders[r].role != EntryRole
    && d.book.size != 0.0 && d.orders[r].remaining >= Held(d)
  }

  lemma ExitCurrent(h: Account, d: Desk, e: Desk, r: nat, quantity: real)
    requires Current(h, d.orders) && r < |d.orders| && ExitTaken(d, e, r, quantity) && quantity > 0.0
    ensures Current(HeardOne(h, Snapshot(r, e.orders[r], e.orders[r].status)), e.orders)
  {
  }

  lemma ExitDisplays(h: Account, d: Desk, e: Desk, r: nat, quantity: real)
    requires Current(h, d.orders) && Displays(h, d.book) && AsksAll(d, r)
    requires ExitTaken(d, e, r, quantity) && 0.0 < quantity <= Held(d)
    ensures Displays(HeardOne(h, Snapshot(r, e.orders[r], e.orders[r].status)), e.book)
    ensures e.orders[r].status == Completed <==> e.book.size == 0.0
  {
  }

  lemma ExitRules(d: Desk, e: Desk, r: nat, quantity: real)
    requires Begun(d) && SignalsCover(d) && AsksAll(d, r) && ExitTaken(d, e, r, quantity) && 0.0 < quantity <= Held(d)
    ensures Begun(e) && SignalsCover(e)
  {
    assert e.orders[r].remaining == Held(d) - quantity == Held(e);
    forall x: nat | Alive(e.orders, x)
      ensures e.orders[x].role == Signal ==> e.orders[x].remaining >= Held(e)
      ensures e.orders[x].role == EntryRole && e.book.size != 0.0 ==> e.orders[x].figures != NOTHING
    {
      assert x != r ==> Alive(d.orders, x) && e.orders[x] == d.orders[x];
    }
  }

  /** Hearing an exit, the account follows the books. */
  lemma ExitTold(a: Account, d: Desk, e: Desk, b: Desk, r: nat, quantity: real, timestamp: int)
    requires Told(a, d, timestamp) && AsksAll(d, r)
    requires ExitTaken(d, e, r, quantity) && 0.0 < quantity <= Held(d)
    requires OnlyMarked(e, b) && b.exitBar == Some(timestamp)
    ensures Told(a, b, timestamp)
  {
    var h, n := Heard(a, d.notices), Snapshot(r, e.orders[r], e.orders[r].status);
    HeardKeepsTrade(a, d.notices);
    HeardNext(a, d.notices, n);
    ExitCurrent(h, d, e, r, quantity);
    ExitDisplays(h, d, e, r, quantity);
    ExitRules(d, e, r, quantity);
    forall k | k in b.notices && k.status == Completed && k.role != EntryRole ensures FlatSince(b, timestamp) {
      assert k in d.notices ==> FlatSince(d, timestamp);
    }
  }

  lemma ExecuteExitTold(a: Account, d: Desk, m: Model, bar: Bar, r: nat, reference: real, fee: real)
    requires Told(a, d, bar.timestamp) && LotRules(d, m) && r < |d.orders| && (Closes(d, r) ==> AsksAll(d, r))
    requires fee != 0.0 ==> ExitSize(d, m, r) == Held(d)
    ensures Told(a, ExecuteExit(d, m, bar, r, reference, fee), bar.timestamp)
  {
    if Closes(d, r) {
      var q := ExitSize(d, m, r);
      if q <= 0.0 {
        UpdateSilent(d, r, d.orders[r].(remaining := ExitRequest(d, r)));
        SilentTold(a, d, Trimmed(d, r), bar.timestamp);
      } else {
        ExitQuantityBounds(d, m, r);
        ExitTakenShape(d, m, bar, r, q, reference, fee);
        ExitUnfolds(d, m, bar, r, reference, fee);
        FilledTold(a, d, ExitBooked(d, m, bar, r, q, reference, fee), bar, r, q);
      }
    }
  }

  /** A booked exit, the bar marked, and everything the broker does after it. */
  lemma FilledTold(a: Account, d: Desk, e: Desk, bar: Bar, r: nat, quantity: real)
    requires Told(a, d, bar.timestamp) && AsksAll(d, r)
    requires ExitTaken(d, e, r, quantity) && 0.0 < quantity <= Held(d)
    ensures var role := d.orders[r].role;
            Told(a, AfterExit(CancelAlive(OcoCheck(Marked(e, bar, role, quantity), r), d.entry), r, role), bar.timestamp)
  {
    var role := d.orders[r].role;
    var b := Marked(e, bar, role, quantity);
    ExitTold(a, d, e, b, r, quantity, bar.timestamp);
    ReactionSilent(b, r, d.entry, role);
    SilentTold(a, b, AfterExit(CancelAlive(OcoCheck(b, r), d.entry), r, role), bar.timestamp);
  }

  // ------------------------------------------------------------ protection

  lemma RemovedTold(a: Account, d: Desk, r: nat, timestamp: int)
    requires Told(a, d, timestamp)
    ensures Told(a, Remove(d, r), timestamp)
  {
    QueueSilent(d, Remove(d, r));
    SilentTold(a, d, Remove(d, r), timestamp);
  }

  lemma AppendedTold(a: Account, d: Desk, r: nat, timestamp: int)
    requires Told(a, d, timestamp)
    ensures Told(a, Append(d, r), timestamp)
  {
    QueueSilent(d, Append(d, r));
    SilentTold(a, d, Append(d, r), timestamp);
  }

  lemma TakeLegTold(a: Account, d: Desk, m: Model, bar: Bar, pick: Pick)
    requires Told(a, d, bar.timestamp) && LotRules(d, m) && AsksAll(d, pick.ref)
    ensures Told(a, TakeLeg(d, m, bar, pick), bar.timestamp)
  {
    var removed := Remove(d, pick.ref);
    var t := ExecuteExit(removed, m, bar, pick.ref, pick.reference, 0.0);
    RemovedTold(a, d, pick.ref, bar.timestamp);
    ExecuteExitTold(a, removed, m, bar, pick.ref, pick.reference, 0.0);
    AppendedTold(a, t, pick.ref, bar.timestamp);
  }

  lemma ProtectionTold(
    a: Account, d: Desk, m: Model, bar: Bar, hand: set<nat>, allowGap: bool, breach: Option<Pick>, openOnly: bool)
    requires Told(a, d, bar.timestamp) && LotRules(d, m) && Struct(d, hand) && Covered(d)
    requires breach.Some? ==> PickIsLeg(d, breach.value)
    ensures Told(a, MatchProtection(d, m, bar, allowGap, breach, openOnly), bar.timestamp)
  {
    var selected := Selection(d, bar, allowGap, breach, openOnly);
    if selected.Some? {
      assert d.stop == Some(selected.value.ref) || d.target == Some(selected.value.ref);
      TakeLegTold(a, d, m, bar, selected.value);
    }
  }

  // ---------------------------------------------------------- signal closes

  lemma CloseAtOpenTold(a: Account, d: Desk, m: Model, bar: Bar, r: nat)
    requires Told(a, d, bar.timestamp) && LotRules(d, m)
    requires Alive(d.orders, r) && d.orders[r].role == Signal && d.book.size != 0.0
    ensures Told(a, CloseAtOpen(d, m, bar, r), bar.timestamp)
  {
    var marked := Update(d, r, d.orders[r].(matchedAt := Some(bar.timestamp)));
    UpdateSilent(d, r, marked.orders[r]);
    SilentTold(a, d, marked, bar.timestamp);
    RemovedTold(a, marked, r, bar.timestamp);
    ExecuteExitTold(a, Remove(marked, r), m, bar, r, bar.open, 0.0);
    AppendedTold(a, ExecuteExit(Remove(marked, r), m, bar, r, bar.open, 0.0), r, bar.timestamp);
  }

  /** After a gap through the bracket, a signal close may still have its turn. */
  lemma AfterGapTold(a: Account, d: Desk, m: Model, bar: Bar, hand: set<nat>, r: nat, t: Desk)
    requires Told(a, d, bar.timestamp) && Safe(d, m, bar.timestamp, hand) && Quiet(d, m, hand)
    requires r < |d.orders| && d.orders[r].role == Signal && t == MatchProtection(d, m, bar, true, None, true)
    ensures Told(a, t, bar.timestamp) && LotRules(t, m) && r < |t.orders| && t.orders[r].role == Signal
  {
    ProtectionTold(a, d, m, bar, hand, true, None, true);
    MatchProtectionSafe(d, m, bar, hand, true, None, true);
    MatchProtectionSteps(d, m, bar, true, None, true);
    assert SameTerms(d.orders[r], t.orders[r]);
  }

  lemma SignalOpenTold(a: Account, d: Desk, m: Model, bar: Bar, hand: set<nat>, r: nat)
    requires Told(a, d, bar.timestamp) && Safe(d, m, bar.timestamp, hand) && Quiet(d, m, hand)
    requires r < |d.orders| && d.orders[r].role == Signal
    ensures Told(a, MatchSignalOpen(d, m, bar, r), bar.timestamp)
  {
    if d.orders[r].positionId != d.book.trade || d.book.size <= 0.0 {
      CancelSilent(d, r);
      SilentTold(a, d, Cancel(d, r), bar.timestamp);
    } else {
      var t := MatchProtection(d, m, bar, true, None, true);
      AfterGapTold(a, d, m, bar, hand, r, t);
      if t.book.size != 0.0 && Alive(t.orders, r) {
        CloseAtOpenTold(a, t, m, bar, r);
      }
    }
  }

  // ----------------------------------------------------------- entry fills

  /** The average of a short position is that of the same long one. */
  lemma OppositeAverage(size: real, price: real, added: real, at: real)
    requires size + added != 0.0
    ensures AveragePrice(-size, price, -added, at) == AveragePrice(size, price, added, at)
  {
    var worth := Value(size, price) + Value(added, at);
    ValueOfSum(size, 0.0, price);
    ValueOfSum(added, 0.0, at);
    SameQuotient(worth, size + added);
  }

  lemma SameQuotient(a: real, b: real)
    requires b != 0.0
    ensures (-a) / (-b) == a / b
  {
    var q := a / b;
    Quotient(a, b);
    assert q * (-b) == -a;
  }

  lemma FirstAverage(price: real, added: real, at: real)
    requires added != 0.0
    ensures AveragePrice(0.0, price, added, at) == at
  {
    ValueOfSum(0.0, 0.0, price);
    Quotient(Value(added, at), added);
    assert Value(added, at) / added == at;
  }

  /** Size and average price of the position after an entry, on the position's own side. */
  lemma EntryGrows(b: Book, f: Fill)
    requires b.leverage > 0.0 && f.entry && f.size > 0.0 && (b.size == 0.0 || (b.size > 0.0 <==> f.buy))
    ensures b.size + Signed(f) != 0.0 && Abs(b.size + Signed(f)) == Abs(b.size) + f.size
    ensures Recorded(b, f).size == b.size + Signed(f) && Recorded(b, f).trade == b.trade
    ensures Recorded(b, f).price == AveragePrice(Abs(b.size), b.price, f.size, f.price)
    ensures Recorded(b, f).fills == b.fills + [f]
  {
    if !f.buy {
      OppositeAverage(Abs(b.size), b.price, f.size, f.price);
    }
  }

  lemma EntryPays(b: Book, f: Fill)
    requires Sound(b) && f.entry && f.trade == b.trade
    ensures Total(b.fills + [f], EntryCommission, b.trade) == Total(b.fills, EntryCommission, b.trade) + f.commission
    ensures b.size == 0.0 ==> Total(b.fills, EntryCommission, b.trade) == 0.0
  {
    TotalAppend(b.fills, f, EntryCommission, b.trade);
    if b.size == 0.0 {
      TotalOfNone(b.fills, EntryCommission, b.trade);
    }
  }

  /** What an entry's snapshot books is the position the books then hold. */
  lemma EntryShows(b: Book, f: Fill, before: Figures)
    requires Sound(b) && Admissible(b, f) && f.entry
    requires WellFigured(before) && (before == NOTHING ==> b.size == 0.0)
    ensures Bookings.BookEntrySnapshot(Bookings.HeldPosition(b), before, Plus(before, Tally(b, f)))
         == Bookings.HeldPosition(Recorded(b, f))
  {
    EntryGrows(b, f);
    EntryPays(b, f);
    ValueOverSize(f.size, f.price);
    FirstAverage(b.price, f.size, f.price);
    SnapshotBooks(Bookings.HeldPosition(b), before, Tally(b, f), f.price);
  }

  lemma ValueOverSize(size: real, price: real)
    requires size != 0.0
    ensures Value(size, price) / size == price
  {
  }

  /** A snapshot that has grown by `added`, at one price, averages it in. */
  lemma SnapshotBooks(p: Bookings.Position, before: Figures, added: Figures, price: real)
    requires added.quantity > 0.0 && p.quantity >= 0.0 && added.value / added.quantity == price
    requires WellFigured(before)
    ensures Bookings.BookEntrySnapshot(p, before, Plus(before, added))
         == if before == NOTHING then Bookings.Position(added.quantity, price, added.fee)
            else Bookings.Position(p.quantity + added.quantity,
                                   AveragePrice(p.quantity, p.price, added.quantity, price), p.commission + added.fee)
  {
    var now := Plus(before, added);
    assert now.quantity - before.quantity == added.quantity && now.value - before.value == added.value;
  }

  /** A booked entry fill, with what it adds to the figures of its order. */
  ghost predicate EntryTaken(d: Desk, e: Desk, r: nat, s: Sizing, f: Fill)
    requires s.Sized?
  {
    && EntryReported(d, e, r, s) && Admissible(d.book, f) && f.entry
    && e.orders[r].figures == Plus(d.orders[r].figures, Tally(d.book, f))
    && e.book == Recorded(d.book, f)
  }

  lemma EntryTakenShape(d: Desk, m: Model, timestamp: int, r: nat, reference: real, s: Sizing)
    requires EntryInHand(d, m, timestamp, r) && s.Sized? && s.fill > 0.0
    ensures EntryTaken(d, EntryBooked(d, r, reference, s), r, s, EntryFill(d, r, reference, s))
  {
    EntryBookedShape(d, m, timestamp, r, reference, s);
    BookEntryGrows(d, m, timestamp, r, reference, s);
  }

  lemma EntryCurrent(h: Account, d: Desk, e: Desk, r: nat, s: Sizing, f: Fill)
    requires s.Sized? && r < |d.orders| && Current(h, d.orders) && EntryTaken(d, e, r, s, f)
    ensures Current(HeardOne(h, Snapshot(r, e.orders[r], e.orders[r].status)), e.orders)
    ensures e.orders[r].figures != NOTHING
  {
  }

  lemma EntryDisplays(h: Account, d: Desk, e: Desk, r: nat, s: Sizing, f: Fill)
    requires s.Sized? && Sound(d.book) && r < |d.orders| && d.orders[r].role == EntryRole
    requires Current(h, d.orders) && h.trade == d.book.trade && Displays(h, d.book)
    requires d.orders[r].figures == NOTHING ==> d.book.size == 0.0
    requires EntryTaken(d, e, r, s, f)
    ensures Displays(HeardOne(h, Snapshot(r, e.orders[r], e.orders[r].status)), e.book) && e.book.trade == d.book.trade
  {
    EntryShows(d.book, f, d.orders[r].figures);
  }

  /** Only the entry in hand is live, so nothing else waits to begin; and no signal close does. */
  lemma EntryRulesHold(d: Desk, e: Desk, m: Model, timestamp: int, r: nat)
    requires EntryInHand(d, m, timestamp, r) && OneOrder(d, e, r) && e.orders[r].figures != NOTHING
    ensures Begun(e) && SignalsCover(e)
  {
    EntryFacts(d, m, timestamp, r);
    forall x: nat | Alive(e.orders, x)
      ensures e.orders[x].role != Signal && (e.orders[x].role == EntryRole ==> x == r)
    {
      assert x != r ==> Alive(d.orders, x) && Remembered(d, x);
    }
  }

  /** Hearing an entry fill, the account follows the books. */
  lemma EntryTold(a: Account, d: Desk, e: Desk, m: Model, r: nat, s: Sizing, f: Fill, timestamp: int)
    requires Told(a, d, timestamp) && EntryInHand(d, m, timestamp, r) && s.Sized? && EntryTaken(d, e, r, s, f)
    ensures Told(a, e, timestamp)
  {
    var h, n := Heard(a, d.notices), Snapshot(r, e.orders[r], e.orders[r].status);
    HeardKeepsTrade(a, d.notices);
    HeardNext(a, d.notices, n);
    EntryCurrent(h, d, e, r, s, f);
    EntryDisplays(h, d, e, r, s, f);
    EntryRulesHold(d, e, m, timestamp, r);
    NoExitCompleted(d, e, n, timestamp);
  }

  /** Off an exit bar no exit has completed, and an entry's report changes nothing about that. */
  lemma NoExitCompleted(d: Desk, e: Desk, n: Notice, timestamp: int)
    requires CompletesFlat(d, timestamp) && d.exitBar != Some(timestamp)
    requires e.notices == d.notices + [n] && n.role == EntryRole
    ensures CompletesFlat(e, timestamp)
  {
  }

  lemma EnterTold(a: Account, d: Desk, m: Model, bar: Bar, r: nat, reference: real, s: Sizing)
    requires Told(a, d, bar.timestamp) && EntryInHand(d, m, bar.timestamp, r) && s.Sized? && s.fill > 0.0
    ensures Told(a, Enter(d, r, reference, s), bar.timestamp)
  {
    var e := EntryBooked(d, r, reference, s);
    var c := OcoCheck(e, r);
    EntryTakenShape(d, m, bar.timestamp, r, reference, s);
    EntryTold(a, d, e, m, r, s, EntryFill(d, r, reference, s), bar.timestamp);
    EnterUnfolds(d, r, reference, s);
    CheckSilent(e, r);
    MarksSilent(c, Spend(c, EntryRole, s.fill));
    SilentThen(e, c, Spend(c, EntryRole, s.fill));
    SilentTold(a, e, Enter(d, r, reference, s), bar.timestamp);
  }

  /** Protection that reacts to an entry fill, and a remainder no longer wanted. */
  lemma AnsweredTold(a: Account, t: Desk, m: Model, bar: Bar, r: nat, setup: Setup, reference: real)
    requires Told(a, t, bar.timestamp) && Guarded(Protect(t, m, bar, setup), m, bar.timestamp, r)
    ensures Told(a, Answered(t, m, bar, r, setup, reference), bar.timestamp)
  {
    var u := Protect(t, m, bar, setup);
    var v := MatchProtection(u, m, bar, false, Breach(u, reference), false);
    ProtectSilent(t, m, bar, setup);
    SilentTold(a, t, u, bar.timestamp);
    BreachIsLeg(u, m, bar.timestamp, {r}, reference);
    ProtectionTold(a, u, m, bar, {r}, false, Breach(u, reference), false);
    RemainderSilent(v, m, r);
    SilentTold(a, v, CancelRemainder(v, m, r), bar.timestamp);
  }

  lemma RetiredTold(a: Account, d: Desk, r: nat, status: Status, timestamp: int)
    requires Told(a, d, timestamp) && DeadStatus(status)
    ensures Told(a, Retire(d, r, status), timestamp)
  {
    RetireSilent(d, r, status);
    SilentTold(a, d, Retire(d, r, status), timestamp);
  }

  lemma ExecuteEntryTold(a: Account, d: Desk, m: Model, bar: Bar, r: nat, reference: real)
    requires Told(a, d, bar.timestamp) && EntryInHand(d, m, bar.timestamp, r)
    ensures Told(a, ExecuteEntry(d, m, bar, r, reference), bar.timestamp)
  {
    EntryFacts(d, m, bar.timestamp, r);
    var s := SizeEntry(d, m, bar, r, reference);
    if s.Refused? {
      RefusedStatus(d, m, bar, r, reference);
      RetiredTold(a, d, r, s.status, bar.timestamp);
    } else if s.Sized? {
      SizedTold(a, d, m, bar, r, reference, s);
    }
  }

  lemma SizedTold(a: Account, d: Desk, m: Model, bar: Bar, r: nat, reference: real, s: Sizing)
    requires Told(a, d, bar.timestamp) && EntryInHand(d, m, bar.timestamp, r)
    requires s == SizeEntry(d, m, bar, r, reference) && s.Sized? && d.orders[r].setup.Some?
    ensures Told(a, Answered(Enter(d, r, reference, s), m, bar, r, d.orders[r].setup.value, reference), bar.timestamp)
  {
    var t := Enter(d, r, reference, s);
    SizedWell(d, m, bar, r, reference);
    EnterTold(a, d, m, bar, r, reference, s);
    EntersWell(d, m, bar.timestamp, r, reference, s);
    ProtectSafe(d, t, m, bar, r);
    AnsweredTold(a, t, m, bar, r, d.orders[r].setup.value, reference);
  }

  lemma MetBarTold(a: Account, t: Desk, m: Model, bar: Bar, r: nat)
    requires Told(a, t, bar.timestamp) && EntryInHand(t, m, bar.timestamp, r)
    ensures Told(a, MetBar(t, m, bar, r), bar.timestamp)
  {
    var reference := MatchReference(t.orders[r].kind, t.orders[r].buy, t.orders[r].price, bar);
    if reference.Some? {
      ExecuteEntryTold(a, t, m, bar, r, reference.value);
    }
  }

  lemma TryEntryTold(a: Account, d: Desk, m: Model, bar: Bar, r: nat)
    requires Told(a, d, bar.timestamp) && Safe(d, m, bar.timestamp, {r})
    requires Alive(d.orders, r) && d.orders[r].role == EntryRole
    ensures Told(a, TryEntry(d, m, bar, r), bar.timestamp)
  {
    if EntryDue(d, m, bar, d.orders[r]) {
      var lots := NormalizeLot(m, d.orders[r].remaining);
      if lots == None {
        RetiredTold(a, d, r, Rejected, bar.timestamp);
      } else {
        var t := Update(d, r, d.orders[r].(remaining := lots.value));
        UpdateSilent(d, r, t.orders[r]);
        SilentTold(a, d, t, bar.timestamp);
        FiguresKeepSafe(d, m, bar.timestamp, {r}, r, t.orders[r]);
        MetBarTold(a, t, m, bar, r);
      }
    }
  }

  // -------------------------------------------------------------- the bar

  /** A settled signal close at most reorders the queue. */
  lemma SettledSignalTold(a: Account, d: Desk, m: Model, bar: Bar, r: nat)
    requires Told(a, d, bar.timestamp) && Safe(d, m, bar.timestamp, {r}) && SignalsSettled(d, m, bar)
    requires Alive(d.orders, r) && d.orders[r].role == Signal
    ensures Told(a, MatchSignalOpen(d, m, bar, r), bar.timestamp)
  {
    SettledSignalRests(d, m, bar, r);
    QueueSilent(d, MatchSignalOpen(d, m, bar, r));
    SilentTold(a, d, MatchSignalOpen(d, m, bar, r), bar.timestamp);
  }

  lemma TryExecTold(a: Account, d: Desk, m: Model, bar: Bar, r: nat)
    requires Told(a, d, bar.timestamp) && Safe(d, m, bar.timestamp, {r}) && SignalsSettled(d, m, bar)
    requires Alive(d.orders, r)
    ensures Told(a, TryExec(d, m, bar, r), bar.timestamp)
  {
    match d.orders[r].role
    case Signal => SettledSignalTold(a, d, m, bar, r);
    case StopLoss => ProtectionTold(a, d, m, bar, {r}, true, None, false);
    case TakeProfit => ProtectionTold(a, d, m, bar, {r}, true, None, false);
    case EntryRole => TryEntryTold(a, d, m, bar, r);
    case Liquidation =>
    case EndOfData =>
  }

  lemma TurnTold(a: Account, d: Desk, m: Model, bar: Bar, r: nat)
    requires Told(a, d, bar.timestamp) && Safe(d, m, bar.timestamp, {r}) && SignalsSettled(d, m, bar)
    requires Alive(d.orders, r)
    ensures Told(a, Turn(d, m, bar, r), bar.timestamp)
  {
    if GroupDone(d, r) {
      var t := Retire(d, r, Canceled);
      RetiredTold(a, d, r, Canceled, bar.timestamp);
      CheckSilent(t, r);
      SilentTold(a, t, OcoCheck(t, r), bar.timestamp);
    } else {
      TryExecTold(a, d, m, bar, r);
      AppendedTold(a, TryExec(d, m, bar, r), r, bar.timestamp);
    }
  }

  /** The whole walk of the queue. */
  lemma {:induction false} PassTold(a: Account, d: Desk, m: Model, bar: Bar)
    requires Told(a, d, bar.timestamp) && Safe(d, m, bar.timestamp, {}) && SignalsSettled(d, m, bar) && None in d.pending
    ensures Told(a, Pass(d, m, bar), bar.timestamp)
    decreases |Front(d.pending)|
  {
    QueueSilent(d, Popped(d));
    SilentTold(a, d, Popped(d), bar.timestamp);
    if d.pending[0].Some? {
      var r := d.pending[0].value;
      PoppedSafe(d, m, bar.timestamp);
      PoppedSettles(d, m, bar);
      TurnTold(a, Popped(d), m, bar, r);
      TurnSafe(Popped(d), m, bar, r);
      TurnNarrows(d, m, bar);
      PassTold(a, Turn(Popped(d), m, bar, r), m, bar);
    }
  }

  lemma {:induction false} SignalsTold(a: Account, d: Desk, m: Model, bar: Bar, refs: seq<Option<nat>>)
    requires Told(a, d, bar.timestamp) && Safe(d, m, bar.timestamp, {})
    ensures Told(a, SignalsAtOpen(d, m, bar, refs), bar.timestamp)
    decreases |refs|
  {
    if refs != [] {
      if refs[0].Some? && Alive(d.orders, refs[0].value) && d.orders[refs[0].value].role == Signal {
        SignalOpenTold(a, d, m, bar, {}, refs[0].value);
        SignalAtOpenSafe(d, m, bar, refs[0].value);
        SignalsTold(a, MatchSignalOpen(d, m, bar, refs[0].value), m, bar, refs[1..]);
      } else {
        SignalsTold(a, d, m, bar, refs[1..]);
      }
    }
  }

  /** A forced order closes the whole position. */
  lemma ForcedTold(a: Account, c: Desk, m: Model, bar: Bar, o: Order, reference: real, fee: real)
    requires Told(a, c, bar.timestamp) && Cleared(c, m, bar.timestamp) && ClosesAll(c, o) && c.book.size != 0.0
    requires o.figures == NOTHING
    ensures Told(a, ExecuteExit(Forcing(c, o), m, bar, |c.orders|, reference, fee), bar.timestamp)
  {
    var t := Forcing(c, o);
    ForcingSilent(c, o);
    SilentTold(a, c, t, bar.timestamp);
    ForcedSize(c, m, bar.timestamp, o);
    ExecuteExitTold(a, t, m, bar, |c.orders|, reference, fee);
  }

  lemma ClearedTold(a: Account, d: Desk, timestamp: int)
    requires Told(a, d, timestamp)
    ensures Told(a, CancelEach(d, d.pending), timestamp)
  {
    CancelEachSilent(d, d.pending);
    SilentTold(a, d, CancelEach(d, d.pending), timestamp);
  }

  lemma LiquidateTold(a: Account, d: Desk, m: Model, bar: Bar, mark: Option<Mark>)
    requires Told(a, d, bar.timestamp) && Safe(d, m, bar.timestamp, {})
    ensures Told(a, Liquidate(d, m, bar, mark), bar.timestamp)
  {
    if mark.Some? && d.book.size != 0.0 {
      var c := CancelEach(d, d.pending);
      ClearedTold(a, d, bar.timestamp);
      ClearedByCancel(d, m, bar.timestamp);
      ForcedTold(a, c, m, bar, LiquidationOrder(c, mark.value, bar.timestamp), mark.value.price, FeeAtMark(d, mark.value));
    }
  }

  lemma {:induction false} FundingKeepsTerms(b: Book, records: seq<FundingRecord>)
    requires b.leverage > 0.0
    ensures Settled(b, records).price == b.price && Settled(b, records).trade == b.trade
  {
    if records != [] {
      FundingKeepsTerms(b, records[..|records| - 1]);
    }
  }

  /** Funding moves cash, not the position. */
  lemma OpenDeskTold(a: Account, d: Desk, m: Model, bar: Bar, due: seq<FundingRecord>)
    requires Told(a, d, bar.timestamp)
    ensures Told(a, OpenDesk(d, m, bar, due), bar.timestamp)
  {
    SettledSound(d.book, due);
    FundingKeepsTerms(d.book, due);
  }

  lemma BrokerBarTold(a: Account, d: Desk, m: Model, bar: Bar, due: seq<FundingRecord>, mark: Option<Mark>)
    requires Told(a, d, bar.timestamp) && Safe(d, m, bar.timestamp, {}) && None !in d.pending
    ensures Told(a, BrokerBar(d, m, bar, due, mark), bar.timestamp)
  {
    var o := OpenDesk(d, m, bar, due);
    OpenDeskTold(a, d, m, bar, due);
    OpenDeskSafe(d, m, bar, due);
    LiquidateTold(a, o, m, bar, mark);
    BarOpens(d, m, bar, due, mark);
    WalkTold(a, Liquidate(o, m, bar, mark), m, bar);
  }

  lemma WalkTold(a: Account, l: Desk, m: Model, bar: Bar)
    requires Told(a, l, bar.timestamp) && Safe(l, m, bar.timestamp, {}) && None !in l.pending
    ensures Told(a, Pass(Prepared(SignalsAtOpen(l, m, bar, l.pending), bar), m, bar), bar.timestamp)
  {
    var s := SignalsAtOpen(l, m, bar, l.pending);
    SignalsTold(a, l, m, bar, l.pending);
    SignalsAtOpenSafe(l, m, bar, l.pending);
    QueueSilent(s, Prepared(s, bar));
    SilentTold(a, s, Prepared(s, bar), bar.timestamp);
    PreparedSafe(s, m, bar);
    PassTold(a, Prepared(s, bar), m, bar);
  }

  // -------------------------------------------------------- between bars

  /** The account knows the desk and shows its position. */
  ghost predicate Shows(a: Account, d: Desk) {
    && Current(a, d.orders) && Begun(d) && SignalsCover(d)
    && a.trade == d.book.trade && a.position == Bookings.HeldPosition(d.book)
  }

  lemma FlatShowsNothing(b: Book)
    requires Sound(b) && b.size == 0.0
    ensures Bookings.HeldPosition(b) == NO_POSITION
  {
    TotalOfNone(b.fills, EntryCommission, b.trade);
  }

  lemma RestTold(a: Account, d: Desk, m: Model, timestamp: int)
    requires Shows(a, d) && Resting(d, m)
    ensures Told(a, d, timestamp)
  {
    assert [] + d.notices == d.notices;
    HeardNothing(a, [], d.notices);
  }

  /** Once everything is heard, and a trade that ended is closed, the account shows the books. */
  lemma ListenedShows(a: Account, d: Desk, timestamp: int)
    requires Told(a, d, timestamp)
    ensures Shows(Listened(a, d), d)
  {
    HeardKeepsTrade(a, d.notices);
    if a.trade != d.book.trade {
      FlatShowsNothing(d.book);
    }
  }

  lemma SilentShows(a: Account, d: Desk, e: Desk)
    requires Shows(a, d) && Silent(d, e)
    ensures Shows(a, e)
  {
    SilentCurrent(a, d.orders, e.orders, Held(d));
    SilentRules(d, e);
  }

  /** What the notifications make the adapter do fills nothing. */
  lemma DeliveredShows(a: Account, d: Desk)
    requires Shows(a, d)
    ensures Shows(a, Deliver(d))
  {
    var heard := d.(notices := []);
    var e := DeliverAll(heard, d.notices);
    assert Shows(a, heard);
    DeliverSilent(heard, d.notices);
    SilentShows(a, heard, e);
    MarksSilent(e, e.(signal := None));
    SilentShows(a, e, e.(signal := None));
  }

  lemma StepShows(a: Account, d: Desk, m: Model, input: Input)
    requires Shows(a, d) && Resting(d, m)
    ensures var b := BrokerBar(d, m, input.bar, input.due, input.mark);
            Shows(Listened(a, b), Deliver(b)) && Shows(Listened(a, b), Step(d, m, input))
    ensures CompletesFlat(BrokerBar(d, m, input.bar, input.due, input.mark), input.bar.timestamp)
  {
    var b := BrokerBar(d, m, input.bar, input.due, input.mark);
    RestTold(a, d, m, input.bar.timestamp);
    RestingSafe(d, m, input.bar.timestamp);
    BrokerBarTold(a, d, m, input.bar, input.due, input.mark);
    ListenedShows(a, b, input.bar.timestamp);
    DeliveredShows(Listened(a, b), b);
    StrategySilent(Deliver(b), m, input.bar, input.decision);
    SilentShows(Listened(a, b), Deliver(b), Step(d, m, input));
  }

  // -------------------------------------------------------------- whole runs

  lemma {:induction false} RunShows(a: Account, d: Desk, m: Model, inputs: seq<Input>)
    requires Shows(a, d) && Resting(d, m)
    ensures Shows(Followed(a, d, m, inputs), Played(d, m, inputs))
    decreases |inputs|
  {
    if inputs != [] {
      StepShows(a, d, m, inputs[0]);
      StepSafe(d, m, inputs[0]);
      RunShows(Listened(a, BrokerBar(d, m, inputs[0].bar, inputs[0].due, inputs[0].mark)), Step(d, m, inputs[0]), m, inputs[1..]);
    }
  }

  lemma FreshShows(initial: real, leverage: real)
    requires leverage > 0.0
    ensures Shows(NewAccount(), Fresh(initial, leverage))
  {
  }

  /**
   Over every run from a fresh account: the account the strategy is shown holds
   the broker's position, size, average entry price and entry commissions of
   the open trade, and knows the cumulative figures of every order.
   */
  lemma AccountShowsTheBooks(m: Model, initial: real, leverage: real, inputs: seq<Input>)
    requires leverage > 0.0 && (m.step.Some? ==> m.step.value > 0.0)
    ensures var d, a := Played(Fresh(initial, leverage), m, inputs), Followed(NewAccount(), Fresh(initial, leverage), m, inputs);
            && a.position == Bookings.HeldPosition(d.book) && a.trade == d.book.trade
            && (forall r: nat | r < |d.orders| :: Known(a, r) == d.orders[r].figures)
  {
    FreshRests(m, initial, leverage);
    FreshShows(initial, leverage);
    RunShows(NewAccount(), Fresh(initial, leverage), m, inputs);
  }

  /** On every bar of every run an exit is reported as completed only once the account is flat. */
  lemma ExitsCompleteFlat(m: Model, initial: real, leverage: real, inputs: seq<Input>, input: Input)
    requires leverage > 0.0 && (m.step.Some? ==> m.step.value > 0.0)
    ensures var b := BrokerBar(Played(Fresh(initial, leverage), m, inputs), m, input.bar, input.due, input.mark);
            forall n | n in b.notices && n.status == Completed && n.role != EntryRole :: b.book.size == 0.0
  {
    FreshRests(m, initial, leverage);
    FreshShows(initial, leverage);
    RunShows(NewAccount(), Fresh(initial, leverage), m, inputs);
    RunSafe(Fresh(initial, leverage), m, inputs);
    StepShows(Followed(NewAccount(), Fresh(initial, leverage), m, inputs), Played(Fresh(initial, leverage), m, inputs), m, input);
  }

  // ------------------------------------------------------- the end of data

  lemma ClosedOutTold(a: Account, d: Desk, m: Model, bar: Bar)
    requires Told(a, d, bar.timestamp) && Resting(d, m)
    ensures Told(a, ClosedOut(CancelAlive(d, d.entry), m, bar), bar.timestamp)
  {
    var e := CancelAlive(d, d.entry);
    var stopless := CancelAlive(e, e.stop);
    var bare := CancelAlive(stopless, stopless.target);
    var c := CancelAlive(bare, bare.signal);
    EndClears(d, m, bar.timestamp);
    EndRefs(d, d.entry);
    EndRefs(e, e.stop);
    EndRefs(stopless, stopless.target);
    CanceledTold(a, d, d.entry, bar.timestamp);
    CanceledTold(a, e, e.stop, bar.timestamp);
    CanceledTold(a, stopless, stopless.target, bar.timestamp);
    CanceledTold(a, bare, bare.signal, bar.timestamp);
    if c.book.size != 0.0 {
      ForcedTold(a, c, m, bar, EndOrder(c, bar.timestamp), bar.close, 0.0);
    }
  }

  lemma CanceledTold(a: Account, d: Desk, r: Option<nat>, timestamp: int)
    requires Told(a, d, timestamp)
    ensures Told(a, CancelAlive(d, r), timestamp)
  {
    CancelAliveSilent(d, r);
    SilentTold(a, d, CancelAlive(d, r), timestamp);
  }

  /** The end of the data, closed out or left marked, is heard like any bar. */
  lemma EndShows(a: Account, d: Desk, m: Model, bar: Bar, retain: bool)
    requires Shows(a, d) && Resting(d, m)
    ensures Shows(Listened(a, Ending(d, m, bar, retain)), EndRun(d, m, bar, retain))
  {
    RestTold(a, d, m, bar.timestamp);
    if retain {
      CanceledTold(a, d, d.entry, bar.timestamp);
    } else {
      ClosedOutTold(a, d, m, bar);
    }
    ListenedShows(a, Ending(d, m, bar, retain), bar.timestamp);
    DeliveredShows(Listened(a, Ending(d, m, bar, retain)), Ending(d, m, bar, retain));
  }

  // ------------------------------------------------- what a bar leaves behind

  /** No position is naked, every invariant holds, and the position shown is the one held. */
  ghost predicate AtRest(a: Account, d: Desk, m: Model) {
    Resting(d, m) && NeverNaked(d) && Shows(a, d)
  }

  lemma StepRests(a: Account, d: Desk, m: Model, input: Input)
    requires Shows(a, d) && Resting(d, m)
    ensures AtRest(Listened(a, BrokerBar(d, m, input.bar, input.due, input.mark)), Step(d, m, input), m)
  {
    StepShows(a, d, m, input);
    StepSafe(d, m, input);
    RestingIsNeverNaked(Step(d, m, input), m);
  }

  lemma EndRests(a: Account, d: Desk, m: Model, bar: Bar, retain: bool)
    requires Shows(a, d) && Resting(d, m)
    ensures RunEnded(d, EndRun(d, m, bar, retain), retain)
    ensures Shows(Listened(a, Ending(d, m, bar, retain)), EndRun(d, m, bar, retain))
  {
    EndShows(a, d, m, bar, retain);
    if retain {
      EndRetains(d, m, bar);
    } else {
      EndFlattens(d, m, bar);
    }
  }
}
