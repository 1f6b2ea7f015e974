/**
 What a whole bar books: the funding of the position held before it, a
 liquidation at the mark, and then fills that stay within the bar's volume
 budget and are referenced to prices the bar traded at.
 */
module DeskFills {
  import opened Wrappers
  import opened Rounding
  import opened TradeBook
  import opened ExecutionPricing
  import opened ExecutionBroker
  import opened DeskTypes
  import opened DeskExecution
  import opened DeskBar
  import opened DeskStructure
  import opened DeskSafety
  import opened DeskSignal
  import opened DeskSteps
  import opened DeskPass
  import opened DeskOpening
  import opened DeskAdapter
  import opened DeskHearing
  import opened DeskRun
  import opened DeskBooks

  // --------------------------------------------------------- forced closes

  /** A close of the whole position `b` holds, referenced to this price. */
  predicate ClosesWhole(b: Book, f: Fill, reference: real) {
    && !f.entry && f.trade == b.trade && f.buy == (b.size < 0.0)
    && f.size == Abs(b.size) && f.reference == reference
  }

  /** The venue's fee, in basis points of the notional at the mark. */
  function VenueFee(size: real, mark: Mark): real {
    size * mark.price * mark.feeBps / 10000.0
  }

  /** A liquidation trades at the mark, pays no commission, and the venue's fee on the notional it closes. */
  predicate LiquidatedAt(b: Book, f: Fill, mark: Mark) {
    && ClosesWhole(b, f, mark.price) && f.price == mark.price && f.cost == 0.0 && f.commission == 0.0
    && f.liquidationFee == VenueFee(Abs(b.size), mark)
  }

  lemma Costless(buy: bool, size: real, price: real)
    ensures SignedCost(buy, size, price, price) == 0.0 && Value(size, price * 0.0) == 0.0
  {
  }

  /** The fill of a forced close, whatever it is referenced to. */
  lemma ForcedFillShape(t: Desk, m: Model, bar: Bar, r: nat, quantity: real, reference: real, fee: real)
    requires r < |t.orders| && Closes(t, r) && quantity == Held(t)
    ensures var f := ExitFill(t, m, bar, r, quantity, reference, fee);
            && ClosesWhole(t.book, f, reference) && f.liquidationFee == fee
            && (t.orders[r].role == Liquidation ==> f.price == reference && f.commission == 0.0 && f.cost == 0.0)
  {
    Costless(t.orders[r].buy, quantity, reference);
  }

  lemma ForcedFill(c: Desk, m: Model, bar: Bar, o: Order, reference: real, fee: real) returns (f: Fill)
    requires Cleared(c, m, bar.timestamp) && ClosesAll(c, o) && c.book.size != 0.0
    ensures var e := ExecuteExit(Forcing(c, o), m, bar, |c.orders|, reference, fee);
            e.book == Recorded(c.book, f) && e.liquidity == c.liquidity
    ensures ClosesWhole(c.book, f, reference) && f.liquidationFee == fee
    ensures o.role == Liquidation ==> f.price == reference && f.commission == 0.0 && f.cost == 0.0
  {
    var t, r := Forcing(c, o), |c.orders|;
    ForcedSize(c, m, bar.timestamp, o);
    var trimmed := Trimmed(t, r);
    f := ExitFill(trimmed, m, bar, r, Held(c), reference, fee);
    ForcedFillShape(trimmed, m, bar, r, Held(c), reference, fee);
    ClosedBook(trimmed, m, bar, r, Held(c), reference, fee);
  }

  lemma OneFill(b: Book, t: Book, f: Fill)
    requires b.leverage > 0.0 && !f.entry && t == Recorded(b, f)
    ensures b.fills <= t.fills && t.fills[|b.fills|..] == [f] && t.leverage == b.leverage && t.funding == b.funding
  {
    ExitRecorded(b, f);
  }

  lemma ClearedFill(c: Desk, m: Model, bar: Bar, mark: Mark, fee: real) returns (f: Fill)
    requires Cleared(c, m, bar.timestamp) && c.book.size != 0.0 && fee == VenueFee(Abs(c.book.size), mark)
    ensures LiquidatedAt(c.book, f, mark)
    ensures var e := ExecuteExit(Forcing(c, LiquidationOrder(c, mark, bar.timestamp)), m, bar, |c.orders|, mark.price, fee);
            e.book == Recorded(c.book, f) && e.liquidity == c.liquidity
  {
    f := ForcedFill(c, m, bar, LiquidationOrder(c, mark, bar.timestamp), mark.price, fee);
  }

  lemma FeeIsVenues(d: Desk, mark: Mark)
    ensures FeeAtMark(d, mark) == VenueFee(Abs(d.book.size), mark)
  {
  }

  lemma MarkUnfolds(d: Desk, m: Model, bar: Bar, mark: Mark)
    requires d.book.size != 0.0
    ensures var c, fee := CancelEach(d, d.pending), FeeAtMark(d, mark);
            Liquidate(d, m, bar, Some(mark))
            == ExecuteExit(Forcing(c, LiquidationOrder(c, mark, bar.timestamp)), m, bar, |c.orders|, mark.price, fee)
  {
  }

  /** What a mark that liquidates books. */
  lemma LiquidationFill(d: Desk, m: Model, bar: Bar, mark: Mark) returns (f: Fill)
    requires Safe(d, m, bar.timestamp, {}) && d.book.size != 0.0
    ensures LiquidatedAt(d.book, f, mark)
    ensures var e := Liquidate(d, m, bar, Some(mark));
            e.book == Recorded(d.book, f) && e.liquidity == d.liquidity
  {
    var c := CancelEach(d, d.pending);
    ClearedByCancel(d, m, bar.timestamp);
    MarkUnfolds(d, m, bar, mark);
    FeeIsVenues(d, mark);
    f := ClearedFill(c, m, bar, mark, FeeAtMark(d, mark));
  }

  /** The end of the data closes the whole position at the last close. */
  lemma LastCloseFill(d: Desk, m: Model, bar: Bar) returns (f: Fill)
    requires Cleared(d, m, bar.timestamp) && d.book.size != 0.0
    ensures ClosesWhole(d.book, f, bar.close) && f.liquidationFee == 0.0
    ensures ExecuteExit(Forcing(d, EndOrder(d, bar.timestamp)), m, bar, |d.orders|, bar.close, 0.0).book == Recorded(d.book, f)
  {
    f := ForcedFill(d, m, bar, EndOrder(d, bar.timestamp), bar.close, 0.0);
  }

  // ------------------------------------------------------------- whole bar

  lemma {:induction false} SignalsAppend(d: Desk, m: Model, bar: Bar, refs: seq<Option<nat>>)
    requires Safe(d, m, bar.timestamp, {})
    ensures Appends(d, SignalsAtOpen(d, m, bar, refs), bar)
    decreases |refs|
  {
    if refs == [] {
      NothingBooked(d, d, bar);
    } else {
      var r := refs[0];
      if r.Some? && Alive(d.orders, r.value) && d.orders[r.value].role == Signal {
        var t := MatchSignalOpen(d, m, bar, r.value);
        SignalAtOpenSafe(d, m, bar, r.value);
        SignalAppends(d, m, bar, r.value);
        SignalsAppend(t, m, bar, refs[1..]);
        AppendsThen(d, t, SignalsAtOpen(t, m, bar, refs[1..]), bar);
      } else {
        SignalsAppend(d, m, bar, refs[1..]);
      }
    }
  }

  /** Signal closes and the walk. */
  lemma WalkAppends(l: Desk, m: Model, bar: Bar)
    requires Safe(l, m, bar.timestamp, {}) && None !in l.pending
    ensures Appends(l, Pass(Prepared(SignalsAtOpen(l, m, bar, l.pending), bar), m, bar), bar)
  {
    var s := SignalsAtOpen(l, m, bar, l.pending);
    SignalsAppend(l, m, bar, l.pending);
    SignalsAtOpenSafe(l, m, bar, l.pending);
    PreparedSafe(s, m, bar);
    PassAppends(Prepared(s, bar), m, bar);
    MoneyAside(s, Prepared(s, bar), Pass(Prepared(s, bar), m, bar), bar);
    AppendsThen(l, s, Pass(Prepared(s, bar), m, bar), bar);
  }

  /** The position is liquidated on this bar. */
  predicate Liquidates(d: Desk, input: Input) {
    input.mark.Some? && d.book.size != 0.0
  }

  /**
   What a bar books: the position held before it is charged its funding, a
   mark that liquidates closes it whole, and everything else is referenced to
   prices of the bar and fits the share of its volume the proxy allows.
   */
  ghost predicate BarBooked(d: Desk, m: Model, input: Input, b: Desk) {
    && d.book.fills <= b.book.fills
    && b.book.funding == d.book.funding - d.book.size * ChargePerUnit(input.due)
    && (Liquidates(d, input) ==> |Booking(d, b)| >= 1 && LiquidatedAt(d.book, Booking(d, b)[0], input.mark.value))
    && Ordinary(m, input.bar, if Liquidates(d, input) then Booking(d, b)[1..] else Booking(d, b))
  }

  /** Fills on the bar's own prices, within the share of its volume that may trade. */
  ghost predicate Ordinary(m: Model, bar: Bar, fills: seq<Fill>) {
    && (WellFormed(bar) ==> OnBar(bar, fills))
    && (m.proxy.Some? && Value(bar.volume, m.proxy.value.participation) >= 0.0 ==>
          Volume(fills) <= Value(bar.volume, m.proxy.value.participation))
  }

  lemma AppendedIsOrdinary(l: Desk, b: Desk, m: Model, bar: Bar)
    requires Appends(l, b, bar) && l.liquidity == BarBudget(m, bar)
    ensures Ordinary(m, bar, Booking(l, b))
  {
  }

  lemma WalkIsOrdinary(l: Desk, m: Model, bar: Bar)
    requires Safe(l, m, bar.timestamp, {}) && None !in l.pending && l.liquidity == BarBudget(m, bar)
    ensures var b := Pass(Prepared(SignalsAtOpen(l, m, bar, l.pending), bar), m, bar);
            && l.book.fills <= b.book.fills && b.book.funding == l.book.funding
            && Ordinary(m, bar, Booking(l, b))
  {
    WalkAppends(l, m, bar);
    AppendedIsOrdinary(l, Pass(Prepared(SignalsAtOpen(l, m, bar, l.pending), bar), m, bar), m, bar);
  }

  lemma SettledBooks(d: Desk, m: Model, input: Input)
    requires Safe(d, m, input.bar.timestamp, {})
    ensures var o := OpenDesk(d, m, input.bar, input.due);
            && o.liquidity == BarBudget(m, input.bar)
            && o.book.fills == d.book.fills && o.book.size == d.book.size && o.book.trade == d.book.trade
            && o.book.funding == d.book.funding - d.book.size * ChargePerUnit(input.due)
  {
    FundingCharged(d.book, input.due);
    SettledSound(d.book, input.due);
  }

  lemma OpeningBooks(d: Desk, m: Model, input: Input)
    requires Safe(d, m, input.bar.timestamp, {})
    ensures var l := Liquidate(OpenDesk(d, m, input.bar, input.due), m, input.bar, input.mark);
            && l.liquidity == BarBudget(m, input.bar)
            && d.book.fills <= l.book.fills
            && l.book.funding == d.book.funding - d.book.size * ChargePerUnit(input.due)
            && (if Liquidates(d, input) then |Booking(d, l)| == 1 && LiquidatedAt(d.book, Booking(d, l)[0], input.mark.value)
                else Booking(d, l) == [])
  {
    var o := OpenDesk(d, m, input.bar, input.due);
    OpenDeskSafe(d, m, input.bar, input.due);
    SettledBooks(d, m, input);
    if Liquidates(d, input) {
      var f := LiquidationFill(o, m, input.bar, input.mark.value);
      OneFill(o.book, Liquidate(o, m, input.bar, input.mark).book, f);
    }
  }

  /** Every bar books what it should. */
  lemma BarBooks(d: Desk, m: Model, input: Input)
    requires Safe(d, m, input.bar.timestamp, {}) && None !in d.pending
    ensures BarBooked(d, m, input, BrokerBar(d, m, input.bar, input.due, input.mark))
  {
    var l := Liquidate(OpenDesk(d, m, input.bar, input.due), m, input.bar, input.mark);
    var b := BrokerBar(d, m, input.bar, input.due, input.mark);
    OpeningBooks(d, m, input);
    BarOpens(d, m, input.bar, input.due, input.mark);
    WalkIsOrdinary(l, m, input.bar);
    BookingSplits(d, l, b);
  }

  // -------------------------------------------------------------- whole run

  lemma UpdateBooksNothing(d: Desk, bar: Bar, decision: Decision)
    ensures UpdateExits(d, bar, decision).book == d.book
  {
    if IsAlive(d, d.stop) {
      var stop, target := NextStop(d, decision), NextTarget(d, decision);
      CancelKeepsBook(RewriteEntry(d, stop, target), d.stop.value);
    }
  }

  lemma DropBooksNothing(d: Desk)
    ensures DropEntry(d).book == d.book
  {
    if IsAlive(d, d.entry) {
      CancelKeepsBook(d.(cancelledEntry := d.entry), d.entry.value);
    }
  }

  /** Only the broker books: notifications and the strategy's turn leave the books alone. */
  lemma StepBooks(d: Desk, m: Model, input: Input)
    ensures Step(d, m, input).book == BrokerBar(d, m, input.bar, input.due, input.mark).book
  {
    var b := BrokerBar(d, m, input.bar, input.due, input.mark);
    var e := Deliver(b);
    DeliverBooksNothing(b.(notices := []), b.notices);
    DropBooksNothing(e);
    var t := AcceptExit(e, input.bar, input.decision);
    assert t.book == e.book;
    UpdateBooksNothing(t, input.bar, input.decision);
    DropBooksNothing(t);
  }

  ghost predicate RunBooked(d: Desk, m: Model, inputs: seq<Input>)
    decreases |inputs|
  {
    inputs == [] ||
    (&& BarBooked(d, m, inputs[0], Step(d, m, inputs[0]))
     && RunBooked(Step(d, m, inputs[0]), m, inputs[1..]))
  }

  /** What the positions held before each bar of the run are charged. */
  function Charges(d: Desk, m: Model, inputs: seq<Input>): real
    decreases |inputs|
  {
    if inputs == [] then 0.0
    else d.book.size * ChargePerUnit(inputs[0].due) + Charges(Step(d, m, inputs[0]), m, inputs[1..])
  }

  lemma StepIsBooked(d: Desk, m: Model, input: Input)
    requires Resting(d, m)
    ensures BarBooked(d, m, input, Step(d, m, input))
  {
    RestingSafe(d, m, input.bar.timestamp);
    BarBooks(d, m, input);
    StepBooks(d, m, input);
    BooksDecide(d, m, input, BrokerBar(d, m, input.bar, input.due, input.mark), Step(d, m, input));
  }

  lemma BooksDecide(d: Desk, m: Model, input: Input, b: Desk, e: Desk)
    requires BarBooked(d, m, input, b) && e.book == b.book
    ensures BarBooked(d, m, input, e)
  {
  }

  lemma {:induction false} RunBooks(d: Desk, m: Model, inputs: seq<Input>)
    requires Resting(d, m)
    ensures RunBooked(d, m, inputs)
    ensures Played(d, m, inputs).book.funding == d.book.funding - Charges(d, m, inputs)
    decreases |inputs|
  {
    if inputs != [] {
      StepIsBooked(d, m, inputs[0]);
      StepSafe(d, m, inputs[0]);
      RunBooks(Step(d, m, inputs[0]), m, inputs[1..]);
    }
  }

  /**
   Over every run from a fresh account: every bar books what it should, and the
   funding total is minus what the positions held before each bar were charged.
   */
  lemma EveryRunBooks(m: Model, initial: real, leverage: real, inputs: seq<Input>)
    requires leverage > 0.0 && (m.step.Some? ==> m.step.value > 0.0)
    ensures RunBooked(Fresh(initial, leverage), m, inputs)
    ensures Played(Fresh(initial, leverage), m, inputs).book.funding == -Charges(Fresh(initial, leverage), m, inputs)
  {
    FreshRests(m, initial, leverage);
    RunBooks(Fresh(initial, leverage), m, inputs);
  }

  /** At the end of the data, unless it is marked, the whole position is closed at the last close. */
  lemma EndBooks(d: Desk, m: Model, bar: Bar) returns (f: Fill)
    requires Resting(d, m) && d.book.size != 0.0
    ensures ClosesWhole(d.book, f, bar.close) && f.liquidationFee == 0.0
    ensures EndRun(d, m, bar, false).book == Recorded(d.book, f)
  {
    EndClears(d, m, bar.timestamp);
    var c := CancelAlive(CancelAlive(CancelAlive(CancelAlive(d, d.entry), d.stop), d.target), d.signal);
    f := LastCloseFill(c, m, bar);
    EndRefs(d, d.entry);
    EndRefs(CancelAlive(d, d.entry), d.stop);
    EndRefs(CancelAlive(CancelAlive(d, d.entry), d.stop), d.target);
    var e := Ending(d, m, bar, false);
    DeliverBooksNothing(e.(notices := []), e.notices);
  }
}
