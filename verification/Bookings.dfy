/**
 What the adapter books from order notifications. Each notification carries an
 order's cumulative figures; only the difference to the last one heard is
 looked at, so repeats book nothing. An entry is booked from every snapshot. An
 exit is booked from its Partial snapshots alone: what its Completed snapshot
 adds is left to the close of the trade, which books the whole trade's result.
 */
module Bookings {
  import opened Wrappers
  import opened Rounding
  import opened StableSort
  import opened TradeBook
  import opened DeskTypes

  /** The two statuses an execution is notified with. */
  type FillStatus = s: Status | s.Partial? || s.Completed? witness Partial

  datatype Report = Report(ref: nat, status: FillStatus, figures: Figures)

  function Minus(a: Figures, b: Figures): Figures {
    Figures(a.quantity - b.quantity, a.value - b.value, a.fee - b.fee, a.pnl - b.pnl)
  }

  /** The figures last reported of an order. */
  function Last(reports: seq<Report>, ref: nat): Figures {
    if reports == [] then NOTHING
    else
      var last := reports[|reports| - 1];
      if last.ref == ref then last.figures else Last(reports[..|reports| - 1], ref)
  }

  predicate Finished(reports: seq<Report>, ref: nat) {
    exists r | r in reports :: r.ref == ref && r.status.Completed?
  }

  /** A later snapshot of an order has grown, or it repeats the last one. */
  predicate Follows(before: Figures, now: Figures) {
    now.quantity > before.quantity || now == before
  }

  /** An order that completed is only ever reported again as it stood. */
  predicate Continues(reports: seq<Report>, r: Report) {
    && Follows(Last(reports, r.ref), r.figures)
    && (Finished(reports, r.ref) ==> r.status.Completed? && r.figures == Last(reports, r.ref))
  }

  /** Snapshots of each order arrive in order; orders may interleave in any way. */
  predicate Fifo(reports: seq<Report>) {
    reports != [] ==>
      var rest := reports[..|reports| - 1];
      Fifo(rest) && Continues(rest, reports[|reports| - 1])
  }

  // ---------------------------------------------------------------- exits

  /** What one snapshot adds to the one before: the difference, when it has grown. */
  function Delta(before: Figures, now: Figures): Figures {
    if now.quantity - before.quantity <= 0.0 then NOTHING else Minus(now, before)
  }

  /** What the exit snapshots of one status added. */
  function Added(reports: seq<Report>, status: FillStatus): Figures {
    if reports == [] then NOTHING
    else
      var last := reports[|reports| - 1];
      var rest := reports[..|reports| - 1];
      if last.status == status then Plus(Added(rest, status), Delta(Last(rest, last.ref), last.figures))
      else Added(rest, status)
  }

  /** Everything booked, as partial closes, from a schedule of exit notifications. */
  function Booked(reports: seq<Report>): Figures {
    Added(reports, Partial)
  }

  /** What completed exits reported and nothing booked: the close of the trade is to do it. */
  function Unbooked(reports: seq<Report>): Figures {
    Added(reports, Completed)
  }

  /** The broker's cumulative figures over a set of orders. */
  function Cumulative(reports: seq<Report>, refs: seq<nat>): Figures {
    if refs == [] then NOTHING else Plus(Cumulative(reports, refs[1..]), Last(reports, refs[0]))
  }

  ghost predicate Covers(refs: seq<nat>, reports: seq<Report>) {
    NoDup(refs) && forall r | r in reports :: r.ref in refs
  }

  /** One more snapshot changes the cumulative figures of its own order only. */
  lemma {:induction false} CumulativeNext(reports: seq<Report>, r: Report, refs: seq<nat>)
    requires NoDup(refs)
    ensures Cumulative(reports + [r], refs)
         == if r.ref in refs then Plus(Cumulative(reports, refs), Minus(r.figures, Last(reports, r.ref)))
            else Cumulative(reports, refs)
  {
    assert (reports + [r])[..|reports|] == reports;
    if refs != [] {
      assert NoDup(refs[1..]);
      CumulativeNext(reports, r, refs[1..]);
      assert refs == [refs[0]] + refs[1..];
      assert refs[0] !in refs[1..];
    }
  }

  lemma {:induction false} NothingReported(refs: seq<nat>)
    ensures Cumulative([], refs) == NOTHING
  {
    if refs != [] {
      NothingReported(refs[1..]);
    }
  }

  lemma AddedNext(reports: seq<Report>, r: Report, status: FillStatus)
    ensures Added(reports + [r], status)
         == if r.status == status then Plus(Added(reports, status), Delta(Last(reports, r.ref), r.figures))
            else Added(reports, status)
  {
    assert (reports + [r])[..|reports|] == reports;
  }

  lemma AddsUpNext(reports: seq<Report>, r: Report)
    ensures Plus(Booked(reports + [r]), Unbooked(reports + [r]))
         == Plus(Plus(Booked(reports), Unbooked(reports)), Delta(Last(reports, r.ref), r.figures))
  {
    AddedNext(reports, r, Partial);
    AddedNext(reports, r, Completed);
  }

  /** A snapshot in order differs from the last one by exactly what it adds. */
  lemma DeltaIsDifference(before: Figures, now: Figures)
    requires Follows(before, now)
    ensures Delta(before, now) == Minus(now, before)
  {
  }

  /**
   Whatever the schedule, what was booked and what was left for the close of the
   trade are together the broker's cumulative figures over the orders that
   reported: nothing is lost between the two, and nothing is in both.
   */
  lemma {:induction false} BookingsAreCumulative(reports: seq<Report>, refs: seq<nat>)
    requires Fifo(reports) && Covers(refs, reports)
    ensures Plus(Booked(reports), Unbooked(reports)) == Cumulative(reports, refs)
  {
    if reports == [] {
      NothingReported(refs);
    } else {
      var last := reports[|reports| - 1];
      var rest := reports[..|reports| - 1];
      assert reports == rest + [last];
      BookingsAreCumulative(rest, refs);
      CumulativeNext(rest, last, refs);
      AddsUpNext(rest, last);
      DeltaIsDifference(Last(rest, last.ref), last.figures);
    }
  }

  function Partials(reports: seq<Report>): seq<Report> {
    if reports == [] then []
    else
      var last := reports[|reports| - 1];
      Partials(reports[..|reports| - 1]) + if last.status.Partial? then [last] else []
  }

  /** Until an order completes, its Partial snapshots are all its snapshots. */
  lemma {:induction false} PartialsUntilDone(reports: seq<Report>, ref: nat)
    requires !Finished(reports, ref)
    ensures Last(Partials(reports), ref) == Last(reports, ref)
  {
    if reports != [] {
      var last := reports[|reports| - 1];
      var rest := reports[..|reports| - 1];
      PartialsUntilDone(rest, ref);
      if last.status.Partial? {
        assert Partials(reports) == Partials(rest) + [last];
        assert (Partials(rest) + [last])[..|Partials(rest)|] == Partials(rest);
      } else {
        assert Partials(reports) == Partials(rest);
      }
    }
  }

  /**
   What is booked is, order by order, the figures of the last Partial snapshot:
   repeats and the way the snapshots interleave make no difference.
   */
  lemma {:induction false} BookedIsLastPartial(reports: seq<Report>, refs: seq<nat>)
    requires Fifo(reports) && Covers(refs, reports)
    ensures Booked(reports) == Cumulative(Partials(reports), refs)
  {
    if reports == [] {
      NothingReported(refs);
    } else {
      var last := reports[|reports| - 1];
      var rest := reports[..|reports| - 1];
      assert reports == rest + [last];
      BookedIsLastPartial(rest, refs);
      AddedNext(rest, last, Partial);
      if last.status.Partial? {
        PartialsUntilDone(rest, last.ref);
        CumulativeNext(Partials(rest), last, refs);
        DeltaIsDifference(Last(rest, last.ref), last.figures);
      } else {
        assert Partials(reports) == Partials(rest);
      }
    }
  }

  // ------------------------------------ when everything is booked at once

  /** No snapshot of this status differs from the one heard before it of its order. */
  ghost predicate OnlyRepeats(reports: seq<Report>, status: FillStatus) {
    forall k | 0 <= k < |reports| && reports[k].status == status ::
      reports[k].figures == Last(reports[..k], reports[k].ref)
  }

  lemma OnlyRepeatsNext(reports: seq<Report>, r: Report, status: FillStatus)
    ensures OnlyRepeats(reports + [r], status)
       <==> OnlyRepeats(reports, status) && (r.status == status ==> r.figures == Last(reports, r.ref))
  {
    var all := reports + [r];
    assert all[..|reports|] == reports && all[|reports|] == r;
    assert forall k | 0 <= k < |reports| :: all[k] == reports[k] && all[..k] == reports[..k];
  }

  /** In order, a snapshot adds a positive quantity or nothing at all. */
  lemma DeltaGrows(before: Figures, now: Figures)
    requires Follows(before, now)
    ensures Delta(before, now) == NOTHING || Delta(before, now).quantity > 0.0
    ensures Delta(before, now) == NOTHING <==> now == before
  {
  }

  lemma PlusGrows(a: Figures, b: Figures)
    requires (a == NOTHING || a.quantity > 0.0) && (b == NOTHING || b.quantity > 0.0)
    ensures Plus(a, b) == NOTHING <==> a == NOTHING && b == NOTHING
    ensures Plus(a, b) == NOTHING || Plus(a, b).quantity > 0.0
  {
  }

  /** The snapshots of one status have added nothing exactly when they are all repeats. */
  lemma {:induction false} AddedNothing(reports: seq<Report>, status: FillStatus)
    requires Fifo(reports)
    ensures Added(reports, status) == NOTHING || Added(reports, status).quantity > 0.0
    ensures Added(reports, status) == NOTHING <==> OnlyRepeats(reports, status)
  {
    if reports != [] {
      var last := reports[|reports| - 1];
      var rest := reports[..|reports| - 1];
      assert reports == rest + [last];
      AddedNothing(rest, status);
      OnlyRepeatsNext(rest, last, status);
      AddedNext(rest, last, status);
      DeltaGrows(Last(rest, last.ref), last.figures);
      PlusGrows(Added(rest, status), Delta(Last(rest, last.ref), last.figures));
    }
  }

  lemma WholeWithoutRest(whole: Figures, booked: Figures, rest: Figures)
    requires Plus(booked, rest) == whole
    ensures booked == whole <==> rest == NOTHING
  {
  }

  lemma NothingUnbooked(reports: seq<Report>, refs: seq<nat>)
    requires Plus(Booked(reports), Unbooked(reports)) == Cumulative(reports, refs)
    ensures Booked(reports) == Cumulative(reports, refs) <==> Unbooked(reports) == NOTHING
  {
    WholeWithoutRest(Cumulative(reports, refs), Booked(reports), Unbooked(reports));
  }

  lemma WholeWhenNothingLeft(reports: seq<Report>, refs: seq<nat>)
    requires Fifo(reports) && Covers(refs, reports)
    ensures Booked(reports) == Cumulative(reports, refs) <==> Unbooked(reports) == NOTHING
  {
    BookingsAreCumulative(reports, refs);
    NothingUnbooked(reports, refs);
  }

  lemma CompletionsRepeat(reports: seq<Report>)
    requires Fifo(reports)
    ensures Unbooked(reports) == NOTHING <==> OnlyRepeats(reports, Completed)
  {
    AddedNothing(reports, Completed);
  }

  /**
   Exits are booked at the broker's cumulative figures exactly when no Completed
   snapshot brings more than was heard of its order before.
   */
  lemma BookedWhole(reports: seq<Report>, refs: seq<nat>)
    requires Fifo(reports) && Covers(refs, reports)
    ensures Booked(reports) == Cumulative(reports, refs) <==> OnlyRepeats(reports, Completed)
  {
    CompletionsRepeat(reports);
    WholeWhenNothingLeft(reports, refs);
  }

  /**
   The schedule is irrelevant among those whose completions only repeat: one of
   the same totals books the same exactly when its completions only repeat too.
   */
  lemma SchedulesAgree(a: seq<Report>, b: seq<Report>, refs: seq<nat>)
    requires Fifo(a) && Fifo(b) && Covers(refs, a) && Covers(refs, b)
    requires Cumulative(a, refs) == Cumulative(b, refs) && OnlyRepeats(a, Completed)
    ensures Booked(a) == Booked(b) <==> OnlyRepeats(b, Completed)
  {
    BookedWhole(a, refs);
    BookedWhole(b, refs);
  }

  lemma HeardOnce(r: Report)
    requires r.figures.quantity > 0.0
    ensures Fifo([r]) && Last([r], r.ref) == r.figures
    ensures Booked([r]) == if r.status.Partial? then r.figures else NOTHING
  {
    assert [] + [r] == [r];
    FifoNext([], r);
    AddedNext([], r, Partial);
  }

  /** One exit of ten: heard by halves five are booked, heard only as completed nothing is. */
  lemma CompletionBooksNothing(half: Figures, whole: Figures)
    requires half.quantity == 5.0 && whole.quantity == 10.0
    ensures var halves := [Report(1, Partial, half), Report(1, Completed, whole)];
            Fifo(halves) && Last(halves, 1) == whole && Booked(halves) == half
    ensures var once := [Report(1, Completed, whole)];
            Fifo(once) && Last(once, 1) == whole && Booked(once) == NOTHING
  {
    var first, last := Report(1, Partial, half), Report(1, Completed, whole);
    HeardOnce(first);
    HeardOnce(last);
    FifoNext([first], last);
    AddedNext([first], last, Partial);
    assert [first] + [last] == [first, last];
  }

  // --------------------------------------------------------------- entries

  /** The account's open position: size, average entry price, entry commission. */
  datatype Position = Position(quantity: real, price: real, commission: real)

  /** What holding a position ties up: its acquisition cost, or the margin posted for it. */
  function MarginUsed(p: Position, leverage: real): real
    requires leverage > 0.0
  {
    Value(p.quantity, p.price) / leverage
  }

  /** The free margin a spot strategy is shown: the ledger balance less what is tied up. */
  function FreeMargin(balance: real, p: Position, leverage: real): real
    requires leverage > 0.0
  {
    balance - MarginUsed(p, leverage)
  }

  /** The position the books hold, as an account that heard every fill shows it. */
  function HeldPosition(b: Book): Position {
    Position(Abs(b.size), b.price, Total(b.fills, EntryCommission, b.trade))
  }

  /** The first snapshot opens the position, each later one averages in what it adds. */
  function BookEntrySnapshot(p: Position, before: Figures, now: Figures): Position {
    var added := now.quantity - before.quantity;
    if added <= 0.0 || now.quantity == 0.0 then p
    else if before.quantity == 0.0 then Position(now.quantity, now.value / now.quantity, now.fee)
    else if p.quantity + added == 0.0 then p
    else
      Position(p.quantity + added,
               AveragePrice(p.quantity, p.price, added, (now.value - before.value) / added),
               p.commission + (now.fee - before.fee))
  }

  function BookedEntry(snapshots: seq<Figures>): Position {
    if snapshots == [] then Position(0.0, 0.0, 0.0)
    else
      var rest := snapshots[..|snapshots| - 1];
      BookEntrySnapshot(BookedEntry(rest), Latest(rest), snapshots[|snapshots| - 1])
  }

  function Latest(snapshots: seq<Figures>): Figures {
    if snapshots == [] then NOTHING else snapshots[|snapshots| - 1]
  }

  predicate InOrder(snapshots: seq<Figures>) {
    && (forall i | 0 < i < |snapshots| :: Follows(snapshots[i - 1], snapshots[i]))
    && (snapshots != [] ==> snapshots[0].quantity > 0.0)
  }

  /** The position the broker's own cumulative figures describe. */
  predicate Describes(p: Position, f: Figures)
    requires f.quantity != 0.0
  {
    p.quantity == f.quantity && p.price == f.value / f.quantity && p.commission == f.fee
  }

  lemma AverageOfSnapshots(before: Figures, now: Figures)
    requires 0.0 < before.quantity < now.quantity
    ensures var added := now.quantity - before.quantity;
            AveragePrice(before.quantity, before.value / before.quantity, added, (now.value - before.value) / added)
            == now.value / now.quantity
  {
    var added := now.quantity - before.quantity;
    Quotient(before.value, before.quantity);
    Quotient(now.value - before.value, added);
  }

  lemma {:induction false} SnapshotsArePositive(snapshots: seq<Figures>)
    requires InOrder(snapshots) && snapshots != []
    ensures Latest(snapshots).quantity > 0.0
  {
    if |snapshots| > 1 {
      SnapshotsArePositive(snapshots[..|snapshots| - 1]);
      assert Follows(snapshots[|snapshots| - 2], snapshots[|snapshots| - 1]);
    }
  }

  /**
   Whatever snapshots of an entry are heard, and however often, the account
   ends with the broker's quantity, average entry price and commission.
   */
  lemma {:induction false} EntryBookingsAgree(snapshots: seq<Figures>)
    requires InOrder(snapshots) && snapshots != []
    ensures Latest(snapshots).quantity > 0.0
    ensures Describes(BookedEntry(snapshots), Latest(snapshots))
  {
    SnapshotsArePositive(snapshots);
    var rest := snapshots[..|snapshots| - 1];
    var now := snapshots[|snapshots| - 1];
    if rest != [] {
      assert Follows(snapshots[|snapshots| - 2], now);
      EntryBookingsAgree(rest);
      if now.quantity > Latest(rest).quantity {
        AverageOfSnapshots(Latest(rest), now);
      }
    }
  }

  // -------------------------------------------------- the close of a trade

  /**
   What a ledger of the account's own shows of a trade: the entry fee when it
   opens, what its partial closes book, and at its close the gross result of the
   whole trade with every fee but the entry's. An account over the broker's
   ledger books none of it.
   */
  function OwnLedger(start: real, entryFee: real, partial: Figures, whole: Figures): real {
    start - entryFee + (partial.pnl - partial.fee) + (whole.pnl - whole.fee)
  }

  /** What the broker's books show of the same trade. */
  function BrokerLedger(start: real, entryFee: real, whole: Figures): real {
    start - entryFee + whole.pnl - whole.fee
  }

  lemma LedgersDiffer(start: real, entryFee: real, partial: Figures, whole: Figures)
    ensures OwnLedger(start, entryFee, partial, whole) - BrokerLedger(start, entryFee, whole) == partial.pnl - partial.fee
  {
  }

  /** The same snapshots, had every unit earned one and cost nothing. */
  function Earning(reports: seq<Report>): seq<Report> {
    if reports == [] then []
    else
      var last := reports[|reports| - 1];
      Earning(reports[..|reports| - 1]) + [last.(figures := Earned(last.figures))]
  }

  function Earned(f: Figures): Figures {
    f.(fee := 0.0, pnl := f.quantity)
  }

  lemma {:induction false} LastEarned(reports: seq<Report>, ref: nat)
    ensures Last(Earning(reports), ref) == Earned(Last(reports, ref))
  {
    if reports != [] {
      var last := reports[|reports| - 1];
      var rest := reports[..|reports| - 1];
      LastEarned(rest, ref);
      assert (Earning(rest) + [last.(figures := Earned(last.figures))])[..|Earning(rest)|] == Earning(rest);
    }
  }

  lemma {:induction false} AddedEarned(reports: seq<Report>, status: FillStatus)
    ensures Added(Earning(reports), status) == Earned(Added(reports, status))
  {
    if reports != [] {
      var last := reports[|reports| - 1];
      var rest := reports[..|reports| - 1];
      assert reports == rest + [last];
      AddedEarned(rest, status);
      LastEarned(rest, last.ref);
      AddedNext(rest, last, status);
      AddedNext(Earning(rest), last.(figures := Earned(last.figures)), status);
    }
  }

  lemma PartialsRepeat(reports: seq<Report>)
    requires Fifo(reports)
    ensures Booked(reports) == NOTHING <==> OnlyRepeats(reports, Partial)
  {
    AddedNothing(reports, Partial);
  }

  /**
   Beside a broker that reports every exit in full, as the stock broker does,
   an account's own ledger agrees with it about a closed trade. Only there: if
   a Partial snapshot brought anything, the close books it a second time, and
   the same snapshots with a profit of one a unit leave the ledgers apart.
   */
  lemma OwnLedgerAgrees(start: real, entryFee: real, reports: seq<Report>, whole: Figures)
    requires Fifo(reports)
    ensures OnlyRepeats(reports, Partial) ==>
              OwnLedger(start, entryFee, Booked(reports), whole) == BrokerLedger(start, entryFee, whole)
    ensures !OnlyRepeats(reports, Partial) ==>
              OwnLedger(start, entryFee, Booked(Earning(reports)), whole) > BrokerLedger(start, entryFee, whole)
  {
    AddedNothing(reports, Partial);
    AddedEarned(reports, Partial);
    LedgersDiffer(start, entryFee, Booked(reports), whole);
    LedgersDiffer(start, entryFee, Booked(Earning(reports)), whole);
  }

  /** Half of a trade heard as a partial close that earned three at a fee of one: an own ledger shows two too many. */
  lemma PartialIsBookedTwice(start: real, entryFee: real, half: Figures, whole: Figures)
    requires half.quantity == 5.0 && half.pnl == 3.0 && half.fee == 1.0 && whole.quantity == 10.0
    ensures var halves := [Report(1, Partial, half), Report(1, Completed, whole)];
            Fifo(halves) && OwnLedger(start, entryFee, Booked(halves), whole) == BrokerLedger(start, entryFee, whole) + 2.0
  {
    CompletionBooksNothing(half, whole);
    LedgersDiffer(start, entryFee, half, whole);
  }

  // ------------------------------------------------------------ in place

  lemma FifoNext(heard: seq<Report>, r: Report)
    requires Fifo(heard) && Continues(heard, r)
    ensures Fifo(heard + [r])
  {
    assert (heard + [r])[..|heard|] == heard;
  }

  lemma LastNext(heard: seq<Report>, r: Report)
    ensures forall ref: nat :: Last(heard + [r], ref) == if r.ref == ref then r.figures else Last(heard, ref)
  {
    assert (heard + [r])[..|heard|] == heard;
  }

  /** The adapter's memory of what each exit of a trade last reported, and the account it books to. */
  class ExitBookings {
    const ownsLedger: bool
    var notifiedFills: map<nat, Figures>
    var ledger: real
    var quantity: real
    var entryCommission: real
    ghost const start: real
    ghost const held: real
    ghost var heard: seq<Report>
    ghost var booked: Figures // what its Partial snapshots added

    ghost predicate Remembers()
      reads this
    {
      forall ref: nat :: (if ref in notifiedFills.Keys then notifiedFills[ref] else NOTHING) == Last(heard, ref)
    }

    /** The trade is open: every partial close heard so far is booked, and nothing else. */
    ghost predicate Valid()
      reads this
    {
      && Fifo(heard) && Remembers() && booked == Booked(heard)
      && quantity == held - booked.quantity
      && ledger == if ownsLedger then OwnLedger(start, entryCommission, booked, NOTHING) else start
    }

    constructor (ownsLedger: bool, balance: real, quantity: real, commission: real)
      ensures Valid() && heard == [] && this.ownsLedger == ownsLedger
      ensures start == balance && held == quantity && entryCommission == commission
    {
      this.ownsLedger, this.quantity, entryCommission := ownsLedger, quantity, commission;
      notifiedFills := map[];
      ledger := if ownsLedger then balance - commission else balance;
      start, held, heard, booked := balance, quantity, [], NOTHING;
    }

    /** Hear one cumulative snapshot of an exit order; only what a Partial one adds is booked. */
    method NotifyExit(r: Report)
      requires Valid() && Continues(heard, r)
      modifies this
      ensures Valid() && heard == old(heard) + [r]
      ensures entryCommission == old(entryCommission)
      ensures r.status.Completed? ==> quantity == old(quantity) && ledger == old(ledger)
    {
      var prior := if r.ref in notifiedFills then notifiedFills[r.ref] else NOTHING;
      FifoNext(heard, r);
      LastNext(heard, r);
      AddedNext(heard, r, Partial);
      notifiedFills := notifiedFills[r.ref := r.figures];
      heard, booked := heard + [r], Booked(heard + [r]);
      var delta := r.figures.quantity - prior.quantity;
      if delta <= 0.0 {
        return;
      }
      if r.status.Partial? {
        PartialBooks(start, entryCommission, old(booked), Minus(r.figures, prior));
        BookPartial(Minus(r.figures, prior));
      }
    }

    /** A partial close: the position shrinks, and an own ledger shows its profit and its fee. */
    method BookPartial(added: Figures)
      modifies this`quantity, this`ledger
      ensures quantity == old(quantity) - added.quantity
      ensures ledger == if ownsLedger then old(ledger) + added.pnl - added.fee else old(ledger)
    {
      quantity := quantity - added.quantity;
      if ownsLedger {
        ledger := ledger + added.pnl;
        ledger := ledger - added.fee;
      }
    }

    /**
     Hear that the trade closed, with its gross profit and its profit after every
     fee. When these are the broker's figures of the exits heard, an own ledger
     that booked no partial close shows the broker's result.
     */
    method NotifyTradeClosed(pnl: real, pnlComm: real, ghost refs: seq<nat>, ghost whole: Figures)
      requires Valid() && Covers(refs, heard) && whole == Cumulative(heard, refs)
      requires pnl == whole.pnl && pnl - pnlComm == entryCommission + whole.fee
      modifies this
      ensures heard == old(heard) && booked == old(booked) && notifiedFills == old(notifiedFills)
      ensures quantity == 0.0 && entryCommission == 0.0
      ensures !ownsLedger ==> ledger == start
      ensures ownsLedger ==> ledger == OwnLedger(start, old(entryCommission), booked, whole)
      ensures ownsLedger && OnlyRepeats(heard, Partial) ==> ledger == BrokerLedger(start, old(entryCommission), whole)
    {
      ghost var before := ledger;
      PartialsRepeat(heard);
      BookClose(pnl, pnl - pnlComm - entryCommission);
      OwnLedgerCloses(start, entryCommission, booked, whole, pnl, pnlComm, before);
      quantity, entryCommission := 0.0, 0.0;
    }

    /** The gross result and what is left of the commission, as separate entries of an own ledger. */
    method BookClose(pnl: real, commission: real)
      modifies this`ledger
      ensures ledger == if ownsLedger then old(ledger) + pnl - commission else old(ledger)
    {
      if ownsLedger {
        ledger := ledger + pnl;
        ledger := ledger - commission;
      }
    }
  }

  lemma PartialBooks(start: real, entryFee: real, booked: Figures, added: Figures)
    ensures OwnLedger(start, entryFee, Plus(booked, added), NOTHING)
         == OwnLedger(start, entryFee, booked, NOTHING) + added.pnl - added.fee
  {
  }

  lemma OwnLedgerCloses(
    start: real, entryFee: real, partial: Figures, whole: Figures, pnl: real, pnlComm: real, ledger: real)
    requires pnl == whole.pnl && pnl - pnlComm == entryFee + whole.fee
    ensures ledger == OwnLedger(start, entryFee, partial, NOTHING) ==>
              ledger + pnl - (pnl - pnlComm - entryFee) == OwnLedger(start, entryFee, partial, whole)
    ensures partial == NOTHING ==> OwnLedger(start, entryFee, partial, whole) == BrokerLedger(start, entryFee, whole)
  {
  }

  /** What an entry order last reported, and the position booked from it. */
  class EntryBookings {
    var notified: Figures
    var position: Position
    ghost var heard: seq<Figures>

    ghost predicate Valid()
      reads this
    {
      notified == Latest(heard) && position == BookedEntry(heard) && InOrder(heard)
    }

    constructor ()
      ensures Valid() && heard == []
    {
      notified, position, heard := NOTHING, Position(0.0, 0.0, 0.0), [];
    }

    /** After each snapshot heard, the booked position is the one it describes. */
    method NotifyEntry(now: Figures)
      requires Valid() && now.quantity > 0.0 && Follows(notified, now)
      modifies this
      ensures Valid() && heard == old(heard) + [now]
      ensures Describes(position, now)
    {
      var before := notified;
      EntryHeardNext(heard, now);
      notified, heard := now, heard + [now];
      var added := now.quantity - before.quantity;
      if added <= 0.0 {
        return;
      }
      if before.quantity == 0.0 {
        position := Position(now.quantity, now.value / now.quantity, now.fee);
      } else {
        position := BookEntrySnapshot(position, before, now);
      }
    }
  }

  lemma EntryHeardNext(heard: seq<Figures>, now: Figures)
    requires InOrder(heard) && now.quantity > 0.0 && Follows(Latest(heard), now)
    ensures InOrder(heard + [now]) && Latest(heard + [now]) == now
    ensures BookedEntry(heard + [now]) == BookEntrySnapshot(BookedEntry(heard), Latest(heard), now)
    ensures Describes(BookedEntry(heard + [now]), now)
  {
    assert (heard + [now])[..|heard|] == heard;
    EntryBookingsAgree(heard + [now]);
  }
}
