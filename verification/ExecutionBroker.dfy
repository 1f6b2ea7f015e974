/**
 The broker's money in place: cash and position move with each fill, the
 ledger records why, and the fill ledger keeps every fill under its trade.
 */
module ExecutionBroker {
  import opened Wrappers
  import opened Rounding
  import opened TradeBook
  import opened Ledger

  /** One archived funding settlement. */
  datatype FundingRecord = FundingRecord(timestamp: int, rate: real, mark: real)

  /** A long pays a positive rate on its marked notional; a short receives it. */
  function FundingAmount(size: real, r: FundingRecord): real {
    Value(-size, r.mark * r.rate)
  }

  /** The fills of one trade, in order. */
  function FillsOf(fills: seq<Fill>, trade: nat): seq<Fill> {
    if fills == [] then []
    else
      var last := fills[|fills| - 1];
      FillsOf(fills[..|fills| - 1], trade) + (if last.trade == trade then [last] else [])
  }

  lemma FillsOfAppend(fills: seq<Fill>, f: Fill, trade: nat)
    ensures FillsOf(fills + [f], trade) == FillsOf(fills, trade) + (if f.trade == trade then [f] else [])
  {
    assert (fills + [f])[..|fills|] == fills;
  }

  lemma {:induction false} FillsOfUnused(fills: seq<Fill>, trade: nat)
    requires forall f | f in fills :: f.trade != trade
    ensures FillsOf(fills, trade) == []
  {
    if fills != [] {
      assert fills[|fills| - 1] in fills;
      FillsOfUnused(fills[..|fills| - 1], trade);
    }
  }

  /** One record settled against the position held; a flat account settles nothing. */
  function SettledOne(b: Book, r: FundingRecord): (t: Book)
    requires b.leverage > 0.0
    ensures t.leverage == b.leverage && t.size == b.size && t.fills == b.fills
  {
    if b.size == 0.0 then b else Apply(b, Funded(FundingAmount(b.size, r)))
  }

  /** The books once each record has been settled against the position they hold. */
  function Settled(b: Book, records: seq<FundingRecord>): (t: Book)
    requires b.leverage > 0.0
    ensures t.leverage == b.leverage && t.size == b.size && t.fills == b.fills
  {
    if records == [] then b else SettledOne(Settled(b, records[..|records| - 1]), records[|records| - 1])
  }

  /** From `first`, the records up to `next` are due by `timestamp`, and the one after them is not. */
  predicate DueUpTo(records: seq<FundingRecord>, first: nat, next: nat, timestamp: int) {
    && first <= next <= |records|
    && (forall i | first <= i < next :: records[i].timestamp <= timestamp)
    && (next < |records| ==> records[next].timestamp > timestamp)
  }

  predicate Chronological(records: seq<FundingRecord>) {
    forall i, j | 0 <= i < j < |records| :: records[i].timestamp <= records[j].timestamp
  }

  /** Where the cursor stood before each bar of a run and after the last one. */
  predicate Consumes(records: seq<FundingRecord>, cursors: seq<nat>, times: seq<int>) {
    && |cursors| == |times| + 1
    && forall i | 0 <= i < |times| :: DueUpTo(records, cursors[i], cursors[i + 1], times[i])
  }

  /**
   Over a run of bars every record the cursor passed was settled on exactly one
   bar, the first whose time had reached it.
   */
  lemma {:induction false} EachRecordOnce(
    records: seq<FundingRecord>, cursors: seq<nat>, times: seq<int>, k: nat) returns (bar: nat)
    requires Chronological(records) && Consumes(records, cursors, times) && cursors[0] <= k < cursors[|times|] <= |records|
    ensures bar < |times| && cursors[bar] <= k < cursors[bar + 1]
    ensures records[k].timestamp <= times[bar] && forall j | 0 <= j < bar :: times[j] < records[k].timestamp
    ensures forall j | 0 <= j < |times| && cursors[j] <= k < cursors[j + 1] :: j == bar
    decreases |times|
  {
    var n := |times| - 1;
    assert DueUpTo(records, cursors[n], cursors[n + 1], times[n]);
    if cursors[n] <= k {
      bar := n;
      forall j | 0 <= j < n ensures times[j] < records[k].timestamp && cursors[j + 1] <= k {
        assert DueUpTo(records, cursors[j], cursors[j + 1], times[j]);
        CursorAdvances(records, cursors, times, j + 1, n);
      }
    } else {
      bar := EachRecordOnce(records, cursors[..n + 1], times[..n], k);
    }
  }

  lemma {:induction false} CursorAdvances(records: seq<FundingRecord>, cursors: seq<nat>, times: seq<int>, i: nat, j: nat)
    requires Consumes(records, cursors, times) && i <= j < |cursors|
    ensures cursors[i] <= cursors[j]
    decreases j
  {
    if i < j {
      CursorAdvances(records, cursors, times, i, j - 1);
      assert DueUpTo(records, cursors[j - 1], cursors[j], times[j - 1]);
    }
  }

  lemma SettledNext(b: Book, records: seq<FundingRecord>, first: nat, n: nat)
    requires b.leverage > 0.0 && first <= n < |records|
    ensures Settled(b, records[first..n + 1]) == SettledOne(Settled(b, records[first..n]), records[n])
  {
    var more := records[first..n + 1];
    assert more[..|more| - 1] == records[first..n] && more[|more| - 1] == records[n];
  }

  /** Summing the fills kept under a trade is summing that trade over all fills. */
  lemma {:induction false} TotalOfTrade(fills: seq<Fill>, column: TradeBook.Column, trade: nat)
    requires trade > 0
    ensures Total(FillsOf(fills, trade), column, 0) == Total(fills, column, trade)
  {
    if fills != [] {
      var rest, last := fills[..|fills| - 1], fills[|fills| - 1];
      TotalOfTrade(rest, column, trade);
      if last.trade == trade {
        TotalAppend(FillsOf(rest, trade), last, column, 0);
      } else {
        assert FillsOf(rest, trade) + [] == FillsOf(rest, trade);
      }
    }
  }

  /** Funding moves money, never the position or its trade. */
  lemma {:induction false} SettledSound(b: Book, records: seq<FundingRecord>)
    requires Sound(b)
    ensures var t := Settled(b, records);
            Sound(t) && t.size == b.size && t.price == b.price && t.trade == b.trade && t.fills == b.fills
  {
    if records != [] {
      var s := Settled(b, records[..|records| - 1]);
      SettledSound(b, records[..|records| - 1]);
      if s.size != 0.0 {
        ApplySound(s, Funded(FundingAmount(s.size, records[|records| - 1])));
      }
    }
  }

  /** What one unit held over all the settlements is charged: marks times rates. */
  function ChargePerUnit(records: seq<FundingRecord>): real {
    if records == [] then 0.0
    else ChargePerUnit(records[..|records| - 1]) + records[|records| - 1].mark * records[|records| - 1].rate
  }

  lemma ChargeAdds(size: real, before: real, charge: real, t: Book, r: FundingRecord)
    requires t.leverage > 0.0 && t.size == size && charge == r.mark * r.rate
    ensures var s := SettledOne(t, r);
            && s.cash == t.cash - size * charge && s.balance == t.balance - size * charge
            && s.funding == t.funding - size * charge
            && size * (before + charge) == size * before + size * charge
  {
  }

  /** Cash, ledger balance and funding total have all fallen by what the position was charged. */
  predicate Charged(before: Book, after: Book, records: seq<FundingRecord>) {
    var charge := before.size * ChargePerUnit(records);
    && after.cash == before.cash - charge
    && after.balance == before.balance - charge
    && after.funding == before.funding - charge
  }

  /**
   Over every batch, cash, ledger balance and the funding total fall by the
   size held times the marks times the rates: a long pays what a short receives.
   */
  lemma {:induction false} FundingCharged(b: Book, records: seq<FundingRecord>)
    requires b.leverage > 0.0
    ensures Charged(b, Settled(b, records), records)
  {
    if records != [] {
      var rest, last := records[..|records| - 1], records[|records| - 1];
      FundingCharged(b, rest);
      ChargeAdds(b.size, ChargePerUnit(rest), last.mark * last.rate, Settled(b, rest), last);
    }
  }

  lemma {:induction false} ChargeIsPositive(records: seq<FundingRecord>)
    requires records != [] && forall r | r in records :: r.rate > 0.0 && r.mark > 0.0
    ensures ChargePerUnit(records) > 0.0
  {
    var rest, last := records[..|records| - 1], records[|records| - 1];
    assert last.mark * last.rate > 0.0;
    if rest != [] {
      ChargeIsPositive(rest);
    }
  }

  /** Positive rates cost a long and pay a short. */
  lemma PositiveRatesCostLongs(b: Book, records: seq<FundingRecord>)
    requires b.leverage > 0.0 && b.size != 0.0
    requires records != [] && forall r | r in records :: r.rate > 0.0 && r.mark > 0.0
    ensures if b.size > 0.0 then Settled(b, records).cash < b.cash else Settled(b, records).cash > b.cash
  {
    FundingCharged(b, records);
    ChargeIsPositive(records);
    var unit := ChargePerUnit(records);
    assert b.size > 0.0 ==> b.size * unit > 0.0;
    assert b.size < 0.0 ==> (-b.size) * unit > 0.0;
  }

  class ExecutionCostBroker {
    const leverage: real
    const ledger: IncrementalAccountLedger
    var cash: real
    var size: real
    var price: real
    var executionFills: seq<Fill>
    var tradeFills: map<nat, seq<Fill>>
    var executionTradeId: nat
    var tradePnl: real
    var closedResults: seq<real>

    /** The books this broker keeps. */
    ghost function Contents(): Book
      reads this, ledger
    {
      Book(ledger.startingBalance, leverage, cash, size, price, ledger.Balance(), executionFills, executionTradeId,
           tradePnl, closedResults, ledger.fundingTotal)
    }

    /** The account ledger is consistent and every fill is kept under its trade. */
    ghost predicate Kept()
      reads this, ledger
    {
      && leverage > 0.0 && executionTradeId >= 1
      && ledger.Valid()
      && (forall k: nat :: k in tradeFills.Keys ==> tradeFills[k] == FillsOf(executionFills, k))
      && (forall k: nat :: k !in tradeFills.Keys ==> forall f | f in executionFills :: f.trade != k)
    }

    ghost predicate Valid()
      reads this, ledger
    {
      Kept() && Sound(Contents())
    }

    constructor (capital: real, leverage: real)
      requires leverage > 0.0
      ensures Valid() && fresh(ledger) && Contents() == Opened(capital, leverage)
    {
      this.leverage := leverage;
      ledger := new IncrementalAccountLedger(capital);
      cash, size, price := capital, 0.0, 0.0;
      executionFills, tradeFills, executionTradeId := [], map[], 1;
      tradePnl, closedResults := 0.0, [];
      new;
      OpenedSound(capital, leverage);
    }

    /** Book the realised result of a fill: gross profit, commission, liquidation fee. */
    method RecordLedger(f: Fill, pnl: real, timestamp: int)
      requires ledger.Valid() && (f.entry ==> f.liquidationFee == 0.0)
      modifies ledger
      ensures ledger.Valid()
      ensures ledger.Balance() == old(ledger.Balance()) + (if f.entry then 0.0 else pnl) - f.commission - f.liquidationFee
      ensures ledger.fundingTotal == old(ledger.fundingTotal)
      ensures old(ledger.entries) <= ledger.entries
    {
      if !f.entry {
        ledger.Record(timestamp, TradePnl, pnl);
      }
      ledger.Record(timestamp, CommissionPaid, -f.commission);
      if f.liquidationFee != 0.0 {
        ledger.Record(timestamp, LiquidationPaid, -f.liquidationFee);
      }
    }

    /** Keep the fill under its trade. */
    method KeepFill(f: Fill)
      requires forall k: nat :: k in tradeFills.Keys ==> tradeFills[k] == FillsOf(executionFills, k)
      requires forall k: nat :: k !in tradeFills.Keys ==> forall g | g in executionFills :: g.trade != k
      modifies this`executionFills, this`tradeFills
      ensures executionFills == old(executionFills) + [f]
      ensures forall k: nat :: k in tradeFills.Keys ==> tradeFills[k] == FillsOf(executionFills, k)
      ensures forall k: nat :: k !in tradeFills.Keys ==> forall g | g in executionFills :: g.trade != k
    {
      if f.trade !in tradeFills {
        FillsOfUnused(executionFills, f.trade);
      }
      ghost var before := executionFills;
      var kept := if f.trade in tradeFills then tradeFills[f.trade] else [];
      tradeFills := tradeFills[f.trade := kept + [f]];
      executionFills := executionFills + [f];
      forall k: nat ensures FillsOf(executionFills, k) == FillsOf(before, k) + (if f.trade == k then [f] else []) {
        FillsOfAppend(before, f, k);
      }
    }

    /**
     One actual fill: Backtrader's cash and position step, then the fill and
     account ledgers. Nothing is checked here; that every fill the broker makes
     is admissible, and the books therefore stay sound, is proved of the broker.
     */
    method RecordFill(f: Fill, timestamp: int)
      requires Kept() && (f.entry ==> f.liquidationFee == 0.0 && size + Signed(f) != 0.0)
      modifies this, ledger
      ensures Kept() && Contents() == Recorded(old(Contents()), f)
      ensures Sound(old(Contents())) && Admissible(old(Contents()), f) ==> Valid()
    {
      ghost var before := Contents();
      if f.entry {
        Enter(f, timestamp);
      } else {
        Leave(f, timestamp);
      }
      if Sound(before) && Admissible(before, f) {
        ApplySound(before, Filled(f));
      }
    }

    /** An entry adds to the position at the weighted average price. */
    method Enter(f: Fill, timestamp: int)
      requires Kept() && f.entry && f.liquidationFee == 0.0 && size + Signed(f) != 0.0
      modifies this, ledger
      ensures Kept() && Contents() == BookEntry(old(Contents()), f)
    {
      price := AveragePrice(size, price, Signed(f), f.price);
      size := size + Signed(f);
      cash := cash - Collateral(Signed(f), f.price, leverage) - f.commission;
      KeepFill(f);
      RecordLedger(f, 0.0, timestamp);
    }

    /** An exit reduces the position at an unchanged average; a flat position ends the trade. */
    method Leave(f: Fill, timestamp: int)
      requires Kept() && !f.entry
      modifies this, ledger
      ensures Kept() && Contents() == BookExit(old(Contents()), f)
    {
      Reduce(f, timestamp);
      if size == 0.0 {
        EndTrade();
      }
    }

    method Reduce(f: Fill, timestamp: int)
      requires Kept() && !f.entry
      modifies this, ledger
      ensures Kept() && Contents() == Reduced(old(Contents()), f)
    {
      var pnl := Value(-Signed(f), f.price - price);
      size := size + Signed(f);
      cash := cash + Collateral(-Signed(f), price, leverage) + pnl - f.commission - f.liquidationFee;
      tradePnl := tradePnl + pnl;
      KeepFill(f);
      RecordLedger(f, pnl, timestamp);
    }

    /** The realised result of a flat trade is closed under the next trade's number. */
    method EndTrade()
      requires Kept()
      modifies this
      ensures Kept() && Contents() == Ended(old(Contents()))
    {
      closedResults := closedResults + [tradePnl - Total(executionFills, Commission, executionTradeId)
                                        - Total(executionFills, LiquidationFee, executionTradeId)];
      price, tradePnl := 0.0, 0.0;
      executionTradeId := executionTradeId + 1;
    }

    /** One settlement against the position held; a flat account settles nothing. */
    method SettleOne(record: FundingRecord)
      requires Kept()
      modifies this`cash, ledger
      ensures Kept() && Contents() == SettledOne(old(Contents()), record)
    {
      if size == 0.0 {
        return;
      }
      var amount := FundingAmount(size, record);
      ledger.Record(record.timestamp, FundingSettled, amount);
      cash := cash + amount;
    }
  }

  /** Archived funding, and how far a run has consumed it. */
  class EvidenceExecution {
    const records: seq<FundingRecord>
    var fundingCursor: nat

    ghost predicate Valid()
      reads this
    {
      fundingCursor <= |records|
    }

    constructor (records: seq<FundingRecord>)
      ensures Valid() && this.records == records && fundingCursor == 0
    {
      this.records, fundingCursor := records, 0;
    }

    /**
     Settle every record up to `timestamp` against the position held before
     the bar's orders. The cursor never goes back, so a record is consumed at
     most once.
     */
    method SettleFunding(broker: ExecutionCostBroker, timestamp: int)
      requires Valid() && broker.Kept()
      modifies this, broker`cash, broker.ledger
      ensures Valid() && broker.Kept()
      ensures DueUpTo(records, old(fundingCursor), fundingCursor, timestamp)
      ensures broker.Contents() == Settled(old(broker.Contents()), records[old(fundingCursor)..fundingCursor])
      ensures Charged(old(broker.Contents()), broker.Contents(), records[old(fundingCursor)..fundingCursor])
      ensures old(broker.Valid()) ==> broker.Valid()
    {
      ghost var before, first := broker.Contents(), fundingCursor;
      while fundingCursor < |records| && records[fundingCursor].timestamp <= timestamp
        invariant Valid() && broker.Kept() && first <= fundingCursor
        invariant forall i | first <= i < fundingCursor :: records[i].timestamp <= timestamp
        invariant broker.Contents() == Settled(before, records[first..fundingCursor])
        decreases |records| - fundingCursor
      {
        var record := records[fundingCursor];
        SettledNext(before, records, first, fundingCursor);
        fundingCursor := fundingCursor + 1;
        broker.SettleOne(record);
      }
      FundingCharged(before, records[first..fundingCursor]);
      if Sound(before) {
        SettledSound(before, records[first..fundingCursor]);
      }
    }
  }
}
