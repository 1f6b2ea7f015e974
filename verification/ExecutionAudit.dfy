/**
 The end-of-run audit as it runs: column sums over the fill ledger, the two
 expected values, and the refusal when either disagrees with the broker.
 */
module ExecutionAudit {
  import opened Wrappers
  import opened Rounding
  import opened TradeBook
  import opened ExecutionBroker

  /** What the audit reports when it does not raise. */
  datatype Costs = Costs(
    adjustment: real,
    commission: real,
    referencePnl: real,
    closedNet: real,
    openRealized: real,
    openCommission: real,
    error: real)

  method SumColumn(fills: seq<Fill>, column: TradeBook.Column) returns (sum: real)
    ensures sum == Total(fills, column, 0)
  {
    sum := 0.0;
    for i := 0 to |fills|
      invariant sum == Total(fills[..i], column, 0)
    {
      assert fills[..i + 1] == fills[..i] + [fills[i]];
      TotalAppend(fills[..i], fills[i], column, 0);
      sum := sum + Weight(fills[i], column);
    }
    assert fills[..|fills|] == fills;
  }

  method SumClosed(closed: seq<real>) returns (sum: real)
    ensures sum == SumOf(closed)
  {
    sum := 0.0;
    for i := 0 to |closed|
      invariant sum == SumOf(closed[..i])
    {
      assert closed[..i + 1][..i] == closed[..i];
      sum := sum + closed[i];
    }
    assert closed[..|closed|] == closed;
  }

  /** Exits of the trade still open, each against the one average price it has. */
  method SumOpenRealized(fills: seq<Fill>, closed: nat, price: real) returns (sum: real)
    ensures sum == OpenRealized(fills, closed, price)
  {
    sum := 0.0;
    for i := 0 to |fills|
      invariant sum == OpenRealized(fills[..i], closed, price)
    {
      assert fills[..i + 1][..i] == fills[..i];
      var f := fills[i];
      if f.trade > closed && !f.entry {
        sum := sum + Value(-Signed(f), f.price - price);
      }
    }
    assert fills[..|fills|] == fills;
  }

  method SumOpenCommission(fills: seq<Fill>, closed: nat) returns (sum: real)
    ensures sum == OpenCommission(fills, closed)
  {
    sum := 0.0;
    for i := 0 to |fills|
      invariant sum == OpenCommission(fills[..i], closed)
    {
      assert fills[..i + 1][..i] == fills[..i];
      if fills[i].trade > closed {
        sum := sum + fills[i].commission;
      }
    }
    assert fills[..|fills|] == fills;
  }

  method FromCosts(b: Book, close: real) returns (expected: real, adjustment: real, commission: real, reference: real)
    ensures expected == ExpectedFromCosts(b, close)
    ensures adjustment == Total(b.fills, Cost, 0) && commission == Total(b.fills, Commission, 0)
    ensures reference == Total(b.fills, ReferenceCashflow, 0) + Value(b.size, close)
  {
    adjustment := SumColumn(b.fills, Cost);
    commission := SumColumn(b.fills, Commission);
    var liquidation := SumColumn(b.fills, LiquidationFee);
    var cashflow := SumColumn(b.fills, ReferenceCashflow);
    reference := cashflow + Value(b.size, close);
    expected := b.initial + reference - adjustment - commission + b.funding - liquidation;
  }

  method FromTrades(b: Book, close: real) returns (expected: real, closedNet: real, realized: real, openCommission: real)
    ensures expected == ExpectedFromTrades(b, close)
    ensures closedNet == SumOf(b.closed) && openCommission == OpenCommission(b.fills, |b.closed|)
    ensures realized == if b.size != 0.0 then OpenRealized(b.fills, |b.closed|, b.price) else 0.0
  {
    closedNet := SumClosed(b.closed);
    openCommission := SumOpenCommission(b.fills, |b.closed|);
    realized := 0.0;
    var open := 0.0;
    if b.size != 0.0 {
      realized := SumOpenRealized(b.fills, |b.closed|, b.price);
      open := Value(b.size, close - b.price);
    }
    expected := b.initial + closedNet + realized + open - openCommission + b.funding;
  }

  /**
   The audit of a run's books. It refuses exactly when one of its two expected
   values is not the broker's, so for sound books it never refuses, and the
   reconciliation error it reports is zero.
   */
  method BuildExecutionAudit(b: Book, close: real) returns (audit: Option<Costs>)
    requires b.leverage > 0.0
    ensures audit == None <==> AuditRaises(b, close)
    ensures audit.Some? ==> audit.value.error == 0.0
    ensures Sound(b) ==> audit.Some?
  {
    var final := Equity(b, close);
    var expected, adjustment, commission, reference := FromCosts(b, close);
    var traded, closedNet, realized, openCommission := FromTrades(b, close);
    if Sound(b) {
      CostIdentity(b, close);
      TradeIdentity(b, close);
    }
    if final != expected || final != traded {
      return None;
    }
    audit := Some(Costs(adjustment, commission, reference, closedNet, realized, openCommission, final - expected));
  }

  // ------------------------------------------------------- closed trades

  /** The price fields of a closed trade's record. */
  datatype TradeRecord = TradeRecord(quantity: real, entryPrice: real, exitPrice: real, gross: real, commission: real)

  /** Record a closed trade from its own fills: weighted prices over the entry quantity. */
  method EnrichClosedTrade(fills: seq<Fill>, long: bool) returns (record: TradeRecord)
    requires Total(fills, EntryQuantity, 0) != 0.0
    ensures record.quantity == Total(fills, EntryQuantity, 0)
    ensures record.entryPrice == Total(fills, EntryNotional, 0) / record.quantity
    ensures record.exitPrice == Total(fills, ExitNotional, 0) / record.quantity
    ensures record.gross == Value(if long then record.quantity else -record.quantity, record.exitPrice - record.entryPrice)
    ensures record.commission == Total(fills, Commission, 0)
  {
    var quantity := SumColumn(fills, EntryQuantity);
    var bought := SumColumn(fills, EntryNotional);
    var sold := SumColumn(fills, ExitNotional);
    var commission := SumColumn(fills, Commission);
    var entryPrice, exitPrice := bought / quantity, sold / quantity;
    var gross := Value(if long then quantity else -quantity, exitPrice - entryPrice);
    record := TradeRecord(quantity, entryPrice, exitPrice, gross, commission);
  }

  /**
   For a trade of sound books the record is exact: its fills sold what they
   bought, and gross profit less commissions and liquidation fees is the
   result the broker realised.
   */
  lemma RecordIsExact(b: Book, k: nat, f: Fill)
    requires Sound(b) && 1 <= k <= |b.closed| && f in b.fills && f.trade == k
    ensures var own := FillsOf(b.fills, k);
            && Total(own, EntryQuantity, 0) == Total(own, ExitQuantity, 0) > 0.0
            && b.closed[k - 1] == RecordedGross(own, 0, Long(f)) - Total(own, Commission, 0) - Total(own, LiquidationFee, 0)
  {
    ClosedTradeIsExact(b, k, f);
    TotalOfTrade(b.fills, EntryQuantity, k);
    TotalOfTrade(b.fills, ExitQuantity, k);
    TotalOfTrade(b.fills, EntryNotional, k);
    TotalOfTrade(b.fills, ExitNotional, k);
    TotalOfTrade(b.fills, Commission, k);
    TotalOfTrade(b.fills, LiquidationFee, k);
  }
}
