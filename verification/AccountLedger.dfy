/** The append-only account ledger with its cached totals. */
module Ledger {
  datatype EntryKind = TradePnl | CommissionPaid | FundingSettled | LiquidationPaid

  datatype Entry = Entry(sequence: nat, timestamp: int, kind: EntryKind, amount: real)

  datatype Column = Cash | Fees | Funding | Trades

  predicate Counts(kind: EntryKind, column: Column) {
    match column
    case Cash => true
    case Fees => kind == CommissionPaid || kind == LiquidationPaid
    case Funding => kind == FundingSettled
    case Trades => kind == TradePnl
  }

  function AmountOf(entries: seq<Entry>, column: Column): real {
    if entries == [] then 0.0
    else
      var last := entries[|entries| - 1];
      AmountOf(entries[..|entries| - 1], column) + Part(last.kind, last.amount, column)
  }

  /** What an amount of one kind adds to a column. */
  function Part(kind: EntryKind, amount: real, column: Column): real {
    if Counts(kind, column) then amount else 0.0
  }

  lemma AmountAppend(entries: seq<Entry>, e: Entry, column: Column)
    ensures AmountOf(entries + [e], column)
         == AmountOf(entries, column) + Part(e.kind, e.amount, column)
  {
    assert (entries + [e])[..|entries|] == entries;
  }

  /** Totals are cached so that a bar does not cost the whole history. */
  class IncrementalAccountLedger {
    const startingBalance: real
    var entries: seq<Entry>
    var cashTotal: real
    var feeTotal: real
    var fundingTotal: real
    var tradeTotal: real

    /** Every cached total is the fold over the entries it stands for. */
    ghost predicate Valid()
      reads this
    {
      && cashTotal == AmountOf(entries, Cash)
      && feeTotal == -AmountOf(entries, Fees)
      && fundingTotal == AmountOf(entries, Funding)
      && tradeTotal == AmountOf(entries, Trades)
      && (forall i | 0 <= i < |entries| :: entries[i].sequence == i + 1)
    }

    constructor (startingBalance: real)
      ensures Valid() && entries == [] && this.startingBalance == startingBalance
    {
      this.startingBalance := startingBalance;
      entries := [];
      cashTotal, feeTotal, fundingTotal, tradeTotal := 0.0, 0.0, 0.0, 0.0;
    }

    function Balance(): real
      reads this
    {
      startingBalance + cashTotal
    }

    /** Each total moves by what the amount is part of. */
    method Count(kind: EntryKind, amount: real)
      modifies this`cashTotal, this`feeTotal, this`fundingTotal, this`tradeTotal
      ensures cashTotal == old(cashTotal) + Part(kind, amount, Cash)
      ensures feeTotal == old(feeTotal) - Part(kind, amount, Fees)
      ensures fundingTotal == old(fundingTotal) + Part(kind, amount, Funding)
      ensures tradeTotal == old(tradeTotal) + Part(kind, amount, Trades)
    {
      cashTotal := cashTotal + amount;
      if kind == CommissionPaid || kind == LiquidationPaid {
        feeTotal := feeTotal - amount;
      } else if kind == FundingSettled {
        fundingTotal := fundingTotal + amount;
      } else if kind == TradePnl {
        tradeTotal := tradeTotal + amount;
      }
    }

    method Record(timestamp: int, kind: EntryKind, amount: real)
      requires Valid()
      modifies this
      ensures Valid()
      ensures entries == old(entries) + [Entry(|old(entries)| + 1, timestamp, kind, amount)]
      ensures Balance() == old(Balance()) + amount
      ensures fundingTotal == old(fundingTotal) + Part(kind, amount, Funding)
    {
      var entry := Entry(|entries| + 1, timestamp, kind, amount);
      AmountAppend(entries, entry, Cash);
      AmountAppend(entries, entry, Fees);
      AmountAppend(entries, entry, Funding);
      AmountAppend(entries, entry, Trades);
      entries := entries + [entry];
      Count(kind, amount);
    }
  }
}
