/**
 The money of one run: every fill and every funding settlement, what they do
 to cash, position and ledger, and the two identities the execution audit
 checks at the end of a run.
 */
module TradeBook {
  import opened Wrappers
  import opened Rounding

  /** One executed fill, as the fill ledger records it. */
  datatype Fill = Fill(
    trade: nat,
    entry: bool,
    buy: bool,
    size: real,
    reference: real,
    price: real,
    cost: real,
    commission: real,
    liquidationFee: real)

  function Signed(f: Fill): real {
    if f.buy then f.size else -f.size
  }

  /** The fill belongs to a long trade: it buys in or sells out. */
  predicate Long(f: Fill) {
    f.buy == f.entry
  }

  /** What the ledger can sum over fills. */
  datatype Column =
    | EntryQuantity | ExitQuantity | EntryNotional | ExitNotional
    | Cashflow | ReferenceCashflow | Cost | Commission | EntryCommission | LiquidationFee | SignedQuantity

  function Weight(f: Fill, column: Column): real {
    match column
    case EntryQuantity => if f.entry then f.size else 0.0
    case ExitQuantity => if f.entry then 0.0 else f.size
    case EntryNotional => if f.entry then Value(f.size, f.price) else 0.0
    case ExitNotional => if f.entry then 0.0 else Value(f.size, f.price)
    case Cashflow => Value(-Signed(f), f.price)
    case ReferenceCashflow => Value(-Signed(f), f.reference)
    case Cost => f.cost
    case Commission => f.commission
    case EntryCommission => if f.entry then f.commission else 0.0
    case LiquidationFee => f.liquidationFee
    case SignedQuantity => Signed(f)
  }

  /** Sum of a column over the fills of trade `trade`, or over all fills when it is 0. */
  function Total(fills: seq<Fill>, column: Column, trade: nat): real {
    if fills == [] then 0.0
    else
      var last := fills[|fills| - 1];
      Total(fills[..|fills| - 1], column, trade)
      + (if trade == 0 || last.trade == trade then Weight(last, column) else 0.0)
  }

  lemma TotalAppend(fills: seq<Fill>, f: Fill, column: Column, trade: nat)
    ensures Total(fills + [f], column, trade)
         == Total(fills, column, trade) + (if trade == 0 || f.trade == trade then Weight(f, column) else 0.0)
  {
    assert (fills + [f])[..|fills|] == fills;
  }

  lemma {:induction false} TotalOfNone(fills: seq<Fill>, column: Column, trade: nat)
    requires trade > 0 && forall f | f in fills :: f.trade != trade
    ensures Total(fills, column, trade) == 0.0
  {
    if fills != [] {
      assert fills[|fills| - 1] in fills;
      TotalOfNone(fills[..|fills| - 1], column, trade);
    }
  }

  /** The broker's books. `closed` holds the realised result of every closed trade. */
  datatype Book = Book(
    initial: real,
    leverage: real,
    cash: real,
    size: real,
    price: real,
    balance: real,
    fills: seq<Fill>,
    trade: nat,
    tradePnl: real,
    closed: seq<real>,
    funding: real)

  datatype Movement = Filled(fill: Fill) | Funded(amount: real)

  function Opened(initial: real, leverage: real): Book {
    Book(initial, leverage, initial, 0.0, 0.0, initial, [], 1, 0.0, [], 0.0)
  }

  function Value(size: real, price: real): real {
    size * price
  }

  /** Cash tied up by `size` at `price`: a long posts its margin, a short is credited in full. */
  function Collateral(size: real, price: real, leverage: real): real
    requires leverage > 0.0
  {
    if size > 0.0 then Value(size, price) / leverage else Value(size, price)
  }

  /** Cash plus collateral plus open profit at `mark`. */
  function Equity(b: Book, mark: real): real
    requires b.leverage > 0.0
  {
    b.cash + Collateral(b.size, b.price, b.leverage) + Value(b.size, mark - b.price)
  }

  function AveragePrice(size: real, price: real, added: real, at: real): real
    requires size + added != 0.0
  {
    (Value(size, price) + Value(added, at)) / (size + added)
  }

  /** Profit of closing `f` against the average price. */
  function ClosingPnl(b: Book, f: Fill): real {
    Value(-Signed(f), f.price - b.price)
  }

  function BookEntry(b: Book, f: Fill): Book
    requires b.leverage > 0.0 && b.size + Signed(f) != 0.0
  {
    b.(size := b.size + Signed(f),
       price := AveragePrice(b.size, b.price, Signed(f), f.price),
       cash := b.cash - Collateral(Signed(f), f.price, b.leverage) - f.commission,
       balance := b.balance - f.commission,
       fills := b.fills + [f])
  }

  /** The books after the position part of an exit, before a flat trade is ended. */
  function Reduced(b: Book, f: Fill): Book
    requires b.leverage > 0.0
  {
    var pnl := ClosingPnl(b, f);
    b.(size := b.size + Signed(f),
       cash := b.cash + Collateral(-Signed(f), b.price, b.leverage) + pnl - f.commission - f.liquidationFee,
       balance := b.balance + pnl - f.commission - f.liquidationFee,
       fills := b.fills + [f],
       tradePnl := b.tradePnl + pnl)
  }

  function Ended(b: Book): Book {
    b.(price := 0.0, trade := b.trade + 1, tradePnl := 0.0,
       closed := b.closed + [b.tradePnl - Total(b.fills, Commission, b.trade) - Total(b.fills, LiquidationFee, b.trade)])
  }

  /** An exit reduces the position; the one that leaves it flat ends the trade. */
  function BookExit(b: Book, f: Fill): Book
    requires b.leverage > 0.0
  {
    var reduced := Reduced(b, f);
    if reduced.size != 0.0 then reduced else Ended(reduced)
  }

  /** What a fill does to the books, admissible or not. */
  function Recorded(b: Book, f: Fill): Book
    requires b.leverage > 0.0
  {
    if !f.entry then BookExit(b, f)
    else if b.size + Signed(f) != 0.0 then BookEntry(b, f)
    else b
  }

  predicate HasExit(fills: seq<Fill>, trade: nat) {
    exists f | f in fills :: f.trade == trade && !f.entry
  }

  /**
   What the broker owes the books: an entry adds to a position no exit has
   touched, an exit reduces the position by no more than it holds, and a
   liquidation closes it.
   */
  predicate Admissible(b: Book, f: Fill) {
    && f.trade == b.trade
    && f.size > 0.0
    && f.cost == Value(Signed(f), f.price - f.reference)
    && (if f.entry then
          && (b.size == 0.0 || (b.size > 0.0 <==> f.buy))
          && !HasExit(b.fills, b.trade)
          && f.liquidationFee == 0.0
        else
          && b.size != 0.0
          && (b.size > 0.0 <==> !f.buy)
          && f.size <= Abs(b.size)
          && (f.liquidationFee != 0.0 ==> f.size == Abs(b.size)))
  }

  predicate Allowed(b: Book, m: Movement) {
    m.Filled? ==> Admissible(b, m.fill)
  }

  function Apply(b: Book, m: Movement): (t: Book)
    requires b.leverage > 0.0 && Allowed(b, m)
    ensures t.leverage == b.leverage && t.initial == b.initial
  {
    match m
    case Funded(amount) => b.(cash := b.cash + amount, balance := b.balance + amount, funding := b.funding + amount)
    case Filled(f) => if f.entry then BookEntry(b, f) else BookExit(b, f)
  }

  // ------------------------------------------------------------ soundness

  /** The cash book agrees with the realised-profit ledger. */
  predicate CashAgrees(b: Book) {
    && b.leverage > 0.0
    && b.cash + Collateral(b.size, b.price, b.leverage) == b.balance
  }

  /** Every unit of quote that ever moved is in the ledger or in the cost of the position. */
  predicate QuoteConserved(b: Book) {
    && b.size == Total(b.fills, SignedQuantity, 0)
    && b.balance == b.initial + Total(b.fills, Cashflow, 0) + Value(b.size, b.price)
                    - Total(b.fills, Commission, 0) - Total(b.fills, LiquidationFee, 0) + b.funding
  }

  /** The trade still open: its entries at the average price, its exits against that average. */
  predicate OpenTrade(b: Book) {
    && Total(b.fills, EntryQuantity, b.trade) - Total(b.fills, ExitQuantity, b.trade) == Abs(b.size)
    && Total(b.fills, ExitQuantity, b.trade) >= 0.0
    && (b.size == 0.0 ==> b.tradePnl == 0.0 && b.price == 0.0 && forall f | f in b.fills :: f.trade < b.trade)
    && Total(b.fills, LiquidationFee, b.trade) == 0.0
    && Total(b.fills, SignedQuantity, b.trade) == b.size
    && Total(b.fills, Cashflow, b.trade) == b.tradePnl - Value(b.size, b.price)
    && (forall f | f in b.fills && f.trade == b.trade :: Long(f) <==> b.size > 0.0)
    && (!HasExit(b.fills, b.trade) ==> b.tradePnl == 0.0)
  }

  /** Trade `k` is closed: it sold what it bought and its result is what its fills paid. */
  predicate ClosedTrade(b: Book, k: nat)
    requires 1 <= k <= |b.closed|
  {
    && Total(b.fills, EntryQuantity, k) == Total(b.fills, ExitQuantity, k) > 0.0
    && Total(b.fills, SignedQuantity, k) == 0.0
    && b.closed[k - 1] == Total(b.fills, Cashflow, k) - Total(b.fills, Commission, k) - Total(b.fills, LiquidationFee, k)
  }

  predicate TradesPartition(b: Book) {
    && b.trade == |b.closed| + 1
    && (forall f | f in b.fills :: 1 <= f.trade <= b.trade)
    && (forall k: nat | 1 <= k <= |b.closed| :: ClosedTrade(b, k))
    && (forall f, g | f in b.fills && g in b.fills && f.trade == g.trade :: Long(f) == Long(g))
  }

  predicate CostsSigned(fills: seq<Fill>) {
    forall f | f in fills :: f.cost == Value(Signed(f), f.price - f.reference)
  }

  /** Within one trade every entry fill precedes every exit fill. */
  predicate EntriesFirst(fills: seq<Fill>) {
    forall i, j | 0 <= i < j < |fills| && fills[i].trade == fills[j].trade && !fills[i].entry :: !fills[j].entry
  }

  /** The ledger splits into the results of closed trades and what the open one realised so far. */
  predicate LedgerSplits(b: Book) {
    && b.balance == b.initial + SumOf(b.closed) + b.tradePnl - Total(b.fills, Commission, b.trade)
                    - Total(b.fills, LiquidationFee, b.trade) + b.funding
    && (b.size != 0.0 ==> OpenRealized(b.fills, |b.closed|, b.price) == b.tradePnl)
  }

  ghost predicate Sound(b: Book) {
    && CashAgrees(b) && QuoteConserved(b) && OpenTrade(b) && TradesPartition(b)
    && CostsSigned(b.fills) && EntriesFirst(b.fills) && LedgerSplits(b)
  }

  // ----------------------------------------------------------- arithmetic

  lemma ValueOfSum(a: real, b: real, price: real)
    ensures Value(a + b, price) == Value(a, price) + Value(b, price)
    ensures Value(a - b, price) == Value(a, price) - Value(b, price)
    ensures Value(-a, price) == -Value(a, price)
    ensures Value(a, price - b) == Value(a, price) - Value(a, b)
    ensures Value(0.0, price) == 0.0
  {
  }

  /** The weighted average carries the whole cost of both parts. */
  lemma AverageCarriesCost(size: real, price: real, added: real, at: real)
    requires size + added != 0.0
    ensures Value(size + added, AveragePrice(size, price, added, at)) == Value(size, price) + Value(added, at)
  {
    Quotient(Value(size, price) + Value(added, at), size + added);
  }

  lemma Quotient(a: real, b: real)
    requires b != 0.0
    ensures Value(b, a / b) == a
  {
  }

  lemma SplitQuotient(a: real, b: real, c: real)
    requires c != 0.0
    ensures (a + b) / c == a / c + b / c
    ensures (a - b) / c == a / c - b / c
    ensures 0.0 / c == 0.0
  {
  }

  lemma CollateralAdds(size: real, price: real, added: real, at: real, leverage: real)
    requires leverage > 0.0 && added != 0.0 && (size == 0.0 || (size > 0.0 <==> added > 0.0))
    ensures size + added != 0.0
    ensures Collateral(size + added, AveragePrice(size, price, added, at), leverage)
         == Collateral(size, price, leverage) + Collateral(added, at, leverage)
  {
    AverageCarriesCost(size, price, added, at);
    SplitQuotient(Value(size, price), Value(added, at), leverage);
    if size == 0.0 {
      ValueOfSum(size, 0.0, price);
    }
  }

  /** Closing part of a position releases its share of the collateral. */
  lemma CollateralShrinks(size: real, price: real, removed: real, leverage: real)
    requires leverage > 0.0 && size != 0.0
    requires if size > 0.0 then 0.0 < removed <= size else size <= removed < 0.0
    ensures Collateral(size - removed, price, leverage)
         == Collateral(size, price, leverage) - Collateral(removed, price, leverage)
  {
    ValueOfSum(size, removed, price);
    SplitQuotient(Value(size, price), Value(removed, price), leverage);
  }

  // --------------------------------------------------------- preservation

  lemma EntryKeepsCash(b: Book, f: Fill)
    requires CashAgrees(b) && Admissible(b, f) && f.entry
    ensures b.size + Signed(f) != 0.0 && CashAgrees(BookEntry(b, f))
  {
    CollateralAdds(b.size, b.price, Signed(f), f.price, b.leverage);
  }

  lemma ExitKeepsCash(b: Book, f: Fill)
    requires CashAgrees(b) && Admissible(b, f) && !f.entry
    ensures CashAgrees(BookExit(b, f))
  {
    CollateralShrinks(b.size, b.price, -Signed(f), b.leverage);
    ValueOfSum(0.0, 0.0, b.price);
  }

  lemma EntryConserves(b: Book, f: Fill)
    requires b.leverage > 0.0 && QuoteConserved(b) && f.entry
    requires b.size + Signed(f) != 0.0 && f.liquidationFee == 0.0
    ensures QuoteConserved(BookEntry(b, f))
  {
    TotalAppend(b.fills, f, SignedQuantity, 0);
    TotalAppend(b.fills, f, Cashflow, 0);
    TotalAppend(b.fills, f, Commission, 0);
    TotalAppend(b.fills, f, LiquidationFee, 0);
    AverageCarriesCost(b.size, b.price, Signed(f), f.price);
    ValueOfSum(Signed(f), 0.0, f.price);
  }

  /** The profit of an exit is its cash less the cost of what it closes. */
  lemma PnlSplits(b: Book, f: Fill)
    ensures ClosingPnl(b, f) == Weight(f, Cashflow) + Value(Signed(f), b.price)
    ensures Value(b.size + Signed(f), b.price) == Value(b.size, b.price) + Value(Signed(f), b.price)
  {
    var s := -Signed(f);
    ValueOfSum(s, b.price, f.price);
    ValueOfSum(s, 0.0, b.price);
    ValueOfSum(b.size, Signed(f), b.price);
  }

  lemma ExitConserves(b: Book, f: Fill)
    requires b.leverage > 0.0 && QuoteConserved(b) && !f.entry
    ensures QuoteConserved(BookExit(b, f))
  {
    TotalAppend(b.fills, f, SignedQuantity, 0);
    TotalAppend(b.fills, f, Cashflow, 0);
    TotalAppend(b.fills, f, Commission, 0);
    TotalAppend(b.fills, f, LiquidationFee, 0);
    PnlSplits(b, f);
    ValueOfSum(0.0, 0.0, b.price);
    ValueOfSum(0.0, 0.0, 0.0);
  }

  lemma TradeColumns(fills: seq<Fill>, f: Fill)
    ensures forall column: Column ::
              Total(fills + [f], column, f.trade) == Total(fills, column, f.trade) + Weight(f, column)
    ensures forall column: Column, k: nat | k > 0 && k != f.trade ::
              Total(fills + [f], column, k) == Total(fills, column, k)
  {
    forall column: Column, k: nat ensures Total(fills + [f], column, k)
      == Total(fills, column, k) + (if k == 0 || f.trade == k then Weight(f, column) else 0.0)
    {
      TotalAppend(fills, f, column, k);
    }
  }

  lemma EntryKeepsOpenTrade(b: Book, f: Fill)
    requires b.leverage > 0.0 && OpenTrade(b) && Admissible(b, f) && f.entry && b.size + Signed(f) != 0.0
    ensures OpenTrade(BookEntry(b, f))
  {
    var t := BookEntry(b, f);
    TradeColumns(b.fills, f);
    AverageCarriesCost(b.size, b.price, Signed(f), f.price);
    ValueOfSum(Signed(f), 0.0, f.price);
    forall g | g in t.fills && g.trade == t.trade ensures Long(g) <==> t.size > 0.0 {
      if g in b.fills {
        assert b.size != 0.0;
      }
    }
    assert forall g | g in t.fills && g.trade == t.trade :: g in b.fills || g.entry;
  }

  lemma ExitKeepsOpenTrade(b: Book, f: Fill)
    requires b.leverage > 0.0 && OpenTrade(b) && Admissible(b, f) && !f.entry
    requires b.size + Signed(f) != 0.0
    ensures OpenTrade(BookExit(b, f))
  {
    var t := BookExit(b, f);
    TradeColumns(b.fills, f);
    PnlSplits(b, f);
    assert f in t.fills && HasExit(t.fills, t.trade);
  }

  lemma FlatExitOpensNewTrade(b: Book, f: Fill)
    requires b.leverage > 0.0 && TradesPartition(b) && Admissible(b, f) && !f.entry
    requires b.size + Signed(f) == 0.0
    ensures OpenTrade(BookExit(b, f))
  {
    var t := BookExit(b, f);
    forall g | g in t.fills ensures g.trade < t.trade {
      assert g in b.fills || g == f;
    }
    TotalOfNone(t.fills, EntryQuantity, t.trade);
    TotalOfNone(t.fills, ExitQuantity, t.trade);
    TotalOfNone(t.fills, LiquidationFee, t.trade);
    TotalOfNone(t.fills, SignedQuantity, t.trade);
    TotalOfNone(t.fills, Cashflow, t.trade);
    ValueOfSum(0.0, 0.0, 0.0);
  }

  lemma ClosedTradesStay(b: Book, f: Fill, t: Book, k: nat)
    requires 1 <= k <= |b.closed| && ClosedTrade(b, k) && f.trade > |b.closed|
    requires t.fills == b.fills + [f] && b.closed <= t.closed
    ensures ClosedTrade(t, k)
  {
    TradeColumns(b.fills, f);
  }

  lemma SidesStay(b: Book, f: Fill)
    requires TradesPartition(b) && OpenTrade(b) && Admissible(b, f)
    ensures forall g, h | g in b.fills + [f] && h in b.fills + [f] && g.trade == h.trade :: Long(g) == Long(h)
  {
    forall g | g in b.fills && g.trade == f.trade ensures Long(g) == Long(f) {
      assert b.size != 0.0;
    }
  }

  lemma EntryKeepsTrades(b: Book, f: Fill)
    requires b.leverage > 0.0 && TradesPartition(b) && OpenTrade(b) && Admissible(b, f) && f.entry
    requires b.size + Signed(f) != 0.0
    ensures TradesPartition(BookEntry(b, f))
  {
    var t := BookEntry(b, f);
    SidesStay(b, f);
    forall k: nat | 1 <= k <= |t.closed| ensures ClosedTrade(t, k) {
      ClosedTradesStay(b, f, t, k);
    }
  }

  lemma ExitKeepsTrades(b: Book, f: Fill)
    requires b.leverage > 0.0 && TradesPartition(b) && OpenTrade(b) && Admissible(b, f) && !f.entry
    ensures TradesPartition(BookExit(b, f))
  {
    var t := BookExit(b, f);
    SidesStay(b, f);
    forall k: nat | 1 <= k <= |t.closed| ensures ClosedTrade(t, k) {
      if k <= |b.closed| {
        ClosedTradesStay(b, f, t, k);
      } else {
        LastTradeCloses(b, f);
      }
    }
  }

  lemma LastTradeCloses(b: Book, f: Fill)
    requires b.leverage > 0.0 && OpenTrade(b) && b.trade == |b.closed| + 1 && Admissible(b, f) && !f.entry
    requires b.size + Signed(f) == 0.0
    requires Total(b.fills, ExitQuantity, b.trade) >= 0.0
    ensures ClosedTrade(BookExit(b, f), b.trade)
  {
    TradeColumns(b.fills, f);
    PnlSplits(b, f);
    ValueOfSum(0.0, 0.0, b.price);
  }

  lemma {:induction false} NoExitNothingRealized(fills: seq<Fill>, closed: nat, price: real)
    requires forall f | f in fills && f.trade > closed :: f.entry
    ensures OpenRealized(fills, closed, price) == 0.0
  {
    if fills != [] {
      assert fills[|fills| - 1] in fills;
      NoExitNothingRealized(fills[..|fills| - 1], closed, price);
    }
  }

  lemma OpenSumsAppend(fills: seq<Fill>, f: Fill, closed: nat, price: real)
    ensures OpenRealized(fills + [f], closed, price)
         == OpenRealized(fills, closed, price)
            + (if f.trade > closed && !f.entry then Value(-Signed(f), f.price - price) else 0.0)
    ensures OpenCommission(fills + [f], closed)
         == OpenCommission(fills, closed) + (if f.trade > closed then f.commission else 0.0)
  {
    assert (fills + [f])[..|fills|] == fills;
  }

  lemma EntryKeepsSplit(b: Book, f: Fill)
    requires b.leverage > 0.0 && TradesPartition(b) && LedgerSplits(b) && OpenTrade(b)
    requires Admissible(b, f) && f.entry && b.size + Signed(f) != 0.0
    ensures LedgerSplits(BookEntry(b, f))
  {
    var t := BookEntry(b, f);
    TradeColumns(b.fills, f);
    forall g | g in t.fills && g.trade > |t.closed| ensures g.entry {
      assert g == f || (g in b.fills && g.trade == b.trade);
    }
    NoExitNothingRealized(t.fills, |t.closed|, t.price);
  }

  lemma ExitKeepsSplit(b: Book, f: Fill)
    requires b.leverage > 0.0 && TradesPartition(b) && LedgerSplits(b)
    requires Admissible(b, f) && !f.entry
    ensures LedgerSplits(BookExit(b, f))
  {
    var t := BookExit(b, f);
    TradeColumns(b.fills, f);
    OpenSumsAppend(b.fills, f, |b.closed|, b.price);
    if b.size + Signed(f) == 0.0 {
      assert t.closed[..|b.closed|] == b.closed;
      forall g | g in t.fills ensures g.trade != t.trade {
        assert g in b.fills || g == f;
      }
      TotalOfNone(t.fills, Commission, t.trade);
      TotalOfNone(t.fills, LiquidationFee, t.trade);
    }
  }

  lemma OpenedSound(initial: real, leverage: real)
    requires leverage > 0.0
    ensures Sound(Opened(initial, leverage))
  {
    ValueOfSum(0.0, 0.0, 0.0);
  }

  lemma FillKeepsOrder(b: Book, f: Fill)
    requires EntriesFirst(b.fills) && Admissible(b, f)
    ensures EntriesFirst(b.fills + [f])
  {
    var t := b.fills + [f];
    forall i, j | 0 <= i < j < |t| && t[i].trade == t[j].trade && !t[i].entry ensures !t[j].entry {
      assert j == |b.fills| ==> t[i] in b.fills;
    }
  }

  lemma EntrySound(b: Book, f: Fill)
    requires Sound(b) && Admissible(b, f) && f.entry
    ensures Sound(BookEntry(b, f))
  {
    FillKeepsOrder(b, f);
    EntryKeepsCash(b, f);
    EntryConserves(b, f);
    EntryKeepsOpenTrade(b, f);
    EntryKeepsTrades(b, f);
    EntryKeepsSplit(b, f);
  }

  lemma ExitSound(b: Book, f: Fill)
    requires Sound(b) && Admissible(b, f) && !f.entry
    ensures Sound(BookExit(b, f))
  {
    ExitKeepsCash(b, f);
    ExitConserves(b, f);
    ExitKeepsTrades(b, f);
    ExitKeepsSplit(b, f);
    ExitOpenTrade(b, f);
    ExitKeepsFills(b, f);
    AllSound(BookExit(b, f));
  }

  lemma ExitKeepsFills(b: Book, f: Fill)
    requires b.leverage > 0.0 && CostsSigned(b.fills) && EntriesFirst(b.fills) && Admissible(b, f) && !f.entry
    ensures CostsSigned(BookExit(b, f).fills) && EntriesFirst(BookExit(b, f).fills)
  {
    FillKeepsOrder(b, f);
    assert BookExit(b, f).fills == b.fills + [f];
  }

  lemma AllSound(t: Book)
    requires CashAgrees(t) && QuoteConserved(t) && OpenTrade(t) && TradesPartition(t)
    requires CostsSigned(t.fills) && EntriesFirst(t.fills) && LedgerSplits(t)
    ensures Sound(t)
  {
  }

  lemma ExitOpenTrade(b: Book, f: Fill)
    requires Sound(b) && Admissible(b, f) && !f.entry
    ensures OpenTrade(BookExit(b, f))
  {
    if b.size + Signed(f) == 0.0 {
      FlatExitOpensNewTrade(b, f);
    } else {
      ExitKeepsOpenTrade(b, f);
    }
  }

  /** Every admissible movement keeps the books sound. */
  lemma ApplySound(b: Book, m: Movement)
    requires Sound(b) && Allowed(b, m)
    ensures Sound(Apply(b, m))
  {
    match m
    case Funded(_) => FundingSound(b, m);
    case Filled(f) =>
      if f.entry {
        EntrySound(b, f);
      } else {
        ExitSound(b, f);
      }
  }

  lemma FundingSound(b: Book, m: Movement)
    requires Sound(b) && m.Funded?
    ensures Sound(Apply(b, m))
  {
    var t := Apply(b, m);
    forall k: nat | 1 <= k <= |t.closed| ensures ClosedTrade(t, k) {
      assert ClosedTrade(b, k);
    }
  }

  /** A whole run: every movement admissible when it happens. */
  predicate Run(b: Book, moves: seq<Movement>)
    requires b.leverage > 0.0
    decreases |moves|
  {
    moves == [] || (Allowed(b, moves[0]) && Run(Apply(b, moves[0]), moves[1..]))
  }

  function After(b: Book, moves: seq<Movement>): (t: Book)
    requires b.leverage > 0.0 && Run(b, moves)
    ensures t.leverage == b.leverage
    decreases |moves|
  {
    if moves == [] then b else After(Apply(b, moves[0]), moves[1..])
  }

  /** Whatever the run, its books are sound. */
  lemma {:induction false} EveryRunIsSound(b: Book, moves: seq<Movement>)
    requires Sound(b) && Run(b, moves)
    ensures Sound(After(b, moves))
    decreases |moves|
  {
    if moves != [] {
      ApplySound(b, moves[0]);
      EveryRunIsSound(Apply(b, moves[0]), moves[1..]);
    }
  }

  // ---------------------------------------------------------------- audit

  function SumOf(xs: seq<real>): real {
    if xs == [] then 0.0 else SumOf(xs[..|xs| - 1]) + xs[|xs| - 1]
  }

  /** Exits of trades beyond the closed ones, each against the position's average price. */
  function OpenRealized(fills: seq<Fill>, closed: nat, price: real): real {
    if fills == [] then 0.0
    else
      var last := fills[|fills| - 1];
      OpenRealized(fills[..|fills| - 1], closed, price)
      + (if last.trade > closed && !last.entry then Value(-Signed(last), last.price - price) else 0.0)
  }

  function OpenCommission(fills: seq<Fill>, closed: nat): real {
    if fills == [] then 0.0
    else
      var last := fills[|fills| - 1];
      OpenCommission(fills[..|fills| - 1], closed) + (if last.trade > closed then last.commission else 0.0)
  }

  /** What the reference prices and the cost columns say the run should end with. */
  function ExpectedFromCosts(b: Book, close: real): real {
    b.initial + (Total(b.fills, ReferenceCashflow, 0) + Value(b.size, close))
    - Total(b.fills, Cost, 0) - Total(b.fills, Commission, 0) + b.funding - Total(b.fills, LiquidationFee, 0)
  }

  /** What closed and open trade results say the run should end with. */
  function ExpectedFromTrades(b: Book, close: real): real {
    b.initial + SumOf(b.closed)
    + (if b.size != 0.0 then OpenRealized(b.fills, |b.closed|, b.price) else 0.0)
    + (if b.size != 0.0 then Value(b.size, close - b.price) else 0.0)
    - OpenCommission(b.fills, |b.closed|) + b.funding
  }

  /** The audit raises unless both agree with the broker's final value. */
  predicate AuditRaises(b: Book, close: real)
    requires b.leverage > 0.0
  {
    Equity(b, close) != ExpectedFromCosts(b, close) || Equity(b, close) != ExpectedFromTrades(b, close)
  }

  lemma {:induction false} ReferenceLessCost(fills: seq<Fill>)
    requires CostsSigned(fills)
    ensures Total(fills, ReferenceCashflow, 0) - Total(fills, Cost, 0) == Total(fills, Cashflow, 0)
  {
    if fills != [] {
      var f := fills[|fills| - 1];
      ReferenceLessCost(fills[..|fills| - 1]);
      assert f in fills;
      ValueOfSum(Signed(f), f.reference, f.price);
      ValueOfSum(Signed(f), 0.0, f.price);
      ValueOfSum(Signed(f), 0.0, f.reference);
    }
  }

  /** The broker's value is the ledger balance plus open profit at the mark. */
  lemma EquityIsLedgerPlusOpenProfit(b: Book, mark: real)
    requires CashAgrees(b)
    ensures Equity(b, mark) == b.balance + Value(b.size, mark - b.price)
  {
  }

  lemma CostIdentity(b: Book, close: real)
    requires Sound(b)
    ensures Equity(b, close) == ExpectedFromCosts(b, close)
  {
    ReferenceLessCost(b.fills);
    ValueOfSum(b.size, b.price, close);
  }

  lemma {:induction false} OpenCommissionIsLastTrade(fills: seq<Fill>, closed: nat)
    requires forall f | f in fills :: f.trade <= closed + 1
    ensures OpenCommission(fills, closed) == Total(fills, Commission, closed + 1)
  {
    if fills != [] {
      assert fills[|fills| - 1] in fills;
      OpenCommissionIsLastTrade(fills[..|fills| - 1], closed);
    }
  }

  lemma TradeIdentity(b: Book, close: real)
    requires Sound(b)
    ensures Equity(b, close) == ExpectedFromTrades(b, close)
  {
    OpenCommissionIsLastTrade(b.fills, |b.closed|);
    if b.size == 0.0 {
      ValueOfSum(0.0, 0.0, close - b.price);
    }
  }

  /**
   The reconciliation error is unreachable: after any run of partial entries,
   partial exits, funding and liquidation, marked at any price, the audit's
   two identities both hold.
   */
  lemma AuditNeverRaises(initial: real, leverage: real, moves: seq<Movement>, close: real)
    requires leverage > 0.0 && Run(Opened(initial, leverage), moves)
    ensures !AuditRaises(After(Opened(initial, leverage), moves), close)
  {
    OpenedSound(initial, leverage);
    EveryRunIsSound(Opened(initial, leverage), moves);
    CostIdentity(After(Opened(initial, leverage), moves), close);
    TradeIdentity(After(Opened(initial, leverage), moves), close);
  }

  // ----------------------------------------- why entries must precede exits

  /** Signed quantity of the exits booked on the open trade. */
  function OpenExits(fills: seq<Fill>, closed: nat): real {
    if fills == [] then 0.0
    else
      var last := fills[|fills| - 1];
      OpenExits(fills[..|fills| - 1], closed) + (if last.trade > closed && !last.entry then Signed(last) else 0.0)
  }

  lemma {:induction false} OpenRealizedShifts(fills: seq<Fill>, closed: nat, x: real, y: real)
    ensures OpenRealized(fills, closed, x) == OpenRealized(fills, closed, y) + Value(OpenExits(fills, closed), x - y)
  {
    if fills == [] {
      ValueOfSum(0.0, 0.0, x - y);
    } else {
      var rest, f := fills[..|fills| - 1], fills[|fills| - 1];
      OpenRealizedShifts(rest, closed, x, y);
      var s := Signed(f);
      ValueOfSum(OpenExits(rest, closed), s, x - y);
      ValueOfSum(-s, x, f.price);
      ValueOfSum(-s, y, f.price);
      ValueOfSum(s, y, x);
      ValueOfSum(s, 0.0, x);
      ValueOfSum(s, 0.0, y);
    }
  }

  /**
   Were an entry ever booked after an exit of the same trade, the audit would
   still agree exactly when that entry leaves the average price where it was
   (or no exit was really booked): a single position price is valid for all
   exits of a trade only because entries come first.
   */
  lemma ReentryBreaksTheAudit(b: Book, f: Fill, close: real)
    requires Sound(b) && b.size != 0.0
    requires f.entry && f.trade == b.trade && f.size > 0.0 && f.buy == (b.size > 0.0) && f.liquidationFee == 0.0
    ensures b.size + Signed(f) != 0.0
    ensures var t := BookEntry(b, f);
            Equity(t, close) == ExpectedFromTrades(t, close)
            <==> Value(OpenExits(b.fills, |b.closed|), t.price - b.price) == 0.0
  {
    var t := BookEntry(b, f);
    CollateralAdds(b.size, b.price, Signed(f), f.price, b.leverage);
    OpenSumsAppend(b.fills, f, |b.closed|, t.price);
    OpenRealizedShifts(b.fills, |b.closed|, t.price, b.price);
    OpenCommissionIsLastTrade(b.fills, |b.closed|);
  }

  // -------------------------------------------------- closed-trade record

  /** A position never changes sign without passing through flat. */
  lemma SignNeverFlips(b: Book, m: Movement)
    requires b.leverage > 0.0 && Allowed(b, m)
    ensures b.size > 0.0 ==> Apply(b, m).size >= 0.0
    ensures b.size < 0.0 ==> Apply(b, m).size <= 0.0
    ensures m.Filled? && !m.fill.entry ==> Abs(Apply(b, m).size) == Abs(b.size) - m.fill.size
    ensures m.Filled? && m.fill.entry ==> Abs(Apply(b, m).size) == Abs(b.size) + m.fill.size
  {
  }

  lemma {:induction false} CashflowBySide(fills: seq<Fill>, k: nat, long: bool)
    requires k > 0 && forall f | f in fills && f.trade == k :: Long(f) == long
    ensures Total(fills, Cashflow, k)
         == if long then Total(fills, ExitNotional, k) - Total(fills, EntryNotional, k)
            else Total(fills, EntryNotional, k) - Total(fills, ExitNotional, k)
  {
    if fills != [] {
      var f := fills[|fills| - 1];
      assert f in fills;
      CashflowBySide(fills[..|fills| - 1], k, long);
      ValueOfSum(f.size, 0.0, f.price);
    }
  }

  /** Gross profit as the trade record derives it from its two average prices. */
  function RecordedGross(fills: seq<Fill>, k: nat, long: bool): real
    requires Total(fills, EntryQuantity, k) != 0.0
  {
    var quantity := Total(fills, EntryQuantity, k);
    var entryPrice := Total(fills, EntryNotional, k) / quantity;
    var exitPrice := Total(fills, ExitNotional, k) / quantity;
    if long then Value(quantity, exitPrice - entryPrice) else Value(-quantity, exitPrice - entryPrice)
  }

  /**
   A closed trade sold exactly what it bought, so dividing its exit notional
   by its entry quantity is exact, and its recorded gross profit less the
   commissions and liquidation fees of its own fills is what the broker booked.
   */
  lemma ClosedTradeIsExact(b: Book, k: nat, f: Fill)
    requires Sound(b) && 1 <= k <= |b.closed| && f in b.fills && f.trade == k
    ensures Total(b.fills, EntryQuantity, k) == Total(b.fills, ExitQuantity, k) > 0.0
    ensures RecordedGross(b.fills, k, Long(f)) == Total(b.fills, Cashflow, k)
    ensures b.closed[k - 1] == RecordedGross(b.fills, k, Long(f))
                               - Total(b.fills, Commission, k) - Total(b.fills, LiquidationFee, k)
  {
    assert ClosedTrade(b, k);
    CashflowBySide(b.fills, k, Long(f));
    var quantity := Total(b.fills, EntryQuantity, k);
    var bought, sold := Total(b.fills, EntryNotional, k), Total(b.fills, ExitNotional, k);
    Quotient(bought, quantity);
    Quotient(sold, quantity);
    ValueOfSum(quantity, bought / quantity, sold / quantity);
    ValueOfSum(quantity, 0.0, sold / quantity - bought / quantity);
  }

  // ------------------------------------------------------------ spot cash

  /** Ledger balance less the acquisition cost of held inventory. */
  function FreeCash(b: Book): real {
    b.balance - Value(b.size, b.price)
  }

  lemma SpotCashIsFree(b: Book)
    requires CashAgrees(b) && b.leverage == 1.0 && b.size >= 0.0
    ensures FreeCash(b) == b.cash
  {
    ValueOfSum(0.0, 0.0, b.price);
    Quotient(Value(b.size, b.price), 1.0);
  }
}
