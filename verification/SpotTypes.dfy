/**
 Values of the native Spot lane: orders, instrument rules, the engine state a
 session carries, and the records its journal is made of. The state and its
 journal digest are one recursive value, because a state remembers the digest
 of the record that committed it.
 */
module SpotTypes {
  import opened Wrappers
  import opened Rounding

  datatype Side = Buy | Sell

  datatype OrderType = Market | Limit

  datatype Purpose = Opening | Addition | Target | Flatten

  datatype Status =
    | Pending | Accepted | Partial | CancelPending | Unknown
    | Filled | Canceled | Expired | Rejected

  predicate Terminal(s: Status) {
    s in {Filled, Canceled, Expired, Rejected}
  }

  /** What an order asks for. `quoteCap` replaces `quantity` when present. */
  datatype Intent = Intent(
    side: Side,
    orderType: OrderType,
    limitPrice: Option<real>,
    quantity: real,
    quoteCap: Option<real>,
    purpose: Purpose,
    activationBar: int,
    expiresAfterBars: nat)

  datatype Order = Order(
    intent: Intent,
    status: Status,
    filledQuantity: real,
    filledQuote: real,
    acceptedSequence: nat,
    terminalReconciled: bool)

  datatype Rules = Rules(
    priceTick: real,
    minimumPrice: real,
    maximumPrice: real,
    priceBand: Option<(real, real)>,
    quantityStep: real,
    marketQuantityStep: real,
    minimumQuantity: real,
    maximumQuantity: real,
    marketMinimumQuantity: Option<real>,
    marketMaximumQuantity: Option<real>,
    applyNotionalToMarket: bool,
    minimumNotional: real,
    maximumNotional: real)

  datatype Asset = BaseAsset | QuoteAsset | ThirdAsset

  datatype Policy = Policy(
    spreadBps: real,
    slippageBps: real,
    takerFeeBps: real,
    makerFeeBps: real,
    participation: real,
    feeAsset: Asset,
    thirdAssetQuotePrice: real)

  datatype Fee = Fee(asset: Asset, quantity: real, quoteValue: Option<real>)

  /** One simulator event: a status change, with a fill when `quantity > 0`. */
  datatype Event = Event(
    key: nat,
    sequence: nat,
    timestamp: int,
    bar: int,
    side: Side,
    purpose: Purpose,
    status: Status,
    cumulativeQuantity: real,
    cumulativeQuote: real,
    quantity: real,
    price: real,
    notional: real,
    fee: Option<Fee>)

  datatype Candle = Candle(timestamp: int, open: real, high: real, low: real, close: real, volume: real)

  datatype Action = StopAndHold | StopAndFlatten

  datatype Reason = StopReached | CommandIssued

  datatype Phase = Running | Stopping | StoppedHolding | Stopped

  datatype Body =
    | PriceSeen(price: real, barIndex: int)
    | Executed(event: Event)
    | Reconciled
    | Commanded(action: Action)
    | ClosedBar(barIndex: int, close: real)

  datatype Observation = Observation(sequence: nat, timestamp: int, body: Body)

  datatype Binding = Binding(
    sessionId: nat,
    interval: int,
    evaluationEnd: Option<int>,
    coverage: Option<(int, int)>,
    endOfData: Action,
    rules: Rules,
    policy: Policy)

  /** The engine state. Orders are keyed by their position and never removed. */
  datatype State = State(
    binding: Binding,
    orders: seq<Order>,
    quoteCash: real,
    netBase: real,
    stop: Option<real>,
    terminalAction: Option<Action>,
    terminalReason: Option<Reason>,
    phase: Phase,
    reconciliationRequired: bool,
    quarantine: bool,
    events: seq<Event>,
    observationSequence: nat,
    pendingObservation: Option<Observation>,
    mark: Option<real>,
    barIndex: int,
    barInProgress: bool,
    lastCandle: Option<Candle>,
    liquidityAllowance: real,
    liquidityUsed: real,
    stopReferenceBar: int,
    finished: bool,
    journalSequence: nat,
    journalSha: Digest)

  datatype Kind =
    | CandleReceived | CandleProcessed | LiquidityAllocation | ObservationReceived
    | ObservationReduced | StopReferenceConsumed | EndOfData

  datatype Unsigned = Unsigned(sessionId: nat, sequence: nat, previous: Digest, kind: Kind, doc: State)

  /**
   The content hash, kept symbolic: equal digests mean equal contents and
   nothing else is known about them.
   */
  datatype Digest = Genesis | Sha(content: Unsigned)

  datatype Record = Record(unsigned: Unsigned, sha: Digest)

  predicate ValidRules(r: Rules) {
    && r.priceTick > 0.0
    && r.minimumPrice > 0.0
    && r.quantityStep > 0.0
    && r.marketQuantityStep > 0.0
  }

  predicate ValidPolicy(p: Policy) {
    && p.spreadBps >= 0.0
    && p.slippageBps >= 0.0
    && p.takerFeeBps >= 0.0
    && p.makerFeeBps >= 0.0
    && p.participation >= 0.0
    && p.thirdAssetQuotePrice > 0.0
  }

  predicate ValidBinding(b: Binding) {
    && ValidRules(b.rules)
    && ValidPolicy(b.policy)
    && b.interval > 0
  }

  /** An order the matcher may look at on the current bar. */
  predicate Eligible(s: State, o: Order) {
    !Terminal(o.status) && o.status != Unknown && o.intent.activationBar <= s.barIndex
  }
}
