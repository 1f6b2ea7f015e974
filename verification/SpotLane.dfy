/**
 What a session does while its journal accepts every record. The lane's moves
 are data, `Do` is their meaning: each move turns the committed state and the
 records written so far into the next ones. The session's methods are proved
 to make exactly these moves, so what is proved here of a run is proved of the
 journal of every session.
 */
module SpotLane {
  import opened Wrappers
  import opened Rounding
  import opened StableSort
  import opened SpotTypes
  import opened SpotMatching
  import opened SpotEngine
  import opened SpotJournal
  import opened SpotWalk

  datatype Failure =
    | JournalFailed | SinkRefused | EngineRefused | NotConverged
    | SessionFinished | IncompleteCandle | InvalidCandle | ConflictingReconnect
    | CandleGap | OutsideEvaluation | NotCovered
    | NotFresh | ConflictingSuffix | Unsettled

  // ------------------------------------------------------------- engine

  type Transition = (State, Observation) -> Option<State>

  /** One reducer step, under some decision of the recipe. */
  ghost predicate IsStep(advance: Transition, s: State, o: Observation) {
    exists recipe :: advance(s, o) == Advance(s, o, recipe)
  }

  ghost predicate KeepsBinding(advance: Transition) {
    forall s, o :: advance(s, o).Some? ==> advance(s, o).value.binding == s.binding
  }

  /** Nothing is known of the engine but that each of its steps is a reducer step. */
  ghost predicate Lawful(advance: Transition) {
    forall s, o :: IsStep(advance, s, o)
  }

  lemma LawfulKeepsBinding(advance: Transition)
    requires Lawful(advance)
    ensures KeepsBinding(advance)
  {
    forall s, o | advance(s, o).Some? ensures advance(s, o).value.binding == s.binding {
      assert IsStep(advance, s, o);
      var recipe :| advance(s, o) == Advance(s, o, recipe);
      AdvanceKeepsBinding(s, o, recipe);
    }
  }

  /** The reducer of a strategy that never decides anything. */
  ghost function Idle(): (advance: Transition)
    ensures Lawful(advance) && KeepsBinding(advance)
  {
    var silent := Recipe([], {}, false, None, None, false, false);
    var advance := (s: State, o: Observation) => Advance(s, o, silent);
    assert forall s, o :: IsStep(advance, s, o) by {
      forall s, o ensures IsStep(advance, s, o) {
        assert advance(s, o) == Advance(s, o, silent);
      }
    }
    LawfulKeepsBinding(advance);
    advance
  }

  /** The engine's public reducer. `None` refuses the observation. */
  type Reducer = advance: Transition | Lawful(advance) && KeepsBinding(advance) ghost witness Idle()

  // ---------------------------------------------------------- priority

  function Rank(o: Order): nat {
    if o.intent.purpose == Flatten then 0 else if o.intent.side == Sell then 1 else 2
  }

  function RankAt(orders: seq<Order>, k: int): nat {
    if 0 <= k < |orders| then Rank(orders[k]) else 3
  }

  function AcceptedAt(orders: seq<Order>, k: int): nat {
    if 0 <= k < |orders| then orders[k].acceptedSequence else 0
  }

  /** Closes first, then sells, then buys; earlier acceptance first; then the key. */
  predicate Precedes(orders: seq<Order>, a: int, b: int) {
    var ra, rb := RankAt(orders, a), RankAt(orders, b);
    var sa, sb := AcceptedAt(orders, a), AcceptedAt(orders, b);
    ra < rb || (ra == rb && (sa < sb || (sa == sb && a <= b)))
  }

  function Keys(n: nat): (keys: seq<int>)
    ensures |keys| == n && forall k | 0 <= k < n :: keys[k] == k
  {
    seq(n, k => k)
  }

  /** The order keys in matching priority. */
  function Working(orders: seq<Order>): (keys: seq<int>) {
    Sort((a: int, b: int) => Precedes(orders, a, b), Keys(|orders|))
  }

  /** `keys` visits every order once, in priority. */
  ghost predicate PriorityOrder(orders: seq<Order>, keys: seq<int>) {
    && NoDup(keys)
    && (forall k :: k in keys <==> 0 <= k < |orders|)
    && (forall i, j | 0 <= i < j < |keys| :: Precedes(orders, keys[i], keys[j]))
  }

  lemma WorkingInPriority(orders: seq<Order>)
    ensures PriorityOrder(orders, Working(orders))
  {
    var all := Keys(|orders|);
    var leq := (a: int, b: int) => Precedes(orders, a, b);
    assert TotalPreorder(leq);
    SortIsSorted(leq, all);
    SortKeepsNoDup(leq, all);
    forall k ensures k in Sort(leq, all) <==> 0 <= k < |orders| {
      SortMembers(leq, all, k);
      if 0 <= k < |orders| {
        assert all[k] == k;
      }
    }
  }

  /** What the priority means: closes before sells before buys, then acceptance, then the key. */
  lemma ClosesThenSellsThenBuys(orders: seq<Order>, keys: seq<int>, i: nat, j: nat)
    requires PriorityOrder(orders, keys) && i < j < |keys|
    ensures 0 <= keys[i] < |orders| && 0 <= keys[j] < |orders| && keys[i] != keys[j]
    ensures var a, b := orders[keys[i]], orders[keys[j]];
            && (b.intent.purpose == Flatten ==> a.intent.purpose == Flatten)
            && (a.intent.purpose != Flatten && a.intent.side == Buy ==> b.intent.side == Buy)
            && ((a.intent.purpose == Flatten <==> b.intent.purpose == Flatten)
                && (a.intent.purpose == Flatten || a.intent.side == b.intent.side) ==>
                  a.acceptedSequence < b.acceptedSequence
                  || (a.acceptedSequence == b.acceptedSequence && keys[i] < keys[j]))
  {
    assert keys[i] in keys && keys[j] in keys;
    assert Precedes(orders, keys[i], keys[j]);
  }

  // -------------------------------------------------------------- moves

  /** How many replies a drain gives before it gives up. */
  const ROUNDS: nat := 512

  /** A session's committed state, what it has written, and how it stands. */
  datatype Run = Run(state: State, journal: seq<Record>, timestamp: int, error: Option<Failure>)

  datatype Move =
    | See(body: Body)
    | Drain(rounds: nat)
    | Hear(body: Body)
    | Price(reference: real)
    | Offer(key: int, reference: real, atOpen: bool)
    | SellOne(key: int, reference: real, atOpen: bool)
    | SellAll(keys: seq<int>, reference: real, atOpen: bool)
    | Contain(reference: real)
    | Face(keys: seq<int>, reference: real, atOpen: bool)
    | Touch(reference: real, atOpen: bool)
    | BuyAll(keys: seq<int>, reference: real, atOpen: bool)
    | Visit(reference: real, atOpen: bool)
    | Expire(found: seq<Order>, from: nat)
    | CloseOut(found: seq<Order>, from: nat)

  function Level(m: Move): nat {
    match m
    case See(_) => 0
    case Drain(_) => 1
    case Expire(_, _) => 1
    case Hear(_) => 2
    case Price(_) => 3
    case Offer(_, _, _) => 3
    case Contain(_) => 4
    case SellOne(_, _, _) => 4
    case CloseOut(_, _) => 4
    case SellAll(_, _, _) => 5
    case Face(_, _, _) => 6
    case Touch(_, _) => 7
    case BuyAll(_, _, _) => 8
    case Visit(_, _) => 9
  }

  /** What is left of a move that repeats. */
  function Left(m: Move): nat {
    match m
    case Drain(rounds) => rounds
    case SellAll(keys, _, _) => |keys|
    case BuyAll(keys, _, _) => |keys|
    case Expire(found, from) => if from < |found| then |found| - from else 0
    case CloseOut(found, from) => if from < |found| then |found| - from else 0
    case _ => 0
  }

  /** An expiry reported from an earlier snapshot of the order. */
  function Expiry(run: Run, found: seq<Order>, key: nat): Body
    requires key < |found|
  {
    Executed(StatusEvent(run.state, key, found[key], Expired, run.timestamp))
  }

  /** A close that was still open when the command was drained, and a mark to offer it. */
  predicate ClosesOut(s: State, found: Order) {
    found.intent.purpose == Flatten && !Terminal(found.status) && s.mark.Some?
  }

  /** `r` continues `run`: more records, the state of the last one, and errors stand. */
  ghost predicate Extends(run: Run, r: Run) {
    && run.journal <= r.journal
    && r.timestamp == run.timestamp
    && r.state.binding == run.state.binding
    && (run.error.Some? ==> r == run)
    && (|r.journal| == |run.journal| ==> r.state == run.state)
    && (|r.journal| > |run.journal| ==> r.state == Commit(r.journal[|r.journal| - 1]))
  }

  /** Write one record and commit it. */
  function Write(run: Run, candidate: State, kind: Kind): (r: Run)
    requires candidate.binding == run.state.binding
    ensures Extends(run, r)
  {
    if run.error.Some? then run
    else
      var r := RecordFor(run.state, candidate, kind);
      run.(state := Commit(r), journal := run.journal + [r])
  }

  function Debited(s: State, quantity: real): State {
    s.(liquidityUsed := s.liquidityUsed + quantity)
  }

  /** Debit the candle's allowance, when there is a quantity to pay for. */
  function Paid(run: Run, quantity: real): (r: Run)
    ensures Extends(run, r)
  {
    if quantity == 0.0 then run
    else Write(run, Debited(run.state, quantity), LiquidityAllocation)
  }

  /** An off-open close consumes the bar's stop reference. */
  function Consumed(s: State): State {
    s.(stopReferenceBar := s.barIndex)
  }

  function Consume(run: Run): (r: Run)
    ensures Extends(run, r)
  {
    Write(run, Consumed(run.state), StopReferenceConsumed)
  }

  function Received(run: Run, body: Body): Observation {
    Observation(run.state.observationSequence + 1, run.timestamp, body)
  }

  predicate AwaitsReply(status: Status) {
    status == Pending || status == CancelPending
  }

  function FirstAwaiting(orders: seq<Order>, from: nat): (r: Option<nat>)
    requires from <= |orders|
    ensures r.Some? ==> from <= r.value < |orders| && AwaitsReply(orders[r.value].status)
    ensures r == None ==> forall k | from <= k < |orders| :: !AwaitsReply(orders[k].status)
    decreases |orders| - from
  {
    if from == |orders| then None
    else if AwaitsReply(orders[from].status) then Some(from)
    else FirstAwaiting(orders, from + 1)
  }

  function Reply(s: State, key: nat, timestamp: int): Event
    requires key < |s.orders|
  {
    var status := if s.orders[key].status == Pending then Accepted else Canceled;
    StatusEvent(s, key, s.orders[key], status, timestamp)
  }

  predicate Unreconciled(s: State) {
    exists k :: 0 <= k < |s.orders| && Terminal(s.orders[k].status) && !s.orders[k].terminalReconciled
  }

  predicate Halted(s: State) {
    s.reconciliationRequired || s.quarantine
  }

  /** The simulator's next reply, if it owes one. */
  function NextReply(s: State, timestamp: int): Option<Body> {
    if Halted(s) then None
    else
      match FirstAwaiting(s.orders, 0)
      case Some(key) => Some(Executed(Reply(s, key, timestamp)))
      case None => if Unreconciled(s) then Some(Reconciled) else None
  }

  /** An off-open close at a reached stop that has not yet consumed this bar's stop reference. */
  predicate Emergency(s: State, o: Order) {
    && o.intent.purpose == Flatten
    && s.terminalReason == Some(StopReached)
    && s.stopReferenceBar != s.barIndex
  }

  /** A sell that may trade at `reference`. */
  predicate MaySell(s: State, key: int, reference: real, atOpen: bool) {
    && 0 <= key < |s.orders|
    && Eligible(s, s.orders[key])
    && s.orders[key].intent.side == Sell
    && (if s.orders[key].intent.orderType == Market then atOpen || Emergency(s, s.orders[key])
        else s.orders[key].intent.limitPrice.Some? ==> reference >= s.orders[key].intent.limitPrice.value)
  }

  /** A buy that may trade at `reference`. */
  predicate MayBuy(s: State, key: int, reference: real, atOpen: bool) {
    && 0 <= key < |s.orders|
    && Eligible(s, s.orders[key])
    && s.orders[key].intent.side == Buy
    && (s.orders[key].intent.orderType == Market ==> atOpen)
    && (s.orders[key].intent.limitPrice.Some? ==> reference <= s.orders[key].intent.limitPrice.value)
  }

  predicate Closes(s: State, key: int) {
    0 <= key < |s.orders| && s.orders[key].intent.purpose == Flatten
  }

  predicate Expires(s: State, o: Order) {
    && Eligible(s, o)
    && o.intent.expiresAfterBars > 0
    && s.barIndex >= o.intent.activationBar + o.intent.expiresAfterBars
  }

  /** The meaning of a move. A run that has failed stays as it is. */
  function Do(run: Run, advance: Reducer, move: Move): (r: Run)
    requires ValidBinding(run.state.binding)
    ensures Extends(run, r)
    decreases Level(move), Left(move), 1
  {
    if run.error.Some? then run
    else
      match move
      case See(body) => DoSee(run, advance, body)
      case Drain(rounds) => DoDrain(run, advance, rounds)
      case Hear(body) => DoHear(run, advance, body)
      case Price(reference) => DoPrice(run, advance, reference)
      case Offer(key, reference, atOpen) => DoOffer(run, advance, key, reference, atOpen)
      case SellOne(key, reference, atOpen) => DoSellOne(run, advance, key, reference, atOpen)
      case SellAll(keys, reference, atOpen) => DoSellAll(run, advance, keys, reference, atOpen)
      case Contain(reference) => DoContain(run, advance, reference)
      case Face(keys, reference, atOpen) => DoFace(run, advance, keys, reference, atOpen)
      case Touch(reference, atOpen) => DoTouch(run, advance, reference, atOpen)
      case BuyAll(keys, reference, atOpen) => DoBuyAll(run, advance, keys, reference, atOpen)
      case Visit(reference, atOpen) => DoVisit(run, advance, reference, atOpen)
      case Expire(found, from) => DoExpire(run, advance, found, from)
      case CloseOut(found, from) => DoCloseOut(run, advance, found, from)
  }

  /** Journal an observation, reduce it, journal the result. */
  function DoSee(run: Run, advance: Reducer, body: Body): (r: Run)
    ensures Extends(run, r)
  {
    var received := Write(run, run.state.(pendingObservation := Some(Received(run, body))), ObservationReceived);
    match advance(received.state, Received(run, body))
    case None => if run.error.Some? then run else received.(error := Some(EngineRefused))
    case Some(next) => Write(received, next.(pendingObservation := None), ObservationReduced)
  }

  /** Acknowledge and reconcile until nothing is owed, or give up. */
  function DoDrain(run: Run, advance: Reducer, rounds: nat): (r: Run)
    requires ValidBinding(run.state.binding) && run.error == None
    ensures Extends(run, r)
    decreases Level(Drain(rounds)), Left(Drain(rounds)), 0
  {
    if rounds == 0 then run.(error := Some(NotConverged))
    else
      match NextReply(run.state, run.timestamp)
      case None => run
      case Some(body) => Do(Do(run, advance, See(body)), advance, Drain(rounds - 1))
  }

  /** Observe, then drain what it leads to. */
  function DoHear(run: Run, advance: Reducer, body: Body): (r: Run)
    requires ValidBinding(run.state.binding)
    ensures Extends(run, r)
    decreases Level(Hear(body)), 0, 0
  {
    Do(Do(run, advance, See(body)), advance, Drain(ROUNDS))
  }

  function DoPrice(run: Run, advance: Reducer, reference: real): (r: Run)
    requires ValidBinding(run.state.binding)
    ensures Extends(run, r)
    decreases Level(Price(reference)), 0, 0
  {
    Do(run, advance, Hear(PriceSeen(reference, run.state.barIndex)))
  }

  /** Match one order; its quantity is allocated before the fill is reported. */
  function DoOffer(run: Run, advance: Reducer, key: int, reference: real, atOpen: bool): (r: Run)
    requires ValidBinding(run.state.binding)
    ensures Extends(run, r)
    decreases Level(Offer(key, reference, atOpen)), 0, 0
  {
    if !(0 <= key < |run.state.orders|) then run
    else
      match MatchEvent(run.state, key, run.state.orders[key], reference, atOpen, run.timestamp)
      case None => run
      case Some(e) => Do(Paid(run, e.quantity), advance, Hear(Executed(e)))
  }

  /** Offer a sell that may trade here; an off-open close consumes the bar's stop reference. */
  function DoSellOne(run: Run, advance: Reducer, key: int, reference: real, atOpen: bool): (r: Run)
    requires ValidBinding(run.state.binding) && run.error == None
    ensures Extends(run, r)
    decreases Level(SellOne(key, reference, atOpen)), 0, 0
  {
    if !MaySell(run.state, key, reference, atOpen) then run
    else
      var matched := Do(run, advance, Offer(key, reference, atOpen));
      if Closes(run.state, key) && !atOpen then Consume(matched) else matched
  }

  /** Offer the reference to every sell, in priority. */
  function DoSellAll(run: Run, advance: Reducer, keys: seq<int>, reference: real, atOpen: bool): (r: Run)
    requires ValidBinding(run.state.binding)
    ensures Extends(run, r)
    decreases Level(SellAll(keys, reference, atOpen)), Left(SellAll(keys, reference, atOpen)), 0
  {
    if keys == [] then run
    else Do(Do(run, advance, SellOne(keys[0], reference, atOpen)), advance, SellAll(keys[1..], reference, atOpen))
  }

  /** Observe a price that breaches the stop before anything is matched there. */
  function DoContain(run: Run, advance: Reducer, reference: real): (r: Run)
    requires ValidBinding(run.state.binding)
    ensures Extends(run, r)
    decreases Level(Contain(reference)), 0, 0
  {
    if StopBreached(run.state, reference) && run.state.phase != StoppedHolding
    then Do(run, advance, Price(reference)) else run
  }

  /** Sell, then observe the price. */
  function DoFace(run: Run, advance: Reducer, keys: seq<int>, reference: real, atOpen: bool): (r: Run)
    requires ValidBinding(run.state.binding)
    ensures Extends(run, r)
    decreases Level(Face(keys, reference, atOpen)), 0, 0
  {
    Do(Do(run, advance, SellAll(keys, reference, atOpen)), advance, Price(reference))
  }

  /** Everything a visit does before it buys. */
  function DoTouch(run: Run, advance: Reducer, reference: real, atOpen: bool): (r: Run)
    requires ValidBinding(run.state.binding)
    ensures Extends(run, r)
    decreases Level(Touch(reference, atOpen)), 0, 0
  {
    var contained := Do(run, advance, Contain(reference));
    Do(contained, advance, Face(Working(contained.state.orders), reference, atOpen))
  }

  /**
   Offer the reference to every buy, in priority, until a terminal action
   stands. A buy that leaves the stop breached is contained at once; that
   second visit buys nothing.
   */
  function DoBuyAll(run: Run, advance: Reducer, keys: seq<int>, reference: real, atOpen: bool): (r: Run)
    requires ValidBinding(run.state.binding)
    ensures Extends(run, r)
    decreases Level(BuyAll(keys, reference, atOpen)), Left(BuyAll(keys, reference, atOpen)), 0
  {
    if keys == [] || run.state.terminalAction.Some? || run.state.reconciliationRequired then run
    else BuyNext(run, advance, keys[0], keys[1..], reference, atOpen)
  }

  /** One buy, if it may trade here, and what follows it. */
  function BuyNext(run: Run, advance: Reducer, key: int, rest: seq<int>, reference: real, atOpen: bool): (r: Run)
    requires ValidBinding(run.state.binding)
    ensures Extends(run, r)
    decreases Level(BuyAll(rest, reference, atOpen)), Left(BuyAll(rest, reference, atOpen)), 2
  {
    if !MayBuy(run.state, key, reference, atOpen) then Do(run, advance, BuyAll(rest, reference, atOpen))
    else
      var bought := Do(run, advance, Offer(key, reference, atOpen));
      if bought.error == None && StopBreached(bought.state, reference)
      then Do(bought, advance, Touch(reference, false))
      else Do(bought, advance, BuyAll(rest, reference, atOpen))
  }

  /** The orders in matching priority, as containment leaves them. */
  function Ranking(run: Run, advance: Reducer, reference: real): seq<int>
    requires ValidBinding(run.state.binding)
    decreases Level(Contain(reference)), Left(Contain(reference)), 2
  {
    Working(Do(run, advance, Contain(reference)).state.orders)
  }

  /** One price of the walk; buys follow the ranking the sells followed. */
  function DoVisit(run: Run, advance: Reducer, reference: real, atOpen: bool): (r: Run)
    requires ValidBinding(run.state.binding)
    ensures Extends(run, r)
    decreases Level(Visit(reference, atOpen)), 0, 0
  {
    Do(Do(run, advance, Touch(reference, atOpen)), advance, BuyAll(Ranking(run, advance, reference), reference, atOpen))
  }

  /** Report the orders whose time is up, as the candle found them. */
  function DoExpire(run: Run, advance: Reducer, found: seq<Order>, from: nat): (r: Run)
    requires ValidBinding(run.state.binding)
    ensures Extends(run, r)
    decreases Level(Expire(found, from)), Left(Expire(found, from)), 0
  {
    if from >= |found| then run
    else if !Expires(run.state, found[from]) then Do(run, advance, Expire(found, from + 1))
    else Do(Do(run, advance, See(Expiry(run, found, from))), advance, Expire(found, from + 1))
  }

  /** Offer the last mark to every close still open, as the command found them. */
  function DoCloseOut(run: Run, advance: Reducer, found: seq<Order>, from: nat): (r: Run)
    requires ValidBinding(run.state.binding)
    ensures Extends(run, r)
    decreases Level(CloseOut(found, from)), Left(CloseOut(found, from)), 0
  {
    if from >= |found| then run
    else if ClosesOut(run.state, found[from]) then
      Do(Do(run, advance, Offer(from, run.state.mark.value, false)), advance, CloseOut(found, from + 1))
    else Do(run, advance, CloseOut(found, from + 1))
  }

  // ---------------------------------------------------- one turn at a time

  lemma SeeReceives(run: Run, advance: Reducer, body: Body)
    requires run.error == None
    ensures Extends(Write(run, run.state.(pendingObservation := Some(Received(run, body))), ObservationReceived),
                    DoSee(run, advance, body))
  {
  }

  lemma HearTurns(run: Run, advance: Reducer, body: Body)
    requires ValidBinding(run.state.binding) && run.error == None
    ensures DoHear(run, advance, body) == Do(DoSee(run, advance, body), advance, Drain(ROUNDS))
    ensures Extends(DoSee(run, advance, body), DoHear(run, advance, body))
  {
  }

  lemma PriceTurn(run: Run, advance: Reducer, reference: real)
    requires ValidBinding(run.state.binding) && run.error == None
    ensures DoPrice(run, advance, reference) == DoHear(run, advance, PriceSeen(reference, run.state.barIndex))
  {
  }

  lemma OfferTurn(run: Run, advance: Reducer, key: nat, reference: real, atOpen: bool, e: Event)
    requires ValidBinding(run.state.binding) && run.error == None
    requires key < |run.state.orders|
    requires MatchEvent(run.state, key, run.state.orders[key], reference, atOpen, run.timestamp) == Some(e)
    ensures DoOffer(run, advance, key, reference, atOpen) == DoHear(Paid(run, e.quantity), advance, Executed(e))
  {
  }

  lemma NoOffer(run: Run, advance: Reducer, key: nat, reference: real, atOpen: bool)
    requires ValidBinding(run.state.binding) && run.error == None
    requires key < |run.state.orders|
    requires MatchEvent(run.state, key, run.state.orders[key], reference, atOpen, run.timestamp) == None
    ensures DoOffer(run, advance, key, reference, atOpen) == run
  {
  }

  lemma SaleTurn(run: Run, advance: Reducer, key: int, reference: real, atOpen: bool)
    requires ValidBinding(run.state.binding) && run.error == None
    ensures var matched := DoOffer(run, advance, key, reference, atOpen);
            && DoSellOne(run, advance, key, reference, atOpen)
               == (if !MaySell(run.state, key, reference, atOpen) then run
                   else if Closes(run.state, key) && !atOpen then Consume(matched) else matched)
            && Extends(matched, Consume(matched))
  {
    assert Do(run, advance, Offer(key, reference, atOpen)) == DoOffer(run, advance, key, reference, atOpen);
  }

  lemma FaceTurns(run: Run, advance: Reducer, keys: seq<int>, reference: real, atOpen: bool)
    requires ValidBinding(run.state.binding) && run.error == None
    ensures var sold := Do(run, advance, SellAll(keys, reference, atOpen));
            && (sold.error == None ==>
                  DoFace(run, advance, keys, reference, atOpen) == DoPrice(sold, advance, reference))
            && Extends(sold, DoFace(run, advance, keys, reference, atOpen))
  {
  }

  lemma ContainDone(run: Run, advance: Reducer, reference: real)
    requires ValidBinding(run.state.binding) && run.error == None
    ensures Do(run, advance, Contain(reference)) == DoContain(run, advance, reference)
  {
  }

  lemma FaceDone(run: Run, advance: Reducer, keys: seq<int>, reference: real, atOpen: bool)
    requires ValidBinding(run.state.binding) && run.error == None
    ensures Do(run, advance, Face(keys, reference, atOpen)) == DoFace(run, advance, keys, reference, atOpen)
  {
  }

  lemma TouchTurns(run: Run, advance: Reducer, reference: real, atOpen: bool)
    requires ValidBinding(run.state.binding) && run.error == None
    ensures var contained := DoContain(run, advance, reference);
            var keys := Working(contained.state.orders);
            && (contained.error == None ==>
                  DoTouch(run, advance, reference, atOpen) == DoFace(contained, advance, keys, reference, atOpen))
            && Extends(contained, DoTouch(run, advance, reference, atOpen))
  {
    var contained := DoContain(run, advance, reference);
    var keys := Working(contained.state.orders);
    ContainDone(run, advance, reference);
    if contained.error == None {
      FaceDone(contained, advance, keys, reference, atOpen);
    }
  }

  lemma VisitTurns(run: Run, advance: Reducer, reference: real, atOpen: bool)
    requires ValidBinding(run.state.binding) && run.error == None
    ensures var touched := DoTouch(run, advance, reference, atOpen);
            var keys := Working(DoContain(run, advance, reference).state.orders);
            && DoVisit(run, advance, reference, atOpen) == Do(touched, advance, BuyAll(keys, reference, atOpen))
            && Extends(touched, DoVisit(run, advance, reference, atOpen))
  {
    assert Do(run, advance, Touch(reference, atOpen)) == DoTouch(run, advance, reference, atOpen);
    assert Do(run, advance, Contain(reference)) == DoContain(run, advance, reference);
  }

  lemma BuyNextTurns(run: Run, advance: Reducer, key: int, rest: seq<int>, reference: real, atOpen: bool)
    requires ValidBinding(run.state.binding) && run.error == None
    requires MayBuy(run.state, key, reference, atOpen)
    ensures var bought := DoOffer(run, advance, key, reference, atOpen);
            var next := BuyNext(run, advance, key, rest, reference, atOpen);
            && Extends(bought, next)
            && (bought.error == None && StopBreached(bought.state, reference) ==>
                  next == Do(bought, advance, Touch(reference, false)))
            && (bought.error == None && !StopBreached(bought.state, reference) ==>
                  next == Do(bought, advance, BuyAll(rest, reference, atOpen)))
  {
    assert Do(run, advance, Offer(key, reference, atOpen)) == DoOffer(run, advance, key, reference, atOpen);
  }

  lemma TouchDone(run: Run, advance: Reducer, reference: real, atOpen: bool)
    requires ValidBinding(run.state.binding) && run.error == None
    ensures Do(run, advance, Touch(reference, atOpen)) == DoTouch(run, advance, reference, atOpen)
  {
  }

  lemma VisitDone(run: Run, advance: Reducer, reference: real, atOpen: bool)
    requires ValidBinding(run.state.binding) && run.error == None
    ensures Do(run, advance, Visit(reference, atOpen)) == DoVisit(run, advance, reference, atOpen)
  {
  }

  lemma ExpireEnds(run: Run, advance: Reducer, found: seq<Order>)
    requires ValidBinding(run.state.binding) && run.error == None
    ensures Do(run, advance, Expire(found, |found|)) == run
  {
    assert Do(run, advance, Expire(found, |found|)) == DoExpire(run, advance, found, |found|);
  }

  lemma CloseOutEnds(run: Run, advance: Reducer, found: seq<Order>)
    requires ValidBinding(run.state.binding) && run.error == None
    ensures Do(run, advance, CloseOut(found, |found|)) == run
  {
    assert Do(run, advance, CloseOut(found, |found|)) == DoCloseOut(run, advance, found, |found|);
  }

  lemma OfferDone(run: Run, advance: Reducer, key: int, reference: real, atOpen: bool)
    requires ValidBinding(run.state.binding) && run.error == None
    ensures Do(run, advance, Offer(key, reference, atOpen)) == DoOffer(run, advance, key, reference, atOpen)
  {
  }

  lemma OutTurns(run: Run, advance: Reducer)
    requires ValidBinding(run.state.binding) && run.error == None
    ensures RunOut(run, advance)
         == if run.state.binding.endOfData == StopAndFlatten && !run.state.reconciliationRequired
            then Do(run, advance, CloseOut(run.state.orders, 0)) else run
  {
  }

  lemma DrainTurn(run: Run, advance: Reducer, rounds: nat)
    requires ValidBinding(run.state.binding) && run.error == None && rounds > 0
    ensures var reply := NextReply(run.state, run.timestamp);
            Do(run, advance, Drain(rounds))
            == if reply == None then run else Do(Do(run, advance, See(reply.value)), advance, Drain(rounds - 1))
  {
    assert Do(run, advance, Drain(rounds)) == DoDrain(run, advance, rounds);
  }

  lemma DrainEnds(run: Run, advance: Reducer)
    requires ValidBinding(run.state.binding) && run.error == None
    ensures Do(run, advance, Drain(0)) == run.(error := Some(NotConverged))
  {
  }

  lemma SellTurn(run: Run, advance: Reducer, keys: seq<int>, n: nat, reference: real, atOpen: bool)
    requires ValidBinding(run.state.binding) && run.error == None && n <= |keys|
    ensures Do(run, advance, SellAll(keys[n..], reference, atOpen))
         == if n == |keys| then run
            else Do(DoSellOne(run, advance, keys[n], reference, atOpen), advance,
                    SellAll(keys[n + 1..], reference, atOpen))
  {
    var rest := keys[n..];
    assert Do(run, advance, SellAll(rest, reference, atOpen)) == DoSellAll(run, advance, rest, reference, atOpen);
    if n < |keys| {
      assert rest[0] == keys[n] && rest[1..] == keys[n + 1..];
      assert Do(run, advance, SellOne(keys[n], reference, atOpen)) == DoSellOne(run, advance, keys[n], reference, atOpen);
    }
  }

  lemma BuyTurns(run: Run, advance: Reducer, keys: seq<int>, n: nat, reference: real, atOpen: bool)
    requires ValidBinding(run.state.binding) && run.error == None && n <= |keys|
    ensures Do(run, advance, BuyAll(keys[n..], reference, atOpen))
         == if n == |keys| || run.state.terminalAction.Some? || run.state.reconciliationRequired then run
            else BuyNext(run, advance, keys[n], keys[n + 1..], reference, atOpen)
  {
    var rest := keys[n..];
    assert Do(run, advance, BuyAll(rest, reference, atOpen)) == DoBuyAll(run, advance, rest, reference, atOpen);
    if n < |keys| {
      assert rest[0] == keys[n] && rest[1..] == keys[n + 1..];
    }
  }

  lemma ExpireTurn(run: Run, advance: Reducer, found: seq<Order>, n: nat)
    requires ValidBinding(run.state.binding) && run.error == None && n < |found|
    ensures Do(run, advance, Expire(found, n))
         == if Expires(run.state, found[n])
            then Do(DoSee(run, advance, Expiry(run, found, n)), advance, Expire(found, n + 1))
            else Do(run, advance, Expire(found, n + 1))
  {
    assert Do(run, advance, Expire(found, n)) == DoExpire(run, advance, found, n);
    if Expires(run.state, found[n]) {
      assert Do(run, advance, See(Expiry(run, found, n))) == DoSee(run, advance, Expiry(run, found, n));
    }
  }

  lemma CloseOutTurn(run: Run, advance: Reducer, found: seq<Order>, n: nat)
    requires ValidBinding(run.state.binding) && run.error == None && n < |found|
    ensures Do(run, advance, CloseOut(found, n))
         == if ClosesOut(run.state, found[n])
            then Do(DoOffer(run, advance, n, run.state.mark.value, false), advance, CloseOut(found, n + 1))
            else Do(run, advance, CloseOut(found, n + 1))
  {
    assert Do(run, advance, CloseOut(found, n)) == DoCloseOut(run, advance, found, n);
    if ClosesOut(run.state, found[n]) {
      OfferDone(run, advance, n, run.state.mark.value, false);
    }
  }

  // ------------------------------------------------------ committed states

  /** The run stands at the state its own records lead to. */
  ghost predicate Stands(origin: State, run: Run) {
    run.state == At(origin, run.journal, |run.journal|)
  }

  lemma StandsExtends(origin: State, run: Run, r: Run)
    requires Stands(origin, run) && Extends(run, r)
    ensures Stands(origin, r)
    ensures At(origin, r.journal, |run.journal|) == run.state
  {
  }

  // ------------------------------------------------------------- candles

  function Allowance(binding: Binding, c: Candle): real {
    c.volume * binding.policy.participation
  }

  /** The state a new candle starts from: a fresh allowance, nothing used. */
  function Opened(s: State, c: Candle): State {
    s.(barIndex := s.barIndex + 1, barInProgress := true, lastCandle := Some(c),
       liquidityAllowance := Allowance(s.binding, c), liquidityUsed := 0.0)
  }

  /** Report every order whose time is up, then drain. */
  function Prepared(run: Run, advance: Reducer): (r: Run)
    requires ValidBinding(run.state.binding)
    ensures Extends(run, r)
  {
    Do(Do(run, advance, Expire(run.state.orders, 0)), advance, Drain(ROUNDS))
  }

  /** Journal the candle, then what is due before its first price. */
  function Open(run: Run, advance: Reducer, c: Candle): (r: Run)
    requires ValidBinding(run.state.binding) && run.error == None
    ensures Extends(run.(timestamp := c.timestamp), r)
  {
    Prepared(Write(run.(timestamp := c.timestamp), Opened(run.state, c), CandleReceived), advance)
  }

  function BarEnded(s: State): State {
    s.(barInProgress := false)
  }

  /** What the closed-bar observation and the end of the bar write. */
  function Ended(run: Run, advance: Reducer, c: Candle): (r: Run)
    requires ValidBinding(run.state.binding)
    ensures Extends(run, r)
  {
    var closed := DoHear(run, advance, ClosedBar(run.state.barIndex, c.close));
    Write(closed, BarEnded(closed.state), CandleProcessed)
  }

  /** Observe the close once more, then end the bar. */
  function Shut(run: Run, advance: Reducer, c: Candle): (r: Run)
    requires ValidBinding(run.state.binding)
    ensures Extends(run, r) && Extends(DoPrice(run, advance, c.close), r)
  {
    Ended(DoPrice(run, advance, c.close), advance, c)
  }

  /** A leg: the visits to its points, in turn. */
  function Walked(run: Run, advance: Reducer, points: seq<real>): (r: Run)
    requires ValidBinding(run.state.binding)
    ensures Extends(run, r)
    decreases |points|
  {
    if points == [] then run
    else Walked(Do(run, advance, Visit(points[0], false)), advance, points[1..])
  }

  /** The three legs of a candle, as the points each of them visits. */
  datatype Path = Path(falls: seq<real>, rises: seq<real>, settles: seq<real>)

  function Legs(run: Run, advance: Reducer, path: Path): (r: Run)
    requires ValidBinding(run.state.binding)
    ensures Extends(run, r)
  {
    Walked(Walked(Walked(run, advance, path.falls), advance, path.rises), advance, path.settles)
  }

  /** The open, then the three legs. */
  function Strolled(run: Run, advance: Reducer, c: Candle, path: Path): (r: Run)
    requires ValidBinding(run.state.binding)
    ensures Extends(run, r) && Extends(Do(run, advance, Visit(c.open, true)), r)
  {
    Legs(Do(run, advance, Visit(c.open, true)), advance, path)
  }

  /** From an opened candle to its end: open, low, high, close. */
  function Traded(run: Run, advance: Reducer, c: Candle, path: Path): (r: Run)
    requires ValidBinding(run.state.binding)
    ensures Extends(run, r) && Extends(Strolled(run, advance, c, path), r)
  {
    Shut(Strolled(run, advance, c, path), advance, c)
  }

  /** Short of `end`, the live order book leads from `cursor` to `next`. */
  ghost predicate Heads(s: State, cursor: real, end: real, next: real) {
    cursor != end && IsNext(s, cursor, end, next)
  }

  /**
   `points` are the prices visited from `cursor` to `stop` on the way to
   `end`: each is the first crossing in the state the visit before it left.
   */
  ghost predicate Leads(run: Run, advance: Reducer, cursor: real, end: real, points: seq<real>, stop: real)
    requires ValidBinding(run.state.binding)
    decreases |points|
  {
    if points == [] then cursor == stop
    else
      && Heads(run.state, cursor, end, points[0])
      && Leads(Do(run, advance, Visit(points[0], false)), advance, points[0], end, points[1..], stop)
  }

  lemma {:induction false} WalkedOnward(run: Run, advance: Reducer, points: seq<real>, next: real)
    requires ValidBinding(run.state.binding)
    ensures Walked(run, advance, points + [next]) == Do(Walked(run, advance, points), advance, Visit(next, false))
    decreases |points|
  {
    if points == [] {
      assert (points + [next])[1..] == [];
    } else {
      WalkedOnward(Do(run, advance, Visit(points[0], false)), advance, points[1..], next);
      assert (points + [next])[1..] == points[1..] + [next];
    }
  }

  lemma {:induction false} LeadsOnward(
    run: Run, advance: Reducer, cursor: real, end: real, points: seq<real>, stop: real, next: real)
    requires ValidBinding(run.state.binding)
    requires Leads(run, advance, cursor, end, points, stop)
    requires Heads(Walked(run, advance, points).state, stop, end, next)
    ensures Leads(run, advance, cursor, end, points + [next], next)
    decreases |points|
  {
    if points == [] {
      assert (points + [next])[1..] == [];
    } else {
      LeadsOnward(Do(run, advance, Visit(points[0], false)), advance, points[0], end, points[1..], stop, next);
      assert (points + [next])[1..] == points[1..] + [next];
    }
  }

  /** The points of every leg of a candle are the ones the live order book dictates. */
  ghost predicate Follow(run: Run, advance: Reducer, c: Candle, path: Path)
    requires ValidBinding(run.state.binding)
  {
    var low := Walked(run, advance, path.falls);
    var high := Walked(low, advance, path.rises);
    && Leads(run, advance, c.open, c.low, path.falls, c.low)
    && Leads(low, advance, c.low, c.high, path.rises, c.high)
    && Leads(high, advance, c.high, c.close, path.settles, c.close)
  }

  /** What the terminal command at the end of the data still sells at the last mark. */
  function RunOut(run: Run, advance: Reducer): (r: Run)
    requires ValidBinding(run.state.binding)
    ensures Extends(run, r)
  {
    if run.state.binding.endOfData == StopAndFlatten && !run.state.reconciliationRequired
    then Do(run, advance, CloseOut(run.state.orders, 0)) else run
  }

  function Final(s: State): State {
    s.(finished := true)
  }

  /** The end of the data is journaled last. */
  function Sealed(run: Run): (r: Run)
    ensures Extends(run, r)
  {
    Write(run, Final(run.state), EndOfData)
  }
}
