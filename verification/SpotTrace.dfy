/**
 What the journal of a candle shows. The prices a session visited are the ones
 its journal says it observed; the state a step of the walk was chosen in is
 the one committed by the records before it.
 */
module SpotTrace {
  import opened Wrappers
  import opened Rounding
  import opened SpotTypes
  import opened SpotMatching
  import opened SpotEngine
  import opened SpotJournal
  import opened SpotWalk
  import opened SpotLane
  import opened SpotFills

  // ------------------------------------------------------ observed prices

  /** The price a record says is being observed. */
  function PriceOf(r: Record): Option<real> {
    if r.unsigned.kind == ObservationReceived && r.unsigned.doc.pendingObservation.Some?
       && r.unsigned.doc.pendingObservation.value.body.PriceSeen?
    then Some(r.unsigned.doc.pendingObservation.value.body.price)
    else None
  }

  /** From record `i` up to record `j`, no price but `p` is observed. */
  ghost predicate SeesOnly(journal: seq<Record>, i: nat, j: nat, p: Option<real>) {
    j <= |journal| && forall k | i <= k < j :: PriceOf(journal[k]).Some? ==> PriceOf(journal[k]) == p
  }

  /** From record `i` up to record `j`, the price `p` is observed, and no other. */
  ghost predicate Saw(journal: seq<Record>, i: nat, j: nat, p: real) {
    && i <= j
    && SeesOnly(journal, i, j, Some(p))
    && exists k :: i <= k < j && PriceOf(journal[k]) == Some(p)
  }

  /** `p` after `s`, unless `s` already ends with it. */
  function Joined(s: seq<real>, p: real): seq<real> {
    if s != [] && s[|s| - 1] == p then s else s + [p]
  }

  /** The prices observed from record `from` up to record `until`, repeats dropped. */
  function Visited(journal: seq<Record>, from: nat, until: nat): seq<real>
    requires from <= until <= |journal|
    decreases until
  {
    if from == until then []
    else
      var before := Visited(journal, from, until - 1);
      match PriceOf(journal[until - 1])
      case None => before
      case Some(p) => Joined(before, p)
  }

  lemma {:induction false} VisitedNext(journal: seq<Record>, from: nat, mid: nat, until: nat, p: real)
    requires from <= mid <= until <= |journal| && SeesOnly(journal, mid, until, Some(p))
    ensures (forall k | mid <= k < until :: PriceOf(journal[k]) == None) ==>
              Visited(journal, from, until) == Visited(journal, from, mid)
    ensures (exists k :: mid <= k < until && PriceOf(journal[k]) == Some(p)) ==>
              Visited(journal, from, until) == Joined(Visited(journal, from, mid), p)
    decreases until
  {
    if mid < until {
      VisitedNext(journal, from, mid, until - 1, p);
    }
  }

  // ------------------------------------------------- what a move observes

  /** The only price a move may observe. */
  function Sight(m: Move): Option<real> {
    match m
    case See(body) => if body.PriceSeen? then Some(body.price) else None
    case Hear(body) => if body.PriceSeen? then Some(body.price) else None
    case Price(p) => Some(p)
    case Contain(p) => Some(p)
    case Face(_, p, _) => Some(p)
    case Touch(p, _) => Some(p)
    case BuyAll(_, p, _) => Some(p)
    case Visit(p, _) => Some(p)
    case _ => None
  }

  ghost predicate Looks(run: Run, r: Run, p: Option<real>) {
    run.journal <= r.journal && SeesOnly(r.journal, |run.journal|, |r.journal|, p)
  }

  lemma LooksThen(a: Run, b: Run, c: Run, p: Option<real>)
    requires Looks(a, b, p) || Looks(a, b, None)
    requires Looks(b, c, p) || Looks(b, c, None)
    ensures Looks(a, c, p)
  {
    forall k | |a.journal| <= k < |c.journal|
      ensures PriceOf(c.journal[k]).Some? ==> PriceOf(c.journal[k]) == p
    {
      if k < |b.journal| {
        assert c.journal[k] == b.journal[k];
      }
    }
  }

  lemma SeeLooks(run: Run, advance: Reducer, body: Body)
    requires run.error == None
    ensures var r := DoSee(run, advance, body);
            && Looks(run, r, Sight(See(body)))
            && |r.journal| > |run.journal|
            && PriceOf(r.journal[|run.journal|]) == Sight(See(body))
  {
  }

  function Later(a: int, b: int): int {
    if a < b then b else a
  }

  lemma OfferLooks(run: Run, advance: Reducer, key: int, p: real, atOpen: bool)
    requires ValidBinding(run.state.binding) && run.error == None
    ensures Looks(run, DoOffer(run, advance, key, p, atOpen), None)
    decreases Level(Offer(key, p, atOpen)), 0, 0
  {
    if 0 <= key < |run.state.orders| {
      var event := MatchEvent(run.state, key, run.state.orders[key], p, atOpen, run.timestamp);
      if event.Some? {
        PaidLooks(run, advance, event.value);
        OfferTurn(run, advance, key, p, atOpen, event.value);
      }
    }
  }

  lemma PaidLooks(run: Run, advance: Reducer, e: Event)
    requires ValidBinding(run.state.binding) && run.error == None
    ensures Looks(run, DoHear(Paid(run, e.quantity), advance, Executed(e)), None)
    decreases Level(Hear(Executed(e))), 0, 2
  {
    var paid := Paid(run, e.quantity);
    DoLooks(paid, advance, Hear(Executed(e)));
    LooksThen(run, paid, Do(paid, advance, Hear(Executed(e))), None);
  }

  lemma SellOneLooks(run: Run, advance: Reducer, key: int, p: real, atOpen: bool)
    requires ValidBinding(run.state.binding) && run.error == None
    ensures Looks(run, DoSellOne(run, advance, key, p, atOpen), None)
    decreases Level(SellOne(key, p, atOpen)), 0, 0
  {
    var matched := Do(run, advance, Offer(key, p, atOpen));
    DoLooks(run, advance, Offer(key, p, atOpen));
    LooksThen(run, matched, Consume(matched), None);
  }

  lemma BuyAllLooks(run: Run, advance: Reducer, keys: seq<int>, p: real, atOpen: bool)
    requires ValidBinding(run.state.binding) && run.error == None
    ensures Looks(run, DoBuyAll(run, advance, keys, p, atOpen), Some(p))
    decreases Level(BuyAll(keys, p, atOpen)), Left(BuyAll(keys, p, atOpen)), 0
  {
    if keys != [] {
      BuyNextLooks(run, advance, keys[0], keys[1..], p, atOpen);
    }
  }

  lemma BuyNextLooks(run: Run, advance: Reducer, key: int, rest: seq<int>, p: real, atOpen: bool)
    requires ValidBinding(run.state.binding) && run.error == None
    ensures Looks(run, BuyNext(run, advance, key, rest, p, atOpen), Some(p))
    decreases Level(BuyAll(rest, p, atOpen)), Left(BuyAll(rest, p, atOpen)), 3
  {
    ThenLooks(run, advance, Offer(key, p, atOpen), BuyAll(rest, p, atOpen), Some(p));
    ThenLooks(run, advance, Offer(key, p, atOpen), Touch(p, false), Some(p));
    DoLooks(run, advance, BuyAll(rest, p, atOpen));
  }

  lemma VisitLooks(run: Run, advance: Reducer, p: real, atOpen: bool)
    requires ValidBinding(run.state.binding) && run.error == None
    ensures Looks(run, DoVisit(run, advance, p, atOpen), Some(p))
    decreases Level(Visit(p, atOpen)), 0, 0
  {
    var keys := Working(Do(run, advance, Contain(p)).state.orders);
    ThenLooks(run, advance, Touch(p, atOpen), BuyAll(keys, p, atOpen), Some(p));
  }

  lemma ExpireLooks(run: Run, advance: Reducer, found: seq<Order>, from: nat)
    requires ValidBinding(run.state.binding) && run.error == None
    ensures Looks(run, DoExpire(run, advance, found, from), None)
    decreases Level(Expire(found, from)), Left(Expire(found, from)), 0
  {
    if from < |found| {
      ThenLooks(run, advance, See(Expiry(run, found, from)), Expire(found, from + 1), None);
      DoLooks(run, advance, Expire(found, from + 1));
    }
  }

  lemma CloseOutLooks(run: Run, advance: Reducer, found: seq<Order>, from: nat)
    requires ValidBinding(run.state.binding) && run.error == None
    ensures Looks(run, DoCloseOut(run, advance, found, from), None)
    decreases Level(CloseOut(found, from)), Left(CloseOut(found, from)), 0
  {
    if from < |found| {
      DoLooks(run, advance, CloseOut(found, from + 1));
      if run.state.mark.Some? {
        ThenLooks(run, advance, Offer(from, run.state.mark.value, false), CloseOut(found, from + 1), None);
      }
    }
  }

  lemma DrainLooks(run: Run, advance: Reducer, rounds: nat)
    requires ValidBinding(run.state.binding) && run.error == None
    ensures Looks(run, DoDrain(run, advance, rounds), None)
    decreases Level(Drain(rounds)), Left(Drain(rounds)), 0
  {
    var reply := NextReply(run.state, run.timestamp);
    if rounds > 0 && reply.Some? {
      ThenLooks(run, advance, See(reply.value), Drain(rounds - 1), None);
    }
  }

  lemma SellAllLooks(run: Run, advance: Reducer, keys: seq<int>, p: real, atOpen: bool)
    requires ValidBinding(run.state.binding) && run.error == None
    ensures Looks(run, DoSellAll(run, advance, keys, p, atOpen), None)
    decreases Level(SellAll(keys, p, atOpen)), Left(SellAll(keys, p, atOpen)), 0
  {
    if keys != [] {
      ThenLooks(run, advance, SellOne(keys[0], p, atOpen), SellAll(keys[1..], p, atOpen), None);
    }
  }

  lemma TouchLooks(run: Run, advance: Reducer, p: real, atOpen: bool)
    requires ValidBinding(run.state.binding) && run.error == None
    ensures Looks(run, DoTouch(run, advance, p, atOpen), Some(p))
    decreases Level(Touch(p, atOpen)), 0, 0
  {
    var keys := Working(Do(run, advance, Contain(p)).state.orders);
    ThenLooks(run, advance, Contain(p), Face(keys, p, atOpen), Some(p));
  }

  lemma TalkLooks(run: Run, advance: Reducer, move: Move)
    requires ValidBinding(run.state.binding) && run.error == None
    requires move.See? || move.Hear? || move.Price? || move.Contain? || move.Face?
    ensures Looks(run, Do(run, advance, move), Sight(move))
    decreases Level(move), Left(move), 0
  {
    match move
    case See(body) => SeeLooks(run, advance, body);
    case Hear(body) => ThenLooks(run, advance, See(body), Drain(ROUNDS), Sight(See(body)));
    case Price(p) => DoLooks(run, advance, Hear(PriceSeen(p, run.state.barIndex)));
    case Contain(p) => DoLooks(run, advance, Price(p));
    case Face(keys, p, atOpen) => ThenLooks(run, advance, SellAll(keys, p, atOpen), Price(p), Some(p));
  }

  /** Whatever it writes, a move observes no price but its own. */
  lemma {:induction false} DoLooks(run: Run, advance: Reducer, move: Move)
    requires ValidBinding(run.state.binding)
    ensures Looks(run, Do(run, advance, move), Sight(move))
    decreases Level(move), Left(move), 1
  {
    if run.error == None {
      match move
      case Drain(rounds) => DrainLooks(run, advance, rounds);
      case Offer(key, p, atOpen) => OfferLooks(run, advance, key, p, atOpen);
      case SellOne(key, p, atOpen) => SellOneLooks(run, advance, key, p, atOpen);
      case SellAll(keys, p, atOpen) => SellAllLooks(run, advance, keys, p, atOpen);
      case Touch(p, atOpen) => TouchLooks(run, advance, p, atOpen);
      case BuyAll(keys, p, atOpen) => BuyAllLooks(run, advance, keys, p, atOpen);
      case Visit(p, atOpen) => VisitLooks(run, advance, p, atOpen);
      case Expire(found, from) => ExpireLooks(run, advance, found, from);
      case CloseOut(found, from) => CloseOutLooks(run, advance, found, from);
      case _ => TalkLooks(run, advance, move);
    }
  }

  /** Two moves in a row observe no price but `p` when neither does. */
  lemma ThenLooks(run: Run, advance: Reducer, first: Move, second: Move, p: Option<real>)
    requires ValidBinding(run.state.binding)
    requires Sight(first) in {None, p} && Sight(second) in {None, p}
    ensures Looks(run, Do(Do(run, advance, first), advance, second), p)
    decreases Later(Level(first), Level(second)), Later(Left(first), Left(second)), 2
  {
    DoLooks(run, advance, first);
    DoLooks(Do(run, advance, first), advance, second);
    LooksThen(run, Do(run, advance, first), Do(Do(run, advance, first), advance, second), p);
  }

  // --------------------------------------------------- the price is observed

  /** `r` observed `p` after `run`, and nothing else. */
  ghost predicate SawSince(run: Run, r: Run, p: real) {
    run.journal <= r.journal && Saw(r.journal, |run.journal|, |r.journal|, p)
  }

  lemma SawThen(a: Run, b: Run, c: Run, p: real)
    requires Looks(a, b, Some(p)) && Looks(b, c, Some(p))
    requires SawSince(a, b, p) || SawSince(b, c, p)
    ensures SawSince(a, c, p)
  {
    LooksThen(a, b, c, Some(p));
    if SawSince(a, b, p) {
      var k :| |a.journal| <= k < |b.journal| && PriceOf(b.journal[k]) == Some(p);
      assert c.journal[k] == b.journal[k];
    } else {
      var k :| |b.journal| <= k < |c.journal| && PriceOf(c.journal[k]) == Some(p);
    }
  }

  lemma SeeIsSeen(run: Run, advance: Reducer, p: real, bar: int)
    requires ValidBinding(run.state.binding) && run.error == None
    ensures SawSince(run, Do(run, advance, See(PriceSeen(p, bar))), p)
  {
    SeeLooks(run, advance, PriceSeen(p, bar));
  }

  lemma HearIsSeen(run: Run, advance: Reducer, p: real, bar: int)
    requires ValidBinding(run.state.binding) && run.error == None
    ensures SawSince(run, DoHear(run, advance, PriceSeen(p, bar)), p)
  {
    var seen := Do(run, advance, See(PriceSeen(p, bar)));
    SeeIsSeen(run, advance, p, bar);
    DoLooks(seen, advance, Drain(ROUNDS));
    SawThen(run, seen, Do(seen, advance, Drain(ROUNDS)), p);
  }

  lemma PriceIsSeen(run: Run, advance: Reducer, p: real)
    requires ValidBinding(run.state.binding) && run.error == None
    ensures SawSince(run, DoPrice(run, advance, p), p)
  {
    HearIsSeen(run, advance, p, run.state.barIndex);
  }

  lemma FaceIsSeen(run: Run, advance: Reducer, keys: seq<int>, p: real, atOpen: bool)
    requires ValidBinding(run.state.binding)
    requires DoFace(run, advance, keys, p, atOpen).error == None
    ensures SawSince(run, DoFace(run, advance, keys, p, atOpen), p)
  {
    var sold := Do(run, advance, SellAll(keys, p, atOpen));
    DoLooks(run, advance, SellAll(keys, p, atOpen));
    PriceIsSeen(sold, advance, p);
    SawThen(run, sold, DoPrice(sold, advance, p), p);
  }

  lemma TouchIsSeen(run: Run, advance: Reducer, p: real, atOpen: bool)
    requires ValidBinding(run.state.binding) && run.error == None
    requires DoTouch(run, advance, p, atOpen).error == None
    ensures SawSince(run, DoTouch(run, advance, p, atOpen), p)
  {
    var contained := DoContain(run, advance, p);
    var keys := Working(contained.state.orders);
    TouchTurns(run, advance, p, atOpen);
    DoLooks(run, advance, Contain(p));
    FaceIsSeen(contained, advance, keys, p, atOpen);
    SawThen(run, contained, DoFace(contained, advance, keys, p, atOpen), p);
  }

  lemma BuysAreSeen(run: Run, touched: Run, advance: Reducer, keys: seq<int>, p: real, atOpen: bool)
    requires ValidBinding(touched.state.binding) && SawSince(run, touched, p)
    ensures SawSince(run, Do(touched, advance, BuyAll(keys, p, atOpen)), p)
  {
    DoLooks(touched, advance, BuyAll(keys, p, atOpen));
    SawThen(run, touched, Do(touched, advance, BuyAll(keys, p, atOpen)), p);
  }

  /** A visit that ends well has observed its price. */
  lemma VisitIsSeen(run: Run, advance: Reducer, p: real, atOpen: bool)
    requires ValidBinding(run.state.binding) && run.error == None
    requires DoVisit(run, advance, p, atOpen).error == None
    ensures SawSince(run, DoVisit(run, advance, p, atOpen), p)
  {
    var touched := DoTouch(run, advance, p, atOpen);
    var keys := Working(DoContain(run, advance, p).state.orders);
    VisitTurns(run, advance, p, atOpen);
    TouchIsSeen(run, advance, p, atOpen);
    BuysAreSeen(run, touched, advance, keys, p, atOpen);
  }

  lemma VisitUnfolds(run: Run, advance: Reducer, p: real, atOpen: bool, r: Run)
    requires ValidBinding(run.state.binding)
    requires r == Do(run, advance, Visit(p, atOpen)) && r.error == None
    ensures r == DoVisit(run, advance, p, atOpen)
  {
  }

  lemma VisitSeen(run: Run, advance: Reducer, p: real, atOpen: bool, r: Run)
    requires ValidBinding(run.state.binding)
    requires r == Do(run, advance, Visit(p, atOpen)) && r.error == None
    ensures SawSince(run, r, p)
  {
    VisitUnfolds(run, advance, p, atOpen, r);
    VisitIsSeen(run, advance, p, atOpen);
  }

  // ------------------------------------------------------------- one leg

  /**
   A leg as the journal shows it. `points` are the prices, `cuts[i]` is how
   many records were written when the step away from `points[i]` was chosen.
   */
  datatype Passage = Passage(points: seq<real>, cuts: seq<nat>)

  ghost predicate Shaped(leg: Passage, journal: seq<Record>) {
    && |leg.points| == |leg.cuts| > 0
    && forall i | 0 <= i < |leg.cuts| :: leg.cuts[i] <= |journal|
  }

  function Last(leg: Passage): nat
    requires |leg.cuts| > 0
  {
    leg.cuts[|leg.cuts| - 1]
  }

  /** One step: chosen in the committed state, then its price observed and no other, and its orders served. */
  ghost predicate StepIn(origin: State, journal: seq<Record>, leg: Passage, end: real, i: nat)
    requires Shaped(leg, journal) && i + 1 < |leg.points|
  {
    && Heads(At(origin, journal, leg.cuts[i]), leg.points[i], end, leg.points[i + 1])
    && Saw(journal, leg.cuts[i], leg.cuts[i + 1], leg.points[i + 1])
    && Serves(origin, journal, leg.cuts[i], leg.cuts[i + 1], Place(leg.points[i + 1], false))
  }

  ghost predicate LegIn(origin: State, journal: seq<Record>, leg: Passage, start: real, end: real) {
    && Shaped(leg, journal)
    && leg.points[0] == start && leg.points[|leg.points| - 1] == end
    && forall i: nat | i + 1 < |leg.points| :: StepIn(origin, journal, leg, end, i)
  }

  lemma SawLater(journal: seq<Record>, more: seq<Record>, i: nat, j: nat, p: real)
    requires Saw(journal, i, j, p) && journal <= more
    ensures Saw(more, i, j, p)
  {
    var k :| i <= k < j && PriceOf(journal[k]) == Some(p);
    assert PriceOf(more[k]) == Some(p);
    forall k | i <= k < j ensures PriceOf(more[k]).Some? ==> PriceOf(more[k]) == Some(p) {
      assert more[k] == journal[k];
    }
  }

  lemma Prepended(
    origin: State, journal: seq<Record>, cursor: real, cut: nat, rest: Passage, next: real, end: real)
    requires LegIn(origin, journal, rest, next, end) && cut <= |journal|
    requires Heads(At(origin, journal, cut), cursor, end, next)
    requires Saw(journal, cut, rest.cuts[0], next)
    requires Serves(origin, journal, cut, rest.cuts[0], Place(next, false))
    ensures LegIn(origin, journal, Passage([cursor] + rest.points, [cut] + rest.cuts), cursor, end)
  {
    var leg := Passage([cursor] + rest.points, [cut] + rest.cuts);
    forall i: nat | i + 1 < |leg.points| ensures StepIn(origin, journal, leg, end, i) {
      if i > 0 {
        assert StepIn(origin, journal, rest, end, i - 1);
      }
    }
  }

  lemma WalkStep(
    origin: State, run: Run, advance: Reducer, cursor: real, end: real, points: seq<real>, last: Run, final: seq<Record>)
    returns (next: Run)
    requires ValidBinding(run.state.binding) && points != []
    requires Leads(run, advance, cursor, end, points, end) && Stands(origin, run)
    requires last == Walked(run, advance, points) && last.error == None && last.journal <= final
    ensures ValidBinding(next.state.binding) && Stands(origin, next)
    ensures Serves(origin, final, |run.journal|, |next.journal|, Place(points[0], false))
    ensures next.journal <= last.journal && SawSince(run, next, points[0])
    ensures Heads(run.state, cursor, end, points[0])
    ensures last == Walked(next, advance, points[1..]) && Leads(next, advance, points[0], end, points[1..], end)
  {
    next := Do(run, advance, Visit(points[0], false));
    VisitSeen(run, advance, points[0], false, next);
    VisitServes(origin, run, advance, Place(points[0], false), next, final);
    StandsExtends(origin, run, next);
  }

  lemma StepPassage(
    origin: State, run: Run, next: Run, cursor: real, end: real, rest: Passage, final: seq<Record>)
    returns (leg: Passage)
    requires Stands(origin, run) && rest.points != []
    requires Heads(run.state, cursor, end, rest.points[0])
    requires SawSince(run, next, rest.points[0]) && next.journal <= final
    requires Serves(origin, final, |run.journal|, |next.journal|, Place(rest.points[0], false))
    requires LegIn(origin, final, rest, rest.points[0], end) && rest.cuts[0] == |next.journal|
    ensures LegIn(origin, final, leg, cursor, end)
    ensures leg.cuts[0] == |run.journal| && Last(leg) == Last(rest)
  {
    leg := Passage([cursor] + rest.points, [|run.journal|] + rest.cuts);
    SawLater(next.journal, final, |run.journal|, |next.journal|, rest.points[0]);
    Prepended(origin, final, cursor, |run.journal|, rest, rest.points[0], end);
  }

  /** The points a leg is led along are the ones its journal shows. */
  lemma {:induction false} LeadsPassage(
    origin: State, run: Run, advance: Reducer, cursor: real, end: real, points: seq<real>, last: Run, final: seq<Record>)
    returns (leg: Passage)
    requires ValidBinding(run.state.binding) && Stands(origin, run)
    requires Leads(run, advance, cursor, end, points, end)
    requires last == Walked(run, advance, points) && last.error == None && last.journal <= final
    ensures LegIn(origin, final, leg, cursor, end)
    ensures leg.cuts[0] == |run.journal| && Last(leg) == |last.journal|
    decreases |points|
  {
    if points == [] {
      leg := Passage([cursor], [|run.journal|]);
    } else {
      var next := WalkStep(origin, run, advance, cursor, end, points, last, final);
      var rest := LeadsPassage(origin, next, advance, points[0], end, points[1..], last, final);
      leg := StepPassage(origin, run, next, cursor, end, rest, final);
    }
  }

  // --------------------------------------------------------- whole candle

  /**
   The candle as the journal shows it from record `from` on: the open, a fall
   to the low, a rise to the high, a leg to the close, and the close again.
   Before the open what is overdue expires; the open serves what waits there;
   nothing fills at the close.
   */
  ghost predicate Journey(
    origin: State, journal: seq<Record>, from: nat, c: Candle, falls: Passage, rises: Passage, settles: Passage) {
    && LegIn(origin, journal, falls, c.open, c.low)
    && LegIn(origin, journal, rises, c.low, c.high)
    && LegIn(origin, journal, settles, c.high, c.close)
    && Saw(journal, from, falls.cuts[0], c.open)
    && Fair(journal, from, falls.cuts[0], Some(Place(c.open, true)))
    && Honours(origin, journal, from + 1, falls.cuts[0], Place(c.open, true))
    && from < |journal| && Lapses(origin, journal, from + 1, falls.cuts[0])
    && Last(falls) == rises.cuts[0] && Last(rises) == settles.cuts[0]
    && Saw(journal, Last(settles), |journal|, c.close)
    && Fair(journal, Last(settles), |journal|, None)
  }

  ghost predicate Travelled(origin: State, journal: seq<Record>, from: nat, c: Candle) {
    exists falls, rises, settles :: Journey(origin, journal, from, c, falls, rises, settles)
  }

  lemma OpenLooks(run: Run, advance: Reducer, c: Candle)
    requires ValidBinding(run.state.binding) && run.error == None
    ensures Looks(run, Open(run, advance, c), None)
  {
    var received := Write(run.(timestamp := c.timestamp), Opened(run.state, c), CandleReceived);
    var orders := received.state.orders;
    ThenLooks(received, advance, Expire(orders, 0), Drain(ROUNDS), None);
    LooksThen(run, received, Open(run, advance, c), None);
  }

  lemma EndedLooks(run: Run, advance: Reducer, c: Candle)
    requires ValidBinding(run.state.binding) && run.error == None
    ensures Looks(run, Ended(run, advance, c), None)
  {
    var body := ClosedBar(run.state.barIndex, c.close);
    var closed := DoHear(run, advance, body);
    ThenLooks(run, advance, See(body), Drain(ROUNDS), None);
    LooksThen(run, closed, Ended(run, advance, c), None);
  }

  lemma ShutSees(run: Run, advance: Reducer, c: Candle)
    requires ValidBinding(run.state.binding) && run.error == None
    requires DoPrice(run, advance, c.close).error == None
    ensures SawSince(run, Shut(run, advance, c), c.close)
  {
    var priced := DoPrice(run, advance, c.close);
    PriceIsSeen(run, advance, c.close);
    EndedLooks(priced, advance, c);
    SawThen(run, priced, Ended(priced, advance, c), c.close);
  }

  lemma OpeningSees(run: Run, advance: Reducer, c: Candle)
    requires ValidBinding(run.state.binding) && run.error == None
    requires Do(Open(run, advance, c), advance, Visit(c.open, true)).error == None
    ensures SawSince(run, Do(Open(run, advance, c), advance, Visit(c.open, true)), c.open)
  {
    var ready := Open(run, advance, c);
    OpenLooks(run, advance, c);
    VisitSeen(ready, advance, c.open, true, Do(ready, advance, Visit(c.open, true)));
    SawThen(run, ready, Do(ready, advance, Visit(c.open, true)), c.open);
  }

  lemma UpPassage(origin: State, low: Run, advance: Reducer, c: Candle, path: Path, final: seq<Record>)
    returns (rises: Passage, settles: Passage)
    requires ValidBinding(low.state.binding) && Stands(origin, low)
    requires var high := Walked(low, advance, path.rises);
             && Leads(low, advance, c.low, c.high, path.rises, c.high)
             && Leads(high, advance, c.high, c.close, path.settles, c.close)
             && Walked(high, advance, path.settles).error == None
             && Walked(high, advance, path.settles).journal <= final
    ensures LegIn(origin, final, rises, c.low, c.high)
    ensures LegIn(origin, final, settles, c.high, c.close)
    ensures rises.cuts[0] == |low.journal| && Last(rises) == settles.cuts[0]
    ensures Last(settles) == |Walked(Walked(low, advance, path.rises), advance, path.settles).journal|
  {
    var high := Walked(low, advance, path.rises);
    StandsExtends(origin, low, high);
    rises := LeadsPassage(origin, low, advance, c.low, c.high, path.rises, high, final);
    settles := LeadsPassage(origin, high, advance, c.high, c.close, path.settles, Walked(high, advance, path.settles), final);
  }

  /** The three legs, one after the other, in one journal. */
  lemma LegsPassage(origin: State, run: Run, advance: Reducer, c: Candle, path: Path, final: seq<Record>)
    returns (falls: Passage, rises: Passage, settles: Passage)
    requires ValidBinding(run.state.binding) && Stands(origin, run)
    requires Follow(run, advance, c, path)
    requires Legs(run, advance, path).error == None && Legs(run, advance, path).journal <= final
    ensures LegIn(origin, final, falls, c.open, c.low)
    ensures LegIn(origin, final, rises, c.low, c.high)
    ensures LegIn(origin, final, settles, c.high, c.close)
    ensures falls.cuts[0] == |run.journal|
    ensures Last(falls) == rises.cuts[0] && Last(rises) == settles.cuts[0]
    ensures Last(settles) == |Legs(run, advance, path).journal|
  {
    var low := Walked(run, advance, path.falls);
    StandsExtends(origin, run, low);
    rises, settles := UpPassage(origin, low, advance, c, path, final);
    falls := LeadsPassage(origin, run, advance, c.open, c.low, path.falls, low, final);
  }

  lemma OpeningStands(origin: State, run: Run, advance: Reducer, c: Candle)
    requires ValidBinding(run.state.binding) && run.error == None && Stands(origin, run)
    requires Do(Open(run, advance, c), advance, Visit(c.open, true)).error == None
    ensures var met := Do(Open(run, advance, c), advance, Visit(c.open, true));
            Stands(origin, met) && SawSince(run, met, c.open)
  {
    var ready := Open(run, advance, c);
    StandsExtends(origin, run.(timestamp := c.timestamp), ready);
    StandsExtends(origin, ready, Do(ready, advance, Visit(c.open, true)));
    OpeningSees(run, advance, c);
  }

  /** From the visit to the open on, the legs and the close complete the journey. */
  lemma MetTravels(origin: State, run: Run, met: Run, advance: Reducer, c: Candle, path: Path)
    requires ValidBinding(met.state.binding) && Stands(origin, met) && SawSince(run, met, c.open)
    requires Follow(met, advance, c, path) && Legs(met, advance, path).error == None
    requires DoPrice(Legs(met, advance, path), advance, c.close).error == None
    requires var final := Shut(Legs(met, advance, path), advance, c).journal;
             && Fair(final, |run.journal|, |met.journal|, Some(Place(c.open, true)))
             && Honours(origin, final, |run.journal| + 1, |met.journal|, Place(c.open, true))
             && |run.journal| < |final| && Lapses(origin, final, |run.journal| + 1, |met.journal|)
    ensures Travelled(origin, Shut(Legs(met, advance, path), advance, c).journal, |run.journal|, c)
  {
    var walked := Legs(met, advance, path);
    var last := Shut(walked, advance, c);
    SawLater(met.journal, last.journal, |run.journal|, |met.journal|, c.open);
    ShutSees(walked, advance, c);
    ShutTrades(walked, advance, c);
    var falls, rises, settles := LegsPassage(origin, met, advance, c, path, last.journal);
    assert Journey(origin, last.journal, |run.journal|, c, falls, rises, settles);
  }

  /** A candle that is processed to its end shows the whole journey in its journal. */
  lemma BarTravels(origin: State, run: Run, advance: Reducer, c: Candle, path: Path)
    requires ValidBinding(run.state.binding) && run.error == None && Stands(origin, run)
    requires Follow(Do(Open(run, advance, c), advance, Visit(c.open, true)), advance, c, path)
    requires Traded(Open(run, advance, c), advance, c, path).error == None
    ensures Travelled(origin, Traded(Open(run, advance, c), advance, c, path).journal, |run.journal|, c)
  {
    var ready := Open(run, advance, c);
    var met := Do(ready, advance, Visit(c.open, true));
    OpeningStands(origin, run, advance, c);
    OpeningServes(origin, run, advance, c, met, Traded(ready, advance, c, path).journal);
    OpeningLapses(origin, run, advance, c, met, Traded(ready, advance, c, path).journal);
    MetTravels(origin, run, met, advance, c, path);
  }

  // ---------------------------------------------- what the journal shows

  /** The committed states the steps of a leg were chosen in. */
  function ChosenIn(origin: State, journal: seq<Record>, leg: Passage): (chosen: seq<State>)
    requires forall i | 0 <= i < |leg.cuts| :: leg.cuts[i] <= |journal|
    ensures |chosen| == if leg.cuts == [] then 0 else |leg.cuts| - 1
    ensures forall i | 0 <= i < |chosen| :: chosen[i] == At(origin, journal, leg.cuts[i])
  {
    seq(if leg.cuts == [] then 0 else |leg.cuts| - 1,
        i requires 0 <= i < |leg.cuts| => At(origin, journal, leg.cuts[i]))
  }

  lemma LegIsWalk(origin: State, journal: seq<Record>, leg: Passage, start: real, end: real)
    requires LegIn(origin, journal, leg, start, end)
    ensures SpotWalk.Walk(leg.points, ChosenIn(origin, journal, leg), end)
  {
    var chosen := ChosenIn(origin, journal, leg);
    forall i | 0 <= i < |chosen| ensures leg.points[i] != end && IsNext(chosen[i], leg.points[i], end, leg.points[i + 1]) {
      assert StepIn(origin, journal, leg, end, i);
    }
  }

  /**
   No resting limit is jumped over: between two prices a leg visits there is no
   limit that was eligible in the state committed when the step was chosen.
   */
  lemma NoLimitIsJumped(
    origin: State, journal: seq<Record>, leg: Passage, start: real, end: real, i: nat, k: nat, limit: real)
    requires LegIn(origin, journal, leg, start, end) && i + 1 < |leg.points|
    requires Rests(At(origin, journal, leg.cuts[i]), k, limit, end < start)
    ensures !(leg.points[i + 1] < limit < leg.points[i]) && !(leg.points[i] < limit < leg.points[i + 1])
  {
    LegIsWalk(origin, journal, leg, start, end);
    NothingIsSkipped(leg.points, ChosenIn(origin, journal, leg), end, i, k, limit);
  }

  /**
   An order that rests ahead of the price just visited, and stays eligible in
   every committed state a later step of the leg is chosen in, has its own
   limit price observed before the leg ends.
   */
  lemma RestingLimitIsSeen(
    origin: State, journal: seq<Record>, leg: Passage, start: real, end: real, j: nat, k: nat, limit: real)
    requires LegIn(origin, journal, leg, start, end) && j + 1 < |leg.points|
    requires forall i | j <= i < |leg.points| - 1 :: Rests(At(origin, journal, leg.cuts[i]), k, limit, end < start)
    requires Ahead(limit, leg.points[j], end)
    ensures exists n :: leg.cuts[j] <= n < Last(leg) && PriceOf(journal[n]) == Some(limit)
  {
    LegIsWalk(origin, journal, leg, start, end);
    RestingOrderIsVisited(leg.points, ChosenIn(origin, journal, leg), end, j, k, limit);
    var m :| j + 1 <= m < |leg.points| && leg.points[m] == limit;
    PointIsSeen(origin, journal, leg, start, end, j, m);
  }

  lemma PointIsSeen(origin: State, journal: seq<Record>, leg: Passage, start: real, end: real, j: nat, m: nat)
    requires LegIn(origin, journal, leg, start, end) && j < m < |leg.points|
    ensures exists n :: leg.cuts[j] <= n < Last(leg) && PriceOf(journal[n]) == Some(leg.points[m])
  {
    assert StepIn(origin, journal, leg, end, m - 1);
    CutsAscend(origin, journal, leg, start, end, j, m - 1);
    CutsAscend(origin, journal, leg, start, end, m, |leg.cuts| - 1);
  }

  lemma {:induction false} CutsAscend(
    origin: State, journal: seq<Record>, leg: Passage, start: real, end: real, i: nat, j: nat)
    requires LegIn(origin, journal, leg, start, end) && i <= j < |leg.cuts|
    ensures leg.cuts[i] <= leg.cuts[j]
    decreases j
  {
    if i < j {
      CutsAscend(origin, journal, leg, start, end, i, j - 1);
      assert StepIn(origin, journal, leg, end, j - 1);
    }
  }

  /** A strictly monotone run of prices from `start` to `end`. */
  ghost predicate Route(points: seq<real>, start: real, end: real) {
    && |points| > 0 && points[0] == start && points[|points| - 1] == end
    && forall i, j | 0 <= i < j < |points| ::
         if end < start then end <= points[j] < points[i] <= start else start <= points[i] < points[j] <= end
  }

  lemma LegIsRoute(origin: State, journal: seq<Record>, leg: Passage, start: real, end: real)
    requires LegIn(origin, journal, leg, start, end)
    ensures Route(leg.points, start, end)
  {
    var points, chosen := leg.points, ChosenIn(origin, journal, leg);
    LegIsWalk(origin, journal, leg, start, end);
    forall i: nat, j: nat | i < j < |points|
      ensures if end < start then end <= points[j] < points[i] <= start else start <= points[i] < points[j] <= end
    {
      WalkIsMonotone(points, chosen, end, i, j);
    }
  }

  lemma PointsDiffer(origin: State, journal: seq<Record>, leg: Passage, start: real, end: real, m: nat)
    requires LegIn(origin, journal, leg, start, end) && 0 < m < |leg.points|
    ensures leg.points[m - 1] != leg.points[m]
  {
    LegIsRoute(origin, journal, leg, start, end);
  }

  lemma PointVisited(
    origin: State, journal: seq<Record>, leg: Passage, start: real, end: real, from: nat, m: nat, before: seq<real>)
    requires LegIn(origin, journal, leg, start, end) && 0 < m < |leg.points| && from <= leg.cuts[m - 1]
    requires EndsWith(before, start) && Visited(journal, from, leg.cuts[m - 1]) == before + leg.points[1..m]
    ensures from <= leg.cuts[m]
    ensures Visited(journal, from, leg.cuts[m]) == before + leg.points[1..m + 1]
  {
    assert StepIn(origin, journal, leg, end, m - 1);
    PointsDiffer(origin, journal, leg, start, end, m);
    VisitedNext(journal, from, leg.cuts[m - 1], leg.cuts[m], leg.points[m]);
    assert leg.points[1..m + 1] == leg.points[1..m] + [leg.points[m]];
  }

  /** The prices observed up to the `m`-th point of a leg. */
  lemma {:induction false} LegVisits(
    origin: State, journal: seq<Record>, leg: Passage, start: real, end: real, from: nat, m: nat)
    requires LegIn(origin, journal, leg, start, end) && from <= leg.cuts[0] && m < |leg.points|
    requires EndsWith(Visited(journal, from, leg.cuts[0]), start)
    ensures from <= leg.cuts[m]
    ensures Visited(journal, from, leg.cuts[m]) == Visited(journal, from, leg.cuts[0]) + leg.points[1..m + 1]
    decreases m
  {
    if m == 0 {
      assert leg.points[1..1] == [];
    } else {
      LegVisits(origin, journal, leg, start, end, from, m - 1);
      PointVisited(origin, journal, leg, start, end, from, m, Visited(journal, from, leg.cuts[0]));
    }
  }

  predicate EndsWith(s: seq<real>, p: real) {
    s != [] && s[|s| - 1] == p
  }

  lemma WholeLegVisits(origin: State, journal: seq<Record>, leg: Passage, start: real, end: real, from: nat)
    requires LegIn(origin, journal, leg, start, end) && from <= leg.cuts[0]
    requires EndsWith(Visited(journal, from, leg.cuts[0]), start)
    ensures from <= Last(leg)
    ensures Visited(journal, from, Last(leg)) == Visited(journal, from, leg.cuts[0]) + leg.points[1..]
    ensures EndsWith(Visited(journal, from, Last(leg)), end)
  {
    var m := |leg.points| - 1;
    LegVisits(origin, journal, leg, start, end, from, m);
    assert leg.points[1..m + 1] == leg.points[1..];
  }

  /** Prices that fall from the open, rise from the low and settle from the high. */
  ghost predicate Traversed(visited: seq<real>, c: Candle) {
    exists falls, rises, settles ::
      && Route(falls, c.open, c.low) && Route(rises, c.low, c.high) && Route(settles, c.high, c.close)
      && visited == [c.open] + falls[1..] + rises[1..] + settles[1..]
  }

  /** Repeats dropped, the prices a candle observed are its traversal, point by point. */
  lemma JourneyTraverses(
    origin: State, journal: seq<Record>, from: nat, c: Candle, falls: Passage, rises: Passage, settles: Passage)
    requires Journey(origin, journal, from, c, falls, rises, settles) && from <= |journal|
    ensures Traversed(Visited(journal, from, |journal|), c)
  {
    OpeningVisit(journal, from, falls.cuts[0], c.open);
    WholeLegVisits(origin, journal, falls, c.open, c.low, from);
    WholeLegVisits(origin, journal, rises, c.low, c.high, from);
    WholeLegVisits(origin, journal, settles, c.high, c.close, from);
    VisitedNext(journal, from, Last(settles), |journal|, c.close);
    LegIsRoute(origin, journal, falls, c.open, c.low);
    LegIsRoute(origin, journal, rises, c.low, c.high);
    LegIsRoute(origin, journal, settles, c.high, c.close);
  }

  lemma OpeningVisit(journal: seq<Record>, from: nat, until: nat, p: real)
    requires Saw(journal, from, until, p)
    ensures Visited(journal, from, until) == [p]
  {
    VisitedNext(journal, from, from, until, p);
  }

  // --------------------------------------------- what a candle may fill

  predicate Ordered(c: Candle) {
    c.low <= c.open <= c.high && c.low <= c.close <= c.high
  }

  /** A price of the candle's walk; the open is visited as such. */
  predicate Along(c: Candle, at: Place) {
    (at.atOpen ==> at.price == c.open) && (Ordered(c) ==> c.low <= at.price <= c.high)
  }

  /** What the record reports is fair, at some price of the candle's walk if it takes one. */
  ghost predicate MetIn(r: Record, c: Candle) {
    FairRecord(r, None) || exists at :: Along(c, at) && FairRecord(r, Some(at))
  }

  ghost predicate MetSince(journal: seq<Record>, from: nat, c: Candle) {
    forall k | from <= k < |journal| :: MetIn(journal[k], c)
  }

  /** The step of a leg a record belongs to. */
  lemma {:induction false} StepOf(
    origin: State, journal: seq<Record>, leg: Passage, start: real, end: real, k: nat, m: nat) returns (i: nat)
    requires LegIn(origin, journal, leg, start, end) && m < |leg.cuts| && leg.cuts[0] <= k < leg.cuts[m]
    ensures i + 1 < |leg.points| && leg.cuts[i] <= k < leg.cuts[i + 1]
    decreases m
  {
    if leg.cuts[m - 1] <= k {
      i := m - 1;
    } else {
      i := StepOf(origin, journal, leg, start, end, k, m - 1);
    }
  }

  /** Between `a` and `b`, in either direction. */
  predicate Spans(a: real, b: real, p: real) {
    if a < b then a <= p <= b else b <= p <= a
  }

  lemma LegMeets(origin: State, journal: seq<Record>, leg: Passage, start: real, end: real, k: nat, c: Candle)
    requires LegIn(origin, journal, leg, start, end) && leg.cuts[0] <= k < Last(leg)
    requires forall p | Spans(start, end, p) :: Along(c, Place(p, false))
    ensures k < |journal| && MetIn(journal[k], c)
  {
    var i := StepOf(origin, journal, leg, start, end, k, |leg.cuts| - 1);
    assert StepIn(origin, journal, leg, end, i);
    LegIsRoute(origin, journal, leg, start, end);
    assert Spans(start, end, leg.points[i + 1]);
    assert FairRecord(journal[k], Some(Place(leg.points[i + 1], false)));
  }

  /**
   Every report of a completed candle is fair: an order is accepted or canceled
   when that was owed, expires when its bars are over, and fills or is refused
   only while the walk visits a price at which it may fill.
   */
  lemma ReportsAreFair(
    origin: State, journal: seq<Record>, from: nat, c: Candle, falls: Passage, rises: Passage, settles: Passage)
    requires Journey(origin, journal, from, c, falls, rises, settles)
    ensures MetSince(journal, from, c)
  {
    forall k | from <= k < |journal| ensures MetIn(journal[k], c) {
      if k < falls.cuts[0] {
        assert FairRecord(journal[k], Some(Place(c.open, true)));
        assert Along(c, Place(c.open, true));
      } else if k < Last(falls) {
        LegMeets(origin, journal, falls, c.open, c.low, k, c);
      } else if k < Last(rises) {
        LegMeets(origin, journal, rises, c.low, c.high, k, c);
      } else if k < Last(settles) {
        LegMeets(origin, journal, settles, c.high, c.close, k, c);
      } else {
        assert FairRecord(journal[k], None);
      }
    }
  }

  /**
   What a fill of a candle says of its order. A limit that filled was inside
   the candle's reach, at a price between the candle's extreme and the limit; a
   market order that is not the stop's close traded at the open or worse.
   */
  lemma FilledInsideTheCandle(r: Record, c: Candle)
    requires MetIn(r, c) && FillOf(r).Some? && Ordered(c) && c.low > 0.0
    ensures var s, e := r.unsigned.doc, FillOf(r).value;
            && e.key < |s.orders| && Eligible(s, s.orders[e.key])
            && var intent := s.orders[e.key].intent;
               && e.side == intent.side
               && (intent.orderType == Limit && intent.limitPrice.Some? ==>
                     if intent.side == Buy then c.low <= e.price <= intent.limitPrice.value
                     else intent.limitPrice.value <= e.price <= c.high)
               && (intent.orderType == Market && intent.limitPrice == None ==>
                     if intent.side == Buy then e.price >= c.open
                     else e.price <= if StopClose(s, intent) then c.high else c.open)
  {
  }

  /** The order still waits at its limit: eligible, and for a buy, nothing stops buying. */
  predicate Awaits(s: State, k: nat, limit: real, falling: bool) {
    && Rests(s, k, limit, falling)
    && s.orders[k].intent.orderType == Limit
    && (falling ==> s.terminalAction == None && s.phase != StoppedHolding && !s.reconciliationRequired)
  }

  lemma AwaitsIsReady(s: State, k: nat, limit: real, falling: bool)
    requires Awaits(s, k, limit, falling)
    ensures Ready(s, k, if falling then Buy else Sell, Place(limit, false))
  {
  }

  /**
   An order that rests ahead of the price just visited, and waits there in
   every committed state until it fills, is filled on this leg, unless at its
   own limit the matcher had no room for a step of it or refused it.
   */
  lemma RestingLimitIsServed(
    origin: State, journal: seq<Record>, leg: Passage, start: real, end: real, j: nat, k: nat, limit: real)
    requires LegIn(origin, journal, leg, start, end) && j + 1 < |leg.points|
    requires forall m: nat | leg.cuts[j] <= m <= Last(leg) && !HasFill(journal, leg.cuts[j], m, k) ::
               m <= |journal| && Awaits(At(origin, journal, m), k, limit, end < start)
    requires Ahead(limit, leg.points[j], end)
    ensures Served(origin, journal, leg.cuts[j], Last(leg), k, Place(limit, false))
  {
    if !HasFill(journal, leg.cuts[j], Last(leg), k) {
      AllAwait(origin, journal, leg, start, end, j, k, limit);
      var m := LimitIsVisited(origin, journal, leg, start, end, j, k, limit);
      StepServes(origin, journal, leg, start, end, j, k, limit, m);
    }
  }

  lemma AllAwait(origin: State, journal: seq<Record>, leg: Passage, start: real, end: real, j: nat, k: nat, limit: real)
    requires LegIn(origin, journal, leg, start, end) && j < |leg.points|
    requires forall m: nat | leg.cuts[j] <= m <= Last(leg) && !HasFill(journal, leg.cuts[j], m, k) ::
               m <= |journal| && Awaits(At(origin, journal, m), k, limit, end < start)
    requires !HasFill(journal, leg.cuts[j], Last(leg), k)
    ensures forall m: nat | leg.cuts[j] <= m <= Last(leg) ::
              m <= |journal| && Awaits(At(origin, journal, m), k, limit, end < start)
  {
    forall m: nat | leg.cuts[j] <= m <= Last(leg)
      ensures m <= |journal| && Awaits(At(origin, journal, m), k, limit, end < start)
    {
      assert !HasFill(journal, leg.cuts[j], m, k);
    }
  }

  lemma LimitIsVisited(
    origin: State, journal: seq<Record>, leg: Passage, start: real, end: real, j: nat, k: nat, limit: real)
    returns (m: nat)
    requires LegIn(origin, journal, leg, start, end) && j + 1 < |leg.points|
    requires forall m: nat | leg.cuts[j] <= m <= Last(leg) ::
               m <= |journal| && Awaits(At(origin, journal, m), k, limit, end < start)
    requires Ahead(limit, leg.points[j], end)
    ensures j < m < |leg.points| && leg.points[m] == limit
  {
    forall i | j <= i < |leg.points| - 1 ensures Rests(At(origin, journal, leg.cuts[i]), k, limit, end < start) {
      CutsAscend(origin, journal, leg, start, end, j, i);
      CutsAscend(origin, journal, leg, start, end, i, |leg.cuts| - 1);
      assert Awaits(At(origin, journal, leg.cuts[i]), k, limit, end < start);
    }
    LegIsWalk(origin, journal, leg, start, end);
    RestingOrderIsVisited(leg.points, ChosenIn(origin, journal, leg), end, j, k, limit);
    m :| j + 1 <= m < |leg.points| && leg.points[m] == limit;
  }

  lemma StepServes(
    origin: State, journal: seq<Record>, leg: Passage, start: real, end: real, j: nat, k: nat, limit: real, m: nat)
    requires LegIn(origin, journal, leg, start, end) && j < m < |leg.points| && leg.points[m] == limit
    requires forall n: nat | leg.cuts[j] <= n <= Last(leg) ::
               n <= |journal| && Awaits(At(origin, journal, n), k, limit, end < start)
    ensures Served(origin, journal, leg.cuts[j], Last(leg), k, Place(limit, false))
  {
    var a, b, at := leg.cuts[m - 1], leg.cuts[m], Place(limit, false);
    assert StepIn(origin, journal, leg, end, m - 1);
    CutsAscend(origin, journal, leg, start, end, j, m - 1);
    CutsAscend(origin, journal, leg, start, end, m, |leg.cuts| - 1);
    var side := if end < start then Buy else Sell;
    forall n: nat | a <= n <= b ensures Ready(At(origin, journal, n), k, side, at) {
      AwaitsIsReady(At(origin, journal, n), k, limit, end < start);
    }
    assert Waits(origin, journal, a, b, k, side, at);
    ServedWithin(origin, journal, leg.cuts[j], Last(leg), a, b, k, at);
  }

  // ---------------------------------------------------------- containment

  /** A price at or below the stop is being observed while there is inventory. */
  predicate Breaching(s: State) {
    && s.pendingObservation.Some?
    && s.pendingObservation.value.body.PriceSeen?
    && StopBreached(s, s.pendingObservation.value.body.price)
  }

  /** What one record may do: a terminal action stands, and with it, or with a breach, no buy fills. */
  ghost predicate Steady(a: State, b: State) {
    && a.events <= b.events
    && (a.terminalAction.Some? ==> b.terminalAction == a.terminalAction)
    && (Breaching(a) ==> b.terminalAction.Some?)
    && (a.terminalAction.Some? || Breaching(a) ==> NoBuyFill(a, b))
  }

  /** What a session writes: inventory and cash follow the log, and an observation is journaled before anything else changes. */
  ghost predicate Writes(a: State, b: State, kind: Kind) {
    && Steady(a, b) && Settles(a, b)
    && (kind == ObservationReceived ==> Rewritten(a, b))
  }

  ghost predicate WritesAt(origin: State, journal: seq<Record>, k: nat)
    requires k < |journal|
  {
    Writes(At(origin, journal, k), At(origin, journal, k + 1), journal[k].unsigned.kind)
  }

  ghost predicate Contained(origin: State, journal: seq<Record>) {
    forall k: nat | k < |journal| :: WritesAt(origin, journal, k)
  }

  /** `state` is what the accepted records of `journal` lead to, and they contain every stop. */
  ghost predicate Chronicled(origin: State, journal: seq<Record>, binding: Binding, state: State) {
    && Replay(origin, journal, binding) == Some(state)
    && state == At(origin, journal, |journal|)
    && Contained(origin, journal)
  }

  lemma WritesLater(origin: State, journal: seq<Record>, more: seq<Record>, k: nat)
    requires k < |journal| && journal <= more && WritesAt(origin, journal, k)
    ensures WritesAt(origin, more, k)
  {
    assert At(origin, more, k) == At(origin, journal, k) && At(origin, more, k + 1) == At(origin, journal, k + 1);
  }

  lemma ContainedExtends(origin: State, journal: seq<Record>, r: Record)
    requires Contained(origin, journal)
    requires Writes(At(origin, journal, |journal|), Commit(r), r.unsigned.kind)
    ensures Contained(origin, journal + [r])
  {
    var more := journal + [r];
    forall k: nat | k < |more| ensures WritesAt(origin, more, k) {
      if k < |journal| {
        WritesLater(origin, journal, more, k);
      } else {
        assert At(origin, more, k) == At(origin, journal, k);
      }
    }
  }

  lemma SteadyAt(origin: State, journal: seq<Record>, k: nat, a: State, b: State)
    requires Contained(origin, journal) && k < |journal|
    requires a == At(origin, journal, k) && b == At(origin, journal, k + 1)
    ensures Writes(a, b, journal[k].unsigned.kind)
  {
    assert WritesAt(origin, journal, k);
  }

  /** No buy between the two states, and a terminal action that stood still stands. */
  ghost predicate StaysStopped(a: State, b: State) {
    && b.terminalAction == a.terminalAction && a.terminalAction.Some?
    && NoBuyFill(a, b)
  }

  lemma StoppedStep(a: State, b: State, c: State)
    requires StaysStopped(a, b) && Steady(b, c)
    ensures StaysStopped(a, c)
  {
    NoBuyJoined(a, b, c);
  }

  /** A terminal action stands for the rest of the journal, and no buy fills while it does. */
  lemma {:induction false} NoBuyOnceTerminal(origin: State, journal: seq<Record>, k: nat, m: nat)
    requires Contained(origin, journal) && k <= m <= |journal|
    requires At(origin, journal, k).terminalAction.Some?
    ensures StaysStopped(At(origin, journal, k), At(origin, journal, m))
    decreases m
  {
    var a, c := At(origin, journal, k), At(origin, journal, m);
    if k < m {
      var b := At(origin, journal, m - 1);
      NoBuyOnceTerminal(origin, journal, k, m - 1);
      SteadyAt(origin, journal, m - 1, b, c);
      StoppedStep(a, b, c);
    }
  }

  /** Between any two points of the journal, inventory and cash moved by exactly the fills and fees logged between them. */
  lemma {:induction false} FillsAccountForEverything(origin: State, journal: seq<Record>, k: nat, m: nat)
    requires Contained(origin, journal) && k <= m <= |journal|
    ensures Settles(At(origin, journal, k), At(origin, journal, m))
    decreases m
  {
    var a, c := At(origin, journal, k), At(origin, journal, m);
    if k < m {
      var b := At(origin, journal, m - 1);
      FillsAccountForEverything(origin, journal, k, m - 1);
      SteadyAt(origin, journal, m - 1, b, c);
      SettlesThen(a, b, c);
    }
  }

  lemma NoBuyJoined(a: State, b: State, c: State)
    requires NoBuyFill(a, b) && NoBuyFill(b, c)
    ensures NoBuyFill(a, c)
  {
    assert c.events == b.events + Since(b, c);
    assert b.events == a.events + Since(a, b);
    assert Since(a, c) == Since(a, b) + Since(b, c);
  }

  lemma BreachStops(a: State, b: State, c: State)
    requires Rewritten(a, b) && Breaching(b) && Steady(b, c)
    ensures NoBuyFill(a, c) && c.terminalAction.Some?
  {
  }

  /**
   Stop containment over any run: once the journal observes a price at or
   below the stop while there is inventory, no buy fills in any later record,
   on this candle or a later one, and a terminal action stands from the next
   record on.
   */
  lemma NoBuyAfterBreach(origin: State, journal: seq<Record>, k: nat, p: real, m: nat)
    requires Contained(origin, journal) && k < m <= |journal|
    requires PriceOf(journal[k]) == Some(p) && StopBreached(At(origin, journal, k), p)
    ensures NoBuyFill(At(origin, journal, k), At(origin, journal, m))
    ensures k + 1 < m ==> At(origin, journal, m).terminalAction.Some?
  {
    var a, b, c := At(origin, journal, k), At(origin, journal, k + 1), At(origin, journal, m);
    SteadyAt(origin, journal, k, a, b);
    ObservedBreach(a, journal[k], p);
    if k + 1 < m {
      var d := At(origin, journal, k + 2);
      SteadyAt(origin, journal, k + 1, b, d);
      BreachStops(a, b, d);
      NoBuyOnceTerminal(origin, journal, k + 2, m);
      NoBuyJoined(a, d, c);
    }
  }

  lemma ObservedBreach(a: State, r: Record, p: real)
    requires PriceOf(r) == Some(p) && Rewritten(a, Commit(r)) && StopBreached(a, p)
    ensures Breaching(Commit(r)) && NoBuyFill(a, Commit(r))
  {
  }
}
