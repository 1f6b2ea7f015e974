/**
 A candle run of the Spot lane: every candle and mark is checked before the
 first write, then a clock that ticks once per candle feeds the session.
 */
module SpotRunner {
  import opened Wrappers
  import opened SpotTypes
  import opened SpotEngine
  import opened SpotJournal
  import opened SpotLane
  import opened SpotSession

  /** One supplied observation, with the mark it may carry. */
  datatype Step =
    | CandleStep(candle: Candle, mark: Option<real>)
    | CommandStep(action: Action, mark: Option<real>)

  // ------------------------------------------------------- pre-validation

  /** The candle a session compares the next one with. */
  function Confirmed(s: State, failed: bool, previous: Option<Candle>, step: Step): Option<Candle>
    requires s.binding.interval > 0
  {
    if step.CandleStep? && Judge(s, failed, previous, step.candle).Take? then Some(step.candle) else previous
  }

  predicate StepAdmitted(s: State, failed: bool, previous: Option<Candle>, step: Step)
    requires s.binding.interval > 0
  {
    step.CandleStep? ==> !Judge(s, failed, previous, step.candle).Refuse?
  }

  /** A mark may only repeat the last confirmed close. */
  predicate MarkConfirmed(previous: Option<Candle>, mark: Option<real>) {
    mark.Some? ==> previous.Some? && mark.value == previous.value.close
  }

  /** Every candle would be admitted after the ones before it, and every mark is confirmed. */
  predicate AllAdmitted(s: State, failed: bool, previous: Option<Candle>, steps: seq<Step>)
    requires s.binding.interval > 0
    decreases |steps|
  {
    steps == [] ||
    (&& StepAdmitted(s, failed, previous, steps[0])
     && MarkConfirmed(Confirmed(s, failed, previous, steps[0]), steps[0].mark)
     && AllAdmitted(s, failed, Confirmed(s, failed, previous, steps[0]), steps[1..]))
  }

  /** How many candles of the steps are new ones. */
  function NewCandles(s: State, failed: bool, previous: Option<Candle>, steps: seq<Step>): nat
    requires s.binding.interval > 0
    decreases |steps|
  {
    if steps == [] then 0
    else
      (if steps[0].CandleStep? && Judge(s, failed, previous, steps[0].candle).Take? then 1 else 0)
      + NewCandles(s, failed, Confirmed(s, failed, previous, steps[0]), steps[1..])
  }

  function CandlesIn(steps: seq<Step>): nat {
    if steps == [] then 0 else (if steps[0].CandleStep? then 1 else 0) + CandlesIn(steps[1..])
  }

  lemma AdmittedNext(s: State, failed: bool, previous: Option<Candle>, steps: seq<Step>, n: nat)
    requires s.binding.interval > 0 && n < |steps|
    ensures var rest, step := steps[n..], steps[n];
            && (AllAdmitted(s, failed, previous, rest) <==>
                  && StepAdmitted(s, failed, previous, step)
                  && MarkConfirmed(Confirmed(s, failed, previous, step), step.mark)
                  && AllAdmitted(s, failed, Confirmed(s, failed, previous, step), steps[n + 1..]))
            && CandlesIn(rest) == (if step.CandleStep? then 1 else 0) + CandlesIn(steps[n + 1..])
            && NewCandles(s, failed, previous, rest)
               == (if step.CandleStep? && Judge(s, failed, previous, step.candle).Take? then 1 else 0)
                  + NewCandles(s, failed, Confirmed(s, failed, previous, step), steps[n + 1..])
  {
    assert steps[n..][0] == steps[n] && steps[n..][1..] == steps[n + 1..];
  }

  /** The checks of a session that neither failed, finished nor is inside a bar depend on its binding alone. */
  predicate SameChecks(s: State, t: State) {
    t.binding == s.binding && t.finished == s.finished && t.barInProgress == s.barInProgress
  }

  lemma {:induction false} AdmittedFrame(s: State, t: State, failed: bool, previous: Option<Candle>, steps: seq<Step>)
    requires SameChecks(s, t) && s.binding.interval > 0
    ensures AllAdmitted(t, failed, previous, steps) == AllAdmitted(s, failed, previous, steps)
    ensures NewCandles(t, failed, previous, steps) == NewCandles(s, failed, previous, steps)
    decreases |steps|
  {
    if steps != [] {
      AdmittedFrame(s, t, failed, Confirmed(s, failed, previous, steps[0]), steps[1..]);
    }
  }

  /** A command is among the first `n` steps. */
  ghost predicate CommandAmong(steps: seq<Step>, n: nat) {
    exists i | 0 <= i < n && i < |steps| :: steps[i].CommandStep?
  }

  lemma CommandAmongNext(steps: seq<Step>, n: nat)
    requires n < |steps|
    ensures CommandAmong(steps, n + 1) <==> CommandAmong(steps, n) || steps[n].CommandStep?
  {
  }

  // ---------------------------------------------------------------- clock

  class CandleClock {
    const session: HistoricalSpotSession
    const steps: seq<Step>
    var cursor: nat

    constructor (session: HistoricalSpotSession, steps: seq<Step>)
      ensures this.session == session && this.steps == steps && cursor == 0
    {
      this.session, this.steps, cursor := session, steps, 0;
    }

    /** A command that was fed has left a terminal action. */
    ghost predicate Heeded()
      reads this, session
    {
      CommandAmong(steps, cursor) ==> session.state.terminalAction.Some?
    }

    /** What is left of a validated run fits the session as it stands, and what was fed is heeded. */
    ghost predicate Ready()
      reads this, session
    {
      && session.Valid() && !session.failed && cursor <= |steps|
      && AllAdmitted(session.state, false, session.state.lastCandle, steps[cursor..])
      && Heeded()
    }

    /** Bars so far plus candles still to come. */
    ghost function Bars(): int
      reads this, session
      requires Ready()
    {
      session.state.barIndex + NewCandles(session.state, false, session.state.lastCandle, steps[cursor..])
    }

    /** Check every step before the first write. */
    method Validate() returns (ok: bool)
      requires session.Valid() && cursor == 0
      ensures ok <==> AllAdmitted(session.state, session.failed, session.state.lastCandle, steps)
    {
      var previous := session.state.lastCandle;
      assert steps[0..] == steps;
      for n := 0 to |steps|
        invariant AllAdmitted(session.state, session.failed, session.state.lastCandle, steps)
             <==> AllAdmitted(session.state, session.failed, previous, steps[n..])
      {
        AdmittedNext(session.state, session.failed, previous, steps, n);
        var step := steps[n];
        if step.CandleStep? {
          var verdict := Judge(session.state, session.failed, previous, step.candle);
          if verdict.Refuse? {
            return false;
          }
          if verdict.Take? {
            previous := Some(step.candle);
          }
        }
        if step.mark.Some? && (previous == None || step.mark.value != previous.value.close) {
          return false;
        }
      }
      ok := true;
    }

    /** Hand one admitted candle to the session: it becomes one bar, or repeats the last one. */
    method Process(c: Candle) returns (r: Outcome<Failure>)
      requires session.Valid() && !session.failed
      requires !Judge(session.state, false, session.state.lastCandle, c).Refuse?
      modifies session
      ensures r.Raised? ==> session.failed || r.error == NotConverged
      ensures r.Done? ==>
                && session.Valid() && !session.failed && SameChecks(old(session.state), session.state)
                && (if Judge(old(session.state), false, old(session.state).lastCandle, c).Take?
                    then session.state.barIndex == old(session.state).barIndex + 1 && session.state.lastCandle == Some(c)
                    else session.state.barIndex == old(session.state).barIndex
                         && session.state.lastCandle == old(session.state).lastCandle)
      ensures old(session.state).terminalAction.Some? ==> session.state.terminalAction.Some?
    {
      r := session.OnCandle(c);
    }

    /** Feed the next candle: it is never refused, only a failing sink or engine can stop it. */
    method FeedCandle() returns (r: Outcome<Failure>)
      requires Ready() && cursor < |steps| && steps[cursor].CandleStep?
      modifies this, session
      ensures cursor == old(cursor) + 1
      ensures r.Raised? ==> session.failed || r.error == NotConverged
      ensures r.Done? ==> Ready() && Bars() == old(Bars())
    {
      ghost var s := session.state;
      AdmittedNext(s, false, s.lastCandle, steps, cursor);
      var step := steps[cursor];
      CommandAmongNext(steps, cursor);
      cursor := cursor + 1;
      r := Process(step.candle);
      if r.Done? {
        AdmittedFrame(s, session.state, false, session.state.lastCandle, steps[cursor..]);
      }
    }

    /** Hand the next command to the session, whose terminal action then stands. */
    method FeedCommand() returns (r: Outcome<Failure>)
      requires Ready() && cursor < |steps| && steps[cursor].CommandStep?
      modifies this, session
      ensures cursor == old(cursor) + 1
      ensures r.Raised? ==> session.failed || r.error == NotConverged
      ensures r.Done? ==> Ready() && Bars() == old(Bars()) && session.state.terminalAction.Some?
    {
      ghost var s := session.state;
      AdmittedNext(s, false, s.lastCandle, steps, cursor);
      var step := steps[cursor];
      CommandAmongNext(steps, cursor);
      cursor := cursor + 1;
      r := session.Command(step.action);
      if r.Done? {
        AdmittedFrame(s, session.state, false, session.state.lastCandle, steps[cursor..]);
      }
    }

    /** One tick: commands up to the next candle, that candle, and the commands right after it. */
    method Next() returns (r: Outcome<Failure>)
      requires Ready() && CandlesIn(steps[cursor..]) > 0
      modifies this, session
      ensures r.Raised? ==> session.failed || r.error == NotConverged
      ensures r.Done? ==> Ready() && Bars() == old(Bars())
                          && CandlesIn(steps[cursor..]) == old(CandlesIn(steps[cursor..])) - 1
                          && (cursor < |steps| ==> steps[cursor].CandleStep?)
    {
      r := FeedToCandle();
      if r.Done? {
        r := FeedTrailing();
      }
    }

    method FeedToCandle() returns (r: Outcome<Failure>)
      requires Ready() && CandlesIn(steps[cursor..]) > 0
      modifies this, session
      ensures r.Raised? ==> session.failed || r.error == NotConverged
      ensures r.Done? ==> Ready() && Bars() == old(Bars())
                          && CandlesIn(steps[cursor..]) == old(CandlesIn(steps[cursor..])) - 1
    {
      ghost var total, waiting := Bars(), CandlesIn(steps[cursor..]);
      while cursor < |steps|
        invariant Ready() && Bars() == total && CandlesIn(steps[cursor..]) == waiting > 0
        decreases |steps| - cursor
      {
        AdmittedNext(session.state, false, session.state.lastCandle, steps, cursor);
        if steps[cursor].CandleStep? {
          r := FeedCandle();
          return;
        }
        r := FeedCommand();
        if r.Raised? {
          return;
        }
      }
      assert false;
      r := Done;
    }

    method FeedTrailing() returns (r: Outcome<Failure>)
      requires Ready()
      modifies this, session
      ensures r.Raised? ==> session.failed || r.error == NotConverged
      ensures r.Done? ==> Ready() && Bars() == old(Bars())
                          && CandlesIn(steps[cursor..]) == old(CandlesIn(steps[cursor..]))
                          && (cursor < |steps| ==> steps[cursor].CandleStep?)
    {
      ghost var total, waiting := Bars(), CandlesIn(steps[cursor..]);
      while cursor < |steps| && steps[cursor].CommandStep?
        invariant Ready() && Bars() == total && CandlesIn(steps[cursor..]) == waiting
        decreases |steps| - cursor
      {
        AdmittedNext(session.state, false, session.state.lastCandle, steps, cursor);
        r := FeedCommand();
        if r.Raised? {
          return;
        }
      }
      r := Done;
    }

    /**
     The whole run: nothing is written unless every step is admitted; then no
     candle is ever refused, each new one becomes exactly one bar, every step
     is consumed, provided there is a candle to make the clock tick, and after
     a command a terminal action stands.
     */
    method Run() returns (started: bool, r: Outcome<Failure>)
      requires session.Valid() && !session.failed && cursor == 0
      modifies this, session
      ensures started <==> AllAdmitted(old(session.state), false, old(session.state).lastCandle, steps)
      ensures !started ==> unchanged(session) && unchanged(this)
      ensures started && r.Raised? ==> session.failed || r.error == NotConverged
      ensures started && r.Done? ==>
                && session.state.barIndex == old(session.state).barIndex
                     + NewCandles(old(session.state), false, old(session.state).lastCandle, steps)
                && (CandlesIn(steps) > 0 || steps == [] ==> cursor == |steps|)
                && (CommandAmong(steps, cursor) ==> session.state.terminalAction.Some?)
    {
      r := Done;
      started := Validate();
      if !started {
        return;
      }
      assert steps[0..] == steps;
      NoCandlesNoBars(session.state, false, session.state.lastCandle, steps);
      ghost var total, candles := Bars(), CandlesIn(steps);
      var left := CountCandles();
      while left > 0
        invariant r == Done && Ready() && Bars() == total && left == CandlesIn(steps[cursor..])
        invariant left == candles ==> cursor == 0
        invariant left < candles && cursor < |steps| ==> steps[cursor].CandleStep?
        decreases left
      {
        r := Next();
        if r.Raised? {
          return;
        }
        left := left - 1;
      }
      RunEnds(session.state, steps, cursor);
    }

    method CountCandles() returns (n: nat)
      ensures n == CandlesIn(steps)
    {
      n := 0;
      var i := |steps|;
      while i > 0
        invariant 0 <= i <= |steps| && n == CandlesIn(steps[i..])
      {
        i := i - 1;
        assert steps[i..][1..] == steps[i + 1..];
        if steps[i].CandleStep? {
          n := n + 1;
        }
      }
      assert steps[0..] == steps;
    }
  }

  lemma {:induction false} NoCandlesNoBars(s: State, failed: bool, previous: Option<Candle>, steps: seq<Step>)
    requires s.binding.interval > 0
    ensures NewCandles(s, failed, previous, steps) <= CandlesIn(steps)
    decreases |steps|
  {
    if steps != [] {
      NoCandlesNoBars(s, failed, Confirmed(s, failed, previous, steps[0]), steps[1..]);
    }
  }

  /** Once no candle is left, no bar is still to come, and a step left over would be a command. */
  lemma RunEnds(s: State, steps: seq<Step>, cursor: nat)
    requires s.binding.interval > 0 && cursor <= |steps| && CandlesIn(steps[cursor..]) == 0
    ensures NewCandles(s, false, s.lastCandle, steps[cursor..]) == 0
    ensures cursor < |steps| ==> steps[cursor].CommandStep?
  {
    NoCandlesNoBars(s, false, s.lastCandle, steps[cursor..]);
    assert cursor < |steps| ==> steps[cursor..][0] == steps[cursor];
  }
}
