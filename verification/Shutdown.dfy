/** What cancelling a run bounds, told from its trace. */
module Shutdown {
  import opened Types
  import opened History
  import opened Traces
  import opened Agents

  predicate IsTurnStart(e: AgentEvent) {
    e.TurnStart?
  }

  function TurnStarts(es: seq<AgentEvent>): nat {
    Count(es, IsTurnStart)
  }

  lemma OneTurnStart(t: Turn)
    requires ValidTurn(t)
    ensures TurnStarts(TurnEvents(t)) == 1
  {
    var opening, rest := [TurnStart], PairsOf(InjectedMessages(t.injected));
    var emitted, phase := ConsumerOf(t.response).emitted, PhaseEvents(CallsRun(t), t.outcomes, t.phase);
    PairsAre(InjectedMessages(t.injected));
    ResponseEmits(t.response);
    PhaseAre(CallsRun(t), t.outcomes, t.phase);
    CountNone(rest, IsTurnStart);
    CountNone(emitted, IsTurnStart);
    CountNone(phase, IsTurnStart);
    CountNone(ClosingEvents(t), IsTurnStart);
    CountAppend(opening, rest, IsTurnStart);
    CountAppend(opening + rest, emitted, IsTurnStart);
    CountAppend(opening + rest + emitted, phase, IsTurnStart);
    CountAppend(opening + rest + emitted + phase, ClosingEvents(t), IsTurnStart);
    CountOne(TurnStart, IsTurnStart);
  }

  lemma {:induction false} OneTurnStartEach(ts: seq<Turn>)
    requires ValidTurns(ts)
    ensures TurnStarts(EventsOf(ts)) == |ts|
  {
    if ts != [] {
      var n := |ts| - 1;
      OneTurnStartEach(ts[..n]);
      OneTurnStart(ts[n]);
      CountAppend(EventsOf(ts[..n]), TurnEvents(ts[n]), IsTurnStart);
    }
  }

  lemma TraceTurnStarts(ts: seq<Turn>, last: AgentEvent)
    requires ValidTurns(ts) && last.AgentEnd?
    ensures TurnStarts([AgentStart] + EventsOf(ts) + [last]) == |ts|
  {
    var es := EventsOf(ts);
    OneTurnStartEach(ts);
    CountOne(AgentStart, IsTurnStart);
    CountOne(last, IsTurnStart);
    CountAppend([AgentStart], es, IsTurnStart);
    CountAppend([AgentStart] + es, [last], IsTurnStart);
  }

  lemma ReportedTurnStarts(agent: Agent, base: seq<Message>, r: RunResult)
    requires agent.RunOutcome(base, r)
    ensures agent.trace != [] && agent.trace[|agent.trace| - 1].AgentEnd?
    ensures TurnStarts(agent.trace) == |agent.turns|
  {
    match r {
      case Ok(produced) => TraceTurnStarts(agent.turns, AgentEnd(produced));
      case Err(_) =>
        TraceTurnStarts(agent.turns, AgentEnd([Assistant(agent.messages[|agent.messages| - 1].assistant)]));
    }
  }

  /** Main result, for every run that was cancelled: if that was during a turn, no other turn was begun;
      otherwise at most one more turn was announced, which ended with an aborted message and without
      asking the provider.  No queue was polled, no provider asked and no tool left to run to its end;
      and the run still ended with AgentEnd. */
  lemma ShutdownIsBounded(agent: Agent, base: seq<Message>, r: RunResult)
    requires agent.RunReport(base, r) && agent.cancelled
    ensures agent.trace != [] && agent.trace[|agent.trace| - 1].AgentEnd?
    ensures agent.turns != [] && TurnStarts(agent.trace) == |agent.turns| <= agent.atCancel.turns + 1
    ensures |agent.turns| <= agent.atCancel.ended + 1
    ensures |agent.turns| > agent.atCancel.turns ==>
              var last := agent.turns[|agent.turns| - 1];
              last.response.Withheld? && FinalOf(last).Some? && FinalOf(last).value.stopReason == Aborted
    ensures agent.polls == agent.atCancel.polls && agent.requests == agent.atCancel.requests
    ensures agent.toolRuns == agent.atCancel.toolRuns
  {
    agent.ReportMeans(base, r);
    ReportedTurnStarts(agent, base, r);
  }
}
