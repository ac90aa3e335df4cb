/** The event protocol as a listener sees it: an acceptor that knows nothing of turns or
    histories.  Every run's trace is accepted. */
module Protocol {
  import opened Types
  import opened History
  import opened Streams

  datatype Phase =
    | Fresh
    | Between                                    // no turn open
    | Injecting                                  // turn announced, response not begun
    | Pairing(message: Message)                  // an injected message was started
    | Streaming                                  // the assistant message was started
    | Working(answer: AssistantMessage, running: multiset<string>, results: seq<ToolResultMessage>)
    | Reporting(answer: AssistantMessage, running: multiset<string>, results: seq<ToolResultMessage>,
                result: ToolResultMessage)
    | Over
    | Bad

  function Step(p: Phase, e: AgentEvent): Phase {
    match p
    case Fresh => if e.AgentStart? then Between else Bad
    case Between =>
      if e.TurnStart? then Injecting else if e.AgentEnd? then Over else Bad
    case Injecting =>
      if e.MessageStart? then (if e.message.Assistant? then Streaming else Pairing(e.message))
      else if e.AgentEnd? then Over  // only when the client refused the request
      else Bad
    case Pairing(m) => if e == MessageEnd(m) then Injecting else Bad
    case Streaming =>
      if e.MessageUpdate? then Streaming
      else if e.MessageEnd? && e.message.Assistant? then Working(e.message.assistant, multiset{}, [])
      else Bad
    case Working(a, running, results) =>
      if e.ToolStart? then Working(a, running + multiset{e.callId}, results)
      else if e.ToolUpdate? then (if e.callId in running then p else Bad)
      else if e.ToolEnd? then (if e.callId in running then Working(a, running - multiset{e.callId}, results) else Bad)
      else if e.MessageStart? && e.message.Result? then Reporting(a, running, results, e.message.result)
      else if e == TurnEnd(Assistant(a), results) && running == multiset{} then Between
      else Bad
    case Reporting(a, running, results, r) =>
      if e == MessageEnd(Result(r)) then Working(a, running, results + [r]) else Bad
    case Over => Bad
    case Bad => Bad
  }

  function Accept(p: Phase, es: seq<AgentEvent>): Phase {
    if es == [] then p else Step(Accept(p, es[..|es| - 1]), es[|es| - 1])
  }

  lemma {:induction false} AcceptAppend(p: Phase, a: seq<AgentEvent>, b: seq<AgentEvent>)
    ensures Accept(p, a + b) == Accept(Accept(p, a), b)
    decreases |b|
  {
    if b == [] {
      AppendEmpty(a);
    } else {
      var n := |b| - 1;
      assert (a + b)[..|a + b| - 1] == a + b[..n];
      AcceptAppend(p, a, b[..n]);
    }
  }

  lemma AcceptOne(p: Phase, e: AgentEvent)
    ensures Accept(p, [e]) == Step(p, e)
  {
    assert [e][..0] == [];
  }

  lemma AcceptTwo(p: Phase, e: AgentEvent, f: AgentEvent)
    ensures Accept(p, [e, f]) == Step(Step(p, e), f)
  {
    assert [e, f][..1] == [e];
    AcceptOne(p, e);
  }

  // ----- Message pairs -----

  ghost predicate NoAssistant(ms: seq<Message>) {
    forall i :: 0 <= i < |ms| ==> !ms[i].Assistant?
  }

  lemma {:induction false} AcceptPairs(ms: seq<Message>)
    requires NoAssistant(ms)
    ensures Accept(Injecting, PairsOf(ms)) == Injecting
  {
    if ms != [] {
      var n := |ms| - 1;
      AcceptPairs(ms[..n]);
      AcceptAppend(Injecting, PairsOf(ms[..n]), Pair(ms[n]));
      AcceptTwo(Injecting, MessageStart(ms[n]), MessageEnd(ms[n]));
    }
  }

  // ----- The response -----

  lemma {:induction false} AcceptUpdates(es: seq<AgentEvent>)
    requires forall i :: 0 <= i < |es| ==> es[i].MessageUpdate?
    ensures Accept(Streaming, es) == Streaming
  {
    if es != [] {
      AcceptUpdates(es[..|es| - 1]);
    }
  }

  lemma AcceptBalanced(c: Consumer)
    requires Balanced(c)
    ensures Accept(Injecting, c.emitted) == Working(c.final.value, multiset{}, [])
  {
    var n := |c.emitted| - 1;
    var middle := c.emitted[1..n];
    assert c.emitted == [c.emitted[0]] + middle + [c.emitted[n]];
    AcceptAppend(Injecting, [c.emitted[0]], middle);
    AcceptAppend(Injecting, [c.emitted[0]] + middle, [c.emitted[n]]);
    AcceptOne(Injecting, c.emitted[0]);
    AcceptUpdates(middle);
    AcceptOne(Streaming, c.emitted[n]);
  }

  // ----- Tool batches -----

  lemma {:induction false} AcceptToolUpdates(c: ToolCall, partials: seq<ToolResult>, p: Phase)
    requires p.Working? && c.id in p.running
    ensures Accept(p, UpdatesOf(c, partials)) == p
  {
    if partials != [] {
      var n := |partials| - 1;
      AcceptToolUpdates(c, partials[..n], p);
      AcceptAppend(p, UpdatesOf(c, partials[..n]), [UpdateOf(c, partials[n])]);
      AcceptOne(p, UpdateOf(c, partials[n]));
    }
  }

  lemma AcceptReport(a: AssistantMessage, running: multiset<string>, rs: seq<ToolResultMessage>, r: ToolResultMessage)
    ensures Accept(Working(a, running, rs), Pair(Result(r))) == Working(a, running, rs + [r])
  {
    AcceptTwo(Working(a, running, rs), MessageStart(Result(r)), MessageEnd(Result(r)));
  }

  lemma AcceptBegin(c: ToolCall, partials: seq<ToolResult>, a: AssistantMessage, rs: seq<ToolResultMessage>)
    ensures Accept(Working(a, multiset{}, rs), BeginCall(c, partials)) == Working(a, multiset{c.id}, rs)
  {
    var p, q := Working(a, multiset{}, rs), Working(a, multiset{c.id}, rs);
    AcceptOne(p, StartOf(c));
    AcceptAppend(p, [StartOf(c)], UpdatesOf(c, partials));
    assert multiset{} + multiset{c.id} == multiset{c.id};
    AcceptToolUpdates(c, partials, q);
  }

  lemma AcceptFinish(c: ToolCall, o: Outcome, a: AssistantMessage, rs: seq<ToolResultMessage>)
    ensures Accept(Working(a, multiset{c.id}, rs), FinishCall(c, o)) == Working(a, multiset{}, rs + [ResultOf(c, o)])
  {
    var q := Working(a, multiset{c.id}, rs);
    AcceptAppend(q, [EndOf(c, o)], Pair(Result(ResultOf(c, o))));
    AcceptOne(q, EndOf(c, o));
    AcceptReport(a, multiset{}, rs, ResultOf(c, o));
  }

  lemma AcceptCall(c: ToolCall, o: Outcome, partials: seq<ToolResult>, a: AssistantMessage, rs: seq<ToolResultMessage>)
    ensures Accept(Working(a, multiset{}, rs), CallEvents(c, o, partials)) ==
            Working(a, multiset{}, rs + [ResultOf(c, o)])
  {
    AcceptBegin(c, partials, a, rs);
    AcceptFinish(c, o, a, rs);
    AcceptAppend(Working(a, multiset{}, rs), BeginCall(c, partials), FinishCall(c, o));
  }

  lemma {:induction false} AcceptInOrder(cs: seq<ToolCall>, os: seq<Outcome>, updates: seq<seq<ToolResult>>,
                                         a: AssistantMessage)
    requires |cs| == |os| == |updates|
    ensures Accept(Working(a, multiset{}, []), InOrderEvents(cs, os, updates)) ==
            Working(a, multiset{}, ResultsOf(cs, os))
  {
    if cs != [] {
      var n := |cs| - 1;
      var p := Working(a, multiset{}, []);
      AcceptInOrder(cs[..n], os[..n], updates[..n], a);
      AcceptAppend(p, InOrderEvents(cs[..n], os[..n], updates[..n]), CallEvents(cs[n], os[n], updates[n]));
      AcceptCall(cs[n], os[n], updates[n], a, ResultsOf(cs[..n], os[..n]));
    }
  }

  /** How many of the first `n` calls carry `id` and have a slot that is not among `done`. */
  ghost function Unfinished(cs: seq<ToolCall>, done: set<nat>, n: nat, id: string): nat
    requires n <= |cs|
  {
    if n == 0 then 0
    else Unfinished(cs, done, n - 1, id) + (if n - 1 !in done && cs[n - 1].id == id then 1 else 0)
  }

  lemma {:induction false} UnfinishedStep(cs: seq<ToolCall>, done: set<nat>, k: nat, n: nat, id: string)
    requires n <= |cs| && k < |cs| && k !in done
    ensures Unfinished(cs, done, n, id) == Unfinished(cs, done + {k}, n, id) +
            (if k < n && cs[k].id == id then 1 else 0)
  {
    if n > 0 {
      UnfinishedStep(cs, done, k, n - 1, id);
    }
  }

  lemma {:induction false} NoneUnfinished(cs: seq<ToolCall>, done: set<nat>, n: nat, id: string)
    requires n <= |cs| && forall k: nat :: k < n ==> k in done
    ensures Unfinished(cs, done, n, id) == 0
  {
    if n > 0 {
      NoneUnfinished(cs, done, n - 1, id);
    }
  }

  lemma {:induction false} UnfinishedPrefix(cs: seq<ToolCall>, m: nat, n: nat, id: string)
    requires n <= m <= |cs|
    ensures Unfinished(cs[..m], {}, n, id) == Unfinished(cs, {}, n, id)
  {
    if n > 0 {
      UnfinishedPrefix(cs, m, n - 1, id);
    }
  }

  lemma {:induction false} AcceptStarts(cs: seq<ToolCall>, a: AssistantMessage) returns (running: multiset<string>)
    ensures Accept(Working(a, multiset{}, []), StartsOf(cs)) == Working(a, running, [])
    ensures forall id :: running[id] == Unfinished(cs, {}, |cs|, id)
  {
    running := multiset{};
    if cs != [] {
      var n := |cs| - 1;
      var before := AcceptStarts(cs[..n], a);
      forall id ensures before[id] == Unfinished(cs, {}, n, id) {
        UnfinishedPrefix(cs, n, n, id);
      }
      AcceptAppend(Working(a, multiset{}, []), StartsOf(cs[..n]), [StartOf(cs[n])]);
      AcceptOne(Working(a, before, []), StartOf(cs[n]));
      running := before + multiset{cs[n].id};
    }
  }

  ghost function FinishedSlots(steps: seq<ToolStep>): set<nat> {
    if steps == [] then {}
    else
      var s := steps[|steps| - 1];
      FinishedSlots(steps[..|steps| - 1]) + (if s.Finished? then {s.slot} else {})
  }

  lemma {:induction false} FinishedIsEnded(steps: seq<ToolStep>, k: nat)
    ensures k in FinishedSlots(steps) <==> Ended(steps, k)
  {
    if steps != [] {
      FinishedIsEnded(steps[..|steps| - 1], k);
    }
  }

  function EventOfStep(cs: seq<ToolCall>, os: seq<Outcome>, s: ToolStep): AgentEvent
    requires |cs| == |os| && s.slot < |cs|
  {
    if s.Finished? then EndOf(cs[s.slot], os[s.slot]) else UpdateOf(cs[s.slot], s.partial)
  }

  lemma AcceptStep(cs: seq<ToolCall>, os: seq<Outcome>, done: set<nat>, running: multiset<string>, s: ToolStep,
                   a: AssistantMessage)
    returns (running': multiset<string>)
    requires |cs| == |os| && s.slot < |cs| && s.slot !in done
    requires forall id :: running[id] == Unfinished(cs, done, |cs|, id)
    ensures Step(Working(a, running, []), EventOfStep(cs, os, s)) == Working(a, running', [])
    ensures forall id :: running'[id] == Unfinished(cs, if s.Finished? then done + {s.slot} else done, |cs|, id)
  {
    UnfinishedStep(cs, done, s.slot, |cs|, cs[s.slot].id);
    running' := if s.Finished? then running - multiset{cs[s.slot].id} else running;
    if s.Finished? {
      forall id ensures running'[id] == Unfinished(cs, done + {s.slot}, |cs|, id) {
        UnfinishedStep(cs, done, s.slot, |cs|, id);
      }
    }
  }

  lemma {:induction false} AcceptSteps(cs: seq<ToolCall>, os: seq<Outcome>, steps: seq<ToolStep>, a: AssistantMessage,
                                       running: multiset<string>)
    returns (running': multiset<string>)
    requires |cs| == |os| && Scheduled(|cs|, steps)
    requires forall id :: running[id] == Unfinished(cs, {}, |cs|, id)
    ensures Accept(Working(a, running, []), StepEvents(cs, os, steps)) == Working(a, running', [])
    ensures forall id :: running'[id] == Unfinished(cs, FinishedSlots(steps), |cs|, id)
  {
    running' := running;
    if steps != [] {
      var n := |steps| - 1;
      var before := AcceptSteps(cs, os, steps[..n], a, running);
      FinishedIsEnded(steps[..n], steps[n].slot);
      assert FinishedSlots(steps) == if steps[n].Finished? then FinishedSlots(steps[..n]) + {steps[n].slot}
        else FinishedSlots(steps[..n]);
      running' := AcceptStep(cs, os, FinishedSlots(steps[..n]), before, steps[n], a);
      AcceptAppend(Working(a, running, []), StepEvents(cs, os, steps[..n]), [EventOfStep(cs, os, steps[n])]);
      AcceptOne(Working(a, before, []), EventOfStep(cs, os, steps[n]));
    }
  }

  lemma AcceptConcurrent(cs: seq<ToolCall>, os: seq<Outcome>, steps: seq<ToolStep>, a: AssistantMessage)
    requires ValidPhase(cs, os, Concurrent(steps))
    ensures Accept(Working(a, multiset{}, []), StartsOf(cs) + StepEvents(cs, os, steps)) == Working(a, multiset{}, [])
  {
    var started := AcceptStarts(cs, a);
    var ended := AcceptSteps(cs, os, steps, a, started);
    forall id ensures ended[id] == 0 {
      forall k: nat | k < |cs| ensures k in FinishedSlots(steps) {
        FinishedIsEnded(steps, k);
      }
      NoneUnfinished(cs, FinishedSlots(steps), |cs|, id);
    }
    assert ended == multiset{};
    AcceptAppend(Working(a, multiset{}, []), StartsOf(cs), StepEvents(cs, os, steps));
  }

  lemma {:induction false} AcceptReports(rs: seq<ToolResultMessage>, a: AssistantMessage)
    ensures Accept(Working(a, multiset{}, []), PairsOf(ResultMessages(rs))) == Working(a, multiset{}, rs)
  {
    if rs != [] {
      var n := |rs| - 1;
      var p := Working(a, multiset{}, []);
      AcceptReports(rs[..n], a);
      var ms := ResultMessages(rs);
      assert ms[..n] == ResultMessages(rs[..n]) && ms[n] == Result(rs[n]);
      AcceptAppend(p, PairsOf(ms[..n]), Pair(ms[n]));
      AcceptReport(a, multiset{}, rs[..n], rs[n]);
      assert rs == rs[..n] + [rs[n]];
    }
  }

  /** A batch leaves no tool running, has every end after its start, and reports every result. */
  lemma AcceptPhase(cs: seq<ToolCall>, os: seq<Outcome>, phase: ToolPhase, a: AssistantMessage)
    requires ValidPhase(cs, os, phase)
    ensures Accept(Working(a, multiset{}, []), PhaseEvents(cs, os, phase)) == Working(a, multiset{}, ResultsOf(cs, os))
  {
    var p := Working(a, multiset{}, []);
    match phase {
      case InOrder(updates) => AcceptInOrder(cs, os, updates, a);
      case Concurrent(steps) =>
        AcceptConcurrent(cs, os, steps, a);
        AcceptReports(ResultsOf(cs, os), a);
        AcceptAppend(p, StartsOf(cs) + StepEvents(cs, os, steps), PairsOf(ResultMessages(ResultsOf(cs, os))));
    }
  }

  // ----- Turns and runs -----

  /** What the protocol assumes of a turn: an orderly stream and no assistant message injected. */
  ghost predicate Proper(t: Turn) {
    && NoAssistant(InjectedMessages(t.injected))
    && (t.response.Streamed? ==> Orderly(t.response.events))
  }

  ghost predicate AllProper(ts: seq<Turn>) {
    forall i :: 0 <= i < |ts| ==> Proper(ts[i])
  }

  lemma ResponseBalanced(r: Response)
    requires r.Streamed? ==> Orderly(r.events)
    requires !r.NotStreamed?
    ensures Balanced(ConsumerOf(r))
  {
    match r {
      case Withheld(a) =>
      case Streamed(es, failure) => OrderlyIffBalanced(es, failure);
    }
  }

  lemma AcceptOpening(t: Turn)
    requires NoAssistant(InjectedMessages(t.injected))
    ensures Accept(Between, [TurnStart] + PairsOf(InjectedMessages(t.injected))) == Injecting
  {
    AcceptOne(Between, TurnStart);
    AcceptAppend(Between, [TurnStart], PairsOf(InjectedMessages(t.injected)));
    AcceptPairs(InjectedMessages(t.injected));
  }

  lemma AcceptClosing(t: Turn, a: AssistantMessage)
    requires ValidTurn(t) && FinalOf(t) == Some(a)
    ensures Accept(Working(a, multiset{}, []), PhaseEvents(CallsRun(t), t.outcomes, t.phase)) ==
            Working(a, multiset{}, TurnResults(t))
    ensures Accept(Working(a, multiset{}, TurnResults(t)), ClosingEvents(t)) == Between
  {
    AcceptPhase(CallsRun(t), t.outcomes, t.phase, a);
    AcceptOne(Working(a, multiset{}, TurnResults(t)), TurnEnd(Assistant(a), TurnResults(t)));
  }

  lemma AcceptAnswered(t: Turn)
    requires ValidTurn(t) && Proper(t) && !t.response.NotStreamed?
    ensures Accept(Between, TurnEvents(t)) == Between
  {
    ResponseBalanced(t.response);
    AcceptBalanced(ConsumerOf(t.response));
    AcceptOpening(t);
    AcceptClosing(t, FinalOf(t).value);
    AcceptFour(Between, [TurnStart] + PairsOf(InjectedMessages(t.injected)), ConsumerOf(t.response).emitted,
               PhaseEvents(CallsRun(t), t.outcomes, t.phase), ClosingEvents(t));
  }

  lemma AcceptFour(p: Phase, a: seq<AgentEvent>, b: seq<AgentEvent>, c: seq<AgentEvent>, d: seq<AgentEvent>)
    ensures Accept(p, a + b + c + d) == Accept(Accept(Accept(Accept(p, a), b), c), d)
  {
    AcceptAppend(p, a, b);
    AcceptAppend(p, a + b, c);
    AcceptAppend(p, a + b + c, d);
  }

  lemma AcceptTurn(t: Turn)
    requires ValidTurn(t) && Proper(t)
    ensures Accept(Between, TurnEvents(t)) == if t.response.NotStreamed? then Injecting else Between
  {
    if t.response.NotStreamed? {
      NoCallsNoEvents(t);
      AcceptOpening(t);
      AppendEmpty([TurnStart] + PairsOf(InjectedMessages(t.injected)));
    } else {
      AcceptAnswered(t);
    }
  }

  lemma NoCallsNoEvents(t: Turn)
    requires ValidTurn(t) && t.response.NotStreamed?
    ensures PhaseEvents(CallsRun(t), t.outcomes, t.phase) == [] && ClosingEvents(t) == [] &&
            ConsumerOf(t.response).emitted == []
  {
    assert FinalOf(t) == None && CallsRun(t) == [];
    if t.phase.Concurrent? && t.phase.steps != [] {
      assert false;
    }
  }

  lemma {:induction false} AcceptTurns(ts: seq<Turn>)
    requires ValidTurns(ts) && AllProper(ts)
    requires Answered(ts) || Refusal(ts)
    ensures Accept(Fresh, [AgentStart] + EventsOf(ts)) == if Answered(ts) then Between else Injecting
  {
    if ts == [] {
      AppendEmpty<AgentEvent>([AgentStart]);
      AcceptOne(Fresh, AgentStart);
    } else {
      var n := |ts| - 1;
      assert ts[..n] == ts[..|ts| - 1];
      assert Answered(ts) ==> forall i :: 0 <= i < n ==> !ts[i].response.NotStreamed?;
      assert Answered(ts[..n]);
      AcceptTurns(ts[..n]);
      AcceptAppend(Fresh, [AgentStart] + EventsOf(ts[..n]), TurnEvents(ts[n]));
      Associate([AgentStart], EventsOf(ts[..n]), TurnEvents(ts[n]));
      AcceptTurn(ts[n]);
      if !Answered(ts) {
        assert ts[n].response.NotStreamed?;
      }
    }
  }

  /** Main result: the trace of a run that succeeded obeys the protocol and ends it. */
  lemma SucceededRunIsAccepted(base: seq<Message>, ts: seq<Turn>, trace: seq<AgentEvent>, transcript: seq<Message>,
                               produced: seq<Message>)
    requires SucceededRun(base, ts, trace, transcript, produced) && AllProper(ts)
    ensures Accept(Fresh, trace) == Over
  {
    AcceptTurns(ts);
    AcceptAppend(Fresh, [AgentStart] + EventsOf(ts), [AgentEnd(produced)]);
    AcceptOne(Between, AgentEnd(produced));
  }

  /** A refused request cuts the last turn short, and AgentEnd still ends the protocol. */
  lemma RefusedRunIsAccepted(base: seq<Message>, ts: seq<Turn>, trace: seq<AgentEvent>, transcript: seq<Message>,
                             failure: AssistantMessage)
    requires RefusedRun(base, ts, trace, transcript, failure) && AllProper(ts)
    ensures Accept(Fresh, trace) == Over
  {
    var last := AgentEnd([Assistant(failure)]);
    AcceptTurns(ts);
    AcceptAppend(Fresh, [AgentStart] + EventsOf(ts), [last]);
    AcceptOne(Injecting, last);
    AcceptOne(Between, last);
  }

  /** Nothing is accepted after the end, so AgentEnd is the last event of an accepted trace. */
  lemma {:induction false} OverIsLast(trace: seq<AgentEvent>, i: nat)
    requires Accept(Fresh, trace) == Over && i < |trace|
    ensures trace[i].AgentEnd? <==> i == |trace| - 1
  {
    var n := |trace| - 1;
    assert Accept(Fresh, trace[..n]) != Over;
    if i < n && trace[i].AgentEnd? {
      Stuck(trace[..n], i);
    }
  }

  lemma {:induction false} Stuck(trace: seq<AgentEvent>, i: nat)
    requires i < |trace| && trace[i].AgentEnd?
    ensures Accept(Fresh, trace) == Over || Accept(Fresh, trace) == Bad
  {
    var n := |trace| - 1;
    if i < n {
      Stuck(trace[..n], i);
    }
  }
}
