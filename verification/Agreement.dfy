/** The records of a run agree: what the trace closed, what was produced, what the transcript
    grew by, and the runtime state that the sink reduced. */
module Agreement {
  import opened Types
  import opened History
  import opened Streams
  import opened Protocol
  import opened Traces

  // ----- Messages closed by the trace -----

  /** The messages of the MessageEnd events, in order. */
  function MessageEnds(es: seq<AgentEvent>): seq<Message> {
    if es == [] then []
    else
      var e := es[|es| - 1];
      MessageEnds(es[..|es| - 1]) + (if e.MessageEnd? then [e.message] else [])
  }

  lemma {:induction false} EndsAppend(a: seq<AgentEvent>, b: seq<AgentEvent>)
    ensures MessageEnds(a + b) == MessageEnds(a) + MessageEnds(b)
    decreases |b|
  {
    if b == [] {
      AppendEmpty(a);
    } else {
      var n := |b| - 1;
      assert (a + b)[..|a + b| - 1] == a + b[..n];
      EndsAppend(a, b[..n]);
      Associate(MessageEnds(a), MessageEnds(b[..n]), if b[n].MessageEnd? then [b[n].message] else []);
    }
  }

  lemma {:induction false} NoEnds(es: seq<AgentEvent>)
    requires forall e :: e in es ==> !e.MessageEnd?
    ensures MessageEnds(es) == []
  {
    if es != [] {
      NoEnds(es[..|es| - 1]);
    }
  }

  lemma OneEnd(m: Message)
    ensures MessageEnds([MessageEnd(m)]) == [m]
    ensures MessageEnds(Pair(m)) == [m]
  {
    assert [MessageEnd(m)][..0] == [];
    assert Pair(m)[..1] == [MessageStart(m)];
    assert [MessageStart(m)][..0] == [];
  }

  lemma {:induction false} EndsOfPairs(ms: seq<Message>)
    ensures MessageEnds(PairsOf(ms)) == ms
  {
    if ms != [] {
      var n := |ms| - 1;
      EndsOfPairs(ms[..n]);
      EndsAppend(PairsOf(ms[..n]), Pair(ms[n]));
      OneEnd(ms[n]);
      assert ms == ms[..n] + [ms[n]];
    }
  }

  lemma EndsOfBalanced(c: Consumer)
    requires Balanced(c)
    ensures MessageEnds(c.emitted) == [Assistant(c.final.value)]
  {
    var n := |c.emitted| - 1;
    assert c.emitted == c.emitted[..n] + [c.emitted[n]];
    NoEnds(c.emitted[..n]);
    EndsAppend(c.emitted[..n], [c.emitted[n]]);
    OneEnd(Assistant(c.final.value));
  }

  lemma EndsOfCall(c: ToolCall, o: Outcome, partials: seq<ToolResult>)
    ensures MessageEnds(CallEvents(c, o, partials)) == [Result(ResultOf(c, o))]
  {
    UpdatesAre(c, partials);
    NoEnds(UpdatesOf(c, partials));
    NoEnds([StartOf(c)]);
    NoEnds([EndOf(c, o)]);
    EndsAppend([StartOf(c)], UpdatesOf(c, partials));
    EndsAppend([EndOf(c, o)], Pair(Result(ResultOf(c, o))));
    OneEnd(Result(ResultOf(c, o)));
    EndsAppend(BeginCall(c, partials), FinishCall(c, o));
  }

  lemma ResultMessagesSnoc(rs: seq<ToolResultMessage>, r: ToolResultMessage)
    ensures ResultMessages(rs + [r]) == ResultMessages(rs) + [Result(r)]
  {
    assert (rs + [r])[..|rs|] == rs;
  }

  lemma {:induction false} EndsInOrder(cs: seq<ToolCall>, os: seq<Outcome>, updates: seq<seq<ToolResult>>)
    requires |cs| == |os| == |updates|
    ensures MessageEnds(InOrderEvents(cs, os, updates)) == ResultMessages(ResultsOf(cs, os))
  {
    if cs != [] {
      var n := |cs| - 1;
      EndsInOrder(cs[..n], os[..n], updates[..n]);
      EndsOfCall(cs[n], os[n], updates[n]);
      EndsAppend(InOrderEvents(cs[..n], os[..n], updates[..n]), CallEvents(cs[n], os[n], updates[n]));
      ResultMessagesSnoc(ResultsOf(cs[..n], os[..n]), ResultOf(cs[n], os[n]));
    }
  }

  /** Whatever the order in which calls complete, their results are closed in source order. */
  lemma EndsOfPhase(cs: seq<ToolCall>, os: seq<Outcome>, phase: ToolPhase)
    requires ValidPhase(cs, os, phase)
    ensures MessageEnds(PhaseEvents(cs, os, phase)) == ResultMessages(ResultsOf(cs, os))
  {
    match phase {
      case InOrder(updates) => EndsInOrder(cs, os, updates);
      case Concurrent(steps) =>
        var reports := ResultMessages(ResultsOf(cs, os));
        StartsAre(cs);
        StepsAre(cs, os, steps);
        NoEnds(StartsOf(cs));
        NoEnds(StepEvents(cs, os, steps));
        EndsOfPairs(reports);
        EndsAppend(StartsOf(cs), StepEvents(cs, os, steps));
        EndsAppend(StartsOf(cs) + StepEvents(cs, os, steps), PairsOf(reports));
    }
  }

  ghost predicate OrderlyTurn(t: Turn) {
    t.response.Streamed? ==> Orderly(t.response.events)
  }

  ghost predicate AllOrderly(ts: seq<Turn>) {
    forall i :: 0 <= i < |ts| ==> OrderlyTurn(ts[i])
  }

  lemma EndsFour(a: seq<AgentEvent>, b: seq<AgentEvent>, c: seq<AgentEvent>, d: seq<AgentEvent>)
    ensures MessageEnds(a + b + c + d) == MessageEnds(a) + MessageEnds(b) + MessageEnds(c) + MessageEnds(d)
  {
    EndsAppend(a, b);
    EndsAppend(a + b, c);
    EndsAppend(a + b + c, d);
  }

  lemma EndsOfOpening(t: Turn)
    ensures MessageEnds([TurnStart] + PairsOf(InjectedMessages(t.injected))) == InjectedMessages(t.injected)
  {
    var js := InjectedMessages(t.injected);
    NoEnds([TurnStart]);
    EndsAppend([TurnStart], PairsOf(js));
    EndsOfPairs(js);
    assert [] + js == js;
  }

  lemma EndsOfResponse(t: Turn)
    requires OrderlyTurn(t)
    ensures MessageEnds(ConsumerOf(t.response).emitted) == ConsumerOf(t.response).pushed
    ensures ConsumerOf(t.response).pushed == if FinalOf(t).None? then [] else [Assistant(FinalOf(t).value)]
  {
    if !t.response.NotStreamed? {
      ResponseBalanced(t.response);
      EndsOfBalanced(ConsumerOf(t.response));
    }
  }

  lemma TurnAgreement(t: Turn)
    requires ValidTurn(t) && OrderlyTurn(t)
    ensures MessageEnds(TurnEvents(t)) == TurnNew(t)
    ensures TurnTranscript(t) == TurnNew(t)
  {
    EndsOfOpening(t);
    EndsOfResponse(t);
    EndsOfPhase(CallsRun(t), t.outcomes, t.phase);
    NoEnds(ClosingEvents(t));
    EndsFour([TurnStart] + PairsOf(InjectedMessages(t.injected)), ConsumerOf(t.response).emitted,
             PhaseEvents(CallsRun(t), t.outcomes, t.phase), ClosingEvents(t));
    AppendEmpty(TurnNew(t));
  }

  lemma {:induction false} TurnsAgreement(ts: seq<Turn>)
    requires ValidTurns(ts) && AllOrderly(ts)
    ensures MessageEnds(EventsOf(ts)) == NewOf(ts)
    ensures TranscriptOf(ts) == NewOf(ts)
  {
    if ts != [] {
      var n := |ts| - 1;
      TurnsAgreement(ts[..n]);
      TurnAgreement(ts[n]);
      EndsAppend(EventsOf(ts[..n]), TurnEvents(ts[n]));
    }
  }

  /** Main result.  On success the messages closed by the trace, in order, are the new messages,
      which are the AgentEnd payload and exactly what the transcript grew by. */
  lemma RecordsAgree(base: seq<Message>, ts: seq<Turn>, trace: seq<AgentEvent>, transcript: seq<Message>,
                     produced: seq<Message>)
    requires SucceededRun(base, ts, trace, transcript, produced) && AllOrderly(ts)
    ensures MessageEnds(trace) == produced
    ensures transcript == base + produced
    ensures trace[|trace| - 1] == AgentEnd(produced)
  {
    TurnsAgreement(ts);
    EndsOfTrace(EventsOf(ts), produced);
  }

  lemma EndsOfTrace(es: seq<AgentEvent>, produced: seq<Message>)
    ensures MessageEnds([AgentStart] + es + [AgentEnd(produced)]) == MessageEnds(es)
  {
    NoEnds([AgentStart]);
    NoEnds([AgentEnd(produced)]);
    EndsAppend([AgentStart], es);
    EndsAppend([AgentStart] + es, [AgentEnd(produced)]);
    assert [] + MessageEnds(es) + [] == MessageEnds(es);
  }

  /** A second Start leaves a stale partial message on the transcript that no other record has. */
  lemma SecondStartBreaksAgreement(first: AssistantMessage, second: AssistantMessage, final: AssistantMessage,
                                   failure: AssistantMessage)
    ensures var es := [Start(first), Start(second), Done(final.stopReason, final)];
            var c := ConsumerOf(Streamed(es, failure));
            && c.pushed == [Assistant(first), Assistant(final)]
            && c.final == Some(final)
            && MessageEnds(c.emitted) == [Assistant(final)]
            && !Orderly(es)
  {
    var es := [Start(first), Start(second), Done(final.stopReason, final)];
    assert es[..2] == [Start(first), Start(second)] && es[..2][..1] == [Start(first)] && es[..1][..0] == [];
    assert ConsumeAll([Start(first)]) == Consume(IDLE_CONSUMER, Start(first));
    assert ConsumeAll(es[..2]) == Consume(ConsumeAll([Start(first)]), Start(second));
    var c := ConsumeAll(es);
    assert c.pushed == [Assistant(first), Assistant(final)];
    var starts := [MessageStart(Assistant(first)), MessageStart(Assistant(second))];
    assert c.emitted == starts + [MessageEnd(Assistant(final))];
    NoEnds(starts);
    EndsAppend(starts, [MessageEnd(Assistant(final))]);
    OneEnd(Assistant(final));
    assert StartedBefore(es, 1) by { assert es[0].Start?; }
    assert !Orderly(es) by { assert es[1].Start?; }
  }
}
