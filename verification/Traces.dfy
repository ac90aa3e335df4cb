/** What kinds of events the pieces of a trace consist of, and counting them. */
module Traces {
  import opened Types
  import opened History

  function Count(es: seq<AgentEvent>, p: AgentEvent -> bool): nat {
    if es == [] then 0 else Count(es[..|es| - 1], p) + (if p(es[|es| - 1]) then 1 else 0)
  }

  lemma {:induction false} CountAppend(a: seq<AgentEvent>, b: seq<AgentEvent>, p: AgentEvent -> bool)
    ensures Count(a + b, p) == Count(a, p) + Count(b, p)
    decreases |b|
  {
    if b == [] {
      AppendEmpty(a);
    } else {
      assert (a + b)[..|a + b| - 1] == a + b[..|b| - 1];
      CountAppend(a, b[..|b| - 1], p);
    }
  }

  lemma {:induction false} CountNone(es: seq<AgentEvent>, p: AgentEvent -> bool)
    requires forall e :: e in es ==> !p(e)
    ensures Count(es, p) == 0
  {
    if es != [] {
      CountNone(es[..|es| - 1], p);
    }
  }

  lemma CountOne(e: AgentEvent, p: AgentEvent -> bool)
    ensures Count([e], p) == if p(e) then 1 else 0
  {
    assert [e][..0] == [];
  }

  predicate IsMessageEvent(e: AgentEvent) {
    e.MessageStart? || e.MessageUpdate? || e.MessageEnd?
  }

  lemma {:induction false} PairsAre(ms: seq<Message>)
    ensures forall e :: e in PairsOf(ms) ==> e.MessageStart? || e.MessageEnd?
  {
    if ms != [] {
      PairsAre(ms[..|ms| - 1]);
    }
  }

  lemma {:induction false} StreamEmits(es: seq<StreamEvent>)
    ensures forall e :: e in ConsumeAll(es).emitted ==> IsMessageEvent(e)
  {
    if es != [] {
      StreamEmits(es[..|es| - 1]);
    }
  }

  lemma ResponseEmits(r: Response)
    ensures forall e :: e in ConsumerOf(r).emitted ==> IsMessageEvent(e)
  {
    if r.Streamed? {
      StreamEmits(r.events);
    }
  }

  lemma {:induction false} UpdatesAre(c: ToolCall, partials: seq<ToolResult>)
    ensures forall e :: e in UpdatesOf(c, partials) ==> e.ToolUpdate?
  {
    if partials != [] {
      UpdatesAre(c, partials[..|partials| - 1]);
    }
  }

  lemma {:induction false} StartsAre(cs: seq<ToolCall>)
    ensures |StartsOf(cs)| == |cs| && forall i :: 0 <= i < |cs| ==> StartsOf(cs)[i] == StartOf(cs[i])
  {
    if cs != [] {
      StartsAre(cs[..|cs| - 1]);
    }
  }

  lemma {:induction false} StepsAre(cs: seq<ToolCall>, os: seq<Outcome>, steps: seq<ToolStep>)
    requires |cs| == |os| && Scheduled(|cs|, steps)
    ensures forall e :: e in StepEvents(cs, os, steps) ==> e.ToolUpdate? || e.ToolEnd?
  {
    if steps != [] {
      StepsAre(cs, os, steps[..|steps| - 1]);
    }
  }

  predicate IsPhaseEvent(e: AgentEvent) {
    e.ToolStart? || e.ToolUpdate? || e.ToolEnd? || e.MessageStart? || e.MessageEnd?
  }

  lemma {:induction false} InOrderAre(cs: seq<ToolCall>, os: seq<Outcome>, updates: seq<seq<ToolResult>>)
    requires |cs| == |os| == |updates|
    ensures forall e :: e in InOrderEvents(cs, os, updates) ==> IsPhaseEvent(e)
  {
    if cs != [] {
      var n := |cs| - 1;
      InOrderAre(cs[..n], os[..n], updates[..n]);
      UpdatesAre(cs[n], updates[n]);
    }
  }

  lemma PhaseAre(cs: seq<ToolCall>, os: seq<Outcome>, phase: ToolPhase)
    requires ValidPhase(cs, os, phase)
    ensures forall e :: e in PhaseEvents(cs, os, phase) ==> IsPhaseEvent(e)
  {
    match phase {
      case InOrder(updates) => InOrderAre(cs, os, updates);
      case Concurrent(steps) =>
        StartsAre(cs);
        StepsAre(cs, os, steps);
        PairsAre(ResultMessages(ResultsOf(cs, os)));
    }
  }
}
