/** Tool batches as listeners see them, however they were run. */
module Batches {
  import opened Types
  import opened History
  import opened Tools
  import opened Protocol
  import opened Traces

  // ----- Parallel and sequential batches -----

  /** What a batch returns, given what its calls come to. */
  ghost predicate Returns(calls: seq<ToolCall>, tools: seq<AgentTool>, envs: nat -> CallEnv, aborted: seq<bool>,
                          outcomes: seq<Outcome>, phase: ToolPhase, results: seq<ToolResultMessage>, terminate: bool)
  {
    && |aborted| == |calls|
    && outcomes == OutcomesFor(calls, tools, envs, aborted)
    && exists events :: Batch(calls, outcomes, phase, results, terminate, events)
  }

  lemma {:induction false} OutcomesAgree(calls: seq<ToolCall>, tools: seq<AgentTool>, envs: nat -> CallEnv,
                                         aborted: seq<bool>, aborted': seq<bool>, i: nat)
    requires i < |calls| == |aborted| == |aborted'| && aborted[i] == aborted'[i]
    ensures OutcomesFor(calls, tools, envs, aborted)[i] == OutcomesFor(calls, tools, envs, aborted')[i]
  {
    var n := |calls| - 1;
    if i < n {
      OutcomesAgree(calls[..n], tools, envs, aborted[..n], aborted'[..n], i);
    }
  }

  lemma {:induction false} ResultAt(cs: seq<ToolCall>, os: seq<Outcome>, i: nat)
    requires i < |cs| == |os|
    ensures ResultsOf(cs, os)[i] == ResultOf(cs[i], os[i])
  {
    var n := |cs| - 1;
    if i < n {
      ResultAt(cs[..n], os[..n], i);
    }
  }

  /** A parallel and a sequential batch of the same calls under the same answers return the same
      message for every call that both cut short or neither did, whatever the order in which the
      calls completed; if they agree on all of them, they return the same verdict too. */
  lemma ParallelRefinesSequential(
    calls: seq<ToolCall>, tools: seq<AgentTool>, envs: nat -> CallEnv,
    aborted: seq<bool>, outcomes: seq<Outcome>, phase: ToolPhase, results: seq<ToolResultMessage>, terminate: bool,
    aborted': seq<bool>, outcomes': seq<Outcome>, phase': ToolPhase, results': seq<ToolResultMessage>, terminate': bool)
    requires Returns(calls, tools, envs, aborted, outcomes, phase, results, terminate) && phase.Concurrent?
    requires Returns(calls, tools, envs, aborted', outcomes', phase', results', terminate') && phase'.InOrder?
    ensures |results| == |results'| == |calls|
    ensures forall i :: 0 <= i < |calls| && aborted[i] == aborted'[i] ==> results[i] == results'[i]
    ensures aborted == aborted' ==> results == results' && terminate == terminate'
  {
    forall i | 0 <= i < |calls| && aborted[i] == aborted'[i] ensures results[i] == results'[i] {
      OutcomesAgree(calls, tools, envs, aborted, aborted', i);
      ResultAt(calls, outcomes, i);
      ResultAt(calls, outcomes', i);
    }
  }

  /** In particular, if nothing was cut short. */
  lemma UncutBatchesAgree(
    calls: seq<ToolCall>, tools: seq<AgentTool>, envs: nat -> CallEnv,
    aborted: seq<bool>, outcomes: seq<Outcome>, phase: ToolPhase, results: seq<ToolResultMessage>, terminate: bool,
    aborted': seq<bool>, outcomes': seq<Outcome>, phase': ToolPhase, results': seq<ToolResultMessage>, terminate': bool)
    requires Returns(calls, tools, envs, aborted, outcomes, phase, results, terminate) && phase.Concurrent?
    requires Returns(calls, tools, envs, aborted', outcomes', phase', results', terminate') && phase'.InOrder?
    requires true !in aborted && true !in aborted'
    ensures results == results' && terminate == terminate'
  {
    forall i | 0 <= i < |calls| ensures aborted[i] == aborted'[i] {
      assert aborted[i] in aborted && aborted'[i] in aborted';
    }
    assert aborted == aborted';
    ParallelRefinesSequential(calls, tools, envs, aborted, outcomes, phase, results, terminate,
                              aborted', outcomes', phase', results', terminate');
  }

  // ----- What the results say -----

  lemma {:induction false} OutcomeAt(calls: seq<ToolCall>, tools: seq<AgentTool>, envs: nat -> CallEnv,
                                     aborted: seq<bool>, i: nat)
    requires i < |calls| == |aborted|
    ensures OutcomesFor(calls, tools, envs, aborted)[i] == OutcomeFor(calls[i], tools, envs(i), aborted[i])
  {
    var n := |calls| - 1;
    if i < n {
      OutcomeAt(calls[..n], tools, envs, aborted[..n], i);
      assert calls[..n][i] == calls[i] && aborted[..n][i] == aborted[i];
    }
  }

  function Words(text: string): seq<ContentBlock> {
    [Text(TextContent(text, None))]
  }

  /** Main result, for a call that reached its tool.  Unless it was cut short or the after-hook says
      otherwise, its result is an error exactly if the tool raised one; content, details and wish to stop
      are those of the tool, or of the error, wherever the hook gives none. */
  lemma ResultSays(calls: seq<ToolCall>, tools: seq<AgentTool>, envs: nat -> CallEnv, aborted: seq<bool>,
                   outcomes: seq<Outcome>, phase: ToolPhase, results: seq<ToolResultMessage>, terminate: bool, i: nat)
    requires Returns(calls, tools, envs, aborted, outcomes, phase, results, terminate)
    requires i < |calls| && Prepare(calls[i], tools, envs(i)).Prepared?
    ensures |results| == |calls| && results[i].callId == calls[i].id && results[i].toolName == calls[i].name
    ensures var after, run, r := envs(i).after, envs(i).run, results[i];
            var returned := !aborted[i] && run.Returned?;
            && (r.isError <==> if after.Some? && after.value.isError.Some? then after.value.isError.value
                               else aborted[i] || run.Raised?)
            && (after.Some? && after.value.content.Some? ==> r.content == after.value.content.value)
            && (after.None? || after.value.content.None? ==>
                  if returned then r.content == run.result.content
                  else exists text :: r.content == Words(text) && (!aborted[i] ==> text == run.message))
            && (after.Some? && after.value.details.Some? ==> r.details == after.value.details)
            && (after.None? || after.value.details.None? ==> r.details == if returned then run.result.details else None)
            && (after.Some? && after.value.terminate.Some? ==> outcomes[i].result.terminate == after.value.terminate)
            && (after.None? || after.value.terminate.None? ==>
                  outcomes[i].result.terminate == if returned then run.result.terminate else None)
  {
    var env := envs(i);
    OutcomeAt(calls, tools, envs, aborted, i);
    ResultAt(calls, outcomes, i);
    if aborted[i] {
      assert RawOutcome(calls[i], env, true).result.content == Words("aborted: " + calls[i].name);
    } else if env.run.Raised? {
      assert RawOutcome(calls[i], env, false).result.content == Words(env.run.message);
    }
  }

  /** A call that did not reach its tool, or was cut off with its response, is an error. */
  lemma RefusedIsError(calls: seq<ToolCall>, tools: seq<AgentTool>, envs: nat -> CallEnv, aborted: seq<bool>,
                       outcomes: seq<Outcome>, phase: ToolPhase, results: seq<ToolResultMessage>, terminate: bool,
                       i: nat)
    requires Returns(calls, tools, envs, aborted, outcomes, phase, results, terminate)
    requires i < |calls| && Prepare(calls[i], tools, envs(i)).Immediate?
    ensures |results| == |calls| && results[i].callId == calls[i].id && results[i].isError && !terminate
  {
    OutcomeAt(calls, tools, envs, aborted, i);
    ResultAt(calls, outcomes, i);
    if AllTerminate(outcomes) {
      AllAsk(outcomes, i);
    }
  }

  lemma {:induction false} AllAsk(os: seq<Outcome>, i: nat)
    requires i < |os| && AllTerminate(os)
    ensures os[i].result.terminate == Some(true)
  {
    var n := |os| - 1;
    if i < n {
      AllAsk(os[..n], i);
    }
  }

  /** A batch asks the loop to stop exactly if there is a call and every result asks for it. */
  lemma {:induction false} TerminatesExactly(os: seq<Outcome>)
    ensures Terminates(os) <==> os != [] && forall i :: 0 <= i < |os| ==> os[i].result.terminate == Some(true)
  {
    if AllTerminate(os) {
      forall i | 0 <= i < |os| ensures os[i].result.terminate == Some(true) {
        AllAsk(os, i);
      }
    }
    if forall i :: 0 <= i < |os| ==> os[i].result.terminate == Some(true) {
      AskedByAll(os);
    }
  }

  lemma {:induction false} AskedByAll(os: seq<Outcome>)
    requires forall i :: 0 <= i < |os| ==> os[i].result.terminate == Some(true)
    ensures AllTerminate(os)
  {
    if os != [] {
      AskedByAll(os[..|os| - 1]);
    }
  }

  lemma {:induction false} TruncatedIsError(calls: seq<ToolCall>, i: nat)
    requires i < |calls|
    ensures var r := ResultsOf(calls, TruncatedOutcomes(calls))[i];
            r.isError && r.callId == calls[i].id && r.toolName == calls[i].name
    ensures !Terminates(TruncatedOutcomes(calls))
  {
    TruncatedAt(calls, i);
    ResultAt(calls, TruncatedOutcomes(calls), i);
    if Terminates(TruncatedOutcomes(calls)) {
      AllAsk(TruncatedOutcomes(calls), i);
    }
  }

  lemma {:induction false} TruncatedAt(calls: seq<ToolCall>, i: nat)
    requires i < |calls|
    ensures TruncatedOutcomes(calls)[i].isError && TruncatedOutcomes(calls)[i].result.terminate.None?
  {
    var n := |calls| - 1;
    if i < n {
      TruncatedAt(calls[..n], i);
    }
  }

  // ----- Which batches are sequential -----

  /** Tool `j` is the one a call of that name reaches. */
  predicate Reached(tools: seq<AgentTool>, j: nat, name: string) {
    j < |tools| && tools[j].name == name && forall k :: 0 <= k < j ==> tools[k].name != name
  }

  lemma {:induction false} FoundIsFirst(tools: seq<AgentTool>, j: nat, name: string)
    requires Reached(tools, j, name)
    ensures FindTool(tools, name) == Some(tools[j])
  {
    if j > 0 {
      assert tools[0].name != name;
      FoundIsFirst(tools[1..], j - 1, name);
    }
  }

  lemma {:induction false} FirstFound(tools: seq<AgentTool>, name: string) returns (j: nat)
    requires FindTool(tools, name).Some?
    ensures Reached(tools, j, name)
  {
    if tools[0].name == name {
      j := 0;
    } else {
      j := FirstFound(tools[1..], name);
      j := j + 1;
    }
  }

  /** A batch is sequential exactly if that is the default or one of its calls reaches a tool that
      asks for it. */
  lemma SequentialExactly(calls: seq<ToolCall>, tools: seq<AgentTool>, default: ExecutionMode)
    ensures BatchMode(calls, tools, default) == Sequential <==>
              || default == Sequential
              || exists i: nat, j: nat :: i < |calls| && Reached(tools, j, calls[i].name) &&
                                tools[j].executionMode == Some(Sequential)
  {
    if AnySequential(calls, tools) {
      var i :| 0 <= i < |calls| && var t := FindTool(tools, calls[i].name);
               t.Some? && t.value.executionMode == Some(Sequential);
      var j := FirstFound(tools, calls[i].name);
      FoundIsFirst(tools, j, calls[i].name);
    }
    forall i: nat, j: nat |
      i < |calls| && Reached(tools, j, calls[i].name) && tools[j].executionMode == Some(Sequential)
      ensures AnySequential(calls, tools)
    {
      FoundIsFirst(tools, j, calls[i].name);
    }
  }

  // ----- Starts and ends -----

  function IsStartOf(id: string): AgentEvent -> bool {
    (e: AgentEvent) => e.ToolStart? && e.callId == id
  }

  function IsEndOf(id: string): AgentEvent -> bool {
    (e: AgentEvent) => e.ToolEnd? && e.callId == id
  }

  function StartsFor(es: seq<AgentEvent>, id: string): nat {
    Count(es, IsStartOf(id))
  }

  function EndsFor(es: seq<AgentEvent>, id: string): nat {
    Count(es, IsEndOf(id))
  }

  function CallsWith(cs: seq<ToolCall>, id: string): nat {
    if cs == [] then 0 else CallsWith(cs[..|cs| - 1], id) + (if cs[|cs| - 1].id == id then 1 else 0)
  }

  lemma CountsAppend(a: seq<AgentEvent>, b: seq<AgentEvent>, id: string)
    ensures StartsFor(a + b, id) == StartsFor(a, id) + StartsFor(b, id)
    ensures EndsFor(a + b, id) == EndsFor(a, id) + EndsFor(b, id)
  {
    CountAppend(a, b, IsStartOf(id));
    CountAppend(a, b, IsEndOf(id));
  }

  lemma CountedOne(e: AgentEvent, id: string)
    ensures StartsFor([e], id) == if e.ToolStart? && e.callId == id then 1 else 0
    ensures EndsFor([e], id) == if e.ToolEnd? && e.callId == id then 1 else 0
  {
    CountOne(e, IsStartOf(id));
    CountOne(e, IsEndOf(id));
  }

  lemma NotCounted(es: seq<AgentEvent>, id: string)
    requires forall e :: e in es ==> !e.ToolStart? && !e.ToolEnd?
    ensures StartsFor(es, id) == 0 && EndsFor(es, id) == 0
  {
    CountNone(es, IsStartOf(id));
    CountNone(es, IsEndOf(id));
  }

  lemma CallCounted(c: ToolCall, o: Outcome, partials: seq<ToolResult>, id: string)
    ensures var n := if c.id == id then 1 else 0;
            StartsFor(CallEvents(c, o, partials), id) == n && EndsFor(CallEvents(c, o, partials), id) == n
  {
    var report := Pair(Result(ResultOf(c, o)));
    CountedOne(StartOf(c), id);
    CountedOne(EndOf(c, o), id);
    UpdatesAre(c, partials);
    NotCounted(UpdatesOf(c, partials), id);
    NotCounted(report, id);
    CountsAppend([StartOf(c)], UpdatesOf(c, partials), id);
    CountsAppend([EndOf(c, o)], report, id);
    CountsAppend(BeginCall(c, partials), FinishCall(c, o), id);
  }

  lemma {:induction false} InOrderCounted(cs: seq<ToolCall>, os: seq<Outcome>, updates: seq<seq<ToolResult>>,
                                          id: string)
    requires |cs| == |os| == |updates|
    ensures StartsFor(InOrderEvents(cs, os, updates), id) == CallsWith(cs, id)
    ensures EndsFor(InOrderEvents(cs, os, updates), id) == CallsWith(cs, id)
  {
    if cs != [] {
      var n := |cs| - 1;
      InOrderCounted(cs[..n], os[..n], updates[..n], id);
      CallCounted(cs[n], os[n], updates[n], id);
      CountsAppend(InOrderEvents(cs[..n], os[..n], updates[..n]), CallEvents(cs[n], os[n], updates[n]), id);
    }
  }

  lemma {:induction false} StartsCounted(cs: seq<ToolCall>, id: string)
    ensures StartsFor(StartsOf(cs), id) == CallsWith(cs, id) && EndsFor(StartsOf(cs), id) == 0
  {
    if cs != [] {
      var n := |cs| - 1;
      StartsCounted(cs[..n], id);
      CountsAppend(StartsOf(cs[..n]), [StartOf(cs[n])], id);
      CountedOne(StartOf(cs[n]), id);
    }
  }

  lemma {:induction false} AllUnfinished(cs: seq<ToolCall>, n: nat, id: string)
    requires n <= |cs|
    ensures Unfinished(cs, {}, n, id) == CallsWith(cs[..n], id)
  {
    if n > 0 {
      AllUnfinished(cs, n - 1, id);
      assert cs[..n][..n - 1] == cs[..n - 1];
    }
  }

  /** Ends so far and slots still out make up the calls. */
  lemma {:induction false} StepsCounted(cs: seq<ToolCall>, os: seq<Outcome>, steps: seq<ToolStep>, id: string)
    requires |cs| == |os| && Scheduled(|cs|, steps)
    ensures StartsFor(StepEvents(cs, os, steps), id) == 0
    ensures EndsFor(StepEvents(cs, os, steps), id) + Unfinished(cs, FinishedSlots(steps), |cs|, id) == CallsWith(cs, id)
  {
    if steps == [] {
      AllUnfinished(cs, |cs|, id);
      assert cs[..|cs|] == cs;
    } else {
      var n := |steps| - 1;
      var before, s := FinishedSlots(steps[..n]), steps[n];
      StepsCounted(cs, os, steps[..n], id);
      CountsAppend(StepEvents(cs, os, steps[..n]), [EventOfStep(cs, os, s)], id);
      CountedOne(EventOfStep(cs, os, s), id);
      FinishedIsEnded(steps[..n], s.slot);
      if s.Finished? {
        UnfinishedStep(cs, before, s.slot, |cs|, id);
        assert FinishedSlots(steps) == before + {s.slot};
      } else {
        assert FinishedSlots(steps) == before;
      }
    }
  }

  /** Main result: in every batch each call starts once and ends once, even when ids repeat. */
  lemma EachCallStartsAndEndsOnce(cs: seq<ToolCall>, os: seq<Outcome>, phase: ToolPhase, id: string)
    requires ValidPhase(cs, os, phase)
    ensures StartsFor(PhaseEvents(cs, os, phase), id) == CallsWith(cs, id)
    ensures EndsFor(PhaseEvents(cs, os, phase), id) == CallsWith(cs, id)
  {
    match phase {
      case InOrder(updates) => InOrderCounted(cs, os, updates, id);
      case Concurrent(steps) =>
        var reports := PairsOf(ResultMessages(ResultsOf(cs, os)));
        StartsCounted(cs, id);
        StepsCounted(cs, os, steps, id);
        forall k: nat | k < |cs| ensures k in FinishedSlots(steps) {
          FinishedIsEnded(steps, k);
        }
        NoneUnfinished(cs, FinishedSlots(steps), |cs|, id);
        PairsAre(ResultMessages(ResultsOf(cs, os)));
        NotCounted(reports, id);
        CountsAppend(StartsOf(cs), StepEvents(cs, os, steps), id);
        CountsAppend(StartsOf(cs) + StepEvents(cs, os, steps), reports, id);
    }
  }

  lemma NoStartsLater(cs: seq<ToolCall>, os: seq<Outcome>, steps: seq<ToolStep>)
    requires |cs| == |os| && Scheduled(|cs|, steps)
    ensures forall e :: e in StepEvents(cs, os, steps) + PairsOf(ResultMessages(ResultsOf(cs, os))) ==> !e.ToolStart?
  {
    StepsAre(cs, os, steps);
    PairsAre(ResultMessages(ResultsOf(cs, os)));
  }

  /** In a parallel batch the calls start in source order before anything else happens. */
  lemma StartsComeFirst(cs: seq<ToolCall>, os: seq<Outcome>, steps: seq<ToolStep>, i: nat)
    requires ValidPhase(cs, os, Concurrent(steps)) && i < |PhaseEvents(cs, os, Concurrent(steps))|
    ensures PhaseEvents(cs, os, Concurrent(steps))[i].ToolStart? <==> i < |cs|
    ensures i < |cs| ==> PhaseEvents(cs, os, Concurrent(steps))[i] == StartOf(cs[i])
  {
    var starts, middle := StartsOf(cs), StepEvents(cs, os, steps);
    var reports := PairsOf(ResultMessages(ResultsOf(cs, os)));
    StartsAre(cs);
    NoStartsLater(cs, os, steps);
    Concatenated(starts, middle + reports, i);
    Associate(starts, middle, reports);
  }

  lemma Concatenated<T>(a: seq<T>, b: seq<T>, i: nat)
    requires i < |a + b|
    ensures if i < |a| then (a + b)[i] == a[i] else (a + b)[i] in b
  {
    if i >= |a| {
      assert (a + b)[i] == b[i - |a|];
    }
  }
}
