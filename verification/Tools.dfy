/** Preparing, executing and finalizing one tool call: the parts that do not emit events.
    The wording of error results is abbreviated. */
module Tools {
  import opened Types
  import opened History

  datatype ExecutionMode = Sequential | Parallel

  datatype AgentTool = AgentTool(name: string, executionMode: Option<ExecutionMode>)

  datatype BeforeResult = BeforeResult(block: bool, reason: Option<string>, replaceArgs: Option<Json>)

  datatype AfterResult = AfterResult(
    content: Option<seq<ContentBlock>>,
    details: Option<Json>,
    isError: Option<bool>,
    terminate: Option<bool>)

  datatype ToolRun = Returned(result: ToolResult) | Raised(message: string)

  /** What the argument shim, the schema validator, the hooks and the tool answer for one call.
      `None` for a hook also stands for "no such hook". */
  datatype CallEnv = CallEnv(
    prepared: Json,
    invalid: Option<string>,
    before: Option<BeforeResult>,
    invalidReplacement: Option<string>,
    run: ToolRun,
    after: Option<AfterResult>)

  datatype Preparation = Immediate(outcome: Outcome) | Prepared(args: Json)

  function FindTool(tools: seq<AgentTool>, name: string): (tool: Option<AgentTool>)
    ensures tool.None? <==> forall t :: t in tools ==> t.name != name
    ensures tool.Some? ==> tool.value in tools && tool.value.name == name
  {
    if tools == [] then None
    else if tools[0].name == name then Some(tools[0])
    else FindTool(tools[1..], name)
  }

  function ErrorOutcome(message: string): Outcome {
    Outcome(ErrorResult(message), true)
  }

  function Prepare(call: ToolCall, tools: seq<AgentTool>, env: CallEnv): (p: Preparation)
    // a call reaches its tool only if the tool exists and every check passed
    ensures p.Prepared? <==>
              && (exists t :: t in tools && t.name == call.name)
              && env.invalid.None?
              && (env.before.Some? ==>
                    && !env.before.value.block
                    && (env.before.value.replaceArgs.Some? ==> env.invalidReplacement.None?))
    // and it runs with the replacement when the hook gave one
    ensures p.Prepared? ==>
              p.args == if env.before.Some? && env.before.value.replaceArgs.Some?
                        then env.before.value.replaceArgs.value else env.prepared
    ensures p.Immediate? ==> p.outcome.isError && p.outcome.result.terminate == None
  {
    var found := FindTool(tools, call.name);
    if found.None? then
      Immediate(ErrorOutcome("not found: " + call.name))
    else if env.invalid.Some? then
      Immediate(ErrorOutcome("invalid: " + env.invalid.value))
    else if env.before.None? then
      Prepared(env.prepared)
    else if env.before.value.block then
      Immediate(ErrorOutcome(
                  if env.before.value.reason.Some? then env.before.value.reason.value
                  else "blocked"))
    else if env.before.value.replaceArgs.None? then
      Prepared(env.prepared)
    else if env.invalidReplacement.Some? then
      Immediate(ErrorOutcome("invalid replacement: " + env.invalidReplacement.value))
    else
      Prepared(env.before.value.replaceArgs.value)
  }

  function RawOutcome(call: ToolCall, env: CallEnv, aborted: bool): Outcome {
    if aborted then ErrorOutcome("aborted: " + call.name)
    else
      match env.run
      case Returned(r) => Outcome(r, false)
      case Raised(m) => ErrorOutcome(m)
  }

  function Override<T>(o: Option<T>, current: T): T {
    if o.Some? then o.value else current
  }

  /** The after-call hook: each field it gives replaces the current one. */
  function ApplyOverride(o: Outcome, after: Option<AfterResult>): Outcome {
    if after.None? then o
    else
      var a := after.value;
      Outcome(
        ToolResult(
          Override(a.content, o.result.content),
          if a.details.Some? then a.details else o.result.details,
          if a.terminate.Some? then a.terminate else o.result.terminate),
        Override(a.isError, o.isError))
  }

  /** What one call comes to, given what tool and hooks answer and whether it was cancelled. */
  function OutcomeFor(call: ToolCall, tools: seq<AgentTool>, env: CallEnv, aborted: bool): Outcome {
    match Prepare(call, tools, env)
    case Immediate(o) => o
    case Prepared(_) => ApplyOverride(RawOutcome(call, env, aborted), env.after)
  }

  function OutcomesFor(calls: seq<ToolCall>, tools: seq<AgentTool>, envs: nat -> CallEnv,
                       aborted: seq<bool>): (os: seq<Outcome>)
    requires |aborted| == |calls|
    ensures |os| == |calls|
  {
    if calls == [] then []
    else
      var n := |calls| - 1;
      OutcomesFor(calls[..n], tools, envs, aborted[..n]) + [OutcomeFor(calls[n], tools, envs(n), aborted[n])]
  }

  predicate AnySequential(calls: seq<ToolCall>, tools: seq<AgentTool>) {
    exists i :: 0 <= i < |calls| &&
                var t := FindTool(tools, calls[i].name); t.Some? && t.value.executionMode == Some(Sequential)
  }

  function BatchMode(calls: seq<ToolCall>, tools: seq<AgentTool>, default: ExecutionMode): ExecutionMode {
    if AnySequential(calls, tools) || default == Sequential then Sequential else Parallel
  }

  // ----- Growing a batch by one call -----

  /** What a sequential batch has produced after its first `i` calls. */
  ghost predicate SequentialPrefix(
    calls: seq<ToolCall>, i: nat, tools: seq<AgentTool>, envs: nat -> CallEnv, os: seq<Outcome>, aborted: seq<bool>,
    updates: seq<seq<ToolResult>>, results: seq<ToolResultMessage>, events: seq<AgentEvent>)
  {
    && i <= |calls| && |os| == |aborted| == |updates| == i
    && os == OutcomesFor(calls[..i], tools, envs, aborted)
    && results == ResultsOf(calls[..i], os)
    && events == InOrderEvents(calls[..i], os, updates)
  }

  lemma SequentialSnoc(
    calls: seq<ToolCall>, i: nat, tools: seq<AgentTool>, envs: nat -> CallEnv, os: seq<Outcome>, aborted: seq<bool>,
    updates: seq<seq<ToolResult>>, results: seq<ToolResultMessage>, events: seq<AgentEvent>,
    partials: seq<ToolResult>, cut: bool)
    requires SequentialPrefix(calls, i, tools, envs, os, aborted, updates, results, events) && i < |calls|
    ensures var o := OutcomeFor(calls[i], tools, envs(i), cut);
            && SequentialPrefix(calls, i + 1, tools, envs, os + [o], aborted + [cut], updates + [partials],
                                results + [ResultOf(calls[i], o)], events + CallEvents(calls[i], o, partials))
            && (AllTerminate(os + [o]) <==> AllTerminate(os) && o.result.terminate == Some(true))
  {
    var o := OutcomeFor(calls[i], tools, envs(i), cut);
    assert calls[..i + 1][..i] == calls[..i] && (os + [o])[..i] == os;
    assert (aborted + [cut])[..i] == aborted && (updates + [partials])[..i] == updates;
  }

  /** A finished batch: one outcome per call, the events they gave rise to, the result messages
      in source order and the verdict on stopping.  The same for every way of running a batch. */
  ghost predicate Batch(calls: seq<ToolCall>, outcomes: seq<Outcome>, phase: ToolPhase,
                        results: seq<ToolResultMessage>, terminate: bool, events: seq<AgentEvent>)
  {
    && ValidPhase(calls, outcomes, phase)
    && results == ResultsOf(calls, outcomes)
    && terminate == Terminates(outcomes)
    && events == PhaseEvents(calls, outcomes, phase)
  }

  lemma SequentialBatch(
    calls: seq<ToolCall>, tools: seq<AgentTool>, envs: nat -> CallEnv, os: seq<Outcome>, aborted: seq<bool>,
    updates: seq<seq<ToolResult>>, results: seq<ToolResultMessage>, terminate: bool, events: seq<AgentEvent>)
    requires SequentialPrefix(calls, |calls|, tools, envs, os, aborted, updates, results, events)
    requires terminate <==> calls != [] && AllTerminate(os)
    ensures |aborted| == |calls| && os == OutcomesFor(calls, tools, envs, aborted)
    ensures Batch(calls, os, InOrder(updates), results, terminate, events)
  {
    assert calls[..|calls|] == calls;
  }

  lemma TruncatedSnoc(calls: seq<ToolCall>, i: nat, updates: seq<seq<ToolResult>>)
    requires i < |calls| && |updates| == i
    ensures var o := TruncatedOutcome(calls[i]);
            var os := TruncatedOutcomes(calls[..i]);
            && TruncatedOutcomes(calls[..i + 1]) == os + [o]
            && ResultsOf(calls[..i + 1], os + [o]) == ResultsOf(calls[..i], os) + [ResultOf(calls[i], o)]
            && InOrderEvents(calls[..i + 1], os + [o], updates + [[]]) ==
               InOrderEvents(calls[..i], os, updates) + CallEvents(calls[i], o, [])
  {
    var os := TruncatedOutcomes(calls[..i]);
    assert calls[..i + 1][..i] == calls[..i] && (os + [TruncatedOutcome(calls[i])])[..i] == os;
    assert (updates + [[]])[..i] == updates;
  }

  lemma TruncatedBatch(calls: seq<ToolCall>, updates: seq<seq<ToolResult>>)
    requires |updates| == |calls|
    ensures var os := TruncatedOutcomes(calls);
            Batch(calls, os, InOrder(updates), ResultsOf(calls, os), false, InOrderEvents(calls, os, updates))
  {
    if calls != [] {
      var os := TruncatedOutcomes(calls);
      assert os[|os| - 1] == TruncatedOutcome(calls[|calls| - 1]);
    }
  }

  lemma {:induction false} OutcomesPointwise(calls: seq<ToolCall>, tools: seq<AgentTool>, envs: nat -> CallEnv,
                                             aborted: seq<bool>, os: seq<Outcome>)
    requires |aborted| == |os| == |calls|
    requires forall k :: 0 <= k < |calls| ==> os[k] == OutcomeFor(calls[k], tools, envs(k), aborted[k])
    ensures os == OutcomesFor(calls, tools, envs, aborted)
  {
    if calls != [] {
      var n := |calls| - 1;
      OutcomesPointwise(calls[..n], tools, envs, aborted[..n], os[..n]);
    }
  }

  // ----- The concurrent phase of a parallel batch -----

  /** Which slots are still out, which of those have yet to run, what the ones that ran came to
      before the after-call hook, and the outcomes of the slots that finished. */
  datatype Pool = Pool(
    remaining: set<nat>,
    unsettled: set<nat>,
    raws: map<nat, Outcome>,
    outcomes: seq<Outcome>,
    steps: seq<ToolStep>,      // what happened so far, in order
    aborted: set<nat>)         // slots whose tool lost the race against the token

  /** What each slot must come to, by whether its tool was cut short. */
  type Target = (nat, bool) -> Outcome

  ghost predicate Targets(calls: seq<ToolCall>, envs: nat -> CallEnv, slots: seq<Preparation>, raw: Target,
                          want: Target)
    requires |slots| == |calls|
  {
    && (forall k: nat, b: bool :: k < |calls| ==> raw(k, b) == RawOutcome(calls[k], envs(k), b))
    && (forall k: nat, b: bool :: k < |calls| ==>
          want(k, b) == if slots[k].Immediate? then slots[k].outcome else ApplyOverride(raw(k, b), envs(k).after))
  }

  ghost function RawTarget(calls: seq<ToolCall>, envs: nat -> CallEnv): Target {
    (k: nat, b: bool) => if k < |calls| then RawOutcome(calls[k], envs(k), b) else ErrorOutcome("")
  }

  ghost function FinalTarget(calls: seq<ToolCall>, tools: seq<AgentTool>, envs: nat -> CallEnv): Target {
    (k: nat, b: bool) => if k < |calls| then OutcomeFor(calls[k], tools, envs(k), b) else ErrorOutcome("")
  }

  ghost predicate PreparedSlots(calls: seq<ToolCall>, tools: seq<AgentTool>, envs: nat -> CallEnv,
                                slots: seq<Preparation>)
  {
    |slots| == |calls| && forall k :: 0 <= k < |calls| ==> slots[k] == Prepare(calls[k], tools, envs(k))
  }

  lemma TargetsHold(calls: seq<ToolCall>, tools: seq<AgentTool>, envs: nat -> CallEnv, slots: seq<Preparation>)
    requires PreparedSlots(calls, tools, envs, slots)
    ensures Targets(calls, envs, slots, RawTarget(calls, envs), FinalTarget(calls, tools, envs))
  {
  }

  ghost predicate PoolShape(n: nat, slots: seq<Preparation>, p: Pool) {
    && |p.outcomes| == |slots| == n
    && Scheduled(n, p.steps)
    && (forall k: nat :: k in p.remaining <==> k < n && !Ended(p.steps, k))
    && (forall k :: k in p.unsettled ==> k in p.remaining && k !in p.aborted && slots[k].Prepared?)
  }

  ghost predicate PoolOutcomes(n: nat, slots: seq<Preparation>, raw: Target, want: Target, p: Pool)
    requires PoolShape(n, slots, p)
  {
    && (forall k :: k in p.remaining && k !in p.unsettled && slots[k].Prepared? ==>
          k in p.raws && p.raws[k] == raw(k, k in p.aborted))
    && (forall k: nat :: k < n && k !in p.remaining ==> p.outcomes[k] == want(k, k in p.aborted))
  }

  ghost predicate PoolOk(n: nat, slots: seq<Preparation>, raw: Target, want: Target, p: Pool) {
    PoolShape(n, slots, p) && forall k :: Ask(k) && k == OfPool ==> PoolOutcomes(n, slots, raw, want, p)
  }

  lemma StepsSnoc(calls: seq<ToolCall>, os: seq<Outcome>, steps: seq<ToolStep>, s: ToolStep)
    requires |os| == |calls| && Scheduled(|calls|, steps) && s.slot < |calls| && !Ended(steps, s.slot)
    ensures Scheduled(|calls|, steps + [s])
    ensures forall k: nat :: Ended(steps + [s], k) <==> Ended(steps, k) || s == Finished(k)
    ensures StepEvents(calls, os, steps + [s]) ==
            StepEvents(calls, os, steps) +
            [if s.Finished? then EndOf(calls[s.slot], os[s.slot]) else UpdateOf(calls[s.slot], s.partial)]
  {
    assert (steps + [s])[..|steps|] == steps;
  }

  function Progressed(p: Pool, k: nat, partial: ToolResult): Pool {
    p.(steps := p.steps + [Progress(k, partial)])
  }

  lemma ProgressedOk(calls: seq<ToolCall>, slots: seq<Preparation>, raw: Target, want: Target, p: Pool, k: nat,
                     partial: ToolResult)
    requires PoolOk(|calls|, slots, raw, want, p) && k in p.remaining
    ensures PoolOk(|calls|, slots, raw, want, Progressed(p, k, partial))
    ensures StepEvents(calls, p.outcomes, Progressed(p, k, partial).steps) ==
            StepEvents(calls, p.outcomes, p.steps) + [UpdateOf(calls[k], partial)]
  {
    assert Ask(OfPool);
    StepsSnoc(calls, p.outcomes, p.steps, Progress(k, partial));
  }

  function Settled(p: Pool, k: nat, outcome: Outcome, cut: bool): Pool {
    p.(unsettled := p.unsettled - {k}, raws := p.raws[k := outcome], aborted := if cut then p.aborted + {k}
       else p.aborted)
  }

  lemma SettledOk(n: nat, slots: seq<Preparation>, raw: Target, want: Target, p: Pool, k: nat, cut: bool)
    requires PoolOk(n, slots, raw, want, p) && k in p.unsettled
    ensures PoolOk(n, slots, raw, want, Settled(p, k, raw(k, cut), cut))
  {
    assert Ask(OfPool);
  }

  function Completed(p: Pool, k: nat, o: Outcome): Pool
    requires k < |p.outcomes|
  {
    p.(remaining := p.remaining - {k}, outcomes := p.outcomes[k := o], steps := p.steps + [Finished(k)])
  }

  lemma CompletedOk(calls: seq<ToolCall>, slots: seq<Preparation>, raw: Target, want: Target, p: Pool, k: nat)
    requires PoolOk(|calls|, slots, raw, want, p) && k in p.remaining && k !in p.unsettled
    ensures var q := Completed(p, k, want(k, k in p.aborted));
            && PoolOk(|calls|, slots, raw, want, q)
            && StepEvents(calls, q.outcomes, q.steps) ==
               StepEvents(calls, p.outcomes, p.steps) + [EndOf(calls[k], want(k, k in p.aborted))]
  {
    assert Ask(OfPool);
    var os := p.outcomes[k := want(k, k in p.aborted)];
    StepEventsAgree(calls, p.outcomes, os, p.steps);
    StepsSnoc(calls, os, p.steps, Finished(k));
  }

  /** What phase 3 of a parallel batch has produced after its first `i` results. */
  ghost predicate ReportedPrefix(calls: seq<ToolCall>, i: nat, os: seq<Outcome>, results: seq<ToolResultMessage>,
                                 events: seq<AgentEvent>)
  {
    && i <= |calls| == |os|
    && results == ResultsOf(calls[..i], os[..i])
    && events == PairsOf(ResultMessages(results))
  }

  lemma ReportedSnoc(calls: seq<ToolCall>, i: nat, os: seq<Outcome>, results: seq<ToolResultMessage>,
                     events: seq<AgentEvent>)
    requires ReportedPrefix(calls, i, os, results, events) && i < |calls|
    ensures var r := ResultOf(calls[i], os[i]);
            ReportedPrefix(calls, i + 1, os, results + [r], events + Pair(Result(r)))
    ensures AllTerminate(os[..i + 1]) <==> AllTerminate(os[..i]) && os[i].result.terminate == Some(true)
  {
    var r := ResultOf(calls[i], os[i]);
    assert calls[..i + 1][..i] == calls[..i] && os[..i + 1][..i] == os[..i];
    assert (results + [r])[..i] == results;
    var ms := ResultMessages(results + [r]);
    assert ms[..i] == ResultMessages(results);
  }

  lemma RawKnown(n: nat, slots: seq<Preparation>, raw: Target, want: Target, p: Pool, k: nat)
    requires PoolOk(n, slots, raw, want, p) && k in p.remaining && k !in p.unsettled && slots[k].Prepared?
    ensures k in p.raws && p.raws[k] == raw(k, k in p.aborted)
  {
    assert Ask(OfPool);
  }

  lemma PoolDone(n: nat, slots: seq<Preparation>, raw: Target, want: Target, pool: Pool)
    requires PoolOk(n, slots, raw, want, pool) && pool.remaining == {}
    ensures forall k: nat :: k < n ==> pool.outcomes[k] == want(k, k in pool.aborted)
  {
    assert Ask(OfPool);
    forall k: nat | k < n ensures pool.outcomes[k] == want(k, k in pool.aborted) {
      assert k !in pool.remaining;
    }
  }

  lemma ParallelBatch(
    calls: seq<ToolCall>, tools: seq<AgentTool>, envs: nat -> CallEnv, slots: seq<Preparation>, raw: Target, pool: Pool,
    during: seq<AgentEvent>, results: seq<ToolResultMessage>, reported: seq<AgentEvent>, terminate: bool)
    returns (aborted: seq<bool>)
    requires PoolOk(|calls|, slots, raw, FinalTarget(calls, tools, envs), pool) && pool.remaining == {}
    requires during == StepEvents(calls, pool.outcomes, pool.steps)
    requires ReportedPrefix(calls, |calls|, pool.outcomes, results, reported)
    requires terminate <==> calls != [] && AllTerminate(pool.outcomes)
    ensures |aborted| == |calls| && pool.outcomes == OutcomesFor(calls, tools, envs, aborted)
    ensures pool.aborted == {} ==> true !in aborted
    ensures Batch(calls, pool.outcomes, Concurrent(pool.steps), results, terminate, StartsOf(calls) + during + reported)
  {
    aborted := seq(|calls|, k => k in pool.aborted);
    PoolDone(|calls|, slots, raw, FinalTarget(calls, tools, envs), pool);
    assert calls[..|calls|] == calls && pool.outcomes[..|calls|] == pool.outcomes;
    OutcomesPointwise(calls, tools, envs, aborted, pool.outcomes);
  }

  // ----- A whole turn -----

  /** What happened between the response of a turn and its end. */
  ghost predicate Concluded(a: AssistantMessage, calls: seq<ToolCall>, outcomes: seq<Outcome>, phase: ToolPhase,
                            results: seq<ToolResultMessage>, terminate: bool, events: seq<AgentEvent>)
  {
    && calls == (if a.Failed() then [] else a.Calls())
    && Batch(calls, outcomes, phase, results, terminate, events)
    && (a.stopReason == Length ==> outcomes == TruncatedOutcomes(calls))
  }

  lemma ConcludedTurn(injected: seq<Injection>, response: Response, a: AssistantMessage, calls: seq<ToolCall>,
                      outcomes: seq<Outcome>,
                      phase: ToolPhase, results: seq<ToolResultMessage>, terminate: bool, events: seq<AgentEvent>)
    returns (t: Turn)
    requires ConsumerOf(response).final == Some(a) && FailsAsItShould(response)
    requires Concluded(a, calls, outcomes, phase, results, terminate, events)
    ensures t == Turn(injected, response, phase, outcomes) && FinalOf(t) == Some(a)
    ensures ValidTurn(t) && CallsRun(t) == calls && TurnResults(t) == results
    ensures TurnEvents(t) ==
            [TurnStart] + PairsOf(InjectedMessages(injected)) + ConsumerOf(response).emitted + events +
              [TurnEnd(Assistant(a), results)]
    ensures TurnTranscript(t) == InjectedMessages(injected) + ConsumerOf(response).pushed + ResultMessages(results)
    ensures TurnNew(t) == InjectedMessages(injected) + [Assistant(a)] + ResultMessages(results)
  {
    t := Turn(injected, response, phase, outcomes);
    assert FinalOf(t) == Some(a) && CallsRun(t) == calls;
  }

  /** The records after a turn agree, if those before it did. */
  lemma WholeTurn(base: seq<Message>, ts: seq<Turn>, trace0: seq<AgentEvent>, context0: seq<Message>,
                  new0: seq<Message>,
                  injected: seq<Injection>, response: Response, a: AssistantMessage, calls: seq<ToolCall>,
                    outcomes: seq<Outcome>,
                  phase: ToolPhase, results: seq<ToolResultMessage>, terminate: bool, events: seq<AgentEvent>,
                  trace: seq<AgentEvent>, context: seq<Message>, newMessages: seq<Message>)
    returns (t: Turn)
    requires Agrees(base, ts, trace0, context0, new0)
    requires ConsumerOf(response).final == Some(a) && FailsAsItShould(response)
    requires Concluded(a, calls, outcomes, phase, results, terminate, events)
    requires trace == trace0 + ([TurnStart] + PairsOf(InjectedMessages(injected))) + ConsumerOf(response).emitted +
                      events + [TurnEnd(Assistant(a), results)]
    requires context == context0 + InjectedMessages(injected) + ConsumerOf(response).pushed + ResultMessages(results)
    requires newMessages == new0 + InjectedMessages(injected) + [Assistant(a)] + ResultMessages(results)
    ensures t == Turn(injected, response, phase, outcomes)
    ensures ValidTurn(t) && FinalOf(t) == Some(a) && CallsRun(t) == calls
    ensures Agrees(base, ts + [t], trace, context, newMessages)
  {
    t := ConcludedTurn(injected, response, a, calls, outcomes, phase, results, terminate, events);
    Regroup4(trace0, [TurnStart] + PairsOf(InjectedMessages(injected)), ConsumerOf(response).emitted, events,
             [TurnEnd(Assistant(a), results)]);
    Regroup4(context0, InjectedMessages(injected), ConsumerOf(response).pushed, ResultMessages(results), []);
    Regroup4(new0, InjectedMessages(injected), [Assistant(a)], ResultMessages(results), []);
    TurnAgrees(base, ts, t, trace0, context0, new0);
  }

  lemma Regroup4<T>(a: seq<T>, b: seq<T>, c: seq<T>, d: seq<T>, e: seq<T>)
    ensures a + b + c + d + e == a + (b + c + d + e)
    ensures e == [] ==> a + b + c + d == a + (b + c + d)
  {
  }
}
