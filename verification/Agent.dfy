/** The agent: its queues, transcript and runtime state, and the loop that runs it.

    Every await point is a nondeterministic choice: other tasks may steer, queue follow-ups,
    clear queues or abort (`OthersAct`); the provider stream, the tools, the hooks and the
    scheduler of a parallel batch answer anything.  What a contract below says therefore holds
    for every such choice.  A run is given a `horizon`: when that many turns have been used the
    environment aborts, so every run here is finite; the first turns of a run that would go on
    for ever are those of a run aborted after them. */
module Agents {
  import opened Types
  import opened History
  import opened Looks
  import opened Tools
  import opened PendingQueues

  datatype External = Steer(message: Message) | QueueFollowUp(message: Message) | Abort | ClearSteering | ClearFollowUp

  /** Where the run stood when its token was cancelled: how many turns had ended and been announced. */
  datatype Marks = Marks(ended: nat, turns: nat, polls: nat, requests: nat, toolRuns: nat)

  /** How a turn left the loop: the client refused the request, the run ended, or it goes on,
      with or without tool results for the model to look at. */
  datatype Verdict = Refused | Ended | Continues(moreCalls: bool)

  /** What had been enqueued when a run started, and how often a queue had been cleared. */
  datatype Logs = Logs(steering: seq<Message>, followUp: seq<Message>, steeringClears: nat, followUpClears: nat)

  datatype AgentError = InvalidState(message: string) | Client(message: string)

  datatype RunResult = Ok(messages: seq<Message>) | Err(error: AgentError)

  class Agent {
    const model: Model
    const tools: seq<AgentTool>
    const toolExecution: ExecutionMode
    const steering: PendingQueue
    const followUp: PendingQueue

    var messages: seq<Message>     // the transcript between runs
    var context: seq<Message>      // the transcript of the run in flight
    var newMessages: seq<Message>  // what the run produced
    var cancelled: bool            // the token of the run in flight

    var runtime: Runtime           // what `state()` reads

    ghost var trace: seq<AgentEvent>  // what listeners received during the run
    ghost var turns: seq<Turn>        // the history of the run: its finished turns
    ghost var turnStarts: nat         // turns announced so far
    ghost var polls: nat              // queue polls that passed their cancellation check
    ghost var requests: nat           // provider requests
    ghost var toolRuns: nat           // tool executions that were not cut short
    ghost var atCancel: Marks
    ghost var startRuntime: Runtime         // the runtime state when the run started
    ghost var steeringBase: seq<Message>    // what had been drained from the queues before
    ghost var followUpBase: seq<Message>    // the run and its prompts
    ghost var opening: seq<Injection>       // the prompts of the run
    ghost var logsBefore: Logs              // the logs of the queues when the run started
    ghost var alone: bool                   // whether the first turn gets no more than the prompts
    ghost var stopAsked: bool               // whether the should-stop hook ended the run
    ghost var startQueue: Queued            // the steering queue when the run started
    ghost var heard: seq<Boundary>          // what the looks before each turn found
    ghost var ahead: Boundary               // what the looks since the last turn found

    ghost predicate Valid()
      reads steering, followUp
    {
      steering != followUp && steering.Valid() && followUp.Valid()
    }

    /** The logs of the queues only grow. */
    ghost predicate LogsGrow()
      reads this`logsBefore, steering, followUp
    {
      && logsBefore.steering <= steering.enqueued && logsBefore.followUp <= followUp.enqueued
      && logsBefore.steeringClears <= steering.clears && logsBefore.followUpClears <= followUp.clears
    }

    ghost function LogsNow(): Logs
      reads steering, followUp
    {
      Logs(steering.enqueued, followUp.enqueued, steering.clears, followUp.clears)
    }

    ghost function Began(): Beginning
      reads this`opening, this`alone, this`startQueue
    {
      Beginning(opening, alone, startQueue)
    }

    /** The loop has not looked at its queues since the last turn. */
    ghost predicate Unlooked()
      reads this`opening, this`alone, this`startQueue, this`turns, this`heard, this`ahead
    {
      Heard(Began(), turns, heard) && ahead == NOT_LOOKED
    }

    /** The next turn gets what the looks since the last one found. */
    ghost predicate Ready(pending: seq<Message>, source: Origin)
      reads this`opening, this`alone, this`startQueue, this`turns, this`heard, this`ahead, this`cancelled
    {
      && Heard(Began(), turns, heard) && Found(Began(), turns, ahead, pending, source)
      && (ahead.steering.Skipped? ==> cancelled)
    }

    /** Nothing that cancellation must prevent has happened since the token was cancelled. */
    ghost predicate Frozen()
      reads this`cancelled, this`atCancel, this`polls, this`requests, this`toolRuns
    {
      cancelled ==> atCancel.polls == polls && atCancel.requests == requests && atCancel.toolRuns == toolRuns
    }

    /** Holds between any two steps of a run; the runtime state is the reduction of the trace. */
    ghost predicate Steady()
      reads this`cancelled, this`atCancel, this`polls, this`requests, this`toolRuns
      reads this`trace, this`runtime, this`startRuntime, this`logsBefore, steering, followUp
    {
      steering != followUp && forall k :: Ask(k) && k == OfRun ==>
        Valid() && LogsGrow() && Frozen() && Reduced(startRuntime, trace, runtime)
    }

    /** What `Steady` says, unfolded. */
    lemma SteadyMeans()
      ensures Steady() <==>
                steering != followUp && Valid() && LogsGrow() && Frozen() && runtime == ReduceAll(startRuntime, trace)
    {
      assert Ask(OfRun) && Ask(OfSink);
    }

    /** What a step that polls no queue and starts no turn may do to queues and token. */
    twostate predicate Elapsed()
      reads this, steering, followUp
    {
      && Steady() && TokenMoved()
      && steering.taken == old(steering.taken) && followUp.taken == old(followUp.taken)
    }

    twostate predicate TokenMoved()
      reads this
    {
      && (old(cancelled) ==> cancelled)
      && (old(cancelled) ==> atCancel.turns == old(atCancel.turns) && atCancel.ended == old(atCancel.ended))
      && (cancelled && !old(cancelled) ==> atCancel.turns == turnStarts && atCancel.ended == |old(turns)|)
    }

    constructor (model: Model, tools: seq<AgentTool>, mode: ExecutionMode, steeringMode: DeliveryMode,
                 followUpMode: DeliveryMode,
                 initial: seq<Message>)
      ensures Valid() && fresh(steering) && fresh(followUp)
      ensures messages == initial && !runtime.isStreaming && steering.clears == 0 && followUp.clears == 0
    {
      this.model, this.tools, toolExecution := model, tools, mode;
      steering := new PendingQueue(steeringMode);
      followUp := new PendingQueue(followUpMode);
      messages, context, newMessages, cancelled := initial, [], [], false;
      runtime := Runtime(false, None, {}, None);
      trace, turns, turnStarts, polls, requests, toolRuns := [], [], 0, 0, 0, 0;
    }

    // ----- Other tasks -----

    method CancelToken()
      modifies this`cancelled, this`atCancel
      ensures cancelled
      ensures old(cancelled) ==> atCancel == old(atCancel)
      ensures !old(cancelled) ==> atCancel == Marks(|turns|, turnStarts, polls, requests, toolRuns)
    {
      if !cancelled {
        atCancel := Marks(|turns|, turnStarts, polls, requests, toolRuns);
      }
      cancelled := true;
    }

    /** Any finite number of calls from other tasks. */
    method OthersAct()
      requires Steady()
      modifies this`cancelled, this`atCancel
      modifies steering, followUp
      ensures Elapsed()
      ensures Later(old(Now(steering)), Now(steering))
      ensures Later(old(Now(followUp)), Now(followUp))
    {
      assert Ask(OfRun);
      var n: nat := *;
      while n > 0
        invariant Elapsed()
        invariant Later(old(Now(steering)), Now(steering))
        invariant Later(old(Now(followUp)), Now(followUp))
      {
        var call: External := *;
        match call {
          case Steer(m) => steering.Enqueue(m);
          case QueueFollowUp(m) => followUp.Enqueue(m);
          case Abort => CancelToken();
          case ClearSteering => steering.Clear();
          case ClearFollowUp => followUp.Clear();
        }
        n := n - 1;
      }
    }

    /** An await point at which nothing is polled. */
    method Await()
      requires Steady()
      modifies this`cancelled, this`atCancel
      modifies steering, followUp
      ensures Elapsed()
    {
      OthersAct();
    }

    // ----- Event sink -----

    /** Reduces the runtime state and forwards the event. */
    method Deliver(e: AgentEvent)
      modifies this`trace, this`runtime
      ensures trace == old(trace) + [e]
      ensures runtime == Reduce(old(runtime), e)
    {
      match e {
        case AgentStart => runtime := runtime.(isStreaming := true);
        case MessageStart(m) =>
          if m.Assistant? { runtime := runtime.(streamingMessage := Some(m)); }
        case MessageUpdate(m, _) => runtime := runtime.(streamingMessage := Some(m));
        case MessageEnd(m) =>
          if m.Assistant? { runtime := runtime.(streamingMessage := None); }
        case ToolStart(id, _, _) => runtime := runtime.(pendingToolCalls := runtime.pendingToolCalls + {id});
        case ToolEnd(id, _, _) => runtime := runtime.(pendingToolCalls := runtime.pendingToolCalls - {id});
        case TurnEnd(m, _) =>
          if m.Assistant? && m.assistant.errorMessage.Some? { runtime := runtime.(error := m.assistant.errorMessage); }
        case AgentEnd(_) => runtime := runtime.(streamingMessage := None, isStreaming := false);
        case TurnStart =>
        case ToolUpdate(_, _, _, _) =>
      }
      trace := trace + [e];
    }

    method Emit(e: AgentEvent)
      requires Steady()
      modifies this`trace, this`runtime
      ensures Steady()
      ensures trace == old(trace) + [e]
    {
      assert Ask(OfRun);
      ReducedSnoc(startRuntime, trace, runtime, e);
      Deliver(e);
    }

    method EmitPair(m: Message)
      requires Steady()
      modifies this`trace, this`runtime
      ensures Steady()
      ensures trace == old(trace) + Pair(m)
    {
      Emit(MessageStart(m));
      Emit(MessageEnd(m));
    }

    // ----- Tool batches -----

    method EmitToolResult(call: ToolCall, o: Outcome) returns (r: ToolResultMessage)
      requires Steady()
      modifies this`trace, this`runtime
      ensures Steady()
      ensures r == ResultOf(call, o)
      ensures trace == old(trace) + Pair(Result(r))
    {
      r := ToolResultMessage(call.id, call.name, o.result.content, o.result.details, o.isError);
      EmitPair(Result(r));
    }

    /** The end of a call executed in source order, with its result message. */
    method Report(call: ToolCall, o: Outcome) returns (r: ToolResultMessage)
      requires Steady()
      modifies this`trace, this`runtime
      ensures Steady()
      ensures r == ResultOf(call, o)
      ensures trace == old(trace) + FinishCall(call, o)
    {
      Emit(EndOf(call, o));
      r := EmitToolResult(call, o);
    }

    method FailTruncated(call: ToolCall, o: Outcome) returns (r: ToolResultMessage)
      requires Steady()
      modifies this`trace, this`runtime
      ensures Steady()
      ensures r == ResultOf(call, o)
      ensures trace == old(trace) + CallEvents(call, o, [])
    {
      Emit(StartOf(call));
      assert BeginCall(call, []) == [StartOf(call)];
      Associate(old(trace), BeginCall(call, []), FinishCall(call, o));
      r := Report(call, o);
    }

    /** Fails every call of a response that the output token limit cut off; no tool runs. */
    method FailTruncatedToolCalls(calls: seq<ToolCall>)
      returns (results: seq<ToolResultMessage>, terminate: bool,
               ghost phase: ToolPhase, ghost outcomes: seq<Outcome>, ghost events: seq<AgentEvent>)
      requires Steady()
      modifies this`trace, this`runtime
      ensures Steady()
      ensures Batch(calls, outcomes, phase, results, terminate, events) && phase.InOrder?
      ensures outcomes == TruncatedOutcomes(calls)
      ensures trace == old(trace) + events
    {
      results, outcomes, events := [], [], [];
      ghost var updates: seq<seq<ToolResult>> := [];
      for i := 0 to |calls|
        invariant Steady()
        invariant |updates| == i && outcomes == TruncatedOutcomes(calls[..i]) &&
                  results == ResultsOf(calls[..i], outcomes)
        invariant events == InOrderEvents(calls[..i], outcomes, updates)
        invariant trace == old(trace) + events
      {
        var o := TruncatedOutcome(calls[i]);
        var r := FailTruncated(calls[i], o);
        TruncatedSnoc(calls, i, updates);
        Associate(old(trace), events, CallEvents(calls[i], o, []));
        results, outcomes, updates := results + [r], outcomes + [o], updates + [[]];
        events := events + CallEvents(calls[i], o, []);
      }
      assert calls[..|calls|] == calls;
      TruncatedBatch(calls, updates);
      terminate, phase := false, InOrder(updates);
    }

    /** The race between a tool and the token, which the token wins once cancelled. */
    method Settle(call: ToolCall, env: CallEnv) returns (raw: Outcome, aborted: bool)
      requires Steady()
      modifies this`toolRuns
      ensures Steady()
      ensures raw == RawOutcome(call, env, aborted)
      ensures aborted <==> cancelled
      ensures aborted ==> toolRuns == old(toolRuns)
    {
      assert Ask(OfRun);
      if cancelled {
        raw, aborted := ErrorOutcome("aborted: " + call.name), true;
      } else {
        toolRuns := toolRuns + 1;
        aborted := false;
        match env.run {
          case Returned(r) => raw := Outcome(r, false);
          case Raised(m) => raw := ErrorOutcome(m);
        }
      }
    }

    /** Runs a prepared call, racing it against the token; `raw` is what it came to. */
    method ExecutePrepared(call: ToolCall, env: CallEnv)
      returns (raw: Outcome, ghost partials: seq<ToolResult>, ghost aborted: bool)
      requires Steady()
      modifies this`trace, this`runtime
      modifies this`cancelled, this`atCancel, this`toolRuns
      modifies steering, followUp
      ensures Elapsed()
      ensures raw == RawOutcome(call, env, aborted)
      ensures old(cancelled) ==> aborted
      ensures aborted ==> cancelled && toolRuns == old(toolRuns)
      ensures trace == old(trace) + UpdatesOf(call, partials)
    {
      partials := [];
      var n: nat := *;
      while n > 0
        invariant Elapsed()
        invariant trace == old(trace) + UpdatesOf(call, partials)
        invariant toolRuns == old(toolRuns)
      {
        Await();
        var partial: ToolResult := *;
        Emit(UpdateOf(call, partial));
        assert (partials + [partial])[..|partials|] == partials;
        partials := partials + [partial];
        n := n - 1;
      }
      Await();
      raw, aborted := Settle(call, env);
    }

    /** One call of a sequential batch, from its start event up to its outcome. */
    method Execute(call: ToolCall, env: CallEnv)
      returns (o: Outcome, ghost partials: seq<ToolResult>, ghost aborted: bool)
      requires Steady()
      modifies this`trace, this`runtime
      modifies this`cancelled, this`atCancel, this`toolRuns
      modifies steering, followUp
      ensures Elapsed()
      ensures o == OutcomeFor(call, tools, env, aborted)
      ensures aborted ==> cancelled
      ensures old(cancelled) ==> toolRuns == old(toolRuns)
      ensures trace == old(trace) + BeginCall(call, partials)
    {
      partials, aborted := [], false;
      Emit(StartOf(call));
      Await();
      match Prepare(call, tools, env) {
        case Immediate(outcome) => o := outcome;
        case Prepared(_) =>
          var raw;
          raw, partials, aborted := ExecutePrepared(call, env);
          Await();
          o := ApplyOverride(raw, env.after);
      }
    }

    /** The same up to the result message. */
    method ExecuteInOrder(call: ToolCall, env: CallEnv)
      returns (o: Outcome, r: ToolResultMessage, ghost partials: seq<ToolResult>, ghost aborted: bool)
      requires Steady()
      modifies this`trace, this`runtime
      modifies this`cancelled, this`atCancel, this`toolRuns
      modifies steering, followUp
      ensures Elapsed()
      ensures o == OutcomeFor(call, tools, env, aborted) && r == ResultOf(call, o)
      ensures aborted ==> cancelled
      ensures old(cancelled) ==> toolRuns == old(toolRuns)
      ensures trace == old(trace) + CallEvents(call, o, partials)
    {
      o, partials, aborted := Execute(call, env);
      Associate(old(trace), BeginCall(call, partials), FinishCall(call, o));
      r := Report(call, o);
    }

    /** One call after the other: completion order is source order. */
    method ExecuteSequential(calls: seq<ToolCall>, envs: nat -> CallEnv)
      returns (results: seq<ToolResultMessage>, terminate: bool,
               ghost phase: ToolPhase, ghost outcomes: seq<Outcome>, ghost events: seq<AgentEvent>,
                 ghost aborted: seq<bool>)
      requires Steady()
      modifies this`trace, this`runtime, this`cancelled, this`atCancel, this`toolRuns, steering, followUp
      ensures Elapsed()
      ensures Batch(calls, outcomes, phase, results, terminate, events) && phase.InOrder?
      ensures |aborted| == |calls| && outcomes == OutcomesFor(calls, tools, envs, aborted)
      ensures !cancelled ==> true !in aborted
      ensures old(cancelled) ==> toolRuns == old(toolRuns)
      ensures trace == old(trace) + events
    {
      results, outcomes, aborted, events := [], [], [], [];
      ghost var updates: seq<seq<ToolResult>> := [];
      terminate := calls != [];
      for i := 0 to |calls|
        invariant Elapsed()
        invariant SequentialPrefix(calls, i, tools, envs, outcomes, aborted, updates, results, events)
        invariant terminate <==> calls != [] && AllTerminate(outcomes)
        invariant !cancelled ==> true !in aborted
        invariant old(cancelled) ==> toolRuns == old(toolRuns)
        invariant trace == old(trace) + events
      {
        var o, r, partials, cut := ExecuteInOrder(calls[i], envs(i));
        if o.result.terminate != Some(true) {
          terminate := false;
        }
        SequentialSnoc(calls, i, tools, envs, outcomes, aborted, updates, results, events, partials, cut);
        Associate(old(trace), events, CallEvents(calls[i], o, partials));
        results, outcomes, updates := results + [r], outcomes + [o], updates + [partials];
        aborted, events := aborted + [cut], events + CallEvents(calls[i], o, partials);
      }
      SequentialBatch(calls, tools, envs, outcomes, aborted, updates, results, terminate, events);
      phase := InOrder(updates);
    }

    /** Phase 1 of a parallel batch: calls are announced and prepared in source order. */
    method PrepareAll(calls: seq<ToolCall>, envs: nat -> CallEnv) returns (slots: seq<Preparation>)
      requires Steady()
      modifies this`trace, this`runtime, this`cancelled, this`atCancel, steering, followUp
      ensures Elapsed()
      ensures PreparedSlots(calls, tools, envs, slots)
      ensures trace == old(trace) + StartsOf(calls)
    {
      slots := [];
      for i := 0 to |calls|
        invariant Elapsed()
        invariant |slots| == i && forall k :: 0 <= k < i ==> slots[k] == Prepare(calls[k], tools, envs(k))
        invariant trace == old(trace) + StartsOf(calls[..i])
      {
        TakeNext(calls, i);
        Emit(StartOf(calls[i]));
        Await();
        slots := slots + [Prepare(calls[i], tools, envs(i))];
      }
      TakeAll(calls);
    }

    /** Slot `k` reports progress, comes out of its race, or finishes: whichever is next. */
    method Advance(calls: seq<ToolCall>, envs: nat -> CallEnv, slots: seq<Preparation>, ghost raw: Target,
                   ghost want: Target,
                   pool: Pool, k: nat, progress: bool)
      returns (next: Pool, ghost delta: seq<AgentEvent>)
      requires Steady()
      requires PoolOk(|calls|, slots, raw, want, pool) && k in pool.remaining
      requires Targets(calls, envs, slots, raw, want)
      modifies this`trace, this`runtime, this`toolRuns
      ensures Steady()
      ensures PoolOk(|calls|, slots, raw, want, next)
      ensures next.remaining <= pool.remaining && next.unsettled <= pool.unsettled
      ensures k !in next.remaining || (k in pool.unsettled && k !in next.unsettled) || (k in pool.unsettled && progress)
      ensures next.aborted == pool.aborted || cancelled
      ensures cancelled ==> toolRuns == old(toolRuns)
      ensures trace == old(trace) + delta
      ensures StepEvents(calls, next.outcomes, next.steps) == StepEvents(calls, pool.outcomes, pool.steps) + delta
    {
      if k in pool.unsettled && progress {
        var partial: ToolResult := *;
        Emit(UpdateOf(calls[k], partial));
        ProgressedOk(calls, slots, raw, want, pool, k, partial);
        next, delta := Progressed(pool, k, partial), [UpdateOf(calls[k], partial)];
      } else if k in pool.unsettled {
        var outcome, cut := Settle(calls[k], envs(k));
        SettledOk(|calls|, slots, raw, want, pool, k, cut);
        next, delta := Settled(pool, k, outcome, cut), [];
      } else {
        if slots[k].Prepared? { RawKnown(|calls|, slots, raw, want, pool, k); }
        CompletedOk(calls, slots, raw, want, pool, k);
        var o := if slots[k].Immediate? then slots[k].outcome else ApplyOverride(pool.raws[k], envs(k).after);
        Emit(EndOf(calls[k], o));
        next, delta := Completed(pool, k, o), [EndOf(calls[k], o)];
      }
    }

    /** Other tasks act, and then any slot that is left advances; at most `budget` updates are to come. */
    method AdvanceAny(calls: seq<ToolCall>, envs: nat -> CallEnv, slots: seq<Preparation>, ghost raw: Target,
                      ghost want: Target, pool: Pool, budget: nat)
      returns (next: Pool, left: nat, ghost delta: seq<AgentEvent>)
      requires Steady() && pool.remaining != {}
      requires PoolOk(|calls|, slots, raw, want, pool) && Targets(calls, envs, slots, raw, want)
      modifies this`trace, this`runtime, this`cancelled, this`atCancel, this`toolRuns, steering, followUp
      ensures Elapsed()
      ensures PoolOk(|calls|, slots, raw, want, next)
      ensures next.aborted == pool.aborted || cancelled
      ensures old(cancelled) ==> toolRuns == old(toolRuns)
      ensures |next.remaining| + |next.unsettled| + left < |pool.remaining| + |pool.unsettled| + budget
      ensures trace == old(trace) + delta
      ensures StepEvents(calls, next.outcomes, next.steps) == StepEvents(calls, pool.outcomes, pool.steps) + delta
    {
      Await();
      var k :| k in pool.remaining;
      var progress: bool := *;
      progress := progress && budget > 0;
      left := if progress then budget - 1 else budget;
      next, delta := Advance(calls, envs, slots, raw, want, pool, k, progress);
      Shrinks(pool, next, k);
    }

    /** Phase 2: the slots advance in any order and any interleaving. */
    method RunConcurrently(calls: seq<ToolCall>, envs: nat -> CallEnv, slots: seq<Preparation>, ghost raw: Target,
                           ghost want: Target)
      returns (pool: Pool, ghost events: seq<AgentEvent>)
      requires Steady()
      requires |slots| == |calls|
      requires Targets(calls, envs, slots, raw, want)
      modifies this`trace, this`runtime, this`cancelled, this`atCancel, this`toolRuns, steering, followUp
      ensures Elapsed()
      ensures PoolOk(|calls|, slots, raw, want, pool) && pool.remaining == {}
      ensures !cancelled ==> pool.aborted == {}
      ensures old(cancelled) ==> toolRuns == old(toolRuns)
      ensures trace == old(trace) + events && events == StepEvents(calls, pool.outcomes, pool.steps)
    {
      var all := Slots(|calls|);
      pool := Pool(all, set k | k in all && slots[k].Prepared?, map[], seq(|calls|, _ => ErrorOutcome("")), [], {});
      events := [];
      var budget: nat := *;
      while pool.remaining != {}
        invariant Elapsed()
        invariant PoolOk(|calls|, slots, raw, want, pool)
        invariant !cancelled ==> pool.aborted == {}
        invariant old(cancelled) ==> toolRuns == old(toolRuns)
        invariant events == StepEvents(calls, pool.outcomes, pool.steps)
        invariant trace == old(trace) + events
        decreases |pool.remaining| + |pool.unsettled| + budget
      {
        ghost var delta;
        pool, budget, delta := AdvanceAny(calls, envs, slots, raw, want, pool, budget);
        Associate(old(trace), events, delta);
        events := events + delta;
      }
    }

    /** Phase 3: the result messages, in source order. */
    method ReportAll(calls: seq<ToolCall>, outcomes: seq<Outcome>)
      returns (results: seq<ToolResultMessage>, terminate: bool, ghost events: seq<AgentEvent>)
      requires Steady() && |outcomes| == |calls|
      modifies this`trace, this`runtime
      ensures Steady()
      ensures ReportedPrefix(calls, |calls|, outcomes, results, events)
      ensures terminate <==> calls != [] && AllTerminate(outcomes)
      ensures trace == old(trace) + events
    {
      results, events := [], [];
      terminate := calls != [];
      for i := 0 to |calls|
        invariant Steady()
        invariant ReportedPrefix(calls, i, outcomes, results, events)
        invariant terminate <==> calls != [] && AllTerminate(outcomes[..i])
        invariant trace == old(trace) + events
      {
        if outcomes[i].result.terminate != Some(true) {
          terminate := false;
        }
        var r := EmitToolResult(calls[i], outcomes[i]);
        ReportedSnoc(calls, i, outcomes, results, events);
        Associate(old(trace), events, Pair(Result(r)));
        results, events := results + [r], events + Pair(Result(r));
      }
      assert outcomes[..|calls|] == outcomes;
    }

    /** All calls start in source order, run concurrently, and report in source order. */
    method ExecuteParallel(calls: seq<ToolCall>, envs: nat -> CallEnv)
      returns (results: seq<ToolResultMessage>, terminate: bool,
               ghost phase: ToolPhase, ghost outcomes: seq<Outcome>, ghost events: seq<AgentEvent>,
                 ghost aborted: seq<bool>)
      requires Steady()
      modifies this`trace, this`runtime, this`cancelled, this`atCancel, this`toolRuns, steering, followUp
      ensures Elapsed()
      ensures Batch(calls, outcomes, phase, results, terminate, events) && phase.Concurrent?
      ensures |aborted| == |calls| && outcomes == OutcomesFor(calls, tools, envs, aborted)
      ensures !cancelled ==> true !in aborted
      ensures old(cancelled) ==> toolRuns == old(toolRuns)
      ensures trace == old(trace) + events
    {
      ghost var raw, want := RawTarget(calls, envs), FinalTarget(calls, tools, envs);
      var slots := PrepareAll(calls, envs);
      TargetsHold(calls, tools, envs, slots);
      var pool, during := RunConcurrently(calls, envs, slots, raw, want);
      ghost var reported;
      results, terminate, reported := ReportAll(calls, pool.outcomes);
      outcomes, phase, events := pool.outcomes, Concurrent(pool.steps), StartsOf(calls) + during + reported;
      aborted := ParallelBatch(calls, tools, envs, slots, raw, pool, during, results, reported, terminate);
      Associate(old(trace), StartsOf(calls), during);
      Associate(old(trace), StartsOf(calls) + during, reported);
    }

    // ----- Streaming the assistant response -----

    function Synthesized(reason: string, stop: StopReason): AssistantMessage {
      AssistantMessage([], model.api, model.provider, model.id, 0, stop, Some(reason), None, None)
    }

    /** Overwrites the last transcript message, if there is one. */
    method ReplaceLast(m: Message)
      modifies this`context
      ensures context == Overwrite(old(context), m)
    {
      if context != [] {
        context := context[|context| - 1 := m];
      }
    }

    /** Closes the message being streamed, or inserts a closed one if none was started. */
    method CloseMessage(started: bool, m: Message)
      requires Steady()
      modifies this`context, this`trace, this`runtime
      ensures Steady()
      ensures context == Landed(started, old(context), m)
      ensures trace == old(trace) + Closing(started, m)
    {
      if started {
        ReplaceLast(m);
      } else {
        context := context + [m];
        Emit(MessageStart(m));
      }
      Emit(MessageEnd(m));
    }

    /** One event of the provider stream. */
    method ConsumeEvent(e: StreamEvent, started: bool, final: Option<AssistantMessage>)
      returns (started': bool, final': Option<AssistantMessage>)
      requires Steady()
      modifies this`context, this`trace, this`runtime
      ensures Steady()
      ensures started' == (started || e.Start?)
      ensures final' == if e.Terminal() then Some(e.message) else final
      ensures context == Pushes(started, old(context), e)
      ensures trace == old(trace) + Emits(started, e)
    {
      started', final' := started, final;
      match e {
        case Start(p) =>
          context := context + [Assistant(p)];
          started' := true;
          Emit(MessageStart(Assistant(p)));
        case Update(_, p) =>
          if started {
            ReplaceLast(Assistant(p));
            Emit(MessageUpdate(Assistant(p), e));
          }
        case Done(_, a) =>
          CloseMessage(started, Assistant(a));
          final' := Some(a);
        case Failure(_, a) =>
          CloseMessage(started, Assistant(a));
          final' := Some(a);
      }
    }

    /** Consumes the provider stream to its end, whatever it sends. */
    method ConsumeStream(events: seq<StreamEvent>) returns (started: bool, final: Option<AssistantMessage>)
      requires Steady()
      modifies this`context, this`trace, this`runtime, this`cancelled, this`atCancel, steering, followUp
      ensures Elapsed()
      ensures started == ConsumeAll(events).started && final == ConsumeAll(events).final
      ensures started ==> ConsumeAll(events).pushed != []
      ensures context == old(context) + ConsumeAll(events).pushed
      ensures trace == old(trace) + ConsumeAll(events).emitted
    {
      started, final := false, None;
      ghost var c := IDLE_CONSUMER;
      for i := 0 to |events|
        invariant Elapsed()
        invariant c == ConsumeAll(events[..i])
        invariant started == c.started && final == c.final && (started ==> c.pushed != [])
        invariant context == old(context) + c.pushed
        invariant trace == old(trace) + c.emitted
      {
        Await();
        ConsumeSnoc(old(context), events, i);
        Associate(old(trace), c.emitted, Emits(started, events[i]));
        c := Consume(c, events[i]);
        started, final := ConsumeEvent(events[i], started, final);
      }
      assert events[..|events|] == events;
    }

    method StreamAssistantResponse() returns (answer: Option<AssistantMessage>, ghost response: Response)
      requires Steady()
      modifies this`context, this`trace, this`runtime, this`cancelled, this`atCancel, this`requests, steering, followUp
      ensures Elapsed()
      ensures answer == ConsumerOf(response).final && FailsAsItShould(response)
      ensures answer.None? <==> response.NotStreamed?
      ensures context == old(context) + ConsumerOf(response).pushed
      ensures trace == old(trace) + ConsumerOf(response).emitted
      // a cancelled run asks the provider nothing and answers with an aborted message
      ensures old(cancelled) ==> response.Withheld? && requests == old(requests)
      ensures response.Withheld? ==> cancelled && response.message.stopReason == Aborted
    {
      Await();  // context transform, conversion and key resolution are awaited here
      if cancelled {
        var aborted := Synthesized("Aborted before request", Aborted);
        CloseMessage(false, Assistant(aborted));
        return Some(aborted), Withheld(aborted);
      }
      requests := requests + 1;
      var refused: bool := *;
      if refused {
        return None, NotStreamed;
      }
      var events: seq<StreamEvent> := *;
      var started, final := ConsumeStream(events);
      var failure := Synthesized("Stream ended without a final message", Error);
      response := Streamed(events, failure);
      if final.Some? {
        answer := final;
      } else {
        CloseMessage(started, Assistant(failure));
        answer := Some(failure);
      }
    }

    // ----- The main loop -----

    /** Runs the calls of a response, in the mode its tools and the configuration ask for. */
    method RunTools(a: AssistantMessage, calls: seq<ToolCall>)
      returns (results: seq<ToolResultMessage>, terminate: bool,
               ghost phase: ToolPhase, ghost outcomes: seq<Outcome>, ghost events: seq<AgentEvent>)
      requires Steady()
      modifies this`trace, this`runtime, this`cancelled, this`atCancel, this`toolRuns, steering, followUp
      ensures Elapsed()
      ensures Batch(calls, outcomes, phase, results, terminate, events)
      ensures a.stopReason == Length ==> outcomes == TruncatedOutcomes(calls) && toolRuns == old(toolRuns)
      ensures phase.Concurrent? <==> a.stopReason != Length && BatchMode(calls, tools, toolExecution) == Parallel
      ensures old(cancelled) ==> toolRuns == old(toolRuns)
      ensures trace == old(trace) + events
    {
      if a.stopReason == Length {
        results, terminate, phase, outcomes, events := FailTruncatedToolCalls(calls);
      } else {
        var envs: nat -> CallEnv := *;
        ghost var aborted: seq<bool>;
        if BatchMode(calls, tools, toolExecution) == Sequential {
          results, terminate, phase, outcomes, events, aborted := ExecuteSequential(calls, envs);
        } else {
          results, terminate, phase, outcomes, events, aborted := ExecuteParallel(calls, envs);
        }
      }
    }

    /** Announces pending messages and appends them to transcript and new messages. */
    method InjectAll(pending: seq<Message>)
      requires Steady()
      modifies this`context, this`newMessages, this`trace, this`runtime
      ensures Steady()
      ensures context == old(context) + pending && newMessages == old(newMessages) + pending
      ensures trace == old(trace) + PairsOf(pending)
    {
      for i := 0 to |pending|
        invariant Steady()
        invariant context == old(context) + pending[..i] && newMessages == old(newMessages) + pending[..i]
        invariant trace == old(trace) + PairsOf(pending[..i])
      {
        assert pending[..i + 1][..i] == pending[..i];
        Associate(old(trace), PairsOf(pending[..i]), Pair(pending[i]));
        EmitPair(pending[i]);
        context, newMessages := context + [pending[i]], newMessages + [pending[i]];
      }
      assert pending[..|pending|] == pending;
    }

    /** Announces a turn, unless that was already done, and what is injected into it. */
    method AnnounceTurn(pending: seq<Message>, source: Origin, first: bool,
                    ghost before: seq<AgentEvent>, ghost prompts: seq<Injection>)
      requires Steady()
      requires trace == before + (if first then [TurnStart] + PairsOf(InjectedMessages(prompts)) else [])
      requires !first ==> prompts == []
      modifies this`context, this`newMessages, this`trace, this`runtime, this`turnStarts
      ensures Steady()
      ensures turnStarts == old(turnStarts) + (if first then 0 else 1)
      ensures context == old(context) + pending && newMessages == old(newMessages) + pending
      ensures trace == before + ([TurnStart] + PairsOf(InjectedMessages(prompts + Tag(pending, source))))
    {
      ghost var already := PairsOf(InjectedMessages(prompts));
      if !first {
        turnStarts := turnStarts + 1;
        Emit(TurnStart);
        AppendEmpty([TurnStart]);
        AppendEmpty(before);
      }
      assert trace == before + ([TurnStart] + already);
      if pending != [] {
        InjectAll(pending);
      }
      OpeningEvents(before, prompts, pending, source);
    }

    /** From the response of a turn to its end: runs its calls, unless it failed, and reports them. */
    method CloseTurn(a: AssistantMessage)
      returns (calls: seq<ToolCall>, results: seq<ToolResultMessage>, terminate: bool,
               ghost phase: ToolPhase, ghost outcomes: seq<Outcome>, ghost events: seq<AgentEvent>)
      requires Steady()
      modifies this`context, this`newMessages, this`trace, this`runtime, this`cancelled, this`atCancel, this`toolRuns,
               steering, followUp
      ensures Elapsed()
      ensures Concluded(a, calls, outcomes, phase, results, terminate, events)
      ensures calls != [] ==> (phase.Concurrent? <==>
                               a.stopReason != Length && BatchMode(calls, tools, toolExecution) == Parallel)
      ensures a.stopReason == Length || old(cancelled) ==> toolRuns == old(toolRuns)
      ensures context == old(context) + ResultMessages(results)
      ensures newMessages == old(newMessages) + [Assistant(a)] + ResultMessages(results)
      ensures trace == old(trace) + events + [TurnEnd(Assistant(a), results)]
    {
      newMessages := newMessages + [Assistant(a)];
      calls, results, terminate, phase, outcomes, events := RunCalls(a);
      Emit(TurnEnd(Assistant(a), results));
    }

    /** Runs the calls of a response that did not fail and appends their results. */
    method RunCalls(a: AssistantMessage)
      returns (calls: seq<ToolCall>, results: seq<ToolResultMessage>, terminate: bool,
               ghost phase: ToolPhase, ghost outcomes: seq<Outcome>, ghost events: seq<AgentEvent>)
      requires Steady()
      modifies this`context, this`newMessages, this`trace, this`runtime, this`cancelled, this`atCancel, this`toolRuns,
               steering, followUp
      ensures Elapsed()
      ensures Concluded(a, calls, outcomes, phase, results, terminate, events)
      ensures calls != [] ==> (phase.Concurrent? <==>
                               a.stopReason != Length && BatchMode(calls, tools, toolExecution) == Parallel)
      ensures a.stopReason == Length || old(cancelled) ==> toolRuns == old(toolRuns)
      ensures context == old(context) + ResultMessages(results)
      ensures newMessages == old(newMessages) + ResultMessages(results)
      ensures trace == old(trace) + events
    {
      calls := if a.Failed() then [] else a.Calls();
      results, terminate, phase, outcomes, events := [], false, NO_TOOLS, [], [];
      assert Batch([], [], NO_TOOLS, [], false, []);
      if calls != [] {
        results, terminate, phase, outcomes, events := RunTools(a, calls);
        AppendResults(results);
      }
    }

    method AppendResults(results: seq<ToolResultMessage>)
      modifies this`context, this`newMessages
      ensures context == old(context) + ResultMessages(results)
      ensures newMessages == old(newMessages) + ResultMessages(results)
    {
      for i := 0 to |results|
        invariant context == old(context) + ResultMessages(results[..i])
        invariant newMessages == old(newMessages) + ResultMessages(results[..i])
      {
        assert results[..i + 1][..i] == results[..i];
        context, newMessages := context + [Result(results[i])], newMessages + [Result(results[i])];
      }
      assert results[..|results|] == results;
    }

    /** Announces a turn and gets its response.  `trace0`, `context0` and `new0` are the records
        before the turn; a first turn was already announced, with the prompts.  With `giveUp` the
        environment aborts the run before the request. */
    method Respond(pending: seq<Message>, source: Origin, first: bool, giveUp: bool, ghost prompts: seq<Injection>,
                   ghost trace0: seq<AgentEvent>, ghost context0: seq<Message>, ghost new0: seq<Message>)
      returns (answer: Option<AssistantMessage>, ghost response: Response)
      requires Steady()
      requires trace == trace0 + (if first then [TurnStart] + PairsOf(InjectedMessages(prompts)) else [])
      requires context == context0 + InjectedMessages(prompts) && newMessages == new0 + InjectedMessages(prompts)
      requires !first ==> prompts == []
      modifies this`context, this`newMessages, this`trace, this`runtime, this`cancelled, this`atCancel
      modifies this`turnStarts, this`requests, steering, followUp
      ensures Elapsed()
      ensures turnStarts == old(turnStarts) + (if first then 0 else 1)
      ensures answer == ConsumerOf(response).final && (answer.None? <==> response.NotStreamed?)
      ensures FailsAsItShould(response)
      ensures ResponseRecorded(prompts + Tag(pending, source), response, trace0, context0, new0)
      ensures old(cancelled) || giveUp ==> response.Withheld? && requests == old(requests)
      ensures response.Withheld? ==> cancelled && response.message.stopReason == Aborted
    {
      AnnounceTurn(pending, source, first, trace0, prompts);
      TaggedMessages(prompts, pending, source);
      Associate(context0, InjectedMessages(prompts), pending);
      Associate(new0, InjectedMessages(prompts), pending);
      if giveUp {
        CancelToken();
      }
      answer, response := StreamAssistantResponse();
    }

    /** The records hold an announced turn and its response, if any. */
    ghost predicate ResponseRecorded(js: seq<Injection>, response: Response,
                                     trace0: seq<AgentEvent>, context0: seq<Message>, new0: seq<Message>)
      reads this
    {
      forall k :: Ask(k) && k == OfTurn ==>
        && trace == trace0 + ([TurnStart] + PairsOf(InjectedMessages(js))) + ConsumerOf(response).emitted
        && context == context0 + InjectedMessages(js) + ConsumerOf(response).pushed
        && newMessages == new0 + InjectedMessages(js)
    }

    /** The rest of a turn that got a response. */
    method Conclude(a: AssistantMessage, ghost response: Response, ghost js: seq<Injection>,
                    ghost trace0: seq<AgentEvent>, ghost context0: seq<Message>, ghost new0: seq<Message>)
      returns (moreCalls: bool, ghost t: Turn)
      requires Steady() && Agrees(messages, turns, trace0, context0, new0)
      requires ConsumerOf(response).final == Some(a) && FailsAsItShould(response)
      requires ResponseRecorded(js, response, trace0, context0, new0)
      modifies this`context, this`newMessages, this`trace, this`runtime, this`cancelled, this`atCancel
      modifies this`turns, this`toolRuns, steering, followUp
      ensures Elapsed()
      ensures turns == old(turns) + [t] && t.injected == js && t.response == response
      ensures TurnDone(t, a, moreCalls)
      ensures Agrees(messages, turns, trace, context, newMessages)
    {
      assert Ask(OfTurn);
      var calls, results, terminate;
      ghost var phase, outcomes, events;
      calls, results, terminate, phase, outcomes, events := CloseTurn(a);
      moreCalls := calls != [] && !terminate;
      t := WholeTurn(messages, turns, trace0, context0, new0, js, response, a, calls, outcomes, phase, results,
                     terminate, events, trace, context, newMessages);
      turns := turns + [t];
    }

    /** The loop goes on without new input exactly when some call of the turn does not ask it to stop. */
    ghost predicate TurnDone(t: Turn, a: AssistantMessage, moreCalls: bool) {
      forall k :: Ask(k) && k == OfTurn ==>
        && ValidTurn(t) && FinalOf(t) == Some(a)
        && (moreCalls <==> MoreCalls(t))
        && (CallsRun(t) != [] ==>
              (t.phase.Concurrent? <==>
                 a.stopReason != Length && BatchMode(CallsRun(t), tools, toolExecution) == Parallel))
    }

    /** One turn of the loop, from its announcement to its TurnEnd. */
    method RunTurn(pending: seq<Message>, source: Origin, first: bool, giveUp: bool, ghost prompts: seq<Injection>,
                   ghost trace0: seq<AgentEvent>, ghost context0: seq<Message>, ghost new0: seq<Message>)
      returns (answer: Option<AssistantMessage>, moreCalls: bool, ghost t: Turn)
      requires Steady() && Agrees(messages, turns, trace0, context0, new0)
      requires trace == trace0 + (if first then [TurnStart] + PairsOf(InjectedMessages(prompts)) else [])
      requires context == context0 + InjectedMessages(prompts) && newMessages == new0 + InjectedMessages(prompts)
      requires !first ==> prompts == []
      modifies this`context, this`newMessages, this`trace, this`runtime, this`cancelled, this`atCancel
      modifies this`turns, this`turnStarts, this`requests, this`toolRuns, steering, followUp
      ensures Elapsed()
      ensures turnStarts == old(turnStarts) + (if first then 0 else 1)
      ensures t.injected == prompts + Tag(pending, source)
      ensures turns == old(turns) + [t] && Agrees(messages, turns, trace, context, newMessages)
      ensures if answer.Some? then TurnDone(t, answer.value, moreCalls) else t == OpenTurn(t.injected)
      // once cancelled, or given up, the turn fails without a request
      ensures old(cancelled) || giveUp ==> answer.Some? && t.response.Withheld? && requests == old(requests)
      ensures t.response.Withheld? ==> cancelled && t.response.message.stopReason == Aborted
    {
      ghost var response;
      answer, response := Respond(pending, source, first, giveUp, prompts, trace0, context0, new0);
      moreCalls, t := false, Turn(prompts + Tag(pending, source), response, NO_TOOLS, []);
      if answer.Some? {
        moreCalls, t := Conclude(answer.value, response, t.injected, trace0, context0, new0);
      } else {
        RefusedTurn(t.injected, trace0, context0, new0);
        turns := turns + [t];
      }
    }

    lemma RefusedTurn(js: seq<Injection>, trace0: seq<AgentEvent>, context0: seq<Message>, new0: seq<Message>)
      requires Agrees(messages, turns, trace0, context0, new0) &&
               ResponseRecorded(js, NotStreamed, trace0, context0, new0)
      ensures Agrees(messages, turns + [OpenTurn(js)], trace, context, newMessages)
    {
      assert Ask(OfTurn);
      assert ConsumerOf(NotStreamed) == IDLE_CONSUMER;
      AppendEmpty(trace0 + ([TurnStart] + PairsOf(InjectedMessages(js))));
      AppendEmpty(context0 + InjectedMessages(js));
      OpenAgrees(messages, turns, js, trace0, context0, new0);
    }

    /** Every drained message is in the history of the run, among the announced prompts `js`, or
        about to be injected. */
    ghost predicate Accounts(js: seq<Injection>, pending: seq<Message>, source: Origin)
      reads this`steeringBase, this`followUpBase, this`opening, this`turns, steering, followUp
    {
      && Accounted(Steering, steering.taken, steeringBase, turns, js, pending, source)
      && Accounted(FollowUp, followUp.taken, followUpBase, turns, js, pending, source)
      && Accounted(Origin.Prompt, Delivered(opening, Origin.Prompt), [], turns, js, pending, source)
    }

    /** The state whenever the loop is about to decide on a turn. */
    ghost predicate AtTurn(first: bool, prompts: seq<Injection>, pending: seq<Message>, source: Origin)
      reads this`cancelled, this`atCancel, this`polls, this`requests, this`toolRuns
      reads this`trace, this`runtime, this`startRuntime, this`logsBefore, steering, followUp
      reads this`messages, this`turns, this`context, this`newMessages, this`turnStarts
      reads this`steeringBase, this`followUpBase, this`opening, this`alone
    {
      && Steady() && Recorded(first, prompts)
      && (cancelled ==> turnStarts <= atCancel.turns && |turns| <= atCancel.ended)
      && (if first then prompts == opening && (alone ==> pending == []) else Opened())
      && Accounts(if first then prompts else [], pending, source)
    }

    ghost predicate Recorded(first: bool, prompts: seq<Injection>)
      reads this`messages, this`turns, this`trace, this`context, this`newMessages, this`turnStarts
    {
      && (if first then StartRecorded(prompts) else turns != [] && Agrees(messages, turns, trace, context, newMessages))
      && turnStarts == |turns| + (if first then 1 else 0)
      && Answered(turns) && Linked(turns)
    }

    /** The records right after a run announced its first turn and its prompts. */
    ghost predicate StartRecorded(prompts: seq<Injection>)
      reads this`messages, this`turns, this`trace, this`context, this`newMessages
    {
      turns == [] &&
      forall k :: Ask(k) && k == OfTurn ==>
        && trace == [AgentStart] + ([TurnStart] + PairsOf(InjectedMessages(prompts)))
        && context == messages + InjectedMessages(prompts)
        && newMessages == InjectedMessages(prompts)
    }

    /** What cancellation bounds: at most one turn after it, which asks the provider nothing. */
    ghost predicate ShutDown()
      reads this`cancelled, this`atCancel, this`polls, this`requests, this`toolRuns
      reads this`trace, this`runtime, this`startRuntime, this`logsBefore, steering, followUp
      reads this`turns, this`turnStarts, this`opening, this`alone
    {
      Steady() && Opened() && Bounded()
    }

    /** The first turn began with the prompts, and had nothing else if they were to be alone. */
    ghost predicate Opened()
      reads this`turns, this`opening, this`alone
    {
      turns != [] && opening <= turns[0].injected && (alone ==> turns[0].injected == opening)
    }

    /** The run has a reason to end: its last turn failed, it was told to stop or cancelled, or there
        are no tool results to look at and since that turn both queues were found empty. */
    ghost predicate NothingLeft()
      reads this`turns, this`stopAsked, this`cancelled, this`ahead, followUp
    {
      turns != [] &&
      (!GoesOn(turns[|turns| - 1]) || stopAsked || cancelled ||
       (!MoreCalls(turns[|turns| - 1]) && FoundNothing(ahead) && followUp.messages == []))
    }

    ghost predicate Bounded()
      requires turns != []
      reads this`turns, this`turnStarts, this`cancelled, this`atCancel
    {
      && turnStarts == |turns|
      && (cancelled ==> turnStarts <= atCancel.turns + 1 && |turns| <= atCancel.ended + 1)
      && (cancelled && turnStarts > atCancel.turns ==>
            turns[|turns| - 1].response.Withheld? && turns[|turns| - 1].response.message.stopReason == Aborted)
    }

    lemma NothingPending(js: seq<Injection>, source: Origin)
      requires Accounts(js, [], source)
      ensures forall next :: Accounts(js, [], next)
    {
      assert Ask(OfQueues);
    }

    lemma TurnRecorded(a: AssistantMessage, moreCalls: bool)
      requires turns != [] && TurnDone(turns[|turns| - 1], a, moreCalls) && Answered(turns[..|turns| - 1])
      ensures Answered(turns) && FinalOf(turns[|turns| - 1]) == Some(a)
      ensures !a.Failed() ==> GoesOn(turns[|turns| - 1]) && (moreCalls <==> MoreCalls(turns[|turns| - 1]))
      ensures turns[|turns| - 1].response.Withheld? && turns[|turns| - 1].response.message.stopReason == Aborted ==>
              a.Failed()
    {
      assert Ask(OfTurn);
      forall i | 0 <= i < |turns| ensures !turns[i].response.NotStreamed? {
        assert i < |turns| - 1 ==> turns[..|turns| - 1][i] == turns[i];
      }
    }

    /** Polls a queue, unless the run is cancelled. */
    method Poll(q: PendingQueue) returns (ms: seq<Message>, ghost look: Look)
      requires Steady() && (q == steering || q == followUp)
      modifies this`cancelled, this`atCancel, this`polls, steering, followUp
      ensures Steady() && TokenMoved()
      ensures steering.taken == old(steering.taken) + (if q == steering then ms else [])
      ensures followUp.taken == old(followUp.taken) + (if q == followUp then ms else [])
      ensures old(cancelled) ==> polls == old(polls)
      ensures ms == [] ==> cancelled || q.messages == []
      ensures !look.NotLooked? && ms == TakenBy(look) && (look.Skipped? ==> cancelled)
      ensures old(cancelled) ==> look.Skipped?
      ensures look.Looked? ==> q.messages == look.held[|ms|..] && look.mode == q.mode
      ensures look.Looked? ==> Later(old(Now(q)), Queued(look.held, look.clears))
    {
      OthersAct();
      if cancelled {
        return [], Skipped;
      }
      polls := polls + 1;
      OthersAct();  // the hook is awaited after the check
      ms, look := DrainQueue(q);
    }

    method DrainQueue(q: PendingQueue) returns (ms: seq<Message>, ghost look: Look)
      requires Steady() && (q == steering || q == followUp)
      modifies q`messages, q`taken
      ensures Steady()
      ensures q.taken == old(q.taken) + ms
      ensures look == Looked(q.mode, old(q.messages), q.clears) && ms == TakenBy(look)
      ensures q.messages == look.held[|ms|..]
    {
      assert Ask(OfRun);
      look := Looked(q.mode, q.messages, q.clears);
      ms := q.Drain();
    }

    method PollSteering(ghost first: bool, ghost prompts: seq<Injection>, ghost source: Origin)
      returns (ms: seq<Message>)
      requires AtTurn(first, prompts, [], source) && Unlooked()
      requires first ==> !alone && Later(startQueue, Now(steering))
      modifies this`cancelled, this`atCancel, this`polls, this`ahead, steering, followUp
      ensures AtTurn(first, prompts, ms, Steering) && Ready(ms, Steering)
      ensures ahead.followUp.NotLooked?
      ensures old(cancelled) ==> ms == [] && polls == old(polls)
    {
      ghost var look;
      ms, look := Poll(steering);
      SteeringFound(Began(), turns, old(Now(steering)), look);
      ahead := Boundary(look, NotLooked);
      Polled(old(steering.taken), old(followUp.taken), if first then prompts else [], source, ms, Steering);
    }

    /** A poll accounts for what it took. */
    lemma Polled(steeringTaken: seq<Message>, followUpTaken: seq<Message>, js: seq<Injection>, source: Origin,
                 ms: seq<Message>, next: Origin)
      requires Accounted(Steering, steeringTaken, steeringBase, turns, js, [], source)
      requires Accounted(FollowUp, followUpTaken, followUpBase, turns, js, [], source)
      requires Accounted(Origin.Prompt, Delivered(opening, Origin.Prompt), [], turns, js, [], source)
      requires steering.taken == steeringTaken + (if next == Steering then ms else [])
      requires followUp.taken == followUpTaken + (if next == FollowUp then ms else [])
      requires next != Origin.Prompt
      ensures Accounts(js, ms, next)
    {
      AccountedPoll(Steering, steeringTaken, steeringBase, turns, js, source, steering.taken, ms, next);
      AccountedPoll(FollowUp, followUpTaken, followUpBase, turns, js, source, followUp.taken, ms, next);
      PromptsUnpolled(js, source, ms, next);
    }

    lemma PromptsUnpolled(js: seq<Injection>, source: Origin, ms: seq<Message>, next: Origin)
      requires Accounted(Origin.Prompt, Delivered(opening, Origin.Prompt), [], turns, js, [], source) &&
               next != Origin.Prompt
      ensures Accounted(Origin.Prompt, Delivered(opening, Origin.Prompt), [], turns, js, ms, next)
    {
      var prompts := Delivered(opening, Origin.Prompt);
      AppendEmpty(prompts);
      AccountedPoll(Origin.Prompt, prompts, [], turns, js, source, prompts, ms, next);
    }

    method PollFollowUp() returns (ms: seq<Message>)
      requires AtTurn(false, [], [], Steering) && Ready([], Steering) && ahead.followUp.NotLooked?
      requires !MoreCalls(turns[|turns| - 1])
      modifies this`cancelled, this`atCancel, this`polls, this`ahead, steering, followUp
      ensures AtTurn(false, [], ms, FollowUp) && Ready(ms, FollowUp)
      ensures ms == [] ==> cancelled || (FoundNothing(ahead) && followUp.messages == [])
      ensures old(cancelled) ==> ms == [] && polls == old(polls)
    {
      ghost var look;
      ms, look := Poll(followUp);
      FollowUpFound(Began(), turns, ahead, Steering, look);
      ahead := ahead.(followUp := look);
      Polled(old(steering.taken), old(followUp.taken), [], Steering, ms, FollowUp);
    }

    /** A turn accounts for the messages injected into it. */
    lemma TurnAccounts(ts: seq<Turn>, js: seq<Injection>, pending: seq<Message>, source: Origin, t: Turn)
      requires Accounted(Steering, steering.taken, steeringBase, ts, js, pending, source)
      requires Accounted(FollowUp, followUp.taken, followUpBase, ts, js, pending, source)
      requires Accounted(Origin.Prompt, Delivered(opening, Origin.Prompt), [], ts, js, pending, source)
      requires t.injected == js + Tag(pending, source) && turns == ts + [t]
      ensures forall next :: Accounts([], [], next)
    {
      AccountedTurn(Steering, steering.taken, steeringBase, ts, js, pending, source, t);
      AccountedTurn(FollowUp, followUp.taken, followUpBase, ts, js, pending, source, t);
      AccountedTurn(Origin.Prompt, Delivered(opening, Origin.Prompt), [], ts, js, pending, source, t);
    }

    /** The state right after a turn. */
    ghost predicate TurnTaken(answer: Option<AssistantMessage>, moreCalls: bool, giveUp: bool)
      reads this`cancelled, this`atCancel, this`polls, this`requests, this`toolRuns
      reads this`trace, this`runtime, this`startRuntime, this`logsBefore, steering, followUp
      reads this`messages, this`turns, this`context, this`newMessages, this`turnStarts
      reads this`steeringBase, this`followUpBase, this`opening, this`alone
    {
      forall k :: Ask(k) && k == OfTaken ==>
        && ShutDown() && Agrees(messages, turns, trace, context, newMessages)
        && Linked(turns) && Answered(turns[..|turns| - 1])
        && (forall next :: Accounts([], [], next))
        && (if answer.Some? then TurnDone(turns[|turns| - 1], answer.value, moreCalls)
            else turns[|turns| - 1] == OpenTurn(turns[|turns| - 1].injected))
        && (giveUp || (cancelled && turnStarts > atCancel.turns) ==>
              answer.Some? && turns[|turns| - 1].response.Withheld? &&
                turns[|turns| - 1].response.message.stopReason == Aborted)
    }

    lemma FirstRecords(prompts: seq<Injection>)
      requires StartRecorded(prompts)
      ensures trace == [AgentStart] + ([TurnStart] + PairsOf(InjectedMessages(prompts)))
      ensures context == messages + InjectedMessages(prompts) && newMessages == [] + InjectedMessages(prompts)
    {
      assert Ask(OfTurn);
      EmptyThen(InjectedMessages(prompts));
    }

    /** A turn was taken with these messages; it was withheld if the run had been cancelled. */
    ghost predicate TurnBegan(before: seq<Turn>, pending: seq<Message>, source: Origin, wasCancelled: bool)
      reads this`turns, this`opening
    {
      forall k :: Ask(k) && k == OfLooks ==>
        && turns != [] && turns == before + [turns[|turns| - 1]]
        && turns[|turns| - 1].injected == (if before == [] then opening else []) + Tag(pending, source)
        && (wasCancelled ==>
              turns[|turns| - 1].response.Withheld? && turns[|turns| - 1].response.message.stopReason == Aborted)
    }

    /** The first turn of a run, already announced with the prompts. */
    method FirstTurn(pending: seq<Message>, source: Origin, giveUp: bool, ghost prompts: seq<Injection>)
      returns (answer: Option<AssistantMessage>, moreCalls: bool)
      requires AtTurn(true, prompts, pending, source)
      modifies this`context, this`newMessages, this`trace, this`runtime, this`cancelled, this`atCancel
      modifies this`turns, this`turnStarts, this`requests, this`toolRuns, steering, followUp
      ensures TurnTaken(answer, moreCalls, giveUp)
      ensures TurnBegan([], pending, source, old(cancelled))
    {
      NothingRecorded(messages);
      FirstRecords(prompts);
      ghost var t;
      answer, moreCalls, t := RunTurn(pending, source, true, giveUp, prompts, [AgentStart], messages, []);
      FirstTaken(t, pending, source, prompts, answer, moreCalls, giveUp);
    }

    lemma FirstTaken(t: Turn, pending: seq<Message>, source: Origin, prompts: seq<Injection>,
                     answer: Option<AssistantMessage>, moreCalls: bool, giveUp: bool)
      requires Steady() && turns == [t] && turnStarts == 1 && (cancelled ==> 1 <= atCancel.turns)
      requires opening == prompts && (alone ==> pending == []) && t.injected == prompts + Tag(pending, source)
      requires Agrees(messages, turns, trace, context, newMessages)
      requires Accounted(Steering, steering.taken, steeringBase, [], prompts, pending, source)
      requires Accounted(FollowUp, followUp.taken, followUpBase, [], prompts, pending, source)
      requires Accounted(Origin.Prompt, Delivered(opening, Origin.Prompt), [], [], prompts, pending, source)
      requires if answer.Some? then TurnDone(t, answer.value, moreCalls) else t == OpenTurn(t.injected)
      requires giveUp ==> answer.Some? && t.response.Withheld?
      requires t.response.Withheld? ==> t.response.message.stopReason == Aborted
      ensures TurnTaken(answer, moreCalls, giveUp)
    {
      TurnAccounts([], prompts, pending, source, t);
      AppendEmpty(prompts);
    }

    /** Any later turn. */
    method LaterTurn(pending: seq<Message>, source: Origin, giveUp: bool)
      returns (answer: Option<AssistantMessage>, moreCalls: bool)
      requires AtTurn(false, [], pending, source)
      requires GoesOn(turns[|turns| - 1]) && (pending != [] || MoreCalls(turns[|turns| - 1]))
      modifies this`context, this`newMessages, this`trace, this`runtime, this`cancelled, this`atCancel
      modifies this`turns, this`turnStarts, this`requests, this`toolRuns, steering, followUp
      ensures TurnTaken(answer, moreCalls, giveUp)
      ensures TurnBegan(old(turns), pending, source, old(cancelled))
    {
      AppendEmpty(trace);
      AppendEmpty(context);
      AppendEmpty(newMessages);
      ghost var ts, t := turns, OpenTurn([]);
      answer, moreCalls, t := RunTurn(pending, source, false, giveUp, [], trace, context, newMessages);
      assert [] + Tag(pending, source) == Tag(pending, source);
      LinkedSnoc(ts, t, pending, source);
      TurnAccounts(ts, [], pending, source, t);
      TakeBack(ts, t);
    }

    /** A turn from the top of the loop. */
    method NextTurn(pending: seq<Message>, source: Origin, first: bool, giveUp: bool, ghost prompts: seq<Injection>)
      returns (answer: Option<AssistantMessage>, moreCalls: bool)
      requires AtTurn(first, if first then prompts else [], pending, source) && Ready(pending, source)
      requires !first ==> pending != [] || MoreCalls(turns[|turns| - 1])
      requires !first ==> GoesOn(turns[|turns| - 1])
      modifies this`context, this`newMessages, this`trace, this`runtime, this`cancelled, this`atCancel
      modifies this`turns, this`turnStarts, this`requests, this`toolRuns, this`heard, this`ahead, steering, followUp
      ensures TurnTaken(answer, moreCalls, giveUp) && Unlooked()
    {
      ghost var ts := turns;
      if first {
        answer, moreCalls := FirstTurn(pending, source, giveUp, prompts);
      } else {
        answer, moreCalls := LaterTurn(pending, source, giveUp);
      }
      TurnHeard(ts, pending, source, old(cancelled));
      HearTurn(answer, moreCalls, giveUp);
    }

    /** The turn just taken began with what the looks before it found. */
    lemma TurnHeard(ts: seq<Turn>, pending: seq<Message>, source: Origin, wasCancelled: bool)
      requires Heard(Began(), ts, heard) && Found(Began(), ts, ahead, pending, source)
      requires TurnBegan(ts, pending, source, wasCancelled) && (ahead.steering.Skipped? ==> wasCancelled)
      ensures Heard(Began(), turns, heard + [ahead])
    {
      assert Ask(OfLooks);
      HeardSnoc(Began(), ts, heard, ahead, pending, source, turns[|turns| - 1]);
    }

    ghost method HearTurn(answer: Option<AssistantMessage>, moreCalls: bool, giveUp: bool)
      requires TurnTaken(answer, moreCalls, giveUp) && Heard(Began(), turns, heard + [ahead])
      modifies this`heard, this`ahead
      ensures TurnTaken(answer, moreCalls, giveUp) && Unlooked()
    {
      heard, ahead := heard + [ahead], NOT_LOOKED;
    }

    /** The outcome of a run: its records agree with its history, and AgentEnd closes a run that
        the client did not refuse.  `records` is the trace before that. */
    ghost predicate RunRecorded(ok: bool, records: seq<AgentEvent>)
      reads this, steering, followUp
    {
      forall k :: Ask(k) && k == OfOutcome ==>
        && ShutDown() && Heard(Began(), turns, heard) && Agrees(messages, turns, records, context, newMessages)
        && trace == (if ok then records + [AgentEnd(newMessages)] else records)
        && Linked(turns) && Accounts([], [], Steering)
        && (if ok then Answered(turns) && NothingLeft() else Refusal(turns))
    }

    /** The state after a turn that was answered, until the next poll. */
    ghost predicate AfterTurn()
      reads this`cancelled, this`atCancel, this`polls, this`requests, this`toolRuns
      reads this`trace, this`runtime, this`startRuntime, this`logsBefore, steering, followUp
      reads this`messages, this`turns, this`context, this`newMessages, this`turnStarts
      reads this`steeringBase, this`followUpBase, this`opening, this`alone, this`startQueue, this`heard
    {
      forall k :: Ask(k) && k == OfTurn ==>
        ShutDown() && Recorded(false, []) && Accounts([], [], Steering) && Heard(Began(), turns, heard)
    }

    lemma PollNext()
      requires AfterTurn() && !cancelled && ahead == NOT_LOOKED
      ensures AtTurn(false, [], [], Steering) && Unlooked()
    {
      assert Ask(OfTurn);
    }

    /** Other tasks act while the loop awaits something after a turn. */
    method Pause()
      requires AfterTurn()
      modifies this`cancelled, this`atCancel, steering, followUp
      ensures AfterTurn() && TokenMoved()
    {
      assert Ask(OfTurn);
      Await();
    }

    lemma TurnRefused(moreCalls: bool, giveUp: bool)
      requires TurnTaken(None, moreCalls, giveUp) && Heard(Began(), turns, heard)
      ensures RunRecorded(false, trace) && !giveUp
    {
      assert Ask(OfTaken);
    }

    lemma TurnAnswered(a: AssistantMessage, moreCalls: bool, giveUp: bool)
      requires TurnTaken(Some(a), moreCalls, giveUp) && Heard(Began(), turns, heard)
      ensures AfterTurn() && turns != [] && FinalOf(turns[|turns| - 1]) == Some(a)
      ensures !a.Failed() ==> GoesOn(turns[|turns| - 1]) && (moreCalls <==> MoreCalls(turns[|turns| - 1]))
      ensures giveUp || (cancelled && turnStarts > atCancel.turns) ==> a.Failed()
    {
      assert Ask(OfTaken);
      TurnRecorded(a, moreCalls);
    }

    /** Closes a run all of whose turns were answered. */
    method EndRun() returns (ghost records: seq<AgentEvent>)
      requires AfterTurn() && NothingLeft()
      modifies this`trace, this`runtime
      ensures RunRecorded(true, records)
    {
      assert Ask(OfTurn);
      records := trace;
      Emit(AgentEnd(newMessages));
    }

    /** A turn, which ends the run if the client refused it. */
    method TakeTurn(pending: seq<Message>, source: Origin, first: bool, giveUp: bool, ghost prompts: seq<Injection>)
      returns (answer: Option<AssistantMessage>, moreCalls: bool)
      requires AtTurn(first, prompts, pending, source) && Ready(pending, source)
      requires !first ==> GoesOn(turns[|turns| - 1]) && (pending != [] || MoreCalls(turns[|turns| - 1]))
      modifies this`context, this`newMessages, this`trace, this`runtime, this`cancelled, this`atCancel
      modifies this`turns, this`turnStarts, this`requests, this`toolRuns, this`heard, this`ahead, steering, followUp
      ensures answer.None? ==> RunRecorded(false, trace) && !giveUp
      ensures answer.Some? ==> AfterTurn() && ahead == NOT_LOOKED && DecidedBy(answer.value, moreCalls)
      ensures answer.Some? && (giveUp || (cancelled && turnStarts > atCancel.turns)) ==> answer.value.Failed()
    {
      answer, moreCalls := NextTurn(pending, source, first, giveUp, prompts);
      if answer.None? {
        TurnRefused(moreCalls, giveUp);
      } else {
        TurnAnswered(answer.value, moreCalls, giveUp);
      }
    }

    /** The last turn ended with this message, and leaves tool results to look at or not. */
    ghost predicate DecidedBy(a: AssistantMessage, moreCalls: bool)
      reads this`turns
    {
      turns != [] && forall k :: Ask(k) && k == OfTaken ==>
        && FinalOf(turns[|turns| - 1]) == Some(a)
        && (!a.Failed() ==> GoesOn(turns[|turns| - 1]) && (moreCalls <==> MoreCalls(turns[|turns| - 1])))
    }

    /** A turn, and what decides whether the loop goes on: a failed response, the should-stop
        hook and cancellation end the run; otherwise the steering queue is polled. */
    method Iterate(pending: seq<Message>, source: Origin, first: bool, giveUp: bool, ghost prompts: seq<Injection>)
      returns (verdict: Verdict, polled: seq<Message>, ghost records: seq<AgentEvent>)
      requires AtTurn(first, prompts, pending, source) && Ready(pending, source)
      requires !first ==> GoesOn(turns[|turns| - 1]) && (pending != [] || MoreCalls(turns[|turns| - 1]))
      modifies this`context, this`newMessages, this`trace, this`runtime, this`cancelled, this`atCancel
      modifies this`turns, this`turnStarts, this`requests, this`toolRuns, this`polls, this`stopAsked
      modifies this`heard, this`ahead, steering, followUp
      ensures verdict.Continues? ==> AtTurn(false, [], polled, Steering) && GoesOn(turns[|turns| - 1])
      ensures verdict.Continues? ==> Ready(polled, Steering) && ahead.followUp.NotLooked?
      ensures verdict.Continues? ==> (verdict.moreCalls <==> MoreCalls(turns[|turns| - 1]))
      ensures !verdict.Continues? ==> RunRecorded(verdict.Ended?, records)
      ensures giveUp ==> verdict.Ended?
    {
      var answer, moreCalls := TakeTurn(pending, source, first, giveUp, prompts);
      if answer.None? {
        return Refused, [], trace;
      }
      verdict, polled, records := Decide(answer.value, moreCalls);
      assert verdict.Continues? ==> Ask(OfTaken);
    }

    method Decide(a: AssistantMessage, moreCalls: bool)
      returns (verdict: Verdict, polled: seq<Message>, ghost records: seq<AgentEvent>)
      requires AfterTurn() && ahead == NOT_LOOKED
      requires cancelled && turnStarts > atCancel.turns ==> a.Failed()
      requires DecidedBy(a, moreCalls)
      modifies this`trace, this`runtime, this`cancelled, this`atCancel, this`polls, this`stopAsked
      modifies this`ahead, steering, followUp
      ensures verdict == if a.Failed() then Ended else if verdict.Ended? then Ended else Continues(moreCalls)
      ensures verdict.Continues? ==> AtTurn(false, [], polled, Steering)
      ensures verdict.Continues? ==> Ready(polled, Steering) && ahead.followUp.NotLooked?
      ensures verdict.Ended? ==> RunRecorded(true, records)
    {
      polled := [];
      if a.Failed() {
        assert Ask(OfTaken);
        records := EndRun();
        return Ended, [], records;
      }
      Pause();
      var stop: bool := *;  // the should-stop hook
      if stop {
        stopAsked := true;
        records := EndRun();
        return Ended, [], records;
      }
      Pause();
      if cancelled {
        records := EndRun();
        return Ended, [], records;
      }
      PollNext();
      polled := PollSteering(false, [], Steering);
      verdict, records := Continues(moreCalls), trace;
    }

    /** Before the first turn: queued steering messages join it, unless the prompts are to be alone. */
    method FirstPoll(skip: bool, ghost prompts: seq<Injection>) returns (pending: seq<Message>)
      requires AtTurn(true, prompts, [], Steering) && alone == skip && Unlooked() && Later(startQueue, Now(steering))
      modifies this`cancelled, this`atCancel, this`polls, this`ahead, steering, followUp
      ensures AtTurn(true, prompts, pending, Steering) && Ready(pending, Steering)
    {
      pending := [];
      if skip {
        NothingFound(Began());
      } else {
        pending := PollSteering(true, prompts, Steering);
      }
    }

    /** Ends a run that has nothing left to do. */
    method EndIdle(ghost source: Origin) returns (ghost records: seq<AgentEvent>)
      requires AtTurn(false, [], [], source) && Ready([], source)
      requires !MoreCalls(turns[|turns| - 1]) && (cancelled || (FoundNothing(ahead) && followUp.messages == []))
      modifies this`trace, this`runtime
      ensures RunRecorded(true, records)
    {
      NothingPending([], source);
      records := EndRun();
    }

    /** The inner loop: turns follow while there are tool results to look at or messages to inject. */
    method RunBusy(first0: bool, pending0: seq<Message>, source0: Origin, fuel0: nat, ghost prompts: seq<Injection>)
      returns (over: bool, ok: bool, fuel: nat, ghost records: seq<AgentEvent>)
      requires AtTurn(first0, prompts, pending0, source0) && Ready(pending0, source0)
      requires !first0 ==> pending0 != [] && GoesOn(turns[|turns| - 1])
      modifies this`context, this`newMessages, this`trace, this`runtime, this`cancelled, this`atCancel
      modifies this`turns, this`turnStarts, this`requests, this`toolRuns, this`polls, this`stopAsked
      modifies this`heard, this`ahead, steering, followUp
      ensures over ==> RunRecorded(ok, records)
      ensures !over ==> AtTurn(false, [], [], Steering) && GoesOn(turns[|turns| - 1]) && !MoreCalls(turns[|turns| - 1])
      ensures !over ==> Ready([], Steering) && ahead.followUp.NotLooked?
      ensures !over ==> fuel < fuel0
    {
      var first, pending, source, more := first0, pending0, source0, true;
      over, ok, fuel, records := false, false, fuel0, [];
      while more || pending != []
        invariant AtTurn(first, prompts, pending, source) && Ready(pending, source)
        invariant if first then more else GoesOn(turns[|turns| - 1])
        invariant !first && pending == [] ==> source == Steering && (more <==> MoreCalls(turns[|turns| - 1]))
        invariant !first && pending == [] ==> ahead.followUp.NotLooked?
        invariant fuel <= fuel0 && (fuel == fuel0 ==> more && (first || pending != []))
        decreases fuel
      {
        var verdict;
        verdict, pending, records := Iterate(pending, source, first, fuel == 0, prompts);
        if !verdict.Continues? {
          over, ok := true, verdict.Ended?;
          return;
        }
        first, source, more, fuel := false, Steering, verdict.moreCalls, fuel - 1;
      }
    }

    /** One round of the outer loop: the run is over unless follow-ups are queued. */
    method RunRound(first: bool, pending: seq<Message>, source: Origin, fuel0: nat, ghost prompts: seq<Injection>)
      returns (over: bool, ok: bool, followUps: seq<Message>, fuel: nat, ghost records: seq<AgentEvent>)
      requires AtTurn(first, prompts, pending, source) && Ready(pending, source)
      requires !first ==> pending != [] && GoesOn(turns[|turns| - 1])
      modifies this`context, this`newMessages, this`trace, this`runtime, this`cancelled, this`atCancel
      modifies this`turns, this`turnStarts, this`requests, this`toolRuns, this`polls, this`stopAsked
      modifies this`heard, this`ahead, steering, followUp
      ensures over ==> RunRecorded(ok, records)
      ensures !over ==> AtTurn(false, [], followUps, FollowUp) && Ready(followUps, FollowUp) && followUps != []
      ensures !over ==> GoesOn(turns[|turns| - 1]) && fuel < fuel0
    {
      followUps := [];
      over, ok, fuel, records := RunBusy(first, pending, source, fuel0, prompts);
      if over {
        return;
      }
      followUps := PollFollowUp();
      if followUps == [] {
        records := EndIdle(FollowUp);
        over, ok := true, true;
      }
    }

    /** Runs turns until the agent has nothing left to do, is told to stop, fails or is cancelled. */
    method RunLoop(skipInitialSteeringPoll: bool, horizon: nat, ghost prompts: seq<Injection>)
      returns (ok: bool, ghost records: seq<AgentEvent>)
      requires AtTurn(true, prompts, [], Steering) && alone == skipInitialSteeringPoll
      requires Unlooked() && Later(startQueue, Now(steering))
      modifies this`context, this`newMessages, this`trace, this`runtime, this`cancelled, this`atCancel
      modifies this`turns, this`turnStarts, this`requests, this`toolRuns, this`polls, this`stopAsked
      modifies this`heard, this`ahead, steering, followUp
      ensures RunRecorded(ok, records)
    {
      var first, source, fuel := true, Steering, horizon;
      var pending := FirstPoll(skipInitialSteeringPoll, prompts);
      while true
        invariant AtTurn(first, prompts, pending, source) && Ready(pending, source)
        invariant !first ==> pending != [] && GoesOn(turns[|turns| - 1])
        decreases fuel
      {
        var over;
        over, ok, pending, fuel, records := RunRound(first, pending, source, fuel, prompts);
        if over {
          return;
        }
        first, source := false, FollowUp;
      }
    }

    // ----- Runs -----

    /** A fresh token and a clean runtime state.  The history of the run starts empty. */
    method StartRun(ghost steeringTaken: seq<Message>, ghost followUpTaken: seq<Message>, ghost prompts: seq<Injection>,
                    ghost promptsAlone: bool)
      requires Valid() && steering != followUp
      modifies this
      ensures Steady() && unchanged(`messages) && !cancelled
      ensures trace == [] && turns == [] && turnStarts == 0
      ensures steeringBase == steeringTaken && followUpBase == followUpTaken && opening == prompts &&
              alone == promptsAlone
      ensures startQueue == Now(steering) && Unlooked()
      ensures logsBefore == LogsNow() == old(LogsNow())
      ensures startRuntime == Runtime(true, None, {}, None)
    {
      StartHistory(steeringTaken, followUpTaken, prompts, promptsAlone);
      StartLooks();
      cancelled := false;
      runtime := Runtime(true, None, {}, None);
      startRuntime := runtime;
    }

    ghost method StartHistory(steeringTaken: seq<Message>, followUpTaken: seq<Message>, prompts: seq<Injection>,
                              promptsAlone: bool)
      modifies this`trace, this`turns, this`turnStarts, this`polls, this`requests, this`toolRuns
      modifies this`steeringBase, this`followUpBase, this`logsBefore, this`opening, this`alone, this`stopAsked
      ensures logsBefore == LogsNow()
      ensures trace == [] && turns == [] && turnStarts == 0
      ensures steeringBase == steeringTaken && followUpBase == followUpTaken && opening == prompts &&
              alone == promptsAlone
    {
      trace, turns, turnStarts, polls, requests, toolRuns := [], [], 0, 0, 0, 0;
      steeringBase, followUpBase, logsBefore := steeringTaken, followUpTaken, LogsNow();
      opening, alone, stopAsked := prompts, promptsAlone, false;
    }

    /** Nothing was looked at yet. */
    ghost method StartLooks()
      requires turns == []
      modifies this`startQueue, this`heard, this`ahead
      ensures startQueue == Now(steering) && Unlooked()
    {
      startQueue, heard, ahead := Now(steering), [], NOT_LOOKED;
      NothingHeard(Began());
    }

    /** Announces the run and its first turn, with the prompts, and runs the loop. */
    method RunAgentLoop(prompts: seq<Message>, ghost origin: Origin, skipInitialSteeringPoll: bool, horizon: nat)
      returns (ok: bool, ghost records: seq<AgentEvent>)
      requires Steady() && !cancelled && trace == [] && turns == [] && turnStarts == 0
      requires opening == Tag(prompts, origin) && alone == skipInitialSteeringPoll
      requires Unlooked() && Later(startQueue, Now(steering))
      requires steering.taken == steeringBase + (if origin == Steering then prompts else [])
      requires followUp.taken == followUpBase + (if origin == FollowUp then prompts else [])
      modifies this`context, this`newMessages, this`trace, this`runtime, this`cancelled, this`atCancel
      modifies this`turns, this`turnStarts, this`requests, this`toolRuns, this`polls, this`stopAsked
      modifies this`heard, this`ahead, steering, followUp
      ensures RunRecorded(ok, records)
    {
      Announce(prompts, origin);
      ok, records := RunLoop(skipInitialSteeringPoll, horizon, Tag(prompts, origin));
    }

    method Announce(prompts: seq<Message>, ghost origin: Origin)
      requires Steady() && !cancelled && trace == [] && turns == [] && turnStarts == 0 &&
               opening == Tag(prompts, origin)
      requires steering.taken == steeringBase + (if origin == Steering then prompts else [])
      requires followUp.taken == followUpBase + (if origin == FollowUp then prompts else [])
      modifies this`context, this`newMessages, this`trace, this`runtime, this`turnStarts
      ensures AtTurn(true, Tag(prompts, origin), [], Steering)
    {
      context, newMessages := messages, [];
      Emit(AgentStart);
      turnStarts := 1;
      Emit(TurnStart);
      assert trace == [AgentStart, TurnStart];
      EmptyThen(prompts);
      InjectAll(prompts);
      Announced(prompts, origin);
    }

    lemma Announced(prompts: seq<Message>, origin: Origin)
      requires Steady() && !cancelled && turnStarts == 1
      requires turns == [] && trace == [AgentStart, TurnStart] + PairsOf(prompts) && opening == Tag(prompts, origin)
      requires context == messages + prompts && newMessages == prompts
      requires steering.taken == steeringBase + (if origin == Steering then prompts else [])
      requires followUp.taken == followUpBase + (if origin == FollowUp then prompts else [])
      ensures AtTurn(true, Tag(prompts, origin), [], Steering)
    {
      var js := Tag(prompts, origin);
      TagStart(prompts, origin);
      AccountedStart(Steering, steering.taken, steeringBase, prompts, origin);
      AccountedStart(FollowUp, followUp.taken, followUpBase, prompts, origin);
      AppendEmpty(Delivered(js, Origin.Prompt));
      assert [] + prompts == prompts;
      AccountedStart(Origin.Prompt, Delivered(js, Origin.Prompt), [], prompts, origin);
      assert StartRecorded(js);
    }

    /** What a finished run leaves behind, starting from the transcript `base`. */
    ghost predicate RunReport(base: seq<Message>, r: RunResult)
      reads this, steering, followUp
    {
      AtRest() && forall k :: Ask(k) && k == OfOutcome ==> RunOutcome(base, r) && (r.Ok? ==> NothingLeft())
    }

    /** What the report says, unfolded. */
    lemma ReportMeans(base: seq<Message>, r: RunResult)
      ensures RunReport(base, r) <==> AtRest() && RunOutcome(base, r) && (r.Ok? ==> NothingLeft())
    {
      assert Ask(OfOutcome);
    }

    ghost predicate RunOutcome(base: seq<Message>, r: RunResult)
      reads this`turns, this`trace, this`messages, this`runtime, this`startRuntime, this`cancelled
    {
      match r
      case Ok(produced) =>
        && SucceededRun(base, turns, trace, messages, produced)
        && runtime == Cleared(ReduceAll(startRuntime, trace))
      case Err(_) =>
        && messages != [] && messages[|messages| - 1].Assistant?
        && RefusedRun(base, turns, trace, messages, messages[|messages| - 1].assistant)
        && runtime == Runtime(false, None, {}, messages[|messages| - 1].assistant.errorMessage)
        && messages[|messages| - 1].assistant.stopReason == (if cancelled then Aborted else Error)
    }

    method FinishRun(ok: bool, ghost records: seq<AgentEvent>) returns (r: RunResult)
      requires RunRecorded(ok, records)
      modifies this`messages, this`trace, this`runtime
      ensures r.Ok? <==> ok
      ensures RunReport(old(messages), r)
    {
      if ok {
        r := Succeed(records);
      } else {
        r := Fail(Synthesized("client error", if cancelled then Aborted else Error), records);
      }
    }

    /** The agent takes over the transcript of the run and its runtime state. */
    method Rest(transcript: seq<Message>, rt: Runtime)
      requires AtRest()
      modifies this`messages, this`runtime
      ensures AtRest() && messages == transcript && runtime == rt
      ensures NothingLeft() == old(NothingLeft())
    {
      messages, runtime := transcript, rt;
    }

    method Succeed(ghost records: seq<AgentEvent>) returns (r: RunResult)
      requires RunRecorded(true, records)
      modifies this`messages, this`runtime
      ensures r.Ok? && RunReport(old(messages), r)
    {
      Success(records);
      Rest(context, Cleared(runtime));
      r := Ok(newMessages);
      Reported(old(messages), r);
    }

    /** The last event of a refused run. */
    method EndRefused(failure: AssistantMessage)
      requires AtRest() && runtime == Runtime(false, None, {}, failure.errorMessage)
      modifies this`trace, this`runtime
      ensures AtRest() && runtime == old(runtime)
      ensures trace == old(trace) + [AgentEnd([Assistant(failure)])]
    {
      Deliver(AgentEnd([Assistant(failure)]));
    }

    /** A lifecycle error still ends with a failed message and AgentEnd. */
    method Fail(failure: AssistantMessage, ghost records: seq<AgentEvent>) returns (r: RunResult)
      requires RunRecorded(false, records) && failure.stopReason == (if cancelled then Aborted else Error)
      modifies this`messages, this`trace, this`runtime
      ensures r.Err? && RunReport(old(messages), r)
    {
      RefusedWith(records, failure);
      Rest(context + [Assistant(failure)], Runtime(false, None, {}, failure.errorMessage));
      EndRefused(failure);
      r := Err(Client("client error"));
      Reported(old(messages), r);
    }

    lemma Reported(base: seq<Message>, r: RunResult)
      requires AtRest() && RunOutcome(base, r) && (r.Ok? ==> NothingLeft())
      ensures RunReport(base, r)
    {
    }

    lemma Success(records: seq<AgentEvent>)
      requires RunRecorded(true, records)
      ensures SucceededRun(messages, turns, trace, context, newMessages) && AtRest() && NothingLeft()
      ensures runtime == ReduceAll(startRuntime, trace)
    {
      assert Ask(OfOutcome);
      Unfolded();
      Succeeded(messages, turns, records, context, newMessages);
    }

    lemma RefusedWith(records: seq<AgentEvent>, failure: AssistantMessage)
      requires RunRecorded(false, records) && failure.Failed()
      ensures RefusedRun(messages, turns, trace + [AgentEnd([Assistant(failure)])],
                         context + [Assistant(failure)], failure)
      ensures AtRest()
    {
      assert Ask(OfOutcome);
      Unfolded();
      RefusedByClient(messages, turns, records, context, newMessages, failure);
    }

    /** Queues, token and counters once a run is over. */
    ghost predicate AtRest()
      reads steering, followUp, this`turns, this`turnStarts, this`cancelled, this`atCancel
      reads this`polls, this`requests, this`toolRuns, this`steeringBase, this`followUpBase, this`logsBefore,
            this`opening, this`alone, this`startQueue, this`heard
    {
      && steering != followUp && Valid() && LogsGrow() && Frozen() && turns != [] && Bounded()
      && steering.taken == steeringBase + DeliveredBy(turns, Steering)
      && followUp.taken == followUpBase + DeliveredBy(turns, FollowUp)
      && DeliveredBy(turns, Origin.Prompt) == Delivered(opening, Origin.Prompt) && Opened()
      && Heard(Began(), turns, heard)
    }

    lemma Unfolded()
      requires ShutDown() && Accounts([], [], Steering) && Heard(Began(), turns, heard)
      ensures AtRest() && runtime == ReduceAll(startRuntime, trace)
    {
      assert Ask(OfRun) && Ask(OfSink);
      AllAccounted(Steering, steering.taken, steeringBase, turns, Steering);
      AllAccounted(FollowUp, followUp.taken, followUpBase, turns, Steering);
      AllAccounted(Origin.Prompt, Delivered(opening, Origin.Prompt), [], turns, Steering);
    }

    function Cleared(rt: Runtime): Runtime {
      rt.(isStreaming := false, streamingMessage := None, pendingToolCalls := {})
    }

    /** A run on new prompts, or on the transcript as it is when there are none. */
    method Run(prompts: seq<Message>, ghost origin: Origin, skipInitialSteeringPoll: bool, horizon: nat,
               ghost steeringTaken: seq<Message>, ghost followUpTaken: seq<Message>)
      returns (r: RunResult)
      requires Valid() && steering != followUp
      requires steering.taken == steeringTaken + (if origin == Steering then prompts else [])
      requires followUp.taken == followUpTaken + (if origin == FollowUp then prompts else [])
      modifies this, steering, followUp
      ensures RunReport(old(messages), r)
      ensures steeringBase == steeringTaken && followUpBase == followUpTaken && logsBefore == old(LogsNow())
      ensures startRuntime == Runtime(true, None, {}, None) && opening == Tag(prompts, origin) &&
              alone == skipInitialSteeringPoll
      ensures startQueue == old(Now(steering))
    {
      var ok, records := Launch(prompts, origin, skipInitialSteeringPoll, horizon, steeringTaken, followUpTaken);
      r := FinishRun(ok, records);
    }

    method Launch(prompts: seq<Message>, ghost origin: Origin, skipInitialSteeringPoll: bool, horizon: nat,
                  ghost steeringTaken: seq<Message>, ghost followUpTaken: seq<Message>)
      returns (ok: bool, ghost records: seq<AgentEvent>)
      requires Valid() && steering != followUp
      requires steering.taken == steeringTaken + (if origin == Steering then prompts else [])
      requires followUp.taken == followUpTaken + (if origin == FollowUp then prompts else [])
      modifies this, steering, followUp
      ensures RunRecorded(ok, records) && messages == old(messages)
      ensures steeringBase == steeringTaken && followUpBase == followUpTaken && logsBefore == old(LogsNow())
      ensures startRuntime == Runtime(true, None, {}, None) && opening == Tag(prompts, origin) &&
              alone == skipInitialSteeringPoll
      ensures startQueue == old(Now(steering))
    {
      StartRun(steeringTaken, followUpTaken, Tag(prompts, origin), skipInitialSteeringPoll);
      ok, records := RunAgentLoop(prompts, origin, skipInitialSteeringPoll, horizon);
    }

    /** Runs the agent on new prompts, unless it is busy. */
    method Prompt(prompts: seq<Message>, horizon: nat) returns (r: RunResult, ran: bool)
      requires Valid() && steering != followUp
      modifies this, steering, followUp
      ensures ran <==> !old(runtime.isStreaming)
      ensures ran ==> RunReport(old(messages), r)
      ensures ran ==> steeringBase == old(steering.taken) && followUpBase == old(followUp.taken)
      ensures !ran ==> r.Err? && r.error.InvalidState? && unchanged(this, steering, followUp)
      ensures ran ==> opening == Tag(prompts, Origin.Prompt) && !alone && logsBefore == old(LogsNow())
      ensures ran ==> startQueue == old(Now(steering))
    {
      if runtime.isStreaming {
        return Err(InvalidState("agent is already processing a prompt")), false;
      }
      r := Run(prompts, Origin.Prompt, false, horizon, steering.taken, followUp.taken);
      ran := true;
    }

    /** Continues from the transcript; after an assistant message only with queued messages,
        steering before follow-up. */
    method Continue(horizon: nat) returns (r: RunResult, ran: bool)
      requires Valid() && steering != followUp
      modifies this, steering, followUp
      ensures ran <==> !old(runtime.isStreaming) && old(messages) != [] &&
                       (old(messages)[|old(messages)| - 1].Assistant? ==>
                          old(steering.messages) != [] || old(followUp.messages) != [])
      ensures ran ==> RunReport(old(messages), r)
      ensures ran ==> steeringBase == old(steering.taken) && followUpBase == old(followUp.taken)
      ensures !ran ==> r.Err? && r.error.InvalidState? && unchanged(this, steering, followUp)
      ensures ran ==> logsBefore == old(LogsNow()) && Delivered(opening, Origin.Prompt) == []
      // queued steering messages get a first turn of their own
      ensures ran ==> (alone <==> old(messages)[|old(messages)| - 1].Assistant? && old(steering.messages) != [])
      ensures ran && !old(messages)[|old(messages)| - 1].Assistant? ==> opening == []
      ensures ran && !alone ==> startQueue == old(Now(steering))
    {
      if runtime.isStreaming {
        return Err(InvalidState("agent is already processing")), false;
      }
      if messages == [] {
        return Err(InvalidState("no messages to continue from")), false;
      }
      if messages[|messages| - 1].Assistant? {
        r, ran := ContinueQueued(horizon);
      } else {
        r := Run([], Origin.Prompt, false, horizon, steering.taken, followUp.taken);
        ran := true;
      }
    }

    /** Starts a run with queued messages, if there are any: steering before follow-up. */
    method ContinueQueued(horizon: nat) returns (r: RunResult, ran: bool)
      requires Valid() && steering != followUp
      modifies this, steering, followUp
      ensures ran <==> old(steering.messages) != [] || old(followUp.messages) != []
      ensures ran ==> RunReport(old(messages), r)
      ensures ran ==> steeringBase == old(steering.taken) && followUpBase == old(followUp.taken)
      ensures !ran ==> r.Err? && r.error.InvalidState? && unchanged(this, steering, followUp)
      ensures ran ==> logsBefore == old(LogsNow()) && Delivered(opening, Origin.Prompt) == []
      ensures ran ==> (alone <==> old(steering.messages) != [])
      ensures ran && !alone ==> startQueue == old(Now(steering))
    {
      r, ran := RunQueued(steering, Steering, true, horizon);
      if !ran {
        r, ran := RunQueued(followUp, FollowUp, false, horizon);
      }
    }

    method TakeQueued(q: PendingQueue, ghost origin: Origin) returns (queued: seq<Message>)
      requires Valid() && steering != followUp
      requires (q == steering && origin == Steering) || (q == followUp && origin == FollowUp)
      modifies q
      ensures Valid() && LogsNow() == old(LogsNow())
      ensures queued == [] <==> old(q.messages) == []
      ensures queued == [] ==> unchanged(q)
      ensures q == followUp ==> Now(steering) == old(Now(steering))
      ensures steering.taken == old(steering.taken) + (if origin == Steering then queued else [])
      ensures followUp.taken == old(followUp.taken) + (if origin == FollowUp then queued else [])
    {
      AppendEmpty(steering.taken);
      AppendEmpty(followUp.taken);
      queued := q.Drain();
    }

    lemma NoPrompts(ms: seq<Message>, origin: Origin)
      requires origin != Origin.Prompt
      ensures Delivered(Tag(ms, origin), Origin.Prompt) == []
    {
      TagStart(ms, origin);
    }

    method RunQueued(q: PendingQueue, origin: Origin, skipInitialSteeringPoll: bool, horizon: nat)
      returns (r: RunResult, ran: bool)
      requires Valid() && steering != followUp
      requires (q == steering && origin == Steering) || (q == followUp && origin == FollowUp)
      modifies this, steering, followUp
      ensures ran <==> old(q.messages) != []
      ensures ran ==> RunReport(old(messages), r)
      ensures ran ==> steeringBase == old(steering.taken) && followUpBase == old(followUp.taken)
      ensures !ran ==> r.Err? && r.error.InvalidState? && unchanged(this, steering, followUp)
      ensures ran ==> logsBefore == old(LogsNow()) && Delivered(opening, Origin.Prompt) == []
      ensures ran ==> alone == skipInitialSteeringPoll
      ensures ran && q == followUp ==> startQueue == old(Now(steering))
    {
      ghost var steeringTaken, followUpTaken := steering.taken, followUp.taken;
      var queued := TakeQueued(q, origin);
      if queued == [] {
        return Err(InvalidState("cannot continue from message role: assistant")), false;
      }
      NoPrompts(queued, origin);
      r := Run(queued, origin, skipInitialSteeringPoll, horizon, steeringTaken, followUpTaken);
      ran := true;
    }
  }

  lemma Shrinks(pool: Pool, next: Pool, k: nat)
    requires next.remaining <= pool.remaining && next.unsettled <= pool.unsettled && k in pool.remaining
    ensures |next.remaining| <= |pool.remaining| && |next.unsettled| <= |pool.unsettled|
    ensures k !in next.remaining ==> |next.remaining| < |pool.remaining|
    ensures k in pool.unsettled && k !in next.unsettled ==> |next.unsettled| < |pool.unsettled|
  {
    Subset(next.remaining, pool.remaining);
    Subset(next.unsettled, pool.unsettled);
    if k !in next.remaining { Subset(next.remaining, pool.remaining - {k}); }
    if k in pool.unsettled && k !in next.unsettled { Subset(next.unsettled, pool.unsettled - {k}); }
  }

  lemma {:induction false} Subset(a: set<nat>, b: set<nat>)
    requires a <= b
    ensures |a| <= |b|
  {
    if a != {} {
      var x :| x in a;
      Subset(a - {x}, b - {x});
    }
  }
}
