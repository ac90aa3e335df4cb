/** What listeners read from the runtime state while a run goes on and once it is over. */
module RunState {
  import opened Types
  import opened History
  import opened Streams
  import opened Protocol
  import opened Agreement

  lemma ReduceOne(rt: Runtime, e: AgentEvent)
    ensures ReduceAll(rt, [e]) == Reduce(rt, e)
  {
    assert ReduceTo(rt, [e], 0) == rt;
  }

  lemma ReduceTwo(rt: Runtime, e: AgentEvent, f: AgentEvent)
    ensures ReduceAll(rt, [e, f]) == Reduce(Reduce(rt, e), f)
  {
    ReduceOne(rt, e);
    ReduceAllSnoc(rt, [e], f);
    assert [e] + [f] == [e, f];
  }

  /** A message pair leaves no message being streamed, whoever wrote the message. */
  lemma {:induction false} PairsLeave(rt: Runtime, ms: seq<Message>)
    requires rt.streamingMessage == None
    ensures ReduceAll(rt, PairsOf(ms)) == rt
  {
    if ms != [] {
      var n := |ms| - 1;
      PairsLeave(rt, ms[..n]);
      ReduceAllAppend(rt, PairsOf(ms[..n]), Pair(ms[n]));
      ReduceTwo(rt, MessageStart(ms[n]), MessageEnd(ms[n]));
    }
  }

  // ----- Pending tool calls -----

  function Busy(rt: Runtime, ids: set<string>): Runtime {
    rt.(pendingToolCalls := ids)
  }

  lemma {:induction false} UpdatesLeave(rt: Runtime, c: ToolCall, partials: seq<ToolResult>)
    ensures ReduceAll(rt, UpdatesOf(c, partials)) == rt
  {
    if partials != [] {
      var n := |partials| - 1;
      UpdatesLeave(rt, c, partials[..n]);
      ReduceAllSnoc(rt, UpdatesOf(c, partials[..n]), UpdateOf(c, partials[n]));
    }
  }

  lemma CallLeaves(rt: Runtime, c: ToolCall, o: Outcome, partials: seq<ToolResult>)
    requires rt.streamingMessage == None && rt.pendingToolCalls == {}
    ensures ReduceAll(rt, CallEvents(c, o, partials)) == rt
  {
    var busy := Busy(rt, {c.id});
    ReduceOne(rt, StartOf(c));
    ReduceAllAppend(rt, [StartOf(c)], UpdatesOf(c, partials));
    assert {} + {c.id} == {c.id};
    UpdatesLeave(busy, c, partials);
    ReduceOne(busy, EndOf(c, o));
    ReduceAllAppend(busy, [EndOf(c, o)], Pair(Result(ResultOf(c, o))));
    ReduceTwo(rt, MessageStart(Result(ResultOf(c, o))), MessageEnd(Result(ResultOf(c, o))));
    ReduceAllAppend(rt, BeginCall(c, partials), FinishCall(c, o));
  }

  lemma {:induction false} InOrderLeaves(rt: Runtime, cs: seq<ToolCall>, os: seq<Outcome>,
                                         updates: seq<seq<ToolResult>>)
    requires rt.streamingMessage == None && rt.pendingToolCalls == {}
    requires |cs| == |os| == |updates|
    ensures ReduceAll(rt, InOrderEvents(cs, os, updates)) == rt
  {
    if cs != [] {
      var n := |cs| - 1;
      InOrderLeaves(rt, cs[..n], os[..n], updates[..n]);
      ReduceAllAppend(rt, InOrderEvents(cs[..n], os[..n], updates[..n]), CallEvents(cs[n], os[n], updates[n]));
      CallLeaves(rt, cs[n], os[n], updates[n]);
    }
  }

  ghost predicate AmongIds(cs: seq<ToolCall>, id: string) {
    exists k :: 0 <= k < |cs| && cs[k].id == id
  }

  lemma {:induction false} StartsPend(rt: Runtime, cs: seq<ToolCall>) returns (ids: set<string>)
    requires rt.pendingToolCalls == {}
    ensures ReduceAll(rt, StartsOf(cs)) == Busy(rt, ids)
    ensures forall id :: id in ids ==> AmongIds(cs, id)
  {
    ids := {};
    if cs != [] {
      var n := |cs| - 1;
      var before := StartsPend(rt, cs[..n]);
      ReduceAllSnoc(rt, StartsOf(cs[..n]), StartOf(cs[n]));
      ids := before + {cs[n].id};
      forall id | id in ids ensures AmongIds(cs, id) {
        if id in before {
          var k :| 0 <= k < n && cs[..n][k].id == id;
          assert cs[k].id == id;
        } else {
          assert cs[n].id == id;
        }
      }
    }
  }

  /** An id still pending belongs to no slot that finished: an end removes it for all its slots. */
  lemma {:induction false} StepsPend(rt: Runtime, cs: seq<ToolCall>, os: seq<Outcome>, steps: seq<ToolStep>,
                                     ids: set<string>)
    returns (left: set<string>)
    requires |cs| == |os| && Scheduled(|cs|, steps)
    ensures ReduceAll(Busy(rt, ids), StepEvents(cs, os, steps)) == Busy(rt, left)
    ensures left <= ids
    ensures forall k: nat :: k < |cs| && Ended(steps, k) ==> cs[k].id !in left
  {
    left := ids;
    if steps != [] {
      var n := |steps| - 1;
      var before := StepsPend(rt, cs, os, steps[..n], ids);
      ReduceAllSnoc(Busy(rt, ids), StepEvents(cs, os, steps[..n]), EventOfStep(cs, os, steps[n]));
      left := if steps[n].Finished? then before - {cs[steps[n].slot].id} else before;
    }
  }

  /** However a batch was run, and even when call ids repeat, it leaves no call pending. */
  lemma PhaseLeaves(rt: Runtime, cs: seq<ToolCall>, os: seq<Outcome>, phase: ToolPhase)
    requires rt.streamingMessage == None && rt.pendingToolCalls == {}
    requires ValidPhase(cs, os, phase)
    ensures ReduceAll(rt, PhaseEvents(cs, os, phase)) == rt
  {
    match phase {
      case InOrder(updates) => InOrderLeaves(rt, cs, os, updates);
      case Concurrent(steps) =>
        var started := StartsPend(rt, cs);
        var left := StepsPend(rt, cs, os, steps, started);
        forall id ensures id !in left {
          if AmongIds(cs, id) {
            var k :| 0 <= k < |cs| && cs[k].id == id;
            assert Ended(steps, k);
          }
        }
        assert left == {};
        PairsLeave(rt, ResultMessages(ResultsOf(cs, os)));
        ReduceAllAppend(rt, StartsOf(cs), StepEvents(cs, os, steps));
        ReduceAllAppend(rt, StartsOf(cs) + StepEvents(cs, os, steps), PairsOf(ResultMessages(ResultsOf(cs, os))));
    }
  }

  // ----- The message being streamed -----

  function Live(rt: Runtime, m: Option<Message>): Runtime {
    rt.(streamingMessage := m)
  }

  /** While a response is streamed, listeners see exactly the partial message that the transcript
      ends with; once it is closed, none. */
  lemma {:induction false} LiveMessage(rt: Runtime, es: seq<StreamEvent>)
    requires rt.streamingMessage == None && Orderly(es)
    ensures var c := ConsumeAll(es);
            && (c.started ==> c.pushed != [])
            && ReduceAll(rt, c.emitted) ==
               if c.started && c.final.None? then Live(rt, Some(c.pushed[|c.pushed| - 1])) else rt
  {
    if es != [] {
      var n := |es| - 1;
      var before, e := ConsumeAll(es[..n]), es[n];
      Earlier(es, n);
      LiveMessage(rt, es[..n]);
      Follow(es[..n]);
      EmitsLive(rt, before, e);
    }
  }

  lemma EmitsLive(rt: Runtime, c: Consumer, e: StreamEvent)
    requires rt.streamingMessage == None
    requires c.started ==> c.pushed != []
    requires ReduceAll(rt, c.emitted) == if c.started && c.final.None? then Live(rt, Some(c.pushed[|c.pushed| - 1]))
             else rt
    requires e.Start? ==> !c.started && c.final.None?
    requires e.Terminal() ==> c.final.None?
    requires e.Update? ==> !c.started || c.final.None?
    ensures var d := Consume(c, e);
            ReduceAll(rt, d.emitted) == if d.started && d.final.None? then Live(rt, Some(d.pushed[|d.pushed| - 1]))
              else rt
  {
    var now := ReduceAll(rt, c.emitted);
    ReduceAllAppend(rt, c.emitted, Emits(c.started, e));
    match e {
      case Start(p) => ReduceOne(now, MessageStart(Assistant(p)));
      case Update(_, p) => ReduceOne(now, MessageUpdate(Assistant(p), e));
      case Done(_, a) => ClosingLeaves(now, c.started, a);
      case Failure(_, a) => ClosingLeaves(now, c.started, a);
    }
  }

  lemma ClosingLeaves(rt: Runtime, started: bool, a: AssistantMessage)
    ensures ReduceAll(rt, Closing(started, Assistant(a))) == Live(rt, None)
  {
    if started {
      assert Closing(started, Assistant(a)) == [MessageEnd(Assistant(a))];
      ReduceOne(rt, MessageEnd(Assistant(a)));
    } else {
      assert Closing(started, Assistant(a)) == [MessageStart(Assistant(a)), MessageEnd(Assistant(a))];
      ReduceTwo(rt, MessageStart(Assistant(a)), MessageEnd(Assistant(a)));
    }
  }

  lemma ResponseLeaves(rt: Runtime, r: Response)
    requires rt.streamingMessage == None
    requires r.Streamed? ==> Orderly(r.events)
    ensures ReduceAll(rt, ConsumerOf(r).emitted) == rt
  {
    match r {
      case NotStreamed =>
      case Withheld(a) =>
        assert [] + Closing(false, Assistant(a)) == Closing(false, Assistant(a));
        ClosingLeaves(rt, false, a);
      case Streamed(es, failure) =>
        LiveMessage(rt, es);
        var c := ConsumeAll(es);
        if c.final.None? {
          ReduceAllAppend(rt, c.emitted, Closing(c.started, Assistant(failure)));
          ClosingLeaves(ReduceAll(rt, c.emitted), c.started, failure);
        }
    }
  }

  // ----- Turns and runs -----

  function Or<T>(o: Option<T>, otherwise: Option<T>): Option<T> {
    if o.Some? then o else otherwise
  }

  function ErrorOf(t: Turn): Option<string> {
    if FinalOf(t).Some? then FinalOf(t).value.errorMessage else None
  }

  /** The error of the last turn that had one. */
  function LastError(ts: seq<Turn>): Option<string> {
    if ts == [] then None else Or(ErrorOf(ts[|ts| - 1]), LastError(ts[..|ts| - 1]))
  }

  function Failing(rt: Runtime, error: Option<string>): Runtime {
    rt.(error := error)
  }

  lemma ReduceFour(rt: Runtime, a: seq<AgentEvent>, b: seq<AgentEvent>, c: seq<AgentEvent>, d: seq<AgentEvent>)
    ensures ReduceAll(rt, a + b + c + d) == ReduceAll(ReduceAll(ReduceAll(ReduceAll(rt, a), b), c), d)
  {
    ReduceAllAppend(rt, a, b);
    ReduceAllAppend(rt, a + b, c);
    ReduceAllAppend(rt, a + b + c, d);
  }

  lemma TurnReduces(rt: Runtime, t: Turn)
    requires rt.streamingMessage == None && rt.pendingToolCalls == {}
    requires ValidTurn(t) && OrderlyTurn(t)
    ensures ReduceAll(rt, TurnEvents(t)) == Failing(rt, Or(ErrorOf(t), rt.error))
  {
    var js := PairsOf(InjectedMessages(t.injected));
    ReduceAllAppend(rt, [TurnStart], js);
    ReduceOne(rt, TurnStart);
    PairsLeave(rt, InjectedMessages(t.injected));
    ResponseLeaves(rt, t.response);
    PhaseLeaves(rt, CallsRun(t), t.outcomes, t.phase);
    ReduceFour(rt, [TurnStart] + js, ConsumerOf(t.response).emitted, PhaseEvents(CallsRun(t), t.outcomes, t.phase),
               ClosingEvents(t));
    if FinalOf(t).Some? {
      ReduceOne(rt, TurnEnd(Assistant(FinalOf(t).value), TurnResults(t)));
    }
  }

  const STARTED := Runtime(true, None, {}, None)

  /** Between turns nothing is streamed and no call is pending. */
  lemma {:induction false} TurnsReduce(ts: seq<Turn>)
    requires ValidTurns(ts) && AllOrderly(ts)
    ensures ReduceAll(STARTED, [AgentStart] + EventsOf(ts)) == Failing(STARTED, LastError(ts))
  {
    if ts == [] {
      AppendEmpty<AgentEvent>([AgentStart]);
      ReduceOne(STARTED, AgentStart);
    } else {
      var n := |ts| - 1;
      TurnsReduce(ts[..n]);
      Associate([AgentStart], EventsOf(ts[..n]), TurnEvents(ts[n]));
      ReduceAllAppend(STARTED, [AgentStart] + EventsOf(ts[..n]), TurnEvents(ts[n]));
      TurnReduces(Failing(STARTED, LastError(ts[..n])), ts[n]);
    }
  }

  /** Main result: the events alone bring the runtime state to rest, with the last error, so that
      what the agent clears at the end of a run was clear already. */
  lemma RuntimeAfterRun(base: seq<Message>, ts: seq<Turn>, trace: seq<AgentEvent>, transcript: seq<Message>,
                        produced: seq<Message>)
    requires SucceededRun(base, ts, trace, transcript, produced) && AllOrderly(ts)
    ensures ReduceAll(STARTED, trace) == Runtime(false, None, {}, LastError(ts))
  {
    TurnsReduce(ts);
    ReduceAllSnoc(STARTED, [AgentStart] + EventsOf(ts), AgentEnd(produced));
  }
}
