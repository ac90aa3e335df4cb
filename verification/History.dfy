/** The events a run emits, the runtime state listeners read, and the history of a run.

    A run keeps four records of what happened: the event trace, the transcript, the list of
    new messages and the runtime state.  `Turn` is one reference account of the same facts;
    each record is defined below as a projection of a sequence of turns, and the lemmas
    relate the projections to one another. */
module History {
  import opened Types

  datatype ToolResult = ToolResult(content: seq<ContentBlock>, details: Option<Json>, terminate: Option<bool>)

  datatype Outcome = Outcome(result: ToolResult, isError: bool)

  datatype AgentEvent =
    | AgentStart
    | AgentEnd(messages: seq<Message>)
    | TurnStart
    | TurnEnd(message: Message, results: seq<ToolResultMessage>)
    | MessageStart(message: Message)
    | MessageUpdate(message: Message, event: StreamEvent)
    | MessageEnd(message: Message)
    | ToolStart(callId: string, toolName: string, args: Json)
    | ToolUpdate(callId: string, toolName: string, args: Json, partial: ToolResult)
    | ToolEnd(callId: string, toolName: string, outcome: Outcome)

  lemma Regroup<T>(a: seq<T>, b: seq<T>, c: seq<T>, d: seq<T>)
    ensures a + (b + c) + d == a + (b + (c + d))
  {}

  // ----- Runtime state -----

  datatype Runtime = Runtime(
    isStreaming: bool,
    streamingMessage: Option<Message>,
    pendingToolCalls: set<string>,
    error: Option<string>)

  /** What the event sink does to the runtime state. */
  function Reduce(rt: Runtime, e: AgentEvent): Runtime {
    match e
    case AgentStart => rt.(isStreaming := true)
    case MessageStart(m) => if m.Assistant? then rt.(streamingMessage := Some(m)) else rt
    case MessageUpdate(m, _) => rt.(streamingMessage := Some(m))
    case MessageEnd(m) => if m.Assistant? then rt.(streamingMessage := None) else rt
    case ToolStart(id, _, _) => rt.(pendingToolCalls := rt.pendingToolCalls + {id})
    case ToolEnd(id, _, _) => rt.(pendingToolCalls := rt.pendingToolCalls - {id})
    case TurnEnd(m, _) =>
      if m.Assistant? && m.assistant.errorMessage.Some? then rt.(error := m.assistant.errorMessage) else rt
    case AgentEnd(_) => rt.(streamingMessage := None, isStreaming := false)
    case TurnStart => rt
    case ToolUpdate(_, _, _, _) => rt
  }

  /** The runtime state after the first `n` events. */
  function ReduceTo(rt: Runtime, es: seq<AgentEvent>, n: nat): Runtime
    requires n <= |es|
  {
    if n == 0 then rt else Reduce(ReduceTo(rt, es, n - 1), es[n - 1])
  }

  function ReduceAll(rt: Runtime, es: seq<AgentEvent>): Runtime {
    ReduceTo(rt, es, |es|)
  }

  datatype Topic = OfSink | OfRun | OfPool | OfTurn | OfTaken | OfRecords | OfQueues | OfLooks | OfOutcome

  /** Always true.  A fact guarded by it stays folded until a proof asks for its topic. */
  ghost predicate Ask(topic: Topic) {
    true
  }

  /** `rt` is what the sink makes of `trace`. */
  ghost predicate Reduced(start: Runtime, trace: seq<AgentEvent>, rt: Runtime) {
    forall k :: Ask(k) && k == OfSink ==> rt == ReduceAll(start, trace)
  }

  lemma ReducedSnoc(start: Runtime, trace: seq<AgentEvent>, rt: Runtime, e: AgentEvent)
    requires Reduced(start, trace, rt)
    ensures Reduced(start, trace + [e], Reduce(rt, e))
  {
    assert Ask(OfSink);
    ReduceAllSnoc(start, trace, e);
  }

  lemma {:induction false} ReduceToPrefix(rt: Runtime, a: seq<AgentEvent>, b: seq<AgentEvent>, n: nat)
    requires n <= |a|
    ensures ReduceTo(rt, a + b, n) == ReduceTo(rt, a, n)
  {
    if n > 0 {
      ReduceToPrefix(rt, a, b, n - 1);
    }
  }

  lemma ReduceAllSnoc(rt: Runtime, es: seq<AgentEvent>, e: AgentEvent)
    ensures ReduceAll(rt, es + [e]) == Reduce(ReduceAll(rt, es), e)
  {
    ReduceToPrefix(rt, es, [e], |es|);
  }

  lemma {:induction false} ReduceAllAppend(rt: Runtime, a: seq<AgentEvent>, b: seq<AgentEvent>)
    ensures ReduceAll(rt, a + b) == ReduceAll(ReduceAll(rt, a), b)
    decreases |b|
  {
    if b == [] {
      assert a + b == a;
    } else {
      var n := |b| - 1;
      assert a + b == (a + b[..n]) + [b[n]] && b == b[..n] + [b[n]];
      ReduceAllAppend(rt, a, b[..n]);
      ReduceAllSnoc(rt, a + b[..n], b[n]);
      ReduceAllSnoc(ReduceAll(rt, a), b[..n], b[n]);
    }
  }

  // ----- One streamed response, for any provider stream whatever -----

  /** State of the consumer loop: whether a Start was seen, what it pushed on the transcript
      (the last element is what later events overwrite), what it emitted, the last terminal. */
  datatype Consumer = Consumer(
    started: bool,
    pushed: seq<Message>,
    emitted: seq<AgentEvent>,
    final: Option<AssistantMessage>)

  function Overwrite(pushed: seq<Message>, m: Message): seq<Message> {
    if pushed == [] then [] else pushed[|pushed| - 1 := m]
  }

  /** Events that close a message: its start too if none was announced. */
  function Closing(started: bool, m: Message): seq<AgentEvent> {
    (if started then [] else [MessageStart(m)]) + [MessageEnd(m)]
  }

  /** What consuming one event emits. */
  function Emits(started: bool, e: StreamEvent): seq<AgentEvent> {
    match e
    case Start(p) => [MessageStart(Assistant(p))]
    case Update(_, p) => if started then [MessageUpdate(Assistant(p), e)] else []
    case Done(_, a) => Closing(started, Assistant(a))
    case Failure(_, a) => Closing(started, Assistant(a))
  }

  /** What consuming one event does to the messages pushed so far. */
  function Pushes(started: bool, pushed: seq<Message>, e: StreamEvent): seq<Message> {
    match e
    case Start(p) => pushed + [Assistant(p)]
    case Update(_, p) => if started then Overwrite(pushed, Assistant(p)) else pushed
    case Done(_, a) => Landed(started, pushed, Assistant(a))
    case Failure(_, a) => Landed(started, pushed, Assistant(a))
  }

  function Landed(started: bool, pushed: seq<Message>, m: Message): seq<Message> {
    if started then Overwrite(pushed, m) else pushed + [m]
  }

  function Close(c: Consumer, a: AssistantMessage): Consumer {
    c.(pushed := Landed(c.started, c.pushed, Assistant(a)),
       emitted := c.emitted + Closing(c.started, Assistant(a)),
       final := Some(a))
  }

  function Consume(c: Consumer, e: StreamEvent): Consumer {
    Consumer(
      c.started || e.Start?,
      Pushes(c.started, c.pushed, e),
      c.emitted + Emits(c.started, e),
      if e.Terminal() then Some(e.message) else c.final)
  }

  const IDLE_CONSUMER := Consumer(false, [], [], None)

  function ConsumeAll(es: seq<StreamEvent>): Consumer {
    if es == [] then IDLE_CONSUMER else Consume(ConsumeAll(es[..|es| - 1]), es[|es| - 1])
  }

  lemma ConsumeSnoc(base: seq<Message>, es: seq<StreamEvent>, i: nat)
    requires i < |es| && (ConsumeAll(es[..i]).started ==> ConsumeAll(es[..i]).pushed != [])
    ensures ConsumeAll(es[..i + 1]) == Consume(ConsumeAll(es[..i]), es[i])
    ensures var c := ConsumeAll(es[..i]);
            Pushes(c.started, base + c.pushed, es[i]) == base + Consume(c, es[i]).pushed
    ensures Consume(ConsumeAll(es[..i]), es[i]).started ==> Consume(ConsumeAll(es[..i]), es[i]).pushed != []
  {
    assert es[..i + 1][..i] == es[..i];
  }

  /** A stream that ends without a terminal event is closed with a synthesized failure. */
  function Settle(c: Consumer, failure: AssistantMessage): Consumer {
    if c.final.Some? then c else Close(c, failure)
  }

  // ----- Turns -----

  datatype Origin = Prompt | Steering | FollowUp

  datatype Injection = Injection(origin: Origin, message: Message)

  datatype Response =
    | NotStreamed                                                     // none yet, or the client refused the request
    | Withheld(message: AssistantMessage)                             // cancelled before the request
    | Streamed(events: seq<StreamEvent>, failure: AssistantMessage)   // `failure` closes a truncated stream

  function ConsumerOf(r: Response): Consumer {
    match r
    case NotStreamed => IDLE_CONSUMER
    case Withheld(a) => Close(IDLE_CONSUMER, a)
    case Streamed(es, failure) => Settle(ConsumeAll(es), failure)
  }

  /** A step of the concurrent phase of a parallel batch, named by slot since ids may repeat. */
  datatype ToolStep = Progress(slot: nat, partial: ToolResult) | Finished(slot: nat)

  datatype ToolPhase =
    | InOrder(updates: seq<seq<ToolResult>>)   // sequential and truncated batches
    | Concurrent(steps: seq<ToolStep>)

  datatype Turn = Turn(injected: seq<Injection>, response: Response, phase: ToolPhase, outcomes: seq<Outcome>)

  const NO_TOOLS := InOrder([])

  function OpenTurn(injected: seq<Injection>): Turn {
    Turn(injected, NotStreamed, NO_TOOLS, [])
  }

  function FinalOf(t: Turn): Option<AssistantMessage> {
    ConsumerOf(t.response).final
  }

  // ----- Tool batches -----

  function ResultOf(c: ToolCall, o: Outcome): ToolResultMessage {
    ToolResultMessage(c.id, c.name, o.result.content, o.result.details, o.isError)
  }

  function StartOf(c: ToolCall): AgentEvent {
    ToolStart(c.id, c.name, c.arguments)
  }

  function UpdateOf(c: ToolCall, partial: ToolResult): AgentEvent {
    ToolUpdate(c.id, c.name, c.arguments, partial)
  }

  function EndOf(c: ToolCall, o: Outcome): AgentEvent {
    ToolEnd(c.id, c.name, o)
  }

  function Pair(m: Message): seq<AgentEvent> {
    [MessageStart(m), MessageEnd(m)]
  }

  function ResultsOf(cs: seq<ToolCall>, os: seq<Outcome>): (rs: seq<ToolResultMessage>)
    requires |cs| == |os|
    ensures |rs| == |cs|
  {
    if cs == [] then []
    else
      var n := |cs| - 1;
      ResultsOf(cs[..n], os[..n]) + [ResultOf(cs[n], os[n])]
  }

  function ResultMessages(rs: seq<ToolResultMessage>): (ms: seq<Message>)
    ensures |ms| == |rs|
  {
    if rs == [] then [] else ResultMessages(rs[..|rs| - 1]) + [Result(rs[|rs| - 1])]
  }

  function PairsOf(ms: seq<Message>): seq<AgentEvent> {
    if ms == [] then [] else PairsOf(ms[..|ms| - 1]) + Pair(ms[|ms| - 1])
  }

  /** The batch stops the loop only when it is non-empty and every result asks for it. */
  predicate Terminates(os: seq<Outcome>) {
    os != [] && AllTerminate(os)
  }

  predicate AllTerminate(os: seq<Outcome>) {
    os == [] || (AllTerminate(os[..|os| - 1]) && os[|os| - 1].result.terminate == Some(true))
  }

  function UpdatesOf(c: ToolCall, partials: seq<ToolResult>): seq<AgentEvent> {
    if partials == [] then []
    else UpdatesOf(c, partials[..|partials| - 1]) + [UpdateOf(c, partials[|partials| - 1])]
  }

  function BeginCall(c: ToolCall, partials: seq<ToolResult>): seq<AgentEvent> {
    [StartOf(c)] + UpdatesOf(c, partials)
  }

  function FinishCall(c: ToolCall, o: Outcome): seq<AgentEvent> {
    [EndOf(c, o)] + Pair(Result(ResultOf(c, o)))
  }

  function CallEvents(c: ToolCall, o: Outcome, partials: seq<ToolResult>): seq<AgentEvent> {
    BeginCall(c, partials) + FinishCall(c, o)
  }

  function InOrderEvents(cs: seq<ToolCall>, os: seq<Outcome>, updates: seq<seq<ToolResult>>): seq<AgentEvent>
    requires |cs| == |os| == |updates|
  {
    if cs == [] then []
    else
      var n := |cs| - 1;
      InOrderEvents(cs[..n], os[..n], updates[..n]) + CallEvents(cs[n], os[n], updates[n])
  }

  function StartsOf(cs: seq<ToolCall>): seq<AgentEvent> {
    if cs == [] then [] else StartsOf(cs[..|cs| - 1]) + [StartOf(cs[|cs| - 1])]
  }

  function Slots(n: nat): (slots: set<nat>)
    ensures forall i: nat :: i in slots <==> i < n
  {
    if n == 0 then {} else Slots(n - 1) + {n - 1}
  }

  /** Whether slot `k` finished during the steps. */
  predicate Ended(steps: seq<ToolStep>, k: nat) {
    steps != [] && (steps[|steps| - 1] == Finished(k) || Ended(steps[..|steps| - 1], k))
  }

  /** Each step names a slot that has not finished yet: so each slot finishes at most once. */
  predicate Scheduled(n: nat, steps: seq<ToolStep>) {
    steps == [] ||
    (Scheduled(n, steps[..|steps| - 1]) &&
     steps[|steps| - 1].slot < n &&
     !Ended(steps[..|steps| - 1], steps[|steps| - 1].slot))
  }

  function StepEvents(cs: seq<ToolCall>, os: seq<Outcome>, steps: seq<ToolStep>): seq<AgentEvent>
    requires |cs| == |os| && Scheduled(|cs|, steps)
  {
    if steps == [] then []
    else
      var s := steps[|steps| - 1];
      StepEvents(cs, os, steps[..|steps| - 1]) +
      [if s.Finished? then EndOf(cs[s.slot], os[s.slot]) else UpdateOf(cs[s.slot], s.partial)]
  }

  /** Only the outcomes of finished slots show in the events. */
  lemma {:induction false} StepEventsAgree(cs: seq<ToolCall>, os: seq<Outcome>, os': seq<Outcome>, steps: seq<ToolStep>)
    requires |cs| == |os| == |os'| && Scheduled(|cs|, steps)
    requires forall k: nat :: k < |cs| && Ended(steps, k) ==> os[k] == os'[k]
    ensures StepEvents(cs, os, steps) == StepEvents(cs, os', steps)
  {
    if steps != [] {
      assert steps[|steps| - 1].Finished? ==> Ended(steps, steps[|steps| - 1].slot);
      forall k: nat | k < |cs| && Ended(steps[..|steps| - 1], k) ensures os[k] == os'[k] {
        assert Ended(steps, k);
      }
      StepEventsAgree(cs, os, os', steps[..|steps| - 1]);
    }
  }

  /** One outcome per call; in the concurrent form every slot finishes exactly once. */
  predicate ValidPhase(cs: seq<ToolCall>, os: seq<Outcome>, phase: ToolPhase) {
    && |os| == |cs|
    && (phase.InOrder? ==> |phase.updates| == |cs|)
    && (phase.Concurrent? ==> Scheduled(|cs|, phase.steps) && forall k: nat :: k < |cs| ==> Ended(phase.steps, k))
  }

  function PhaseEvents(cs: seq<ToolCall>, os: seq<Outcome>, phase: ToolPhase): seq<AgentEvent>
    requires ValidPhase(cs, os, phase)
  {
    match phase
    case InOrder(updates) => InOrderEvents(cs, os, updates)
    case Concurrent(steps) =>
      StartsOf(cs) + StepEvents(cs, os, steps) + PairsOf(ResultMessages(ResultsOf(cs, os)))
  }

  function ErrorResult(message: string): ToolResult {
    ToolResult([Text(TextContent(message, None))], None, None)
  }

  function TruncatedOutcome(c: ToolCall): Outcome {
    Outcome(ErrorResult("truncated: " + c.name), true)
  }

  function TruncatedOutcomes(cs: seq<ToolCall>): (os: seq<Outcome>)
    ensures |os| == |cs|
  {
    if cs == [] then [] else TruncatedOutcomes(cs[..|cs| - 1]) + [TruncatedOutcome(cs[|cs| - 1])]
  }

  // ----- Projections of a turn and of a run -----

  /** The calls a turn runs: none when the response failed, whatever it contains. */
  function CallsRun(t: Turn): seq<ToolCall> {
    var f := FinalOf(t);
    if f.None? || f.value.Failed() then [] else f.value.Calls()
  }

  /** A withheld response is an aborted message; what closes a truncated stream is an error. */
  predicate FailsAsItShould(r: Response) {
    match r
    case NotStreamed => true
    case Withheld(a) => a.stopReason == Aborted
    case Streamed(_, failure) => failure.stopReason == Error
  }

  /** A turn's batch fits its calls; a response cut off by the token limit runs none of them. */
  predicate ValidTurn(t: Turn) {
    && FailsAsItShould(t.response) && ValidPhase(CallsRun(t), t.outcomes, t.phase)
    && (FinalOf(t).Some? && FinalOf(t).value.stopReason == Length ==>
          t.outcomes == TruncatedOutcomes(CallsRun(t)))
  }

  function InjectedMessages(js: seq<Injection>): seq<Message> {
    if js == [] then [] else InjectedMessages(js[..|js| - 1]) + [js[|js| - 1].message]
  }

  function TurnResults(t: Turn): seq<ToolResultMessage>
    requires ValidTurn(t)
  {
    ResultsOf(CallsRun(t), t.outcomes)
  }

  function ClosingEvents(t: Turn): seq<AgentEvent>
    requires ValidTurn(t)
  {
    var f := FinalOf(t);
    if f.None? then [] else [TurnEnd(Assistant(f.value), TurnResults(t))]
  }

  function TurnEvents(t: Turn): seq<AgentEvent>
    requires ValidTurn(t)
  {
    [TurnStart] + PairsOf(InjectedMessages(t.injected)) + ConsumerOf(t.response).emitted +
    PhaseEvents(CallsRun(t), t.outcomes, t.phase) + ClosingEvents(t)
  }

  /** What the turn appends to the transcript. */
  function TurnTranscript(t: Turn): seq<Message>
    requires ValidTurn(t)
  {
    InjectedMessages(t.injected) + ConsumerOf(t.response).pushed + ResultMessages(TurnResults(t))
  }

  /** What the turn appends to the list of new messages. */
  function TurnNew(t: Turn): seq<Message>
    requires ValidTurn(t)
  {
    var f := FinalOf(t);
    InjectedMessages(t.injected) + (if f.None? then [] else [Assistant(f.value)]) + ResultMessages(TurnResults(t))
  }

  predicate ValidTurns(ts: seq<Turn>) {
    forall i :: 0 <= i < |ts| ==> ValidTurn(ts[i])
  }

  function EventsOf(ts: seq<Turn>): seq<AgentEvent>
    requires ValidTurns(ts)
  {
    if ts == [] then [] else EventsOf(ts[..|ts| - 1]) + TurnEvents(ts[|ts| - 1])
  }

  function TranscriptOf(ts: seq<Turn>): seq<Message>
    requires ValidTurns(ts)
  {
    if ts == [] then [] else TranscriptOf(ts[..|ts| - 1]) + TurnTranscript(ts[|ts| - 1])
  }

  function NewOf(ts: seq<Turn>): seq<Message>
    requires ValidTurns(ts)
  {
    if ts == [] then [] else NewOf(ts[..|ts| - 1]) + TurnNew(ts[|ts| - 1])
  }

  /** The messages injected from one source, in the order in which they entered the transcript. */
  function Delivered(js: seq<Injection>, o: Origin): seq<Message> {
    if js == [] then []
    else Delivered(js[..|js| - 1], o) + (if js[|js| - 1].origin == o then [js[|js| - 1].message] else [])
  }

  function DeliveredBy(ts: seq<Turn>, o: Origin): seq<Message> {
    if ts == [] then [] else DeliveredBy(ts[..|ts| - 1], o) + Delivered(ts[|ts| - 1].injected, o)
  }

  /** Every turn but a last one the client refused has a response. */
  predicate Answered(ts: seq<Turn>) {
    forall i :: 0 <= i < |ts| ==> !ts[i].response.NotStreamed?
  }

  /** The client refused the request of the last turn, which stays open. */
  predicate Refusal(ts: seq<Turn>) {
    ts != [] && Answered(ts[..|ts| - 1]) && ts[|ts| - 1] == OpenTurn(ts[|ts| - 1].injected)
  }

  // ----- Agreement of the records, turn by turn -----

  /** The trace, the transcript (grown from `base`) and the new messages are the projections of `ts`. */
  ghost predicate Agrees(base: seq<Message>, ts: seq<Turn>, trace: seq<AgentEvent>, context: seq<Message>,
                         newMessages: seq<Message>)
  {
    forall k :: Ask(k) && k == OfRecords ==>
      && ValidTurns(ts)
      && trace == [AgentStart] + EventsOf(ts)
      && context == base + TranscriptOf(ts)
      && newMessages == NewOf(ts)
  }

  lemma TurnsSnoc(ts: seq<Turn>, t: Turn)
    requires ValidTurns(ts) && ValidTurn(t)
    ensures ValidTurns(ts + [t])
    ensures EventsOf(ts + [t]) == EventsOf(ts) + TurnEvents(t)
    ensures TranscriptOf(ts + [t]) == TranscriptOf(ts) + TurnTranscript(t)
    ensures NewOf(ts + [t]) == NewOf(ts) + TurnNew(t)
    ensures forall o :: DeliveredBy(ts + [t], o) == DeliveredBy(ts, o) + Delivered(t.injected, o)
  {
    assert (ts + [t])[..|ts|] == ts;
  }

  /** One more turn extends every record alike. */
  lemma TurnAgrees(base: seq<Message>, ts: seq<Turn>, t: Turn,
                   trace: seq<AgentEvent>, context: seq<Message>, newMessages: seq<Message>)
    requires Agrees(base, ts, trace, context, newMessages) && ValidTurn(t)
    ensures Agrees(base, ts + [t], trace + TurnEvents(t), context + TurnTranscript(t), newMessages + TurnNew(t))
  {
    assert Ask(OfRecords);
    TurnsSnoc(ts, t);
    Associate([AgentStart], EventsOf(ts), TurnEvents(t));
    Associate(base, TranscriptOf(ts), TurnTranscript(t));
    Associate(NewOf(ts), NewOf([]), TurnNew(t));
  }

  /** A turn announced and then refused by the client. */
  lemma OpenAgrees(base: seq<Message>, ts: seq<Turn>, js: seq<Injection>,
                   trace: seq<AgentEvent>, context: seq<Message>, newMessages: seq<Message>)
    requires Agrees(base, ts, trace, context, newMessages)
    ensures ValidTurn(OpenTurn(js))
    ensures Agrees(base, ts + [OpenTurn(js)], trace + ([TurnStart] + PairsOf(InjectedMessages(js))),
                   context + InjectedMessages(js), newMessages + InjectedMessages(js))
  {
    var t := OpenTurn(js);
    assert FinalOf(t).None? && CallsRun(t) == [];
    assert TurnEvents(t) == [TurnStart] + PairsOf(InjectedMessages(js));
    assert TurnTranscript(t) == InjectedMessages(js);
    assert TurnNew(t) == InjectedMessages(js);
    TurnAgrees(base, ts, t, trace, context, newMessages);
  }

  predicate MoreCalls(t: Turn) {
    CallsRun(t) != [] && !Terminates(t.outcomes)
  }

  predicate GoesOn(t: Turn) {
    FinalOf(t).Some? && !FinalOf(t).value.Failed()
  }

  lemma NothingRecorded(base: seq<Message>)
    ensures Agrees(base, [], [AgentStart], base, [])
  {
    AppendEmpty<AgentEvent>([AgentStart]);
    AppendEmpty(base);
  }

  /** The loop starts another turn only to report tool results or to deliver injected messages. */
  predicate Follows(t: Turn, next: Turn) {
    && GoesOn(t)
    && (next.injected != [] || MoreCalls(t))
  }

  predicate Linked(ts: seq<Turn>) {
    forall i :: 0 < i < |ts| ==> Follows(ts[i - 1], ts[i])
  }

  lemma LinkedSnoc(ts: seq<Turn>, t: Turn, pending: seq<Message>, source: Origin)
    requires ts != [] && Linked(ts) && GoesOn(ts[|ts| - 1])
    requires t.injected == Tag(pending, source)
    requires pending != [] || MoreCalls(ts[|ts| - 1])
    ensures Linked(ts + [t])
  {
    TagLength(pending, source);
    forall i | 0 < i < |ts + [t]| ensures Follows((ts + [t])[i - 1], (ts + [t])[i]) {
      if i < |ts| {
        assert Follows(ts[i - 1], ts[i]);
      }
    }
  }

  // ----- Injections -----

  function Tag(ms: seq<Message>, o: Origin): seq<Injection> {
    if ms == [] then [] else Tag(ms[..|ms| - 1], o) + [Injection(o, ms[|ms| - 1])]
  }

  lemma {:induction false} TaggedMessages(js: seq<Injection>, ms: seq<Message>, o: Origin)
    ensures InjectedMessages(js + Tag(ms, o)) == InjectedMessages(js) + ms
    ensures Delivered(js + Tag(ms, o), o) == Delivered(js, o) + ms
    ensures forall p :: p != o ==> Delivered(js + Tag(ms, o), p) == Delivered(js, p)
    decreases |ms|
  {
    if ms == [] {
      assert js + Tag(ms, o) == js;
    } else {
      var n := |ms| - 1;
      TaggedMessages(js, ms[..n], o);
      var before := js + Tag(ms[..n], o);
      assert js + Tag(ms, o) == before + [Injection(o, ms[n])];
      assert (before + [Injection(o, ms[n])])[..|before|] == before;
      assert ms == ms[..n] + [ms[n]];
    }
  }

  lemma TurnDelivers(ts: seq<Turn>, t: Turn, js: seq<Injection>, ms: seq<Message>, source: Origin, o: Origin)
    requires t.injected == js + Tag(ms, source)
    ensures DeliveredBy(ts + [t], o) == DeliveredBy(ts, o) + Delivered(js, o) + (if o == source then ms else [])
  {
    assert (ts + [t])[..|ts|] == ts;
    TaggedMessages(js, ms, source);
    Associate(DeliveredBy(ts, o), Delivered(js, o), if o == source then ms else []);
  }

  /** A queue's drained messages: those in the history, those among the announced prompts `js`,
      and those about to be injected from `source`. */
  ghost predicate Accounted(o: Origin, taken: seq<Message>, base: seq<Message>, ts: seq<Turn>, js: seq<Injection>,
                            pending: seq<Message>, source: Origin)
  {
    forall k :: Ask(k) && k == OfQueues ==>
      taken == base + DeliveredBy(ts, o) + Delivered(js, o) + (if source == o then pending else [])
  }

  lemma AccountedTurn(o: Origin, taken: seq<Message>, base: seq<Message>, ts: seq<Turn>, js: seq<Injection>,
                      pending: seq<Message>, source: Origin, t: Turn)
    requires Accounted(o, taken, base, ts, js, pending, source)
    requires t.injected == js + Tag(pending, source)
    ensures forall next :: Accounted(o, taken, base, ts + [t], [], [], next)
  {
    assert Ask(OfQueues);
    TurnDelivers(ts, t, js, pending, source, o);
    Associate(base, DeliveredBy(ts, o), Delivered(js, o));
    Associate(base, DeliveredBy(ts, o) + Delivered(js, o), if source == o then pending else []);
    forall next ensures Accounted(o, taken, base, ts + [t], [], [], next) {
      AppendEmpty(base + DeliveredBy(ts + [t], o));
      AppendEmpty(base + DeliveredBy(ts + [t], o) + []);
    }
  }

  lemma TagStart(prompts: seq<Message>, origin: Origin)
    ensures InjectedMessages(Tag(prompts, origin)) == prompts
    ensures [AgentStart] + ([TurnStart] + PairsOf(prompts)) == [AgentStart, TurnStart] + PairsOf(prompts)
    ensures forall p :: Delivered(Tag(prompts, origin), p) == if p == origin then prompts else []
  {
    TaggedMessages([], prompts, origin);
    assert [] + Tag(prompts, origin) == Tag(prompts, origin);
    assert InjectedMessages([]) + prompts == prompts;
  }

  lemma AccountedStart(o: Origin, taken: seq<Message>, base: seq<Message>, prompts: seq<Message>, origin: Origin)
    requires taken == base + (if origin == o then prompts else [])
    ensures forall next :: Accounted(o, taken, base, [], Tag(prompts, origin), [], next)
  {
    TagStart(prompts, origin);
    AppendEmpty(base);
    AppendEmpty(taken);
  }

  lemma AccountedPoll(o: Origin, taken: seq<Message>, base: seq<Message>, ts: seq<Turn>, js: seq<Injection>,
                      before: Origin,
                      taken': seq<Message>, ms: seq<Message>, source: Origin)
    requires Accounted(o, taken, base, ts, js, [], before)
    requires taken' == taken + (if source == o then ms else [])
    ensures Accounted(o, taken', base, ts, js, ms, source)
  {
    assert Ask(OfQueues);
    AppendEmpty(base + DeliveredBy(ts, o) + Delivered(js, o));
  }

  lemma {:induction false} TagLength(ms: seq<Message>, o: Origin)
    ensures |Tag(ms, o)| == |ms|
  {
    if ms != [] {
      TagLength(ms[..|ms| - 1], o);
    }
  }

  lemma {:induction false} PairsAppend(a: seq<Message>, b: seq<Message>)
    ensures PairsOf(a + b) == PairsOf(a) + PairsOf(b)
    decreases |b|
  {
    if b == [] {
      assert a + b == a;
    } else {
      var n := |b| - 1;
      PairsAppend(a, b[..n]);
      assert (a + b)[..|a + b| - 1] == a + b[..n];
      Associate(PairsOf(a), PairsOf(b[..n]), Pair(b[n]));
    }
  }

  /** The events of a turn's opening, once `pending` was injected after `js`. */
  lemma OpeningEvents(before: seq<AgentEvent>, js: seq<Injection>, pending: seq<Message>, source: Origin)
    ensures before + ([TurnStart] + PairsOf(InjectedMessages(js))) + PairsOf(pending) ==
            before + ([TurnStart] + PairsOf(InjectedMessages(js + Tag(pending, source))))
    ensures pending == [] ==> PairsOf(InjectedMessages(js + Tag(pending, source))) == PairsOf(InjectedMessages(js))
  {
    TaggedMessages(js, pending, source);
    PairsAppend(InjectedMessages(js), pending);
    Regroup(before, [TurnStart], PairsOf(InjectedMessages(js)), PairsOf(pending));
    if pending == [] {
      AppendEmpty(InjectedMessages(js));
    }
  }

  // ----- Finished runs -----

  /** A run that succeeded: trace, transcript growth, new messages and AgentEnd payload all come
      from the same turns, and AgentEnd is the last event. */
  ghost predicate SucceededRun(base: seq<Message>, ts: seq<Turn>, trace: seq<AgentEvent>, transcript: seq<Message>,
                               produced: seq<Message>)
  {
    && ValidTurns(ts) && ts != [] && Linked(ts) && Answered(ts)
    && produced == NewOf(ts)
    && transcript == base + TranscriptOf(ts)
    && trace == [AgentStart] + EventsOf(ts) + [AgentEnd(produced)]
  }

  /** A run whose last request the client refused: a failed message closes transcript and trace. */
  ghost predicate RefusedRun(base: seq<Message>, ts: seq<Turn>, trace: seq<AgentEvent>, transcript: seq<Message>,
                             failure: AssistantMessage)
  {
    && ValidTurns(ts) && Linked(ts) && Refusal(ts) && failure.Failed()
    && transcript == base + TranscriptOf(ts) + [Assistant(failure)]
    && trace == [AgentStart] + EventsOf(ts) + [AgentEnd([Assistant(failure)])]
  }

  lemma Succeeded(base: seq<Message>, ts: seq<Turn>, records: seq<AgentEvent>, context: seq<Message>,
                  newMessages: seq<Message>)
    requires Agrees(base, ts, records, context, newMessages) && ts != [] && Linked(ts) && Answered(ts)
    ensures SucceededRun(base, ts, records + [AgentEnd(newMessages)], context, newMessages)
  {
    assert Ask(OfRecords);
  }

  lemma RefusedByClient(base: seq<Message>, ts: seq<Turn>, records: seq<AgentEvent>, context: seq<Message>,
                        newMessages: seq<Message>,
                        failure: AssistantMessage)
    requires Agrees(base, ts, records, context, newMessages) && Linked(ts) && Refusal(ts) && failure.Failed()
    ensures RefusedRun(base, ts, records + [AgentEnd([Assistant(failure)])], context + [Assistant(failure)], failure)
  {
    assert Ask(OfRecords);
  }

  lemma AllAccounted(o: Origin, taken: seq<Message>, base: seq<Message>, ts: seq<Turn>, source: Origin)
    requires Accounted(o, taken, base, ts, [], [], source)
    ensures taken == base + DeliveredBy(ts, o)
  {
    assert Ask(OfQueues);
    AppendEmpty(base + DeliveredBy(ts, o));
  }
}
