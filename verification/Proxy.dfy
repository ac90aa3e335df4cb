/** The reducer that rebuilds a message from the events of a proxy. */
module Proxy {
  import opened Types

  datatype WireEvent =
    | WireStart
    | WireTextStart(index: nat)
    | WireTextDelta(index: nat, delta: string)
    | WireTextEnd(index: nat, signature: Option<string>)
    | WireThinkingStart(index: nat)
    | WireThinkingDelta(index: nat, delta: string)
    | WireThinkingEnd(index: nat, signature: Option<string>)
    | WireCallStart(index: nat, id: string, toolName: string)
    | WireCallDelta(index: nat, delta: string)
    | WireCallEnd(index: nat)
    | WireDone(reason: StopReason, usage: int)
    | WireError(reason: StopReason, errorMessage: Option<string>, usage: int)

  /** The partial message, and the JSON text received so far for calls being streamed. */
  datatype State = State(partial: AssistantMessage, buffers: map<nat, string>)

  datatype Reply = Accepted(event: Option<StreamEvent>) | Rejected(message: string)

  type Parser = string -> Option<Json>

  function WithContent(a: AssistantMessage, content: seq<AssistantBlock>): AssistantMessage {
    a.(content := content)
  }

  /** Appends at the end, replaces before it, and fails past it. */
  function Place(content: seq<AssistantBlock>, i: nat, b: AssistantBlock): Option<seq<AssistantBlock>> {
    if i == |content| then Some(content + [b])
    else if i < |content| then Some(content[i := b])
    else None
  }

  function NewText(): AssistantBlock {
    TextBlock(TextContent("", None))
  }

  function NewThinking(): AssistantBlock {
    ThinkingBlock("", None, None)
  }

  function NewCall(id: string, name: string): AssistantBlock {
    CallBlock(ToolCall(id, name, EMPTY_OBJECT, None))
  }

  predicate Starts(e: WireEvent) {
    e.WireTextStart? || e.WireThinkingStart? || e.WireCallStart?
  }

  function BufferAt(buffers: map<nat, string>, i: nat): string {
    if i in buffers then buffers[i] else ""
  }

  /** The block after an event that concerns it, if it is of the right kind. */
  function NextBlock(parse: Parser, b: AssistantBlock, buffer: string, e: WireEvent): Option<AssistantBlock> {
    match e
    case WireTextDelta(_, delta) =>
      if b.TextBlock? then Some(TextBlock(TextContent(b.text.text + delta, b.text.signature))) else None
    case WireTextEnd(_, signature) =>
      if b.TextBlock? then Some(TextBlock(TextContent(b.text.text, signature))) else None
    case WireThinkingDelta(_, delta) =>
      if b.ThinkingBlock? then Some(ThinkingBlock(b.thinking + delta, b.signature, b.redacted)) else None
    case WireThinkingEnd(_, signature) =>
      if b.ThinkingBlock? then Some(ThinkingBlock(b.thinking, signature, b.redacted)) else None
    case WireCallDelta(_, delta) =>
      if b.CallBlock? then
        var parsed := parse(buffer + delta);
        var arguments := if parsed.Some? then parsed.value else b.call.arguments;
        Some(CallBlock(ToolCall(b.call.id, b.call.name, arguments, b.call.thoughtSignature)))
      else None
    case _ => None
  }

  function StartBlock(e: WireEvent): AssistantBlock
    requires Starts(e)
  {
    match e
    case WireTextStart(_) => NewText()
    case WireThinkingStart(_) => NewThinking()
    case WireCallStart(_, id, name) => NewCall(id, name)
  }

  predicate Edits(e: WireEvent) {
    e.WireTextDelta? || e.WireTextEnd? || e.WireThinkingDelta? || e.WireThinkingEnd? || e.WireCallDelta?
  }

  /** The content after an event; none if the event is rejected. */
  function NextContent(parse: Parser, s: State, e: WireEvent): Option<seq<AssistantBlock>> {
    var content := s.partial.content;
    if Starts(e) then Place(content, e.index, StartBlock(e))
    else if Edits(e) then
      if e.index >= |content| then None
      else
        var b := NextBlock(parse, content[e.index], BufferAt(s.buffers, e.index), e);
        if b.None? then None else Some(content[e.index := b.value])
    else Some(content)
  }

  /** The buffers after an event that was not rejected. */
  function NextBuffers(s: State, e: WireEvent): map<nat, string> {
    match e
    case WireCallStart(i, _, _) => s.buffers[i := ""]
    case WireCallDelta(i, delta) => s.buffers[i := BufferAt(s.buffers, i) + delta]
    case WireCallEnd(i) =>
      if i < |s.partial.content| && s.partial.content[i].CallBlock? then s.buffers - {i} else s.buffers
    case _ => s.buffers
  }

  function NextMessage(a: AssistantMessage, e: WireEvent): AssistantMessage {
    match e
    case WireDone(reason, usage) => a.(stopReason := reason, usage := usage)
    case WireError(reason, message, usage) => a.(stopReason := reason, errorMessage := message, usage := usage)
    case _ => a
  }

  predicate Accepts(parse: Parser, s: State, e: WireEvent) {
    NextContent(parse, s, e).Some?
  }

  /** A rejected event changes nothing. */
  function Next(parse: Parser, s: State, e: WireEvent): State {
    var content := NextContent(parse, s, e);
    if content.None? then s
    else State(NextMessage(WithContent(s.partial, content.value), e), NextBuffers(s, e))
  }

  class ProxyReducer {
    const parse: Parser
    var partial: AssistantMessage
    var buffers: map<nat, string>

    function Current(): State
      reads this
    {
      State(partial, buffers)
    }

    constructor (parse: Parser, seed: AssistantMessage)
      ensures this.parse == parse && Current() == State(seed, map[])
    {
      this.parse, partial, buffers := parse, seed, map[];
    }

    method PlaceBlock(i: nat, b: AssistantBlock) returns (ok: bool)
      modifies this`partial
      ensures ok <==> Place(old(partial).content, i, b).Some?
      ensures partial == if ok then WithContent(old(partial), Place(old(partial).content, i, b).value) else old(partial)
    {
      ok := i <= |partial.content|;
      if i == |partial.content| {
        partial := WithContent(partial, partial.content + [b]);
      } else if i < |partial.content| {
        partial := WithContent(partial, partial.content[i := b]);
      }
    }

    method SetBlock(i: nat, b: AssistantBlock)
      requires i < |partial.content|
      modifies this`partial
      ensures partial == WithContent(old(partial), old(partial).content[i := b])
    {
      partial := WithContent(partial, partial.content[i := b]);
    }

    /** Opens a slot. */
    method StartSlot(e: WireEvent) returns (ok: bool)
      requires Starts(e)
      modifies this
      ensures ok <==> Accepts(parse, old(Current()), e)
      ensures Current() == Next(parse, old(Current()), e)
    {
      match e {
        case WireTextStart(i) => ok := PlaceBlock(i, NewText());
        case WireThinkingStart(i) => ok := PlaceBlock(i, NewThinking());
        case WireCallStart(i, id, name) =>
          ok := PlaceBlock(i, NewCall(id, name));
          if ok {
            buffers := buffers[i := ""];
          }
      }
    }

    /** Adds to a slot of the right kind. */
    method EditSlot(e: WireEvent) returns (ok: bool)
      requires Edits(e)
      modifies this
      ensures ok <==> Accepts(parse, old(Current()), e)
      ensures Current() == Next(parse, old(Current()), e)
    {
      if e.index >= |partial.content| {
        return false;
      }
      var b := partial.content[e.index];
      match e {
        case WireTextDelta(i, delta) =>
          if !b.TextBlock? { return false; }
          SetBlock(i, TextBlock(TextContent(b.text.text + delta, b.text.signature)));
        case WireTextEnd(i, signature) =>
          if !b.TextBlock? { return false; }
          SetBlock(i, TextBlock(TextContent(b.text.text, signature)));
        case WireThinkingDelta(i, delta) =>
          if !b.ThinkingBlock? { return false; }
          SetBlock(i, ThinkingBlock(b.thinking + delta, b.signature, b.redacted));
        case WireThinkingEnd(i, signature) =>
          if !b.ThinkingBlock? { return false; }
          SetBlock(i, ThinkingBlock(b.thinking, signature, b.redacted));
        case WireCallDelta(i, delta) =>
          if !b.CallBlock? { return false; }
          var buffer := (if i in buffers then buffers[i] else "") + delta;
          buffers := buffers[i := buffer];
          var parsed := parse(buffer);
          var arguments := if parsed.Some? then parsed.value else b.call.arguments;
          SetBlock(i, CallBlock(ToolCall(b.call.id, b.call.name, arguments, b.call.thoughtSignature)));
      }
      ok := true;
    }

    /** Applies one event: the reply carries the message as it is afterwards. */
    method Process(e: WireEvent) returns (reply: Reply)
      modifies this
      ensures Current() == Next(parse, old(Current()), e)
      ensures reply.Accepted? <==> Accepts(parse, old(Current()), e)
      ensures reply.Accepted? ==> reply.event == Announced(Current(), e)
    {
      var ok := true;
      if Starts(e) {
        ok := StartSlot(e);
      } else if Edits(e) {
        ok := EditSlot(e);
      } else {
        Finish(e);
      }
      reply := if ok then Accepted(Announced(Current(), e)) else Rejected("wrong slot");
    }

    method Finish(e: WireEvent)
      requires !Starts(e) && !Edits(e)
      modifies this
      ensures Current() == Next(parse, old(Current()), e)
    {
      match e {
        case WireCallEnd(i) =>
          if i < |partial.content| && partial.content[i].CallBlock? {
            buffers := buffers - {i};
          }
        case WireDone(reason, usage) => partial := partial.(stopReason := reason, usage := usage);
        case WireError(reason, message, usage) =>
          partial := partial.(stopReason := reason, errorMessage := message, usage := usage);
        case WireStart =>
      }
      assert WithContent(old(partial), old(partial).content) == old(partial);
    }
  }

  function BlockAt(a: AssistantMessage, i: nat): Option<AssistantBlock> {
    if i < |a.content| then Some(a.content[i]) else None
  }

  function TextAt(a: AssistantMessage, i: nat): string {
    match BlockAt(a, i)
    case Some(TextBlock(t)) => t.text
    case Some(ThinkingBlock(t, _, _)) => t
    case _ => ""
  }

  /** What the agent is told of an accepted event; the end of a call in a slot that holds none is
      passed over in silence. */
  function Announced(s: State, e: WireEvent): Option<StreamEvent> {
    var a := s.partial;
    match e
    case WireStart => Some(Start(a))
    case WireTextStart(i) => Some(Update(TextStart(i), a))
    case WireTextDelta(i, delta) => Some(Update(TextDelta(i, delta), a))
    case WireTextEnd(i, _) => Some(Update(TextEnd(i, TextAt(a, i)), a))
    case WireThinkingStart(i) => Some(Update(ThinkingStart(i), a))
    case WireThinkingDelta(i, delta) => Some(Update(ThinkingDelta(i, delta), a))
    case WireThinkingEnd(i, _) => Some(Update(ThinkingEnd(i, TextAt(a, i)), a))
    case WireCallStart(i, _, _) => Some(Update(CallStart(i), a))
    case WireCallDelta(i, delta) => Some(Update(CallDelta(i, delta), a))
    case WireCallEnd(i) =>
      var b := BlockAt(a, i);
      if b.Some? && b.value.CallBlock? then Some(Update(CallEnd(i, b.value.call), a)) else None
    case WireDone(reason, _) => Some(Done(reason, a))
    case WireError(reason, _, _) => Some(Failure(reason, a))
  }

  // ----- What the reducer builds, told from the history of accepted events -----

  function After(parse: Parser, seed: AssistantMessage, es: seq<WireEvent>): State {
    if es == [] then State(seed, map[]) else Next(parse, After(parse, seed, es[..|es| - 1]), es[|es| - 1])
  }

  ghost predicate AllAccepted(parse: Parser, seed: AssistantMessage, es: seq<WireEvent>) {
    forall i :: 0 <= i < |es| ==> Accepts(parse, After(parse, seed, es[..i]), es[i])
  }

  predicate StartsAt(e: WireEvent, i: nat) {
    Starts(e) && e.index == i
  }

  /** The event that last opened slot `i`. */
  function Opening(es: seq<WireEvent>, i: nat): Option<WireEvent> {
    if es == [] then None
    else if StartsAt(es[|es| - 1], i) then Some(es[|es| - 1])
    else Opening(es[..|es| - 1], i)
  }

  /** The events since slot `i` was last opened. */
  function Since(es: seq<WireEvent>, i: nat): seq<WireEvent> {
    if es == [] || StartsAt(es[|es| - 1], i) then [] else Since(es[..|es| - 1], i) + [es[|es| - 1]]
  }

  /** The text or thinking that the events add to slot `i`, in order. */
  function Said(es: seq<WireEvent>, i: nat): string {
    if es == [] then ""
    else
      var e := es[|es| - 1];
      Said(es[..|es| - 1], i) + (if (e.WireTextDelta? || e.WireThinkingDelta?) && e.index == i then e.delta else "")
  }

  function Signed(es: seq<WireEvent>, i: nat): Option<string> {
    if es == [] then None
    else
      var e := es[|es| - 1];
      if (e.WireTextEnd? || e.WireThinkingEnd?) && e.index == i then e.signature else Signed(es[..|es| - 1], i)
  }

  /** The JSON text of the call in slot `i` since its last end, if it had one. */
  function Fragments(es: seq<WireEvent>, i: nat): string {
    if es == [] then ""
    else
      var e := es[|es| - 1];
      if e == WireCallEnd(i) then ""
      else Fragments(es[..|es| - 1], i) + (if e.WireCallDelta? && e.index == i then e.delta else "")
  }

  /** What the last fragments that parsed came to. */
  function LastParsed(parse: Parser, es: seq<WireEvent>, i: nat): Option<Json> {
    if es == [] then None
    else
      var e := es[|es| - 1];
      if e.WireCallDelta? && e.index == i && parse(Fragments(es, i)).Some? then parse(Fragments(es, i))
      else LastParsed(parse, es[..|es| - 1], i)
  }

  function Otherwise<T>(o: Option<T>, default: T): T {
    if o.Some? then o.value else default
  }

  /** The block that an opening event and what followed it make. */
  function BlockOf(parse: Parser, opening: WireEvent, since: seq<WireEvent>, i: nat): AssistantBlock {
    match opening
    case WireTextStart(_) => TextBlock(TextContent(Said(since, i), Signed(since, i)))
    case WireThinkingStart(_) => ThinkingBlock(Said(since, i), Signed(since, i), None)
    case WireCallStart(_, id, name) =>
      CallBlock(ToolCall(id, name, Otherwise(LastParsed(parse, since, i), EMPTY_OBJECT), None))
    case _ => NewText()
  }

  /** Slot `i` as the history tells it. */
  ghost predicate SlotTold(parse: Parser, s: State, es: seq<WireEvent>, i: nat) {
    var opening, since := Opening(es, i), Since(es, i);
    && (opening.Some? <==> i < |s.partial.content|)
    && (opening.Some? ==> Starts(opening.value) && s.partial.content[i] == BlockOf(parse, opening.value, since, i))
    && (opening.Some? && opening.value.WireCallStart? ==> BufferAt(s.buffers, i) == Fragments(since, i))
    && (i in s.buffers ==> i < |s.partial.content|)
  }

  lemma HistorySnoc(es: seq<WireEvent>, e: WireEvent, i: nat)
    ensures Opening(es + [e], i) == if StartsAt(e, i) then Some(e) else Opening(es, i)
    ensures Since(es + [e], i) == if StartsAt(e, i) then [] else Since(es, i) + [e]
  {
    assert (es + [e])[..|es|] == es;
  }

  lemma SinceSnoc(parse: Parser, es: seq<WireEvent>, e: WireEvent, i: nat)
    ensures Said(es + [e], i) == if (e.WireTextDelta? || e.WireThinkingDelta?) && e.index == i
            then Said(es, i) + e.delta else Said(es, i)
    ensures Signed(es + [e], i) == if (e.WireTextEnd? || e.WireThinkingEnd?) && e.index == i then e.signature
            else Signed(es, i)
    ensures Fragments(es + [e], i) == if e == WireCallEnd(i) then ""
                                      else if e.WireCallDelta? && e.index == i then Fragments(es, i) + e.delta
                                      else Fragments(es, i)
    ensures LastParsed(parse, es + [e], i) ==
              if e.WireCallDelta? && e.index == i && parse(Fragments(es, i) + e.delta).Some?
                then parse(Fragments(es, i) + e.delta)
              else LastParsed(parse, es, i)
  {
    assert (es + [e])[..|es|] == es;
    assert Said(es, i) + "" == Said(es, i) && Fragments(es, i) + "" == Fragments(es, i);
  }

  predicate EditsAt(e: WireEvent, i: nat) {
    Edits(e) && e.index == i
  }

  /** The block goes on to be what its history tells. */
  lemma BlockSnoc(parse: Parser, opening: WireEvent, since: seq<WireEvent>, i: nat, e: WireEvent)
    requires Starts(opening)
    ensures var b, next := BlockOf(parse, opening, since, i), BlockOf(parse, opening, since + [e], i);
            if EditsAt(e, i) then NextBlock(parse, b, Fragments(since, i), e).Some? ==>
              NextBlock(parse, b, Fragments(since, i), e) == Some(next)
            else next == b
  {
    SinceSnoc(parse, since, e, i);
  }

  lemma StartTold(parse: Parser, s: State, es: seq<WireEvent>, e: WireEvent, i: nat)
    requires SlotTold(parse, s, es, i) && StartsAt(e, i)
    requires Accepts(parse, s, e)
    ensures SlotTold(parse, Next(parse, s, e), es + [e], i)
  {
    HistorySnoc(es, e, i);
  }

  /** What an accepted edit does to its slot and its buffer. */
  lemma EditKeeps(parse: Parser, s: State, e: WireEvent, i: nat)
    requires EditsAt(e, i) && Accepts(parse, s, e)
    ensures var next := Next(parse, s, e);
            && i < |s.partial.content| == |next.partial.content|
            && NextBlock(parse, s.partial.content[i], BufferAt(s.buffers, i), e) == Some(next.partial.content[i])
            && (i in next.buffers ==> i in s.buffers || e.WireCallDelta?)
            && BufferAt(next.buffers, i) == if e.WireCallDelta? then BufferAt(s.buffers, i) + e.delta
               else BufferAt(s.buffers, i)
  {
  }

  lemma EditTold(parse: Parser, s: State, es: seq<WireEvent>, e: WireEvent, i: nat)
    requires SlotTold(parse, s, es, i) && EditsAt(e, i)
    requires Accepts(parse, s, e)
    ensures SlotTold(parse, Next(parse, s, e), es + [e], i)
  {
    HistorySnoc(es, e, i);
    EditKeeps(parse, s, e, i);
    var opening, since := Opening(es, i).value, Since(es, i);
    BlockSnoc(parse, opening, since, i, e);
    SinceSnoc(parse, since, e, i);
    assert NextBlock(parse, BlockOf(parse, opening, since, i), BufferAt(s.buffers, i), e) ==
           NextBlock(parse, BlockOf(parse, opening, since, i), Fragments(since, i), e);
  }

  /** An event that concerns no slot, or another one. */
  lemma OtherTold(parse: Parser, s: State, es: seq<WireEvent>, e: WireEvent, i: nat)
    requires SlotTold(parse, s, es, i) && !StartsAt(e, i) && !EditsAt(e, i)
    requires Accepts(parse, s, e)
    ensures SlotTold(parse, Next(parse, s, e), es + [e], i)
  {
    HistorySnoc(es, e, i);
    var opening, since := Opening(es, i), Since(es, i);
    if opening.Some? {
      BlockSnoc(parse, opening.value, since, i, e);
    }
    SinceSnoc(parse, since, e, i);
    OtherKeeps(parse, s, e, i);
  }

  lemma OtherKeeps(parse: Parser, s: State, e: WireEvent, i: nat)
    requires !StartsAt(e, i) && !EditsAt(e, i) && Accepts(parse, s, e)
    ensures var next := Next(parse, s, e);
            && (i < |next.partial.content| <==> i < |s.partial.content|)
            && (i < |s.partial.content| ==> next.partial.content[i] == s.partial.content[i])
            && (i in next.buffers ==> i in s.buffers)
            && (e != WireCallEnd(i) ==> BufferAt(next.buffers, i) == BufferAt(s.buffers, i))
            && (e == WireCallEnd(i) && i < |s.partial.content| && s.partial.content[i].CallBlock? ==>
                BufferAt(next.buffers, i) == "")
  {
  }

  ghost predicate AllTold(parse: Parser, s: State, es: seq<WireEvent>) {
    forall k: nat :: SlotTold(parse, s, es, k)
  }

  lemma StepTold(parse: Parser, s: State, es: seq<WireEvent>, e: WireEvent)
    requires AllTold(parse, s, es) && Accepts(parse, s, e)
    ensures AllTold(parse, Next(parse, s, e), es + [e])
  {
    forall i: nat ensures SlotTold(parse, Next(parse, s, e), es + [e], i) {
      if StartsAt(e, i) {
        StartTold(parse, s, es, e, i);
      } else if EditsAt(e, i) {
        EditTold(parse, s, es, e, i);
      } else {
        OtherTold(parse, s, es, e, i);
      }
    }
  }

  lemma AcceptedBefore(parse: Parser, seed: AssistantMessage, es: seq<WireEvent>, n: nat)
    requires AllAccepted(parse, seed, es) && n <= |es|
    ensures AllAccepted(parse, seed, es[..n])
  {
    forall k | 0 <= k < n ensures Accepts(parse, After(parse, seed, es[..n][..k]), es[..n][k]) {
      assert es[..n][..k] == es[..k];
    }
  }

  lemma {:induction false} HistoryIsTold(parse: Parser, seed: AssistantMessage, es: seq<WireEvent>)
    requires seed.content == [] && AllAccepted(parse, seed, es)
    ensures AllTold(parse, After(parse, seed, es), es)
  {
    if es == [] {
      assert AllTold(parse, State(seed, map[]), []);
    } else {
      var n := |es| - 1;
      AcceptedBefore(parse, seed, es, n);
      HistoryIsTold(parse, seed, es[..n]);
      StepTold(parse, After(parse, seed, es[..n]), es[..n], es[n]);
      assert es == es[..n] + [es[n]];
    }
  }

  /** Main result.  After any accepted events a text or thinking slot holds the deltas since it was
      last opened, a call slot the last fragments that parsed since then, and every buffer belongs
      to a slot. */
  lemma SlotsAreTold(parse: Parser, seed: AssistantMessage, es: seq<WireEvent>, i: nat)
    requires seed.content == [] && AllAccepted(parse, seed, es)
    ensures var s, opening, since := After(parse, seed, es), Opening(es, i), Since(es, i);
            && (i < |s.partial.content| <==> opening.Some?)
            && (opening.Some? ==> s.partial.content[i] == BlockOf(parse, opening.value, since, i))
            && (opening.Some? && opening.value.WireCallStart? ==> BufferAt(s.buffers, i) == Fragments(since, i))
            && (i in s.buffers ==> i < |s.partial.content|)
  {
    HistoryIsTold(parse, seed, es);
    assert SlotTold(parse, After(parse, seed, es), es, i);
  }

  lemma EditAcceptedExactly(parse: Parser, s: State, es: seq<WireEvent>, e: WireEvent)
    requires Edits(e) && SlotTold(parse, s, es, e.index)
    ensures var opening := Opening(es, e.index);
            Accepts(parse, s, e) <==>
              && opening.Some?
              && (e.WireTextDelta? || e.WireTextEnd? ==> opening.value.WireTextStart?)
              && (e.WireThinkingDelta? || e.WireThinkingEnd? ==> opening.value.WireThinkingStart?)
              && (e.WireCallDelta? ==> opening.value.WireCallStart?)
  {
  }

  lemma StartAcceptedExactly(parse: Parser, s: State, es: seq<WireEvent>, e: WireEvent)
    requires Starts(e) && (e.index > 0 ==> SlotTold(parse, s, es, e.index - 1))
    ensures Accepts(parse, s, e) <==> e.index == 0 || Opening(es, e.index - 1).Some?
  {
  }

  /** An edit is accepted exactly when its slot was last opened as its own kind, and a start exactly
      when it leaves no gap; nothing else is ever rejected. */
  lemma AcceptedExactly(parse: Parser, seed: AssistantMessage, es: seq<WireEvent>, e: WireEvent)
    requires seed.content == [] && AllAccepted(parse, seed, es)
    ensures Accepts(parse, After(parse, seed, es), e) <==>
              if Starts(e) then e.index == 0 || Opening(es, e.index - 1).Some?
              else if Edits(e) then
                var opening := Opening(es, e.index);
                && opening.Some?
                && (e.WireTextDelta? || e.WireTextEnd? ==> opening.value.WireTextStart?)
                && (e.WireThinkingDelta? || e.WireThinkingEnd? ==> opening.value.WireThinkingStart?)
                && (e.WireCallDelta? ==> opening.value.WireCallStart?)
              else true
  {
    HistoryIsTold(parse, seed, es);
    if Starts(e) {
      assert e.index > 0 ==> SlotTold(parse, After(parse, seed, es), es, e.index - 1);
      StartAcceptedExactly(parse, After(parse, seed, es), es, e);
    } else if Edits(e) {
      EditAcceptedExactly(parse, After(parse, seed, es), es, e);
    }
  }

  // ----- How the message ends -----

  predicate Ends(e: WireEvent) {
    e.WireDone? || e.WireError?
  }

  /** The last event that ended the message, and the last that ended it with an error. */
  function LastEnding(es: seq<WireEvent>): Option<WireEvent> {
    if es == [] then None
    else if Ends(es[|es| - 1]) then Some(es[|es| - 1])
    else LastEnding(es[..|es| - 1])
  }

  function LastError(es: seq<WireEvent>): Option<WireEvent> {
    if es == [] then None
    else if es[|es| - 1].WireError? then Some(es[|es| - 1])
    else LastError(es[..|es| - 1])
  }

  lemma {:induction false} EndingIsHeld(parse: Parser, seed: AssistantMessage, es: seq<WireEvent>)
    ensures LastEnding(es).Some? ==> Ends(LastEnding(es).value)
    ensures LastError(es).Some? ==> LastError(es).value.WireError?
    ensures var a, ending, error := After(parse, seed, es).partial, LastEnding(es), LastError(es);
            && a.stopReason == (if ending.Some? then ending.value.reason else seed.stopReason)
            && a.usage == (if ending.Some? then ending.value.usage else seed.usage)
            && a.errorMessage == (if error.Some? then error.value.errorMessage else seed.errorMessage)
  {
    if es != [] {
      EndingIsHeld(parse, seed, es[..|es| - 1]);
    }
  }

  /** After any events the message has the stop reason and usage of the last event that ended it and
      the error text of the last error; everything else but its content is as it was at first. */
  lemma EndingIsTold(parse: Parser, seed: AssistantMessage, es: seq<WireEvent>)
    ensures LastEnding(es).Some? ==> Ends(LastEnding(es).value)
    ensures LastError(es).Some? ==> LastError(es).value.WireError?
    ensures var a, ending, error := After(parse, seed, es).partial, LastEnding(es), LastError(es);
            a == seed.(content := a.content,
                       stopReason := if ending.Some? then ending.value.reason else seed.stopReason,
                       usage := if ending.Some? then ending.value.usage else seed.usage,
                       errorMessage := if error.Some? then error.value.errorMessage else seed.errorMessage)
  {
    EndingIsHeld(parse, seed, es);
    OthersStay(parse, seed, es);
  }

  lemma {:induction false} OthersStay(parse: Parser, seed: AssistantMessage, es: seq<WireEvent>)
    ensures var a := After(parse, seed, es).partial;
            a == seed.(content := a.content, stopReason := a.stopReason, usage := a.usage,
                       errorMessage := a.errorMessage)
  {
    if es != [] {
      OthersStay(parse, seed, es[..|es| - 1]);
    }
  }

  // ----- What a listener can rebuild -----

  function Heard(event: Option<StreamEvent>): seq<StreamEvent> {
    if event.Some? then [event.value] else []
  }

  /** Everything announced of the events, in order. */
  function AnnouncedAll(parse: Parser, seed: AssistantMessage, es: seq<WireEvent>): seq<StreamEvent> {
    if es == [] then []
    else AnnouncedAll(parse, seed, es[..|es| - 1]) + Heard(Announced(After(parse, seed, es), es[|es| - 1]))
  }

  /** The message an announced event carries. */
  function Carried(e: StreamEvent): AssistantMessage {
    match e
    case Start(a) => a
    case Update(_, a) => a
    case Done(_, a) => a
    case Failure(_, a) => a
  }

  predicate Opens(e: StreamEvent, i: nat) {
    e.Update? && (e.what == TextStart(i) || e.what == ThinkingStart(i) || e.what == CallStart(i))
  }

  /** What a listener that adds up deltas has for slot `i` since it last heard it open. */
  function AddedUp(told: seq<StreamEvent>, i: nat): string {
    if told == [] || Opens(told[|told| - 1], i) then ""
    else
      var e := told[|told| - 1];
      AddedUp(told[..|told| - 1], i) +
      (if e.Update? && (e.what.TextDelta? || e.what.ThinkingDelta?) && e.what.index == i then e.what.delta else "")
  }

  lemma AddedUpSnoc(told: seq<StreamEvent>, e: StreamEvent, i: nat)
    ensures AddedUp(told + [e], i) ==
            if Opens(e, i) then ""
            else AddedUp(told, i) +
                 (if e.Update? && (e.what.TextDelta? || e.what.ThinkingDelta?) && e.what.index == i then e.what.delta
                  else "")
  {
    TakeBack(told, e);
  }

  /** What announcing one event adds. */
  lemma ToldAdds(told: seq<StreamEvent>, s: State, e: WireEvent, i: nat)
    ensures AddedUp(told + Heard(Announced(s, e)), i) ==
            if StartsAt(e, i) then ""
            else if (e.WireTextDelta? || e.WireThinkingDelta?) && e.index == i then AddedUp(told, i) + e.delta
            else AddedUp(told, i)
  {
    AppendEmpty(AddedUp(told, i));
    if Announced(s, e).Some? {
      AddedUpSnoc(told, Announced(s, e).value, i);
    } else {
      AppendEmpty(told);
    }
  }

  lemma {:induction false} DeltasAddUp(parse: Parser, seed: AssistantMessage, es: seq<WireEvent>, i: nat)
    ensures AddedUp(AnnouncedAll(parse, seed, es), i) == Said(Since(es, i), i)
  {
    if es != [] {
      var init, e := es[..|es| - 1], es[|es| - 1];
      DeltasAddUp(parse, seed, init, i);
      ToldAdds(AnnouncedAll(parse, seed, init), After(parse, seed, es), e, i);
      if !StartsAt(e, i) {
        SinceSnoc(parse, Since(init, i), e, i);
      }
    }
  }

  /** An event that is not announced leaves the message alone. */
  lemma ToldCarries(parse: Parser, s: State, e: WireEvent)
    requires Accepts(parse, s, e)
    ensures var next := Next(parse, s, e);
            if Announced(next, e).Some? then Carried(Announced(next, e).value) == next.partial
            else next.partial == s.partial
  {
  }

  /** The message a listener was last told. */
  function LastTold(told: seq<StreamEvent>, seed: AssistantMessage): AssistantMessage {
    if told == [] then seed else Carried(told[|told| - 1])
  }

  lemma LastToldNext(told: seq<StreamEvent>, event: Option<StreamEvent>, seed: AssistantMessage)
    ensures LastTold(told + Heard(event), seed) == if event.Some? then Carried(event.value) else LastTold(told, seed)
  {
    AppendEmpty(told);
  }

  lemma AcceptedLast(parse: Parser, seed: AssistantMessage, es: seq<WireEvent>)
    requires AllAccepted(parse, seed, es) && es != []
    ensures AllAccepted(parse, seed, es[..|es| - 1])
    ensures Accepts(parse, After(parse, seed, es[..|es| - 1]), es[|es| - 1])
  {
    AcceptedBefore(parse, seed, es, |es| - 1);
  }

  lemma {:induction false} LastToldIsCurrent(parse: Parser, seed: AssistantMessage, es: seq<WireEvent>, s: State,
                                             told: seq<StreamEvent>)
    requires AllAccepted(parse, seed, es) && s == After(parse, seed, es) && told == AnnouncedAll(parse, seed, es)
    ensures s.partial == LastTold(told, seed)
  {
    if es != [] {
      var init, e := es[..|es| - 1], es[|es| - 1];
      var before, toldBefore := After(parse, seed, init), AnnouncedAll(parse, seed, init);
      AcceptedLast(parse, seed, es);
      LastToldIsCurrent(parse, seed, init, before, toldBefore);
      ToldCarries(parse, before, e);
      LastToldNext(toldBefore, Announced(s, e), seed);
    }
  }

  lemma BlockSays(parse: Parser, opening: WireEvent, since: seq<WireEvent>, i: nat)
    requires Starts(opening)
    ensures match BlockOf(parse, opening, since, i)
            case TextBlock(t) => t.text == Said(since, i)
            case ThinkingBlock(t, _, _) => t == Said(since, i)
            case CallBlock(_) => true
  {
  }

  lemma TextIsSaid(parse: Parser, s: State, es: seq<WireEvent>, i: nat)
    requires SlotTold(parse, s, es, i)
    ensures i < |s.partial.content| && !s.partial.content[i].CallBlock? ==>
              TextAt(s.partial, i) == Said(Since(es, i), i)
  {
    if Opening(es, i).Some? {
      BlockSays(parse, Opening(es, i).value, Since(es, i), i);
    }
  }

  /** Main result, for any accepted events: the event announced last carries the message as it is, and
      the announced deltas of a text or thinking slot since it was last announced to open add up to
      what the slot holds. */
  lemma ListenersCanFollow(parse: Parser, seed: AssistantMessage, es: seq<WireEvent>, i: nat)
    requires seed.content == [] && AllAccepted(parse, seed, es)
    ensures var a, told := After(parse, seed, es).partial, AnnouncedAll(parse, seed, es);
            && a == (if told == [] then seed else Carried(told[|told| - 1]))
            && (i < |a.content| && !a.content[i].CallBlock? ==> AddedUp(told, i) == TextAt(a, i))
  {
    var s := After(parse, seed, es);
    LastToldIsCurrent(parse, seed, es, s, AnnouncedAll(parse, seed, es));
    DeltasAddUp(parse, seed, es, i);
    HistoryIsTold(parse, seed, es);
    TextIsSaid(parse, s, es, i);
  }
}
