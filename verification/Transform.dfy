/** The whole transform: a conversation made replayable against another model. */
module Transform {
  import opened Types
  import opened Images
  import opened Orphans
  import opened Rewriting

  const MAX_ID_LENGTH := 64

  predicate AnthropicChar(c: char) {
    'a' <= c <= 'z' || 'A' <= c <= 'Z' || '0' <= c <= '9' || c == '_' || c == '-'
  }

  /** What the Anthropic API accepts as a tool-call id, but for the empty id. */
  predicate AnthropicId(id: string) {
    |id| <= MAX_ID_LENGTH && forall i :: 0 <= i < |id| ==> AnthropicChar(id[i])
  }

  /** Replaces every other character by an underscore and cuts the id off at 64 characters. */
  function NormalizeForAnthropic(id: string): (r: string)
    ensures AnthropicId(r)
    ensures |r| == if |id| <= MAX_ID_LENGTH then |id| else MAX_ID_LENGTH
    ensures forall i :: 0 <= i < |r| ==> if AnthropicChar(id[i]) then r[i] == id[i] else r[i] == '_'
    ensures r == id <==> AnthropicId(id)
  {
    var normalized := seq(|id|, i requires 0 <= i < |id| => if AnthropicChar(id[i]) then id[i] else '_');
    if |normalized| > MAX_ID_LENGTH then normalized[..MAX_ID_LENGTH] else normalized
  }

  const ANTHROPIC: Option<Normalizer> := Some((id: string, m: Model, a: AssistantMessage) => NormalizeForAnthropic(id))

  lemma AnthropicIsStable(model: Model)
    ensures Stable(ANTHROPIC, model) && IdOnly(ANTHROPIC, model)
    ensures Stable(None, model) && IdOnly(None, model)
  {
    forall id: string ensures NormalizeForAnthropic(NormalizeForAnthropic(id)) == NormalizeForAnthropic(id) {
      assert AnthropicId(NormalizeForAnthropic(id));
    }
  }

  function Transformed(ms: seq<Message>, model: Model, norm: Option<Normalizer>): seq<Message> {
    Flush(Rewrite(Downgrade(ms, model), model, norm))
  }

  /** The pipeline, stage by stage; the eager-input stage changes nothing. */
  method TransformMessages(ms: seq<Message>, model: Model, norm: Option<Normalizer>) returns (out: seq<Message>)
    ensures out == Transformed(ms, model, norm)
  {
    var staged := DowngradeMessages(ms, model);
    staged := TransformAssistantContent(staged, model, norm);
    out := FlushOrphansAndSkipErrored(staged);
  }

  // ----- Fixed messages -----

  /** What the first four stages leave alone. */
  predicate Fixed(m: Message, model: Model, norm: Option<Normalizer>) {
    Downgraded(m, model) && Settled(m, model, norm)
  }

  ghost predicate AllFixed(ms: seq<Message>, model: Model, norm: Option<Normalizer>) {
    forall i :: 0 <= i < |ms| ==> Fixed(ms[i], model, norm)
  }

  lemma FixedStagesExactly(ms: seq<Message>, model: Model, norm: Option<Normalizer>)
    requires AllFixed(ms, model, norm)
    ensures Downgrade(ms, model) == ms && Rewrite(ms, model, norm) == ms
  {
    forall i | 0 <= i < |ms| ensures Downgraded(ms[i], model) && Settled(ms[i], model, norm) {
      assert Fixed(ms[i], model, norm);
    }
    DowngradeFixes(ms, model);
    RewriteFixesExactly(ms, model, norm);
  }

  /** One pass of the first four stages leaves only fixed messages. */
  lemma StagesFix(ms: seq<Message>, model: Model, norm: Option<Normalizer>)
    requires Stable(norm, model)
    ensures AllFixed(Rewrite(Downgrade(ms, model), model, norm), model, norm)
  {
    var staged := Downgrade(ms, model);
    RewriteSettles(staged, model, norm);
    forall i | 0 <= i < |ms| ensures Fixed(Rewrite(staged, model, norm)[i], model, norm) {
      DowngradedExactly(ms[i], model);
      RewriteAt(staged, i, model, norm);
    }
  }

  lemma MissingIsFixed(pending: seq<ToolCall>, answered: set<string>, model: Model, norm: Option<Normalizer>)
    ensures AllFixed(Missing(pending, answered), model, norm)
  {
    MissingAre(pending, answered);
    var ms := Missing(pending, answered);
    forall i | 0 <= i < |ms| ensures Fixed(ms[i], model, norm) {
      assert ms[i] in ms;
      var c :| c in pending && c.id !in answered && ms[i] == Synthetic(c);
    }
  }

  lemma {:induction false} RepairedIsFixed(ms: seq<Message>, model: Model, norm: Option<Normalizer>)
    requires AllFixed(ms, model, norm)
    ensures AllFixed(Repaired(ms), model, norm)
  {
    if ms != [] {
      var n := |ms| - 1;
      RepairedIsFixed(ms[..n], model, norm);
      MissingIsFixed(Pending(ms[..n]), AnsweredIds(ms[..n]), model, norm);
      var before, adds := Repaired(ms[..n]), Adds(ms[..n], ms[n]);
      assert AllFixed(adds, model, norm);
      assert forall i :: 0 <= i < |before + adds| ==>
        (before + adds)[i] == if i < |before| then before[i] else adds[i - |before|];
    }
  }

  lemma FlushIsFixed(ms: seq<Message>, model: Model, norm: Option<Normalizer>)
    requires AllFixed(ms, model, norm)
    ensures AllFixed(Flush(ms), model, norm)
  {
    RepairedIsFixed(ms, model, norm);
    MissingIsFixed(Pending(ms), AnsweredIds(ms), model, norm);
  }

  /** Main result: the pipeline is idempotent on every transcript. */
  lemma TransformIdempotent(ms: seq<Message>, model: Model, norm: Option<Normalizer>)
    requires Stable(norm, model)
    ensures Transformed(Transformed(ms, model, norm), model, norm) == Transformed(ms, model, norm)
  {
    var out := Transformed(ms, model, norm);
    StagesFix(ms, model, norm);
    FlushIsFixed(Rewrite(Downgrade(ms, model), model, norm), model, norm);
    FixedStagesExactly(out, model, norm);
    FlushIdempotent(Rewrite(Downgrade(ms, model), model, norm));
  }

  /** In particular without a normalizer and with the Anthropic one. */
  lemma TransformIdempotentInPractice(ms: seq<Message>, model: Model)
    ensures Transformed(Transformed(ms, model, None), model, None) == Transformed(ms, model, None)
    ensures Transformed(Transformed(ms, model, ANTHROPIC), model, ANTHROPIC) == Transformed(ms, model, ANTHROPIC)
  {
    AnthropicIsStable(model);
    TransformIdempotent(ms, model, None);
    TransformIdempotent(ms, model, ANTHROPIC);
  }

  /** The transcripts the pipeline leaves alone, for any normalizer whatever. */
  lemma TransformFixesExactly(ms: seq<Message>, model: Model, norm: Option<Normalizer>)
    requires AllFixed(ms, model, norm)
    ensures Transformed(ms, model, norm) == ms <==> NoFailed(ms) && AllAnswered(ms)
  {
    FixedStagesExactly(ms, model, norm);
    FlushFixesExactly(ms);
  }

  /** Whatever the input, the output has no message that ended in an error or was aborted, and every
      call in it has a result before the next user or assistant message. */
  lemma TransformRepairs(ms: seq<Message>, model: Model, norm: Option<Normalizer>)
    ensures NoFailed(Transformed(ms, model, norm)) && AllAnswered(Transformed(ms, model, norm))
    ensures var out := Transformed(ms, model, norm);
            && (forall i :: 0 <= i < |out| && out[i].Assistant? ==>
                  out[i].assistant.stopReason != Error && out[i].assistant.stopReason != Aborted)
            && (forall i, c :: 0 <= i < |out| && out[i].Assistant? && c in out[i].assistant.Calls() ==>
                  AnsweredIn(out, i, c.id))
  {
    FlushIsAnswered(Rewrite(Downgrade(ms, model), model, norm));
    var out := Transformed(ms, model, norm);
    forall i | 0 <= i < |out| && out[i].Assistant?
      ensures out[i].assistant.stopReason != Error && out[i].assistant.stopReason != Aborted
    {
      assert !FailedMessage(out[i]);
    }
  }

  // ----- What only the model that made it gets back -----

  lemma {:induction false} RepairedFrom(ms: seq<Message>, m: Message)
    requires m in Repaired(ms)
    ensures m in ms || m.Result?
  {
    if ms != [] {
      var n := |ms| - 1;
      if m in Repaired(ms[..n]) {
        RepairedFrom(ms[..n], m);
      } else {
        MissingAre(Pending(ms[..n]), AnsweredIds(ms[..n]));
      }
    }
  }

  lemma FlushedFrom(ms: seq<Message>, m: Message)
    requires m in Flush(ms)
    ensures m in ms || m.Result?
  {
    if m in Repaired(ms) {
      RepairedFrom(ms, m);
    } else {
      MissingAre(Pending(ms), AnsweredIds(ms));
    }
  }

  /** Main result: no thinking and no signature reaches a target that differs from the model that made
      it in provider, API or model id. */
  lemma NothingPrivateLeaks(ms: seq<Message>, model: Model, norm: Option<Normalizer>, m: Message, b: AssistantBlock)
    requires m in Transformed(ms, model, norm) && m.Assistant? && b in m.assistant.content
    requires Private(b) || b.ThinkingBlock?
    ensures m.assistant.provider == model.provider && m.assistant.api == model.api && m.assistant.model == model.id
  {
    var staged := Downgrade(ms, model);
    FlushedFrom(Rewrite(staged, model, norm), m);
    var i :| 0 <= i < |staged| && Rewrite(staged, model, norm)[i] == m;
    RewriteAt(staged, i, model, norm);
    var a := staged[i].assistant;
    if !(a.provider == model.provider && a.api == model.api && a.model == model.id) {
      PlainForOthers(a.content, a, model, norm, b);
    }
  }

  // ----- Fully answered transcripts -----

  predicate Makes(m: Message, id: string) {
    m.Assistant? && exists c :: c in m.assistant.Calls() && c.id == id
  }

  /** No id is used both by the target model itself and by another model. */
  ghost predicate Unshared(ms: seq<Message>, model: Model) {
    forall i, k, id :: 0 <= i < |ms| && 0 <= k < |ms| && Makes(ms[i], id) && Makes(ms[k], id) ==>
      SameModel(ms[i].assistant, model) == SameModel(ms[k].assistant, model)
  }

  lemma UnsharedDoesNotClash(ms: seq<Message>, model: Model, norm: Option<Normalizer>)
    requires Unshared(ms, model)
    ensures NoClashes(ms, model, norm)
  {
    forall i, c | 0 <= i < |ms| && ms[i].Assistant? && !ms[i].assistant.Failed() && c in ms[i].assistant.Calls()
      ensures !Clashes(ms, i, c.id, model, norm)
    {
      assert Makes(ms[i], c.id);
      forall k | 0 <= k < i && ms[k].Assistant? && RenamedIn(ms[k].assistant, c.id, model, norm)
        ensures !SameModel(ms[i].assistant, model)
      {
        assert Makes(ms[k], c.id);
      }
    }
  }

  predicate SameCalls(a: AssistantMessage, b: AssistantMessage, model: Model) {
    a.Calls() == b.Calls() && a.Failed() == b.Failed() && SameModel(a, model) == SameModel(b, model)
  }

  lemma DowngradeKeepsCalls(ms: seq<Message>, model: Model)
    ensures var out := Downgrade(ms, model);
            forall i :: 0 <= i < |ms| ==>
              && (out[i].Assistant? <==> ms[i].Assistant?) && (out[i].Result? <==> ms[i].Result?)
              && (ms[i].Result? ==> out[i].result.callId == ms[i].result.callId)
              && (ms[i].Assistant? ==> SameCalls(ms[i].assistant, out[i].assistant, model))
  {
  }

  lemma DowngradeKeepsAnswers(ms: seq<Message>, model: Model)
    requires AllAnswered(ms)
    ensures AllAnswered(Downgrade(ms, model))
  {
    var out := Downgrade(ms, model);
    DowngradeKeepsCalls(ms, model);
    forall i, c | 0 <= i < |out| && out[i].Assistant? && !out[i].assistant.Failed() && c in out[i].assistant.Calls()
      ensures AnsweredIn(out, i, c.id)
    {
      var j :| AnsweredBy(ms, i, j, c.id);
      assert AnsweredBy(out, i, j, c.id);
    }
  }

  /** Main result: a fully answered transcript is only downgraded and rewritten, message by message;
      no result is made up for it. */
  lemma AnsweredIsOnlyRewritten(ms: seq<Message>, model: Model, norm: Option<Normalizer>)
    requires IdOnly(norm, model) && Stable(norm, model)
    requires AllAnswered(ms) && Unshared(ms, model)
    ensures Transformed(ms, model, norm) == Kept(Rewrite(Downgrade(ms, model), model, norm))
  {
    DowngradeKeepsCalls(ms, model);
    DowngradeKeepsAnswers(ms, model);
    UnsharedDoesNotClash(Downgrade(ms, model), model, norm);
    NothingOrphanedExactly(Downgrade(ms, model), model, norm);
  }

  // ----- An id that clashes -----

  /** A message with one call of tool "t". */
  function Calling(id: string, provider: string, model: Model): AssistantMessage {
    AssistantMessage([CallBlock(ToolCall(id, "t", EMPTY_OBJECT, None))], model.api, provider, model.id, 0, ToolUse,
                     None, None, None)
  }

  function Answering(id: string): Message {
    Result(ToolResultMessage(id, "t", [], None, false))
  }

  /** Another provider's message and one of the target model call a tool under the same id, and
      both calls are answered. */
  function SharedId(id: string, model: Model): seq<Message> {
    [ Assistant(Calling(id, model.provider + "'", model)), Answering(id),
      Assistant(Calling(id, model.provider, model)), Answering(id) ]
  }

  lemma CallOfCalling(id: string, provider: string, model: Model)
    ensures Calling(id, provider, model).Calls() == [ToolCall(id, "t", EMPTY_OBJECT, None)]
  {
    OneBlock(CallBlock(ToolCall(id, "t", EMPTY_OBJECT, None)));
  }

  lemma SharedIdIsAnswered(id: string, model: Model)
    ensures AllAnswered(SharedId(id, model)) && AnsweredIn(SharedId(id, model), 2, id)
  {
    var ms := SharedId(id, model);
    CallOfCalling(id, model.provider + "'", model);
    CallOfCalling(id, model.provider, model);
    assert AnsweredBy(ms, 0, 1, id) && AnsweredBy(ms, 2, 3, id);
    forall i, c | 0 <= i < |ms| && ms[i].Assistant? && !ms[i].assistant.Failed() && c in ms[i].assistant.Calls()
      ensures AnsweredIn(ms, i, c.id)
    {
      assert (i == 0 || i == 2) && c.id == id;
    }
  }

  /** The target model's own call then loses its result exactly if the normalizer changes the id, as
      it does "a.b": the two ids part, and a made-up error result takes the place of the real one. */
  lemma SharedIdClashesExactly(id: string, model: Model)
    ensures var ms := SharedId(id, model);
            && (Clashes(ms, 2, id, model, ANTHROPIC) <==> !AnthropicId(id))
            && (AnsweredIn(Rewrite(ms, model, ANTHROPIC), 2, id) <==> AnthropicId(id))
            && (Flush(Rewrite(ms, model, ANTHROPIC)) == Kept(Rewrite(ms, model, ANTHROPIC)) <==> AnthropicId(id))
    ensures !AnthropicId("a.b")
  {
    var ms, c := SharedId(id, model), ToolCall(id, "t", EMPTY_OBJECT, None);
    CallOfCalling(id, model.provider + "'", model);
    CallOfCalling(id, model.provider, model);
    assert RenamedIn(ms[0].assistant, id, model, ANTHROPIC) <==> !AnthropicId(id) by {
      assert c in ms[0].assistant.Calls();
    }
    assert RenamedBefore(ms, 2, id, model, ANTHROPIC) <==> !AnthropicId(id);
    AnthropicIsStable(model);
    SharedIdIsAnswered(id, model);
    PairingKeptExactly(ms, 2, c, model, ANTHROPIC);
    assert NoClashes(ms, model, ANTHROPIC) <==> AnthropicId(id);
    NothingOrphanedExactly(ms, model, ANTHROPIC);
    assert "a.b"[1] == '.';
  }
}
