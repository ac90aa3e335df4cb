/** Stage 4 of the transform: assistant content for another model, with tool-call ids renamed
    and the results of renamed calls renamed alike. */
module Rewriting {
  import opened Types
  import opened Orphans

  /** Gives an id acceptable to the target; told which message the call is in. */
  type Normalizer = (string, Model, AssistantMessage) -> string

  /** Unicode white space. */
  predicate Whitespace(c: char) {
    || '\t' <= c <= '\r' || c == ' ' || c == '\U{85}' || c == '\U{A0}' || c == '\U{1680}' ||
       '\U{2000}' <= c <= '\U{200A}'
    || c == '\U{2028}' || c == '\U{2029}' || c == '\U{202F}' || c == '\U{205F}' || c == '\U{3000}'
  }

  predicate Blank(s: string) {
    forall i :: 0 <= i < |s| ==> Whitespace(s[i])
  }

  predicate SameModel(a: AssistantMessage, model: Model) {
    a.provider == model.provider && a.api == model.api && a.model == model.id
  }

  function IdFor(id: string, a: AssistantMessage, model: Model, norm: Option<Normalizer>): string {
    if SameModel(a, model) || norm.None? then id else norm.value(id, model, a)
  }

  function RewriteCall(c: ToolCall, a: AssistantMessage, model: Model, norm: Option<Normalizer>): ToolCall {
    if SameModel(a, model) then c else ToolCall(IdFor(c.id, a, model, norm), c.name, c.arguments, None)
  }

  /** What becomes of one block of message `a`: at most one block. */
  function RewriteBlock(b: AssistantBlock, a: AssistantMessage, model: Model,
                        norm: Option<Normalizer>): seq<AssistantBlock>
  {
    var same := SameModel(a, model);
    match b
    case ThinkingBlock(thinking, signature, redacted) =>
      if redacted == Some(true) then (if same then [b] else [])
      else if same && signature.Some? then [b]
      else if Blank(thinking) then []
      else if same then [b]
      else [TextBlock(TextContent(thinking, None))]
    case TextBlock(t) => if same then [b] else [TextBlock(TextContent(t.text, None))]
    case CallBlock(c) => [CallBlock(RewriteCall(c, a, model, norm))]
  }

  function RewriteContent(bs: seq<AssistantBlock>, a: AssistantMessage, model: Model,
                          norm: Option<Normalizer>): seq<AssistantBlock>
  {
    if bs == [] then [] else RewriteContent(bs[..|bs| - 1], a, model, norm) + RewriteBlock(bs[|bs| - 1], a, model, norm)
  }

  function Rename(renames: map<string, string>, b: AssistantBlock, a: AssistantMessage, model: Model,
                  norm: Option<Normalizer>)
    : map<string, string>
  {
    if b.CallBlock? && IdFor(b.call.id, a, model, norm) != b.call.id
    then renames[b.call.id := IdFor(b.call.id, a, model, norm)] else renames
  }

  function RenameAll(renames: map<string, string>, bs: seq<AssistantBlock>, a: AssistantMessage, model: Model,
                     norm: Option<Normalizer>)
    : map<string, string>
  {
    if bs == [] then renames
    else Rename(RenameAll(renames, bs[..|bs| - 1], a, model, norm), bs[|bs| - 1], a, model, norm)
  }

  /** The ids renamed so far. */
  function Renames(ms: seq<Message>, model: Model, norm: Option<Normalizer>): map<string, string> {
    if ms == [] then map[]
    else
      var before, m := Renames(ms[..|ms| - 1], model, norm), ms[|ms| - 1];
      if m.Assistant? then RenameAll(before, m.assistant.content, m.assistant, model, norm) else before
  }

  function Lookup(renames: map<string, string>, id: string): string {
    if id in renames then renames[id] else id
  }

  function WithContent(a: AssistantMessage, content: seq<AssistantBlock>): AssistantMessage {
    a.(content := content)
  }

  function RewriteMessage(m: Message, renames: map<string, string>, model: Model, norm: Option<Normalizer>): Message {
    match m
    case User(_) => m
    case Result(r) => Result(r.(callId := Lookup(renames, r.callId)))
    case Assistant(a) => Assistant(WithContent(a, RewriteContent(a.content, a, model, norm)))
  }

  function Rewrite(ms: seq<Message>, model: Model, norm: Option<Normalizer>): (out: seq<Message>)
    ensures |out| == |ms|
  {
    if ms == [] then []
    else
      var init := ms[..|ms| - 1];
      Rewrite(init, model, norm) + [RewriteMessage(ms[|ms| - 1], Renames(init, model, norm), model, norm)]
  }

  // ----- The loops -----

  /** One block of message `a`. */
  method RewriteOne(b: AssistantBlock, a: AssistantMessage, model: Model, norm: Option<Normalizer>,
                    renames: map<string, string>)
    returns (out: seq<AssistantBlock>, renames': map<string, string>)
    ensures out == RewriteBlock(b, a, model, norm) && renames' == Rename(renames, b, a, model, norm)
  {
    renames' := renames;
    var same := SameModel(a, model);
    match b {
      case ThinkingBlock(thinking, signature, redacted) =>
        if redacted == Some(true) {
          out := if same then [b] else [];
        } else if same && signature.Some? {
          out := [b];
        } else if Blank(thinking) {
          out := [];
        } else {
          out := if same then [b] else [TextBlock(TextContent(thinking, None))];
        }
      case TextBlock(t) => out := if same then [b] else [TextBlock(TextContent(t.text, None))];
      case CallBlock(c) =>
        var call := if same then c else ToolCall(c.id, c.name, c.arguments, None);
        if !same && norm.Some? {
          var normalized := norm.value(c.id, model, a);
          if normalized != c.id {
            renames' := renames'[c.id := normalized];
            call := ToolCall(normalized, c.name, c.arguments, None);
          }
        }
        out := [CallBlock(call)];
    }
  }

  /** Rewrites the blocks of one message, recording renamed ids as it goes. */
  method RewriteAssistant(a: AssistantMessage, model: Model, norm: Option<Normalizer>, renames: map<string, string>)
    returns (content: seq<AssistantBlock>, renames': map<string, string>)
    ensures content == RewriteContent(a.content, a, model, norm)
    ensures renames' == RenameAll(renames, a.content, a, model, norm)
  {
    content, renames' := [], renames;
    for i := 0 to |a.content|
      invariant content == RewriteContent(a.content[..i], a, model, norm)
      invariant renames' == RenameAll(renames, a.content[..i], a, model, norm)
    {
      TakeNext(a.content, i);
      var out;
      out, renames' := RewriteOne(a.content[i], a, model, norm, renames');
      content := content + out;
    }
    TakeAll(a.content);
  }

  method TransformAssistantContent(ms: seq<Message>, model: Model, norm: Option<Normalizer>) returns (out: seq<Message>)
    ensures out == Rewrite(ms, model, norm)
  {
    out := [];
    var renames: map<string, string> := map[];
    for i := 0 to |ms|
      invariant out == Rewrite(ms[..i], model, norm) && renames == Renames(ms[..i], model, norm)
    {
      assert ms[..i + 1][..i] == ms[..i];
      match ms[i] {
        case User(_) => out := out + [ms[i]];
        case Result(r) =>
          out := out + [Result(r.(callId := if r.callId in renames then renames[r.callId] else r.callId))];
        case Assistant(a) =>
          var content;
          content, renames := RewriteAssistant(a, model, norm, renames);
          out := out + [Assistant(WithContent(a, content))];
      }
    }
    assert ms[..|ms|] == ms;
  }

  // ----- Meaning -----

  /** What a block says to a reader: its text, or its thinking unless blank or redacted. */
  function Says(b: AssistantBlock): seq<string> {
    match b
    case TextBlock(t) => [t.text]
    case ThinkingBlock(t, _, redacted) => if redacted == Some(true) || Blank(t) then [] else [t]
    case CallBlock(_) => []
  }

  function SaysAll(bs: seq<AssistantBlock>): seq<string> {
    if bs == [] then [] else SaysAll(bs[..|bs| - 1]) + Says(bs[|bs| - 1])
  }

  function RewriteCalls(cs: seq<ToolCall>, a: AssistantMessage, model: Model,
                        norm: Option<Normalizer>): (r: seq<ToolCall>)
    ensures |r| == |cs|
    ensures forall i :: 0 <= i < |cs| ==> r[i] == RewriteCall(cs[i], a, model, norm)
  {
    seq(|cs|, i requires 0 <= i < |cs| => RewriteCall(cs[i], a, model, norm))
  }

  lemma SaysSnoc(bs: seq<AssistantBlock>, b: AssistantBlock)
    ensures SaysAll(bs + [b]) == SaysAll(bs) + Says(b)
  {
    assert (bs + [b])[..|bs|] == bs;
  }

  lemma {:induction false} CallsSnoc(bs: seq<AssistantBlock>, b: AssistantBlock)
    ensures CallsOf(bs + [b]) == CallsOf(bs) + (if b.CallBlock? then [b.call] else [])
  {
    if bs == [] {
      assert [] + [b] == [b];
    } else {
      assert (bs + [b])[1..] == bs[1..] + [b];
      CallsSnoc(bs[1..], b);
    }
  }

  lemma ContentSnoc(bs: seq<AssistantBlock>, rest: seq<AssistantBlock>)
    requires |rest| <= 1
    ensures SaysAll(bs + rest) == SaysAll(bs) + SaysAll(rest)
    ensures CallsOf(bs + rest) == CallsOf(bs) + CallsOf(rest)
  {
    if rest == [] {
      assert bs + rest == bs;
    } else {
      var b := rest[0];
      assert rest == [b];
      OneBlock(b);
      SaysSnoc(bs, b);
      CallsSnoc(bs, b);
    }
  }

  lemma OneBlock(b: AssistantBlock)
    ensures SaysAll([b]) == Says(b)
    ensures CallsOf([b]) == if b.CallBlock? then [b.call] else []
  {
    SaysSnoc([], b);
    CallsSnoc([], b);
    assert [] + [b] == [b];
  }

  lemma RewriteCallsSnoc(cs: seq<ToolCall>, rest: seq<ToolCall>, a: AssistantMessage, model: Model,
                         norm: Option<Normalizer>)
    ensures RewriteCalls(cs + rest, a, model, norm) ==
            RewriteCalls(cs, a, model, norm) + RewriteCalls(rest, a, model, norm)
  {
  }

  lemma BlockKeepsMeaning(b: AssistantBlock, a: AssistantMessage, model: Model, norm: Option<Normalizer>)
    ensures var rest := RewriteBlock(b, a, model, norm);
            || (rest == [] && Says(b) == [] && !b.CallBlock?)
            || (|rest| == 1 && Says(rest[0]) == Says(b) && (rest[0].CallBlock? <==> b.CallBlock?) &&
                (b.CallBlock? ==> rest[0].call == RewriteCall(b.call, a, model, norm)))
  {
  }

  lemma OneKeepsMeaning(b: AssistantBlock, a: AssistantMessage, model: Model, norm: Option<Normalizer>)
    ensures |RewriteBlock(b, a, model, norm)| <= 1
    ensures SaysAll(RewriteBlock(b, a, model, norm)) == SaysAll([b])
    ensures CallsOf(RewriteBlock(b, a, model, norm)) == RewriteCalls(CallsOf([b]), a, model, norm)
  {
    BlockKeepsMeaning(b, a, model, norm);
    OneBlock(b);
    var rest := RewriteBlock(b, a, model, norm);
    if rest != [] {
      assert rest == [rest[0]];
      OneBlock(rest[0]);
    }
  }

  /** Main result: the reader loses no text, in order, and the same tools are called with the same
      arguments in the same order. */
  lemma {:induction false} RewriteKeepsMeaning(bs: seq<AssistantBlock>, a: AssistantMessage, model: Model,
                                               norm: Option<Normalizer>)
    ensures SaysAll(RewriteContent(bs, a, model, norm)) == SaysAll(bs)
    ensures CallsOf(RewriteContent(bs, a, model, norm)) == RewriteCalls(CallsOf(bs), a, model, norm)
  {
    if bs != [] {
      var init, b := bs[..|bs| - 1], bs[|bs| - 1];
      RewriteKeepsMeaning(init, a, model, norm);
      OneKeepsMeaning(b, a, model, norm);
      ContentSnoc(RewriteContent(init, a, model, norm), RewriteBlock(b, a, model, norm));
      assert bs == init + [b];
      ContentSnoc(init, [b]);
      RewriteCallsSnoc(CallsOf(init), CallsOf([b]), a, model, norm);
    }
  }

  // ----- Messages that stay as they are -----

  predicate SettledBlock(b: AssistantBlock, a: AssistantMessage, model: Model, norm: Option<Normalizer>) {
    if SameModel(a, model) then
      b.ThinkingBlock? && b.redacted != Some(true) && b.signature.None? ==> !Blank(b.thinking)
    else
      match b
      case TextBlock(t) => t.signature.None?
      case ThinkingBlock(_, _, _) => false
      case CallBlock(c) => c.thoughtSignature.None? && IdFor(c.id, a, model, norm) == c.id
  }

  predicate Settled(m: Message, model: Model, norm: Option<Normalizer>) {
    m.Assistant? ==>
      forall i :: 0 <= i < |m.assistant.content| ==> SettledBlock(m.assistant.content[i], m.assistant, model, norm)
  }

  lemma BlockSettles(b: AssistantBlock, a: AssistantMessage, model: Model, norm: Option<Normalizer>)
    ensures RewriteBlock(b, a, model, norm) == [b] <==> SettledBlock(b, a, model, norm)
    ensures SettledBlock(b, a, model, norm) ==> forall renames :: Rename(renames, b, a, model, norm) == renames
    ensures |RewriteBlock(b, a, model, norm)| <= 1
  {
  }

  lemma AppendSame<T>(a: seq<T>, b: seq<T>, x: seq<T>, y: T)
    requires |a| <= |x| && |b| <= 1
    ensures a + b == x + [y] <==> a == x && b == [y]
  {
    if a + b == x + [y] {
      assert a == (a + b)[..|x|] && b == (a + b)[|x|..];
    }
  }

  ghost predicate AllSettled(bs: seq<AssistantBlock>, a: AssistantMessage, model: Model, norm: Option<Normalizer>) {
    forall i :: 0 <= i < |bs| ==> SettledBlock(bs[i], a, model, norm)
  }

  lemma {:induction false} ContentSettles(bs: seq<AssistantBlock>, a: AssistantMessage, model: Model,
                                          norm: Option<Normalizer>)
    ensures |RewriteContent(bs, a, model, norm)| <= |bs|
    ensures RewriteContent(bs, a, model, norm) == bs <==> AllSettled(bs, a, model, norm)
    ensures AllSettled(bs, a, model, norm) ==> forall renames :: RenameAll(renames, bs, a, model, norm) == renames
  {
    if bs != [] {
      var n := |bs| - 1;
      ContentSettles(bs[..n], a, model, norm);
      BlockSettles(bs[n], a, model, norm);
      AppendSame(RewriteContent(bs[..n], a, model, norm), RewriteBlock(bs[n], a, model, norm), bs[..n], bs[n]);
      assert bs == bs[..n] + [bs[n]];
      assert AllSettled(bs, a, model, norm) <==>
        AllSettled(bs[..n], a, model, norm) && SettledBlock(bs[n], a, model, norm);
    }
  }

  lemma MessageSettles(m: Message, model: Model, norm: Option<Normalizer>)
    ensures RewriteMessage(m, map[], model, norm) == m <==> Settled(m, model, norm)
    ensures Settled(m, model, norm) && m.Assistant? ==>
              RenameAll(map[], m.assistant.content, m.assistant, model, norm) == map[]
  {
    if m.Assistant? {
      var a := m.assistant;
      ContentSettles(a.content, a, model, norm);
      assert Settled(m, model, norm) <==> AllSettled(a.content, a, model, norm);
      assert WithContent(a, RewriteContent(a.content, a, model, norm)) == a <==>
        RewriteContent(a.content, a, model, norm) == a.content;
    }
  }

  /** The transcripts that stage 4 leaves alone, exactly; on those it renames nothing. */
  lemma {:induction false} RewriteFixesExactly(ms: seq<Message>, model: Model, norm: Option<Normalizer>)
    ensures Rewrite(ms, model, norm) == ms <==> forall i :: 0 <= i < |ms| ==> Settled(ms[i], model, norm)
    ensures Rewrite(ms, model, norm) == ms ==> Renames(ms, model, norm) == map[]
  {
    if ms != [] {
      var n := |ms| - 1;
      RewriteFixesExactly(ms[..n], model, norm);
      MessageSettles(ms[n], model, norm);
      AppendSame(Rewrite(ms[..n], model, norm), [RewriteMessage(ms[n], Renames(ms[..n], model, norm), model, norm)],
                 ms[..n], ms[n]);
      assert ms == ms[..n] + [ms[n]];
      assert (forall i :: 0 <= i < |ms| ==> Settled(ms[i], model, norm)) <==>
             (forall i :: 0 <= i < n ==> Settled(ms[..n][i], model, norm)) && Settled(ms[n], model, norm);
    }
  }

  /** An id that was normalized, for whatever message, stays as it is. */
  ghost predicate Stable(norm: Option<Normalizer>, model: Model) {
    norm.Some? ==> forall id, a, b :: norm.value(norm.value(id, model, a), model, b) == norm.value(id, model, a)
  }

  lemma {:induction false} RewrittenSettles(bs: seq<AssistantBlock>, a: AssistantMessage, b: AssistantMessage,
                                            model: Model, norm: Option<Normalizer>)
    requires Stable(norm, model)
    requires SameModel(a, model) == SameModel(b, model)
    ensures forall i :: 0 <= i < |RewriteContent(bs, a, model, norm)| ==>
              SettledBlock(RewriteContent(bs, a, model, norm)[i], b, model, norm)
  {
    if bs != [] {
      RewrittenSettles(bs[..|bs| - 1], a, b, model, norm);
    }
  }

  lemma {:induction false} RewriteSettles(ms: seq<Message>, model: Model, norm: Option<Normalizer>)
    requires Stable(norm, model)
    ensures forall i :: 0 <= i < |ms| ==> Settled(Rewrite(ms, model, norm)[i], model, norm)
  {
    if ms != [] {
      var m := ms[|ms| - 1];
      RewriteSettles(ms[..|ms| - 1], model, norm);
      if m.Assistant? {
        var b := WithContent(m.assistant, RewriteContent(m.assistant.content, m.assistant, model, norm));
        RewrittenSettles(m.assistant.content, m.assistant, b, model, norm);
      }
    }
  }

  // ----- Renaming keeps calls and results together -----

  /** The normalizer looks only at the id. */
  ghost predicate IdOnly(norm: Option<Normalizer>, model: Model) {
    norm.Some? ==> forall id, a, b :: norm.value(id, model, a) == norm.value(id, model, b)
  }

  /** Message `a` renames `id`. */
  predicate RenamedIn(a: AssistantMessage, id: string, model: Model, norm: Option<Normalizer>) {
    IdFor(id, a, model, norm) != id && exists c :: c in a.Calls() && c.id == id
  }

  ghost predicate RenamedBefore(ms: seq<Message>, n: nat, id: string, model: Model, norm: Option<Normalizer>)
    requires n <= |ms|
  {
    exists k :: 0 <= k < n && ms[k].Assistant? && RenamedIn(ms[k].assistant, id, model, norm)
  }

  lemma {:induction false} RenameAllExactly(renames: map<string, string>, bs: seq<AssistantBlock>, a: AssistantMessage,
                                            model: Model, norm: Option<Normalizer>, id: string)
    ensures var after := RenameAll(renames, bs, a, model, norm);
            if IdFor(id, a, model, norm) != id && exists c :: c in CallsOf(bs) && c.id == id
            then id in after && after[id] == IdFor(id, a, model, norm)
            else (id in after <==> id in renames) && (id in renames ==> after[id] == renames[id])
  {
    if bs != [] {
      var init, b := bs[..|bs| - 1], bs[|bs| - 1];
      RenameAllExactly(renames, init, a, model, norm, id);
      assert bs == init + [b];
      CallsSnoc(init, b);
      if b.CallBlock? && b.call.id == id {
        assert b.call in CallsOf(bs);
      }
    }
  }

  /** With an id-only normalizer the ids renamed so far are those of earlier calls that it changes. */
  lemma {:induction false} RenamesExactly(ms: seq<Message>, model: Model, norm: Option<Normalizer>, id: string)
    requires IdOnly(norm, model)
    ensures id in Renames(ms, model, norm) <==> RenamedBefore(ms, |ms|, id, model, norm)
    ensures id in Renames(ms, model, norm) ==>
              norm.Some? && forall a :: Renames(ms, model, norm)[id] == norm.value(id, model, a)
  {
    if ms != [] {
      var n := |ms| - 1;
      var init, m := ms[..n], ms[n];
      RenamesExactly(init, model, norm, id);
      if m.Assistant? {
        RenameAllExactly(Renames(init, model, norm), m.assistant.content, m.assistant, model, norm, id);
      }
      if RenamedBefore(init, n, id, model, norm) {
        var k :| 0 <= k < n && init[k].Assistant? && RenamedIn(init[k].assistant, id, model, norm);
        assert ms[k].Assistant? && RenamedIn(ms[k].assistant, id, model, norm);
      }
      forall k | 0 <= k < n && ms[k].Assistant? && RenamedIn(ms[k].assistant, id, model, norm)
        ensures RenamedBefore(init, n, id, model, norm)
      {
        assert init[k] == ms[k];
      }
    }
  }

  lemma {:induction false} RewriteAt(ms: seq<Message>, i: nat, model: Model, norm: Option<Normalizer>)
    requires i < |ms|
    ensures Rewrite(ms, model, norm)[i] == RewriteMessage(ms[i], Renames(ms[..i], model, norm), model, norm)
  {
    var n := |ms| - 1;
    if i < n {
      RewriteAt(ms[..n], i, model, norm);
      assert ms[..n][..i] == ms[..i];
    }
  }

  /** Results rename nothing, so every result of a segment sees the same renames. */
  lemma {:induction false} SameRenames(ms: seq<Message>, i: nat, j: nat, model: Model, norm: Option<Normalizer>)
    requires i < j <= |ms|
    requires forall k :: i < k < j ==> ms[k].Result?
    ensures Renames(ms[..j], model, norm) == Renames(ms[..i + 1], model, norm)
    decreases j
  {
    if j > i + 1 {
      SameRenames(ms, i, j - 1, model, norm);
      assert ms[..j][..j - 1] == ms[..j - 1];
    }
  }

  /** Results from `i + 1` up to `j`, and the one at `j` is renamed to `target`. */
  ghost predicate AnsweredAs(ms: seq<Message>, i: nat, j: nat, renames: map<string, string>, target: string) {
    && i < j < |ms|
    && (forall k :: i < k <= j ==> ms[k].Result?)
    && Lookup(renames, ms[j].result.callId) == target
  }

  lemma AnswersOneAlike(ms: seq<Message>, i: nat, j: nat, target: string, model: Model, norm: Option<Normalizer>)
    requires i < j < |ms| && !ms[i].Result?
    ensures AnsweredBy(Rewrite(ms, model, norm), i, j, target) <==>
              AnsweredAs(ms, i, j, Renames(ms[..i + 1], model, norm), target)
  {
    var out := Rewrite(ms, model, norm);
    forall k | 0 <= k < |ms| ensures out[k].Result? <==> ms[k].Result? {
      RewriteAt(ms, k, model, norm);
    }
    if forall k :: i < k <= j ==> ms[k].Result? {
      RewriteAt(ms, j, model, norm);
      SameRenames(ms, i, j, model, norm);
    }
  }

  ghost predicate AnsweredOnceRenamed(ms: seq<Message>, i: nat, renames: map<string, string>, target: string) {
    exists j :: AnsweredAs(ms, i, j, renames, target)
  }

  /** Which results answer an id after the rewriting: those whose renamed id it is. */
  lemma AnswersAlike(ms: seq<Message>, i: nat, target: string, model: Model, norm: Option<Normalizer>)
    requires i < |ms| && !ms[i].Result?
    ensures AnsweredIn(Rewrite(ms, model, norm), i, target) <==>
              AnsweredOnceRenamed(ms, i, Renames(ms[..i + 1], model, norm), target)
  {
    var out, renames := Rewrite(ms, model, norm), Renames(ms[..i + 1], model, norm);
    if AnsweredIn(out, i, target) {
      var j: nat :| AnsweredBy(out, i, j, target);
      AnswersOneAlike(ms, i, j, target, model, norm);
    }
    if AnsweredOnceRenamed(ms, i, renames, target) {
      var j: nat :| AnsweredAs(ms, i, j, renames, target);
      AnswersOneAlike(ms, i, j, target, model, norm);
    }
  }

  /** The id of an answered call of a same-model message was renamed by an earlier message. */
  ghost predicate Clashes(ms: seq<Message>, i: nat, id: string, model: Model, norm: Option<Normalizer>)
    requires i < |ms| && ms[i].Assistant?
  {
    SameModel(ms[i].assistant, model) && RenamedBefore(ms, i, id, model, norm)
  }

  lemma RenamedNext(ms: seq<Message>, i: nat, id: string, model: Model, norm: Option<Normalizer>)
    requires IdOnly(norm, model)
    requires i < |ms| && ms[i].Assistant?
    ensures id in Renames(ms[..i + 1], model, norm) <==>
              RenamedBefore(ms, i, id, model, norm) || RenamedIn(ms[i].assistant, id, model, norm)
  {
    var upto := ms[..i + 1];
    RenamesExactly(upto, model, norm, id);
    if RenamedBefore(upto, i + 1, id, model, norm) {
      var k :| 0 <= k < i + 1 && upto[k].Assistant? && RenamedIn(upto[k].assistant, id, model, norm);
      assert ms[k] == upto[k];
    }
    if RenamedBefore(ms, i, id, model, norm) {
      var k :| 0 <= k < i && ms[k].Assistant? && RenamedIn(ms[k].assistant, id, model, norm);
      assert upto[k] == ms[k];
    }
    if RenamedIn(ms[i].assistant, id, model, norm) {
      assert upto[i] == ms[i];
    }
  }

  /** Renames are by the normalizer, so they take no id to one that is itself renamed. */
  lemma RenamedNotFixed(ms: seq<Message>, id: string, model: Model, norm: Option<Normalizer>)
    requires IdOnly(norm, model) && id in Renames(ms, model, norm)
    ensures norm.Some? && forall a ::
              norm.value(id, model, a) != id && Renames(ms, model, norm)[id] == norm.value(id, model, a)
  {
    RenamesExactly(ms, model, norm, id);
    var k :| 0 <= k < |ms| && ms[k].Assistant? && RenamedIn(ms[k].assistant, id, model, norm);
  }

  lemma ClashOrphans(ms: seq<Message>, i: nat, id: string, model: Model, norm: Option<Normalizer>)
    requires IdOnly(norm, model) && Stable(norm, model)
    requires i < |ms| && ms[i].Assistant? && id in Renames(ms[..i + 1], model, norm)
    ensures !AnsweredIn(Rewrite(ms, model, norm), i, id)
  {
    var a, renames := ms[i].assistant, Renames(ms[..i + 1], model, norm);
    AnswersAlike(ms, i, id, model, norm);
    RenamedNotFixed(ms[..i + 1], id, model, norm);
    forall j: nat | i < j < |ms| && ms[j].Result? ensures Lookup(renames, ms[j].result.callId) != id {
      var other := ms[j].result.callId;
      if other in renames {
        RenamedNotFixed(ms[..i + 1], other, model, norm);
        assert norm.value(norm.value(other, model, a), model, a) == norm.value(other, model, a);
      }
    }
  }

  lemma StaysAnswered(ms: seq<Message>, i: nat, id: string, target: string, model: Model, norm: Option<Normalizer>)
    requires i < |ms| && ms[i].Assistant? && AnsweredIn(ms, i, id)
    requires Lookup(Renames(ms[..i + 1], model, norm), id) == target
    ensures AnsweredIn(Rewrite(ms, model, norm), i, target)
  {
    AnswersAlike(ms, i, target, model, norm);
    var j: nat :| AnsweredBy(ms, i, j, id);
    assert AnsweredAs(ms, i, j, Renames(ms[..i + 1], model, norm), target);
  }

  /** Main result.  However the new ids collide, an answered call stays answered, unless it is a
      same-model call whose id an earlier message renamed: then, and only then, it is orphaned. */
  lemma PairingKeptExactly(ms: seq<Message>, i: nat, c: ToolCall, model: Model, norm: Option<Normalizer>)
    requires IdOnly(norm, model) && Stable(norm, model)
    requires i < |ms| && ms[i].Assistant? && c in ms[i].assistant.Calls() && AnsweredIn(ms, i, c.id)
    ensures AnsweredIn(Rewrite(ms, model, norm), i, RewriteCall(c, ms[i].assistant, model, norm).id) <==>
              !Clashes(ms, i, c.id, model, norm)
  {
    var a, renames := ms[i].assistant, Renames(ms[..i + 1], model, norm);
    RenamedNext(ms, i, c.id, model, norm);
    if Clashes(ms, i, c.id, model, norm) {
      ClashOrphans(ms, i, c.id, model, norm);
    } else {
      if c.id in renames {
        RenamedNotFixed(ms[..i + 1], c.id, model, norm);
      }
      StaysAnswered(ms, i, c.id, RewriteCall(c, a, model, norm).id, model, norm);
    }
  }

  /** Stages 4 and 5 add nothing to a fully answered transcript exactly when no id clashes. */
  ghost predicate NoClashes(ms: seq<Message>, model: Model, norm: Option<Normalizer>) {
    forall i, c :: 0 <= i < |ms| && ms[i].Assistant? && !ms[i].assistant.Failed() && c in ms[i].assistant.Calls() ==>
      !Clashes(ms, i, c.id, model, norm)
  }

  lemma RewrittenCalls(ms: seq<Message>, i: nat, model: Model, norm: Option<Normalizer>)
    requires i < |ms|
    ensures var out := Rewrite(ms, model, norm)[i];
            && (out.Assistant? <==> ms[i].Assistant?)
            && (ms[i].Assistant? ==>
                  && out.assistant.Failed() == ms[i].assistant.Failed()
                  && out.assistant.Calls() == RewriteCalls(ms[i].assistant.Calls(), ms[i].assistant, model, norm))
  {
    RewriteAt(ms, i, model, norm);
    if ms[i].Assistant? {
      RewriteKeepsMeaning(ms[i].assistant.content, ms[i].assistant, model, norm);
    }
  }

  lemma NothingOrphanedExactly(ms: seq<Message>, model: Model, norm: Option<Normalizer>)
    requires IdOnly(norm, model) && Stable(norm, model)
    requires AllAnswered(ms)
    ensures Flush(Rewrite(ms, model, norm)) == Kept(Rewrite(ms, model, norm)) <==> NoClashes(ms, model, norm)
  {
    var out := Rewrite(ms, model, norm);
    FlushKeepsExactly(out);
    if NoClashes(ms, model, norm) {
      forall i, d | 0 <= i < |out| && out[i].Assistant? && !out[i].assistant.Failed() && d in out[i].assistant.Calls()
        ensures AnsweredIn(out, i, d.id)
      {
        RewrittenCalls(ms, i, model, norm);
        var k :| 0 <= k < |out[i].assistant.Calls()| && out[i].assistant.Calls()[k] == d;
        var c := ms[i].assistant.Calls()[k];
        assert c in ms[i].assistant.Calls();
        PairingKeptExactly(ms, i, c, model, norm);
      }
    }
    if AllAnswered(out) {
      forall i, c | 0 <= i < |ms| && ms[i].Assistant? && !ms[i].assistant.Failed() && c in ms[i].assistant.Calls()
        ensures !Clashes(ms, i, c.id, model, norm)
      {
        RewrittenCalls(ms, i, model, norm);
        var k :| 0 <= k < |ms[i].assistant.Calls()| && ms[i].assistant.Calls()[k] == c;
        assert out[i].assistant.Calls()[k] in out[i].assistant.Calls();
        PairingKeptExactly(ms, i, c, model, norm);
      }
    }
  }

  // ----- What only the model that made it gets back -----

  /** Signed or redacted thinking, and signatures of texts and calls. */
  predicate Private(b: AssistantBlock) {
    match b
    case ThinkingBlock(_, signature, redacted) => signature.Some? || redacted == Some(true)
    case TextBlock(t) => t.signature.Some?
    case CallBlock(c) => c.thoughtSignature.Some?
  }

  lemma {:induction false} PrivateStays(bs: seq<AssistantBlock>, a: AssistantMessage, model: Model,
                                        norm: Option<Normalizer>, k: nat)
    requires k < |bs| && Private(bs[k])
    requires a.provider == model.provider && a.api == model.api && a.model == model.id
    ensures bs[k] in RewriteContent(bs, a, model, norm)
  {
    var n := |bs| - 1;
    if k < n {
      PrivateStays(bs[..n], a, model, norm, k);
    }
  }

  /** To any other model go texts and calls only, without signatures. */
  lemma {:induction false} PlainForOthers(bs: seq<AssistantBlock>, a: AssistantMessage, model: Model,
                                          norm: Option<Normalizer>, b: AssistantBlock)
    requires !(a.provider == model.provider && a.api == model.api && a.model == model.id)
    requires b in RewriteContent(bs, a, model, norm)
    ensures !Private(b) && !b.ThinkingBlock?
  {
    var n := |bs| - 1;
    if b in RewriteContent(bs[..n], a, model, norm) {
      PlainForOthers(bs[..n], a, model, norm, b);
    }
  }

  /** Main result: such a block survives exactly if provider, API and model id of its message are all
      the target's. */
  lemma PrivateSurvivesExactly(ms: seq<Message>, i: nat, k: nat, model: Model, norm: Option<Normalizer>)
    requires i < |ms| && ms[i].Assistant? && k < |ms[i].assistant.content| && Private(ms[i].assistant.content[k])
    ensures Rewrite(ms, model, norm)[i].Assistant?
    ensures var a := ms[i].assistant;
            a.content[k] in Rewrite(ms, model, norm)[i].assistant.content <==>
              a.provider == model.provider && a.api == model.api && a.model == model.id
  {
    var a := ms[i].assistant;
    RewriteAt(ms, i, model, norm);
    if a.provider == model.provider && a.api == model.api && a.model == model.id {
      PrivateStays(a.content, a, model, norm, k);
    } else if a.content[k] in RewriteContent(a.content, a, model, norm) {
      PlainForOthers(a.content, a, model, norm, a.content[k]);
    }
  }
}
