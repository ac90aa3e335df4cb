/** Stages 1 and 2 of the transform: images for models that take none, and response ids. */
module Images {
  import opened Types

  const USER_IMAGE_PLACEHOLDER := "(image omitted: model does not support images)"
  const TOOL_RESULT_IMAGE_PLACEHOLDER := "(tool image omitted: model does not support images)"

  function Placeholder(text: string): ContentBlock {
    Text(TextContent(text, None))
  }

  /** The text of a block that counts as a placeholder: a later image joins it. */
  predicate Covers(b: ContentBlock, text: string) {
    b.Image? || b.text.text == text
  }

  predicate Covered(blocks: seq<ContentBlock>, text: string) {
    blocks != [] && Covers(blocks[|blocks| - 1], text)
  }

  /** Each run of images becomes one placeholder, or none if it follows a placeholder text. */
  function Collapse(blocks: seq<ContentBlock>, text: string): seq<ContentBlock> {
    if blocks == [] then []
    else
      var init, b := blocks[..|blocks| - 1], blocks[|blocks| - 1];
      if b.Text? then Collapse(init, text) + [b]
      else if Covered(init, text) then Collapse(init, text)
      else Collapse(init, text) + [Placeholder(text)]
  }

  method CollapseImages(blocks: seq<ContentBlock>, text: string) returns (out: seq<ContentBlock>)
    ensures out == Collapse(blocks, text)
  {
    out := [];
    var previousWasPlaceholder := false;
    for i := 0 to |blocks|
      invariant out == Collapse(blocks[..i], text)
      invariant previousWasPlaceholder == Covered(blocks[..i], text)
    {
      assert blocks[..i + 1][..i] == blocks[..i];
      match blocks[i] {
        case Image(_, _) =>
          if !previousWasPlaceholder {
            out := out + [Placeholder(text)];
          }
          previousWasPlaceholder := true;
        case Text(t) =>
          previousWasPlaceholder := t.text == text;
          out := out + [blocks[i]];
      }
    }
    assert blocks[..|blocks|] == blocks;
  }

  predicate NoImages(blocks: seq<ContentBlock>) {
    forall i :: 0 <= i < |blocks| ==> blocks[i].Text?
  }

  lemma {:induction false} CollapseHasNoImages(blocks: seq<ContentBlock>, text: string)
    ensures NoImages(Collapse(blocks, text))
  {
    if blocks != [] {
      CollapseHasNoImages(blocks[..|blocks| - 1], text);
    }
  }

  /** Exactly the image-free contents are left alone; so collapsing twice is collapsing once. */
  lemma {:induction false} CollapseFixesImageFree(blocks: seq<ContentBlock>, text: string)
    ensures Collapse(blocks, text) == blocks <==> NoImages(blocks)
  {
    CollapseHasNoImages(blocks, text);
    if NoImages(blocks) && blocks != [] {
      CollapseFixesImageFree(blocks[..|blocks| - 1], text);
    }
  }

  /** The texts of a content other than placeholders. */
  function Texts(blocks: seq<ContentBlock>, text: string): seq<TextContent> {
    if blocks == [] then []
    else
      var init, b := blocks[..|blocks| - 1], blocks[|blocks| - 1];
      if b.Image? || b.text.text == text then Texts(init, text) else Texts(init, text) + [b.text]
  }

  lemma TextsSnoc(blocks: seq<ContentBlock>, b: ContentBlock, text: string)
    ensures Texts(blocks + [b], text) == Texts(blocks, text) +
            (if b.Image? || b.text.text == text then [] else [b.text])
  {
    assert (blocks + [b])[..|blocks|] == blocks;
  }

  /** No text is lost, changed or moved. */
  lemma {:induction false} CollapseKeepsTexts(blocks: seq<ContentBlock>, text: string)
    ensures Texts(Collapse(blocks, text), text) == Texts(blocks, text)
  {
    if blocks != [] {
      var init, b := blocks[..|blocks| - 1], blocks[|blocks| - 1];
      CollapseKeepsTexts(init, text);
      TextsSnoc(Collapse(init, text), b, text);
      TextsSnoc(Collapse(init, text), Placeholder(text), text);
    }
  }

  ghost predicate HasImage(blocks: seq<ContentBlock>) {
    exists b :: b in blocks && b.Image?
  }

  ghost predicate HasPlaceholder(blocks: seq<ContentBlock>, text: string) {
    exists b :: b in blocks && b.Text? && b.text.text == text
  }

  /** Images are signalled, and the runs of both contents end alike. */
  lemma {:induction false} CollapseSignalsImages(blocks: seq<ContentBlock>, text: string)
    ensures Covered(blocks, text) <==> Covered(Collapse(blocks, text), text)
    ensures HasImage(blocks) ==> HasPlaceholder(Collapse(blocks, text), text)
  {
    if blocks != [] {
      var init, b := blocks[..|blocks| - 1], blocks[|blocks| - 1];
      CollapseSignalsImages(init, text);
      CollapseHasNoImages(init, text);
      var before, out := Collapse(init, text), Collapse(blocks, text);
      if b.Image? {
        assert out[|out| - 1] in out;
      } else if HasImage(blocks) {
        assert HasImage(init);
        var p :| p in before && p.Text? && p.text.text == text;
        assert p in out;
      }
    }
  }

  predicate AllImages(blocks: seq<ContentBlock>) {
    forall i :: 0 <= i < |blocks| ==> blocks[i].Image?
  }

  /** A run of images leaves one placeholder, and none if it follows one. */
  lemma {:induction false} RunCollapses(before: seq<ContentBlock>, run: seq<ContentBlock>, text: string)
    requires run != [] && AllImages(run)
    ensures Collapse(before + run, text) ==
            Collapse(before, text) + (if Covered(before, text) then [] else [Placeholder(text)])
    ensures Covered(before + run, text)
    decreases |run|
  {
    var n := |run| - 1;
    assert (before + run)[..|before + run| - 1] == before + run[..n];
    if n == 0 {
      AppendEmpty(before);
    } else {
      RunCollapses(before, run[..n], text);
    }
    AppendEmpty(Collapse(before, text));
  }

  /** What follows a run is collapsed on its own. */
  lemma {:induction false} TextResumes(before: seq<ContentBlock>, after: seq<ContentBlock>, text: string)
    requires after != [] ==> after[0].Text?
    ensures Collapse(before + after, text) == Collapse(before, text) + Collapse(after, text)
    decreases |after|
  {
    if after == [] {
      AppendEmpty(before);
      AppendEmpty(Collapse(before, text));
    } else {
      var n := |after| - 1;
      assert (before + after)[..|before + after| - 1] == before + after[..n];
      TextResumes(before, after[..n], text);
      AppendEmpty(Collapse(before, text) + Collapse(after[..n], text));
      AppendEmpty(Collapse(after[..n], text));
    }
  }

  /** Every run of images, with texts or nothing around it, becomes one placeholder between what the
      texts around it become; if the text right before it is a placeholder already, it becomes nothing. */
  lemma RunsLeaveOnePlaceholder(before: seq<ContentBlock>, run: seq<ContentBlock>, after: seq<ContentBlock>,
                                text: string)
    requires run != [] && AllImages(run)
    requires (before != [] ==> before[|before| - 1].Text?) && (after != [] ==> after[0].Text?)
    ensures Collapse(before + run + after, text) ==
            Collapse(before, text) +
            (if before != [] && before[|before| - 1].text.text == text then []
             else [Text(TextContent(text, None))]) +
            Collapse(after, text)
  {
    RunCollapses(before, run, text);
    TextResumes(before + run, after, text);
  }

  // ----- The stages -----

  function WithoutImages(m: Message): Message {
    match m
    case User(Blocks(bs)) => User(Blocks(Collapse(bs, USER_IMAGE_PLACEHOLDER)))
    case Result(r) => Result(r.(content := Collapse(r.content, TOOL_RESULT_IMAGE_PLACEHOLDER)))
    case _ => m
  }

  function DowngradeImages(m: Message, model: Model): Message {
    if model.imageInput then m else WithoutImages(m)
  }

  /** A response id means nothing to another API. */
  function DropResponseId(m: Message, model: Model): Message {
    if m.Assistant? && m.assistant.api != model.api && m.assistant.responseId.Some?
    then Assistant(m.assistant.(responseId := None)) else m
  }

  function Downgrade(ms: seq<Message>, model: Model): (out: seq<Message>)
    ensures |out| == |ms|
    ensures forall i :: 0 <= i < |ms| ==> out[i] == DropResponseId(DowngradeImages(ms[i], model), model)
  {
    seq(|ms|, i requires 0 <= i < |ms| => DropResponseId(DowngradeImages(ms[i], model), model))
  }

  /** Both stages, message by message. */
  method DowngradeMessages(ms: seq<Message>, model: Model) returns (out: seq<Message>)
    ensures out == Downgrade(ms, model)
  {
    out := [];
    for i := 0 to |ms|
      invariant |out| == i
      invariant forall k :: 0 <= k < i ==> out[k] == DropResponseId(DowngradeImages(ms[k], model), model)
    {
      var m := ms[i];
      if !model.imageInput && m.User? && m.content.Blocks? {
        var blocks := CollapseImages(m.content.blocks, USER_IMAGE_PLACEHOLDER);
        m := User(Blocks(blocks));
      } else if !model.imageInput && m.Result? {
        var content := CollapseImages(m.result.content, TOOL_RESULT_IMAGE_PLACEHOLDER);
        m := Result(m.result.(content := content));
      }
      out := out + [DropResponseId(m, model)];
    }
  }

  /** What both stages leave alone: contents the model can read and response ids of its own API. */
  predicate Downgraded(m: Message, model: Model) {
    match m
    case User(Plain(_)) => true
    case User(Blocks(bs)) => model.imageInput || NoImages(bs)
    case Result(r) => model.imageInput || NoImages(r.content)
    case Assistant(a) => a.api == model.api || a.responseId.None?
  }

  lemma DowngradedExactly(m: Message, model: Model)
    ensures Downgraded(DropResponseId(DowngradeImages(m, model), model), model)
    ensures DropResponseId(DowngradeImages(m, model), model) == m <==> Downgraded(m, model)
  {
    match m {
      case User(Plain(_)) =>
      case User(Blocks(bs)) =>
        CollapseHasNoImages(bs, USER_IMAGE_PLACEHOLDER);
        CollapseFixesImageFree(bs, USER_IMAGE_PLACEHOLDER);
      case Result(r) =>
        CollapseHasNoImages(r.content, TOOL_RESULT_IMAGE_PLACEHOLDER);
        CollapseFixesImageFree(r.content, TOOL_RESULT_IMAGE_PLACEHOLDER);
      case Assistant(a) =>
    }
  }

  /** For a model that takes no images, a user message with images says afterwards that an image was
      left out, and a tool result that a tool's image was. */
  lemma OmissionsAreSaid(m: Message, model: Model)
    requires !model.imageInput
    ensures m.User? && m.content.Blocks? && HasImage(m.content.blocks) ==>
              var next := DropResponseId(DowngradeImages(m, model), model);
              next.User? && next.content.Blocks? &&
              HasPlaceholder(next.content.blocks, "(image omitted: model does not support images)")
    ensures m.Result? && HasImage(m.result.content) ==>
              var next := DropResponseId(DowngradeImages(m, model), model);
              next.Result? && HasPlaceholder(next.result.content,
                                             "(tool image omitted: model does not support images)")
  {
    match m {
      case User(Blocks(bs)) => CollapseSignalsImages(bs, USER_IMAGE_PLACEHOLDER);
      case Result(r) => CollapseSignalsImages(r.content, TOOL_RESULT_IMAGE_PLACEHOLDER);
      case _ =>
    }
  }

  lemma DowngradeFixes(ms: seq<Message>, model: Model)
    requires forall i :: 0 <= i < |ms| ==> Downgraded(ms[i], model)
    ensures Downgrade(ms, model) == ms
  {
    forall i | 0 <= i < |ms| ensures Downgrade(ms, model)[i] == ms[i] {
      DowngradedExactly(ms[i], model);
    }
  }
}
