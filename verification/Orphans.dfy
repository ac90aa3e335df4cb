/** Stage 5 of the transform: failed assistant messages are dropped and every unanswered tool
    call gets an error result. */
module Orphans {
  import opened Types

  const NO_RESULT := "No result provided"

  function Synthetic(c: ToolCall): Message {
    Result(ToolResultMessage(c.id, c.name, [Text(TextContent(NO_RESULT, None))], None, true))
  }

  /** A result for each pending call that has none. */
  function Missing(pending: seq<ToolCall>, answered: set<string>): seq<Message> {
    if pending == [] then []
    else
      var init, c := pending[..|pending| - 1], pending[|pending| - 1];
      Missing(init, answered) + (if c.id in answered then [] else [Synthetic(c)])
  }

  method FlushOrphanedToolCalls(result: seq<Message>, pending: seq<ToolCall>, existing: set<string>)
    returns (out: seq<Message>)
    ensures out == result + Missing(pending, existing)
  {
    out := result;
    for i := 0 to |pending|
      invariant out == result + Missing(pending[..i], existing)
    {
      assert pending[..i + 1][..i] == pending[..i];
      if pending[i].id !in existing {
        out := out + [Synthetic(pending[i])];
      }
    }
    assert pending[..|pending|] == pending;
  }

  /** The calls still open after `ms`: those of the last message but for tool results. */
  function Pending(ms: seq<Message>): seq<ToolCall> {
    if ms == [] then []
    else
      match ms[|ms| - 1]
      case Result(_) => Pending(ms[..|ms| - 1])
      case User(_) => []
      case Assistant(a) => if a.Failed() then [] else a.Calls()
  }

  /** The ids answered since the last message that is no tool result. */
  function AnsweredIds(ms: seq<Message>): set<string> {
    if ms == [] || !ms[|ms| - 1].Result? then {}
    else AnsweredIds(ms[..|ms| - 1]) + {ms[|ms| - 1].result.callId}
  }

  /** What is missing after `ms`. */
  function Debt(ms: seq<Message>): seq<Message> {
    Missing(Pending(ms), AnsweredIds(ms))
  }

  /** What a message adds: first what was missing before it, unless it is a result. */
  function Adds(before: seq<Message>, m: Message): seq<Message> {
    match m
    case Result(_) => [m]
    case User(_) => Debt(before) + [m]
    case Assistant(a) => Debt(before) + (if a.Failed() then [] else [m])
  }

  function Repaired(ms: seq<Message>): seq<Message> {
    if ms == [] then [] else Repaired(ms[..|ms| - 1]) + Adds(ms[..|ms| - 1], ms[|ms| - 1])
  }

  function Flush(ms: seq<Message>): seq<Message> {
    Repaired(ms) + Debt(ms)
  }

  /** One message, after those in `before`. */
  method FlushOne(m: Message, result: seq<Message>, pending: seq<ToolCall>, existing: set<string>,
                  ghost before: seq<Message>)
    returns (result': seq<Message>, pending': seq<ToolCall>, existing': set<string>)
    requires result == Repaired(before) && pending == Pending(before) && existing == AnsweredIds(before)
    ensures result' == Repaired(before + [m])
    ensures pending' == Pending(before + [m]) && existing' == AnsweredIds(before + [m])
  {
    assert (before + [m])[..|before|] == before;
    result', pending', existing' := result, pending, existing;
    match m {
      case Assistant(a) =>
        result' := FlushOrphanedToolCalls(result', pending, existing);
        pending', existing' := [], {};
        if a.Failed() {
          AppendEmpty(Debt(before));
        } else {
          pending' := a.Calls();
          Associate(result, Debt(before), [m]);
          result' := result' + [m];
        }
      case Result(r) =>
        existing' := existing' + {r.callId};
        result' := result' + [m];
      case User(_) =>
        result' := FlushOrphanedToolCalls(result', pending, existing);
        pending', existing' := [], {};
        Associate(result, Debt(before), [m]);
        result' := result' + [m];
    }
  }

  method FlushOrphansAndSkipErrored(messages: seq<Message>) returns (result: seq<Message>)
    ensures result == Flush(messages)
  {
    result := [];
    var pending: seq<ToolCall>, existing: set<string> := [], {};
    for i := 0 to |messages|
      invariant result == Repaired(messages[..i])
      invariant pending == Pending(messages[..i]) && existing == AnsweredIds(messages[..i])
    {
      assert messages[..i + 1] == messages[..i] + [messages[i]];
      result, pending, existing := FlushOne(messages[i], result, pending, existing, messages[..i]);
    }
    assert messages[..|messages|] == messages;
    result := FlushOrphanedToolCalls(result, pending, existing);
  }

  // ----- What a repaired transcript is -----

  predicate FailedMessage(m: Message) {
    m.Assistant? && m.assistant.Failed()
  }

  predicate NoFailed(ms: seq<Message>) {
    forall i :: 0 <= i < |ms| ==> !FailedMessage(ms[i])
  }

  /** Results from `i + 1` up to `j`, and the one at `j` answers `id`. */
  ghost predicate AnsweredBy(ms: seq<Message>, i: nat, j: nat, id: string) {
    && i < j < |ms|
    && (forall k :: i < k <= j ==> ms[k].Result?)
    && ms[j].result.callId == id
  }

  ghost predicate AnsweredIn(ms: seq<Message>, i: nat, id: string) {
    exists j :: AnsweredBy(ms, i, j, id)
  }

  /** Every call of a message that did not fail has a result before the next user or assistant
      message. */
  ghost predicate AllAnswered(ms: seq<Message>) {
    forall i, c :: 0 <= i < |ms| && ms[i].Assistant? && !ms[i].assistant.Failed() && c in ms[i].assistant.Calls() ==>
      AnsweredIn(ms, i, c.id)
  }

  /** The messages that did not fail. */
  function Kept(ms: seq<Message>): seq<Message> {
    if ms == [] then []
    else
      var init, m := ms[..|ms| - 1], ms[|ms| - 1];
      if FailedMessage(m) then Kept(init) else Kept(init) + [m]
  }

  /** Only messages that ended in an error or were aborted are dropped. */
  lemma {:induction false} KeptExactly(ms: seq<Message>, m: Message)
    ensures m in Kept(ms) <==>
              m in ms && !(m.Assistant? && (m.assistant.stopReason == Error || m.assistant.stopReason == Aborted))
  {
    if ms != [] {
      var init := ms[..|ms| - 1];
      assert ms == init + [ms[|ms| - 1]];
      KeptExactly(init, m);
    }
  }

  lemma {:induction false} KeptAll(ms: seq<Message>)
    ensures Kept(ms) == ms <==> NoFailed(ms)
    ensures |Kept(ms)| <= |ms|
    ensures NoFailed(Kept(ms))
  {
    if ms != [] {
      KeptAll(ms[..|ms| - 1]);
      if Kept(ms) == ms {
        assert Kept(ms[..|ms| - 1]) == ms[..|ms| - 1];
      }
    }
  }

  // ----- The open segment -----

  /** Where the last message that is no result stands, if there is one. */
  function Head(ms: seq<Message>): (h: int)
    ensures -1 <= h < |ms|
    ensures h >= 0 ==> !ms[h].Result?
    ensures forall k :: h < k < |ms| ==> ms[k].Result?
  {
    if ms == [] then -1 else if ms[|ms| - 1].Result? then Head(ms[..|ms| - 1]) else |ms| - 1
  }

  lemma {:induction false} OpenSegment(ms: seq<Message>)
    ensures Pending(ms) == if Head(ms) >= 0 && ms[Head(ms)].Assistant? && !ms[Head(ms)].assistant.Failed()
                           then ms[Head(ms)].assistant.Calls() else []
    ensures forall id :: id in AnsweredIds(ms) <==> exists j :: Head(ms) < j < |ms| && ms[j].result.callId == id
  {
    if ms != [] && ms[|ms| - 1].Result? {
      var init := ms[..|ms| - 1];
      OpenSegment(init);
      forall id ensures id in AnsweredIds(ms) <==> exists j :: Head(ms) < j < |ms| && ms[j].result.callId == id {
        if id in AnsweredIds(ms) {
          if id in AnsweredIds(init) {
            var j :| Head(init) < j < |init| && init[j].result.callId == id;
            assert ms[j].result.callId == id;
          } else {
            assert ms[|ms| - 1].result.callId == id;
          }
        }
        if j :| Head(ms) < j < |ms| && ms[j].result.callId == id {
          assert j < |init| ==> init[j].result.callId == id;
        }
      }
    }
  }

  lemma {:induction false} NothingMissing(pending: seq<ToolCall>, answered: set<string>)
    ensures Missing(pending, answered) == [] <==> forall c :: c in pending ==> c.id in answered
  {
    if pending != [] {
      var n := |pending| - 1;
      NothingMissing(pending[..n], answered);
      assert pending == pending[..n] + [pending[n]];
    }
  }

  ghost predicate AllResults(ms: seq<Message>) {
    forall i :: 0 <= i < |ms| ==> ms[i].Result?
  }

  lemma {:induction false} MissingAre(pending: seq<ToolCall>, answered: set<string>)
    ensures forall m :: m in Missing(pending, answered) ==>
            exists c :: c in pending && c.id !in answered && m == Synthetic(c)
    ensures forall c :: c in pending && c.id !in answered ==> Synthetic(c) in Missing(pending, answered)
    ensures AllResults(Missing(pending, answered))
  {
    if pending != [] {
      var n := |pending| - 1;
      MissingAre(pending[..n], answered);
      assert pending == pending[..n] + [pending[n]];
    }
  }

  /** A debt is exactly an unanswered call of the segment's head. */
  lemma NoDebt(ms: seq<Message>)
    ensures Debt(ms) == [] <==>
              (Head(ms) >= 0 && ms[Head(ms)].Assistant? && !ms[Head(ms)].assistant.Failed() ==>
                 forall c :: c in ms[Head(ms)].assistant.Calls() ==> AnsweredIn(ms, Head(ms), c.id))
  {
    OpenSegment(ms);
    NothingMissing(Pending(ms), AnsweredIds(ms));
    var h := Head(ms);
    if h >= 0 {
      forall id ensures id in AnsweredIds(ms) <==> AnsweredIn(ms, h, id) {
        if id in AnsweredIds(ms) {
          var j :| h < j < |ms| && ms[j].result.callId == id;
          assert AnsweredBy(ms, h, j, id);
        }
      }
    }
  }

  // ----- Nothing missing: exactly when every call is answered -----

  /** As `AllAnswered`, up to the last message that is no result. */
  ghost predicate AnsweredBefore(ms: seq<Message>) {
    forall i, c ::
      0 <= i < Head(ms) && ms[i].Assistant? && !ms[i].assistant.Failed() && c in ms[i].assistant.Calls() ==>
        AnsweredIn(ms, i, c.id)
  }

  lemma SplitAnswered(ms: seq<Message>)
    ensures AllAnswered(ms) <==> AnsweredBefore(ms) && Debt(ms) == []
  {
    NoDebt(ms);
    forall i | Head(ms) < i < |ms| ensures !ms[i].Assistant? {}
  }

  /** An answer cannot stand behind the next message that is no result. */
  lemma AnsweredInPrefix(ms: seq<Message>, n: nat, i: nat, id: string)
    requires i < n <= |ms|
    ensures AnsweredIn(ms[..n], i, id) ==> AnsweredIn(ms, i, id)
    ensures n < |ms| && !ms[n].Result? && AnsweredIn(ms, i, id) ==> AnsweredIn(ms[..n], i, id)
  {
    if AnsweredIn(ms[..n], i, id) {
      var j :| AnsweredBy(ms[..n], i, j, id);
      assert AnsweredBy(ms, i, j, id);
    }
    if n < |ms| && !ms[n].Result? && AnsweredIn(ms, i, id) {
      var j :| AnsweredBy(ms, i, j, id);
      assert AnsweredBy(ms[..n], i, j, id);
    }
  }

  lemma AnsweredBeforeSnoc(ms: seq<Message>)
    requires ms != []
    ensures AnsweredBefore(ms) <==> if ms[|ms| - 1].Result? then AnsweredBefore(ms[..|ms| - 1])
            else AllAnswered(ms[..|ms| - 1])
  {
    var n := |ms| - 1;
    var init := ms[..n];
    var h := Head(ms);
    if ms[n].Result? {
      assert Head(init) == h;
      forall i, id | 0 <= i < h ensures AnsweredIn(ms, i, id) <==> AnsweredIn(init, i, id) {
        var upto := ms[..h];
        AnsweredInPrefix(ms, h, i, id);
        AnsweredInPrefix(init, h, i, id);
        assert init[..h] == upto && init[h] == ms[h];
      }
      assert forall i :: 0 <= i < h ==> init[i] == ms[i];
    } else {
      assert h == n;
      forall i, id | 0 <= i < n ensures AnsweredIn(ms, i, id) <==> AnsweredIn(init, i, id) {
        AnsweredInPrefix(ms, n, i, id);
      }
      assert forall i :: 0 <= i < n ==> init[i] == ms[i];
    }
  }

  lemma {:induction false} RepairedWithoutDebts(ms: seq<Message>)
    ensures |Repaired(ms)| >= |Kept(ms)|
    ensures |Repaired(ms)| == |Kept(ms)| <==> AnsweredBefore(ms)
    ensures AnsweredBefore(ms) ==> Repaired(ms) == Kept(ms)
  {
    if ms != [] {
      var init := ms[..|ms| - 1];
      RepairedWithoutDebts(init);
      AnsweredBeforeSnoc(ms);
      SplitAnswered(init);
    }
  }

  /** Main result.  Nothing is synthesized exactly when every call is answered; then the result is
      the input without its failed messages. */
  lemma FlushKeepsExactly(ms: seq<Message>)
    ensures Flush(ms) == Kept(ms) <==> AllAnswered(ms)
  {
    RepairedWithoutDebts(ms);
    SplitAnswered(ms);
  }

  // ----- Repaired transcripts stay as they are -----

  lemma {:induction false} ResultsAppend(ms: seq<Message>, rs: seq<Message>)
    requires AllResults(rs)
    ensures Pending(ms + rs) == Pending(ms)
    ensures forall id :: id in AnsweredIds(ms + rs) <==>
            id in AnsweredIds(ms) || exists r :: r in rs && r.result.callId == id
    ensures AnsweredBefore(ms + rs) <==> AnsweredBefore(ms)
    decreases |rs|
  {
    if rs == [] {
      assert ms + rs == ms;
    } else {
      var n := |rs| - 1;
      ResultsAppend(ms, rs[..n]);
      assert (ms + rs)[..|ms + rs| - 1] == ms + rs[..n];
      assert rs == rs[..n] + [rs[n]];
      AnsweredBeforeSnoc(ms + rs);
    }
  }

  /** Once what is missing has been added, every call is answered. */
  lemma DebtPaid(ms: seq<Message>)
    requires AnsweredBefore(ms)
    ensures AllAnswered(ms + Debt(ms))
  {
    var debt := Debt(ms);
    MissingAre(Pending(ms), AnsweredIds(ms));
    ResultsAppend(ms, debt);
    forall c | c in Pending(ms) ensures c.id in AnsweredIds(ms + debt) {
      if c.id !in AnsweredIds(ms) {
        assert Synthetic(c) in debt && Synthetic(c).result.callId == c.id;
      }
    }
    NothingMissing(Pending(ms), AnsweredIds(ms + debt));
    SplitAnswered(ms + debt);
  }

  /** Input and output so far are owed the same. */
  ghost predicate SameDebt(ms: seq<Message>, out: seq<Message>) {
    if Pending(ms) == [] then Debt(out) == [] else Pending(out) == Pending(ms) && AnsweredIds(out) == AnsweredIds(ms)
  }

  /** What the stage keeps while it runs. */
  ghost predicate InGoodOrder(ms: seq<Message>, out: seq<Message>) {
    AnsweredBefore(out) && SameDebt(ms, out) && NoFailed(out)
  }

  lemma {:induction false} RepairedIsAnswered(ms: seq<Message>)
    ensures InGoodOrder(ms, Repaired(ms))
  {
    if ms != [] {
      var init, m := ms[..|ms| - 1], ms[|ms| - 1];
      var out := Repaired(init);
      RepairedIsAnswered(init);
      assert ms == init + [m];
      if m.Result? {
        ResultsAppend(out, [m]);
        ResultKeepsSame(init, out, m);
      } else {
        HeadInOrder(init, out, m);
      }
    }
  }

  lemma PaidOff(ms: seq<Message>, out: seq<Message>)
    requires InGoodOrder(ms, out)
    ensures AllAnswered(out + Debt(ms)) && NoFailed(out + Debt(ms)) && Debt(out) == Debt(ms)
  {
    assert Debt(out) == Debt(ms);
    DebtPaid(out);
    MissingAre(Pending(ms), AnsweredIds(ms));
  }

  lemma FailedInOrder(ms: seq<Message>, out: seq<Message>, m: Message)
    requires InGoodOrder(ms, out) && FailedMessage(m)
    ensures InGoodOrder(ms + [m], out + Adds(ms, m))
  {
    PaidOff(ms, out);
    assert (ms + [m])[..|ms|] == ms;
    AppendEmpty(Debt(ms));
    SplitAnswered(out + Debt(ms));
  }

  lemma KeptInOrder(ms: seq<Message>, out: seq<Message>, m: Message)
    requires InGoodOrder(ms, out) && !m.Result? && !FailedMessage(m)
    ensures InGoodOrder(ms + [m], out + Adds(ms, m))
  {
    PaidOff(ms, out);
    var paid := out + Debt(ms);
    assert (ms + [m])[..|ms|] == ms && (paid + [m])[..|paid|] == paid;
    Associate(out, Debt(ms), [m]);
    AnsweredBeforeSnoc(paid + [m]);
  }

  lemma HeadInOrder(ms: seq<Message>, out: seq<Message>, m: Message)
    requires InGoodOrder(ms, out) && !m.Result?
    ensures InGoodOrder(ms + [m], out + Adds(ms, m))
  {
    if FailedMessage(m) {
      FailedInOrder(ms, out, m);
    } else {
      KeptInOrder(ms, out, m);
    }
  }

  lemma ResultKeepsSame(ms: seq<Message>, out: seq<Message>, m: Message)
    requires m.Result? && SameDebt(ms, out)
    ensures SameDebt(ms + [m], out + [m])
  {
    assert (ms + [m])[..|ms|] == ms && (out + [m])[..|out|] == out;
    NothingMissing(Pending(out), AnsweredIds(out));
    NothingMissing(Pending(out), AnsweredIds(out + [m]));
  }

  /** Main result: whatever the input, no failed message is left and every call is answered. */
  lemma FlushIsAnswered(ms: seq<Message>)
    ensures NoFailed(Flush(ms)) && AllAnswered(Flush(ms))
  {
    RepairedIsAnswered(ms);
    PaidOff(ms, Repaired(ms));
  }

  /** The transcripts the stage leaves alone are exactly those it is meant to produce. */
  lemma FlushFixesExactly(ms: seq<Message>)
    ensures Flush(ms) == ms <==> NoFailed(ms) && AllAnswered(ms)
  {
    FlushIsAnswered(ms);
    FlushKeepsExactly(ms);
    KeptAll(ms);
  }

  lemma FlushIdempotent(ms: seq<Message>)
    ensures Flush(Flush(ms)) == Flush(ms)
  {
    FlushIsAnswered(ms);
    FlushFixesExactly(Flush(ms));
  }

  // ----- Where each message of the output comes from -----

  datatype Entry = Original(message: Message) | Added(call: ToolCall)

  function MessageOf(e: Entry): Message {
    if e.Original? then e.message else Synthetic(e.call)
  }

  function MessagesOf(es: seq<Entry>): seq<Message> {
    if es == [] then [] else MessagesOf(es[..|es| - 1]) + [MessageOf(es[|es| - 1])]
  }

  function Originals(es: seq<Entry>): seq<Message> {
    if es == [] then []
    else Originals(es[..|es| - 1]) + (if es[|es| - 1].Original? then [es[|es| - 1].message] else [])
  }

  /** The entry at `i` was added for a call of the message at `h`, which no original result between
      them answers. */
  ghost predicate AddedFor(es: seq<Entry>, h: nat, i: nat) {
    && h < i < |es| && es[i].Added?
    && es[h].Original? && es[h].message.Assistant? && es[i].call in es[h].message.assistant.Calls()
    && forall k :: h < k < i ==> es[k].Original? ==>
       es[k].message.Result? && es[k].message.result.callId != es[i].call.id
  }

  ghost predicate Justified(es: seq<Entry>) {
    forall i :: 0 <= i < |es| && es[i].Added? ==> exists h :: AddedFor(es, h, i)
  }

  lemma MessagesAppend(a: seq<Entry>, e: Entry)
    ensures MessagesOf(a + [e]) == MessagesOf(a) + [MessageOf(e)]
    ensures Originals(a + [e]) == Originals(a) + (if e.Original? then [e.message] else [])
  {
    assert (a + [e])[..|a|] == a;
  }

  /** The entry at `h` is the head of the open segment of `ms`; what follows are its results. */
  ghost predicate SegmentAt(ms: seq<Message>, es: seq<Entry>, h: nat) {
    && h < |es|
    && es[h].Original? && es[h].message.Assistant? && es[h].message.assistant.Calls() == Pending(ms)
    && forall k :: h < k < |es| ==>
         es[k].Original? && es[k].message.Result? && es[k].message.result.callId in AnsweredIds(ms)
  }

  ghost predicate Explains(ms: seq<Message>, es: seq<Entry>, out: seq<Message>) {
    MessagesOf(es) == out && Originals(es) == Kept(ms) && Justified(es)
  }

  lemma JustifiedSnoc(es: seq<Entry>, e: Entry)
    requires Justified(es)
    requires e.Added? ==> exists h :: AddedFor(es + [e], h, |es|)
    ensures Justified(es + [e])
  {
    var next := es + [e];
    forall i | 0 <= i < |next| && next[i].Added? ensures exists h :: AddedFor(next, h, i) {
      if i < |es| {
        var h :| AddedFor(es, h, i);
        assert AddedFor(next, h, i);
      }
    }
  }

  /** `next` is `es` and added entries. */
  ghost predicate AddsTo(es: seq<Entry>, next: seq<Entry>) {
    es <= next && forall k :: |es| <= k < |next| ==> next[k].Added?
  }

  lemma ExplainOne(ms: seq<Message>, es: seq<Entry>, before: seq<Entry>, h: nat, c: ToolCall, out: seq<Message>)
    requires SegmentAt(ms, es, h) && AddsTo(es, before) && Explains(ms, before, out)
    requires c in Pending(ms) && c.id !in AnsweredIds(ms)
    ensures AddsTo(es, before + [Added(c)]) && Explains(ms, before + [Added(c)], out + [Synthetic(c)])
  {
    var next := before + [Added(c)];
    MessagesAppend(before, Added(c));
    forall k | h < k < |before| && next[k].Original?
      ensures next[k].message.Result? && next[k].message.result.callId != c.id
    {
      assert next[k] == before[k] == es[k];
    }
    assert next[h] == es[h];
    assert AddedFor(next, h, |before|);
    JustifiedSnoc(before, Added(c));
  }

  lemma {:induction false} ExplainMissing(ms: seq<Message>, es: seq<Entry>, pending: seq<ToolCall>, h: nat,
                                          out: seq<Message>)
    returns (next: seq<Entry>)
    requires SegmentAt(ms, es, h) && pending <= Pending(ms)
    requires Explains(ms, es, out)
    ensures Explains(ms, next, out + Missing(pending, AnsweredIds(ms))) && AddsTo(es, next)
  {
    next := es;
    if pending == [] {
      assert out + [] == out;
    } else {
      var n := |pending| - 1;
      var c, rest := pending[n], Missing(pending[..n], AnsweredIds(ms));
      next := ExplainMissing(ms, es, pending[..n], h, out);
      if c.id in AnsweredIds(ms) {
        AppendEmpty(rest);
      } else {
        assert c in Pending(ms);
        Associate(out, rest, [Synthetic(c)]);
        ExplainOne(ms, es, next, h, c, out + rest);
        next := next + [Added(c)];
      }
    }
  }

  lemma ExplainDebt(ms: seq<Message>, es: seq<Entry>, h: nat, out: seq<Message>) returns (next: seq<Entry>)
    requires Pending(ms) != [] ==> SegmentAt(ms, es, h)
    requires Explains(ms, es, out)
    ensures Explains(ms, next, out + Debt(ms))
  {
    if Pending(ms) == [] {
      next := es;
      assert out + [] == out;
    } else {
      next := ExplainMissing(ms, es, Pending(ms), h, out);
    }
  }

  lemma ExplainResult(ms: seq<Message>, es: seq<Entry>, h: nat, out: seq<Message>, m: Message)
    requires m.Result? && Explains(ms, es, out)
    requires Pending(ms) != [] ==> SegmentAt(ms, es, h)
    ensures Explains(ms + [m], es + [Original(m)], out + [m])
    ensures Pending(ms + [m]) != [] ==> SegmentAt(ms + [m], es + [Original(m)], h)
  {
    assert (ms + [m])[..|ms|] == ms;
    MessagesAppend(es, Original(m));
    JustifiedSnoc(es, Original(m));
  }

  lemma ExplainHead(ms: seq<Message>, es: seq<Entry>, h: nat, out: seq<Message>, m: Message)
    returns (next: seq<Entry>, g: nat)
    requires !m.Result? && Explains(ms, es, out)
    requires Pending(ms) != [] ==> SegmentAt(ms, es, h)
    ensures Explains(ms + [m], next, out + Adds(ms, m))
    ensures Pending(ms + [m]) != [] ==> SegmentAt(ms + [m], next, g)
  {
    assert (ms + [m])[..|ms|] == ms;
    g := h;
    next := ExplainDebt(ms, es, h, out);
    if FailedMessage(m) {
      AppendEmpty(Debt(ms));
    } else {
      Associate(out, Debt(ms), [m]);
      MessagesAppend(next, Original(m));
      JustifiedSnoc(next, Original(m));
      g, next := |next|, next + [Original(m)];
    }
  }

  lemma {:induction false} ExplainRepaired(ms: seq<Message>) returns (es: seq<Entry>, h: nat)
    ensures Explains(ms, es, Repaired(ms))
    ensures Pending(ms) != [] ==> SegmentAt(ms, es, h)
  {
    es, h := [], 0;
    if ms != [] {
      var init, m := ms[..|ms| - 1], ms[|ms| - 1];
      es, h := ExplainRepaired(init);
      assert ms == init + [m];
      if m.Result? {
        ExplainResult(init, es, h, Repaired(init), m);
        es := es + [Original(m)];
      } else {
        es, h := ExplainHead(init, es, h, Repaired(init), m);
      }
    }
  }

  lemma {:induction false} MessagesAt(es: seq<Entry>, i: nat)
    requires i < |es|
    ensures |MessagesOf(es)| == |es| && MessagesOf(es)[i] == MessageOf(es[i])
    decreases |es|
  {
    if i < |es| - 1 {
      MessagesAt(es[..|es| - 1], i);
    } else if i > 0 {
      MessagesAt(es[..|es| - 1], i - 1);
    }
  }

  /** Main result: the output is the input without its failed messages, in order, plus results
      added only for calls that had none; each of these is an error that names the call and its tool. */
  lemma FlushExplained(ms: seq<Message>) returns (es: seq<Entry>)
    ensures MessagesOf(es) == Flush(ms) && Originals(es) == Kept(ms) && Justified(es)
    ensures |es| == |Flush(ms)|
    ensures forall i :: 0 <= i < |es| ==>
              match es[i]
              case Original(m) => Flush(ms)[i] == m
              case Added(call) =>
                && Flush(ms)[i].Result? && Flush(ms)[i].result.isError
                && Flush(ms)[i].result.callId == call.id && Flush(ms)[i].result.toolName == call.name
                && Flush(ms)[i].result.content == [Text(TextContent("No result provided", None))]
  {
    var h;
    es, h := ExplainRepaired(ms);
    es := ExplainDebt(ms, es, h, Repaired(ms));
    forall i | 0 <= i < |es| ensures |MessagesOf(es)| == |es| && MessagesOf(es)[i] == MessageOf(es[i]) {
      MessagesAt(es, i);
    }
  }
}
