/** The proxy's event stream: characters arrive in chunks, lines are dispatched when complete.
    Chunks are decoded characters; bytes split inside a character are not part of this model. */
module ProxyStream {
  import opened Types
  import opened Rewriting
  import opened Proxy

  // ----- Lines -----

  const NEWLINE := '\n'

  /** The complete lines of a text, and what follows the last newline. */
  datatype Lines = Lines(complete: seq<string>, rest: string)

  function Read1(l: Lines, c: char): Lines {
    if c == NEWLINE then Lines(l.complete + [l.rest], "") else Lines(l.complete, l.rest + [c])
  }

  function LinesOf(text: string): Lines {
    if text == [] then Lines([], "") else Read1(LinesOf(text[..|text| - 1]), text[|text| - 1])
  }

  function Text(chunks: seq<string>): string {
    if chunks == [] then [] else Text(chunks[..|chunks| - 1]) + chunks[|chunks| - 1]
  }

  function Prepend(complete: seq<string>, l: Lines): Lines {
    Lines(complete + l.complete, l.rest)
  }

  lemma Read1Prepend(complete: seq<string>, l: Lines, c: char)
    ensures Read1(Prepend(complete, l), c) == Prepend(complete, Read1(l, c))
  {
    if c == NEWLINE {
      assert complete + l.complete + [l.rest] == complete + (l.complete + [l.rest]);
    }
  }

  /** Reading goes on from what was left. */
  lemma {:induction false} LinesAppend(a: string, b: string)
    ensures LinesOf(a + b) == Prepend(LinesOf(a).complete, LinesOf(LinesOf(a).rest + b))
    decreases |b|
  {
    var rest := LinesOf(a).rest;
    if b == [] {
      RestHasNoLine(a);
      assert a + b == a && rest + b == rest;
      assert LinesOf(a).complete + [] == LinesOf(a).complete;
    } else {
      var n := |b| - 1;
      LinesAppend(a, b[..n]);
      assert (a + b)[..|a + b| - 1] == a + b[..n];
      assert (rest + b)[..|rest + b| - 1] == rest + b[..n];
      Read1Prepend(LinesOf(a).complete, LinesOf(rest + b[..n]), b[n]);
    }
  }

  lemma {:induction false} NoNewlineNoLine(text: string)
    requires NEWLINE !in text
    ensures LinesOf(text) == Lines([], text)
  {
    if text != [] {
      var n := |text| - 1;
      assert text == text[..n] + [text[n]];
      NoNewlineNoLine(text[..n]);
    }
  }

  lemma {:induction false} RestHasNoLine(text: string)
    ensures NEWLINE !in LinesOf(text).rest
    ensures LinesOf(LinesOf(text).rest) == Lines([], LinesOf(text).rest)
  {
    if text != [] {
      RestHasNoLine(text[..|text| - 1]);
    }
    NoNewlineNoLine(LinesOf(text).rest);
  }

  /** Nothing is lost or made up: the lines, each with its newline, and the rest are the text. */
  function Unread(l: Lines): string
    decreases |l.complete|
  {
    if l.complete == [] then l.rest
    else Unread(Lines(l.complete[..|l.complete| - 1], l.complete[|l.complete| - 1] + [NEWLINE] + l.rest))
  }

  lemma {:induction false} UnreadSnoc(complete: seq<string>, rest: string, c: char)
    ensures Unread(Lines(complete, rest + [c])) == Unread(Lines(complete, rest)) + [c]
    decreases |complete|
  {
    if complete != [] {
      var init, last := complete[..|complete| - 1], complete[|complete| - 1];
      UnreadSnoc(init, last + [NEWLINE] + rest, c);
      assert last + [NEWLINE] + (rest + [c]) == last + [NEWLINE] + rest + [c];
    }
  }

  lemma {:induction false} LinesAreTheText(text: string)
    ensures Unread(LinesOf(text)) == text
  {
    if text != [] {
      var n := |text| - 1;
      var l := LinesOf(text[..n]);
      LinesAreTheText(text[..n]);
      UnreadSnoc(l.complete, l.rest, text[n]);
      if text[n] == NEWLINE {
        assert (l.complete + [l.rest])[..|l.complete|] == l.complete;
        assert l.rest + [NEWLINE] + "" == l.rest + [NEWLINE];
      }
      assert text == text[..n] + [text[n]];
    }
  }

  // ----- Payloads -----

  function TrimStart(s: string): string {
    if s != [] && Whitespace(s[0]) then TrimStart(s[1..]) else s
  }

  function TrimRight(s: string): string {
    if s != [] && Whitespace(s[|s| - 1]) then TrimRight(s[..|s| - 1]) else s
  }

  const DATA := "data: "

  /** What a line carries: nothing if it is blank, a comment or of another field. */
  function Payload(line: string): Option<string> {
    var trimmed := TrimStart(TrimRight(line));
    if trimmed == [] || trimmed[0] == ':' then None
    else if DATA <= trimmed && |trimmed| > |DATA| then Some(trimmed[|DATA|..])
    else None
  }

  predicate AllWhite(s: string) {
    forall i :: 0 <= i < |s| ==> Whitespace(s[i])
  }

  lemma {:induction false} TrimStartDrops(a: string, s: string)
    requires AllWhite(a) && s != [] && !Whitespace(s[0])
    ensures TrimStart(a + s) == s
  {
    if a == [] {
      EmptyThen(s);
    } else {
      assert (a + s)[1..] == a[1..] + s;
      TrimStartDrops(a[1..], s);
    }
  }

  lemma {:induction false} TrimRightDrops(s: string, b: string)
    requires AllWhite(b) && s != [] && !Whitespace(s[|s| - 1])
    ensures TrimRight(s + b) == s
    decreases |b|
  {
    if b == [] {
      AppendEmpty(s);
    } else {
      assert (s + b)[..|s + b| - 1] == s + b[..|b| - 1];
      TrimRightDrops(s, b[..|b| - 1]);
    }
  }

  lemma {:induction false} TrimStartLeaves(s: string) returns (a: string)
    ensures AllWhite(a) && s == a + TrimStart(s)
  {
    a := "";
    if s != [] && Whitespace(s[0]) {
      var rest := TrimStartLeaves(s[1..]);
      a := [s[0]] + rest;
      assert s == [s[0]] + s[1..];
    }
  }

  lemma {:induction false} TrimRightLeaves(s: string) returns (b: string)
    ensures AllWhite(b) && s == TrimRight(s) + b
    ensures TrimRight(s) != [] ==> !Whitespace(TrimRight(s)[|TrimRight(s)| - 1])
  {
    b := "";
    if s != [] && Whitespace(s[|s| - 1]) {
      var rest := TrimRightLeaves(s[..|s| - 1]);
      b := rest + [s[|s| - 1]];
      assert s == s[..|s| - 1] + [s[|s| - 1]];
    }
  }

  /** A line is the prefix and a payload, with any white space around them. */
  ghost predicate CarriesIn(line: string, payload: string, a: string, b: string) {
    AllWhite(a) && AllWhite(b) && line == a + (DATA + payload) + b
  }

  /** The payload of a line is `payload` exactly if the line is "data: " and `payload`, which is not
      empty and ends in no white space, up to white space around the two. */
  lemma PayloadExactly(line: string, payload: string)
    ensures Payload(line) == Some(payload) <==>
              && payload != [] && !Whitespace(payload[|payload| - 1])
              && exists a: string, b: string :: CarriesIn(line, payload, a, b)
  {
    if payload != [] && !Whitespace(payload[|payload| - 1]) && exists a, b :: CarriesIn(line, payload, a, b) {
      var a, b :| CarriesIn(line, payload, a, b);
      TrimRightDrops(a + (DATA + payload), b);
      TrimStartDrops(a, DATA + payload);
    }
    if Payload(line) == Some(payload) {
      var b := TrimRightLeaves(line);
      var a := TrimStartLeaves(TrimRight(line));
      assert TrimStart(TrimRight(line)) == DATA + payload;
      assert CarriesIn(line, payload, a, b);
    }
  }

  // ----- Dispatch -----

  type Decoder = string -> Option<WireEvent>

  /** The reducer's state, what was yielded, and whether the stream has failed. */
  datatype Progress = Progress(state: State, yielded: seq<StreamEvent>, failed: bool)

  function Fail(p: Progress, reason: StopReason, message: string): Progress {
    var partial := p.state.partial.(stopReason := reason, errorMessage := Some(message));
    Progress(State(partial, p.state.buffers), p.yielded + [Failure(reason, partial)], true)
  }

  function Optional(event: Option<StreamEvent>): seq<StreamEvent> {
    if event.Some? then [event.value] else []
  }

  /** One line; the first line that fails is the last that counts. */
  function Dispatch(parse: Parser, decode: Decoder, p: Progress, line: string): Progress {
    var payload := Payload(line);
    if p.failed || payload.None? then p
    else
      var event := decode(payload.value);
      if event.None? then Fail(p, Error, "malformed event")
      else
        var s := Next(parse, p.state, event.value);
        if Accepts(parse, p.state, event.value)
        then Progress(s, p.yielded + Optional(Announced(s, event.value)), false)
        else Fail(Progress(s, p.yielded, false), Error, "wrong slot")
  }

  function DispatchAll(parse: Parser, decode: Decoder, p: Progress, lines: seq<string>): Progress {
    if lines == [] then p
    else Dispatch(parse, decode, DispatchAll(parse, decode, p, lines[..|lines| - 1]), lines[|lines| - 1])
  }

  lemma {:induction false} DispatchAppend(parse: Parser, decode: Decoder, p: Progress, a: seq<string>, b: seq<string>)
    ensures DispatchAll(parse, decode, p, a + b) == DispatchAll(parse, decode, DispatchAll(parse, decode, p, a), b)
    decreases |b|
  {
    if b == [] {
      assert a + b == a;
    } else {
      assert (a + b)[..|a + b| - 1] == a + b[..|b| - 1];
      DispatchAppend(parse, decode, p, a, b[..|b| - 1]);
    }
  }

  lemma {:induction false} FailedStays(parse: Parser, decode: Decoder, p: Progress, lines: seq<string>)
    requires p.failed
    ensures DispatchAll(parse, decode, p, lines) == p
  {
    if lines != [] {
      FailedStays(parse, decode, p, lines[..|lines| - 1]);
    }
  }

  /** How the body ends: it is exhausted, it breaks off, or the caller cancels. */
  datatype Ending = Exhausted | BrokenOff(message: string) | Cancelled

  function Finish(p: Progress, ending: Ending): Progress {
    if p.failed || ending == Exhausted then p
    else if ending == Cancelled then Fail(p, Aborted, "Aborted")
    else Fail(p, Error, ending.message)
  }

  /** What a body comes to, whatever its chunks. */
  function Streamed(parse: Parser, decode: Decoder, seed: AssistantMessage, text: string, ending: Ending): Progress {
    Finish(DispatchAll(parse, decode, Progress(State(seed, map[]), [], false), LinesOf(text).complete), ending)
  }

  // ----- The loops -----

  method FindNewline(s: string) returns (pos: Option<nat>)
    ensures pos.None? <==> NEWLINE !in s
    ensures pos.Some? ==> pos.value < |s| && s[pos.value] == NEWLINE && NEWLINE !in s[..pos.value]
  {
    for i := 0 to |s|
      invariant NEWLINE !in s[..i]
    {
      if s[i] == NEWLINE {
        return Some(i);
      }
      assert s[..i + 1] == s[..i] + [s[i]];
    }
    assert s[..|s|] == s;
    pos := None;
  }

  lemma HeadLine(line: string)
    requires NEWLINE !in line
    ensures LinesOf(line + [NEWLINE]) == Lines([line], "")
  {
    NoNewlineNoLine(line);
    TakeBack(line, NEWLINE);
  }

  /** The first complete line of a text. */
  lemma FirstLine(text: string, pos: nat)
    requires pos < |text| && text[pos] == NEWLINE && NEWLINE !in text[..pos]
    ensures LinesOf(text).complete == [text[..pos]] + LinesOf(text[pos + 1..]).complete
    ensures LinesOf(text).rest == LinesOf(text[pos + 1..]).rest
  {
    var line, after := text[..pos], text[pos + 1..];
    HeadLine(line);
    LinesAppend(line + [NEWLINE], after);
    assert text == line + [NEWLINE] + after;
    assert "" + after == after;
  }

  method DispatchLine(decode: Decoder, reducer: ProxyReducer, yielded: seq<StreamEvent>, line: string)
    returns (yielded': seq<StreamEvent>, failed: bool)
    modifies reducer
    ensures Progress(reducer.Current(), yielded', failed) ==
            Dispatch(reducer.parse, decode, Progress(old(reducer.Current()), yielded, false), line)
  {
    yielded', failed := yielded, false;
    var payload := Payload(line);
    if payload.None? {
      return;
    }
    var event := decode(payload.value);
    if event.None? {
      yielded' := FailWith(reducer, yielded, Error, "malformed event");
      failed := true;
      return;
    }
    var reply := reducer.Process(event.value);
    match reply {
      case Accepted(out) => yielded' := yielded + Optional(out);
      case Rejected(_) =>
        yielded' := FailWith(reducer, yielded, Error, "wrong slot");
        failed := true;
    }
  }

  method FailWith(reducer: ProxyReducer, yielded: seq<StreamEvent>, reason: StopReason, message: string)
    returns (yielded': seq<StreamEvent>)
    modifies reducer
    ensures Progress(reducer.Current(), yielded', true) ==
            Fail(Progress(old(reducer.Current()), yielded, false), reason, message)
  {
    reducer.partial := reducer.partial.(stopReason := reason, errorMessage := Some(message));
    yielded' := yielded + [Failure(reason, reducer.partial)];
  }

  lemma OneMore(parse: Parser, decode: Decoder, start: Progress, done: seq<string>, line: string, rest: seq<string>)
    ensures DispatchAll(parse, decode, start, done + [line]) ==
            Dispatch(parse, decode, DispatchAll(parse, decode, start, done), line)
    ensures done + ([line] + rest) == done + [line] + rest
    ensures DispatchAll(parse, decode, start, done + [line]).failed ==>
              DispatchAll(parse, decode, start, done + [line] + rest) ==
                DispatchAll(parse, decode, start, done + [line])
  {
    assert (done + [line])[..|done|] == done;
    if DispatchAll(parse, decode, start, done + [line]).failed {
      DispatchAppend(parse, decode, start, done + [line], rest);
      FailedStays(parse, decode, DispatchAll(parse, decode, start, done + [line]), rest);
    }
  }

  /** Takes the complete lines off the buffer, one after the other. */
  method DrainLines(decode: Decoder, reducer: ProxyReducer, yielded: seq<StreamEvent>, buffer: string)
    returns (yielded': seq<StreamEvent>, failed: bool, buffer': string)
    modifies reducer
    ensures Progress(reducer.Current(), yielded', failed) ==
            DispatchAll(reducer.parse, decode, Progress(old(reducer.Current()), yielded, false),
                        LinesOf(buffer).complete)
    ensures !failed ==> buffer' == LinesOf(buffer).rest
  {
    yielded', failed, buffer' := yielded, false, buffer;
    ghost var start := Progress(reducer.Current(), yielded, false);
    ghost var done: seq<string> := [];
    while true
      invariant LinesOf(buffer).complete == done + LinesOf(buffer').complete
      invariant LinesOf(buffer).rest == LinesOf(buffer').rest
      invariant Progress(reducer.Current(), yielded', false) == DispatchAll(reducer.parse, decode, start, done)
      decreases |buffer'|
    {
      var pos := FindNewline(buffer');
      if pos.None? {
        NoNewlineNoLine(buffer');
        assert done + [] == done;
        return;
      }
      FirstLine(buffer', pos.value);
      var line, rest := buffer'[..pos.value], buffer'[pos.value + 1..];
      yielded', failed := DispatchLine(decode, reducer, yielded', line);
      OneMore(reducer.parse, decode, start, done, line, LinesOf(rest).complete);
      done, buffer' := done + [line], rest;
      if failed {
        return;
      }
    }
  }

  /** Main result: the events yielded, and the message left, are those of the whole text, however
      it was cut into chunks; an incomplete last line counts for nothing. */
  method StreamProxy(parse: Parser, decode: Decoder, seed: AssistantMessage, chunks: seq<string>, ending: Ending)
    returns (yielded: seq<StreamEvent>, partial: AssistantMessage)
    ensures yielded == Streamed(parse, decode, seed, Text(chunks), ending).yielded
    ensures partial == Streamed(parse, decode, seed, Text(chunks), ending).state.partial
  {
    var reducer := new ProxyReducer(parse, seed);
    ghost var start := Progress(State(seed, map[]), [], false);
    var buffer := "";
    yielded := [];
    for i := 0 to |chunks|
      invariant fresh(reducer) && reducer.parse == parse
      invariant buffer == LinesOf(Text(chunks[..i])).rest
      invariant Progress(reducer.Current(), yielded, false) ==
                DispatchAll(parse, decode, start, LinesOf(Text(chunks[..i])).complete)
    {
      ghost var before := Text(chunks[..i]);
      assert chunks[..i + 1][..i] == chunks[..i];
      LinesAppend(before, chunks[i]);
      DispatchAppend(parse, decode, start, LinesOf(before).complete, LinesOf(buffer + chunks[i]).complete);
      var failed;
      yielded, failed, buffer := DrainLines(decode, reducer, yielded, buffer + chunks[i]);
      if failed {
        NothingAfterFailure(parse, decode, start, chunks, i + 1);
        partial := reducer.partial;
        return;
      }
    }
    assert chunks[..|chunks|] == chunks;
    match ending {
      case Exhausted =>
      case Cancelled => yielded := FailWith(reducer, yielded, Aborted, "Aborted");
      case BrokenOff(m) => yielded := FailWith(reducer, yielded, Error, m);
    }
    partial := reducer.partial;
  }

  /** What chunks that follow a failure add: lines, but nothing comes of them. */
  lemma LaterTextAdds(parse: Parser, decode: Decoder, start: Progress, text: string, more: string)
    requires DispatchAll(parse, decode, start, LinesOf(text).complete).failed
    ensures DispatchAll(parse, decode, start, LinesOf(text + more).complete) ==
            DispatchAll(parse, decode, start, LinesOf(text).complete)
  {
    var later := LinesOf(LinesOf(text).rest + more).complete;
    LinesAppend(text, more);
    DispatchAppend(parse, decode, start, LinesOf(text).complete, later);
    FailedStays(parse, decode, DispatchAll(parse, decode, start, LinesOf(text).complete), later);
  }

  lemma {:induction false} TextAppend(chunks: seq<string>, i: nat) returns (more: string)
    requires i <= |chunks|
    ensures Text(chunks) == Text(chunks[..i]) + more
    decreases |chunks|
  {
    if i < |chunks| {
      var n := |chunks| - 1;
      assert chunks[..n][..i] == chunks[..i];
      var before := TextAppend(chunks[..n], i);
      more := before + chunks[n];
      assert Text(chunks[..i]) + before + chunks[n] == Text(chunks[..i]) + more;
    } else {
      more := [];
      assert chunks[..i] == chunks;
    }
  }

  lemma NothingAfterFailure(parse: Parser, decode: Decoder, start: Progress, chunks: seq<string>, i: nat)
    requires i <= |chunks| && DispatchAll(parse, decode, start, LinesOf(Text(chunks[..i])).complete).failed
    ensures DispatchAll(parse, decode, start, LinesOf(Text(chunks)).complete) ==
            DispatchAll(parse, decode, start, LinesOf(Text(chunks[..i])).complete)
  {
    var more := TextAppend(chunks, i);
    LaterTextAdds(parse, decode, start, Text(chunks[..i]), more);
  }

  /** A stream has at most one failure of its own, and it comes last: the lines before line `n` are
      all taken, line `n` adds that failure and nothing else, and nothing comes of the lines after it. */
  lemma {:induction false} FailureIsLast(parse: Parser, decode: Decoder, seed: AssistantMessage, lines: seq<string>)
    returns (n: nat)
    requires DispatchAll(parse, decode, Progress(State(seed, map[]), [], false), lines).failed
    ensures n < |lines|
    ensures var start := Progress(State(seed, map[]), [], false);
            var before, p := DispatchAll(parse, decode, start, lines[..n]), DispatchAll(parse, decode, start, lines);
            && !before.failed
            && p == DispatchAll(parse, decode, start, lines[..n + 1])
            && p.yielded == before.yielded + [Failure(Error, p.state.partial)]
  {
    var start, last := Progress(State(seed, map[]), [], false), |lines| - 1;
    if DispatchAll(parse, decode, start, lines[..last]).failed {
      n := FailureIsLast(parse, decode, seed, lines[..last]);
      assert lines[..last][..n] == lines[..n] && lines[..last][..n + 1] == lines[..n + 1];
    } else {
      n := last;
      assert lines[..n + 1] == lines;
    }
  }

  /** How a stream ends.  If a line failed, the message says so whatever happens to the body after it.
      Otherwise a body that is read to its end adds nothing; one that breaks off adds a failure with
      its error, and a cancelled one an aborted failure, last and with the final message.  The content
      is what the lines made of it. */
  lemma StreamEnds(parse: Parser, decode: Decoder, seed: AssistantMessage, text: string, ending: Ending)
    ensures var lines := DispatchAll(parse, decode, Progress(State(seed, map[]), [], false), LinesOf(text).complete);
            var p := Streamed(parse, decode, seed, text, ending);
            var reason := if ending.Cancelled? then Aborted else Error;
            && p.state.partial.content == lines.state.partial.content
            && (if lines.failed || ending.Exhausted? then p == lines
                else
                  && p.failed && p.yielded == lines.yielded + [Failure(reason, p.state.partial)]
                  && p.state.partial.stopReason == reason
                  && p.state.partial.errorMessage == Some(if ending.Cancelled? then "Aborted" else ending.message))
    ensures var lines := DispatchAll(parse, decode, Progress(State(seed, map[]), [], false), LinesOf(text).complete);
            lines.failed ==>
              && lines.state.partial.stopReason == Error && lines.state.partial.errorMessage.Some?
              && lines.yielded != [] && lines.yielded[|lines.yielded| - 1] == Failure(Error, lines.state.partial)
  {
    var start, lines := Progress(State(seed, map[]), [], false), LinesOf(text).complete;
    if DispatchAll(parse, decode, start, lines).failed {
      var n := FailureIsLast(parse, decode, seed, lines);
      TakeNext(lines, n);
      LineFails(parse, decode, DispatchAll(parse, decode, start, lines[..n]), lines[n]);
    }
  }

  lemma LineFails(parse: Parser, decode: Decoder, p: Progress, line: string)
    requires !p.failed && Dispatch(parse, decode, p, line).failed
    ensures var a := Dispatch(parse, decode, p, line).state.partial;
            a.stopReason == Error && a.errorMessage.Some? && a.content == p.state.partial.content
  {
  }
}
