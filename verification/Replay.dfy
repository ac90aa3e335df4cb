/** A style printed as escape codes and read by a fresh tracker is the same style. */
module Replay {
  import opened Types
  import opened Ansi
  import opened Tracker

  // ----- What colors and links look like once they have been tracked -----

  /** A parameter without separators or bytes that would end the code early. */
  predicate Clean(part: string) {
    Without(part, ';') && forall i :: 0 <= i < |part| ==> !CsiFinal(part[i])
  }

  predicate AllClean(parts: seq<string>) {
    forall i :: 0 <= i < |parts| ==> Clean(parts[i])
  }

  /** An extended color: 38 or 48 in any spelling, then 5 and an index, or 2 and three channels. */
  predicate Extended(parts: seq<string>, base: int) {
    && |parts| >= 3 && ParseI32(parts[0]) == Some(base)
    && ((|parts| == 3 && parts[1] == "5") || (|parts| == 5 && parts[1] == "2"))
  }

  ghost predicate ColorOk(c: string, foreground: bool) {
    exists parts :: ColorParts(c, parts, foreground)
  }

  predicate ColorParts(c: string, parts: seq<string>, foreground: bool) {
    && parts != [] && AllClean(parts) && c == Join(parts)
    && (Extended(parts, if foreground then 38 else 48) ||
        (|parts| == 1 && ParseI32(c).Some? && ParseI32(c).value >= 0 && c == Print(ParseI32(c).value) &&
         if foreground then BasicFg(ParseI32(c).value) else BasicBg(ParseI32(c).value)))
  }

  predicate LinkOk(link: Hyperlink) {
    ParseOsc8(FormatOpen(link)) == OpenLink(link) && IsCode(FormatOpen(link))
  }

  /** What every tracked style satisfies. */
  ghost predicate StyleOk(st: Style) {
    && (st.fg.Some? ==> ColorOk(st.fg.value, true))
    && (st.bg.Some? ==> ColorOk(st.bg.value, false))
    && (st.link.Some? ==> LinkOk(st.link.value))
  }

  lemma BasicOk(n: int)
    requires BasicFg(n) || BasicBg(n)
    ensures ColorOk(Print(n), BasicFg(n))
  {
    PrintParses(n);
    assert ColorParts(Print(n), [Print(n)], BasicFg(n));
  }

  lemma ColorKeepsOk(st: Style, foreground: bool, color: string)
    requires StyleOk(st) && ColorOk(color, foreground)
    ensures StyleOk(SetColor(st, foreground, color))
  {
  }

  lemma FewerIsOk(st: Style, next: Style)
    requires StyleOk(st)
    requires Fewer(st, next)
    ensures StyleOk(next)
  {
  }

  predicate Fewer(st: Style, next: Style) {
    && (next.fg.Some? ==> next.fg == st.fg)
    && (next.bg.Some? ==> next.bg == st.bg)
    && (next.link.Some? ==> next.link == st.link)
  }

  lemma OneKeepsOk(st: Style, n: int)
    requires StyleOk(st)
    ensures StyleOk(ApplyOne(st, n))
  {
    if BasicFg(n) || BasicBg(n) {
      BasicOk(n);
      ColorKeepsOk(st, BasicFg(n), Print(n));
    } else {
      FewerIsOk(st, ApplyOne(st, n));
    }
  }

  lemma FirstKeepsOk(st: Style, parts: seq<string>)
    requires StyleOk(st) && parts != [] && AllClean(parts)
    ensures StyleOk(ApplyFirst(st, parts))
  {
    var num := ParseI32(parts[0]);
    if num.Some? {
      if Taken(parts) > 1 {
        var taken := parts[..Taken(parts)];
        assert ColorParts(Join(taken), taken, num.value == 38);
        ColorKeepsOk(st, num.value == 38, Join(taken));
      } else {
        OneKeepsOk(st, num.value);
      }
    }
  }

  lemma {:induction false} PartsKeepOk(st: Style, parts: seq<string>)
    requires StyleOk(st) && AllClean(parts)
    ensures StyleOk(ApplyParts(st, parts))
    decreases |parts|
  {
    if parts != [] {
      FirstKeepsOk(st, parts);
      PartsKeepOk(ApplyFirst(st, parts), parts[Taken(parts)..]);
    }
  }

  lemma BodyIsClean(code: string)
    requires IsCode(code) && Sgr(code)
    ensures AllClean(Split(code[2..|code| - 1]))
  {
    var body := code[2..|code| - 1];
    forall c | CsiFinal(c) ensures Without(body, c) {
      forall i | 0 <= i < |body| ensures body[i] != c {
        NoEarlierFinal(code, 2, i + 2);
      }
    }
    SplitParts(body);
    var parts := Split(body);
    forall i, k | 0 <= i < |parts| && 0 <= k < |parts[i]| ensures !CsiFinal(parts[i][k]) {
      assert CsiFinal(parts[i][k]) ==> Without(parts[i], parts[i][k]);
    }
  }

  lemma SgrKeepsOk(st: Style, code: string)
    requires StyleOk(st) && IsCode(code) && Sgr(code)
    ensures StyleOk(ApplySgr(st, code[2..|code| - 1]))
  {
    BodyIsClean(code);
    PartsKeepOk(st, Split(code[2..|code| - 1]));
  }

  lemma LinkKeepsOk(st: Style, link: Option<Hyperlink>)
    requires StyleOk(st) && (link.Some? ==> LinkOk(link.value))
    ensures StyleOk(st.(link := link))
  {
  }

  lemma ProcessedKeepsOk(st: Style, code: string)
    requires StyleOk(st) && IsCode(code)
    ensures StyleOk(Processed(st, code))
  {
    match ParseOsc8(code) {
      case OpenLink(link) =>
        OpenRoundTrip(code);
        LinkKeepsOk(st, Some(link));
      case CloseLink => LinkKeepsOk(st, None);
      case NoLinkCode =>
        if Sgr(code) {
          SgrKeepsOk(st, code);
        }
    }
  }

  predicate AllCodes(codes: seq<string>) {
    forall i :: 0 <= i < |codes| ==> IsCode(codes[i])
  }

  lemma {:induction false} ReachedIsOk(codes: seq<string>)
    requires AllCodes(codes)
    ensures StyleOk(ProcessedAll(PLAIN, codes))
  {
    if codes != [] {
      ReachedIsOk(codes[..|codes| - 1]);
      ProcessedKeepsOk(ProcessedAll(PLAIN, codes[..|codes| - 1]), codes[|codes| - 1]);
    }
  }

  /** Each switch is undone by its own off code: 22 for bold and dim, the code plus 20 for the others;
      39 and 49 undo the colors, and each leaves the rest alone. */
  lemma OffUndoesOn(st: Style, on: int, color: string)
    requires on in {1, 2, 3, 4, 5, 7, 8, 9}
    ensures var off := if on <= 2 then 22 else on + 20;
            && ApplyOne(ApplyOne(st, on), off) == ApplyOne(st, off)
            && ApplyOne(PLAIN, off) == PLAIN && ApplyOne(PLAIN, on) != PLAIN
            && (on > 2 ==> ApplyOne(ApplyOne(PLAIN, on), off) == PLAIN)
    ensures ApplyOne(SetColor(st, true, color), 39) == ApplyOne(st, 39)
    ensures ApplyOne(SetColor(st, false, color), 49) == ApplyOne(st, 49)
    ensures ApplyOne(ApplyOne(st, on), 0) == ApplyOne(st, 0)
  {
  }

  // ----- Replaying the parameters -----

  lemma ShortParameter(code: string, n: nat)
    requires n < 10 && code == [PrintDigit(n)]
    ensures ParseI32(code) == Some(n)
  {
    assert Print(n) == code;
    PrintParses(n);
  }

  lemma DigitsParse()
    ensures ParseI32("1") == Some(1) && ParseI32("2") == Some(2) && ParseI32("3") == Some(3) && ParseI32("4") == Some(4)
    ensures ParseI32("5") == Some(5) && ParseI32("7") == Some(7) && ParseI32("8") == Some(8) && ParseI32("9") == Some(9)
  {
    ShortParameter("1", 1);
    ShortParameter("2", 2);
    ShortParameter("3", 3);
    ShortParameter("4", 4);
    ShortParameter("5", 5);
    ShortParameter("7", 7);
    ShortParameter("8", 8);
    ShortParameter("9", 9);
  }

  /** A switch written as one parameter is read as such, whatever follows. */
  lemma ReadSwitch(st: Style, on: bool, code: string, n: int, next: Style, rest: seq<string>)
    requires ParseI32(code) == Some(n) && n < 10 && next == if on then ApplyOne(st, n) else st
    ensures ApplyParts(st, When(on, code) + rest) == ApplyParts(next, rest)
  {
    var parts := When(on, code) + rest;
    if on {
      assert parts[0] == code && parts[1..] == rest;
    } else {
      assert parts == rest;
    }
  }

  /** So is a color, however many parameters it takes. */
  lemma ReadColor(st: Style, parts: seq<string>, foreground: bool, rest: seq<string>)
    requires ColorParts(Join(parts), parts, foreground)
    ensures ApplyParts(st, parts + rest) == ApplyParts(SetColor(st, foreground, Join(parts)), rest)
  {
    var all := parts + rest;
    assert all[..|parts|] == parts && all[|parts|..] == rest;
  }

  /** The parts of a color, or none. */
  lemma PartsOf(color: Option<string>, foreground: bool) returns (parts: seq<string>)
    requires color.Some? ==> ColorOk(color.value, foreground)
    ensures if color.Some? then ColorParts(color.value, parts, foreground) else parts == []
  {
    parts := [];
    if color.Some? {
      parts :| ColorParts(color.value, parts, foreground);
    }
  }

  /** The first `n` of the eight switches, and nothing else. */
  function Partly(st: Style, n: nat): Style {
    Style(Switches(n > 0 && st.on.bold, n > 1 && st.on.dim, n > 2 && st.on.italic, n > 3 && st.on.underline, n > 4 &&
                   st.on.blink,
          n > 5 && st.on.inverse, n > 6 && st.on.hidden, n > 7 && st.on.strikethrough), None, None, None)
  }

  function LastFour(st: Style, rest: seq<string>): seq<string> {
    When(st.on.blink, "5") + (When(st.on.inverse, "7") +
                              (When(st.on.hidden, "8") + (When(st.on.strikethrough, "9") + rest)))
  }

  function FirstFour(st: Style, rest: seq<string>): seq<string> {
    When(st.on.bold, "1") + (When(st.on.dim, "2") + (When(st.on.italic, "3") + (When(st.on.underline, "4") + rest)))
  }

  lemma ReadMiddleTwo(st: Style, rest: seq<string>)
    ensures ApplyParts(Partly(st, 4), When(st.on.blink, "5") + (When(st.on.inverse, "7") + rest)) ==
            ApplyParts(Partly(st, 6), rest)
  {
    DigitsParse();
    ReadSwitch(Partly(st, 4), st.on.blink, "5", 5, Partly(st, 5), When(st.on.inverse, "7") + rest);
    ReadSwitch(Partly(st, 5), st.on.inverse, "7", 7, Partly(st, 6), rest);
  }

  lemma ReadLastTwo(st: Style, rest: seq<string>)
    ensures ApplyParts(Partly(st, 6), When(st.on.hidden, "8") + (When(st.on.strikethrough, "9") + rest)) ==
            ApplyParts(Partly(st, 8), rest)
  {
    DigitsParse();
    ReadSwitch(Partly(st, 6), st.on.hidden, "8", 8, Partly(st, 7), When(st.on.strikethrough, "9") + rest);
    ReadSwitch(Partly(st, 7), st.on.strikethrough, "9", 9, Partly(st, 8), rest);
  }

  lemma ReadLastFour(st: Style, rest: seq<string>)
    ensures ApplyParts(Partly(st, 4), LastFour(st, rest)) == ApplyParts(Partly(st, 8), rest)
  {
    ReadMiddleTwo(st, When(st.on.hidden, "8") + (When(st.on.strikethrough, "9") + rest));
    ReadLastTwo(st, rest);
  }

  lemma ReadFirstFour(st: Style, rest: seq<string>)
    ensures ApplyParts(PLAIN, FirstFour(st, rest)) == ApplyParts(Partly(st, 4), rest)
  {
    DigitsParse();
    var r4 := When(st.on.underline, "4") + rest;
    var r3 := When(st.on.italic, "3") + r4;
    ReadSwitch(PLAIN, st.on.bold, "1", 1, Partly(st, 1), When(st.on.dim, "2") + r3);
    ReadSwitch(Partly(st, 1), st.on.dim, "2", 2, Partly(st, 2), r3);
    ReadSwitch(Partly(st, 2), st.on.italic, "3", 3, Partly(st, 3), r4);
    ReadSwitch(Partly(st, 3), st.on.underline, "4", 4, Partly(st, 4), rest);
  }

  /** The style but for its link. */
  function Unlinked(st: Style): Style {
    st.(link := None)
  }

  lemma ReadAll(st: Style, fg: seq<string>, bg: seq<string>)
    requires if st.fg.Some? then ColorParts(st.fg.value, fg, true) else fg == []
    requires if st.bg.Some? then ColorParts(st.bg.value, bg, false) else bg == []
    ensures ApplyParts(PLAIN, FirstFour(st, LastFour(st, fg + (bg + [])))) == Unlinked(st)
  {
    var colors := fg + (bg + []);
    ReadFirstFour(st, LastFour(st, colors));
    ReadLastFour(st, colors);
    var s8 := Partly(st, 8);
    var s9 := s8.(fg := st.fg);
    if st.fg.Some? {
      ReadColor(s8, fg, true, bg + []);
    } else {
      assert colors == bg + [];
    }
    if st.bg.Some? {
      ReadColor(s9, bg, false, []);
    } else {
      assert bg + [] == [];
    }
  }

  // ----- Splitting the body of the code -----

  function SplitAll(codes: seq<string>): seq<string> {
    if codes == [] then [] else Split(codes[0]) + SplitAll(codes[1..])
  }

  lemma {:induction false} SplitJoinAll(codes: seq<string>)
    requires codes != []
    ensures Split(Join(codes)) == SplitAll(codes)
  {
    if |codes| > 1 {
      SplitAppend(codes[0], Join(codes[1..]));
      SplitJoinAll(codes[1..]);
    } else {
      assert SplitAll(codes[1..]) == [];
    }
  }

  lemma SplitWhen(on: bool, code: string, rest: seq<string>)
    requires Without(code, ';')
    ensures SplitAll(When(on, code) + rest) == When(on, code) + SplitAll(rest)
  {
    if on {
      assert (When(on, code) + rest)[1..] == rest;
      SplitPlain(code);
    } else {
      assert When(on, code) + rest == rest;
    }
  }

  lemma SplitGiven(code: Option<string>, parts: seq<string>, foreground: bool, rest: seq<string>)
    requires if code.Some? then ColorParts(code.value, parts, foreground) else parts == []
    ensures SplitAll(Given(code) + rest) == parts + SplitAll(rest)
  {
    if code.Some? {
      assert (Given(code) + rest)[1..] == rest;
      SplitJoin(parts);
    } else {
      assert Given(code) + rest == rest;
    }
  }

  lemma SplitFirstFour(st: Style, rest: seq<string>)
    ensures SplitAll(FirstFour(st, rest)) == FirstFour(st, SplitAll(rest))
  {
    var r4 := When(st.on.underline, "4") + rest;
    var r3 := When(st.on.italic, "3") + r4;
    SplitWhen(st.on.underline, "4", rest);
    SplitWhen(st.on.italic, "3", r4);
    SplitWhen(st.on.dim, "2", r3);
    SplitWhen(st.on.bold, "1", When(st.on.dim, "2") + r3);
  }

  lemma SplitLastFour(st: Style, rest: seq<string>)
    ensures SplitAll(LastFour(st, rest)) == LastFour(st, SplitAll(rest))
  {
    var r9 := When(st.on.strikethrough, "9") + rest;
    var r8 := When(st.on.hidden, "8") + r9;
    SplitWhen(st.on.strikethrough, "9", rest);
    SplitWhen(st.on.hidden, "8", r9);
    SplitWhen(st.on.inverse, "7", r8);
    SplitWhen(st.on.blink, "5", When(st.on.inverse, "7") + r8);
  }

  lemma SplitParameters(st: Style, fg: seq<string>, bg: seq<string>)
    requires if st.fg.Some? then ColorParts(st.fg.value, fg, true) else fg == []
    requires if st.bg.Some? then ColorParts(st.bg.value, bg, false) else bg == []
    ensures SplitAll(Parameters(st)) == FirstFour(st, LastFour(st, fg + (bg + [])))
  {
    var colors := Given(st.fg) + Given(st.bg);
    assert Parameters(st) == FirstFour(st, LastFour(st, colors));
    SplitFirstFour(st, LastFour(st, colors));
    SplitLastFour(st, colors);
    SplitGiven(st.fg, fg, true, Given(st.bg));
    assert Given(st.bg) + [] == Given(st.bg);
    SplitGiven(st.bg, bg, false, []);
  }

  // ----- The codes as a whole -----

  /** On a plain style the two spellings of a reset need no special case. */
  lemma SgrFromPlain(body: string)
    ensures ApplySgr(PLAIN, body) == ApplyParts(PLAIN, Split(body))
  {
    if body == [] {
      assert Split(body) == [[]];
    } else if body == "0" {
      ShortParameter("0", 0);
      SplitPlain("0");
    }
  }

  lemma ColorWithoutFinal(color: string, foreground: bool, c: char)
    requires ColorOk(color, foreground) && CsiFinal(c)
    ensures Without(color, c)
  {
    var parts :| ColorParts(color, parts, foreground);
    JoinWithout(parts, c);
  }

  predicate AllWithout(codes: seq<string>, c: char) {
    forall i :: 0 <= i < |codes| ==> Without(codes[i], c)
  }

  lemma WithoutAppend(a: seq<string>, b: seq<string>, c: char)
    requires AllWithout(a, c) && AllWithout(b, c)
    ensures AllWithout(a + b, c)
  {
  }

  lemma WhenWithout(on: bool, code: string, rest: seq<string>, c: char)
    requires Without(code, c) && AllWithout(rest, c)
    ensures AllWithout(When(on, code) + rest, c)
  {
    WithoutAppend(When(on, code), rest, c);
  }

  lemma FirstWithout(st: Style, rest: seq<string>, c: char)
    requires CsiFinal(c) && AllWithout(rest, c)
    ensures AllWithout(FirstFour(st, rest), c)
  {
    var r4 := When(st.on.underline, "4") + rest;
    var r3 := When(st.on.italic, "3") + r4;
    WhenWithout(st.on.underline, "4", rest, c);
    WhenWithout(st.on.italic, "3", r4, c);
    WhenWithout(st.on.dim, "2", r3, c);
    WhenWithout(st.on.bold, "1", When(st.on.dim, "2") + r3, c);
  }

  lemma LastWithout(st: Style, rest: seq<string>, c: char)
    requires CsiFinal(c) && AllWithout(rest, c)
    ensures AllWithout(LastFour(st, rest), c)
  {
    var r9 := When(st.on.strikethrough, "9") + rest;
    var r8 := When(st.on.hidden, "8") + r9;
    WhenWithout(st.on.strikethrough, "9", rest, c);
    WhenWithout(st.on.hidden, "8", r9, c);
    WhenWithout(st.on.inverse, "7", r8, c);
    WhenWithout(st.on.blink, "5", When(st.on.inverse, "7") + r8, c);
  }

  lemma ParametersWithoutFinal(st: Style, c: char)
    requires StyleOk(st) && CsiFinal(c)
    ensures AllWithout(Parameters(st), c)
  {
    var colors := Given(st.fg) + Given(st.bg);
    if st.fg.Some? { ColorWithoutFinal(st.fg.value, true, c); }
    if st.bg.Some? { ColorWithoutFinal(st.bg.value, false, c); }
    WithoutAppend(Given(st.fg), Given(st.bg), c);
    LastWithout(st, colors, c);
    FirstWithout(st, LastFour(st, colors), c);
    assert Parameters(st) == FirstFour(st, LastFour(st, colors));
  }

  lemma ParametersRestore(st: Style)
    requires StyleOk(st) && Parameters(st) != []
    ensures ApplySgr(PLAIN, Join(Parameters(st))) == Unlinked(st)
  {
    var fg := PartsOf(st.fg, true);
    var bg := PartsOf(st.bg, false);
    SplitJoinAll(Parameters(st));
    SplitParameters(st, fg, bg);
    ReadAll(st, fg, bg);
    SgrFromPlain(Join(Parameters(st)));
  }

  lemma SgrCodeBody(parameters: seq<string>)
    ensures var code := SgrCode(parameters);
            Sgr(code) && code[2..|code| - 1] == Join(parameters) && ParseOsc8(code) == NoLinkCode
  {
  }

  /** The printed parameters are one code, which restores everything but the link. */
  lemma SgrRestores(st: Style)
    requires StyleOk(st) && Parameters(st) != []
    ensures IsCode(SgrCode(Parameters(st)))
    ensures Processed(PLAIN, SgrCode(Parameters(st))) == Unlinked(st)
  {
    SgrCodeIsCode(st);
    SgrCodeBody(Parameters(st));
    ParametersRestore(st);
  }

  lemma BodyMakesCode(body: string)
    requires forall c :: CsiFinal(c) ==> Without(body, c)
    ensures IsCode([ESC, '['] + body + ['m'])
  {
    var code := [ESC, '['] + body + ['m'];
    forall k | 2 <= k < |code| - 1 ensures !CsiFinal(code[k]) {
      assert code[k] == body[k - 2];
      assert CsiFinal(code[k]) ==> Without(body, code[k]);
    }
    CsiEndsAt(code, 2);
  }

  lemma SgrCodeIsCode(st: Style)
    requires StyleOk(st)
    ensures IsCode(SgrCode(Parameters(st)))
  {
    forall c | CsiFinal(c) ensures Without(Join(Parameters(st)), c) {
      ParametersWithoutFinal(st, c);
      JoinWithout(Parameters(st), c);
    }
    BodyMakesCode(Join(Parameters(st)));
  }

  lemma TwoCodes(st: Style, a: string, b: string)
    ensures ProcessedAll(st, [a]) == Processed(st, a)
    ensures ProcessedAll(st, [a, b]) == Processed(Processed(st, a), b)
  {
    assert [a][..0] == [] && [a, b][..1] == [a];
  }

  lemma LinkRestores(st: Style)
    requires StyleOk(st) && st.link.Some?
    ensures Processed(Unlinked(st), FormatOpen(st.link.value)) == st && IsCode(FormatOpen(st.link.value))
  {
  }

  /** Main result: the active codes of a tracked style are whole codes, and a fresh tracker that
      processes them arrives at exactly that style. */
  lemma ActiveCodesRestore(st: Style)
    requires StyleOk(st)
    ensures AllCodes(ActiveCodes(st))
    ensures ProcessedAll(PLAIN, ActiveCodes(st)) == st
  {
    var ps, codes := Parameters(st), ActiveCodes(st);
    if ps == [] {
      NothingActive(st);
      if st.link.Some? {
        LinkRestores(st);
        assert codes == [FormatOpen(st.link.value)];
        TwoCodes(PLAIN, codes[0], []);
      }
    } else {
      SgrRestores(st);
      if st.link.Some? {
        LinkRestores(st);
        assert codes == [SgrCode(ps), FormatOpen(st.link.value)];
        TwoCodes(PLAIN, codes[0], codes[1]);
      } else {
        assert codes == [SgrCode(ps)];
        TwoCodes(PLAIN, codes[0], []);
      }
    }
  }

  lemma NothingActive(st: Style)
    requires Parameters(st) == []
    ensures Unlinked(st) == PLAIN
  {
    assert |When(st.on.bold, "1")| == 0 && |When(st.on.dim, "2")| == 0 && |When(st.on.italic, "3")| == 0;
    assert |When(st.on.underline, "4")| == 0 && |When(st.on.blink, "5")| == 0 && |When(st.on.inverse, "7")| == 0;
    assert |When(st.on.hidden, "8")| == 0 && |When(st.on.strikethrough, "9")| == 0;
    assert |Given(st.fg)| == 0 && |Given(st.bg)| == 0;
  }

  lemma ReadCode(st: Style, code: string, rest: string)
    requires IsCode(code)
    ensures AfterText(st, code + rest) == AfterText(Processed(st, code), rest)
  {
    CodeDelimitsItself(code, rest);
    assert (code + rest)[..|code|] == code && (code + rest)[|code|..] == rest;
  }

  lemma {:induction false} ReadCodes(st: Style, codes: seq<string>, rest: string)
    requires AllCodes(codes)
    ensures AfterText(st, Concat(codes) + rest) == AfterText(ProcessedAll(st, codes), rest)
    decreases |codes|
  {
    if codes == [] {
      assert Concat(codes) + rest == rest;
    } else {
      var n := |codes| - 1;
      ReadCodes(st, codes[..n], codes[n] + rest);
      ReadCode(ProcessedAll(st, codes[..n]), codes[n], rest);
      ConcatSnoc(codes[..n], codes[n]);
      assert codes == codes[..n] + [codes[n]];
      Associate(Concat(codes[..n]), codes[n], rest);
    }
  }

  lemma {:induction false} ConcatSnoc(codes: seq<string>, c: string)
    ensures Concat(codes + [c]) == Concat(codes) + c
  {
    if codes == [] {
      assert ([] + [c])[1..] == [];
    } else {
      assert (codes + [c])[1..] == codes[1..] + [c];
      ConcatSnoc(codes[1..], c);
    }
  }

  /** The same for text: whatever codes a tracker went through, reading its active codes brings a
      fresh tracker to the same style. */
  lemma TrackerReplays(codes: seq<string>)
    requires AllCodes(codes)
    ensures var st := ProcessedAll(PLAIN, codes);
            AfterText(PLAIN, Concat(ActiveCodes(st))) == st
  {
    var st := ProcessedAll(PLAIN, codes);
    ReachedIsOk(codes);
    ActiveCodesRestore(st);
    ReadCodes(PLAIN, ActiveCodes(st), []);
    assert Concat(ActiveCodes(st)) + [] == Concat(ActiveCodes(st));
  }

  /** The codes written at the end of a line close the underline and the link, and only those. */
  lemma LineEndResetCloses(st: Style)
    ensures AllCodes(LineEndReset(st))
    ensures ProcessedAll(st, LineEndReset(st)) == Style(st.on.(underline := false), st.fg, st.bg, None)
  {
    UnderlineOff(st);
    var codes := LineEndReset(st);
    if st.link.Some? {
      var close := FormatClose(st.link.value.terminator);
      CloseCode(st.link.value.terminator);
      if st.on.underline {
        assert codes == [UNDERLINE_OFF, close];
        TwoCodes(st, UNDERLINE_OFF, close);
      } else {
        assert codes == [close];
        TwoCodes(st, close, []);
      }
    } else if st.on.underline {
      assert codes == [UNDERLINE_OFF];
      TwoCodes(st, UNDERLINE_OFF, []);
    }
  }

  lemma ReadOne(st: Style, part: string, n: int)
    requires ParseI32(part) == Some(n) && n != 38 && n != 48
    ensures ApplyParts(st, [part]) == ApplyOne(st, n)
  {
    assert [part][1..] == [];
  }

  lemma PrintTwentyFour()
    ensures ParseI32("24") == Some(24) && Split("24") == ["24"]
  {
    assert Print(2) == [PrintDigit(2)];
    assert Print(24) == [PrintDigit(2)] + [PrintDigit(4)];
    assert Print(24) == "24";
    PrintParses(24);
    SplitPlain("24");
  }

  lemma UnderlineOff(st: Style)
    ensures IsCode(UNDERLINE_OFF) && Processed(st, UNDERLINE_OFF) == st.(on := st.on.(underline := false))
  {
    CsiEndsAt(UNDERLINE_OFF, 2);
    assert UNDERLINE_OFF[2..4] == "24";
    PrintTwentyFour();
    ReadOne(st, "24", 24);
  }

  /** A code of one parameter does what the parameter says. */
  lemma OneParameter(st: Style, n: nat)
    requires n < 200 && n != 38 && n != 48
    ensures Processed(st, SgrCode([Print(n)])) == ApplyOne(st, n)
  {
    PrintParses(n);
    SgrCodeBody([Print(n)]);
    assert Join([Print(n)]) == Print(n);
    SplitPlain(Print(n));
    ReadOne(st, Print(n), n);
    ZeroResets(st, n);
  }

  lemma ZeroResets(st: Style, n: nat)
    requires n < 200
    ensures Print(n) == "0" ==> n == 0
    ensures Print(n) != []
  {
    PrintParses(n);
    PrintParses(0);
    assert Print(0) == [PrintDigit(0)] == "0";
  }

  /** The basic colors, as codes: 30 to 37 and 90 to 97 set the foreground, nothing else, and are undone
      by 39; 40 to 47 and 100 to 107 set the background, nothing else, and are undone by 49. */
  lemma BasicColors(st: Style, n: nat)
    requires 30 <= n <= 37 || 90 <= n <= 97 || 40 <= n <= 47 || 100 <= n <= 107
    ensures var next := Processed(st, SgrCode([Print(n)]));
            if 30 <= n <= 37 || 90 <= n <= 97
            then next == st.(fg := Some(Print(n))) && Processed(next, SgrCode([Print(39)])) == st.(fg := None) &&
                 Processed(next, SgrCode([Print(49)])) == next.(bg := None)
            else next == st.(bg := Some(Print(n))) && Processed(next, SgrCode([Print(49)])) == st.(bg := None) &&
                 Processed(next, SgrCode([Print(39)])) == next.(fg := None)
  {
    OneParameter(st, n);
    OneParameter(ApplyOne(st, n), 39);
    OneParameter(ApplyOne(st, n), 49);
  }
}
