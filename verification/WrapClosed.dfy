/** What a broken line leaves behind for whatever is shown after it, padding for example. */
module WrapClosed {
  import opened Types
  import opened Ansi
  import opened Tracker
  import opened Replay
  import opened Wrap
  import opened WrapTheorems
  import opened WrapWidth
  import opened WrapStyle
  import opened WrapBound

  /** A terminal that showed the line is left without underline and outside any hyperlink. */
  predicate Closed(line: Line) {
    !StyleAfter(PLAIN, line).on.underline && StyleAfter(PLAIN, line).link.None?
  }

  ghost predicate AllClosed(lines: seq<Line>) {
    forall i :: 0 <= i < |lines| ==> Closed(lines[i])
  }

  /** Of underline and hyperlink, what is open in `a` is open in `b`. */
  predicate Covered(a: Style, b: Style) {
    (a.on.underline ==> b.on.underline) && (a.link.Some? ==> b.link.Some?)
  }

  // ----- Styles that cover each other -----

  lemma UnderlineSwitchedOn(on: Switches, n: int)
    ensures SwitchedOn(on, n).underline <==> on.underline || n == 4
  {
    match n {
      case 4 =>
      case 1 | 2 | 3 | 5 | 7 | 8 | 9 =>
      case _ => assert SwitchedOn(on, n) == on;
    }
  }

  lemma UnderlineSwitchedOff(on: Switches, n: int)
    ensures SwitchedOff(on, n).underline <==> on.underline && n != 24
  {
    match n {
      case 24 =>
      case 21 | 22 | 23 | 25 | 27 | 28 | 29 =>
      case _ => assert SwitchedOff(on, n) == on;
    }
  }

  /** What one parameter does to underline and hyperlink. */
  lemma UnderlineAfterOne(st: Style, n: int)
    ensures ApplyOne(st, n).on.underline == (n != 0 && (n == 4 || (st.on.underline && n != 24)))
    ensures ApplyOne(st, n).link == st.link
  {
    UnderlineSwitchedOn(st.on, n);
    UnderlineSwitchedOff(st.on, n);
  }

  lemma FirstCovered(a: Style, b: Style, parts: seq<string>)
    requires parts != [] && (a.on.underline ==> b.on.underline)
    ensures ApplyFirst(a, parts).on.underline ==> ApplyFirst(b, parts).on.underline
    ensures ApplyFirst(a, parts).link == a.link
  {
    var num := ParseI32(parts[0]);
    if num.Some? {
      UnderlineAfterOne(a, num.value);
      UnderlineAfterOne(b, num.value);
    }
  }

  lemma {:induction false} PartsCovered(a: Style, b: Style, parts: seq<string>)
    requires a.on.underline ==> b.on.underline
    ensures ApplyParts(a, parts).on.underline ==> ApplyParts(b, parts).on.underline
    ensures ApplyParts(a, parts).link == a.link
    decreases |parts|
  {
    if parts != [] {
      FirstCovered(a, b, parts);
      PartsCovered(ApplyFirst(a, parts), ApplyFirst(b, parts), parts[Taken(parts)..]);
    }
  }

  lemma ProcessedCovered(a: Style, b: Style, code: string)
    requires Covered(a, b)
    ensures Covered(Processed(a, code), Processed(b, code))
  {
    if ParseOsc8(code).NoLinkCode? && Sgr(code) {
      PartsCovered(a, b, Split(code[2..|code| - 1]));
      PartsCovered(b, b, Split(code[2..|code| - 1]));
    }
  }

  /** The same codes keep one style covered by another. */
  lemma {:induction false} StyleAfterCovered(a: Style, b: Style, xs: Line)
    requires Covered(a, b)
    ensures Covered(StyleAfter(a, xs), StyleAfter(b, xs))
  {
    if xs != [] {
      var init, x := xs[..|xs| - 1], xs[|xs| - 1];
      StyleAfterCovered(a, b, init);
      if x.Code? {
        ProcessedCovered(StyleAfter(a, init), StyleAfter(b, init), x.text);
      }
    }
  }

  /** The closing codes of one style close another exactly if they cover it. */
  lemma ResetClosesCovered(a: Style, b: Style)
    ensures var closed := StyleAfter(a, Reset(b));
            !closed.on.underline && closed.link.None? <==> Covered(a, b)
  {
    CodesShowNothing(true, a, LineEndReset(b));
    UnderlineOff(a);
    if b.link.Some? {
      var close := FormatClose(b.link.value.terminator);
      CloseCode(b.link.value.terminator);
      if b.on.underline {
        assert LineEndReset(b) == [UNDERLINE_OFF, close];
        TwoCodes(a, UNDERLINE_OFF, close);
      } else {
        assert LineEndReset(b) == [close];
        TwoCodes(a, close, []);
      }
    } else if b.on.underline {
      assert LineEndReset(b) == [UNDERLINE_OFF];
      TwoCodes(a, UNDERLINE_OFF, []);
    }
  }

  lemma ClosedIfCovered(line: Line, st: Style)
    ensures Closed(line + Reset(st)) <==> Covered(StyleAfter(PLAIN, line), st)
  {
    StyleAfterAppend(PLAIN, line, Reset(st));
    ResetClosesCovered(StyleAfter(PLAIN, line), st);
  }

  lemma {:induction false} TrimKeepsStyle(st: Style, xs: Line)
    ensures StyleAfter(st, TrimEnd(xs)) == StyleAfter(st, xs)
  {
    if TrimEnd(xs) != xs {
      TrimKeepsStyle(st, xs[..|xs| - 1]);
    }
  }

  // ----- Enough -----

  /** The broken-off lines are closed, and what the open line leaves open is tracked. */
  ghost predicate CoversSoFar(w: Wrapping) {
    AllClosed(w.lines) && StyleOk(w.style) && Covered(StyleAfter(PLAIN, w.current), w.style)
  }

  lemma {:induction false} BrokenWordIsClosed(word: Line, width: nat, st: Style)
    requires StyleOk(st) && CodesOk(word)
    ensures AllClosed(BreakAll(word, width, st).lines)
  {
    if word != [] {
      var init, x := word[..|word| - 1], word[|word| - 1];
      var b := BreakAll(init, width, st);
      BrokenWordIsClosed(init, width, st);
      BrokenWordShows(true, init, width, st);
      if x.Cell? && b.columns + ClusterColumns(x) > width {
        ClosedIfCovered(b.current, b.style);
      }
    }
  }

  lemma LongCovers(w: Wrapping, token: Line, width: nat)
    requires CoversSoFar(w) && CodesOk(token) && !OnlyBlanks(token)
    ensures CoversSoFar(WrapLong(w, token, width))
  {
    var b := BreakAll(token, width, w.style);
    ClosedIfCovered(w.current, w.style);
    BrokenWordIsClosed(token, width, w.style);
    BrokenWordShows(true, token, width, w.style);
    BrokenWordIsOpen(token, width, w.style);
    TakeBack(b.lines, b.current);
  }

  lemma BreakCovers(w: Wrapping)
    requires CoversSoFar(w)
    ensures CoversSoFar(Wrapping(w.lines + [TrimEnd(w.current) + Reset(w.style)], Active(w.style), 0, w.style))
  {
    TrimKeepsStyle(PLAIN, w.current);
    ClosedIfCovered(TrimEnd(w.current), w.style);
    ActiveView(true, w.style);
  }

  lemma AppendCovers(w: Wrapping, token: Line)
    requires CoversSoFar(w) && CodesOk(token)
    ensures CoversSoFar(Wrapping(w.lines, w.current + token, w.visible +
                                 VisibleWidth(token), StyleAfter(w.style, token)))
  {
    StyleAfterAppend(PLAIN, w.current, token);
    StyleAfterCovered(StyleAfter(PLAIN, w.current), w.style, token);
    StyleStaysOk(w.style, token);
  }

  lemma Wrap1Covers(w: Wrapping, token: Line, width: nat)
    requires CoversSoFar(w) && CodesOk(token)
    ensures AllClosed(Wrap1(w, token, width).lines)
    ensures (DroppedNow(w, token, width) ==> Covered(w.style, StyleAfter(w.style, token))) ==>
              CoversSoFar(Wrap1(w, token, width))
  {
    if BrokenUp(token, width) {
      LongCovers(w, token, width);
    } else if w.visible + VisibleWidth(token) > width && w.visible > 0 {
      var next := Wrapping(w.lines + [TrimEnd(w.current) + Reset(w.style)], Active(w.style), 0, w.style);
      BreakCovers(w);
      AppendCovers(next, token);
      ActiveView(true, w.style);
    } else {
      AppendCovers(w, token);
    }
  }

  /** If token `k` is blank and stands behind something visible, it keeps open what is open. */
  predicate KeepsOpen(tokens: seq<Line>, k: nat)
    requires k < |tokens|
  {
    OnlyBlanks(tokens[k]) && WidthAt(tokens, k) > 0 ==> Covered(StyleAt(tokens, k), StyleAt(tokens, k + 1))
  }

  /** So does every token, the last one aside. */
  ghost predicate Covers(xs: Line) {
    forall k :: 0 <= k < |Tokens(xs)| - 1 ==> KeepsOpen(Tokens(xs), k)
  }

  ghost predicate CoversAll(xs: Line) {
    forall k :: 0 <= k < |Tokens(xs)| ==> KeepsOpen(Tokens(xs), k)
  }

  lemma NextCovers(xs: Line, width: nat, k: nat, w: Wrapping)
    requires k < |Tokens(xs)| && CodesOk(xs) && CoversSoFar(w) && w == WrapAll(Tokens(xs)[..k], width)
    ensures AllClosed(Wrap1(w, Tokens(xs)[k], width).lines)
    ensures KeepsOpen(Tokens(xs), k) ==> CoversSoFar(Wrap1(w, Tokens(xs)[k], width))
  {
    TokensAreTheLine(xs);
    CodesOkPieces(Tokens(xs), k);
    WrapAllKeeps(false, xs, width, k);
    WidthAtNext(Tokens(xs), k);
    Wrap1Covers(w, Tokens(xs)[k], width);
  }

  lemma {:induction false} WrapAllCovers(xs: Line, width: nat, k: nat)
    requires k <= |Tokens(xs)| && Covers(xs) && CodesOk(xs)
    ensures AllClosed(WrapAll(Tokens(xs)[..k], width).lines)
    ensures k < |Tokens(xs)| || CoversAll(xs) ==> CoversSoFar(WrapAll(Tokens(xs)[..k], width))
  {
    if k == 0 {
      assert Tokens(xs)[..0] == [];
    } else {
      WrapAllCovers(xs, width, k - 1);
      TakeNext(Tokens(xs), k - 1);
      NextCovers(xs, width, k - 1, WrapAll(Tokens(xs)[..k - 1], width));
    }
  }

  /** Where a line was broken, the broken-off part closes its underline and hyperlink, so that padding
      inherits neither. */
  lemma BrokenLinesAreClosed(xs: Line, width: nat, i: nat)
    requires Covers(xs) && CodesOk(xs)
    requires i < |WrappedLine(xs, width)| - 1
    ensures Closed(WrappedLine(xs, width)[i])
  {
    var tokens := Tokens(xs);
    WrapAllCovers(xs, width, |tokens|);
    TakeAll(tokens);
    TrimKeepsStyle(PLAIN, Collected(WrapAll(tokens, width))[i]);
  }

  /** The line ends closed, and no blank token closes what is open. */
  ghost predicate Closes(xs: Line) {
    Closed(xs) && CoversAll(xs)
  }

  lemma CollectedIsClosed(w: Wrapping)
    requires CoversSoFar(w) && !w.style.on.underline && w.style.link.None?
    ensures AllClosed(Trimmed(Collected(w)))
  {
    var lines := Collected(w);
    forall i | 0 <= i < |lines| ensures Closed(TrimEnd(lines[i])) {
      TrimKeepsStyle(PLAIN, lines[i]);
    }
  }

  /** Then every line it is wrapped into is closed, the last one included. */
  lemma LineIsClosed(xs: Line, width: nat)
    requires Closes(xs) && CodesOk(xs)
    ensures AllClosed(WrappedLine(xs, width))
  {
    var tokens := Tokens(xs);
    if xs != [] && VisibleWidth(xs) > width {
      TokensAreTheLine(xs);
      WrapAllCovers(xs, width, |tokens|);
      TrackedStyle(xs, |tokens|, width);
      TakeAll(tokens);
      CollectedIsClosed(WrapAll(tokens, width));
    }
  }

  lemma TrackedStyle(xs: Line, k: nat, width: nat)
    requires k <= |Tokens(xs)|
    ensures WrapAll(Tokens(xs)[..k], width).style == StyleAt(Tokens(xs), k)
  {
    WrapAllKeeps(false, xs, width, k);
  }

  // ----- Necessary: a line that shows nothing -----

  /** Token `k` is dropped and token `k + 1` is broken up: the codes put on the new line for it are
      a line of their own. */
  lemma DroppedThenBroken(tokens: seq<Line>, k: nat, width: nat, w: Wrapping) returns (next: Wrapping)
    requires k + 1 < |tokens| && w == WrapAll(tokens[..k], width) && w.style == StyleAt(tokens, k)
    requires DroppedNow(w, tokens[k], width) && BrokenUp(tokens[k + 1], width) && Active(w.style) != []
    ensures next == WrapAll(tokens[..k + 2], width)
    ensures var i := |w.lines| + 1;
            && i < |next.lines| && next.lines[i] == Active(StyleAt(tokens, k)) + Reset(StyleAt(tokens, k + 1))
            && i + 1 < |Collected(next)|
  {
    WidthAtNext(tokens, k);
    TakeNext(tokens, k);
    TakeNext(tokens, k + 1);
    BrokenWordIsOpen(tokens[k + 1], width, StyleAt(tokens, k + 1));
    next := WrapAll(tokens[..k + 2], width);
  }

  lemma {:induction false} CodesAreNotTrimmed(xs: Line)
    requires OnlyCodes(xs)
    ensures TrimEnd(xs) == xs
  {
  }

  lemma StrayLineStays(w: Wrapping, next: Wrapping, i: nat, codes: Line)
    requires Extends(w, next) && i < |w.lines| && w.lines[i] == codes && i + 1 < |Collected(w)| && OnlyCodes(codes)
    ensures i < |Collected(next)| - 1 && Trimmed(Collected(next))[i] == codes
  {
    CodesAreNotTrimmed(codes);
  }

  lemma StrayLineIsOpen(st: Style, next: Style)
    requires StyleOk(st) && !Covered(st, next)
    ensures Active(st) != [] && !Closed(Active(st) + Reset(next))
    ensures View(true, PLAIN, Active(st) + Reset(next)) == []
  {
    ActiveView(true, st);
    ClosedIfCovered(Active(st), next);
    CodesAreNotViewed(true, PLAIN, Active(st) + Reset(next));
  }

  lemma StrayAmong(tokens: seq<Line>, k: nat, width: nat, w: Wrapping, codes: Line)
    requires k + 1 < |tokens| && w == WrapAll(tokens[..k], width) && w.style == StyleAt(tokens, k)
    requires DroppedNow(w, tokens[k], width) && BrokenUp(tokens[k + 1], width) && Active(w.style) != []
    requires codes == Active(StyleAt(tokens, k)) + Reset(StyleAt(tokens, k + 1))
    ensures var lines, i := Collected(WrapAll(tokens, width)), |w.lines| + 1;
            i < |lines| - 1 && Trimmed(lines)[i] == codes
  {
    var next := DroppedThenBroken(tokens, k, width, w);
    AllLinesStay(tokens, width, k + 2, next);
    StrayLineStays(next, WrapAll(tokens, width), |w.lines| + 1, codes);
  }

  /** That line shows nothing, and it leaves open what the dropped token closed. */
  lemma StrayLine(xs: Line, k: nat, width: nat) returns (i: nat)
    requires CodesOk(xs) && k + 1 < |Tokens(xs)| && DroppedNow(WrapAll(Tokens(xs)[..k], width), Tokens(xs)[k], width)
    requires BrokenUp(Tokens(xs)[k + 1], width) && !Covered(StyleAt(Tokens(xs), k), StyleAt(Tokens(xs), k + 1))
    requires xs != [] && VisibleWidth(xs) > width
    ensures i == |WrapAll(Tokens(xs)[..k], width).lines| + 1
    ensures i < |WrappedLine(xs, width)| - 1 && !Closed(WrappedLine(xs, width)[i])
    ensures View(true, PLAIN, WrappedLine(xs, width)[i]) == []
  {
    var st, after, w := StyleAt(Tokens(xs), k), StyleAt(Tokens(xs), k + 1), WrapAll(Tokens(xs)[..k], width);
    TokensAreTheLine(xs);
    StyleAtIsOk(Tokens(xs), k);
    TrackedStyle(xs, k, width);
    StrayLineIsOpen(st, after);
    StrayAmong(Tokens(xs), k, width, w, Active(st) + Reset(after));
    i := |w.lines| + 1;
  }

  /** For example at any width at which the tokens before fit on one line but not with the dropped one:
      then it is the second line. */
  lemma StrayLineIsSecond(xs: Line, k: nat, width: nat)
    requires CodesOk(xs) && k + 1 < |Tokens(xs)| && OnlyBlanks(Tokens(xs)[k])
    requires 0 < WidthAt(Tokens(xs), k) <= width < WidthAt(Tokens(xs), k + 1)
    requires BrokenUp(Tokens(xs)[k + 1], width) && !Covered(StyleAt(Tokens(xs), k), StyleAt(Tokens(xs), k + 1))
    ensures 2 < |WrappedLine(xs, width)| && !Closed(WrappedLine(xs, width)[1])
    ensures View(true, PLAIN, WrappedLine(xs, width)[1]) == []
  {
    var tokens := Tokens(xs);
    TokensAreTheLine(xs);
    TakeAll(tokens);
    FirstLine(tokens, k, width);
    WidthAtNext(tokens, k);
    WidthAtGrows(tokens, k + 1, |tokens|);
    var i := StrayLine(xs, k, width);
  }

  lemma WordLeavesWidth(w: Wrapping, word: Line)
    requires Solid(word) && HasCell(word) && BrokenUp(word, 0)
    ensures Wrap1(w, word, 0).visible > 0
  {
    var b := BreakAll(word, 0, w.style);
    BrokenWordIsOpen(word, 0, w.style);
    LastPieceHasWidth(word, 0, w.style);
    TakeBack(b.lines, b.current);
  }

  /** At width 0 every blank token behind a word is dropped. */
  lemma DroppedAtZero(xs: Line, k: nat)
    requires Solid(xs) && 0 < k < |Tokens(xs)| && OnlyBlanks(Tokens(xs)[k])
    ensures DroppedNow(WrapAll(Tokens(xs)[..k], 0), Tokens(xs)[k], 0)
  {
    BlankThenWord(xs, k - 1);
    WordIsBroken(xs, k - 1);
    TakeNext(Tokens(xs), k - 1);
    WordLeavesWidth(WrapAll(Tokens(xs)[..k - 1], 0), Tokens(xs)[k - 1]);
  }

  lemma WordIsBroken(xs: Line, k: nat)
    requires Solid(xs) && k < |Tokens(xs)| && !OnlyBlanks(Tokens(xs)[k])
    ensures Solid(Tokens(xs)[k]) && HasCell(Tokens(xs)[k]) && BrokenUp(Tokens(xs)[k], 0)
  {
    SolidPiece(xs, k);
    CellHasWidth(Tokens(xs)[k]);
  }

  /** Every word is broken up, so that codes put on a new line for one are a line of their own. */
  lemma NotCoveredIsOpen(xs: Line, k: nat) returns (i: nat)
    requires Solid(xs) && CodesOk(xs) && k < |Tokens(xs)| - 1 && !KeepsOpen(Tokens(xs), k)
    ensures i < |WrappedLine(xs, 0)| - 1 && !Closed(WrappedLine(xs, 0)[i])
  {
    var tokens := Tokens(xs);
    TokensAreTheLine(xs);
    TakeAll(tokens);
    assert tokens[..0] == [];
    DroppedAtZero(xs, k);
    BlankThenWord(xs, k);
    WordIsBroken(xs, k + 1);
    WidthAtNext(tokens, k + 1);
    WidthAtGrows(tokens, k + 2, |tokens|);
    i := StrayLine(xs, k, 0);
  }

  /** The codes put on a new line for a word that does not come are the last line. */
  lemma LastDropped(w: Wrapping, token: Line, width: nat)
    requires DroppedNow(w, token, width) && Active(w.style) != []
    ensures var lines := Trimmed(Collected(Wrap1(w, token, width)));
            lines != [] && lines[|lines| - 1] == Active(w.style)
  {
    CodesAreNotTrimmed(Active(w.style));
  }

  lemma LastNotCoveredIsOpen(xs: Line)
    requires Solid(xs) && CodesOk(xs) && Tokens(xs) != [] && !KeepsOpen(Tokens(xs), |Tokens(xs)| - 1)
    ensures var lines := WrappedLine(xs, 0);
            lines != [] && !Closed(lines[|lines| - 1])
  {
    var tokens, k := Tokens(xs), |Tokens(xs)| - 1;
    TokensAreTheLine(xs);
    TakeAll(tokens);
    assert tokens[..0] == [];
    WidthAtGrows(tokens, k, |tokens|);
    DroppedAtZero(xs, k);
    TrackedStyle(xs, k, 0);
    StyleAtIsOk(tokens, k);
    ActiveView(true, StyleAt(tokens, k));
    LastDropped(WrapAll(tokens[..k], 0), tokens[k], 0);
  }

  /** The broken-off lines of a line of words, spaces and codes are closed, at every width, exactly if
      no blank token behind something visible closes what is open, the last one aside. */
  lemma BrokenOffClosedExactly(xs: Line)
    requires Solid(xs) && CodesOk(xs)
    ensures (forall width: nat, i :: 0 <= i < |WrappedLine(xs, width)| - 1 ==> Closed(WrappedLine(xs, width)[i])) <==>
              Covers(xs)
  {
    if Covers(xs) {
      forall width: nat, i | 0 <= i < |WrappedLine(xs, width)| - 1 ensures Closed(WrappedLine(xs, width)[i]) {
        BrokenLinesAreClosed(xs, width, i);
      }
    } else {
      var k :| 0 <= k < |Tokens(xs)| - 1 && !KeepsOpen(Tokens(xs), k);
      var i := NotCoveredIsOpen(xs, k);
    }
  }

  lemma WholeLineOpen(xs: Line)
    requires !Closed(xs)
    ensures !AllClosed(WrappedLine(xs, VisibleWidth(xs)))
  {
    assert WrappedLine(xs, VisibleWidth(xs))[0] == xs;
  }

  lemma DroppedLeavesOpen(xs: Line, k: nat)
    requires Solid(xs) && CodesOk(xs) && k < |Tokens(xs)| && !KeepsOpen(Tokens(xs), k)
    ensures !AllClosed(WrappedLine(xs, 0))
  {
    if k < |Tokens(xs)| - 1 {
      var i := NotCoveredIsOpen(xs, k);
    } else {
      LastNotCoveredIsOpen(xs);
    }
  }

  lemma OpenAtSomeWidth(xs: Line) returns (width: nat)
    requires Solid(xs) && CodesOk(xs) && !Closes(xs)
    ensures !AllClosed(WrappedLine(xs, width))
  {
    if !Closed(xs) {
      width := VisibleWidth(xs);
      WholeLineOpen(xs);
    } else {
      width := 0;
      var k :| 0 <= k < |Tokens(xs)| && !KeepsOpen(Tokens(xs), k);
      DroppedLeavesOpen(xs, k);
    }
  }

  /** Main result: all lines that a line of words, spaces and codes is wrapped into are closed, at every
      width, exactly if the line itself ends closed and no blank token behind something visible closes
      what is open. */
  lemma ClosedExactly(xs: Line)
    requires Solid(xs) && CodesOk(xs)
    ensures (forall width: nat :: AllClosed(WrappedLine(xs, width))) <==> Closes(xs)
  {
    if Closes(xs) {
      forall width: nat ensures AllClosed(WrappedLine(xs, width)) {
        LineIsClosed(xs, width);
      }
    } else {
      var width := OpenAtSomeWidth(xs);
    }
  }

  // ----- A text -----

  /** Every line closes, with the codes put before it. */
  ghost predicate ContinuedLinesClose(lines: seq<Line>) {
    if lines == [] then true
    else
      var init, line := lines[..|lines| - 1], lines[|lines| - 1];
      ContinuedLinesClose(init) && Closes(Prefix(init) + line)
  }

  lemma ClosedAppend(a: seq<Line>, b: seq<Line>)
    ensures AllClosed(a + b) <==> AllClosed(a) && AllClosed(b)
  {
    if AllClosed(a + b) {
      forall i | 0 <= i < |a| ensures Closed(a[i]) { assert (a + b)[i] == a[i]; }
      forall i | 0 <= i < |b| ensures Closed(b[i]) { assert (a + b)[|a| + i] == b[i]; }
    }
  }

  lemma {:induction false} LinesAreClosed(lines: seq<Line>, width: nat)
    requires CodesOk(Together(lines)) && ContinuedLinesClose(lines)
    ensures AllClosed(WrappedLines(lines, width))
  {
    if lines != [] {
      var init, line := lines[..|lines| - 1], lines[|lines| - 1];
      CodesOkAppend(Together(init), line);
      LinesAreClosed(init, width);
      ContinuedView(true, init, line);
      LineIsClosed(Prefix(init) + line, width);
      ClosedAppend(WrappedLines(init, width), WrappedLine(Prefix(init) + line, width));
    }
  }

  lemma LastOfLinesClosed(lines: seq<Line>, width: nat)
    requires lines != [] && AllClosed(WrappedLines(lines, width))
    ensures var n := |lines| - 1;
            AllClosed(WrappedLines(lines[..n], width)) && AllClosed(WrappedLine(Prefix(lines[..n]) + lines[n], width))
  {
    var n := |lines| - 1;
    ClosedAppend(WrappedLines(lines[..n], width), WrappedLine(Prefix(lines[..n]) + lines[n], width));
  }

  lemma LastContinued(lines: seq<Line>)
    requires lines != [] && Solid(Together(lines)) && CodesOk(Together(lines))
    ensures var n := |lines| - 1;
            && Solid(Together(lines[..n])) && CodesOk(Together(lines[..n]))
            && Solid(Prefix(lines[..n]) + lines[n]) && CodesOk(Prefix(lines[..n]) + lines[n])
  {
    var init, line := lines[..|lines| - 1], lines[|lines| - 1];
    SolidAppend(Together(init), line);
    CodesOkAppend(Together(init), line);
    ContinuedIsSolid(init, line);
    ContinuedView(true, init, line);
  }

  /** A width that leaves the last of the lines open, or one of the lines before it. */
  lemma {:induction false} OpenLinesAtSomeWidth(lines: seq<Line>) returns (width: nat)
    requires Solid(Together(lines)) && CodesOk(Together(lines)) && !ContinuedLinesClose(lines)
    ensures !AllClosed(WrappedLines(lines, width))
  {
    var n := |lines| - 1;
    LastContinued(lines);
    if ContinuedLinesClose(lines[..n]) {
      width := OpenAtSomeWidth(Prefix(lines[..n]) + lines[n]);
    } else {
      width := OpenLinesAtSomeWidth(lines[..n]);
    }
    if AllClosed(WrappedLines(lines, width)) {
      LastOfLinesClosed(lines, width);
    }
  }

  /** Enough for any text, whatever its white space. */
  lemma TextIsClosed(text: seq<Piece>, width: nat)
    requires CodesOk(PrintedItems(text)) && ContinuedLinesClose(InputLines(text))
    ensures AllClosed(WrappedText(text, width))
  {
    LinesAreTheText(text);
    if text != [] {
      LinesAreClosed(InputLines(text), width);
    }
  }

  lemma EmptyCloses()
    ensures ContinuedLinesClose(InputLines([]))
  {
    var lines := InputLines([]);
    assert lines == [[]] && lines[..0] == [];
    EmptyThen<Item>([]);
  }

  lemma OpenTextAtSomeWidth(text: seq<Piece>) returns (width: nat)
    requires Solid(PrintedItems(text)) && CodesOk(PrintedItems(text)) && !ContinuedLinesClose(InputLines(text))
    ensures !AllClosed(WrappedText(text, width))
  {
    LinesAreTheText(text);
    EmptyCloses();
    width := OpenLinesAtSomeWidth(InputLines(text));
  }

  /** Main result: all lines that a text of words, spaces and codes is wrapped into are closed, at every
      width, exactly if every input line, continued as it is, closes. */
  lemma TextClosedExactly(text: seq<Piece>)
    requires Solid(PrintedItems(text)) && CodesOk(PrintedItems(text))
    ensures (forall width: nat :: AllClosed(WrappedText(text, width))) <==> ContinuedLinesClose(InputLines(text))
  {
    if ContinuedLinesClose(InputLines(text)) {
      forall width: nat ensures AllClosed(WrappedText(text, width)) {
        TextIsClosed(text, width);
      }
    } else {
      var width := OpenTextAtSomeWidth(text);
    }
  }
}
