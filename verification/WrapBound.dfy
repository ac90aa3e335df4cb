/** When wrapped lines are within the width, exactly, for texts of words, plain spaces and codes. */
module WrapBound {
  import opened Types
  import opened Tracker
  import opened Wrap
  import opened WrapTheorems
  import opened WrapWidth
  import opened WrapStyle

  /** Words, plain spaces and codes, and every cluster has a width. */
  predicate Solid(xs: Line) {
    forall i :: 0 <= i < |xs| && xs[i].Cell? ==> (xs[i].kind == Ink || xs[i].kind == Space) && xs[i].width > 0
  }

  /** Spaces at the start of a line are never dropped.  They are trimmed as far as no code follows
      them; not at all if the next word is broken up and the codes in them must be closed. */
  predicate HeadFits(xs: Line, width: nat) {
    var tokens := Tokens(xs);
    tokens != [] && OnlyBlanks(tokens[0]) ==>
      if |tokens| > 1 && BrokenUp(tokens[1], width) && Reset(StyleAt(tokens, 1)) != []
      then VisibleWidth(tokens[0]) <= width
      else VisibleWidth(TrimEnd(tokens[0])) <= width
  }

  predicate LineFits(xs: Line, width: nat) {
    InkFits(xs, width) && HeadFits(xs, width)
  }

  // ----- Tokens -----

  lemma SolidPart(xs: Line, start: nat, piece: Line)
    requires Solid(xs) && start + |piece| <= |xs| && xs[start..start + |piece|] == piece
    ensures Solid(piece)
  {
    forall i | 0 <= i < |piece| && piece[i].Cell?
      ensures (piece[i].kind == Ink || piece[i].kind == Space) && piece[i].width > 0
    {
      AtOffset(xs, start, piece, i);
    }
  }

  lemma SolidPiece(xs: Line, k: nat)
    requires Solid(xs) && k < |Tokens(xs)|
    ensures Solid(Tokens(xs)[k])
  {
    TokensAreTheLine(xs);
    var start := PieceAt(Tokens(xs), k);
    SolidPart(xs, start, Tokens(xs)[k]);
  }

  lemma TokensAreSpaced(xs: Line, k: nat)
    requires k < |Tokens(xs)|
    ensures Spaced(Tokens(xs)[k], true) || Spaced(Tokens(xs)[k], false)
  {
    var t := TokenizeAll(xs);
    TokensAlternate(xs);
    TokenizerAlternates(xs);
    SpacedCodes(t.current, t.pending);
    if k + 1 < |Tokens(xs)| {
      assert Opposite(Tokens(xs)[k], Tokens(xs)[k + 1]);
    } else if k > 0 {
      assert Opposite(Tokens(xs)[k - 1], Tokens(xs)[k]);
    }
  }

  /** A word token: its clusters are ink only. */
  lemma WordToken(token: Line, width: nat)
    requires Solid(token) && InkFits(token, width) && !OnlyBlanks(token)
    requires Spaced(token, true) || Spaced(token, false)
    ensures NoTabs(token) && CellsFit(token, width) && HasCell(token)
  {
    var i :| 0 <= i < |token| && token[i].Cell? && !IsBlank(token[i]);
    assert Spaced(token, false);
  }

  /** Blank tokens and words alternate. */
  lemma BlankThenWord(xs: Line, k: nat)
    requires Solid(xs) && k + 1 < |Tokens(xs)|
    ensures OnlyBlanks(Tokens(xs)[k]) <==> !OnlyBlanks(Tokens(xs)[k + 1])
  {
    TokensAlternate(xs);
    SolidPiece(xs, k);
    SolidPiece(xs, k + 1);
    KindOf(Tokens(xs)[k]);
    KindOf(Tokens(xs)[k + 1]);
    assert Opposite(Tokens(xs)[k], Tokens(xs)[k + 1]);
  }

  lemma KindOf(token: Line)
    requires Solid(token) && HasCell(token)
    ensures Spaced(token, true) ==> OnlyBlanks(token)
    ensures Spaced(token, false) ==> !OnlyBlanks(token)
  {
    var i :| 0 <= i < |token| && token[i].Cell?;
    assert Spaced(token, false) ==> !IsBlank(token[i]);
  }

  lemma {:induction false} CellHasWidth(xs: Line)
    requires Solid(xs) && HasCell(xs)
    ensures VisibleWidth(xs) > 0
  {
    var init, x := xs[..|xs| - 1], xs[|xs| - 1];
    if x.Code? {
      assert HasCell(init);
      CellHasWidth(init);
    }
  }

  lemma BrokenHasWidth(b: Breaking, x: Item, width: nat)
    requires x.Cell? ==> x.kind != Tab && x.width > 0
    ensures VisibleWidth(Break1(b, x, width).current) > 0 || (x.Code? && VisibleWidth(b.current) == 0)
  {
    WidthAppend(b.current, [x]);
    WidthAppend(Active(b.style), [x]);
    OneWidth(x);
  }

  lemma {:induction false} LastPieceHasWidth(word: Line, width: nat, st: Style)
    requires Solid(word) && HasCell(word)
    ensures VisibleWidth(BreakAll(word, width, st).current) > 0
  {
    var init, x := word[..|word| - 1], word[|word| - 1];
    if x.Code? {
      assert HasCell(init);
      LastPieceHasWidth(init, width, st);
    }
    BrokenHasWidth(BreakAll(init, width, st), x, width);
  }

  // ----- Enough -----

  /** After the first `k` tokens, at least one: trailing blanks aside all lines fit, and the open line
      fits altogether unless it is the blank head of the line. */
  ghost predicate BoundSoFar(w: Wrapping, tokens: seq<Line>, k: nat, width: nat)
    requires 0 < k <= |tokens|
  {
    && AllWithinTrimmed(w.lines, width)
    && VisibleWidth(w.current) == w.visible && VisibleWidth(TrimEnd(w.current)) <= width
    && (w.visible <= width || (k == 1 && OnlyBlanks(tokens[0]) && w.current == tokens[0] &&
                               w.style == StyleAt(tokens, 1)))
    && (!OnlyBlanks(tokens[k - 1]) ==> w.visible > 0)
  }

  lemma OneMoreTrimmed(lines: seq<Line>, line: Line, width: nat)
    requires AllWithinTrimmed(lines, width) && VisibleWidth(TrimEnd(line)) <= width
    ensures AllWithinTrimmed(lines + [line], width)
  {
  }

  /** A word is broken up behind a line that fits when closed. */
  lemma LongIsBound(w: Wrapping, tokens: seq<Line>, k: nat, width: nat)
    requires k < |tokens| && AllWithinTrimmed(w.lines, width)
    requires w.current != [] ==> VisibleWidth(TrimEnd(w.current + Reset(w.style))) <= width
    requires Solid(tokens[k]) && NoTabs(tokens[k]) && CellsFit(tokens[k], width) && BrokenUp(tokens[k], width) &&
             HasCell(tokens[k])
    ensures BoundSoFar(WrapLong(w, tokens[k], width), tokens, k + 1, width)
  {
    var token := tokens[k];
    var b := BreakAll(token, width, w.style);
    var closed := if w.current == [] then w.lines else w.lines + [w.current + Reset(w.style)];
    if w.current != [] {
      OneMoreTrimmed(w.lines, w.current + Reset(w.style), width);
    }
    BrokenWordIsWithin(token, width, w.style);
    BrokenWordIsOpen(token, width, w.style);
    LastPieceHasWidth(token, width, w.style);
    WithinIsTrimmed(b.lines, width);
    TrimmedAppend(closed, b.lines, width);
    TrimIsNarrower(b.current);
    TakeBack(b.lines, b.current);
  }

  lemma HeadIsBound(xs: Line, width: nat)
    requires Solid(xs) && LineFits(xs, width) && Tokens(xs) != []
    ensures BoundSoFar(WrapAll(Tokens(xs)[..1], width), Tokens(xs), 1, width)
  {
    var tokens := Tokens(xs);
    var token, start := tokens[0], Wrapping([], [], 0, PLAIN);
    SolidPiece(xs, 0);
    TokenInkFits(xs, width, 0);
    TokensAreSpaced(xs, 0);
    TakeNext(tokens, 0);
    assert tokens[..0] == [];
    EmptyThen(token);
    if !OnlyBlanks(token) {
      WordToken(token, width);
      CellHasWidth(token);
    }
    if BrokenUp(token, width) {
      LongIsBound(start, tokens, 0, width);
    } else {
      PrefixTogether(tokens, 0);
      TrimIsNarrower(token);
    }
  }

  lemma NextIsBound(xs: Line, w: Wrapping, k: nat, width: nat)
    requires Solid(xs) && LineFits(xs, width) && 0 < k < |Tokens(xs)| && BoundSoFar(w, Tokens(xs), k, width)
    ensures BoundSoFar(Wrap1(w, Tokens(xs)[k], width), Tokens(xs), k + 1, width)
  {
    var tokens := Tokens(xs);
    var token := tokens[k];
    SolidPiece(xs, k);
    TokenInkFits(xs, width, k);
    TokensAreSpaced(xs, k);
    BlankThenWord(xs, k - 1);
    if !OnlyBlanks(token) {
      WordToken(token, width);
      CellHasWidth(token);
    }
    if BrokenUp(token, width) {
      ClosedFits(xs, w, k, width);
      LongIsBound(w, tokens, k, width);
    } else if w.visible + VisibleWidth(token) > width && w.visible > 0 {
      ClosedWidth(TrimEnd(w.current), w.style);
      TrimIsNarrower(TrimEnd(w.current) + Reset(w.style));
      OneMoreTrimmed(w.lines, TrimEnd(w.current) + Reset(w.style), width);
      ContinuedWidth(w.style, token);
      TrimIsNarrower(Active(w.style));
      TrimIsNarrower(Active(w.style) + token);
    } else {
      WidthAppend(w.current, token);
      TrimIsNarrower(w.current + token);
    }
  }

  lemma ClosedFits(xs: Line, w: Wrapping, k: nat, width: nat)
    requires LineFits(xs, width) && 0 < k < |Tokens(xs)| && BoundSoFar(w, Tokens(xs), k, width)
    requires BrokenUp(Tokens(xs)[k], width)
    ensures VisibleWidth(TrimEnd(w.current + Reset(w.style))) <= width
  {
    ClosedWidth(w.current, w.style);
    TrimIsNarrower(w.current + Reset(w.style));
    AppendEmpty(w.current);
  }

  lemma LastIsBound(xs: Line, width: nat, k: nat)
    requires Solid(xs) && LineFits(xs, width) && 1 < k <= |Tokens(xs)|
    requires BoundSoFar(WrapAll(Tokens(xs)[..k - 1], width), Tokens(xs), k - 1, width)
    ensures BoundSoFar(WrapAll(Tokens(xs)[..k], width), Tokens(xs), k, width)
  {
    TakeNext(Tokens(xs), k - 1);
    NextIsBound(xs, WrapAll(Tokens(xs)[..k - 1], width), k - 1, width);
  }

  lemma {:induction false} WrapAllIsBound(xs: Line, width: nat, k: nat)
    requires Solid(xs) && LineFits(xs, width) && 0 < k <= |Tokens(xs)|
    ensures BoundSoFar(WrapAll(Tokens(xs)[..k], width), Tokens(xs), k, width)
  {
    if k == 1 {
      HeadIsBound(xs, width);
    } else {
      WrapAllIsBound(xs, width, k - 1);
      LastIsBound(xs, width, k);
    }
  }

  lemma FittingLineIsWithin(xs: Line, width: nat)
    requires Solid(xs) && LineFits(xs, width)
    ensures AllWithin(WrappedLine(xs, width), width)
  {
    var tokens := Tokens(xs);
    if xs != [] && VisibleWidth(xs) > width {
      TokensAreTheLine(xs);
      WrapAllIsBound(xs, width, |tokens|);
      TakeAll(tokens);
      CollectedIsWithin(WrapAll(tokens, width), width);
    }
  }

  // ----- Necessary -----

  lemma {:induction false} CodesStopTrimming(xs: Line, codes: Line)
    requires OnlyCodes(codes) && codes != []
    ensures TrimEnd(xs + codes) == xs + codes
  {
    assert (xs + codes)[|xs + codes| - 1] == codes[|codes| - 1];
  }

  /** A blank head wider than the line is put on it all the same. */
  lemma WideHead(tokens: seq<Line>, width: nat)
    requires tokens != [] && OnlyBlanks(tokens[0])
    ensures WrapAll(tokens[..1], width) == Wrapping([], tokens[0], VisibleWidth(tokens[0]), StyleAt(tokens, 1))
  {
    TakeNext(tokens, 0);
    assert tokens[..0] == [];
    EmptyThen(tokens[0]);
    PrefixTogether(tokens, 0);
  }

  /** What stands first among the lines, once the blank head has been followed by another token. */
  lemma HeadLine(head: Line, st: Style, next: Line, width: nat, w: Wrapping)
    requires head != [] && VisibleWidth(head) > width && !OnlyBlanks(next)
    requires w == Wrapping([], head, VisibleWidth(head), st)
    ensures var lines := Wrap1(w, next, width).lines;
            lines != [] && lines[0] == (if BrokenUp(next, width) then head else TrimEnd(head)) + Reset(st)
  {
  }

  /** Closing codes, if there are any, keep what stands before them from being trimmed. */
  lemma ClosedTrim(line: Line, st: Style)
    ensures Reset(st) == [] ==> TrimEnd(line + Reset(st)) == TrimEnd(line)
    ensures Reset(st) != [] ==> VisibleWidth(TrimEnd(line + Reset(st))) == VisibleWidth(line)
  {
    if Reset(st) == [] {
      AppendEmpty(line);
    } else {
      CodesStopTrimming(line, Reset(st));
      ClosedWidth(line, st);
    }
  }

  lemma TrimmedHead(head: Line, st: Style, broken: bool, width: nat)
    requires VisibleWidth(TrimEnd((if broken then head else TrimEnd(head)) + Reset(st))) <= width
    ensures if broken && Reset(st) != [] then VisibleWidth(head) <= width else VisibleWidth(TrimEnd(head)) <= width
  {
    if broken {
      ClosedTrim(head, st);
    } else {
      ClosedTrim(TrimEnd(head), st);
      TrimTwice(head);
    }
  }

  lemma WideHeadIsNeeded(xs: Line, width: nat)
    requires Solid(xs) && AllWithin(WrappedLine(xs, width), width) && xs != [] && VisibleWidth(xs) > width
    requires |Tokens(xs)| > 1 && OnlyBlanks(Tokens(xs)[0]) && VisibleWidth(Tokens(xs)[0]) > width
    ensures HeadFits(xs, width)
  {
    var tokens, st := Tokens(xs), StyleAt(Tokens(xs), 1);
    var w := WrapAll(tokens[..1], width);
    BlankThenWord(xs, 0);
    WideHead(tokens, width);
    HeadLine(tokens[0], st, tokens[1], width, w);
    TakeNext(tokens, 1);
    AllLinesStay(tokens, width, 2, Wrap1(w, tokens[1], width));
    FirstOfTheLines(xs, width);
    TrimmedHead(tokens[0], st, BrokenUp(tokens[1], width), width);
  }

  lemma HeadIsNeeded(xs: Line, width: nat)
    requires Solid(xs) && AllWithin(WrappedLine(xs, width), width) && VisibleWidth(xs) > width
    ensures HeadFits(xs, width)
  {
    var tokens := Tokens(xs);
    TokensAreTheLine(xs);
    if tokens != [] && OnlyBlanks(tokens[0]) {
      TrimIsNarrower(tokens[0]);
      if VisibleWidth(tokens[0]) > width {
        if |tokens| > 1 {
          WideHeadIsNeeded(xs, width);
        } else {
          OnlyHead(xs, width);
        }
      }
    }
  }

  lemma OnlyHead(xs: Line, width: nat)
    requires xs != [] && VisibleWidth(xs) > width && |Tokens(xs)| == 1 && OnlyBlanks(Tokens(xs)[0])
    requires AllWithin(WrappedLine(xs, width), width)
    ensures VisibleWidth(TrimEnd(Tokens(xs)[0])) <= width
  {
    var head := Tokens(xs)[0];
    assert Tokens(xs) == [head];
    TokensAreTheLine(xs);
    OneBlankToken(head, width);
    assert WrappedLine(xs, width)[0] == TrimEnd(head);
  }

  lemma FirstOfTheLines(xs: Line, width: nat)
    requires xs != [] && VisibleWidth(xs) > width && WrapAll(Tokens(xs), width).lines != []
    requires AllWithin(WrappedLine(xs, width), width)
    ensures VisibleWidth(TrimEnd(WrapAll(Tokens(xs), width).lines[0])) <= width
  {
    assert WrappedLine(xs, width)[0] == TrimEnd(WrapAll(Tokens(xs), width).lines[0]);
  }

  lemma InkIsNeeded(xs: Line, width: nat)
    requires AllWithin(WrappedLine(xs, width), width)
    ensures InkFits(xs, width)
  {
    var lines := WrappedLine(xs, width);
    WrappedLineKeeps(false, xs, width);
    ThinsKeepsInk(View(false, PLAIN, xs), ViewLines(false, lines));
    forall i | 0 <= i < |xs| && xs[i].Cell? && xs[i].kind == Ink ensures xs[i].width <= width {
      ViewedIsNarrow(xs, i, lines, width);
    }
  }

  lemma NarrowLineFits(xs: Line, width: nat)
    requires VisibleWidth(xs) <= width
    ensures LineFits(xs, width)
  {
    forall i | 0 <= i < |xs| && xs[i].Cell? && xs[i].kind == Ink ensures xs[i].width <= width {
      CellIsNarrower(xs, i);
    }
    var tokens := Tokens(xs);
    if tokens != [] {
      TokensAreTheLine(xs);
      PrefixTogether(tokens, 0);
      assert tokens[..0] == [];
      EmptyThen(tokens[0]);
      WidthAtGrows(tokens, 1, |tokens|);
      TakeAll(tokens);
      TrimIsNarrower(tokens[0]);
    }
  }

  /** A line of words, spaces and codes is wrapped within the width exactly if it fits. */
  lemma LineWithinExactly(xs: Line, width: nat)
    requires Solid(xs)
    ensures AllWithin(WrappedLine(xs, width), width) <==> LineFits(xs, width)
  {
    if VisibleWidth(xs) <= width {
      NarrowLineFits(xs, width);
    } else if AllWithin(WrappedLine(xs, width), width) {
      InkIsNeeded(xs, width);
      HeadIsNeeded(xs, width);
    }
    if LineFits(xs, width) {
      FittingLineIsWithin(xs, width);
    }
  }

  // ----- A text -----

  /** Every line fits as it is wrapped, with the codes put before it. */
  predicate ContinuedLinesFit(lines: seq<Line>, width: nat) {
    if lines == [] then true
    else
      var init, line := lines[..|lines| - 1], lines[|lines| - 1];
      ContinuedLinesFit(init, width) && LineFits(Prefix(init) + line, width)
  }

  lemma WithinAppend(a: seq<Line>, b: seq<Line>, width: nat)
    ensures AllWithin(a + b, width) <==> AllWithin(a, width) && AllWithin(b, width)
  {
    if AllWithin(a + b, width) {
      forall i | 0 <= i < |a| ensures VisibleWidth(a[i]) <= width { assert (a + b)[i] == a[i]; }
      forall i | 0 <= i < |b| ensures VisibleWidth(b[i]) <= width { assert (a + b)[|a| + i] == b[i]; }
    }
  }

  lemma ContinuedIsSolid(init: seq<Line>, line: Line)
    requires Solid(line)
    ensures Solid(Prefix(init) + line)
  {
    var xs, n := Prefix(init) + line, |Prefix(init)|;
    assert forall i :: 0 <= i < n ==> xs[i].Code?;
    assert forall i :: n <= i < |xs| ==> xs[i] == line[i - n];
  }

  lemma SolidAppend(a: Line, b: Line)
    requires Solid(a + b)
    ensures Solid(a) && Solid(b)
  {
    assert forall i :: 0 <= i < |a| ==> a[i] == (a + b)[i];
    assert forall i :: 0 <= i < |b| ==> b[i] == (a + b)[|a| + i];
  }

  lemma {:induction false} LinesWithinExactly(lines: seq<Line>, width: nat)
    requires Solid(Together(lines))
    ensures AllWithin(WrappedLines(lines, width), width) <==> ContinuedLinesFit(lines, width)
  {
    if lines != [] {
      var init, line := lines[..|lines| - 1], lines[|lines| - 1];
      SolidAppend(Together(init), line);
      LinesWithinExactly(init, width);
      ContinuedIsSolid(init, line);
      LineWithinExactly(Prefix(init) + line, width);
      WithinAppend(WrappedLines(init, width), WrappedLine(Prefix(init) + line, width), width);
    }
  }

  /** Main result, with codes: a text of words, spaces and codes is wrapped within the width exactly if
      every line fits, continued as it is. */
  lemma CodedWithinExactly(text: seq<Piece>, width: nat)
    requires Solid(PrintedItems(text))
    ensures AllWithin(WrappedText(text, width), width) <==> ContinuedLinesFit(InputLines(text), width)
  {
    var lines := InputLines(text);
    LinesAreTheText(text);
    LinesWithinExactly(lines, width);
    if text == [] {
      assert lines == [[]];
      EmptyLineFits(lines, width);
    }
  }

  lemma EmptyLineFits(lines: seq<Line>, width: nat)
    requires lines == [[]]
    ensures ContinuedLinesFit(lines, width)
  {
    NarrowLineFits([], width);
    assert lines[..0] == [] && Prefix([]) + [] == [];
  }
}
