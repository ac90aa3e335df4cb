/** How wide wrapped lines are, and where the documented bound fails. */
module WrapWidth {
  import opened Types
  import opened Ansi
  import opened Tracker
  import opened Wrap
  import opened WrapTheorems

  predicate NoTabs(xs: Line) {
    forall i :: 0 <= i < |xs| && xs[i].Cell? ==> xs[i].kind != Tab
  }

  predicate CellsFit(xs: Line, width: nat) {
    forall i :: 0 <= i < |xs| ==> Columns(xs[i]) <= width
  }

  /** No run of white space is wider than the line. */
  ghost predicate BlanksFit(xs: Line, width: nat) {
    forall i, j :: 0 <= i <= j <= |xs| && OnlyBlanks(xs[i..j]) ==> VisibleWidth(xs[i..j]) <= width
  }

  ghost predicate Fits(xs: Line, width: nat) {
    NoTabs(xs) && CellsFit(xs, width) && BlanksFit(xs, width)
  }

  ghost predicate AllWithin(lines: seq<Line>, width: nat) {
    forall i :: 0 <= i < |lines| ==> VisibleWidth(lines[i]) <= width
  }

  lemma {:induction false} TrimIsNarrower(xs: Line)
    ensures VisibleWidth(TrimEnd(xs)) <= VisibleWidth(xs)
  {
    if TrimEnd(xs) != xs {
      TrimIsNarrower(xs[..|xs| - 1]);
    }
  }

  lemma ClosedWidth(xs: Line, st: Style)
    ensures VisibleWidth(xs + Reset(st)) == VisibleWidth(xs)
  {
    WidthAppend(xs, Reset(st));
    CodesHaveNoWidth(Reset(st));
  }

  lemma ContinuedWidth(st: Style, xs: Line)
    ensures VisibleWidth(Active(st) + xs) == VisibleWidth(xs)
    ensures VisibleWidth(Active(st)) == 0
  {
    WidthAppend(Active(st), xs);
    CodesHaveNoWidth(Active(st));
  }

  lemma WithinSnoc(lines: seq<Line>, line: Line, width: nat)
    ensures AllWithin(lines + [line], width) <==> AllWithin(lines, width) && VisibleWidth(line) <= width
  {
    if AllWithin(lines + [line], width) {
      assert (lines + [line])[|lines|] == line;
      forall i | 0 <= i < |lines| ensures VisibleWidth(lines[i]) <= width {
        assert (lines + [line])[i] == lines[i];
      }
    }
  }

  // ----- Breaking a long word -----

  lemma {:induction false} BrokenWordIsWithin(word: Line, width: nat, st: Style)
    requires NoTabs(word) && CellsFit(word, width)
    ensures var b := BreakAll(word, width, st);
            AllWithin(b.lines, width) && VisibleWidth(b.current) == b.columns <= width
  {
    if word == [] {
      ContinuedWidth(st, []);
    } else {
      var init, x := word[..|word| - 1], word[|word| - 1];
      var b := BreakAll(init, width, st);
      BrokenWordIsWithin(init, width, st);
      assert (b.current + [x])[..|b.current|] == b.current;
      assert Columns(x) == ClusterColumns(x) && Columns(x) <= width;
      if x.Cell? && b.columns + ClusterColumns(x) > width {
        ClosedWidth(b.current, b.style);
        WithinSnoc(b.lines, b.current + Reset(b.style), width);
        ContinuedWidth(b.style, [x]);
        OneWidth(x);
      }
    }
  }

  // ----- Wrapping one line -----

  ghost predicate Within(w: Wrapping, width: nat) {
    AllWithin(w.lines, width) && VisibleWidth(w.current) == w.visible <= width
  }

  lemma LongIsWithin(w: Wrapping, token: Line, width: nat)
    requires Within(w, width) && NoTabs(token) && CellsFit(token, width) && !OnlyBlanks(token)
    ensures Within(WrapLong(w, token, width), width)
  {
    var closed := if w.current == [] then w.lines else w.lines + [w.current + Reset(w.style)];
    if w.current != [] {
      ClosedWidth(w.current, w.style);
      WithinSnoc(w.lines, w.current + Reset(w.style), width);
    }
    BrokenWordIsWithin(token, width, w.style);
    BrokenWordIsOpen(token, width, w.style);
    var b := BreakAll(token, width, w.style);
    assert Pieces(token, width, w.style) == b.lines + [b.current];
    assert (b.lines + [b.current])[..|b.lines|] == b.lines;
  }

  lemma Wrap1IsWithin(w: Wrapping, token: Line, width: nat)
    requires Within(w, width) && NoTabs(token) && CellsFit(token, width)
    requires OnlyBlanks(token) ==> VisibleWidth(token) <= width
    ensures Within(Wrap1(w, token, width), width)
  {
    var visible := VisibleWidth(token);
    if visible > width && !OnlyBlanks(token) {
      LongIsWithin(w, token, width);
    } else if w.visible + visible > width && w.visible > 0 {
      TrimIsNarrower(w.current);
      ClosedWidth(TrimEnd(w.current), w.style);
      WithinSnoc(w.lines, TrimEnd(w.current) + Reset(w.style), width);
      ContinuedWidth(w.style, token);
    } else {
      WidthAppend(w.current, token);
    }
  }

  lemma TokenFits(xs: Line, width: nat, k: nat)
    requires Fits(xs, width) && k < |Tokens(xs)|
    ensures NoTabs(Tokens(xs)[k]) && CellsFit(Tokens(xs)[k], width)
    ensures OnlyBlanks(Tokens(xs)[k]) ==> VisibleWidth(Tokens(xs)[k]) <= width
  {
    TokensAreTheLine(xs);
    var token := Tokens(xs)[k];
    var start := PieceAt(Tokens(xs), k);
    forall i | 0 <= i < |token| ensures Columns(token[i]) <= width && (token[i].Cell? ==> token[i].kind != Tab) {
      AtOffset(xs, start, token, i);
    }
  }

  lemma {:induction false} WrapAllIsWithin(xs: Line, width: nat, k: nat)
    requires Fits(xs, width) && k <= |Tokens(xs)|
    ensures Within(WrapAll(Tokens(xs)[..k], width), width)
  {
    if k > 0 {
      WrapAllIsWithin(xs, width, k - 1);
      assert Tokens(xs)[..k][..k - 1] == Tokens(xs)[..k - 1];
      TokenFits(xs, width, k - 1);
      Wrap1IsWithin(WrapAll(Tokens(xs)[..k - 1], width), Tokens(xs)[k - 1], width);
    }
  }

  lemma WrappedLineIsWithin(xs: Line, width: nat)
    requires Fits(xs, width)
    ensures AllWithin(WrappedLine(xs, width), width)
  {
    if xs != [] && VisibleWidth(xs) > width {
      var tokens := Tokens(xs);
      WrapAllIsWithin(xs, width, |tokens|);
      assert tokens[..|tokens|] == tokens;
      var lines := Collected(WrapAll(tokens, width));
      forall i | 0 <= i < |lines| ensures VisibleWidth(Trimmed(lines)[i]) <= width {
        TrimIsNarrower(lines[i]);
      }
    }
  }

  // ----- A text -----

  lemma ContinuedFits(codes: seq<string>, line: Line, width: nat)
    requires Fits(line, width)
    ensures Fits(CodeItems(codes) + line, width)
  {
    var prefix := CodeItems(codes);
    var xs := prefix + line;
    forall i, j | 0 <= i <= j <= |xs| && OnlyBlanks(xs[i..j]) ensures VisibleWidth(xs[i..j]) <= width {
      SliceFits(prefix, line, width, i, j);
    }
  }

  lemma BackIsBlank(front: Line, back: Line)
    requires OnlyBlanks(front + back)
    ensures OnlyBlanks(back)
  {
    assert forall k :: 0 <= k < |back| ==> back[k] == (front + back)[|front| + k];
  }

  lemma SliceFits(prefix: Line, line: Line, width: nat, i: nat, j: nat)
    requires OnlyCodes(prefix) && BlanksFit(line, width)
    requires i <= j <= |prefix + line| && OnlyBlanks((prefix + line)[i..j])
    ensures VisibleWidth((prefix + line)[i..j]) <= width
  {
    var xs, n := prefix + line, |prefix|;
    var from, to := if i < n then 0 else i - n, if j < n then 0 else j - n;
    var front, back := prefix[if i < n then i else n..if j < n then j else n], line[from..to];
    assert xs[i..j] == front + back;
    BackIsBlank(front, back);
    WidthAppend(front, back);
    CodesHaveNoWidth(front);
  }

  ghost predicate LinesFit(lines: seq<Line>, width: nat) {
    forall i :: 0 <= i < |lines| ==> Fits(lines[i], width)
  }

  lemma {:induction false} WrappedLinesAreWithin(lines: seq<Line>, width: nat)
    requires LinesFit(lines, width)
    ensures AllWithin(WrappedLines(lines, width), width)
  {
    if lines != [] {
      var init, line := lines[..|lines| - 1], lines[|lines| - 1];
      WrappedLinesAreWithin(init, width);
      assert Fits(line, width);
      if init == [] {
        assert [] + line == line;
      } else {
        ContinuedFits(ActiveCodes(StyleAfter(PLAIN, Together(init))), line, width);
      }
      WrappedLineIsWithin(Prefix(init) + line, width);
    }
  }

  /** Main result: without tabs, with every cluster and every run of white space at most as wide as
      the line, no produced line is wider than `width`. */
  lemma WrappingIsWithin(text: seq<Piece>, width: nat)
    requires LinesFit(InputLines(text), width)
    ensures AllWithin(WrappedText(text, width), width)
  {
    if text != [] {
      WrappedLinesAreWithin(InputLines(text), width);
    }
  }

  // ----- Texts of words and spaces, exactly -----

  /** Words and plain spaces: no codes, no tabs and no other white space. */
  predicate WordsAndSpaces(xs: Line) {
    forall i :: 0 <= i < |xs| ==> xs[i].Cell? && (xs[i].kind == Ink || xs[i].kind == Space)
  }

  predicate InkFits(xs: Line, width: nat) {
    forall i :: 0 <= i < |xs| && xs[i].Cell? && xs[i].kind == Ink ==> xs[i].width <= width
  }

  lemma {:induction false} CellIsNarrower(xs: Line, i: nat)
    requires i < |xs|
    ensures Columns(xs[i]) <= VisibleWidth(xs)
  {
    if i < |xs| - 1 {
      CellIsNarrower(xs[..|xs| - 1], i);
    }
  }

  lemma {:induction false} InkIsViewed(xs: Line, i: nat)
    requires i < |xs| && xs[i].Cell? && xs[i].kind == Ink
    ensures StyledCell(xs[i], PLAIN) in Inked(View(false, PLAIN, xs))
  {
    var n := |xs| - 1;
    if i < n {
      InkIsViewed(xs[..n], i);
    }
    if xs[n].Cell? {
      InkedSnoc(View(false, PLAIN, xs[..n]), StyledCell(xs[n], PLAIN));
    } else {
      AppendEmpty(View(false, PLAIN, xs[..n]));
    }
  }

  lemma InkedSnoc(a: seq<StyledCell>, c: StyledCell)
    ensures Inked(a + [c]) == Inked(a) + (if IsBlank(c.cell) then [] else [c])
  {
    TakeBack(a, c);
  }

  lemma {:induction false} InkedIsThere(a: seq<StyledCell>, c: StyledCell)
    requires c in Inked(a)
    ensures c in a
  {
    var n := |a| - 1;
    if c in Inked(a[..n]) {
      InkedIsThere(a[..n], c);
    }
  }

  lemma {:induction false} ViewedIsThere(xs: Line, c: StyledCell)
    requires c in View(false, PLAIN, xs)
    ensures Columns(c.cell) <= VisibleWidth(xs)
  {
    var n := |xs| - 1;
    if c in View(false, PLAIN, xs[..n]) {
      ViewedIsThere(xs[..n], c);
    }
  }

  lemma {:induction false} ViewedIsOnALine(lines: seq<Line>, c: StyledCell, width: nat)
    requires c in ViewLines(false, lines) && AllWithin(lines, width)
    ensures Columns(c.cell) <= width
  {
    var n := |lines| - 1;
    if c in ViewLines(false, lines[..n]) {
      ViewedIsOnALine(lines[..n], c, width);
    } else {
      ViewedIsThere(lines[n], c);
      assert VisibleWidth(lines[n]) <= width;
    }
  }

  lemma ViewedIsNarrow(xs: Line, i: nat, lines: seq<Line>, width: nat)
    requires i < |xs| && xs[i].Cell? && xs[i].kind == Ink
    requires Inked(View(false, PLAIN, xs)) == Inked(ViewLines(false, lines)) && AllWithin(lines, width)
    ensures xs[i].width <= width
  {
    var c := StyledCell(xs[i], PLAIN);
    InkIsViewed(xs, i);
    InkedIsThere(ViewLines(false, lines), c);
    ViewedIsOnALine(lines, c, width);
  }

  /** Whatever the text: a word cluster wider than the line is on some line, which is then too wide. */
  lemma WideInkIsTooWide(text: seq<Piece>, width: nat)
    requires AllWithin(WrappedText(text, width), width)
    ensures InkFits(PrintedItems(text), width)
  {
    var xs, lines := PrintedItems(text), WrappedText(text, width);
    WrappingKeepsClusters(text, width);
    forall i | 0 <= i < |xs| && xs[i].Cell? && xs[i].kind == Ink ensures xs[i].width <= width {
      ViewedIsNarrow(xs, i, lines, width);
    }
  }

  predicate AllOfKind(xs: Line, kind: Kind) {
    forall i :: 0 <= i < |xs| ==> xs[i].Cell? && xs[i].kind == kind
  }

  predicate Uniform(token: Line) {
    AllOfKind(token, Space) || AllOfKind(token, Ink)
  }

  ghost predicate UniformTokens(t: Tokenizer) {
    && (forall k :: 0 <= k < |t.tokens| ==> Uniform(t.tokens[k]))
    && AllOfKind(t.current, if t.inWhitespace then Space else Ink)
    && t.pending == []
  }

  lemma {:induction false} TokensAreUniform(xs: Line)
    requires WordsAndSpaces(xs)
    ensures UniformTokens(TokenizeAll(xs))
    ensures forall k :: 0 <= k < |Tokens(xs)| ==> Uniform(Tokens(xs)[k])
  {
    if xs != [] {
      TokensAreUniform(xs[..|xs| - 1]);
      AppendEmpty(TokenizeAll(xs[..|xs| - 1]).current);
    }
    AppendEmpty(TokenizeAll(xs).current);
  }

  lemma {:induction false} TrimTwice(xs: Line)
    ensures TrimEnd(TrimEnd(xs)) == TrimEnd(xs)
  {
    if TrimEnd(xs) != xs {
      TrimTwice(xs[..|xs| - 1]);
    }
  }

  lemma {:induction false} TrimSpaces(xs: Line, spaces: Line)
    requires AllOfKind(spaces, Space)
    ensures TrimEnd(xs + spaces) == TrimEnd(xs)
    decreases |spaces|
  {
    if spaces == [] {
      AppendEmpty(xs);
    } else {
      var n := |spaces| - 1;
      assert (xs + spaces)[..|xs + spaces| - 1] == xs + spaces[..n];
      TrimSpaces(xs, spaces[..n]);
    }
  }

  ghost predicate AllWithinTrimmed(lines: seq<Line>, width: nat) {
    forall i :: 0 <= i < |lines| ==> VisibleWidth(TrimEnd(lines[i])) <= width
  }

  /** Trailing spaces aside, every line so far is within the width. */
  ghost predicate WithinTrimmed(w: Wrapping, width: nat) {
    && AllWithinTrimmed(w.lines, width) && VisibleWidth(TrimEnd(w.current)) <= width
    && w.visible == VisibleWidth(w.current) && w.style == PLAIN
  }

  lemma NothingActive()
    ensures Active(PLAIN) == [] && Reset(PLAIN) == []
  {
  }

  lemma {:induction false} InkIsNotBlank(token: Line)
    requires AllOfKind(token, Ink) && token != []
    ensures !OnlyBlanks(token) && NoTabs(token)
    ensures forall width :: InkFits(token, width) ==> CellsFit(token, width)
  {
    assert token[0].kind == Ink;
  }

  lemma PiecesAreWithin(token: Line, width: nat)
    requires AllOfKind(token, Ink) && InkFits(token, width) && token != []
    ensures var pieces, n := Pieces(token, width, PLAIN), |Pieces(token, width, PLAIN)| - 1;
            AllWithin(pieces[..n], width) && VisibleWidth(pieces[n]) <= width
    ensures BreakAll(token, width, PLAIN).style == PLAIN
  {
    var b := BreakAll(token, width, PLAIN);
    InkIsNotBlank(token);
    BrokenWordIsWithin(token, width, PLAIN);
    BrokenWordIsOpen(token, width, PLAIN);
    BrokenWordShows(false, token, width, PLAIN);
    NoCodesNoChange(PLAIN, token);
    TakeBack(b.lines, b.current);
  }

  lemma WithinIsTrimmed(lines: seq<Line>, width: nat)
    requires AllWithin(lines, width)
    ensures AllWithinTrimmed(lines, width)
  {
    forall i | 0 <= i < |lines| ensures VisibleWidth(TrimEnd(lines[i])) <= width {
      TrimIsNarrower(lines[i]);
    }
  }

  lemma TrimmedAppend(a: seq<Line>, b: seq<Line>, width: nat)
    requires AllWithinTrimmed(a, width) && AllWithinTrimmed(b, width)
    ensures AllWithinTrimmed(a + b, width)
  {
  }

  lemma LongIsWithinTrimmed(w: Wrapping, token: Line, width: nat)
    requires WithinTrimmed(w, width) && AllOfKind(token, Ink) && InkFits(token, width) && token != []
    ensures WithinTrimmed(WrapLong(w, token, width), width)
  {
    var pieces := Pieces(token, width, PLAIN);
    var n := |pieces| - 1;
    NothingActive();
    AppendEmpty(w.current);
    PiecesAreWithin(token, width);
    WithinIsTrimmed(pieces[..n], width);
    TrimIsNarrower(pieces[n]);
    var closed := if w.current == [] then w.lines else w.lines + [w.current];
    assert AllWithinTrimmed(closed, width);
    TrimmedAppend(closed, pieces[..n], width);
  }

  lemma BreakIsWithinTrimmed(w: Wrapping, token: Line, width: nat)
    requires WithinTrimmed(w, width) && Uniform(token) && VisibleWidth(token) <= width
    ensures var lines := w.lines + [TrimEnd(w.current) + Reset(w.style)];
            && WithinTrimmed(Wrapping(lines, Active(w.style), 0, w.style), width)
            && WithinTrimmed(Wrapping(lines, Active(w.style) + token, VisibleWidth(token), w.style), width)
  {
    NothingActive();
    AppendEmpty(TrimEnd(w.current));
    TrimTwice(w.current);
    assert [] + token == token;
    TrimIsNarrower(token);
  }

  lemma Wrap1IsWithinTrimmed(w: Wrapping, token: Line, width: nat)
    requires WithinTrimmed(w, width) && Uniform(token) && InkFits(token, width)
    ensures WithinTrimmed(Wrap1(w, token, width), width)
  {
    var visible := VisibleWidth(token);
    NoCodesNoChange(w.style, token);
    if visible > width && !OnlyBlanks(token) {
      LongIsWithinTrimmed(w, token, width);
    } else if w.visible + visible > width && w.visible > 0 {
      if visible <= width {
        BreakIsWithinTrimmed(w, token, width);
      } else {
        BreakIsWithinTrimmed(w, [], width);
      }
    } else {
      WidthAppend(w.current, token);
      if AllOfKind(token, Space) {
        TrimSpaces(w.current, token);
      } else {
        assert token != [] && !OnlyBlanks(token) by { assert token[0].kind == Ink; }
        TrimIsNarrower(w.current + token);
      }
    }
  }

  lemma InkFitsPiece(xs: Line, start: nat, piece: Line, width: nat)
    requires InkFits(xs, width) && start + |piece| <= |xs| && xs[start..start + |piece|] == piece
    ensures InkFits(piece, width)
  {
    forall i | 0 <= i < |piece| && piece[i].Cell? && piece[i].kind == Ink ensures piece[i].width <= width {
      AtOffset(xs, start, piece, i);
    }
  }

  lemma TokenInkFits(xs: Line, width: nat, k: nat)
    requires InkFits(xs, width) && k < |Tokens(xs)|
    ensures InkFits(Tokens(xs)[k], width)
  {
    TokensAreTheLine(xs);
    var start := PieceAt(Tokens(xs), k);
    InkFitsPiece(xs, start, Tokens(xs)[k], width);
  }

  lemma {:induction false} WrapAllIsWithinTrimmed(xs: Line, width: nat, k: nat)
    requires WordsAndSpaces(xs) && InkFits(xs, width) && k <= |Tokens(xs)|
    ensures WithinTrimmed(WrapAll(Tokens(xs)[..k], width), width)
  {
    if k > 0 {
      WrapAllIsWithinTrimmed(xs, width, k - 1);
      TakeNext(Tokens(xs), k - 1);
      TokensAreUniform(xs);
      TokenInkFits(xs, width, k - 1);
      Wrap1IsWithinTrimmed(WrapAll(Tokens(xs)[..k - 1], width), Tokens(xs)[k - 1], width);
    }
  }

  lemma PlainLineIsWithin(xs: Line, width: nat)
    requires WordsAndSpaces(xs) && InkFits(xs, width)
    ensures AllWithin(WrappedLine(xs, width), width)
  {
    if xs != [] && VisibleWidth(xs) > width {
      WrapAllIsWithinTrimmed(xs, width, |Tokens(xs)|);
      TakeAll(Tokens(xs));
      CollectedIsWithin(WrapAll(Tokens(xs), width), width);
    }
  }

  lemma CollectedIsWithin(w: Wrapping, width: nat)
    requires AllWithinTrimmed(w.lines, width) && VisibleWidth(TrimEnd(w.current)) <= width
    ensures AllWithin(Trimmed(Collected(w)), width)
  {
  }

  lemma PlainAppend(a: Line, b: Line, width: nat)
    requires WordsAndSpaces(a + b) && InkFits(a + b, width)
    ensures WordsAndSpaces(a) && InkFits(a, width) && WordsAndSpaces(b) && InkFits(b, width)
  {
    assert forall i :: 0 <= i < |a| ==> a[i] == (a + b)[i];
    assert forall i :: 0 <= i < |b| ==> b[i] == (a + b)[|a| + i];
  }

  /** Nothing is put before a continued line. */
  lemma PlainPrefix(init: seq<Line>, line: Line)
    requires WordsAndSpaces(Together(init))
    ensures Prefix(init) + line == line
  {
    NoCodesNoChange(PLAIN, Together(init));
    NothingActive();
  }

  lemma {:induction false} PlainLinesAreWithin(lines: seq<Line>, width: nat)
    requires WordsAndSpaces(Together(lines)) && InkFits(Together(lines), width)
    ensures AllWithin(WrappedLines(lines, width), width)
  {
    if lines != [] {
      var init, line := lines[..|lines| - 1], lines[|lines| - 1];
      PlainAppend(Together(init), line, width);
      PlainLinesAreWithin(init, width);
      PlainPrefix(init, line);
      PlainLineIsWithin(line, width);
    }
  }

  /** Main result: a text of words and plain spaces is wrapped within the width exactly if each of
      its word clusters is; the spaces do not matter, wherever they stand. */
  lemma WithinExactly(text: seq<Piece>, width: nat)
    requires WordsAndSpaces(PrintedItems(text))
    ensures AllWithin(WrappedText(text, width), width) <==> InkFits(PrintedItems(text), width)
  {
    if AllWithin(WrappedText(text, width), width) {
      WideInkIsTooWide(text, width);
    }
    if InkFits(PrintedItems(text), width) && text != [] {
      LinesAreTheText(text);
      PlainLinesAreWithin(InputLines(text), width);
    }
  }

  // ----- Where it fails -----

  predicate NoSpaces(xs: Line) {
    forall i :: 0 <= i < |xs| ==> xs[i].Cell? && xs[i].kind != Space
  }

  lemma TokenSnoc(xs: Line, x: Item)
    requires x.Cell? && x.kind != Space && TokenizeAll(xs) == Tokenizer([], xs, [], false)
    ensures TokenizeAll(xs + [x]) == Tokenizer([], xs + [x], [], false)
  {
    assert (xs + [x])[..|xs|] == xs;
    assert xs + [] == xs;
  }

  lemma {:induction false} OneRun(xs: Line)
    requires NoSpaces(xs)
    ensures TokenizeAll(xs) == Tokenizer([], xs, [], false)
  {
    if xs != [] {
      var init, x := xs[..|xs| - 1], xs[|xs| - 1];
      OneRun(init);
      TokenSnoc(init, x);
      assert init + [x] == xs;
    }
  }

  lemma OneToken(xs: Line)
    requires NoSpaces(xs) && xs != []
    ensures Tokens(xs) == [xs]
  {
    OneRun(xs);
    assert xs + [] == xs;
  }

  lemma ThreeColumns(x: Item, y: Item, z: Item)
    ensures VisibleWidth([x, y, z]) == Columns(x) + Columns(y) + Columns(z)
  {
    assert [x, y, z][..2] == [x, y] && [x, y][..1] == [x];
    OneWidth(x);
  }

  lemma BrokenTab(a: Item, t: Item)
    requires a.Cell? && a.kind == Ink && a.width == 1 && t.Cell? && t.kind == Tab
    ensures BreakAll([a, t, a], 3, PLAIN) == Breaking([], [a, t, a], 2, PLAIN)
  {
    var line := [a, t, a];
    assert line[..2] == [a, t] && [a, t][..1] == [a] && [a][..0] == [];
    assert ActiveCodes(PLAIN) == [];
    assert BreakAll([a], 3, PLAIN) == Breaking([], [a], 1, PLAIN);
    assert BreakAll([a, t], 3, PLAIN) == Breaking([], [a, t], 1, PLAIN);
  }

  /** A tab counts three columns in the line but none in a broken word. */
  lemma TabBreaksTheBound(a: Item, t: Item)
    requires a.Cell? && a.kind == Ink && a.width == 1 && t.Cell? && t.kind == Tab
    ensures WrappedLine([a, t, a], 3) == [[a, t, a]] && VisibleWidth([a, t, a]) == 5
  {
    var line := [a, t, a];
    ThreeColumns(a, t, a);
    OneToken(line);
    assert !OnlyBlanks(line) by { assert line[0] == a; }
    BrokenTab(a, t);
    WrapSnoc([], line, 3);
    assert [] + [line] == [line];
    assert Pieces(line, 3, PLAIN) == [line];
    assert Trimmed([line]) == [TrimEnd(line)];
  }

  /** A run of white space other than spaces is never broken, however wide. */
  lemma BlankRunBreaksTheBound(blank: Item, width: nat)
    requires blank.Cell? && blank.kind == Blank && blank.width == width + 1
    ensures WrappedLine([blank], width) == [[blank]] && VisibleWidth([blank]) == width + 1
  {
    var line := [blank];
    OneWidth(blank);
    OneToken(line);
    WrapSnoc([], line, width);
    assert [] + [line] == [line];
    assert [] + line == line;
    assert Trimmed([line]) == [TrimEnd(line)];
  }

  lemma OneBlankToken(token: Line, width: nat)
    requires OnlyBlanks(token) && token != []
    ensures Collected(WrapAll([token], width)) == [token]
    ensures Trimmed([token]) == [TrimEnd(token)]
  {
    WrapSnoc([], token, width);
    assert [] + [token] == [token];
    assert [] + token == token;
  }

  lemma SpacesAreOneToken(s: Item, c: Item)
    requires s.Cell? && s.kind == Space && c.Code?
    ensures Tokens([s, s]) == [[s, s]] && Tokens([s, s, c]) == [[s, s, c]]
  {
    assert [s, s][..1] == [s] && [s][..0] == [] && [s, s, c][..2] == [s, s];
    assert TokenizeAll([s]) == Tokenizer([], [s], [], true);
    assert TokenizeAll([s, s]) == Tokenizer([], [s, s], [], true);
    assert TokenizeAll([s, s, c]) == Tokenizer([], [s, s], [c], true);
    AppendEmpty([s, s]);
    assert [s, s] + [c] == [s, s, c];
  }

  lemma TrimmedSpaces(s: Item, c: Item)
    requires s.Cell? && s.kind == Space && c.Code?
    ensures TrimEnd([s, s]) == [] && TrimEnd([s, s, c]) == [s, s, c]
  {
    assert [s, s][..1] == [s] && [s][..0] == [];
    assert TrimEnd([s]) == [];
  }

  /** Plain spaces that are wider than the line are trimmed, but not if a code follows them. */
  lemma SpacesBeforeCodeBreakTheBound(s: Item, c: Item)
    requires s.Cell? && s.kind == Space && s.width == 1 && c.Code?
    ensures WrappedLine([s, s], 1) == [[]]
    ensures WrappedLine([s, s, c], 1) == [[s, s, c]] && VisibleWidth([s, s, c]) == 2
  {
    SpacesAreOneToken(s, c);
    OneBlankToken([s, s], 1);
    OneBlankToken([s, s, c], 1);
    FourColumns(s, s, c, c);
    ThreeColumns(s, s, c);
    TrimmedSpaces(s, c);
  }

  lemma ThreeTokens(a: Item, c: Item, s: Item)
    requires a.Cell? && a.kind == Ink && c.Code? && s.Cell? && s.kind == Space
    ensures Tokens([a, c, s, a]) == [[a], [c, s], [a]]
  {
    var line := [a, c, s, a];
    assert line[..3] == [a, c, s] && [a, c, s][..2] == [a, c] && [a, c][..1] == [a] && [a][..0] == [];
    assert TokenizeAll([a]) == Tokenizer([], [a], [], false);
    assert TokenizeAll([a, c]) == Tokenizer([], [a], [c], false);
    assert TokenizeAll([a, c, s]) == Tokenizer([[a]], [c, s], [], true);
    assert TokenizeAll(line) == Tokenizer([[a], [c, s]], [a], [], false);
    assert [a] + [] == [a];
    assert [[a], [c, s]] + [[a]] == [[a], [c, s], [a]];
  }

  lemma FourColumns(x: Item, y: Item, z: Item, u: Item)
    ensures VisibleWidth([x, y]) == Columns(x) + Columns(y)
    ensures VisibleWidth([x, y, z, u]) == Columns(x) + Columns(y) + Columns(z) + Columns(u)
  {
    assert [x, y, z, u][..3] == [x, y, z] && [x, y][..1] == [x];
    ThreeColumns(x, y, z);
    OneWidth(x);
  }

  lemma WrapSnoc(tokens: seq<Line>, token: Line, width: nat)
    ensures WrapAll(tokens + [token], width) == Wrap1(WrapAll(tokens, width), token, width)
  {
    TakeBack(tokens, token);
  }

  /** A cluster that fits on the empty line. */
  lemma FirstOnLine(lines: seq<Line>, st: Style, a: Item)
    requires a.Cell? && a.kind == Ink && a.width == 1
    ensures Wrap1(Wrapping(lines, [], 0, st), [a], 1) == Wrapping(lines, [a], 1, st)
  {
    OneWidth(a);
    assert StyleAfter(st, [a]) == st by { assert [a][..0] == []; }
    assert [] + [a] == [a];
  }

  /** A space that does not fit is dropped, with the code on it. */
  lemma SpaceDropped(a: Item, c: Item, s: Item)
    requires a.Cell? && a.kind == Ink && c.Code? && s.Cell? && s.kind == Space && s.width == 1
    ensures Wrap1(Wrapping([], [a], 1, PLAIN), [c, s], 1) == Wrapping([[a]], [], 0, StyleAfter(PLAIN, [c, s]))
  {
    FourColumns(c, s, a, a);
    assert OnlyBlanks([c, s]);
    assert TrimEnd([a]) == [a];
    assert Reset(PLAIN) == [] && Active(PLAIN) == [];
    assert [a] + [] == [a];
    assert [] + [[a]] == [[a]];
  }

  lemma DroppedSpace(a: Item, c: Item, s: Item)
    requires a.Cell? && a.kind == Ink && a.width == 1 && c.Code? && s.Cell? && s.kind == Space && s.width == 1
    ensures WrappedLine([a, c, s, a], 1) == [[a], [a]]
  {
    ThreeTokens(a, c, s);
    FourColumns(a, c, s, a);
    FirstOnLine([], PLAIN, a);
    SpaceDropped(a, c, s);
    FirstOnLine([[a]], StyleAfter(PLAIN, [c, s]), a);
    WrapSnoc([], [a], 1);
    WrapSnoc([[a]], [c, s], 1);
    WrapSnoc([[a], [c, s]], [a], 1);
    assert TrimEnd([a]) == [a];
    assert Trimmed([[a], [a]]) == [[a], [a]];
    assert Tokens([a, c, s, a]) == [] + [[a]] + [[c, s]] + [[a]];
  }

  lemma LastView(a: Item, code: string, s: Item)
    requires a.Cell? && s.Cell?
    ensures var view := View(true, PLAIN, [a, Code(code), s, a]);
            |view| == 3 && view[2] == StyledCell(a, Processed(PLAIN, code))
  {
    var c := Code(code);
    assert [a, c, s, a][..3] == [a, c, s] && [a, c, s][..2] == [a, c] && [a, c][..1] == [a] && [a][..0] == [];
    assert StyleAfter(PLAIN, [a]) == PLAIN;
    assert StyleAfter(PLAIN, [a, c]) == Processed(PLAIN, code);
    assert StyleAfter(PLAIN, [a, c, s]) == Processed(PLAIN, code);
    assert |View(true, PLAIN, [a])| == 1;
    assert |View(true, PLAIN, [a, c])| == 1;
    assert |View(true, PLAIN, [a, c, s])| == 2;
  }

  /** An escape code on a space dropped at a line break is lost: what follows loses its style. */
  lemma DroppedSpaceLosesStyle(a: Item, code: string, s: Item)
    requires a.Cell? && a.kind == Ink && a.width == 1 && s.Cell? && s.kind == Space && s.width == 1
    requires Processed(PLAIN, code) != PLAIN
    ensures var line := [a, Code(code), s, a];
            !Thins(View(true, PLAIN, line), ViewLines(true, WrappedLine(line, 1)))
  {
    var line := [a, Code(code), s, a];
    var lines: seq<Line> := [[a], [a]];
    DroppedSpace(a, Code(code), s);
    LastView(a, code, s);
    LastOfTwo(a);
    var out := ViewLines(true, lines);
    assert out[|out| - 1] == StyledCell(a, PLAIN);
  }

  lemma LastOfTwo(a: Item)
    requires a.Cell?
    ensures var out := ViewLines(true, [[a], [a]]);
            out != [] && out[|out| - 1] == StyledCell(a, PLAIN)
  {
    ViewLinesSnoc(true, [[a]], [a]);
    assert [[a]] + [[a]] == [[a], [a]];
    assert [a][..0] == [];
  }
}
