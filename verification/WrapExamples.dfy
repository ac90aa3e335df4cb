/** Texts whose wrapped lines are left with underline on. */
module WrapExamples {
  import opened Types
  import opened Ansi
  import opened Tracker
  import opened Replay
  import opened Wrap
  import opened WrapTheorems
  import opened WrapWidth
  import opened WrapStyle
  import opened WrapBound
  import opened WrapClosed

  const UNDERLINE_ON: string := [ESC, '[', '4', 'm']
  const UNDERLINED: Style := PLAIN.(on := ALL_OFF.(underline := true))

  lemma UnderlineCodes()
    ensures IsCode(UNDERLINE_ON) && IsCode(UNDERLINE_OFF)
    ensures Processed(PLAIN, UNDERLINE_ON) == UNDERLINED && Processed(UNDERLINED, UNDERLINE_OFF) == PLAIN
    ensures ActiveCodes(UNDERLINED) == [UNDERLINE_ON] && LineEndReset(UNDERLINED) == [UNDERLINE_OFF]
  {
    assert Parameters(UNDERLINED) == ["4"];
    assert SgrCode(["4"]) == UNDERLINE_ON;
    ActiveCodesRestore(UNDERLINED);
    assert [UNDERLINE_ON][..0] == [];
    UnderlineOff(UNDERLINED);
  }

  lemma UnderlineItems()
    ensures Active(UNDERLINED) == [Code(UNDERLINE_ON)] && Reset(UNDERLINED) == [Code(UNDERLINE_OFF)]
    ensures Active(PLAIN) == [] && Reset(PLAIN) == []
  {
    UnderlineCodes();
  }

  predicate Letter(x: Item) {
    x.Cell? && x.kind == Ink && x.width == 1
  }

  lemma OpenWord(a: Item)
    requires Letter(a)
    ensures StyleAfter(PLAIN, [Code(UNDERLINE_ON), a]) == UNDERLINED && VisibleWidth([Code(UNDERLINE_ON), a]) == 1
    ensures !Closed([Code(UNDERLINE_ON), a]) && !Closed([Code(UNDERLINE_ON)])
  {
    var u := Code(UNDERLINE_ON);
    UnderlineCodes();
    FourColumns(u, a, a, a);
    assert [u, a][..1] == [u] && [u][..0] == [];
    assert StyleAfter(PLAIN, [u]) == UNDERLINED;
  }

  /** A line that is not broken is left as it is, underline and all. */
  lemma UnbrokenLineStaysOpen(a: Item, width: nat)
    requires Letter(a) && width > 0
    ensures var line := [Code(UNDERLINE_ON), a];
            Solid(line) && CodesOk(line) && WrappedLine(line, width) == [line] && !Closed(line)
  {
    OpenWord(a);
    UnderlineCodes();
  }

  lemma WrappedPair(first: Line, second: Line, width: nat)
    ensures WrappedLines([first, second], width) ==
            WrappedLine(first, width) + WrappedLine(Active(StyleAfter(PLAIN, first)) + second, width)
  {
    var one, both: seq<Line> := [first], [first, second];
    assert both[..1] == one && one[..0] == [];
    EmptyThen(first);
    EmptyThen(WrappedLine(first, width));
    assert WrappedLines(one, width) == WrappedLine(first, width);
    assert Together(one) == first;
  }

  /** So underline is open where a line break stands in underlined text, before it and after it. */
  lemma NewlineLeavesOpen(a: Item, width: nat)
    requires Letter(a) && width > 0
    ensures var line := [Code(UNDERLINE_ON), a];
            && WrappedText([Printed(Code(UNDERLINE_ON)), Printed(a), LineFeed, Printed(a)], width) == [line, line]
            && !Closed(line)
  {
    var line := [Code(UNDERLINE_ON), a];
    TwoInputLines(Code(UNDERLINE_ON), a);
    WrappedPair(line, [a], width);
    OpenWord(a);
    UnderlineItems();
    UnbrokenLineStaysOpen(a, width);
    assert [Code(UNDERLINE_ON)] + [a] == line;
    assert [line] + [line] == [line, line];
  }

  lemma OneMorePrinted(init: seq<Piece>, before: seq<Line>, line: Line, x: Item)
    requires InputLines(init) == before + [line]
    ensures InputLines(init + [Printed(x)]) == before + [line + [x]]
  {
    TakeBack(init, Printed(x));
    TakeBack(before, line);
  }

  lemma TwoInputLines(u: Item, a: Item)
    ensures InputLines([Printed(u), Printed(a), LineFeed, Printed(a)]) == [[u, a], [a]]
  {
    var none: seq<Line>, two := [], [Printed(u), Printed(a)];
    EmptyThen([Printed(u)]);
    OneMorePrinted([], none, [], u);
    EmptyThen([u]);
    assert none + [[u]] == [[u]];
    OneMorePrinted([Printed(u)], none, [u], a);
    assert [Printed(u)] + [Printed(a)] == two && [u] + [a] == [u, a];
    assert InputLines(two) == [[u, a]];
    TakeBack(two, LineFeed);
    assert InputLines(two + [LineFeed]) == [[u, a]] + [[]];
    OneMorePrinted(two + [LineFeed], [[u, a]], [], a);
    assert [] + [a] == [a] && [[u, a]] + [[a]] == [[u, a], [a]];
    assert two + [LineFeed] + [Printed(a)] == [Printed(u), Printed(a), LineFeed, Printed(a)];
  }

  /** Underlined letter, and a space that switches underline off. */
  function UnderlinedThenSpace(a: Item, s: Item): Line {
    [Code(UNDERLINE_ON), a, Code(UNDERLINE_OFF), s]
  }

  lemma TokensOfExample(a: Item, s: Item)
    requires Letter(a) && s.Cell? && s.kind == Space
    ensures TokenizeAll(UnderlinedThenSpace(a, s)) ==
            Tokenizer([[Code(UNDERLINE_ON), a]], [Code(UNDERLINE_OFF), s], [], true)
    ensures Tokens(UnderlinedThenSpace(a, s)) == [[Code(UNDERLINE_ON), a], [Code(UNDERLINE_OFF), s]]
  {
    var u, o, xs := Code(UNDERLINE_ON), Code(UNDERLINE_OFF), UnderlinedThenSpace(a, s);
    assert xs[..3] == [u, a, o] && [u, a, o][..2] == [u, a] && [u, a][..1] == [u] && [u][..0] == [];
    assert TokenizeAll([u]) == Tokenizer([], [], [u], false);
    assert TokenizeAll([u, a]) == Tokenizer([], [u, a], [], false);
    assert TokenizeAll([u, a, o]) == Tokenizer([], [u, a], [o], false);
    AppendEmpty([o, s]);
  }

  lemma WrapWord(a: Item)
    requires Letter(a)
    ensures WrapAll([[Code(UNDERLINE_ON), a]], 1) == Wrapping([], [Code(UNDERLINE_ON), a], 1, UNDERLINED)
  {
    OpenWord(a);
    WrapSnoc([], [Code(UNDERLINE_ON), a], 1);
    EmptyThen([[Code(UNDERLINE_ON), a]]);
    EmptyThen([Code(UNDERLINE_ON), a]);
  }

  lemma BlankAfterWord(s: Item)
    requires s.Cell? && s.kind == Space && s.width == 1
    ensures var blank := [Code(UNDERLINE_OFF), s];
            StyleAfter(UNDERLINED, blank) == PLAIN && VisibleWidth(blank) == 1 && OnlyBlanks(blank)
  {
    var o := Code(UNDERLINE_OFF);
    UnderlineCodes();
    FourColumns(o, s, s, s);
    assert [o, s][..1] == [o] && [o][..0] == [];
    assert StyleAfter(UNDERLINED, [o]) == PLAIN;
  }

  lemma WrapBlank(a: Item, s: Item)
    requires Letter(a) && s.Cell? && s.kind == Space && s.width == 1
    ensures var u, o := Code(UNDERLINE_ON), Code(UNDERLINE_OFF);
            WrapAll([[u, a], [o, s]], 1) == Wrapping([[u, a, o]], [u], 0, PLAIN)
  {
    var u, o := Code(UNDERLINE_ON), Code(UNDERLINE_OFF);
    WrapWord(a);
    BlankAfterWord(s);
    UnderlineItems();
    WrapSnoc([[u, a]], [o, s], 1);
    assert [[u, a]] + [[o, s]] == [[u, a], [o, s]];
    assert TrimEnd([u, a]) == [u, a];
    assert [u, a] + [o] == [u, a, o];
    EmptyThen([[u, a, o]]);
  }

  /** None of these lines has anything to trim. */
  lemma NothingToTrim(a: Item)
    requires Letter(a)
    ensures var first, stray := [Code(UNDERLINE_ON), a, Code(UNDERLINE_OFF)], [Code(UNDERLINE_ON)];
            Trimmed([first, stray]) == [first, stray] && Trimmed([first, stray, [a], [a]]) == [first, stray, [a], [a]]
  {
  }

  lemma WrappedAs(xs: Line, width: nat, tokens: seq<Line>, lines: seq<Line>)
    requires xs != [] && VisibleWidth(xs) > width && Tokens(xs) == tokens
    requires Collected(WrapAll(tokens, width)) == lines != [] && Trimmed(lines) == lines
    ensures WrappedLine(xs, width) == lines
  {
  }

  lemma ExampleIsFine(a: Item, s: Item)
    requires Letter(a) && s.Cell? && s.kind == Space && s.width == 1
    ensures var xs := UnderlinedThenSpace(a, s);
            StyleAfter(PLAIN, xs) == PLAIN && VisibleWidth(xs) == 2
  {
    var word, blank := [Code(UNDERLINE_ON), a], [Code(UNDERLINE_OFF), s];
    OpenWord(a);
    BlankAfterWord(s);
    assert word + blank == UnderlinedThenSpace(a, s);
    StyleAfterAppend(PLAIN, word, blank);
    WidthAppend(word, blank);
  }

  lemma ExampleIsSolid(a: Item, s: Item)
    requires Letter(a) && s.Cell? && s.kind == Space && s.width == 1
    ensures Solid(UnderlinedThenSpace(a, s)) && CodesOk(UnderlinedThenSpace(a, s))
  {
    UnderlineCodes();
  }

  lemma LinesOfExample(a: Item, s: Item)
    requires Letter(a) && s.Cell? && s.kind == Space && s.width == 1
    ensures var u, o := Code(UNDERLINE_ON), Code(UNDERLINE_OFF);
            WrappedLine(UnderlinedThenSpace(a, s), 1) == [[u, a, o], [u]]
  {
    var u, o := Code(UNDERLINE_ON), Code(UNDERLINE_OFF);
    ExampleIsFine(a, s);
    TokensOfExample(a, s);
    WrapBlank(a, s);
    NothingToTrim(a);
    assert [[u, a, o]] + [[u]] == [[u, a, o], [u]];
    WrappedAs(UnderlinedThenSpace(a, s), 1, [[u, a], [o, s]], [[u, a, o], [u]]);
  }

  /** A trailing space that switches underline off and is dropped leaves a last line that shows nothing
      and has underline on, although the line itself ends without. */
  lemma DroppedTrailingSpace(a: Item, s: Item)
    requires Letter(a) && s.Cell? && s.kind == Space && s.width == 1
    ensures var u, o, xs := Code(UNDERLINE_ON), Code(UNDERLINE_OFF), UnderlinedThenSpace(a, s);
            && Solid(xs) && CodesOk(xs) && Closed(xs)
            && WrappedLine(xs, 1) == [[u, a, o], [u]] && !Closed([u])
  {
    ExampleIsSolid(a, s);
    ExampleIsFine(a, s);
    LinesOfExample(a, s);
    OpenWord(a);
  }

  lemma TokensOfLongerExample(a: Item, s: Item)
    requires Letter(a) && s.Cell? && s.kind == Space
    ensures Tokens(UnderlinedThenSpace(a, s) + [a, a]) == [[Code(UNDERLINE_ON), a], [Code(UNDERLINE_OFF), s], [a, a]]
  {
    var u, o, xs := Code(UNDERLINE_ON), Code(UNDERLINE_OFF), UnderlinedThenSpace(a, s);
    TokensOfExample(a, s);
    assert (xs + [a, a])[..5] == xs + [a] && (xs + [a])[..4] == xs;
    assert TokenizeAll(xs + [a]) == Tokenizer([[u, a], [o, s]], [a], [], false);
    assert TokenizeAll(xs + [a, a]) == Tokenizer([[u, a], [o, s]], [a, a], [], false);
    AppendEmpty([a, a]);
    assert [[u, a], [o, s]] + [[a, a]] == [[u, a], [o, s], [a, a]];
  }

  lemma PiecesOfTwo(a: Item)
    requires Letter(a)
    ensures Pieces([a, a], 1, PLAIN) == [[a], [a]] && BreakAll([a, a], 1, PLAIN).style == PLAIN
    ensures VisibleWidth([a]) == 1 && VisibleWidth([a, a]) == 2 && !OnlyBlanks([a, a])
  {
    UnderlineItems();
    assert [a, a][..1] == [a] && [a][..0] == [];
    assert BreakAll([a], 1, PLAIN) == Breaking([], [a], 1, PLAIN);
    AppendEmpty([a]);
    assert BreakAll([a, a], 1, PLAIN) == Breaking([[a]], [a], 1, PLAIN);
    assert [a, a][0] == a;
  }

  lemma WrapTwo(a: Item)
    requires Letter(a)
    ensures var u, o := Code(UNDERLINE_ON), Code(UNDERLINE_OFF);
            Wrap1(Wrapping([[u, a, o]], [u], 0, PLAIN), [a, a], 1) == Wrapping([[u, a, o], [u], [a]], [a], 1, PLAIN)
  {
    var u, o := Code(UNDERLINE_ON), Code(UNDERLINE_OFF);
    PiecesOfTwo(a);
    UnderlineItems();
    AppendEmpty([u]);
    assert [[u, a, o]] + [[u]] + [[a]] == [[u, a, o], [u], [a]];
  }

  lemma WrapLongerExample(a: Item, s: Item)
    requires Letter(a) && s.Cell? && s.kind == Space && s.width == 1
    ensures var u, o := Code(UNDERLINE_ON), Code(UNDERLINE_OFF);
            Collected(WrapAll([[u, a], [o, s], [a, a]], 1)) == [[u, a, o], [u], [a], [a]]
  {
    var u, o := Code(UNDERLINE_ON), Code(UNDERLINE_OFF);
    WrapBlank(a, s);
    WrapTwo(a);
    WrapSnoc([[u, a], [o, s]], [a, a], 1);
    assert [[u, a], [o, s]] + [[a, a]] == [[u, a], [o, s], [a, a]];
    assert [[u, a, o], [u], [a]] + [[a]] == [[u, a, o], [u], [a], [a]];
  }

  lemma LinesOfLongerExample(a: Item, s: Item)
    requires Letter(a) && s.Cell? && s.kind == Space && s.width == 1
    ensures var u, o, xs := Code(UNDERLINE_ON), Code(UNDERLINE_OFF), UnderlinedThenSpace(a, s) + [a, a];
            WrappedLine(xs, 1) == [[u, a, o], [u], [a], [a]]
  {
    var u, o, xs := Code(UNDERLINE_ON), Code(UNDERLINE_OFF), UnderlinedThenSpace(a, s) + [a, a];
    ExampleIsFine(a, s);
    WidthAppend(UnderlinedThenSpace(a, s), [a, a]);
    TokensOfLongerExample(a, s);
    WrapLongerExample(a, s);
    NothingToTrim(a);
    WrappedAs(xs, 1, [[u, a], [o, s], [a, a]], [[u, a, o], [u], [a], [a]]);
  }

  /** Underlined letter, a space that switches underline off, and a word that is broken up: the second of
      the four lines shows nothing and has underline on. */
  lemma DroppedSpaceBeforeBrokenWord(a: Item, s: Item)
    requires Letter(a) && s.Cell? && s.kind == Space && s.width == 1
    ensures var u, o, xs := Code(UNDERLINE_ON), Code(UNDERLINE_OFF), UnderlinedThenSpace(a, s) + [a, a];
            && WrappedLine(xs, 1) == [[u, a, o], [u], [a], [a]]
            && !Closed(WrappedLine(xs, 1)[1]) && View(true, PLAIN, WrappedLine(xs, 1)[1]) == []
  {
    LinesOfLongerExample(a, s);
    StrayLineOfExample(a, s);
  }

  lemma FirstTwo(tokens: seq<Line>)
    requires |tokens| >= 2
    ensures StyleAt(tokens, 1) == StyleAfter(PLAIN, tokens[0])
    ensures StyleAt(tokens, 2) == StyleAfter(StyleAfter(PLAIN, tokens[0]), tokens[1])
    ensures WidthAt(tokens, 1) == VisibleWidth(tokens[0])
    ensures WidthAt(tokens, 2) == VisibleWidth(tokens[0]) + VisibleWidth(tokens[1])
  {
    assert tokens[..0] == [];
    WidthAtNext(tokens, 0);
    WidthAtNext(tokens, 1);
  }

  lemma StylesOfLongerExample(a: Item, s: Item)
    requires Letter(a) && s.Cell? && s.kind == Space && s.width == 1
    ensures var tokens: seq<Line> := [[Code(UNDERLINE_ON), a], [Code(UNDERLINE_OFF), s], [a, a]];
            && StyleAt(tokens, 1) == UNDERLINED && StyleAt(tokens, 2) == PLAIN
            && WidthAt(tokens, 1) == 1 && WidthAt(tokens, 2) == 2
            && OnlyBlanks(tokens[1]) && BrokenUp(tokens[2], 1)
  {
    var tokens: seq<Line> := [[Code(UNDERLINE_ON), a], [Code(UNDERLINE_OFF), s], [a, a]];
    FirstTwo(tokens);
    OpenWord(a);
    BlankAfterWord(s);
    PiecesOfTwo(a);
  }

  lemma StrayLineOfExample(a: Item, s: Item)
    requires Letter(a) && s.Cell? && s.kind == Space && s.width == 1
    ensures var xs := UnderlinedThenSpace(a, s) + [a, a];
            && xs != [] && VisibleWidth(xs) > 1 && CodesOk(xs)
            && 2 < |WrappedLine(xs, 1)| && !Closed(WrappedLine(xs, 1)[1])
            && View(true, PLAIN, WrappedLine(xs, 1)[1]) == []
  {
    var xs := UnderlinedThenSpace(a, s) + [a, a];
    ExampleIsSolid(a, s);
    ExampleIsFine(a, s);
    TokensOfLongerExample(a, s);
    StylesOfLongerExample(a, s);
    WidthAppend(UnderlinedThenSpace(a, s), [a, a]);
    StrayLineIsSecond(xs, 1, 1);
  }
}
