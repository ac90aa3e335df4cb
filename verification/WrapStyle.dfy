/** When wrapping preserves style, exactly: where a dropped token carries codes that matter, some
    width loses them. */
module WrapStyle {
  import opened Types
  import opened Ansi
  import opened Tracker
  import opened Replay
  import opened Wrap
  import opened WrapTheorems

  // ----- Ink -----

  lemma {:induction false} InkedAppend(a: seq<StyledCell>, b: seq<StyledCell>)
    ensures Inked(a + b) == Inked(a) + Inked(b)
    decreases |b|
  {
    if b == [] {
      AppendEmpty(a);
      AppendEmpty(Inked(a));
    } else {
      var n := |b| - 1;
      assert (a + b)[..|a + b| - 1] == a + b[..n];
      InkedAppend(a, b[..n]);
      Associate(Inked(a), Inked(b[..n]), if IsBlank(b[n].cell) then [] else [b[n]]);
    }
  }

  lemma {:induction false} InkCount(st: Style, xs: Line)
    ensures |Inked(View(true, st, xs))| == |Inked(View(false, st, xs))|
  {
    if xs != [] {
      var n := |xs| - 1;
      InkCount(st, xs[..n]);
      InkedAppend(View(true, st, xs[..n]), [StyledCell(xs[n], StyleAfter(st, xs[..n]))]);
      InkedAppend(View(false, st, xs[..n]), [StyledCell(xs[n], PLAIN)]);
      OneInked(StyledCell(xs[n], StyleAfter(st, xs[..n])));
      OneInked(StyledCell(xs[n], PLAIN));
      AppendEmpty(View(true, st, xs[..n]));
      AppendEmpty(View(false, st, xs[..n]));
    }
  }

  lemma OneInked(c: StyledCell)
    ensures Inked([c]) == if IsBlank(c.cell) then [] else [c]
  {
    assert [c][..0] == [];
  }

  lemma {:induction false} InkCountLines(lines: seq<Line>)
    ensures |Inked(ViewLines(true, lines))| == |Inked(ViewLines(false, lines))|
  {
    if lines != [] {
      var n := |lines| - 1;
      InkCountLines(lines[..n]);
      InkCount(PLAIN, lines[n]);
      InkedAppend(ViewLines(true, lines[..n]), View(true, PLAIN, lines[n]));
      InkedAppend(ViewLines(false, lines[..n]), View(false, PLAIN, lines[n]));
    }
  }

  // ----- What is shown stays shown -----

  /** The ink shown so far. */
  function InkOf(w: Wrapping): seq<StyledCell> {
    Inked(ViewLines(true, w.lines) + View(true, PLAIN, w.current))
  }

  lemma LongShowsMore(w: Wrapping, token: Line, width: nat)
    requires !OnlyBlanks(token)
    ensures InkOf(w) <= InkOf(WrapLong(w, token, width))
  {
    var so := ViewLines(true, w.lines) + View(true, PLAIN, w.current);
    var b := BreakAll(token, width, w.style);
    var closed := if w.current == [] then w.lines else w.lines + [w.current + Reset(w.style)];
    BrokenWordIsOpen(token, width, w.style);
    TakeBack(b.lines, b.current);
    ClosedShows(true, w);
    ViewLinesAppend(true, closed, b.lines);
    Associate(so, ViewLines(true, b.lines), View(true, PLAIN, b.current));
    InkedAppend(so, ViewLines(true, b.lines) + View(true, PLAIN, b.current));
  }

  lemma BreakShowsAll(w: Wrapping)
    ensures Inked(ViewLines(true, w.lines + [TrimEnd(w.current) + Reset(w.style)])) == InkOf(w)
  {
    var trimmed := TrimEnd(w.current);
    ViewLinesSnoc(true, w.lines, trimmed + Reset(w.style));
    ClosedView(true, trimmed, w.style);
    TrimmedView(true, PLAIN, w.current);
    ThinsKeepsInk(View(true, PLAIN, w.current), View(true, PLAIN, trimmed));
    InkedAppend(ViewLines(true, w.lines), View(true, PLAIN, w.current));
    InkedAppend(ViewLines(true, w.lines), View(true, PLAIN, trimmed));
  }

  lemma AppendShowsMore(lines: seq<Line>, current: Line, more: Line)
    ensures Inked(ViewLines(true, lines) + View(true, PLAIN, current)) <=
            Inked(ViewLines(true, lines) + View(true, PLAIN, current + more))
  {
    var tail := View(true, StyleAfter(PLAIN, current), more);
    ViewAppend(true, PLAIN, current, more);
    Associate(ViewLines(true, lines), View(true, PLAIN, current), tail);
    InkedAppend(ViewLines(true, lines) + View(true, PLAIN, current), tail);
  }

  lemma Wrap1ShowsMore(w: Wrapping, token: Line, width: nat)
    ensures InkOf(w) <= InkOf(Wrap1(w, token, width))
  {
    if BrokenUp(token, width) {
      LongShowsMore(w, token, width);
    } else if w.visible + VisibleWidth(token) > width && w.visible > 0 {
      var next := Wrap1(w, token, width);
      BreakShowsAll(w);
      InkedAppend(ViewLines(true, next.lines), View(true, PLAIN, next.current));
    } else {
      AppendShowsMore(w.lines, w.current, token);
    }
  }

  lemma LastShowsMore(tokens: seq<Line>, width: nat, shown: seq<StyledCell>)
    requires tokens != [] && shown <= InkOf(WrapAll(tokens[..|tokens| - 1], width))
    ensures shown <= InkOf(WrapAll(tokens, width))
  {
    Wrap1ShowsMore(WrapAll(tokens[..|tokens| - 1], width), tokens[|tokens| - 1], width);
  }

  lemma {:induction false} WrapAllShowsMore(tokens: seq<Line>, width: nat, k: nat, w: Wrapping)
    requires k <= |tokens| && w == WrapAll(tokens[..k], width)
    ensures InkOf(w) <= InkOf(WrapAll(tokens, width))
  {
    if k < |tokens| {
      assert tokens[..|tokens| - 1][..k] == tokens[..k];
      WrapAllShowsMore(tokens[..|tokens| - 1], width, k, w);
      LastShowsMore(tokens, width, InkOf(w));
    } else {
      TakeAll(tokens);
    }
  }

  lemma WrappedLineShows(xs: Line, width: nat)
    requires xs != [] && VisibleWidth(xs) > width
    ensures Inked(ViewLines(true, WrappedLine(xs, width))) == InkOf(WrapAll(Tokens(xs), width))
  {
    var w := WrapAll(Tokens(xs), width);
    var lines := Collected(w);
    if w.current == [] {
      AppendEmpty(ViewLines(true, w.lines));
    } else {
      ViewLinesSnoc(true, w.lines, w.current);
    }
    if lines == [] {
      OneLine(true, []);
    } else {
      TrimmedKeeps(true, lines);
      ThinsKeepsInk(ViewLines(true, lines), ViewLines(true, Trimmed(lines)));
    }
  }

  // ----- A token is dropped -----

  lemma {:induction false} WidthAtGrows(tokens: seq<Line>, j: nat, k: nat)
    requires j <= k <= |tokens|
    ensures WidthAt(tokens, j) <= WidthAt(tokens, k)
    decreases k
  {
    if j < k {
      WidthAtGrows(tokens, j, k - 1);
      WidthAtNext(tokens, k - 1);
    }
  }

  lemma WidthAtNext(tokens: seq<Line>, k: nat)
    requires k < |tokens|
    ensures WidthAt(tokens, k + 1) == WidthAt(tokens, k) + VisibleWidth(tokens[k])
    ensures StyleAt(tokens, k + 1) == StyleAfter(StyleAt(tokens, k), tokens[k])
  {
    PrefixTogether(tokens, k);
    WidthAppend(Together(tokens[..k]), tokens[k]);
    StyleAfterAppend(PLAIN, Together(tokens[..k]), tokens[k]);
  }

  /** As long as the tokens fit they stand on one line. */
  lemma {:induction false} FirstLine(tokens: seq<Line>, k: nat, width: nat)
    requires k <= |tokens| && WidthAt(tokens, k) <= width
    ensures WrapAll(tokens[..k], width) == Wrapping([], Together(tokens[..k]), WidthAt(tokens, k), StyleAt(tokens, k))
    decreases k
  {
    if k > 0 {
      WidthAtNext(tokens, k - 1);
      FirstLine(tokens, k - 1, width);
      TakeNext(tokens, k - 1);
      PrefixTogether(tokens, k - 1);
      OneMoreFits([], Together(tokens[..k - 1]), WidthAt(tokens, k - 1), StyleAt(tokens, k - 1), tokens[k - 1], width);
    } else {
      assert tokens[..0] == [];
    }
  }

  lemma OneMoreFits(lines: seq<Line>, current: Line, visible: nat, st: Style, token: Line, width: nat)
    requires visible + VisibleWidth(token) <= width
    ensures Wrap1(Wrapping(lines, current, visible, st), token, width) ==
            Wrapping(lines, current + token, visible + VisibleWidth(token), StyleAfter(st, token))
  {
  }

  /** Token `k` is dropped and token `k + 1` starts the second line, in the style before token `k`. */
  lemma DroppedThenNext(tokens: seq<Line>, k: nat, width: nat)
    requires k + 1 < |tokens| && OnlyBlanks(tokens[k]) && 0 < WidthAt(tokens, k) <= width < WidthAt(tokens, k + 1)
    requires VisibleWidth(tokens[k + 1]) <= width
    ensures var w := WrapAll(tokens[..k + 2], width);
            && w.lines == [TrimEnd(Together(tokens[..k])) + Reset(StyleAt(tokens, k))]
            && w.current == Active(StyleAt(tokens, k)) + tokens[k + 1]
  {
    FirstLine(tokens, k, width);
    WidthAtNext(tokens, k);
    TakeNext(tokens, k);
    TakeNext(tokens, k + 1);
    var first := TrimEnd(Together(tokens[..k])) + Reset(StyleAt(tokens, k));
    EmptyThen([first]);
  }

  /** The first cluster of a token is ink. */
  predicate StartsWithInk(token: Line) {
    Leading(token) < |token| && token[Leading(token)].kind == Ink
  }

  lemma {:induction false} ViewFirst(st: Style, xs: Line)
    requires xs != [] && xs[0].Cell?
    ensures View(true, st, xs) != [] && View(true, st, xs)[0] == StyledCell(xs[0], st)
  {
    if |xs| > 1 {
      ViewFirst(st, xs[..|xs| - 1]);
    } else {
      assert xs[..0] == [];
    }
  }

  lemma InkedFirst(a: seq<StyledCell>)
    requires a != [] && !IsBlank(a[0].cell)
    ensures Inked(a) != [] && Inked(a)[0] == a[0]
  {
    assert a == [a[0]] + a[1..];
    InkedAppend([a[0]], a[1..]);
    OneInked(a[0]);
  }

  lemma FirstInk(st: Style, token: Line)
    requires StartsWithInk(token)
    ensures var n, ink := Leading(token), Inked(View(true, st, token));
            ink != [] && ink[0] == StyledCell(token[n], StyleAfter(st, token[..n]))
  {
    var n := Leading(token);
    LeadThenRest(true, st, token);
    ViewFirst(StyleAfter(st, token[..n]), token[n..]);
    InkedFirst(View(true, st, token));
  }

  /** The cluster behind the ink of the first `k` tokens, in the line and as it is wrapped. */
  lemma InkInTheLine(tokens: seq<Line>, k: nat)
    requires k + 1 < |tokens| && OnlyBlanks(tokens[k]) && StartsWithInk(tokens[k + 1])
    ensures var before, n := Inked(View(true, PLAIN, Together(tokens[..k]))), Leading(tokens[k + 1]);
            before + [StyledCell(tokens[k + 1][n], StyleAfter(StyleAt(tokens, k + 1), tokens[k + 1][..n]))] <=
            Inked(View(true, PLAIN, Together(tokens[..k + 2])))
  {
    var upto, blank := Together(tokens[..k]), View(true, StyleAt(tokens, k), tokens[k]);
    PrefixTogether(tokens, k);
    PrefixTogether(tokens, k + 1);
    ViewAppend(true, PLAIN, upto, tokens[k]);
    ViewAppend(true, PLAIN, Together(tokens[..k + 1]), tokens[k + 1]);
    BlankView(true, StyleAt(tokens, k), tokens[k]);
    BlankHasNoInk(blank);
    InkedAppend(View(true, PLAIN, upto), blank);
    AppendEmpty(Inked(View(true, PLAIN, upto)));
    InkedAppend(View(true, PLAIN, Together(tokens[..k + 1])), View(true, StyleAt(tokens, k + 1), tokens[k + 1]));
    FirstInk(StyleAt(tokens, k + 1), tokens[k + 1]);
  }

  lemma {:induction false} BlankHasNoInk(a: seq<StyledCell>)
    requires forall i :: 0 <= i < |a| ==> IsBlank(a[i].cell)
    ensures Inked(a) == []
  {
    AllDropped(a);
    ThinsKeepsInk(a, []);
  }

  lemma InkOfFirstLine(first: Line, st: Style)
    ensures Inked(ViewLines(true, [TrimEnd(first) + Reset(st)])) == Inked(View(true, PLAIN, first))
  {
    var none: seq<Line> := [];
    BreakShowsAll(Wrapping(none, first, 0, st));
    EmptyThen([TrimEnd(first) + Reset(st)]);
    EmptyThen(View(true, PLAIN, first));
  }

  lemma InkOfContinuedToken(st: Style, token: Line)
    requires StyleOk(st) && StartsWithInk(token)
    ensures var ink := Inked(View(true, PLAIN, Active(st) + token));
            ink != [] && ink[0] == StyledCell(token[Leading(token)], StyleAfter(st, token[..Leading(token)]))
  {
    ViewAppend(true, PLAIN, Active(st), token);
    ActiveView(true, st);
    EmptyThen(View(true, st, token));
    FirstInk(st, token);
  }

  /** The ink of a wrapping whose second line has just begun. */
  lemma InkOfSecondLine(first: Line, st: Style, token: Line)
    requires StyleOk(st) && StartsWithInk(token)
    ensures var shown := Inked(ViewLines(true, [TrimEnd(first) + Reset(st)]) + View(true, PLAIN, Active(st) + token));
            var next := StyledCell(token[Leading(token)], StyleAfter(st, token[..Leading(token)]));
            Inked(View(true, PLAIN, first)) + [next] <= shown
  {
    InkOfFirstLine(first, st);
    InkOfContinuedToken(st, token);
    InkedAppend(ViewLines(true, [TrimEnd(first) + Reset(st)]), View(true, PLAIN, Active(st) + token));
  }

  lemma InkAsWrapped(tokens: seq<Line>, k: nat, width: nat)
    requires k + 1 < |tokens| && OnlyBlanks(tokens[k]) && 0 < WidthAt(tokens, k) <= width < WidthAt(tokens, k + 1)
    requires VisibleWidth(tokens[k + 1]) <= width && StartsWithInk(tokens[k + 1]) && StyleOk(StyleAt(tokens, k))
    ensures var before, n := Inked(View(true, PLAIN, Together(tokens[..k]))), Leading(tokens[k + 1]);
            before + [StyledCell(tokens[k + 1][n], StyleAfter(StyleAt(tokens, k), tokens[k + 1][..n]))] <=
            InkOf(WrapAll(tokens[..k + 2], width))
  {
    DroppedThenNext(tokens, k, width);
    InkOfSecondLine(Together(tokens[..k]), StyleAt(tokens, k), tokens[k + 1]);
  }

  lemma PrefixesDiffer<T>(before: seq<T>, a: T, b: T, s: seq<T>, t: seq<T>)
    requires before + [a] <= s && before + [b] <= t && a != b
    ensures s != t
  {
    assert s[|before|] == (before + [a])[|before|] && t[|before|] == (before + [b])[|before|];
  }

  /** Wrapped to `width`, every word cluster has the style it has in the line. */
  predicate KeepsStyle(xs: Line, width: nat) {
    Inked(View(true, PLAIN, xs)) == Inked(ViewLines(true, WrappedLine(xs, width)))
  }

  lemma {:induction false} InkOfPrefix(tokens: seq<Line>, k: nat)
    requires k <= |tokens|
    ensures Inked(View(true, PLAIN, Together(tokens[..k]))) <= Inked(View(true, PLAIN, Together(tokens)))
  {
    if k < |tokens| {
      var n := |tokens| - 1;
      InkOfPrefix(tokens[..n], k);
      assert tokens[..n][..k] == tokens[..k];
      ViewAppend(true, PLAIN, Together(tokens[..n]), tokens[n]);
      InkedAppend(View(true, PLAIN, Together(tokens[..n])),
                  View(true, StyleAfter(PLAIN, Together(tokens[..n])), tokens[n]));
    } else {
      TakeAll(tokens);
    }
  }

  /** Main result, the converse: if a blank token that can be dropped carries codes that matter to the
      ink right behind it, then the width at which it is dropped loses them. */
  lemma SomeWidthLosesStyle(xs: Line, k: nat) returns (width: nat)
    requires CodesOk(xs) && k + 1 < |Tokens(xs)| && LosesStyle(Tokens(xs), k)
    requires VisibleWidth(Tokens(xs)[k]) > 0 && StartsWithInk(Tokens(xs)[k + 1])
    ensures !KeepsStyle(xs, width)
  {
    var tokens := Tokens(xs);
    var next := tokens[k + 1];
    var before, n := Inked(View(true, PLAIN, Together(tokens[..k]))), Leading(next);
    width := if VisibleWidth(next) > WidthAt(tokens, k) then VisibleWidth(next) else WidthAt(tokens, k);
    TokensAreTheLine(xs);
    WidthAtNext(tokens, k);
    StyleAtIsOk(tokens, k);
    assert !OnlyBlanks(next) by { assert next[n].kind == Ink; }
    InkInTheLine(tokens, k);
    InkAsWrapped(tokens, k, width);
    InkOfPrefix(tokens, k + 2);
    WrapAllShowsMore(tokens, width, k + 2, WrapAll(tokens[..k + 2], width));
    WidthAtGrows(tokens, k + 1, |tokens|);
    TakeAll(tokens);
    WrappedLineShows(xs, width);
    PrefixesDiffer(before, StyledCell(next[n], StyleAfter(StyleAt(tokens, k + 1), next[..n])),
                   StyledCell(next[n], StyleAfter(StyleAt(tokens, k), next[..n])),
                   Inked(View(true, PLAIN, xs)), Inked(ViewLines(true, WrappedLine(xs, width))));
  }

  // ----- Words, spaces and codes: exactly -----

  /** Words, plain spaces and codes: no tabs and no other white space, and no space without width. */
  predicate Ordinary(xs: Line) {
    forall i :: 0 <= i < |xs| && xs[i].Cell? ==> xs[i].kind == Ink || (xs[i].kind == Space && xs[i].width > 0)
  }

  predicate HasCell(xs: Line) {
    !OnlyCodes(xs)
  }

  /** The clusters of a token are all spaces, or none is. */
  predicate Spaced(token: Line, spaces: bool) {
    forall i :: 0 <= i < |token| && token[i].Cell? ==> (token[i].kind == Space) == spaces
  }

  ghost predicate Alternating(tokens: seq<Line>) {
    forall k :: 0 <= k < |tokens| - 1 ==> Opposite(tokens[k], tokens[k + 1])
  }

  predicate Opposite(a: Line, b: Line) {
    HasCell(a) && HasCell(b) && ((Spaced(a, true) && Spaced(b, false)) || (Spaced(a, false) && Spaced(b, true)))
  }

  ghost predicate AlternatingSoFar(t: Tokenizer) {
    && Alternating(t.tokens) && OnlyCodes(t.pending) && Spaced(t.current, t.inWhitespace)
    && (t.current != [] ==> HasCell(t.current))
    && (t.tokens != [] ==> t.current != [] && Opposite(t.tokens[|t.tokens| - 1], t.current))
  }

  lemma AlternatingSnoc(tokens: seq<Line>, token: Line)
    requires Alternating(tokens) && (tokens != [] ==> Opposite(tokens[|tokens| - 1], token))
    ensures Alternating(tokens + [token])
  {
  }

  lemma SpacedAppend(a: Line, codes: Line, x: Item)
    requires OnlyCodes(codes) && x.Cell?
    ensures HasCell(a + codes + [x])
    ensures forall b :: Spaced(a + codes + [x], b) <==> Spaced(a, b) && b == (x.kind == Space)
  {
    var xs := a + codes + [x];
    assert xs[|xs| - 1] == x;
    assert forall i :: 0 <= i < |a| ==> xs[i] == a[i];
  }

  lemma Token1Alternates(t: Tokenizer, x: Item)
    requires AlternatingSoFar(t)
    ensures AlternatingSoFar(Token1(t, x))
  {
    if x.Cell? {
      if (x.kind == Space) != t.inWhitespace && t.current != [] {
        SpacedAppend([], t.pending, x);
        EmptyThen(t.pending);
        AlternatingSnoc(t.tokens, t.current);
      } else {
        SpacedAppend(t.current, t.pending, x);
      }
    }
  }

  lemma {:induction false} TokenizerAlternates(xs: Line)
    ensures AlternatingSoFar(TokenizeAll(xs))
  {
    if xs != [] {
      TokenizerAlternates(xs[..|xs| - 1]);
      Token1Alternates(TokenizeAll(xs[..|xs| - 1]), xs[|xs| - 1]);
    }
  }

  lemma SpacedCodes(a: Line, codes: Line)
    requires OnlyCodes(codes)
    ensures HasCell(a + codes) <==> HasCell(a)
    ensures forall b :: Spaced(a + codes, b) <==> Spaced(a, b)
  {
    assert forall i :: 0 <= i < |a| ==> (a + codes)[i] == a[i];
  }

  lemma TokensAlternate(xs: Line)
    ensures Alternating(Tokens(xs))
  {
    var t := TokenizeAll(xs);
    TokenizerAlternates(xs);
    SpacedCodes(t.current, t.pending);
    if t.current + t.pending != [] {
      AlternatingSnoc(t.tokens, t.current + t.pending);
    }
  }

  lemma OrdinaryPiece(xs: Line, k: nat)
    requires Ordinary(xs) && k < |Tokens(xs)|
    ensures Ordinary(Tokens(xs)[k])
  {
    var token := Tokens(xs)[k];
    TokensAreTheLine(xs);
    var start := PieceAt(Tokens(xs), k);
    forall i | 0 <= i < |token| && token[i].Cell?
      ensures token[i].kind == Ink || (token[i].kind == Space && token[i].width > 0)
    {
      AtOffset(xs, start, token, i);
    }
  }

  lemma {:induction false} SpaceHasWidth(token: Line)
    requires Ordinary(token) && OnlyBlanks(token) && HasCell(token)
    ensures VisibleWidth(token) > 0
  {
    var init, x := token[..|token| - 1], token[|token| - 1];
    if x.Code? {
      assert HasCell(init);
      SpaceHasWidth(init);
    }
  }

  /** Between two words stand spaces only, and they have a width. */
  lemma OrdinaryGap(xs: Line, k: nat)
    requires Ordinary(xs) && k + 1 < |Tokens(xs)| && OnlyBlanks(Tokens(xs)[k])
    ensures VisibleWidth(Tokens(xs)[k]) > 0 && StartsWithInk(Tokens(xs)[k + 1])
  {
    var blank, next := Tokens(xs)[k], Tokens(xs)[k + 1];
    TokensAlternate(xs);
    OrdinaryPiece(xs, k);
    OrdinaryPiece(xs, k + 1);
    SpaceHasWidth(blank);
    var i :| 0 <= i < |blank| && blank[i].Cell?;
    assert IsBlank(blank[i]) && blank[i].kind == Space;
    assert Opposite(blank, next);
    assert Spaced(next, false);
    if Leading(next) == |next| {
      TakeAll(next);
    }
  }

  lemma LineKeepsStyleExactly(xs: Line)
    requires CodesOk(xs) && Ordinary(xs)
    ensures (forall width :: KeepsStyle(xs, width)) <==> Safe(xs)
  {
    if Safe(xs) {
      forall width ensures KeepsStyle(xs, width) {
        WrappedLineKeeps(true, xs, width);
        ThinsKeepsInk(View(true, PLAIN, xs), ViewLines(true, WrappedLine(xs, width)));
      }
    } else {
      var k :| 0 <= k < |Tokens(xs)| - 1 && LosesStyle(Tokens(xs), k);
      OrdinaryGap(xs, k);
      var width := SomeWidthLosesStyle(xs, k);
    }
  }

  // ----- A text -----

  /** Wrapped to `width`, every word cluster of the text has the style it has in the text. */
  predicate TextKeepsStyle(text: seq<Piece>, width: nat) {
    Inked(View(true, PLAIN, PrintedItems(text))) == Inked(ViewLines(true, WrappedText(text, width)))
  }

  /** What one line contributes, in the text and as it is wrapped. */
  lemma OneMoreLine(init: seq<Line>, line: Line, width: nat)
    requires CodesOk(Together(init)) && CodesOk(line)
    ensures var xs := Prefix(init) + line;
            && Inked(View(true, PLAIN, Together(init) + line)) ==
                 Inked(View(true, PLAIN, Together(init))) + Inked(View(true, PLAIN, xs))
            && Inked(ViewLines(true, WrappedLines(init, width) + WrappedLine(xs, width))) ==
                 Inked(ViewLines(true, WrappedLines(init, width))) + Inked(ViewLines(true, WrappedLine(xs, width)))
  {
    var xs := Prefix(init) + line;
    ContinuedView(true, init, line);
    ViewAppend(true, PLAIN, Together(init), line);
    InkedAppend(View(true, PLAIN, Together(init)), View(true, PLAIN, xs));
    ViewLinesAppend(true, WrappedLines(init, width), WrappedLine(xs, width));
    InkedAppend(ViewLines(true, WrappedLines(init, width)), ViewLines(true, WrappedLine(xs, width)));
  }

  lemma SameInkCount(lines: seq<Line>, width: nat)
    ensures |Inked(View(true, PLAIN, Together(lines)))| == |Inked(ViewLines(true, WrappedLines(lines, width)))|
  {
    WrappedLinesKeep(false, lines, width);
    ThinsKeepsInk(View(false, PLAIN, Together(lines)), ViewLines(false, WrappedLines(lines, width)));
    InkCount(PLAIN, Together(lines));
    InkCountLines(WrappedLines(lines, width));
  }

  lemma SplitAlike<T>(a: seq<T>, b: seq<T>, a': seq<T>, b': seq<T>)
    requires |a| == |a'| && a + b == a' + b'
    ensures a == a' && b == b'
  {
    assert a == (a + b)[..|a|] && b == (a + b)[|a|..];
  }

  ghost predicate LinesKeepStyle(lines: seq<Line>, width: nat) {
    Inked(View(true, PLAIN, Together(lines))) == Inked(ViewLines(true, WrappedLines(lines, width)))
  }

  lemma LastLineKeeps(init: seq<Line>, line: Line, width: nat)
    requires CodesOk(Together(init)) && CodesOk(line)
    requires Inked(View(true, PLAIN, Together(init) + line)) ==
             Inked(ViewLines(true, WrappedLines(init, width) + WrappedLine(Prefix(init) + line, width)))
    ensures LinesKeepStyle(init, width) && KeepsStyle(Prefix(init) + line, width)
  {
    var xs := Prefix(init) + line;
    OneMoreLine(init, line, width);
    SameInkCount(init, width);
    SplitAlike(Inked(View(true, PLAIN, Together(init))), Inked(View(true, PLAIN, xs)),
               Inked(ViewLines(true, WrappedLines(init, width))), Inked(ViewLines(true, WrappedLine(xs, width))));
  }

  lemma LastOfLines(lines: seq<Line>, width: nat)
    requires CodesOk(Together(lines)) && lines != [] && LinesKeepStyle(lines, width)
    ensures var n := |lines| - 1;
            && CodesOk(Together(lines[..n])) && LinesKeepStyle(lines[..n], width)
            && KeepsStyle(Prefix(lines[..n]) + lines[n], width)
  {
    var n := |lines| - 1;
    CodesOkAppend(Together(lines[..n]), lines[n]);
    LastLineKeeps(lines[..n], lines[n], width);
  }

  lemma {:induction false} FirstLinesKeep(lines: seq<Line>, width: nat, m: nat, first: seq<Line>)
    requires CodesOk(Together(lines)) && LinesKeepStyle(lines, width) && m <= |lines| && first == lines[..m]
    ensures CodesOk(Together(first)) && LinesKeepStyle(first, width)
  {
    if m < |lines| {
      LastOfLines(lines, width);
      assert lines[..|lines| - 1][..m] == lines[..m];
      FirstLinesKeep(lines[..|lines| - 1], width, m, first);
    } else {
      TakeAll(lines);
    }
  }

  /** A text that keeps its style does so line by line, each line as it is continued. */
  lemma LineByLine(lines: seq<Line>, width: nat, i: nat)
    requires CodesOk(Together(lines)) && LinesKeepStyle(lines, width) && i < |lines|
    ensures KeepsStyle(Prefix(lines[..i]) + lines[i], width)
  {
    FirstLinesKeep(lines, width, i + 1, lines[..i + 1]);
    TakeNext(lines, i);
    LastOfLines(lines[..i + 1], width);
  }

  ghost predicate OrdinaryLines(lines: seq<Line>) {
    forall i :: 0 <= i < |lines| ==> Ordinary(lines[i])
  }

  lemma {:induction false} LinesAreOrdinary(lines: seq<Line>)
    requires Ordinary(Together(lines))
    ensures OrdinaryLines(lines)
  {
    if lines != [] {
      var init, line := lines[..|lines| - 1], lines[|lines| - 1];
      var xs := Together(lines);
      assert forall i :: 0 <= i < |Together(init)| ==> Together(init)[i] == xs[i];
      assert forall i :: 0 <= i < |line| ==> line[i] == xs[|Together(init)| + i];
      LinesAreOrdinary(init);
      assert forall i :: 0 <= i < |init| ==> lines[i] == init[i];
    }
  }

  lemma ContinuedIsOrdinary(init: seq<Line>, line: Line)
    requires Ordinary(line)
    ensures Ordinary(Prefix(init) + line)
  {
    var xs, n := Prefix(init) + line, |Prefix(init)|;
    assert forall i :: 0 <= i < n ==> xs[i].Code?;
    assert forall i :: n <= i < |xs| ==> xs[i] == line[i - n];
  }

  lemma UnsafeLineLoses(lines: seq<Line>, i: nat) returns (width: nat)
    requires CodesOk(Together(lines)) && OrdinaryLines(lines)
    requires i < |lines| && !Safe(Prefix(lines[..i]) + lines[i])
    ensures !LinesKeepStyle(lines, width)
  {
    var xs := Prefix(lines[..i]) + lines[i];
    PrefixIsOk(lines, i);
    assert Ordinary(lines[i]);
    ContinuedIsOrdinary(lines[..i], lines[i]);
    LineKeepsStyleExactly(xs);
    width :| !KeepsStyle(xs, width);
    if LinesKeepStyle(lines, width) {
      LineByLine(lines, width, i);
    }
  }

  lemma PrefixIsOk(lines: seq<Line>, i: nat)
    requires CodesOk(Together(lines)) && i < |lines|
    ensures CodesOk(Prefix(lines[..i]) + lines[i])
  {
    CodesOkPieces(lines, i);
    StyleAtIsOk(lines, i);
    if i > 0 {
      ActiveIsOk(StyleAt(lines, i));
      CodesOkAppend(Active(StyleAt(lines, i)), lines[i]);
    } else {
      EmptyThen(lines[i]);
    }
  }

  /** Main result: a text of words, spaces and codes keeps its style at every width exactly if no
      token that can be dropped at the end of a line carries codes that matter. */
  lemma StyleKeptExactly(text: seq<Piece>)
    requires CodesOk(PrintedItems(text)) && Ordinary(PrintedItems(text))
    ensures (forall width :: TextKeepsStyle(text, width)) <==> SafeLines(InputLines(text))
  {
    var lines := InputLines(text);
    LinesAreTheText(text);
    if SafeLines(lines) {
      forall width ensures TextKeepsStyle(text, width) {
        WrappingKeepsStyle(text, width);
      }
    } else {
      var i :| 0 <= i < |lines| && !Safe(Prefix(lines[..i]) + lines[i]);
      assert text != [];
      LinesAreOrdinary(lines);
      var width := UnsafeLineLoses(lines, i);
      assert !TextKeepsStyle(text, width);
    }
  }

  // ----- A condition to be read off the text -----

  /** No escape code stands right before a blank, except at the start of the line. */
  ghost predicate Clear(xs: Line) {
    forall i :: 0 <= i < |xs| - 1 && xs[i].Code? && IsBlank(xs[i + 1]) ==> OnlyCodes(xs[..i])
  }

  /** A code that is not last in its piece has a cluster behind it somewhere: some code stands
      right before a cluster. */
  lemma {:induction false} CodeBeforeCell(xs: Line, p: nat) returns (q: nat)
    requires EndsInCell(xs) && p < |xs| && xs[p].Code?
    ensures p <= q < |xs| - 1 && xs[q].Code? && xs[q + 1].Cell?
    decreases |xs| - p
  {
    if xs[p + 1].Cell? {
      q := p;
    } else {
      q := CodeBeforeCell(xs, p + 1);
    }
  }

  /** A blank piece that stands behind a cluster and ends in one carries no code. */
  lemma BlankPieceIsClear(xs: Line, start: nat, piece: Line)
    requires Clear(xs) && start + |piece| <= |xs| && xs[start..start + |piece|] == piece
    requires HasCell(xs[..start]) && OnlyBlanks(piece) && EndsInCell(piece)
    ensures NoCodes(piece)
  {
    forall p | 0 <= p < |piece| ensures piece[p].Cell? {
      if piece[p].Code? {
        var q := CodeBeforeCell(piece, p);
        AtOffset(xs, start, piece, q);
        AtOffset(xs, start, piece, q + 1);
        NotOnlyCodes(xs, start, start + q);
      }
    }
  }

  lemma NotOnlyCodes(xs: Line, start: nat, i: nat)
    requires start <= i <= |xs| && HasCell(xs[..start])
    ensures HasCell(xs[..i])
  {
    var j :| 0 <= j < start && xs[..start][j].Cell?;
    assert xs[..i][j] == xs[j];
  }

  lemma ClearIsSafe(xs: Line)
    requires Clear(xs)
    ensures Safe(xs)
  {
    forall k | 0 <= k < |Tokens(xs)| - 1 && Droppable(Tokens(xs), k) ensures !LosesStyle(Tokens(xs), k) {
      ClearKeeps(xs, k);
    }
  }

  lemma ClearKeeps(xs: Line, k: nat)
    requires Clear(xs) && k < |Tokens(xs)| - 1 && OnlyBlanks(Tokens(xs)[k]) && WidthAt(Tokens(xs), k) > 0
    ensures StyleAt(Tokens(xs), k + 1) == StyleAt(Tokens(xs), k)
  {
    var tokens := Tokens(xs);
    TokensAreTheLine(xs);
    var start := PieceAt(tokens, k);
    BeforePiece(tokens, k);
    if OnlyCodes(xs[..start]) {
      CodesHaveNoWidth(xs[..start]);
    }
    BlankPieceIsClear(xs, start, tokens[k]);
    WidthAtNext(tokens, k);
    NoCodesNoChange(StyleAt(tokens, k), tokens[k]);
  }

  lemma {:induction false} BeforePiece(pieces: seq<Line>, k: nat)
    requires k <= |pieces|
    ensures |Together(pieces[..k])| <= |Together(pieces)|
    ensures Together(pieces)[..|Together(pieces[..k])|] == Together(pieces[..k])
  {
    if k < |pieces| {
      var n := |pieces| - 1;
      BeforePiece(pieces[..n], k);
      assert pieces[..n][..k] == pieces[..k];
    } else {
      TakeAll(pieces);
      TakeAll(Together(pieces));
    }
  }

  /** A line that continues in a style is as clear as the line itself. */
  lemma ContinuedIsClear(codes: Line, line: Line)
    requires Clear(line) && OnlyCodes(codes)
    ensures Clear(codes + line)
  {
    var xs, n := codes + line, |codes|;
    forall i | 0 <= i < |xs| - 1 && xs[i].Code? && IsBlank(xs[i + 1]) ensures OnlyCodes(xs[..i]) {
      if i >= n {
        assert xs[i] == line[i - n] && xs[i + 1] == line[i - n + 1];
        assert OnlyCodes(line[..i - n]);
        assert xs[..i] == codes + line[..i - n];
      } else {
        assert xs[..i] == codes[..i];
      }
    }
  }

  /** Such a text keeps its style at every width, whatever its white space. */
  lemma ClearTextKeepsStyle(text: seq<Piece>, width: nat)
    requires CodesOk(PrintedItems(text)) && forall i :: 0 <= i < |InputLines(text)| ==> Clear(InputLines(text)[i])
    ensures SafeLines(InputLines(text)) && TextKeepsStyle(text, width)
  {
    var lines := InputLines(text);
    forall i | 0 <= i < |lines| ensures Safe(Prefix(lines[..i]) + lines[i]) {
      ContinuedIsClear(Prefix(lines[..i]), lines[i]);
      ClearIsSafe(Prefix(lines[..i]) + lines[i]);
    }
    WrappingKeepsStyle(text, width);
  }

  // ----- Lines that are done stay -----


  predicate Extends(w: Wrapping, next: Wrapping) {
    w.lines <= next.lines && |Collected(w)| <= |Collected(next)|
  }

  lemma LinesOnlyGrow(w: Wrapping, token: Line, width: nat)
    ensures Extends(w, Wrap1(w, token, width))
  {
    if BrokenUp(token, width) {
      BrokenWordIsOpen(token, width, w.style);
    }
  }

  lemma LastLinesStay(tokens: seq<Line>, width: nat, w: Wrapping)
    requires tokens != [] && Extends(w, WrapAll(tokens[..|tokens| - 1], width))
    ensures Extends(w, WrapAll(tokens, width))
  {
    LinesOnlyGrow(WrapAll(tokens[..|tokens| - 1], width), tokens[|tokens| - 1], width);
  }

  lemma {:induction false} AllLinesStay(tokens: seq<Line>, width: nat, k: nat, w: Wrapping)
    requires k <= |tokens| && w == WrapAll(tokens[..k], width)
    ensures Extends(w, WrapAll(tokens, width))
  {
    if k < |tokens| {
      assert tokens[..|tokens| - 1][..k] == tokens[..k];
      AllLinesStay(tokens[..|tokens| - 1], width, k, w);
      LastLinesStay(tokens, width, w);
    } else {
      TakeAll(tokens);
    }
  }
}
