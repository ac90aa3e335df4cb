/** What wrapping keeps: every cluster but some white space, in order, in its style. */
module WrapTheorems {
  import opened Types
  import opened Ansi
  import opened Tracker
  import opened Replay
  import opened Wrap

  /** A cluster and the style in which a terminal shows it. */
  datatype StyledCell = StyledCell(cell: Item, style: Style)

  /** The clusters of a line that starts in style `st`; with `see` unset their styles are ignored. */
  function View(see: bool, st: Style, xs: Line): seq<StyledCell> {
    if xs == [] then []
    else
      var init, x := xs[..|xs| - 1], xs[|xs| - 1];
      View(see, st, init) + (if x.Cell? then [StyledCell(x, if see then StyleAfter(st, init) else PLAIN)] else [])
  }

  /** The clusters of output lines, each line shown by a terminal that starts afresh. */
  function ViewLines(see: bool, lines: seq<Line>): seq<StyledCell> {
    if lines == [] then [] else ViewLines(see, lines[..|lines| - 1]) + View(see, PLAIN, lines[|lines| - 1])
  }

  /** `b` is `a` with some blanks left out: nothing lost, added, moved or restyled besides. */
  ghost predicate Thins(a: seq<StyledCell>, b: seq<StyledCell>) {
    if a == [] then b == []
    else
      var n := |a| - 1;
      || (b != [] && b[|b| - 1] == a[n] && Thins(a[..n], b[..|b| - 1]))
      || (IsBlank(a[n].cell) && Thins(a[..n], b))
  }

  // ----- Thinning -----

  lemma {:induction false} ThinsRefl(a: seq<StyledCell>)
    ensures Thins(a, a)
  {
    if a != [] {
      ThinsRefl(a[..|a| - 1]);
    }
  }

  lemma {:induction false} ThinsAppend(a: seq<StyledCell>, b: seq<StyledCell>, c: seq<StyledCell>, d: seq<StyledCell>)
    requires Thins(a, b) && Thins(c, d)
    ensures Thins(a + c, b + d)
    decreases |c|
  {
    if c == [] {
      assert a + c == a && b + d == b;
    } else {
      var n := |c| - 1;
      assert (a + c)[..|a + c| - 1] == a + c[..n];
      if d != [] && d[|d| - 1] == c[n] && Thins(c[..n], d[..|d| - 1]) {
        ThinsAppend(a, b, c[..n], d[..|d| - 1]);
        assert (b + d)[..|b + d| - 1] == b + d[..|d| - 1];
      } else {
        ThinsAppend(a, b, c[..n], d);
      }
    }
  }

  lemma {:induction false} ThinsTrans(a: seq<StyledCell>, b: seq<StyledCell>, c: seq<StyledCell>)
    requires Thins(a, b) && Thins(b, c)
    ensures Thins(a, c)
    decreases |a|
  {
    if a != [] {
      var n := |a| - 1;
      if b != [] && b[|b| - 1] == a[n] && Thins(a[..n], b[..|b| - 1]) {
        if c != [] && c[|c| - 1] == b[|b| - 1] && Thins(b[..|b| - 1], c[..|c| - 1]) {
          ThinsTrans(a[..n], b[..|b| - 1], c[..|c| - 1]);
        } else {
          ThinsTrans(a[..n], b[..|b| - 1], c);
        }
      } else {
        ThinsTrans(a[..n], b, c);
      }
    }
  }

  lemma {:induction false} AllDropped(a: seq<StyledCell>)
    requires forall i :: 0 <= i < |a| ==> IsBlank(a[i].cell)
    ensures Thins(a, [])
  {
    if a != [] {
      AllDropped(a[..|a| - 1]);
    }
  }

  /** The clusters that are not blank. */
  function Inked(a: seq<StyledCell>): seq<StyledCell> {
    if a == [] then [] else Inked(a[..|a| - 1]) + (if IsBlank(a[|a| - 1].cell) then [] else [a[|a| - 1]])
  }

  /** What thinning means for ink: it is all there, in order and in its style. */
  lemma {:induction false} ThinsKeepsInk(a: seq<StyledCell>, b: seq<StyledCell>)
    requires Thins(a, b)
    ensures Inked(a) == Inked(b)
  {
    if a != [] {
      var n := |a| - 1;
      if b != [] && b[|b| - 1] == a[n] && Thins(a[..n], b[..|b| - 1]) {
        ThinsKeepsInk(a[..n], b[..|b| - 1]);
      } else {
        ThinsKeepsInk(a[..n], b);
      }
    }
  }

  // ----- Views of lines put together -----

  lemma {:induction false} ViewAppend(see: bool, st: Style, a: Line, b: Line)
    ensures View(see, st, a + b) == View(see, st, a) + View(see, StyleAfter(st, a), b)
    decreases |b|
  {
    if b == [] {
      assert a + b == a;
    } else {
      var n := |b| - 1;
      assert (a + b)[..|a + b| - 1] == a + b[..n];
      ViewAppend(see, st, a, b[..n]);
      StyleAfterAppend(st, a, b[..n]);
    }
  }

  lemma {:induction false} Unseen(st: Style, other: Style, xs: Line)
    ensures View(false, st, xs) == View(false, other, xs)
  {
    if xs != [] {
      Unseen(st, other, xs[..|xs| - 1]);
    }
  }

  lemma {:induction false} CodesShowNothing(see: bool, st: Style, codes: seq<string>)
    ensures View(see, st, CodeItems(codes)) == []
    ensures StyleAfter(st, CodeItems(codes)) == ProcessedAll(st, codes)
  {
    if codes != [] {
      var n := |codes| - 1;
      CodesShowNothing(see, st, codes[..n]);
      assert CodeItems(codes)[..n] == CodeItems(codes[..n]);
    }
  }

  lemma ViewLinesSnoc(see: bool, lines: seq<Line>, line: Line)
    ensures ViewLines(see, lines + [line]) == ViewLines(see, lines) + View(see, PLAIN, line)
  {
    assert (lines + [line])[..|lines|] == lines;
  }

  lemma {:induction false} ViewLinesAppend(see: bool, a: seq<Line>, b: seq<Line>)
    ensures ViewLines(see, a + b) == ViewLines(see, a) + ViewLines(see, b)
    decreases |b|
  {
    if b == [] {
      assert a + b == a;
    } else {
      assert (a + b)[..|a + b| - 1] == a + b[..|b| - 1];
      ViewLinesAppend(see, a, b[..|b| - 1]);
    }
  }

  /** Closing codes at the end of a line show nothing. */
  lemma ClosedView(see: bool, xs: Line, st: Style)
    ensures View(see, PLAIN, xs + Reset(st)) == View(see, PLAIN, xs)
  {
    ViewAppend(see, PLAIN, xs, Reset(st));
    CodesShowNothing(see, StyleAfter(PLAIN, xs), LineEndReset(st));
  }

  lemma {:induction false} TrimmedView(see: bool, st: Style, xs: Line)
    ensures Thins(View(see, st, xs), View(see, st, TrimEnd(xs)))
  {
    if TrimEnd(xs) == xs {
      ThinsRefl(View(see, st, xs));
    } else {
      TrimmedView(see, st, xs[..|xs| - 1]);
      var v := View(see, st, xs);
      assert v[..|v| - 1] == View(see, st, xs[..|xs| - 1]);
    }
  }

  // ----- Whole codes -----

  predicate CodesOk(xs: Line) {
    forall i :: 0 <= i < |xs| && xs[i].Code? ==> IsCode(xs[i].text)
  }

  predicate NoCodes(xs: Line) {
    forall i :: 0 <= i < |xs| ==> xs[i].Cell?
  }

  lemma {:induction false} StyleStaysOk(st: Style, xs: Line)
    requires StyleOk(st) && CodesOk(xs)
    ensures StyleOk(StyleAfter(st, xs))
  {
    if xs != [] {
      StyleStaysOk(st, xs[..|xs| - 1]);
      if xs[|xs| - 1].Code? {
        ProcessedKeepsOk(StyleAfter(st, xs[..|xs| - 1]), xs[|xs| - 1].text);
      }
    }
  }

  lemma {:induction false} NoCodesNoChange(st: Style, xs: Line)
    requires NoCodes(xs)
    ensures StyleAfter(st, xs) == st
  {
    if xs != [] {
      NoCodesNoChange(st, xs[..|xs| - 1]);
    }
  }

  /** A line that continues in style `st` starts by restoring it. */
  lemma ActiveView(see: bool, st: Style)
    ensures View(see, PLAIN, Active(st)) == []
    ensures StyleOk(st) ==> StyleAfter(PLAIN, Active(st)) == st
  {
    CodesShowNothing(see, PLAIN, ActiveCodes(st));
    if StyleOk(st) {
      ActiveCodesRestore(st);
    }
  }

  // ----- Breaking a long word -----

  /** What is on the lines so far shows `shown`; the open line leaves a terminal in style `st`. */
  ghost predicate Shows(see: bool, lines: seq<Line>, current: Line, st: Style, shown: seq<StyledCell>) {
    && ViewLines(see, lines) + View(see, PLAIN, current) == shown
    && (see ==> StyleAfter(PLAIN, current) == st && StyleOk(st))
  }

  lemma ShowsCode(see: bool, lines: seq<Line>, current: Line, st: Style, shown: seq<StyledCell>, c: string)
    requires Shows(see, lines, current, st, shown) && (see ==> IsCode(c))
    ensures Shows(see, lines, current + [Code(c)], Processed(st, c), shown)
  {
    assert (current + [Code(c)])[..|current|] == current;
    if see {
      ProcessedKeepsOk(st, c);
    }
  }

  function SeenAs(see: bool, x: Item, st: Style): StyledCell {
    StyledCell(x, if see then st else PLAIN)
  }

  lemma ShowsCell(see: bool, lines: seq<Line>, current: Line, st: Style, shown: seq<StyledCell>, x: Item)
    requires Shows(see, lines, current, st, shown) && x.Cell?
    ensures Shows(see, lines, current + [x], st, shown + [SeenAs(see, x, st)])
  {
    assert (current + [x])[..|current|] == current;
  }

  /** A new line may be begun anywhere. */
  lemma ShowsBreak(see: bool, lines: seq<Line>, current: Line, st: Style, shown: seq<StyledCell>)
    requires Shows(see, lines, current, st, shown)
    ensures Shows(see, lines + [current + Reset(st)], Active(st), st, shown)
  {
    ViewLinesSnoc(see, lines, current + Reset(st));
    ClosedView(see, current, st);
    ActiveView(see, st);
  }

  lemma {:induction false} BrokenWordShows(see: bool, word: Line, width: nat, st: Style)
    requires see ==> StyleOk(st) && CodesOk(word)
    ensures var b := BreakAll(word, width, st);
            && Shows(see, b.lines, b.current, b.style, View(see, st, word))
            && b.style == StyleAfter(st, word)
  {
    if word == [] {
      ActiveView(see, st);
    } else {
      var init, x := word[..|word| - 1], word[|word| - 1];
      BrokenWordShows(see, init, width, st);
      var b, shown := BreakAll(init, width, st), View(see, st, init);
      if x.Code? {
        ShowsCode(see, b.lines, b.current, b.style, shown, x.text);
      } else if b.columns + ClusterColumns(x) > width {
        ShowsBreak(see, b.lines, b.current, b.style, shown);
        ShowsCell(see, b.lines + [b.current + Reset(b.style)], Active(b.style), b.style, shown, x);
      } else {
        ShowsCell(see, b.lines, b.current, b.style, shown, x);
      }
    }
  }

  lemma {:induction false} BrokenWordIsOpen(word: Line, width: nat, st: Style)
    requires !OnlyBlanks(word)
    ensures BreakAll(word, width, st).current != []
  {
    var init := word[..|word| - 1];
    if word[|word| - 1].Code? {
      assert !OnlyBlanks(init);
      BrokenWordIsOpen(init, width, st);
    }
  }

  // ----- Wrapping one line -----

  /** What is on the lines so far is what was read, but for blanks. */
  ghost predicate Faithful(see: bool, w: Wrapping, done: Line) {
    && Thins(View(see, PLAIN, done), ViewLines(see, w.lines) + View(see, PLAIN, w.current))
    && w.style == StyleAfter(PLAIN, done)
  }

  ghost predicate GoodStyle(see: bool, w: Wrapping) {
    see ==> StyleOk(w.style)
  }

  /** The open line leaves a terminal in the tracked style. */
  ghost predicate InStyle(see: bool, w: Wrapping) {
    GoodStyle(see, w) && (see ==> StyleAfter(PLAIN, w.current) == w.style)
  }

  /** Whether a token looks alike, and ends alike, in two styles. */
  ghost predicate ShowsAlike(see: bool, a: Style, b: Style, token: Line) {
    View(see, a, token) == View(see, b, token) && (see ==> StyleAfter(a, token) == StyleAfter(b, token))
  }

  lemma LongKeeps(see: bool, w: Wrapping, done: Line, token: Line, width: nat)
    requires Faithful(see, w, done) && GoodStyle(see, w) && !OnlyBlanks(token)
    requires see ==> CodesOk(token)
    ensures Faithful(see, WrapLong(w, token, width), done + token) && InStyle(see, WrapLong(w, token, width))
  {
    var shown := View(see, PLAIN, done);
    var so := ViewLines(see, w.lines) + View(see, PLAIN, w.current);
    var b := BreakAll(token, width, w.style);
    var closed := if w.current == [] then w.lines else w.lines + [w.current + Reset(w.style)];
    BrokenWordShows(see, token, width, w.style);
    BrokenWordIsOpen(token, width, w.style);
    assert Pieces(token, width, w.style) == b.lines + [b.current];
    assert (b.lines + [b.current])[..|b.lines|] == b.lines;
    ClosedShows(see, w);
    ViewLinesAppend(see, closed, b.lines);
    StyleAfterAppend(PLAIN, done, token);
    ViewAppend(see, PLAIN, done, token);
    var piece := View(see, w.style, token);
    ThinsRefl(piece);
    ThinsAppend(shown, so, piece, piece);
    Associate(so, ViewLines(see, b.lines), View(see, PLAIN, b.current));
  }

  lemma ClosedShows(see: bool, w: Wrapping)
    ensures ViewLines(see, if w.current == [] then w.lines else w.lines + [w.current + Reset(w.style)]) ==
            ViewLines(see, w.lines) + View(see, PLAIN, w.current)
  {
    if w.current != [] {
      ViewLinesSnoc(see, w.lines, w.current + Reset(w.style));
      ClosedView(see, w.current, w.style);
    }
  }

  lemma AppendKeeps(see: bool, w: Wrapping, done: Line, token: Line)
    requires Faithful(see, w, done) && GoodStyle(see, w) &&
             ShowsAlike(see, StyleAfter(PLAIN, w.current), w.style, token)
    requires see ==> CodesOk(token)
    ensures var next := Wrapping(w.lines, w.current + token, w.visible +
                                 VisibleWidth(token), StyleAfter(w.style, token));
            Faithful(see, next, done + token) && InStyle(see, next)
  {
    var piece := View(see, w.style, token);
    StyleAfterAppend(PLAIN, done, token);
    StyleAfterAppend(PLAIN, w.current, token);
    ViewAppend(see, PLAIN, done, token);
    ViewAppend(see, PLAIN, w.current, token);
    if see {
      StyleStaysOk(w.style, token);
    }
    ThinsRefl(piece);
    ThinsAppend(View(see, PLAIN, done), ViewLines(see, w.lines) + View(see, PLAIN, w.current), piece, piece);
    Associate(ViewLines(see, w.lines), View(see, PLAIN, w.current), piece);
  }

  lemma InStyleShowsAlike(see: bool, w: Wrapping, token: Line)
    requires InStyle(see, w)
    ensures ShowsAlike(see, StyleAfter(PLAIN, w.current), w.style, token)
  {
    if !see {
      Unseen(StyleAfter(PLAIN, w.current), w.style, token);
    }
  }

  /** The line is ended, without its trailing blanks, and a new one begun. */
  lemma BreakKeeps(see: bool, w: Wrapping, done: Line)
    requires Faithful(see, w, done) && GoodStyle(see, w)
    ensures var next := Wrapping(w.lines + [TrimEnd(w.current) + Reset(w.style)], Active(w.style), 0, w.style);
            Faithful(see, next, done) && InStyle(see, next)
  {
    var trimmed := TrimEnd(w.current);
    ViewLinesSnoc(see, w.lines, trimmed + Reset(w.style));
    ClosedView(see, trimmed, w.style);
    ActiveView(see, w.style);
    TrimmedView(see, PLAIN, w.current);
    var before := ViewLines(see, w.lines);
    ThinsRefl(before);
    ThinsAppend(before, before, View(see, PLAIN, w.current), View(see, PLAIN, trimmed));
    ThinsTrans(View(see, PLAIN, done), before + View(see, PLAIN, w.current), before + View(see, PLAIN, trimmed));
    assert before + View(see, PLAIN, trimmed) + [] == before + View(see, PLAIN, trimmed);
  }

  lemma {:induction false} BlankView(see: bool, st: Style, xs: Line)
    requires OnlyBlanks(xs)
    ensures forall i :: 0 <= i < |View(see, st, xs)| ==> IsBlank(View(see, st, xs)[i].cell)
  {
    if xs != [] {
      BlankView(see, st, xs[..|xs| - 1]);
    }
  }

  /** A blank token may be dropped; its codes, if any, are lost to the open line. */
  lemma DropKeeps(see: bool, w: Wrapping, done: Line, token: Line)
    requires Faithful(see, w, done) && OnlyBlanks(token)
    ensures Faithful(see, w.(style := StyleAfter(w.style, token)), done + token)
  {
    var piece := View(see, w.style, token);
    StyleAfterAppend(PLAIN, done, token);
    ViewAppend(see, PLAIN, done, token);
    BlankView(see, w.style, token);
    AllDropped(piece);
    var so := ViewLines(see, w.lines) + View(see, PLAIN, w.current);
    ThinsAppend(View(see, PLAIN, done), so, piece, []);
    AppendEmpty(so);
  }

  /** A word too wide for any line is broken. */
  predicate BrokenUp(token: Line, width: nat) {
    VisibleWidth(token) > width && !OnlyBlanks(token)
  }

  /** A token that is dropped at a line break. */
  predicate DroppedNow(w: Wrapping, token: Line, width: nat) {
    OnlyBlanks(token) && w.visible + VisibleWidth(token) > width && w.visible > 0
  }

  lemma Wrap1Keeps(see: bool, w: Wrapping, done: Line, token: Line, width: nat)
    requires Faithful(see, w, done) && GoodStyle(see, w)
    requires BrokenUp(token, width) || ShowsAlike(see, StyleAfter(PLAIN, w.current), w.style, token)
    requires see ==> CodesOk(token)
    ensures Faithful(see, Wrap1(w, token, width), done + token)
    ensures GoodStyle(see, Wrap1(w, token, width))
    ensures if DroppedNow(w, token, width)
            then Wrap1(w, token, width).current == Active(w.style) && Wrap1(w, token, width).visible == 0
            else InStyle(see, Wrap1(w, token, width))
  {
    if BrokenUp(token, width) {
      LongKeeps(see, w, done, token, width);
    } else if w.visible + VisibleWidth(token) > width && w.visible > 0 {
      var next := Wrapping(w.lines + [TrimEnd(w.current) + Reset(w.style)], Active(w.style), 0, w.style);
      BreakKeeps(see, w, done);
      if OnlyBlanks(token) {
        DropKeeps(see, next, done, token);
        if see {
          StyleStaysOk(w.style, token);
        }
      } else {
        InStyleShowsAlike(see, next, token);
        AppendKeeps(see, next, done, token);
      }
    } else {
      AppendKeeps(see, w, done, token);
    }
  }

  // ----- Tokens -----

  predicate EndsInCell(xs: Line) {
    xs != [] && xs[|xs| - 1].Cell?
  }

  predicate OnlyCodes(xs: Line) {
    forall i :: 0 <= i < |xs| ==> xs[i].Code?
  }

  ghost predicate GoodTokens(t: Tokenizer) {
    && (forall k :: 0 <= k < |t.tokens| ==> EndsInCell(t.tokens[k]))
    && (t.current == [] || EndsInCell(t.current))
    && OnlyCodes(t.pending)
  }

  lemma TogetherSnoc(lines: seq<Line>, line: Line)
    ensures Together(lines + [line]) == Together(lines) + line
  {
    assert (lines + [line])[..|lines|] == lines;
  }

  function Read(t: Tokenizer): Line {
    Together(t.tokens) + t.current + t.pending
  }

  lemma Token1Reads(t: Tokenizer, x: Item)
    ensures Read(Token1(t, x)) == Read(t) + [x]
  {
    match x {
      case Code(_) => Associate(Together(t.tokens) + t.current, t.pending, [x]);
      case Cell(_, kind, _) =>
        if (kind == Space) != t.inWhitespace && t.current != [] {
          TogetherSnoc(t.tokens, t.current);
          Associate(Together(t.tokens) + t.current, t.pending, [x]);
        } else {
          assert Together(t.tokens) + (t.current + t.pending + [x]) == Together(t.tokens) + t.current + t.pending + [x];
        }
    }
  }

  lemma Token1IsGood(t: Tokenizer, x: Item)
    requires GoodTokens(t)
    ensures GoodTokens(Token1(t, x))
  {
  }

  lemma {:induction false} TokenizerKeeps(xs: Line)
    ensures Read(TokenizeAll(xs)) == xs && GoodTokens(TokenizeAll(xs))
  {
    if xs != [] {
      var init, x := xs[..|xs| - 1], xs[|xs| - 1];
      TokenizerKeeps(init);
      Token1Reads(TokenizeAll(init), x);
      Token1IsGood(TokenizeAll(init), x);
      assert xs == init + [x];
    }
  }

  /** The tokens are the line cut into pieces; every piece but the last ends in a cluster. */
  lemma TokensAreTheLine(xs: Line)
    ensures Together(Tokens(xs)) == xs
    ensures forall k :: 0 <= k < |Tokens(xs)| ==> Tokens(xs)[k] != []
    ensures forall k :: 0 <= k < |Tokens(xs)| - 1 ==> EndsInCell(Tokens(xs)[k])
  {
    TokenizerKeeps(xs);
    var t := TokenizeAll(xs);
    if t.current + t.pending == [] {
      assert Together(t.tokens) + t.current + t.pending == Together(t.tokens);
    } else {
      TogetherSnoc(t.tokens, t.current + t.pending);
      Associate(Together(t.tokens), t.current, t.pending);
    }
  }

  /** Where a piece of a line stands in it. */
  lemma {:induction false} PieceAt(pieces: seq<Line>, k: nat) returns (start: nat)
    requires k < |pieces|
    ensures start == |Together(pieces[..k])|
    ensures start + |pieces[k]| <= |Together(pieces)| && Together(pieces)[start..start + |pieces[k]|] == pieces[k]
  {
    var n := |pieces| - 1;
    start := |Together(pieces[..k])|;
    if k < n {
      var before := PieceAt(pieces[..n], k);
      assert pieces[..n][..k] == pieces[..k];
    }
  }

  lemma AtOffset(xs: Line, start: nat, piece: Line, q: nat)
    requires start + |piece| <= |xs| && xs[start..start + |piece|] == piece && q < |piece|
    ensures xs[start + q] == piece[q]
  {
  }

  lemma {:induction false} PrefixTogether(tokens: seq<Line>, k: nat)
    requires k < |tokens|
    ensures Together(tokens[..k + 1]) == Together(tokens[..k]) + tokens[k]
  {
    assert tokens[..k + 1][..k] == tokens[..k];
  }

  lemma {:induction false} CodesOkPieces(pieces: seq<Line>, k: nat)
    requires CodesOk(Together(pieces)) && k < |pieces|
    ensures CodesOk(pieces[k])
  {
    var start := PieceAt(pieces, k);
    forall i | 0 <= i < |pieces[k]| && pieces[k][i].Code? ensures IsCode(pieces[k][i].text) {
      AtOffset(Together(pieces), start, pieces[k], i);
    }
  }

  // ----- Which dropped tokens matter -----

  /** How many codes a token starts with. */
  function Leading(token: Line): (n: nat)
    ensures n <= |token| && OnlyCodes(token[..n]) && (n < |token| ==> token[n].Cell?)
  {
    if token == [] || token[0].Cell? then 0 else 1 + Leading(token[1..])
  }

  /** The codes that a token starts with lead from both styles to the same one. */
  predicate Merges(a: Style, b: Style, token: Line) {
    StyleAfter(a, token[..Leading(token)]) == StyleAfter(b, token[..Leading(token)])
  }

  lemma {:induction false} CodesAreNotViewed(see: bool, st: Style, xs: Line)
    requires OnlyCodes(xs)
    ensures View(see, st, xs) == []
  {
    if xs != [] {
      CodesAreNotViewed(see, st, xs[..|xs| - 1]);
    }
  }

  lemma LeadThenRest(see: bool, st: Style, token: Line)
    ensures var n := Leading(token);
            && View(see, st, token) == View(see, StyleAfter(st, token[..n]), token[n..])
            && StyleAfter(st, token) == StyleAfter(StyleAfter(st, token[..n]), token[n..])
  {
    var n := Leading(token);
    assert token == token[..n] + token[n..];
    CodesAreNotViewed(see, st, token[..n]);
    ViewAppend(see, st, token[..n], token[n..]);
    StyleAfterAppend(st, token[..n], token[n..]);
  }

  lemma MergedShowsAlike(see: bool, a: Style, b: Style, token: Line)
    requires see ==> Merges(a, b, token)
    ensures ShowsAlike(see, a, b, token)
  {
    if see {
      LeadThenRest(see, a, token);
      LeadThenRest(see, b, token);
    } else {
      Unseen(a, b, token);
    }
  }

  /** The style and the width that the tokens before token `k` come to. */
  function StyleAt(tokens: seq<Line>, k: nat): Style
    requires k <= |tokens|
  {
    StyleAfter(PLAIN, Together(tokens[..k]))
  }

  function WidthAt(tokens: seq<Line>, k: nat): nat
    requires k <= |tokens|
  {
    VisibleWidth(Together(tokens[..k]))
  }

  /** A blank token behind something visible, so that it can be dropped, and not so that the next
      token is too wide for its line and is broken up. */
  predicate Droppable(tokens: seq<Line>, k: nat)
    requires k + 1 < |tokens|
  {
    && OnlyBlanks(tokens[k]) && WidthAt(tokens, k) > 0
    && (OnlyBlanks(tokens[k + 1]) || VisibleWidth(tokens[k + 1]) < WidthAt(tokens, k + 1))
  }

  /** Its codes make a difference to what the next token shows. */
  predicate LosesStyle(tokens: seq<Line>, k: nat)
    requires k + 1 < |tokens|
  {
    Droppable(tokens, k) && !Merges(StyleAt(tokens, k), StyleAt(tokens, k + 1), tokens[k + 1])
  }

  /** No token that can be dropped carries codes that matter. */
  ghost predicate Safe(xs: Line) {
    forall k :: 0 <= k < |Tokens(xs)| - 1 ==> !LosesStyle(Tokens(xs), k)
  }

  // ----- The width so far -----

  lemma {:induction false} WidthAppend(a: Line, b: Line)
    ensures VisibleWidth(a + b) == VisibleWidth(a) + VisibleWidth(b)
    decreases |b|
  {
    if b == [] {
      AppendEmpty(a);
    } else {
      assert (a + b)[..|a + b| - 1] == a + b[..|b| - 1];
      WidthAppend(a, b[..|b| - 1]);
    }
  }

  lemma {:induction false} CodesHaveNoWidth(xs: Line)
    requires OnlyCodes(xs)
    ensures VisibleWidth(xs) == 0
  {
    if xs != [] {
      CodesHaveNoWidth(xs[..|xs| - 1]);
    }
  }

  lemma OneWidth(x: Item)
    ensures VisibleWidth([x]) == Columns(x)
  {
    assert [x][..0] == [];
  }

  lemma {:induction false} LastPieceIsNarrower(word: Line, width: nat, st: Style)
    ensures VisibleWidth(BreakAll(word, width, st).current) <= VisibleWidth(word)
  {
    if word == [] {
      CodesHaveNoWidth(Active(st));
    } else {
      var init, x := word[..|word| - 1], word[|word| - 1];
      var b := BreakAll(init, width, st);
      LastPieceIsNarrower(init, width, st);
      WidthAppend(b.current, [x]);
      WidthAppend(Active(b.style), [x]);
      CodesHaveNoWidth(Active(b.style));
      OneWidth(x);
    }
  }

  lemma Wrap1IsNarrower(w: Wrapping, token: Line, width: nat)
    ensures Wrap1(w, token, width).visible <= w.visible + VisibleWidth(token)
  {
    if BrokenUp(token, width) {
      var b := BreakAll(token, width, w.style);
      LastPieceIsNarrower(token, width, w.style);
      BrokenWordIsOpen(token, width, w.style);
      TakeBack(b.lines, b.current);
    }
  }

  // ----- One line -----

  /** A token was dropped just now: the open line has only the codes of the style before it. */
  ghost predicate JustDropped(w: Wrapping, tokens: seq<Line>, k: nat, width: nat)
    requires k <= |tokens|
  {
    && 0 < k && OnlyBlanks(tokens[k - 1]) && WidthAt(tokens, k - 1) > 0 && width < WidthAt(tokens, k)
    && StyleOk(StyleAt(tokens, k - 1))
    && w.visible == 0 && w.current == Active(StyleAt(tokens, k - 1))
  }

  /** The first `k` tokens have been wrapped. */
  ghost predicate WrappedSoFar(see: bool, w: Wrapping, tokens: seq<Line>, k: nat, width: nat)
    requires k <= |tokens|
  {
    && Faithful(see, w, Together(tokens[..k])) && GoodStyle(see, w) && w.visible <= WidthAt(tokens, k)
    && (InStyle(see, w) || JustDropped(w, tokens, k, width))
  }

  /** After a token was dropped: the next is broken up, or its own codes make up for those lost. */
  lemma NextShowsAlike(see: bool, w: Wrapping, xs: Line, k: nat, width: nat)
    requires k < |Tokens(xs)| && WrappedSoFar(see, w, Tokens(xs), k, width) && (see ==> Safe(xs))
    ensures BrokenUp(Tokens(xs)[k], width) || ShowsAlike(see, StyleAfter(PLAIN, w.current), w.style, Tokens(xs)[k])
  {
    var tokens := Tokens(xs);
    if InStyle(see, w) {
      InStyleShowsAlike(see, w, tokens[k]);
    } else if !BrokenUp(tokens[k], width) {
      ActiveView(see, StyleAt(tokens, k - 1));
      assert see ==> !LosesStyle(tokens, k - 1);
      MergedShowsAlike(see, StyleAt(tokens, k - 1), w.style, tokens[k]);
    }
  }

  lemma WrapNext(see: bool, w: Wrapping, tokens: seq<Line>, k: nat, width: nat)
    requires k < |tokens| && WrappedSoFar(see, w, tokens, k, width)
    requires BrokenUp(tokens[k], width) || ShowsAlike(see, StyleAfter(PLAIN, w.current), w.style, tokens[k])
    requires see ==> CodesOk(tokens[k]) && StyleOk(StyleAt(tokens, k))
    ensures WrappedSoFar(see, Wrap1(w, tokens[k], width), tokens, k + 1, width)
  {
    var done := Together(tokens[..k]);
    PrefixTogether(tokens, k);
    WidthAppend(done, tokens[k]);
    Wrap1Keeps(see, w, done, tokens[k], width);
    Wrap1IsNarrower(w, tokens[k], width);
  }

  lemma {:induction false} WrapAllKeeps(see: bool, xs: Line, width: nat, k: nat)
    requires k <= |Tokens(xs)| && (see ==> Safe(xs) && CodesOk(xs))
    ensures WrappedSoFar(see, WrapAll(Tokens(xs)[..k], width), Tokens(xs), k, width)
  {
    var tokens := Tokens(xs);
    if k == 0 {
      assert tokens[..0] == [];
      ThinsRefl([]);
    } else {
      var w := WrapAll(tokens[..k - 1], width);
      WrapAllKeeps(see, xs, width, k - 1);
      TakeNext(tokens, k - 1);
      if see {
        TokensAreTheLine(xs);
        CodesOkPieces(tokens, k - 1);
        StyleAtIsOk(tokens, k - 1);
      }
      NextShowsAlike(see, w, xs, k - 1, width);
      WrapNext(see, w, tokens, k - 1, width);
    }
  }

  lemma {:induction false} StyleAtIsOk(tokens: seq<Line>, k: nat)
    requires CodesOk(Together(tokens)) && k <= |tokens|
    ensures StyleOk(StyleAt(tokens, k))
    decreases k
  {
    if k > 0 {
      StyleAtIsOk(tokens, k - 1);
      CodesOkPieces(tokens, k - 1);
      PrefixTogether(tokens, k - 1);
      StyleAfterAppend(PLAIN, Together(tokens[..k - 1]), tokens[k - 1]);
      StyleStaysOk(StyleAt(tokens, k - 1), tokens[k - 1]);
    }
  }

  lemma {:induction false} TrimmedKeeps(see: bool, lines: seq<Line>)
    ensures Thins(ViewLines(see, lines), ViewLines(see, Trimmed(lines)))
  {
    if lines != [] {
      var n := |lines| - 1;
      TrimmedKeeps(see, lines[..n]);
      assert Trimmed(lines)[..n] == Trimmed(lines[..n]);
      TrimmedView(see, PLAIN, lines[n]);
      ThinsAppend(ViewLines(see, lines[..n]), ViewLines(see, Trimmed(lines[..n])), View(see, PLAIN, lines[n]),
                  View(see, PLAIN, TrimEnd(lines[n])));
    }
  }

  lemma OneLine(see: bool, line: Line)
    ensures ViewLines(see, [line]) == View(see, PLAIN, line)
  {
    assert [line][..0] == [];
    assert [] + View(see, PLAIN, line) == View(see, PLAIN, line);
  }

  lemma WrappedLineKeeps(see: bool, xs: Line, width: nat)
    requires see ==> Safe(xs) && CodesOk(xs)
    ensures Thins(View(see, PLAIN, xs), ViewLines(see, WrappedLine(xs, width)))
  {
    var view := View(see, PLAIN, xs);
    if xs == [] || VisibleWidth(xs) <= width {
      OneLine(see, xs);
      ThinsRefl(view);
    } else {
      var tokens := Tokens(xs);
      var w := WrapAll(tokens, width);
      WrapAllKeeps(see, xs, width, |tokens|);
      assert tokens[..|tokens|] == tokens;
      TokensAreTheLine(xs);
      var lines := Collected(w);
      if w.current != [] {
        ViewLinesSnoc(see, w.lines, w.current);
      }
      assert ViewLines(see, lines) == ViewLines(see, w.lines) + View(see, PLAIN, w.current);
      if lines == [] {
        OneLine(see, []);
      } else {
        TrimmedKeeps(see, lines);
        ThinsTrans(view, ViewLines(see, lines), ViewLines(see, Trimmed(lines)));
      }
    }
  }

  // ----- A text of several lines -----

  /** Every line is safe as it is wrapped, with the codes put before it. */
  ghost predicate SafeLines(lines: seq<Line>) {
    forall i :: 0 <= i < |lines| ==> Safe(Prefix(lines[..i]) + lines[i])
  }

  lemma CodesOkAppend(a: Line, b: Line)
    ensures CodesOk(a + b) <==> CodesOk(a) && CodesOk(b)
  {
    if CodesOk(a + b) {
      forall i | 0 <= i < |a| && a[i].Code? ensures IsCode(a[i].text) { assert (a + b)[i] == a[i]; }
      forall i | 0 <= i < |b| && b[i].Code? ensures IsCode(b[i].text) { assert (a + b)[|a| + i] == b[i]; }
    }
  }

  lemma ActiveIsOk(st: Style)
    requires StyleOk(st)
    ensures CodesOk(Active(st))
  {
    ActiveCodesRestore(st);
  }

  /** What precedes a line: nothing for the first, else the codes of the style reached. */
  function Prefix(init: seq<Line>): Line {
    if init == [] then [] else Active(StyleAfter(PLAIN, Together(init)))
  }

  lemma ContinuedView(see: bool, init: seq<Line>, line: Line)
    requires see ==> CodesOk(Together(init)) && CodesOk(line)
    ensures View(see, PLAIN, Prefix(init) + line) == View(see, StyleAfter(PLAIN, Together(init)), line)
    ensures see ==> CodesOk(Prefix(init) + line)
  {
    var st := StyleAfter(PLAIN, Together(init));
    if init == [] {
      assert [] + line == line;
    } else {
      ViewAppend(see, PLAIN, Active(st), line);
      ActiveView(see, st);
      if see {
        StyleStaysOk(PLAIN, Together(init));
        ActiveIsOk(st);
        CodesOkAppend(Active(st), line);
      } else {
        Unseen(StyleAfter(PLAIN, Active(st)), st, line);
      }
      assert [] + View(see, st, line) == View(see, st, line);
    }
  }

  lemma {:induction false} WrappedLinesKeep(see: bool, lines: seq<Line>, width: nat)
    requires see ==> CodesOk(Together(lines)) && SafeLines(lines)
    ensures Thins(View(see, PLAIN, Together(lines)), ViewLines(see, WrappedLines(lines, width)))
  {
    if lines != [] {
      var init, line := lines[..|lines| - 1], lines[|lines| - 1];
      CodesOkAppend(Together(init), line);
      assert see ==> Safe(Prefix(init) + line);
      assert forall i :: 0 <= i < |init| ==> init[..i] == lines[..i];
      WrappedLinesKeep(see, init, width);
      ContinuedView(see, init, line);
      WrappedLineKeeps(see, Prefix(init) + line, width);
      ViewAppend(see, PLAIN, Together(init), line);
      ViewLinesAppend(see, WrappedLines(init, width), WrappedLine(Prefix(init) + line, width));
      ThinsAppend(View(see, PLAIN, Together(init)), ViewLines(see, WrappedLines(init, width)),
                  View(see, StyleAfter(PLAIN, Together(init)), line),
                    ViewLines(see, WrappedLine(Prefix(init) + line, width)));
    }
  }

  /** Only the line breaks are taken out of the text. */
  lemma {:induction false} LinesAreTheText(text: seq<Piece>)
    ensures Together(InputLines(text)) == PrintedItems(text)
  {
    if text == [] {
      var none: seq<Line> := [];
      TogetherSnoc(none, []);
      assert none + [[]] == [[]];
    } else {
      var init, p := text[..|text| - 1], text[|text| - 1];
      LinesAreTheText(init);
      var lines := InputLines(init);
      var n := |lines| - 1;
      match p {
        case Printed(x) =>
          TogetherSnoc(lines[..n], lines[n] + [x]);
          Associate(Together(lines[..n]), lines[n], [x]);
        case CarriageReturn => TogetherSnoc(lines, []);
        case LineFeed => TogetherSnoc(lines, []);
      }
    }
  }

  /** A line break: a carriage return, a line feed, or the one followed by the other. */
  predicate IsBreak(text: seq<Piece>) {
    text == [CarriageReturn] || text == [LineFeed] || text == [CarriageReturn, LineFeed]
  }

  predicate EndsInReturn(text: seq<Piece>) {
    text != [] && text[|text| - 1] == CarriageReturn
  }

  /** The lines after one more character. */
  function LinesWith(lines: seq<Line>, returned: bool, p: Piece): seq<Line>
    requires lines != []
  {
    match p
    case Printed(x) => lines[..|lines| - 1] + [lines[|lines| - 1] + [x]]
    case CarriageReturn => lines + [[]]
    case LineFeed => if returned then lines else lines + [[]]
  }

  lemma InputLinesSnoc(text: seq<Piece>, p: Piece)
    ensures InputLines(text + [p]) == LinesWith(InputLines(text), EndsInReturn(text), p)
  {
    TakeBack(text, p);
  }

  lemma LinesBefore(lines: seq<Line>, own: seq<Line>, returned: bool, p: Piece)
    requires own != []
    ensures LinesWith(lines + own, returned, p) == lines + LinesWith(own, returned, p)
  {
    var n := |own| - 1;
    assert (lines + own)[..|lines + own| - 1] == lines + own[..n];
  }

  /** Characters that follow a whole break. */
  lemma {:induction false} LinesGoOn(before: seq<Piece>, after: seq<Piece>, lines: seq<Line>)
    requires InputLines(before) == lines + [[]]
    requires after != [] && after[0] == LineFeed ==> !EndsInReturn(before)
    ensures InputLines(before + after) == lines + InputLines(after)
    decreases |after|
  {
    if after == [] {
      AppendEmpty(before);
    } else {
      var init, p := after[..|after| - 1], after[|after| - 1];
      assert after == init + [p];
      LinesGoOn(before, init, lines);
      Associate(before, init, [p]);
      InputLinesSnoc(before + init, p);
      InputLinesSnoc(init, p);
      LinesBefore(lines, InputLines(init), EndsInReturn(init), p);
      assert p == LineFeed ==> EndsInReturn(before + init) == EndsInReturn(init);
    }
  }

  lemma BreakEndsLine(before: seq<Piece>, brk: seq<Piece>)
    requires IsBreak(brk)
    requires brk == [LineFeed] ==> !EndsInReturn(before)
    ensures InputLines(before + brk) == InputLines(before) + [[]]
  {
    TakeBack(before, brk[0]);
    if |brk| == 2 {
      assert before + brk == before + [CarriageReturn] + [LineFeed];
      TakeBack(before + [CarriageReturn], LineFeed);
    } else {
      assert before + brk == before + [brk[0]];
    }
  }

  /** Every break ends one line and begins another, both characters of it if there are two: the lines
      around it are those of the texts before and after it.  A text without a break is one line. */
  lemma BreaksSplitTheText(before: seq<Piece>, brk: seq<Piece>, after: seq<Piece>)
    requires IsBreak(brk)
    requires brk == [LineFeed] ==> !EndsInReturn(before)
    requires brk == [CarriageReturn] && after != [] ==> after[0] != LineFeed
    ensures InputLines(before + brk + after) == InputLines(before) + InputLines(after)
  {
    BreakEndsLine(before, brk);
    LinesGoOn(before + brk, after, InputLines(before));
  }

  lemma {:induction false} NoBreakOneLine(text: seq<Piece>)
    requires forall i :: 0 <= i < |text| ==> text[i].Printed?
    ensures InputLines(text) == [PrintedItems(text)]
  {
    if text != [] {
      NoBreakOneLine(text[..|text| - 1]);
    }
  }

  lemma WrappedTextKeeps(see: bool, text: seq<Piece>, width: nat)
    requires see ==> CodesOk(PrintedItems(text)) && SafeLines(InputLines(text))
    ensures Thins(View(see, PLAIN, PrintedItems(text)), ViewLines(see, WrappedText(text, width)))
  {
    LinesAreTheText(text);
    if text == [] {
      OneLine(see, []);
    } else {
      WrappedLinesKeep(see, InputLines(text), width);
    }
  }

  /** Main result: wrapping preserves style, at every width.  Each surviving cluster, its output line shown by a
      terminal that starts afresh, has the SGR and hyperlink state it has in the text. */
  lemma WrappingKeepsStyle(text: seq<Piece>, width: nat)
    requires CodesOk(PrintedItems(text)) && SafeLines(InputLines(text))
    ensures Thins(View(true, PLAIN, PrintedItems(text)), ViewLines(true, WrappedText(text, width)))
    ensures Inked(View(true, PLAIN, PrintedItems(text))) == Inked(ViewLines(true, WrappedText(text, width)))
  {
    WrappedTextKeeps(true, text, width);
    ThinsKeepsInk(View(true, PLAIN, PrintedItems(text)), ViewLines(true, WrappedText(text, width)));
  }

  /** Main result, for any text and codes: no cluster is lost, duplicated or moved, except that
      white space may be dropped. */
  lemma WrappingKeepsClusters(text: seq<Piece>, width: nat)
    ensures Thins(View(false, PLAIN, PrintedItems(text)), ViewLines(false, WrappedText(text, width)))
    ensures Inked(View(false, PLAIN, PrintedItems(text))) == Inked(ViewLines(false, WrappedText(text, width)))
  {
    WrappedTextKeeps(false, text, width);
    ThinsKeepsInk(View(false, PLAIN, PrintedItems(text)), ViewLines(false, WrappedText(text, width)));
  }
}
