/** Why a wrapped line ends where it does: the next token or cluster would not have fit. */
module WrapGreedy {
  import opened Types
  import opened Tracker
  import opened Wrap
  import opened WrapTheorems

  // ----- Clusters and their widths -----

  function Cells(xs: Line): Line {
    if xs == [] then [] else Cells(xs[..|xs| - 1]) + (if xs[|xs| - 1].Cell? then [xs[|xs| - 1]] else [])
  }

  /** The width of the clusters as a long word is broken. */
  function ClusterWidth(xs: Line): nat {
    if xs == [] then 0 else ClusterWidth(xs[..|xs| - 1]) + ClusterColumns(xs[|xs| - 1])
  }

  lemma {:induction false} CellsAppend(a: Line, b: Line)
    ensures Cells(a + b) == Cells(a) + Cells(b)
    decreases |b|
  {
    if b == [] {
      AppendEmpty(a);
    } else {
      assert (a + b)[..|a + b| - 1] == a + b[..|b| - 1];
      CellsAppend(a, b[..|b| - 1]);
    }
  }

  lemma {:induction false} CodesAreNoCells(codes: seq<string>)
    ensures Cells(CodeItems(codes)) == []
  {
    if codes != [] {
      CodesAreNoCells(codes[..|codes| - 1]);
      assert CodeItems(codes)[..|codes| - 1] == CodeItems(codes[..|codes| - 1]);
    }
  }

  lemma {:induction false} CellsHaveTheWidth(xs: Line)
    ensures VisibleWidth(Cells(xs)) == VisibleWidth(xs)
  {
    if xs != [] {
      var n := |xs| - 1;
      CellsHaveTheWidth(xs[..n]);
      if xs[n].Cell? {
        WidthAppend(Cells(xs[..n]), [xs[n]]);
        OneWidth(xs[n]);
      } else {
        AppendEmpty(Cells(xs[..n]));
      }
    }
  }

  lemma ClosedCells(xs: Line, st: Style)
    ensures Cells(xs + Reset(st)) == Cells(xs)
  {
    CellsAppend(xs, Reset(st));
    CodesAreNoCells(LineEndReset(st));
  }

  lemma ContinuedCells(st: Style, xs: Line)
    ensures Cells(Active(st)) == [] && Cells(Active(st) + xs) == Cells(xs)
  {
    CellsAppend(Active(st), xs);
    CodesAreNoCells(ActiveCodes(st));
    EmptyThen(Cells(xs));
  }

  lemma OneMore(xs: Line, x: Item)
    ensures Cells(xs + [x]) == Cells(xs) + (if x.Cell? then [x] else [])
    ensures ClusterWidth(xs + [x]) == ClusterWidth(xs) + ClusterColumns(x)
  {
    var all := xs + [x];
    assert all[..|all| - 1] == xs && all[|all| - 1] == x;
  }

  lemma OneCell(x: Item)
    requires x.Cell?
    ensures Cells([x]) == [x] && ClusterWidth([x]) == ClusterColumns(x)
  {
    var none: Line := [];
    EmptyThen([x]);
    OneMore(none, x);
  }

  // ----- The pieces of a long word -----

  /** What the next piece begins with did not fit on this one. */
  predicate FilledBefore(piece: Line, next: Line, width: nat) {
    Cells(next) != [] && ClusterWidth(Cells(piece)) + ClusterColumns(Cells(next)[0]) > width
  }

  predicate Filled(pieces: seq<Line>, width: nat) {
    forall i :: 0 < i < |pieces| ==> FilledBefore(pieces[i - 1], pieces[i], width)
  }

  lemma FilledLonger(lines: seq<Line>, current: Line, x: Item, width: nat)
    requires Filled(lines + [current], width)
    ensures Filled(lines + [current + [x]], width)
  {
    OneMore(current, x);
    forall i | 0 < i < |lines| + 1
      ensures FilledBefore((lines + [current + [x]])[i - 1], (lines + [current + [x]])[i], width)
    {
      assert FilledBefore((lines + [current])[i - 1], (lines + [current])[i], width);
    }
  }

  lemma FilledNext(lines: seq<Line>, current: Line, closed: Line, next: Line, width: nat)
    requires Filled(lines + [current], width) && Cells(closed) == Cells(current) && FilledBefore(closed, next, width)
    ensures Filled(lines + [closed] + [next], width)
  {
    forall i | 0 < i < |lines| + 2
      ensures FilledBefore((lines + [closed] + [next])[i - 1], (lines + [closed] + [next])[i], width)
    {
      if i <= |lines| {
        assert FilledBefore((lines + [current])[i - 1], (lines + [current])[i], width);
      }
    }
  }

  /** A new piece that starts with this cluster. */
  function NextPiece(b: Breaking, x: Item): Breaking {
    Breaking(b.lines + [b.current + Reset(b.style)], Active(b.style) + [x], ClusterColumns(x), b.style)
  }

  ghost predicate Filling(b: Breaking, width: nat) {
    Filled(b.lines + [b.current], width) && b.columns == ClusterWidth(Cells(b.current))
  }

  lemma FillsMore(b: Breaking, x: Item, width: nat)
    requires Filling(b, width) && (x.Cell? ==> b.columns + ClusterColumns(x) <= width)
    ensures Filling(Break1(b, x, width), width)
  {
    FilledLonger(b.lines, b.current, x, width);
    OneMore(b.current, x);
    AppendEmpty(Cells(b.current));
    OneMore(Cells(b.current), x);
  }

  lemma NoRoomOn(piece: Line, st: Style, x: Item, width: nat)
    requires x.Cell? && ClusterWidth(Cells(piece)) + ClusterColumns(x) > width
    ensures Cells(piece + Reset(st)) == Cells(piece)
    ensures FilledBefore(piece + Reset(st), Active(st) + [x], width)
    ensures ClusterWidth(Cells(Active(st) + [x])) == ClusterColumns(x)
  {
    ClosedCells(piece, st);
    ContinuedCells(st, [x]);
    OneCell(x);
  }

  lemma FillsAnother(b: Breaking, x: Item, width: nat)
    requires Filling(b, width) && x.Cell? && b.columns + ClusterColumns(x) > width
    ensures Filling(NextPiece(b, x), width)
  {
    NoRoomOn(b.current, b.style, x, width);
    FilledNext(b.lines, b.current, b.current + Reset(b.style), Active(b.style) + [x], width);
  }

  lemma {:induction false} BreakingFills(word: Line, width: nat, st: Style)
    ensures Filling(BreakAll(word, width, st), width)
  {
    if word == [] {
      ContinuedCells(st, []);
    } else {
      var init, x := word[..|word| - 1], word[|word| - 1];
      BreakingFills(init, width, st);
      if x.Cell? && BreakAll(init, width, st).columns + ClusterColumns(x) > width {
        FillsAnother(BreakAll(init, width, st), x, width);
      } else {
        FillsMore(BreakAll(init, width, st), x, width);
      }
    }
  }

  /** Main result, for any broken word: a piece ends only because the first cluster of the next piece
      would not have fit on it any more. */
  lemma PiecesAreFull(word: Line, width: nat, st: Style, i: nat)
    requires 0 < i < |Pieces(word, width, st)|
    ensures var piece, next := Cells(Pieces(word, width, st)[i - 1]), Cells(Pieces(word, width, st)[i]);
            next != [] && ClusterWidth(piece) + ClusterColumns(next[0]) > width
  {
    var b := BreakAll(word, width, st);
    BreakingFills(word, width, st);
    assert Pieces(word, width, st)[i] == (b.lines + [b.current])[i];
    assert FilledBefore((b.lines + [b.current])[i - 1], (b.lines + [b.current])[i], width);
  }

  // ----- Tokens -----

  /** All clusters of a token are spaces, or none is. */
  predicate Run(cells: Line, spaces: bool) {
    cells != [] && forall i :: 0 <= i < |cells| ==> (cells[i].Cell? && (cells[i].kind == Space <==> spaces))
  }

  /** Runs that take turns, the last of them of this kind. */
  predicate Alternates(tokens: seq<Line>, spaces: bool) {
    tokens != [] ==>
      Run(Cells(tokens[|tokens| - 1]), spaces) && Alternates(tokens[..|tokens| - 1], !spaces)
  }

  ghost predicate GoodRuns(t: Tokenizer) {
    && OnlyCodes(t.pending)
    && if t.current == [] then t.tokens == [] else Alternates(t.tokens + [t.current], t.inWhitespace)
  }

  lemma {:induction false} OnlyCodesNoCells(xs: Line)
    requires OnlyCodes(xs)
    ensures Cells(xs) == []
  {
    if xs != [] {
      OnlyCodesNoCells(xs[..|xs| - 1]);
    }
  }

  /** A token that goes on. */
  lemma RunLonger(tokens: seq<Line>, current: Line, pending: Line, x: Item, spaces: bool)
    requires x.Cell? && (x.kind == Space <==> spaces) && OnlyCodes(pending)
    requires Alternates(tokens, !spaces) && (current != [] ==> Run(Cells(current), spaces))
    ensures Alternates(tokens + [current + pending + [x]], spaces)
  {
    OnlyCodesNoCells(pending);
    CellsAppend(current, pending);
    OneMore(current + pending, x);
    TakeBack(tokens, current + pending + [x]);
  }

  lemma Token1Runs(t: Tokenizer, x: Item)
    requires GoodRuns(t)
    ensures GoodRuns(Token1(t, x))
  {
    if x.Cell? {
      var space := x.kind == Space;
      TakeBack(t.tokens, t.current);
      if space != t.inWhitespace && t.current != [] {
        RunLonger(t.tokens + [t.current], [], t.pending, x, space);
        EmptyThen(t.pending);
      } else {
        RunLonger(t.tokens, t.current, t.pending, x, space);
      }
    }
  }

  lemma {:induction false} TokenizerRuns(xs: Line)
    ensures GoodRuns(TokenizeAll(xs))
    ensures TokenizeAll(xs).current == [] ==> Cells(xs) == []
  {
    if xs != [] {
      TokenizerRuns(xs[..|xs| - 1]);
      Token1Runs(TokenizeAll(xs[..|xs| - 1]), xs[|xs| - 1]);
    }
  }

  lemma {:induction false} AlternatesAt(tokens: seq<Line>, spaces: bool, k: nat)
    requires Alternates(tokens, spaces) && k < |tokens|
    ensures Run(Cells(tokens[k]), true) || Run(Cells(tokens[k]), false)
    ensures k + 1 < |tokens| ==> (Run(Cells(tokens[k]), true) <==> Run(Cells(tokens[k + 1]), false))
    decreases |tokens|
  {
    if k + 1 < |tokens| {
      var n := |tokens| - 1;
      AlternatesAt(tokens[..n], !spaces, k);
      if k + 1 == n {
        OneKind(Cells(tokens[..n][k]), !spaces);
        OneKind(Cells(tokens[n]), spaces);
      }
    }
  }

  lemma OneKind(cells: Line, spaces: bool)
    requires Run(cells, spaces)
    ensures !Run(cells, !spaces)
  {
    assert cells[0].kind == Space <==> spaces;
  }

  lemma LastRun(t: Tokenizer)
    requires GoodRuns(t) && t.current != []
    ensures t.current + t.pending != [] && Alternates(t.tokens + [t.current + t.pending], t.inWhitespace)
  {
    OnlyCodesNoCells(t.pending);
    CellsAppend(t.current, t.pending);
    AppendEmpty(Cells(t.current));
    TakeBack(t.tokens, t.current);
    TakeBack(t.tokens, t.current + t.pending);
  }

  /** The tokens of a line with any cluster at all are its runs of spaces and of other clusters, and
      each is as long as it can be: a run of spaces is followed by one of others and the other way
      round. */
  lemma TokensAreRuns(xs: Line, k: nat)
    requires Cells(xs) != [] && k < |Tokens(xs)|
    ensures Run(Cells(Tokens(xs)[k]), true) || Run(Cells(Tokens(xs)[k]), false)
    ensures k + 1 < |Tokens(xs)| ==> (Run(Cells(Tokens(xs)[k]), true) <==> Run(Cells(Tokens(xs)[k + 1]), false))
  {
    TokenizerRuns(xs);
    LastRun(TokenizeAll(xs));
    AlternatesAt(Tokens(xs), TokenizeAll(xs).inWhitespace, k);
  }

  // ----- The lines of one input line -----

  /** How many clusters the first `k` tokens have. */
  function CellsBefore(tokens: seq<Line>, k: nat): nat
    requires k <= |tokens|
  {
    |Cells(Together(tokens[..k]))|
  }

  function AllCells(tokens: seq<Line>): Line {
    Cells(Together(tokens))
  }

  /** A part of a line without some blanks at its end. */
  predicate ButBlanks(part: Line, cells: Line) {
    part <= cells && forall i :: |part| <= i < |cells| ==> IsBlank(cells[i])
  }

  /** The line shows these clusters of the input, perhaps without some blanks at the end. */
  predicate ShowsSpan(line: Line, cells: Line, p: nat, q: nat) {
    p <= q <= |cells| && ButBlanks(Cells(line), cells[p..q])
  }

  /** A line that shows the clusters from `p` on ends before token `k`, which does not fit behind them. */
  predicate NoRoomForToken(tokens: seq<Line>, width: nat, p: nat, q: nat, k: nat)
    requires k < |tokens| && p <= q <= |AllCells(tokens)|
  {
    && q == CellsBefore(tokens, k)
    && VisibleWidth(AllCells(tokens)[p..q]) + VisibleWidth(tokens[k]) > width
    && (p < q || BrokenUp(tokens[k], width))
  }

  /** It ends with the blank token `k`, which does not fit and is dropped. */
  predicate NoRoomForBlank(tokens: seq<Line>, width: nat, p: nat, q: nat, k: nat)
    requires k < |tokens| && p <= q <= |AllCells(tokens)|
  {
    && OnlyBlanks(tokens[k]) && q == CellsBefore(tokens, k + 1) && p < CellsBefore(tokens, k) <= q
    && VisibleWidth(AllCells(tokens)[p..CellsBefore(tokens, k)]) + VisibleWidth(tokens[k]) > width
  }

  /** It ends within token `k`, too wide for any line, before a cluster that does not fit. */
  predicate NoRoomForCluster(tokens: seq<Line>, width: nat, p: nat, q: nat, k: nat)
    requires k < |tokens| && p <= q <= |AllCells(tokens)|
  {
    && BrokenUp(tokens[k], width) && CellsBefore(tokens, k) <= p && q < CellsBefore(tokens, k + 1)
    && q < |AllCells(tokens)|
    && ClusterWidth(AllCells(tokens)[p..q]) + ClusterColumns(AllCells(tokens)[q]) > width
  }

  ghost predicate Full(tokens: seq<Line>, width: nat, p: nat, q: nat) {
    && p <= q <= |AllCells(tokens)|
    && exists k: nat :: k < |tokens| &&
         (NoRoomForToken(tokens, width, p, q, k) || NoRoomForBlank(tokens, width, p, q, k) ||
          NoRoomForCluster(tokens, width, p, q, k))
  }

  ghost predicate Ended(tokens: seq<Line>, width: nat, line: Line, p: nat, q: nat) {
    ShowsSpan(line, AllCells(tokens), p, q) && Full(tokens, width, p, q)
  }

  /** The lines so far show the clusters from each start to the next, and each had to end there. */
  ghost predicate AllEnded(tokens: seq<Line>, width: nat, lines: seq<Line>, starts: seq<nat>): (r: bool)
    ensures r ==> |starts| == |lines| + 1
  {
    if lines == [] then starts == [0]
    else
      var n := |lines| - 1;
      && |starts| == |lines| + 1 && AllEnded(tokens, width, lines[..n], starts[..n + 1])
      && Ended(tokens, width, lines[n], starts[n], starts[n + 1])
  }

  lemma AllEndedSnoc(tokens: seq<Line>, width: nat, lines: seq<Line>, starts: seq<nat>, line: Line, q: nat)
    requires AllEnded(tokens, width, lines, starts) && Ended(tokens, width, line, starts[|lines|], q)
    ensures AllEnded(tokens, width, lines + [line], starts + [q])
  {
    TakeBack(lines, line);
    TakeBack(starts, q);
  }

  lemma {:induction false} EndedAt(tokens: seq<Line>, width: nat, lines: seq<Line>, starts: seq<nat>, i: nat)
    requires AllEnded(tokens, width, lines, starts) && i < |lines|
    ensures Ended(tokens, width, lines[i], starts[i], starts[i + 1]) && starts[0] == 0
    decreases |lines|
  {
    if i < |lines| - 1 {
      EndedAt(tokens, width, lines[..|lines| - 1], starts[..|lines|], i);
    } else if i > 0 {
      EndedAt(tokens, width, lines[..|lines| - 1], starts[..|lines|], i - 1);
    }
  }

  /** Where the clusters of a token stand. */
  lemma TokenCells(tokens: seq<Line>, k: nat)
    requires k < |tokens|
    ensures CellsBefore(tokens, k + 1) == CellsBefore(tokens, k) + |Cells(tokens[k])| <= |AllCells(tokens)|
    ensures AllCells(tokens)[CellsBefore(tokens, k)..CellsBefore(tokens, k + 1)] == Cells(tokens[k])
  {
    CellsGrow(tokens, k + 1);
    PrefixTogether(tokens, k);
    CellsAppend(Together(tokens[..k]), tokens[k]);
  }

  lemma {:induction false} CellsGrow(tokens: seq<Line>, k: nat)
    requires k <= |tokens|
    ensures Cells(Together(tokens[..k])) <= AllCells(tokens)
    decreases |tokens|
  {
    if k == |tokens| {
      TakeAll(tokens);
    } else {
      var n := |tokens| - 1;
      CellsGrow(tokens[..n], k);
      assert tokens[..n][..k] == tokens[..k];
      CellsAppend(Together(tokens[..n]), tokens[n]);
    }
  }

  // ----- The open line -----

  /** The open line shows all clusters from its start up to `n`. */
  ghost predicate OpenFrom(tokens: seq<Line>, current: Line, start: nat, n: nat) {
    start <= n <= |AllCells(tokens)| && Cells(current) == AllCells(tokens)[start..n]
  }

  /** The lines have ended as they had to, and the open line shows the clusters behind them up to `n`. */
  ghost predicate UpTo(tokens: seq<Line>, width: nat, lines: seq<Line>, starts: seq<nat>, current: Line, n: nat) {
    AllEnded(tokens, width, lines, starts) && OpenFrom(tokens, current, starts[|lines|], n)
  }

  /** A line that shows all of the open line, but for codes and blanks, ends. */
  lemma EndLine(tokens: seq<Line>, width: nat, lines: seq<Line>, starts: seq<nat>, current: Line, n: nat, line: Line)
    requires UpTo(tokens, width, lines, starts, current, n)
    requires ButBlanks(Cells(line), Cells(current)) && Full(tokens, width, starts[|lines|], n)
    ensures AllEnded(tokens, width, lines + [line], starts + [n])
  {
    AllEndedSnoc(tokens, width, lines, starts, line, n);
  }

  // ----- A long word -----

  /** Always true.  A fact guarded by it stays folded until a proof unfolds it. */
  ghost predicate Unfold(n: nat) {
    true
  }

  /** Token `k` has been broken up to cluster `n`; `lines` were there before it. */
  ghost predicate InWord(tokens: seq<Line>, width: nat, k: nat, lines: seq<Line>, starts: seq<nat>, b: Breaking, n: nat)
    requires k < |tokens|
  {
    forall u :: Unfold(u) ==>
      && UpTo(tokens, width, lines + b.lines, starts, b.current, n)
      && CellsBefore(tokens, k) <= starts[|lines + b.lines|] && b.columns == ClusterWidth(Cells(b.current))
  }

  lemma OpenLonger(tokens: seq<Line>, current: Line, start: nat, n: nat, x: Item)
    requires OpenFrom(tokens, current, start, n)
    requires if x.Cell? then n < |AllCells(tokens)| && AllCells(tokens)[n] == x else true
    ensures OpenFrom(tokens, current + [x], start, if x.Cell? then n + 1 else n)
  {
    OneMore(current, x);
    if x.Cell? {
      assert AllCells(tokens)[start..n + 1] == AllCells(tokens)[start..n] + [x];
    } else {
      AppendEmpty(Cells(current));
    }
  }

  lemma BreakCode(tokens: seq<Line>, width: nat, k: nat, lines: seq<Line>, starts: seq<nat>, b: Breaking, n: nat,
                  x: Item)
    requires k < |tokens| && InWord(tokens, width, k, lines, starts, b, n) && x.Code?
    ensures InWord(tokens, width, k, lines, starts, Break1(b, x, width), n)
  {
    assert Unfold(0);
    OpenLonger(tokens, b.current, starts[|lines + b.lines|], n, x);
  }

  lemma BreakMore(tokens: seq<Line>, width: nat, k: nat, lines: seq<Line>, starts: seq<nat>, b: Breaking, n: nat,
                  x: Item)
    requires k < |tokens| && InWord(tokens, width, k, lines, starts, b, n) && x.Cell?
    requires b.columns + ClusterColumns(x) <= width && n < |AllCells(tokens)| && AllCells(tokens)[n] == x
    ensures InWord(tokens, width, k, lines, starts, Break1(b, x, width), n + 1)
  {
    assert Unfold(0);
    OpenLonger(tokens, b.current, starts[|lines + b.lines|], n, x);
    OneMore(b.current, x);
    OneMore(Cells(b.current), x);
  }

  lemma EndHere(tokens: seq<Line>, width: nat, k: nat, lines: seq<Line>, starts: seq<nat>, b: Breaking, n: nat,
                x: Item)
    requires k < |tokens| && InWord(tokens, width, k, lines, starts, b, n) && BrokenUp(tokens[k], width)
    requires n < |AllCells(tokens)| && AllCells(tokens)[n] == x && n < CellsBefore(tokens, k + 1)
    requires x.Cell? && b.columns + ClusterColumns(x) > width
    ensures AllEnded(tokens, width, lines + (b.lines + [b.current + Reset(b.style)]), starts + [n])
  {
    assert Unfold(0);
    var line := b.current + Reset(b.style);
    ClosedCells(b.current, b.style);
    assert NoRoomForCluster(tokens, width, starts[|lines + b.lines|], n, k);
    EndLine(tokens, width, lines + b.lines, starts, b.current, n, line);
    Associate(lines, b.lines, [line]);
  }

  /** A cluster that does not fit is where the next line starts. */
  lemma BreakHere(tokens: seq<Line>, width: nat, k: nat, lines: seq<Line>, starts: seq<nat>, b: Breaking, n: nat,
                  x: Item)
    requires k < |tokens| && InWord(tokens, width, k, lines, starts, b, n) && BrokenUp(tokens[k], width)
    requires n < |AllCells(tokens)| && AllCells(tokens)[n] == x && n < CellsBefore(tokens, k + 1)
    requires x.Cell? && b.columns + ClusterColumns(x) > width
    ensures InWord(tokens, width, k, lines, starts + [n], NextPiece(b, x), n + 1)
  {
    assert CellsBefore(tokens, k) <= n by { assert Unfold(0); }
    EndHere(tokens, width, k, lines, starts, b, n, x);
    StartLine(tokens, b.style, n, x);
    OneCell(x);
    NewLine(tokens, width, k, lines, starts + [n], NextPiece(b, x), n, n + 1);
  }

  lemma NewLine(tokens: seq<Line>, width: nat, k: nat, lines: seq<Line>, starts: seq<nat>, b: Breaking, p: nat, n: nat)
    requires k < |tokens| && AllEnded(tokens, width, lines + b.lines, starts) && starts[|starts| - 1] == p
    requires OpenFrom(tokens, b.current, p, n)
    requires CellsBefore(tokens, k) <= p && b.columns == ClusterWidth(Cells(b.current))
    ensures InWord(tokens, width, k, lines, starts, b, n)
  {
  }

  lemma StartLine(tokens: seq<Line>, st: Style, n: nat, x: Item)
    requires n < |AllCells(tokens)| && AllCells(tokens)[n] == x && x.Cell?
    ensures Cells(Active(st) + [x]) == [x] && OpenFrom(tokens, Active(st) + [x], n, n + 1)
  {
    ContinuedCells(st, [x]);
    OneCell(x);
    OneSlice(AllCells(tokens), n);
  }

  lemma OneSlice<T>(s: seq<T>, i: nat)
    requires i < |s|
    ensures s[i..i + 1] == [s[i]]
  {
  }

  /** One more item of a long word. */
  lemma BreakNext(tokens: seq<Line>, width: nat, k: nat, lines: seq<Line>, starts: seq<nat>, b: Breaking, n: nat,
                  x: Item)
    returns (starts': seq<nat>)
    requires k < |tokens| && InWord(tokens, width, k, lines, starts, b, n) && BrokenUp(tokens[k], width)
    requires x.Cell? ==> n < |AllCells(tokens)| && AllCells(tokens)[n] == x && n < CellsBefore(tokens, k + 1)
    ensures InWord(tokens, width, k, lines, starts', Break1(b, x, width), if x.Cell? then n + 1 else n)
  {
    starts' := starts;
    if x.Code? {
      BreakCode(tokens, width, k, lines, starts, b, n, x);
    } else if b.columns + ClusterColumns(x) > width {
      BreakHere(tokens, width, k, lines, starts, b, n, x);
      starts' := starts + [n];
    } else {
      BreakMore(tokens, width, k, lines, starts, b, n, x);
    }
  }

  lemma BreakAllNext(word: Line, width: nat, st: Style, j: nat)
    requires j < |word|
    ensures BreakAll(word[..j + 1], width, st) == Break1(BreakAll(word[..j], width, st), word[j], width)
  {
    TakeNext(word, j);
  }

  /** The first `j` items of token `k` have been read. */
  lemma {:induction false} BreakWord(tokens: seq<Line>, width: nat, k: nat, lines: seq<Line>, starts: seq<nat>,
                                     st: Style, j: nat, b: Breaking, n: nat)
    returns (starts': seq<nat>)
    requires k < |tokens| && j <= |tokens[k]| && BrokenUp(tokens[k], width)
    requires AllEnded(tokens, width, lines, starts) && starts[|lines|] == CellsBefore(tokens, k)
    requires b == BreakAll(tokens[k][..j], width, st) && n == CellAt(tokens, k, j)
    ensures InWord(tokens, width, k, lines, starts', b, n)
  {
    if j == 0 {
      starts' := starts;
      BreakNothing(tokens, width, k, lines, starts, st, b);
    } else {
      var i: nat := j - 1;
      var init, at, x := BreakAll(tokens[k][..i], width, st), CellAt(tokens, k, i), tokens[k][i];
      var before := BreakWord(tokens, width, k, lines, starts, st, i, init, at);
      assert b == Break1(init, x, width) by { BreakAllNext(tokens[k], width, st, i); }
      CellStands(tokens, k, i);
      assert n == if x.Cell? then at + 1 else at;
      starts' := BreakNext(tokens, width, k, lines, before, init, at, x);
    }
  }

  lemma BreakNothing(tokens: seq<Line>, width: nat, k: nat, lines: seq<Line>, starts: seq<nat>, st: Style,
                     b: Breaking)
    requires k < |tokens| && AllEnded(tokens, width, lines, starts) && starts[|lines|] == CellsBefore(tokens, k)
    requires b == BreakAll(tokens[k][..0], width, st)
    ensures InWord(tokens, width, k, lines, starts, b, CellAt(tokens, k, 0))
  {
    var none := tokens[k][..0];
    assert none == [] && Cells(none) == [];
    assert b == Breaking([], Active(st), 0, st);
    AppendEmpty(lines);
    TokenCells(tokens, k);
    ContinuedCells(st, []);
  }

  /** How many clusters there are before item `j` of token `k`. */
  function CellAt(tokens: seq<Line>, k: nat, j: nat): nat
    requires k < |tokens| && j <= |tokens[k]|
  {
    CellsBefore(tokens, k) + |Cells(tokens[k][..j])|
  }

  lemma CellStands(tokens: seq<Line>, k: nat, j: nat)
    requires k < |tokens| && j < |tokens[k]|
    ensures CellAt(tokens, k, j + 1) == CellAt(tokens, k, j) + (if tokens[k][j].Cell? then 1 else 0)
    ensures tokens[k][j].Cell? ==>
              && CellAt(tokens, k, j) < CellsBefore(tokens, k + 1) <= |AllCells(tokens)|
              && AllCells(tokens)[CellAt(tokens, k, j)] == tokens[k][j]
  {
    TakeNext(tokens[k], j);
    OneMore(tokens[k][..j], tokens[k][j]);
    if tokens[k][j].Cell? {
      TokenCells(tokens, k);
      TakeRest(tokens[k], j + 1);
      CellsAppend(tokens[k][..j + 1], tokens[k][j + 1..]);
      AtOffset(AllCells(tokens), CellsBefore(tokens, k), Cells(tokens[k]), |Cells(tokens[k][..j])|);
    }
  }

  lemma TakeRest<T>(s: seq<T>, i: nat)
    requires i <= |s|
    ensures s[..i] + s[i..] == s
  {
  }

  // ----- Token by token -----

  /** The first `k` tokens have been wrapped. */
  ghost predicate WrappedTo(tokens: seq<Line>, width: nat, k: nat, w: Wrapping, starts: seq<nat>)
    requires k <= |tokens|
  {
    && UpTo(tokens, width, w.lines, starts, w.current, CellsBefore(tokens, k))
    && w.visible == VisibleWidth(w.current)
  }

  lemma {:induction false} TrimmedCells(xs: Line)
    ensures ButBlanks(Cells(TrimEnd(xs)), Cells(xs))
  {
    if TrimEnd(xs) != xs {
      TrimmedCells(xs[..|xs| - 1]);
    }
  }

  lemma {:induction false} BlankCells(xs: Line)
    requires OnlyBlanks(xs)
    ensures ButBlanks([], Cells(xs))
  {
    if xs != [] {
      BlankCells(xs[..|xs| - 1]);
    }
  }

  lemma ButBlanksThen(part: Line, cells: Line, more: Line)
    requires ButBlanks(part, cells) && ButBlanks([], more)
    ensures ButBlanks(part, cells + more)
  {
    forall i | |part| <= i < |cells + more| ensures IsBlank((cells + more)[i]) {
      if i >= |cells| {
        assert (cells + more)[i] == more[i - |cells|];
      }
    }
  }

  /** The open line takes the clusters of the next token. */
  lemma OpenToken(tokens: seq<Line>, k: nat, current: Line, start: nat)
    requires k < |tokens| && OpenFrom(tokens, current, start, CellsBefore(tokens, k))
    ensures OpenFrom(tokens, current + tokens[k], start, CellsBefore(tokens, k + 1))
  {
    TokenCells(tokens, k);
    CellsAppend(current, tokens[k]);
    SliceThen(AllCells(tokens), start, CellsBefore(tokens, k), CellsBefore(tokens, k + 1));
  }

  lemma SliceThen<T>(s: seq<T>, i: nat, j: nat, k: nat)
    requires i <= j <= k <= |s|
    ensures s[i..k] == s[i..j] + s[j..k]
  {
  }

  lemma AppendToken(tokens: seq<Line>, width: nat, k: nat, w: Wrapping, starts: seq<nat>)
    requires k < |tokens| && WrappedTo(tokens, width, k, w, starts)
    ensures WrappedTo(tokens, width, k + 1,
                      Wrapping(w.lines, w.current + tokens[k], w.visible + VisibleWidth(tokens[k]),
                               StyleAfter(w.style, tokens[k])), starts)
  {
    OpenToken(tokens, k, w.current, starts[|w.lines|]);
    WidthAppend(w.current, tokens[k]);
  }

  /** A line that ended as it had to and the codes with which the next one starts. */
  lemma EndsTrimmed(w: Wrapping)
    ensures ButBlanks(Cells(TrimEnd(w.current) + Reset(w.style)), Cells(w.current))
  {
    TrimmedCells(w.current);
    ClosedCells(TrimEnd(w.current), w.style);
  }

  lemma SpanWidth(tokens: seq<Line>, current: Line, start: nat, n: nat)
    requires OpenFrom(tokens, current, start, n)
    ensures VisibleWidth(AllCells(tokens)[start..n]) == VisibleWidth(current)
    ensures VisibleWidth(current) > 0 ==> start < n
  {
    CellsHaveTheWidth(current);
  }

  /** A word that does not fit goes to the next line. */
  lemma MoveToken(tokens: seq<Line>, width: nat, k: nat, w: Wrapping, starts: seq<nat>)
    requires k < |tokens| && WrappedTo(tokens, width, k, w, starts)
    requires w.visible + VisibleWidth(tokens[k]) > width && w.visible > 0
    ensures WrappedTo(tokens, width, k + 1,
                      Wrapping(w.lines + [TrimEnd(w.current) + Reset(w.style)], Active(w.style) + tokens[k],
                               VisibleWidth(tokens[k]), StyleAfter(w.style, tokens[k])),
                      starts + [CellsBefore(tokens, k)])
  {
    var n := CellsBefore(tokens, k);
    SpanWidth(tokens, w.current, starts[|w.lines|], n);
    EndsTrimmed(w);
    assert NoRoomForToken(tokens, width, starts[|w.lines|], n, k);
    EndLine(tokens, width, w.lines, starts, w.current, n, TrimEnd(w.current) + Reset(w.style));
    NextStarts(tokens, k, w.style);
  }

  lemma NextStarts(tokens: seq<Line>, k: nat, st: Style)
    requires k < |tokens|
    ensures OpenFrom(tokens, Active(st) + tokens[k], CellsBefore(tokens, k), CellsBefore(tokens, k + 1))
    ensures VisibleWidth(Active(st) + tokens[k]) == VisibleWidth(tokens[k])
  {
    TokenCells(tokens, k);
    ContinuedCells(st, tokens[k]);
    WidthAppend(Active(st), tokens[k]);
    CodesHaveNoWidth(Active(st));
  }

  /** A blank that does not fit is dropped. */
  lemma DropToken(tokens: seq<Line>, width: nat, k: nat, w: Wrapping, starts: seq<nat>)
    requires k < |tokens| && WrappedTo(tokens, width, k, w, starts) && OnlyBlanks(tokens[k])
    requires w.visible + VisibleWidth(tokens[k]) > width && w.visible > 0
    ensures WrappedTo(tokens, width, k + 1,
                      Wrapping(w.lines + [TrimEnd(w.current) + Reset(w.style)], Active(w.style), 0,
                               StyleAfter(w.style, tokens[k])),
                      starts + [CellsBefore(tokens, k + 1)])
  {
    var p, n := starts[|w.lines|], CellsBefore(tokens, k + 1);
    var line := TrimEnd(w.current) + Reset(w.style);
    SpanWidth(tokens, w.current, p, CellsBefore(tokens, k));
    EndsTrimmed(w);
    BlankCells(tokens[k]);
    ButBlanksThen(Cells(line), Cells(w.current), Cells(tokens[k]));
    CellsAppend(w.current, tokens[k]);
    TokenCells(tokens, k);
    OpenToken(tokens, k, w.current, p);
    assert NoRoomForBlank(tokens, width, p, n, k);
    EndLine(tokens, width, w.lines, starts, w.current + tokens[k], n, line);
    ContinuedCells(w.style, []);
    CodesHaveNoWidth(Active(w.style));
  }

  /** The line before a word that is broken up ends. */
  lemma CloseLine(tokens: seq<Line>, width: nat, k: nat, w: Wrapping, starts: seq<nat>)
    returns (starts': seq<nat>)
    requires k < |tokens| && WrappedTo(tokens, width, k, w, starts) && BrokenUp(tokens[k], width)
    ensures var closed := if w.current == [] then w.lines else w.lines + [w.current + Reset(w.style)];
            AllEnded(tokens, width, closed, starts') && starts'[|closed|] == CellsBefore(tokens, k)
  {
    starts' := starts;
    if w.current != [] {
      var n := CellsBefore(tokens, k);
      ClosedCells(w.current, w.style);
      assert NoRoomForToken(tokens, width, starts[|w.lines|], n, k);
      EndLine(tokens, width, w.lines, starts, w.current, n, w.current + Reset(w.style));
      starts' := starts + [n];
    }
  }

  lemma BreakToken(tokens: seq<Line>, width: nat, k: nat, w: Wrapping, starts: seq<nat>)
    returns (starts': seq<nat>)
    requires k < |tokens| && WrappedTo(tokens, width, k, w, starts) && BrokenUp(tokens[k], width)
    ensures WrappedTo(tokens, width, k + 1, WrapLong(w, tokens[k], width), starts')
  {
    var closed := if w.current == [] then w.lines else w.lines + [w.current + Reset(w.style)];
    var before := CloseLine(tokens, width, k, w, starts);
    var b := BreakAll(tokens[k], width, w.style);
    TakeAll(tokens[k]);
    TokenCells(tokens, k);
    starts' := BreakWord(tokens, width, k, closed, before, w.style, |tokens[k]|, b, CellsBefore(tokens, k + 1));
    BrokenWordIsOpen(tokens[k], width, w.style);
    assert Unfold(0);
    TakeBack(b.lines, b.current);
  }

  lemma NextToken(tokens: seq<Line>, width: nat, k: nat, w: Wrapping, starts: seq<nat>)
    returns (starts': seq<nat>)
    requires k < |tokens| && WrappedTo(tokens, width, k, w, starts)
    ensures WrappedTo(tokens, width, k + 1, Wrap1(w, tokens[k], width), starts')
  {
    if BrokenUp(tokens[k], width) {
      starts' := BreakToken(tokens, width, k, w, starts);
    } else if w.visible + VisibleWidth(tokens[k]) > width && w.visible > 0 {
      if OnlyBlanks(tokens[k]) {
        DropToken(tokens, width, k, w, starts);
        starts' := starts + [CellsBefore(tokens, k + 1)];
      } else {
        MoveToken(tokens, width, k, w, starts);
        starts' := starts + [CellsBefore(tokens, k)];
      }
    } else {
      AppendToken(tokens, width, k, w, starts);
      starts' := starts;
    }
  }

  lemma {:induction false} WrappedAll(tokens: seq<Line>, width: nat, k: nat) returns (starts: seq<nat>)
    requires k <= |tokens|
    ensures WrappedTo(tokens, width, k, WrapAll(tokens[..k], width), starts)
  {
    if k == 0 {
      starts := [0];
    } else {
      TakeNext(tokens, k - 1);
      var before := WrappedAll(tokens, width, k - 1);
      starts := NextToken(tokens, width, k - 1, WrapAll(tokens[..k - 1], width), before);
    }
  }

  // ----- The result -----

  /** Every line shows the clusters from its start to that of the next. */
  ghost predicate Spans(lines: seq<Line>, cells: Line, starts: seq<nat>) {
    && |starts| == |lines| + 1 && starts[0] == 0 && starts[|lines|] == |cells|
    && forall i :: 0 <= i < |lines| ==> ShowsSpan(lines[i], cells, starts[i], starts[i + 1])
  }

  lemma TrimSpan(line: Line, cells: Line, p: nat, q: nat)
    requires ShowsSpan(line, cells, p, q)
    ensures ShowsSpan(TrimEnd(line), cells, p, q)
  {
    TrimmedCells(line);
    ButBlanksTrans(Cells(TrimEnd(line)), Cells(line), cells[p..q]);
  }

  lemma ButBlanksTrans(a: Line, b: Line, c: Line)
    requires ButBlanks(a, b) && ButBlanks(b, c)
    ensures ButBlanks(a, c)
  {
    forall i | |a| <= i < |c| ensures IsBlank(c[i]) {
      if i < |b| {
        assert c[i] == b[i];
      }
    }
  }

  /** Where the collected lines start, the last at the end of all clusters. */
  function AllStarts(w: Wrapping, starts: seq<nat>, total: nat): seq<nat> {
    if w.current == [] then starts else starts + [total]
  }

  lemma CollectedSpan(tokens: seq<Line>, width: nat, w: Wrapping, starts: seq<nat>, total: nat, i: nat)
    requires UpTo(tokens, width, w.lines, starts, w.current, total) && total == |AllCells(tokens)|
    requires i < |Collected(w)|
    ensures var all := AllStarts(w, starts, total);
            && |all| == |Collected(w)| + 1 && all[0] == 0 && all[|Collected(w)|] == total
            && ShowsSpan(Collected(w)[i], AllCells(tokens), all[i], all[i + 1])
            && (i < |Collected(w)| - 1 ==> Full(tokens, width, all[i], all[i + 1]))
  {
    if i < |w.lines| {
      EndedAt(tokens, width, w.lines, starts, i);
    } else if i > 0 {
      EndedAt(tokens, width, w.lines, starts, i - 1);
    }
  }

  /** Main result, for any line and width: the wrapped lines share the clusters of the line out among
      them, in order, each showing its share but for blanks at the end; and each line but the last ends
      only where the next token or, within a word wider than any line, the next cluster would not fit. */
  lemma WrappedGreedily(xs: Line, width: nat) returns (starts: seq<nat>)
    ensures Spans(WrappedLine(xs, width), Cells(xs), starts)
    ensures forall i :: 0 <= i < |WrappedLine(xs, width)| - 1 ==> Full(Tokens(xs), width, starts[i], starts[i + 1])
  {
    if xs == [] || VisibleWidth(xs) <= width {
      starts := [0, |Cells(xs)|];
    } else {
      var tokens := Tokens(xs);
      TokensAreTheLine(xs);
      TakeAll(tokens);
      var w := WrapAll(tokens, width);
      var so := WrappedAll(tokens, width, |tokens|);
      if Collected(w) == [] {
        starts := [0, 0];
      } else {
        starts := AllStarts(w, so, |Cells(xs)|);
        CollectedSpan(tokens, width, w, so, |Cells(xs)|, 0);
        forall i | 0 <= i < |WrappedLine(xs, width)|
          ensures ShowsSpan(WrappedLine(xs, width)[i], Cells(xs), starts[i], starts[i + 1])
          ensures i < |Collected(w)| - 1 ==> Full(tokens, width, starts[i], starts[i + 1])
        {
          CollectedSpan(tokens, width, w, so, |Cells(xs)|, i);
          TrimSpan(Collected(w)[i], Cells(xs), starts[i], starts[i + 1]);
        }
      }
    }
  }

  /** A wrapped line ends in no space or tab, unless the input line fits as it is. */
  lemma NoTrailingSpace(xs: Line, width: nat, i: nat)
    requires VisibleWidth(xs) > width && i < |WrappedLine(xs, width)|
    ensures var line := WrappedLine(xs, width)[i];
            line != [] && line[|line| - 1].Cell? ==> line[|line| - 1].kind == Ink || line[|line| - 1].kind == Blank
  {
    if Collected(WrapAll(Tokens(xs), width)) != [] {
      TrimmedLast(Collected(WrapAll(Tokens(xs), width))[i]);
    }
  }

  lemma {:induction false} TrimmedLast(xs: Line)
    ensures var line := TrimEnd(xs);
            line != [] && line[|line| - 1].Cell? ==> line[|line| - 1].kind == Ink || line[|line| - 1].kind == Blank
  {
    if xs != [] && xs[|xs| - 1].Cell? && (xs[|xs| - 1].kind == Space || xs[|xs| - 1].kind == Tab) {
      TrimmedLast(xs[..|xs| - 1]);
    }
  }
}
