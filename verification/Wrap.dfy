/** Wrapping of styled text.  A text is given as its escape codes and its grapheme clusters with
    their widths; how clusters and widths are found is not part of this model. */
module Wrap {
  import opened Types
  import opened Ansi
  import opened Tracker

  /** `Blank` is white space other than the space, the tab and line breaks. */
  datatype Kind = Space | Tab | Blank | Ink

  datatype Item = Code(text: string) | Cell(glyph: string, kind: Kind, width: nat)

  type Line = seq<Item>

  const TAB_WIDTH := 3

  /** The width of an item when a line is measured: a tab counts three columns. */
  function Columns(x: Item): nat {
    match x
    case Code(_) => 0
    case Cell(_, kind, width) => if kind == Tab then TAB_WIDTH else width
  }

  /** The width of a cluster when a long word is broken: a tab, being a control, counts nothing. */
  function ClusterColumns(x: Item): nat {
    match x
    case Code(_) => 0
    case Cell(_, kind, width) => if kind == Tab then 0 else width
  }

  function VisibleWidth(xs: Line): nat {
    if xs == [] then 0 else VisibleWidth(xs[..|xs| - 1]) + Columns(xs[|xs| - 1])
  }

  predicate IsBlank(x: Item) {
    x.Cell? && x.kind != Ink
  }

  /** What `trim` leaves nothing of, escape codes aside. */
  predicate OnlyBlanks(xs: Line) {
    forall i :: 0 <= i < |xs| ==> xs[i].Code? || IsBlank(xs[i])
  }

  /** Without its trailing spaces and tabs. */
  function TrimEnd(xs: Line): Line {
    if xs != [] && xs[|xs| - 1].Cell? && (xs[|xs| - 1].kind == Space || xs[|xs| - 1].kind == Tab)
    then TrimEnd(xs[..|xs| - 1]) else xs
  }

  function CodeItems(codes: seq<string>): Line {
    seq(|codes|, i requires 0 <= i < |codes| => Code(codes[i]))
  }

  function Active(st: Style): Line {
    CodeItems(ActiveCodes(st))
  }

  function Reset(st: Style): Line {
    CodeItems(LineEndReset(st))
  }

  function StyleAfter(st: Style, xs: Line): Style {
    if xs == [] then st
    else
      var before, x := StyleAfter(st, xs[..|xs| - 1]), xs[|xs| - 1];
      if x.Code? then Processed(before, x.text) else before
  }

  // ----- Tokens -----

  datatype Tokenizer = Tokenizer(tokens: seq<Line>, current: Line, pending: Line, inWhitespace: bool)

  const NO_TOKENS := Tokenizer([], [], [], false)

  /** Codes wait for the next cell; a token ends where spaces begin or end. */
  function Token1(t: Tokenizer, x: Item): Tokenizer {
    match x
    case Code(_) => t.(pending := t.pending + [x])
    case Cell(_, kind, _) =>
      var space := kind == Space;
      if space != t.inWhitespace && t.current != []
      then Tokenizer(t.tokens + [t.current], t.pending + [x], [], space)
      else Tokenizer(t.tokens, t.current + t.pending + [x], [], space)
  }

  function TokenizeAll(xs: Line): Tokenizer {
    if xs == [] then NO_TOKENS else Token1(TokenizeAll(xs[..|xs| - 1]), xs[|xs| - 1])
  }

  function Tokens(xs: Line): seq<Line> {
    var t := TokenizeAll(xs);
    if t.current + t.pending == [] then t.tokens else t.tokens + [t.current + t.pending]
  }

  method SplitIntoTokens(xs: Line) returns (tokens: seq<Line>)
    ensures tokens == Tokens(xs)
  {
    tokens := [];
    var current: Line, pending: Line, inWhitespace := [], [], false;
    for i := 0 to |xs|
      invariant Tokenizer(tokens, current, pending, inWhitespace) == TokenizeAll(xs[..i])
    {
      assert xs[..i + 1][..i] == xs[..i];
      match xs[i] {
        case Code(_) => pending := pending + [xs[i]];
        case Cell(_, kind, _) =>
          var space := kind == Space;
          if space != inWhitespace && current != [] {
            tokens, current := tokens + [current], [];
          }
          current, pending := current + pending + [xs[i]], [];
          inWhitespace := space;
      }
    }
    assert xs[..|xs|] == xs;
    current := current + pending;
    if current != [] {
      tokens := tokens + [current];
    }
  }

  // ----- Breaking a long word -----

  datatype Breaking = Breaking(lines: seq<Line>, current: Line, columns: nat, style: Style)

  function Break1(b: Breaking, x: Item, width: nat): Breaking {
    match x
    case Code(c) => b.(current := b.current + [x], style := Processed(b.style, c))
    case Cell(_, _, _) =>
      if b.columns + ClusterColumns(x) > width
      then Breaking(b.lines + [b.current + Reset(b.style)], Active(b.style) + [x], ClusterColumns(x), b.style)
      else b.(current := b.current + [x], columns := b.columns + ClusterColumns(x))
  }

  function BreakAll(word: Line, width: nat, st: Style): Breaking {
    if word == [] then Breaking([], Active(st), 0, st)
    else Break1(BreakAll(word[..|word| - 1], width, st), word[|word| - 1], width)
  }

  function Pieces(word: Line, width: nat, st: Style): (lines: seq<Line>)
    ensures lines != []
  {
    var b := BreakAll(word, width, st);
    var lines := if b.current == [] then b.lines else b.lines + [b.current];
    if lines == [] then [[]] else lines
  }

  method BreakLongWord(word: Line, width: nat, tracker: AnsiCodeTracker) returns (lines: seq<Line>)
    modifies tracker
    ensures lines == Pieces(word, width, old(tracker.State()))
    ensures tracker.State() == BreakAll(word, width, old(tracker.State())).style
  {
    lines := [];
    var current := Active(tracker.State());
    var columns: nat := 0;
    for i := 0 to |word|
      invariant Breaking(lines, current, columns, tracker.State()) == BreakAll(word[..i], width, old(tracker.State()))
    {
      assert word[..i + 1][..i] == word[..i];
      match word[i] {
        case Code(c) =>
          current := current + [word[i]];
          tracker.Process(c);
        case Cell(_, _, _) =>
          var w := ClusterColumns(word[i]);
          if columns + w > width {
            lines := lines + [current + Reset(tracker.State())];
            current, columns := Active(tracker.State()), 0;
          }
          current, columns := current + [word[i]], columns + w;
      }
    }
    assert word[..|word|] == word;
    if current != [] {
      lines := lines + [current];
    }
    if lines == [] {
      lines := [[]];
    }
  }

  // ----- Wrapping one line -----

  datatype Wrapping = Wrapping(lines: seq<Line>, current: Line, visible: nat, style: Style)

  function WrapLong(w: Wrapping, token: Line, width: nat): Wrapping {
    var closed := if w.current == [] then w.lines else w.lines + [w.current + Reset(w.style)];
    var pieces := Pieces(token, width, w.style);
    var last := pieces[|pieces| - 1];
    Wrapping(closed + pieces[..|pieces| - 1], last, VisibleWidth(last), BreakAll(token, width, w.style).style)
  }

  function Wrap1(w: Wrapping, token: Line, width: nat): Wrapping {
    var visible := VisibleWidth(token);
    if visible > width && !OnlyBlanks(token) then WrapLong(w, token, width)
    else
      var style := StyleAfter(w.style, token);
      if w.visible + visible > width && w.visible > 0 then
        var lines := w.lines + [TrimEnd(w.current) + Reset(w.style)];
        if OnlyBlanks(token)
        then Wrapping(lines, Active(w.style), 0, style)
        else Wrapping(lines, Active(w.style) + token, visible, style)
      else
        Wrapping(w.lines, w.current + token, w.visible + visible, style)
  }

  function WrapAll(tokens: seq<Line>, width: nat): Wrapping {
    if tokens == [] then Wrapping([], [], 0, PLAIN)
    else Wrap1(WrapAll(tokens[..|tokens| - 1], width), tokens[|tokens| - 1], width)
  }

  function Trimmed(lines: seq<Line>): (r: seq<Line>)
    ensures |r| == |lines|
    ensures forall i :: 0 <= i < |lines| ==> r[i] == TrimEnd(lines[i])
  {
    seq(|lines|, i requires 0 <= i < |lines| => TrimEnd(lines[i]))
  }

  function Collected(w: Wrapping): seq<Line> {
    if w.current == [] then w.lines else w.lines + [w.current]
  }

  function WrappedLine(line: Line, width: nat): (lines: seq<Line>)
    ensures lines != []
  {
    if line == [] then [[]]
    else if VisibleWidth(line) <= width then [line]
    else
      var lines := Collected(WrapAll(Tokens(line), width));
      if lines == [] then [[]] else Trimmed(lines)
  }

  method Update(tracker: AnsiCodeTracker, xs: Line)
    modifies tracker
    ensures tracker.State() == StyleAfter(old(tracker.State()), xs)
  {
    for i := 0 to |xs|
      invariant tracker.State() == StyleAfter(old(tracker.State()), xs[..i])
    {
      assert xs[..i + 1][..i] == xs[..i];
      if xs[i].Code? {
        tracker.Process(xs[i].text);
      }
    }
    assert xs[..|xs|] == xs;
  }

  /** One token; `visible` is the width of the current line so far. */
  method WrapToken(token: Line, width: nat, tracker: AnsiCodeTracker, lines: seq<Line>, current: Line, visible: nat)
    returns (lines': seq<Line>, current': Line, visible': nat)
    modifies tracker
    ensures Wrapping(lines', current', visible', tracker.State()) ==
            Wrap1(Wrapping(lines, current, visible, old(tracker.State())), token, width)
  {
    lines', current', visible' := lines, current, visible;
    var tokenVisible := VisibleWidth(token);
    if tokenVisible > width && !OnlyBlanks(token) {
      if current != [] {
        lines' := lines' + [current + Reset(tracker.State())];
      }
      var broken := BreakLongWord(token, width, tracker);
      var last := broken[|broken| - 1];
      lines', current', visible' := lines' + broken[..|broken| - 1], last, VisibleWidth(last);
      return;
    }
    if visible + tokenVisible > width && visible > 0 {
      lines' := lines' + [TrimEnd(current) + Reset(tracker.State())];
      if OnlyBlanks(token) {
        current', visible' := Active(tracker.State()), 0;
      } else {
        current', visible' := Active(tracker.State()) + token, tokenVisible;
      }
    } else {
      current', visible' := current + token, visible + tokenVisible;
    }
    Update(tracker, token);
  }

  method WrapTokens(tokens: seq<Line>, width: nat) returns (lines: seq<Line>)
    ensures lines == Collected(WrapAll(tokens, width))
  {
    var tracker := new AnsiCodeTracker();
    lines := [];
    var current: Line, visible := [], 0;
    for i := 0 to |tokens|
      invariant fresh(tracker)
      invariant Wrapping(lines, current, visible, tracker.State()) == WrapAll(tokens[..i], width)
    {
      TakeNext(tokens, i);
      lines, current, visible := WrapToken(tokens[i], width, tracker, lines, current, visible);
    }
    TakeAll(tokens);
    if current != [] {
      lines := lines + [current];
    }
  }

  method WrapSingleLine(line: Line, width: nat) returns (lines: seq<Line>)
    ensures lines == WrappedLine(line, width)
  {
    if line == [] {
      return [[]];
    }
    if VisibleWidth(line) <= width {
      return [line];
    }
    var tokens := SplitIntoTokens(line);
    lines := WrapTokens(tokens, width);
    lines := if lines == [] then [[]] else Trimmed(lines);
  }

  // ----- Wrapping a text -----

  /** A character of the text that is or is not a line break. */
  datatype Piece = Printed(item: Item) | CarriageReturn | LineFeed

  /** The lines of a text: each break ends one, and a line feed after a carriage return is part of
      the same break. */
  function InputLines(text: seq<Piece>): (lines: seq<Line>)
    ensures lines != []
  {
    if text == [] then [[]]
    else
      var init, p := text[..|text| - 1], text[|text| - 1];
      var lines := InputLines(init);
      match p
      case Printed(x) => lines[..|lines| - 1] + [lines[|lines| - 1] + [x]]
      case CarriageReturn => lines + [[]]
      case LineFeed => if init != [] && init[|init| - 1] == CarriageReturn then lines else lines + [[]]
  }

  function PrintedItems(text: seq<Piece>): Line {
    if text == [] then []
    else PrintedItems(text[..|text| - 1]) + (if text[|text| - 1].Printed? then [text[|text| - 1].item] else [])
  }

  function Together(lines: seq<Line>): Line {
    if lines == [] then [] else Together(lines[..|lines| - 1]) + lines[|lines| - 1]
  }

  /** The wrapped lines of the input lines, each continued in the style the previous one left. */
  function WrappedLines(lines: seq<Line>, width: nat): seq<Line> {
    if lines == [] then []
    else
      var init, line := lines[..|lines| - 1], lines[|lines| - 1];
      var prefix := if init == [] then [] else Active(StyleAfter(PLAIN, Together(init)));
      WrappedLines(init, width) + WrappedLine(prefix + line, width)
  }

  function WrappedText(text: seq<Piece>, width: nat): seq<Line> {
    if text == [] then [[]] else WrappedLines(InputLines(text), width)
  }

  /** The first `j` pieces are the lines `before` and the open line `line`. */
  ghost predicate OpenAt(text: seq<Piece>, j: nat, before: seq<Line>, line: Line) {
    j <= |text| && InputLines(text[..j]) == before + [line]
  }

  lemma ReadPrinted(text: seq<Piece>, j: nat, before: seq<Line>, line: Line)
    requires OpenAt(text, j, before, line) && j < |text| && text[j].Printed?
    ensures OpenAt(text, j + 1, before, line + [text[j].item])
  {
    TakeNext(text, j);
    TakeBack(before, line);
  }

  lemma ReadBreak(text: seq<Piece>, j: nat)
    requires j < |text| && !text[j].Printed?
    ensures InputLines(text[..j + 1]) ==
            if text[j] == LineFeed && 0 < j && text[j - 1] == CarriageReturn then InputLines(text[..j])
              else InputLines(text[..j]) + [[]]
  {
    TakeNext(text, j);
  }

  /** The position of the first line break from `pos` on, or the end of the text. */
  method FindBreak(text: seq<Piece>, pos: nat, ghost before: seq<Line>) returns (j: nat, line: Line)
    requires OpenAt(text, pos, before, [])
    ensures pos <= j && OpenAt(text, j, before, line)
    ensures forall k :: pos <= k < j ==> text[k].Printed?
    ensures j < |text| ==> !text[j].Printed?
  {
    j, line := pos, [];
    while j < |text| && text[j].Printed?
      invariant pos <= j && OpenAt(text, j, before, line)
      invariant forall k :: pos <= k < j ==> text[k].Printed?
    {
      ReadPrinted(text, j, before, line);
      j, line := j + 1, line + [text[j].item];
    }
  }

  /** Past the break at `j`, both characters of it if there are two. */
  method SkipBreak(text: seq<Piece>, j: nat) returns (pos: nat)
    requires j < |text| && !text[j].Printed?
    requires 0 < j && text[j - 1] == CarriageReturn ==> text[j] != LineFeed
    ensures j < pos && OpenAt(text, pos, InputLines(text[..j]), [])
    ensures pos < |text| && text[pos - 1] == CarriageReturn ==> text[pos] != LineFeed
  {
    ReadBreak(text, j);
    pos := j + 1;
    if text[j] == CarriageReturn && j + 1 < |text| && text[j + 1] == LineFeed {
      ReadBreak(text, j + 1);
      pos := j + 2;
    }
  }

  method SplitLineEndings(text: seq<Piece>) returns (lines: seq<Line>)
    ensures lines == InputLines(text)
  {
    lines := [];
    var pos := 0;
    assert text[..0] == [];
    while true
      invariant OpenAt(text, pos, lines, [])
      invariant 0 < pos < |text| && text[pos - 1] == CarriageReturn ==> text[pos] != LineFeed
      decreases |text| - pos
    {
      var j, line := FindBreak(text, pos, lines);
      lines := lines + [line];
      if j == |text| {
        TakeAll(text);
        return;
      }
      pos := SkipBreak(text, j);
    }
  }

  lemma {:induction false} StyleAfterAppend(st: Style, a: Line, b: Line)
    ensures StyleAfter(st, a + b) == StyleAfter(StyleAfter(st, a), b)
    decreases |b|
  {
    if b == [] {
      assert a + b == a;
    } else {
      assert (a + b)[..|a + b| - 1] == a + b[..|b| - 1];
      StyleAfterAppend(st, a, b[..|b| - 1]);
    }
  }

  /** One more input line, continued in the style that the earlier ones left. */
  method WrapNextLine(line: Line, width: nat, tracker: AnsiCodeTracker, result: seq<Line>, ghost init: seq<Line>)
    returns (result': seq<Line>)
    requires result == WrappedLines(init, width) && (result == [] <==> init == [])
    requires tracker.State() == StyleAfter(PLAIN, Together(init))
    modifies tracker
    ensures result' == WrappedLines(init + [line], width) && result' != []
    ensures tracker.State() == StyleAfter(PLAIN, Together(init + [line]))
  {
    TakeBack(init, line);
    StyleAfterAppend(PLAIN, Together(init), line);
    var prefix := if result != [] then Active(tracker.State()) else [];
    var wrapped := WrapSingleLine(prefix + line, width);
    result' := result + wrapped;
    Update(tracker, line);
  }

  method WrapLines(lines: seq<Line>, width: nat) returns (result: seq<Line>)
    ensures result == WrappedLines(lines, width)
  {
    var tracker := new AnsiCodeTracker();
    result := [];
    ghost var done: seq<Line> := [];
    for i := 0 to |lines|
      invariant fresh(tracker)
      invariant done == lines[..i]
      invariant result == WrappedLines(done, width) && (result == [] <==> done == [])
      invariant tracker.State() == StyleAfter(PLAIN, Together(done))
    {
      TakeNext(lines, i);
      result := WrapNextLine(lines[i], width, tracker, result, done);
      done := done + [lines[i]];
    }
    TakeAll(lines);
  }

  method WrapTextWithAnsi(text: seq<Piece>, width: nat) returns (result: seq<Line>)
    ensures result == WrappedText(text, width)
  {
    if text == [] {
      return [[]];
    }
    var lines := SplitLineEndings(text);
    result := WrapLines(lines, width);
  }
}
