/** The style tracker: what escape codes switch on, and the codes that switch it on again. */
module Tracker {
  import opened Types
  import opened Ansi

  // ----- Hyperlinks -----

  datatype Terminator = Bel | St

  datatype Hyperlink = Hyperlink(params: string, url: string, terminator: Terminator)

  /** What an escape code does to hyperlinks. */
  datatype LinkCode = NoLinkCode | CloseLink | OpenLink(link: Hyperlink)

  const OSC8 := [ESC, ']', '8', ';']

  function TerminatorText(t: Terminator): string {
    match t
    case Bel => [BEL]
    case St => [ESC, '\\']
  }

  predicate EndsWith(s: string, suffix: string) {
    |suffix| <= |s| && s[|s| - |suffix|..] == suffix
  }

  function Find(s: string, c: char): (i: Option<nat>)
    ensures i.Some? ==> i.value < |s| && s[i.value] == c && c !in s[..i.value]
    ensures i.None? ==> c !in s
  {
    if s == [] then None
    else if s[0] == c then Some(0)
    else
      var rest := Find(s[1..], c);
      if rest.Some? then
        assert s[..rest.value + 1] == [s[0]] + s[1..][..rest.value];
        Some(rest.value + 1)
      else None
  }

  function LinkBody(body: string, t: Terminator): LinkCode {
    var sep := Find(body, ';');
    if sep.None? then NoLinkCode
    else if body[sep.value + 1..] == [] then CloseLink
    else OpenLink(Hyperlink(body[..sep.value], body[sep.value + 1..], t))
  }

  function ParseOsc8(code: string): LinkCode {
    if !(OSC8 <= code) then NoLinkCode
    else if EndsWith(code, [BEL]) && |code| >= 5 then LinkBody(code[4..|code| - 1], Bel)
    else if EndsWith(code, [ESC, '\\']) && |code| >= 6 then LinkBody(code[4..|code| - 2], St)
    else NoLinkCode
  }

  function FormatOpen(link: Hyperlink): string {
    OSC8 + link.params + [';'] + link.url + TerminatorText(link.terminator)
  }

  function FormatClose(t: Terminator): string {
    OSC8 + [';'] + TerminatorText(t)
  }

  lemma CodeSections(code: string, k: nat)
    requires OSC8 <= code && |code| >= 4 + k
    ensures OSC8 + code[4..|code| - k] + code[|code| - k..] == code
  {
  }

  lemma BodyRoundTrip(body: string, t: Terminator)
    requires LinkBody(body, t).OpenLink?
    ensures var link := LinkBody(body, t).link;
            link.terminator == t && body == link.params + ([';'] + link.url)
  {
    var sep := Find(body, ';').value;
    assert body == body[..sep] + ([';'] + body[sep + 1..]);
  }

  /** Printing a parsed link gives back the code it was parsed from, terminator included. */
  lemma OpenRoundTrip(code: string)
    requires ParseOsc8(code).OpenLink?
    ensures FormatOpen(ParseOsc8(code).link) == code
  {
    var link := ParseOsc8(code).link;
    var t := if EndsWith(code, [BEL]) && |code| >= 5 then Bel else St;
    var k := |TerminatorText(t)|;
    BodyRoundTrip(code[4..|code| - k], t);
    CodeSections(code, k);
    Regrouped(OSC8, link.params, [';'], link.url, TerminatorText(t));
  }

  lemma Regrouped(a: string, b: string, c: string, d: string, e: string)
    ensures a + b + c + d + e == a + (b + (c + d)) + e
  {
  }

  lemma CloseCode(t: Terminator)
    ensures ParseOsc8(FormatClose(t)) == CloseLink && IsCode(FormatClose(t))
  {
    var code := FormatClose(t);
    var body := code[4..|code| - |TerminatorText(t)|];
    assert body == [';'];
    assert StringEnd(code, 2) == StringEnd(code, 3) == StringEnd(code, 4) == StringEnd(code, 5) == Some(|code|);
  }

  // ----- Styles -----

  datatype Switches = Switches(
    bold: bool, dim: bool, italic: bool, underline: bool, blink: bool, inverse: bool, hidden: bool, strikethrough: bool)

  datatype Style = Style(on: Switches, fg: Option<string>, bg: Option<string>, link: Option<Hyperlink>)

  const ALL_OFF := Switches(false, false, false, false, false, false, false, false)
  const PLAIN := Style(ALL_OFF, None, None, None)

  /** An SGR reset leaves the hyperlink alone. */
  function ResetSgr(st: Style): Style {
    PLAIN.(link := st.link)
  }

  predicate BasicFg(n: int) {
    30 <= n <= 37 || 90 <= n <= 97
  }

  predicate BasicBg(n: int) {
    40 <= n <= 47 || 100 <= n <= 107
  }

  function SetColor(st: Style, foreground: bool, color: string): Style {
    if foreground then st.(fg := Some(color)) else st.(bg := Some(color))
  }

  function SwitchedOn(on: Switches, n: int): Switches {
    match n
    case 1 => on.(bold := true)
    case 2 => on.(dim := true)
    case 3 => on.(italic := true)
    case 4 => on.(underline := true)
    case 5 => on.(blink := true)
    case 7 => on.(inverse := true)
    case 8 => on.(hidden := true)
    case 9 => on.(strikethrough := true)
    case _ => on
  }

  function SwitchedOff(on: Switches, n: int): Switches {
    match n
    case 21 => on.(bold := false)
    case 22 => on.(bold := false, dim := false)
    case 23 => on.(italic := false)
    case 24 => on.(underline := false)
    case 25 => on.(blink := false)
    case 27 => on.(inverse := false)
    case 28 => on.(hidden := false)
    case 29 => on.(strikethrough := false)
    case _ => on
  }

  /** A parameter that stands for itself (section 8.3.117 of ECMA-48). */
  function ApplyOne(st: Style, n: int): Style {
    if n == 0 then ResetSgr(st)
    else if 0 < n < 10 then st.(on := SwitchedOn(st.on, n))
    else if 20 < n < 30 then st.(on := SwitchedOff(st.on, n))
    else if n == 39 then st.(fg := None)
    else if n == 49 then st.(bg := None)
    else if BasicFg(n) then SetColor(st, true, Print(n))
    else if BasicBg(n) then SetColor(st, false, Print(n))
    else st
  }

  /** How many parameters the first one takes: more for an extended color. */
  function Taken(parts: seq<string>): (n: nat)
    requires parts != []
    ensures 1 <= n <= |parts|
  {
    var num := ParseI32(parts[0]);
    if num == Some(38) || num == Some(48) then
      if |parts| > 2 && parts[1] == "5" then 3
      else if |parts| > 4 && parts[1] == "2" then 5
      else 1
    else 1
  }

  function ApplyFirst(st: Style, parts: seq<string>): Style
    requires parts != []
  {
    var num := ParseI32(parts[0]);
    if num.None? then st
    else if Taken(parts) > 1 then SetColor(st, num.value == 38, Join(parts[..Taken(parts)]))
    else ApplyOne(st, num.value)
  }

  function ApplyParts(st: Style, parts: seq<string>): Style
    decreases |parts|
  {
    if parts == [] then st else ApplyParts(ApplyFirst(st, parts), parts[Taken(parts)..])
  }

  lemma PartsFrom(st: Style, parts: seq<string>, i: nat)
    requires i < |parts|
    ensures i + Taken(parts[i..]) <= |parts|
    ensures ApplyParts(st, parts[i..]) == ApplyParts(ApplyFirst(st, parts[i..]), parts[i + Taken(parts[i..])..])
  {
    DropTwice(parts, i, Taken(parts[i..]));
  }

  function ApplySgr(st: Style, body: string): Style {
    if body == [] || body == "0" then ResetSgr(st) else ApplyParts(st, Split(body))
  }

  predicate Sgr(code: string) {
    |code| >= 3 && code[0] == ESC && code[1] == '[' && code[|code| - 1] == 'm'
  }

  /** What one escape code does to the style. */
  function Processed(st: Style, code: string): Style {
    match ParseOsc8(code)
    case OpenLink(link) => st.(link := Some(link))
    case CloseLink => st.(link := None)
    case NoLinkCode => if Sgr(code) then ApplySgr(st, code[2..|code| - 1]) else st
  }

  function ProcessedAll(st: Style, codes: seq<string>): Style {
    if codes == [] then st else Processed(ProcessedAll(st, codes[..|codes| - 1]), codes[|codes| - 1])
  }

  function When(on: bool, code: string): seq<string> {
    if on then [code] else []
  }

  function Given(code: Option<string>): seq<string> {
    if code.Some? then [code.value] else []
  }

  /** The parameters that restore the style, in the order in which they are written. */
  function Parameters(st: Style): seq<string> {
    var on := st.on;
    When(on.bold, "1") + (When(on.dim, "2") + (When(on.italic, "3") + (When(on.underline, "4") + (When(on.blink, "5") +
    (When(on.inverse, "7") + (When(on.hidden, "8") + (When(on.strikethrough, "9") + (Given(st.fg) + Given(st.bg)))))))))
  }

  function SgrCode(parameters: seq<string>): string {
    [ESC, '['] + Join(parameters) + ['m']
  }

  /** The codes that restore the style. */
  function ActiveCodes(st: Style): seq<string> {
    (if Parameters(st) == [] then [] else [SgrCode(Parameters(st))]) +
    (if st.link.Some? then [FormatOpen(st.link.value)] else [])
  }

  const UNDERLINE_OFF: string := [ESC, '[', '2', '4', 'm']

  /** The codes that close what must not reach into the padding of a line. */
  function LineEndReset(st: Style): seq<string> {
    When(st.on.underline, UNDERLINE_OFF) + (if st.link.Some? then [FormatClose(st.link.value.terminator)] else [])
  }

  function Concat(codes: seq<string>): string {
    if codes == [] then [] else codes[0] + Concat(codes[1..])
  }

  /** The style after a text: its codes take effect, its other characters do not. */
  function AfterText(st: Style, text: string): Style
    decreases |text|
  {
    if text == [] then st
    else
      var n := CodeLength(text);
      if n.Some? then AfterText(Processed(st, text[..n.value]), text[n.value..]) else AfterText(st, text[1..])
  }

  // ----- The tracker -----

  class AnsiCodeTracker {
    var bold: bool
    var dim: bool
    var italic: bool
    var underline: bool
    var blink: bool
    var inverse: bool
    var hidden: bool
    var strikethrough: bool
    var fgColor: Option<string>
    var bgColor: Option<string>
    var activeHyperlink: Option<Hyperlink>

    function On(): Switches
      reads this`bold, this`dim, this`italic, this`underline, this`blink, this`inverse, this`hidden, this`strikethrough
    {
      Switches(bold, dim, italic, underline, blink, inverse, hidden, strikethrough)
    }

    function State(): Style
      reads this
    {
      Style(On(), fgColor, bgColor, activeHyperlink)
    }

    constructor ()
      ensures State() == PLAIN
    {
      bold, dim, italic, underline, blink, inverse, hidden, strikethrough := false, false, false, false, false, false,
        false, false;
      fgColor, bgColor, activeHyperlink := None, None, None;
    }

    method SwitchAllOff()
      modifies this`bold, this`dim, this`italic, this`underline, this`blink, this`inverse, this`hidden,
               this`strikethrough
      ensures On() == ALL_OFF
    {
      bold, dim, italic, underline, blink, inverse, hidden, strikethrough := false, false, false, false, false, false,
        false, false;
    }

    method Reset()
      modifies this
      ensures State() == ResetSgr(old(State()))
    {
      SwitchAllOff();
      fgColor, bgColor := None, None;
    }

    method SetOne(n: int)
      modifies this
      ensures State() == ApplyOne(old(State()), n)
    {
      if n == 0 {
        Reset();
      } else if 0 < n < 10 {
        SwitchOn(n);
      } else if 20 < n < 30 {
        SwitchOff(n);
      } else if n == 39 {
        fgColor := None;
      } else if n == 49 {
        bgColor := None;
      } else if BasicFg(n) {
        fgColor := Some(Print(n));
      } else if BasicBg(n) {
        bgColor := Some(Print(n));
      }
    }

    method SwitchOn(n: int)
      modifies this`bold, this`dim, this`italic, this`underline, this`blink, this`inverse, this`hidden,
               this`strikethrough
      ensures On() == SwitchedOn(old(On()), n)
    {
      match n {
        case 1 => bold := true;
        case 2 => dim := true;
        case 3 => italic := true;
        case 4 => underline := true;
        case 5 => blink := true;
        case 7 => inverse := true;
        case 8 => hidden := true;
        case 9 => strikethrough := true;
        case _ =>
      }
    }

    method SwitchOff(n: int)
      modifies this`bold, this`dim, this`italic, this`underline, this`blink, this`inverse, this`hidden,
               this`strikethrough
      ensures On() == SwitchedOff(old(On()), n)
    {
      match n {
        case 21 => bold := false;
        case 22 => bold, dim := false, false;
        case 23 => italic := false;
        case 24 => underline := false;
        case 25 => blink := false;
        case 27 => inverse := false;
        case 28 => hidden := false;
        case 29 => strikethrough := false;
        case _ =>
      }
    }

    method SetExtended(foreground: bool, color: string)
      modifies this
      ensures State() == SetColor(old(State()), foreground, color)
    {
      if foreground {
        fgColor := Some(color);
      } else {
        bgColor := Some(color);
      }
    }

    /** The parameter at `i`, with those that belong to it; `taken` is their number. */
    method ProcessOne(parts: seq<string>, i: nat) returns (taken: nat)
      requires i < |parts|
      modifies this
      ensures taken == Taken(parts[i..])
      ensures State() == ApplyFirst(old(State()), parts[i..])
    {
      ghost var rest := parts[i..];
      var num := ParseI32(parts[i]);
      if num.None? {
        return 1;
      }
      if num.value == 38 || num.value == 48 {
        if i + 2 < |parts| && parts[i + 1] == "5" {
          assert rest[..3] == parts[i..i + 3];
          SetExtended(num.value == 38, Join(parts[i..i + 3]));
          return 3;
        }
        if i + 4 < |parts| && parts[i + 1] == "2" {
          assert rest[..5] == parts[i..i + 5];
          SetExtended(num.value == 38, Join(parts[i..i + 5]));
          return 5;
        }
      }
      SetOne(num.value);
      taken := 1;
    }

    method ProcessParts(parts: seq<string>)
      modifies this
      ensures State() == ApplyParts(old(State()), parts)
    {
      var i := 0;
      assert parts[0..] == parts;
      while i < |parts|
        invariant 0 <= i <= |parts|
        invariant ApplyParts(State(), parts[i..]) == ApplyParts(old(State()), parts)
      {
        PartsFrom(State(), parts, i);
        var taken := ProcessOne(parts, i);
        i := i + taken;
      }
    }

    method Process(code: string)
      modifies this
      ensures State() == Processed(old(State()), code)
    {
      match ParseOsc8(code) {
        case OpenLink(link) => activeHyperlink := Some(link);
        case CloseLink => activeHyperlink := None;
        case NoLinkCode =>
          if Sgr(code) {
            var body := code[2..|code| - 1];
            if body == [] || body == "0" {
              Reset();
            } else {
              ProcessParts(Split(body));
            }
          }
      }
    }

    method UpdateFromText(text: string)
      modifies this
      ensures State() == AfterText(old(State()), text)
    {
      var i := 0;
      assert text[0..] == text;
      while i < |text|
        invariant 0 <= i <= |text|
        invariant AfterText(State(), text[i..]) == AfterText(old(State()), text)
      {
        var length := ExtractAnsiCodeAt(text, i);
        ghost var rest := text[i..];
        if length.Some? {
          assert rest[..length.value] == text[i..i + length.value] && rest[length.value..] == text[i + length.value..];
          Process(text[i..i + length.value]);
          i := i + length.value;
        } else {
          assert rest[1..] == text[i + 1..];
          i := i + 1;
        }
      }
    }
  }
}
