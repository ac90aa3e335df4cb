/** The lexical repair of JSON text.  Only strings matter to it, so a text is read here as the
    characters outside its strings and the code units inside them; a text may end in a string. */
module RepairJson {
  import opened Types

  predicate Hex(c: char) {
    '0' <= c <= '9' || 'a' <= c <= 'f' || 'A' <= c <= 'F'
  }

  function HexValue(c: char): nat
    requires Hex(c)
  {
    if c <= '9' then c as nat - '0' as nat else if c <= 'F' then c as nat - 'A' as nat + 10
      else c as nat - 'a' as nat + 10
  }

  /** The text starts with `n` hexadecimal digits. */
  predicate HexRun(s: string, n: nat) {
    n == 0 || (s != [] && Hex(s[0]) && HexRun(s[1..], n - 1))
  }

  predicate ValidEscape(c: char) {
    c == '"' || c == '\\' || c == '/' || c == 'b' || c == 'f' || c == 'n' || c == 'r' || c == 't' || c == 'u'
  }

  predicate Control(c: char) {
    c < ' '
  }

  function HexDigit(n: nat): char
    requires n < 16
  {
    if n < 10 then '0' + n as char else 'a' + (n - 10) as char
  }

  function EscapeControl(c: char): string
    requires Control(c)
  {
    if c == '\U{08}' then "\\b"
    else if c == '\U{0C}' then "\\f"
    else if c == '\n' then "\\n"
    else if c == '\r' then "\\r"
    else if c == '\t' then "\\t"
    else ['\\', 'u', '0', '0', HexDigit(c as nat / 16), HexDigit(c as nat % 16)]
  }

  /** What one step of the repair reads and writes inside a string, and whether it stays inside. */
  function StepLength(s: string): (n: nat)
    requires s != []
    ensures 1 <= n <= |s|
  {
    if s[0] != '\\' || |s| == 1 then 1
    else if s[1] == 'u' && HexRun(s[2..], 4) then HexFits(s[2..], 4); 6
    else if ValidEscape(s[1]) then 2
    else 1
  }

  lemma {:induction false} HexFits(s: string, n: nat)
    requires HexRun(s, n)
    ensures n <= |s| && forall i :: 0 <= i < n ==> Hex(s[i])
  {
    if n > 0 {
      HexFits(s[1..], n - 1);
      forall i | 0 < i < n ensures Hex(s[i]) {
        assert s[1..][i - 1] == s[i];
      }
    }
  }

  lemma {:induction false} HexRunExactly(s: string, n: nat)
    ensures HexRun(s, n) <==> n <= |s| && forall i :: 0 <= i < n ==> Hex(s[i])
  {
    if n > 0 && s != [] {
      HexRunExactly(s[1..], n - 1);
      assert forall i :: 0 <= i < |s| - 1 ==> s[1..][i] == s[i + 1];
      if HexRun(s, n) {
        HexFits(s, n);
      } else if n <= |s| && Hex(s[0]) {
        var i :| 0 <= i < n - 1 && !Hex(s[1..][i]);
        assert !Hex(s[i + 1]);
      }
    }
  }

  function StepOutput(s: string): string
    requires s != []
  {
    if s[0] == '\\' then (if StepLength(s) == 1 then "\\\\" else s[..StepLength(s)])
    else if Control(s[0]) then EscapeControl(s[0])
    else [s[0]]
  }

  function Repair(s: string, inString: bool): string {
    if s == [] then []
    else if !inString then [s[0]] + Repair(s[1..], s[0] == '"')
    else if s[0] == '"' then [s[0]] + Repair(s[1..], false)
    else StepOutput(s) + Repair(s[StepLength(s)..], true)
  }

  function Repaired(s: string): string {
    Repair(s, false)
  }

  /** The repair, by index over the text. */
  method RepairText(json: string) returns (out: string)
    ensures out == Repaired(json)
  {
    out := [];
    var inString, i := false, 0;
    assert json[0..] == json;
    while i < |json|
      invariant 0 <= i <= |json|
      invariant out + Repair(json[i..], inString) == Repaired(json)
    {
      var ch, rest := json[i], json[i..];
      if !inString {
        assert out + Repair(rest, false) == out + [ch] + Repair(json[i + 1..], ch == '"');
        out := out + [ch];
        if ch == '"' {
          inString := true;
        }
        i := i + 1;
      } else if ch == '"' {
        assert out + Repair(rest, true) == out + [ch] + Repair(json[i + 1..], false);
        out, inString, i := out + [ch], false, i + 1;
      } else {
        var piece, n := RepairStep(json, i);
        assert json[i..][n..] == json[i + n..];
        assert out + Repair(rest, true) == out + piece + Repair(json[i + n..], true);
        out, i := out + piece, i + n;
      }
    }
    assert out + [] == out;
  }

  /** One step inside a string. */
  method RepairStep(json: string, i: nat) returns (piece: string, n: nat)
    requires i < |json|
    ensures piece == StepOutput(json[i..]) && n == StepLength(json[i..])
  {
    var ch, rest := json[i], json[i..];
    if ch == '\\' {
      if i + 1 >= |json| {
        return "\\\\", 1;
      }
      var next := json[i + 1];
      assert rest[1] == next && rest[2..] == json[i + 2..];
      var digits := json[i + 2..];
      HexRunExactly(digits, 4);
      if next == 'u' && i + 5 < |json| && Hex(json[i + 2]) && Hex(json[i + 3]) && Hex(json[i + 4]) && Hex(json[i + 5]) {
        assert Hex(digits[0]) && Hex(digits[1]) && Hex(digits[2]) && Hex(digits[3]);
        assert rest[..6] == json[i..i + 6];
        return json[i..i + 6], 6;
      }
      if ValidEscape(next) {
        assert rest[..2] == ['\\', next];
        return ['\\', next], 2;
      }
      return "\\\\", 1;
    }
    if Control(ch) {
      return EscapeControl(ch), 1;
    }
    return [ch], 1;
  }

  // ----- Reading a text -----

  datatype Item = Outside(c: char) | Quote | Code(unit: nat)

  function HexNumber(s: string): nat
    requires |s| >= 4 && forall i :: 0 <= i < 4 ==> Hex(s[i])
  {
    ((HexValue(s[0]) * 16 + HexValue(s[1])) * 16 + HexValue(s[2])) * 16 + HexValue(s[3])
  }

  /** What a short escape stands for (section 7 of RFC 8259). */
  function Unescape(c: char): nat {
    match c
    case 'b' => 0x08
    case 'f' => 0x0C
    case 'n' => 0x0A
    case 'r' => 0x0D
    case 't' => 0x09
    case _ => c as nat
  }

  datatype Read = Read(item: Item, length: nat)

  /** The first item of a string's rest under the standard's rules, if it is one. */
  function StrictItem(s: string): (r: Option<Read>)
    requires s != []
    ensures r.Some? ==> 1 <= r.value.length <= |s|
  {
    if s[0] == '"' then Some(Read(Quote, 1))
    else if s[0] == '\\' then
      if |s| == 1 then None
      else if s[1] == 'u' then
        if HexRun(s[2..], 4) then HexFits(s[2..], 4); Some(Read(Code(HexNumber(s[2..])), 6)) else None
      else if ValidEscape(s[1]) then Some(Read(Code(Unescape(s[1])), 2))
      else None
    else if Control(s[0]) then None
    else Some(Read(Code(s[0] as nat), 1))
  }

  /** The same for a lenient reader: a control character stands for itself, and a backslash that
      starts no escape is a backslash. */
  function LenientItem(s: string): (r: Read)
    requires s != []
    ensures 1 <= r.length <= |s|
  {
    var strict := StrictItem(s);
    if strict.Some? then strict.value else Read(Code(s[0] as nat), 1)
  }

  function Cons(x: Item, rest: Option<seq<Item>>): Option<seq<Item>> {
    if rest.None? then None else Some([x] + rest.value)
  }

  function Strict(s: string, inString: bool): Option<seq<Item>> {
    if s == [] then Some([])
    else if !inString then
      if s[0] == '"' then Cons(Quote, Strict(s[1..], true)) else Cons(Outside(s[0]), Strict(s[1..], false))
    else
      var r := StrictItem(s);
      if r.None? then None else Cons(r.value.item, Strict(s[r.value.length..], !r.value.item.Quote?))
  }

  function Lenient(s: string, inString: bool): seq<Item> {
    if s == [] then []
    else if !inString then
      if s[0] == '"' then [Quote] + Lenient(s[1..], true) else [Outside(s[0])] + Lenient(s[1..], false)
    else
      var r := LenientItem(s);
      [r.item] + Lenient(s[r.length..], !r.item.Quote?)
  }

  /** Every `\u` that starts an escape in a string is followed by four hexadecimal digits. */
  predicate HexComplete(s: string, inString: bool) {
    s == [] ||
    if !inString then HexComplete(s[1..], s[0] == '"')
    else if s[0] == '"' then HexComplete(s[1..], false)
    else
      && (s[0] == '\\' && |s| >= 2 && s[1] == 'u' ==> HexRun(s[2..], 4))
      && HexComplete(s[StepLength(s)..], true)
  }

  // ----- What the repair keeps -----

  /** Repair neither makes nor breaks a run of digits at the start of a string's rest. */
  lemma {:induction false} HexRunKept(s: string, n: nat)
    ensures HexRun(Repair(s, true), n) <==> HexRun(s, n)
  {
    if n > 0 && s != [] {
      var r := Repair(s, true);
      if Hex(s[0]) {
        assert StepOutput(s) == [s[0]];
        assert r[1..] == Repair(s[1..], true);
        HexRunKept(s[1..], n - 1);
      } else {
        assert !Hex(r[0]);
      }
    }
  }

  lemma {:induction false} HexRunAppend(a: string, b: string, n: nat)
    requires HexRun(a, n)
    ensures HexRun(a + b, n)
  {
    if n > 0 {
      assert (a + b)[1..] == a[1..] + b;
      HexRunAppend(a[1..], b, n - 1);
    }
  }

  /** A whole escape, or a plain character: what the repair writes for one step, when it is not a
      `\u` that lacks digits. */
  predicate Token(s: string) {
    s != [] && s[0] != '"' && StrictItem(s).Some? && StrictItem(s).value.length == |s|
  }

  lemma ControlIsToken(c: char)
    requires Control(c)
    ensures var s := EscapeControl(c);
            Token(s) && StrictItem(s).value.item == Code(c as nat)
  {
    var s := EscapeControl(c);
    if s[1] == 'u' {
      HexRunExactly(s[2..], 4);
      assert HexValue('0') == 0;
      assert HexValue(HexDigit(c as nat / 16)) == c as nat / 16 && HexValue(HexDigit(c as nat % 16)) == c as nat % 16;
    }
  }

  lemma StepIsToken(s: string)
    requires s != [] && s[0] != '"'
    requires s[0] == '\\' && |s| >= 2 && s[1] == 'u' ==> HexRun(s[2..], 4)
    ensures Token(StepOutput(s))
    ensures StrictItem(StepOutput(s)).value.item == LenientItem(s).item
    ensures StepLength(s) == LenientItem(s).length
  {
    if s[0] == '\\' {
      if |s| >= 2 && s[1] == 'u' {
        HexFits(s[2..], 4);
        var out := s[..6];
        assert out[2..] == s[2..6];
        HexRunExactly(out[2..], 4);
      }
    } else if Control(s[0]) {
      ControlIsToken(s[0]);
    }
  }

  /** A token is read as such, and left alone by the repair, whatever follows it. */
  lemma TokenReads(t: string, rest: string)
    requires Token(t)
    ensures StrictItem(t + rest) == StrictItem(t)
    ensures Strict(t + rest, true) == Cons(StrictItem(t).value.item, Strict(rest, true))
    ensures StepOutput(t + rest) == t && StepLength(t + rest) == |t|
    ensures Repair(t + rest, true) == t + Repair(rest, true)
  {
    var s := t + rest;
    if t[0] == '\\' && t[1] == 'u' {
      HexRunAppend(t[2..], rest, 4);
      assert s[2..] == t[2..] + rest;
      HexFits(t[2..], 4);
    }
    assert s[|t|..] == rest && s[..|t|] == t;
  }

  /** A `\u` without its digits stays one. */
  lemma BadEscapeStays(s: string)
    requires |s| >= 2 && s[0] == '\\' && s[1] == 'u' && !HexRun(s[2..], 4)
    ensures Repair(s, true) == s[..2] + Repair(s[2..], true)
    ensures Strict(Repair(s, true), true) == None
    ensures StepOutput(Repair(s, true)) == s[..2] && StepLength(Repair(s, true)) == 2
  {
    var r := Repair(s, true);
    HexRunKept(s[2..], 4);
    assert r[2..] == Repair(s[2..], true);
  }

  /** Main result: the repaired text is valid exactly when no `\u` lacks its digits, and it then
      says what a lenient reader makes of the original. */
  lemma {:induction false} RepairKeepsMeaning(s: string, inString: bool)
    ensures Strict(Repair(s, inString), inString) == if HexComplete(s, inString) then Some(Lenient(s, inString))
            else None
    decreases |s|
  {
    if s == [] {
    } else if !inString {
      var r := Repair(s, false);
      assert r[1..] == Repair(s[1..], s[0] == '"');
      RepairKeepsMeaning(s[1..], s[0] == '"');
    } else if s[0] == '"' {
      var r := Repair(s, true);
      assert r[1..] == Repair(s[1..], false);
      RepairKeepsMeaning(s[1..], false);
    } else if s[0] == '\\' && |s| >= 2 && s[1] == 'u' && !HexRun(s[2..], 4) {
      BadEscapeStays(s);
    } else {
      var rest := s[StepLength(s)..];
      StepIsToken(s);
      TokenReads(StepOutput(s), Repair(rest, true));
      RepairKeepsMeaning(rest, true);
    }
  }

  /** Repairing a repaired text changes nothing, whatever the text. */
  lemma {:induction false} RepairIdempotent(s: string, inString: bool)
    ensures Repair(Repair(s, inString), inString) == Repair(s, inString)
    decreases |s|
  {
    if s == [] {
    } else if !inString {
      var r := Repair(s, false);
      assert r[1..] == Repair(s[1..], s[0] == '"');
      RepairIdempotent(s[1..], s[0] == '"');
    } else if s[0] == '"' {
      var r := Repair(s, true);
      assert r[1..] == Repair(s[1..], false);
      RepairIdempotent(s[1..], false);
    } else if s[0] == '\\' && |s| >= 2 && s[1] == 'u' && !HexRun(s[2..], 4) {
      BadEscapeStays(s);
      var r := Repair(s, true);
      assert r[2..] == Repair(s[2..], true);
      RepairIdempotent(s[2..], true);
    } else {
      var rest := s[StepLength(s)..];
      StepIsToken(s);
      TokenReads(StepOutput(s), Repair(rest, true));
      RepairIdempotent(rest, true);
    }
  }

  lemma {:induction false} ValidIsComplete(s: string, inString: bool)
    requires Strict(s, inString).Some?
    ensures Repair(s, inString) == s && HexComplete(s, inString)
    decreases |s|
  {
    if s == [] {
    } else if !inString {
      ValidIsComplete(s[1..], s[0] == '"');
    } else if s[0] == '"' {
      ValidIsComplete(s[1..], false);
    } else {
      var n := StrictItem(s).value.length;
      assert StepLength(s) == n && StepOutput(s) == s[..n];
      assert s == s[..n] + s[n..];
      ValidIsComplete(s[n..], true);
    }
  }

  /** The valid texts, exactly: those that need no repair and whose `\u` have their digits. */
  lemma ValidExactly(s: string)
    ensures Strict(s, false).Some? <==> Repaired(s) == s && HexComplete(s, false)
  {
    RepairKeepsMeaning(s, false);
    if Strict(s, false).Some? {
      ValidIsComplete(s, false);
    }
  }

  /** Parsing, and once more after a repair that changed something. */
  function ParseWithRepair<V>(parse: string -> Option<V>, json: string): Option<V> {
    var parsed := parse(json);
    if parsed.Some? then parsed
    else if Repaired(json) != json then parse(Repaired(json))
    else None
  }

  /** For a parser that accepts only valid texts the first attempt makes no difference. */
  lemma RepairedParseIsEnough<V>(parse: string -> Option<V>, json: string)
    requires parse(json).Some? ==> Strict(json, false).Some?
    ensures ParseWithRepair(parse, json) == parse(Repaired(json))
  {
    ValidExactly(json);
  }
}
