/** Escape codes in terminal text, and the strings they are made of. */
module Ansi {
  import opened Types

  const ESC := '\U{1B}'
  const BEL := '\U{07}'

  // ----- Where a code ends -----

  predicate CsiFinal(c: char) {
    c == 'm' || c == 'G' || c == 'K' || c == 'H' || c == 'J'
  }

  function CsiEnd(s: string, j: nat): (end: Option<nat>)
    ensures end.Some? ==> j < end.value <= |s|
    decreases |s| - j
  {
    if j >= |s| then None else if CsiFinal(s[j]) then Some(j + 1) else CsiEnd(s, j + 1)
  }

  /** The end of an OSC or APC string: after BEL or after ESC and a backslash. */
  function StringEnd(s: string, j: nat): (end: Option<nat>)
    ensures end.Some? ==> j < end.value <= |s|
    decreases |s| - j
  {
    if j >= |s| then None
    else if s[j] == BEL then Some(j + 1)
    else if s[j] == ESC && j + 1 < |s| && s[j + 1] == '\\' then Some(j + 2)
    else StringEnd(s, j + 1)
  }

  /** The length of the code that `s` starts with, if it starts with a whole one. */
  function CodeLength(s: string): (n: Option<nat>)
    ensures n.Some? ==> 3 <= n.value <= |s|
  {
    if |s| < 2 || s[0] != ESC then None
    else if s[1] == '[' then CsiEnd(s, 2)
    else if s[1] == ']' || s[1] == '_' then StringEnd(s, 2)
    else None
  }

  method ExtractAnsiCodeAt(s: string, pos: nat) returns (length: Option<nat>)
    requires pos <= |s|
    ensures length == CodeLength(s[pos..])
  {
    var t := s[pos..];
    if pos >= |s| || s[pos] != ESC || pos + 1 >= |s| {
      return None;
    }
    var next := s[pos + 1];
    if next == '[' {
      var j := pos + 2;
      while j < |s|
        invariant pos + 2 <= j <= |s|
        invariant CodeLength(t) == CsiEnd(t, j - pos)
      {
        if CsiFinal(s[j]) {
          return Some(j + 1 - pos);
        }
        j := j + 1;
      }
      return None;
    }
    if next == ']' || next == '_' {
      var j := pos + 2;
      while j < |s|
        invariant pos + 2 <= j <= |s|
        invariant CodeLength(t) == StringEnd(t, j - pos)
      {
        if s[j] == BEL {
          return Some(j + 1 - pos);
        }
        if s[j] == ESC && j + 1 < |s| && s[j + 1] == '\\' {
          return Some(j + 2 - pos);
        }
        j := j + 1;
      }
      return None;
    }
    return None;
  }

  const FINALS := "mGKHJ"

  lemma {:induction false} CsiEndExactly(s: string, j: nat, n: nat)
    ensures CsiEnd(s, j) == Some(n) <==>
              j < n <= |s| && s[n - 1] in FINALS && forall i :: j <= i < n - 1 ==> s[i] !in FINALS
    decreases |s| - j
  {
    if j < |s| {
      FinalsAre(s[j]);
      if !CsiFinal(s[j]) {
        CsiEndExactly(s, j + 1, n);
      }
    }
  }

  lemma FinalsAre(c: char)
    ensures CsiFinal(c) <==> c in FINALS
  {
    assert FINALS[0] == 'm' && FINALS[1] == 'G' && FINALS[2] == 'K' && FINALS[3] == 'H' && FINALS[4] == 'J';
  }

  /** Whether an OSC or APC string ends at `i`, with BEL or with ESC and a backslash. */
  predicate TerminatorAt(s: string, i: nat)
    requires i < |s|
  {
    s[i] == BEL || (s[i] == ESC && i + 1 < |s| && s[i + 1] == '\\')
  }

  predicate EndsFirst(s: string, j: nat, k: nat, length: nat) {
    && j <= k < |s| && TerminatorAt(s, k) && length == (if s[k] == BEL then 1 else 2)
    && forall i :: j <= i < k ==> !TerminatorAt(s, i)
  }

  lemma {:induction false} StringEndExactly(s: string, j: nat, n: nat)
    ensures StringEnd(s, j) == Some(n) <==>
              (n >= 1 && EndsFirst(s, j, n - 1, 1)) || (n >= 2 && EndsFirst(s, j, n - 2, 2))
    decreases |s| - j
  {
    if j < |s| && !TerminatorAt(s, j) {
      StringEndExactly(s, j + 1, n);
    }
  }

  /** The code a text starts with ends with the first of m, G, K, H and J for a CSI, and with the first BEL
      or the first ESC and backslash for an OSC or an APC string; no other text starts with a code. */
  lemma CodeLengthExactly(s: string, n: nat)
    ensures CodeLength(s) == Some(n) <==>
              && 3 <= n <= |s| && s[0] == ESC
              && if s[1] == '[' then s[n - 1] in FINALS && forall i :: 2 <= i < n - 1 ==> s[i] !in FINALS
                 else (s[1] == ']' || s[1] == '_') && (EndsFirst(s, 2, n - 1, 1) || EndsFirst(s, 2, n - 2, 2))
  {
    CsiEndExactly(s, 2, n);
    StringEndExactly(s, 2, n);
  }

  /** One whole code and nothing else. */
  predicate IsCode(c: string) {
    CodeLength(c) == Some(|c|)
  }

  lemma {:induction false} CsiEndStays(c: string, rest: string, j: nat)
    requires CsiEnd(c, j).Some?
    ensures CsiEnd(c + rest, j) == CsiEnd(c, j)
    decreases |c| - j
  {
    if !CsiFinal(c[j]) {
      CsiEndStays(c, rest, j + 1);
    }
  }

  lemma {:induction false} StringEndStays(c: string, rest: string, j: nat)
    requires StringEnd(c, j).Some?
    ensures StringEnd(c + rest, j) == StringEnd(c, j)
    decreases |c| - j
  {
    if c[j] != BEL && !(c[j] == ESC && j + 1 < |c| && c[j + 1] == '\\') {
      StringEndStays(c, rest, j + 1);
    }
  }

  /** Codes delimit themselves: what follows one does not matter. */
  lemma CodeDelimitsItself(c: string, rest: string)
    requires CodeLength(c).Some?
    ensures CodeLength(c + rest) == CodeLength(c)
  {
    if c[1] == '[' {
      CsiEndStays(c, rest, 2);
    } else {
      StringEndStays(c, rest, 2);
    }
  }

  lemma {:induction false} NoEarlierFinal(c: string, j: nat, k: nat)
    requires CsiEnd(c, j) == Some(|c|) && j <= k < |c| - 1
    ensures !CsiFinal(c[k])
    decreases |c| - j
  {
    if k > j {
      NoEarlierFinal(c, j + 1, k);
    }
  }

  lemma {:induction false} CsiEndsAt(c: string, j: nat)
    requires j < |c| && CsiFinal(c[|c| - 1]) && forall k :: j <= k < |c| - 1 ==> !CsiFinal(c[k])
    ensures CsiEnd(c, j) == Some(|c|)
    decreases |c| - j
  {
    if j < |c| - 1 {
      CsiEndsAt(c, j + 1);
    }
  }

  // ----- Parameters between semicolons -----

  predicate Without(s: string, c: char) {
    forall i :: 0 <= i < |s| ==> s[i] != c
  }

  function Split(s: string): (parts: seq<string>)
    ensures |parts| >= 1
  {
    if s == [] then [[]]
    else if s[0] == ';' then [[]] + Split(s[1..])
    else
      var rest := Split(s[1..]);
      [[s[0]] + rest[0]] + rest[1..]
  }

  function Join(parts: seq<string>): string {
    if parts == [] then []
    else if |parts| == 1 then parts[0]
    else parts[0] + [';'] + Join(parts[1..])
  }

  lemma {:induction false} SplitAppend(a: string, b: string)
    ensures Split(a + [';'] + b) == Split(a) + Split(b)
  {
    if a == [] {
      assert (a + [';'] + b)[1..] == b;
    } else {
      assert (a + [';'] + b)[1..] == a[1..] + [';'] + b;
      SplitAppend(a[1..], b);
    }
  }

  lemma {:induction false} SplitPlain(s: string)
    requires Without(s, ';')
    ensures Split(s) == [s]
  {
    if s != [] {
      SplitPlain(s[1..]);
      assert [s[0]] + s[1..] == s;
    }
  }

  lemma {:induction false} SplitParts(s: string)
    ensures forall i :: 0 <= i < |Split(s)| ==> Without(Split(s)[i], ';')
    ensures forall c :: Without(s, c) ==> forall i :: 0 <= i < |Split(s)| ==> Without(Split(s)[i], c)
  {
    if s != [] {
      SplitParts(s[1..]);
      forall c | Without(s, c) ensures Without(s[1..], c) {}
    }
  }

  /** Splitting undoes joining. */
  lemma {:induction false} SplitJoin(parts: seq<string>)
    requires parts != [] && forall i :: 0 <= i < |parts| ==> Without(parts[i], ';')
    ensures Split(Join(parts)) == parts
  {
    SplitPlain(parts[0]);
    if |parts| > 1 {
      SplitAppend(parts[0], Join(parts[1..]));
      SplitJoin(parts[1..]);
    }
  }

  lemma {:induction false} JoinWithout(parts: seq<string>, c: char)
    requires c != ';' && forall i :: 0 <= i < |parts| ==> Without(parts[i], c)
    ensures Without(Join(parts), c)
  {
    if |parts| > 1 {
      JoinWithout(parts[1..], c);
    }
  }

  // ----- Numbers -----

  predicate Digit(c: char) {
    '0' <= c <= '9'
  }

  predicate Digits(s: string) {
    forall i :: 0 <= i < |s| ==> Digit(s[i])
  }

  function Decimal(s: string): nat
    requires Digits(s)
  {
    if s == [] then 0
    else
      var last := s[|s| - 1];
      assert Digit(last);
      Decimal(s[..|s| - 1]) * 10 + (last as nat - '0' as nat)
  }

  const MAX_I32 := 0x7FFF_FFFF

  /** A 32-bit signed number: an optional sign, then digits and nothing else. */
  function ParseI32(s: string): Option<int> {
    var signed := s != [] && (s[0] == '+' || s[0] == '-');
    var digits := if signed then s[1..] else s;
    if digits == [] || !Digits(digits) then None
    else
      var n: int := Decimal(digits);
      if s[0] == '-' then (if n > MAX_I32 + 1 then None else Some(-n))
      else if n > MAX_I32 then None else Some(n)
  }

  function PrintDigit(n: nat): char
    requires n < 10
  {
    '0' + n as char
  }

  /** The decimal form of a number, without leading zeros. */
  function Print(n: nat): string {
    if n < 10 then [PrintDigit(n)] else Print(n / 10) + [PrintDigit(n % 10)]
  }

  lemma {:induction false} PrintedDigits(n: nat)
    ensures Print(n) != [] && Digits(Print(n)) && Decimal(Print(n)) == n
  {
    if n >= 10 {
      PrintedDigits(n / 10);
      assert Print(n)[..|Print(n)| - 1] == Print(n / 10);
    } else {
      assert Print(n)[..0] == [];
    }
  }

  lemma PrintParses(n: nat)
    requires n <= MAX_I32
    ensures ParseI32(Print(n)) == Some(n)
    ensures forall c :: !Digit(c) ==> Without(Print(n), c)
  {
    PrintedDigits(n);
    assert Digit(Print(n)[0]);
  }
}
