/** Cutting a text to a width, with an ellipsis and padding. */
module Truncate {
  import opened Types
  import opened Ansi
  import opened Tracker
  import opened Wrap
  import opened WrapTheorems
  import opened WrapWidth

  const SGR_RESET: Item := Code([ESC, '[', '0', 'm'])
  const BLANK_CELL: Item := Cell(" ", Space, 1)

  function Spaces(n: nat): Line {
    seq(n, _ => BLANK_CELL)
  }

  // ----- The part that is kept -----

  /** The clusters kept so far with the codes before them, the codes waiting for a cluster to be
      kept, the width kept, and whether every cluster so far was kept. */
  datatype Cut = Cut(kept: Line, pending: Line, width: nat, whole: bool)

  const NOTHING_CUT := Cut([], [], 0, true)

  function Cut1(c: Cut, x: Item, target: nat): Cut {
    match x
    case Code(_) => c.(pending := c.pending + [x])
    case Cell(_, _, _) =>
      if c.whole && c.width + Columns(x) <= target
      then Cut(c.kept + c.pending + [x], [], c.width + Columns(x), true)
      else c.(pending := [], whole := false)
  }

  function CutAll(xs: Line, target: nat): Cut {
    if xs == [] then NOTHING_CUT else Cut1(CutAll(xs[..|xs| - 1], target), xs[|xs| - 1], target)
  }

  /** The part of a cut text before its padding: what is kept, then the ellipsis, each followed by
      a reset. */
  function Bracketed(prefix: Line, ellipsis: Line): Line {
    prefix + [SGR_RESET] + (if ellipsis == [] then [] else ellipsis + [SGR_RESET])
  }

  function Finalized(prefix: Line, prefixWidth: nat, ellipsis: Line, ellipsisWidth: nat, width: nat, pad: bool): Line {
    var visible := prefixWidth + ellipsisWidth;
    Bracketed(prefix, ellipsis) + (if pad && width > visible then Spaces(width - visible) else [])
  }

  function Padded(text: Line, width: nat, pad: bool): Line
    requires VisibleWidth(text) <= width
  {
    if pad then text + Spaces(width - VisibleWidth(text)) else text
  }

  /** What truncation comes to. */
  function Truncated(text: Line, width: nat, ellipsis: Line, pad: bool): Line {
    if width == 0 then []
    else if VisibleWidth(text) <= width then Padded(text, width, pad)
    else if VisibleWidth(ellipsis) < width then
      var cut := CutAll(text, width - VisibleWidth(ellipsis));
      Finalized(cut.kept, cut.width, ellipsis, VisibleWidth(ellipsis), width, pad)
    else
      var cut := CutAll(ellipsis, width);
      if cut.width == 0 then Padded([], width, pad) else Finalized([], 0, cut.kept, cut.width, width, pad)
  }

  // ----- The loops -----

  predicate PrintableAscii(xs: Line) {
    forall i :: 0 <= i < |xs| ==> xs[i].Cell? && xs[i].width == 1 && (xs[i].kind == Ink || xs[i].kind == Space)
  }

  predicate NoCodesNoTabs(xs: Line) {
    forall i :: 0 <= i < |xs| ==> xs[i].Cell? && xs[i].kind != Tab
  }

  lemma {:induction false} ClosedStays(xs: Line, i: nat, target: nat)
    requires i <= |xs| && !CutAll(xs[..i], target).whole
    ensures CutAll(xs, target).kept == CutAll(xs[..i], target).kept
    ensures CutAll(xs, target).width == CutAll(xs[..i], target).width
    ensures !CutAll(xs, target).whole
  {
    if i < |xs| {
      assert xs[..|xs| - 1][..i] == xs[..i];
      ClosedStays(xs[..|xs| - 1], i, target);
    } else {
      assert xs[..i] == xs;
    }
  }

  lemma {:induction false} WholeWidth(xs: Line, target: nat)
    ensures CutAll(xs, target).width <= target
    ensures CutAll(xs, target).whole <==> VisibleWidth(xs) <= target
    ensures CutAll(xs, target).whole ==> CutAll(xs, target).width == VisibleWidth(xs)
    ensures CutAll(xs, target).width <= VisibleWidth(xs)
  {
    if xs != [] {
      WholeWidth(xs[..|xs| - 1], target);
    }
  }

  lemma {:induction false} WidthGrows(xs: Line, i: nat)
    requires i <= |xs|
    ensures VisibleWidth(xs[..i]) <= VisibleWidth(xs)
  {
    assert xs == xs[..i] + xs[i..];
    WidthAppend(xs[..i], xs[i..]);
  }

  /** The loop over a text without codes and tabs; it stops as soon as the text is too wide. */
  method CutPlain(text: Line, target: nat, width: nat) returns (result: Line, kept: nat, seen: nat, overflowed: bool)
    requires target <= width && NoCodesNoTabs(text)
    ensures overflowed <==> VisibleWidth(text) > width
    ensures !overflowed ==> seen == VisibleWidth(text)
    ensures overflowed ==> result == CutAll(text, target).kept && kept == CutAll(text, target).width
  {
    result, kept, seen, overflowed := [], 0, 0, false;
    var whole := true;
    for i := 0 to |text|
      invariant Cut(result, [], kept, whole) == CutAll(text[..i], target)
      invariant seen == VisibleWidth(text[..i]) <= width
      invariant !overflowed
    {
      assert text[..i + 1][..i] == text[..i];
      var w := Columns(text[i]);
      if whole && kept + w <= target {
        assert result + [] == result;
        result, kept := result + [text[i]], kept + w;
      } else {
        whole := false;
      }
      seen := seen + w;
      WholeWidth(text[..i + 1], target);
      if seen > width {
        overflowed := true;
        ClosedStays(text, i + 1, target);
        WidthGrows(text, i + 1);
        return;
      }
    }
    assert text[..|text|] == text;
  }

  /** The loop over a text with codes or tabs. */
  method CutStyled(text: Line, target: nat, width: nat) returns (result: Line, kept: nat, seen: nat, overflowed: bool)
    requires target <= width
    ensures overflowed <==> VisibleWidth(text) > width
    ensures !overflowed ==> seen == VisibleWidth(text)
    ensures overflowed ==> result == CutAll(text, target).kept && kept == CutAll(text, target).width
  {
    result, kept, seen, overflowed := [], 0, 0, false;
    var pending: Line, whole := [], true;
    for i := 0 to |text|
      invariant Cut(result, pending, kept, whole) == CutAll(text[..i], target)
      invariant seen == VisibleWidth(text[..i]) <= width
      invariant !overflowed
    {
      assert text[..i + 1][..i] == text[..i];
      match text[i] {
        case Code(_) => pending := pending + [text[i]];
        case Cell(_, _, _) =>
          var w := Columns(text[i]);
          if whole && kept + w <= target {
            result := result + pending + [text[i]];
            kept := kept + w;
          } else {
            whole := false;
          }
          pending := [];
          seen := seen + w;
          WholeWidth(text[..i + 1], target);
          if seen > width {
            overflowed := true;
            ClosedStays(text, i + 1, target);
            WidthGrows(text, i + 1);
            return;
          }
      }
    }
    assert text[..|text|] == text;
  }

  /** The longest part of an ellipsis that fits. */
  method ClipFragment(text: Line, width: nat) returns (clipped: Line, clippedWidth: nat)
    ensures clipped == CutAll(text, width).kept && clippedWidth == CutAll(text, width).width
  {
    if PrintableAscii(text) {
      AsciiCut(text, width);
      var take := if |text| < width then |text| else width;
      return text[..take], take;
    }
    clipped, clippedWidth := [], 0;
    var pending: Line := [];
    for i := 0 to |text|
      invariant Cut(clipped, pending, clippedWidth, true) == CutAll(text[..i], width)
    {
      assert text[..i + 1][..i] == text[..i];
      match text[i] {
        case Code(_) => pending := pending + [text[i]];
        case Cell(_, _, _) =>
          if clippedWidth + Columns(text[i]) > width {
            ClosedStays(text, i + 1, width);
            return;
          }
          clipped, pending := clipped + pending + [text[i]], [];
          clippedWidth := clippedWidth + Columns(text[i]);
      }
    }
    assert text[..|text|] == text;
  }

  /** For printable ASCII the cut is known at once. */
  lemma {:induction false} AsciiCut(text: Line, target: nat)
    requires PrintableAscii(text)
    ensures VisibleWidth(text) == |text|
    ensures var n := if |text| <= target then |text| else target;
            CutAll(text, target) == Cut(text[..n], [], n, |text| <= target)
  {
    if text != [] {
      var m := |text| - 1;
      AsciiCut(text[..m], target);
      if m < target {
        assert text[..m] + [] + [text[m]] == text == text[..m + 1];
      } else {
        assert text[..m][..target] == text[..target];
      }
    }
  }

  /** A text that cannot fit beside the ellipsis, or must be replaced by it. */
  method TruncateBesideWideEllipsis(text: Line, width: nat, ellipsis: Line, pad: bool) returns (out: Line)
    requires 0 < width <= VisibleWidth(ellipsis)
    ensures out == Truncated(text, width, ellipsis, pad)
  {
    if VisibleWidth(text) <= width {
      return Padded(text, width, pad);
    }
    var clipped, clippedWidth := ClipFragment(ellipsis, width);
    if clippedWidth == 0 {
      return Padded([], width, pad);
    }
    out := Finalized([], 0, clipped, clippedWidth, width, pad);
  }

  /** Every path, the fast ones included, comes to what the specification says. */
  method TruncateToWidth(text: Line, width: nat, ellipsis: Line, pad: bool) returns (out: Line)
    ensures out == Truncated(text, width, ellipsis, pad)
  {
    if width == 0 {
      return [];
    }
    if text == [] {
      return Padded([], width, pad);
    }
    var ellipsisWidth := VisibleWidth(ellipsis);
    if ellipsisWidth >= width {
      out := TruncateBesideWideEllipsis(text, width, ellipsis, pad);
      return;
    }
    var target := width - ellipsisWidth;
    if PrintableAscii(text) {
      AsciiCut(text, target);
      if |text| <= width {
        return Padded(text, width, pad);
      }
      return Finalized(text[..target], target, ellipsis, ellipsisWidth, width, pad);
    }
    var result, kept, seen, overflowed;
    if NoCodesNoTabs(text) {
      result, kept, seen, overflowed := CutPlain(text, target, width);
    } else {
      result, kept, seen, overflowed := CutStyled(text, target, width);
    }
    if !overflowed {
      return if pad then text + Spaces(width - seen) else text;
    }
    out := Finalized(result, kept, ellipsis, ellipsisWidth, width, pad);
  }

  // ----- What truncation guarantees -----

  lemma {:induction false} SpacesWidth(n: nat)
    ensures VisibleWidth(Spaces(n)) == n
  {
    if n > 0 {
      SpacesWidth(n - 1);
      assert Spaces(n)[..n - 1] == Spaces(n - 1);
    }
  }

  lemma ResetWidth(xs: Line)
    ensures VisibleWidth(xs + [SGR_RESET]) == VisibleWidth(xs)
  {
    assert (xs + [SGR_RESET])[..|xs|] == xs;
  }

  lemma BracketedWidth(prefix: Line, ellipsis: Line)
    ensures VisibleWidth(Bracketed(prefix, ellipsis)) == VisibleWidth(prefix) + VisibleWidth(ellipsis)
  {
    ResetWidth(prefix);
    ResetWidth(ellipsis);
    WidthAppend(prefix + [SGR_RESET], if ellipsis == [] then [] else ellipsis + [SGR_RESET]);
  }

  lemma FinalizedWidth(prefix: Line, ellipsis: Line, width: nat, pad: bool)
    requires VisibleWidth(prefix) + VisibleWidth(ellipsis) <= width
    ensures var out := Finalized(prefix, VisibleWidth(prefix), ellipsis, VisibleWidth(ellipsis), width, pad);
            VisibleWidth(out) == if pad then width else VisibleWidth(prefix) + VisibleWidth(ellipsis)
  {
    var n := if pad then width - VisibleWidth(prefix) - VisibleWidth(ellipsis) else 0;
    BracketedWidth(prefix, ellipsis);
    WidthAppend(Bracketed(prefix, ellipsis), Spaces(n));
    SpacesWidth(n);
  }

  lemma PaddedWidth(text: Line, width: nat, pad: bool)
    requires VisibleWidth(text) <= width
    ensures VisibleWidth(Padded(text, width, pad)) == if pad then width else VisibleWidth(text)
  {
    if pad {
      SpacesWidth(width - VisibleWidth(text));
      WidthAppend(text, Spaces(width - VisibleWidth(text)));
    }
  }

  /** Codes waiting for a cluster have no width, so what is kept is as wide as it was counted. */
  lemma {:induction false} KeptWidth(xs: Line, target: nat)
    ensures VisibleWidth(CutAll(xs, target).kept) == CutAll(xs, target).width
    ensures OnlyCodes(CutAll(xs, target).pending)
  {
    if xs != [] {
      var c, x := CutAll(xs[..|xs| - 1], target), xs[|xs| - 1];
      KeptWidth(xs[..|xs| - 1], target);
      if x.Cell? {
        CodesHaveNoWidth(c.pending);
        WidthAppend(c.kept, c.pending);
        WidthAppend(c.kept + c.pending, [x]);
        OneWidth(x);
      }
    }
  }

  /** Main result: never wider than asked, and with padding exactly as wide. */
  lemma TruncatedWidth(text: Line, width: nat, ellipsis: Line, pad: bool)
    ensures VisibleWidth(Truncated(text, width, ellipsis, pad)) <= width
    ensures pad ==> VisibleWidth(Truncated(text, width, ellipsis, pad)) == width
  {
    if width == 0 {
    } else if VisibleWidth(text) <= width {
      PaddedWidth(text, width, pad);
    } else if VisibleWidth(ellipsis) < width {
      var target := width - VisibleWidth(ellipsis);
      WholeWidth(text, target);
      KeptWidth(text, target);
      FinalizedWidth(CutAll(text, target).kept, ellipsis, width, pad);
    } else {
      WholeWidth(ellipsis, width);
      KeptWidth(ellipsis, width);
      PaddedWidth([], width, pad);
      FinalizedWidth([], CutAll(ellipsis, width).kept, width, pad);
    }
  }

  /** Main result: a text is left as it is exactly when it fits. */
  lemma UnchangedExactly(text: Line, width: nat, ellipsis: Line)
    requires width > 0
    ensures Truncated(text, width, ellipsis, false) == text <==> VisibleWidth(text) <= width
  {
    TruncatedWidth(text, width, ellipsis, false);
  }

  /** Main result: a text that fits is only padded, behind it and with blanks. */
  lemma PaddedBehind(text: Line, width: nat, ellipsis: Line)
    requires VisibleWidth(text) <= width && width > 0
    ensures var out := Truncated(text, width, ellipsis, true);
            && text <= out && |out| == |text| + (width - VisibleWidth(text))
            && forall i :: |text| <= i < |out| ==> out[i] == BLANK_CELL
  {
  }

  // ----- The kept part is the longest -----

  predicate Kept(xs: Line, kept: Line) {
    kept <= xs && (kept == [] || kept[|kept| - 1].Cell?)
  }

  /** What is kept is a prefix, and together with what waits the whole while nothing was left out. */
  ghost predicate CutOk(xs: Line, c: Cut) {
    Kept(xs, c.kept) && (c.whole ==> c.kept + c.pending == xs)
  }

  lemma Cut1Ok(xs: Line, c: Cut, x: Item, target: nat)
    requires CutOk(xs, c)
    ensures CutOk(xs + [x], Cut1(c, x, target))
  {
    if c.whole {
      Associate(c.kept, c.pending, [x]);
    }
  }

  lemma {:induction false} KeptIsPrefix(xs: Line, target: nat)
    ensures CutOk(xs, CutAll(xs, target))
  {
    if xs != [] {
      var init, x := xs[..|xs| - 1], xs[|xs| - 1];
      KeptIsPrefix(init, target);
      Cut1Ok(init, CutAll(init, target), x, target);
      assert xs == init + [x];
    }
  }

  /** Main result: what is kept is a prefix that ends with a cluster, fits in the target, and is the
      longest such: with the next cluster it would not fit. */
  lemma KeptIsLongest(xs: Line, target: nat, n: nat)
    requires n <= |xs| && VisibleWidth(xs[..n]) <= target && Kept(xs, xs[..n])
    ensures var kept := CutAll(xs, target).kept;
            Kept(xs, kept) && VisibleWidth(kept) <= target && n <= |kept|
  {
    KeptIsPrefix(xs, target);
    KeptWidth(xs, target);
    WholeWidth(xs, target);
    WholeWidth(xs[..n], target);
    KeptIsPrefix(xs[..n], target);
    var c := CutAll(xs[..n], target);
    KeptWidth(xs[..n], target);
    if n > 0 {
      assert c.pending == [];
      assert c.kept == xs[..n];
    }
    KeptGrows(xs, n, target);
  }

  lemma {:induction false} KeptGrows(xs: Line, n: nat, target: nat)
    requires n <= |xs|
    ensures |CutAll(xs[..n], target).kept| <= |CutAll(xs, target).kept|
  {
    if n < |xs| {
      KeptGrows(xs[..|xs| - 1], n, target);
      assert xs[..|xs| - 1][..n] == xs[..n];
    } else {
      assert xs[..n] == xs;
    }
  }

  // ----- Styles -----

  lemma StyleAfterReset(st: Style, xs: Line)
    ensures StyleAfter(st, xs + [SGR_RESET]) == ResetSgr(StyleAfter(st, xs))
    ensures View(true, st, xs + [SGR_RESET]) == View(true, st, xs)
  {
    TakeBack(xs, SGR_RESET);
    assert SGR_RESET.text[2..|SGR_RESET.text| - 1] == "0";
  }

  lemma {:induction false} SpacesKeepStyle(st: Style, n: nat)
    ensures StyleAfter(st, Spaces(n)) == st
    ensures forall i :: 0 <= i < |View(true, st, Spaces(n))| ==>
            View(true, st, Spaces(n))[i] == StyledCell(BLANK_CELL, st)
  {
    if n > 0 {
      SpacesKeepStyle(st, n - 1);
      assert Spaces(n)[..n - 1] == Spaces(n - 1);
    }
  }

  lemma BracketedView(prefix: Line, ellipsis: Line)
    ensures var plain := ResetSgr(StyleAfter(PLAIN, prefix));
            && View(true, PLAIN, Bracketed(prefix, ellipsis)) == View(true, PLAIN, prefix) + View(true, plain, ellipsis)
            && ResetSgr(StyleAfter(PLAIN, Bracketed(prefix, ellipsis))) ==
               StyleAfter(PLAIN, Bracketed(prefix, ellipsis))
  {
    var plain := ResetSgr(StyleAfter(PLAIN, prefix));
    StyleAfterReset(PLAIN, prefix);
    if ellipsis == [] {
      assert prefix + [SGR_RESET] + [] == prefix + [SGR_RESET];
      assert View(true, PLAIN, prefix) + [] == View(true, PLAIN, prefix);
    } else {
      StyleAfterReset(plain, ellipsis);
      ViewAppend(true, PLAIN, prefix + [SGR_RESET], ellipsis + [SGR_RESET]);
      StyleAfterAppend(PLAIN, prefix + [SGR_RESET], ellipsis + [SGR_RESET]);
    }
  }

  lemma BlanksAreTheRest(text: Line, width: nat, ellipsis: Line)
    requires width > VisibleWidth(ellipsis)
    ensures var cut := CutAll(text, width - VisibleWidth(ellipsis));
            VisibleWidth(cut.kept) == cut.width && cut.width + VisibleWidth(ellipsis) <= width
  {
    KeptWidth(text, width - VisibleWidth(ellipsis));
    WholeWidth(text, width - VisibleWidth(ellipsis));
  }

  lemma FinishedView(kept: Line, ellipsis: Line, n: nat)
    ensures var out := Bracketed(kept, ellipsis) + Spaces(n);
            && View(true, PLAIN, out) ==
                 View(true, PLAIN, kept) + View(true, ResetSgr(StyleAfter(PLAIN, kept)), ellipsis) +
                 View(true, StyleAfter(PLAIN, out), Spaces(n))
            && ResetSgr(StyleAfter(PLAIN, out)) == StyleAfter(PLAIN, out)
  {
    var body := Bracketed(kept, ellipsis);
    BracketedView(kept, ellipsis);
    ViewAppend(true, PLAIN, body, Spaces(n));
    StyleAfterAppend(PLAIN, body, Spaces(n));
    SpacesKeepStyle(StyleAfter(PLAIN, body), n);
  }

  /** Main result: in a text that was cut the kept clusters have the style they have in the text, the
      ellipsis and the padding, which fills the width, have no SGR attribute of the text, and none is
      left at the end. */
  lemma CutTextIsBracketed(text: Line, width: nat, ellipsis: Line, pad: bool) returns (n: nat)
    requires VisibleWidth(text) > width > VisibleWidth(ellipsis)
    ensures var kept := CutAll(text, width - VisibleWidth(ellipsis)).kept;
            var plain, ended := ResetSgr(StyleAfter(PLAIN, kept)),
              StyleAfter(PLAIN, Truncated(text, width, ellipsis, pad));
            && View(true, PLAIN, Truncated(text, width, ellipsis, pad)) ==
                 View(true, PLAIN, kept) + View(true, plain, ellipsis) + View(true, ended, Spaces(n))
            && (exists rest :: View(true, PLAIN, text) == View(true, PLAIN, kept) + rest)
            && ResetSgr(ended) == ended
            && n == if pad then width - VisibleWidth(kept) - VisibleWidth(ellipsis) else 0
  {
    var cut := CutAll(text, width - VisibleWidth(ellipsis));
    var visible := cut.width + VisibleWidth(ellipsis);
    n := if pad && width > visible then width - visible else 0;
    BlanksAreTheRest(text, width, ellipsis);
    KeptIsPrefix(text, width - VisibleWidth(ellipsis));
    assert text == cut.kept + text[|cut.kept|..];
    ViewAppend(true, PLAIN, cut.kept, text[|cut.kept|..]);
    FinishedView(cut.kept, ellipsis, n);
    assert Truncated(text, width, ellipsis, pad) == Bracketed(cut.kept, ellipsis) + Spaces(n);
  }

  // ----- Hyperlinks -----

  lemma {:induction false} PartsKeepLink(st: Style, parts: seq<string>)
    ensures ApplyParts(st, parts).link == st.link
    decreases |parts|
  {
    if parts != [] {
      PartsKeepLink(ApplyFirst(st, parts), parts[Taken(parts)..]);
    }
  }

  /** Which link a text leaves open depends on the link it starts in, but not on SGR attributes. */
  lemma {:induction false} LinkIgnoresSgr(a: Style, b: Style, xs: Line)
    requires a.link == b.link
    ensures StyleAfter(a, xs).link == StyleAfter(b, xs).link
  {
    if xs != [] {
      var init, x := xs[..|xs| - 1], xs[|xs| - 1];
      LinkIgnoresSgr(a, b, init);
      if x.Code? {
        var body := if Sgr(x.text) then x.text[2..|x.text| - 1] else [];
        PartsKeepLink(StyleAfter(a, init), Split(body));
        PartsKeepLink(StyleAfter(b, init), Split(body));
      }
    }
  }

  /** The first `n` items end with a cluster and fit. */
  predicate FitsUpTo(xs: Line, target: nat, n: nat) {
    n <= |xs| && Kept(xs, xs[..n]) && VisibleWidth(xs[..n]) <= target
  }

  /** And they are the longest part of which that is true. */
  ghost predicate LongestFit(xs: Line, target: nat, n: nat) {
    FitsUpTo(xs, target, n) && forall m: nat :: FitsUpTo(xs, target, m) ==> m <= n
  }

  lemma LongestIsKept(xs: Line, target: nat, n: nat)
    requires LongestFit(xs, target, n)
    ensures CutAll(xs, target).kept == xs[..n] && CutAll(xs, target).width == VisibleWidth(xs[..n])
  {
    var kept := CutAll(xs, target).kept;
    KeptIsLongest(xs, target, n);
    KeptWidth(xs, target);
    assert kept == xs[..|kept|];
    assert FitsUpTo(xs, target, |kept|);
  }

  lemma LinkOfFinalized(prefix: Line, prefixWidth: nat, ellipsis: Line, ellipsisWidth: nat, width: nat, pad: bool)
    ensures StyleAfter(PLAIN, Finalized(prefix, prefixWidth, ellipsis, ellipsisWidth, width, pad)).link ==
            StyleAfter(PLAIN, prefix + ellipsis).link
  {
    var visible := prefixWidth + ellipsisWidth;
    LinkOfBracketed(prefix, ellipsis, if pad && width > visible then width - visible else 0);
    AppendEmpty(Bracketed(prefix, ellipsis));
  }

  lemma LinkOfBracketed(prefix: Line, ellipsis: Line, n: nat)
    ensures StyleAfter(PLAIN, Bracketed(prefix, ellipsis) + Spaces(n)).link == StyleAfter(PLAIN, prefix + ellipsis).link
  {
    var body := Bracketed(prefix, ellipsis);
    var plain := ResetSgr(StyleAfter(PLAIN, prefix));
    StyleAfterAppend(PLAIN, body, Spaces(n));
    SpacesKeepStyle(StyleAfter(PLAIN, body), n);
    StyleAfterReset(PLAIN, prefix);
    StyleAfterReset(plain, ellipsis);
    StyleAfterAppend(PLAIN, prefix, ellipsis);
    LinkIgnoresSgr(plain, StyleAfter(PLAIN, prefix), ellipsis);
    if ellipsis == [] {
      AppendEmpty(prefix + [SGR_RESET]);
    } else {
      StyleAfterAppend(PLAIN, prefix + [SGR_RESET], ellipsis + [SGR_RESET]);
    }
  }

  lemma LinkOfCut(text: Line, width: nat, ellipsis: Line, pad: bool, kept: Line)
    requires VisibleWidth(text) > width > VisibleWidth(ellipsis)
    requires kept == CutAll(text, width - VisibleWidth(ellipsis)).kept
    ensures StyleAfter(PLAIN, Truncated(text, width, ellipsis, pad)).link == StyleAfter(PLAIN, kept + ellipsis).link
  {
    var cut := CutAll(text, width - VisibleWidth(ellipsis));
    LinkOfFinalized(cut.kept, cut.width, ellipsis, VisibleWidth(ellipsis), width, pad);
  }

  /** Main result.  The resets are of SGR only: a cut text leaves a hyperlink open exactly if the
      longest part of the text that fits beside the ellipsis, followed by the ellipsis, does. */
  lemma LinkStaysOpen(text: Line, width: nat, ellipsis: Line, pad: bool, n: nat)
    requires VisibleWidth(text) > width > VisibleWidth(ellipsis)
    requires LongestFit(text, width - VisibleWidth(ellipsis), n)
    ensures StyleAfter(PLAIN, Truncated(text, width, ellipsis, pad)).link ==
            StyleAfter(PLAIN, text[..n] + ellipsis).link
  {
    LongestIsKept(text, width - VisibleWidth(ellipsis), n);
    LinkOfCut(text, width, ellipsis, pad, text[..n]);
  }

  /** Where nothing fits beside the ellipsis, the same of the longest part of the ellipsis that fits,
      unless that has no width and nothing of it is shown. */
  lemma LinkOfClippedEllipsis(text: Line, width: nat, ellipsis: Line, pad: bool, n: nat)
    requires VisibleWidth(text) > width > 0 && VisibleWidth(ellipsis) >= width
    requires LongestFit(ellipsis, width, n)
    ensures StyleAfter(PLAIN, Truncated(text, width, ellipsis, pad)).link ==
            if VisibleWidth(ellipsis[..n]) == 0 then None else StyleAfter(PLAIN, ellipsis[..n]).link
  {
    LongestIsKept(ellipsis, width, n);
    if VisibleWidth(ellipsis[..n]) == 0 {
      EmptyThen(Spaces(width));
      SpacesKeepStyle(PLAIN, width);
    } else {
      LinkOfFinalized([], 0, ellipsis[..n], VisibleWidth(ellipsis[..n]), width, pad);
      EmptyThen(ellipsis[..n]);
    }
  }

  /** Where nothing fits beside the ellipsis, what shows is its longest part that fits, followed by
      blanks only, and nothing of the text. */
  lemma OnlyEllipsisShows(text: Line, width: nat, ellipsis: Line, pad: bool, n: nat)
    requires VisibleWidth(text) > width > 0 && VisibleWidth(ellipsis) >= width
    requires LongestFit(ellipsis, width, n)
    ensures var part := if VisibleWidth(ellipsis[..n]) == 0 then [] else ellipsis[..n];
            var blanks := if pad then width - VisibleWidth(part) else 0;
            View(false, PLAIN, Truncated(text, width, ellipsis, pad)) ==
              View(false, PLAIN, part) + View(false, PLAIN, Spaces(blanks))
  {
    ClippedIs(text, width, ellipsis, pad, n);
    if VisibleWidth(ellipsis[..n]) == 0 {
      NothingShows(width, pad);
    } else {
      ClippedShows(ellipsis[..n], width, pad);
    }
  }

  lemma ClippedIs(text: Line, width: nat, ellipsis: Line, pad: bool, n: nat)
    requires VisibleWidth(text) > width > 0 && VisibleWidth(ellipsis) >= width
    requires LongestFit(ellipsis, width, n)
    ensures VisibleWidth(ellipsis[..n]) <= width
    ensures Truncated(text, width, ellipsis, pad) ==
            if VisibleWidth(ellipsis[..n]) == 0 then Padded([], width, pad)
            else Finalized([], 0, ellipsis[..n], VisibleWidth(ellipsis[..n]), width, pad)
  {
    LongestIsKept(ellipsis, width, n);
  }

  lemma NothingShows(width: nat, pad: bool)
    ensures View(false, PLAIN, Padded([], width, pad)) ==
            View(false, PLAIN, []) + View(false, PLAIN, Spaces(if pad then width else 0))
  {
    EmptyThen(Spaces(width));
    EmptyThen(View(false, PLAIN, Spaces(if pad then width else 0)));
  }

  lemma ClippedShows(part: Line, width: nat, pad: bool)
    requires 0 < VisibleWidth(part) <= width
    ensures View(false, PLAIN, Finalized([], 0, part, VisibleWidth(part), width, pad)) ==
            View(false, PLAIN, part) + View(false, PLAIN, Spaces(if pad then width - VisibleWidth(part) else 0))
  {
    var n := if pad then width - VisibleWidth(part) else 0;
    var body := Bracketed([], part);
    assert body == [SGR_RESET] + (part + [SGR_RESET]);
    assert [SGR_RESET][..0] == [];
    ViewAppend(false, PLAIN, [SGR_RESET], part + [SGR_RESET]);
    StyleAfterReset(StyleAfter(PLAIN, [SGR_RESET]), part);
    ViewAppend(false, StyleAfter(PLAIN, [SGR_RESET]), part, [SGR_RESET]);
    EmptyThen(View(false, PLAIN, part));
    Unseen(StyleAfter(PLAIN, [SGR_RESET]), PLAIN, part + [SGR_RESET]);
    UnseenReset(part);
    AppendEmpty(body);
    ViewAppend(false, PLAIN, body, Spaces(n));
    Unseen(StyleAfter(PLAIN, body), PLAIN, Spaces(n));
  }

  lemma UnseenReset(part: Line)
    ensures View(false, PLAIN, part + [SGR_RESET]) == View(false, PLAIN, part)
  {
    TakeBack(part, SGR_RESET);
    AppendEmpty(View(false, PLAIN, part));
  }

  const LINK := Hyperlink("", "u", Bel)

  lemma LinkCode()
    ensures ParseOsc8(FormatOpen(LINK)) == OpenLink(LINK) && IsCode(FormatOpen(LINK))
  {
    var code := FormatOpen(LINK);
    assert code == [ESC, ']', '8', ';', ';', 'u', BEL];
    var body := code[4..|code| - 1];
    assert body == [';', 'u'];
    assert Find(body, ';') == Some(0) && body[..0] == "" && body[1..] == "u";
    assert StringEnd(code, 2) == StringEnd(code, 3) == StringEnd(code, 4) == StringEnd(code, 5) == StringEnd(code, 6) ==
      Some(7);
  }

  lemma FourWidths(c: Item, a: Item)
    requires c.Code? && a.Cell? && a.kind == Ink && a.width == 1
    ensures VisibleWidth([c]) == 0 && VisibleWidth([c, a]) == 1 && VisibleWidth([c, a, a]) == 2 &&
            VisibleWidth([c, a, a, a]) == 3
  {
    FourColumns(c, a, a, a);
    ThreeColumns(c, a, a);
    OneWidth(c);
  }

  /** For example a link of three letters cut to two. */
  lemma CutLeavesLinkOpen(a: Item)
    requires a.Cell? && a.kind == Ink && a.width == 1
    ensures var text := [Code(FormatOpen(LINK)), a, a, a];
            && CodesOk(text)
            && StyleAfter(PLAIN, Truncated(text, 2, [], false)).link == Some(LINK)
  {
    var c := Code(FormatOpen(LINK));
    var text := [c, a, a, a];
    LinkCode();
    FourWidths(c, a);
    assert text[..3] == [c, a, a] && text[..4] == text;
    assert FitsUpTo(text, 2, 3) && !FitsUpTo(text, 2, 4);
    LinkStaysOpen(text, 2, [], false, 3);
    assert text[..3] + [] == [c] + [a, a];
    StyleAfterAppend(PLAIN, [c], [a, a]);
    NoCodesNoChange(StyleAfter(PLAIN, [c]), [a, a]);
    assert [c][..0] == [];
  }
}
