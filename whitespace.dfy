/**
 * The whitespace normalisers of the catalog scrapers:
 * `removeExtraWhitespace` (internal/tui/manager.go), which replaces every run of
 * the regular-expression class `\s` by one space, and the two `removeWhitespace`
 * variants, which combine that replacement with Go's `strings.TrimSpace`, in
 * either order (internal/tui/get_models.go trims first, tui/get_models.go last).
 */
module Whitespace {

  /** Go's RE2 class `\s`: tab, newline, form feed, carriage return and space. */
  predicate IsRegexSpace(c: char)
  {
    c == '\t' || c == '\n' || c == '\U{C}' || c == '\r' || c == ' '
  }

  /** The characters with the Unicode White_Space property. */
  const UnicodeSpaces: set<char> := {
    '\t', '\n', '\U{B}', '\U{C}', '\r', ' ', '\U{85}', '\U{A0}', '\U{1680}',
    '\U{2000}', '\U{2001}', '\U{2002}', '\U{2003}', '\U{2004}', '\U{2005}',
    '\U{2006}', '\U{2007}', '\U{2008}', '\U{2009}', '\U{200A}',
    '\U{2028}', '\U{2029}', '\U{202F}', '\U{205F}', '\U{3000}'
  }

  /** Go's `unicode.IsSpace`, the test `strings.TrimSpace` uses. */
  predicate IsUnicodeSpace(c: char)
  {
    c in UnicodeSpaces
  }

  /** The characters of `s` that are not whitespace, in order. */
  function Visible(s: string): string
  {
    if s == [] then [] else (if IsUnicodeSpace(s[0]) then [] else [s[0]]) + Visible(s[1..])
  }

  lemma {:induction false} VisibleAppend(a: string, b: string)
    ensures Visible(a + b) == Visible(a) + Visible(b)
    decreases |a|
  {
    if a == [] {
      assert a + b == b;
    } else {
      assert (a + b)[0] == a[0];
      assert (a + b)[1..] == a[1..] + b;
      VisibleAppend(a[1..], b);
    }
  }

  /** No two `\s` characters are adjacent, and every `\s` character is a plain space. */
  ghost predicate Collapsed(s: string)
  {
    forall i :: 0 <= i < |s| && IsRegexSpace(s[i]) ==>
      s[i] == ' ' && (i + 1 < |s| ==> !IsRegexSpace(s[i + 1]))
  }

  /** Drops the leading run of `\s` characters. */
  function SkipRegexSpaces(s: string): (r: string)
    ensures |r| <= |s| && r == s[|s| - |r|..]
    ensures r == [] || !IsRegexSpace(r[0])
    ensures forall i :: 0 <= i < |s| - |r| ==> IsRegexSpace(s[i])
  {
    if s != [] && IsRegexSpace(s[0]) then SkipRegexSpaces(s[1..]) else s
  }

  /** `regexp.MustCompile(`\s+`).ReplaceAllString(s, " ")`: each maximal `\s` run becomes one space. */
  function Collapse(s: string): (r: string)
    decreases |s|
  {
    if s == [] then []
    else if IsRegexSpace(s[0]) then " " + Collapse(SkipRegexSpaces(s[1..]))
    else [s[0]] + Collapse(s[1..])
  }

  /**
   * An independent, character-at-a-time reading of the same replacement: a
   * `\s` character is written as a space unless the character before it was
   * also `\s`, in which case it is dropped; every other character is copied.
   */
  function Scan(s: string, afterSpace: bool): string
  {
    if s == [] then []
    else if IsRegexSpace(s[0]) then (if afterSpace then "" else " ") + Scan(s[1..], true)
    else [s[0]] + Scan(s[1..], false)
  }

  lemma {:induction false} ScanSkips(s: string)
    ensures Scan(s, true) == Scan(SkipRegexSpaces(s), true)
  {
    if s != [] && IsRegexSpace(s[0]) {
      ScanSkips(s[1..]);
    }
  }

  /** `Collapse` is the run replacement: it agrees with the character-at-a-time reading. */
  lemma {:induction false} CollapseIsScan(s: string)
    ensures Collapse(s) == Scan(s, false)
    decreases |s|
  {
    if s != [] {
      if IsRegexSpace(s[0]) {
        var t := SkipRegexSpaces(s[1..]);
        CollapseIsScan(t);
        ScanSkips(s[1..]);
        if t != [] {
          assert Scan(t, true) == Scan(t, false);
        }
      } else {
        CollapseIsScan(s[1..]);
      }
    }
  }

  lemma {:induction false} SkipKeepsVisible(s: string)
    ensures Visible(SkipRegexSpaces(s)) == Visible(s)
  {
    if s != [] && IsRegexSpace(s[0]) {
      SkipKeepsVisible(s[1..]);
    }
  }

  /** Collapsing keeps every non-whitespace character, in order. */
  lemma {:induction false} CollapseKeepsVisible(s: string)
    ensures Visible(Collapse(s)) == Visible(s)
    decreases |s|
  {
    if s != [] {
      if IsRegexSpace(s[0]) {
        var t := SkipRegexSpaces(s[1..]);
        CollapseKeepsVisible(t);
        SkipKeepsVisible(s[1..]);
        VisibleAppend(" ", Collapse(t));
      } else {
        CollapseKeepsVisible(s[1..]);
        VisibleAppend([s[0]], Collapse(s[1..]));
      }
    }
  }

  lemma CollapseHead(s: string)
    requires s != [] && !IsRegexSpace(s[0])
    ensures Collapse(s) != [] && Collapse(s)[0] == s[0]
  {
  }

  /** The result of collapsing has no two adjacent `\s` characters and only plain spaces. */
  lemma {:induction false} CollapseIsCollapsed(s: string)
    ensures Collapsed(Collapse(s))
    decreases |s|
  {
    if s != [] {
      if IsRegexSpace(s[0]) {
        var t := SkipRegexSpaces(s[1..]);
        CollapseIsCollapsed(t);
        if t != [] {
          CollapseHead(t);
        }
        var r := " " + Collapse(t);
        forall i | 0 <= i < |r| && IsRegexSpace(r[i])
          ensures r[i] == ' ' && (i + 1 < |r| ==> !IsRegexSpace(r[i + 1]))
        {
          if i > 0 {
            assert r[i] == Collapse(t)[i - 1];
          }
        }
      } else {
        CollapseIsCollapsed(s[1..]);
        var r := [s[0]] + Collapse(s[1..]);
        forall i | 0 <= i < |r| && IsRegexSpace(r[i])
          ensures r[i] == ' ' && (i + 1 < |r| ==> !IsRegexSpace(r[i + 1]))
        {
          assert i > 0;
          assert r[i] == Collapse(s[1..])[i - 1];
        }
      }
    }
  }

  /** A string that is already collapsed is left unchanged. */
  lemma {:induction false} CollapseFixes(s: string)
    requires Collapsed(s)
    ensures Collapse(s) == s
    decreases |s|
  {
    if s != [] {
      CollapsedSlice(s, 1, |s|);
      assert s[1..|s|] == s[1..];
      CollapseFixes(s[1..]);
      if IsRegexSpace(s[0]) {
        assert s[0] == ' ';
        assert s[1..] == [] || !IsRegexSpace(s[1..][0]) by {
          if |s| > 1 {
            assert s[1..][0] == s[1];
          }
        }
        assert SkipRegexSpaces(s[1..]) == s[1..];
        assert Collapse(s) == " " + Collapse(s[1..]);
      } else {
        assert Collapse(s) == [s[0]] + Collapse(s[1..]);
      }
      assert s == [s[0]] + s[1..];
    }
  }

  /** `removeExtraWhitespace` is idempotent. */
  lemma CollapseIdempotent(s: string)
    ensures Collapse(Collapse(s)) == Collapse(s)
  {
    CollapseIsCollapsed(s);
    CollapseFixes(Collapse(s));
  }

  /** Any slice of a collapsed string is collapsed. */
  lemma CollapsedSlice(s: string, i: int, j: int)
    requires Collapsed(s) && 0 <= i <= j <= |s|
    ensures Collapsed(s[i..j])
  {
    var t := s[i..j];
    forall k | 0 <= k < |t| && IsRegexSpace(t[k])
      ensures t[k] == ' ' && (k + 1 < |t| ==> !IsRegexSpace(t[k + 1]))
    {
      assert t[k] == s[i + k];
      if k + 1 < |t| {
        assert t[k + 1] == s[i + k + 1];
      }
    }
  }

  /** The first index at or after `i` that does not hold whitespace (`|s|` when there is none). */
  function LeftEdge(s: string, i: nat): (r: nat)
    requires i <= |s|
    ensures i <= r <= |s|
    ensures r < |s| ==> !IsUnicodeSpace(s[r])
    ensures forall k :: i <= k < r ==> IsUnicodeSpace(s[k])
    decreases |s| - i
  {
    if i < |s| && IsUnicodeSpace(s[i]) then LeftEdge(s, i + 1) else i
  }

  /** Moving left from `j`, the end of the last character above `lo` that is not whitespace (`lo` when there is none). */
  function RightEdge(s: string, lo: nat, j: nat): (r: nat)
    requires lo <= j <= |s|
    ensures lo <= r <= j
    ensures r > lo ==> !IsUnicodeSpace(s[r - 1])
    ensures forall k :: r <= k < j ==> IsUnicodeSpace(s[k])
    decreases j - lo
  {
    if j > lo && IsUnicodeSpace(s[j - 1]) then RightEdge(s, lo, j - 1) else j
  }

  /**
   * `strings.TrimSpace`: a slice of `s` with only whitespace cut before and
   * after it, whose ends are not whitespace; everything inside is kept as is.
   */
  function TrimSpace(s: string): (r: string)
    ensures exists i, j ::
              0 <= i <= j <= |s| && r == s[i..j] &&
              (forall k :: 0 <= k < i ==> IsUnicodeSpace(s[k])) &&
              (forall k :: j <= k < |s| ==> IsUnicodeSpace(s[k]))
    ensures r == [] || (!IsUnicodeSpace(r[0]) && !IsUnicodeSpace(r[|r| - 1]))
  {
    var start := LeftEdge(s, 0);
    s[start..RightEdge(s, start, |s|)]
  }

  lemma {:induction false} VisibleOfSpaces(t: string)
    requires forall k :: 0 <= k < |t| ==> IsUnicodeSpace(t[k])
    ensures Visible(t) == []
  {
    if t != [] {
      VisibleOfSpaces(t[1..]);
    }
  }

  lemma SliceOfSlice<T>(s: seq<T>, a: int, b: int)
    requires 0 <= a <= b <= |s|
    ensures s[a..][..b - a] == s[a..b]
  {
  }

  lemma Halves<T>(s: seq<T>, a: int)
    requires 0 <= a <= |s|
    ensures s == s[..a] + s[a..]
  {
  }

  /** Leading whitespace adds nothing visible. */
  lemma VisibleAfterSpaces(s: string, a: int)
    requires 0 <= a <= |s|
    requires forall k :: 0 <= k < a ==> IsUnicodeSpace(s[k])
    ensures Visible(s[a..]) == Visible(s)
  {
    Halves(s, a);
    VisibleAppend(s[..a], s[a..]);
    assert forall k :: 0 <= k < a ==> s[..a][k] == s[k];
    VisibleOfSpaces(s[..a]);
  }

  /** Trailing whitespace adds nothing visible. */
  lemma VisibleBeforeSpaces(s: string, b: int)
    requires 0 <= b <= |s|
    requires forall k :: b <= k < |s| ==> IsUnicodeSpace(s[k])
    ensures Visible(s[..b]) == Visible(s)
  {
    Halves(s, b);
    VisibleAppend(s[..b], s[b..]);
    assert forall k :: 0 <= k < |s| - b ==> s[b..][k] == s[b + k];
    VisibleOfSpaces(s[b..]);
  }

  /** Whitespace on both sides of a slice adds nothing visible. */
  lemma VisibleBetweenSpaces(s: string, a: int, b: int)
    requires 0 <= a <= b <= |s|
    requires forall k :: 0 <= k < a ==> IsUnicodeSpace(s[k])
    requires forall k :: b <= k < |s| ==> IsUnicodeSpace(s[k])
    ensures Visible(s[a..b]) == Visible(s)
  {
    VisibleAfterSpaces(s, a);
    var t := s[a..];
    forall k | b - a <= k < |t|
      ensures IsUnicodeSpace(t[k])
    {
      assert t[k] == s[a + k];
    }
    VisibleBeforeSpaces(t, b - a);
    SliceOfSlice(s, a, b);
  }

  /** Trimming removes only whitespace: every other character is kept, in order. */
  lemma TrimSpaceVisible(s: string)
    ensures Visible(TrimSpace(s)) == Visible(s)
  {
    var start := LeftEdge(s, 0);
    VisibleBetweenSpaces(s, start, RightEdge(s, start, |s|));
  }

  /** Trimming a collapsed string leaves it collapsed. */
  lemma TrimKeepsCollapsed(s: string)
    requires Collapsed(s)
    ensures Collapsed(TrimSpace(s))
  {
    var start := LeftEdge(s, 0);
    CollapsedSlice(s, start, RightEdge(s, start, |s|));
  }

  /** A string with no whitespace at either end is left unchanged. */
  lemma TrimSpaceKeepsTrimmed(s: string)
    requires s == [] || (!IsUnicodeSpace(s[0]) && !IsUnicodeSpace(s[|s| - 1]))
    ensures TrimSpace(s) == s
  {
    if s != [] {
      assert LeftEdge(s, 0) == 0;
      assert RightEdge(s, 0, |s|) == |s|;
      assert s[0..|s|] == s;
    }
  }

  lemma RegexSpaceIsUnicodeSpace(c: char)
    ensures IsRegexSpace(c) ==> IsUnicodeSpace(c)
  {
  }

  /** The last character of a collapse is the input's last character when that is not `\s`. */
  lemma {:induction false} CollapseLast(s: string)
    requires s != [] && !IsRegexSpace(s[|s| - 1])
    ensures Collapse(s) != [] && Collapse(s)[|Collapse(s)| - 1] == s[|s| - 1]
    decreases |s|
  {
    if IsRegexSpace(s[0]) {
      var t := SkipRegexSpaces(s[1..]);
      assert t != [] && t[|t| - 1] == s[|s| - 1];
      CollapseLast(t);
    } else if |s| > 1 {
      CollapseLast(s[1..]);
    }
  }

  /** Collapsing a string without whitespace at either end leaves none there. */
  lemma CollapseKeepsEnds(t: string)
    requires t == [] || (!IsUnicodeSpace(t[0]) && !IsUnicodeSpace(t[|t| - 1]))
    ensures Collapse(t) == [] || (!IsUnicodeSpace(Collapse(t)[0]) && !IsUnicodeSpace(Collapse(t)[|Collapse(t)| - 1]))
  {
    if t != [] {
      CollapseHead(t);
      CollapseLast(t);
    }
  }

  /**
   * `removeWhitespace` of internal/tui/get_models.go: trim, then collapse.
   * The result starts and ends with a non-whitespace character (or is empty),
   * holds no two adjacent `\s` characters, and keeps every other character in
   * order; it is the trimmed text read character by character (`Scan`), so
   * each interior run of `\s` becomes exactly one space.
   */
  function RemoveWhitespaceTrimFirst(s: string): (r: string)
    ensures r == [] || (!IsUnicodeSpace(r[0]) && !IsUnicodeSpace(r[|r| - 1]))
    ensures Collapsed(r)
    ensures Visible(r) == Visible(s)
    ensures r == Scan(TrimSpace(s), false)
  {
    var t := TrimSpace(s);
    CollapseIsScan(t);
    TrimSpaceVisible(s);
    CollapseIsCollapsed(t);
    CollapseKeepsVisible(t);
    CollapseKeepsEnds(t);
    Collapse(t)
  }

  /**
   * `removeWhitespace` of tui/get_models.go: collapse, then trim.
   * Same guarantees as the trim-first variant; it is the character-by-character
   * reading (`Scan`) of the input, trimmed.
   */
  function RemoveWhitespace(s: string): (r: string)
    ensures r == [] || (!IsUnicodeSpace(r[0]) && !IsUnicodeSpace(r[|r| - 1]))
    ensures Collapsed(r)
    ensures Visible(r) == Visible(s)
    ensures r == TrimSpace(Scan(s, false))
  {
    var c := Collapse(s);
    CollapseIsScan(s);
    CollapseIsCollapsed(s);
    CollapseKeepsVisible(s);
    TrimSpaceVisible(c);
    TrimKeepsCollapsed(c);
    TrimSpace(c)
  }

  /** Normalising twice is normalising once (tui/get_models.go). */
  lemma RemoveWhitespaceIdempotent(s: string)
    ensures RemoveWhitespace(RemoveWhitespace(s)) == RemoveWhitespace(s)
  {
    var r := RemoveWhitespace(s);
    CollapseFixes(r);
    TrimSpaceKeepsTrimmed(r);
  }

  /** Normalising twice is normalising once (internal/tui/get_models.go). */
  lemma RemoveWhitespaceTrimFirstIdempotent(s: string)
    ensures RemoveWhitespaceTrimFirst(RemoveWhitespaceTrimFirst(s)) == RemoveWhitespaceTrimFirst(s)
  {
    var r := RemoveWhitespaceTrimFirst(s);
    TrimSpaceKeepsTrimmed(r);
    CollapseFixes(r);
  }
}
