/**
 * The tag scraper shared by manager/manager.go and internal/install/install.go
 * (`GetAvailableTags`, identical in both): the tags page of a model is read
 * line by line, and every line that links to `/library/<name>:<tag>` yields the
 * text of that link with the `/library/<name>:` prefix removed.
 */
module Tags {
  import opened Wrappers
  import opened GoStrings

  const Href: string := "href=\""
  const Quote: string := "\""

  /** The text a line must contain to yield a tag. */
  function TagPattern(name: string): string
  {
    Href + "/library/" + name + ":"
  }

  /** The prefix removed from an extracted link. */
  function TagPrefix(name: string): string
  {
    "/library/" + name + ":"
  }

  /** The pattern begins with `href="`, so a matching line has a second piece when split on it. */
  lemma PatternHasHref(line: string, name: string)
    requires Contains(line, TagPattern(name))
    ensures |Split(line, Href)| >= 2
  {
    var i :| 0 <= i <= |line| && OccursAt(line, TagPattern(name), i);
    assert line[i..i + |Href|] == line[i..i + |TagPattern(name)|][..|Href|];
    SplitHasSecond(line, Href, i);
  }

  /** The item a matching line yields: the link text after the first `href="`, up to the next quote, less the prefix. */
  function TagItem(line: string, name: string): string
    requires Contains(line, TagPattern(name))
  {
    PatternHasHref(line, name);
    var href := Split(line, Href)[1];
    var item := Split(href, Quote)[0];
    TrimPrefix(item, TagPrefix(name))
  }

  /** The items of the matching lines, in line order. */
  function TagsOf(lines: seq<string>, name: string): seq<string>
  {
    if lines == [] then []
    else (if Contains(lines[0], TagPattern(name)) then [TagItem(lines[0], name)] else []) + TagsOf(lines[1..], name)
  }

  /** The number of lines that contain the pattern. */
  function CountMatching(lines: seq<string>, name: string): nat
  {
    if lines == [] then 0
    else (if Contains(lines[0], TagPattern(name)) then 1 else 0) + CountMatching(lines[1..], name)
  }

  /** One item per matching line. */
  lemma {:induction false} TagsOfLength(lines: seq<string>, name: string)
    ensures |TagsOf(lines, name)| == CountMatching(lines, name)
    ensures CountMatching(lines, name) <= |lines|
  {
    if lines != [] {
      TagsOfLength(lines[1..], name);
    }
  }

  /** Items keep line order: the page's lines in two parts give their items in two parts. */
  lemma {:induction false} TagsOfAppend(a: seq<string>, b: seq<string>, name: string)
    ensures TagsOf(a + b, name) == TagsOf(a, name) + TagsOf(b, name)
  {
    if a == [] {
      assert a + b == b;
    } else {
      assert (a + b)[0] == a[0] && (a + b)[1..] == a[1..] + b;
      TagsOfAppend(a[1..], b, name);
    }
  }

  /** `GetAvailableTags`: a failed download or read is passed through; otherwise the items of the body's lines. */
  method GetAvailableTags(name: string, body: Result<string>) returns (r: Result<seq<string>>)
    ensures body.Err? ==> r == Err(body.error)
    ensures body.Ok? ==> r == Ok(TagsOf(Split(body.value, "\n"), name))
  {
    if body.Err? {
      return Err(body.error);
    }
    var lines := Split(body.value, "\n");
    var items: seq<string> := [];
    var i := 0;
    while i < |lines|
      invariant 0 <= i <= |lines|
      invariant items + TagsOf(lines[i..], name) == TagsOf(lines, name)
    {
      var line := lines[i];
      assert lines[i..][0] == line && lines[i..][1..] == lines[i + 1..];
      if Contains(line, TagPattern(name)) {
        PatternHasHref(line, name);
        var href := Split(line, Href)[1];
        var item := Split(href, Quote)[0];
        item := TrimPrefix(item, TagPrefix(name));
        items := items + [item];
      }
      i := i + 1;
    }
    assert lines[i..] == [] && TagsOf([], name) == [];
    assert items + [] == items;
    return Ok(items);
  }

  /** Text that cannot end or open an attribute: no quote and no equals sign. */
  predicate Plain(s: string)
  {
    forall k :: 0 <= k < |s| ==> s[k] != '"' && s[k] != '='
  }

  lemma PlainConcat(a: string, b: string)
    requires Plain(a) && Plain(b)
    ensures Plain(a + b)
  {
    forall k | 0 <= k < |a + b|
      ensures (a + b)[k] != '"' && (a + b)[k] != '='
    {
      if k < |a| {
        assert (a + b)[k] == a[k];
      } else {
        assert (a + b)[k] == b[k - |a|];
      }
    }
  }

  /** Splitting on a quote, the first piece of `u + "\"" + post` is `u` when `u` has no quote. */
  lemma BeforeQuote(u: string, post: string)
    requires Plain(u)
    ensures Split(u + Quote + post, Quote)[0] == u
  {
    var s := u + Quote + post;
    assert OccursAt(s, Quote, |u|);
    forall j | 0 <= j < |u|
      ensures !OccursAt(s, Quote, j)
    {
      assert s[j] == u[j];
    }
    FirstPiece(s, Quote, |u|);
  }

  /** `href="` cannot start before the first quote of `u + "\"" + post` when `u` is plain. */
  lemma NoHrefBefore(u: string, post: string, j: int)
    requires Plain(u) && |u| > 0 && 0 <= j <= |u|
    ensures !OccursAt(u + Quote + post, Href, j)
  {
    var s := u + Quote + post;
    if j + |Href| <= |s| {
      var w := s[j..j + |Href|];
      if j + 5 < |u| {
        assert w[5] == s[j + 5] == u[j + 5] != Href[5];
      } else if j + 5 == |u| {
        assert w[4] == s[j + 4] == u[|u| - 1] != Href[4];
      } else {
        assert w[|u| - j] == s[|u|] == '"' != Href[|u| - j];
      }
    }
  }

  /** A plain prefix before `href="` holds no occurrence of it. */
  lemma NoHrefInPlain(pre: string, rest: string, j: int)
    requires Plain(pre) && 0 <= j < |pre|
    ensures !OccursAt(pre + Href + rest, Href, j)
  {
    var s := pre + Href + rest;
    var w := s[j..j + |Href|];
    if j + 5 < |pre| {
      assert w[5] == s[j + 5] == pre[j + 5] != Href[5];
    } else {
      assert w[5] == s[j + 5] == Href[j + 5 - |pre|] != Href[5];
    }
  }

  /** The link text of a tag: plain when the model name and the tag are. */
  lemma PlainLinkText(name: string, tag: string)
    requires Plain(name) && Plain(tag)
    ensures Plain(TagPrefix(name) + tag)
  {
    assert Plain("/library/");
    PlainConcat("/library/", name);
    assert Plain(":");
    PlainConcat("/library/" + name, ":");
    PlainConcat(TagPrefix(name), tag);
  }

  /** After plain text, the first `href="` of a line is the one that follows that text. */
  lemma SplitAfterPlain(pre: string, rest: string)
    requires Plain(pre)
    ensures Split(pre + Href + rest, Href) == [pre] + Split(rest, Href)
  {
    var line := pre + Href + rest;
    assert line[|pre|..|pre| + |Href|] == Href;
    forall j | 0 <= j < |pre|
      ensures !OccursAt(line, Href, j)
    {
      NoHrefInPlain(pre, rest, j);
    }
    FirstPiece(line, Href, |pre|);
    assert line[..|pre|] == pre && line[|pre| + |Href|..] == rest;
  }

  /** The first `href="`-piece of `u + "\"" + post`, cut at its first quote, is `u` when `u` is plain and non-empty. */
  lemma LinkTextOfRest(u: string, post: string)
    requires Plain(u) && |u| > 0
    ensures Split(Split(u + Quote + post, Href)[0], Quote)[0] == u
  {
    var rest := u + Quote + post;
    match IndexOf(rest, Href)
    case None =>
      assert Split(rest, Href)[0] == rest;
      BeforeQuote(u, post);
    case Some(idx) =>
      if idx <= |u| {
        NoHrefBefore(u, post, idx);
      }
      assert Split(rest, Href)[0] == rest[..idx];
      assert rest[..idx] == u + Quote + rest[|u| + 1..idx];
      BeforeQuote(u, rest[|u| + 1..idx]);
  }

  /**
   * A line of the tags page that links to `/library/<name>:<tag>` after
   * plain text yields exactly `<tag>`, whatever follows the link.
   */
  lemma {:induction false} TagLineYieldsTag(pre: string, name: string, tag: string, post: string)
    requires Plain(pre) && Plain(name) && Plain(tag)
    ensures var line := pre + Href + TagPrefix(name) + tag + Quote + post;
      Contains(line, TagPattern(name)) && TagItem(line, name) == tag
  {
    var u := TagPrefix(name) + tag;
    PlainLinkText(name, tag);
    var rest := u + Quote + post;
    var line := pre + Href + rest;
    assert line == pre + Href + TagPrefix(name) + tag + Quote + post;
    assert OccursAt(line, TagPattern(name), |pre|) by {
      assert line[|pre|..|pre| + |TagPattern(name)|] == TagPattern(name);
    }
    SplitAfterPlain(pre, rest);
    LinkTextOfRest(u, post);
    assert TrimPrefix(u, TagPrefix(name)) == tag;
  }
}
