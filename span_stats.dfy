/**
 * The span-text loop of the older catalog scraper (`extractModels` in
 * internal/tui/manager.go): inside a description-less paragraph of a model's
 * card, the texts of the `span` children fill in the pull count, the tag count
 * and the update date, in that order; a fourth text marks the card as done.
 */
module SpanStats {
  import opened HtmlSearch
  import opened Whitespace

  /** The three statistics and the flag that stops the scan. */
  datatype Stats = Stats(pulls: string, tags: string, updated: string, found: bool)

  const NoStats := Stats("", "", "", false)

  /** Texts the loop passes over: empty ones and the tag names of nested `span` and `svg` elements. */
  predicate Skipped(text: string)
  {
    text == "" || text == "span" || text == "svg"
  }

  /** The trimmed texts of a span's children that the loop uses, in order. */
  function Kept(contents: seq<Node>): seq<string>
  {
    if contents == [] then []
    else
      var t := TrimSpace(contents[0].data);
      (if Skipped(t) then [] else [t]) + Kept(contents[1..])
  }

  /** The kept texts of all `span` element children, in sibling order. */
  function KeptInSpans(children: seq<Node>): seq<string>
  {
    if children == [] then []
    else (if IsTag(children[0], "span") then Kept(children[0].children) else []) + KeptInSpans(children[1..])
  }

  /** One kept text: it fills the first empty statistic, or sets `found` when all three are filled. */
  function Absorb(st: Stats, text: string): Stats
  {
    if st.pulls == "" then st.(pulls := text)
    else if st.tags == "" then st.(tags := text)
    else if st.updated == "" then st.(updated := text)
    else st.(found := true)
  }

  /** The texts absorbed one by one until `found` is set. */
  function Fill(st: Stats, texts: seq<string>): Stats
    decreases texts
  {
    if texts == [] || st.found then st else Fill(Absorb(st, texts[0]), texts[1..])
  }

  /** No kept text is one the loop passes over. */
  lemma {:induction false} KeptUsable(contents: seq<Node>)
    ensures forall k :: 0 <= k < |Kept(contents)| ==> !Skipped(Kept(contents)[k])
  {
    if contents != [] {
      KeptUsable(contents[1..]);
    }
  }

  lemma {:induction false} KeptInSpansUsable(children: seq<Node>)
    ensures forall k :: 0 <= k < |KeptInSpans(children)| ==> !Skipped(KeptInSpans(children)[k])
  {
    if children != [] {
      KeptUsable(children[0].children);
      KeptInSpansUsable(children[1..]);
    }
  }

  /** Absorbing two runs of texts is absorbing their concatenation. */
  lemma {:induction false} FillAppend(st: Stats, a: seq<string>, b: seq<string>)
    ensures Fill(st, a + b) == Fill(Fill(st, a), b)
    decreases |a|
  {
    if a == [] {
      assert a + b == b;
    } else if !st.found {
      assert (a + b)[0] == a[0] && (a + b)[1..] == a[1..] + b;
      FillAppend(Absorb(st, a[0]), a[1..], b);
    }
  }

  /** The element of `texts` at `k`, or "" when there is none. */
  function At(texts: seq<string>, k: nat): string
  {
    if k < |texts| then texts[k] else ""
  }

  /**
   * From empty statistics, the first three usable texts become the pull
   * count, the tag count and the update date, and `found` is set exactly when
   * a fourth one exists.
   */
  lemma {:induction false} FillFromEmpty(texts: seq<string>)
    requires forall k :: 0 <= k < |texts| ==> !Skipped(texts[k])
    ensures Fill(NoStats, texts) == Stats(At(texts, 0), At(texts, 1), At(texts, 2), |texts| >= 4)
  {
    if |texts| >= 1 {
      var s1 := Absorb(NoStats, texts[0]);
      var t1 := texts[1..];
      assert Fill(NoStats, texts) == Fill(s1, t1);
      if |t1| >= 1 {
        assert t1[0] == texts[1];
        var s2 := Absorb(s1, t1[0]);
        var t2 := t1[1..];
        assert Fill(s1, t1) == Fill(s2, t2);
        if |t2| >= 1 {
          assert t2[0] == texts[2];
          var s3 := Absorb(s2, t2[0]);
          var t3 := t2[1..];
          assert Fill(s2, t2) == Fill(s3, t3);
          assert s3 == Stats(texts[0], texts[1], texts[2], false);
          if |t3| >= 1 {
            var s4 := Absorb(s3, t3[0]);
            assert Fill(s3, t3) == Fill(s4, t3[1..]) == s4;
          }
        }
      }
    }
  }

  /**
   * For a card whose statistics start empty: the first three usable span
   * texts of the paragraph are its pulls, tags and update date, and the card
   * is done exactly when a fourth exists.
   */
  lemma ParagraphStats(children: seq<Node>)
    ensures var texts := KeptInSpans(children);
      Fill(NoStats, texts) == Stats(At(texts, 0), At(texts, 1), At(texts, 2), |texts| >= 4)
  {
    KeptInSpansUsable(children);
    FillFromEmpty(KeptInSpans(children));
  }

  lemma AbsorbStep(st: Stats, text: string, rest: seq<string>)
    requires !st.found
    ensures Fill(st, [text] + rest) == Fill(Absorb(st, text), rest)
  {
    assert ([text] + rest)[0] == text && ([text] + rest)[1..] == rest;
  }

  /** The inner loop over the children of one `span`, continuing from `st0` (the outer loop stops once `found` is set). */
  method ScanSpan(contents: seq<Node>, st0: Stats) returns (st: Stats)
    requires !st0.found
    ensures st == Fill(st0, Kept(contents))
  {
    st := st0;
    var j := 0;
    while j < |contents|
      invariant 0 <= j <= |contents| && !st.found
      invariant Fill(st, Kept(contents[j..])) == Fill(st0, Kept(contents))
    {
      var text := TrimSpace(contents[j].data);
      assert contents[j..][1..] == contents[j + 1..];
      ghost var rest := Kept(contents[j + 1..]);
      if !Skipped(text) {
        assert Kept(contents[j..]) == [text] + rest;
        AbsorbStep(st, text, rest);
        if st.pulls == "" {
          st := st.(pulls := text);
        } else if st.tags == "" {
          st := st.(tags := text);
        } else if st.updated == "" {
          st := st.(updated := text);
        } else {
          st := st.(found := true);
          break;
        }
      } else {
        assert Kept(contents[j..]) == rest;
      }
      j := j + 1;
    }
    if !st.found {
      assert contents[j..] == [];
    }
  }

  /** The span loop over the children of one paragraph, continuing from `init` (earlier paragraphs of the card). */
  method ScanSpans(children: seq<Node>, init: Stats) returns (st: Stats)
    ensures st == Fill(init, KeptInSpans(children))
  {
    st := init;
    var i := 0;
    while i < |children|
      invariant 0 <= i <= |children|
      invariant Fill(st, KeptInSpans(children[i..])) == Fill(init, KeptInSpans(children))
    {
      if st.found {
        break;
      }
      var span := children[i];
      assert children[i..][1..] == children[i + 1..];
      if span.kind == ElementNode && span.data == "span" {
        assert KeptInSpans(children[i..]) == Kept(span.children) + KeptInSpans(children[i + 1..]);
        FillAppend(st, Kept(span.children), KeptInSpans(children[i + 1..]));
        st := ScanSpan(span.children, st);
      } else {
        assert KeptInSpans(children[i..]) == KeptInSpans(children[i + 1..]);
      }
      i := i + 1;
    }
  }
}
