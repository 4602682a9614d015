/**
 * The child searches of the catalog scraper (internal/tui/get_models.go):
 * each walks the sibling list of a parsed HTML node looking for element
 * children with a given tag name. A node's children are a sequence here, and a
 * found child (a pointer in Go) is its index in that sequence; `None` is nil.
 */
module HtmlSearch {
  import opened Wrappers

  datatype NodeType = ElementNode | TextNode | OtherNode

  /** A parsed HTML node: its type, its data (tag name or text) and its children in sibling order. */
  datatype Node = Node(kind: NodeType, data: string, children: seq<Node>)

  /** The test every search applies to a child: an element whose tag name is `tag`. */
  predicate IsTag(c: Node, tag: string)
  {
    c.kind == ElementNode && c.data == tag
  }

  /** Indices of the matching children from index `i` on, in sibling order. */
  function MatchesFrom(cs: seq<Node>, tag: string, i: nat): (r: seq<nat>)
    requires i <= |cs|
    decreases |cs| - i
  {
    if i == |cs| then [] else (if IsTag(cs[i], tag) then [i] else []) + MatchesFrom(cs, tag, i + 1)
  }

  /** Indices of all matching children, in sibling order: the reference every search is held to. */
  function Matches(cs: seq<Node>, tag: string): (r: seq<nat>)
    ensures forall k :: 0 <= k < |r| ==> r[k] < |cs| && IsTag(cs[r[k]], tag)
  {
    var r := MatchesFrom(cs, tag, 0);
    MatchesFromExact(cs, tag, 0);
    assert forall k :: 0 <= k < |r| ==> r[k] in r;
    r
  }

  /** `MatchesFrom` holds exactly the matching indices from `i` on, strictly increasing. */
  lemma {:induction false} MatchesFromExact(cs: seq<Node>, tag: string, i: nat)
    requires i <= |cs|
    ensures forall k :: k in MatchesFrom(cs, tag, i) <==> i <= k < |cs| && IsTag(cs[k], tag)
    ensures forall p, q :: 0 <= p < q < |MatchesFrom(cs, tag, i)| ==>
      MatchesFrom(cs, tag, i)[p] < MatchesFrom(cs, tag, i)[q]
    decreases |cs| - i
  {
    if i < |cs| {
      MatchesFromExact(cs, tag, i + 1);
      var m := MatchesFrom(cs, tag, i);
      var rest := MatchesFrom(cs, tag, i + 1);
      forall p, q | 0 <= p < q < |m| ensures m[p] < m[q] {
        if IsTag(cs[i], tag) && p == 0 {
          assert m[q] == rest[q - 1] && m[q] in rest;
        }
      }
    }
  }

  lemma MatchesExact(cs: seq<Node>, tag: string)
    ensures forall k :: k in Matches(cs, tag) <==> 0 <= k < |cs| && IsTag(cs[k], tag)
    ensures forall p, q :: 0 <= p < q < |Matches(cs, tag)| ==> Matches(cs, tag)[p] < Matches(cs, tag)[q]
  {
    MatchesFromExact(cs, tag, 0);
  }

  /** A matching child with no matching child after it is the last element of `Matches`. */
  lemma MatchesLast(cs: seq<Node>, tag: string, k: nat)
    requires k < |cs| && IsTag(cs[k], tag)
    requires forall j :: k < j < |cs| ==> !IsTag(cs[j], tag)
    ensures Matches(cs, tag) != [] && Matches(cs, tag)[|Matches(cs, tag)| - 1] == k
  {
    MatchesExact(cs, tag);
    var m := Matches(cs, tag);
    assert k in m;
    var last := m[|m| - 1];
    assert last in m;
    var p :| 0 <= p < |m| && m[p] == k;
    assert p == |m| - 1 || m[p] < last;
  }

  /** `findFirstNodeByTag`: the first matching child, or nil. */
  method FindFirstNodeByTag(node: Node, tag: string) returns (r: Option<nat>)
    ensures r.Some? ==> r.value < |node.children| && IsTag(node.children[r.value], tag)
    ensures r.Some? ==> forall j :: 0 <= j < r.value ==> !IsTag(node.children[j], tag)
    ensures r.None? ==> forall j :: 0 <= j < |node.children| ==> !IsTag(node.children[j], tag)
    ensures r == if Matches(node.children, tag) == [] then None else Some(Matches(node.children, tag)[0])
  {
    var cs := node.children;
    var i := 0;
    while i < |cs|
      invariant 0 <= i <= |cs|
      invariant forall j :: 0 <= j < i ==> !IsTag(cs[j], tag)
      invariant Matches(cs, tag) == MatchesFrom(cs, tag, i)
    {
      if IsTag(cs[i], tag) {
        return Some(i);
      }
      i := i + 1;
    }
    return None;
  }

  /** One step of `MatchesFrom`. */
  lemma MatchesFromStep(cs: seq<Node>, tag: string, i: nat)
    requires i < |cs|
    ensures MatchesFrom(cs, tag, i) == (if IsTag(cs[i], tag) then [i] else []) + MatchesFrom(cs, tag, i + 1)
  {
  }

  /** The match at position `|before|` is the `n`-th when `n == |before|`. */
  lemma NthFound(all: seq<nat>, before: seq<nat>, n: int, i: nat)
    requires n == |before| < |all| && all[|before|] == i
    ensures (if 0 <= n < |all| then Some(all[n]) else None) == Some(i)
  {
  }

  /** Moving the next match from the pending part to the found part of the matches. */
  lemma PushMatch(before: seq<nat>, i: nat, rest: seq<nat>, all: seq<nat>)
    requires before + ([i] + rest) == all
    ensures (before + [i]) + rest == all && |before| < |all| && all[|before|] == i
  {
    assert (before + [i]) + rest == before + ([i] + rest);
  }

  /** `findNthNodeByTag`: the `n`-th (from 0) matching child; nil when `n` is negative or there are at most `n` matches. */
  method FindNthNodeByTag(node: Node, tag: string, n: int) returns (r: Option<nat>)
    ensures r == if 0 <= n < |Matches(node.children, tag)| then Some(Matches(node.children, tag)[n]) else None
  {
    var cs := node.children;
    var k := n;
    var i := 0;
    ghost var before: seq<nat> := [];
    while i < |cs|
      invariant 0 <= i <= |cs|
      invariant before + MatchesFrom(cs, tag, i) == Matches(cs, tag)
      invariant k == n - |before|
      invariant n >= 0 ==> k >= 0
    {
      MatchesFromStep(cs, tag, i);
      if IsTag(cs[i], tag) {
        PushMatch(before, i, MatchesFrom(cs, tag, i + 1), Matches(cs, tag));
        if k == 0 {
          NthFound(Matches(cs, tag), before, n, i);
          return Some(i);
        }
        k := k - 1;
        before := before + [i];
      }
      i := i + 1;
    }
    assert before + [] == Matches(cs, tag);
    return None;
  }

  /** `findLastNodeByTag`: the last matching child, found by walking back from the last child. */
  method FindLastNodeByTag(node: Node, tag: string) returns (r: Option<nat>)
    ensures r.Some? ==> r.value < |node.children| && IsTag(node.children[r.value], tag)
    ensures r.Some? ==> forall j :: r.value < j < |node.children| ==> !IsTag(node.children[j], tag)
    ensures r == if Matches(node.children, tag) == [] then None
                 else Some(Matches(node.children, tag)[|Matches(node.children, tag)| - 1])
  {
    var cs := node.children;
    var i := |cs|;
    while i > 0
      invariant 0 <= i <= |cs|
      invariant forall j :: i <= j < |cs| ==> !IsTag(cs[j], tag)
    {
      if IsTag(cs[i - 1], tag) {
        MatchesLast(cs, tag, i - 1);
        return Some(i - 1);
      }
      i := i - 1;
    }
    MatchesExact(cs, tag);
    return None;
  }

  /** `findAllNodesByTag`: every matching child, in sibling order. */
  method FindAllNodesByTag(node: Node, tag: string) returns (nodes: seq<nat>)
    ensures nodes == Matches(node.children, tag)
  {
    var cs := node.children;
    nodes := [];
    var i := 0;
    while i < |cs|
      invariant 0 <= i <= |cs|
      invariant nodes + MatchesFrom(cs, tag, i) == Matches(cs, tag)
    {
      if IsTag(cs[i], tag) {
        nodes := nodes + [i];
      }
      i := i + 1;
    }
  }

  /**
   * The four searches agree with each other on every node: the first match is
   * the 0-th, the last match closes the list of all matches, and there is a
   * first match exactly when the list of all matches is non-empty.
   */
  method SearchesAgree(node: Node, tag: string)
    returns (first: Option<nat>, nth0: Option<nat>, last: Option<nat>, all: seq<nat>)
    ensures first == nth0
    ensures first.None? <==> all == []
    ensures last.None? <==> all == []
    ensures all != [] ==> last == Some(all[|all| - 1]) && first == Some(all[0])
    ensures forall k :: k in all <==> 0 <= k < |node.children| && IsTag(node.children[k], tag)
  {
    first := FindFirstNodeByTag(node, tag);
    nth0 := FindNthNodeByTag(node, tag, 0);
    last := FindLastNodeByTag(node, tag);
    all := FindAllNodesByTag(node, tag);
    MatchesExact(node.children, tag);
  }

  /**
   * `getExtraInfo`: one badge per `span` element child, holding the text of the
   * span's first child padded by a space on each side (the badge styling is not
   * modelled). A span without children would be a nil dereference in Go.
   */
  method GetExtraInfo(node: Node) returns (infoTags: seq<string>)
    requires forall k :: 0 <= k < |node.children| && IsTag(node.children[k], "span") ==>
      |node.children[k].children| > 0
    ensures |infoTags| == |Matches(node.children, "span")|
    ensures forall k :: 0 <= k < |infoTags| ==>
      infoTags[k] == " " + node.children[Matches(node.children, "span")[k]].children[0].data + " "
  {
    var spans := FindAllNodesByTag(node, "span");
    MatchesExact(node.children, "span");
    infoTags := [];
    var i := 0;
    while i < |spans|
      invariant 0 <= i <= |spans|
      invariant |infoTags| == i
      invariant forall k :: 0 <= k < i ==> infoTags[k] == " " + node.children[spans[k]].children[0].data + " "
    {
      assert spans[i] in spans;
      infoTags := infoTags + [" " + node.children[spans[i]].children[0].data + " "];
      i := i + 1;
    }
  }
}
