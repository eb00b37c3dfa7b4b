/**
 * What the extractor's output means: the text and attribute rules, the
 * invisibility of scripts, the nodes directly under `html` and `head`, and
 * the single parent of every node.
 */
module ExtractorProps {
  import opened Wrappers
  import opened Dom
  import opened GraphData
  import opened Extractor

  /** The ids of the nodes linked from `p`, in link order. */
  function ChildIds(links: seq<Link>, p: nat): seq<nat> {
    if links == [] then []
    else
      var last := links[|links| - 1];
      ChildIds(links[..|links| - 1], p) + (if last.source == p then [last.target] else [])
  }

  lemma {:induction false} ChildIdsAppend(a: seq<Link>, b: seq<Link>, p: nat)
    ensures ChildIds(a + b, p) == ChildIds(a, p) + ChildIds(b, p)
    decreases |b|
  {
    if b == [] {
      assert a + b == a;
    } else {
      assert (a + b)[..|a + b| - 1] == a + b[..|b| - 1];
      ChildIdsAppend(a, b[..|b| - 1], p);
    }
  }

  lemma {:induction false} ChildIdsNone(links: seq<Link>, p: nat)
    requires forall k :: 0 <= k < |links| ==> links[k].source != p
    ensures ChildIds(links, p) == []
  {
    if links != [] {
      ChildIdsNone(links[..|links| - 1], p);
    }
  }

  /** A fragment added under `parent` from id `next` on has no link from a
      node below `next` other than `parent`. */
  lemma {:induction false} FragmentNoOtherParent(g: Graph, parent: nat, next: nat, p: nat)
    requires Fragment(g, parent, next) && p != parent && p < next
    ensures ChildIds(g.links, p) == []
  {
    ChildIdsNone(g.links, p);
  }

  // ---------------------------------------------------------------------
  // Text nodes

  /** A whitespace-only text node adds nothing; any other adds one `text`
      node, linked from the parent, whose label is the text between the
      leading and the trailing whitespace in double quotes, cut after 15
      characters with an ellipsis. */
  lemma {:induction false} TextNodeRule(s: string, parent: nat, f: Filter, next: nat)
    ensures AllSpace(s) <==> Walk(Text(s), parent, f, next) == Empty
    ensures !AllSpace(s) ==>
      var g := Walk(Text(s), parent, f, next);
      var i := LeadingSpace(s);
      var m := |Trim(s)|;
      && 0 < m && i + m <= |s|
      && !IsSpace(s[i]) && !IsSpace(s[i + m - 1])
      && (forall k :: 0 <= k < |s| && !(i <= k < i + m) ==> IsSpace(s[k]))
      && g.links == [Link(parent, next)]
      && |g.nodes| == 1 && g.nodes[0].id == next && g.nodes[0].kind == TextType
      && (m <= MaxLabelText ==> g.nodes[0].name == "\"" + s[i..i + m] + "\"")
      && (m > MaxLabelText ==> g.nodes[0].name == "\"" + s[i..i + MaxLabelText] + "...\"")
  {
    TrimSpec(s);
    var t := Trim(s);
    var i := LeadingSpace(s);
    if |t| > MaxLabelText {
      assert t[..MaxLabelText] == s[i..i + MaxLabelText];
    }
  }

  // ---------------------------------------------------------------------
  // Attributes

  /** The attributes `traverse` shows, in order. */
  function Kept(attrs: seq<Attr>, f: Filter): (r: seq<Attr>)
    ensures |r| <= |attrs|
  {
    if attrs == [] then []
    else
      var last := attrs[|attrs| - 1];
      Kept(attrs[..|attrs| - 1], f) + (if DropsAttribute(f, last) then [] else [last])
  }

  /** `Kept` keeps exactly the attributes the filter does not drop. */
  lemma {:induction false} KeptMembers(attrs: seq<Attr>, f: Filter)
    ensures forall a :: a in Kept(attrs, f) <==> a in attrs && !DropsAttribute(f, a)
  {
    if attrs != [] {
      var init, last := attrs[..|attrs| - 1], attrs[|attrs| - 1];
      KeptMembers(init, f);
      assert attrs == init + [last];
      assert Kept(attrs, f) == Kept(init, f) + (if DropsAttribute(f, last) then [] else [last]);
    }
  }

  /** The clean extractor never shows a dark-reader attribute and keeps every
      other one; the raw extractor shows every attribute. */
  lemma {:induction false} DarkReaderFilter(attrs: seq<Attr>, f: Filter)
    requires f.dropDarkReader
    ensures forall a :: a in Kept(attrs, f) <==> a in attrs && a.name !in DarkReaderAttributes
    ensures Kept(attrs, RawFilter) == attrs
  {
    KeptMembers(attrs, f);
    KeptAll(attrs, RawFilter);
  }

  lemma {:induction false} KeptAll(attrs: seq<Attr>, f: Filter)
    requires !f.dropDarkReader
    ensures Kept(attrs, f) == attrs
  {
    if attrs != [] {
      KeptAll(attrs[..|attrs| - 1], f);
      assert attrs[..|attrs| - 1] + [attrs[|attrs| - 1]] == attrs;
    }
  }

  /** The attribute nodes of an element: one per kept attribute, in order,
      labelled `name="value"`, with ids from `next` on, each linked from the
      element. */
  lemma {:induction false} AttrNodesLabels(attrs: seq<Attr>, element: nat, f: Filter, next: nat)
    ensures var g := AttrNodes(attrs, element, f, next); var kept := Kept(attrs, f);
      && |g.nodes| == |kept| && |g.links| == |kept|
      && forall k :: 0 <= k < |kept| ==>
           g.nodes[k] == GraphNode(next + k, AttrLabel(kept[k]), AttributeType)
           && g.links[k] == Link(element, next + k)
  {
    if attrs != [] {
      AttrNodesLabels(attrs[..|attrs| - 1], element, f, next);
    }
  }

  /** Filtering the attributes first and then walking without the filter
      gives the same attribute nodes. */
  lemma {:induction false} AttrNodesKept(attrs: seq<Attr>, element: nat, f: Filter, next: nat)
    ensures AttrNodes(attrs, element, f, next) == AttrNodes(Kept(attrs, f), element, RawFilter, next)
  {
    AttrNodesLabels(attrs, element, f, next);
    AttrNodesLabels(Kept(attrs, f), element, RawFilter, next);
    KeptAll(Kept(attrs, f), RawFilter);
  }

  // ---------------------------------------------------------------------
  // Scripts

  predicate IsScript(n: Node) {
    n.Element? && ToLower(n.nodeName) == "script"
  }

  /** `n` with every `script` element below it removed. */
  function StripScripts(n: Node): Node
    decreases n, 1
  {
    match n
    case Element(name, attrs, children) => Element(name, attrs, StripAllScripts(children))
    case _ => n
  }

  function StripAllScripts(cs: seq<Node>): seq<Node>
    decreases cs, 0
  {
    if cs == [] then []
    else
      var last := cs[|cs| - 1];
      StripAllScripts(cs[..|cs| - 1]) + (if IsScript(last) then [] else [StripScripts(last)])
  }

  /** Walking `cs + [n]` is walking `cs` and then `n`. */
  lemma {:induction false} WalkAllSnocSeq(cs: seq<Node>, n: Node, parent: nat, f: Filter, next: nat)
    ensures var prev := WalkAll(cs, parent, f, next);
      WalkAll(cs + [n], parent, f, next) == Append(prev, Walk(n, parent, f, next + |prev.nodes|))
  {
    var s := cs + [n];
    WalkAllSnoc(s, |cs|, parent, f, next);
    assert s[..|cs|] == cs && s[..|cs| + 1] == s;
  }

  /** Outside `head`, a `script` element contributes nothing for its whole
      subtree: removing every script changes no node and no link. (Inside
      `head` a script inside a `title` counts towards the title's text.) */
  lemma {:induction false} ScriptsInvisible(n: Node, parent: nat, f: Filter, next: nat)
    requires !f.inHead
    ensures Walk(StripScripts(n), parent, f, next) == Walk(n, parent, f, next)
    decreases n, 2
  {
    if n.Element? && ToLower(n.nodeName) != "script" {
      var a := AttrNodes(n.attributes, next, f, next + 1);
      AllScriptsInvisible(n.childNodes, next, f, next + 1 + |a.nodes|);
      var m := StripScripts(n);
      assert m == Element(n.nodeName, n.attributes, StripAllScripts(n.childNodes));
      WalkElement(n, parent, f, next);
      WalkElement(m, parent, f, next);
    }
  }

  lemma {:induction false} AllScriptsInvisible(cs: seq<Node>, parent: nat, f: Filter, next: nat)
    requires !f.inHead
    ensures WalkAll(StripAllScripts(cs), parent, f, next) == WalkAll(cs, parent, f, next)
    decreases cs, 2
  {
    if cs != [] {
      if IsScript(cs[|cs| - 1]) {
        AllScriptsInvisible(cs[..|cs| - 1], parent, f, next);
        LastScriptInvisible(cs, parent, f, next);
      } else {
        StrippedStep(cs, parent, f, next);
      }
    }
  }

  /** Stripping the scripts out of `cs`, whose last node is not a script,
      changes nothing. */
  lemma {:induction false} StrippedStep(cs: seq<Node>, parent: nat, f: Filter, next: nat)
    requires !f.inHead && cs != [] && !IsScript(cs[|cs| - 1])
    ensures WalkAll(StripAllScripts(cs), parent, f, next) == WalkAll(cs, parent, f, next)
    decreases cs, 1
  {
    AllScriptsInvisible(cs[..|cs| - 1], parent, f, next);
    WalkStrippedLast(cs, parent, f, next);
    StrippedLastInvisible(cs, parent, f, next);
  }

  /** The walk of `cs` is that of its prefix followed by the walk of its
      stripped last node. */
  lemma {:induction false} StrippedLastInvisible(cs: seq<Node>, parent: nat, f: Filter, next: nat)
    requires !f.inHead && cs != []
    ensures var prev := WalkAll(cs[..|cs| - 1], parent, f, next);
      Append(prev, Walk(StripScripts(cs[|cs| - 1]), parent, f, next + |prev.nodes|)) == WalkAll(cs, parent, f, next)
    decreases cs, 0
  {
    var prev := WalkAll(cs[..|cs| - 1], parent, f, next);
    ScriptsInvisible(cs[|cs| - 1], parent, f, next + |prev.nodes|);
    WalkAllLast(cs, parent, f, next);
  }

  /** Walking `cs` walks its prefix, then its last node. */
  lemma {:induction false} WalkAllLast(cs: seq<Node>, parent: nat, f: Filter, next: nat)
    requires cs != []
    ensures var prev := WalkAll(cs[..|cs| - 1], parent, f, next);
      WalkAll(cs, parent, f, next) == Append(prev, Walk(cs[|cs| - 1], parent, f, next + |prev.nodes|))
  {
    WalkAllSnoc(cs, |cs| - 1, parent, f, next);
    assert cs[..|cs|] == cs;
  }

  /** A `script` last child adds nothing. */
  lemma {:induction false} LastScriptInvisible(cs: seq<Node>, parent: nat, f: Filter, next: nat)
    requires cs != [] && IsScript(cs[|cs| - 1])
    ensures StripAllScripts(cs) == StripAllScripts(cs[..|cs| - 1])
    ensures WalkAll(cs, parent, f, next) == WalkAll(cs[..|cs| - 1], parent, f, next)
  {
    assert StripAllScripts(cs) == StripAllScripts(cs[..|cs| - 1]) + [];
  }

  /** When stripping changes nothing for the prefix of `cs`, walking the
      stripped copy of `cs` walks that prefix, then the stripped copy of its
      last node, when that is not a script. */
  lemma {:induction false} WalkStrippedLast(cs: seq<Node>, parent: nat, f: Filter, next: nat)
    requires cs != [] && !IsScript(cs[|cs| - 1])
    requires WalkAll(StripAllScripts(cs[..|cs| - 1]), parent, f, next) == WalkAll(cs[..|cs| - 1], parent, f, next)
    ensures var prev := WalkAll(cs[..|cs| - 1], parent, f, next);
      WalkAll(StripAllScripts(cs), parent, f, next)
        == Append(prev, Walk(StripScripts(cs[|cs| - 1]), parent, f, next + |prev.nodes|))
  {
    var init, last := cs[..|cs| - 1], cs[|cs| - 1];
    var stripped := StripAllScripts(cs);
    assert stripped == StripAllScripts(init) + [StripScripts(last)];
    assert stripped[..|stripped| - 1] == StripAllScripts(init) && stripped[|stripped| - 1] == StripScripts(last);
  }

  // ---------------------------------------------------------------------
  // The nodes under `html` and `head`

  /** A child node of `head` that adds nothing to the graph. */
  predicate AddsNothingInHead(n: Node) {
    match n
    case Text(s) => AllSpace(s)
    case Other(name, data) => SkippedInHead(ToLower(name), data)
    case Element(name, _, _) => ToLower(name) == "script" || SkippedInHead(ToLower(name), TextContent(n))
  }

  lemma {:induction false} HeadSkipsAll(cs: seq<Node>, parent: nat, next: nat)
    requires forall k :: 0 <= k < |cs| ==> AddsNothingInHead(cs[k])
    ensures WalkAll(cs, parent, HeadFilter, next) == Empty
  {
    if cs != [] {
      HeadSkipsAll(cs[..|cs| - 1], parent, next);
      var last := cs[|cs| - 1];
      if last.Text? {
        TrimSpec(last.content);
      }
    }
  }

  /** A `head` or `body` section links its own node from `html` and
      nothing from any node before it. */
  lemma {:induction false} SectionChildIds(name: string, children: seq<Node>, id: nat, f: Filter, p: nat)
    requires 1 < id && p < id
    ensures ChildIds(Section(name, children, id, f).links, p) == if p == 1 then [id] else []
  {
    var w := WalkAll(children, id, f, id + 1);
    WalkAllFragment(children, id, f, id + 1);
    FragmentNoOtherParent(w, id, id + 1, p);
    ChildIdsAppend([Link(1, id)], w.links, p);
    ChildIdsAppend([], [Link(1, id)], p);
  }

  /** Up to the head, `html` has the `head` node as its one child when the
      head is shown, and none otherwise. */
  lemma {:induction false} HeadChildIds(doc: Document)
    ensures var h := UpToHead(doc);
      && |h.nodes| >= 2
      && ChildIds(h.links, 1) == (if ShowsHead(doc) then [2] else [])
      && (ShowsHead(doc) ==> h.nodes[2] == GraphNode(2, "head", ElementType))
  {
    ChildIdsAppend([], [Link(0, 1)], 1);
    assert [] + [Link(0, 1)] == Roots.links;
    assert ChildIds(Roots.links, 1) == [];
    if ShowsHead(doc) {
      var s := Section("head", doc.head.value, 2, HeadFilter);
      SectionChildIds("head", doc.head.value, 2, HeadFilter, 1);
      ChildIdsAppend(Roots.links, s.links, 1);
      assert UpToHead(doc) == Append(Roots, s);
    }
  }

  /** `html` has exactly the `head` node (id 2) when the head has an element
      child, and then the `body` node whenever there is a body, in that
      order; no other node hangs from `html`. */
  lemma {:induction false} HtmlChildren(doc: Document)
    ensures var g := CleanGraph(doc); var h := UpToHead(doc);
      && ChildIds(g.links, 1) == (if ShowsHead(doc) then [2] else []) + (if doc.body.Some? then [|h.nodes|] else [])
      && (ShowsHead(doc) ==> g.nodes[2] == GraphNode(2, "head", ElementType))
      && (doc.body.Some? ==> |h.nodes| < |g.nodes| && g.nodes[|h.nodes|] == GraphNode(|h.nodes|, "body", ElementType))
  {
    var h := UpToHead(doc);
    HeadChildIds(doc);
    if doc.body.Some? {
      var s := Section("body", doc.body.value, |h.nodes|, BodyFilter);
      SectionChildIds("body", doc.body.value, |h.nodes|, BodyFilter, 1);
      ChildIdsAppend(h.links, s.links, 1);
      assert CleanGraph(doc) == Append(h, s);
      assert s.nodes[0] == GraphNode(|h.nodes|, "body", ElementType);
    } else {
      assert CleanGraph(doc) == h;
    }
  }

  /** A head whose element children are all skipped (a `meta`-only head,
      say) still gets its `head` node, with nothing under it. */
  lemma {:induction false} EmptyHeadNode(doc: Document)
    requires ShowsHead(doc)
    requires forall k :: 0 <= k < |doc.head.value| ==> AddsNothingInHead(doc.head.value[k])
    ensures var g := CleanGraph(doc);
      g.nodes[2] == GraphNode(2, "head", ElementType) && ChildIds(g.links, 2) == []
  {
    HtmlChildren(doc);
    HeadSkipsAll(doc.head.value, 2, 3);
    var h := UpToHead(doc);
    assert h.links == [Link(0, 1), Link(1, 2)];
    ChildIdsNone(h.links, 2);
    if doc.body.Some? {
      SectionChildIds("body", doc.body.value, |h.nodes|, BodyFilter, 2);
      ChildIdsAppend(h.links, Section("body", doc.body.value, |h.nodes|, BodyFilter).links, 2);
    }
  }

  /** Every node but `Document` has exactly one incoming link, and every
      link points from an earlier node to a later one. */
  lemma {:induction false} SingleParent(g: Graph)
    requires TreeShaped(g)
    ensures forall k :: 0 <= k < |g.links| ==> g.links[k].source < g.links[k].target < |g.nodes|
    ensures forall i, j :: 0 <= i < j < |g.links| ==> g.links[i].target != g.links[j].target
    ensures |g.links| == |g.nodes| - 1
  {
  }
}
