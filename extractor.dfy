/**
 * The graph extractor: `createCleanDOMGraphData` and `createDOMGraphData`
 * (the same code appears in `assets/js/dom-visualizer.js` and in the older
 * `app.js`). The functions `Walk`, `WalkAll` and `AttrNodes` say what the
 * recursive `traverse` closure appends to the shared `nodes` and `links`
 * arrays; the methods do it the way the source does, with one counter
 * threaded through the walk, and are proved to produce exactly that.
 */
module Extractor {
  import opened Wrappers
  import opened Dom
  import opened GraphData

  /** The traversal mode: `inHead` is the `isHead` argument of `traverse`;
      `dropDarkReader` is on in the clean extractor and off in
      `createDOMGraphData`. */
  datatype Filter = Filter(inHead: bool, dropDarkReader: bool)

  const HeadFilter: Filter := Filter(true, true)
  const BodyFilter: Filter := Filter(false, true)
  const RawFilter: Filter := Filter(false, false)

  /** Attributes a dark-mode browser extension injects; the clean extractor
      never shows them. */
  const DarkReaderAttributes: set<string> := {"data-darkreader-mode", "data-darkreader-scheme"}

  /** Text labels show at most this many characters of the trimmed text. */
  const MaxLabelText: nat := 15

  /** The label of a text node whose trimmed text is `t`: the text in double
      quotes, cut to 15 characters and followed by an ellipsis when longer. */
  function TextLabel(t: string): string {
    if |t| > MaxLabelText then "\"" + t[..MaxLabelText] + "...\"" else "\"" + t + "\""
  }

  /** The label of an attribute node: `name="value"`. */
  function AttrLabel(a: Attr): string {
    a.name + "=\"" + a.value + "\""
  }

  /** Whether `traverse` leaves attribute `a` out. */
  predicate DropsAttribute(f: Filter, a: Attr) {
    f.dropDarkReader && a.name in DarkReaderAttributes
  }

  /** Whether, inside `head`, a non-text node with lower-cased name `tag` and
      text content `text` is left out: every `meta`, and a `title` whose
      (untrimmed) text content is empty. */
  predicate SkippedInHead(tag: string, text: string) {
    tag == "meta" || (tag == "title" && text == "")
  }

  /** The attribute nodes of the element with id `element`, the first of
      them getting id `next`. */
  function AttrNodes(attrs: seq<Attr>, element: nat, f: Filter, next: nat): Graph
  {
    if attrs == [] then Empty
    else
      var prev := AttrNodes(attrs[..|attrs| - 1], element, f, next);
      var a := attrs[|attrs| - 1];
      if DropsAttribute(f, a) then prev
      else
        var id := next + |prev.nodes|;
        Append(prev, Graph([GraphNode(id, AttrLabel(a), AttributeType)], [Link(element, id)]))
  }

  /** What `traverse(n, parent, isHead)` appends when the counter is at
      `next`. */
  function Walk(n: Node, parent: nat, f: Filter, next: nat): Graph
    decreases n
  {
    match n
    case Text(s) =>
      var text := Trim(s);
      if text == [] then Empty
      else Graph([GraphNode(next, TextLabel(text), TextType)], [Link(parent, next)])
    case Other(name, data) =>
      if f.inHead && SkippedInHead(ToLower(name), data) then Empty
      else Graph([GraphNode(next, ToLower(name), ElementType)], [Link(parent, next)])
    case Element(name, attrs, children) =>
      if ToLower(name) == "script" then Empty
      else if f.inHead && SkippedInHead(ToLower(name), TextContent(n)) then Empty
      else
        var a := AttrNodes(attrs, next, f, next + 1);
        var c := WalkAll(children, next, f, next + 1 + |a.nodes|);
        Append(Graph([GraphNode(next, ToLower(name), ElementType)], [Link(parent, next)]), Append(a, c))
  }

  /** What `traverse` appends for each of the nodes `cs` in turn, all under
      `parent`. */
  function WalkAll(cs: seq<Node>, parent: nat, f: Filter, next: nat): Graph
    decreases cs
  {
    if cs == [] then Empty
    else
      var prev := WalkAll(cs[..|cs| - 1], parent, f, next);
      Append(prev, Walk(cs[|cs| - 1], parent, f, next + |prev.nodes|))
  }

  /** The attribute nodes of an element: ids from `next` on, each linked
      from the element. */
  lemma {:induction false} AttrNodesFragment(attrs: seq<Attr>, element: nat, f: Filter, next: nat)
    ensures var g := AttrNodes(attrs, element, f, next);
      && Fragment(g, element, next)
      && forall k :: 0 <= k < |g.links| ==> g.links[k].source == element && g.nodes[k].kind == AttributeType
  {
    if attrs != [] {
      var prev := AttrNodes(attrs[..|attrs| - 1], element, f, next);
      AttrNodesFragment(attrs[..|attrs| - 1], element, f, next);
      var a := attrs[|attrs| - 1];
      if !DropsAttribute(f, a) {
        var id := next + |prev.nodes|;
        var one := Graph([GraphNode(id, AttrLabel(a), AttributeType)], [Link(element, id)]);
        FragmentAppend(prev, one, element, next);
        var g := Append(prev, one);
        forall k | 0 <= k < |g.links| ensures g.links[k].source == element && g.nodes[k].kind == AttributeType {
          if k < |prev.links| { assert g.links[k] == prev.links[k] && g.nodes[k] == prev.nodes[k]; }
        }
      }
    }
  }

  /** Whatever `traverse` adds for one node is a fragment: dense ids from
      `next`, each new node the target of exactly the link pushed with it,
      from `parent` or from a node added before it. */
  lemma {:induction false} WalkFragment(n: Node, parent: nat, f: Filter, next: nat)
    ensures Fragment(Walk(n, parent, f, next), parent, next)
    decreases n
  {
    LeafFragment(parent, next);
    if n.Element? && ToLower(n.nodeName) != "script"
       && !(f.inHead && SkippedInHead(ToLower(n.nodeName), TextContent(n))) {
      var a := AttrNodes(n.attributes, next, f, next + 1);
      var c := WalkAll(n.childNodes, next, f, next + 1 + |a.nodes|);
      AttrNodesFragment(n.attributes, next, f, next + 1);
      WalkAllFragment(n.childNodes, next, f, next + 1 + |a.nodes|);
      FragmentAppend(a, c, next, next + 1);
      WalkElement(n, parent, f, next);
      FragmentNest(GraphNode(next, ToLower(n.nodeName), ElementType), Append(a, c), parent, next);
    }
  }

  /** The empty graph, and a single node with id `next` linked from
      `parent`, are fragments. */
  lemma {:induction false} LeafFragment(parent: nat, next: nat)
    ensures Fragment(Empty, parent, next)
    ensures forall node: GraphNode :: node.id == next ==> Fragment(Graph([node], [Link(parent, next)]), parent, next)
  {
    forall node: GraphNode | node.id == next ensures Fragment(Graph([node], [Link(parent, next)]), parent, next) {
      var g := Graph([node], [Link(parent, next)]);
      assert g.nodes[0].id == next + 0;
    }
  }

  lemma {:induction false} WalkAllFragment(cs: seq<Node>, parent: nat, f: Filter, next: nat)
    ensures Fragment(WalkAll(cs, parent, f, next), parent, next)
    decreases cs
  {
    if cs != [] {
      var prev := WalkAll(cs[..|cs| - 1], parent, f, next);
      WalkAllFragment(cs[..|cs| - 1], parent, f, next);
      WalkFragment(cs[|cs| - 1], parent, f, next + |prev.nodes|);
      FragmentAppend(prev, Walk(cs[|cs| - 1], parent, f, next + |prev.nodes|), parent, next);
    }
  }

  /** An element that is neither a `script` nor skipped in `head` adds its
      own node, then its attribute nodes, then what the walk adds for its
      child nodes. */
  lemma {:induction false} WalkElement(n: Node, parent: nat, f: Filter, next: nat)
    requires n.Element? && ToLower(n.nodeName) != "script"
    requires !(f.inHead && SkippedInHead(ToLower(n.nodeName), TextContent(n)))
    ensures var a := AttrNodes(n.attributes, next, f, next + 1);
      Walk(n, parent, f, next)
        == Append(Graph([GraphNode(next, ToLower(n.nodeName), ElementType)], [Link(parent, next)]),
                  Append(a, WalkAll(n.childNodes, next, f, next + 1 + |a.nodes|)))
  {
  }

  /** Walking one more child node appends what the walk adds for it. */
  lemma {:induction false} WalkAllSnoc(cs: seq<Node>, j: nat, parent: nat, f: Filter, next: nat)
    requires j < |cs|
    ensures var prev := WalkAll(cs[..j], parent, f, next);
      WalkAll(cs[..j + 1], parent, f, next) == Append(prev, Walk(cs[j], parent, f, next + |prev.nodes|))
  {
    assert cs[..j + 1][..j] == cs[..j];
  }

  /** Likewise for one more attribute. */
  lemma {:induction false} AttrNodesSnoc(attrs: seq<Attr>, i: nat, element: nat, f: Filter, next: nat)
    requires i < |attrs|
    ensures var prev := AttrNodes(attrs[..i], element, f, next);
      var id := next + |prev.nodes|;
      AttrNodes(attrs[..i + 1], element, f, next)
        == if DropsAttribute(f, attrs[i]) then prev
           else Append(prev, Graph([GraphNode(id, AttrLabel(attrs[i]), AttributeType)], [Link(element, id)]))
  {
    assert attrs[..i + 1][..i] == attrs[..i];
  }

  /** The two nodes every clean graph starts with: `Document` (id 0) and
      `html` (id 1), linked 0 -> 1. */
  const Roots: Graph := Graph([GraphNode(0, "Document", DocumentType), GraphNode(1, "html", ElementType)], [Link(0, 1)])

  /** The `head` or `body` node with id `id`, linked from `html`, and what
      the walk adds for its child nodes. */
  function Section(name: string, children: seq<Node>, id: nat, f: Filter): Graph {
    var w := WalkAll(children, id, f, id + 1);
    Append(Graph([GraphNode(id, name, ElementType)], [Link(1, id)]), w)
  }

  lemma {:induction false} SectionFragment(name: string, children: seq<Node>, id: nat, f: Filter)
    requires 1 < id
    ensures Fragment(Section(name, children, id, f), 1, id)
  {
    WalkAllFragment(children, id, f, id + 1);
    FragmentNest(GraphNode(id, name, ElementType), WalkAll(children, id, f, id + 1), 1, id);
  }

  /** Whether the clean extractor creates a `head` node: the document has a
      head with at least one element child, counted before any filtering. */
  predicate ShowsHead(doc: Document) {
    doc.head.Some? && HasElementChild(doc.head.value)
  }

  /** The roots, then the `head` section when `ShowsHead`. */
  function UpToHead(doc: Document): Graph {
    if ShowsHead(doc) then Append(Roots, Section("head", doc.head.value, 2, HeadFilter)) else Roots
  }

  /** `createCleanDOMGraphData(doc)`: the two roots, then the `head` section
      when `ShowsHead`, then the `body` section whenever there is a body. */
  function CleanGraph(doc: Document): Graph {
    var h := UpToHead(doc);
    if doc.body.Some? then Append(h, Section("body", doc.body.value, |h.nodes|, BodyFilter)) else h
  }

  /** Every clean graph is tree-shaped and starts with the two roots. */
  lemma {:induction false} CleanGraphShape(doc: Document)
    ensures var g := CleanGraph(doc);
      && TreeShaped(g)
      && |g.nodes| >= 2 && g.nodes[..2] == Roots.nodes && g.links[0] == Link(0, 1)
  {
    var h := UpToHead(doc);
    if ShowsHead(doc) {
      SectionFragment("head", doc.head.value, 2, HeadFilter);
      TreeShapedAppend(Roots, Section("head", doc.head.value, 2, HeadFilter), 1);
    }
    if doc.body.Some? {
      SectionFragment("body", doc.body.value, |h.nodes|, BodyFilter);
      TreeShapedAppend(h, Section("body", doc.body.value, |h.nodes|, BodyFilter), 1);
    }
  }

  /** `createDOMGraphData(root)`: the `Document` node, then the walk of
      `root` (when there is one) linked directly from it. */
  function RawGraph(root: Option<Node>): Graph {
    var d := Graph([GraphNode(0, "Document", DocumentType)], []);
    if root.Some? then Append(d, Walk(root.value, 0, RawFilter, 1)) else d
  }

  /** Every raw graph is tree-shaped with the `Document` node first; with
      no root that is all there is, and a root element other than a script
      becomes node 1, linked directly from `Document`. */
  lemma {:induction false} RawGraphShape(root: Option<Node>)
    ensures TreeShaped(RawGraph(root))
    ensures RawGraph(root).nodes[0] == GraphNode(0, "Document", DocumentType)
    ensures root.None? ==> RawGraph(root) == Graph([GraphNode(0, "Document", DocumentType)], [])
    ensures root.Some? && root.value.Element? && ToLower(root.value.nodeName) != "script" ==>
              |RawGraph(root).nodes| >= 2
              && RawGraph(root).nodes[1] == GraphNode(1, ToLower(root.value.nodeName), ElementType)
              && RawGraph(root).links[0] == Link(0, 1)
  {
    if root.Some? {
      WalkFragment(root.value, 0, RawFilter, 1);
      TreeShapedAppend(Graph([GraphNode(0, "Document", DocumentType)], []), Walk(root.value, 0, RawFilter, 1), 0);
    }
  }

  /** The `traverse` closure: appends to `nodes` and `links` what it adds for
      `n`, taking ids from `counter`. */
  method Traverse(n: Node, parent: nat, f: Filter, nodes: seq<GraphNode>, links: seq<Link>, counter: nat)
    returns (nodes': seq<GraphNode>, links': seq<Link>, counter': nat)
    ensures Pushed(nodes, links, counter, Walk(n, parent, f, counter), nodes', links', counter')
    decreases n, 1
  {
    match n
    case Text(s) =>
      var text := Trim(s);
      nodes', links', counter' := nodes, links, counter;
      if text != [] {
        nodes' := nodes' + [GraphNode(counter', TextLabel(text), TextType)];
        links' := links' + [Link(parent, counter')];
        counter' := counter' + 1;
      }
    case Other(name, data) =>
      var tag := ToLower(name);
      nodes', links', counter' := nodes, links, counter;
      if !(f.inHead && SkippedInHead(tag, data)) {
        nodes' := nodes' + [GraphNode(counter', tag, ElementType)];
        links' := links' + [Link(parent, counter')];
        counter' := counter' + 1;
      }
    case Element(_, _, _) =>
      nodes', links', counter' := TraverseElement(n, parent, f, nodes, links, counter);
  }

  /** The element branch of `traverse`: nothing for a `script` element or an
      element the head filter skips; otherwise the element's node, its
      attribute nodes, then what the walk adds for its child nodes. */
  method TraverseElement(n: Node, parent: nat, f: Filter, nodes: seq<GraphNode>, links: seq<Link>, counter: nat)
    returns (nodes': seq<GraphNode>, links': seq<Link>, counter': nat)
    requires n.Element?
    ensures Pushed(nodes, links, counter, Walk(n, parent, f, counter), nodes', links', counter')
    decreases n, 0
  {
    var tag := ToLower(n.nodeName);
    if tag == "script" || (f.inHead && SkippedInHead(tag, TextContent(n))) {
      return nodes, links, counter;
    }
    var id := counter;
    var node := GraphNode(id, tag, ElementType);
    nodes', links', counter' := nodes + [node], links + [Link(parent, id)], counter + 1;
    ghost var (n1, l1, c1) := (nodes', links', counter');
    nodes', links', counter' := PushAttributes(n.attributes, id, f, nodes', links', counter');
    ghost var (n2, l2, c2) := (nodes', links', counter');
    nodes', links', counter' := TraverseAll(n.childNodes, id, f, nodes', links', counter');
    ghost var one := Graph([node], [Link(parent, id)]);
    ghost var a := AttrNodes(n.attributes, id, f, id + 1);
    ghost var c := WalkAll(n.childNodes, id, f, id + 1 + |a.nodes|);
    PushedAppend(n1, l1, c1, a, n2, l2, c2, c, nodes', links', counter');
    PushedAppend(nodes, links, counter, one, n1, l1, c1, Append(a, c), nodes', links', counter');
  }

  /** The `forEach` over `element.attributes`: appends an attribute node,
      linked from `element`, for each attribute the filter keeps. */
  method PushAttributes(attrs: seq<Attr>, element: nat, f: Filter, nodes: seq<GraphNode>, links: seq<Link>, counter: nat)
    returns (nodes': seq<GraphNode>, links': seq<Link>, counter': nat)
    ensures Pushed(nodes, links, counter, AttrNodes(attrs, element, f, counter), nodes', links', counter')
  {
    nodes', links', counter' := nodes, links, counter;
    var i := 0;
    while i < |attrs|
      invariant 0 <= i <= |attrs|
      invariant Pushed(nodes, links, counter, AttrNodes(attrs[..i], element, f, counter), nodes', links', counter')
    {
      AttrNodesSnoc(attrs, i, element, f, counter);
      ghost var prev := AttrNodes(attrs[..i], element, f, counter);
      if !DropsAttribute(f, attrs[i]) {
        ghost var (n1, l1, c1) := (nodes', links', counter');
        var node := GraphNode(counter', AttrLabel(attrs[i]), AttributeType);
        nodes' := nodes' + [node];
        links' := links' + [Link(element, counter')];
        counter' := counter' + 1;
        PushedAppend(nodes, links, counter, prev, n1, l1, c1, Graph([node], [Link(element, c1)]), nodes', links', counter');
      }
      i := i + 1;
    }
    assert attrs[..|attrs|] == attrs;
  }

  /** `Array.from(x.childNodes).forEach(child => traverse(child, parent, isHead))`. */
  method TraverseAll(cs: seq<Node>, parent: nat, f: Filter, nodes: seq<GraphNode>, links: seq<Link>, counter: nat)
    returns (nodes': seq<GraphNode>, links': seq<Link>, counter': nat)
    ensures Pushed(nodes, links, counter, WalkAll(cs, parent, f, counter), nodes', links', counter')
    decreases cs
  {
    nodes', links', counter' := nodes, links, counter;
    var j := 0;
    while j < |cs|
      invariant 0 <= j <= |cs|
      invariant Pushed(nodes, links, counter, WalkAll(cs[..j], parent, f, counter), nodes', links', counter')
    {
      WalkAllSnoc(cs, j, parent, f, counter);
      ghost var prev := WalkAll(cs[..j], parent, f, counter);
      ghost var (n1, l1, c1) := (nodes', links', counter');
      nodes', links', counter' := Traverse(cs[j], parent, f, nodes', links', counter');
      PushedAppend(nodes, links, counter, prev, n1, l1, c1, Walk(cs[j], parent, f, c1), nodes', links', counter');
      j := j + 1;
    }
    assert cs[..|cs|] == cs;
  }

  /** `createCleanDOMGraphData(iframeDoc)`. */
  method CreateCleanDOMGraphData(doc: Document) returns (g: Graph)
    ensures g == CleanGraph(doc)
  {
    var nodes: seq<GraphNode> := [];
    var links: seq<Link> := [];
    var counter: nat := 0;
    var docNode := GraphNode(counter, "Document", DocumentType);
    counter := counter + 1;
    nodes := nodes + [docNode];
    var htmlNode := GraphNode(counter, "html", ElementType);
    counter := counter + 1;
    nodes := nodes + [htmlNode];
    links := links + [Link(docNode.id, htmlNode.id)];
    assert Graph(nodes, links) == Roots;
    if doc.head.Some? && HasElementChild(doc.head.value) {
      var headNode := GraphNode(counter, "head", ElementType);
      counter := counter + 1;
      nodes := nodes + [headNode];
      links := links + [Link(htmlNode.id, headNode.id)];
      ghost var (n1, l1, c1) := (nodes, links, counter);
      nodes, links, counter := TraverseAll(doc.head.value, headNode.id, HeadFilter, nodes, links, counter);
      PushedAppend(Roots.nodes, Roots.links, 2, Graph([headNode], [Link(1, 2)]), n1, l1, c1,
                   WalkAll(doc.head.value, 2, HeadFilter, 3), nodes, links, counter);
    }
    assert Graph(nodes, links) == UpToHead(doc) && counter == |nodes|;
    if doc.body.Some? {
      ghost var (n0, l0, c0) := (nodes, links, counter);
      var bodyNode := GraphNode(counter, "body", ElementType);
      counter := counter + 1;
      nodes := nodes + [bodyNode];
      links := links + [Link(htmlNode.id, bodyNode.id)];
      ghost var (n1, l1, c1) := (nodes, links, counter);
      nodes, links, counter := TraverseAll(doc.body.value, bodyNode.id, BodyFilter, nodes, links, counter);
      PushedAppend(n0, l0, c0, Graph([bodyNode], [Link(1, c0)]), n1, l1, c1,
                   WalkAll(doc.body.value, c0, BodyFilter, c1), nodes, links, counter);
    }
    g := Graph(nodes, links);
  }

  /** `createDOMGraphData(rootElement)`. */
  method CreateDOMGraphData(root: Option<Node>) returns (g: Graph)
    ensures g == RawGraph(root)
  {
    var nodes: seq<GraphNode> := [];
    var links: seq<Link> := [];
    var counter: nat := 0;
    var docNode := GraphNode(counter, "Document", DocumentType);
    counter := counter + 1;
    nodes := nodes + [docNode];
    if root.Some? {
      nodes, links, counter := Traverse(root.value, docNode.id, RawFilter, nodes, links, counter);
    }
    g := Graph(nodes, links);
  }
}
