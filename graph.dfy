/**
 * The graph the visualizer draws: nodes with dense ids, and parent-to-child
 * links. `Fragment` is the shape of what one step of the tree walk adds;
 * `TreeShaped` is the shape of a whole extracted graph.
 */
module GraphData {

  /** The `type` field of a graph node. */
  datatype NodeType = DocumentType | ElementType | TextType | AttributeType {
    /** The string the source stores in `type`. */
    function Name(): string {
      match this
      case DocumentType => "document"
      case ElementType => "element"
      case TextType => "text"
      case AttributeType => "attribute"
    }
  }

  datatype GraphNode = GraphNode(id: nat, name: string, kind: NodeType)

  /** `{source, target}`, both node ids. */
  datatype Link = Link(source: nat, target: nat)

  /** `{nodes, links}`. */
  datatype Graph = Graph(nodes: seq<GraphNode>, links: seq<Link>)

  const Empty: Graph := Graph([], [])

  /** The nodes and links of `a`, then those of `b`: what pushing `b`'s
      after `a`'s leaves in the two arrays. */
  function Append(a: Graph, b: Graph): (r: Graph)
    ensures |r.nodes| == |a.nodes| + |b.nodes| && |r.links| == |a.links| + |b.links|
  {
    Graph(a.nodes + b.nodes, a.links + b.links)
  }

  /** What the tree walk adds when it starts with the counter at `next`
      under the graph node `parent`: the k-th node added has id `next + k`,
      and is the target of the k-th link added, whose source is `parent` or
      a node added before it. */
  ghost predicate Fragment(g: Graph, parent: nat, next: nat) {
    && |g.links| == |g.nodes|
    && (forall k :: 0 <= k < |g.nodes| ==> g.nodes[k].id == next + k)
    && (forall k :: 0 <= k < |g.links| ==>
          g.links[k].target == next + k
          && (g.links[k].source == parent || next <= g.links[k].source < next + k))
  }

  /** A whole graph in creation order: node k has id k, and link k goes from
      an earlier node to node k + 1. */
  ghost predicate TreeShaped(g: Graph) {
    && |g.nodes| == |g.links| + 1
    && (forall k :: 0 <= k < |g.nodes| ==> g.nodes[k].id == k)
    && (forall k :: 0 <= k < |g.links| ==> g.links[k].target == k + 1 && g.links[k].source <= k)
  }

  lemma {:induction false} FragmentAppend(a: Graph, b: Graph, parent: nat, next: nat)
    requires Fragment(a, parent, next) && Fragment(b, parent, next + |a.nodes|)
    ensures Fragment(Append(a, b), parent, next)
  {
    var r := Append(a, b);
    forall k | 0 <= k < |r.links|
      ensures r.nodes[k].id == next + k && r.links[k].target == next + k
      ensures r.links[k].source == parent || next <= r.links[k].source < next + k
    {
      if k >= |a.nodes| {
        assert r.nodes[k] == b.nodes[k - |a.nodes|] && r.links[k] == b.links[k - |a.nodes|];
      }
    }
  }

  /** A node with id `next`, linked from `parent`, followed by what was added
      under it. */
  lemma {:induction false} FragmentNest(node: GraphNode, inner: Graph, parent: nat, next: nat)
    requires node.id == next && Fragment(inner, next, next + 1)
    ensures Fragment(Append(Graph([node], [Link(parent, next)]), inner), parent, next)
  {
    var r := Append(Graph([node], [Link(parent, next)]), inner);
    forall k | 1 <= k < |r.links|
      ensures r.nodes[k].id == next + k && r.links[k].target == next + k
      ensures next <= r.links[k].source < next + k
    {
      assert r.nodes[k] == inner.nodes[k - 1] && r.links[k] == inner.links[k - 1];
    }
  }

  /** A fragment added under an existing node keeps a tree-shaped graph
      tree-shaped. */
  lemma {:induction false} TreeShapedAppend(g: Graph, f: Graph, parent: nat)
    requires TreeShaped(g) && parent < |g.nodes| && Fragment(f, parent, |g.nodes|)
    ensures TreeShaped(Append(g, f))
  {
    var r := Append(g, f);
    var n := |g.nodes|;
    forall k | 0 <= k < |r.links|
      ensures r.links[k].target == k + 1 && r.links[k].source <= k
    {
      if k >= |g.links| {
        assert r.links[k] == f.links[k - |g.links|];
      }
    }
    forall k | 0 <= k < |r.nodes| ensures r.nodes[k].id == k {
      if k >= n { assert r.nodes[k] == f.nodes[k - n]; }
    }
  }

  /** `nodes`, `links` and `counter` are what pushing the nodes and links of
      `g` onto `nodes0` and `links0` leaves, one id taken per node from
      `counter0`. */
  predicate Pushed(nodes0: seq<GraphNode>, links0: seq<Link>, counter0: nat, g: Graph,
                   nodes: seq<GraphNode>, links: seq<Link>, counter: nat)
  {
    nodes == nodes0 + g.nodes && links == links0 + g.links && counter == counter0 + |g.nodes|
  }

  /** Pushing `a` and then `b` is pushing `Append(a, b)`. */
  lemma {:induction false} PushedAppend(nodes0: seq<GraphNode>, links0: seq<Link>, counter0: nat, a: Graph,
                     nodes1: seq<GraphNode>, links1: seq<Link>, counter1: nat, b: Graph,
                     nodes2: seq<GraphNode>, links2: seq<Link>, counter2: nat)
    requires Pushed(nodes0, links0, counter0, a, nodes1, links1, counter1)
    requires Pushed(nodes1, links1, counter1, b, nodes2, links2, counter2)
    ensures Pushed(nodes0, links0, counter0, Append(a, b), nodes2, links2, counter2)
  {
    assert nodes2 == nodes0 + (a.nodes + b.nodes);
    assert links2 == links0 + (a.links + b.links);
  }
}
