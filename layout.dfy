/**
 * The layout part of `renderDOMVisualization` (the same in
 * `assets/js/dom-visualizer.js` and `app.js`): the `CONFIG` constants it
 * reads, the circle radius per node type, the canvas size floor, and the
 * depth pass that gives every node its target height.
 */
module Layout {
  import opened Wrappers
  import opened Dom
  import opened GraphData

  // `CONFIG` (app.js, assets/js/config-optimized.js)
  const DefaultWidth: real := 400.0
  const DefaultHeight: real := 300.0
  const DocumentRadius: nat := 22
  const ElementRadius: nat := 18
  const DefaultRadius: nat := 14

  // The fixed numbers of the targetY assignment.
  const TopY: nat := 60
  const LevelHeight: nat := 80

  /** `radii[(d.type || "").toUpperCase()] || radii.DEFAULT`: the lookup
      ignores case, and a type that is missing or not in the table gets the
      default radius. */
  function Radius(nodeType: Option<string>): nat {
    var key := ToUpper(nodeType.GetOr(""));
    if key == "DOCUMENT" then DocumentRadius
    else if key == "ELEMENT" then ElementRadius
    else DefaultRadius
  }

  /** The upper-cased key of a type name the extractors produce. */
  lemma {:induction false} UpperName(k: NodeType)
    ensures k == DocumentType ==> ToUpper(k.Name()) == "DOCUMENT"
    ensures k == ElementType ==> ToUpper(k.Name()) == "ELEMENT"
    ensures k != DocumentType && k != ElementType ==> |ToUpper(k.Name())| != 8 && |ToUpper(k.Name())| != 7
  {
    var u := ToUpper(k.Name());
    ToUpperSpec(k.Name());
    if k == DocumentType {
      assert u[0] == 'D' && u[1] == 'O' && u[2] == 'C' && u[3] == 'U' && u[4] == 'M' && u[5] == 'E' && u[6] == 'N' && u[7] == 'T';
    } else if k == ElementType {
      assert u[0] == 'E' && u[1] == 'L' && u[2] == 'E' && u[3] == 'M' && u[4] == 'E' && u[5] == 'N' && u[6] == 'T';
    }
  }

  /** The radius of each kind of node the extractors produce. */
  lemma {:induction false} RadiusByType(k: NodeType)
    ensures Radius(Some(k.Name())) ==
      match k
      case DocumentType => 22
      case ElementType => 18
      case _ => 14
    ensures Radius(None) == 14
  {
    UpperName(k);
  }

  /** `Math.max(rect.width, DEFAULT_WIDTH)` and `Math.max(rect.height,
      DEFAULT_HEIGHT)`. */
  function CanvasSize(rectWidth: real, rectHeight: real): (r: (real, real))
    ensures r.0 >= DefaultWidth && r.0 >= rectWidth && (r.0 == DefaultWidth || r.0 == rectWidth)
    ensures r.1 >= DefaultHeight && r.1 >= rectHeight && (r.1 == DefaultHeight || r.1 == rectHeight)
  {
    (if rectWidth > DefaultWidth then rectWidth else DefaultWidth,
     if rectHeight > DefaultHeight then rectHeight else DefaultHeight)
  }

  /** The node ids a depth can be recorded for: the targets of the links. */
  function Targets(links: seq<Link>): set<nat> {
    set j | 0 <= j < |links| :: links[j].target
  }

  /** The depth of node `k` of an extracted graph: one more than that of the
      source of the link that created it. */
  ghost function Depth(g: Graph, k: nat): nat
    requires TreeShaped(g) && k < |g.nodes|
    decreases k
  {
    if k == 0 then 0 else Depth(g, g.links[k - 1].source) + 1
  }

  lemma {:induction false} SubsetCard(a: set<nat>, b: set<nat>)
    requires a <= b
    ensures |a| <= |b|
    decreases |b|
  {
    if a != {} {
      var x :| x in a;
      SubsetCard(a - {x}, b - {x});
    }
  }

  /** The set of ids still without a depth shrinks from one call to the next. */
  lemma {:induction false} CallShrinks(targets: set<nat>, id: nat, target: nat, before: set<nat>, after: set<nat>)
    requires target in targets && id !in before && before + {id} <= after
    ensures |(targets + {target}) - after| < |(targets + {id}) - before|
  {
    var a := (targets + {id}) - before;
    assert targets + {target} == targets;
    SubsetCard(targets - after, a - {id});
    assert |a - {id}| == |a| - 1;
  }

  /** The link that created node `j + 1` leads one level down. */
  lemma {:induction false} ChildDepth(g: Graph, j: nat)
    requires TreeShaped(g) && j < |g.links|
    ensures g.links[j].target < |g.nodes| && g.links[j].source < |g.nodes|
    ensures Depth(g, g.links[j].target) == Depth(g, g.links[j].source) + 1
  {
    assert g.links[j].target == j + 1;
  }

  /** Every depth in `before` is still in `after`, unchanged. */
  predicate Keeps(before: map<nat, nat>, after: map<nat, nat>) {
    before.Keys <= after.Keys && forall k :: k in before ==> after[k] == before[k]
  }

  /** The depths recorded in `r` but not in `depths` are the nodes' depths. */
  ghost predicate DepthsRight(g: Graph, depths: map<nat, nat>, r: map<nat, nat>) {
    TreeShaped(g) && forall k :: k in r && k !in depths ==> k < |g.nodes| && r[k] == Depth(g, k)
  }

  /** `id` is a node of an extracted graph and `depth` its depth. */
  ghost predicate TreeCase(g: Graph, id: nat, depth: nat) {
    TreeShaped(g) && id < |g.nodes| && depth == Depth(g, id)
  }

  /** The children of the nodes recorded in `r` but not in `depths` are in
      `r`, except those of `id` through link `j` or later. */
  predicate Explored(g: Graph, depths: map<nat, nat>, r: map<nat, nat>, id: nat, j: nat) {
    forall i ::
      (0 <= i < |g.links| && g.links[i].source in r && g.links[i].source !in depths &&
       (g.links[i].source != id || i < j)) ==> g.links[i].target in r
  }

  lemma {:induction false} DepthsRightStep(g: Graph, depths: map<nat, nat>, before: map<nat, nat>, r: map<nat, nat>)
    requires DepthsRight(g, depths, before) && DepthsRight(g, before, r) && Keeps(before, r)
    ensures DepthsRight(g, depths, r)
  {
    forall k | k in r && k !in depths ensures k < |g.nodes| && r[k] == Depth(g, k) {
      if k in before {
        assert r[k] == before[k];
      }
    }
  }

  /** Exploring link `j`, a link from `id`, keeps the search closed. */
  lemma {:induction false} ExploredStep(g: Graph, depths: map<nat, nat>, before: map<nat, nat>, r: map<nat, nat>, id: nat, j: nat)
    requires 0 <= j < |g.links| && g.links[j].source == id && id in before
    requires Explored(g, depths, before, id, j) && Keeps(before, r) && g.links[j].target in r
    requires Explored(g, before, r, g.links[j].target, |g.links|)
    ensures Explored(g, depths, r, id, j + 1)
  {
    forall i | 0 <= i < |g.links| && g.links[i].source in r && g.links[i].source !in depths
               && (g.links[i].source != id || i < j + 1)
      ensures g.links[i].target in r
    {
      if g.links[i].source in before && !(g.links[i].source == id && i == j) {
        assert g.links[i].target in before;
      }
    }
  }

  /** `calculateDepth(nodeId, depth)`: record `depth` for `id` unless a depth
      is already there, then recurse into the target of every link whose
      source is `id`, in link order. The map `depths` is the `nodeDepths`
      the closure shares. */
  method CalculateDepth(g: Graph, id: nat, depth: nat, depths: map<nat, nat>) returns (r: map<nat, nat>)
    decreases |(Targets(g.links) + {id}) - depths.Keys|, 1
    // A depth, once recorded, is never overwritten.
    ensures Keeps(depths, r)
    ensures id in r && (id !in depths ==> r[id] == depth)
    // The search went through every child of every node it reached.
    ensures Explored(g, depths, r, id, |g.links|)
    // On extracted graphs the depth recorded is the node's depth.
    ensures TreeCase(g, id, depth) ==> DepthsRight(g, depths, r)
  {
    if id in depths {
      return depths;
    }
    r := depths[id := depth];
    var j := 0;
    while j < |g.links|
      invariant 0 <= j <= |g.links|
      invariant Keeps(depths, r) && id in r && r[id] == depth
      invariant Explored(g, depths, r, id, j)
      invariant TreeCase(g, id, depth) ==> DepthsRight(g, depths, r)
    {
      r := VisitLink(g, id, depth, depths, r, j);
      j := j + 1;
    }
  }

  /** One step of the `forEach` over the links in `calculateDepth(id,
      depth)`: follow link `j` if its source is `id`. */
  method VisitLink(g: Graph, id: nat, depth: nat, depths: map<nat, nat>, r0: map<nat, nat>, j: nat)
    returns (r: map<nat, nat>)
    requires j < |g.links| && id !in depths
    requires Keeps(depths, r0) && id in r0 && r0[id] == depth
    requires Explored(g, depths, r0, id, j)
    decreases |(Targets(g.links) + {id}) - depths.Keys|, 0
    ensures Keeps(r0, r) && r[id] == depth
    ensures Explored(g, depths, r, id, j + 1)
    ensures TreeCase(g, id, depth) && DepthsRight(g, depths, r0) ==> DepthsRight(g, depths, r)
  {
    var link := g.links[j];
    if link.source != id {
      return r0;
    }
    CallShrinks(Targets(g.links), id, link.target, depths.Keys, r0.Keys);
    r := CalculateDepth(g, link.target, depth + 1, r0);
    ExploredStep(g, depths, r0, r, id, j);
    if TreeCase(g, id, depth) && DepthsRight(g, depths, r0) {
      ChildDepth(g, j);
      DepthsRightStep(g, depths, r0, r);
    }
  }

  /** `calculateDepth(0)` on a fresh map: on an extracted graph every node
      gets its depth. */
  method NodeDepths(g: Graph) returns (depths: map<nat, nat>)
    ensures 0 in depths && depths[0] == 0
    ensures Explored(g, map[], depths, 0, |g.links|)
    ensures TreeShaped(g) ==>
              forall k :: 0 <= k < |g.nodes| ==> k in depths && depths[k] == Depth(g, k)
  {
    depths := CalculateDepth(g, 0, 0, map[]);
    if TreeShaped(g) {
      AllReached(g, depths);
    }
  }

  /** A depth map that holds 0 and is closed under the links holds every
      node of an extracted graph. */
  lemma {:induction false} AllReached(g: Graph, depths: map<nat, nat>)
    requires TreeShaped(g) && 0 in depths
    requires Explored(g, map[], depths, 0, |g.links|)
    ensures forall k :: 0 <= k < |g.nodes| ==> k in depths
  {
    forall k | 0 <= k < |g.nodes| ensures k in depths {
      Reached(g, depths, k);
    }
  }

  lemma {:induction false} Reached(g: Graph, depths: map<nat, nat>, k: nat)
    requires TreeShaped(g) && 0 in depths && k < |g.nodes|
    requires Explored(g, map[], depths, 0, |g.links|)
    ensures k in depths
    decreases k
  {
    if k > 0 {
      Reached(g, depths, g.links[k - 1].source);
    }
  }

  /** `60 + depth * 80`, where a node with no recorded depth counts as depth 0. */
  function TargetY(depths: map<nat, nat>, id: nat): nat {
    TopY + LevelHeight * (if id in depths then depths[id] else 0)
  }

  /** A height on one of the rows: the top row or a whole number of levels
      below it. */
  predicate OnGrid(y: int) {
    y >= TopY && (y - TopY) % LevelHeight == 0
  }

  /** Every height written from a depth map lies on a row of the grid. */
  lemma {:induction false} TargetYGrid(g: Graph, depths: map<nat, nat>, ys: seq<nat>)
    requires |ys| == |g.nodes|
    requires forall k :: 0 <= k < |ys| ==> ys[k] == TargetY(depths, g.nodes[k].id)
    ensures forall i :: 0 <= i < |ys| ==> OnGrid(ys[i])
  {
    forall k | 0 <= k < |ys| ensures OnGrid(ys[k]) {
      var id := g.nodes[k].id;
      assert ys[k] - TopY == LevelHeight * (if id in depths then depths[id] else 0);
    }
  }

  /** Heights written from the depths of an extracted graph put the root on
      the top row and every child one row below its parent. */
  lemma {:induction false} TargetYRows(g: Graph, depths: map<nat, nat>, ys: seq<nat>)
    requires TreeShaped(g) && |ys| == |g.nodes|
    requires forall k :: 0 <= k < |g.nodes| ==> k in depths && depths[k] == Depth(g, k)
    requires forall k :: 0 <= k < |ys| ==> ys[k] == TargetY(depths, g.nodes[k].id)
    ensures ys[0] == TopY
    ensures forall j :: 0 <= j < |g.links| ==> ys[g.links[j].target] == ys[g.links[j].source] + LevelHeight
  {
    forall k | 0 <= k < |g.nodes| ensures ys[k] == TopY + LevelHeight * Depth(g, k) {
      assert g.nodes[k].id == k;
    }
    forall j | 0 <= j < |g.links| ensures ys[g.links[j].target] == ys[g.links[j].source] + LevelHeight {
      assert Depth(g, j + 1) == Depth(g, g.links[j].source) + 1;
    }
  }

  /** The depth pass and the `forEach` that writes `node.targetY`, in node
      order; `depths` is the map the depth pass filled. */
  method AssignTargetY(g: Graph) returns (depths: map<nat, nat>, ys: seq<nat>)
    ensures 0 in depths && depths[0] == 0
    ensures Explored(g, map[], depths, 0, |g.links|)
    ensures |ys| == |g.nodes|
    // A node with a depth sits that many levels below the top row; a node
    // the search never reached sits on the top row.
    ensures forall k :: 0 <= k < |ys| && g.nodes[k].id in depths ==>
              ys[k] == TopY + LevelHeight * depths[g.nodes[k].id]
    ensures forall k :: 0 <= k < |ys| && g.nodes[k].id !in depths ==> ys[k] == TopY
    ensures forall i :: 0 <= i < |ys| ==> OnGrid(ys[i])
    // On an extracted graph: the root is on the top row and every child one
    // row below its parent.
    ensures TreeShaped(g) ==> ys[0] == TopY
    ensures TreeShaped(g) ==> forall j :: 0 <= j < |g.links| ==>
              ys[g.links[j].target] == ys[g.links[j].source] + LevelHeight
  {
    depths := NodeDepths(g);
    ys := [];
    var i := 0;
    while i < |g.nodes|
      invariant 0 <= i <= |g.nodes| && |ys| == i
      invariant forall k :: 0 <= k < i ==> ys[k] == TargetY(depths, g.nodes[k].id)
    {
      ys := ys + [TargetY(depths, g.nodes[i].id)];
      i := i + 1;
    }
    TargetYGrid(g, depths, ys);
    if TreeShaped(g) {
      TargetYRows(g, depths, ys);
    }
  }
}
