/**
 * The page objects the visualizer reads and writes (editors, preview areas
 * with their iframe, tree containers), reading the graph out of a preview's
 * iframe, and drawing a graph into a container. Both `app.js` and
 * `assets/js/dom-visualizer.js` do these the same way.
 */
module Render {
  import opened Wrappers
  import opened Dom
  import opened GraphData
  import opened Extractor
  import opened Layout
  import opened Simulation

  /** A CodeMirror editor; `value` is what `getValue()` returns. The code
      reaches the rest of the model only through the iframe the browser
      builds from it, which `executeCode` takes as an input. */
  class Editor {
    var value: string

    constructor (value: string)
      ensures this.value == value
    {
      this.value := value;
    }
  }

  /** The iframe of a preview. `content` is the document it holds, or `None`
      when reading `contentDocument` throws. */
  datatype Frame = Frame(content: Option<Document>)

  /** A preview area; `frame` is its `iframe` child, if it has one. */
  class PreviewArea {
    var frame: Option<Frame>

    constructor ()
      ensures frame == None
    {
      frame := None;
    }
  }

  /** `style.display` of a tree container. */
  datatype Display = Unset | Block | Hidden

  /** The SVG `renderDOMVisualization` puts in a container: its size, the
      graph drawn, each node's target height and each node's circle radius. */
  datatype Drawing = Drawing(width: real, height: real, graph: Graph, targetY: seq<nat>, radii: seq<nat>)

  /** A `.domTree` container; `drawing` is `None` when its `innerHTML` is
      empty, and `rectWidth`, `rectHeight` its bounding box. */
  class TreeContainer {
    var display: Display
    var drawing: Option<Drawing>
    const rectWidth: real
    const rectHeight: real

    constructor (rectWidth: real, rectHeight: real)
      ensures display == Unset && drawing == None
      ensures this.rectWidth == rectWidth && this.rectHeight == rectHeight
    {
      this.rectWidth := rectWidth;
      this.rectHeight := rectHeight;
      display := Unset;
      drawing := None;
    }
  }

  /** `createDOMGraphDataFromIframe`: no iframe, or an iframe whose document
      cannot be read, gives the empty graph; otherwise the clean graph of
      its document. */
  function IframeGraph(frame: Option<Frame>): Graph {
    match frame
    case None => Empty
    case Some(Frame(None)) => Empty
    case Some(Frame(Some(doc))) => CleanGraph(doc)
  }

  /** The graph read from a preview has more than one node exactly when the
      preview has an iframe whose document can be read, so only then is
      anything drawn. */
  lemma {:induction false} IframeGraphRenders(frame: Option<Frame>)
    ensures |IframeGraph(frame).nodes| > 1 <==> frame.Some? && frame.value.content.Some?
    ensures |IframeGraph(frame).nodes| <= 1 ==> IframeGraph(frame) == Empty
  {
    if frame.Some? && frame.value.content.Some? {
      CleanGraphShape(frame.value.content.value);
    }
  }

  /** `createDOMGraphDataFromIframe(previewArea)`. */
  method CreateDOMGraphDataFromIframe(area: PreviewArea) returns (g: Graph)
    ensures g == IframeGraph(area.frame)
  {
    if area.frame.None? {
      return Empty;
    }
    match area.frame.value.content
    case None =>
      g := Empty;
    case Some(doc) =>
      g := CreateCleanDOMGraphData(doc);
  }

  /** `createIsolatedPreview(previewArea, code)`: the area is emptied and
      gets a new iframe; `iframe` is that iframe, holding the document the
      browser builds from the code. */
  method CreateIsolatedPreview(area: PreviewArea, iframe: Frame)
    modifies area
    ensures area.frame == Some(iframe)
  {
    area.frame := Some(iframe);
  }

  /** The radius of every node of `g`. */
  function Radii(g: Graph): (r: seq<nat>)
    ensures |r| == |g.nodes|
  {
    seq(|g.nodes|, i requires 0 <= i < |g.nodes| => Radius(Some(g.nodes[i].kind.Name())))
  }

  /** What a drawing of `g` in a container of the given bounding box shows:
      the canvas floor, one target height per node, on the grid, and on an
      extracted graph each child one row below its parent. */
  ghost predicate DrawingOf(d: Drawing, g: Graph, rectWidth: real, rectHeight: real) {
    && (d.width, d.height) == CanvasSize(rectWidth, rectHeight)
    && d.graph == g
    && d.radii == Radii(g)
    && |d.targetY| == |g.nodes|
    && (forall i :: 0 <= i < |d.targetY| ==> OnGrid(d.targetY[i]))
    && (TreeShaped(g) ==> d.targetY[0] == TopY)
    && (TreeShaped(g) ==> forall j :: 0 <= j < |g.links| ==>
          d.targetY[g.links[j].target] == d.targetY[g.links[j].source] + LevelHeight)
  }

  /** The body of `renderDOMVisualization` once the container is found: the
      container is emptied and redrawn, and a new simulation is made over
      the nodes with their target heights. */
  method Draw(container: TreeContainer, g: Graph) returns (sim: ForceSimulation)
    modifies container
    ensures container.display == old(container.display)
    ensures container.drawing.Some? && DrawingOf(container.drawing.value, g, container.rectWidth, container.rectHeight)
    ensures fresh(sim) && sim.Valid() && sim.targetY == container.drawing.value.targetY
    ensures sim.running && sim.alphaTarget == 0.0 && forall i :: 0 <= i < |sim.fx| ==> !sim.Pinned(i)
  {
    container.drawing := None;
    var size := CanvasSize(container.rectWidth, container.rectHeight);
    var _, ys := AssignTargetY(g);
    sim := new ForceSimulation(ys);
    container.drawing := Some(Drawing(size.0, size.1, g, ys, Radii(g)));
  }
}
