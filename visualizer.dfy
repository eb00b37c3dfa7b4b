/**
 * The per-editor state of `DOMTutorialApp` (`assets/js/app.js`) and the
 * `DOMVisualizer` methods (`assets/js/dom-visualizer.js`) that run code,
 * show or hide a tree, and draw one. The 100 ms `setTimeout` callbacks are
 * kept in `timers` and run by `FireTimer`, oldest first.
 */
module Visualizer {
  import opened Wrappers
  import opened GraphData
  import opened Render
  import opened Simulation

  /** A scheduled callback that reads the graph out of `area` and draws it
      for `editorId` when it has more than one node. It holds the preview
      area itself, as the source's closure does. */
  datatype RenderTimer = RenderTimer(editorId: string, area: PreviewArea)

  /** The maps of `DOMTutorialApp`, keyed by editor id. Entries are only
      ever stored for elements that exist, so a missing element is a
      missing key. */
  class App {
    var editors: map<string, Editor>
    var previewAreas: map<string, PreviewArea>
    var domTrees: map<string, TreeContainer>
    var simulations: map<string, ForceSimulation>
    var treeToggleStates: map<string, bool>
    /** The pending extract-and-draw callbacks. */
    var timers: seq<RenderTimer>

    constructor ()
      ensures editors == map[] && previewAreas == map[] && domTrees == map[]
      ensures simulations == map[] && treeToggleStates == map[] && timers == []
    {
      editors := map[];
      previewAreas := map[];
      domTrees := map[];
      simulations := map[];
      treeToggleStates := map[];
      timers := [];
    }

    /** Whether `treeToggleStates.get(editorId)` is truthy. */
    predicate TreeVisible(editorId: string)
      reads this
    {
      editorId in treeToggleStates && treeToggleStates[editorId]
    }

    /** `initializeEditor` (assets/js/editors.js) once the elements are
        found: the three references are stored, and the toggle state is
        that of the toggle input, or `true` when there is none. */
    method RegisterEditor(editorId: string, editor: Editor, area: PreviewArea, tree: TreeContainer, toggle: Option<bool>)
      modifies this
      ensures editors == old(editors)[editorId := editor]
      ensures previewAreas == old(previewAreas)[editorId := area]
      ensures domTrees == old(domTrees)[editorId := tree]
      ensures treeToggleStates == old(treeToggleStates)[editorId := toggle.GetOr(true)]
      ensures toggle == None ==> TreeVisible(editorId)
      ensures simulations == old(simulations) && timers == old(timers)
    {
      editors := editors[editorId := editor];
      previewAreas := previewAreas[editorId := area];
      domTrees := domTrees[editorId := tree];
      treeToggleStates := treeToggleStates[editorId := toggle.GetOr(true)];
    }
  }

  class DOMVisualizer {
    const app: App

    constructor (app: App)
      ensures this.app == app
    {
      this.app := app;
    }

    /** `executeCode(editorId)`. Nothing happens unless the editor, its
        preview and its tree are all registered. Then the preview gets a new
        iframe, `iframe`, built from the editor's code, and a draw is
        scheduled only when the editor's toggle state is truthy. No other
        preview area is touched. */
    method ExecuteCode(editorId: string, iframe: Frame)
      modifies app, if editorId in app.previewAreas then {app.previewAreas[editorId]} else {}
      ensures app.editors == old(app.editors) && app.previewAreas == old(app.previewAreas)
      ensures app.domTrees == old(app.domTrees) && app.simulations == old(app.simulations)
      ensures app.treeToggleStates == old(app.treeToggleStates)
      ensures editorId !in app.editors || editorId !in app.previewAreas || editorId !in app.domTrees ==>
                app.timers == old(app.timers) && forall a :: a in app.previewAreas.Values ==> a.frame == old(a.frame)
      ensures editorId in app.editors && editorId in app.previewAreas && editorId in app.domTrees ==>
                && app.previewAreas[editorId].frame == Some(iframe)
                && app.timers == old(app.timers) +
                     (if app.TreeVisible(editorId) then [RenderTimer(editorId, app.previewAreas[editorId])] else [])
      ensures forall a :: a in app.previewAreas.Values && (editorId !in app.previewAreas || a != app.previewAreas[editorId]) ==>
                a.frame == old(a.frame)
    {
      if editorId !in app.editors || editorId !in app.previewAreas || editorId !in app.domTrees {
        return;
      }
      var area := app.previewAreas[editorId];
      CreateIsolatedPreview(area, iframe);
      if app.TreeVisible(editorId) {
        app.timers := app.timers + [RenderTimer(editorId, area)];
      }
    }

    /** The callback scheduled by `executeCode` or by the toggle: read the
        graph from the preview area it holds, and draw it when it has more
        than one node. Only that editor's tree and simulation entry can
        change. */
    method FireTimer()
      requires app.timers != []
      modifies app, if app.timers[0].editorId in app.domTrees then {app.domTrees[app.timers[0].editorId]} else {}
      ensures app.timers == old(app.timers)[1..]
      ensures app.editors == old(app.editors) && app.previewAreas == old(app.previewAreas)
      ensures app.domTrees == old(app.domTrees) && app.treeToggleStates == old(app.treeToggleStates)
      ensures var t := old(app.timers[0]);
              var g := IframeGraph(t.area.frame);
              if |g.nodes| > 1 && t.editorId in app.domTrees then
                && var tree := app.domTrees[t.editorId];
                && t.editorId in app.simulations && fresh(app.simulations[t.editorId])
                && app.simulations == old(app.simulations)[t.editorId := app.simulations[t.editorId]]
                && tree.display == old(tree.display)
                && tree.drawing.Some? && DrawingOf(tree.drawing.value, g, tree.rectWidth, tree.rectHeight)
                && app.simulations[t.editorId].targetY == tree.drawing.value.targetY
                && app.simulations[t.editorId].Started()
              else
                && app.simulations == old(app.simulations)
                && forall tr :: tr in app.domTrees.Values ==> tr.display == old(tr.display) && tr.drawing == old(tr.drawing)
      ensures var t := old(app.timers[0]);
              forall tr :: tr in app.domTrees.Values && (t.editorId !in app.domTrees || tr != app.domTrees[t.editorId]) ==>
                tr.display == old(tr.display) && tr.drawing == old(tr.drawing)
      ensures forall s :: s in old(app.simulations.Values) ==> unchanged(s)
    {
      var t := app.timers[0];
      app.timers := app.timers[1..];
      var g := CreateDOMGraphDataFromIframe(t.area);
      if |g.nodes| > 1 {
        RenderDOMVisualization(t.editorId, g);
      }
    }

    /** `renderDOMVisualization(editorId, graphData)`: nothing happens
        unless the editor's tree is registered; then the tree is redrawn and
        the new simulation is stored for this editor, replacing the entry
        without stopping the simulation it held. No other tree is touched. */
    method RenderDOMVisualization(editorId: string, g: Graph)
      modifies app, if editorId in app.domTrees then {app.domTrees[editorId]} else {}
      ensures app.editors == old(app.editors) && app.previewAreas == old(app.previewAreas)
      ensures app.domTrees == old(app.domTrees) && app.treeToggleStates == old(app.treeToggleStates)
      ensures app.timers == old(app.timers)
      ensures editorId !in app.domTrees ==> app.simulations == old(app.simulations)
      ensures editorId in app.domTrees ==>
                && var tree := app.domTrees[editorId];
                && editorId in app.simulations && fresh(app.simulations[editorId])
                && app.simulations == old(app.simulations)[editorId := app.simulations[editorId]]
                && tree.display == old(tree.display)
                && tree.drawing.Some? && DrawingOf(tree.drawing.value, g, tree.rectWidth, tree.rectHeight)
                && app.simulations[editorId].targetY == tree.drawing.value.targetY
                && app.simulations[editorId].Started()
      ensures forall tr :: tr in app.domTrees.Values && (editorId !in app.domTrees || tr != app.domTrees[editorId]) ==>
                tr.display == old(tr.display) && tr.drawing == old(tr.drawing)
      // The simulation the entry held, like every other, keeps running
      // untouched.
      ensures forall s :: s in old(app.simulations.Values) ==> unchanged(s)
    {
      if editorId !in app.domTrees {
        return;
      }
      var tree := app.domTrees[editorId];
      var sim := Draw(tree, g);
      app.simulations := app.simulations[editorId := sim];
    }

    /** The `change` listener of an editor's tree toggle
        (`initializeEditor`, assets/js/editors.js): the new state is stored,
        so it gates the editor's later runs, and the tree is shown or
        hidden. */
    method SetTreeToggle(editorId: string, isVisible: bool)
      modifies app
      modifies if editorId in app.domTrees then {app.domTrees[editorId]} else {}
      modifies if editorId in app.simulations then {app.simulations[editorId]} else {}
      ensures app.treeToggleStates == old(app.treeToggleStates)[editorId := isVisible]
      ensures app.TreeVisible(editorId) == isVisible
      ensures app.editors == old(app.editors) && app.previewAreas == old(app.previewAreas)
      ensures app.domTrees == old(app.domTrees) && app.simulations == old(app.simulations)
      ensures editorId !in app.domTrees ==> app.timers == old(app.timers)
      ensures editorId in app.domTrees && isVisible ==>
                && app.domTrees[editorId].display == Block
                && app.domTrees[editorId].drawing == old(app.domTrees[editorId].drawing)
                && app.timers == old(app.timers) +
                     (if editorId in app.previewAreas then [RenderTimer(editorId, app.previewAreas[editorId])] else [])
      ensures editorId in app.domTrees && !isVisible ==>
                && app.domTrees[editorId].display == Hidden
                && app.domTrees[editorId].drawing == None
                && app.timers == old(app.timers)
      // Hiding stops the editor's simulation and changes nothing else in it.
      ensures editorId in app.simulations ==>
                var sim := app.simulations[editorId];
                && sim.fx == old(sim.fx) && sim.fy == old(sim.fy)
                && sim.targetY == old(sim.targetY) && sim.alphaTarget == old(sim.alphaTarget)
                && sim.running == (if editorId in app.domTrees && !isVisible then false else old(sim.running))
      ensures forall tr :: tr in app.domTrees.Values && (editorId !in app.domTrees || tr != app.domTrees[editorId]) ==>
                tr.display == old(tr.display) && tr.drawing == old(tr.drawing)
      ensures forall s :: s in app.simulations.Values && (editorId !in app.simulations || s != app.simulations[editorId]) ==>
                unchanged(s)
    {
      app.treeToggleStates := app.treeToggleStates[editorId := isVisible];
      ToggleDOMTreeVisibility(editorId, isVisible);
    }

    /** `toggleDOMTreeVisibility(editorId, isVisible)`. Nothing happens
        unless the editor's tree is registered. Showing it schedules a
        draw when there is a preview; hiding it stops the editor's
        simulation, which stays in the map, and empties the tree. No other
        tree and no other simulation is touched. */
    method ToggleDOMTreeVisibility(editorId: string, isVisible: bool)
      modifies app
      modifies if editorId in app.domTrees then {app.domTrees[editorId]} else {}
      modifies if editorId in app.simulations then {app.simulations[editorId]} else {}
      ensures app.editors == old(app.editors) && app.previewAreas == old(app.previewAreas)
      ensures app.domTrees == old(app.domTrees) && app.simulations == old(app.simulations)
      ensures app.treeToggleStates == old(app.treeToggleStates)
      ensures editorId !in app.domTrees ==> app.timers == old(app.timers)
      ensures editorId in app.domTrees && isVisible ==>
                && app.domTrees[editorId].display == Block
                && app.domTrees[editorId].drawing == old(app.domTrees[editorId].drawing)
                && app.timers == old(app.timers) +
                     (if editorId in app.previewAreas then [RenderTimer(editorId, app.previewAreas[editorId])] else [])
      ensures editorId in app.domTrees && !isVisible ==>
                && app.domTrees[editorId].display == Hidden
                && app.domTrees[editorId].drawing == None
                && app.timers == old(app.timers)
      // Hiding stops the editor's simulation and changes nothing else in it.
      ensures editorId in app.simulations ==>
                var sim := app.simulations[editorId];
                && sim.fx == old(sim.fx) && sim.fy == old(sim.fy)
                && sim.targetY == old(sim.targetY) && sim.alphaTarget == old(sim.alphaTarget)
                && sim.running == (if editorId in app.domTrees && !isVisible then false else old(sim.running))
      ensures forall tr :: tr in app.domTrees.Values && (editorId !in app.domTrees || tr != app.domTrees[editorId]) ==>
                tr.display == old(tr.display) && tr.drawing == old(tr.drawing)
      ensures forall s :: s in app.simulations.Values && (editorId !in app.simulations || s != app.simulations[editorId]) ==>
                unchanged(s)
    {
      if editorId !in app.domTrees {
        return;
      }
      var tree := app.domTrees[editorId];
      if isVisible {
        tree.display := Block;
        if editorId in app.previewAreas {
          app.timers := app.timers + [RenderTimer(editorId, app.previewAreas[editorId])];
        }
      } else {
        tree.display := Hidden;
        if editorId in app.simulations {
          app.simulations[editorId].Stop();
        }
        tree.drawing := None;
      }
    }
  }
}
