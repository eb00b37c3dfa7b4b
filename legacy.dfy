/**
 * The older single-file `DOMTutorialApp` of `app.js`: the same extractor,
 * layout and drawing, but `executeCode` always schedules a draw (there is
 * no per-editor tree toggle).
 */
module Legacy {
  import opened Wrappers
  import opened GraphData
  import opened Render
  import opened Simulation

  /** A scheduled extract-and-draw callback, holding the preview area. */
  datatype DrawTimer = DrawTimer(editorId: string, area: PreviewArea)

  class LegacyApp {
    var editors: map<string, Editor>
    var previewAreas: map<string, PreviewArea>
    var domTrees: map<string, TreeContainer>
    var simulations: map<string, ForceSimulation>
    /** The pending `setTimeout` callbacks, oldest first. */
    var timers: seq<DrawTimer>

    constructor ()
      ensures editors == map[] && previewAreas == map[] && domTrees == map[]
      ensures simulations == map[] && timers == []
    {
      editors := map[];
      previewAreas := map[];
      domTrees := map[];
      simulations := map[];
      timers := [];
    }

    /** `storeEditorReferences(editorId, editor, elements)`: the entries for
        `editorId`, and only those, now hold the given editor, preview area
        and tree. */
    method StoreEditorReferences(editorId: string, editor: Editor, area: PreviewArea, tree: TreeContainer)
      modifies this
      ensures editors == old(editors)[editorId := editor]
      ensures previewAreas == old(previewAreas)[editorId := area]
      ensures domTrees == old(domTrees)[editorId := tree]
      ensures forall k :: k != editorId ==>
                (k in editors <==> k in old(editors)) && (k in editors ==> editors[k] == old(editors[k]))
      ensures simulations == old(simulations) && timers == old(timers)
    {
      editors := editors[editorId := editor];
      previewAreas := previewAreas[editorId := area];
      domTrees := domTrees[editorId := tree];
    }

    /** `executeCode(editorId)`: when the editor, its preview and its tree
        are registered, the preview gets the new iframe and a draw is always
        scheduled. No other preview area is touched. */
    method ExecuteCode(editorId: string, iframe: Frame)
      modifies this, if editorId in previewAreas then {previewAreas[editorId]} else {}
      ensures editors == old(editors) && previewAreas == old(previewAreas)
      ensures domTrees == old(domTrees) && simulations == old(simulations)
      ensures editorId !in editors || editorId !in previewAreas || editorId !in domTrees ==>
                timers == old(timers) && forall a :: a in previewAreas.Values ==> a.frame == old(a.frame)
      ensures editorId in editors && editorId in previewAreas && editorId in domTrees ==>
                && previewAreas[editorId].frame == Some(iframe)
                && timers == old(timers) + [DrawTimer(editorId, previewAreas[editorId])]
      ensures forall a :: a in previewAreas.Values && (editorId !in previewAreas || a != previewAreas[editorId]) ==>
                a.frame == old(a.frame)
    {
      if editorId !in editors || editorId !in previewAreas || editorId !in domTrees {
        return;
      }
      var area := previewAreas[editorId];
      CreateIsolatedPreview(area, iframe);
      timers := timers + [DrawTimer(editorId, area)];
    }

    /** The callback `executeCode` schedules: read the graph from the
        preview area and draw it when it has more than one node. Only that
        editor's tree and simulation entry can change. */
    method FireTimer()
      requires timers != []
      modifies this, if timers[0].editorId in domTrees then {domTrees[timers[0].editorId]} else {}
      ensures timers == old(timers)[1..]
      ensures editors == old(editors) && previewAreas == old(previewAreas) && domTrees == old(domTrees)
      ensures var t := old(timers[0]);
              var g := IframeGraph(t.area.frame);
              if |g.nodes| > 1 && t.editorId in domTrees then
                && var tree := domTrees[t.editorId];
                && t.editorId in simulations && fresh(simulations[t.editorId])
                && simulations == old(simulations)[t.editorId := simulations[t.editorId]]
                && tree.display == old(tree.display)
                && tree.drawing.Some? && DrawingOf(tree.drawing.value, g, tree.rectWidth, tree.rectHeight)
                && simulations[t.editorId].targetY == tree.drawing.value.targetY
                && simulations[t.editorId].Started()
              else
                && simulations == old(simulations)
                && forall tr :: tr in domTrees.Values ==> tr.display == old(tr.display) && tr.drawing == old(tr.drawing)
      ensures var t := old(timers[0]);
              forall tr :: tr in domTrees.Values && (t.editorId !in domTrees || tr != domTrees[t.editorId]) ==>
                tr.display == old(tr.display) && tr.drawing == old(tr.drawing)
      ensures forall s :: s in old(simulations.Values) ==> unchanged(s)
    {
      var t := timers[0];
      timers := timers[1..];
      var g := CreateDOMGraphDataFromIframe(t.area);
      if |g.nodes| > 1 {
        RenderDOMVisualization(t.editorId, g);
      }
    }

    /** `renderDOMVisualization(editorId, graphData)`: when the tree is
        registered it is redrawn and the new simulation replaces the entry,
        without the old one being stopped. No other tree is touched. */
    method RenderDOMVisualization(editorId: string, g: Graph)
      modifies this, if editorId in domTrees then {domTrees[editorId]} else {}
      ensures editors == old(editors) && previewAreas == old(previewAreas) && domTrees == old(domTrees)
      ensures timers == old(timers)
      ensures editorId !in domTrees ==> simulations == old(simulations)
      ensures editorId in domTrees ==>
                && var tree := domTrees[editorId];
                && editorId in simulations && fresh(simulations[editorId])
                && simulations == old(simulations)[editorId := simulations[editorId]]
                && tree.display == old(tree.display)
                && tree.drawing.Some? && DrawingOf(tree.drawing.value, g, tree.rectWidth, tree.rectHeight)
                && simulations[editorId].targetY == tree.drawing.value.targetY
                && simulations[editorId].Started()
      ensures forall tr :: tr in domTrees.Values && (editorId !in domTrees || tr != domTrees[editorId]) ==>
                tr.display == old(tr.display) && tr.drawing == old(tr.drawing)
      // The simulation the entry held, like every other, keeps running
      // untouched.
      ensures forall s :: s in old(simulations.Values) ==> unchanged(s)
    {
      if editorId !in domTrees {
        return;
      }
      var tree := domTrees[editorId];
      var sim := Draw(tree, g);
      simulations := simulations[editorId := sim];
    }
  }
}
