# Learn_DOM: the DOM-graph visualizer, modelled in Dafny

Learn_DOM is a browser tutorial on the Document Object Model. Each lesson
holds CodeMirror editors. Running an editor's HTML renders it in a sandboxed
preview iframe and draws the preview's DOM as a force-directed tree. This
project models the logic behind that drawing and proves what it does:

- **The graph extractors** (`createCleanDOMGraphData`, `createDOMGraphData`).
  They exist twice, once in `assets/js/dom-visualizer.js` and once in the
  older monolith `app.js`, and the two copies are the same code. The model
  has two layers. The recursive `traverse` closure, which pushes onto
  `nodes`/`links` and bumps a shared counter, is modelled as the methods
  `Traverse`, `TraverseElement`, `PushAttributes` and `TraverseAll`. Each
  is proved to push exactly what a pure walk (`Walk`, `WalkAll`,
  `AttrNodes`) describes. The properties of the output are proved about
  that walk: dense ids, every link from an earlier to a later node, one
  parent per node, the two roots, the `head`/`body` sections, the script,
  `meta`, empty-`title` and dark-reader filters, and the text labels.
- **The layout pass of `renderDOMVisualization`.** `calculateDepth` is a
  memoised depth-first search that fills a map. The `forEach` writes
  `targetY = 60 + 80 * depth`. Around these sit the node radius by type and
  the canvas-size floor. On an extracted graph every node gets its tree
  depth, so each child's row is one level below its parent's.
- **The drag handlers' pin state** on the force simulation (`fx`, `fy`,
  `alphaTarget`, running or stopped).
- **The orchestration**, in two versions:
  - `DOMVisualizer` over the maps of `DOMTutorialApp`: `executeCode`, gated
    on the editor's tree toggle; the deferred extract-and-draw; rendering;
    `toggleDOMTreeVisibility`.
  - The older `app.js` class, which has no toggle gate.

  Both keep the per-editor maps (editors, preview areas, tree containers,
  simulations and, in the newer version, toggle states).
- **`TutorialManager`** in `assets/js/app.js`: loading a tutorial once its
  fetch has settled, the mobile section title, and the clean-up of the
  previous lesson's editors and simulations.
- **The indented-HTML tree printer `generateDOMTree`** of `javascript.js`:
  its output is proved well nested, with one box per element of the subtree.

The browser is an input. A rendered preview document is a `Document` value
holding the child nodes of `head` and `body`, or nothing. A scheduled
`setTimeout` callback is an entry in an explicit queue, which `FireTimer`
runs. The result of a `fetch` is a parameter of `LoadTutorial`.

Modules, one file each:

| file | module | models |
|---|---|---|
| `wrappers.dfy` | `Wrappers` | Option |
| `dom.dfy` | `Dom` | DOM nodes, `trim`, ASCII case mapping, `textContent` |
| `graph.dfy` | `GraphData` | `{nodes, links}` graphs, tree shape, append |
| `extractor.dfy` | `Extractor` | both extractors, pure and imperative |
| `extractor_props.dfy` | `ExtractorProps` | what the extractor's output means |
| `layout.dfy` | `Layout` | radius, canvas size, `calculateDepth`, `targetY` |
| `simulation.dfy` | `Simulation` | the force simulation's pin state and drag handlers |
| `render.dfy` | `Render` | editors, preview areas, tree containers, reading a preview, drawing |
| `visualizer.dfy` | `Visualizer` | `DOMTutorialApp`'s maps and `DOMVisualizer` |
| `legacy.dfy` | `Legacy` | the `app.js` orchestration |
| `tutorial.dfy` | `Tutorial` | `TutorialManager` |
| `tree_printer.dfy` | `TreePrinter` | `generateDOMTree` and `updateDOMTree`'s header |

The two copies of the extractor, the depth pass and the radius table agree
line for line. The model has one definition of each, and its rows below cite
the `assets/js/dom-visualizer.js` copy.

`dom-visualizer.js` takes its `CONFIG` from `assets/js/config.js`, whose
every line is commented out. The constants used here (400 × 300 canvas
floor, radii 22/18/14, top row 60, level height 80) are the values of
`app.js` and `assets/js/config-optimized.js`.

## Model

| member | source | states |
|---|---|---|
| Dom.TrimStartSpec | assets/js/dom-visualizer.js:176 | the removed prefix is whitespace and what remains starts with a non-space character (or is empty) |
| Dom.TrimEndSpec | assets/js/dom-visualizer.js:176 | the removed suffix is whitespace and what remains ends with a non-space character (or is empty) |
| Dom.TrimSpec | assets/js/dom-visualizer.js:176 | `trim()` is the slice of the text between its leading and its trailing whitespace; it is empty exactly when the text is all whitespace |
| Dom.ToLower | assets/js/dom-visualizer.js:212 | lower-casing keeps the length |
| Dom.ToLowerSpec | assets/js/dom-visualizer.js:212 | each character is lower-cased in place, and no upper-case letter is left |
| Dom.ToUpper | assets/js/dom-visualizer.js:453-456 | upper-casing keeps the length |
| Dom.ToUpperSpec | assets/js/dom-visualizer.js:453-456 | each character is upper-cased in place |
| GraphData.Append | assets/js/dom-visualizer.js:170-240 | pushing a second batch adds its nodes and links after the first |
| GraphData.FragmentAppend | assets/js/dom-visualizer.js:237-239 | two sibling subtrees walked in turn form one fragment: dense ids, and each link comes from the parent or from an earlier new node |
| GraphData.FragmentNest | assets/js/dom-visualizer.js:210-239 | an element node followed by what was added under it is a fragment under its own parent |
| GraphData.TreeShapedAppend | assets/js/dom-visualizer.js:243-262 | adding a fragment under an existing node keeps the graph tree-shaped |
| GraphData.PushedAppend | assets/js/dom-visualizer.js:170-240 | pushing one batch and then another is pushing both together |
| Extractor.AttrNodesFragment | assets/js/dom-visualizer.js:219-234 | the attribute nodes take consecutive ids and are all linked from their element |
| Extractor.WalkFragment | assets/js/dom-visualizer.js:170-240 | whatever `traverse` adds for one node has dense ids from the counter on, each new node linked from the parent or from an earlier new node |
| Extractor.LeafFragment | assets/js/dom-visualizer.js:174-186 | adding nothing, or one node linked from the parent, is a fragment |
| Extractor.WalkAllFragment | assets/js/dom-visualizer.js:237-239 | the same for all the children of a node, visited in order |
| Extractor.WalkElement | assets/js/dom-visualizer.js:210-239 | a kept element adds its own node (lower-cased name, `element` type, linked from the parent), then its attribute nodes, then its children's subtrees |
| Extractor.WalkAllSnoc | assets/js/dom-visualizer.js:237-239 | walking one more child appends what that child adds |
| Extractor.AttrNodesSnoc | assets/js/dom-visualizer.js:219-234 | handling one more attribute appends what that attribute adds |
| Extractor.SectionFragment | assets/js/dom-visualizer.js:243-262 | a `head` or `body` section is a fragment under `html` |
| Extractor.CleanGraphShape | assets/js/dom-visualizer.js:146-265 | every clean graph is tree-shaped and starts with `Document` (id 0), then `html` (id 1), then the link 0→1 |
| Extractor.RawGraphShape | assets/js/dom-visualizer.js:272-344 | every raw graph is tree-shaped with `Document` first; a null root gives that node alone; a kept root element is node 1, linked straight from `Document` |
| Extractor.Traverse | assets/js/dom-visualizer.js:170-240 | the `traverse` closure pushes exactly what the walk describes for its node and advances the counter by the number of nodes pushed |
| Extractor.TraverseElement | assets/js/dom-visualizer.js:189-239 | the element branch pushes exactly the walk of the element |
| Extractor.PushAttributes | assets/js/dom-visualizer.js:219-234 | the loop over the attributes pushes exactly the attribute nodes and their links |
| Extractor.TraverseAll | assets/js/dom-visualizer.js:237-239 | the loop over the child nodes pushes exactly the walk of all of them |
| Extractor.CreateCleanDOMGraphData | assets/js/dom-visualizer.js:146-265 | the clean extractor returns the clean graph of the document |
| Extractor.CreateDOMGraphData | assets/js/dom-visualizer.js:272-344 | the raw extractor returns the raw graph of its root |
| ExtractorProps.ChildIdsAppend | assets/js/dom-visualizer.js:170-240 | the children of a node in two batches of links are those of the first batch, then those of the second |
| ExtractorProps.ChildIdsNone | assets/js/dom-visualizer.js:170-240 | a node that is the source of no link has no children |
| ExtractorProps.FragmentNoOtherParent | assets/js/dom-visualizer.js:170-240 | a subtree added under a parent links no node that existed before it, other than that parent, to a new node |
| ExtractorProps.TextNodeRule | assets/js/dom-visualizer.js:174-186 | a whitespace-only text node adds nothing; any other adds one `text` node linked from its parent, labelled with the trimmed text in quotes, cut to 15 characters plus `...` when longer |
| ExtractorProps.Kept | assets/js/dom-visualizer.js:219-234 | the shown attributes are at most the element's attributes |
| ExtractorProps.KeptMembers | assets/js/dom-visualizer.js:219-234 | an attribute is shown exactly when the filter does not drop it |
| ExtractorProps.DarkReaderFilter | assets/js/dom-visualizer.js:221-224 | the clean extractor shows an attribute exactly when it is not `data-darkreader-mode` or `data-darkreader-scheme`; the raw extractor shows all of them |
| ExtractorProps.KeptAll | assets/js/dom-visualizer.js:323-331 | without the dark-reader filter every attribute is shown |
| ExtractorProps.AttrNodesLabels | assets/js/dom-visualizer.js:219-234 | one `attribute` node per shown attribute, in order, labelled `name="value"`, with consecutive ids, each linked from its element |
| ExtractorProps.AttrNodesKept | assets/js/dom-visualizer.js:219-234 | filtering the attributes first and then adding all of them gives the same nodes |
| ExtractorProps.WalkAllSnocSeq | assets/js/dom-visualizer.js:237-239 | walking one more child appends what that child adds |
| ExtractorProps.ScriptsInvisible | assets/js/dom-visualizer.js:189-194 | outside `head`, removing every `script` element, with its whole subtree, from below a node leaves the graph unchanged |
| ExtractorProps.AllScriptsInvisible | assets/js/dom-visualizer.js:189-194 | the same for a sequence of sibling nodes |
| ExtractorProps.StrippedStep | assets/js/dom-visualizer.js:189-194 | the same for siblings whose last node is not a script |
| ExtractorProps.StrippedLastInvisible | assets/js/dom-visualizer.js:189-194 | removing the scripts below the last sibling leaves what it adds unchanged |
| ExtractorProps.WalkAllLast | assets/js/dom-visualizer.js:237-239 | the walk of the siblings is the walk of all but the last, then that of the last |
| ExtractorProps.LastScriptInvisible | assets/js/dom-visualizer.js:189-194 | a last sibling that is a `script` adds nothing |
| ExtractorProps.WalkStrippedLast | assets/js/dom-visualizer.js:189-194 | when removing the scripts changes nothing for the earlier siblings, the stripped siblings are walked as the earlier ones, then the stripped last one |
| ExtractorProps.HeadSkipsAll | assets/js/dom-visualizer.js:198-207 | inside `head`, children that are `meta`, `title` with empty text, scripts or whitespace-only text add nothing |
| ExtractorProps.SectionChildIds | assets/js/dom-visualizer.js:243-262 | a section's own node is the only node it links from `html`, and it links nothing from a node that existed before it |
| ExtractorProps.HeadChildIds | assets/js/dom-visualizer.js:243-252 | up to the head, `html`'s only child is the `head` node (id 2), and only when the head has an element child |
| ExtractorProps.HtmlChildren | assets/js/dom-visualizer.js:243-262 | `html`'s children are the `head` node (id 2) exactly when the head has an element child, then the `body` node exactly when there is a body |
| ExtractorProps.EmptyHeadNode | assets/js/dom-visualizer.js:243-252 | a head whose children are all skipped, such as a meta-only head, still gets a `head` node, with no children |
| ExtractorProps.SingleParent | assets/js/dom-visualizer.js:170-262 | in a tree-shaped graph every link goes from an earlier node to a later one, no node has two parents, and there is one link fewer than there are nodes |
| Layout.UpperName | assets/js/dom-visualizer.js:453-456 | the upper-cased type names are `DOCUMENT` and `ELEMENT` for those two types, and neither key for any other type |
| Layout.RadiusByType | app.js:24-28 | radius 22 for `document`, 18 for `element`, 14 for any other type and for a missing type |
| Layout.CanvasSize | app.js:626-628 | the canvas is at least 400 × 300 and at least the container's box, and each side is one of the two |
| Layout.CallShrinks | assets/js/dom-visualizer.js:364-380 | each recursive call of `calculateDepth` has fewer ids left without a depth, so the search ends |
| Layout.ChildDepth | assets/js/dom-visualizer.js:364-380 | on an extracted graph, a link goes one level down |
| Layout.DepthsRightStep | assets/js/dom-visualizer.js:364-380 | depths that are right stay right when later calls record more |
| Layout.ExploredStep | assets/js/dom-visualizer.js:372-379 | following one more link from a node keeps every followed child recorded |
| Layout.CalculateDepth | assets/js/dom-visualizer.js:364-380 | the first depth recorded for a node wins; recorded depths are never changed; every child of a newly recorded node is recorded; on an extracted graph every new entry is the node's tree depth |
| Layout.VisitLink | assets/js/dom-visualizer.js:372-379 | one step of the loop over the links keeps the recorded depths, the node's own depth and the search's closure |
| Layout.NodeDepths | assets/js/dom-visualizer.js:364-383 | `calculateDepth(0)` gives the root depth 0, records the child of every recorded node, and, on an extracted graph, gives every node its tree depth |
| Layout.AllReached | assets/js/dom-visualizer.js:364-383 | a depth map that holds the root and every child of its nodes holds every node of an extracted graph |
| Layout.Reached | assets/js/dom-visualizer.js:364-383 | the same for one node |
| Layout.TargetYGrid | assets/js/dom-visualizer.js:386-389 | every height is the top row 60 or a whole number of 80-pixel levels below it, a node without a depth counting as depth 0 |
| Layout.TargetYRows | assets/js/dom-visualizer.js:386-389 | on an extracted graph the root is on the top row and every child is one level below its parent |
| Layout.AssignTargetY | assets/js/dom-visualizer.js:383-389 | every node gets `60 + 80 × depth` from the depth pass, or 60 when the search never reached it, so every height is on the grid; on an extracted graph the root is on the top row and each child one level below its parent |
| Simulation.ForceSimulation.constructor | app.js:667-699 | a new simulation pins no node, has target alpha 0 and is running |
| Simulation.ForceSimulation.Stop | assets/js/dom-visualizer.js:65-75 | stopping halts the simulation and changes nothing else |
| Simulation.ForceSimulation.DragStarted | app.js:732-736 | drag start pins the node where it is, and only the first gesture (`!event.active`) sets alpha target 0.3 and restarts |
| Simulation.ForceSimulation.Dragged | app.js:737-740 | dragging moves the pin to the pointer and changes nothing else |
| Simulation.ForceSimulation.DragEnded | app.js:741-745 | drag end unpins the node, and only the last gesture (`!event.active`) sets alpha target 0 |
| Render.Editor.constructor | assets/js/dom-visualizer.js:24 | an editor holds the code `getValue()` returns |
| Render.PreviewArea.constructor | assets/js/dom-visualizer.js:83-118 | a new preview area has no iframe |
| Render.TreeContainer.constructor | assets/js/dom-visualizer.js:352-361 | a new tree container is empty and keeps its bounding box |
| Render.IframeGraphRenders | assets/js/dom-visualizer.js:125-140 | the graph read from a preview has more than one node exactly when the preview holds an iframe with a document; otherwise it is `{nodes: [], links: []}` |
| Render.CreateDOMGraphDataFromIframe | assets/js/dom-visualizer.js:125-140 | reading a preview gives the empty graph without an iframe or a document, and the clean graph of the document otherwise |
| Render.CreateIsolatedPreview | assets/js/dom-visualizer.js:83-118 | the preview area ends up holding just the new iframe |
| Render.Radii | assets/js/dom-visualizer.js:453-456 | there is one radius per node |
| Render.Draw | assets/js/dom-visualizer.js:352-496 | the container shows an SVG of the floored size with the graph, its radii and its heights; the new simulation is running, pins nothing and pulls each node to its height |
| Visualizer.App.constructor | assets/js/app.js:159-168 | a new app has empty maps and no pending callback |
| Visualizer.App.RegisterEditor | assets/js/editors.js:55-89 | registering an editor sets its editor, preview, tree and toggle entries and no others; the toggle state defaults to true without a toggle |
| Visualizer.DOMVisualizer.constructor | assets/js/dom-visualizer.js:8-10 | the visualizer works on the app it is given |
| Visualizer.DOMVisualizer.ExecuteCode | assets/js/dom-visualizer.js:16-43 | nothing happens unless the editor, preview and tree are registered; then the preview gets the new iframe, and a draw is scheduled exactly when the toggle state is truthy; no other preview area changes |
| Visualizer.DOMVisualizer.FireTimer | assets/js/dom-visualizer.js:29-36 | the deferred callback draws, exactly when the preview's graph has more than one node and the tree is registered: the tree shows the floored canvas, the graph, its radii and heights, keeps its display, and a new running, unpinned simulation pulled to those heights becomes that editor's entry; no other tree, entry or simulation changes |
| Visualizer.DOMVisualizer.RenderDOMVisualization | assets/js/dom-visualizer.js:352-434 | with a registered tree, the tree is redrawn (canvas, graph, radii, heights; display kept) and a new running, unpinned simulation replaces that editor's entry alone; no other tree changes, and every simulation held before, the replaced one included, is untouched and keeps running |
| Visualizer.DOMVisualizer.ToggleDOMTreeVisibility | assets/js/dom-visualizer.js:50-76 | showing displays the tree and schedules a draw when there is a preview; hiding hides and empties the tree and stops that editor's simulation, which stays in the map with its pins, alpha target and heights; no other tree or simulation changes |
| Visualizer.DOMVisualizer.SetTreeToggle | assets/js/editors.js:71-77 | the toggle's `change` listener stores the new state, so the editor's next run draws exactly when the toggle is on, and shows or hides the tree as `toggleDOMTreeVisibility` does: hiding stops the editor's simulation and keeps its pins, heights and alpha target; no other tree or simulation changes |
| Legacy.LegacyApp.constructor | app.js:182-187 | a new app has empty maps and no pending callback |
| Legacy.LegacyApp.StoreEditorReferences | app.js:298-302 | the editor, preview and tree entries are set for exactly that editor id |
| Legacy.LegacyApp.ExecuteCode | app.js:319-343 | nothing happens unless the editor, preview and tree are registered; then the preview gets the new iframe and a draw is always scheduled; no other preview area changes |
| Legacy.LegacyApp.FireTimer | app.js:330-335 | the deferred callback draws exactly when the preview's graph has more than one node and the tree is registered, with the same drawing, display and new simulation as the render; no other tree, entry or simulation changes |
| Legacy.LegacyApp.RenderDOMVisualization | app.js:619-764 | with a registered tree, the tree is redrawn (canvas, graph, radii, heights; display kept) and a new running, unpinned simulation replaces that editor's entry alone; no other tree changes, and the old simulation is untouched and keeps running |
| Tutorial.Capitalize | assets/js/app.js:131-132 | the first character is upper-cased and the rest is unchanged |
| Tutorial.TitleCapitalised | assets/js/app.js:113-132 | every title of a non-empty id starts with something other than a lower-case letter |
| Tutorial.TitleExamples | assets/js/app.js:113-132 | `changing-html` is titled `Changing HTML` and `nodelists` `NodeLists` from the table; `forms`, not a key of the table, is capitalised to `Forms` |
| Tutorial.TutorialManager.constructor | assets/js/app.js:50-55 | no tutorial is current or loaded |
| Tutorial.TutorialManager.UpdateMobileSectionTitle | assets/js/app.js:109-134 | with the title element present it shows the table's name for the id or the capitalised id; without it nothing changes |
| Tutorial.TutorialManager.CleanupPreviousTutorial | assets/js/app.js:136-150 | every stored simulation is stopped and otherwise keeps its pins, heights and alpha target, and the five maps are emptied |
| Tutorial.TutorialManager.LoadTutorial | assets/js/app.js:57-107 | asking for the current tutorial changes nothing, no simulation included; a failed or non-ok fetch shows the error page and changes nothing else; otherwise the page is shown, becomes current, joins the loaded set, the title is updated and the previous lesson is cleaned up: every old simulation stopped with its pins, heights and alpha target kept, and the five maps emptied |
| TreePrinter.NatToStringValue | javascript.js:36-37 | a number prints as decimal digits, without a leading zero, that denote it |
| TreePrinter.DOMTreePanel | javascript.js:27-30 | the panel starts with `<h3>DOM Tree</h3>` and is just that with no element |
| TreePrinter.PrintAppend | javascript.js:39-45 | printing two token runs in a row prints one after the other |
| TreePrinter.CountsAppend | javascript.js:36-45 | the open boxes and the boxes opened add up over two token runs |
| TreePrinter.WellNestedAppend | javascript.js:39-43 | two well-nested runs in a row are well nested |
| TreePrinter.WellNestedWrap | javascript.js:36-45 | an opening, a run well nested one level deeper and a closing are well nested |
| TreePrinter.OpensSingle | javascript.js:36-45 | one token opens one box exactly when it is an opening |
| TreePrinter.TokensNested | javascript.js:32-47 | an element's printout is the print of its tokens, which are well nested and open one box per element of the subtree |
| TreePrinter.ChildTokensNested | javascript.js:39-43 | the same for the element children, visited in order one level deeper |
| TreePrinter.NoTokensNested | javascript.js:39-43 | no children print nothing and open nothing |
| TreePrinter.ConcatNested | javascript.js:39-43 | two well-nested runs in a row print as their two printouts, are well nested, and open the boxes of both |
| TreePrinter.GenerateDOMTreeNests | javascript.js:32-47 | an element's printout opens its own box, with margin `20 × depth` and its lower-cased name, first and closes it last; only elements print; openings equal closings, one per element |
| TreePrinter.OpensCloses | javascript.js:36-45 | the open boxes are the openings minus the closings |

## Left out

- The D3 force physics is not modelled: forces, ticks, collision, the SVG lines and circles, zoom. The simulation keeps only what the handlers set: the pins, the target alpha, whether it runs, and each node's `targetY`.
- The delays are not modelled as time. Each `setTimeout(…, 100)` that `executeCode` and the tree toggle schedule becomes an entry in an explicit queue of callbacks, run in order by `FireTimer`.
- Iframe creation, `document.write` and the sandbox attributes are browser work and are not modelled. The preview's rendered document is an input to `ExecuteCode`.
- Two `catch` branches are not modelled: that of `executeCode` (an error message in the preview when reading the code or building the iframe throws) and that of the iframe's `onload` in `createIsolatedPreview` (its error page). The `catch` of `createDOMGraphDataFromIframe` is modelled: an iframe whose document cannot be read is `Frame(None)`, and it gives the empty graph, as does a preview with no iframe.
- `Tutorial.TutorialManager.LoadTutorial` does not model the set-up of the new page's editors after a load (`setupExistingEditors`, run from `requestAnimationFrame`): that is CodeMirror wiring, and no callback is queued for it, so the app's maps stay empty after the load.
- `Tutorial.TutorialManager.LoadTutorial`: the `await` points are not interleavings here; the fetch has already settled when the method runs. `scrollTo` and the editors' `toTextArea` teardown are page effects and are left out.
- `Visualizer.App.RegisterEditor` only stores the entries and the initial toggle state. The toggle's `change` listener is `Visualizer.DOMVisualizer.SetTreeToggle`. The rest of `initializeEditor` in `assets/js/editors.js` is not part of this model: creating the CodeMirror instance, the run button listeners, the run on creation, and the first call to the toggle handler.
- `Simulation.ForceSimulation.DragStarted` takes the node's current `x`, `y` as parameters, since d3 computes those positions.
- `Layout.CalculateDepth` leaves out the branch that reads `link.source.id` when d3 has already replaced a link's source by its node object. The depth pass runs before the simulation is created, so the sources are still ids.
- `Layout.AssignTargetY` returns the heights as a sequence in node order instead of writing a `targetY` field on each node. The y force's fallback to half the height for a missing `targetY` is not modelled, since every node gets one.
- `Dom.ToLower`, `Dom.ToUpper` and `Tutorial.Capitalize` (and so the titles of `Tutorial.TutorialManager.UpdateMobileSectionTitle`) map the ASCII letters only. JavaScript's full Unicode case mapping is not modelled.
- String lengths count characters, not UTF-16 code units, so the 15-character cut of a text label may differ from the source's on astral characters.
- `Tutorial.TitleCapitalised` and `UpdateMobileSectionTitle` look ids up only among the table's own keys. Keys inherited from `Object.prototype` (such as `constructor`) are not modelled.
- The re-render is modelled as written: a new draw replaces the editor's `simulations` entry without stopping the simulation it held, so that one keeps running.
- The `CONFIG` that `assets/js/dom-visualizer.js` imports from `assets/js/config.js` does not exist there, because that file is all comments. The model uses the values of `app.js` and `assets/js/config-optimized.js`.
- `LazyExampleLoader` is not modelled: it is fetch and promise de-duplication.
- `assets/js/performance-monitor.js` is timing and memory reporting and is not part of this model.
- Page chrome is not modelled: the header, dark mode, navigation, scroll observers, the example HTML strings.
- `runCode` in `javascript.js` evaluates user code with `new Function` and is not modelled.
- The extractor in `app.js` is the same code as the one in `assets/js/dom-visualizer.js`. It is modelled once, and the model's rows cite the latter.
