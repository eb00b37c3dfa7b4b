/**
 * `TutorialManager` of `assets/js/app.js`: loading a tutorial page into the
 * single-page app, the mobile section title, and the teardown of the
 * previous page's editors and simulations. The fetch is an input.
 */
module Tutorial {
  import opened Wrappers
  import opened Dom
  import opened Simulation
  import opened Visualizer

  /** What `fetch` of the tutorial page gave: a rejected promise, or a
      response with its `ok` flag and body text. */
  datatype FetchResult = NetworkError | Response(ok: bool, body: string)

  /** What `#tutorial-content` holds: nothing loaded yet, a tutorial's
      HTML, or the error page offering to retry `tutorialId`. */
  datatype Content = Unloaded | Page(html: string) | LoadError(tutorialId: string)

  /** The display names of the known tutorial ids. */
  const TitleMap: map<string, string> := map[
    "introduction" := "Introduction",
    "methods" := "Methods",
    "document" := "Document",
    "elements" := "Elements",
    "changing-html" := "Changing HTML",
    "Forms" := "Forms",
    "css" := "CSS",
    "animations" := "Animations",
    "events" := "Events",
    "listeners" := "Listeners",
    "navigation" := "Navigation",
    "nodes" := "Nodes",
    "collections" := "Collections",
    "nodelists" := "NodeLists"
  ]

  /** `s.charAt(0).toUpperCase() + s.slice(1)`. */
  function Capitalize(s: string): (r: string)
    ensures |r| == |s|
    ensures s != [] ==> r[0] == UpperChar(s[0]) && r[1..] == s[1..]
  {
    if s == [] then [] else [UpperChar(s[0])] + s[1..]
  }

  /** The title `updateMobileSectionTitle` shows: the table's name for a
      known id, else the id with its first letter upper-cased. */
  function MobileTitle(tutorialId: string): string {
    if tutorialId in TitleMap then TitleMap[tutorialId] else Capitalize(tutorialId)
  }

  /** Every title starts with something other than a lower-case letter,
      whether it comes from the table or from capitalising the id. */
  lemma {:induction false} TitleCapitalised(tutorialId: string)
    requires tutorialId != []
    ensures MobileTitle(tutorialId) != [] && !('a' <= MobileTitle(tutorialId)[0] <= 'z')
  {
    if tutorialId in TitleMap {
      var t := TitleMap[tutorialId];
      assert t in TitleMap.Values;
      assert forall v :: v in TitleMap.Values ==> v != [] && 'A' <= v[0] <= 'Z';
    }
  }

  /** Two of the names the table spells differently from the id. */
  lemma {:induction false} TitleExamples()
    ensures MobileTitle("changing-html") == "Changing HTML" && MobileTitle("nodelists") == "NodeLists"
    ensures MobileTitle("forms") == "Forms"
  {
    assert "forms" !in TitleMap;
  }

  class TutorialManager {
    var currentTutorial: Option<string>
    var loadedTutorials: set<string>
    /** `#tutorial-content`. */
    var content: Content
    /** The text of `#mobileSectionTitle`, which is only written when that
        element exists. */
    var mobileTitle: string
    const hasMobileTitle: bool
    /** `window.app`. */
    const app: App

    constructor (app: App, hasMobileTitle: bool)
      ensures currentTutorial == None && loadedTutorials == {} && content == Unloaded
      ensures this.app == app && this.hasMobileTitle == hasMobileTitle && mobileTitle == ""
    {
      currentTutorial := None;
      loadedTutorials := {};
      content := Unloaded;
      mobileTitle := "";
      this.app := app;
      this.hasMobileTitle := hasMobileTitle;
    }

    /** `updateMobileSectionTitle(tutorialId)`. */
    method UpdateMobileSectionTitle(tutorialId: string)
      modifies this
      ensures hasMobileTitle ==> mobileTitle == MobileTitle(tutorialId)
      ensures !hasMobileTitle ==> mobileTitle == old(mobileTitle)
      ensures currentTutorial == old(currentTutorial) && loadedTutorials == old(loadedTutorials)
      ensures content == old(content)
    {
      if hasMobileTitle {
        mobileTitle := MobileTitle(tutorialId);
      }
    }

    /** `cleanupPreviousTutorial()`: every stored simulation is stopped,
        then the five maps are emptied. Callbacks already scheduled stay
        scheduled. */
    method CleanupPreviousTutorial()
      modifies app, app.simulations.Values
      ensures app.editors == map[] && app.previewAreas == map[] && app.domTrees == map[]
      ensures app.simulations == map[] && app.treeToggleStates == map[]
      ensures app.timers == old(app.timers)
      ensures forall s :: s in old(app.simulations.Values) ==>
                && !s.running
                && s.fx == old(s.fx) && s.fy == old(s.fy)
                && s.targetY == old(s.targetY) && s.alphaTarget == old(s.alphaTarget)
    {
      var sims := app.simulations;
      var keys := sims.Keys;
      while keys != {}
        invariant keys <= sims.Keys && app.simulations == sims
        invariant app.timers == old(app.timers)
        invariant forall k :: k in sims && k !in keys ==> !sims[k].running
        invariant forall k :: k in sims ==>
                    && sims[k].fx == old(sims[k].fx) && sims[k].fy == old(sims[k].fy)
                    && sims[k].targetY == old(sims[k].targetY) && sims[k].alphaTarget == old(sims[k].alphaTarget)
        decreases keys
      {
        var k :| k in keys;
        sims[k].Stop();
        keys := keys - {k};
      }
      app.editors := map[];
      app.previewAreas := map[];
      app.domTrees := map[];
      app.simulations := map[];
      app.treeToggleStates := map[];
    }

    /** `loadTutorial(tutorialId)` once its fetch has settled with
        `response`. Asking for the current tutorial changes nothing. A
        failed fetch or a response that is not ok shows the error page and
        changes nothing else. Otherwise the page is shown, becomes the
        current tutorial and joins the loaded ones, the title is updated and
        the previous page's editors are torn down. */
    method LoadTutorial(tutorialId: string, response: FetchResult)
      modifies this, app, app.simulations.Values
      ensures old(currentTutorial) == Some(tutorialId) ==>
                && currentTutorial == old(currentTutorial) && loadedTutorials == old(loadedTutorials)
                && content == old(content) && mobileTitle == old(mobileTitle)
                && unchanged(app) && forall s :: s in old(app.simulations.Values) ==> unchanged(s)
      ensures old(currentTutorial) != Some(tutorialId) && !(response.Response? && response.ok) ==>
                && content == LoadError(tutorialId)
                && currentTutorial == old(currentTutorial) && loadedTutorials == old(loadedTutorials)
                && mobileTitle == old(mobileTitle)
                && unchanged(app) && forall s :: s in old(app.simulations.Values) ==> unchanged(s)
      ensures old(currentTutorial) != Some(tutorialId) && response.Response? && response.ok ==>
                && content == Page(response.body)
                && currentTutorial == Some(tutorialId)
                && loadedTutorials == old(loadedTutorials) + {tutorialId}
                && (hasMobileTitle ==> mobileTitle == MobileTitle(tutorialId))
                && (!hasMobileTitle ==> mobileTitle == old(mobileTitle))
                && app.editors == map[] && app.previewAreas == map[] && app.domTrees == map[]
                && app.simulations == map[] && app.treeToggleStates == map[]
                && (forall s :: s in old(app.simulations.Values) ==>
                      && !s.running
                      && s.fx == old(s.fx) && s.fy == old(s.fy)
                      && s.targetY == old(s.targetY) && s.alphaTarget == old(s.alphaTarget))
      ensures app.timers == old(app.timers)
    {
      if currentTutorial == Some(tutorialId) {
        return;
      }
      if !(response.Response? && response.ok) {
        content := LoadError(tutorialId);
        return;
      }
      content := Page(response.body);
      currentTutorial := Some(tutorialId);
      UpdateMobileSectionTitle(tutorialId);
      CleanupPreviousTutorial();
      loadedTutorials := loadedTutorials + {tutorialId};
    }
  }
}
