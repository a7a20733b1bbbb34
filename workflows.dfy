/** The static workflow catalog: which workflows can be launched with the
    current app list (the `disabled` state of each Launch button), and which
    apps a workflow launch actually opens. */
module Workflows {
  import opened Wrappers
  import opened Seqs
  import opened Apps
  import opened Placement

  /** A named group of app ids, opened together; `apps` may name ids that
      are not in the current list. */
  datatype Workflow = Workflow(id: string, name: string, description: string, apps: seq<string>)

  /** The built-in workflow catalog. */
  function Library(): (r: seq<Workflow>)
    ensures |r| == 3
    ensures forall i, j :: 0 <= i < j < |r| ==> r[i].id != r[j].id
  {
    [ Workflow("daily-planning", "Daily Planning", "Calendar + Notion + Linear",
               ["calendar", "notion", "linear"]),
      Workflow("design-review", "Design Review", "Figma + Slack huddle",
               ["figma", "slack"]),
      Workflow("deep-focus", "Deep Focus", "Notion doc + Spotify mix",
               ["notion", "spotify"]) ]
  }

  /** The predicate `(appId) => !appMap.has(appId)`. */
  function Absent(m: map<string, App>): string -> bool {
    id => id !in m
  }

  /** `workflow.apps.filter((appId) => !appMap.has(appId))`: the workflow's
      ids, in declared order, that no current app carries. */
  function MissingIds(w: Workflow, apps: seq<App>): (r: seq<string>)
    ensures |r| <= |w.apps|
    ensures forall i :: 0 <= i < |r| ==> r[i] in w.apps && r[i] !in Ids(apps)
    ensures forall i :: 0 <= i < |w.apps| && w.apps[i] !in Ids(apps) ==> w.apps[i] in r
  {
    Filter(w.apps, Absent(AppMap(apps)))
  }

  /** The Launch button is enabled, i.e. `missingApps.length > 0` is false. */
  predicate Launchable(w: Workflow, apps: seq<App>) {
    |MissingIds(w, apps)| == 0
  }

  /** A workflow is launchable exactly when every id it names is present. */
  lemma LaunchableIff(w: Workflow, apps: seq<App>)
    ensures Launchable(w, apps) <==> forall i :: 0 <= i < |w.apps| ==> w.apps[i] in Ids(apps)
  {
    if !Launchable(w, apps) {
      var r := MissingIds(w, apps);
      assert r[0] in w.apps && r[0] !in Ids(apps);
    }
  }

  /** One row of the rendered catalog. */
  datatype Availability = Availability(workflow: Workflow, launchable: bool, missing: seq<string>)

  /** The availability `renderWorkflows` computes for every catalog entry. */
  function ListWithAvailability(apps: seq<App>): (r: seq<Availability>)
    ensures |r| == |Library()|
    ensures forall i :: 0 <= i < |r| ==>
      && r[i].workflow == Library()[i]
      && r[i].missing == MissingIds(Library()[i], apps)
      && (r[i].launchable <==> forall k :: 0 <= k < |Library()[i].apps| ==> Library()[i].apps[k] in Ids(apps))
  {
    seq(|Library()|, i requires 0 <= i < |Library()| =>
      LaunchableIff(Library()[i], apps);
      var missing := MissingIds(Library()[i], apps);
      Availability(Library()[i], !(|missing| > 0), missing))
  }

  /** `ids.map((appId) => appMap.get(appId)).filter(Boolean)`: the apps the
      ids resolve to, in declared order, with unresolved ids dropped. */
  function Resolve(ids: seq<string>, m: map<string, App>): (r: seq<App>)
    ensures |r| <= |ids|
    ensures forall i :: 0 <= i < |r| ==> r[i] in m.Values
  {
    if ids == [] then []
    else
      var head := if ids[0] in m then [m[ids[0]]] else [];
      head + Resolve(ids[1..], m)
  }

  /** The predicate `(appId) => appMap.has(appId)`. */
  function Present(m: map<string, App>): string -> bool {
    id => id in m
  }

  /** Looking each id up, for ids that are all present. */
  function Lookups(ids: seq<string>, m: map<string, App>): (r: seq<App>)
    requires forall i :: 0 <= i < |ids| ==> ids[i] in m
    ensures |r| == |ids| && forall i :: 0 <= i < |ids| ==> r[i] == m[ids[i]]
  {
    seq(|ids|, i requires 0 <= i < |ids| => m[ids[i]])
  }

  /** Resolution is the lookup of exactly the present ids, in declared order:
      the i-th resolved app is the app of the i-th present id. */
  lemma {:induction false} ResolveIsLookupOfPresent(ids: seq<string>, m: map<string, App>)
    ensures Resolve(ids, m) == Lookups(Filter(ids, Present(m)), m)
  {
    if ids != [] {
      ResolveIsLookupOfPresent(ids[1..], m);
      var rest := Filter(ids[1..], Present(m));
      if ids[0] in m {
        assert Filter(ids, Present(m)) == [ids[0]] + rest;
      } else {
        assert Filter(ids, Present(m)) == rest;
      }
    }
  }

  /** The apps `launchWorkflow` opens for a workflow. */
  function ResolveWorkflow(w: Workflow, apps: seq<App>): (r: seq<App>)
    ensures |r| <= |w.apps|
    ensures forall i :: 0 <= i < |r| ==> r[i] in apps && r[i].id in w.apps
  {
    var m := AppMap(apps);
    ResolveIsLookupOfPresent(w.apps, m);
    Resolve(w.apps, m)
  }

  /** Every id of a workflow is either resolved or missing, never both. */
  lemma ResolvedPlusMissing(w: Workflow, apps: seq<App>)
    ensures |ResolveWorkflow(w, apps)| + |MissingIds(w, apps)| == |w.apps|
  {
    var m := AppMap(apps);
    ResolveIsLookupOfPresent(w.apps, m);
    FilterPartition(w.apps, Present(m));
    FilterCongruence(w.apps, Not(Present(m)), Absent(m));
  }

  /** Nothing is dropped exactly when the workflow is launchable. */
  lemma ResolvesAllIffLaunchable(w: Workflow, apps: seq<App>)
    ensures |ResolveWorkflow(w, apps)| == |w.apps| <==> Launchable(w, apps)
  {
    ResolvedPlusMissing(w, apps);
  }

  /** The i-th app opened by a launchable workflow is a current app whose id
      is the workflow's i-th id. */
  lemma ResolveLaunchable(w: Workflow, apps: seq<App>)
    requires Launchable(w, apps)
    ensures var r := ResolveWorkflow(w, apps);
      |r| == |w.apps| && forall i :: 0 <= i < |r| ==> r[i].id == w.apps[i]
  {
    var m := AppMap(apps);
    ResolveIsLookupOfPresent(w.apps, m);
    LaunchableIff(w, apps);
    FilterKeepsAll(w.apps, Present(m));
  }

  /** The window requests `launchWorkflow` issues: the i-th resolved app at
      stack position i. */
  function LaunchWorkflow(w: Workflow, apps: seq<App>, availWidth: Option<int>): (r: seq<WindowRequest>)
    ensures |r| <= |w.apps|
    ensures |r| == |w.apps| <==> Launchable(w, apps)
    ensures |r| == |ResolveWorkflow(w, apps)|
    ensures forall i :: 0 <= i < |r| ==>
      r[i] == LaunchFloatingWindow(ResolveWorkflow(w, apps)[i], i, availWidth)
    ensures forall i :: 0 <= i < |r| ==> (r[i].focused <==> i == 0)
  {
    ResolvesAllIffLaunchable(w, apps);
    LaunchMany(ResolveWorkflow(w, apps), availWidth)
  }

  /** The predicate `(item) => item.id === workflowId`. */
  function WorkflowHasId(id: string): Workflow -> bool {
    (w: Workflow) => w.id == id
  }

  /** The workflow click handler: the catalog entry with that id, if any,
      and the requests its launch issues; an unknown id launches nothing. */
  function LaunchWorkflowById(workflowId: string, apps: seq<App>, availWidth: Option<int>): (r: Option<seq<WindowRequest>>)
    ensures r.None? <==> forall i :: 0 <= i < |Library()| ==> Library()[i].id != workflowId
    ensures r.Some? ==> exists w :: w in Library() && w.id == workflowId && r.value == LaunchWorkflow(w, apps, availWidth)
  {
    match Find(Library(), WorkflowHasId(workflowId))
    case None => None
    case Some(w) => Some(LaunchWorkflow(w, apps, availWidth))
  }

  /** The predicate `(item) => item.id === id`. */
  function AppHasId(id: string): App -> bool {
    (a: App) => a.id == id
  }

  /** The app-list "Open" handler: the first current app with that id opens
      one focused window at stack position 0; an unknown id opens nothing. */
  function LaunchAppById(id: string, apps: seq<App>, availWidth: Option<int>): (r: Option<WindowRequest>)
    ensures r.None? <==> id !in Ids(apps)
    ensures r.Some? ==> r.value.focused && r.value.top == TopGap
    ensures r.Some? ==>
      exists k :: 0 <= k < |apps| && apps[k].id == id &&
        (forall j :: 0 <= j < k ==> apps[j].id != id) &&
        r.value == LaunchFloatingWindow(apps[k], 0, availWidth)
  {
    match Find(apps, AppHasId(id))
    case None => None
    case Some(a) => Some(LaunchFloatingWindow(a, 0, availWidth))
  }

  /** Adding an app whose id the workflow does not name leaves the
      workflow's missing ids, and so its Launch button, as they were; the
      add handler (unlike remove and reset) does not re-render the catalog. */
  lemma AddKeepsAvailability(w: Workflow, apps: seq<App>, a: App)
    requires a.id !in w.apps
    ensures MissingIds(w, apps + [a]) == MissingIds(w, apps)
    ensures Launchable(w, apps + [a]) <==> Launchable(w, apps)
  {
    assert Ids(apps + [a]) == Ids(apps) + {a.id};
    FilterCongruence(w.apps, Absent(AppMap(apps + [a])), Absent(AppMap(apps)));
  }

  /** An app whose id no catalog workflow names (as a random UUID never is)
      leaves the whole rendered catalog as it was. */
  lemma AddKeepsCatalog(apps: seq<App>, a: App)
    requires forall w :: w in Library() ==> a.id !in w.apps
    ensures ListWithAvailability(apps + [a]) == ListWithAvailability(apps)
  {
    var before, after := ListWithAvailability(apps), ListWithAvailability(apps + [a]);
    forall i | 0 <= i < |Library()| ensures after[i] == before[i] {
      assert Library()[i] in Library();
      AddKeepsAvailability(Library()[i], apps, a);
    }
  }

  /** Removing an app a workflow names disables that workflow. */
  lemma RemoveDisables(w: Workflow, apps: seq<App>, id: string)
    requires id in w.apps
    ensures !Launchable(w, WithoutId(apps, id))
    ensures id in MissingIds(w, WithoutId(apps, id))
  {
    LaunchableIff(w, WithoutId(apps, id));
  }

  /** With the built-in apps every catalog workflow can be launched. */
  lemma DefaultsLaunchEveryWorkflow()
    ensures Launchable(Library()[0], DefaultApps())
    ensures Launchable(Library()[1], DefaultApps())
    ensures Launchable(Library()[2], DefaultApps())
  {
    DailyPlanningLaunchableByDefault();
    DesignReviewLaunchableByDefault();
    DeepFocusLaunchableByDefault();
  }

  lemma DailyPlanningLaunchableByDefault()
    ensures Launchable(Library()[0], DefaultApps())
  {
    var d := DefaultApps();
    assert d[3] in d && d[1] in d && d[2] in d;
    LaunchableIff(Library()[0], d);
  }

  lemma DesignReviewLaunchableByDefault()
    ensures Launchable(Library()[1], DefaultApps())
  {
    var d := DefaultApps();
    assert d[5] in d && d[4] in d;
    LaunchableIff(Library()[1], d);
  }

  lemma DeepFocusLaunchableByDefault()
    ensures Launchable(Library()[2], DefaultApps())
  {
    var d := DefaultApps();
    assert d[1] in d && d[6] in d;
    LaunchableIff(Library()[2], d);
  }

  /** With only Calendar and Notion present, Daily Planning is disabled and
      reports exactly "linear" as missing. */
  lemma DailyPlanningMissingLinear()
    ensures var apps := [DefaultApps()[3], DefaultApps()[1]];
      MissingIds(Library()[0], apps) == ["linear"] && !Launchable(Library()[0], apps)
  {
    var apps := [DefaultApps()[3], DefaultApps()[1]];
    assert Ids(apps) == {"calendar", "notion"};
    var m := AppMap(apps);
    assert Filter(["linear"], Absent(m)) == ["linear"];
    assert Filter(["notion", "linear"], Absent(m)) == ["linear"];
  }

  /** Daily Planning resolves to Calendar, Notion and Linear, in that order. */
  lemma DailyPlanningResolves()
    ensures var d := DefaultApps(); ResolveWorkflow(Library()[0], d) == [d[3], d[1], d[2]]
  {
    DefaultIndexed("calendar", 3);
    DefaultIndexed("notion", 1);
    DefaultIndexed("linear", 2);
    DailyPlanningAllPresent();
    ResolveIsLookupOfPresent(Library()[0].apps, AppMap(DefaultApps()));
  }

  /** The index of the built-in apps gives each one back for its own id. */
  lemma DefaultIndexed(id: string, k: nat)
    requires k < |DefaultApps()| && DefaultApps()[k].id == id
    ensures AppMap(DefaultApps())[id] == DefaultApps()[k]
  {
    DefaultIdsUnique();
    AppMapOfUnique(DefaultApps(), k);
  }

  lemma DailyPlanningAllPresent()
    ensures var w := Library()[0]; Filter(w.apps, Present(AppMap(DefaultApps()))) == w.apps
  {
    var d := DefaultApps();
    assert d[3] in d && d[1] in d && d[2] in d;
    FilterKeepsAll(Library()[0].apps, Present(AppMap(d)));
  }

  /** Launching Daily Planning with the built-in apps opens Calendar, Notion
      and Linear at stack positions 0, 1, 2; only the first is focused. */
  lemma DailyPlanningLaunch(availWidth: Option<int>)
    ensures var r := LaunchWorkflow(Library()[0], DefaultApps(), availWidth);
      && |r| == 3
      && r[0].url == "https://calendar.google.com" && r[0].focused && r[0].top == 80
      && r[1].url == "https://www.notion.so" && !r[1].focused && r[1].top == 120
      && r[2].url == "https://linear.app" && !r[2].focused && r[2].top == 160
  {
    DailyPlanningResolves();
  }
}
