/** The popup's app list: the in-memory `currentApps` list and the storage
    record it is mirrored to, with the handlers that read and change them. */
module Registry {
  import opened Wrappers
  import opened Text
  import opened Apps
  import opened Placement
  import opened Workflows

  /** The storage key under which the app list is kept. */
  const StorageKey: string := "floatbrowserQuickApps"

  /** The key-value store, as the popup sees it. */
  type Store = map<string, seq<App>>

  /** The app the add form submits, or None when the trimmed name or url is
      empty (the handler then returns without a change). A form number is
      None when it is not finite and falls back to 460 x 720. */
  function NewApp(id: string, rawName: string, rawUrl: string, width: Option<int>, height: Option<int>): (r: Option<App>)
    ensures r.None? <==> AllWhitespace(rawName) || AllWhitespace(rawUrl)
    ensures r.Some? ==> r.value.id == id && r.value.name == Trim(rawName) && r.value.url == Trim(rawUrl)
    ensures r.Some? ==> r.value.name != [] && r.value.url != []
    ensures r.Some? ==> r.value.width == (if width.Some? then width.value else DefaultWidth)
    ensures r.Some? ==> r.value.height == (if height.Some? then height.value else DefaultHeight)
  {
    var name := Trim(rawName);
    var url := Trim(rawUrl);
    if name == [] || url == [] then None
    else Some(App(id, name, url, width.GetOr(DefaultWidth), height.GetOr(DefaultHeight)))
  }

  /** A height that is not a number is stored as 720. */
  lemma NonNumericHeightDefaults(id: string, name: string, url: string, width: Option<int>)
    requires !AllWhitespace(name) && !AllWhitespace(url)
    ensures var r := NewApp(id, name, url, width, None); r.Some? && r.value.height == 720
  {
  }

  class AppRegistry {
    /** The module-level `currentApps` list. */
    var currentApps: seq<App>
    /** The synced storage area. */
    var store: Store

    /** The popup starts with an empty in-memory list over an existing store. */
    constructor (initial: Store)
      ensures currentApps == [] && store == initial
    {
      currentApps := [];
      store := initial;
    }

    /** The in-memory list and the stored record agree. */
    ghost predicate Mirrored()
      reads this
    {
      StorageKey in store && store[StorageKey] == currentApps
    }

    /** `saveApps`: the stored record becomes `apps`, whatever it held. */
    method Save(apps: seq<App>)
      modifies this`store
      ensures store == old(store)[StorageKey := apps]
    {
      store := store[StorageKey := apps];
    }

    /** `loadApps`: a present record is returned as it is, with no write (any
        array is truthy, even an empty one); an absent one is seeded with the
        built-in apps, which are returned. */
    method Load() returns (apps: seq<App>)
      modifies this`store
      ensures StorageKey in old(store) ==> apps == old(store)[StorageKey] && store == old(store)
      ensures StorageKey !in old(store) ==>
        apps == DefaultApps() && store == old(store)[StorageKey := DefaultApps()]
      ensures StorageKey in store && store[StorageKey] == apps
    {
      if StorageKey !in store {
        store := store[StorageKey := DefaultApps()];
        apps := DefaultApps();
      } else {
        apps := store[StorageKey];
      }
    }

    /** `init`: the in-memory list becomes what `loadApps` returns. */
    method Init()
      modifies this
      ensures Mirrored()
      ensures StorageKey in old(store) ==> currentApps == old(store)[StorageKey] && store == old(store)
      ensures StorageKey !in old(store) ==>
        currentApps == DefaultApps() && store == old(store)[StorageKey := DefaultApps()]
    {
      currentApps := Load();
    }

    /** The remove handler: every app with that id leaves the list, the
        others keep their order, and the new list is saved. */
    method RemoveApp(id: string)
      modifies this
      ensures currentApps == WithoutId(old(currentApps), id)
      ensures store == old(store)[StorageKey := currentApps]
      ensures Mirrored()
      ensures id !in Ids(currentApps)
      ensures old(UniqueIds(currentApps)) ==> UniqueIds(currentApps)
    {
      if UniqueIds(currentApps) {
        WithoutIdKeepsUnique(currentApps, id);
      }
      currentApps := WithoutId(currentApps, id);
      Save(currentApps);
    }

    /** The add handler: a submission with a blank name or url changes
        nothing; otherwise the new app, under the fresh id, is appended and
        the new list is saved. */
    method AddApp(rawName: string, rawUrl: string, width: Option<int>, height: Option<int>, freshId: string)
      requires freshId !in Ids(currentApps)
      requires forall w :: w in Library() ==> freshId !in w.apps
      modifies this
      ensures NewApp(freshId, rawName, rawUrl, width, height).None? ==>
        currentApps == old(currentApps) && store == old(store)
      ensures NewApp(freshId, rawName, rawUrl, width, height).Some? ==>
        && currentApps == old(currentApps) + [NewApp(freshId, rawName, rawUrl, width, height).value]
        && store == old(store)[StorageKey := currentApps]
        && Mirrored()
      ensures old(UniqueIds(currentApps)) ==> UniqueIds(currentApps)
      ensures ListWithAvailability(currentApps) == ListWithAvailability(old(currentApps))
    {
      var app := NewApp(freshId, rawName, rawUrl, width, height);
      if app.None? {
        return;
      }
      if UniqueIds(currentApps) {
        AppendFreshKeepsUnique(currentApps, app.value);
      }
      AddKeepsCatalog(currentApps, app.value);
      currentApps := currentApps + [app.value];
      Save(currentApps);
    }

    /** The reset handler: the list and the stored record both become the
        built-in apps. */
    method ResetToDefaults()
      modifies this
      ensures currentApps == DefaultApps()
      ensures store == old(store)[StorageKey := DefaultApps()]
      ensures Mirrored() && UniqueIds(currentApps)
    {
      DefaultIdsUnique();
      currentApps := DefaultApps();
      Save(currentApps);
    }

    /** The "Open" handler: the window request for the first current app
        with that id, if there is one. */
    method OnLaunchClick(id: string, availWidth: Option<int>) returns (request: Option<WindowRequest>)
      ensures request.None? <==> id !in Ids(currentApps)
      ensures request.Some? ==> request.value.focused && request.value.kind == "popup"
      ensures request == LaunchAppById(id, currentApps, availWidth)
    {
      request := LaunchAppById(id, currentApps, availWidth);
    }

    /** The workflow handler: the requests `launchWorkflow` issues for the
        catalog entry with that id, resolved against the current list. */
    method OnWorkflowClick(workflowId: string, availWidth: Option<int>) returns (requests: Option<seq<WindowRequest>>)
      ensures requests == LaunchWorkflowById(workflowId, currentApps, availWidth)
      ensures requests.Some? ==> |requests.value| > 0 ==> requests.value[0].focused
    {
      requests := LaunchWorkflowById(workflowId, currentApps, availWidth);
    }
  }

  /** First run: the first load seeds the built-in apps; a second load
      returns the same list without writing again. */
  method SeedThenReload() returns (first: seq<App>, second: seq<App>, stored: Store)
    ensures first == DefaultApps() && second == DefaultApps()
    ensures stored == map[StorageKey := DefaultApps()]
  {
    var registry := new AppRegistry(map[]);
    first := registry.Load();
    second := registry.Load();
    stored := registry.store;
  }

  /** Saving replaces the record wholesale: the next load returns exactly
      what was saved, whatever the store held before. */
  method SaveThenLoad(initial: Store, apps: seq<App>) returns (loaded: seq<App>, stored: Store)
    ensures loaded == apps
    ensures stored == initial[StorageKey := apps]
  {
    var registry := new AppRegistry(initial);
    registry.Save(apps);
    loaded := registry.Load();
    stored := registry.store;
  }

  /** Removing an app a workflow needs disables that workflow's Launch
      button, and the saved list no longer holds the app. */
  method RemoveThenCheck(initial: Store, id: string, w: Workflow) returns (enabled: bool, saved: seq<App>)
    requires id in w.apps
    ensures !enabled
    ensures id !in Ids(saved)
  {
    var registry := new AppRegistry(initial);
    registry.Init();
    registry.RemoveApp(id);
    RemoveDisables(w, registry.currentApps, id);
    enabled := Launchable(w, registry.currentApps);
    saved := registry.store[StorageKey];
  }
}
