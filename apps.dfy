/** The quick-launch app record, the built-in app set, and the two list
    views of it the popup uses: the id index (`new Map(...)`) and the list
    with one id removed. */
module Apps {
  import opened Seqs

  /** One quick-launch app: a url opened in a popup window of the given size. */
  datatype App = App(id: string, name: string, url: string, width: int, height: int)

  /** The window size used when an app's own size is missing. */
  const DefaultWidth: int := 460
  const DefaultHeight: int := 720

  /** The built-in app set seeded on first run and restored by reset. */
  function DefaultApps(): (r: seq<App>)
    ensures |r| == 7
    ensures forall i, j :: 0 <= i < j < |r| ==> r[i].id != r[j].id
  {
    [ App("gmail", "Gmail", "https://mail.google.com", 420, 720),
      App("notion", "Notion HQ", "https://www.notion.so", 960, 720),
      App("linear", "Linear", "https://linear.app", 520, 720),
      App("calendar", "Google Calendar", "https://calendar.google.com", 720, 720),
      App("slack", "Slack", "https://app.slack.com/client", 420, 720),
      App("figma", "Figma", "https://www.figma.com/files", 1200, 780),
      App("spotify", "Spotify", "https://open.spotify.com", 420, 640) ]
  }

  /** The ids present in a list of apps. */
  function Ids(apps: seq<App>): set<string> {
    set a | a in apps :: a.id
  }

  /** No two apps in the list share an id. */
  predicate UniqueIds(apps: seq<App>) {
    forall i, j :: 0 <= i < j < |apps| ==> apps[i].id != apps[j].id
  }

  lemma DefaultIdsUnique()
    ensures UniqueIds(DefaultApps())
  {
  }

  /** `new Map(apps.map((app) => [app.id, app]))`: the entries are inserted in
      list order, so for a repeated id the last app wins. */
  function AppMap(apps: seq<App>): (m: map<string, App>)
    ensures m.Keys == Ids(apps)
    ensures forall id :: id in m ==> m[id] in apps && m[id].id == id
  {
    if apps == [] then map[]
    else
      var last := apps[|apps| - 1];
      assert apps == apps[..|apps| - 1] + [last];
      AppMap(apps[..|apps| - 1])[last.id := last]
  }

  /** The index maps an id to the last app in the list that carries it. */
  lemma {:induction false} AppMapLastWins(apps: seq<App>, k: nat)
    requires k < |apps|
    requires forall j :: k < j < |apps| ==> apps[j].id != apps[k].id
    ensures apps[k].id in AppMap(apps) && AppMap(apps)[apps[k].id] == apps[k]
  {
    if k < |apps| - 1 {
      var init := apps[..|apps| - 1];
      assert forall j :: k < j < |init| ==> init[j] == apps[j];
      AppMapLastWins(init, k);
    }
  }

  /** With unique ids, every app is what the index gives for its id. */
  lemma AppMapOfUnique(apps: seq<App>, k: nat)
    requires UniqueIds(apps) && k < |apps|
    ensures AppMap(apps)[apps[k].id] == apps[k]
  {
    AppMapLastWins(apps, k);
  }

  /** The predicate `(app) => app.id !== id`. */
  function HasOtherId(id: string): App -> bool {
    (a: App) => a.id != id
  }

  /** `apps.filter((app) => app.id !== id)`: the apps whose id differs from
      `id`, in their original order. */
  function WithoutId(apps: seq<App>, id: string): (r: seq<App>)
    ensures id !in Ids(r)
    ensures forall i :: 0 <= i < |r| ==> r[i] in apps
    ensures forall i :: 0 <= i < |apps| && apps[i].id != id ==> apps[i] in r
    ensures id !in Ids(apps) ==> r == apps
  {
    FilterKeepsAll(apps, HasOtherId(id));
    Filter(apps, HasOtherId(id))
  }

  /** Removing apps keeps the ids unique. */
  lemma {:induction false} WithoutIdKeepsUnique(apps: seq<App>, id: string)
    requires UniqueIds(apps)
    ensures UniqueIds(WithoutId(apps, id))
  {
    FilterKeepsUnique(apps, HasOtherId(id));
  }

  lemma {:induction false} FilterKeepsUnique(apps: seq<App>, p: App -> bool)
    requires UniqueIds(apps)
    ensures UniqueIds(Filter(apps, p))
  {
    if apps != [] {
      var rest := apps[1..];
      assert forall j :: 0 <= j < |rest| ==> rest[j] == apps[j + 1];
      FilterKeepsUnique(rest, p);
      var fr := Filter(rest, p);
      assert forall j :: 0 <= j < |fr| ==> fr[j].id != apps[0].id by {
        forall j | 0 <= j < |fr| ensures fr[j].id != apps[0].id {
          var m :| 0 <= m < |rest| && rest[m] == fr[j];
        }
      }
    }
  }

  /** Appending an app whose id is fresh keeps the ids unique. */
  lemma AppendFreshKeepsUnique(apps: seq<App>, a: App)
    requires UniqueIds(apps) && a.id !in Ids(apps)
    ensures UniqueIds(apps + [a])
  {
    forall i | 0 <= i < |apps| ensures apps[i].id != a.id {
      assert apps[i] in apps;
    }
  }
}
