/** Where a popup window opens: the cascade geometry of
    `launchFloatingWindow`, and the batch of requests a multi-app launch
    issues, one per app, at consecutive stack positions. */
module Placement {
  import opened Wrappers
  import opened Apps

  /** The screen width assumed when the host reports none. */
  const FallbackScreenWidth: int := 1280
  /** Gap between the first window and the right edge of the screen. */
  const RightGap: int := 40
  /** Distance of the first window from the top of the screen. */
  const TopGap: int := 80
  /** Each further window moves this far left ... */
  const StepLeft: int := 30
  /** ... and this far down. */
  const StepDown: int := 40

  /** The window-creation request handed to the browser. */
  datatype WindowRequest = WindowRequest(
    url: string, kind: string, focused: bool,
    width: int, height: int, left: int, top: int)

  /** `Math.max`. */
  function Max(a: int, b: int): int {
    if a >= b then a else b
  }

  /** `Number(v) || fallback` for a numeric `v`: zero is falsy and is replaced. */
  function NonZeroOr(v: int, fallback: int): int {
    if v == 0 then fallback else v
  }

  /** `window.screen?.availWidth ?? 1280`. */
  function ScreenWidth(availWidth: Option<int>): int {
    availWidth.GetOr(FallbackScreenWidth)
  }

  /** The request `launchFloatingWindow(app, stackIndex)` issues. */
  function LaunchFloatingWindow(app: App, stackIndex: int, availWidth: Option<int>): (r: WindowRequest)
    ensures r.url == app.url && r.kind == "popup"
    ensures r.focused <==> stackIndex == 0
    ensures r.width == (if app.width == 0 then DefaultWidth else app.width)
    ensures r.height == (if app.height == 0 then DefaultHeight else app.height)
    ensures r.width != 0 && r.height != 0
    ensures r.left >= 0 && r.top >= 0
    ensures var x := ScreenWidth(availWidth) - r.width - RightGap - StepLeft * stackIndex;
      (x >= 0 ==> r.left == x) && (x < 0 ==> r.left == 0)
    ensures stackIndex >= 0 ==> r.top == TopGap + StepDown * stackIndex
  {
    var width := NonZeroOr(app.width, DefaultWidth);
    var height := NonZeroOr(app.height, DefaultHeight);
    var screenWidth := ScreenWidth(availWidth);
    var left := Max(0, screenWidth - width - RightGap - stackIndex * StepLeft);
    var top := Max(0, TopGap + stackIndex * StepDown);
    WindowRequest(app.url, "popup", stackIndex == 0, width, height, left, top)
  }

  /** `apps.map((app, index) => launchFloatingWindow(app, index))`: the i-th
      app is requested at stack position i. */
  function LaunchMany(apps: seq<App>, availWidth: Option<int>): (r: seq<WindowRequest>)
    ensures |r| == |apps|
    ensures forall i :: 0 <= i < |r| ==> r[i] == LaunchFloatingWindow(apps[i], i, availWidth)
  {
    seq(|apps|, i requires 0 <= i < |apps| => LaunchFloatingWindow(apps[i], i, availWidth))
  }

  /** In a batch only the first window takes focus, every window is a popup,
      and the windows go down the screen by one step per position. */
  lemma LaunchManyFocusAndOrder(apps: seq<App>, availWidth: Option<int>)
    ensures var r := LaunchMany(apps, availWidth);
      && (|r| > 0 ==> r[0].focused)
      && (forall i :: 0 < i < |r| ==> !r[i].focused)
      && (forall i :: 0 <= i < |r| ==> r[i].kind == "popup" && r[i].url == apps[i].url)
      && (forall i :: 0 <= i < |r| - 1 ==> r[i + 1].top == r[i].top + StepDown)
  {
  }

  /** Between two consecutive positions at which the window is not pushed
      against the left edge, the window moves exactly one step left and one
      step down. */
  lemma CascadeStep(app: App, stackIndex: nat, availWidth: Option<int>)
    requires ScreenWidth(availWidth) - NonZeroOr(app.width, DefaultWidth) - RightGap
             - StepLeft * (stackIndex + 1) >= 0
    ensures var a := LaunchFloatingWindow(app, stackIndex, availWidth);
      var b := LaunchFloatingWindow(app, stackIndex + 1, availWidth);
      b.left == a.left - StepLeft && b.top == a.top + StepDown
  {
  }

  /** The left edge never increases along a cascade. */
  lemma CascadeLeftNonIncreasing(app: App, i: nat, j: nat, availWidth: Option<int>)
    requires i <= j
    ensures LaunchFloatingWindow(app, j, availWidth).left <= LaunchFloatingWindow(app, i, availWidth).left
  {
  }

  /** A 420-pixel-wide app on a 1280-pixel screen opens at (820, 80), then
      (790, 120), then (760, 160). */
  lemma CascadeExample()
    ensures var gmail := DefaultApps()[0];
      && LaunchFloatingWindow(gmail, 0, Some(1280)).left == 820
      && LaunchFloatingWindow(gmail, 0, Some(1280)).top == 80
      && LaunchFloatingWindow(gmail, 1, Some(1280)).left == 790
      && LaunchFloatingWindow(gmail, 1, Some(1280)).top == 120
      && LaunchFloatingWindow(gmail, 2, Some(1280)).left == 760
      && LaunchFloatingWindow(gmail, 2, Some(1280)).top == 160
  {
  }

  /** A window wider than the screen is pinned to the left edge, and a
      zero size falls back to 460 x 720. */
  lemma ClampAndFallbackExample()
    ensures LaunchFloatingWindow(App("wide", "Wide", "https://example.com", 2000, 720), 0, Some(1280)).left == 0
    ensures var r := LaunchFloatingWindow(App("z", "Zero", "https://example.com", 0, 0), 0, None);
      r.width == 460 && r.height == 720 && r.left == 1280 - 460 - 40
  {
  }
}
