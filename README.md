# Quick-launch popup: a Dafny model

This project models the logic of the browser-extension popup in
`poc-extension/popup.js`. The popup keeps a personal list of quick-launch
web apps, mirrored to the synced storage area under the key
`floatbrowserQuickApps`. It offers a static catalog of workflows (named
groups of app ids) and opens apps as popup windows laid out in a cascade.

The model has seven modules, one file each:

- `Wrappers` (`wrappers.dfy`): `Option`, used for lookups, `find`, form numbers and the screen width.
- `Seqs` (`seqs.dfy`): `Array.prototype.filter` and `Array.prototype.find` as functions on sequences, with their laws.
- `Text` (`text.dfy`): `String.prototype.trim` over the ECMAScript whitespace and line-terminator characters.
- `Apps` (`apps.dfy`): the app record and the built-in app set.
  - The id index built by `new Map(...)`, where the last app with a given id wins.
  - Removing apps by id.
- `Placement` (`placement.dfy`): the window request of `launchFloatingWindow`.
  - Size fallback 460 x 720.
  - Cascade of 30 px left and 40 px down per stack position, from 40 px off the right edge and 80 px from the top.
  - Left edge clamped at 0; only position 0 is focused.
  - The batch of requests for a multi-app launch.
- `Workflows` (`workflows.dfy`): the catalog.
  - Each workflow's missing ids and whether its Launch button is enabled.
  - Resolution of a workflow to the apps it opens.
  - The click handlers for workflows and for single apps.
- `Registry` (`registry.dfy`): class `AppRegistry`.
  - Its fields are `currentApps` and the `store`.
  - Its methods are `Load`, `Save`, `Init` and the remove, add and reset handlers, each stating the whole new state.
  - Small client methods show seeding, save-then-load and remove-then-check.

The browser's window creation is not called. Each launch returns the
request records it would pass to it, in order. The screen width is a
parameter: `None` stands for a missing `window.screen`, which gives 1280.
New app ids are a parameter of the add handler. It requires that the id is
not yet in use, which stands for `crypto.randomUUID`. Numbers typed into
the form arrive as `Option<int>`, with `None` for a value that is not
finite. An empty number field reads as `Number("") == 0`, so it arrives as
`Some(0)`: it is stored as 0, and opening the app then falls back to
460 x 720 because 0 is falsy.

The model follows the code's exact behaviour in two places where a looser
reading would differ:

- Only a falsy size (0; NaN cannot occur in the model) is replaced by 460 x 720 when a window opens. A negative size passes through unchanged.
- A workflow's missing ids are the ordered list that `filter` builds, duplicates included, not a set.

A few facts go beyond the basic geometry and list rules:

- The add handler does not re-render the workflow catalog. The fresh id comes from `crypto.randomUUID`, so no catalog workflow names it. `AddApp` requires exactly that, and then ensures that the catalog's availability is unchanged (`AddKeepsCatalog`). So skipping the re-render loses nothing.
- `new Map(...)` keeps the last app of a repeated id (`AppMapLastWins`), while the "Open" handler's `find` takes the first. The two agree whenever ids are unique, and every handler preserves that.

## Model

| member | source | states |
|---|---|---|
| `Seqs.Filter` | poc-extension/popup.js:107 | the result keeps exactly the elements satisfying the predicate and is no longer than the input |
| `Seqs.FilterAppend` | poc-extension/popup.js:202 | filtering distributes over concatenation, so the selection keeps the input's order |
| `Seqs.FilterKeepsAll` | poc-extension/popup.js:202-203 | nothing is dropped iff every element satisfies the predicate, and then the input is returned |
| `Seqs.FilterPartition` | poc-extension/popup.js:202 | the elements kept by a predicate and by its negation together number the whole input |
| `Seqs.FilterCongruence` | poc-extension/popup.js:202 | predicates that agree on the input's elements filter it to the same result |
| `Seqs.Find` | poc-extension/popup.js:98 | None iff no element matches; otherwise a matching element with no match before it |
| `Seqs.FindIsFirstOfFilter` | poc-extension/popup.js:98 | `find` gives the head of what `filter` gives with the same predicate |
| `Text.TrimStart` | poc-extension/popup.js:129 | the result is a suffix, what was dropped is whitespace, and it does not begin with whitespace |
| `Text.TrimEnd` | poc-extension/popup.js:129 | the result is a prefix, what was dropped is whitespace, and it does not end with whitespace |
| `Text.Trim` | poc-extension/popup.js:129-130 | empty iff the input is all whitespace; otherwise the piece of the input left when the whitespace before and after it is dropped, with no whitespace at either end |
| `Apps.DefaultApps` | poc-extension/popup.js:3-53 | the seven built-in apps with their ids, names, urls and sizes, ids distinct |
| `Apps.DefaultIdsUnique` | poc-extension/popup.js:3-53 | the seven built-in apps have distinct ids |
| `Apps.AppMap` | poc-extension/popup.js:199 | the index's keys are exactly the present ids, and each id maps to an app of the list carrying it |
| `Apps.AppMapLastWins` | poc-extension/popup.js:220 | an id maps to the last app in the list that carries it |
| `Apps.AppMapOfUnique` | poc-extension/popup.js:220 | with unique ids every app is what the index gives for its id |
| `Apps.WithoutId` | poc-extension/popup.js:107 | no app with the id remains, every other app remains, nothing is added, and an absent id changes nothing |
| `Apps.WithoutIdKeepsUnique` | poc-extension/popup.js:107 | removal keeps ids unique |
| `Apps.AppendFreshKeepsUnique` | poc-extension/popup.js:138-146 | appending an app under a fresh id keeps ids unique |
| `Placement.LaunchFloatingWindow` | poc-extension/popup.js:232-248 | kind "popup"; the app's url; focused iff stack index 0; size the app's or 460 x 720 when 0 and never 0; left never negative, equal to screen width - width - 40 - 30 x index when that is not negative, else 0; top 80 + 40 x index for index >= 0 |
| `Placement.LaunchMany` | poc-extension/popup.js:225-227 | one request per app, the i-th app at stack index i |
| `Placement.LaunchManyFocusAndOrder` | poc-extension/popup.js:226 | in a batch only the first request is focused, all are popups with their app's url, and each is 40 px below the previous |
| `Placement.CascadeStep` | poc-extension/popup.js:236-237 | while unclamped, the next stack position is exactly 30 px left and 40 px down |
| `Placement.CascadeLeftNonIncreasing` | poc-extension/popup.js:236 | the left edge never increases with the stack index |
| `Placement.CascadeExample` | poc-extension/popup.js:236-237 | width 420 on a 1280 screen gives (820, 80), (790, 120), (760, 160) |
| `Placement.ClampAndFallbackExample` | poc-extension/popup.js:233-236 | width 2000 on a 1280 screen gives left 0; size 0 x 0 becomes 460 x 720 at left 780 on the fallback screen |
| `Workflows.Library` | poc-extension/popup.js:55-74 | the three catalog workflows with their ids, names, descriptions and app ids, ids distinct |
| `Workflows.MissingIds` | poc-extension/popup.js:199-202 | exactly the workflow's ids absent from the current list, no more entries than the workflow has |
| `Workflows.LaunchableIff` | poc-extension/popup.js:203 | the Launch button is enabled iff every id of the workflow is present |
| `Workflows.ListWithAvailability` | poc-extension/popup.js:197-216 | one row per catalog workflow, in order, with its missing ids and enabled iff all its ids are present |
| `Workflows.Resolve` | poc-extension/popup.js:221-223 | no more apps than ids, each taken from the index |
| `Workflows.ResolveIsLookupOfPresent` | poc-extension/popup.js:221-223 | resolution is the lookup of exactly the present ids, in declared order |
| `Workflows.ResolveWorkflow` | poc-extension/popup.js:220-223 | every launched app is a current app whose id the workflow names, and there are at most as many as ids |
| `Workflows.ResolvedPlusMissing` | poc-extension/popup.js:220-223 | resolved apps and missing ids together number the workflow's ids |
| `Workflows.ResolvesAllIffLaunchable` | poc-extension/popup.js:220-223 | nothing is dropped iff the workflow is launchable |
| `Workflows.ResolveLaunchable` | poc-extension/popup.js:220-223 | for a launchable workflow the i-th launched app carries the workflow's i-th id |
| `Workflows.LaunchWorkflow` | poc-extension/popup.js:219-227 | one request per resolved app at its position, as many as ids iff launchable, only the first focused |
| `Workflows.LaunchWorkflowById` | poc-extension/popup.js:115-124 | None iff no catalog workflow has the id; otherwise the launch of a catalog workflow with that id |
| `Workflows.LaunchAppById` | poc-extension/popup.js:94-103 | None iff no current app has the id; otherwise a focused request at the top position for the first app with that id |
| `Workflows.AddKeepsAvailability` | poc-extension/popup.js:146-148 | an added app whose id no workflow names changes no missing ids and no Launch button |
| `Workflows.AddKeepsCatalog` | poc-extension/popup.js:146-148 | an added app whose id no catalog workflow names leaves every row of the rendered catalog unchanged |
| `Workflows.RemoveDisables` | poc-extension/popup.js:105-110 | removing an app a workflow names makes that id missing and disables the workflow |
| `Workflows.DefaultsLaunchEveryWorkflow` | poc-extension/popup.js:55-74 | with the built-in apps all three catalog workflows are launchable |
| `Workflows.DailyPlanningMissingLinear` | poc-extension/popup.js:199-203 | with only Calendar and Notion, Daily Planning misses exactly "linear" and is disabled |
| `Workflows.DailyPlanningResolves` | poc-extension/popup.js:220-223 | with the built-in apps Daily Planning resolves to Calendar, Notion, Linear in order |
| `Workflows.DailyPlanningLaunch` | poc-extension/popup.js:219-227 | then three requests go out at tops 80, 120, 160, only the first focused |
| `Registry.NewApp` | poc-extension/popup.js:128-144 | None iff the name or url is all whitespace; otherwise the fresh id, trimmed non-empty name and url, and the given sizes or 460 / 720 for non-finite ones |
| `Registry.NonNumericHeightDefaults` | poc-extension/popup.js:143 | a non-numeric height is stored as 720 |
| `Registry.AppRegistry.constructor` | poc-extension/popup.js:82 | the in-memory list starts empty over the given store |
| `Registry.AppRegistry.Save` | poc-extension/popup.js:171-173 | the stored record becomes the given list and no other key changes |
| `Registry.AppRegistry.Load` | poc-extension/popup.js:162-169 | a present record is returned unchanged with no write; an absent one is seeded with the built-in apps, which are returned |
| `Registry.AppRegistry.Init` | poc-extension/popup.js:86-87 | the in-memory list becomes the loaded list and mirrors the store |
| `Registry.AppRegistry.RemoveApp` | poc-extension/popup.js:105-108 | the list loses every app with the id and keeps the rest in order; the store holds the new list; unique ids stay unique |
| `Registry.AppRegistry.AddApp` | poc-extension/popup.js:126-147 | a blank name or url changes neither list nor store; otherwise exactly the new app is appended, the store holds the new list, unique ids stay unique, and the catalog's availability is unchanged |
| `Registry.AppRegistry.ResetToDefaults` | poc-extension/popup.js:153-155 | the list and the stored record become the built-in apps |
| `Registry.AppRegistry.OnLaunchClick` | poc-extension/popup.js:94-102 | a request iff some current app has the id, and then it is focused and a popup |
| `Registry.AppRegistry.OnWorkflowClick` | poc-extension/popup.js:115-123 | the requests of the catalog workflow with that id against the current list, the first focused |
| `Registry.SeedThenReload` | poc-extension/popup.js:162-169 | on an empty store both loads return the built-in apps and the store holds just them |
| `Registry.SaveThenLoad` | poc-extension/popup.js:162-173 | after saving a list, loading returns exactly it |
| `Registry.RemoveThenCheck` | poc-extension/popup.js:105-110 | after removing an app a workflow needs, that workflow is disabled and the saved list lacks the app |

## Left out

- Rendering (`renderApps`, the `innerHTML` templates, `new URL(app.url).host`), event wiring, `formEl.reset` and `showToast` with its 2200 ms timer: these are UI effects, not logic.
- `chrome.windows.create` and the `Promise.all` fan-out/fan-in. Launches return their requests in issue order. Settlement order, the rejection of a failed batch and the success toast are not modelled, because they depend on the browser.
- `chrome.storage.sync` is an in-memory map with no failures, delays or cross-device sync. Concurrent popups losing each other's writes is not modelled.
- The storage key is not checked for a stored value that is falsy but not absent (`null`, `0`, `""`). The model's store can only hold app lists, and any list, even an empty one, is truthy.
- `Apps.App` holds integer sizes. A stored size that is fractional, a string or NaN cannot be represented, and the form's number parsing (`Number`, `Number.isFinite`) is abstracted to `Option<int>`.
- `structuredClone`: the model's lists are values, so later changes cannot reach the built-in defaults.
- `crypto.randomUUID` is a parameter that must be unused by the current apps and by the catalog workflows; the form field lookup (`formData.get`) is assumed to find its field.
- Window geometry is not checked against the real screen. A width larger than the screen is clamped on the left and may still overflow on the right, as in the source.
