# Public IP tray: the status controller

A model of the controller in `main.js` of the public-ip-tray desktop utility. The utility shows
the machine's public IP address in the menu-bar tray. It looks the address up at start, when
the user picks "Refresh" and when the renderer reports a connectivity change once the app has
settled. It also offers "Copy IP Address to Clipboard" and a "Show Status in Menu Bar" checkbox.

The source keeps this state in module-level variables (`initialized`, `showStatus`,
`publicIP`), in the tray's title and image, and in fields of the `trayMenu` template array that
`toggleStatus` rewrites in place. The model has two layers:

- `TrayState` (tray_state.dfy) holds the same state as one datatype value, plus one function
  per handler. Timers and the pending address lookup become counters of scheduled callbacks.
  The callback each counter stands for is an explicit event (`Step`, `Run`).
  `Consistent` is the display invariant: the tray is in exactly one of three mutually exclusive shapes (online,
  refreshing, offline), and the checkbox agrees with `showStatus`.
- `Tray.Controller` (tray_controller.dfy) is a class with the source's variables, the tray's
  title and image, and one `menu` record holding the rewritten fields of entries 0, 1, 2 and 4.
  Its methods update these as the handlers do. Each method is proved to produce exactly the
  state its `TrayState` function describes. Every event method also keeps `Valid()`, the
  display invariant on the fields. `ToggleStatus`, the rendering routine the handlers call,
  does not need it.
- `TrayProperties` (tray_properties.dfy) and `TrayScenarios` (tray_scenarios.dfy) hold the
  lemmas. The first proves the per-branch and per-event facts and the invariant over every
  reachable state. The second proves concrete event sequences from start.

JavaScript truthiness is modelled where the source relies on it: `if (publicIP)` and
`publicIP || "Offline"` treat the empty string like `null` (`TrayState.Truthy`).

The Refresh entry is disabled while refreshing (main.js:151), which suggests one lookup at a
time. The code has no such guard. Every connectivity change after settling calls
`getIpAddress`, even during a refresh (main.js:177-181). A Refresh click accepted before the entry was disabled still fires
after its 200 ms delay (main.js:36-38). The model follows the code.
`TrayScenarios.ConnectivityLookupsOverlap` and `TrayScenarios.MenuRefreshOverlapsConnectivity`
show two lookups scheduled at once. The checkbox is labelled "Show Status in Menu Bar"
(main.js:47), yet only the re-render branch honours it (main.js:161): the online, refreshing
and offline branches write the title regardless (main.js:139, 146, 153).
`TrayScenarios.HiddenStatusShownAgainByRefresh` shows this.

## Model

| member | source | states |
|---|---|---|
| TrayState.ShownTitle | main.js:161 | the re-render title is blank exactly when the status is hidden, and is the address when that is non-empty and shown |
| TrayState.ToggleStatus | main.js:137-164 | rendering never changes `initialized`, `showStatus`, `publicIP` or any scheduled callback |
| TrayState.BeginRefresh | main.js:119-121 | getIpAddress keeps the address and `initialized`, and schedules exactly one more lookup |
| TrayState.FetchSucceeded | main.js:124-128 | a resolved lookup stores the address, consumes one lookup and schedules one settle timer |
| TrayState.FetchFailed | main.js:129-133 | a failed lookup sets the address to null, consumes one lookup and schedules one settle timer |
| TrayState.Settle | main.js:107-111 | the settle timer sets `initialized` and consumes itself; nothing else changes |
| TrayState.ConnectivityChanged | main.js:177-181 | before `initialized` the state is unchanged; afterwards a lookup is scheduled; the address is kept |
| TrayState.ClickRefresh | main.js:33-41 | a Refresh click schedules a delayed refresh exactly when the entry is enabled; the click itself changes nothing else |
| TrayState.RefreshTimer | main.js:36-38 | the delayed Refresh callback consumes itself, schedules one lookup and shows the refreshing display; address, setting and `initialized` kept |
| TrayState.ClickShowStatus | main.js:50-51 | a Show Status click schedules one delayed toggle and leaves `showStatus` and the display alone until it fires |
| TrayState.ToggleShowStatus | main.js:51-54 | the delayed toggle flips `showStatus`, and the checkbox then equals it; address and `initialized` kept |
| TrayState.Copy | main.js:113-117 | the clipboard text is present exactly when `publicIP` is truthy, and is then `publicIP` |
| TrayProperties.OnlineBranch | main.js:138-144 | "online": title is the address, both images online, label "Online: " + address, Copy visible, Refresh enabled; the result does not depend on `showStatus` |
| TrayProperties.RefreshingBranch | main.js:145-151 | "refreshing": title "Refreshing...", label "Refreshing", images offline, Copy hidden, Refresh disabled, so a Refresh click is refused |
| TrayProperties.OfflineBranch | main.js:152-158 | "offline": title and label "Offline", images offline, Copy hidden, Refresh enabled |
| TrayProperties.RerenderBranch | main.js:159-162 | any other status: checkbox := `showStatus`; title "" if hidden, else the address if truthy, else "Offline"; no other field changes |
| TrayProperties.ShowStatusFlipsOnce | main.js:50-54 | the toggle flips `showStatus` once; the checkbox agrees; address, images and other entries are unchanged |
| TrayProperties.BeginRefreshShowsRefreshing | main.js:119-121 | the refresh cycle enters the refreshing display shape without changing the address |
| TrayProperties.FetchSucceededShowsOnline | main.js:124-128 | success stores the address and shows the online status; a settle timer is scheduled |
| TrayProperties.FetchFailedShowsOffline | main.js:129-133 | failure clears the address and shows the offline status; a settle timer is scheduled |
| TrayProperties.StepInitialized | main.js:107-111 | no event clears `initialized`, and only the settle timer sets it |
| TrayProperties.InitializedStaysSet | main.js:14 | once `initialized` is true it stays true over any sequence of events |
| TrayProperties.ConnectivityGate | main.js:177-181 | a connectivity change is dropped before `initialized`; after, it shows the refreshing display and schedules one more lookup, even mid-refresh |
| TrayProperties.StepPreservesConsistent | main.js:137-164 | every event keeps the display invariant |
| TrayProperties.RunPreservesConsistent | main.js:137-164 | any sequence of events keeps the display invariant |
| TrayProperties.ReachableIsConsistent | main.js:166-181 | every state reachable from app start satisfies the display invariant |
| TrayProperties.ViewsExclusive | main.js:137-158 | no state is in two of the online, refreshing and offline display shapes at once |
| TrayProperties.CopyVisibleIffOnline | main.js:143 | in a consistent state, the Copy entry is visible exactly in the online shape; there the clipboard gets the address unless it is empty; offline gives nothing |
| TrayProperties.RefreshingLabelHasLookup | main.js:145-151 | in a consistent state, "Refreshing" is shown only while a lookup is scheduled, and Refresh is then disabled |
| TrayProperties.CopyVisibleOnlyOnline | main.js:143 | in a reachable state, the Copy entry is visible exactly in the online shape; there the clipboard gets the address unless it is empty; offline gives nothing |
| TrayProperties.RefreshingHasLookupInFlight | main.js:145-151 | "Refreshing" is shown only while a lookup is scheduled, and Refresh is then disabled |
| TrayProperties.OnlineLabelIsNotRefreshing | main.js:141 | helper for RefreshingLabelHasLookup: a label starting with "Online: " never equals "Refreshing" |
| TrayScenarios.StartResolves | main.js:166-175 | start then success: online with the address as title, copyable; `initialized` after the settle timer |
| TrayScenarios.StartFails | main.js:129-133 | start then failure: offline, title "Offline", nothing to copy |
| TrayScenarios.EarlyConnectivityIgnored | main.js:177-181 | connectivity changes before settling leave the state unchanged |
| TrayScenarios.HideStatusWhileOnline | main.js:50-54 | hiding the status while online blanks the title and keeps the address |
| TrayScenarios.HiddenStatusShownAgainByRefresh | main.js:139 | with the status hidden, a resolved lookup writes the address into the title |
| TrayScenarios.ConnectivityLookupsOverlap | main.js:177-181 | two connectivity changes after settling schedule two lookups at once |
| TrayScenarios.MenuRefreshOverlapsConnectivity | main.js:35-39 | a Refresh click accepted while online still fires after a connectivity refresh began: two lookups |
| Tray.Controller.constructor | main.js:14-75 | the initial variables and menu template, then the `ready` handler's refresh; the invariant holds |
| Tray.Controller.ToggleStatus | main.js:137-164 | the fields become exactly `TrayState.ToggleStatus` of the old ones |
| Tray.Controller.BeginRefresh | main.js:119-135 | the fields become `TrayState.BeginRefresh` of the old ones; the invariant is kept |
| Tray.Controller.FetchSucceeded | main.js:124-128 | the fields become `TrayState.FetchSucceeded`; the invariant is kept |
| Tray.Controller.FetchFailed | main.js:129-133 | the fields become `TrayState.FetchFailed`; the invariant is kept |
| Tray.Controller.Settle | main.js:107-111 | the fields become `TrayState.Settle`; the invariant is kept |
| Tray.Controller.ConnectivityChanged | main.js:177-181 | returns whether a refresh started, which is exactly the old `initialized`; fields as `TrayState.ConnectivityChanged` |
| Tray.Controller.ClickRefresh | main.js:33-41 | returns whether the click was accepted, which is exactly whether Refresh was enabled |
| Tray.Controller.RefreshTimerFired | main.js:36-38 | the fields become `TrayState.RefreshTimer`; the invariant is kept |
| Tray.Controller.ClickShowStatus | main.js:46-56 | the fields become `TrayState.ClickShowStatus`; the invariant is kept |
| Tray.Controller.ToggleShowStatus | main.js:51-54 | the fields become `TrayState.ToggleShowStatus`; the invariant is kept |
| Tray.Controller.Copy | main.js:113-117 | returns the address exactly when `publicIP` is truthy, nothing otherwise; on a valid controller with Copy visible, the address is present and returned unless empty |

## Left out

- The Electron objects `BrowserWindow`, `Tray`, `nativeImage` and `Menu.buildFromTemplate`, and the `app` lifecycle with dock hiding (main.js:77-105, 163, 166-175). They are presentation and foreign calls. The tray and menu are plain fields, and the images are the three values of `Icon`.
- The HTTP request to api.ipify.org and its JSON parsing (main.js:122-124) are network I/O. They become the events `FetchResolved(ip)` and `FetchRejected`. A response whose `ip` field is missing or not a string is not modelled.
- The `setTimeout` delays (INITIALIZATION_DELAY, MENU_ACTION_DELAY, REFRESH_DELAY, main.js:8-10) are timing. Each delay is a counter of scheduled callbacks, and its expiry is a separate event that may arrive in any order with the others. Their durations are not modelled.
- The `clipboard.writeText` side effect (main.js:115) is external. `Copy` returns the text to write.
- The inert entries "Launch on System Startup" and "Check for Updates...", plus the About and Quit actions (main.js:42-45, 58-74). They hold no logic.
- Events before the `ready` handler are not modelled: before it runs, the window that reports connectivity and the tray menu do not exist.
- TrayState.ToggleStatus requires a present `publicIP` for the "online" branch, because the source reaches that branch only right after assigning the fetched address. How Electron would handle a `null` title is not modelled.
