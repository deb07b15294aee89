/** The tray status controller of main.js as values: the module-level variables, the tray,
    the menu entries that toggleStatus rewrites, and the callbacks that timers and the address
    lookup have scheduled but not yet run. Every handler is a function from the old state to
    the new one. */
module TrayState {
  import opened Wrappers

  // The status strings toggleStatus compares its argument with.
  const StatusOnline := "online"
  const StatusRefreshing := "refreshing"
  const StatusOffline := "offline"

  // The texts toggleStatus writes into the tray title and the first menu entry.
  const RefreshingTitle := "Refreshing..."
  const RefreshingLabel := "Refreshing"
  const OfflineText := "Offline"
  const OnlinePrefix := "Online: "

  /** The image of the tray and of the first menu entry. */
  datatype Icon = EmptyImage | OnlineImage | OfflineImage

  /** The fields of the tray menu template that the controller rewrites. */
  datatype Menu = Menu(
    statusLabel: string,      // trayMenu[0].label
    statusIcon: Icon,         // trayMenu[0].icon
    copyVisible: bool,        // trayMenu[1].visible, "Copy IP Address to Clipboard"
    refreshEnabled: bool,     // trayMenu[2].enabled, "Refresh"
    showStatusChecked: bool)  // trayMenu[4].checked, "Show Status in Menu Bar"

  /** The whole controller state. The last four fields count callbacks that are scheduled
      and have not yet run: the address lookups started by getIpAddress, the setInitialized
      timers, and the MENU_ACTION_DELAY timers of the Refresh and Show Status clicks. */
  datatype State = State(
    initialized: bool,
    showStatus: bool,
    publicIP: Option<string>,
    title: string,
    trayIcon: Icon,
    menu: Menu,
    scheduledFetches: nat,
    scheduledSettles: nat,
    scheduledRefreshes: nat,
    scheduledShowToggles: nat)

  /** JavaScript truthiness of `publicIP`, which is either null or a string: the empty
      string is falsy. */
  predicate Truthy(ip: Option<string>) {
    ip.Some? && ip.value != ""
  }

  /** The variables toggleStatus never writes. */
  predicate SameCore(s: State, r: State) {
    && r.initialized == s.initialized
    && r.showStatus == s.showStatus
    && r.publicIP == s.publicIP
    && r.scheduledFetches == s.scheduledFetches
    && r.scheduledSettles == s.scheduledSettles
    && r.scheduledRefreshes == s.scheduledRefreshes
    && r.scheduledShowToggles == s.scheduledShowToggles
  }

  /** The state once main.js is loaded and the tray is created with an empty image:
      the menu template's initial values, nothing scheduled. */
  function Loaded(): State {
    State(false, true, None, "", EmptyImage,
          Menu(RefreshingLabel, OfflineImage, false, false, true),
          0, 0, 0, 0)
  }

  /** The title the re-render branch of toggleStatus writes:
      `showStatus ? publicIP || "Offline" : ""`. */
  function ShownTitle(showStatus: bool, ip: Option<string>): (t: string)
    ensures t == "" <==> !showStatus
    ensures Truthy(ip) && showStatus ==> t == ip.value
  {
    if !showStatus then "" else if Truthy(ip) then ip.value else OfflineText
  }

  /** toggleStatus(status). `status` is None when called with no argument. The "online"
      branch is only ever reached right after publicIP has been assigned a fetched address. */
  function ToggleStatus(s: State, status: Option<string>): (r: State)
    requires status == Some(StatusOnline) ==> s.publicIP.Some?
    ensures SameCore(s, r)
  {
    if status == Some(StatusOnline) then
      s.(title := s.publicIP.value, trayIcon := OnlineImage,
         menu := s.menu.(statusLabel := OnlinePrefix + s.publicIP.value, statusIcon := OnlineImage,
                         copyVisible := true, refreshEnabled := true))
    else if status == Some(StatusRefreshing) then
      s.(title := RefreshingTitle, trayIcon := OfflineImage,
         menu := s.menu.(statusLabel := RefreshingLabel, statusIcon := OfflineImage,
                         copyVisible := false, refreshEnabled := false))
    else if status == Some(StatusOffline) then
      s.(title := OfflineText, trayIcon := OfflineImage,
         menu := s.menu.(statusLabel := OfflineText, statusIcon := OfflineImage,
                         copyVisible := false, refreshEnabled := true))
    else
      s.(menu := s.menu.(showStatusChecked := s.showStatus),
         title := ShownTitle(s.showStatus, s.publicIP))
  }

  /** The synchronous part of getIpAddress: show "refreshing" and schedule one lookup. */
  function BeginRefresh(s: State): (r: State)
    ensures r.publicIP == s.publicIP && r.initialized == s.initialized
    ensures r.scheduledFetches == s.scheduledFetches + 1
  {
    ToggleStatus(s, Some(StatusRefreshing)).(scheduledFetches := s.scheduledFetches + 1)
  }

  /** A scheduled lookup resolved with address `ip`: the `.then` callback. */
  function FetchSucceeded(s: State, ip: string): (r: State)
    requires s.scheduledFetches > 0
    ensures r.publicIP == Some(ip) && r.initialized == s.initialized
    ensures r.scheduledFetches == s.scheduledFetches - 1
    ensures r.scheduledSettles == s.scheduledSettles + 1
  {
    var t := s.(publicIP := Some(ip), scheduledFetches := s.scheduledFetches - 1);
    ToggleStatus(t, Some(StatusOnline)).(scheduledSettles := s.scheduledSettles + 1)
  }

  /** A scheduled lookup failed: the `.catch` callback. */
  function FetchFailed(s: State): (r: State)
    requires s.scheduledFetches > 0
    ensures r.publicIP == None && r.initialized == s.initialized
    ensures r.scheduledFetches == s.scheduledFetches - 1
    ensures r.scheduledSettles == s.scheduledSettles + 1
  {
    var t := s.(publicIP := None, scheduledFetches := s.scheduledFetches - 1);
    ToggleStatus(t, Some(StatusOffline)).(scheduledSettles := s.scheduledSettles + 1)
  }

  /** The INITIALIZATION_DELAY timer of setInitialized fires. */
  function Settle(s: State): (r: State)
    requires s.scheduledSettles > 0
    ensures r.initialized
    ensures r.scheduledSettles == s.scheduledSettles - 1
    ensures r.(initialized := s.initialized, scheduledSettles := s.scheduledSettles) == s
  {
    s.(initialized := true, scheduledSettles := s.scheduledSettles - 1)
  }

  /** The `online-status-changed` handler: a refresh starts exactly when `initialized`. */
  function ConnectivityChanged(s: State): (r: State)
    ensures !s.initialized ==> r == s
    ensures s.initialized ==> r.scheduledFetches == s.scheduledFetches + 1
    ensures r.publicIP == s.publicIP && r.initialized == s.initialized
  {
    if s.initialized then BeginRefresh(s) else s
  }

  /** A click on the Refresh entry; the menu delivers it only when the entry is enabled. */
  function ClickRefresh(s: State): (r: State)
    ensures r.scheduledRefreshes == s.scheduledRefreshes + (if s.menu.refreshEnabled then 1 else 0)
    ensures r.(scheduledRefreshes := s.scheduledRefreshes) == s
  {
    if s.menu.refreshEnabled then s.(scheduledRefreshes := s.scheduledRefreshes + 1) else s
  }

  /** The MENU_ACTION_DELAY timer of a Refresh click fires and calls getIpAddress. */
  function RefreshTimer(s: State): (r: State)
    requires s.scheduledRefreshes > 0
    ensures r.scheduledRefreshes == s.scheduledRefreshes - 1
    ensures r.scheduledFetches == s.scheduledFetches + 1
    ensures RefreshingView(r)
    ensures r.publicIP == s.publicIP && r.showStatus == s.showStatus && r.initialized == s.initialized
  {
    BeginRefresh(s.(scheduledRefreshes := s.scheduledRefreshes - 1))
  }

  /** A click on the Show Status checkbox schedules the toggle. */
  function ClickShowStatus(s: State): (r: State)
    ensures r.scheduledShowToggles == s.scheduledShowToggles + 1
    ensures r.(scheduledShowToggles := s.scheduledShowToggles) == s
  {
    s.(scheduledShowToggles := s.scheduledShowToggles + 1)
  }

  /** The MENU_ACTION_DELAY timer of a Show Status click fires: flip showStatus, re-render. */
  function ToggleShowStatus(s: State): (r: State)
    requires s.scheduledShowToggles > 0
    ensures r.showStatus == !s.showStatus && r.menu.showStatusChecked == r.showStatus
    ensures r.publicIP == s.publicIP && r.initialized == s.initialized
  {
    ToggleStatus(s.(showStatus := !s.showStatus, scheduledShowToggles := s.scheduledShowToggles - 1), None)
  }

  /** copyToClipboard: the text written to the clipboard, if any. */
  function Copy(s: State): (r: Option<string>)
    ensures r.Some? <==> Truthy(s.publicIP)
    ensures r.Some? ==> r == s.publicIP
  {
    if Truthy(s.publicIP) then s.publicIP else None
  }

  /** What the tray delivers to the controller. */
  datatype Event =
    | RefreshClicked
    | RefreshTimerFired
    | ShowStatusClicked
    | ShowStatusTimerFired
    | FetchResolved(ip: string)
    | FetchRejected
    | SettleTimerFired
    | OnlineStatusChanged

  /** One event; None when the event is a callback that nothing has scheduled. */
  function Step(s: State, e: Event): Option<State> {
    match e
    case RefreshClicked => Some(ClickRefresh(s))
    case RefreshTimerFired => if s.scheduledRefreshes > 0 then Some(RefreshTimer(s)) else None
    case ShowStatusClicked => Some(ClickShowStatus(s))
    case ShowStatusTimerFired => if s.scheduledShowToggles > 0 then Some(ToggleShowStatus(s)) else None
    case FetchResolved(ip) => if s.scheduledFetches > 0 then Some(FetchSucceeded(s, ip)) else None
    case FetchRejected => if s.scheduledFetches > 0 then Some(FetchFailed(s)) else None
    case SettleTimerFired => if s.scheduledSettles > 0 then Some(Settle(s)) else None
    case OnlineStatusChanged => Some(ConnectivityChanged(s))
  }

  /** A sequence of events, in arrival order. */
  function Run(s: State, evs: seq<Event>): Option<State>
    decreases |evs|
  {
    if evs == [] then Some(s)
    else match Step(s, evs[0])
      case None => None
      case Some(t) => Run(t, evs[1..])
  }

  /** The state after the app's `ready` handler: the tray exists and the first lookup is
      scheduled. */
  function Started(): State {
    BeginRefresh(Loaded())
  }

  ghost predicate Reachable(t: State) {
    exists evs :: Run(Started(), evs) == Some(t)
  }

  // The three shapes the display takes. In each, the title is either the one the status
  // branch wrote or the one a later re-render wrote.

  predicate OnlineView(s: State) {
    && s.publicIP.Some?
    && s.trayIcon == OnlineImage
    && s.menu.statusLabel == OnlinePrefix + s.publicIP.value
    && s.menu.statusIcon == OnlineImage
    && s.menu.copyVisible
    && s.menu.refreshEnabled
    && (s.title == s.publicIP.value || s.title == ShownTitle(s.showStatus, s.publicIP))
  }

  predicate RefreshingView(s: State) {
    && s.trayIcon == OfflineImage
    && s.menu.statusLabel == RefreshingLabel
    && s.menu.statusIcon == OfflineImage
    && !s.menu.copyVisible
    && !s.menu.refreshEnabled
    && s.scheduledFetches >= 1
    && (s.title == RefreshingTitle || s.title == ShownTitle(s.showStatus, s.publicIP))
  }

  predicate OfflineView(s: State) {
    && s.publicIP.None?
    && s.trayIcon == OfflineImage
    && s.menu.statusLabel == OfflineText
    && s.menu.statusIcon == OfflineImage
    && !s.menu.copyVisible
    && s.menu.refreshEnabled
    && (s.title == OfflineText || s.title == ShownTitle(s.showStatus, s.publicIP))
  }

  /** The invariant every event keeps once the app is ready. */
  predicate Consistent(s: State) {
    && s.menu.showStatusChecked == s.showStatus
    && (OnlineView(s) || RefreshingView(s) || OfflineView(s))
  }
}
