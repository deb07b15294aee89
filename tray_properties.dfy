/** What the handlers of main.js promise, proved about the step functions of TrayState. */
module TrayProperties {
  import opened Wrappers
  import opened TrayState

  // ---- The four branches of toggleStatus ----

  /** "online": the title is the address, both images are online, Copy shows and Refresh
      is enabled; the branch does not look at showStatus. */
  lemma OnlineBranch(s: State, show: bool)
    requires s.publicIP.Some?
    ensures var r := ToggleStatus(s, Some(StatusOnline));
      && r.title == s.publicIP.value && r.trayIcon == OnlineImage
      && r.menu.statusLabel == "Online: " + s.publicIP.value && r.menu.statusIcon == OnlineImage
      && r.menu.copyVisible && r.menu.refreshEnabled
      && r.menu.showStatusChecked == s.menu.showStatusChecked
      && ToggleStatus(s.(showStatus := show), Some(StatusOnline)) == r.(showStatus := show)
  {
  }

  /** "refreshing": Copy hides and Refresh is disabled, so no refresh can be asked for from
      the menu while this status is shown. */
  lemma RefreshingBranch(s: State)
    ensures var r := ToggleStatus(s, Some(StatusRefreshing));
      && r.title == "Refreshing..." && r.trayIcon == OfflineImage
      && r.menu.statusLabel == "Refreshing" && r.menu.statusIcon == OfflineImage
      && !r.menu.copyVisible && !r.menu.refreshEnabled
      && r.menu.showStatusChecked == s.menu.showStatusChecked
      && ClickRefresh(r) == r
  {
  }

  /** "offline": title and label are "Offline", Copy hides, Refresh is enabled. */
  lemma OfflineBranch(s: State)
    ensures var r := ToggleStatus(s, Some(StatusOffline));
      && r.title == "Offline" && r.menu.statusLabel == "Offline"
      && r.trayIcon == OfflineImage && r.menu.statusIcon == OfflineImage
      && !r.menu.copyVisible && r.menu.refreshEnabled
      && r.menu.showStatusChecked == s.menu.showStatusChecked
  {
  }

  /** Any other status: the checkbox follows showStatus, the title is blank when the status
      is hidden and otherwise the address or "Offline"; nothing else changes. */
  lemma RerenderBranch(s: State, status: Option<string>)
    requires status != Some(StatusOnline) && status != Some(StatusRefreshing) && status != Some(StatusOffline)
    ensures var r := ToggleStatus(s, status);
      && r.menu.showStatusChecked == s.showStatus
      && r.title == (if !s.showStatus then "" else if Truthy(s.publicIP) then s.publicIP.value else "Offline")
      && r.(title := s.title, menu := s.menu) == s
      && r.menu.(showStatusChecked := s.menu.showStatusChecked) == s.menu
  {
  }

  // ---- The events ----

  /** The Show Status timer flips showStatus once, the checkbox agrees with it afterwards,
      and the address and the display status are left alone. */
  lemma ShowStatusFlipsOnce(s: State)
    requires s.scheduledShowToggles > 0
    ensures var r := ToggleShowStatus(s);
      && r.showStatus == !s.showStatus && r.menu.showStatusChecked == r.showStatus
      && r.publicIP == s.publicIP && r.initialized == s.initialized
      && r.trayIcon == s.trayIcon
      && r.menu.(showStatusChecked := s.menu.showStatusChecked) == s.menu
      && r.title == ShownTitle(r.showStatus, s.publicIP)
      && r.scheduledShowToggles == s.scheduledShowToggles - 1
  {
  }

  /** getIpAddress enters "refreshing" and keeps the address. */
  lemma BeginRefreshShowsRefreshing(s: State)
    ensures var r := BeginRefresh(s);
      && RefreshingView(r)
      && r.publicIP == s.publicIP && r.title == "Refreshing..." && !r.menu.refreshEnabled
  {
  }

  /** A resolved lookup stores the address, shows "online" and schedules the settle timer. */
  lemma FetchSucceededShowsOnline(s: State, ip: string)
    requires s.scheduledFetches > 0
    ensures var r := FetchSucceeded(s, ip);
      && r.publicIP == Some(ip) && r.title == ip && r.trayIcon == OnlineImage
      && r.menu.statusLabel == "Online: " + ip && r.menu.copyVisible && r.menu.refreshEnabled
      && r.scheduledSettles == s.scheduledSettles + 1 && r.initialized == s.initialized
      && r.showStatus == s.showStatus
  {
  }

  /** A failed lookup clears the address, shows "offline" and schedules the settle timer. */
  lemma FetchFailedShowsOffline(s: State)
    requires s.scheduledFetches > 0
    ensures var r := FetchFailed(s);
      && r.publicIP == None && r.title == "Offline" && r.trayIcon == OfflineImage
      && r.menu.statusLabel == "Offline" && !r.menu.copyVisible && r.menu.refreshEnabled
      && r.scheduledSettles == s.scheduledSettles + 1 && r.initialized == s.initialized
      && r.showStatus == s.showStatus
  {
  }

  /** Only the settle timer sets `initialized`, and no event clears it. */
  lemma StepInitialized(s: State, e: Event)
    requires Step(s, e).Some?
    ensures s.initialized ==> Step(s, e).value.initialized
    ensures !s.initialized && Step(s, e).value.initialized ==> e == SettleTimerFired
  {
  }

  /** Once `initialized` is true it stays true, whatever events follow. */
  lemma {:induction false} InitializedStaysSet(s: State, evs: seq<Event>)
    requires s.initialized
    ensures Run(s, evs).Some? ==> Run(s, evs).value.initialized
    decreases |evs|
  {
    if evs != [] {
      var t := Step(s, evs[0]);
      if t.Some? {
        StepInitialized(s, evs[0]);
        InitializedStaysSet(t.value, evs[1..]);
      }
    }
  }

  /** Until some settle timer has fired, connectivity changes are dropped; afterwards each
      one starts a refresh, even while one is already in flight. */
  lemma ConnectivityGate(s: State)
    ensures !s.initialized ==> ConnectivityChanged(s) == s
    ensures s.initialized ==> RefreshingView(ConnectivityChanged(s))
    ensures s.initialized ==> ConnectivityChanged(s).scheduledFetches == s.scheduledFetches + 1
  {
  }

  // ---- The display invariant ----

  lemma StepPreservesConsistent(s: State, e: Event)
    requires Consistent(s) && Step(s, e).Some?
    ensures Consistent(Step(s, e).value)
  {
  }

  lemma {:induction false} RunPreservesConsistent(s: State, evs: seq<Event>)
    requires Consistent(s)
    ensures Run(s, evs).Some? ==> Consistent(Run(s, evs).value)
    decreases |evs|
  {
    if evs != [] {
      var t := Step(s, evs[0]);
      if t.Some? {
        StepPreservesConsistent(s, evs[0]);
        RunPreservesConsistent(t.value, evs[1..]);
      }
    }
  }

  /** Every state the app can reach is in one of the three display shapes, and the
      checkbox agrees with showStatus. */
  lemma ReachableIsConsistent(t: State)
    requires Reachable(t)
    ensures Consistent(t)
  {
    var evs :| Run(Started(), evs) == Some(t);
    RunPreservesConsistent(Started(), evs);
  }

  /** The three display shapes exclude each other. */
  lemma ViewsExclusive(s: State)
    ensures !(OnlineView(s) && RefreshingView(s))
    ensures !(OnlineView(s) && OfflineView(s))
    ensures !(RefreshingView(s) && OfflineView(s))
  {
  }

  /** In a consistent state the Copy entry is visible exactly in the online shape; there the
      clipboard receives the address unless it is the empty string. */
  lemma CopyVisibleIffOnline(s: State)
    requires Consistent(s)
    ensures s.menu.copyVisible <==> OnlineView(s)
    ensures s.menu.copyVisible ==> s.publicIP.Some? && (Copy(s) == s.publicIP <==> s.publicIP.value != "")
    ensures OfflineView(s) ==> Copy(s) == None
  {
  }

  /** In a consistent state "Refreshing" is never shown without a lookup in flight, and a
      Refresh click is refused while it is shown. */
  lemma RefreshingLabelHasLookup(s: State)
    requires Consistent(s)
    requires s.menu.statusLabel == "Refreshing"
    ensures s.scheduledFetches >= 1
    ensures !s.menu.refreshEnabled && ClickRefresh(s) == s
  {
    if s.publicIP.Some? {
      OnlineLabelIsNotRefreshing(s.publicIP.value);
    }
  }

  /** CopyVisibleIffOnline for every state reachable from app start. */
  lemma CopyVisibleOnlyOnline(t: State)
    requires Reachable(t)
    ensures t.menu.copyVisible <==> OnlineView(t)
    ensures t.menu.copyVisible ==> t.publicIP.Some? && (Copy(t) == t.publicIP <==> t.publicIP.value != "")
    ensures OfflineView(t) ==> Copy(t) == None
  {
    ReachableIsConsistent(t);
    CopyVisibleIffOnline(t);
  }

  /** RefreshingLabelHasLookup for every state reachable from app start. */
  lemma RefreshingHasLookupInFlight(t: State)
    requires Reachable(t)
    requires t.menu.statusLabel == "Refreshing"
    ensures t.scheduledFetches >= 1
    ensures !t.menu.refreshEnabled && ClickRefresh(t) == t
  {
    ReachableIsConsistent(t);
    RefreshingLabelHasLookup(t);
  }

  /** Helper: the online label, which starts with "Online: ", never reads "Refreshing". */
  lemma OnlineLabelIsNotRefreshing(ip: string)
    ensures OnlinePrefix + ip != RefreshingLabel
  {
    assert (OnlinePrefix + ip)[0] == 'O';
  }
}
