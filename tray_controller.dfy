/** The controller as main.js holds it: module-level variables and menu entries updated in
    place by event handlers and timer callbacks. Each method is proved against the step
    function of TrayState that it implements. */
module Tray {
  import opened Wrappers
  import TrayState
  import TrayProperties

  class Controller {
    var initialized: bool
    var showStatus: bool
    var publicIP: Option<string>
    var title: string                 // tray.setTitle
    var trayIcon: TrayState.Icon      // tray.setImage
    var menu: TrayState.Menu          // the fields of trayMenu[0], [1], [2] and [4]
    // Callbacks scheduled by setTimeout or by the pending lookup, not yet run.
    var scheduledFetches: nat
    var scheduledSettles: nat
    var scheduledRefreshes: nat
    var scheduledShowToggles: nat

    /** The fields as one value. */
    function State(): TrayState.State
      reads this
    {
      TrayState.State(initialized, showStatus, publicIP, title, trayIcon, menu,
        scheduledFetches, scheduledSettles, scheduledRefreshes, scheduledShowToggles)
    }

    ghost predicate Valid()
      reads this
    {
      TrayState.Consistent(State())
    }

    /** Module load, then the `ready` handler: the tray is created and the first lookup
        is started. */
    constructor ()
      ensures Valid() && State() == TrayState.Started()
      ensures !initialized && showStatus && publicIP == None
    {
      initialized := false;
      showStatus := true;
      publicIP := None;
      title := "";
      trayIcon := TrayState.EmptyImage;
      menu := TrayState.Menu(statusLabel := TrayState.RefreshingLabel, statusIcon := TrayState.OfflineImage,
                             copyVisible := false, refreshEnabled := false, showStatusChecked := true);
      scheduledFetches, scheduledSettles, scheduledRefreshes, scheduledShowToggles := 0, 0, 0, 0;
      new;
      BeginRefresh();
    }

    /** toggleStatus(status): rewrite the tray and the menu entries for one status, or
        re-render the title and the checkbox when the status is none of the three. */
    method ToggleStatus(status: Option<string>)
      requires status == Some(TrayState.StatusOnline) ==> publicIP.Some?
      modifies this
      ensures State() == TrayState.ToggleStatus(old(State()), status)
    {
      ghost var s := State();
      if status == Some(TrayState.StatusOnline) {
        title := publicIP.value;
        trayIcon := TrayState.OnlineImage;
        menu := menu.(statusLabel := TrayState.OnlinePrefix + publicIP.value, statusIcon := TrayState.OnlineImage,
                      copyVisible := true, refreshEnabled := true);
      } else if status == Some(TrayState.StatusRefreshing) {
        title := TrayState.RefreshingTitle;
        trayIcon := TrayState.OfflineImage;
        menu := menu.(statusLabel := TrayState.RefreshingLabel, statusIcon := TrayState.OfflineImage,
                      copyVisible := false, refreshEnabled := false);
      } else if status == Some(TrayState.StatusOffline) {
        title := TrayState.OfflineText;
        trayIcon := TrayState.OfflineImage;
        menu := menu.(statusLabel := TrayState.OfflineText, statusIcon := TrayState.OfflineImage,
                      copyVisible := false, refreshEnabled := true);
      } else {
        menu := menu.(showStatusChecked := showStatus);
        title := TrayState.ShownTitle(showStatus, publicIP);
      }
      assert State() == TrayState.ToggleStatus(s, status);
    }

    /** getIpAddress: show "refreshing", then schedule the lookup. */
    method BeginRefresh()
      modifies this
      ensures State() == TrayState.BeginRefresh(old(State()))
      ensures old(Valid()) ==> Valid()
    {
      ToggleStatus(Some(TrayState.StatusRefreshing));
      scheduledFetches := scheduledFetches + 1;
    }

    /** The lookup resolved with `ip`. */
    method FetchSucceeded(ip: string)
      requires Valid() && scheduledFetches > 0
      modifies this
      ensures Valid() && State() == TrayState.FetchSucceeded(old(State()), ip)
    {
      ghost var s := State();
      publicIP := Some(ip);
      scheduledFetches := scheduledFetches - 1;
      ToggleStatus(Some(TrayState.StatusOnline));
      scheduledSettles := scheduledSettles + 1;
      TrayProperties.StepPreservesConsistent(s, TrayState.FetchResolved(ip));
    }

    /** The lookup failed. */
    method FetchFailed()
      requires Valid() && scheduledFetches > 0
      modifies this
      ensures Valid() && State() == TrayState.FetchFailed(old(State()))
    {
      ghost var s := State();
      publicIP := None;
      scheduledFetches := scheduledFetches - 1;
      ToggleStatus(Some(TrayState.StatusOffline));
      scheduledSettles := scheduledSettles + 1;
      TrayProperties.StepPreservesConsistent(s, TrayState.FetchRejected);
    }

    /** The setInitialized timer fires. */
    method Settle()
      requires Valid() && scheduledSettles > 0
      modifies this
      ensures Valid() && State() == TrayState.Settle(old(State()))
    {
      initialized := true;
      scheduledSettles := scheduledSettles - 1;
    }

    /** The `online-status-changed` handler; `started` tells whether a refresh began. */
    method ConnectivityChanged() returns (started: bool)
      requires Valid()
      modifies this
      ensures started == old(initialized)
      ensures Valid() && State() == TrayState.ConnectivityChanged(old(State()))
    {
      started := initialized;
      if initialized {
        BeginRefresh();
      }
    }

    /** A click on the Refresh entry; `accepted` is false when the entry is disabled. */
    method ClickRefresh() returns (accepted: bool)
      requires Valid()
      modifies this
      ensures accepted == old(menu.refreshEnabled)
      ensures Valid() && State() == TrayState.ClickRefresh(old(State()))
    {
      accepted := menu.refreshEnabled;
      if accepted {
        scheduledRefreshes := scheduledRefreshes + 1;
      }
    }

    /** The Refresh click's timer fires. */
    method RefreshTimerFired()
      requires Valid() && scheduledRefreshes > 0
      modifies this
      ensures Valid() && State() == TrayState.RefreshTimer(old(State()))
    {
      scheduledRefreshes := scheduledRefreshes - 1;
      BeginRefresh();
    }

    /** A click on the Show Status checkbox. */
    method ClickShowStatus()
      requires Valid()
      modifies this
      ensures Valid() && State() == TrayState.ClickShowStatus(old(State()))
    {
      scheduledShowToggles := scheduledShowToggles + 1;
    }

    /** The Show Status click's timer fires: flip the setting and re-render. */
    method ToggleShowStatus()
      requires Valid() && scheduledShowToggles > 0
      modifies this
      ensures Valid() && State() == TrayState.ToggleShowStatus(old(State()))
    {
      ghost var s := State();
      scheduledShowToggles := scheduledShowToggles - 1;
      showStatus := !showStatus;
      ToggleStatus(None);
      TrayProperties.StepPreservesConsistent(s, TrayState.ShowStatusTimerFired);
    }

    /** copyToClipboard: the text to write, or None when publicIP is null or empty. */
    method Copy() returns (text: Option<string>)
      ensures text.Some? <==> TrayState.Truthy(publicIP)
      ensures text.Some? ==> text == publicIP
      ensures Valid() && menu.copyVisible ==> publicIP.Some? && (text == publicIP <==> publicIP.value != "")
    {
      if Valid() {
        TrayProperties.CopyVisibleIffOnline(State());
      }
      if TrayState.Truthy(publicIP) {
        text := publicIP;
      } else {
        text := None;
      }
    }
  }
}
