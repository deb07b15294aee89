/** Concrete event sequences from app start, written as the handlers applied in arrival
    order. They include the ones that show where the code does more than the refresh
    button suggests: lookups can overlap, and a refresh writes the title even when the
    status is hidden. */
module TrayScenarios {
  import opened Wrappers
  import opened TrayState

  /** The lookup at start resolves: the address is shown and can be copied; once the settle
      timer fires the controller honours connectivity changes. */
  lemma StartResolves()
    ensures var r := FetchSucceeded(Started(), "203.0.113.5");
      && r.publicIP == Some("203.0.113.5") && OnlineView(r)
      && r.title == "203.0.113.5" && r.menu.copyVisible
      && Copy(r) == Some("203.0.113.5") && !r.initialized
      && Settle(r).initialized
  {
  }

  /** The lookup at start fails: "Offline", nothing to copy. */
  lemma StartFails()
    ensures var r := FetchFailed(Started());
      && OfflineView(r) && r.title == "Offline" && !r.menu.copyVisible && Copy(r) == None
  {
  }

  /** Before the first settle timer a connectivity change does nothing. */
  lemma EarlyConnectivityIgnored()
    ensures ConnectivityChanged(ConnectivityChanged(Started())) == Started()
    ensures ConnectivityChanged(FetchFailed(Started())) == FetchFailed(Started())
  {
  }

  /** Hiding the status blanks the title while the address is kept. */
  lemma HideStatusWhileOnline()
    ensures var r := ToggleShowStatus(ClickShowStatus(FetchSucceeded(Started(), "1.2.3.4")));
      && !r.showStatus && !r.menu.showStatusChecked
      && r.title == "" && r.publicIP == Some("1.2.3.4")
  {
  }

  /** The status branches write the title whatever showStatus says: with the status
      hidden, the next resolved lookup puts the address back in the tray title. */
  lemma HiddenStatusShownAgainByRefresh()
    ensures var r := FetchSucceeded(ToggleShowStatus(ClickShowStatus(Started())), "1.2.3.4");
      && !r.showStatus && r.title == "1.2.3.4"
  {
  }

  /** Two connectivity changes after settling schedule two lookups at once. */
  lemma ConnectivityLookupsOverlap()
    ensures var r := ConnectivityChanged(ConnectivityChanged(Settle(FetchSucceeded(Started(), "1.2.3.4"))));
      RefreshingView(r) && r.scheduledFetches == 2
  {
    var settled := Settle(FetchSucceeded(Started(), "1.2.3.4"));
    assert settled.initialized && settled.scheduledFetches == 0;
    var once := ConnectivityChanged(settled);
    assert once == BeginRefresh(settled) && once.initialized && once.scheduledFetches == 1;
    assert ConnectivityChanged(once) == BeginRefresh(once);
  }

  /** The disabled Refresh entry does not prevent a second lookup: a click accepted while
      online still fires after a connectivity change has started a refresh. */
  lemma MenuRefreshOverlapsConnectivity()
    ensures var online := Settle(FetchSucceeded(Started(), "1.2.3.4"));
      && online.menu.refreshEnabled
      && var r := RefreshTimer(ConnectivityChanged(ClickRefresh(online)));
      && RefreshingView(r) && r.scheduledFetches == 2
  {
    var online := Settle(FetchSucceeded(Started(), "1.2.3.4"));
    assert online.initialized && online.scheduledFetches == 0 && online.menu.refreshEnabled;
    var clicked := ClickRefresh(online);
    assert clicked.scheduledRefreshes == 1 && clicked.initialized;
    var refreshing := ConnectivityChanged(clicked);
    assert refreshing == BeginRefresh(clicked) && refreshing.scheduledFetches == 1;
  }
}
