/**
 * The dashboard page: its state slots (tab, selected lake, user, pending
 * reports, filters), the verify/decline updates of the report list, and the
 * rules deciding when reports are fetched and what the notifications view shows.
 */
module IndexPage {
  import opened Wrappers
  import opened Text
  import opened Officials
  import opened MapView
  import opened FilterSidebar

  // ---------------------------------------------------------------- reports

  datatype Uploader = Uploader(id: int, name: string, department: string)

  /** A pending high-risk report as the backend lists it. */
  datatype LakeReport = LakeReport(
    id: int,
    lakeName: string,
    latitude: real,
    longitude: real,
    region: string,
    uploadedById: int,
    uploadedAt: string,
    lakeAreaKm2: real,
    damSlopeDeg: real,
    lakeTempC: real,
    elevationM: real,
    observationDate: string,
    riskLevel: string,
    confidence: real,
    assessedAt: string,
    verificationStatus: string,
    verifiedById: Option<int>,
    verifiedAt: Option<string>,
    declineById: Option<int>,
    declinedAt: Option<string>,
    createdAt: string,
    uploadedBy: Uploader)

  /** `currentUser?.id || null`: no user, and also a user whose id is 0, gives null. */
  function ActorId(user: Option<User>): (r: Option<int>)
    ensures r.Some? <==> user.Some? && user.value.id != 0
    ensures r.Some? ==> r.value == user.value.id
  {
    if user.Some? && user.value.id != 0 then Some(user.value.id) else None
  }

  /**
   * The list after a successful verify of `id`: every report with that id is
   * `VERIFIED` by `actor` at `at`, with no other field touched, and every other
   * report is left as it was.
   */
  function MarkVerified(list: seq<LakeReport>, id: int, actor: Option<int>, at: string): (r: seq<LakeReport>)
    ensures |r| == |list|
    ensures forall k :: 0 <= k < |list| && list[k].id == id ==>
      && r[k].verificationStatus == "VERIFIED" && r[k].verifiedById == actor && r[k].verifiedAt == Some(at)
      && r[k].(verificationStatus := list[k].verificationStatus,
               verifiedById := list[k].verifiedById,
               verifiedAt := list[k].verifiedAt) == list[k]
    ensures forall k :: 0 <= k < |list| && list[k].id != id ==> r[k] == list[k]
  {
    seq(|list|, k requires 0 <= k < |list| =>
      if list[k].id == id then list[k].(verificationStatus := "VERIFIED", verifiedById := actor, verifiedAt := Some(at))
      else list[k])
  }

  /**
   * The list after a successful decline of `id`: every report with that id is
   * `REJECTED` by `actor` at `at`; its verify fields and everything else stay.
   */
  function MarkDeclined(list: seq<LakeReport>, id: int, actor: Option<int>, at: string): (r: seq<LakeReport>)
    ensures |r| == |list|
    ensures forall k :: 0 <= k < |list| && list[k].id == id ==>
      && r[k].verificationStatus == "REJECTED" && r[k].declineById == actor && r[k].declinedAt == Some(at)
      && r[k].(verificationStatus := list[k].verificationStatus,
               declineById := list[k].declineById,
               declinedAt := list[k].declinedAt) == list[k]
    ensures forall k :: 0 <= k < |list| && list[k].id != id ==> r[k] == list[k]
  {
    seq(|list|, k requires 0 <= k < |list| =>
      if list[k].id == id then list[k].(verificationStatus := "REJECTED", declineById := actor, declinedAt := Some(at))
      else list[k])
  }

  /** Ids, and so the order of the reports, survive both updates. */
  lemma UpdatesKeepIds(list: seq<LakeReport>, id: int, actor: Option<int>, at: string)
    ensures forall k :: 0 <= k < |list| ==> MarkVerified(list, id, actor, at)[k].id == list[k].id
    ensures forall k :: 0 <= k < |list| ==> MarkDeclined(list, id, actor, at)[k].id == list[k].id
  {
  }

  /** Verifying an id no report carries changes nothing. */
  lemma UpdatesOfAbsentIdChangeNothing(list: seq<LakeReport>, id: int, actor: Option<int>, at: string)
    requires forall k :: 0 <= k < |list| ==> list[k].id != id
    ensures MarkVerified(list, id, actor, at) == list
    ensures MarkDeclined(list, id, actor, at) == list
  {
  }

  /** Repeating the same verify, or the same decline, changes nothing further. */
  lemma UpdatesIdempotent(list: seq<LakeReport>, id: int, actor: Option<int>, at: string)
    ensures MarkVerified(MarkVerified(list, id, actor, at), id, actor, at) == MarkVerified(list, id, actor, at)
    ensures MarkDeclined(MarkDeclined(list, id, actor, at), id, actor, at) == MarkDeclined(list, id, actor, at)
  {
    var v := MarkVerified(list, id, actor, at);
    var vv := MarkVerified(v, id, actor, at);
    assert forall k :: 0 <= k < |list| ==> vv[k] == v[k];
    var d := MarkDeclined(list, id, actor, at);
    var dd := MarkDeclined(d, id, actor, at);
    assert forall k :: 0 <= k < |list| ==> dd[k] == d[k];
  }

  /**
   * Updates of different reports commute: a decline of one id and a verify
   * of another give the same list in either order.
   */
  lemma UpdatesOfDifferentIdsCommute(list: seq<LakeReport>, v: int, d: int, actor: Option<int>, at: string, at2: string)
    requires v != d
    ensures MarkDeclined(MarkVerified(list, v, actor, at), d, actor, at2)
         == MarkVerified(MarkDeclined(list, d, actor, at2), v, actor, at)
  {
    var a := MarkDeclined(MarkVerified(list, v, actor, at), d, actor, at2);
    var b := MarkVerified(MarkDeclined(list, d, actor, at2), v, actor, at);
    assert forall k :: 0 <= k < |list| ==> a[k] == b[k];
  }

  // ---------------------------------------------------------------- view gating

  /** The fetch effect runs `fetchNotifications` only on the notifications tab with a user signed in. */
  predicate ShouldFetchNotifications(activeTab: string, user: Option<User>) {
    activeTab == "notifications" && user.Some?
  }

  datatype NotificationsPane = LoadingPane | EmptyPane | ReportList(reports: seq<LakeReport>)

  /** Loading wins over the empty message; the list shows only when it is non-empty. */
  function NotificationsView(loading: bool, reports: seq<LakeReport>): (r: NotificationsPane)
    ensures r.LoadingPane? <==> loading
    ensures r.EmptyPane? <==> !loading && reports == []
    ensures r.ReportList? ==> r.reports == reports && reports != []
  {
    if loading then LoadingPane else if |reports| == 0 then EmptyPane else ReportList(reports)
  }

  datatype Footer = VerifyDeclineButtons | StatusLabel(text: string)

  /** The bottom of a report card: the two buttons while `PENDING`, otherwise a status label. */
  function ReportFooter(status: string): (r: Footer)
    ensures r.VerifyDeclineButtons? <==> status == "PENDING"
    ensures r.StatusLabel? ==> (r.text == "Verified" <==> status == "VERIFIED")
    ensures r.StatusLabel? ==> r.text == "Verified" || r.text == "Declined"
  {
    if status == "PENDING" then VerifyDeclineButtons
    else StatusLabel(if status == "VERIFIED" then "Verified" else "Declined")
  }

  /** After a verify or a decline the card of that report offers no buttons and shows the outcome. */
  lemma FooterAfterUpdates(list: seq<LakeReport>, id: int, actor: Option<int>, at: string, k: nat)
    requires k < |list| && list[k].id == id
    ensures ReportFooter(MarkVerified(list, id, actor, at)[k].verificationStatus) == StatusLabel("Verified")
    ensures ReportFooter(MarkDeclined(list, id, actor, at)[k].verificationStatus) == StatusLabel("Declined")
  {
  }

  // ---------------------------------------------------------------- filters

  const InitialFilters := Filters(["high", "medium", "low"], (2018, 2024), "")

  /** `n` presses of the same risk button. */
  function ToggleTimes(levels: seq<string>, riskId: string, n: nat): seq<string>
    decreases n
  {
    if n == 0 then levels else ToggleTimes(ToggleRisk(levels, riskId), riskId, n - 1)
  }

  /**
   * The sidebar's button sends `HIGH` while the initial filter holds `high`:
   * the first press appends `HIGH` instead of removing `high`.
   */
  lemma ToggleHighOnInitialAppends()
    ensures ToggleRisk(InitialFilters.riskLevels, "HIGH") == ["high", "medium", "low", "HIGH"]
  {
  }

  /** Pressing `HIGH` any number of times alternates between the initial list and the list with `HIGH` appended. */
  lemma {:induction false} ToggleHighAlternates(n: nat)
    ensures ToggleTimes(InitialFilters.riskLevels, "HIGH", n) ==
      if n % 2 == 0 then InitialFilters.riskLevels else InitialFilters.riskLevels + ["HIGH"]
    decreases n
  {
    var init := InitialFilters.riskLevels;
    if n > 0 {
      if n == 1 {
        ToggleHighOnInitialAppends();
      } else {
        ToggleHighAlternates(n - 2);
        ToggleTwiceRestores(init, "HIGH");
        assert ToggleTimes(init, "HIGH", n) == ToggleTimes(ToggleRisk(ToggleRisk(init, "HIGH"), "HIGH"), "HIGH", n - 2) by {
          assert ToggleTimes(init, "HIGH", n) == ToggleTimes(ToggleRisk(init, "HIGH"), "HIGH", n - 1);
        }
      }
    }
  }

  /** So, from the initial filter, no number of presses of the `HIGH` button hides high-risk lakes. */
  lemma HighLakesStayVisible(n: nat, lake: LakeData)
    requires Lower(lake.riskLevel) == "high"
    ensures Matches(InitialFilters.(riskLevels := ToggleTimes(InitialFilters.riskLevels, "HIGH", n)), lake)
  {
    ToggleHighAlternates(n);
    var levels := ToggleTimes(InitialFilters.riskLevels, "HIGH", n);
    assert levels[0] == "high";
    assert Lower(levels[0]) == "high";
  }

  // ---------------------------------------------------------------- logout

  /** What the page's `handleLogout` leaves behind, and whether it throws. */
  datatype LogoutOutcome = LogoutOutcome(activeTab: string, currentUser: Option<User>, throws: bool)

  /**
   * `handleLogout` as written: it clears the user, then calls `onTabChange`,
   * a name the page never defines, so it throws before any tab change.
   */
  function LogoutAsWritten(activeTab: string, user: Option<User>): (r: LogoutOutcome)
    ensures r.currentUser.None? && r.throws && r.activeTab == activeTab
  {
    LogoutOutcome(activeTab, None, true)
  }

  /**
   * `handleLogout` as evidently intended: the user is cleared and the page
   * returns to the dashboard tab without throwing; no fetch can follow.
   */
  function LogoutIntended(activeTab: string, user: Option<User>): (r: LogoutOutcome)
    ensures r.currentUser.None? && !r.throws && r.activeTab == "dashboard"
    ensures !ShouldFetchNotifications(r.activeTab, r.currentUser)
  {
    LogoutOutcome("dashboard", None, false)
  }

  /**
   * Signing out while on the notifications tab leaves the page on that tab,
   * where the intended sign-out would have moved it to the dashboard; on any
   * tab other than the dashboard the two disagree about the tab.
   */
  lemma LogoutAsWrittenStaysOnTab(tab: string, user: Option<User>)
    ensures LogoutAsWritten("notifications", user).activeTab == "notifications"
    ensures LogoutIntended("notifications", user).activeTab == "dashboard"
    ensures tab != "dashboard" <==> LogoutAsWritten(tab, user).activeTab != LogoutIntended(tab, user).activeTab
    ensures LogoutAsWritten(tab, user).currentUser == LogoutIntended(tab, user).currentUser
  {
  }

  // ---------------------------------------------------------------- page state

  /** The reply of the pending-reports request: `data.success` and `data.data`. */
  datatype ReportsReply = ReportsReply(success: bool, data: seq<LakeReport>)

  class Dashboard {
    var activeTab: string
    var selectedLake: Option<LakeData>
    var authModalOpen: bool
    var currentUser: Option<User>
    var notifications: seq<LakeReport>
    var loadingNotifications: bool
    var filters: Filters

    constructor ()
      ensures activeTab == "dashboard" && selectedLake.None? && !authModalOpen && currentUser.None?
      ensures notifications == [] && !loadingNotifications && filters == InitialFilters
    {
      activeTab := "dashboard";
      selectedLake := None;
      authModalOpen := false;
      currentUser := None;
      notifications := [];
      loadingNotifications := false;
      filters := InitialFilters;
    }

    /** `handleLakeSelect`: whatever record arrives, full or stub, replaces the selection. */
    method SelectLake(lake: LakeData)
      modifies this
      ensures selectedLake == Some(lake)
      ensures activeTab == old(activeTab) && authModalOpen == old(authModalOpen) && currentUser == old(currentUser)
      ensures notifications == old(notifications) && loadingNotifications == old(loadingNotifications)
      ensures filters == old(filters)
    {
      selectedLake := Some(lake);
    }

    /** `handleClosePanel` */
    method ClosePanel()
      modifies this
      ensures selectedLake.None?
      ensures activeTab == old(activeTab) && authModalOpen == old(authModalOpen) && currentUser == old(currentUser)
      ensures notifications == old(notifications) && loadingNotifications == old(loadingNotifications)
      ensures filters == old(filters)
    {
      selectedLake := None;
    }

    /** `fetchNotifications` up to its request: the loading flag is raised. */
    method StartFetch()
      modifies this
      ensures loadingNotifications
      ensures activeTab == old(activeTab) && authModalOpen == old(authModalOpen) && currentUser == old(currentUser)
      ensures notifications == old(notifications) && selectedLake == old(selectedLake)
      ensures filters == old(filters)
    {
      loadingNotifications := true;
    }

    /**
     * `onTabChange`. The fetch effect reruns only when the tab really changes,
     * and then starts a fetch exactly when the gating rule allows it.
     */
    method ChangeTab(tab: string) returns (fetchStarted: bool)
      modifies this
      ensures activeTab == tab
      ensures fetchStarted <==> tab != old(activeTab) && ShouldFetchNotifications(tab, currentUser)
      ensures loadingNotifications == (fetchStarted || old(loadingNotifications))
      ensures authModalOpen == old(authModalOpen) && currentUser == old(currentUser)
      ensures notifications == old(notifications) && selectedLake == old(selectedLake)
      ensures filters == old(filters)
    {
      var changed := tab != activeTab;
      activeTab := tab;
      fetchStarted := changed && ShouldFetchNotifications(activeTab, currentUser);
      if fetchStarted {
        StartFetch();
      }
    }

    /**
     * `setCurrentUser` with a parsed user or null. A parsed user is always a
     * new object, so the fetch effect reruns unless null replaces null.
     */
    method SetCurrentUser(user: Option<User>) returns (fetchStarted: bool)
      modifies this
      ensures currentUser == user
      ensures fetchStarted <==> (user.Some? || old(currentUser).Some?) && ShouldFetchNotifications(activeTab, user)
      ensures loadingNotifications == (fetchStarted || old(loadingNotifications))
      ensures activeTab == old(activeTab) && authModalOpen == old(authModalOpen)
      ensures notifications == old(notifications) && selectedLake == old(selectedLake)
      ensures filters == old(filters)
    {
      var changed := user.Some? || currentUser.Some?;
      currentUser := user;
      fetchStarted := changed && ShouldFetchNotifications(activeTab, currentUser);
      if fetchStarted {
        StartFetch();
      }
    }

    /** The sign-in button of the navbar opens the modal. */
    method OpenAuth()
      modifies this
      ensures authModalOpen
      ensures activeTab == old(activeTab) && currentUser == old(currentUser)
      ensures notifications == old(notifications) && loadingNotifications == old(loadingNotifications)
      ensures selectedLake == old(selectedLake) && filters == old(filters)
    {
      authModalOpen := true;
    }

    /**
     * `handleAuthClose`: on closing, the user stored by the modal (if any)
     * becomes the current user; without one the current user is kept.
     */
    method AuthClosed(open: bool, stored: Option<User>) returns (fetchStarted: bool)
      modifies this
      ensures authModalOpen == open
      ensures currentUser == if !open && stored.Some? then stored else old(currentUser)
      ensures fetchStarted <==> !open && stored.Some? && ShouldFetchNotifications(activeTab, currentUser)
      ensures loadingNotifications == (fetchStarted || old(loadingNotifications))
      ensures activeTab == old(activeTab)
      ensures notifications == old(notifications) && selectedLake == old(selectedLake)
      ensures filters == old(filters)
    {
      authModalOpen := open;
      fetchStarted := false;
      if !open && stored.Some? {
        fetchStarted := SetCurrentUser(stored);
      }
    }

    /**
     * `fetchNotifications` once its request settles (`None`: the request or its
     * parsing threw): only a successful reply replaces the list; loading ends.
     */
    method FinishFetch(reply: Option<ReportsReply>)
      modifies this
      ensures !loadingNotifications
      ensures notifications == if reply.Some? && reply.value.success then reply.value.data else old(notifications)
      ensures activeTab == old(activeTab) && authModalOpen == old(authModalOpen) && currentUser == old(currentUser)
      ensures selectedLake == old(selectedLake) && filters == old(filters)
    {
      if reply.Some? && reply.value.success {
        notifications := reply.value.data;
      }
      loadingNotifications := false;
    }

    /** `handleVerify` once its request settles: only success updates the list. */
    method FinishVerify(id: int, success: bool, at: string)
      modifies this
      ensures notifications ==
        if success then MarkVerified(old(notifications), id, ActorId(currentUser), at) else old(notifications)
      ensures activeTab == old(activeTab) && authModalOpen == old(authModalOpen) && currentUser == old(currentUser)
      ensures loadingNotifications == old(loadingNotifications)
      ensures selectedLake == old(selectedLake) && filters == old(filters)
    {
      if success {
        notifications := MarkVerified(notifications, id, ActorId(currentUser), at);
      }
    }

    /** `handleDecline` once its request settles: only success updates the list. */
    method FinishDecline(id: int, success: bool, at: string)
      modifies this
      ensures notifications ==
        if success then MarkDeclined(old(notifications), id, ActorId(currentUser), at) else old(notifications)
      ensures activeTab == old(activeTab) && authModalOpen == old(authModalOpen) && currentUser == old(currentUser)
      ensures loadingNotifications == old(loadingNotifications)
      ensures selectedLake == old(selectedLake) && filters == old(filters)
    {
      if success {
        notifications := MarkDeclined(notifications, id, ActorId(currentUser), at);
      }
    }

    /** `setFilters`, as the sidebar's handlers call it. */
    method SetFilters(f: Filters)
      modifies this
      ensures filters == f
      ensures activeTab == old(activeTab) && authModalOpen == old(authModalOpen) && currentUser == old(currentUser)
      ensures notifications == old(notifications) && loadingNotifications == old(loadingNotifications)
      ensures selectedLake == old(selectedLake)
    {
      filters := f;
    }

    /** `handleLogout` as evidently intended, on the page state (see `LogoutIntended`). */
    method Logout()
      modifies this
      ensures LogoutIntended(old(activeTab), old(currentUser)) == LogoutOutcome(activeTab, currentUser, false)
      ensures currentUser.None? && activeTab == "dashboard"
      ensures !ShouldFetchNotifications(activeTab, currentUser)
      ensures authModalOpen == old(authModalOpen) && notifications == old(notifications)
      ensures loadingNotifications == old(loadingNotifications)
      ensures selectedLake == old(selectedLake) && filters == old(filters)
    {
      currentUser := None;
      activeTab := "dashboard";
    }
  }
}
