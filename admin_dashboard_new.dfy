/**
 * The server-backed admin dashboard: the fetched list of applications, its
 * search and status filters, the per-status counts, the optimistic status
 * patch reported by the review control, and the loading flags.
 */
module AdminDashboardNew {
  import opened Wrappers
  import opened Text
  import opened Seqs
  import opened Effects
  import opened Tally
  import Records

  /**
   * A record as `GET /kyc/applications` returns it (`full_name`, `id_number`,
   * `email`, `created_at` on the wire). Statuses are upper-case. The name,
   * ID number and email are read through `?.`, so each may be missing.
   */
  datatype KycApplication = KycApplication(
    id: int,
    fullName: Option<string>,
    country: string,
    idNumber: Option<string>,
    email: Option<string>,
    status: string,
    createdAt: string)

  /** `field?.toLowerCase().includes(term)`: a missing field never matches. */
  predicate FieldIncludes(field: Option<string>, term: string) {
    field.Some? && Contains(ToLower(field.value), term)
  }

  /** The search test for an already lower-cased term. */
  predicate MatchesSearch(app: KycApplication, term: string) {
    FieldIncludes(app.fullName, term) || FieldIncludes(app.idNumber, term) || FieldIncludes(app.email, term)
  }

  /** `app.status.toLowerCase() === statusFilter.toLowerCase()`. */
  predicate MatchesStatus(app: KycApplication, statusFilter: string) {
    ToLower(app.status) == ToLower(statusFilter)
  }

  function SearchFilter(searchTerm: string): KycApplication -> bool {
    app => MatchesSearch(app, ToLower(searchTerm))
  }

  function StatusFilter(statusFilter: string): KycApplication -> bool {
    app => MatchesStatus(app, statusFilter)
  }

  /** `filterApplications`: the search step for a non-empty term, then the status step unless "all". */
  function FilterApplications(apps: seq<KycApplication>, searchTerm: string, statusFilter: string): seq<KycApplication> {
    KeepIf(statusFilter != "all", KeepIf(searchTerm != "", apps, SearchFilter(searchTerm)), StatusFilter(statusFilter))
  }

  /** Whether one application is on the filtered list: both filters pass, an inactive one passes everything. */
  predicate Selected(app: KycApplication, searchTerm: string, statusFilter: string) {
    && (searchTerm == "" || MatchesSearch(app, ToLower(searchTerm)))
    && (statusFilter == "all" || MatchesStatus(app, statusFilter))
  }

  function Selection(searchTerm: string, statusFilter: string): KycApplication -> bool {
    app => Selected(app, searchTerm, statusFilter)
  }

  /** The two filter steps together keep exactly the applications selected by the conjunction. */
  lemma FilterIsConjunction(apps: seq<KycApplication>, searchTerm: string, statusFilter: string)
    ensures FilterApplications(apps, searchTerm, statusFilter) == Keep(apps, Selection(searchTerm, statusFilter))
  {
    var search, status := Pass(searchTerm != "", SearchFilter(searchTerm)), Pass(statusFilter != "all", StatusFilter(statusFilter));
    KeepIfTwice(apps, searchTerm != "", SearchFilter(searchTerm), statusFilter != "all", StatusFilter(statusFilter));
    KeepCongruent(apps, And(search, status), Selection(searchTerm, statusFilter));
  }

  /**
   * The filtered list is the order-preserving subsequence of `apps` at the
   * strictly increasing positions `idx`, and a position is among them exactly
   * when its application passes both filters.
   */
  lemma FilteredIsOrderedSubsequence(apps: seq<KycApplication>, searchTerm: string, statusFilter: string)
    ensures var r := FilterApplications(apps, searchTerm, statusFilter);
            var idx := KeptIndices(apps, Selection(searchTerm, statusFilter));
      && |idx| == |r|
      && (forall k :: 0 <= k < |idx| ==> idx[k] < |apps| && r[k] == apps[idx[k]])
      && (forall k, l :: 0 <= k < l < |idx| ==> idx[k] < idx[l])
      && (forall i :: 0 <= i < |apps| ==> (Selected(apps[i], searchTerm, statusFilter) <==> i in idx))
  {
    FilterIsConjunction(apps, searchTerm, statusFilter);
    KeepIsOrderedSelection(apps, Selection(searchTerm, statusFilter));
  }

  /** The lower-cased field holds the term at some position. */
  ghost predicate FieldHasSubstring(field: Option<string>, term: string) {
    field.Some? && exists i :: OccursAt(ToLower(field.value), term, i)
  }

  /** The search keeps an application iff its lower-cased name, ID number or email contains the lower-cased term. */
  lemma SearchMatchIff(app: KycApplication, searchTerm: string)
    ensures SearchFilter(searchTerm)(app) <==>
              || FieldHasSubstring(app.fullName, ToLower(searchTerm))
              || FieldHasSubstring(app.idNumber, ToLower(searchTerm))
              || FieldHasSubstring(app.email, ToLower(searchTerm))
  {
    var term := ToLower(searchTerm);
    if app.fullName.Some? { ContainsIffOccurs(ToLower(app.fullName.value), term); }
    if app.idNumber.Some? { ContainsIffOccurs(ToLower(app.idNumber.value), term); }
    if app.email.Some? { ContainsIffOccurs(ToLower(app.email.value), term); }
  }

  /** The term is lower-cased before matching, so typing it in any case shows the same list. */
  lemma SearchTermCaseIgnored(apps: seq<KycApplication>, searchTerm: string, statusFilter: string)
    ensures FilterApplications(apps, ToLower(searchTerm), statusFilter) == FilterApplications(apps, searchTerm, statusFilter)
  {
    ToLowerIdempotent(searchTerm);
    assert ToLower(searchTerm) == "" <==> searchTerm == "";
    FilterIsConjunction(apps, ToLower(searchTerm), statusFilter);
    FilterIsConjunction(apps, searchTerm, statusFilter);
    KeepCongruent(apps, Selection(ToLower(searchTerm), statusFilter), Selection(searchTerm, statusFilter));
  }

  /** With no search term and status "all", the list is shown unfiltered (the initial view). */
  lemma NoFilterKeepsAll(apps: seq<KycApplication>)
    ensures FilterApplications(apps, "", "all") == apps
  {
  }

  function StatusOf(app: KycApplication): string {
    app.status
  }

  /** `app.status === status` (the counts compare exactly, in upper case). */
  function StatusIs(status: string): KycApplication -> bool {
    StatusEquals(StatusOf, status)
  }

  /** `getStatusCounts` over the upper-case statuses. */
  function GetStatusCounts(apps: seq<KycApplication>): StatusCounts {
    StatusTally(apps, StatusOf, "PENDING", "APPROVED", "REJECTED")
  }

  function IdIs(id: int): KycApplication -> bool {
    (app: KycApplication) => app.id == id
  }

  function WithStatus(newStatus: string): KycApplication -> KycApplication {
    (app: KycApplication) => app.(status := newStatus)
  }

  /** The mapper of `handleStatusChange`: same length, matching entries get the new status and nothing else changes. */
  function PatchStatus(apps: seq<KycApplication>, id: int, newStatus: string): (r: seq<KycApplication>)
    ensures |r| == |apps|
    ensures forall i :: 0 <= i < |apps| && apps[i].id == id ==> r[i] == apps[i].(status := newStatus)
    ensures forall i :: 0 <= i < |apps| && apps[i].id != id ==> r[i] == apps[i]
  {
    MapWhere(apps, IdIs(id), WithStatus(newStatus))
  }

  /** Reporting the same status twice leaves the list as after the first report. */
  lemma PatchStatusIdempotent(apps: seq<KycApplication>, id: int, newStatus: string)
    ensures PatchStatus(PatchStatus(apps, id, newStatus), id, newStatus) == PatchStatus(apps, id, newStatus)
  {
    MapWhereIdempotent(apps, IdIs(id), WithStatus(newStatus));
  }

  /** The patch does not change the total count, and every entry with the id is counted under the new status. */
  lemma PatchStatusCounts(apps: seq<KycApplication>, id: int, newStatus: string)
    ensures GetStatusCounts(PatchStatus(apps, id, newStatus)).total == GetStatusCounts(apps).total
    ensures Count(PatchStatus(apps, id, newStatus), StatusIs(newStatus)) >= Count(apps, IdIs(id))
  {
    var r := PatchStatus(apps, id, newStatus);
    assert forall x :: StatusIs(newStatus)(x) == (StatusOf(x) == newStatus);
    CountMonotone(apps, r, IdIs(id), StatusIs(newStatus));
  }

  /** If every entry selected by `p` in `s` sits where `t` has an entry selected by `q`, `q` counts at least as many in `t`. */
  lemma {:induction false} CountMonotone(s: seq<KycApplication>, t: seq<KycApplication>, p: KycApplication -> bool, q: KycApplication -> bool)
    requires |s| == |t|
    requires forall i :: 0 <= i < |s| && p(s[i]) ==> q(t[i])
    ensures Count(t, q) >= Count(s, p)
  {
    if s != [] {
      CountMonotone(s[1..], t[1..], p, q);
    }
  }

  /** The events of a failed fetch: session expiry on 401, otherwise an error toast. */
  function FetchFailureEvents(response: Response<seq<KycApplication>>): seq<Event> {
    match response
    case Ok(_) => []
    case Err(AxiosError(status, _, message)) =>
      if status == Some(401) then [Navigate(LoginPath), Toast("Session expired", "Please login again", true)]
      else [Toast("Error", OrOpt(message, "Failed to fetch applications"), true)]
    case Err(OtherError) => [Toast("Error", "Network error - please check your connection", true)]
  }

  /** The dashboard page's state. */
  class Dashboard {
    var applications: seq<KycApplication>
    var searchTerm: string
    var statusFilter: string
    var isLoading: bool
    var isRefreshing: bool
    /** Whether a GET of `fetchApplications` has been sent and not yet settled. */
    var fetchPending: bool
    var events: seq<Event>

    /** The list the table renders. */
    function FilteredApplications(): seq<KycApplication>
      reads this
    {
      FilterApplications(applications, searchTerm, statusFilter)
    }

    /** The counters above the table. */
    function Counts(): StatusCounts
      reads this
    {
      GetStatusCounts(applications)
    }

    /** The full-page spinner replaces the dashboard. */
    predicate ShowsLoadingPage()
      reads this
    {
      isLoading && !isRefreshing
    }

    /** Mounting: the initial state, then the first fetch up to its request. */
    constructor Mount(storage: Records.LocalStorage)
      ensures applications == [] && searchTerm == "" && statusFilter == "all"
      ensures ShowsLoadingPage() <==> storage.HasAdminToken()
      ensures !isRefreshing && (isLoading <==> storage.HasAdminToken())
      ensures fetchPending <==> storage.HasAdminToken()
      ensures events == if storage.HasAdminToken() then [] else [Navigate(LoginPath)]
    {
      applications, searchTerm, statusFilter := [], "", "all";
      isLoading, isRefreshing, fetchPending := true, false, false;
      events := [];
      new;
      var requested := StartFetch(storage);
    }

    /** `fetchApplications` up to the awaited GET: no token means login and no request. */
    method StartFetch(storage: Records.LocalStorage) returns (requested: bool)
      modifies this
      ensures requested <==> storage.HasAdminToken()
      ensures applications == old(applications) && searchTerm == old(searchTerm) && statusFilter == old(statusFilter)
      ensures requested ==> isLoading && isRefreshing == old(isRefreshing) && fetchPending && events == old(events)
      ensures !requested ==> !isLoading && !isRefreshing && fetchPending == old(fetchPending)
                             && events == old(events) + [Navigate(LoginPath)]
    {
      isLoading := true;
      requested := storage.HasAdminToken();
      if requested {
        fetchPending := true;
      } else {
        events := events + [Navigate(LoginPath)];
        isLoading, isRefreshing := false, false;
      }
    }

    /** `fetchApplications` after the GET settles: store the list or report, and always clear both flags. */
    method CompleteFetch(storage: Records.LocalStorage, response: Response<seq<KycApplication>>)
      requires fetchPending
      modifies this, storage
      ensures !isLoading && !isRefreshing && !fetchPending
      ensures applications == if response.Ok? then response.data else old(applications)
      ensures searchTerm == old(searchTerm) && statusFilter == old(statusFilter)
      ensures storage.adminToken ==
                if response.Err? && HasStatus(response.failure, 401) then None else old(storage.adminToken)
      ensures storage.kycApplications == old(storage.kycApplications)
      ensures events == old(events) + FetchFailureEvents(response)
    {
      match response {
        case Ok(data) =>
          applications := data;
        case Err(failure) =>
          if HasStatus(failure, 401) {
            storage.adminToken := None;
          }
          events := events + FetchFailureEvents(response);
      }
      isLoading, isRefreshing, fetchPending := false, false, false;
    }

    /** `refreshApplications`: a refresh in flight never shows the full-page spinner. */
    method Refresh(storage: Records.LocalStorage) returns (requested: bool)
      modifies this
      ensures requested <==> storage.HasAdminToken()
      ensures applications == old(applications) && searchTerm == old(searchTerm) && statusFilter == old(statusFilter)
      ensures requested ==> isLoading && isRefreshing && fetchPending && !ShowsLoadingPage()
      ensures !requested ==> !isLoading && !isRefreshing && fetchPending == old(fetchPending)
      ensures events == old(events) + (if requested then [] else [Navigate(LoginPath)])
                                    + [Toast("Refreshing applications", "Fetching latest data...", false)]
    {
      isRefreshing := true;
      requested := StartFetch(storage);
      events := events + [Toast("Refreshing applications", "Fetching latest data...", false)];
    }

    /** `handleStatusChange`, called back by a review control with the server's new status. */
    method HandleStatusChange(id: int, newStatus: string)
      modifies this`applications
      ensures applications == PatchStatus(old(applications), id, newStatus)
      ensures Counts().total == old(Counts().total)
      ensures newStatus == "PENDING" ==> Counts().pending >= Count(old(applications), IdIs(id))
      ensures newStatus == "APPROVED" ==> Counts().approved >= Count(old(applications), IdIs(id))
      ensures newStatus == "REJECTED" ==> Counts().rejected >= Count(old(applications), IdIs(id))
    {
      PatchStatusCounts(applications, id, newStatus);
      applications := PatchStatus(applications, id, newStatus);
    }

    method SetSearchTerm(term: string)
      modifies this`searchTerm
      ensures searchTerm == term
    {
      searchTerm := term;
    }

    /** `handleStatusFilterChange`. */
    method HandleStatusFilterChange(status: string)
      modifies this`statusFilter
      ensures statusFilter == status
      ensures status != "all" ==>
                forall i :: 0 <= i < |FilteredApplications()| ==> ToLower(FilteredApplications()[i].status) == ToLower(status)
    {
      statusFilter := status;
      FilterIsConjunction(applications, searchTerm, statusFilter);
    }

    /** `handleLogout`: drop the token and go to the login page. */
    method HandleLogout(storage: Records.LocalStorage)
      modifies this`events, storage`adminToken
      ensures storage.adminToken == None
      ensures events == old(events) + [Navigate(LoginPath), Toast("Logged out successfully", "You have been signed out", false)]
    {
      storage.adminToken := None;
      events := events + [Navigate(LoginPath), Toast("Logged out successfully", "You have been signed out", false)];
    }
  }
}
