/**
 * The local-storage admin dashboard: the stored list, its search and
 * case-sensitive status filter, the per-status counts and the badges.
 */
module AdminDashboard {
  import opened Text
  import opened Seqs
  import opened Records
  import opened Tally

  /** The search test for an already lower-cased term: `field.toLowerCase().includes(term)` on name, ID number or email. */
  predicate MatchesSearch(app: Application, term: string) {
    || Contains(ToLower(app.fullName), term)
    || Contains(ToLower(app.idNumber), term)
    || Contains(ToLower(app.email), term)
  }

  function SearchFilter(searchTerm: string): Application -> bool {
    (app: Application) => MatchesSearch(app, ToLower(searchTerm))
  }

  /** `app.status === statusFilter`: exact, so "Pending" does not match "pending". */
  function StatusFilter(statusFilter: string): Application -> bool {
    (app: Application) => app.status == statusFilter
  }

  /** The filter effect: the search step for a non-empty term, then the status step unless "all". */
  function FilterApplications(apps: seq<Application>, searchTerm: string, statusFilter: string): seq<Application> {
    KeepIf(statusFilter != "all", KeepIf(searchTerm != "", apps, SearchFilter(searchTerm)), StatusFilter(statusFilter))
  }

  /** Whether one application is on the filtered list: both filters pass, an inactive one passes everything. */
  predicate Selected(app: Application, searchTerm: string, statusFilter: string) {
    && (searchTerm == "" || MatchesSearch(app, ToLower(searchTerm)))
    && (statusFilter == "all" || app.status == statusFilter)
  }

  function Selection(searchTerm: string, statusFilter: string): Application -> bool {
    (app: Application) => Selected(app, searchTerm, statusFilter)
  }

  /** The two filter steps together keep exactly the applications selected by the conjunction. */
  lemma FilterIsConjunction(apps: seq<Application>, searchTerm: string, statusFilter: string)
    ensures FilterApplications(apps, searchTerm, statusFilter) == Keep(apps, Selection(searchTerm, statusFilter))
  {
    var search, status := Pass(searchTerm != "", SearchFilter(searchTerm)), Pass(statusFilter != "all", StatusFilter(statusFilter));
    KeepIfTwice(apps, searchTerm != "", SearchFilter(searchTerm), statusFilter != "all", StatusFilter(statusFilter));
    KeepCongruent(apps, And(search, status), Selection(searchTerm, statusFilter));
  }

  /**
   * The filtered list is the order-preserving subsequence of `apps` at the
   * strictly increasing positions `idx`, and a position is among them exactly
   * when its application passes both filters.
   */
  lemma FilteredIsOrderedSubsequence(apps: seq<Application>, searchTerm: string, statusFilter: string)
    ensures var r := FilterApplications(apps, searchTerm, statusFilter);
            var idx := KeptIndices(apps, Selection(searchTerm, statusFilter));
      && |idx| == |r|
      && (forall k :: 0 <= k < |idx| ==> idx[k] < |apps| && r[k] == apps[idx[k]])
      && (forall k, l :: 0 <= k < l < |idx| ==> idx[k] < idx[l])
      && (forall i :: 0 <= i < |apps| ==> (Selected(apps[i], searchTerm, statusFilter) <==> i in idx))
  {
    FilterIsConjunction(apps, searchTerm, statusFilter);
    KeepIsOrderedSelection(apps, Selection(searchTerm, statusFilter));
  }

  /** The search keeps an application iff its lower-cased name, ID number or email holds the lower-cased term somewhere. */
  lemma SearchMatchIff(app: Application, searchTerm: string)
    ensures SearchFilter(searchTerm)(app) <==>
              || (exists i :: OccursAt(ToLower(app.fullName), ToLower(searchTerm), i))
              || (exists i :: OccursAt(ToLower(app.idNumber), ToLower(searchTerm), i))
              || (exists i :: OccursAt(ToLower(app.email), ToLower(searchTerm), i))
  {
    var term := ToLower(searchTerm);
    ContainsIffOccurs(ToLower(app.fullName), term);
    ContainsIffOccurs(ToLower(app.idNumber), term);
    ContainsIffOccurs(ToLower(app.email), term);
  }

  /** The mount effect shows the stored list as it is; the filter effect agrees, since the initial term is "" and the filter "all". */
  lemma InitialViewShowsAll(stored: seq<Application>)
    ensures FilterApplications(stored, "", "all") == stored
  {
  }

  /** A status filter that no record's status equals exactly (such as a capitalised one) empties the list. */
  lemma UnmatchedStatusEmptiesList(apps: seq<Application>, searchTerm: string, statusFilter: string)
    requires statusFilter != "all"
    requires forall i :: 0 <= i < |apps| ==> apps[i].status != statusFilter
    ensures FilterApplications(apps, searchTerm, statusFilter) == []
  {
    FilterIsConjunction(apps, searchTerm, statusFilter);
    KeepNone(apps, Selection(searchTerm, statusFilter));
  }

  function StatusOf(app: Application): string {
    app.status
  }

  /** `app.status === status`. */
  function StatusIs(status: string): Application -> bool {
    StatusEquals(StatusOf, status)
  }

  /** `getStatusCounts` over the lower-case statuses. */
  function GetStatusCounts(apps: seq<Application>): StatusCounts {
    StatusTally(apps, StatusOf, "pending", "approved", "rejected")
  }

  /** The counts describe the whole stored list: the status filter narrows exactly the counted entries. */
  lemma CountsMatchStatusFilter(apps: seq<Application>, status: string)
    requires status in {"pending", "approved", "rejected"}
    ensures |FilterApplications(apps, "", status)| ==
              match status
              case "pending" => GetStatusCounts(apps).pending
              case "approved" => GetStatusCounts(apps).approved
              case _ => GetStatusCounts(apps).rejected
  {
    assert forall x :: StatusIs(status)(x) == (StatusOf(x) == status);
    KeepCongruent(apps, StatusFilter(status), StatusIs(status));
  }
}
