/**
 * The applicant's status page: an exact lookup by email or ID number in the
 * stored list, and how the found record's status is presented.
 */
module StatusCheck {
  import opened Wrappers
  import opened Seqs
  import opened Records

  /** `app.email === searchValue || app.idNumber === searchValue`: no trimming, no case folding. */
  predicate MatchesQuery(app: Application, query: string) {
    app.email == query || app.idNumber == query
  }

  function QueryFilter(query: string): Application -> bool {
    (app: Application) => MatchesQuery(app, query)
  }

  /** `applications.find(...)`: the first stored record whose email or ID number equals the query, or none. */
  function LookupStatus(apps: seq<Application>, query: string): (r: Option<Application>)
    ensures r.None? <==> forall i :: 0 <= i < |apps| ==> !MatchesQuery(apps[i], query)
    ensures r.Some? ==> exists i :: 0 <= i < |apps| && apps[i] == r.value && MatchesQuery(apps[i], query)
                                    && forall j :: 0 <= j < i ==> !MatchesQuery(apps[j], query)
  {
    FindFirst(apps, QueryFilter(query))
  }

  /** Records stored after the first match do not change the result. */
  lemma LookupIgnoresLaterRecords(apps: seq<Application>, more: seq<Application>, query: string)
    requires LookupStatus(apps, query).Some?
    ensures LookupStatus(apps + more, query) == LookupStatus(apps, query)
  {
    var i := FirstIndex(apps, QueryFilter(query)).value;
    assert forall k :: 0 <= k < |apps| ==> (apps + more)[k] == apps[k];
    assert FirstIndex(apps + more, QueryFilter(query)) == Some(i);
  }

  /** The icon beside the status. */
  datatype Icon = CheckIcon | CrossIcon | ClockIcon | AlertIcon

  /** `getStatusIcon`: an exact switch with the alert icon as fallback; it agrees with the badge. */
  function StatusIcon(status: string): (r: Icon)
    ensures r == CheckIcon <==> StatusBadge(status) == ApprovedBadge
    ensures r == CrossIcon <==> StatusBadge(status) == RejectedBadge
    ensures r == ClockIcon <==> StatusBadge(status) == PendingBadge
    ensures r == AlertIcon <==> StatusBadge(status) == UnknownBadge
  {
    match status
    case "approved" => CheckIcon
    case "rejected" => CrossIcon
    case "pending" => ClockIcon
    case _ => AlertIcon
  }

  /** The rejection box shows `notes`, only for a rejected record with non-empty notes. */
  function RejectionReasonShown(app: Application): (r: Option<string>)
    ensures r.Some? <==> app.status == "rejected" && app.notes != ""
    ensures r.Some? ==> r.value == app.notes
  {
    if app.status == "rejected" && app.notes != "" then Some(app.notes) else None
  }

  /** The search card's state. */
  class StatusLookup {
    var searchValue: string
    var application: Option<Application>
    var searched: bool

    constructor ()
      ensures searchValue == "" && application == None && !searched
    {
      searchValue, application, searched := "", None, false;
    }

    /** Typing in the search box. */
    method EditSearchValue(value: string)
      modifies this`searchValue
      ensures searchValue == value
    {
      searchValue := value;
    }

    /** `handleSearch`: reads the stored list, never writes it, and marks the search as done. */
    method HandleSearch(storage: LocalStorage)
      modifies this`application, this`searched
      ensures application == LookupStatus(storage.kycApplications, searchValue)
      ensures searched
    {
      application := LookupStatus(storage.kycApplications, searchValue);
      searched := true;
    }
  }
}
