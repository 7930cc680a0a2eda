/**
 * The application record of the pages that use lower-case statuses, and the
 * browser storage those pages share.
 */
module Records {
  import opened Wrappers
  import opened Seqs

  /**
   * One applicant's record as the local-storage pages and the single-record
   * admin view hold it. `notes` and `rejectionReason` are "" when the record
   * has none: the pages only ever test them for truthiness.
   */
  datatype Application = Application(
    id: string,
    fullName: string,
    dateOfBirth: string,
    idNumber: string,
    country: string,
    address: string,
    email: string,
    status: string,
    submissionDate: string,
    notes: string,
    rejectionReason: string)

  /** The browser's `localStorage`: `kycApplications` (JSON list, "[]" when unset) and `adminToken`. */
  class LocalStorage {
    var kycApplications: seq<Application>
    var adminToken: Option<string>

    constructor (apps: seq<Application>, token: Option<string>)
      ensures kycApplications == apps && adminToken == token
    {
      kycApplications := apps;
      adminToken := token;
    }

    /** `localStorage.getItem("adminToken")` is truthy: present and non-empty. */
    predicate HasAdminToken()
      reads this
    {
      adminToken.Some? && adminToken.value != ""
    }
  }

  /** The badge a status is shown with. */
  datatype Badge = PendingBadge | ApprovedBadge | RejectedBadge | UnknownBadge

  /** `getStatusBadge` of the lower-case pages: an exact switch, anything else is Unknown. */
  function StatusBadge(status: string): (b: Badge)
    ensures b == PendingBadge <==> status == "pending"
    ensures b == ApprovedBadge <==> status == "approved"
    ensures b == RejectedBadge <==> status == "rejected"
  {
    match status
    case "approved" => ApprovedBadge
    case "rejected" => RejectedBadge
    case "pending" => PendingBadge
    case _ => UnknownBadge
  }

  /** `app.id === id`. */
  function HasId(id: string): Application -> bool {
    (app: Application) => app.id == id
  }

  /** `applications.find(app => app.id === id)`: the first record with the id, when there is one. */
  function FindById(apps: seq<Application>, id: string): (r: Option<Application>)
    ensures r.Some? ==> r.value.id == id && r.value in apps
    ensures r.Some? ==> exists i :: 0 <= i < |apps| && apps[i] == r.value && forall j :: 0 <= j < i ==> apps[j].id != id
    ensures r.None? <==> forall i :: 0 <= i < |apps| ==> apps[i].id != id
  {
    FindFirst(apps, HasId(id))
  }
}
