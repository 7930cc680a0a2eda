/**
 * The inline review control of the server-backed dashboard: approve or
 * reject one application, tracking the action in flight, and report the
 * status the server returns to the owning list.
 */
module KYCReviewActions {
  import opened Wrappers
  import opened Text
  import opened Effects
  import opened Records

  /** The two review actions, sent as "APPROVED" and "REJECTED". */
  datatype Action = Approve | Reject

  function ActionName(action: Action): string {
    match action
    case Approve => "APPROVED"
    case Reject => "REJECTED"
  }

  /** The body of `PATCH /kyc/admin/review/{id}`: `{action}` plus `rejection_reason` for a rejection. */
  datatype ReviewRequest = ReviewRequest(applicationId: int, action: Action, rejectionReason: Option<string>)

  /**
   * The request `handleAction` sends, given what `window.prompt` returned:
   * a rejection needs a non-null, non-empty reason (a blank one is sent as
   * it is); an approval never asks and carries no reason.
   */
  function RequestFor(applicationId: int, action: Action, prompt: Option<string>): (r: Option<ReviewRequest>)
    ensures r.None? <==> action == Reject && (prompt.None? || prompt.value == "")
    ensures r.Some? ==> r.value.applicationId == applicationId && r.value.action == action
    ensures r.Some? && action == Approve ==> r.value.rejectionReason.None?
    ensures r.Some? && action == Reject ==> r.value.rejectionReason == prompt
  {
    var requestData := ReviewRequest(applicationId, action, None);
    if action == Reject then
      if prompt.None? || prompt.value == "" then None
      else Some(requestData.(rejectionReason := prompt))
    else Some(requestData)
  }

  /** `getStatusBadge`: the upper-cased status picks the badge, anything else is Unknown. */
  function GetStatusBadge(status: string): (b: Badge)
    ensures b == PendingBadge <==> ToUpper(status) == "PENDING"
    ensures b == ApprovedBadge <==> ToUpper(status) == "APPROVED"
    ensures b == RejectedBadge <==> ToUpper(status) == "REJECTED"
  {
    match ToUpper(status)
    case "APPROVED" => ApprovedBadge
    case "REJECTED" => RejectedBadge
    case "PENDING" => PendingBadge
    case _ => UnknownBadge
  }

  /** The badge does not depend on case: an upper-cased status gets the same badge. */
  lemma BadgeIgnoresCase(status: string)
    ensures GetStatusBadge(ToUpper(status)) == GetStatusBadge(status)
  {
    ToUpperIdempotent(status);
  }

  /** The description of the failure toast: the server's `detail`, else "Failed to <action lower-cased> the application". */
  function FailureMessage(action: Action, failure: Failure): string {
    DetailOr(failure, "Failed to " + ToLower(ActionName(action)) + " the application")
  }

  /** The title of the failure toast: the action's first letter kept, the rest lower-cased. */
  function FailureTitle(action: Action): string {
    Capitalize(ActionName(action)) + " Failed"
  }

  /** The failure titles are "Approved Failed" and "Rejected Failed". */
  lemma FailureTitles()
    ensures FailureTitle(Approve) == "Approved Failed"
    ensures FailureTitle(Reject) == "Rejected Failed"
  {
    assert ActionName(Approve)[1..] == "PPROVED";
    assert ActionName(Reject)[1..] == "EJECTED";
    assert ToLower("PPROVED") == "pproved";
    assert ToLower("EJECTED") == "ejected";
  }

  /** The lower-cased action names, as the toasts spell them. */
  lemma ActionVerbs()
    ensures ToLower(ActionName(Approve)) == "approved"
    ensures ToLower(ActionName(Reject)) == "rejected"
  {
    assert ToLower("APPROVED") == "approved";
    assert ToLower("REJECTED") == "rejected";
  }

  /** Without a non-empty server `detail`, the message lower-cases the action name as it is ("Failed to approved ..."). */
  lemma DefaultFailureMessage(action: Action, failure: Failure)
    requires !(failure.AxiosError? && failure.detail.Some? && failure.detail.value != "")
    ensures FailureMessage(action, failure) ==
              "Failed to " + (if action == Approve then "approved" else "rejected") + " the application"
  {
    ActionVerbs();
  }

  /** A non-empty server `detail` is the message as it is. */
  lemma ServerDetailMessage(action: Action, failure: Failure)
    requires failure.AxiosError? && failure.detail.Some? && failure.detail.value != ""
    ensures FailureMessage(action, failure) == failure.detail.value
  {
  }

  /** The success toast. */
  function SuccessToast(action: Action): Event {
    var verb := ToLower(ActionName(action));
    Toast("Application " + verb, "The KYC application has been " + verb + " successfully", false)
  }

  /** What the control renders: a badge alone, or the two buttons with their disabled flags. */
  datatype View = BadgeOnly(badge: Badge) | ActionButtons(approveDisabled: bool, rejectDisabled: bool)

  /** The control bound to one application row. */
  class ReviewControl {
    const applicationId: int
    /** The `currentStatus` prop, as last passed by the owner. */
    var currentStatus: string
    /** The action whose request is in flight (`isLoading`). */
    var isLoading: Option<Action>
    /** The actions whose requests have been sent and not yet settled, oldest first. */
    var inFlight: seq<Action>
    var sent: seq<ReviewRequest>
    /** The arguments of every `onStatusChange` call so far. */
    var reported: seq<string>
    var events: seq<Event>

    constructor (applicationId: int, currentStatus: string)
      ensures this.applicationId == applicationId && this.currentStatus == currentStatus
      ensures isLoading == None && inFlight == [] && sent == [] && reported == [] && events == []
    {
      this.applicationId := applicationId;
      this.currentStatus := currentStatus;
      isLoading, inFlight, sent, reported, events := None, [], [], [], [];
    }

    /** Not PENDING: the badge only. PENDING: both buttons, the one in flight disabled. */
    function Render(): (v: View)
      reads this
      ensures currentStatus != "PENDING" <==> v.BadgeOnly?
      ensures v.BadgeOnly? ==> v.badge == GetStatusBadge(currentStatus)
      ensures v.ActionButtons? ==> v.approveDisabled == (isLoading == Some(Approve)) && v.rejectDisabled == (isLoading == Some(Reject))
    {
      if currentStatus != "PENDING" then BadgeOnly(GetStatusBadge(currentStatus))
      else ActionButtons(isLoading == Some(Approve), isLoading == Some(Reject))
    }

    /** `handleAction` up to the awaited PATCH: a cancelled or empty rejection prompt sends nothing. */
    method BeginAction(action: Action, prompt: Option<string>) returns (request: Option<ReviewRequest>)
      requires currentStatus == "PENDING" && isLoading != Some(action)
      modifies this`isLoading, this`inFlight, this`sent
      ensures request == RequestFor(applicationId, action, prompt)
      ensures request.Some? ==> isLoading == Some(action) && inFlight == old(inFlight) + [action] && sent == old(sent) + [request.value]
      ensures request.None? ==> isLoading == None && inFlight == old(inFlight) && sent == old(sent)
    {
      isLoading := Some(action);
      var requestData := ReviewRequest(applicationId, action, None);
      if action == Reject {
        if prompt.None? || prompt.value == "" {
          isLoading := None;
          return None;
        }
        requestData := requestData.(rejectionReason := prompt);
      }
      request := Some(requestData);
      sent := sent + [requestData];
      inFlight := inFlight + [action];
    }

    /** `handleAction` after the k-th outstanding PATCH settles; `isLoading` is always cleared. */
    method CompleteAction(k: nat, response: Response<string>)
      requires k < |inFlight|
      modifies this`isLoading, this`inFlight, this`reported, this`events
      ensures isLoading == None
      ensures inFlight == old(inFlight[..k] + inFlight[k + 1..])
      ensures reported == if response.Ok? then old(reported) + [response.data] else old(reported)
      ensures events == old(events) + [
                if response.Ok? then SuccessToast(old(inFlight[k]))
                else Toast(FailureTitle(old(inFlight[k])), FailureMessage(old(inFlight[k]), response.failure), true)]
    {
      var action := inFlight[k];
      inFlight := inFlight[..k] + inFlight[k + 1..];
      match response {
        case Ok(newStatus) =>
          reported := reported + [newStatus];
          events := events + [SuccessToast(action)];
        case Err(failure) =>
          events := events + [Toast(FailureTitle(action), FailureMessage(action, failure), true)];
      }
      isLoading := None;
    }

    /** The owner re-renders the control with a new `currentStatus`. */
    method ReceiveStatus(status: string)
      modifies this`currentStatus
      ensures currentStatus == status
    {
      currentStatus := status;
    }
  }
}
