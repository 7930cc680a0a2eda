/**
 * The admin page for one application fetched from the server: loading it
 * with the stored token, classifying fetch errors, and approving or
 * rejecting it with an optimistic patch of the shown record.
 */
module AdminApplicationView {
  import opened Wrappers
  import opened Text
  import opened Effects
  import opened Records

  /** The body of `PUT /admin/verify/{id}`: the new status and, for a rejection, the reason. */
  datatype VerifyRequest = VerifyRequest(applicationId: string, status: string, reason: Option<string>)

  /** Where a failed `GET /admin/{id}` leads. */
  datatype FetchErrorKind = SessionExpired | NotFound | LoadFailed | Unreported

  /** 401/403 end the session, 404 is "not found", other HTTP errors are generic; non-axios errors set nothing. */
  function ClassifyFetchError(failure: Failure): (k: FetchErrorKind)
    ensures k == SessionExpired <==> IsAuthError(failure)
    ensures k == NotFound <==> HasStatus(failure, 404)
    ensures k == Unreported <==> failure.OtherError?
  {
    if !failure.AxiosError? then Unreported
    else if IsAuthError(failure) then SessionExpired
    else if HasStatus(failure, 404) then NotFound
    else LoadFailed
  }

  /** The `error` a fetch failure of kind `k` sets, if any. */
  function ErrorMessage(k: FetchErrorKind): Option<string> {
    match k
    case NotFound => Some("Application not found")
    case LoadFailed => Some("Failed to load application details")
    case _ => None
  }

  /** The optimistic patch `handleApprove` applies once the PUT succeeds. */
  function Approved(app: Application): (r: Application)
    ensures r.status == "approved"
    ensures r.(status := app.status) == app
  {
    app.(status := "approved")
  }

  /** The optimistic patch `handleReject` applies once the PUT succeeds. */
  function Rejected(app: Application, reason: string): (r: Application)
    ensures r.status == "rejected" && r.rejectionReason == reason
    ensures r.(status := app.status, rejectionReason := app.rejectionReason) == app
  {
    app.(status := "rejected", rejectionReason := reason)
  }

  /** The reason box: `rejection_reason || notes`, only for a rejected application and only when non-empty. */
  function RejectionReasonShown(app: Application): (r: Option<string>)
    ensures r.Some? <==> app.status == "rejected" && (app.rejectionReason != "" || app.notes != "")
    ensures r.Some? && app.rejectionReason != "" ==> r.value == app.rejectionReason
    ensures r.Some? && app.rejectionReason == "" ==> r.value == app.notes
  {
    if app.status == "rejected" && Or(app.rejectionReason, app.notes) != "" then Some(Or(app.rejectionReason, app.notes))
    else None
  }

  /** The approve and reject buttons are shown only for a pending application. */
  predicate ActionsShown(app: Application) {
    app.status == "pending"
  }

  /** After an approval the page shows the Approved badge, no actions and no reason box. */
  lemma ApprovalIsFinal(app: Application)
    ensures StatusBadge(Approved(app).status) == ApprovedBadge
    ensures !ActionsShown(Approved(app))
    ensures RejectionReasonShown(Approved(app)).None?
  {
  }

  /** After a rejection with a non-empty reason the page shows the Rejected badge, that reason and no actions. */
  lemma RejectionShowsReason(app: Application, reason: string)
    requires reason != ""
    ensures StatusBadge(Rejected(app, reason).status) == RejectedBadge
    ensures !ActionsShown(Rejected(app, reason))
    ensures RejectionReasonShown(Rejected(app, reason)) == Some(reason)
  {
  }

  /** The patch a settled request applies to the shown record. */
  function ApplyVerdict(app: Application, request: VerifyRequest): Application {
    match request.reason
    case None => Approved(app)
    case Some(reason) => Rejected(app, reason)
  }

  /** What the page renders. */
  datatype Screen = LoadingScreen | ErrorScreen(message: string) | NotFoundScreen | DetailScreen(app: Application)

  /** The page for one route id. */
  class ApplicationView {
    const routeId: string
    var application: Option<Application>
    var isLoading: bool
    var error: Option<string>
    /** "approve" or "reject" while that request is in flight. */
    var actionLoading: Option<string>
    /** Whether the GET of `fetchApplication` has been sent and not yet settled. */
    var fetchPending: bool
    /** The requests sent and not yet settled, oldest first. */
    var inFlight: seq<VerifyRequest>
    var sent: seq<VerifyRequest>
    var events: seq<Event>

    constructor (routeId: string)
      ensures this.routeId == routeId
      ensures application == None && isLoading && error == None && actionLoading == None && !fetchPending
      ensures inFlight == [] && sent == [] && events == []
    {
      this.routeId := routeId;
      application, isLoading, error, actionLoading, fetchPending := None, true, None, None, false;
      inFlight, sent, events := [], [], [];
    }

    /** Loading first, then an error, then "not found" when nothing was loaded, else the details. */
    function Render(): (s: Screen)
      reads this
      ensures s.LoadingScreen? <==> isLoading
      ensures s.ErrorScreen? <==> !isLoading && error.Some?
      ensures s.NotFoundScreen? <==> !isLoading && error.None? && application.None?
      ensures s.DetailScreen? ==> application == Some(s.app)
    {
      if isLoading then LoadingScreen
      else if error.Some? then ErrorScreen(error.value)
      else if application.None? then NotFoundScreen
      else DetailScreen(application.value)
    }

    /** `fetchApplication` up to the awaited GET: without a token it navigates to login, loading ends and nothing is sent. */
    method BeginFetch(storage: LocalStorage) returns (requested: bool)
      modifies this`isLoading, this`events, this`fetchPending
      ensures requested <==> storage.HasAdminToken()
      ensures requested ==> isLoading == old(isLoading) && events == old(events) && fetchPending
      ensures !requested ==> !isLoading && events == old(events) + [Navigate(LoginPath)] && fetchPending == old(fetchPending)
    {
      requested := storage.HasAdminToken();
      if requested {
        fetchPending := true;
      } else {
        events := events + [Navigate(LoginPath)];
        isLoading := false;
      }
    }

    /** `fetchApplication` after the GET settles: store the record or classify the failure; loading ends on every path. */
    method CompleteFetch(storage: LocalStorage, response: Response<Application>)
      requires fetchPending
      modifies this`application, this`error, this`isLoading, this`events, this`fetchPending, storage`adminToken
      ensures !isLoading && !fetchPending
      ensures response.Ok? ==>
                application == Some(response.data) && error == None
                && storage.adminToken == old(storage.adminToken) && events == old(events)
      ensures response.Err? ==>
                var k := ClassifyFetchError(response.failure);
                && application == old(application)
                && error == (if ErrorMessage(k).Some? then ErrorMessage(k) else old(error))
                && storage.adminToken == (if k == SessionExpired then None else old(storage.adminToken))
                && events == old(events) + (if k == SessionExpired then [Navigate(LoginPath)] else [])
    {
      match response {
        case Ok(data) =>
          application := Some(data);
          error := None;
        case Err(failure) =>
          var k := ClassifyFetchError(failure);
          if k == SessionExpired {
            storage.adminToken := None;
            events := events + [Navigate(LoginPath)];
          } else if k == NotFound {
            error := Some("Application not found");
          } else if k == LoadFailed {
            error := Some("Failed to load application details");
          }
      }
      fetchPending := false;
      isLoading := false;
    }

    /**
     * The mount effect: the fetch starts only for a non-empty route id;
     * without one the page keeps loading. The record, the error and the
     * token are left to `CompleteFetch`.
     */
    method LoadOnMount(storage: LocalStorage) returns (requested: bool)
      modifies this`isLoading, this`events, this`fetchPending
      ensures routeId == "" ==> !requested && isLoading == old(isLoading) && events == old(events) && fetchPending == old(fetchPending)
      ensures routeId != "" ==> (requested <==> storage.HasAdminToken())
      ensures routeId != "" && requested ==> isLoading == old(isLoading) && events == old(events) && fetchPending
      ensures routeId != "" && !requested ==>
                !isLoading && events == old(events) + [Navigate(LoginPath)] && fetchPending == old(fetchPending)
    {
      requested := false;
      if routeId != "" {
        requested := BeginFetch(storage);
      }
    }

    /** `handleApprove` up to the awaited PUT: nothing happens without an application. */
    method BeginApprove() returns (request: Option<VerifyRequest>)
      modifies this`actionLoading, this`inFlight, this`sent
      ensures request.Some? <==> application.Some?
      ensures request.None? ==> actionLoading == old(actionLoading) && inFlight == old(inFlight) && sent == old(sent)
      ensures request.Some? ==>
                && request.value == VerifyRequest(application.value.id, "approved", None)
                && actionLoading == Some("approve")
                && inFlight == old(inFlight) + [request.value] && sent == old(sent) + [request.value]
    {
      if application.None? {
        return None;
      }
      actionLoading := Some("approve");
      var body := VerifyRequest(application.value.id, "approved", None);
      sent, inFlight := sent + [body], inFlight + [body];
      request := Some(body);
    }

    /** `handleReject` up to the awaited PUT: no application, or a cancelled or empty prompt, sends nothing. */
    method BeginReject(prompt: Option<string>) returns (request: Option<VerifyRequest>)
      modifies this`actionLoading, this`inFlight, this`sent
      ensures request.Some? <==> application.Some? && prompt.Some? && prompt.value != ""
      ensures request.None? ==> actionLoading == old(actionLoading) && inFlight == old(inFlight) && sent == old(sent)
      ensures request.Some? ==>
                && request.value == VerifyRequest(application.value.id, "rejected", prompt)
                && actionLoading == Some("reject")
                && inFlight == old(inFlight) + [request.value] && sent == old(sent) + [request.value]
    {
      if application.None? {
        return None;
      }
      if prompt.None? || prompt.value == "" {
        return None;
      }
      actionLoading := Some("reject");
      var body := VerifyRequest(application.value.id, "rejected", prompt);
      sent, inFlight := sent + [body], inFlight + [body];
      request := Some(body);
    }

    /** Either handler after its k-th outstanding PUT settles: patch on success, logout on 401/403, always clear `actionLoading`. */
    method CompleteAction(k: nat, storage: LocalStorage, response: Response<()>)
      requires k < |inFlight|
      modifies this`application, this`actionLoading, this`inFlight, this`events, storage`adminToken
      ensures actionLoading == None
      ensures inFlight == old(inFlight[..k] + inFlight[k + 1..])
      ensures application == if response.Ok? && old(application).Some?
                             then Some(ApplyVerdict(old(application).value, old(inFlight[k])))
                             else old(application)
      ensures var logout := response.Err? && IsAuthError(response.failure);
                && storage.adminToken == (if logout then None else old(storage.adminToken))
                && events == old(events) + (if logout then [Navigate(LoginPath)] else [])
    {
      var request := inFlight[k];
      inFlight := inFlight[..k] + inFlight[k + 1..];
      match response {
        case Ok(_) =>
          if application.Some? {
            application := Some(ApplyVerdict(application.value, request));
          }
        case Err(failure) =>
          if IsAuthError(failure) {
            storage.adminToken := None;
            events := events + [Navigate(LoginPath)];
          }
      }
      actionLoading := None;
    }
  }
}
