# KYC verification front end — a Dafny model

This project models the page logic of a KYC (know-your-customer) verification web front end.

- **Applicants** fill in a form with six text fields and two photos. They submit it to the server as a multipart body. A copy is kept in the browser's local storage.
- **Applicants** later look up their status by email or ID number.
- **Administrators** have two dashboards:
  - an older one over the local list, with lower-case statuses;
  - a newer one over the server's list, with upper-case statuses.

  Both dashboards search, filter by status and count.
- **Administrators** approve or reject an application in three places:
  - inline, with a review control on the new dashboard;
  - on a server-backed detail page;
  - on a local detail page that also keeps free-text notes.

Each page is one module. The pages' shared vocabulary sits in six small modules:

- `Wrappers`: JavaScript `null`, as `Option`.
- `Text`: the string operations the pages use, each written out.
  - `toLowerCase` / `toUpperCase`;
  - `includes`;
  - `trim` and `||` on strings;
  - the "capitalise" of the failure toasts.
- `Seqs`: `filter`, `filter().length`, `find`, and a `map` that rewrites the selected entries. These carry the reusable lemmas: ordered selection, filter composition, counts, and lookup after append and after a patch.
- `Effects`: what a handler does to the outside world.
  - Toasts and navigations are recorded as an `events` sequence.
  - Settled HTTP calls are `Response` values: data, or an axios/other failure with an optional status, `detail` and `message`.
- `Records`: the local-storage application record, the `LocalStorage` object (application list and admin token) and the lower-case status badge.
- `Tally`: the per-status counters both admin dashboards show.

Where a page keeps state, it is a class with that state as fields.

Every `await` splits a handler in two:

- a `Begin…` (or `Start…`) method runs up to the request, records it as outstanding (in `sent`/`inFlight`, or a pending flag for a page's own fetch) and returns it or whether it was sent;
- a `Complete…` method takes an outstanding request (the k-th, where several can be in flight) and its `Response`.

This keeps the in-flight states the pages render, such as disabled buttons and spinners, observable. Handlers without an `await` are single methods.

## Model

| member | source | states |
|---|---|---|
| Text.ToLower | src/pages/AdminDashboardNew.tsx:89 | each letter A–Z becomes its lower-case form and every other character is kept, so the result has the same length and no upper-case letter |
| Text.ToUpper | src/pages/KYCReviewActions.tsx:65 | each letter a–z becomes its upper-case form and every other character is kept, so the result has the same length and no lower-case letter |
| Text.ToLowerIdempotent | src/pages/AdminDashboardNew.tsx:88 | lower-casing an already lower-cased string changes nothing |
| Text.ToUpperIdempotent | src/pages/KYCReviewActions.tsx:65 | upper-casing an already upper-cased string changes nothing |
| Text.ContainsIffOccurs | src/pages/AdminDashboardNew.tsx:91-93 | `includes` holds exactly when the needle occurs at some position of the haystack |
| Text.TrimStart | src/pages/ApplicationDetail.tsx:56 | the result is a suffix, the dropped prefix is all whitespace, and the result does not start with whitespace |
| Text.TrimEnd | src/pages/ApplicationDetail.tsx:56 | the result is a prefix, the dropped suffix is all whitespace, and the result does not end with whitespace |
| Text.TrimEmptyIffBlank | src/pages/ApplicationDetail.tsx:56 | `!notes.trim()` holds exactly when the notes are empty or all whitespace |
| Seqs.Keep | src/pages/AdminDashboard.tsx:26-34 | `filter` returns no more elements than it is given, every returned element is from the input and passes, and every passing input element is returned |
| Seqs.KeepIsOrderedSelection | src/pages/AdminDashboardNew.tsx:90-100 | `filter` returns the elements at strictly increasing positions of the input, and those are exactly the positions whose element passes |
| Seqs.KeepKeep | src/pages/AdminDashboardNew.tsx:86-101 | filtering twice in a row is filtering once by the conjunction |
| Seqs.KeepAppend | src/pages/UserDashboard.tsx:105 | filtering a list with an element pushed onto it is filtering the list, then the element |
| Seqs.KeepIfTwice | src/pages/AdminDashboardNew.tsx:86-103 | two filter steps, each applied only when its guard holds, keep exactly the elements passing both steps, an unguarded step counting as passed |
| Seqs.CountIsPassingPositions | src/pages/AdminDashboardNew.tsx:138-145 | `filter(p).length` is the number of positions whose element passes `p` |
| Seqs.DisjointCountsBounded | src/pages/AdminDashboardNew.tsx:138-145 | counts of mutually exclusive predicates add up to at most the list length |
| Seqs.MapWhere | src/pages/AdminDashboardNew.tsx:133-135 | the mapped list has the same length, the selected entries are rewritten and the others are left as they were |
| Seqs.MapWhereIdempotent | src/pages/AdminDashboardNew.tsx:133-135 | applying the same idempotent patch twice gives the same list as applying it once |
| Seqs.FirstIndex | src/pages/StatusCheck.tsx:18-20 | the index found is the first passing position, and there is none exactly when nothing passes |
| Seqs.FindFirst | src/pages/StatusCheck.tsx:18-20 | `find` returns a passing element from the first passing position, and returns nothing exactly when nothing passes |
| Seqs.FindFirstAppend | src/pages/UserDashboard.tsx:104-106 | pushing an element onto a list changes what `find` returns only when nothing earlier passed |
| Seqs.FindAfterMapWhere | src/pages/ApplicationDetail.tsx:33-38 | after a patch that keeps the key, `find` by that key returns the patched first match |
| Records.StatusBadge | src/pages/AdminDashboard.tsx:40-51 | "pending", "approved" and "rejected" each map to their own badge, matched exactly; anything else maps to Unknown |
| Records.FindById | src/pages/ApplicationDetail.tsx:22-24 | the record found is the first in the list with the id; none is found exactly when no record has the id |
| AdminDashboardNew.FilterIsConjunction | src/pages/AdminDashboardNew.tsx:85-104 | `FilterApplications`, the optional search step followed by the optional status step, keeps exactly the applications selected by both |
| AdminDashboardNew.FilteredIsOrderedSubsequence | src/pages/AdminDashboardNew.tsx:85-104 | the filtered list is an order-preserving subsequence of the applications, at exactly the positions that pass both filters |
| AdminDashboardNew.SearchMatchIff | src/pages/AdminDashboardNew.tsx:88-95 | the search keeps an application exactly when its lower-cased name, ID number or email is present and contains the lower-cased term |
| AdminDashboardNew.SearchTermCaseIgnored | src/pages/AdminDashboardNew.tsx:87-93 | the term is lower-cased before matching, so the same term typed in any case shows the same list |
| AdminDashboardNew.NoFilterKeepsAll | src/pages/AdminDashboardNew.tsx:88-101 | with an empty term and the filter "all", every application is shown in order |
| Tally.StatusTally | src/pages/AdminDashboardNew.tsx:138-145 | the counters of both dashboards, `AdminDashboardNew.GetStatusCounts` (upper-case statuses) and `AdminDashboard.GetStatusCounts` (lower-case, src/pages/AdminDashboard.tsx:53-61): the total is the list length, each status counter is the number of positions holding an entry with exactly that status, and with three distinct statuses pending + approved + rejected is at most the total |
| AdminDashboardNew.PatchStatus | src/pages/AdminDashboardNew.tsx:132-136 | the patch keeps the list length, sets the status on entries whose id matches, and leaves every other entry and field unchanged |
| AdminDashboardNew.PatchStatusIdempotent | src/pages/AdminDashboardNew.tsx:132-136 | reporting the same status twice leaves the list as after the first report |
| AdminDashboardNew.PatchStatusCounts | src/pages/AdminDashboardNew.tsx:132-145 | the patch keeps the total, and every entry with the id is counted under the new status |
| AdminDashboardNew.Dashboard.Mount | src/pages/AdminDashboardNew.tsx:26-50 | the page mounts with an empty list, no search term and the filter "all"; it is not refreshing, and it is loading, so the full-page spinner (`ShowsLoadingPage`) shows, exactly when a token is stored, and then a fetch is outstanding; without a token it navigates to login |
| AdminDashboardNew.Dashboard.StartFetch | src/pages/AdminDashboardNew.tsx:43-52 | a request is made, and recorded as outstanding, exactly when a token is stored; without one it navigates to login and both loading flags are cleared |
| AdminDashboardNew.Dashboard.CompleteFetch | src/pages/AdminDashboardNew.tsx:52-82 | settles the outstanding fetch; both loading flags end cleared; success replaces the list; the failure events are `FetchFailureEvents`: a 401 removes the token and reports the session expired; other axios errors toast the server message or the default text; non-axios errors toast the network error |
| AdminDashboardNew.Dashboard.Refresh | src/pages/AdminDashboardNew.tsx:106-113 | while a refresh is in flight the full-page spinner (`ShowsLoadingPage`) is not shown, and the refresh toast is always raised |
| AdminDashboardNew.Dashboard.HandleStatusChange | src/pages/AdminDashboardNew.tsx:132-136 | the list becomes the status patch of the previous list; the total count is kept, and the counter of the new status counts at least every entry with the id |
| AdminDashboardNew.Dashboard.SetSearchTerm | src/pages/AdminDashboardNew.tsx:258 | typing replaces the search term |
| AdminDashboardNew.Dashboard.HandleStatusFilterChange | src/pages/AdminDashboardNew.tsx:115-117 | choosing a filter replaces the status filter; unless it is "all", every row shown then has that status, ignoring case |
| AdminDashboardNew.Dashboard.HandleLogout | src/pages/AdminDashboardNew.tsx:123-130 | logging out removes the token, navigates to login and raises the signed-out toast |
| KYCReviewActions.RequestFor | src/pages/KYCReviewActions.tsx:24-37 | no request is made exactly for a rejection whose prompt was cancelled or left empty; an approval carries no reason; a rejection carries the prompt text, blanks included |
| KYCReviewActions.GetStatusBadge | src/pages/KYCReviewActions.tsx:64-90 | the badge is chosen by the upper-cased status, with Unknown for anything else |
| KYCReviewActions.BadgeIgnoresCase | src/pages/KYCReviewActions.tsx:64-65 | a status gets the same badge as its upper-cased form |
| KYCReviewActions.FailureTitles | src/pages/KYCReviewActions.tsx:55 | `FailureTitle` gives the failure titles "Approved Failed" and "Rejected Failed" |
| KYCReviewActions.ActionVerbs | src/pages/KYCReviewActions.tsx:44-50 | the toasts spell the actions as "approved" and "rejected" |
| KYCReviewActions.DefaultFailureMessage | src/pages/KYCReviewActions.tsx:50-53 | without a non-empty server `detail` (missing or empty, as `||` treats both), `FailureMessage` gives "Failed to approved the application" or "Failed to rejected the application" |
| KYCReviewActions.ServerDetailMessage | src/pages/KYCReviewActions.tsx:52 | a non-empty server `detail` is the failure message as it is |
| KYCReviewActions.ReviewControl.constructor | src/pages/KYCReviewActions.tsx:16-21 | a new control has nothing in flight and has sent and reported nothing |
| KYCReviewActions.ReviewControl.Render | src/pages/KYCReviewActions.tsx:92-125 | only a badge is rendered exactly when the status is not PENDING, and it is `GetStatusBadge` of the status; otherwise both buttons render, each disabled exactly while its own action is in flight |
| KYCReviewActions.ReviewControl.BeginAction | src/pages/KYCReviewActions.tsx:24-39 | the request sent is `RequestFor`; with a request, that action is loading and the request is recorded; without one, `isLoading` is back to null and nothing is sent |
| KYCReviewActions.ReviewControl.CompleteAction | src/pages/KYCReviewActions.tsx:39-61 | `isLoading` ends null; on success the server's status is reported exactly once and `SuccessToast` is shown; on failure nothing is reported and the toast with `FailureTitle` and `FailureMessage` is shown |
| KYCReviewActions.ReviewControl.ReceiveStatus | src/pages/KYCReviewActions.tsx:16-20 | the owner re-renders the control with a new current status |
| AdminApplicationView.ClassifyFetchError | src/pages/AdminApplicationView.tsx:56-69 | 401/403 end the session, 404 is the not-found case, and non-axios errors are not reported, each exactly; any other axios error is a generic load failure |
| AdminApplicationView.Approved | src/pages/AdminApplicationView.tsx:89 | approval sets the status to "approved" and changes no other field |
| AdminApplicationView.Rejected | src/pages/AdminApplicationView.tsx:119 | rejection sets the status to "rejected" and the rejection reason, and changes no other field |
| AdminApplicationView.RejectionReasonShown | src/pages/AdminApplicationView.tsx:359-362 | a reason is shown exactly for a rejected record with a rejection reason or notes; it is the rejection reason when present, otherwise the notes |
| AdminApplicationView.ApprovalIsFinal | src/pages/AdminApplicationView.tsx:359-367 | after an approval the page shows the Approved badge, no actions and no reason |
| AdminApplicationView.RejectionShowsReason | src/pages/AdminApplicationView.tsx:359-367 | after a rejection with a reason the page shows the Rejected badge, that reason and no actions |
| AdminApplicationView.ApplicationView.constructor | src/pages/AdminApplicationView.tsx:29-32 | the page starts loading, with no application, no error and no action in flight |
| AdminApplicationView.ApplicationView.Render | src/pages/AdminApplicationView.tsx:159-196 | the spinner shows exactly while loading, then the error, then "not found" exactly when nothing was loaded, and the details otherwise |
| AdminApplicationView.ApplicationView.BeginFetch | src/pages/AdminApplicationView.tsx:40-52 | a GET is sent exactly when a token is stored; without one the page navigates to login and loading ends, as the early return inside `try/finally` does |
| AdminApplicationView.ApplicationView.CompleteFetch | src/pages/AdminApplicationView.tsx:54-72 | success stores the record and clears the error; a failure applies its classification (logout, error text or nothing); `isLoading` ends false on every path |
| AdminApplicationView.ApplicationView.LoadOnMount | src/pages/AdminApplicationView.tsx:34-38 | the fetch starts only for a non-empty route id, and then exactly as `BeginFetch` states; without one nothing changes and the page keeps loading |
| AdminApplicationView.ApplicationView.BeginApprove | src/pages/AdminApplicationView.tsx:75-87 | approve is a no-op without an application; otherwise it sends `{status: "approved"}` for the record's id and marks "approve" as loading |
| AdminApplicationView.ApplicationView.BeginReject | src/pages/AdminApplicationView.tsx:101-117 | reject is a no-op without an application or with a cancelled or empty prompt; otherwise it sends the reason and marks "reject" as loading |
| AdminApplicationView.ApplicationView.CompleteAction | src/pages/AdminApplicationView.tsx:88-128 | `actionLoading` ends null; success applies the matching patch to the shown record; 401/403 remove the token and navigate to login; other failures change nothing |
| ApplicationDetail.PatchStatusAndNotes | src/pages/ApplicationDetail.tsx:33-35 | the update keeps the list length, sets the status and notes on entries with the id, and leaves every other entry and field unchanged |
| ApplicationDetail.PatchNotes | src/pages/ApplicationDetail.tsx:305-308 | saving notes changes only the `notes` field of entries with the id |
| ApplicationDetail.LookupAfterPatch | src/pages/ApplicationDetail.tsx:33-38 | after the update, looking the id up again in the stored list gives the shown record, patched the same way |
| ApplicationDetail.DetailPage.Mount | src/pages/ApplicationDetail.tsx:17-29 | the shown record is the first stored record with the route id, and its notes seed the editor; with no record the page shows "not found" |
| ApplicationDetail.DetailPage.UpdateApplicationStatus | src/pages/ApplicationDetail.tsx:31-48 | the stored list and the shown record get the same patch, with `reason` (or the current notes when the reason is empty) as the notes; a status toast is raised and the page navigates to the dashboard |
| ApplicationDetail.DetailPage.HandleApprove | src/pages/ApplicationDetail.tsx:50-53 | approval passes an empty reason, so the notes keep their current text |
| ApplicationDetail.DetailPage.HandleReject | src/pages/ApplicationDetail.tsx:55-66 | blank or whitespace-only notes only raise the reason-required toast and update nothing; otherwise the notes become the rejection notes |
| ApplicationDetail.DetailPage.EditNotes | src/pages/ApplicationDetail.tsx:267-268 | typing replaces the notes |
| ApplicationDetail.DetailPage.SaveNotes | src/pages/ApplicationDetail.tsx:304-314 | the stored list gets the notes patch and the saved toast is raised |
| AdminDashboard.FilterIsConjunction | src/pages/AdminDashboard.tsx:22-38 | `FilterApplications`, the optional search step followed by the optional status step, keeps exactly the applications selected by both |
| AdminDashboard.FilteredIsOrderedSubsequence | src/pages/AdminDashboard.tsx:22-38 | the filtered list is an order-preserving subsequence of the stored list, at exactly the positions that pass both filters |
| AdminDashboard.SearchMatchIff | src/pages/AdminDashboard.tsx:25-31 | the search keeps an application exactly when its lower-cased name, ID number or email contains the lower-cased term |
| AdminDashboard.InitialViewShowsAll | src/pages/AdminDashboard.tsx:16-20 | the list shown at mount is the stored list, and the filter agrees with it for the initial term and filter |
| AdminDashboard.UnmatchedStatusEmptiesList | src/pages/AdminDashboard.tsx:33-35 | the status filter is exact: a filter value that no stored status equals gives an empty list |
| AdminDashboard.CountsMatchStatusFilter | src/pages/AdminDashboard.tsx:53-61 | the list filtered by a status, with no search term, is as long as that status's count |
| StatusCheck.LookupStatus | src/pages/StatusCheck.tsx:18-20 | the record found is the first whose email or ID number equals the query exactly; none is found exactly when no record matches |
| StatusCheck.LookupIgnoresLaterRecords | src/pages/StatusCheck.tsx:18-20 | records after the first match do not change the result |
| StatusCheck.StatusIcon | src/pages/StatusCheck.tsx:26-37 | each status's icon agrees with its badge, and the alert icon is used exactly for the Unknown badge |
| StatusCheck.RejectionReasonShown | src/pages/StatusCheck.tsx:126-131 | the notes are shown exactly for a rejected record with non-empty notes |
| StatusCheck.StatusLookup.constructor | src/pages/StatusCheck.tsx:12-14 | the page starts with an empty query, no result and no search done |
| StatusCheck.StatusLookup.EditSearchValue | src/pages/StatusCheck.tsx:80 | typing replaces the query |
| StatusCheck.StatusLookup.HandleSearch | src/pages/StatusCheck.tsx:16-24 | the result is the lookup of the query in the stored list, the search is marked done, and the stored list is not written |
| UserDashboard.Set | src/pages/UserDashboard.tsx:38-40 | the named field takes the value and the other five keep theirs |
| UserDashboard.SetFile | src/pages/UserDashboard.tsx:42-44 | the named photo slot takes the file and the other keeps its own |
| UserDashboard.Validate | src/pages/UserDashboard.tsx:49-67 | a missing text field is reported first; the files are checked only when all six fields are present; the form is ready exactly when everything is present |
| UserDashboard.WireNamesDistinct | src/pages/UserDashboard.tsx:74-81 | no two text fields share a multipart name, and no text field uses a photo's name |
| UserDashboard.PayloadRoundTrip | src/pages/UserDashboard.tsx:73-81 | reading the multipart body built by `Payload` back by name gives the form and both photos, each under its own name |
| UserDashboard.NewRecord | src/pages/UserDashboard.tsx:95-102 | the local copy has the given id and date, status "pending", empty notes, and the form's six fields |
| UserDashboard.SubmissionForm.constructor | src/pages/UserDashboard.tsx:21-33 | the form starts empty, with no photos and nothing being submitted |
| UserDashboard.SubmissionForm.HandleInputChange | src/pages/UserDashboard.tsx:38-40 | only the named field changes |
| UserDashboard.SubmissionForm.HandleFileChange | src/pages/UserDashboard.tsx:42-44 | only the named photo changes |
| UserDashboard.SubmissionForm.BeginSubmit | src/pages/UserDashboard.tsx:46-87 | the first failing check raises its toast and sends nothing; when everything is present the multipart body is built and sent, and submitting is on, which disables the submit button |
| UserDashboard.SubmissionForm.CompleteSubmit | src/pages/UserDashboard.tsx:83-121 | on success exactly one record is appended at the end of the stored list, earlier entries are untouched, and the submitted toast and the navigation to the status page follow; on failure the message is the server `detail` or the default text and nothing is stored; submitting is off on both paths, so the submit button is enabled again |
| UserDashboard.SubmittedRecordIsFound | src/pages/UserDashboard.tsx:104-106 | after a submission, a status lookup by the applicant's email finds the new record unless an earlier record already matched |
| UserDashboard.SubmittedRecordById | src/pages/UserDashboard.tsx:104-106 | the new record is found by its id exactly when no earlier record has that id |
| UserDashboard.SubmissionCounts | src/pages/UserDashboard.tsx:104-106 | a submission adds one to the total and to the pending count, and leaves the approved and rejected counts unchanged |

## Left out

- JSX markup, styling and layout are not modelled. Only the decisions the markup makes are kept: which badge, icon, reason box, action buttons or screen is shown.
- `Text.ToLower`: maps only the ASCII letters A–Z. JavaScript's `toLowerCase` also maps non-ASCII letters, which is not modelled.
- `Text.ToUpper`: maps only a–z, for the same reason.
- Trimming uses the fixed set of ECMAScript white-space and line-terminator characters. Nothing else about Unicode is modelled.
- The network is not modelled. Each awaited HTTP call is a `Response` input.
  - A success carries the data the page reads.
  - A failure carries what the page reads: status, `detail` and `message`.
  - Request headers, the bearer token inside them and the URL host are not part of the model.
- `window.prompt` is an `Option<string>` input: a cancelled prompt is `None`.
- `Date.now()` and `new Date().toISOString()` are string inputs: the id fallback and the submission date.
- `toast`, `navigate` and the two-second `setTimeout` before navigating are recorded as events. They are recorded in call order, and the delay is not modelled.
- `console.error` logging is left out.
- The stored JSON is taken to parse. A malformed `kycApplications` value would throw, and that path is not modelled.
- A submission also stores the two `File` objects in the local record. Serialised, they carry no data, so the record does not model them.
- Identifiers of local records are modelled as strings. A numeric id returned by the server would never equal the string route parameter under `===`. The model does not capture that.
- The dialogs' open/closed flags in the local detail page are visual state only: `showApproveDialog`, `showRejectDialog`.
- `handleViewApplication` in the new dashboard only navigates to `/admin/view/{id}`. It is left out because it needs number-to-string formatting of the path.
- The route guard (`src/components/PrivateRoute.tsx`) is a single token-presence check. It is folded into the pages' own "no token, go to login" paths. The `api` instance's interceptors (`src/lib/api`) are not part of this model.
- Footer, navigation bar, trust section, landing page and the router table are static or routing-only, and are left out.
- Render scheduling and effect re-runs are left out. Each handler step is atomic, and nothing runs concurrently.
  - Where a handler awaits, its two halves can interleave with other steps through `Begin…`/`Complete…`.
  - A page's own fetch is recorded by one pending flag (`fetchPending` in both server-backed pages). A second fetch started before the first settles, such as a refresh during the first load, is not tracked separately: the first response to settle clears the flag.
  - The older dashboard's filter effect is modelled as the pure function it computes, `AdminDashboard.FilterApplications`.
- Some handlers have preconditions that stand for the condition under which the page renders their button, not for a check in the handler:
  - `ApplicationDetail.DetailPage.UpdateApplicationStatus` and `SaveNotes` require a loaded application.
  - `HandleApprove` and `HandleReject` require a pending one.
  - `KYCReviewActions.ReviewControl.BeginAction` requires the PENDING status and a button that is not disabled.
