/**
 * The local-storage admin detail page: one record looked up by route id,
 * approve/reject written back into the stored list together with the notes,
 * and the notes editor.
 */
module ApplicationDetail {
  import opened Wrappers
  import opened Text
  import opened Seqs
  import opened Effects
  import opened Records

  function WithStatusAndNotes(status: string, notes: string): Application -> Application {
    (app: Application) => app.(status := status, notes := notes)
  }

  function WithNotes(notes: string): Application -> Application {
    (app: Application) => app.(notes := notes)
  }

  /** The mapper of `updateApplicationStatus`: entries with the id get the status and notes, nothing else changes. */
  function PatchStatusAndNotes(apps: seq<Application>, id: string, status: string, notes: string): (r: seq<Application>)
    ensures |r| == |apps|
    ensures forall i :: 0 <= i < |apps| && apps[i].id == id ==> r[i] == apps[i].(status := status, notes := notes)
    ensures forall i :: 0 <= i < |apps| && apps[i].id != id ==> r[i] == apps[i]
  {
    MapWhere(apps, HasId(id), WithStatusAndNotes(status, notes))
  }

  /** The mapper of Save Notes: entries with the id get the notes, nothing else changes. */
  function PatchNotes(apps: seq<Application>, id: string, notes: string): (r: seq<Application>)
    ensures |r| == |apps|
    ensures forall i :: 0 <= i < |apps| && apps[i].id == id ==> r[i] == apps[i].(notes := notes)
    ensures forall i :: 0 <= i < |apps| && apps[i].id != id ==> r[i] == apps[i]
  {
    MapWhere(apps, HasId(id), WithNotes(notes))
  }

  /** Looking the id up again in the patched list finds the patched first match: the stored entry and the shown record agree. */
  lemma LookupAfterPatch(apps: seq<Application>, id: string, status: string, notes: string)
    ensures FindById(PatchStatusAndNotes(apps, id, status, notes), id) ==
              match FindById(apps, id)
              case None => None
              case Some(app) => Some(app.(status := status, notes := notes))
  {
    FindAfterMapWhere(apps, HasId(id), WithStatusAndNotes(status, notes));
  }

  /** The toast `updateApplicationStatus` shows. */
  function StatusToast(status: string): Event {
    Toast(if status == "approved" then "Application Approved" else "Application Rejected",
          "The application has been " + status + " successfully.", false)
  }

  /** The page for one route id. */
  class DetailPage {
    const routeId: string
    var application: Option<Application>
    /** The notes text area, shared by the reject dialog and the notes editor. */
    var notes: string
    var events: seq<Event>

    /** Mounting: the first stored record with the route id, and its notes. */
    constructor Mount(routeId: string, storage: LocalStorage)
      ensures this.routeId == routeId
      ensures application == FindById(storage.kycApplications, routeId)
      ensures notes == if application.Some? then application.value.notes else ""
      ensures ShowsNotFound() <==> forall i :: 0 <= i < |storage.kycApplications| ==> storage.kycApplications[i].id != routeId
      ensures events == []
    {
      this.routeId := routeId;
      var found := FindById(storage.kycApplications, routeId);
      application := found;
      notes := if found.Some? then found.value.notes else "";
      events := [];
    }

    /** Nothing found shows the not-found view. */
    predicate ShowsNotFound()
      reads this
    {
      application.None?
    }

    /** The approve and reject dialogs are offered only for a pending record. */
    predicate ActionsOffered()
      reads this
    {
      application.Some? && application.value.status == "pending"
    }

    /** `updateApplicationStatus`: the stored list and the shown record get the same patch, with `reason || notes`. */
    method UpdateApplicationStatus(storage: LocalStorage, status: string, reason: string)
      requires application.Some?
      modifies this`application, this`events, storage`kycApplications
      ensures storage.kycApplications == PatchStatusAndNotes(old(storage.kycApplications), routeId, status, Or(reason, notes))
      ensures application == Some(old(application).value.(status := status, notes := Or(reason, notes)))
      ensures events == old(events) + [StatusToast(status), Navigate("/admin")]
    {
      var newNotes := Or(reason, notes);
      storage.kycApplications := PatchStatusAndNotes(storage.kycApplications, routeId, status, newNotes);
      application := Some(application.value.(status := status, notes := newNotes));
      events := events + [StatusToast(status), Navigate("/admin")];
    }

    /** `handleApprove`: an empty reason, so the notes keep their current text. */
    method HandleApprove(storage: LocalStorage)
      requires ActionsOffered()
      modifies this`application, this`events, storage`kycApplications
      ensures storage.kycApplications == PatchStatusAndNotes(old(storage.kycApplications), routeId, "approved", notes)
      ensures application == Some(old(application).value.(status := "approved", notes := notes))
      ensures events == old(events) + [StatusToast("approved"), Navigate("/admin")]
    {
      UpdateApplicationStatus(storage, "approved", "");
    }

    /** `handleReject`: blank notes only raise a toast; otherwise the notes become the reason. */
    method HandleReject(storage: LocalStorage)
      requires ActionsOffered()
      modifies this`application, this`events, storage`kycApplications
      ensures IsBlank(notes) ==>
                && storage.kycApplications == old(storage.kycApplications) && application == old(application)
                && events == old(events) + [Toast("Rejection Reason Required", "Please provide a reason for rejecting this application.", true)]
      ensures !IsBlank(notes) ==>
                && storage.kycApplications == PatchStatusAndNotes(old(storage.kycApplications), routeId, "rejected", notes)
                && application == Some(old(application).value.(status := "rejected", notes := notes))
                && events == old(events) + [StatusToast("rejected"), Navigate("/admin")]
    {
      TrimEmptyIffBlank(notes);
      if Trim(notes) == "" {
        events := events + [Toast("Rejection Reason Required", "Please provide a reason for rejecting this application.", true)];
        return;
      }
      UpdateApplicationStatus(storage, "rejected", notes);
    }

    /** Typing in either text area. */
    method EditNotes(value: string)
      modifies this`notes
      ensures notes == value
    {
      notes := value;
    }

    /** Save Notes: only the notes of the entries with the route id change. */
    method SaveNotes(storage: LocalStorage)
      requires application.Some?
      modifies this`events, storage`kycApplications
      ensures storage.kycApplications == PatchNotes(old(storage.kycApplications), routeId, notes)
      ensures events == old(events) + [Toast("Notes Saved", "Your notes have been saved successfully.", false)]
    {
      storage.kycApplications := PatchNotes(storage.kycApplications, routeId, notes);
      events := events + [Toast("Notes Saved", "Your notes have been saved successfully.", false)];
    }
  }
}
