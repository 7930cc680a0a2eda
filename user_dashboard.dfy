/**
 * The applicant's submission form: six text fields and two photos, the
 * validation that runs before anything is sent, the multipart payload, and
 * the local copy appended to the stored list once the server accepts it.
 */
module UserDashboard {
  import opened Wrappers
  import opened Text
  import opened Seqs
  import opened Effects
  import opened Records
  import StatusCheck
  import AdminDashboard

  /** The text fields of the form, by their `formData` key. */
  datatype Field = FullName | DateOfBirth | IdNumber | Country | Address | Email

  datatype FormData = FormData(
    fullName: string,
    dateOfBirth: string,
    idNumber: string,
    country: string,
    address: string,
    email: string)

  /** The initial form: every field empty. */
  const EmptyForm := FormData("", "", "", "", "", "")

  function Get(form: FormData, field: Field): string {
    match field
    case FullName => form.fullName
    case DateOfBirth => form.dateOfBirth
    case IdNumber => form.idNumber
    case Country => form.country
    case Address => form.address
    case Email => form.email
  }

  /** `{ ...prev, [field]: value }`: the named field takes the value, the other five keep theirs. */
  function Set(form: FormData, field: Field, value: string): (r: FormData)
    ensures Get(r, field) == value
    ensures forall g :: g != field ==> Get(r, g) == Get(form, g)
  {
    match field
    case FullName => form.(fullName := value)
    case DateOfBirth => form.(dateOfBirth := value)
    case IdNumber => form.(idNumber := value)
    case Country => form.(country := value)
    case Address => form.(address := value)
    case Email => form.(email := value)
  }

  /** An uploaded photo; its contents are never inspected. */
  datatype File = File(name: string)

  datatype FileKind = Passport | Selfie

  datatype Files = Files(passport: Option<File>, selfie: Option<File>)

  /** `{ ...prev, [type]: file }`: the named slot takes the file (or null), the other keeps its own. */
  function SetFile(files: Files, kind: FileKind, file: Option<File>): (r: Files)
    ensures kind == Passport ==> r.passport == file && r.selfie == files.selfie
    ensures kind == Selfie ==> r.selfie == file && r.passport == files.passport
  {
    match kind
    case Passport => files.(passport := file)
    case Selfie => files.(selfie := file)
  }

  /** The outcome of the two validation steps, in the order they run. */
  datatype Check = MissingInformation | MissingFiles | Ready

  predicate AllTextPresent(form: FormData) {
    forall f :: Get(form, f) != ""
  }

  /** Every text field is checked, and only when all six are present are the files checked. */
  function Validate(form: FormData, files: Files): (c: Check)
    ensures c == MissingInformation <==> !AllTextPresent(form)
    ensures c == MissingFiles <==> AllTextPresent(form) && (files.passport.None? || files.selfie.None?)
    ensures c == Ready <==> AllTextPresent(form) && files.passport.Some? && files.selfie.Some?
  {
    if form.fullName == "" || form.dateOfBirth == "" || form.idNumber == "" ||
       form.country == "" || form.address == "" || form.email == "" then
      assert Get(form, FullName) == "" || Get(form, DateOfBirth) == "" || Get(form, IdNumber) == "" ||
             Get(form, Country) == "" || Get(form, Address) == "" || Get(form, Email) == "";
      MissingInformation
    else if files.passport.None? || files.selfie.None? then MissingFiles
    else Ready
  }

  /** One entry of the multipart body. */
  datatype Part = TextPart(name: string, value: string) | FilePart(name: string, file: File)

  /** The multipart name of each text field. */
  function WireName(field: Field): string {
    match field
    case FullName => "full_name"
    case DateOfBirth => "date_of_birth"
    case IdNumber => "id_number"
    case Country => "country"
    case Address => "address"
    case Email => "email"
  }

  /** No two text fields share a multipart name, and none is used for a photo. */
  lemma WireNamesDistinct()
    ensures forall f, g :: WireName(f) == WireName(g) ==> f == g
    ensures forall f :: WireName(f) != "selfie_image" && WireName(f) != "id_document"
  {
  }

  /** The body of `POST /kyc/submit`: the six text fields, then the selfie, then the ID document. */
  function Payload(form: FormData, passport: File, selfie: File): seq<Part> {
    [ TextPart(WireName(FullName), form.fullName),
      TextPart(WireName(DateOfBirth), form.dateOfBirth),
      TextPart(WireName(IdNumber), form.idNumber),
      TextPart(WireName(Country), form.country),
      TextPart(WireName(Address), form.address),
      TextPart(WireName(Email), form.email),
      FilePart("selfie_image", selfie),
      FilePart("id_document", passport) ]
  }

  /** The receiving side's reading of a text entry: the first one with the name. */
  function TextValue(parts: seq<Part>, name: string): (r: Option<string>)
    ensures r.Some? ==> TextPart(name, r.value) in parts
  {
    if parts == [] then None
    else if parts[0].TextPart? && parts[0].name == name then Some(parts[0].value)
    else TextValue(parts[1..], name)
  }

  /** The receiving side's reading of a file entry: the first one with the name. */
  function FileValue(parts: seq<Part>, name: string): (r: Option<File>)
    ensures r.Some? ==> FilePart(name, r.value) in parts
  {
    if parts == [] then None
    else if parts[0].FilePart? && parts[0].name == name then Some(parts[0].file)
    else FileValue(parts[1..], name)
  }

  /** A text entry preceded by no other text entry of its name is the one read. */
  lemma {:induction false} TextValueAt(parts: seq<Part>, i: nat, name: string)
    requires i < |parts| && parts[i].TextPart? && parts[i].name == name
    requires forall j :: 0 <= j < i ==> !(parts[j].TextPart? && parts[j].name == name)
    ensures TextValue(parts, name) == Some(parts[i].value)
  {
    if i > 0 {
      TextValueAt(parts[1..], i - 1, name);
    }
  }

  /** A file entry preceded by no other file entry of its name is the one read. */
  lemma {:induction false} FileValueAt(parts: seq<Part>, i: nat, name: string)
    requires i < |parts| && parts[i].FilePart? && parts[i].name == name
    requires forall j :: 0 <= j < i ==> !(parts[j].FilePart? && parts[j].name == name)
    ensures FileValue(parts, name) == Some(parts[i].file)
  {
    if i > 0 {
      FileValueAt(parts[1..], i - 1, name);
    }
  }

  datatype Submission = Submission(form: FormData, passport: File, selfie: File)

  /** Reads every field of a submission back out of a multipart body by name. */
  function ParseSubmission(parts: seq<Part>): Option<Submission> {
    var fullName, dateOfBirth, idNumber := TextValue(parts, "full_name"), TextValue(parts, "date_of_birth"), TextValue(parts, "id_number");
    var country, address, email := TextValue(parts, "country"), TextValue(parts, "address"), TextValue(parts, "email");
    var selfie, passport := FileValue(parts, "selfie_image"), FileValue(parts, "id_document");
    if fullName.None? || dateOfBirth.None? || idNumber.None? || country.None? || address.None? || email.None?
       || selfie.None? || passport.None? then None
    else Some(Submission(FormData(fullName.value, dateOfBirth.value, idNumber.value, country.value, address.value, email.value),
                         passport.value, selfie.value))
  }

  /** Each text field of the payload is read back under its multipart name. */
  lemma PayloadTextField(form: FormData, passport: File, selfie: File, f: Field)
    ensures TextValue(Payload(form, passport, selfie), WireName(f)) == Some(Get(form, f))
  {
    var p := Payload(form, passport, selfie);
    match f
    case FullName => TextValueAt(p, 0, "full_name");
    case DateOfBirth => TextValueAt(p, 1, "date_of_birth");
    case IdNumber => TextValueAt(p, 2, "id_number");
    case Country => TextValueAt(p, 3, "country");
    case Address => TextValueAt(p, 4, "address");
    case Email => TextValueAt(p, 5, "email");
  }

  /** Both photos of the payload are read back under their multipart names. */
  lemma PayloadFiles(form: FormData, passport: File, selfie: File)
    ensures FileValue(Payload(form, passport, selfie), "selfie_image") == Some(selfie)
    ensures FileValue(Payload(form, passport, selfie), "id_document") == Some(passport)
  {
    var p := Payload(form, passport, selfie);
    assert forall j :: 0 <= j < 6 ==> p[j].TextPart?;
    FileValueAt(p, 6, "selfie_image");
    FileValueAt(p, 7, "id_document");
  }

  /** Every field reaches the server under its own name: reading the payload back gives the form and both photos. */
  lemma PayloadRoundTrip(form: FormData, passport: File, selfie: File)
    ensures ParseSubmission(Payload(form, passport, selfie)) == Some(Submission(form, passport, selfie))
  {
    PayloadTextField(form, passport, selfie, FullName);
    PayloadTextField(form, passport, selfie, DateOfBirth);
    PayloadTextField(form, passport, selfie, IdNumber);
    PayloadTextField(form, passport, selfie, Country);
    PayloadTextField(form, passport, selfie, Address);
    PayloadTextField(form, passport, selfie, Email);
    PayloadFiles(form, passport, selfie);
  }

  /** The local copy appended after a successful submission: the form fields, status "pending" and empty notes. */
  function NewRecord(form: FormData, id: string, submissionDate: string): (r: Application)
    ensures r.id == id && r.submissionDate == submissionDate
    ensures r.status == "pending" && r.notes == "" && r.rejectionReason == ""
    ensures forall f :: Get(form, f) == Get(FormData(r.fullName, r.dateOfBirth, r.idNumber, r.country, r.address, r.email), f)
  {
    Application(id, form.fullName, form.dateOfBirth, form.idNumber, form.country, form.address, form.email,
                "pending", submissionDate, "", "")
  }

  const MissingInformationToast := Toast("Missing Information", "Please fill in all required fields.", true)
  const MissingFilesToast := Toast("Missing Files", "Please upload both passport/ID and selfie photos.", true)
  const SubmittedToast := Toast("Application Submitted",
    "Your KYC application has been submitted successfully. You will receive an email confirmation shortly.", false)

  function SubmissionFailedToast(failure: Failure): Event {
    Toast("Submission Failed", DetailOr(failure, "Failed to submit application. Please try again."), true)
  }

  /** The form page's state. */
  class SubmissionForm {
    var formData: FormData
    var files: Files
    var isSubmitting: bool
    /** The form each outstanding POST was built from, oldest first. */
    var inFlight: seq<FormData>
    var sent: seq<seq<Part>>
    var events: seq<Event>

    constructor ()
      ensures formData == EmptyForm && files == Files(None, None) && !isSubmitting
      ensures inFlight == [] && sent == [] && events == []
    {
      formData, files, isSubmitting := EmptyForm, Files(None, None), false;
      inFlight, sent, events := [], [], [];
    }

    /** The submit button is disabled while a submission is in flight. */
    predicate SubmitEnabled()
      reads this
    {
      !isSubmitting
    }

    /** `handleInputChange`. */
    method HandleInputChange(field: Field, value: string)
      modifies this`formData
      ensures formData == Set(old(formData), field, value)
    {
      formData := Set(formData, field, value);
    }

    /** `handleFileChange`. */
    method HandleFileChange(kind: FileKind, file: Option<File>)
      modifies this`files
      ensures files == SetFile(old(files), kind, file)
    {
      files := SetFile(files, kind, file);
    }

    /**
     * `handleSubmit` up to the awaited POST: the first failing validation
     * step raises its toast and sends nothing; otherwise the multipart body
     * is built field by field and sent.
     */
    method BeginSubmit() returns (request: Option<seq<Part>>)
      modifies this`isSubmitting, this`inFlight, this`sent, this`events
      ensures var c := Validate(formData, files);
        && (request.Some? <==> c == Ready)
        && (c == MissingInformation ==> events == old(events) + [MissingInformationToast])
        && (c == MissingFiles ==> events == old(events) + [MissingFilesToast])
        && (c != Ready ==> isSubmitting == old(isSubmitting) && inFlight == old(inFlight) && sent == old(sent))
        && (c == Ready ==>
              && request.value == Payload(formData, files.passport.value, files.selfie.value)
              && !SubmitEnabled() && events == old(events)
              && inFlight == old(inFlight) + [formData] && sent == old(sent) + [request.value])
    {
      if formData.fullName == "" || formData.dateOfBirth == "" || formData.idNumber == "" ||
         formData.country == "" || formData.address == "" || formData.email == "" {
        events := events + [MissingInformationToast];
        return None;
      }
      if files.passport.None? || files.selfie.None? {
        events := events + [MissingFilesToast];
        return None;
      }
      isSubmitting := true;
      var parts: seq<Part> := [];
      parts := parts + [TextPart("full_name", formData.fullName)];
      parts := parts + [TextPart("date_of_birth", formData.dateOfBirth)];
      parts := parts + [TextPart("id_number", formData.idNumber)];
      parts := parts + [TextPart("country", formData.country)];
      parts := parts + [TextPart("address", formData.address)];
      parts := parts + [TextPart("email", formData.email)];
      parts := parts + [FilePart("selfie_image", files.selfie.value)];
      parts := parts + [FilePart("id_document", files.passport.value)];
      sent := sent + [parts];
      inFlight := inFlight + [formData];
      request := Some(parts);
    }

    /**
     * `handleSubmit` after the k-th outstanding POST settles. On success the
     * record built from the form as it was sent is appended to the stored
     * list, with the server's id or else `fallbackId`; on failure nothing is
     * stored. `isSubmitting` is false afterwards either way.
     */
    method CompleteSubmit(k: nat, storage: LocalStorage, response: Response<Option<string>>, fallbackId: string, now: string)
      requires k < |inFlight|
      modifies this`isSubmitting, this`inFlight, this`events, storage`kycApplications
      ensures SubmitEnabled()
      ensures inFlight == old(inFlight[..k] + inFlight[k + 1..])
      ensures response.Ok? ==>
                && storage.kycApplications == old(storage.kycApplications) + [NewRecord(old(inFlight[k]), OrOpt(response.data, fallbackId), now)]
                && events == old(events) + [SubmittedToast, Navigate("/status-check")]
      ensures response.Err? ==>
                && storage.kycApplications == old(storage.kycApplications)
                && events == old(events) + [SubmissionFailedToast(response.failure)]
    {
      var form := inFlight[k];
      inFlight := inFlight[..k] + inFlight[k + 1..];
      match response {
        case Ok(id) =>
          events := events + [SubmittedToast];
          var applicationData := NewRecord(form, OrOpt(id, fallbackId), now);
          var existingApplications := storage.kycApplications;
          existingApplications := existingApplications + [applicationData];
          storage.kycApplications := existingApplications;
          events := events + [Navigate("/status-check")];
        case Err(failure) =>
          events := events + [SubmissionFailedToast(failure)];
      }
      isSubmitting := false;
    }
  }

  /** An applicant whose email no earlier record carries finds the new record on the status page; otherwise the earlier one is still found. */
  lemma SubmittedRecordIsFound(apps: seq<Application>, form: FormData, id: string, now: string)
    ensures var r := NewRecord(form, id, now);
            var before := StatusCheck.LookupStatus(apps, form.email);
            StatusCheck.LookupStatus(apps + [r], form.email) == if before.Some? then before else Some(r)
  {
    FindFirstAppend(apps, NewRecord(form, id, now), StatusCheck.QueryFilter(form.email));
  }

  /** The new record is found by its id on the detail page exactly when no earlier record has that id. */
  lemma SubmittedRecordById(apps: seq<Application>, form: FormData, id: string, now: string)
    ensures FindById(apps + [NewRecord(form, id, now)], id) ==
              if FindById(apps, id).Some? then FindById(apps, id) else Some(NewRecord(form, id, now))
  {
    FindFirstAppend(apps, NewRecord(form, id, now), HasId(id));
  }

  /** A successful submission adds one pending application and leaves the other counts alone. */
  lemma SubmissionCounts(apps: seq<Application>, form: FormData, id: string, now: string)
    ensures var before, after := AdminDashboard.GetStatusCounts(apps), AdminDashboard.GetStatusCounts(apps + [NewRecord(form, id, now)]);
      && after.total == before.total + 1
      && after.pending == before.pending + 1
      && after.approved == before.approved
      && after.rejected == before.rejected
  {
    var r := NewRecord(form, id, now);
    assert forall x :: AdminDashboard.StatusIs("pending")(x) == (AdminDashboard.StatusOf(x) == "pending");
    assert forall x :: AdminDashboard.StatusIs("approved")(x) == (AdminDashboard.StatusOf(x) == "approved");
    assert forall x :: AdminDashboard.StatusIs("rejected")(x) == (AdminDashboard.StatusOf(x) == "rejected");
    KeepAppend(apps, [r], AdminDashboard.StatusIs("pending"));
    KeepAppend(apps, [r], AdminDashboard.StatusIs("approved"));
    KeepAppend(apps, [r], AdminDashboard.StatusIs("rejected"));
  }
}
