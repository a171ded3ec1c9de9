/** The clerk's view (src/components/ClerkDashboard.tsx): a live case list normalised by
    `docToCase`, a three-field search, and an add/edit form with a photo attachment. */
module Clerk {
  import opened Wrappers
  import opened Seqs
  import opened Text
  import opened Types
  import opened Backend

  /** `value || fallback` on a stored text: a missing or empty value gives the fallback. */
  function TextOr(value: Option<string>, fallback: string): string
  {
    if value.Some? && value.value != "" then value.value else fallback
  }

  /** A stored value that `||` replaces: missing, or the empty text. */
  predicate Falsy(value: Option<string>)
  {
    value.None? || value.value == ""
  }

  /** Every defined field as `docToCase` leaves it: the two fields with a non-empty fallback
      are never empty. */
  predicate Normalised(f: CaseFields)
  {
    f.courtJudgement != "" && f.status != ""
  }

  /** The fallbacks applied both when a document is read (`docToCase`) and when the form is
      submitted: '' for text, 0 for age, 'Pending' for the judgement, 'Open' for the status.
      A present, non-empty stored value is kept as it is. */
  function WithDefaults(raw: RawFields): (f: CaseFields)
    ensures Normalised(f)
    ensures raw.age.Some? ==> f.age == raw.age.value
    ensures raw.age.None? ==> f.age == 0
    ensures !Falsy(raw.caseNo) ==> f.caseNo == raw.caseNo.value
    ensures !Falsy(raw.name) ==> f.name == raw.name.value
    ensures !Falsy(raw.address) ==> f.address == raw.address.value
    ensures !Falsy(raw.fatherName) ==> f.fatherName == raw.fatherName.value
    ensures !Falsy(raw.motherName) ==> f.motherName == raw.motherName.value
    ensures !Falsy(raw.aadharNo) ==> f.aadharNo == raw.aadharNo.value
    ensures !Falsy(raw.officerName) ==> f.officerName == raw.officerName.value
    ensures !Falsy(raw.crimeType) ==> f.crimeType == raw.crimeType.value
    ensures !Falsy(raw.crimeDetails) ==> f.crimeDetails == raw.crimeDetails.value
    ensures !Falsy(raw.fingerDemographicDetails) ==> f.fingerDemographicDetails == raw.fingerDemographicDetails.value
    ensures !Falsy(raw.courtJudgement) ==> f.courtJudgement == raw.courtJudgement.value
    ensures !Falsy(raw.judgeName) ==> f.judgeName == raw.judgeName.value
    ensures !Falsy(raw.status) ==> f.status == raw.status.value
    ensures !Falsy(raw.photoBase64) ==> f.photoBase64 == raw.photoBase64.value
    ensures Falsy(raw.courtJudgement) ==> f.courtJudgement == "Pending"
    ensures Falsy(raw.status) ==> f.status == "Open"
    ensures Falsy(raw.caseNo) ==> f.caseNo == ""
    ensures Falsy(raw.aadharNo) ==> f.aadharNo == ""
    ensures Falsy(raw.photoBase64) ==> f.photoBase64 == ""
    ensures Falsy(raw.name) ==> f.name == ""
    ensures Falsy(raw.address) ==> f.address == ""
    ensures Falsy(raw.fatherName) ==> f.fatherName == ""
    ensures Falsy(raw.motherName) ==> f.motherName == ""
    ensures Falsy(raw.officerName) ==> f.officerName == ""
    ensures Falsy(raw.crimeType) ==> f.crimeType == ""
    ensures Falsy(raw.crimeDetails) ==> f.crimeDetails == ""
    ensures Falsy(raw.fingerDemographicDetails) ==> f.fingerDemographicDetails == ""
    ensures Falsy(raw.judgeName) ==> f.judgeName == ""
  {
    CaseFields(
      TextOr(raw.caseNo, ""),
      TextOr(raw.name, ""),
      if raw.age.Some? then raw.age.value else 0,
      TextOr(raw.address, ""),
      TextOr(raw.fatherName, ""),
      TextOr(raw.motherName, ""),
      TextOr(raw.aadharNo, ""),
      TextOr(raw.officerName, ""),
      TextOr(raw.crimeType, ""),
      TextOr(raw.crimeDetails, ""),
      TextOr(raw.fingerDemographicDetails, ""),
      TextOr(raw.courtJudgement, "Pending"),
      TextOr(raw.judgeName, ""),
      TextOr(raw.status, "Open"),
      TextOr(raw.photoBase64, ""))
  }

  /** `docToCase`: a stored document as a fully defined case; `now` stands for the read time
      used when a timestamp is missing. */
  function DocToCase(d: StoredCase, now: int): (c: Case)
    ensures c.id == d.id && c.fields == WithDefaults(d.raw)
    ensures d.createdAt.Some? ==> c.createdAt == d.createdAt.value
    ensures d.updatedAt.Some? ==> c.updatedAt == d.updatedAt.value
  {
    Case(d.id, WithDefaults(d.raw),
         if d.createdAt.Some? then d.createdAt.value else now,
         if d.updatedAt.Some? then d.updatedAt.value else now)
  }

  /** Normalising is idempotent: a normalised case stored back and read again is unchanged. */
  lemma {:induction false} DefaultsIdempotent(f: CaseFields)
    requires Normalised(f)
    ensures WithDefaults(RawOf(f)) == f
  {
  }

  /** Reading a document twice through `docToCase` changes nothing the second time. */
  lemma {:induction false} DocToCaseIdempotent(d: StoredCase, now: int, later: int)
    ensures var c := DocToCase(d, now);
            DocToCase(StoredCase(c.id, RawOf(c.fields), Some(c.createdAt), Some(c.updatedAt)), later) == c
  {
    DefaultsIdempotent(WithDefaults(d.raw));
  }

  /** The clerk form: `Partial<Case>`, every field optional. */
  datatype FormData = FormData(id: Option<string>, raw: RawFields, createdAt: Option<int>, updatedAt: Option<int>)

  /** The empty form, `{ status: 'Open' }`. */
  const InitialForm := FormData(None, NoFields.(status := Some("Open")), None, None)

  /** The form loaded with a case for editing. */
  function FormOf(c: Case): FormData
  {
    FormData(Some(c.id), RawOf(c.fields), Some(c.createdAt), Some(c.updatedAt))
  }

  /** The write `handleSubmit` sends: an update of the edited case without `createdAt`, or the
      creation of a new case with it; either way the fields carry `docToCase`'s fallbacks and
      `updatedAt` is refreshed. */
  function SubmitRequest(form: FormData, editing: Option<Case>): (r: Request)
    ensures r.UpdateCase? <==> editing.Some?
    ensures r.AddCase? <==> editing.None?
    ensures r.UpdateCase? ==> r.id == editing.value.id && r.payload.createdAt.None?
    ensures r.AddCase? ==> r.payload.createdAt == Some(ServerTimestamp)
    ensures (r.AddCase? || r.UpdateCase?) && r.payload.fields == WithDefaults(form.raw)
  {
    var fields := WithDefaults(form.raw);
    if editing.Some? then UpdateCase(editing.value.id, CasePayload(fields, ServerTimestamp, None))
    else AddCase(CasePayload(fields, ServerTimestamp, Some(ServerTimestamp)))
  }

  /** Saving an edit without touching the form writes the case's own fields back. */
  lemma {:induction false} UnchangedEditWritesSameFields(c: Case)
    requires Normalised(c.fields)
    ensures SubmitRequest(FormOf(c), Some(c)) == UpdateCase(c.id, CasePayload(c.fields, ServerTimestamp, None))
  {
    DefaultsIdempotent(c.fields);
  }

  /** What a new case reads back as: the created payload, once stored and passed through
      `docToCase`, gives exactly the payload's fields. */
  lemma {:induction false} CreatedCaseReadsBack(form: FormData, id: string, stamp: int, now: int)
    ensures var r := SubmitRequest(form, None);
            DocToCase(StoredCase(id, RawOf(r.payload.fields), Some(stamp), Some(stamp)), now)
              == Case(id, r.payload.fields, stamp, stamp)
  {
    DefaultsIdempotent(WithDefaults(form.raw));
  }

  /** A picked file: its declared MIME type and its size in bytes. */
  datatype FileInfo = FileInfo(mimeType: string, size: nat)

  /** The outcome of `handlePhotoChange`'s checks. */
  datatype PhotoCheck = NoFile | NotAnImage | TooLarge | Accepted

  const MaxPhotoBytes: nat := 153600
  const NotAnImageMessage := "Please select a valid image file"
  const TooLargeMessage := "Photo size must not exceed 150KB"

  /** The checks on a picked photo, in the source's order: no file, then the type, then the
      size (at most 153,600 bytes). */
  function CheckPhoto(file: Option<FileInfo>): (r: PhotoCheck)
    ensures r == NoFile <==> file.None?
    ensures r == NotAnImage <==> file.Some? && !("image/" <= file.value.mimeType)
    ensures r == TooLarge <==> file.Some? && "image/" <= file.value.mimeType && file.value.size > MaxPhotoBytes
    ensures r == Accepted <==> file.Some? && "image/" <= file.value.mimeType && file.value.size <= MaxPhotoBytes
  {
    if file.None? then NoFile
    else if !("image/" <= file.value.mimeType) then NotAnImage
    else if file.value.size > MaxPhotoBytes then TooLarge
    else Accepted
  }

  /** The worked examples: a 200,000-byte image and a text file are refused, a 100,000-byte
      JPEG and an image of exactly 153,600 bytes pass, one byte more does not. */
  lemma PhotoExamples()
    ensures CheckPhoto(Some(FileInfo("image/png", 200000))) == TooLarge
    ensures CheckPhoto(Some(FileInfo("text/plain", 10))) == NotAnImage
    ensures CheckPhoto(Some(FileInfo("image/jpeg", 100000))) == Accepted
    ensures CheckPhoto(Some(FileInfo("image/jpeg", 153600))) == Accepted
    ensures CheckPhoto(Some(FileInfo("image/jpeg", 153601))) == TooLarge
  {
    assert "image/" <= "image/png";
    assert "image/" <= "image/jpeg";
    assert "text/plain"[0] != "image/"[0];
  }

  /** The clerk search: case number, name or crime type contain the term, ignoring case. The
      identity number is not searched here. */
  predicate MatchesClerkSearch(c: Case, term: string)
  {
    || Contains(Lower(c.fields.caseNo), Lower(term))
    || Contains(Lower(c.fields.name), Lower(term))
    || Contains(Lower(c.fields.crimeType), Lower(term))
  }

  /** `filteredCases`: the cases the search keeps, in list order; an empty term keeps all. */
  function SearchCases(cases: seq<Case>, term: string): (r: seq<Case>)
    ensures Subseq(r, cases)
    ensures forall c :: c in r <==> c in cases && MatchesClerkSearch(c, term)
    ensures forall c :: multiset(r)[c] == if MatchesClerkSearch(c, term) then multiset(cases)[c] else 0
    ensures term == "" ==> r == cases
  {
    var keep := c => MatchesClerkSearch(c, term);
    FilterIsSubseq(cases, keep);
    if term == "" then
      assert Lower("") == "";
      assert forall i :: 0 <= i < |cases| ==> [] <= Lower(cases[i].fields.caseNo);
      FilterKeepsAll(cases, keep);
      Filter(cases, keep)
    else
      Filter(cases, keep)
  }

  /** A case found only through its identity number is not listed: the number's contents never
      affect the clerk search. */
  lemma IdentityNumberNotSearched(c: Case, other: string, term: string)
    ensures MatchesClerkSearch(c, term) == MatchesClerkSearch(c.(fields := c.fields.(aadharNo := other)), term)
  {
  }

  /** The clerk view's state. */
  class ClerkDashboard {
    var cases: seq<Case>
    var loading: bool
    var isAddingCase: bool
    var editingCase: Option<Case>
    var searchTerm: string
    var photoError: string
    var photoPreview: string
    var formData: FormData

    constructor ()
      ensures cases == [] && loading && !isAddingCase && editingCase == None
      ensures searchTerm == "" && photoError == "" && photoPreview == "" && formData == InitialForm
    {
      cases, loading, isAddingCase, editingCase := [], true, false, None;
      searchTerm, photoError, photoPreview, formData := "", "", "", InitialForm;
    }

    /** A snapshot of the live subscription replaces the list with its documents, each through
        `docToCase`; `now` is the delivery time. */
    method OnSnapshot(docs: seq<StoredCase>, now: int)
      modifies this`cases, this`loading
      ensures |cases| == |docs| && !loading
      ensures forall i :: 0 <= i < |docs| ==> cases[i] == DocToCase(docs[i], now)
    {
      cases := seq(|docs|, i requires 0 <= i < |docs| => DocToCase(docs[i], now));
      loading := false;
    }

    /** A failed subscription only ends loading. */
    method OnSnapshotError()
      modifies this`loading
      ensures !loading
    {
      loading := false;
    }

    /** `handlePhotoChange` up to the file read: clears the photo on no file, reports a refused
        file without touching the form, and clears the error for an accepted one. */
    method PhotoChange(file: Option<FileInfo>) returns (check: PhotoCheck)
      modifies this`photoError, this`photoPreview, this`formData
      ensures check == CheckPhoto(file)
      ensures check == NoFile ==> photoPreview == "" && photoError == ""
                                  && formData == old(formData).(raw := old(formData).raw.(photoBase64 := Some("")))
      ensures check == NotAnImage ==> photoError == NotAnImageMessage
      ensures check == TooLarge ==> photoError == TooLargeMessage
      ensures check == Accepted ==> photoError == ""
      ensures check != NoFile ==> formData == old(formData) && photoPreview == old(photoPreview)
    {
      check := CheckPhoto(file);
      photoError := "";
      if check == NoFile {
        photoPreview := "";
        formData := formData.(raw := formData.raw.(photoBase64 := Some("")));
      } else if check == NotAnImage {
        photoError := NotAnImageMessage;
      } else if check == TooLarge {
        photoError := TooLargeMessage;
      }
    }

    /** The preview's remove button: clears the preview and the form's photo, keeping the rest
        of the form; the error is left as it is. */
    method RemovePhoto()
      modifies this`photoPreview, this`formData
      ensures photoPreview == ""
      ensures formData == old(formData).(raw := old(formData).raw.(photoBase64 := Some("")))
    {
      photoPreview := "";
      formData := formData.(raw := formData.raw.(photoBase64 := Some("")));
    }

    /** `handleSubmit`: sends the write and, if it succeeds, returns the form to its initial
        closed state; if it fails, every field is kept so nothing typed is lost. */
    method Submit(failure: Option<ServiceError>) returns (request: Request)
      modifies this`formData, this`photoPreview, this`photoError, this`isAddingCase, this`editingCase
      ensures request == SubmitRequest(old(formData), old(editingCase))
      ensures failure.None? ==> formData == InitialForm && editingCase == None && !isAddingCase
                                && photoPreview == "" && photoError == ""
      ensures failure.Some? ==> formData == old(formData) && editingCase == old(editingCase)
                                && isAddingCase == old(isAddingCase)
                                && photoPreview == old(photoPreview) && photoError == old(photoError)
    {
      request := SubmitRequest(formData, editingCase);
      if failure.None? {
        if editingCase.Some? {
          editingCase := None;
        }
        formData := InitialForm;
        photoPreview := "";
        photoError := "";
        isAddingCase := false;
      }
    }

    /** The "Add New Case" button: only opens the form. Whatever the form holds stays, so a
        form kept after a failed save reopens as typed, and an edit in progress stays an edit. */
    method StartAdd()
      modifies this`isAddingCase
      ensures isAddingCase
    {
      isAddingCase := true;
    }

    /** `handleEdit`: loads the case into the form and opens it in edit mode. */
    method Edit(c: Case)
      modifies this`formData, this`photoPreview, this`photoError, this`isAddingCase, this`editingCase
      ensures editingCase == Some(c) && formData == FormOf(c) && isAddingCase
      ensures photoPreview == c.fields.photoBase64 && photoError == ""
    {
      editingCase := Some(c);
      formData := FormOf(c);
      photoPreview := c.fields.photoBase64;
      photoError := "";
      isAddingCase := true;
    }

    /** `handleCancel`: the initial form state, whatever came before. */
    method Cancel()
      modifies this`formData, this`photoPreview, this`photoError, this`isAddingCase, this`editingCase
      ensures !isAddingCase && editingCase == None && formData == InitialForm
      ensures photoPreview == "" && photoError == ""
    {
      isAddingCase := false;
      editingCase := None;
      formData := InitialForm;
      photoPreview := "";
      photoError := "";
    }

    /** The cases currently shown. */
    function Shown(): (r: seq<Case>)
      reads this
      ensures Subseq(r, cases)
      ensures searchTerm == "" ==> r == cases
    {
      SearchCases(cases, searchTerm)
    }
  }

  /** After a failed save, pressing "Add New Case" reopens the form with what was typed, and a
      second save sends the same write again. */
  method RetryAfterFailedSave(d: ClerkDashboard, failure: ServiceError) returns (first: Request, second: Request)
    modifies d
    ensures first == second == SubmitRequest(old(d.formData), old(d.editingCase))
    ensures d.formData == InitialForm && d.editingCase == None && !d.isAddingCase
  {
    first := d.Submit(Some(failure));
    d.StartAdd();
    second := d.Submit(None);
  }

  /** Editing a case and saving it unchanged writes the case back as it was, then closes the
      form. */
  method EditThenSave(d: ClerkDashboard, c: Case) returns (request: Request)
    requires Normalised(c.fields)
    modifies d
    ensures request == UpdateCase(c.id, CasePayload(c.fields, ServerTimestamp, None))
    ensures d.formData == InitialForm && d.editingCase == None && !d.isAddingCase
  {
    d.Edit(c);
    request := d.Submit(None);
    UnchangedEditWritesSameFields(c);
  }
}
