/** LabProcessing.jsx: the lab technician's form. It is cleared, filled
    from a stored record for editing, linked to a collection, and saved
    with PUT when it holds a record id and POST otherwise. */
module LabProcessingPage {
  import opened Common
  import opened Text
  import opened Models
  import opened ClientText
  import opened LabController
  import opened Search

  /** The form state: every field is a string, `''` when blank. */
  datatype LabForm = LabForm(
    id: string,
    batchId: string,
    collectionId: string,
    moisture: string,
    ashContent: string,
    pesticideLevel: string,
    microbialLoad: string,
    activeCompounds: string,
    notes: string,
    report: string,
    status: string,
    testDate: string)

  /** The initial form and what `clearForm` restores. */
  const EmptyForm := LabForm("", "", "", "", "", "", "", "", "", "", "pending", "")

  const SaveFailedMessage := "Failed to save lab record"

  /** A form field shows a truthy record field as it is and `''` for a
      falsy one. */
  predicate Blanked(x: Option<string>, shown: string) {
    if Truthy(x) then shown == x.value else shown == ""
  }

  /** `loadForEdit`: the record's fields, `''` for the falsy ones, the
      status or `'pending'`, and the date part of the test date. The server
      sends a stored date as its ISO text, whose first ten characters are
      the date. */
  function FormFromRecord(r: LabRecordDoc): (f: LabForm)
    ensures f.id == r.id && f.status != ""
    ensures Blanked(r.batchId, f.batchId) && Blanked(r.collectionId, f.collectionId)
    ensures Blanked(r.moisture, f.moisture) && Blanked(r.ashContent, f.ashContent)
    ensures Blanked(r.pesticideLevel, f.pesticideLevel) && Blanked(r.microbialLoad, f.microbialLoad)
    ensures Blanked(r.activeCompounds, f.activeCompounds) && Blanked(r.notes, f.notes)
    ensures Blanked(r.report, f.report)
    ensures r.status != "" ==> f.status == r.status
    ensures r.status == "" ==> f.status == "pending"
    ensures f.testDate == "" <==> !Truthy(r.testDate)
    ensures Truthy(r.testDate) ==> StartsWith(r.testDate.value, f.testDate) && |f.testDate| <= 10
  {
    LabForm(r.id, OrElse(r.batchId, ""), OrElse(r.collectionId, ""), OrElse(r.moisture, ""),
            OrElse(r.ashContent, ""), OrElse(r.pesticideLevel, ""), OrElse(r.microbialLoad, ""),
            OrElse(r.activeCompounds, ""), OrElse(r.notes, ""), OrElse(r.report, ""),
            if r.status != "" then r.status else "pending",
            if Truthy(r.testDate) then TakeFirst(r.testDate.value, 10) else "")
  }

  /** `undefined` for a blank field, else the field. */
  function Defined(s: string): (r: Option<string>)
    ensures r.None? <==> s == ""
    ensures r.Some? ==> r.value == s
  {
    if s == "" then None else Some(s)
  }

  /** The payload of `onSubmit`: no technician id and no record id, the
      collection id and the test date left out when blank, every other
      field sent as it stands. */
  function Payload(f: LabForm): (b: LabBody)
    ensures b.technicianId.None?
    ensures b.collectionId.None? <==> f.collectionId == ""
    ensures b.testDate.None? <==> f.testDate == ""
    ensures b.batchId == Some(f.batchId) && b.status == Some(f.status)
  {
    LabBody(Some(f.batchId), Defined(f.collectionId), None, Defined(f.testDate), Some(f.status),
            Some(f.notes), Some(f.moisture), Some(f.ashContent), Some(f.pesticideLevel),
            Some(f.microbialLoad), Some(f.activeCompounds), Some(f.report))
  }

  datatype SaveRequest = Put(id: string, body: LabBody) | Post(body: LabBody)

  /** PUT `/lab/<id>` exactly when the form holds a record id, else POST `/lab`. */
  function SaveRequestFor(f: LabForm): (r: SaveRequest)
    ensures r.Put? <==> f.id != ""
    ensures r.Put? ==> r.id == f.id
    ensures r.body == Payload(f)
  {
    if f.id != "" then Put(f.id, Payload(f)) else Post(Payload(f))
  }

  /** The Attach button: link the collection, and name the batch after the
      collection's short code only when no batch number was typed. */
  function Attached(f: LabForm, collectionId: string): (g: LabForm)
    ensures g.collectionId == collectionId
    ensures f.batchId != "" ==> g.batchId == f.batchId
    ensures f.batchId == "" ==> g.batchId == "COL-" + ShortId(Some(collectionId))
    ensures g.(collectionId := f.collectionId, batchId := f.batchId) == f
  {
    f.(collectionId := collectionId,
       batchId := if f.batchId == "" then "COL-" + TakeLast(collectionId, 6) else f.batchId)
  }

  /** Saving a record straight after loading it: the request is a PUT to
      that record, blank text fields come back as `''`, the collection and
      technician are kept, a missing status becomes `'pending'`, and a
      test date is cut to its date part. The collection id goes through the
      ObjectId cast again. */
  lemma {:induction false} ResaveEffect(r: LabRecordDoc, now: nat)
    requires r.id != ""
    ensures var req := SaveRequestFor(FormFromRecord(r));
            var u := Updated(r, req.body, now);
            && req.Put? && req.id == r.id
            && u.id == r.id && u.createdAt == r.createdAt && u.updatedAt == now
            && u.batchId == Some(OrElse(r.batchId, "")) && u.notes == Some(OrElse(r.notes, ""))
            && u.moisture == Some(OrElse(r.moisture, "")) && u.report == Some(OrElse(r.report, ""))
            && u.collectionId == (if Truthy(r.collectionId) then CastOpt(r.collectionId) else r.collectionId)
            && u.technicianId == r.technicianId
            && u.status == (if r.status != "" then r.status else "pending")
            && u.testDate == (if Truthy(r.testDate) then Some(TakeFirst(r.testDate.value, 10)) else r.testDate)
  {
    var f := FormFromRecord(r);
    if Truthy(r.collectionId) {
      assert f.collectionId == r.collectionId.value;
    } else {
      assert f.collectionId == "";
    }
  }

  /** Hence a record with every text field filled, a status and a date-only
      test date, whose collection id is stored in cast form, is saved back
      unchanged apart from its update time. */
  lemma {:induction false} ResaveIsIdentity(r: LabRecordDoc, now: nat)
    requires r.id != "" && r.status != ""
    requires Truthy(r.batchId) && Truthy(r.notes) && Truthy(r.moisture) && Truthy(r.ashContent)
    requires Truthy(r.pesticideLevel) && Truthy(r.microbialLoad) && Truthy(r.activeCompounds)
    requires Truthy(r.report)
    requires r.testDate.None? || |r.testDate.value| <= 10
    requires CastForm(r.collectionId)
    ensures Updated(r, SaveRequestFor(FormFromRecord(r)).body, now) == r.(updatedAt := now)
  {
    ResaveEffect(r, now);
  }

  class LabEditor {
    var form: LabForm
    var saving: bool
    var error: string

    constructor ()
      ensures form == EmptyForm && !saving && error == ""
    {
      form, saving, error := EmptyForm, false, "";
    }

    /** `clearForm`. */
    method ClearForm()
      modifies this
      ensures form == EmptyForm && saving == old(saving) && error == old(error)
    {
      form := EmptyForm;
    }

    /** `loadForEdit`. */
    method LoadForEdit(r: LabRecordDoc)
      modifies this
      ensures form == FormFromRecord(r) && saving == old(saving) && error == old(error)
    {
      form := FormFromRecord(r);
    }

    /** The Attach button of a listed collection. */
    method Attach(collectionId: string)
      modifies this
      ensures form == Attached(old(form), collectionId)
      ensures saving == old(saving) && error == old(error)
    {
      form := form.(collectionId := collectionId);
      if form.batchId == "" {
        form := form.(batchId := "COL-" + TakeLast(collectionId, 6));
      }
    }

    /** The first half of `onSubmit`. */
    method BeginSubmit() returns (request: SaveRequest)
      modifies this
      ensures saving && error == "" && form == old(form)
      ensures request == SaveRequestFor(form)
    {
      saving := true;
      error := "";
      var payload := Payload(form);
      if form.id != "" {
        request := Put(form.id, payload);
      } else {
        request := Post(payload);
      }
    }

    /** The second half: after a POST the form takes the new record's id
        (`''` when the reply has none), so the next save is a PUT to it; a
        failure shows the server's message or the default. */
    method FinishSubmit(request: SaveRequest, reply: Fetched<Option<string>>)
      modifies this
      ensures !saving
      ensures reply.Success? && request.Post? ==>
                form == old(form).(id := OrElse(reply.data, "")) && error == old(error)
      ensures reply.Success? && request.Put? ==> form == old(form) && error == old(error)
      ensures reply.Failure? ==>
                form == old(form) && error == FailureText(reply.message, SaveFailedMessage) && error != ""
      ensures reply.Success? && request.Post? && Truthy(reply.data) ==>
                SaveRequestFor(form) == Put(reply.data.value, Payload(old(form)))
    {
      match reply {
        case Success(newId) =>
          if request.Post? {
            form := form.(id := OrElse(newId, ""));
          }
        case Failure(message) =>
          error := FailureText(message, SaveFailedMessage);
      }
      saving := false;
    }
  }
}
