/** lab.controller.js: creating, listing, reading and updating lab
    records. The store is a `LabStore` whose `records` the two writing
    handlers reassign; the reading handlers are functions of the stored
    records. */
module LabController {
  import opened Common
  import opened Text
  import opened Models
  import opened Ordering
  import opened Search

  /** The JSON body of POST and PUT: every field may be absent. */
  datatype LabBody = LabBody(
    batchId: Option<string>,
    collectionId: Option<string>,
    technicianId: Option<string>,
    testDate: Option<string>,
    status: Option<string>,
    notes: Option<string>,
    moisture: Option<string>,
    ashContent: Option<string>,
    pesticideLevel: Option<string>,
    microbialLoad: Option<string>,
    activeCompounds: Option<string>,
    report: Option<string>)

  const InvalidCollectionIdMessage := "Invalid collectionId. Expecting a 24-char hex ObjectId."
  const UnauthorizedMessage := "Unauthorized"

  /** The schema's status rule on creation: absent takes the default, a
      given value must be in the enum. */
  predicate StatusAccepted(status: Option<string>) {
    status.None? || ParseStatus(status.value).Some?
  }

  /** The record an update produces: fields given in the body overwrite
      (a collection id in its cast form), the others and the creation time
      are kept, `updatedAt` is refreshed. */
  function Updated(r: LabRecordDoc, body: LabBody, now: nat): LabRecordDoc {
    r.(batchId := Overwrite(body.batchId, r.batchId),
       collectionId := Overwrite(CastOpt(body.collectionId), r.collectionId),
       technicianId := Overwrite(body.technicianId, r.technicianId),
       testDate := Overwrite(body.testDate, r.testDate),
       status := if body.status.Some? then body.status.value else r.status,
       notes := Overwrite(body.notes, r.notes),
       moisture := Overwrite(body.moisture, r.moisture),
       ashContent := Overwrite(body.ashContent, r.ashContent),
       pesticideLevel := Overwrite(body.pesticideLevel, r.pesticideLevel),
       microbialLoad := Overwrite(body.microbialLoad, r.microbialLoad),
       activeCompounds := Overwrite(body.activeCompounds, r.activeCompounds),
       report := Overwrite(body.report, r.report),
       updatedAt := now)
  }

  function Overwrite(given: Option<string>, kept: Option<string>): Option<string> {
    if given.Some? then given else kept
  }

  /** Ids are distinct store-assigned ObjectIds; collection ids are stored
      in their cast form. */
  ghost predicate StoredRecords(rs: seq<LabRecordDoc>) {
    && DistinctBy(rs, LabId)
    && (forall i :: 0 <= i < |rs| ==> ObjectIdText(rs[i].id))
    && (forall i :: 0 <= i < |rs| ==> CastForm(rs[i].collectionId))
  }

  lemma AppendStored(rs: seq<LabRecordDoc>, d: LabRecordDoc)
    requires StoredRecords(rs) && ObjectIdText(d.id) && CastForm(d.collectionId)
    requires forall r :: r in rs ==> r.id != d.id
    ensures StoredRecords(rs + [d])
  {
    var t := rs + [d];
    forall i, j | 0 <= i < j < |t| ensures LabId(t[i]) != LabId(t[j]) {
      if j == |rs| {
        assert t[i] in rs;
      }
    }
  }

  lemma ReplaceStored(rs: seq<LabRecordDoc>, k: nat, d: LabRecordDoc)
    requires StoredRecords(rs) && k < |rs| && d.id == rs[k].id && CastForm(d.collectionId)
    ensures StoredRecords(rs[k := d])
  {
  }

  class LabStore {
    var records: seq<LabRecordDoc>

    ghost predicate Valid()
      reads this
    {
      StoredRecords(records)
    }

    constructor ()
      ensures Valid() && records == []
    {
      records := [];
    }

    /** createLabRecord. `objectIdValid` stands for
        `mongoose.Types.ObjectId.isValid`, which accepts at least every
        24-hex string; `newId` and `now` are what the store assigns. */
    method Create(callerId: Option<string>, body: LabBody, objectIdValid: string -> bool,
                  newId: string, now: nat) returns (reply: Reply<LabRecordDoc>)
      requires Valid()
      requires forall s :: IsHex24(s) ==> objectIdValid(s)
      requires ObjectIdText(newId) && forall r :: r in records ==> r.id != newId
      modifies this
      ensures Valid()
      ensures Truthy(body.collectionId) && !objectIdValid(body.collectionId.value) ==>
                reply == Err(400, InvalidCollectionIdMessage) && records == old(records)
      ensures Truthy(body.collectionId) && IsHex24(body.collectionId.value) ==> reply.status != 400
      ensures !(Truthy(body.collectionId) && !objectIdValid(body.collectionId.value))
              && !StatusAccepted(body.status) ==>
                reply == Err(500, InternalError) && records == old(records)
      ensures reply.Ok? <==>
                (!Truthy(body.collectionId) || objectIdValid(body.collectionId.value))
                && StatusAccepted(body.status)
      ensures reply.Ok? ==> reply.status == 201 && records == old(records) + [reply.value]
      ensures reply.Ok? ==>
                var d := reply.value;
                && d.id == newId && d.createdAt == now && d.updatedAt == now
                && d.technicianId == (if !Truthy(body.technicianId) && Truthy(callerId)
                                      then callerId else body.technicianId)
                && d.collectionId == (if Truthy(body.collectionId) then Some(CastId(body.collectionId.value)) else None)
                && d.testDate == (if Truthy(body.testDate) then body.testDate else None)
                && d.status == (if body.status.None? then StatusName(DefaultStatus) else body.status.value)
                && ParseStatus(d.status).Some?
                && d.batchId == body.batchId && d.notes == body.notes && d.report == body.report
                && d.moisture == body.moisture && d.ashContent == body.ashContent
                && d.pesticideLevel == body.pesticideLevel && d.microbialLoad == body.microbialLoad
                && d.activeCompounds == body.activeCompounds
    {
      // default technicianId to the caller's id when it is not provided
      var technicianId := body.technicianId;
      if !Truthy(technicianId) && Truthy(callerId) {
        technicianId := callerId;
      }
      // a falsy test date is cast to a missing date by the schema
      var testDate := if Truthy(body.testDate) then body.testDate else None;
      var collectionId := body.collectionId;
      if collectionId.Some? && collectionId.value != "" {
        if !objectIdValid(collectionId.value) {
          return Err(400, InvalidCollectionIdMessage);
        }
        collectionId := Some(CastId(collectionId.value));
        CastIdStable(collectionId.value);
      } else {
        collectionId := None;
      }
      // LabRecord.create: the status default, or the enum validator's rejection
      var status := StatusName(DefaultStatus);
      if body.status.Some? {
        if ParseStatus(body.status.value).None? {
          return Err(500, InternalError);
        }
        status := body.status.value;
      }
      var doc := LabRecordDoc(newId, body.batchId, collectionId, technicianId, testDate, status,
                              body.notes, body.moisture, body.ashContent, body.pesticideLevel,
                              body.microbialLoad, body.activeCompounds, body.report, now, now);
      AppendStored(records, doc);
      records := records + [doc];
      reply := Ok(201, doc);
    }

    /** updateLabRecord: `findByIdAndUpdate(id, body, { new: true })`
        without upsert. */
    method Update(id: string, body: LabBody, now: nat) returns (reply: Reply<LabRecordDoc>)
      requires Valid()
      modifies this
      ensures Valid()
      ensures |records| == |old(records)|
      ensures (forall r :: r in old(records) ==> !IdMatch(id, r.id)) ==>
                reply == Err(404, NotFoundMessage) && records == old(records)
      ensures forall k :: 0 <= k < |old(records)| && IsHex24(id) && Lower(id) == old(records)[k].id ==>
                records == old(records)[k := Updated(old(records)[k], body, now)]
                && reply == Ok(200, records[k])
    {
      var k := FindById(records, LabId, id);
      forall j | 0 <= j < |records| && IsHex24(id) && Lower(id) == records[j].id
        ensures k == Some(j)
      {
        FindByIdIgnoresCase(records, LabId, id, j);
      }
      if k.None? {
        return Err(404, NotFoundMessage);
      }
      var doc := Updated(records[k.value], body, now);
      ReplaceStored(records, k.value, doc);
      records := records[k.value := doc];
      reply := Ok(200, doc);
    }
  }

  /** The filter of the listing handlers: no filter when `q` is absent or
      empty, else the lab search disjunction. */
  predicate Listed(q: Option<string>, r: LabRecordDoc) {
    !Truthy(q) || LabMatches(q.value, r)
  }

  /** listLabRecords: the matching records, each as often as stored,
      newest first. */
  function ListLabRecords(records: seq<LabRecordDoc>, q: Option<string>): (reply: Reply<seq<LabRecordDoc>>)
    ensures reply.Ok? && reply.status == 200
    ensures NewestFirst(reply.value, LabCreatedAt)
    ensures forall x :: multiset(reply.value)[x] == if Listed(q, x) then multiset(records)[x] else 0
  {
    Ok(200, SortNewestFirst(Where(records, x => Listed(q, x)), LabCreatedAt))
  }

  /** listMyLabRecords: 401 without a caller id, else the caller's own
      matching records, newest first. */
  function ListMyLabRecords(records: seq<LabRecordDoc>, callerId: Option<string>, q: Option<string>)
    : (reply: Reply<seq<LabRecordDoc>>)
    ensures !Truthy(callerId) <==> reply == Err(401, UnauthorizedMessage)
    ensures reply.Ok? ==> reply.status == 200 && NewestFirst(reply.value, LabCreatedAt)
    ensures reply.Ok? ==>
              forall x :: multiset(reply.value)[x] ==
                if x.technicianId == callerId && Listed(q, x) then multiset(records)[x] else 0
  {
    if !Truthy(callerId) then Err(401, UnauthorizedMessage)
    else Ok(200, SortNewestFirst(Where(records, (x: LabRecordDoc) => x.technicianId == callerId && Listed(q, x)), LabCreatedAt))
  }

  /** getLabRecord: the record the id denotes, or 404. */
  function GetLabRecord(records: seq<LabRecordDoc>, id: string): (reply: Reply<LabRecordDoc>)
    ensures reply.Ok? <==> exists r :: r in records && IdMatch(id, r.id)
    ensures reply.Ok? ==> reply.status == 200 && reply.value in records && IdMatch(id, reply.value.id)
    ensures reply.Err? ==> reply == Err(404, NotFoundMessage)
  {
    match FindById(records, LabId, id)
    case None => Err(404, NotFoundMessage)
    case Some(k) => Ok(200, records[k])
  }

  /** A stored record is read back by its id written in either case. */
  lemma {:induction false} GetLabRecordIgnoresCase(records: seq<LabRecordDoc>, k: nat, id: string)
    requires DistinctBy(records, LabId) && forall i :: 0 <= i < |records| ==> ObjectIdText(records[i].id)
    requires k < |records| && IsHex24(id) && Lower(id) == records[k].id
    ensures GetLabRecord(records, id) == Ok(200, records[k])
  {
    FindByIdIgnoresCase(records, LabId, id, k);
  }
}
