/** collection.controller.js: a collector logs a harvest; the owner lists
    their own, admin and lab list or search all of them and read one. */
module CollectionController {
  import opened Common
  import opened Text
  import opened Models
  import opened Ordering
  import opened Search

  /** The JSON body of POST /collections. `quantityKg` is absent when it is
      `null` or `undefined`. */
  datatype CollectionBody = CollectionBody(
    species: Option<string>,
    quantityKg: Option<real>,
    notes: Option<string>,
    location: Option<Location>,
    freshness: Option<real>,
    sizeScore: Option<real>,
    qualityNotes: Option<string>)

  const RequiredFieldsMessage := "species and quantityKg are required"

  /** What `Collection.create` checks beyond the handler's own guard: the
      required caller id, `quantityKg >= 0` and the two score ranges. */
  predicate SchemaAccepts(callerId: string, body: CollectionBody)
    requires body.quantityKg.Some?
  {
    callerId != "" && body.quantityKg.value >= 0.0
    && InScoreRange(body.freshness) && InScoreRange(body.sizeScore)
  }

  class CollectionStore {
    var collections: seq<CollectionDoc>

    /** Ids are distinct store-assigned ObjectIds; every stored collection
        passed the schema. */
    ghost predicate Valid()
      reads this
    {
      && DistinctBy(collections, CollectionId)
      && (forall i :: 0 <= i < |collections| ==> ObjectIdText(collections[i].id))
      && forall c :: c in collections ==> CollectionValid(c)
    }

    constructor ()
      ensures Valid() && collections == []
    {
      collections := [];
    }

    /** createCollection: the owner is always the authenticated caller. */
    method Create(callerId: string, body: CollectionBody, newId: string, now: nat)
      returns (reply: Reply<CollectionDoc>)
      requires Valid()
      requires ObjectIdText(newId) && forall c :: c in collections ==> c.id != newId
      modifies this
      ensures Valid()
      ensures !Truthy(body.species) || body.quantityKg.None? ==>
                reply == Err(400, RequiredFieldsMessage) && collections == old(collections)
      ensures Truthy(body.species) && body.quantityKg.Some? && !SchemaAccepts(callerId, body) ==>
                reply == Err(500, InternalError) && collections == old(collections)
      ensures reply.Ok? <==>
                Truthy(body.species) && body.quantityKg.Some? && SchemaAccepts(callerId, body)
      ensures reply.Ok? ==>
                reply.status == 201 && collections == old(collections) + [reply.value]
                && reply.value == CollectionDoc(newId, callerId, body.species.value, body.quantityKg.value,
                                                body.notes, body.location, body.freshness, body.sizeScore,
                                                body.qualityNotes, now, now)
    {
      if !Truthy(body.species) || body.quantityKg.None? {
        return Err(400, RequiredFieldsMessage);
      }
      var doc := CollectionDoc(newId, callerId, body.species.value, body.quantityKg.value,
                               body.notes, body.location, body.freshness, body.sizeScore,
                               body.qualityNotes, now, now);
      if !CollectionValid(doc) {
        // the schema validator's error reaches the handler's catch
        return Err(500, InternalError);
      }
      collections := collections + [doc];
      reply := Ok(201, doc);
    }
  }

  /** listMyCollections: exactly the caller's collections, newest first. */
  function ListMyCollections(collections: seq<CollectionDoc>, callerId: string)
    : (reply: Reply<seq<CollectionDoc>>)
    ensures reply.Ok? && reply.status == 200
    ensures NewestFirst(reply.value, CollectionCreatedAt)
    ensures forall c :: multiset(reply.value)[c] ==
              if c.collectorId == callerId then multiset(collections)[c] else 0
  {
    Ok(200, SortNewestFirst(Where(collections, (c: CollectionDoc) => c.collectorId == callerId),
                            CollectionCreatedAt))
  }

  /** The filter of listAllCollections. */
  predicate Listed(q: Option<string>, c: CollectionDoc) {
    !Truthy(q) || CollectionMatches(q.value, c)
  }

  /** listAllCollections: every collection when `q` is absent or empty,
      else those the search disjunction matches, newest first. */
  function ListAllCollections(collections: seq<CollectionDoc>, q: Option<string>)
    : (reply: Reply<seq<CollectionDoc>>)
    ensures reply.Ok? && reply.status == 200
    ensures NewestFirst(reply.value, CollectionCreatedAt)
    ensures forall c :: multiset(reply.value)[c] == if Listed(q, c) then multiset(collections)[c] else 0
  {
    Ok(200, SortNewestFirst(Where(collections, c => Listed(q, c)), CollectionCreatedAt))
  }

  /** getCollectionById: the collection the id denotes, or 404. */
  function GetCollectionById(collections: seq<CollectionDoc>, id: string): (reply: Reply<CollectionDoc>)
    ensures reply.Ok? <==> exists c :: c in collections && IdMatch(id, c.id)
    ensures reply.Ok? ==> reply.status == 200 && reply.value in collections && IdMatch(id, reply.value.id)
    ensures reply.Err? ==> reply == Err(404, NotFoundMessage)
  {
    match FindById(collections, CollectionId, id)
    case None => Err(404, NotFoundMessage)
    case Some(k) => Ok(200, collections[k])
  }

  /** A stored collection is read back by its id written in either case. */
  lemma {:induction false} GetCollectionIgnoresCase(collections: seq<CollectionDoc>, k: nat, id: string)
    requires DistinctBy(collections, CollectionId)
    requires forall i :: 0 <= i < |collections| ==> ObjectIdText(collections[i].id)
    requires k < |collections| && IsHex24(id) && Lower(id) == collections[k].id
    ensures GetCollectionById(collections, id) == Ok(200, collections[k])
  {
    FindByIdIgnoresCase(collections, CollectionId, id, k);
  }

  /** A freshly created collection, stamped no earlier than the stored
      ones, is listed for its owner and heads that list (up to ties). */
  lemma {:induction false} NewCollectionListedFirst(collections: seq<CollectionDoc>, c: CollectionDoc)
    requires forall d :: d in collections ==> d.createdAt <= c.createdAt
    ensures var mine := ListMyCollections(collections + [c], c.collectorId).value;
            c in mine && mine[0].createdAt == c.createdAt
  {
    var all := collections + [c];
    var mine := ListMyCollections(all, c.collectorId).value;
    assert all[|all| - 1] == c;
    assert multiset(mine)[c] == multiset(all)[c] > 0;
    var k :| 0 <= k < |mine| && mine[k] == c;
    assert mine[0] in multiset(mine);
    assert mine[0] in all;
    assert CollectionCreatedAt(mine[0]) >= CollectionCreatedAt(mine[k]);
  }
}
