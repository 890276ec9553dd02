/** The disjunctive search filters the three listing endpoints build from
    a query `q`: exact ObjectId, case-insensitive text field, and the
    "short code" id suffix of at most 12 characters. The query text is
    matched literally. */
module Search {
  import opened Common
  import opened Text
  import opened Models

  /** `{ _id: q }` guarded by the 24-hex test: `q` denotes the record's
      ObjectId (hex digits compare without regard to case). */
  predicate IdMatch(q: string, id: string) {
    IsHex24(q) && Lower(q) == Lower(id)
  }

  /** The text of a store-assigned ObjectId: 24 lower-case hex digits. */
  predicate ObjectIdText(s: string) {
    IsHex24(s) && Lower(s) == s
  }

  /** What a value of an ObjectId-typed field is stored as: a 24-hex string
      is cast to the ObjectId it denotes, whose text is lower-case; any
      other text `isValid` lets through is kept as given. */
  function CastId(v: string): (r: string)
    ensures IsHex24(v) ==> ObjectIdText(r) && IdMatch(v, r)
    ensures !IsHex24(v) ==> r == v
  {
    LowerHex(v);
    if IsHex24(v) then Lower(v) else v
  }

  /** An optional ObjectId-typed field as stored: absent, or in cast form. */
  predicate CastForm(v: Option<string>) {
    v.None? || CastId(v.value) == v.value
  }

  /** An optional ObjectId-typed value after the cast. */
  function CastOpt(v: Option<string>): (r: Option<string>)
    ensures r.None? <==> v.None?
    ensures CastForm(r)
    ensures v.Some? && IsHex24(v.value) ==> ObjectIdText(r.value) && IdMatch(v.value, r.value)
  {
    CastIdStable(OrElse(v, ""));
    if v.Some? then Some(CastId(v.value)) else None
  }

  /** Casting a stored value again changes nothing. */
  lemma CastIdStable(v: string)
    ensures CastId(CastId(v)) == CastId(v)
  {
  }

  /** `Model.findById(id)`: the id is cast to an ObjectId, so a 24-hex id
      finds the document it denotes whatever the case of its digits; the
      first such document in store order. Any other id finds nothing. */
  function FindById<T>(s: seq<T>, key: T -> string, id: string): (r: Option<nat>)
    ensures r.Some? ==> r.value < |s| && IdMatch(id, key(s[r.value]))
    ensures r.None? <==> forall i :: 0 <= i < |s| ==> !IdMatch(id, key(s[i]))
  {
    if s == [] then None
    else if IdMatch(id, key(s[0])) then Some(0)
    else match FindById(s[1..], key, id)
      case None => None
      case Some(i) => Some(i + 1)
  }

  /** Among documents with distinct store-assigned ids, a 24-hex id finds
      exactly the document whose id it spells, in either case. */
  lemma FindByIdIgnoresCase<T>(s: seq<T>, key: T -> string, id: string, k: nat)
    requires DistinctBy(s, key) && forall i :: 0 <= i < |s| ==> ObjectIdText(key(s[i]))
    requires k < |s| && IsHex24(id) && Lower(id) == key(s[k])
    ensures FindById(s, key, id) == Some(k)
  {
    var r := FindById(s, key, id);
    assert IdMatch(id, key(s[k]));
    var j := r.value;
    assert key(s[j]) == Lower(key(s[j])) == Lower(id) == key(s[k]);
  }

  /** The `$regexMatch` of `${q}$` against `$toString: '$_id'`, only added
      when `q.length <= 12`. */
  predicate ShortCodeMatch(q: string, id: string) {
    |q| <= 12 && EndsWithIgnoringCase(id, q)
  }

  /** lab.controller.js: `batchId` equal to `q` (case-sensitive), or the
      ObjectId, or the short code. */
  predicate LabMatches(q: string, r: LabRecordDoc) {
    r.batchId == Some(q) || IdMatch(q, r.id) || ShortCodeMatch(q, r.id)
  }

  /** collection.controller.js: species contains `q` ignoring case, or the
      ObjectId, or the short code. */
  predicate CollectionMatches(q: string, c: CollectionDoc) {
    ContainsIgnoringCase(c.species, q) || IdMatch(q, c.id) || ShortCodeMatch(q, c.id)
  }

  /** admin.controller.js: the id, or email or name containing `q`
      ignoring case. */
  predicate UserMatches(q: string, u: UserDoc) {
    IdMatch(q, u.id) || ContainsIgnoringCase(u.email, q) || ContainsIgnoringCase(u.name, q)
  }

  /** A query longer than 12 characters never matches by suffix, so a lab
      record then matches only by batch id or full ObjectId. */
  lemma LongLabQueryIsExact(q: string, r: LabRecordDoc)
    requires |q| > 12
    ensures LabMatches(q, r) <==> r.batchId == Some(q) || IdMatch(q, r.id)
  {
  }

  /** The short code of an id (its last six characters), in any case, finds
      the record by suffix. */
  lemma {:induction false} ShortCodeFindsId(id: string, q: string)
    requires |id| >= 6
    requires Lower(q) == Lower(TakeLast(id, 6))
    ensures ShortCodeMatch(q, id)
  {
    LowerSuffix(id, |id| - 6);
  }

  /** Consequently every stored lab record and collection is found by its
      own short code and by its own full id. */
  lemma {:induction false} OwnCodesFindRecord(r: LabRecordDoc, c: CollectionDoc)
    requires IsHex24(r.id) && IsHex24(c.id)
    ensures LabMatches(TakeLast(r.id, 6), r) && LabMatches(r.id, r)
    ensures CollectionMatches(TakeLast(c.id, 6), c) && CollectionMatches(c.id, c)
  {
    ShortCodeFindsId(r.id, TakeLast(r.id, 6));
    ShortCodeFindsId(c.id, TakeLast(c.id, 6));
  }
}
