/** The three Mongoose schemas: users, harvest collections and lab
    records, with the enums, defaults, required fields and numeric bounds
    the schemas declare. Ids are the string form of the store-assigned
    ObjectId; timestamps are abstract clock readings. */
module Models {
  import opened Common

  /** `role: { enum: ['collector', 'admin', 'user', 'lab'] }` */
  datatype Role = Collector | Admin | User | Lab

  function RoleName(r: Role): string {
    match r
    case Collector => "collector"
    case Admin => "admin"
    case User => "user"
    case Lab => "lab"
  }

  /** The enum check a role string must pass to be stored. */
  function ParseRole(s: string): (r: Option<Role>)
    ensures forall x: Role :: r == Some(x) <==> RoleName(x) == s
  {
    if s == "collector" then Some(Collector)
    else if s == "admin" then Some(Admin)
    else if s == "user" then Some(User)
    else if s == "lab" then Some(Lab)
    else None
  }

  /** `role: { default: 'user' }` */
  const DefaultRole: Role := User

  /** `status: { enum: ['pending', 'pass', 'fail'] }` */
  datatype LabStatus = Pending | Pass | Fail

  function StatusName(s: LabStatus): string {
    match s
    case Pending => "pending"
    case Pass => "pass"
    case Fail => "fail"
  }

  function ParseStatus(s: string): (r: Option<LabStatus>)
    ensures forall x: LabStatus :: r == Some(x) <==> StatusName(x) == s
  {
    if s == "pending" then Some(Pending)
    else if s == "pass" then Some(Pass)
    else if s == "fail" then Some(Fail)
    else None
  }

  /** `status: { default: 'pending' }` */
  const DefaultStatus: LabStatus := Pending

  datatype UserDoc = UserDoc(
    id: string,
    email: string,
    hashedPassword: string,
    name: string,
    role: Role,
    createdAt: nat,
    updatedAt: nat)

  /** `email`, `hashedPassword` and `name` are required (a required string
      must be non-empty); the role is in the enum by its type. */
  predicate UserValid(u: UserDoc) {
    u.email != "" && u.hashedPassword != "" && u.name != ""
  }

  /** A user as `select('-hashedPassword')` returns it: the type has no
      field for the hash. */
  datatype UserView = UserView(
    id: string,
    email: string,
    name: string,
    role: Role,
    createdAt: nat,
    updatedAt: nat)

  function ViewOf(u: UserDoc): UserView {
    UserView(u.id, u.email, u.name, u.role, u.createdAt, u.updatedAt)
  }

  function ViewCreatedAt(v: UserView): nat { v.createdAt }

  datatype Location = Location(lat: real, lng: real)

  datatype CollectionDoc = CollectionDoc(
    id: string,
    collectorId: string,
    species: string,
    quantityKg: real,
    notes: Option<string>,
    location: Option<Location>,
    freshness: Option<real>,
    sizeScore: Option<real>,
    qualityNotes: Option<string>,
    createdAt: nat,
    updatedAt: nat)

  /** `{ min: 0, max: 10 }` on an optional number. */
  predicate InScoreRange(v: Option<real>) {
    v.None? || (0.0 <= v.value <= 10.0)
  }

  /** `collectorId`, `species` and `quantityKg` are required,
      `quantityKg >= 0`, and the two scores lie in [0, 10] when present. */
  predicate CollectionValid(c: CollectionDoc) {
    c.collectorId != "" && c.species != "" && c.quantityKg >= 0.0
    && InScoreRange(c.freshness) && InScoreRange(c.sizeScore)
  }

  /** A lab record. `status` is kept as the stored string: creation
      validates it against the enum, an update stores what it is given. */
  datatype LabRecordDoc = LabRecordDoc(
    id: string,
    batchId: Option<string>,
    collectionId: Option<string>,
    technicianId: Option<string>,
    testDate: Option<string>,
    status: string,
    notes: Option<string>,
    moisture: Option<string>,
    ashContent: Option<string>,
    pesticideLevel: Option<string>,
    microbialLoad: Option<string>,
    activeCompounds: Option<string>,
    report: Option<string>,
    createdAt: nat,
    updatedAt: nat)

  function UserCreatedAt(u: UserDoc): nat { u.createdAt }
  function CollectionCreatedAt(c: CollectionDoc): nat { c.createdAt }
  function LabCreatedAt(r: LabRecordDoc): nat { r.createdAt }

  /** No two elements share a key (ids, or user emails). */
  predicate DistinctBy<T>(s: seq<T>, key: T -> string) {
    forall i, j :: 0 <= i < j < |s| ==> key(s[i]) != key(s[j])
  }

  function UserId(u: UserDoc): string { u.id }
  function UserEmail(u: UserDoc): string { u.email }
  function CollectionId(c: CollectionDoc): string { c.id }
  function LabId(r: LabRecordDoc): string { r.id }

  /** Position of the first document whose key is exactly `k` (`findOne`). */
  function IndexOf<T>(s: seq<T>, key: T -> string, k: string): (r: Option<nat>)
    ensures r.Some? ==> r.value < |s| && key(s[r.value]) == k
    ensures r.None? ==> forall i :: 0 <= i < |s| ==> key(s[i]) != k
  {
    if s == [] then None
    else if key(s[0]) == k then Some(0)
    else match IndexOf(s[1..], key, k)
      case None => None
      case Some(i) => Some(i + 1)
  }
}
