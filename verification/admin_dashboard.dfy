/** AdminDashboard.jsx: one search box drives three listings (lab records,
    users, collections), each a panel with its own loading and error state;
    a details dialog shows whichever item was clicked. */
module AdminDashboardPage {
  import opened Common
  import opened Text
  import opened Models
  import opened Search
  import opened ClientText
  import LabController
  import CollectionController
  import AdminController

  const LabLoadFailed := "Failed to load lab records"
  const UsersLoadFailed := "Failed to load users"
  const CollectionsLoadFailed := "Failed to load collections"

  /** One `{ items, loading, error }` state. */
  class Panel<T> {
    var items: seq<T>
    var loading: bool
    var error: string

    constructor ()
      ensures items == [] && !loading && error == ""
    {
      items, loading, error := [], false, "";
    }

    /** The functional `set...(s => ({ ...s, loading: true, error: '' }))`:
        items stay on screen while loading. */
    method Start()
      modifies this
      ensures loading && error == "" && items == old(items)
    {
      loading := true;
      error := "";
    }

    /** The reply: its list (`|| []`), or an empty list and the server's
        message or `fallback`. */
    method Finish(reply: Fetched<Option<seq<T>>>, fallback: string)
      requires fallback != ""
      modifies this
      ensures !loading
      ensures reply.Success? ==>
                error == "" && items == (if reply.data.Some? then reply.data.value else [])
      ensures reply.Failure? ==>
                items == [] && error == FailureText(reply.message, fallback) && error != ""
    {
      match reply {
        case Success(data) =>
          items := if data.Some? then data.value else [];
          error := "";
        case Failure(message) =>
          items := [];
          error := FailureText(message, fallback);
      }
      loading := false;
    }
  }

  datatype Listing = LabListing | UserListing | CollectionListing

  /** One GET of the refresh: its path and its `q` parameter. */
  datatype ListRequest = ListRequest(listing: Listing, path: string, q: Option<string>)

  /** The effect run when the debounced search changes: the three fetches,
      all from the same normalised query. */
  function RefreshRequests(search: Option<string>): (rs: seq<ListRequest>)
    ensures |rs| == 3
    ensures rs[0].listing == LabListing && rs[0].path == "/lab"
    ensures rs[1].listing == UserListing && rs[1].path == "/admin/users"
    ensures rs[2].listing == CollectionListing && rs[2].path == "/collections/all"
    ensures forall i :: 0 <= i < 3 ==> rs[i].q == QueryParam(search)
  {
    var q := QueryParam(search);
    [ListRequest(LabListing, "/lab", q), ListRequest(UserListing, "/admin/users", q),
     ListRequest(CollectionListing, "/collections/all", q)]
  }

  /** The short code of a 24-hex id has no white space at its edges. */
  lemma HexCodeHasNoEdgeSpace(id: string)
    requires IsHex24(id)
    ensures |ShortId(Some(id))| == 6 && NoEdgeSpace(ShortId(Some(id)))
  {
    var code := ShortId(Some(id));
    assert code == id[18..];
    assert code[0] == id[18] && code[5] == id[23];
    assert IsHexDigit(id[18]) && IsHexDigit(id[23]);
  }

  /** Typing a record's badge (`#` and its short code) finds it in the lab
      listing the refresh asks for. */
  lemma {:induction false} BadgeFindsLabRecord(records: seq<LabRecordDoc>, r: LabRecordDoc, p: string, q: string)
    requires r in records && IsHex24(r.id)
    requires AllSpace(p) && AllSpace(q)
    ensures var req := RefreshRequests(Some(p + "#" + ShortId(Some(r.id)) + q))[0];
            r in LabController.ListLabRecords(records, req.q).value
  {
    var code := ShortId(Some(r.id));
    HexCodeHasNoEdgeSpace(r.id);
    BadgeSearchFinds(r.id, code, p, q);
    var req := RefreshRequests(Some(p + "#" + code + q))[0];
    assert req.q == Some(code);
    assert LabController.Listed(req.q, r);
    var listed := LabController.ListLabRecords(records, req.q).value;
    assert multiset(listed)[r] == multiset(records)[r];
  }

  /** The fields `renderDetails` looks at. */
  datatype DetailsData = DetailsData(species: Option<string>, batchId: Option<string>, status: Option<string>)

  datatype DetailsKind = CollectionDetails | LabDetails | UserDetails

  /** `renderDetails`: nothing for no data, a collection when `species` is
      truthy, else a lab record when `batchId` or `status` is, else a user. */
  function Classify(data: Option<DetailsData>): (k: Option<DetailsKind>)
    ensures k.None? <==> data.None?
    ensures k == Some(CollectionDetails) <==> data.Some? && Truthy(data.value.species)
    ensures k == Some(LabDetails) <==>
              data.Some? && !Truthy(data.value.species) && (Truthy(data.value.batchId) || Truthy(data.value.status))
  {
    match data
    case None => None
    case Some(d) =>
      if Truthy(d.species) then Some(CollectionDetails)
      else if Truthy(d.batchId) || Truthy(d.status) then Some(LabDetails)
      else Some(UserDetails)
  }

  function CollectionData(c: CollectionDoc): DetailsData { DetailsData(Some(c.species), None, None) }
  function LabData(r: LabRecordDoc): DetailsData { DetailsData(None, r.batchId, Some(r.status)) }
  function UserData(u: UserView): DetailsData { DetailsData(None, None, None) }

  /** Every item the three listings return is shown with the right details:
      a stored collection always has a species, a lab record with a status
      has no species, and a user has none of the three fields. */
  lemma DetailsMatchSource(c: CollectionDoc, r: LabRecordDoc, u: UserView)
    requires CollectionValid(c) && r.status != ""
    ensures Classify(Some(CollectionData(c))) == Some(CollectionDetails)
    ensures Classify(Some(LabData(r))) == Some(LabDetails)
    ensures Classify(Some(UserData(u))) == Some(UserDetails)
  {
  }

  /** `StatusBadge`'s label: the three statuses by name, any other value as
      itself, `'unknown'` when falsy. */
  function BadgeLabel(status: Option<string>): (shown: string)
    ensures shown != ""
    ensures forall s: LabStatus :: status == Some(StatusName(s)) ==>
              shown == match s case Pending => "Pending" case Pass => "Pass" case Fail => "Fail"
    ensures Truthy(status) && ParseStatus(status.value).None? ==> shown == status.value
  {
    if status == Some("pending") then "Pending"
    else if status == Some("pass") then "Pass"
    else if status == Some("fail") then "Fail"
    else if Truthy(status) then status.value
    else "unknown"
  }

  /** Different statuses the schema knows never share a badge. */
  lemma BadgesDistinct(a: LabStatus, b: LabStatus)
    requires BadgeLabel(Some(StatusName(a))) == BadgeLabel(Some(StatusName(b)))
    ensures a == b
  {
  }

  class Dashboard {
    var lab: Panel<LabRecordDoc>
    var users: Panel<UserView>
    var cols: Panel<CollectionDoc>

    constructor ()
      ensures fresh(lab) && fresh(users) && fresh(cols)
      ensures lab.items == [] && users.items == [] && cols.items == []
    {
      lab := new Panel();
      users := new Panel();
      cols := new Panel();
    }

    /** The three `fetch...` calls of one refresh, start to finish. */
    method Refresh(search: Option<string>, labReply: Fetched<Option<seq<LabRecordDoc>>>,
                   userReply: Fetched<Option<seq<UserView>>>, colReply: Fetched<Option<seq<CollectionDoc>>>)
      returns (requests: seq<ListRequest>)
      requires lab != users as object && users as object != cols && lab as object != cols
      modifies lab, users, cols
      ensures requests == RefreshRequests(search)
      ensures !lab.loading && !users.loading && !cols.loading
      ensures labReply.Failure? ==> lab.items == [] && lab.error == FailureText(labReply.message, LabLoadFailed)
      ensures userReply.Failure? ==> users.items == [] && users.error == FailureText(userReply.message, UsersLoadFailed)
      ensures colReply.Failure? ==> cols.items == [] && cols.error == FailureText(colReply.message, CollectionsLoadFailed)
      ensures labReply.Success? ==>
                lab.error == "" && lab.items == (if labReply.data.Some? then labReply.data.value else [])
      ensures userReply.Success? ==>
                users.error == "" && users.items == (if userReply.data.Some? then userReply.data.value else [])
      ensures colReply.Success? ==>
                cols.error == "" && cols.items == (if colReply.data.Some? then colReply.data.value else [])
    {
      requests := RefreshRequests(search);
      lab.Start();
      users.Start();
      cols.Start();
      lab.Finish(labReply, LabLoadFailed);
      users.Finish(userReply, UsersLoadFailed);
      cols.Finish(colReply, CollectionsLoadFailed);
    }
  }
}
