/** CollectorDashboard.jsx: the summary tiles computed from the collector's
    own list, the new-collection form with its enablement rule and reset,
    the two score sliders, and the QR code content of a selected record. */
module CollectorDashboardPage {
  import opened Common
  import opened Models
  import opened ClientText
  import opened CollectionController
  import opened Search

  /** A list element as `computeSummary` sees it: `quantityKg` is present
      only when it is a number, and `species` as given. */
  datatype Entry = Entry(quantityKg: Option<real>, species: Option<string>)

  /** The list handed to `computeSummary`: `null`/`undefined`, an array
      (whose elements may be `null`), or a value `for...of` cannot iterate. */
  datatype ItemsJson = Absent | Items(entries: seq<Option<Entry>>) | NotIterable

  datatype Summary = Summary(count: nat, totalWeight: real, uniqueSpecies: nat)

  /** What one element adds to the total weight. */
  function Weight(e: Option<Entry>): real {
    if e.Some? && e.value.quantityKg.Some? then e.value.quantityKg.value else 0.0
  }

  /** The sum of the numeric quantities, in list order. */
  function TotalWeight(s: seq<Option<Entry>>): real
    decreases |s|
  {
    if s == [] then 0.0 else TotalWeight(s[..|s| - 1]) + Weight(s[|s| - 1])
  }

  /** The species an element contributes: its species when truthy. */
  function SpeciesOf(e: Option<Entry>): set<string> {
    if e.Some? && Truthy(e.value.species) then {e.value.species.value} else {}
  }

  /** The distinct truthy species of the list. */
  function SpeciesSet(s: seq<Option<Entry>>): set<string>
    decreases |s|
  {
    if s == [] then {} else SpeciesSet(s[..|s| - 1]) + SpeciesOf(s[|s| - 1])
  }

  /** A species is counted exactly when it is truthy and some element
      carries it. */
  lemma {:induction false} SpeciesSetMembers(s: seq<Option<Entry>>, x: string)
    ensures x in SpeciesSet(s) <==>
              x != "" && exists i :: 0 <= i < |s| && s[i].Some? && s[i].value.species == Some(x)
    decreases |s|
  {
    if s != [] {
      var init := s[..|s| - 1];
      SpeciesSetMembers(init, x);
      assert forall i :: 0 <= i < |init| ==> init[i] == s[i];
      if x != "" && exists i :: 0 <= i < |s| && s[i].Some? && s[i].value.species == Some(x) {
        var i :| 0 <= i < |s| && s[i].Some? && s[i].value.species == Some(x);
        if i < |init| {
          assert init[i] == s[i];
        }
      }
    }
  }

  /** There are never more distinct species than elements. */
  lemma {:induction false} SpeciesAtMostCount(s: seq<Option<Entry>>)
    ensures |SpeciesSet(s)| <= |s|
    decreases |s|
  {
    if s != [] {
      SpeciesAtMostCount(s[..|s| - 1]);
    }
  }

  /** Appending an element adds its weight and its species. */
  lemma AppendEntry(s: seq<Option<Entry>>, e: Option<Entry>)
    ensures TotalWeight(s + [e]) == TotalWeight(s) + Weight(e)
    ensures SpeciesSet(s + [e]) == SpeciesSet(s) + SpeciesOf(e)
  {
    assert (s + [e])[..|s + [e]| - 1] == s;
    assert (s + [e])[|s + [e]| - 1] == e;
  }

  /** `computeSummary`: the list length, the total of the numeric
      quantities and the number of distinct truthy species; all zero for no
      list, and for a value the loop cannot iterate (the `catch`). */
  method ComputeSummary(items: ItemsJson) returns (summary: Summary)
    ensures items.Items? ==>
              summary == Summary(|items.entries|, TotalWeight(items.entries), |SpeciesSet(items.entries)|)
    ensures !items.Items? ==> summary == Summary(0, 0.0, 0)
    ensures summary.uniqueSpecies <= summary.count
  {
    if items.NotIterable? {
      return Summary(0, 0.0, 0);
    }
    var entries := if items.Items? then items.entries else [];
    var count := |entries|;
    var totalWeight := 0.0;
    var speciesSet: set<string> := {};
    var i := 0;
    while i < |entries|
      invariant 0 <= i <= |entries|
      invariant totalWeight == TotalWeight(entries[..i])
      invariant speciesSet == SpeciesSet(entries[..i])
    {
      var it := entries[i];
      assert entries[..i + 1] == entries[..i] + [it];
      AppendEntry(entries[..i], it);
      if it.Some? && it.value.quantityKg.Some? {
        totalWeight := totalWeight + it.value.quantityKg.value;
      }
      if it.Some? && Truthy(it.value.species) {
        speciesSet := speciesSet + {it.value.species.value};
      }
      i := i + 1;
    }
    assert entries[..|entries|] == entries;
    SpeciesAtMostCount(entries);
    summary := Summary(count, totalWeight, |speciesSet|);
  }

  /** A collection as the server lists it: a numeric quantity and a species. */
  function EntryOf(c: CollectionDoc): Option<Entry> {
    Some(Entry(Some(c.quantityKg), Some(c.species)))
  }

  function EntriesOf(cs: seq<CollectionDoc>): (r: seq<Option<Entry>>)
    ensures |r| == |cs| && forall i :: 0 <= i < |cs| ==> r[i] == EntryOf(cs[i])
    decreases |cs|
  {
    if cs == [] then [] else EntriesOf(cs[..|cs| - 1]) + [EntryOf(cs[|cs| - 1])]
  }

  /** For the stored collections the total weight is never negative and a
      non-empty list has at least one species. */
  lemma {:induction false} StoredSummaryBounds(cs: seq<CollectionDoc>)
    requires forall c :: c in cs ==> CollectionValid(c)
    ensures TotalWeight(EntriesOf(cs)) >= 0.0
    ensures |cs| > 0 ==> |SpeciesSet(EntriesOf(cs))| >= 1
    decreases |cs|
  {
    if cs != [] {
      var init, last := cs[..|cs| - 1], cs[|cs| - 1];
      StoredSummaryBounds(init);
      AppendEntry(EntriesOf(init), EntryOf(last));
      assert last in cs;
      assert last.species in SpeciesSet(EntriesOf(cs));
    }
  }

  /** `disabled={submitting || !species || !quantityKg}`, negated. */
  predicate SubmitEnabled(submitting: bool, species: string, quantity: string) {
    !submitting && species != "" && quantity != ""
  }

  /** A range input with `min={0} max={10}` only yields values in [0, 10]:
      the browser clamps the position it reports. */
  function SliderValue(position: int): (v: int)
    ensures 0 <= v <= 10
    ensures 0 <= position <= 10 ==> v == position
  {
    if position < 0 then 0 else if position > 10 then 10 else position
  }

  const SubmitFailedMessage := "Failed to submit collection"

  /** The QR code content for a selected record: `{ type: 'collection', id }`,
      none when the record has no id. */
  datatype QrCode = QrCode(kind: string, id: string)

  function QrPayload(selectedId: Option<string>): (r: Option<QrCode>)
    ensures r.Some? <==> Truthy(selectedId)
    ensures r.Some? ==> r.value.kind == "collection" && r.value.id == selectedId.value
  {
    if Truthy(selectedId) then Some(QrCode("collection", selectedId.value)) else None
  }

  /** The id a QR code carries reads back the very collection it was made
      for. */
  lemma {:induction false} QrCodeFindsCollection(cs: seq<CollectionDoc>, k: nat)
    requires DistinctBy(cs, CollectionId) && forall i :: 0 <= i < |cs| ==> ObjectIdText(cs[i].id)
    requires k < |cs|
    ensures QrPayload(Some(cs[k].id)).Some?
    ensures GetCollectionById(cs, QrPayload(Some(cs[k].id)).value.id) == Ok(200, cs[k])
  {
    GetCollectionIgnoresCase(cs, k, cs[k].id);
  }

  /** The "New Collection" form. */
  class CollectionForm {
    var species: string
    var quantity: string
    var notes: string
    var location: Option<Location>
    var freshness: int
    var sizeScore: int
    var qualityNotes: string
    var submitting: bool
    var error: string

    /** The two sliders always hold values in [0, 10]. */
    ghost predicate Valid()
      reads this
    {
      0 <= freshness <= 10 && 0 <= sizeScore <= 10
    }

    constructor ()
      ensures Valid()
      ensures species == "" && quantity == "" && notes == "" && location.None? && qualityNotes == ""
      ensures freshness == 5 && sizeScore == 5 && !submitting && error == ""
    {
      species, quantity, notes, location, qualityNotes := "", "", "", None, "";
      freshness, sizeScore := 5, 5;
      submitting, error := false, "";
    }

    /** Moving the freshness slider. */
    method SetFreshness(position: int)
      requires Valid()
      modifies this
      ensures Valid() && freshness == SliderValue(position)
      ensures sizeScore == old(sizeScore) && species == old(species) && quantity == old(quantity)
      ensures notes == old(notes) && location == old(location) && qualityNotes == old(qualityNotes)
      ensures submitting == old(submitting) && error == old(error)
    {
      freshness := SliderValue(position);
    }

    /** Moving the size/maturity slider. */
    method SetSizeScore(position: int)
      requires Valid()
      modifies this
      ensures Valid() && sizeScore == SliderValue(position)
      ensures freshness == old(freshness) && species == old(species) && quantity == old(quantity)
      ensures notes == old(notes) && location == old(location) && qualityNotes == old(qualityNotes)
      ensures submitting == old(submitting) && error == old(error)
    {
      sizeScore := SliderValue(position);
    }

    /** The first half of `handleSubmit`; `number` stands for `Number()`
        applied to the quantity text. */
    method BeginSubmit(number: string -> real) returns (body: CollectionBody)
      requires Valid()
      modifies this
      ensures Valid() && submitting && error == ""
      ensures species == old(species) && quantity == old(quantity) && notes == old(notes)
      ensures location == old(location) && qualityNotes == old(qualityNotes)
      ensures freshness == old(freshness) && sizeScore == old(sizeScore)
      ensures body == CollectionBody(Some(species), Some(number(quantity)), Some(notes), location,
                                     Some(freshness as real), Some(sizeScore as real), Some(qualityNotes))
      ensures InScoreRange(body.freshness) && InScoreRange(body.sizeScore)
    {
      submitting := true;
      error := "";
      body := CollectionBody(Some(species), Some(number(quantity)), Some(notes), location,
                             Some(freshness as real), Some(sizeScore as real), Some(qualityNotes));
    }

    /** The second half: success clears species, quantity and notes and
        keeps the location, the scores and the quality notes; failure shows
        the server's message or the default and keeps everything. */
    method Complete(reply: Fetched<CollectionDoc>)
      requires Valid()
      modifies this
      ensures Valid() && !submitting
      ensures location == old(location) && freshness == old(freshness) && sizeScore == old(sizeScore)
      ensures qualityNotes == old(qualityNotes)
      ensures reply.Success? ==> species == "" && quantity == "" && notes == "" && error == old(error)
      ensures reply.Failure? ==>
                species == old(species) && quantity == old(quantity) && notes == old(notes)
                && error == FailureText(reply.message, SubmitFailedMessage) && error != ""
    {
      match reply {
        case Success(_) =>
          species := "";
          quantity := "";
          notes := "";
        case Failure(message) =>
          error := FailureText(message, SubmitFailedMessage);
      }
      submitting := false;
    }
  }

  /** What an enabled submit button sends always passes the server's
      required-field check, and with a non-negative quantity and a signed-in
      caller it also passes the schema: the sliders keep both scores in
      range. */
  lemma EnabledSubmitIsAccepted(callerId: string, species: string, quantity: real, notes: string,
                                location: Option<Location>, freshness: int, sizeScore: int, qualityNotes: string)
    requires species != ""
    requires 0 <= freshness <= 10 && 0 <= sizeScore <= 10
    ensures var body := CollectionBody(Some(species), Some(quantity), Some(notes), location,
                                       Some(freshness as real), Some(sizeScore as real), Some(qualityNotes));
            && Truthy(body.species) && body.quantityKg.Some?
            && (callerId != "" && quantity >= 0.0 ==> SchemaAccepts(callerId, body))
  {
  }
}
