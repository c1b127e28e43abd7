/**
 * The results page: turns the candidates handed over by the upload flow
 * into display entries (or shows a fixed illustrative list when there are
 * none at all), and tracks which entry's detail dialog is open.
 */
module ResultsPage {
  import opened Wrappers
  import opened Values
  import opened Text
  import opened Api

  /** A display entry. `taxonClass` is the source's `class` field. */
  datatype Insect = Insect(
    id: string,
    name: string,
    commonName: string,
    confidence: int,
    image: string,
    taxonClass: string)

  const UnknownSpecies := "Unknown Species"
  const UnknownName := "Unknown"
  const Placeholder := "/placeholder.svg"
  const InsectClass := "Insecta"

  /** The fixed list shown when no result list was handed over. */
  const MockInsects: seq<Insect> := [
    Insect("1", "Papilio polytes", "Common Mormon", 94,
           "https://images.unsplash.com/photo-1526336024174-e58f5cdd8e13?w=400&h=400&fit=crop", InsectClass),
    Insect("2", "Heliconius sara", "Sara Longwing", 87,
           "https://images.unsplash.com/photo-1470114716159-e389f8712fda?w=400&h=400&fit=crop", InsectClass),
    Insect("3", "Morpho peleides", "Blue Morpho", 78,
           "https://images.unsplash.com/photo-1526571142338-d31e59c8b6f4?w=400&h=400&fit=crop", InsectClass),
    Insect("4", "Vanessa atalanta", "Red Admiral", 71,
           "https://images.unsplash.com/photo-1478632963381-916e93b83b54?w=400&h=400&fit=crop", InsectClass)
  ]

  /** `Math.round`: the nearest integer, halves rounded up. */
  function Round(x: real): int {
    (x + 0.5).Floor
  }

  /** `Math.round` picks the one integer within half a unit below or just under half above. */
  lemma RoundIsNearest(x: real, n: int)
    ensures n == Round(x) <==> (n as real - 0.5 <= x < n as real + 0.5)
  {
  }

  /** `Math.round((probability || 0) * 100)` */
  function Confidence(c: Candidate): (r: int)
    ensures c.probability.None? ==> r == 0
    ensures c.probability.Some? ==>
              r as real - 0.5 <= c.probability.value * 100.0 < r as real + 0.5
  {
    var p := c.probability.GetOr(0.0);
    Round(p * 100.0)
  }

  /** A probability in [0, 1] gives a percentage in [0, 100]. */
  lemma ConfidenceInRange(c: Candidate)
    requires c.probability.Some? ==> 0.0 <= c.probability.value <= 1.0
    ensures 0 <= Confidence(c) <= 100
  {
  }

  /** `commonNames?.[0]` */
  function FirstCommonName(c: Candidate): Option<string> {
    if c.commonNames.Some? && |c.commonNames.value| > 0 then Some(c.commonNames.value[0]) else None
  }

  /** `images?.[0]?.url` */
  function FirstImageUrl(c: Candidate): Option<string> {
    if c.images.Some? && |c.images.value| > 0 then c.images.value[0].url else None
  }

  /** The id given to the entry at position `index` whose candidate has no id. */
  function PositionalId(index: nat): (r: string)
    ensures r != ""
  {
    "insect-" + NatToString(index)
  }

  /** Two positions never share a fallback id. */
  lemma PositionalIdsDistinct(i: nat, j: nat)
    requires i != j
    ensures PositionalId(i) != PositionalId(j)
  {
    if PositionalId(i) == PositionalId(j) {
      assert NatToString(i) == PositionalId(i)[7..] == PositionalId(j)[7..] == NatToString(j);
      NatToStringInjective(i, j);
    }
  }

  /** The display entry for the candidate at position `index`. */
  function ToInsect(c: Candidate, index: nat): (r: Insect)
    ensures Truthy(c.id) ==> r.id == c.id.value
    ensures !Truthy(c.id) ==> r.id == PositionalId(index)
    ensures Truthy(c.name) ==> r.name == c.name.value
    ensures !Truthy(c.name) ==> r.name == UnknownSpecies
    ensures Truthy(FirstCommonName(c)) ==> r.commonName == FirstCommonName(c).value
    ensures !Truthy(FirstCommonName(c)) && Truthy(c.name) ==> r.commonName == c.name.value
    ensures !Truthy(FirstCommonName(c)) && !Truthy(c.name) ==> r.commonName == UnknownName
    ensures r.confidence == Confidence(c)
    ensures Truthy(c.image) ==> r.image == c.image.value
    ensures !Truthy(c.image) && Truthy(FirstImageUrl(c)) ==> r.image == FirstImageUrl(c).value
    ensures !Truthy(c.image) && !Truthy(FirstImageUrl(c)) ==> r.image == Placeholder
    ensures r.taxonClass == InsectClass
    // every text field of an entry is non-empty
    ensures r.id != "" && r.name != "" && r.commonName != "" && r.image != ""
  {
    Insect(
      OrElse(c.id, PositionalId(index)),
      OrElse(c.name, UnknownSpecies),
      OrElse(FirstCommonName(c), OrElse(c.name, UnknownName)),
      Confidence(c),
      OrElse(c.image, OrElse(FirstImageUrl(c), Placeholder)),
      InsectClass)
  }

  /**
   * The entries the page lists: one per candidate, in order, when a list was
   * handed over (even an empty one), otherwise the fixed illustrative list.
   */
  function Displayed(results: Option<seq<Candidate>>): (r: seq<Insect>)
    ensures results.None? ==> r == MockInsects && |r| == 4
    ensures results.Some? ==> |r| == |results.value|
    ensures results.Some? ==> forall i :: 0 <= i < |r| ==> r[i] == ToInsect(results.value[i], i)
    ensures results == Some([]) ==> r == []
  {
    match results
    case None => MockInsects
    case Some(xs) => seq(|xs|, i requires 0 <= i < |xs| => ToInsect(xs[i], i))
  }

  /** Candidates without ids get pairwise distinct entry ids. */
  lemma AnonymousEntriesHaveDistinctIds(xs: seq<Candidate>, i: nat, j: nat)
    requires i < j < |xs|
    requires !Truthy(xs[i].id) && !Truthy(xs[j].id)
    ensures Displayed(Some(xs))[i].id != Displayed(Some(xs))[j].id
  {
    PositionalIdsDistinct(i, j);
  }

  /** Which entry's detail dialog is open. */
  class ResultsView {
    var selected: Option<Insect>

    constructor ()
      ensures selected == None
    {
      selected := None;
    }

    /** The detail dialog is rendered exactly when an entry is selected. */
    predicate DialogOpen()
      reads this
    {
      selected.Some?
    }

    /** Clicking the entry at position `k` of the listed entries. */
    method Select(entries: seq<Insect>, k: nat)
      requires k < |entries|
      modifies this
      ensures selected == Some(entries[k]) && DialogOpen()
    {
      selected := Some(entries[k]);
    }

    /** Closing the dialog (its close button, its backdrop, or after saving). */
    method Close()
      modifies this
      ensures selected == None && !DialogOpen()
    {
      selected := None;
    }
  }
}
