/**
 * The application shell: which page is shown, what the upload flow handed
 * over, and the saved collection together with its persisted snapshot.
 */
module Home {
  import opened Wrappers
  import opened Values
  import opened Text
  import opened Seqs
  import opened Api
  import opened ResultsPage

  /** A saved record. An absent text field and an empty one are both "". */
  datatype SavedInsect = SavedInsect(
    id: string,
    name: string,
    commonName: string,
    confidence: int,
    image: string,
    taxonClass: string,
    uploadedImage: string,
    savedAt: string)

  /**
   * The `savedInsects` entry of local storage, already decoded: nothing
   * (absent or empty), text that does not decode to a list, or a list.
   */
  datatype Snapshot = NoSnapshot | Undecodable | Entries(items: seq<SavedInsect>)

  datatype Page = Landing | Upload | Results | Collection

  /** The id of a record saved at time `now` (milliseconds): `${id}-${now}`. */
  function RecordId(candidateId: string, now: nat): (r: string)
    ensures |r| > |candidateId| && r[..|candidateId|] == candidateId && r[|candidateId|] == '-'
  {
    candidateId + "-" + NatToString(now)
  }

  /** The record that saving `insect` at time `now` creates. */
  function NewRecord(insect: Insect, uploadedImage: string, now: nat, savedAt: string): (r: SavedInsect)
    ensures r.id == RecordId(insect.id, now)
    ensures r.name == insect.name && r.commonName == insect.commonName
    ensures r.confidence == insect.confidence && r.image == insect.image
    ensures r.taxonClass == insect.taxonClass
    ensures r.uploadedImage == uploadedImage && r.savedAt == savedAt
  {
    SavedInsect(RecordId(insect.id, now), insect.name, insect.commonName,
                insect.confidence, insect.image, insect.taxonClass, uploadedImage, savedAt)
  }

  /** A record id determines the candidate id and the time it was saved at. */
  lemma {:induction false} RecordIdInjective(a: string, s: nat, b: string, t: nat)
    requires RecordId(a, s) == RecordId(b, t)
    ensures a == b && s == t
  {
    var x, ds, dt := RecordId(a, s), NatToString(s), NatToString(t);
    assert x == a + "-" + ds == b + "-" + dt;
    // The numeral holds no '-', so the last '-' of the id separates the two parts.
    assert |ds| == |dt|;
    assert ds == x[|x| - |ds|..] == dt;
    assert a == x[..|a|] == b;
    NatToStringInjective(s, t);
  }

  /** The records that survive a reload: those with a truthy id and commonName. */
  predicate Loadable(r: SavedInsect) {
    r.id != "" && r.commonName != ""
  }

  /** What the load effect leaves in the list it starts from (`initial`). */
  function Loaded(snapshot: Snapshot, initial: seq<SavedInsect>): (r: seq<SavedInsect>)
    ensures !snapshot.Entries? ==> r == initial
    ensures snapshot.Entries? ==> forall i :: 0 <= i < |r| ==> Loadable(r[i])
  {
    if snapshot.Entries? then Filter(snapshot.items, Loadable) else initial
  }

  /** The predicate `filter` keeps when deleting `id`. */
  function OtherThan(id: string): SavedInsect -> bool {
    (r: SavedInsect) => r.id != id
  }

  /** `savedInsects.filter((item) => item.id !== id)` */
  function Deleted(xs: seq<SavedInsect>, id: string): (r: seq<SavedInsect>)
    ensures forall i :: 0 <= i < |r| ==> r[i].id != id
  {
    Filter(xs, OtherThan(id))
  }

  /** Deleting removes every copy of each record with that id and keeps every other record's copies. */
  lemma DeleteCounts(xs: seq<SavedInsect>, id: string, x: SavedInsect)
    ensures multiset(Deleted(xs, id))[x] == if x.id != id then multiset(xs)[x] else 0
  {
    FilterCounts(xs, OtherThan(id), x);
  }

  /** Loading keeps every copy of each loadable entry and nothing else. */
  lemma LoadCounts(items: seq<SavedInsect>, initial: seq<SavedInsect>, x: SavedInsect)
    ensures multiset(Loaded(Entries(items), initial))[x] == if Loadable(x) then multiset(items)[x] else 0
  {
    FilterCounts(items, Loadable, x);
  }

  /** Deleting an id no record carries leaves the list as it is. */
  lemma DeleteMissingIsIdentity(xs: seq<SavedInsect>, id: string)
    requires forall i :: 0 <= i < |xs| ==> xs[i].id != id
    ensures Deleted(xs, id) == xs
  {
    FilterKeepsAll(xs, OtherThan(id));
  }

  /** Deleting the id every record carries empties the list. */
  lemma DeleteMatchingIsEmpty(xs: seq<SavedInsect>, id: string)
    requires forall i :: 0 <= i < |xs| ==> xs[i].id == id
    ensures Deleted(xs, id) == []
  {
    FilterDropsAll(xs, OtherThan(id));
  }

  predicate UniqueIds(xs: seq<SavedInsect>) {
    forall i, j :: 0 <= i < j < |xs| ==> xs[i].id != xs[j].id
  }

  /**
   * With unique ids, deleting the id of the record at `k` removes exactly
   * that record and keeps the others in their order.
   */
  lemma DeleteUniqueRemovesOne(xs: seq<SavedInsect>, k: nat)
    requires k < |xs| && UniqueIds(xs)
    ensures Deleted(xs, xs[k].id) == xs[..k] + xs[k + 1..]
  {
    var id, before, after := xs[k].id, xs[..k], xs[k + 1..];
    assert xs == before + ([xs[k]] + after);
    assert forall i :: 0 <= i < |before| ==> before[i].id != id by {
      forall i | 0 <= i < |before| ensures before[i].id != id {
        assert before[i] == xs[i];
      }
    }
    assert forall i :: 0 <= i < |after| ==> after[i].id != id by {
      forall i | 0 <= i < |after| ensures after[i].id != id {
        assert after[i] == xs[k + 1 + i];
      }
    }
    calc {
      Deleted(xs, id);
      { DeleteDistributes(before, [xs[k]] + after, id); }
      Deleted(before, id) + Deleted([xs[k]] + after, id);
      { DeleteDistributes([xs[k]], after, id); }
      Deleted(before, id) + (Deleted([xs[k]], id) + Deleted(after, id));
      { DeleteMatchingIsEmpty([xs[k]], id);
        DeleteMissingIsIdentity(before, id);
        DeleteMissingIsIdentity(after, id); }
      before + after;
    }
  }

  /** Deletion keeps the relative order: it distributes over concatenation. */
  lemma DeleteDistributes(a: seq<SavedInsect>, b: seq<SavedInsect>, id: string)
    ensures Deleted(a + b, id) == Deleted(a, id) + Deleted(b, id)
  {
    FilterAppend(a, b, OtherThan(id));
  }

  /** Saving the same entry at two different times adds two records with distinct ids. */
  lemma TwoSavesDistinct(xs: seq<SavedInsect>, insect: Insect, image: string,
                         t1: nat, at1: string, t2: nat, at2: string)
    requires t1 != t2
    ensures var ys := xs + [NewRecord(insect, image, t1, at1)] + [NewRecord(insect, image, t2, at2)];
            |ys| == |xs| + 2 && ys[..|xs|] == xs && ys[|xs|].id != ys[|xs| + 1].id
  {
    if RecordId(insect.id, t1) == RecordId(insect.id, t2) {
      RecordIdInjective(insect.id, t1, insect.id, t2);
    }
  }

  /**
   * A snapshot written by a save or a delete reloads to the same list, as
   * long as every record in it is loadable.
   */
  lemma ReloadRestores(xs: seq<SavedInsect>, initial: seq<SavedInsect>)
    requires forall i :: 0 <= i < |xs| ==> Loadable(xs[i])
    ensures Loaded(Entries(xs), initial) == xs
  {
    FilterKeepsAll(xs, Loadable);
  }

  /** A record saved from a display entry is loadable: its id and name are never empty. */
  lemma SavedRecordLoadable(insect: Insect, image: string, now: nat, savedAt: string)
    requires insect.commonName != ""
    ensures Loadable(NewRecord(insect, image, now, savedAt))
  {
  }

  /** The page component and its state. */
  class App {
    var currentPage: Page
    var uploadedImage: Option<string>
    var uploadedFile: Option<File>
    var identificationResults: Option<seq<Candidate>>
    var accessToken: Option<string>
    var savedInsects: seq<SavedInsect>
    var showSaveNotification: bool
    /** The `savedInsects` entry of local storage. */
    var storage: Snapshot

    /** First render, with whatever local storage already holds. */
    constructor (stored: Snapshot)
      ensures currentPage == Landing
      ensures uploadedImage == None && uploadedFile == None
      ensures identificationResults == None && accessToken == None
      ensures savedInsects == [] && !showSaveNotification && storage == stored
    {
      currentPage := Landing;
      uploadedImage, uploadedFile := None, None;
      identificationResults, accessToken := None, None;
      savedInsects := [];
      showSaveNotification := false;
      storage := stored;
    }

    /** The results page is rendered only with both an uploaded image and a file. */
    predicate ShowsResults()
      reads this
    {
      currentPage == Results && Truthy(uploadedImage) && uploadedFile.Some?
    }

    /** The "Back to Home" button is rendered on the upload and results pages. */
    predicate ShowsBackToHome()
      reads this
    {
      currentPage == Upload || currentPage == Results
    }

    /** The persisted snapshot is the whole in-memory list. */
    predicate Persisted()
      reads this
    {
      storage == Entries(savedInsects)
    }

    /** The mount effect that reads local storage; it never writes it. */
    method LoadSaved()
      modifies this`savedInsects
      ensures savedInsects == Loaded(storage, old(savedInsects))
    {
      match storage
      case Entries(items) => savedInsects := Filter(items, Loadable);
      case _ =>
    }

    /**
     * `saveInsect(insect, uploadedImage, file)` at time `now`, stamped
     * `savedAt`. `written` says whether `localStorage.setItem` succeeds; when
     * it throws (a full storage quota), the list has already been updated
     * but the snapshot stays stale and the notification is not shown.
     */
    method SaveInsect(insect: Insect, image: string, now: nat, savedAt: string, written: bool)
      modifies this`savedInsects, this`storage, this`showSaveNotification
      ensures savedInsects == old(savedInsects) + [NewRecord(insect, image, now, savedAt)]
      ensures written ==> Persisted() && showSaveNotification
      ensures !written ==> storage == old(storage) && showSaveNotification == old(showSaveNotification)
    {
      var updated := savedInsects + [NewRecord(insect, image, now, savedAt)];
      savedInsects := updated;
      if written {
        storage := Entries(updated);
        showSaveNotification := true;
      }
    }

    /** The timer that hides the save notification. */
    method HideSaveNotification()
      modifies this`showSaveNotification
      ensures !showSaveNotification
    {
      showSaveNotification := false;
    }

    /**
     * `deleteInsect(id)`. `written` says whether `localStorage.setItem`
     * succeeds; when it throws, the list is filtered but the snapshot stays stale.
     */
    method DeleteInsect(id: string, written: bool)
      modifies this`savedInsects, this`storage
      ensures savedInsects == Deleted(old(savedInsects), id)
      ensures written ==> Persisted()
      ensures !written ==> storage == old(storage)
    {
      var updated := Filter(savedInsects, OtherThan(id));
      savedInsects := updated;
      if written {
        storage := Entries(updated);
      }
    }

    /** The collection page's delete button: it deletes only when the user confirms. */
    method ConfirmDelete(id: string, confirmed: bool, written: bool)
      modifies this`savedInsects, this`storage
      ensures confirmed ==> savedInsects == Deleted(old(savedInsects), id)
      ensures confirmed && written ==> Persisted()
      ensures !(confirmed && written) ==> storage == old(storage)
      ensures !confirmed ==> savedInsects == old(savedInsects)
    {
      if confirmed {
        DeleteInsect(id, written);
      }
    }

    /** The title button, "Back to Home", and the back buttons of the upload and collection pages. */
    method GoHome()
      modifies this`currentPage
      ensures currentPage == Landing && !ShowsBackToHome()
    {
      currentPage := Landing;
    }

    /** The "Saved (n)" button. */
    method OpenCollection()
      modifies this`currentPage
      ensures currentPage == Collection && !ShowsBackToHome()
    {
      currentPage := Collection;
    }

    /** The landing page's "get started" action. */
    method GetStarted()
      modifies this`currentPage
      ensures currentPage == Upload && ShowsBackToHome()
    {
      currentPage := Upload;
    }

    /** The upload page hands over an identified image. */
    method ImageSelected(image: string, file: File, results: Option<seq<Candidate>>, token: Option<string>)
      modifies this`currentPage, this`uploadedImage, this`uploadedFile,
               this`identificationResults, this`accessToken
      ensures uploadedImage == Some(image) && uploadedFile == Some(file)
      ensures identificationResults == results
      ensures Truthy(token) ==> accessToken == token
      ensures !Truthy(token) ==> accessToken == None
      ensures currentPage == Results && ShowsBackToHome()
      ensures ShowsResults() <==> image != ""
    {
      uploadedImage := Some(image);
      uploadedFile := Some(file);
      identificationResults := results;
      accessToken := if Truthy(token) then token else None;
      currentPage := Results;
    }

    /** The results page's back button. */
    method BackFromResults()
      modifies this`currentPage, this`uploadedImage, this`uploadedFile,
               this`identificationResults, this`accessToken
      ensures currentPage == Upload
      ensures uploadedImage == None && uploadedFile == None
      ensures identificationResults == None && accessToken == None
      ensures !ShowsResults() && ShowsBackToHome()
    {
      currentPage := Upload;
      uploadedImage, uploadedFile := None, None;
      identificationResults, accessToken := None, None;
    }
  }
}
