/**
  The preservation-version lifecycle as a function of the stored objects.

  A file's original bytes live in one of two places. Under the legacy
  convention, ingest moved the original to the "orig" auxiliary object and
  put the ingested copy in the main location. Under the current convention
  the main location keeps the original and the ingested copy is stored as the
  "preservation" auxiliary object. The handle's methods are specified by the
  functions below; the lemmas state what the lifecycle guarantees.
 */
module Preservation {
  import opened StorageTypes

  /** What a driver holds for one object: its main content (if any) and its auxiliary objects. */
  datatype Store = Store(main: Option<Content>, aux: map<Tag, Content>)

  predicate HasPreservationVersion(s: Store)
  {
    OrigTag in s.aux || PreservationTag in s.aux
  }

  predicate LegacyConvention(s: Store)
  {
    OrigTag in s.aux
  }

  predicate CurrentConvention(s: Store)
  {
    PreservationTag in s.aux && OrigTag !in s.aux
  }

  /** Where the original bytes are: the "orig" backup if there is one, otherwise the main object. */
  function OriginalContent(s: Store): Option<Content>
  {
    if OrigTag in s.aux then Some(s.aux[OrigTag]) else s.main
  }

  function IngestTags(): (tags: set<Tag>)
    ensures forall tag :: tag in tags <==> tag in IngestAuxObjects
    ensures PreservationTag in tags && OrigTag !in tags
  {
    assert IngestAuxObjects == ["preservation", "prep", "RSpace", "tab"];
    assert "orig" != "preservation" && "orig" != "prep" && "orig" != "RSpace" && "orig" != "tab";
    set tag | tag in IngestAuxObjects
  }

  /** The auxiliary objects left once every ingest-derived one is deleted. */
  function WithoutIngestFiles(aux: map<Tag, Content>): map<Tag, Content>
  {
    aux - IngestTags()
  }

  function DeleteIngestFiles(s: Store): Store
  {
    Store(s.main, WithoutIngestFiles(s.aux))
  }

  /**
    Restoring the main object from a backup. Whether the backup itself survives
    is the driver's choice, given by `keepsBackup`.
   */
  function RevertBackup(s: Store, tag: Tag, keepsBackup: bool): Store
    requires tag in s.aux
  {
    Store(Some(s.aux[tag]), if keepsBackup then s.aux else s.aux - {tag})
  }

  function AddPreservation(s: Store, content: Content): Result<Store>
  {
    if HasPreservationVersion(s) then Err(PreservationAlreadyExists)
    else Ok(Store(s.main, s.aux[PreservationTag := content]))
  }

  /** The legacy branch reverts and cleans up; both branches then clean up once more. */
  function RemovePreservation(s: Store, keepsBackup: bool): Result<Store>
  {
    if !HasPreservationVersion(s) then Err(PreservationMissing)
    else
      var reverted := if OrigTag in s.aux then DeleteIngestFiles(RevertBackup(s, OrigTag, keepsBackup)) else s;
      Ok(DeleteIngestFiles(reverted))
  }

  /** Adding refuses exactly when a preservation version exists, and otherwise only stores the new copy. */
  lemma AddPreservationSpec(s: Store, content: Content)
    ensures AddPreservation(s, content).Err? <==> HasPreservationVersion(s)
    ensures AddPreservation(s, content).Err? ==> AddPreservation(s, content).error == PreservationAlreadyExists
    ensures var r := AddPreservation(s, content);
      r.Ok? ==> && r.value.main == s.main
                && PreservationTag in r.value.aux && r.value.aux[PreservationTag] == content
                && r.value.aux - {PreservationTag} == s.aux - {PreservationTag}
                && CurrentConvention(r.value)
  {
  }

  /** A second add without a remove in between is refused. */
  lemma AddTwiceFails(s: Store, c1: Content, c2: Content)
    requires AddPreservation(s, c1).Ok?
    ensures AddPreservation(AddPreservation(s, c1).value, c2) == Err(PreservationAlreadyExists)
  {
  }

  /** Removing refuses exactly when neither "orig" nor "preservation" is stored. */
  lemma RemovePreservationFailsIffAbsent(s: Store, keepsBackup: bool)
    ensures RemovePreservation(s, keepsBackup).Err? <==> !HasPreservationVersion(s)
    ensures RemovePreservation(s, keepsBackup).Err? ==> RemovePreservation(s, keepsBackup).error == PreservationMissing
  {
  }

  /**
    After a successful remove: no ingest-derived object is left, every other
    auxiliary object except "orig" is untouched, and the main object holds the
    original bytes (restored from "orig" when there was one, unchanged otherwise).
   */
  lemma RemovePreservationSpec(s: Store, keepsBackup: bool)
    requires RemovePreservation(s, keepsBackup).Ok?
    ensures var t := RemovePreservation(s, keepsBackup).value;
      && (forall tag :: tag in IngestTags() ==> tag !in t.aux)
      && (forall tag :: tag !in IngestTags() && tag != OrigTag ==>
            (tag in t.aux <==> tag in s.aux) && (tag in t.aux ==> t.aux[tag] == s.aux[tag]))
      && (OrigTag in s.aux ==> t.main == Some(s.aux[OrigTag]))
      && (OrigTag !in s.aux ==> t.main == s.main && t.aux == WithoutIngestFiles(s.aux))
      && (OrigTag in t.aux <==> OrigTag in s.aux && keepsBackup)
  {
  }

  /** Neither transition ever loses the original bytes. */
  lemma OriginalContentPreserved(s: Store, content: Content, keepsBackup: bool)
    ensures AddPreservation(s, content).Ok? ==> OriginalContent(AddPreservation(s, content).value) == OriginalContent(s)
    ensures RemovePreservation(s, keepsBackup).Ok? ==> OriginalContent(RemovePreservation(s, keepsBackup).value) == OriginalContent(s)
  {
  }

  /** Cleaning up ingest files a second time changes nothing. */
  lemma DeleteIngestFilesIdempotent(s: Store)
    ensures DeleteIngestFiles(DeleteIngestFiles(s)) == DeleteIngestFiles(s)
  {
  }

  /**
    Under the current convention, adding a preservation copy to an object with
    no ingest leftovers and then removing it gives back exactly the object.
   */
  lemma AddThenRemoveRestores(s: Store, content: Content, keepsBackup: bool)
    requires !HasPreservationVersion(s)
    requires forall tag :: tag in IngestTags() ==> tag !in s.aux
    ensures AddPreservation(s, content).Ok?
    ensures RemovePreservation(AddPreservation(s, content).value, keepsBackup) == Ok(s)
  {
    var added := AddPreservation(s, content).value;
    assert WithoutIngestFiles(added.aux) == s.aux;
    assert WithoutIngestFiles(WithoutIngestFiles(added.aux)) == s.aux;
  }

  /**
    A successful remove leaves no preservation version, unless the driver kept
    the "orig" backup; then the object is a fixed point: removing again succeeds
    and changes nothing.
   */
  lemma {:induction false} RemoveTwice(s: Store, keepsBackup: bool)
    requires RemovePreservation(s, keepsBackup).Ok?
    ensures var t := RemovePreservation(s, keepsBackup).value;
      && (!HasPreservationVersion(t) <==> !(keepsBackup && LegacyConvention(s)))
      && (HasPreservationVersion(t) ==> RemovePreservation(t, keepsBackup) == Ok(t))
  {
    var t := RemovePreservation(s, keepsBackup).value;
    assert PreservationTag !in t.aux by { RemovePreservationSpec(s, keepsBackup); }
    if HasPreservationVersion(t) {
      RemovePreservationSpec(s, keepsBackup);
      assert t.main == Some(t.aux[OrigTag]);
      var u := RemovePreservation(t, keepsBackup).value;
      assert WithoutIngestFiles(t.aux) == t.aux;
      assert WithoutIngestFiles(WithoutIngestFiles(t.aux)) == t.aux;
      assert u == t;
    }
  }
}
