/** The records a catalog stores, and how entries may change between two saves. */
module Entries {
  import opened Prelude

  datatype Backend = Restic | SharedObject | OtherBackend

  datatype Reference = Reference(backend: Backend, version: nat, snapshot: string, blob: string,
                                 operation: string, ownerEntry: string, ownerRevision: nat)

  datatype Component = Component(id: string, assetId: string, mediaType: string)

  /** Capture, media and display metadata. */
  datatype Details = Details(previewUnsupported: bool, captureTime: Option<int>, captureOffset: Option<int>,
                             captureSource: string, captureCorrected: bool, width: int, height: int, duration: int,
                             orientation: int, preferred: bool, camera: string, rotation: int, favorite: bool,
                             archived: bool, caption: string)

  const NO_DETAILS := Details(false, None, None, "", false, 0, 0, 0, 0, false, "", 0, false, false, "")

  datatype File = File(
    id: string, revision: uint64, path: string, folder: bool, present: bool, deletedAt: Option<int>,
    hidden: bool, size: int, mtime: int, importedAt: int, hash: string, snap: string, blob: string,
    reference: Option<Reference>, parentId: string, components: seq<Component>, pairAlbums: seq<string>,
    device: string, deviceAsset: string, sourceRevision: string, pending: bool, details: Details)

  datatype Album = Album(id: string, revision: uint64, title: string, description: string, coverId: string,
                         position: int, parentId: string, assets: seq<string>)

  datatype Folder = Folder(id: string, parentId: string, title: string, position: int, revision: uint64)

  datatype Mapping = Mapping(device: string, namespace: string, sourceId: string, kind: string,
                             serverId: string, sourceRevision: string, serverRevision: uint64)

  /** The zero value a Go map yields for a missing key. */
  const NO_MAPPING := Mapping("", "", "", "", "", "", 0)

  datatype Receipt = Receipt(digest: SourceOp, serverId: string, revision: uint64)

  datatype SourceOp = SourceOp(operationId: string, namespace: string, sourceId: string, sourceRevision: string,
                               kind: string, parentSourceId: string, title: string, position: int,
                               expectedRevision: uint64, deleted: bool, addIds: seq<string>, members: bool)

  /** Everything one catalog file holds besides its journal and checkpoints. */
  datatype Tree = Tree(files: seq<File>, albums: seq<Album>, folders: seq<Folder>,
                       sources: map<string, Mapping>, operations: map<string, Receipt>)

  /** validateReference */
  predicate ValidReference(f: File) {
    match f.reference
    case None => true
    case Some(r) =>
      && !f.folder
      && (f.blob == "" || r.blob == f.blob)
      && (|| (r.backend == Restic && r.version == 1 && r.snapshot == f.snap)
          || (r.backend == SharedObject && (r.version == 1 || r.version == 2) && r.snapshot == ""
              && r.blob != "" && r.operation != "" && f.snap == ""))
  }

  ghost predicate UniqueIds(files: seq<File>) {
    forall i, j :: 0 <= i < j < |files| ==> files[i].id != files[j].id
  }

  ghost predicate UniquePaths(files: seq<File>) {
    forall i, j :: 0 <= i < j < |files| && files[i].present && files[j].present ==> files[i].path != files[j].path
  }

  predicate HasId(files: seq<File>, id: string) {
    exists i :: 0 <= i < |files| && files[i].id == id
  }

  function IndexOf(files: seq<File>, id: string): (k: int)
    ensures -1 <= k < |files|
    ensures k >= 0 ==> files[k].id == id
    ensures k < 0 ==> forall i :: 0 <= i < |files| ==> files[i].id != id
  {
    FirstFrom(files, id, 0)
  }

  function FirstFrom(files: seq<File>, id: string, from: nat): (k: int)
    requires from <= |files|
    ensures -1 <= k < |files|
    ensures k >= 0 ==> k >= from && files[k].id == id
    ensures k < 0 ==> forall i :: from <= i < |files| ==> files[i].id != id
    decreases |files| - from
  {
    if from == |files| then -1 else if files[from].id == id then from else FirstFrom(files, id, from + 1)
  }

  /** Entries have positive revisions. */
  ghost predicate Numbered(files: seq<File>) {
    forall f :: f in files ==> f.revision > 0
  }

  /** The outbox flag PhotoProcessingPending is not part of what devices sync. */
  function Normal(f: File): File {
    f.(pending := false)
  }

  /** Every entry present on both sides is the same up to the outbox flag, or
      carries a strictly larger revision. */
  ghost predicate Evolves(before: seq<File>, after: seq<File>) {
    forall i, j :: 0 <= i < |before| && 0 <= j < |after| && before[i].id == after[j].id ==>
      Normal(before[i]) == Normal(after[j]) || before[i].revision < after[j].revision
  }

  lemma UniqueIdsFind(files: seq<File>, i: int, j: int)
    requires UniqueIds(files)
    requires 0 <= i < |files| && 0 <= j < |files| && files[i].id == files[j].id
    ensures i == j
  {
  }

  /** In-place edits that keep positions and ids evolve when each slot does. */
  lemma SlotwiseEvolves(before: seq<File>, after: seq<File>)
    requires UniqueIds(before) && |before| <= |after|
    requires forall i :: 0 <= i < |before| ==> before[i].id == after[i].id
    requires forall i :: 0 <= i < |before| ==>
      Normal(before[i]) == Normal(after[i]) || before[i].revision < after[i].revision
    requires forall i, j :: 0 <= i < |before| && |before| <= j < |after| ==> before[i].id != after[j].id
    ensures Evolves(before, after)
  {
    forall i, j | 0 <= i < |before| && 0 <= j < |after| && before[i].id == after[j].id
      ensures Normal(before[i]) == Normal(after[j]) || before[i].revision < after[j].revision
    {
      if j < |before| {
        UniqueIdsFind(before, i, j);
      }
    }
  }

  /** One slot moves to a later revision in place. */
  lemma ReplacedInPlace(files: seq<File>, k: int, g: File)
    requires UniqueIds(files) && 0 <= k < |files| && g.id == files[k].id && files[k].revision < g.revision
    ensures UniqueIds(files[k := g]) && Evolves(files, files[k := g])
    ensures UniquePaths(files) && (g.present ==> files[k].present && files[k].path == g.path) ==>
              UniquePaths(files[k := g])
  {
    var next := files[k := g];
    SlotwiseEvolves(files, next);
    if UniquePaths(files) && (g.present ==> files[k].present && files[k].path == g.path) {
      forall i, j | 0 <= i < j < |next| && next[i].present && next[j].present ensures next[i].path != next[j].path {
        assert files[i].path != files[j].path;
      }
    }
  }

  /** A new entry joins. */
  lemma Joined(files: seq<File>, g: File)
    requires UniqueIds(files) && !HasId(files, g.id)
    ensures UniqueIds(files + [g]) && Evolves(files, files + [g])
    ensures UniquePaths(files) && (forall i :: 0 <= i < |files| && files[i].present ==> files[i].path != g.path) ==>
              UniquePaths(files + [g])
  {
    SlotwiseEvolves(files, files + [g]);
  }
}
