/** The organisation operations of the catalog object: folders, albums, live
    pairs and the import of a device's source operations. */
module CollectionStore {
  import opened Prelude
  import opened Entries
  import opened Journals
  import opened Sync
  import opened JournalWriter
  import opened Collections
  import opened Albums
  import opened SourceImport
  import opened ImportOrder
  import opened Catalogs
  import LivePairs
  import Indexes

  // ------------------------------------------------------------------- walks

  /** validateCollectionParentLocked */
  method CheckParent(folders: seq<Folder>, parent: string, self: string) returns (err: Option<Error>)
    ensures err == ValidateParent(folders, parent, self)
  {
    var seen, at, depth := {self}, parent, 0;
    while at != ""
      invariant depth <= MAXIMUM_DEPTH && Walk(folders, at, seen, depth) == ValidateParent(folders, parent, self)
      decreases MAXIMUM_DEPTH - depth
    {
      if depth >= MAXIMUM_DEPTH || at in seen {
        return Some(Descendant);
      }
      var found := FolderWith(folders, at);
      if found.None? {
        return Some(NotFound);
      }
      seen, at, depth := seen + {at}, found.value.parentId, depth + 1;
    }
    err := None;
  }

  /** mutateCollectionFolderLocked */
  method StoreFolder(folders: seq<Folder>, f: Folder, id: string) returns (r: Result<(seq<Folder>, Folder)>)
    ensures r == MutateFolder(folders, f, id)
  {
    hide Walk, Trim;
    var trimmed := f.(title := Trim(f.title));
    if !Presentable(trimmed.title, trimmed.position) {
      return Err(AlbumInvalid);
    }
    var err := CheckParent(folders, f.parentId, f.id);
    if err.Some? {
      return Err(err.value);
    }
    r := Candidate(folders, trimmed, id);
    if r.Err? {
      return;
    }
    var next := r.value.0;
    for n := 0 to |next|
      invariant FirstBroken(next, 0) == FirstBroken(next, n)
    {
      err := CheckParent(next, next[n].parentId, next[n].id);
      if err.Some? {
        return Err(err.value);
      }
    }
  }

  // --------------------------------------------------------- the organisation

  function OrganisationOf(c: Catalog): Organisation
    reads c
  {
    Organisation(c.folders, c.albums, c.sources, c.operations)
  }

  function OnTree(files: seq<File>, o: Organisation): Tree {
    Tree(files, o.albums, o.folders, o.sources, o.operations)
  }

  lemma OrganisedRows(t: Tree, o: Organisation, files: seq<File>)
    requires WellFormed(t) && Sane(o) && t.files == files && t.sources.Keys <= o.sources.Keys
    requires forall k :: k in o.sources ==> o.sources[k].namespace != ""
    ensures MayFollow(t, OnTree(files, o))
  {
    var rows, lists := AlbumRows(o.albums), FolderRows(o.folders);
    forall i, j | 0 <= i < j < |rows| ensures rows[i].0 != rows[j].0 {
      assert o.albums[i].id != o.albums[j].id;
    }
    forall i, j | 0 <= i < j < |lists| ensures lists[i].0 != lists[j].0 {
      assert o.folders[i].id != o.folders[j].id;
    }
    SameEvolves(files);
  }

  /** Commits a new organisation beside unchanged entries. */
  method CommitOrganisation(c: Catalog, o: Organisation, disk: Disk) returns (err: Option<Error>)
    requires c.Valid() && Sane(o) && c.sources.Keys <= o.sources.Keys
    requires forall k :: k in o.sources ==> o.sources[k].namespace != ""
    modifies c
    ensures c.Valid() && c.files == old(c.files)
    ensures Transacts(old(c.Current()), Ok(OnTree(old(c.files), o)), disk.writes, c.Current(), err)
    ensures err.None? ==> OrganisationOf(c) == o
    ensures err.Some? ==> OrganisationOf(c) == old(OrganisationOf(c)) && c.Current() == old(c.Current())
  {
    hide Sane, Commits, WellFormed, MayFollow, Journals.Valid, Indexes.PathsAgree, Indexes.ChildrenAgree;
    ghost var before := c.Current();
    assert c.View() == c.LastSaved();
    OrganisedRows(c.View(), o, c.files);
    err := c.Commit(OnTree(c.files, o), disk);
    Committed(before, OnTree(before.tree.files, o), disk.writes, c.Current(), err);
  }

  lemma Committed(before: State, t: Tree, writes: bool, after: State, err: Option<Error>)
    requires Transacts(before, Ok(t), writes, after, err)
    ensures after.tree == if err.None? then t else before.tree
    ensures err.Some? ==> after == before
  {
  }

  lemma Namespaces(c: Catalog)
    requires c.Valid()
    ensures forall k :: k in c.sources ==> c.sources[k].namespace != ""
    ensures UniqueIds(c.files)
  {
    assert c.View() == c.LastSaved();
  }

  /** SaveCollectionFolder: the forest survives every save. */
  method SaveCollectionFolder(c: Catalog, f: Folder, id: string, disk: Disk) returns (r: Result<Folder>)
    requires c.Valid() && Sane(OrganisationOf(c)) && FolderWith(c.folders, id).None? && id != ""
    modifies c
    ensures c.Valid() && Sane(OrganisationOf(c))
    ensures StaysFree(old(c.files), old(c.albums), c.files, c.albums)
    ensures match MutateFolder(old(c.folders), f, id)
            case Err(e) => r == Err(e) && c.Current() == old(c.Current())
            case Ok(w) =>
              Transacts(old(c.Current()), Ok(old(c.View()).(folders := w.0)), disk.writes, c.Current(), if r.Ok?
                        then None else Some(r.error))
              && (r.Ok? ==> r == Ok(w.1))
  {
    hide MutateFolder, Organised, MotionFree, DistinctAlbums, Commits;
    var o := OrganisationOf(c);
    var w := StoreFolder(c.folders, f, id);
    if w.Err? {
      return Err(w.error);
    }
    MutateKeepsForest(c.folders, c.albums, f, id);
    Namespaces(c);
    var err := CommitOrganisation(c, o.(folders := w.value.0), disk);
    r := if err.None? then Ok(w.value.1) else Err(err.value);
  }

  method DeleteCollectionFolder(c: Catalog, id: string, revision: uint64, disk: Disk) returns (err: Option<Error>)
    requires c.Valid() && Sane(OrganisationOf(c))
    modifies c
    ensures c.Valid() && Sane(OrganisationOf(c))
    ensures StaysFree(old(c.files), old(c.albums), c.files, c.albums)
    ensures match DeleteFolder(old(c.folders), old(c.albums), id, revision)
            case Err(e) => err == Some(e) && c.Current() == old(c.Current())
            case Ok(next) => Transacts(old(c.Current()), Ok(old(c.View()).(folders := next)), disk.writes,
                                       c.Current(), err)
  {
    hide DeleteFolder, Forest, AlbumsAttached, MotionFree, DistinctAlbums, Commits;
    var o := OrganisationOf(c);
    var next := DropFolder(c.folders, c.albums, id, revision);
    if next.Err? {
      return Some(next.error);
    }
    DeleteKeepsForest(c.folders, c.albums, id, revision);
    Namespaces(c);
    err := CommitOrganisation(c, o.(folders := next.value), disk);
  }

  /** DeleteCollectionFolder's scans. */
  method DropFolder(folders: seq<Folder>, albums: seq<Album>, id: string, revision: uint64)
    returns (r: Result<seq<Folder>>)
    requires DistinctFolders(folders)
    ensures r == DeleteFolder(folders, albums, id, revision)
  {
    var index := -1;
    for i := 0 to |folders|
      invariant forall k :: 0 <= k < i ==> folders[k].parentId != id
      invariant forall k :: 0 <= k < i && folders[k].id == id ==> folders[k].revision == revision && index == k
      invariant -1 <= index < i && (index >= 0 ==> folders[index].id == id)
    {
      if folders[i].id == id {
        if folders[i].revision != revision {
          return Err(RevisionMismatch);
        }
        index := i;
      }
      if folders[i].parentId == id {
        return Err(Conflict);
      }
    }
    for i := 0 to |albums|
      invariant forall k :: 0 <= k < i ==> albums[k].parentId != id
    {
      if albums[i].parentId == id {
        return Err(Conflict);
      }
    }
    if index < 0 {
      return Err(NotFound);
    }
    ghost var k := FolderIndex(folders, id, 0);
    r := Ok(folders[..index] + folders[index + 1..]);
  }

  /** SaveAlbum */
  method StoreAlbum(c: Catalog, input: AlbumInput, id: string, disk: Disk) returns (err: Option<Error>)
    requires c.Valid() && Sane(OrganisationOf(c)) && id != ""
    modifies c
    ensures c.Valid() && Sane(OrganisationOf(c))
    ensures StaysFree(old(c.files), old(c.albums), c.files, c.albums)
    ensures match SaveAlbum(old(c.files), old(c.albums), old(c.folders), input, id)
            case Err(e) => err == Some(e) && c.Current() == old(c.Current())
            case Ok(next) => Transacts(old(c.Current()), Ok(old(c.View()).(albums := next)), disk.writes, c.Current(),
                                       err)
  {
    hide Organised, MotionFree, DistinctAlbums, Commits, SaveAlbum;
    var o := OrganisationOf(c);
    var next := SaveAlbum(c.files, c.albums, c.folders, input, id);
    if next.Err? {
      return Some(next.error);
    }
    Namespaces(c);
    SaveAlbumKeeps(c.files, c.albums, c.folders, input, id);
    SavedNames(c.files, c.albums, c.folders, input, id);
    err := CommitOrganisation(c, o.(albums := next.value), disk);
  }

  lemma SavedNames(files: seq<File>, albums: seq<Album>, folders: seq<Folder>, input: AlbumInput, id: string)
    requires NamedAlbums(albums) && id != "" && SaveAlbum(files, albums, folders, input, id).Ok?
    ensures NamedAlbums(SaveAlbum(files, albums, folders, input, id).value)
  {
    hide Walk, Trim, AlbumMember;
    assert forall i :: 0 <= i < |albums| ==> albums[i] in albums;
  }

  /** ChangeAlbumMembers */
  method ChangeAlbumMembers(c: Catalog, id: string, revision: uint64, add: seq<string>, remove: seq<string>,
                            disk: Disk) returns (err: Option<Error>)
    requires c.Valid() && Sane(OrganisationOf(c))
    modifies c
    ensures c.Valid() && Sane(OrganisationOf(c))
    ensures StaysFree(old(c.files), old(c.albums), c.files, c.albums)
    ensures match ChangeMembers(old(c.files), old(c.albums), id, revision, add, remove)
            case Err(e) => err == Some(e) && c.Current() == old(c.Current())
            case Ok(next) => Transacts(old(c.Current()), Ok(old(c.View()).(albums := next)), disk.writes, c.Current(),
                                       err)
  {
    hide Organised, MotionFree, DistinctAlbums, Commits, ChangeMembers;
    var o := OrganisationOf(c);
    var next := ChangeMembers(c.files, c.albums, id, revision, add, remove);
    if next.Err? {
      return Some(next.error);
    }
    Namespaces(c);
    ChangeMembersKeeps(c.files, c.albums, c.folders, id, revision, add, remove);
    ChangedNames(c.files, c.albums, id, revision, add, remove);
    err := CommitOrganisation(c, o.(albums := next.value), disk);
  }

  lemma ChangedNames(files: seq<File>, albums: seq<Album>, id: string, revision: uint64, add: seq<string>,
                     remove: seq<string>)
    requires NamedAlbums(albums) && ChangeMembers(files, albums, id, revision, add, remove).Ok?
    ensures NamedAlbums(ChangeMembers(files, albums, id, revision, add, remove).value)
  {
    hide Extended;
    assert forall i :: 0 <= i < |albums| ==> albums[i] in albums;
  }

  method RemoveAlbum(c: Catalog, id: string, revision: uint64, disk: Disk) returns (err: Option<Error>)
    requires c.Valid() && Sane(OrganisationOf(c))
    modifies c
    ensures c.Valid() && Sane(OrganisationOf(c))
    ensures StaysFree(old(c.files), old(c.albums), c.files, c.albums)
    ensures match DeleteAlbum(old(c.albums), id, revision)
            case Err(e) => err == Some(e) && c.Current() == old(c.Current())
            case Ok(next) => Transacts(old(c.Current()), Ok(old(c.View()).(albums := next)), disk.writes, c.Current(),
                                       err)
  {
    hide Organised, MotionFree, DistinctAlbums, Commits, DeleteAlbum;
    var o := OrganisationOf(c);
    var next := DeleteAlbum(c.albums, id, revision);
    if next.Err? {
      return Some(next.error);
    }
    Namespaces(c);
    DeleteAlbumKeeps(c.files, c.albums, c.folders, id, revision);
    err := CommitOrganisation(c, o.(albums := next.value), disk);
  }

  // ----------------------------------------------------------------- live pairs

  /** SetLivePhotoPair: both entries and every album move in one save. */
  method SetLivePhotoPair(c: Catalog, still: string, motion: string, stillRevision: uint64, motionRevision: uint64,
                          unlink: bool, disk: Disk)
    returns (err: Option<Error>)
    requires c.Valid() && Sane(OrganisationOf(c))
    modifies c
    ensures c.Valid() && Sane(OrganisationOf(c))
    ensures StaysFree(old(c.files), old(c.albums), c.files, c.albums)
    ensures match LivePairs.SetPair(old(c.files), old(c.albums), still, motion, stillRevision, motionRevision, unlink)
            case Err(e) => err == Some(e) && c.Current() == old(c.Current())
            case Ok(None) => err.None? && c.Current() == old(c.Current())
            case Ok(Some(p)) =>
              Transacts(old(c.Current()), Ok(old(c.View()).(files := p.files, albums := p.albums)), disk.writes,
                        c.Current(), err)
              && (err.Some? ==> c.Current() == old(c.Current()))
  {
    hide LivePairs.SetPair, Commits, MayFollow, Catalog.Valid;
    var p := LivePairs.SetPair(c.files, c.albums, still, motion, stillRevision, motionRevision, unlink);
    if p.Err? {
      return Some(p.error);
    }
    if p.value.None? {
      return None;
    }
    var next := c.View().(files := p.value.value.files, albums := p.value.value.albums);
    PairFollows(c.View(), next, c, still, motion, stillRevision, motionRevision, unlink);
    ghost var before := c.Current();
    err := c.Commit(next, disk);
    Committed(before, next, disk.writes, c.Current(), err);
  }

  lemma PairFollows(t: Tree, next: Tree, c: Catalog, still: string, motion: string, r: uint64, q: uint64, unlink: bool)
    requires c.Valid() && t == c.View() && Sane(OrganisationOf(c))
    requires var p := LivePairs.SetPair(t.files, t.albums, still, motion, r, q, unlink);
             p.Ok? && p.value.Some? && next == t.(files := p.value.value.files, albums := p.value.value.albums)
    ensures MayFollow(t, next) && Catalogs.Named(next.files)
    ensures Sane(Organisation(t.folders, next.albums, t.sources, t.operations))
    ensures StaysFree(t.files, t.albums, next.files, next.albums)
  {
    hide LivePairs.SetPair, MotionFree, Forest, UniquePaths;
    assert c.LastSaved() == c.View();
    LivePairs.SetPairKeeps(t.files, t.albums, still, motion, r, q, unlink);
    LivePairs.PairRows(t.files, t.albums, still, motion, r, q, unlink);
    Namespaces(c);
    SlotsNamed(t.files, next.files);
    PairTables(t.folders, t.albums, next.albums);
    var rows := AlbumRows(next.albums);
    forall i, j | 0 <= i < j < |rows| ensures rows[i].0 != rows[j].0 {
      assert next.albums[i].id != next.albums[j].id;
    }
  }

  lemma PairTables(folders: seq<Folder>, albums: seq<Album>, next: seq<Album>)
    requires AlbumsAttached(albums, folders) && DistinctAlbums(albums) && NamedAlbums(albums) && |next| == |albums|
    requires forall i :: 0 <= i < |albums| ==> next[i].id == albums[i].id && next[i].parentId == albums[i].parentId
    ensures AlbumsAttached(next, folders) && DistinctAlbums(next) && NamedAlbums(next)
  {
    forall a | a in next ensures a.id != "" && (a.parentId == "" || FolderWith(folders, a.parentId).Some?) {
      var i :| 0 <= i < |next| && next[i] == a;
      assert albums[i] in albums;
    }
    forall i, j | 0 <= i < j < |next| ensures next[i].id != next[j].id {
      assert albums[i].id != albums[j].id;
    }
  }

  // ----------------------------------------------------------- the import page

  /** applySourceOperationLocked */
  method ApplyOperation(c: Catalog, device: string, op: SourceOp, members: bool, id: string, disk: Disk)
    returns (r: Result<Receipt>)
    requires c.Valid() && Sane(OrganisationOf(c)) && FreshServerId(OrganisationOf(c), id)
    modifies c
    ensures c.Valid() && Sane(OrganisationOf(c)) && c.files == old(c.files)
    ensures StaysFree(old(c.files), old(c.albums), c.files, c.albums)
    ensures match ApplySource(old(OrganisationOf(c)), old(c.files), device, op, members, id)
            case Err(e) => r == Err(e) && c.Current() == old(c.Current())
            case Ok((receipt, None)) => r == Ok(receipt) && c.Current() == old(c.Current())
            case Ok((receipt, Some(o))) =>
              Transacts(old(c.Current()), Ok(OnTree(old(c.files), o)), disk.writes, c.Current(), if r.Ok? then None
                        else Some(r.error))
              && (if r.Ok? then r == Ok(receipt) && OrganisationOf(c) == o else c.Current() == old(c.Current()))
  {
    hide Sane, ApplySource, FreshServerId, Commits, KeyOf, OperationKey;
    var o := OrganisationOf(c);
    var applied := ApplySource(o, c.files, device, op, members, id);
    if applied.Err? {
      return Err(applied.error);
    }
    var (receipt, next) := applied.value;
    if next.None? {
      return Ok(receipt);
    }
    Namespaces(c);
    ApplyKeeps(o, c.files, device, op, members, id);
    KeptNamespaces(o, next.value, KeyOf(device, op));
    var err := CommitOrganisation(c, next.value, disk);
    r := if err.None? then Ok(receipt) else Err(err.value);
  }

  lemma KeptNamespaces(o: Organisation, next: Organisation, key: string)
    requires forall k :: k in o.sources ==> o.sources[k].namespace != ""
    requires key in next.sources && next.sources == o.sources[key := next.sources[key]]
             && next.sources[key].namespace != ""
    ensures forall k :: k in next.sources ==> next.sources[k].namespace != ""
  {
  }

  datatype Status = Applied | Stale | ConflictingIdentity | InvalidSpecification | Unavailable | DependencyBlocked

  datatype Outcome = Outcome(operationId: string, status: Status, receipt: Option<Receipt>)

  function Classify(e: Error): Status {
    match e
    case RevisionMismatch => Stale
    case SourceConflict => ConflictingIdentity
    case AlbumInvalid => InvalidSpecification
    case NotFound => InvalidSpecification
    case Descendant => InvalidSpecification
    case RevisionOverflow => InvalidSpecification
    case _ => Unavailable
  }

  ghost predicate Missing(o: Organisation, device: string, op: SourceOp) {
    op.parentSourceId != "" && ParentKey(device, op) !in o.sources
  }

  /** The operation has its receipt, under the digest it is retried with. */
  ghost predicate Recorded(o: Organisation, device: string, op: SourceOp, members: bool) {
    && WellSized(op) && OperationKey(device, op) in o.operations
    && o.operations[OperationKey(device, op)].digest == op.(members := members)
  }

  /** Ids the server would issue are new, whatever is issued first. */
  ghost predicate FreshStream(o: Organisation, ids: nat -> string, from: nat) {
    && (forall n :: n >= from ==> FreshServerId(o, ids(n)))
    && (forall m, n :: from <= m < n ==> ids(m) != ids(n))
  }

  lemma {:induction false} WalkErrors(folders: seq<Folder>, parent: string, seen: set<string>, depth: nat)
    ensures Walk(folders, parent, seen, depth).None? || Walk(folders, parent, seen, depth).value != SourceDependency
    decreases MAXIMUM_DEPTH - depth
  {
    if parent != "" && depth < MAXIMUM_DEPTH && parent !in seen && FolderWith(folders, parent).Some? {
      WalkErrors(folders, FolderWith(folders, parent).value.parentId, seen + {parent}, depth + 1);
    }
  }

  lemma {:induction false} BrokenErrors(folders: seq<Folder>, n: nat)
    requires n <= |folders|
    ensures FirstBroken(folders, n).None? || FirstBroken(folders, n).value != SourceDependency
    decreases |folders| - n
  {
    if n < |folders| {
      WalkErrors(folders, folders[n].parentId, {folders[n].id}, 0);
      BrokenErrors(folders, n + 1);
    }
  }

  lemma {:induction false} AddedErrors(files: seq<File>, assets: seq<string>, ids: seq<string>, n: nat)
    requires n <= |ids| && AddedIds(files, assets, ids, n).Err?
    ensures AddedIds(files, assets, ids, n).error == NotFound
  {
    if n > 0 && AddedIds(files, assets, ids, n - 1).Err? {
      AddedErrors(files, assets, ids, n - 1);
    }
  }

  lemma FolderErrors(folders: seq<Folder>, f: Folder, id: string)
    requires MutateFolder(folders, f, id).Err?
    ensures MutateFolder(folders, f, id).error != SourceDependency
  {
    hide Walk, Trim, FirstBroken;
    WalkErrors(folders, f.parentId, {f.id}, 0);
    if Candidate(folders, f.(title := Trim(f.title)), id).Ok? {
      BrokenErrors(Candidate(folders, f.(title := Trim(f.title)), id).value.0, 0);
    }
  }

  lemma MemberErrors(o: Organisation, files: seq<File>, m: Mapping, op: SourceOp)
    requires ImportMembers(o, files, m, op).Err?
    ensures ImportMembers(o, files, m, op).error != SourceDependency
  {
    hide AddedIds;
    var k := AlbumIndex(o.albums, m.serverId, 0);
    if k >= 0 && AddedIds(files, o.albums[k].assets, op.addIds, |op.addIds|).Err? {
      AddedErrors(files, o.albums[k].assets, op.addIds, |op.addIds|);
    }
  }

  lemma AlbumErrors(o: Organisation, m: Mapping, op: SourceOp, parent: string, id: string)
    requires ImportAlbum(o, m, op, parent, id).Err?
    ensures ImportAlbum(o, m, op, parent, id).error != SourceDependency
  {
    hide Walk, Trim;
    WalkErrors(o.folders, parent, {""}, 0);
  }

  /** Only an unmapped parent makes an operation wait. */
  lemma OnlyMissingWaits(o: Organisation, files: seq<File>, device: string, op: SourceOp, members: bool, id: string)
    requires ApplySource(o, files, device, op, members, id) == Err(SourceDependency)
    ensures Missing(o, device, op)
  {
    hide MutateFolder, ImportAlbum, ImportMembers, RevisionHeld, SourceKey;
    if !Missing(o, device, op) && ParentOf(o, device, op).Ok? {
      var m, parent := MappingFor(o, KeyOf(device, op)), ParentOf(o, device, op).value;
      if !op.deleted {
        if members {
          if ImportMembers(o, files, m, op).Err? {
            MemberErrors(o, files, m, op);
          }
        } else if op.kind == "folder" {
          var f := Folder(m.serverId, parent, op.title, op.position, op.expectedRevision);
          if MutateFolder(o.folders, f, "pc_" + id).Err? {
            FolderErrors(o.folders, f, "pc_" + id);
          }
        } else if op.kind == "album" {
          if ImportAlbum(o, m, op, parent, id).Err? {
            AlbumErrors(o, m, op, parent, id);
          }
        }
      }
    }
  }

  /** Whatever an operation did, it issued at most its own id. */
  lemma StreamStaysFresh(o: Organisation, files: seq<File>, device: string, op: SourceOp, members: bool,
                         ids: nat -> string, n: nat)
    requires Sane(o) && FreshStream(o, ids, n)
    requires var r := ApplySource(o, files, device, op, members, ids(n)); r.Ok? && r.value.1.Some?
    ensures FreshStream(ApplySource(o, files, device, op, members, ids(n)).value.1.value, ids, n + 1)
  {
    hide SourceKey, WellSized, Walk, Trim, AddedIds, RevisionHeld, Forest, FirstBroken, Sane;
    var next := ApplySource(o, files, device, op, members, ids(n)).value.1.value;
    var id := ids(n);
    IssuedIds(o, files, device, op, members, id);
    forall m | m >= n + 1 ensures FreshServerId(next, ids(m)) {
      assert FreshServerId(o, ids(m)) && ids(m) != id;
      assert ("pc_" + ids(m))[3..] == ids(m) && ("pc_" + id)[3..] == id;
      assert ("pa_" + ids(m))[3..] == ids(m) && ("pa_" + id)[3..] == id;
    }
  }

  ghost predicate IssuedOnly(o: Organisation, next: Organisation, id: string) {
    && (forall f :: f in next.folders ==> f.id == "pc_" + id || exists g :: g in o.folders && g.id == f.id)
    && (forall a :: a in next.albums ==> a.id == "pa_" + id || exists b :: b in o.albums && b.id == a.id)
  }

  lemma IssuedIds(o: Organisation, files: seq<File>, device: string, op: SourceOp, members: bool, id: string)
    requires Sane(o)
    requires var r := ApplySource(o, files, device, op, members, id); r.Ok? && r.value.1.Some?
    ensures IssuedOnly(o, ApplySource(o, files, device, op, members, id).value.1.value, id)
  {
    hide SourceKey, WellSized, Sane, Write;
    var m, parent := MappingFor(o, KeyOf(device, op)), ParentOf(o, device, op).value;
    IssuedFolders(o, files, op, m, KeyOf(device, op) in o.sources, parent, members, id);
    IssuedAlbums(o, files, op, m, KeyOf(device, op) in o.sources, parent, members, id);
  }

  lemma IssuedFolders(o: Organisation, files: seq<File>, op: SourceOp, m: Mapping, mapped: bool, parent: string,
                      members: bool, id: string)
    requires Write(o, files, op, m, mapped, parent, members, id).Ok?
    ensures forall f :: f in Write(o, files, op, m, mapped, parent, members, id).value.folders ==>
              f.id == "pc_" + id || exists g :: g in o.folders && g.id == f.id
  {
    hide RevisionHeld, ImportAlbum, ImportMembers, Walk, Trim, FirstBroken;
    assert forall i :: 0 <= i < |o.folders| ==> o.folders[i] in o.folders;
  }

  lemma IssuedAlbums(o: Organisation, files: seq<File>, op: SourceOp, m: Mapping, mapped: bool, parent: string,
                     members: bool, id: string)
    requires Write(o, files, op, m, mapped, parent, members, id).Ok?
    ensures forall a :: a in Write(o, files, op, m, mapped, parent, members, id).value.albums ==>
              a.id == "pa_" + id || exists b :: b in o.albums && b.id == a.id
  {
    hide RevisionHeld, MutateFolder, Walk, Trim, AddedIds;
    assert forall i :: 0 <= i < |o.albums| ==> o.albums[i] in o.albums;
  }

  /** How one attempt ends: None means it has to wait for its parent. */
  ghost predicate Attempted(o: Organisation, r: Result<(Receipt, Option<Organisation>)>, after: Organisation,
                            operationId: string, outcome: Option<Outcome>, saved: bool)
  {
    match r
    case Err(e) =>
      after == o && !saved
      && if e == SourceDependency then outcome.None?
         else outcome.Some? && outcome.value.operationId == operationId && outcome.value.status == Classify(e)
    case Ok((receipt, None)) => after == o && !saved && outcome == Some(Outcome(operationId, Applied, Some(receipt)))
    case Ok((receipt, Some(next))) =>
      if saved then after == next && outcome == Some(Outcome(operationId, Applied, Some(receipt)))
      else after == o && outcome.Some? && outcome.value.operationId == operationId
           && (outcome.value.status == Unavailable || outcome.value.status == InvalidSpecification)
  }

  method Attempt(c: Catalog, device: string, op: SourceOp, members: bool, id: string, disk: Disk)
    returns (outcome: Option<Outcome>, ghost saved: bool)
    requires c.Valid() && Sane(OrganisationOf(c)) && FreshServerId(OrganisationOf(c), id)
    modifies c
    ensures c.Valid() && Sane(OrganisationOf(c)) && c.files == old(c.files)
    ensures StaysFree(old(c.files), old(c.albums), c.files, c.albums)
    ensures Attempted(old(OrganisationOf(c)),
                      ApplySource(old(OrganisationOf(c)), old(c.files), device, op, members, id),
                      OrganisationOf(c), op.operationId, outcome, saved)
    ensures !saved ==> c.Current() == old(c.Current())
    ensures var r := ApplySource(old(OrganisationOf(c)), old(c.files), device, op, members, id);
            r.Ok? && r.value.1.Some? && !saved ==> !disk.writes || Full(c.Current())
    ensures Full(old(c.Current())) ==> Full(c.Current())
  {
    hide Sane, ApplySource, FreshServerId, Transacts, KeyOf, OperationKey;
    ghost var before, o := c.Current(), OrganisationOf(c);
    ghost var r := ApplySource(o, c.files, device, op, members, id);
    var receipt := ApplyOperation(c, device, op, members, id, disk);
    saved := r.Ok? && r.value.1.Some? && receipt.Ok?;
    if r.Ok? && r.value.1.Some? && receipt.Err? {
      SaveErrors(before, OnTree(before.tree.files, r.value.1.value), disk.writes, c.Current(), receipt.error);
    }
    if r.Ok? && r.value.1.Some? {
      AttemptRoom(before, o, device, op, members, id, disk.writes, c.Current(), if receipt.Ok? then None
                  else Some(receipt.error));
    }
    if receipt.Ok? {
      outcome := Some(Outcome(op.operationId, Applied, Some(receipt.value)));
    } else if receipt.error == SourceDependency {
      outcome := None;
    } else {
      var kept := if receipt.error == SourceConflict && OperationKey(device, op) in c.operations
                  then Some(c.operations[OperationKey(device, op)]) else None;
      outcome := Some(Outcome(op.operationId, Classify(receipt.error), kept));
    }
  }

  lemma SaveErrors(before: State, t: Tree, writes: bool, after: State, e: Error)
    requires Transacts(before, Ok(t), writes, after, Some(e))
    ensures after == before && (e == SaveFailed || e == RevisionOverflow)
  {
  }

  lemma AttemptRoom(before: State, o: Organisation, device: string, op: SourceOp, members: bool, id: string,
                    writes: bool,
                    after: State, err: Option<Error>)
    requires before.tree == OnTree(before.tree.files, o) && Sane(o)
    requires var r := ApplySource(o, before.tree.files, device, op, members, id);
             r.Ok? && r.value.1.Some? && Transacts(before, Ok(OnTree(before.tree.files, r.value.1.value)), writes,
                                                   after, err)
    ensures err.Some? ==> !writes || Full(before)
    ensures err.None? && Full(before) ==> Full(after)
  {
    hide ApplySource, Sane, Transacts, Full;
    var next := OnTree(before.tree.files, ApplySource(o, before.tree.files, device, op, members, id).value.1.value);
    ApplyRows(o, before.tree.files, device, op, members, id);
    if err.None? {
      FullStays(before, next, writes, after);
    } else if writes {
      RefusedWhenFull(before, next, after, err.value);
    }
  }

  /** One operation adds at most its node and its mapping to the journalled rows. */
  lemma ApplyRows(o: Organisation, files: seq<File>, device: string, op: SourceOp, members: bool, id: string)
    requires var r := ApplySource(o, files, device, op, members, id); r.Ok? && r.value.1.Some?
    ensures var next := ApplySource(o, files, device, op, members, id).value.1.value;
            Rows(OnTree(files, o)) <= Rows(OnTree(files, next)) <= Rows(OnTree(files, o)) + 2
  {
    hide SourceKey, WellSized, Write;
    var next, key, m := ApplySource(o, files, device, op, members, id).value.1.value, KeyOf(device, op),
        MappingFor(o, KeyOf(device, op));
    WriteRows(o, files, op, m, key in o.sources, ParentOf(o, device, op).value, members, id);
    assert next.sources == o.sources[key := next.sources[key]];
    assert next.sources.Keys == o.sources.Keys + {key};
  }

  lemma WriteRows(o: Organisation, files: seq<File>, op: SourceOp, m: Mapping, mapped: bool, parent: string,
                  members: bool, id: string)
    requires Write(o, files, op, m, mapped, parent, members, id).Ok?
    ensures var w := Write(o, files, op, m, mapped, parent, members, id).value;
            |o.folders| + |o.albums| <= |w.folders| + |w.albums| <= |o.folders| + |o.albums| + 1
  {
    hide RevisionHeld, ImportMembers, ImportAlbum, MutateFolder;
    if !op.deleted && members {
      MemberRows(o, files, m, op);
    } else if !op.deleted && op.kind == "folder" {
      FolderCount(o.folders, Folder(m.serverId, parent, op.title, op.position, op.expectedRevision), "pc_" + id);
    } else if !op.deleted {
      AlbumCount(o, m, op, parent, id);
    }
  }

  lemma FolderCount(folders: seq<Folder>, f: Folder, id: string)
    requires MutateFolder(folders, f, id).Ok?
    ensures |folders| <= |MutateFolder(folders, f, id).value.0| <= |folders| + 1
  {
    hide Trim, FirstBroken, ValidateParent, Presentable;
  }

  lemma AlbumCount(o: Organisation, m: Mapping, op: SourceOp, parent: string, id: string)
    requires ImportAlbum(o, m, op, parent, id).Ok?
    ensures |o.albums| <= |ImportAlbum(o, m, op, parent, id).value.0| <= |o.albums| + 1
  {
    hide Trim, ValidateParent, Presentable;
  }

  lemma MemberRows(o: Organisation, files: seq<File>, m: Mapping, op: SourceOp)
    requires ImportMembers(o, files, m, op).Ok?
    ensures |ImportMembers(o, files, m, op).value.0| == |o.albums|
  {
    hide AddedIds;
  }

  /** Every save of the page works. */
  ghost predicate SavesWork(disks: nat -> Disk, end: State) {
    (forall k: nat :: disks(k).writes) && !Full(end)
  }

  lemma SavesWorked(disks: nat -> Disk, earlier: State, end: State)
    requires Full(earlier) ==> Full(end)
    ensures SavesWork(disks, end) ==> SavesWork(disks, earlier)
  {
  }

  /** What a page of operations has come to, part of the way through. */
  datatype Progress = Progress(pending: set<int>, results: seq<Option<Outcome>>)

  function Recall(o: Organisation, key: string): Option<Receipt> {
    if key in o.operations then Some(o.operations[key]) else None
  }

  /** Operations with an applied outcome have their receipt in the catalog. */
  ghost predicate ReceiptsHeld(device: string, ops: seq<SourceOp>, members: bool, p: Progress, o: Organisation)
    requires |p.results| == |ops|
  {
    && (forall i :: i in p.pending ==> 0 <= i < |ops|)
    && (forall i :: 0 <= i < |ops| ==>
          if i in p.pending then p.results[i].None?
          else p.results[i].Some? && p.results[i].value.operationId == ops[i].operationId
               && p.results[i].value.status != DependencyBlocked
               && (p.results[i].value.status == Applied ==>
                     Recorded(o, device, ops[i], members)
                     && p.results[i].value.receipt == Recall(o, OperationKey(device, ops[i]))))
  }

  ghost predicate AllRecorded(o: Organisation, device: string, ops: seq<SourceOp>, members: bool) {
    forall i :: 0 <= i < |ops| ==> Recorded(o, device, ops[i], members)
  }

  function Decided(ops: seq<SourceOp>, p: Progress): set<int> {
    All(ops) - p.pending
  }

  /** As long as every save works, a page of distinct fresh creations is being built. */
  ghost predicate Building(o: Organisation, device: string, ops: seq<SourceOp>, rank: seq<nat>, p: Progress,
                           s: Organisation)
    requires |rank| == |ops| == |p.results|
  {
    && Built(o, device, ops, rank, Decided(ops, p), s)
    && forall i :: 0 <= i < |ops| && i !in p.pending ==> p.results[i].Some? && p.results[i].value.status == Applied
  }

  lemma ApplyGrowsReceipts(o: Organisation, files: seq<File>, device: string, op: SourceOp, members: bool, id: string)
    requires ApplySource(o, files, device, op, members, id).Ok?
    ensures var (receipt, next) := ApplySource(o, files, device, op, members, id).value;
            var after := if next.Some? then next.value else o;
            && (forall k :: k in o.operations ==> k in after.operations && after.operations[k] == o.operations[k])
            && Recorded(after, device, op, members) && Recall(after, OperationKey(device, op)) == Some(receipt)
  {
    hide SourceKey, WellSized, Write, ParentOf;
  }

  lemma RecordedStays(o: Organisation, after: Organisation, device: string, op: SourceOp, members: bool)
    requires Recorded(o, device, op, members)
    requires forall k :: k in o.operations ==> k in after.operations && after.operations[k] == o.operations[k]
    ensures Recorded(after, device, op, members)
    ensures Recall(after, OperationKey(device, op)) == Recall(o, OperationKey(device, op))
  {
    hide WellSized, OperationKey;
  }

  lemma RecordedReplays(o: Organisation, files: seq<File>, device: string, op: SourceOp, members: bool, id: string)
    requires Recorded(o, device, op, members)
    ensures ApplySource(o, files, device, op, members, id) == Ok((o.operations[OperationKey(device, op)], None))
  {
  }

  /** The receipts after one more decision. */
  lemma DecisionKeepsReceipts(device: string, ops: seq<SourceOp>, members: bool, p: Progress, o: Organisation,
                              files: seq<File>,
                              i: int, id: string, outcome: Option<Outcome>, after: Organisation, saved: bool)
    requires |p.results| == |ops| && ReceiptsHeld(device, ops, members, p, o) && i in p.pending && outcome.Some?
    requires Attempted(o, ApplySource(o, files, device, ops[i], members, id), after, ops[i].operationId, outcome, saved)
    ensures ReceiptsHeld(device, ops, members, Progress(p.pending - {i}, p.results[i := outcome]), after)
  {
    hide ApplySource, Recorded, OperationKey;
    var r := ApplySource(o, files, device, ops[i], members, id);
    if r.Ok? {
      ApplyGrowsReceipts(o, files, device, ops[i], members, id);
    }
    forall k | 0 <= k < |ops| && k !in p.pending && p.results[k].value.status == Applied
      ensures Recorded(after, device, ops[k], members)
              && Recall(after, OperationKey(device, ops[k])) == Recall(o, OperationKey(device, ops[k]))
    {
      RecordedStays(o, after, device, ops[k], members);
    }
  }

  lemma DecisionBuilds(o: Organisation, device: string, ops: seq<SourceOp>, rank: seq<nat>, p: Progress,
                       s: Organisation,
                       files: seq<File>, i: int, id: string, outcome: Option<Outcome>, after: Organisation, saved: bool)
    requires |rank| == |ops| == |p.results| && Page(o, device, ops, rank) && Building(o, device, ops, rank, p, s)
    requires Sane(s) && FreshServerId(s, id) && i in p.pending && 0 <= i < |ops|
    requires Attempted(s, ApplySource(s, files, device, ops[i], false, id), after, ops[i].operationId, outcome, saved)
    requires !Missing(s, device, ops[i])
    ensures saved ==> outcome.Some? && Building(o, device, ops, rank,
                                                Progress(p.pending - {i}, p.results[i := outcome]), after)
    ensures outcome.Some?
  {
    hide ApplySource, Page, Built, Sane, FreshServerId, All;
    NextIsBuilt(o, files, device, ops, rank, Decided(ops, p), s, i, id);
    assert Decided(ops, Progress(p.pending - {i}, p.results[i := outcome])) == Decided(ops, p) + {i};
  }

  ghost predicate AllApplied(ops: seq<SourceOp>, p: Progress)
    requires |p.results| == |ops|
  {
    forall i :: 0 <= i < |ops| && i !in p.pending ==> p.results[i].Some? && p.results[i].value.status == Applied
  }

  lemma NothingDecided(o: Organisation, device: string, ops: seq<SourceOp>, members: bool, rank: seq<nat>, p: Progress)
    requires p.pending == All(ops) && |p.results| == |ops| == |rank| && forall i :: 0 <= i < |ops| ==>
               p.results[i].None?
    ensures ReceiptsHeld(device, ops, members, p, o) && AllApplied(ops, p)
    ensures Building(o, device, ops, rank, p, o)
  {
    assert Decided(ops, p) == {};
  }

  lemma StreamHead(o: Organisation, ids: nat -> string, n: nat)
    requires FreshStream(o, ids, n)
    ensures FreshServerId(o, ids(n)) && FreshStream(o, ids, n + 1)
  {
  }

  /** In such a page an operation without its parent waits. */
  lemma MissingWaits(o: Organisation, files: seq<File>, device: string, ops: seq<SourceOp>, rank: seq<nat>, p: Progress,
                     s: Organisation, i: int, id: string)
    requires |rank| == |ops| == |p.results| && Page(o, device, ops, rank) && Building(o, device, ops, rank, p, s)
    requires 0 <= i < |ops| && i in p.pending && Missing(s, device, ops[i])
    ensures ApplySource(s, files, device, ops[i], false, id) == Err(SourceDependency)
  {
    hide Built, Page, KeyOf, OperationKey, ParentKey, Write, All;
    NotYetMapped(o, device, ops, rank, Decided(ops, p), s, i);
    CreationOf(o, device, ops, rank, i);
  }

  lemma CreationOf(o: Organisation, device: string, ops: seq<SourceOp>, rank: seq<nat>, i: int)
    requires Page(o, device, ops, rank) && 0 <= i < |ops|
    ensures WellSized(ops[i]) && ops[i].expectedRevision == 0
  {
    hide WellSized;
  }

  /** What a decided attempt leaves of the loop's promises. */
  lemma StepBuilds(o: Organisation, device: string, ops: seq<SourceOp>, rank: seq<nat>, p: Progress, s: Organisation,
                   files: seq<File>, i: int, id: string, outcome: Option<Outcome>, after: Organisation, saved: bool)
    requires |rank| == |ops| == |p.results| && Page(o, device, ops, rank) && Building(o, device, ops, rank, p, s)
    requires Sane(s) && FreshServerId(s, id) && i in p.pending && 0 <= i < |ops|
    requires Attempted(s, ApplySource(s, files, device, ops[i], false, id), after, ops[i].operationId, outcome, saved)
    requires outcome.Some?
    ensures saved ==> Building(o, device, ops, rank, Progress(p.pending - {i}, p.results[i := outcome]), after)
    ensures var r := ApplySource(s, files, device, ops[i], false, id); !saved ==> r.Ok? && r.value.1.Some?
  {
    hide ApplySource, Page, Building, Sane, FreshServerId, Missing;
    if Missing(s, device, ops[i]) {
      MissingWaits(o, files, device, ops, rank, p, s, i, id);
    } else {
      DecisionBuilds(o, device, ops, rank, p, s, files, i, id, outcome, after, saved);
      BuildsNext(o, files, device, ops, rank, p, s, i, id);
    }
  }

  lemma BuildsNext(o: Organisation, files: seq<File>, device: string, ops: seq<SourceOp>, rank: seq<nat>, p: Progress,
                   s: Organisation, i: int, id: string)
    requires |rank| == |ops| == |p.results| && Page(o, device, ops, rank) && Building(o, device, ops, rank, p, s)
    requires Sane(s) && FreshServerId(s, id) && i in p.pending && 0 <= i < |ops| && !Missing(s, device, ops[i])
    ensures var r := ApplySource(s, files, device, ops[i], false, id); r.Ok? && r.value.1.Some?
  {
    hide ApplySource, Page, Built, Sane, FreshServerId, All;
    NextIsBuilt(o, files, device, ops, rank, Decided(ops, p), s, i, id);
  }

  lemma NoPendingLeft(o: Organisation, device: string, ops: seq<SourceOp>, rank: seq<nat>, p: Progress, s: Organisation)
    requires |rank| == |ops| == |p.results| && Page(o, device, ops, rank) && Building(o, device, ops, rank, p, s)
    requires forall k :: k in p.pending ==> 0 <= k < |ops| && Missing(s, device, ops[k])
    ensures p.pending == {} && Decided(ops, p) == All(ops)
  {
    hide Page, Built, ParentKey;
    forall k | k in p.pending ensures false {
      NoneBlocked(o, device, ops, rank, Decided(ops, p), s, k);
    }
  }

  /** The operations still pending are reported blocked. */
  method MarkBlocked(ops: seq<SourceOp>, p: Progress) returns (results: seq<Option<Outcome>>)
    requires |p.results| == |ops|
    ensures |results| == |ops|
    ensures forall i :: 0 <= i < |ops| ==>
              results[i] == if i in p.pending then Some(Outcome(ops[i].operationId, DependencyBlocked, None))
                  else p.results[i]
  {
    results := p.results;
    for i := 0 to |ops|
      invariant |results| == |ops|
      invariant forall k :: 0 <= k < |ops| ==>
        results[k] == if k in p.pending && k < i then Some(Outcome(ops[k].operationId, DependencyBlocked, None))
            else p.results[k]
    {
      if i in p.pending {
        results := results[i := Some(Outcome(ops[i].operationId, DependencyBlocked, None))];
      }
    }
  }

  /** What holds of the catalog and the progress between two attempts. */
  ghost predicate Importing(o: Organisation, start: State, c: Catalog, device: string, ops: seq<SourceOp>,
                            members: bool,
                            rank: seq<nat>, p: Progress, ids: nat -> string, n: nat, allSaved: bool)
    requires |rank| == |ops| == |p.results|
    reads c
  {
    && c.Valid() && Sane(OrganisationOf(c)) && FreshStream(OrganisationOf(c), ids, n)
    && StaysFree(start.tree.files, start.tree.albums, c.files, c.albums)
    && ReceiptsHeld(device, ops, members, p, OrganisationOf(c))
    && (AllRecorded(o, device, ops, members) ==> c.Current() == start && OrganisationOf(c) == o && AllApplied(ops, p))
    && (Page(o, device, ops, rank) && !members && allSaved ==> Building(o, device, ops, rank, p, OrganisationOf(c)))
  }

  /** One attempt inside a pass. */
  method ImportOne(c: Catalog, device: string, ops: seq<SourceOp>, members: bool, ids: nat -> string, disk: Disk,
                   i: nat, p: Progress, n: nat,
                   ghost rank: seq<nat>, ghost o: Organisation, ghost start: State, ghost savedSoFar: bool)
    returns (q: Progress, ghost allSaved: bool)
    requires |rank| == |ops| == |p.results| && i < |ops| && i in p.pending
    requires Importing(o, start, c, device, ops, members, rank, p, ids, n, savedSoFar)
    modifies c
    ensures |q.results| == |ops| && c.files == old(c.files)
    ensures Importing(o, start, c, device, ops, members, rank, q, ids, n + 1, allSaved)
    ensures if i in q.pending then q == p && OrganisationOf(c) == old(OrganisationOf(c))
                                   && Missing(OrganisationOf(c), device, ops[i])
            else q.pending == p.pending - {i}
    ensures AllRecorded(o, device, ops, members) ==> i !in q.pending
    ensures allSaved ==> savedSoFar
    ensures savedSoFar && !allSaved ==> !disk.writes || Full(c.Current())
    ensures Full(old(c.Current())) ==> Full(c.Current())
  {
    hide Sane, FreshStream, ApplySource, Page, Building, Recorded, Missing, ReceiptsHeld, OperationKey, Catalog.Valid;
    hide Full;
    ghost var s, files := OrganisationOf(c), c.files;
    ghost var r := ApplySource(s, files, device, ops[i], members, ids(n));
    StreamHead(s, ids, n);
    var outcome, saved := Attempt(c, device, ops[i], members, ids(n), disk);
    allSaved := savedSoFar && (r.Ok? && r.value.1.Some? ==> saved);
    if saved {
      StreamStaysFresh(s, files, device, ops[i], members, ids, n);
    }
    if AllRecorded(o, device, ops, members) {
      RecordedReplays(s, files, device, ops[i], members, ids(n));
    }
    if outcome.None? {
      OnlyMissingWaits(s, files, device, ops[i], members, ids(n));
      q := p;
    } else {
      q := Progress(p.pending - {i}, p.results[i := outcome]);
      DecisionKeepsReceipts(device, ops, members, p, s, files, i, ids(n), outcome, OrganisationOf(c), saved);
      if Page(o, device, ops, rank) && !members && allSaved {
        StepBuilds(o, device, ops, rank, p, s, files, i, ids(n), outcome, OrganisationOf(c), saved);
      }
    }
  }

  /** What a page comes to. Every operation gets one outcome; an applied one has
      its receipt in the catalog; a blocked one still misses its parent there; a
      page whose receipts all exist only returns them; and a page of distinct
      fresh creations within the depth bound is applied completely, if the saves
      work. */
  ghost predicate PageResult(o: Organisation, after: Organisation, device: string, ops: seq<SourceOp>, members: bool,
                             rank: seq<nat>,
                             results: seq<Option<Outcome>>, untouched: bool, savesWork: bool)
    requires |rank| == |ops|
  {
    && |results| == |ops|
    && (forall i :: 0 <= i < |ops| ==> results[i].Some? && results[i].value.operationId == ops[i].operationId)
    && (forall i :: 0 <= i < |ops| && results[i].value.status == Applied ==>
          Recorded(after, device, ops[i], members)
            && results[i].value.receipt == Recall(after, OperationKey(device, ops[i])))
    && (forall i :: 0 <= i < |ops| && results[i].value.status == DependencyBlocked ==> Missing(after, device, ops[i]))
    && (AllRecorded(o, device, ops, members) ==>
          untouched && forall i :: 0 <= i < |ops| ==> results[i].value.status == Applied)
    && (Page(o, device, ops, rank) && !members && savesWork ==>
          Built(o, device, ops, rank, All(ops), after) && forall i :: 0 <= i < |ops| ==>
              results[i].value.status == Applied)
  }

  /** ImportSourceOperations */
  method ImportSourceOperations(c: Catalog, device: string, ops: seq<SourceOp>, members: bool,
                                ids: nat -> string, disks: nat -> Disk, ghost rank: seq<nat>)
    returns (results: seq<Option<Outcome>>, err: Option<Error>)
    requires c.Valid() && Sane(OrganisationOf(c)) && FreshStream(OrganisationOf(c), ids, 0) && |rank| == |ops|
    modifies c
    ensures c.Valid() && Sane(OrganisationOf(c)) && c.files == old(c.files)
    ensures StaysFree(old(c.files), old(c.albums), c.files, c.albums)
    ensures err == if device == "" || |device| > 100 || |ops| > 200 || ops == [] then Some(AlbumInvalid) else None
    ensures err.Some? ==> results == [] && c.Current() == old(c.Current())
    ensures err.None? ==>
              PageResult(old(OrganisationOf(c)), OrganisationOf(c), device, ops, members, rank, results,
                         c.Current() == old(c.Current()),
                         SavesWork(disks, c.Current()))
  {
    hide Sane, FreshStream, PageResult, Catalog.Valid;
    if device == "" || |device| > 100 || |ops| > 200 || ops == [] {
      return [], Some(AlbumInvalid);
    }
    err := None;
    results := ImportOperations(c, device, ops, members, ids, disks, rank);
  }

  /** Passes over the page until one changes nothing. */
  method ImportOperations(c: Catalog, device: string, ops: seq<SourceOp>, members: bool,
                          ids: nat -> string, disks: nat -> Disk, ghost rank: seq<nat>)
    returns (results: seq<Option<Outcome>>)
    requires c.Valid() && Sane(OrganisationOf(c)) && FreshStream(OrganisationOf(c), ids, 0) && |rank| == |ops|
    modifies c
    ensures c.Valid() && Sane(OrganisationOf(c)) && c.files == old(c.files)
    ensures StaysFree(old(c.files), old(c.albums), c.files, c.albums)
    ensures PageResult(old(OrganisationOf(c)), OrganisationOf(c), device, ops, members, rank, results,
                       c.Current() == old(c.Current()),
                       SavesWork(disks, c.Current()))
  {
    hide Importing, Sane, FreshStream, PageResult, Missing, AllRecorded, Catalog.Valid, SavesWork, Full;
    ghost var o, start := OrganisationOf(c), c.Current();
    var p := Progress(All(ops), seq(|ops|, i => None));
    var attempts := 0;
    ghost var allSaved := true;
    PageBegins(c, device, ops, members, rank, p, ids);
    while p.pending != {}
      invariant |p.results| == |ops| && c.files == old(c.files)
      invariant Importing(o, start, c, device, ops, members, rank, p, ids, attempts, allSaved)
      invariant SavesWork(disks, c.Current()) ==> allSaved
      invariant AllRecorded(o, device, ops, members) && attempts > 0 ==> p.pending == {}
      decreases |p.pending|
    {
      ghost var entry := p.pending;
      var progress := false;
      ghost var earlier := c.Current();
      p, attempts, progress, allSaved := ImportPass(c, device, ops, members, ids, disks, p, attempts, rank, o, start,
                                                    allSaved);
      SavesWorked(disks, earlier, c.Current());
      if !progress {
        break;
      }
      StrictlyFewer(p.pending, entry);
    }
    results := MarkBlocked(ops, p);
    PageEnds(o, start, c, device, ops, members, rank, p, ids, attempts, allSaved, SavesWork(disks, c.Current()),
             results);
  }

  lemma PageBegins(c: Catalog, device: string, ops: seq<SourceOp>, members: bool, rank: seq<nat>, p: Progress,
                   ids: nat -> string)
    requires c.Valid() && Sane(OrganisationOf(c)) && FreshStream(OrganisationOf(c), ids, 0)
    requires p.pending == All(ops) && |p.results| == |ops| == |rank| && forall i :: 0 <= i < |ops| ==>
               p.results[i].None?
    ensures Importing(OrganisationOf(c), c.Current(), c, device, ops, members, rank, p, ids, 0, true)
  {
    hide Sane, FreshStream, Page, Built, Recorded, Catalog.Valid;
    NothingDecided(OrganisationOf(c), device, ops, members, rank, p);
  }

  lemma PageEnds(o: Organisation, start: State, c: Catalog, device: string, ops: seq<SourceOp>, members: bool,
                 rank: seq<nat>,
                 p: Progress, ids: nat -> string, n: nat, allSaved: bool, savesWork: bool,
                     results: seq<Option<Outcome>>)
    requires |rank| == |ops| == |p.results| == |results| && (savesWork ==> allSaved)
    requires Importing(o, start, c, device, ops, members, rank, p, ids, n, allSaved)
    requires forall k :: k in p.pending ==> 0 <= k < |ops| && Missing(OrganisationOf(c), device, ops[k])
    requires AllRecorded(o, device, ops, members) ==> p.pending == {}
    requires forall i :: 0 <= i < |ops| ==>
      results[i] == if i in p.pending then Some(Outcome(ops[i].operationId, DependencyBlocked, None)) else p.results[i]
    ensures c.Valid() && Sane(OrganisationOf(c)) && StaysFree(start.tree.files, start.tree.albums, c.files, c.albums)
    ensures PageResult(o, OrganisationOf(c), device, ops, members, rank, results, c.Current() == start, savesWork)
  {
    hide Sane, FreshStream, Page, Built, Recorded, Missing, OperationKey, Catalog.Valid;
    if Page(o, device, ops, rank) && !members && allSaved {
      NoPendingLeft(o, device, ops, rank, p, OrganisationOf(c));
    }
  }

  lemma StrictlyFewer(a: set<int>, b: set<int>)
    requires a < b
    ensures |a| < |b|
  {
    assert b == a + (b - a) && |b - a| > 0;
  }

  /** One pass over the page. */
  method ImportPass(c: Catalog, device: string, ops: seq<SourceOp>, members: bool, ids: nat -> string,
                    disks: nat -> Disk, p: Progress, n: nat,
                    ghost rank: seq<nat>, ghost o: Organisation, ghost start: State, ghost savedSoFar: bool)
    returns (q: Progress, attempts: nat, progress: bool, ghost allSaved: bool)
    requires |rank| == |ops| == |p.results|
    requires Importing(o, start, c, device, ops, members, rank, p, ids, n, savedSoFar)
    modifies c
    ensures |q.results| == |ops| && c.files == old(c.files)
    ensures Importing(o, start, c, device, ops, members, rank, q, ids, attempts, allSaved)
    ensures savedSoFar && SavesWork(disks, c.Current()) ==> allSaved
    ensures Full(old(c.Current())) ==> Full(c.Current())
    ensures if progress then q.pending < p.pending
            else q == p && forall k :: k in q.pending ==> 0 <= k < |ops| && Missing(OrganisationOf(c), device, ops[k])
    ensures attempts >= n && (p.pending != {} ==> attempts > n)
    ensures AllRecorded(o, device, ops, members) ==> q.pending == {}
  {
    hide Importing, Missing, AllRecorded, Full;
    q, attempts, progress, allSaved := p, n, false, savedSoFar;
    PendingInPage(o, start, c, device, ops, members, rank, p, ids, n, savedSoFar);
    ghost var before := OrganisationOf(c);
    for i := 0 to |ops|
      invariant |q.results| == |ops| && c.files == old(c.files) && q.pending <= p.pending
      invariant Importing(o, start, c, device, ops, members, rank, q, ids, attempts, allSaved)
      invariant savedSoFar && SavesWork(disks, c.Current()) ==> allSaved
      invariant Full(old(c.Current())) ==> Full(c.Current())
      invariant if progress then q.pending < p.pending else q == p && OrganisationOf(c) == before
      invariant !progress ==> forall k :: k in q.pending && k < i ==> Missing(before, device, ops[k])
      invariant AllRecorded(o, device, ops, members) ==> forall k :: k in q.pending ==> k >= i
      invariant attempts >= n && (attempts == n ==> q == p && forall k :: k in q.pending ==> k >= i)
    {
      if i in q.pending {
        q, allSaved := ImportOne(c, device, ops, members, ids, disks(attempts), i, q, attempts, rank, o, start,
                                 allSaved);
        attempts := attempts + 1;
        progress := progress || i !in q.pending;
      }
    }
  }

  lemma PendingInPage(o: Organisation, start: State, c: Catalog, device: string, ops: seq<SourceOp>, members: bool,
                      rank: seq<nat>, p: Progress, ids: nat -> string, n: nat, allSaved: bool)
    requires |rank| == |ops| == |p.results| && Importing(o, start, c, device, ops, members, rank, p, ids, n, allSaved)
    ensures forall k :: k in p.pending ==> 0 <= k < |ops|
  {
  }
}
