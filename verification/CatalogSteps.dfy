/** The modelled mutations of the catalog as steps, and what holds after any run of them. */
module CatalogSteps {
  import opened Prelude
  import opened Paths
  import opened Entries
  import opened Journals
  import opened Sync
  import opened JournalWriter
  import opened Collections
  import opened Albums
  import opened SourceImport
  import opened Catalogs
  import opened PhotoIngest
  import opened PhotoBatch
  import Store = CollectionStore
  import LivePairs
  import Moves
  import Trash
  import CopyTree
  import Edits
  import BackupCas

  datatype Mutation =
    | MakeFolder(path: string, id: string, now: int)
    | Rename(from: string, to: string)
    | Put(file: File, id: string, now: int)
    | SwitchReference(entry: string, revision: uint64, previous: Reference, next: Reference)
    | CopyWith(from: string, to: string, ids: seq<string>, grants: seq<CopyTree.Grant>)
    | Delete(path: string, now: int)
    | Restore(path: string)
    | PurgeTrash(before: int)
    | PublishBackup(plan: BackupCas.Plan)
    | UpdateMetadata(updates: seq<Edits.Update>)
    | SaveFolder(folder: Folder, id: string)
    | DeleteFolder(entry: string, revision: uint64)
    | SaveAlbum(input: AlbumInput, id: string)
    | ChangeMembers(entry: string, revision: uint64, add: seq<string>, remove: seq<string>)
    | DeleteAlbum(entry: string, revision: uint64)
    | SetPair(still: string, motion: string, stillRevision: uint64, motionRevision: uint64, unlink: bool)
    | CommitIngest(commit: Commit)
    | CommitBatch(commits: seq<Commit>)
    | PutComponents(parts: seq<File>, ids: seq<string>, now: int)
    | ApplySourceOperation(device: string, op: SourceOp, members: bool, id: string)

  /** Ids the server draws are new to the entries, the album lists, the folders
      and the albums; the rest is the shape of the call. */
  ghost predicate Issued(t: Tree, m: Mutation) {
    match m
    case MakeFolder(_, id, _) => Edits.FreshId(t.files, id)
    case Put(_, id, _) => Edits.FreshId(t.files, id) && !Listed(t.albums, id)
    case CopyWith(_, _, ids, grants) =>
      && |ids| >= |t.files| && |grants| >= |t.files| && CopyTree.FreshIds(t.files, ids)
      && forall i :: 0 <= i < |ids| ==> !Listed(t.albums, ids[i])
    case UpdateMetadata(updates) => |updates| <= 100
    case SaveFolder(_, id) => FolderWith(t.folders, id).None? && id != ""
    case SaveAlbum(_, id) => id != ""
    case PutComponents(parts, ids, _) => |ids| == |parts| && FreshBatch(t.files, parts, ids)
    case ApplySourceOperation(_, _, _, id) => FreshServerId(OrganisationIn(t), id)
    case _ => true
  }

  function OrganisationIn(t: Tree): Organisation {
    Organisation(t.folders, t.albums, t.sources, t.operations)
  }

  predicate OnEntries(m: Mutation) {
    || m.MakeFolder? || m.Rename? || m.Put? || m.SwitchReference? || m.CopyWith? || m.Delete? || m.Restore?
    || m.PurgeTrash? || m.PublishBackup? || m.UpdateMetadata?
  }

  predicate OnTables(m: Mutation) {
    m.SaveFolder? || m.DeleteFolder? || m.SaveAlbum? || m.ChangeMembers? || m.DeleteAlbum? || m.ApplySourceOperation?
  }

  ghost function EntriesAfter(t: Tree, m: Mutation): Result<seq<File>>
    requires OnEntries(m) && Issued(t, m)
  {
    match m
    case MakeFolder(path, id, now) => Edits.Mkdir(t.files, path, id, now)
    case Rename(from, to) => Moves.Rename(t.files, from, to)
    case Put(f, id, now) =>
      (match Edits.Put(t.files, f, id, now)
       case Err(e) => Err(e)
       case Ok(None) => Ok(t.files)
       case Ok(Some(next)) => Ok(next))
    case SwitchReference(id, revision, previous, next) => Edits.SwitchReference(t.files, id, revision, previous, next)
    case CopyWith(from, to, ids, grants) => CopyTree.Copy(t.files, from, to, ids, grants)
    case Delete(path, now) => Trash.Delete(t.files, path, now)
    case Restore(path) => Trash.Restore(t.files, path)
    case PurgeTrash(before) => Ok(Trash.Kept(t.files, before))
    case PublishBackup(plan) => BackupCas.Publish(t.files, plan)
    case UpdateMetadata(updates) =>
      (match Edits.ApplyUpdates(t.files, updates, |updates|)
       case Err(e) => Err(e)
       case Ok(b) => Ok(b.next))
  }

  function OnFolders(t: Tree, folders: Result<seq<Folder>>): Result<Tree> {
    match folders
    case Err(e) => Err(e)
    case Ok(f) => Ok(t.(folders := f))
  }

  function OnAlbums(t: Tree, albums: Result<seq<Album>>): Result<Tree> {
    match albums
    case Err(e) => Err(e)
    case Ok(a) => Ok(t.(albums := a))
  }

  function TablesAfter(t: Tree, m: Mutation): Result<Tree>
    requires OnTables(m)
  {
    match m
    case SaveFolder(f, id) =>
      (match MutateFolder(t.folders, f, id)
       case Err(e) => Err(e)
       case Ok(w) => Ok(t.(folders := w.0)))
    case DeleteFolder(id, revision) => OnFolders(t, Collections.DeleteFolder(t.folders, t.albums, id, revision))
    case SaveAlbum(input, id) => OnAlbums(t, Albums.SaveAlbum(t.files, t.albums, t.folders, input, id))
    case ChangeMembers(id, revision, add, remove) =>
      OnAlbums(t, Albums.ChangeMembers(t.files, t.albums, id, revision, add, remove))
    case DeleteAlbum(id, revision) => OnAlbums(t, Albums.DeleteAlbum(t.albums, id, revision))
    case ApplySourceOperation(device, op, members, id) =>
      (match ApplySource(OrganisationIn(t), t.files, device, op, members, id)
       case Err(e) => Err(e)
       case Ok((_, None)) => Ok(t)
       case Ok((_, Some(o))) => Ok(Store.OnTree(t.files, o)))
  }

  /** The tree a mutation saves; the tree itself where it saves nothing. */
  ghost function After(t: Tree, m: Mutation): Result<Tree>
    requires Issued(t, m)
  {
    if OnEntries(m) then OnFiles(t, EntriesAfter(t, m))
    else if OnTables(m) then TablesAfter(t, m)
    else
      match m
      case SetPair(still, motion, r, q, unlink) =>
        (match LivePairs.SetPair(t.files, t.albums, still, motion, r, q, unlink)
         case Err(e) => Err(e)
         case Ok(None) => Ok(t)
         case Ok(Some(p)) => Ok(t.(files := p.files, albums := p.albums)))
      case CommitIngest(commit) =>
        (match Ingest(t, commit)
         case Err(e) => Err(e)
         case Ok(i) => Ok(if i.next.Some? then i.next.value else t))
      case CommitBatch(commits) => Ok(IngestEach(t, commits).tree)
      case PutComponents(parts, ids, now) => Ok(PutEach(t, parts, ids, now).tree)
  }

  ghost predicate Step(t: Tree, m: Mutation, u: Tree) {
    Issued(t, m) && After(t, m) == Ok(u)
  }

  /** What holds of every reachable tree: one row per id, entries named, folders
      a forest of bounded depth, and every album hanging on a folder or the root. */
  ghost predicate Tidy(t: Tree) {
    WellFormed(t) && Named(t.files) && SaneTables(t.folders, t.albums)
  }

  // -------------------------------------------------------- one lemma a table

  lemma FilesStep(t: Tree, next: seq<File>)
    requires Tidy(t) && UniqueIds(next) && Evolves(t.files, next) && Named(next)
    ensures Tidy(t.(files := next)) && MayFollow(t, t.(files := next))
  {
    hide UniqueIds, Evolves, Named, SaneTables, DistinctKeys;
  }

  lemma TablesStep(t: Tree, o: Organisation)
    requires Tidy(t) && Sane(o) && t.sources.Keys <= o.sources.Keys
    requires forall k :: k in o.sources ==> o.sources[k].namespace != ""
    ensures Tidy(Store.OnTree(t.files, o)) && MayFollow(t, Store.OnTree(t.files, o))
  {
    hide SaneTables, WellFormed, Evolves;
    Store.OrganisedRows(t, o, t.files);
  }

  lemma StandStill(t: Tree)
    requires Tidy(t)
    ensures MayFollow(t, t)
  {
    SameEvolves(t.files);
  }

  // ------------------------------------------------------------------- entries

  lemma EntriesStep(t: Tree, m: Mutation, next: seq<File>)
    requires UniqueIds(t.files) && Named(t.files) && OnEntries(m) && Issued(t, m) && EntriesAfter(t, m) == Ok(next)
    ensures UniqueIds(next) && Evolves(t.files, next) && Named(next)
  {
    hide UniqueIds, Evolves, Moves.Rename, Edits.Put, Edits.SwitchReference, CopyTree.Copy, Trash.Delete, Trash.Restore;
    hide BackupCas.Publish, Edits.ApplyUpdates, Trash.Kept;
    match m {
      case MakeFolder(path, id, now) =>
        Joined(t.files, next[|t.files|]);
      case Rename(from, to) =>
        Moves.RenameEvolves(t.files, from, to);
        RenameNamed(t.files, from, to);
      case Put(f, id, now) =>
        if next == t.files {
          SameEvolves(t.files);
        } else {
          Edits.PutEvolves(t.files, f, id, now);
          PutNamed(t.files, f, id, now);
        }
      case SwitchReference(id, revision, previous, switched) =>
        Edits.SwitchEvolves(t.files, id, revision, previous, switched);
        SlotsNamed(t.files, next);
      case CopyWith(from, to, ids, grants) =>
        CopyTree.CopyEvolves(t.files, from, to, ids, grants);
        CopyNamed(t.files, from, to, ids, grants);
      case Delete(path, now) =>
        Trash.DeleteEvolves(t.files, path, now);
        DeleteNamed(t.files, path, now);
      case Restore(path) =>
        Trash.RestoreEvolves(t.files, path);
        RestoreNamed(t.files, path);
      case PurgeTrash(before) =>
        Trash.KeptEvolves(t.files, before);
      case PublishBackup(plan) =>
        BackupCas.PublishKeepsTree(t.files, plan);
        PublishNamed(t.files, plan);
      case UpdateMetadata(updates) =>
        Edits.BatchEvolves(t.files, updates);
        BatchNamed(t.files, updates);
    }
  }

  lemma RenameNamed(files: seq<File>, from: string, to: string)
    requires Named(files) && Moves.Rename(files, from, to).Ok?
    ensures Named(Moves.Rename(files, from, to).value)
  {
    hide Moves.RenameBlocks, Moves.Hit;
    SlotsNamed(files, Moves.Rename(files, from, to).value);
  }

  // -------------------------------------------------------------- organisation

  /** Folders, albums and imports leave the entries alone and keep the forest. */
  lemma TablesKept(t: Tree, m: Mutation, u: Tree)
    requires Tidy(t) && OnTables(m) && Issued(t, m) && TablesAfter(t, m) == Ok(u)
    ensures u.files == t.files && SaneTables(u.folders, u.albums) && StaysFree(t.files, t.albums, u.files, u.albums)
    ensures t.sources.Keys <= u.sources.Keys && forall k :: k in u.sources ==> u.sources[k].namespace != ""
  {
    hide MutateFolder, Collections.DeleteFolder, Albums.SaveAlbum, Albums.ChangeMembers, Albums.DeleteAlbum;
    hide ApplySource;
    hide UniqueIds, DistinctFolders, Forest, AlbumsAttached, MotionFree, FreshServerId;
    match m {
      case SaveFolder(f, id) =>
        MutateKeepsForest(t.folders, t.albums, f, id);
      case DeleteFolder(id, revision) =>
        DeleteKeepsForest(t.folders, t.albums, id, revision);
      case SaveAlbum(input, id) =>
        SaveAlbumKeeps(t.files, t.albums, t.folders, input, id);
        Store.SavedNames(t.files, t.albums, t.folders, input, id);
      case ChangeMembers(id, revision, add, remove) =>
        ChangeMembersKeeps(t.files, t.albums, t.folders, id, revision, add, remove);
        Store.ChangedNames(t.files, t.albums, id, revision, add, remove);
      case DeleteAlbum(id, revision) =>
        DeleteAlbumKeeps(t.files, t.albums, t.folders, id, revision);
      case ApplySourceOperation(device, op, members, id) =>
        ImportKept(t, device, op, members, id);
    }
  }

  lemma ImportKept(t: Tree, device: string, op: SourceOp, members: bool, id: string)
    requires Tidy(t) && FreshServerId(OrganisationIn(t), id)
    ensures var r := ApplySource(OrganisationIn(t), t.files, device, op, members, id);
            r.Ok? && r.value.1.Some? ==>
              && Sane(r.value.1.value) && StaysFree(t.files, t.albums, t.files, r.value.1.value.albums)
              && t.sources.Keys <= r.value.1.value.sources.Keys
              && forall k :: k in r.value.1.value.sources ==> r.value.1.value.sources[k].namespace != ""
  {
    hide ApplySource, SaneTables, MotionFree, FreshServerId, KeyOf, OperationKey;
    var r := ApplySource(OrganisationIn(t), t.files, device, op, members, id);
    if r.Ok? && r.value.1.Some? {
      ApplyKeeps(OrganisationIn(t), t.files, device, op, members, id);
      Store.KeptNamespaces(OrganisationIn(t), r.value.1.value, KeyOf(device, op));
    }
  }

  // ------------------------------------------------------------ entries and albums

  lemma PairStep(t: Tree, m: Mutation, u: Tree)
    requires Tidy(t) && m.SetPair? && Step(t, m, u)
    ensures Tidy(u) && MayFollow(t, u) && StaysFree(t.files, t.albums, u.files, u.albums)
  {
    hide LivePairs.SetPair, MotionFree, Forest, UniquePaths, Evolves;
    if LivePairs.SetPair(t.files, t.albums, m.still, m.motion, m.stillRevision, m.motionRevision,
                         m.unlink).value.None? {
      StandStill(t);
    } else {
      LivePairs.SetPairKeeps(t.files, t.albums, m.still, m.motion, m.stillRevision, m.motionRevision, m.unlink);
      LivePairs.PairRows(t.files, t.albums, m.still, m.motion, m.stillRevision, m.motionRevision, m.unlink);
      SlotsNamed(t.files, u.files);
      Store.PairTables(t.folders, t.albums, u.albums);
      DistinctRowsOf(u.albums);
    }
  }

  lemma DistinctRowsOf(albums: seq<Album>)
    requires DistinctAlbums(albums)
    ensures DistinctKeys(AlbumRows(albums))
  {
    var rows := AlbumRows(albums);
    forall i, j | 0 <= i < j < |rows| ensures rows[i].0 != rows[j].0 {
      assert albums[i].id != albums[j].id;
    }
  }

  lemma IngestStep(t: Tree, commit: Commit)
    requires Tidy(t) && Ingest(t, commit).Ok? && Ingest(t, commit).value.next.Some?
    ensures var u := Ingest(t, commit).value.next.value; Tidy(u) && MayFollow(t, u)
  {
    hide Ingest, Grows, Forest, Evolves, UniqueIds;
    IngestKeeps(t, commit);
    var u := Ingest(t, commit).value.next.value;
    GrowsNamed(t.files, u.files);
    Store.PairTables(t.folders, t.albums, u.albums);
  }

  lemma {:induction false} BatchStep(t: Tree, commits: seq<Commit>)
    requires Tidy(t)
    ensures Tidy(IngestEach(t, commits).tree) && MayFollow(t, IngestEach(t, commits).tree)
  {
    hide Ingest, SaneTables, Grows, Evolves;
    IngestEachSavable(t, commits);
    if commits != [] {
      var n := |commits| - 1;
      BatchStep(t, commits[..n]);
      var s := IngestEach(t, commits[..n]).tree;
      if Ingest(s, commits[n]).Ok? && Ingest(s, commits[n]).value.next.Some? {
        IngestStep(s, commits[n]);
      }
    }
  }

  lemma {:induction false} PutEachTables(t: Tree, files: seq<File>, ids: seq<string>, now: int)
    requires |ids| == |files|
    ensures PutEach(t, files, ids, now).tree == t.(files := PutEach(t, files, ids, now).tree.files)
  {
    hide Edits.Put;
    if files != [] {
      PutEachTables(t, files[..|files| - 1], ids[..|files| - 1], now);
    }
  }

  // ------------------------------------------------------------- each of the mutations

  /** Whichever of these mutations runs, a tidy tree stays tidy and may be saved
      after the one before: the forest, the attachments, the ids and the mappings hold. */
  lemma StepTidy(t: Tree, m: Mutation, u: Tree)
    requires Tidy(t) && Step(t, m, u)
    ensures Tidy(u) && MayFollow(t, u)
  {
    if OnEntries(m) {
      hide MayFollow, UniqueIds, Evolves, Named, EntriesAfter, SaneTables, Issued;
      EntriesStep(t, m, u.files);
      FilesStep(t, u.files);
    } else if OnTables(m) {
      hide Tidy, MayFollow, SaneTables, TablesAfter, Issued;
      TablesKept(t, m, u);
      TablesStep(t, OrganisationIn(u));
    } else if m.SetPair? {
      hide Tidy, Step, MayFollow;
      PairStep(t, m, u);
    } else {
      hide Tidy, MayFollow, Ingest, IngestEach, PutEach, FreshBatch;
      StandStill(t);
      if m.CommitIngest? {
        if Ingest(t, m.commit).value.next.Some? {
          IngestStep(t, m.commit);
        }
      } else if m.CommitBatch? {
        BatchStep(t, m.commits);
      } else {
        PutsStep(t, m.parts, m.ids, m.now);
      }
    }
  }

  lemma PutsStep(t: Tree, files: seq<File>, ids: seq<string>, now: int)
    requires Tidy(t) && |ids| == |files| && FreshBatch(t.files, files, ids)
    ensures var u := PutEach(t, files, ids, now).tree; Tidy(u) && MayFollow(t, u)
  {
    hide PutEach, SaneTables, FreshBatch, Grows, Evolves;
    PutEachSavable(t, files, ids, now);
    PutEachTables(t, files, ids, now);
  }

  /** Trees saved one after the other. */
  ghost predicate IsRun(ts: seq<Tree>, ms: seq<Mutation>) {
    |ts| == |ms| + 1 && forall i :: 0 <= i < |ms| ==> Step(ts[i], ms[i], ts[i + 1])
  }

  const EMPTY := Tree([], [], [], map[], map[])

  lemma EmptyTidy()
    ensures Tidy(EMPTY) && Numbered(EMPTY.files) && MotionFree(EMPTY.files, EMPTY.albums)
  {
  }

  /** So in every reachable tree folders form a forest and albums hang on it. */
  lemma {:induction false} EveryTreeTidy(ts: seq<Tree>, ms: seq<Mutation>, i: nat)
    requires IsRun(ts, ms) && Tidy(ts[0]) && i < |ts|
    ensures Tidy(ts[i]) && (i > 0 ==> MayFollow(ts[i - 1], ts[i]))
  {
    hide Tidy, Step, MayFollow;
    if i > 0 {
      EveryTreeTidy(ts, ms, i - 1);
      StepTidy(ts[i - 1], ms[i - 1], ts[i]);
    }
  }

  // -------------------------------------------------------- revisions are positive

  /** Entries that were not there before start at a positive revision. */
  ghost predicate NewNumbered(files: seq<File>, next: seq<File>) {
    forall g :: g in next ==> HasId(files, g.id) || g.revision > 0
  }

  lemma EvolvesNumbered(files: seq<File>, next: seq<File>)
    requires Numbered(files) && Evolves(files, next) && NewNumbered(files, next)
    ensures Numbered(next)
  {
    forall g | g in next ensures g.revision > 0 {
      var j :| 0 <= j < |next| && next[j] == g;
      if HasId(files, g.id) {
        var i :| 0 <= i < |files| && files[i].id == g.id;
        assert files[i] in files && Normal(files[i]).revision == files[i].revision && Normal(g).revision == g.revision;
      }
    }
  }

  lemma SlotsNumbered(files: seq<File>, next: seq<File>)
    requires |next| == |files| && forall i :: 0 <= i < |files| ==> next[i].id == files[i].id
    ensures NewNumbered(files, next)
  {
    forall g | g in next ensures HasId(files, g.id) {
      var i :| 0 <= i < |next| && next[i] == g;
      assert files[i].id == g.id;
    }
  }

  lemma EntriesNumbered(t: Tree, m: Mutation, next: seq<File>)
    requires UniqueIds(t.files) && OnEntries(m) && Issued(t, m) && EntriesAfter(t, m) == Ok(next)
    ensures NewNumbered(t.files, next)
  {
    hide UniqueIds, Edits.Put, CopyTree.Copy, BackupCas.Publish, Trash.Kept;
    if InPlace(m) {
      hide EntriesAfter, Issued;
      SlotsHold(t, m, next);
      SlotsNumbered(t.files, next);
    } else if m.Put? {
      if Edits.Put(t.files, m.file, m.id, m.now).value.Some? {
        PutNumbered(t.files, m.file, m.id, m.now);
      } else {
        SlotsNumbered(t.files, next);
      }
    } else if m.PublishBackup? {
      PublishNumbered(t.files, m.plan);
    } else if m.CopyWith? {
      CopiesNumbered(t.files, m.from, m.to, m.ids, m.grants);
    } else {
      StoredIds(t.files);
    }
  }

  lemma SlotsHold(t: Tree, m: Mutation, next: seq<File>)
    requires UniqueIds(t.files) && InPlace(m) && Issued(t, m) && EntriesAfter(t, m) == Ok(next)
    ensures |next| == |t.files| && forall i :: 0 <= i < |next| ==> next[i].id == t.files[i].id
  {
    hide UniqueIds, Edits.ApplyUpdates, Trash.Selection, Trash.RestoreBlocks, Moves.Hit, Moves.RenameBlocks;
    hide Edits.SwitchReference, Edits.UpdatedSlot;
    if m.UpdateMetadata? {
      Edits.BatchEvolves(t.files, m.updates);
      forall i | 0 <= i < |t.files| ensures next[i].id == t.files[i].id {
        Edits.SlotId(t.files[i], next[i], m.updates, |m.updates|);
      }
    } else if m.SwitchReference? {
      Edits.SwitchEvolves(t.files, m.entry, m.revision, m.previous, m.next);
    }
  }

  lemma PutNumbered(files: seq<File>, f: File, id: string, now: int)
    requires Edits.Put(files, f, id, now).Ok? && Edits.Put(files, f, id, now).value.Some?
    ensures NewNumbered(files, Edits.Put(files, f, id, now).value.value)
  {
    hide ValidReference;
    StoredIds(files);
  }

  lemma PublishNumbered(files: seq<File>, plan: BackupCas.Plan)
    requires UniqueIds(files) && BackupCas.Publish(files, plan).Ok?
    ensures NewNumbered(files, BackupCas.Publish(files, plan).value)
  {
    hide BackupCas.Publish, BackupCas.Publishable;
    BackupCas.PublishKeepsTree(files, plan);
    var next := BackupCas.Publish(files, plan).value;
    forall g | g in next ensures HasId(files, g.id) || g.revision > 0 {
      var j :| 0 <= j < |next| && next[j] == g;
      if j < |files| {
        BackupCas.SlotIds(files, plan, |plan.files|, next, j);
        assert files[j].id == g.id;
      } else {
        assert BackupCas.NewEntry(files, plan, |plan.files|, g);
      }
    }
  }

  lemma CopiesNumbered(files: seq<File>, from: string, to: string, ids: seq<string>, grants: seq<CopyTree.Grant>)
    requires |ids| >= |files| && |grants| >= |files| && CopyTree.Copy(files, from, to, ids, grants).Ok?
    ensures NewNumbered(files, CopyTree.Copy(files, from, to, ids, grants).value)
  {
    hide CopyTree.IdMap, CopyTree.CopyBlocked, CopyTree.RelinkedParts;
    StoredIds(files);
  }

  lemma {:induction false} PutsNumbered(t: Tree, files: seq<File>, ids: seq<string>, now: int)
    requires WellFormed(t) && Named(t.files) && |ids| == |files| && FreshBatch(t.files, files, ids) && Numbered(t.files)
    ensures Numbered(PutEach(t, files, ids, now).tree.files)
  {
    hide WellFormed, Named, Savable, Numbered, FreshBatch, Edits.Put, Evolves;
    if files != [] {
      var n := |files| - 1;
      FreshPrefix(t.files, files, ids);
      PutsNumbered(t, files[..n], ids[..n], now);
      PutEachSavable(t, files[..n], ids[..n], now);
      var s := PutEach(t, files[..n], ids[..n], now).tree;
      SavableIds(t, s);
      IdStillFresh(t.files, s.files, files, ids);
      if Edits.Put(s.files, files[n], ids[n], now).Ok? && Edits.Put(s.files, files[n], ids[n], now).value.Some? {
        Edits.PutEvolves(s.files, files[n], ids[n], now);
        PutNumbered(s.files, files[n], ids[n], now);
        EvolvesNumbered(s.files, Edits.Put(s.files, files[n], ids[n], now).value.value);
      }
    }
  }

  lemma PairNumbered(t: Tree, m: Mutation, u: Tree)
    requires Tidy(t) && m.SetPair? && Step(t, m, u)
    ensures NewNumbered(t.files, u.files)
  {
    hide LivePairs.SetPair, Tidy;
    if LivePairs.SetPair(t.files, t.albums, m.still, m.motion, m.stillRevision, m.motionRevision,
                         m.unlink).value.Some? {
      LivePairs.PairRows(t.files, t.albums, m.still, m.motion, m.stillRevision, m.motionRevision, m.unlink);
    }
    SlotsNumbered(t.files, u.files);
  }

  lemma {:induction false} BatchSlots(t: Tree, commits: seq<Commit>)
    requires Tidy(t)
    ensures var next := IngestEach(t, commits).tree.files;
            |next| == |t.files| && forall i :: 0 <= i < |next| ==> next[i].id == t.files[i].id
  {
    hide Ingest, Tidy, MayFollow;
    if commits != [] {
      var n := |commits| - 1;
      BatchSlots(t, commits[..n]);
      BatchStep(t, commits[..n]);
      IngestSlots(IngestEach(t, commits[..n]).tree, commits[n]);
    }
  }

  lemma IngestSlots(t: Tree, commit: Commit)
    requires Tidy(t)
    ensures var r := Ingest(t, commit);
            r.Ok? && r.value.next.Some? ==>
              var next := r.value.next.value.files;
              |next| == |t.files| && forall i :: 0 <= i < |next| ==> next[i].id == t.files[i].id
  {
    hide Ingest, MayFollow, SaneTables;
    if Ingest(t, commit).Ok? && Ingest(t, commit).value.next.Some? {
      IngestKeeps(t, commit);
    }
  }

  /** Each of them keeps revisions positive. */
  lemma StepNumbered(t: Tree, m: Mutation, u: Tree)
    requires Tidy(t) && Step(t, m, u) && Numbered(t.files)
    ensures Numbered(u.files)
  {
    if m.PutComponents? {
      hide Numbered, PutEach, FreshBatch, SaneTables;
      PutsNumbered(t, m.parts, m.ids, m.now);
    } else {
      hide Numbered, Tidy, Evolves, NewNumbered;
      StepTidy(t, m, u);
      NewOnesNumbered(t, m, u);
      FollowsEvolve(t, u);
      EvolvesNumbered(t.files, u.files);
    }
  }

  lemma FollowsEvolve(t: Tree, u: Tree)
    requires MayFollow(t, u)
    ensures Evolves(t.files, u.files)
  {
  }

  lemma NewOnesNumbered(t: Tree, m: Mutation, u: Tree)
    requires Tidy(t) && Step(t, m, u) && !m.PutComponents?
    ensures NewNumbered(t.files, u.files)
  {
    if OnEntries(m) {
      hide UniqueIds, Named, EntriesAfter, SaneTables, Issued, NewNumbered;
      EntriesNumbered(t, m, u.files);
    } else if OnTables(m) {
      hide Tidy, TablesAfter, Issued, NewNumbered;
      TablesKept(t, m, u);
      SlotsNumbered(t.files, u.files);
    } else if m.SetPair? {
      hide Tidy, Step, NewNumbered;
      PairNumbered(t, m, u);
    } else {
      hide Tidy, Ingest, IngestEach, NewNumbered;
      if m.CommitIngest? {
        IngestSlots(t, m.commit);
      } else {
        BatchSlots(t, m.commits);
      }
      SlotsNumbered(t.files, u.files);
    }
  }

  /** So in every tree reached from a numbered one, revisions are positive. */
  lemma {:induction false} EveryTreeNumbered(ts: seq<Tree>, ms: seq<Mutation>, i: nat)
    requires IsRun(ts, ms) && Tidy(ts[0]) && Numbered(ts[0].files) && i < |ts|
    ensures Numbered(ts[i].files)
  {
    hide Tidy, Step, Numbered;
    if i > 0 {
      EveryTreeNumbered(ts, ms, i - 1);
      EveryTreeTidy(ts, ms, i - 1);
      StepNumbered(ts[i - 1], ms[i - 1], ts[i]);
    }
  }

  // ----------------------------------------- linked motions stay out of albums

  /** The entry Put writes: the one at the path, or a new one. */
  function PutId(files: seq<File>, f: File, id: string): string {
    var k := Edits.Occupant(files, f.path, 0);
    if k >= 0 then files[k].id else if f.id != "" then f.id else id
  }

  /** A put that makes a linked motion does not write an entry an album lists. */
  ghost predicate PutClear(t: Tree, f: File, id: string, now: int) {
    var r := Edits.Put(t.files, f, id, now);
    r.Ok? && r.value.Some? && f.parentId != "" ==> !Listed(t.albums, PutId(t.files, f, id))
  }

  ghost predicate PublishClear(t: Tree, plan: BackupCas.Plan) {
    forall f :: f in plan.files && BackupCas.Planned(plan, f.id, |plan.files|) == Some(f) ==>
      f.parentId == "" || !Listed(t.albums, f.id)
  }

  ghost predicate CommitClear(t: Tree, commit: Commit) {
    var r := Ingest(t, commit);
    r.Ok? && r.value.next.Some? ==> LinkClear(t, commit)
  }

  /** Every commit of a batch is clear at its turn. */
  ghost predicate BatchClear(t: Tree, commits: seq<Commit>) {
    forall n :: 0 <= n < |commits| ==> CommitClear(IngestEach(t, commits[..n]).tree, commits[n])
  }

  /** Every put of a batch is clear at its turn. */
  ghost predicate PutsClear(t: Tree, files: seq<File>, ids: seq<string>, now: int)
    requires |ids| == |files|
  {
    forall n :: 0 <= n < |files| ==> PutClear(PutEach(t, files[..n], ids[..n], now).tree, files[n], ids[n], now)
  }

  /** What a caller can check so that the mutation leaves no linked motion in an album. */
  ghost predicate Clear(t: Tree, m: Mutation)
    requires Issued(t, m)
  {
    match m
    case Put(f, id, now) => PutClear(t, f, id, now)
    case PublishBackup(plan) => PublishClear(t, plan)
    case CommitIngest(commit) => CommitClear(t, commit)
    case CommitBatch(commits) => BatchClear(t, commits)
    case PutComponents(parts, ids, now) => PutsClear(t, parts, ids, now)
    case _ => true
  }

  /** An entry after a mutation: no linked motion, the same one as before, or unlisted. */
  ghost predicate Kin(files: seq<File>, albums: seq<Album>, f: File) {
    || f.parentId == "" || !Listed(albums, f.id)
    || exists i :: 0 <= i < |files| && files[i].id == f.id && files[i].parentId == f.parentId
  }

  /** Mutations that write no other entries keep albums free of linked motions. */
  lemma ParentsKept(files: seq<File>, albums: seq<Album>, next: seq<File>)
    requires MotionFree(files, albums) && forall j :: 0 <= j < |next| ==> Kin(files, albums, next[j])
    ensures MotionFree(next, albums)
  {
    forall a, id, j | 0 <= a < |albums| && id in albums[a].assets && 0 <= j < |next| && next[j].id == id
      ensures next[j].parentId == ""
    {
      assert Kin(files, albums, next[j]) && Listed(albums, id);
    }
  }

  lemma SlotsKin(files: seq<File>, albums: seq<Album>, next: seq<File>)
    requires |next| == |files|
    requires forall i :: 0 <= i < |files| ==> next[i].id == files[i].id && next[i].parentId == files[i].parentId
    ensures forall j :: 0 <= j < |next| ==> Kin(files, albums, next[j])
  {
  }

  lemma PutFree(t: Tree, f: File, id: string, now: int)
    requires UniqueIds(t.files) && Edits.FreshId(t.files, id) && MotionFree(t.files, t.albums)
    requires Edits.Put(t.files, f, id, now).Ok? && Edits.Put(t.files, f, id, now).value.Some?
    ensures MotionFree(Edits.Put(t.files, f, id, now).value.value, t.albums) <==> PutClear(t, f, id, now)
  {
    hide ValidReference, MotionFree, UniqueIds;
    var next, k := Edits.Put(t.files, f, id, now).value.value, Edits.Occupant(t.files, f.path, 0);
    var w := if k >= 0 then k else |t.files|;
    assert next[w].id == PutId(t.files, f, id) && next[w].parentId == f.parentId;
    if PutClear(t, f, id, now) {
      forall j | 0 <= j < |next| ensures Kin(t.files, t.albums, next[j]) {
        if j != w {
          assert next[j] == t.files[j];
        }
      }
      ParentsKept(t.files, t.albums, next);
    } else {
      NotFree(next, t.albums, w);
    }
  }

  lemma NotFree(files: seq<File>, albums: seq<Album>, i: int)
    requires 0 <= i < |files| && files[i].parentId != "" && Listed(albums, files[i].id)
    ensures !MotionFree(files, albums)
  {
  }

  lemma PublishFree(t: Tree, plan: BackupCas.Plan)
    requires UniqueIds(t.files) && MotionFree(t.files, t.albums) && BackupCas.Publish(t.files, plan).Ok?
    ensures MotionFree(BackupCas.Publish(t.files, plan).value, t.albums) <==> PublishClear(t, plan)
  {
    hide BackupCas.Publish, MotionFree, UniqueIds, BackupCas.Publishable, BackupCas.Guarded;
    var next, n := BackupCas.Publish(t.files, plan).value, |plan.files|;
    BackupCas.PublishKeepsTree(t.files, plan);
    if PublishClear(t, plan) {
      forall j | 0 <= j < |next| ensures Kin(t.files, t.albums, next[j]) {
        if j < |t.files| {
          assert BackupCas.SlotAfter(t.files[j], plan, n, next[j]);
        } else {
          assert BackupCas.NewEntry(t.files, plan, n, next[j]);
          PlannedOnce(t.files, plan, next, j);
        }
      }
      ParentsKept(t.files, t.albums, next);
    } else {
      var f :| f in plan.files && BackupCas.Planned(plan, f.id, n) == Some(f) && f.parentId != ""
        && Listed(t.albums, f.id);
      var i := PlannedIsIn(t.files, plan, next, f);
      NotFree(next, t.albums, i);
    }
  }

  lemma PlannedOnce(files: seq<File>, plan: BackupCas.Plan, next: seq<File>, j: int)
    requires UniqueIds(next) && BackupCas.Effect(files, plan, |plan.files|, next) && |files| <= j < |next|
    ensures next[j] in plan.files && BackupCas.Planned(plan, next[j].id, |plan.files|) == Some(next[j])
  {
    hide BackupCas.Publishable, BackupCas.SlotAfter;
    var n := |plan.files|;
    assert BackupCas.NewEntry(files, plan, n, next[j]) && plan.files[..n] == plan.files;
    var g := BackupCas.Planned(plan, next[j].id, n).value;
    var k :| 0 <= k < n && plan.files[k] == g;
    var x :| 0 <= x < |next| && next[x] == g;
    UniqueIdsFind(next, x, j);
  }

  lemma PlannedIsIn(files: seq<File>, plan: BackupCas.Plan, next: seq<File>, f: File) returns (i: int)
    requires BackupCas.Effect(files, plan, |plan.files|, next) && f in plan.files
    requires BackupCas.Planned(plan, f.id, |plan.files|) == Some(f)
    ensures 0 <= i < |next| && next[i] == f
  {
    hide BackupCas.Publishable, BackupCas.NewEntry;
    var k :| 0 <= k < |plan.files| && plan.files[k] == f;
    if HasId(files, f.id) {
      i :| 0 <= i < |files| && files[i].id == f.id;
      assert BackupCas.SlotAfter(files[i], plan, |plan.files|, next[i]);
    } else {
      i :| 0 <= i < |next| && next[i] == f;
    }
  }

  predicate InPlace(m: Mutation) {
    m.Rename? || m.Delete? || m.Restore? || m.UpdateMetadata? || m.SwitchReference?
  }

  lemma SlotParents(t: Tree, m: Mutation, next: seq<File>)
    requires UniqueIds(t.files) && InPlace(m) && Issued(t, m) && EntriesAfter(t, m) == Ok(next)
    ensures forall j :: 0 <= j < |next| ==> Kin(t.files, t.albums, next[j])
  {
    hide Kin, UniqueIds, Edits.ApplyUpdates, Trash.Selection, Trash.RestoreBlocks, Moves.Hit, Moves.RenameBlocks;
    hide Edits.SwitchReference, Edits.UpdatedSlot;
    if m.UpdateMetadata? {
      Edits.BatchEvolves(t.files, m.updates);
      forall i | 0 <= i < |t.files| ensures next[i].id == t.files[i].id && next[i].parentId == t.files[i].parentId {
        Edits.SlotId(t.files[i], next[i], m.updates, |m.updates|);
      }
    } else if m.SwitchReference? {
      Edits.SwitchEvolves(t.files, m.entry, m.revision, m.previous, m.next);
    }
    SlotsKin(t.files, t.albums, next);
  }

  lemma EntriesFree(t: Tree, m: Mutation, next: seq<File>)
    requires UniqueIds(t.files) && OnEntries(m) && Issued(t, m) && EntriesAfter(t, m) == Ok(next)
    requires MotionFree(t.files, t.albums)
    ensures MotionFree(next, t.albums) <==> Clear(t, m)
  {
    hide MotionFree, UniqueIds, Edits.Put, CopyTree.Copy, BackupCas.Publish, PutClear, PublishClear, Trash.Kept;
    if InPlace(m) {
      hide EntriesAfter, Issued, Kin;
      SlotParents(t, m, next);
      ParentsKept(t.files, t.albums, next);
    } else if m.Put? {
      if Edits.Put(t.files, m.file, m.id, m.now).value.Some? {
        PutFree(t, m.file, m.id, m.now);
      } else {
        NoPutClear(t, m.file, m.id, m.now);
      }
    } else if m.PublishBackup? {
      PublishFree(t, m.plan);
    } else if m.CopyWith? {
      hide Kin;
      CopiesKin(t, m.from, m.to, m.ids, m.grants, next);
      ParentsKept(t.files, t.albums, next);
    } else {
      forall j | 0 <= j < |next| ensures Kin(t.files, t.albums, next[j]) {
        if m.PurgeTrash? {
          assert next[j] in t.files;
        } else {
          assert j < |t.files| ==> next[j] == t.files[j];
        }
      }
      ParentsKept(t.files, t.albums, next);
    }
  }

  lemma NoPutClear(t: Tree, f: File, id: string, now: int)
    requires Edits.Put(t.files, f, id, now) == Ok(None)
    ensures PutClear(t, f, id, now)
  {
  }

  lemma CopiesKin(t: Tree, from: string, to: string, ids: seq<string>, grants: seq<CopyTree.Grant>, next: seq<File>)
    requires Issued(t, CopyWith(from, to, ids, grants)) && CopyTree.Copy(t.files, from, to, ids, grants) == Ok(next)
    ensures forall j :: 0 <= j < |next| ==> Kin(t.files, t.albums, next[j])
  {
    hide CopyTree.IdMap, CopyTree.CopyBlocked, CopyTree.RelinkedParts;
    forall j | 0 <= j < |next| ensures Kin(t.files, t.albums, next[j]) {
      if j < |t.files| {
        assert next[j] == t.files[j];
      } else {
        assert next[j].id == ids[j - |t.files|];
      }
    }
  }

  lemma LastClear(t: Tree, commits: seq<Commit>)
    requires commits != []
    ensures var last := |commits| - 1;
            BatchClear(t, commits) <==>
              BatchClear(t, commits[..last]) && CommitClear(IngestEach(t, commits[..last]).tree, commits[last])
  {
    hide IngestEach, CommitClear;
    var last := |commits| - 1;
    assert forall n :: 0 <= n < last ==> commits[..last][..n] == commits[..n];
  }

  lemma {:induction false} BatchFree(t: Tree, commits: seq<Commit>)
    requires Tidy(t)
    ensures MotionFree(IngestEach(t, commits).tree.files, IngestEach(t, commits).tree.albums)
            <==> MotionFree(t.files, t.albums) && BatchClear(t, commits)
  {
    hide Ingest, SaneTables, MotionFree, CommitClear;
    if commits != [] {
      var last := |commits| - 1;
      BatchFree(t, commits[..last]);
      BatchStep(t, commits[..last]);
      CommitFree(IngestEach(t, commits[..last]).tree, commits[last]);
      LastClear(t, commits);
    }
  }

  lemma CommitFree(t: Tree, commit: Commit)
    requires Tidy(t)
    ensures var r := Ingest(t, commit);
            var u := if r.Ok? && r.value.next.Some? then r.value.next.value else t;
            MotionFree(u.files, u.albums) <==> MotionFree(t.files, t.albums) && CommitClear(t, commit)
  {
    hide Ingest, SaneTables, MotionFree, LinkClear;
    var r := Ingest(t, commit);
    if r.Ok? && r.value.next.Some? {
      IngestMotionFree(t, commit);
    }
  }

  lemma ClearBefore(t: Tree, files: seq<File>, ids: seq<string>, now: int)
    requires |ids| == |files| > 0 && PutsClear(t, files, ids, now)
    ensures var n := |files| - 1;
            && PutsClear(t, files[..n], ids[..n], now)
            && PutClear(PutEach(t, files[..n], ids[..n], now).tree, files[n], ids[n], now)
  {
    hide PutClear, PutEach;
    var n := |files| - 1;
    assert forall k :: 0 <= k < n ==> files[..n][..k] == files[..k] && ids[..n][..k] == ids[..k];
  }

  lemma PutTurn(s: Shadow, f: File, id: string, now: int)
    requires UniqueIds(s.tree.files) && Edits.FreshId(s.tree.files, id) && MotionFree(s.tree.files, s.tree.albums)
    requires PutClear(s.tree, f, id, now)
    ensures MotionFree(AfterPut(s, f, id, now).tree.files, s.tree.albums)
  {
    hide Edits.Put, MotionFree, PutClear, UniqueIds, Edits.Occupant;
    if Edits.Put(s.tree.files, f, id, now).Ok? && Edits.Put(s.tree.files, f, id, now).value.Some? {
      PutFree(s.tree, f, id, now);
    }
  }

  lemma {:induction false} PutsFree(t: Tree, files: seq<File>, ids: seq<string>, now: int)
    requires WellFormed(t) && Named(t.files) && |ids| == |files| && FreshBatch(t.files, files, ids)
    requires MotionFree(t.files, t.albums) && PutsClear(t, files, ids, now)
    ensures MotionFree(PutEach(t, files, ids, now).tree.files, t.albums)
  {
    hide WellFormed, Named, MotionFree, PutClear, PutsClear, Savable, AfterPut, FreshBatch;
    if files != [] {
      var n := |files| - 1;
      ClearBefore(t, files, ids, now);
      FreshPrefix(t.files, files, ids);
      PutsFree(t, files[..n], ids[..n], now);
      PutEachTables(t, files[..n], ids[..n], now);
      PutEachSavable(t, files[..n], ids[..n], now);
      var s := PutEach(t, files[..n], ids[..n], now);
      SavableIds(t, s.tree);
      IdStillFresh(t.files, s.tree.files, files, ids);
      PutTurn(s, files[n], ids[n], now);
    }
  }

  lemma SavableIds(t: Tree, u: Tree)
    requires Savable(t, u)
    ensures UniqueIds(u.files)
  {
  }

  /** Whether a mutation leaves albums free of linked motions is decided before
      it: by the entries a put or a plan writes, and for a committed photo by
      whether its motion is in an album. Every other mutation keeps them free. */
  lemma StepFree(t: Tree, m: Mutation, u: Tree)
    requires Tidy(t) && Step(t, m, u) && MotionFree(t.files, t.albums)
    ensures Clear(t, m) ==> MotionFree(u.files, u.albums)
    ensures MotionFree(u.files, u.albums) && !m.PutComponents? ==> Clear(t, m)
  {
    if OnEntries(m) {
      hide EntriesAfter, MotionFree, UniqueIds, SaneTables, Issued, Clear;
      EntriesFree(t, m, u.files);
    } else if OnTables(m) {
      hide Tidy, MotionFree, TablesAfter, Issued;
      TablesKept(t, m, u);
    } else if m.SetPair? {
      hide Tidy, Step, MotionFree;
      PairStep(t, m, u);
    } else {
      hide MotionFree, Ingest, IngestEach, PutEach, FreshBatch, CommitClear, PutClear, PutsClear, WellFormed;
      hide SaneTables, Named;
      if m.CommitIngest? {
        CommitFree(t, m.commit);
      } else if m.CommitBatch? {
        BatchFree(t, m.commits);
      } else {
        PutEachTables(t, m.parts, m.ids, m.now);
        if Clear(t, m) {
          PutsFree(t, m.parts, m.ids, m.now);
        }
      }
    }
  }

  /** No reachable tree lists a linked motion, as long as every step was clear. */
  lemma {:induction false} EveryTreeFree(ts: seq<Tree>, ms: seq<Mutation>, i: nat)
    requires IsRun(ts, ms) && Tidy(ts[0]) && MotionFree(ts[0].files, ts[0].albums) && i < |ts|
    requires forall k :: 0 <= k < |ms| ==> Step(ts[k], ms[k], ts[k + 1]) && Clear(ts[k], ms[k])
    ensures MotionFree(ts[i].files, ts[i].albums)
  {
    hide Tidy, Step, MotionFree, Clear;
    if i > 0 {
      EveryTreeFree(ts, ms, i - 1);
      EveryTreeTidy(ts, ms, i - 1);
      StepFree(ts[i - 1], ms[i - 1], ts[i]);
    }
  }

  // ---------------------------------------- a reachable tree that lists a motion

  function Uploaded(id: string, path: string): File {
    File(id, 1, path, false, true, None, false, 0, 0, 1, "", "", "", None, "", [Component("original", id, "")], [],
         "phone", "asset", "1", false, NO_DETAILS)
  }

  const STILL := Uploaded("s", "Photos/a")
  const MOTION := Uploaded("m", "Photos/b")
  const LISTING := AlbumInput("", 0, "t", "", "", 0, "", false, Some(["m"]))
  const LISTED := Tree([STILL, MOTION], [Album("pa_1", 1, "t", "", "", 0, "", ["m"])], [], map[], map[])
  const PAIRING := Commit("", "", 0, "phone", "asset", "1", false, false,
                          [Part("original", "x", "Photos/a", "", "", 0), Part("motion", "y", "Photos/b", "", "", 0)],
                              [], None)

  lemma {:induction false} WordRead(word: string, rest: string, read: string)
    requires '/' !in word
    ensures ElementsFrom(word + rest, read) == ElementsFrom(rest, read + word)
  {
    if word == "" {
      assert word + rest == rest && read + word == read;
    } else {
      WordRead(word[1..], rest, read + [word[0]]);
      assert (word + rest)[1..] == word[1..] + rest && read + [word[0]] + word[1..] == read + word;
    }
  }

  lemma CleanTarget(name: string)
    requires name == "a" || name == "b"
    ensures IsClean("Photos/" + name)
  {
    var p := "Photos/" + name;
    assert p == "Photos" + ("/" + name);
    WordRead("Photos", "/" + name, "");
    WordRead(name, "", "");
    assert ("/" + name)[1..] == name && name + "" == name && "" + name == name && "" + "Photos" == "Photos";
    assert Elements(p) == ["Photos"] + [name];
    assert [name][1..] == [] && PlainElements([name], false);
    assert ["Photos", name][1..] == [name] && "Photos"[0] != '.';
  }

  lemma CleanSource(name: string)
    requires name == "x" || name == "y"
    ensures IsClean(name)
  {
    WordRead(name, "", "");
    assert name + "" == name && "" + name == name && [name][1..] == [];
  }

  lemma GoodParts()
    ensures GoodPart(PAIRING.parts[0], 0) && GoodPart(PAIRING.parts[1], 1)
  {
    hide IsClean;
    CleanTarget("a");
    CleanTarget("b");
    CleanSource("x");
    CleanSource("y");
    assert "Photos/" + "a" == "Photos/a" && "Photos/" + "b" == "Photos/b";
  }

  lemma {:induction false} FindsAt(files: seq<File>, i: int)
    requires 0 <= i < |files| == 2 && forall k :: 0 <= k < 2 ==>
      files[k].present && !files[k].folder && files[k].path == PAIRING.parts[k].to && SameUpload(files[k], PAIRING)
    ensures FindPart(files, PAIRING.parts[i], PAIRING, 2) == Ok(i)
  {
    var part := PAIRING.parts[i];
    assert PAIRING.parts[0].to[7] != PAIRING.parts[1].to[7];
    assert forall k :: 0 <= k < 2 ==> |files[k].path| == 8 && |part.from| == 1;
    assert forall k :: 0 <= k < 2 ==> !Below(part.to, files[k].path);
    assert FindPart(files, part, PAIRING, 0) == Ok(-1);
    assert FindPart(files, part, PAIRING, 1) == Ok(if i == 0 then 0 else -1);
  }

  function Still(): File {
    Landed(STILL, PAIRING.parts[0], PAIRING)
  }

  lemma StillLands()
    ensures Land([STILL, MOTION], PAIRING, 1) == Ok(Landing([Still(), MOTION], [0], true))
  {
    hide GoodPart, Landed;
    GoodParts();
    FindsAt([STILL, MOTION], 0);
    assert Land([STILL, MOTION], PAIRING, 0) == Ok(Landing([STILL, MOTION], [], true));
    assert [STILL, MOTION][0 := Still()] == [Still(), MOTION] && [] + [0] == [0];
    assert !Repeats(PAIRING.parts, 0);
  }

  lemma MotionLands()
    ensures Land([STILL, MOTION], PAIRING, 2).Ok? && Land([STILL, MOTION], PAIRING, 2).value.indices == [0, 1]
  {
    hide GoodPart;
    GoodParts();
    StillLands();
    FindsAt([Still(), MOTION], 1);
    assert PAIRING.parts[0].to[7] != PAIRING.parts[1].to[7] && PAIRING.parts[0].from[0] != PAIRING.parts[1].from[0];
    assert PAIRING.parts[0].id[0] != PAIRING.parts[1].id[0];
  }

  lemma PutAnew(files: seq<File>, f: File, id: string, now: int)
    requires f.present && !f.folder && !f.hidden && f.id != "" && f.revision == 1 && f.importedAt == 1
    requires f.reference == None && f.snap == ""
    requires forall x :: x in files ==> x.id != f.id && |x.path| == |f.path| && x.path != f.path
    ensures Edits.Put(files, f, id, now) == Ok(Some(files + [f]))
  {
    assert forall i :: 0 <= i < |files| ==> files[i] in files && !Below(f.path, files[i].path)
                                            && !Below(files[i].path, f.path);
  }

  lemma BothPut()
    ensures Step(EMPTY, Put(STILL, "x", 1), EMPTY.(files := [STILL]))
    ensures Step(EMPTY.(files := [STILL]), Put(MOTION, "x", 1), EMPTY.(files := [STILL, MOTION]))
  {
    hide Edits.Put;
    assert STILL.path[7] != MOTION.path[7] && STILL.id[0] != MOTION.id[0];
    PutAnew([], STILL, "x", 1);
    PutAnew([STILL], MOTION, "x", 1);
    assert [] + [STILL] == [STILL] && [STILL] + [MOTION] == [STILL, MOTION];
    assert STILL.id[0] != "x"[0];
  }

  lemma AlbumSaved()
    ensures Step(EMPTY.(files := [STILL, MOTION]), SaveAlbum(LISTING, "pa_1"), LISTED)
  {
    assert Trim("t") == "t" && Trim("") == "";
    assert MayJoin([STILL, MOTION], "m") by {
      assert AlbumMember([STILL, MOTION][1]);
    }
    assert [] + LISTED.albums == LISTED.albums;
  }

  lemma MotionListed()
    ensures Ingest(LISTED, PAIRING).Ok? && Ingest(LISTED, PAIRING).value.next.Some?
    ensures !CommitClear(LISTED, PAIRING)
  {
    hide Land;
    MotionLands();
    assert LISTED.files[1].id in LISTED.albums[0].assets;
    assert |LISTED.files[0].components| == 1;
  }

  /** Two photos are stored, one is put into an album, and then they are
      committed as still and motion: the album lists a linked motion. */
  lemma AlbumCanListMotion() returns (ts: seq<Tree>, ms: seq<Mutation>)
    ensures IsRun(ts, ms) && ts[0] == EMPTY
    ensures !MotionFree(ts[|ts| - 1].files, ts[|ts| - 1].albums)
  {
    hide Step, MotionFree, CommitClear, Ingest, Tidy;
    BothPut();
    AlbumSaved();
    MotionListed();
    var u := Ingest(LISTED, PAIRING).value.next.value;
    var one, two := EMPTY.(files := [STILL]), EMPTY.(files := [STILL, MOTION]);
    ts := [EMPTY, one, two, LISTED, u];
    ms := [Put(STILL, "x", 1), Put(MOTION, "x", 1), SaveAlbum(LISTING, "pa_1"), CommitIngest(PAIRING)];
    PairingStep();
    EmptyTidy();
    EveryTreeTidy(ts, ms, 3);
    CommitFree(LISTED, PAIRING);
  }

  lemma PairingStep()
    requires Ingest(LISTED, PAIRING).Ok? && Ingest(LISTED, PAIRING).value.next.Some?
    ensures Step(LISTED, CommitIngest(PAIRING), Ingest(LISTED, PAIRING).value.next.value)
  {
    hide Ingest;
  }
}
