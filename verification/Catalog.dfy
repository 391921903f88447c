/** The catalog object: current tree, the copies of what was last saved, the
    journal and the indexes, all replaced together by one atomic write. */
module Catalogs {
  import opened Prelude
  import opened Entries
  import opened Journals
  import opened Sync
  import opened JournalWriter
  import Indexes
  import Moves
  import Trash
  import CopyTree
  import Edits
  import BackupCas

  /** What the outside world answers to one save. */
  datatype Disk = Disk(writes: bool, epoch: string)

  /** A catalog at rest. */
  datatype State = State(tree: Tree, journal: Journal, version: nat)

  ghost predicate Named(files: seq<File>) {
    forall f :: f in files ==> f.id != ""
  }

  /** One save: the tree is replaced, the journal says exactly how. */
  ghost predicate Commits(before: State, t: Tree, after: State) {
    && after.tree == t && after.version == before.version + 1
    && MayFollow(before.tree, t)
    && Saved(before.journal, before.tree, after.journal, t)
    && Truthful(Added(before.journal, after.journal), before.tree.files, t.files)
  }

  /** A mutation either fails with nothing changed, or commits the tree its
      specification computes. */
  ghost predicate Transacts(before: State, spec: Result<Tree>, writes: bool, after: State, err: Option<Error>) {
    match spec
    case Err(e) => after == before && err == Some(e)
    case Ok(t) =>
      if err.None? then writes && Commits(before, t, after)
      else after == before && SaveRefused(before, t, writes, err.value)
  }

  /** A save fails only if the write does, or the sequence number runs out. */
  ghost predicate SaveRefused(before: State, t: Tree, writes: bool, e: Error) {
    || (e == SaveFailed && !writes)
    || (e == RevisionOverflow && before.journal.sequence + Rows(before.tree) + Rows(t) > MAX_UINT64)
  }

  /** What is on disk: a well-formed tree with a bounded, chained journal. */
  ghost predicate Sound(saved: Tree, journal: Journal) {
    WellFormed(saved) && Named(saved.files) && Journals.Valid(journal) && |journal.records| <= CHANGE_RETENTION
  }

  lemma SoundAfter(j: Journal, t: Tree, j2: Journal, t2: Tree)
    requires Journalled(j, t, j2, t2) && MayFollow(t, t2) && Named(t2.files)
    ensures Sound(t2, j2)
  {
  }

  lemma CommitsBy(before: State, t: Tree, after: State, writes: bool)
    requires after.tree == t && after.version == before.version + 1 && MayFollow(before.tree, t) && writes
    requires Journalled(before.journal, before.tree, after.journal, t)
    ensures Transacts(before, Ok(t), writes, after, None)
  {
    hide MayFollow, Saved, Truthful;
  }

  lemma RefusesBy(before: State, t: Tree, writes: bool, e: Error)
    requires SaveRefused(before, t, writes, e)
    ensures Transacts(before, Ok(t), writes, before, Some(e))
  {
  }

  /** The journal grew by exactly what the save changed. */
  ghost predicate Journalled(j: Journal, t: Tree, j2: Journal, t2: Tree) {
    && Journals.Valid(j2) && |j2.records| <= CHANGE_RETENTION
    && Saved(j, t, j2, t2) && Truthful(Added(j, j2), t.files, t2.files)
  }

  lemma JournalledBy(j: Journal, t: Tree, j2: Journal, t2: Tree)
    requires Saved(j, t, j2, t2) && Truthful(Added(j, j2), t.files, t2.files) && |j2.records| <= CHANGE_RETENTION
    ensures Journalled(j, t, j2, t2)
  {
    hide Truthful;
    SavedValid(j, t, j2, t2);
  }

  lemma RefusedFull(before: State, t: Tree, writes: bool)
    requires before.journal.sequence + Rows(before.tree) + Rows(t) > MAX_UINT64
    ensures SaveRefused(before, t, writes, RevisionOverflow)
  {
  }

  lemma RefusedWrite(before: State, t: Tree)
    ensures SaveRefused(before, t, false, SaveFailed)
  {
  }

  /** The sequence number is so high that a save of a few more rows could run out. */
  ghost predicate Full(s: State) {
    s.journal.sequence + 2 * Rows(s.tree) + 4 > MAX_UINT64
  }

  lemma FullStays(before: State, t: Tree, writes: bool, after: State)
    requires Transacts(before, Ok(t), writes, after, None) && Rows(before.tree) <= Rows(t)
    ensures Full(before) ==> Full(after)
  {
    hide MayFollow, Truthful;
  }

  lemma RefusedWhenFull(before: State, t: Tree, after: State, e: Error)
    requires Transacts(before, Ok(t), true, after, Some(e)) && Rows(t) <= Rows(before.tree) + 4
    ensures Full(before)
  {
  }

  function OnFiles(t: Tree, files: Result<seq<File>>): Result<Tree> {
    match files
    case Err(e) => Err(e)
    case Ok(next) => Ok(t.(files := next))
  }

  class Catalog {
    var files: seq<File>
    var albums: seq<Album>
    var folders: seq<Folder>
    var sources: map<string, Mapping>
    var operations: map<string, Receipt>
    var savedAlbums: seq<Album>
    var savedFolders: seq<Folder>
    var savedSources: map<string, Mapping>
    var savedOperations: map<string, Receipt>
    var journal: Journal
    var byPath: Indexes.PathIndex
    var children: Indexes.ChildIndex
    var version: nat

    function View(): Tree
      reads this
    {
      Tree(files, albums, folders, sources, operations)
    }

    function Current(): State
      reads this
    {
      State(View(), journal, version)
    }

    /** What the last save wrote. */
    function LastSaved(): Tree
      reads `files, `savedAlbums, `savedFolders, `savedSources, `savedOperations
    {
      Tree(files, savedAlbums, savedFolders, savedSources, savedOperations)
    }

    ghost predicate Indexed(rows: seq<File>)
      reads `byPath, `children
    {
      Indexes.PathsAgree(rows, byPath) && Indexes.ChildrenAgree(rows, children)
    }

    ghost predicate Consistent()
      reads this
    {
      Sound(LastSaved(), journal) && Indexed(files)
    }

    ghost predicate Valid()
      reads this
    {
      Consistent() && LastSaved() == View()
    }

    constructor ()
      ensures Valid() && Current() == State(Tree([], [], [], map[], map[]), EMPTY_JOURNAL, 0)
    {
      files, albums, folders, sources, operations := [], [], [], map[], map[];
      savedAlbums, savedFolders, savedSources, savedOperations := [], [], map[], map[];
      journal, byPath, children, version := EMPTY_JOURNAL, map[], map[], 0;
    }

    /** The save up to its atomic write: the grown journal, or why there is none. */
    method Prepare(next: seq<File>, disk: Disk) returns (r: Result<Journal>)
      requires Consistent() && Named(next) && MayFollow(LastSaved(), View().(files := next))
      ensures r.Err? ==> SaveRefused(State(LastSaved(), journal, version), View().(files := next), disk.writes, r.error)
      ensures r.Ok? ==> disk.writes && Journalled(journal, LastSaved(), r.value, View().(files := next))
    {
      hide Saved, Truthful, WellFormed, MayFollow, Indexed, Journals.Valid, Added, Rows, SaveRefused, Journalled;
      r := NextJournal(journal, LastSaved(), View().(files := next), disk.epoch);
      if r.Err? {
        RefusedFull(State(LastSaved(), journal, version), View().(files := next), disk.writes);
      } else if !disk.writes {
        RefusedWrite(State(LastSaved(), journal, version), View().(files := next));
        r := Err(SaveFailed);
      } else {
        JournalledBy(journal, LastSaved(), r.value, View().(files := next));
      }
    }

    /** saveFilesLocked: journal, then one atomic write, then everything in
        memory. The caller assigns the entries. */
    method SaveFiles(next: seq<File>, disk: Disk) returns (err: Option<Error>)
      requires Consistent() && Named(next) && MayFollow(LastSaved(), View().(files := next))
      modifies this`journal, this`savedAlbums, this`savedFolders, this`savedSources, this`savedOperations,
               this`byPath, this`children, this`version
      ensures err.Some? ==> unchanged(this)
                            && SaveRefused(State(LastSaved(), journal, version), View().(files := next), disk.writes,
                                           err.value)
      ensures err.None? ==> disk.writes
      ensures err.None? ==> LastSaved() == View() && version == old(version) + 1 && Indexed(next)
      ensures err.None? ==> Journalled(old(journal), old(LastSaved()), journal, View().(files := next))
    {
      hide Consistent, MayFollow, SaveRefused, Journalled, Indexes.PathsAgree, Indexes.ChildrenAgree;
      var grown := Prepare(next, disk);
      if grown.Err? {
        return Some(grown.error);
      }
      journal := grown.value;
      savedAlbums, savedFolders, savedSources, savedOperations := albums, folders, sources, operations;
      byPath := Indexes.IndexPaths(next);
      children := Indexes.IndexChildren(next);
      version := version + 1;
      err := None;
    }

    method SetTables(t: Tree)
      modifies `albums, `folders, `sources, `operations
      ensures View() == t.(files := files) && Consistent() == old(Consistent())
    {
      hide Sound, Indexed;
      albums, folders, sources, operations := t.albums, t.folders, t.sources, t.operations;
    }

    lemma InOrder()
      requires Sound(LastSaved(), journal) && Indexed(files)
      ensures Consistent()
    {
    }

    /** Sets the candidate tables, saves, and puts them back if that fails. */
    method Commit(t: Tree, disk: Disk) returns (err: Option<Error>)
      requires Valid() && MayFollow(View(), t) && Named(t.files)
      modifies this
      ensures Valid() && Transacts(old(Current()), Ok(t), disk.writes, Current(), err)
    {
      hide Consistent, Indexed, MayFollow, Named, SaveRefused, Journalled, Sound, Transacts;
      ghost var start := Current();
      var before := View();
      SetTables(t);
      assert View().(files := t.files) == t && LastSaved() == before;
      err := SaveFiles(t.files, disk);
      if err.Some? {
        SetTables(before);
        assert View() == before && LastSaved() == before;
        RefusesBy(start, t, disk.writes, err.value);
      } else {
        files := t.files;
        assert View() == t && LastSaved() == t;
        SoundAfter(start.journal, before, journal, t);
        InOrder();
        CommitsBy(start, t, Current(), disk.writes);
      }
    }

    /** Commits new entries beside unchanged tables. */
    method CommitFiles(next: seq<File>, disk: Disk) returns (err: Option<Error>)
      requires Valid() && UniqueIds(next) && Evolves(files, next) && Named(next)
      modifies this
      ensures Valid() && Transacts(old(Current()), Ok(old(View()).(files := next)), disk.writes, Current(), err)
    {
      hide UniqueIds, Evolves, Transacts;
      err := Commit(View().(files := next), disk);
    }

    method Mkdir(path: string, id: string, now: int, disk: Disk) returns (err: Option<Error>)
      requires Valid() && Edits.FreshId(files, id)
      modifies this
      ensures Valid()
      ensures Transacts(old(Current()), OnFiles(old(View()), Edits.Mkdir(old(files), path, id, now)), disk.writes,
                        Current(), err)
    {
      hide Valid, Consistent, Evolves, Commits;
      var next := Edits.MakeFolder(files, path, id, now);
      if next.Err? {
        return Some(next.error);
      }
      ValidFiles();
      Joined(files, next.value[|files|]);
      err := CommitFiles(next.value, disk);
    }

    method Rename(from: string, to: string, disk: Disk) returns (err: Option<Error>)
      requires Valid()
      modifies this
      ensures Valid()
      ensures from == to ==> unchanged(this) && err.None?
      ensures from != to ==> Transacts(old(Current()), OnFiles(old(View()), Moves.Rename(old(files), from, to)),
                                       disk.writes, Current(), err)
    {
      hide Valid, Consistent, Evolves, Commits;
      if from == to {
        return None;
      }
      var next := Moves.RenameFiles(files, from, to);
      if next.Err? {
        return Some(next.error);
      }
      ValidFiles();
      Moves.RenameEvolves(files, from, to);
      err := CommitFiles(next.value, disk);
    }

    method Put(f: File, id: string, now: int, disk: Disk) returns (err: Option<Error>)
      requires Valid() && Edits.FreshId(files, id)
      modifies this
      ensures Valid()
      ensures match Edits.Put(old(files), f, id, now)
              case Ok(None) => unchanged(this) && err.None?
              case Ok(Some(next)) => Transacts(old(Current()), Ok(old(View()).(files := next)), disk.writes,
                                               Current(), err)
              case Err(e) => Transacts(old(Current()), Err(e), disk.writes, Current(), err)
    {
      hide Valid, Consistent, Evolves, Commits;
      var next := Edits.PutFile(files, f, id, now);
      if next.Err? {
        return Some(next.error);
      }
      if next.value.None? {
        return None;
      }
      ValidFiles();
      Edits.PutEvolves(files, f, id, now);
      PutNamed(files, f, id, now);
      err := CommitFiles(next.value.value, disk);
    }

    method SwitchReference(id: string, revision: uint64, previous: Reference, next: Reference, disk: Disk)
      returns (err: Option<Error>)
      requires Valid()
      modifies this
      ensures Valid()
      ensures Transacts(old(Current()), OnFiles(old(View()),
                                                Edits.SwitchReference(old(files), id, revision, previous, next)),
                                                    disk.writes, Current(), err)
    {
      hide Valid, Consistent, Evolves, Commits;
      var switched := Edits.SwitchReference(files, id, revision, previous, next);
      if switched.Err? {
        return Some(switched.error);
      }
      ValidFiles();
      Edits.SwitchEvolves(files, id, revision, previous, next);
      SlotsNamed(files, switched.value);
      err := CommitFiles(switched.value, disk);
    }

    method CopyWith(from: string, to: string, ids: seq<string>, grants: seq<CopyTree.Grant>, disk: Disk)
      returns (err: Option<Error>)
      requires Valid() && |ids| >= |files| && |grants| >= |files| && CopyTree.FreshIds(files, ids)
      modifies this
      ensures Valid()
      ensures Transacts(old(Current()), OnFiles(old(View()), CopyTree.Copy(old(files), from, to, ids, grants)),
                        disk.writes, Current(), err)
    {
      hide Valid, Consistent, Evolves, Commits;
      var next := CopyTree.CopyFiles(files, from, to, ids, grants);
      if next.Err? {
        return Some(next.error);
      }
      ValidFiles();
      CopyTree.CopyEvolves(files, from, to, ids, grants);
      CopyNamed(files, from, to, ids, grants);
      err := CommitFiles(next.value, disk);
    }

    /** Deleting nothing is not a save. */
    method Delete(path: string, now: int, disk: Disk) returns (err: Option<Error>)
      requires Valid()
      modifies this
      ensures Valid()
      ensures var next := Trash.Delete(old(files), path, now);
              (next == Ok(old(files)) && unchanged(this) && err.None?)
              || Transacts(old(Current()), OnFiles(old(View()), next), disk.writes, Current(), err)
    {
      hide Valid, Consistent, Evolves, Commits, UniqueIds;
      ValidFiles();
      var next, changed := Trash.DeleteFiles(files, path, now);
      if next.Err? {
        return Some(next.error);
      }
      if !changed {
        return None;
      }
      Trash.DeleteEvolves(files, path, now);
      DeleteNamed(files, path, now);
      err := CommitFiles(next.value, disk);
    }

    method Restore(path: string, disk: Disk) returns (err: Option<Error>)
      requires Valid()
      modifies this
      ensures Valid()
      ensures Transacts(old(Current()), OnFiles(old(View()), Trash.Restore(old(files), path)), disk.writes, Current(),
                        err)
    {
      hide Valid, Consistent, Evolves, Commits, UniqueIds;
      ValidFiles();
      var next := Trash.RestoreFiles(files, path);
      if next.Err? {
        return Some(next.error);
      }
      Trash.RestoreEvolves(files, path);
      RestoreNamed(files, path);
      err := CommitFiles(next.value, disk);
    }

    method PurgeTrash(before: int, disk: Disk) returns (removed: seq<File>, err: Option<Error>)
      requires Valid()
      modifies this
      ensures Valid()
      ensures Trash.Gone(old(files), before) == [] ==> unchanged(this) && err.None? && removed == []
      ensures Trash.Gone(old(files), before) != [] ==>
                Transacts(old(Current()), Ok(old(View()).(files := Trash.Kept(old(files), before))), disk.writes,
                          Current(), err)
                && removed == if err.None? then Trash.Gone(old(files), before) else []
    {
      hide Valid, Consistent, Evolves, Commits, UniqueIds;
      var kept;
      kept, removed := Trash.PurgeFiles(files, before);
      if removed == [] {
        return [], None;
      }
      ValidFiles();
      Trash.KeptEvolves(files, before);
      err := CommitFiles(kept, disk);
      if err.Some? {
        removed := [];
      }
    }

    method PublishBackup(plan: BackupCas.Plan, disk: Disk) returns (err: Option<Error>)
      requires Valid()
      modifies this
      ensures Valid()
      ensures Transacts(old(Current()), OnFiles(old(View()), BackupCas.Publish(old(files), plan)), disk.writes,
                        Current(), err)
    {
      hide Valid, Consistent, Evolves, Commits, UniqueIds;
      var next := BackupCas.PublishFiles(files, plan);
      if next.Err? {
        return Some(next.error);
      }
      ValidFiles();
      BackupCas.PublishKeepsTree(files, plan);
      PublishNamed(files, plan);
      err := CommitFiles(next.value, disk);
    }

    /** Nothing changed is not a save; a failed save reports no results. */
    method UpdateMetadata(updates: seq<Edits.Update>, disk: Disk) returns (r: Result<Edits.Batch>)
      requires Valid()
      modifies this
      ensures Valid()
      ensures |updates| > 100 ==> r == Err(Invalid) && unchanged(this)
      ensures |updates| <= 100 ==>
                match Edits.ApplyUpdates(old(files), updates, |updates|)
                case Err(e) => r == Err(e) && unchanged(this)
                case Ok(b) =>
                  if b.changed == [] then r == Ok(b) && unchanged(this)
                  else Transacts(old(Current()), Ok(old(View()).(files := b.next)), disk.writes, Current(), if r.Ok?
                                 then None else Some(r.error))
                       && (r.Ok? ==> r == Ok(b))
    {
      hide Valid, Consistent, Evolves, Commits, UniqueIds;
      if |updates| > 100 {
        return Err(Invalid);
      }
      r := Edits.UpdateMetadata(files, updates);
      if r.Err? || r.value.changed == [] {
        return;
      }
      ValidFiles();
      Edits.BatchEvolves(files, updates);
      BatchNamed(files, updates);
      var err := CommitFiles(r.value.next, disk);
      if err.Some? {
        r := Err(err.value);
      }
    }

    lemma ValidFiles()
      requires Valid()
      ensures UniqueIds(files) && Named(files) && Journals.Valid(journal)
    {
    }

    // ------------------------------------------------------------ the journal

    /** The first position of a catalog that was never saved costs one save. */
    method SyncPosition(disk: Disk) returns (r: Result<Position>)
      requires Valid()
      modifies this
      ensures Valid()
      ensures old(journal).epoch != "" ==> unchanged(this) && r == Ok(PositionOf(journal))
      ensures old(journal).epoch == "" ==>
                Transacts(old(Current()), Ok(old(View())), disk.writes, Current(), if r.Ok? then None
                          else Some(r.error))
                && (r.Ok? ==> r == Ok(PositionOf(journal)))
    {
      hide Evolves, Commits;
      if journal.epoch == "" {
        SameEvolves(files);
        var err := CommitFiles(files, disk);
        if err.Some? {
          return Err(err.value);
        }
      }
      r := Ok(PositionOf(journal));
    }

    /** validateSyncLocked */
    method ValidateSync(position: Position) returns (err: Option<Error>)
      ensures err == if Accepts(journal, position) then None else Some(SyncExpired)
    {
      if position.epoch != journal.epoch || position.sequence > journal.sequence {
        return Some(SyncExpired);
      }
      if position.sequence == journal.sequence && position.hash == journal.hash {
        return None;
      }
      if position.sequence == 0 && position.hash == Unhashed
        && (|journal.records| == 0 || journal.records[0].change.sequence == 1) {
        return None;
      }
      for i := 0 to |journal.records|
        invariant forall k :: 0 <= k < i ==>
          !(journal.records[k].change.sequence == position.sequence && journal.records[k].hash == position.hash)
      {
        if journal.records[i].change.sequence == position.sequence && journal.records[i].hash == position.hash {
          return None;
        }
      }
      err := Some(SyncExpired);
    }

    method ChangesAfter(position: Position, limit: int)
      returns (records: seq<Record>, next: Position, more: bool, err: Option<Error>)
      requires Valid()
      ensures err == if Accepts(journal, position) then None else Some(SyncExpired)
      ensures err.None? ==> IsChangePage(journal, position, limit, records, next, more)
    {
      hide Accepts;
      records, next, more := [], position, false;
      err := ValidateSync(position);
      if err.Some? {
        return;
      }
      var most := Clamp(limit);
      ghost var first := position.sequence - Dropped(journal);
      AcceptsExact(journal, position);
      assert first >= 0;
      ghost var i := 0;
      for k := 0 to |journal.records|
        invariant !more && |records| == Max(0, k - first) <= most
        invariant forall x :: 0 <= x < |records| ==> records[x] == journal.records[first + x]
        invariant next == if records == [] then position
                          else Position(position.epoch, position.sequence + |records|, records[|records| - 1].hash)
      {
        var record := journal.records[k];
        assert RetainedAt(journal, k);
        if record.change.sequence <= position.sequence {
          continue;
        }
        if |records| == most {
          more := true;
          break;
        }
        records := records + [record];
        next := next.(sequence := record.change.sequence, hash := record.hash);
      }
      PageOfRecords(journal, position, limit, records, next, more);
    }
  }

  lemma SavedValid(j: Journal, t: Tree, j2: Journal, t2: Tree)
    requires Saved(j, t, j2, t2)
    ensures Journals.Valid(j2)
  {
  }

  lemma PageOfRecords(j: Journal, p: Position, limit: int, records: seq<Record>, next: Position, more: bool)
    requires Journals.Valid(j) && OnHistory(j, p) && p.sequence >= Dropped(j)
    requires var first := p.sequence - Dropped(j);
             && |records| == Min(Clamp(limit), |j.records| - first)
             && (forall x :: 0 <= x < |records| ==> records[x] == j.records[first + x])
             && next == (if records == [] then p
                         else Position(p.epoch, p.sequence + |records|, records[|records| - 1].hash))
             && (more <==> p.sequence + |records| < j.sequence)
    ensures IsChangePage(j, p, limit, records, next, more)
  {
    hide Journals.Valid, DigestOf, History;
    var first := p.sequence - Dropped(j);
    HistoryLength(j);
    forall x | 0 <= x < |records| ensures records[x].change == History(j.hash)[p.sequence + x] {
      RetainedRecord(j, first + x);
    }
    if records != [] {
      RetainedRecord(j, first + |records| - 1);
    }
  }

  lemma HistoryLength(j: Journal)
    requires Journals.Valid(j)
    ensures |History(j.hash)| == j.sequence && Dropped(j) >= 0
  {
  }

  lemma RetainedRecord(j: Journal, k: int)
    requires Journals.Valid(j) && 0 <= k < |j.records|
    ensures var h, n := History(j.hash), Dropped(j) + k;
            0 <= n < |h| && j.records[k].change == h[n] && j.records[k].hash == DigestOf(h[..n + 1])
  {
    assert RetainedAt(j, k);
  }

  lemma SameEvolves(files: seq<File>)
    requires UniqueIds(files)
    ensures Evolves(files, files)
  {
    SlotwiseEvolves(files, files);
  }

  lemma SlotsNamed(files: seq<File>, next: seq<File>)
    requires Named(files) && |next| == |files| && forall i :: 0 <= i < |files| ==> next[i].id == files[i].id
    ensures Named(next)
  {
    forall f | f in next ensures f.id != "" {
      var i :| 0 <= i < |next| && next[i] == f;
      assert files[i] in files;
    }
  }

  lemma PutNamed(files: seq<File>, f: File, id: string, now: int)
    requires Named(files) && id != "" && Edits.Put(files, f, id, now).Ok? && Edits.Put(files, f, id, now).value.Some?
    ensures Named(Edits.Put(files, f, id, now).value.value)
  {
    hide ValidReference;
    var next := Edits.Put(files, f, id, now).value.value;
    forall g | g in next ensures g.id != "" {
      if g !in files {
        var k := Edits.Occupant(files, f.path, 0);
        assert g == next[if k >= 0 then k else |files|];
        assert k >= 0 ==> files[k] in files;
      }
    }
  }

  lemma CopyNamed(files: seq<File>, from: string, to: string, ids: seq<string>, grants: seq<CopyTree.Grant>)
    requires Named(files) && |ids| >= |files| && |grants| >= |files| && CopyTree.FreshIds(files, ids)
    requires CopyTree.Copy(files, from, to, ids, grants).Ok?
    ensures Named(CopyTree.Copy(files, from, to, ids, grants).value)
  {
    hide CopyTree.CopyBlocked, CopyTree.RelinkedParts, CopyTree.IdMap;
  }

  lemma DeleteNamed(files: seq<File>, path: string, now: int)
    requires Named(files) && Trash.Delete(files, path, now).Ok?
    ensures Named(Trash.Delete(files, path, now).value)
  {
    hide Trash.Selection;
    SlotsNamed(files, Trash.Delete(files, path, now).value);
  }

  lemma RestoreNamed(files: seq<File>, path: string)
    requires Named(files) && Trash.Restore(files, path).Ok?
    ensures Named(Trash.Restore(files, path).value)
  {
    hide Trash.Selection, Trash.RestoreBlocks;
    SlotsNamed(files, Trash.Restore(files, path).value);
  }

  lemma PublishNamed(files: seq<File>, plan: BackupCas.Plan)
    requires UniqueIds(files) && Named(files) && BackupCas.Publish(files, plan).Ok?
    ensures Named(BackupCas.Publish(files, plan).value)
  {
    hide BackupCas.Publish;
    BackupCas.PublishKeepsTree(files, plan);
    var next := BackupCas.Publish(files, plan).value;
    forall f | f in next ensures f.id != "" {
      var i :| 0 <= i < |next| && next[i] == f;
      if i < |files| {
        BackupCas.SlotIds(files, plan, |plan.files|, next, i);
        assert files[i] in files;
      } else {
        assert BackupCas.NewEntry(files, plan, |plan.files|, next[i]);
        var k :| 0 <= k < |plan.files| && plan.files[k] == f;
        assert BackupCas.Publishable(plan.files[k]);
      }
    }
  }

  lemma BatchNamed(files: seq<File>, updates: seq<Edits.Update>)
    requires UniqueIds(files) && Named(files) && Edits.ApplyUpdates(files, updates, |updates|).Ok?
    ensures Named(Edits.ApplyUpdates(files, updates, |updates|).value.next)
  {
    hide Edits.ApplyUpdates;
    Edits.BatchEvolves(files, updates);
    var next := Edits.ApplyUpdates(files, updates, |updates|).value.next;
    forall i | 0 <= i < |files| ensures next[i].id == files[i].id {
      Edits.SlotId(files[i], next[i], updates, |updates|);
    }
    SlotsNamed(files, next);
  }
}
