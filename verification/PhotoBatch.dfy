/** Photo batches: many uploads in one save, with the results of doing them one
    after another. */
module PhotoBatch {
  import SourceImport
  import opened Prelude
  import opened Paths
  import opened Entries
  import opened Journals
  import opened Sync
  import opened JournalWriter
  import opened Albums
  import opened Edits
  import opened PhotoIngest
  import opened Catalogs

  // ------------------------------------------------------------ one commit, as run

  method LocatePart(files: seq<File>, part: Part, commit: Commit) returns (r: Result<int>)
    ensures r == FindPart(files, part, commit, |files|)
  {
    hide SameUpload, Below;
    var index := -1;
    for n := 0 to |files|
      invariant FindPart(files, part, commit, n) == Ok(index)
    {
      var f := files[n];
      if !f.present {
        continue;
      }
      if f.path == part.to {
        if !SameUpload(f, commit) {
          FindFails(files, part, commit, n + 1, |files|);
          return Err(Conflict);
        }
        index := n;
      }
      if f.path == part.from {
        if index != -1 {
          FindFails(files, part, commit, n + 1, |files|);
          return Err(Conflict);
        }
        index := n;
      }
      if !f.folder && Below(part.to, f.path) {
        FindFails(files, part, commit, n + 1, |files|);
        return Err(Conflict);
      }
    }
    r := Ok(index);
  }

  lemma {:induction false} FindFails(files: seq<File>, part: Part, commit: Commit, n: nat, m: nat)
    requires n <= m <= |files| && FindPart(files, part, commit, n) == Err(Conflict)
    ensures FindPart(files, part, commit, m) == Err(Conflict)
  {
    if n < m {
      FindFails(files, part, commit, n, m - 1);
    }
  }

  method LandParts(files: seq<File>, commit: Commit) returns (r: Result<Landing>)
    ensures r == Land(files, commit, |commit.parts|)
  {
    hide GoodPart, Repeats, FindPart, Landed;
    var l := Landing(files, [], true);
    for n := 0 to |commit.parts|
      invariant Land(files, commit, n) == Ok(l)
    {
      var part := commit.parts[n];
      var failed: Option<Error> := None;
      if !GoodPart(part, n) || Repeats(commit.parts, n) {
        failed := Some(Conflict);
      } else {
        var index := LocatePart(l.files, part, commit);
        if index.Err? {
          failed := Some(index.error);
        } else if index.value < 0 {
          failed := Some(NotFound);
        } else {
          var f := l.files[index.value];
          if f.folder || f.hash != part.hash || f.size != part.size {
            failed := Some(RevisionMismatch);
          } else if f.revision == MAX_UINT64 {
            failed := Some(RevisionOverflow);
          } else {
            l := Landing(l.files[index.value := Landed(f, part, commit)], l.indices + [index.value], l.already
                         && f.path == part.to);
          }
        }
      }
      if failed.Some? {
        LandFails(files, commit, n + 1, |commit.parts|, failed.value);
        return Err(failed.value);
      }
    }
    r := Ok(l);
  }

  lemma {:induction false} LandFails(files: seq<File>, commit: Commit, n: nat, m: nat, e: Error)
    requires n <= m <= |commit.parts| && Land(files, commit, n) == Err(e)
    ensures Land(files, commit, m) == Err(e)
  {
    hide GoodPart, Repeats, FindPart, Landed;
    if n < m {
      LandFails(files, commit, n, m - 1, e);
    }
  }

  /** The scan over all albums for one listed id. */
  method JoinOne(albums: seq<Album>, id: string, primary: string) returns (r: Result<seq<Album>>, found: bool)
    ensures r == JoinAll(albums, id, primary, |albums|)
    ensures r.Ok? ==> (found <==> exists k :: 0 <= k < |r.value| && r.value[k].id == id)
  {
    hide WithPrimary;
    var next := albums;
    found := false;
    for i := 0 to |albums|
      invariant |next| == |albums| && JoinAll(albums, id, primary, i) == Ok(next)
      invariant forall k :: i <= k < |albums| ==> next[k] == albums[k]
      invariant found <==> exists k :: 0 <= k < i && next[k].id == id
    {
      JoinedId(next[i], id, primary);
      var joined := WithPrimary(next[i], id, primary);
      if joined.Err? {
        JoinAllFails(albums, id, primary, i + 1, |albums|, joined.error);
        return Err(joined.error), false;
      }
      ghost var was := next;
      found := found || next[i].id == id;
      next := next[i := joined.value];
      assert forall k :: 0 <= k < |next| ==> next[k].id == was[k].id;
    }
    r := Ok(next);
  }

  method JoinAlbums(albums: seq<Album>, ids: seq<string>, primary: string) returns (r: Result<seq<Album>>)
    ensures r == JoinListed(albums, ids, primary, |ids|)
  {
    hide JoinAll;
    var next := albums;
    for n := 0 to |ids|
      invariant JoinListed(albums, ids, primary, n) == Ok(next)
    {
      var joined, found := JoinOne(next, ids[n], primary);
      if joined.Err? {
        JoinListedFails(albums, ids, primary, n + 1, |ids|, joined.error);
        return Err(joined.error);
      }
      if !found {
        JoinListedFails(albums, ids, primary, n + 1, |ids|, AlbumNotFound);
        return Err(AlbumNotFound);
      }
      next := joined.value;
    }
    r := Ok(next);
  }

  lemma JoinedId(a: Album, id: string, primary: string)
    ensures WithPrimary(a, id, primary).Ok? ==> WithPrimary(a, id, primary).value.id == a.id
  {
  }

  lemma {:induction false} JoinAllFails(albums: seq<Album>, id: string, primary: string, n: nat, m: nat, e: Error)
    requires n <= m <= |albums| && JoinAll(albums, id, primary, n) == Err(e)
    ensures JoinAll(albums, id, primary, m) == Err(e)
  {
    if n < m {
      JoinAllFails(albums, id, primary, n, m - 1, e);
    }
  }

  lemma {:induction false} JoinListedFails(albums: seq<Album>, ids: seq<string>, primary: string, n: nat, m: nat,
                                           e: Error)
    requires n <= m <= |ids| && JoinListed(albums, ids, primary, n) == Err(e)
    ensures JoinListed(albums, ids, primary, m) == Err(e)
  {
    if n < m {
      JoinListedFails(albums, ids, primary, n, m - 1, e);
    }
  }

  /** CommitPhotoIngest up to the save. */
  method IngestPhoto(t: Tree, commit: Commit) returns (r: Result<Ingested>)
    ensures r == Ingest(t, commit)
  {
    hide Land, LinkParts, MapSource, JoinListed;
    if |commit.parts| < 1 || |commit.parts| > 2 || commit.parts[0].id != "original" {
      return Err(Conflict);
    }
    var landed := LandParts(t.files, commit);
    if landed.Err? {
      return Err(landed.error);
    }
    var l := landed.value;
    if l.already && |t.files[l.indices[0]].components| == |commit.parts| {
      return Ok(Ingested(t.files[l.indices[0]], None));
    }
    var next := LinkParts(l, commit);
    var primary := next[l.indices[0]];
    var sources := MapSource(t, commit, primary);
    if sources.Err? {
      return Err(sources.error);
    }
    var albums := JoinAlbums(t.albums, commit.albumIds, primary.id);
    if albums.Err? {
      return Err(albums.error);
    }
    r := Ok(Ingested(primary, Some(t.(files := next, albums := albums.value, sources := sources.value))));
  }

  // ---------------------------------------------------------------- the batches

  /** What has come of the members so far. */
  datatype Shadow = Shadow(tree: Tree, results: seq<Result<File>>, changed: bool)

  function AfterIngest(s: Shadow, commit: Commit): Shadow {
    match Ingest(s.tree, commit)
    case Err(e) => s.(results := s.results + [Err(e)])
    case Ok(i) => Shadow(if i.next.Some? then i.next.value else s.tree, s.results + [Ok(i.file)], true)
  }

  /** The single operation applied to each member in order, failures skipped. */
  function IngestEach(t: Tree, commits: seq<Commit>): (s: Shadow)
    ensures |s.results| == |commits|
  {
    if commits == [] then Shadow(t, [], false)
        else AfterIngest(IngestEach(t, commits[..|commits| - 1]), commits[|commits| - 1])
  }

  const PENDING := ".weazl-mobile-pending/"

  function AfterPut(s: Shadow, f: File, id: string, now: int): Shadow {
    if !(PENDING <= f.path) || f.folder then s.(results := s.results + [Err(Conflict)]) else
    match Put(s.tree.files, f, id, now)
    case Err(e) => s.(results := s.results + [Err(e)])
    case Ok(next) =>
      var files := if next.Some? then next.value else s.tree.files;
      var k := Occupant(files, f.path, 0);
      Shadow(s.tree.(files := files), s.results + [Ok(if k >= 0 then files[k] else f)], true)
  }

  function PutEach(t: Tree, files: seq<File>, ids: seq<string>, now: int): (s: Shadow)
    requires |ids| == |files|
    ensures |s.results| == |files|
  {
    if files == [] then Shadow(t, [], false) else
    var n := |files| - 1;
    AfterPut(PutEach(t, files[..n], ids[..n], now), files[n], ids[n], now)
  }

  /** No member reports success once the save failed. */
  function Withdrawn(results: seq<Result<File>>, e: Error): (r: seq<Result<File>>)
    ensures |r| == |results| && forall i :: 0 <= i < |r| ==> r[i].Err? && (results[i].Err? ==> r[i] == results[i])
  {
    seq(|results|, i requires 0 <= i < |results| => if results[i].Ok? then Err(e) else results[i])
  }

  /** The shadow may be saved after the tree it started from. */
  ghost predicate Savable(t: Tree, u: Tree) {
    MayFollow(t, u) && Grows(t.files, u.files) && Named(u.files)
  }

  lemma SavableSelf(t: Tree)
    requires WellFormed(t) && Named(t.files)
    ensures Savable(t, t)
  {
    SameEvolves(t.files);
  }

  lemma SavableStep(t: Tree, u: Tree, v: Tree)
    requires WellFormed(t) && Savable(t, u) && MayFollow(u, v) && Grows(u.files, v.files) && Named(v.files)
    ensures Savable(t, v)
  {
    hide Evolves, Grows, Named;
    GrowsTransitive(t.files, u.files, v.files);
    GrowsEvolves(t.files, v.files);
  }

  lemma {:induction false} IngestEachSavable(t: Tree, commits: seq<Commit>)
    requires WellFormed(t) && Named(t.files)
    ensures Savable(t, IngestEach(t, commits).tree)
  {
    hide Ingest, Savable, MayFollow;
    if commits == [] {
      SavableSelf(t);
    } else {
      var s, commit := IngestEach(t, commits[..|commits| - 1]), commits[|commits| - 1];
      IngestEachSavable(t, commits[..|commits| - 1]);
      SavableWellFormed(t, s.tree);
      if Ingest(s.tree, commit).Ok? && Ingest(s.tree, commit).value.next.Some? {
        var u := Ingest(s.tree, commit).value.next.value;
        IngestKeeps(s.tree, commit);
        GrowsNamed(s.tree.files, u.files);
        SavableStep(t, s.tree, u);
      }
    }
  }

  lemma SavableWellFormed(t: Tree, u: Tree)
    requires Savable(t, u)
    ensures WellFormed(u) && Named(u.files)
  {
  }

  lemma GrowsNamed(before: seq<File>, after: seq<File>)
    requires Named(before) && Grows(before, after) && |after| == |before|
    ensures Named(after)
  {
    SlotsNamed(before, after);
  }

  /** One photo, one save. */
  method CommitPhotoIngest(c: Catalog, commit: Commit, disk: Disk) returns (r: Result<File>)
    requires c.Valid()
    modifies c
    ensures c.Valid()
    ensures match Ingest(old(c.View()), commit)
            case Err(e) => r == Err(e) && c.Current() == old(c.Current())
            case Ok(i) =>
              if i.next.None? then r == Ok(i.file) && c.Current() == old(c.Current())
              else Transacts(old(c.Current()), Ok(i.next.value), disk.writes, c.Current(), if r.Ok? then None
                             else Some(r.error))
                   && (r.Ok? ==> r == Ok(i.file) && c.View() == i.next.value)
                   && (r.Err? ==> c.Current() == old(c.Current()))
  {
    hide Ingest, Catalog.Valid, MayFollow, Named, Commits;
    var i := IngestPhoto(c.View(), commit);
    if i.Err? {
      return Err(i.error);
    }
    if i.value.next.None? {
      return Ok(i.value.file);
    }
    ValidView(c);
    ghost var before := c.Current();
    IngestKeeps(c.View(), commit);
    GrowsNamed(c.files, i.value.next.value.files);
    var err := c.Commit(i.value.next.value, disk);
    EndOf(before, i.value.next.value, disk.writes, c.Current(), err);
    r := if err.None? then Ok(i.value.file) else Err(err.value);
  }

  lemma ValidView(c: Catalog)
    requires c.Valid()
    ensures WellFormed(c.View()) && Named(c.files)
  {
    assert c.LastSaved() == c.View();
  }

  lemma EndOf(before: State, t: Tree, writes: bool, after: State, err: Option<Error>)
    requires Transacts(before, Ok(t), writes, after, err)
    ensures if err.None? then after.tree == t else after == before
  {
  }

  /** finishPhotoBatchLocked: one save for everything, or nothing at all. */
  method FinishBatch(c: Catalog, s: Shadow, disk: Disk) returns (results: seq<Result<File>>)
    requires c.Valid() && Savable(c.View(), s.tree)
    modifies c
    ensures c.Valid() && BatchEnds(old(c.Current()), s, disk.writes, c.Current(), results)
  {
    hide Catalog.Valid, Savable, Commits;
    if !s.changed {
      return s.results;
    }
    SavableMeans(c.View(), s.tree);
    ghost var before := c.Current();
    var err := c.Commit(s.tree, disk);
    EndOf(before, s.tree, disk.writes, c.Current(), err);
    results := if err.Some? then Withdrawn(s.results, err.value) else s.results;
  }

  lemma SavableMeans(t: Tree, u: Tree)
    requires Savable(t, u)
    ensures MayFollow(t, u) && Named(u.files)
  {
  }

  /** Members that failed keep their errors; the others succeed together with the
      tree they built, or all fail and nothing changes. */
  ghost predicate BatchEnds(before: State, s: Shadow, writes: bool, after: State, results: seq<Result<File>>) {
    if !s.changed then results == s.results && after == before
    else
      || (results == s.results && Transacts(before, Ok(s.tree), writes, after, None))
      || (exists e :: results == Withdrawn(s.results, e) && Transacts(before, Ok(s.tree), writes, after, Some(e)))
  }

  /** CommitPhotoIngestBatch over a private shadow of the catalog. */
  method CommitPhotoIngestBatch(c: Catalog, commits: seq<Commit>, disk: Disk) returns (results: seq<Result<File>>)
    requires c.Valid()
    modifies c
    ensures c.Valid() && BatchEnds(old(c.Current()), IngestEach(old(c.View()), commits), disk.writes, c.Current(),
                                   results)
  {
    hide Ingest, Catalog.Valid, Savable, BatchEnds;
    var s := Shadow(c.View(), [], false);
    for n := 0 to |commits|
      invariant s == IngestEach(c.View(), commits[..n])
      invariant c.Valid() && c.Current() == old(c.Current())
    {
      assert commits[..n + 1][..n] == commits[..n];
      var i := IngestPhoto(s.tree, commits[n]);
      if i.Err? {
        s := s.(results := s.results + [Err(i.error)]);
      } else {
        s := Shadow(if i.value.next.Some? then i.value.next.value else s.tree, s.results + [Ok(i.value.file)], true);
      }
    }
    assert commits[..|commits|] == commits;
    ValidView(c);
    IngestEachSavable(c.View(), commits);
    results := FinishBatch(c, s, disk);
  }

  /** A commit adds at most its mapping to the journalled rows. */
  lemma IngestRows(t: Tree, commit: Commit)
    requires Ingest(t, commit).Ok? && Ingest(t, commit).value.next.Some?
    ensures var u := Ingest(t, commit).value.next.value; Rows(t) <= Rows(u) <= Rows(t) + 1
  {
    hide Land, LinkParts, JoinListed, SourceImport.SafeSourceKey, SourceImport.SourceKey;
    var u, key := Ingest(t, commit).value.next.value,
        SourceImport.SourceKey(commit.device, commit.namespace, commit.sourceAsset);
    if key in u.sources && u.sources != t.sources {
      assert u.sources == t.sources[key := u.sources[key]];
      assert u.sources.Keys == t.sources.Keys + {key};
    }
  }

  lemma CommitRoom(before: State, commit: Commit, writes: bool, after: State, err: Option<Error>)
    requires Ingest(before.tree, commit).Ok? && Ingest(before.tree, commit).value.next.Some?
    requires Transacts(before, Ok(Ingest(before.tree, commit).value.next.value), writes, after, err)
    ensures err.Some? ==> !writes || Full(before)
    ensures err.None? && Full(before) ==> Full(after)
  {
    hide Ingest, Transacts, Full;
    IngestRows(before.tree, commit);
    if err.None? {
      FullStays(before, Ingest(before.tree, commit).value.next.value, writes, after);
    } else if writes {
      RefusedWhenFull(before, Ingest(before.tree, commit).value.next.value, after, err.value);
    }
  }

  /** The members one at a time, each with its own save: the same results and the
      same tree, as long as the saves work. */
  method CommitInTurn(c: Catalog, commits: seq<Commit>, disks: nat -> Disk) returns (results: seq<Result<File>>)
    requires c.Valid()
    modifies c
    ensures c.Valid()
    ensures (forall k: nat :: disks(k).writes) && !Full(c.Current()) ==>
              c.View() == IngestEach(old(c.View()), commits).tree
                && results == IngestEach(old(c.View()), commits).results
  {
    hide Ingest, Catalog.Valid, Transacts, Full;
    ghost var t := c.View();
    results := [];
    ghost var allSaved := true;
    for n := 0 to |commits|
      invariant c.Valid()
      invariant (forall k: nat :: disks(k).writes) && !Full(c.Current()) ==> allSaved
      invariant allSaved ==> c.View() == IngestEach(t, commits[..n]).tree
                             && results == IngestEach(t, commits[..n]).results
    {
      assert commits[..n + 1][..n] == commits[..n];
      ghost var spec := Ingest(c.View(), commits[n]);
      ghost var before := c.Current();
      var r := CommitPhotoIngest(c, commits[n], disks(n));
      if spec.Ok? && spec.value.next.Some? {
        CommitRoom(before, commits[n], disks(n).writes, c.Current(), if r.Ok? then None else Some(r.error));
      }
      results := results + [r];
      allSaved := allSaved && (r.Err? ==> spec.Err?);
    }
    assert commits[..|commits|] == commits;
  }

  // ------------------------------------------------------------- put components

  lemma {:induction false} PutEachSavable(t: Tree, files: seq<File>, ids: seq<string>, now: int)
    requires WellFormed(t) && Named(t.files) && |ids| == |files| && FreshBatch(t.files, files, ids)
    ensures Savable(t, PutEach(t, files, ids, now).tree)
    ensures forall g :: g in PutEach(t, files, ids, now).tree.files ==>
              HasId(t.files, g.id) || KnownId(files, ids, g.id)
  {
    hide Put, Savable, Grows, MayFollow;
    if files == [] {
      SavableSelf(t);
      forall g | g in t.files ensures HasId(t.files, g.id) {
      }
    } else {
      var n := |files| - 1;
      var s := PutEach(t, files[..n], ids[..n], now);
      FreshPrefix(t.files, files, ids);
      PutEachSavable(t, files[..n], ids[..n], now);
      var next := PutEach(t, files, ids, now).tree;
      KnownGrows(files, ids);
      if PENDING <= files[n].path && !files[n].folder && Put(s.tree.files, files[n], ids[n], now).Ok?
         && Put(s.tree.files, files[n], ids[n], now).value.Some? {
        IdStillFresh(t.files, s.tree.files, files, ids);
        PutStep(t, s.tree, files[n], ids[n], now);
        forall g | g in next.files ensures HasId(t.files, g.id) || KnownId(files, ids, g.id) {
          if !HasId(s.tree.files, g.id) {
            assert g.id == files[n].id || g.id == ids[n];
          } else {
            var i :| 0 <= i < |s.tree.files| && s.tree.files[i].id == g.id;
            assert s.tree.files[i] in s.tree.files;
          }
        }
      }
    }
  }

  ghost predicate KnownId(files: seq<File>, ids: seq<string>, id: string)
    requires |ids| == |files|
  {
    exists i :: 0 <= i < |files| && (files[i].id == id || ids[i] == id)
  }

  /** Ids the catalog may issue are new to it, to the members and to each other. */
  ghost predicate FreshBatch(stored: seq<File>, files: seq<File>, ids: seq<string>)
    requires |ids| == |files|
  {
    && (forall i :: 0 <= i < |ids| ==> ids[i] != "" && !HasId(stored, ids[i]))
    && (forall i, j :: 0 <= i < |ids| && 0 <= j < |files| ==> files[j].id != ids[i])
    && (forall i, j :: 0 <= i < j < |ids| ==> ids[i] != ids[j])
  }

  lemma FreshPrefix(stored: seq<File>, files: seq<File>, ids: seq<string>)
    requires |ids| == |files| > 0 && FreshBatch(stored, files, ids)
    ensures FreshBatch(stored, files[..|files| - 1], ids[..|files| - 1])
  {
  }

  lemma KnownGrows(files: seq<File>, ids: seq<string>)
    requires |ids| == |files| > 0
    ensures forall id :: KnownId(files[..|files| - 1], ids[..|files| - 1], id) ==> KnownId(files, ids, id)
    ensures KnownId(files, ids, files[|files| - 1].id) && KnownId(files, ids, ids[|files| - 1])
  {
    forall id | KnownId(files[..|files| - 1], ids[..|files| - 1], id) ensures KnownId(files, ids, id) {
      var i :| 0 <= i < |files| - 1 && (files[..|files| - 1][i].id == id || ids[..|files| - 1][i] == id);
      assert files[i].id == id || ids[i] == id;
    }
  }

  lemma IdStillFresh(stored: seq<File>, present: seq<File>, files: seq<File>, ids: seq<string>)
    requires |ids| == |files| > 0 && FreshBatch(stored, files, ids)
    requires forall g :: g in present ==> HasId(stored, g.id) || KnownId(files[..|files| - 1], ids[..|files| - 1], g.id)
    ensures FreshId(present, ids[|files| - 1])
  {
    var n := |files| - 1;
    assert !KnownId(files[..n], ids[..n], ids[n]);
    forall i | 0 <= i < |present| ensures present[i].id != ids[n] {
      assert present[i] in present;
    }
  }

  lemma PutStep(t: Tree, u: Tree, f: File, id: string, now: int)
    requires WellFormed(t) && Savable(t, u) && FreshId(u.files, id)
    requires Put(u.files, f, id, now).Ok? && Put(u.files, f, id, now).value.Some?
    ensures var next := Put(u.files, f, id, now).value.value;
            && Savable(t, u.(files := next))
            && forall g :: g in next && !HasId(u.files, g.id) ==> g.id == f.id || g.id == id
  {
    hide Put, Evolves, UniqueIds, UniquePaths;
    var next := Put(u.files, f, id, now).value.value;
    PutEvolves(u.files, f, id, now);
    PutNamed(u.files, f, id, now);
    PutGrows(u.files, f, id, now);
    SavableStep(t, u, u.(files := next));
  }

  lemma PutGrows(files: seq<File>, f: File, id: string, now: int)
    requires UniqueIds(files) && FreshId(files, id) && Put(files, f, id, now).Ok? && Put(files, f, id, now).value.Some?
    ensures var next := Put(files, f, id, now).value.value;
            && Grows(files, next)
            && forall g :: g in next && !HasId(files, g.id) ==> g.id == f.id || g.id == id
  {
    hide Put, UniquePaths, Evolves, FreshId, At;
    PutEvolves(files, f, id, now);
    var next := Put(files, f, id, now).value.value;
    var k :| 0 <= k < |next| && |files| <= |next| <= |files| + 1
      && At(next[k], f.path) && (forall i :: 0 <= i < |files| && i != k ==> next[i] == files[i])
      && (k < |files| ==> |next| == |files| && next[k].id == files[k].id && next[k].revision == files[k].revision + 1)
      && (k >= |files| ==> next[k].revision == 1 && (next[k].id == f.id || next[k].id == id));
    forall i, j | 0 <= i < |files| && |files| <= j < |next| ensures files[i].id != next[j].id {
      assert next[i].id == files[i].id && next[i].id != next[j].id;
    }
    assert forall x :: 0 <= x < |files| ==> next[x].id == files[x].id;
    forall g | g in next && !HasId(files, g.id) ensures g.id == f.id || g.id == id {
      var x :| 0 <= x < |next| && next[x] == g;
    }
  }

  /** PutPhotoComponents: staged parts only, one save. */
  method PutPhotoComponents(c: Catalog, files: seq<File>, ids: seq<string>, now: int, disk: Disk)
    returns (results: seq<Result<File>>)
    requires c.Valid() && |ids| == |files| && FreshBatch(c.files, files, ids)
    modifies c
    ensures c.Valid() && BatchEnds(old(c.Current()), PutEach(old(c.View()), files, ids, now), disk.writes,
                                   c.Current(), results)
  {
    hide Put, Catalog.Valid, Savable, BatchEnds;
    var s := Shadow(c.View(), [], false);
    for n := 0 to |files|
      invariant s == PutEach(c.View(), files[..n], ids[..n], now)
      invariant c.Valid() && c.Current() == old(c.Current())
    {
      assert files[..n + 1][..n] == files[..n] && ids[..n + 1][..n] == ids[..n];
      var f := files[n];
      if !(PENDING <= f.path) || f.folder {
        s := s.(results := s.results + [Err(Conflict)]);
        continue;
      }
      var put := PutFile(s.tree.files, f, ids[n], now);
      if put.Err? {
        s := s.(results := s.results + [Err(put.error)]);
        continue;
      }
      var next := if put.value.Some? then put.value.value else s.tree.files;
      var k := Occupant(next, f.path, 0);
      s := Shadow(s.tree.(files := next), s.results + [Ok(if k >= 0 then next[k] else f)], true);
    }
    assert files[..|files|] == files && ids[..|files|] == ids;
    ValidView(c);
    PutEachSavable(c.View(), files, ids, now);
    results := FinishBatch(c, s, disk);
  }

  /** Ids in use: those stored at the start, and those of members already handled. */
  ghost predicate OnlyKnown(start: seq<File>, present: seq<File>, files: seq<File>, ids: seq<string>)
    requires |ids| == |files|
  {
    forall g :: g in present ==> HasId(start, g.id) || KnownId(files, ids, g.id)
  }

  lemma KnownAfter(start: seq<File>, present: seq<File>, after: seq<File>, files: seq<File>, ids: seq<string>)
    requires |ids| == |files| > 0 && OnlyKnown(start, present, files[..|files| - 1], ids[..|files| - 1])
    requires forall g :: g in after && !HasId(present, g.id) ==>
               g.id == files[|files| - 1].id || g.id == ids[|files| - 1]
    ensures OnlyKnown(start, after, files, ids)
  {
    KnownGrows(files, ids);
    forall g | g in after ensures HasId(start, g.id) || KnownId(files, ids, g.id) {
      if HasId(present, g.id) {
        var i :| 0 <= i < |present| && present[i].id == g.id;
        assert present[i] in present;
      }
    }
  }

  /** One member of PutPhotoComponents as a call of its own. */
  method PutOne(c: Catalog, f: File, id: string, now: int, disk: Disk) returns (r: Result<File>)
    requires c.Valid() && FreshId(c.files, id)
    modifies c
    ensures c.Valid()
    ensures forall g :: g in c.files && !HasId(old(c.files), g.id) ==> g.id == f.id || g.id == id
    ensures Full(old(c.Current())) ==> Full(c.Current())
    ensures disk.writes && !Full(c.Current()) ==>
              AfterPut(Shadow(old(c.View()), [], false), f, id, now) == Shadow(c.View(), [r], r.Ok?)
  {
    hide Put, Catalog.Valid, Full, Occupant, Transacts;
    ghost var before, start := c.Current(), c.files;
    StoredIds(start);
    if !(PENDING <= f.path) || f.folder {
      return Err(Conflict);
    }
    ghost var spec := Put(c.files, f, id, now);
    ValidView(c);
    var err := c.Put(f, id, now, disk);
    if spec.Ok? && spec.value.Some? {
      PutRoom(before, f, id, now, disk.writes, c.Current(), err);
    } else {
      PutNothing(before, spec, disk.writes, c.Current(), err);
    }
    if err.Some? {
      return Err(err.value);
    }
    var k := Occupant(c.files, f.path, 0);
    r := Ok(if k >= 0 then c.files[k] else f);
  }

  lemma StoredIds(files: seq<File>)
    ensures forall g :: g in files ==> HasId(files, g.id)
  {
  }

  lemma PutNothing(before: State, spec: Result<Option<seq<File>>>, writes: bool, after: State, err: Option<Error>)
    requires spec.Err? || spec.value.None?
    requires match spec
             case Err(e) => Transacts(before, Err(e), writes, after, err)
             case Ok(_) => after == before && err.None?
    ensures after == before && err == if spec.Err? then Some(spec.error) else None
  {
  }

  lemma PutRoom(before: State, f: File, id: string, now: int, writes: bool, after: State, err: Option<Error>)
    requires UniqueIds(before.tree.files) && FreshId(before.tree.files, id)
    requires Put(before.tree.files, f, id, now).Ok? && Put(before.tree.files, f, id, now).value.Some?
    requires Transacts(before, Ok(before.tree.(files := Put(before.tree.files, f, id, now).value.value)), writes,
                       after, err)
    ensures after.tree == before.tree.(files := if err.None? then Put(before.tree.files, f, id, now).value.value
                                       else before.tree.files)
    ensures forall g :: g in after.tree.files && !HasId(before.tree.files, g.id) ==> g.id == f.id || g.id == id
    ensures err.Some? ==> after == before && (!writes || Full(before))
    ensures Full(before) ==> Full(after)
  {
    hide Put, UniqueIds, Full, Transacts;
    var t := before.tree.(files := Put(before.tree.files, f, id, now).value.value);
    PutGrows(before.tree.files, f, id, now);
    PutRows(before.tree.files, f, id, now);
    StoredIds(before.tree.files);
    EndOf(before, t, writes, after, err);
    if err.None? {
      FullStays(before, t, writes, after);
    } else if writes {
      RefusedWhenFull(before, t, after, err.value);
    }
  }

  lemma PutRows(files: seq<File>, f: File, id: string, now: int)
    requires Put(files, f, id, now).Ok? && Put(files, f, id, now).value.Some?
    ensures |files| <= |Put(files, f, id, now).value.value| <= |files| + 1
  {
    hide ValidReference;
  }

  /** The components one at a time, each with its own save: the same results and
      the same tree, as long as the saves work. */
  method PutInTurn(c: Catalog, files: seq<File>, ids: seq<string>, now: int, disks: nat -> Disk)
    returns (results: seq<Result<File>>)
    requires c.Valid() && |ids| == |files| && FreshBatch(c.files, files, ids)
    modifies c
    ensures c.Valid()
    ensures (forall k: nat :: disks(k).writes) && !Full(c.Current()) ==>
              c.View() == PutEach(old(c.View()), files, ids, now).tree
                && results == PutEach(old(c.View()), files, ids, now).results
  {
    hide AfterPut, Catalog.Valid, Full, OnlyKnown, FreshId, FreshBatch;
    ghost var t := c.View();
    results := [];
    ghost var allSaved := true;
    StartKnown(c.files);
    for n := 0 to |files|
      invariant c.Valid() && OnlyKnown(t.files, c.files, files[..n], ids[..n])
      invariant (forall k: nat :: disks(k).writes) && !Full(c.Current()) ==> allSaved
      invariant allSaved ==> c.View() == PutEach(t, files[..n], ids[..n], now).tree
                             && results == PutEach(t, files[..n], ids[..n], now).results
    {
      assert files[..n + 1][..n] == files[..n] && ids[..n + 1][..n] == ids[..n];
      StillUnused(t.files, c.files, files, ids, n);
      ghost var s, present := PutEach(t, files[..n], ids[..n], now), c.files;
      ghost var seen := Shadow(c.View(), [], false);
      var r := PutOne(c, files[n], ids[n], now, disks(n));
      KnownAfter(t.files, present, c.files, files[..n + 1], ids[..n + 1]);
      allSaved := allSaved && AfterPut(seen, files[n], ids[n], now) == Shadow(c.View(), [r], r.Ok?);
      if allSaved {
        ResultsJoin(s, files[n], ids[n], now);
      }
      results := results + [r];
    }
    assert files[..|files|] == files && ids[..|files|] == ids;
  }

  lemma StartKnown(files: seq<File>)
    ensures OnlyKnown(files, files, [], [])
  {
  }

  lemma StillUnused(start: seq<File>, present: seq<File>, files: seq<File>, ids: seq<string>, n: nat)
    requires |ids| == |files| && n < |files| && FreshBatch(start, files, ids)
             && OnlyKnown(start, present, files[..n], ids[..n])
    ensures FreshId(present, ids[n])
  {
    assert files[..n + 1][..n] == files[..n] && ids[..n + 1][..n] == ids[..n];
    IdStillFresh(start, present, files[..n + 1], ids[..n + 1]);
  }

  /** A member's outcome does not depend on the results before it. */
  lemma ResultsJoin(s: Shadow, f: File, id: string, now: int)
    ensures var one, all := AfterPut(Shadow(s.tree, [], false), f, id, now), AfterPut(s, f, id, now);
            all.tree == one.tree && |one.results| == 1 && all.results == s.results + one.results
  {
    hide Put;
  }
}
