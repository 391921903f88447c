/** nextJournalLocked: the difference between the saved tree and a candidate,
    appended to a copy of the journal. Go visits maps in no fixed order, so the
    removal loops pick any remaining key. */
module JournalWriter {
  import opened Prelude
  import opened Entries
  import opened Journals
  import opened Sync

  predicate PhotoEntry(files: seq<File>, id: string) {
    exists i :: 0 <= i < |files| && files[i].id == id && SyncPhotoPath(files[i].path)
  }

  /** A file record tells the truth: which entry, whether it is gone, and
      whether it is or was a photo. */
  ghost predicate Describes(c: Change, before: seq<File>, after: seq<File>) {
    && (c.body.FileBody? || c.body.Nothing?)
    && (c.body.FileBody? ==>
          c.body.file in after && c.id == c.body.file.id && c.deleted == !c.body.file.present
          && c.kind == (if c.body.file.folder then FolderKind else AssetKind))
    && (c.body.Nothing? ==>
          c.deleted && !HasId(after, c.id) && HasId(before, c.id) && (c.kind == FolderKind || c.kind == AssetKind))
    && (c.photos <==> PhotoEntry(before, c.id) || PhotoEntry(after, c.id))
  }

  ghost function Added(j: Journal, j2: Journal): seq<Change> {
    var h := History(j2.hash);
    if j.sequence <= |h| then h[j.sequence..] else []
  }

  /** j2 is j with changes appended and nothing forgotten. */
  ghost predicate Grown(j: Journal, j2: Journal) {
    && Valid(j) && Valid(j2) && Extends(j, j2) && j2.epoch == j.epoch && Dropped(j) == Dropped(j2)
  }

  lemma GrownTransitive(a: Journal, b: Journal, c: Journal, m: Mirror)
    requires Grown(a, b) && Grown(b, c)
    ensures Grown(a, c) && Added(a, c) == Added(a, b) + Added(b, c)
    ensures Replay(m, Added(a, c)) == Replay(Replay(m, Added(a, b)), Added(b, c))
  {
    assert Added(a, c) == Added(a, b) + Added(b, c);
    ReplayConcat(m, Added(a, b), Added(b, c));
  }

  lemma ValidLength(j: Journal)
    requires Valid(j)
    ensures |History(j.hash)| == j.sequence
  {
  }

  /** One append, seen from the journal the loop started from. */
  lemma AppendGrows(start: Journal, j: Journal, c: Change, m: Mirror)
    requires Grown(start, j) && j.sequence < MAX_UINT64
    ensures var j2 := Append(j, c).value;
            && Grown(start, j2)
            && Added(start, j2) == Added(start, j) + [c.(sequence := j.sequence + 1)]
            && Replay(m, Added(start, j2)) == Apply(Replay(m, Added(start, j)), c)
  {
    hide Valid, Apply, Replay, History;
    AppendValid(j, c);
    ValidLength(j);
    ValidLength(start);
    var j2, x := Append(j, c).value, c.(sequence := j.sequence + 1);
    var h := History(j.hash);
    assert (h + [x])[start.sequence..] == h[start.sequence..] + [x];
    ReplaySnoc(m, Added(start, j), x);
    ApplyUnnumbered(Replay(m, Added(start, j)), c, j.sequence + 1);
  }

  lemma ReplaySnoc(m: Mirror, changes: seq<Change>, c: Change)
    ensures Replay(m, changes + [c]) == Apply(Replay(m, changes), c)
  {
    hide Apply;
    assert (changes + [c])[..|changes|] == changes;
  }

  /** A change applies whatever its number. */
  lemma ApplyUnnumbered(m: Mirror, c: Change, n: nat)
    ensures Apply(m, c.(sequence := n)) == Apply(m, c)
  {
  }

  lemma GrownReflexive(j: Journal)
    requires Valid(j)
    ensures Grown(j, j) && Added(j, j) == []
    ensures forall m :: Replay(m, Added(j, j)) == m
  {
  }

  lemma RowsStart<V>(base: map<string, V>, rows: seq<(string, V)>)
    ensures Remaining(base, rows, 0, base) && Overlay(base, rows[..0]) == base
  {
  }

  lemma RowsSnoc<V>(rows: seq<(string, V)>, i: int, base: map<string, V>)
    requires 0 <= i < |rows|
    ensures Overlay(base, rows[..i + 1]) == Overlay(base, rows[..i])[rows[i].0 := rows[i].1]
  {
    assert rows[..i + 1] == rows[..i] + [rows[i]];
    OverlaySnoc(base, rows[..i], rows[i]);
  }

  predicate Unseen<V>(rows: seq<(string, V)>, n: int, k: string)
    requires 0 <= n <= |rows|
  {
    forall i :: 0 <= i < n ==> rows[i].0 != k
  }

  /** The Go map of previous rows: those not yet met in the candidate. */
  ghost predicate Remaining<V>(base: map<string, V>, rows: seq<(string, V)>, n: int, previous: map<string, V>)
    requires 0 <= n <= |rows|
  {
    && (forall k :: k in previous <==> k in base && Unseen(rows, n, k))
    && (forall k :: k in previous ==> previous[k] == base[k])
  }

  lemma RowKnown<V>(base: map<string, V>, rows: seq<(string, V)>, i: int, previous: map<string, V>)
    requires DistinctKeys(rows) && 0 <= i < |rows| && Remaining(base, rows, i, previous)
    ensures Remaining(base, rows, i + 1, previous - {rows[i].0})
    ensures rows[i].0 in previous <==> rows[i].0 in base
    ensures rows[i].0 in previous ==> previous[rows[i].0] == base[rows[i].0]
  {
    forall k ensures Unseen(rows, i + 1, k) <==> Unseen(rows, i, k) && rows[i].0 != k {
    }
    assert Unseen(rows, i, rows[i].0);
  }

  lemma RowUnchanged<V>(base: map<string, V>, rows: seq<(string, V)>, i: int)
    requires DistinctKeys(rows) && 0 <= i < |rows|
    requires rows[i].0 in base && base[rows[i].0] == rows[i].1
    ensures Overlay(base, rows[..i + 1]) == Overlay(base, rows[..i])
  {
    RowsSnoc(rows, i, base);
    OverlayKeys(base, rows[..i], rows[i].0);
  }

  lemma RowsFinish<V>(base: map<string, V>, rows: seq<(string, V)>, gone: map<string, V>)
    requires DistinctKeys(rows) && Remaining(base, rows, |rows|, gone)
    ensures Overlay(base, rows) - gone.Keys == Overlay(map[], rows)
    ensures forall k :: k in gone ==> k in base && gone[k] == base[k] && Unseen(rows, |rows|, k)
  {
    forall k ensures k in gone.Keys <==> k in base && forall i :: 0 <= i < |rows| ==> rows[i].0 != k {
      assert Unseen(rows, |rows|, k) <==> forall i :: 0 <= i < |rows| ==> rows[i].0 != k;
    }
    OverlayForgets(base, rows, gone.Keys);
  }

  /** The keys of `gone` that are no longer in `left`. */
  ghost function Taken(gone: set<string>, left: set<string>): set<string> {
    gone - left
  }

  lemma TakenNone<V>(full: map<string, V>, gone: set<string>)
    ensures full - Taken(gone, gone) == full
  {
    assert Taken(gone, gone) == {};
  }

  lemma TakenAll(gone: set<string>)
    ensures Taken(gone, {}) == gone
  {
  }

  lemma TakenOne<V>(full: map<string, V>, gone: set<string>, left: set<string>, id: string)
    requires left <= gone && id in left
    ensures full - Taken(gone, left) - {id} == full - Taken(gone, left - {id})
    ensures left - {id} <= gone && id in gone
  {
    assert Taken(gone, left) + {id} == Taken(gone, left - {id});
  }

  // ------------------------------------------------------------------- files

  /** An entry whose revision did not move needs no change record. */
  lemma SkippedEntry(before: seq<File>, after: seq<File>, i: int, base: map<string, File>)
    requires UniqueIds(before) && UniqueIds(after) && Evolves(before, after) && 0 <= i < |after|
    requires base == Overlay(map[], FileRows(before))
    requires after[i].id in base && base[after[i].id].revision == after[i].revision
    ensures base[after[i].id] == Normal(after[i])
  {
    var f := FileMapOrigin(before, after[i].id);
    var k :| 0 <= k < |before| && before[k] == f;
  }

  lemma FileRowsDistinct(files: seq<File>)
    requires UniqueIds(files)
    ensures DistinctKeys(FileRows(files))
  {
  }

  lemma DescribesPut(before: seq<File>, after: seq<File>, base: map<string, File>, i: int, c: Change)
    requires UniqueIds(before) && UniqueIds(after) && 0 <= i < |after|
    requires base == Overlay(map[], FileRows(before))
    requires c.body == FileBody(after[i]) && c.id == after[i].id && c.deleted == !after[i].present
    requires c.kind == if after[i].folder then FolderKind else AssetKind
    requires c.photos <==> SyncPhotoPath(after[i].path) || (c.id in base && SyncPhotoPath(base[c.id].path))
    ensures forall n: nat :: Describes(c.(sequence := n), before, after)
  {
    EntryIsUnique(before, c.id, base);
    forall x | 0 <= x < |after| && after[x].id == c.id ensures x == i {
      UniqueIdsFind(after, x, i);
    }
  }

  lemma EntryIsUnique(before: seq<File>, id: string, base: map<string, File>)
    requires UniqueIds(before) && base == Overlay(map[], FileRows(before))
    ensures id in base <==> HasId(before, id)
    ensures PhotoEntry(before, id) <==> id in base && SyncPhotoPath(base[id].path)
  {
    if id in base {
      var f := FileMapOrigin(before, id);
      var k :| 0 <= k < |before| && before[k] == f;
      forall x | 0 <= x < |before| && before[x].id == id ensures x == k {
        UniqueIdsFind(before, x, k);
      }
    }
    if x :| 0 <= x < |before| && before[x].id == id {
      FileMapMember(before, before[x]);
    }
  }

  lemma DescribesRemoved(before: seq<File>, after: seq<File>, base: map<string, File>, c: Change)
    requires UniqueIds(before) && UniqueIds(after)
    requires base == Overlay(map[], FileRows(before))
    requires c.id in base && Unseen(FileRows(after), |after|, c.id)
    requires c.body == Nothing && c.deleted && (c.kind == FolderKind || c.kind == AssetKind)
    requires c.photos <==> SyncPhotoPath(base[c.id].path)
    ensures forall n: nat :: Describes(c.(sequence := n), before, after)
  {
    EntryIsUnique(before, c.id, base);
    forall x | 0 <= x < |after| ensures after[x].id != c.id {
      assert FileRows(after)[x].0 != c.id;
    }
  }

  /** Journalling fails only when the sequence number has no room for a change per
      row, which it then never exceeds. */
  ghost predicate Crowding(start: Journal, rows: nat, r: Result<Journal>) {
    match r
    case Ok(j) => j.sequence <= start.sequence + rows
    case Err(e) => e == RevisionOverflow && start.sequence + rows > MAX_UINT64
  }

  /** So far there is room for `left` more changes out of `total`. */
  ghost predicate Room(start: Journal, j: Journal, left: int, total: int) {
    0 <= left && j.sequence + left <= start.sequence + total
  }

  lemma RoomStart(start: Journal, total: nat)
    ensures Room(start, start, total, total)
  {
  }

  lemma RoomSkip(start: Journal, j: Journal, left: int, total: int)
    requires Room(start, j, left, total) && left > 0
    ensures Room(start, j, left - 1, total)
  {
  }

  lemma RoomStep(start: Journal, j: Journal, c: Change, left: int, total: nat)
    requires Room(start, j, left, total) && left > 0
    ensures Append(j, c).Ok? ==> j.sequence < MAX_UINT64
    ensures match Append(j, c)
            case Ok(j2) => Room(start, j2, left - 1, total)
            case Err(e) => Crowding(start, total, Err(e))
  {
  }

  lemma RoomEnd(start: Journal, j: Journal, left: int, total: nat)
    requires Room(start, j, left, total)
    ensures Crowding(start, total, Ok(j))
  {
  }

  /** How many rows a tree's journalled tables have. */
  function Rows(t: Tree): nat {
    |t.files| + |t.albums| + |t.folders| + |t.sources|
  }

  /** At most n keys are left. */
  ghost predicate AtMost(keys: set<string>, n: int) {
    |keys| <= n
  }

  lemma {:induction false} TableSize<V>(rows: seq<(string, V)>)
    ensures |Overlay(map[], rows).Keys| <= |rows|
  {
    if |rows| > 0 {
      var n := |rows| - 1;
      assert rows == rows[..n] + [rows[n]];
      TableSize(rows[..n]);
      OverlaySnoc(map[], rows[..n], rows[n]);
      var m := Overlay(map[], rows[..n]);
      assert m[rows[n].0 := rows[n].1].Keys == m.Keys + {rows[n].0};
    }
  }

  /** What is left of the previous rows after the first loop. */
  lemma Leftover<V>(rows: seq<(string, V)>, keys: set<string>)
    requires keys <= Overlay(map[], rows).Keys
    ensures AtMost(keys, |rows|)
  {
    TableSize(rows);
    Within(keys, Overlay(map[], rows).Keys);
  }

  lemma {:induction false} Within(a: set<string>, b: set<string>)
    requires a <= b
    ensures |a| <= |b|
  {
    assert b == a + (b - a);
  }

  lemma KeyGone(keys: set<string>, k: string, n: int)
    requires AtMost(keys, n) && k in keys
    ensures AtMost(keys - {k}, n - 1) && n > 0
  {
  }

  ghost predicate AllDescribe(changes: seq<Change>, before: seq<File>, after: seq<File>) {
    forall c :: c in changes ==> Describes(c, before, after)
  }

  lemma NoneDescribed(before: seq<File>, after: seq<File>)
    ensures AllDescribe([], before, after)
  {
  }

  lemma AllDescribeOne(changes: seq<Change>, c: Change, n: nat, before: seq<File>, after: seq<File>)
    requires AllDescribe(changes, before, after) && Describes(c.(sequence := n), before, after)
    ensures AllDescribe(changes + [c.(sequence := n)], before, after)
  {
    hide Describes;
  }

  ghost predicate OfKind(changes: seq<Change>, kind: Kind) {
    forall c :: c in changes ==> c.kind == kind && c.photos
  }

  lemma NoneOfKind(kind: Kind)
    ensures OfKind([], kind)
  {
  }

  lemma OneMoreOfKind(changes: seq<Change>, c: Change, n: nat)
    requires OfKind(changes, c.kind) && c.photos
    ensures OfKind(changes + [c.(sequence := n)], c.kind)
  {
  }

  lemma ApplyAlbumGone(m: Mirror, t: map<string, Album>, c: Change)
    requires c.body.Nothing? && c.kind == AlbumKind
    ensures Apply(m.(albums := t), c) == m.(albums := t - {c.id})
  {
  }

  lemma ApplyFolderGone(m: Mirror, t: map<string, Folder>, c: Change)
    requires c.body.Nothing? && c.kind == CollectionKind
    ensures Apply(m.(folders := t), c) == m.(folders := t - {c.id})
  {
  }

  lemma ApplyFile(m: Mirror, t: map<string, File>, c: Change)
    requires c.body.FileBody? || (c.body.Nothing? && c.kind != AlbumKind && c.kind != CollectionKind
                                  && c.kind != MappingKind)
    ensures Apply(m.(files := t), c) == m.(files := if c.body.FileBody? then t[c.id := Normal(c.body.file)]
                                           else t - {c.id})
  {
  }

  /** The stored rows, new and changed; what is left of the previous ones is gone. */
  method JournalStoredFiles(start: Journal, before: seq<File>, after: seq<File>, ghost m: Mirror)
    returns (r: Result<Journal>, previous: map<string, File>)
    requires Valid(start) && UniqueIds(before) && UniqueIds(after) && Evolves(before, after)
    requires m.files == Overlay(map[], FileRows(before))
    ensures r.Ok? ==> Grown(start, r.value) && Remaining(m.files, FileRows(after), |after|, previous)
    ensures r.Ok? ==> Replay(m, Added(start, r.value)) == m.(files := Overlay(m.files, FileRows(after)))
    ensures r.Ok? ==> AllDescribe(Added(start, r.value), before, after)
    ensures r.Ok? ==> Room(start, r.value, |before|, |before| + |after|)
    ensures r.Err? ==> Crowding(start, |before| + |after|, r)
  {
    hide Valid, Grown, Describes, Evolves, Overlay, Remaining, Replay, DistinctKeys, AtMost, Room, Crowding, Append;
    hide Added, Dropped, Unseen, Apply, AllDescribe;
    var rows := FileRows(after);
    FileRowsDistinct(after);
    previous := Overlay(map[], FileRows(before));
    var j := start;
    GrownReflexive(start);
    RoomStart(start, |before| + |after|);
    NoneDescribed(before, after);
    RowsStart(m.files, rows);
    assert previous == m.files;
    for i := 0 to |after|
      invariant Room(start, j, |before| + |after| - i, |before| + |after|)
      invariant Grown(start, j) && Remaining(m.files, rows, i, previous)
      invariant Replay(m, Added(start, j)) == m.(files := Overlay(m.files, rows[..i]))
      invariant AllDescribe(Added(start, j), before, after)
    {
      var file := after[i];
      RowKnown(m.files, rows, i, previous);
      RowsSnoc(rows, i, m.files);
      var known := file.id in previous;
      var prior := if known then previous[file.id] else file;
      previous := previous - {file.id};
      if known && prior.revision == file.revision && prior.path == file.path && prior.present == file.present {
        SkippedEntry(before, after, i, m.files);
        RowUnchanged(m.files, rows, i);
        RoomSkip(start, j, |before| + |after| - i, |before| + |after|);
        continue;
      }
      var c := Change(0, if file.folder then FolderKind else AssetKind, file.id, !file.present,
                      SyncPhotoPath(file.path) || (known && SyncPhotoPath(prior.path)), FileBody(file));
      DescribesPut(before, after, m.files, i, c);
      RoomStep(start, j, c, |before| + |after| - i, |before| + |after|);
      var step := Append(j, c);
      if step.Err? {
        return Err(step.error), previous;
      }
      AppendGrows(start, j, c, m);
      AllDescribeOne(Added(start, j), c, j.sequence + 1, before, after);
      ApplyFile(m, Overlay(m.files, rows[..i]), c);
      j := step.value;
    }
    assert rows[..|rows|] == rows;
    r := Ok(j);
  }

  /** Between two removals: what is journalled so far replays to the table
      without the rows that are done. */
  ghost predicate RemovingFiles(start: Journal, j: Journal, before: seq<File>, after: seq<File>,
                                full: map<string, File>, gone: map<string, File>, todo: set<string>, more: int,
                                    m: Mirror)
  {
    && AtMost(todo, more) && Room(start, j, more, |before| + |after|)
    && Grown(start, j) && todo <= gone.Keys
    && Replay(m, Added(start, j)) == m.(files := full - Taken(gone.Keys, todo))
    && AllDescribe(Added(start, j), before, after)
  }

  lemma RemovalStartsFiles(start: Journal, j: Journal, before: seq<File>, after: seq<File>, full: map<string, File>,
                           gone: map<string, File>, m: Mirror)
    requires Room(start, j, |before|, |before| + |after|) && Grown(start, j)
             && Replay(m, Added(start, j)) == m.(files := full)
    requires AllDescribe(Added(start, j), before, after) && gone.Keys <= Overlay(map[], FileRows(before)).Keys
    ensures RemovingFiles(start, j, before, after, full, gone, gone.Keys, |before|, m)
  {
    hide Valid, Grown, Describes, Overlay, Replay, AtMost, Taken, Room, Added, AllDescribe, OfKind;
    TakenNone(full, gone.Keys);
    Leftover(FileRows(before), gone.Keys);
  }

  lemma RemoveFile(start: Journal, j: Journal, before: seq<File>, after: seq<File>, full: map<string, File>,
                   gone: map<string, File>, todo: set<string>, more: int, m: Mirror, c: Change)
    requires RemovingFiles(start, j, before, after, full, gone, todo, more, m) && c.id in todo && c.body == Nothing
             && (c.kind == FolderKind || c.kind == AssetKind)
    requires Describes(c.(sequence := j.sequence + 1), before, after)
    ensures match Append(j, c)
            case Ok(j2) => RemovingFiles(start, j2, before, after, full, gone, todo - {c.id}, more - 1, m) && more > 0
            case Err(e) => Crowding(start, |before| + |after|, Err(e))
  {
    hide Valid, Grown, Describes, Overlay, Replay, AtMost, Taken, Room, Crowding, Append, Added, Dropped, Apply;
    hide AllDescribe, OfKind;
    KeyGone(todo, c.id, more);
    TakenOne(full, gone.Keys, todo, c.id);
    RoomStep(start, j, c, more, |before| + |after|);
    if Append(j, c).Ok? {
      AllDescribeOne(Added(start, j), c, j.sequence + 1, before, after);
      AppendGrows(start, j, c, m);
      ApplyFile(m, full - Taken(gone.Keys, todo), c);
    }
  }

  lemma TodoInFiles(start: Journal, j: Journal, before: seq<File>, after: seq<File>, full: map<string, File>,
                    gone: map<string, File>, todo: set<string>, more: int, m: Mirror, id: string)
    requires RemovingFiles(start, j, before, after, full, gone, todo, more, m) && id in todo
    ensures id in gone
  {
  }

  lemma RemovedFiles(start: Journal, j: Journal, before: seq<File>, after: seq<File>, full: map<string, File>,
                     gone: map<string, File>, todo: set<string>, more: int, m: Mirror)
    requires RemovingFiles(start, j, before, after, full, gone, todo, more, m) && todo == {}
    ensures Grown(start, j) && Replay(m, Added(start, j)) == m.(files := full - gone.Keys)
            && AllDescribe(Added(start, j), before, after)
    ensures Crowding(start, |before| + |after|, Ok(j))
  {
    hide Valid, Grown, Describes, Replay, AtMost, Taken, Room, Crowding, Added, AllDescribe, OfKind;
    TakenAll(gone.Keys);
    RoomEnd(start, j, more, |before| + |after|);
  }

  /** The removed rows. */
  method JournalRemovedFiles(start: Journal, stored: Journal, before: seq<File>, after: seq<File>,
                             gone: map<string, File>, ghost m: Mirror)
    returns (r: Result<Journal>)
    requires Valid(start) && UniqueIds(before) && UniqueIds(after) && Evolves(before, after)
    requires m.files == Overlay(map[], FileRows(before))
    requires Grown(start, stored) && Remaining(m.files, FileRows(after), |after|, gone)
    requires Replay(m, Added(start, stored)) == m.(files := Overlay(m.files, FileRows(after)))
    requires AllDescribe(Added(start, stored), before, after)
    requires Room(start, stored, |before|, |before| + |after|)
    ensures r.Ok? ==> Grown(start, r.value)
    ensures r.Ok? ==> Replay(m, Added(start, r.value)) == m.(files := Overlay(map[], FileRows(after)))
    ensures r.Ok? ==> AllDescribe(Added(start, r.value), before, after)
    ensures Crowding(start, |before| + |after|, r)
  {
    hide Valid, Grown, Describes, Evolves, Overlay, Remaining, Replay, DistinctKeys, Crowding, Append, Added, Dropped;
    hide Unseen, Apply, AllDescribe, OfKind, RemovingFiles;
    var j, todo := stored, gone.Keys;
    ghost var rows := FileRows(after);
    FileRowsDistinct(after);
    ghost var full := Overlay(m.files, rows);
    RowsFinish(m.files, rows, gone);
    ghost var more := |before|;
    RemovalStartsFiles(start, stored, before, after, full, gone, m);
    while todo != {}
      invariant RemovingFiles(start, j, before, after, full, gone, todo, more, m)
      decreases more
    {
      var id :| id in todo;
      TodoInFiles(start, j, before, after, full, gone, todo, more, m, id);
      var file := gone[id];
      var c := Change(0, if file.folder then FolderKind else AssetKind, id, true, SyncPhotoPath(file.path), Nothing);
      DescribesRemoved(before, after, m.files, c);
      RemoveFile(start, j, before, after, full, gone, todo, more, m, c);
      var step := Append(j, c);
      if step.Err? {
        return Err(step.error);
      }
      j := step.value;
      todo, more := todo - {id}, more - 1;
    }
    RemovedFiles(start, j, before, after, full, gone, todo, more, m);
    r := Ok(j);
  }

  /** The previous entries are kept without their outbox flag; the loop reads
      only their revision, path, presence and kind. */
  method JournalFiles(start: Journal, before: seq<File>, after: seq<File>, ghost m: Mirror) returns (r: Result<Journal>)
    requires Valid(start) && UniqueIds(before) && UniqueIds(after) && Evolves(before, after)
    requires m.files == Overlay(map[], FileRows(before))
    ensures r.Ok? ==> Grown(start, r.value)
    ensures r.Ok? ==> Replay(m, Added(start, r.value)) == m.(files := Overlay(map[], FileRows(after)))
    ensures r.Ok? ==> AllDescribe(Added(start, r.value), before, after)
    ensures Crowding(start, |before| + |after|, r)
  {
    var stored, previous := JournalStoredFiles(start, before, after, m);
    if stored.Err? {
      return stored;
    }
    r := JournalRemovedFiles(start, stored.value, before, after, previous, m);
  }

  // ------------------------------------------------------- albums and folders

  /** The stored rows, new and changed; what is left of the previous ones is gone. */
  method JournalStoredAlbums(start: Journal, before: seq<Album>, after: seq<Album>, ghost m: Mirror)
    returns (r: Result<Journal>, previous: map<string, Album>)
    requires Valid(start) && DistinctKeys(AlbumRows(before)) && DistinctKeys(AlbumRows(after))
    requires m.albums == Overlay(map[], AlbumRows(before))
    ensures r.Ok? ==> Grown(start, r.value) && Remaining(m.albums, AlbumRows(after), |after|, previous)
    ensures r.Ok? ==> Replay(m, Added(start, r.value)) == m.(albums := Overlay(m.albums, AlbumRows(after)))
    ensures r.Ok? ==> OfKind(Added(start, r.value), AlbumKind)
    ensures r.Ok? ==> Room(start, r.value, |before|, |before| + |after|)
    ensures r.Err? ==> Crowding(start, |before| + |after|, r)
  {
    var rows := AlbumRows(after);
    previous := Overlay(map[], AlbumRows(before));
    hide Valid, Grown, Overlay, Remaining, Replay, DistinctKeys, AtMost, Room, Crowding, Append, Added, Dropped;
    hide Unseen, OfKind;
    var j := start;
    GrownReflexive(start);
    NoneOfKind(AlbumKind);
    RoomStart(start, |before| + |after|);
    RowsStart(m.albums, rows);
    assert previous == m.albums;
    for i := 0 to |after|
      invariant Room(start, j, |before| + |after| - i, |before| + |after|)
      invariant Grown(start, j) && Remaining(m.albums, rows, i, previous)
      invariant Replay(m, Added(start, j)) == m.(albums := Overlay(m.albums, rows[..i]))
      invariant OfKind(Added(start, j), AlbumKind)
    {
      var album := after[i];
      RowKnown(m.albums, rows, i, previous);
      RowsSnoc(rows, i, m.albums);
      var same := album.id in previous && previous[album.id] == album;
      previous := previous - {album.id};
      if same {
        RowUnchanged(m.albums, rows, i);
        RoomSkip(start, j, |before| + |after| - i, |before| + |after|);
        continue;
      }
      var c := Change(0, AlbumKind, album.id, false, true, AlbumBody(album));
      RoomStep(start, j, c, |before| + |after| - i, |before| + |after|);
      var step := Append(j, c);
      if step.Err? {
        return Err(step.error), previous;
      }
      OneMoreOfKind(Added(start, j), c, j.sequence + 1);
      AppendGrows(start, j, c, m);
      j := step.value;
    }
    assert rows[..|rows|] == rows;
    r := Ok(j);
  }

  /** Between two removals: what is journalled so far replays to the table
      without the rows that are done. */
  ghost predicate RemovingAlbums(start: Journal, j: Journal, before: seq<Album>, after: seq<Album>,
                                 full: map<string, Album>, gone: map<string, Album>, todo: set<string>, more: int,
                                     m: Mirror)
  {
    && AtMost(todo, more) && Room(start, j, more, |before| + |after|)
    && Grown(start, j) && todo <= gone.Keys
    && Replay(m, Added(start, j)) == m.(albums := full - Taken(gone.Keys, todo))
    && OfKind(Added(start, j), AlbumKind)
  }

  lemma RemovalStartsAlbums(start: Journal, j: Journal, before: seq<Album>, after: seq<Album>,
                            full: map<string, Album>, gone: map<string, Album>, m: Mirror)
    requires Room(start, j, |before|, |before| + |after|) && Grown(start, j)
             && Replay(m, Added(start, j)) == m.(albums := full)
    requires OfKind(Added(start, j), AlbumKind) && gone.Keys <= Overlay(map[], AlbumRows(before)).Keys
    ensures RemovingAlbums(start, j, before, after, full, gone, gone.Keys, |before|, m)
  {
    hide Valid, Grown, Describes, Overlay, Replay, AtMost, Taken, Room, Added, AllDescribe, OfKind;
    TakenNone(full, gone.Keys);
    Leftover(AlbumRows(before), gone.Keys);
  }

  lemma RemoveAlbum(start: Journal, j: Journal, before: seq<Album>, after: seq<Album>, full: map<string, Album>,
                    gone: map<string, Album>, todo: set<string>, more: int, m: Mirror, c: Change)
    requires RemovingAlbums(start, j, before, after, full, gone, todo, more, m) && c.id in todo && c.body == Nothing
             && c.kind == AlbumKind && c.photos
    ensures match Append(j, c)
            case Ok(j2) => RemovingAlbums(start, j2, before, after, full, gone, todo - {c.id}, more - 1, m) && more > 0
            case Err(e) => Crowding(start, |before| + |after|, Err(e))
  {
    hide Valid, Grown, Describes, Overlay, Replay, AtMost, Taken, Room, Crowding, Append, Added, Dropped, Apply;
    hide AllDescribe, OfKind;
    KeyGone(todo, c.id, more);
    TakenOne(full, gone.Keys, todo, c.id);
    RoomStep(start, j, c, more, |before| + |after|);
    if Append(j, c).Ok? {
      OneMoreOfKind(Added(start, j), c, j.sequence + 1);
      AppendGrows(start, j, c, m);
      ApplyAlbumGone(m, full - Taken(gone.Keys, todo), c);
    }
  }

  lemma RemovedAlbums(start: Journal, j: Journal, before: seq<Album>, after: seq<Album>, full: map<string, Album>,
                      gone: map<string, Album>, todo: set<string>, more: int, m: Mirror)
    requires RemovingAlbums(start, j, before, after, full, gone, todo, more, m) && todo == {}
    ensures Grown(start, j) && Replay(m, Added(start, j)) == m.(albums := full - gone.Keys)
            && OfKind(Added(start, j), AlbumKind)
    ensures Crowding(start, |before| + |after|, Ok(j))
  {
    hide Valid, Grown, Describes, Replay, AtMost, Taken, Room, Crowding, Added, AllDescribe, OfKind;
    TakenAll(gone.Keys);
    RoomEnd(start, j, more, |before| + |after|);
  }

  /** The removed rows. */
  method JournalRemovedAlbums(start: Journal, stored: Journal, before: seq<Album>, after: seq<Album>,
                              gone: map<string, Album>, ghost m: Mirror)
    returns (r: Result<Journal>)
    requires Valid(start) && DistinctKeys(AlbumRows(before)) && DistinctKeys(AlbumRows(after))
    requires m.albums == Overlay(map[], AlbumRows(before))
    requires Grown(start, stored) && Remaining(m.albums, AlbumRows(after), |after|, gone)
    requires Replay(m, Added(start, stored)) == m.(albums := Overlay(m.albums, AlbumRows(after)))
    requires OfKind(Added(start, stored), AlbumKind)
    requires Room(start, stored, |before|, |before| + |after|)
    ensures r.Ok? ==> Grown(start, r.value)
    ensures r.Ok? ==> Replay(m, Added(start, r.value)) == m.(albums := Overlay(map[], AlbumRows(after)))
    ensures r.Ok? ==> OfKind(Added(start, r.value), AlbumKind)
    ensures Crowding(start, |before| + |after|, r)
  {
    hide Valid, Grown, Describes, Evolves, Overlay, Remaining, Replay, DistinctKeys, Crowding, Append, Added, Dropped;
    hide Unseen, Apply, AllDescribe, OfKind, RemovingAlbums;
    var j, todo := stored, gone.Keys;
    ghost var rows := AlbumRows(after);
    ghost var full := Overlay(m.albums, rows);
    RowsFinish(m.albums, rows, gone);
    ghost var more := |before|;
    RemovalStartsAlbums(start, stored, before, after, full, gone, m);
    while todo != {}
      invariant RemovingAlbums(start, j, before, after, full, gone, todo, more, m)
      decreases more
    {
      var id :| id in todo;
      var c := Change(0, AlbumKind, id, true, true, Nothing);
      RemoveAlbum(start, j, before, after, full, gone, todo, more, m, c);
      var step := Append(j, c);
      if step.Err? {
        return Err(step.error);
      }
      j := step.value;
      todo, more := todo - {id}, more - 1;
    }
    RemovedAlbums(start, j, before, after, full, gone, todo, more, m);
    r := Ok(j);
  }

  method JournalAlbums(start: Journal, before: seq<Album>, after: seq<Album>, ghost m: Mirror)
    returns (r: Result<Journal>)
    requires Valid(start) && DistinctKeys(AlbumRows(before)) && DistinctKeys(AlbumRows(after))
    requires m.albums == Overlay(map[], AlbumRows(before))
    ensures r.Ok? ==> Grown(start, r.value)
    ensures r.Ok? ==> Replay(m, Added(start, r.value)) == m.(albums := Overlay(map[], AlbumRows(after)))
    ensures r.Ok? ==> OfKind(Added(start, r.value), AlbumKind)
    ensures Crowding(start, |before| + |after|, r)
  {
    var stored, previous := JournalStoredAlbums(start, before, after, m);
    if stored.Err? {
      return stored;
    }
    r := JournalRemovedAlbums(start, stored.value, before, after, previous, m);
  }

  /** The stored rows, new and changed; what is left of the previous ones is gone. */
  method JournalStoredFolders(start: Journal, before: seq<Folder>, after: seq<Folder>, ghost m: Mirror)
    returns (r: Result<Journal>, previous: map<string, Folder>)
    requires Valid(start) && DistinctKeys(FolderRows(before)) && DistinctKeys(FolderRows(after))
    requires m.folders == Overlay(map[], FolderRows(before))
    ensures r.Ok? ==> Grown(start, r.value) && Remaining(m.folders, FolderRows(after), |after|, previous)
    ensures r.Ok? ==> Replay(m, Added(start, r.value)) == m.(folders := Overlay(m.folders, FolderRows(after)))
    ensures r.Ok? ==> OfKind(Added(start, r.value), CollectionKind)
    ensures r.Ok? ==> Room(start, r.value, |before|, |before| + |after|)
    ensures r.Err? ==> Crowding(start, |before| + |after|, r)
  {
    var rows := FolderRows(after);
    previous := Overlay(map[], FolderRows(before));
    hide Valid, Grown, Overlay, Remaining, Replay, DistinctKeys, AtMost, Room, Crowding, Append, Added, Dropped;
    hide Unseen, OfKind;
    var j := start;
    GrownReflexive(start);
    NoneOfKind(CollectionKind);
    RoomStart(start, |before| + |after|);
    RowsStart(m.folders, rows);
    assert previous == m.folders;
    for i := 0 to |after|
      invariant Room(start, j, |before| + |after| - i, |before| + |after|)
      invariant Grown(start, j) && Remaining(m.folders, rows, i, previous)
      invariant Replay(m, Added(start, j)) == m.(folders := Overlay(m.folders, rows[..i]))
      invariant OfKind(Added(start, j), CollectionKind)
    {
      var folder := after[i];
      RowKnown(m.folders, rows, i, previous);
      RowsSnoc(rows, i, m.folders);
      var same := folder.id in previous && previous[folder.id] == folder;
      previous := previous - {folder.id};
      if same {
        RowUnchanged(m.folders, rows, i);
        RoomSkip(start, j, |before| + |after| - i, |before| + |after|);
        continue;
      }
      var c := Change(0, CollectionKind, folder.id, false, true, FolderBody(folder));
      RoomStep(start, j, c, |before| + |after| - i, |before| + |after|);
      var step := Append(j, c);
      if step.Err? {
        return Err(step.error), previous;
      }
      OneMoreOfKind(Added(start, j), c, j.sequence + 1);
      AppendGrows(start, j, c, m);
      j := step.value;
    }
    assert rows[..|rows|] == rows;
    r := Ok(j);
  }

  /** Between two removals: what is journalled so far replays to the table
      without the rows that are done. */
  ghost predicate RemovingFolders(start: Journal, j: Journal, before: seq<Folder>, after: seq<Folder>,
                                  full: map<string, Folder>, gone: map<string, Folder>, todo: set<string>, more: int,
                                      m: Mirror)
  {
    && AtMost(todo, more) && Room(start, j, more, |before| + |after|)
    && Grown(start, j) && todo <= gone.Keys
    && Replay(m, Added(start, j)) == m.(folders := full - Taken(gone.Keys, todo))
    && OfKind(Added(start, j), CollectionKind)
  }

  lemma RemovalStartsFolders(start: Journal, j: Journal, before: seq<Folder>, after: seq<Folder>,
                             full: map<string, Folder>, gone: map<string, Folder>, m: Mirror)
    requires Room(start, j, |before|, |before| + |after|) && Grown(start, j)
             && Replay(m, Added(start, j)) == m.(folders := full)
    requires OfKind(Added(start, j), CollectionKind) && gone.Keys <= Overlay(map[], FolderRows(before)).Keys
    ensures RemovingFolders(start, j, before, after, full, gone, gone.Keys, |before|, m)
  {
    hide Valid, Grown, Describes, Overlay, Replay, AtMost, Taken, Room, Added, AllDescribe, OfKind;
    TakenNone(full, gone.Keys);
    Leftover(FolderRows(before), gone.Keys);
  }

  lemma RemoveFolder(start: Journal, j: Journal, before: seq<Folder>, after: seq<Folder>, full: map<string, Folder>,
                     gone: map<string, Folder>, todo: set<string>, more: int, m: Mirror, c: Change)
    requires RemovingFolders(start, j, before, after, full, gone, todo, more, m) && c.id in todo && c.body == Nothing
             && c.kind == CollectionKind && c.photos
    ensures match Append(j, c)
            case Ok(j2) => RemovingFolders(start, j2, before, after, full, gone, todo - {c.id}, more - 1, m) && more > 0
            case Err(e) => Crowding(start, |before| + |after|, Err(e))
  {
    hide Valid, Grown, Describes, Overlay, Replay, AtMost, Taken, Room, Crowding, Append, Added, Dropped, Apply;
    hide AllDescribe, OfKind;
    KeyGone(todo, c.id, more);
    TakenOne(full, gone.Keys, todo, c.id);
    RoomStep(start, j, c, more, |before| + |after|);
    if Append(j, c).Ok? {
      OneMoreOfKind(Added(start, j), c, j.sequence + 1);
      AppendGrows(start, j, c, m);
      ApplyFolderGone(m, full - Taken(gone.Keys, todo), c);
    }
  }

  lemma RemovedFolders(start: Journal, j: Journal, before: seq<Folder>, after: seq<Folder>, full: map<string, Folder>,
                       gone: map<string, Folder>, todo: set<string>, more: int, m: Mirror)
    requires RemovingFolders(start, j, before, after, full, gone, todo, more, m) && todo == {}
    ensures Grown(start, j) && Replay(m, Added(start, j)) == m.(folders := full - gone.Keys)
            && OfKind(Added(start, j), CollectionKind)
    ensures Crowding(start, |before| + |after|, Ok(j))
  {
    hide Valid, Grown, Describes, Replay, AtMost, Taken, Room, Crowding, Added, AllDescribe, OfKind;
    TakenAll(gone.Keys);
    RoomEnd(start, j, more, |before| + |after|);
  }

  /** The removed rows. */
  method JournalRemovedFolders(start: Journal, stored: Journal, before: seq<Folder>, after: seq<Folder>,
                               gone: map<string, Folder>, ghost m: Mirror)
    returns (r: Result<Journal>)
    requires Valid(start) && DistinctKeys(FolderRows(before)) && DistinctKeys(FolderRows(after))
    requires m.folders == Overlay(map[], FolderRows(before))
    requires Grown(start, stored) && Remaining(m.folders, FolderRows(after), |after|, gone)
    requires Replay(m, Added(start, stored)) == m.(folders := Overlay(m.folders, FolderRows(after)))
    requires OfKind(Added(start, stored), CollectionKind)
    requires Room(start, stored, |before|, |before| + |after|)
    ensures r.Ok? ==> Grown(start, r.value)
    ensures r.Ok? ==> Replay(m, Added(start, r.value)) == m.(folders := Overlay(map[], FolderRows(after)))
    ensures r.Ok? ==> OfKind(Added(start, r.value), CollectionKind)
    ensures Crowding(start, |before| + |after|, r)
  {
    hide Valid, Grown, Describes, Evolves, Overlay, Remaining, Replay, DistinctKeys, Crowding, Append, Added, Dropped;
    hide Unseen, Apply, AllDescribe, OfKind, RemovingFolders;
    var j, todo := stored, gone.Keys;
    ghost var rows := FolderRows(after);
    ghost var full := Overlay(m.folders, rows);
    RowsFinish(m.folders, rows, gone);
    ghost var more := |before|;
    RemovalStartsFolders(start, stored, before, after, full, gone, m);
    while todo != {}
      invariant RemovingFolders(start, j, before, after, full, gone, todo, more, m)
      decreases more
    {
      var id :| id in todo;
      var c := Change(0, CollectionKind, id, true, true, Nothing);
      RemoveFolder(start, j, before, after, full, gone, todo, more, m, c);
      var step := Append(j, c);
      if step.Err? {
        return Err(step.error);
      }
      j := step.value;
      todo, more := todo - {id}, more - 1;
    }
    RemovedFolders(start, j, before, after, full, gone, todo, more, m);
    r := Ok(j);
  }

  /** journalCollections, folders first ... */
  method JournalFolders(start: Journal, before: seq<Folder>, after: seq<Folder>, ghost m: Mirror)
    returns (r: Result<Journal>)
    requires Valid(start) && DistinctKeys(FolderRows(before)) && DistinctKeys(FolderRows(after))
    requires m.folders == Overlay(map[], FolderRows(before))
    ensures r.Ok? ==> Grown(start, r.value)
    ensures r.Ok? ==> Replay(m, Added(start, r.value)) == m.(folders := Overlay(map[], FolderRows(after)))
    ensures r.Ok? ==> OfKind(Added(start, r.value), CollectionKind)
    ensures Crowding(start, |before| + |after|, r)
  {
    var stored, previous := JournalStoredFolders(start, before, after, m);
    if stored.Err? {
      return stored;
    }
    r := JournalRemovedFolders(start, stored.value, before, after, previous, m);
  }

  /** ... then source mappings, which are never removed. */
  method JournalSources(start: Journal, before: map<string, Mapping>, after: map<string, Mapping>, ghost m: Mirror)
    returns (r: Result<Journal>)
    requires Valid(start) && before.Keys <= after.Keys
    requires forall k :: k in after ==> after[k].namespace != ""
    requires m.sources == before
    ensures r.Ok? ==> Grown(start, r.value)
    ensures r.Ok? ==> Replay(m, Added(start, r.value)) == m.(sources := after)
    ensures r.Ok? ==> OfKind(Added(start, r.value), MappingKind)
    ensures Crowding(start, |before| + |after|, r)
  {
    hide Valid, Grown, Mixed, Replay, OfKind, Added;
    var j, todo := start, after.Keys;
    GrownReflexive(start);
    NoneOfKind(MappingKind);
    MappingsStart(before, after);
    while todo != {}
      invariant j.sequence + |todo| <= start.sequence + |after|
      invariant Grown(start, j) && todo <= after.Keys
      invariant Replay(m, Added(start, j)) == m.(sources := Mixed(before, after, todo))
      invariant OfKind(Added(start, j), MappingKind)
      decreases todo
    {
      var k :| k in todo;
      MappingStep(before, after, todo, k);
      if (if k in before then before[k] else NO_MAPPING) == after[k] {
        todo := todo - {k};
        continue;
      }
      var c := Change(0, MappingKind, k, false, true, MappingBody(after[k]));
      var step := Append(j, c);
      if step.Err? {
        return Err(step.error);
      }
      OneMoreOfKind(Added(start, j), c, j.sequence + 1);
      AppendGrows(start, j, c, m);
      j := step.value;
      todo := todo - {k};
    }
    r := Ok(j);
  }

  ghost function Mixed(before: map<string, Mapping>, after: map<string, Mapping>,
                       todo: set<string>): map<string, Mapping>
  {
    before + (after - todo)
  }

  lemma MappingsStart(before: map<string, Mapping>, after: map<string, Mapping>)
    requires before.Keys <= after.Keys
    ensures Mixed(before, after, after.Keys) == before && Mixed(before, after, {}) == after
  {
  }

  lemma MappingStep(before: map<string, Mapping>, after: map<string, Mapping>, todo: set<string>, k: string)
    requires before.Keys <= after.Keys && k in todo && todo <= after.Keys && after[k].namespace != ""
    ensures Mixed(before, after, todo - {k}) == Mixed(before, after, todo)[k := after[k]]
    ensures (if k in before then before[k] else NO_MAPPING) == after[k] ==>
              Mixed(before, after, todo - {k}) == Mixed(before, after, todo)
  {
  }

  /** The candidate may follow the saved tree: ids stay unique, changed entries
      carry new revisions, and no source mapping disappears. */
  ghost predicate MayFollow(t: Tree, t2: Tree) {
    WellFormed(t) && WellFormed(t2) && Evolves(t.files, t2.files) && t.sources.Keys <= t2.sources.Keys
  }

  lemma FreshEpochValid(j: Journal, epoch: string)
    requires Valid(j)
    ensures Valid(j.(epoch := epoch))
  {
    var k2 := j.(epoch := epoch);
    forall k | 0 <= k < |k2.records| ensures RetainedAt(k2, k) {
      assert RetainedAt(j, k);
    }
  }

  /** Five tables journaled one after the other. */
  lemma Chained(j: Journal, a: Journal, b: Journal, c: Journal, d: Journal, m: Mirror)
    requires Grown(j, a) && Grown(a, b) && Grown(b, c) && Grown(c, d)
    ensures Grown(j, d)
    ensures Added(j, d) == Added(j, a) + Added(a, b) + Added(b, c) + Added(c, d)
    ensures Replay(m, Added(j, d)) == Replay(Replay(Replay(Replay(m, Added(j, a)), Added(a, b)), Added(b, c)),
                                             Added(c, d))
  {
    GrownTransitive(j, a, b, m);
    GrownTransitive(j, b, c, m);
    GrownTransitive(j, c, d, m);
  }

  lemma Published(journal: Journal, j: Journal, grown: Journal, saved: Tree, candidate: Tree)
    requires Valid(journal) && (j == journal || (journal.epoch == "" && j == journal.(epoch := j.epoch)))
    requires Grown(j, grown) && |journal.records| <= CHANGE_RETENTION
    requires Replay(MirrorOf(saved), Added(j, grown)) == MirrorOf(candidate)
    ensures Saved(journal, saved, Truncate(grown), candidate)
    ensures Added(journal, Truncate(grown)) == Added(j, grown)
    ensures |Truncate(grown).records| <= CHANGE_RETENTION && Truncate(grown).epoch == j.epoch
  {
    TruncateValid(grown);
  }

  predicate OfFile(c: Change) {
    c.kind == AssetKind || c.kind == FolderKind
  }

  /** File records describe both trees; every other record is photo-scoped. */
  ghost predicate Truthful(changes: seq<Change>, before: seq<File>, after: seq<File>) {
    forall c :: c in changes ==> if OfFile(c) then Describes(c, before, after) else c.photos
  }

  lemma TruthfulParts(files: seq<Change>, albums: seq<Change>, folders: seq<Change>, mappings: seq<Change>,
                      before: seq<File>, after: seq<File>)
    requires AllDescribe(files, before, after)
    requires OfKind(albums, AlbumKind)
    requires OfKind(folders, CollectionKind)
    requires OfKind(mappings, MappingKind)
    ensures Truthful(files + albums + folders + mappings, before, after)
  {
  }

  method NextJournal(journal: Journal, saved: Tree, candidate: Tree, freshEpoch: string) returns (r: Result<Journal>)
    requires Valid(journal) && MayFollow(saved, candidate)
    requires |journal.records| <= CHANGE_RETENTION
    ensures r.Ok? ==> Saved(journal, saved, r.value, candidate)
    ensures r.Ok? ==> |r.value.records| <= CHANGE_RETENTION
    ensures r.Ok? ==> r.value.epoch == if journal.epoch == "" then freshEpoch else journal.epoch
    ensures r.Ok? ==> Truthful(Added(journal, r.value), saved.files, candidate.files)
    ensures r.Err? ==> r.error == RevisionOverflow && journal.sequence + Rows(saved) + Rows(candidate) > MAX_UINT64
  {
    hide Valid, Grown, Describes, Evolves, Saved, Replay, Truthful, AllDescribe, Overlay, UniqueIds, DistinctKeys;
    hide Truncate;
    ghost var m0 := MirrorOf(saved);
    var j := journal;
    if j.epoch == "" {
      j := j.(epoch := freshEpoch);
      FreshEpochValid(journal, freshEpoch);
    }
    var step1 := JournalFiles(j, saved.files, candidate.files, m0);
    if step1.Err? {
      return step1;
    }
    ghost var m1 := m0.(files := MirrorOf(candidate).files);
    GrownIsValid(j, step1.value);
    var step2 := JournalAlbums(step1.value, saved.albums, candidate.albums, m1);
    if step2.Err? {
      return step2;
    }
    ghost var m2 := m1.(albums := MirrorOf(candidate).albums);
    GrownIsValid(step1.value, step2.value);
    var step3 := JournalFolders(step2.value, saved.folders, candidate.folders, m2);
    if step3.Err? {
      return step3;
    }
    ghost var m3 := m2.(folders := MirrorOf(candidate).folders);
    GrownIsValid(step2.value, step3.value);
    var step4 := JournalSources(step3.value, saved.sources, candidate.sources, m3);
    if step4.Err? {
      return step4;
    }
    Chained(j, step1.value, step2.value, step3.value, step4.value, m0);
    TruthfulParts(Added(j, step1.value), Added(step1.value, step2.value), Added(step2.value, step3.value),
                  Added(step3.value, step4.value), saved.files, candidate.files);
    assert m3.(sources := candidate.sources) == MirrorOf(candidate);
    Published(journal, j, step4.value, saved, candidate);
    r := Ok(Truncate(step4.value));
  }

  lemma GrownIsValid(a: Journal, b: Journal)
    requires Grown(a, b)
    ensures Valid(a) && Valid(b) && a.epoch == b.epoch
  {
  }
}
