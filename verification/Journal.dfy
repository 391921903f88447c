/** The hash-chained change journal and the positions held in it. */
module Journals {
  // It is truncated at its old end; a device builds a mirror from what it reads
  // of it.

  import opened Prelude
  import opened Entries

  const CHANGE_RETENTION: nat := 8192

  datatype Kind = AssetKind | FolderKind | AlbumKind | CollectionKind | MappingKind

  datatype Body = Nothing | FileBody(file: File) | AlbumBody(album: Album) | FolderBody(folder: Folder)
                | MappingBody(mapping: Mapping)

  datatype Change = Change(sequence: nat, kind: Kind, id: string, deleted: bool, photos: bool, body: Body)

  /** SHA-256 as an ideal injective function: a digest is the chain it hashes. */
  datatype Digest = Unhashed | Hashed(previous: Digest, change: Change)

  datatype Record = Record(change: Change, hash: Digest)

  datatype Position = Position(epoch: string, sequence: nat, hash: Digest)

  datatype Journal = Journal(epoch: string, sequence: uint64, hash: Digest, records: seq<Record>)

  const EMPTY_JOURNAL := Journal("", 0, Unhashed, [])

  /** syncPhotoPath */
  predicate SyncPhotoPath(path: string) {
    path == "Photos" || "Photos/" <= path
  }

  function PositionOf(j: Journal): Position {
    Position(j.epoch, j.sequence, j.hash)
  }

  /** Journal.append; the caller supplies the change without its sequence. */
  function Append(j: Journal, c: Change): (r: Result<Journal>) {
    if j.sequence == MAX_UINT64 then Err(RevisionOverflow) else
    var numbered := c.(sequence := j.sequence + 1);
    var hash := Hashed(j.hash, numbered);
    Ok(Journal(j.epoch, j.sequence + 1, hash, j.records + [Record(numbered, hash)]))
  }

  /** Keep the newest CHANGE_RETENTION records. */
  function Truncate(j: Journal): Journal {
    if |j.records| > CHANGE_RETENTION
    then j.(records := j.records[|j.records| - CHANGE_RETENTION..])
    else j
  }

  // ---------------------------------------------------------------- histories

  /** All changes a digest commits to, oldest first. */
  ghost function History(d: Digest): (h: seq<Change>) {
    match d
    case Unhashed => []
    case Hashed(previous, change) => History(previous) + [change]
  }

  ghost function DigestOf(h: seq<Change>): Digest {
    if h == [] then Unhashed else Hashed(DigestOf(h[..|h| - 1]), h[|h| - 1])
  }

  lemma {:induction false} DigestRoundTrip(d: Digest)
    ensures DigestOf(History(d)) == d
  {
    match d
    case Unhashed =>
    case Hashed(previous, change) =>
      DigestRoundTrip(previous);
      var h := History(d);
      assert h[..|h| - 1] == History(previous);
  }

  lemma {:induction false} HistoryRoundTrip(h: seq<Change>)
    ensures History(DigestOf(h)) == h
  {
    if h != [] {
      HistoryRoundTrip(h[..|h| - 1]);
    }
  }

  /** The retained records are the newest ones, contiguous, and each carries
      the digest of the history up to it. */
  ghost predicate Valid(j: Journal) {
    var h := History(j.hash);
    && |h| == j.sequence
    && |j.records| <= |h|
    && (j.sequence > 0 ==> |j.records| > 0)
    && (forall i :: 0 <= i < |h| ==> h[i].sequence == i + 1)
    && (forall k :: 0 <= k < |j.records| ==> RetainedAt(j, k))
  }

  ghost predicate RetainedAt(j: Journal, k: int)
    requires 0 <= k < |j.records| <= |History(j.hash)|
  {
    var h := History(j.hash);
    var n := |h| - |j.records| + k;
    j.records[k].change == h[n] && j.records[k].hash == DigestOf(h[..n + 1])
  }

  /** Number of the change just before the oldest retained one. */
  function Dropped(j: Journal): int {
    j.sequence - |j.records|
  }

  /** j2 continues j1 and only forgets old records. */
  ghost predicate Extends(j1: Journal, j2: Journal) {
    j1.sequence <= j2.sequence && History(j1.hash) <= History(j2.hash)
  }

  lemma AppendValid(j: Journal, c: Change)
    requires Valid(j) && j.sequence < MAX_UINT64
    ensures var j2 := Append(j, c).value;
            && Valid(j2)
            && History(j2.hash) == History(j.hash) + [c.(sequence := j.sequence + 1)]
            && Dropped(j2) == Dropped(j)
  {
    var j2 := Append(j, c).value;
    var h, h2 := History(j.hash), History(j2.hash);
    DigestRoundTrip(j2.hash);
    assert h2 == h + [c.(sequence := j.sequence + 1)];
    forall k | 0 <= k < |j2.records| ensures RetainedAt(j2, k) {
      if k < |j.records| {
        StillRetained(j, j2, k);
      } else {
        assert h2[..|h2|] == h2;
      }
    }
  }

  lemma StillRetained(j: Journal, j2: Journal, k: int)
    requires 0 <= k < |j.records| && |j.records| <= |History(j.hash)| && RetainedAt(j, k)
    requires |j2.records| == |j.records| + 1 && j2.records[k] == j.records[k]
    requires History(j.hash) <= History(j2.hash) && |History(j2.hash)| == |History(j.hash)| + 1
    ensures RetainedAt(j2, k)
  {
    hide History, DigestOf;
    var h, h2, n := History(j.hash), History(j2.hash), |History(j.hash)| - |j.records| + k;
    assert h2[..n + 1] == h[..n + 1];
  }

  lemma TruncateValid(j: Journal)
    requires Valid(j)
    ensures Valid(Truncate(j)) && Truncate(j).hash == j.hash
    ensures |Truncate(j).records| <= CHANGE_RETENTION
  {
    var t := Truncate(j);
    forall k | 0 <= k < |t.records| ensures RetainedAt(t, k) {
      assert RetainedAt(j, k + |j.records| - |t.records|);
    }
  }

  // --------------------------------------------------------------- positions

  /** validateSyncLocked */
  predicate Accepts(j: Journal, p: Position) {
    && p.epoch == j.epoch && p.sequence <= j.sequence
    && (|| (p.sequence == j.sequence && p.hash == j.hash)
        || (p.sequence == 0 && p.hash == Unhashed && (|j.records| == 0 || j.records[0].change.sequence == 1))
        || exists k :: 0 <= k < |j.records| && j.records[k].change.sequence == p.sequence
                       && j.records[k].hash == p.hash)
  }

  /** p was issued by a catalog whose history up to p is a prefix of j's. */
  ghost predicate OnHistory(j: Journal, p: Position) {
    && p.epoch == j.epoch
    && p.sequence <= |History(j.hash)|
    && p.hash == DigestOf(History(j.hash)[..p.sequence])
  }

  /** A position is accepted exactly when its whole past is a prefix of this
      journal's past and the record it points at has not been forgotten. */
  lemma AcceptsExact(j: Journal, p: Position)
    requires Valid(j)
    ensures Accepts(j, p) <==>
            OnHistory(j, p) && (p.sequence == j.sequence || p.sequence > Dropped(j) || (p.sequence == 0 == Dropped(j)))
  {
    var h := History(j.hash);
    DigestRoundTrip(j.hash);
    assert h[..j.sequence] == h;
    if |j.records| > 0 {
      assert RetainedAt(j, 0);
    }
    if OnHistory(j, p) && p.sequence > Dropped(j) {
      var k := p.sequence - 1 - Dropped(j);
      assert RetainedAt(j, k);
    }
    if Accepts(j, p) {
      if k :| 0 <= k < |j.records| && j.records[k].change.sequence == p.sequence && j.records[k].hash == p.hash {
        assert RetainedAt(j, k);
      }
    }
  }

  /** Branch detection: if a position issued by one catalog is accepted by
      another, both catalogs share their whole history up to that position. */
  lemma BranchDetected(issuer: Journal, p: Position, other: Journal)
    requires Valid(issuer) && Valid(other)
    requires OnHistory(issuer, p)
    ensures Accepts(other, p) ==>
            History(issuer.hash)[..p.sequence] == History(other.hash)[..p.sequence]
    ensures p.sequence > other.sequence ==> !Accepts(other, p)
  {
    AcceptsExact(other, p);
    if OnHistory(other, p) {
      HistoryRoundTrip(History(issuer.hash)[..p.sequence]);
      HistoryRoundTrip(History(other.hash)[..p.sequence]);
    }
  }

  // ------------------------------------------------------------------ mirrors

  /** What a device keeps of the catalog. */
  datatype Mirror = Mirror(files: map<string, File>, albums: map<string, Album>,
                           folders: map<string, Folder>, sources: map<string, Mapping>)

  function Apply(m: Mirror, c: Change): Mirror {
    match c.body
    case FileBody(f) => m.(files := m.files[c.id := Normal(f)])
    case AlbumBody(a) => m.(albums := m.albums[c.id := a])
    case FolderBody(f) => m.(folders := m.folders[c.id := f])
    case MappingBody(s) => m.(sources := m.sources[c.id := s])
    case Nothing =>
      match c.kind
      case AlbumKind => m.(albums := m.albums - {c.id})
      case CollectionKind => m.(folders := m.folders - {c.id})
      case MappingKind => m.(sources := m.sources - {c.id})
      case _ => m.(files := m.files - {c.id})
  }

  ghost function Replay(m: Mirror, changes: seq<Change>): Mirror {
    if changes == [] then m else Apply(Replay(m, changes[..|changes| - 1]), changes[|changes| - 1])
  }

  lemma {:induction false} ReplayConcat(m: Mirror, a: seq<Change>, b: seq<Change>)
    ensures Replay(m, a + b) == Replay(Replay(m, a), b)
  {
    if b == [] {
      assert a + b == a;
    } else {
      ReplayConcat(m, a, b[..|b| - 1]);
      assert (a + b)[..|a + b| - 1] == a + b[..|b| - 1];
    }
  }

  // ------------------------------------------------------ rows of a state tree

  /** Rows written over a map one after another, as a Go loop fills a map. */
  function Overlay<V>(base: map<string, V>, rows: seq<(string, V)>): map<string, V> {
    if rows == [] then base else
    Overlay(base, rows[..|rows| - 1])[rows[|rows| - 1].0 := rows[|rows| - 1].1]
  }

  function FileRows(files: seq<File>): (rows: seq<(string, File)>)
    ensures |rows| == |files|
  {
    seq(|files|, i requires 0 <= i < |files| => (files[i].id, Normal(files[i])))
  }

  function AlbumRows(albums: seq<Album>): (rows: seq<(string, Album)>)
    ensures |rows| == |albums|
  {
    seq(|albums|, i requires 0 <= i < |albums| => (albums[i].id, albums[i]))
  }

  function FolderRows(folders: seq<Folder>): (rows: seq<(string, Folder)>)
    ensures |rows| == |folders|
  {
    seq(|folders|, i requires 0 <= i < |folders| => (folders[i].id, folders[i]))
  }

  function MirrorOf(t: Tree): Mirror {
    Mirror(Overlay(map[], FileRows(t.files)), Overlay(map[], AlbumRows(t.albums)),
           Overlay(map[], FolderRows(t.folders)), t.sources)
  }

  ghost predicate DistinctKeys<V>(rows: seq<(string, V)>) {
    forall i, j :: 0 <= i < j < |rows| ==> rows[i].0 != rows[j].0
  }

  lemma {:induction false} OverlayKeys<V>(base: map<string, V>, rows: seq<(string, V)>, key: string)
    ensures key in Overlay(base, rows) <==> key in base || exists i :: 0 <= i < |rows| && rows[i].0 == key
    ensures (forall i :: 0 <= i < |rows| ==> rows[i].0 != key) && key in base ==> Overlay(base, rows)[key] == base[key]
  {
    if rows != [] {
      var n := |rows| - 1;
      OverlayKeys(base, rows[..n], key);
      if rows[n].0 != key && exists i :: 0 <= i < |rows| && rows[i].0 == key {
        var i :| 0 <= i < |rows| && rows[i].0 == key;
        assert rows[..n][i].0 == key;
      }
    }
  }

  lemma {:induction false} OverlayAt<V>(base: map<string, V>, rows: seq<(string, V)>, i: int)
    requires DistinctKeys(rows) && 0 <= i < |rows|
    ensures rows[i].0 in Overlay(base, rows) && Overlay(base, rows)[rows[i].0] == rows[i].1
  {
    var n := |rows| - 1;
    if i < n {
      OverlayAt(base, rows[..n], i);
    }
  }

  /** Overlaying distinct rows and dropping every other key forgets the base. */
  lemma OverlayForgets<V>(base: map<string, V>, rows: seq<(string, V)>, gone: set<string>)
    requires DistinctKeys(rows)
    requires forall k :: k in gone <==> k in base && forall i :: 0 <= i < |rows| ==> rows[i].0 != k
    ensures Overlay(base, rows) - gone == Overlay(map[], rows)
  {
    var left, right := Overlay(base, rows) - gone, Overlay(map[], rows);
    forall k ensures k in left <==> k in right {
      OverlayKeys(base, rows, k);
      OverlayKeys(map[], rows, k);
    }
    forall k | k in left ensures left[k] == right[k] {
      OverlayKeys(map[], rows, k);
      var i :| 0 <= i < |rows| && rows[i].0 == k;
      OverlayAt(base, rows, i);
      OverlayAt(map[], rows, i);
    }
  }

  lemma OverlaySnoc<V>(base: map<string, V>, rows: seq<(string, V)>, row: (string, V))
    ensures Overlay(base, rows + [row]) == Overlay(base, rows)[row.0 := row.1]
  {
    assert (rows + [row])[..|rows|] == rows;
  }
}
