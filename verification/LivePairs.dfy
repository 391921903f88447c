/** Live photos: linking a still with its motion component and unlinking them. */
module LivePairs {
  import opened Prelude
  import opened Entries
  import opened Collections
  import opened Albums

  predicate EndsWith(s: string, suffix: string) {
    |suffix| <= |s| && s[|s| - |suffix|..] == suffix
  }

  /** pairMediaType */
  function PairMediaType(name: string): string {
    var lower := Lower(name);
    if EndsWith(lower, ".heic") || EndsWith(lower, ".heif") then "image/heic"
    else if EndsWith(lower, ".jpg") || EndsWith(lower, ".jpeg") then "image/jpeg"
    else if EndsWith(lower, ".mov") then "video/quicktime"
    else if EndsWith(lower, ".mp4") then "video/mp4"
    else "application/octet-stream"
  }

  /** The present entry with an id, scanning to the end. */
  function PresentIndex(files: seq<File>, id: string): (k: int)
    ensures -1 <= k < |files|
    ensures k >= 0 ==> files[k].id == id && files[k].present
    ensures k < 0 ==> forall i :: 0 <= i < |files| ==> files[i].id != id || !files[i].present
  {
    PresentBefore(files, id, |files|)
  }

  function PresentBefore(files: seq<File>, id: string, n: nat): (k: int)
    requires n <= |files|
    ensures -1 <= k < n
    ensures k >= 0 ==> files[k].id == id && files[k].present
    ensures k < 0 ==> forall i :: 0 <= i < n ==> files[i].id != id || !files[i].present
  {
    if n == 0 then -1
    else if files[n - 1].id == id && files[n - 1].present then n - 1
    else PresentBefore(files, id, n - 1)
  }

  datatype Paired = Paired(files: seq<File>, albums: seq<Album>)

  // -------------------------------------------------------------- album sides

  /** One album when the motion is linked: the still takes its place. */
  function Handed(a: Album, still: string, motion: string): Result<Album> {
    if motion !in a.assets then Ok(a)
    else if a.revision == MAX_UINT64 then Err(RevisionOverflow)
    else
      var left := Albums.Without(a.assets, [motion]);
      Ok(a.(revision := a.revision + 1, assets := if still in left then left else left + [still]))
  }

  /** One album when the motion is unlinked: it returns where it was taken from. */
  function Returned(a: Album, motion: string, from: seq<string>): Result<Album> {
    if a.id !in from || motion in a.assets then Ok(a)
    else if a.revision == MAX_UINT64 then Err(RevisionOverflow)
    else Ok(a.(revision := a.revision + 1, assets := a.assets + [motion]))
  }

  function HandAll(albums: seq<Album>, still: string, motion: string): (r: Result<seq<Album>>)
    ensures r.Ok? ==> |r.value| == |albums|
  {
    if albums == [] then Ok([]) else
    var n := |albums| - 1;
    match HandAll(albums[..n], still, motion)
    case Err(e) => Err(e)
    case Ok(done) =>
      match Handed(albums[n], still, motion)
      case Err(e) => Err(e)
      case Ok(a) => Ok(done + [a])
  }

  function ReturnAll(albums: seq<Album>, motion: string, from: seq<string>): (r: Result<seq<Album>>)
    ensures r.Ok? ==> |r.value| == |albums|
  {
    if albums == [] then Ok([]) else
    var n := |albums| - 1;
    match ReturnAll(albums[..n], motion, from)
    case Err(e) => Err(e)
    case Ok(done) =>
      match Returned(albums[n], motion, from)
      case Err(e) => Err(e)
      case Ok(a) => Ok(done + [a])
  }

  /** The albums a motion is taken from. */
  function Holders(albums: seq<Album>, motion: string): (ids: seq<string>)
    ensures forall x :: x in ids <==> exists i :: 0 <= i < |albums| && albums[i].id == x && motion in albums[i].assets
  {
    if albums == [] then [] else
    var n := |albums| - 1;
    assert forall i :: 0 <= i < n ==> albums[..n][i] == albums[i];
    Holders(albums[..n], motion) + if motion in albums[n].assets then [albums[n].id] else []
  }

  lemma {:induction false} HandedAt(albums: seq<Album>, still: string, motion: string, i: int)
    requires HandAll(albums, still, motion).Ok? && 0 <= i < |albums|
    ensures Handed(albums[i], still, motion).Ok?
            && HandAll(albums, still, motion).value[i] == Handed(albums[i], still, motion).value
  {
    if i < |albums| - 1 {
      HandedAt(albums[..|albums| - 1], still, motion, i);
    }
  }

  lemma {:induction false} ReturnedAt(albums: seq<Album>, motion: string, from: seq<string>, i: int)
    requires ReturnAll(albums, motion, from).Ok? && 0 <= i < |albums|
    ensures Returned(albums[i], motion, from).Ok?
            && ReturnAll(albums, motion, from).value[i] == Returned(albums[i], motion, from).value
  {
    if i < |albums| - 1 {
      ReturnedAt(albums[..|albums| - 1], motion, from, i);
    }
  }

  // ------------------------------------------------------------------ pairing

  function Linked(still: File, motion: File, holders: seq<string>): (File, File)
    requires still.revision < MAX_UINT64 && motion.revision < MAX_UINT64
  {
    (still.(revision := still.revision + 1,
            components := [Component("original", still.id, PairMediaType(still.path)),
                           Component("motion", motion.id, PairMediaType(motion.path))]),
     motion.(revision := motion.revision + 1, parentId := still.id, pairAlbums := motion.pairAlbums + holders))
  }

  function Unlinked(still: File, motion: File): (File, File)
    requires still.revision < MAX_UINT64 && motion.revision < MAX_UINT64
  {
    (still.(revision := still.revision + 1, components := []),
     motion.(revision := motion.revision + 1, parentId := "", pairAlbums := []))
  }

  predicate MayPair(still: File, motion: File) {
    && motion.parentId == "" && |still.components| <= 1 && |motion.components| <= 1
    && still.hidden == motion.hidden && still.details.archived == motion.details.archived
    && still.details.favorite == motion.details.favorite
  }

  /** SetLivePhotoPair; None when the pair already stands. */
  function SetPair(files: seq<File>, albums: seq<Album>, stillId: string, motionId: string, stillRevision: uint64,
                   motionRevision: uint64, unlink: bool): Result<Option<Paired>>
  {
    var a, b := PresentIndex(files, stillId), PresentIndex(files, motionId);
    if a < 0 || b < 0 || a == b then Err(NotFound) else
    var still, motion := files[a], files[b];
    if still.revision != stillRevision || motion.revision != motionRevision then Err(RevisionMismatch)
    else if still.revision == MAX_UINT64 || motion.revision == MAX_UINT64 then Err(RevisionOverflow)
    else if still.folder || motion.folder || still.parentId != "" then Err(Conflict)
    else if unlink then
      if motion.parentId != still.id then Err(Conflict) else
      match ReturnAll(albums, motionId, motion.pairAlbums)
      case Err(e) => Err(e)
      case Ok(next) => var (s, m) := Unlinked(still, motion); Ok(Some(Paired(files[a := s][b := m], next)))
    else if motion.parentId == stillId && |still.components| == 2 then Ok(None)
    else if !MayPair(still, motion) then Err(Conflict)
    else
      match HandAll(albums, stillId, motionId)
      case Err(e) => Err(e)
      case Ok(next) =>
        var (s, m) := Linked(still, motion, Holders(albums, motionId));
        Ok(Some(Paired(files[a := s][b := m], next)))
  }

  /** Two slots moved on, both in place. */
  lemma PairEvolves(files: seq<File>, a: int, b: int, s: File, m: File)
    requires UniqueIds(files) && 0 <= a < |files| && 0 <= b < |files| && a != b
    requires s.id == files[a].id && files[a].revision < s.revision && s.present == files[a].present
             && s.path == files[a].path
    requires m.id == files[b].id && files[b].revision < m.revision && m.present == files[b].present
             && m.path == files[b].path
    ensures var next := files[a := s][b := m];
            UniqueIds(next) && Evolves(files, next) && (UniquePaths(files) ==> UniquePaths(next))
  {
    hide Evolves, UniqueIds, UniquePaths;
    var next := files[a := s][b := m];
    assert forall i :: 0 <= i < |files| ==> next[i].id == files[i].id;
    SlotwiseEvolves(files, next);
    PlacesKept(files, next);
  }

  lemma PlacesKept(files: seq<File>, next: seq<File>)
    requires |next| == |files| && forall i :: 0 <= i < |files| ==>
      next[i].id == files[i].id && next[i].present == files[i].present && next[i].path == files[i].path
    ensures UniqueIds(files) ==> UniqueIds(next)
    ensures UniquePaths(files) ==> UniquePaths(next)
  {
    if UniquePaths(files) {
      forall i, j | 0 <= i < j < |next| && next[i].present && next[j].present ensures next[i].path != next[j].path {
        assert files[i].path != files[j].path;
      }
    }
    if UniqueIds(files) {
      forall i, j | 0 <= i < j < |next| ensures next[i].id != next[j].id {
        assert files[i].id != files[j].id;
      }
    }
  }

  lemma ListedAreFree(files: seq<File>, albums: seq<Album>, c: int, id: string, i: int)
    requires MotionFree(files, albums) && 0 <= c < |albums| && id in albums[c].assets && 0 <= i < |files|
             && files[i].id == id
    ensures files[i].parentId == ""
  {
  }

  /** Linking: the motion leaves every album, the still stands in for it, and the
      albums it left are remembered. */
  lemma LinkKeepsMotionFree(files: seq<File>, albums: seq<Album>, a: int, b: int)
    requires UniqueIds(files) && MotionFree(files, albums) && 0 <= a < |files| && 0 <= b < |files| && a != b
    requires files[a].revision < MAX_UINT64 && files[b].revision < MAX_UINT64 && files[a].parentId == ""
    requires HandAll(albums, files[a].id, files[b].id).Ok?
    ensures var (s, m) := Linked(files[a], files[b], Holders(albums, files[b].id));
            MotionFree(files[a := s][b := m], HandAll(albums, files[a].id, files[b].id).value)
  {
    var (s, m) := Linked(files[a], files[b], Holders(albums, files[b].id));
    var next, after := files[a := s][b := m], HandAll(albums, files[a].id, files[b].id).value;
    hide PairMediaType, HandAll, MotionFree, UniqueIds;
    forall c, id, i | 0 <= c < |after| && id in after[c].assets && 0 <= i < |next| && next[i].id == id
      ensures next[i].parentId == ""
    {
      HandedAt(albums, files[a].id, files[b].id, c);
      UniqueIdsFind(files, b, if files[i].id == files[b].id then i else b);
      if i != a && i != b {
        assert files[a].id != id by {
          UniqueIdsFind(files, a, if files[i].id == files[a].id then i else a);
        }
        ListedAreFree(files, albums, c, id, i);
      }
    }
    assert MotionFree(next, after) by {
      MotionFreeIs(next, after);
    }
  }

  lemma MotionFreeIs(files: seq<File>, albums: seq<Album>)
    requires forall a, id, i ::
               0 <= a < |albums| && id in albums[a].assets && 0 <= i < |files| && files[i].id == id ==>
               files[i].parentId == ""
    ensures MotionFree(files, albums)
  {
  }

  lemma UnlinkKeepsMotionFree(files: seq<File>, albums: seq<Album>, a: int, b: int)
    requires UniqueIds(files) && MotionFree(files, albums) && 0 <= a < |files| && 0 <= b < |files| && a != b
    requires files[a].revision < MAX_UINT64 && files[b].revision < MAX_UINT64 && files[a].parentId == ""
    requires ReturnAll(albums, files[b].id, files[b].pairAlbums).Ok?
    ensures var (s, m) := Unlinked(files[a], files[b]);
            MotionFree(files[a := s][b := m], ReturnAll(albums, files[b].id, files[b].pairAlbums).value)
  {
    var (s, m) := Unlinked(files[a], files[b]);
    var next, after := files[a := s][b := m], ReturnAll(albums, files[b].id, files[b].pairAlbums).value;
    hide ReturnAll, MotionFree, UniqueIds;
    forall c, id, i | 0 <= c < |after| && id in after[c].assets && 0 <= i < |next| && next[i].id == id
      ensures next[i].parentId == ""
    {
      ReturnedAt(albums, files[b].id, files[b].pairAlbums, c);
      if i != a && i != b {
        assert files[b].id != id by {
          UniqueIdsFind(files, b, if files[i].id == files[b].id then i else b);
        }
        ListedAreFree(files, albums, c, id, i);
      }
    }
    MotionFreeIs(next, after);
  }

  /** Pairing in either direction keeps ids, paths and revisions in order, leaves
      every other entry alone, and never leaves a linked motion in an album. */
  lemma SetPairKeeps(files: seq<File>, albums: seq<Album>, stillId: string, motionId: string, stillRevision: uint64,
                     motionRevision: uint64, unlink: bool)
    requires UniqueIds(files)
    requires var r := SetPair(files, albums, stillId, motionId, stillRevision, motionRevision, unlink);
               r.Ok? && r.value.Some?
    ensures var next := SetPair(files, albums, stillId, motionId, stillRevision, motionRevision, unlink).value.value;
            && UniqueIds(next.files) && Evolves(files, next.files) && (UniquePaths(files) ==> UniquePaths(next.files))
            && StaysFree(files, albums, next.files, next.albums) && |next.files| == |files|
            && forall i :: 0 <= i < |files| && files[i].id != stillId && files[i].id != motionId ==>
                next.files[i] == files[i]
  {
    var a, b := PresentIndex(files, stillId), PresentIndex(files, motionId);
    hide PairMediaType, HandAll, ReturnAll, Evolves, MotionFree, UniqueIds, UniquePaths;
    if unlink {
      var (s, m) := Unlinked(files[a], files[b]);
      PairEvolves(files, a, b, s, m);
      if MotionFree(files, albums) {
        UnlinkKeepsMotionFree(files, albums, a, b);
      }
    } else {
      var (s, m) := Linked(files[a], files[b], Holders(albums, motionId));
      PairEvolves(files, a, b, s, m);
      if MotionFree(files, albums) {
        LinkKeepsMotionFree(files, albums, a, b);
      }
    }
  }

  /** Linking and then unlinking puts the motion back into exactly the albums it
      was listed in; the entries differ from before only in their revisions, the
      still's own components being dropped. */
  lemma PairRoundTrip(files: seq<File>, albums: seq<Album>, stillId: string, motionId: string, r: uint64, q: uint64)
    requires UniqueIds(files) && DistinctAlbums(albums)
    requires var k := PresentIndex(files, motionId); k >= 0 && files[k].pairAlbums == []
    requires var p := SetPair(files, albums, stillId, motionId, r, q, false); p.Ok? && p.value.Some?
    requires r + 1 < MAX_UINT64 && q + 1 < MAX_UINT64
    requires forall i :: 0 <= i < |albums| ==> albums[i].revision + 2 <= MAX_UINT64
    ensures var mid := SetPair(files, albums, stillId, motionId, r, q, false).value.value;
            var back := SetPair(mid.files, mid.albums, stillId, motionId, r + 1, q + 1, true);
            && back.Ok? && back.value.Some?
            && (var end := back.value.value;
                && |end.albums| == |albums|
                && forall c :: 0 <= c < |albums| ==>
                    (motionId in end.albums[c].assets <==> motionId in albums[c].assets))
  {
    hide PairMediaType, HandAll, ReturnAll, UniqueIds, MotionFree, DistinctAlbums, SetPair;
    var mid := SetPair(files, albums, stillId, motionId, r, q, false).value.value;
    LinkResult(files, albums, stillId, motionId, r, q);
    HandedAll(albums, stillId, motionId);
    var holders := Holders(albums, motionId);
    ReturnsAll(mid.albums, motionId, holders);
    UnlinkResult(mid.files, mid.albums, stillId, motionId, r + 1, q + 1);
    forall c | 0 <= c < |albums| ensures
      motionId in ReturnAll(mid.albums, motionId, holders).value[c].assets <==> motionId in albums[c].assets
    {
      ReturnedAt(mid.albums, motionId, holders, c);
      HeldExactly(albums, motionId, c);
    }
  }

  lemma HeldExactly(albums: seq<Album>, motion: string, c: int)
    requires DistinctAlbums(albums) && 0 <= c < |albums|
    ensures albums[c].id in Holders(albums, motion) <==> motion in albums[c].assets
  {
    if albums[c].id in Holders(albums, motion) {
      var i :| 0 <= i < |albums| && albums[i].id == albums[c].id && motion in albums[i].assets;
      assert i == c;
    }
  }

  lemma HandedAll(albums: seq<Album>, still: string, motion: string)
    requires HandAll(albums, still, motion).Ok? && still != motion
    ensures forall c :: 0 <= c < |albums| ==>
      var a := HandAll(albums, still, motion).value[c];
      a.id == albums[c].id && motion !in a.assets && a.revision <= albums[c].revision + 1
  {
    forall c | 0 <= c < |albums|
      ensures var a := HandAll(albums, still, motion).value[c];
              a.id == albums[c].id && motion !in a.assets && a.revision <= albums[c].revision + 1
    {
      HandedAt(albums, still, motion, c);
    }
  }

  /** What a successful link leaves behind. */
  lemma LinkResult(files: seq<File>, albums: seq<Album>, stillId: string, motionId: string, r: uint64, q: uint64)
    requires UniqueIds(files)
    requires var k := PresentIndex(files, motionId); k >= 0 && files[k].pairAlbums == []
    requires var p := SetPair(files, albums, stillId, motionId, r, q, false); p.Ok? && p.value.Some?
    ensures stillId != motionId && HandAll(albums, stillId, motionId).Ok?
    ensures var mid := SetPair(files, albums, stillId, motionId, r, q, false).value.value;
            && mid.albums == HandAll(albums, stillId, motionId).value
            && IsPair(mid.files, stillId, motionId, r + 1, q + 1, Holders(albums, motionId))
  {
    hide PairMediaType, HandAll, UniqueIds;
    var a, b := PresentIndex(files, stillId), PresentIndex(files, motionId);
    var mid := SetPair(files, albums, stillId, motionId, r, q, false).value.value;
    if stillId == motionId {
      UniqueIdsFind(files, a, b);
    }
    assert a != b;
    PairedIndices(files, mid.files, a, b);
  }

  ghost predicate IsPair(files: seq<File>, stillId: string, motionId: string, r: int, q: int, holders: seq<string>) {
    var a, b := PresentIndex(files, stillId), PresentIndex(files, motionId);
    && a >= 0 && b >= 0 && a != b
    && files[a].revision == r && files[b].revision == q && !files[a].folder && !files[b].folder
    && files[a].parentId == "" && files[b].parentId == stillId && files[b].pairAlbums == holders
  }

  lemma UnlinkResult(files: seq<File>, albums: seq<Album>, stillId: string, motionId: string, r: uint64, q: uint64)
    requires exists holders :: IsPair(files, stillId, motionId, r, q, holders)
    requires r < MAX_UINT64 && q < MAX_UINT64
    requires ReturnAll(albums, motionId, files[PresentIndex(files, motionId)].pairAlbums).Ok?
    ensures var p := SetPair(files, albums, stillId, motionId, r, q, true);
            p.Ok? && p.value.Some?
            && p.value.value.albums == ReturnAll(albums, motionId,
                                                 files[PresentIndex(files, motionId)].pairAlbums).value
  {
    hide HandAll, ReturnAll, PairMediaType;
  }

  lemma PairedIndices(files: seq<File>, next: seq<File>, a: int, b: int)
    requires UniqueIds(files) && 0 <= a < |files| && 0 <= b < |files| && a != b && |next| == |files|
    requires forall i :: 0 <= i < |files| ==> next[i].id == files[i].id && next[i].present == files[i].present
    requires files[a].present && files[b].present
    ensures PresentIndex(next, files[a].id) == a && PresentIndex(next, files[b].id) == b
  {
    assert next[a].id == files[a].id && next[b].id == files[b].id;
    assert forall i, j :: 0 <= i < j < |next| ==> next[i].id != next[j].id;
  }

  lemma {:induction false} ReturnsAll(albums: seq<Album>, motion: string, from: seq<string>)
    requires forall i :: 0 <= i < |albums| ==> albums[i].revision < MAX_UINT64
    ensures ReturnAll(albums, motion, from).Ok?
  {
    if albums != [] {
      ReturnsAll(albums[..|albums| - 1], motion, from);
    }
  }

  /** Albums keep their ids and places, entries their slots. */
  lemma PairRows(files: seq<File>, albums: seq<Album>, stillId: string, motionId: string, r: uint64, q: uint64,
                 unlink: bool)
    requires var p := SetPair(files, albums, stillId, motionId, r, q, unlink); p.Ok? && p.value.Some?
    ensures var next := SetPair(files, albums, stillId, motionId, r, q, unlink).value.value;
            && |next.albums| == |albums| && |next.files| == |files|
            && (forall i :: 0 <= i < |albums| ==>
                next.albums[i].id == albums[i].id && next.albums[i].parentId == albums[i].parentId)
            && forall i :: 0 <= i < |files| ==> next.files[i].id == files[i].id
  {
    hide PairMediaType, HandAll, ReturnAll;
    var b := PresentIndex(files, motionId);
    forall i | 0 <= i < |albums|
      ensures var next := SetPair(files, albums, stillId, motionId, r, q, unlink).value.value;
              next.albums[i].id == albums[i].id && next.albums[i].parentId == albums[i].parentId
    {
      if unlink {
        ReturnedAt(albums, motionId, files[b].pairAlbums, i);
      } else {
        HandedAt(albums, stillId, motionId, i);
      }
    }
  }
}
