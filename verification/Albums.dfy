/** Photo albums: saving one, changing its members, and pairing a still with its
    motion component without ever leaving the motion in an album. */
module Albums {
  import opened Prelude
  import opened Entries
  import opened Journals
  import opened Collections
  import opened Paths

  function LowerChar(c: char): char {
    if 'A' <= c <= 'Z' then c - 'A' + 'a' else c
  }

  function Lower(s: string): string {
    seq(|s|, i requires 0 <= i < |s| => LowerChar(s[i]))
  }

  /** path.Ext: from the last dot of the last path element. */
  function Ext(path: string): string {
    ExtFrom(path, |path|)
  }

  function ExtFrom(path: string, i: nat): string
    requires i <= |path|
  {
    if i == 0 || path[i - 1] == '/' then ""
    else if path[i - 1] == '.' then path[i - 1..]
    else ExtFrom(path, i - 1)
  }

  const PHOTO_EXTENSIONS: set<string> :=
    {".dng", ".opaque", ".jpg", ".jpeg", ".png", ".gif", ".webp", ".heic", ".heif", ".avif", ".tif", ".tiff",
     ".mp4", ".mov", ".m4v", ".webm", ".mkv"}

  /** photoAlbumMember */
  predicate AlbumMember(f: File) {
    && f.present && !f.folder && f.parentId == "" && "Photos/" <= f.path
    && (|f.components| > 0 || Lower(Ext(f.path)) in PHOTO_EXTENSIONS)
  }

  predicate MayJoin(files: seq<File>, id: string) {
    exists i :: 0 <= i < |files| && files[i].id == id && AlbumMember(files[i])
  }

  /** No album lists an entry that is the motion component of another. */
  ghost predicate MotionFree(files: seq<File>, albums: seq<Album>) {
    forall a, id, i :: 0 <= a < |albums| && id in albums[a].assets && 0 <= i < |files| && files[i].id == id ==>
        files[i].parentId == ""
  }

  /** A step that frees no motion of its album lists brings none in either. */
  ghost predicate StaysFree(files: seq<File>, albums: seq<Album>, after: seq<File>, next: seq<Album>) {
    MotionFree(files, albums) ==> MotionFree(after, next)
  }

  ghost predicate DistinctAlbums(albums: seq<Album>) {
    forall i, j :: 0 <= i < j < |albums| ==> albums[i].id != albums[j].id
  }

  function AlbumIndex(albums: seq<Album>, id: string, from: nat): (k: int)
    requires from <= |albums|
    ensures -1 <= k < |albums|
    ensures k >= 0 ==> from <= k && albums[k].id == id
    ensures k < 0 ==> forall i :: from <= i < |albums| ==> albums[i].id != id
    decreases |albums| - from
  {
    if from == |albums| then -1 else if albums[from].id == id then from else AlbumIndex(albums, id, from + 1)
  }

  // ---------------------------------------------------------------- SaveAlbum

  datatype AlbumInput = AlbumInput(id: string, revision: uint64, title: string, description: string, coverId: string,
                                   position: int, parentId: string, parentSet: bool, assets: Option<seq<string>>)

  const ALBUM_CAPACITY: nat := 100000

  predicate GoodIds(ids: seq<string>) {
    (forall i :: 0 <= i < |ids| ==> ids[i] != "" && |ids[i]| <= 128)
    && forall i, j :: 0 <= i < j < |ids| ==> ids[i] != ids[j]
  }

  predicate GoodInput(input: AlbumInput) {
    && 0 <= input.position <= 100000 && Trim(input.title) != "" && |Trim(input.title)| <= 200
    && |Trim(input.description)| <= 4000
    && (input.id == "" || (|input.id| <= 64 && "pa_" <= input.id))
    && (input.assets.Some? ==>
          |input.assets.value| <= ALBUM_CAPACITY && GoodIds(input.assets.value)
          && (input.coverId != "" ==> input.coverId in input.assets.value))
  }

  function Assets(input: AlbumInput): seq<string> {
    if input.assets.Some? then input.assets.value else []
  }

  /** SaveAlbum; the fresh id already carries its prefix. */
  function SaveAlbum(files: seq<File>, albums: seq<Album>, folders: seq<Folder>, input: AlbumInput,
                     id: string): Result<seq<Album>>
  {
    var creating := input.id == "";
    if !GoodInput(input) then Err(AlbumInvalid) else
    match if input.parentSet || creating then ValidateParent(folders, input.parentId, "") else None
    case Some(e) => Err(e)
    case None =>
      if exists x :: x in Assets(input) && !MayJoin(files, x) then Err(NotFound) else
      var k := AlbumIndex(albums, if creating then id else input.id, 0);
      if k >= 0 then
        match Revised(albums[k], input, if creating then 1 else input.revision)
        case Err(e) => Err(e)
        case Ok(a) => Ok(albums[k := a])
      else if !creating then Err(AlbumNotFound)
      else Ok(albums + [Album(id, 1, Trim(input.title), Trim(input.description), input.coverId, input.position,
                              input.parentId, Assets(input))])
  }

  function Revised(prior: Album, input: AlbumInput, revision: uint64): Result<Album> {
    if revision != prior.revision then Err(RevisionMismatch)
    else if prior.revision == MAX_UINT64 then Err(RevisionOverflow)
    else
      var assets := if input.assets.Some? then input.assets.value else prior.assets;
      var cover := if input.coverId == "" then prior.coverId else input.coverId;
      if cover != "" && cover !in assets then Err(AlbumInvalid)
      else Ok(Album(prior.id, prior.revision + 1, Trim(input.title), Trim(input.description), cover, input.position,
                    if input.parentSet then input.parentId else prior.parentId, assets))
  }

  lemma WalkFindsParent(folders: seq<Folder>, parent: string)
    requires ValidateParent(folders, parent, "").None?
    ensures parent == "" || FolderWith(folders, parent).Some?
  {
  }

  /** Saving an album keeps every album attached, and free of linked motions. */
  lemma SaveAlbumKeeps(files: seq<File>, albums: seq<Album>, folders: seq<Folder>, input: AlbumInput, id: string)
    requires UniqueIds(files) && Organised(folders, albums) && DistinctAlbums(albums)
    requires SaveAlbum(files, albums, folders, input, id).Ok?
    ensures var next := SaveAlbum(files, albums, folders, input, id).value;
            StaysFree(files, albums, files, next) && Organised(folders, next) && DistinctAlbums(next)
  {
    hide Walk, AlbumMember, Trim, Forest, DistinctFolders;
    var next := SaveAlbum(files, albums, folders, input, id).value;
    var creating := input.id == "";
    if input.parentSet || creating {
      WalkFindsParent(folders, input.parentId);
    }
    var k := AlbumIndex(albums, if creating then id else input.id, 0);
    var a := next[if k >= 0 then k else |albums|];
    if MotionFree(files, albums) {
      forall x, i | x in a.assets && 0 <= i < |files| && files[i].id == x ensures files[i].parentId == "" {
        if x in Assets(input) {
          JoinersAreFree(files, x, i);
        }
      }
    }
    assert forall i :: 0 <= i < |albums| ==> albums[i] in albums;
    assert a.parentId == "" || FolderWith(folders, a.parentId).Some?;
  }

  lemma JoinersAreFree(files: seq<File>, id: string, i: int)
    requires UniqueIds(files) && MayJoin(files, id) && 0 <= i < |files| && files[i].id == id
    ensures files[i].parentId == ""
  {
    var k :| 0 <= k < |files| && files[k].id == id && AlbumMember(files[k]);
    UniqueIdsFind(files, i, k);
  }

  // ------------------------------------------------------- ChangeAlbumMembers

  function Without(ids: seq<string>, removed: seq<string>): (r: seq<string>)
    ensures |r| <= |ids|
    ensures forall x :: x in r <==> x in ids && x !in removed
  {
    if ids == [] then [] else
    var n := |ids| - 1;
    assert ids == ids[..n] + [ids[n]];
    Without(ids[..n], removed) + if ids[n] in removed then [] else [ids[n]]
  }

  /** The members after the first n additions. */
  function Extended(files: seq<File>, members: seq<string>, add: seq<string>, n: nat): Result<seq<string>>
    requires n <= |add|
  {
    if n == 0 then Ok(members) else
    match Extended(files, members, add, n - 1)
    case Err(e) => Err(e)
    case Ok(sofar) =>
      var x := add[n - 1];
      if x == "" || |x| > 128 then Err(AlbumInvalid)
      else if x in sofar then Ok(sofar)
      else if !MayJoin(files, x) then Err(NotFound)
      else Ok(sofar + [x])
  }

  function ChangeMembers(files: seq<File>, albums: seq<Album>, id: string, revision: uint64, add: seq<string>,
                         remove: seq<string>): Result<seq<Album>>
  {
    var k := AlbumIndex(albums, id, 0);
    if k < 0 then Err(AlbumNotFound)
    else if albums[k].revision != revision then Err(RevisionMismatch)
    else if |add| + |remove| > ALBUM_CAPACITY || exists x :: x in remove && (x == "" || |x| > 128)
        then Err(AlbumInvalid)
    else
      match Extended(files, Without(albums[k].assets, remove), add, |add|)
      case Err(e) => Err(e)
      case Ok(members) =>
        if |members| > ALBUM_CAPACITY then Err(AlbumInvalid)
        else if revision == MAX_UINT64 then Err(RevisionOverflow)
        else
          var cover := if albums[k].coverId in remove then "" else albums[k].coverId;
          Ok(albums[k := albums[k].(revision := revision + 1, assets := members,
                                    coverId := if cover == "" && |members| > 0 then members[0] else cover)])
  }

  lemma {:induction false} ExtendedMembers(files: seq<File>, members: seq<string>, add: seq<string>, n: nat)
    requires n <= |add| && Extended(files, members, add, n).Ok?
    ensures var r := Extended(files, members, add, n).value;
            && (forall x :: x in r <==> x in members || x in add[..n])
            && (forall x :: x in r ==> x in members || MayJoin(files, x))
  {
    if n > 0 {
      ExtendedMembers(files, members, add, n - 1);
      assert add[..n] == add[..n - 1] + [add[n - 1]];
    }
  }

  /** The new members are exactly the old ones minus the removed plus the added,
      all still free of linked motions. */
  lemma ChangeMembersKeeps(files: seq<File>, albums: seq<Album>, folders: seq<Folder>, id: string, revision: uint64,
                           add: seq<string>, remove: seq<string>)
    requires UniqueIds(files) && Organised(folders, albums) && DistinctAlbums(albums)
    requires ChangeMembers(files, albums, id, revision, add, remove).Ok?
    ensures var next, k := ChangeMembers(files, albums, id, revision, add, remove).value, AlbumIndex(albums, id, 0);
            && StaysFree(files, albums, files, next) && Organised(folders, next) && DistinctAlbums(next)
            && 0 <= k < |next| == |albums| && next == albums[k := next[k]]
            && (forall x :: x in next[k].assets <==> (x in albums[k].assets && x !in remove) || x in add)
  {
    hide AlbumMember, Forest, DistinctFolders, Extended;
    var next, k := ChangeMembers(files, albums, id, revision, add, remove).value, AlbumIndex(albums, id, 0);
    ExtendedMembers(files, Without(albums[k].assets, remove), add, |add|);
    assert add[..|add|] == add;
    if MotionFree(files, albums) {
      forall x, i | x in next[k].assets && 0 <= i < |files| && files[i].id == x ensures files[i].parentId == "" {
        if x !in albums[k].assets {
          JoinersAreFree(files, x, i);
        }
      }
    }
    assert forall i :: 0 <= i < |albums| ==> albums[i] in albums;
  }

  /** DeleteAlbum; revision zero means unconditional. */
  function DeleteAlbum(albums: seq<Album>, id: string, revision: uint64): Result<seq<Album>> {
    var k := AlbumIndex(albums, id, 0);
    if k < 0 then Err(AlbumNotFound)
    else if revision != 0 && revision != albums[k].revision then Err(RevisionMismatch)
    else Ok(albums[..k] + albums[k + 1..])
  }

  lemma DeleteAlbumKeeps(files: seq<File>, albums: seq<Album>, folders: seq<Folder>, id: string, revision: uint64)
    requires Organised(folders, albums) && DistinctAlbums(albums)
    requires DeleteAlbum(albums, id, revision).Ok?
    ensures var next := DeleteAlbum(albums, id, revision).value;
            StaysFree(files, albums, files, next) && Organised(folders, next) && DistinctAlbums(next)
            && forall a :: a in next <==> a in albums && a.id != id
  {
    hide Forest, DistinctFolders;
    var next, k := DeleteAlbum(albums, id, revision).value, AlbumIndex(albums, id, 0);
    forall a ensures a in next <==> a in albums && a.id != id {
      if a in albums {
        var i :| 0 <= i < |albums| && albums[i] == a;
        if i < k {
          assert next[i] == a;
        } else if i > k {
          assert next[i - 1] == a;
        }
      }
    }
  }
}
