/** Collection folders form a forest of bounded depth, and albums hang on it. */
module Collections {
  import opened Prelude
  import opened Entries
  import opened Journals

  const MAXIMUM_DEPTH: nat := 63

  function FolderWith(folders: seq<Folder>, id: string): (f: Option<Folder>)
    ensures f.Some? ==> f.value in folders && f.value.id == id
    ensures f.None? ==> forall g :: g in folders ==> g.id != id
  {
    if folders == [] then None
    else if folders[0].id == id then Some(folders[0])
    else FolderWith(folders[1..], id)
  }

  /** validateCollectionParentLocked from the walk's current folder on. */
  function Walk(folders: seq<Folder>, parent: string, seen: set<string>, depth: nat): Option<Error>
    decreases MAXIMUM_DEPTH - depth
  {
    if parent == "" then None
    else if depth >= MAXIMUM_DEPTH || parent in seen then Some(Descendant)
    else
      match FolderWith(folders, parent)
      case None => Some(NotFound)
      case Some(f) => Walk(folders, f.parentId, seen + {parent}, depth + 1)
  }

  function ValidateParent(folders: seq<Folder>, parent: string, self: string): Option<Error> {
    Walk(folders, parent, {self}, 0)
  }

  // ------------------------------------------------------------- the forest

  /** The root is at most n existing folders up from here. */
  predicate Rooted(folders: seq<Folder>, parent: string, n: nat)
    decreases n
  {
    || parent == ""
    || (n > 0 && FolderWith(folders, parent).Some?
        && Rooted(folders, FolderWith(folders, parent).value.parentId, n - 1))
  }

  ghost predicate DistinctFolders(folders: seq<Folder>) {
    forall i, j :: 0 <= i < j < |folders| ==> folders[i].id != folders[j].id
  }

  /** Parents exist and no folder has more than 63 ancestors. */
  ghost predicate Forest(folders: seq<Folder>) {
    forall f :: f in folders ==> Rooted(folders, f.parentId, MAXIMUM_DEPTH)
  }

  /** Number of folders from here to the root. */
  function Depth(folders: seq<Folder>, parent: string, n: nat): (d: nat)
    requires Rooted(folders, parent, n)
    ensures d <= n && (d == 0 <==> parent == "")
    decreases n
  {
    if parent == "" then 0 else 1 + Depth(folders, FolderWith(folders, parent).value.parentId, n - 1)
  }

  lemma {:induction false} DepthUnique(folders: seq<Folder>, parent: string, n: nat, m: nat)
    requires Rooted(folders, parent, n) && Rooted(folders, parent, m)
    ensures Depth(folders, parent, n) == Depth(folders, parent, m)
    decreases n
  {
    if parent != "" {
      DepthUnique(folders, FolderWith(folders, parent).value.parentId, n - 1, m - 1);
    }
  }

  lemma {:induction false} RootedMore(folders: seq<Folder>, parent: string, n: nat, m: nat)
    requires Rooted(folders, parent, n) && n <= m
    ensures Rooted(folders, parent, m)
    decreases n
  {
    if parent != "" {
      RootedMore(folders, FolderWith(folders, parent).value.parentId, n - 1, m - 1);
    }
  }

  /** The k-th folder up; "" above the root. */
  function Up(folders: seq<Folder>, id: string, k: nat): string
    decreases k
  {
    if k == 0 || id == "" then id else
    match FolderWith(folders, id)
    case None => ""
    case Some(f) => Up(folders, f.parentId, k - 1)
  }

  lemma {:induction false} UpIsShallower(folders: seq<Folder>, id: string, n: nat, k: nat)
    requires Rooted(folders, id, n) && Up(folders, id, k) != ""
    ensures Rooted(folders, Up(folders, id, k), n) && Depth(folders, Up(folders, id, k), n) + k == Depth(folders, id, n)
    decreases n
  {
    if k > 0 && id != "" {
      var parent := FolderWith(folders, id).value.parentId;
      UpIsShallower(folders, parent, n - 1, k - 1);
      RootedMore(folders, Up(folders, id, k), n - 1, n);
      DepthUnique(folders, Up(folders, id, k), n - 1, n);
    }
  }

  /** No folder is its own ancestor. */
  lemma ForestHasNoCycle(folders: seq<Folder>, f: Folder, k: nat)
    requires DistinctFolders(folders) && Forest(folders) && f in folders && f.id != "" && k > 0
    ensures Up(folders, f.id, k) != f.id
  {
    FolderFound(folders, f);
    assert Rooted(folders, f.id, MAXIMUM_DEPTH + 1);
    if Up(folders, f.id, k) == f.id {
      UpIsShallower(folders, f.id, MAXIMUM_DEPTH + 1, k);
    }
  }

  lemma {:induction false} FolderFound(folders: seq<Folder>, f: Folder)
    requires DistinctFolders(folders) && f in folders
    ensures FolderWith(folders, f.id) == Some(f)
  {
    if folders[0] != f {
      assert f in folders[1..];
      var i :| 0 <= i < |folders[1..]| && folders[1..][i] == f;
      assert folders[0].id != folders[i + 1].id;
      FolderFound(folders[1..], f);
    }
  }

  // ------------------------------------------------- the walk decides the forest

  /** The walk succeeds exactly when the root is near and nothing repeats. */
  lemma {:induction false} WalkSound(folders: seq<Folder>, parent: string, seen: set<string>, depth: nat)
    requires Walk(folders, parent, seen, depth).None? && depth <= MAXIMUM_DEPTH
    ensures Rooted(folders, parent, MAXIMUM_DEPTH - depth)
    decreases MAXIMUM_DEPTH - depth
  {
    if parent != "" {
      WalkSound(folders, FolderWith(folders, parent).value.parentId, seen + {parent}, depth + 1);
    }
  }

  ghost predicate DeeperAll(folders: seq<Folder>, seen: set<string>, d: nat) {
    forall s, n: nat :: s in seen && s != "" && Rooted(folders, s, n) ==> Depth(folders, s, n) > d
  }

  lemma {:induction false} WalkComplete(folders: seq<Folder>, parent: string, seen: set<string>, depth: nat)
    requires depth <= MAXIMUM_DEPTH && Rooted(folders, parent, MAXIMUM_DEPTH - depth)
    requires DeeperAll(folders, seen, Depth(folders, parent, MAXIMUM_DEPTH - depth))
    ensures Walk(folders, parent, seen, depth).None?
    decreases MAXIMUM_DEPTH - depth
  {
    if parent != "" {
      var left := MAXIMUM_DEPTH - depth;
      var up, d := FolderWith(folders, parent).value.parentId, Depth(folders, parent, left);
      forall s, n: nat | s in seen + {parent} && s != "" && Rooted(folders, s, n) ensures Depth(folders, s, n) > d - 1 {
        if s == parent {
          DepthUnique(folders, parent, n, left);
        }
      }
      assert parent !in seen;
      WalkComplete(folders, up, seen + {parent}, depth + 1);
    }
  }

  ghost predicate AllWalk(folders: seq<Folder>) {
    forall f :: f in folders ==> ValidateParent(folders, f.parentId, f.id).None?
  }

  /** Rechecking every folder's walk is exactly checking for a bounded forest. */
  lemma WalksDecideForest(folders: seq<Folder>)
    requires DistinctFolders(folders)
    ensures AllWalk(folders) <==> Forest(folders)
  {
    hide Walk, Rooted;
    if AllWalk(folders) {
      forall f | f in folders ensures Rooted(folders, f.parentId, MAXIMUM_DEPTH) {
        assert ValidateParent(folders, f.parentId, f.id).None?;
        WalkSound(folders, f.parentId, {f.id}, 0);
      }
    }
    if Forest(folders) {
      forall f | f in folders ensures ValidateParent(folders, f.parentId, f.id).None? {
        SelfIsDeeper(folders, f);
        WalkComplete(folders, f.parentId, {f.id}, 0);
      }
    }
  }

  lemma SelfIsDeeper(folders: seq<Folder>, f: Folder)
    requires DistinctFolders(folders) && f in folders && Rooted(folders, f.parentId, MAXIMUM_DEPTH)
    ensures DeeperAll(folders, {f.id}, Depth(folders, f.parentId, MAXIMUM_DEPTH))
  {
    FolderFound(folders, f);
    forall n: nat | f.id != "" && Rooted(folders, f.id, n)
      ensures Depth(folders, f.id, n) > Depth(folders, f.parentId, MAXIMUM_DEPTH)
    {
      DepthUnique(folders, f.parentId, n - 1, MAXIMUM_DEPTH);
    }
  }

  // ---------------------------------------------------------------- mutations

  predicate Space(c: char) {
    c == ' ' || c == '\t' || c == '\n' || c == '\r'
  }

  function TrimLeft(s: string): string {
    if s != "" && Space(s[0]) then TrimLeft(s[1..]) else s
  }

  function TrimRight(s: string): string {
    if s != "" && Space(s[|s| - 1]) then TrimRight(s[..|s| - 1]) else s
  }

  /** strings.TrimSpace */
  function Trim(s: string): string {
    TrimRight(TrimLeft(s))
  }

  predicate Presentable(title: string, position: int) {
    title != "" && |title| <= 200 && 0 <= position <= 100000
  }

  /** The folder list mutateCollectionFolderLocked checks, and the folder it stores. */
  function Candidate(folders: seq<Folder>, f: Folder, id: string): Result<(seq<Folder>, Folder)> {
    if f.id == "" then
      var g := f.(id := id, revision := 1);
      Ok((folders + [g], g))
    else
      var k := FolderIndex(folders, f.id, 0);
      if k < 0 then Err(NotFound)
      else if folders[k].revision != f.revision then Err(RevisionMismatch)
      else if f.revision == MAX_UINT64 then Err(RevisionOverflow)
      else
        var g := f.(revision := f.revision + 1);
        Ok((folders[k := g], g))
  }

  function FolderIndex(folders: seq<Folder>, id: string, from: nat): (k: int)
    requires from <= |folders|
    ensures -1 <= k < |folders|
    ensures k >= 0 ==> k >= from && folders[k].id == id
    ensures k < 0 ==> forall i :: from <= i < |folders| ==> folders[i].id != id
    decreases |folders| - from
  {
    if from == |folders| then -1 else if folders[from].id == id then from else FolderIndex(folders, id, from + 1)
  }

  /** The first folder whose walk fails. */
  function FirstBroken(folders: seq<Folder>, n: nat): (e: Option<Error>)
    requires n <= |folders|
    ensures e.None? <==> forall i :: n <= i < |folders| ==>
              ValidateParent(folders, folders[i].parentId, folders[i].id).None?
    decreases |folders| - n
  {
    if n == |folders| then None else
    match ValidateParent(folders, folders[n].parentId, folders[n].id)
    case Some(e) => Some(e)
    case None => FirstBroken(folders, n + 1)
  }

  /** mutateCollectionFolderLocked; a fresh id is an input. */
  function MutateFolder(folders: seq<Folder>, f: Folder, id: string): Result<(seq<Folder>, Folder)> {
    var trimmed := f.(title := Trim(f.title));
    if !Presentable(trimmed.title, trimmed.position) then Err(AlbumInvalid)
    else
      match ValidateParent(folders, f.parentId, f.id)
      case Some(e) => Err(e)
      case None =>
        match Candidate(folders, trimmed, id)
        case Err(e) => Err(e)
        case Ok(next) =>
          match FirstBroken(next.0, 0)
          case Some(e) => Err(e)
          case None => Ok(next)
  }

  ghost predicate AlbumsAttached(albums: seq<Album>, folders: seq<Folder>) {
    forall a :: a in albums ==> a.parentId == "" || FolderWith(folders, a.parentId).Some?
  }

  ghost predicate NamedFolders(folders: seq<Folder>) {
    forall f :: f in folders ==> f.id != ""
  }

  /** What holds of the organisation in every reachable state. */
  ghost predicate Organised(folders: seq<Folder>, albums: seq<Album>) {
    DistinctFolders(folders) && NamedFolders(folders) && Forest(folders) && AlbumsAttached(albums, folders)
  }

  /** Saving a folder, created or re-parented, keeps the forest and every
      attachment; only that folder changes. */
  lemma MutateKeepsForest(folders: seq<Folder>, albums: seq<Album>, f: Folder, id: string)
    requires Organised(folders, albums) && id != "" && FolderWith(folders, id).None?
    requires MutateFolder(folders, f, id).Ok?
    ensures var (next, g) := MutateFolder(folders, f, id).value;
            && Organised(next, albums) && g in next && |folders| <= |next|
            && g.title == Trim(f.title) && g.parentId == f.parentId && g.position == f.position
            && g.id == (if f.id == "" then id else f.id)
            && forall i :: 0 <= i < |folders| ==> next[i] == folders[i] || (folders[i].id == g.id && next[i] == g)
  {
    hide Walk, Trim, Rooted, Forest, AllWalk;
    var (next, g) := MutateFolder(folders, f, id).value;
    CandidateShape(folders, f.(title := Trim(f.title)), id);
    assert AllWalk(next) by {
      AllUnbroken(next);
    }
    WalksDecideForest(next);
    forall a | a in albums && a.parentId != "" ensures FolderWith(next, a.parentId).Some? {
      StillThere(folders, next, a.parentId);
    }
  }

  lemma AllUnbroken(folders: seq<Folder>)
    requires FirstBroken(folders, 0).None?
    ensures AllWalk(folders)
  {
    hide Walk;
  }

  lemma StillThere(folders: seq<Folder>, next: seq<Folder>, x: string)
    requires |folders| <= |next| && forall i :: 0 <= i < |folders| ==> next[i].id == folders[i].id
    requires FolderWith(folders, x).Some?
    ensures FolderWith(next, x).Some?
  {
    var was := FolderWith(folders, x).value;
    var i :| 0 <= i < |folders| && folders[i] == was;
    assert next[i] in next && next[i].id == x;
  }

  lemma CandidateShape(folders: seq<Folder>, f: Folder, id: string)
    requires DistinctFolders(folders) && NamedFolders(folders) && id != "" && FolderWith(folders, id).None?
    requires Candidate(folders, f, id).Ok?
    ensures var (next, g) := Candidate(folders, f, id).value;
            && DistinctFolders(next) && NamedFolders(next) && g in next && |folders| <= |next|
            && g == f.(id := g.id, revision := g.revision) && g.id == (if f.id == "" then id else f.id)
            && (forall i :: 0 <= i < |folders| ==> next[i].id == folders[i].id)
            && forall i :: 0 <= i < |folders| ==> next[i] == folders[i] || (folders[i].id == g.id && next[i] == g)
  {
    var (next, g) := Candidate(folders, f, id).value;
    if f.id == "" {
      assert next[|folders|] == g;
    } else {
      var k := FolderIndex(folders, f.id, 0);
      assert next[k] == g && folders[k] in folders;
    }
    forall x | x in next ensures x.id != "" {
      var i :| 0 <= i < |next| && next[i] == x;
      if i < |folders| {
        assert folders[i] in folders;
      }
    }
    forall i, j | 0 <= i < j < |next| ensures next[i].id != next[j].id {
      assert folders[i] in folders;
    }
  }

  // ------------------------------------------------------------------ deletion

  /** DeleteCollectionFolder */
  function DeleteFolder(folders: seq<Folder>, albums: seq<Album>, id: string, revision: uint64): Result<seq<Folder>> {
    if exists i :: 0 <= i < |folders| && folders[i].id == id && folders[i].revision != revision
                   && forall k :: 0 <= k < i ==> folders[k].parentId != id then Err(RevisionMismatch)
    else if exists i :: 0 <= i < |folders| && folders[i].parentId == id then Err(Conflict)
    else if exists i :: 0 <= i < |albums| && albums[i].parentId == id then Err(Conflict)
    else
      var k := FolderIndex(folders, id, 0);
      if k < 0 then Err(NotFound) else Ok(folders[..k] + folders[k + 1..])
  }

  lemma {:induction false} RootedWithout(folders: seq<Folder>, next: seq<Folder>, id: string, parent: string, n: nat)
    requires Rooted(folders, parent, n) && parent != id
    requires forall f :: f in folders ==> f.parentId != id
    requires forall x :: x != id ==> FolderWith(next, x) == FolderWith(folders, x)
    ensures Rooted(next, parent, n)
    decreases n
  {
    if parent != "" {
      RootedWithout(folders, next, id, FolderWith(folders, parent).value.parentId, n - 1);
    }
  }

  /** Only a leaf with no albums goes, so nothing is left hanging. */
  lemma DeleteKeepsForest(folders: seq<Folder>, albums: seq<Album>, id: string, revision: uint64)
    requires Organised(folders, albums) && DeleteFolder(folders, albums, id, revision).Ok?
    ensures var next := DeleteFolder(folders, albums, id, revision).value;
            && Organised(next, albums)
            && (forall f :: f in next <==> f in folders && f.id != id)
  {
    hide Rooted, FolderWith;
    var next, k := DeleteFolder(folders, albums, id, revision).value, FolderIndex(folders, id, 0);
    WithoutOne(folders, next, k);
    forall x | x != id ensures FolderWith(next, x) == FolderWith(folders, x) {
      FoundIn(folders, x);
      FoundIn(next, x);
      if FolderWith(folders, x).Some? {
        FolderFound(next, FolderWith(folders, x).value);
      }
    }
    forall f | f in next ensures Rooted(next, f.parentId, MAXIMUM_DEPTH) {
      assert f in folders && Rooted(folders, f.parentId, MAXIMUM_DEPTH);
      assert forall g :: g in folders ==> g.parentId != id;
      RootedWithout(folders, next, id, f.parentId, MAXIMUM_DEPTH);
    }
    forall a | a in albums && a.parentId != "" ensures FolderWith(next, a.parentId).Some? {
      assert a.parentId != id;
    }
  }

  lemma FoundIn(folders: seq<Folder>, x: string)
    ensures FolderWith(folders, x).Some? ==> FolderWith(folders, x).value in folders
                                             && FolderWith(folders, x).value.id == x
    ensures FolderWith(folders, x).None? ==> forall g :: g in folders ==> g.id != x
  {
  }

  lemma WithoutOne(folders: seq<Folder>, next: seq<Folder>, k: int)
    requires DistinctFolders(folders) && 0 <= k < |folders| && next == folders[..k] + folders[k + 1..]
    ensures DistinctFolders(next) && forall f :: f in next <==> f in folders && f.id != folders[k].id
  {
    forall f ensures f in next <==> f in folders && f.id != folders[k].id {
      if f in folders {
        var i :| 0 <= i < |folders| && folders[i] == f;
        if i < k {
          assert next[i] == f;
        } else if i > k {
          assert next[i - 1] == f;
        }
      }
    }
  }
}
