/** CopyWith: fresh entries under a new root, re-linked among themselves. */
module CopyTree {
  import opened Prelude
  import opened Paths
  import opened Entries
  import opened Moves

  /** What the storage layer issues for one copied entry. */
  datatype Grant = Granted(reference: Option<Reference>, snap: string, blob: string) | Refused(error: Error)

  predicate CopyBlocks(existing: File, f: File, from: string, to: string) {
    existing.present && !AtOrBelow(existing.path, from)
    && (var target := Rebase(f.path, from, to);
        existing.path == target || (!existing.folder && Below(target, existing.path))
        || (f.folder && Below(existing.path, target)))
  }

  function Sources(files: seq<File>, from: string): (s: seq<File>)
    ensures |s| <= |files|
    ensures forall i :: 0 <= i < |s| ==> Hit(s[i], from) && s[i] in files
  {
    if files == [] then [] else
    var n := |files| - 1;
    Sources(files[..n], from) + if Hit(files[n], from) then [files[n]] else []
  }

  /** relinkCopiedPhotoPairs on one copy. */
  function Relinked(f: File, mapped: map<string, string>): File {
    f.(device := "", deviceAsset := "", sourceRevision := "", pairAlbums := [],
       parentId := if f.parentId in mapped then mapped[f.parentId] else "",
       components := RelinkedParts(f.components, mapped))
  }

  function RelinkedParts(parts: seq<Component>, mapped: map<string, string>): seq<Component> {
    if parts == [] then [] else
    var n := |parts| - 1;
    RelinkedParts(parts[..n], mapped) +
      if parts[n].assetId in mapped && mapped[parts[n].assetId] != ""
      then [parts[n].(assetId := mapped[parts[n].assetId])] else []
  }

  lemma {:induction false} PartsRelinked(parts: seq<Component>, mapped: map<string, string>, c: Component)
    requires c in RelinkedParts(parts, mapped)
    ensures exists k :: k in mapped && mapped[k] == c.assetId
  {
    var n := |parts| - 1;
    if c in RelinkedParts(parts[..n], mapped) {
      PartsRelinked(parts[..n], mapped, c);
    }
  }

  function IdMap(sources: seq<File>, ids: seq<string>): map<string, string>
    requires |ids| >= |sources|
  {
    if sources == [] then map[] else
    var n := |sources| - 1;
    IdMap(sources[..n], ids)[sources[n].id := ids[n]]
  }

  lemma {:induction false} IdMapIssued(sources: seq<File>, ids: seq<string>, k: string)
    requires |ids| >= |sources| && k in IdMap(sources, ids)
    ensures IdMap(sources, ids)[k] in ids[..|sources|]
  {
    var n := |sources| - 1;
    if k == sources[n].id {
      assert ids[..n + 1][n] == ids[n];
    } else {
      IdMapIssued(sources[..n], ids, k);
      assert ids[..n] <= ids[..n + 1];
    }
  }

  function Copied(f: File, from: string, to: string, id: string, grant: Grant): File {
    var c := f.(path := Rebase(f.path, from, to), id := id, revision := 1, deletedAt := None);
    if grant.Granted? then c.(reference := grant.reference, snap := grant.snap, blob := grant.blob) else c
  }

  function FirstRefused(grants: seq<Grant>, i: nat, n: nat): (k: nat)
    requires i <= n <= |grants| && exists x :: i <= x < n && grants[x].Refused?
    ensures i <= k < n && grants[k].Refused?
    decreases n - i
  {
    if grants[i].Refused? then i else FirstRefused(grants, i + 1, n)
  }

  predicate CopyBlocked(files: seq<File>, sources: seq<File>, from: string, to: string) {
    exists i, k :: 0 <= i < |sources| && 0 <= k < |files| && CopyBlocks(files[k], sources[i], from, to)
  }

  function Copies(sources: seq<File>, from: string, to: string, ids: seq<string>, grants: seq<Grant>): (s: seq<File>)
    requires |ids| >= |sources| && |grants| >= |sources|
    ensures |s| == |sources|
  {
    var mapped := IdMap(sources, ids);
    seq(|sources|, i requires 0 <= i < |sources| =>
      Relinked(Copied(sources[i], from, to, ids[i], grants[i]), mapped))
  }

  /** CopyWith: fresh ids and the storage grants are inputs, one per source. */
  function Copy(files: seq<File>, from: string, to: string, ids: seq<string>, grants: seq<Grant>): Result<seq<File>>
    requires |ids| >= |files| && |grants| >= |files|
  {
    var sources := Sources(files, from);
    if from == to || Below(to, from) then Err(Descendant)
    else if sources == [] then Err(NotFound)
    else if CopyBlocked(files, sources, from, to) then Err(Conflict)
    else if exists i :: 0 <= i < |sources| && grants[i].Refused? then
      Err(grants[FirstRefused(grants, 0, |sources|)].error)
    else Ok(files + Copies(sources, from, to, ids, grants))
  }

  ghost predicate FreshIds(files: seq<File>, ids: seq<string>) {
    && (forall i, j :: 0 <= i < j < |ids| ==> ids[i] != ids[j])
    && (forall i, k :: 0 <= i < |ids| && 0 <= k < |files| ==> ids[i] != files[k].id)
    && (forall i :: 0 <= i < |ids| ==> ids[i] != "")
  }

  /** Originals stay as they were; copies are new entries that link to copies
      of the same operation only, never back to an original. */
  lemma CopiesLinkToCopies(files: seq<File>, from: string, to: string, ids: seq<string>, grants: seq<Grant>, i: nat)
    requires |ids| >= |files| && |grants| >= |files| && FreshIds(files, ids)
    requires Copy(files, from, to, ids, grants).Ok?
    requires |files| <= i < |Copy(files, from, to, ids, grants).value|
    ensures var next := Copy(files, from, to, ids, grants).value;
            && files <= next && next[i].revision == 1 && !HasId(files, next[i].id)
            && (next[i].parentId == "" || HasId(next[|files|..], next[i].parentId))
            && forall c :: c in next[i].components ==> HasId(next[|files|..], c.assetId)
  {
    hide AtOrBelow, Rebase, CopyBlocked, IdMap, RelinkedParts, FirstRefused;
    var sources := Sources(files, from);
    var copies := Copies(sources, from, to, ids, grants);
    var next := Copy(files, from, to, ids, grants).value;
    assert next == files + copies && next[|files|..] == copies;
    forall k | k in IdMap(sources, ids) ensures HasId(copies, IdMap(sources, ids)[k]) {
      CopyOf(sources, from, to, ids, grants, k);
    }
    forall c | c in next[i].components ensures HasId(copies, c.assetId) {
      PartsRelinked(sources[i - |files|].components, IdMap(sources, ids), c);
    }
  }

  lemma CopyOf(sources: seq<File>, from: string, to: string, ids: seq<string>, grants: seq<Grant>, k: string)
    requires |ids| >= |sources| && |grants| >= |sources| && k in IdMap(sources, ids)
    ensures HasId(Copies(sources, from, to, ids, grants), IdMap(sources, ids)[k])
  {
    hide Rebase, RelinkedParts;
    var copies, id := Copies(sources, from, to, ids, grants), IdMap(sources, ids)[k];
    IdMapIssued(sources, ids, k);
    var x :| 0 <= x < |sources| && ids[..|sources|][x] == id;
    assert copies[x].id == id;
  }

  lemma CopyEvolves(files: seq<File>, from: string, to: string, ids: seq<string>, grants: seq<Grant>)
    requires |ids| >= |files| && |grants| >= |files| && FreshIds(files, ids) && UniqueIds(files)
    requires Copy(files, from, to, ids, grants).Ok?
    ensures var next := Copy(files, from, to, ids, grants).value; UniqueIds(next) && Evolves(files, next)
  {
    hide AtOrBelow, Rebase, CopyBlocked, RelinkedParts;
    var next := Copy(files, from, to, ids, grants).value;
    assert forall i :: |files| <= i < |next| ==> next[i].id == ids[i - |files|];
    SlotwiseEvolves(files, next);
  }

  /** No entry that is copied lies where another one's copy lands. */
  ghost predicate NoneLandsOn(files: seq<File>, from: string, to: string) {
    forall i, j :: 0 <= i < |files| && 0 <= j < |files| && Hit(files[i], from) && Hit(files[j], from) ==>
      files[j].path != Rebase(files[i].path, from, to)
  }

  /** The conflict check passes over the tree being copied: a copy keeps present
      paths unique exactly when no copy lands on an entry of that tree. It cannot,
      unless the new place lies above the old one. */
  lemma CopyKeepsPaths(files: seq<File>, from: string, to: string, ids: seq<string>, grants: seq<Grant>)
    requires |ids| >= |files| && |grants| >= |files| && UniquePaths(files) && Copy(files, from, to, ids, grants).Ok?
    ensures UniquePaths(Copy(files, from, to, ids, grants).value) <==> NoneLandsOn(files, from, to)
    ensures !Below(from, to) ==> NoneLandsOn(files, from, to)
  {
    hide AtOrBelow, RelinkedParts, CopyBlocked, IdMap, Relinked, Copied, Rebase, Copies, CopyBlocks;
    var sources := Sources(files, from);
    var copies := Copies(sources, from, to, ids, grants);
    SourcesDistinct(files, from);
    forall i | 0 <= i < |copies| ensures copies[i].path == Rebase(sources[i].path, from, to) && copies[i].present {
      CopyPath(sources, from, to, ids, grants, i);
    }
    if NoneLandsOn(files, from, to) {
      CopiesApart(files, from, to, copies);
    } else {
      var i, j :| 0 <= i < |files| && 0 <= j < |files| && Hit(files[i], from) && Hit(files[j], from)
                  && files[j].path == Rebase(files[i].path, from, to);
      SourceIsIn(files, from, i);
      var k :| 0 <= k < |sources| && sources[k] == files[i];
      assert (files + copies)[j] == files[j] && (files + copies)[|files| + k] == copies[k];
    }
    if !Below(from, to) {
      ApartLands(files, from, to);
    }
  }

  lemma CopiesApart(files: seq<File>, from: string, to: string, copies: seq<File>)
    requires UniquePaths(files) && NoneLandsOn(files, from, to) && !CopyBlocked(files, Sources(files, from), from, to)
    requires DistinctPaths(Sources(files, from)) && |copies| == |Sources(files, from)|
    requires forall i :: 0 <= i < |copies| ==> copies[i].path == Rebase(Sources(files, from)[i].path, from, to)
    ensures UniquePaths(files + copies)
  {
    hide AtOrBelow, Rebase, Below;
    var sources := Sources(files, from);
    forall i, j | 0 <= i < j < |copies| ensures copies[i].path != copies[j].path {
      if copies[i].path == copies[j].path {
        assert Hit(sources[i], from) && Hit(sources[j], from);
        RebaseInjective(sources[i].path, sources[j].path, from, to);
      }
    }
    forall i, j | 0 <= i < |files| && 0 <= j < |copies| && files[i].present ensures files[i].path != copies[j].path {
      assert !CopyBlocks(files[i], sources[j], from, to);
      assert Hit(sources[j], from);
      var k :| 0 <= k < |files| && files[k] == sources[j];
    }
  }

  lemma {:induction false} SourceIsIn(files: seq<File>, from: string, i: int)
    requires 0 <= i < |files| && Hit(files[i], from)
    ensures files[i] in Sources(files, from)
  {
    if i < |files| - 1 {
      SourceIsIn(files[..|files| - 1], from, i);
    }
  }

  lemma ApartLands(files: seq<File>, from: string, to: string)
    requires from != to && !Below(to, from) && !Below(from, to)
    ensures NoneLandsOn(files, from, to)
  {
    hide Rebase;
    forall i, j | 0 <= i < |files| && 0 <= j < |files| && Hit(files[i], from) && Hit(files[j], from)
      ensures files[j].path != Rebase(files[i].path, from, to)
    {
      assert AtOrBelow(Rebase(files[i].path, from, to), to);
      if files[j].path == Rebase(files[i].path, from, to) {
        AtBoth(files[j].path, from, to);
      }
    }
  }

  lemma AtBoth(p: string, from: string, to: string)
    requires AtOrBelow(p, from) && AtOrBelow(p, to)
    ensures from == to || Below(from, to) || Below(to, from)
  {
    if p != from && p != to {
      if |from| <= |to| {
        RootsNest(p, from, to);
      } else {
        RootsNest(p, to, from);
      }
    }
  }

  lemma CopyPath(sources: seq<File>, from: string, to: string, ids: seq<string>, grants: seq<Grant>, i: int)
    requires |ids| >= |sources| && |grants| >= |sources| && 0 <= i < |sources|
    ensures var c := Copies(sources, from, to, ids, grants)[i];
            c.path == Rebase(sources[i].path, from, to) && c.folder == sources[i].folder
              && c.present == sources[i].present
  {
  }

  /** No copy lands below a stored file, unless that file is itself copied to a
      place above its old one. */
  lemma CopyUnderNoFile(files: seq<File>, from: string, to: string, ids: seq<string>, grants: seq<Grant>, k: int,
                        i: int)
    requires |ids| >= |files| && |grants| >= |files|
    requires Copy(files, from, to, ids, grants).Ok?
    requires 0 <= k < |files| && files[k].present && !files[k].folder && (!Hit(files[k], from) || !Below(from, to))
    requires |files| <= i < |Copy(files, from, to, ids, grants).value|
    ensures !Below(Copy(files, from, to, ids, grants).value[i].path, files[k].path)
  {
    hide RelinkedParts, IdMap;
    var sources := Sources(files, from);
    var p := Copy(files, from, to, ids, grants).value[i].path;
    if Below(p, files[k].path) {
      assert !CopyBlocks(files[k], sources[i - |files|], from, to);
      UnderBoth(p, files[k].path, from, to);
    }
  }

  /** The copy of f, as far as its place goes. */
  function Landing(f: File, from: string, to: string): File {
    f.(path := Rebase(f.path, from, to))
  }

  /** No copy lands below a stored file, and no copied file above a stored entry. */
  ghost predicate CopyFits(files: seq<File>, from: string, to: string) {
    forall i, k :: 0 <= i < |files| && 0 <= k < |files| && Hit(files[i], from) ==>
      && (FileAbove(files[k], Landing(files[i], from, to)) ==> files[k].folder)
      && (FileAbove(Landing(files[i], from, to), files[k]) ==> files[i].folder)
  }

  /** Whether a copy keeps files free of entries below them is decided by where the
      copies land among the entries there were. */
  lemma CopyKeepsShape(files: seq<File>, from: string, to: string, ids: seq<string>, grants: seq<Grant>)
    requires |ids| >= |files| && |grants| >= |files| && NoFileAbove(files) && Copy(files, from, to, ids, grants).Ok?
    ensures NoFileAbove(Copy(files, from, to, ids, grants).value) <==> CopyFits(files, from, to)
  {
    hide AtOrBelow, RelinkedParts, CopyBlocked, IdMap, Relinked, Copied, Rebase, Copies, CopyBlocks, Below;
    var sources := Sources(files, from);
    var copies := Copies(sources, from, to, ids, grants);
    forall i | 0 <= i < |copies|
      ensures var l := Landing(sources[i], from, to);
              copies[i].path == l.path && copies[i].present == l.present && copies[i].folder == l.folder
    {
      CopyPath(sources, from, to, ids, grants, i);
    }
    if CopyFits(files, from, to) {
      FitsKeepShape(files, from, to, sources, copies);
    }
    if NoFileAbove(files + copies) {
      ShapeMeansFit(files, from, to, sources, copies);
    }
  }

  /** The copies, place by place. */
  ghost predicate Landed(sources: seq<File>, copies: seq<File>, from: string, to: string) {
    |copies| == |sources| && forall i :: 0 <= i < |copies| ==>
      var l := Landing(sources[i], from, to);
      copies[i].path == l.path && copies[i].present == l.present && copies[i].folder == l.folder
  }

  lemma FitsKeepShape(files: seq<File>, from: string, to: string, sources: seq<File>, copies: seq<File>)
    requires NoFileAbove(files) && CopyFits(files, from, to) && sources == Sources(files, from)
    requires Landed(sources, copies, from, to)
    ensures NoFileAbove(files + copies)
  {
    hide AtOrBelow, Rebase, Below;
    var next := files + copies;
    forall a, b | 0 <= a < |next| && 0 <= b < |next| && FileAbove(next[a], next[b]) ensures next[a].folder {
      var i := if a < |files| then a else SourceAt(files, from, a - |files|);
      var k := if b < |files| then b else SourceAt(files, from, b - |files|);
      if a >= |files| && b >= |files| {
        assert Hit(sources[a - |files|], from) && Hit(sources[b - |files|], from);
        RebaseMonotone(files[k].path, files[i].path, from, to);
        assert FileAbove(files[i], files[k]);
      } else if a >= |files| {
        assert FileAbove(Landing(files[i], from, to), files[k]);
      } else if b >= |files| {
        assert FileAbove(files[i], Landing(files[k], from, to));
      }
    }
  }

  function SourceAt(files: seq<File>, from: string, x: nat): (i: int)
    requires x < |Sources(files, from)|
    ensures 0 <= i < |files| && files[i] == Sources(files, from)[x] && Hit(files[i], from)
  {
    var n := |files| - 1;
    if x < |Sources(files[..n], from)| then SourceAt(files[..n], from, x) else n
  }

  lemma ShapeMeansFit(files: seq<File>, from: string, to: string, sources: seq<File>, copies: seq<File>)
    requires NoFileAbove(files + copies) && sources == Sources(files, from) && Landed(sources, copies, from, to)
    ensures CopyFits(files, from, to)
  {
    hide AtOrBelow, Rebase, Below;
    var next := files + copies;
    forall i, k | 0 <= i < |files| && 0 <= k < |files| && Hit(files[i], from)
      ensures FileAbove(files[k], Landing(files[i], from, to)) ==> files[k].folder
      ensures FileAbove(Landing(files[i], from, to), files[k]) ==> files[i].folder
    {
      SourceIsIn(files, from, i);
      var x :| 0 <= x < |sources| && sources[x] == files[i];
      assert next[|files| + x] == copies[x] && next[k] == files[k];
      assert FileAbove(next[k], next[|files| + x]) ==> next[k].folder;
      assert FileAbove(next[|files| + x], next[k]) ==> next[|files| + x].folder;
    }
  }

  function Stored(id: string, path: string, folder: bool): File {
    File(id, 1, path, folder, true, None, false, 0, 0, 0, "", "", "", None, "", [], [], "", "", "", false, NO_DETAILS)
  }

  const NESTED := [Stored("d", "x/a", true), Stored("e", "x/a/a", true)]

  lemma {:induction false} AllSources(files: seq<File>, from: string)
    requires forall i :: 0 <= i < |files| ==> Hit(files[i], from)
    ensures Sources(files, from) == files
  {
    if files != [] {
      AllSources(files[..|files| - 1], from);
    }
  }

  /** Copied to the place of an implied folder above it, a folder's child lands on
      the folder itself. */
  lemma CopyLandsOnItself(grants: seq<Grant>)
    requires |grants| == 2 && grants[0].Granted? && grants[1].Granted?
    ensures UniquePaths(NESTED) && NoFileAbove(NESTED)
    ensures Copy(NESTED, "x/a", "x", ["f", "g"], grants).Ok?
    ensures !UniquePaths(Copy(NESTED, "x/a", "x", ["f", "g"], grants).value)
  {
    hide Copies, Relinked, Copied, FirstRefused;
    hide Sources, NoneLandsOn, CopyBlocks;
    NestedPlaces();
    AllSources(NESTED, "x/a");
    assert !CopyBlocked(NESTED, NESTED, "x/a", "x");
    CopyKeepsPaths(NESTED, "x/a", "x", ["f", "g"], grants);
  }

  lemma NestedPlaces()
    ensures Hit(NESTED[0], "x/a") && Hit(NESTED[1], "x/a") && !Below("x", "x/a")
    ensures forall f, x :: f in NESTED && x in NESTED ==> !CopyBlocks(x, f, "x/a", "x")
    ensures !NoneLandsOn(NESTED, "x/a", "x")
    ensures UniquePaths(NESTED) && NoFileAbove(NESTED)
  {
    hide CopyBlocks;
    assert NESTED[0].path == "x/a" && NESTED[1].path == "x/a/a";
    assert "x/a" + "/" == "x/a/a"[..4];
    assert "x/a/a"[|"x/a"|..] == "/a" && "x" + "/a" == "x/a";
    assert NESTED[0].path == Rebase(NESTED[1].path, "x/a", "x");
    forall f, x | f in NESTED && x in NESTED ensures !CopyBlocks(x, f, "x/a", "x") {
      InTree(x, f, "x/a", "x");
    }
  }

  lemma InTree(x: File, f: File, from: string, to: string)
    requires AtOrBelow(x.path, from)
    ensures !CopyBlocks(x, f, from, to)
  {
  }

  const BESIDE := [Stored("s", "y", false), Stored("c", "d/x", false)]

  /** A file copied to the place of an implied folder comes to lie above its entries. */
  lemma CopyOverFolder(grants: seq<Grant>)
    requires |grants| == 2 && grants[0].Granted?
    ensures NoFileAbove(BESIDE) && Copy(BESIDE, "y", "d", ["f", "g"], grants).Ok?
    ensures !NoFileAbove(Copy(BESIDE, "y", "d", ["f", "g"], grants).value)
  {
    hide Copies, Relinked, Copied, FirstRefused, Below, Sources, CopyFits, CopyBlocks;
    BesidePlaces();
    assert !CopyBlocked(BESIDE, [BESIDE[0]], "y", "d");
    CopyKeepsShape(BESIDE, "y", "d", ["f", "g"], grants);
  }

  lemma BesidePlaces()
    ensures NoFileAbove(BESIDE) && Sources(BESIDE, "y") == [BESIDE[0]] && !Below("d", "y") && !Hit(BESIDE[0], "d")
    ensures !CopyFits(BESIDE, "y", "d")
    ensures forall x :: x in BESIDE ==> !CopyBlocks(x, BESIDE[0], "y", "d")
  {
    hide Sources;
    assert "y"[0] != "d/x"[0];
    assert !Below("y", "d/x") && !Below("d/x", "y") && !Below("d", "d/x") && !Below("d", "y");
    OneSource();
    assert Rebase("y", "y", "d") == "d" && "d" + "/" == "d/x"[..2];
    assert FileAbove(Landing(BESIDE[0], "y", "d"), BESIDE[1]);
  }

  lemma OneSource()
    ensures Sources(BESIDE, "y") == [BESIDE[0]]
  {
    AllSources([BESIDE[0]], "y");
    assert BESIDE[..1] == [BESIDE[0]] && "d/x" != "y" && "d/x"[0] != "y"[0];
  }

  lemma UnderBoth(p: string, q: string, from: string, to: string)
    requires AtOrBelow(p, to) && Below(p, q) && AtOrBelow(q, from)
    ensures AtOrBelow(to, from) || AtOrBelow(from, to)
  {
    if q != from {
      BelowTransitive(p, q, from);
    }
    if |from| <= |to| {
      RootsNest(p, from, to);
    } else {
      RootsNest(p, to, from);
    }
  }

  ghost predicate DistinctPaths(files: seq<File>) {
    forall i, j :: 0 <= i < j < |files| ==> files[i].path != files[j].path
  }

  lemma {:induction false} SourcesDistinct(files: seq<File>, from: string)
    requires UniquePaths(files)
    ensures DistinctPaths(Sources(files, from))
  {
    if files != [] {
      var n := |files| - 1;
      SourcesDistinct(files[..n], from);
      var front := Sources(files[..n], from);
      var s := Sources(files, from);
      assert s == front + if Hit(files[n], from) then [files[n]] else [];
      forall i, j | 0 <= i < j < |s| ensures s[i].path != s[j].path {
        if j == |front| {
          assert s[i] == front[i] && front[i] in files[..n];
          var k :| 0 <= k < n && files[..n][k] == front[i];
          assert s[i] == files[k] && s[j] == files[n];
          assert files[k].path != files[n].path;
        } else {
          assert j < |front|;
          assert s[i] == front[i] && s[j] == front[j];
          assert front[i].path != front[j].path;
        }
      }
    }
  }

  // ------------------------------------------------------------------ methods

  method CollectSources(files: seq<File>, from: string) returns (sources: seq<File>)
    ensures sources == Sources(files, from)
  {
    sources := [];
    for n := 0 to |files|
      invariant sources == Sources(files[..n], from)
    {
      assert files[..n + 1][..n] == files[..n];
      if Hit(files[n], from) {
        sources := sources + [files[n]];
      }
    }
    assert files[..|files|] == files;
  }

  method FindCopyBlock(files: seq<File>, sources: seq<File>, from: string, to: string) returns (blocked: bool)
    ensures blocked == CopyBlocked(files, sources, from, to)
  {
    hide CopyBlocks;
    for i := 0 to |sources|
      invariant forall x, k :: 0 <= x < i && 0 <= k < |files| ==> !CopyBlocks(files[k], sources[x], from, to)
    {
      for k := 0 to |files|
        invariant forall y :: 0 <= y < k ==> !CopyBlocks(files[y], sources[i], from, to)
      {
        if CopyBlocks(files[k], sources[i], from, to) {
          return true;
        }
      }
    }
    blocked := false;
  }

  /** relinkCopiedPhotoPairs over the appended copies. */
  method Relink(copies: seq<File>, sources: seq<File>, ids: seq<string>) returns (linked: seq<File>)
    requires |ids| >= |sources| == |copies|
    ensures |linked| == |copies|
    ensures forall i :: 0 <= i < |copies| ==> linked[i] == Relinked(copies[i], IdMap(sources, ids))
  {
    var mapped := map[];
    for n := 0 to |sources|
      invariant mapped == IdMap(sources[..n], ids)
    {
      assert sources[..n + 1][..n] == sources[..n];
      mapped := mapped[sources[n].id := ids[n]];
    }
    assert sources[..|sources|] == sources;
    linked := copies;
    for i := 0 to |copies|
      invariant |linked| == |copies|
      invariant forall k :: 0 <= k < i ==> linked[k] == Relinked(copies[k], mapped)
      invariant forall k :: i <= k < |copies| ==> linked[k] == copies[k]
    {
      var parts := [];
      for p := 0 to |copies[i].components|
        invariant parts == RelinkedParts(copies[i].components[..p], mapped)
      {
        var part := copies[i].components[p];
        assert copies[i].components[..p + 1][..p] == copies[i].components[..p];
        if part.assetId in mapped && mapped[part.assetId] != "" {
          parts := parts + [part.(assetId := mapped[part.assetId])];
        }
      }
      assert copies[i].components[..|copies[i].components|] == copies[i].components;
      var parent := if copies[i].parentId in mapped then mapped[copies[i].parentId] else "";
      linked := linked[i := copies[i].(device := "", deviceAsset := "", sourceRevision := "", pairAlbums := [],
                                       parentId := parent, components := parts)];
    }
  }

  /** CopyWith, up to the save. */
  method CopyFiles(files: seq<File>, from: string, to: string, ids: seq<string>, grants: seq<Grant>)
    returns (r: Result<seq<File>>)
    requires |ids| >= |files| && |grants| >= |files|
    ensures r == Copy(files, from, to, ids, grants)
  {
    hide Rebase, RelinkedParts, IdMap, CopyBlocked;
    if from == to || Below(to, from) {
      return Err(Descendant);
    }
    var sources := CollectSources(files, from);
    if sources == [] {
      return Err(NotFound);
    }
    var blocked := FindCopyBlock(files, sources, from, to);
    if blocked {
      return Err(Conflict);
    }
    var copies := [];
    for i := 0 to |sources|
      invariant |copies| == i && forall k :: 0 <= k < i ==>
                  !grants[k].Refused? && copies[k] == Copied(sources[k], from, to, ids[k], grants[k])
    {
      var f := sources[i].(path := Rebase(sources[i].path, from, to), id := ids[i], revision := 1, deletedAt := None);
      if grants[i].Refused? {
        FirstRefusal(grants, 0, i, |sources|);
        return Err(grants[i].error);
      }
      copies := copies + [f.(reference := grants[i].reference, snap := grants[i].snap, blob := grants[i].blob)];
    }
    copies := Relink(copies, sources, ids);
    assert copies == Copies(sources, from, to, ids, grants);
    r := Ok(files + copies);
  }

  lemma {:induction false} FirstRefusal(grants: seq<Grant>, from: nat, i: nat, n: nat)
    requires from <= i < n <= |grants| && grants[i].Refused? && forall k :: from <= k < i ==> !grants[k].Refused?
    ensures FirstRefused(grants, from, n) == i
    decreases i - from
  {
    if from < i {
      FirstRefusal(grants, from + 1, i, n);
    }
  }
}
