/** Rename: which moves are refused, what a move changes, and its inverse. */
module Moves {
  import opened Prelude
  import opened Paths
  import opened Entries

  /** Present, and the path itself or something below it. */
  predicate Hit(f: File, path: string) {
    f.present && AtOrBelow(f.path, path)
  }

  predicate FileAbove(upper: File, lower: File) {
    upper.present && lower.present && Below(lower.path, upper.path)
  }

  /** No stored file has a present entry below it. */
  ghost predicate NoFileAbove(files: seq<File>) {
    forall i, j :: 0 <= i < |files| && 0 <= j < |files| && FileAbove(files[i], files[j]) ==> files[i].folder
  }

  predicate RenameBlocks(f: File, from: string, to: string) {
    f.present && !AtOrBelow(f.path, from)
    && (f.path == to || Below(f.path, to) || (!f.folder && Below(to, f.path)))
  }

  function Moved(f: File, from: string, to: string): File
    requires f.revision < MAX_UINT64
  {
    f.(path := Rebase(f.path, from, to), revision := f.revision + 1)
  }

  function Rename(files: seq<File>, from: string, to: string): (r: Result<seq<File>>)
    ensures r.Ok? ==> |r.value| == |files|
  {
    if from == to then Ok(files)
    else if Below(to, from) then Err(Descendant)
    else if !exists i :: 0 <= i < |files| && Hit(files[i], from) then Err(NotFound)
    else if exists i :: 0 <= i < |files| && RenameBlocks(files[i], from, to) then Err(Conflict)
    else if exists i :: 0 <= i < |files| && Hit(files[i], from) && files[i].revision == MAX_UINT64
        then Err(RevisionOverflow)
    else Ok(seq(|files|, i requires 0 <= i < |files| && (Hit(files[i], from) ==> files[i].revision < MAX_UINT64) =>
      if Hit(files[i], from) then Moved(files[i], from, to) else files[i]))
  }

  /** A successful rename raises the revision of exactly the moved entries ... */
  lemma RenameEvolves(files: seq<File>, from: string, to: string)
    requires Rename(files, from, to).Ok? && UniqueIds(files)
    ensures var next := Rename(files, from, to).value; UniqueIds(next) && Evolves(files, next)
  {
    hide AtOrBelow, Rebase, RenameBlocks;
    if from != to {
      SlotwiseEvolves(files, Rename(files, from, to).value);
    }
  }

  lemma RenamedSlot(files: seq<File>, from: string, to: string, i: int)
    requires Rename(files, from, to).Ok? && from != to && 0 <= i < |files|
    ensures var f, g := files[i], Rename(files, from, to).value[i];
            && g.present == f.present && g.folder == f.folder && g.id == f.id && !RenameBlocks(f, from, to)
            && g.path == (if Hit(f, from) then Rebase(f.path, from, to) else f.path)
  {
    hide AtOrBelow, Rebase;
  }

  /** ... keeps present paths unique ... */
  lemma RenameKeepsPaths(files: seq<File>, from: string, to: string)
    requires Rename(files, from, to).Ok? && UniquePaths(files)
    ensures UniquePaths(Rename(files, from, to).value)
  {
    hide AtOrBelow, Rebase, Rename;
    var next := Rename(files, from, to).value;
    if from == to {
      RenameNothing(files, from);
    } else {
      forall i, j | 0 <= i < j < |files| && next[i].present && next[j].present ensures next[i].path != next[j].path {
        RenamedSlot(files, from, to, i);
        RenamedSlot(files, from, to, j);
        assert files[i].path != files[j].path;
        PathsApart(files[i], files[j], from, to);
      }
    }
  }

  lemma RenameNothing(files: seq<File>, from: string)
    ensures Rename(files, from, from) == Ok(files)
  {
  }

  lemma PathsApart(f: File, g: File, from: string, to: string)
    requires f.present && g.present && f.path != g.path
    requires !RenameBlocks(f, from, to) && !RenameBlocks(g, from, to)
    ensures (if Hit(f, from) then Rebase(f.path, from, to) else f.path)
            != (if Hit(g, from) then Rebase(g.path, from, to) else g.path)
  {
    if Hit(f, from) && Hit(g, from) && Rebase(f.path, from, to) == Rebase(g.path, from, to) {
      RebaseInjective(f.path, g.path, from, to);
    }
  }

  /** ... and puts no file above another entry. */
  lemma RenameKeepsShape(files: seq<File>, from: string, to: string)
    requires Rename(files, from, to).Ok? && NoFileAbove(files)
    ensures NoFileAbove(Rename(files, from, to).value)
  {
    hide AtOrBelow, Rebase, Rename;
    var next := Rename(files, from, to).value;
    if from == to {
      RenameNothing(files, from);
    } else {
      forall i, j | 0 <= i < |files| && 0 <= j < |files| && FileAbove(next[i], next[j]) ensures next[i].folder {
        RenamedSlot(files, from, to, i);
        RenamedSlot(files, from, to, j);
        RenameBelow(files, from, to, i, j);
      }
    }
  }

  lemma RenameBelow(files: seq<File>, from: string, to: string, i: int, j: int)
    requires NoFileAbove(files) && 0 <= i < |files| && 0 <= j < |files|
    requires files[i].present && files[j].present
    requires !RenameBlocks(files[i], from, to) && !RenameBlocks(files[j], from, to)
    requires Below(if Hit(files[j], from) then Rebase(files[j].path, from, to) else files[j].path,
                   if Hit(files[i], from) then Rebase(files[i].path, from, to) else files[i].path)
    ensures files[i].folder
  {
    if Hit(files[i], from) {
      if Hit(files[j], from) {
        RebaseMonotone(files[j].path, files[i].path, from, to);
        assert FileAbove(files[i], files[j]);
      } else {
        BelowTransitive(files[j].path, Rebase(files[i].path, from, to), to);
        assert false;
      }
    } else if Hit(files[j], from) {
      RootAbove(Rebase(files[j].path, from, to), files[i].path, to);
    } else {
      assert FileAbove(files[i], files[j]);
    }
  }

  lemma RootAbove(p: string, q: string, to: string)
    requires AtOrBelow(p, to) && Below(p, q)
    ensures q == to || Below(to, q) || Below(q, to)
  {
    if |q| <= |to| {
      RootsNest(p, q, to);
    } else {
      RootsNest(p, to, q);
    }
  }

  lemma NothingOver(files: seq<File>, i: int, k: int)
    requires NoFileAbove(files) && 0 <= i < |files| && 0 <= k < |files|
    ensures FileAbove(files[i], files[k]) ==> files[i].folder
  {
  }

  /** Every entry after two bumps of its revision. */
  predicate RaisedTwice(before: File, after: File) {
    after.revision == before.revision + 2 && after == before.(revision := after.revision)
  }

  ghost predicate MovedBack(files: seq<File>, back: seq<File>, from: string) {
    && |back| == |files|
    && forall i :: 0 <= i < |files| ==>
         if Hit(files[i], from) then RaisedTwice(files[i], back[i]) else back[i] == files[i]
  }

  /** Renaming there and back restores every entry, unless the new place lies
      above the old one: then the way back is refused as a descendant move. */
  lemma RenameRoundTrip(files: seq<File>, from: string, to: string)
    requires from != to && Rename(files, from, to).Ok? && NoFileAbove(files)
    requires forall i :: 0 <= i < |files| && Hit(files[i], from) ==> files[i].revision + 2 <= MAX_UINT64
    ensures var back := Rename(Rename(files, from, to).value, to, from);
            (back.Ok? && MovedBack(files, back.value, from)) <==> !Below(from, to)
  {
    hide AtOrBelow, Rebase, Below;
    var next := Rename(files, from, to).value;
    if !Below(from, to) {
      forall i | 0 <= i < |next|
        ensures Hit(next[i], to) <==> Hit(files[i], from)
        ensures !RenameBlocks(next[i], to, from)
      {
        RenamedSlot(files, from, to, i);
        WayBackFree(files, from, to, i, next[i]);
      }
      var k :| 0 <= k < |files| && Hit(files[k], from);
      assert Hit(next[k], to);
      forall i | 0 <= i < |files| && Hit(files[i], from)
        ensures Rebase(Rebase(files[i].path, from, to), to, from) == files[i].path
      {
        RebaseRoundTrip(files[i].path, from, to);
      }
    }
  }

  const LONE := File("f", 1, "x/a", false, true, None, false, 0, 0, 0, "", "", "", None, "", [], [], "", "", "", false,
                     NO_DETAILS)

  /** Renamed to the place of a folder that is only implied, an entry cannot go back. */
  lemma NoWayBack()
    ensures NoFileAbove([LONE]) && Rename([LONE], "x/a", "x").Ok?
    ensures Rename(Rename([LONE], "x/a", "x").value, "x", "x/a") == Err(Descendant)
  {
    assert "x" + "/" == "x/a"[..2] && !Below("x", "x/a") && !Below("x/a", "x/a");
    assert Hit([LONE][0], "x/a") && !RenameBlocks(LONE, "x/a", "x");
    assert Below("x/a", "x");
  }

  lemma WayBackFree(files: seq<File>, from: string, to: string, i: int, g: File)
    requires from != to && NoFileAbove(files) && 0 <= i < |files| && !Below(from, to)
    requires exists k :: 0 <= k < |files| && Hit(files[k], from)
    requires !RenameBlocks(files[i], from, to)
    requires g.present == files[i].present && g.folder == files[i].folder
    requires g.path == if Hit(files[i], from) then Rebase(files[i].path, from, to) else files[i].path
    ensures Hit(g, to) <==> Hit(files[i], from)
    ensures !RenameBlocks(g, to, from)
  {
    if !Hit(files[i], from) && files[i].present && !files[i].folder && Below(from, files[i].path) {
      var k :| 0 <= k < |files| && Hit(files[k], from);
      if files[k].path != from {
        BelowTransitive(files[k].path, from, files[i].path);
      }
      NothingOver(files, i, k);
    }
  }

  // ------------------------------------------------------------------- method

  /** Rename's loops: find, check for conflicts, rewrite. */
  method RenameFiles(files: seq<File>, from: string, to: string) returns (r: Result<seq<File>>)
    ensures r == Rename(files, from, to)
  {
    hide AtOrBelow, Rebase, Below;
    if from == to {
      return Ok(files);
    }
    if Below(to, from) {
      return Err(Descendant);
    }
    var found := false;
    for i := 0 to |files|
      invariant found <==> exists k :: 0 <= k < i && Hit(files[k], from)
    {
      if Hit(files[i], from) {
        found := true;
      }
    }
    if !found {
      return Err(NotFound);
    }
    for i := 0 to |files|
      invariant forall k :: 0 <= k < i ==> !RenameBlocks(files[k], from, to)
    {
      if files[i].present && !AtOrBelow(files[i].path, from) {
        if files[i].path == to || Below(files[i].path, to) || (!files[i].folder && Below(to, files[i].path)) {
          assert RenameBlocks(files[i], from, to);
          return Err(Conflict);
        }
      }
    }
    var next := files;
    for i := 0 to |files|
      invariant |next| == |files|
      invariant forall k :: 0 <= k < i && Hit(files[k], from) ==>
                  files[k].revision < MAX_UINT64 && next[k] == Moved(files[k], from, to)
      invariant forall k :: 0 <= k < |files| && (k >= i || !Hit(files[k], from)) ==> next[k] == files[k]
    {
      var f := files[i];
      if !Hit(f, from) {
        continue;
      }
      if f.revision == MAX_UINT64 {
        return Err(RevisionOverflow);
      }
      next := next[i := f.(path := Rebase(f.path, from, to), revision := f.revision + 1)];
    }
    r := Ok(next);
    assert Rename(files, from, to).Ok? && Rename(files, from, to).value == next;
  }
}
