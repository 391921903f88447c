/** Deletion to the trash and restoring from it, with the live-photo companions
    that travel along, and emptying the trash. */
module Trash {
  import opened Prelude
  import opened Paths
  import opened Entries
  import opened Moves

  /** photoMutationSelection, first loop. */
  predicate Eligible(f: File, path: string, restore: bool) {
    (if restore then !f.present && f.deletedAt.Some? else f.present) && AtOrBelow(f.path, path)
  }

  function Starters(files: seq<File>, path: string, restore: bool): (s: set<string>)
    ensures forall id :: id in s <==> exists i :: 0 <= i < |files| && files[i].id == id
                                                  && Eligible(files[i], path, restore)
  {
    if files == [] then {} else
    var n := |files| - 1;
    var s := Starters(files[..n], path, restore);
    assert forall i :: 0 <= i < n ==> files[..n][i] == files[i];
    if Eligible(files[n], path, restore) then s + {files[n].id} else s
  }

  /** A component that goes along with its parent. */
  predicate GoesAlong(parent: File, component: File, restore: bool) {
    component.parentId == parent.id
    && (if restore
        then !component.present && component.deletedAt.Some? && parent.deletedAt == component.deletedAt
        else component.present)
  }

  function Companions(files: seq<File>, parent: File, restore: bool): set<string> {
    set c, f | c in parent.components && f in files && f.id == c.assetId && GoesAlong(parent, f, restore) :: f.id
  }

  /** Second loop: in list order, so a companion listed later brings its own. */
  function Sweep(files: seq<File>, n: nat, selected: set<string>, restore: bool): (s: set<string>)
    requires n <= |files|
    ensures selected <= s
    decreases |files| - n
  {
    if n == |files| then selected
    else if files[n].id in selected
    then Sweep(files, n + 1, selected + Companions(files, files[n], restore), restore)
    else Sweep(files, n + 1, selected, restore)
  }

  function Selection(files: seq<File>, path: string, restore: bool): set<string> {
    Sweep(files, 0, Starters(files, path, restore), restore)
  }

  function Tombstone(f: File, now: int): File
    requires f.revision < MAX_UINT64
  {
    f.(present := false, revision := f.revision + 1, deletedAt := Some(now))
  }

  function Delete(files: seq<File>, path: string, now: int): (r: Result<seq<File>>)
    ensures r.Ok? ==> |r.value| == |files|
  {
    var s := Selection(files, path, false);
    if exists i :: 0 <= i < |files| && files[i].id in s && files[i].present && files[i].revision == MAX_UINT64
    then Err(RevisionOverflow)
    else Ok(seq(|files|, i requires 0 <= i < |files|
                && (files[i].id in s && files[i].present ==> files[i].revision < MAX_UINT64) =>
      if files[i].id in s && files[i].present then Tombstone(files[i], now) else files[i]))
  }

  predicate RestoreBlocks(existing: File, candidate: File) {
    existing.present
    && (existing.path == candidate.path
        || (!existing.folder && Below(candidate.path, existing.path))
        || (!candidate.folder && Below(existing.path, candidate.path)))
  }

  function Restored(f: File): File
    requires f.revision < MAX_UINT64
  {
    f.(present := true, revision := f.revision + 1, deletedAt := None)
  }

  function Restore(files: seq<File>, path: string): (r: Result<seq<File>>)
    ensures r.Ok? ==> |r.value| == |files|
  {
    var s := Selection(files, path, true);
    if !exists i :: 0 <= i < |files| && files[i].id in s then Err(NotFound)
    else if exists i, k :: 0 <= i < |files| && 0 <= k < |files| && files[i].id in s
                           && RestoreBlocks(files[k], files[i]) then Err(Conflict)
    else if exists i :: 0 <= i < |files| && files[i].id in s && files[i].revision == MAX_UINT64
        then Err(RevisionOverflow)
    else Ok(seq(|files|, i requires 0 <= i < |files| && (files[i].id in s ==> files[i].revision < MAX_UINT64) =>
      if files[i].id in s then Restored(files[i]) else files[i]))
  }

  lemma DeleteEvolves(files: seq<File>, path: string, now: int)
    requires UniqueIds(files) && Delete(files, path, now).Ok?
    ensures var next := Delete(files, path, now).value; UniqueIds(next) && Evolves(files, next)
    ensures UniquePaths(files) ==> UniquePaths(Delete(files, path, now).value)
  {
    hide Selection;
    var next := Delete(files, path, now).value;
    SlotwiseEvolves(files, next);
    assert forall i :: 0 <= i < |files| && next[i].present ==> files[i].present && next[i].path == files[i].path;
  }

  lemma RestoreEvolves(files: seq<File>, path: string)
    requires UniqueIds(files) && Restore(files, path).Ok?
    ensures var next := Restore(files, path).value; UniqueIds(next) && Evolves(files, next)
  {
    SlotwiseEvolves(files, Restore(files, path).value);
  }

  /** No two of the entries to be restored lie at one path. */
  ghost predicate ApartInTrash(files: seq<File>, path: string) {
    var s := Selection(files, path, true);
    forall i, j :: 0 <= i < j < |files| && files[i].id in s && files[j].id in s ==> files[i].path != files[j].path
  }

  /** The conflict check looks at present entries only: a restore keeps present
      paths unique exactly when no two tombstones it brings back share a path. */
  lemma RestoreKeepsPaths(files: seq<File>, path: string)
    requires UniquePaths(files) && Restore(files, path).Ok?
    ensures UniquePaths(Restore(files, path).value) <==> ApartInTrash(files, path)
  {
    hide Selection, AtOrBelow, Below;
    var s, next := Selection(files, path, true), Restore(files, path).value;
    assert forall i, k :: 0 <= i < |files| && 0 <= k < |files| && files[i].id in s ==>
        !RestoreBlocks(files[k], files[i]);
    if ApartInTrash(files, path) {
      forall i, j | 0 <= i < j < |next| && next[i].present && next[j].present ensures next[i].path != next[j].path {
        assert !RestoreBlocks(files[i], files[j]) || files[j].id !in s;
        assert !RestoreBlocks(files[j], files[i]) || files[i].id !in s;
      }
    } else {
      var i, j :| 0 <= i < j < |files| && files[i].id in s && files[j].id in s && files[i].path == files[j].path;
      assert next[i].present && next[j].present;
    }
  }

  function Buried(id: string, at: int): File {
    File(id, 2, "a", false, false, Some(at), false, 0, 0, 0, "", "", "", None, "", [], [], "", "", "", false,
         NO_DETAILS)
  }

  /** Stored, deleted, stored and deleted again: one restore leaves two entries
      present at the same path. */
  lemma BothComeBack()
    ensures var files := [Buried("x", 1), Buried("y", 2)];
            UniqueIds(files) && UniquePaths(files) && Restore(files, "a").Ok? && !UniquePaths(Restore(files, "a").value)
  {
    hide Selection, Starters, Below;
    var files := [Buried("x", 1), Buried("y", 2)];
    assert files[0].id[0] != files[1].id[0];
    SelectedStarters(files, "a", true);
    assert Eligible(files[0], "a", true) && Eligible(files[1], "a", true);
    assert !exists i, k :: 0 <= i < 2 && 0 <= k < 2 && RestoreBlocks(files[k], files[i]);
    RestoreKeepsPaths(files, "a");
  }

  lemma SelectedStarters(files: seq<File>, path: string, restore: bool)
    ensures Starters(files, path, restore) <= Selection(files, path, restore)
  {
  }

  lemma {:induction false} SweepPresent(files: seq<File>, n: nat, selected: set<string>)
    requires n <= |files| && UniqueIds(files)
    requires forall i :: 0 <= i < |files| && files[i].id in selected ==> files[i].present
    ensures forall i :: 0 <= i < |files| && files[i].id in Sweep(files, n, selected, false) ==> files[i].present
    decreases |files| - n
  {
    if n < |files| {
      var more := if files[n].id in selected then selected + Companions(files, files[n], false) else selected;
      forall i | 0 <= i < |files| && files[i].id in more ensures files[i].present {
        if files[i].id !in selected {
          var f :| f in files && f.id == files[i].id && GoesAlong(files[n], f, false);
          var k :| 0 <= k < |files| && files[k] == f;
          UniqueIdsFind(files, i, k);
        }
      }
      SweepPresent(files, n + 1, more);
    }
  }

  /** Everything a deletion selects was present. */
  lemma SelectionPresent(files: seq<File>, path: string)
    requires UniqueIds(files)
    ensures forall i :: 0 <= i < |files| && files[i].id in Selection(files, path, false) ==> files[i].present
  {
    var s := Starters(files, path, false);
    forall i | 0 <= i < |files| && files[i].id in s ensures files[i].present {
      var k :| 0 <= k < |files| && files[k].id == files[i].id && Eligible(files[k], path, false);
      UniqueIdsFind(files, i, k);
    }
    SweepPresent(files, 0, s);
  }

  /** The tombstones a deletion at `now` must not run into: anything already in
      the trash at or below the path. */
  predicate OldTombstone(f: File, path: string) {
    Eligible(f, path, true)
  }

  /** The clock reading of a deletion is new. */
  ghost predicate FreshStamp(files: seq<File>, now: int) {
    forall i :: 0 <= i < |files| ==> files[i].deletedAt != Some(now)
  }

  /** The restore sweep over the deleted tree retraces the deletion sweep. */
  lemma {:induction false} SweepsAgree(files: seq<File>, after: seq<File>, n: nat, selected: set<string>,
                                       all: set<string>, now: int)
    requires UniqueIds(files) && |after| == |files| && n <= |files| && FreshStamp(files, now)
    requires forall i :: 0 <= i < |files| && files[i].id in all ==> files[i].present && files[i].revision < MAX_UINT64
    requires forall i :: 0 <= i < |files| ==> after[i] == if files[i].id in all then Tombstone(files[i], now)
             else files[i]
    requires all == Sweep(files, n, selected, false)
    ensures Sweep(after, n, selected, true) == all
    decreases |files| - n
  {
    if n < |files| {
      if files[n].id in selected {
        CompanionsAgree(files, after, n, selected, all, now);
        SweepsAgree(files, after, n + 1, selected + Companions(files, files[n], false), all, now);
      } else {
        SweepsAgree(files, after, n + 1, selected, all, now);
      }
    }
  }

  lemma CompanionsAgree(files: seq<File>, after: seq<File>, n: nat, selected: set<string>, all: set<string>, now: int)
    requires UniqueIds(files) && |after| == |files| && n < |files| && FreshStamp(files, now)
    requires forall i :: 0 <= i < |files| && files[i].id in all ==> files[i].present && files[i].revision < MAX_UINT64
    requires forall i :: 0 <= i < |files| ==> after[i] == if files[i].id in all then Tombstone(files[i], now)
             else files[i]
    requires files[n].id in selected && selected + Companions(files, files[n], false) <= all
    ensures Companions(after, after[n], true) == Companions(files, files[n], false)
  {
    var p, q := files[n], after[n];
    assert q == Tombstone(p, now);
    forall id ensures id in Companions(after, q, true) <==> id in Companions(files, p, false) {
      if id in Companions(after, q, true) {
        var c, f :| c in q.components && f in after && f.id == c.assetId && GoesAlong(q, f, true) && f.id == id;
        var k :| 0 <= k < |after| && after[k] == f;
        assert files[k].id in all;
        assert GoesAlong(p, files[k], false);
      }
      if id in Companions(files, p, false) {
        var c, f :| c in p.components && f in files && f.id == c.assetId && GoesAlong(p, f, false) && f.id == id;
        var k :| 0 <= k < |files| && files[k] == f;
        assert after[k] in after && GoesAlong(q, after[k], true);
      }
    }
  }

  ghost predicate BackFromTrash(files: seq<File>, back: seq<File>, path: string) {
    && |back| == |files|
    && forall i :: 0 <= i < |files| ==>
         if files[i].id in Selection(files, path, false) then RaisedTwice(files[i], back[i]) else back[i] == files[i]
  }

  /** Delete then restore gives back exactly the deleted entries, companions off
      the path included, two revisions later and everything else untouched: if
      and only if the trash held nothing at or below the path before. */
  lemma DeleteRestoreExact(files: seq<File>, path: string, now: int)
    requires UniqueIds(files) && UniquePaths(files) && NoFileAbove(files) && FreshStamp(files, now)
    requires forall i :: 0 <= i < |files| && files[i].present ==> files[i].deletedAt == None
    requires exists i :: 0 <= i < |files| && Hit(files[i], path)
    requires forall i :: 0 <= i < |files| && files[i].id in Selection(files, path, false) ==>
               files[i].revision + 2 <= MAX_UINT64
    ensures Delete(files, path, now).Ok?
    ensures var back := Restore(Delete(files, path, now).value, path);
            (back.Ok? && BackFromTrash(files, back.value, path)) <==>
            forall i :: 0 <= i < |files| ==> !OldTombstone(files[i], path)
  {
    hide Selection, Hit, Restore, BackFromTrash;
    SelectionPresent(files, path);
    var after := Delete(files, path, now).value;
    if forall i :: 0 <= i < |files| ==> !OldTombstone(files[i], path) {
      RestoreSelects(files, after, path, now);
      RestoreUnblocked(files, after, path, now);
    } else {
      var t :| 0 <= t < |files| && OldTombstone(files[t], path);
      OldTombstoneReturns(files, after, path, now, t);
    }
  }

  /** Deleted once, stored again and deleted again: restoring brings the first one
      back too. */
  lemma OlderComesBackToo()
    ensures var files := [Buried("x", 1), Buried("y", 1).(present := true, deletedAt := None)];
            && UniqueIds(files) && UniquePaths(files) && NoFileAbove(files) && FreshStamp(files, 5)
            && Hit(files[1], "a") && Delete(files, "a", 5).Ok?
            && var back := Restore(Delete(files, "a", 5).value, "a");
               !(back.Ok? && BackFromTrash(files, back.value, "a"))
  {
    hide Selection, Restore, BackFromTrash;
    var files := [Buried("x", 1), Buried("y", 1).(present := true, deletedAt := None)];
    assert files[0].id[0] != files[1].id[0];
    assert OldTombstone(files[0], "a") && Hit(files[1], "a") && !Below("a", "a");
    DeleteRestoreExact(files, "a", 5);
  }

  /** An older tombstone at or below the path is swept up by the restore. */
  lemma OldTombstoneReturns(files: seq<File>, after: seq<File>, path: string, now: int, t: int)
    requires 0 <= t < |files| && OldTombstone(files[t], path)
    requires Delete(files, path, now) == Ok(after) && UniqueIds(files)
    requires forall i :: 0 <= i < |files| && files[i].id in Selection(files, path, false) ==> files[i].present
    ensures var back := Restore(after, path); !(back.Ok? && BackFromTrash(files, back.value, path))
  {
    assert Eligible(after[t], path, true);
    assert after[t].id in Starters(after, path, true);
    assert after[t].id in Selection(after, path, true);
  }

  lemma RestoreSelects(files: seq<File>, after: seq<File>, path: string, now: int)
    requires UniqueIds(files) && FreshStamp(files, now)
    requires Delete(files, path, now) == Ok(after)
    requires forall i :: 0 <= i < |files| ==> !OldTombstone(files[i], path)
    requires forall i :: 0 <= i < |files| && files[i].id in Selection(files, path, false) ==>
               files[i].revision < MAX_UINT64
    ensures Selection(after, path, true) == Selection(files, path, false)
  {
    SelectionPresent(files, path);
    var start, all := Starters(files, path, false), Selection(files, path, false);
    forall id ensures id in Starters(after, path, true) <==> id in start {
      if id in Starters(after, path, true) {
        var k :| 0 <= k < |after| && after[k].id == id && Eligible(after[k], path, true);
        assert !OldTombstone(files[k], path);
        assert Eligible(files[k], path, false) && files[k].id == id;
      }
      if id in start {
        var k :| 0 <= k < |files| && files[k].id == id && Eligible(files[k], path, false);
        assert Eligible(after[k], path, true) && after[k].id == id;
      }
    }
    assert Starters(after, path, true) == start;
    SweepsAgree(files, after, 0, start, all, now);
  }

  lemma RestoreUnblocked(files: seq<File>, after: seq<File>, path: string, now: int)
    requires UniquePaths(files) && NoFileAbove(files)
    requires Delete(files, path, now) == Ok(after)
    requires forall i :: 0 <= i < |files| && files[i].present ==> files[i].deletedAt == None
    requires exists i :: 0 <= i < |files| && Hit(files[i], path)
    requires Selection(after, path, true) == Selection(files, path, false)
    requires forall i :: 0 <= i < |files| && files[i].id in Selection(files, path, false) ==>
      files[i].present && files[i].revision + 2 <= MAX_UINT64
    ensures Restore(after, path).Ok? && BackFromTrash(files, Restore(after, path).value, path)
  {
    hide Selection, Below, AtOrBelow;
    var all := Selection(files, path, false);
    var w :| 0 <= w < |files| && Hit(files[w], path);
    HitSelected(files, path, w);
    assert after[w].id in all;
    forall i, k | 0 <= i < |after| && 0 <= k < |after| && after[i].id in all
      ensures !RestoreBlocks(after[k], after[i])
    {
      if after[k].present {
        assert files[k].present && files[i].present && files[k].id !in all;
        NothingBlocks(files, i, k);
      }
    }
  }

  lemma HitSelected(files: seq<File>, path: string, w: int)
    requires 0 <= w < |files| && Hit(files[w], path)
    ensures files[w].id in Selection(files, path, false)
  {
    assert Eligible(files[w], path, false);
  }

  lemma NothingBlocks(files: seq<File>, i: int, k: int)
    requires UniquePaths(files) && NoFileAbove(files)
    requires 0 <= i < |files| && 0 <= k < |files| && i != k && files[i].present && files[k].present
    ensures !RestoreBlocks(files[k], files[i])
    ensures files[i].path != files[k].path
  {
    hide Below;
    assert FileAbove(files[i], files[k]) ==> files[i].folder;
    assert FileAbove(files[k], files[i]) ==> files[k].folder;
    if i < k {
      assert files[i].path != files[k].path;
    } else {
      assert files[k].path != files[i].path;
    }
  }

  /** PurgeTrash: tombstones dated at or before the limit are dropped. */
  predicate Purged(f: File, before: int) {
    !f.present && f.deletedAt.Some? && f.deletedAt.value <= before
  }

  function Kept(files: seq<File>, before: int): (kept: seq<File>)
    ensures |kept| <= |files|
    ensures forall f :: f in kept <==> f in files && !Purged(f, before)
  {
    if files == [] then [] else
    var n := |files| - 1;
    assert files == files[..n] + [files[n]];
    Kept(files[..n], before) + if Purged(files[n], before) then [] else [files[n]]
  }

  lemma {:induction false} KeptUnique(files: seq<File>, before: int)
    requires UniqueIds(files)
    ensures UniqueIds(Kept(files, before))
  {
    if files != [] {
      var n := |files| - 1;
      KeptUnique(files[..n], before);
      var kept := Kept(files[..n], before);
      forall i | 0 <= i < |kept| ensures kept[i].id != files[n].id {
        assert kept[i] in files[..n];
        var k :| 0 <= k < n && files[..n][k] == kept[i];
      }
    }
  }

  lemma KeptEvolves(files: seq<File>, before: int)
    requires UniqueIds(files)
    ensures UniqueIds(Kept(files, before)) && Evolves(files, Kept(files, before))
  {
    KeptUnique(files, before);
    var kept := Kept(files, before);
    forall i, j | 0 <= i < |files| && 0 <= j < |kept| && files[i].id == kept[j].id ensures files[i] == kept[j] {
      assert kept[j] in files;
      var k :| 0 <= k < |files| && files[k] == kept[j];
      UniqueIdsFind(files, i, k);
    }
  }

  // ------------------------------------------------------------------ methods

  /** photoMutationSelection */
  method Select(files: seq<File>, path: string, restore: bool) returns (selected: set<string>)
    requires UniqueIds(files)
    ensures selected == Selection(files, path, restore)
  {
    selected := {};
    for n := 0 to |files|
      invariant selected == Starters(files[..n], path, restore)
    {
      assert files[..n + 1][..n] == files[..n];
      if Eligible(files[n], path, restore) {
        selected := selected + {files[n].id};
      }
    }
    assert files[..|files|] == files;
    for n := 0 to |files|
      invariant Sweep(files, n, selected, restore) == Selection(files, path, restore)
    {
      if files[n].id in selected {
        var also := SelectCompanions(files, files[n], restore);
        selected := selected + also;
      }
    }
  }

  /** The components of one selected entry that follow it. */
  method SelectCompanions(files: seq<File>, parent: File, restore: bool) returns (also: set<string>)
    requires UniqueIds(files)
    ensures also == Companions(files, parent, restore)
  {
    also := {};
    for n := 0 to |parent.components|
      invariant also == set c, f | c in parent.components[..n] && f in files && f.id == c.assetId
                && GoesAlong(parent, f, restore) :: f.id
    {
      var part := parent.components[n];
      ghost var was := also;
      assert parent.components[..n + 1] == parent.components[..n] + [part];
      for i := 0 to |files|
        invariant also == was + set k | 0 <= k < i && files[k].id == part.assetId
                  && GoesAlong(parent, files[k], restore) :: files[k].id
      {
        if files[i].id == part.assetId && GoesAlong(parent, files[i], restore) {
          also := also + {files[i].id};
        }
      }
    }
    assert parent.components[..|parent.components|] == parent.components;
  }

  /** Delete, up to the save. */
  method DeleteFiles(files: seq<File>, path: string, now: int) returns (r: Result<seq<File>>, changed: bool)
    requires UniqueIds(files)
    ensures r == Delete(files, path, now)
    ensures r.Ok? && !changed ==> r.value == files
  {
    hide Selection;
    var selected := Select(files, path, false);
    var next := files;
    changed := false;
    for i := 0 to |files|
      invariant |next| == |files|
      invariant forall k :: 0 <= k < i && files[k].id in selected && files[k].present ==>
        files[k].revision < MAX_UINT64 && next[k] == Tombstone(files[k], now)
      invariant forall k :: 0 <= k < |files| && (k >= i || files[k].id !in selected || !files[k].present) ==>
                  next[k] == files[k]
      invariant !changed ==> next == files
    {
      if files[i].id in selected && files[i].present {
        if files[i].revision == MAX_UINT64 {
          return Err(RevisionOverflow), false;
        }
        next := next[i := files[i].(present := false, revision := files[i].revision + 1, deletedAt := Some(now))];
        changed := true;
      }
    }
    r := Ok(next);
    assert Delete(files, path, now).Ok? && Delete(files, path, now).value == next;
  }

  /** Restore, up to the save. */
  method RestoreFiles(files: seq<File>, path: string) returns (r: Result<seq<File>>)
    requires UniqueIds(files)
    ensures r == Restore(files, path)
  {
    hide Selection, Below;
    var selected := Select(files, path, true);
    var found := false;
    for i := 0 to |files|
      invariant found <==> exists k :: 0 <= k < i && files[k].id in selected
    {
      if files[i].id in selected {
        found := true;
      }
    }
    if !found {
      return Err(NotFound);
    }
    for i := 0 to |files|
      invariant forall x, k :: 0 <= x < i && 0 <= k < |files| && files[x].id in selected ==>
                  !RestoreBlocks(files[k], files[x])
    {
      if files[i].id in selected {
        for k := 0 to |files|
          invariant forall y :: 0 <= y < k ==> !RestoreBlocks(files[y], files[i])
        {
          if RestoreBlocks(files[k], files[i]) {
            return Err(Conflict);
          }
        }
      }
    }
    r := Revive(files, selected);
    if r.Ok? {
      assert Restore(files, path).Ok? && Restore(files, path).value == r.value;
    }
  }

  method Revive(files: seq<File>, selected: set<string>) returns (r: Result<seq<File>>)
    ensures r.Ok? ==> |r.value| == |files|
    ensures r.Ok? ==> forall k :: 0 <= k < |files| && files[k].id in selected ==>
              files[k].revision < MAX_UINT64 && r.value[k] == Restored(files[k])
    ensures r.Ok? ==> forall k :: 0 <= k < |files| && files[k].id !in selected ==> r.value[k] == files[k]
    ensures r.Err? ==> r.error == RevisionOverflow && exists k ::
              0 <= k < |files| && files[k].id in selected && files[k].revision == MAX_UINT64
  {
    var next := files;
    for i := 0 to |files|
      invariant |next| == |files|
      invariant forall k :: 0 <= k < i && files[k].id in selected ==>
                  files[k].revision < MAX_UINT64 && next[k] == Restored(files[k])
      invariant forall k :: 0 <= k < |files| && (k >= i || files[k].id !in selected) ==> next[k] == files[k]
    {
      if files[i].id in selected {
        if files[i].revision == MAX_UINT64 {
          return Err(RevisionOverflow);
        }
        next := next[i := files[i].(present := true, revision := files[i].revision + 1, deletedAt := None)];
      }
    }
    r := Ok(next);
  }

  function Gone(files: seq<File>, before: int): (gone: seq<File>)
    ensures |gone| + |Kept(files, before)| == |files|
    ensures forall f :: f in gone <==> f in files && Purged(f, before)
  {
    if files == [] then [] else
    var n := |files| - 1;
    assert files == files[..n] + [files[n]];
    Gone(files[..n], before) + if Purged(files[n], before) then [files[n]] else []
  }

  /** PurgeTrash, up to the save. */
  method PurgeFiles(files: seq<File>, before: int) returns (kept: seq<File>, removed: seq<File>)
    ensures kept == Kept(files, before) && removed == Gone(files, before)
  {
    hide Purged;
    kept, removed := [], [];
    for n := 0 to |files|
      invariant kept == Kept(files[..n], before)
      invariant removed == Gone(files[..n], before)
    {
      assert files[..n + 1][..n] == files[..n];
      if Purged(files[n], before) {
        removed := removed + [files[n]];
      } else {
        kept := kept + [files[n]];
      }
    }
    assert files[..|files|] == files;
  }
}
