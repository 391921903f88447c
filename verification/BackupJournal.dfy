/** A publication by the coordinator is one save of the catalog: its journal
    entries replay to the published tree. */
module BackupJournal {
  import opened Prelude
  import opened Entries
  import opened Journals
  import opened Sync
  import opened JournalWriter
  import opened BackupCas
  import opened BackupPlans
  import opened BackupProtocol

  lemma {:induction false} FoundById(files: seq<File>, i: int)
    requires UniqueIds(files) && 0 <= i < |files|
    ensures WithId(files, files[i].id) == Some(files[i])
  {
    var n := |files| - 1;
    if i < n {
      assert files[i].id != files[n].id;
      FoundById(files[..n], i);
    }
  }

  /** The table of the saved entries agrees with looking one up. */
  lemma TableLookup(before: seq<File>, base: map<string, File>, id: string)
    requires UniqueIds(before) && base == Overlay(map[], FileRows(before))
    ensures id in base <==> WithId(before, id).Some?
    ensures id in base ==> base[id] == Normal(WithId(before, id).value)
  {
    hide Overlay;
    var rows := FileRows(before);
    OverlayKeys(map[], rows, id);
    if WithId(before, id).Some? {
      var f := WithId(before, id).value;
      var i :| 0 <= i < |before| && before[i] == f;
      assert rows[i].0 == id;
      FileRowsDistinct(before);
      OverlayAt(map[], rows, i);
    }
    if id in base {
      var i :| 0 <= i < |rows| && rows[i].0 == id;
      FoundById(before, i);
    }
  }

  lemma {:induction false} AppendedReplays(start: Journal, before: seq<File>, after: seq<File>, n: nat, m: Mirror)
    requires Valid(start) && UniqueIds(before) && UniqueIds(after) && Evolves(before, after) && n <= |after|
    requires m.files == Overlay(map[], FileRows(before)) && AppendChanged(start, before, after[..n]).Ok?
    ensures var j := AppendChanged(start, before, after[..n]).value;
            Grown(start, j) && Replay(m, Added(start, j)) == m.(files := Overlay(m.files, FileRows(after)[..n]))
  {
    hide Valid, Grown, Overlay, Replay, DistinctKeys, Evolves, UniqueIds, Added;
    var rows := FileRows(after);
    if n == 0 {
      GrownReflexive(start);
      RowsStart(m.files, rows);
    } else {
      assert after[..n][..n - 1] == after[..n - 1];
      AppendedReplays(start, before, after, n - 1, m);
      var j, f := AppendChanged(start, before, after[..n - 1]).value, after[n - 1];
      TableLookup(before, m.files, f.id);
      RowsSnoc(rows, n - 1, m.files);
      if Unchanged(before, f) {
        SkippedEntry(before, after, n - 1, m.files);
        FileRowsDistinct(after);
        RowUnchanged(m.files, rows, n - 1);
      } else {
        AppendGrows(start, j, FileChange(before, f), m);
      }
    }
  }

  /** No entry of a published catalog is missing from its successor. */
  lemma NothingRemoved(files: seq<File>, plan: Plan)
    requires UniqueIds(files) && Publish(files, plan).Ok?
    ensures forall id :: HasId(files, id) ==> HasId(Publish(files, plan).value, id)
  {
    hide Publish;
    PublishKeepsTree(files, plan);
    var next := Publish(files, plan).value;
    forall id | HasId(files, id) ensures HasId(next, id) {
      var i :| 0 <= i < |files| && files[i].id == id;
      SlotIds(files, plan, |plan.files|, next, i);
      assert next[i].id == id;
    }
  }

  /** What PublishPlan does to journal and entries is a save of the catalog, with
      every other table as it was. */
  lemma PublicationIsSave(w: World, op: Operation, t: Tree)
    requires PublishPlan(w, op).Ok? && t.files == w.files && UniqueIds(w.files)
    requires Valid(w.journal) && |w.journal.records| <= CHANGE_RETENTION && w.journal.epoch != ""
    ensures var x := PublishPlan(w, op).value; Saved(w.journal, t, x.journal, t.(files := x.files))
  {
    hide Publish, Valid, Grown, Overlay, Replay, DistinctKeys, Evolves, UniqueIds, AppendChanged, Saved, Truncate;
    var next := Publish(w.files, op.plan).value;
    PublishKeepsTree(w.files, op.plan);
    var j := AppendChanged(w.journal, w.files, next).value;
    var m := MirrorOf(t);
    assert next[..|next|] == next;
    AppendedReplays(w.journal, w.files, next, |next|, m);
    NothingRemoved(w.files, op.plan);
    TablesMeet(w.files, next, m.files);
    assert FileRows(next)[..|next|] == FileRows(next);
    JournalWriter.Published(w.journal, w.journal, j, t, t.(files := next));
  }

  lemma TablesMeet(before: seq<File>, after: seq<File>, base: map<string, File>)
    requires UniqueIds(before) && UniqueIds(after) && base == Overlay(map[], FileRows(before))
    requires forall id :: HasId(before, id) ==> HasId(after, id)
    ensures Overlay(base, FileRows(after)) == Overlay(map[], FileRows(after))
  {
    hide Overlay;
    FileRowsDistinct(after);
    var rows := FileRows(after);
    forall k | k in base ensures exists i :: 0 <= i < |rows| && rows[i].0 == k {
      OverlayKeys(map[], FileRows(before), k);
      var i :| 0 <= i < |before| && FileRows(before)[i].0 == k;
      assert before[i].id == k;
      assert HasId(before, k);
      var x :| 0 <= x < |after| && after[x].id == k;
      assert rows[x].0 == k;
    }
    OverlayForgets(base, rows, {});
    assert Overlay(base, rows) - {} == Overlay(base, rows);
  }
}
