/** Exactly when a published plan could be published again. */
module BackupReplay {
  // This is what the publication proof is for, once it has left the journal.

  import opened Prelude
  import opened Paths
  import opened Entries
  import opened Journals
  import opened BackupCas
  import opened BackupPlans
  import opened BackupProtocol
  import opened BackupSafety

  /** Entries surviving in a later catalog never moved back in revision. */
  ghost predicate NotOlder(before: seq<File>, after: seq<File>) {
    forall i, j :: 0 <= i < |before| && 0 <= j < |after| && before[i].id == after[j].id ==>
        before[i].revision <= after[j].revision
  }

  predicate NonePlanned(files: seq<File>, plan: Plan) {
    forall f :: f in plan.files ==> !HasId(files, f.id)
  }

  predicate PlannedFolder(plan: Plan, p: string) {
    exists f :: f in plan.files && f.path == p && f.folder
  }

  /** Every ancestor the plan does not bring along is a present folder. */
  ghost predicate Supported(files: seq<File>, plan: Plan) {
    forall f, p :: f in plan.files && p in Ancestors(f.path) ==> FolderAt(files, p) || PlannedFolder(plan, p)
  }

  /** The guards hold again, nothing planned is left in the catalog under its id,
      and the surroundings are there: a caller can check this before the call. */
  ghost predicate Replayable(files: seq<File>, plan: Plan) {
    Check(files, plan).None? && NonePlanned(files, plan) && Supported(files, plan)
  }

  /** A replay cannot replace: the guarded revision of a published entry is gone. */
  lemma GuardedIsSpent(files: seq<File>, plan: Plan, later: seq<File>, k: int)
    requires UniqueIds(files) && Publish(files, plan).Ok? && DistinctPlan(plan)
    requires NotOlder(Publish(files, plan).value, later) && 0 <= k < |plan.files| && HasId(files, plan.files[k].id)
    ensures Check(later, plan).Some?
  {
    var f, next := plan.files[k], Publish(files, plan).value;
    PublishKeepsTree(files, plan);
    PublishedIn(files, plan, k);
    StoredIsGuarded(files, plan, k);
    var i :| 0 <= i < |next| && next[i] == f;
    var g := Guarded(plan.guards, f.id).value;
    forall j | 0 <= j < |later| ensures !GuardMatches(later[j], g) {
      if later[j].id == next[i].id {
        assert next[i].revision <= later[j].revision;
      }
    }
    assert g in plan.guards && !GuardHolds(later, g);
  }

  /** Every guard names an entry of the first catalog. */
  lemma GuardKnown(files: seq<File>, plan: Plan, id: string)
    requires Check(files, plan).None? && Guarded(plan.guards, id).Some?
    ensures HasId(files, id)
  {
    CheckedGuards(files, plan);
  }

  lemma ReplayNeedsAbsence(files: seq<File>, plan: Plan, later: seq<File>)
    requires UniqueIds(files) && UniqueIds(later) && Publish(files, plan).Ok? && DistinctPlan(plan)
    requires NotOlder(Publish(files, plan).value, later) && Publish(later, plan).Ok?
    ensures Replayable(later, plan)
  {
    hide SlotAfter, Planned;
    PublishKeepsTree(later, plan);
    var again := Publish(later, plan).value;
    forall f | f in plan.files ensures !HasId(later, f.id) {
      var k :| 0 <= k < |plan.files| && plan.files[k] == f;
      if HasId(files, f.id) {
        GuardedIsSpent(files, plan, later, k);
        assert false;
      }
      if HasId(later, f.id) {
        StoredIsGuarded(later, plan, k);
        GuardKnown(files, plan, f.id);
        assert false;
      }
    }
    forall f, p | f in plan.files && p in Ancestors(f.path) ensures FolderAt(later, p) || PlannedFolder(plan, p) {
      AncestorsExact(f.path, p);
      assert FolderAt(again, p);
      var i :| 0 <= i < |again| && again[i].present && again[i].path == p && again[i].folder;
      if i < |later| {
        SlotUnplanned(later, plan, again, i);
      } else {
        assert NewEntry(later, plan, |plan.files|, again[i]);
        assert again[i] in plan.files;
      }
    }
  }

  lemma SlotUnplanned(files: seq<File>, plan: Plan, next: seq<File>, i: int)
    requires NonePlanned(files, plan) && Effect(files, plan, |plan.files|, next) && 0 <= i < |files|
    ensures next[i] == files[i]
  {
    assert SlotAfter(files[i], plan, |plan.files|, next[i]);
    assert HasId(files, files[i].id);
  }

  lemma StoredIsGuarded(files: seq<File>, plan: Plan, k: int)
    requires UniqueIds(files) && Publish(files, plan).Ok? && DistinctPlan(plan) && 0 <= k < |plan.files|
    requires HasId(files, plan.files[k].id)
    ensures var g := Guarded(plan.guards, plan.files[k].id); g.Some? && plan.files[k].revision == g.value.revision + 1
  {
    PublishKeepsTree(files, plan);
    var next := Publish(files, plan).value;
    var s :| 0 <= s < |files| && files[s].id == plan.files[k].id;
    PlannedIs(plan, k, |plan.files|);
    assert SlotAfter(files[s], plan, |plan.files|, next[s]);
  }

  /** Planned entries that are new everywhere are appended in order. */
  lemma {:induction false} AllAppended(later: seq<File>, plan: Plan, n: nat)
    requires n <= |plan.files| && DistinctPlan(plan) && NonePlanned(later, plan)
    requires forall f :: f in plan.files ==> Publishable(f) && f.revision == 1 && f.path in plan.absent
    ensures PutAll(later, plan, n) == Ok(later + plan.files[..n])
  {
    hide ValidReference;
    if n == 0 {
      assert later + plan.files[..0] == later;
    } else {
      AllAppended(later, plan, n - 1);
      var mid, f := later + plan.files[..n - 1], plan.files[n - 1];
      assert f in plan.files;
      forall i | 0 <= i < |mid| ensures mid[i].id != f.id {
        if i < |later| {
          assert !HasId(later, f.id);
        } else {
          assert mid[i] == plan.files[i - |later|];
        }
      }
      PublishableMeans(f);
      assert mid + [f] == later + plan.files[..n];
    }
  }

  lemma PublishableMeans(f: File)
    requires Publishable(f)
    ensures f.present && f.deletedAt == None && f.id != "" && f.revision > 0 && ValidReference(f)
  {
  }

  lemma NewEverywhere(files: seq<File>, plan: Plan, later: seq<File>)
    requires UniqueIds(files) && Publish(files, plan).Ok? && DistinctPlan(plan)
    requires Check(later, plan).None? && NonePlanned(later, plan)
    ensures forall f :: f in plan.files ==> Publishable(f) && f.revision == 1 && f.path in plan.absent
                                            && !HasId(files, f.id)
    ensures forall f :: f in plan.files ==> f in Publish(files, plan).value
  {
    PublishKeepsTree(files, plan);
    var next := Publish(files, plan).value;
    forall f | f in plan.files
      ensures Publishable(f) && f.revision == 1 && f.path in plan.absent && !HasId(files, f.id) && f in next
    {
      var k :| 0 <= k < |plan.files| && plan.files[k] == f;
      PublishedIn(files, plan, k);
      if HasId(files, f.id) {
        StoredIsGuarded(files, plan, k);
        GuardKnown(later, plan, f.id);
      }
      var i :| 0 <= i < |next| && next[i] == f;
      if i < |files| {
        SlotIds(files, plan, |plan.files|, next, i);
      }
      assert NewEntry(files, plan, |plan.files|, next[i]);
    }
  }

  lemma ReplaySucceeds(files: seq<File>, plan: Plan, later: seq<File>)
    requires UniqueIds(files) && UniqueIds(later) && UniquePaths(later) && Publish(files, plan).Ok?
             && DistinctPlan(plan)
    requires Replayable(later, plan)
    ensures Publish(later, plan) == Ok(later + plan.files)
  {
    hide ValidReference, Effect, Publishable;
    NewEverywhere(files, plan, later);
    AllAppended(later, plan, |plan.files|);
    PublishKeepsTree(files, plan);
    var first, next := Publish(files, plan).value, later + plan.files;
    assert plan.files[..|plan.files|] == plan.files;
    forall i, j | 0 <= i < j < |next| && next[i].present && next[j].present ensures next[i].path != next[j].path {
      if j >= |later| {
        var f := next[j];
        assert f in plan.files;
        if i < |later| {
          assert !Occupied(later, f.path);
        } else {
          assert plan.files[i - |later|].id != plan.files[j - |later|].id;
          DistinctPaths(first, next[i], next[j]);
        }
      }
    }
    forall f | f in plan.files ensures !Unsupported(next, f) {
      forall p | p in Ancestors(f.path) ensures FolderAt(next, p) {
        SupportKept(later, plan, p);
      }
    }
    forall g, f | g in plan.guards && f in plan.files ensures !LeavesBehind(later, plan, g, f) {
      CheckedGuards(later, plan);
      assert HasId(later, g.id);
    }
  }

  lemma DistinctPaths(files: seq<File>, a: File, b: File)
    requires UniquePaths(files) && a in files && b in files && a.id != b.id && a.present && b.present
    ensures a.path != b.path
  {
    var i :| 0 <= i < |files| && files[i] == a;
    var j :| 0 <= j < |files| && files[j] == b;
    assert i < j || j < i;
  }

  lemma SupportKept(later: seq<File>, plan: Plan, p: string)
    requires FolderAt(later, p) || (PlannedFolder(plan, p) && forall f :: f in plan.files ==> Publishable(f))
    ensures FolderAt(later + plan.files, p)
  {
    var next := later + plan.files;
    if FolderAt(later, p) {
      var i :| 0 <= i < |later| && later[i].present && later[i].path == p && later[i].folder;
      assert next[i] == later[i];
    } else {
      var f :| f in plan.files && f.path == p && f.folder;
      assert Publishable(f);
      var k :| 0 <= k < |plan.files| && plan.files[k] == f;
      assert next[|later| + k] == f;
    }
  }

  /** A plan that has been published once publishes again, into any later catalog,
      if and only if its guards hold again and everything it put in has since been
      purged. The revision guards alone do not refuse a plan that only creates. */
  lemma ReplayExact(files: seq<File>, plan: Plan, later: seq<File>)
    requires UniqueIds(files) && UniqueIds(later) && UniquePaths(later) && Publish(files, plan).Ok?
             && DistinctPlan(plan)
    requires NotOlder(Publish(files, plan).value, later)
    ensures Publish(later, plan).Ok? <==> Replayable(later, plan)
  {
    if Publish(later, plan).Ok? {
      ReplayNeedsAbsence(files, plan, later);
    }
    if Replayable(later, plan) {
      ReplaySucceeds(files, plan, later);
    }
  }

  // ------------------------------------------------------------ at recovery

  lemma {:induction false} StoredFound(files: seq<File>, i: int)
    requires UniqueIds(files) && 0 <= i < |files|
    ensures WithId(files, files[i].id) == Some(files[i])
  {
    var n := |files| - 1;
    if i < n {
      assert files[i].id != files[n].id;
      StoredFound(files[..n], i);
    }
  }

  /** Journalling entries that are already stored adds nothing. */
  lemma {:induction false} NothingChanged(j: Journal, files: seq<File>, n: nat)
    requires UniqueIds(files) && n <= |files|
    ensures AppendChanged(j, files, files[..n]) == Ok(j)
  {
    if n > 0 {
      NothingChanged(j, files, n - 1);
      assert files[..n][..n - 1] == files[..n - 1];
      StoredFound(files, n - 1);
    }
  }

  /** Journalling entries no stored one shares its id with adds one change each. */
  lemma {:induction false} NewChanges(j: Journal, files: seq<File>, added: seq<File>)
    requires UniqueIds(files) && forall f :: f in added ==> !HasId(files, f.id)
    ensures var r := AppendChanged(j, files, files + added);
            && (r.Ok? <==> j.sequence + |added| <= MAX_UINT64 || added == [])
            && (r.Ok? ==> r.value.sequence == j.sequence + |added|)
  {
    if added == [] {
      NothingChanged(j, files, |files|);
      assert files[..|files|] == files && files + added == files;
    } else {
      var n, f := |added| - 1, added[|added| - 1];
      NewChanges(j, files, added[..n]);
      assert (files + added)[..|files| + n] == files + added[..n];
      assert !HasId(files, f.id);
    }
  }

  /** Exactly when a recovery publishes a plan that has been published before: its
      proof is gone, the source is active, the stored bytes check out, the guards
      hold and nothing planned is left, and the journal has room for the changes. */
  ghost predicate PublishesAgain(w: World, op: Operation, s: Storage) {
    && op.sourceKey in w.sources && !Evident(w, op.plan.files)
    && w.sources[op.sourceKey].status == Active && s.check.None?
    && Replayable(w.files, op.plan) && w.journal.sequence + |op.plan.files| <= MAX_UINT64
  }

  lemma RecoveryReplays(files: seq<File>, w: World, op: Operation, s: Storage)
    requires Inv(w) && UniquePaths(w.files) && op.id in w.ops && w.ops[op.id] == op && op.status == Publishing
    requires op.id in w.log && UniqueIds(files) && Publish(files, op.plan).Ok?
             && NotOlder(Publish(files, op.plan).value, w.files)
    ensures Last(Recover(w, op, s)).log == (if PublishesAgain(w, op, s) then w.log + [op.id] else w.log)
  {
    hide Inv, Evident, Replayable, MapItems, Publish, AppendChanged;
    OpKey(w, op.id);
    InvCatalog(w);
    ReplayExact(files, op.plan, w.files);
    if Replayable(w.files, op.plan) {
      ReplaySucceeds(files, op.plan, w.files);
      NonePlannedLeft(w.files, op.plan);
      NewChanges(w.journal, w.files, op.plan.files);
    }
  }

  lemma NonePlannedLeft(files: seq<File>, plan: Plan)
    requires Replayable(files, plan)
    ensures forall f :: f in plan.files ==> !HasId(files, f.id)
  {
  }
}
