/** The compare-and-set that publishes a backup plan: guards on entries and on
    free paths, the planned writes, and the tree checks after them. */
module BackupCas {
  import opened Prelude
  import opened Paths
  import opened Entries

  datatype Plan = Plan(guards: seq<File>, absent: seq<string>, files: seq<File>)

  predicate GuardMatches(f: File, g: File) {
    f.id == g.id && f.present && f.revision == g.revision && f.path == g.path && f.folder == g.folder
  }

  predicate GuardHolds(files: seq<File>, g: File) {
    exists i :: 0 <= i < |files| && GuardMatches(files[i], g)
  }

  predicate Occupied(files: seq<File>, p: string) {
    exists i :: 0 <= i < |files| && files[i].present && files[i].path == p
  }

  /** checkBackupLocked */
  function Check(files: seq<File>, plan: Plan): Option<Error> {
    if exists g :: g in plan.guards && !GuardHolds(files, g) then Some(RevisionMismatch)
    else if exists p :: p in plan.absent && Occupied(files, p) then Some(Conflict)
    else None
  }

  /** guarded[id]: a later guard on the same entry replaces an earlier one. */
  function Guarded(guards: seq<File>, id: string): (g: Option<File>)
    ensures g.Some? ==> g.value in guards && g.value.id == id
    ensures g.None? ==> forall x :: x in guards ==> x.id != id
  {
    if guards == [] then None else
    var n := |guards| - 1;
    assert guards == guards[..n] + [guards[n]];
    if guards[n].id == id then Some(guards[n]) else Guarded(guards[..n], id)
  }

  /** One planned entry: a guarded successor revision, or a new entry on a path
      the plan requires to be free. */
  function PutPlanned(next: seq<File>, plan: Plan, f: File): Result<seq<File>> {
    if f.id == "" || !f.present || f.deletedAt.Some? || f.revision == 0 then Err(RevisionMismatch)
    else if !ValidReference(f) then Err(UnknownReference)
    else
      var k := IndexOf(next, f.id);
      if k >= 0 then
        match Guarded(plan.guards, f.id)
        case None => Err(RevisionMismatch)
        case Some(prior) =>
          if prior.revision == MAX_UINT64 || f.revision != prior.revision + 1 || f.folder != prior.folder
          then Err(RevisionMismatch) else Ok(next[k := f])
      else if f.revision != 1 || f.path !in plan.absent then Err(RevisionMismatch)
      else Ok(next + [f])
  }

  function PutAll(files: seq<File>, plan: Plan, n: nat): Result<seq<File>>
    requires n <= |plan.files|
  {
    if n == 0 then Ok(files) else
    match PutAll(files, plan, n - 1)
    case Err(e) => Err(e)
    case Ok(next) => PutPlanned(next, plan, plan.files[n - 1])
  }

  predicate FolderAt(files: seq<File>, p: string) {
    exists i :: 0 <= i < |files| && files[i].present && files[i].path == p && files[i].folder
  }

  predicate RepeatedPath(files: seq<File>) {
    exists i, j :: 0 <= i < j < |files| && files[i].present && files[j].present && files[i].path == files[j].path
  }

  predicate Unsupported(next: seq<File>, f: File) {
    exists p :: p in Ancestors(f.path) && !FolderAt(next, p)
  }

  /** A guarded folder that moves leaves a present descendant out of the plan. */
  predicate LeavesBehind(files: seq<File>, plan: Plan, g: File, f: File) {
    g.folder && f.id == g.id && f.path != g.path
    && exists i :: 0 <= i < |files| && files[i].present && Below(files[i].path, g.path)
                   && Guarded(plan.guards, files[i].id).None?
  }

  /** PublishBackup up to the save. */
  function Publish(files: seq<File>, plan: Plan): Result<seq<File>> {
    match Check(files, plan)
    case Some(e) => Err(e)
    case None =>
      match PutAll(files, plan, |plan.files|)
      case Err(e) => Err(e)
      case Ok(next) =>
        if RepeatedPath(next) then Err(Conflict)
        else if exists f :: f in plan.files && Unsupported(next, f) then Err(Conflict)
        else if exists g, f :: g in plan.guards && f in plan.files && LeavesBehind(files, plan, g, f)
            then Err(RevisionMismatch)
        else Ok(next)
  }

  // -------------------------------------------------------------- what it does

  ghost predicate DistinctPlan(plan: Plan) {
    forall i, j :: 0 <= i < j < |plan.files| ==> plan.files[i].id != plan.files[j].id
  }

  /** The last planned entry with this id among the first n. */
  function Planned(plan: Plan, id: string, n: nat): (f: Option<File>)
    requires n <= |plan.files|
    ensures f.Some? ==> f.value in plan.files[..n] && f.value.id == id
    ensures f.None? ==> forall i :: 0 <= i < n ==> plan.files[i].id != id
  {
    if n == 0 then None
    else if plan.files[n - 1].id == id then Some(plan.files[n - 1])
    else Planned(plan, id, n - 1)
  }

  /** A stored entry after the first n planned writes: replaced by the planned
      successor of its guarded revision, or left alone. */
  ghost predicate SlotAfter(before: File, plan: Plan, n: nat, after: File)
    requires n <= |plan.files|
  {
    match Planned(plan, before.id, n)
    case None => after == before
    case Some(f) =>
      && after == f
      && var g := Guarded(plan.guards, before.id);
         g.Some? && f.revision == g.value.revision + 1 && f.folder == g.value.folder
  }

  ghost predicate NewEntry(files: seq<File>, plan: Plan, n: nat, f: File)
    requires n <= |plan.files|
  {
    f in plan.files[..n] && f.revision == 1 && f.path in plan.absent && !HasId(files, f.id)
  }

  predicate Publishable(f: File) {
    f.present && f.deletedAt == None && f.id != "" && f.revision > 0 && ValidReference(f)
  }

  /** Slot by slot, what n planned writes make of the entry list. */
  ghost predicate Effect(files: seq<File>, plan: Plan, n: nat, next: seq<File>)
    requires n <= |plan.files|
  {
    && |files| <= |next|
    && (forall i :: 0 <= i < |files| ==> SlotAfter(files[i], plan, n, next[i]))
    && (forall i :: |files| <= i < |next| ==> NewEntry(files, plan, n, next[i]))
    && (forall k :: 0 <= k < n ==> Publishable(plan.files[k]) && HasId(next, plan.files[k].id))
    && (forall k :: 0 <= k < n && !HasId(files, plan.files[k].id) ==> plan.files[k] in next)
  }

  /** Every guard names a stored entry, as the check makes sure. */
  ghost predicate GuardsStored(files: seq<File>, plan: Plan) {
    forall g :: g in plan.guards ==> HasId(files, g.id)
  }

  lemma CheckedGuards(files: seq<File>, plan: Plan)
    requires Check(files, plan).None?
    ensures GuardsStored(files, plan)
  {
    forall g | g in plan.guards ensures HasId(files, g.id) {
      assert GuardHolds(files, g);
    }
  }

  lemma {:induction false} PutAllEffect(files: seq<File>, plan: Plan, n: nat)
    requires n <= |plan.files| && UniqueIds(files) && GuardsStored(files, plan) && PutAll(files, plan, n).Ok?
    ensures Effect(files, plan, n, PutAll(files, plan, n).value) && UniqueIds(PutAll(files, plan, n).value)
  {
    if n > 0 {
      PutAllEffect(files, plan, n - 1);
      var mid := PutAll(files, plan, n - 1).value;
      if IndexOf(mid, plan.files[n - 1].id) >= 0 {
        ReplaceEffect(files, plan, n, mid);
      } else {
        AppendEffect(files, plan, n, mid);
      }
    }
  }

  lemma SlotIds(files: seq<File>, plan: Plan, n: nat, next: seq<File>, i: int)
    requires n <= |plan.files| && Effect(files, plan, n, next) && 0 <= i < |files|
    ensures next[i].id == files[i].id
  {
    assert SlotAfter(files[i], plan, n, next[i]);
  }

  lemma SlotStep(before: File, plan: Plan, n: nat, after: File)
    requires 0 < n <= |plan.files| && SlotAfter(before, plan, n - 1, after) && before.id != plan.files[n - 1].id
    ensures SlotAfter(before, plan, n, after)
  {
  }

  lemma SlotReplaced(before: File, plan: Plan, n: nat)
    requires 0 < n <= |plan.files| && before.id == plan.files[n - 1].id
    requires Guarded(plan.guards, before.id).Some?
    requires var g := Guarded(plan.guards, before.id).value;
             plan.files[n - 1].revision == g.revision + 1 && plan.files[n - 1].folder == g.folder
    ensures SlotAfter(before, plan, n, plan.files[n - 1])
  {
  }

  lemma NewEntryStep(files: seq<File>, plan: Plan, n: nat, f: File)
    requires 0 < n <= |plan.files| && NewEntry(files, plan, n - 1, f)
    ensures NewEntry(files, plan, n, f)
  {
    assert plan.files[..n] == plan.files[..n - 1] + [plan.files[n - 1]];
  }

  lemma ReplaceEffect(files: seq<File>, plan: Plan, n: nat, mid: seq<File>)
    requires 0 < n <= |plan.files| && UniqueIds(files) && UniqueIds(mid) && GuardsStored(files, plan)
    requires Effect(files, plan, n - 1, mid) && PutPlanned(mid, plan, plan.files[n - 1]).Ok?
    requires IndexOf(mid, plan.files[n - 1].id) >= 0
    ensures var next := PutPlanned(mid, plan, plan.files[n - 1]).value; Effect(files, plan, n, next) && UniqueIds(next)
  {
    hide ValidReference, PutAll, NewEntry, SlotAfter, Publishable, Planned, Guarded, UniqueIds;
    var f, k := plan.files[n - 1], IndexOf(mid, plan.files[n - 1].id);
    var next := PutPlanned(mid, plan, f).value;
    assert next == mid[k := f] && Guarded(plan.guards, f.id).Some?;
    ReplacedIsStored(files, plan, n, mid, k);
    IdsReplaced(mid, k, f);
    forall i | 0 <= i < |files| ensures SlotAfter(files[i], plan, n, next[i]) {
      SlotIds(files, plan, n - 1, mid, i);
      if files[i].id == f.id {
        UniqueIdsFind(mid, i, k);
        SlotReplaced(files[i], plan, n);
      } else {
        SlotStep(files[i], plan, n, mid[i]);
      }
    }
    forall i | |files| <= i < |next| ensures NewEntry(files, plan, n, next[i]) {
      NewEntryStep(files, plan, n, mid[i]);
    }
    SlotIds(files, plan, n - 1, mid, k);
    ReplaceKeeps(files, plan, n, mid, k);
    PublishableIs(mid, plan, f);
  }

  /** Only a guarded entry is replaced, and guards name stored entries. */
  lemma ReplacedIsStored(files: seq<File>, plan: Plan, n: nat, mid: seq<File>, k: int)
    requires 0 < n <= |plan.files| && GuardsStored(files, plan) && Effect(files, plan, n - 1, mid)
    requires 0 <= k < |mid| && Guarded(plan.guards, mid[k].id).Some?
    ensures k < |files|
  {
    hide NewEntry, SlotAfter, Publishable;
    assert HasId(files, mid[k].id);
    if k >= |files| {
      NewEntryUnknown(files, plan, n - 1, mid[k]);
      assert false;
    }
  }

  lemma IdsReplaced(files: seq<File>, k: int, g: File)
    requires UniqueIds(files) && 0 <= k < |files| && g.id == files[k].id
    ensures UniqueIds(files[k := g])
  {
  }

  lemma PublishableIs(next: seq<File>, plan: Plan, f: File)
    requires PutPlanned(next, plan, f).Ok?
    ensures Publishable(f)
  {
  }

  lemma NewEntryUnknown(files: seq<File>, plan: Plan, n: nat, f: File)
    requires n <= |plan.files| && NewEntry(files, plan, n, f)
    ensures !HasId(files, f.id)
  {
  }

  lemma ReplaceKeeps(files: seq<File>, plan: Plan, n: nat, mid: seq<File>, k: int)
    requires 0 < n <= |plan.files| && 0 <= k < |files| <= |mid| && mid[k].id == plan.files[n - 1].id == files[k].id
    requires forall x :: 0 <= x < n - 1 ==> HasId(mid, plan.files[x].id)
    requires forall x :: 0 <= x < n - 1 && !HasId(files, plan.files[x].id) ==> plan.files[x] in mid
    ensures forall x :: 0 <= x < n ==> HasId(mid[k := plan.files[n - 1]], plan.files[x].id)
    ensures forall x :: 0 <= x < n && !HasId(files, plan.files[x].id) ==> plan.files[x] in mid[k := plan.files[n - 1]]
  {
    var next := mid[k := plan.files[n - 1]];
    forall x | 0 <= x < n ensures HasId(next, plan.files[x].id) {
      if x < n - 1 {
        var y :| 0 <= y < |mid| && mid[y].id == plan.files[x].id;
        assert next[y].id == plan.files[x].id;
      } else {
        assert next[k].id == plan.files[x].id;
      }
    }
    forall x | 0 <= x < n && !HasId(files, plan.files[x].id) ensures plan.files[x] in next {
      assert x < n - 1;
      var y :| 0 <= y < |mid| && mid[y] == plan.files[x];
      assert y != k;
      assert next[y] == plan.files[x];
    }
  }

  lemma AppendEffect(files: seq<File>, plan: Plan, n: nat, mid: seq<File>)
    requires 0 < n <= |plan.files| && UniqueIds(files) && UniqueIds(mid)
    requires Effect(files, plan, n - 1, mid) && PutPlanned(mid, plan, plan.files[n - 1]).Ok?
    requires IndexOf(mid, plan.files[n - 1].id) < 0
    ensures var next := PutPlanned(mid, plan, plan.files[n - 1]).value; Effect(files, plan, n, next) && UniqueIds(next)
  {
    hide ValidReference, PutAll, NewEntry, SlotAfter, Publishable, Planned, Guarded;
    var f := plan.files[n - 1];
    var next := PutPlanned(mid, plan, f).value;
    assert next == mid + [f];
    forall i | 0 <= i < |files| ensures SlotAfter(files[i], plan, n, next[i]) && files[i].id != f.id {
      SlotIds(files, plan, n - 1, mid, i);
      SlotStep(files[i], plan, n, mid[i]);
    }
    assert !HasId(files, f.id);
    forall i | |files| <= i < |next| ensures NewEntry(files, plan, n, next[i]) {
      if i < |mid| {
        NewEntryStep(files, plan, n, mid[i]);
      } else {
        NewEntryIs(files, plan, n);
      }
    }
    AppendKeeps(files, plan, n, mid);
    PublishableIs(mid, plan, f);
  }

  lemma NewEntryIs(files: seq<File>, plan: Plan, n: nat)
    requires 0 < n <= |plan.files| && !HasId(files, plan.files[n - 1].id)
    requires plan.files[n - 1].revision == 1 && plan.files[n - 1].path in plan.absent
    ensures NewEntry(files, plan, n, plan.files[n - 1])
  {
    assert plan.files[..n][n - 1] == plan.files[n - 1];
  }

  lemma AppendKeeps(files: seq<File>, plan: Plan, n: nat, mid: seq<File>)
    requires 0 < n <= |plan.files|
    requires forall x :: 0 <= x < n - 1 ==> HasId(mid, plan.files[x].id)
    requires forall x :: 0 <= x < n - 1 && !HasId(files, plan.files[x].id) ==> plan.files[x] in mid
    ensures forall x :: 0 <= x < n ==> HasId(mid + [plan.files[n - 1]], plan.files[x].id)
    ensures forall x :: 0 <= x < n && !HasId(files, plan.files[x].id) ==> plan.files[x] in mid + [plan.files[n - 1]]
  {
    var next := mid + [plan.files[n - 1]];
    forall x | 0 <= x < n ensures HasId(next, plan.files[x].id) {
      if x < n - 1 {
        var y :| 0 <= y < |mid| && mid[y].id == plan.files[x].id;
        assert next[y].id == plan.files[x].id;
      } else {
        assert next[|mid|].id == plan.files[x].id;
      }
    }
  }

  /** A published plan: the catalog keeps unique ids and present paths, entries
      only move to later revisions, every planned entry is in, and all of its
      ancestors are present folders. */
  lemma PublishKeepsTree(files: seq<File>, plan: Plan)
    requires UniqueIds(files) && Publish(files, plan).Ok?
    ensures var next := Publish(files, plan).value;
            && UniqueIds(next) && UniquePaths(next) && Evolves(files, next)
            && Effect(files, plan, |plan.files|, next)
            && (forall f, p :: f in plan.files && Below(f.path, p) ==> FolderAt(next, p))
  {
    hide ValidReference;
    CheckedGuards(files, plan);
    PutAllEffect(files, plan, |plan.files|);
    var next := Publish(files, plan).value;
    forall i | 0 <= i < |files|
      ensures next[i].id == files[i].id
      ensures Normal(next[i]) == Normal(files[i]) || files[i].revision < next[i].revision
    {
      SlotIds(files, plan, |plan.files|, next, i);
      assert SlotAfter(files[i], plan, |plan.files|, next[i]);
      GuardRevision(files, plan, i);
    }
    forall i, j | 0 <= i < |files| && |files| <= j < |next| ensures files[i].id != next[j].id {
      assert NewEntry(files, plan, |plan.files|, next[j]);
    }
    SlotwiseEvolves(files, next);
    forall f, p | f in plan.files && Below(f.path, p) ensures FolderAt(next, p) {
      AncestorsExact(f.path, p);
      assert !Unsupported(next, f);
    }
    assert !RepeatedPath(next);
  }

  /** The guard the plan carries is the entry's current revision: an entry edited
      after planning, in any way that moved its revision, refuses the plan. */
  lemma GuardRevision(files: seq<File>, plan: Plan, i: int)
    requires UniqueIds(files) && Check(files, plan).None? && 0 <= i < |files|
    ensures Guarded(plan.guards, files[i].id).Some? ==>
              var g := Guarded(plan.guards, files[i].id).value;
              files[i].present && files[i].revision == g.revision && files[i].path == g.path
                && files[i].folder == g.folder
  {
    if Guarded(plan.guards, files[i].id).Some? {
      var g := Guarded(plan.guards, files[i].id).value;
      assert GuardHolds(files, g);
      var k :| 0 <= k < |files| && GuardMatches(files[k], g);
      UniqueIdsFind(files, i, k);
    }
  }

  /** With distinct planned ids, every planned entry is in the result. */
  lemma PublishedIn(files: seq<File>, plan: Plan, k: int)
    requires UniqueIds(files) && Publish(files, plan).Ok? && DistinctPlan(plan) && 0 <= k < |plan.files|
    ensures plan.files[k] in Publish(files, plan).value
  {
    PublishKeepsTree(files, plan);
    var next, f := Publish(files, plan).value, plan.files[k];
    if HasId(files, f.id) {
      var i :| 0 <= i < |files| && files[i].id == f.id;
      assert SlotAfter(files[i], plan, |plan.files|, next[i]);
      PlannedIs(plan, k, |plan.files|);
      assert next[i] == f;
    }
  }

  lemma {:induction false} PlannedIs(plan: Plan, k: int, n: nat)
    requires DistinctPlan(plan) && 0 <= k < n <= |plan.files|
    ensures Planned(plan, plan.files[k].id, n) == Some(plan.files[k])
  {
    if k < n - 1 {
      PlannedIs(plan, k, n - 1);
    }
  }

  // ------------------------------------------------------------------- methods

  /** checkBackupLocked, as the loops run it. */
  method CheckBackup(files: seq<File>, plan: Plan) returns (err: Option<Error>)
    ensures err == Check(files, plan)
  {
    for a := 0 to |plan.guards|
      invariant forall x :: 0 <= x < a ==> GuardHolds(files, plan.guards[x])
    {
      var guard, found := plan.guards[a], false;
      for i := 0 to |files|
        invariant found ==> GuardHolds(files, guard)
        invariant !found ==> forall x :: 0 <= x < i ==> !GuardMatches(files[x], guard)
      {
        if GuardMatches(files[i], guard) {
          found := true;
          break;
        }
      }
      if !found {
        assert !GuardHolds(files, guard) && guard in plan.guards;
        return Some(RevisionMismatch);
      }
    }
    for a := 0 to |plan.absent|
      invariant forall x :: 0 <= x < a ==> !Occupied(files, plan.absent[x])
    {
      for i := 0 to |files|
        invariant forall x :: 0 <= x < i ==> !(files[x].present && files[x].path == plan.absent[a])
      {
        if files[i].present && files[i].path == plan.absent[a] {
          assert Occupied(files, plan.absent[a]) && plan.absent[a] in plan.absent;
          return Some(Conflict);
        }
      }
    }
    err := None;
  }

  method IndexGuards(guards: seq<File>) returns (guarded: map<string, File>)
    ensures forall id :: (if id in guarded then Some(guarded[id]) else None) == Guarded(guards, id)
  {
    guarded := map[];
    for a := 0 to |guards|
      invariant forall id :: (if id in guarded then Some(guarded[id]) else None) == Guarded(guards[..a], id)
    {
      assert guards[..a + 1][..a] == guards[..a];
      guarded := guarded[guards[a].id := guards[a]];
    }
    assert guards[..|guards|] == guards;
  }

  /** The write loop of PublishBackup. */
  method PutPlannedFiles(files: seq<File>, plan: Plan) returns (r: Result<seq<File>>)
    ensures r == PutAll(files, plan, |plan.files|)
  {
    hide ValidReference, Guarded;
    var guarded := IndexGuards(plan.guards);
    var next := files;
    for n := 0 to |plan.files|
      invariant PutAll(files, plan, n) == Ok(next)
    {
      var f := plan.files[n];
      assert (if f.id in guarded then Some(guarded[f.id]) else None) == Guarded(plan.guards, f.id);
      var failed: Option<Error> := None;
      ghost var step := PutPlanned(next, plan, f);
      if f.id == "" || !f.present || f.deletedAt.Some? || f.revision == 0 {
        failed := Some(RevisionMismatch);
      } else if !ValidReference(f) {
        failed := Some(UnknownReference);
      } else {
        var index := IndexOf(next, f.id);
        if index >= 0 {
          if f.id !in guarded || guarded[f.id].revision == MAX_UINT64 || f.revision != guarded[f.id].revision + 1
             || f.folder != guarded[f.id].folder {
            failed := Some(RevisionMismatch);
          } else {
            next := next[index := f];
          }
        } else if f.revision != 1 || f.path !in plan.absent {
          failed := Some(RevisionMismatch);
        } else {
          next := next + [f];
        }
      }
      assert step == if failed.Some? then Err(failed.value) else Ok(next);
      if failed.Some? {
        FailsToTheEnd(files, plan, n + 1, |plan.files|, failed.value);
        return Err(failed.value);
      }
    }
    r := Ok(next);
  }

  lemma {:induction false} FailsToTheEnd(files: seq<File>, plan: Plan, n: nat, m: nat, e: Error)
    requires n <= m <= |plan.files| && PutAll(files, plan, n) == Err(e)
    ensures PutAll(files, plan, m) == Err(e)
  {
    if n < m {
      FailsToTheEnd(files, plan, n, m - 1, e);
    }
  }

  /** The path check after the writes. */
  method FindRepeatedPath(files: seq<File>) returns (repeated: bool, folders: set<string>)
    ensures repeated == RepeatedPath(files)
    ensures !repeated ==> forall p :: p in folders <==> FolderAt(files, p)
  {
    var seen: map<string, File> := map[];
    folders := {};
    for n := 0 to |files|
      invariant forall i, j :: 0 <= i < j < n && files[i].present && files[j].present ==> files[i].path != files[j].path
      invariant forall p :: p in seen <==> exists i :: 0 <= i < n && files[i].present && files[i].path == p
      invariant forall p :: p in folders <==>
                  exists i :: 0 <= i < n && files[i].present && files[i].path == p && files[i].folder
    {
      if files[n].present {
        if files[n].path in seen {
          return true, {};
        }
        seen := seen[files[n].path := files[n]];
        if files[n].folder {
          folders := folders + {files[n].path};
        }
      }
    }
    repeated := false;
  }

  /** Every ancestor of every planned entry is a present folder. */
  method FindUnsupported(next: seq<File>, plan: Plan, folders: set<string>) returns (found: bool)
    requires forall p :: p in folders <==> FolderAt(next, p)
    ensures found <==> exists f :: f in plan.files && Unsupported(next, f)
  {
    for n := 0 to |plan.files|
      invariant forall k :: 0 <= k < n ==> !Unsupported(next, plan.files[k])
    {
      var parents := Ancestors(plan.files[n].path);
      for i := 0 to |parents|
        invariant forall k :: 0 <= k < i ==> FolderAt(next, parents[k])
      {
        if parents[i] !in folders {
          assert Unsupported(next, plan.files[n]);
          return true;
        }
      }
    }
    found := false;
  }

  /** A moved folder leaves nothing behind. */
  method FindLeftBehind(files: seq<File>, plan: Plan) returns (found: bool)
    ensures found <==> exists g, f :: g in plan.guards && f in plan.files && LeavesBehind(files, plan, g, f)
  {
    hide Guarded;
    var guarded := IndexGuards(plan.guards);
    for a := 0 to |plan.guards|
      invariant forall x, y :: 0 <= x < a && 0 <= y < |plan.files| ==>
                  !LeavesBehind(files, plan, plan.guards[x], plan.files[y])
    {
      for b := 0 to |plan.files|
        invariant forall y :: 0 <= y < b ==> !LeavesBehind(files, plan, plan.guards[a], plan.files[y])
      {
        var g, f := plan.guards[a], plan.files[b];
        if !g.folder || f.id != g.id || f.path == g.path {
          continue;
        }
        for i := 0 to |files|
          invariant forall k :: 0 <= k < i ==>
            !(files[k].present && Below(files[k].path, g.path) && Guarded(plan.guards, files[k].id).None?)
        {
          assert (if files[i].id in guarded then Some(guarded[files[i].id]) else None) ==
              Guarded(plan.guards, files[i].id);
          if files[i].present && Below(files[i].path, g.path) && files[i].id !in guarded {
            assert LeavesBehind(files, plan, g, f);
            return true;
          }
        }
      }
    }
    found := false;
  }

  /** PublishBackup, up to the save. */
  method PublishFiles(files: seq<File>, plan: Plan) returns (r: Result<seq<File>>)
    ensures r == Publish(files, plan)
  {
    hide Check, PutAll, RepeatedPath, Unsupported, LeavesBehind;
    var err := CheckBackup(files, plan);
    if err.Some? {
      return Err(err.value);
    }
    r := PutPlannedFiles(files, plan);
    if r.Err? {
      return;
    }
    var repeated, folders := FindRepeatedPath(r.value);
    if repeated {
      return Err(Conflict);
    }
    var unsupported := FindUnsupported(r.value, plan, folders);
    if unsupported {
      return Err(Conflict);
    }
    var leftBehind := FindLeftBehind(files, plan);
    if leftBehind {
      return Err(RevisionMismatch);
    }
  }
}
