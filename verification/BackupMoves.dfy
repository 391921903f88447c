/** A planned folder move, published on whatever the catalog has become since. */
module BackupMoves {
  import opened Prelude
  import opened Paths
  import opened Entries
  import opened BackupCas
  import opened BackupPlans
  import opened BackupProtocol
  import opened BackupSafety
  import opened Revisions

  // ------------------------------------------------------------------ the plans

  /** The moved folder's own entry after the move: everything it had but the
      place, one revision on, with size, hash and time from the specification. */
  function MovedItem(q: Request, seen: File): File
    requires seen.revision < MAX_UINT64
  {
    seen.(path := q.Target(), revision := seen.revision + 1, size := q.spec.size, hash := q.spec.sha256,
          mtime := if q.spec.mtime.Some? then q.spec.mtime.value else q.now)
  }

  /** One stored entry before and after a move. */
  ghost predicate RebasedSlot(q: Request, primary: string, before: File, after: File) {
    if before.id == primary
    then before.present && before.folder && before.revision < MAX_UINT64 && after == MovedItem(q, before)
    else if before.present && Below(before.path, q.From())
    then before.revision < MAX_UINT64 && after == MovedChild(before, q.From(), q.Target())
    else after == before
  }

  /** A planned write that is only a missing parent. */
  ghost predicate FreshParent(q: Request, f: File) {
    NewParent(q, f) && !HasId(q.files, f.id)
  }

  /** A guard on an existing ancestor of the target. */
  ghost predicate Beside(q: Request, g: File) {
    Below(q.Target(), g.path) && g.revision > 0
  }

  /** What adoption may make of a draft: parents that meanwhile exist are guarded
      instead of written. */
  ghost predicate Adapted(q: Request, draft: Plan, plan: Plan) {
    && DistinctPlan(plan)
    && (forall f :: f in plan.files ==> f in draft.files)
    && (forall f :: f in draft.files ==> f in plan.files || FreshParent(q, f))
    && (forall g :: g in draft.guards ==> g in plan.guards)
    && (forall g :: g in plan.guards ==> g in draft.guards || Beside(q, g))
  }

  lemma DraftAdapts(q: Request)
    requires Sound(q) && PlanItem(q).Ok?
    ensures Adapted(q, PlanItem(q).value.plan, PlanItem(q).value.plan)
  {
    PlanDistinct(q);
  }

  // ------------------------------------------------------------ what a plan holds

  /** The plan of a move over the entry at k: what it writes and what it guards. */
  ghost predicate Moves(q: Request, plan: Plan, k: int) {
    && Sound(q) && q.IsMove() && DistinctPlan(plan) && 0 <= k < |q.files|
    && q.files[k].present && q.files[k].folder && q.files[k].path == q.From() && q.files[k].revision < MAX_UINT64
    && MovedItem(q, q.files[k]) in plan.files && q.files[k] in plan.guards
    && AllTaken(q, plan) && AllGuarded(q, plan)
    && (forall f :: f in plan.files ==> f == MovedItem(q, q.files[k]) || FreshParent(q, f) || TakenAlong(q, f))
    && (forall g :: g in plan.guards ==> (g in q.files && g.present) || Beside(q, g))
  }

  ghost predicate AllGuarded(q: Request, plan: Plan) {
    forall i :: 0 <= i < |q.files| && q.files[i].present && Below(q.files[i].path, q.From()) ==>
        q.files[i] in plan.guards
  }

  /** The folder and every present descendant are guarded. */
  lemma MoveGuards(q: Request, live: File)
    requires q.Supplied() && q.IsMove() && PlanItem(q).Ok?
    requires LiveMapped(Present(q.files), q.items[Item(q.spec.item)], q.spec) == Ok(live)
    ensures live in PlanItem(q).value.plan.guards && AllGuarded(q, PlanItem(q).value.plan)
    ensures !Below(q.Target(), q.From())
  {
    hide PlanAncestors, PlanChildren, Check, LiveMapped, Filled, Below;
    var current, plan := Present(q.files), q.Parents().value;
    PriorPresent(q.files, q.items[Item(q.spec.item)], q.spec);
    var guarded := plan.(guards := plan.guards + [live]);
    ChildMembers(current, q.items, q.From(), q.Target(), guarded, |current|);
    var full := PlanChildren(current, q.items, q.From(), q.Target(), guarded, |current|).value;
    assert live in guarded.guards;
    assert PlanItem(q).value.plan.guards == full.guards;
    forall i | 0 <= i < |q.files| && q.files[i].present && Below(q.files[i].path, q.From())
      ensures q.files[i] in full.guards
    {
      assert q.files[i] in current;
      var x :| 0 <= x < |current| && current[x] == q.files[i];
    }
  }

  /** Where the moved folder is stored. */
  lemma ItemSlot(q: Request, f: File) returns (k: int)
    requires Sound(q) && ItemEntry(q, f) && q.IsMove()
    ensures 0 <= k < |q.files| && q.files[k].present && q.files[k].folder && q.files[k].path == q.From()
    ensures q.files[k].id == q.items[Item(q.spec.item)].id
    ensures q.files[k].revision < MAX_UINT64 && Filled(f, q.spec, q.now) == MovedItem(q, q.files[k])
    ensures LiveMapped(Present(q.files), q.items[Item(q.spec.item)], q.spec) == Ok(q.files[k])
  {
    hide LiveMapped;
    PriorPresent(q.files, q.items[Item(q.spec.item)], q.spec);
    var live := LiveMapped(Present(q.files), q.items[Item(q.spec.item)], q.spec).value;
    k :| 0 <= k < |q.files| && q.files[k] == live;
  }

  lemma DraftMoves(q: Request) returns (k: int)
    requires Sound(q) && q.IsMove() && PlanItem(q).Ok?
    ensures Moves(q, PlanItem(q).value.plan, k) && q.files[k].id == PlanItem(q).value.primary
    ensures !Below(q.Target(), q.From())
    ensures PlanItem(q).value.primary == q.items[Item(q.spec.item)].id
    ensures forall g :: g in PlanItem(q).value.plan.guards ==> g in q.files
  {
    hide PlanItem, Companions, AllTaken, TakenAlong, NewParent, ItemEntry, Filled, LiveMapped, AllGuarded, MovedItem;
    var draft := PlanItem(q).value;
    var f := PlanShape(q);
    PlanMembers(q);
    PlanDistinct(q);
    PlanGuards(q);
    k := ItemSlot(q, f);
    MoveGuards(q, q.files[k]);
    MoreTaken(q, Companions(q).value, draft.plan);
    ItemKeepsId(q, q.files[k]);
    assert draft.plan.files[|draft.plan.files| - 1] == MovedItem(q, q.files[k]);
  }

  lemma ItemKeepsId(q: Request, seen: File)
    requires seen.revision < MAX_UINT64
    ensures MovedItem(q, seen).id == seen.id && MovedItem(q, seen).path == q.Target()
  {
  }

  lemma MoreTaken(q: Request, plan: Plan, more: Plan)
    requires AllTaken(q, plan) && plan.files <= more.files
    ensures AllTaken(q, more)
  {
  }

  /** Adoption leaves the moved entries in the plan. */
  lemma AdaptedMoves(q: Request, draft: Plan, plan: Plan, k: int)
    requires Moves(q, draft, k) && Adapted(q, draft, plan)
    ensures Moves(q, plan, k)
  {
    hide NewParent, Below, DistinctPlan, TakenAlong, MovedItem;
    ItemKeepsId(q, q.files[k]);
    assert HasId(q.files, MovedItem(q, q.files[k]).id);
    forall i | 0 <= i < |q.files| && q.files[i].present && Below(q.files[i].path, q.From())
      ensures q.files[i] in plan.guards
      ensures q.files[i].revision < MAX_UINT64 && MovedChild(q.files[i], q.From(), q.Target()) in plan.files
    {
      assert MovedChild(q.files[i], q.From(), q.Target()).id == q.files[i].id;
    }
  }

  // ---------------------------------------------------------------- publication

  /** Revisions name contents: an entry at a guard's revision is what was guarded. */
  ghost predicate NamesContent(guards: seq<File>, later: seq<File>) {
    forall g, x :: g in guards && x in later && x.id == g.id && x.revision == g.revision ==> Normal(x) == Normal(g)
  }

  /** The entries a move is about. */
  predicate Moving(q: Request, primary: string, f: File) {
    f.id == primary || (f.present && Below(f.path, q.From()))
  }

  /** An entry of a later catalog before and after the publication. An entry of the
      moved subtree is still what was planned on, up to the outbox flag, and moves;
      every other entry stays exactly as it is. */
  ghost predicate RebasedLater(q: Request, primary: string, before: File, after: File) {
    if Moving(q, primary, before)
    then exists seen :: seen in q.files && Moving(q, primary, seen) && Normal(seen) == Normal(before)
                        && RebasedSlot(q, primary, seen, after)
    else after == before
  }

  lemma GuardHeld(later: seq<File>, plan: Plan, g: File, i: int)
    requires UniqueIds(later) && Check(later, plan).None? && g in plan.guards && 0 <= i < |later| && later[i].id == g.id
    ensures GuardMatches(later[i], g)
  {
    assert GuardHolds(later, g);
    var x :| 0 <= x < |later| && GuardMatches(later[x], g);
    UniqueIdsFind(later, i, x);
  }

  /** Nothing below the moved folder was left out of the plan. */
  lemma NoneLeftBehind(q: Request, plan: Plan, k: int, later: seq<File>, i: int)
    requires Moves(q, plan, k) && Publish(later, plan).Ok?
    requires 0 <= i < |later| && later[i].present && Below(later[i].path, q.From())
    ensures Guarded(plan.guards, later[i].id).Some?
  {
    hide Check, PutAll, RepeatedPath, Unsupported, Sound, AllTaken, AllGuarded, Below, MovedItem, Guarded;
    var g, f := q.files[k], MovedItem(q, q.files[k]);
    ItemKeepsId(q, g);
    assert !LeavesBehind(later, plan, g, f);
  }

  lemma ChildStays(q: Request, plan: Plan, k: int, later: seq<File>, i: int) returns (x: int)
    requires Moves(q, plan, k) && !Below(q.Target(), q.From()) && UniqueIds(later) && Publish(later, plan).Ok?
    requires 0 <= i < |later| && later[i].present && Below(later[i].path, q.From())
    ensures 0 <= x < |q.files| && GuardMatches(later[i], q.files[x]) && q.files[x].present
            && Below(q.files[x].path, q.From())
  {
    hide Publish, Check, Below, AllTaken, AllGuarded, DistinctPlan, Guarded;
    NoneLeftBehind(q, plan, k, later, i);
    CheckPassed(later, plan);
    var g := Guarded(plan.guards, later[i].id).value;
    GuardHeld(later, plan, g, i);
    if Beside(q, g) {
      BelowTransitive(q.Target(), g.path, q.From());
    }
    x :| 0 <= x < |q.files| && q.files[x] == g;
  }

  /** What is neither the folder nor below it is no target of a planned write. */
  lemma OthersStay(q: Request, plan: Plan, k: int, later: seq<File>, i: int, f: File)
    requires Moves(q, plan, k) && UniqueIds(later) && Check(later, plan).None?
    requires 0 <= i < |later| && f in plan.files && f.id == later[i].id
    requires Guarded(plan.guards, f.id).Some? && f.revision == Guarded(plan.guards, f.id).value.revision + 1
    ensures Moving(q, q.files[k].id, later[i])
  {
    hide Check, Below, AllTaken, DistinctPlan, Guarded, NewParent, MovedItem;
    var g := Guarded(plan.guards, f.id).value;
    ItemKeepsId(q, q.files[k]);
    if TakenAlong(q, f) {
      var x :| 0 <= x < |q.files| && q.files[x].present && Below(q.files[x].path, q.From())
               && q.files[x].revision < MAX_UINT64 && f == MovedChild(q.files[x], q.From(), q.Target());
      GuardHeld(later, plan, q.files[x], i);
    } else if FreshParent(q, f) {
      FreshIsNew(q, f);
      StoredHasId(q.files, g);
    }
  }

  lemma StoredHasId(files: seq<File>, g: File)
    ensures g in files ==> HasId(files, g.id)
  {
  }

  lemma FreshIsNew(q: Request, f: File)
    requires FreshParent(q, f)
    ensures f.revision == 1 && !HasId(q.files, f.id)
  {
  }

  lemma FolderSlot(q: Request, draft: Plan, plan: Plan, k: int, later: seq<File>, i: int)
    requires Moves(q, draft, k) && Moves(q, plan, k) && UniqueIds(later) && Check(later, plan).None?
    requires NamesContent(draft.guards, later) && 0 <= i < |later| && later[i].id == q.files[k].id
    ensures Planned(plan, later[i].id, |plan.files|) == Some(MovedItem(q, q.files[k]))
    ensures Normal(q.files[k]) == Normal(later[i])
            && RebasedSlot(q, q.files[k].id, q.files[k], MovedItem(q, q.files[k]))
  {
    hide Check, Below, MovedItem, AllTaken, AllGuarded, Planned, DistinctPlan, Normal;
    GuardHeld(later, plan, q.files[k], i);
    ItemKeepsId(q, q.files[k]);
    var x :| 0 <= x < |plan.files| && plan.files[x] == MovedItem(q, q.files[k]);
    PlannedIs(plan, x, |plan.files|);
  }

  lemma ChildSlot(q: Request, draft: Plan, plan: Plan, k: int, later: seq<File>, i: int) returns (y: int)
    requires Moves(q, draft, k) && Moves(q, plan, k) && !Below(q.Target(), q.From())
    requires UniqueIds(later) && Publish(later, plan).Ok? && NamesContent(draft.guards, later)
    requires 0 <= i < |later| && later[i].present && Below(later[i].path, q.From()) && later[i].id != q.files[k].id
    ensures 0 <= y < |q.files| && Moving(q, q.files[k].id, q.files[y]) && Normal(q.files[y]) == Normal(later[i])
    ensures var f := Planned(plan, later[i].id, |plan.files|);
              f.Some? && RebasedSlot(q, q.files[k].id, q.files[y], f.value)
  {
    hide Publish, Below, MovedItem, MovedChild, Planned, DistinctPlan, Normal, Sound;
    y := ChildStays(q, plan, k, later, i);
    ChildKeepsId(q, q.files[y]);
    var x :| 0 <= x < |plan.files| && plan.files[x] == MovedChild(q.files[y], q.From(), q.Target());
    PlannedIs(plan, x, |plan.files|);
  }

  lemma LaterSlot(q: Request, draft: Plan, plan: Plan, k: int, later: seq<File>, next: seq<File>, i: int)
    requires Moves(q, draft, k) && Moves(q, plan, k) && !Below(q.Target(), q.From()) && UniqueIds(later)
    requires Publish(later, plan).Ok? && Effect(later, plan, |plan.files|, next)
    requires NamesContent(draft.guards, later) && 0 <= i < |later|
    ensures RebasedLater(q, q.files[k].id, later[i], next[i])
  {
    hide Publish, Below, Publishable, MovedItem, DistinctPlan, Guarded, Moves, RebasedSlot, NewEntry, Normal;
    hide NamesContent;
    var before, n := later[i], |plan.files|;
    CheckPassed(later, plan);
    ItemIn(q, plan, k);
    assert SlotAfter(before, plan, n, next[i]);
    if before.id == q.files[k].id {
      FolderSlot(q, draft, plan, k, later, i);
    } else if before.present && Below(before.path, q.From()) {
      var y := ChildSlot(q, draft, plan, k, later, i);
    } else if Planned(plan, before.id, n).Some? {
      OthersStay(q, plan, k, later, i, Planned(plan, before.id, n).value);
    }
  }

  lemma ItemIn(q: Request, plan: Plan, k: int)
    requires Moves(q, plan, k)
    ensures 0 <= k < |q.files|
  {
  }

  lemma ChildKeepsId(q: Request, seen: File)
    requires seen.revision < MAX_UINT64
    ensures MovedChild(seen, q.From(), q.Target()).id == seen.id
  {
  }

  lemma LaterNew(q: Request, plan: Plan, k: int, later: seq<File>, next: seq<File>, i: int)
    requires Moves(q, plan, k) && UniqueIds(later) && Check(later, plan).None?
             && Effect(later, plan, |plan.files|, next)
    requires |later| <= i < |next|
    ensures FreshParent(q, next[i])
  {
    hide Check, Below, Publishable, MovedItem, NewParent, SlotAfter, AllTaken, DistinctPlan;
    var f := next[i];
    assert NewEntry(later, plan, |plan.files|, f);
    assert plan.files[..|plan.files|] == plan.files;
    ItemKeepsId(q, q.files[k]);
    assert GuardHolds(later, q.files[k]) by {
      GuardsHold(later, plan, q.files[k]);
    }
    if TakenAlong(q, f) {
      var x :| 0 <= x < |q.files| && q.files[x].present && Below(q.files[x].path, q.From())
               && q.files[x].revision < MAX_UINT64 && f == MovedChild(q.files[x], q.From(), q.Target());
      GuardsHold(later, plan, q.files[x]);
    }
  }

  lemma GuardsHold(later: seq<File>, plan: Plan, g: File)
    requires Check(later, plan).None? && g in plan.guards
    ensures GuardHolds(later, g) && HasId(later, g.id)
  {
    assert GuardHolds(later, g);
    var x :| 0 <= x < |later| && GuardMatches(later[x], g);
  }

  // ------------------------------------------------------------------ adoption

  /** A planned folder at revision one that is not the moved one is a missing parent. */
  lemma FirstRevisionIsParent(q: Request, draft: Plan, k: int, f: File)
    requires Moves(q, draft, k) && Numbered(q.files) && f in draft.files && f.revision == 1 && f.id != q.files[k].id
    ensures FreshParent(q, f) && Below(q.Target(), f.path)
  {
    hide Below, MovedItem, AllTaken, AllGuarded, DistinctPlan;
    ItemKeepsId(q, q.files[k]);
    TakenIsLater(q, f);
    assert NewParent(q, f);
  }

  lemma TakenIsLater(q: Request, f: File)
    requires Numbered(q.files)
    ensures TakenAlong(q, f) ==> f.revision > 1
  {
    assert forall x :: 0 <= x < |q.files| ==> q.files[x] in q.files;
  }

  /** The first n planned entries, some of them adopted. */
  ghost predicate AdaptedUpTo(q: Request, before: Plan, n: nat, plan: Plan)
    requires n <= |before.files|
  {
    && (forall f :: f in plan.files ==> f in before.files[..n])
    && (forall f :: f in before.files[..n] ==> f in plan.files || FreshParent(q, f))
    && (forall g :: g in before.guards ==> g in plan.guards)
    && (forall g :: g in plan.guards ==> g in before.guards || Beside(q, g))
  }

  lemma {:induction false} AdoptsSome(q: Request, draft: Plan, k: int, files: seq<File>, src: Source, op: Operation,
                                      n: nat)
    requires Moves(q, draft, k) && Adapted(q, draft, op.plan) && op.primary == q.files[k].id
    requires Numbered(q.files) && Numbered(files) && n <= |op.plan.files| && AdoptFiles(files, src, op, n).Ok?
    ensures AdaptedUpTo(q, op.plan, n, AdoptFiles(files, src, op, n).value)
  {
    hide Moves, FreshParent, AdoptionHolds, Below;
    if n > 0 {
      AdoptsSome(q, draft, k, files, src, op, n - 1);
      var f := op.plan.files[n - 1];
      assert op.plan.files[..n] == op.plan.files[..n - 1] + [f];
      if Adoptable(files, op, f) {
        FirstRevisionIsParent(q, draft, k, f);
        assert AtPath(Present(files), f.path).value in files;
      }
    }
  }

  /** Adopting parents, once or over and over, keeps a plan adapted. */
  lemma AdoptAdapts(q: Request, files: seq<File>, src: Source, op: Operation)
    requires Sound(q) && q.IsMove() && PlanItem(q).Ok? && Adapted(q, PlanItem(q).value.plan, op.plan)
    requires op.primary == PlanItem(q).value.primary && Numbered(q.files) && Numbered(files)
    requires Adopt(files, src, op).Ok?
    ensures Adapted(q, PlanItem(q).value.plan, Adopt(files, src, op).value.plan)
  {
    hide PlanItem, Moves, FreshParent, Beside, AdoptFiles, Numbered;
    var k := DraftMoves(q);
    AdoptsSome(q, PlanItem(q).value.plan, k, files, src, op, |op.plan.files|);
    AdoptedFiles(files, src, op, |op.plan.files|);
    assert op.plan.files[..|op.plan.files|] == op.plan.files;
  }

  /** Storing and resetting storage change the plan of a file only. */
  lemma FolderKeepsPlan(op: Operation, w: World, env: Env, attempt: string)
    requires forall f :: f in op.plan.files && f.id == op.primary ==> f.folder
    ensures ResetOp(op, attempt).plan == op.plan && Store(w, op, env) == (Done(w), op)
  {
    hide Reset;
    assert UnstoredAll(op, op.plan.files) == op.plan.files;
    assert forall k :: 0 <= k < |op.plan.files| ==> op.plan.files[k] in op.plan.files;
  }

  // ------------------------------------------------------------------ the results

  /** The whole subtree as it stands, and nothing else, moved, each entry from
      exactly what was planned on; new are only missing parents of the target. */
  ghost predicate MoveDone(q: Request, primary: string, later: seq<File>, next: seq<File>) {
    && HasId(later, primary) && |later| <= |next|
    && (forall i :: 0 <= i < |later| ==> RebasedLater(q, primary, later[i], next[i]))
    && (forall i :: |later| <= i < |next| ==> FreshParent(q, next[i]))
    && SubtreeStill(q, primary, later)
    && UniqueIds(next) && UniquePaths(next)
    && forall p :: Below(q.Target(), p) ==> FolderAt(next, p)
  }

  /** A folder move may be published on a catalog that went on since it was planned,
      after parents were adopted or not. */
  lemma MoveRebases(q: Request, plan: Plan, later: seq<File>)
    requires Sound(q) && q.IsMove() && PlanItem(q).Ok? && Adapted(q, PlanItem(q).value.plan, plan)
    requires UniqueIds(later) && NamesContent(PlanItem(q).value.plan.guards, later) && Publish(later, plan).Ok?
    ensures PlanItem(q).value.primary == q.items[Item(q.spec.item)].id
    ensures MoveDone(q, PlanItem(q).value.primary, later, Publish(later, plan).value)
  {
    hide PlanItem, Publish, Moves, Adapted, NamesContent, RebasedLater, FreshParent, Check, Effect;
    var draft, next := PlanItem(q).value, Publish(later, plan).value;
    var k := DraftMoves(q);
    AdaptedMoves(q, draft.plan, plan, k);
    CheckPassed(later, plan);
    PublishKeepsTree(later, plan);
    EffectGrows(later, plan, next);
    forall i | 0 <= i < |later| ensures RebasedLater(q, draft.primary, later[i], next[i]) {
      LaterSlot(q, draft.plan, plan, k, later, next, i);
    }
    forall i | |later| <= i < |next| ensures FreshParent(q, next[i]) {
      LaterNew(q, plan, k, later, next, i);
    }
    ItemHangs(q, plan, k, later);
    SubtreeHeld(q, draft.plan, plan, k, later);
  }

  /** Everything planned to move is still there as it was. */
  ghost predicate SubtreeStill(q: Request, primary: string, later: seq<File>) {
    forall f :: f in q.files && f.present && Moving(q, primary, f) ==>
      exists x :: x in later && Moving(q, primary, x) && Normal(x) == Normal(f)
  }

  lemma SubtreeHeld(q: Request, draft: Plan, plan: Plan, k: int, later: seq<File>)
    requires Moves(q, draft, k) && Moves(q, plan, k) && Check(later, plan).None? && NamesContent(draft.guards, later)
    ensures SubtreeStill(q, q.files[k].id, later)
  {
    hide Check, Below, MovedItem, AllTaken, DistinctPlan, Normal, Guarded;
    forall f | f in q.files && f.present && Moving(q, q.files[k].id, f)
      ensures exists x :: x in later && Moving(q, q.files[k].id, x) && Normal(x) == Normal(f)
    {
      var i :| 0 <= i < |q.files| && q.files[i] == f;
      if f.id == q.files[k].id {
        UniqueIdsFind(q.files, i, k);
      }
      GuardsHold(later, plan, f);
      var x :| 0 <= x < |later| && GuardMatches(later[x], f);
      assert later[x] in later;
    }
  }

  lemma EffectGrows(later: seq<File>, plan: Plan, next: seq<File>)
    requires Effect(later, plan, |plan.files|, next)
    ensures |later| <= |next|
  {
  }

  lemma ItemHangs(q: Request, plan: Plan, k: int, later: seq<File>)
    requires Moves(q, plan, k) && Check(later, plan).None?
    ensures HasId(later, q.files[k].id)
    ensures exists f :: f in plan.files && f.path == q.Target()
  {
    hide Check;
    GuardsHold(later, plan, q.files[k]);
    ItemKeepsId(q, q.files[k]);
  }

  /** An entry of the catalog published on that the move takes. */
  predicate Moved(q: Request, later: seq<File>, y: File)
    requires q.Supplied() && PlanItem(q).Ok?
  {
    y in later && Moving(q, PlanItem(q).value.primary, y)
  }

  /** Along a history: wherever the move is published, the subtree it takes has not
      been touched at any moment since the move was planned. */
  lemma MoveAlongHistory(ts: seq<seq<File>>, i: nat, j: nat, q: Request, plan: Plan)
    requires IsHistory(ts) && i <= j < |ts| && q.files == ts[i]
    requires Sound(q) && q.IsMove() && PlanItem(q).Ok? && Adapted(q, PlanItem(q).value.plan, plan)
    requires Publish(ts[j], plan).Ok?
    ensures MoveDone(q, PlanItem(q).value.primary, ts[j], Publish(ts[j], plan).value)
    ensures forall m, x, y :: i <= m <= j && x in ts[m] && Moved(q, ts[j], y) && x.id == y.id ==> Normal(x) == Normal(y)
  {
    hide PlanItem, Publish, Adapted, MoveDone, NamesContent, IsHistory, Normal, RebasedSlot, Evolves, Below;
    var draft, primary, next := PlanItem(q).value.plan, PlanItem(q).value.primary, Publish(ts[j], plan).value;
    PlanGuards(q);
    HistoryNames(ts, i, j, draft.guards);
    UniqueAt(ts, j);
    MoveRebases(q, plan, ts[j]);
    forall m, x, y | i <= m <= j && x in ts[m] && Moved(q, ts[j], y) && x.id == y.id
      ensures Normal(x) == Normal(y)
    {
      var seen := SeenBefore(q, primary, ts[j], next, y);
      SameThroughout(ts, i, m, j, seen, x, y);
    }
  }

  lemma UniqueAt(ts: seq<seq<File>>, j: nat)
    requires IsHistory(ts) && j < |ts|
    ensures UniqueIds(ts[j])
  {
  }

  lemma SeenBefore(q: Request, primary: string, later: seq<File>, next: seq<File>, y: File) returns (seen: File)
    requires MoveDone(q, primary, later, next) && y in later && Moving(q, primary, y)
    ensures seen in q.files && Normal(seen) == Normal(y)
  {
    hide RebasedSlot, Normal, FreshParent, SubtreeStill, Below;
    var c :| 0 <= c < |later| && later[c] == y;
    assert RebasedLater(q, primary, later[c], next[c]);
    seen :| seen in q.files && Moving(q, primary, seen) && Normal(seen) == Normal(y)
            && RebasedSlot(q, primary, seen, next[c]);
  }

  lemma SameThroughout(ts: seq<seq<File>>, i: nat, m: nat, j: nat, seen: File, x: File, y: File)
    requires IsHistory(ts) && i <= m <= j < |ts| && seen in ts[i] && x in ts[m] && y in ts[j]
    requires x.id == y.id && Normal(seen) == Normal(y)
    ensures Normal(x) == Normal(y)
  {
    hide IsHistory;
    assert Normal(seen).id == seen.id && Normal(seen).revision == seen.revision;
    var a :| 0 <= a < |ts[i]| && ts[i][a] == seen;
    var b :| 0 <= b < |ts[m]| && ts[m][b] == x;
    var c :| 0 <= c < |ts[j]| && ts[j][c] == y;
    RevisionNamesContent(ts, i, m, j, a, b, c);
  }

  lemma HistoryNames(ts: seq<seq<File>>, i: nat, j: nat, guards: seq<File>)
    requires IsHistory(ts) && i <= j < |ts| && forall g :: g in guards ==> g in ts[i]
    ensures NamesContent(guards, ts[j])
  {
    hide IsHistory, Normal;
    forall g, x | g in guards && x in ts[j] && x.id == g.id && x.revision == g.revision ensures Normal(x) == Normal(g) {
      var a :| 0 <= a < |ts[i]| && ts[i][a] == g;
      var c :| 0 <= c < |ts[j]| && ts[j][c] == x;
      RevisionNamesContent(ts, i, j, j, a, c, c);
    }
  }

  /** What Finalize publishes: planned at one moment of a history, its parents
      adopted at a later one, published at one later still. */
  lemma AdoptedMoveRebases(ts: seq<seq<File>>, i: nat, a: nat, j: nat, q: Request, src: Source, op: Operation)
    requires IsHistory(ts) && i <= a < |ts| && i <= j < |ts| && q.files == ts[i] && Numbered(ts[i]) && Numbered(ts[a])
    requires Sound(q) && q.IsMove() && PlanItem(q).Ok? && Adapted(q, PlanItem(q).value.plan, op.plan)
    requires op.primary == PlanItem(q).value.primary && Adopt(ts[a], src, op).Ok?
    ensures var plan := Adopt(ts[a], src, op).value.plan;
            && Adapted(q, PlanItem(q).value.plan, plan)
            && (Publish(ts[j], plan).Ok? ==> MoveDone(q, op.primary, ts[j], Publish(ts[j], plan).value))
  {
    hide PlanItem, Publish, Adapted, MoveDone, IsHistory, Adopt, Numbered;
    AdoptAdapts(q, ts[a], src, op);
    var plan := Adopt(ts[a], src, op).value.plan;
    if Publish(ts[j], plan).Ok? {
      MoveAlongHistory(ts, i, j, q, plan);
    }
  }

  lemma DraftNamesItself(q: Request)
    requires Sound(q) && PlanItem(q).Ok?
    ensures NamesContent(PlanItem(q).value.plan.guards, q.files)
  {
    hide PlanItem;
    PlanGuards(q);
    forall g, x | g in PlanItem(q).value.plan.guards && x in q.files && x.id == g.id ensures x == g {
      SameEntry(q.files, g, x);
    }
  }

  lemma SameEntry(files: seq<File>, a: File, b: File)
    requires UniqueIds(files) && a in files && b in files && a.id == b.id
    ensures a == b
  {
    var i :| 0 <= i < |files| && files[i] == a;
    var j :| 0 <= j < |files| && files[j] == b;
    UniqueIdsFind(files, i, j);
  }

  /** Published on the very catalog it was planned on, a move re-bases exactly the
      old subtree: the folder lands on the target, every present descendant keeps
      its place under it, each one revision later. */
  lemma PlannedMoveRebases(q: Request)
    requires Sound(q) && q.IsMove() && PlanItem(q).Ok? && Publish(q.files, PlanItem(q).value.plan).Ok?
    ensures var draft := PlanItem(q).value;
            var next := Publish(q.files, draft.plan).value;
            && draft.primary == q.items[Item(q.spec.item)].id && |q.files| <= |next|
            && (forall i :: 0 <= i < |q.files| ==> RebasedSlot(q, draft.primary, q.files[i], next[i]))
            && (forall i :: |q.files| <= i < |next| ==> NewParent(q, next[i]))
            && UniqueIds(next) && UniquePaths(next)
  {
    hide PlanItem, Publish, NewParent, RebasedSlot, NamesContent, Adapted, Normal, RebasedLater, SubtreeStill;
    var draft := PlanItem(q).value;
    DraftAdapts(q);
    DraftNamesItself(q);
    MoveRebases(q, draft.plan, q.files);
    var next := Publish(q.files, draft.plan).value;
    forall i | 0 <= i < |q.files| ensures RebasedSlot(q, draft.primary, q.files[i], next[i]) {
      assert RebasedLater(q, draft.primary, q.files[i], next[i]);
      SlotHere(q, draft.primary, q.files[i], next[i]);
    }
    forall i | |q.files| <= i < |next| ensures NewParent(q, next[i]) {
      assert FreshParent(q, next[i]);
    }
  }

  lemma SlotHere(q: Request, primary: string, before: File, after: File)
    requires UniqueIds(q.files) && before in q.files && RebasedLater(q, primary, before, after)
    ensures RebasedSlot(q, primary, before, after)
  {
    hide UniqueIds, MovedItem, MovedChild, Below;
    if Moving(q, primary, before) {
      var seen :| seen in q.files && Moving(q, primary, seen) && Normal(seen) == Normal(before)
                  && RebasedSlot(q, primary, seen, after);
      assert Normal(seen).id == seen.id && Normal(before).id == before.id;
      SameEntry(q.files, seen, before);
    }
  }

  // -------------------------------------------------------------- in the protocol

  /** An operation carrying the plan of this move, as drafted or adapted. */
  ghost predicate Carries(q: Request, op: Operation)
    requires q.Supplied() && PlanItem(q).Ok?
  {
    op.primary == PlanItem(q).value.primary && Adapted(q, PlanItem(q).value.plan, op.plan)
  }

  /** The catalog a call leaves: as it found it, or with the move made. */
  ghost predicate LeavesOrMoves(q: Request, files: seq<File>, after: seq<File>)
    requires q.Supplied() && PlanItem(q).Ok?
  {
    after == files || MoveDone(q, PlanItem(q).value.primary, files, after)
  }

  lemma PublishMoves(q: Request, w: World, op: Operation)
    requires Sound(q) && q.IsMove() && PlanItem(q).Ok? && Carries(q, op) && UniqueIds(w.files)
    requires NamesContent(PlanItem(q).value.plan.guards, w.files) && PublishPlan(w, op).Ok?
    ensures LeavesOrMoves(q, w.files, PublishPlan(w, op).value.files)
  {
    hide PlanItem, Publish, Adapted, MoveDone, NamesContent, AppendChanged;
    MoveRebases(q, op.plan, w.files);
  }

  /** Recovery, whatever storage answers and wherever it crashes. */
  lemma RecoverMoves(q: Request, w: World, op: Operation, s: Storage, x: World)
    requires Sound(q) && q.IsMove() && PlanItem(q).Ok? && Carries(q, op) && UniqueIds(w.files)
    requires NamesContent(PlanItem(q).value.plan.guards, w.files) && x in Recover(w, op, s).trace
    ensures LeavesOrMoves(q, w.files, x.files)
  {
    hide PlanItem, PublishPlan, Carries, MoveDone, NamesContent, MapItems, Evident, ReceiptOf;
    if PublishPlan(w, op).Ok? {
      PublishMoves(q, w, op);
    }
  }

  /** Finalizing from acceptance on: parents are adopted on the catalog as it is, a
      folder stores no bytes, and what gets published is the move. */
  lemma AnnounceMoves(q: Request, w: World, op: Operation, src: Source, env: Env, x: World)
    requires Sound(q) && q.IsMove() && PlanItem(q).Ok? && Carries(q, op) && UniqueIds(w.files)
    requires Numbered(q.files) && Numbered(w.files) && NamesContent(PlanItem(q).value.plan.guards, w.files)
    requires x in Announce(w, op, src, env).trace
    ensures LeavesOrMoves(q, w.files, x.files)
  {
    hide PlanItem, MoveDone, NamesContent, Adopt, Check, Recover, Store, Numbered, Adapted;
    if src.status == Active && Adopt(w.files, src, op).Ok? {
      var adopted := Adopt(w.files, src, op).value;
      AdoptAdapts(q, w.files, src, op);
      AdoptKeepsPrimary(w.files, src, op);
      MovePlanIsFolder(q, adopted);
      FolderKeepsPlan(adopted, w, env, "");
      var intent := adopted.(status := Publishing);
      var w1 := PutOp(w, intent);
      var w2 := PutSource(w1, adopted.sourceKey, src.(pending := adopted.id));
      assert w1.files == w.files && w2.files == w.files;
      if x in Recover(w2, intent, env.last).trace {
        RecoverMoves(q, w2, intent, env.last, x);
      }
    }
  }

  lemma AdoptKeepsPrimary(files: seq<File>, src: Source, op: Operation)
    requires Adopt(files, src, op).Ok?
    ensures Adopt(files, src, op).value.primary == op.primary
  {
  }

  lemma MovePlanIsFolder(q: Request, op: Operation)
    requires Sound(q) && q.IsMove() && PlanItem(q).Ok? && Carries(q, op)
    ensures forall f :: f in op.plan.files && f.id == op.primary ==> f.folder
  {
    hide PlanItem, NewParent, Below, AllTaken, AllGuarded;
    var k := DraftMoves(q);
    var draft := PlanItem(q).value.plan;
    ItemKeepsId(q, q.files[k]);
    forall f | f in op.plan.files && f.id == op.primary ensures f.folder {
      var a :| 0 <= a < |draft.files| && draft.files[a] == f;
      var b :| 0 <= b < |draft.files| && draft.files[b] == MovedItem(q, q.files[k]);
      assert a == b;
    }
  }
}
