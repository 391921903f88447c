/** planItem: turning one item of a device source into a guarded plan. */
module BackupPlans {
  import opened Prelude
  import opened Paths
  import opened Entries
  import opened BackupCas

  datatype ItemKind = FileItem | FolderItem

  /** A normalised specification: a clean relative path, one revision of one item. */
  datatype Spec = Spec(device: string, source: string, item: string, sourceRevision: string, relativePath: string,
                       kind: ItemKind, size: nat, sha256: string, mtime: Option<int>,
                       expectedEntry: string, expectedRevision: uint64)

  /** Go keys the map with the item id, or a NUL-prefixed relative folder path. */
  datatype ItemKey = Item(id: string) | ParentFolder(relative: string)

  datatype Draft = Draft(plan: Plan, primary: string)

  /** List(): the present entries, in order. */
  function Present(files: seq<File>): (r: seq<File>)
    ensures forall f :: f in r <==> f in files && f.present
  {
    if files == [] then [] else
    var n := |files| - 1;
    assert files == files[..n] + [files[n]];
    Present(files[..n]) + if files[n].present then [files[n]] else []
  }

  /** byPath[p] and byID[id]: the last entry wins. */
  function AtPath(current: seq<File>, p: string): (f: Option<File>)
    ensures f.Some? ==> f.value in current && f.value.path == p
    ensures f.None? ==> forall x :: x in current ==> x.path != p
  {
    if current == [] then None else
    var n := |current| - 1;
    assert current == current[..n] + [current[n]];
    if current[n].path == p then Some(current[n]) else AtPath(current[..n], p)
  }

  function WithId(current: seq<File>, id: string): (f: Option<File>)
    ensures f.Some? ==> f.value in current && f.value.id == id
    ensures f.None? ==> forall x :: x in current ==> x.id != id
  {
    if current == [] then None else
    var n := |current| - 1;
    assert current == current[..n] + [current[n]];
    if current[n].id == id then Some(current[n]) else WithId(current[..n], id)
  }

  function TrimPrefix(p: string, prefix: string): string {
    if prefix <= p then p[|prefix|..] else p
  }

  function NewFolder(id: string, path: string, now: int): File {
    File(id, 1, path, true, true, None, false, 0, now, now, "", "", "", None, "", [], [], "", "", "", false, NO_DETAILS)
  }

  /** The stored mapping of an ancestor folder no longer matches the entry. */
  predicate OwnedStale(items: map<ItemKey, File>, key: ItemKey, f: File) {
    key in items && (items[key].id != f.id || items[key].revision != f.revision || items[key].path != f.path)
  }

  /** The walk over the first n ancestors of the target, nearest first. */
  function PlanAncestors(current: seq<File>, items: map<ItemKey, File>, destination: string, dirs: seq<string>,
                         ids: seq<string>, now: int, n: nat): Result<Plan>
    requires n <= |dirs| <= |ids|
  {
    if n == 0 then Ok(Plan([], [], [])) else
    match PlanAncestors(current, items, destination, dirs, ids, now, n - 1)
    case Err(e) => Err(e)
    case Ok(plan) =>
      var p := dirs[n - 1];
      match AtPath(current, p)
      case Some(f) =>
        if !f.folder then Err(Conflict)
        else if OwnedStale(items, ParentFolder(TrimPrefix(p, destination + "/")), f) then Err(RevisionMismatch)
        else Ok(plan.(guards := plan.guards + [f]))
      case None =>
        Ok(plan.(absent := plan.absent + [p], files := plan.files + [NewFolder(ids[n - 1], p, now)]))
  }

  /** The child is exactly an entry this source stored. */
  predicate Owned(items: map<ItemKey, File>, child: File) {
    exists k :: k in items && items[k].id == child.id && items[k].revision == child.revision
                && items[k].path == child.path
  }

  function MovedChild(child: File, from: string, to: string): File
    requires child.revision < MAX_UINT64
  {
    child.(path := Rebase(child.path, from, to), revision := child.revision + 1)
  }

  /** The loop that takes every descendant of a moved folder along. */
  function PlanChildren(current: seq<File>, items: map<ItemKey, File>, from: string, to: string, plan: Plan,
                        n: nat): Result<Plan>
    requires n <= |current|
  {
    if n == 0 then Ok(plan) else
    match PlanChildren(current, items, from, to, plan, n - 1)
    case Err(e) => Err(e)
    case Ok(sofar) =>
      var child := current[n - 1];
      if !Below(child.path, from) then Ok(sofar)
      else if !Owned(items, child) || child.revision == MAX_UINT64 then Err(RevisionMismatch)
      else
        var moved := MovedChild(child, from, to);
        var collision := AtPath(current, moved.path);
        if collision.Some? && collision.value.id != child.id then Err(Conflict)
        else Ok(Plan(sofar.guards + [child], sofar.absent + [moved.path], sofar.files + [moved]))
  }

  /** Size, hash and time from the specification; content references are dropped. */
  function Filled(f: File, spec: Spec, now: int): File {
    var g := f.(size := spec.size, hash := spec.sha256, mtime := if spec.mtime.Some? then spec.mtime.value else now);
    if g.folder then g else g.(reference := None, snap := "", blob := "")
  }

  function Fresh(id: string, path: string, folder: bool, now: int): File {
    File(id, 1, path, folder, true, None, false, 0, 0, now, "", "", "", None, "", [], [], "", "", "", false, NO_DETAILS)
  }

  /** The entry that stands for a mapped item, if the mapping, the live entry and
      the caller's expectation all agree. */
  function LiveMapped(current: seq<File>, prior: File, spec: Spec): Result<File> {
    match WithId(current, prior.id)
    case None => Err(RevisionMismatch)
    case Some(live) =>
      if live.path != prior.path || live.revision != prior.revision || live.folder != prior.folder
         || spec.expectedEntry != prior.id || spec.expectedRevision != prior.revision || prior.revision == MAX_UINT64
      then Err(RevisionMismatch)
      else if prior.folder != spec.kind.FolderItem? then Err(Invalid)
      else Ok(live)
  }

  function PlanMapped(current: seq<File>, items: map<ItemKey, File>, prior: File, spec: Spec, target: string,
                      plan: Plan): (r: Result<(Plan, File)>)
    ensures r.Ok? ==> LiveMapped(current, prior, spec).Ok?
                      && LiveMapped(current, prior, spec).value.revision < MAX_UINT64
  {
    match LiveMapped(current, prior, spec)
    case Err(e) => Err(e)
    case Ok(live) =>
      var guarded := plan.(guards := plan.guards + [live]);
      var f := live.(path := target, revision := live.revision + 1);
      if prior.folder && prior.path != target then
        if Below(target, prior.path) then Err(Descendant)
        else match PlanChildren(current, items, prior.path, target, guarded, |current|)
          case Err(e) => Err(e)
          case Ok(full) => Ok((full, f))
      else Ok((guarded, f))
  }

  /** What planning reads: the catalog, the source record, the specification, a
      fresh id per ancestor plus one for the item, and the clock. */
  datatype Request = Request(files: seq<File>, destination: File, items: map<ItemKey, File>, spec: Spec,
                             ids: seq<string>, now: int)
  {
    function Target(): string {
      destination.path + "/" + spec.relativePath
    }

    function Dirs(): seq<string> {
      Ancestors(Target())
    }

    predicate Supplied() {
      |ids| > |Dirs()|
    }

    predicate Mapped() {
      Item(spec.item) in items
    }

    /** A stored folder item whose place is not the target. */
    predicate IsMove() {
      Mapped() && items[Item(spec.item)].folder && items[Item(spec.item)].path != Target()
    }

    function From(): string {
      if Mapped() then items[Item(spec.item)].path else ""
    }

    function Parents(): Result<Plan>
      requires Supplied()
    {
      PlanAncestors(Present(files), items, destination.path, Dirs(), ids, now, |Dirs()|)
    }

    /** The destination is still exactly the registered folder. */
    predicate DestinationHolds() {
      var dest := WithId(Present(files), destination.id);
      dest.Some? && dest.value.path == destination.path && dest.value.revision == destination.revision
        && dest.value.folder
    }

    /** The item's own entry, and the plan it joins. */
    function Body(plan: Plan): Result<(Plan, File)>
      requires Supplied()
    {
      if Mapped() then PlanMapped(Present(files), items, items[Item(spec.item)], spec, Target(), plan)
      else if spec.expectedEntry != "" then Err(RevisionMismatch)
      else Ok((plan, Fresh(ids[|Dirs()|], Target(), spec.kind.FolderItem?, now)))
    }

    function Finish(body: (Plan, File)): Result<Draft> {
      var (plan, f) := body;
      var occupant := AtPath(Present(files), Target());
      if occupant.Some? && occupant.value.id != f.id then Err(Conflict) else
      var absent := if !Mapped() || From() != Target() then plan.absent + [Target()] else plan.absent;
      var final := Plan(plan.guards, absent, plan.files + [Filled(f, spec, now)]);
      match Check(files, final)
      case Some(e) => Err(e)
      case None => Ok(Draft(final, f.id))
    }
  }

  function PlanItem(q: Request): Result<Draft>
    requires q.Supplied()
  {
    if !q.DestinationHolds() then Err(RevisionMismatch) else
    match q.Parents()
    case Err(e) => Err(e)
    case Ok(plan) =>
      match q.Body(plan)
      case Err(e) => Err(e)
      case Ok(body) => q.Finish(body)
  }

  // ---------------------------------------------------------------- the members

  /** Ancestor walk: existing folders are guarded, missing ones are planned. */
  lemma {:induction false} AncestorMembers(current: seq<File>, items: map<ItemKey, File>, destination: string,
                                           dirs: seq<string>, ids: seq<string>, now: int, n: nat)
    requires n <= |dirs| <= |ids| && PlanAncestors(current, items, destination, dirs, ids, now, n).Ok?
    ensures var plan := PlanAncestors(current, items, destination, dirs, ids, now, n).value;
            && (forall f :: f in plan.files ==>
                  exists k :: 0 <= k < n && AtPath(current, dirs[k]).None? && f == NewFolder(ids[k], dirs[k], now))
            && (forall k :: 0 <= k < n && AtPath(current, dirs[k]).None? ==>
                NewFolder(ids[k], dirs[k], now) in plan.files)
            && (forall p :: p in plan.absent ==> p in dirs[..n])
            && (forall g :: g in plan.guards ==> g in current && g.folder && g.path in dirs[..n])
            && |plan.files| <= n
  {
    if n > 0 {
      AncestorMembers(current, items, destination, dirs, ids, now, n - 1);
      assert dirs[..n] == dirs[..n - 1] + [dirs[n - 1]];
    }
  }

  lemma {:induction false} AncestorIdsDistinct(current: seq<File>, items: map<ItemKey, File>, destination: string,
                                               dirs: seq<string>, ids: seq<string>, now: int, n: nat)
    requires n <= |dirs| <= |ids| && PlanAncestors(current, items, destination, dirs, ids, now, n).Ok?
    requires forall i, j :: 0 <= i < j < |ids| ==> ids[i] != ids[j]
    ensures var plan := PlanAncestors(current, items, destination, dirs, ids, now, n).value;
            DistinctPlan(plan) && forall f :: f in plan.files ==> f.id in ids[..n]
  {
    hide OwnedStale, AtPath;
    if n > 0 {
      AncestorIdsDistinct(current, items, destination, dirs, ids, now, n - 1);
      var plan := PlanAncestors(current, items, destination, dirs, ids, now, n - 1).value;
      assert ids[..n] == ids[..n - 1] + [ids[n - 1]];
      forall f | f in plan.files ensures f.id != ids[n - 1] {
        var k :| 0 <= k < n - 1 && ids[..n - 1][k] == f.id;
        assert ids[k] != ids[n - 1];
      }
    }
  }

  /** Child loop: exactly the present descendants are guarded and re-based. */
  lemma {:induction false} ChildMembers(current: seq<File>, items: map<ItemKey, File>, from: string, to: string,
                                        plan: Plan, n: nat)
    requires n <= |current| && PlanChildren(current, items, from, to, plan, n).Ok?
    ensures var full := PlanChildren(current, items, from, to, plan, n).value;
            && (forall i :: 0 <= i < n && Below(current[i].path, from) ==>
                  current[i].revision < MAX_UINT64 && Owned(items, current[i])
                  && MovedChild(current[i], from, to) in full.files && current[i] in full.guards)
            && (forall f :: f in full.files && f !in plan.files ==>
                  exists i :: 0 <= i < n && Below(current[i].path, from) && current[i].revision < MAX_UINT64
                              && f == MovedChild(current[i], from, to))
            && plan.files <= full.files && plan.guards <= full.guards && plan.absent <= full.absent
            && (forall g :: g in full.guards ==> g in plan.guards || g in current)
  {
    if n > 0 {
      ChildMembers(current, items, from, to, plan, n - 1);
    }
  }

  ghost predicate DistinctIds(current: seq<File>) {
    forall i, j :: 0 <= i < j < |current| ==> current[i].id != current[j].id
  }

  lemma {:induction false} ChildIdsDistinct(current: seq<File>, items: map<ItemKey, File>, from: string, to: string,
                                            plan: Plan, n: nat)
    requires n <= |current| && PlanChildren(current, items, from, to, plan, n).Ok?
    requires DistinctIds(current) && DistinctPlan(plan)
    requires forall f, x :: f in plan.files && x in current ==> f.id != x.id
    ensures var full := PlanChildren(current, items, from, to, plan, n).value;
            && DistinctPlan(full)
            && forall f :: f in full.files ==>
                f in plan.files || exists i :: 0 <= i < n && Below(current[i].path, from) && f.id == current[i].id
  {
    if n > 0 {
      ChildIdsDistinct(current, items, from, to, plan, n - 1);
      var sofar := PlanChildren(current, items, from, to, plan, n - 1).value;
      forall f | f in sofar.files ensures f.id != current[n - 1].id {
        if f !in plan.files {
          var i :| 0 <= i < n - 1 && Below(current[i].path, from) && f.id == current[i].id;
          assert current[i].id != current[n - 1].id;
        } else {
          assert current[n - 1] in current;
        }
      }
    }
  }

  lemma {:induction false} PresentDistinct(files: seq<File>)
    requires UniqueIds(files)
    ensures DistinctIds(Present(files))
  {
    if files != [] {
      var n := |files| - 1;
      PresentDistinct(files[..n]);
      var front := Present(files[..n]);
      forall i | 0 <= i < |front| ensures front[i].id != files[n].id {
        assert front[i] in files[..n];
        var k :| 0 <= k < n && files[..n][k] == front[i];
        assert files[k].id != files[n].id;
      }
    }
  }

  // ------------------------------------------------------- the plan as a whole

  ghost predicate FreshFor(files: seq<File>, ids: seq<string>) {
    && (forall i, j :: 0 <= i < j < |ids| ==> ids[i] != ids[j])
    && (forall i :: 0 <= i < |ids| ==> ids[i] != "" && !HasId(files, ids[i]))
  }

  ghost predicate Sound(q: Request) {
    q.Supplied() && UniqueIds(q.files) && FreshFor(q.files, q.ids)
  }

  /** A planned missing parent of the target. */
  ghost predicate NewParent(q: Request, f: File) {
    && Below(q.Target(), f.path) && !Occupied(q.files, f.path)
    && f.id in q.ids && f == NewFolder(f.id, f.path, q.now)
  }

  /** A planned descendant of the moved folder. */
  ghost predicate TakenAlong(q: Request, f: File) {
    exists i :: 0 <= i < |q.files| && q.files[i].present && Below(q.files[i].path, q.From())
                && q.files[i].revision < MAX_UINT64 && f == MovedChild(q.files[i], q.From(), q.Target())
  }

  ghost predicate AllTaken(q: Request, plan: Plan) {
    forall i :: 0 <= i < |q.files| && q.files[i].present && Below(q.files[i].path, q.From()) ==>
      q.files[i].revision < MAX_UINT64 && MovedChild(q.files[i], q.From(), q.Target()) in plan.files
  }

  lemma ParentsNew(q: Request)
    requires Sound(q) && q.Parents().Ok?
    ensures var plan := q.Parents().value;
            && DistinctPlan(plan)
            && forall f :: f in plan.files ==> NewParent(q, f) && !HasId(q.files, f.id) && f.id != q.ids[|q.Dirs()|]
  {
    var current, dirs, ids := Present(q.files), q.Dirs(), q.ids;
    AncestorMembers(current, q.items, q.destination.path, dirs, ids, q.now, |dirs|);
    AncestorIdsDistinct(current, q.items, q.destination.path, dirs, ids, q.now, |dirs|);
    forall f | f in q.Parents().value.files
      ensures NewParent(q, f) && !HasId(q.files, f.id) && f.id != ids[|dirs|]
    {
      var k :| 0 <= k < |dirs| && AtPath(current, dirs[k]).None? && f == NewFolder(ids[k], dirs[k], q.now);
      AncestorsExact(q.Target(), dirs[k]);
      assert ids[k] != ids[|dirs|];
      NotOccupied(q.files, dirs[k]);
    }
  }

  lemma NotOccupied(files: seq<File>, p: string)
    ensures AtPath(Present(files), p).None? ==> !Occupied(files, p)
  {
    if Occupied(files, p) {
      var i :| 0 <= i < |files| && files[i].present && files[i].path == p;
      assert files[i] in Present(files);
    }
  }

  /** The planned writes before the item itself. */
  function Companions(q: Request): Result<Plan>
    requires q.Supplied()
  {
    match q.Parents()
    case Err(e) => Err(e)
    case Ok(plan) =>
      if q.IsMove() then PlanChildren(Present(q.files), q.items, q.From(), q.Target(), plan, |Present(q.files)|)
      else Ok(plan)
  }

  lemma {:induction false} ChildrenIgnoreGuards(current: seq<File>, items: map<ItemKey, File>, from: string, to: string,
                                                plan: Plan, extra: Plan, n: nat)
    requires n <= |current| && plan.files == extra.files
    ensures var a, b := PlanChildren(current, items, from, to, plan, n),
              PlanChildren(current, items, from, to, extra, n);
            (a.Ok? <==> b.Ok?) && (a.Ok? ==> a.value.files == b.value.files)
  {
    if n > 0 {
      ChildrenIgnoreGuards(current, items, from, to, plan, extra, n - 1);
    }
  }

  /** The item's entry inside a finished plan. */
  ghost predicate ItemEntry(q: Request, f: File)
    requires q.Supplied()
  {
    && f.path == q.Target() && f.present
    && if q.Mapped()
       then var live := LiveMapped(Present(q.files), q.items[Item(q.spec.item)], q.spec);
            live.Ok? && live.value.revision < MAX_UINT64
            && f == live.value.(path := f.path, revision := live.value.revision + 1)
       else f == Fresh(q.ids[|q.Dirs()|], f.path, q.spec.kind.FolderItem?, q.now)
  }

  /** A plan is its companions followed by the item. */
  lemma PlanShape(q: Request) returns (f: File)
    requires q.Supplied() && PlanItem(q).Ok?
    ensures Companions(q).Ok? && PlanItem(q).value.plan.files == Companions(q).value.files + [Filled(f, q.spec, q.now)]
    ensures f.id == PlanItem(q).value.primary && ItemEntry(q, f)
  {
    hide PlanAncestors, PlanChildren, Check, PlanMapped, Filled, ItemEntry;
    var plan := q.Parents().value;
    f := q.Body(plan).value.1;
    if q.Mapped() {
      MappedShape(q, plan);
    } else {
      UnmappedShape(q, plan);
    }
  }

  lemma UnmappedShape(q: Request, plan: Plan)
    requires q.Supplied() && !q.Mapped() && q.Parents() == Ok(plan) && q.Body(plan).Ok?
    ensures Companions(q) == Ok(plan) && q.Body(plan).value.0 == plan && ItemEntry(q, q.Body(plan).value.1)
  {
    hide PlanAncestors;
  }

  lemma MappedShape(q: Request, plan: Plan)
    requires q.Supplied() && q.Mapped() && q.Parents() == Ok(plan) && q.Body(plan).Ok?
    ensures Companions(q).Ok? && q.Body(plan).value.0.files == Companions(q).value.files
            && ItemEntry(q, q.Body(plan).value.1)
  {
    hide PlanAncestors, PlanChildren, LiveMapped;
    var live := LiveMapped(Present(q.files), q.items[Item(q.spec.item)], q.spec).value;
    PriorPresent(q.files, q.items[Item(q.spec.item)], q.spec);
    ChildrenIgnoreGuards(Present(q.files), q.items, q.From(), q.Target(), plan, plan.(guards := plan.guards + [live]),
                         |Present(q.files)|);
  }

  lemma PriorPresent(files: seq<File>, prior: File, spec: Spec)
    ensures var live := LiveMapped(Present(files), prior, spec);
            live.Ok? ==> live.value in files && live.value.present && live.value.id == prior.id
                         && live.value.path == prior.path && live.value.folder == prior.folder
                         && live.value.revision == prior.revision < MAX_UINT64
  {
  }

  /** Every planned write before the item is a missing parent or a descendant of
      the moved folder; ids are distinct; and no descendant is left out. */
  lemma PlanMembers(q: Request)
    requires Sound(q) && Companions(q).Ok?
    ensures var plan := Companions(q).value;
            && DistinctPlan(plan)
            && (forall f :: f in plan.files ==>
                  || (NewParent(q, f) && !HasId(q.files, f.id) && f.id != q.ids[|q.Dirs()|])
                  || (q.IsMove() && TakenAlong(q, f)))
            && (q.IsMove() ==> AllTaken(q, plan))
  {
    hide PlanAncestors, PlanChildren, NewParent, TakenAlong, AllTaken;
    ParentsNew(q);
    if q.IsMove() {
      PresentDistinct(q.files);
      DescendantsTaken(q);
    }
  }

  lemma DescendantsTaken(q: Request)
    requires Sound(q) && q.IsMove() && q.Parents().Ok? && Companions(q).Ok? && DistinctIds(Present(q.files))
    requires DistinctPlan(q.Parents().value) && forall f :: f in q.Parents().value.files ==> !HasId(q.files, f.id)
    ensures DistinctPlan(Companions(q).value) && AllTaken(q, Companions(q).value)
    ensures forall f :: f in Companions(q).value.files ==> f in q.Parents().value.files || TakenAlong(q, f)
  {
    hide PlanAncestors, PlanChildren, TakenAlong, AllTaken, Below, DistinctIds;
    var current, plan, full := Present(q.files), q.Parents().value, Companions(q).value;
    forall f, x | f in plan.files && x in current ensures f.id != x.id {
      var i :| 0 <= i < |q.files| && q.files[i] == x;
    }
    ChildIdsDistinct(current, q.items, q.From(), q.Target(), plan, |current|);
    TakenOnly(q, current, plan, full);
    TakenAll(q, current, plan, full);
  }

  lemma TakenOnly(q: Request, current: seq<File>, plan: Plan, full: Plan)
    requires current == Present(q.files) && PlanChildren(current, q.items, q.From(), q.Target(), plan, |current|) ==
               Ok(full)
    ensures forall f :: f in full.files ==> f in plan.files || TakenAlong(q, f)
  {
    hide PlanChildren, MovedChild, Below;
    ChildMembers(current, q.items, q.From(), q.Target(), plan, |current|);
    forall f | f in full.files && f !in plan.files ensures TakenAlong(q, f) {
      var k :| 0 <= k < |current| && Below(current[k].path, q.From()) && current[k].revision < MAX_UINT64
               && f == MovedChild(current[k], q.From(), q.Target());
      assert current[k] in current;
      var i :| 0 <= i < |q.files| && q.files[i] == current[k];
    }
  }

  lemma TakenAll(q: Request, current: seq<File>, plan: Plan, full: Plan)
    requires current == Present(q.files) && PlanChildren(current, q.items, q.From(), q.Target(), plan, |current|) ==
               Ok(full)
    ensures AllTaken(q, full)
  {
    hide PlanChildren, MovedChild, Below;
    ChildMembers(current, q.items, q.From(), q.Target(), plan, |current|);
    forall i | 0 <= i < |q.files| && q.files[i].present && Below(q.files[i].path, q.From())
      ensures q.files[i].revision < MAX_UINT64 && MovedChild(q.files[i], q.From(), q.Target()) in full.files
    {
      assert q.files[i] in current;
      var k :| 0 <= k < |current| && current[k] == q.files[i];
    }
  }

  /** Every guard of a plan is an entry of the catalog it was planned against. */
  lemma PlanGuards(q: Request)
    requires q.Supplied() && PlanItem(q).Ok?
    ensures forall g :: g in PlanItem(q).value.plan.guards ==> g in q.files && g.present
  {
    hide PlanAncestors, PlanChildren, Check, LiveMapped, Filled;
    var current, plan := Present(q.files), q.Parents().value;
    AncestorMembers(current, q.items, q.destination.path, q.Dirs(), q.ids, q.now, |q.Dirs()|);
    if q.Mapped() {
      var prior := q.items[Item(q.spec.item)];
      var live := LiveMapped(current, prior, q.spec).value;
      PriorPresent(q.files, prior, q.spec);
      if q.IsMove() {
        ChildMembers(current, q.items, q.From(), q.Target(), plan.(guards := plan.guards + [live]), |current|);
      }
    }
  }

  /** The entry of a mapped item is not among its own descendants. */
  lemma ItemNotCompanion(q: Request, f: File, g: File)
    requires Sound(q) && ItemEntry(q, f) && q.IsMove() && TakenAlong(q, g)
    ensures g.id != f.id
  {
    hide Below;
    var prior := q.items[Item(q.spec.item)];
    PriorPresent(q.files, prior, q.spec);
    var live := LiveMapped(Present(q.files), prior, q.spec).value;
    var k :| 0 <= k < |q.files| && q.files[k] == live;
    var i :| 0 <= i < |q.files| && q.files[i].present && Below(q.files[i].path, q.From())
             && q.files[i].revision < MAX_UINT64 && g == MovedChild(q.files[i], q.From(), q.Target());
    NotBelowItself(q.From());
    if g.id == f.id {
      UniqueIdsFind(q.files, i, k);
    }
  }

  lemma NotBelowItself(p: string)
    ensures !Below(p, p)
  {
  }

  /** Plans never name an entry twice; the item comes last. */
  lemma PlanDistinct(q: Request)
    requires Sound(q) && PlanItem(q).Ok?
    ensures var draft := PlanItem(q).value;
            DistinctPlan(draft.plan) && |draft.plan.files| > 0
              && draft.plan.files[|draft.plan.files| - 1].id == draft.primary
  {
    hide PlanItem, Companions, ItemEntry, NewParent, TakenAlong, AllTaken;
    var f := PlanShape(q);
    PlanMembers(q);
    var plan := Companions(q).value;
    forall g | g in plan.files ensures g.id != f.id {
      if q.IsMove() && TakenAlong(q, g) {
        ItemNotCompanion(q, f, g);
      } else {
        ParentNotItem(q, f, g);
      }
    }
  }

  lemma ParentNotItem(q: Request, f: File, g: File)
    requires Sound(q) && ItemEntry(q, f) && !HasId(q.files, g.id) && g.id != q.ids[|q.Dirs()|]
    ensures g.id != f.id
  {
    if q.Mapped() {
      PriorPresent(q.files, q.items[Item(q.spec.item)], q.spec);
      var live := LiveMapped(Present(q.files), q.items[Item(q.spec.item)], q.spec).value;
      var k :| 0 <= k < |q.files| && q.files[k] == live;
      assert q.files[k].id == f.id;
    }
  }
}
