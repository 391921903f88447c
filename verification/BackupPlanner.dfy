/** planItem as the loops run it, proved to build exactly the specified plan. */
module BackupPlanner {
  import opened Prelude
  import opened Paths
  import opened Entries
  import opened BackupCas
  import opened BackupPlans

  ghost predicate IsPathMap(m: map<string, File>, current: seq<File>) {
    forall p :: (if p in m then Some(m[p]) else None) == AtPath(current, p)
  }

  ghost predicate IsIdMap(m: map<string, File>, current: seq<File>) {
    forall id :: (if id in m then Some(m[id]) else None) == WithId(current, id)
  }

  method List(files: seq<File>) returns (current: seq<File>)
    ensures current == Present(files)
  {
    current := [];
    for i := 0 to |files|
      invariant current == Present(files[..i])
    {
      assert files[..i + 1][..i] == files[..i];
      if files[i].present {
        current := current + [files[i]];
      }
    }
    assert files[..|files|] == files;
  }

  method IndexCurrent(current: seq<File>) returns (byPath: map<string, File>, byId: map<string, File>)
    ensures IsPathMap(byPath, current) && IsIdMap(byId, current)
  {
    byPath, byId := map[], map[];
    for i := 0 to |current|
      invariant IsPathMap(byPath, current[..i]) && IsIdMap(byId, current[..i])
    {
      assert current[..i + 1][..i] == current[..i];
      byPath := byPath[current[i].path := current[i]];
      byId := byId[current[i].id := current[i]];
    }
    assert current[..|current|] == current;
  }

  lemma {:induction false} AncestorsFail(q: Request, n: nat, m: nat, e: Error)
    requires q.Supplied() && n <= m <= |q.Dirs()|
    requires PlanAncestors(Present(q.files), q.items, q.destination.path, q.Dirs(), q.ids, q.now, n) == Err(e)
    ensures PlanAncestors(Present(q.files), q.items, q.destination.path, q.Dirs(), q.ids, q.now, m) == Err(e)
  {
    if n < m {
      AncestorsFail(q, n, m - 1, e);
    }
  }

  method PlanParents(q: Request, byPath: map<string, File>) returns (r: Result<Plan>)
    requires q.Supplied() && IsPathMap(byPath, Present(q.files))
    ensures r == q.Parents()
  {
    hide AtPath, Ancestors, NewFolder, TrimPrefix, Present;
    var plan := Plan([], [], []);
    var dirs := q.Dirs();
    for n := 0 to |dirs|
      invariant PlanAncestors(Present(q.files), q.items, q.destination.path, dirs, q.ids, q.now, n) == Ok(plan)
    {
      var p := dirs[n];
      assert (if p in byPath then Some(byPath[p]) else None) == AtPath(Present(q.files), p);
      if p in byPath {
        var f := byPath[p];
        if !f.folder {
          AncestorsFail(q, n + 1, |dirs|, Conflict);
          return Err(Conflict);
        }
        plan := plan.(guards := plan.guards + [f]);
        var key := ParentFolder(TrimPrefix(p, q.destination.path + "/"));
        if key in q.items && (q.items[key].id != f.id || q.items[key].revision != f.revision
                              || q.items[key].path != f.path) {
          AncestorsFail(q, n + 1, |dirs|, RevisionMismatch);
          return Err(RevisionMismatch);
        }
      } else {
        plan := plan.(absent := plan.absent + [p], files := plan.files + [NewFolder(q.ids[n], p, q.now)]);
      }
    }
    r := Ok(plan);
  }

  method IsOwned(items: map<ItemKey, File>, child: File) returns (owned: bool)
    ensures owned == Owned(items, child)
  {
    var keys := items.Keys;
    owned := false;
    while keys != {} && !owned
      invariant keys <= items.Keys
      invariant owned ==> Owned(items, child)
      invariant !owned ==> forall k :: k in items && k !in keys ==>
        !(items[k].id == child.id && items[k].revision == child.revision && items[k].path == child.path)
      decreases keys
    {
      var k :| k in keys;
      owned := items[k].id == child.id && items[k].revision == child.revision && items[k].path == child.path;
      keys := keys - {k};
    }
  }

  lemma {:induction false} ChildrenFail(current: seq<File>, items: map<ItemKey, File>, from: string, to: string,
                                        plan: Plan, n: nat, m: nat, e: Error)
    requires n <= m <= |current| && PlanChildren(current, items, from, to, plan, n) == Err(e)
    ensures PlanChildren(current, items, from, to, plan, m) == Err(e)
  {
    if n < m {
      ChildrenFail(current, items, from, to, plan, n, m - 1, e);
    }
  }

  method PlanDescendants(current: seq<File>, byPath: map<string, File>, items: map<ItemKey, File>, from: string,
                         to: string,
                         start: Plan) returns (r: Result<Plan>)
    requires IsPathMap(byPath, current)
    ensures r == PlanChildren(current, items, from, to, start, |current|)
  {
    hide Below, Rebase, AtPath;
    var plan := start;
    for n := 0 to |current|
      invariant PlanChildren(current, items, from, to, start, n) == Ok(plan)
    {
      var child := current[n];
      if !Below(child.path, from) {
        continue;
      }
      var owned := IsOwned(items, child);
      if !owned || child.revision == MAX_UINT64 {
        ChildrenFail(current, items, from, to, start, n + 1, |current|, RevisionMismatch);
        return Err(RevisionMismatch);
      }
      var moved := MovedChild(child, from, to);
      assert (if moved.path in byPath then Some(byPath[moved.path]) else None) == AtPath(current, moved.path);
      if moved.path in byPath && byPath[moved.path].id != child.id {
        ChildrenFail(current, items, from, to, start, n + 1, |current|, Conflict);
        return Err(Conflict);
      }
      plan := Plan(plan.guards + [child], plan.absent + [moved.path], plan.files + [moved]);
    }
    r := Ok(plan);
  }

  /** The mapped item: guards, successor revision, and a folder's descendants. */
  method PlanStored(current: seq<File>, byPath: map<string, File>, byId: map<string, File>, items: map<ItemKey, File>,
                    prior: File, spec: Spec, target: string, plan: Plan)
    returns (r: Result<(Plan, File)>)
    requires IsPathMap(byPath, current) && IsIdMap(byId, current)
    ensures r == PlanMapped(current, items, prior, spec, target, plan)
  {
    assert (if prior.id in byId then Some(byId[prior.id]) else None) == WithId(current, prior.id);
    if prior.id !in byId {
      return Err(RevisionMismatch);
    }
    var live := byId[prior.id];
    if live.path != prior.path || live.revision != prior.revision || live.folder != prior.folder
       || spec.expectedEntry != prior.id || spec.expectedRevision != prior.revision
         || prior.revision == MAX_UINT64 {
      return Err(RevisionMismatch);
    }
    if prior.folder != spec.kind.FolderItem? {
      return Err(Invalid);
    }
    var guarded := plan.(guards := plan.guards + [live]);
    var f := live.(path := target, revision := live.revision + 1);
    if prior.folder && prior.path != target {
      if Below(target, prior.path) {
        return Err(Descendant);
      }
      var full := PlanDescendants(current, byPath, items, prior.path, target, guarded);
      if full.Err? {
        return Err(full.error);
      }
      return Ok((full.value, f));
    }
    r := Ok((guarded, f));
  }

  method PlanBackup(q: Request) returns (r: Result<Draft>)
    requires q.Supplied()
    ensures r == PlanItem(q)
  {
    hide PlanAncestors, PlanChildren, PlanMapped, Check;
    var current := List(q.files);
    var byPath, byId := IndexCurrent(current);
    var key := q.destination.id;
    assert (if key in byId then Some(byId[key]) else None) == WithId(current, key);
    if key !in byId || byId[key].path != q.destination.path || byId[key].revision != q.destination.revision
      || !byId[key].folder {
      return Err(RevisionMismatch);
    }
    var target := q.Target();
    var parents := PlanParents(q, byPath);
    if parents.Err? {
      return Err(parents.error);
    }
    var plan, f := parents.value, Fresh(q.ids[|q.Dirs()|], target, q.spec.kind.FolderItem?, q.now);
    if Item(q.spec.item) in q.items {
      var prior := q.items[Item(q.spec.item)];
      var stored := PlanStored(current, byPath, byId, q.items, prior, q.spec, target, plan);
      if stored.Err? {
        return Err(stored.error);
      }
      plan, f := stored.value.0, stored.value.1;
    } else if q.spec.expectedEntry != "" {
      return Err(RevisionMismatch);
    }
    assert q.Body(parents.value) == Ok((plan, f));
    assert (if target in byPath then Some(byPath[target]) else None) == AtPath(current, target);
    if target in byPath && byPath[target].id != f.id {
      return Err(Conflict);
    }
    if Item(q.spec.item) !in q.items || q.items[Item(q.spec.item)].path != target {
      plan := plan.(absent := plan.absent + [target]);
    }
    plan := plan.(files := plan.files + [Filled(f, q.spec, q.now)]);
    var err := CheckBackup(q.files, plan);
    if err.Some? {
      return Err(err.value);
    }
    r := Ok(Draft(plan, f.id));
  }
}
