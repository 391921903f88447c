/** The coordinator as it runs: one process holding the records in memory, which
    may die before any of its durable writes. Each call leaves exactly a prefix of
    the durable states its specification lists, all of them when it survives. */
module BackupCoordinator {
  import opened Prelude
  import opened Paths
  import opened Entries
  import opened BackupCas
  import opened BackupPlans
  import opened BackupProtocol
  import opened BackupSafety
  import opened BackupRuns
  import opened BackupPlanner

  /** A call that started after the states `before` has gone through `after`. */
  ghost predicate Went(before: seq<World>, r: Run, after: seq<World>, dead: bool, err: Option<Error>) {
    && |r.trace| > 0
    && if dead then before <= after <= before + r.trace[1..]
       else after == before + r.trace[1..] && err == r.error
  }

  lemma WentThen(before: seq<World>, r: Run, mid: seq<World>, s: Run, after: seq<World>, dead: bool, err: Option<Error>)
    requires Went(before, r, mid, false, None) && Went(mid, s, after, dead, err) && Last(r) == s.trace[0]
    ensures Went(before, Then(r, s), after, dead, err)
  {
    assert before + (r.trace + s.trace[1..])[1..] == (before + r.trace[1..]) + s.trace[1..];
  }

  lemma WentNoFurther(before: seq<World>, r: Run, s: Run, after: seq<World>, dead: bool, err: Option<Error>)
    requires Went(before, r, after, dead, err) && (dead || err.Some?) && |s.trace| > 0
    ensures Went(before, Then(r, s), after, dead, err)
  {
    if r.error.None? {
      assert before + (r.trace + s.trace[1..])[1..] == (before + r.trace[1..]) + s.trace[1..];
    }
  }

  lemma WentEnd(before: seq<World>, r: Run, after: seq<World>, err: Option<Error>)
    requires |before| > 0 && Went(before, r, after, false, err) && before[|before| - 1] == r.trace[0]
    ensures |after| > 0 && after[|after| - 1] == Last(r)
  {
  }

  /** result[f.EntryID] = f */
  method ById(files: seq<File>) returns (result: map<string, File>)
    ensures forall id :: (if id in result then Some(result[id]) else None) == WithId(files, id)
  {
    result := map[];
    for n := 0 to |files|
      invariant forall id :: (if id in result then Some(result[id]) else None) == WithId(files[..n], id)
    {
      assert files[..n + 1][..n] == files[..n];
      result := result[files[n].id := files[n]];
    }
    assert files[..|files|] == files;
  }

  /** recoverOperation refreshes every mapped entry the plan touched. */
  method RefreshItems(items: map<ItemKey, File>, files: seq<File>) returns (current: map<ItemKey, File>)
    ensures current == RefreshAll(items, files)
  {
    var result := ById(files);
    current := items;
    var todo := items.Keys;
    while todo != {}
      invariant todo <= items.Keys && current.Keys == items.Keys
      invariant forall k :: k in todo ==> current[k] == items[k]
      invariant forall k :: k in items.Keys - todo ==> current[k] == Refreshed(files, items[k])
    {
      var k :| k in todo;
      assert (if items[k].id in result then Some(result[items[k].id]) else None) == WithId(files, items[k].id);
      if items[k].id in result {
        current := current[k := result[items[k].id]];
      }
      todo := todo - {k};
    }
  }

  /** Then it registers the item and the folders planned on its way. */
  method MapSource(src: Source, op: Operation) returns (items: map<ItemKey, File>, receipt: Option<File>)
    ensures items == MapItems(src, op) && receipt == ReceiptOf(op)
  {
    hide RefreshAll;
    items := RefreshItems(src.items, op.plan.files);
    receipt := op.receipt;
    ghost var refreshed := items;
    for n := 0 to |op.plan.files|
      invariant items == MapPlanned(refreshed, op.plan.files[..n], op, src.destination.path)
      invariant receipt == match WithId(op.plan.files[..n], op.primary) case Some(f) => Some(f) case None => op.receipt
    {
      var f := op.plan.files[n];
      assert op.plan.files[..n + 1][..n] == op.plan.files[..n];
      if f.id == op.primary {
        receipt := Some(f);
        items := items[Item(op.spec.item) := f];
      }
      if f.folder && f.id != op.primary {
        items := items[ParentFolder(TrimPrefix(f.path, src.destination.path + "/")) := f];
      }
    }
    assert op.plan.files[..|op.plan.files|] == op.plan.files;
  }

  /** adoptParents */
  method AdoptParents(files: seq<File>, src: Source, op: Operation) returns (r: Result<Operation>)
    ensures r == Adopt(files, src, op)
  {
    var plan, current := op.plan.(files := []), Present(files);
    for n := 0 to |op.plan.files|
      invariant AdoptFiles(files, src, op, n) == Ok(plan)
    {
      var f, live := op.plan.files[n], AtPath(current, op.plan.files[n].path);
      if !f.folder || f.id == op.primary || f.revision != 1 || live.None? {
        plan := plan.(files := plan.files + [f]);
      } else if AdoptionHolds(files, src, f) {
        plan := plan.(guards := plan.guards + [live.value], absent := Without(plan.absent, f.path));
      } else {
        AdoptFailsToTheEnd(files, src, op, n + 1, |op.plan.files|);
        return Err(RevisionMismatch);
      }
    }
    r := Ok(op.(plan := plan));
  }

  lemma {:induction false} AdoptFailsToTheEnd(files: seq<File>, src: Source, op: Operation, n: nat, m: nat)
    requires n <= m <= |op.plan.files| && AdoptFiles(files, src, op, n) == Err(RevisionMismatch)
    ensures AdoptFiles(files, src, op, m) == Err(RevisionMismatch)
  {
    if n < m {
      AdoptFailsToTheEnd(files, src, op, n, m - 1);
    }
  }

  /** resetStorage's loop over the planned files. */
  method Unstore(op: Operation) returns (files: seq<File>)
    ensures files == UnstoredAll(op, op.plan.files)
  {
    files := op.plan.files;
    for i := 0 to |files|
      invariant |files| == |op.plan.files|
      invariant forall k :: 0 <= k < i ==> files[k] == Unstored(op, op.plan.files[k])
      invariant forall k :: i <= k < |files| ==> files[k] == op.plan.files[k]
    {
      if files[i].id == op.primary && !files[i].folder {
        files := files[i := files[i].(reference := None, snap := "", blob := "")];
      }
    }
  }

  /** Operation records are stored under their id and hold a plan that planItem made. */
  ghost predicate WellKept(w: World) {
    forall id :: id in w.ops ==> w.ops[id].id == id && GoodOp(w.ops[id])
  }

  class Manager {
    /** What is on disk. */
    var world: World
    /** How many more durable writes this process lives to make: it dies at the
        first write beyond its lifetime, and only there. */
    var writes: nat
    var dead: bool
    const lifetime: nat
    ghost var trace: seq<World>

    ghost predicate Valid()
      reads this
    {
      && |trace| > 0 && trace[|trace| - 1] == world && WellKept(world)
      && |trace| + writes == lifetime + 1 && (dead ==> writes == 0)
    }

    constructor (durable: World, lifetime: nat)
      requires WellKept(durable)
      ensures Valid() && !dead && world == durable && trace == [durable]
    {
      this.lifetime := lifetime;
      world, writes, dead, trace := durable, lifetime, false, [durable];
    }

    method Persist(next: World)
      requires Valid() && !dead && WellKept(next)
      modifies this
      ensures Valid() && Went(old(trace), Run([old(world), next], None), trace, dead, None)
      ensures !dead ==> world == next
    {
      if writes == 0 {
        dead := true;
      } else {
        writes, world, trace := writes - 1, next, trace + [next];
      }
    }

    /** The mapping, the receipt and the marker, written in that order. */
    method SettleOperation(op: Operation, src: Source) returns (done: Operation)
      requires Valid() && !dead && GoodOp(op)
      modifies this
      ensures Valid() && Went(old(trace), Settle(old(world), op, src), trace, dead, None)
      ensures !dead ==> done == op.(status := Stored, receipt := ReceiptOf(op)) && op.id in world.ops
                        && world.ops[op.id] == done
    {
      hide MapItems, ReceiptOf, GoodOp, Went, Settle, Then, WellKept;
      ghost var w0, t0 := world, trace;
      var items, receipt := MapSource(src, op);
      done := op;
      var mapped := src.(items := items, pending := op.id);
      ghost var w1, w2, w3 := SettleSplits(w0, op, src);
      ghost var first := Run([w0, w1], None);
      Persist(PutSource(world, op.sourceKey, mapped));
      if dead {
        WentNoFurther(t0, first, Run([w1, w2], None), trace, true, None);
        WentNoFurther(t0, Then(first, Run([w1, w2], None)), Run([w2, w3], None), trace, true, None);
        return;
      }
      ghost var t1 := trace;
      done := op.(status := Stored, receipt := receipt);
      Persist(PutOp(world, done));
      WentThen(t0, first, t1, Run([w1, w2], None), trace, dead, None);
      if dead {
        WentNoFurther(t0, Then(first, Run([w1, w2], None)), Run([w2, w3], None), trace, true, None);
        return;
      }
      ghost var t2 := trace;
      Persist(PutSource(world, op.sourceKey, mapped.(pending := "")));
      WentThen(t0, Then(first, Run([w1, w2], None)), t2, Run([w2, w3], None), trace, dead, None);
    }

    /** The three states a settlement goes through. */
    lemma SettleSplits(w: World, op: Operation, src: Source) returns (w1: World, w2: World, w3: World)
      requires WellKept(w) && GoodOp(op)
      ensures var mapped := src.(items := MapItems(src, op), pending := op.id);
              && w1 == PutSource(w, op.sourceKey, mapped)
              && w2 == PutOp(w1, op.(status := Stored, receipt := ReceiptOf(op)))
              && w3 == PutSource(w2, op.sourceKey, mapped.(pending := ""))
      ensures Settle(w, op, src) == Then(Then(Run([w, w1], None), Run([w1, w2], None)), Run([w2, w3], None))
      ensures WellKept(w1) && WellKept(w2) && WellKept(w3)
    {
      hide MapItems, ReceiptOf, GoodOp;
      var mapped := src.(items := MapItems(src, op), pending := op.id);
      w1 := PutSource(w, op.sourceKey, mapped);
      w2 := PutOp(w1, op.(status := Stored, receipt := ReceiptOf(op)));
      w3 := PutSource(w2, op.sourceKey, mapped.(pending := ""));
      SameGood(op, w2.ops[op.id]);
    }

    method RecoverOperation(op: Operation, s: Storage) returns (done: Operation, err: Option<Error>)
      requires Valid() && !dead && GoodOp(op)
      modifies this
      ensures Valid() && Went(old(trace), Recover(old(world), op, s), trace, dead, err)
      ensures !dead && err.None? ==>
                done == if op.status == Publishing then op.(status := Stored, receipt := ReceiptOf(op)) else op
      ensures !dead && err.None? && op.status == Publishing ==> op.id in world.ops && world.ops[op.id] == done
    {
      hide Evident, PublishPlan, Settle, ReceiptOf, GoodOp;
      done, err := op, None;
      if op.status != Publishing {
        return;
      }
      if op.sourceKey !in world.sources {
        return op, Some(NotFound);
      }
      var src := world.sources[op.sourceKey];
      ghost var w0, t0 := world, trace;
      if Evident(world, op.plan.files) {
        if s.finish.Some? {
          return op, s.finish;
        }
        done := SettleOperation(op, src);
        return;
      }
      if src.status != Active {
        return op, Some(Paused);
      }
      if s.check.Some? {
        return op, s.check;
      }
      var published := PublishPlan(world, op);
      if published.Err? {
        return op, Some(published.error);
      }
      PublicationKeepsOps(world, op);
      Persist(published.value);
      SettleFrom(published.value, op, src);
      if dead {
        WentNoFurther(t0, Run([w0, published.value], None), Settle(published.value, op, src), trace, true, None);
        return;
      }
      if s.finish.Some? {
        return op, s.finish;
      }
      ghost var t1 := trace;
      done := SettleOperation(op, src);
      WentThen(t0, Run([w0, published.value], None), t1, Settle(published.value, op, src), trace, dead, None);
    }

    method RecoverMarked(key: string, s: Storage) returns (err: Option<Error>)
      requires Valid() && !dead && key in world.sources
      modifies this
      ensures Valid() && Went(old(trace), RecoverSource(old(world), key, s), trace, dead, err)
    {
      hide Recover, ReceiptOf, GoodOp;
      var src := world.sources[key];
      err := None;
      if src.pending == "" {
        return;
      }
      if src.pending !in world.ops || world.ops[src.pending].spec.device != src.device {
        return Some(NotFound);
      }
      ghost var w0, t0 := world, trace;
      var op := world.ops[src.pending];
      ghost var r := Recover(w0, op, s);
      var done;
      done, err := RecoverOperation(op, s);
      ghost var t1 := trace;
      if dead || err.Some? {
        WentNoFurther(t0, r, Failed(Last(r), NotFound), trace, dead, err);
        if key in Last(r).sources {
          WentNoFurther(t0, r, Run([Last(r), PutSource(Last(r), key, Last(r).sources[key].(pending := ""))], None),
                        trace, dead, err);
        }
        return;
      }
      WentEnd(t0, r, trace, err);
      assert done.status == Stored <==> op.id in world.ops && world.ops[op.id].status == Stored by {
        if op.status != Publishing {
          RecoverIdle(w0, op, s);
        }
      }
      if key !in world.sources {
        WentThen(t0, r, t1, Failed(world, NotFound), trace, false, Some(NotFound));
        return Some(NotFound);
      }
      if done.status == Stored {
        ghost var w1 := world;
        var refreshed := world.sources[key].(pending := "");
        Persist(PutSource(world, key, refreshed));
        WentThen(t0, r, t1, Run([w1, PutSource(w1, key, refreshed)], None), trace, dead, None);
      }
    }

    /** resetStorage */
    method ResetStorage(op: Operation, attempt: string) returns (done: Operation, err: Option<Error>)
      requires Valid() && !dead && GoodOp(op)
      modifies this
      ensures Valid() && Went(old(trace), Reset(old(world), op, attempt), trace, dead, err)
      ensures !dead && err.None? ==> done == ResetOp(op, attempt)
      ensures !dead && err.None? ==> op.id in world.ops && world.ops[op.id] == done
    {
      hide GoodOp;
      done := op;
      err := CheckBackup(world.files, op.plan);
      if err.Some? {
        return;
      }
      ghost var w0, t0 := world, trace;
      ghost var t := Reset(w0, op, attempt).trace;
      var files := Unstore(op);
      done := op.(storageId := attempt, status := Accepted, plan := op.plan.(files := files));
      ResetGood(op, attempt);
      Persist(PutOp(world, done));
      assert t[1] == PutOp(w0, done) && t0 + t[1..] == t0 + [t[1]] + t[2..];
      if dead {
        return;
      }
      if op.sourceKey !in world.sources {
        return done, Some(NotFound);
      }
      if world.sources[op.sourceKey].pending == op.id {
        Persist(PutSource(world, op.sourceKey, world.sources[op.sourceKey].(pending := "")));
        assert t0 + t[1..] == t0 + [t[1], t[2]];
      }
    }

    /** Stores the bytes of planned file k, replacing an orphaned attempt once. */
    method StorePlanned(op: Operation, k: nat, env: Env) returns (ready: Operation, err: Option<Error>)
      requires Valid() && !dead && GoodOp(op) && k == Unbacked(op, 0)
      modifies this
      ensures Valid() && Went(old(trace), Store(old(world), op, env).0, trace, dead, err)
      ensures !dead && err.None? ==> ready == Store(old(world), op, env).1
    {
      hide Reset, ResetOp, GoodOp;
      ready, err := op, None;
      ghost var w0, t0 := world, trace;
      var stored := env.store;
      if stored == Err(StorageOrphaned) {
        ready, err := ResetStorage(ready, env.attempt2);
        ghost var r := Reset(w0, op, env.attempt2);
        if dead || err.Some? {
          ResetStopped(w0, op, env, t0, trace, dead, err);
          return;
        }
        WentEnd(t0, r, trace, None);
        ResetKeepsIds(op, env.attempt2);
        stored := env.retry;
        if stored.Err? {
          WentThen(t0, r, trace, Failed(Last(r), stored.error), trace, false, Some(stored.error));
        }
      }
      if stored.Err? {
        return ready, Some(stored.error);
      }
      var bytes := stored.value;
      var backed := ready.plan.files[k].(reference := Some(bytes.reference), snap := bytes.snap, blob := bytes.blob);
      ready := ready.(plan := ready.plan.(files := ready.plan.files[k := backed]));
    }

    /** FinalizeReader's storing loop. */
    method StoreBytes(op: Operation, env: Env) returns (ready: Operation, err: Option<Error>)
      requires Valid() && !dead && GoodOp(op)
      modifies this
      ensures Valid() && Went(old(trace), Store(old(world), op, env).0, trace, dead, err)
      ensures !dead && err.None? ==> ready == Store(old(world), op, env).1
    {
      hide Store, Went, Valid;
      ready, err := op, None;
      ghost var w0, t0 := world, trace;
      ghost var k := Unbacked(op, 0);
      NothingToStore(w0, op, env, t0);
      for i := 0 to |op.plan.files|
        invariant Valid() && !dead && err.None? && |ready.plan.files| == |op.plan.files|
        invariant k < 0 || i <= k ==> world == w0 && trace == t0 && ready == op && Unbacked(op, i) == k
        invariant 0 <= k < i ==> Went(t0, Store(w0, op, env).0, trace, false, None) && ready == Store(w0, op, env).1
      {
        if 0 <= k < i {
          StoredKeepsIds(w0, op, env);
          assert op.plan.files[k].id != op.plan.files[i].id;
        }
        var f := ready.plan.files[i];
        if f.id == ready.primary && !f.folder && f.reference.None? {
          ready, err := StorePlanned(ready, i, env);
          if dead || err.Some? {
            return;
          }
          StoredKeepsIds(w0, op, env);
        }
      }
    }

    /** The intent and the marker are written before recovery publishes. */
    method CommitOperation(op: Operation, src: Source, env: Env) returns (done: Operation, err: Option<Error>)
      requires Valid() && !dead && GoodOp(op)
      modifies this
      ensures Valid() && Went(old(trace), Commit(old(world), op, src, env), trace, dead, err)
      ensures !dead && err.None? ==> op.id in world.ops && world.ops[op.id] == done
    {
      hide Recover, GoodOp, ReceiptOf;
      done, err := op.(status := Publishing), None;
      SameGood(op, done);
      ghost var w0, t0, intent := world, trace, done;
      ghost var w1 := PutOp(w0, intent);
      ghost var w2 := PutSource(w1, op.sourceKey, src.(pending := op.id));
      ghost var prefix, rest := Run([w0, w1, w2], None), Recover(w2, intent, env.last);
      Persist(PutOp(world, done));
      assert t0 + prefix.trace[1..] == t0 + [w1] + [w2];
      if dead {
        WentNoFurther(t0, prefix, rest, trace, true, None);
        return;
      }
      Persist(PutSource(world, op.sourceKey, src.(pending := op.id)));
      if dead {
        WentNoFurther(t0, prefix, rest, trace, true, None);
        return;
      }
      ghost var t2 := trace;
      done, err := RecoverOperation(done, env.last);
      WentThen(t0, prefix, t2, rest, trace, dead, err);
    }

    /** FinalizeReader once the source is free: adopt, check, store, commit. */
    method AnnounceOperation(op: Operation, src: Source, env: Env) returns (done: Operation, err: Option<Error>)
      requires Valid() && !dead && GoodOp(op)
      modifies this
      ensures Valid() && Went(old(trace), Announce(old(world), op, src, env), trace, dead, err)
      ensures !dead && err.None? ==> op.id in world.ops && world.ops[op.id] == done
    {
      hide Adopt, Check, Store, Commit, GoodOp;
      done, err := op, None;
      if src.status != Active {
        return done, Some(Paused);
      }
      ghost var w0, t0 := world, trace;
      var adopted := AdoptParents(world.files, src, op);
      if adopted.Err? {
        return done, Some(adopted.error);
      }
      AdoptGood(world.files, src, op);
      err := CheckBackup(world.files, adopted.value.plan);
      if err.Some? {
        return;
      }
      done, err := StoreBytes(adopted.value, env);
      ghost var (r, ready) := Store(w0, adopted.value, env);
      if dead || err.Some? {
        WentNoFurther(t0, r, Commit(Last(r), ready, src, env), trace, dead, err);
        return;
      }
      WentEnd(t0, r, trace, None);
      StoreGood(w0, adopted.value, env);
      ghost var t1 := trace;
      done, err := CommitOperation(done, src, env);
      WentThen(t0, r, t1, Commit(Last(r), ready, src, env), trace, dead, err);
    }

    /** FinalizeReader for an accepted operation. */
    method PublishAccepted(op: Operation, env: Env) returns (done: Operation, err: Option<Error>)
      requires Valid() && !dead && GoodOp(op)
      modifies this
      ensures Valid() && Went(old(trace), Publication(old(world), op, env), trace, dead, err)
      ensures !dead && err.None? ==> op.id in world.ops && world.ops[op.id] == done
    {
      hide RecoverSource, Announce, GoodOp;
      done, err := op, None;
      if op.sourceKey !in world.sources {
        return done, Some(NotFound);
      }
      ghost var w0, t0 := world, trace;
      ghost var r := RecoverSource(w0, op.sourceKey, env.pending);
      err := RecoverMarked(op.sourceKey, env.pending);
      ghost var t1 := trace;
      if dead || err.Some? {
        WentNoFurther(t0, r, Failed(Last(r), NotFound), trace, dead, err);
        if op.sourceKey in Last(r).sources {
          WentNoFurther(t0, r, Announce(Last(r), op, Last(r).sources[op.sourceKey], env), trace, dead, err);
        }
        return;
      }
      WentEnd(t0, r, trace, err);
      if op.sourceKey !in world.sources {
        WentThen(t0, r, t1, Failed(world, NotFound), trace, false, Some(NotFound));
        return done, Some(NotFound);
      }
      done, err := AnnounceOperation(op, world.sources[op.sourceKey], env);
      WentThen(t0, r, t1, Announce(Last(r), op, Last(r).sources[op.sourceKey], env), trace, dead, err);
    }

    /** FinalizeReader after its own storage attempt was found aborted. */
    method PublishAgain(op: Operation, env: Env) returns (done: Operation, err: Option<Error>)
      requires Valid() && !dead && GoodOp(op)
      modifies this
      ensures Valid() && Went(old(trace), Again(old(world), op, env), trace, dead, err)
      ensures !dead && err.None? ==> op.id in world.ops && world.ops[op.id] == done
    {
      hide Reset, Publication, GoodOp;
      ghost var w0, t0 := world, trace;
      ghost var again := Reset(w0, op, env.attempt1);
      ghost var rest := Publication(Last(again), ResetOp(op, env.attempt1), env);
      done, err := ResetStorage(op, env.attempt1);
      if dead || err.Some? {
        WentNoFurther(t0, again, rest, trace, dead, err);
        return;
      }
      WentEnd(t0, again, trace, None);
      ghost var t1 := trace;
      ResetGood(op, env.attempt1);
      done, err := PublishAccepted(done, env);
      WentThen(t0, again, t1, rest, trace, dead, err);
    }

    /** FinalizeReader */
    method FinalizeReader(id: string, device: string, env: Env) returns (view: Option<Operation>, err: Option<Error>)
      requires Valid() && !dead
      modifies this
      ensures Valid() && Went(old(trace), Finalize(old(world), id, device, env), trace, dead, err)
      ensures !dead && err.None? ==> id in world.ops && view == Some(world.ops[id])
    {
      hide Recover, Reset, Publication, Evident, GoodOp, ReceiptOf;
      view, err := None, None;
      if id !in world.ops || (device != "" && world.ops[id].spec.device != device) {
        return None, Some(NotFound);
      }
      ghost var w0, t0 := world, trace;
      var op := world.ops[id];
      ghost var r, stored := Recover(w0, op, env.first), op;
      var done;
      done, err := RecoverOperation(op, env.first);
      if dead {
        FinalizeStops(w0, id, device, env, t0, trace, err);
        return;
      }
      WentEnd(t0, r, trace, err);
      if err.Some? {
        if !env.body || err.value != StorageOrphaned || op.status != Publishing || Evident(world, op.plan.files) {
          return;
        }
        ghost var t1 := trace;
        done, err := PublishAgain(op, env);
        RetriedIs(w0, id, device, env);
        WentThen(t0, Run(r.trace, None), t1, Again(Last(r), op, env), trace, dead, err);
      } else {
        if op.status != Publishing {
          RecoverIdle(w0, op, env.first);
        }
        if done.status == Stored {
          return Some(done), None;
        }
        ghost var t1 := trace;
        if done.status != Accepted {
          WentThen(t0, r, t1, Failed(world, Paused), trace, false, Some(Paused));
          return None, Some(Paused);
        }
        done, err := PublishAccepted(done, env);
        WentThen(t0, r, t1, Publication(Last(r), op, env), trace, dead, err);
      }
      view := if err.None? then Some(done) else None;
    }

    /** Status */
    method AskStatus(id: string, device: string, env: Env) returns (view: Option<Operation>, err: Option<Error>)
      requires Valid() && !dead
      modifies this
      ensures Valid() && Went(old(trace), StatusCall(old(world), id, device, env), trace, dead, err)
      ensures !dead && err.None? ==> id in world.ops && view == Some(world.ops[id])
    {
      hide Recover, GoodOp, ReceiptOf;
      if id !in world.ops || (device != "" && world.ops[id].spec.device != device) {
        return None, Some(NotFound);
      }
      ghost var w0, t0 := world, trace;
      var op := world.ops[id];
      var done;
      done, err := RecoverOperation(op, env.first);
      if !dead && err.None? && op.status != Publishing {
        RecoverIdle(w0, op, env.first);
      }
      view := if err.None? then Some(done) else None;
    }

    /** Cancel of an intent whose plan never reached the catalog. */
    method AbortPublishing(op: Operation, device: string, env: Env) returns (err: Option<Error>)
      requires Valid() && !dead && op.id in world.ops && world.ops[op.id] == op
               && (device == "" || op.spec.device == device)
      requires op.status == Publishing && !Evident(world, op.plan.files)
      modifies this
      ensures Valid() && Went(old(trace), Cancel(old(world), op.id, device, env), trace, dead, err)
    {
      hide Recover, Evident, GoodOp;
      err := None;
      ghost var w0, t0 := world, trace;
      var cancelled := op.(status := Cancelled);
      SameGood(op, cancelled);
      if env.abort.Some? {
        return env.abort;
      }
      if op.sourceKey !in world.sources {
        return Some(NotFound);
      }
      if world.sources[op.sourceKey].pending == op.id {
        ghost var t := Cancel(w0, op.id, device, env).trace;
        Persist(PutSource(world, op.sourceKey, world.sources[op.sourceKey].(pending := "")));
        assert t0 + t[1..] == t0 + [t[1]] + [t[2]];
        if dead {
          return;
        }
      }
      Persist(PutOp(world, cancelled));
    }

    /** Cancel */
    method CancelOperation(id: string, device: string, env: Env) returns (err: Option<Error>)
      requires Valid() && !dead
      modifies this
      ensures Valid() && Went(old(trace), Cancel(old(world), id, device, env), trace, dead, err)
    {
      hide Recover, Evident, GoodOp, ReceiptOf;
      err := None;
      if id !in world.ops || (device != "" && world.ops[id].spec.device != device) {
        return Some(NotFound);
      }
      ghost var w0, t0 := world, trace;
      var op := world.ops[id];
      var cancelled := op.(status := Cancelled);
      SameGood(op, cancelled);
      if op.status == Publishing && !Evident(world, op.plan.files) {
        err := AbortPublishing(op, device, env);
        return;
      }
      ghost var r := Recover(w0, op, env.first);
      var done;
      done, err := RecoverOperation(op, env.first);
      ghost var t1 := trace;
      if dead || err.Some? {
        WentNoFurther(t0, r, Run([Last(r), PutOp(Last(r), cancelled)], None), trace, dead, err);
        return;
      }
      WentEnd(t0, r, trace, err);
      if op.status != Publishing {
        RecoverIdle(w0, op, env.first);
      }
      if done.status == Stored {
        return;
      }
      ghost var w1 := world;
      Persist(PutOp(world, cancelled));
      WentThen(t0, r, t1, Run([w1, PutOp(w1, cancelled)], None), trace, dead, None);
    }

    /** Create */
    method CreateOperation(id: string, key: string, spec: Spec, env: Env) returns (err: Option<Error>)
      requires Valid() && !dead && CreateReady(world, id, key, spec, env) && UniqueIds(world.files)
      modifies this
      ensures Valid() && Went(old(trace), Create(old(world), id, key, spec, env), trace, dead, err)
    {
      hide Recover, RecoverSource, Intend, GoodOp, ReceiptOf;
      if id in world.ops {
        if world.ops[id].spec != spec {
          return Some(IdempotencyConflict);
        }
        var done;
        done, err := RecoverOperation(world.ops[id], env.first);
        return;
      }
      if key !in world.sources {
        return Some(NotFound);
      }
      ghost var w0, t0 := world, trace;
      ghost var r := RecoverSource(w0, key, env.pending);
      err := RecoverMarked(key, env.pending);
      ghost var t1 := trace;
      if dead || err.Some? {
        WentNoFurther(t0, r, Intend(Last(r), id, key, spec, env), trace, dead, err);
        return;
      }
      WentEnd(t0, r, trace, err);
      RecoverSourceUnique(w0, key, env.pending);
      err := IntendOperation(id, key, spec, env);
      WentThen(t0, r, t1, Intend(Last(r), id, key, spec, env), trace, dead, err);
    }

    method IntendOperation(id: string, key: string, spec: Spec, env: Env) returns (err: Option<Error>)
      requires Valid() && !dead && UniqueIds(world.files) && FreshFor(world.files, env.ids)
      modifies this
      ensures Valid() && Went(old(trace), Intend(old(world), id, key, spec, env), trace, dead, err)
    {
      hide GoodOp, PlanItem, FreshFor;
      err := None;
      if key !in world.sources {
        return Some(NotFound);
      }
      if world.sources[key].status != Active {
        return Some(Paused);
      }
      var q := Request(world.files, world.sources[key].destination, world.sources[key].items, spec, env.ids, env.now);
      if !q.Supplied() {
        return Some(Invalid);
      }
      var draft := PlanBackup(q);
      if draft.Err? {
        return Some(draft.error);
      }
      var op := Operation(id, spec, Accepted, draft.value.plan, key, draft.value.primary, "", "", None);
      DraftGood(q, op);
      Persist(PutOp(world, op));
    }
  }

  ghost function Again(w: World, op: Operation, env: Env): (r: Run)
    ensures |r.trace| > 0 && r.trace[0] == w
  {
    var again := Reset(w, op, env.attempt1);
    if again.error.Some? then again else Then(again, Publication(Last(again), ResetOp(op, env.attempt1), env))
  }

  lemma RetriedIs(w: World, id: string, device: string, env: Env)
    requires id in w.ops && (device == "" || w.ops[id].spec.device == device) && env.body
    requires var r := Recover(w, w.ops[id], env.first);
             r.error == Some(StorageOrphaned) && w.ops[id].status == Publishing
               && !Evident(Last(r), w.ops[id].plan.files)
    ensures var r := Recover(w, w.ops[id], env.first);
            Finalize(w, id, device, env) == Then(Run(r.trace, None), Again(Last(r), w.ops[id], env))
  {
    hide Recover, Reset, Publication, Evident;
    var op, r := w.ops[id], Recover(w, w.ops[id], env.first);
    var s, again := Run(r.trace, None), Reset(Last(r), op, env.attempt1);
    if again.error.None? {
      var rest := Publication(Last(again), ResetOp(op, env.attempt1), env);
      assert (s.trace + again.trace[1..]) + rest.trace[1..] == s.trace + (again.trace + rest.trace[1..])[1..];
    }
  }

  lemma RecoverSourceUnique(w: World, key: string, s: Storage)
    requires key in w.sources && UniqueIds(w.files)
    ensures UniqueIds(Last(RecoverSource(w, key, s)).files)
  {
    hide Evident, MapItems, Publish, AppendChanged, UniqueIds;
    forall op: Operation | PublishPlan(w, op).Ok? ensures UniqueIds(PublishPlan(w, op).value.files) {
      PublishKeepsTree(w.files, op.plan);
    }
  }

  lemma StoreGood(w: World, op: Operation, env: Env)
    requires GoodOp(op)
    ensures GoodOp(Store(w, op, env).1) && Store(w, op, env).1.id == op.id
  {
    hide GoodOp, Reset, WithBytes, Unbacked;
    var k := Unbacked(op, 0);
    if k >= 0 {
      if env.store.Ok? {
        WithBytesGood(op, k, env.store.value);
      }
      ResetGood(op, env.attempt2);
      if env.retry.Ok? {
        WithBytesGood(ResetOp(op, env.attempt2), k, env.retry.value);
      }
    }
  }

  /** A process that dies in the first recovery has died in the finalization. */
  lemma FinalizeStops(w: World, id: string, device: string, env: Env, t0: seq<World>, after: seq<World>,
                      err: Option<Error>)
    requires id in w.ops && (device == "" || w.ops[id].spec.device == device)
    requires Went(t0, Recover(w, w.ops[id], env.first), after, true, err)
    ensures Went(t0, Finalize(w, id, device, env), after, true, err)
  {
    hide Recover, Reset, Publication, Evident;
    var r := Recover(w, w.ops[id], env.first);
    var v, op := Last(r), w.ops[id];
    var s, again := Run(r.trace, None), Reset(v, op, env.attempt1);
    WentNoFurther(t0, s, again, after, true, err);
    WentNoFurther(t0, Then(s, again), Publication(Last(again), ResetOp(op, env.attempt1), env), after, true, err);
    WentNoFurther(t0, r, Failed(v, NotFound), after, true, err);
    WentNoFurther(t0, r, Failed(v, Paused), after, true, err);
    if id in v.ops {
      WentNoFurther(t0, r, Publication(v, v.ops[id], env), after, true, err);
    }
  }

  lemma NothingToStore(w: World, op: Operation, env: Env, t: seq<World>)
    ensures Unbacked(op, 0) < 0 ==> Went(t, Store(w, op, env).0, t, false, None) && Store(w, op, env).1 == op
  {
  }

  lemma StoredKeepsIds(w: World, op: Operation, env: Env)
    ensures var a := Store(w, op, env).1;
            && a.primary == op.primary && |a.plan.files| == |op.plan.files|
            && forall x :: 0 <= x < |op.plan.files| ==> a.plan.files[x].id == op.plan.files[x].id
  {
    hide Reset;
    ResetKeepsIds(op, env.attempt2);
  }

  lemma ResetKeepsIds(op: Operation, attempt: string)
    ensures var a := ResetOp(op, attempt);
            && a.primary == op.primary && |a.plan.files| == |op.plan.files|
            && forall x :: 0 <= x < |op.plan.files| ==> a.plan.files[x].id == op.plan.files[x].id
  {
  }

  lemma ResetStopped(w: World, op: Operation, env: Env, t0: seq<World>, after: seq<World>, dead: bool,
                     err: Option<Error>)
    requires Unbacked(op, 0) >= 0 && env.store == Err(StorageOrphaned) && (dead || err.Some?)
    requires Went(t0, Reset(w, op, env.attempt2), after, dead, err)
    ensures Went(t0, Store(w, op, env).0, after, dead, err)
  {
    hide Reset, ResetOp;
    var r := Reset(w, op, env.attempt2);
    if env.retry.Err? {
      WentNoFurther(t0, r, Failed(Last(r), env.retry.error), after, dead, err);
    }
  }

  lemma PublicationKeepsOps(w: World, op: Operation)
    ensures PublishPlan(w, op).Ok? ==> PublishPlan(w, op).value.ops == w.ops
  {
    hide Publish, AppendChanged;
  }

  lemma SettleFrom(w: World, op: Operation, src: Source)
    ensures |Settle(w, op, src).trace| > 0 && Settle(w, op, src).trace[0] == w
  {
  }
}
