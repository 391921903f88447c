/** Retrying a crashed finalization reaches the uncrashed outcome. */
module BackupRetry {
  // From every durable state the first attempt can stop in, the same call
  // reaches the same catalog, mapping and receipt.

  import opened Prelude
  import opened Entries
  import opened Journals
  import opened BackupCas
  import opened BackupPlans
  import opened BackupProtocol
  import opened BackupSafety
  import opened BackupRuns

  const QUIET := Storage(None, None)

  /** The storage layer and the body cooperate. */
  predicate Quiet(env: Env) {
    env.first == QUIET && env.pending == QUIET && env.last == QUIET && env.store.Ok?
  }

  function Unmarked(sources: map<string, Source>): map<string, Source> {
    map key | key in sources :: sources[key].(pending := "")
  }

  /** Equal in everything but the sources' recovery markers. */
  predicate SameUpToMarkers(a: World, b: World) {
    a.(sources := map[]) == b.(sources := map[]) && Unmarked(a.sources) == Unmarked(b.sources)
  }

  // ------------------------------------------------------- the mapping settles

  lemma {:induction false} MapPlannedOverlays(items: map<ItemKey, File>, files: seq<File>, op: Operation,
                                              destination: string)
    ensures MapPlanned(items, files, op, destination) == items + MapPlanned(map[], files, op, destination)
  {
    if files != [] {
      MapPlannedOverlays(items, files[..|files| - 1], op, destination);
    }
  }

  lemma {:induction false} MapPlannedFrom(files: seq<File>, op: Operation, destination: string)
    ensures forall k :: k in MapPlanned(map[], files, op, destination) ==>
              MapPlanned(map[], files, op, destination)[k] in files
  {
    if files != [] {
      var n := |files| - 1;
      MapPlannedFrom(files[..n], op, destination);
      assert files == files[..n] + [files[n]];
    }
  }

  lemma {:induction false} DistinctFind(files: seq<File>, f: File)
    requires f in files && forall i, j :: 0 <= i < j < |files| ==> files[i].id != files[j].id
    ensures WithId(files, f.id) == Some(f)
  {
    var n := |files| - 1;
    assert files == files[..n] + [files[n]];
    if f in files[..n] {
      DistinctFind(files[..n], f);
    }
  }

  /** Applying a plan to the mapping it already produced changes nothing. */
  lemma MappingSettles(src: Source, again: Source, op: Operation)
    requires DistinctPlan(op.plan) && again.items == MapItems(src, op) && again.destination == src.destination
    ensures MapItems(again, op) == again.items
  {
    var files, dest := op.plan.files, src.destination.path;
    var refreshed, added := RefreshAll(src.items, files), MapPlanned(map[], files, op, dest);
    MapPlannedOverlays(refreshed, files, op, dest);
    MapPlannedFrom(files, op, dest);
    var m := again.items;
    assert m == refreshed + added;
    forall k | k in m ensures Refreshed(files, m[k]) == m[k] {
      if m[k] in files {
        DistinctFind(files, m[k]);
      } else {
        assert m[k] == Refreshed(files, src.items[k]);
      }
    }
    assert RefreshAll(m, files) == m;
    MapPlannedOverlays(m, files, op, dest);
    assert m + added == m;
  }

  lemma {:induction false} PrimaryMapped(items: map<ItemKey, File>, files: seq<File>, op: Operation,
                                         destination: string, f: File)
    requires f in files && f.id == op.primary
    requires forall i, j :: 0 <= i < j < |files| ==> files[i].id != files[j].id
    ensures var m := MapPlanned(items, files, op, destination); Item(op.spec.item) in m && m[Item(op.spec.item)] == f
  {
    var n := |files| - 1;
    assert files == files[..n] + [files[n]];
    if files[n] != f {
      assert f in files[..n];
      PrimaryMapped(items, files[..n], op, destination, f);
    }
  }

  /** Every mapped entry the plan touched is mapped at its planned version. */
  ghost predicate Current(items: map<ItemKey, File>, files: seq<File>) {
    forall k, f :: k in items && f in files && f.id == items[k].id ==> items[k] == f
  }

  /** Settling maps the item to the entry its receipt names, and leaves no mapped
      entry at a version older than the plan's. */
  lemma SettledMapping(w: World, op: Operation, src: Source)
    requires GoodOp(op)
    ensures var v := Last(Settle(w, op, src));
            && op.sourceKey in v.sources && op.id in v.ops && v.ops[op.id].status == Stored
            && v.ops[op.id].receipt.Some?
            && v.sources[op.sourceKey].pending == ""
            && Item(op.spec.item) in v.sources[op.sourceKey].items
            && v.sources[op.sourceKey].items[Item(op.spec.item)] == v.ops[op.id].receipt.value
            && Current(v.sources[op.sourceKey].items, op.plan.files)
  {
    var files, dest := op.plan.files, src.destination.path;
    var refreshed, added, m := RefreshAll(src.items, files), MapPlanned(map[], files, op, dest), MapItems(src, op);
    PrimaryMapped(refreshed, files, op, dest, WithId(files, op.primary).value);
    MapPlannedOverlays(refreshed, files, op, dest);
    MapPlannedFrom(files, op, dest);
    forall k, f | k in m && f in files && f.id == m[k].id ensures m[k] == f {
      DistinctFind(files, f);
      if m[k] in files {
        DistinctFind(files, m[k]);
      }
    }
  }

  // --------------------------------------------------------- recovery settles

  /** A recovery resumed inside its settling phase. */
  lemma SettleResumes(w: World, op: Operation, src: Source, k: nat)
    requires DistinctPlan(op.plan) && op.id in w.ops && w.ops[op.id] == op && op.status == Publishing
    requires op.sourceKey in w.sources && w.sources[op.sourceKey] == src
    requires Evident(w, op.plan.files) && k < 4
    ensures var c := Settle(w, op, src).trace[k];
            && op.id in c.ops
            && Recover(c, c.ops[op.id], QUIET).error.None?
            && Last(Recover(c, c.ops[op.id], QUIET)) == (if k == 2 then c else Last(Settle(w, op, src)))
            && SameUpToMarkers(Last(Recover(c, c.ops[op.id], QUIET)), Last(Settle(w, op, src)))
            && Last(Settle(w, op, src)).ops[op.id].status == Stored
  {
    hide MapItems, Evident, ReceiptOf, DistinctPlan;
    var mapped := src.(items := MapItems(src, op), pending := op.id);
    var w1 := PutSource(w, op.sourceKey, mapped);
    SameEvidence(w, w1, op.plan.files);
    var t := Settle(w, op, src);
    if k == 1 {
      MappingSettles(src, mapped, op);
      SettleAgain(w, w1, op, src, mapped);
    } else if k == 2 {
      assert Unmarked(t.trace[2].sources) == Unmarked(t.trace[3].sources);
    }
  }

  /** Settling depends on the source only through its items and destination. */
  lemma SettleAgain(w: World, x: World, op: Operation, src: Source, other: Source)
    requires x.(sources := map[]) == w.(sources := map[])
    requires x.sources == w.sources[op.sourceKey := other]
    requires MapItems(other, op) == MapItems(src, op)
    requires other.(items := src.items, pending := src.pending) == src
    ensures Last(Settle(x, op, other)) == Last(Settle(w, op, src)) && Settle(x, op, other).error.None?
  {
    hide MapItems;
    var a, b := Settle(x, op, other).trace, Settle(w, op, src).trace;
    assert x.sources[op.sourceKey := src] == w.sources[op.sourceKey := src];
    assert a[1] == b[1] by {
      assert x.sources[op.sourceKey := b[1].sources[op.sourceKey]] ==
          w.sources[op.sourceKey := b[1].sources[op.sourceKey]];
    }
  }

  /** Where a recovery that succeeded passed through. */
  lemma RecoverTrace(w: World, op: Operation) returns (x: World)
    requires Inv(w) && op.id in w.ops && w.ops[op.id] == op && op.status == Publishing
    requires op.id in w.log ==> Evident(w, op.plan.files)
    requires Recover(w, op, QUIET).error.None?
    ensures op.sourceKey in w.sources && Evident(x, op.plan.files) && x.ops == w.ops && x.sources == w.sources
    ensures var r, t := Recover(w, op, QUIET), Settle(x, op, w.sources[op.sourceKey]);
            && t.error.None? && Last(r) == Last(t)
            && (forall c :: c in r.trace ==> c == w || c in t.trace)
  {
    hide Inv, Evident, PublishPlan, MapItems;
    if Evident(w, op.plan.files) {
      x := w;
    } else {
      PublicationSafe(w, op);
      x := PublishPlan(w, op).value;
    }
  }

  lemma RecoverResumes(w: World, op: Operation, c: World)
    requires Inv(w) && op.id in w.ops && w.ops[op.id] == op
    requires op.id in w.log && op.status == Publishing ==> Evident(w, op.plan.files)
    requires Recover(w, op, QUIET).error.None? && c in Recover(w, op, QUIET).trace
    ensures op.id in c.ops && Recover(c, c.ops[op.id], QUIET).error.None?
    ensures SameUpToMarkers(Last(Recover(c, c.ops[op.id], QUIET)), Last(Recover(w, op, QUIET)))
    ensures Last(Recover(c, c.ops[op.id], QUIET)) == Last(Recover(w, op, QUIET))
         || (c.ops[op.id].status == Stored && c in Recover(w, op, QUIET).trace
             && op.sourceKey in c.sources && c.sources[op.sourceKey].pending == op.id
             && Last(Recover(w, op, QUIET)) == PutSource(c, op.sourceKey, c.sources[op.sourceKey].(pending := "")))
  {
    hide Inv, Evident, Recover, MapItems;
    if op.status != Publishing {
      assert Recover(w, op, QUIET) == Done(w) by {
        RecoverIdle(w, op, QUIET);
      }
    } else {
      OpKey(w, op.id);
      var x := RecoverTrace(w, op);
      var src := w.sources[op.sourceKey];
      var t := Settle(x, op, src).trace;
      if c != w {
        var k :| 0 <= k < |t| && t[k] == c;
        SettleResumes(x, op, src, k);
      }
    }
  }

  // ------------------------------------------------- recovering the source first

  /** The nested recovery of a source's marked operation, resumed. */
  lemma RecoverSourceResumes(w: World, key: string, c: World)
    requires Inv(w) && Retained(w) && key in w.sources
    requires RecoverSource(w, key, QUIET).error.None? && c in RecoverSource(w, key, QUIET).trace
    ensures key in c.sources && RecoverSource(c, key, QUIET).error.None?
    ensures Last(RecoverSource(c, key, QUIET)) == Last(RecoverSource(w, key, QUIET))
  {
    hide Inv, Retained, Recover, Evident, SameUpToMarkers;
    var src := w.sources[key];
    if src.pending != "" {
      var op := w.ops[src.pending];
      OpKey(w, src.pending);
      MarkKey(w, key);
      RetainedFor(w, op.id);
      RecoverSafe(w, op, QUIET);
      var r := Recover(w, op, QUIET);
      if op.status != Publishing {
        RecoverIdle(w, op, QUIET);
        if op.status == Stored && c != w {
          assert c.sources[key].pending == "";
        }
      } else {
        MarkedSourceResumes(w, key, op, c);
      }
    }
  }

  lemma MarkKey(w: World, key: string)
    requires Inv(w) && key in w.sources && w.sources[key].pending in w.ops && w.sources[key].pending != ""
    ensures w.ops[w.sources[key].pending].sourceKey == key
  {
    assert GoodMark(w, key, w.sources[key]);
  }

  /** The case of an operation caught publishing. */
  lemma MarkedSourceResumes(w: World, key: string, op: Operation, c: World)
    requires Inv(w) && key in w.sources && w.sources[key].pending == op.id != "" && op.id in w.ops && w.ops[op.id] == op
    requires op.status == Publishing && op.sourceKey == key && op.spec.device == w.sources[key].device
    requires op.id in w.log ==> Evident(w, op.plan.files)
    requires RecoverSource(w, key, QUIET).error.None? && c in RecoverSource(w, key, QUIET).trace
    ensures key in c.sources && RecoverSource(c, key, QUIET).error.None?
    ensures Last(RecoverSource(c, key, QUIET)) == Last(RecoverSource(w, key, QUIET))
  {
    hide Inv, Evident, Recover, MapItems, SameUpToMarkers, RecoverSource;
    var r := Recover(w, op, QUIET);
    OpKey(w, op.id);
    RecoverFailsSource(w, key, op);
    var x := RecoverTrace(w, op);
    var src := w.sources[key];
    var t := Settle(x, op, src).trace;
    var last := t[3];
    assert last.ops[op.id].status == Stored && last.sources[key].pending == "";
    SourceRecovers(w, key, op);
    SourceTrace(w, key, op, c);
    Unmarking(last, key);
    if c != w && c != last {
      var k :| 0 <= k < |t| && t[k] == c;
      SettleResumes(x, op, src, k);
      assert c.sources[key].pending == op.id && c.sources[key].device == src.device;
      SourceRecovers(c, key, c.ops[op.id]);
      if k == 2 {
        assert PutSource(c, key, c.sources[key].(pending := "")) == last;
      }
    } else if c == last {
      SourceIdle(last, key);
    }
  }

  lemma Unmarking(w: World, key: string)
    requires key in w.sources && w.sources[key].pending == ""
    ensures PutSource(w, key, w.sources[key].(pending := "")) == w
  {
    assert w.sources[key := w.sources[key]] == w.sources;
  }

  lemma SourceIdle(w: World, key: string)
    requires key in w.sources && w.sources[key].pending == ""
    ensures RecoverSource(w, key, QUIET) == Done(w)
  {
  }

  /** The nested recovery fails with the recovery inside it. */
  lemma RecoverFailsSource(w: World, key: string, op: Operation)
    requires key in w.sources && w.sources[key].pending == op.id != "" && op.id in w.ops && w.ops[op.id] == op
    requires op.spec.device == w.sources[key].device && RecoverSource(w, key, QUIET).error.None?
    ensures Recover(w, op, QUIET).error.None?
  {
    hide Recover;
  }

  lemma SourceRecovers(c: World, key: string, op: Operation)
    requires key in c.sources && c.sources[key].pending == op.id != "" && op.id in c.ops && c.ops[op.id] == op
    requires op.spec.device == c.sources[key].device && Recover(c, op, QUIET).error.None?
    requires var v := Last(Recover(c, op, QUIET)); key in v.sources && op.id in v.ops && v.ops[op.id].status == Stored
    ensures var v := Last(Recover(c, op, QUIET));
            RecoverSource(c, key, QUIET).error.None?
            && Last(RecoverSource(c, key, QUIET)) == PutSource(v, key, v.sources[key].(pending := ""))
  {
    hide Recover;
  }

  lemma SourceTrace(w: World, key: string, op: Operation, c: World)
    requires key in w.sources && w.sources[key].pending == op.id != "" && op.id in w.ops && w.ops[op.id] == op
    requires op.spec.device == w.sources[key].device && Recover(w, op, QUIET).error.None?
    requires var v := Last(Recover(w, op, QUIET)); key in v.sources && op.id in v.ops && v.ops[op.id].status == Stored
    requires c in RecoverSource(w, key, QUIET).trace
    ensures var v := Last(Recover(w, op, QUIET));
            c in Recover(w, op, QUIET).trace || c == PutSource(v, key, v.sources[key].(pending := ""))
  {
    hide Recover;
  }

  // -------------------------------------------------------- the whole finalization

  /** Publishing from before or after the marker write is the same. */
  lemma MarkerIrrelevant(w: World, op: Operation, src: Source)
    requires op.sourceKey in w.sources && w.sources[op.sourceKey] == src && op.status == Publishing
    requires op.id in w.ops && w.ops[op.id] == op
    ensures var x := PutSource(w, op.sourceKey, src.(pending := op.id));
            && (Recover(x, op, QUIET).error == Recover(w, op, QUIET).error)
            && (Recover(x, op, QUIET).error.None? ==> Last(Recover(x, op, QUIET)) == Last(Recover(w, op, QUIET)))
  {
    hide Evident, MapItems, Publish, AppendChanged;
    var marked := src.(pending := op.id);
    var x := PutSource(w, op.sourceKey, marked);
    SameEvidence(w, x, op.plan.files);
    assert MapItems(src, op) == MapItems(marked, op) by {
      MappingIgnoresMarker(src, op);
    }
    if Evident(w, op.plan.files) {
      SettleAgain(w, x, op, src, marked);
    } else if PublishPlan(w, op).Ok? {
      SettleAgain(PublishPlan(w, op).value, PublishPlan(x, op).value, op, src, marked);
    }
  }

  lemma MappingIgnoresMarker(src: Source, op: Operation)
    ensures MapItems(src, op) == MapItems(src.(pending := op.id), op)
  {
  }

  /** From the intent write on. */
  lemma CommitResumes(w: World, op: Operation, env: Env, c: World)
    requires Inv(w) && Unpublished(w, op) && op.sourceKey in w.sources && env.last == QUIET
    requires var r := Commit(w, op, w.sources[op.sourceKey], env); r.error.None? && c in r.trace && c != w
    ensures op.id in c.ops && c.ops[op.id].spec == op.spec && Recover(c, c.ops[op.id], QUIET).error.None?
    ensures var v := Last(Recover(c, c.ops[op.id], QUIET));
            && op.id in v.ops && v.ops[op.id].status == Stored
            && SameUpToMarkers(v, Last(Commit(w, op, w.sources[op.sourceKey], env)))
  {
    hide Inv, GoodOp, Evident, Recover, Safe, Keeps, SameUpToMarkers;
    var src, intent := w.sources[op.sourceKey], op.(status := Publishing);
    SameGood(op, intent);
    var w1 := PutOp(w, intent);
    OpWriteSafe(w, intent);
    var w2 := PutSource(w1, op.sourceKey, src.(pending := op.id));
    SourceWriteSafe(w1, op.sourceKey, src.(pending := op.id));
    assert Last(Commit(w, op, src, env)) == Last(Recover(w2, intent, QUIET));
    if c == w1 {
      MarkerIrrelevant(w1, intent, src);
      RecoverSafe(w1, intent, QUIET);
      SelfSame(Last(Recover(w1, intent, QUIET)));
    } else {
      RecoverResumes(w2, intent, c);
      RecoverKeepsSpec(w2, intent, c);
      ResumedStored(w2, intent, c);
    }
  }

  lemma SelfSame(w: World)
    ensures SameUpToMarkers(w, w)
  {
  }

  lemma RecoverKeepsSpec(w: World, op: Operation, c: World)
    requires op.id in w.ops && w.ops[op.id] == op && c in Recover(w, op, QUIET).trace
    ensures op.id in c.ops && c.ops[op.id].spec == op.spec
  {
    hide Evident, MapItems, Publish, AppendChanged;
  }

  lemma ResumedStored(w: World, op: Operation, c: World)
    requires Inv(w) && op.id in w.ops && w.ops[op.id] == op && op.status == Publishing
    requires op.id in w.log ==> Evident(w, op.plan.files)
    requires Recover(w, op, QUIET).error.None? && c in Recover(w, op, QUIET).trace && op.id in c.ops
    requires SameUpToMarkers(Last(Recover(c, c.ops[op.id], QUIET)), Last(Recover(w, op, QUIET)))
    ensures var v := Last(Recover(c, c.ops[op.id], QUIET)); op.id in v.ops && v.ops[op.id].status == Stored
  {
    hide Inv, Evident, Recover, Unmarked;
    RecoverSafe(w, op, QUIET);
  }

  lemma {:induction false} PutAllErrors(files: seq<File>, plan: Plan, n: nat)
    requires n <= |plan.files| && PutAll(files, plan, n).Err?
    ensures PutAll(files, plan, n).error != StorageOrphaned
  {
    if n > 0 && PutAll(files, plan, n - 1).Err? {
      PutAllErrors(files, plan, n - 1);
    }
  }

  lemma {:induction false} AppendChangedErrors(j: Journal, before: seq<File>, after: seq<File>)
    requires AppendChanged(j, before, after).Err?
    ensures AppendChanged(j, before, after).error != StorageOrphaned
  {
    if after != [] && AppendChanged(j, before, after[..|after| - 1]).Err? {
      AppendChangedErrors(j, before, after[..|after| - 1]);
    }
  }

  /** Only the storage layer reports orphaned storage. */
  lemma QuietNeverOrphaned(w: World, op: Operation)
    ensures Recover(w, op, QUIET).error != Some(StorageOrphaned)
  {
    hide Evident, MapItems;
    if PublishPlan(w, op).Err? {
      if PutAll(w.files, op.plan, |op.plan.files|).Err? {
        PutAllErrors(w.files, op.plan, |op.plan.files|);
      } else if Publish(w.files, op.plan).Ok? {
        AppendChangedErrors(w.journal, w.files, Publish(w.files, op.plan).value);
      }
    }
  }

  lemma {:induction false} AcceptedThroughout(w: World, key: string, id: string, c: World)
    requires Inv(w) && key in w.sources && id in w.ops && w.ops[id].status == Accepted
    requires c in RecoverSource(w, key, QUIET).trace
    ensures id in c.ops && c.ops[id] == w.ops[id]
  {
    hide Inv, Recover;
    var src := w.sources[key];
    if src.pending != "" && src.pending in w.ops {
      OpKey(w, src.pending);
      if src.pending == id {
        RecoverIdle(w, w.ops[id], QUIET);
      } else {
        RecoverOthers(w, w.ops[src.pending], QUIET, id);
        var r := Recover(w, w.ops[src.pending], QUIET);
        assert Last(r) in r.trace;
      }
    }
  }

  /** What is left of a finalization once its own recovery had nothing to do. */
  lemma FinalizeAccepted(w: World, id: string, device: string, env: Env)
    requires Inv(w) && id in w.ops && w.ops[id].status == Accepted && (device == "" || w.ops[id].spec.device == device)
    ensures Finalize(w, id, device, env).trace == Publication(w, w.ops[id], env).trace
    ensures Finalize(w, id, device, env).error == Publication(w, w.ops[id], env).error
  {
    hide Inv, Publication;
    RecoverIdle(w, w.ops[id], env.first);
  }

  lemma FinalizeRecovers(w: World, id: string, device: string, env: Env)
    requires id in w.ops && (device == "" || w.ops[id].spec.device == device)
    requires Recover(w, w.ops[id], env.first).error.None?
    requires var v := Last(Recover(w, w.ops[id], env.first)); id in v.ops && v.ops[id].status == Stored
    ensures Finalize(w, id, device, env) == Recover(w, w.ops[id], env.first)
  {
    hide Recover, Publication;
  }

  /** With the bytes stored, announcing is committing. */
  lemma AnnounceCommits(w: World, op: Operation, src: Source, env: Env) returns (ready: Operation)
    requires Inv(w) && Unpublished(w, op) && Quiet(env) && Announce(w, op, src, env).error.None?
    ensures Unpublished(w, ready) && ready.id == op.id && ready.sourceKey == op.sourceKey && ready.spec == op.spec
    ensures Announce(w, op, src, env).trace == Commit(w, ready, src, env).trace
    ensures Announce(w, op, src, env).error == Commit(w, ready, src, env).error
  {
    hide Inv, GoodOp, Adopt, Check, Commit, WithBytes, Safe;
    var adopted := Adopt(w.files, src, op).value;
    AdoptGood(w.files, src, op);
    StoreSafe(w, adopted, env);
    ready := Store(w, adopted, env).1;
    AdoptSpec(w.files, src, op);
    var k := Unbacked(adopted, 0);
    if k >= 0 {
      BytesSpec(adopted, k, env.store.value);
    }
  }

  lemma AdoptSpec(files: seq<File>, src: Source, op: Operation)
    requires Adopt(files, src, op).Ok?
    ensures Adopt(files, src, op).value.spec == op.spec
  {
  }

  lemma BytesSpec(op: Operation, k: nat, bytes: StoredBytes)
    requires k < |op.plan.files|
    ensures WithBytes(op, k, bytes).spec == op.spec
  {
  }

  /** Resuming an accepted operation. */
  lemma PublicationResumes(w: World, op: Operation, env: Env, c: World) returns (v: World)
    requires Inv(w) && Retained(w) && op.id in w.ops && w.ops[op.id] == op && op.status == Accepted && Quiet(env)
    requires Publication(w, op, env).error.None? && c in Publication(w, op, env).trace
    ensures op.id in c.ops && c.ops[op.id].spec == op.spec
    ensures SameUpToMarkers(v, Last(Publication(w, op, env)))
    ensures || (c.ops[op.id] == op && Publication(c, op, env).error.None? && v == Last(Publication(c, op, env)))
            || (Recover(c, c.ops[op.id], QUIET).error.None? && v == Last(Recover(c, c.ops[op.id], QUIET))
                && op.id in v.ops && v.ops[op.id].status == Stored)
  {
    hide Inv, Retained, RecoverSource, Announce, Commit, Recover, SameUpToMarkers, GoodOp, Safe;
    var key := op.sourceKey;
    var r := RecoverSource(w, key, QUIET);
    var mid := Last(r);
    RecoverSourceSafe(w, key, QUIET);
    SafeLast(w, r);
    AcceptedThroughout(w, key, op.id, mid);
    var tail := Announce(mid, op, mid.sources[key], env);
    if c in r.trace {
      AcceptedThroughout(w, key, op.id, c);
      RecoverSourceResumes(w, key, c);
      v := Last(Publication(c, op, env));
      SelfSame(v);
    } else {
      assert c in tail.trace && c != mid;
      RecoverSourceKeepsAccepted(w, key, QUIET, op.id);
      OpKey(w, op.id);
      var ready := AnnounceCommits(mid, op, mid.sources[key], env);
      CommitResumes(mid, ready, env, c);
      v := Last(Recover(c, c.ops[op.id], QUIET));
    }
  }

  /** A finalization that succeeds when left alone also succeeds when it crashes
      after any of its durable writes and is called again, and it ends in the
      same catalog, the same mappings and the same receipt; only the recovery
      marker of a source may still be set. */
  lemma RetryConverges(w: World, id: string, device: string, env: Env, c: World)
    requires Inv(w) && Retained(w) && Quiet(env)
    requires Finalize(w, id, device, env).error.None? && c in Finalize(w, id, device, env).trace
    ensures Finalize(c, id, device, env).error.None?
    ensures SameUpToMarkers(Last(Finalize(c, id, device, env)), Last(Finalize(w, id, device, env)))
  {
    hide Inv, Retained, Recover, Publication, SameUpToMarkers, Evident, Safe, GoodOp;
    var op := w.ops[id];
    OpKey(w, id);
    RetainedFor(w, id);
    QuietNeverOrphaned(w, op);
    RecoverSafe(w, op, QUIET);
    if op.status == Accepted {
      FinalizeAccepted(w, id, device, env);
      var v := PublicationResumes(w, op, env, c);
      if c.ops[id] == op && Publication(c, op, env).error.None? && v == Last(Publication(c, op, env)) {
        AcceptedAgain(c, op, device, env);
      } else {
        FinalizeRecovers(c, id, device, env);
      }
    } else {
      RecoverResumes(w, op, c);
      if op.status == Publishing {
        RecoverKeepsSpec(w, op, c);
        ResumedStored(w, op, c);
        FinalizeRecovers(c, id, device, env);
      } else {
        RecoverIdle(w, op, QUIET);
      }
    }
  }

  lemma AcceptedAgain(c: World, op: Operation, device: string, env: Env)
    requires op.id in c.ops && c.ops[op.id] == op && op.status == Accepted && (device == "" || op.spec.device == device)
    ensures Finalize(c, op.id, device, env).error == Publication(c, op, env).error
    ensures Last(Finalize(c, op.id, device, env)) == Last(Publication(c, op, env))
  {
    hide Publication;
    RecoverIdle(c, op, env.first);
  }
}
