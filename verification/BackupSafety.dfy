/** Safety of the backup protocol over every run with crashes: a plan enters the
    catalog at most once, stored and cancelled are final and exclusive, and the
    catalog changes only by publishing a plan. */
module BackupSafety {
  import opened Prelude
  import opened Entries
  import opened Journals
  import opened BackupCas
  import opened BackupPlans
  import opened BackupProtocol

  // ---------------------------------------------------------------- invariant

  ghost predicate NoRepeats(log: seq<string>) {
    forall i, j :: 0 <= i < j < |log| ==> log[i] != log[j]
  }

  ghost predicate GoodOp(op: Operation) {
    DistinctPlan(op.plan) && WithId(op.plan.files, op.primary).Some?
  }

  predicate Final(op: Operation) {
    op.status == Stored || op.status == Cancelled
  }

  ghost predicate AllEntered(files: seq<File>, entered: set<File>) {
    forall f :: f in files ==> f in entered
  }

  /** A receipt names the planned primary, and its whole plan was in the catalog. */
  ghost predicate Honest(op: Operation, entered: set<File>) {
    op.status == Stored ==> AllEntered(op.plan.files, entered) && op.receipt == WithId(op.plan.files, op.primary)
  }

  ghost predicate GoodOps(w: World) {
    forall id :: id in w.ops ==> w.ops[id].id == id && GoodOp(w.ops[id]) && Honest(w.ops[id], w.entered)
  }

  ghost predicate GoodLog(w: World) {
    NoRepeats(w.log) && forall id :: id in w.log ==>
        id in w.ops && (w.ops[id].status == Publishing || w.ops[id].status == Stored)
  }

  ghost predicate GoodCatalog(w: World) {
    && UniqueIds(w.files) && AllEntered(w.files, w.entered)
    && Journals.Valid(w.journal) && |w.journal.records| <= CHANGE_RETENTION
    && forall f :: Recorded(w.journal, f) ==> f in w.entered
  }

  predicate GoodMark(w: World, key: string, src: Source) {
    src.pending == "" || (src.pending in w.ops && w.ops[src.pending].sourceKey == key)
  }

  /** A source's marker names one of its own operations. */
  ghost predicate GoodMarks(w: World) {
    forall key :: key in w.sources ==> GoodMark(w, key, w.sources[key])
  }

  ghost predicate Inv(w: World) {
    GoodOps(w) && GoodLog(w) && GoodCatalog(w) && GoodMarks(w)
  }

  /** The journal still holds the records of every publication whose operation
      has no receipt yet (or the catalog still holds the very versions). */
  ghost predicate Retained(w: World) {
    forall id :: id in w.log && id in w.ops && w.ops[id].status == Publishing ==> Evident(w, w.ops[id].plan.files)
  }

  /** What one call may do to the operations and to the publication log. */
  ghost predicate Keeps(w: World, x: World) {
    && w.log <= x.log
    && (forall id :: id in w.ops ==> id in x.ops && (Final(w.ops[id]) ==> x.ops[id] == w.ops[id]))
  }

  lemma KeepsTransitive(a: World, b: World, c: World)
    requires Keeps(a, b) && Keeps(b, c)
    ensures Keeps(a, c)
  {
  }

  ghost predicate Safe(w: World, r: Run) {
    forall x :: x in r.trace ==> Inv(x) && Keeps(w, x)
  }

  lemma SafeThen(w: World, r: Run, s: Run)
    requires |r.trace| > 0 && |s.trace| > 0
    requires Safe(w, r) && (r.error.None? ==> Safe(Last(r), s))
    ensures Safe(w, Then(r, s))
  {
    hide Inv, Keeps;
    forall x | x in Then(r, s).trace ensures Inv(x) && Keeps(w, x) {
      if x !in r.trace {
        KeepsTransitive(w, Last(r), x);
      }
    }
  }

  lemma SafeHere(w: World, e: Option<Error>)
    requires Inv(w)
    ensures Safe(w, Run([w], e))
  {
  }

  /** Writing a source record matters only for its marker. */
  lemma SourceWriteSafe(w: World, key: string, src: Source)
    requires Inv(w) && GoodMark(w, key, src)
    ensures Inv(PutSource(w, key, src)) && Keeps(w, PutSource(w, key, src))
  {
    var x := PutSource(w, key, src);
    assert forall id :: id in x.ops ==> x.ops[id] == w.ops[id];
  }

  /** Writing a non-final record of an operation whose plan is not in the catalog. */
  lemma OpWriteSafe(w: World, op: Operation)
    requires Inv(w) && GoodOp(op) && op.id !in w.log && op.status != Stored
    requires op.id in w.ops ==> w.ops[op.id].sourceKey == op.sourceKey && (Final(w.ops[op.id]) ==> op == w.ops[op.id])
    ensures Inv(PutOp(w, op)) && Keeps(w, PutOp(w, op))
  {
    hide GoodOp, GoodCatalog;
    var x := PutOp(w, op);
    assert GoodMarks(x) by {
      MarksAfter(w, op);
    }
    assert GoodCatalog(x) by {
      CatalogSame(w, x);
    }
    forall id | id in x.log ensures id in x.ops && (x.ops[id].status == Publishing || x.ops[id].status == Stored) {
      assert id != op.id;
    }
  }

  lemma MarksAfter(w: World, op: Operation)
    requires GoodMarks(w) && (op.id in w.ops ==> w.ops[op.id].sourceKey == op.sourceKey)
    ensures GoodMarks(PutOp(w, op))
  {
    forall key | key in w.sources ensures GoodMark(PutOp(w, op), key, w.sources[key]) {
      assert GoodMark(w, key, w.sources[key]);
    }
  }

  lemma CatalogSame(w: World, x: World)
    requires GoodCatalog(w) && x.files == w.files && x.journal == w.journal && x.entered == w.entered
    ensures GoodCatalog(x)
  {
  }

  // ------------------------------------------------------------ publication

  lemma {:induction false} AppendedBodies(j: Journal, before: seq<File>, after: seq<File>, f: File)
    requires AppendChanged(j, before, after).Ok?
    ensures Recorded(AppendChanged(j, before, after).value, f) ==> Recorded(j, f) || f in after
  {
    if after != [] {
      var n := |after| - 1;
      AppendedBodies(j, before, after[..n], f);
      var mid, last := AppendChanged(j, before, after[..n]).value, AppendChanged(j, before, after).value;
      if Recorded(last, f) {
        var k :| 0 <= k < |last.records| && last.records[k].change.body == FileBody(f);
        if k < |mid.records| {
          assert mid.records[k].change.body == FileBody(f);
        }
      }
    }
  }

  lemma TruncatedBodies(j: Journal, f: File)
    ensures Recorded(Truncate(j), f) ==> Recorded(j, f)
  {
    if Recorded(Truncate(j), f) {
      var t := Truncate(j);
      var k :| 0 <= k < |t.records| && t.records[k].change.body == FileBody(f);
      assert j.records[k + |j.records| - |t.records|].change.body == FileBody(f);
    }
  }

  lemma PublicationSafe(w: World, op: Operation)
    requires Inv(w) && op.id in w.ops && w.ops[op.id] == op && op.status == Publishing && op.id !in w.log
    requires PublishPlan(w, op).Ok?
    ensures var x := PublishPlan(w, op).value;
              Inv(x) && Keeps(w, x) && x.ops == w.ops && x.sources == w.sources && op.id in x.log
    ensures AllEntered(op.plan.files, PublishPlan(w, op).value.entered)
    ensures Evident(PublishPlan(w, op).value, op.plan.files)
  {
    hide GoodOp;
    var x := PublishPlan(w, op).value;
    CatalogAfter(w, op);
    assert x.log == w.log + [op.id];
    forall id | id in x.ops ensures Honest(x.ops[id], x.entered) {
      assert Honest(w.ops[id], w.entered);
    }
    assert GoodOp(op);
    AllPublished(w.files, op);
  }

  lemma AllPublished(files: seq<File>, op: Operation)
    requires UniqueIds(files) && GoodOp(op) && Publish(files, op.plan).Ok?
    ensures |op.plan.files| > 0 && forall k :: 0 <= k < |op.plan.files| ==>
              op.plan.files[k] in Publish(files, op.plan).value
  {
    forall k | 0 <= k < |op.plan.files| ensures op.plan.files[k] in Publish(files, op.plan).value {
      PublishedIn(files, op.plan, k);
    }
  }

  lemma {:induction false} AppendedValid(j: Journal, before: seq<File>, after: seq<File>)
    requires Journals.Valid(j) && AppendChanged(j, before, after).Ok?
    ensures Journals.Valid(AppendChanged(j, before, after).value)
  {
    hide Journals.Valid;
    if after != [] {
      var n := |after| - 1;
      AppendedValid(j, before, after[..n]);
      if !Unchanged(before, after[n]) {
        AppendValid(AppendChanged(j, before, after[..n]).value, FileChange(before, after[n]));
      }
    }
  }

  lemma CatalogAfter(w: World, op: Operation)
    requires GoodCatalog(w) && PublishPlan(w, op).Ok?
    ensures GoodCatalog(PublishPlan(w, op).value)
  {
    hide Publish, UniqueIds, Recorded, Journals.Valid, AppendChanged;
    var next := Publish(w.files, op.plan).value;
    PublishKeepsTree(w.files, op.plan);
    var j := AppendChanged(w.journal, w.files, next).value;
    AppendedValid(w.journal, w.files, next);
    TruncateValid(j);
    forall f | Recorded(Truncate(j), f) ensures f in w.entered + ToSet(next) {
      TruncatedBodies(j, f);
      AppendedBodies(w.journal, w.files, next, f);
    }
  }

  // --------------------------------------------------------------- recovery

  lemma EvidentEntered(w: World, files: seq<File>)
    requires GoodCatalog(w) && Evident(w, files)
    ensures AllEntered(files, w.entered)
  {
    forall f | f in files ensures f in w.entered {
      var k :| 0 <= k < |files| && files[k] == f;
      assert files[k] in w.files || Recorded(w.journal, files[k]);
    }
  }

  lemma StoredWriteSafe(w: World, op: Operation)
    requires Inv(w) && op.id in w.ops && w.ops[op.id] == op && op.status == Publishing
             && AllEntered(op.plan.files, w.entered)
    ensures var x := PutOp(w, op.(status := Stored, receipt := ReceiptOf(op))); Inv(x) && Keeps(w, x)
  {
    hide Journals.Valid, Recorded, UniqueIds, ReceiptOf, GoodOp, Honest, GoodCatalog;
    var done := op.(status := Stored, receipt := ReceiptOf(op));
    var x := PutOp(w, done);
    CatalogSame(w, x);
    StoredIsHonest(op, w.entered);
  }

  lemma StoredIsHonest(op: Operation, entered: set<File>)
    requires GoodOp(op) && Honest(op, entered) && op.status == Publishing && AllEntered(op.plan.files, entered)
    ensures var done := op.(status := Stored, receipt := ReceiptOf(op)); GoodOp(done) && Honest(done, entered)
  {
  }

  lemma SettleSafe(w: World, op: Operation, src: Source)
    requires Inv(w) && op.id in w.ops && w.ops[op.id] == op && op.status == Publishing
             && AllEntered(op.plan.files, w.entered)
    ensures Safe(w, Settle(w, op, src))
    ensures var x := Last(Settle(w, op, src)); op.id in x.ops && x.ops[op.id].status == Stored
  {
    hide MapItems, Inv, Keeps;
    var mapped := src.(items := MapItems(src, op), pending := op.id);
    var w1 := PutSource(w, op.sourceKey, mapped);
    SourceWriteSafe(w, op.sourceKey, mapped);
    var w2 := PutOp(w1, op.(status := Stored, receipt := ReceiptOf(op)));
    StoredWriteSafe(w1, op);
    KeepsTransitive(w, w1, w2);
    var w3 := PutSource(w2, op.sourceKey, mapped.(pending := ""));
    SourceWriteSafe(w2, op.sourceKey, mapped.(pending := ""));
    KeepsTransitive(w, w2, w3);
    assert Keeps(w, w) by {
      KeepsSelf(w);
    }
    assert Settle(w, op, src).trace == [w, w1, w2, w3];
  }

  lemma KeepsSelf(w: World)
    ensures Keeps(w, w)
  {
  }

  /** Recovery publishes only a plan the log does not carry yet. */
  lemma RecoverSafe(w: World, op: Operation, s: Storage)
    requires Inv(w) && op.id in w.ops && w.ops[op.id] == op
    requires op.id in w.log && op.status == Publishing ==> Evident(w, op.plan.files)
    ensures Safe(w, Recover(w, op, s))
    ensures Recover(w, op, s).error.None? ==>
              op.id in Last(Recover(w, op, s)).ops
              && (op.status == Publishing ==> Last(Recover(w, op, s)).ops[op.id].status == Stored)
              && (op.status != Publishing ==> Last(Recover(w, op, s)) == w)
  {
    hide Inv, Evident, PublishPlan, MapItems, Safe, Keeps;
    SafeHere(w, None);
    SafeHere(w, Recover(w, op, s).error);
    if op.status == Publishing && op.sourceKey in w.sources {
      var src := w.sources[op.sourceKey];
      if Evident(w, op.plan.files) {
        InvCatalog(w);
        EvidentEntered(w, op.plan.files);
        SettleSafe(w, op, src);
      } else if src.status == Active && s.check.None? && PublishPlan(w, op).Ok? {
        PublicationSafe(w, op);
        var w1 := PublishPlan(w, op).value;
        TwoSafe(w, w1, s.finish);
        TwoSafe(w, w1, None);
        if s.finish.None? {
          SettleSafe(w1, op, src);
          SafeThen(w, Run([w, w1], None), Settle(w1, op, src));
        }
      }
    }
  }

  lemma InvCatalog(w: World)
    requires Inv(w)
    ensures GoodCatalog(w)
  {
  }

  lemma TwoSafe(w: World, x: World, e: Option<Error>)
    requires Inv(w) && Inv(x) && Keeps(w, x)
    ensures Safe(w, Run([w, x], e))
  {
    KeepsSelf(w);
  }

  lemma RecoverSourceSafe(w: World, key: string, s: Storage)
    requires Inv(w) && Retained(w) && key in w.sources
    ensures Safe(w, RecoverSource(w, key, s))
  {
    hide Inv, Evident, Recover, Safe, Keeps;
    SafeHere(w, None);
    SafeHere(w, Some(NotFound));
    var src := w.sources[key];
    if src.pending != "" && src.pending in w.ops {
      var op := w.ops[src.pending];
      OpKey(w, src.pending);
      RecoverSafe(w, op, s);
      var r := Recover(w, op, s);
      var v := Last(r);
      assert Inv(v) by {
        SafeLast(w, r);
      }
      SafeHere(v, Some(NotFound));
      if r.error.None? {
        SafeThen(w, r, Failed(v, NotFound));
        if key in v.sources {
          var x := PutSource(v, key, v.sources[key].(pending := ""));
          SourceWriteSafe(v, key, v.sources[key].(pending := ""));
          TwoSafe(v, x, None);
          SafeThen(w, r, Run([v, x], None));
        }
      }
    }
  }

  lemma SafeLast(w: World, r: Run)
    requires |r.trace| > 0 && Safe(w, r)
    ensures Inv(Last(r)) && Keeps(w, Last(r))
  {
  }

  lemma OpKey(w: World, id: string)
    requires Inv(w) && id in w.ops
    ensures w.ops[id].id == id && GoodOp(w.ops[id])
    ensures id in w.log ==> w.ops[id].status == Publishing || w.ops[id].status == Stored
  {
  }

  lemma ResetSafe(w: World, op: Operation, attempt: string)
    requires Inv(w) && op.id in w.ops && GoodOp(op) && op.id !in w.log && !Final(w.ops[op.id])
             && w.ops[op.id].sourceKey == op.sourceKey
    ensures Safe(w, Reset(w, op, attempt))
    ensures Reset(w, op, attempt).error.None? ==>
              var v := Last(Reset(w, op, attempt));
              op.id in v.ops && v.ops[op.id] == ResetOp(op, attempt) && v.log == w.log && GoodOp(ResetOp(op, attempt))
              && op.sourceKey in v.sources
  {
    hide Inv, Keeps, Safe, GoodOp, Check;
    SafeHere(w, Reset(w, op, attempt).error);
    if Check(w.files, op.plan).None? {
      ResetGood(op, attempt);
      var w1 := PutOp(w, ResetOp(op, attempt));
      OpWriteSafe(w, ResetOp(op, attempt));
      TwoSafe(w, w1, None);
      TwoSafe(w, w1, Some(NotFound));
      if op.sourceKey in w.sources {
        var src := w.sources[op.sourceKey].(pending := "");
        SourceWriteSafe(w1, op.sourceKey, src);
        ThreeSafe(w, w1, PutSource(w1, op.sourceKey, src));
      }
    }
  }

  lemma ThreeSafe(w: World, x: World, y: World)
    requires Inv(w) && Inv(x) && Inv(y) && Keeps(w, x) && Keeps(x, y)
    ensures Safe(w, Run([w, x, y], None))
  {
    KeepsSelf(w);
    KeepsTransitive(w, x, y);
  }

  lemma {:induction false} SameIdsFound(a: seq<File>, b: seq<File>, id: string)
    requires |a| == |b| && forall i :: 0 <= i < |a| ==> a[i].id == b[i].id
    ensures WithId(a, id).Some? <==> WithId(b, id).Some?
  {
    if a != [] {
      SameIdsFound(a[..|a| - 1], b[..|b| - 1], id);
    }
  }

  lemma ResetGood(op: Operation, attempt: string)
    requires GoodOp(op)
    ensures GoodOp(ResetOp(op, attempt)) && ResetOp(op, attempt).id == op.id
            && ResetOp(op, attempt).sourceKey == op.sourceKey
  {
    SameIdsFound(op.plan.files, ResetOp(op, attempt).plan.files, op.primary);
  }

  // ------------------------------------------------------------- publication

  lemma {:induction false} AdoptedFiles(files: seq<File>, src: Source, op: Operation, n: nat)
    requires n <= |op.plan.files| && DistinctPlan(op.plan) && AdoptFiles(files, src, op, n).Ok?
    ensures var plan := AdoptFiles(files, src, op, n).value;
            && DistinctPlan(plan)
            && (forall f :: f in plan.files ==> f in op.plan.files[..n])
            && (forall k :: 0 <= k < n && op.plan.files[k].id == op.primary ==> op.plan.files[k] in plan.files)
  {
    if n > 0 {
      AdoptedFiles(files, src, op, n - 1);
      var plan, f := AdoptFiles(files, src, op, n - 1).value, op.plan.files[n - 1];
      assert op.plan.files[..n] == op.plan.files[..n - 1] + [f];
      forall g | g in plan.files ensures g.id != f.id {
        var k :| 0 <= k < n - 1 && op.plan.files[..n - 1][k] == g;
        assert op.plan.files[k].id != op.plan.files[n - 1].id;
      }
    }
  }

  lemma AdoptGood(files: seq<File>, src: Source, op: Operation)
    requires GoodOp(op) && Adopt(files, src, op).Ok?
    ensures var a := Adopt(files, src, op).value;
            GoodOp(a) && a.id == op.id && a.status == op.status && a.sourceKey == op.sourceKey
              && a.primary == op.primary
  {
    AdoptedFiles(files, src, op, |op.plan.files|);
    var f := WithId(op.plan.files, op.primary).value;
    var k :| 0 <= k < |op.plan.files| && op.plan.files[k] == f;
    assert f in Adopt(files, src, op).value.plan.files;
  }

  lemma WithBytesGood(op: Operation, k: nat, bytes: StoredBytes)
    requires GoodOp(op) && k < |op.plan.files|
    ensures var b := WithBytes(op, k, bytes);
              GoodOp(b) && b.id == op.id && b.status == op.status && b.sourceKey == op.sourceKey
  {
    SameIdsFound(op.plan.files, WithBytes(op, k, bytes).plan.files, op.primary);
  }

  /** An accepted operation whose plan is not in the catalog. */
  ghost predicate Unpublished(w: World, op: Operation) {
    op.id in w.ops && GoodOp(op) && op.id !in w.log && op.status == Accepted && !Final(w.ops[op.id])
    && w.ops[op.id].sourceKey == op.sourceKey
  }

  lemma StoreSafe(w: World, op: Operation, env: Env)
    requires Inv(w) && Unpublished(w, op)
    ensures Safe(w, Store(w, op, env).0)
    ensures var (r, ready) := Store(w, op, env);
            r.error.None? ==> Unpublished(Last(r), ready) && ready.id == op.id && ready.sourceKey == op.sourceKey
  {
    hide Inv, Safe, Keeps, GoodOp, Reset, WithBytes, Unbacked;
    var k := Unbacked(op, 0);
    SafeHere(w, None);
    SafeHere(w, Store(w, op, env).0.error);
    if k >= 0 {
      if env.store.Ok? {
        WithBytesGood(op, k, env.store.value);
      }
      ResetSafe(w, op, env.attempt2);
      var r := Reset(w, op, env.attempt2);
      if r.error.None? {
        SafeLast(w, r);
        if env.retry.Err? {
          SafeHere(Last(r), Some(env.retry.error));
          SafeThen(w, r, Failed(Last(r), env.retry.error));
        } else {
          WithBytesGood(ResetOp(op, env.attempt2), k, env.retry.value);
        }
      }
    }
  }

  lemma CommitSafe(w: World, op: Operation, src: Source, env: Env)
    requires Inv(w) && Unpublished(w, op)
    ensures Safe(w, Commit(w, op, src, env))
  {
    hide Inv, Safe, Keeps, GoodOp, Recover;
    var intent := op.(status := Publishing);
    assert GoodOp(intent) by {
      SameGood(op, intent);
    }
    var w1 := PutOp(w, intent);
    OpWriteSafe(w, intent);
    var marked := src.(pending := op.id);
    var w2 := PutSource(w1, op.sourceKey, marked);
    SourceWriteSafe(w1, op.sourceKey, marked);
    ThreeSafe(w, w1, w2);
    RecoverSafe(w2, intent, env.last);
    SafeThen(w, Run([w, w1, w2], None), Recover(w2, intent, env.last));
  }

  lemma SameGood(op: Operation, other: Operation)
    requires GoodOp(op) && other.plan == op.plan && other.primary == op.primary
    ensures GoodOp(other)
  {
  }

  lemma AnnounceSafe(w: World, op: Operation, src: Source, env: Env)
    requires Inv(w) && Unpublished(w, op)
    ensures Safe(w, Announce(w, op, src, env))
  {
    hide Inv, Safe, Keeps, GoodOp, Adopt, Store, Commit, Check;
    SafeHere(w, Announce(w, op, src, env).error);
    if src.status == Active && Adopt(w.files, src, op).Ok? {
      var adopted := Adopt(w.files, src, op).value;
      AdoptGood(w.files, src, op);
      if Check(w.files, adopted.plan).None? {
        StoreSafe(w, adopted, env);
        var (r, ready) := Store(w, adopted, env);
        if r.error.None? {
          SafeLast(w, r);
          CommitSafe(Last(r), ready, src, env);
          SafeThen(w, r, Commit(Last(r), ready, src, env));
        }
      }
    }
  }

  /** The nested recovery of another operation leaves this one as it was. */
  lemma RecoverOthers(w: World, op: Operation, s: Storage, id: string)
    requires id in w.ops && id != op.id
    ensures forall x :: x in Recover(w, op, s).trace ==>
              id in x.ops && x.ops[id] == w.ops[id] && (id in x.log <==> id in w.log)
  {
    hide Evident, MapItems, Publish, AppendChanged;
  }

  lemma RecoverSourceKeepsAccepted(w: World, key: string, s: Storage, id: string)
    requires Inv(w) && key in w.sources && id in w.ops && w.ops[id].status == Accepted
    ensures var v := Last(RecoverSource(w, key, s));
              id in v.ops && v.ops[id] == w.ops[id] && (id in v.log <==> id in w.log)
  {
    hide Inv, Recover;
    var src := w.sources[key];
    if src.pending != "" && src.pending in w.ops {
      OpKey(w, src.pending);
      if src.pending == id {
        assert Recover(w, w.ops[id], s) == Done(w) by {
          RecoverIdle(w, w.ops[id], s);
        }
      } else {
        RecoverOthers(w, w.ops[src.pending], s, id);
        var r := Recover(w, w.ops[src.pending], s);
        assert Last(r) in r.trace;
      }
    }
  }

  lemma RecoverIdle(w: World, op: Operation, s: Storage)
    requires op.status != Publishing
    ensures Recover(w, op, s) == Done(w)
  {
  }

  lemma PublicationCallSafe(w: World, op: Operation, env: Env)
    requires Inv(w) && Retained(w) && op.id in w.ops && w.ops[op.id] == op && op.status == Accepted
    ensures Safe(w, Publication(w, op, env))
  {
    hide Inv, Safe, Keeps, GoodOp, RecoverSource, Announce, Retained;
    SafeHere(w, Some(NotFound));
    if op.sourceKey in w.sources {
      var r := RecoverSource(w, op.sourceKey, env.pending);
      RecoverSourceSafe(w, op.sourceKey, env.pending);
      if r.error.None? {
        var v := Last(r);
        SafeLast(w, r);
        RecoverSourceKeepsAccepted(w, op.sourceKey, env.pending, op.id);
        OpKey(w, op.id);
        SafeHere(v, Some(NotFound));
        if op.sourceKey in v.sources {
          AnnounceSafe(v, op, v.sources[op.sourceKey], env);
          SafeThen(w, r, Announce(v, op, v.sources[op.sourceKey], env));
        } else {
          SafeThen(w, r, Failed(v, NotFound));
        }
      }
    }
  }
}
