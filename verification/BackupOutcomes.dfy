/** What any retry of an unfinished operation comes to. */
module BackupOutcomes {
  // A finalization may stop after any durable write, and the call made next may
  // be any call, with other answers from the storage layer than the first one.

  import opened Prelude
  import opened Entries
  import opened Journals
  import opened BackupCas
  import opened BackupPlans
  import opened BackupProtocol
  import opened BackupSafety
  import opened BackupRuns
  import opened BackupReplay
  import opened BackupRetry
  import opened BackupWrites

  /** The item is mapped to the entry of its receipt, and no mapped entry is older
      than the plan's. */
  ghost predicate Mapped(x: World, op: Operation) {
    && op.receipt.Some? && op.sourceKey in x.sources
    && var items := x.sources[op.sourceKey].items;
       Item(op.spec.item) in items && items[Item(op.spec.item)] == op.receipt.value && Current(items, op.plan.files)
  }

  ghost predicate Maps(x: World, id: string) {
    id in x.ops && (x.ops[id].status == Stored ==> Mapped(x, x.ops[id]))
  }

  /** The error is FinishBackup's. */
  predicate FinishFailed(e: Option<Error>, env: Env) {
    e.Some? && (e == env.first.finish || e == env.pending.finish || e == env.last.finish)
  }

  /** A published plan is settled, unless FinishBackup failed right after it. */
  ghost predicate Ended(v: World, id: string, e: Option<Error>, env: Env) {
    id in v.ops && (v.ops[id].status == Stored || FinishFailed(e, env))
  }

  ghost predicate EndedFrom(v: World, n: nat, e: Option<Error>, env: Env) {
    forall k :: n <= k < |v.log| ==> Ended(v, v.log[k], e, env)
  }

  /** The plan was published, or found in the catalog without being published. */
  ghost predicate Accounted(r: Run, id: string)
    requires |r.trace| > 0
  {
    id in Last(r).log || exists x :: x in r.trace && Coincident(x, id)
  }

  ghost predicate Coincident(x: World, id: string) {
    id in x.ops && id !in x.log && Evident(x, x.ops[id].plan.files)
  }

  /** The catalog moved on exactly if something was published. */
  ghost predicate Advances(w: World, v: World) {
    && w.log <= v.log && w.journal.sequence <= v.journal.sequence
    && (w.log != v.log ==> w.journal.sequence < v.journal.sequence)
  }

  /** How a call answers about one operation. */
  ghost predicate Answers(w: World, r: Run, id: string, env: Env) {
    && |r.trace| > 0 && id in w.ops && (forall x :: x in r.trace ==> Maps(x, id) && x.ops[id].spec == w.ops[id].spec)
    && Advances(w, Last(r)) && EndedFrom(Last(r), |w.log|, r.error, env)
    && (r.error.None? && w.ops[id].status != Stored && Last(r).ops[id].status == Stored ==> Accounted(r, id))
  }

  lemma AnswersHere(w: World, e: Option<Error>, id: string, env: Env)
    requires Maps(w, id)
    ensures Answers(w, Run([w], e), id, env)
  {
  }

  lemma EndedLater(a: World, b: World, n: nat, e: Option<Error>, env: Env)
    requires EndedFrom(a, n, None, env) && EndedFrom(b, |a.log|, e, env) && Keeps(a, b)
    ensures EndedFrom(b, n, e, env)
  {
    forall k | n <= k < |b.log| ensures Ended(b, b.log[k], e, env) {
      if k < |a.log| {
        assert Ended(a, a.log[k], None, env) && b.log[k] == a.log[k];
      }
    }
  }

  lemma AnswersThen(w: World, r: Run, s: Run, id: string, env: Env)
    requires Answers(w, r, id, env) && |s.trace| > 0
    requires r.error.None? ==> s.trace[0] == Last(r) && Answers(Last(r), s, id, env) && Safe(Last(r), s)
    ensures Answers(w, Then(r, s), id, env)
  {
    hide Maps, EndedFrom, Coincident, Keeps, Inv;
    if r.error.None? {
      var t := Then(r, s);
      SafeLast(Last(r), s);
      EndedLater(Last(r), Last(s), |w.log|, s.error, env);
      if s.error.None? && w.ops[id].status != Stored && Last(t).ops[id].status == Stored {
        AccountedThen(w, r, s, id, env);
      }
    }
  }

  lemma AccountedThen(w: World, r: Run, s: Run, id: string, env: Env)
    requires Answers(w, r, id, env) && Answers(Last(r), s, id, env) && r.error.None? && s.error.None?
             && s.trace[0] == Last(r)
    requires id in w.ops && w.ops[id].status != Stored && Last(s).ops[id].status == Stored
    ensures Accounted(Then(r, s), id)
  {
    hide EndedFrom, Coincident, Mapped;
    var t := Then(r, s);
    assert Last(r) in r.trace && Maps(Last(r), id);
    if Last(r).ops[id].status == Stored {
      if id !in Last(r).log {
        var x :| x in r.trace && Coincident(x, id);
        assert x in t.trace;
      }
    } else if id !in Last(s).log {
      var x :| x in s.trace && Coincident(x, id);
      InThen(r, s, x);
    }
  }

  lemma InThen(r: Run, s: Run, x: World)
    requires |r.trace| > 0 && |s.trace| > 0 && s.trace[0] == Last(r) && r.error.None? && x in s.trace
    ensures x in Then(r, s).trace
  {
    var k :| 0 <= k < |s.trace| && s.trace[k] == x;
    if k > 0 {
      assert Then(r, s).trace[|r.trace| + k - 1] == x;
    }
  }

  // ---------------------------------------------------------------- publication

  lemma {:induction false} AppendCounts(j: Journal, before: seq<File>, after: seq<File>)
    requires AppendChanged(j, before, after).Ok?
    ensures var s := AppendChanged(j, before, after).value.sequence;
            && j.sequence <= s && ((exists f :: f in after && !Unchanged(before, f)) ==> j.sequence < s)
  {
    hide Unchanged;
    if after != [] {
      var n := |after| - 1;
      AppendCounts(j, before, after[..n]);
      assert after == after[..n] + [after[n]];
    }
  }

  /** A planned entry is a change to the catalog. */
  lemma PlannedIsChange(files: seq<File>, plan: Plan, k: int)
    requires UniqueIds(files) && Publish(files, plan).Ok? && DistinctPlan(plan) && 0 <= k < |plan.files|
    ensures !Unchanged(files, plan.files[k])
  {
    var f, prior := plan.files[k], WithId(files, plan.files[k].id);
    if prior.Some? {
      var i :| 0 <= i < |files| && files[i] == prior.value;
      assert HasId(files, f.id);
      StoredIsGuarded(files, plan, k);
      CheckPasses(files, plan);
      GuardRevision(files, plan, i);
    }
  }

  lemma CheckPasses(files: seq<File>, plan: Plan)
    requires Publish(files, plan).Ok?
    ensures Check(files, plan).None?
  {
  }

  lemma PublishAdvances(w: World, op: Operation)
    requires GoodCatalog(w) && GoodOp(op) && PublishPlan(w, op).Ok?
    ensures Advances(w, PublishPlan(w, op).value)
  {
    hide Publish, Unchanged, Recorded, Journals.Valid, AppendChanged;
    var next := Publish(w.files, op.plan).value;
    PlannedIsChange(w.files, op.plan, 0);
    PublishedIn(w.files, op.plan, 0);
    AppendCounts(w.journal, w.files, next);
  }

  // ------------------------------------------------------------------ recovery

  /** Along settling, the operation is mapped as soon as it is stored. */
  lemma SettleMaps(w: World, op: Operation, src: Source)
    requires GoodOp(op) && op.id in w.ops && w.ops[op.id] == op && op.status == Publishing
    ensures forall x :: x in Settle(w, op, src).trace ==> Maps(x, op.id)
  {
    hide MapItems, ReceiptOf, GoodOp, Current;
    SettledMapping(w, op, src);
    var t := Settle(w, op, src).trace;
    assert Maps(t[3], op.id) && t[2].sources[op.sourceKey].items == t[3].sources[op.sourceKey].items;
    assert t[2].ops == t[3].ops;
  }

  /** Another operation's steps leave one that is not stored as it is. */
  lemma OthersMap(w: World, op: Operation, s: Storage, id: string)
    requires id in w.ops && id != op.id && w.ops[id].status != Stored
    ensures forall x :: x in Recover(w, op, s).trace ==> Maps(x, id)
  {
    hide Recover;
    RecoverOthers(w, op, s, id);
  }

  lemma SettleAnswers(w: World, op: Operation, src: Source, env: Env)
    requires Inv(w) && op.id in w.ops && w.ops[op.id] == op && op.status == Publishing
    requires op.id in w.log || Evident(w, op.plan.files)
    ensures Answers(w, Settle(w, op, src), op.id, env)
  {
    hide MapItems, ReceiptOf, Inv, GoodOp, Evident, Maps;
    OpKey(w, op.id);
    SettleMaps(w, op, src);
    var r := Settle(w, op, src);
    assert Last(r).log == w.log;
    if op.id !in w.log {
      assert w in r.trace && Coincident(w, op.id);
    }
  }

  /** The answers hold of another operation as of the recovered one. */
  lemma SettleAnswersOther(w: World, op: Operation, src: Source, id: string, env: Env)
    requires id in w.ops && id != op.id && w.ops[id].status != Stored
    ensures Answers(w, Settle(w, op, src), id, env)
  {
    hide MapItems, ReceiptOf, Mapped;
    assert Last(Settle(w, op, src)).log == w.log;
  }

  lemma RecoverAnswers(w: World, op: Operation, s: Storage, id: string, env: Env)
    requires Inv(w) && op.id in w.ops && w.ops[op.id] == op && Maps(w, id)
             && (id == op.id || w.ops[id].status != Stored)
    requires op.id in w.log && op.status == Publishing ==> Evident(w, op.plan.files)
    requires s == env.first || s == env.pending || s == env.last
    ensures Answers(w, Recover(w, op, s), id, env)
  {
    hide Inv, Evident, PublishPlan, Settle, Answers, Maps, Safe, GoodOp;
    AnswersHere(w, None, id, env);
    AnswersHere(w, Recover(w, op, s).error, id, env);
    if op.status == Publishing && op.sourceKey in w.sources {
      var src := w.sources[op.sourceKey];
      OpKey(w, op.id);
      if Evident(w, op.plan.files) {
        SettleAnswersAny(w, op, src, id, env);
      } else if src.status == Active && s.check.None? && PublishPlan(w, op).Ok? {
        var w1 := PublishPlan(w, op).value;
        PublicationSafe(w, op);
        OneAnswers(w, op, s, id, env);
        if s.finish.None? {
          SettleAnswersAny(w1, op, src, id, env);
          InvCatalog(w1);
          SettleSafe(w1, op, src);
          SettledAfter(w, op, src, id, env);
        }
      }
    }
  }

  lemma SettleAnswersAny(w: World, op: Operation, src: Source, id: string, env: Env)
    requires Inv(w) && op.id in w.ops && w.ops[op.id] == op && op.status == Publishing
    requires op.id in w.log || Evident(w, op.plan.files)
    requires id in w.ops && (id == op.id || w.ops[id].status != Stored)
    ensures Answers(w, Settle(w, op, src), id, env)
  {
    hide Settle, Answers, Inv, Evident;
    if id == op.id {
      SettleAnswers(w, op, src, env);
    } else {
      SettleAnswersOther(w, op, src, id, env);
    }
  }

  /** A publication whose FinishBackup failed. */
  lemma OneAnswers(w: World, op: Operation, s: Storage, id: string, env: Env)
    requires Inv(w) && op.id in w.ops && w.ops[op.id] == op && op.status == Publishing && op.id !in w.log
    requires PublishPlan(w, op).Ok? && Maps(w, id) && w.ops[id].status != Stored
    requires s == env.first || s == env.pending || s == env.last
    ensures s.finish.Some? ==> Answers(w, Run([w, PublishPlan(w, op).value], s.finish), id, env)
  {
    hide PublishPlan, Inv, GoodCatalog, GoodOp, Mapped;
    OpKey(w, op.id);
    InvCatalog(w);
    PublicationSafe(w, op);
    PublishAdvances(w, op);
    PublishLogs(w, op);
  }

  lemma PublishLogs(w: World, op: Operation)
    requires PublishPlan(w, op).Ok?
    ensures PublishPlan(w, op).value.log == w.log + [op.id]
  {
  }

  /** A publication followed by settling. */
  lemma SettledAfter(w: World, op: Operation, src: Source, id: string, env: Env)
    requires Inv(w) && op.id in w.ops && w.ops[op.id] == op && op.status == Publishing && op.id !in w.log
    requires PublishPlan(w, op).Ok? && Maps(w, id) && w.ops[id].status != Stored
    requires var w1 := PublishPlan(w, op).value;
               Answers(w1, Settle(w1, op, src), id, env) && Safe(w1, Settle(w1, op, src))
    ensures var w1 := PublishPlan(w, op).value; Answers(w, Then(Run([w, w1], None), Settle(w1, op, src)), id, env)
  {
    hide PublishPlan, Inv, GoodCatalog, GoodOp, Mapped, MapItems, ReceiptOf, Coincident, Keeps;
    OpKey(w, op.id);
    InvCatalog(w);
    PublicationSafe(w, op);
    PublishAdvances(w, op);
    PublishLogs(w, op);
    var w1 := PublishPlan(w, op).value;
    var r, s := Run([w, w1], None), Settle(w1, op, src);
    var t := Then(r, s);
    assert Last(s).log == w1.log && Last(t) == Last(s) && t.error.None?;
    assert Last(s).ops[op.id].status == Stored;
    assert Ended(Last(t), op.id, None, env);
    if Last(t).ops[id].status == Stored {
      assert id == op.id && id in Last(t).log;
    }
  }

  // ---------------------------------------------------- the parts of a finalization

  lemma RecoverSourceAnswers(w: World, key: string, id: string, env: Env)
    requires Inv(w) && Retained(w) && key in w.sources && id in w.ops && w.ops[id].status == Accepted
    ensures Answers(w, RecoverSource(w, key, env.pending), id, env)
  {
    hide Inv, Retained, Recover, Answers, Safe, Evident, Keeps;
    var src := w.sources[key];
    AcceptedMaps(w, id);
    AnswersHere(w, None, id, env);
    AnswersHere(w, Some(NotFound), id, env);
    if src.pending != "" && src.pending in w.ops {
      var op := w.ops[src.pending];
      OpKey(w, src.pending);
      RetainedFor(w, src.pending);
      RecoverAnswers(w, op, env.pending, id, env);
      RecoverSafe(w, op, env.pending);
      var r := Recover(w, op, env.pending);
      var v := Last(r);
      SafeLast(w, r);
      AcceptedStays(w, op, env.pending, id);
      SafeHere(v, Some(NotFound));
      AcceptedMaps(v, id);
      AnswersHere(v, Some(NotFound), id, env);
      AnswersThen(w, r, Failed(v, NotFound), id, env);
      if key in v.sources {
        var x := PutSource(v, key, v.sources[key].(pending := ""));
        SourceWriteSafe(v, key, v.sources[key].(pending := ""));
        TwoSafe(v, x, None);
        PairAnswers(v, x, None, id, env);
        AnswersThen(w, r, Run([v, x], None), id, env);
      }
    }
  }

  lemma AcceptedMaps(w: World, id: string)
    requires id in w.ops && w.ops[id].status != Stored
    ensures Maps(w, id)
  {
  }

  lemma AcceptedStays(w: World, op: Operation, s: Storage, id: string)
    requires id in w.ops && w.ops[id].status == Accepted && op.id in w.ops && w.ops[op.id] == op
    ensures var v := Last(Recover(w, op, s)); id in v.ops && v.ops[id] == w.ops[id]
  {
    hide Recover;
    if id == op.id {
      RecoverIdle(w, op, s);
    } else {
      RecoverOthers(w, op, s, id);
      assert Last(Recover(w, op, s)) in Recover(w, op, s).trace;
    }
  }

  /** A record write that stores nothing. */
  lemma PairAnswers(w: World, x: World, e: Option<Error>, id: string, env: Env)
    requires x.log == w.log && x.journal == w.journal
    requires id in w.ops && w.ops[id].status != Stored && id in x.ops && x.ops[id].status != Stored
    requires x.ops[id].spec == w.ops[id].spec
    ensures Answers(w, Run([w, x], e), id, env)
  {
  }

  lemma TripleAnswers(w: World, x: World, y: World, id: string, env: Env)
    requires x.log == w.log == y.log && x.journal == w.journal == y.journal
    requires id in w.ops && w.ops[id].status != Stored && id in x.ops && x.ops[id].status != Stored
    requires id in y.ops && y.ops[id].status != Stored && x.ops[id].spec == w.ops[id].spec == y.ops[id].spec
    ensures Answers(w, Run([w, x, y], None), id, env)
  {
  }

  lemma ResetAnswers(w: World, op: Operation, attempt: string, env: Env)
    requires op.id in w.ops && w.ops[op.id].status != Stored && w.ops[op.id].spec == op.spec
    ensures Answers(w, Reset(w, op, attempt), op.id, env)
  {
    hide Answers, Check;
    AcceptedMaps(w, op.id);
    AnswersHere(w, Reset(w, op, attempt).error, op.id, env);
    var w1 := PutOp(w, ResetOp(op, attempt));
    PairAnswers(w, w1, None, op.id, env);
    PairAnswers(w, w1, Some(NotFound), op.id, env);
    if op.sourceKey in w.sources {
      TripleAnswers(w, w1, PutSource(w1, op.sourceKey, w.sources[op.sourceKey].(pending := "")), op.id, env);
    }
  }

  lemma StoreAnswers(w: World, op: Operation, env: Env)
    requires Inv(w) && Unpublished(w, op) && w.ops[op.id].spec == op.spec
    ensures Answers(w, Store(w, op, env).0, op.id, env)
  {
    hide Inv, Answers, Reset, Safe, Keeps, WithBytes, GoodOp;
    AcceptedMaps(w, op.id);
    AnswersHere(w, None, op.id, env);
    AnswersHere(w, Store(w, op, env).0.error, op.id, env);
    ResetAnswers(w, op, env.attempt2, env);
    ResetSafe(w, op, env.attempt2);
    var r := Reset(w, op, env.attempt2);
    if r.error.None? && env.retry.Err? {
      var v := Last(r);
      SafeLast(w, r);
      AcceptedMaps(v, op.id);
      AnswersHere(v, Some(env.retry.error), op.id, env);
      SafeHere(v, Some(env.retry.error));
      AnswersThen(w, r, Failed(v, env.retry.error), op.id, env);
    }
  }

  lemma StoreSpec(w: World, op: Operation, env: Env)
    requires op.id in w.ops && w.ops[op.id].spec == op.spec && Store(w, op, env).0.error.None?
    ensures var (r, ready) := Store(w, op, env);
            ready.spec == op.spec && op.id in Last(r).ops && Last(r).ops[op.id].spec == op.spec
  {
    hide WithBytes, Check;
    var k := Unbacked(op, 0);
    if k >= 0 {
      if env.store.Ok? {
        BytesSpec(op, k, env.store.value);
      } else if env.retry.Ok? {
        BytesSpec(ResetOp(op, env.attempt2), k, env.retry.value);
      }
    }
  }

  lemma CommitAnswers(w: World, op: Operation, src: Source, env: Env)
    requires Inv(w) && Unpublished(w, op) && w.ops[op.id].spec == op.spec
    ensures var r := Commit(w, op, src, env);
            Answers(w, r, op.id, env) && (r.error.None? ==> Last(r).ops[op.id].status == Stored)
  {
    hide Inv, Answers, Recover, Safe, Keeps, GoodOp;
    var intent := op.(status := Publishing);
    SameGood(op, intent);
    var w1 := PutOp(w, intent);
    OpWriteSafe(w, intent);
    var w2 := PutSource(w1, op.sourceKey, src.(pending := op.id));
    SourceWriteSafe(w1, op.sourceKey, src.(pending := op.id));
    TripleAnswers(w, w1, w2, op.id, env);
    AcceptedMaps(w2, op.id);
    RecoverAnswers(w2, intent, env.last, op.id, env);
    RecoverSafe(w2, intent, env.last);
    AnswersThen(w, Run([w, w1, w2], None), Recover(w2, intent, env.last), op.id, env);
  }

  lemma AnnounceAnswers(w: World, op: Operation, src: Source, env: Env)
    requires Inv(w) && Unpublished(w, op) && w.ops[op.id].spec == op.spec
    ensures var r := Announce(w, op, src, env);
            Answers(w, r, op.id, env) && (r.error.None? ==> Last(r).ops[op.id].status == Stored)
  {
    hide Inv, Answers, Adopt, Store, Commit, Check, Safe, Keeps, GoodOp;
    AcceptedMaps(w, op.id);
    AnswersHere(w, Announce(w, op, src, env).error, op.id, env);
    if src.status == Active && Adopt(w.files, src, op).Ok? {
      var adopted := Adopt(w.files, src, op).value;
      AdoptGood(w.files, src, op);
      AdoptSpec(w.files, src, op);
      if Check(w.files, adopted.plan).None? {
        StoreSafe(w, adopted, env);
        StoreAnswers(w, adopted, env);
        var (r, ready) := Store(w, adopted, env);
        if r.error.None? {
          SafeLast(w, r);
          StoreSpec(w, adopted, env);
          CommitAnswers(Last(r), ready, src, env);
          CommitSafe(Last(r), ready, src, env);
          AnswersThen(w, r, Commit(Last(r), ready, src, env), op.id, env);
        }
      }
    }
  }

  lemma PublicationAnswers(w: World, op: Operation, env: Env)
    requires Inv(w) && Retained(w) && op.id in w.ops && w.ops[op.id] == op && op.status == Accepted
    ensures var r := Publication(w, op, env);
            Answers(w, r, op.id, env) && (r.error.None? ==> Last(r).ops[op.id].status == Stored)
  {
    hide Inv, Retained, Answers, RecoverSource, Announce, Safe, Keeps, GoodOp;
    AcceptedMaps(w, op.id);
    AnswersHere(w, Some(NotFound), op.id, env);
    if op.sourceKey in w.sources {
      RecoverSourceAnswers(w, op.sourceKey, op.id, env);
      RecoverSourceSafe(w, op.sourceKey, env.pending);
      var r := RecoverSource(w, op.sourceKey, env.pending);
      if r.error.None? {
        var v := Last(r);
        SafeLast(w, r);
        RecoverSourceKeepsAccepted(w, op.sourceKey, env.pending, op.id);
        OpKey(w, op.id);
        AcceptedMaps(v, op.id);
        AnswersHere(v, Some(NotFound), op.id, env);
        SafeHere(v, Some(NotFound));
        if op.sourceKey in v.sources {
          AnnounceAnswers(v, op, v.sources[op.sourceKey], env);
          AnnounceSafe(v, op, v.sources[op.sourceKey], env);
          AnswersThen(w, r, Announce(v, op, v.sources[op.sourceKey], env), op.id, env);
        } else {
          AnswersThen(w, r, Failed(v, NotFound), op.id, env);
        }
      }
    }
  }

  /** A finalization, whatever the storage layer says. */
  lemma FinalizeAnswers(w: World, id: string, device: string, env: Env)
    requires Inv(w) && Retained(w) && Maps(w, id)
    ensures var r := Finalize(w, id, device, env);
            Answers(w, r, id, env) && (r.error.None? ==> Last(r).ops[id].status == Stored)
  {
    hide Inv, Retained, Answers, Recover, Publication, Reset, Evident, Safe, Keeps, GoodOp, Maps;
    AnswersHere(w, Some(NotFound), id, env);
    var op := w.ops[id];
    OpKey(w, id);
    RetainedFor(w, id);
    RecoverAnswers(w, op, env.first, id, env);
    RecoverSafe(w, op, env.first);
    var r := Recover(w, op, env.first);
    var v := Last(r);
    SafeLast(w, r);
    if r.error.Some? {
      if op.status == Publishing && !Evident(v, op.plan.files) {
        UnprovedFailure(w, op, env.first);
        FinalizeAgainAnswers(w, op, r, env);
      }
    } else if v.ops[id].status == Accepted {
      PublicationAnswers(w, op, env);
      PublicationCallSafe(w, op, env);
      AnswersThen(w, r, Publication(v, op, env), id, env);
    } else {
      LastMaps(w, r, id, env);
      AnswersHere(v, Some(Paused), id, env);
      SafeHere(v, Some(Paused));
      AnswersThen(w, r, Failed(v, Paused), id, env);
    }
  }

  lemma LastMaps(w: World, r: Run, id: string, env: Env)
    requires Answers(w, r, id, env)
    ensures Maps(Last(r), id)
  {
  }

  lemma FinalizeAgainAnswers(w: World, op: Operation, r: Run, env: Env)
    requires Inv(w) && Retained(w) && op.id in w.ops && w.ops[op.id] == op && op.status == Publishing && op.id !in w.log
    requires |r.trace| > 0 && Answers(w, r, op.id, env) && Safe(w, r) && Last(r) == w && r.error.Some?
    ensures var again, s := Reset(w, op, env.attempt1), Run(r.trace, None);
            && Answers(w, Then(s, again), op.id, env)
            && (again.error.None? ==>
                  var t := Then(Then(s, again), Publication(Last(again), ResetOp(op, env.attempt1), env));
                  Answers(w, t, op.id, env) && (t.error.None? ==> Last(t).ops[op.id].status == Stored))
  {
    hide Inv, Answers, Reset, Publication, Retained, Safe, Keeps, GoodOp;
    var again, s := Reset(w, op, env.attempt1), Run(r.trace, None);
    OpKey(w, op.id);
    AsIfHere(w, r, op.id, env);
    ResetSafe(w, op, env.attempt1);
    ResetAnswers(w, op, env.attempt1, env);
    AnswersThen(w, s, again, op.id, env);
    if again.error.None? {
      ResetRetains(w, op, env.attempt1);
      SafeLast(w, again);
      PublicationAnswers(Last(again), ResetOp(op, env.attempt1), env);
      PublicationCallSafe(Last(again), ResetOp(op, env.attempt1), env);
      AnswersThen(w, Then(s, again), Publication(Last(again), ResetOp(op, env.attempt1), env), op.id, env);
    }
  }

  /** A failure that changed nothing can be passed over. */
  lemma AsIfHere(w: World, r: Run, id: string, env: Env)
    requires Answers(w, r, id, env) && Last(r) == w && id in w.ops && w.ops[id].status != Stored
    ensures Answers(w, Run(r.trace, None), id, env)
  {
  }

  // ------------------------------------------------------------- the retry itself

  /** The call made after the crash: any of them, with any answers. */
  datatype Retry = ByFinalize(device: string, env: Env) | ByStatus(device: string, env: Env)
                 | ByCancel(device: string, env: Env) | ByCreate(key: string, spec: Spec, env: Env)

  function Retried(c: World, id: string, again: Retry): (r: Run)
    ensures |r.trace| > 0
  {
    match again
    case ByFinalize(device, env) => Finalize(c, id, device, env)
    case ByStatus(device, env) => StatusCall(c, id, device, env)
    case ByCancel(device, env) => Cancel(c, id, device, env)
    case ByCreate(key, spec, env) => Create(c, id, key, spec, env)
  }

  /** What a retry that reports success leaves behind. */
  ghost predicate Concluded(c: World, v: World, id: string, again: Retry) {
    && id in v.ops && Inv(v)
    && match v.ops[id].status
       case Stored => Mapped(v, v.ops[id])
       case Cancelled => id !in v.log && v.files == c.files && v.journal == c.journal && (again.ByCancel? || v == c)
       case Accepted => (again.ByStatus? || again.ByCreate?) && v == c
       case Publishing => false
  }

  lemma RecoverConcludes(c: World, id: string, s: Storage, again: Retry)
    requires Inv(c) && Retained(c) && Maps(c, id) && (again.ByStatus? || again.ByCreate?) && s == again.env.first
    ensures var r := Recover(c, c.ops[id], s);
            Answers(c, r, id, again.env) && (r.error.None? ==> Concluded(c, Last(r), id, again))
  {
    hide Inv, Retained, Answers, Recover, Evident, Safe, Keeps, GoodOp, Mapped;
    OpKey(c, id);
    RetainedFor(c, id);
    RecoverAnswers(c, c.ops[id], s, id, again.env);
    RecoverSafe(c, c.ops[id], s);
    var r := Recover(c, c.ops[id], s);
    SafeLast(c, r);
    LastMaps(c, r, id, again.env);
  }

  lemma CancelAnswers(c: World, id: string, device: string, env: Env)
    requires Inv(c) && Retained(c) && Maps(c, id)
    ensures var r := Cancel(c, id, device, env);
            Answers(c, r, id, env) && (r.error.None? ==> Concluded(c, Last(r), id, ByCancel(device, env)))
  {
    hide Inv, Retained, Answers, Recover, Evident, Safe, Keeps, GoodOp, Mapped;
    AnswersHere(c, Cancel(c, id, device, env).error, id, env);
    var op := c.ops[id];
    var cancelled := op.(status := Cancelled);
    OpKey(c, id);
    RetainedFor(c, id);
    CancelSafe(c, id, device, env);
    SafeLast(c, Cancel(c, id, device, env));
    if op.status == Publishing && !Evident(c, op.plan.files) {
      PairAnswers(c, PutOp(c, cancelled), None, id, env);
      if op.sourceKey in c.sources {
        var w1 := PutSource(c, op.sourceKey, c.sources[op.sourceKey].(pending := ""));
        TripleAnswers(c, w1, PutOp(w1, cancelled), id, env);
      }
    } else {
      RecoverAnswers(c, op, env.first, id, env);
      RecoverSafe(c, op, env.first);
      var r := Recover(c, op, env.first);
      SafeLast(c, r);
      LastMaps(c, r, id, env);
      if r.error.None? && Last(r).ops[id].status != Stored {
        PairAnswers(c, PutOp(c, cancelled), None, id, env);
        SameGood(op, cancelled);
        OpWriteSafe(c, cancelled);
        TwoSafe(c, PutOp(c, cancelled), None);
        AnswersThen(c, r, Run([c, PutOp(c, cancelled)], None), id, env);
      }
    }
  }

  lemma AnyCallAnswers(c: World, id: string, again: Retry)
    requires Inv(c) && Retained(c) && Maps(c, id)
    requires again.ByCreate? ==> c.ops[id].spec.device == again.spec.device
    ensures var r := Retried(c, id, again);
            && Answers(c, r, id, again.env) && (r.error.None? ==> Concluded(c, Last(r), id, again))
            && (r.error.None? && again.ByFinalize? ==> Last(r).ops[id].status == Stored)
  {
    hide Inv, Retained, Answers, Recover, Cancel, Finalize, Safe, Keeps, Mapped;
    AnswersHere(c, Some(NotFound), id, again.env);
    AnswersHere(c, Some(IdempotencyConflict), id, again.env);
    match again
    case ByFinalize(device, env) =>
      FinalizeAnswers(c, id, device, env);
      FinalizeSafe(c, id, device, env);
      SafeLast(c, Finalize(c, id, device, env));
      LastMaps(c, Finalize(c, id, device, env), id, env);
    case ByStatus(device, env) => RecoverConcludes(c, id, env.first, again);
    case ByCancel(device, env) => CancelAnswers(c, id, device, env);
    case ByCreate(key, spec, env) => RecoverConcludes(c, id, env.first, again);
  }

  ghost predicate SameCatalog(w: World, v: World) {
    v.files == w.files && v.journal == w.journal
  }

  lemma Unmoved(c: World, id: string, again: Retry)
    requires Inv(c) && Retained(c) && id in c.ops && Answers(c, Retried(c, id, again), id, again.env)
    requires again.ByCreate? ==> c.ops[id].spec.device == again.spec.device
    ensures var v := Last(Retried(c, id, again)); SameCatalog(c, v) <==> v.log == c.log
  {
    hide Inv, Retained, Finalize, StatusCall, Cancel, Create;
    var v := Last(Retried(c, id, again));
    var e := match again
      case ByFinalize(device, env) => Finalizing(id, device, env)
      case ByStatus(device, env) => Asking(id, device, env)
      case ByCancel(device, env) => Cancelling(id, device, env)
      case ByCreate(key, spec, env) => Creating(id, key, spec, env);
    CatalogOnlyByPlan(c, e, v);
  }

  /** A retry that reports success has concluded the operation: stored, with its
      receipt, its mapping and its plan in the catalog at most once, and published
      unless the catalog held exactly the planned versions anyway; or cancelled, with
      the plan not published; or, asked for its status, still accepted with nothing
      changed. A retry that fails has the catalog it found, except exactly when it
      published a plan, and each plan it published is stored unless FinishBackup
      failed. */
  ghost predicate Settles(c: World, r: Run, id: string, again: Retry)
    requires |r.trace| > 0 && id in c.ops
  {
    var v := Last(r);
    && NoRepeats(v.log) && (SameCatalog(c, v) <==> v.log == c.log) && EndedFrom(v, |c.log|, r.error, again.env)
    && (r.error.None? ==>
          && Concluded(c, v, id, again) && (again.ByFinalize? ==> v.ops[id].status == Stored)
          && (v.ops[id].status == Stored ==> Receipted(v, v.ops[id])
                                             && (c.ops[id].status != Stored ==> Accounted(r, id))))
  }

  /** The receipt names the planned entry, and the whole plan was in the catalog. */
  ghost predicate Receipted(v: World, op: Operation) {
    op.receipt == WithId(op.plan.files, op.primary) && AllEntered(op.plan.files, v.entered)
  }

  /** A crashed finalization and whatever call comes next. */
  lemma RetrySettles(w: World, id: string, device: string, env: Env, c: World, again: Retry)
    requires Inv(w) && Retained(w) && id in w.ops && w.ops[id].status != Stored
    requires c in Finalize(w, id, device, env).trace && Retained(c)
    requires again.ByCreate? ==> w.ops[id].spec.device == again.spec.device
    ensures id in c.ops && Settles(c, Retried(c, id, again), id, again)
  {
    hide Inv, Retained, Answers, Finalize, Maps, Retried, Safe, Settles;
    AcceptedMaps(w, id);
    FinalizeAnswers(w, id, device, env);
    FinalizeSafe(w, id, device, env);
    TraceMaps(w, Finalize(w, id, device, env), c, id, env);
    CallSettles(c, id, again);
  }

  lemma CallSettles(c: World, id: string, again: Retry)
    requires Inv(c) && Retained(c) && Maps(c, id) && id in c.ops
    requires again.ByCreate? ==> c.ops[id].spec.device == again.spec.device
    ensures Settles(c, Retried(c, id, again), id, again)
  {
    hide Inv, Retained, Answers, Maps, Concluded, EndedFrom, Receipted, NoRepeats, Retried, Accounted, SameCatalog;
    hide Safe;
    var r := Retried(c, id, again);
    AnyCallAnswers(c, id, again);
    Unmoved(c, id, again);
    AnswersMean(c, r, id, again);
    RetriedInv(c, id, again);
    StoredHonest(Last(r), id);
    if r.error.None? {
      ConcludedKnows(c, Last(r), id, again);
    }
  }

  lemma ConcludedKnows(c: World, v: World, id: string, again: Retry)
    requires Concluded(c, v, id, again)
    ensures id in v.ops
  {
  }

  lemma StoredHonest(v: World, id: string)
    requires Inv(v)
    ensures NoRepeats(v.log)
    ensures id in v.ops && v.ops[id].status == Stored ==> Receipted(v, v.ops[id])
  {
    assert id in v.ops ==> Honest(v.ops[id], v.entered);
  }

  lemma TraceMaps(w: World, r: Run, c: World, id: string, env: Env)
    requires Answers(w, r, id, env) && c in r.trace && Safe(w, r)
    ensures Maps(c, id) && Inv(c) && c.ops[id].spec == w.ops[id].spec
  {
  }

  lemma RetriedInv(c: World, id: string, again: Retry)
    requires Inv(c) && Retained(c) && id in c.ops && (again.ByCreate? ==> c.ops[id].spec.device == again.spec.device)
    ensures Inv(Last(Retried(c, id, again)))
  {
    hide Inv, Retained, Finalize, Recover, Cancel, Safe, Keeps, Evident;
    SafeHere(c, Some(IdempotencyConflict));
    SafeHere(c, Some(NotFound));
    match again {
      case ByFinalize(device, env) => FinalizeSafe(c, id, device, env);
      case ByStatus(device, env) => StatusSafe(c, id, device, env);
      case ByCancel(device, env) => CancelSafe(c, id, device, env);
      case ByCreate(key, spec, env) =>
        OpKey(c, id);
        RetainedFor(c, id);
        RecoverSafe(c, c.ops[id], env.first);
    }
    var r := Retried(c, id, again);
    assert Safe(c, r);
    SafeLast(c, r);
  }

  lemma AnswersMean(c: World, r: Run, id: string, again: Retry)
    requires Answers(c, r, id, again.env) && id in c.ops
    ensures EndedFrom(Last(r), |c.log|, r.error, again.env)
    ensures r.error.None? && c.ops[id].status != Stored && Last(r).ops[id].status == Stored ==> Accounted(r, id)
  {
  }
}
