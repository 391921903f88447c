/** Calls write one record at a time; only plans touch the catalog. */
module BackupWrites {
  // And only the plan of an operation recorded as publishing.

  import opened Prelude
  import opened Entries
  import opened Journals
  import opened BackupCas
  import opened BackupPlans
  import opened BackupProtocol
  import opened BackupSafety
  import opened BackupRuns

  ghost predicate OpWritten(w: World, x: World) {
    exists op :: x == PutOp(w, op)
  }

  ghost predicate SourceWritten(w: World, x: World) {
    exists key, src :: x == PutSource(w, key, src)
  }

  /** The one catalog write: an intent already durable is published. */
  ghost predicate PlanPublished(w: World, x: World) {
    exists id :: id in w.ops && w.ops[id].status == Publishing && PublishPlan(w, w.ops[id]) == Ok(x)
  }

  ghost predicate OneWrite(w: World, x: World) {
    OpWritten(w, x) || SourceWritten(w, x) || PlanPublished(w, x)
  }

  ghost predicate Chain(trace: seq<World>) {
    forall i :: 0 <= i < |trace| - 1 ==> OneWrite(trace[i], trace[i + 1])
  }

  lemma ThenChain(r: Run, s: Run)
    requires |r.trace| > 0 && |s.trace| > 0 && Chain(r.trace)
    requires r.error.None? ==> Chain(s.trace) && Last(r) == s.trace[0]
    ensures Chain(Then(r, s).trace)
  {
    hide OneWrite;
    if r.error.None? {
      var t := Then(r, s).trace;
      forall i | 0 <= i < |t| - 1 ensures OneWrite(t[i], t[i + 1]) {
        if i < |r.trace| - 1 {
          assert OneWrite(r.trace[i], r.trace[i + 1]);
        } else {
          var k := i - (|r.trace| - 1);
          assert t[i] == s.trace[k] && t[i + 1] == s.trace[k + 1];
          assert OneWrite(s.trace[k], s.trace[k + 1]);
        }
      }
    }
  }

  lemma OpChain(w: World, op: Operation, e: Option<Error>)
    ensures Chain(Run([w, PutOp(w, op)], e).trace) && OneWrite(w, PutOp(w, op))
  {
  }

  lemma SourceChain(w: World, key: string, src: Source, e: Option<Error>)
    ensures Chain(Run([w, PutSource(w, key, src)], e).trace) && OneWrite(w, PutSource(w, key, src))
  {
  }

  lemma SettleChain(w: World, op: Operation, src: Source)
    ensures Chain(Settle(w, op, src).trace)
  {
    hide MapItems, OneWrite;
    var t := Settle(w, op, src).trace;
    var mapped := src.(items := MapItems(src, op), pending := op.id);
    SourceChain(w, op.sourceKey, mapped, None);
    OpChain(t[1], op.(status := Stored, receipt := ReceiptOf(op)), None);
    SourceChain(t[2], op.sourceKey, mapped.(pending := ""), None);
  }

  lemma RecoverChain(w: World, op: Operation, s: Storage)
    requires op.id in w.ops && w.ops[op.id] == op
    ensures Chain(Recover(w, op, s).trace)
  {
    hide Evident, PublishPlan, Settle, OpWritten, SourceWritten;
    if op.status == Publishing && op.sourceKey in w.sources {
      SettleChain(w, op, w.sources[op.sourceKey]);
      if PublishPlan(w, op).Ok? {
        var w1 := PublishPlan(w, op).value;
        assert PlanPublished(w, w1);
        SettleChain(w1, op, w.sources[op.sourceKey]);
        SettleStart(w1, op, w.sources[op.sourceKey]);
        ThenChain(Run([w, w1], None), Settle(w1, op, w.sources[op.sourceKey]));
      }
    }
  }

  lemma SettleStart(w: World, op: Operation, src: Source)
    ensures |Settle(w, op, src).trace| == 4 && Settle(w, op, src).trace[0] == w && Settle(w, op, src).error.None?
  {
  }

  lemma RecoverSourceChain(w: World, key: string, s: Storage)
    requires Inv(w) && key in w.sources
    ensures Chain(RecoverSource(w, key, s).trace)
  {
    hide Inv, Recover, Chain;
    assert Chain([w]) by {
      Single(w);
    }
    var src := w.sources[key];
    if src.pending != "" && src.pending in w.ops {
      OpKey(w, src.pending);
      RecoverChain(w, w.ops[src.pending], s);
      var r := Recover(w, w.ops[src.pending], s);
      Single(Last(r));
      ThenChain(r, Failed(Last(r), NotFound));
      if key in Last(r).sources {
        SourceChain(Last(r), key, Last(r).sources[key].(pending := ""), None);
        ThenChain(r, Run([Last(r), PutSource(Last(r), key, Last(r).sources[key].(pending := ""))], None));
      }
    }
  }

  lemma Single(w: World)
    ensures Chain([w])
  {
  }

  lemma Pair(w: World, x: World)
    requires OneWrite(w, x)
    ensures Chain([w, x])
  {
  }

  lemma Triple(w: World, x: World, y: World)
    requires OneWrite(w, x) && OneWrite(x, y)
    ensures Chain([w, x, y])
  {
  }

  lemma ResetChain(w: World, op: Operation, attempt: string)
    ensures Chain(Reset(w, op, attempt).trace)
  {
    hide Chain, OneWrite, Check;
    var w1 := PutOp(w, ResetOp(op, attempt));
    Single(w);
    OpChain(w, ResetOp(op, attempt), None);
    Pair(w, w1);
    if op.sourceKey in w.sources {
      var src := w.sources[op.sourceKey].(pending := "");
      SourceChain(w1, op.sourceKey, src, None);
      Triple(w, w1, PutSource(w1, op.sourceKey, src));
    }
  }

  lemma StoreChain(w: World, op: Operation, env: Env)
    ensures Chain(Store(w, op, env).0.trace)
  {
    hide Chain, Reset, Unbacked;
    Single(w);
    ResetChain(w, op, env.attempt2);
    var r := Reset(w, op, env.attempt2);
    if r.error.None? && env.retry.Err? {
      Single(Last(r));
      ThenChain(r, Failed(Last(r), env.retry.error));
    }
  }

  lemma CommitChain(w: World, op: Operation, src: Source, env: Env)
    ensures Chain(Commit(w, op, src, env).trace)
  {
    hide Chain, OneWrite, Recover;
    var intent := op.(status := Publishing);
    var w1 := PutOp(w, intent);
    var w2 := PutSource(w1, op.sourceKey, src.(pending := op.id));
    OpChain(w, intent, None);
    SourceChain(w1, op.sourceKey, src.(pending := op.id), None);
    Triple(w, w1, w2);
    RecoverChain(w2, intent, env.last);
    ThenChain(Run([w, w1, w2], None), Recover(w2, intent, env.last));
  }

  lemma AnnounceChain(w: World, op: Operation, src: Source, env: Env)
    ensures Chain(Announce(w, op, src, env).trace)
  {
    hide Chain, Adopt, Check, Store, Commit;
    Single(w);
    if Adopt(w.files, src, op).Ok? {
      var adopted := Adopt(w.files, src, op).value;
      StoreChain(w, adopted, env);
      var (r, ready) := Store(w, adopted, env);
      CommitChain(Last(r), ready, src, env);
      ThenChain(r, Commit(Last(r), ready, src, env));
    }
  }

  lemma PublicationChain(w: World, op: Operation, env: Env)
    requires Inv(w)
    ensures Chain(Publication(w, op, env).trace)
  {
    hide Chain, Announce, RecoverSource, Inv;
    Single(w);
    if op.sourceKey in w.sources {
      RecoverSourceChain(w, op.sourceKey, env.pending);
      var r := RecoverSource(w, op.sourceKey, env.pending);
      var v := Last(r);
      Single(v);
      ThenChain(r, Failed(v, NotFound));
      if op.sourceKey in v.sources {
        AnnounceChain(v, op, v.sources[op.sourceKey], env);
        ThenChain(r, Announce(v, op, v.sources[op.sourceKey], env));
      }
    }
  }

  lemma FinalizeChain(w: World, id: string, device: string, env: Env)
    requires Inv(w) && Retained(w)
    ensures Chain(Finalize(w, id, device, env).trace)
  {
    hide Chain, Inv, Recover, Reset, Publication, Evident, Safe, Retained, ResetOp, OneWrite;
    Single(w);
    if id in w.ops {
      var op := w.ops[id];
      OpKey(w, id);
      RecoverChain(w, op, env.first);
      RetainedFor(w, id);
      RecoverSafe(w, op, env.first);
      var r := Recover(w, op, env.first);
      var v := Last(r);
      SafeLast(w, r);
      Single(v);
      if r.error.Some? {
        var again, s := Reset(v, op, env.attempt1), Run(r.trace, None);
        ResetChain(v, op, env.attempt1);
        ThenChain(s, again);
        if again.error.None? && op.status == Publishing && !Evident(v, op.plan.files) {
          UnprovedFailure(w, op, env.first);
          ResetSafe(w, op, env.attempt1);
          SafeLast(w, again);
          PublicationChain(Last(again), ResetOp(op, env.attempt1), env);
          ThenChain(Then(s, again), Publication(Last(again), ResetOp(op, env.attempt1), env));
        }
      } else {
        ThenChain(r, Failed(v, NotFound));
        ThenChain(r, Failed(v, Paused));
        if id in v.ops {
          PublicationChain(v, v.ops[id], env);
          ThenChain(r, Publication(v, v.ops[id], env));
        }
      }
    }
  }

  lemma CancelChain(w: World, id: string, device: string, env: Env)
    requires Inv(w)
    ensures Chain(Cancel(w, id, device, env).trace)
  {
    hide Chain, Inv, Recover, Evident, OneWrite;
    Single(w);
    if id in w.ops {
      var op := w.ops[id];
      OpKey(w, id);
      var cancelled := op.(status := Cancelled);
      OpChain(w, cancelled, None);
      if op.sourceKey in w.sources {
        var src := w.sources[op.sourceKey].(pending := "");
        SourceChain(w, op.sourceKey, src, None);
        OpChain(PutSource(w, op.sourceKey, src), cancelled, None);
        Triple(w, PutSource(w, op.sourceKey, src), PutOp(PutSource(w, op.sourceKey, src), cancelled));
      }
      RecoverChain(w, op, env.first);
      var r := Recover(w, op, env.first);
      OpChain(Last(r), cancelled, None);
      ThenChain(r, Run([Last(r), PutOp(Last(r), cancelled)], None));
    }
  }

  lemma CreateChain(w: World, id: string, key: string, spec: Spec, env: Env)
    requires Inv(w)
    ensures Chain(Create(w, id, key, spec, env).trace)
  {
    hide Chain, Inv, Recover, RecoverSource, PlanItem;
    Single(w);
    if id in w.ops {
      OpKey(w, id);
      RecoverChain(w, w.ops[id], env.first);
    }
    if key in w.sources {
      RecoverSourceChain(w, key, env.pending);
      var r := RecoverSource(w, key, env.pending);
      IntendChain(Last(r), id, key, spec, env);
      ThenChain(r, Intend(Last(r), id, key, spec, env));
    }
  }

  lemma IntendChain(w: World, id: string, key: string, spec: Spec, env: Env)
    ensures Chain(Intend(w, id, key, spec, env).trace)
  {
    hide Chain, PlanItem;
    Single(w);
    if key in w.sources {
      var q := Request(w.files, w.sources[key].destination, w.sources[key].items, spec, env.ids, env.now);
      if q.Supplied() && PlanItem(q).Ok? {
        OpChain(w, Operation(id, spec, Accepted, PlanItem(q).value.plan, key, PlanItem(q).value.primary, "", "",
                             None), None);
      }
    }
  }

  lemma SmallCallsChain(w: World, id: string, upload: string, key: string, status: SourceStatus, revision: uint64)
    ensures Chain(SetUpload(w, id, upload).trace) && Chain(UpdateSource(w, key, status, revision).trace)
  {
    hide Chain;
    Single(w);
    if id in w.ops {
      OpChain(w, w.ops[id].(uploadId := upload), None);
    }
    if key in w.sources && revision < MAX_UINT64 {
      SourceChain(w, key, w.sources[key].(status := status, revision := revision + 1), None);
    }
  }

  /** Every call is a chain of single durable writes, so a crash can only ever
      leave one of the states between two of them. */
  lemma WritesOneAtATime(w: World, e: Event)
    requires Inv(w) && Retained(w) && !e.Editing?
    ensures Chain(Call(w, e).trace)
  {
    hide Chain, Inv, Retained, Finalize, StatusCall, Cancel, Create, SetUpload, UpdateSource;
    match e
    case Finalizing(id, device, env) => FinalizeChain(w, id, device, env);
    case Asking(id, device, env) =>
      Single(w);
      if id in w.ops {
        OpKey(w, id);
        RecoverChain(w, w.ops[id], env.first);
      }
      StatusIs(w, id, device, env);
    case Cancelling(id, device, env) => CancelChain(w, id, device, env);
    case Creating(id, key, spec, env) => CreateChain(w, id, key, spec, env);
    case Uploading(id, upload) => SmallCallsChain(w, id, upload, "", Active, 0);
    case Updating(key, status, revision) => SmallCallsChain(w, "", "", key, status, revision);
  }

  lemma StatusIs(w: World, id: string, device: string, env: Env)
    ensures StatusCall(w, id, device, env) == Failed(w, NotFound)
         || (id in w.ops && StatusCall(w, id, device, env) == Recover(w, w.ops[id], env.first))
  {
  }

  lemma {:induction false} ChainCatalog(trace: seq<World>, i: nat)
    requires Chain(trace) && i < |trace|
    ensures |trace[0].log| <= |trace[i].log|
    ensures |trace[0].log| == |trace[i].log| ==>
              trace[i].files == trace[0].files && trace[i].journal == trace[0].journal
    ensures trace[0].log <= trace[i].log
  {
    if i > 0 {
      ChainCatalog(trace, i - 1);
      assert OneWrite(trace[i - 1], trace[i]);
    }
  }

  /** A call that fails, crashes or succeeds without a publication being logged
      has left the catalog exactly as it was. */
  lemma CatalogOnlyByPlan(w: World, e: Event, x: World)
    requires Inv(w) && Retained(w) && !e.Editing? && x in Call(w, e).trace
    ensures w.log <= x.log
    ensures x.log == w.log ==> x.files == w.files && x.journal == w.journal
  {
    hide Inv, Retained, Call, Chain;
    WritesOneAtATime(w, e);
    var t := Call(w, e).trace;
    var i :| 0 <= i < |t| && t[i] == x;
    ChainCatalog(t, i);
  }
}
