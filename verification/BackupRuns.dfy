/** Promises of the backup protocol over whole runs with crashes. */
module BackupRuns {
  // Every call may be cut short after any durable write, and other catalog
  // mutations may happen between calls.

  import opened Prelude
  import opened Entries
  import opened Journals
  import opened BackupCas
  import opened BackupPlans
  import opened BackupProtocol
  import opened BackupSafety

  // ----------------------------------------------------------- calls are safe

  lemma StatusSafe(w: World, id: string, device: string, env: Env)
    requires Inv(w) && Retained(w)
    ensures Safe(w, StatusCall(w, id, device, env))
  {
    hide Inv, Safe, Recover, Evident;
    SafeHere(w, Some(NotFound));
    if id in w.ops {
      OpKey(w, id);
      RecoverSafe(w, w.ops[id], env.first);
    }
  }

  /** A recovery that fails with its plan still unproved has changed nothing. */
  lemma UnprovedFailure(w: World, op: Operation, s: Storage)
    requires Inv(w) && op.id in w.ops && w.ops[op.id] == op && op.status == Publishing
    requires op.id in w.log ==> Evident(w, op.plan.files)
    requires Recover(w, op, s).error.Some? && !Evident(Last(Recover(w, op, s)), op.plan.files)
    ensures Last(Recover(w, op, s)) == w && op.id !in w.log
  {
    hide Inv, Evident, PublishPlan, MapItems;
    if op.id !in w.log && PublishPlan(w, op).Ok? {
      PublicationSafe(w, op);
    }
  }

  lemma ResetRetains(w: World, op: Operation, attempt: string)
    requires Retained(w) && Reset(w, op, attempt).error.None? && op.id !in w.log
    ensures Retained(Last(Reset(w, op, attempt)))
  {
    hide Check, Evident;
    var v := Last(Reset(w, op, attempt));
    assert v.log == w.log && v.files == w.files && v.journal == w.journal;
    forall id | id in v.log && id in v.ops && v.ops[id].status == Publishing ensures Evident(v, v.ops[id].plan.files) {
      SameEvidence(w, v, w.ops[id].plan.files);
    }
  }

  lemma SameEvidence(w: World, x: World, files: seq<File>)
    requires w.files == x.files && w.journal == x.journal
    ensures Evident(w, files) == Evident(x, files)
  {
  }

  lemma FinalizeSafe(w: World, id: string, device: string, env: Env)
    requires Inv(w) && Retained(w)
    ensures Safe(w, Finalize(w, id, device, env))
  {
    hide Inv, Keeps, Safe, Evident, Recover, Reset, Publication, Retained, GoodOp;
    SafeHere(w, Some(NotFound));
    if id in w.ops {
      var op := w.ops[id];
      OpKey(w, id);
      RetainedFor(w, id);
      RecoverSafe(w, op, env.first);
      var r := Recover(w, op, env.first);
      SafeLast(w, r);
      if r.error.Some? {
        if op.status == Publishing && !Evident(Last(r), op.plan.files) {
          UnprovedFailure(w, op, env.first);
          FinalizeAgainSafe(w, op, r, env);
        }
      } else {
        SafeHere(Last(r), Some(NotFound));
        SafeHere(Last(r), Some(Paused));
        SafeThen(w, r, Failed(Last(r), NotFound));
        SafeThen(w, r, Failed(Last(r), Paused));
        if id in Last(r).ops && Last(r).ops[id].status == Accepted {
          PublicationCallSafe(w, op, env);
          SafeThen(w, r, Publication(Last(r), op, env));
        }
      }
    }
  }

  lemma RetainedFor(w: World, id: string)
    requires Retained(w) && id in w.ops
    ensures id in w.log && w.ops[id].status == Publishing ==> Evident(w, w.ops[id].plan.files)
  {
  }

  lemma FinalizeAgainSafe(w: World, op: Operation, r: Run, env: Env)
    requires Inv(w) && Retained(w) && op.id in w.ops && w.ops[op.id] == op && op.status == Publishing && op.id !in w.log
    requires |r.trace| > 0 && Safe(w, r) && Last(r) == w && r.error.Some?
    ensures var again, s := Reset(w, op, env.attempt1), Run(r.trace, None);
            && Safe(w, Then(s, again))
            && (again.error.None? ==> Safe(w, Then(Then(s, again),
                                                   Publication(Last(again), ResetOp(op, env.attempt1), env))))
  {
    hide Inv, Keeps, Safe, Reset, Publication, Retained, GoodOp;
    var again, s := Reset(w, op, env.attempt1), Run(r.trace, None);
    OpKey(w, op.id);
    ResetSafe(w, op, env.attempt1);
    SafeAs(w, r, s);
    SafeThen(w, s, again);
    if again.error.None? {
      ResetRetains(w, op, env.attempt1);
      SafeLast(w, again);
      PublicationCallSafe(Last(again), ResetOp(op, env.attempt1), env);
      SafeThen(w, Then(s, again), Publication(Last(again), ResetOp(op, env.attempt1), env));
    }
  }

  lemma SafeAs(w: World, r: Run, s: Run)
    requires Safe(w, r) && r.trace == s.trace
    ensures Safe(w, s)
  {
  }

  lemma CancelSafe(w: World, id: string, device: string, env: Env)
    requires Inv(w) && Retained(w)
    ensures Safe(w, Cancel(w, id, device, env))
  {
    hide Inv, Keeps, Safe, Evident, Recover, Retained, GoodOp;
    SafeHere(w, Some(NotFound));
    SafeHere(w, env.abort);
    if id in w.ops {
      var op := w.ops[id];
      OpKey(w, id);
      RetainedFor(w, id);
      var cancelled := op.(status := Cancelled);
      SameGood(op, cancelled);
      if op.status == Publishing && !Evident(w, op.plan.files) {
        OpWriteSafe(w, cancelled);
        TwoSafe(w, PutOp(w, cancelled), None);
        if op.sourceKey in w.sources {
          var src := w.sources[op.sourceKey].(pending := "");
          var w1 := PutSource(w, op.sourceKey, src);
          SourceWriteSafe(w, op.sourceKey, src);
          OpWriteSafe(w1, cancelled);
          ThreeSafe(w, w1, PutOp(w1, cancelled));
        }
      } else {
        RecoverSafe(w, op, env.first);
        var r := Recover(w, op, env.first);
        if r.error.None? && Last(r).ops[id].status != Stored {
          OpWriteSafe(w, cancelled);
          TwoSafe(w, PutOp(w, cancelled), None);
          SafeThen(w, r, Run([w, PutOp(w, cancelled)], None));
        }
      }
    }
  }

  lemma RecoverKeepsKeys(w: World, op: Operation, s: Storage)
    requires op.id in w.ops
    ensures forall x :: x in Recover(w, op, s).trace ==> x.ops.Keys == w.ops.Keys
  {
    hide Evident, MapItems, Publish, AppendChanged;
  }

  lemma RecoverSourceKeepsKeys(w: World, key: string, s: Storage)
    requires key in w.sources && Inv(w)
    ensures Last(RecoverSource(w, key, s)).ops.Keys == w.ops.Keys
  {
    hide Recover, Inv;
    var src := w.sources[key];
    if src.pending != "" && src.pending in w.ops {
      OpKey(w, src.pending);
      RecoverKeepsKeys(w, w.ops[src.pending], s);
      assert Last(Recover(w, w.ops[src.pending], s)) in Recover(w, w.ops[src.pending], s).trace;
    }
  }

  /** Create is keyed by the device, and consumes ids nothing in the catalog carries. */
  ghost predicate CreateReady(w: World, id: string, key: string, spec: Spec, env: Env) {
    && (id in w.ops ==> w.ops[id].spec.device == spec.device)
    && (key in w.sources ==> FreshFor(Last(RecoverSource(w, key, env.pending)).files, env.ids))
  }

  lemma DraftGood(q: Request, op: Operation)
    requires Sound(q) && PlanItem(q).Ok? && op.plan == PlanItem(q).value.plan && op.primary == PlanItem(q).value.primary
    ensures GoodOp(op)
  {
    PlanDistinct(q);
  }

  lemma CreateSafe(w: World, id: string, key: string, spec: Spec, env: Env)
    requires Inv(w) && Retained(w) && CreateReady(w, id, key, spec, env)
    ensures Safe(w, Create(w, id, key, spec, env))
  {
    hide Inv, Keeps, Safe, Evident, Recover, Retained, RecoverSource, GoodOp, PlanItem, FreshFor;
    SafeHere(w, Create(w, id, key, spec, env).error);
    if id in w.ops {
      OpKey(w, id);
      RetainedFor(w, id);
      RecoverSafe(w, w.ops[id], env.first);
    } else if key in w.sources {
      RecoverSourceSafe(w, key, env.pending);
      RecoverSourceKeepsKeys(w, key, env.pending);
      var r := RecoverSource(w, key, env.pending);
      if r.error.None? {
        SafeLast(w, r);
        IntendSafe(Last(r), id, key, spec, env);
        SafeThen(w, r, Intend(Last(r), id, key, spec, env));
      }
    }
  }

  lemma IntendSafe(w: World, id: string, key: string, spec: Spec, env: Env)
    requires Inv(w) && id !in w.ops && FreshFor(w.files, env.ids)
    ensures Safe(w, Intend(w, id, key, spec, env))
  {
    hide Keeps, Safe, GoodOp, GoodOps, PlanItem, FreshFor, GoodMarks;
    SafeHere(w, Intend(w, id, key, spec, env).error);
    if key in w.sources && w.sources[key].status == Active {
      var q := Request(w.files, w.sources[key].destination, w.sources[key].items, spec, env.ids, env.now);
      if q.Supplied() && PlanItem(q).Ok? {
        var draft := PlanItem(q).value;
        var op := Operation(id, spec, Accepted, draft.plan, key, draft.primary, "", "", None);
        DraftGood(q, op);
        OpWriteSafe(w, op);
        TwoSafe(w, PutOp(w, op), None);
      }
    }
  }

  lemma SetUploadSafe(w: World, id: string, upload: string)
    requires Inv(w)
    ensures Safe(w, SetUpload(w, id, upload))
  {
    hide Safe, GoodOp, Keeps;
    SafeHere(w, SetUpload(w, id, upload).error);
    if id in w.ops && w.ops[id].status == Accepted {
      OpKey(w, id);
      SameGood(w.ops[id], w.ops[id].(uploadId := upload));
      OpWriteSafe(w, w.ops[id].(uploadId := upload));
      TwoSafe(w, PutOp(w, w.ops[id].(uploadId := upload)), None);
    }
  }

  lemma UpdateSourceSafe(w: World, key: string, status: SourceStatus, revision: uint64)
    requires Inv(w)
    ensures Safe(w, UpdateSource(w, key, status, revision))
  {
    hide Safe, Keeps;
    var r := UpdateSource(w, key, status, revision);
    SafeHere(w, r.error);
    if r.error.None? {
      var src := w.sources[key].(status := status, revision := revision + 1);
      assert GoodMark(w, key, w.sources[key]);
      SourceWriteSafe(w, key, src);
      TwoSafe(w, PutSource(w, key, src), None);
    }
  }

  // ----------------------------------------------------------------- all runs

  /** A call on the coordinator, or some other mutation of the catalog. */
  datatype Event =
    | Finalizing(id: string, device: string, env: Env)
    | Asking(id: string, device: string, env: Env)
    | Cancelling(id: string, device: string, env: Env)
    | Creating(id: string, key: string, spec: Spec, env: Env)
    | Uploading(id: string, upload: string)
    | Updating(key: string, status: SourceStatus, revision: uint64)
    | Editing

  function Call(w: World, e: Event): (r: Run)
    requires !e.Editing?
    ensures |r.trace| > 0 && r.trace[0] == w
  {
    match e
    case Finalizing(id, device, env) => Finalize(w, id, device, env)
    case Asking(id, device, env) => StatusCall(w, id, device, env)
    case Cancelling(id, device, env) => Cancel(w, id, device, env)
    case Creating(id, key, spec, env) => Create(w, id, key, spec, env)
    case Uploading(id, upload) => SetUpload(w, id, upload)
    case Updating(key, status, revision) => UpdateSource(w, key, status, revision)
  }

  /** Any other catalog mutation: whatever it does to the entries, coordinator
      records stay, and the journal only ever holds versions the catalog held. */
  ghost predicate Edited(w: World, x: World) {
    && x.ops == w.ops && x.sources == w.sources && x.log == w.log && w.entered <= x.entered
    && GoodCatalog(x)
  }

  /** One step of a run: an edit, or a call that completes or crashes after any
      of its durable writes. */
  ghost predicate Follows(w: World, e: Event, x: World) {
    if e.Editing? then Edited(w, x)
    else (e.Creating? ==> CreateReady(w, e.id, e.key, e.spec, e.env)) && x in Call(w, e).trace
  }

  /** A run, through which the proofs of unfinished publications stay retained. */
  ghost predicate IsRun(ws: seq<World>, es: seq<Event>) {
    && |ws| == |es| + 1
    && (forall i :: 0 <= i < |es| ==> Follows(ws[i], es[i], ws[i + 1]))
    && (forall i :: 0 <= i < |ws| ==> Retained(ws[i]))
  }

  lemma CallSafe(w: World, e: Event)
    requires Inv(w) && Retained(w) && !e.Editing?
    requires e.Creating? ==> CreateReady(w, e.id, e.key, e.spec, e.env)
    ensures Safe(w, Call(w, e))
  {
    hide Inv, Retained, Finalize, StatusCall, Cancel, Create, SetUpload, UpdateSource, Safe, CreateReady;
    match e
    case Finalizing(id, device, env) => FinalizeSafe(w, id, device, env);
    case Asking(id, device, env) => StatusSafe(w, id, device, env);
    case Cancelling(id, device, env) => CancelSafe(w, id, device, env);
    case Creating(id, key, spec, env) => CreateSafe(w, id, key, spec, env);
    case Uploading(id, upload) => SetUploadSafe(w, id, upload);
    case Updating(key, status, revision) => UpdateSourceSafe(w, key, status, revision);
  }

  lemma EditSafe(w: World, x: World)
    requires Inv(w) && Edited(w, x)
    ensures Inv(x) && Keeps(w, x)
  {
    forall id | id in x.ops ensures Honest(x.ops[id], x.entered) {
      assert Honest(w.ops[id], w.entered);
    }
    forall key | key in x.sources ensures GoodMark(x, key, x.sources[key]) {
      assert GoodMark(w, key, w.sources[key]);
    }
  }

  lemma {:induction false} RunKeeps(ws: seq<World>, es: seq<Event>, i: nat, j: nat)
    requires IsRun(ws, es) && Inv(ws[0]) && i <= j < |ws|
    ensures Inv(ws[i]) && Inv(ws[j]) && Keeps(ws[i], ws[j])
    decreases j
  {
    hide Inv, Keeps, Edited, Call, CreateReady;
    if j == 0 {
      KeepsSelf(ws[0]);
    } else {
      var k := j - 1;
      RunKeeps(ws, es, if i < j then i else k, k);
      assert Follows(ws[k], es[k], ws[j]);
      assert Inv(ws[j]) && Keeps(ws[k], ws[j]) by {
        if es[k].Editing? {
          EditSafe(ws[k], ws[j]);
        } else {
          CallSafe(ws[k], es[k]);
        }
      }
      if i < j {
        KeepsTransitive(ws[i], ws[k], ws[j]);
      } else {
        KeepsSelf(ws[j]);
      }
    }
  }

  /** Along every run with crashes, while unfinished publications keep their
      proof: each plan enters the catalog at most once; a stored or cancelled
      operation never changes again; a cancelled one never reaches the catalog,
      before or after; and a stored one carries the receipt of a plan the
      catalog really held. */
  lemma EveryRunIsSafe(ws: seq<World>, es: seq<Event>, i: nat, j: nat, id: string)
    requires IsRun(ws, es) && Inv(ws[0]) && i <= j < |ws|
    ensures NoRepeats(ws[j].log) && ws[i].log <= ws[j].log
    ensures id in ws[i].ops && ws[i].ops[id].status == Stored ==>
              id in ws[j].ops && ws[j].ops[id] == ws[i].ops[id]
              && ws[i].ops[id].receipt == WithId(ws[i].ops[id].plan.files, ws[i].ops[id].primary)
              && AllEntered(ws[i].ops[id].plan.files, ws[i].entered)
    ensures id in ws[i].ops && ws[i].ops[id].status == Cancelled ==>
              id in ws[j].ops && ws[j].ops[id] == ws[i].ops[id] && id !in ws[j].log
    ensures id in ws[i].ops && ws[i].ops[id].status == Accepted ==> id !in ws[i].log
  {
    RunKeeps(ws, es, i, j);
    assert id in ws[i].ops ==> Honest(ws[i].ops[id], ws[i].entered);
  }
}
