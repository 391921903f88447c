/** The backup coordinator as a crash protocol. Three durable records (operation,
    source, catalog) are written one at a time; a call is the sequence of durable
    states it goes through, and a crash stops it after any of them. */
module BackupProtocol {
  import opened Prelude
  import opened Paths
  import opened Entries
  import opened Journals
  import opened BackupCas
  import opened BackupPlans

  datatype Status = Accepted | Publishing | Stored | Cancelled

  datatype SourceStatus = Active | PausedSource | Detached

  datatype Operation = Operation(id: string, spec: Spec, status: Status, plan: Plan, sourceKey: string,
                                 primary: string, storageId: string, uploadId: string, receipt: Option<File>)

  datatype Source = Source(device: string, status: SourceStatus, revision: uint64, destination: File,
                           items: map<ItemKey, File>, pending: string)

  /** The durable state. `log` and `entered` are history variables: which
      operation's plan each catalog publication carried, and every entry version
      the catalog has ever held. */
  datatype World = World(files: seq<File>, journal: Journal, ops: map<string, Operation>, sources: map<string, Source>,
                         log: seq<string>, entered: set<File>)

  // ------------------------------------------------------------------ catalog

  function ToSet(files: seq<File>): set<File> {
    set f | f in files
  }

  /** Whether the diff of nextJournalLocked skips the entry. */
  predicate Unchanged(before: seq<File>, f: File) {
    var prior := WithId(before, f.id);
    prior.Some? && prior.value.revision == f.revision && prior.value.path == f.path && prior.value.present == f.present
  }

  function FileChange(before: seq<File>, f: File): Change {
    var prior := WithId(before, f.id);
    Change(0, if f.folder then FolderKind else AssetKind, f.id, !f.present,
           SyncPhotoPath(f.path) || (prior.Some? && SyncPhotoPath(prior.value.path)), FileBody(f))
  }

  /** The journal of a save that only adds and replaces entries. */
  function AppendChanged(j: Journal, before: seq<File>, after: seq<File>): Result<Journal> {
    if after == [] then Ok(j) else
    var n := |after| - 1;
    match AppendChanged(j, before, after[..n])
    case Err(e) => Err(e)
    case Ok(grown) => if Unchanged(before, after[n]) then Ok(grown) else Append(grown, FileChange(before, after[n]))
  }

  predicate Recorded(j: Journal, f: File) {
    exists k :: 0 <= k < |j.records| && j.records[k].change.body == FileBody(f)
  }

  /** BackupPublished: every planned version is stored or in a retained record. */
  predicate Evident(w: World, files: seq<File>) {
    |files| > 0 && forall k :: 0 <= k < |files| ==> files[k] in w.files || Recorded(w.journal, files[k])
  }

  /** Transaction.Publish: one atomic catalog write. */
  function PublishPlan(w: World, op: Operation): Result<World> {
    match Publish(w.files, op.plan)
    case Err(e) => Err(e)
    case Ok(next) =>
      match AppendChanged(w.journal, w.files, next)
      case Err(e) => Err(e)
      case Ok(j) => Ok(w.(files := next, journal := Truncate(j), log := w.log + [op.id],
                          entered := w.entered + ToSet(next)))
  }

  // ------------------------------------------------------------------ mapping

  /** result[f.EntryID] = f over the planned files. */
  function Refreshed(files: seq<File>, prior: File): File {
    match WithId(files, prior.id)
    case Some(f) => f
    case None => prior
  }

  function RefreshAll(items: map<ItemKey, File>, files: seq<File>): map<ItemKey, File> {
    map k | k in items :: Refreshed(files, items[k])
  }

  function MapPlanned(items: map<ItemKey, File>, files: seq<File>, op: Operation,
                      destination: string): map<ItemKey, File>
  {
    if files == [] then items else
    var n := |files| - 1;
    var f, m := files[n], MapPlanned(items, files[..n], op, destination);
    var m1 := if f.id == op.primary then m[Item(op.spec.item) := f] else m;
    if f.folder && f.id != op.primary then m1[ParentFolder(TrimPrefix(f.path, destination + "/")) := f] else m1
  }

  function MapItems(src: Source, op: Operation): map<ItemKey, File> {
    MapPlanned(RefreshAll(src.items, op.plan.files), op.plan.files, op, src.destination.path)
  }

  function ReceiptOf(op: Operation): Option<File> {
    match WithId(op.plan.files, op.primary)
    case Some(f) => Some(f)
    case None => op.receipt
  }

  // ------------------------------------------------------------------- runs

  /** A call: the durable states it passes through, and how it returns. */
  datatype Run = Run(trace: seq<World>, error: Option<Error>)

  function Last(r: Run): World
    requires |r.trace| > 0
  {
    r.trace[|r.trace| - 1]
  }

  function Failed(w: World, e: Error): Run {
    Run([w], Some(e))
  }

  function Done(w: World): Run {
    Run([w], None)
  }

  function Then(r: Run, s: Run): (t: Run)
    requires |r.trace| > 0 && |s.trace| > 0
    ensures |t.trace| > 0
    ensures forall w :: w in t.trace ==> w in r.trace || w in s.trace
    ensures r.error.None? && Last(r) == s.trace[0] ==> Last(t) == Last(s) && t.error == s.error
    ensures t.trace[0] == r.trace[0]
  {
    if r.error.Some? then r else Run(r.trace + s.trace[1..], s.error)
  }

  /** What the storage layer answers during one recovery. */
  datatype Storage = Storage(check: Option<Error>, finish: Option<Error>)

  datatype StoredBytes = StoredBytes(reference: Reference, snap: string, blob: string)

  /** Answers and fresh values one call may consume. */
  datatype Env = Env(first: Storage, pending: Storage, last: Storage, abort: Option<Error>, body: bool,
                     store: Result<StoredBytes>, retry: Result<StoredBytes>, attempt1: string, attempt2: string,
                     ids: seq<string>, now: int)

  function PutOp(w: World, op: Operation): World {
    w.(ops := w.ops[op.id := op])
  }

  function PutSource(w: World, key: string, src: Source): World {
    w.(sources := w.sources[key := src])
  }

  /** recoverOperation after publication: mapping, receipt, marker. */
  function Settle(w: World, op: Operation, src: Source): Run {
    var mapped := src.(items := MapItems(src, op), pending := op.id);
    var w1 := PutSource(w, op.sourceKey, mapped);
    var w2 := PutOp(w1, op.(status := Stored, receipt := ReceiptOf(op)));
    var w3 := PutSource(w2, op.sourceKey, mapped.(pending := ""));
    Run([w, w1, w2, w3], None)
  }

  /** recoverOperation */
  function Recover(w: World, op: Operation, s: Storage): (r: Run)
    ensures |r.trace| > 0 && r.trace[0] == w
  {
    if op.status != Publishing then Done(w)
    else if op.sourceKey !in w.sources then Failed(w, NotFound)
    else
      var src := w.sources[op.sourceKey];
      if Evident(w, op.plan.files) then
        if s.finish.Some? then Failed(w, s.finish.value) else Settle(w, op, src)
      else if src.status != Active then Failed(w, Paused)
      else if s.check.Some? then Failed(w, s.check.value)
      else
        match PublishPlan(w, op)
        case Err(e) => Failed(w, e)
        case Ok(w1) =>
          if s.finish.Some? then Run([w, w1], s.finish)
          else Then(Run([w, w1], None), Settle(w1, op, src))
  }

  /** recoverSource */
  function RecoverSource(w: World, key: string, s: Storage): (r: Run)
    requires key in w.sources
    ensures |r.trace| > 0 && r.trace[0] == w
  {
    var src := w.sources[key];
    if src.pending == "" then Done(w)
    else if src.pending !in w.ops || w.ops[src.pending].spec.device != src.device then Failed(w, NotFound)
    else
      var r := Recover(w, w.ops[src.pending], s);
      var v := Last(r);
      if r.error.Some? then r
      else if key !in v.sources then Then(r, Failed(v, NotFound))
      else if src.pending in v.ops && v.ops[src.pending].status == Stored
      then Then(r, Run([v, PutSource(v, key, v.sources[key].(pending := ""))], None))
      else r
  }

  /** The planned file without its content reference. */
  function Unstored(op: Operation, f: File): File {
    if f.id == op.primary && !f.folder then f.(reference := None, snap := "", blob := "") else f
  }

  function UnstoredAll(op: Operation, files: seq<File>): (r: seq<File>)
    ensures |r| == |files| && forall i :: 0 <= i < |files| ==> r[i] == Unstored(op, files[i])
  {
    seq(|files|, i requires 0 <= i < |files| => Unstored(op, files[i]))
  }

  function ResetOp(op: Operation, attempt: string): Operation {
    op.(storageId := attempt, status := Accepted, plan := op.plan.(files := UnstoredAll(op, op.plan.files)))
  }

  /** resetStorage */
  function Reset(w: World, op: Operation, attempt: string): (r: Run)
    ensures |r.trace| > 0 && r.trace[0] == w
    ensures r.error.None? ==> op.sourceKey in w.sources && Last(r).files == w.files && Last(r).journal == w.journal
  {
    match Check(w.files, op.plan)
    case Some(e) => Failed(w, e)
    case None =>
      var w1 := PutOp(w, ResetOp(op, attempt));
      if op.sourceKey !in w.sources then Run([w, w1], Some(NotFound))
      else if w.sources[op.sourceKey].pending == op.id
      then Run([w, w1, PutSource(w1, op.sourceKey, w.sources[op.sourceKey].(pending := ""))], None)
      else Run([w, w1], None)
  }

  // ------------------------------------------------------------ adopting parents

  /** A planned new parent that meanwhile exists. */
  predicate Adoptable(files: seq<File>, op: Operation, f: File) {
    f.folder && f.id != op.primary && f.revision == 1 && AtPath(Present(files), f.path).Some?
  }

  /** It is the folder another operation of this source created, unchanged. */
  predicate AdoptionHolds(files: seq<File>, src: Source, f: File)
    requires AtPath(Present(files), f.path).Some?
  {
    var live, key := AtPath(Present(files), f.path).value, ParentFolder(TrimPrefix(f.path, src.destination.path + "/"));
    key in src.items && live.folder && live.id == src.items[key].id && live.revision == src.items[key].revision
    && live.path == src.items[key].path
  }

  function AdoptFiles(files: seq<File>, src: Source, op: Operation, n: nat): Result<Plan>
    requires n <= |op.plan.files|
  {
    if n == 0 then Ok(op.plan.(files := [])) else
    match AdoptFiles(files, src, op, n - 1)
    case Err(e) => Err(e)
    case Ok(plan) =>
      var f := op.plan.files[n - 1];
      if !Adoptable(files, op, f) then Ok(plan.(files := plan.files + [f]))
      else if !AdoptionHolds(files, src, f) then Err(RevisionMismatch)
      else Ok(plan.(guards := plan.guards + [AtPath(Present(files), f.path).value],
                    absent := Without(plan.absent, f.path)))
  }

  function Without(paths: seq<string>, p: string): (r: seq<string>)
    ensures forall q :: q in r <==> q in paths && q != p
  {
    if paths == [] then [] else
    var n := |paths| - 1;
    assert paths == paths[..n] + [paths[n]];
    Without(paths[..n], p) + if paths[n] == p then [] else [paths[n]]
  }

  /** adoptParents */
  function Adopt(files: seq<File>, src: Source, op: Operation): Result<Operation> {
    match AdoptFiles(files, src, op, |op.plan.files|)
    case Err(e) => Err(e)
    case Ok(plan) => Ok(op.(plan := plan))
  }

  // ----------------------------------------------------------------- storing

  /** The planned file whose bytes still have to be stored. */
  function Unbacked(op: Operation, i: nat): (k: int)
    requires i <= |op.plan.files|
    ensures -1 <= k < |op.plan.files|
    ensures k >= 0 ==> op.plan.files[k].id == op.primary && !op.plan.files[k].folder && op.plan.files[k].reference.None?
    decreases |op.plan.files| - i
  {
    if i == |op.plan.files| then -1
    else if op.plan.files[i].id == op.primary && !op.plan.files[i].folder && op.plan.files[i].reference.None? then i
    else Unbacked(op, i + 1)
  }

  function WithBytes(op: Operation, k: nat, bytes: StoredBytes): Operation
    requires k < |op.plan.files|
  {
    var f := op.plan.files[k].(reference := Some(bytes.reference), snap := bytes.snap, blob := bytes.blob);
    op.(plan := op.plan.(files := op.plan.files[k := f]))
  }

  /** Storing may first have to replace an aborted storage attempt. Returns the
      durable states and, when it succeeds, the operation with its reference. */
  function Store(w: World, op: Operation, env: Env): (r: (Run, Operation))
    ensures |r.0.trace| > 0 && r.0.trace[0] == w
  {
    var k := Unbacked(op, 0);
    if k < 0 then (Done(w), op) else
      match env.store
      case Ok(bytes) => (Done(w), WithBytes(op, k, bytes))
      case Err(e) =>
        if e != StorageOrphaned then (Failed(w, e), op)
        else
          var r := Reset(w, op, env.attempt2);
          if r.error.Some? then (r, op)
          else
            match env.retry
            case Err(e2) => (Then(r, Failed(Last(r), e2)), op)
            case Ok(bytes) => (r, WithBytes(ResetOp(op, env.attempt2), k, bytes))
  }

  // ------------------------------------------------------------------- calls

  /** FinalizeReader from the moment the operation is accepted. */
  function Publication(w: World, op: Operation, env: Env): (r: Run)
    ensures |r.trace| > 0 && r.trace[0] == w
  {
    if op.sourceKey !in w.sources then Failed(w, NotFound) else
    var r := RecoverSource(w, op.sourceKey, env.pending);
    var v := Last(r);
    if r.error.Some? then r
    else if op.sourceKey !in v.sources then Then(r, Failed(v, NotFound))
    else Then(r, Announce(v, op, v.sources[op.sourceKey], env))
  }

  function Announce(w: World, op: Operation, src: Source, env: Env): (r: Run)
    ensures |r.trace| > 0 && r.trace[0] == w
  {
    if src.status != Active then Failed(w, Paused) else
    match Adopt(w.files, src, op)
    case Err(e) => Failed(w, e)
    case Ok(adopted) =>
      match Check(w.files, adopted.plan)
      case Some(e) => Failed(w, e)
      case None =>
        var (r, ready) := Store(w, adopted, env);
        if r.error.Some? then r else Then(r, Commit(Last(r), ready, src, env))
  }

  /** Intent, marker, then recovery does the rest. */
  function Commit(w: World, op: Operation, src: Source, env: Env): (r: Run)
    ensures |r.trace| > 0 && r.trace[0] == w
  {
    var intent := op.(status := Publishing);
    var w1 := PutOp(w, intent);
    var w2 := PutSource(w1, op.sourceKey, src.(pending := op.id));
    Then(Run([w, w1, w2], None), Recover(w2, intent, env.last))
  }

  function Finalize(w: World, id: string, device: string, env: Env): (r: Run)
    ensures |r.trace| > 0 && r.trace[0] == w
  {
    if id !in w.ops || (device != "" && w.ops[id].spec.device != device) then Failed(w, NotFound) else
    var op := w.ops[id];
    var r := Recover(w, op, env.first);
    if r.error.Some? then
      if !env.body || r.error.value != StorageOrphaned || op.status != Publishing || Evident(Last(r), op.plan.files)
          then r
      else
        var again := Reset(Last(r), op, env.attempt1);
        var s := Run(r.trace, None);
        if again.error.Some? then Then(s, again)
        else Then(Then(s, again), Publication(Last(again), ResetOp(op, env.attempt1), env))
    else if id !in Last(r).ops then Then(r, Failed(Last(r), NotFound))
    else
      var now := Last(r).ops[id];
      if now.status == Stored then r
      else if now.status != Accepted then Then(r, Failed(Last(r), Paused))
      else Then(r, Publication(Last(r), now, env))
  }

  function StatusCall(w: World, id: string, device: string, env: Env): (r: Run)
    ensures |r.trace| > 0 && r.trace[0] == w
  {
    if id !in w.ops || (device != "" && w.ops[id].spec.device != device) then Failed(w, NotFound)
    else Recover(w, w.ops[id], env.first)
  }

  function Cancel(w: World, id: string, device: string, env: Env): (r: Run)
    ensures |r.trace| > 0 && r.trace[0] == w
  {
    if id !in w.ops || (device != "" && w.ops[id].spec.device != device) then Failed(w, NotFound) else
    var op := w.ops[id];
    var cancelled := op.(status := Cancelled);
    if op.status == Publishing && !Evident(w, op.plan.files) then
      if env.abort.Some? then Failed(w, env.abort.value)
      else if op.sourceKey !in w.sources then Failed(w, NotFound)
      else if w.sources[op.sourceKey].pending == op.id then
        var w1 := PutSource(w, op.sourceKey, w.sources[op.sourceKey].(pending := ""));
        Run([w, w1, PutOp(w1, cancelled)], None)
      else Run([w, PutOp(w, cancelled)], None)
    else
      var r := Recover(w, op, env.first);
      if r.error.Some? then r
      else if id in Last(r).ops && Last(r).ops[id].status == Stored then r
      else Then(r, Run([Last(r), PutOp(Last(r), cancelled)], None))
  }

  /** Create: idempotent by the operation key, otherwise plans and records intent. */
  function Create(w: World, id: string, key: string, spec: Spec, env: Env): (r: Run)
    ensures |r.trace| > 0 && r.trace[0] == w
  {
    if id in w.ops && w.ops[id].spec.device == spec.device then
      if w.ops[id].spec != spec then Failed(w, IdempotencyConflict) else Recover(w, w.ops[id], env.first)
    else if key !in w.sources then Failed(w, NotFound)
    else
      var r := RecoverSource(w, key, env.pending);
      if r.error.Some? then r else Then(r, Intend(Last(r), id, key, spec, env))
  }

  /** Plans the item against the current catalog and records the operation. */
  function Intend(w: World, id: string, key: string, spec: Spec, env: Env): (r: Run)
    ensures |r.trace| > 0 && r.trace[0] == w
  {
    if key !in w.sources then Failed(w, NotFound)
    else if w.sources[key].status != Active then Failed(w, Paused)
    else
      var q := Request(w.files, w.sources[key].destination, w.sources[key].items, spec, env.ids, env.now);
      if !q.Supplied() then Failed(w, Invalid) else
      match PlanItem(q)
      case Err(e) => Failed(w, e)
      case Ok(draft) =>
        Run([w, PutOp(w, Operation(id, spec, Accepted, draft.plan, key, draft.primary, "", "", None))], None)
  }

  /** ensureSequential's write. */
  function SetUpload(w: World, id: string, upload: string): (r: Run)
    ensures |r.trace| > 0 && r.trace[0] == w
  {
    if id !in w.ops then Failed(w, NotFound)
    else if w.ops[id].status != Accepted then Done(w)
    else Run([w, PutOp(w, w.ops[id].(uploadId := upload))], None)
  }

  function UpdateSource(w: World, key: string, status: SourceStatus, revision: uint64): (r: Run)
    ensures |r.trace| > 0 && r.trace[0] == w
  {
    if key !in w.sources then Failed(w, NotFound)
    else if w.sources[key].revision != revision || revision == MAX_UINT64 then Failed(w, RevisionMismatch)
    else if w.sources[key].status == Detached && status != Detached then Failed(w, Paused)
    else Run([w, PutSource(w, key, w.sources[key].(status := status, revision := revision + 1))], None)
  }
}
