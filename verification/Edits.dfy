/** Single-entry mutations: making a folder, storing a file under a path,
    switching a storage reference, and resolved media metadata in batches. */
module Edits {
  import opened Prelude
  import opened Paths
  import opened Entries
  import Moves

  /** The zero time.Time. */
  const ZERO_TIME: int := 0

  /** assignReference */
  function Referenced(f: File): Result<File> {
    var g := if f.reference.None? && !f.folder && f.snap != ""
             then f.(reference := Some(Reference(Restic, 1, f.snap, if f.blob == "" then f.hash
                                                 else f.blob, "", "", 0)))
             else f;
    if ValidReference(g) then Ok(g) else Err(UnknownReference)
  }

  ghost predicate FreshId(files: seq<File>, id: string) {
    id != "" && !HasId(files, id)
  }

  // -------------------------------------------------------------------- Mkdir

  predicate MkdirBlocks(x: File, path: string) {
    x.present && (x.path == path || (!x.folder && Below(path, x.path)))
  }

  function Mkdir(files: seq<File>, path: string, id: string, now: int): Result<seq<File>> {
    if exists i :: 0 <= i < |files| && MkdirBlocks(files[i], path) then Err(Conflict)
    else Ok(files + [File(id, 1, path, true, true, None, false, 0, now, ZERO_TIME, "", "", "", None, "", [], [],
                          "", "", "", false, NO_DETAILS)])
  }

  // ---------------------------------------------------------------------- Put

  predicate PutBlocks(x: File, f: File) {
    x.present
    && (|| (x.path == f.path && x.folder != f.folder)
        || (x.path != f.path && !x.folder && Below(f.path, x.path))
        || (f.folder && x.path != f.path && Below(x.path, f.path)))
  }

  predicate At(x: File, path: string) {
    x.present && x.path == path
  }

  /** The index of the present entry at a path. */
  function Occupant(files: seq<File>, path: string, from: nat): (k: int)
    requires from <= |files|
    ensures -1 <= k < |files|
    ensures k >= 0 ==> from <= k && At(files[k], path) && forall i :: from <= i < k ==> !At(files[i], path)
    ensures k < 0 ==> forall i :: from <= i < |files| ==> !At(files[i], path)
    decreases |files| - from
  {
    if from == |files| then -1 else if At(files[from], path) then from else Occupant(files, path, from + 1)
  }

  predicate SameMetadata(a: Details, b: Details) {
    a.(previewUnsupported := b.previewUnsupported) == b
  }

  /** The stored entry already is what the caller announces. */
  predicate AlreadyStored(f: File, x: File) {
    && f.id == x.id && f.revision == x.revision && f.reference == x.reference && f.path == x.path
      && f.folder == x.folder
    && f.size == x.size && f.mtime == x.mtime && f.importedAt == x.importedAt && SameMetadata(f.details, x.details)
    && f.hash == x.hash && f.snap == x.snap && f.blob == x.blob
  }

  function Imported(f: File, x: File): File {
    f.(present := true, hidden := x.hidden,
       importedAt := if f.importedAt != ZERO_TIME then f.importedAt
                     else if x.importedAt != ZERO_TIME then x.importedAt else x.mtime)
  }

  /** The successor of stored entry x, None when nothing has to change. */
  function Successor(f: File, x: File): Result<Option<File>> {
    var g := Imported(f, x);
    if x.revision == MAX_UINT64 then Err(RevisionOverflow)
    else if f.id != "" && AlreadyStored(g, x) then Ok(None)
    else if f.id != "" && (f.id != x.id || f.revision != x.revision + 1) then Err(RevisionMismatch)
    else
      match Referenced(g.(id := x.id, revision := x.revision + 1))
      case Err(e) => Err(e)
      case Ok(h) => Ok(Some(h))
  }

  function Newcomer(files: seq<File>, f: File, id: string, now: int): Result<File> {
    var g := f.(present := true, importedAt := if f.importedAt == ZERO_TIME then now else f.importedAt);
    if f.id != "" then
      if f.revision != 1 || HasId(files, f.id) then Err(RevisionMismatch) else Referenced(g)
    else Referenced(g.(id := id, revision := 1))
  }

  /** Put: the catalog after it, None when it need not be saved. */
  function Put(files: seq<File>, f: File, id: string, now: int): Result<Option<seq<File>>> {
    if f.hidden && !f.folder then Err(Invalid)
    else if exists i :: 0 <= i < |files| && PutBlocks(files[i], f) then Err(Conflict)
    else
      var k := Occupant(files, f.path, 0);
      if k >= 0 then
        match Successor(f, files[k])
        case Err(e) => Err(e)
        case Ok(None) => Ok(None)
        case Ok(Some(g)) => Ok(Some(files[k := g]))
      else
        match Newcomer(files, f, id, now)
        case Err(e) => Err(e)
        case Ok(g) => Ok(Some(files + [g]))
  }

  /** Put touches one slot: the occupant of the path becomes its next revision,
      or a new entry joins at revision one. Ids and present paths stay unique. */
  lemma PutEvolves(files: seq<File>, f: File, id: string, now: int)
    requires UniqueIds(files) && FreshId(files, id)
    requires Put(files, f, id, now).Ok? && Put(files, f, id, now).value.Some?
    ensures var next := Put(files, f, id, now).value.value;
            && UniqueIds(next) && Evolves(files, next)
            && (UniquePaths(files) ==> UniquePaths(next))
            && exists k :: 0 <= k < |next| && |files| <= |next| <= |files| + 1
                 && At(next[k], f.path) && (forall i :: 0 <= i < |files| && i != k ==> next[i] == files[i])
                 && (k < |files| ==> |next| == |files| && next[k].id == files[k].id
                                     && next[k].revision == files[k].revision + 1)
                 && (k >= |files| ==> next[k].revision == 1 && (next[k].id == f.id || next[k].id == id))
  {
    hide ValidReference, UniqueIds, UniquePaths, Evolves;
    var next, k := Put(files, f, id, now).value.value, Occupant(files, f.path, 0);
    if k >= 0 {
      ReplacedInPlace(files, k, next[k]);
      assert At(next[k], f.path);
    } else {
      Joined(files, next[|files|]);
      assert forall i :: 0 <= i < |files| ==> !At(files[i], f.path);
      assert At(next[|files|], f.path);
    }
  }

  /** A put keeps files free of entries below them exactly when it stores a folder,
      or nothing lies below its path. */
  lemma PutKeepsShape(files: seq<File>, f: File, id: string, now: int)
    requires Moves.NoFileAbove(files) && Put(files, f, id, now).Ok? && Put(files, f, id, now).value.Some?
    ensures Moves.NoFileAbove(Put(files, f, id, now).value.value) <==>
            f.folder || forall i :: 0 <= i < |files| && files[i].present ==> !Below(files[i].path, f.path)
  {
    hide ValidReference, Below;
    var next, k := Put(files, f, id, now).value.value, Occupant(files, f.path, 0);
    var w := if k >= 0 then k else |files|;
    var g := next[w];
    assert g.present && g.path == f.path && g.folder == f.folder;
    assert forall i :: 0 <= i < |files| ==> !PutBlocks(files[i], f);
    NotBelow(f.path);
    if f.folder || forall i :: 0 <= i < |files| && files[i].present ==> !Below(files[i].path, f.path) {
      forall a, b | 0 <= a < |next| && 0 <= b < |next| && Moves.FileAbove(next[a], next[b]) ensures next[a].folder {
        if a != w && b != w {
          assert Moves.FileAbove(files[a], files[b]);
        }
      }
    } else {
      var i :| 0 <= i < |files| && files[i].present && Below(files[i].path, f.path);
      assert i != w && next[i] == files[i];
      assert Moves.FileAbove(next[w], next[i]);
    }
  }

  lemma NotBelow(p: string)
    ensures !Below(p, p)
  {
  }

  const CHILD := File("c", 1, "d/x", false, true, None, false, 0, 0, 0, "", "", "", None, "", [], [], "", "", "", false,
                      NO_DETAILS)

  /** A file stored at the path of an implied folder comes to lie above its entries. */
  lemma PutOverFolder(id: string, now: int)
    ensures var f := CHILD.(id := "", path := "d", revision := 0);
            && Moves.NoFileAbove([CHILD]) && Put([CHILD], f, id, now).Ok? && Put([CHILD], f, id, now).value.Some?
            && !Moves.NoFileAbove(Put([CHILD], f, id, now).value.value)
  {
    var f := CHILD.(id := "", path := "d", revision := 0);
    assert "d" + "/" == "d/x"[..2] && !Below("d", "d/x") && !Below("d/x", "d/x");
    assert Below([CHILD][0].path, f.path);
    PutKeepsShape([CHILD], f, id, now);
  }

  // --------------------------------------------------------- SwitchReference

  function VersionIndex(files: seq<File>, id: string, revision: uint64, from: nat): (k: int)
    requires from <= |files|
    ensures -1 <= k < |files|
    ensures k >= 0 ==> files[k].id == id && files[k].revision == revision
    ensures k < 0 ==> forall i :: from <= i < |files| ==> files[i].id != id || files[i].revision != revision
    decreases |files| - from
  {
    if from == |files| then -1
    else if files[from].id == id && files[from].revision == revision then from
    else VersionIndex(files, id, revision, from + 1)
  }

  function SwitchReference(files: seq<File>, id: string, revision: uint64, previous: Reference,
                           next: Reference): Result<seq<File>>
  {
    var k := VersionIndex(files, id, revision, 0);
    if k < 0 then Err(NotFound) else
    var f := files[k];
    if f.folder || f.reference != Some(previous) || f.revision == MAX_UINT64 then Err(RevisionMismatch)
    else if next.backend != SharedObject || next.version == 0 || next.blob == "" || next.operation == ""
      || next.ownerEntry != id
            || next.ownerRevision != revision + 1 || next.snapshot != "" then Err(UnknownReference)
    else
      var g := f.(revision := revision + 1, reference := Some(next), snap := "", blob := next.blob);
      if !ValidReference(g) then Err(UnknownReference) else Ok(files[k := g])
  }

  /** Only the storage reference of the one exact version changes. */
  lemma SwitchEvolves(files: seq<File>, id: string, revision: uint64, previous: Reference, next: Reference)
    requires UniqueIds(files) && SwitchReference(files, id, revision, previous, next).Ok?
    ensures var after := SwitchReference(files, id, revision, previous, next).value;
            && UniqueIds(after) && Evolves(files, after) && |after| == |files|
            && (UniquePaths(files) ==> UniquePaths(after))
            && forall i :: 0 <= i < |files| ==>
                 if files[i].id == id
                 then files[i].reference == Some(previous) && after[i].reference == Some(next)
                      && after[i] == files[i].(revision := revision + 1, reference := Some(next), snap := "",
                                               blob := next.blob)
                 else after[i] == files[i]
  {
    hide ValidReference, UniquePaths, Evolves;
    var after, k := SwitchReference(files, id, revision, previous, next).value, VersionIndex(files, id, revision, 0);
    ReplacedInPlace(files, k, after[k]);
    forall i | 0 <= i < |files| && files[i].id == id ensures i == k {
      UniqueIdsFind(files, i, k);
    }
  }

  // --------------------------------------------------------- metadata batches

  datatype Capture = Capture(time: Option<int>, offset: Option<int>, source: string, corrected: bool)

  datatype Media = Media(width: int, height: int, duration: int, orientation: int, camera: string)

  datatype Update = Update(id: string, revision: uint64, path: string, hash: string, capture: Option<Capture>,
                           media: Option<Media>)

  datatype Batch = Batch(next: seq<File>, seen: set<string>, files: seq<File>, changed: seq<File>,
                         conflicts: seq<string>)

  /** 1900-01-01 and 2101-01-01, in seconds of Unix time. */
  const YEAR_1900: int := -2208988800
  const YEAR_2101: int := 4133980800

  predicate ValidCapture(c: Capture) {
    (c.time.Some? ==> YEAR_1900 <= c.time.value < YEAR_2101) && (c.offset.Some? ==> -1440 <= c.offset.value <= 1440)
  }

  function WithCapture(d: Details, c: Option<Capture>): Details {
    if c.Some? && !d.captureCorrected
    then d.(captureTime := c.value.time, captureOffset := c.value.offset, captureSource := c.value.source,
            captureCorrected := c.value.corrected)
    else d
  }

  function WithMedia(d: Details, m: Option<Media>): Details {
    if m.None? then d else
    d.(width := if m.value.width > 0 then m.value.width else d.width,
       height := if m.value.height > 0 then m.value.height else d.height,
       duration := if m.value.duration > 0 then m.value.duration else d.duration,
       orientation := if m.value.orientation > 0 then m.value.orientation else d.orientation,
       camera := if m.value.camera != "" then m.value.camera else d.camera)
  }

  /** The update names this very version of a present file. */
  predicate Observed(f: File, u: Update) {
    f.id == u.id && f.present && !f.folder && f.revision == u.revision && f.path == u.path && f.hash == u.hash
  }

  /** One update of UpdatePhotoMetadataBatch. */
  function ApplyUpdate(b: Batch, u: Update): Result<Batch> {
    var k := IndexOf(b.next, u.id);
    if k < 0 || u.id in b.seen then Ok(b.(conflicts := b.conflicts + [u.id])) else
    var f, marked := b.next[k], b.(seen := b.seen + {u.id});
    if !Observed(f, u) then Ok(marked.(conflicts := b.conflicts + [u.id]))
    else if u.capture.Some? && !ValidCapture(u.capture.value) then Err(Invalid)
    else
      var details := WithMedia(WithCapture(f.details, u.capture), u.media);
      if details == f.details then Ok(marked.(files := b.files + [f]))
      else if f.revision == MAX_UINT64 then Err(RevisionOverflow)
      else
        var g := f.(details := details, revision := f.revision + 1);
        Ok(marked.(next := b.next[k := g], files := b.files + [g], changed := b.changed + [g]))
  }

  function ApplyUpdates(files: seq<File>, updates: seq<Update>, n: nat): Result<Batch>
    requires n <= |updates|
  {
    if n == 0 then Ok(Batch(files, {}, [], [], [])) else
    match ApplyUpdates(files, updates, n - 1)
    case Err(e) => Err(e)
    case Ok(b) => ApplyUpdate(b, updates[n - 1])
  }

  /** An entry after a batch: untouched, or the next revision of the version the
      caller observed, differing in nothing but its resolved metadata. */
  ghost predicate UpdatedSlot(before: File, after: File, updates: seq<Update>, n: nat)
    requires n <= |updates|
  {
    || after == before
    || (exists x :: 0 <= x < n && Observed(before, updates[x]) && before.revision < MAX_UINT64
          && after == before.(details := after.details, revision := before.revision + 1)
          && after.details == WithMedia(WithCapture(before.details, updates[x].capture), updates[x].media))
  }

  ghost predicate BatchEffect(files: seq<File>, updates: seq<Update>, n: nat, b: Batch)
    requires n <= |updates|
  {
    && |b.next| == |files|
    && (forall i :: 0 <= i < |files| ==> UpdatedSlot(files[i], b.next[i], updates, n))
    && (forall i :: 0 <= i < |files| && files[i].id !in b.seen ==> b.next[i] == files[i])
    && (forall i :: 0 <= i < |files| && b.next[i] != files[i] ==> b.next[i] in b.changed)
    && (forall g :: g in b.changed ==> exists i :: 0 <= i < |files| && b.next[i] == g && b.next[i] != files[i])
  }

  lemma SlotId(before: File, after: File, updates: seq<Update>, n: nat)
    requires n <= |updates| && UpdatedSlot(before, after, updates, n)
    ensures after.id == before.id && after.path == before.path && after.present == before.present
    ensures after.parentId == before.parentId
    ensures after == before || before.revision < after.revision
  {
  }

  lemma {:induction false} ApplyEffect(files: seq<File>, updates: seq<Update>, n: nat)
    requires n <= |updates| && UniqueIds(files) && ApplyUpdates(files, updates, n).Ok?
    ensures BatchEffect(files, updates, n, ApplyUpdates(files, updates, n).value)
  {
    hide UpdatedSlot, Observed, WithMedia, WithCapture;
    if n == 0 {
      forall i | 0 <= i < |files| ensures UpdatedSlot(files[i], files[i], updates, 0) {
        Untouched(files[i], updates, 0);
      }
    } else {
      ApplyEffect(files, updates, n - 1);
      StepEffect(files, updates, n, ApplyUpdates(files, updates, n - 1).value, ApplyUpdates(files, updates, n).value);
    }
  }

  /** One update changes at most the slot it names, and only at its first mention. */
  lemma StepKinds(b: Batch, u: Update, b2: Batch)
    requires ApplyUpdate(b, u) == Ok(b2)
    ensures b.seen <= b2.seen
    ensures (b2.next == b.next && b2.changed == b.changed) || ChangesAt(b, u, b2)
  {
  }

  ghost predicate ChangesAt(b: Batch, u: Update, b2: Batch) {
    var k := IndexOf(b.next, u.id);
    && k >= 0 && |b2.next| == |b.next| && u.id !in b.seen && u.id in b2.seen && Observed(b.next[k], u)
      && b.next[k].revision < MAX_UINT64
    && b2.next == b.next[k := b2.next[k]] && b2.changed == b.changed + [b2.next[k]]
    && b2.next[k] == b.next[k].(details := WithMedia(WithCapture(b.next[k].details, u.capture), u.media),
                                revision := b.next[k].revision + 1)
  }

  lemma StepEffect(files: seq<File>, updates: seq<Update>, n: nat, b: Batch, b2: Batch)
    requires 0 < n <= |updates| && BatchEffect(files, updates, n - 1, b) && ApplyUpdate(b, updates[n - 1]) == Ok(b2)
    ensures BatchEffect(files, updates, n, b2)
  {
    hide UpdatedSlot, Observed, WithMedia, WithCapture, ApplyUpdate;
    var u := updates[n - 1];
    var k := IndexOf(b.next, u.id);
    StepKinds(b, u, b2);
    forall i | 0 <= i < |files| ensures UpdatedSlot(files[i], b.next[i], updates, n) && b.next[i].id == files[i].id {
      SlotId(files[i], b.next[i], updates, n - 1);
      SlotLater(files[i], b.next[i], updates, n);
    }
    if ChangesAt(b, u, b2) {
      SlotUpdated(files[k], b2.next[k], updates, n);
      ChangedSlot(files, b.next, b.changed, k, b2.next[k]);
    }
  }

  lemma ChangedSlot(files: seq<File>, next: seq<File>, changed: seq<File>, k: int, g: File)
    requires |next| == |files| && 0 <= k < |files| && next[k] == files[k] && g != files[k]
    requires forall i :: 0 <= i < |files| && next[i] != files[i] ==> next[i] in changed
    requires forall c :: c in changed ==> exists i :: 0 <= i < |files| && next[i] == c && next[i] != files[i]
    ensures forall i :: 0 <= i < |files| && next[k := g][i] != files[i] ==> next[k := g][i] in changed + [g]
    ensures forall c :: c in changed + [g] ==>
              exists i :: 0 <= i < |files| && next[k := g][i] == c && next[k := g][i] != files[i]
  {
    forall c | c in changed + [g] ensures exists i :: 0 <= i < |files| && next[k := g][i] == c
                                                      && next[k := g][i] != files[i] {
      if c in changed {
        var i :| 0 <= i < |files| && next[i] == c && next[i] != files[i];
        assert next[k := g][i] == c;
      } else {
        assert next[k := g][k] == c;
      }
    }
  }

  lemma Untouched(f: File, updates: seq<Update>, n: nat)
    requires n <= |updates|
    ensures UpdatedSlot(f, f, updates, n)
  {
  }

  lemma SlotLater(before: File, after: File, updates: seq<Update>, n: nat)
    requires 0 < n <= |updates| && UpdatedSlot(before, after, updates, n - 1)
    ensures UpdatedSlot(before, after, updates, n)
  {
  }

  lemma SlotUpdated(before: File, after: File, updates: seq<Update>, n: nat)
    requires 0 < n <= |updates| && Observed(before, updates[n - 1]) && before.revision < MAX_UINT64
    requires after == before.(details := WithMedia(WithCapture(before.details, updates[n - 1].capture),
                                                   updates[n - 1].media),
                              revision := before.revision + 1)
    ensures UpdatedSlot(before, after, updates, n)
  {
  }

  /** A batch never touches an entry whose observed version has moved on, moves
      every other it changes exactly one revision on, and reports exactly the
      changed entries. */
  lemma BatchEvolves(files: seq<File>, updates: seq<Update>)
    requires UniqueIds(files) && ApplyUpdates(files, updates, |updates|).Ok?
    ensures var b := ApplyUpdates(files, updates, |updates|).value;
            && BatchEffect(files, updates, |updates|, b)
            && UniqueIds(b.next) && Evolves(files, b.next) && (UniquePaths(files) ==> UniquePaths(b.next))
  {
    hide UpdatedSlot, ApplyUpdates;
    ApplyEffect(files, updates, |updates|);
    var next := ApplyUpdates(files, updates, |updates|).value.next;
    forall i | 0 <= i < |files|
      ensures next[i].id == files[i].id && next[i].path == files[i].path && next[i].present == files[i].present
      ensures next[i] == files[i] || files[i].revision < next[i].revision
    {
      SlotId(files[i], next[i], updates, |updates|);
    }
    SlotwiseEvolves(files, next);
    if UniquePaths(files) {
      forall i, j | 0 <= i < j < |next| && next[i].present && next[j].present ensures next[i].path != next[j].path {
        assert files[i].path != files[j].path;
      }
    }
  }

  // ------------------------------------------------------------------ methods

  /** Mkdir's scan. */
  method MakeFolder(files: seq<File>, path: string, id: string, now: int) returns (r: Result<seq<File>>)
    ensures r == Mkdir(files, path, id, now)
  {
    for i := 0 to |files|
      invariant forall k :: 0 <= k < i ==> !MkdirBlocks(files[k], path)
    {
      if MkdirBlocks(files[i], path) {
        return Err(Conflict);
      }
    }
    r := Ok(files + [File(id, 1, path, true, true, None, false, 0, now, ZERO_TIME, "", "", "", None, "", [], [],
                          "", "", "", false, NO_DETAILS)]);
  }

  /** Put's scans. */
  method PutFile(files: seq<File>, f: File, id: string, now: int) returns (r: Result<Option<seq<File>>>)
    ensures r == Put(files, f, id, now)
  {
    hide PutBlocks, Successor, Newcomer;
    if f.hidden && !f.folder {
      return Err(Invalid);
    }
    for i := 0 to |files|
      invariant forall k :: 0 <= k < i ==> !PutBlocks(files[k], f)
    {
      if PutBlocks(files[i], f) {
        return Err(Conflict);
      }
    }
    for i := 0 to |files|
      invariant Occupant(files, f.path, 0) == Occupant(files, f.path, i)
    {
      if At(files[i], f.path) {
        var g := Successor(f, files[i]);
        return match g case Err(e) => Err(e) case Ok(None) => Ok(None) case Ok(Some(h)) => Ok(Some(files[i := h]));
      }
    }
    var g := Newcomer(files, f, id, now);
    r := match g case Err(e) => Err(e) case Ok(h) => Ok(Some(files + [h]));
  }

  /** UpdatePhotoMetadataBatch, up to the save. */
  method UpdateMetadata(files: seq<File>, updates: seq<Update>) returns (r: Result<Batch>)
    ensures r == ApplyUpdates(files, updates, |updates|)
  {
    var b := Batch(files, {}, [], [], []);
    for n := 0 to |updates|
      invariant ApplyUpdates(files, updates, n) == Ok(b)
    {
      r := ApplyUpdate(b, updates[n]);
      if r.Err? {
        UpdatesFail(files, updates, n + 1, |updates|, r.error);
        return;
      }
      b := r.value;
    }
    r := Ok(b);
  }

  lemma {:induction false} UpdatesFail(files: seq<File>, updates: seq<Update>, n: nat, m: nat, e: Error)
    requires n <= m <= |updates| && ApplyUpdates(files, updates, n) == Err(e)
    ensures ApplyUpdates(files, updates, m) == Err(e)
  {
    if n < m {
      UpdatesFail(files, updates, n, m - 1, e);
    }
  }
}
