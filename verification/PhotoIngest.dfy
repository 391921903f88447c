/** Committing an uploaded photo: its one or two parts move into place, its source
    mapping and album memberships join them, all or nothing. */
module PhotoIngest {
  import opened Prelude
  import opened Paths
  import opened Entries
  import opened Journals
  import opened Sync
  import opened JournalWriter
  import opened Albums
  import opened SourceImport
  import opened Edits

  datatype Part = Part(id: string, from: string, to: string, hash: string, mediaType: string, size: int)

  datatype Commit = Commit(namespace: string, sourceAsset: string, mappingRevision: uint64,
                           device: string, deviceAsset: string, sourceRevision: string, hidden: bool,
                               opaqueOriginal: bool,
                           parts: seq<Part>, albumIds: seq<string>, capture: Option<Capture>)

  // -------------------------------------------------------------- path hygiene

  /** The elements between slashes. */
  function Elements(p: string): seq<string> {
    ElementsFrom(p, "")
  }

  function ElementsFrom(p: string, element: string): seq<string> {
    if p == "" then [element]
    else if p[0] == '/' then [element] + ElementsFrom(p[1..], "")
    else ElementsFrom(p[1..], element + [p[0]])
  }

  predicate PlainElements(es: seq<string>, climbing: bool) {
    es == [] || (es[0] != "" && es[0] != "." && (es[0] == ".." ==> climbing)
                 && PlainElements(es[1..], climbing && es[0] == ".."))
  }

  /** path.Clean leaves the path as it is. */
  predicate IsClean(p: string) {
    || p == "." || p == "/"
    || (p != "" && (if p[0] == '/' then PlainElements(Elements(p[1..]), false) else PlainElements(Elements(p), true)))
  }

  predicate Unsafe(c: char) {
    c == '\\' || c == '\0'
  }

  predicate GoodPart(part: Part, i: nat) {
    && "Photos/" <= part.to && part.from != "" && IsClean(part.to) && IsClean(part.from)
    && (forall k :: 0 <= k < |part.to| ==> !Unsafe(part.to[k]))
      && (forall k :: 0 <= k < |part.from| ==> !Unsafe(part.from[k]))
    && (i == 1 ==> part.id == "motion")
  }

  predicate Repeats(parts: seq<Part>, i: nat)
    requires i < |parts|
  {
    exists k :: 0 <= k < i && (parts[k].id == parts[i].id || parts[k].from == parts[i].from
                               || parts[k].to == parts[i].to)
  }

  // ---------------------------------------------------------------- one part

  predicate SameUpload(f: File, commit: Commit) {
    f.device == commit.device && f.deviceAsset == commit.deviceAsset && f.sourceRevision == commit.sourceRevision
  }

  /** The scan for a part's entry: at its target if this upload put it there,
      else at its source; anything in the way is a conflict. */
  function FindPart(files: seq<File>, part: Part, commit: Commit, n: nat): (r: Result<int>)
    requires n <= |files|
    ensures r.Ok? ==> -1 <= r.value < n
    ensures r.Ok? && r.value >= 0 ==>
              files[r.value].present && (files[r.value].path == part.to || files[r.value].path == part.from)
  {
    if n == 0 then Ok(-1) else
    match FindPart(files, part, commit, n - 1)
    case Err(e) => Err(e)
    case Ok(index) =>
      var f := files[n - 1];
      if !f.present then Ok(index)
      else if f.path == part.to && !SameUpload(f, commit) then Err(Conflict)
      else
        var there := if f.path == part.to then n - 1 else index;
        if f.path == part.from && there != -1 then Err(Conflict)
        else if !f.folder && Below(part.to, f.path) then Err(Conflict)
        else Ok(if f.path == part.from then n - 1 else there)
  }

  function Landed(f: File, part: Part, commit: Commit): File
    requires f.revision < MAX_UINT64
  {
    var d := f.details;
    var d1 := if (commit.opaqueOriginal && part.id == "original") || part.mediaType == "image/dng"
              then d.(previewUnsupported := true) else d;
    var d2 := if commit.capture.Some? && !d.captureCorrected && (d.captureSource == "" || d.captureSource == "client")
              then d1.(captureTime := commit.capture.value.time, captureOffset := commit.capture.value.offset,
                       captureSource := commit.capture.value.source)
              else d1;
    f.(path := part.to, device := commit.device, deviceAsset := commit.deviceAsset,
       sourceRevision := commit.sourceRevision,
       components := [], hidden := commit.hidden, details := d2, revision := f.revision + 1)
  }

  datatype Landing = Landing(files: seq<File>, indices: seq<int>, already: bool)

  /** The loop over the parts. */
  function Land(files: seq<File>, commit: Commit, n: nat): (r: Result<Landing>)
    requires n <= |commit.parts|
    ensures r.Ok? ==> |r.value.files| == |files| && |r.value.indices| == n
    ensures r.Ok? ==> forall i :: 0 <= i < n ==> 0 <= r.value.indices[i] < |files|
  {
    if n == 0 then Ok(Landing(files, [], true)) else
    match Land(files, commit, n - 1)
    case Err(e) => Err(e)
    case Ok(sofar) =>
      var part := commit.parts[n - 1];
      if !GoodPart(part, n - 1) || Repeats(commit.parts, n - 1) then Err(Conflict) else
      match FindPart(sofar.files, part, commit, |sofar.files|)
      case Err(e) => Err(e)
      case Ok(index) =>
        if index < 0 then Err(NotFound) else
        var f := sofar.files[index];
        if f.folder || f.hash != part.hash || f.size != part.size then Err(RevisionMismatch)
        else if f.revision == MAX_UINT64 then Err(RevisionOverflow)
        else Ok(Landing(sofar.files[index := Landed(f, part, commit)], sofar.indices + [index], sofar.already
                        && f.path == part.to))
  }

  /** Primary first: it lists the components, the second names its parent. */
  function Components(files: seq<File>, commit: Commit, indices: seq<int>): seq<Component>
    requires |indices| == |commit.parts| && forall i :: 0 <= i < |indices| ==> 0 <= indices[i] < |files|
  {
    seq(|indices|, i requires 0 <= i < |indices| => Component(commit.parts[i].id, files[indices[i]].id,
                                                              commit.parts[i].mediaType))
  }

  function LinkParts(l: Landing, commit: Commit): (files: seq<File>)
    requires 1 <= |l.indices| <= 2 && |l.indices| == |commit.parts|
    requires forall i :: 0 <= i < |l.indices| ==> 0 <= l.indices[i] < |l.files|
    ensures |files| == |l.files|
  {
    var a := l.indices[0];
    var first := l.files[a := l.files[a].(components := Components(l.files, commit, l.indices), pending := true)];
    if |l.indices| == 1 then first
    else first[l.indices[1] := first[l.indices[1]].(parentId := l.files[a].id)]
  }

  // ---------------------------------------------------------- source mapping

  /** mapPhotoSourceLocked: the mappings after it. */
  function MapSource(t: Tree, commit: Commit, primary: File): Result<map<string, Mapping>> {
    if commit.namespace == "" && commit.sourceAsset == "" then Ok(t.sources)
    else if commit.namespace == "" || commit.sourceAsset == "" || |commit.namespace| > 200
      || |commit.sourceAsset| > 4096
            || SafeSourceKey(commit.namespace, commit.sourceAsset) != commit.deviceAsset then Err(Conflict)
    else
      var key := SourceKey(commit.device, commit.namespace, commit.sourceAsset);
      if key in t.sources && (t.sources[key].kind != "asset" || t.sources[key].serverRevision != commit.mappingRevision
                              || !exists i :: 0 <= i < |t.files| && t.files[i].id == t.sources[key].serverId
                                              && t.files[i].present
                                              && t.files[i].revision == t.sources[key].serverRevision)
                                                  then Err(RevisionMismatch)
      else if key !in t.sources && commit.mappingRevision != 0 then Err(RevisionMismatch)
      else Ok(t.sources[key := Mapping(commit.device, commit.namespace, commit.sourceAsset, "asset", primary.id,
                                       commit.sourceRevision, primary.revision)])
  }

  // ------------------------------------------------------------------- albums

  /** One album of the listed id. */
  function WithPrimary(a: Album, id: string, primary: string): Result<Album> {
    if a.id != id || primary in a.assets then Ok(a)
    else if |a.assets| >= ALBUM_CAPACITY || a.revision == MAX_UINT64 then Err(AlbumInvalid)
    else Ok(a.(assets := a.assets + [primary], revision := a.revision + 1))
  }

  function JoinAll(albums: seq<Album>, id: string, primary: string, n: nat): (r: Result<seq<Album>>)
    requires n <= |albums|
    ensures r.Ok? ==> |r.value| == |albums|
  {
    if n == 0 then Ok(albums) else
    match JoinAll(albums, id, primary, n - 1)
    case Err(e) => Err(e)
    case Ok(next) =>
      match WithPrimary(next[n - 1], id, primary)
      case Err(e) => Err(e)
      case Ok(a) => Ok(next[n - 1 := a])
  }

  function JoinListed(albums: seq<Album>, ids: seq<string>, primary: string, n: nat): (r: Result<seq<Album>>)
    requires n <= |ids|
    ensures r.Ok? ==> |r.value| == |albums|
  {
    if n == 0 then Ok(albums) else
    match JoinListed(albums, ids, primary, n - 1)
    case Err(e) => Err(e)
    case Ok(next) =>
      match JoinAll(next, ids[n - 1], primary, |next|)
      case Err(e) => Err(e)
      case Ok(after) => if exists i :: 0 <= i < |after| && after[i].id == ids[n - 1] then Ok(after)
          else Err(AlbumNotFound)
  }

  // ------------------------------------------------------------- the operation

  datatype Ingested = Ingested(file: File, next: Option<Tree>)

  /** CommitPhotoIngest up to the save; nothing to save when it was committed before. */
  function Ingest(t: Tree, commit: Commit): Result<Ingested> {
    if |commit.parts| < 1 || |commit.parts| > 2 || commit.parts[0].id != "original" then Err(Conflict) else
    match Land(t.files, commit, |commit.parts|)
    case Err(e) => Err(e)
    case Ok(l) =>
      if l.already && |t.files[l.indices[0]].components| == |commit.parts|
          then Ok(Ingested(t.files[l.indices[0]], None))
      else
        var next := LinkParts(l, commit);
        var primary := next[l.indices[0]];
        match MapSource(t, commit, primary)
        case Err(e) => Err(e)
        case Ok(sources) =>
          match JoinListed(t.albums, commit.albumIds, primary.id, |commit.albumIds|)
          case Err(e) => Err(e)
          case Ok(albums) => Ok(Ingested(primary, Some(t.(files := next, albums := albums, sources := sources))))
  }

  // -------------------------------------------------------- what it does to slots

  /** Slots keep their ids and only move forward; new slots have new ids. */
  ghost predicate Grows(before: seq<File>, after: seq<File>) {
    && |before| <= |after|
    && (forall i :: 0 <= i < |before| ==>
          before[i].id == after[i].id && (Normal(before[i]) == Normal(after[i])
                                          || before[i].revision < after[i].revision))
    && (forall i, j :: 0 <= i < |before| && |before| <= j < |after| ==> before[i].id != after[j].id)
  }

  lemma GrowsTransitive(a: seq<File>, b: seq<File>, c: seq<File>)
    requires Grows(a, b) && Grows(b, c)
    ensures Grows(a, c)
  {
    forall i | 0 <= i < |a| ensures a[i].id == c[i].id && (Normal(a[i]) == Normal(c[i])
                                                           || a[i].revision < c[i].revision) {
      assert a[i].id == b[i].id && b[i].id == c[i].id;
      assert Normal(a[i]).revision == a[i].revision && Normal(b[i]).revision == b[i].revision
        && Normal(c[i]).revision == c[i].revision;
    }
    forall i, j | 0 <= i < |a| && |a| <= j < |c| ensures a[i].id != c[j].id {
      assert a[i].id == b[i].id;
      if j < |b| {
        assert b[j].id == c[j].id && a[i].id != b[j].id;
      }
    }
  }

  lemma GrowsEvolves(before: seq<File>, after: seq<File>)
    requires UniqueIds(before) && Grows(before, after)
    ensures Evolves(before, after)
  {
    SlotwiseEvolves(before, after);
  }

  lemma GrowsSelf(files: seq<File>)
    ensures Grows(files, files)
  {
  }

  /** Parts land in their own slots, one or two revisions on, and nothing else moves. */
  lemma {:induction false} LandGrows(files: seq<File>, commit: Commit, n: nat)
    requires n <= |commit.parts| && Land(files, commit, n).Ok?
    ensures var l := Land(files, commit, n).value;
            && Grows(files, l.files)
            && (forall i :: 0 <= i < |files| && i !in l.indices ==> l.files[i] == files[i])
            && (forall i :: 0 <= i < |files| && i in l.indices ==> files[i].revision < l.files[i].revision)
  {
    hide GoodPart, Repeats, FindPart, Landed, Grows;
    if n == 0 {
      GrowsSelf(files);
    } else {
      LandGrows(files, commit, n - 1);
      var mid, l := Land(files, commit, n - 1).value, Land(files, commit, n).value;
      var k := l.indices[n - 1];
      LandedMoves(mid.files[k], commit.parts[n - 1], commit);
      SlotGrows(files, mid.files, k, l.files[k]);
    }
  }

  lemma LandedMoves(f: File, part: Part, commit: Commit)
    requires f.revision < MAX_UINT64
    ensures var g := Landed(f, part, commit);
            g.id == f.id && g.revision == f.revision + 1 && g.path == part.to && g.present == f.present
  {
  }

  lemma SlotGrows(files: seq<File>, mid: seq<File>, k: int, g: File)
    requires Grows(files, mid) && |mid| == |files| && 0 <= k < |mid| && g.id == mid[k].id
    requires mid[k].revision < g.revision || (files[k].revision < mid[k].revision == g.revision)
    ensures Grows(files, mid[k := g]) && files[k].revision < g.revision
  {
    assert Normal(files[k]).revision == files[k].revision && Normal(mid[k]).revision == mid[k].revision;
  }

  lemma LinkGrows(files: seq<File>, l: Landing, commit: Commit)
    requires 1 <= |l.indices| <= 2 && |l.indices| == |commit.parts|
    requires Grows(files, l.files) && |l.files| == |files|
    requires forall i :: 0 <= i < |l.indices| ==> 0 <= l.indices[i] < |l.files|
    requires forall i :: 0 <= i < |files| && i in l.indices ==> files[i].revision < l.files[i].revision
    ensures Grows(files, LinkParts(l, commit))
    ensures forall i :: 0 <= i < |files| && i !in l.indices ==> LinkParts(l, commit)[i] == l.files[i]
  {
    hide Grows, Components;
    var a := l.indices[0];
    assert a in l.indices;
    var f := l.files[a].(components := Components(l.files, commit, l.indices), pending := true);
    SlotGrows(files, l.files, a, f);
    var first := l.files[a := f];
    if |l.indices| == 2 {
      var b := l.indices[1];
      assert b in l.indices;
      SlotGrows(files, first, b, first[b].(parentId := l.files[a].id));
    }
  }

  /** An album after one listed id was handled. */
  ghost predicate JoinedRow(before: Album, after: Album, listed: bool, primary: string) {
    && after.id == before.id && after.parentId == before.parentId
    && after.assets == if listed && primary !in before.assets then before.assets + [primary] else before.assets
  }

  lemma {:induction false} JoinAllKeeps(albums: seq<Album>, id: string, primary: string, n: nat)
    requires n <= |albums| && JoinAll(albums, id, primary, n).Ok?
    ensures var next := JoinAll(albums, id, primary, n).value;
            forall i :: 0 <= i < |albums| ==> JoinedRow(albums[i], next[i], i < n && albums[i].id == id, primary)
  {
    if n > 0 {
      JoinAllKeeps(albums, id, primary, n - 1);
    }
  }

  ghost predicate Member(before: Album, after: Album, ids: seq<string>, primary: string) {
    && after.id == before.id && after.parentId == before.parentId
    && forall x :: x in after.assets <==> x in before.assets || (x == primary && before.id in ids)
  }

  lemma MemberStep(before: Album, mid: Album, after: Album, ids: seq<string>, id: string, primary: string)
    requires Member(before, mid, ids, primary) && JoinedRow(mid, after, mid.id == id, primary)
    ensures Member(before, after, ids + [id], primary)
  {
  }

  /** Afterwards the primary is in every listed album, and nothing else changed. */
  lemma {:induction false} JoinListedKeeps(albums: seq<Album>, ids: seq<string>, primary: string, n: nat)
    requires n <= |ids| && JoinListed(albums, ids, primary, n).Ok?
    ensures var next := JoinListed(albums, ids, primary, n).value;
            && (forall i :: 0 <= i < |albums| ==> Member(albums[i], next[i], ids[..n], primary))
            && (forall k :: 0 <= k < n ==> exists i :: 0 <= i < |albums| && albums[i].id == ids[k])
  {
    hide Member, JoinedRow, JoinAll;
    if n == 0 {
      forall i | 0 <= i < |albums| ensures Member(albums[i], albums[i], ids[..0], primary) {
        MemberStart(albums[i], primary);
        assert ids[..0] == [];
      }
    } else {
      JoinListedKeeps(albums, ids, primary, n - 1);
      var mid := JoinListed(albums, ids, primary, n - 1).value;
      JoinAllKeeps(mid, ids[n - 1], primary, |mid|);
      var next := JoinListed(albums, ids, primary, n).value;
      assert ids[..n] == ids[..n - 1] + [ids[n - 1]];
      forall i | 0 <= i < |albums| ensures Member(albums[i], next[i], ids[..n], primary) && next[i].id == albums[i].id {
        assert JoinedRow(mid[i], next[i], mid[i].id == ids[n - 1], primary);
        MemberStep(albums[i], mid[i], next[i], ids[..n - 1], ids[n - 1], primary);
        MemberId(albums[i], next[i], ids[..n], primary);
      }
      var i :| 0 <= i < |next| && next[i].id == ids[n - 1];
      assert albums[i].id == ids[n - 1];
    }
  }

  lemma MemberStart(a: Album, primary: string)
    ensures Member(a, a, [], primary)
  {
  }

  lemma MemberId(before: Album, after: Album, ids: seq<string>, primary: string)
    requires Member(before, after, ids, primary)
    ensures after.id == before.id && after.parentId == before.parentId
    ensures before.id in ids ==> primary in after.assets
  {
  }

  ghost predicate DistinctRows(albums: seq<Album>) {
    DistinctKeys(AlbumRows(albums))
  }

  /** A committed photo: its parts moved on in place, it sits in every listed album,
      its mapping names it, and the tree may be saved after the one before. */
  lemma IngestKeeps(t: Tree, commit: Commit)
    requires WellFormed(t) && Ingest(t, commit).Ok? && Ingest(t, commit).value.next.Some?
    ensures var r := Ingest(t, commit).value; var u := r.next.value;
            && MayFollow(t, u) && Grows(t.files, u.files) && |u.files| == |t.files|
            && r.file in u.files && r.file.pending && |r.file.components| == |commit.parts|
            && (r.file.path == commit.parts[0].to
                || (|commit.parts| == 2 && commit.parts[1].from == commit.parts[0].to))
            && (forall i :: 0 <= i < |u.albums| && u.albums[i].id in commit.albumIds ==>
                r.file.id in u.albums[i].assets)
            && |u.albums| == |t.albums|
            && (forall i :: 0 <= i < |u.albums| ==>
                u.albums[i].id == t.albums[i].id && u.albums[i].parentId == t.albums[i].parentId)
            && u.folders == t.folders && u.operations == t.operations
  {
    hide Land, MapSource, LinkParts, JoinListed, Member, Evolves, UniqueIds, Grows;
    var l := Land(t.files, commit, |commit.parts|).value;
    LandGrows(t.files, commit, |commit.parts|);
    LinkGrows(t.files, l, commit);
    var next := LinkParts(l, commit);
    var primary := next[l.indices[0]];
    GrowsEvolves(t.files, next);
    KeepsUnique(t.files, next);
    JoinListedKeeps(t.albums, commit.albumIds, primary.id, |commit.albumIds|);
    assert commit.albumIds[..|commit.albumIds|] == commit.albumIds;
    var albums := JoinListed(t.albums, commit.albumIds, primary.id, |commit.albumIds|).value;
    forall i | 0 <= i < |albums|
      ensures albums[i].id == t.albums[i].id && albums[i].parentId == t.albums[i].parentId
      ensures albums[i].id in commit.albumIds ==> primary.id in albums[i].assets
    {
      MemberId(t.albums[i], albums[i], commit.albumIds, primary.id);
    }
    SameRows(t.albums, albums);
    MapSourceKeeps(t, commit, primary);
    PrimaryLanded(t.files, commit, l);
  }

  lemma KeepsUnique(before: seq<File>, after: seq<File>)
    requires UniqueIds(before) && Grows(before, after) && |after| == |before|
    ensures UniqueIds(after)
  {
    forall i, j | 0 <= i < j < |after| ensures after[i].id != after[j].id {
      assert before[i].id != before[j].id;
    }
  }

  lemma SameRows(before: seq<Album>, after: seq<Album>)
    requires DistinctRows(before) && |after| == |before| && forall i :: 0 <= i < |before| ==>
               after[i].id == before[i].id
    ensures DistinctRows(after)
  {
    var a, b := AlbumRows(before), AlbumRows(after);
    forall i, j | 0 <= i < j < |b| ensures b[i].0 != b[j].0 {
      assert a[i].0 != a[j].0;
    }
  }

  lemma MapSourceKeeps(t: Tree, commit: Commit, primary: File)
    requires WellFormed(t) && MapSource(t, commit, primary).Ok?
    ensures var sources := MapSource(t, commit, primary).value;
            t.sources.Keys <= sources.Keys && forall k :: k in sources ==> sources[k].namespace != ""
  {
    hide SourceKey, SafeSourceKey;
  }

  lemma PrimaryLanded(files: seq<File>, commit: Commit, l: Landing)
    requires 1 <= |commit.parts| <= 2 && Land(files, commit, |commit.parts|) == Ok(l)
    ensures var f := LinkParts(l, commit)[l.indices[0]];
            f in LinkParts(l, commit) && f.pending && |f.components| == |commit.parts|
    ensures LinkParts(l, commit)[l.indices[0]].path == commit.parts[0].to
            || (|commit.parts| == 2 && commit.parts[1].from == commit.parts[0].to)
  {
    hide GoodPart, FindPart, Landed;
    assert Land(files, commit, 0).Ok?;
    var one := Land(files, commit, 1).value;
    var a := one.indices[0];
    LandedMoves(files[a], commit.parts[0], commit);
    assert one.files[a].path == commit.parts[0].to;
  }

  // ------------------------------------------------ linked motions and albums

  ghost predicate Listed(albums: seq<Album>, id: string) {
    exists a :: 0 <= a < |albums| && id in albums[a].assets
  }

  /** What the caller can see before committing: the motion's entry is in no
      album, and an entry that joins albums is itself no linked motion. */
  ghost predicate LinkClear(t: Tree, commit: Commit)
    requires Land(t.files, commit, |commit.parts|).Ok?
  {
    var l := Land(t.files, commit, |commit.parts|).value;
    && (commit.albumIds != [] && |commit.parts| > 0 ==> t.files[l.indices[0]].parentId == "")
    && (|commit.parts| == 2 ==>
          !Listed(t.albums, t.files[l.indices[1]].id) && (l.indices[0] == l.indices[1] ==> commit.albumIds == []))
  }

  /** Landing and linking touch no parent but the motion's. */
  lemma ParentsLanded(t: Tree, commit: Commit)
    requires 1 <= |commit.parts| <= 2 && Land(t.files, commit, |commit.parts|).Ok?
    ensures var l := Land(t.files, commit, |commit.parts|).value; var next := LinkParts(l, commit);
            forall i :: 0 <= i < |t.files| ==>
              next[i].id == t.files[i].id
              && next[i].parentId == if |commit.parts| == 2 && i == l.indices[1] then t.files[l.indices[0]].id
                  else t.files[i].parentId
  {
    hide GoodPart, FindPart, Components, Repeats;
    assert Land(t.files, commit, 0).Ok?;
    assert Land(t.files, commit, 1).Ok?;
  }

  /** Entry b was linked below entry a, and a joined the albums with the ids. */
  ghost predicate LinkedAndJoined(files: seq<File>, next: seq<File>, albums: seq<Album>, after: seq<Album>,
                                  ids: seq<string>, a: int, b: int)
  {
    && |next| == |files| && |after| == |albums| && 0 <= a < |files| && b < |files|
    && (forall i :: 0 <= i < |files| ==>
          next[i].id == files[i].id && next[i].parentId == if i == b then files[a].id else files[i].parentId)
    && (forall c :: 0 <= c < |albums| ==> Member(albums[c], after[c], ids, files[a].id))
    && (ids != [] ==> exists c :: 0 <= c < |albums| && albums[c].id in ids)
  }

  ghost predicate ClearFor(files: seq<File>, albums: seq<Album>, ids: seq<string>, a: int, b: int)
    requires 0 <= a < |files| && b < |files|
  {
    && (ids != [] ==> files[a].parentId == "")
    && (b >= 0 ==> !Listed(albums, files[b].id) && (a == b ==> ids == []))
  }

  lemma StaysClear(files: seq<File>, next: seq<File>, albums: seq<Album>, after: seq<Album>, ids: seq<string>, a: int,
                   b: int)
    requires UniqueIds(files) && LinkedAndJoined(files, next, albums, after, ids, a, b)
    requires MotionFree(files, albums) && ClearFor(files, albums, ids, a, b)
    ensures MotionFree(next, after)
  {
    forall c, id, i | 0 <= c < |after| && id in after[c].assets && 0 <= i < |next| && next[i].id == id
      ensures next[i].parentId == ""
    {
      assert Member(albums[c], after[c], ids, files[a].id);
      if id !in albums[c].assets {
        UniqueIdsFind(files, i, a);
      } else {
        assert Listed(albums, id);
      }
    }
  }

  lemma WasClear(files: seq<File>, next: seq<File>, albums: seq<Album>, after: seq<Album>, ids: seq<string>, a: int,
                 b: int)
    requires UniqueIds(files) && LinkedAndJoined(files, next, albums, after, ids, a, b) && files[a].id != ""
    requires MotionFree(next, after)
    ensures MotionFree(files, albums) && ClearFor(files, albums, ids, a, b)
  {
    forall c, id, i | 0 <= c < |albums| && id in albums[c].assets && 0 <= i < |files| && files[i].id == id
      ensures i != b && files[i].parentId == ""
    {
      assert Member(albums[c], after[c], ids, files[a].id);
      assert id in after[c].assets && next[i].id == id;
    }
    if ids != [] {
      var c :| 0 <= c < |albums| && albums[c].id in ids;
      assert Member(albums[c], after[c], ids, files[a].id);
      assert files[a].id in after[c].assets && next[a].id == files[a].id;
    }
  }

  lemma IngestLinks(t: Tree, commit: Commit)
    requires Ingest(t, commit).Ok? && Ingest(t, commit).value.next.Some?
    ensures 1 <= |commit.parts| <= 2 && Land(t.files, commit, |commit.parts|).Ok?
    ensures var u, l := Ingest(t, commit).value.next.value, Land(t.files, commit, |commit.parts|).value;
            LinkedAndJoined(t.files, u.files, t.albums, u.albums, commit.albumIds, l.indices[0], if |l.indices| == 2
                            then l.indices[1] else -1)
  {
    hide Land, MapSource, LinkParts, JoinListed, Member;
    ParentsLanded(t, commit);
    var l := Land(t.files, commit, |commit.parts|).value;
    var primary := LinkParts(l, commit)[l.indices[0]];
    JoinListedKeeps(t.albums, commit.albumIds, primary.id, |commit.albumIds|);
    assert commit.albumIds[..|commit.albumIds|] == commit.albumIds;
    if commit.albumIds != [] {
      var i :| 0 <= i < |t.albums| && t.albums[i].id == commit.albumIds[0];
      assert t.albums[i].id in commit.albumIds;
    }
  }

  /** Committing a photo keeps albums free of linked motions exactly when they
      were and the commit is clear; nothing else it does frees a motion. */
  lemma IngestMotionFree(t: Tree, commit: Commit)
    requires UniqueIds(t.files) && (forall f :: f in t.files ==> f.id != "")
    requires Ingest(t, commit).Ok? && Ingest(t, commit).value.next.Some?
    ensures var u := Ingest(t, commit).value.next.value;
            MotionFree(u.files, u.albums) <==> MotionFree(t.files, t.albums) && LinkClear(t, commit)
  {
    hide Ingest, Land, MotionFree, LinkedAndJoined, UniqueIds;
    IngestLinks(t, commit);
    var u, l := Ingest(t, commit).value.next.value, Land(t.files, commit, |commit.parts|).value;
    var a, b := l.indices[0], if |l.indices| == 2 then l.indices[1] else -1;
    assert LinkClear(t, commit) <==> ClearFor(t.files, t.albums, commit.albumIds, a, b);
    if MotionFree(t.files, t.albums) && LinkClear(t, commit) {
      StaysClear(t.files, u.files, t.albums, u.albums, commit.albumIds, a, b);
    }
    if MotionFree(u.files, u.albums) {
      WasClear(t.files, u.files, t.albums, u.albums, commit.albumIds, a, b);
    }
  }
}
