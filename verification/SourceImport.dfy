/** Importing one operation of a device's folders and albums. */
module SourceImport {
  // Children may come before parents, and every operation is recorded under its
  // key.

  import opened Prelude
  import opened Entries
  import opened Journals
  import opened Collections
  import opened Albums

  // -------------------------------------------------------------------- keys

  function Power(k: nat): (p: nat)
    ensures p > 0
  {
    if k == 0 then 1 else 256 * Power(k - 1)
  }

  /** The k low bytes of n, most significant first. */
  function BigEndian(n: nat, k: nat): (s: string)
    ensures |s| == k
  {
    if k == 0 then "" else BigEndian(n / 256, k - 1) + [(n % 256) as char]
  }

  lemma {:induction false} BigEndianInjective(n: nat, m: nat, k: nat)
    requires n < Power(k) && m < Power(k) && BigEndian(n, k) == BigEndian(m, k)
    ensures n == m
  {
    if k > 0 {
      var a, b := BigEndian(n, k), BigEndian(m, k);
      assert a[k - 1] == b[k - 1];
      assert a[..k - 1] == BigEndian(n / 256, k - 1) && b[..k - 1] == BigEndian(m / 256, k - 1);
      BigEndianInjective(n / 256, m / 256, k - 1);
    }
  }

  /** SafeSourceKey; the digest is ideal, so it is represented by what is hashed. */
  function SafeSourceKey(namespace: string, raw: string): string {
    BigEndian(|namespace|, 8) + namespace + BigEndian(|raw|, 8) + raw
  }

  /** The length prefixes make different pairs different keys. */
  lemma SafeSourceKeyInjective(a: string, b: string, c: string, d: string)
    requires |a| < Power(8) && |b| < Power(8) && |c| < Power(8) && |d| < Power(8)
    requires SafeSourceKey(a, b) == SafeSourceKey(c, d)
    ensures a == c && b == d
  {
    var k, l := SafeSourceKey(a, b), SafeSourceKey(c, d);
    assert k[..8] == BigEndian(|a|, 8) && l[..8] == BigEndian(|c|, 8);
    BigEndianInjective(|a|, |c|, 8);
    assert a == k[8..8 + |a|] && c == l[8..8 + |a|];
    assert b == k[16 + |a|..] && d == l[16 + |a|..];
  }

  function SourceKey(device: string, namespace: string, id: string): string {
    SafeSourceKey(device, SafeSourceKey(namespace, id))
  }

  lemma PowerBig()
    ensures Power(8) > 10000
  {
    assert Power(1) == 256;
    assert Power(2) == 65536;
    assert Power(3) == 256 * Power(2);
    assert Power(4) > 10000 && Power(5) > 10000 && Power(6) > 10000 && Power(7) > 10000;
  }

  /** Distinct source ids of one device have distinct keys. */
  lemma SourceKeyInjective(device: string, ns: string, id: string, ms: string, other: string)
    requires |device| <= 100 && |ns| <= 200 && |ms| <= 200 && |id| <= 4096 && |other| <= 4096
    requires SourceKey(device, ns, id) == SourceKey(device, ms, other)
    ensures ns == ms && id == other
  {
    PowerBig();
    SafeSourceKeyInjective(device, SafeSourceKey(ns, id), device, SafeSourceKey(ms, other));
    SafeSourceKeyInjective(ns, id, ms, other);
  }

  // ------------------------------------------------------------ one operation

  /** The organisation an import works on. */
  datatype Organisation = Organisation(folders: seq<Folder>, albums: seq<Album>, sources: map<string, Mapping>,
                                       operations: map<string, Receipt>)

  predicate WellSized(op: SourceOp) {
    && op.operationId != "" && |op.operationId| <= 200 && op.namespace != "" && |op.namespace| <= 200
    && op.sourceId != "" && |op.sourceId| <= 4096 && op.sourceRevision != "" && |op.sourceRevision| <= 200
    && |op.parentSourceId| <= 4096 && |op.addIds| <= 200
  }

  function KeyOf(device: string, op: SourceOp): string {
    SourceKey(device, op.namespace, op.sourceId)
  }

  function OperationKey(device: string, op: SourceOp): string {
    SourceKey(device, op.namespace, op.operationId)
  }

  function ParentKey(device: string, op: SourceOp): string {
    SourceKey(device, op.namespace, op.parentSourceId)
  }

  /** checkSourceRevisionLocked */
  predicate RevisionHeld(o: Organisation, m: Mapping) {
    || (exists i :: 0 <= i < |o.folders| && o.folders[i].id == m.serverId && o.folders[i].revision == m.serverRevision)
    || (exists i :: 0 <= i < |o.albums| && o.albums[i].id == m.serverId && o.albums[i].revision == m.serverRevision)
  }

  /** importSourceAlbumLocked: the albums after it and the album it wrote. */
  function ImportAlbum(o: Organisation, m: Mapping, op: SourceOp, parent: string,
                       id: string): Result<(seq<Album>, Album)>
  {
    var title := Trim(op.title);
    if !Presentable(title, op.position) then Err(AlbumInvalid) else
    match ValidateParent(o.folders, parent, "")
    case Some(e) => Err(e)
    case None =>
      var k := AlbumIndex(o.albums, m.serverId, 0);
      if k >= 0 then
        var a := o.albums[k];
        if a.revision != op.expectedRevision then Err(RevisionMismatch)
        else if a.revision == MAX_UINT64 then Err(RevisionOverflow)
        else
          var b := a.(title := title, parentId := parent, position := op.position, revision := a.revision + 1);
          Ok((o.albums[k := b], b))
      else if m.serverId != "" then Err(RevisionMismatch)
      else
        var b := Album("pa_" + id, 1, title, "", "", op.position, parent, []);
        Ok((o.albums + [b], b))
  }

  function AddedIds(files: seq<File>, assets: seq<string>, ids: seq<string>, n: nat): Result<seq<string>>
    requires n <= |ids|
  {
    if n == 0 then Ok(assets) else
    match AddedIds(files, assets, ids, n - 1)
    case Err(e) => Err(e)
    case Ok(sofar) =>
      if !MayJoin(files, ids[n - 1]) then Err(NotFound)
      else Ok(if ids[n - 1] in sofar then sofar else sofar + [ids[n - 1]])
  }

  /** importSourceMembersLocked */
  function ImportMembers(o: Organisation, files: seq<File>, m: Mapping, op: SourceOp): Result<(seq<Album>, Album)> {
    var k := AlbumIndex(o.albums, m.serverId, 0);
    if k < 0 then Err(RevisionMismatch) else
    var a := o.albums[k];
    if a.revision != op.expectedRevision then Err(RevisionMismatch)
    else if a.revision == MAX_UINT64 then Err(RevisionOverflow)
    else
      match AddedIds(files, a.assets, op.addIds, |op.addIds|)
      case Err(e) => Err(e)
      case Ok(assets) =>
        if |assets| > ALBUM_CAPACITY then Err(AlbumInvalid)
        else
          var b := a.(assets := assets, revision := a.revision + 1);
          Ok((o.albums[k := b], b))
  }

  function MappingFor(o: Organisation, key: string): Mapping {
    if key in o.sources then o.sources[key] else NO_MAPPING
  }

  /** What an operation wrote: new tables, server id and revision. */
  datatype Written = Written(folders: seq<Folder>, albums: seq<Album>, serverId: string, revision: uint64)

  function Write(o: Organisation, files: seq<File>, op: SourceOp, m: Mapping, mapped: bool, parent: string,
                 members: bool, id: string): Result<Written>
  {
    if op.deleted then
      if !mapped then Err(NotFound)
      else if !RevisionHeld(o, m) then Err(RevisionMismatch)
      else Ok(Written(o.folders, o.albums, m.serverId, m.serverRevision))
    else if members then
      if !mapped || op.kind != "album" then Err(NotFound) else
      match ImportMembers(o, files, m, op)
      case Err(e) => Err(e)
      case Ok(w) => Ok(Written(o.folders, w.0, m.serverId, w.1.revision))
    else if op.kind == "folder" then
      match MutateFolder(o.folders, Folder(m.serverId, parent, op.title, op.position, op.expectedRevision), "pc_" + id)
      case Err(e) => Err(e)
      case Ok(w) => Ok(Written(w.0, o.albums, w.1.id, w.1.revision))
    else if op.kind == "album" then
      match ImportAlbum(o, m, op, parent, id)
      case Err(e) => Err(e)
      case Ok(w) => Ok(Written(o.folders, w.0, w.1.id, w.1.revision))
    else Err(AlbumInvalid)
  }

  /** The parent's server id; a missing parent may still be imported. */
  function ParentOf(o: Organisation, device: string, op: SourceOp): Result<string> {
    if op.parentSourceId == "" then Ok("")
    else if ParentKey(device, op) !in o.sources then Err(SourceDependency)
    else if o.sources[ParentKey(device, op)].kind != "folder" then Err(AlbumInvalid)
    else Ok(o.sources[ParentKey(device, op)].serverId)
  }

  /** applySourceOperationLocked up to the save: None when the operation was
      recorded before, otherwise the organisation to save. */
  function ApplySource(o: Organisation, files: seq<File>, device: string, op: SourceOp, members: bool,
                       id: string): Result<(Receipt, Option<Organisation>)>
  {
    var digest, key, opKey := op.(members := members), KeyOf(device, op), OperationKey(device, op);
    if !WellSized(op) then Err(AlbumInvalid)
    else if opKey in o.operations then
      if o.operations[opKey].digest != digest then Err(SourceConflict) else Ok((o.operations[opKey], None))
    else
      var m := MappingFor(o, key);
      if key in o.sources && (m.kind != op.kind || m.serverRevision != op.expectedRevision) then Err(RevisionMismatch)
      else if key !in o.sources && op.expectedRevision != 0 then Err(RevisionMismatch)
      else
        match ParentOf(o, device, op)
        case Err(e) => Err(e)
        case Ok(parent) =>
          match Write(o, files, op, m, key in o.sources, parent, members, id)
          case Err(e) => Err(e)
          case Ok(w) =>
            var mapping := Mapping(device, op.namespace, op.sourceId, op.kind, w.serverId, op.sourceRevision,
                                   w.revision);
            var receipt := Receipt(digest, w.serverId, w.revision);
            Ok((receipt, Some(Organisation(w.folders, w.albums, o.sources[key := mapping],
                                           o.operations[opKey := receipt]))))
  }

  // ------------------------------------------------------- what one step keeps

  ghost predicate FreshServerId(o: Organisation, id: string) {
    && id != "" && (forall f :: f in o.folders ==> f.id != "pc_" + id)
    && (forall a :: a in o.albums ==> a.id != "pa_" + id)
  }

  ghost predicate NamedAlbums(albums: seq<Album>) {
    forall a :: a in albums ==> a.id != ""
  }

  /** What holds of folders and albums in every reachable tree. */
  ghost predicate SaneTables(folders: seq<Folder>, albums: seq<Album>) {
    Organised(folders, albums) && DistinctAlbums(albums) && NamedAlbums(albums)
  }

  ghost predicate Sane(o: Organisation) {
    SaneTables(o.folders, o.albums)
  }

  lemma {:induction false} AddedFree(files: seq<File>, assets: seq<string>, ids: seq<string>, n: nat)
    requires n <= |ids| && AddedIds(files, assets, ids, n).Ok?
    ensures forall x :: x in AddedIds(files, assets, ids, n).value ==> x in assets || MayJoin(files, x)
  {
    if n > 0 {
      AddedFree(files, assets, ids, n - 1);
    }
  }

  lemma MembersKeep(o: Organisation, files: seq<File>, m: Mapping, op: SourceOp)
    requires UniqueIds(files) && Sane(o) && ImportMembers(o, files, m, op).Ok?
    ensures var (albums, a) := ImportMembers(o, files, m, op).value;
            SaneTables(o.folders, albums) && StaysFree(files, o.albums, files, albums)
  {
    hide Forest, DistinctFolders, AddedIds, AlbumMember;
    var (albums, a) := ImportMembers(o, files, m, op).value;
    var k := AlbumIndex(o.albums, m.serverId, 0);
    AddedFree(files, o.albums[k].assets, op.addIds, |op.addIds|);
    if MotionFree(files, o.albums) {
      forall x, i | x in a.assets && 0 <= i < |files| && files[i].id == x ensures files[i].parentId == "" {
        if x !in o.albums[k].assets {
          JoinersAreFree(files, x, i);
        }
      }
    }
    assert forall i :: 0 <= i < |o.albums| ==> o.albums[i] in o.albums;
  }

  lemma AlbumKeeps(o: Organisation, files: seq<File>, m: Mapping, op: SourceOp, parent: string, id: string)
    requires Sane(o) && FreshServerId(o, id) && ImportAlbum(o, m, op, parent, id).Ok?
    ensures var (albums, a) := ImportAlbum(o, m, op, parent, id).value;
            SaneTables(o.folders, albums) && StaysFree(files, o.albums, files, albums)
  {
    hide Forest, DistinctFolders, Walk, Trim;
    var (albums, a) := ImportAlbum(o, m, op, parent, id).value;
    WalkFindsParent(o.folders, parent);
    assert forall i :: 0 <= i < |o.albums| ==> o.albums[i] in o.albums;
  }

  /** An applied operation keeps the forest, the attachments and the albums' members. */
  lemma ApplyKeeps(o: Organisation, files: seq<File>, device: string, op: SourceOp, members: bool, id: string)
    requires UniqueIds(files) && Sane(o) && FreshServerId(o, id)
    requires var r := ApplySource(o, files, device, op, members, id); r.Ok? && r.value.1.Some?
    ensures var next := ApplySource(o, files, device, op, members, id).value.1.value;
            && Sane(next) && StaysFree(files, o.albums, files, next.albums)
            && o.sources.Keys <= next.sources.Keys
            && next.operations == o.operations[OperationKey(device, op) :=
                                               ApplySource(o, files, device, op, members, id).value.0]
            && next.sources == o.sources[KeyOf(device, op) := next.sources[KeyOf(device, op)]]
            && next.sources[KeyOf(device, op)].namespace == op.namespace != ""
  {
    hide Sane, MutateFolder, ImportAlbum, ImportMembers, RevisionHeld, SourceKey, WellSized;
    SizedNamespace(op);
    var m := MappingFor(o, KeyOf(device, op));
    var parent := ParentOf(o, device, op).value;
    WriteKeeps(o, files, op, m, KeyOf(device, op) in o.sources, parent, members, id);
    var w := Write(o, files, op, m, KeyOf(device, op) in o.sources, parent, members, id).value;
    SaneIs(ApplySource(o, files, device, op, members, id).value.1.value, w);
  }

  lemma SizedNamespace(op: SourceOp)
    requires WellSized(op)
    ensures op.namespace != ""
  {
  }

  lemma SaneIs(o: Organisation, w: Written)
    requires o.folders == w.folders && o.albums == w.albums && SaneTables(w.folders, w.albums)
    ensures Sane(o)
  {
  }

  lemma WriteKeeps(o: Organisation, files: seq<File>, op: SourceOp, m: Mapping, mapped: bool, parent: string,
                   members: bool, id: string)
    requires UniqueIds(files) && Sane(o) && FreshServerId(o, id)
             && Write(o, files, op, m, mapped, parent, members, id).Ok?
    ensures var w := Write(o, files, op, m, mapped, parent, members, id).value;
            SaneTables(w.folders, w.albums) && StaysFree(files, o.albums, files, w.albums)
  {
    hide MutateFolder, ImportAlbum, ImportMembers, RevisionHeld, Organised, DistinctAlbums, MotionFree, FreshServerId;
    if !op.deleted {
      if members {
        MembersKeep(o, files, m, op);
      } else if op.kind == "folder" {
        var f := Folder(m.serverId, parent, op.title, op.position, op.expectedRevision);
        FreshFolder(o, id);
        MutateKeepsForest(o.folders, o.albums, f, "pc_" + id);
      } else if op.kind == "album" {
        AlbumKeeps(o, files, m, op, parent, id);
      }
    }
  }

  lemma FreshFolder(o: Organisation, id: string)
    requires FreshServerId(o, id)
    ensures FolderWith(o.folders, "pc_" + id).None? && "pc_" + id != ""
  {
    assert ("pc_" + id)[0] == 'p';
  }
}
