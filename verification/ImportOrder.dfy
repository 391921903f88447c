/** Why the order of a page of source operations does not matter. */
module ImportOrder {
  // From the state and the set of operations alone, the tree they build is
  // determined up to the ids the server issues.

  import opened Prelude
  import opened Entries
  import opened Collections
  import opened Albums
  import opened SourceImport

  predicate IsCreation(op: SourceOp) {
    && WellSized(op) && !op.deleted && (op.kind == "folder" || op.kind == "album") && op.expectedRevision == 0
    && Presentable(Trim(op.title), op.position)
  }

  /** A parent the state already maps, near enough to the root. */
  predicate HasOldParent(o: Organisation, device: string, op: SourceOp, rank: nat) {
    var key := ParentKey(device, op);
    key in o.sources && o.sources[key].kind == "folder" && Rooted(o.folders, o.sources[key].serverId, rank)
  }

  predicate IsParent(device: string, p: SourceOp, op: SourceOp) {
    p.kind == "folder" && KeyOf(device, p) == ParentKey(device, op)
  }

  predicate HasPageParent(device: string, ops: seq<SourceOp>, rank: seq<nat>, i: nat)
    requires i < |ops| == |rank|
  {
    exists j :: 0 <= j < |ops| && IsParent(device, ops[j], ops[i]) && rank[j] < rank[i]
  }

  /** A page of distinct, fresh, valid creations whose parents, in the state or in
      the page, stay within the depth bound; `rank` bounds each one's ancestors. */
  ghost predicate Page(o: Organisation, device: string, ops: seq<SourceOp>, rank: seq<nat>) {
    && |rank| == |ops|
    && (forall i :: 0 <= i < |ops| ==> IsCreation(ops[i]) && rank[i] <= MAXIMUM_DEPTH)
    && (forall i :: 0 <= i < |ops| ==> KeyOf(device, ops[i]) !in o.sources
                                       && OperationKey(device, ops[i]) !in o.operations)
    && (forall i, j :: 0 <= i < j < |ops| ==> KeyOf(device, ops[i]) != KeyOf(device, ops[j]))
    && (forall i, j :: 0 <= i < j < |ops| ==> OperationKey(device, ops[i]) != OperationKey(device, ops[j]))
    && (forall i :: 0 <= i < |ops| ==>
          ops[i].parentSourceId == "" || HasOldParent(o, device, ops[i], rank[i])
            || HasPageParent(device, ops, rank, i))
  }

  /** The server id an operation's parent has in a state. */
  function ParentServer(s: Organisation, device: string, op: SourceOp): string {
    if op.parentSourceId == "" then "" else MappingFor(s, ParentKey(device, op)).serverId
  }

  predicate ParentMapped(s: Organisation, device: string, op: SourceOp) {
    op.parentSourceId == "" || ParentKey(device, op) in s.sources
  }

  /** The operation's node is in the tree, under its parent, and mapped. */
  ghost predicate Placed(o: Organisation, s: Organisation, device: string, op: SourceOp, rank: nat) {
    var key := KeyOf(device, op);
    && key in s.sources && ParentMapped(s, device, op)
    && s.sources[key] == Mapping(device, op.namespace, op.sourceId, op.kind, s.sources[key].serverId,
                                 op.sourceRevision, 1)
    && var server := s.sources[key].serverId;
       if op.kind == "folder"
       then Rooted(s.folders, server, rank + 1)
            && exists x :: |o.folders| <= x < |s.folders|
                 && s.folders[x] == Folder(server, ParentServer(s, device, op), Trim(op.title), op.position, 1)
       else exists x :: |o.albums| <= x < |s.albums|
              && s.albums[x] == Album(server, 1, Trim(op.title), "", "", op.position, ParentServer(s, device, op), [])
  }

  /** Keys of the chosen operations of one kind. */
  function KeysOfKind(device: string, ops: seq<SourceOp>, done: set<int>, kind: string): set<string> {
    set i | i in done && 0 <= i < |ops| && ops[i].kind == kind :: KeyOf(device, ops[i])
  }

  ghost predicate Mapped(o: Organisation, device: string, ops: seq<SourceOp>, done: set<int>, s: Organisation) {
    && (forall k :: k in o.sources ==> k in s.sources && s.sources[k] == o.sources[k])
    && (forall k :: k in s.sources ==> k in o.sources || exists i ::
        i in done && 0 <= i < |ops| && KeyOf(device, ops[i]) == k)
    && (forall k :: k in s.operations ==> k in o.operations || exists i ::
        i in done && 0 <= i < |ops| && OperationKey(device, ops[i]) == k)
  }

  /** Exactly the chosen operations were added to the state, each in its place. */
  ghost predicate Built(o: Organisation, device: string, ops: seq<SourceOp>, rank: seq<nat>, done: set<int>,
                        s: Organisation)
    requires |rank| == |ops|
  {
    && o.folders <= s.folders && o.albums <= s.albums
    && Mapped(o, device, ops, done, s)
    && (forall i :: i in done ==> 0 <= i < |ops|)
    && (forall i :: i in done ==> Placed(o, s, device, ops[i], rank[i]))
    && |s.folders| == |o.folders| + |KeysOfKind(device, ops, done, "folder")|
    && |s.albums| == |o.albums| + |KeysOfKind(device, ops, done, "album")|
  }

  // ----------------------------------------------------------- growing forests

  lemma {:induction false} FoundInPrefix(folders: seq<Folder>, more: seq<Folder>, id: string)
    requires folders <= more && FolderWith(folders, id).Some?
    ensures FolderWith(more, id) == FolderWith(folders, id)
  {
    if folders[0].id != id {
      FoundInPrefix(folders[1..], more[1..], id);
    }
  }

  lemma {:induction false} RootedInPrefix(folders: seq<Folder>, more: seq<Folder>, parent: string, n: nat)
    requires folders <= more && Rooted(folders, parent, n)
    ensures Rooted(more, parent, n)
    decreases n
  {
    if parent != "" {
      FoundInPrefix(folders, more, parent);
      RootedInPrefix(folders, more, FolderWith(folders, parent).value.parentId, n - 1);
    }
  }

  lemma {:induction false} FoundLast(folders: seq<Folder>, g: Folder)
    requires forall f :: f in folders ==> f.id != g.id
    ensures FolderWith(folders + [g], g.id) == Some(g)
  {
    if folders != [] {
      assert (folders + [g])[1..] == folders[1..] + [g];
      FoundLast(folders[1..], g);
    }
  }

  // ------------------------------------------------------------ a node is added

  /** The parent of the next operation is a folder, rooted within its rank. */
  lemma ParentReady(o: Organisation, device: string, ops: seq<SourceOp>, rank: seq<nat>, done: set<int>,
                    s: Organisation, i: int)
    requires |rank| == |ops| && Page(o, device, ops, rank) && Built(o, device, ops, rank, done, s) && 0 <= i < |ops|
             && ParentMapped(s, device, ops[i])
    ensures ParentOf(s, device, ops[i]) == Ok(ParentServer(s, device, ops[i]))
    ensures Rooted(s.folders, ParentServer(s, device, ops[i]), rank[i])
  {
    hide Page, Built, KeyOf, ParentKey, Rooted, Placed;
    var op := ops[i];
    if op.parentSourceId != "" {
      var key := ParentKey(device, op);
      if key in o.sources {
        OldParentKept(o, device, ops, rank, done, s, i);
        RootedInPrefix(o.folders, s.folders, o.sources[key].serverId, rank[i]);
      } else {
        var j := ParentInPage(o, device, ops, rank, done, s, i);
        PlacedFolder(o, s, device, ops[j], rank[j]);
        RootedMore(s.folders, s.sources[key].serverId, rank[j] + 1, rank[i]);
      }
    } else {
      RootIsRooted(s.folders, rank[i]);
    }
  }

  lemma OldParentKept(o: Organisation, device: string, ops: seq<SourceOp>, rank: seq<nat>, done: set<int>,
                      s: Organisation, i: int)
    requires Page(o, device, ops, rank) && Built(o, device, ops, rank, done, s) && 0 <= i < |ops|
    requires ops[i].parentSourceId != "" && ParentKey(device, ops[i]) in o.sources
    ensures HasOldParent(o, device, ops[i], rank[i]) && o.folders <= s.folders
    ensures var key := ParentKey(device, ops[i]); key in s.sources && s.sources[key] == o.sources[key]
  {
    hide IsCreation, KeyOf, ParentKey, Rooted, Placed, KeysOfKind;
  }

  lemma RootIsRooted(folders: seq<Folder>, n: nat)
    ensures Rooted(folders, "", n)
  {
  }

  lemma PlacedFolder(o: Organisation, s: Organisation, device: string, op: SourceOp, rank: nat)
    requires Placed(o, s, device, op, rank) && op.kind == "folder"
    ensures KeyOf(device, op) in s.sources
    ensures s.sources[KeyOf(device, op)].kind == "folder"
    ensures Rooted(s.folders, s.sources[KeyOf(device, op)].serverId, rank + 1)
  {
  }

  lemma ParentInPage(o: Organisation, device: string, ops: seq<SourceOp>, rank: seq<nat>, done: set<int>,
                     s: Organisation, i: int)
    returns (j: int)
    requires Page(o, device, ops, rank) && Built(o, device, ops, rank, done, s) && 0 <= i < |ops|
    requires ops[i].parentSourceId != "" && ParentKey(device, ops[i]) in s.sources
             && ParentKey(device, ops[i]) !in o.sources
    ensures 0 <= j < |ops| && IsParent(device, ops[j], ops[i]) && rank[j] < rank[i]
    ensures Placed(o, s, device, ops[j], rank[j])
  {
    hide IsCreation, KeyOf, ParentKey, Rooted, Placed, KeysOfKind;
    j :| 0 <= j < |ops| && IsParent(device, ops[j], ops[i]) && rank[j] < rank[i];
    var k :| k in done && 0 <= k < |ops| && KeyOf(device, ops[k]) == ParentKey(device, ops[i]);
    assert k == j;
  }

  /** A creation whose parent is ready is accepted. */
  lemma FolderCreated(folders: seq<Folder>, albums: seq<Album>, f: Folder, id: string, n: nat)
    requires Organised(folders, albums) && f.id == "" && Presentable(Trim(f.title), f.position)
    requires FolderWith(folders, id).None? && id != "" && n <= MAXIMUM_DEPTH && Rooted(folders, f.parentId, n)
    ensures var g := f.(id := id, revision := 1, title := Trim(f.title));
            MutateFolder(folders, f, id) == Ok((folders + [g], g)) && Rooted(folders + [g], id, n + 1)
  {
    hide Walk, Trim, Rooted;
    var g := f.(id := id, revision := 1, title := Trim(f.title));
    var next := folders + [g];
    ParentValid(folders, f.parentId, n);
    FoundLast(folders, g);
    forall x | x in next ensures Rooted(next, x.parentId, MAXIMUM_DEPTH) {
      if x in folders {
        RootedInPrefix(folders, next, x.parentId, MAXIMUM_DEPTH);
      } else {
        RootedInPrefix(folders, next, x.parentId, n);
        RootedMore(next, x.parentId, n, MAXIMUM_DEPTH);
      }
    }
    WalksDecideForest(next);
    RootedInPrefix(folders, next, f.parentId, n);
    RootedOne(next, g, n);
  }

  lemma RootedOne(folders: seq<Folder>, g: Folder, n: nat)
    requires FolderWith(folders, g.id) == Some(g) && Rooted(folders, g.parentId, n)
    ensures Rooted(folders, g.id, n + 1)
  {
  }

  lemma ParentValid(folders: seq<Folder>, parent: string, n: nat)
    requires Rooted(folders, parent, n) && n <= MAXIMUM_DEPTH
    ensures ValidateParent(folders, parent, "").None?
  {
    RootedMore(folders, parent, n, MAXIMUM_DEPTH);
    WalkComplete(folders, parent, {""}, 0);
  }

  /** The state after one more operation. */
  ghost predicate Adds(o: Organisation, s: Organisation, device: string, op: SourceOp, rank: nat, next: Organisation) {
    var key := KeyOf(device, op);
    && key !in s.sources && next.sources.Keys == s.sources.Keys + {key}
    && (forall k :: k in s.sources ==> next.sources[k] == s.sources[k])
    && next.operations.Keys == s.operations.Keys + {OperationKey(device, op)}
    && Placed(o, next, device, op, rank)
    && (if op.kind == "folder" then |next.folders| == |s.folders| + 1 && s.folders <= next.folders
                                    && next.albums == s.albums
        else |next.albums| == |s.albums| + 1 && s.albums <= next.albums && next.folders == s.folders)
  }

  lemma CreationAdds(o: Organisation, files: seq<File>, device: string, op: SourceOp, rank: nat, s: Organisation,
                     id: string)
    requires Sane(s) && FreshServerId(s, id) && IsCreation(op) && rank <= MAXIMUM_DEPTH
    requires KeyOf(device, op) !in s.sources && OperationKey(device, op) !in s.operations
    requires ParentMapped(s, device, op) && ParentOf(s, device, op) == Ok(ParentServer(s, device, op))
    requires Rooted(s.folders, ParentServer(s, device, op), rank)
    requires |o.folders| <= |s.folders| && |o.albums| <= |s.albums|
    ensures var r := ApplySource(s, files, device, op, false, id);
            r.Ok? && r.value.1.Some? && Adds(o, s, device, op, rank, r.value.1.value)
  {
    hide Trim, Walk, SourceKey, Rooted, Forest, MutateFolder, ImportAlbum;
    var parent := ParentServer(s, device, op);
    FreshFolder(s, id);
    if op.kind == "folder" {
      FolderCreated(s.folders, s.albums, Folder("", parent, op.title, op.position, 0), "pc_" + id, rank);
      var next := ApplySource(s, files, device, op, false, id).value.1.value;
      assert next.folders[|s.folders|] == Folder("pc_" + id, parent, Trim(op.title), op.position, 1);
      SameParent(s, next, device, op);
    } else {
      AlbumCreated(s, op, parent, id, rank);
      var next := ApplySource(s, files, device, op, false, id).value.1.value;
      assert next.albums[|s.albums|] == Album("pa_" + id, 1, Trim(op.title), "", "", op.position, parent, []);
      SameParent(s, next, device, op);
    }
  }

  lemma AlbumCreated(s: Organisation, op: SourceOp, parent: string, id: string, rank: nat)
    requires NamedAlbums(s.albums) && IsCreation(op) && rank <= MAXIMUM_DEPTH && Rooted(s.folders, parent, rank)
    ensures var a := Album("pa_" + id, 1, Trim(op.title), "", "", op.position, parent, []);
            ImportAlbum(s, NO_MAPPING, op, parent, id) == Ok((s.albums + [a], a))
  {
    hide Trim, Walk;
    ParentValid(s.folders, parent, rank);
    assert forall i :: 0 <= i < |s.albums| ==> s.albums[i] in s.albums;
  }

  lemma SameParent(s: Organisation, next: Organisation, device: string, op: SourceOp)
    requires ParentMapped(s, device, op) && KeyOf(device, op) !in s.sources
    requires next.sources.Keys == s.sources.Keys + {KeyOf(device, op)}
    requires forall k :: k in s.sources ==> next.sources[k] == s.sources[k]
    ensures ParentMapped(next, device, op) && ParentServer(next, device, op) == ParentServer(s, device, op)
  {
  }

  lemma PlacedLater(o: Organisation, s: Organisation, next: Organisation, device: string, op: SourceOp, rank: nat)
    requires Placed(o, s, device, op, rank) && s.folders <= next.folders && s.albums <= next.albums
    requires forall k :: k in s.sources ==> k in next.sources && next.sources[k] == s.sources[k]
    ensures Placed(o, next, device, op, rank)
  {
    hide Trim, SourceKey, Rooted;
    var server := s.sources[KeyOf(device, op)].serverId;
    assert ParentServer(next, device, op) == ParentServer(s, device, op);
    if op.kind == "folder" {
      RootedInPrefix(s.folders, next.folders, server, rank + 1);
      var x :| |o.folders| <= x < |s.folders|
        && s.folders[x] == Folder(server, ParentServer(s, device, op), Trim(op.title), op.position, 1);
      assert next.folders[x] == s.folders[x];
    } else {
      var x :| |o.albums| <= x < |s.albums|
        && s.albums[x] == Album(server, 1, Trim(op.title), "", "", op.position, ParentServer(s, device, op), []);
      assert next.albums[x] == s.albums[x];
    }
  }

  lemma KindsGrow(device: string, ops: seq<SourceOp>, done: set<int>, i: int, kind: string)
    requires 0 <= i < |ops| && i !in done
    requires forall a, b :: 0 <= a < b < |ops| ==> KeyOf(device, ops[a]) != KeyOf(device, ops[b])
    ensures |KeysOfKind(device, ops, done + {i}, kind)| == |KeysOfKind(device, ops, done, kind)| +
              (if ops[i].kind == kind then 1 else 0)
  {
    hide KeyOf;
    var before, after := KeysOfKind(device, ops, done, kind), KeysOfKind(device, ops, done + {i}, kind);
    if ops[i].kind == kind {
      assert after == before + {KeyOf(device, ops[i])};
      assert KeyOf(device, ops[i]) !in before;
    } else {
      assert after == before;
    }
  }

  /** The induction step: whichever operation comes next, if its parent is mapped
      it is applied, and the built set grows by exactly that operation. */
  lemma NextIsBuilt(o: Organisation, files: seq<File>, device: string, ops: seq<SourceOp>, rank: seq<nat>,
                    done: set<int>,
                    s: Organisation, i: int, id: string)
    requires Page(o, device, ops, rank) && Built(o, device, ops, rank, done, s) && Sane(s) && FreshServerId(s, id)
    requires 0 <= i < |ops| && i !in done && ParentMapped(s, device, ops[i])
    ensures var r := ApplySource(s, files, device, ops[i], false, id);
            r.Ok? && r.value.1.Some? && Built(o, device, ops, rank, done + {i}, r.value.1.value)
  {
    hide ApplySource, Sane, FreshServerId, IsCreation, ParentMapped, ParentOf, ParentServer, Rooted, HasPageParent;
    hide HasOldParent, Placed, KeysOfKind, KeyOf, OperationKey;
    ParentReady(o, device, ops, rank, done, s, i);
    NotYetMapped(o, device, ops, rank, done, s, i);
    CreationAdds(o, files, device, ops[i], rank[i], s, id);
    var next := ApplySource(s, files, device, ops[i], false, id).value.1.value;
    KindsGrow(device, ops, done, i, "folder");
    KindsGrow(device, ops, done, i, "album");
    forall k | k in done + {i} ensures Placed(o, next, device, ops[k], rank[k]) {
      if k in done {
        PlacedLater(o, s, next, device, ops[k], rank[k]);
      }
    }
    KindIs(ops[i]);
    MappedGrows(o, device, ops, rank[i], done, s, i, next);
  }

  lemma KindIs(op: SourceOp)
    requires IsCreation(op)
    ensures op.kind == "folder" || op.kind == "album"
    ensures "folder" != "album"
  {
    assert "folder"[0] != "album"[0];
  }

  lemma NotYetMapped(o: Organisation, device: string, ops: seq<SourceOp>, rank: seq<nat>, done: set<int>,
                     s: Organisation, i: int)
    requires Page(o, device, ops, rank) && Built(o, device, ops, rank, done, s) && 0 <= i < |ops| && i !in done
    ensures KeyOf(device, ops[i]) !in s.sources && OperationKey(device, ops[i]) !in s.operations
  {
    hide IsCreation, HasPageParent, HasOldParent, Placed, KeysOfKind, KeyOf, OperationKey;
  }

  lemma MappedGrows(o: Organisation, device: string, ops: seq<SourceOp>, rank: nat, done: set<int>, s: Organisation,
                    i: int, next: Organisation)
    requires Mapped(o, device, ops, done, s) && 0 <= i < |ops| && Adds(o, s, device, ops[i], rank, next)
    ensures Mapped(o, device, ops, done + {i}, next)
  {
    hide KeyOf, OperationKey, Placed;
    forall k | k in next.sources
      ensures k in o.sources || exists x :: x in done + {i} && 0 <= x < |ops| && KeyOf(device, ops[x]) == k
    {
      if k in s.sources && k !in o.sources {
        var x :| x in done && 0 <= x < |ops| && KeyOf(device, ops[x]) == k;
        assert x in done + {i};
      } else if k !in o.sources {
        assert i in done + {i};
      }
    }
    forall k | k in next.operations
      ensures k in o.operations || exists x :: x in done + {i} && 0 <= x < |ops| && OperationKey(device, ops[x]) == k
    {
      if k in s.operations && k !in o.operations {
        var x :| x in done && 0 <= x < |ops| && OperationKey(device, ops[x]) == k;
        assert x in done + {i};
      } else if k !in o.operations {
        assert i in done + {i};
      }
    }
  }

  /** Nothing of such a page can stay blocked. */
  lemma {:induction false} NoneBlocked(o: Organisation, device: string, ops: seq<SourceOp>, rank: seq<nat>,
                                       done: set<int>, s: Organisation, i: int)
    requires Page(o, device, ops, rank) && Built(o, device, ops, rank, done, s)
    requires forall k :: 0 <= k < |ops| && k !in done ==> !ParentMapped(s, device, ops[k])
    requires 0 <= i < |ops|
    ensures i in done
    decreases rank[i]
  {
    hide IsCreation, Placed, KeysOfKind, KeyOf, OperationKey, ParentKey;
    if i !in done && !HasOldParent(o, device, ops[i], rank[i]) {
      var j :| 0 <= j < |ops| && IsParent(device, ops[j], ops[i]) && rank[j] < rank[i];
      NoneBlocked(o, device, ops, rank, done, s, j);
      PlacedIsMapped(o, s, device, ops[j], rank[j]);
    }
  }

  lemma PlacedIsMapped(o: Organisation, s: Organisation, device: string, op: SourceOp, rank: nat)
    requires Placed(o, s, device, op, rank)
    ensures KeyOf(device, op) in s.sources
  {
  }

  // ------------------------------------------------------- order independence

  function All(ops: seq<SourceOp>): (s: set<int>)
    ensures forall i :: i in s <==> 0 <= i < |ops|
  {
    if ops == [] then {} else All(ops[..|ops| - 1]) + {|ops| - 1}
  }

  predicate FolderTwins(f: Folder, g: Folder, pf: string, pg: string) {
    f.parentId == pf && g.parentId == pg && f.(id := "", parentId := "") == g.(id := "", parentId := "")
  }

  predicate AlbumTwins(a: Album, b: Album, pa: string, pb: string) {
    a.parentId == pa && b.parentId == pb && a.(id := "", parentId := "") == b.(id := "", parentId := "")
  }

  /** One operation's node in two states: the same but for issued ids, and under
      the same parent in each. */
  ghost predicate SameNode(o: Organisation, device: string, op: SourceOp, a: Organisation, b: Organisation) {
    var key := KeyOf(device, op);
    && key in a.sources && key in b.sources
    && a.sources[key].(serverId := "") == b.sources[key].(serverId := "")
    && var (pa, pb) := (ParentServer(a, device, op), ParentServer(b, device, op));
       if op.kind == "folder"
       then exists x, y :: |o.folders| <= x < |a.folders| && |o.folders| <= y < |b.folders|
              && a.folders[x].id == a.sources[key].serverId && b.folders[y].id == b.sources[key].serverId
              && FolderTwins(a.folders[x], b.folders[y], pa, pb)
       else exists x, y :: |o.albums| <= x < |a.albums| && |o.albums| <= y < |b.albums|
              && a.albums[x].id == a.sources[key].serverId && b.albums[y].id == b.sources[key].serverId
              && AlbumTwins(a.albums[x], b.albums[y], pa, pb)
  }

  lemma NodesAgree(o: Organisation, device: string, op: SourceOp, r: nat, q: nat, a: Organisation, b: Organisation)
    requires Placed(o, a, device, op, r) && Placed(o, b, device, op, q)
    ensures SameNode(o, device, op, a, b)
  {
    hide Trim, SourceKey, Rooted;
    var key := KeyOf(device, op);
    var ida, idb := a.sources[key].serverId, b.sources[key].serverId;
    var pa, pb := ParentServer(a, device, op), ParentServer(b, device, op);
    if op.kind == "folder" {
      var x :| |o.folders| <= x < |a.folders| && a.folders[x] == Folder(ida, pa, Trim(op.title), op.position, 1);
      var y :| |o.folders| <= y < |b.folders| && b.folders[y] == Folder(idb, pb, Trim(op.title), op.position, 1);
      assert FolderTwins(a.folders[x], b.folders[y], pa, pb);
    } else {
      var x :| |o.albums| <= x < |a.albums| && a.albums[x] ==
          Album(ida, 1, Trim(op.title), "", "", op.position, pa, []);
      var y :| |o.albums| <= y < |b.albums| && b.albums[y] ==
          Album(idb, 1, Trim(op.title), "", "", op.position, pb, []);
      assert AlbumTwins(a.albums[x], b.albums[y], pa, pb);
    }
  }

  /** Two orders of the same operations, both fully applied from the same state,
      add the same nodes, no more and no less. */
  lemma OrderIrrelevant(o: Organisation, device: string, ops: seq<SourceOp>, rank: seq<nat>, a: Organisation,
                        shuffled: seq<SourceOp>, ranks: seq<nat>, b: Organisation)
    requires |ops| == |rank| && |shuffled| == |ranks| && forall op :: op in ops <==> op in shuffled
    requires Built(o, device, ops, rank, All(ops), a) && Built(o, device, shuffled, ranks, All(shuffled), b)
    ensures a.sources.Keys == b.sources.Keys && |a.folders| == |b.folders| && |a.albums| == |b.albums|
    ensures forall op :: op in ops ==> SameNode(o, device, op, a, b)
    ensures forall k :: k in o.sources ==> a.sources[k] == b.sources[k] == o.sources[k]
  {
    hide Placed, KeyOf, OperationKey, SameNode;
    SameKinds(device, ops, shuffled, "folder");
    SameKinds(device, ops, shuffled, "album");
    forall op | op in ops ensures SameNode(o, device, op, a, b) && KeyOf(device, op) in a.sources
      && KeyOf(device, op) in b.sources {
      var i :| 0 <= i < |ops| && ops[i] == op;
      var j :| 0 <= j < |shuffled| && shuffled[j] == op;
      assert i in All(ops) && j in All(shuffled);
      assert Placed(o, a, device, ops[i], rank[i]) && Placed(o, b, device, shuffled[j], ranks[j]);
      NodesAgree(o, device, op, rank[i], ranks[j], a, b);
      PlacedIsMapped(o, a, device, op, rank[i]);
      PlacedIsMapped(o, b, device, op, ranks[j]);
    }
    forall k ensures k in a.sources <==> k in b.sources {
      if k in a.sources && k !in o.sources {
        var i :| i in All(ops) && 0 <= i < |ops| && KeyOf(device, ops[i]) == k;
        assert ops[i] in ops;
      }
      if k in b.sources && k !in o.sources {
        var j :| j in All(shuffled) && 0 <= j < |shuffled| && KeyOf(device, shuffled[j]) == k;
        assert shuffled[j] in shuffled;
      }
    }
  }

  lemma SameKinds(device: string, ops: seq<SourceOp>, shuffled: seq<SourceOp>, kind: string)
    requires forall op :: op in ops <==> op in shuffled
    ensures KeysOfKind(device, ops, All(ops), kind) == KeysOfKind(device, shuffled, All(shuffled), kind)
  {
    hide KeyOf;
    forall k ensures k in KeysOfKind(device, ops, All(ops), kind) <==>
        k in KeysOfKind(device, shuffled, All(shuffled), kind) {
      if k in KeysOfKind(device, ops, All(ops), kind) {
        var i :| i in All(ops) && 0 <= i < |ops| && ops[i].kind == kind && KeyOf(device, ops[i]) == k;
        assert ops[i] in ops;
        var j :| 0 <= j < |shuffled| && shuffled[j] == ops[i];
        assert j in All(shuffled);
      }
      if k in KeysOfKind(device, shuffled, All(shuffled), kind) {
        var j :| j in All(shuffled) && 0 <= j < |shuffled| && shuffled[j].kind == kind
          && KeyOf(device, shuffled[j]) == k;
        assert shuffled[j] in shuffled;
        var i :| 0 <= i < |ops| && ops[i] == shuffled[j];
        assert i in All(ops);
      }
    }
  }
}
