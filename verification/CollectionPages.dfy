/** Paging through the collection tree at one journal position. */
module CollectionPages {
  import opened Prelude
  import opened Entries
  import opened Journals
  import opened Sync
  import opened Pages
  import opened Catalogs

  datatype Node = FolderNode(folder: Folder) | AlbumNode(album: Album)

  function NodeId(n: Node): string {
    if n.FolderNode? then n.folder.id else n.album.id
  }

  /** An album's node leaves out its members and cover. */
  function AlbumRow(a: Album): Node {
    AlbumNode(a.(assets := [], coverId := ""))
  }

  function Nodes(folders: seq<Folder>, albums: seq<Album>): set<Node> {
    (set f | f in folders :: FolderNode(f)) + (set a | a in albums :: AlbumRow(a))
  }

  function NodeIds(folders: seq<Folder>, albums: seq<Album>): set<string> {
    set n | n in Nodes(folders, albums) :: NodeId(n)
  }

  ghost predicate SortedNodes(nodes: seq<Node>) {
    forall i, j :: 0 <= i < j < |nodes| ==> Less(NodeId(nodes[i]), NodeId(nodes[j]))
  }

  /** Folder ids and album ids never meet: they carry different prefixes. */
  ghost predicate DistinctNodes(folders: seq<Folder>, albums: seq<Album>) {
    && (forall i, j :: 0 <= i < j < |folders| ==> folders[i].id != folders[j].id)
    && (forall i, j :: 0 <= i < j < |albums| ==> albums[i].id != albums[j].id)
    && (forall i, j :: 0 <= i < |folders| && 0 <= j < |albums| ==> folders[i].id != albums[j].id)
  }

  method InsertNode(nodes: seq<Node>, n: Node) returns (r: seq<Node>)
    requires SortedNodes(nodes) && forall x :: x in nodes ==> NodeId(x) != NodeId(n)
    ensures SortedNodes(r) && forall x :: x in r <==> x in nodes || x == n
  {
    hide Less, NodeId;
    var i := |nodes|;
    while i > 0 && Less(NodeId(n), NodeId(nodes[i - 1]))
      invariant 0 <= i <= |nodes|
      invariant forall k :: i <= k < |nodes| ==> Less(NodeId(n), NodeId(nodes[k]))
    {
      i := i - 1;
    }
    forall k | 0 <= k < i ensures Less(NodeId(nodes[k]), NodeId(n)) {
      LessTotal(NodeId(nodes[k]), NodeId(n));
      if k < i - 1 && Less(NodeId(n), NodeId(nodes[k])) {
        LessTransitive(NodeId(n), NodeId(nodes[k]), NodeId(nodes[i - 1]));
      }
    }
    r := nodes[..i] + [n] + nodes[i..];
    assert nodes == nodes[..i] + nodes[i..];
  }

  /** All nodes in id order. */
  method CollectNodes(folders: seq<Folder>, albums: seq<Album>) returns (nodes: seq<Node>)
    requires DistinctNodes(folders, albums)
    ensures SortedNodes(nodes) && forall n :: n in nodes <==> n in Nodes(folders, albums)
  {
    hide SortedNodes;
    nodes := [];
    EmptySorted();
    for i := 0 to |folders|
      invariant SortedNodes(nodes)
      invariant forall n :: n in nodes <==> exists k :: 0 <= k < i && n == FolderNode(folders[k])
    {
      nodes := InsertNode(nodes, FolderNode(folders[i]));
    }
    for i := 0 to |albums|
      invariant SortedNodes(nodes)
      invariant forall n :: n in nodes <==>
        (exists k :: 0 <= k < |folders| && n == FolderNode(folders[k]))
          || (exists k :: 0 <= k < i && n == AlbumRow(albums[k]))
    {
      nodes := InsertNode(nodes, AlbumRow(albums[i]));
    }
  }

  lemma EmptySorted()
    ensures SortedNodes([])
  {
  }

  /** sort.Search for the first id beyond the cursor. */
  method FirstBeyond(nodes: seq<Node>, after: string) returns (start: nat)
    requires SortedNodes(nodes)
    ensures start <= |nodes|
    ensures forall k :: 0 <= k < start ==> !Less(after, NodeId(nodes[k]))
    ensures forall k :: start <= k < |nodes| ==> Less(after, NodeId(nodes[k]))
  {
    hide Less, NodeId;
    var low, high := 0, |nodes|;
    while low < high
      invariant 0 <= low <= high <= |nodes|
      invariant forall k :: 0 <= k < low ==> !Less(after, NodeId(nodes[k]))
      invariant forall k :: high <= k < |nodes| ==> Less(after, NodeId(nodes[k]))
    {
      var mid := (low + high) / 2;
      if Less(after, NodeId(nodes[mid])) {
        forall k | mid <= k < |nodes| ensures Less(after, NodeId(nodes[k])) {
          if mid < k {
            LessTransitive(after, NodeId(nodes[mid]), NodeId(nodes[k]));
          }
        }
        high := mid;
      } else {
        forall k | 0 <= k <= mid ensures !Less(after, NodeId(nodes[k])) {
          if k < mid && Less(after, NodeId(nodes[k])) {
            LessTransitive(after, NodeId(nodes[k]), NodeId(nodes[mid]));
          }
        }
        low := mid + 1;
      }
    }
    start := low;
  }

  function IdsOf(nodes: seq<Node>): (ids: seq<string>)
    ensures |ids| == |nodes| && forall i :: 0 <= i < |nodes| ==> ids[i] == NodeId(nodes[i])
  {
    seq(|nodes|, i requires 0 <= i < |nodes| => NodeId(nodes[i]))
  }

  datatype Page = Page(position: Position, nodes: seq<Node>, next: string, more: bool)

  /** A page read from this tree at this journal. */
  ghost predicate IsCollectionPage(s: State, after: string, limit: int, p: Page) {
    && p.position == PositionOf(s.journal)
    && (forall n :: n in p.nodes ==> n in Nodes(s.tree.folders, s.tree.albums))
    && IsKeyPage(NodeIds(s.tree.folders, s.tree.albums), after, Clamp(limit), IdsOf(p.nodes), p.more)
    && (p.more ==> |p.nodes| > 0 && p.next == NodeId(p.nodes[|p.nodes| - 1]))
  }

  lemma SliceIsPage(folders: seq<Folder>, albums: seq<Album>, nodes: seq<Node>, after: string, limit: nat, start: nat,
                    end: nat)
    requires SortedNodes(nodes) && (forall n :: n in nodes <==> n in Nodes(folders, albums))
    requires start <= |nodes| && end == Min(start + limit, |nodes|) && limit > 0
    requires forall k :: 0 <= k < start ==> !Less(after, NodeId(nodes[k]))
    requires forall k :: start <= k < |nodes| ==> Less(after, NodeId(nodes[k]))
    ensures IsKeyPage(NodeIds(folders, albums), after, limit, IdsOf(nodes[start..end]), end < |nodes|)
  {
    hide Less, NodeId, Nodes;
    var ids := IdsOf(nodes);
    assert IdsOf(nodes[start..end]) == ids[start..end];
    forall k ensures k in NodeIds(folders, albums) <==> k in ids {
      if k in NodeIds(folders, albums) {
        var n :| n in Nodes(folders, albums) && NodeId(n) == k;
        assert n in nodes;
        var i :| 0 <= i < |nodes| && nodes[i] == n;
        assert ids[i] == k;
      }
      if k in ids {
        var i :| 0 <= i < |ids| && ids[i] == k;
        assert nodes[i] in nodes;
      }
    }
    SliceIsKeyPage(NodeIds(folders, albums), ids, after, limit, start, end);
  }

  /** CollectionPage: a position that is not exactly the current one is refused. */
  method CollectionPage(c: Catalog, after: string, position: Option<Position>, limit: int, disk: Disk)
    returns (r: Result<Page>)
    requires c.Valid() && DistinctNodes(c.folders, c.albums)
    modifies c
    ensures c.Valid() && c.View() == old(c.View())
    ensures old(c.journal).epoch != "" ==> c.Current() == old(c.Current())
    ensures r.Ok? ==> IsCollectionPage(c.Current(), after, limit, r.value)
    ensures r.Ok? && position.Some? ==> r.value.position == position.value
    ensures r == Err(SyncExpired) ==> position.Some? && position.value != PositionOf(c.journal)
    ensures old(c.journal).epoch != "" && position.Some? && position.value != PositionOf(c.journal) ==>
              r == Err(SyncExpired)
    ensures r.Err? && r.error != SyncExpired ==>
              old(c.journal).epoch == "" && SaveRefused(old(c.Current()), old(c.View()), disk.writes, r.error)
  {
    hide Less, SortedNodes, Nodes, NodeIds, Commits, SaveRefused, IsKeyPage;
    ghost var before := c.Current();
    var read := c.SyncPosition(disk);
    if read.Err? {
      NoPosition(before, disk.writes, c.Current(), read);
      return Err(read.error);
    }
    assert c.View() == before.tree by {
      SavedSame(before, disk.writes, c.Current(), read);
    }
    if position.Some? && position.value != PositionOf(c.journal) {
      return Err(SyncExpired);
    }
    var nodes := CollectNodes(c.folders, c.albums);
    var start := FirstBeyond(nodes, after);
    var end := Min(start + Clamp(limit), |nodes|);
    SliceIsPage(c.folders, c.albums, nodes, after, Clamp(limit), start, end);
    var more := end < |nodes|;
    r := Ok(Page(PositionOf(c.journal), nodes[start..end], if more then NodeId(nodes[end - 1]) else "", more));
  }

  /** The first position could not be saved. */
  lemma NoPosition(before: State, writes: bool, after: State, read: Result<Position>)
    requires read.Err? && Transacts(before, Ok(before.tree), writes, after, Some(read.error))
    ensures after == before && SaveRefused(before, before.tree, writes, read.error) && read.error != SyncExpired
  {
  }

  lemma SavedSame(before: State, writes: bool, after: State, read: Result<Position>)
    requires after == before || Transacts(before, Ok(before.tree), writes, after, if read.Ok? then None
                                          else Some(read.error))
    ensures after.tree == before.tree
    ensures read.Err? ==> after == before
  {
  }

  // ------------------------------------------------------- one position, one tree

  lemma MirrorFolders(t: Tree, u: Tree, f: Folder)
    requires WellFormed(t) && WellFormed(u) && MirrorOf(t) == MirrorOf(u) && f in t.folders
    ensures f in u.folders
  {
    var rows, others := FolderRows(t.folders), FolderRows(u.folders);
    var i :| 0 <= i < |t.folders| && t.folders[i] == f;
    OverlayAt(map[], rows, i);
    OverlayKeys(map[], others, f.id);
    var j :| 0 <= j < |others| && others[j].0 == f.id;
    OverlayAt(map[], others, j);
    assert u.folders[j] == f;
  }

  lemma MirrorAlbums(t: Tree, u: Tree, a: Album)
    requires WellFormed(t) && WellFormed(u) && MirrorOf(t) == MirrorOf(u) && a in t.albums
    ensures a in u.albums
  {
    var rows, others := AlbumRows(t.albums), AlbumRows(u.albums);
    var i :| 0 <= i < |t.albums| && t.albums[i] == a;
    OverlayAt(map[], rows, i);
    OverlayKeys(map[], others, a.id);
    var j :| 0 <= j < |others| && others[j].0 == a.id;
    OverlayAt(map[], others, j);
    assert u.albums[j] == a;
  }

  /** Two states of one run with the same journal position have the same nodes. */
  lemma SamePositionSameTree(run: seq<Server>, i: nat, k: nat)
    requires IsServerRun(run) && i <= k < |run| && Journals.Valid(run[0].journal)
    requires PositionOf(run[i].journal) == PositionOf(run[k].journal)
    ensures MirrorOf(run[i].tree) == MirrorOf(run[k].tree)
    ensures Nodes(run[i].tree.folders, run[i].tree.albums) == Nodes(run[k].tree.folders, run[k].tree.albums)
  {
    hide WellFormed, MirrorOf;
    RunLeads(run, i, k);
    assert History(run[k].journal.hash)[run[i].journal.sequence..] == [];
    var t, u := run[i].tree, run[k].tree;
    forall f ensures f in t.folders <==> f in u.folders {
      if f in t.folders {
        MirrorFolders(t, u, f);
      }
      if f in u.folders {
        MirrorFolders(u, t, f);
      }
    }
    forall a ensures a in t.albums <==> a in u.albums {
      if a in t.albums {
        MirrorAlbums(t, u, a);
      }
      if a in u.albums {
        MirrorAlbums(u, t, a);
      }
    }
  }

  // --------------------------------------------------------- a whole walk of pages

  datatype Read = Read(time: nat, page: Page)

  /** Pages read at the same position, whenever that was, each after the last. */
  ghost predicate IsReading(run: seq<Server>, after: string, limit: int, position: Position, chain: seq<Read>)
    decreases |chain|
  {
    && |chain| > 0 && chain[0].time < |run|
    && chain[0].page.position == position
    && IsCollectionPage(State(run[chain[0].time].tree, run[chain[0].time].journal, 0), after, limit, chain[0].page)
    && if |chain| == 1 then !chain[0].page.more
       else chain[0].page.more && IsReading(run, chain[0].page.next, limit, position, chain[1..])
  }

  function PagesOf(chain: seq<Read>): (pages: seq<seq<string>>)
    ensures |pages| == |chain| && forall i :: 0 <= i < |chain| ==> pages[i] == IdsOf(chain[i].page.nodes)
  {
    seq(|chain|, i requires 0 <= i < |chain| => IdsOf(chain[i].page.nodes))
  }

  lemma {:induction false} ReadingWalks(run: seq<Server>, after: string, limit: int, position: Position,
                                        chain: seq<Read>, all: set<string>)
    requires IsReading(run, after, limit, position, chain)
    requires forall k :: 0 <= k < |run| && PositionOf(run[k].journal) == position ==>
      NodeIds(run[k].tree.folders, run[k].tree.albums) == all
    ensures IsWalk(all, after, Clamp(limit), PagesOf(chain))
    decreases |chain|
  {
    hide NodeIds, IsKeyPage, IdsOf;
    if |chain| > 1 {
      ReadingWalks(run, chain[0].page.next, limit, position, chain[1..], all);
      assert PagesOf(chain)[1..] == PagesOf(chain[1..]);
      LastId(chain[0].page.nodes);
    }
  }

  lemma LastId(nodes: seq<Node>)
    ensures |IdsOf(nodes)| == |nodes|
    ensures |nodes| > 0 ==> IdsOf(nodes)[|nodes| - 1] == NodeId(nodes[|nodes| - 1])
  {
  }

  /** Pages that all succeeded at one position list every folder and album of that
      tree exactly once, in order, whatever happened between the calls. */
  lemma ReadingListsOnce(run: seq<Server>, limit: int, position: Position, chain: seq<Read>)
    requires IsServerRun(run) && Journals.Valid(run[0].journal) && IsReading(run, "", limit, position, chain)
    requires forall k, f :: 0 <= k < |run| && f in run[k].tree.folders ==> f.id != ""
    requires forall k, a :: 0 <= k < |run| && a in run[k].tree.albums ==> a.id != ""
    ensures var s, keys := run[chain[0].time].tree, Concat(PagesOf(chain));
            && Ascending(keys)
            && forall k :: k in keys <==> k in NodeIds(s.folders, s.albums)
  {
    hide Less, IsKeyPage, WellFormed, MirrorOf;
    var t := chain[0].time;
    var all := NodeIds(run[t].tree.folders, run[t].tree.albums);
    forall k | 0 <= k < |run| && PositionOf(run[k].journal) == position
      ensures NodeIds(run[k].tree.folders, run[k].tree.albums) == all
    {
      SamePositionSameTree(run, if k < t then k else t, if k < t then t else k);
    }
    ReadingWalks(run, "", limit, position, chain, all);
    WalkVisitsOnce(all, "", Clamp(limit), PagesOf(chain));
    forall k | k in all ensures Less("", k) {
      NonEmptyBeyond(k);
    }
  }

  lemma NonEmptyBeyond(k: string)
    requires k != ""
    ensures Less("", k)
  {
  }
}
