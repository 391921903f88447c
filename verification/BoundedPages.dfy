/** The two bounded selections: the sorted buffer of a files snapshot and the
    max-heap of a source lookup keep just enough rows to fill one page. */
module BoundedPages {
  import opened Prelude
  import opened Entries
  import opened Sync
  import opened Pages

  // ----------------------------------------------------------- files snapshot

  ghost predicate SortedRows(rows: seq<File>) {
    forall i, j :: 0 <= i < j < |rows| ==> Less(rows[i].id, rows[j].id)
  }

  /** sort.Search over the buffer. */
  method SearchAfter(rows: seq<File>, id: string) returns (i: nat)
    requires SortedRows(rows)
    ensures i <= |rows|
    ensures forall k :: 0 <= k < i ==> !Less(id, rows[k].id)
    ensures forall k :: i <= k < |rows| ==> Less(id, rows[k].id)
  {
    hide Less;
    var low, high := 0, |rows|;
    while low < high
      invariant 0 <= low <= high <= |rows|
      invariant forall k :: 0 <= k < low ==> !Less(id, rows[k].id)
      invariant forall k :: high <= k < |rows| ==> Less(id, rows[k].id)
    {
      var mid := (low + high) / 2;
      if Less(id, rows[mid].id) {
        forall k | mid <= k < |rows| ensures Less(id, rows[k].id) {
          if mid < k {
            LessTransitive(id, rows[mid].id, rows[k].id);
          }
        }
        high := mid;
      } else {
        forall k | 0 <= k <= mid ensures !Less(id, rows[k].id) {
          if k < mid && Less(id, rows[k].id) {
            LessTransitive(id, rows[k].id, rows[mid].id);
          }
        }
        low := mid + 1;
      }
    }
    i := low;
  }

  /** The buffer holds the smallest eligible rows seen so far, at most `room`. */
  ghost predicate Holds(seen: seq<File>, after: string, prefix: string, room: nat, rows: seq<File>) {
    && |rows| <= room && SortedRows(rows)
    && (forall r :: r in rows ==> r in seen && Eligible(r, after, prefix))
    && (forall f :: f in seen && Eligible(f, after, prefix) && f !in rows ==> |rows| == room && AllLess(rows, f.id))
  }

  ghost predicate AllLess(rows: seq<File>, id: string) {
    forall i :: 0 <= i < |rows| ==> Less(rows[i].id, id)
  }

  /** Inserting a row where the search found its place. */
  lemma Inserted(rows: seq<File>, f: File, i: nat)
    requires SortedRows(rows) && i <= |rows|
    requires forall k :: 0 <= k < i ==> Less(rows[k].id, f.id)
    requires forall k :: i <= k < |rows| ==> Less(f.id, rows[k].id)
    ensures SortedRows(rows[..i] + [f] + rows[i..])
  {
    hide Less;
  }

  lemma SkippedRow(seen: seq<File>, after: string, prefix: string, room: nat, rows: seq<File>, f: File)
    requires Holds(seen, after, prefix, room, rows)
    requires !Eligible(f, after, prefix) || (|rows| == room && AllLess(rows, f.id))
    ensures Holds(seen + [f], after, prefix, room, rows)
  {
    hide Less;
  }

  lemma KeptRow(seen: seq<File>, after: string, prefix: string, room: nat, rows: seq<File>, f: File, i: nat,
                next: seq<File>)
    requires Holds(seen, after, prefix, room, rows) && Eligible(f, after, prefix) && i <= |rows| && i < room
    requires forall k :: 0 <= k < i ==> Less(rows[k].id, f.id)
    requires forall k :: i <= k < |rows| ==> Less(f.id, rows[k].id)
    requires var full := rows[..i] + [f] + rows[i..]; next == if |full| > room then full[..room] else full
    ensures Holds(seen + [f], after, prefix, room, next)
  {
    hide Less, Eligible, SortedRows, AllLess;
    var full := rows[..i] + [f] + rows[i..];
    Inserted(rows, f, i);
    PrefixSorted(full, |next|);
    forall r | r in next ensures r in seen + [f] && Eligible(r, after, prefix) {
      assert r == f || r in rows;
    }
    forall g | g in seen + [f] && Eligible(g, after, prefix) && g !in next
      ensures |next| == room && AllLess(next, g.id) {
      assert full[i] == f && next[i] == f;
      if g in rows {
        CutOff(rows, f, i, room, g);
      } else {
        NoRoom(rows, f, i, room, g.id);
      }
    }
  }

  lemma PrefixSorted(rows: seq<File>, n: nat)
    requires SortedRows(rows) && n <= |rows|
    ensures SortedRows(rows[..n])
  {
  }

  /** A row pushed out of the buffer comes after all that stay. */
  lemma CutOff(rows: seq<File>, f: File, i: nat, room: nat, g: File)
    requires i <= |rows| && g in rows
    requires var full := rows[..i] + [f] + rows[i..];
               SortedRows(full) && g !in if |full| > room then full[..room] else full
    ensures |rows| >= room && AllLess((rows[..i] + [f] + rows[i..])[..room], g.id)
  {
    hide Less;
    var full := rows[..i] + [f] + rows[i..];
    var k :| 0 <= k < |rows| && rows[k] == g;
    var x := if k < i then k else k + 1;
    assert full[x] == g;
  }

  /** A row the buffer had no room for still comes after all that stay. */
  lemma NoRoom(rows: seq<File>, f: File, i: nat, room: nat, id: string)
    requires |rows| == room && i < room && AllLess(rows, id) && Less(f.id, rows[i].id)
    ensures AllLess((rows[..i] + [f] + rows[i..])[..room], id)
  {
    hide Less;
    LessTransitive(f.id, rows[i].id, id);
  }

  /** MobileFilesSnapshot */
  method MobileFilesSnapshot(files: seq<File>, after: string, prefix: string, limit: int)
    returns (rows: seq<File>, more: bool)
    requires UniqueIds(files)
    ensures IsSnapshotPage(files, after, prefix, limit, rows, more)
  {
    hide Less, Matches;
    var most := Clamp(limit);
    rows := [];
    for n := 0 to |files|
      invariant Holds(files[..n], after, prefix, most + 1, rows)
    {
      var f := files[n];
      assert files[..n + 1] == files[..n] + [f];
      if !Eligible(f, after, prefix) {
        SkippedRow(files[..n], after, prefix, most + 1, rows, f);
        continue;
      }
      var i := SearchAfter(rows, f.id);
      forall k | 0 <= k < i ensures Less(rows[k].id, f.id) {
        LessTotal(rows[k].id, f.id);
        assert rows[k] in files[..n];
        var x :| 0 <= x < n && files[x] == rows[k];
        assert files[x].id != files[n].id;
      }
      if i > most {
        SkippedRow(files[..n], after, prefix, most + 1, rows, f);
        continue;
      }
      ghost var was := rows;
      rows := rows[..i] + [f] + rows[i..];
      if |rows| > most + 1 {
        rows := rows[..most + 1];
      }
      KeptRow(files[..n], after, prefix, most + 1, was, f, i, rows);
    }
    assert files[..|files|] == files;
    more := |rows| > most;
    ghost var full := rows;
    if more {
      rows := rows[..most];
    }
    PageOfRows(files, after, prefix, limit, full, rows, more);
  }

  lemma PageOfRows(files: seq<File>, after: string, prefix: string, limit: int, full: seq<File>, rows: seq<File>,
                   more: bool)
    requires Holds(files, after, prefix, Clamp(limit) + 1, full)
    requires more == (|full| > Clamp(limit)) && rows == if more then full[..Clamp(limit)] else full
    ensures IsSnapshotPage(files, after, prefix, limit, rows, more)
  {
    hide Less, Eligible;
    forall f | f in files && Eligible(f, after, prefix) && f !in rows
      ensures more && forall i :: 0 <= i < |rows| ==> Less(rows[i].id, f.id)
    {
      if f in full {
        var k :| 0 <= k < |full| && full[k] == f;
        assert k >= |rows|;
      } else {
        assert AllLess(full, f.id);
      }
    }
    if more {
      var last := full[|rows|];
      if last in rows {
        var k :| 0 <= k < |rows| && rows[k] == last;
        LessIrreflexive(last.id);
      }
      assert last in files && Eligible(last, after, prefix) && last !in rows;
    }
  }

  function IdsOf(rows: seq<File>): (ids: seq<string>)
    ensures |ids| == |rows| && forall i :: 0 <= i < |rows| ==> ids[i] == rows[i].id
  {
    seq(|rows|, i requires 0 <= i < |rows| => rows[i].id)
  }

  function LiveIds(files: seq<File>, prefix: string): set<string> {
    set f | f in files && f.present && Matches(f.path, prefix) :: f.id
  }

  /** By id, a snapshot page is the keyset page of the live matching entries, so
      on an unchanged catalog its cursor visits each of them once. */
  lemma SnapshotIsKeyPage(files: seq<File>, after: string, prefix: string, limit: int, rows: seq<File>, more: bool)
    requires UniqueIds(files) && IsSnapshotPage(files, after, prefix, limit, rows, more)
    ensures IsKeyPage(LiveIds(files, prefix), after, Clamp(limit), IdsOf(rows), more)
  {
    hide Less, Matches;
    var all, ids := LiveIds(files, prefix), IdsOf(rows);
    forall k | k in ids ensures k in all && Less(after, k) {
      var i :| 0 <= i < |ids| && ids[i] == k;
      assert rows[i] in rows;
    }
    forall k | k in all && Less(after, k) && k !in ids ensures more && forall p :: p in ids ==> Less(p, k) {
      var f := RowOf(files, rows, prefix, k);
    }
    if more {
      var f :| f in files && Eligible(f, after, prefix) && f !in rows;
      assert f.id in all;
      forall i | 0 <= i < |rows| ensures rows[i].id != f.id {
        if rows[i].id == f.id {
          SameIdSameFile(files, rows[i], f);
        }
      }
    }
  }

  lemma RowOf(files: seq<File>, rows: seq<File>, prefix: string, k: string) returns (f: File)
    requires k in LiveIds(files, prefix) && k !in IdsOf(rows)
    ensures f in files && f.present && Matches(f.path, prefix) && f.id == k && f !in rows
  {
    f :| f in files && f.present && Matches(f.path, prefix) && f.id == k;
    assert forall i :: 0 <= i < |rows| ==> IdsOf(rows)[i] == rows[i].id;
  }

  lemma SameIdSameFile(files: seq<File>, f: File, g: File)
    requires UniqueIds(files) && f in files && g in files && f.id == g.id
    ensures f == g
  {
    var i :| 0 <= i < |files| && files[i] == f;
    var j :| 0 <= j < |files| && files[j] == g;
    UniqueIdsFind(files, i, j);
  }

  // ------------------------------------------------------------ source lookup

  /** Slot i does not exceed its parent. */
  ghost predicate Edge(h: seq<string>, i: int)
    requires 0 < i < |h|
  {
    !Less(h[(i - 1) / 2], h[i])
  }

  ghost predicate HeapOrder(h: seq<string>) {
    forall i :: 0 < i < |h| ==> Edge(h, i)
  }

  /** Heap order everywhere but on the edges out of and into slot j, and the
      slots around it ordered as if it were not there. */
  ghost predicate HeapBut(h: seq<string>, j: nat) {
    && (forall i :: 0 < i < |h| && i != j && (i - 1) / 2 != j ==> Edge(h, i))
    && (forall i :: 0 < i < |h| && (i - 1) / 2 == j && j > 0 && j < |h| ==> !Less(h[(j - 1) / 2], h[i]))
  }

  function Swapped(h: seq<string>, i: nat, j: nat): (s: seq<string>)
    requires i < |h| && j < |h|
    ensures multiset(s) == multiset(h)
  {
    h[i := h[j]][j := h[i]]
  }

  lemma NotLessTransitive(a: string, b: string, c: string)
    requires !Less(a, b) && !Less(b, c)
    ensures !Less(a, c)
  {
    LessTotal(a, b);
    LessTotal(b, c);
    if Less(b, a) && Less(c, b) {
      LessTransitive(c, b, a);
      LessAsymmetric(c, a);
    }
  }

  /** heap.Push: append, then sift up. */
  method Push(h: seq<string>, key: string) returns (r: seq<string>)
    requires HeapOrder(h)
    ensures HeapOrder(r) && multiset(r) == multiset(h) + multiset{key}
  {
    hide Less;
    r := h + [key];
    var j := |h|;
    forall i | 0 < i < |h| ensures Edge(r, i) {
      assert Edge(h, i);
    }
    while j > 0 && Less(r[(j - 1) / 2], r[j])
      invariant 0 <= j < |r| == |h| + 1
      invariant multiset(r) == multiset(h) + multiset{key}
      invariant HeapBut(r, j)
      invariant forall i :: 0 < i < |r| && (i - 1) / 2 == j ==> !Less(r[j], r[i])
    {
      var p := (j - 1) / 2;
      SiftedUp(r, j);
      r := Swapped(r, p, j);
      j := p;
    }
  }

  lemma SiftedUp(h: seq<string>, j: nat)
    requires 0 < j < |h| && HeapBut(h, j) && Less(h[(j - 1) / 2], h[j])
    requires forall i :: 0 < i < |h| && (i - 1) / 2 == j ==> !Less(h[j], h[i])
    ensures var p, s := (j - 1) / 2, Swapped(h, (j - 1) / 2, j);
            HeapBut(s, p) && forall i :: 0 < i < |h| && (i - 1) / 2 == p ==> !Less(s[p], s[i])
  {
    hide Less;
    var p, s := (j - 1) / 2, Swapped(h, (j - 1) / 2, j);
    LessAsymmetric(h[p], h[j]);
    forall i | 0 < i < |h| && i != p && (i - 1) / 2 != p ensures Edge(s, i) {
      if (i - 1) / 2 == j {
        assert s[j] == h[p];
      } else {
        assert Edge(h, i);
      }
    }
    forall i | 0 < i < |h| && (i - 1) / 2 == p ensures !Less(s[p], s[i]) {
      if i != j {
        assert Edge(h, i);
        NotLessTransitive(h[j], h[p], h[i]);
      }
    }
    if p > 0 {
      var q := (p - 1) / 2;
      assert Edge(h, p);
      forall i | 0 < i < |h| && (i - 1) / 2 == p ensures !Less(s[q], s[i]) {
        if i != j {
          assert Edge(h, i);
          NotLessTransitive(h[q], h[p], h[i]);
        }
      }
    }
  }

  /** heap.Fix(h, 0) after the root was replaced: sift down. */
  method FixRoot(h: seq<string>) returns (r: seq<string>)
    requires |h| > 0 && HeapBut(h, 0)
    ensures HeapOrder(r) && multiset(r) == multiset(h)
  {
    hide Less;
    r := h;
    var i := 0;
    while true
      invariant 0 <= i < |r| == |h|
      invariant multiset(r) == multiset(h)
      invariant HeapBut(r, i) && (i > 0 ==> !Less(r[(i - 1) / 2], r[i]))
      decreases |h| - i
    {
      var j := 2 * i + 1;
      if j >= |r| {
        break;
      }
      if j + 1 < |r| && Less(r[j], r[j + 1]) {
        LessAsymmetric(r[j], r[j + 1]);
        j := j + 1;
      }
      if !Less(r[i], r[j]) {
        SettledAt(r, i, j);
        break;
      }
      SiftedDown(r, i, j);
      r := Swapped(r, i, j);
      i := j;
    }
  }

  lemma SettledAt(h: seq<string>, i: nat, j: nat)
    requires i < |h| && HeapBut(h, i) && (i > 0 ==> !Less(h[(i - 1) / 2], h[i]))
    requires j < |h| && (j == 2 * i + 1 || j == 2 * i + 2) && !Less(h[i], h[j])
    requires forall k :: 0 < k < |h| && (k - 1) / 2 == i && k != j ==> !Less(h[j], h[k])
    ensures HeapOrder(h)
  {
    hide Less;
    forall k | 0 < k < |h| ensures Edge(h, k) {
      if (k - 1) / 2 == i && k != j {
        NotLessTransitive(h[i], h[j], h[k]);
      }
    }
  }

  lemma SiftedDown(h: seq<string>, i: nat, j: nat)
    requires i < |h| && HeapBut(h, i) && (i > 0 ==> !Less(h[(i - 1) / 2], h[i]))
    requires j < |h| && (j == 2 * i + 1 || j == 2 * i + 2) && Less(h[i], h[j])
    requires forall k :: 0 < k < |h| && (k - 1) / 2 == i && k != j ==> !Less(h[j], h[k])
    ensures var s := Swapped(h, i, j); HeapBut(s, j) && !Less(s[(j - 1) / 2], s[j])
  {
    hide Less;
    var s := Swapped(h, i, j);
    LessAsymmetric(h[i], h[j]);
    assert (j - 1) / 2 == i;
    forall k | 0 < k < |h| && k != j && (k - 1) / 2 != j ensures Edge(s, k) {
      if k == i {
        assert !Less(h[(i - 1) / 2], h[j]);
      } else if (k - 1) / 2 != i {
        assert Edge(h, k);
      }
    }
    forall k | 0 < k < |h| && (k - 1) / 2 == j ensures !Less(s[i], s[k]) {
      assert Edge(h, k);
    }
  }

  /** The root is the largest. */
  lemma {:induction false} RootIsLargest(h: seq<string>, i: nat)
    requires HeapOrder(h) && i < |h|
    ensures !Less(h[0], h[i])
  {
    hide Less;
    if i == 0 {
      LessIrreflexive(h[0]);
    } else {
      RootIsLargest(h, (i - 1) / 2);
      assert Edge(h, i);
      NotLessTransitive(h[0], h[(i - 1) / 2], h[i]);
    }
  }

  /** The heap holds the smallest keys seen so far, at most `room` of them. */
  ghost predicate Smallest(seen: set<string>, room: nat, h: seq<string>, kept: set<string>) {
    && multiset(h) == multiset(kept) && kept <= seen && |h| <= room
    && (forall k :: k in seen && k !in kept ==> |h| == room && Above(kept, k))
  }

  ghost predicate Above(kept: set<string>, k: string) {
    forall t :: t in kept ==> Less(t, k)
  }

  lemma RootAbove(seen: set<string>, room: nat, h: seq<string>, kept: set<string>)
    requires Smallest(seen, room, h, kept) && HeapOrder(h) && |h| > 0
    ensures h[0] in kept && forall t :: t in kept && t != h[0] ==> Less(t, h[0])
  {
    hide Less, HeapOrder;
    assert h[0] in multiset(h);
    forall t | t in kept && t != h[0] ensures Less(t, h[0]) {
      assert t in multiset(h);
      var i :| 0 <= i < |h| && h[i] == t;
      RootIsLargest(h, i);
      LessTotal(h[0], t);
    }
  }

  lemma RootReplaced(h: seq<string>, key: string)
    requires HeapOrder(h) && |h| > 0
    ensures HeapBut(h[0 := key], 0)
    ensures multiset(h[0 := key]) == multiset(h) - multiset{h[0]} + multiset{key}
  {
    hide Less;
    var r := h[0 := key];
    forall i | 0 < i < |r| && i != 0 && (i - 1) / 2 != 0 ensures Edge(r, i) {
      assert Edge(h, i);
    }
    assert h == [h[0]] + h[1..] && r == [key] + h[1..];
  }

  lemma KeyPushed(seen: set<string>, room: nat, h: seq<string>, kept: set<string>, key: string, r: seq<string>)
    requires Smallest(seen, room, h, kept) && |h| < room && key !in seen && multiset(r) == multiset(h) + multiset{key}
    ensures Smallest(seen + {key}, room, r, kept + {key})
  {
    hide Less;
    assert |multiset(r)| == |multiset(h)| + 1;
    assert forall k :: k in seen ==> k in kept;
    assert multiset(kept + {key}) == multiset(kept) + multiset{key};
  }

  lemma KeyReplaces(seen: set<string>, room: nat, h: seq<string>, kept: set<string>, key: string, r: seq<string>)
    requires Smallest(seen, room, h, kept) && HeapOrder(h) && |h| == room > 0 && key !in seen && Less(key, h[0])
    requires multiset(r) == multiset(h) - multiset{h[0]} + multiset{key}
    ensures Smallest(seen + {key}, room, r, kept - {h[0]} + {key})
  {
    hide Less;
    RootAbove(seen, room, h, kept);
    var next := kept - {h[0]} + {key};
    assert |multiset(r)| == |multiset(h)|;
    forall k | k in seen + {key} && k !in next ensures Above(next, k) {
      forall t | t in next ensures Less(t, k) {
        if k != h[0] {
          assert Above(kept, k);
          if t == key {
            LessTransitive(key, h[0], k);
          }
        }
      }
    }
  }

  lemma KeySkipped(seen: set<string>, room: nat, h: seq<string>, kept: set<string>, key: string)
    requires Smallest(seen, room, h, kept) && HeapOrder(h) && |h| == room > 0 && key !in seen && !Less(key, h[0])
    ensures Smallest(seen + {key}, room, h, kept)
  {
    hide Less;
    RootAbove(seen, room, h, kept);
    LessTotal(key, h[0]);
    forall t | t in kept ensures Less(t, key) {
      if t != h[0] {
        LessTransitive(t, h[0], key);
      }
    }
  }

  /** sort.Strings on distinct keys. */
  method SortKeys(h: seq<string>) returns (s: seq<string>)
    requires forall i, j :: 0 <= i < j < |h| ==> h[i] != h[j]
    ensures Ascending(s) && multiset(s) == multiset(h)
  {
    hide Less;
    s := [];
    for n := 0 to |h|
      invariant Ascending(s) && multiset(s) == multiset(h[..n])
    {
      assert h[..n + 1] == h[..n] + [h[n]];
      assert h[n] !in multiset(h[..n]);
      s := InsertKey(s, h[n]);
    }
    assert h[..|h|] == h;
  }

  method InsertKey(s: seq<string>, key: string) returns (r: seq<string>)
    requires Ascending(s) && key !in s
    ensures Ascending(r) && multiset(r) == multiset(s) + multiset{key}
  {
    hide Less;
    var i := |s|;
    while i > 0 && Less(key, s[i - 1])
      invariant 0 <= i <= |s|
      invariant forall k :: i <= k < |s| ==> Less(key, s[k])
    {
      i := i - 1;
    }
    forall k | 0 <= k < i ensures Less(s[k], key) {
      LessTotal(s[k], key);
      if k < i - 1 && Less(key, s[k]) {
        LessTransitive(key, s[k], s[i - 1]);
      }
    }
    r := s[..i] + [key] + s[i..];
    assert s == s[..i] + s[i..];
  }

  predicate Looked(m: Mapping, wanted: set<string>, namespace: string) {
    m.sourceId in wanted && (namespace == "" || m.namespace == namespace) && (m.kind == "album" || m.kind == "folder")
  }

  function LookedUp(sources: map<string, Mapping>, wanted: set<string>, namespace: string): set<string> {
    set k | k in sources && Looked(sources[k], wanted, namespace)
  }

  datatype Match = Match(mapping: Mapping, current: Option<uint64>)

  /** The mapped target's present revision; None once it was deleted. */
  ghost predicate IsMatch(m: Match, albums: seq<Album>, folders: seq<Folder>) {
    if m.mapping.kind == "album"
    then (match m.current
          case Some(r) => exists i :: 0 <= i < |albums| && albums[i].id == m.mapping.serverId && albums[i].revision == r
          case None => forall i :: 0 <= i < |albums| ==> albums[i].id != m.mapping.serverId)
    else (match m.current
          case Some(r) => exists i :: 0 <= i < |folders| && folders[i].id == m.mapping.serverId
                                      && folders[i].revision == r
          case None => forall i :: 0 <= i < |folders| ==> folders[i].id != m.mapping.serverId)
  }

  /** One eligible key meets the heap. */
  method Offer(h: seq<string>, key: string, room: nat, ghost seen: set<string>, ghost kept: set<string>)
    returns (r: seq<string>, ghost now: set<string>)
    requires HeapOrder(h) && Smallest(seen, room, h, kept) && room > 0 && key !in seen
    ensures HeapOrder(r) && Smallest(seen + {key}, room, r, now)
  {
    hide Less, HeapOrder, Above;
    if |h| < room {
      r := Push(h, key);
      KeyPushed(seen, room, h, kept, key, r);
      now := kept + {key};
    } else if Less(key, h[0]) {
      RootReplaced(h, key);
      r := FixRoot(h[0 := key]);
      KeyReplaces(seen, room, h, kept, key, r);
      now := kept - {h[0]} + {key};
    } else {
      KeySkipped(seen, room, h, kept, key);
      r, now := h, kept;
    }
  }

  ghost function Beyond(sources: map<string, Mapping>, todo: set<string>, wanted: set<string>, namespace: string,
                        after: string): set<string>
  {
    set k | k in sources.Keys - todo && Looked(sources[k], wanted, namespace) && Less(after, k)
  }

  /** The scan of LookupSourceCollections: one bounded heap over all mappings. */
  method NextKeys(sources: map<string, Mapping>, wanted: set<string>, namespace: string, after: string, limit: nat)
    returns (keys: seq<string>, more: bool)
    requires limit > 0
    ensures IsKeyPage(LookedUp(sources, wanted, namespace), after, limit, keys, more)
  {
    hide Less, Looked, HeapOrder, Smallest;
    var h: seq<string> := [];
    EmptyHeap(limit + 1);
    var todo := sources.Keys;
    ghost var kept: set<string> := {};
    assert Beyond(sources, todo, wanted, namespace, after) == {};
    while todo != {}
      invariant todo <= sources.Keys && HeapOrder(h)
      invariant Smallest(Beyond(sources, todo, wanted, namespace, after), limit + 1, h, kept)
    {
      var key :| key in todo;
      ghost var seen := Beyond(sources, todo, wanted, namespace, after);
      todo := todo - {key};
      if Less(after, key) && Looked(sources[key], wanted, namespace) {
        h, kept := Offer(h, key, limit + 1, seen, kept);
        assert Beyond(sources, todo, wanted, namespace, after) == seen + {key};
      } else {
        assert Beyond(sources, todo, wanted, namespace, after) == seen;
      }
    }
    assert multiset(h) == multiset(kept) by {
      HeapIsKept(Beyond(sources, todo, wanted, namespace, after), limit + 1, h, kept);
    }
    DistinctHeap(h, kept);
    keys := SortKeys(h);
    more := |keys| > limit;
    ghost var full := keys;
    if more {
      keys := keys[..limit];
    }
    SortedKept(Beyond(sources, todo, wanted, namespace, after), limit + 1, h, kept, full);
    PageOfKeys(LookedUp(sources, wanted, namespace), after, limit, Beyond(sources, {}, wanted, namespace, after),
               kept, full, keys, more);
  }

  lemma HeapIsKept(seen: set<string>, room: nat, h: seq<string>, kept: set<string>)
    requires Smallest(seen, room, h, kept)
    ensures multiset(h) == multiset(kept)
  {
  }

  lemma SortedKept(seen: set<string>, room: nat, h: seq<string>, kept: set<string>, full: seq<string>)
    requires Smallest(seen, room, h, kept) && multiset(full) == multiset(h)
    ensures Smallest(seen, room, full, kept)
  {
    assert |multiset(full)| == |multiset(h)|;
  }

  lemma EmptyHeap(room: nat)
    ensures HeapOrder([]) && Smallest({}, room, [], {})
  {
  }

  lemma DistinctHeap(h: seq<string>, kept: set<string>)
    requires multiset(h) == multiset(kept)
    ensures forall i, j :: 0 <= i < j < |h| ==> h[i] != h[j]
  {
    forall i, j | 0 <= i < j < |h| ensures h[i] != h[j] {
      if h[i] == h[j] {
        CountedTwice(h, i, j);
      }
    }
  }

  lemma CountedTwice(h: seq<string>, i: int, j: int)
    requires 0 <= i < j < |h| && h[i] == h[j]
    ensures multiset(h)[h[i]] >= 2
  {
    var rest := h[..i] + h[i + 1..];
    assert h == h[..i] + [h[i]] + h[i + 1..];
    assert rest[j - 1] == h[j];
    assert h[j] in multiset(rest);
  }

  lemma PageOfKeys(all: set<string>, after: string, limit: nat, seen: set<string>, kept: set<string>,
                   full: seq<string>, keys: seq<string>, more: bool)
    requires seen == set k | k in all && Less(after, k)
    requires Ascending(full) && multiset(full) == multiset(kept) && Smallest(seen, limit + 1, full, kept)
    requires more == (|full| > limit) && keys == if more then full[..limit] else full
    ensures IsKeyPage(all, after, limit, keys, more)
  {
    hide Less;
    forall k ensures k in kept <==> k in full {
      assert k in multiset(full) <==> k in multiset(kept);
    }
    assert Ascending(keys);
    assert forall k :: k in keys ==> k in full;
    if more {
      var last := full[limit];
      assert last in kept;
      if last in keys {
        var i :| 0 <= i < limit && keys[i] == last;
        AscendingDistinct(full, i, limit);
      }
      assert last in all && Less(after, last) && last !in keys;
    } else {
      assert forall k :: k in seen ==> k in kept;
    }
    forall k, p | k in all && Less(after, k) && k !in keys && p in keys ensures Less(p, k) {
      assert p in full;
      if k in kept {
        var i :| 0 <= i < |full| && full[i] == k;
        var x :| 0 <= x < |keys| && keys[x] == p;
        assert i >= |keys|;
      } else {
        assert k in seen && Above(kept, k);
      }
    }
  }

  /** LookupSourceCollections: the page of keys, with each target's present state. */
  method LookupSourceCollections(sources: map<string, Mapping>, albums: seq<Album>, folders: seq<Folder>,
                                 ids: seq<string>, namespace: string, after: string, limit: int)
    returns (keys: seq<string>, matches: seq<Match>, more: bool, cursor: string)
    requires 1 <= limit <= 200
    ensures IsKeyPage(LookedUp(sources, (set id | id in ids), namespace), after, limit, keys, more)
    ensures |matches| == |keys| && more ==> cursor == keys[|keys| - 1]
    ensures |matches| == |keys|
    ensures forall i :: 0 <= i < |keys| ==>
              keys[i] in sources && matches[i].mapping == sources[keys[i]] && IsMatch(matches[i], albums, folders)
  {
    hide Less, IsMatch;
    keys, more := NextKeys(sources, (set id | id in ids), namespace, after, limit);
    assert forall i :: 0 <= i < |keys| ==> keys[i] in keys;
    cursor := if more then keys[|keys| - 1] else "";
    matches := [];
    for n := 0 to |keys|
      invariant |matches| == n
      invariant forall i :: 0 <= i < n ==> matches[i].mapping == sources[keys[i]]
                                           && IsMatch(matches[i], albums, folders)
    {
      var m := FindTarget(sources[keys[n]], albums, folders);
      matches := matches + [m];
    }
  }

  method FindTarget(mapping: Mapping, albums: seq<Album>, folders: seq<Folder>) returns (m: Match)
    requires mapping.kind == "album" || mapping.kind == "folder"
    ensures m.mapping == mapping && IsMatch(m, albums, folders)
  {
    m := Match(mapping, None);
    if mapping.kind == "album" {
      for i := 0 to |albums|
        invariant forall k :: 0 <= k < i ==> albums[k].id != mapping.serverId
      {
        if albums[i].id == mapping.serverId {
          return Match(mapping, Some(albums[i].revision));
        }
      }
    } else {
      for i := 0 to |folders|
        invariant forall k :: 0 <= k < i ==> folders[k].id != mapping.serverId
      {
        if folders[i].id == mapping.serverId {
          return Match(mapping, Some(folders[i].revision));
        }
      }
    }
  }
}
