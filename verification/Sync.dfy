/** Devices following a catalog by pages of changes and snapshots. */
module Sync {
  // Changes are replayed page by page, and a snapshot is taken while the catalog
  // keeps changing.

  import opened Prelude
  import opened Paths
  import opened Entries
  import opened Journals

  /** Well-formed state: one row per id in every table. */
  ghost predicate WellFormed(t: Tree) {
    && UniqueIds(t.files)
    && DistinctKeys(AlbumRows(t.albums))
    && DistinctKeys(FolderRows(t.folders))
    && forall k :: k in t.sources ==> t.sources[k].namespace != ""
  }

  /** What one save does to journal and tree: the journal grows by changes
      whose replay takes the old tree to the new one. */
  ghost predicate Saved(j: Journal, t: Tree, j2: Journal, t2: Tree) {
    && Valid(j) && Valid(j2) && Extends(j, j2)
    && (j.epoch == "" || j2.epoch == j.epoch)
    && |j2.records| == Min(CHANGE_RETENTION, |j.records| + (j2.sequence - j.sequence))
    && Replay(MirrorOf(t), History(j2.hash)[j.sequence..]) == MirrorOf(t2)
  }

  const PAGE_MAXIMUM: nat := 200

  /** limit = max(1, min(limit, 200)) */
  function Clamp(limit: int): (n: nat)
    ensures 1 <= n <= PAGE_MAXIMUM
  {
    Max(1, Min(limit, PAGE_MAXIMUM))
  }

  /** A page handed to a position: the changes right after it, no gap, at most
      the limit, where to continue, and whether the journal holds more. */
  ghost predicate IsChangePage(j: Journal, p: Position, limit: int, records: seq<Record>, next: Position, more: bool)
    requires Valid(j)
  {
    var h := History(j.hash);
    && OnHistory(j, p)
    && |records| == Min(Clamp(limit), |h| - p.sequence)
    && (forall i :: 0 <= i < |records| ==> records[i].change == h[p.sequence + i])
    && OnHistory(j, next) && next.sequence == p.sequence + |records|
    && (more <==> next.sequence < j.sequence)
  }

  function Changes(records: seq<Record>): (changes: seq<Change>)
    ensures |changes| == |records|
    ensures forall i :: 0 <= i < |records| ==> changes[i] == records[i].change
  {
    seq(|records|, i requires 0 <= i < |records| => records[i].change)
  }

  // --------------------------------------------------------- replaying devices

  datatype Session = Session(journal: Journal, tree: Tree, position: Position, mirror: Mirror, caughtUp: bool)

  /** The changes the device has not seen yet take its mirror to the catalog. */
  ghost predicate InSync(s: Session) {
    && Valid(s.journal) && s.journal.epoch != ""
    && OnHistory(s.journal, s.position)
    && Replay(s.mirror, History(s.journal.hash)[s.position.sequence..]) == MirrorOf(s.tree)
    && (s.caughtUp ==> s.mirror == MirrorOf(s.tree))
  }

  ghost predicate SaveStep(s: Session, s2: Session) {
    && Saved(s.journal, s.tree, s2.journal, s2.tree)
    && s2.position == s.position && s2.mirror == s.mirror && !s2.caughtUp
  }

  /** The device asks with its position, which must be accepted, and applies the
      page it gets. A refused position ends the session with a resync. */
  ghost predicate PageStep(s: Session, s2: Session, limit: int, records: seq<Record>) {
    && Valid(s.journal) && Accepts(s.journal, s.position)
    && s2.journal == s.journal && s2.tree == s.tree
    && IsChangePage(s.journal, s.position, limit, records, s2.position, !s2.caughtUp)
    && s2.mirror == Replay(s.mirror, Changes(records))
  }

  ghost predicate SessionStep(s: Session, s2: Session) {
    SaveStep(s, s2) || exists limit, records :: PageStep(s, s2, limit, records)
  }

  ghost predicate IsSession(run: seq<Session>) {
    forall i :: 0 <= i < |run| - 1 ==> SessionStep(run[i], run[i + 1])
  }

  lemma SaveKeepsSync(s: Session, s2: Session)
    requires InSync(s) && SaveStep(s, s2)
    ensures InSync(s2)
  {
    var h, h2, n := History(s.journal.hash), History(s2.journal.hash), s.position.sequence;
    assert h2[..n] == h[..n];
    assert h2[n..] == h[n..] + h2[s.journal.sequence..];
    ReplayConcat(s.mirror, h[n..], h2[s.journal.sequence..]);
  }

  lemma PageKeepsSync(s: Session, s2: Session, limit: int, records: seq<Record>)
    requires InSync(s) && PageStep(s, s2, limit, records)
    ensures InSync(s2)
  {
    hide MirrorOf, Accepts, DigestOf, RetainedAt;
    var h, n, m := History(s.journal.hash), s.position.sequence, s2.position.sequence;
    assert Changes(records) == h[n..m];
    assert h[n..] == h[n..m] + h[m..];
    ReplayConcat(s.mirror, h[n..m], h[m..]);
  }

  /** Replay convergence: whatever saves fall between whatever pages, a device
      that matched the catalog once never loses a change, and matches it again
      each time a page reports that nothing more is held. */
  lemma {:induction false} ReplayConverges(run: seq<Session>, i: nat)
    requires IsSession(run) && i < |run| && InSync(run[0])
    ensures InSync(run[i])
    ensures run[i].caughtUp ==> run[i].mirror == MirrorOf(run[i].tree)
  {
    if i > 0 {
      ReplayConverges(run, i - 1);
      assert SessionStep(run[i - 1], run[i]);
      if SaveStep(run[i - 1], run[i]) {
        SaveKeepsSync(run[i - 1], run[i]);
      } else {
        var limit, records :| PageStep(run[i - 1], run[i], limit, records);
        PageKeepsSync(run[i - 1], run[i], limit, records);
      }
    }
  }

  /** Between two saves a page always advances, so a quiet catalog is caught up
      with after finitely many pages: the distance to its end shrinks. */
  lemma PagesMakeProgress(s: Session, s2: Session, limit: int, records: seq<Record>)
    requires InSync(s) && PageStep(s, s2, limit, records)
    ensures s2.caughtUp || 
            s2.journal.sequence - s2.position.sequence == s.journal.sequence - s.position.sequence - Clamp(limit)
  {
  }

  /** A device that keeps up within the retention window is never refused. */
  lemma RecentPositionsAccepted(s: Session)
    requires InSync(s) && s.position.sequence > Dropped(s.journal)
    ensures Accepts(s.journal, s.position)
  {
    AcceptsExact(s.journal, s.position);
  }

  // ------------------------------------------------------------ fuzzy snapshot

  /** MobileFilesMatch */
  predicate Matches(path: string, prefix: string) {
    !(".weazl-" <= path) && (prefix == "" || AtOrBelow(path, prefix))
  }

  predicate Eligible(f: File, after: string, prefix: string) {
    f.present && Less(after, f.id) && Matches(f.path, prefix)
  }

  /** One snapshot page: the eligible rows with the smallest ids, in order. */
  ghost predicate IsSnapshotPage(files: seq<File>, after: string, prefix: string, limit: int,
                                 rows: seq<File>, more: bool)
  {
    && |rows| <= Clamp(limit)
    && (forall i :: 0 <= i < |rows| ==> rows[i] in files && Eligible(rows[i], after, prefix))
    && (forall i, j :: 0 <= i < j < |rows| ==> Less(rows[i].id, rows[j].id))
    && (forall f :: f in files && Eligible(f, after, prefix) && f !in rows ==>
          more && forall i :: 0 <= i < |rows| ==> Less(rows[i].id, f.id))
    && (more ==> |rows| == Clamp(limit) && exists f :: f in files && Eligible(f, after, prefix) && f !in rows)
  }

  datatype Server = Server(journal: Journal, tree: Tree)

  ghost predicate IsServerRun(run: seq<Server>) {
    && |run| > 0
    && (forall i :: 0 <= i < |run| ==> WellFormed(run[i].tree))
    && (forall i :: 0 <= i < |run| - 1 ==>
          run[i] == run[i + 1] || Saved(run[i].journal, run[i].tree, run[i + 1].journal, run[i + 1].tree))
  }

  /** One fetched page: which server state answered, and what it answered. */
  datatype Fetch = Fetch(time: nat, rows: seq<File>, more: bool)

  /** Pages answered by states of the run, each continuing after the last row of
      the one before, until a page says there is no more. */
  ghost predicate IsSnapshot(run: seq<Server>, after: string, prefix: string, limit: int, pages: seq<Fetch>)
    decreases |pages|
  {
    && |pages| > 0
    && pages[0].time < |run|
    && IsSnapshotPage(run[pages[0].time].tree.files, after, prefix, limit, pages[0].rows, pages[0].more)
    && (if pages[0].more
        then |pages[0].rows| > 0
             && IsSnapshot(run, pages[0].rows[|pages[0].rows| - 1].id, prefix, limit, pages[1..])
        else |pages| == 1)
  }

  function Collected(pages: seq<Fetch>): map<string, File> {
    if pages == [] then map[]
    else Overlay(map[], FileRows(pages[0].rows)) + Collected(pages[1..])
  }

  /** The device keeps live matching entries only. */
  function ApplyLive(m: map<string, File>, c: Change, prefix: string): map<string, File> {
    match c.body
    case FileBody(f) =>
      if f.present && Matches(f.path, prefix) then m[c.id := Normal(f)] else m - {c.id}
    case Nothing => if c.kind == AssetKind || c.kind == FolderKind then m - {c.id} else m
    case _ => m
  }

  ghost function ReplayLive(m: map<string, File>, changes: seq<Change>, prefix: string): map<string, File> {
    if changes == [] then m
    else ApplyLive(ReplayLive(m, changes[..|changes| - 1], prefix), changes[|changes| - 1], prefix)
  }

  /** The filter applied to a full file table. */
  function Live(files: map<string, File>, prefix: string): map<string, File> {
    map id | id in files && files[id].present && Matches(files[id].path, prefix) :: files[id]
  }

  predicate TouchesFile(c: Change, id: string) {
    c.id == id && (c.body.FileBody? || (c.body.Nothing? && (c.kind == AssetKind || c.kind == FolderKind)))
  }

  /** Entry by entry: a change decides a touched id alike in both views ... */
  lemma ApplyPointwise(m: Mirror, live: map<string, File>, c: Change, prefix: string, id: string)
    ensures TouchesFile(c, id) ==>
              (id in ApplyLive(live, c, prefix) <==> id in Live(Apply(m, c).files, prefix))
              && (id in ApplyLive(live, c, prefix) ==> ApplyLive(live, c, prefix)[id] == Apply(m, c).files[id])
    ensures !TouchesFile(c, id) ==>
              (id in Apply(m, c).files <==> id in m.files)
              && (id in m.files ==> Apply(m, c).files[id] == m.files[id])
              && (id in ApplyLive(live, c, prefix) <==> id in live)
              && (id in live ==> ApplyLive(live, c, prefix)[id] == live[id])
  {
  }

  /** ... so a replay leaves an untouched id alone ... */
  lemma {:induction false} ReplayUntouched(m: Mirror, live: map<string, File>, changes: seq<Change>,
                                           prefix: string, id: string)
    requires forall c :: c in changes ==> !TouchesFile(c, id)
    ensures var full, view := Replay(m, changes).files, ReplayLive(live, changes, prefix);
            && (id in full <==> id in m.files) && (id in full ==> full[id] == m.files[id])
            && (id in view <==> id in live) && (id in view ==> view[id] == live[id])
  {
    if changes != [] {
      var n := |changes| - 1;
      ReplayUntouched(m, live, changes[..n], prefix, id);
      ApplyPointwise(Replay(m, changes[..n]), ReplayLive(live, changes[..n], prefix), changes[n], prefix, id);
    }
  }

  /** ... and decides a touched one the same way from any starting point. */
  lemma {:induction false} ReplayTouched(m: Mirror, live: map<string, File>, changes: seq<Change>,
                                         prefix: string, id: string)
    requires exists c :: c in changes && TouchesFile(c, id)
    ensures var full, view := Replay(m, changes).files, ReplayLive(live, changes, prefix);
            && (id in view <==> id in Live(full, prefix)) && (id in view ==> view[id] == full[id])
  {
    var n := |changes| - 1;
    assert changes == changes[..n] + [changes[n]];
    if !TouchesFile(changes[n], id) {
      ReplayTouched(m, live, changes[..n], prefix, id);
    }
    ApplyPointwise(Replay(m, changes[..n]), ReplayLive(live, changes[..n], prefix), changes[n], prefix, id);
  }

  /** The journal of the later state holds exactly what leads there. */
  ghost predicate Leads(a: Server, b: Server) {
    && Valid(a.journal) && Valid(b.journal) && Extends(a.journal, b.journal)
    && Replay(MirrorOf(a.tree), History(b.journal.hash)[a.journal.sequence..]) == MirrorOf(b.tree)
  }

  lemma LeadsTransitive(a: Server, b: Server, c: Server)
    requires Leads(a, b) && Leads(b, c)
    ensures Leads(a, c)
  {
    var hb, hc := History(b.journal.hash), History(c.journal.hash);
    assert hc[a.journal.sequence..] == hb[a.journal.sequence..] + hc[b.journal.sequence..];
    ReplayConcat(MirrorOf(a.tree), hb[a.journal.sequence..], hc[b.journal.sequence..]);
  }

  /** Later states of a run are replays of earlier ones. */
  lemma {:induction false} RunLeads(run: seq<Server>, i: nat, k: nat)
    requires IsServerRun(run) && i <= k < |run| && Valid(run[0].journal)
    ensures Leads(run[i], run[k])
    decreases i + k
  {
    if i == k {
      if i > 0 {
        RunLeads(run, i - 1, i);
      }
      assert History(run[k].journal.hash)[run[i].journal.sequence..] == [];
    } else {
      RunLeads(run, i, k - 1);
      assert run[k - 1] == run[k] || Saved(run[k - 1].journal, run[k - 1].tree, run[k].journal, run[k].tree);
      if run[k - 1] != run[k] {
        LeadsTransitive(run[i], run[k - 1], run[k]);
      }
    }
  }

  lemma FileMapMember(files: seq<File>, f: File)
    requires UniqueIds(files) && f in files
    ensures var m := Overlay(map[], FileRows(files)); f.id in m && m[f.id] == Normal(f)
  {
    var i :| 0 <= i < |files| && files[i] == f;
    OverlayAt(map[], FileRows(files), i);
  }

  lemma FileMapOrigin(files: seq<File>, id: string) returns (f: File)
    requires UniqueIds(files) && id in Overlay(map[], FileRows(files))
    ensures f in files && f.id == id && Overlay(map[], FileRows(files))[id] == Normal(f)
  {
    OverlayKeys(map[], FileRows(files), id);
    var i :| 0 <= i < |files| && FileRows(files)[i].0 == id;
    f := files[i];
    FileMapMember(files, f);
  }

  lemma RowsUnique(rows: seq<File>)
    requires forall i, j :: 0 <= i < j < |rows| ==> Less(rows[i].id, rows[j].id)
    ensures UniqueIds(rows)
  {
    forall i, j | 0 <= i < j < |rows| ensures rows[i].id != rows[j].id {
      LessIrreflexive(rows[i].id);
    }
  }

  /** An entry that no change touches while the pages are taken is collected
      exactly when it is live and matches. */
  lemma {:induction false} UntouchedCollected(run: seq<Server>, after: string, prefix: string, limit: int,
                                              pages: seq<Fetch>, id: string, table: map<string, File>)
    requires (forall i :: 0 <= i < |run| ==> WellFormed(run[i].tree))
    requires IsSnapshot(run, after, prefix, limit, pages)
    requires forall i :: 0 <= i < |run| ==>
      var files := MirrorOf(run[i].tree).files;
      (id in files <==> id in table) && (id in files ==> files[id] == table[id])
    requires Less(after, id)
    ensures id in Collected(pages) <==> id in Live(table, prefix)
    ensures id in Collected(pages) ==> Collected(pages)[id] == table[id]
    decreases |pages|
  {
    var page := pages[0];
    var files := run[page.time].tree.files;
    var here := Overlay(map[], FileRows(page.rows));
    RowsUnique(page.rows);
    assert MirrorOf(run[page.time].tree).files == Overlay(map[], FileRows(files));
    if id in here {
      var f := FileMapOrigin(page.rows, id);
      FileMapMember(files, f);
    }
    if page.more {
      var last := page.rows[|page.rows| - 1];
      LessTotal(last.id, id);
      if Less(last.id, id) {
        UntouchedCollected(run, last.id, prefix, limit, pages[1..], id, table);
      } else {
        LaterPagesBeyond(run, last.id, prefix, limit, pages[1..], id);
      }
    }
    if id in Live(table, prefix) && id !in here {
      var f := FileMapOrigin(files, id);
      if f in page.rows {
        FileMapMember(page.rows, f);
      }
      assert Eligible(f, after, prefix) && f !in page.rows;
    }
  }

  lemma {:induction false} LaterPagesBeyond(run: seq<Server>, after: string, prefix: string, limit: int,
                                            pages: seq<Fetch>, id: string)
    requires IsSnapshot(run, after, prefix, limit, pages)
    requires !Less(after, id)
    ensures id !in Collected(pages)
    decreases |pages|
  {
    var page := pages[0];
    RowsUnique(page.rows);
    if id in Overlay(map[], FileRows(page.rows)) {
      var f := FileMapOrigin(page.rows, id);
      assert false;
    }
    if page.more {
      var last := page.rows[|page.rows| - 1];
      if Less(last.id, id) {
        LessTransitive(after, last.id, id);
      }
      LaterPagesBeyond(run, last.id, prefix, limit, pages[1..], id);
    }
  }

  lemma UntouchedInRun(run: seq<Server>, id: string)
    requires IsServerRun(run) && Valid(run[0].journal) && Leads(run[0], run[|run| - 1])
    requires forall c :: c in History(run[|run| - 1].journal.hash)[run[0].journal.sequence..] ==> !TouchesFile(c, id)
    ensures forall i :: 0 <= i < |run| ==>
      var files, table := MirrorOf(run[i].tree).files, MirrorOf(run[|run| - 1].tree).files;
      (id in files <==> id in table) && (id in files ==> files[id] == table[id])
  {
    forall i | 0 <= i < |run|
      ensures var files, table := MirrorOf(run[i].tree).files, MirrorOf(run[|run| - 1].tree).files;
              (id in files <==> id in table) && (id in files ==> files[id] == table[id])
    {
      RunLeads(run, 0, i);
      RunLeads(run, i, |run| - 1);
      UntouchedBetween(run[0], run[i], run[|run| - 1], id);
    }
  }

  lemma UntouchedBetween(first: Server, here: Server, end: Server, id: string)
    requires Leads(first, here) && Leads(here, end) && Leads(first, end)
    requires forall c :: c in History(end.journal.hash)[first.journal.sequence..] ==> !TouchesFile(c, id)
    ensures var files, table := MirrorOf(here.tree).files, MirrorOf(end.tree).files;
            (id in files <==> id in table) && (id in files ==> files[id] == table[id])
  {
    var h := History(end.journal.hash);
    var a, b := first.journal.sequence, here.journal.sequence;
    forall c | c in h[b..] ensures !TouchesFile(c, id) {
      var k :| 0 <= k < |h[b..]| && h[b..][k] == c;
      assert h[a..][k + b - a] == c;
    }
    ReplayUntouched(MirrorOf(here.tree), map[], h[b..], "", id);
  }

  ghost predicate SameAt(a: map<string, File>, b: map<string, File>, id: string) {
    (id in a <==> id in b) && (id in a ==> a[id] == b[id])
  }

  lemma SnapshotConvergesAt(run: seq<Server>, prefix: string, limit: int, pages: seq<Fetch>, id: string)
    requires IsServerRun(run) && Leads(run[0], run[|run| - 1])
    requires IsSnapshot(run, "", prefix, limit, pages)
    requires forall i :: 0 <= i < |run| ==> forall f :: f in run[i].tree.files ==> f.id != ""
    ensures var end := run[|run| - 1];
            SameAt(ReplayLive(Collected(pages), History(end.journal.hash)[run[0].journal.sequence..], prefix),
                   Live(MirrorOf(end.tree).files, prefix), id)
  {
    var end := run[|run| - 1];
    var changes := History(end.journal.hash)[run[0].journal.sequence..];
    if exists c :: c in changes && TouchesFile(c, id) {
      ReplayTouched(MirrorOf(run[0].tree), Collected(pages), changes, prefix, id);
    } else {
      ReplayUntouched(MirrorOf(run[0].tree), Collected(pages), changes, prefix, id);
      UntouchedInRun(run, id);
      if id == "" {
        LaterPagesBeyond(run, "", prefix, limit, pages, id);
        NoEmptyId(end.tree.files);
      } else {
        UntouchedCollected(run, "", prefix, limit, pages, id, MirrorOf(end.tree).files);
      }
    }
  }

  /** Fuzzy snapshot convergence: note the position, collect pages by id while
      the catalog changes arbitrarily in between, then replay the changes made
      since the noted position. The result is the live, matching part of the
      catalog as it is now. */
  lemma SnapshotConverges(run: seq<Server>, prefix: string, limit: int, pages: seq<Fetch>)
    requires IsServerRun(run) && Valid(run[0].journal)
    requires IsSnapshot(run, "", prefix, limit, pages)
    requires forall i :: 0 <= i < |run| ==> forall f :: f in run[i].tree.files ==> f.id != ""
    ensures Leads(run[0], run[|run| - 1])
    ensures var end := run[|run| - 1];
            ReplayLive(Collected(pages), History(end.journal.hash)[run[0].journal.sequence..], prefix)
            == Live(MirrorOf(end.tree).files, prefix)
  {
    RunLeads(run, 0, |run| - 1);
    var end := run[|run| - 1];
    var result := ReplayLive(Collected(pages), History(end.journal.hash)[run[0].journal.sequence..], prefix);
    var goal := Live(MirrorOf(end.tree).files, prefix);
    forall id ensures SameAt(result, goal, id) {
      SnapshotConvergesAt(run, prefix, limit, pages, id);
    }
    EqualMaps(result, goal);
  }

  lemma EqualMaps(a: map<string, File>, b: map<string, File>)
    requires forall id :: SameAt(a, b, id)
    ensures a == b
  {
    forall id ensures id in a <==> id in b {
      assert SameAt(a, b, id);
    }
    forall id | id in a ensures a[id] == b[id] {
      assert SameAt(a, b, id);
    }
  }

  lemma NoEmptyId(files: seq<File>)
    requires UniqueIds(files) && forall f :: f in files ==> f.id != ""
    ensures "" !in Overlay(map[], FileRows(files))
  {
    if "" in Overlay(map[], FileRows(files)) {
      var f := FileMapOrigin(files, "");
      assert false;
    }
  }
}
