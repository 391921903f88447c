/** A reachable state in which the publication proof has expired. */
module BackupExpired {
  // An operation published and crashed before its receipt; its one new entry was
  // deleted and purged, and the retained journal has moved past the publication.

  import opened Prelude
  import opened Paths
  import opened Entries
  import opened Journals
  import opened Sync
  import opened JournalWriter
  import opened BackupCas
  import opened BackupPlans
  import opened BackupProtocol
  import opened BackupSafety
  import opened BackupReplay
  import opened BackupRuns

  const FOLDER := File("d", 1, "D", true, true, None, false, 0, 0, 0, "", "", "", None, "", [], [], "", "", "", false,
                       NO_DETAILS)
  const ENTRY := FOLDER.(id := "f", path := "D/a", folder := false)
  const TOMBSTONE := ENTRY.(revision := 2, present := false, deletedAt := Some(0))
  const PLAN := Plan([FOLDER], ["D/a"], [ENTRY])
  const SPEC := Spec("device", "source", "item", "1", "a", FileItem, 0, "", None, "", 0)
  const OPERATION := Operation("op", SPEC, Publishing, PLAN, "source", "f", "", "", None)
  const SOURCE := Source("device", Active, 1, FOLDER, map[], "op")

  /** The intent is recorded, the plan not yet published. */
  const START := World([FOLDER], Begun(), map["op" := OPERATION], map["source" := SOURCE], [], {FOLDER})

  function Begun(): Journal {
    Append(Journal("e", 0, Unhashed, []), FileChange([], FOLDER)).value
  }

  // ------------------------------------------------------------ many changes

  /** Appending a list of changes. */
  function AppendAll(j: Journal, cs: seq<Change>): (r: Journal)
    requires j.sequence + |cs| <= MAX_UINT64
    ensures r.sequence == j.sequence + |cs| && r.epoch == j.epoch
  {
    if cs == [] then j else Append(AppendAll(j, cs[..|cs| - 1]), cs[|cs| - 1]).value
  }

  lemma {:induction false} AppendAllReplays(j: Journal, cs: seq<Change>, m: Mirror)
    requires Journals.Valid(j) && j.sequence + |cs| <= MAX_UINT64
    ensures Grown(j, AppendAll(j, cs)) && Replay(m, Added(j, AppendAll(j, cs))) == Replay(m, cs)
  {
    hide Journals.Valid, Grown, Apply;
    if cs == [] {
      GrownReflexive(j);
    } else {
      var n := |cs| - 1;
      AppendAllReplays(j, cs[..n], m);
      AppendGrows(j, AppendAll(j, cs[..n]), cs[n], m);
    }
  }

  lemma {:induction false} AppendAllRecords(j: Journal, cs: seq<Change>)
    requires j.sequence + |cs| <= MAX_UINT64
    ensures var r := AppendAll(j, cs).records;
            |r| == |j.records| + |cs| && forall k :: 0 <= k < |cs| ==> r[|j.records| + k].change.body == cs[k].body
  {
    if cs != [] {
      AppendAllRecords(j, cs[..|cs| - 1]);
    }
  }

  /** The k-th edit of another entry. */
  function Note(k: nat): File
    requires k < CHANGE_RETENTION
  {
    FOLDER.(id := "n", path := "n", folder := false, revision := k + 1)
  }

  function Edit(k: nat): Change
    requires k < CHANGE_RETENTION
  {
    Change(0, AssetKind, "n", false, false, FileBody(Note(k)))
  }

  function Edits(n: nat): seq<Change>
    requires n <= CHANGE_RETENTION
  {
    seq(n, k requires 0 <= k < n => Edit(k))
  }

  const REMOVED := [Change(0, AssetKind, "f", true, false, FileBody(TOMBSTONE)),
                    Change(0, AssetKind, "f", true, false, Nothing)]
  const DROPPED := [Change(0, AssetKind, "n", true, false, Nothing)]

  /** Deleting and purging the entry, then as many other edits as the journal
      retains, then purging what they edited. */
  function Since(): (cs: seq<Change>)
    ensures CHANGE_RETENTION < |cs| < 10000
  {
    REMOVED + Edits(CHANGE_RETENTION) + DROPPED
  }

  lemma {:induction false} EditsReplay(m: Mirror, n: nat)
    requires n <= CHANGE_RETENTION && "n" !in m.files
    ensures Replay(m, Edits(n)) == if n == 0 then m else m.(files := m.files["n" := Normal(Note(n - 1))])
  {
    if n > 0 {
      EditsReplay(m, n - 1);
      assert Edits(n)[..n - 1] == Edits(n - 1);
    }
  }

  lemma ReplayOne(m: Mirror, c: Change)
    ensures Replay(m, [c]) == Apply(m, c)
  {
    assert [c][..0] == [];
    assert Replay(m, []) == m;
  }

  /** Together they take the tree back to where it was before the publication. */
  lemma SinceReplays(m: Mirror)
    requires "n" !in m.files
    ensures Replay(m, Since()) == m.(files := m.files - {"f"})
  {
    var gone := m.(files := m.files - {"f"});
    assert Replay(m, REMOVED) == gone by {
      ReplayOne(m, REMOVED[0]);
      ReplayOne(Replay(m, [REMOVED[0]]), REMOVED[1]);
      ReplayConcat(m, [REMOVED[0]], [REMOVED[1]]);
      assert REMOVED == [REMOVED[0]] + [REMOVED[1]];
      assert m.files["f" := Normal(TOMBSTONE)] - {"f"} == m.files - {"f"};
    }
    EditsReplay(gone, CHANGE_RETENTION);
    ReplayConcat(m, REMOVED, Edits(CHANGE_RETENTION));
    ReplayConcat(m, REMOVED + Edits(CHANGE_RETENTION), DROPPED);
    var busy := Replay(m, REMOVED + Edits(CHANGE_RETENTION));
    ReplayOne(busy, DROPPED[0]);
    assert DROPPED == [DROPPED[0]];
    assert gone.files["n" := Normal(Note(CHANGE_RETENTION - 1))] - {"n"} == gone.files;
  }

  // ------------------------------------------------------------- the witness

  lemma OnlyParent(p: string)
    requires Below("D/a", p)
    ensures p == "D"
  {
    var q, s := p + "/", "D/a";
    assert q == s[..|q|];
    assert q[|p|] == s[|p|] && s[0] == 'D' && s[1] == '/' && s[2] == 'a';
    assert |p| == 1 && p == q[..1];
    assert s[..2][..1] == "D";
  }

  lemma PlanPublishes()
    ensures Publish([FOLDER], PLAN) == Ok([FOLDER, ENTRY])
  {
    hide Ancestors;
    assert GuardMatches([FOLDER][0], FOLDER);
    assert GuardHolds([FOLDER], FOLDER);
    assert "D" != "D/a";
    assert Check([FOLDER], PLAN).None?;
    assert Publishable(ENTRY);
    forall f | f in PLAN.files ensures !HasId([FOLDER], f.id) && f.path in PLAN.absent {
      assert "d" != "f";
    }
    AllAppended([FOLDER], PLAN, 1);
    var next := [FOLDER, ENTRY];
    assert [FOLDER] + PLAN.files[..1] == next;
    forall f | f in PLAN.files ensures !Unsupported(next, f) {
      forall p | p in Ancestors(f.path) ensures FolderAt(next, p) {
        AncestorsExact(f.path, p);
        OnlyParent(p);
        assert next[0].path == p;
      }
    }
    assert !RepeatedPath(next);
  }

  /** The journal gets one change for the entry. */
  lemma EntryJournalled(j: Journal)
    requires j.sequence < MAX_UINT64
    ensures AppendChanged(j, [FOLDER], [FOLDER, ENTRY]) == Append(j, FileChange([FOLDER], ENTRY))
  {
    assert [FOLDER, ENTRY][..1] == [FOLDER] && [FOLDER][..0] == [];
    assert WithId([FOLDER], "d") == Some(FOLDER);
    assert AppendChanged(j, [FOLDER], []) == Ok(j);
    assert AppendChanged(j, [FOLDER], [FOLDER]) == Ok(j);
  }

  /** After the catalog write and before the mapping and the receipt. */
  function Published(): World {
    START.(files := [FOLDER, ENTRY], journal := Append(Begun(), FileChange([FOLDER], ENTRY)).value, log := ["op"],
           entered := {FOLDER, ENTRY})
  }

  lemma PublishedIs()
    ensures PublishPlan(START, OPERATION) == Ok(Published())
  {
    hide Publish, AppendChanged;
    PlanPublishes();
    EntryJournalled(Begun());
    assert |Published().journal.records| == 2;
    assert START.log + ["op"] == ["op"];
    assert START.entered + ToSet([FOLDER, ENTRY]) == {FOLDER, ENTRY};
  }

  function Bodies(cs: seq<Change>): set<File> {
    set c | c in cs && c.body.FileBody? :: c.body.file
  }

  /** Later: the entry is gone and so is every record of it. */
  function Expired(): World {
    Published().(files := [FOLDER], journal := Truncate(AppendAll(Published().journal, Since())),
                 entered := Published().entered + Bodies(Since()))
  }

  lemma StartGood()
    ensures Inv(START) && Journals.Valid(Begun())
  {
    var j := Journal("e", 0, Unhashed, []);
    assert Journals.Valid(j);
    AppendValid(j, FileChange([], FOLDER));
    assert WithId(PLAN.files, "f") == Some(ENTRY);
    assert GoodOp(OPERATION);
    assert GoodMark(START, "source", SOURCE);
  }

  /** Only the later records are retained. */
  lemma OnlyLater(f: File)
    ensures Recorded(Expired().journal, f) ==> f in Bodies(Since())
  {
    hide AppendAll;
    var j, cs := Published().journal, Since();
    AppendAllRecords(j, cs);
    var all, t := AppendAll(j, cs), Expired().journal;
    if Recorded(t, f) {
      var k :| 0 <= k < |t.records| && t.records[k].change.body == FileBody(f);
      var n := k + |all.records| - |t.records| - |j.records|;
      assert all.records[|j.records| + n].change.body == cs[n].body;
      assert cs[n] in cs;
    }
  }

  lemma EntryForgotten()
    ensures ENTRY !in Bodies(Since())
  {
    forall c | c in Since() && c.body.FileBody? ensures c.body.file != ENTRY {
      if c in Edits(CHANGE_RETENTION) {
        assert c.id == "n";
      }
    }
  }

  const STORED := Tree([FOLDER, ENTRY], [], [], map[], map[])

  lemma StoredMirrors()
    ensures MirrorOf(STORED) == Mirror(map["d" := Normal(FOLDER), "f" := Normal(ENTRY)], map[], map[], map[])
    ensures MirrorOf(STORED.(files := [FOLDER])) == Mirror(map["d" := Normal(FOLDER)], map[], map[], map[])
  {
    hide Normal;
    assert FileRows([FOLDER, ENTRY]) == [("d", Normal(FOLDER)), ("f", Normal(ENTRY))];
    assert FileRows([FOLDER]) == [("d", Normal(FOLDER))];
    TwoRows(("d", Normal(FOLDER)), ("f", Normal(ENTRY)));
    assert AlbumRows([]) == [] && FolderRows([]) == [];
  }

  /** The catalog came there by saves its journal tells exactly. */
  lemma SavesLedThere()
    ensures Leads(Server(Published().journal, STORED), Server(Expired().journal, STORED.(files := [FOLDER])))
  {
    hide AppendAll, Grown, MirrorOf, Since;
    var j, cs, m := Published().journal, Since(), MirrorOf(STORED);
    StartGood();
    AppendValid(Begun(), FileChange([FOLDER], ENTRY));
    AppendAllReplays(j, cs, m);
    GrownLeads(j, AppendAll(j, cs));
    TruncateValid(AppendAll(j, cs));
    StoredMirrors();
    SinceReplays(m);
    assert m.files - {"f"} == map["d" := Normal(FOLDER)];
  }

  lemma GrownLeads(a: Journal, b: Journal)
    requires Grown(a, b)
    ensures Journals.Valid(a) && Journals.Valid(b) && Extends(a, b) && a.sequence <= |History(b.hash)|
  {
  }

  lemma TwoRows(a: (string, File), b: (string, File))
    ensures Overlay(map[], [a, b]) == map[a.0 := a.1][b.0 := b.1] && Overlay(map[], [a]) == map[a.0 := a.1]
  {
    OverlaySnoc(map[], [], a);
    OverlaySnoc(map[], [a], b);
    assert [] + [a] == [a] && [a] + [b] == [a, b];
  }

  lemma JournalLasts()
    ensures Journals.Valid(Expired().journal) && |Expired().journal.records| <= CHANGE_RETENTION
  {
    hide AppendAll, Grown, Since, Journals.Valid;
    var j, cs := Published().journal, Since();
    StartGood();
    AppendValid(Begun(), FileChange([FOLDER], ENTRY));
    AppendAllReplays(j, cs, Mirror(map[], map[], map[], map[]));
    GrownLeads(j, AppendAll(j, cs));
    TruncateValid(AppendAll(j, cs));
  }

  lemma CatalogLasts()
    ensures GoodCatalog(Expired()) && Published().entered <= Expired().entered
  {
    hide AppendAll, Recorded, Journals.Valid, Since, Truncate;
    JournalLasts();
    forall f | Recorded(Expired().journal, f) ensures f in Expired().entered {
      OnlyLater(f);
    }
  }

  lemma NotEvident()
    ensures !Evident(START, PLAN.files) && !Evident(Expired(), PLAN.files)
  {
    hide AppendAll, Since;
    EntryForgotten();
    OnlyLater(ENTRY);
    assert PLAN.files[0] == ENTRY && ENTRY !in [FOLDER];
  }

  lemma ExpiredGood()
    ensures Edited(Published(), Expired()) && Inv(Expired()) && !Retained(Expired())
  {
    hide GoodCatalog, PublishPlan, Since, Evident, AppendAll, Truncate;
    StartGood();
    PublishedIs();
    PublicationSafe(START, OPERATION);
    CatalogLasts();
    EditSafe(Published(), Expired());
    NotEvident();
  }

  lemma FirstRecovery()
    ensures Published() in Recover(START, OPERATION, Storage(None, None)).trace
  {
    hide PublishPlan, Settle, Evident;
    PublishedIs();
    NotEvident();
    var r := Recover(START, OPERATION, Storage(None, None));
    assert r.trace[1] == Published();
  }

  lemma SecondRecovery()
    ensures var w := Last(Recover(Expired(), OPERATION, Storage(None, None))); w.log == ["op", "op"] && ENTRY in w.files
  {
    hide Publish, MapItems, ReceiptOf, AppendChanged, AppendAll, Evident, Since;
    PlanPublishes();
    NotEvident();
    EntryJournalled(Expired().journal);
  }

  /** An expired proof does not fail closed. From a good state, a recovery that
      crashes after the catalog write, and later saves of other entries, lead to a
      state whose recovery publishes the same plan a second time and brings the
      purged entry back. */
  lemma ExpiredProofReplays()
    ensures Inv(START) && Published() in Recover(START, OPERATION, Storage(None, None)).trace
    ensures Edited(Published(), Expired())
    ensures Leads(Server(Published().journal, STORED), Server(Expired().journal, STORED.(files := [FOLDER])))
    ensures Inv(Expired()) && !Retained(Expired())
    ensures Last(Recover(Expired(), OPERATION, Storage(None, None))).log == ["op", "op"]
    ensures ENTRY in Published().files && ENTRY !in Expired().files
    ensures ENTRY in Last(Recover(Expired(), OPERATION, Storage(None, None))).files
  {
    hide Inv, Edited, Leads, Retained, Recover, Since;
    StartGood();
    ExpiredGood();
    SavesLedThere();
    FirstRecovery();
    SecondRecovery();
  }
}
