/** Revisions as versions: a guard that still matches means no edit. */
module Revisions {
  // Along a history of catalogs a revision never stands for two different
  // contents.

  import opened Prelude
  import opened Entries
  import opened BackupCas

  /** Catalogs one save apart. Ids are random: one that left is never issued again. */
  ghost predicate IsHistory(ts: seq<seq<File>>) {
    && |ts| > 0
    && (forall i :: 0 <= i < |ts| ==> UniqueIds(ts[i]))
    && (forall i :: 0 <= i < |ts| - 1 ==> Evolves(ts[i], ts[i + 1]))
    && (forall id, i, j, k :: 0 <= i <= j <= k < |ts| && HasId(ts[i], id) && HasId(ts[k], id) ==> HasId(ts[j], id))
  }

  /** Over any stretch of a history, every surviving entry is the same up to the
      outbox flag or has a strictly larger revision. */
  lemma {:induction false} HistoryEvolves(ts: seq<seq<File>>, i: nat, j: nat)
    requires IsHistory(ts) && i <= j < |ts|
    ensures Evolves(ts[i], ts[j])
  {
    if i == j {
      forall a, b | 0 <= a < |ts[i]| && 0 <= b < |ts[i]| && ts[i][a].id == ts[i][b].id ensures a == b {
        UniqueIdsFind(ts[i], a, b);
      }
    } else {
      HistoryEvolves(ts, i, j - 1);
      forall a, b | 0 <= a < |ts[i]| && 0 <= b < |ts[j]| && ts[i][a].id == ts[j][b].id
        ensures Normal(ts[i][a]) == Normal(ts[j][b]) || ts[i][a].revision < ts[j][b].revision
      {
        assert HasId(ts[i], ts[i][a].id) && HasId(ts[j], ts[i][a].id);
        assert HasId(ts[j - 1], ts[i][a].id);
        var m :| 0 <= m < |ts[j - 1]| && ts[j - 1][m].id == ts[i][a].id;
        assert Evolves(ts[j - 1], ts[j - 1 + 1]);
        assert Normal(ts[i][a]).revision == ts[i][a].revision && Normal(ts[j - 1][m]).revision == ts[j - 1][m].revision;
        assert Normal(ts[j][b]).revision == ts[j][b].revision;
      }
    }
  }

  /** Same id, same revision: nothing a device syncs differs, now or in between. */
  lemma RevisionNamesContent(ts: seq<seq<File>>, i: nat, m: nat, j: nat, a: int, b: int, c: int)
    requires IsHistory(ts) && i <= m <= j < |ts|
    requires 0 <= a < |ts[i]| && 0 <= b < |ts[m]| && 0 <= c < |ts[j]|
    requires ts[i][a].id == ts[m][b].id == ts[j][c].id && ts[i][a].revision == ts[j][c].revision
    ensures Normal(ts[i][a]) == Normal(ts[m][b]) == Normal(ts[j][c])
  {
    HistoryEvolves(ts, i, m);
    HistoryEvolves(ts, m, j);
    HistoryEvolves(ts, i, j);
    assert Normal(ts[i][a]) == Normal(ts[m][b]) ==> ts[i][a].revision == ts[m][b].revision;
    assert Normal(ts[m][b]) == Normal(ts[j][c]) ==> ts[m][b].revision == ts[j][c].revision;
  }

  /** The plan was made against this catalog. */
  ghost predicate PlannedAgainst(files: seq<File>, plan: Plan) {
    forall g :: g in plan.guards ==> g in files
  }

  /** PublishBackup never overwrites an edit: a slot it replaces still holds, and
      at every moment since planning held, exactly what the plan's guard saw. */
  lemma NeverOverwrites(ts: seq<seq<File>>, i: nat, m: nat, j: nat, plan: Plan, k: int, x: int)
    requires IsHistory(ts) && i <= m <= j < |ts| && PlannedAgainst(ts[i], plan)
    requires Publish(ts[j], plan).Ok? && |ts[j]| <= |Publish(ts[j], plan).value|
    requires 0 <= k < |ts[j]| && Publish(ts[j], plan).value[k] != ts[j][k]
    requires 0 <= x < |ts[m]| && ts[m][x].id == ts[j][k].id
    ensures var g := Guarded(plan.guards, ts[j][k].id);
            && g.Some? && Normal(ts[m][x]) == Normal(g.value) && Normal(ts[j][k]) == Normal(g.value)
            && Publish(ts[j], plan).value[k].id == ts[j][k].id
            && Publish(ts[j], plan).value[k].revision == g.value.revision + 1
  {
    hide Publish, UniqueIds, Evolves;
    PublishKeepsTree(ts[j], plan);
    var next := Publish(ts[j], plan).value;
    assert SlotAfter(ts[j][k], plan, |plan.files|, next[k]);
    var g := Guarded(plan.guards, ts[j][k].id).value;
    CheckPassed(ts[j], plan);
    GuardRevision(ts[j], plan, k);
    var a :| 0 <= a < |ts[i]| && ts[i][a] == g;
    RevisionNamesContent(ts, i, m, j, a, x, k);
  }

  lemma CheckPassed(files: seq<File>, plan: Plan)
    requires Publish(files, plan).Ok?
    ensures Check(files, plan).None?
  {
  }
}
