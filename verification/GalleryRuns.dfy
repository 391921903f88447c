/** Runs of the gallery store: every locked region is one event with its guard. */
module GalleryRuns {
  import opened Prelude
  import opened Gallery

  /** Answers of the file system during one revocation. */
  datatype Io = Io(read: bool, meta: bool, bytes: bool, keys: bool, again: bool)

  /** The revocation got as far as removing every byte. */
  predicate Whole(io: Io) {
    io.meta && io.bytes && io.keys
  }

  predicate Works(io: Io) {
    Whole(io) && io.again
  }

  /** What became of one directory to be removed: all of it went, or the removal
      failed and the record was still there or not. */
  datatype Wipe = Wipe(whole: bool, kept: bool)

  datatype Event =
    | Publish(record: Record)
    | Preview(id: string, lease: nat)
    | Original(id: string, lease: nat)
    | Archive(id: string, lease: nat)
    | Refused(id: string, lease: nat)
    | Finish(id: string, lease: nat, io: Io)
    | Revoke(id: string, io: Io)
    | Cleanup(id: string, io: Io)
    | Delete(id: string, wipe: Wipe)
    | Restart

  /** No lease carries this handle, nor ever did while it counted. */
  ghost predicate Unused(s: Shelf, lease: nat) {
    lease !in s.cancelled && forall x :: lease !in Leases(s, x)
  }

  /** No other lease is left, and the record no longer lives. */
  ghost predicate LastOnDead(s: Shelf, id: string, lease: nat, now: int) {
    Leases(s, id) <= {lease} && id in s.records && !Live(s.records[id], now)
  }

  /** Not expired, and not revoked or still read. */
  ghost predicate Spared(s: Shelf, id: string, now: int)
    requires id in s.records
  {
    now < s.records[id].expires && (!s.records[id].revoked || Leases(s, id) != {})
  }

  /** What the code checks before it acts. */
  ghost predicate Enabled(s: Shelf, e: Event, now: int) {
    match e
    case Publish(r) => r.id !in s.issued && r.used == 0 && !r.revoked
    case Preview(id, lease) => Open(s, id, now) && Unused(s, lease)
    case Original(id, lease) => Open(s, id, now) && Unused(s, lease)
    case Archive(id, lease) => Open(s, id, now) && Unused(s, lease)
    case Refused(id, lease) => Open(s, id, now) && Unused(s, lease)
    case Finish(_, _, _) => true
    case Revoke(id, _) => id in s.records
    case Cleanup(id, _) => id in s.records && !Spared(s, id, now)
    case Delete(id, _) => id in s.records
    case Restart => true
  }

  /** revokeDir: readers cancelled, marked, removed as far as it goes. */
  ghost function Taken(s: Shelf, id: string, io: Io): Shelf
    requires id in s.records
  {
    var c := Cancelled(s, Leases(s, id));
    if io.meta then Burned(c, id, Whole(io)) else c
  }

  /** finishGallery: the lease ends, and the last one on a dead gallery takes it. */
  ghost function Finished(s: Shelf, id: string, lease: nat, io: Io, now: int): Shelf {
    var d := Dropped(s, id, lease);
    if Leases(d, id) != {} then d else
    var f := d.(streams := d.streams - {id});
    if io.read && id in f.records && !Live(f.records[id], now) then Taken(f, id, io) else f
  }

  ghost function Deleted(s: Shelf, id: string, wipe: Wipe): Shelf {
    var c := Cancelled(s, Leases(s, id));
    if wipe.whole then Removed(c, id) else Torn(c, id, wipe.kept)
  }

  /** The shelf after an event. */
  ghost function Next(s: Shelf, e: Event, now: int): Shelf
    requires Enabled(s, e, now)
  {
    match e
    case Publish(r) => Published(s, r)
    case Preview(id, lease) => Leased(s, id, lease)
    case Original(id, lease) => Leased(Spent(s, id), id, lease)
    case Archive(id, lease) => Spent(Leased(s, id, lease), id)
    case Refused(id, lease) => Dropped(Leased(s, id, lease), id, lease)
    case Finish(id, lease, io) => Finished(s, id, lease, io, now)
    case Revoke(id, io) => Taken(s, id, io)
    case Cleanup(id, io) => Taken(s, id, io)
    case Delete(id, wipe) => Deleted(s, id, wipe)
    case Restart => s.(streams := map[])
  }

  ghost predicate Did(s: Shelf, e: Event, now: int, t: Shelf) {
    Enabled(s, e, now) && t == Next(s, e, now)
  }

  // --------------------------------------------------------------- one event

  lemma TakenSteps(s: Shelf, id: string, io: Io)
    requires Sound(s) && id in s.records
    ensures Steps(s, Taken(s, id, io))
  {
    hide Sound, Steps;
    var c := Cancelled(s, Leases(s, id));
    CancelledSteps(s, Leases(s, id));
    StepsSound(s, c);
    if io.meta {
      BurnedSteps(c, id, Whole(io));
      StepsTransitive(s, c, Taken(s, id, io));
    }
  }

  lemma StepsSound(s: Shelf, t: Shelf)
    requires Steps(s, t)
    ensures Sound(t)
  {
  }

  lemma DroppedSteps(s: Shelf, id: string, lease: nat)
    requires Sound(s)
    ensures FewerLeases(s, Dropped(s, id, lease)) && Steps(s, Dropped(s, id, lease))
  {
    hide Sound, Steps;
    FewerSteps(s, Dropped(s, id, lease));
  }

  lemma FinishedSteps(s: Shelf, id: string, lease: nat, io: Io, now: int)
    requires Sound(s)
    ensures Steps(s, Finished(s, id, lease, io, now))
  {
    hide Sound, Steps, Taken;
    var d := Dropped(s, id, lease);
    DroppedSteps(s, id, lease);
    StepsSound(s, d);
    if Leases(d, id) == {} {
      var f := d.(streams := d.streams - {id});
      FewerSteps(d, f);
      StepsTransitive(s, d, f);
      StepsSound(d, f);
      if io.read && id in f.records && !Live(f.records[id], now) {
        TakenSteps(f, id, io);
        StepsTransitive(s, f, Taken(f, id, io));
      }
    }
  }

  lemma DeletedSteps(s: Shelf, id: string, wipe: Wipe)
    requires Sound(s) && id in s.records
    ensures Steps(s, Deleted(s, id, wipe))
  {
    hide Sound, Steps;
    var c := Cancelled(s, Leases(s, id));
    CancelledSteps(s, Leases(s, id));
    StepsSound(s, c);
    WasIssued(c, id);
    if wipe.whole {
      RemovedSteps(c, id);
    } else {
      TornSteps(c, id, wipe.kept);
    }
    StepsTransitive(s, c, Deleted(s, id, wipe));
  }

  lemma LeaseSteps(s: Shelf, e: Event, now: int)
    requires Sound(s) && Enabled(s, e, now) && (e.Preview? || e.Original? || e.Archive? || e.Refused?)
    ensures Steps(s, Next(s, e, now))
  {
    hide Sound, Steps, Live;
    LiveHasBytes(s, e.id, now);
    if e.Original? {
      var mid := Spent(s, e.id);
      SpentSteps(s, e.id, now);
      StepsSound(s, mid);
      LeasedSteps(mid, e.id, e.lease);
      StepsTransitive(s, mid, Next(s, e, now));
    } else {
      var mid := Leased(s, e.id, e.lease);
      LeasedSteps(s, e.id, e.lease);
      StepsSound(s, mid);
      if e.Archive? {
        SpentSteps(mid, e.id, now);
        StepsTransitive(s, mid, Next(s, e, now));
      } else if e.Refused? {
        DroppedSteps(mid, e.id, e.lease);
        StepsTransitive(s, mid, Next(s, e, now));
      }
    }
  }

  lemma RestartSteps(s: Shelf)
    requires Sound(s)
    ensures Steps(s, s.(streams := map[]))
  {
    FewerSteps(s, s.(streams := map[]));
  }

  lemma EventSteps(s: Shelf, e: Event, now: int)
    requires Sound(s) && Enabled(s, e, now)
    ensures Steps(s, Next(s, e, now))
  {
    hide Sound, Steps, Live, Taken, Finished, Deleted, Published;
    match e {
      case Publish(r) => PublishedSteps(s, r);
      case Finish(id, lease, io) => FinishedSteps(s, id, lease, io, now);
      case Revoke(id, io) => TakenSteps(s, id, io);
      case Cleanup(id, io) => TakenSteps(s, id, io);
      case Delete(id, wipe) => DeletedSteps(s, id, wipe);
      case Restart => RestartSteps(s);
      case Preview(_, _) => LeaseSteps(s, e, now);
      case Original(_, _) => LeaseSteps(s, e, now);
      case Archive(_, _) => LeaseSteps(s, e, now);
      case Refused(_, _) => LeaseSteps(s, e, now);
    }
  }

  // --------------------------------------------------------------------- runs

  const EMPTY := Shelf(map[], {}, {}, {}, map[], {}, map[], {})

  /** A run from the empty shelf: enabled events at clocks that do not run backwards. */
  ghost predicate IsRun(shelves: seq<Shelf>, es: seq<Event>, clocks: seq<int>) {
    && |shelves| == |es| + 1 == |clocks| + 1 && shelves[0] == EMPTY
    && (forall i :: 0 <= i < |es| - 1 ==> clocks[i] <= clocks[i + 1])
    && (forall i :: 0 <= i < |es| ==>
          Enabled(shelves[i], es[i], clocks[i]) && shelves[i + 1] == Next(shelves[i], es[i], clocks[i]))
  }

  /** Every shelf of a run is sound. */
  lemma {:induction false} RunSound(shelves: seq<Shelf>, es: seq<Event>, clocks: seq<int>, n: nat)
    requires IsRun(shelves, es, clocks) && n < |shelves|
    ensures Sound(shelves[n]) && (n > 0 ==> Ages(shelves[n - 1], shelves[n]))
  {
    hide Enabled, Next;
    if n > 0 {
      RunSound(shelves, es, clocks, n - 1);
      EventSteps(shelves[n - 1], es[n - 1], clocks[n - 1]);
      assert shelves[n - 1 + 1] == Next(shelves[n - 1], es[n - 1], clocks[n - 1]);
    }
  }

  lemma SoundAges(s: Shelf)
    requires Sound(s)
    ensures Ages(s, s)
  {
  }

  /** Uses, revocations, removals and issued ids only move forward. */
  lemma {:induction false} RunAges(shelves: seq<Shelf>, es: seq<Event>, clocks: seq<int>, i: nat, j: nat)
    requires IsRun(shelves, es, clocks) && i <= j < |shelves|
    ensures Ages(shelves[i], shelves[j])
  {
    hide IsRun, Ages, Sound;
    RunSound(shelves, es, clocks, j);
    if i < j {
      RunAges(shelves, es, clocks, i, j - 1);
      AgesTransitive(shelves[i], shelves[j - 1], shelves[j]);
    } else {
      SoundAges(shelves[i]);
    }
  }

  lemma {:induction false} ClocksForward(shelves: seq<Shelf>, es: seq<Event>, clocks: seq<int>, i: nat, j: nat)
    requires IsRun(shelves, es, clocks) && i <= j < |clocks|
    ensures clocks[i] <= clocks[j]
  {
    hide Enabled, Next;
    if i < j {
      ClocksForward(shelves, es, clocks, i, j - 1);
    }
  }

  /** The event hands out bytes of this gallery. */
  predicate HandsOut(e: Event, id: string) {
    (e.Preview? || e.Original? || e.Archive? || e.Refused?) && e.id == id
  }

  /** Dead at one moment of a run, a capsule is dead or gone ever after, and no
      later event opens it. */
  lemma DeadStaysDead(shelves: seq<Shelf>, es: seq<Event>, clocks: seq<int>, i: nat, j: nat, id: string, now: int,
                      later: int)
    requires IsRun(shelves, es, clocks) && i <= j < |shelves| && now <= later
    requires id in shelves[i].issued && !(id in shelves[i].records && Live(shelves[i].records[id], now))
    ensures !(id in shelves[j].records && Live(shelves[j].records[id], later))
    ensures j < |es| && now <= clocks[j] ==> !HandsOut(es[j], id)
  {
    RunAges(shelves, es, clocks, i, j);
  }

  /** Events of one locked region, one after the other at one clock. */
  ghost predicate Plays(shelves: seq<Shelf>, es: seq<Event>, now: int) {
    && |shelves| == |es| + 1
    && forall i :: 0 <= i < |es| ==> Did(shelves[i], es[i], now, shelves[i + 1])
  }

  lemma PlaysOn(shelves: seq<Shelf>, es: seq<Event>, now: int, e: Event, t: Shelf)
    requires Plays(shelves, es, now) && Did(shelves[|es|], e, now, t)
    ensures Plays(shelves + [t], es + [e], now)
  {
    hide Did;
    forall i | 0 <= i < |es| + 1 ensures Did((shelves + [t])[i], (es + [e])[i], now, (shelves + [t])[i + 1]) {
      if i < |es| {
        assert (shelves + [t])[i] == shelves[i] && (shelves + [t])[i + 1] == shelves[i + 1];
      }
    }
  }

  // -------------------------------------------------------------- admissions

  /** The event spends a use of this gallery. */
  predicate Uses(e: Event, id: string) {
    (e.Original? || e.Archive?) && e.id == id
  }

  /** Admissions of a gallery among the first n events. */
  function UseCount(es: seq<Event>, id: string, n: nat): nat
    requires n <= |es|
  {
    if n == 0 then 0 else UseCount(es, id, n - 1) + if Uses(es[n - 1], id) then 1 else 0
  }

  /** What the admissions so far come to for one id. */
  ghost predicate Tallied(s: Shelf, es: seq<Event>, id: string, n: nat)
    requires n <= |es|
  {
    && (id !in s.issued ==> UseCount(es, id, n) == 0)
    && (id in s.records ==> s.records[id].used == UseCount(es, id, n))
    && forall k :: 0 <= k < n && es[k].Publish? && es[k].record.id == id ==>
         && id in s.issued && UseCount(es, id, n) <= Max(0, es[k].record.limit)
         && (id in s.records ==> s.records[id].limit == es[k].record.limit)
  }

  /** What one event does to the record of an id. */
  ghost predicate Counts(s: Shelf, e: Event, t: Shelf, id: string) {
    && (id in t.issued <==> id in s.issued || (e.Publish? && e.record.id == id))
    && (Uses(e, id) ==> id in s.records && s.records[id].used < s.records[id].limit)
    && (id in t.records ==>
          if e.Publish? && e.record.id == id then t.records[id] == e.record
          else id in s.records && t.records[id].limit == s.records[id].limit
               && t.records[id].used == s.records[id].used + if Uses(e, id) then 1 else 0)
  }

  lemma EventCounts(s: Shelf, e: Event, now: int, id: string)
    requires Enabled(s, e, now)
    ensures Counts(s, e, Next(s, e, now), id)
  {
    hide Unused, LastOnDead, Spared, Leases, Whole, Admissions;
  }

  lemma TallyStep(s: Shelf, e: Event, now: int, t: Shelf, es: seq<Event>, id: string, n: nat)
    requires Enabled(s, e, now) && t == Next(s, e, now) && n < |es| && es[n] == e && s.records.Keys <= s.issued
    requires Tallied(s, es, id, n)
    ensures Tallied(t, es, id, n + 1)
  {
    hide Next, Unused, Open, Spared;
    EventCounts(s, e, now, id);
    assert UseCount(es, id, n + 1) == UseCount(es, id, n) + if Uses(e, id) then 1 else 0;
  }

  lemma {:induction false} RunTallied(shelves: seq<Shelf>, es: seq<Event>, clocks: seq<int>, id: string, n: nat)
    requires IsRun(shelves, es, clocks) && n < |shelves|
    ensures Tallied(shelves[n], es, id, n)
  {
    hide Enabled, Next, Ages;
    if n > 0 {
      RunTallied(shelves, es, clocks, id, n - 1);
      RunSound(shelves, es, clocks, n - 1);
      assert shelves[n - 1 + 1] == Next(shelves[n - 1], es[n - 1], clocks[n - 1]);
      TallyStep(shelves[n - 1], es[n - 1], clocks[n - 1], shelves[n], es, id, n - 1);
    }
  }

  /** Over every run a capsule admits at most as often as it was minted for, and the
      record counts every admission. */
  lemma AdmissionsBounded(shelves: seq<Shelf>, es: seq<Event>, clocks: seq<int>, k: nat, n: nat)
    requires IsRun(shelves, es, clocks) && k < |es| && es[k].Publish? && k < n < |shelves|
    ensures var id := es[k].record.id;
            && UseCount(es, id, n) <= Max(0, es[k].record.limit)
            && (id in shelves[n].records ==> shelves[n].records[id].used == UseCount(es, id, n))
  {
    hide Enabled, Next;
    RunTallied(shelves, es, clocks, es[k].record.id, n);
  }

  // ------------------------------------------------------------------- bytes

  /** An owner's deletion failed on this directory. */
  predicate Tears(e: Event, id: string) {
    e.Delete? && e.id == id && !e.wipe.whole
  }

  lemma {:induction false} TornOnlyByDelete(shelves: seq<Shelf>, es: seq<Event>, clocks: seq<int>, id: string, n: nat)
    requires IsRun(shelves, es, clocks) && n < |shelves|
    requires forall k :: 0 <= k < n ==> !Tears(es[k], id)
    ensures id !in shelves[n].torn
  {
    hide Enabled, Spared, LastOnDead, Unused, Whole;
    if n > 0 {
      TornOnlyByDelete(shelves, es, clocks, id, n - 1);
      assert shelves[n - 1 + 1] == Next(shelves[n - 1], es[n - 1], clocks[n - 1]);
    }
  }

  lemma TornApart(s: Shelf, e: Event, now: int)
    requires Sound(s) && Enabled(s, e, now) && s.torn !! s.frozen
    ensures Next(s, e, now).torn !! Next(s, e, now).frozen
  {
    hide Unused, LastOnDead, Spared, Leases, Whole, Open, Sound;
    TornWasIssued(s);
  }

  lemma {:induction false} TornHasNone(shelves: seq<Shelf>, es: seq<Event>, clocks: seq<int>, n: nat)
    requires IsRun(shelves, es, clocks) && n < |shelves|
    ensures shelves[n].torn !! shelves[n].frozen
  {
    hide Enabled, Next, Sound, Ages;
    if n > 0 {
      TornHasNone(shelves, es, clocks, n - 1);
      RunSound(shelves, es, clocks, n - 1);
      TornApart(shelves[n - 1], es[n - 1], clocks[n - 1]);
      assert shelves[n - 1 + 1] == Next(shelves[n - 1], es[n - 1], clocks[n - 1]);
    }
  }

  lemma TornWasIssued(s: Shelf)
    requires Sound(s)
    ensures s.torn <= s.issued
  {
  }

  /** A gallery that lives, or has a transfer that nobody cancelled, has its bytes
      if and only if no deletion of its owner has failed on it. */
  lemma BytesHeld(shelves: seq<Shelf>, es: seq<Event>, clocks: seq<int>, id: string, n: nat, now: int)
    requires IsRun(shelves, es, clocks) && n < |shelves|
    requires Open(shelves[n], id, now)
             || exists lease :: lease in Leases(shelves[n], id) && lease !in shelves[n].cancelled
    ensures id in shelves[n].frozen <==> forall k :: 0 <= k < n ==> !Tears(es[k], id)
  {
    hide Enabled, Next, Ages;
    RunSound(shelves, es, clocks, n);
    if k :| 0 <= k < n && Tears(es[k], id) {
      TearStays(shelves, es, clocks, id, k, n);
    } else {
      TornOnlyByDelete(shelves, es, clocks, id, n);
    }
  }

  lemma TearStays(shelves: seq<Shelf>, es: seq<Event>, clocks: seq<int>, id: string, k: nat, n: nat)
    requires IsRun(shelves, es, clocks) && k < n < |shelves| && Tears(es[k], id)
    ensures id !in shelves[n].frozen
  {
    hide Enabled, Sound;
    assert shelves[k + 1] == Next(shelves[k], es[k], clocks[k]);
    RunAges(shelves, es, clocks, k + 1, n);
    TornHasNone(shelves, es, clocks, n);
  }

  /** The last transfer to end on a dead gallery takes its bytes for good, if every
      step works. */
  lemma LastFinishRemoves(shelves: seq<Shelf>, es: seq<Event>, clocks: seq<int>, i: nat, j: nat)
    requires IsRun(shelves, es, clocks) && i < |es| && i < j < |shelves| && es[i].Finish?
    requires LastOnDead(shelves[i], es[i].id, es[i].lease, clocks[i]) && es[i].io.read && Whole(es[i].io)
    ensures es[i].id in shelves[j].removed && es[i].id !in shelves[j].frozen
    ensures es[i].id in shelves[j].records ==> shelves[j].records[es[i].id].revoked
  {
    hide Enabled, Sound;
    assert shelves[i + 1] == Next(shelves[i], es[i], clocks[i]);
    RunAges(shelves, es, clocks, i + 1, j);
    RunSound(shelves, es, clocks, j);
    SoundRemoved(shelves[j], es[i].id);
  }

  lemma SoundRemoved(s: Shelf, id: string)
    requires Sound(s) && id in s.removed
    ensures id !in s.frozen
  {
  }

  /** A failed deletion can leave a capsule alive without its bytes. */
  lemma TornLives(id: string, owner: string, now: int) returns (shelves: seq<Shelf>, es: seq<Event>, clocks: seq<int>)
    ensures IsRun(shelves, es, clocks) && |es| == 2
    ensures Open(shelves[2], id, now) && id !in shelves[2].frozen
  {
    var r := Record(id, owner, true, now + 1, 1, 0, false);
    es, clocks := [Publish(r), Delete(id, Wipe(false, true))], [now, now];
    var one := Next(EMPTY, es[0], now);
    shelves := [EMPTY, one, Next(one, es[1], now)];
  }
}
