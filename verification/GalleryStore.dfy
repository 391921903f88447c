/** The gallery store as it runs, every method one event of its runs. */
module GalleryStore {
  import opened Prelude
  import opened Gallery
  import opened GalleryRuns

  const ACTIVE_LIMIT: nat := 64

  const CACHE_LIMIT: nat := 16

  class Store {
    var records: map<string, Record>
    var frozen: set<string>
    ghost var removed: set<string>
    ghost var torn: set<string>
    var streams: map<string, set<nat>>
    var cancelled: set<nat>
    /** Manifests kept open, and the order they are dropped in. */
    var cache: set<string>
    var cacheOrder: seq<string>
    var active: map<string, nat>
    var nextLease: nat
    ghost var admitted: map<string, nat>
    ghost var issued: set<string>

    ghost function View(): Shelf
      reads this
    {
      Shelf(records, frozen, removed, torn, streams, cancelled, admitted, issued)
    }

    ghost predicate Valid()
      reads this
    {
      && Sound(View()) && |active| <= ACTIVE_LIMIT
      && |cacheOrder| <= CACHE_LIMIT && (forall x :: x in cache ==> x in cacheOrder)
      && (forall id, lease :: id in streams && lease in streams[id] ==> lease < nextLease)
      && forall lease :: lease in cancelled ==> lease < nextLease
    }

    constructor ()
      ensures Valid() && View() == EMPTY
    {
      records, frozen, removed, torn, streams, cancelled := map[], {}, {}, {}, map[], {};
      cache, cacheOrder, active, nextLease, admitted, issued := {}, [], map[], 0, map[], {};
    }

    /** A restart loses what was only in memory: leases, archive jobs, manifests. */
    method Restart()
      requires Valid()
      modifies `streams, `cache, `cacheOrder, `active
      ensures Valid() && Steps(old(View()), View()) && forall now :: Did(old(View()), Event.Restart, now, View())
      ensures active == map[] && cache == {}
    {
      streams, cache, cacheOrder, active := map[], {}, [], map[];
      FewerSteps(old(View()), View());
    }

    /** Publishing a capsule whose bytes are in place. */
    method Publish(r: Record)
      requires Valid() && r.id !in issued && r.used == 0 && !r.revoked
      modifies this
      ensures Valid() && Steps(old(View()), View()) && forall now :: Did(old(View()), Event.Publish(r), now, View())
    {
      hide Sound, Steps;
      PublishedSteps(View(), r);
      records, frozen := records[r.id := r], frozen + {r.id};
      admitted, issued := admitted[r.id := 0], issued + {r.id};
      SoundNow(old(View()), View());
    }

    lemma ValidIsSound()
      requires Valid()
      ensures Sound(View())
    {
    }

    lemma SoundNow(s: Shelf, t: Shelf)
      requires Steps(s, t)
      ensures Sound(t)
    {
    }

    /** A live gallery whose key the caller can open. */
    predicate Admissible(id: string, token: bool, authorised: bool, readable: bool, now: int)
      reads `records, `cache
    {
      token && id in records && records[id].gallery && Live(records[id], now) && authorised && (id in cache || readable)
    }

    /** galleryManifestLocked: an opened manifest is kept, the oldest of sixteen
        making room. */
    method Manifest(id: string, token: bool, authorised: bool, readable: bool, now: int) returns (admissible: bool)
      requires Valid()
      modifies `cache, `cacheOrder
      ensures Valid() && admissible == old(Admissible(id, token, authorised, readable, now))
      ensures cache <= old(cache) + {id} && (admissible ==> id in cache)
      ensures !admissible || id in old(cache) ==> cache == old(cache) && cacheOrder == old(cacheOrder)
    {
      if !token || id !in records || !records[id].gallery || !Live(records[id], now) || !authorised {
        return false;
      }
      if id in cache {
        return true;
      }
      if !readable {
        return false;
      }
      if |cacheOrder| >= CACHE_LIMIT {
        cache, cacheOrder := cache - {cacheOrder[0]}, cacheOrder[1..];
      }
      cache, cacheOrder := cache + {id}, cacheOrder + [id];
      admissible := true;
    }

    /** leaseGalleryLocked */
    method Lease(id: string) returns (lease: nat)
      requires Valid() && Held(View(), id)
      modifies `streams, `nextLease
      ensures Valid() && Steps(old(View()), View()) && Unused(old(View()), lease)
      ensures View() == Leased(old(View()), id, lease) && lease !in cancelled && lease == old(nextLease)
              && nextLease == lease + 1
    {
      hide Sound, Steps;
      LeasedSteps(View(), id, nextLease);
      lease := nextLease;
      nextLease := nextLease + 1;
      streams := streams[id := (if id in streams then streams[id] else {}) + {lease}];
      SoundNow(old(View()), View());
    }

    /** GalleryPreview and GalleryMotion: a lease, and no retry spent. */
    method Preview(id: string, token: bool, authorised: bool, readable: bool, known: bool, now: int)
      returns (lease: Option<nat>)
      requires Valid()
      modifies this
      ensures Valid() && Steps(old(View()), View())
      ensures lease.Some? <==> old(Admissible(id, token, authorised, readable, now)) && known
      ensures lease.None? ==> View() == old(View())
      ensures lease.Some? ==>
                lease.value !in cancelled && Did(old(View()), Event.Preview(id, lease.value), now, View())
    {
      hide Sound, Steps;
      StepsSelf(View());
      var admissible := Manifest(id, token, authorised, readable, now);
      if !admissible || !known {
        return None;
      }
      LiveHasBytes(View(), id, now);
      var handle := Lease(id);
      lease := Some(handle);
    }

    /** The admission of GalleryOriginal and GalleryDownload: one retry is spent
        durably before the transfer is leased; the last one closes the gallery. */
    method Admit(id: string, token: bool, authorised: bool, readable: bool, wanted: bool, writes: bool, now: int)
      returns (lease: Option<nat>)
      requires Valid()
      modifies this
      ensures Valid() && Steps(old(View()), View())
      ensures lease.Some? <==> old(Admissible(id, token, authorised, readable, now)) && wanted && writes
      ensures lease.None? ==> View() == old(View())
      ensures lease.Some? ==> id in old(records) && Live(old(records)[id], now) && lease.value !in cancelled
      ensures lease.Some? ==> Did(old(View()), Event.Original(id, lease.value), now, View())
      ensures lease.Some? ==> Admissions(View(), id) == Admissions(old(View()), id) + 1 <= records[id].limit
    {
      hide Sound, Steps;
      StepsSelf(View());
      var admissible := Manifest(id, token, authorised, readable, now);
      if !admissible || !wanted || !writes {
        return None;
      }
      LiveHasBytes(View(), id, now);
      SpendRetry(id, now);
      ghost var mid := View();
      var handle := Lease(id);
      lease := Some(handle);
      StepsTransitive(old(View()), mid, View());
    }

    /** The durable counter write of an admission. */
    method SpendRetry(id: string, now: int)
      requires Valid() && id in records && Live(records[id], now)
      modifies `records, `admitted
      ensures Valid() && Steps(old(View()), View()) && View() == Spent(old(View()), id)
      ensures Admissions(View(), id) <= records[id].limit
    {
      hide Sound, Steps;
      SpentSteps(View(), id, now);
      var r := records[id];
      admitted := admitted[id := (if id in admitted then admitted[id] else 0) + 1];
      records := records[id := r.(used := r.used + 1, revoked := r.used + 1 >= r.limit)];
      SoundNow(old(View()), View());
    }

    /** DownloadGalleryZIP: the lease comes first, and is dropped again when the
        archive does not open or the admission cannot be written. */
    method AdmitZIP(id: string, token: bool, authorised: bool, readable: bool, ready: bool, opens: bool, writes: bool,
                    now: int)
      returns (lease: Option<nat>)
      requires Valid()
      modifies this
      ensures Valid() && Steps(old(View()), View())
      ensures lease.Some? <==> old(Admissible(id, token, authorised, readable, now)) && ready && opens && writes
      ensures lease.None? ==>
                View() == old(View()) || exists l :: Did(old(View()), Event.Refused(id, l), now, View())
      ensures lease.Some? ==> id in old(records) && Live(old(records)[id], now) && lease.value !in cancelled
      ensures lease.Some? ==> Did(old(View()), Event.Archive(id, lease.value), now, View())
      ensures lease.Some? ==> Admissions(View(), id) == Admissions(old(View()), id) + 1 <= records[id].limit
    {
      hide Sound, Steps;
      StepsSelf(View());
      var admissible := Manifest(id, token, authorised, readable, now);
      if !admissible || !ready {
        return None;
      }
      LiveHasBytes(View(), id, now);
      var handle := Lease(id);
      ghost var mid := View();
      if !opens || !writes {
        DropLease(id, handle);
        assert Did(old(View()), Event.Refused(id, handle), now, View());
        StepsTransitive(old(View()), mid, View());
        return None;
      }
      SpendRetry(id, now);
      StepsTransitive(old(View()), mid, View());
      lease := Some(handle);
    }

    /** Deletes and cancels one lease. */
    method DropLease(id: string, lease: nat)
      requires Valid() && lease < nextLease
      modifies `streams, `cancelled
      ensures Valid() && Steps(old(View()), View()) && View() == Dropped(old(View()), id, lease)
      ensures forall x :: Leases(View(), x) == Leases(old(View()), x) - (if x == id then {lease} else {})
      ensures cancelled == old(cancelled) + {lease}
    {
      hide Sound, Steps;
      cancelled := cancelled + {lease};
      if id in streams {
        streams := streams[id := streams[id] - {lease}];
      }
      FewerSteps(old(View()), View());
      SoundNow(old(View()), View());
    }

    /** Preparing an archive: startGalleryZIPLocked runs at most one worker per job
        and 64 in all, for a job that still has to be prepared. */
    method StartZIP(id: string, job: string, token: bool, authorised: bool, readable: bool, unprepared: bool, now: int)
      returns (lease: Option<nat>)
      requires Valid()
      modifies this
      ensures Valid() && Steps(old(View()), View())
      ensures lease.Some? <==> old(Admissible(id, token, authorised, readable, now)) && unprepared
                               && id + ":" + job !in old(active) && |old(active)| < ACTIVE_LIMIT
      ensures lease.None? ==> View() == old(View()) && active == old(active)
      ensures lease.Some? ==> Did(old(View()), Event.Preview(id, lease.value), now, View())
                              && active == old(active)[id + ":" + job := lease.value]
    {
      hide Sound, Steps, Unused;
      StepsSelf(View());
      var admissible := Manifest(id, token, authorised, readable, now);
      var key := id + ":" + job;
      if !admissible || !unprepared || key in active || |active| >= ACTIVE_LIMIT {
        return None;
      }
      LiveHasBytes(View(), id, now);
      var handle := Lease(id);
      active := active[key := handle];
      lease := Some(handle);
    }

    /** checkpointGalleryZIP: a worker's status is only written into a live gallery
        through a lease nobody cancelled. */
    method CheckpointZIP(id: string, lease: nat, now: int) returns (written: bool)
      requires Valid() && lease in Leases(View(), id)
      ensures written <==> lease !in cancelled && id in records && Live(records[id], now)
      ensures written && id !in torn ==> id in frozen
    {
      written := lease !in cancelled && id in records && Live(records[id], now);
    }

    /** The worker's end: it gives up its job, then its lease. */
    method EndZIP(id: string, job: string, lease: nat, io: Io, now: int)
      requires Valid() && lease < nextLease
      modifies this
      ensures Valid() && Steps(old(View()), View()) && active == old(active) - {id + ":" + job}
      ensures Did(old(View()), Event.Finish(id, lease, io), now, View())
      ensures Leases(View(), id) == Leases(old(View()), id) - {lease} && lease in cancelled
      ensures LastOnDead(old(View()), id, lease, now) && io.read && io.meta ==> id in records && records[id].revoked
      ensures LastOnDead(old(View()), id, lease, now) && io.read && Whole(io) ==> id in removed
      ensures !(LastOnDead(old(View()), id, lease, now) && io.read && io.meta) ==>
                frozen == old(frozen) && removed == old(removed) && records == old(records)
    {
      hide Sound, Steps;
      active := active - {id + ":" + job};
      FewerActive(active, old(active), id + ":" + job);
      Finish(id, lease, io, now);
    }

    /** cancelGalleryLocked */
    method Cancel(id: string)
      requires Valid()
      modifies `cancelled
      ensures Valid() && Steps(old(View()), View()) && View() == Cancelled(old(View()), Leases(old(View()), id))
    {
      hide Sound, Steps;
      CancelledSteps(View(), Leases(View(), id));
      if id in streams {
        var todo := streams[id];
        while todo != {}
          invariant todo <= streams[id] && cancelled == old(cancelled) + (streams[id] - todo)
        {
          var lease :| lease in todo;
          cancelled := cancelled + {lease};
          todo := todo - {lease};
        }
      }
      assert cancelled == old(cancelled) + Leases(old(View()), id);
      SoundNow(old(View()), View());
    }

    /** revokeDir: cancel, mark, remove, mark again; any step may fail. */
    method RevokeDir(id: string, io: Io) returns (ok: bool)
      requires Valid() && id in records
      modifies `records, `frozen, `removed, `cancelled, `cache
      ensures Valid() && Steps(old(View()), View())
      ensures ok <==> Works(io)
      ensures var s := Cancelled(old(View()), Leases(old(View()), id));
                View() == if io.meta then Burned(s, id, Whole(io)) else s
      ensures View() == Taken(old(View()), id, io)
    {
      hide Sound, Steps;
      Cancel(id);
      cache := cache - {id};
      ghost var mid := View();
      if !io.meta {
        return false;
      }
      BurnedSteps(mid, id, Whole(io));
      records, frozen := records[id := records[id].(revoked := true)], frozen - {id};
      removed := removed + if Whole(io) then {id} else {};
      StepsTransitive(old(View()), mid, View());
      SoundNow(mid, View());
      ok := io.bytes && io.keys && io.again;
    }

    /** finishGallery: the last lease to end on a dead gallery takes the bytes along. */
    method Finish(id: string, lease: nat, io: Io, now: int)
      requires Valid() && lease < nextLease
      modifies this
      ensures Valid() && Steps(old(View()), View()) && Did(old(View()), Event.Finish(id, lease, io), now, View())
      ensures Leases(View(), id) == Leases(old(View()), id) - {lease}
      ensures active == old(active) && lease in cancelled
      ensures LastOnDead(old(View()), id, lease, now) && io.read && io.meta ==> id in records && records[id].revoked
      ensures LastOnDead(old(View()), id, lease, now) && io.read && Whole(io) ==> id in removed
      ensures !(LastOnDead(old(View()), id, lease, now) && io.read && io.meta) ==>
                frozen == old(frozen) && removed == old(removed) && records == old(records)
    {
      hide Sound, Steps;
      DropLease(id, lease);
      ghost var mid := View();
      if id in streams && streams[id] != {} {
        return;
      }
      streams := streams - {id};
      FewerSteps(mid, View());
      SoundNow(mid, View());
      StepsTransitive(old(View()), mid, View());
      if io.read && id in records && !Live(records[id], now) {
        ghost var last := View();
        var ok := RevokeDir(id, io);
        StepsTransitive(old(View()), last, View());
      }
    }

    /** Revoke; RevokeOwner adds the owner check. */
    method Revoke(id: string, owner: Option<string>, io: Io) returns (ok: bool)
      requires Valid()
      modifies this
      ensures Valid() && Steps(old(View()), View())
      ensures ok ==> id in records && records[id].revoked && id in removed && Leases(View(), id) <= cancelled
      ensures ok <==> Revocable(old(View()), id, owner, io) && Works(io)
      ensures if Revocable(old(View()), id, owner, io)
              then forall now :: Did(old(View()), Event.Revoke(id, io), now, View())
              else View() == old(View())
    {
      hide Sound, Steps;
      StepsSelf(View());
      if !io.read || id !in records || (owner.Some? && records[id].owner != owner.value) {
        return false;
      }
      ok := RevokeDir(id, io);
    }

    /** One directory removed outright, or torn. */
    method RemoveDir(id: string, wipe: Wipe) returns (ok: bool)
      requires Valid() && id in records
      modifies this
      ensures Valid() && Steps(old(View()), View()) && ok == wipe.whole
      ensures View() == Deleted(old(View()), id, wipe)
    {
      hide Sound, Steps;
      DeletedSteps(View(), id, wipe);
      ghost var goal := Deleted(View(), id, wipe);
      Cancel(id);
      cache := cache - {id};
      frozen := frozen - {id};
      records := if wipe.whole || !wipe.kept then records - {id} else records;
      removed := if wipe.whole then removed + {id} else removed;
      torn := if wipe.whole then torn else torn + {id};
      assert View() == goal;
      SoundNow(old(View()), View());
      ok := wipe.whole;
    }

    /** DeleteOwner: the whole directories go, leases first; the first failure ends it. */
    method DeleteOwner(owner: string, readable: string -> bool, wipes: string -> Wipe, now: int)
      returns (ok: bool, ghost shelves: seq<Shelf>, ghost es: seq<Event>)
      requires Valid()
      modifies this
      ensures Valid() && Steps(old(View()), View())
      ensures Plays(shelves, es, now) && shelves[0] == old(View()) && shelves[|es|] == View()
      ensures forall e :: e in es ==> e.Delete? && e.id in old(records) && old(records)[e.id].owner == owner
      ensures ok <==> forall id :: id in old(records) ==>
                readable(id) && (old(records)[id].owner == owner ==> wipes(id).whole)
      ensures forall id :: id in old(records) && old(records)[id].owner != owner ==>
                id in records && records[id] == old(records)[id] && (id in frozen <==> id in old(frozen))
      ensures ok ==> forall id :: id in old(records) && old(records)[id].owner == owner ==>
                       id !in records && id in removed && Leases(View(), id) <= cancelled
    {
      hide Sound, Steps, Valid, Plays, Did, Burned, Cancelled, Taken, Deleted, Removed, Torn;
      ValidIsSound();
      StepsSelf(View());
      var todo := records.Keys;
      shelves, es, ok := [View()], [], true;
      PlaysNothing(View(), now);
      while todo != {} && ok
        invariant Valid() && Steps(old(View()), View()) && todo <= old(records).Keys && streams == old(streams)
        invariant Plays(shelves, es, now) && |shelves| == |es| + 1 && shelves[0] == old(View())
                  && shelves[|es|] == View()
        invariant forall e :: e in es ==> e.Delete? && e.id in old(records) && old(records)[e.id].owner == owner
        invariant ok <==> forall id :: id in old(records) && id !in todo ==>
                            readable(id) && (old(records)[id].owner == owner ==> wipes(id).whole)
        invariant forall id :: id in old(records) && (id in todo || old(records)[id].owner != owner) ==>
                    id in records && records[id] == old(records)[id] && (id in frozen <==> id in old(frozen))
        invariant ok ==> forall id :: id in old(records) && id !in todo && old(records)[id].owner == owner ==>
                           id !in records && id in removed && Leases(View(), id) <= cancelled
      {
        var id :| id in todo;
        todo := todo - {id};
        if !readable(id) {
          ok := false;
        } else if records[id].owner == owner {
          ghost var before := View();
          ok := RemoveDir(id, wipes(id));
          DeletedEffect(before, id, wipes(id));
          StepsTransitive(old(View()), before, View());
          DeletesOn(shelves, es, now, before, id, wipes(id), View());
          shelves, es := shelves + [View()], es + [Event.Delete(id, wipes(id))];
        }
      }
    }

    /** RevokeAll: every capsule of the owner that is not yet revoked. */
    method RevokeAll(owner: string, ios: string -> Io, now: int)
      returns (ok: bool, ghost shelves: seq<Shelf>, ghost es: seq<Event>)
      requires Valid()
      modifies this
      ensures Valid() && Steps(old(View()), View()) && records.Keys == old(records).Keys
      ensures Plays(shelves, es, now) && shelves[0] == old(View()) && shelves[|es|] == View()
      ensures forall e :: e in es ==> e.Revoke? && e.id in old(records) && old(records)[e.id].owner == owner
      ensures ok <==> forall id :: id in records ==>
                        ios(id).read && (old(records)[id].owner == owner && !old(records)[id].revoked ==>
                                         Works(ios(id)))
      ensures forall id :: id in records && old(records)[id].owner != owner ==>
                records[id] == old(records)[id] && (id in frozen <==> id in old(frozen))
      ensures ok ==> forall id :: id in records && old(records)[id].owner == owner ==> records[id].revoked
    {
      hide Sound, Steps, Valid, Plays, Did, Burned, Cancelled, Taken, Deleted, Removed, Torn;
      ValidIsSound();
      StepsSelf(View());
      var todo := records.Keys;
      shelves, es, ok := [View()], [], true;
      PlaysNothing(View(), now);
      while todo != {} && ok
        invariant Valid() && Steps(old(View()), View()) && todo <= records.Keys == old(records).Keys
        invariant Plays(shelves, es, now) && |shelves| == |es| + 1 && shelves[0] == old(View())
                  && shelves[|es|] == View()
        invariant forall e :: e in es ==> e.Revoke? && e.id in old(records) && old(records)[e.id].owner == owner
        invariant ok <==> forall id :: id in records && id !in todo ==>
                            ios(id).read
                            && (old(records)[id].owner == owner && !old(records)[id].revoked ==> Works(ios(id)))
        invariant forall id :: id in records && (id in todo || old(records)[id].owner != owner) ==>
                    records[id] == old(records)[id] && (id in frozen <==> id in old(frozen))
        invariant ok ==> forall id :: id in records && id !in todo && old(records)[id].owner == owner ==>
                    records[id].revoked
      {
        var id :| id in todo;
        todo := todo - {id};
        if !ios(id).read {
          ok := false;
        } else if records[id].owner == owner && !records[id].revoked {
          ghost var before := View();
          ok := RevokeDir(id, ios(id));
          TakenEffect(before, id, ios(id));
          StepsTransitive(old(View()), before, View());
          TakesOn(shelves, es, now, before, Event.Revoke(id, ios(id)), id, ios(id), View());
          shelves, es := shelves + [View()], es + [Event.Revoke(id, ios(id))];
        }
      }
    }

    /** CleanupExpiredBytes: expired capsules lose their bytes and readers; a revoked
        one that has not expired waits until its readers have ended. */
    method CleanupExpired(ios: string -> Io, measured: string -> bool, now: int)
      returns (ok: bool, ghost shelves: seq<Shelf>, ghost es: seq<Event>)
      requires Valid()
      modifies this
      ensures Valid() && Steps(old(View()), View()) && records.Keys == old(records).Keys
      ensures Plays(shelves, es, now) && shelves[0] == old(View()) && shelves[|es|] == View()
      ensures forall e :: e in es ==> e.Cleanup?
      ensures forall id :: id in records && Spared(old(View()), id, now) ==>
                records[id] == old(records)[id] && (id in frozen <==> id in old(frozen))
      ensures ok ==> forall id :: id in records && !Spared(old(View()), id, now) ==>
                records[id].revoked && id in removed
      ensures ok <==> forall id :: id in records ==>
                        ios(id).read && (!Spared(old(View()), id, now) ==> measured(id) && Works(ios(id)))
    {
      hide Sound, Steps, Valid, Plays, Did, Burned, Cancelled, Taken, Deleted, Removed, Torn;
      ValidIsSound();
      StepsSelf(View());
      var todo := records.Keys;
      shelves, es, ok := [View()], [], true;
      PlaysNothing(View(), now);
      while todo != {} && ok
        invariant Valid() && Steps(old(View()), View()) && todo <= records.Keys == old(records).Keys
                  && streams == old(streams)
        invariant Plays(shelves, es, now) && |shelves| == |es| + 1 && shelves[0] == old(View())
                  && shelves[|es|] == View()
        invariant forall e :: e in es ==> e.Cleanup?
        invariant forall id :: id in records && (id in todo || Spared(old(View()), id, now)) ==>
          records[id] == old(records)[id] && (id in frozen <==> id in old(frozen))
        invariant ok ==> forall id :: id in records && id !in todo && !Spared(old(View()), id, now) ==>
                    records[id].revoked && id in removed
        invariant ok <==> forall id :: id in records && id !in todo ==>
                            ios(id).read && (!Spared(old(View()), id, now) ==> measured(id) && Works(ios(id)))
      {
        var id :| id in todo;
        todo := todo - {id};
        var r := records[id];
        if !ios(id).read {
          ok := false;
          continue;
        }
        if !r.revoked && now < r.expires {
          continue;
        }
        if now < r.expires && id in streams && streams[id] != {} {
          continue;
        }
        if !measured(id) {
          ok := false;
          continue;
        }
        ghost var before := View();
        ok := RevokeDir(id, ios(id));
        TakenEffect(before, id, ios(id));
        StepsTransitive(old(View()), before, View());
        TakesOn(shelves, es, now, before, Event.Cleanup(id, ios(id)), id, ios(id), View());
        shelves, es := shelves + [View()], es + [Event.Cleanup(id, ios(id))];
      }
    }
  }

  predicate Revocable(s: Shelf, id: string, owner: Option<string>, io: Io) {
    io.read && id in s.records && (owner.Some? ==> s.records[id].owner == owner.value)
  }

  /** A revocation concerns one record, and readers of it only. */
  lemma TakenEffect(s: Shelf, id: string, io: Io)
    requires id in s.records
    ensures var t := Taken(s, id, io);
            && t.streams == s.streams && t.records.Keys == s.records.Keys && s.removed <= t.removed
            && (forall x :: x in s.records && x != id ==>
                t.records[x] == s.records[x] && (x in t.frozen <==> x in s.frozen))
            && (Works(io) ==> t.records[id].revoked && id in t.removed)
            && (forall x :: x in s.records && s.records[x].revoked ==> t.records[x].revoked)
  {
  }

  lemma DeletedEffect(s: Shelf, id: string, wipe: Wipe)
    requires id in s.records
    ensures var t := Deleted(s, id, wipe);
            && t.streams == s.streams && t.records.Keys <= s.records.Keys && s.removed <= t.removed
            && s.cancelled <= t.cancelled
            && (forall x :: x in s.records && x != id ==>
                  x in t.records && t.records[x] == s.records[x] && (x in t.frozen <==> x in s.frozen))
            && (wipe.whole ==> id !in t.records && id in t.removed && Leases(t, id) <= t.cancelled)
  {
  }

  lemma PlaysNothing(s: Shelf, now: int)
    ensures Plays([s], [], now)
  {
  }

  lemma DeletesOn(shelves: seq<Shelf>, es: seq<Event>, now: int, s: Shelf, id: string, wipe: Wipe, t: Shelf)
    requires Plays(shelves, es, now) && shelves[|es|] == s && id in s.records && t == Deleted(s, id, wipe)
    ensures Plays(shelves + [t], es + [Event.Delete(id, wipe)], now)
  {
    hide Plays;
    PlaysOn(shelves, es, now, Event.Delete(id, wipe), t);
  }

  lemma TakesOn(shelves: seq<Shelf>, es: seq<Event>, now: int, s: Shelf, e: Event, id: string, io: Io, t: Shelf)
    requires Plays(shelves, es, now) && shelves[|es|] == s && id in s.records && t == Taken(s, id, io)
    requires e == Event.Revoke(id, io) || (e == Event.Cleanup(id, io) && !Spared(s, id, now))
    ensures Plays(shelves + [t], es + [e], now)
  {
    hide Plays;
    PlaysOn(shelves, es, now, e, t);
  }

  lemma FewerActive(less: map<string, nat>, more: map<string, nat>, key: string)
    requires less == more - {key}
    ensures |less| <= |more|
  {
    if key in more {
      assert more.Keys == less.Keys + {key};
      assert |less.Keys| + 1 == |more.Keys|;
      assert |less| == |less.Keys| && |more| == |more.Keys|;
    } else {
      assert less == more;
    }
  }
}
