/** The shelf of gallery capsules: what is durable, what is held in memory, and the
    single changes to it. */
module Gallery {
  import opened Prelude

  datatype Record = Record(id: string, owner: string, gallery: bool, expires: int, limit: int, used: int, revoked: bool)

  /** Record.Live */
  predicate Live(r: Record, now: int) {
    !r.revoked && r.used < r.limit && now < r.expires
  }

  /** The durable records, the capsules whose bytes are surely intact and those
      whose bytes are surely removed (a failed removal leaves neither), those whose
      directory an owner's deletion failed to remove, and the leases held in memory.
      `admitted` counts admissions and `issued` every capsule id ever minted. */
  datatype Shelf = Shelf(records: map<string, Record>, frozen: set<string>, removed: set<string>, torn: set<string>,
                         streams: map<string, set<nat>>, cancelled: set<nat>, admitted: map<string, nat>,
                         issued: set<string>)

  /** galleryManifestLocked admits it. */
  predicate Open(s: Shelf, id: string, now: int) {
    id in s.records && s.records[id].gallery && Live(s.records[id], now)
  }

  function Leases(s: Shelf, id: string): set<nat> {
    if id in s.streams then s.streams[id] else {}
  }

  function Admissions(s: Shelf, id: string): nat {
    if id in s.admitted then s.admitted[id] else 0
  }

  /** Its bytes are surely there, or a failed deletion may have taken some. */
  predicate Held(s: Shelf, id: string) {
    id in s.frozen || id in s.torn
  }

  predicate Counted(s: Shelf, r: Record) {
    r.used == Admissions(s, r.id) && (r.used > 0 ==> r.used <= r.limit)
  }

  /** Admissions are what the record says was used and never pass the limit; a
      gallery without its bytes is revoked, and an uncancelled lease has its bytes,
      unless a deletion failed half-way. */
  ghost predicate Sound(s: Shelf) {
    && s.records.Keys <= s.issued && s.frozen !! s.removed && s.removed <= s.issued && s.torn <= s.issued
    && (forall id :: id in s.records ==> s.records[id].id == id && Counted(s, s.records[id]))
    && (forall id :: id in s.records && s.records[id].gallery && !Held(s, id) ==> s.records[id].revoked)
    && (forall id, lease :: lease in Leases(s, id) && lease !in s.cancelled ==> Held(s, id))
  }

  /** A record only ever moves towards its end, ids are never minted twice, and
      removed bytes stay removed. */
  ghost predicate Ages(s: Shelf, t: Shelf) {
    && s.records.Keys <= s.issued <= t.issued && s.removed <= t.removed && s.torn <= t.torn
    && (forall id :: id in t.records ==> id in s.records || id !in s.issued)
    && (forall id :: id in s.records && id in t.records ==>
          && t.records[id].limit == s.records[id].limit && t.records[id].expires == s.records[id].expires
          && s.records[id].used <= t.records[id].used && (s.records[id].revoked ==> t.records[id].revoked))
  }

  lemma AgesTransitive(a: Shelf, b: Shelf, c: Shelf)
    requires Ages(a, b) && Ages(b, c)
    ensures Ages(a, c)
  {
  }

  // ------------------------------------------------------------- single changes

  /** Both promises of a step. */
  ghost predicate Steps(s: Shelf, t: Shelf) {
    Sound(t) && Ages(s, t)
  }

  lemma StepsTransitive(a: Shelf, b: Shelf, c: Shelf)
    requires Steps(a, b) && Steps(b, c)
    ensures Steps(a, c)
  {
  }

  lemma StepsSelf(s: Shelf)
    requires Sound(s)
    ensures Steps(s, s)
  {
  }

  ghost function Published(s: Shelf, r: Record): Shelf {
    s.(records := s.records[r.id := r], frozen := s.frozen + {r.id}, admitted := s.admitted[r.id := 0],
       issued := s.issued + {r.id})
  }

  lemma PublishedSteps(s: Shelf, r: Record)
    requires Sound(s) && r.id !in s.issued && r.used == 0 && !r.revoked
    ensures Steps(s, Published(s, r))
  {
    var t := Published(s, r);
    forall x, l | l in Leases(t, x) && l !in t.cancelled ensures Held(t, x) {
      assert l in Leases(s, x);
    }
  }

  ghost function Leased(s: Shelf, id: string, lease: nat): Shelf {
    s.(streams := s.streams[id := Leases(s, id) + {lease}])
  }

  lemma LeasedSteps(s: Shelf, id: string, lease: nat)
    requires Sound(s) && Held(s, id)
    ensures Steps(s, Leased(s, id, lease))
  {
    var t := Leased(s, id, lease);
    forall x, l | l in Leases(t, x) && l !in t.cancelled ensures Held(t, x) {
      if x != id {
        assert l in Leases(s, x);
      }
    }
  }

  ghost function Spent(s: Shelf, id: string): Shelf
    requires id in s.records
  {
    var r := s.records[id];
    s.(records := s.records[id := r.(used := r.used + 1, revoked := r.used + 1 >= r.limit)],
       admitted := s.admitted[id := Admissions(s, id) + 1])
  }

  lemma SpentSteps(s: Shelf, id: string, now: int)
    requires Sound(s) && id in s.records && Live(s.records[id], now)
    ensures Steps(s, Spent(s, id))
    ensures Admissions(Spent(s, id), id) <= s.records[id].limit
  {
    var t := Spent(s, id);
    forall x | x in t.records
      ensures t.records[x].id == x && Counted(t, t.records[x])
    {
      assert x in s.records;
    }
    forall x, l | l in Leases(t, x) && l !in t.cancelled ensures Held(t, x) {
      assert l in Leases(s, x);
    }
  }

  ghost function Cancelled(s: Shelf, leases: set<nat>): Shelf {
    s.(cancelled := s.cancelled + leases)
  }

  lemma CancelledSteps(s: Shelf, leases: set<nat>)
    requires Sound(s)
    ensures Steps(s, Cancelled(s, leases))
  {
    var t := Cancelled(s, leases);
    forall x, l | l in Leases(t, x) && l !in t.cancelled ensures Held(t, x) {
      assert l in Leases(s, x);
    }
  }

  /** Marked revoked, and its bytes removed as far as the file system went along. */
  ghost function Burned(s: Shelf, id: string, whole: bool): Shelf
    requires id in s.records
  {
    s.(records := s.records[id := s.records[id].(revoked := true)], frozen := s.frozen - {id},
       removed := s.removed + if whole then {id} else {})
  }

  lemma BurnedSteps(s: Shelf, id: string, whole: bool)
    requires Sound(s) && id in s.records && Leases(s, id) <= s.cancelled
    ensures Steps(s, Burned(s, id, whole))
  {
    var t := Burned(s, id, whole);
    forall x, l | l in Leases(t, x) && l !in t.cancelled ensures Held(t, x) {
      assert l in Leases(s, x);
    }
    forall x | x in t.records
      ensures t.records[x].id == x && Counted(t, t.records[x])
    {
      assert x in s.records;
    }
  }

  ghost function Removed(s: Shelf, id: string): Shelf {
    s.(records := s.records - {id}, frozen := s.frozen - {id}, removed := s.removed + {id})
  }

  lemma RemovedSteps(s: Shelf, id: string)
    requires Sound(s) && Leases(s, id) <= s.cancelled && id in s.issued
    ensures Steps(s, Removed(s, id))
  {
    var t := Removed(s, id);
    forall x, l | l in Leases(t, x) && l !in t.cancelled ensures Held(t, x) {
      assert l in Leases(s, x);
    }
  }

  lemma WasIssued(s: Shelf, id: string)
    requires Sound(s) && id in s.records
    ensures id in s.issued
  {
  }

  /** Its directory half removed: the record may be gone with it or not. */
  ghost function Torn(s: Shelf, id: string, kept: bool): Shelf {
    s.(records := if kept then s.records else s.records - {id}, frozen := s.frozen - {id}, torn := s.torn + {id})
  }

  lemma TornSteps(s: Shelf, id: string, kept: bool)
    requires Sound(s) && id in s.issued
    ensures Steps(s, Torn(s, id, kept))
  {
    var t := Torn(s, id, kept);
    forall x, l | l in Leases(t, x) && l !in t.cancelled ensures Held(t, x) {
      assert l in Leases(s, x);
    }
  }

  /** One lease ended. */
  ghost function Dropped(s: Shelf, id: string, lease: nat): Shelf {
    s.(cancelled := s.cancelled + {lease},
       streams := if id in s.streams then s.streams[id := s.streams[id] - {lease}] else s.streams)
  }

  /** Fewer leases of one gallery, and more of them cancelled. */
  ghost predicate FewerLeases(s: Shelf, t: Shelf) {
    && t.(streams := s.streams, cancelled := s.cancelled) == s && s.cancelled <= t.cancelled
    && forall x :: Leases(t, x) <= Leases(s, x)
  }

  lemma FewerSteps(s: Shelf, t: Shelf)
    requires Sound(s) && FewerLeases(s, t)
    ensures Steps(s, t)
  {
    forall x, l | l in Leases(t, x) && l !in t.cancelled ensures Held(t, x) {
      assert l in Leases(s, x);
    }
    assert forall x :: Admissions(t, x) == Admissions(s, x);
  }

  /** A live gallery still has its bytes. */
  lemma LiveHasBytes(s: Shelf, id: string, now: int)
    requires Sound(s) && Open(s, id, now)
    ensures Held(s, id)
  {
  }

  // ------------------------------------------------------------ the ZIP archive

  newtype int64 = x: int | -0x8000_0000_0000_0000 <= x <= 0x7FFF_FFFF_FFFF_FFFF

  const MAXIMUM: int64 := 0x7FFF_FFFF_FFFF_FFFF
  const FRAME: int64 := 0x10_0000

  datatype Item = Item(id: string, size: int64)

  function TotalSize(items: seq<Item>): int {
    if items == [] then 0 else TotalSize(items[..|items| - 1]) + items[|items| - 1].size as int + 4096
  }

  /** What is reserved before an archive is written. The sums and the product stay
      within 64 bits, or the archive is refused. */
  method Reservation(items: seq<Item>) returns (total: Option<int64>)
    ensures total.Some? ==> (forall i :: 0 <= i < |items| ==> items[i].size >= 0)
    ensures total.Some? ==> var n := 4096 + TotalSize(items); total.value as int == n + (n / 0x10_0000 + 1) * 28
    ensures total.None? ==>
              (exists i :: 0 <= i < |items| && items[i].size < 0)
              || 4096 + TotalSize(items) + ((4096 + TotalSize(items)) / 0x10_0000 + 1) * 28 > MAXIMUM as int
              || exists n :: 0 <= n < |items|
                             && 4096 + TotalSize(items[..n]) + items[n].size as int + 4096 > MAXIMUM as int
  {
    var bytes: int64 := 4096;
    for n := 0 to |items|
      invariant bytes as int == 4096 + TotalSize(items[..n]) && bytes >= 4096
      invariant forall i :: 0 <= i < n ==> items[i].size >= 0
    {
      assert items[..n + 1][..n] == items[..n];
      if items[n].size < 0 || MAXIMUM - bytes < 4096 || items[n].size > MAXIMUM - bytes - 4096 {
        return None;
      }
      bytes := bytes + (items[n].size + 4096);
    }
    assert items[..|items|] == items;
    var frames := bytes / FRAME + 1;
    if bytes > MAXIMUM - frames * 28 {
      return None;
    }
    total := Some(bytes + frames * 28);
  }

  /** The encrypted archive of n bytes fits what was reserved. */
  lemma ReservationCovers(n: nat, bytes: nat)
    requires n + 4 <= bytes
    ensures 4 + n + 28 * (n / 0x10_0000 + (if n % 0x10_0000 != 0 then 1 else 0)) <= bytes + (bytes / 0x10_0000 + 1) * 28
  {
  }
}
