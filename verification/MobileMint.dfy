/** The idempotent mint: one capsule per (owner, key) at most. */
module MobileMint {
  // A pair reserves its capsule id durably before anything is written; whatever
  // crashes afterwards, it ends in one published capsule or in a terminal
  // failure.

  import opened Prelude

  datatype Key = Key(owner: string, key: string)

  /** The published metadata of a capsule. */
  datatype Meta = Meta(id: string, owner: string, used: int, revoked: bool)

  /** What a caller is told: the ready capsule as it was when recorded, an
      interrupted mint, or the status the mint failed with. */
  datatype Answer = Ready(meta: Meta, base: string, success: int) | Interrupted(id: string) | Refused(status: int)

  datatype Operation = Operation(owner: string, spec: string, id: string, base: string, success: int,
                                 answer: Option<Answer>)

  /** How far the process holding a key's lock has come; gone after a crash. */
  datatype Phase = Reserved | Staged | Published

  /** Durable: operations, published metadata, half-written directories. Volatile:
      the phases. `log` lists publications and `issued` every id ever reserved. */
  datatype World = World(ops: map<Key, Operation>, published: map<string, Meta>, debris: set<string>,
                         phase: map<Key, Phase>, log: seq<string>, issued: set<string>)

  datatype Step =
    | Reserve(k: Key, spec: string, id: string, base: string, success: int)
    | Stage(k: Key)
    | Publish(k: Key, meta: Meta)
    | Abandon(k: Key)
    | Complete(k: Key, status: int)
    | Release(k: Key)
    | RecoverReady(k: Key)
    | Sweep(k: Key)
    | RecoverInterrupted(k: Key)
    | Crash
    | Guest(meta: Meta)
    | Drop(id: string)

  predicate Idle(w: World, k: Key) {
    k in w.ops && w.ops[k].answer.None? && k !in w.phase
  }

  predicate Enabled(w: World, s: Step) {
    match s
    case Reserve(k, spec, id, base, success) => k !in w.ops && id !in w.issued
    case Stage(k) => k in w.phase && w.phase[k] == Reserved && k in w.ops && w.ops[k].id !in w.published
    case Publish(k, meta) => k in w.phase && w.phase[k] == Staged && k in w.ops && meta.id == w.ops[k].id
      && w.ops[k].id !in w.published
    case Abandon(k) => k in w.phase && w.phase[k] == Staged && k in w.ops
    case Complete(k, status) =>
      k in w.phase && k in w.ops
      && (200 <= status < 300 ==> w.ops[k].id in w.published && w.published[w.ops[k].id].owner == k.owner)
    case Release(k) => k in w.phase
    case RecoverReady(k) => Idle(w, k) && w.ops[k].id in w.published && w.published[w.ops[k].id].owner == k.owner
    case Sweep(k) => Idle(w, k) && w.ops[k].id !in w.published
    case RecoverInterrupted(k) => Idle(w, k) && w.ops[k].id !in w.published
    case Crash => true
    case Guest(meta) => meta.id in w.published
    case Drop(id) => id in w.published
  }

  function Answered(w: World, k: Key, a: Answer): World
    requires k in w.ops
  {
    w.(ops := w.ops[k := w.ops[k].(answer := Some(a))], phase := w.phase - {k})
  }

  /** One atomic change. */
  function Next(w: World, s: Step): World
    requires Enabled(w, s)
  {
    match s
    case Reserve(k, spec, id, base, success) =>
      w.(ops := w.ops[k := Operation(k.owner, spec, id, base, success, None)], phase := w.phase[k := Reserved],
         issued := w.issued + {id})
    case Stage(k) => w.(debris := w.debris + {w.ops[k].id}, phase := w.phase[k := Staged])
    case Publish(k, meta) =>
      w.(published := w.published[meta.id := meta], debris := w.debris - {meta.id}, phase := w.phase[k := Published],
         log := w.log + [meta.id])
    case Abandon(k) => w.(debris := w.debris - {w.ops[k].id}, phase := w.phase[k := Reserved])
    case Complete(k, status) =>
      Answered(w, k, if 200 <= status < 300 then Ready(w.published[w.ops[k].id], w.ops[k].base, w.ops[k].success)
               else Refused(status))
    case Release(k) => w.(phase := w.phase - {k})
    case RecoverReady(k) => Answered(w, k, Ready(w.published[w.ops[k].id], w.ops[k].base, w.ops[k].success))
    case Sweep(k) => w.(debris := w.debris - {w.ops[k].id})
    case RecoverInterrupted(k) => Answered(w, k, Interrupted(w.ops[k].id))
    case Crash => w.(phase := map[])
    case Guest(meta) => w.(published := w.published[meta.id := meta])
    case Drop(id) => w.(published := w.published - {id})
  }

  // -------------------------------------------------------------- the invariant

  ghost predicate NoRepeats(log: seq<string>) {
    forall i, j :: 0 <= i < j < |log| ==> log[i] != log[j]
  }

  /** An id is reserved by one key; while its mint runs, the phase says whether it
      has been published; an answered key has no mint running. */
  ghost predicate GoodKey(w: World, k: Key)
    requires k in w.ops
  {
    var op := w.ops[k];
    && op.owner == k.owner && op.id in w.issued
    && (op.answer.Some? ==> k !in w.phase)
    && (k in w.phase ==> (w.phase[k] == Published <==> op.id in w.log))
  }

  ghost predicate Inv(w: World) {
    && (forall k :: k in w.ops ==> GoodKey(w, k))
    && (forall k, l :: k in w.ops && l in w.ops && w.ops[k].id == w.ops[l].id ==> k == l)
    && (forall k :: k in w.phase ==> k in w.ops)
    && NoRepeats(w.log)
    && (forall id :: id in w.log ==> id in w.issued)
    && (forall id :: id in w.published ==> id in w.log && w.published[id].id == id && id !in w.debris)
  }

  /** What no step ever takes back: publications, reservations, answers; and an id
      whose mint is not running is not published any more. */
  ghost predicate Keeps(w: World, x: World) {
    && w.log <= x.log && w.issued <= x.issued
    && (forall k :: k in w.ops ==>
          && k in x.ops && x.ops[k].(answer := None) == w.ops[k].(answer := None)
          && (w.ops[k].answer.Some? ==> x.ops[k].answer == w.ops[k].answer)
          && (k !in w.phase ==> k !in x.phase && (w.ops[k].id in x.log ==> w.ops[k].id in w.log)))
  }

  lemma KeepsTransitive(a: World, b: World, c: World)
    requires Keeps(a, b) && Keeps(b, c)
    ensures Keeps(a, c)
  {
    forall k | k in a.ops
      ensures && k in c.ops && c.ops[k].(answer := None) == a.ops[k].(answer := None)
              && (a.ops[k].answer.Some? ==> c.ops[k].answer == a.ops[k].answer)
              && (k !in a.phase ==> k !in c.phase && (a.ops[k].id in c.log ==> a.ops[k].id in a.log))
    {
      assert k in b.ops && b.ops[k].(answer := None).id == a.ops[k].id;
    }
  }

  lemma KeepsSelf(w: World)
    ensures Keeps(w, w)
  {
  }

  lemma StepKeeps(w: World, s: Step)
    requires Inv(w) && Enabled(w, s)
    ensures Inv(Next(w, s)) && Keeps(w, Next(w, s))
    ensures s.Drop? || w.published.Keys <= Next(w, s).published.Keys
  {
    hide Inv, Keeps, GoodKey;
    match s
    case Publish(k, meta) => PublishKeeps(w, k, meta);
    case Reserve(k, spec, id, base, success) => ReserveKeeps(w, k, spec, id, base, success);
    case Complete(k, status) =>
      Unanswered(w, k);
      AnswerKeeps(w, k, Next(w, s));
    case RecoverReady(k) => AnswerKeeps(w, k, Next(w, s));
    case RecoverInterrupted(k) => AnswerKeeps(w, k, Next(w, s));
    case Stage(k) => PhaseKeeps(w, Next(w, s));
    case Abandon(k) => PhaseKeeps(w, Next(w, s));
    case Release(k) => PhaseKeeps(w, Next(w, s));
    case Crash => PhaseKeeps(w, Next(w, s));
    case Sweep(k) => PhaseKeeps(w, Next(w, s));
    case Guest(meta) =>
      Named(w);
      CapsuleKeeps(w, Next(w, s));
    case Drop(id) =>
      Named(w);
      CapsuleKeeps(w, Next(w, s));
  }

  lemma Unanswered(w: World, k: Key)
    requires Inv(w) && k in w.phase
    ensures k in w.ops && w.ops[k].answer.None?
  {
    assert GoodKey(w, k);
  }

  lemma Named(w: World)
    requires Inv(w)
    ensures forall id :: id in w.published ==> w.published[id].id == id
  {
  }

  /** Phases move or end, half-written directories come and go. */
  lemma PhaseKeeps(w: World, x: World)
    requires Inv(w) && x == w.(phase := x.phase, debris := x.debris)
    requires forall k :: k in x.phase ==> k in w.phase && (x.phase[k] == Published <==> w.phase[k] == Published)
    requires forall id :: id in x.debris && id in w.published ==> id in w.debris
    ensures Inv(x) && Keeps(w, x)
  {
    forall k | k in x.ops ensures GoodKey(x, k) {
      assert GoodKey(w, k);
    }
  }

  /** A published capsule is used, or dropped. */
  lemma CapsuleKeeps(w: World, x: World)
    requires Inv(w) && x == w.(published := x.published)
    requires forall id :: id in x.published ==> id in w.published && x.published[id].id == id
    ensures Inv(x) && Keeps(w, x)
  {
    forall k | k in x.ops ensures GoodKey(x, k) {
      assert GoodKey(w, k);
    }
  }

  lemma PublishKeeps(w: World, k: Key, meta: Meta)
    requires Inv(w) && Enabled(w, Publish(k, meta))
    ensures Inv(Next(w, Publish(k, meta))) && Keeps(w, Next(w, Publish(k, meta)))
  {
    var x := Next(w, Publish(k, meta));
    assert GoodKey(w, k) && meta.id !in w.log;
    forall l | l in x.ops ensures GoodKey(x, l) {
      assert GoodKey(w, l);
      assert l != k ==> w.ops[l].id != meta.id;
    }
    PublishCapsules(w, x, meta);
    forall l | l in w.ops && l !in w.phase && w.ops[l].id in x.log ensures w.ops[l].id in w.log {
      assert w.ops[l].id != meta.id;
    }
  }

  lemma PublishCapsules(w: World, x: World, meta: Meta)
    requires Inv(w) && meta.id !in w.log && meta.id in w.issued
    requires x.log == w.log + [meta.id] && x.published == w.published[meta.id := meta]
             && x.debris == w.debris - {meta.id} && x.issued == w.issued
    ensures NoRepeats(x.log) && (forall id :: id in x.log ==> id in x.issued)
    ensures forall id :: id in x.published ==> id in x.log && x.published[id].id == id && id !in x.debris
  {
    hide GoodKey;
  }

  lemma ReserveKeeps(w: World, k: Key, spec: string, id: string, base: string, success: int)
    requires Inv(w) && Enabled(w, Reserve(k, spec, id, base, success))
    ensures var x := Next(w, Reserve(k, spec, id, base, success)); Inv(x) && Keeps(w, x)
  {
    var x := Next(w, Reserve(k, spec, id, base, success));
    forall l | l in x.ops ensures GoodKey(x, l) {
      assert l != k ==> GoodKey(w, l);
    }
    forall l, m | l in x.ops && m in x.ops && x.ops[l].id == x.ops[m].id ensures l == m {
      assert l != k ==> GoodKey(w, l);
      assert m != k ==> GoodKey(w, m);
    }
  }

  lemma AnswerKeeps(w: World, k: Key, x: World)
    requires Inv(w) && k in w.ops && w.ops[k].answer.None?
    requires exists a :: x == Answered(w, k, a)
    ensures Inv(x) && Keeps(w, x)
  {
    forall l | l in x.ops ensures GoodKey(x, l) {
      assert GoodKey(w, l);
    }
  }

  // ------------------------------------------------------------------ executions

  /** These steps, in this order, lead from one world to the other. */
  ghost predicate Leads(w: World, steps: seq<Step>, x: World)
    decreases |steps|
  {
    if steps == [] then x == w else Enabled(w, steps[0]) && Leads(Next(w, steps[0]), steps[1..], x)
  }

  lemma {:induction false} LeadsOn(w: World, steps: seq<Step>, x: World, s: Step)
    requires Leads(w, steps, x) && Enabled(x, s)
    ensures Leads(w, steps + [s], Next(x, s))
    decreases |steps|
  {
    hide Enabled, Next;
    if steps == [] {
      assert (steps + [s])[1..] == [];
      assert Leads(Next(w, s), [], Next(x, s));
    } else {
      assert (steps + [s])[1..] == steps[1..] + [s];
      LeadsOn(Next(w, steps[0]), steps[1..], x, s);
    }
  }

  lemma {:induction false} LeadsKeeps(w: World, steps: seq<Step>, x: World)
    requires Inv(w) && Leads(w, steps, x)
    ensures Inv(x) && Keeps(w, x)
    ensures (forall s :: s in steps ==> !s.Drop?) ==> w.published.Keys <= x.published.Keys
    decreases |steps|
  {
    hide Inv, Keeps, Enabled, Next;
    if steps == [] {
      KeepsSelf(w);
    } else {
      var next := Next(w, steps[0]);
      StepKeeps(w, steps[0]);
      LeadsKeeps(next, steps[1..], x);
      KeepsTransitive(w, next, x);
    }
  }

  /** Whatever processes do, retry or crash, in any interleaving: every id, and so
      every (owner, key), is published at most once; an answer once recorded and a
      reserved specification never change; a key whose mint is not running any
      more and was not published never will be; and only dropping a capsule, no
      recovery, removes a published one. */
  lemma EveryExecution(w: World, steps: seq<Step>, x: World, k: Key)
    requires Inv(w) && Leads(w, steps, x) && k in w.ops
    ensures k in x.ops && x.ops[k].id == w.ops[k].id && x.ops[k].spec == w.ops[k].spec
    ensures forall i, j :: 0 <= i < j < |x.log| && x.log[i] == w.ops[k].id ==> x.log[j] != w.ops[k].id
    ensures forall l :: l in x.ops && x.ops[l].id == w.ops[k].id ==> l == k
    ensures w.ops[k].answer.Some? ==> x.ops[k].answer == w.ops[k].answer
    ensures k !in w.phase && w.ops[k].id !in w.log ==> w.ops[k].id !in x.log && w.ops[k].id !in x.published
    ensures (forall s :: s in steps ==> !s.Drop?) && w.ops[k].id in w.published ==> w.ops[k].id in x.published
  {
    LeadsKeeps(w, steps, x);
    assert x.ops[k].(answer := None) == w.ops[k].(answer := None);
    assert x.ops[k].id == x.ops[k].(answer := None).id && x.ops[k].spec == x.ops[k].(answer := None).spec;
  }

  // ------------------------------------------------------------------- the process

  /** How the mint itself goes, if it is reached, and whether its directories are
      synced afterwards. */
  datatype Minting = Minting(stores: bool, allowed: bool, meta: Meta, status: int, synced: bool)

  predicate Success(status: int) {
    200 <= status < 300
  }

  datatype Reply = Told(answer: Answer) | Busy(id: string) | Unknown

  /** What a retry of a reserved key comes to: a refusal, the recorded answer, or
      the end of an interrupted mint, recorded now. */
  ghost predicate Retried(w: World, k: Key, spec: Option<string>, x: World, r: Result<Reply>)
    requires k in w.ops
  {
    var op := w.ops[k];
    if spec.Some? && op.spec != spec.value then r == Err(MobileConflict) && x == w
    else if op.answer.Some? then r == Ok(Told(op.answer.value)) && x == w
    else if op.id in w.published && w.published[op.id].owner != k.owner then r == Err(StorageFailed) && x == w
    else
      && r.Ok? && r.value.Told? && k in x.ops && x.ops[k].answer == Some(r.value.answer)
      && if op.id in w.published
         then r.value.answer == Ready(w.published[op.id], op.base, op.success)
         else r.value.answer == Interrupted(op.id) && op.id !in x.debris && op.id !in x.published
  }

  /** What a first call comes to: the reservation, the mint, and its answer. A mint
      that claims success without a synced capsule leaves the operation open, for a
      retry to settle. */
  ghost predicate Minted(w: World, k: Key, spec: string, base: string, success: int, plan: Minting, id: string,
                         x: World, r: Result<Reply>)
  {
    var published, meta := plan.stores && plan.allowed, plan.meta.(id := id, owner := k.owner);
    && k in x.ops && x.ops[k].(answer := None) == Operation(k.owner, spec, id, base, success, None)
    && x.published == (if published then w.published[id := meta] else w.published)
    && x.log == w.log + (if published then [id] else [])
    && k !in x.phase
    && if Success(plan.status) && !(published && plan.synced)
       then r == Err(StorageFailed) && x.ops[k].answer.None?
       else r.Ok? && r.value.Told? && x.ops[k].answer == Some(r.value.answer)
            && r.value.answer == if Success(plan.status) then Ready(meta, base, success) else Refused(plan.status)
  }

  class MobileStore {
    var world: World
    /** How many more durable changes this process lives to make. */
    var writes: nat
    var dead: bool
    const lifetime: nat
    ghost var start: World
    ghost var steps: seq<Step>

    ghost predicate Valid()
      reads this
    {
      && Inv(start) && Leads(start, steps, world) && Inv(world)
      && |steps| + writes == lifetime && (dead ==> writes == 0)
    }

    constructor (durable: World, lifetime: nat)
      requires Inv(durable) && durable.phase == map[]
      ensures Valid() && world == durable && start == durable && steps == [] && !dead
    {
      this.lifetime := lifetime;
      world, writes, dead, start, steps := durable, lifetime, false, durable, [];
    }

    /** One durable change, unless the process is gone. */
    method Do(s: Step)
      requires Valid() && !dead && Enabled(world, s)
      modifies this
      ensures Valid() && start == old(start)
      ensures if dead then world == old(world) && steps == old(steps)
              else world == Next(old(world), s) && steps == old(steps) + [s]
    {
      hide Inv, Enabled, Next;
      if writes == 0 {
        dead := true;
        return;
      }
      LeadsOn(start, steps, world, s);
      StepKeeps(world, s);
      writes, world, steps := writes - 1, Next(world, s), steps + [s];
    }

    /** mobileOperation for a key that already has its record. */
    method Retry(k: Key, spec: Option<string>) returns (r: Result<Reply>)
      requires Valid() && !dead && k in world.ops && k !in world.phase
      modifies this
      ensures Valid() && start == old(start)
      ensures !dead ==> Retried(old(world), k, spec, world, r)
      ensures world.published == old(world).published && world.log == old(world).log
    {
      hide Inv, Keeps;
      var op := world.ops[k];
      if spec.Some? && op.spec != spec.value {
        return Err(MobileConflict);
      }
      if op.answer.Some? {
        return Ok(Told(op.answer.value));
      }
      if op.id in world.published {
        if world.published[op.id].owner != k.owner {
          return Err(StorageFailed);
        }
        Do(RecoverReady(k));
        return Ok(Told(Ready(world.published[op.id], op.base, op.success)));
      }
      Do(Sweep(k));
      if dead {
        return Err(StorageFailed);
      }
      Do(RecoverInterrupted(k));
      r := Ok(Told(Interrupted(op.id)));
    }

    /** mintStream under the reserved id. */
    method MintStream(k: Key, plan: Minting) returns (published: bool)
      requires Valid() && !dead && k in world.phase && world.phase[k] == Reserved && k in world.ops
      modifies this
      ensures Valid() && start == old(start)
      ensures !dead ==> k in world.phase && k in world.ops && world.ops[k] == old(world).ops[k]
      ensures !dead ==> (published <==> plan.stores && plan.allowed && old(world).ops[k].id !in old(world).published)
      ensures var id := old(world).ops[k].id;
              !dead && published ==>
                world.published == old(world).published[id := plan.meta.(id := id, owner := k.owner)]
                && world.log == old(world).log + [id]
      ensures !dead && !published ==> world.log == old(world).log && world.published == old(world).published
    {
      hide Inv, Keeps;
      published := false;
      var id := world.ops[k].id;
      if id in world.published {
        return;
      }
      Do(Stage(k));
      if dead {
        return;
      }
      if !plan.stores || !plan.allowed {
        Do(Abandon(k));
        return;
      }
      Do(Publish(k, plan.meta.(id := id, owner := k.owner)));
      published := !dead;
    }

    /** mobileOperation: with a mint it is MobileMint, without one MobileLookup. The
        caller holds the key's lock, or is told another process does. */
    method MobileOperation(k: Key, spec: Option<string>, base: string, success: int, plan: Option<Minting>,
                           id: string, busy: bool)
      returns (r: Result<Reply>)
      requires Valid() && !dead && id !in world.issued && (busy <==> k in world.phase) && (busy ==> plan.None?)
      requires plan.Some? ==> spec.Some?
      modifies this
      ensures Valid() && start == old(start)
      ensures busy ==> world == old(world) && !dead && r == Ok(Busy(old(world).ops[k].id))
      ensures !busy && k in old(world).ops ==> world.published == old(world).published && world.log == old(world).log
      ensures !busy && k in old(world).ops && !dead ==> Retried(old(world), k, spec, world, r)
      ensures !busy && k !in old(world).ops && plan.None? ==> r == Ok(Unknown) && world == old(world) && !dead
      ensures !busy && k !in old(world).ops && plan.Some? && !dead ==>
                Minted(old(world), k, spec.value, base, success, plan.value, id, world, r)
    {
      hide Inv, Keeps;
      if busy {
        assert k in world.ops by {
          PhaseHasOp(world, k);
        }
        return Ok(Busy(world.ops[k].id));
      }
      if k in world.ops {
        r := Retry(k, spec);
        return;
      }
      if plan.None? {
        return Ok(Unknown);
      }
      NewId(world, id);
      Do(Reserve(k, spec.value, id, base, success));
      if dead {
        return Err(StorageFailed);
      }
      var published := MintStream(k, plan.value);
      if dead {
        return Err(StorageFailed);
      }
      if Success(plan.value.status) && !(published && plan.value.synced) {
        Do(Release(k));
        return Err(StorageFailed);
      }
      Do(Complete(k, plan.value.status));
      if dead {
        return Err(StorageFailed);
      }
      r := Ok(Told(world.ops[k].answer.value));
    }
  }

  lemma NewId(w: World, id: string)
    requires Inv(w) && id !in w.issued
    ensures id !in w.published && id !in w.log
  {
  }

  lemma PhaseHasOp(w: World, k: Key)
    requires Inv(w) && k in w.phase
    ensures k in w.ops
  {
  }
}
