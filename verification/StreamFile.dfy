/** The random-access encrypted archive of fixed-size chunks. */
module StreamFile {
  // Each chunk is sealed to its position, written through any split and read
  // through any seeks.

  import opened Prelude

  type byte = x: int | 0 <= x < 256

  newtype int64 = x: int | -0x8000_0000_0000_0000 <= x <= 0x7FFF_FFFF_FFFF_FFFF

  const CHUNK: nat := 0x10_0000
  const OVERHEAD: nat := 28
  const MAXIMUM: int64 := 0x7FFF_FFFF_FFFF_FFFF

  /** AEAD as an ideal sealed box: what opens is what was sealed, under the same
      key and the same associated index. */
  datatype Box = Box(key: int, nonce: int, index: nat, plain: seq<byte>)

  /** Stored bytes: in the clear, or the k-th byte of a sealed box. */
  datatype Cell = Raw(value: byte) | Sealed(box: Box, k: nat)

  const MAGIC: seq<Cell> := [Raw(87), Raw(90), Raw(65), Raw(49)]

  /** Seal: nonce, ciphertext and tag of one box. */
  function Seal(b: Box): (cells: seq<Cell>)
    ensures |cells| == |b.plain| + OVERHEAD
    ensures forall i :: 0 <= i < |cells| ==> cells[i] == Sealed(b, i)
  {
    seq(|b.plain| + OVERHEAD, i requires 0 <= i < |b.plain| + OVERHEAD => Sealed(b, i))
  }

  /** Open: only a whole, untouched box sealed for this key and index. */
  function Open(cells: seq<Cell>, key: int, index: nat): Option<seq<byte>> {
    if |cells| > 0 && cells[0].Sealed? && cells == Seal(cells[0].box) && cells[0].box.key == key
      && cells[0].box.index == index
    then Some(cells[0].box.plain) else None
  }

  lemma OpenExact(cells: seq<Cell>, key: int, index: nat, plain: seq<byte>)
    ensures Open(cells, key, index) == Some(plain) <==> exists nonce :: cells == Seal(Box(key, nonce, index, plain))
  {
    if Open(cells, key, index) == Some(plain) {
      var b := cells[0].box;
      assert b == Box(key, b.nonce, index, plain);
    }
    if nonce :| cells == Seal(Box(key, nonce, index, plain)) {
      assert cells[0] == Sealed(Box(key, nonce, index, plain), 0);
    }
  }

  // ------------------------------------------------------------------- layout

  /** The plaintext of chunk i. */
  function Chunk(plain: seq<byte>, i: nat): seq<byte>
    requires i * CHUNK <= |plain|
  {
    plain[i * CHUNK..Min((i + 1) * CHUNK, |plain|)]
  }

  /** ceil(n / 2^20) */
  function Blocks(n: nat): nat {
    n / CHUNK + (if n % CHUNK != 0 then 1 else 0)
  }

  lemma BlocksBound(n: nat, i: nat)
    ensures i < Blocks(n) <==> i * CHUNK < n
  {
  }

  lemma BlocksAre(n: nat, i: nat)
    requires i * CHUNK <= n <= (i + 1) * CHUNK
    ensures n > i * CHUNK ==> Blocks(n) == i + 1
    ensures n == i * CHUNK ==> Blocks(n) == i
  {
  }

  function FrameOf(key: int, nonces: nat -> int, plain: seq<byte>, i: nat): seq<Cell>
    requires i * CHUNK <= |plain|
  {
    Seal(Box(key, nonces(i), i, Chunk(plain, i)))
  }

  /** The first n frames, back to back. */
  function Frames(key: int, nonces: nat -> int, plain: seq<byte>, n: nat): seq<Cell>
    requires n == 0 || (n - 1) * CHUNK <= |plain|
  {
    if n == 0 then [] else Frames(key, nonces, plain, n - 1) + FrameOf(key, nonces, plain, n - 1)
  }

  /** The whole file for a plaintext. */
  function File(key: int, nonces: nat -> int, plain: seq<byte>): seq<Cell> {
    BlocksBound(|plain|, Blocks(|plain|) - if Blocks(|plain|) == 0 then 0 else 1);
    MAGIC + Frames(key, nonces, plain, Blocks(|plain|))
  }

  lemma {:induction false} FramesLength(key: int, nonces: nat -> int, plain: seq<byte>, n: nat)
    requires n == 0 || (n - 1) * CHUNK <= |plain|
    ensures |Frames(key, nonces, plain, n)| == Min(n * CHUNK, |plain|) + n * OVERHEAD
  {
    if n > 0 {
      FramesLength(key, nonces, plain, n - 1);
    }
  }

  lemma {:induction false} FrameAt(key: int, nonces: nat -> int, plain: seq<byte>, n: nat, i: nat)
    requires (n == 0 || (n - 1) * CHUNK <= |plain|) && i < n
    ensures var at, f := i * (CHUNK + OVERHEAD), FrameOf(key, nonces, plain, i);
            at + |f| <= |Frames(key, nonces, plain, n)| && Frames(key, nonces, plain, n)[at..at + |f|] == f
  {
    hide FrameOf;
    FramesLength(key, nonces, plain, n - 1);
    var front, last := Frames(key, nonces, plain, n - 1), FrameOf(key, nonces, plain, n - 1);
    var at, f := i * (CHUNK + OVERHEAD), FrameOf(key, nonces, plain, i);
    if i < n - 1 {
      FrameAt(key, nonces, plain, n - 1, i);
      SliceLeft(front, last, at, at + |f|);
    } else {
      SliceRight(front, last);
    }
  }

  lemma SliceLeft<T>(a: seq<T>, b: seq<T>, i: int, j: int)
    requires 0 <= i <= j <= |a|
    ensures (a + b)[i..j] == a[i..j]
  {
  }

  lemma SliceRight<T>(a: seq<T>, b: seq<T>)
    ensures (a + b)[|a|..|a| + |b|] == b
  {
  }

  /** Frames depend only on the plaintext they cover. */
  lemma {:induction false} FramesOfPrefix(key: int, nonces: nat -> int, plain: seq<byte>, more: seq<byte>, n: nat)
    requires n * CHUNK <= |plain| && plain <= more
    ensures Frames(key, nonces, plain, n) == Frames(key, nonces, more, n)
  {
    if n > 0 {
      FramesOfPrefix(key, nonces, plain, more, n - 1);
      assert Chunk(plain, n - 1) == Chunk(more, n - 1);
    }
  }

  /** 4 + n + 28 * ceil(n / 2^20) */
  lemma FileLength(key: int, nonces: nat -> int, plain: seq<byte>)
    ensures |File(key, nonces, plain)| == 4 + |plain| + OVERHEAD * Blocks(|plain|)
  {
    BlocksBound(|plain|, Blocks(|plain|) - if Blocks(|plain|) == 0 then 0 else 1);
    FramesLength(key, nonces, plain, Blocks(|plain|));
  }

  // ------------------------------------------------------------------- writer

  /** Length of the file of n bytes. */
  function FileSize(n: nat): nat {
    4 + n + OVERHEAD * Blocks(n)
  }

  lemma FileSizeGrows(n: nat, m: nat)
    requires n <= m
    ensures FileSize(n) <= FileSize(m)
  {
    hide Blocks;
    if Blocks(n) > 0 {
      BlocksBound(n, Blocks(n) - 1);
      BlocksBound(m, Blocks(n) - 1);
    }
  }

  /** What arrives goes to the end of the unsealed part. */
  lemma Filled(plain: seq<byte>, index: nat, part: seq<byte>)
    requires index * CHUNK <= |plain|
    ensures (plain + part)[index * CHUNK..] == plain[index * CHUNK..] + part
  {
  }

  /** What goes wrong with one frame: no nonce is drawn, or the destination
      reports an error, whatever it took of the frame. */
  datatype Fault = Fine | NoNonce | Failing(taken: nat)

  class StreamFileWriter {
    const key: int
    const nonces: nat -> int
    /** What the destination holds and how much more it takes. */
    var dst: seq<Cell>
    var room: nat
    const capacity: nat
    const faults: nat -> Fault
    var buffer: seq<byte>
    var index: nat
    var size: nat
    var failed: bool
    var closed: bool
    ghost var plain: seq<byte>

    ghost predicate Valid()
      reads this
    {
      && (failed || |buffer| < CHUNK) && |dst| + room == capacity
      && (!failed && !closed ==> Consistent())
      && (failed ==> !Stores(|plain|))
    }

    /** The file of n bytes fits, and nothing goes wrong with any of its frames. */
    ghost predicate Stores(n: nat) {
      FileSize(n) <= capacity && forall i :: 0 <= i < Blocks(n) ==> faults(i).Fine?
    }

    lemma StoresLess(n: nat, m: nat)
      requires n <= m && !Stores(n)
      ensures !Stores(m)
    {
      FileSizeGrows(n, m);
    }

    ghost predicate Consistent()
      reads this
    {
      && index * CHUNK <= |plain| && buffer == plain[index * CHUNK..] && size == |plain|
      && dst == MAGIC + Frames(key, nonces, plain, index)
      && forall i :: 0 <= i < index ==> faults(i).Fine?
    }

    /** The file is stored up to a frame, and that frame is the last of its text:
        the whole is stored if that frame is. */
    lemma {:induction false} LastFrame(plain: seq<byte>, i: nat)
      requires i * CHUNK < |plain| <= (i + 1) * CHUNK
      ensures var front, frame := MAGIC + Frames(key, nonces, plain, i), FrameOf(key, nonces, plain, i);
              && Blocks(|plain|) == i + 1 && front + frame == MAGIC + Frames(key, nonces, plain, i + 1)
              && |front| + |frame| == FileSize(|plain|)
    {
      hide FrameOf;
      BlocksAre(|plain|, i);
      FramesLength(key, nonces, plain, i);
      FramesLength(key, nonces, plain, i + 1);
    }

    lemma NoFrame(plain: seq<byte>, i: nat)
      requires |plain| == i * CHUNK
      ensures Blocks(|plain|) == i && |MAGIC + Frames(key, nonces, plain, i)| == FileSize(|plain|)
    {
      BlocksAre(|plain|, i);
      FramesLength(key, nonces, plain, i);
    }

    constructor (key: int, nonces: nat -> int, room: nat, faults: nat -> Fault)
      requires room >= 4
      ensures Valid() && !failed && !closed && plain == [] && dst == MAGIC
      ensures this.key == key && this.nonces == nonces && capacity == room && this.faults == faults
    {
      this.key, this.nonces, capacity, this.faults := key, nonces, room, faults;
      dst, this.room := MAGIC, room - 4;
      buffer, index, size, failed, closed, plain := [], 0, 0, false, false, [];
    }

    /** Seals and writes the buffer; without a nonce it stays where it is. */
    method Flush() returns (err: bool)
      requires Consistent() && |buffer| <= CHUNK && !failed && |dst| + room == capacity
      requires |buffer| < CHUNK ==> closed
      modifies `dst, `room, `buffer, `index
      ensures |buffer| <= |old(buffer)| && (!err ==> buffer == []) && |dst| + room == capacity
      ensures err <==> !Stores(|plain|)
      ensures !err && |old(buffer)| == CHUNK ==> Consistent()
      ensures !err ==> dst == MAGIC + Frames(key, nonces, plain, Blocks(|plain|))
    {
      hide Seal, Frames, Blocks, FileSize;
      if |buffer| == 0 {
        NoFrame(plain, index);
        return false;
      }
      assert buffer == Chunk(plain, index);
      LastFrame(plain, index);
      if faults(index).NoNonce? {
        return true;
      }
      var frame := Seal(Box(key, nonces(index), index, buffer));
      var n := Min(if faults(index).Failing? then Min(faults(index).taken, |frame|) else |frame|, room);
      dst, room := dst + frame[..n], room - n;
      err := faults(index).Failing? || n != |frame|;
      buffer, index := [], index + 1;
    }

    /** Write: on success everything is taken, on failure the writer is finished. */
    method Write(body: seq<byte>) returns (written: nat, err: bool)
      requires Valid()
      modifies this
      ensures Valid() && closed == old(closed)
      ensures err <==> closed || failed
      ensures !err ==> plain == old(plain) + body && written == |body| && !old(failed)
      ensures old(failed) ==> failed
      ensures failed && !old(failed) ==> plain <= old(plain) + body && !Stores(|old(plain) + body|)
    {
      hide Frames, Blocks, FileSize;
      if closed || failed {
        return 0, true;
      }
      written := 0;
      ghost var start := plain;
      while written < |body|
        invariant 0 <= written <= |body| && !closed && !failed
        invariant Valid() && plain == start + body[..written]
      {
        var n := Min(|body| - written, CHUNK - |buffer|);
        FramesOfPrefix(key, nonces, plain, plain + body[written..written + n], index);
        Filled(plain, index, body[written..written + n]);
        buffer := buffer + body[written..written + n];
        plain := plain + body[written..written + n];
        assert start + (body[..written] + body[written..written + n]) == plain;
        size := size + n;
        written := written + n;
        if |buffer| == CHUNK {
          var stopped := Flush();
          if stopped {
            failed := true;
            StoresLess(|plain|, |start + body|);
            return written, true;
          }
        }
      }
      assert body[..written] == body;
      err := false;
    }

    /** Close: without an error so far, the destination now holds the file of
        everything written, whatever the writes were. */
    method Close() returns (err: bool)
      requires Valid()
      modifies this
      ensures closed
      ensures !err && !old(closed) ==> dst == File(key, nonces, plain) && plain == old(plain) && size == |plain|
      ensures !old(closed) ==> (err <==> !Stores(|old(plain)|)) && plain == old(plain)
      ensures old(closed) ==> err == failed
    {
      if closed {
        return failed;
      }
      closed := true;
      if !failed {
        failed := Flush();
        FileLength(key, nonces, plain);
      }
      buffer := [];
      err := failed;
    }
  }

  /** Any list of writes followed by Close stores the file of their concatenation. */
  method WriteAll(w: StreamFileWriter, bodies: seq<seq<byte>>) returns (err: bool)
    requires w.Valid() && !w.failed && !w.closed && w.plain == []
    modifies w
    ensures !err ==> w.dst == File(w.key, w.nonces, Joined(bodies)) && |w.dst| == FileSize(|Joined(bodies)|)
    ensures err <==> !w.Stores(|Joined(bodies)|)
  {
    for i := 0 to |bodies|
      invariant w.Valid() && !w.failed && !w.closed && w.plain == Joined(bodies[..i])
    {
      assert bodies[..i + 1][..i] == bodies[..i];
      var n, stopped := w.Write(bodies[i]);
      if stopped {
        JoinedGrows(bodies, i + 1);
        w.StoresLess(|Joined(bodies[..i + 1])|, |Joined(bodies)|);
        return true;
      }
    }
    assert bodies[..|bodies|] == bodies;
    err := w.Close();
    FileLength(w.key, w.nonces, Joined(bodies));
  }

  function Joined(bodies: seq<seq<byte>>): seq<byte> {
    if bodies == [] then [] else Joined(bodies[..|bodies| - 1]) + bodies[|bodies| - 1]
  }

  lemma {:induction false} JoinedGrows(bodies: seq<seq<byte>>, n: nat)
    requires n <= |bodies|
    ensures |Joined(bodies[..n])| <= |Joined(bodies)|
    decreases |bodies|
  {
    if n < |bodies| {
      var most := bodies[..|bodies| - 1];
      assert most[..n] == bodies[..n];
      JoinedGrows(most, n);
    } else {
      assert bodies[..n] == bodies;
    }
  }

  // ------------------------------------------------------------------- reader

  /** Length of the plaintext in chunk i of a file of this size. */
  function ChunkLength(size: nat, i: nat): int {
    Min(CHUNK, size - i * CHUNK)
  }

  /** What reading chunk i out of a file finds: the frame at its place, opened for
      its index. */
  function Opened(disk: seq<Cell>, key: int, size: nat, i: nat): Option<seq<byte>> {
    var at := 4 + i * (CHUNK + OVERHEAD);
    var end := at + ChunkLength(size, i) + OVERHEAD;
    if at <= end <= |disk| then Open(disk[at..end], key, i) else None
  }

  /** A file the writer closed gives back every chunk. */
  lemma WrittenOpens(key: int, nonces: nat -> int, plain: seq<byte>, i: nat)
    requires i < Blocks(|plain|)
    ensures Opened(File(key, nonces, plain), key, |plain|, i) == Some(Chunk(plain, i))
  {
    hide Seal, Open, Frames, Blocks;
    BlocksBound(|plain|, i);
    BlocksBound(|plain|, Blocks(|plain|) - 1);
    FrameAt(key, nonces, plain, Blocks(|plain|), i);
    var all := Frames(key, nonces, plain, Blocks(|plain|));
    var f, at := FrameOf(key, nonces, plain, i), i * (CHUNK + OVERHEAD);
    SliceShifted(MAGIC, all, at, at + |f|);
    OpenExact(f, key, i, Chunk(plain, i));
  }

  lemma SliceShifted<T>(a: seq<T>, b: seq<T>, i: int, j: int)
    requires 0 <= i <= j <= |b|
    ensures (a + b)[|a| + i..|a| + j] == b[i..j]
  {
  }

  /** Every box sealed under this key came from the writer of this plaintext. */
  ghost predicate SealedFrom(disk: seq<Cell>, key: int, plain: seq<byte>) {
    forall k :: 0 <= k < |disk| && disk[k].Sealed? && disk[k].box.key == key ==>
      disk[k].box.index < Blocks(|plain|) && disk[k].box.plain == ChunkOf(plain, disk[k].box.index)
  }

  ghost function ChunkOf(plain: seq<byte>, i: nat): seq<byte> {
    if i * CHUNK <= |plain| then Chunk(plain, i) else []
  }

  /** However frames are reordered, replayed, cut or replaced by others, a chunk
      reads as the original or not at all. */
  lemma TamperedReadsExactly(disk: seq<Cell>, key: int, plain: seq<byte>, i: nat)
    requires SealedFrom(disk, key, plain) && i * CHUNK <= |plain|
    ensures Opened(disk, key, |plain|, i).None? || Opened(disk, key, |plain|, i) == Some(Chunk(plain, i))
  {
    if Opened(disk, key, |plain|, i).Some? {
      var at := 4 + i * (CHUNK + OVERHEAD);
      assert disk[at].Sealed? && disk[at].box.key == key;
    }
  }

  /** How a Read comes back; slicing past the end of a nil cache panics. */
  datatype Reading = Bytes(out: seq<byte>) | AtEnd | Failure(error: Error) | Panic

  /** What is left of the chunk a position lies in, up to the wanted length. */
  function Rest(disk: seq<Cell>, key: int, size: nat, at: nat, wanted: nat): Option<seq<byte>>
    requires at < size
  {
    match Opened(disk, key, size, at / CHUNK)
    case None => None
    case Some(chunk) =>
      var skip := at % CHUNK;
      if skip <= |chunk| then Some(chunk[skip..skip + Min(wanted, |chunk| - skip)]) else None
  }

  /** The answer of Read. `last` is the last chunk read successfully, `failed` says
      whether a load has failed since; `works` is whether the disk answers now. A
      failed load forgets the bytes of that chunk but not its number. */
  function Answer(disk: seq<Cell>, key: int, size: nat, at: nat, last: int, failed: bool, wanted: nat,
                  works: bool): Reading
  {
    if at >= size then AtEnd
    else if wanted == 0 then Bytes([])
    else if at / CHUNK == last && failed then (if at % CHUNK > 0 then Panic else Bytes([]))
    else if at / CHUNK != last && !works then Failure(StreamCorrupt)
    else match Rest(disk, key, size, at, wanted) case None => Failure(StreamCorrupt) case Some(out) => Bytes(out)
  }

  /** When Read meets its promise: with a chunk that opens and a disk that answers,
      the matching slice comes back if and only if no load has failed since the last
      success, or the position lies in another chunk than that success. */
  lemma ReadsExactly(disk: seq<Cell>, key: int, size: nat, at: nat, last: int, failed: bool, wanted: nat)
    requires at < size && wanted > 0 && Opened(disk, key, size, at / CHUNK).Some?
    ensures Rest(disk, key, size, at, wanted).Some? && Rest(disk, key, size, at, wanted).value != []
    ensures Answer(disk, key, size, at, last, failed, wanted, true) == Bytes(Rest(disk, key, size, at, wanted).value)
            <==> !failed || at / CHUNK != last
  {
    OpenedLength(disk, key, size, at / CHUNK);
  }

  /** What is left of a chunk that opened is never empty and ends within the text. */
  lemma RestIs(disk: seq<Cell>, key: int, size: nat, at: nat, wanted: nat)
    requires at < size
    ensures match Opened(disk, key, size, at / CHUNK)
            case None => Rest(disk, key, size, at, wanted).None?
            case Some(chunk) =>
              var skip := at % CHUNK;
              && skip < |chunk| && at + Min(wanted, |chunk| - skip) <= size
              && Rest(disk, key, size, at, wanted) == Some(chunk[skip..skip + Min(wanted, |chunk| - skip)])
  {
    if Opened(disk, key, size, at / CHUNK).Some? {
      OpenedLength(disk, key, size, at / CHUNK);
    }
  }

  class StreamFileReader {
    const disk: seq<Cell>
    const key: int
    const size: int64
    var position: int64
    /** The last chunk read successfully; it stays when a later load fails. */
    var cacheIndex: int64
    var cache: seq<byte>
    var open: bool
    /** A load has failed since. */
    ghost var failed: bool

    ghost predicate Valid()
      reads this
    {
      && size >= 0 && position >= 0 && cacheIndex >= -1
      && Blocks(size as nat) * OVERHEAD + size as int + 4 <= MAXIMUM as int
      && (open && cacheIndex >= 0 ==>
            && cacheIndex as int * CHUNK < size as int && Opened(disk, key, size as nat, cacheIndex as nat).Some?
            && cache == if failed then [] else Opened(disk, key, size as nat, cacheIndex as nat).value)
    }

    constructor (disk: seq<Cell>, key: int, size: int64)
      requires size >= 0 && Blocks(size as nat) * OVERHEAD + size as int + 4 <= MAXIMUM as int
      ensures Valid() && open && position == 0 && cacheIndex == -1 && !failed
      ensures this.disk == disk && this.key == key && this.size == size
    {
      this.disk, this.key, this.size := disk, key, size;
      position, cacheIndex, cache, open, failed := 0, -1, [], true, false;
    }

    /** Reads and opens one frame into the cache. */
    method Load(index: int64, works: bool) returns (loaded: bool)
      requires Valid() && 0 <= index && index as int * CHUNK < size as int
      modifies `cache, `cacheIndex, `failed
      ensures Valid() && failed == !loaded
      ensures loaded <==> works && Opened(disk, key, size as nat, index as nat).Some?
      ensures cacheIndex == if loaded then index else old(cacheIndex)
    {
      hide Open;
      BlocksBound(size as nat, index as nat);
      cache, failed := [], true;
      var left := size - index * 0x10_0000;
      var length: int64 := if left < 0x10_0000 then left else 0x10_0000;
      var at: int64 := 4 + index * (0x10_0000 + 28);
      var end := at + length + 28;
      if !works || end as int > |disk| {
        return false;
      }
      var plain := Open(disk[at as int..end as int], key, index as nat);
      if plain.None? {
        return false;
      }
      cache, cacheIndex, failed := plain.value, index, false;
      loaded := true;
    }

    /** Read: a prefix of what is left of the current chunk. Every product and sum
        of the offsets stays within 64 bits. */
    method Read(wanted: nat, cancelled: Option<Error>, works: bool) returns (r: Reading)
      requires Valid()
      modifies this
      ensures Valid() && open == old(open)
      ensures r == if !open then Failure(Gone) else if cancelled.Some? then Failure(cancelled.value)
                   else Answer(disk, key, size as nat, old(position) as nat, old(cacheIndex) as int, old(failed),
                               wanted, works)
      ensures position as int == old(position) as int + if r.Bytes? then |r.out| else 0
      ensures if r.Bytes? && r.out != [] then cacheIndex as int == old(position) as int / CHUNK && !failed
              else cacheIndex == old(cacheIndex)
                   && failed == (old(failed) || (open && cancelled.None? && r == Failure(StreamCorrupt)))
    {
      hide Opened, Blocks, Rest;
      if !open {
        return Failure(Gone);
      }
      if cancelled.Some? {
        return Failure(cancelled.value);
      }
      if position >= size {
        return AtEnd;
      }
      if wanted == 0 {
        return Bytes([]);
      }
      var index := position / 0x10_0000;
      BlocksBound(size as nat, index as nat);
      RestIs(disk, key, size as nat, position as nat, wanted);
      if index != cacheIndex {
        var loaded := Load(index, works);
        if !loaded {
          return Failure(StreamCorrupt);
        }
      }
      var skip := (position % 0x10_0000) as int;
      if skip > |cache| {
        return Panic;
      }
      var n := Min(wanted, |cache| - skip);
      r := Bytes(cache[skip..skip + n]);
      position := (position as int + n) as int64;
    }

    method Seek(offset: int64, whence: nat) returns (at: int64, err: Option<Error>)
      requires Valid()
      modifies `position
      ensures Valid()
      ensures err.Some? ==> position == old(position)
      ensures err.None? ==> position == at && at >= 0
      ensures open && whence <= 2 ==>
                var base := if whence == 0 then 0 else if whence == 1 then old(position) as int else size as int;
                if 0 <= base + offset as int <= MAXIMUM as int then err.None? && at as int == base + offset as int
                else err == Some(StreamCorrupt)
    {
      if !open {
        return 0, Some(Gone);
      }
      var base: int64 := 0;
      if whence == 1 {
        base := position;
      } else if whence == 2 {
        base := size;
      } else if whence != 0 {
        return 0, Some(StreamCorrupt);
      }
      if offset < -base || offset > MAXIMUM - base {
        return 0, Some(StreamCorrupt);
      }
      position := base + offset;
      return position, None;
    }

    method Close()
      requires Valid()
      modifies this
      ensures Valid() && !open
    {
      open, cache := false, [];
    }
  }

  lemma OpenedLength(disk: seq<Cell>, key: int, size: nat, i: nat)
    requires i * CHUNK < size && Opened(disk, key, size, i).Some?
    ensures |Opened(disk, key, size, i).value| == ChunkLength(size, i)
  {
    var at := 4 + i * (CHUNK + OVERHEAD);
    var end := at + ChunkLength(size, i) + OVERHEAD;
    assert |disk[at..end]| == ChunkLength(size, i) + OVERHEAD;
  }

  /** Go's integer division truncates. */
  function Quotient(a: int, b: int): int
    requires b > 0
  {
    if a >= 0 then a / b else -((-a) / b)
  }

  /** OpenStreamFile: the length must be exactly that of a file of this size, and
      checking it cannot overflow. */
  method OpenStreamFile(disk: seq<Cell>, key: int, size: int64) returns (r: StreamFileReader?)
    requires |disk| <= MAXIMUM as int
    ensures r != null <==> size >= 0 && |disk| == 4 + size as int + OVERHEAD * Blocks(size as nat) && MAGIC <= disk
    ensures r != null ==> fresh(r) && r.Valid() && r.open && r.position == 0 && r.disk == disk && r.key == key
                          && r.size == size
  {
    if size < 0 {
      return null;
    }
    var blocks: int64 := size / 0x10_0000;
    if size % 0x10_0000 != 0 {
      blocks := blocks + 1;
    }
    assert blocks as int == Blocks(size as nat);
    var most := Quotient((MAXIMUM - size - 4) as int, 28) as int64;
    if blocks > most {
      return null;
    }
    var expected: int64 := 4 + size + blocks * 28;
    if |disk| != expected as int {
      return null;
    }
    if disk[..4] != MAGIC {
      return null;
    }
    r := new StreamFileReader(disk, key, size);
  }

  lemma ChunkSlice(plain: seq<byte>, at: nat, n: nat)
    requires at < |plain| && at % CHUNK + n <= |Chunk(plain, at / CHUNK)|
    ensures at + n <= |plain| && Chunk(plain, at / CHUNK)[at % CHUNK..at % CHUNK + n] == plain[at..at + n]
  {
    var i, skip := at / CHUNK, at % CHUNK;
    assert at == i * CHUNK + skip;
    SliceOfSlice(plain, i * CHUNK, Min((i + 1) * CHUNK, |plain|), skip, skip + n);
  }

  lemma SliceOfSlice<T>(s: seq<T>, a: int, b: int, i: int, j: int)
    requires 0 <= a <= b <= |s| && 0 <= i <= j <= b - a
    ensures s[a..b][i..j] == s[a + i..a + j]
  {
    var t, u := s[a..b][i..j], s[a + i..a + j];
    assert |t| == |u|;
    forall k | 0 <= k < |t| ensures t[k] == u[k] {
      assert t[k] == s[a..b][i + k] == s[a + i + k];
    }
  }

  lemma ChunkHasRest(plain: seq<byte>, at: nat)
    requires at < |plain|
    ensures |Chunk(plain, at / CHUNK)| > at % CHUNK
  {
  }

  lemma RestIsSlice(disk: seq<Cell>, key: int, plain: seq<byte>, at: nat, wanted: nat)
    requires at < |plain| && wanted > 0 && Opened(disk, key, |plain|, at / CHUNK) == Some(Chunk(plain, at / CHUNK))
    ensures var part := Rest(disk, key, |plain|, at, wanted);
            part.Some? && 0 < |part.value| <= wanted && at + |part.value| <= |plain|
              && part.value == plain[at..at + |part.value|]
  {
    hide Opened;
    ChunkHasRest(plain, at);
    ChunkSlice(plain, at, Min(wanted, |Chunk(plain, at / CHUNK)| - at % CHUNK));
  }

  lemma Continues<T>(s: seq<T>, from: nat, n: nat, part: seq<T>)
    requires from + n + |part| <= |s| && part == s[from + n..from + n + |part|]
    ensures s[from..from + n] + part == s[from..from + (n + |part|)]
  {
  }

  /** Reading on until enough, the end or a failure: exactly the matching slice,
      wherever the reader was and however the buffers are cut, and all of it if the
      disk keeps answering. */
  method ReadFull(r: StreamFileReader, wanted: nat, step: nat, works: nat -> bool, ghost nonces: nat -> int,
                  ghost plain: seq<byte>)
    returns (out: seq<byte>, ok: bool)
    requires r.Valid() && r.open && step > 0
    requires r.disk == File(r.key, nonces, plain) && r.size as int == |plain|
    requires r.failed ==> r.position as int / CHUNK != r.cacheIndex as int
    modifies r
    ensures r.Valid() && r.open
    ensures var from := Min(old(r.position) as int, |plain|);
            && from + |out| <= |plain| && |out| <= wanted && out == plain[from..from + |out|]
            && (ok ==> |out| == Min(wanted, |plain| - from))
    ensures (forall k :: works(k)) ==> ok
    ensures old(r.position) <= r.size ==> r.position as int == old(r.position) as int + |out|
  {
    hide Opened, File, Blocks, Chunk, Rest;
    out := [];
    var k := 0;
    ghost var from := Min(r.position as int, |plain|);
    while |out| < wanted
      invariant r.Valid() && r.open && |out| <= wanted && from + |out| <= |plain|
      invariant out == plain[from..from + |out|]
      invariant r.position as int == old(r.position) as int + |out| && (out != [] ==> old(r.position) as int == from)
      invariant r.failed ==> r.position as int / CHUNK != r.cacheIndex as int
      decreases wanted - |out|
    {
      ghost var at := r.position as int;
      if at < |plain| {
        BlocksBound(|plain|, at / CHUNK);
        WrittenOpens(r.key, nonces, plain, at / CHUNK);
        RestIsSlice(r.disk, r.key, plain, at, Min(step, wanted - |out|));
      }
      var part := r.Read(Min(step, wanted - |out|), None, works(k));
      k := k + 1;
      if part.AtEnd? {
        return out, true;
      }
      if !part.Bytes? {
        return out, false;
      }
      Continues(plain, from, |out|, part.out);
      out := out + part.out;
    }
    ok := true;
  }

  // ------------------------------------------------------- a load that failed

  /** A file of two chunks or more with one byte of its second frame lost: it still
      opens, its first chunk reads, its second does not. */
  lemma TornFile(key: int, nonces: nat -> int, plain: seq<byte>)
    requires |plain| > CHUNK
    ensures |File(key, nonces, plain)| > 4 + CHUNK + OVERHEAD
    ensures var disk := File(key, nonces, plain)[4 + CHUNK + OVERHEAD := Raw(0)];
            && |disk| == FileSize(|plain|) && MAGIC <= disk
            && Opened(disk, key, |plain|, 0) == Some(Chunk(plain, 0)) && Opened(disk, key, |plain|, 1).None?
  {
    hide Frames, Seal;
    var whole := File(key, nonces, plain);
    FileLength(key, nonces, plain);
    BlocksBound(|plain|, 0);
    BlocksBound(|plain|, 1);
    WrittenOpens(key, nonces, plain, 0);
    var disk := whole[4 + CHUNK + OVERHEAD := Raw(0)];
    assert disk[4..4 + CHUNK + OVERHEAD] == whole[4..4 + CHUNK + OVERHEAD];
    assert disk[..4] == whole[..4];
  }

  /** On such a file the reader breaks: it reads the first chunk, fails on the second,
      and goes back. Inside the first chunk Read panics, at its start it returns no
      bytes and no error, for ever. */
  method LostChunk(r: StreamFileReader, back: int64) returns (answer: Reading)
    requires r.Valid() && r.open && r.position == 0 && r.cacheIndex == -1
    requires r.size as int > CHUNK && 0 <= back as int < CHUNK
    requires Opened(r.disk, r.key, r.size as nat, 0).Some? && Opened(r.disk, r.key, r.size as nat, 1).None?
    modifies r
    ensures answer == if back > 0 then Panic else Bytes([])
    ensures r.Valid() && r.position == back && r.failed && r.cacheIndex == 0
  {
    hide Opened, Blocks;
    ReadsExactly(r.disk, r.key, r.size as nat, 0, -1, r.failed, 1);
    answer := r.Read(1, None, true);
    assert r.cacheIndex == 0;
    var at, err := r.Seek(0x10_0000, 0);
    assert r.position as int == CHUNK;
    answer := r.Read(1, None, true);
    assert answer == Failure(StreamCorrupt);
    at, err := r.Seek(back, 0);
    assert r.position == back && back as int / CHUNK == 0 && back as int % CHUNK == back as int;
    answer := r.Read(1, None, true);
  }
}
