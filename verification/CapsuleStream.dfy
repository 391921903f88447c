/** Capsule payload streams, and the stripper of ZIP envelopes. */
module CapsuleStream {
  // Length-prefixed sealed frames are closed by a zero length; the stripper
  // takes a single stored file out of its archive.

  import opened Prelude
  import opened StreamFile

  /** "WZC2" */
  const STREAM_MAGIC: seq<Cell> := [Raw(87), Raw(90), Raw(67), Raw(50)]

  /** binary.BigEndian.PutUint32 */
  function BigEndian32(n: nat): (s: seq<Cell>)
    requires n < 0x1_0000_0000
    ensures |s| == 4
  {
    [Raw(n / 0x100_0000), Raw(n / 0x1_0000 % 256), Raw(n / 0x100 % 256), Raw(n % 256)]
  }

  /** How a stored byte looks to a reader that takes it for plain data. */
  ghost predicate Faithful(look: Cell -> byte) {
    forall v: byte :: look(Raw(v)) == v
  }

  function Uint32(cells: seq<Cell>, look: Cell -> byte): (n: nat)
    requires |cells| == 4
  {
    look(cells[0]) * 0x100_0000 + look(cells[1]) * 0x1_0000 + look(cells[2]) * 0x100 + look(cells[3])
  }

  lemma Uint32RoundTrip(n: nat, look: Cell -> byte)
    requires n < 0x1_0000_0000 && Faithful(look)
    ensures Uint32(BigEndian32(n), look) == n
  {
    var a, b, c, d: byte := n / 0x100_0000, n / 0x1_0000 % 256, n / 0x100 % 256, n % 256;
    assert look(Raw(a)) == a && look(Raw(b)) == b && look(Raw(c)) == c && look(Raw(d)) == d;
    assert n / 0x100 == (n / 0x1_0000) * 256 + c;
    assert n / 0x1_0000 == a * 256 + b;
  }

  datatype Decrypted = Decrypted(out: seq<byte>, ok: bool)

  /** decryptStream: what it hands on, and whether it ends well. */
  function Decrypt(cells: seq<Cell>, key: int, look: Cell -> byte): Decrypted {
    if |cells| < 4 then Decrypted([], false) else
    var n := Uint32(cells[..4], look);
    if n == 0 then Decrypted([], true)
    else if n > CHUNK || |cells| < 4 + OVERHEAD + n then Decrypted([], false)
    else
      var plain := Open(cells[4..4 + OVERHEAD + n], key, 0);
      if plain.None? then Decrypted([], false)
      else
        var rest := Decrypt(cells[4 + OVERHEAD + n..], key, look);
        Decrypted(plain.value + rest.out, rest.ok)
  }

  // ------------------------------------------------------------------ frames

  function Framed(key: int, nonce: int, part: seq<byte>): seq<Cell>
    requires |part| <= CHUNK
  {
    BigEndian32(|part|) + Seal(Box(key, nonce, 0, part))
  }

  ghost predicate GoodParts(parts: seq<seq<byte>>) {
    forall i :: 0 <= i < |parts| ==> 0 < |parts[i]| <= CHUNK
  }

  /** The frames of these parts, nonces counted from n. */
  ghost function Encode(key: int, nonces: nat -> int, parts: seq<seq<byte>>, n: nat): seq<Cell>
    requires GoodParts(parts)
  {
    if parts == [] then [] else Framed(key, nonces(n), parts[0]) + Encode(key, nonces, parts[1..], n + 1)
  }

  ghost function Stream(key: int, nonces: nat -> int, parts: seq<seq<byte>>): seq<Cell>
    requires GoodParts(parts)
  {
    Encode(key, nonces, parts, 0) + BigEndian32(0)
  }

  function Flat(parts: seq<seq<byte>>): seq<byte> {
    if parts == [] then [] else parts[0] + Flat(parts[1..])
  }

  /** Reading one frame off the front. */
  lemma FrameDecrypts(key: int, nonce: int, part: seq<byte>, tail: seq<Cell>, look: Cell -> byte)
    requires 0 < |part| <= CHUNK && Faithful(look)
    ensures var rest := Decrypt(tail, key, look);
            Decrypt(Framed(key, nonce, part) + tail, key, look) == Decrypted(part + rest.out, rest.ok)
  {
    hide Seal, Open;
    var b := Box(key, nonce, 0, part);
    var cells := Framed(key, nonce, part) + tail;
    Uint32RoundTrip(|part|, look);
    assert cells[..4] == BigEndian32(|part|);
    assert cells[4..4 + OVERHEAD + |part|] == Seal(b);
    assert cells[4 + OVERHEAD + |part|..] == tail;
    OpenExact(Seal(b), key, 0, part);
  }

  lemma {:induction false} EncodeDecrypts(key: int, nonces: nat -> int, parts: seq<seq<byte>>, n: nat,
                                          tail: seq<Cell>, look: Cell -> byte)
    requires GoodParts(parts) && Faithful(look)
    ensures var rest := Decrypt(tail, key, look);
            Decrypt(Encode(key, nonces, parts, n) + tail, key, look) == Decrypted(Flat(parts) + rest.out, rest.ok)
  {
    hide Framed, Decrypt;
    if parts == [] {
      assert Encode(key, nonces, parts, n) + tail == tail;
      assert Flat(parts) + Decrypt(tail, key, look).out == Decrypt(tail, key, look).out;
    } else {
      var first, later := Framed(key, nonces(n), parts[0]), Encode(key, nonces, parts[1..], n + 1);
      EncodeDecrypts(key, nonces, parts[1..], n + 1, tail, look);
      FrameDecrypts(key, nonces(n), parts[0], later + tail, look);
      assert (first + later) + tail == first + (later + tail);
    }
  }

  /** A finished stream decrypts to its parts, whatever follows it. */
  lemma StreamRoundTrip(key: int, nonces: nat -> int, parts: seq<seq<byte>>, extra: seq<Cell>, look: Cell -> byte)
    requires GoodParts(parts) && Faithful(look)
    ensures Decrypt(Stream(key, nonces, parts) + extra, key, look) == Decrypted(Flat(parts), true)
  {
    var tail := BigEndian32(0) + extra;
    Uint32RoundTrip(0, look);
    assert tail[..4] == BigEndian32(0);
    EncodeDecrypts(key, nonces, parts, 0, tail, look);
    assert Stream(key, nonces, parts) + extra == Encode(key, nonces, parts, 0) + tail;
  }

  // ----------------------------------------------------------------- truncation

  lemma CutFrameFails(key: int, nonce: int, part: seq<byte>, cut: seq<Cell>, look: Cell -> byte)
    requires 0 < |part| <= CHUNK && Faithful(look) && cut < Framed(key, nonce, part)
    ensures Decrypt(cut, key, look) == Decrypted([], false)
  {
    hide Seal, Open;
    if |cut| >= 4 {
      Uint32RoundTrip(|part|, look);
      assert cut[..4] == Framed(key, nonce, part)[..4] == BigEndian32(|part|);
    }
  }

  /** No proper prefix of a stream ends well: a cut is always noticed, and what was
      handed on before it is a prefix of the payload. */
  lemma {:induction false} PrefixFails(key: int, nonces: nat -> int, parts: seq<seq<byte>>, n: nat, cut: seq<Cell>,
                                       look: Cell -> byte)
    requires GoodParts(parts) && Faithful(look) && cut < Encode(key, nonces, parts, n) + BigEndian32(0)
    ensures !Decrypt(cut, key, look).ok && Decrypt(cut, key, look).out <= Flat(parts)
  {
    hide Framed, BigEndian32;
    if parts != [] {
      var first, later := Framed(key, nonces(n), parts[0]), Encode(key, nonces, parts[1..], n + 1);
      var all := Encode(key, nonces, parts, n) + BigEndian32(0);
      assert all == first + (later + BigEndian32(0));
      if |cut| < |first| {
        assert cut == first[..|cut|];
        CutFrameFails(key, nonces(n), parts[0], cut, look);
      } else {
        var tail := cut[|first|..];
        assert cut == first + tail && tail == (later + BigEndian32(0))[..|tail|];
        PrefixFails(key, nonces, parts[1..], n + 1, tail, look);
        FrameDecrypts(key, nonces(n), parts[0], tail, look);
      }
    }
  }

  lemma TruncationFails(key: int, nonces: nat -> int, parts: seq<seq<byte>>, cut: seq<Cell>, look: Cell -> byte)
    requires GoodParts(parts) && Faithful(look) && cut < Stream(key, nonces, parts)
    ensures !Decrypt(cut, key, look).ok && Decrypt(cut, key, look).out <= Flat(parts)
  {
    PrefixFails(key, nonces, parts, 0, cut, look);
  }

  // -------------------------------------------------------------------- writer

  lemma {:induction false} EncodeAppends(key: int, nonces: nat -> int, parts: seq<seq<byte>>, n: nat, part: seq<byte>)
    requires GoodParts(parts) && 0 < |part| <= CHUNK
    ensures GoodParts(parts + [part])
    ensures Encode(key, nonces, parts + [part], n) == Encode(key, nonces, parts, n) +
              Framed(key, nonces(n + |parts|), part)
  {
    hide Framed;
    if parts == [] {
      assert (parts + [part])[1..] == [];
      assert Encode(key, nonces, [], n + 1) == [];
    } else {
      assert (parts + [part])[1..] == parts[1..] + [part];
      EncodeAppends(key, nonces, parts[1..], n + 1, part);
    }
  }

  lemma {:induction false} FlatJoins(parts: seq<seq<byte>>, more: seq<seq<byte>>)
    ensures Flat(parts + more) == Flat(parts) + Flat(more)
  {
    if parts == [] {
      assert parts + more == more;
    } else {
      assert (parts + more)[1..] == parts[1..] + more;
      FlatJoins(parts[1..], more);
    }
  }

  lemma {:induction false} FlatAppends(parts: seq<seq<byte>>, part: seq<byte>)
    ensures Flat(parts + [part]) == Flat(parts) + part
  {
    if parts != [] {
      assert (parts + [part])[1..] == parts[1..] + [part];
      FlatAppends(parts[1..], part);
    }
  }

  /** A frame that was not stored whole, or whose destination reported an error
      after taking all of it, ends the stream badly. */
  lemma TornFails(key: int, nonces: nat -> int, parts: seq<seq<byte>>, lost: seq<byte>, torn: seq<Cell>,
                  look: Cell -> byte)
    requires GoodParts(parts) && 0 < |lost| <= CHUNK && Faithful(look)
    requires torn <= Framed(key, nonces(|parts|), lost)
    ensures var d := Decrypt(Encode(key, nonces, parts, 0) + torn, key, look);
            !d.ok && (d.out == Flat(parts) || d.out == Flat(parts) + lost)
  {
    hide Framed, Encode, Flat;
    EncodeDecrypts(key, nonces, parts, 0, torn, look);
    var frame := Framed(key, nonces(|parts|), lost);
    if torn == frame {
      FrameDecrypts(key, nonces(|parts|), lost, [], look);
      assert frame + [] == frame && lost + [] == lost;
    } else {
      CutFrameFails(key, nonces(|parts|), lost, torn, look);
      assert Flat(parts) + [] == Flat(parts);
    }
  }

  /** With part of the closing length the stream ends badly, with all of it well. */
  lemma EndDecides(key: int, nonces: nat -> int, parts: seq<seq<byte>>, n: nat, look: Cell -> byte)
    requires GoodParts(parts) && n <= 4 && Faithful(look)
    ensures Decrypt(Encode(key, nonces, parts, 0) + BigEndian32(0)[..n], key, look) == Decrypted(Flat(parts), n == 4)
  {
    hide Encode, Flat;
    var tail := BigEndian32(0)[..n];
    EncodeDecrypts(key, nonces, parts, 0, tail, look);
    Uint32RoundTrip(0, look);
    assert n == 4 ==> tail[..4] == BigEndian32(0);
    assert Flat(parts) + [] == Flat(parts);
  }

  /** How many frames these writes take. */
  function FrameCount(writes: seq<seq<byte>>): nat {
    if writes == [] then 0 else FrameCount(writes[..|writes| - 1]) + Blocks(|writes[|writes| - 1]|)
  }

  lemma {:induction false} FrameCountGrows(writes: seq<seq<byte>>, n: nat)
    requires n <= |writes|
    ensures FrameCount(writes[..n]) <= FrameCount(writes)
    decreases |writes|
  {
    if n < |writes| {
      var most := writes[..|writes| - 1];
      assert most[..n] == writes[..n];
      FrameCountGrows(most, n);
    } else {
      assert writes[..n] == writes;
    }
  }

  lemma FlatGrows(writes: seq<seq<byte>>, n: nat)
    requires n <= |writes|
    ensures Flat(writes[..n]) <= Flat(writes)
  {
    assert writes == writes[..n] + writes[n..];
    FlatJoins(writes[..n], writes[n..]);
  }

  /** Nothing goes wrong with the stores numbered from..to. */
  ghost predicate Clear(faults: nat -> Fault, from: nat, to: nat) {
    forall i :: from <= i < to ==> faults(i).Fine?
  }

  /** What a destination holds of data it was given. */
  function Taken(data: seq<Cell>, fault: Fault): seq<Cell> {
    match fault
    case Fine => data
    case NoNonce => []
    case Failing(taken) => data[..Min(taken, |data|)]
  }

  class StreamEncryptWriter {
    const key: int
    const nonces: nat -> int
    /** What goes wrong with each frame. */
    const faults: nat -> Fault
    var dst: seq<Cell>
    var count: nat
    ghost var parts: seq<seq<byte>>
    ghost var plain: seq<byte>
    /** The part whose frame failed, and what the destination holds of that frame. */
    ghost var lost: seq<byte>
    ghost var torn: seq<Cell>

    ghost predicate Valid()
      reads this
    {
      GoodParts(parts) && dst == Encode(key, nonces, parts, 0) && Flat(parts) == plain && count == |parts|
    }

    /** After a failed write: whole frames, then one that is not to be trusted. */
    ghost predicate Broken()
      reads this
    {
      && GoodParts(parts) && Flat(parts) == plain && 0 < |lost| <= CHUNK
      && torn <= Framed(key, nonces(|parts|), lost) && dst == Encode(key, nonces, parts, 0) + torn
    }

    constructor (key: int, nonces: nat -> int, faults: nat -> Fault)
      ensures Valid() && plain == [] && dst == [] && count == 0
      ensures this.key == key && this.nonces == nonces && this.faults == faults
    {
      this.key, this.nonces, this.faults := key, nonces, faults;
      dst, count, parts, plain, lost, torn := [], 0, [], [], [], [];
    }

    /** Write: frames of at most one chunk; an empty write stores nothing. It fails
        exactly when something goes wrong with one of its frames. */
    method Write(body: seq<byte>) returns (total: nat, err: bool)
      requires Valid()
      modifies this
      ensures err <==> !Clear(faults, old(count), old(count) + Blocks(|body|))
      ensures !err ==> Valid() && plain == old(plain) + body && count == old(count) + Blocks(|body|)
      ensures err ==> Broken() && plain + lost <= old(plain) + body
      ensures |plain| == |old(plain)| + total && total <= |body|
      ensures body == [] ==> dst == old(dst)
    {
      hide Framed, Encode, Flat, GoodParts, Blocks;
      assert GoodParts(parts) && dst == Encode(key, nonces, parts, 0) && Flat(parts) == plain && count == |parts|;
      total := 0;
      ghost var k := 0;
      BlocksAre(0, 0);
      while total < |body|
        invariant Valid() && total <= |body| && plain == old(plain) + body[..total]
        invariant count == old(count) + k && k == Blocks(total) && (total < |body| ==> total == k * CHUNK)
        invariant Clear(faults, old(count), count)
        invariant total == 0 ==> dst == old(dst)
      {
        var n := Min(|body| - total, CHUNK);
        var part := body[total..total + n];
        var frame := Framed(key, nonces(count), part);
        BlocksBound(|body|, k);
        assert body[..total + n] == body[..total] + part;
        if !faults(count).Fine? {
          lost, torn := part, Taken(frame, faults(count));
          assert torn <= frame && plain + lost == old(plain) + body[..total + n];
          dst := dst + Taken(frame, faults(count));
          return total, true;
        }
        BlocksAre(total + n, k);
        EncodeAppends(key, nonces, parts, 0, part);
        FlatAppends(parts, part);
        dst := dst + frame;
        count, parts, plain := count + 1, parts + [part], plain + part;
        total, k := total + n, k + 1;
      }
      assert body[..total] == body;
      err := false;
    }

    /** finish: the zero length that closes the stream. */
    method Finish(fault: Fault) returns (err: bool)
      requires Valid()
      modifies `dst
      ensures err <==> !fault.Fine?
      ensures dst == old(dst) + Taken(BigEndian32(0), fault)
    {
      dst := dst + Taken(BigEndian32(0), fault);
      err := !fault.Fine?;
    }
  }

  /** What a stream yields is a prefix of the text that covers these bytes, and all
      of the text if it ends well. */
  ghost predicate Partial(cells: seq<Cell>, key: int, look: Cell -> byte, text: seq<byte>, count: nat) {
    var d := Decrypt(cells, key, look);
    d.out <= text && count <= |d.out| && (d.ok ==> d.out == text)
  }

  /** A source that writes these pieces until one of them fails. */
  method Feed(w: StreamEncryptWriter, writes: seq<seq<byte>>) returns (count: nat, err: bool)
    requires w.Valid() && w.plain == [] && w.count == 0
    modifies w
    ensures err <==> !Clear(w.faults, 0, FrameCount(writes))
    ensures !err ==> w.Valid() && w.plain == Flat(writes)
    ensures err ==> w.Broken() && w.plain + w.lost <= Flat(writes)
    ensures count == |w.plain|
  {
    hide Encode, Framed, Blocks;
    count := 0;
    for i := 0 to |writes|
      invariant w.Valid() && w.plain == Flat(writes[..i]) && count == |w.plain|
      invariant w.count == FrameCount(writes[..i]) && Clear(w.faults, 0, w.count)
    {
      assert writes[..i + 1] == writes[..i] + [writes[i]] && writes[..i + 1][..i] == writes[..i];
      FlatAppends(writes[..i], writes[i]);
      FrameCountGrows(writes, i + 1);
      FlatGrows(writes, i + 1);
      var n;
      n, err := w.Write(writes[i]);
      count := count + n;
      if err {
        return;
      }
    }
    assert writes[..|writes|] == writes;
    err := false;
  }

  lemma BrokenIsPartial(w: StreamEncryptWriter, text: seq<byte>, look: Cell -> byte)
    requires w.Broken() && w.plain + w.lost <= text && Faithful(look)
    ensures Partial(w.dst, w.key, look, text, |w.plain|) && !Decrypt(w.dst, w.key, look).ok
  {
    TornFails(w.key, w.nonces, w.parts, w.lost, w.torn, look);
  }

  /** encryptStream: a source that writes these pieces and then ends well or not,
      onto a destination where anything may go wrong. An error is reported exactly
      when something did. However it came about, what is stored decrypts well only to
      everything the source wrote, a finished stream has no cut that does, and what a
      broken one yields is a prefix that covers the bytes counted. */
  method EncryptStream(key: int, nonces: nat -> int, start: Fault, faults: nat -> Fault, end: Fault,
                       writes: seq<seq<byte>>, ends: bool)
    returns (payload: seq<Cell>, count: nat, err: bool)
    ensures err <==> !(start.Fine? && Clear(faults, 0, FrameCount(writes)) && ends && end.Fine?)
    ensures !err ==> STREAM_MAGIC <= payload && count == |Flat(writes)|
    ensures !err ==> forall look :: Faithful(look) ==>
                       Decrypt(payload[4..], key, look) == Decrypted(Flat(writes), true)
    ensures !err ==> forall look, n :: Faithful(look) && 4 <= n < |payload| ==> !Decrypt(payload[4..n], key, look).ok
    ensures |payload| >= 4 ==> forall look :: Faithful(look) ==> Partial(payload[4..], key, look, Flat(writes), count)
    ensures |payload| >= 4 && !ends ==> forall look :: Faithful(look) ==> !Decrypt(payload[4..], key, look).ok
  {
    hide Decrypt, Encode, Flat, Framed;
    payload, count := Taken(STREAM_MAGIC, start), 0;
    if !start.Fine? {
      NothingDecrypts(payload, key, Flat(writes));
      return payload, 0, true;
    }
    var w := new StreamEncryptWriter(key, nonces, faults);
    count, err := Feed(w, writes);
    if err {
      payload := STREAM_MAGIC + w.dst;
      assert payload[4..] == w.dst;
      forall look | Faithful(look)
        ensures Partial(payload[4..], key, look, Flat(writes), count) && !Decrypt(payload[4..], key, look).ok
      {
        BrokenIsPartial(w, Flat(writes), look);
      }
      return;
    }
    var front := w.dst;
    err := true;
    if ends {
      err := w.Finish(end);
    }
    payload := STREAM_MAGIC + w.dst;
    EndsAs(payload, key, nonces, w.parts, |w.dst| - |front|);
  }

  lemma NothingDecrypts(payload: seq<Cell>, key: int, text: seq<byte>)
    requires |payload| <= 4
    ensures |payload| >= 4 ==> forall look :: Faithful(look) ==>
                                 Partial(payload[4..], key, look, text, 0) && !Decrypt(payload[4..], key, look).ok
  {
  }

  /** A payload of whole frames and this much of the closing length. */
  lemma EndsAs(payload: seq<Cell>, key: int, nonces: nat -> int, parts: seq<seq<byte>>, n: nat)
    requires GoodParts(parts) && n <= 4 && |payload| >= 4
    requires payload[4..] == Encode(key, nonces, parts, 0) + BigEndian32(0)[..n]
    ensures forall look :: Faithful(look) ==> Decrypt(payload[4..], key, look) == Decrypted(Flat(parts), n == 4)
    ensures n == 4 ==> forall look, m :: Faithful(look) && 4 <= m < |payload| ==>
                                           !Decrypt(payload[4..m], key, look).ok
  {
    hide Decrypt, Encode, Flat;
    forall look | Faithful(look) ensures Decrypt(payload[4..], key, look) == Decrypted(Flat(parts), n == 4) {
      EndDecides(key, nonces, parts, n, look);
    }
    if n == 4 {
      assert BigEndian32(0)[..n] == BigEndian32(0);
      forall look, m | Faithful(look) && 4 <= m < |payload| ensures !Decrypt(payload[4..m], key, look).ok {
        assert payload[4..m] == payload[4..][..m - 4];
        TruncationFails(key, nonces, parts, payload[4..m], look);
      }
    }
  }

  /** decryptStream, as the loop runs. */
  method DecryptStream(cells: seq<Cell>, key: int, look: Cell -> byte) returns (r: Decrypted)
    ensures r == Decrypt(cells, key, look)
  {
    hide Open, Uint32;
    var at, out := 0, [];
    while true
      invariant 0 <= at <= |cells|
      invariant var rest := Decrypt(cells[at..], key, look);
                  Decrypt(cells, key, look) == Decrypted(out + rest.out, rest.ok)
      decreases |cells| - at
    {
      var left := cells[at..];
      if |left| < 4 {
        return Decrypted(out, false);
      }
      var n := Uint32(left[..4], look);
      if n == 0 {
        return Decrypted(out, true);
      }
      if n > CHUNK || |left| < 4 + OVERHEAD + n {
        return Decrypted(out, false);
      }
      var plain := Open(left[4..4 + OVERHEAD + n], key, 0);
      if plain.None? {
        return Decrypted(out, false);
      }
      assert left[4 + OVERHEAD + n..] == cells[at + 4 + OVERHEAD + n..];
      out, at := out + plain.value, at + 4 + OVERHEAD + n;
    }
  }

  // -------------------------------------------------------------- ZIP envelope

  const HEADER: nat := 30

  function Little16(b: seq<byte>, at: nat): nat
    requires at + 2 <= |b|
  {
    b[at] as int + b[at + 1] as int * 256
  }

  /** A local file header of a stored entry. */
  predicate LocalHeader(b: seq<byte>)
    requires |b| >= HEADER
  {
    b[0] == 0x50 && b[1] == 0x4b && b[2] == 0x03 && b[3] == 0x04 && Little16(b, 8) == 0
  }

  predicate LocalPrefix(b: seq<byte>) {
    |b| >= HEADER && LocalHeader(b)
  }

  /** Name and extra field lengths. */
  function NameLength(b: seq<byte>): nat
    requires |b| >= HEADER
  {
    Little16(b, 26) + Little16(b, 28)
  }

  /** What a single stored file of this size inside an archive stream amounts to. */
  function Payload(archive: seq<byte>, size: nat): seq<byte> {
    if |archive| < HEADER || !LocalHeader(archive) then [] else
    var from := Min(HEADER + NameLength(archive), |archive|);
    archive[from..Min(from + size, |archive|)]
  }

  /** An archive stream the writer stops at: it does not start with a stored
      entry, or its payload does not fit the destination. */
  ghost predicate Refused(archive: seq<byte>, size: nat, capacity: nat) {
    (|archive| >= HEADER && !LocalHeader(archive)) || |Payload(archive, size)| > capacity
  }

  lemma RefusedLater(archive: seq<byte>, more: seq<byte>, size: nat, capacity: nat)
    requires Refused(archive, size, capacity)
    ensures Refused(archive + more, size, capacity)
  {
    hide LocalHeader, NameLength;
    if |archive| >= HEADER {
      HeaderOf(archive);
      HeaderOf(archive + more);
      assert (archive + more)[..HEADER] == archive[..HEADER];
    }
  }

  /** Whether a piece reaches the destination: the header is past, and payload was
      still to come before it. */
  ghost predicate Reaches(seen: seq<byte>, piece: seq<byte>, size: nat) {
    var all := seen + piece;
    LocalPrefix(all) && |all| >= HEADER + NameLength(all) && |Payload(seen, size)| < size
  }

  class MobileZIPFileWriter {
    const size: nat
    const capacity: nat
    var dst: seq<byte>
    var room: nat
    var header: seq<byte>
    var skip: nat
    var left: nat
    var started: bool
    ghost var seen: seq<byte>

    ghost predicate Valid()
      reads this
    {
      && |dst| + room == capacity
      && if !started then |seen| < HEADER && header == seen && dst == [] && left == size
      else
        && |seen| >= HEADER && header == seen[..HEADER] && LocalHeader(header)
        && skip == Max(0, HEADER + NameLength(header) - |seen|)
        && dst == Payload(seen, size) && left == size - |dst|
    }

    constructor (size: nat, room: nat)
      ensures Valid() && seen == [] && this.size == size && capacity == room
    {
      this.size, this.room, capacity := size, room, room;
      dst, header, skip, left, started, seen := [], [], 0, size, false, [];
    }

    /** Write: on success all of it is taken, and exactly the payload bytes seen so
        far have been forwarded, however the archive was cut up. `breaks` is how much
        the destination takes when it reports an error of its own. */
    method Write(body: seq<byte>, breaks: Option<nat>) returns (n: nat, err: bool)
      requires Valid()
      modifies this
      ensures !err ==> Valid() && seen == old(seen) + body && n == |body|
      ensures err ==> n <= |body|
      ensures !err ==> dst == if |seen| >= HEADER then Payload(seen, size) else []
      ensures err <==> Refused(old(seen) + body, size, capacity)
                       || (breaks.Some? && Reaches(old(seen), body, size))
      ensures err ==> dst <= Payload(old(seen) + body, size)
    {
      hide Payload, LocalHeader, NameLength;
      ghost var all := seen + body;
      HeadOnly(seen, size);
      HeadOnly(all, size);
      var p := body;
      if !started {
        var take := Min(HEADER - |header|, |p|);
        header := header + p[..take];
        p := p[take..];
        if |header| < HEADER {
          seen := all;
          return |body|, false;
        }
        HeaderOf(all);
        assert all[..HEADER] == header;
        if !LocalHeader(header) {
          return 0, true;
        }
        HeadOnly(header, size);
        skip, started := NameLength(header), true;
        seen := all[..|all| - |p|];
      }
      assert seen + p == all;
      HeaderOf(all);
      assert all[..HEADER] == header;
      n, err := Forward(p, |body|, breaks);
    }

    /** The part of Write past the header. */
    method Forward(p: seq<byte>, total: nat, breaks: Option<nat>) returns (n: nat, err: bool)
      requires Valid() && started && |p| <= total
      modifies this
      ensures !err ==> Valid() && started && seen == old(seen) + p && n == total
      ensures err ==> n <= total && seen == old(seen)
      ensures err ==> dst <= Payload(old(seen) + p, size)
      ensures err <==> |Payload(old(seen) + p, size)| > capacity
                       || (breaks.Some? && Reaches(old(seen), p, size))
    {
      hide Payload, LocalHeader, NameLength;
      var passed := Min(skip, |p|);
      ghost var all := seen + p;
      HeaderOf(seen);
      HeaderOf(all);
      assert all[..HEADER] == seen[..HEADER];
      PayloadGrows(seen, p, size, passed, if skip - passed == 0 then Min(|p| - passed, left) else 0);
      skip := skip - passed;
      var q := p[passed..];
      if skip == 0 && left > 0 {
        var wanted := Min(|q|, left);
        var got := Min(if breaks.Some? then Min(breaks.value, wanted) else wanted, room);
        dst, room, left := dst + q[..got], room - got, left - got;
        if breaks.Some? || got != wanted {
          return total - |q| + got, true;
        }
      }
      seen := all;
      return total, false;
    }
  }

  lemma HeaderOf(seen: seq<byte>)
    requires |seen| >= HEADER
    ensures LocalHeader(seen) == LocalHeader(seen[..HEADER]) && NameLength(seen) == NameLength(seen[..HEADER])
  {
  }

  lemma HeadOnly(b: seq<byte>, size: nat)
    ensures |b| <= HEADER || !LocalHeader(b) ==> Payload(b, size) == []
  {
    hide LocalHeader, NameLength;
  }

  lemma PayloadGrows(seen: seq<byte>, p: seq<byte>, size: nat, passed: nat, taken: nat)
    requires |seen| >= HEADER && LocalHeader(seen)
    requires var skip := Max(0, HEADER + NameLength(seen) - |seen|);
             && passed == Min(skip, |p|)
             && taken == if skip - passed == 0 then Min(|p| - passed, size - |Payload(seen, size)|) else 0
    ensures Payload(seen + p, size) == Payload(seen, size) + p[passed..passed + taken]
  {
    hide LocalHeader, NameLength;
    var all, from := seen + p, HEADER + NameLength(seen);
    HeaderOf(seen);
    HeaderOf(all);
    assert all[..HEADER] == seen[..HEADER];
    if from > |seen| {
      assert Payload(seen, size) == [];
      if from <= |all| {
        SliceShifted(seen, p, passed, passed + taken);
      }
    } else {
      SliceAcross(seen, p, from, Min(from + size, |all|));
    }
  }

  lemma PayloadOfMore(seen: seq<byte>, more: seq<byte>, size: nat)
    ensures Payload(seen, size) <= Payload(seen + more, size)
  {
    hide LocalHeader, NameLength;
    if LocalPrefix(seen) {
      HeaderOf(seen);
      HeaderOf(seen + more);
      assert (seen + more)[..HEADER] == seen[..HEADER];
    }
  }

  lemma SliceAcross<T>(a: seq<T>, b: seq<T>, i: int, j: int)
    requires 0 <= i <= |a| && i <= j <= |a| + |b|
    ensures (a + b)[i..j] == a[i..Min(j, |a|)] + b[..Max(0, j - |a|)]
  {
  }

  /** The destination breaks on this piece. */
  ghost predicate Stops(size: nat, pieces: seq<seq<byte>>, breaks: nat -> Option<nat>, i: nat)
    requires i < |pieces|
  {
    breaks(i).Some? && Reaches(Flat(pieces[..i]), pieces[i], size)
  }

  /** Any split of the archive stream: the destination gets the declared payload
      and nothing else, and the writer is content exactly when it saw all of it. */
  method StripAll(w: MobileZIPFileWriter, pieces: seq<seq<byte>>, breaks: nat -> Option<nat>) returns (err: bool)
    requires w.Valid() && w.seen == []
    modifies w
    ensures err <==> Refused(Flat(pieces), w.size, w.capacity)
                     || exists i :: 0 <= i < |pieces| && Stops(w.size, pieces, breaks, i)
    ensures err ==> w.dst <= Payload(Flat(pieces), w.size)
    ensures !err ==> w.dst == (if |Flat(pieces)| >= HEADER then Payload(Flat(pieces), w.size) else [])
    ensures !err ==> (w.started && w.skip == 0 && w.left == 0 <==>
                        LocalPrefix(Flat(pieces)) && |Flat(pieces)| >= HEADER + NameLength(Flat(pieces)) + w.size)
  {
    for i := 0 to |pieces|
      invariant w.Valid() && w.seen == Flat(pieces[..i])
      invariant forall j :: 0 <= j < i ==> !Stops(w.size, pieces, breaks, j)
    {
      assert pieces[..i + 1] == pieces[..i] + [pieces[i]];
      FlatAppends(pieces[..i], pieces[i]);
      var n, stopped := w.Write(pieces[i], breaks(i));
      assert stopped ==> Refused(Flat(pieces[..i + 1]), w.size, w.capacity) || Stops(w.size, pieces, breaks, i);
      if stopped {
        PayloadOfMore(Flat(pieces[..i + 1]), Flat(pieces[i + 1..]), w.size);
        assert pieces == pieces[..i + 1] + pieces[i + 1..];
        FlatJoins(pieces[..i + 1], pieces[i + 1..]);
        if Refused(Flat(pieces[..i + 1]), w.size, w.capacity) {
          RefusedLater(Flat(pieces[..i + 1]), Flat(pieces[i + 1..]), w.size, w.capacity);
        }
        return true;
      }
    }
    assert pieces[..|pieces|] == pieces;
    err := false;
  }
}
