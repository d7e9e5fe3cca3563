/** The packet codec at both ends of the wire (server/network_interactions.c:112-227, the same text in
    client/network_interactions.c). A packet is a type word, a length word counting bytes, and the
    floats' bit patterns. */
module Codec {
  import opened Words

  datatype Option<T> = None | Some(value: T)

  const PACK_OF_FLOATS: Word := 0
  const INIT_PACK: Word := 1

  predicate KnownKind(kind: Word) { kind == PACK_OF_FLOATS || kind == INIT_PACK }

  /** `length` is an `unsigned int`. */
  datatype Packet = Packet(kind: Word, length: nat, buf: seq<Byte>)

  function FloatBytes(xs: seq<Word>): (b: seq<Byte>)
    ensures |b| == 4 * |xs|
  {
    if |xs| == 0 then [] else FloatBytes(xs[..|xs| - 1]) + WordBytes(xs[|xs| - 1])
  }

  /** gen_packet_from_floats and gen_init_pack: the length in bytes is cut to 32 bits. */
  function FillPacket(kind: Word, xs: seq<Word>): Packet {
    Packet(kind, 4 * |xs| % MODULUS, FloatBytes(xs))
  }

  /** pack_to_bytes; the source exits on a type it does not know. */
  function PackToBytes(p: Packet): (b: Option<seq<Byte>>)
    requires p.length <= |p.buf|
    ensures b.Some? ==> |b.value| == 8 + p.length
  {
    if KnownKind(p.kind) then Some(WordBytes(p.kind) + WordBytes(ToWord(p.length)) + p.buf[..p.length]) else None
  }

  /** get_pack_bytes_size: how many bytes are sent, computed in 32 bits. */
  function PackBytesSize(p: Packet): nat { (8 + p.length) % MODULUS }

  /** The bytes sent for a packet. */
  function SentBytes(p: Packet): seq<Byte>
    requires p.length <= |p.buf|
  {
    var b := PackToBytes(p);
    if b.Some? then b.value[..PackBytesSize(p)] else []
  }

  /** What reaches the other side for an array of floats. */
  function Datagram(xs: seq<Word>): seq<Byte> { SentBytes(FillPacket(PACK_OF_FLOATS, xs)) }

  /** The length word of a received buffer. */
  function ReceivedLength(ca: seq<Byte>): nat
    requires |ca| >= 8
  {
    Value(WordOf(ca[4..8]))
  }

  /** The buffer holds as many bytes as decoding it looks at. */
  predicate Readable(ca: seq<Byte>) {
    |ca| >= 8 && (KnownKind(WordOf(ca[..4])) ==> |ca| >= 8 + ReceivedLength(ca))
  }

  /** bytes_to_pack; the source exits on a type it does not know. */
  function BytesToPack(ca: seq<Byte>): (p: Option<Packet>)
    requires Readable(ca)
    ensures p.Some? ==> |p.value.buf| == p.value.length && KnownKind(p.value.kind)
  {
    var kind := WordOf(ca[..4]);
    var length := ReceivedLength(ca);
    if KnownKind(kind) then Some(Packet(kind, length, ca[8..8 + length])) else None
  }

  function FloatAt(b: seq<Byte>, i: nat): Word
    requires 4 * i + 4 <= |b|
  {
    WordOf(b[4 * i..4 * i + 4])
  }

  function GetFloats(p: Packet): (xs: seq<Word>)
    requires p.length <= |p.buf|
    ensures |xs| == p.length / 4
  {
    seq(p.length / 4, i requires 0 <= i < p.length / 4 => FloatAt(p.buf, i))
  }

  /** get_floats_count; -1 as a 64-bit size_t for any other type. */
  function GetFloatsCount(p: Packet): nat {
    if p.kind != PACK_OF_FLOATS then 0xFFFF_FFFF_FFFF_FFFF else p.length / 4
  }

  // ---- Round trip ----

  lemma {:induction false} FloatBytesSlice(xs: seq<Word>, i: nat)
    requires i < |xs|
    ensures FloatBytes(xs)[4 * i..4 * i + 4] == WordBytes(xs[i])
    decreases |xs|
  {
    var n := |xs| - 1;
    var (front, last) := (FloatBytes(xs[..n]), WordBytes(xs[n]));
    if i < n {
      FloatBytesSlice(xs[..n], i);
      assert (front + last)[4 * i..4 * i + 4] == front[4 * i..4 * i + 4];
    } else {
      assert (front + last)[4 * n..4 * n + 4] == last;
    }
  }

  lemma {:induction false} FloatsRead(xs: seq<Word>, i: nat)
    requires i < |xs|
    ensures FloatAt(FloatBytes(xs), i) == xs[i]
  {
    FloatBytesSlice(xs, i);
    WordRoundTrip(xs[i]);
  }

  lemma {:induction false} FloatsRoundTrip(xs: seq<Word>, p: Packet)
    requires p.buf == FloatBytes(xs) && p.length == 4 * |xs|
    ensures GetFloats(p) == xs
  {
    forall i | 0 <= i < |xs|
      ensures GetFloats(p)[i] == xs[i]
    {
      FloatsRead(xs, i);
    }
  }

  lemma {:induction false} HeaderParts(k: seq<Byte>, l: seq<Byte>, rest: seq<Byte>)
    requires |k| == |l| == 4
    ensures var ca := k + l + rest;
            ca[..4] == k && ca[4..8] == l && ca[8..] == rest
  {
  }

  lemma {:induction false} ValueSurvives(w: Word, n: nat)
    requires Value(w) == n
    ensures Value(WordOf(WordBytes(w))) == n
  {
    WordRoundTrip(w);
  }

  lemma {:induction false} SmallMod(n: nat)
    requires n < MODULUS
    ensures n % MODULUS == n
  {
  }

  lemma {:induction false} LengthRoundTrip(length: nat)
    requires length < MODULUS
    ensures Value(WordOf(WordBytes(ToWord(length)))) == length
  {
    ToWordValue(length);
    SmallMod(length);
    ValueSurvives(ToWord(length), length);
  }

  /** A header followed by anything at all decodes to the header's type and length. */
  lemma {:induction false} HeaderRoundTrip(kind: Word, length: nat, rest: seq<Byte>)
    requires length < MODULUS
    ensures var ca := WordBytes(kind) + WordBytes(ToWord(length)) + rest;
            WordOf(ca[..4]) == kind && ReceivedLength(ca) == length && ca[8..] == rest
  {
    HeaderParts(WordBytes(kind), WordBytes(ToWord(length)), rest);
    WordRoundTrip(kind);
    LengthRoundTrip(length);
  }

  /** Decoding `ca` yields the floats `xs`. */
  ghost predicate Yields(ca: seq<Byte>, xs: seq<Word>) {
    && Readable(ca)
    && var p := BytesToPack(ca);
       && p.Some? && p.value.kind == PACK_OF_FLOATS
       && GetFloatsCount(p.value) == |xs| && GetFloats(p.value) == xs
  }

  /** They do from a buffer that starts with their datagram. */
  ghost predicate Delivers(xs: seq<Word>, leftover: seq<Byte>) { Yields(Datagram(xs) + leftover, xs) }

  lemma {:induction false} WholeBytes(k: seq<Byte>, l: seq<Byte>, b: seq<Byte>, size: nat)
    requires |k| == |l| == 4 && size == 8 + |b|
    ensures (k + l + b)[..size] == k + l + b
  {
  }

  lemma {:induction false} SizeFits(n: nat)
    requires n + 8 < MODULUS
    ensures n % MODULUS == n && (8 + n) % MODULUS == 8 + n
  {
  }

  /** A packet whose size fits is sent whole. */
  lemma {:induction false} SentWhole(p: Packet)
    requires p.kind == PACK_OF_FLOATS && p.length <= |p.buf| && p.length + 8 < MODULUS
    ensures SentBytes(p) == WordBytes(PACK_OF_FLOATS) + WordBytes(ToWord(p.length)) + p.buf[..p.length]
  {
    SizeFits(p.length);
    WholeBytes(WordBytes(PACK_OF_FLOATS), WordBytes(ToWord(p.length)), p.buf[..p.length], 8 + p.length);
  }

  lemma {:induction false} WholeFloats(xs: seq<Word>)
    ensures FloatBytes(xs)[..4 * |xs|] == FloatBytes(xs)
  {
  }

  /** The datagram when nothing wraps. */
  lemma {:induction false} WholeDatagram(xs: seq<Word>)
    requires 4 * |xs| + 8 < MODULUS
    ensures Datagram(xs) == WordBytes(PACK_OF_FLOATS) + WordBytes(ToWord(4 * |xs|)) + FloatBytes(xs)
  {
    SizeFits(4 * |xs|);
    SentWhole(FillPacket(PACK_OF_FLOATS, xs));
    WholeFloats(xs);
  }

  lemma {:induction false} KnownDecodes(ca: seq<Byte>, kind: Word, length: nat)
    requires |ca| >= 8 + length && KnownKind(kind)
    requires WordOf(ca[..4]) == kind && ReceivedLength(ca) == length
    ensures Readable(ca) && BytesToPack(ca) == Some(Packet(kind, length, ca[8..8 + length]))
  {
  }

  lemma {:induction false} HeaderDecodes(length: nat, b: seq<Byte>, leftover: seq<Byte>)
    requires length == |b| < MODULUS
    ensures var ca := WordBytes(PACK_OF_FLOATS) + WordBytes(ToWord(length)) + b + leftover;
            Readable(ca) && BytesToPack(ca) == Some(Packet(PACK_OF_FLOATS, length, b))
  {
    var ca := WordBytes(PACK_OF_FLOATS) + WordBytes(ToWord(length)) + b + leftover;
    Regroup(WordBytes(PACK_OF_FLOATS), WordBytes(ToWord(length)), b, leftover);
    HeaderRoundTrip(PACK_OF_FLOATS, length, b + leftover);
    KnownDecodes(ca, PACK_OF_FLOATS, length);
  }

  lemma {:induction false} Regroup(k: seq<Byte>, l: seq<Byte>, b: seq<Byte>, rest: seq<Byte>)
    requires |k| == |l| == 4
    ensures k + l + b + rest == k + l + (b + rest)
    ensures (k + l + b + rest)[8..8 + |b|] == b
  {
  }

  lemma {:induction false} SmallDelivers(xs: seq<Word>, leftover: seq<Byte>)
    requires 4 * |xs| + 8 < MODULUS
    ensures Delivers(xs, leftover)
  {
    WholeDatagram(xs);
    HeaderDecodes(4 * |xs|, FloatBytes(xs), leftover);
    FloatsRoundTrip(xs, Packet(PACK_OF_FLOATS, 4 * |xs|, FloatBytes(xs)));
  }

  // ---- When the length or the datagram's size does not fit into 32 bits ----

  /** The length wrapped but the size did not: a shorter array arrives. */
  lemma {:induction false} WrappedLengthFails(xs: seq<Word>, leftover: seq<Byte>)
    requires var m := 4 * |xs| % MODULUS; m + 8 < MODULUS && m < 4 * |xs|
    ensures !Delivers(xs, leftover)
  {
    var m := 4 * |xs| % MODULUS;
    SentWhole(FillPacket(PACK_OF_FLOATS, xs));
    HeaderDecodes(m, FloatBytes(xs)[..m], leftover);
  }

  lemma {:induction false} WrappedSize(n: nat)
    requires n % 4 == 0
    requires n % MODULUS + 8 >= MODULUS
    ensures (8 + n % MODULUS) % MODULUS == 0 || (8 + n % MODULUS) % MODULUS == 4
  {
  }

  /** The size wrapped to four bytes: the length word that is decoded is a leftover. */
  lemma {:induction false} TypeOnlyFails(xs: seq<Word>, leftover: seq<Byte>)
    requires Datagram(xs) == WordBytes(PACK_OF_FLOATS) && |xs| > 0
    requires |leftover| >= 4 && leftover[..4] == WordBytes(ToWord(0))
    ensures !Delivers(xs, leftover)
  {
    var rest := leftover[4..];
    assert leftover == WordBytes(ToWord(0)) + rest;
    assert Datagram(xs) + leftover == WordBytes(PACK_OF_FLOATS) + WordBytes(ToWord(0)) + [] + rest;
    HeaderDecodes(0, [], rest);
  }

  /** The size wrapped to nothing: everything that is decoded is left over. */
  lemma {:induction false} NothingSentFails(xs: seq<Word>, leftover: seq<Byte>)
    requires |Datagram(xs)| == 0 && |leftover| >= 8 && leftover[..4] == WordBytes(2)
    ensures !Delivers(xs, leftover)
  {
    assert Datagram(xs) + leftover == leftover;
    WordRoundTrip(2);
  }

  lemma {:induction false} CutDatagram(xs: seq<Word>, size: nat)
    requires var p := FillPacket(PACK_OF_FLOATS, xs); PackBytesSize(p) == size <= 4
    ensures Datagram(xs) == WordBytes(PACK_OF_FLOATS)[..size]
  {
  }

  ghost predicate AlwaysDelivers(xs: seq<Word>) {
    forall leftover: seq<Byte> :: |leftover| >= 8 ==> Delivers(xs, leftover)
  }

  lemma {:induction false} NotAlways(xs: seq<Word>, leftover: seq<Byte>)
    requires |leftover| >= 8 && !Delivers(xs, leftover)
    ensures !AlwaysDelivers(xs)
  {
  }

  lemma {:induction false} LongFails(xs: seq<Word>)
    requires var m := 4 * |xs| % MODULUS; m + 8 < MODULUS && m < 4 * |xs|
    ensures !AlwaysDelivers(xs)
  {
    var leftover := WordBytes(0) + WordBytes(0);
    WrappedLengthFails(xs, leftover);
    NotAlways(xs, leftover);
  }

  lemma {:induction false} EmptyFails(xs: seq<Word>)
    requires PackBytesSize(FillPacket(PACK_OF_FLOATS, xs)) == 0
    ensures !AlwaysDelivers(xs)
  {
    var leftover := WordBytes(2) + WordBytes(0);
    CutDatagram(xs, 0);
    NothingSentFails(xs, leftover);
    NotAlways(xs, leftover);
  }

  lemma {:induction false} CutFails(xs: seq<Word>)
    requires PackBytesSize(FillPacket(PACK_OF_FLOATS, xs)) == 4 && |xs| > 0
    ensures !AlwaysDelivers(xs)
  {
    var zero := WordBytes(ToWord(0));
    CutDatagram(xs, 4);
    TypeOnlyFails(xs, zero + zero);
    NotAlways(xs, zero + zero);
  }

  lemma {:induction false} LargeFails(xs: seq<Word>)
    requires 4 * |xs| + 8 >= MODULUS
    ensures !AlwaysDelivers(xs)
  {
    var n := 4 * |xs|;
    if n % MODULUS + 8 < MODULUS {
      LongFails(xs);
    } else {
      WrappedSize(n);
      if PackBytesSize(FillPacket(PACK_OF_FLOATS, xs)) == 0 {
        EmptyFails(xs);
      } else {
        CutFails(xs);
      }
    }
  }

  /** The codec on its own: whatever follows the datagram, its floats are decoded exactly when header and
      floats together are fewer than 2^32 bytes. */
  lemma {:induction false} RoundTripExactlyWhenItFits(xs: seq<Word>)
    ensures AlwaysDelivers(xs) <==> 4 * |xs| + 8 < 0x1_0000_0000
  {
    if 4 * |xs| + 8 < MODULUS {
      forall leftover: seq<Byte> | |leftover| >= 8
        ensures Delivers(xs, leftover)
      {
        SmallDelivers(xs, leftover);
      }
    } else {
      LargeFails(xs);
    }
  }

  // ---- The listener's buffer ----

  /** The size of the buffer a listener receives into, again and again (server/include/constants.h:6). */
  const MAXBUF := 1024 * 1024

  /** What the buffer holds after recvfrom: a datagram overwrites its start, and is cut at its end. */
  function Received(buf: seq<Byte>, d: seq<Byte>): (r: seq<Byte>)
    ensures |r| == |buf|
  {
    if |d| <= |buf| then d + buf[|d|..] else d[..|buf|]
  }

  /** The floats arrive whatever the buffer held before. */
  ghost predicate AlwaysArrives(xs: seq<Word>) {
    forall buf: seq<Byte> :: |buf| == MAXBUF ==> Yields(Received(buf, Datagram(xs)), xs)
  }

  lemma {:induction false} FittingArrives(xs: seq<Word>, buf: seq<Byte>)
    requires 4 * |xs| + 8 <= MAXBUF == |buf|
    ensures Yields(Received(buf, Datagram(xs)), xs)
  {
    WholeDatagram(xs);
    SmallDelivers(xs, buf[|Datagram(xs)|..]);
  }

  lemma {:induction false} SameHeader(d: seq<Byte>, size: nat)
    requires 8 <= size <= |d|
    ensures d[..size][..4] == d[..4] && d[..size][4..8] == d[4..8]
    ensures ReceivedLength(d[..size]) == ReceivedLength(d)
  {
  }

  lemma {:induction false} TooShort(ca: seq<Byte>, length: nat)
    requires 8 <= |ca| < 8 + length && KnownKind(WordOf(ca[..4])) && ReceivedLength(ca) == length
    ensures !Readable(ca)
  {
  }

  /** Decoding a datagram that was cut looks past the end of the buffer. */
  lemma {:induction false} CutIsNotReadable(length: nat, b: seq<Byte>, size: nat)
    requires length == |b| < MODULUS && 8 <= size < 8 + length
    ensures !Readable((WordBytes(PACK_OF_FLOATS) + WordBytes(ToWord(length)) + b)[..size])
  {
    var d := WordBytes(PACK_OF_FLOATS) + WordBytes(ToWord(length)) + b;
    HeaderRoundTrip(PACK_OF_FLOATS, length, b);
    SameHeader(d, size);
    TooShort(d[..size], length);
  }

  lemma {:induction false} NotAlwaysArrives(xs: seq<Word>, buf: seq<Byte>)
    requires |buf| == MAXBUF && !Yields(Received(buf, Datagram(xs)), xs)
    ensures !AlwaysArrives(xs)
  {
  }

  /** A datagram of `8 + m` bytes, `m` the low 32 bits of the length: either it does not fit into the
      buffer, or the length has wrapped. */
  lemma {:induction false} LongDoesNotArrive(xs: seq<Word>, buf: seq<Byte>)
    requires 4 * |xs| + 8 > MAXBUF == |buf| && 4 * |xs| % MODULUS + 8 < MODULUS
    ensures !Yields(Received(buf, Datagram(xs)), xs)
  {
    var m := 4 * |xs| % MODULUS;
    SentWhole(FillPacket(PACK_OF_FLOATS, xs));
    if 8 + m > MAXBUF {
      CutIsNotReadable(m, FloatBytes(xs)[..m], MAXBUF);
    } else {
      WrappedLengthFails(xs, buf[8 + m..]);
    }
  }

  /** A buffer that starts with the word `w` and is zero after it. */
  function Stale(w: Word): (buf: seq<Byte>)
    ensures |buf| == MAXBUF
  {
    WordBytes(w) + seq(MAXBUF - 4, _ => 0)
  }

  lemma {:induction false} NothingDoesNotArrive(xs: seq<Word>)
    requires PackBytesSize(FillPacket(PACK_OF_FLOATS, xs)) == 0
    ensures !AlwaysArrives(xs)
  {
    CutDatagram(xs, 0);
    NothingSentFails(xs, Stale(2));
    NotAlwaysArrives(xs, Stale(2));
  }

  lemma {:induction false} ZeroBytes(rest: seq<Byte>)
    requires |rest| >= 4 && forall i :: 0 <= i < 4 ==> rest[i] == 0
    ensures rest[..4] == WordBytes(ToWord(0))
  {
  }

  lemma {:induction false} TypeDoesNotArrive(xs: seq<Word>)
    requires PackBytesSize(FillPacket(PACK_OF_FLOATS, xs)) == 4 && |xs| > 0
    ensures !AlwaysArrives(xs)
  {
    CutDatagram(xs, 4);
    ZeroBytes(Stale(2)[4..]);
    TypeOnlyFails(xs, Stale(2)[4..]);
    NotAlwaysArrives(xs, Stale(2));
  }

  lemma {:induction false} BeyondDoesNotArrive(xs: seq<Word>)
    requires 4 * |xs| + 8 > MAXBUF
    ensures !AlwaysArrives(xs)
  {
    if 4 * |xs| % MODULUS + 8 < MODULUS {
      LongDoesNotArrive(xs, Stale(2));
      NotAlwaysArrives(xs, Stale(2));
    } else {
      WrappedSize(4 * |xs|);
      if PackBytesSize(FillPacket(PACK_OF_FLOATS, xs)) == 0 {
        NothingDoesNotArrive(xs);
      } else {
        TypeDoesNotArrive(xs);
      }
    }
  }

  /** Main result: an array of floats sent to a listener is decoded unchanged, whatever the reused buffer
      held before, exactly when header and floats together fit into the buffer. */
  lemma {:induction false} ArrivesExactlyWhenItFits(xs: seq<Word>)
    ensures AlwaysArrives(xs) <==> 4 * |xs| + 8 <= 1_048_576
  {
    if 4 * |xs| + 8 <= MAXBUF {
      forall buf: seq<Byte> | |buf| == MAXBUF
        ensures Yields(Received(buf, Datagram(xs)), xs)
      {
        FittingArrives(xs, buf);
      }
    } else {
      BeyondDoesNotArrive(xs);
    }
  }

  /** What a listener gets out of its buffer: the floats with the count stored beside them, a type on
      which the source exits, or a length that makes it read past the end of the buffer. */
  datatype Outcome = Floats(floats: seq<Word>, count: nat) | UnknownKind | BeyondBuffer

  function Unpacked(ca: seq<Byte>): Outcome {
    if !Readable(ca) then BeyondBuffer
    else
      match BytesToPack(ca)
      case None => UnknownKind
      case Some(p) => Floats(GetFloats(p), GetFloatsCount(p))
  }

  lemma {:induction false} YieldsExactly(ca: seq<Byte>, xs: seq<Word>)
    ensures Yields(ca, xs) <==> Unpacked(ca) == Floats(xs, |xs|)
  {
  }

  /** The same result about the outcome. */
  lemma {:induction false} UnpackedExactly(xs: seq<Word>)
    ensures (forall buf: seq<Byte> :: |buf| == 1_048_576 ==> Unpacked(Received(buf, Datagram(xs))) == Floats(xs, |xs|))
            <==> 4 * |xs| + 8 <= 1_048_576
  {
    ArrivesExactlyWhenItFits(xs);
    forall buf: seq<Byte> | |buf| == MAXBUF
      ensures Yields(Received(buf, Datagram(xs)), xs) <==> Unpacked(Received(buf, Datagram(xs))) == Floats(xs, |xs|)
    {
      YieldsExactly(Received(buf, Datagram(xs)), xs);
    }
  }

  // ---- Byte by byte ----

  lemma {:induction false} LengthBytes(n: nat)
    requires n < MODULUS
    ensures var b := WordBytes(ToWord(n));
            b[0] as nat + 0x100 * (b[1] as nat) + 0x1_0000 * (b[2] as nat) + 0x100_0000 * (b[3] as nat) == n
  {
    ToWordValue(n);
    SmallMod(n);
    ValueIs(ToWord(n));
  }

  lemma {:induction false} ValueIs(w: Word)
    ensures var b := WordBytes(w);
            Value(w) == b[0] as nat + 0x100 * (b[1] as nat) + 0x1_0000 * (b[2] as nat) + 0x100_0000 * (b[3] as nat)
  {
  }

  lemma {:induction false} HeaderAt(d: seq<Byte>, k: seq<Byte>, l: seq<Byte>, b: seq<Byte>)
    requires d == k + l + b && |k| == |l| == 4
    ensures d[0] == k[0] && d[1] == k[1] && d[2] == k[2] && d[3] == k[3]
    ensures d[4] == l[0] && d[5] == l[1] && d[6] == l[2] && d[7] == l[3]
  {
  }

  /** The header on the wire: four zero bytes, and the number of bytes after it, least significant first. */
  lemma {:induction false} HeaderBytes(xs: seq<Word>)
    requires 4 * |xs| + 8 < 0x1_0000_0000
    ensures var d := Datagram(xs);
            && |d| == 8 + 4 * |xs|
            && d[0] == 0 && d[1] == 0 && d[2] == 0 && d[3] == 0
            && d[4] as nat + 0x100 * (d[5] as nat) + 0x1_0000 * (d[6] as nat) + 0x100_0000 * (d[7] as nat) == 4 * |xs|
  {
    WholeDatagram(xs);
    ZeroAndOne();
    LengthBytes(4 * |xs|);
    HeaderAt(Datagram(xs), WordBytes(PACK_OF_FLOATS), WordBytes(ToWord(4 * |xs|)), FloatBytes(xs));
  }

  lemma {:induction false} SliceAt(d: seq<Byte>, h: seq<Byte>, b: seq<Byte>, at: nat, four: seq<Byte>)
    requires d == h + b && |h| == 8 && at + 4 <= |b| && b[at..at + 4] == four
    ensures |d| >= 8 + at + 4 && d[8 + at] == four[0] && d[9 + at] == four[1] && d[10 + at] == four[2]
    ensures d[11 + at] == four[3]
  {
    assert four[0] == b[at] && four[1] == b[at + 1] && four[2] == b[at + 2] && four[3] == b[at + 3];
  }

  /** And each float's four bytes behind it, least significant first. */
  lemma {:induction false} FloatOnTheWire(xs: seq<Word>, i: nat)
    requires 4 * |xs| + 8 < 0x1_0000_0000 && i < |xs|
    ensures var (d, w) := (Datagram(xs), xs[i]);
            && |d| >= 8 + 4 * i + 4
            && d[8 + 4 * i] == (w & 0xFF) as bv8 && d[9 + 4 * i] == ((w >> 8) & 0xFF) as bv8
            && d[10 + 4 * i] == ((w >> 16) & 0xFF) as bv8 && d[11 + 4 * i] == ((w >> 24) & 0xFF) as bv8
  {
    WholeDatagram(xs);
    FloatBytesSlice(xs, i);
    LeastSignificantFirst(xs[i]);
    SliceAt(Datagram(xs), WordBytes(PACK_OF_FLOATS) + WordBytes(ToWord(4 * |xs|)), FloatBytes(xs), 4 * i,
            WordBytes(xs[i]));
  }

  lemma {:induction false} FirstFour(ca: seq<Byte>, w: seq<Byte>)
    requires |ca| >= 4 && |w| == 4
    ensures ca[..4] == w <==> ca[0] == w[0] && ca[1] == w[1] && ca[2] == w[2] && ca[3] == w[3]
  {
  }

  /** What a listener takes: three zero bytes after a zero, or after a one. In the latter case it gets the same
      floats, but -1 for their count. */
  lemma {:induction false} KindsOnTheWire(ca: seq<Byte>)
    requires Readable(ca)
    ensures Unpacked(ca) == UnknownKind <==> !((ca[0] == 0 || ca[0] == 1) && ca[1] == 0 && ca[2] == 0 && ca[3] == 0)
    ensures Unpacked(ca).Floats? ==>
              Unpacked(ca).count == if ca[0] == 0 then |Unpacked(ca).floats| else 0xFFFF_FFFF_FFFF_FFFF
  {
    ZeroAndOne();
    DecodesTo(ca[..4], 0);
    DecodesTo(ca[..4], 1);
    FirstFour(ca, WordBytes(0));
    FirstFour(ca, WordBytes(1));
  }
}
