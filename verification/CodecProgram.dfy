/** The codec's buffers, filled in place (server/network_interactions.c:112-225). */
module CodecProgram {
  import opened Words
  import opened Codec

  /** memcpy. */
  method CopyBytes(dst: array<Byte>, at: nat, src: array<Byte>, from: nat, n: nat)
    requires dst != src && at + n <= dst.Length && from + n <= src.Length
    modifies dst
    ensures dst[at..at + n] == src[from..from + n]
    ensures dst[..at] == old(dst[..at]) && dst[at + n..] == old(dst[at + n..])
  {
    for i := 0 to n
      invariant dst[at..at + i] == src[from..from + i]
      invariant dst[..at] == old(dst[..at]) && dst[at + n..] == old(dst[at + n..])
    {
      dst[at + i] := src[from + i];
      assert dst[at..at + i + 1] == dst[at..at + i] + [src[from + i]];
      assert src[from..from + i + 1] == src[from..from + i] + [src[from + i]];
    }
  }

  lemma {:induction false} FloatBytesNext(xs: seq<Word>, i: nat)
    requires i < |xs|
    ensures FloatBytes(xs[..i + 1]) == FloatBytes(xs[..i]) + WordBytes(xs[i])
  {
    assert xs[..i + 1][..i] == xs[..i];
  }

  /** The body of fill_packet's loop. */
  method AppendFloat(out: array<Byte>, offset: nat, w: Word)
    requires offset + 4 <= out.Length
    modifies out
    ensures out[..offset + 4] == old(out[..offset]) + WordBytes(w)
  {
    var floatRepr := UintToBytesArr(w);
    CopyBytes(out, offset, floatRepr, 0, 4);
    assert floatRepr[0..4] == floatRepr[..];
    assert out[..offset + 4] == out[..offset] + out[offset..offset + 4];
  }

  method FillPacket(buf: array<Word>) returns (length: nat, out: array<Byte>)
    ensures fresh(out)
    ensures Packet(PACK_OF_FLOATS, length, out[..]) == Codec.FillPacket(PACK_OF_FLOATS, buf[..])
  {
    length := 4 * buf.Length % MODULUS;
    out := new Byte[4 * buf.Length];
    var offset := 0;
    for i := 0 to buf.Length
      invariant offset == 4 * i
      invariant out[..offset] == FloatBytes(buf[..i])
    {
      AppendFloat(out, offset, buf[i]);
      FloatBytesNext(buf[..], i);
      assert buf[..][..i + 1] == buf[..i + 1] && buf[..][..i] == buf[..i];
      offset := offset + 4;
    }
    assert buf[..] == buf[..buf.Length];
  }

  /** A word's bytes, made in a buffer of their own and copied to `at`. */
  method PutWord(out: array<Byte>, at: nat, w: Word)
    requires at + 4 <= out.Length
    modifies out
    ensures out[at..at + 4] == WordBytes(w)
    ensures out[..at] == old(out[..at])
  {
    var bytes := UintToBytesArr(w);
    CopyBytes(out, at, bytes, 0, 4);
    assert bytes[0..4] == bytes[..];
  }

  lemma {:induction false} ThreeParts(out: seq<Byte>, k: seq<Byte>, l: seq<Byte>, b: seq<Byte>)
    requires |k| == |l| == 4 && |out| == 8 + |b|
    requires out[..4] == k && out[4..8] == l && out[8..8 + |b|] == b
    ensures out == k + l + b
  {
  }

  method FloatPackToBytes(kind: Word, length: nat, buf: array<Byte>) returns (out: array<Byte>)
    requires KnownKind(kind) && length <= buf.Length
    ensures fresh(out) && PackToBytes(Packet(kind, length, buf[..])) == Some(out[..])
  {
    out := new Byte[8 + length];
    PutWord(out, 0, kind);
    PutWord(out, 4, ToWord(length));
    ghost var header := out[..8];
    CopyBytes(out, 8, buf, 0, length);
    assert out[..4] == header[..4] && out[4..8] == header[4..8];
    ThreeParts(out[..], WordBytes(kind), WordBytes(ToWord(length)), buf[..length]);
  }

  method ReadWord(ca: array<Byte>, at: nat) returns (w: Word)
    requires at + 4 <= ca.Length
    ensures w == WordOf(ca[at..at + 4])
  {
    var bytes := new Byte[4];
    CopyBytes(bytes, 0, ca, at, 4);
    assert bytes[..] == bytes[0..4];
    w := BytesArrToUint(bytes);
  }

  method PopulatePackOfFloats(ca: array<Byte>) returns (length: nat, buf: array<Byte>)
    requires ca.Length >= 8 && ca.Length >= 8 + ReceivedLength(ca[..])
    ensures length == ReceivedLength(ca[..]) && buf[..] == ca[..][8..8 + length]
  {
    var word := ReadWord(ca, 4);
    assert ca[4..8] == ca[..][4..8];
    length := Value(word);
    buf := new Byte[length];
    CopyBytes(buf, 0, ca, 8, length);
    assert buf[..] == buf[0..length];
  }

  method BytesToPack(ca: array<Byte>) returns (known: bool, kind: Word, length: nat, buf: array<Byte>)
    requires Readable(ca[..])
    ensures Codec.BytesToPack(ca[..]) == if known then Some(Packet(kind, length, buf[..])) else None
  {
    kind := ReadWord(ca, 0);
    assert ca[0..4] == ca[..][..4];
    known := KnownKind(kind);
    length, buf := 0, ca;
    if known {
      length, buf := PopulatePackOfFloats(ca);
    }
  }

  method GetFloats(length: nat, buf: array<Byte>) returns (result: array<Word>)
    requires length <= buf.Length
    ensures fresh(result) && result[..] == Codec.GetFloats(Packet(PACK_OF_FLOATS, length, buf[..]))
  {
    var count := length / 4;
    result := new Word[count];
    var offset := 0;
    for i := 0 to count
      invariant offset == 4 * i
      invariant forall k :: 0 <= k < i ==> result[k] == FloatAt(buf[..], k)
    {
      var slice := new Byte[4];
      CopyBytes(slice, 0, buf, offset, 4);
      assert slice[..] == buf[..][4 * i..4 * i + 4];
      var word := BytesArrToUint(slice);
      result[i] := word;
      offset := offset + 4;
    }
  }

  /** The sending side: a buffer whose first `size` bytes are the datagram. */
  method Send(floats: array<Word>) returns (bytes: array<Byte>, size: nat)
    ensures fresh(bytes) && size <= bytes.Length && bytes[..size] == Datagram(floats[..])
  {
    var length, buf := FillPacket(floats);
    bytes := FloatPackToBytes(PACK_OF_FLOATS, length, buf);
    size := (8 + length) % MODULUS;
  }

  /** recvfrom: as much of the datagram as the buffer takes. */
  method ReceivePacket(bufin: array<Byte>, datagram: array<Byte>)
    requires bufin != datagram
    modifies bufin
    ensures bufin[..] == Received(old(bufin[..]), datagram[..])
  {
    var n := if datagram.Length <= bufin.Length then datagram.Length else bufin.Length;
    CopyBytes(bufin, 0, datagram, 0, n);
    assert bufin[..] == bufin[0..n] + bufin[n..];
  }

  /** Whether decoding stays inside the buffer; the source does not look. */
  method CanBeRead(ca: array<Byte>) returns (readable: bool)
    ensures readable == Readable(ca[..])
  {
    readable := ca.Length >= 8;
    if readable {
      var kind := ReadWord(ca, 0);
      var length := ReadWord(ca, 4);
      assert ca[0..4] == ca[..][..4] && ca[4..8] == ca[..][4..8];
      readable := KnownKind(kind) ==> ca.Length >= 8 + Value(length);
    }
  }

  /** One round of a listener's receiving: the datagram goes into the reused buffer, and what the buffer
      then says is unpacked. */
  method Receive(bufin: array<Byte>, datagram: array<Byte>) returns (outcome: Outcome)
    requires bufin != datagram
    modifies bufin
    ensures bufin[..] == Received(old(bufin[..]), datagram[..])
    ensures outcome == Unpacked(bufin[..])
  {
    ReceivePacket(bufin, datagram);
    var readable := CanBeRead(bufin);
    if !readable {
      return BeyondBuffer;
    }
    var known, kind, length, buf := BytesToPack(bufin);
    if !known {
      return UnknownKind;
    }
    var floats := GetFloats(length, buf);
    outcome := Floats(floats[..], GetFloatsCount(Packet(kind, length, buf[..])));
  }

  /** From the sender's floats to the listener's: if they fit, they come out as they went in. */
  method Transfer(floats: array<Word>, bufin: array<Byte>) returns (outcome: Outcome)
    requires bufin.Length == MAXBUF
    modifies bufin
    ensures outcome == Unpacked(Received(old(bufin[..]), Datagram(floats[..])))
    ensures 4 * floats.Length + 8 <= MAXBUF ==> outcome == Floats(floats[..], floats.Length)
  {
    var bytes, size := Send(floats);
    var datagram := new Byte[size];
    CopyBytes(datagram, 0, bytes, 0, size);
    assert datagram[..] == datagram[0..size];
    UnpackedExactly(floats[..]);
    outcome := Receive(bufin, datagram);
  }
}
