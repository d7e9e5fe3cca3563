/** 32-bit words and their four bytes, least significant first (server/io_stuff.c:35-68, the same text
    in client/io_stuff.c). `char` is signed there, so a byte is sign-extended before it is shifted. */
module Words {
  type Byte = bv8

  /** An `unsigned int`, or the bit pattern of a `float`. */
  type Word = bv32

  /** `w >> (8 * i)` and `w << (8 * i)` for the four values `i` takes. */
  function Down(w: Word, i: nat): Word {
    if i == 0 then w else if i == 1 then w >> 8 else if i == 2 then w >> 16 else w >> 24
  }

  function Up(w: Word, i: nat): Word {
    if i == 0 then w else if i == 1 then w << 8 else if i == 2 then w << 16 else w << 24
  }

  function ByteAt(w: Word, i: nat): Byte { (Down(w, i) & 0xFF) as bv8 }

  function SignExtend(b: Byte): Word { if b & 0x80 == 0 then b as bv32 else (b as bv32) | 0xFFFF_FF00 }

  /** What byte `i` contributes: sign-extended, shifted, then masked. */
  function Place(b: Byte, i: nat): Word { Up(SignExtend(b), i) & Up(0xFF, i) }

  function Placed(b: seq<Byte>): (w: seq<Word>)
    ensures |w| == |b|
  {
    seq(|b|, i requires 0 <= i < |b| => Place(b[i], i))
  }

  /** The first `k` of four words ORed together. */
  function Joined(w: seq<Word>, k: nat): Word
    requires k <= |w| == 4
  {
    if k == 0 then 0
    else if k == 1 then w[0]
    else if k == 2 then w[0] | w[1]
    else if k == 3 then w[0] | w[1] | w[2]
    else w[0] | w[1] | w[2] | w[3]
  }

  lemma {:induction false} JoinNext(w: seq<Word>, k: nat)
    requires k < |w| == 4
    ensures Joined(w, k + 1) == Joined(w, k) | w[k]
  {
  }

  function WordBytes(w: Word): (b: seq<Byte>)
    ensures |b| == 4
  {
    [ByteAt(w, 0), ByteAt(w, 1), ByteAt(w, 2), ByteAt(w, 3)]
  }

  function WordOf(b: seq<Byte>): Word
    requires |b| == 4
  {
    Joined(Placed(b), 4)
  }

  lemma {:induction false} WordOfFour(b: seq<Byte>)
    requires |b| == 4
    ensures WordOf(b) == Place(b[0], 0) | Place(b[1], 1) | Place(b[2], 2) | Place(b[3], 3)
  {
  }

  lemma {:induction false} Place0(w: Word)
    ensures Place(ByteAt(w, 0), 0) == w & 0xFF
  {
  }

  lemma {:induction false} Place1(w: Word)
    ensures Place(ByteAt(w, 1), 1) == w & 0xFF00
  {
  }

  lemma {:induction false} Place2(w: Word)
    ensures Place(ByteAt(w, 2), 2) == w & 0xFF_0000
  {
  }

  lemma {:induction false} Place3(w: Word)
    ensures Place(ByteAt(w, 3), 3) == w & 0xFF00_0000
  {
  }

  lemma {:induction false} MasksJoin(w: Word)
    ensures (w & 0xFF) | (w & 0xFF00) | (w & 0xFF_0000) | (w & 0xFF00_0000) == w
  {
  }

  /** Decoding a word's bytes gives the word back, sign extension notwithstanding. */
  lemma {:induction false} WordRoundTrip(w: Word)
    ensures WordOf(WordBytes(w)) == w
  {
    WordOfFour(WordBytes(w));
    Place0(w); Place1(w); Place2(w); Place3(w);
    MasksJoin(w);
  }

  lemma {:induction false} PlacedByte0(a: Byte, b: Byte, c: Byte, d: Byte)
    ensures ByteAt(Place(a, 0) | Place(b, 1) | Place(c, 2) | Place(d, 3), 0) == a
  {
  }

  lemma {:induction false} PlacedByte1(a: Byte, b: Byte, c: Byte, d: Byte)
    ensures ByteAt(Place(a, 0) | Place(b, 1) | Place(c, 2) | Place(d, 3), 1) == b
  {
  }

  lemma {:induction false} PlacedByte2(a: Byte, b: Byte, c: Byte, d: Byte)
    ensures ByteAt(Place(a, 0) | Place(b, 1) | Place(c, 2) | Place(d, 3), 2) == c
  {
  }

  lemma {:induction false} PlacedByte3(a: Byte, b: Byte, c: Byte, d: Byte)
    ensures ByteAt(Place(a, 0) | Place(b, 1) | Place(c, 2) | Place(d, 3), 3) == d
  {
  }

  /** And encoding the word decoded from four bytes gives those bytes back. */
  lemma {:induction false} BytesRoundTrip(b: seq<Byte>)
    requires |b| == 4
    ensures WordBytes(WordOf(b)) == b
  {
    WordOfFour(b);
    PlacedByte0(b[0], b[1], b[2], b[3]);
    PlacedByte1(b[0], b[1], b[2], b[3]);
    PlacedByte2(b[0], b[1], b[2], b[3]);
    PlacedByte3(b[0], b[1], b[2], b[3]);
  }

  // ---- Numbers ----

  /** The byte of a number below 256. */
  function ToByte(n: nat): Byte
    requires n < 256
  {
    if n == 0 then 0 else ToByte(n - 1) + 1
  }

  function ByteValue(b: Byte): (n: nat)
    ensures n < 256
  {
    b as nat
  }

  lemma {:induction false} NextByte(b: Byte)
    requires b != 0xFF
    ensures ByteValue(b + 1) == ByteValue(b) + 1
  {
  }

  lemma {:induction false} LastByte(b: Byte)
    ensures ByteValue(b) == 255 <==> b == 0xFF
  {
  }

  lemma {:induction false} ByteRoundTrip(n: nat)
    requires n < 256
    ensures ByteValue(ToByte(n)) == n
  {
    if n > 0 {
      ByteRoundTrip(n - 1);
      LastByte(ToByte(n - 1));
      NextByte(ToByte(n - 1));
    }
  }

  const MODULUS := 0x1_0000_0000

  /** The value of four bytes as an unsigned number. */
  function BytesValue(b: seq<Byte>): (n: nat)
    requires |b| == 4
    ensures n < MODULUS
  {
    ByteValue(b[0]) + 0x100 * ByteValue(b[1]) + 0x1_0000 * ByteValue(b[2]) + 0x100_0000 * ByteValue(b[3])
  }

  function Value(w: Word): (n: nat)
    ensures n < MODULUS
  {
    BytesValue(WordBytes(w))
  }

  /** The four lowest base-256 digits. */
  function Digits(n: nat): (b: seq<Byte>)
    ensures |b| == 4
  {
    var n1 := n / 0x100;
    var n2 := n1 / 0x100;
    var n3 := n2 / 0x100;
    [ToByte(n % 0x100), ToByte(n1 % 0x100), ToByte(n2 % 0x100), ToByte(n3 % 0x100)]
  }

  /** A number converted to `unsigned int`. */
  function ToWord(n: nat): Word { WordOf(Digits(n)) }

  lemma {:induction false} RemainderIs(n: nat, q: nat, r: nat)
    requires n == MODULUS * q + r && r < MODULUS
    ensures n % MODULUS == r
  {
  }

  lemma {:induction false} DigitsAddUp(n: nat, n1: nat, n2: nat, n3: nat)
    requires n1 == n / 0x100 && n2 == n1 / 0x100 && n3 == n2 / 0x100
    ensures n % 0x100 + 0x100 * (n1 % 0x100) + 0x1_0000 * (n2 % 0x100) + 0x100_0000 * (n3 % 0x100) == n % MODULUS
  {
    var (a, b, c, d, n4) := (n % 0x100, n1 % 0x100, n2 % 0x100, n3 % 0x100, n3 / 0x100);
    assert n == 0x100 * n1 + a && n1 == 0x100 * n2 + b && n2 == 0x100 * n3 + c && n3 == 0x100 * n4 + d;
    RemainderIs(n, n4, a + 0x100 * b + 0x1_0000 * c + 0x100_0000 * d);
  }

  lemma {:induction false} DigitsValue(n: nat)
    ensures BytesValue(Digits(n)) == n % MODULUS
  {
    var n1 := n / 0x100;
    var n2 := n1 / 0x100;
    var n3 := n2 / 0x100;
    ByteRoundTrip(n % 0x100);
    ByteRoundTrip(n1 % 0x100);
    ByteRoundTrip(n2 % 0x100);
    ByteRoundTrip(n3 % 0x100);
    DigitsAddUp(n, n1, n2, n3);
  }

  /** The conversion keeps the number modulo 2^32. */
  lemma {:induction false} ToWordValue(n: nat)
    ensures Value(ToWord(n)) == n % MODULUS
  {
    BytesRoundTrip(Digits(n));
    DigitsValue(n);
  }

  // ---- The loops ----

  method UintToBytesArr(w: Word) returns (result: array<Byte>)
    ensures fresh(result) && result[..] == WordBytes(w)
  {
    result := new Byte[4];
    for i := 0 to 4
      invariant forall k :: 0 <= k < i ==> result[k] == ByteAt(w, k)
    {
      result[i] := ByteAt(w, i);
    }
  }

  method BytesArrToUint(ca: array<Byte>) returns (result: Word)
    requires ca.Length == 4
    ensures result == WordOf(ca[..])
  {
    result := 0;
    for i := 0 to 4
      invariant result == Joined(Placed(ca[..]), i)
    {
      JoinNext(Placed(ca[..]), i);
      result := result | Place(ca[i], i);
    }
  }

  /** The four bytes of a word, least significant first. */
  lemma {:induction false} LeastSignificantFirst(w: Word)
    ensures WordBytes(w)
            == [(w & 0xFF) as bv8, ((w >> 8) & 0xFF) as bv8, ((w >> 16) & 0xFF) as bv8, ((w >> 24) & 0xFF) as bv8]
  {
  }

  lemma {:induction false} ZeroAndOne()
    ensures WordBytes(0) == [0, 0, 0, 0] && WordBytes(1) == [1, 0, 0, 0]
  {
  }

  /** Only a word's own bytes decode to it. */
  lemma {:induction false} DecodesTo(b: seq<Byte>, w: Word)
    requires |b| == 4
    ensures WordOf(b) == w <==> b == WordBytes(w)
  {
    BytesRoundTrip(b);
    WordRoundTrip(w);
  }
}
