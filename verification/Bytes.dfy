/** Fixed-width unsigned numbers as bytes, and back. */
module Bytes {

  type byte = x: int | 0 <= x < 256

  /** The bytes of a four-byte and of an eight-byte machine word. */
  type Word32 = s: seq<byte> | |s| == 4 witness [0, 0, 0, 0]
  type Word64 = s: seq<byte> | |s| == 8 witness [0, 0, 0, 0, 0, 0, 0, 0]

  const U32: nat := 0x1_0000_0000
  const U64: nat := U32 * U32

  /** How many numbers fit into `width` bytes. */
  function Span(width: nat): (n: nat)
    ensures n > 0
  {
    if width == 0 then 1 else 256 * Span(width - 1)
  }

  /** The low `width` bytes of `n`, least significant first. */
  function LittleEndian(n: nat, width: nat): (b: seq<byte>)
    ensures |b| == width
  {
    if width == 0 then [] else [n % 256] + LittleEndian(n / 256, width - 1)
  }

  function FromLittleEndian(b: seq<byte>): (n: nat)
    ensures n < Span(|b|)
  {
    if b == [] then 0 else b[0] + 256 * FromLittleEndian(b[1..])
  }

  lemma {:induction false} LittleEndianRead(n: nat, width: nat)
    requires n < Span(width)
    ensures FromLittleEndian(LittleEndian(n, width)) == n
  {
    if width > 0 {
      LittleEndianRead(n / 256, width - 1);
      assert LittleEndian(n, width)[1..] == LittleEndian(n / 256, width - 1);
    }
  }

  lemma {:induction false} LittleEndianWritten(b: seq<byte>)
    ensures LittleEndian(FromLittleEndian(b), |b|) == b
  {
    if b != [] {
      LittleEndianWritten(b[1..]);
      LowByte(b[0], FromLittleEndian(b[1..]));
      assert b == [b[0]] + b[1..];
    }
  }

  lemma LowByte(low: byte, rest: nat)
    ensures (low + 256 * rest) % 256 == low && (low + 256 * rest) / 256 == rest
  {
  }

  lemma Span4()
    ensures Span(4) == U32
    ensures Span(8) == U64
  {
    assert Span(2) == 0x1_0000;
    assert Span(4) == 256 * (256 * Span(2));
    assert Span(6) == 256 * (256 * Span(4));
    assert Span(8) == 256 * (256 * Span(6));
  }

  /** A four-byte word, as the containers store counts and lengths. */
  function Word(n: nat): (b: seq<byte>)
    ensures |b| == 4
  {
    LittleEndian(n, 4)
  }

  function Long(n: nat): (b: seq<byte>)
    ensures |b| == 8
  {
    LittleEndian(n, 8)
  }

  lemma WordRead(n: nat)
    requires n < U32
    ensures FromLittleEndian(Word(n)) == n
  {
    Span4();
    LittleEndianRead(n, 4);
  }

  /** The digits of a number to the base 256, the lowest first. */
  lemma WordDigits(n: nat)
    ensures Word(n) == [n % 256, n / 256 % 256, n / 0x1_0000 % 256, n / 0x100_0000 % 256]
  {
    var a, b, c := n / 256, n / 0x1_0000, n / 0x100_0000;
    assert a / 256 == b && b / 256 == c;
    assert LittleEndian(c, 1) == [c % 256];
    assert LittleEndian(b, 2) == [b % 256, c % 256];
    assert LittleEndian(a, 3) == [a % 256, b % 256, c % 256];
  }

  lemma LongDigits(n: nat)
    ensures Long(n) == Word(n) + Word(n / 0x1_0000_0000)
  {
    var a, b, c, d := n / 256, n / 0x1_0000, n / 0x100_0000, n / 0x1_0000_0000;
    assert a / 256 == b && b / 256 == c && c / 256 == d;
    assert LittleEndian(c, 5) == [c % 256] + LittleEndian(d, 4);
    assert LittleEndian(b, 6) == [b % 256] + LittleEndian(c, 5);
    assert LittleEndian(a, 7) == [a % 256] + LittleEndian(b, 6);
    WordDigits(n);
  }

  /** Words one after the other, and the words of such bytes. */
  function Joined(words: seq<Word32>): (b: seq<byte>)
    ensures |b| == 4 * |words|
  {
    if words == [] then [] else words[0] + Joined(words[1..])
  }

  function Split(b: seq<byte>): (words: seq<Word32>)
    requires |b| % 4 == 0
    ensures |words| == |b| / 4
  {
    if b == [] then [] else [b[..4]] + Split(b[4..])
  }

  lemma {:induction false} SplitJoined(words: seq<Word32>)
    ensures Split(Joined(words)) == words
  {
    if words != [] {
      SplitJoined(words[1..]);
      assert Joined(words)[..4] == words[0] && Joined(words)[4..] == Joined(words[1..]);
    }
  }

  lemma {:induction false} JoinedSplit(b: seq<byte>)
    requires |b| % 4 == 0
    ensures Joined(Split(b)) == b
  {
    if b != [] {
      JoinedSplit(b[4..]);
      assert Split(b)[1..] == Split(b[4..]);
    }
  }

  lemma {:induction false} JoinedAt(words: seq<Word32>, k: nat)
    requires k < |words|
    ensures Joined(words)[4 * k..4 * k + 4] == words[k]
  {
    var rest := Joined(words[1..]);
    assert Joined(words) == words[0] + rest;
    if k > 0 {
      JoinedAt(words[1..], k - 1);
      assert Joined(words)[4 * k..4 * k + 4] == rest[4 * (k - 1)..4 * (k - 1) + 4];
    }
  }

  /** How many elements an array of this shape has. */
  function Product(shape: seq<nat>): nat {
    if shape == [] then 1 else Product(shape[..|shape| - 1]) * shape[|shape| - 1]
  }
}
