/**
 The frames of the DevTools client: RFC 6455, sections 5.2 to 5.5.  The client
 masks what it sends; the browser's frames arrive unmasked.
 */
module WebSocketFrames {
  import opened Wrappers
  import opened Bytes

  const TEXT: nat := 1
  const CONTINUATION: nat := 0
  const CLOSE: nat := 8
  const PING: nat := 9
  const PONG: nat := 10

  function XorBit(a: nat, b: nat): (x: nat)
    ensures x < 2
  {
    (a % 2 + b % 2) % 2
  }

  /** The exclusive or of the low `bits` bits. */
  function XorBits(a: nat, b: nat, bits: nat): (r: nat)
    ensures r < Power(bits)
  {
    if bits == 0 then 0 else XorBit(a, b) + 2 * XorBits(a / 2, b / 2, bits - 1)
  }

  function Power(bits: nat): nat {
    if bits == 0 then 1 else 2 * Power(bits - 1)
  }

  lemma LowBit(low: nat, rest: nat)
    requires low < 2
    ensures (low + 2 * rest) % 2 == low && (low + 2 * rest) / 2 == rest
  {
  }

  lemma BitTwice(a: nat, b: nat, c: nat)
    requires c % 2 == XorBit(a, b)
    ensures XorBit(c, b) == a % 2
  {
  }

  lemma {:induction false} XorTwice(a: nat, b: nat, bits: nat)
    requires a < Power(bits)
    ensures XorBits(XorBits(a, b, bits), b, bits) == a
  {
    hide XorBit;
    if bits > 0 {
      var rest := XorBits(a / 2, b / 2, bits - 1);
      var c := XorBit(a, b) + 2 * rest;
      LowBit(XorBit(a, b), rest);
      BitTwice(a, b, c);
      XorTwice(a / 2, b / 2, bits - 1);
      assert XorBits(c, b, bits) == a % 2 + 2 * (a / 2);
    }
  }

  lemma Power8()
    ensures Power(8) == 256
  {
    assert Power(4) == 16;
    assert Power(6) == 64;
  }

  function Xor(a: byte, b: byte): byte {
    Power8();
    XorBits(a, b, 8)
  }

  /** The payload with the mask applied to it, byte by byte. */
  function Masked(data: seq<byte>, mask: Word32): (m: seq<byte>)
    ensures |m| == |data|
  {
    seq(|data|, i requires 0 <= i < |data| => Xor(data[i], mask[i % 4]))
  }

  lemma MaskedTwice(data: seq<byte>, mask: Word32)
    ensures Masked(Masked(data, mask), mask) == data
  {
    Power8();
    forall i | 0 <= i < |data| ensures Xor(Xor(data[i], mask[i % 4]), mask[i % 4]) == data[i] {
      XorTwice(data[i], mask[i % 4], 8);
    }
  }

  /** The low `width` bytes of `n`, most significant first. */
  function BigEndian(n: nat, width: nat): (b: seq<byte>)
    ensures |b| == width
  {
    if width == 0 then [] else BigEndian(n / 256, width - 1) + [n % 256]
  }

  function FromBigEndian(b: seq<byte>): nat {
    if b == [] then 0 else 256 * FromBigEndian(b[..|b| - 1]) + b[|b| - 1]
  }

  lemma {:induction false} BigEndianRead(n: nat, width: nat)
    requires n < Span(width)
    ensures FromBigEndian(BigEndian(n, width)) == n
  {
    if width > 0 {
      BigEndianRead(n / 256, width - 1);
      assert BigEndian(n, width)[..width - 1] == BigEndian(n / 256, width - 1);
    }
  }

  /** The three forms of a length; `bit` is the mask bit. */
  function LengthBytes(n: nat, bit: nat): (b: seq<byte>)
    requires bit == 0 || bit == 128
    ensures 1 <= |b| <= 9
  {
    if n < 126 then [bit + n]
    else if n < 65536 then [bit + 126] + BigEndian(n, 2)
    else [bit + 127] + BigEndian(n, 8)
  }

  function ClientFrame(data: seq<byte>, opcode: nat, mask: Word32): seq<byte>
    requires opcode < 16
  {
    [128 + opcode] + LengthBytes(|data|, 128) + mask + Masked(data, mask)
  }

  /** The client's `send`. */
  method Send(data: seq<byte>, opcode: nat, mask: Word32) returns (out: seq<byte>)
    requires opcode < 16
    ensures out == ClientFrame(data, opcode, mask)
  {
    var n := |data|;
    var header: seq<byte> := [128 + opcode];
    if n < 126 {
      header := header + [128 + n];
    } else if n < 65536 {
      header := header + [128 + 126] + BigEndian(n, 2);
    } else {
      header := header + [128 + 127] + BigEndian(n, 8);
    }
    out := header + mask + Masked(data, mask);
  }

  /** A frame header as a reader takes it apart: final, opcode, mask bit, length, and
      the position after it; none if the bytes end before it does. */
  function ReadHeader(b: seq<byte>, at: nat): (r: Option<(bool, nat, bool, nat, nat)>)
    ensures r.Some? ==> at + 2 <= r.value.4 <= |b| && r.value.1 < 16
  {
    if at + 2 > |b| then None
    else
      var b0, b1 := b[at], b[at + 1];
      var n := b1 % 128;
      if n == 126 then
        if at + 4 > |b| then None else Some((b0 >= 128, b0 % 16, b1 >= 128, FromBigEndian(b[at + 2..at + 4]), at + 4))
      else if n == 127 then
        if at + 10 > |b| then None else Some((b0 >= 128, b0 % 16, b1 >= 128, FromBigEndian(b[at + 2..at + 10]), at + 10))
      else Some((b0 >= 128, b0 % 16, b1 >= 128, n, at + 2))
  }

  /** The browser's reader of one client frame, which must be masked. */
  function ReadClientFrame(b: seq<byte>, at: nat): Option<(bool, nat, seq<byte>, nat)> {
    match ReadHeader(b, at)
    case None => None
    case Some((fin, opcode, masked, n, p)) =>
      if !masked || p + 4 + n > |b| then None
      else Some((fin, opcode, Masked(b[p + 4..p + 4 + n], b[p..p + 4]), p + 4 + n))
  }

  lemma HeaderRead(b: seq<byte>, at: nat, first: byte, n: nat, bit: nat)
    requires (bit == 0 || bit == 128) && n < U64
    requires at + 1 + |LengthBytes(n, bit)| <= |b| && b[at] == first
    requires b[at + 1..at + 1 + |LengthBytes(n, bit)|] == LengthBytes(n, bit)
    ensures ReadHeader(b, at) == Some((first >= 128, first % 16, bit == 128, n, at + 1 + |LengthBytes(n, bit)|))
  {
    hide BigEndian, FromBigEndian;
    var l := LengthBytes(n, bit);
    var part := b[at + 1..at + 1 + |l|];
    assert b[at + 1] == part[0] == l[0];
    Span4();
    SpanTwo();
    if n >= 126 {
      assert b[at + 2..at + 1 + |l|] == part[1..] == l[1..];
      BigEndianRead(n, |l| - 1);
    }
  }

  lemma SpanTwo()
    ensures Span(2) == 65536
  {
  }

  /** The browser reads back the payload of every client frame, in all three forms
      of the length, whatever mask was drawn and whatever follows. */
  lemma ClientFrameRead(data: seq<byte>, opcode: nat, mask: Word32, before: seq<byte>, after: seq<byte>)
    requires opcode < 16 && |data| < U64
    ensures
      var b := before + ClientFrame(data, opcode, mask) + after;
      ReadClientFrame(b, |before|) == Some((true, opcode, data, |before| + |ClientFrame(data, opcode, mask)|))
  {
    hide LengthBytes, ReadHeader, Masked;
    var f := ClientFrame(data, opcode, mask);
    var b, at, l := before + f + after, |before|, LengthBytes(|data|, 128);
    assert b[at] == f[0];
    assert b[at + 1..at + 1 + |l|] == f[1..1 + |l|] == l;
    HeaderRead(b, at, 128 + opcode, |data|, 128);
    var p := at + 1 + |l|;
    assert b[p..p + 4] == f[1 + |l|..5 + |l|] == mask;
    assert b[p + 4..p + 4 + |data|] == f[5 + |l|..] == Masked(data, mask);
    MaskedTwice(data, mask);
  }

  // The frames byte by byte.

  /** The binary digit worth `w` is set in exactly one of the numbers if it is set in `x`. */
  predicate Differ(a: byte, b: byte, x: byte, w: nat)
    requires w > 0
  {
    x / w % 2 == (if a / w % 2 == b / w % 2 then 0 else 1)
  }

  /** Masking a byte is the exclusive or of its eight binary digits. */
  predicate Exclusive(a: byte, b: byte, x: byte) {
    && Differ(a, b, x, 1) && Differ(a, b, x, 2) && Differ(a, b, x, 4) && Differ(a, b, x, 8)
    && Differ(a, b, x, 16) && Differ(a, b, x, 32) && Differ(a, b, x, 64) && Differ(a, b, x, 128)
  }

  lemma XorHalf(a: nat, b: nat, bits: nat)
    requires bits > 0
    ensures XorBits(a, b, bits) % 2 == (if a % 2 == b % 2 then 0 else 1)
    ensures XorBits(a, b, bits) / 2 == XorBits(a / 2, b / 2, bits - 1)
  {
    LowBit(XorBit(a, b), XorBits(a / 2, b / 2, bits - 1));
  }

  // Two digits at a time: the next two digits of the exclusive or, and what is left.
  lemma XorQuarter(a: nat, b: nat, bits: nat)
    requires bits > 1
    ensures var x := XorBits(a, b, bits);
            && x % 2 == (if a % 2 == b % 2 then 0 else 1)
            && x / 2 % 2 == (if a / 2 % 2 == b / 2 % 2 then 0 else 1)
            && x / 4 == XorBits(a / 4, b / 4, bits - 2)
  {
    hide XorBits;
    XorHalf(a, b, bits);
    XorHalf(a / 2, b / 2, bits - 1);
    assert a / 2 / 2 == a / 4 && b / 2 / 2 == b / 4;
    var x := XorBits(a, b, bits);
    assert x / 2 / 2 == x / 4;
  }

  lemma XorMeans(a: byte, b: byte)
    ensures Exclusive(a, b, Xor(a, b))
  {
    hide XorBits;
    var x: nat := Xor(a, b);
    assert x == XorBits(a, b, 8) by { Power8(); }
    XorQuarter(a, b, 8);
    XorQuarter(a / 4, b / 4, 6);
    XorQuarter(a / 16, b / 16, 4);
    XorQuarter(a / 64, b / 64, 2);
    Quarters(a);
    Quarters(b);
    Quarters(x);
  }

  lemma Quarters(n: nat)
    ensures n / 4 / 2 == n / 8 && n / 4 / 4 == n / 16 && n / 16 / 2 == n / 32 && n / 16 / 4 == n / 64 && n / 64 / 2 == n / 128
  {
  }

  /** The head of a frame of `n` bytes, the mask bit worth `bit` included: a first byte,
      then one, three or nine bytes of length, the highest digit first. */
  predicate Headed(f: seq<byte>, first: byte, bit: nat, n: nat, size: nat) {
    && size <= |f| && size >= 2 && f[0] == first
    && (n < 126 ==> size == 2 && f[1] == bit + n)
    && (126 <= n < 65536 ==> size == 4 && f[1] == bit + 126 && f[2] == n / 256 && f[3] == n % 256)
    && (n >= 65536 ==>
          && size == 10 && f[1] == bit + 127
          && f[2] == n / 0x100_0000_0000_0000 % 256 && f[3] == n / 0x1_0000_0000_0000 % 256
          && f[4] == n / 0x100_0000_0000 % 256 && f[5] == n / 0x1_0000_0000 % 256
          && f[6] == n / 0x100_0000 % 256 && f[7] == n / 0x1_0000 % 256
          && f[8] == n / 256 % 256 && f[9] == n % 256)
  }

  lemma FourDigits(n: nat)
    ensures BigEndian(n, 2) == [n / 256 % 256, n % 256]
    ensures BigEndian(n, 4) == [n / 0x100_0000 % 256, n / 0x1_0000 % 256, n / 256 % 256, n % 256]
  {
    var a, b, c := n / 256, n / 0x1_0000, n / 0x100_0000;
    assert a / 256 == b && b / 256 == c;
    assert BigEndian(c, 1) == [c % 256];
    assert BigEndian(a, 1) == [a % 256];
    assert BigEndian(b, 2) == [c % 256, b % 256];
    assert BigEndian(a, 3) == [c % 256, b % 256, a % 256];
  }

  lemma EightDigits(n: nat)
    ensures BigEndian(n, 8) == BigEndian(n / 0x1_0000_0000, 4) + BigEndian(n, 4)
  {
    var a, b, c, d := n / 256, n / 0x1_0000, n / 0x100_0000, n / 0x1_0000_0000;
    assert a / 256 == b && b / 256 == c && c / 256 == d;
    assert BigEndian(c, 5) == BigEndian(d, 4) + [c % 256];
    assert BigEndian(b, 6) == BigEndian(c, 5) + [b % 256];
    assert BigEndian(a, 7) == BigEndian(b, 6) + [a % 256];
    FourDigits(n);
  }

  lemma LengthLaid(f: seq<byte>, first: byte, n: nat, bit: nat)
    requires (bit == 0 || bit == 128) && n < U64
    requires [first] + LengthBytes(n, bit) <= f
    ensures Headed(f, first, bit, n, 1 + |LengthBytes(n, bit)|)
  {
    hide BigEndian;
    var head := [first] + LengthBytes(n, bit);
    FourDigits(n);
    if n >= 65536 {
      EightDigits(n);
      FourDigits(n / 0x1_0000_0000);
      HighDigits(n);
    }
    assert forall i | 0 <= i < |head| :: f[i] == head[i];
  }

  lemma HighDigits(n: nat)
    ensures var d := n / 0x1_0000_0000;
            && d / 256 == n / 0x100_0000_0000 && d / 0x1_0000 == n / 0x1_0000_0000_0000
            && d / 0x100_0000 == n / 0x100_0000_0000_0000
  {
  }

  /** A client frame is its head, the four mask bytes and the payload, of which byte `i`
      is masked with mask byte `i` modulo four. */
  lemma ClientFrameLaid(data: seq<byte>, opcode: nat, mask: Word32)
    requires opcode < 16 && |data| < U64
    ensures var f, size := ClientFrame(data, opcode, mask), if |data| < 126 then 2 else if |data| < 65536 then 4 else 10;
            && Headed(f, 128 + opcode, 128, |data|, size)
            && |f| == size + 4 + |data| && f[size..size + 4] == mask
            && forall i | 0 <= i < |data| :: Exclusive(data[i], mask[i % 4], f[size + 4 + i])
  {
    hide LengthBytes, Exclusive;
    var f, l := ClientFrame(data, opcode, mask), LengthBytes(|data|, 128);
    LengthLaid(f, 128 + opcode, |data|, 128);
    LengthSize(|data|, 128);
    var size := 1 + |l|;
    assert f[size + 4..] == Masked(data, mask);
    forall i | 0 <= i < |data| ensures Exclusive(data[i], mask[i % 4], f[size + 4 + i]) {
      assert f[size + 4 + i] == f[size + 4..][i] == Xor(data[i], mask[i % 4]);
      XorMeans(data[i], mask[i % 4]);
    }
  }

  lemma LengthSize(n: nat, bit: nat)
    requires bit == 0 || bit == 128
    ensures 1 + |LengthBytes(n, bit)| == if n < 126 then 2 else if n < 65536 then 4 else 10
  {
  }
}
