/** Reading machine words at a position of a byte sequence. */
module Cursor {
  import opened Wrappers
  import opened Bytes

  function Word32At(b: seq<byte>, at: nat): Option<nat> {
    if at + 4 <= |b| then Some(FromLittleEndian(b[at..at + 4])) else None
  }

  function Word64At(b: seq<byte>, at: nat): Option<nat> {
    if at + 8 <= |b| then Some(FromLittleEndian(b[at..at + 8])) else None
  }

  lemma Word32Bytes(b: seq<byte>, at: nat, n: nat)
    requires Word32At(b, at) == Some(n)
    ensures at + 4 <= |b| && b[at..at + 4] == Word(n)
  {
    LittleEndianWritten(b[at..at + 4]);
  }

  lemma Word64Bytes(b: seq<byte>, at: nat, n: nat)
    requires Word64At(b, at) == Some(n)
    ensures at + 8 <= |b| && b[at..at + 8] == Long(n)
  {
    LittleEndianWritten(b[at..at + 8]);
  }

  lemma Word32Found(b: seq<byte>, at: nat, n: nat)
    requires n < U32 && at + 4 <= |b| && b[at..at + 4] == Word(n)
    ensures Word32At(b, at) == Some(n)
  {
    WordRead(n);
  }

  lemma Word64Found(b: seq<byte>, at: nat, n: nat)
    requires n < U64 && at + 8 <= |b| && b[at..at + 8] == Long(n)
    ensures Word64At(b, at) == Some(n)
  {
    Span4();
    LittleEndianRead(n, 8);
  }

  lemma Joins(b: seq<byte>, p: nat, q: nat, r: nat)
    requires p <= q <= r <= |b|
    ensures b[p..q] + b[q..r] == b[p..r]
  {
  }

  lemma Cut<T>(b: seq<T>, at: nat, x: seq<T>, y: seq<T>)
    requires at + |x| + |y| <= |b| && b[at..at + |x| + |y|] == x + y
    ensures b[at..at + |x|] == x && b[at + |x|..at + |x| + |y|] == y
  {
    var z := b[at..at + |x| + |y|];
    assert b[at..at + |x|] == z[..|x|];
    assert b[at + |x|..at + |x| + |y|] == z[|x|..];
  }

  lemma Subslice<T>(s: seq<T>, from: nat, length: nat, at: nat, n: nat)
    requires from + length <= |s| && at + n <= length
    ensures s[from..from + length][at..at + n] == s[from + at..from + at + n]
  {
    var t := s[from..from + length];
    var u, v := t[at..at + n], s[from + at..from + at + n];
    assert forall k | 0 <= k < n :: u[k] == v[k];
  }
}
