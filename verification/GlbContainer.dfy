/** The GLB container: glTF 2.0, section 4.4. */
module GlbContainer {
  import opened Wrappers
  import opened Bytes
  import opened Cursor

  const MAGIC: nat := 0x46546c67
  const VERSION: nat := 2
  const JSON_CHUNK: nat := 0x4e4f534a
  const BIN_CHUNK: nat := 0x004e4942
  const SPACE: byte := 32

  /** The JSON text, filled up with spaces to a multiple of four. */
  method Pad(json: seq<byte>) returns (js: seq<byte>)
    ensures |js| % 4 == 0 && |js| < |json| + 4
    ensures json <= js && forall i :: |json| <= i < |js| ==> js[i] == SPACE
  {
    js := json;
    while |js| % 4 != 0
      invariant json <= js && forall i :: |json| <= i < |js| ==> js[i] == SPACE
      invariant |js| <= |json| + (4 - |json| % 4) % 4
      decreases |json| + 4 - |js|
    {
      js := js + [SPACE];
    }
  }

  method WriteContainer(js: seq<byte>, bin: seq<byte>) returns (out: seq<byte>)
    ensures out == Container(js, bin)
  {
    hide Word;
    var size := 12 + 8 + |js|;
    if |bin| > 0 {
      size := size + 8 + |bin|;
    }
    out := Word(MAGIC) + Word(VERSION) + Word(size) + Word(|js|) + Word(JSON_CHUNK);
    out := out + js;
    if |bin| > 0 {
      out := out + Word(|bin|) + Word(BIN_CHUNK) + bin;
    }
  }

  function TotalSize(js: seq<byte>, bin: seq<byte>): nat {
    20 + |js| + if bin == [] then 0 else 8 + |bin|
  }

  function Chunk(kind: nat, body: seq<byte>): seq<byte> {
    Word(|body|) + Word(kind) + body
  }

  function Container(js: seq<byte>, bin: seq<byte>): seq<byte> {
    Word(MAGIC) + Word(VERSION) + Word(TotalSize(js, bin)) + Chunk(JSON_CHUNK, js) + if bin == [] then [] else Chunk(BIN_CHUNK, bin)
  }

  /** The body of the chunk at `at`, if there is one of that kind and it fits. */
  function ReadChunk(b: seq<byte>, at: nat, kind: nat): Option<seq<byte>> {
    match Word32At(b, at)
    case None => None
    case Some(n) =>
      if Word32At(b, at + 4) != Some(kind) || at + 8 + n > |b| then None else Some(b[at + 8..at + 8 + n])
  }

  /** A reader of the container, written from the format alone: the declared total
      length must be the actual one, and the chunks must fill it. */
  function ReadContainer(b: seq<byte>): Option<(seq<byte>, seq<byte>)> {
    if Word32At(b, 0) != Some(MAGIC) || Word32At(b, 4) != Some(VERSION) || Word32At(b, 8) != Some(|b|) then None
    else
      match ReadChunk(b, 12, JSON_CHUNK)
      case None => None
      case Some(js) =>
        var rest := 20 + |js|;
        if rest == |b| then Some((js, []))
        else
          match ReadChunk(b, rest, BIN_CHUNK)
          case Some(bin) => if rest + 8 + |bin| == |b| then Some((js, bin)) else None
          case None => None
  }

  lemma ChunkRead(before: seq<byte>, kind: nat, body: seq<byte>, after: seq<byte>)
    requires kind < U32 && |body| < U32
    ensures ReadChunk(before + Chunk(kind, body) + after, |before|, kind) == Some(body)
  {
    hide FromLittleEndian, Word;
    var b, at := before + Chunk(kind, body) + after, |before|;
    assert b[at..at + 4] == Word(|body|);
    assert b[at + 4..at + 8] == Word(kind);
    WordRead(|body|);
    WordRead(kind);
    assert b[at + 8..at + 8 + |body|] == body;
  }

  /** Every container whose size fits its length field is read back as written. */
  lemma ContainerRead(js: seq<byte>, bin: seq<byte>)
    requires TotalSize(js, bin) < U32
    ensures |Container(js, bin)| == TotalSize(js, bin)
    ensures ReadContainer(Container(js, bin)) == Some((js, bin))
  {
    hide FromLittleEndian, Word, ReadChunk, Chunk;
    var b, head := Container(js, bin), Word(MAGIC) + Word(VERSION) + Word(TotalSize(js, bin));
    ChunkSize(JSON_CHUNK, js);
    ChunkSize(BIN_CHUNK, bin);
    assert b[0..4] == Word(MAGIC);
    assert b[4..8] == Word(VERSION);
    assert b[8..12] == Word(TotalSize(js, bin));
    WordRead(MAGIC);
    WordRead(VERSION);
    WordRead(TotalSize(js, bin));
    if bin == [] {
      ChunkRead(head, JSON_CHUNK, js, []);
      assert b == head + Chunk(JSON_CHUNK, js) + [];
    } else {
      ChunkRead(head, JSON_CHUNK, js, Chunk(BIN_CHUNK, bin));
      ChunkRead(head + Chunk(JSON_CHUNK, js), BIN_CHUNK, bin, []);
      assert b == head + Chunk(JSON_CHUNK, js) + Chunk(BIN_CHUNK, bin) + [];
    }
  }

  lemma ChunkSize(kind: nat, body: seq<byte>)
    ensures |Chunk(kind, body)| == 8 + |body|
  {
  }

  lemma ChunkLaid(b: seq<byte>, at: nat, kind: nat, body: seq<byte>)
    requires at + 8 + |body| <= |b| && b[at..at + 8 + |body|] == Chunk(kind, body)
    ensures b[at..at + 4] == Word(|body|) && b[at + 4..at + 8] == Word(kind) && b[at + 8..at + 8 + |body|] == body
  {
    hide Word;
    Cut(b, at, Word(|body|) + Word(kind), body);
    Cut(b, at, Word(|body|), Word(kind));
  }

  // The two chunks begin with their lengths and their kinds, JSON and BIN.
  lemma ChunksLaid(js: seq<byte>, bin: seq<byte>)
    ensures var b, m, n := Container(js, bin), |js|, |bin|;
            && |b| == TotalSize(js, bin)
            && b[12..16] == Word(m) && b[16..20] == [74, 83, 79, 78] && b[20..20 + m] == js
            && (n > 0 ==> b[20 + m..24 + m] == Word(n) && b[24 + m..28 + m] == [66, 73, 78, 0] && b[28 + m..28 + m + n] == bin)
  {
    hide Word, Chunk;
    ghost var b, m, n, first := Container(js, bin), |js|, |bin|, Chunk(JSON_CHUNK, js);
    ChunkSize(JSON_CHUNK, js);
    ChunkSize(BIN_CHUNK, bin);
    KindDigits();
    assert b[12..20 + m] == first;
    ChunkLaid(b, 12, JSON_CHUNK, js);
    if n > 0 {
      assert b[20 + m..28 + m + n] == Chunk(BIN_CHUNK, bin);
      ChunkLaid(b, 20 + m, BIN_CHUNK, bin);
    }
  }

  lemma KindDigits()
    ensures Word(MAGIC) == [103, 108, 84, 70] && Word(VERSION) == [2, 0, 0, 0]
    ensures Word(JSON_CHUNK) == [74, 83, 79, 78] && Word(BIN_CHUNK) == [66, 73, 78, 0]
  {
    hide Word;
    WordDigits(MAGIC);
    WordDigits(VERSION);
    WordDigits(JSON_CHUNK);
    WordDigits(BIN_CHUNK);
  }

  /** The container byte by byte: the twelve bytes of the header, the text chunk, and,
      unless it is empty, the binary chunk behind it. */
  lemma ContainerLaid(js: seq<byte>, bin: seq<byte>)
    ensures var b, m, n := Container(js, bin), |js|, |bin|;
            && |b| == (if n == 0 then 20 + m else 28 + m + n)
            && b[..8] == [103, 108, 84, 70, 2, 0, 0, 0] && b[8..12] == Word(|b|)
            && b[12..16] == Word(m) && b[16..20] == [74, 83, 79, 78] && b[20..20 + m] == js
            && (n > 0 ==> b[20 + m..24 + m] == Word(n) && b[24 + m..28 + m] == [66, 73, 78, 0] && b[28 + m..28 + m + n] == bin)
  {
    hide Word, Chunk;
    ChunksLaid(js, bin);
    KindDigits();
    ghost var b := Container(js, bin);
    assert b[..8] == Word(MAGIC) + Word(VERSION);
    assert b[8..12] == Word(TotalSize(js, bin));
  }
}
