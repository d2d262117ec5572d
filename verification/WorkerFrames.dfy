/**
 The request frame of the resident worker: two paths, each with its length before
 it.  The server builds it; the worker reads it back from its standard input.
 */
module WorkerFrames {
  import opened Wrappers
  import opened Bytes

  type Path = seq<byte>

  const MAX_PATH: nat := 4096

  predicate ValidPath(p: Path) {
    1 <= |p| <= MAX_PATH && 0 !in p
  }

  function PathFrame(p: Path): (b: seq<byte>)
    ensures |b| == 4 + |p|
  {
    Word(|p|) + p
  }

  function Frame(input: Path, output: Path): seq<byte> {
    PathFrame(input) + PathFrame(output)
  }

  method WorkerFrame(input: Path, output: Path) returns (r: Result<seq<byte>>)
    ensures r.Success? <==> ValidPath(input) && ValidPath(output)
    ensures r.Success? <==> 1 <= |input| <= 4096 && 1 <= |output| <= 4096 && 0 !in input + output
    ensures r.Success? ==> r.value == Frame(input, output)
  {
    hide Word;
    var b: seq<byte> := [];
    var paths := [input, output];
    var i := 0;
    while i < 2
      invariant 0 <= i <= 2
      invariant i > 0 ==> ValidPath(input)
      invariant i > 1 ==> ValidPath(output)
      invariant b == if i == 0 then [] else if i == 1 then PathFrame(input) else Frame(input, output)
    {
      var path := paths[i];
      if |path| < 1 || |path| > MAX_PATH || 0 in path {
        return Failure("invalid worker path");
      }
      b := b + Word(|path|);
      b := b + path;
      i := i + 1;
    }
    r := Success(b);
  }

  /** What reading a path from the input so far leads to. */
  datatype Reading = Blocked | EndOfInput | Malformed | Got(path: Path, rest: seq<byte>)

  /** The worker's `read_path`: `closed` says that no more input will come. */
  function ReadPath(input: seq<byte>, closed: bool, boundary: bool): Reading {
    if input == [] && closed && boundary then EndOfInput
    else if |input| < 4 then (if closed then Malformed else Blocked)
    else
      var n := FromLittleEndian(input[..4]);
      if n == 0 || n > MAX_PATH then Malformed
      else if |input| < 4 + n then (if closed then Malformed else Blocked)
      else
        var path := input[4..4 + n];
        if 0 in path then Malformed else Got(path, input[4 + n..])
  }

  /** A path that was framed is read back, whatever follows it. */
  lemma PathRead(p: Path, rest: seq<byte>, closed: bool, boundary: bool)
    requires ValidPath(p)
    ensures ReadPath(PathFrame(p) + rest, closed, boundary) == Got(p, rest)
  {
    hide Word, FromLittleEndian;
    var input := PathFrame(p) + rest;
    WordRead(|p|);
    assert input[..4] == Word(|p|);
    assert input[4..4 + |p|] == p && input[4 + |p|..] == rest;
  }

  /** While only part of a framed path has arrived, the worker waits for the rest. */
  lemma PathAwaited(p: Path, part: seq<byte>, boundary: bool)
    requires ValidPath(p) && part < PathFrame(p)
    ensures ReadPath(part, false, boundary) == Blocked
  {
    hide Word, FromLittleEndian;
    WordRead(|p|);
    if |part| >= 4 {
      assert part[..4] == PathFrame(p)[..4] == Word(|p|);
    }
  }

  /** Whatever the worker reads as a path is a path the server could have framed. */
  lemma PathWritten(input: seq<byte>, closed: bool, boundary: bool)
    requires ReadPath(input, closed, boundary).Got?
    ensures
      var r := ReadPath(input, closed, boundary);
      ValidPath(r.path) && input == PathFrame(r.path) + r.rest
  {
    LittleEndianWritten(input[..4]);
  }

  /** The frame of a call: two paths, each behind the four digits of its length. */
  lemma FrameLaid(input: Path, output: Path)
    ensures var f, m, n := Frame(input, output), |input|, |output|;
            && |f| == 8 + m + n
            && f[..4] == [m % 256, m / 256 % 256, m / 0x1_0000 % 256, m / 0x100_0000 % 256] && f[4..4 + m] == input
            && f[4 + m..8 + m] == [n % 256, n / 256 % 256, n / 0x1_0000 % 256, n / 0x100_0000 % 256] && f[8 + m..] == output
  {
    hide Word;
    WordDigits(|input|);
    WordDigits(|output|);
    var f, m := Frame(input, output), |input|;
    assert f[..4] == Word(m) && f[4..4 + m] == input;
    assert f[4 + m..8 + m] == Word(|output|) && f[8 + m..] == output;
  }
}
