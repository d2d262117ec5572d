/**
 The DevTools client's `receive` and `call`: a message put together from its
 fragments, with the pings among them answered in order.
 */
module WebSocketReceive {
  import opened Wrappers
  import opened Bytes
  import opened Cursor
  import opened WebSocketFrames

  const LIMIT: nat := 32 * 1024 * 1024

  /** How a `receive` ends: with a message and the position after it, or in one of the
      client's errors.  `pongs` are the payloads it answered, in order. */
  datatype Outcome =
    | Message(data: seq<byte>, next: nat, pongs: seq<seq<byte>>)
    | ClosedByBrowser(pongs: seq<seq<byte>>)
    | InvalidFrame(pongs: seq<seq<byte>>)
    | EndOfStream(pongs: seq<seq<byte>>)

  function Receiving(input: seq<byte>, at: nat, data: seq<byte>, pongs: seq<seq<byte>>): Outcome
    decreases |input| - at
  {
    match ReadHeader(input, at)
    case None => EndOfStream(pongs)
    case Some((fin, opcode, masked, n, p)) =>
      if n + |data| > LIMIT || masked then InvalidFrame(pongs)
      else if p + n > |input| then EndOfStream(pongs)
      else
        var payload := input[p..p + n];
        if opcode == CLOSE then ClosedByBrowser(pongs)
        else if opcode == PING then Receiving(input, p + n, data, pongs + [payload])
        else if opcode == PONG then Receiving(input, p + n, data, pongs)
        else if opcode != CONTINUATION && opcode != TEXT then InvalidFrame(pongs)
        else if fin then Message(data + payload, p + n, pongs)
        else Receiving(input, p + n, data + payload, pongs)
  }

  /** A frame as the browser sends it. */
  datatype ServerFrame = ServerFrame(fin: bool, opcode: nat, payload: seq<byte>)

  predicate WellFormed(f: ServerFrame) {
    f.opcode < 16 && |f.payload| < U64
  }

  function ServerBytes(f: ServerFrame): (b: seq<byte>)
    requires WellFormed(f)
    ensures |b| == 1 + |LengthBytes(|f.payload|, 0)| + |f.payload|
  {
    [(if f.fin then 128 else 0) + f.opcode] + LengthBytes(|f.payload|, 0) + f.payload
  }

  predicate AllWellFormed(frames: seq<ServerFrame>) {
    forall i :: 0 <= i < |frames| ==> WellFormed(frames[i])
  }

  function StreamBytes(frames: seq<ServerFrame>): seq<byte>
    requires AllWellFormed(frames)
  {
    if frames == [] then [] else ServerBytes(frames[0]) + StreamBytes(frames[1..])
  }

  predicate Fragment(f: ServerFrame) {
    f.opcode == TEXT || f.opcode == CONTINUATION
  }

  /** The text of the fragments, in order. */
  function Text(frames: seq<ServerFrame>): seq<byte> {
    if frames == [] then [] else (if Fragment(frames[0]) then frames[0].payload else []) + Text(frames[1..])
  }

  /** The payloads of the pings, in order. */
  function Pings(frames: seq<ServerFrame>): seq<seq<byte>> {
    if frames == [] then [] else (if frames[0].opcode == PING then [frames[0].payload] else []) + Pings(frames[1..])
  }

  /** A fragmented text message with pings and pongs among its fragments: only the
      last frame is a final fragment. */
  predicate Fragmented(frames: seq<ServerFrame>) {
    && frames != [] && AllWellFormed(frames)
    && var f := frames[0];
       if |frames| == 1 then Fragment(f) && f.fin
       else (if Fragment(f) then !f.fin else f.opcode == PING || f.opcode == PONG) && Fragmented(frames[1..])
  }

  /** With `held` bytes of text before it, each frame of any kind fits under the limit
      beside the text of the fragments that came before. */
  predicate Fits(frames: seq<ServerFrame>, held: nat) {
    forall i | 0 <= i < |frames| :: held + |Text(frames[..i])| + |frames[i].payload| <= LIMIT
  }

  /** The frames before the first one that does not fit. */
  function Fitting(frames: seq<ServerFrame>, held: nat): seq<ServerFrame> {
    if frames == [] || held + |frames[0].payload| > LIMIT then []
    else [frames[0]] + Fitting(frames[1..], held + if Fragment(frames[0]) then |frames[0].payload| else 0)
  }

  lemma FitsHead(frames: seq<ServerFrame>, held: nat)
    requires frames != []
    ensures Fits(frames, held)
            <==> held + |frames[0].payload| <= LIMIT && Fits(frames[1..], held + if Fragment(frames[0]) then |frames[0].payload| else 0)
  {
    var more := if Fragment(frames[0]) then |frames[0].payload| else 0;
    assert frames[..0] == [];
    forall i | 1 <= i < |frames| ensures |Text(frames[..i])| == more + |Text(frames[1..][..i - 1])| {
      assert frames[..i][1..] == frames[1..][..i - 1];
    }
    if held + |frames[0].payload| <= LIMIT && Fits(frames[1..], held + more) {
      forall i | 0 <= i < |frames| ensures held + |Text(frames[..i])| + |frames[i].payload| <= LIMIT {
        if i > 0 { assert frames[1..][i - 1] == frames[i]; }
      }
    }
    if Fits(frames, held) {
      forall i | 0 <= i < |frames[1..]| ensures held + more + |Text(frames[1..][..i])| + |frames[1..][i].payload| <= LIMIT {
        assert held + |Text(frames[..i + 1])| + |frames[i + 1].payload| <= LIMIT;
      }
    }
  }

  lemma FrameRead(input: seq<byte>, at: nat, f: ServerFrame)
    requires WellFormed(f) && at + |ServerBytes(f)| <= |input| && input[at..at + |ServerBytes(f)|] == ServerBytes(f)
    ensures
      var p := at + |ServerBytes(f)| - |f.payload|;
      && ReadHeader(input, at) == Some((f.fin, f.opcode, false, |f.payload|, p))
      && p + |f.payload| <= |input| && input[p..p + |f.payload|] == f.payload
  {
    hide LengthBytes, ReadHeader;
    var first: byte := (if f.fin then 128 else 0) + f.opcode;
    var l := LengthBytes(|f.payload|, 0);
    Cut(input, at, [first] + l, f.payload);
    Cut(input, at, [first], l);
    assert input[at] == input[at..at + 1][0];
    HeaderRead(input, at, first, |f.payload|, 0);
  }

  // One frame of the message, as `receive` takes it.
  lemma FrameTaken(input: seq<byte>, at: nat, f: ServerFrame, data: seq<byte>, pongs: seq<seq<byte>>)
    requires WellFormed(f) && |data| + |f.payload| <= LIMIT
    requires at + |ServerBytes(f)| <= |input| && input[at..at + |ServerBytes(f)|] == ServerBytes(f)
    ensures
      var next := at + |ServerBytes(f)|;
      && (Fragment(f) && f.fin ==> Receiving(input, at, data, pongs) == Message(data + f.payload, next, pongs))
      && (Fragment(f) && !f.fin ==> Receiving(input, at, data, pongs) == Receiving(input, next, data + f.payload, pongs))
      && (f.opcode == PING ==> Receiving(input, at, data, pongs) == Receiving(input, next, data, pongs + [f.payload]))
      && (f.opcode == PONG ==> Receiving(input, at, data, pongs) == Receiving(input, next, data, pongs))
  {
    hide ReadHeader, ServerBytes;
    FrameRead(input, at, f);
  }

  /** The limit counts a ping's payload on top of the text held so far: a frame of any
      kind that does not fit beside it ends the connection. */
  lemma OverLimit(input: seq<byte>, at: nat, f: ServerFrame, data: seq<byte>, pongs: seq<seq<byte>>)
    requires WellFormed(f) && at + |ServerBytes(f)| <= |input| && input[at..at + |ServerBytes(f)|] == ServerBytes(f)
    ensures |data| + |f.payload| > LIMIT ==> Receiving(input, at, data, pongs) == InvalidFrame(pongs)
  {
    hide ReadHeader, ServerBytes;
    FrameRead(input, at, f);
  }

  /** What `receive` makes of a fragmented message that starts at `at`. */
  function Received(frames: seq<ServerFrame>, at: nat, data: seq<byte>, pongs: seq<seq<byte>>): Outcome
    requires AllWellFormed(frames)
  {
    if Fits(frames, |data|) then Message(data + Text(frames), at + |StreamBytes(frames)|, pongs + Pings(frames))
    else InvalidFrame(pongs + Pings(Fitting(frames, |data|)))
  }

  lemma ReceivedLast(f: ServerFrame, at: nat, data: seq<byte>, pongs: seq<seq<byte>>)
    requires WellFormed(f) && Fragment(f) && |data| + |f.payload| <= LIMIT
    ensures Received([f], at, data, pongs) == Message(data + f.payload, at + |ServerBytes(f)|, pongs)
  {
    hide ServerBytes;
    FitsHead([f], |data|);
    assert [f][1..] == [];
    assert Text([f]) == f.payload && Pings([f]) == [] && StreamBytes([f]) == ServerBytes(f);
    assert pongs + [] == pongs;
  }

  lemma ReceivedOver(frames: seq<ServerFrame>, at: nat, data: seq<byte>, pongs: seq<seq<byte>>)
    requires frames != [] && AllWellFormed(frames) && |data| + |frames[0].payload| > LIMIT
    ensures Received(frames, at, data, pongs) == InvalidFrame(pongs)
  {
    FitsHead(frames, |data|);
    assert pongs + [] == pongs;
  }

  function TextAfter(f: ServerFrame, data: seq<byte>): seq<byte> {
    if Fragment(f) then data + f.payload else data
  }

  function PongsAfter(f: ServerFrame, pongs: seq<seq<byte>>): seq<seq<byte>> {
    if f.opcode == PING then pongs + [f.payload] else pongs
  }

  lemma TextRest(frames: seq<ServerFrame>, data: seq<byte>)
    requires frames != []
    ensures data + Text(frames) == TextAfter(frames[0], data) + Text(frames[1..])
  {
    var f, rest := frames[0], Text(frames[1..]);
    assert Text(frames) == (if Fragment(f) then f.payload else []) + rest;
    if Fragment(f) {
      assert data + (f.payload + rest) == data + f.payload + rest;
    } else {
      assert [] + rest == rest;
    }
  }

  lemma Regroup<T>(a: seq<T>, b: seq<T>, c: seq<T>)
    ensures a + (b + c) == a + b + c && [] + c == c
  {
  }

  lemma PingsRest(frames: seq<ServerFrame>, pongs: seq<seq<byte>>)
    requires frames != []
    ensures pongs + Pings(frames) == PongsAfter(frames[0], pongs) + Pings(frames[1..])
  {
    var f, rest := frames[0], Pings(frames[1..]);
    assert Pings(frames) == (if f.opcode == PING then [f.payload] else []) + rest;
    Regroup(pongs, [f.payload], rest);
  }

  lemma FittingRest(frames: seq<ServerFrame>, held: nat)
    requires frames != [] && held + |frames[0].payload| <= LIMIT
    ensures Fitting(frames, held) != [] && Fitting(frames, held)[0] == frames[0]
    ensures Fitting(frames, held)[1..] == Fitting(frames[1..], held + if Fragment(frames[0]) then |frames[0].payload| else 0)
  {
  }

  lemma ReceivedRest(frames: seq<ServerFrame>, at: nat, data: seq<byte>, pongs: seq<seq<byte>>)
    requires frames != [] && AllWellFormed(frames) && |data| + |frames[0].payload| <= LIMIT
    ensures Received(frames, at, data, pongs)
            == Received(frames[1..], at + |ServerBytes(frames[0])|, TextAfter(frames[0], data), PongsAfter(frames[0], pongs))
  {
    hide ServerBytes, Fits, Text, Pings, Fitting, PongsAfter;
    FitsHead(frames, |data|);
    TextRest(frames, data);
    PingsRest(frames, pongs);
    FittingRest(frames, |data|);
    PingsRest(Fitting(frames, |data|), pongs);
  }

  /** `receive` reads a fragmented message exactly if each of its frames, pings and
      pongs included, fits beside the text before it.  It then returns exactly the
      concatenation of the fragments and stops behind the last one; otherwise the
      connection fails.  Either way every ping that fits is answered with its own
      payload, in order. */
  lemma {:induction false} FragmentsRead(input: seq<byte>, at: nat, frames: seq<ServerFrame>, data: seq<byte>, pongs: seq<seq<byte>>)
    requires Fragmented(frames)
    requires at + |StreamBytes(frames)| <= |input| && input[at..at + |StreamBytes(frames)|] == StreamBytes(frames)
    ensures Receiving(input, at, data, pongs) == Received(frames, at, data, pongs)
    ensures Receiving(input, at, data, pongs).Message? <==> Fits(frames, |data|)
    decreases |frames|
  {
    hide Receiving, ServerBytes, Fits, Text, Pings, Fitting;
    var f, rest := frames[0], frames[1..];
    var next := at + |ServerBytes(f)|;
    Cut(input, at, ServerBytes(f), StreamBytes(rest));
    if |data| + |f.payload| > LIMIT {
      OverLimit(input, at, f, data, pongs);
      ReceivedOver(frames, at, data, pongs);
    } else {
      FrameTaken(input, at, f, data, pongs);
      if rest == [] {
        assert frames == [f];
        ReceivedLast(f, at, data, pongs);
      } else {
        ReceivedRest(frames, at, data, pongs);
        FragmentsRead(input, next, rest, TextAfter(f, data), PongsAfter(f, pongs));
      }
    }
  }

  function Zeros(n: nat): seq<byte> {
    seq(n, _ => 0)
  }

  /** A text fragment 100 bytes below the limit, a ping of 125 bytes, and an empty
      last fragment: the text fits and so does the ping alone, but the ping makes
      the client give up; without it the same text is read. */
  lemma PingBreaks()
    ensures var head, ping, tail := ServerFrame(false, TEXT, Zeros(LIMIT - 100)), ServerFrame(true, PING, Zeros(125)), ServerFrame(true, CONTINUATION, []);
            && Fragmented([head, ping, tail]) && |Text([head, ping, tail])| <= LIMIT
            && Receiving(StreamBytes([head, ping, tail]), 0, [], []) == InvalidFrame([])
            && Fragmented([head, tail])
            && Receiving(StreamBytes([head, tail]), 0, [], []) == Message(head.payload, |StreamBytes([head, tail])|, [])
  {
    hide Receiving, ServerBytes, StreamBytes, Zeros;
    var head, ping, tail := ServerFrame(false, TEXT, Zeros(LIMIT - 100)), ServerFrame(true, PING, Zeros(125)), ServerFrame(true, CONTINUATION, []);
    assert |Zeros(LIMIT - 100)| == LIMIT - 100 && |Zeros(125)| == 125 by { ZerosLength(LIMIT - 100); ZerosLength(125); }
    var broken, whole := [head, ping, tail], [head, tail];
    assert broken[1..] == [ping, tail] && broken[1..][1..] == [tail] && whole[1..] == [tail];
    assert [ping, tail][1..] == [tail] && [tail][1..] == [];
    assert WellFormed(head) && WellFormed(ping) && WellFormed(tail);
    assert Fragmented([tail]) && Fragmented([ping, tail]);
    assert StreamBytes(broken)[0..|StreamBytes(broken)|] == StreamBytes(broken);
    assert StreamBytes(whole)[0..|StreamBytes(whole)|] == StreamBytes(whole);
    FragmentsRead(StreamBytes(broken), 0, broken, [], []);
    FragmentsRead(StreamBytes(whole), 0, whole, [], []);
    ReceivedRest(broken, 0, [], []);
    ReceivedOver([ping, tail], |ServerBytes(head)|, [] + head.payload, []);
    FitsHead(whole, 0);
    FitsHead([tail], |head.payload|);
    assert [] + Text(whole) == head.payload;
    assert Pings(whole) == [];
  }

  lemma ZerosLength(n: nat)
    ensures |Zeros(n)| == n
  {
  }

  // What the browser's bytes look like, and how a frame ends a `receive`.

  /** A frame of the browser is its head and the payload, unmasked. */
  lemma ServerFrameLaid(f: ServerFrame)
    requires WellFormed(f)
    ensures var b, n := ServerBytes(f), |f.payload|;
            var size := if n < 126 then 2 else if n < 65536 then 4 else 10;
            && Headed(b, (if f.fin then 128 else 0) + f.opcode, 0, n, size)
            && |b| == size + n && b[size..] == f.payload
  {
    hide LengthBytes;
    LengthLaid(ServerBytes(f), (if f.fin then 128 else 0) + f.opcode, |f.payload|, 0);
    LengthSize(|f.payload|, 0);
  }

  /** What the client makes of one frame that fits, by the kind the header gives: 0 and 1 add
      to the text, and a final one ends the message; 8 closes the connection; the payload
      of 9 is to be answered, and 10 is passed over; any other kind fails. */
  lemma FrameDecides(input: seq<byte>, at: nat, f: ServerFrame, data: seq<byte>, pongs: seq<seq<byte>>)
    requires WellFormed(f) && |data| + |f.payload| <= 33554432
    requires at + |ServerBytes(f)| <= |input| && input[at..at + |ServerBytes(f)|] == ServerBytes(f)
    ensures var next := at + |ServerBytes(f)|;
            Receiving(input, at, data, pongs)
            == if f.opcode <= 1 then
                 if f.fin then Message(data + f.payload, next, pongs) else Receiving(input, next, data + f.payload, pongs)
               else if f.opcode == 8 then ClosedByBrowser(pongs)
               else if f.opcode == 9 then Receiving(input, next, data, pongs + [f.payload])
               else if f.opcode == 10 then Receiving(input, next, data, pongs)
               else InvalidFrame(pongs)
  {
    hide ReadHeader, ServerBytes;
    FrameRead(input, at, f);
  }

  /** The browser must not mask its frames: whatever the header says otherwise, the
      client gives up as soon as it has read it. */
  lemma MaskedRefused(input: seq<byte>, at: nat, data: seq<byte>, pongs: seq<seq<byte>>)
    requires at + 10 <= |input| && input[at + 1] >= 128
    ensures Receiving(input, at, data, pongs) == InvalidFrame(pongs)
  {
  }

  /** While the stream ends inside a frame that fits, there is no message. */
  lemma TruncatedEnds(input: seq<byte>, at: nat, f: ServerFrame, data: seq<byte>, pongs: seq<seq<byte>>)
    requires WellFormed(f) && |data| + |f.payload| <= 33554432
    requires at <= |input| && input[at..] < ServerBytes(f)
    ensures Receiving(input, at, data, pongs) == EndOfStream(pongs)
  {
    hide FromBigEndian, BigEndian, Receiving;
    var b := ServerBytes(f);
    var rest := b[|input| - at..];
    var whole := input + rest;
    assert whole[at..at + |b|] == b;
    hide ServerBytes;
    FrameRead(whole, at, f);
    HeaderPrefix(input, rest, at);
    EndsShort(input, at, data, pongs);
  }

  // A header is read from its own bytes alone.
  lemma HeaderPrefix(input: seq<byte>, rest: seq<byte>, at: nat)
    ensures ReadHeader(input, at).Some? ==> ReadHeader(input + rest, at) == ReadHeader(input, at)
  {
    hide FromBigEndian;
    var whole := input + rest;
    if at + 4 <= |input| {
      assert whole[at + 2..at + 4] == input[at + 2..at + 4];
    }
    if at + 10 <= |input| {
      assert whole[at + 2..at + 10] == input[at + 2..at + 10];
    }
  }

  lemma EndsShort(input: seq<byte>, at: nat, data: seq<byte>, pongs: seq<seq<byte>>)
    requires var h := ReadHeader(input, at);
             h.None? || (h.value.3 + |data| <= LIMIT && !h.value.2 && h.value.4 + h.value.3 > |input|)
    ensures Receiving(input, at, data, pongs) == EndOfStream(pongs)
  {
    hide ReadHeader;
  }
}
