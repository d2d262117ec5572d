/**
 The DevTools client itself: `receive` with its pongs, and `call` on top of it.
 */
module WebSocketClient {
  import opened Wrappers
  import opened Bytes
  import opened Cursor
  import opened WebSocketFrames
  import opened WebSocketReceive

  /** A message from the browser, as far as `call` looks at it. */
  datatype Reply = Reply(id: Option<nat>, failed: bool, result: nat)

  class Client {
    const input: seq<byte>
    const mask: nat -> Word32
    var at: nat
    var output: seq<byte>
    var sent: nat
    var nextId: nat
    var events: seq<Reply>

    constructor (input: seq<byte>, mask: nat -> Word32)
      ensures at == 0 && output == [] && sent == 0 && nextId == 1 && events == []
      ensures this.input == input && this.mask == mask
    {
      this.input, this.mask := input, mask;
      at, output, sent, nextId, events := 0, [], 0, 1, [];
    }

    method Pong(payload: seq<byte>)
      modifies this`output, this`sent
      ensures output == old(output) + PongFrame(payload, mask, old(sent)) && sent == old(sent) + 1
    {
      var pong := Send(payload, PONG, mask(sent));
      output := output + pong;
      sent := sent + 1;
    }

    /** `receive`, over what the browser has sent and will send. */
    method Receive() returns (r: Outcome)
      requires at <= |input|
      modifies this`at, this`output, this`sent
      ensures r == Receiving(input, old(at), [], [])
      ensures r.Message? ==> at == r.next
      ensures at <= |input| && sent == old(sent) + |r.pongs|
      ensures output == old(output) + PongBytes(r.pongs, mask, old(sent))
    {
      hide ReadHeader, PongBytes, PongFrame;
      NoPongs(mask, sent);
      var data: seq<byte> := [];
      var pongs: seq<seq<byte>> := [];
      while true
        invariant at <= |input| && sent == old(sent) + |pongs|
        invariant output == old(output) + PongBytes(pongs, mask, old(sent))
        invariant Receiving(input, old(at), [], []) == Receiving(input, at, data, pongs)
        decreases |input| - at
      {
        var header := ReadHeader(input, at);
        if header.None? {
          return EndOfStream(pongs);
        }
        var (fin, opcode, masked, n, p) := header.value;
        if n + |data| > LIMIT || masked {
          return InvalidFrame(pongs);
        }
        if p + n > |input| {
          return EndOfStream(pongs);
        }
        var payload := input[p..p + n];
        at := p + n;
        if opcode == CLOSE {
          return ClosedByBrowser(pongs);
        }
        if opcode == PING {
          Pong(payload);
          PongsMore(pongs, payload, mask, old(sent));
          pongs := pongs + [payload];
          continue;
        }
        if opcode == PONG {
          continue;
        }
        if opcode != CONTINUATION && opcode != TEXT {
          return InvalidFrame(pongs);
        }
        data := data + payload;
        if fin {
          return Message(data, at, pongs);
        }
      }
    }

    /** `call`: the request goes out, then messages are received until its own reply
        arrives; everything before that is kept as events.  `turns` is how often the
        clock lets the loop run before the deadline. */
    method Call(request: nat -> seq<byte>, decode: seq<byte> -> Option<Reply>, turns: nat) returns (r: CallResult)
      requires at <= |input|
      modifies this
      ensures nextId == old(nextId) + 1
      ensures r == Calling(input, old(at), old(nextId), decode, turns)
      ensures events == old(events) + r.events
      ensures output == old(output) + RequestFrame(request(old(nextId)), mask, old(sent)) + PongBytes(r.pongs, mask, old(sent) + 1)
      ensures sent == old(sent) + 1 + |r.pongs|
      ensures at <= |input| && (r.Answer? || r.TimedOut? ==> at == r.next)
    {
      hide PongBytes, PongFrame, RequestFrame, Receiving, Calling, After;
      var ident := nextId;
      nextId := nextId + 1;
      var sending := RequestOut(request(ident));
      NoPongs(mask, sent);
      ghost var before, from := output, sent;
      var seen: seq<Reply>, pongs: seq<seq<byte>> := [], [];
      var turn := 0;
      AfterNothing(Calling(input, at, ident, decode, turns));
      while turn < turns
        invariant turn <= turns && at <= |input| && nextId == ident + 1
        invariant events == old(events) + seen && sent == from + |pongs|
        invariant output == before + PongBytes(pongs, mask, from)
        invariant Calling(input, old(at), ident, decode, turns) == After(seen, pongs, Calling(input, at, ident, decode, turns - turn))
      {
        CallStep(seen, pongs, input, at, ident, decode, turns - turn);
        var got := Receive();
        PongsJoin(pongs, got.pongs, mask, from);
        pongs := pongs + got.pongs;
        var message := if got.Message? then decode(got.data) else None;
        if message.None? {
          return Broken(seen, pongs);
        }
        if message.value.id == Some(ident) {
          return Answer(message.value, at, seen, pongs);
        }
        events := events + [message.value];
        seen := seen + [message.value];
        turn := turn + 1;
      }
      CallEnd(seen, pongs, input, at, ident, decode);
      r := TimedOut(at, seen, pongs);
    }

    method RequestOut(data: seq<byte>) returns (frame: seq<byte>)
      modifies this`output, this`sent
      ensures frame == RequestFrame(data, mask, old(sent))
      ensures output == old(output) + frame && sent == old(sent) + 1
    {
      frame := Send(data, TEXT, mask(sent));
      output := output + frame;
      sent := sent + 1;
    }
  }

  function RequestFrame(data: seq<byte>, mask: nat -> Word32, k: nat): seq<byte> {
    ClientFrame(data, TEXT, mask(k))
  }

  /** How a `call` ends.  `events` are the other messages it has read, `pongs` the
      payloads of the pings it has answered. */
  datatype CallResult =
    | Answer(reply: Reply, next: nat, events: seq<Reply>, pongs: seq<seq<byte>>)
    | TimedOut(next: nat, events: seq<Reply>, pongs: seq<seq<byte>>)
    | Broken(events: seq<Reply>, pongs: seq<seq<byte>>)

  function After(events: seq<Reply>, pongs: seq<seq<byte>>, r: CallResult): CallResult {
    match r
    case Answer(reply, next, more, later) => Answer(reply, next, events + more, pongs + later)
    case TimedOut(next, more, later) => TimedOut(next, events + more, pongs + later)
    case Broken(more, later) => Broken(events + more, pongs + later)
  }

  function Calling(input: seq<byte>, at: nat, ident: nat, decode: seq<byte> -> Option<Reply>, turns: nat): CallResult
    decreases turns
  {
    if turns == 0 then TimedOut(at, [], []) else
    match Receiving(input, at, [], [])
    case Message(data, next, pongs) =>
      (match decode(data)
       case None => Broken([], pongs)
       case Some(message) =>
         if message.id == Some(ident) then Answer(message, next, [], pongs)
         else After([message], pongs, Calling(input, next, ident, decode, turns - 1)))
    case other => Broken([], other.pongs)
  }

  lemma AfterNothing(r: CallResult)
    ensures After([], [], r) == r
  {
    assert [] + r.events == r.events && [] + r.pongs == r.pongs;
  }

  lemma CallEnd(events: seq<Reply>, pongs: seq<seq<byte>>, input: seq<byte>, at: nat, ident: nat, decode: seq<byte> -> Option<Reply>)
    ensures After(events, pongs, Calling(input, at, ident, decode, 0)) == TimedOut(at, events, pongs)
  {
    assert events + [] == events && pongs + [] == pongs;
  }

  lemma CallStep(events: seq<Reply>, pongs: seq<seq<byte>>, input: seq<byte>, at: nat, ident: nat, decode: seq<byte> -> Option<Reply>, turns: nat)
    requires turns > 0
    ensures var o := Receiving(input, at, [], []);
            var message := if o.Message? then decode(o.data) else None;
            After(events, pongs, Calling(input, at, ident, decode, turns))
            == if message.None? then Broken(events, pongs + o.pongs)
               else if message.value.id == Some(ident) then Answer(message.value, o.next, events, pongs + o.pongs)
               else After(events + [message.value], pongs + o.pongs, Calling(input, o.next, ident, decode, turns - 1))
  {
    hide Receiving;
    var o := Receiving(input, at, [], []);
    assert events + [] == events;
    if o.Message? && decode(o.data).Some? {
      var message := decode(o.data).value;
      AfterTwice(events, pongs, [message], o.pongs, Calling(input, o.next, ident, decode, turns - 1));
    }
  }

  lemma AfterTwice(a: seq<Reply>, p: seq<seq<byte>>, b: seq<Reply>, q: seq<seq<byte>>, r: CallResult)
    ensures After(a, p, After(b, q, r)) == After(a + b, p + q, r)
  {
    assert a + (b + r.events) == a + b + r.events;
    assert p + (q + r.pongs) == p + q + r.pongs;
  }

  function PongFrame(payload: seq<byte>, mask: nat -> Word32, k: nat): seq<byte> {
    ClientFrame(payload, PONG, mask(k))
  }

  /** What the client writes in answer to pings, with the masks it draws from the `k`th on. */
  function PongBytes(pongs: seq<seq<byte>>, mask: nat -> Word32, k: nat): seq<byte> {
    if pongs == [] then []
    else PongBytes(pongs[..|pongs| - 1], mask, k) + PongFrame(pongs[|pongs| - 1], mask, k + |pongs| - 1)
  }

  lemma NoPongs(mask: nat -> Word32, k: nat)
    ensures PongBytes([], mask, k) == []
  {
  }

  lemma PongsMore(pongs: seq<seq<byte>>, payload: seq<byte>, mask: nat -> Word32, k: nat)
    ensures PongBytes(pongs + [payload], mask, k) == PongBytes(pongs, mask, k) + PongFrame(payload, mask, k + |pongs|)
  {
    hide PongFrame;
    assert (pongs + [payload])[..|pongs|] == pongs;
  }

  lemma {:induction false} PongsJoin(pongs: seq<seq<byte>>, more: seq<seq<byte>>, mask: nat -> Word32, k: nat)
    ensures PongBytes(pongs + more, mask, k) == PongBytes(pongs, mask, k) + PongBytes(more, mask, k + |pongs|)
    decreases |more|
  {
    hide PongFrame;
    if more == [] {
      assert pongs + more == pongs;
    } else {
      var init := more[..|more| - 1];
      PongsJoin(pongs, init, mask, k);
      assert (pongs + more)[..|pongs + more| - 1] == pongs + init;
    }
  }

  lemma {:induction false} PongAt(pongs: seq<seq<byte>>, mask: nat -> Word32, k: nat, i: nat) returns (after: seq<byte>)
    requires i < |pongs|
    ensures PongBytes(pongs, mask, k) == PongBytes(pongs[..i], mask, k) + PongFrame(pongs[i], mask, k + i) + after
  {
    hide PongFrame;
    var init := pongs[..|pongs| - 1];
    if i == |init| {
      after := [];
    } else {
      var rest := PongAt(init, mask, k, i);
      assert init[..i] == pongs[..i];
      after := rest + PongFrame(pongs[|init|], mask, k + |init|);
    }
  }

  /** On the wire, the browser finds the answers to its pings one after the other, each
      with its ping's own payload. */
  lemma PongRead(pongs: seq<seq<byte>>, mask: nat -> Word32, k: nat, i: nat)
    requires i < |pongs| && |pongs[i]| < U64
    ensures
      ReadClientFrame(PongBytes(pongs, mask, k), |PongBytes(pongs[..i], mask, k)|)
      == Some((true, 10, pongs[i], |PongBytes(pongs[..i], mask, k)| + |PongFrame(pongs[i], mask, k + i)|))
  {
    hide ReadClientFrame, ClientFrame, PongBytes;
    var after := PongAt(pongs, mask, k, i);
    ClientFrameRead(pongs[i], PONG, mask(k + i), PongBytes(pongs[..i], mask, k), after);
  }

  /** The browser finds a request as one text frame. */
  lemma RequestRead(data: seq<byte>, mask: nat -> Word32, k: nat, before: seq<byte>, after: seq<byte>)
    requires |data| < U64
    ensures ReadClientFrame(before + RequestFrame(data, mask, k) + after, |before|)
            == Some((true, 1, data, |before| + |RequestFrame(data, mask, k)|))
  {
    hide ReadClientFrame, ClientFrame;
    ClientFrameRead(data, TEXT, mask(k), before, after);
  }

  /** The bytes of several messages, one after the other. */
  function Wire(messages: seq<seq<ServerFrame>>): seq<byte>
    requires forall i :: 0 <= i < |messages| ==> AllWellFormed(messages[i])
  {
    if messages == [] then [] else StreamBytes(messages[0]) + Wire(messages[1..])
  }

  function AllPings(messages: seq<seq<ServerFrame>>): seq<seq<byte>> {
    if messages == [] then [] else Pings(messages[0]) + AllPings(messages[1..])
  }

  /** A message that `receive` reads and that decodes to `reply`. */
  predicate Says(frames: seq<ServerFrame>, decode: seq<byte> -> Option<Reply>, reply: Reply) {
    Fragmented(frames) && Fits(frames, 0) && decode(Text(frames)) == Some(reply)
  }

  lemma MessageRead(input: seq<byte>, at: nat, frames: seq<ServerFrame>)
    requires Fragmented(frames) && Fits(frames, 0)
    requires at + |StreamBytes(frames)| <= |input| && input[at..at + |StreamBytes(frames)|] == StreamBytes(frames)
    ensures Receiving(input, at, [], []) == Message(Text(frames), at + |StreamBytes(frames)|, Pings(frames))
  {
    hide Receiving, Fits, StreamBytes, Text, Pings, Fitting;
    FragmentsRead(input, at, frames, [], []);
    assert [] + Text(frames) == Text(frames) && [] + Pings(frames) == Pings(frames);
  }

  /** A call finds its own reply behind any number of other messages, fragmented and
      mixed with pings as they may be: the reply is its answer, the others are its
      events in order, every ping is answered, and the next call reads on behind it. */
  lemma {:induction false} CallAnswered(input: seq<byte>, at: nat, messages: seq<seq<ServerFrame>>, replies: seq<Reply>, ident: nat,
                                        decode: seq<byte> -> Option<Reply>, turns: nat)
    requires 0 < |messages| == |replies| <= turns
    requires forall i :: 0 <= i < |messages| ==> AllWellFormed(messages[i])
    requires forall i :: 0 <= i < |messages| ==> Says(messages[i], decode, replies[i])
    requires forall i :: 0 <= i < |replies| ==> (replies[i].id == Some(ident) <==> i == |replies| - 1)
    requires at + |Wire(messages)| <= |input| && input[at..at + |Wire(messages)|] == Wire(messages)
    ensures Calling(input, at, ident, decode, turns)
            == Answer(replies[|replies| - 1], at + |Wire(messages)|, replies[..|replies| - 1], AllPings(messages))
    decreases |messages|
  {
    hide Receiving, Fits, StreamBytes, Text, Pings, Fragmented, AllWellFormed, Calling;
    var rest := messages[1..];
    Cut(input, at, StreamBytes(messages[0]), Wire(rest));
    assert Says(messages[0], decode, replies[0]);
    MessageRead(input, at, messages[0]);
    CallStep([], [], input, at, ident, decode, turns);
    AfterNothing(Calling(input, at, ident, decode, turns));
    assert [] + Pings(messages[0]) == Pings(messages[0]);
    if rest == [] {
      assert Wire(rest) == [] && AllPings(rest) == [];
      assert AllPings(messages) == Pings(messages[0]) + [];
    } else {
      forall i | 0 <= i < |rest| ensures Says(rest[i], decode, replies[1..][i]) {
        assert rest[i] == messages[i + 1];
      }
      CallAnswered(input, at + |StreamBytes(messages[0])|, rest, replies[1..], ident, decode, turns - 1);
      assert [replies[0]] + replies[1..][..|rest| - 1] == replies[..|replies| - 1];
    }
  }

  // Messages that are not the reply of the call become events, one turn each.
  lemma {:induction false} OthersPassed(input: seq<byte>, at: nat, messages: seq<seq<ServerFrame>>, replies: seq<Reply>, ident: nat,
                                        decode: seq<byte> -> Option<Reply>, turns: nat)
    requires |messages| == |replies| <= turns
    requires forall i :: 0 <= i < |messages| ==> AllWellFormed(messages[i])
    requires forall i :: 0 <= i < |messages| ==> Says(messages[i], decode, replies[i])
    requires forall i :: 0 <= i < |replies| ==> replies[i].id != Some(ident)
    requires at + |Wire(messages)| <= |input| && input[at..at + |Wire(messages)|] == Wire(messages)
    ensures Calling(input, at, ident, decode, turns)
            == After(replies, AllPings(messages), Calling(input, at + |Wire(messages)|, ident, decode, turns - |messages|))
    decreases |messages|
  {
    hide Receiving, Fits, StreamBytes, Text, Pings, Fragmented, AllWellFormed, Calling, After;
    if messages == [] {
      AfterNothing(Calling(input, at, ident, decode, turns));
    } else {
      var rest, next := messages[1..], at + |StreamBytes(messages[0])|;
      Cut(input, at, StreamBytes(messages[0]), Wire(rest));
      assert Says(messages[0], decode, replies[0]);
      MessageRead(input, at, messages[0]);
      CallStep([], [], input, at, ident, decode, turns);
      AfterNothing(Calling(input, at, ident, decode, turns));
      assert [] + [replies[0]] == [replies[0]] && [] + Pings(messages[0]) == Pings(messages[0]);
      forall i | 0 <= i < |rest| ensures Says(rest[i], decode, replies[1..][i]) {
        assert rest[i] == messages[i + 1];
      }
      OthersPassed(input, next, rest, replies[1..], ident, decode, turns - 1);
      AfterTwice([replies[0]], Pings(messages[0]), replies[1..], AllPings(rest),
                 Calling(input, at + |Wire(messages)|, ident, decode, turns - |messages|));
      assert [replies[0]] + replies[1..] == replies;
    }
  }

  /** A call that does not find its reply: behind any number of other messages, which
      become its events, it times out when its turns are used up, and it fails when the
      connection ends or a message does not decode. */
  lemma CallUnanswered(input: seq<byte>, at: nat, messages: seq<seq<ServerFrame>>, replies: seq<Reply>, ident: nat,
                       decode: seq<byte> -> Option<Reply>, turns: nat)
    requires |messages| == |replies| <= turns
    requires forall i :: 0 <= i < |messages| ==> AllWellFormed(messages[i])
    requires forall i :: 0 <= i < |messages| ==> Says(messages[i], decode, replies[i])
    requires forall i :: 0 <= i < |replies| ==> replies[i].id != Some(ident)
    requires at + |Wire(messages)| <= |input| && input[at..at + |Wire(messages)|] == Wire(messages)
    ensures var r, next := Calling(input, at, ident, decode, turns), at + |Wire(messages)|;
            var o := Receiving(input, next, [], []);
            && (turns == |messages| ==> r == TimedOut(next, replies, AllPings(messages)))
            && (turns > |messages| && (!o.Message? || decode(o.data).None?) ==> r == Broken(replies, AllPings(messages) + o.pongs))
  {
    hide Receiving, Fits, StreamBytes, Text, Pings, Fragmented, AllWellFormed, Calling, After, Wire;
    OthersPassed(input, at, messages, replies, ident, decode, turns);
    var next := at + |Wire(messages)|;
    if turns == |messages| {
      CallEnd(replies, AllPings(messages), input, next, ident, decode);
    } else {
      CallStep(replies, AllPings(messages), input, next, ident, decode, turns - |messages|);
    }
  }
}
