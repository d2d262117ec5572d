/**
 Server and resident worker stay in lockstep: what every step keeps, and what it
 means for the caller of a request.
 */
module WorkerLockstep {
  import opened Bytes
  import opened WorkerFrames
  import opened WorkerModel

  /** The protocol lines among the events, in order. */
  function ProtocolLines(events: seq<Event>): seq<Line> {
    if events == [] then []
    else
      var rest := ProtocolLines(events[..|events| - 1]);
      match events[|events| - 1]
      case Protocol(line) => rest + [line]
      case Diagnostic => rest
  }

  /** What the child has said and the server has not heard yet. */
  function Pending(c: Child): seq<Line> {
    ProtocolLines(c.events) + c.stdout
  }

  /** Between calls: every request sent was answered, and the answer was heard. */
  predicate Calm(c: Child) {
    c.sent == c.emitted == c.consumed && Pending(c) == [] && c.stdin == [] && c.at == Boundary
  }

  predicate Waking(c: Child) {
    && c.sent == c.emitted == c.consumed == 0 && c.stdin == []
    && ((c.at == Booting && Pending(c) == []) || (c.at == Boundary && Pending(c) == [Ready]))
  }

  predicate TimingHeardOrNot(lines: seq<Line>) {
    lines == [] || (|lines| == 1 && lines[0].Timing?)
  }

  predicate Answered(lines: seq<Line>) {
    lines == [Done] || (|lines| == 2 && lines[0].Timing? && lines[1] == Done)
  }

  /** During a call: how far the child is with this call's own request. */
  predicate Serving(c: Child, outgoing: seq<byte>, input: Path, output: Path, files: map<Path, File>, call: nat) {
    var todo := c.stdin + outgoing;
    var whole := output in files && files[output] == Whole(input, call);
    && c.sent == c.consumed + 1
    && match c.at
       case Booting => false
       case Boundary =>
         || (c.emitted == c.consumed && todo == Frame(input, output) && Pending(c) == [])
         || (c.emitted == c.sent && todo == [] && Answered(Pending(c)) && whole)
       case HasInput(p) => c.emitted == c.consumed && p == input && todo == PathFrame(output) && Pending(c) == []
       case Requested(p, q) => c.emitted == c.consumed && p == input && q == output && todo == [] && Pending(c) == []
       case Inferred(p, q) => c.emitted == c.consumed && p == input && q == output && todo == [] && TimingHeardOrNot(Pending(c))
       case Writing(p, q) => c.emitted == c.consumed && p == input && q == output && todo == [] && TimingHeardOrNot(Pending(c))
       case Saved(p, q) =>
         && c.emitted == c.consumed && p == input && q == output && todo == [] && TimingHeardOrNot(Pending(c)) && whole
  }

  predicate InCall(s: State, dir: Path) {
    && s.native.Some? && ValidPath(ImagePath(dir)) && ValidPath(ResultPath(dir))
    && Serving(s.native.value, s.outgoing, ImagePath(dir), ResultPath(dir), s.files, s.calls)
  }

  predicate Inv(s: State) {
    && (s.server.Idle? && s.last.Failed? ==> s.native.None?)
    && match s.server
       case Idle => s.outgoing == [] && (s.native.Some? ==> Calm(s.native.value))
       case AwaitReady(dir) => s.native.Some? && s.outgoing == [] && Waking(s.native.value)
       case Sending(dir) => InCall(s, dir)
       case AwaitDone(dir) => InCall(s, dir) && s.outgoing == []
  }

  lemma InitInv(s: State)
    requires Init(s)
    ensures Inv(s)
  {
  }

  lemma {:induction false} ProtocolHead(events: seq<Event>)
    requires events != []
    ensures ProtocolLines(events) ==
      (match events[0] case Protocol(line) => [line] case Diagnostic => []) + ProtocolLines(events[1..])
  {
    if |events| > 1 {
      var init := events[..|events| - 1];
      ProtocolHead(init);
      assert init[1..] == events[1..][..|events| - 2];
    } else {
      assert events[1..] == [] && events[..0] == [];
    }
  }

  lemma ProtocolMore(events: seq<Event>, ev: Event)
    ensures ProtocolLines(events + [ev]) ==
      ProtocolLines(events) + (match ev case Protocol(line) => [line] case Diagnostic => [])
  {
    assert (events + [ev])[..|events|] == events;
  }

  lemma FrameBegun(s: State, dir: Path)
    requires s.native.Some? && Calm(s.native.value.(at := Boundary)) && s.native.value.at == Boundary && s.outgoing == []
    ensures Inv(BeginSend(s, dir))
  {
    var i, o := ImagePath(dir), ResultPath(dir);
    assert [] + Frame(i, o) == Frame(i, o);
  }

  lemma EnterKeeps(s: State, dir: Path, started: bool, logged: bool)
    requires Inv(s) && s.server.Idle?
    ensures Inv(Step(s, Enter(dir, started, logged)))
  {
    hide Frame, ImagePath, ResultPath;
    var t := if s.native.Some? && s.native.value.reaped then StopResident(s) else s;
    if t.native.Some? {
      FrameBegun(t.(calls := t.calls + 1), dir);
    }
  }

  lemma PushKeeps(s: State, n: nat)
    requires Inv(s) && Enabled(s, Push(n))
    ensures Inv(Step(s, Push(n)))
  {
    hide Frame, PathFrame, ProtocolLines, ValidPath, ImagePath, ResultPath;
    var c := s.native.value;
    assert s.outgoing == s.outgoing[..n] + s.outgoing[n..];
    assert (c.stdin + s.outgoing[..n]) + s.outgoing[n..] == c.stdin + s.outgoing;
  }

  // A diagnostic line is dropped; a protocol line is the first pending one.
  lemma LineTaken(c: Child)
    requires c.events != []
    ensures var d := c.(events := c.events[1..]);
            match c.events[0]
            case Diagnostic => Pending(d) == Pending(c)
            case Protocol(line) => Pending(c) == [line] + Pending(d)
  {
    hide ProtocolLines;
    ProtocolHead(c.events);
  }

  lemma WakeTaken(s: State)
    requires Inv(s) && Enabled(s, Take) && s.server.AwaitReady?
    ensures Inv(Step(s, Take))
  {
    hide Frame, PathFrame, ValidPath, ProtocolLines, ImagePath, ResultPath, BeginSend, InCall;
    var c := s.native.value;
    LineTaken(c);
    var d := c.(events := c.events[1..]);
    match c.events[0] {
      case Diagnostic =>
      case Protocol(line) =>
        assert Pending(c)[0] == line && Pending(d) == Pending(c)[1..];
        if line == Ready {
          FrameBegun(WithChild(s, d), s.server.dir);
        }
    }
  }

  lemma DiagnosticTaken(s: State)
    requires Inv(s) && Enabled(s, Take) && s.server.AwaitDone? && s.native.value.events[0].Diagnostic?
    ensures Inv(Step(s, Take))
  {
    hide Frame, PathFrame, ValidPath, Pending, ImagePath, ResultPath, BeginSend, Waking;
    LineTaken(s.native.value);
  }

  lemma ProtocolTaken(s: State)
    requires Inv(s) && Enabled(s, Take) && s.server.AwaitDone? && s.native.value.events[0].Protocol?
    ensures Inv(Step(s, Take))
  {
    hide Frame, PathFrame, ValidPath, ProtocolLines, ImagePath, ResultPath, BeginSend, Waking;
    LineTaken(s.native.value);
    assert Pending(s.native.value)[1..] == Pending(s.native.value.(events := s.native.value.events[1..]));
  }

  lemma ReplyTaken(s: State)
    requires Inv(s) && Enabled(s, Take) && s.server.AwaitDone?
    ensures Inv(Step(s, Take))
  {
    hide Inv, Step;
    if s.native.value.events[0].Diagnostic? {
      DiagnosticTaken(s);
    } else {
      ProtocolTaken(s);
    }
  }

  lemma TakeKeeps(s: State)
    requires Inv(s) && Enabled(s, Take)
    ensures Inv(Step(s, Take))
  {
    hide Inv, Step;
    if s.server.AwaitReady? {
      WakeTaken(s);
    } else {
      ReplyTaken(s);
    }
  }

  lemma ReadInputKeeps(s: State)
    requires Inv(s) && Enabled(s, ReadInput)
    ensures Inv(Step(s, ReadInput))
  {
    hide PathFrame, ValidPath, ProtocolLines, ImagePath, ResultPath, ReadPath;
    var c := s.native.value;
    NothingToRead();
    if s.server.Sending? || s.server.AwaitDone? {
      var i, o := ImagePath(s.server.dir), ResultPath(s.server.dir);
      if c.emitted == c.consumed {
        Arrived(i, PathFrame(o), c.stdin, s.outgoing, true);
      }
    }
  }

  lemma NothingToRead()
    ensures ReadPath([], false, true).Blocked?
  {
  }

  // Once a read does not block, the first framed path has arrived whole.
  lemma Arrived(p: Path, more: seq<byte>, stdin: seq<byte>, outgoing: seq<byte>, boundary: bool)
    requires ValidPath(p) && stdin + outgoing == PathFrame(p) + more
    requires !ReadPath(stdin, false, boundary).Blocked?
    ensures ReadPath(stdin, false, boundary).Got?
    ensures ReadPath(stdin, false, boundary).path == p
    ensures ReadPath(stdin, false, boundary).rest + outgoing == more
  {
    hide ReadPath, PathFrame;
    var f := PathFrame(p);
    if |stdin| < |f| {
      assert stdin == f[..|stdin|] by {
        assert stdin == (stdin + outgoing)[..|stdin|];
      }
      PathAwaited(p, stdin, boundary);
    } else {
      var rest := stdin[|f|..];
      assert stdin == f + rest by {
        assert stdin[..|f|] == (stdin + outgoing)[..|f|];
      }
      assert rest + outgoing == (stdin + outgoing)[|f|..];
      PathRead(p, rest, false, boundary);
    }
  }

  lemma ReadOutputKeeps(s: State)
    requires Inv(s) && Enabled(s, ReadOutput)
    ensures Inv(Step(s, ReadOutput))
  {
    hide PathFrame, ValidPath, ProtocolLines, ImagePath, ResultPath, ReadPath;
    var c := s.native.value;
    var o := ResultPath(s.server.dir);
    assert PathFrame(o) + [] == PathFrame(o);
    Arrived(o, [], c.stdin, s.outgoing, false);
  }

  lemma ChildKeeps(s: State, e: Label)
    requires Inv(s) && Enabled(s, e)
    requires e.Boot? || e.Infer? || e.OpenResult? || e.CloseResult? || e.EmitDone? || e.Exit?
    ensures Inv(Step(s, e))
  {
    hide PathFrame, Frame, ValidPath, ProtocolLines, ImagePath, ResultPath, ReadPath;
  }

  // The invariant looks at the events and the output only through `Pending`.
  lemma SamePending(s: State, d: Child)
    requires Inv(s) && s.native.Some? && Pending(d) == Pending(s.native.value)
    requires d.(alive := s.native.value.alive, reaped := s.native.value.reaped, events := s.native.value.events, stdout := s.native.value.stdout)
          == s.native.value
    ensures Inv(WithChild(s, d))
  {
    hide PathFrame, Frame, ValidPath, Pending, ImagePath, ResultPath;
  }

  lemma ScanKeeps(s: State)
    requires Inv(s) && Enabled(s, Scan)
    ensures Inv(Step(s, Scan))
  {
    hide Inv, ProtocolLines;
    var c := s.native.value;
    ProtocolMore(c.events, Protocol(c.stdout[0]));
    var d := c.(stdout := c.stdout[1..], events := c.events + [Protocol(c.stdout[0])]);
    assert Pending(d) == Pending(c);
    SamePending(s, d);
  }

  lemma GrumbleKeeps(s: State)
    requires Inv(s) && Enabled(s, Grumble)
    ensures Inv(Step(s, Grumble))
  {
    hide Inv, ProtocolLines;
    var c := s.native.value;
    ProtocolMore(c.events, Diagnostic);
    var d := c.(events := c.events + [Diagnostic]);
    assert Pending(d) == Pending(c);
    SamePending(s, d);
  }

  lemma ReapKeeps(s: State)
    requires Inv(s) && Enabled(s, Reap)
    ensures Inv(Step(s, Reap))
  {
    hide Inv, ProtocolLines;
    SamePending(s, s.native.value.(reaped := true));
  }

  /** Every step of either party keeps the lockstep. */
  lemma StepKeeps(s: State, e: Label)
    requires Inv(s) && Enabled(s, e)
    ensures Inv(Step(s, e))
  {
    hide Inv, Step;
    match e {
      case Enter(dir, started, logged) => EnterKeeps(s, dir, started, logged);
      case Push(n) => PushKeeps(s, n);
      case Take => TakeKeeps(s);
      case ReadInput => ReadInputKeeps(s);
      case ReadOutput => ReadOutputKeeps(s);
      case Boot => ChildKeeps(s, e);
      case Infer(good) => ChildKeeps(s, e);
      case OpenResult => ChildKeeps(s, e);
      case CloseResult => ChildKeeps(s, e);
      case EmitDone => ChildKeeps(s, e);
      case Exit => ChildKeeps(s, e);
      case Scan => ScanKeeps(s);
      case Grumble => GrumbleKeeps(s);
      case Reap => ReapKeeps(s);
      case _ => ServerKeeps(s, e);
    }
  }

  lemma ServerKeeps(s: State, e: Label)
    requires Inv(s) && Enabled(s, e)
    requires e.Refuse? || e.SendEnds? || e.SeeExit? || e.Cancel? || e.StopIdle?
    ensures Inv(Step(s, e))
  {
    hide PathFrame, Frame, ValidPath, ProtocolLines, ImagePath, ResultPath, ReadPath;
  }

  /** Between calls the counters agree, and neither bytes nor lines are under way. */
  lemma IdleLockstep(s: State)
    requires Inv(s) && s.server.Idle? && s.native.Some?
    ensures
      var c := s.native.value;
      && c.sent == c.emitted == c.consumed
      && c.stdin == [] && c.stdout == [] && s.outgoing == []
      && forall i :: 0 <= i < |c.events| ==> c.events[i] == Diagnostic
  {
    NoProtocol(s.native.value.events);
  }

  lemma {:induction false} NoProtocol(events: seq<Event>)
    ensures ProtocolLines(events) == [] <==> forall i :: 0 <= i < |events| ==> events[i] == Diagnostic
  {
    if events != [] {
      NoProtocol(events[..|events| - 1]);
    }
  }

  /** A step by which a call returns. */
  predicate Returns(s: State, e: Label)
    requires Enabled(s, e)
  {
    Step(s, e).server.Idle? && (!s.server.Idle? || e.Refuse? || e.Enter?)
  }

  /** A call that succeeds leaves the result file it asked for, whole, made from
      its own input, during this very call. */
  lemma SuccessMeansResult(s: State, e: Label)
    requires Inv(s) && Enabled(s, e) && Returns(s, e) && Step(s, e).last.Succeeded?
    ensures
      var t := Step(s, e);
      && e == Take && s.server == AwaitDone(t.last.dir) && t.calls == s.calls
      && ResultPath(t.last.dir) in t.files
      && t.files[ResultPath(t.last.dir)] == Whole(ImagePath(t.last.dir), t.calls)
  {
    hide Frame, PathFrame, ValidPath, ProtocolLines, ImagePath, ResultPath, ReadPath;
    if e.Take? {
      ProtocolHead(s.native.value.events);
    }
  }

  /** A call that fails after it began leaves no child behind, so that nothing the
      child still says can be taken for the answer to a later request; only a call
      that was refused at the door leaves the child, and that child is calm. */
  lemma FailureStops(s: State, e: Label)
    requires Inv(s) && Enabled(s, e) && Returns(s, e) && !Step(s, e).last.Succeeded?
    ensures
      var t := Step(s, e);
      || (t.last.Failed? && t.native.None?)
      || (t.last.Untouched? && e.Refuse? && t.native == s.native && (t.native.Some? ==> Calm(t.native.value)))
  {
    hide Frame, PathFrame, ValidPath, ProtocolLines, ImagePath, ResultPath, ReadPath;
    StepKeeps(s, e);
  }

  // Whole runs.

  predicate IsRun(states: seq<State>, labels: seq<Label>) {
    && |states| == |labels| + 1 && Init(states[0])
    && forall i :: 0 <= i < |labels| ==> Enabled(states[i], labels[i]) && states[i + 1] == Step(states[i], labels[i])
  }

  lemma {:induction false} RunInv(states: seq<State>, labels: seq<Label>, i: nat)
    requires IsRun(states, labels) && i < |states|
    ensures Inv(states[i])
  {
    hide Inv, Step, Enabled;
    if i == 0 {
      InitInv(states[0]);
    } else {
      RunInv(states, labels, i - 1);
      assert Enabled(states[i - 1], labels[i - 1]);
      StepKeeps(states[i - 1], labels[i - 1]);
    }
  }

  /** Over every run, every success is the answer to the request of that call. */
  lemma RunAnswers(states: seq<State>, labels: seq<Label>, i: nat)
    requires IsRun(states, labels) && i < |labels|
    requires Returns(states[i], labels[i]) && states[i + 1].last.Succeeded?
    ensures
      var t := states[i + 1];
      && states[i].server == AwaitDone(t.last.dir)
      && ResultPath(t.last.dir) in t.files
      && t.files[ResultPath(t.last.dir)] == Whole(ImagePath(t.last.dir), t.calls)
  {
    hide Inv, Step, Enabled;
    RunInv(states, labels, i);
    assert Enabled(states[i], labels[i]) && states[i + 1] == Step(states[i], labels[i]);
    SuccessMeansResult(states[i], labels[i]);
  }
}
