/**
 The resident worker's lockstep as a transition system: the server's single
 consumer, the child process, and the pipes between them.  Every event is one
 step of one party; crashes, cancellations and failures come at any time.
 */
module WorkerModel {
  import opened Wrappers
  import opened Bytes
  import opened WorkerFrames

  const EVENT_SLOTS: nat := 64

  /** A line of the child's standard output; `good` is a timing that parses. */
  datatype Line = Ready | Timing(good: bool) | Done

  /** What the pipe readers pass on: protocol lines from the standard output, and
      diagnostics from the standard error, of which excess ones are dropped. */
  datatype Event = Protocol(line: Line) | Diagnostic

  /** Where the child's loop stands. */
  datatype Point =
    | Booting
    | Boundary
    | HasInput(input: Path)
    | Requested(input: Path, output: Path)
    | Inferred(input: Path, output: Path)
    | Writing(input: Path, output: Path)
    | Saved(input: Path, output: Path)

  /** A child and its pipes.  `closed` is the server's end of its input; `reaped`
      is the closed `done` channel.  The counters are history: requests sent to
      it, DONE lines it emitted, DONE lines the server consumed. */
  datatype Child = Child(
    alive: bool,
    at: Point,
    stdin: seq<byte>,
    stdout: seq<Line>,
    events: seq<Event>,
    reaped: bool,
    sent: nat,
    emitted: nat,
    consumed: nat)

  /** A result file: being written, or whole, made from `input` during call `call`. */
  datatype File = Partial | Whole(input: Path, call: nat)

  /** Where the server's consumer stands in a call for directory `dir`. */
  datatype Server = Idle | AwaitReady(dir: Path) | Sending(dir: Path) | AwaitDone(dir: Path)

  datatype Outcome = Untouched | Failed | Succeeded(dir: Path)

  /** `outgoing` is what the writing goroutine still has to write; `calls` counts
      the calls begun; `last` is how the latest one returned. */
  datatype State = State(
    native: Option<Child>,
    server: Server,
    outgoing: seq<byte>,
    files: map<Path, File>,
    calls: nat,
    last: Outcome)

  const IMAGE: Path := [47, 105, 109, 97, 103, 101, 46, 105, 110, 112, 117, 116]  // /image.input
  const RESULT: Path := [47, 114, 101, 115, 117, 108, 116, 46, 98, 105, 110]      // /result.bin

  function ImagePath(dir: Path): Path {
    dir + IMAGE
  }

  function ResultPath(dir: Path): Path {
    dir + RESULT
  }

  datatype Label =
    // The server's consumer.
    | Refuse                                    // cancelled before anything was touched
    | Enter(dir: Path, started: bool, logged: bool)
    | Push(n: nat)                              // the writer goroutine gets bytes into the pipe
    | SendEnds(ok: bool)                        // the consumer hears from the writer goroutine
    | Take                                      // the consumer receives the next event
    | SeeExit                                   // the consumer sees that the child is gone
    | Cancel
    | StopIdle                                  // idle for too long, or shutting down
    // The child.
    | Boot
    | ReadInput
    | ReadOutput
    | Infer(good: bool)                         // the timing line, after a successful inference
    | OpenResult
    | CloseResult
    | EmitDone
    | Exit                                      // end of input, failure or crash
    // The pipe readers.
    | Scan
    | Grumble                                   // a line on the standard error
    | Reap                                      // both pipes are drained and the child is waited for

  const NO_CHILD := Child(true, Booting, [], [], [], false, 0, 0, 0)

  predicate Running(s: State) {
    s.native.Some? && s.native.value.alive
  }

  function WithChild(s: State, c: Child): State {
    s.(native := Some(c))
  }

  /** Closing the input, killing and reaping the child; its channels are dropped. */
  function StopResident(s: State): State {
    s.(native := None, outgoing := [])
  }

  /** A return with an error, after the deferred stop was registered. */
  function Fail(s: State): State {
    StopResident(s).(server := Idle, last := Failed)
  }

  /** The request is built and handed to the writer goroutine. */
  function BeginSend(s: State, dir: Path): State
    requires s.native.Some?
  {
    if !ValidPath(ImagePath(dir)) || !ValidPath(ResultPath(dir)) then Fail(s)
    else
      s.(server := Sending(dir),
         outgoing := Frame(ImagePath(dir), ResultPath(dir)),
         native := Some(s.native.value.(sent := s.native.value.sent + 1)))
  }

  /** Entering a call: a child that is gone is replaced, a missing one started. */
  function EnterCall(s: State, dir: Path, started: bool, logged: bool): State {
    var t := if s.native.Some? && s.native.value.reaped then StopResident(s) else s;
    var u := t.(calls := t.calls + 1);
    if u.native.None? then
      if !started then u.(server := Idle, last := Failed)
      else
        var v := u.(native := Some(NO_CHILD));
        if logged then v.(server := AwaitReady(dir)) else Fail(v)
    else if !logged then Fail(u)
    else BeginSend(u, dir)
  }

  /** The consumer's reaction to one event while it waits. */
  function TakeEvent(s: State): State
    requires s.native.Some? && s.native.value.events != [] && (s.server.AwaitReady? || s.server.AwaitDone?)
  {
    var c := s.native.value;
    var t := WithChild(s, c.(events := c.events[1..]));
    match c.events[0]
    case Diagnostic => t
    case Protocol(line) =>
      if s.server.AwaitReady? then
        if line == Ready then BeginSend(t, s.server.dir) else Fail(t)
      else if line.Timing? then
        if line.good then t else Fail(t)
      else if line == Done then
        WithChild(t, t.native.value.(consumed := c.consumed + 1)).(server := Idle, last := Succeeded(s.server.dir))
      else Fail(t)
  }

  /** The child after trying to read a path; a malformed one ends it. */
  function ReadStep(c: Child, r: Reading, next: Point): Child {
    match r
    case Got(path, rest) => c.(at := next, stdin := rest)
    case _ => c.(alive := false)
  }

  predicate Enabled(s: State, e: Label) {
    match e
    case Refuse => s.server.Idle?
    case Enter(dir, started, logged) => s.server.Idle?
    case Push(n) => Running(s) && 0 < n <= |s.outgoing|
    case SendEnds(ok) => s.native.Some? && s.server.Sending? && if ok then s.outgoing == [] else !s.native.value.alive
    case Take => s.native.Some? && s.native.value.events != [] && (s.server.AwaitReady? || s.server.AwaitDone?)
    case SeeExit => s.native.Some? && s.native.value.reaped && (s.server.AwaitReady? || s.server.AwaitDone?)
    case Cancel => !s.server.Idle?
    case StopIdle => s.server.Idle?
    case Boot => Running(s) && s.native.value.at.Booting?
    case ReadInput => Running(s) && s.native.value.at.Boundary? && !ReadPath(s.native.value.stdin, false, true).Blocked?
    case ReadOutput => Running(s) && s.native.value.at.HasInput? && !ReadPath(s.native.value.stdin, false, false).Blocked?
    case Infer(good) => Running(s) && s.native.value.at.Requested?
    case OpenResult => Running(s) && s.native.value.at.Inferred?
    case CloseResult => Running(s) && s.native.value.at.Writing?
    case EmitDone => Running(s) && s.native.value.at.Saved?
    case Exit => Running(s)
    case Scan => s.native.Some? && s.native.value.stdout != [] && |s.native.value.events| < EVENT_SLOTS
    case Grumble => s.native.Some? && !s.native.value.reaped
    case Reap => s.native.Some? && !s.native.value.alive && s.native.value.stdout == []
  }

  function Step(s: State, e: Label): State
    requires Enabled(s, e)
  {
    match e
    case Refuse => s.(last := Untouched)
    case Enter(dir, started, logged) => EnterCall(s, dir, started, logged)
    case Push(n) =>
      var c := s.native.value;
      WithChild(s, c.(stdin := c.stdin + s.outgoing[..n])).(outgoing := s.outgoing[n..])
    case SendEnds(ok) => if ok then s.(server := AwaitDone(s.server.dir)) else Fail(s)
    case Take => TakeEvent(s)
    case SeeExit => Fail(s)
    case Cancel => Fail(s)
    case StopIdle => StopResident(s)
    case Boot => WithChild(s, s.native.value.(at := Boundary, stdout := s.native.value.stdout + [Ready]))
    case ReadInput =>
      var c := s.native.value;
      var r := ReadPath(c.stdin, false, true);
      WithChild(s, ReadStep(c, r, if r.Got? then HasInput(r.path) else c.at))
    case ReadOutput =>
      var c := s.native.value;
      var r := ReadPath(c.stdin, false, false);
      WithChild(s, ReadStep(c, r, if r.Got? then Requested(c.at.input, r.path) else c.at))
    case Infer(good) =>
      var c := s.native.value;
      WithChild(s, c.(at := Inferred(c.at.input, c.at.output), stdout := c.stdout + [Timing(good)]))
    case OpenResult =>
      var c := s.native.value;
      WithChild(s, c.(at := Writing(c.at.input, c.at.output))).(files := s.files[c.at.output := Partial])
    case CloseResult =>
      var c := s.native.value;
      WithChild(s, c.(at := Saved(c.at.input, c.at.output))).(files := s.files[c.at.output := Whole(c.at.input, s.calls)])
    case EmitDone =>
      var c := s.native.value;
      WithChild(s, c.(at := Boundary, stdout := c.stdout + [Done], emitted := c.emitted + 1))
    case Exit => WithChild(s, s.native.value.(alive := false))
    case Scan =>
      var c := s.native.value;
      WithChild(s, c.(stdout := c.stdout[1..], events := c.events + [Protocol(c.stdout[0])]))
    case Grumble =>
      var c := s.native.value;
      if |c.events| < EVENT_SLOTS then WithChild(s, c.(events := c.events + [Diagnostic])) else s
    case Reap => WithChild(s, s.native.value.(reaped := true))
  }

  predicate Init(s: State) {
    s.native.None? && s.server.Idle? && s.outgoing == []
  }
}
