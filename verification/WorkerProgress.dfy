/**
 Progress of the resident worker: no call gets stuck, and a call whose child stays
 alive succeeds.
 */
module WorkerProgress {
  import opened WorkerFrames
  import opened WorkerModel
  import opened WorkerLockstep

  /** A step that brings the call nearer to its return, without cancelling it. */
  function NextLabel(s: State): Label
    requires s.native.Some? && !s.server.Idle?
  {
    var c := s.native.value;
    if s.server.Sending? then
      if s.outgoing == [] then SendEnds(true) else if c.alive then Push(|s.outgoing|) else SendEnds(false)
    else if c.events != [] then Take
    else if c.stdout != [] then Scan
    else if !c.alive then (if c.reaped then SeeExit else Reap)
    else
      match c.at
      case Booting => Boot
      case Boundary => ReadInput
      case HasInput(_) => ReadOutput
      case Requested(_, _) => Infer(true)
      case Inferred(_, _) => OpenResult
      case Writing(_, _) => CloseResult
      case Saved(_, _) => EmitDone
  }

  /** The child's steps that are left until it has said DONE. */
  function Work(c: Child): nat {
    match c.at
    case Booting => 7
    case Boundary => if c.emitted == c.consumed then 6 else 0
    case HasInput(_) => 5
    case Requested(_, _) => 4
    case Inferred(_, _) => 3
    case Writing(_, _) => 2
    case Saved(_, _) => 1
  }

  function Distance(s: State): nat {
    (match s.native
     case None => 0
     case Some(c) => 3 * Work(c) + 2 * |c.stdout| + |c.events| + if c.reaped then 0 else 1)
    + (match s.server
       case Idle => 0
       case AwaitReady(_) => 4
       case Sending(_) => if s.outgoing == [] then 2 else 3
       case AwaitDone(_) => 1)
  }

  lemma NothingPending(c: Child)
    requires c.events == [] && c.stdout == []
    ensures Pending(c) == []
  {
  }

  lemma FramedInput(input: Path, output: Path)
    requires ValidPath(input) && ValidPath(output)
    ensures ReadPath(Frame(input, output), false, true).Got?
    ensures ReadPath(PathFrame(output), false, false).Got?
  {
    PathRead(input, PathFrame(output), false, true);
    PathRead(output, [], false, false);
    assert PathFrame(output) + [] == PathFrame(output);
  }

  /** In a call the next step can always be taken, whatever the child has done. */
  lemma NeverStuck(s: State)
    requires Inv(s) && !s.server.Idle?
    ensures s.native.Some? && Enabled(s, NextLabel(s))
  {
    hide Frame, PathFrame, ValidPath, ReadPath, ImagePath, ResultPath, ProtocolLines;
    var c := s.native.value;
    if c.events == [] && c.stdout == [] {
      NothingPending(c);
      if s.server.AwaitDone? {
        assert c.stdin + [] == c.stdin;
        FramedInput(ImagePath(s.server.dir), ResultPath(s.server.dir));
      }
    }
  }

  predicate ByChild(e: Label) {
    e.Boot? || e.ReadInput? || e.ReadOutput? || e.Infer? || e.OpenResult? || e.CloseResult? || e.EmitDone?
  }

  lemma ChildNearer(s: State)
    requires Inv(s) && !s.server.Idle? && s.native.Some? && Enabled(s, NextLabel(s)) && ByChild(NextLabel(s))
    ensures Distance(Step(s, NextLabel(s))) < Distance(s)
  {
    hide Frame, PathFrame, ValidPath, ReadPath, ImagePath, ResultPath, ProtocolLines;
    if NextLabel(s).ReadInput? || NextLabel(s).ReadOutput? {
      ReadSucceeds(s);
    }
  }

  lemma OtherNearer(s: State)
    requires !s.server.Idle? && s.native.Some? && Enabled(s, NextLabel(s)) && !ByChild(NextLabel(s))
    ensures Step(s, NextLabel(s)).server.Idle? || Distance(Step(s, NextLabel(s))) < Distance(s)
  {
    hide Frame, PathFrame, ValidPath, ReadPath, ImagePath, ResultPath, ProtocolLines;
  }

  lemma Nearer(s: State)
    requires Inv(s) && !s.server.Idle? && s.native.Some? && Enabled(s, NextLabel(s))
    ensures Step(s, NextLabel(s)).server.Idle? || Distance(Step(s, NextLabel(s))) < Distance(s)
  {
    hide Inv, Step, Enabled, Distance, NextLabel;
    if ByChild(NextLabel(s)) {
      ChildNearer(s);
    } else {
      OtherNearer(s);
    }
  }

  // In a call the child never meets a malformed path.
  lemma ReadSucceeds(s: State)
    requires Inv(s) && !s.server.Idle? && s.native.Some?
    requires NextLabel(s).ReadInput? || NextLabel(s).ReadOutput?
    ensures
      var c := s.native.value;
      && (NextLabel(s).ReadInput? ==> ReadPath(c.stdin, false, true).Got? && c.emitted == c.consumed)
      && (NextLabel(s).ReadOutput? ==> ReadPath(c.stdin, false, false).Got?)
  {
    hide Frame, PathFrame, ValidPath, ReadPath, ImagePath, ResultPath, ProtocolLines;
    var c := s.native.value;
    NothingPending(c);
    assert c.stdin + [] == c.stdin;
    if s.server.AwaitDone? {
      FramedInput(ImagePath(s.server.dir), ResultPath(s.server.dir));
    }
  }

  /** The child is alive and has reported nothing that the server must refuse. */
  predicate Healthy(s: State, dir: Path) {
    && s.native.Some? && s.native.value.alive
    && ValidPath(ImagePath(dir)) && ValidPath(ResultPath(dir))
    && Timing(false) !in Pending(s.native.value)
    && (s.server == AwaitReady(dir) || s.server == Sending(dir) || s.server == AwaitDone(dir))
  }

  lemma HealthyChild(s: State, dir: Path)
    requires Inv(s) && Healthy(s, dir) && Enabled(s, NextLabel(s)) && ByChild(NextLabel(s))
    ensures Healthy(Step(s, NextLabel(s)), dir)
  {
    hide Frame, PathFrame, ValidPath, ReadPath, ImagePath, ResultPath, ProtocolLines;
    if NextLabel(s).ReadInput? || NextLabel(s).ReadOutput? {
      ReadSucceeds(s);
    }
  }

  lemma HealthyTake(s: State, dir: Path)
    requires Inv(s) && Healthy(s, dir) && Enabled(s, Take)
    ensures
      var t := Step(s, Take);
      (t.server.Idle? && t.last == Succeeded(dir)) || Healthy(t, dir)
  {
    hide Frame, PathFrame, ValidPath, ReadPath, ImagePath, ResultPath, ProtocolLines;
    var c := s.native.value;
    ProtocolHead(c.events);
    var d := c.(events := c.events[1..]);
    match c.events[0] {
      case Diagnostic =>
        assert Pending(d) == Pending(c);
      case Protocol(line) =>
        assert Pending(c)[0] == line && Pending(d) == Pending(c)[1..];
    }
  }

  lemma HealthyOther(s: State, dir: Path)
    requires Inv(s) && Healthy(s, dir) && Enabled(s, NextLabel(s)) && !ByChild(NextLabel(s)) && !NextLabel(s).Take?
    ensures Healthy(Step(s, NextLabel(s)), dir)
  {
    hide Frame, PathFrame, ValidPath, ReadPath, ImagePath, ResultPath, ProtocolLines, Inv;
    var c := s.native.value;
    if NextLabel(s).Scan? {
      ProtocolMore(c.events, Protocol(c.stdout[0]));
      assert Pending(c.(stdout := c.stdout[1..], events := c.events + [Protocol(c.stdout[0])])) == Pending(c);
    }
  }

  lemma HealthyStep(s: State, dir: Path)
    requires Inv(s) && Healthy(s, dir) && Enabled(s, NextLabel(s))
    ensures
      var t := Step(s, NextLabel(s));
      (t.server.Idle? && t.last == Succeeded(dir)) || Healthy(t, dir)
  {
    hide Inv, Step, Enabled, NextLabel, Pending;
    if ByChild(NextLabel(s)) {
      HealthyChild(s, dir);
    } else if NextLabel(s).Take? {
      HealthyTake(s, dir);
    } else {
      HealthyOther(s, dir);
    }
  }

  /** From every reachable state inside a call, the call can return within a bounded
      number of steps, none of which cancels it or stops the child; and if the child
      is alive and has not misreported, it can return with success and its own result. */
  lemma {:induction false} CallEnds(s: State, dir: Path) returns (states: seq<State>, labels: seq<Label>)
    requires Inv(s) && !s.server.Idle?
    ensures |states| == |labels| + 1 && states[0] == s && |labels| <= Distance(s) + 1
    ensures forall i :: 0 <= i < |labels| ==> Enabled(states[i], labels[i]) && states[i + 1] == Step(states[i], labels[i])
    ensures forall i :: 0 <= i < |labels| ==> labels[i] != Cancel && labels[i] != Exit
    ensures states[|labels|].server.Idle?
    ensures Healthy(s, dir) ==> states[|labels|].last == Succeeded(dir) && Answers(states[|labels|], dir, s.calls)
    decreases Distance(s)
  {
    hide Inv, Step, Enabled, Distance, Healthy, Answers, NextLabel;
    NeverStuck(s);
    Nearer(s);
    StepKeeps(s, NextLabel(s));
    if Healthy(s, dir) {
      HealthyStep(s, dir);
    }
    var t := Step(s, NextLabel(s));
    SameCall(s);
    if t.server.Idle? {
      NotHealthy(t, dir);
      if Healthy(s, dir) { LastAnswers(s, NextLabel(s), dir); }
      states, labels := [s, t], [NextLabel(s)];
    } else {
      var later, rest := CallEnds(t, dir);
      states, labels := [s] + later, [NextLabel(s)] + rest;
    }
  }

  /** The result file of directory `dir` is whole, made from its own input in call `call`. */
  predicate Answers(s: State, dir: Path, call: nat) {
    ResultPath(dir) in s.files && s.files[ResultPath(dir)] == Whole(ImagePath(dir), call)
  }

  lemma LastAnswers(s: State, e: Label, dir: Path)
    requires Inv(s) && Enabled(s, e) && !s.server.Idle?
    requires Step(s, e).server.Idle? && Step(s, e).last == Succeeded(dir)
    ensures Answers(Step(s, e), dir, s.calls)
  {
    hide Inv, Step, Enabled, ImagePath, ResultPath;
    SuccessMeansResult(s, e);
  }

  lemma SameCall(s: State)
    requires s.native.Some? && !s.server.Idle? && Enabled(s, NextLabel(s))
    ensures Step(s, NextLabel(s)).calls == s.calls
    ensures NextLabel(s) != Cancel && NextLabel(s) != Exit
  {
    hide Frame, ReadPath, ValidPath, ImagePath, ResultPath;
  }

  lemma NotHealthy(s: State, dir: Path)
    requires s.server.Idle?
    ensures !Healthy(s, dir)
  {
  }
}
