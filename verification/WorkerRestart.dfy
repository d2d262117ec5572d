/**
 Between calls the child may crash or be stopped.  The next call replaces it, so that
 every call with valid paths can still succeed.
 */
module WorkerRestart {
  import opened Wrappers
  import opened WorkerFrames
  import opened WorkerModel
  import opened WorkerLockstep
  import opened WorkerProgress

  predicate Gone(s: State) {
    s.native.None? || s.native.value.reaped
  }

  /** With no child, or one that was found to have exited, a call starts a new one and
      waits for it; nothing of the old child is left.  If the start or the log file
      fails, the call does, and leaves no child. */
  lemma EnterReplaces(s: State, dir: Path, started: bool, logged: bool)
    requires Inv(s) && s.server.Idle? && Gone(s)
    ensures var t := Step(s, Enter(dir, started, logged));
            && t.calls == s.calls + 1 && t.outgoing == [] && t.files == s.files
            && if started && logged then
                 && t.server == AwaitReady(dir) && t.native.Some?
                 && var c := t.native.value;
                 && c.alive && !c.reaped && c.at == Booting
                 && c.sent == 0 && c.emitted == 0 && c.consumed == 0
                 && c.stdin == [] && c.stdout == [] && c.events == []
               else t.server == Idle && t.last == Failed && t.native == None
  {
  }

  /** A child that is not known to have exited serves the next call as well: it is sent
      the two paths of the call, if both are valid. */
  lemma EnterReuses(s: State, dir: Path, started: bool)
    requires Inv(s) && s.server.Idle? && !Gone(s)
    ensures var t := Step(s, Enter(dir, started, true));
            && t.calls == s.calls + 1 && t.files == s.files
            && if ValidPath(dir + IMAGE) && ValidPath(dir + RESULT) then
                 && t.server == Sending(dir)
                 && t.native == Some(s.native.value.(sent := s.native.value.sent + 1))
                 && t.outgoing == Frame(dir + IMAGE, dir + RESULT)
               else t.server == Idle && t.last == Failed && t.native == None
  {
    hide Frame, ValidPath;
  }

  lemma EnterHealthy(s: State, dir: Path)
    requires Inv(s) && s.server.Idle? && (Gone(s) || s.native.value.alive)
    requires ValidPath(ImagePath(dir)) && ValidPath(ResultPath(dir))
    ensures var t := Step(s, Enter(dir, true, true));
            Healthy(t, dir) && !t.server.Idle? && t.calls == s.calls + 1 && Distance(t) <= 26 + if Gone(s) then 0 else |s.native.value.events|
  {
    hide Frame, ValidPath, ImagePath, ResultPath;
    if Gone(s) {
      EnterReplaces(s, dir, true, true);
      NothingPending(NO_CHILD);
    } else {
      assert Timing(false) !in Pending(s.native.value);
    }
  }

  /** From every reachable state between calls, whatever happened to the child, unless
      it has just exited and nobody knows yet, a call for any directory with valid
      paths can succeed, with its own result file, within 27 events and one for every
      diagnostic that is queued, none of which cancels it or ends the child. */
  lemma CallSucceeds(s: State, dir: Path) returns (states: seq<State>, labels: seq<Label>)
    requires Inv(s) && s.server.Idle? && (Gone(s) || s.native.value.alive)
    requires ValidPath(dir + IMAGE) && ValidPath(dir + RESULT)
    ensures |states| == |labels| + 1 && states[0] == s && 0 < |labels| <= 28 + if Gone(s) then 0 else |s.native.value.events|
    ensures forall i :: 0 <= i < |labels| ==> Enabled(states[i], labels[i]) && states[i + 1] == Step(states[i], labels[i])
    ensures labels[0] == Enter(dir, true, true) && forall i :: 0 < i < |labels| ==> labels[i] != Cancel && labels[i] != Exit
    ensures var t := states[|labels|];
            && t.server.Idle? && t.last == Succeeded(dir)
            && dir + RESULT in t.files && t.files[dir + RESULT] == Whole(dir + IMAGE, s.calls + 1)
  {
    EnterHealthy(s, dir);
    StepKeeps(s, Enter(dir, true, true));
    var t := Step(s, Enter(dir, true, true));
    hide Inv, Step, Enabled, Healthy, Distance, ValidPath, Answers;
    var later, rest := CallEnds(t, dir);
    CanEnter(s, dir);
    AnswersMean(later[|rest|], dir, s.calls + 1);
    states, labels := [s] + later, [Enter(dir, true, true)] + rest;
  }

  lemma AnswersMean(s: State, dir: Path, call: nat)
    requires Answers(s, dir, call)
    ensures dir + RESULT in s.files && s.files[dir + RESULT] == Whole(dir + IMAGE, call)
  {
  }

  lemma CanEnter(s: State, dir: Path)
    requires s.server.Idle?
    ensures Enabled(s, Enter(dir, true, true))
  {
  }

  /** A child that has exited without anybody knowing makes one call fail at most: the
      failed call leaves no child, so that the next one can succeed. */
  lemma FailureHeals(s: State, e: Label, dir: Path) returns (states: seq<State>, labels: seq<Label>)
    requires Inv(s) && Enabled(s, e) && Returns(s, e) && Step(s, e).last.Failed?
    requires ValidPath(dir + IMAGE) && ValidPath(dir + RESULT)
    ensures |states| == |labels| + 1 && states[0] == Step(s, e) && 0 < |labels| <= 28
    ensures forall i :: 0 <= i < |labels| ==> Enabled(states[i], labels[i]) && states[i + 1] == Step(states[i], labels[i])
    ensures states[|labels|].last == Succeeded(dir)
  {
    hide Inv, Step, Enabled, ValidPath;
    FailureStops(s, e);
    StepKeeps(s, e);
    states, labels := CallSucceeds(Step(s, e), dir);
  }

  function Spelled(s: string): (p: Path)
    ensures |p| == |s|
  {
    seq(|s|, i requires 0 <= i < |s| => s[i] as int % 256)
  }

  /** The two files of a call, by name. */
  lemma FilesNamed(dir: Path)
    ensures ImagePath(dir) == dir + Spelled("/image.input") && ResultPath(dir) == dir + Spelled("/result.bin")
  {
    assert Spelled("/image.input") == IMAGE;
    assert Spelled("/result.bin") == RESULT;
  }

  // ----- what the consumer makes of what it hears

  predicate CallFailed(s: State, t: State) {
    t.server == Idle && t.last == Failed && t.native == None && t.outgoing == [] && t.files == s.files
  }

  /** A diagnostic line, and a timing that parses while the result is awaited, are passed
      over; READY starts the sending of the two paths; DONE ends the call with success.
      Any other line at any other time fails the call and ends the child. */
  lemma LineDecides(s: State)
    requires Enabled(s, Take)
    ensures var t, c, dir := Step(s, Take), s.native.value, s.server.dir;
            var line, rest := c.events[0], c.(events := c.events[1..]);
            if line == Diagnostic || (s.server == AwaitDone(dir) && line == Protocol(Timing(true))) then t == s.(native := Some(rest))
            else if s.server == AwaitDone(dir) && line == Protocol(Done) then
              t == s.(server := Idle, last := Succeeded(dir), native := Some(rest.(consumed := c.consumed + 1)))
            else if s.server == AwaitReady(dir) && line == Protocol(Ready) && ValidPath(dir + IMAGE) && ValidPath(dir + RESULT) then
              t == s.(server := Sending(dir), native := Some(rest.(sent := c.sent + 1)), outgoing := Frame(dir + IMAGE, dir + RESULT))
            else CallFailed(s, t)
  {
    hide Frame, ValidPath;
  }

  /** The end of the child, a cancellation and a request that cannot be written fail the
      call as well; once the request is written, the result is awaited. */
  lemma CallBreaks(s: State, e: Label)
    requires Enabled(s, e)
    ensures e == SeeExit || e == Cancel || e == SendEnds(false) ==> CallFailed(s, Step(s, e))
    ensures e == SendEnds(true) ==> Step(s, e) == s.(server := AwaitDone(s.server.dir))
  {
    hide ReadPath;
  }
}
