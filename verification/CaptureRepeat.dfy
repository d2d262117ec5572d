/**
 One frame from its arrival to its cleanup on a server that does nothing else, and
 the run that files the same sample twice in a take.
 */
module CaptureRepeat {
  import opened Wrappers
  import opened CaptureModel
  import opened CaptureInvariant
  import opened CaptureRuns
  import opened CaptureLimits

  /** Events that happen one after the other, from any state. */
  ghost predicate IsPath(states: seq<State>, events: seq<Event>) {
    && |states| == |events| + 1
    && forall i | 0 <= i < |events| :: Enabled(states[i], events[i]) && states[i + 1] == Step(states[i], events[i])
  }

  lemma PathThen(states: seq<State>, events: seq<Event>, e: Event)
    requires IsPath(states, events) && Enabled(states[|events|], e)
    ensures IsPath(states + [Step(states[|events|], e)], events + [e])
  {
    hide Step, Enabled;
  }

  lemma PathJoin(states: seq<State>, events: seq<Event>, states': seq<State>, events': seq<Event>)
    requires IsPath(states, events) && IsPath(states', events') && states[|events|] == states'[0]
    ensures IsPath(states + states'[1..], events + events')
    ensures (states + states'[1..])[|events| + |events'|] == states'[|events'|]
  {
    hide Step, Enabled;
    var all, events'' := states + states'[1..], events + events';
    forall i | |events| <= i < |events''| ensures Enabled(all[i], events''[i]) && all[i + 1] == Step(all[i], events''[i]) {
      assert all[i] == states'[i - |events|] && all[i + 1] == states'[i + 1 - |events|];
    }
  }

  lemma ThreeSteps(s0: State, e0: Event, s1: State, e1: Event, s2: State, e2: Event, s3: State)
    requires Enabled(s0, e0) && Step(s0, e0) == s1
    requires Enabled(s1, e1) && Step(s1, e1) == s2
    requires Enabled(s2, e2) && Step(s2, e2) == s3
    ensures IsPath([s0, s1, s2, s3], [e0, e1, e2])
  {
    hide Step, Enabled;
  }

  // ----- one frame, alone

  predicate Quiet(s: State) {
    && s.front.handlers == map[] && !s.front.uploads && !s.front.other && s.front.frames.None? && s.front.worker == Idle
    && s.queue == 0 && s.workerLive
    && RecordingsAllocated(s.store) && s.store.tracks <= s.store.objs.Keys <= s.front.desks.Keys
  }

  /** The handler's request and record once it is admitted. */
  function Admitting(s: State, h: nat, t: nat, stamp: real): Handler
    requires t in s.store.objs && t in s.front.desks && RecordingsAllocated(s.store)
  {
    var r := Request(h, t, None, stamp);
    Handler(Reading, r.(take := AdmittedTake(s.store, r)), s.front.desks[t].next, false, None)
  }

  function Opened(s: State, h: nat, t: nat, stamp: real): map<nat, Desk>
    requires t in s.front.desks
  {
    var d := s.front.desks[t];
    s.front.desks[t := Desk(true, s.now, stamp, d.inflight + 1, d.next + 1, d.cancels[d.next := h])]
  }

  /** The server with one frame, at some stage between admission and commit. */
  function WithFrame(s: State, h: nat, t: nat, stamp: real, stage: Stage, uploads: bool, queued: bool, worker: Worker): State
    requires t in s.store.objs && t in s.front.desks && RecordingsAllocated(s.store)
  {
    var x := Admitting(s, h, t, stamp).(stage := stage);
    s.(front := Front(Opened(s, h, t, stamp), map[h := x], uploads, false, if queued then Some(x.req) else None, worker))
  }

  lemma ArriveAdmit(s: State, h: nat, t: nat, stamp: real) returns (states: seq<State>, events: seq<Event>)
    requires Quiet(s) && Admissible(s, Request(h, t, None, stamp))
    ensures IsPath(states, events) && |events| == 2 && |states| == 3 && states[0] == s
    ensures states[2] == WithFrame(s, h, t, stamp, Reading, true, false, Idle)
  {
    hide RecordingsAllocated, AdmittedTake;
    var r := Request(h, t, None, stamp);
    var s1 := s.(front := s.front.(uploads := true, handlers := map[h := Handler(Parsing, r, 0, false, None)]));
    assert Enabled(s, Arrive(h, t, stamp)) && Step(s, Arrive(h, t, stamp)) == s1;
    AdmitAlone(s, s1, h, t, stamp);
    states, events := [s, s1, Step(s1, Admit(h, true))], [Arrive(h, t, stamp), Admit(h, true)];
  }

  lemma AdmitAlone(s: State, s1: State, h: nat, t: nat, stamp: real)
    requires Quiet(s) && Admissible(s, Request(h, t, None, stamp))
    requires s1 == s.(front := s.front.(uploads := true, handlers := map[h := Handler(Parsing, Request(h, t, None, stamp), 0, false, None)]))
    ensures Enabled(s1, Admit(h, true))
    ensures Step(s1, Admit(h, true)) == WithFrame(s, h, t, stamp, Reading, true, false, Idle)
  {
    hide RecordingsAllocated, AdmittedTake;
    assert Admissible(s1, Request(h, t, None, stamp));
    assert map[h := Handler(Parsing, Request(h, t, None, stamp), 0, false, None)][h := Admitting(s, h, t, stamp)] == map[h := Admitting(s, h, t, stamp)];
  }

  lemma EnqueueAlone(s: State, h: nat, t: nat, stamp: real)
    requires Quiet(s) && t in s.store.objs && t in s.front.desks
    ensures var s0, s1 := WithFrame(s, h, t, stamp, Reading, true, false, Idle), WithFrame(s, h, t, stamp, Sent, true, true, Idle);
            Enabled(s0, Enqueue(h)) && Step(s0, Enqueue(h)) == s1
  {
    hide RecordingsAllocated, AdmittedTake;
    var x := Admitting(s, h, t, stamp);
    Updated(h, x.(stage := Reading), x.(stage := Sent));
  }

  lemma ReleaseAlone(s: State, h: nat, t: nat, stamp: real)
    requires Quiet(s) && t in s.store.objs && t in s.front.desks
    ensures var s1, s2 := WithFrame(s, h, t, stamp, Sent, true, true, Idle), WithFrame(s, h, t, stamp, Waiting, false, true, Idle);
            Enabled(s1, ReleaseToken(h)) && Step(s1, ReleaseToken(h)) == s2
  {
    hide RecordingsAllocated, AdmittedTake;
    var x := Admitting(s, h, t, stamp);
    Updated(h, x.(stage := Sent), x.(stage := Waiting));
  }

  lemma DequeueAlone(s: State, h: nat, t: nat, stamp: real)
    requires Quiet(s) && t in s.store.objs && t in s.front.desks
    ensures var s2 := WithFrame(s, h, t, stamp, Waiting, false, true, Idle);
            var s3 := WithFrame(s, h, t, stamp, Waiting, false, false, Running(Admitting(s, h, t, stamp).req));
            Enabled(s2, Dequeue) && Step(s2, Dequeue) == s3
  {
    hide RecordingsAllocated, AdmittedTake;
  }

  lemma HandIn(s: State, h: nat, t: nat, stamp: real) returns (states: seq<State>, events: seq<Event>)
    requires Quiet(s) && t in s.store.objs && t in s.front.desks
    ensures IsPath(states, events) && |events| == 3 && |states| == 4
    ensures states[0] == WithFrame(s, h, t, stamp, Reading, true, false, Idle)
    ensures states[3] == WithFrame(s, h, t, stamp, Waiting, false, false, Running(Admitting(s, h, t, stamp).req))
  {
    hide RecordingsAllocated, Step, Enabled, IsPath, WithFrame, Admitting;
    var s0 := WithFrame(s, h, t, stamp, Reading, true, false, Idle);
    var s1 := WithFrame(s, h, t, stamp, Sent, true, true, Idle);
    var s2 := WithFrame(s, h, t, stamp, Waiting, false, true, Idle);
    var s3 := WithFrame(s, h, t, stamp, Waiting, false, false, Running(Admitting(s, h, t, stamp).req));
    EnqueueAlone(s, h, t, stamp);
    ReleaseAlone(s, h, t, stamp);
    DequeueAlone(s, h, t, stamp);
    ThreeSteps(s0, Enqueue(h), s1, ReleaseToken(h), s2, Dequeue, s3);
    states, events := [s0, s1, s2, s3], [Enqueue(h), ReleaseToken(h), Dequeue];
  }

  lemma Updated(h: nat, x: Handler, y: Handler)
    ensures map[h := x][h := y] == map[h := y]
  {
  }

  /** The admission record after the frame's cleanup. */
  function Closed(s: State, t: nat, stamp: real): Desk
    requires t in s.front.desks
  {
    var d := s.front.desks[t];
    Desk(d.inflight > 0, s.now, stamp, d.inflight, d.next + 1, d.cancels - {d.next})
  }

  lemma RespondAlone(s4: State, h: nat, x: Handler, reply: Reply)
    requires s4.front.handlers == map[h := x] && s4.front.worker == Responding(x.req, reply) && x.req.handler == h && x.mailbox.None?
    requires RecordingsAllocated(s4.store) && s4.store.tracks <= s4.store.objs.Keys <= s4.front.desks.Keys
    ensures Enabled(s4, Respond)
    ensures Step(s4, Respond) == s4.(front := s4.front.(worker := Idle, handlers := map[h := x.(mailbox := Some(reply))]))
  {
    hide RecordingsAllocated;
    Updated(h, x, x.(mailbox := Some(reply)));
  }

  lemma ReceiveAlone(s5: State, h: nat, x: Handler)
    requires s5.front.handlers == map[h := x] && x.stage == Waiting && x.mailbox.Some?
    requires RecordingsAllocated(s5.store) && s5.store.tracks <= s5.store.objs.Keys <= s5.front.desks.Keys
    ensures Enabled(s5, Receive(h))
    ensures Step(s5, Receive(h)) == s5.(front := s5.front.(handlers := map[h := x.(stage := Replied, mailbox := None)]))
  {
    hide RecordingsAllocated;
    Updated(h, x, x.(stage := Replied, mailbox := None));
  }

  lemma Ending(s: State, s4: State, h: nat, t: nat, stamp: real, reply: Reply) returns (states: seq<State>, events: seq<Event>)
    requires Quiet(s) && t in s.store.objs && t in s.front.desks
    requires s4 == WithFrame(s, h, t, stamp, Waiting, false, false, Responding(Admitting(s, h, t, stamp).req, reply)).(store := s4.store)
    requires RecordingsAllocated(s4.store) && s4.store.tracks <= s4.store.objs.Keys <= s.front.desks.Keys
    ensures IsPath(states, events) && |events| == 3 && |states| == 4 && states[0] == s4
    ensures states[3] == s.(store := s4.store, front := s.front.(desks := s.front.desks[t := Closed(s, t, stamp)]))
  {
    hide RecordingsAllocated, AdmittedTake, Step, Enabled, IsPath;
    var x := Admitting(s, h, t, stamp).(stage := Waiting);
    var s5 := s4.(front := s4.front.(worker := Idle, handlers := map[h := x.(mailbox := Some(reply))]));
    var s6 := s4.(front := s4.front.(worker := Idle, handlers := map[h := x.(stage := Replied, mailbox := None)]));
    var s7 := s.(store := s4.store, front := s.front.(desks := s.front.desks[t := Closed(s, t, stamp)]));
    RespondAlone(s4, h, x, reply);
    ReceiveAlone(s5, h, x.(mailbox := Some(reply)));
    CleanupAlone(s, s6, h, t, stamp);
    ThreeSteps(s4, Respond, s5, Receive(h), s6, Cleanup(h), s7);
    states, events := [s4, s5, s6, s7], [Respond, Receive(h), Cleanup(h)];
  }

  lemma CleanupAlone(s: State, s6: State, h: nat, t: nat, stamp: real)
    requires Quiet(s) && t in s.store.objs && t in s.front.desks
    requires s6 == s.(store := s6.store, front := Front(Opened(s, h, t, stamp), map[h := Admitting(s, h, t, stamp).(stage := Replied)], false, false, None, Idle))
    requires RecordingsAllocated(s6.store) && s6.store.tracks <= s6.store.objs.Keys <= s.front.desks.Keys
    ensures Enabled(s6, Cleanup(h))
    ensures Step(s6, Cleanup(h)) == s.(store := s6.store, front := s.front.(desks := s.front.desks[t := Closed(s, t, stamp)]))
  {
    hide RecordingsAllocated, AdmittedTake;
    var d := s.front.desks[t];
    assert d.cancels[d.next := h] - {d.next} == d.cancels - {d.next};
    assert s6.front.handlers - {h} == map[];
    assert Opened(s, h, t, stamp)[t := Closed(s, t, stamp)] == s.front.desks[t := Closed(s, t, stamp)];
  }

  /** An admissible frame on a quiet server: it runs through, and all that changes is
      what its commit does and its session's admission record. */
  lemma FrameAlone(s: State, h: nat, t: nat, stamp: real, io: CommitIo) returns (states: seq<State>, events: seq<Event>)
    requires Quiet(s) && Admissible(s, Request(h, t, None, stamp))
    requires var store := CommitFrame(s.store, Admitting(s, h, t, stamp).req, false, io).0;
             RecordingsAllocated(store) && store.tracks <= store.objs.Keys <= s.front.desks.Keys
    ensures IsPath(states, events) && |events| == 9 && |states| == 10 && states[0] == s
    ensures states[9] == s.(store := CommitFrame(s.store, Admitting(s, h, t, stamp).req, false, io).0,
                            front := s.front.(desks := s.front.desks[t := Closed(s, t, stamp)]))
  {
    hide RecordingsAllocated, AdmittedTake, CommitFrame, IsPath, Step, Enabled, Admitting, WithFrame, Admissible;
    AdmissibleKnown(s, h, t, stamp);
    var first, begin := ArriveAdmit(s, h, t, stamp);
    var second, middle := HandIn(s, h, t, stamp);
    var s3 := second[3];
    CommitAlone(s, h, t, stamp, io);
    var s4 := Step(s3, Commit(io));
    var third, end := Ending(s, s4, h, t, stamp, CommitFrame(s.store, Admitting(s, h, t, stamp).req, false, io).1);
    PathLengths(first, begin);
    PathLengths(second, middle);
    PathLengths(third, end);
    PathJoin(first, begin, second, middle);
    states, events := first + second[1..], begin + middle;
    PathThen(states, events, Commit(io));
    PathJoin(states + [s4], events + [Commit(io)], third, end);
    states, events := states + [s4] + third[1..], events + [Commit(io)] + end;
  }

  lemma PathLengths(states: seq<State>, events: seq<Event>)
    requires IsPath(states, events)
    ensures |states| == |events| + 1
  {
    hide Step, Enabled;
  }

  lemma AdmissibleKnown(s: State, h: nat, t: nat, stamp: real)
    requires Admissible(s, Request(h, t, None, stamp))
    ensures t in s.store.objs && t in s.front.desks
  {
  }

  lemma CommitAlone(s: State, h: nat, t: nat, stamp: real, io: CommitIo)
    requires Quiet(s) && t in s.store.objs && t in s.front.desks
    ensures var r := Admitting(s, h, t, stamp).req;
            var s3 := WithFrame(s, h, t, stamp, Waiting, false, false, Running(r));
            && r.session in s.store.objs && (r.take.Some? ==> r.take.value in s.store.objs)
            && Enabled(s3, Commit(io))
            && var (store, reply) := CommitFrame(s.store, r, false, io);
               Step(s3, Commit(io)) == WithFrame(s, h, t, stamp, Waiting, false, false, Responding(r, reply)).(store := store)
  {
    hide CommitFrame;
  }

  // ----- the run

  function EmptyServer(maxJobs: nat): State {
    State(Store(map[], {}, {}, map[], {}, {}), Front(map[], map[], false, false, None, Idle), 0, false, 0.0, maxJobs)
  }

  /** A live session 0 at 10 Hz with its take 1, on a quiet server. */
  function RecordingServer(maxJobs: nat): State {
    State(RECORDING, Front(map[0 := NewDesk(0.0), 1 := NewDesk(0.0)], map[], false, false, None, Idle), 0, true, 0.0, maxJobs)
  }

  const START_IO := CreateIo([], [], true, true, true)

  lemma WorkerStarted(s0: State)
    requires s0 == EmptyServer(s0.maxJobs)
    ensures Enabled(s0, WorkerStart) && Step(s0, WorkerStart) == s0.(workerLive := true)
  {
  }

  lemma RecordingStarted(maxJobs: nat) returns (states: seq<State>, events: seq<Event>)
    requires maxJobs > 0
    ensures IsPath(states, events) && |events| == 3 && |states| == 4
    ensures states[0] == EmptyServer(maxJobs) && states[3] == RecordingServer(maxJobs)
  {
    hide Step, Enabled, IsPath;
    var s0 := EmptyServer(maxJobs);
    var s1 := s0.(workerLive := true);
    var session := NewTrack(Live, 10.0, 0.0);
    var s2 := s1.(store := Store(map[0 := session], {0}, {}, map[], {}, {}), front := s1.front.(desks := map[0 := NewDesk(0.0)]));
    var s3 := RecordingServer(maxJobs);
    WorkerStarted(s0);
    Created(s1, session);
    RecordStarted(s2, s3);
    ThreeSteps(s0, WorkerStart, s1, Create(0, Live, 10.0, START_IO), s2, RecordStart(0, 1, 0.0, true, true, true), s3);
    states, events := [s0, s1, s2, s3], [WorkerStart, Create(0, Live, 10.0, START_IO), RecordStart(0, 1, 0.0, true, true, true)];
  }

  lemma Created(s1: State, session: Track)
    requires s1 == EmptyServer(s1.maxJobs).(workerLive := true) && session == NewTrack(Live, 10.0, 0.0)
    ensures Enabled(s1, Create(0, Live, 10.0, START_IO))
    ensures Step(s1, Create(0, Live, 10.0, START_IO))
            == s1.(store := Store(map[0 := session], {0}, {}, map[], {}, {}), front := s1.front.(desks := map[0 := NewDesk(0.0)]))
  {
    assert LiveIn(s1.store) == {};
  }

  lemma RecordStarted(s2: State, s3: State)
    requires s2.maxJobs > 0 && s3 == RecordingServer(s2.maxJobs)
    requires s2 == s3.(store := Store(map[0 := NewTrack(Live, 10.0, 0.0)], {0}, {}, map[], {}, {}), front := s3.front.(desks := map[0 := NewDesk(0.0)]))
    ensures Enabled(s2, RecordStart(0, 1, 0.0, true, true, true))
    ensures Step(s2, RecordStart(0, 1, 0.0, true, true, true)) == s3
  {
    assert SavedIn(s2.store) == {};
    var made := StartTake(s2, 0, 1, 0.0, true, true, true);
    assert made.1;
    assert made.0.objs == RECORDING.objs;
  }

  lemma QuietRecording(maxJobs: nat, h: nat)
    ensures Quiet(RecordingServer(maxJobs))
    ensures Admissible(RecordingServer(maxJobs), Request(h, 0, None, 0.5))
    ensures AdmittedTake(RECORDING, Request(h, 0, None, 0.5)) == Some(1)
  {
  }

  lemma SecondAdmissible(s: State, h: nat)
    requires s.workerLive && s.queue == 0 && 0 in s.store.tracks && 0 in s.store.objs && 0 in s.front.desks
    requires s.store.objs[0] == RECORDING.objs[0] && s.front.desks[0].inflight == 0
    ensures Admissible(s, Request(h, 0, None, 0.5))
  {
  }

  lemma QuietAgain(s: State, s': State)
    requires s == RecordingServer(s.maxJobs)
    requires s' == s.(store := UNSAVED_STORE, front := s.front.(desks := s.front.desks[0 := Closed(s, 0, 0.5)]))
    ensures Quiet(s') && Admissible(s', Request(8, 0, None, 0.5))
    ensures Admitting(s', 8, 0, 0.5).req == Request(8, 0, Some(1), 0.5)
  {
    SecondAdmissible(s', 8);
  }

  lemma PathRuns(states: seq<State>, events: seq<Event>)
    requires IsPath(states, events) && Init(states[0])
    ensures IsRun(states, events)
  {
    hide Init, Step, Enabled;
  }

  lemma EmptyStarts(maxJobs: nat)
    ensures Init(EmptyServer(maxJobs))
  {
  }

  /** A run from an empty server that breaks the spacing of a take: the save of its
      first sample fails, so the same frame is admitted and filed again. */
  lemma RepeatedSample(maxJobs: nat) returns (states: seq<State>, events: seq<Event>)
    requires maxJobs > 0
    ensures IsRun(states, events) && |events| == 21
    ensures var o := states[21].store;
            && 1 in o.objs && o.objs[1].mode == Take && o.objs[1].samples == [0.5, 0.5]
            && !Spaced(o.objs[1].samples, o.objs[1].hz)
  {
    hide IsPath, IsRun, Init, Enabled, Step, CommitFrame, Admissible, Spaced, RecordingsAllocated, Quiet;
    var begin, starting := RecordingStarted(maxJobs);
    var s := RecordingServer(maxJobs);
    QuietRecording(maxJobs, 7);
    var r, r' := Request(7, 0, Some(1), 0.5), Request(8, 0, Some(1), 0.5);
    FirstCommit(r);
    SecondCommit(r');
    NotSpaced();
    var first, events1 := FrameAlone(s, 7, 0, 0.5, UNSAVED);
    var s' := first[9];
    QuietAgain(s, s');
    var second, events2 := FrameAlone(s', 8, 0, 0.5, SAVED);
    PathLengths(begin, starting);
    PathLengths(first, events1);
    PathLengths(second, events2);
    PathJoin(begin, starting, first, events1);
    states, events := begin + first[1..], starting + events1;
    PathJoin(states, events, second, events2);
    states, events := states + second[1..], events + events2;
    EmptyStarts(maxJobs);
    PathRuns(states, events);
  }
}
