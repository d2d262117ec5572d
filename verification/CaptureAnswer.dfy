/**
 When a frame is answered: its commit succeeds exactly if it was not cancelled and
 its session still records, and every such frame can be brought to its answer.
 */
module CaptureAnswer {
  import opened Wrappers
  import opened CaptureModel
  import opened CaptureInvariant
  import opened CaptureSteps
  import opened CaptureRuns
  import opened CaptureProgress
  import opened CaptureLimits

  // ----- the commit when every file operation succeeds

  lemma FinishSucceeds(s: Store, t: nat, k: nat)
    requires t in s.objs && RecordingsAllocated(s) && s.objs[t].recording == Some(k) && k in s.dirs
    ensures FinishRecording(s, t, Complete, true).1 && FinishRecording(s, t, Complete, true).0.dirs == s.dirs
  {
  }

  lemma AppendSucceeds(s: Store, t: nat, k: nat, stamp: real)
    requires t in s.objs && k in s.objs && t != k && RecordingsAllocated(s)
    requires s.objs[t].recording == Some(k) && k in s.dirs
    ensures AppendRecording(s, t, k, stamp, SAVED).1
  {
    hide FinishRecording;
    var time := stamp - s.objs[k].start;
    FinishSucceeds(AddSample(WritePose(s, k, s.objs[k].count, time, PoseWritten), k, time), t, k);
  }

  lemma OfflineSucceeds(s: Store, t: nat, stamp: real)
    requires t in s.objs && t in s.dirs
    ensures var (s', ok) := CommitOffline(s, t, stamp, SAVED);
            ok && s'.dirs == s.dirs && t in s'.objs && s'.objs[t].mode == s.objs[t].mode
  {
  }

  /** If every file operation succeeds, a commit is answered exactly if the frame was
      not cancelled and its session still records. */
  lemma CommitAnswers(s: Store, r: Request, cancelled: bool)
    requires StoreInv(s) && RecordingsAllocated(s) && RequestOk(s.objs, r)
    ensures CommitFrame(s, r, cancelled, SAVED).1 == Answered <==> !cancelled && s.objs[r.session].phase == Recording
  {
    var t := r.session;
    assert TrackOk(s.objs[t], t in s.tracks, t in s.dirs);
    if r.take.Some? {
      var k := r.take.value;
      assert TrackOk(s.objs[k], k in s.tracks, k in s.dirs);
    }
    hide StoreInv, AppendRecording, CommitOffline, DirsKept;
    if !cancelled && s.objs[t].phase == Recording {
      if s.objs[t].mode == Offline {
        OfflineSucceeds(s, t, r.stamp);
      } else if r.take.Some? && s.objs[r.take.value].phase == Recording {
        AppendSucceeds(s, t, r.take.value, r.stamp);
        AppendShallow(s, t, r.take.value, r.stamp, SAVED);
      }
    }
  }

  // ----- the way to the answer

  /** Handler `h` has been admitted and its frame is neither committed nor refused. */
  predicate Open(f: Front, h: nat) {
    && h in f.handlers
    && var x := f.handlers[h];
       x.stage == Reading || ((x.stage == Sent || x.stage == Waiting) && (InFrames(f.frames, h) || IsRunning(f.worker, h)))
  }

  /** The frame is committed with success, and its answer is on the way. */
  predicate Coming(f: Front, h: nat) {
    && h in f.handlers
    && var x := f.handlers[h];
       && (x.stage == Sent || x.stage == Waiting)
       && (x.mailbox == Some(Answered) || (f.worker.Responding? && f.worker.req.handler == h && f.worker.reply == Answered))
  }

  predicate Deserving(s: State, h: nat) {
    && h in s.front.handlers && !s.front.handlers[h].cancelled
    && s.front.handlers[h].req.session in s.store.objs
    && s.store.objs[s.front.handlers[h].req.session].phase == Recording
  }

  predicate Answerable(s: State, h: nat) {
    s.workerLive && ((Open(s.front, h) && Deserving(s, h)) || Coming(s.front, h))
  }

  /** The consumer's next step, as `h` would have it: its own frame is committed with
      every file operation a success. */
  function ConsumerEvent(f: Front, h: nat): Event {
    match f.worker
    case Idle => Dequeue
    case Running(r) => if r.handler == h then Commit(SAVED) else FrameFail
    case Responding(_, _) => Respond
    case Job => JobDone
  }

  function AnswerEvent(f: Front, h: nat): Event
    requires h in f.handlers
  {
    match f.handlers[h].stage
    case Reading => if f.frames.None? then Enqueue(h) else ConsumerEvent(f, h)
    case Sent => ReleaseToken(h)
    case _ => ConsumerEvent(f, h)
  }

  /** How many events the consumer is from its idle state. */
  function Busyness(w: Worker): nat {
    match w case Idle => 0 case Running(_) => 2 case Responding(_, _) => 1 case Job => 1
  }

  /** How many events the frame of `h` is from its answer. */
  function AnswerDistance(f: Front, h: nat): nat
    requires h in f.handlers
  {
    match f.handlers[h].stage
    case Reading => if f.frames.None? then 5 + Busyness(f.worker) else 8 + Busyness(f.worker)
    case Sent => 1 + WaitDistance(f, h)
    case _ => WaitDistance(f, h)
  }

  function WaitDistance(f: Front, h: nat): nat
    requires h in f.handlers
  {
    if f.handlers[h].mailbox.Some? then 0
    else if InFrames(f.frames, h) then 3 + Busyness(f.worker)
    else if f.worker.Running? then 2
    else 1
  }

  lemma RunningAllocated(s: State)
    requires Inv(s) && s.front.worker.Running?
    ensures var r := s.front.worker.req;
            r.handler in s.front.handlers && r.session in s.store.objs && (r.take.Some? ==> r.take.value in s.store.objs)
  {
    hide Inv, StampOk;
    RunningFacts(s);
  }

  lemma ConsumerGuard(s: State, h: nat)
    requires RecordingsAllocated(s.store) && s.store.tracks <= s.store.objs.Keys <= s.front.desks.Keys && s.workerLive
    requires s.front.worker.Idle? ==> s.front.frames.Some?
    requires s.front.worker.Running? ==>
               var r := s.front.worker.req;
               r.handler in s.front.handlers && r.session in s.store.objs && (r.take.Some? ==> r.take.value in s.store.objs)
    requires s.front.worker.Responding? ==>
               s.front.worker.req.handler in s.front.handlers && s.front.handlers[s.front.worker.req.handler].mailbox.None?
    ensures Enabled(s, ConsumerEvent(s.front, h))
  {
    hide RecordingsAllocated;
  }

  lemma ConsumerEnabled(s: State, h: nat)
    requires Inv(s) && s.workerLive && (s.front.worker.Idle? ==> s.front.frames.Some?)
    ensures Enabled(s, ConsumerEvent(s.front, h))
  {
    hide Inv, RecordingsAllocated, Enabled, ConsumerEvent;
    GuardsHold(s);
    if s.front.worker.Running? { RunningAllocated(s); }
    if s.front.worker.Responding? { WorkerRequest(s); }
    ConsumerGuard(s, h);
  }

  lemma OwnEnabled(s: State, h: nat)
    requires RecordingsAllocated(s.store) && s.store.tracks <= s.store.objs.Keys <= s.front.desks.Keys && h in s.front.handlers
    requires s.front.handlers[h].stage == Sent || (s.front.handlers[h].stage == Reading && s.front.frames.None?)
    ensures Enabled(s, AnswerEvent(s.front, h))
  {
    hide RecordingsAllocated;
  }

  lemma AnswerEnabled(s: State, h: nat)
    requires Inv(s) && Answerable(s, h) && s.front.handlers[h].mailbox.None?
    ensures Enabled(s, AnswerEvent(s.front, h))
  {
    hide Inv, RecordingsAllocated, Enabled, ConsumerEvent;
    GuardsHold(s);
    if s.front.handlers[h].stage == Sent || (s.front.handlers[h].stage == Reading && s.front.frames.None?) {
      OwnEnabled(s, h);
    } else {
      ConsumerEnabled(s, h);
    }
  }

  /** What is left of the way after one of the handler's own events. */
  lemma OwnEvent(s: State, h: nat)
    requires Answerable(s, h) && s.front.handlers[h].mailbox.None?
    requires s.workerLive && h in s.front.handlers
    requires s.front.handlers[h].req.handler == h
    requires s.front.handlers[h].stage == Sent || (s.front.handlers[h].stage == Reading && s.front.frames.None?)
    requires Enabled(s, AnswerEvent(s.front, h))
    ensures var s' := Step(s, AnswerEvent(s.front, h));
            Answerable(s', h) && AnswerDistance(s'.front, h) < AnswerDistance(s.front, h)
  {
    hide RecordingsAllocated;
  }

  /** Another request, or a job, moves on. */
  lemma OtherEvent(s: State, h: nat)
    requires Answerable(s, h) && s.front.handlers[h].mailbox.None?
    requires s.front.handlers[h].stage == Waiting || (s.front.handlers[h].stage == Reading && s.front.frames.Some?)
    requires !IsRunning(s.front.worker, h) && (s.front.handlers[h].stage == Reading ==> !InFrames(s.front.frames, h) && !InWorker(s.front.worker, h))
    requires s.front.worker.Idle? ==> s.front.frames.Some?
    requires Enabled(s, ConsumerEvent(s.front, h))
    ensures var s' := Step(s, ConsumerEvent(s.front, h));
            Answerable(s', h) && AnswerDistance(s'.front, h) < AnswerDistance(s.front, h)
  {
    OtherShape(s, h);
    hide RecordingsAllocated, CommitFrame, Step, Enabled;
  }

  lemma OtherShape(s: State, h: nat)
    requires !IsRunning(s.front.worker, h) && Enabled(s, ConsumerEvent(s.front, h))
    ensures var s' := Step(s, ConsumerEvent(s.front, h));
            var f := s.front;
            && s'.store == s.store && s'.workerLive == s.workerLive
            && match f.worker
               case Idle => f.frames.Some? && s'.front == f.(worker := Running(f.frames.value), frames := None)
               case Running(r) => s'.front == f.(worker := Responding(r, Refused))
               case Responding(r, reply) =>
                 r.handler in f.handlers
                 && s'.front == f.(worker := Idle, handlers := f.handlers[r.handler := f.handlers[r.handler].(mailbox := Some(reply))])
               case Job => s'.front == f.(worker := Idle)
  {
    hide RecordingsAllocated, CommitFrame;
  }

  /** The frame itself is committed. */
  lemma CommitEvent(s: State, h: nat)
    requires Inv(s) && Answerable(s, h) && s.front.handlers[h].mailbox.None? && s.front.handlers[h].stage == Waiting
    requires IsRunning(s.front.worker, h) && Enabled(s, Commit(SAVED))
    ensures var s' := Step(s, Commit(SAVED));
            Answerable(s', h) && AnswerDistance(s'.front, h) < AnswerDistance(s.front, h)
  {
    hide Inv, StoreInv, RecordingsAllocated, CommitFrame, RequestOk;
    RunningFacts(s);
    StoreHolds(s);
    CommitReply(s, SAVED);
    CommitAnswers(s.store, s.front.worker.req, s.front.handlers[h].cancelled);
    hide Step, Enabled;
  }

  lemma CommitReply(s: State, io: CommitIo)
    requires Enabled(s, Commit(io))
    ensures s.front.worker.Running? && RecordingsAllocated(s.store)
    ensures var r := s.front.worker.req;
            && r.session in s.store.objs && r.handler in s.front.handlers && (r.take.Some? ==> r.take.value in s.store.objs)
            && Step(s, Commit(io)).front
               == s.front.(worker := Responding(r, CommitFrame(s.store, r, s.front.handlers[r.handler].cancelled, io).1))
            && Step(s, Commit(io)).workerLive == s.workerLive
  {
    hide CommitFrame;
  }

  lemma Standing(s: State, h: nat)
    requires Inv(s) && h in s.front.handlers
    ensures s.front.handlers[h].req.handler == h
    ensures PlaceOk(s.front.frames, s.front.worker, h, s.front.handlers[h])
  {
    hide StoreInv, LinkInv, TokenOk;
    assert HandlerOk(s.front.desks, h, s.front.handlers[h]);
  }

  lemma NearerAnswer(s: State, h: nat)
    requires Inv(s) && Answerable(s, h) && s.front.handlers[h].mailbox.None?
    ensures Enabled(s, AnswerEvent(s.front, h))
    ensures var s' := Step(s, AnswerEvent(s.front, h));
            Answerable(s', h) && AnswerDistance(s'.front, h) < AnswerDistance(s.front, h)
  {
    hide Inv, Enabled, Step, AnswerDistance;
    AnswerEnabled(s, h);
    Standing(s, h);
    if s.front.handlers[h].stage == Sent || (s.front.handlers[h].stage == Reading && s.front.frames.None?) {
      OwnEvent(s, h);
    } else if IsRunning(s.front.worker, h) {
      CommitEvent(s, h);
    } else {
      OtherEvent(s, h);
    }
  }

  /** From every reachable state, a frame that is admitted, not cancelled and of a
      session that still records can be answered with success, within ten events. */
  lemma {:induction false} AnswerReached(s: State, h: nat) returns (states: seq<State>, events: seq<Event>)
    requires Inv(s) && Answerable(s, h) && (s.front.handlers[h].mailbox.Some? ==> s.front.handlers[h].mailbox == Some(Answered))
    ensures |states| == |events| + 1 && |events| <= AnswerDistance(s.front, h) <= 10 && states[0] == s
    ensures forall i | 0 <= i < |events| :: Enabled(states[i], events[i]) && states[i + 1] == Step(states[i], events[i])
    ensures h in states[|events|].front.handlers && states[|events|].front.handlers[h].mailbox == Some(Answered)
    decreases AnswerDistance(s.front, h)
  {
    hide Inv, Step, Enabled, AnswerEvent;
    if s.front.handlers[h].mailbox.Some? {
      states, events := [s], [];
    } else {
      NearerAnswer(s, h);
      var e := AnswerEvent(s.front, h);
      var s' := Step(s, e);
      StepKeeps(s, e);
      Standing(s', h);
      var states', events' := AnswerReached(s', h);
      states, events := [s] + states', [e] + events';
    }
  }
}
