/**
 Accounting and progress: who holds the upload token, how many frames a session
 has in flight, where an enqueued request is, and that no handler is ever stuck.
 */
module CaptureProgress {
  import opened CaptureModel
  import opened CaptureInvariant
  import opened CaptureAdmission
  import opened CaptureSteps
  import opened CaptureRuns
  import opened CaptureSafety

  // ----- the upload token

  function Holders(f: Front): set<nat> {
    set h | h in f.handlers && Holding(f.handlers[h].stage)
  }

  /** The token is in the channel exactly when one party holds it: one handler
      between its arrival and its enqueue or its return, or another upload route. */
  lemma TokenHeldOnce(s: State)
    requires Inv(s)
    ensures |Holders(s.front)| + (if s.front.other then 1 else 0) == (if s.front.uploads then 1 else 0)
  {
    hide StoreInv, LinkInv, DesksOk, PipelineOk;
    var f := s.front;
    if f.uploads && !f.other {
      var h :| h in f.handlers && Holding(f.handlers[h].stage);
      assert Holders(f) == {h};
    } else {
      assert Holders(f) == {};
    }
  }

  // ----- in-flight accounting

  function InflightOf(f: Front, t: nat): set<nat> {
    set h | h in f.handlers && Admitted(f.handlers[h].stage) && f.handlers[h].req.session == t
  }

  lemma {:induction false} InjectiveValues(m: map<nat, nat>)
    requires forall i, j | i in m && j in m && m[i] == m[j] :: i == j
    ensures |m.Values| == |m|
    decreases |m|
  {
    if m == map[] {
      assert m.Values == {};
    } else {
      var i :| i in m;
      var rest := m - {i};
      InjectiveValues(rest);
      forall v | v in m.Values ensures v in rest.Values + {m[i]} {
        var k :| k in m && m[k] == v;
        assert k == i || (k in rest && rest[k] == v);
      }
      forall v | v in rest.Values ensures v in m.Values && v != m[i] {
        var k :| k in rest && rest[k] == v;
        assert k in m && m[k] == v;
      }
      assert m[i] in m.Values;
      assert m.Values == rest.Values + {m[i]};
      assert rest.Keys == m.Keys - {i};
      assert |rest.Keys| == |m.Keys| - 1;
    }
  }

  lemma CancelValues(f: Front, t: nat)
    requires DesksOk(f.desks, f.handlers) && t in f.desks
    ensures f.desks[t].cancels.Values == InflightOf(f, t)
    ensures |f.desks[t].cancels.Values| == |f.desks[t].cancels|
  {
    var cancels := f.desks[t].cancels;
    assert DeskOk(f.handlers, t, f.desks[t]);
    forall h | h in InflightOf(f, t) ensures h in cancels.Values {
      assert HandlerOk(f.desks, h, f.handlers[h]);
      assert cancels[f.handlers[h].id] == h;
    }
    forall h | h in cancels.Values ensures h in InflightOf(f, t) {
      var i :| i in cancels && cancels[i] == h;
      assert CancelOk(f.handlers, t, i, h);
    }
    forall i, j | i in cancels && j in cancels && cancels[i] == cancels[j] ensures i == j {
      assert CancelOk(f.handlers, t, i, cancels[i]) && CancelOk(f.handlers, t, j, cancels[j]);
    }
    InjectiveValues(cancels);
  }

  /** The in-flight counter is the number of handlers between admission and cleanup;
      at most one for an offline session, two for a live one, none for a take. */
  lemma InflightCounted(s: State, t: nat)
    requires Inv(s) && t in s.store.objs && t in s.front.desks
    ensures var d := s.front.desks[t];
            && d.inflight == |d.cancels| == |InflightOf(s.front, t)|
            && (d.busy <==> InflightOf(s.front, t) != {})
            && d.inflight <= Limit(s.store.objs[t].mode)
            && (s.store.objs[t].mode == Take ==> d.inflight == 0)
  {
    hide StoreInv, TokenOk, PipelineOk, OrderOk;
    CancelValues(s.front, t);
    assert DeskOk(s.front.handlers, t, s.front.desks[t]);
    assert LimitsOk(s.store.objs[t], s.front.desks[t]);
  }

  // ----- where an enqueued request is

  function Places(f: Front, h: nat): nat
    requires h in f.handlers
  {
    (if InFrames(f.frames, h) then 1 else 0) + (if InWorker(f.worker, h) then 1 else 0) + (if f.handlers[h].mailbox.Some? then 1 else 0)
  }

  /** From its enqueue until its reply is taken a request is in exactly one of the
      channel, the consumer and the reply channel: it is answered exactly once, and
      the consumer never blocks on the reply channel. */
  lemma AnsweredOnce(s: State, h: nat)
    requires Inv(s) && h in s.front.handlers
    ensures Places(s.front, h) == if s.front.handlers[h].stage == Sent || s.front.handlers[h].stage == Waiting then 1 else 0
    ensures InWorker(s.front.worker, h) ==> s.front.handlers[h].mailbox.None?
  {
    hide StoreInv, LinkInv, TokenOk, DesksOk;
    assert PlaceOk(s.front.frames, s.front.worker, h, s.front.handlers[h]);
  }

  // ----- progress

  /** An event that brings handler `h` nearer to its end: its own next step, or the
      step of the consumer it is waiting for. */
  function NextEvent(s: State, h: nat): Event
    requires h in s.front.handlers
  {
    match s.front.handlers[h].stage
    case Parsing => BadRequest(h)
    case Reading => Enqueue(h)
    case Rejected => Cleanup(h)
    case Sent => ReleaseToken(h)
    case Waiting =>
      if s.front.handlers[h].mailbox.Some? then Receive(h) else
      match s.front.worker {
        case Idle => Dequeue
        case Running(_) => FrameFail
        case Responding(_, _) => Respond
        case Job => JobDone
      }
    case Replied => Cleanup(h)
    case Leaving => Leave(h)
  }

  /** How many events handler `h` is from its end. */
  function Distance(f: Front, h: nat): nat
    requires h in f.handlers
  {
    match f.handlers[h].stage
    case Parsing => 11
    case Reading => 10
    case Rejected => 2
    case Sent => 9
    case Waiting =>
      if f.handlers[h].mailbox.Some? then 3
      else if InFrames(f.frames, h) then (if f.worker == Idle then 6 else if f.worker.Running? then 8 else 7)
      else if f.worker.Running? then 5 else 4
    case Replied => 2
    case Leaving => 1
  }

  lemma GuardsHold(s: State)
    requires Inv(s)
    ensures RecordingsAllocated(s.store) && s.store.tracks <= s.store.objs.Keys <= s.front.desks.Keys
  {
    hide FrontInv, FilesOk, SamplesOk, OrderOk;
    forall t | t in s.store.objs && s.store.objs[t].recording.Some? ensures s.store.objs[t].recording.value in s.store.objs {
      assert AttachedOk(s.store.objs, s.store.tracks, t);
    }
  }

  lemma OpenEntry(s: State, h: nat)
    requires Inv(s) && h in s.front.handlers && Admitted(s.front.handlers[h].stage)
    ensures s.front.handlers[h].req.session in s.front.desks && s.front.desks[s.front.handlers[h].req.session].inflight > 0
  {
    hide StoreInv, LinkInv, TokenOk, PipelineOk;
    CleanupOpen(s.front, h);
  }

  lemma WorkerRequest(s: State)
    requires Inv(s) && s.front.worker.Responding?
    ensures s.front.worker.req.handler in s.front.handlers && s.front.handlers[s.front.worker.req.handler].mailbox.None?
  {
    hide StoreInv, LinkInv, TokenOk, DesksOk;
    var h := s.front.worker.req.handler;
    assert PlaceOk(s.front.frames, s.front.worker, h, s.front.handlers[h]);
  }

  lemma NextEnabled(s: State, h: nat)
    requires RecordingsAllocated(s.store) && s.store.tracks <= s.store.objs.Keys <= s.front.desks.Keys
    requires h in s.front.handlers
    requires Admitted(s.front.handlers[h].stage) ==>
               s.workerLive && s.front.handlers[h].req.session in s.front.desks && s.front.desks[s.front.handlers[h].req.session].inflight > 0
    requires s.front.handlers[h].stage == Waiting ==> Places(s.front, h) == 1
    requires s.front.worker.Responding? ==>
               s.front.worker.req.handler in s.front.handlers && s.front.handlers[s.front.worker.req.handler].mailbox.None?
    ensures Enabled(s, NextEvent(s, h))
  {
    hide RecordingsAllocated;
  }

  /** No handler is ever stuck: the event it needs next can happen now. */
  lemma NeverStuck(s: State, h: nat)
    requires Inv(s) && h in s.front.handlers && (Admitted(s.front.handlers[h].stage) ==> s.workerLive)
    ensures Enabled(s, NextEvent(s, h))
  {
    hide Inv, RecordingsAllocated, Enabled, NextEvent, Places;
    GuardsHold(s);
    AnsweredOnce(s, h);
    if Admitted(s.front.handlers[h].stage) { OpenEntry(s, h); }
    if s.front.worker.Responding? { WorkerRequest(s); }
    NextEnabled(s, h);
  }

  lemma NearerOwn(s: State, h: nat)
    requires h in s.front.handlers && Enabled(s, NextEvent(s, h)) && s.front.handlers[h].stage != Waiting
    ensures h in Step(s, NextEvent(s, h)).front.handlers ==> Distance(Step(s, NextEvent(s, h)).front, h) < Distance(s.front, h)
    ensures Step(s, NextEvent(s, h)).workerLive == s.workerLive
  {
    hide RecordingsAllocated;
  }

  lemma NearerReceive(s: State, h: nat)
    requires h in s.front.handlers && Enabled(s, Receive(h))
    ensures var s' := Step(s, Receive(h));
            s'.workerLive == s.workerLive && h in s'.front.handlers && Distance(s'.front, h) == 2
  {
    hide RecordingsAllocated;
  }

  lemma NearerDequeue(s: State, h: nat)
    requires h in s.front.handlers && Enabled(s, Dequeue) && s.front.handlers[h].stage == Waiting && s.front.handlers[h].mailbox.None?
    requires Places(s.front, h) == 1
    ensures var s' := Step(s, Dequeue);
            s'.workerLive == s.workerLive && h in s'.front.handlers && Distance(s'.front, h) < Distance(s.front, h)
  {
    hide RecordingsAllocated;
  }

  lemma NearerConsumed(s: State, h: nat, e: Event)
    requires h in s.front.handlers && Enabled(s, e) && s.front.handlers[h].stage == Waiting && s.front.handlers[h].mailbox.None?
    requires e.FrameFail? || e.Respond? || e.JobDone?
    requires Places(s.front, h) == 1
    ensures var s' := Step(s, e);
            s'.workerLive == s.workerLive && h in s'.front.handlers && Distance(s'.front, h) < Distance(s.front, h)
  {
    hide RecordingsAllocated;
  }

  lemma NearerWaiting(s: State, h: nat)
    requires h in s.front.handlers && Enabled(s, NextEvent(s, h)) && s.front.handlers[h].stage == Waiting
    requires Places(s.front, h) == 1
    ensures h in Step(s, NextEvent(s, h)).front.handlers ==> Distance(Step(s, NextEvent(s, h)).front, h) < Distance(s.front, h)
    ensures Step(s, NextEvent(s, h)).workerLive == s.workerLive
  {
    hide RecordingsAllocated, Enabled, Step, Places;
    if s.front.handlers[h].mailbox.Some? {
      NearerReceive(s, h);
    } else if s.front.worker == Idle {
      NearerDequeue(s, h);
    } else {
      NearerConsumed(s, h, NextEvent(s, h));
    }
  }

  /** From every reachable state every handler can run to its end, taking at most
      eleven events, the reply and the token included. */
  lemma {:induction false} HandlerEnds(s: State, h: nat) returns (states: seq<State>, events: seq<Event>)
    requires Inv(s) && h in s.front.handlers && (Admitted(s.front.handlers[h].stage) ==> s.workerLive)
    ensures |states| == |events| + 1 && |events| <= Distance(s.front, h) <= 11 && states[0] == s
    ensures forall i | 0 <= i < |events| :: Enabled(states[i], events[i]) && states[i + 1] == Step(states[i], events[i])
    ensures h !in states[|events|].front.handlers
    decreases Distance(s.front, h)
  {
    hide Inv, Step, Enabled, NextEvent, Distance, Places;
    NeverStuck(s, h);
    AnsweredOnce(s, h);
    var e := NextEvent(s, h);
    var s' := Step(s, e);
    if s.front.handlers[h].stage == Waiting { NearerWaiting(s, h); } else { NearerOwn(s, h); }
    StepKeeps(s, e);
    StageNext(s, h);
    if h in s'.front.handlers {
      var states', events' := HandlerEnds(s', h);
      states, events := [s] + states', [e] + events';
    } else {
      states, events := [s, s'], [e];
    }
  }

  lemma StageNext(s: State, h: nat)
    requires h in s.front.handlers && Enabled(s, NextEvent(s, h))
    requires Admitted(s.front.handlers[h].stage) ==> s.workerLive
    ensures var s' := Step(s, NextEvent(s, h));
            h in s'.front.handlers && Admitted(s'.front.handlers[h].stage) ==> s'.workerLive
    ensures 1 <= Distance(s.front, h) <= 11
  {
    hide RecordingsAllocated;
  }

  /** The consumer was live at admission and stays live. */
  lemma {:induction false} ConsumerLive(states: seq<State>, events: seq<Event>, i: nat, j: nat)
    requires IsRun(states, events) && i <= j <= |events| && states[i].workerLive
    ensures states[j].workerLive
    decreases j
  {
    hide Inv, Step, Enabled, Init;
    if i < j {
      ConsumerLive(states, events, i, j - 1);
      LiveStep(states[j - 1], events[j - 1]);
    }
  }

  lemma LiveStep(s: State, e: Event)
    requires Enabled(s, e) && s.workerLive
    ensures Step(s, e).workerLive
  {
    hide CreateTrack, FinishTrack, StartTake, StopTake, DeleteTrack, CommitFrame, AdmitFrame, CleanupFrame, EnqueueFrame;
  }

  /** In every state of every run, every handler can be brought to its end. */
  lemma EveryHandlerEnds(states: seq<State>, events: seq<Event>, n: nat, h: nat) returns (states': seq<State>, events': seq<Event>)
    requires IsRun(states, events) && n <= |events| && h in states[n].front.handlers
    ensures |states'| == |events'| + 1 && |events'| <= 11 && states'[0] == states[n]
    ensures forall i | 0 <= i < |events'| :: Enabled(states'[i], events'[i]) && states'[i + 1] == Step(states'[i], events'[i])
    ensures h !in states'[|events'|].front.handlers
  {
    hide Inv, Step, Enabled, Init, Distance;
    RunInv(states, events, n);
    if Admitted(states[n].front.handlers[h].stage) {
      var j := AdmissionOf(states, events, n, h);
      ConsumerLive(states, events, j, n);
    }
    states', events' := HandlerEnds(states[n], h);
  }
}
