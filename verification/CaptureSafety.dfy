/**
 Safety of whole runs: spacing of committed timestamps, isolation of takes, and
 closure of tracks that have stopped recording or were deleted.
 */
module CaptureSafety {
  import opened Wrappers
  import opened CaptureModel
  import opened CaptureInvariant
  import opened CaptureTracks
  import opened CaptureCommit
  import opened CaptureSteps
  import opened CaptureRuns

  // ----- spacing of the committed timestamps

  /** Event `e` commits a frame to session `t`: its counter goes up. */
  predicate CommitAt(s: State, e: Event, s': State, t: nat) {
    && e.Commit? && s.front.worker.Running? && s.front.worker.req.session == t
    && t in s.store.objs && t in s'.store.objs && s'.store.objs[t].count > s.store.objs[t].count
  }

  /** The timestamps committed to session `t` by the first `n` events, in order. */
  function CommitLog(states: seq<State>, events: seq<Event>, t: nat, n: nat): seq<real>
    requires n <= |events| < |states|
  {
    if n == 0 then [] else
    CommitLog(states, events, t, n - 1)
    + (if CommitAt(states[n - 1], events[n - 1], states[n], t) then [states[n - 1].front.worker.req.stamp] else [])
  }

  lemma ClockUnmoved(objs: map<nat, Track>, objs': map<nat, Track>, t: nat)
    requires SessionsKept(objs, objs') && t in objs && objs[t].mode != Take
    ensures t in objs' && objs'[t].mode == objs[t].mode && objs'[t].hz == objs[t].hz
    ensures objs'[t].count == objs[t].count && objs'[t].lastTime == objs[t].lastTime
  {
    assert TrackKept(objs[t], objs'[t]);
  }

  lemma ClockMoved(objs: map<nat, Track>, objs': map<nat, Track>, session: nat, stamp: real, t: nat)
    requires Advanced(objs, objs', session, stamp) && t in objs && objs[t].mode != Take
    ensures t in objs' && objs'[t].mode == objs[t].mode && objs'[t].hz == objs[t].hz
    ensures t == session ==> objs'[t].count == objs[t].count + 1 && objs'[t].lastTime == stamp
    ensures t != session ==> objs'[t].count == objs[t].count && objs'[t].lastTime == objs[t].lastTime
  {
    assert TrackKept(objs[t], RolledBack(objs, objs', session)[t]);
  }

  /** One event either leaves a session clock alone or moves it by a full sampling gap. */
  lemma ClockStep(s: State, e: Event, t: nat)
    requires Inv(s) && Enabled(s, e) && t in s.store.objs && s.store.objs[t].mode != Take && s.store.objs[t].hz > 0.0
    ensures var s' := Step(s, e);
            var o := s.store.objs[t];
            && t in s'.store.objs
            && var o' := s'.store.objs[t];
            && o'.mode == o.mode && o'.hz == o.hz
            && (if CommitAt(s, e, s', t)
                then o'.count == o.count + 1 && o'.lastTime == s.front.worker.req.stamp
                     && (o.count > 0 ==> o'.lastTime >= o.lastTime + Gap(o.hz))
                else o'.count == o.count && o'.lastTime == o.lastTime)
  {
    hide Inv, Step, Enabled, SessionsKept, Advanced;
    EventClock(s, e);
    if e.Commit? && s.front.worker.Running? { RunningStamp(s, t); }
    var s' := Step(s, e);
    if SessionsKept(s.store.objs, s'.store.objs) {
      ClockUnmoved(s.store.objs, s'.store.objs, t);
    } else {
      ClockMoved(s.store.objs, s'.store.objs, s.front.worker.req.session, s.front.worker.req.stamp, t);
    }
  }

  lemma RunningStamp(s: State, t: nat)
    requires Inv(s) && s.front.worker.Running? && t in s.store.objs && s.store.objs[t].hz > 0.0
    ensures s.front.worker.req.session == t && s.store.objs[t].count > 0 ==>
              s.front.worker.req.stamp >= s.store.objs[t].lastTime + Gap(s.store.objs[t].hz)
  {
    hide Inv;
    RunningFacts(s);
  }

  lemma RateKnown(s: State, t: nat)
    requires Inv(s) && t in s.store.objs
    ensures 1.0 <= s.store.objs[t].hz <= 30.0
  {
    assert TrackOk(s.store.objs[t], t in s.store.tracks, t in s.store.dirs);
  }

  lemma CommitKnown(s: State, e: Event, t: nat)
    requires Inv(s) && e.Commit? && s.front.worker.Running? && s.front.worker.req.session == t
    ensures t in s.store.objs && s.store.objs[t].mode != Take
  {
    RunningFacts(s);
  }

  /** Over every run, the timestamps committed to one session increase by at least
      the sampling gap, and the session clock is the last of them. */
  lemma {:induction false} CommittedSpaced(states: seq<State>, events: seq<Event>, t: nat, n: nat)
    requires IsRun(states, events) && n <= |events|
    ensures var log := CommitLog(states, events, t, n);
            |log| > 0 ==>
              && t in states[n].store.objs
              && var o := states[n].store.objs[t];
              && o.mode != Take && 1.0 <= o.hz <= 30.0
              && o.count > 0 && o.lastTime == log[|log| - 1]
              && (forall i, j | 0 <= i < j < |log| :: log[j] >= log[i] + Gap(o.hz))
  {
    hide Inv, Step, Enabled, Init;
    if n > 0 {
      CommittedSpaced(states, events, t, n - 1);
      var s, e, s' := states[n - 1], events[n - 1], states[n];
      RunInv(states, events, n - 1);
      var log := CommitLog(states, events, t, n - 1);
      var log' := CommitLog(states, events, t, n);
      if CommitAt(s, e, s', t) { CommitKnown(s, e, t); }
      if |log'| > 0 {
        RateKnown(s, t);
        ClockStep(s, e, t);
        GapPositive(s.store.objs[t].hz);
        assert log' == log || log' == log + [s.front.worker.req.stamp];
      }
    }
  }

  // ----- isolation of takes

  /** The one way a take gains a sample. */
  lemma TakeGrowth(s: State, e: Event, k: nat)
    requires Inv(s) && Enabled(s, e) && k in s.store.objs && s.store.objs[k].mode == Take
    ensures var s' := Step(s, e);
            var o := s.store.objs[k];
            && k in s'.store.objs
            && (s'.store.objs[k].samples == o.samples
                || (e.Commit? && s.front.worker.Running?
                    && var r := s.front.worker.req;
                    && r.take == Some(k) && o.phase == Recording && Attached(s.store.objs, r.session, k)
                    && r.stamp >= o.start && s'.store.objs[k].samples == o.samples + [r.stamp - o.start]))
  {
    hide Inv, Step, Enabled, DirsKept;
    EventAdds(s, e);
    if e.Commit? && s.front.worker.Running? {
      RunningTake(s);
    }
  }

  lemma RunningTake(s: State)
    requires Inv(s) && s.front.worker.Running?
    ensures RequestOk(s.store.objs, s.front.worker.req)
  {
    RunningFacts(s);
  }

  predicate FromHandler(e: Event) {
    e.Arrive? || e.BadRequest? || e.Admit? || e.ReadFail? || e.Enqueue? || e.ReleaseToken? || e.Cancel? || e.Receive? || e.Cleanup? || e.Leave?
  }

  /** Handler `h` was already admitted with the same request. */
  ghost predicate CarriedOver(s: State, s': State, h: nat) {
    h in s'.front.handlers && Admitted(s'.front.handlers[h].stage) ==>
      h in s.front.handlers && Admitted(s.front.handlers[h].stage) && s'.front.handlers[h].req == s.front.handlers[h].req
  }

  lemma RouteCarries(s: State, e: Event, h: nat)
    requires Enabled(s, e) && !FromHandler(e)
    ensures CarriedOver(s, Step(s, e), h)
  {
    hide CreateTrack, FinishTrack, StartTake, StopTake, DeleteTrack, CommitFrame, Admitted;
  }

  lemma HandlerCarries(s: State, e: Event, h: nat)
    requires Enabled(s, e) && FromHandler(e) && !e.Admit?
    ensures CarriedOver(s, Step(s, e), h)
  {
    hide RecordingsAllocated, AdmitFrame, CommitFrame, CreateTrack, FinishTrack, StartTake, StopTake, DeleteTrack;
  }

  lemma AdmitBirth(s: State, e: Event, h: nat)
    requires Enabled(s, e) && e.Admit?
    ensures RecordingsAllocated(s.store)
    ensures CarriedOver(s, Step(s, e), h)
            || (e.h == h && h in s.front.handlers && h in Step(s, e).front.handlers && Admissible(s, s.front.handlers[h].req)
                && Step(s, e).front.handlers[h].req == s.front.handlers[h].req.(take := AdmittedTake(s.store, s.front.handlers[h].req)))
  {
    hide AdmittedTake;
  }

  /** The event that admitted the request a handler carries. */
  lemma {:induction false} AdmissionOf(states: seq<State>, events: seq<Event>, n: nat, h: nat) returns (j: nat)
    requires IsRun(states, events) && n <= |events|
    requires h in states[n].front.handlers && Admitted(states[n].front.handlers[h].stage)
    ensures j < n && events[j].Admit? && events[j].h == h && h in states[j].front.handlers
    ensures RecordingsAllocated(states[j].store) && Admissible(states[j], states[j].front.handlers[h].req)
    ensures var r := states[j].front.handlers[h].req;
            states[n].front.handlers[h].req == r.(take := AdmittedTake(states[j].store, r))
  {
    hide Inv, Step, Enabled, Admissible, AdmittedTake, Admitted;
    NobodyAtStart(states[0], h);
    var e := events[n - 1];
    if e.Admit? {
      AdmitBirth(states[n - 1], e, h);
    } else if FromHandler(e) {
      HandlerCarries(states[n - 1], e, h);
    } else {
      RouteCarries(states[n - 1], e, h);
    }
    if CarriedOver(states[n - 1], states[n], h) {
      j := AdmissionOf(states, events, n - 1, h);
    } else {
      j := n - 1;
    }
  }

  lemma NobodyAtStart(s: State, h: nat)
    requires Init(s)
    ensures h !in s.front.handlers
  {
  }

  /** A track that has left the recording phase never records again and gains no
      sample; once its directory is gone, no file of it is ever written again. */
  lemma {:induction false} ClosedForGood(states: seq<State>, events: seq<Event>, i: nat, j: nat, t: nat)
    requires IsRun(states, events) && i <= j <= |events| && t in states[i].store.objs
    ensures t in states[j].store.objs && states[j].store.objs[t].mode == states[i].store.objs[t].mode
    ensures states[i].store.objs[t].phase != Recording ==>
              states[j].store.objs[t].phase != Recording && states[j].store.objs[t].samples == states[i].store.objs[t].samples
    ensures t !in states[i].store.dirs ==>
              && t !in states[j].store.dirs
              && forall x :: (t, x) in states[j].store.poses ==>
                               (t, x) in states[i].store.poses && states[j].store.poses[(t, x)] == states[i].store.poses[(t, x)]
    decreases j
  {
    hide Inv, Step, Enabled, Init;
    if i < j {
      ClosedForGood(states, events, i, j - 1, t);
      RunInv(states, events, j - 1);
      EventAdds(states[j - 1], events[j - 1]);
    }
  }

  /** A take only gains frames that were admitted while it was the session's
      recording, stamped at or after its start, and committed while it records.
      In particular every such frame was admitted after the take was created. */
  lemma TakeIsolation(states: seq<State>, events: seq<Event>, i: nat, k: nat) returns (j: nat)
    requires IsRun(states, events) && i < |events|
    requires k in states[i].store.objs && states[i].store.objs[k].mode == Take
    requires k in states[i + 1].store.objs && states[i + 1].store.objs[k].samples != states[i].store.objs[k].samples
    ensures states[i].front.worker.Running?
    ensures var r := states[i].front.worker.req;
            && j < i && events[j].Admit? && events[j].h == r.handler && r.handler in states[j].front.handlers
            && states[j].front.handlers[r.handler].req == r.(take := states[j].front.handlers[r.handler].req.take)
            && Attached(states[j].store.objs, r.session, k) && Attached(states[i].store.objs, r.session, k)
            && states[i].store.objs[k].phase == Recording && r.stamp >= states[i].store.objs[k].start
            && states[i + 1].store.objs[k].samples == states[i].store.objs[k].samples + [r.stamp - states[i].store.objs[k].start]
    ensures forall m | 0 <= m <= |events| && k !in states[m].store.objs :: m < j
  {
    hide Inv, Step, Enabled, Init;
    RunInv(states, events, i);
    TakeGrowth(states[i], events[i], k);
    var r := states[i].front.worker.req;
    RunningFacts(states[i]);
    j := AdmissionOf(states, events, i, r.handler);
    forall m | 0 <= m <= |events| && k !in states[m].store.objs ensures m < j {
      if j <= m { ClosedForGood(states, events, j, m, k); }
    }
  }
}
