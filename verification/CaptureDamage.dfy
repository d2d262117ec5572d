/**
 Agreement between the samples of a saved track and its pose files, on which the
 export depends: what a failed removal can break, and exactly when it does.
 */
module CaptureDamage {
  import opened Wrappers
  import opened CaptureModel
  import opened CaptureInvariant
  import opened CaptureSteps
  import opened CaptureRuns
  import opened CaptureLimits

  // ----- export of a saved track

  predicate InRange(time: real, start: real, end: real) {
    start <= time <= end
  }

  /** The loop of the export route: every selected sample must have its pose. */
  method ExportTimes(poses: map<(nat, nat), Pose>, t: nat, samples: seq<real>, start: real, end: real) returns (r: Result<seq<real>>)
    ensures r.Success? <==> forall i | 0 <= i < |samples| && InRange(samples[i], start, end) ::
                              (t, i) in poses && poses[(t, i)] == Intact(samples[i])
    ensures r.Success? ==> r.value == Selected(samples, start, end)
  {
    var times := [];
    var i := 0;
    while i < |samples|
      invariant 0 <= i <= |samples|
      invariant times == Selected(samples[..i], start, end)
      invariant forall j | 0 <= j < i && InRange(samples[j], start, end) :: (t, j) in poses && poses[(t, j)] == Intact(samples[j])
    {
      assert samples[..i + 1] == samples[..i] + [samples[i]];
      if InRange(samples[i], start, end) {
        if (t, i) !in poses || poses[(t, i)].Torn? {
          return Failure("invalid skeleton frame");
        }
        if poses[(t, i)].time != samples[i] {
          return Failure("skeleton timestamp mismatch");
        }
        times := times + [samples[i]];
      }
      i := i + 1;
    }
    assert samples[..i] == samples;
    return Success(times);
  }

  function Selected(samples: seq<real>, start: real, end: real): seq<real> {
    if samples == [] then [] else
    var last := samples[|samples| - 1];
    Selected(samples[..|samples| - 1], start, end) + (if InRange(last, start, end) then [last] else [])
  }

  // ----- one removal

  /** The samples of a track are in its pose files, in order. */
  ghost predicate Agrees(s: Store, t: nat) {
    t in s.objs && PosesOk(s.poses, t, s.objs[t].samples)
  }

  predicate Removable(s: Store, desks: map<nat, Desk>, id: nat) {
    && id in s.tracks && id in s.objs && id in desks
    && s.objs[id].mode != Live && s.objs[id].phase != Recording && !desks[id].busy
  }

  /** After a failed removal a track that agreed still agrees exactly if none of the
      lost files was the pose of a sample. */
  lemma RemovalAgreement(s: Store, desks: map<nat, Desk>, id: nat, lost: set<nat>)
    requires s.tracks <= s.objs.Keys <= desks.Keys && Removable(s, desks, id) && Agrees(s, id)
    ensures var s' := DeleteTrack(s, desks, id, false, lost);
            id in s'.tracks && s'.objs == s.objs && (Agrees(s', id) <==> forall i | 0 <= i < |s.objs[id].samples| :: i !in lost)
  {
    var poses := DeleteTrack(s, desks, id, false, lost).poses;
    if i :| 0 <= i < |s.objs[id].samples| && i in lost {
      assert (id, i) !in poses;
    }
  }

  /** A server that has loaded one finished track with one sample and its pose. */
  function OneTrack(maxJobs: nat): State {
    State(Store(map[0 := Track(Offline, 10.0, Complete, [0.0], 1, 0.0, None, 0.0)], {0}, {0}, map[(0, 0) := Intact(0.0)], {}, {}),
          Front(map[0 := NewDesk(0.0)], map[], false, false, None, Idle), 0, false, 0.0, maxJobs)
  }

  /** A run that breaks the agreement: its only event is a removal that fails after
      the pose of the only sample is gone. */
  lemma LostPose(maxJobs: nat) returns (s: State)
    ensures IsRun([OneTrack(maxJobs), s], [Delete(0, false, {0})])
    ensures 0 in s.store.tracks && Agrees(OneTrack(maxJobs).store, 0) && !Agrees(s.store, 0)
  {
    var s0 := OneTrack(maxJobs);
    GapPositive(10.0);
    assert LoadedOk(s0.store, 0);
    RemovalAgreement(s0.store, s0.front.desks, 0, {0});
    assert Enabled(s0, Delete(0, false, {0}));
    s := Step(s0, Delete(0, false, {0}));
  }

  // ----- events

  /** Event `e` removes the pose of a sample of track `t` without removing the track. */
  predicate Damages(s: State, e: Event, t: nat) {
    e.Delete? && !e.removeOk && e.id == t && Removable(s.store, s.front.desks, t) && LosesSample(s.store.objs[t], e.lost)
  }

  lemma CommitMarks(s: Store, r: Request, cancelled: bool, io: CommitIo)
    requires r.session in s.objs && (r.take.Some? ==> r.take.value in s.objs) && RecordingsAllocated(s)
    ensures CommitFrame(s, r, cancelled, io).0.damaged == s.damaged
  {
    hide AppendRecording, CommitOffline;
    OfflineMarks(s, r.session, r.stamp, io);
    if s.objs[r.session].mode != Offline && r.take.Some? {
      AppendMarks(s, r.session, r.take.value, r.stamp, io);
    }
    if r.take.Some? && CommitOffline(s, r.session, r.stamp, io).1 {
      AppendMarks(CommitOffline(s, r.session, r.stamp, io).0, r.session, r.take.value, r.stamp, io);
    }
  }

  lemma OfflineMarks(s: Store, t: nat, stamp: real, io: CommitIo)
    requires t in s.objs && RecordingsAllocated(s)
    ensures var s' := CommitOffline(s, t, stamp, io).0; s'.damaged == s.damaged && s'.objs.Keys == s.objs.Keys && RecordingsAllocated(s')
  {
  }

  lemma AppendMarks(s: Store, t: nat, k: nat, stamp: real, io: CommitIo)
    requires t in s.objs && k in s.objs && RecordingsAllocated(s)
    ensures AppendRecording(s, t, k, stamp, io).0.damaged == s.damaged
  {
  }

  lemma RouteMarks(s: State, e: Event)
    requires Enabled(s, e) && (e.Create? || e.Finish? || e.RecordStart? || e.RecordStop?)
    ensures Step(s, e).store.damaged == s.store.damaged
  {
    hide Sweep, FinishRecording;
    if e.Create? { SweepMarks(s.store, s.front.desks, s.now, e.createIo.order, e.createIo.saves); }
    if e.Finish? && e.session in s.store.tracks { FinishDirty(s.store, e.session, Complete, e.takeSaveOk); }
    if e.RecordStop? && e.session in s.store.tracks { FinishDirty(s.store, e.session, Complete, e.saveOk); }
  }

  lemma DeleteMarks(s: State, e: Event, t: nat)
    requires Enabled(s, e) && e.Delete?
    ensures t in Step(s, e).store.damaged <==> t in s.store.damaged || Damages(s, e, t)
  {
  }

  lemma CommitEventMarks(s: State, e: Event)
    requires Enabled(s, e) && e.Commit?
    ensures Step(s, e).store.damaged == s.store.damaged
  {
    hide CommitFrame;
    CommitMarks(s.store, s.front.worker.req, s.front.handlers[s.front.worker.req.handler].cancelled, e.io);
  }

  /** A track becomes damaged exactly by a failed removal that loses a sample's pose. */
  lemma DamageCause(s: State, e: Event, t: nat)
    requires Enabled(s, e)
    ensures t in Step(s, e).store.damaged <==> t in s.store.damaged || Damages(s, e, t)
  {
    hide Step, Enabled;
    if e.Create? || e.Finish? || e.RecordStart? || e.RecordStop? {
      RouteMarks(s, e);
    } else if e.Delete? {
      DeleteMarks(s, e, t);
    } else if e.Commit? {
      CommitEventMarks(s, e);
    } else {
      StoreUntouched(s, e);
    }
  }

  // ----- lost poses stay lost

  predicate PoseHeld(s: Store, s': Store, p: (nat, nat)) {
    p in s'.poses ==> p in s.poses && s'.poses[p] == s.poses[p]
  }

  /** No pose of a track that has stopped recording is written. */
  ghost predicate PosesClosed(s: Store, s': Store) {
    forall p: (nat, nat) | p.0 in s.objs && s.objs[p.0].phase != Recording :: PoseHeld(s, s', p)
  }

  lemma RoutePoses(s: State, e: Event)
    requires Inv(s) && Enabled(s, e)
    requires e.Create? || e.Finish? || e.RecordStart? || e.RecordStop?
    ensures Step(s, e).store.poses == s.store.poses
  {
    hide FrontInv, LinkInv, StoreInv, Sweep, FinishRecording;
    if e.Create? { SweepShallow(s.store, s.front.desks, s.now, e.createIo.order, e.createIo.saves); }
    if e.Finish? && e.session in s.store.tracks { FinishShallow(s.store, e.session, Complete, e.takeSaveOk); }
    if e.RecordStop? && e.session in s.store.tracks { FinishShallow(s.store, e.session, Complete, e.saveOk); }
  }

  lemma DeletePoses(s: State, e: Event)
    requires Enabled(s, e) && e.Delete?
    ensures PosesClosed(s.store, Step(s, e).store)
  {
  }

  lemma AppendPoses(s: Store, t: nat, k: nat, stamp: real, io: CommitIo)
    requires t in s.objs && k in s.objs && RecordingsAllocated(s) && s.objs[k].phase == Recording && t != k
    ensures PosesClosed(s, AppendRecording(s, t, k, stamp, io).0)
  {
    hide FinishRecording, FileSample;
    var time := stamp - s.objs[k].start;
    FinishShallow(s, t, Interrupted, io.takeSaveOk);
    FileShallow(WritePose(s, k, s.objs[k].count, time, io.takePose), t, k, time, io.takeSaveOk);
  }

  lemma OfflinePoses(s: Store, t: nat, stamp: real, io: CommitIo)
    requires t in s.objs && s.objs[t].phase == Recording
    ensures PosesClosed(s, CommitOffline(s, t, stamp, io).0)
  {
  }

  lemma CommitPoses(s: Store, r: Request, cancelled: bool, io: CommitIo)
    requires r.session in s.objs && RecordingsAllocated(s)
    requires r.take.Some? ==> r.take.value in s.objs && r.take.value != r.session && s.objs[r.session].mode == Live
    ensures PosesClosed(s, CommitFrame(s, r, cancelled, io).0)
  {
    hide AppendRecording, CommitOffline;
    if s.objs[r.session].phase == Recording && s.objs[r.session].mode == Offline {
      OfflinePoses(s, r.session, r.stamp, io);
    } else if r.take.Some? && s.objs[r.take.value].phase == Recording {
      AppendPoses(s, r.session, r.take.value, r.stamp, io);
    }
  }

  lemma CommitEventPoses(s: State, io: CommitIo)
    requires s.front.worker.Running? && Inv(s) && Enabled(s, Commit(io))
    ensures PosesClosed(s.store, Step(s, Commit(io)).store)
  {
    hide FrontInv, LinkInv, StoreInv, PosesClosed, CommitFrame;
    RunningFacts(s);
    var r := s.front.worker.req;
    if r.take.Some? { assert TakeOk(s.store.objs, r); }
    CommitPoses(s.store, r, s.front.handlers[r.handler].cancelled, io);
  }

  lemma EventPoses(s: State, e: Event)
    requires Inv(s) && Enabled(s, e)
    ensures PosesClosed(s.store, Step(s, e).store)
  {
    CommitRuns(s, e);
    hide Inv, Step, Enabled;
    if e.Create? || e.Finish? || e.RecordStart? || e.RecordStop? {
      RoutePoses(s, e);
    } else if e.Delete? {
      DeletePoses(s, e);
    } else if e.Commit? {
      CommitEventPoses(s, e.io);
    } else {
      StoreUntouched(s, e);
    }
  }

  // ----- whole runs

  /** A damaged track has stopped recording and lacks the pose of a sample. */
  ghost predicate LossesOk(s: Store) {
    forall t | t in s.damaged :: t in s.objs && s.objs[t].phase != Recording && !PosesOk(s.poses, t, s.objs[t].samples)
  }

  lemma LossStep(s: State, e: Event, t: nat)
    requires Inv(s) && Enabled(s, e) && LossesOk(s.store) && t in Step(s, e).store.damaged
    ensures var s' := Step(s, e).store;
            t in s'.objs && s'.objs[t].phase != Recording && !PosesOk(s'.poses, t, s'.objs[t].samples)
  {
    EventAdds(s, e);
    EventPoses(s, e);
    DamageCause(s, e, t);
    if Damages(s, e, t) { DamageLoses(s, e, t); }
    hide Inv, Step, Enabled, DirsKept, Damages;
    var s' := Step(s, e).store;
    if !Damages(s, e, t) {
      var i :| 0 <= i < |s.store.objs[t].samples| && !((t, i) in s.store.poses && s.store.poses[(t, i)] == Intact(s.store.objs[t].samples[i]));
      assert PoseHeld(s.store, s', (t, i));
      assert s'.objs[t].samples == s.store.objs[t].samples;
    }
  }

  lemma DamageLoses(s: State, e: Event, t: nat)
    requires Enabled(s, e) && Damages(s, e, t)
    ensures var s' := Step(s, e).store;
            t in s'.objs && s'.objs[t].phase != Recording && !PosesOk(s'.poses, t, s'.objs[t].samples)
  {
    var i :| 0 <= i < |s.store.objs[t].samples| && i in e.lost;
    assert (t, i) !in Step(s, e).store.poses;
  }

  lemma {:induction false} RunLosses(states: seq<State>, events: seq<Event>, n: nat)
    requires IsRun(states, events) && n <= |events|
    ensures LossesOk(states[n].store)
  {
    hide Inv, Step, Enabled;
    if n > 0 {
      hide Init;
      RunLosses(states, events, n - 1);
      RunInv(states, events, n - 1);
      forall t | t in states[n].store.damaged
        ensures t in states[n].store.objs && states[n].store.objs[t].phase != Recording
        ensures !PosesOk(states[n].store.poses, t, states[n].store.objs[t].samples)
      {
        LossStep(states[n - 1], events[n - 1], t);
      }
    } else {
      LossesAtStart(states[0]);
    }
  }

  lemma LossesAtStart(s: State)
    requires Init(s)
    ensures LossesOk(s.store)
    ensures forall t :: t in s.store.damaged <==> t in s.store.tracks && !Agrees(s.store, t)
  {
    forall t | t in s.store.objs ensures LoadedOk(s.store, t) {}
  }

  lemma {:induction false} DamageHistory(states: seq<State>, events: seq<Event>, n: nat, t: nat)
    requires IsRun(states, events) && n <= |events|
    ensures t in states[n].store.damaged
            <==> t in states[0].store.damaged || exists i | 0 <= i < n :: Damages(states[i], events[i], t)
  {
    hide Inv, Step, Enabled, Init, Damages;
    if n > 0 {
      DamageHistory(states, events, n - 1, t);
      DamageCause(states[n - 1], events[n - 1], t);
    }
  }

  /** In every reachable state the sample list of a saved track has the length its
      counter says.  It agrees with the pose files, so that no export fails on a
      missing or different pose, exactly if it did so when the server loaded the
      track (or the track is new) and no failed removal has lost the pose of a sample. */
  lemma SampleFileAgreement(states: seq<State>, events: seq<Event>, n: nat, t: nat)
    requires IsRun(states, events) && n <= |events|
    requires t in states[n].store.tracks && t in states[n].store.objs && states[n].store.objs[t].mode != Live
    ensures var o := states[n].store.objs[t]; o.count == |o.samples| <= MAX_TRACK_FRAMES
    ensures Agrees(states[n].store, t)
            <==> (t in states[0].store.tracks ==> Agrees(states[0].store, t))
                 && forall i | 0 <= i < n :: !Damages(states[i], events[i], t)
  {
    RunInv(states, events, n);
    RunLosses(states, events, n);
    DamageHistory(states, events, n, t);
    LossesAtStart(states[0]);
    assert TrackOk(states[n].store.objs[t], t in states[n].store.tracks, t in states[n].store.dirs);
    hide FrontInv, LinkInv, RecordingOk, SamplesOk, IsRun, Damages;
  }
}
