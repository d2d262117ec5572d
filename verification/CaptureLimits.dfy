/**
 The spacing of the samples inside a take, which a failed save can break: exactly
 when a commit leaves its stamp usable again, and which commits those are.
 */
module CaptureLimits {
  import opened Wrappers
  import opened CaptureModel
  import opened CaptureInvariant
  import opened CaptureStore
  import opened CaptureTracks
  import opened CaptureCommit
  import opened CaptureRuns
  import opened CaptureSafety

  // ----- spacing inside a take

  /** The sampling rule would let a frame stamped `stamp` in again. */
  predicate StampReusable(o: Track, stamp: real) {
    o.hz > 0.0 && (o.count > 0 ==> stamp - o.lastTime >= Gap(o.hz))
  }

  /** A commit that files a take sample without committing the frame: the save failed. */
  lemma UnsavedSample(s: Store, t: nat, k: nat, time: real, saveOk: bool)
    requires StoreInv(s) && RecordingsAllocated(s) && Attached(s.objs, t, k) && k in s.objs && t != k
    requires s.objs[k].mode == Take && s.objs[k].phase == Recording
    ensures FileSample(s, t, k, time, saveOk).1 == saveOk
    ensures !saveOk ==> k in FileSample(s, t, k, time, saveOk).0.dirty
    ensures saveOk ==> FileSample(s, t, k, time, saveOk).0.dirty == s.dirty
  {
    assert TrackOk(s.objs[k], k in s.tracks, k in s.dirs);
    hide StoreInv;
  }

  /** A commit either files the sample of its take or leaves the samples alone. */
  lemma AppendOutcome(s: Store, t: nat, k: nat, stamp: real, io: CommitIo)
    requires StoreInv(s) && RecordingsAllocated(s) && Attached(s.objs, t, k) && k in s.objs && t != k
    requires s.objs[k].mode == Take && s.objs[k].phase == Recording
    ensures var (s', ok) := AppendRecording(s, t, k, stamp, io);
            && k in s'.objs
            && (s'.objs[k].samples != s.objs[k].samples ==> ok == io.takeSaveOk)
            && (s'.objs[k].samples == s.objs[k].samples ==> !ok && s'.dirty == s.dirty)
            && (s'.objs[k].samples != s.objs[k].samples && io.takeSaveOk ==> s'.dirty == s.dirty)
            && (s'.objs[k].samples != s.objs[k].samples && !io.takeSaveOk ==> k in s'.dirty)
  {
    hide StoreInv, FinishRecording, FileSample;
    SampleCount(s, k);
    var time := stamp - s.objs[k].start;
    var s1 := WritePose(s, k, s.objs[k].count, time, io.takePose);
    WritePoseKeeps(s, k, s.objs[k].count, time, io.takePose);
    UnsavedSample(s1, t, k, time, io.takeSaveOk);
    FileGrows(s1, t, k, time, io.takeSaveOk);
    FinishShallow(s, t, Interrupted, io.takeSaveOk);
    FinishDirty(s, t, Interrupted, io.takeSaveOk);
  }

  lemma FinishDirty(s: Store, t: nat, phase: Phase, saveOk: bool)
    requires t in s.objs && RecordingsAllocated(s)
    ensures FinishRecording(s, t, phase, saveOk).0.dirty == s.dirty && FinishRecording(s, t, phase, saveOk).0.damaged == s.damaged
  {
  }

  lemma FileGrows(s: Store, t: nat, k: nat, time: real, saveOk: bool)
    requires t in s.objs && k in s.objs && RecordingsAllocated(s) && t != k
    ensures k in FileSample(s, t, k, time, saveOk).0.objs
    ensures FileSample(s, t, k, time, saveOk).0.objs[k].samples == s.objs[k].samples + [time]
  {
    hide FinishRecording;
    FinishShallow(AddSample(s, k, time), t, Complete, saveOk);
  }

  /** When the commit of a live frame extends its take, the same timestamp can be
      submitted again exactly if saving the take failed. */
  lemma SaveDecidesSpacing(s: Store, r: Request, io: CommitIo)
    requires StoreInv(s) && RecordingsAllocated(s) && RequestOk(s.objs, r) && r.take.Some?
    requires s.objs[r.session].mode == Live && s.objs[r.session].phase == Recording && s.objs[r.take.value].phase == Recording
    requires StampReusable(s.objs[r.session], r.stamp)
    requires var s' := CommitFrame(s, r, false, io).0;
             r.take.value in s'.objs && s'.objs[r.take.value].samples != s.objs[r.take.value].samples
    ensures var s' := CommitFrame(s, r, false, io).0;
            r.session in s'.objs && (StampReusable(s'.objs[r.session], r.stamp) <==> !io.takeSaveOk)
  {
    var t, k := r.session, r.take.value;
    assert Attached(s.objs, t, k) && TrackOk(s.objs[t], t in s.tracks, t in s.dirs);
    GapPositive(s.objs[t].hz);
    AppendOutcome(s, t, k, r.stamp, io);
    LiveAdvances(s, r, io);
    hide StoreInv, AppendRecording, SessionsKept;
    var (s2, ok) := AppendRecording(s, t, k, r.stamp, io);
    if ok {
      ClockMoved(s.objs, ClockTick(s2, t, r.stamp).objs, t, r.stamp, t);
    } else {
      ClockUnmoved(s.objs, s2.objs, t);
    }
  }

  /** A take none of whose saves failed has spaced samples in every reachable state. */
  lemma CleanTakeSpaced(states: seq<State>, events: seq<Event>, n: nat, k: nat)
    requires IsRun(states, events) && n <= |events|
    requires k in states[n].store.objs && states[n].store.objs[k].mode == Take && k !in states[n].store.dirty
    ensures var o := states[n].store.objs[k];
            o.hz > 0.0 && forall i, j | 0 <= i < j < |o.samples| :: o.samples[j] >= o.samples[i] + Gap(o.hz)
  {
    RunInv(states, events, n);
    hide FrontInv, LinkInv, TracksOk, RecordingOk, FilesOk, IsRun;
    assert Spaced(states[n].store.objs[k].samples, states[n].store.objs[k].hz);
  }

  const UNSAVED := CommitIo(true, true, true, PoseWritten, true, StorageFree, true, PoseWritten, false, true)
  const SAVED := CommitIo(true, true, true, PoseWritten, true, StorageFree, true, PoseWritten, true, true)

  /** A live session 0 at 10 Hz with an empty take 1. */
  const RECORDING := Store(
    map[0 := Track(Live, 10.0, Recording, [], 0, 0.0, Some(1), 0.0), 1 := Track(Take, 10.0, Recording, [], 0, 0.0, None, 0.0)],
    {0, 1}, {1}, map[], {}, {})

  /** The store after a commit that files the frame's sample without saving it. */
  const UNSAVED_STORE := Store(
    map[0 := Track(Live, 10.0, Recording, [], 0, 0.0, Some(1), 0.0), 1 := Track(Take, 10.0, Recording, [0.5], 1, 0.0, None, 0.0)],
    {0, 1}, {1}, map[(1, 0) := Intact(0.5)], {1}, {})

  lemma FirstCommit(r: Request)
    requires r == Request(r.handler, 0, Some(1), 0.5)
    ensures RecordingsAllocated(RECORDING) && CommitFrame(RECORDING, r, false, UNSAVED).0 == UNSAVED_STORE
  {
    var s := CommitFrame(RECORDING, r, false, UNSAVED).0;
    assert s.objs[1].samples == [0.5];
    assert s.objs == UNSAVED_STORE.objs;
    assert s.poses == UNSAVED_STORE.poses;
  }

  /** The same frame again: its sample is filed a second time. */
  lemma SecondCommit(r: Request)
    requires r == Request(r.handler, 0, Some(1), 0.5)
    ensures RecordingsAllocated(UNSAVED_STORE)
    ensures var s := CommitFrame(UNSAVED_STORE, r, false, SAVED).0;
            && s.objs.Keys == {0, 1} && s.tracks == {0, 1} && RecordingsAllocated(s)
            && s.objs[1].samples == [0.5, 0.5] && s.objs[1].mode == Take && s.objs[1].hz == 10.0
  {
    var s := CommitFrame(UNSAVED_STORE, r, false, SAVED).0;
    assert s.objs[1].samples == [0.5, 0.5];
  }

  lemma NotSpaced()
    ensures !Spaced([0.5, 0.5], 10.0)
  {
    GapPositive(10.0);
    var times := [0.5, 0.5];
    assert !(times[1] >= times[0] + Gap(10.0));
  }

  // ----- how a take becomes dirty

  lemma SweepMarks(s: Store, desks: map<nat, Desk>, now: real, order: seq<nat>, saves: seq<bool>)
    requires |order| == |saves| && RecordingsAllocated(s)
    requires forall i | 0 <= i < |order| :: order[i] in s.objs && order[i] in desks
    ensures var s' := Sweep(s, desks, now, order, saves).0; s'.damaged == s.damaged && s'.dirty == s.dirty
    decreases |order|
  {
  }

  /** The file outcomes under which a commit files a take sample that it cannot save. */
  predicate SampleUnsaved(take: Track, io: CommitIo) {
    && io.takeStorage == StorageFree && (take.count == 0 ==> io.takePreviewOk)
    && io.takePose == PoseWritten && !io.takeSaveOk
  }

  /** Event `e` commits a frame whose sample joins take `k` and whose save fails. */
  predicate LosesSave(s: State, e: Event, k: nat) {
    && e.Commit? && s.front.worker.Running?
    && var r := s.front.worker.req;
    && r.handler in s.front.handlers && !s.front.handlers[r.handler].cancelled
    && r.take == Some(k) && k in s.store.objs && s.store.objs[k].phase == Recording
    && r.session in s.store.objs && s.store.objs[r.session].phase == Recording
    && SampleUnsaved(s.store.objs[k], e.io)
  }

  lemma FileDirty(s: Store, t: nat, k: nat, time: real, saveOk: bool)
    requires t in s.objs && k in s.objs && RecordingsAllocated(s) && t != k && k in s.dirs && s.objs[t].recording == Some(k)
    requires s.objs[k].mode == Take
    ensures FileSample(s, t, k, time, saveOk).0.dirty == s.dirty + if saveOk then {} else {k}
  {
  }

  lemma AppendDirty(s: Store, t: nat, k: nat, stamp: real, io: CommitIo)
    requires t in s.objs && k in s.objs && RecordingsAllocated(s) && t != k && k in s.dirs && s.objs[t].recording == Some(k)
    requires s.objs[k].mode == Take
    ensures AppendRecording(s, t, k, stamp, io).0.dirty == s.dirty + if SampleUnsaved(s.objs[k], io) then {k} else {}
  {
    hide FileSample, FinishRecording;
    var time := stamp - s.objs[k].start;
    FinishDirty(s, t, Interrupted, io.takeSaveOk);
    FileDirty(WritePose(s, k, s.objs[k].count, time, io.takePose), t, k, time, io.takeSaveOk);
  }

  lemma OfflineDirty(s: Store, t: nat, stamp: real, io: CommitIo)
    requires t in s.objs
    ensures CommitOffline(s, t, stamp, io).0.dirty == s.dirty
  {
  }

  lemma CommitDirty(s: Store, r: Request, cancelled: bool, io: CommitIo)
    requires StoreInv(s) && RecordingsAllocated(s) && RequestOk(s.objs, r)
    ensures CommitFrame(s, r, cancelled, io).0.dirty
            == s.dirty + if !cancelled && s.objs[r.session].phase == Recording && r.take.Some?
                            && s.objs[r.take.value].phase == Recording && SampleUnsaved(s.objs[r.take.value], io)
                         then {r.take.value} else {}
  {
    if r.take.Some? {
      var k := r.take.value;
      assert TrackOk(s.objs[k], k in s.tracks, k in s.dirs);
    }
    hide StoreInv, AppendRecording, CommitOffline, SampleUnsaved;
    OfflineDirty(s, r.session, r.stamp, io);
    if r.take.Some? && s.objs[r.take.value].phase == Recording {
      AppendDirty(s, r.session, r.take.value, r.stamp, io);
    }
  }

  lemma RouteDirty(s: State, e: Event)
    requires Enabled(s, e) && (e.Create? || e.Finish? || e.RecordStart? || e.RecordStop? || e.Delete?)
    ensures Step(s, e).store.dirty == s.store.dirty
  {
    hide Sweep, FinishRecording;
    if e.Create? { SweepMarks(s.store, s.front.desks, s.now, e.createIo.order, e.createIo.saves); }
    if e.Finish? && e.session in s.store.tracks { FinishDirty(s.store, e.session, Complete, e.takeSaveOk); }
    if e.RecordStop? && e.session in s.store.tracks { FinishDirty(s.store, e.session, Complete, e.saveOk); }
  }

  lemma CommitStore(s: State, io: CommitIo)
    requires Enabled(s, Commit(io)) && s.front.worker.Running?
    ensures var r := s.front.worker.req;
            && r.session in s.store.objs && r.handler in s.front.handlers && (r.take.Some? ==> r.take.value in s.store.objs)
            && RecordingsAllocated(s.store)
            && Step(s, Commit(io)).store == CommitFrame(s.store, r, s.front.handlers[r.handler].cancelled, io).0
  {
    hide CommitFrame;
  }

  lemma StoreHolds(s: State)
    requires Inv(s)
    ensures StoreInv(s.store)
  {
    hide StoreInv, LinkInv, FrontInv;
  }

  lemma CommitEventDirty(s: State, e: Event, k: nat)
    requires s.front.worker.Running? && Inv(s) && Enabled(s, e) && e.Commit?
    ensures k in Step(s, e).store.dirty <==> k in s.store.dirty || LosesSave(s, e, k)
  {
    hide Inv, StoreInv, CommitFrame, SampleUnsaved, Step, Enabled, RequestOk, RecordingsAllocated;
    RunningTake(s);
    StoreHolds(s);
    CommitStore(s, e.io);
    CommitDirty(s.store, s.front.worker.req, s.front.handlers[s.front.worker.req.handler].cancelled, e.io);
  }

  /** A take becomes dirty exactly by a commit that files a sample of it and fails to
      save it. */
  lemma DirtyCause(s: State, e: Event, k: nat)
    requires Inv(s) && Enabled(s, e)
    ensures k in Step(s, e).store.dirty <==> k in s.store.dirty || LosesSave(s, e, k)
  {
    CommitRuns(s, e);
    hide Inv, Step, Enabled;
    if e.Create? || e.Finish? || e.RecordStart? || e.RecordStop? || e.Delete? {
      RouteDirty(s, e);
    } else if e.Commit? {
      CommitEventDirty(s, e, k);
    } else {
      StoreUntouched(s, e);
    }
  }
}
