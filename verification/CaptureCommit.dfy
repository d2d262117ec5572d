/**
 The commit of a frame keeps the invariant: the session clock advances by at
 least the sampling gap, an offline sample or a take sample is filed with its
 pose, and a take whose save fails is left marked as dirty.
 */
module CaptureCommit {
  import opened CaptureModel
  import opened CaptureInvariant
  import opened CaptureStore
  import opened CaptureTracks

  /** The last step of a successful commit: the session clock moves. */
  function ClockTick(s: Store, t: nat, stamp: real): Store
    requires t in s.objs
  {
    s.(objs := s.objs[t := s.objs[t].(count := s.objs[t].count + 1, lastTime := stamp)])
  }

  // ----- offline sessions

  lemma OfflineSampleTimes(o: Track, stamp: real)
    requires OfflineOk(o) && o.phase == Recording && 1.0 <= o.hz <= 30.0 && o.count == |o.samples|
    requires o.count > 0 ==> stamp >= o.lastTime + Gap(o.hz)
    ensures OfflineOk(o.(samples := o.samples + [stamp], count := o.count + 1, lastTime := stamp))
  {
    SpacedAppend(o.samples, o.hz, stamp);
  }

  lemma OfflineOwners(objs: map<nat, Track>, tracks: set<nat>, t: nat, o: Track)
    requires RecordingOk(objs, tracks) && t in objs && objs[t].mode == Offline && objs[t].recording.None?
    requires o.mode == Offline && o.recording.None?
    ensures RecordingOk(objs[t := o], tracks)
  {
    var objs' := objs[t := o];
    forall j | j in objs' && objs'[j].recording.Some? ensures AttachedOk(objs', tracks, j) {
      assert AttachedOk(objs, tracks, j);
    }
    forall j | j in objs' && objs'[j].mode == Take && objs'[j].phase == Recording
      ensures exists x :: Attached(objs', x, j)
    {
      var x :| Attached(objs, x, j);
      assert Attached(objs', x, j);
    }
    forall t1, t2, j | Attached(objs', t1, j) && Attached(objs', t2, j) ensures t1 == t2 {
      assert Attached(objs, t1, j) && Attached(objs, t2, j);
    }
  }

  lemma OfflineSamples(objs: map<nat, Track>, tracks: set<nat>, dirty: set<nat>, t: nat, o: Track)
    requires SamplesOk(objs, dirty) && RecordingOk(objs, tracks) && t in objs && objs[t].mode == Offline && objs[t].recording.None?
    requires o.mode == Offline && o.recording.None? && OfflineOk(o)
    ensures SamplesOk(objs[t := o], dirty)
  {
    var objs' := objs[t := o];
    forall x: nat, k: nat | Attached(objs', x, k) && k in objs' && k !in dirty ensures TakeClockOk(objs'[x], objs'[k]) {
      assert Attached(objs, x, k) && AttachedOk(objs, tracks, x);
    }
  }

  lemma OfflineFiles(s: Store, t: nat, o: Track, stamp: real)
    requires FilesOk(s) && t in s.objs && s.objs[t].count == |s.objs[t].samples|
    requires (t, s.objs[t].count) in s.poses && s.poses[(t, s.objs[t].count)] == Intact(stamp)
    requires o.samples == s.objs[t].samples + [stamp]
    ensures FilesOk(s.(objs := s.objs[t := o]))
  {
  }

  /** A filed offline sample together with the clock it sets. */
  lemma OfflineCommitKeeps(s: Store, t: nat, stamp: real)
    requires StoreInv(s) && t in s.objs
    requires s.objs[t].mode == Offline && s.objs[t].phase == Recording && s.objs[t].count < MAX_TRACK_FRAMES && s.objs[t].hz > 0.0
    requires s.objs[t].count > 0 ==> stamp >= s.objs[t].lastTime + Gap(s.objs[t].hz)
    requires (t, s.objs[t].count) in s.poses && s.poses[(t, s.objs[t].count)] == Intact(stamp)
    ensures StoreInv(ClockTick(s.(objs := s.objs[t := s.objs[t].(samples := s.objs[t].samples + [stamp])]), t, stamp))
  {
    var old' := s.objs[t];
    var o := old'.(samples := old'.samples + [stamp], count := old'.count + 1, lastTime := stamp);
    var s' := s.(objs := s.objs[t := o]);
    assert TrackOk(old', t in s.tracks, t in s.dirs);
    OfflineSampleTimes(old', stamp);
    hide RecordingOk, SamplesOk, FilesOk, OfflineOk;
    OfflineOwners(s.objs, s.tracks, t, o);
    OfflineSamples(s.objs, s.tracks, s.dirty, t, o);
    OfflineFiles(s, t, o, stamp);
    assert LiveIn(s') == LiveIn(s);
    assert ClockTick(s.(objs := s.objs[t := old'.(samples := old'.samples + [stamp])]), t, stamp) == s';
  }

  // ----- live sessions

  lemma ClockTickOwners(objs: map<nat, Track>, tracks: set<nat>, t: nat, stamp: real)
    requires RecordingOk(objs, tracks) && t in objs && objs[t].mode == Live
    ensures RecordingOk(objs[t := objs[t].(count := objs[t].count + 1, lastTime := stamp)], tracks)
  {
    var objs' := objs[t := objs[t].(count := objs[t].count + 1, lastTime := stamp)];
    forall j | j in objs' && objs'[j].recording.Some? ensures AttachedOk(objs', tracks, j) {
      assert AttachedOk(objs, tracks, j);
    }
    forall j | j in objs' && objs'[j].mode == Take && objs'[j].phase == Recording
      ensures exists x :: Attached(objs', x, j)
    {
      var x :| Attached(objs, x, j);
      assert Attached(objs', x, j);
    }
    forall t1, t2, j | Attached(objs', t1, j) && Attached(objs', t2, j) ensures t1 == t2 {
      assert Attached(objs, t1, j) && Attached(objs, t2, j);
    }
  }

  lemma ClockTickSamples(objs: map<nat, Track>, tracks: set<nat>, dirty: set<nat>, t: nat, stamp: real)
    requires SamplesOk(objs, dirty) && RecordingOk(objs, tracks) && t in objs && objs[t].mode == Live
    requires objs[t].count > 0 ==> stamp >= objs[t].lastTime
    ensures SamplesOk(objs[t := objs[t].(count := objs[t].count + 1, lastTime := stamp)], dirty)
  {
    var objs' := objs[t := objs[t].(count := objs[t].count + 1, lastTime := stamp)];
    forall x: nat, k: nat | Attached(objs', x, k) && k in objs' && k !in dirty ensures TakeClockOk(objs'[x], objs'[k]) {
      assert Attached(objs, x, k) && AttachedOk(objs, tracks, x);
      assert TakeClockOk(objs[x], objs[k]);
    }
  }

  lemma ClockTickTracks(s: Store, t: nat, stamp: real)
    requires TracksOk(s.objs, s.tracks, s.dirs) && t in s.objs && s.objs[t].mode == Live
    ensures var s' := ClockTick(s, t, stamp); TracksOk(s'.objs, s'.tracks, s'.dirs) && LiveIn(s') == LiveIn(s)
  {
  }

  lemma ClockTickKeeps(s: Store, t: nat, stamp: real)
    requires StoreInv(s) && t in s.objs && s.objs[t].mode == Live
    requires s.objs[t].count > 0 ==> stamp >= s.objs[t].lastTime
    ensures StoreInv(ClockTick(s, t, stamp))
  {
    hide RecordingOk, SamplesOk, FilesOk, TracksOk, LiveIn;
    ClockTickOwners(s.objs, s.tracks, t, stamp);
    ClockTickSamples(s.objs, s.tracks, s.dirty, t, stamp);
    ClockTickTracks(s, t, stamp);
    ClockTickFiles(s, t, stamp);
  }

  lemma ClockTickFiles(s: Store, t: nat, stamp: real)
    requires FilesOk(s) && t in s.objs
    ensures FilesOk(ClockTick(s, t, stamp))
  {
    hide FilesOk;
    FilesFrame(s, ClockTick(s, t, stamp));
  }

  // ----- takes

  lemma AddSampleKept(s: Store, k: nat, time: real)
    requires k in s.objs && s.objs[k].mode == Take && s.objs[k].recording.None?
    ensures SessionsKept(s.objs, AddSample(s, k, time).objs)
  {
  }

  /** The state after a sample and its save, seen as: first the save, then the sample. */
  lemma SampleCommutes(s: Store, t: nat, k: nat, time: real, saveOk: bool)
    requires RecordingsAllocated(s) && Attached(s.objs, t, k) && t != k && k in s.objs && s.objs[k].mode == Take
    ensures FinishRecording(AddSample(s, k, time), t, Complete, saveOk).1 == FinishRecording(s, t, Complete, saveOk).1
    ensures FinishRecording(AddSample(s, k, time), t, Complete, saveOk).0 == AddSample(FinishRecording(s, t, Complete, saveOk).0, k, time)
  {
    var a := FinishRecording(AddSample(s, k, time), t, Complete, saveOk).0;
    var b := AddSample(FinishRecording(s, t, Complete, saveOk).0, k, time);
    assert a.objs == b.objs;
  }

  /** When the frame `stamp` may become the next sample of take `k` of session `t`. */
  ghost predicate TakeFits(s: Store, t: nat, k: nat, stamp: real) {
    && Attached(s.objs, t, k) && k in s.objs && s.objs[k].mode == Take && s.objs[k].phase == Recording && s.objs[k].hz > 0.0
    && (k !in s.dirty && |s.objs[k].samples| > 0 ==>
          stamp - s.objs[k].start >= s.objs[k].samples[|s.objs[k].samples| - 1] + Gap(s.objs[k].hz))
  }

  ghost predicate NobodyElse(s: Store, t: nat, k: nat) {
    k in s.objs && s.objs[k].recording.None? && forall x | Attached(s.objs, x, k) :: x == t
  }

  lemma OnlyOwner(s: Store, t: nat, k: nat)
    requires StoreInv(s) && Attached(s.objs, t, k) && k in s.objs && s.objs[k].mode == Take
    ensures NobodyElse(s, t, k)
  {
    assert TrackOk(s.objs[k], k in s.tracks, k in s.dirs);
  }

  /** The 1800th sample fits once the take has been ended. */
  lemma LastFits(s: Store, t: nat, k: nat, stamp: real, saveOk: bool)
    requires StoreInv(s) && RecordingsAllocated(s) && TakeFits(s, t, k, stamp) && t != k
    requires s.objs[k].count + 1 == MAX_TRACK_FRAMES
    requires (k, s.objs[k].count) in s.poses && s.poses[(k, s.objs[k].count)] == Intact(stamp - s.objs[k].start)
    ensures SampleFits(Closed(s, t, k, saveOk), k, stamp - s.objs[k].start)
    ensures var s2 := Closed(s, t, k, saveOk); s2.objs[k].mode == Take && s2.objs[k].recording.None?
  {
    hide TracksOk, RecordingOk, FilesOk, SamplesOk;
    OnlyOwner(s, t, k);
    FinishShape(s, t, Complete, saveOk);
    var s2 := Closed(s, t, k, saveOk);
    if k !in s2.dirty {
      forall x: nat ensures !Attached(s2.objs, x, k) {
        if x != t { assert !Attached(s.objs, x, k); }
      }
    }
  }

  lemma AddSampleWhole(s: Store, k: nat, time: real)
    requires StoreInv(s) && SampleFits(s, k, time) && s.objs[k].mode == Take && s.objs[k].recording.None?
    ensures StoreInv(AddSample(s, k, time)) && SessionsKept(s.objs, AddSample(s, k, time).objs)
    ensures AddSample(s, k, time).objs.Keys == s.objs.Keys
  {
    hide StoreInv, SessionsKept;
    AddSampleKeeps(s, k, time);
    AddSampleKept(s, k, time);
  }

  /** The state before the last sample joins: the take is ended, and dirty if its save failed. */
  function Closed(s: Store, t: nat, k: nat, saveOk: bool): Store
    requires t in s.objs && RecordingsAllocated(s)
  {
    var (s1, ok) := FinishRecording(s, t, Complete, saveOk);
    if ok then s1 else s1.(dirty := s1.dirty + {k})
  }

  lemma LastShape(s: Store, t: nat, k: nat, time: real, saveOk: bool)
    requires RecordingsAllocated(s) && Attached(s.objs, t, k) && t != k && k in s.objs && s.objs[k].mode == Take
    requires s.objs[k].count + 1 == MAX_TRACK_FRAMES
    ensures k in Closed(s, t, k, saveOk).objs
    ensures FileSample(s, t, k, time, saveOk).0 == AddSample(Closed(s, t, k, saveOk), k, time)
  {
    SampleCommutes(s, t, k, time, saveOk);
  }

  lemma ClosedKeeps(s: Store, t: nat, k: nat, saveOk: bool)
    requires StoreInv(s) && RecordingsAllocated(s) && t in s.objs
    ensures var s' := Closed(s, t, k, saveOk);
            StoreInv(s') && SessionsKept(s.objs, s'.objs) && s'.objs.Keys == s.objs.Keys
  {
    hide StoreInv, SessionsKept, FinishRecording;
    FinishKept(s, t, Complete, saveOk);
    DirtyKeeps(FinishRecording(s, t, Complete, saveOk).0, k);
  }

  lemma AppendLastKeeps(s: Store, t: nat, k: nat, stamp: real, saveOk: bool)
    requires StoreInv(s) && RecordingsAllocated(s) && TakeFits(s, t, k, stamp) && t != k
    requires s.objs[k].count + 1 == MAX_TRACK_FRAMES
    requires (k, s.objs[k].count) in s.poses && s.poses[(k, s.objs[k].count)] == Intact(stamp - s.objs[k].start)
    ensures var s' := FileSample(s, t, k, stamp - s.objs[k].start, saveOk).0;
            StoreInv(s') && SessionsKept(s.objs, s'.objs) && s'.objs.Keys == s.objs.Keys
  {
    hide StoreInv, SessionsKept, SampleFits, FileSample, Closed, AddSample;
    var time := stamp - s.objs[k].start;
    var s2 := Closed(s, t, k, saveOk);
    ClosedKeeps(s, t, k, saveOk);
    LastFits(s, t, k, stamp, saveOk);
    AddSampleWhole(s2, k, time);
    KeptTwice(s.objs, s2.objs, AddSample(s2, k, time).objs);
    LastShape(s, t, k, time, saveOk);
  }

  lemma AppendNextKeeps(s: Store, t: nat, k: nat, stamp: real, saveOk: bool)
    requires StoreInv(s) && RecordingsAllocated(s) && TakeFits(s, t, k, stamp)
    requires s.objs[k].count + 1 < MAX_TRACK_FRAMES
    requires (k, s.objs[k].count) in s.poses && s.poses[(k, s.objs[k].count)] == Intact(stamp - s.objs[k].start)
    requires FileSample(s, t, k, stamp - s.objs[k].start, saveOk).1 ==> s.objs[t].count > 0 && stamp <= s.objs[t].lastTime
    ensures var s' := FileSample(s, t, k, stamp - s.objs[k].start, saveOk).0;
            StoreInv(s') && SessionsKept(s.objs, s'.objs) && s'.objs.Keys == s.objs.Keys
  {
    hide StoreInv, SessionsKept, FinishRecording;
    var time := stamp - s.objs[k].start;
    var s1 := if Saves(AddSample(s, k, time), k, saveOk) then s else s.(dirty := s.dirty + {k});
    DirtyKeeps(s, k);
    OnlyOwner(s, t, k);
    assert SampleFits(s1, k, time);
    AddSampleWhole(s1, k, time);
  }

  lemma AppendKeeps(s: Store, t: nat, k: nat, stamp: real, io: CommitIo)
    requires StoreInv(s) && RecordingsAllocated(s) && TakeFits(s, t, k, stamp) && t != k
    requires AppendRecording(s, t, k, stamp, io).1 ==> s.objs[t].count > 0 && stamp <= s.objs[t].lastTime
    ensures var s' := AppendRecording(s, t, k, stamp, io).0;
            StoreInv(s') && SessionsKept(s.objs, s'.objs) && s'.objs.Keys == s.objs.Keys
  {
    hide StoreInv, SessionsKept, FinishRecording, FileSample;
    KeptSame(s.objs);
    var time := stamp - s.objs[k].start;
    var count := s.objs[k].count;
    SampleCount(s, k);
    if io.takeStorage == StorageUnreadable || (io.takeStorage == StorageFree && count == 0 && !(io.takePreviewOk && k in s.dirs)) {
    } else if io.takeStorage == StorageFull {
      FinishKept(s, t, Interrupted, io.takeSaveOk);
    } else {
      var s1 := WritePose(s, k, count, time, io.takePose);
      WritePoseKeeps(s, k, count, time, io.takePose);
      if PoseStored(s, k, io.takePose) {
        assert TakeFits(s1, t, k, stamp);
        if count + 1 == MAX_TRACK_FRAMES {
          AppendLastKeeps(s1, t, k, stamp, io.takeSaveOk);
        } else {
          AppendNextKeeps(s1, t, k, stamp, io.takeSaveOk);
        }
      }
    }
  }

  lemma SampleCount(s: Store, k: nat)
    requires StoreInv(s) && k in s.objs && s.objs[k].mode == Take && s.objs[k].phase == Recording
    ensures s.objs[k].count == |s.objs[k].samples| && s.objs[k].count < MAX_TRACK_FRAMES
  {
    assert TrackOk(s.objs[k], k in s.tracks, k in s.dirs);
  }

  // ----- the whole commit

  function RolledBack(objs: map<nat, Track>, objs': map<nat, Track>, t: nat): map<nat, Track>
    requires t in objs && t in objs'
  {
    objs'[t := objs'[t].(count := objs[t].count, lastTime := objs[t].lastTime)]
  }

  /** `objs'` is `objs` with one frame stamped `stamp` committed to session `t`. */
  ghost predicate Advanced(objs: map<nat, Track>, objs': map<nat, Track>, t: nat, stamp: real) {
    && t in objs && t in objs'
    && SessionsKept(objs, RolledBack(objs, objs', t))
    && objs'[t].count == objs[t].count + 1 && objs'[t].lastTime == stamp
  }

  lemma OfflineAdvanced(objs: map<nat, Track>, t: nat, stamp: real)
    requires t in objs
    ensures Advanced(objs, objs[t := objs[t].(samples := objs[t].samples + [stamp], count := objs[t].count + 1, lastTime := stamp)], t, stamp)
  {
  }

  lemma OfflineFiled(s: Store, t: nat, stamp: real)
    requires StoreInv(s) && t in s.objs
    requires s.objs[t].mode == Offline && s.objs[t].phase == Recording && s.objs[t].count < MAX_TRACK_FRAMES && s.objs[t].hz > 0.0
    requires s.objs[t].count > 0 ==> stamp >= s.objs[t].lastTime + Gap(s.objs[t].hz)
    requires (t, s.objs[t].count) in s.poses && s.poses[(t, s.objs[t].count)] == Intact(stamp)
    ensures var s' := ClockTick(s.(objs := s.objs[t := s.objs[t].(samples := s.objs[t].samples + [stamp])]), t, stamp);
            StoreInv(s') && Advanced(s.objs, s'.objs, t, stamp)
  {
    hide StoreInv, Advanced;
    OfflineCommitKeeps(s, t, stamp);
    OfflineAdvanced(s.objs, t, stamp);
    var s' := ClockTick(s.(objs := s.objs[t := s.objs[t].(samples := s.objs[t].samples + [stamp])]), t, stamp);
    assert s'.objs == s.objs[t := s.objs[t].(samples := s.objs[t].samples + [stamp], count := s.objs[t].count + 1, lastTime := stamp)];
  }

  lemma OfflineAdvances(s: Store, t: nat, stamp: real, io: CommitIo)
    requires StoreInv(s) && t in s.objs
    requires s.objs[t].mode == Offline && s.objs[t].phase == Recording && s.objs[t].count < MAX_TRACK_FRAMES && s.objs[t].hz > 0.0
    requires s.objs[t].count > 0 ==> stamp >= s.objs[t].lastTime + Gap(s.objs[t].hz)
    ensures var (s1, filed) := CommitOffline(s, t, stamp, io);
            && s1.objs.Keys == s.objs.Keys
            && (!filed ==> StoreInv(s1) && s1.objs == s.objs)
            && (filed ==> StoreInv(ClockTick(s1, t, stamp)) && Advanced(s.objs, ClockTick(s1, t, stamp).objs, t, stamp))
  {
    hide StoreInv, Advanced;
    OfflineCount(s, t);
    if FilesWritten(s, t, io) {
      WritePoseKeeps(s, t, s.objs[t].count, stamp, io.pose);
      if PoseStored(s, t, io.pose) && io.meshOk {
        OfflineFiled(WritePose(s, t, s.objs[t].count, stamp, io.pose), t, stamp);
      }
    }
  }

  lemma OfflineCount(s: Store, t: nat)
    requires StoreInv(s) && t in s.objs && s.objs[t].mode == Offline
    ensures s.objs[t].count == |s.objs[t].samples| && s.objs[t].recording.None?
  {
    assert TrackOk(s.objs[t], t in s.tracks, t in s.dirs);
  }

  lemma ClockFinishCommutes(s: Store, t: nat, k: nat, phase: Phase, time: real, saveOk: bool)
    requires RecordingsAllocated(s) && Attached(s.objs, t, k) && t != k && k in s.objs && s.objs[k].mode == Take
    ensures t in FinishRecording(s, t, phase, saveOk).0.objs
    ensures FinishRecording(ClockTick(s, t, time), t, phase, saveOk).1 == FinishRecording(s, t, phase, saveOk).1
    ensures FinishRecording(ClockTick(s, t, time), t, phase, saveOk).0 == ClockTick(FinishRecording(s, t, phase, saveOk).0, t, time)
  {
    var a := FinishRecording(ClockTick(s, t, time), t, phase, saveOk).0;
    var b := ClockTick(FinishRecording(s, t, phase, saveOk).0, t, time);
    assert a.objs == b.objs;
  }

  lemma ClockSampleCommutes(s: Store, t: nat, k: nat, stamp: real, time: real)
    requires t in s.objs && k in s.objs && t != k
    ensures AddSample(ClockTick(s, t, time), k, stamp) == ClockTick(AddSample(s, k, stamp), t, time)
  {
    assert AddSample(ClockTick(s, t, time), k, stamp).objs == ClockTick(AddSample(s, k, stamp), t, time).objs;
  }

  lemma ClockWriteCommutes(s: Store, t: nat, k: nat, index: nat, at: real, time: real, outcome: PoseWrite)
    requires t in s.objs
    ensures WritePose(ClockTick(s, t, time), k, index, at, outcome) == ClockTick(WritePose(s, k, index, at, outcome), t, time)
    ensures WritePose(s, k, index, at, outcome).objs == s.objs
  {
  }

  lemma ClockFileCommutes(s: Store, t: nat, k: nat, at: real, time: real, saveOk: bool)
    requires RecordingsAllocated(s) && Attached(s.objs, t, k) && t != k && k in s.objs && s.objs[k].mode == Take
    ensures FileSample(ClockTick(s, t, time), t, k, at, saveOk).1 == FileSample(s, t, k, at, saveOk).1
    ensures t in FileSample(s, t, k, at, saveOk).0.objs
    ensures FileSample(ClockTick(s, t, time), t, k, at, saveOk).0 == ClockTick(FileSample(s, t, k, at, saveOk).0, t, time)
  {
    hide FinishRecording;
    ClockSampleCommutes(s, t, k, at, time);
    ClockFinishCommutes(AddSample(s, k, at), t, k, Complete, time, saveOk);
  }

  /** The part of `AppendRecording` that writes the pose and files the sample. */
  function WriteAndFile(s: Store, t: nat, k: nat, stamp: real, io: CommitIo): (Store, bool)
    requires t in s.objs && k in s.objs && RecordingsAllocated(s)
  {
    var time := stamp - s.objs[k].start;
    var s1 := WritePose(s, k, s.objs[k].count, time, io.takePose);
    if PoseStored(s, k, io.takePose) then FileSample(s1, t, k, time, io.takeSaveOk) else (s1, false)
  }

  lemma ClockWriteAndFile(s: Store, t: nat, k: nat, stamp: real, time: real, io: CommitIo)
    requires RecordingsAllocated(s) && Attached(s.objs, t, k) && t != k && k in s.objs && s.objs[k].mode == Take
    ensures WriteAndFile(ClockTick(s, t, time), t, k, stamp, io).1 == WriteAndFile(s, t, k, stamp, io).1
    ensures t in WriteAndFile(s, t, k, stamp, io).0.objs
    ensures WriteAndFile(ClockTick(s, t, time), t, k, stamp, io).0 == ClockTick(WriteAndFile(s, t, k, stamp, io).0, t, time)
  {
    hide FinishRecording, WritePose, FileSample;
    var at := stamp - s.objs[k].start;
    ClockWriteCommutes(s, t, k, s.objs[k].count, at, time, io.takePose);
    ClockFileCommutes(WritePose(s, k, s.objs[k].count, at, io.takePose), t, k, at, time, io.takeSaveOk);
  }

  /** Filing a take sample and moving the session clock are independent. */
  lemma ClockCommutes(s: Store, t: nat, k: nat, stamp: real, time: real, io: CommitIo)
    requires RecordingsAllocated(s) && Attached(s.objs, t, k) && t != k && k in s.objs && s.objs[k].mode == Take
    ensures AppendRecording(ClockTick(s, t, time), t, k, stamp, io).1 == AppendRecording(s, t, k, stamp, io).1
    ensures t in AppendRecording(s, t, k, stamp, io).0.objs
    ensures AppendRecording(ClockTick(s, t, time), t, k, stamp, io).0 == ClockTick(AppendRecording(s, t, k, stamp, io).0, t, time)
  {
    hide FinishRecording, WriteAndFile;
    ClockFinishCommutes(s, t, k, Interrupted, time, io.takeSaveOk);
    ClockWriteAndFile(s, t, k, stamp, time, io);
    AppendParts(s, t, k, stamp, io);
    AppendParts(ClockTick(s, t, time), t, k, stamp, io);
    hide AppendRecording;
  }

  lemma AppendParts(s: Store, t: nat, k: nat, stamp: real, io: CommitIo)
    requires t in s.objs && k in s.objs && RecordingsAllocated(s)
    ensures AppendRecording(s, t, k, stamp, io)
            == if io.takeStorage == StorageUnreadable then (s, false)
               else if io.takeStorage == StorageFull then (FinishRecording(s, t, Interrupted, io.takeSaveOk).0, false)
               else if s.objs[k].count == 0 && !(io.takePreviewOk && k in s.dirs) then (s, false)
               else WriteAndFile(s, t, k, stamp, io)
  {
    hide FinishRecording, FileSample, WritePose;
  }

  lemma RollBack(objs: map<nat, Track>, objs': map<nat, Track>, t: nat, stamp: real)
    requires SessionsKept(objs, objs') && t in objs && objs[t].mode != Take
    ensures t in objs'
    ensures Advanced(objs, objs'[t := objs'[t].(count := objs'[t].count + 1, lastTime := stamp)], t, stamp)
  {
    assert TrackKept(objs[t], objs'[t]);
    var objs'' := objs'[t := objs'[t].(count := objs'[t].count + 1, lastTime := stamp)];
    assert RolledBack(objs, objs'', t) == objs';
  }

  /** A live commit, with or without a take to append to. */
  lemma LiveAdvances(s: Store, r: Request, io: CommitIo)
    requires StoreInv(s) && RecordingsAllocated(s) && RequestOk(s.objs, r)
    requires s.objs[r.session].mode == Live && s.objs[r.session].hz > 0.0
    requires s.objs[r.session].count > 0 ==> r.stamp >= s.objs[r.session].lastTime + Gap(s.objs[r.session].hz)
    ensures var appends := r.take.Some? && s.objs[r.take.value].phase == Recording;
            var (s2, ok) := if appends then AppendRecording(s, r.session, r.take.value, r.stamp, io) else (s, true);
            && s2.objs.Keys == s.objs.Keys
            && (!ok ==> StoreInv(s2) && SessionsKept(s.objs, s2.objs))
            && (ok ==> StoreInv(ClockTick(s2, r.session, r.stamp)) && Advanced(s.objs, ClockTick(s2, r.session, r.stamp).objs, r.session, r.stamp))
  {
    hide StoreInv, SessionsKept, Advanced, AppendRecording, TakeFits;
    var t := r.session;
    LiveRate(s, t);
    if r.take.Some? && s.objs[r.take.value].phase == Recording {
      var k := r.take.value;
      TakeSpacing(s, r);
      ClockCommutes(s, t, k, r.stamp, r.stamp, io);
      var (s2, ok) := AppendRecording(s, t, k, r.stamp, io);
      if ok {
        var s1 := ClockTick(s, t, r.stamp);
        ClockTickKeeps(s, t, r.stamp);
        AppendKeeps(s1, t, k, r.stamp, io);
        assert ClockTick(s2, t, r.stamp).objs.Keys == s2.objs.Keys;
        TickedAdvanced(s.objs, ClockTick(s2, t, r.stamp).objs, t, r.stamp);
      } else {
        AppendKeeps(s, t, k, r.stamp, io);
      }
    } else {
      ClockTickKeeps(s, t, r.stamp);
      KeptSame(s.objs);
      RollBack(s.objs, s.objs, t, r.stamp);
    }
  }

  lemma LiveRate(s: Store, t: nat)
    requires StoreInv(s) && t in s.objs
    ensures Gap(s.objs[t].hz) > 0.0
  {
    assert TrackOk(s.objs[t], t in s.tracks, t in s.dirs);
    GapPositive(s.objs[t].hz);
  }

  /** The next sample of a clean take is a full sampling gap after its last one. */
  lemma TakeSpacing(s: Store, r: Request)
    requires StoreInv(s) && RequestOk(s.objs, r) && r.take.Some? && s.objs[r.take.value].phase == Recording
    requires s.objs[r.session].mode == Live && s.objs[r.session].hz > 0.0
    requires s.objs[r.session].count > 0 ==> r.stamp >= s.objs[r.session].lastTime + Gap(s.objs[r.session].hz)
    ensures TakeFits(s, r.session, r.take.value, r.stamp) && r.session != r.take.value
    ensures TakeFits(ClockTick(s, r.session, r.stamp), r.session, r.take.value, r.stamp)
  {
    var k := r.take.value;
    assert Attached(s.objs, r.session, k) && AttachedOk(s.objs, s.tracks, r.session);
    if k !in s.dirty {
      assert TakeClockOk(s.objs[r.session], s.objs[k]);
    }
  }

  lemma TickedAdvanced(objs: map<nat, Track>, objs': map<nat, Track>, t: nat, stamp: real)
    requires t in objs && objs[t].mode != Take
    requires SessionsKept(objs[t := objs[t].(count := objs[t].count + 1, lastTime := stamp)], objs')
    ensures Advanced(objs, objs', t, stamp)
  {
    var ticked := objs[t := objs[t].(count := objs[t].count + 1, lastTime := stamp)];
    assert TrackKept(ticked[t], objs'[t]);
    var back := RolledBack(objs, objs', t);
    forall x | x in objs ensures x in back && TrackKept(objs[x], back[x]) {
      assert TrackKept(ticked[x], objs'[x]);
    }
    forall x, k | Attached(objs, x, k) && k in objs && k in back && back[k].phase == Recording ensures Attached(back, x, k) {
      assert Attached(ticked, x, k);
    }
  }
}
