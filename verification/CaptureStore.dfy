/**
 The building blocks of the events that change tracks keep the invariant on
 tracks and files: ending a take, writing a pose, adding a sample, removing or
 adding a track.
 */
module CaptureStore {
  import opened Wrappers
  import opened CaptureModel
  import Sets
  import opened CaptureInvariant

  // ----- ending a take

  /** What ending a take of a session does to the heap. */
  function Ended(objs: map<nat, Track>, session: nat, k: nat, phase: Phase, saved: bool): map<nat, Track>
    requires session in objs && k in objs
  {
    objs[k := objs[k].(phase := phase)][session := objs[session].(recording := if saved then None else Some(k))]
  }

  lemma EndedOwners(objs: map<nat, Track>, tracks: set<nat>, session: nat, k: nat, phase: Phase, saved: bool)
    requires RecordingOk(objs, tracks) && Attached(objs, session, k) && phase != Recording && k in objs && k != session
    ensures RecordingOk(Ended(objs, session, k, phase, saved), tracks)
  {
    var objs' := Ended(objs, session, k, phase, saved);
    forall t | t in objs' && objs'[t].recording.Some? ensures AttachedOk(objs', tracks, t) {
      assert AttachedOk(objs, tracks, t);
      assert AttachedOk(objs, tracks, session);
    }
    forall j | j in objs' && objs'[j].mode == Take && objs'[j].phase == Recording
      ensures exists t :: Attached(objs', t, j)
    {
      var t :| Attached(objs, t, j);
      assert Attached(objs', t, j);
    }
    forall t1, t2, j | Attached(objs', t1, j) && Attached(objs', t2, j) ensures t1 == t2 {
      assert Attached(objs, t1, j) && Attached(objs, t2, j);
    }
  }

  lemma EndedSamples(objs: map<nat, Track>, dirty: set<nat>, session: nat, k: nat, phase: Phase, saved: bool)
    requires SamplesOk(objs, dirty) && Attached(objs, session, k) && k in objs && k != session
    requires objs[k].mode == Take && objs[session].mode == Live
    ensures SamplesOk(Ended(objs, session, k, phase, saved), dirty)
  {
    var objs' := Ended(objs, session, k, phase, saved);
    forall t, j | Attached(objs', t, j) && j in objs' && j !in dirty ensures TakeClockOk(objs'[t], objs'[j]) {
      assert Attached(objs, t, j);
    }
  }

  lemma FilesFrame(s: Store, s': Store)
    requires FilesOk(s) && s'.poses == s.poses && s'.damaged == s.damaged && s'.tracks <= s.tracks
    requires forall t | t in s'.objs && t in s'.tracks :: t in s.objs && s'.objs[t].samples == s.objs[t].samples
    ensures FilesOk(s')
  {
  }

  /** `FinishRecording` in one update, whether or not the save succeeded. */
  lemma FinishShape(s: Store, session: nat, phase: Phase, saveOk: bool)
    requires RecordingOk(s.objs, s.tracks) && RecordingsAllocated(s) && session in s.objs && s.objs[session].recording.Some?
    ensures var k := s.objs[session].recording.value;
            var (s', ok) := FinishRecording(s, session, phase, saveOk);
            && k in s.objs && k != session && s.objs[k].mode == Take && s.objs[session].mode == Live
            && s' == s.(objs := Ended(s.objs, session, k, phase, ok))
            && ok == (saveOk && k in s.dirs)
  {
    assert AttachedOk(s.objs, s.tracks, session);
    var k := s.objs[session].recording.value;
    var (s', ok) := FinishRecording(s, session, phase, saveOk);
    assert s'.objs == Ended(s.objs, session, k, phase, ok);
  }

  lemma EndedTracks(s: Store, session: nat, k: nat, phase: Phase, saved: bool)
    requires TracksOk(s.objs, s.tracks, s.dirs) && session in s.objs && k in s.objs && k != session
    requires phase != Recording && s.objs[k].mode == Take && s.objs[session].mode == Live
    ensures var s' := s.(objs := Ended(s.objs, session, k, phase, saved));
            TracksOk(s'.objs, s'.tracks, s'.dirs) && LiveIn(s') == LiveIn(s)
  {
  }

  lemma EndedKeeps(s: Store, session: nat, k: nat, phase: Phase, saved: bool)
    requires StoreInv(s) && Attached(s.objs, session, k) && k in s.objs && k != session && phase != Recording
    requires s.objs[k].mode == Take && s.objs[session].mode == Live
    ensures StoreInv(s.(objs := Ended(s.objs, session, k, phase, saved)))
  {
    hide FilesOk, SamplesOk, RecordingOk, TracksOk, LiveIn;
    EndedTracks(s, session, k, phase, saved);
    EndedOwners(s.objs, s.tracks, session, k, phase, saved);
    EndedSamples(s.objs, s.dirty, session, k, phase, saved);
    FilesFrame(s, s.(objs := Ended(s.objs, session, k, phase, saved)));
  }

  lemma FinishKeeps(s: Store, session: nat, phase: Phase, saveOk: bool)
    requires StoreInv(s) && RecordingsAllocated(s) && session in s.objs && phase != Recording
    ensures StoreInv(FinishRecording(s, session, phase, saveOk).0)
    ensures FinishRecording(s, session, phase, saveOk).1 ==> FinishRecording(s, session, phase, saveOk).0.objs[session].recording.None?
  {
    Owners(s);
    hide StoreInv, RecordingOk;
    if s.objs[session].recording.Some? {
      FinishShape(s, session, phase, saveOk);
      EndedKeeps(s, session, s.objs[session].recording.value, phase, FinishRecording(s, session, phase, saveOk).1);
    }
  }

  lemma Owners(s: Store)
    requires StoreInv(s)
    ensures RecordingOk(s.objs, s.tracks)
  {
  }

  // ----- pose files and samples

  /** A pose written behind the last sample disturbs no saved pose. */
  lemma WritePoseKeeps(s: Store, t: nat, index: nat, time: real, outcome: PoseWrite)
    requires StoreInv(s) && t in s.objs && index >= |s.objs[t].samples|
    ensures StoreInv(WritePose(s, t, index, time, outcome))
  {
    hide TracksOk, RecordingOk, SamplesOk;
    var s' := WritePose(s, t, index, time, outcome);
    assert LiveIn(s') == LiveIn(s);
  }

  lemma DirtyKeeps(s: Store, k: nat)
    requires StoreInv(s)
    ensures StoreInv(s.(dirty := s.dirty + {k}))
  {
    hide TracksOk, RecordingOk, FilesOk;
    var s' := s.(dirty := s.dirty + {k});
    assert LiveIn(s') == LiveIn(s);
    assert FilesOk(s') by { FilesFrame(s, s'); }
  }

  lemma SpacedAppend(samples: seq<real>, hz: real, time: real)
    requires Spaced(samples, hz) && 1.0 <= hz <= 30.0
    requires |samples| > 0 ==> time >= samples[|samples| - 1] + Gap(hz)
    ensures Spaced(samples + [time], hz)
  {
    GapPositive(hz);
    var all := samples + [time];
    forall i, j | 0 <= i < j < |all| ensures all[j] >= all[i] + Gap(hz) {
      if j == |samples| && i < |samples| - 1 {
        assert samples[|samples| - 1] >= samples[i] + Gap(hz);
      }
    }
  }

  /** When a sample may be added to a take. */
  ghost predicate SampleFits(s: Store, k: nat, time: real) {
    && k in s.objs && s.objs[k].mode == Take
    && s.objs[k].hz > 0.0 && s.objs[k].count < MAX_TRACK_FRAMES
    && (s.objs[k].phase == Recording ==> s.objs[k].count + 1 < MAX_TRACK_FRAMES)
    && (k in s.damaged || ((k, s.objs[k].count) in s.poses && s.poses[(k, s.objs[k].count)] == Intact(time)))
    && (k !in s.dirty && |s.objs[k].samples| > 0 ==> time >= s.objs[k].samples[|s.objs[k].samples| - 1] + Gap(s.objs[k].hz))
    && (k !in s.dirty ==> forall t | Attached(s.objs, t, k) :: s.objs[t].count > 0 && time + s.objs[k].start <= s.objs[t].lastTime)
  }

  lemma AddSampleOwners(s: Store, k: nat, time: real)
    requires RecordingOk(s.objs, s.tracks) && k in s.objs && s.objs[k].mode == Take && s.objs[k].recording.None?
    ensures RecordingOk(AddSample(s, k, time).objs, s.tracks)
  {
    var objs' := AddSample(s, k, time).objs;
    forall t | t in objs' && objs'[t].recording.Some? ensures AttachedOk(objs', s.tracks, t) {
      assert AttachedOk(s.objs, s.tracks, t);
    }
    forall j | j in objs' && objs'[j].mode == Take && objs'[j].phase == Recording
      ensures exists t :: Attached(objs', t, j)
    {
      var t :| Attached(s.objs, t, j);
      assert Attached(objs', t, j);
    }
    forall t1, t2, j | Attached(objs', t1, j) && Attached(objs', t2, j) ensures t1 == t2 {
      assert Attached(s.objs, t1, j) && Attached(s.objs, t2, j);
    }
  }

  lemma AddSampleTimes(s: Store, k: nat, time: real)
    requires SamplesOk(s.objs, s.dirty) && RecordingOk(s.objs, s.tracks) && SampleFits(s, k, time)
    requires s.objs[k].recording.None? && 1.0 <= s.objs[k].hz <= 30.0
    ensures SamplesOk(AddSample(s, k, time).objs, s.dirty)
  {
    var objs' := AddSample(s, k, time).objs;
    if k !in s.dirty {
      SpacedAppend(s.objs[k].samples, s.objs[k].hz, time);
    }
    forall t, j | Attached(objs', t, j) && j in objs' && j !in s.dirty ensures TakeClockOk(objs'[t], objs'[j]) {
      assert Attached(s.objs, t, j);
      assert AttachedOk(s.objs, s.tracks, t);
    }
  }

  lemma AddSampleFiles(s: Store, k: nat, time: real)
    requires FilesOk(s) && SampleFits(s, k, time) && s.objs[k].count == |s.objs[k].samples|
    ensures FilesOk(AddSample(s, k, time))
  {
  }

  lemma AddSampleKeeps(s: Store, k: nat, time: real)
    requires StoreInv(s) && SampleFits(s, k, time)
    ensures StoreInv(AddSample(s, k, time))
  {
    var s' := AddSample(s, k, time);
    assert TrackOk(s.objs[k], k in s.tracks, k in s.dirs);
    hide FilesOk, SamplesOk, RecordingOk;
    AddSampleOwners(s, k, time);
    AddSampleTimes(s, k, time);
    AddSampleFiles(s, k, time);
    assert LiveIn(s') == LiveIn(s);
  }

  // ----- removing and adding tracks

  lemma LiveShrinks(s: Store, s': Store)
    requires forall t | t in LiveIn(s') :: t in LiveIn(s)
    ensures |LiveIn(s')| <= |LiveIn(s)|
  {
    Sets.SubsetSize(LiveIn(s'), LiveIn(s));
  }

  /** A live session without a take may leave the table. */
  lemma DropSessionKeeps(s: Store, t: nat)
    requires StoreInv(s) && t in s.objs && s.objs[t].mode == Live && s.objs[t].recording.None?
    ensures StoreInv(s.(tracks := s.tracks - {t}))
  {
    var s' := s.(tracks := s.tracks - {t});
    assert RecordingOk(s'.objs, s'.tracks) by {
      hide TracksOk, FilesOk, SamplesOk;
      forall j | j in s.objs && s.objs[j].recording.Some? ensures AttachedOk(s'.objs, s'.tracks, j) {
        assert AttachedOk(s.objs, s.tracks, j);
      }
    }
    LiveShrinks(s, s');
  }

  lemma EndPhaseOwners(objs: map<nat, Track>, tracks: set<nat>, t: nat)
    requires RecordingOk(objs, tracks) && t in objs && objs[t].mode != Take && objs[t].recording.None?
    ensures RecordingOk(objs[t := objs[t].(phase := Complete)], tracks)
  {
    var objs' := objs[t := objs[t].(phase := Complete)];
    forall j | j in objs' && objs'[j].recording.Some? ensures AttachedOk(objs', tracks, j) {
      assert AttachedOk(objs, tracks, j);
    }
    forall j | j in objs' && objs'[j].mode == Take && objs'[j].phase == Recording
      ensures exists x :: Attached(objs', x, j)
    {
      var x :| Attached(objs, x, j);
      assert Attached(objs', x, j);
    }
    forall t1, t2, j | Attached(objs', t1, j) && Attached(objs', t2, j) ensures t1 == t2 {
      assert Attached(objs, t1, j) && Attached(objs, t2, j);
    }
  }

  lemma EndPhaseSamples(objs: map<nat, Track>, dirty: set<nat>, t: nat)
    requires SamplesOk(objs, dirty) && t in objs && objs[t].mode != Take
    ensures SamplesOk(objs[t := objs[t].(phase := Complete)], dirty)
  {
    var objs' := objs[t := objs[t].(phase := Complete)];
    forall x, k | Attached(objs', x, k) && k in objs' && k !in dirty ensures TakeClockOk(objs'[x], objs'[k]) {
      assert Attached(objs, x, k);
    }
  }

  lemma EndPhaseTracks(s: Store, t: nat)
    requires TracksOk(s.objs, s.tracks, s.dirs) && t in s.objs && s.objs[t].mode != Take
    ensures var s' := s.(objs := s.objs[t := s.objs[t].(phase := Complete)]);
            TracksOk(s'.objs, s'.tracks, s'.dirs) && LiveIn(s') == LiveIn(s)
  {
  }

  lemma EndPhaseKeeps(s: Store, t: nat)
    requires StoreInv(s) && t in s.objs && s.objs[t].mode != Take && s.objs[t].recording.None?
    ensures StoreInv(s.(objs := s.objs[t := s.objs[t].(phase := Complete)]))
  {
    hide TracksOk, RecordingOk, FilesOk, SamplesOk, LiveIn;
    EndPhaseOwners(s.objs, s.tracks, t);
    EndPhaseSamples(s.objs, s.dirty, t);
    EndPhaseTracks(s, t);
    FilesFrame(s, s.(objs := s.objs[t := s.objs[t].(phase := Complete)]));
  }
}
