/**
 What a recording is for: the frames that a browser sends at the session's pace are
 filed, every one, in order, with its time and its pose.
 */
module CaptureRecording {
  import opened Wrappers
  import opened CaptureModel
  import opened CaptureLimits
  import opened CaptureRepeat

  // ----- the commit of one frame, whatever becomes of the file operations

  /** The take after one more frame: the 1800th ends it. */
  function Longer(o: Track, time: real): Track {
    o.(samples := o.samples + [time], count := o.count + 1, phase := if o.count + 1 >= 1800 then Complete else o.phase)
  }

  function Later(o: Track, stamp: real, full: bool): Track {
    o.(count := o.count + 1, lastTime := stamp, recording := if full then None else o.recording)
  }

  /** A frame of a video is filed exactly if nobody has cancelled it, the video records
      and every file is written: the free space is known, the first frame brings faces
      and preview, and pose and mesh are stored.  It is answered if the track file is
      saved as well.  Otherwise it is refused and no track changes. */
  lemma VideoJoins(s: Store, r: Request, cancelled: bool, io: CommitIo, o: Track)
    requires RecordingsAllocated(s) && r.session in s.objs && o == s.objs[r.session] && r.take.None? && o.mode == Offline
    ensures var (s', reply) := CommitFrame(s, r, cancelled, io);
            && s'.tracks == s.tracks && s'.dirs == s.dirs && s'.dirty == s.dirty
            && if && !cancelled && o.phase == Recording && io.storageOk && (o.count == 0 ==> io.facesOk && io.previewOk)
                  && r.session in s.dirs && io.pose == PoseWritten && io.meshOk then
                 && s'.objs == s.objs[r.session := o.(samples := o.samples + [r.stamp], count := o.count + 1, lastTime := r.stamp)]
                 && s'.poses == s.poses[(r.session, o.count) := Intact(r.stamp)]
                 && reply == if io.saveOk then Answered else Refused
               else s'.objs == s.objs && reply == Refused
  {
    hide RecordingsAllocated, FinishRecording, AppendRecording;
    ghost var s', o' := CommitFrame(s, r, cancelled, io).0, o.(samples := o.samples + [r.stamp], count := o.count + 1, lastTime := r.stamp);
    assert s'.objs == s.objs || s'.objs == s.objs[r.session := o'];
  }

  /** A live frame outside of a take only moves its session on, unless it was cancelled
      or the session has ended. */
  lemma LivePasses(s: Store, r: Request, cancelled: bool, io: CommitIo, o: Track)
    requires RecordingsAllocated(s) && r.session in s.objs && o == s.objs[r.session] && o.mode == Live
    requires r.take.Some? ==> r.take.value in s.objs && s.objs[r.take.value].phase != Recording
    ensures CommitFrame(s, r, cancelled, io)
            == if cancelled || o.phase != Recording then (s, Refused)
               else (s.(objs := s.objs[r.session := o.(count := o.count + 1, lastTime := r.stamp)]), Answered)
  {
    hide RecordingsAllocated, FinishRecording, AppendRecording;
  }

  /** The frame's pose joins the take. */
  predicate Joins(s: Store, k: nat, take: Track, io: CommitIo) {
    && io.takeStorage == StorageFree && (take.count == 0 ==> io.takePreviewOk)
    && k in s.dirs && io.takePose == PoseWritten
  }

  /** A live frame that is admitted to a recording take joins it exactly if there is
      space, the first frame brings a preview, and the pose is stored.  It is answered if
      the take's track file is saved as well; if not, the session does not move on.  A
      full disk interrupts the take.  In every other case nothing changes. */
  lemma TakeJoins(s: Store, r: Request, k: nat, io: CommitIo, o: Track, take: Track)
    requires RecordingsAllocated(s) && r.session in s.objs && o == s.objs[r.session] && r.take == Some(k)
    requires o.mode == Live && o.phase == Recording && o.recording == Some(k)
    requires k in s.objs && take == s.objs[k] && k != r.session && take.mode == Take && take.phase == Recording
    ensures var (s', reply) := CommitFrame(s, r, false, io);
            if Joins(s, k, take, io) then
              && s'.objs == s.objs[k := Longer(take, r.stamp - take.start)]
                                  [r.session := if io.takeSaveOk then Later(o, r.stamp, take.count + 1 >= 1800) else o]
              && s'.poses == s.poses[(k, take.count) := Intact(r.stamp - take.start)]
              && s'.dirty == (if io.takeSaveOk then s.dirty else s.dirty + {k})
              && reply == if io.takeSaveOk then Answered else Refused
            else if io.takeStorage == StorageFull then
              && s'.objs == s.objs[k := take.(phase := Interrupted)]
                                  [r.session := o.(recording := if io.takeSaveOk && k in s.dirs then None else Some(k))]
              && s'.poses == s.poses && reply == Refused
            else s'.objs == s.objs && reply == Refused
  {
    ghost var s', time := CommitFrame(s, r, false, io).0, r.stamp - take.start;
    if Joins(s, k, take, io) {
      ghost var objs := s.objs[k := Longer(take, time)][r.session := if io.takeSaveOk then Later(o, r.stamp, take.count + 1 >= 1800) else o];
      assert s'.objs[k] == objs[k];
      assert s'.objs[r.session] == objs[r.session];
      assert s'.objs == objs;
    } else if io.takeStorage == StorageFull {
      ghost var objs := s.objs[k := take.(phase := Interrupted)][r.session := o.(recording := if io.takeSaveOk && k in s.dirs then None else Some(k))];
      assert s'.objs[k] == objs[k];
      assert s'.objs[r.session] == objs[r.session];
      assert s'.objs == objs;
    }
  }

  // ----- the commit of one frame, when every file operation succeeds

  /** The commit of a video's frame: sample and pose are filed under the next number. */
  lemma VideoFiled(s: Store, r: Request, o: Track)
    requires RecordingsAllocated(s) && r.session in s.objs && o == s.objs[r.session] && r.take.None?
    requires o.mode == Offline && o.phase == Recording && r.session in s.dirs
    ensures CommitFrame(s, r, false, SAVED)
            == (s.(objs := s.objs[r.session := o.(samples := o.samples + [r.stamp], count := o.count + 1, lastTime := r.stamp)],
                   poses := s.poses[(r.session, o.count) := Intact(r.stamp)]),
                Answered)
  {
    var s' := CommitFrame(s, r, false, SAVED).0;
    var o' := o.(samples := o.samples + [r.stamp], count := o.count + 1, lastTime := r.stamp);
    assert s'.objs == s.objs[r.session := o'];
  }

  /** The commit of a live frame that joins a take: the take gets its time since the
      take's start, and its pose. */
  lemma TakeFiled(s: Store, r: Request, k: nat, o: Track, take: Track)
    requires RecordingsAllocated(s) && r.session in s.objs && o == s.objs[r.session] && r.take == Some(k)
    requires o.mode == Live && o.phase == Recording && o.recording == Some(k)
    requires k in s.objs && take == s.objs[k] && k != r.session && take.mode == Take && take.phase == Recording && k in s.dirs
    ensures var time := r.stamp - take.start;
            CommitFrame(s, r, false, SAVED)
            == (s.(objs := s.objs[k := Longer(take, time)][r.session := Later(o, r.stamp, take.count + 1 >= 1800)],
                   poses := s.poses[(k, take.count) := Intact(time)]),
                Answered)
  {
    var s' := CommitFrame(s, r, false, SAVED).0;
    var time := r.stamp - take.start;
    var objs := s.objs[k := Longer(take, time)][r.session := Later(o, r.stamp, take.count + 1 >= 1800)];
    assert s'.objs[k] == objs[k];
    assert s'.objs[r.session] == objs[r.session];
    assert s'.objs == objs;
  }

  // ----- a video, frame by frame

  /** A quiet server with a video `t` that records. */
  ghost predicate VideoReady(s: State, t: nat) {
    && Quiet(s) && t in s.store.tracks && t in s.store.objs && t in s.front.desks && t in s.store.dirs
    && var o := s.store.objs[t];
    && o.mode == Offline && o.phase == Recording && o.recording.None? && o.hz > 0.0 && s.front.desks[t].inflight == 0
  }

  /** The stamp is within a day, and a sampling interval after the last one. */
  predicate InStep(o: Track, stamp: real) {
    0.0 <= stamp <= 86400.0 && o.hz > 0.0 && (o.count > 0 ==> stamp - o.lastTime >= 1.0 / o.hz - 0.001)
  }

  lemma VideoFrame(s: State, t: nat, stamp: real, o: Track) returns (states: seq<State>, events: seq<Event>)
    requires VideoReady(s, t) && o == s.store.objs[t] && o.count < 1800 && InStep(o, stamp)
    ensures IsPath(states, events) && |events| == 9 && |states| == 10 && states[0] == s
    ensures VideoReady(states[9], t) && states[9].now == s.now
    ensures states[9].store.objs[t] == o.(samples := o.samples + [stamp], count := o.count + 1, lastTime := stamp)
    ensures states[9].store.poses == s.store.poses[(t, o.count) := Intact(stamp)]
  {
    hide IsPath;
    var r := Request(0, t, None, stamp);
    assert Admitting(s, 0, t, stamp).req == r;
    VideoFiled(s.store, r, o);
    VideoLets(s, t, stamp, o);
    hide Admitting, CommitFrame, Admissible, InStep;
    states, events := FrameAlone(s, 0, t, stamp, SAVED);
  }

  lemma VideoLets(s: State, t: nat, stamp: real, o: Track)
    requires VideoReady(s, t) && o == s.store.objs[t] && o.count < 1800 && InStep(o, stamp)
    ensures Admissible(s, Request(0, t, None, stamp))
  {
  }

  /** The stamps keep step with the session. */
  predicate AllInStep(o: Track, stamps: seq<real>) {
    && o.hz > 0.0 && (stamps != [] && o.count > 0 ==> stamps[0] - o.lastTime >= 1.0 / o.hz - 0.001)
    && (forall i | 0 <= i < |stamps| :: 0.0 <= stamps[i] <= 86400.0)
    && forall i | 0 < i < |stamps| :: stamps[i] - stamps[i - 1] >= 1.0 / o.hz - 0.001
  }

  predicate FiledAt(poses: map<(nat, nat), Pose>, t: nat, index: nat, time: real) {
    (t, index) in poses && poses[(t, index)] == Intact(time)
  }

  /** The poses of track `t` from number `from` on have these times. */
  ghost predicate Filed(poses: map<(nat, nat), Pose>, t: nat, from: nat, times: seq<real>) {
    forall i: nat | i < |times| :: FiledAt(poses, t, from + i, times[i])
  }

  lemma FiledMore(poses: map<(nat, nat), Pose>, t: nat, from: nat, times: seq<real>, time: real)
    requires Filed(poses, t, from, times)
    ensures Filed(poses[(t, from + |times|) := Intact(time)], t, from, times + [time])
  {
    var poses', all := poses[(t, from + |times|) := Intact(time)], times + [time];
    forall i: nat | i < |all| ensures FiledAt(poses', t, from + i, all[i]) {
      if i < |times| { assert FiledAt(poses, t, from + i, times[i]); }
    }
  }

  /** All of `stamps` are filed in video `t`, which was `o` before, with their poses. */
  ghost predicate VideoHolds(s: State, t: nat, o: Track, stamps: seq<real>) {
    && VideoReady(s, t)
    && s.store.objs[t] == o.(samples := o.samples + stamps, count := o.count + |stamps|,
                             lastTime := if stamps == [] then o.lastTime else stamps[|stamps| - 1])
    && Filed(s.store.poses, t, o.count, stamps)
  }

  lemma VideoNext(s: State, t: nat, o: Track, stamps: seq<real>) returns (x: Track)
    requires stamps != [] && o.count + |stamps| <= 1800 && AllInStep(o, stamps) && VideoHolds(s, t, o, stamps[..|stamps| - 1])
    ensures VideoReady(s, t) && x == s.store.objs[t] && x.count < 1800 && InStep(x, stamps[|stamps| - 1])
    ensures x.samples == o.samples + stamps[..|stamps| - 1] && x.count == o.count + |stamps| - 1
  {
    x := s.store.objs[t];
  }

  lemma VideoMore(s: State, s': State, t: nat, o: Track, stamps: seq<real>, x: Track)
    requires stamps != [] && VideoHolds(s, t, o, stamps[..|stamps| - 1]) && x == s.store.objs[t] && VideoReady(s', t)
    requires var stamp := stamps[|stamps| - 1];
             && s'.store.objs[t] == x.(samples := x.samples + [stamp], count := x.count + 1, lastTime := stamp)
             && s'.store.poses == s.store.poses[(t, x.count) := Intact(stamp)]
    ensures VideoHolds(s', t, o, stamps)
  {
    hide Quiet;
    var n := |stamps| - 1;
    assert (o.samples + stamps[..n]) + [stamps[n]] == o.samples + stamps;
    FiledMore(s.store.poses, t, o.count, stamps[..n], stamps[n]);
    assert stamps[..n] + [stamps[n]] == stamps;
  }

  /** Up to 1800 frames of a video, sent one after the other as fast as they are
      answered, are all filed, in order, with their poses. */
  lemma {:induction false} VideoRecorded(s: State, t: nat, stamps: seq<real>, o: Track) returns (states: seq<State>, events: seq<Event>)
    requires VideoReady(s, t) && o == s.store.objs[t] && o.count + |stamps| <= 1800 && AllInStep(o, stamps)
    ensures IsPath(states, events) && |events| == 9 * |stamps| && |states| == |events| + 1 && states[0] == s
    ensures states[|events|].now == s.now && VideoHolds(states[|events|], t, o, stamps)
    decreases |stamps|
  {
    if stamps == [] {
      NoStep(s);
      assert o.samples + [] == o.samples;
      states, events := [s], [];
    } else {
      hide IsPath, VideoReady, VideoHolds, InStep, Step, Enabled;
      FewerInStep(o, stamps);
      var before, begin := VideoRecorded(s, t, stamps[..|stamps| - 1], o);
      var s1 := before[|begin|];
      var x := VideoNext(s1, t, o, stamps);
      var after, end := VideoFrame(s1, t, stamps[|stamps| - 1], x);
      VideoMore(s1, after[9], t, o, stamps, x);
      PathJoin(before, begin, after, end);
      states, events := before + after[1..], begin + end;
    }
  }

  lemma FewerInStep(o: Track, stamps: seq<real>)
    requires stamps != [] && AllInStep(o, stamps)
    ensures AllInStep(o, stamps[..|stamps| - 1])
  {
  }

  lemma NoStep(s: State)
    ensures IsPath([s], [])
  {
  }

  // ----- a take, frame by frame

  /** A quiet server with a live session `t` that records take `k`. */
  ghost predicate TakeReady(s: State, t: nat, k: nat) {
    && Quiet(s) && t in s.store.tracks && t in s.store.objs && t in s.front.desks && k in s.store.objs && k != t && k in s.store.dirs
    && var o, take := s.store.objs[t], s.store.objs[k];
       o.mode == Live && o.phase == Recording && o.recording == Some(k) && o.hz > 0.0 && s.front.desks[t].inflight == 0
       && take.mode == Take && take.phase == Recording
  }

  /** The clock has moved on far enough since the session's last admission. */
  predicate OnTime(o: Track, d: Desk, clock: real) {
    o.hz > 0.0 && (o.count > 0 ==> clock - d.last >= 1.0 / o.hz - 0.005)
  }

  lemma TakeLets(s: State, t: nat, k: nat, stamp: real)
    requires TakeReady(s, t, k) && InStep(s.store.objs[t], stamp) && OnTime(s.store.objs[t], s.front.desks[t], s.now)
    ensures Admissible(s, Request(0, t, None, stamp))
  {
  }

  /** What a take's frame leaves: take and session as `TakeFiled` says, and the time of
      its admission. */
  ghost predicate TakeAfter(s: State, t: nat, k: nat, stamp: real, clock: real, s': State)
    requires TakeReady(s, t, k)
  {
    var o, take := s.store.objs[t], s.store.objs[k];
    var full := take.count + 1 >= 1800;
    && Quiet(s') && s'.now == clock && t in s'.store.objs && k in s'.store.objs && t in s'.front.desks
    && s'.store.objs[k] == Longer(take, stamp - take.start) && s'.store.objs[t] == Later(o, stamp, full)
    && s'.store.poses == s.store.poses[(k, take.count) := Intact(stamp - take.start)]
    && s'.front.desks[t].last == clock && (full || TakeReady(s', t, k))
  }

  lemma TakeFrame(s: State, t: nat, k: nat, stamp: real, clock: real) returns (states: seq<State>, events: seq<Event>)
    requires TakeReady(s, t, k) && clock >= s.now
    requires InStep(s.store.objs[t], stamp) && OnTime(s.store.objs[t], s.front.desks[t], clock) && stamp >= s.store.objs[k].start
    ensures IsPath(states, events) && |events| == 10 && |states| == 11 && states[0] == s
    ensures TakeAfter(s, t, k, stamp, clock, states[10])
  {
    hide IsPath;
    var s1 := s.(now := clock);
    assert Enabled(s, Tick(clock)) && Step(s, Tick(clock)) == s1;
    var r := Request(0, t, Some(k), stamp);
    assert Admitting(s1, 0, t, stamp).req == r;
    TakeFiled(s1.store, r, k, s1.store.objs[t], s1.store.objs[k]);
    TakeLets(s1, t, k, stamp);
    hide Admitting, CommitFrame, Admissible, InStep, OnTime, Step, Enabled;
    var after, end := FrameAlone(s1, 0, t, stamp, SAVED);
    OneStep(s, Tick(clock));
    PathJoin([s, s1], [Tick(clock)], after, end);
    states, events := [s, s1] + after[1..], [Tick(clock)] + end;
  }

  /** The clock runs and keeps step with the session. */
  predicate AllOnTime(o: Track, d: Desk, now: real, clocks: seq<real>) {
    && o.hz > 0.0 && (clocks != [] ==> clocks[0] >= now && (o.count > 0 ==> clocks[0] - d.last >= 1.0 / o.hz - 0.005))
    && forall i | 0 < i < |clocks| :: clocks[i] >= clocks[i - 1] && clocks[i] - clocks[i - 1] >= 1.0 / o.hz - 0.005
  }

  /** The times since the take's start. */
  function Since(stamps: seq<real>, start: real): (times: seq<real>)
    ensures |times| == |stamps|
  {
    seq(|stamps|, i requires 0 <= i < |stamps| => stamps[i] - start)
  }

  /** All of `stamps` are filed in take `k`, which was `take` before, of session `t`,
      which was `o`; the 1800th sample has ended the take. */
  ghost predicate TakeHolds(s: State, t: nat, k: nat, o: Track, d: Desk, take: Track, stamps: seq<real>, clocks: seq<real>)
    requires |clocks| == |stamps|
  {
    var n := |stamps|;
    var full := take.count + n >= 1800;
    && Quiet(s) && t in s.store.objs && k in s.store.objs && t in s.front.desks
    && s.store.objs[k] == take.(samples := take.samples + Since(stamps, take.start), count := take.count + n,
                                phase := if full then Complete else Recording)
    && s.store.objs[t] == o.(count := o.count + n, lastTime := if n == 0 then o.lastTime else stamps[n - 1],
                             recording := if full then None else Some(k))
    && s.front.desks[t].last == (if n == 0 then d.last else clocks[n - 1])
    && (full || TakeReady(s, t, k))
    && Filed(s.store.poses, k, take.count, Since(stamps, take.start))
  }

  lemma TakeNext(s: State, t: nat, k: nat, o: Track, d: Desk, take: Track, stamps: seq<real>, clocks: seq<real>, now: real)
    requires stamps != [] && |clocks| == |stamps| && take.count + |stamps| <= 1800
    requires AllInStep(o, stamps) && AllOnTime(o, d, now, clocks) && (forall i | 0 <= i < |stamps| :: stamps[i] >= take.start)
    requires var n := |stamps| - 1; TakeHolds(s, t, k, o, d, take, stamps[..n], clocks[..n]) && s.now == if n == 0 then now else clocks[n - 1]
    ensures var n := |stamps| - 1;
            && TakeReady(s, t, k) && clocks[n] >= s.now && stamps[n] >= s.store.objs[k].start
            && InStep(s.store.objs[t], stamps[n]) && OnTime(s.store.objs[t], s.front.desks[t], clocks[n])
  {
    hide Quiet;
  }

  lemma TakeMore(s: State, s': State, t: nat, k: nat, o: Track, d: Desk, take: Track, stamps: seq<real>, clocks: seq<real>)
    requires stamps != [] && |clocks| == |stamps| && TakeReady(s, t, k) && take.count + |stamps| <= 1800
    requires var n := |stamps| - 1;
             TakeHolds(s, t, k, o, d, take, stamps[..n], clocks[..n]) && TakeAfter(s, t, k, stamps[n], clocks[n], s')
    ensures TakeHolds(s', t, k, o, d, take, stamps, clocks)
  {
    hide Quiet;
    var n := |stamps| - 1;
    assert (take.samples + Since(stamps[..n], take.start)) + [stamps[n] - take.start] == take.samples + Since(stamps, take.start);
    FiledMore(s.store.poses, k, take.count, Since(stamps[..n], take.start), stamps[n] - take.start);
    assert Since(stamps[..n], take.start) + [stamps[n] - take.start] == Since(stamps, take.start);
  }

  /** Frames of a live session that are sent in step with it, none before the start of
      its take, are all filed in the take up to its 1800th sample, in order, with the
      time since its start and their poses. */
  lemma {:induction false} TakeRecorded(s: State, t: nat, k: nat, stamps: seq<real>, clocks: seq<real>, o: Track, d: Desk, take: Track)
    returns (states: seq<State>, events: seq<Event>)
    requires TakeReady(s, t, k) && o == s.store.objs[t] && d == s.front.desks[t] && take == s.store.objs[k]
    requires |clocks| == |stamps| && take.count < 1800 && take.count + |stamps| <= 1800
    requires AllInStep(o, stamps) && AllOnTime(o, d, s.now, clocks) && forall i | 0 <= i < |stamps| :: stamps[i] >= take.start
    ensures IsPath(states, events) && |events| == 10 * |stamps| && |states| == |events| + 1 && states[0] == s
    ensures TakeHolds(states[|events|], t, k, o, d, take, stamps, clocks)
    ensures states[|events|].now == if clocks == [] then s.now else clocks[|clocks| - 1]
    decreases |stamps|
  {
    hide IsPath, TakeReady, TakeHolds, TakeAfter, InStep, OnTime, AllInStep, AllOnTime, Step, Enabled;
    if stamps == [] {
      NoStep(s);
      TakeNone(s, t, k, o, d, take);
      states, events := [s], [];
    } else {
      var n := |stamps| - 1;
      FewerInStep(o, stamps);
      FewerOnTime(o, d, s.now, clocks);
      var before, begin := TakeRecorded(s, t, k, stamps[..n], clocks[..n], o, d, take);
      var s1 := before[|begin|];
      TakeNext(s1, t, k, o, d, take, stamps, clocks, s.now);
      var after, end := TakeFrame(s1, t, k, stamps[n], clocks[n]);
      TakeMore(s1, after[10], t, k, o, d, take, stamps, clocks);
      AfterClock(s1, t, k, stamps[n], clocks[n], after[10]);
      PathJoin(before, begin, after, end);
      states, events := before + after[1..], begin + end;
    }
  }

  lemma TakeNone(s: State, t: nat, k: nat, o: Track, d: Desk, take: Track)
    requires TakeReady(s, t, k) && o == s.store.objs[t] && d == s.front.desks[t] && take == s.store.objs[k] && take.count < 1800
    ensures TakeHolds(s, t, k, o, d, take, [], [])
  {
    assert take.samples + Since([], take.start) == take.samples;
  }

  lemma AfterClock(s: State, t: nat, k: nat, stamp: real, clock: real, s': State)
    requires TakeReady(s, t, k) && TakeAfter(s, t, k, stamp, clock, s')
    ensures s'.now == clock
  {
  }

  lemma FewerOnTime(o: Track, d: Desk, now: real, clocks: seq<real>)
    requires clocks != [] && AllOnTime(o, d, now, clocks)
    ensures AllOnTime(o, d, now, clocks[..|clocks| - 1])
  {
  }

  lemma OneStep(s: State, e: Event)
    requires Enabled(s, e)
    ensures IsPath([s, Step(s, e)], [e])
  {
    hide Enabled, Step;
  }
}
