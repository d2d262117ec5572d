/**
 The inductive invariant of the capture protocol, in three parts: what holds of
 the tracks and their files alone, what holds of the handlers and channels alone,
 and what ties an admitted request to its session.
 */
module CaptureInvariant {
  import opened Wrappers
  import opened CaptureModel

  // ----- tracks and files

  predicate TrackOk(o: Track, listed: bool, onDisk: bool) {
    && 1.0 <= o.hz <= 30.0
    && (o.mode == Live ==> o.samples == [])
    && (o.mode != Live ==> o.count == |o.samples| <= MAX_TRACK_FRAMES && o.recording.None?)
    && (onDisk <==> o.mode != Live && listed)
    && (o.mode != Live && o.phase == Recording ==> listed)
    && (o.mode == Take && o.phase == Recording ==> o.count < MAX_TRACK_FRAMES)
  }

  ghost predicate TracksOk(objs: map<nat, Track>, tracks: set<nat>, dirs: set<nat>) {
    && tracks <= objs.Keys
    && dirs <= objs.Keys
    && forall t | t in objs :: TrackOk(objs[t], t in tracks, t in dirs)
  }

  predicate AttachedOk(objs: map<nat, Track>, tracks: set<nat>, t: nat)
    requires t in objs && objs[t].recording.Some?
  {
    var k := objs[t].recording.value;
    && objs[t].mode == Live && objs[t].phase == Recording && t in tracks
    && k in objs && objs[k].mode == Take && objs[k].hz == objs[t].hz && objs[k].start >= 0.0
  }

  predicate Attached(objs: map<nat, Track>, t: nat, k: nat) {
    t in objs && objs[t].recording == Some(k)
  }

  /** A recording take belongs to exactly one live, still recording session in the table. */
  ghost predicate RecordingOk(objs: map<nat, Track>, tracks: set<nat>) {
    && (forall t | t in objs && objs[t].recording.Some? :: AttachedOk(objs, tracks, t))
    && (forall t1, t2, k | Attached(objs, t1, k) && Attached(objs, t2, k) :: t1 == t2)
    && (forall k | k in objs && objs[k].mode == Take && objs[k].phase == Recording :: exists t :: Attached(objs, t, k))
  }

  ghost predicate PosesOk(poses: map<(nat, nat), Pose>, t: nat, samples: seq<real>) {
    forall i | 0 <= i < |samples| :: (t, i) in poses && poses[(t, i)] == Intact(samples[i])
  }

  /** Every saved sample has its pose file, unless a failed deletion took one. */
  ghost predicate FilesOk(s: Store) {
    forall t | t in s.tracks && t in s.objs && t !in s.damaged :: PosesOk(s.poses, t, s.objs[t].samples)
  }

  ghost predicate Spaced(samples: seq<real>, hz: real) {
    hz > 0.0 && forall i, j | 0 <= i < j < |samples| :: samples[j] >= samples[i] + Gap(hz)
  }

  ghost predicate OfflineOk(o: Track) {
    && Spaced(o.samples, o.hz)
    && (o.phase == Recording && |o.samples| > 0 ==> o.samples[|o.samples| - 1] == o.lastTime)
  }

  predicate TakeClockOk(session: Track, take: Track) {
    |take.samples| > 0 ==> session.count > 0 && take.samples[|take.samples| - 1] + take.start <= session.lastTime
  }

  /** Sample times of recordings, measured against the session clock. */
  ghost predicate SamplesOk(objs: map<nat, Track>, dirty: set<nat>) {
    && (forall t | t in objs && objs[t].mode == Offline :: OfflineOk(objs[t]))
    && (forall k | k in objs && objs[k].mode == Take && k !in dirty :: Spaced(objs[k].samples, objs[k].hz))
    && (forall t, k | Attached(objs, t, k) && k in objs && k !in dirty :: TakeClockOk(objs[t], objs[k]))
  }

  ghost predicate StoreInv(s: Store) {
    && TracksOk(s.objs, s.tracks, s.dirs) && RecordingOk(s.objs, s.tracks)
    && FilesOk(s) && SamplesOk(s.objs, s.dirty) && |LiveIn(s)| <= MAX_LIVE_SESSIONS
  }

  // ----- handlers and channels

  ghost predicate TokenOk(handlers: map<nat, Handler>, uploads: bool, other: bool) {
    && (other ==> uploads)
    && (forall h | h in handlers && Holding(handlers[h].stage) :: uploads && !other)
    && (forall h1, h2 | h1 in handlers && h2 in handlers && Holding(handlers[h1].stage) && Holding(handlers[h2].stage) :: h1 == h2)
    && (uploads && !other ==> exists h :: h in handlers && Holding(handlers[h].stage))
  }

  predicate HandlerOk(desks: map<nat, Desk>, h: nat, x: Handler) {
    && x.req.handler == h
    && (Admitted(x.stage) ==> x.req.session in desks && x.id in desks[x.req.session].cancels && desks[x.req.session].cancels[x.id] == h)
  }

  predicate CancelOk(handlers: map<nat, Handler>, t: nat, i: nat, h: nat) {
    h in handlers && Admitted(handlers[h].stage) && handlers[h].req.session == t && handlers[h].id == i
  }

  ghost predicate DeskOk(handlers: map<nat, Handler>, t: nat, d: Desk) {
    && d.inflight == |d.cancels|
    && d.busy == (d.inflight > 0)
    && (forall i | i in d.cancels :: i < d.next && CancelOk(handlers, t, i, d.cancels[i]))
  }

  ghost predicate DesksOk(desks: map<nat, Desk>, handlers: map<nat, Handler>) {
    && (forall h | h in handlers :: HandlerOk(desks, h, handlers[h]))
    && (forall t | t in desks :: DeskOk(handlers, t, desks[t]))
  }

  predicate InFrames(frames: Option<Request>, h: nat) {
    frames.Some? && frames.value.handler == h
  }

  predicate InWorker(worker: Worker, h: nat) {
    (worker.Running? || worker.Responding?) && worker.req.handler == h
  }

  predicate IsRunning(worker: Worker, h: nat) {
    worker.Running? && worker.req.handler == h
  }

  /** An enqueued request is in exactly one place until its reply is taken. */
  predicate PlaceOk(frames: Option<Request>, worker: Worker, h: nat, x: Handler) {
    var mailed := x.mailbox.Some?;
    if x.stage == Sent || x.stage == Waiting then
      || (InFrames(frames, h) && !InWorker(worker, h) && !mailed)
      || (!InFrames(frames, h) && InWorker(worker, h) && !mailed)
      || (!InFrames(frames, h) && !InWorker(worker, h) && mailed)
    else
      !InFrames(frames, h) && !InWorker(worker, h) && !mailed
  }

  ghost predicate PipelineOk(handlers: map<nat, Handler>, frames: Option<Request>, worker: Worker) {
    && (frames.Some? ==> frames.value.handler in handlers && handlers[frames.value.handler].req == frames.value)
    && (worker.Running? || worker.Responding? ==> worker.req.handler in handlers && handlers[worker.req.handler].req == worker.req)
    && forall h | h in handlers :: PlaceOk(frames, worker, h, handlers[h])
  }

  ghost predicate FrontInv(f: Front) {
    && TokenOk(f.handlers, f.uploads, f.other)
    && DesksOk(f.desks, f.handlers)
    && PipelineOk(f.handlers, f.frames, f.worker)
  }

  // ----- requests and their sessions

  /** Admitted, and its timestamp may still be committed. */
  predicate Pending(f: Front, h: nat) {
    h in f.handlers && (f.handlers[h].stage == Reading || InFrames(f.frames, h) || IsRunning(f.worker, h))
  }

  /** Position of a pending request in the pipeline: earlier requests rank lower. */
  function Rank(f: Front, h: nat): nat {
    if IsRunning(f.worker, h) then 0 else if InFrames(f.frames, h) then 1 else 2
  }

  predicate LimitsOk(t: Track, d: Desk) {
    && d.inflight <= Limit(t.mode)
    && (t.mode == Take ==> d.inflight == 0)
    && (d.inflight > 0 && t.count > 0 ==> t.lastTime <= d.lastSubmit)
  }

  predicate StampOk(t: Track, d: Desk, stamp: real) {
    && t.hz > 0.0
    && (t.count > 0 ==> stamp >= t.lastTime + Gap(t.hz))
    && stamp <= d.lastSubmit
    && (t.mode == Offline ==> t.count < MAX_TRACK_FRAMES)
  }

  /** What the take of an admitted request means. */
  predicate TakeOk(objs: map<nat, Track>, r: Request)
    requires r.take.Some?
  {
    var k := r.take.value;
    && r.session in objs && objs[r.session].mode == Live
    && k in objs && objs[k].mode == Take && r.stamp >= objs[k].start
    && (objs[k].phase == Recording ==> objs[r.session].recording == Some(k))
  }

  predicate RequestOk(objs: map<nat, Track>, r: Request) {
    r.session in objs && objs[r.session].mode != Take && (r.take.Some? ==> TakeOk(objs, r))
  }

  predicate SpacedPair(f: Front, objs: map<nat, Track>, h1: nat, h2: nat)
    requires h1 in f.handlers && h2 in f.handlers
  {
    var r1 := f.handlers[h1].req;
    r1.session in objs && objs[r1.session].hz > 0.0
    && f.handlers[h2].req.stamp >= r1.stamp + Gap(objs[r1.session].hz)
  }

  ghost predicate OrderOk(objs: map<nat, Track>, f: Front) {
    && (forall h | Pending(f, h) && f.handlers[h].req.session in objs && f.handlers[h].req.session in f.desks ::
          StampOk(objs[f.handlers[h].req.session], f.desks[f.handlers[h].req.session], f.handlers[h].req.stamp))
    && (forall h1, h2 | Pending(f, h1) && Pending(f, h2) && f.handlers[h1].req.session == f.handlers[h2].req.session
                     && Rank(f, h1) < Rank(f, h2) :: SpacedPair(f, objs, h1, h2))
  }

  ghost predicate LinkInv(objs: map<nat, Track>, f: Front) {
    && f.desks.Keys == objs.Keys
    && (forall t | t in objs :: LimitsOk(objs[t], f.desks[t]))
    && (forall h | h in f.handlers && Admitted(f.handlers[h].stage) :: RequestOk(objs, f.handlers[h].req))
    && OrderOk(objs, f)
  }

  ghost predicate Inv(s: State) {
    StoreInv(s.store) && FrontInv(s.front) && LinkInv(s.store.objs, s.front) && s.queue <= QUEUE_SLOTS
  }

  // ----- start-up

  ghost predicate LoadedOk(s: Store, t: nat)
    requires t in s.objs
  {
    var o := s.objs[t];
    && o.mode != Live && o.phase != Recording && o.recording == None
    && 1.0 <= o.hz <= 30.0 && o.count == |o.samples| <= MAX_TRACK_FRAMES
    && (t !in s.damaged <==> PosesOk(s.poses, t, o.samples))
    && (t !in s.dirty || o.mode == Offline ==> Spaced(o.samples, o.hz))
  }

  /** The server after loadTracks: saved tracks only, none of them recording. */
  ghost predicate Init(s: State) {
    && s.store.tracks == s.store.objs.Keys == s.store.dirs == s.front.desks.Keys && s.store.damaged <= s.store.objs.Keys
    && (forall t | t in s.store.objs :: LoadedOk(s.store, t) && s.front.desks[t].inflight == 0 && s.front.desks[t].cancels == map[] && !s.front.desks[t].busy)
    && s.front.handlers == map[] && !s.front.uploads && !s.front.other && s.front.frames.None? && s.front.worker == Idle
    && s.queue == 0 && !s.workerLive
  }

  lemma InitInv(s: State)
    requires Init(s)
    ensures Inv(s)
  {
    assert LiveIn(s.store) == {};
  }
}
