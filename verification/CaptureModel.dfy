/**
 The capture-session protocol of the demo server, as a labelled transition system.

 Many HTTP handlers and one queue consumer share the upload token, the one-slot
 frame channel, the job queue and the track objects.  Every event below is one
 atomic section of the program: a block executed under the application lock, or
 a single channel operation.  File operations are nondeterministic: the event
 says whether they succeeded.
 */
module CaptureModel {
  import opened Wrappers

  const MAX_TRACK_FRAMES: nat := 1800
  const MAX_LIVE_SESSIONS: nat := 4
  const QUEUE_SLOTS: nat := 2
  const EXPIRY_SECONDS := 60.0
  const MAX_STAMP := 86400.0

  datatype Mode = Offline | Live | Take

  datatype Phase = Recording | Complete | Interrupted

  /** The persistent part of a track object; `samples` holds the sample times. */
  datatype Track = Track(
    mode: Mode,
    hz: real,
    phase: Phase,
    samples: seq<real>,
    count: nat,
    start: real,
    recording: Option<nat>,
    lastTime: real)

  /** The admission part of the same object.  `cancels` maps a request number to
      the handler whose context the stored cancel function ends. */
  datatype Desk = Desk(
    busy: bool,
    last: real,
    lastSubmit: real,
    inflight: nat,
    next: nat,
    cancels: map<nat, nat>)

  datatype Request = Request(handler: nat, session: nat, take: Option<nat>, stamp: real)

  datatype Reply = Answered | Refused

  /** Program counter of a frame handler. */
  datatype Stage =
    | Parsing   // holds the upload token, not admitted yet
    | Reading   // admitted; reads, decodes and packs the body with the token
    | Rejected  // admitted, but the body or the full channel ended the request
    | Sent      // request is in the channel; the token is still held
    | Waiting   // token released; blocked on the reply
    | Replied   // reply taken; the session bookkeeping is still open
    | Leaving   // nothing left to do but to return the token

  /** `mailbox` is the capacity-one reply channel of the request. */
  datatype Handler = Handler(stage: Stage, req: Request, id: nat, cancelled: bool, mailbox: Option<Reply>)

  /** What a pose file decodes to, if anything. */
  datatype Pose = Intact(time: real) | Torn

  datatype Worker = Idle | Running(req: Request) | Responding(req: Request, reply: Reply) | Job

  /** Tracks and their files.  `objs` is the heap of track objects by identifier;
      `tracks` are the keys of the track table.  An object taken out of the table
      stays in `objs`, because handlers and requests may still point to it.
      `dirty` and `damaged` are history: takes with a sample whose save failed,
      and tracks that lost the pose of a sample in a failed deletion. */
  datatype Store = Store(
    objs: map<nat, Track>,
    tracks: set<nat>,
    dirs: set<nat>,
    poses: map<(nat, nat), Pose>,
    dirty: set<nat>,
    damaged: set<nat>)

  /** Admission records, handlers, upload token, frame channel and consumer. */
  datatype Front = Front(
    desks: map<nat, Desk>,
    handlers: map<nat, Handler>,
    uploads: bool,
    other: bool,
    frames: Option<Request>,
    worker: Worker)

  datatype State = State(
    store: Store,
    front: Front,
    queue: nat,
    workerLive: bool,
    now: real,
    maxJobs: nat)

  datatype PoseWrite = PoseInvalid | PoseTorn | PoseWritten

  datatype StorageCheck = StorageUnreadable | StorageFull | StorageFree

  /** Outcomes of the file operations of one commit. */
  datatype CommitIo = CommitIo(
    storageOk: bool,
    facesOk: bool,
    previewOk: bool,
    pose: PoseWrite,
    meshOk: bool,
    takeStorage: StorageCheck,
    takePreviewOk: bool,
    takePose: PoseWrite,
    takeSaveOk: bool,
    saveOk: bool)

  /** `order` is the order in which the track table happens to be iterated and
      `saves` says for each entry whether saving its take would succeed. */
  datatype CreateIo = CreateIo(order: seq<nat>, saves: seq<bool>, storageOk: bool, dirOk: bool, saveOk: bool)

  datatype Event =
    | Tick(later: real)
    | WorkerStart
    | Create(id: nat, mode: Mode, hz: real, createIo: CreateIo)
    | Finish(session: nat, takeSaveOk: bool, saveOk: bool)
    | RecordStart(session: nat, id: nat, start: real, storageOk: bool, dirOk: bool, saveOk: bool)
    | RecordStop(session: nat, saveOk: bool)
    | Delete(id: nat, removeOk: bool, lost: set<nat>)
    | Rename(id: nat, saveOk: bool)
    | AcquireOther
    | ReleaseOther
    | SubmitJob
    | Arrive(h: nat, session: nat, stamp: real)
    | BadRequest(h: nat)
    | Admit(h: nat, settingsOk: bool)
    | ReadFail(h: nat)
    | Enqueue(h: nat)
    | ReleaseToken(h: nat)
    | Cancel(h: nat)
    | Receive(h: nat)
    | Cleanup(h: nat)
    | Leave(h: nat)
    | Dequeue
    | FrameFail
    | Commit(io: CommitIo)
    | Respond
    | PopJob
    | JobDone

  // ----- session arithmetic

  /** Smallest distance between two timestamps of one session. */
  function Gap(hz: real): real
    requires hz > 0.0
  {
    1.0 / hz - 0.001
  }

  lemma GapPositive(hz: real)
    requires 1.0 <= hz <= 30.0
    ensures Gap(hz) > 0.0
  {
    assert 1.0 / hz >= 1.0 / 30.0;
  }

  function Limit(mode: Mode): nat {
    if mode == Live then 2 else 1
  }

  predicate Admitted(stage: Stage) {
    stage != Parsing && stage != Leaving
  }

  predicate Holding(stage: Stage) {
    stage != Waiting && stage != Replied
  }

  function LiveIn(s: Store): set<nat> {
    set t | t in s.tracks && t in s.objs && s.objs[t].mode == Live
  }

  function SavedIn(s: Store): set<nat> {
    set t | t in s.tracks && t in s.objs && s.objs[t].mode != Live
  }

  // ----- track files

  /** Writing a file of a track needs its directory; a live session is never saved. */
  predicate Saves(s: Store, t: nat, ok: bool)
    requires t in s.objs
  {
    s.objs[t].mode == Live || (ok && t in s.dirs)
  }

  function WritePose(s: Store, t: nat, index: nat, time: real, outcome: PoseWrite): Store {
    if t !in s.dirs then s else
    match outcome
    case PoseInvalid => s
    case PoseTorn => s.(poses := s.poses[(t, index) := Torn])
    case PoseWritten => s.(poses := s.poses[(t, index) := Intact(time)])
  }

  predicate PoseStored(s: Store, t: nat, outcome: PoseWrite) {
    t in s.dirs && outcome == PoseWritten
  }

  // ----- takes

  predicate RecordingsAllocated(s: Store) {
    forall t | t in s.objs :: s.objs[t].recording.Some? ==> s.objs[t].recording.value in s.objs
  }

  /** Ends the take of a session; the take leaves the recording phase even when
      saving it fails, but then stays attached to the session. */
  function FinishRecording(s: Store, session: nat, phase: Phase, saveOk: bool): (Store, bool)
    requires session in s.objs && RecordingsAllocated(s)
  {
    match s.objs[session].recording
    case None => (s, true)
    case Some(k) =>
      var s1 := s.(objs := s.objs[k := s.objs[k].(phase := phase)]);
      if Saves(s, k, saveOk) then
        (s1.(objs := s1.objs[session := s1.objs[session].(recording := None)]), true)
      else
        (s1, false)
  }

  function AddSample(s: Store, k: nat, time: real): Store
    requires k in s.objs
  {
    s.(objs := s.objs[k := s.objs[k].(samples := s.objs[k].samples + [time], count := s.objs[k].count + 1)])
  }

  /** A sample whose pose is on disk joins the take; the 1800th sample ends it. */
  function FileSample(s: Store, session: nat, k: nat, time: real, saveOk: bool): (Store, bool)
    requires session in s.objs && k in s.objs && RecordingsAllocated(s)
  {
    var s1 := AddSample(s, k, time);
    var (s2, ok) :=
      if s1.objs[k].count >= MAX_TRACK_FRAMES then FinishRecording(s1, session, Complete, saveOk)
      else (s1, Saves(s1, k, saveOk));
    (if ok then s2 else s2.(dirty := s2.dirty + {k}), ok)
  }

  function AppendRecording(s: Store, session: nat, k: nat, stamp: real, io: CommitIo): (Store, bool)
    requires session in s.objs && k in s.objs && RecordingsAllocated(s)
  {
    if io.takeStorage == StorageUnreadable then
      (s, false)
    else if io.takeStorage == StorageFull then
      (FinishRecording(s, session, Interrupted, io.takeSaveOk).0, false)
    else if s.objs[k].count == 0 && !(io.takePreviewOk && k in s.dirs) then
      (s, false)
    else
      var time := stamp - s.objs[k].start;
      var s1 := WritePose(s, k, s.objs[k].count, time, io.takePose);
      if PoseStored(s, k, io.takePose) then FileSample(s1, session, k, time, io.takeSaveOk) else (s1, false)
  }

  // ----- session routes

  function NewTrack(mode: Mode, hz: real, start: real): Track {
    Track(mode, hz, Recording, [], 0, start, None, 0.0)
  }

  function NewDesk(now: real): Desk {
    Desk(false, now, 0.0, 0, 0, map[])
  }

  predicate Expired(s: Store, desks: map<nat, Desk>, t: nat, now: real)
    requires t in s.objs && t in desks
  {
    s.objs[t].mode == Live && !desks[t].busy && now - desks[t].last > EXPIRY_SECONDS
  }

  /** The sweep of abandoned live sessions; the first failed save ends it. */
  function Sweep(s: Store, desks: map<nat, Desk>, now: real, order: seq<nat>, saves: seq<bool>): (r: (Store, bool))
    requires |order| == |saves| && RecordingsAllocated(s)
    requires forall i | 0 <= i < |order| :: order[i] in s.objs && order[i] in desks
    decreases |order|
  {
    if order == [] then (s, true) else
    var t := order[0];
    if Expired(s, desks, t, now) then
      var (s1, ok) := FinishRecording(s, t, Interrupted, saves[0]);
      if ok then Sweep(s1.(tracks := s1.tracks - {t}), desks, now, order[1..], saves[1..]) else (s1, false)
    else
      Sweep(s, desks, now, order[1..], saves[1..])
  }

  /** The new store, and whether the session was created. */
  function CreateTrack(s: State, id: nat, mode: Mode, hz: real, io: CreateIo): (Store, bool)
    requires |io.order| == |io.saves| && RecordingsAllocated(s.store)
    requires forall i | 0 <= i < |io.order| :: io.order[i] in s.store.objs && io.order[i] in s.front.desks
  {
    if mode == Take || hz < 1.0 || hz > 30.0 then (s.store, false) else
    var (s1, swept) := Sweep(s.store, s.front.desks, s.now, io.order, io.saves);
    if !swept then (s1, false)
    else if |LiveIn(s1)| >= MAX_LIVE_SESSIONS || (mode == Offline && |SavedIn(s1)| >= s.maxJobs) || !io.storageOk then (s1, false)
    else if mode == Offline && !(io.dirOk && io.saveOk) then (s1, false)
    else (AddTrack(s1, id, NewTrack(mode, hz, 0.0)), true)
  }

  function AddTrack(s: Store, id: nat, t: Track): Store {
    s.(objs := s.objs[id := t], tracks := s.tracks + {id}, dirs := if t.mode == Live then s.dirs else s.dirs + {id})
  }

  function CancelAll(handlers: map<nat, Handler>, ids: set<nat>): map<nat, Handler> {
    map h | h in handlers :: if h in ids then handlers[h].(cancelled := true) else handlers[h]
  }

  /** The new store, and whether the contexts of the session's frames are ended. */
  function FinishTrack(s: Store, session: nat, takeSaveOk: bool, saveOk: bool): (Store, bool)
    requires RecordingsAllocated(s) && s.tracks <= s.objs.Keys
  {
    if session !in s.tracks || s.objs[session].mode == Take then (s, false) else
    var (s1, ok) := FinishRecording(s, session, Complete, takeSaveOk);
    if !ok then (s1, false) else
    var s2 := s1.(objs := s1.objs[session := s1.objs[session].(phase := Complete)]);
    (if Saves(s2, session, saveOk) && s2.objs[session].mode == Live then s2.(tracks := s2.tracks - {session}) else s2, true)
  }

  /** The new store, and whether the take was created. */
  function StartTake(s: State, session: nat, id: nat, start: real, storageOk: bool, dirOk: bool, saveOk: bool): (Store, bool)
    requires s.store.tracks <= s.store.objs.Keys
  {
    var objs := s.store.objs;
    if start < 0.0 || start > MAX_STAMP then (s.store, false)
    else if session !in s.store.tracks || objs[session].mode != Live || objs[session].phase != Recording || objs[session].recording.Some? then (s.store, false)
    else if |SavedIn(s.store)| >= s.maxJobs || !storageOk || !dirOk || !saveOk then (s.store, false)
    else
      var s1 := AddTrack(s.store, id, NewTrack(Take, objs[session].hz, start));
      (s1.(objs := s1.objs[session := objs[session].(recording := Some(id))]), true)
  }

  function StopTake(s: Store, session: nat, saveOk: bool): Store
    requires RecordingsAllocated(s) && s.tracks <= s.objs.Keys
  {
    if session !in s.tracks || s.objs[session].recording.None? then s
    else FinishRecording(s, session, Complete, saveOk).0
  }

  /** The pose file of one of the samples is among the lost ones. */
  predicate LosesSample(o: Track, lost: set<nat>) {
    exists i | 0 <= i < |o.samples| :: i in lost
  }

  /** A failed removal leaves the track in place, possibly without some files. */
  function DeleteTrack(s: Store, desks: map<nat, Desk>, id: nat, removeOk: bool, lost: set<nat>): Store
    requires s.tracks <= s.objs.Keys <= desks.Keys
  {
    if id !in s.tracks || s.objs[id].mode == Live || s.objs[id].phase == Recording || desks[id].busy then s
    else if !removeOk then
      s.(poses := map p | p in s.poses && !(p.0 == id && p.1 in lost) :: s.poses[p],
         damaged := if LosesSample(s.objs[id], lost) then s.damaged + {id} else s.damaged)
    else
      s.(poses := map p | p in s.poses && p.0 != id :: s.poses[p],
         dirs := s.dirs - {id},
         tracks := s.tracks - {id})
  }

  // ----- frame handlers

  function SetStage(f: Front, h: nat, stage: Stage): Front
    requires h in f.handlers
  {
    f.(handlers := f.handlers[h := f.handlers[h].(stage := stage)])
  }

  /** The admission test, made under the lock with the upload token held. */
  predicate Admissible(s: State, r: Request) {
    && 0.0 <= r.stamp <= MAX_STAMP
    && r.session in s.store.tracks && r.session in s.store.objs && r.session in s.front.desks
    && var t := s.store.objs[r.session];
    && var d := s.front.desks[r.session];
    && t.mode != Take && t.phase == Recording && s.workerLive
    && d.inflight < Limit(t.mode) && s.queue == 0
    && t.hz > 0.0
    && !(t.mode == Live && (t.count > 0 || d.inflight > 0) && s.now - d.last < 1.0 / t.hz - 0.005)
    && (d.inflight > 0 ==> r.stamp - d.lastSubmit >= Gap(t.hz))
    && (d.inflight == 0 && t.count > 0 ==> r.stamp - t.lastTime >= Gap(t.hz))
    && !(t.mode == Offline && t.count >= MAX_TRACK_FRAMES)
  }

  function AdmittedTake(s: Store, r: Request): Option<nat>
    requires r.session in s.objs && RecordingsAllocated(s)
  {
    match s.objs[r.session].recording
    case None => None
    case Some(k) => if r.stamp < s.objs[k].start then None else Some(k)
  }

  function Admit1(f: Front, h: nat, take: Option<nat>, now: real): Front
    requires h in f.handlers && f.handlers[h].req.session in f.desks
  {
    var r := f.handlers[h].req;
    var d := f.desks[r.session];
    f.(desks := f.desks[r.session := Desk(true, now, r.stamp, d.inflight + 1, d.next + 1, d.cancels[d.next := h])],
       handlers := f.handlers[h := Handler(Reading, r.(take := take), d.next, false, None)])
  }

  function AdmitFrame(s: State, h: nat, settingsOk: bool): Front
    requires h in s.front.handlers && RecordingsAllocated(s.store)
  {
    var r := s.front.handlers[h].req;
    if !Admissible(s, r) || !settingsOk then SetStage(s.front, h, Leaving)
    else Admit1(s.front, h, AdmittedTake(s.store, r), s.now)
  }

  function EnqueueFrame(f: Front, h: nat): Front
    requires h in f.handlers
  {
    if f.frames.Some? then SetStage(f, h, Rejected)
    else SetStage(f, h, Sent).(frames := Some(f.handlers[h].req))
  }

  function CleanupFrame(f: Front, h: nat): Front
    requires h in f.handlers && f.handlers[h].req.session in f.desks
    requires f.desks[f.handlers[h].req.session].inflight > 0
  {
    var session := f.handlers[h].req.session;
    var d := f.desks[session];
    var f1 := f.(desks := f.desks[session := d.(
                                    cancels := d.cancels - {f.handlers[h].id},
                                    inflight := d.inflight - 1,
                                    busy := d.inflight - 1 > 0)]);
    if f.handlers[h].stage == Rejected then SetStage(f1, h, Leaving)
    else f1.(handlers := f1.handlers - {h})
  }

  // ----- the queue consumer

  predicate FilesWritten(s: Store, t: nat, io: CommitIo)
    requires t in s.objs
  {
    io.storageOk && (s.objs[t].count == 0 ==> io.facesOk && io.previewOk)
  }

  /** The files and the sample of an offline commit. */
  function CommitOffline(s: Store, t: nat, stamp: real, io: CommitIo): (Store, bool)
    requires t in s.objs
  {
    if !FilesWritten(s, t, io) then (s, false) else
    var s1 := WritePose(s, t, s.objs[t].count, stamp, io.pose);
    if !PoseStored(s, t, io.pose) || !io.meshOk then (s1, false)
    else (s1.(objs := s1.objs[t := s1.objs[t].(samples := s1.objs[t].samples + [stamp])]), true)
  }

  /** The part of a frame run after inference: the commit under the lock. */
  function CommitFrame(s: Store, r: Request, cancelled: bool, io: CommitIo): (Store, Reply)
    requires r.session in s.objs && (r.take.Some? ==> r.take.value in s.objs)
    requires RecordingsAllocated(s)
  {
    var t := r.session;
    if cancelled || s.objs[t].phase != Recording then (s, Refused) else
    var (s1, filed) := if s.objs[t].mode == Offline then CommitOffline(s, t, r.stamp, io) else (s, true);
    if !filed then (s1, Refused) else
    var (s2, appended) :=
      if r.take.Some? && s1.objs[r.take.value].phase == Recording
      then AppendRecording(s1, t, r.take.value, r.stamp, io) else (s1, true);
    if !appended then (s2, Refused) else
    var s3 := s2.(objs := s2.objs[t := s2.objs[t].(count := s2.objs[t].count + 1, lastTime := r.stamp)]);
    (s3, if Saves(s3, t, io.saveOk) then Answered else Refused)
  }

  // ----- the transition system

  /** Which events can happen.  The conditions that speak of allocation hold in
      every reachable state; they only make the steps total functions. */
  predicate Enabled(s: State, e: Event) {
    var f := s.front;
    && RecordingsAllocated(s.store) && s.store.tracks <= s.store.objs.Keys <= f.desks.Keys
    && match e
       case Tick(later) => later >= s.now
       case WorkerStart => !s.workerLive
       case Create(id, mode, hz, io) =>
         && id !in s.store.objs && id !in s.store.dirs
         && |io.order| == |io.saves|
         && (forall i | 0 <= i < |io.order| :: io.order[i] in s.store.tracks)
         && (forall i, j | 0 <= i < j < |io.order| :: io.order[i] != io.order[j])
         && (forall t | t in s.store.tracks :: t in io.order)
       case Finish(_, _, _) => true
       case RecordStart(_, id, _, _, _, _) => id !in s.store.objs && id !in s.store.dirs
       case RecordStop(_, _) => true
       case Delete(_, _, _) => true
       case Rename(_, _) => true
       case AcquireOther => !f.uploads
       case ReleaseOther => f.other
       case SubmitJob => f.other && s.queue < QUEUE_SLOTS
       case Arrive(h, _, _) => !f.uploads && h !in f.handlers
       case BadRequest(h) => h in f.handlers && f.handlers[h].stage == Parsing
       case Admit(h, _) => h in f.handlers && f.handlers[h].stage == Parsing
       case ReadFail(h) => h in f.handlers && f.handlers[h].stage == Reading
       case Enqueue(h) => h in f.handlers && f.handlers[h].stage == Reading
       case ReleaseToken(h) => h in f.handlers && f.handlers[h].stage == Sent
       case Cancel(h) => h in f.handlers && Admitted(f.handlers[h].stage)
       case Receive(h) => h in f.handlers && f.handlers[h].stage == Waiting && f.handlers[h].mailbox.Some?
       case Cleanup(h) =>
         && h in f.handlers && (f.handlers[h].stage == Rejected || f.handlers[h].stage == Replied)
         && f.handlers[h].req.session in f.desks && f.desks[f.handlers[h].req.session].inflight > 0
       case Leave(h) => h in f.handlers && f.handlers[h].stage == Leaving
       case Dequeue => s.workerLive && f.worker == Idle && f.frames.Some?
       case FrameFail => f.worker.Running?
       case Commit(_) =>
         && f.worker.Running? && f.worker.req.session in s.store.objs && f.worker.req.handler in f.handlers
         && (f.worker.req.take.Some? ==> f.worker.req.take.value in s.store.objs)
       case Respond =>
         && f.worker.Responding?
         && f.worker.req.handler in f.handlers && f.handlers[f.worker.req.handler].mailbox.None?
       case PopJob => s.workerLive && f.worker == Idle && s.queue > 0
       case JobDone => f.worker == Job
  }

  function Step(s: State, e: Event): State
    requires Enabled(s, e)
  {
    var f := s.front;
    match e
    case Tick(later) => s.(now := later)
    case WorkerStart => s.(workerLive := true)
    case Create(id, mode, hz, io) =>
      var (store, made) := CreateTrack(s, id, mode, hz, io);
      s.(store := store, front := if made then f.(desks := f.desks[id := NewDesk(s.now)]) else f)
    case Finish(session, takeSaveOk, saveOk) =>
      var (store, ended) := FinishTrack(s.store, session, takeSaveOk, saveOk);
      s.(store := store,
         front := if ended then f.(handlers := CancelAll(f.handlers, f.desks[session].cancels.Values)) else f)
    case RecordStart(session, id, start, storageOk, dirOk, saveOk) =>
      var (store, made) := StartTake(s, session, id, start, storageOk, dirOk, saveOk);
      s.(store := store, front := if made then f.(desks := f.desks[id := NewDesk(0.0)]) else f)
    case RecordStop(session, saveOk) => s.(store := StopTake(s.store, session, saveOk))
    case Delete(id, removeOk, lost) => s.(store := DeleteTrack(s.store, f.desks, id, removeOk, lost))
    case Rename(_, _) => s
    case AcquireOther => s.(front := f.(uploads := true, other := true))
    case ReleaseOther => s.(front := f.(uploads := false, other := false))
    case SubmitJob => s.(queue := s.queue + 1)
    case Arrive(h, session, stamp) =>
      s.(front := f.(uploads := true,
                     handlers := f.handlers[h := Handler(Parsing, Request(h, session, None, stamp), 0, false, None)]))
    case BadRequest(h) => s.(front := SetStage(f, h, Leaving))
    case Admit(h, settingsOk) => s.(front := AdmitFrame(s, h, settingsOk))
    case ReadFail(h) => s.(front := SetStage(f, h, Rejected))
    case Enqueue(h) => s.(front := EnqueueFrame(f, h))
    case ReleaseToken(h) => s.(front := SetStage(f, h, Waiting).(uploads := false))
    case Cancel(h) => s.(front := f.(handlers := CancelAll(f.handlers, {h})))
    case Receive(h) => s.(front := f.(handlers := f.handlers[h := f.handlers[h].(stage := Replied, mailbox := None)]))
    case Cleanup(h) => s.(front := CleanupFrame(f, h))
    case Leave(h) => s.(front := f.(handlers := f.handlers - {h}, uploads := false))
    case Dequeue => s.(front := f.(worker := Running(f.frames.value), frames := None))
    case FrameFail => s.(front := f.(worker := Responding(f.worker.req, Refused)))
    case Commit(io) =>
      var (store, reply) := CommitFrame(s.store, f.worker.req, f.handlers[f.worker.req.handler].cancelled, io);
      s.(store := store, front := f.(worker := Responding(f.worker.req, reply)))
    case Respond =>
      var h := f.worker.req.handler;
      s.(front := f.(handlers := f.handlers[h := f.handlers[h].(mailbox := Some(f.worker.reply))], worker := Idle))
    case PopJob => s.(front := f.(worker := Job), queue := s.queue - 1)
    case JobDone => s.(front := f.(worker := Idle))
  }
}
