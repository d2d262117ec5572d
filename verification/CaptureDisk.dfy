/**
 The track directories on disk, beside the tracks in memory: which track files each
 event writes, and which directories are left without one.
 */
module CaptureDisk {
  import opened Wrappers
  import opened CaptureModel
  import opened CaptureInvariant
  import opened CaptureTracks
  import opened CaptureSteps
  import opened CaptureRuns
  import opened CaptureDamage

  /** The directories of tracks, and what their track files hold. */
  datatype Disk = Disk(dirs: set<nat>, files: map<nat, Track>)

  /** Outcomes that no handler sees: whether the directory of a track that could not
      be saved was removed, and whether a failed removal took the track file. */
  datatype Leftover = Leftover(removed: bool, fileLost: bool)

  /** What a track file holds: the clock and the take of a session are not saved. */
  function Persisted(o: Track): Track {
    o.(recording := None, lastTime := 0.0)
  }

  // ----- the tracks whose files an event writes

  /** The file that saving track `t` writes, if any. */
  function SaveOf(s: Store, t: nat, ok: bool): set<nat>
    requires t in s.objs
  {
    if s.objs[t].mode != Live && Saves(s, t, ok) then {t} else {}
  }

  function FinishSaved(s: Store, session: nat, saveOk: bool): set<nat>
    requires session in s.objs && RecordingsAllocated(s)
  {
    match s.objs[session].recording
    case None => {}
    case Some(k) => SaveOf(s, k, saveOk)
  }

  function FileSaved(s: Store, session: nat, k: nat, saveOk: bool): set<nat>
    requires session in s.objs && k in s.objs && RecordingsAllocated(s)
  {
    if s.objs[k].count + 1 >= MAX_TRACK_FRAMES then FinishSaved(s, session, saveOk) else SaveOf(s, k, saveOk)
  }

  function AppendSaved(s: Store, session: nat, k: nat, io: CommitIo): set<nat>
    requires session in s.objs && k in s.objs && RecordingsAllocated(s)
  {
    if io.takeStorage == StorageUnreadable then {}
    else if io.takeStorage == StorageFull then FinishSaved(s, session, io.takeSaveOk)
    else if s.objs[k].count == 0 && !(io.takePreviewOk && k in s.dirs) then {}
    else if !PoseStored(s, k, io.takePose) then {}
    else FileSaved(s, session, k, io.takeSaveOk)
  }

  /** The take files that a commit of `r` writes. */
  function TakeSaved(s: Store, r: Request, io: CommitIo): set<nat>
    requires r.session in s.objs && (r.take.Some? ==> r.take.value in s.objs) && RecordingsAllocated(s)
  {
    if r.take.Some? && s.objs[r.take.value].phase == Recording then AppendSaved(s, r.session, r.take.value, io) else {}
  }

  function CommitSaved(s: Store, r: Request, cancelled: bool, io: CommitIo): set<nat>
    requires r.session in s.objs && (r.take.Some? ==> r.take.value in s.objs)
    requires RecordingsAllocated(s)
  {
    var t := r.session;
    var o := s.objs[t];
    if cancelled || o.phase != Recording || (o.mode == Offline && !CommitOffline(s, t, r.stamp, io).1) then {} else
    var s1 := if o.mode == Offline then CommitOffline(s, t, r.stamp, io).0 else s;
    var appends := r.take.Some? && s1.objs[r.take.value].phase == Recording;
    var takes := TakeSaved(s1, r, io);
    if appends && !AppendRecording(s1, t, r.take.value, r.stamp, io).1 then takes
    else takes + SaveOf(s, t, io.saveOk)
  }

  function SweepSaved(s: Store, desks: map<nat, Desk>, now: real, order: seq<nat>, saves: seq<bool>): set<nat>
    requires |order| == |saves| && RecordingsAllocated(s)
    requires forall i | 0 <= i < |order| :: order[i] in s.objs && order[i] in desks
    decreases |order|
  {
    if order == [] then {} else
    var t := order[0];
    if Expired(s, desks, t, now) then
      var (s1, ok) := FinishRecording(s, t, Interrupted, saves[0]);
      FinishSaved(s, t, saves[0])
      + if ok then SweepSaved(s1.(tracks := s1.tracks - {t}), desks, now, order[1..], saves[1..]) else {}
    else
      SweepSaved(s, desks, now, order[1..], saves[1..])
  }

  function CreateSaved(s: State, id: nat, mode: Mode, hz: real, io: CreateIo): set<nat>
    requires |io.order| == |io.saves| && RecordingsAllocated(s.store)
    requires forall i | 0 <= i < |io.order| :: io.order[i] in s.store.objs && io.order[i] in s.front.desks
  {
    if mode == Take || hz < 1.0 || hz > 30.0 then {}
    else
      SweepSaved(s.store, s.front.desks, s.now, io.order, io.saves)
      + if mode == Offline && CreateTrack(s, id, mode, hz, io).1 then {id} else {}
  }

  function FinishTrackSaved(s: Store, session: nat, takeSaveOk: bool, saveOk: bool): set<nat>
    requires RecordingsAllocated(s) && s.tracks <= s.objs.Keys
  {
    if session !in s.tracks || s.objs[session].mode == Take then {}
    else
      FinishSaved(s, session, takeSaveOk)
      + if FinishRecording(s, session, Complete, takeSaveOk).1 then SaveOf(s, session, saveOk) else {}
  }

  /** The tracks whose files event `e` writes.  Each save comes after the last change
      that the event makes to what is saved of its track, so the file holds the track
      as the event leaves it; `CaptureServer` writes the files save by save. */
  function SavedBy(s: State, e: Event): set<nat>
    requires Enabled(s, e)
  {
    match e
    case Create(id, mode, hz, io) => CreateSaved(s, id, mode, hz, io)
    case Finish(session, takeSaveOk, saveOk) => FinishTrackSaved(s.store, session, takeSaveOk, saveOk)
    case RecordStart(session, id, start, storageOk, dirOk, saveOk) =>
      if StartTake(s, session, id, start, storageOk, dirOk, saveOk).1 then {id} else {}
    case RecordStop(session, saveOk) =>
      if session in s.store.tracks then FinishSaved(s.store, session, saveOk) else {}
    case Rename(id, saveOk) =>
      if id in s.store.tracks then SaveOf(s.store, id, saveOk) else {}
    case Commit(io) =>
      CommitSaved(s.store, s.front.worker.req, s.front.handlers[s.front.worker.req.handler].cancelled, io)
    case _ => {}
  }

  // ----- directories and files

  /** The directory that event `e` makes, whether or not its track can be saved then. */
  function MadeBy(s: State, e: Event): set<nat>
    requires Enabled(s, e)
  {
    match e
    case Create(id, mode, hz, io) => if mode == Offline && CreateTrack(s, id, mode, hz, io.(saveOk := true)).1 then {id} else {}
    case RecordStart(session, id, start, storageOk, dirOk, saveOk) =>
      if StartTake(s, session, id, start, storageOk, dirOk, true).1 then {id} else {}
    case _ => {}
  }

  function DeletedBy(s: State, e: Event): set<nat> {
    if e.Delete? && e.removeOk && Removable(s.store, s.front.desks, e.id) then {e.id} else {}
  }

  function LostBy(s: State, e: Event, x: Leftover): set<nat> {
    if e.Delete? && !e.removeOk && Removable(s.store, s.front.desks, e.id) && x.fileLost then {e.id} else {}
  }

  function CleanedBy(s: State, e: Event, x: Leftover): set<nat>
    requires Enabled(s, e)
  {
    if x.removed then MadeBy(s, e) - SavedBy(s, e) else {}
  }

  /** The files of the tracks in `saved`, as written when the tracks are those of `objs`. */
  function Files(saved: set<nat>, objs: map<nat, Track>): map<nat, Track> {
    map t | t in saved && t in objs :: Persisted(objs[t])
  }

  lemma FilesNone(objs: map<nat, Track>)
    ensures Files({}, objs) == map[]
  {
  }

  lemma FilesSame(saved: set<nat>, objs: map<nat, Track>, objs': map<nat, Track>)
    requires forall t | t in saved :: t in objs && t in objs' && Persisted(objs[t]) == Persisted(objs'[t])
    ensures Files(saved, objs) == Files(saved, objs')
  {
    hide Persisted;
  }

  lemma FilesUnion(a: set<nat>, b: set<nat>, objs: map<nat, Track>)
    ensures Files(a, objs) + Files(b, objs) == Files(a + b, objs)
  {
    hide Persisted;
  }

  function Written(s: State, e: Event): map<nat, Track>
    requires Enabled(s, e)
  {
    Files(SavedBy(s, e), Step(s, e).store.objs)
  }

  function DiskStep(s: State, e: Event, x: Leftover, d: Disk): Disk
    requires Enabled(s, e)
  {
    Disk(d.dirs + MadeBy(s, e) - CleanedBy(s, e, x) - DeletedBy(s, e),
         (d.files + Written(s, e)) - DeletedBy(s, e) - LostBy(s, e, x))
  }

  /** A directory is made under a new name. */
  predicate Fresh(e: Event, d: Disk) {
    e.Create? || e.RecordStart? ==> e.id !in d.dirs
  }

  /** After loading, every directory holds an up-to-date track file. */
  predicate DiskInit(s: State, d: Disk) {
    && d.dirs == d.files.Keys == s.store.dirs
    && forall t | t in d.files :: t in s.store.objs && d.files[t] == Persisted(s.store.objs[t])
  }

  /** A run together with what it leaves on disk. */
  ghost predicate IsDiskRun(states: seq<State>, events: seq<Event>, outcomes: seq<Leftover>, disks: seq<Disk>) {
    && IsRun(states, events) && |outcomes| == |events| && |disks| == |states|
    && DiskInit(states[0], disks[0])
    && forall i | 0 <= i < |events| ::
         Fresh(events[i], disks[i]) && disks[i + 1] == DiskStep(states[i], events[i], outcomes[i], disks[i])
  }

  predicate DiskOk(s: State, d: Disk) {
    s.store.dirs <= d.dirs && d.files.Keys <= d.dirs
  }

  // ----- only tracks with a directory are written

  lemma DirsKnown(s: State)
    requires Inv(s)
    ensures s.store.dirs <= s.store.objs.Keys
  {
    hide FrontInv, LinkInv, FilesOk, SamplesOk, RecordingOk;
  }

  lemma FinishInside(s: Store, t: nat, phase: Phase, saveOk: bool)
    requires t in s.objs && RecordingsAllocated(s)
    ensures var s' := FinishRecording(s, t, phase, saveOk).0;
            s'.objs.Keys == s.objs.Keys && s'.dirs == s.dirs && RecordingsAllocated(s')
  {
  }

  lemma FinishOwned(s: Store, t: nat, saveOk: bool)
    requires t in s.objs && RecordingsAllocated(s)
    ensures FinishSaved(s, t, saveOk) <= s.dirs
  {
  }

  lemma {:induction false} SweepInside(s: Store, desks: map<nat, Desk>, now: real, order: seq<nat>, saves: seq<bool>)
    requires |order| == |saves| && RecordingsAllocated(s)
    requires forall i | 0 <= i < |order| :: order[i] in s.objs && order[i] in desks
    ensures SweepSaved(s, desks, now, order, saves) <= s.dirs
    decreases |order|
  {
    hide FinishRecording, FinishSaved;
    if order != [] {
      FinishInside(s, order[0], Interrupted, saves[0]);
      FinishOwned(s, order[0], saves[0]);
      if Expired(s, desks, order[0], now) {
        var (s1, ok) := FinishRecording(s, order[0], Interrupted, saves[0]);
        if ok { SweepInside(s1.(tracks := s1.tracks - {order[0]}), desks, now, order[1..], saves[1..]); }
      } else {
        SweepInside(s, desks, now, order[1..], saves[1..]);
      }
    }
  }

  lemma AppendInside(s: Store, t: nat, k: nat, io: CommitIo)
    requires t in s.objs && k in s.objs && RecordingsAllocated(s)
    ensures AppendSaved(s, t, k, io) <= s.dirs
  {
    hide FinishSaved;
    FinishOwned(s, t, io.takeSaveOk);
  }

  lemma CommitInside(s: Store, r: Request, cancelled: bool, io: CommitIo)
    requires RecordingsAllocated(s) && RequestOk(s.objs, r)
    ensures CommitSaved(s, r, cancelled, io) <= s.dirs
  {
    hide AppendRecording, CommitOffline, AppendSaved, RecordingsAllocated;
    if r.take.Some? {
      AppendInside(s, r.session, r.take.value, io);
    }
  }

  lemma RouteInside(s: State, e: Event)
    requires Enabled(s, e) && (e.Finish? || e.RecordStop? || e.Rename?)
    ensures SavedBy(s, e) <= s.store.dirs
  {
    hide FinishSaved, FinishRecording;
    if e.Finish? && e.session in s.store.tracks { FinishOwned(s.store, e.session, e.takeSaveOk); }
    if e.RecordStop? && e.session in s.store.tracks { FinishOwned(s.store, e.session, e.saveOk); }
  }

  lemma CreateInside(s: State, e: Event)
    requires Enabled(s, e) && (e.Create? || e.RecordStart?)
    ensures SavedBy(s, e) <= s.store.dirs + MadeBy(s, e)
    ensures MadeBy(s, e) * SavedBy(s, e) <= Step(s, e).store.objs.Keys
  {
    hide SweepSaved, Sweep;
    if e.Create? { SweepInside(s.store, s.front.desks, s.now, e.createIo.order, e.createIo.saves); }
  }

  lemma CommitEventInside(s: State, e: Event)
    requires Inv(s) && Enabled(s, e) && e.Commit? && s.front.worker.Running?
    ensures SavedBy(s, e) <= s.store.dirs
  {
    hide Inv, CommitSaved;
    RunningFacts(s);
    CommitInside(s.store, s.front.worker.req, s.front.handlers[s.front.worker.req.handler].cancelled, e.io);
  }

  lemma ObjectsStay(s: State, e: Event)
    requires Inv(s) && Enabled(s, e)
    ensures s.store.objs.Keys <= Step(s, e).store.objs.Keys
  {
    hide Inv, Step, Enabled, DirsKept;
    EventAdds(s, e);
  }

  lemma NothingSaved(s: State, e: Event)
    requires Enabled(s, e)
    requires !e.Create? && !e.RecordStart? && !e.Finish? && !e.RecordStop? && !e.Rename? && !e.Commit?
    ensures SavedBy(s, e) == {}
  {
  }

  lemma NothingMade(s: State, e: Event)
    requires Enabled(s, e) && !e.Create? && !e.RecordStart?
    ensures MadeBy(s, e) == {}
  {
  }

  /** What is saved has a directory, and is there after the event. */
  lemma SavedInside(s: State, e: Event)
    requires Inv(s) && Enabled(s, e)
    ensures SavedBy(s, e) <= s.store.dirs + MadeBy(s, e)
    ensures SavedBy(s, e) <= Step(s, e).store.objs.Keys
  {
    CommitRuns(s, e);
    DirsKnown(s);
    hide Inv, Step, Enabled, SavedBy, MadeBy;
    ObjectsStay(s, e);
    if e.Create? || e.RecordStart? {
      CreateInside(s, e);
    } else {
      NothingMade(s, e);
      if e.Finish? || e.RecordStop? || e.Rename? {
        RouteInside(s, e);
      } else if e.Commit? {
        CommitEventInside(s, e);
      } else {
        NothingSaved(s, e);
      }
    }
  }

  lemma AppendDirs(s: Store, t: nat, k: nat, stamp: real, io: CommitIo)
    requires t in s.objs && k in s.objs && RecordingsAllocated(s)
    ensures AppendRecording(s, t, k, stamp, io).0.dirs == s.dirs
  {
  }

  lemma CommitDirs(s: Store, r: Request, cancelled: bool, io: CommitIo)
    requires r.session in s.objs && (r.take.Some? ==> r.take.value in s.objs) && RecordingsAllocated(s)
    ensures CommitFrame(s, r, cancelled, io).0.dirs == s.dirs
  {
    hide AppendRecording, CommitOffline;
    OfflineDirs(s, r.session, r.stamp, io);
    if r.take.Some? {
      AppendDirs(s, r.session, r.take.value, r.stamp, io);
      if CommitOffline(s, r.session, r.stamp, io).1 {
        AppendDirs(CommitOffline(s, r.session, r.stamp, io).0, r.session, r.take.value, r.stamp, io);
      }
    }
  }

  lemma OfflineDirs(s: Store, t: nat, stamp: real, io: CommitIo)
    requires t in s.objs && RecordingsAllocated(s)
    ensures var s' := CommitOffline(s, t, stamp, io).0; s'.dirs == s.dirs && s'.objs.Keys == s.objs.Keys && RecordingsAllocated(s')
  {
  }

  /** The directories of listed tracks change with what is made, saved and deleted. */
  lemma CreateDirs(s: State, e: Event)
    requires Enabled(s, e) && e.Create?
    ensures Step(s, e).store.dirs <= s.store.dirs + (MadeBy(s, e) * SavedBy(s, e))
  {
    hide Sweep, SweepSaved;
    SweepDirs(s.store, s.front.desks, s.now, e.createIo.order, e.createIo.saves);
  }

  lemma StartDirs(s: State, e: Event)
    requires Enabled(s, e) && e.RecordStart?
    ensures Step(s, e).store.dirs <= s.store.dirs + (MadeBy(s, e) * SavedBy(s, e))
  {
  }

  lemma RouteDirs(s: State, e: Event)
    requires Enabled(s, e) && (e.Finish? || e.RecordStop? || e.Delete?)
    ensures Step(s, e).store.dirs <= s.store.dirs - DeletedBy(s, e)
  {
    hide FinishRecording;
    if e.Finish? && e.session in s.store.tracks { FinishInside(s.store, e.session, Complete, e.takeSaveOk); }
    if e.RecordStop? && e.session in s.store.tracks { FinishInside(s.store, e.session, Complete, e.saveOk); }
  }

  lemma CommitEventDirs(s: State, e: Event)
    requires Enabled(s, e) && e.Commit?
    ensures Step(s, e).store.dirs == s.store.dirs
  {
    hide CommitFrame;
    CommitDirs(s.store, s.front.worker.req, s.front.handlers[s.front.worker.req.handler].cancelled, e.io);
  }

  lemma StoreDirs(s: State, e: Event)
    requires Enabled(s, e)
    ensures Step(s, e).store.dirs <= (s.store.dirs + (MadeBy(s, e) * SavedBy(s, e))) - DeletedBy(s, e)
  {
    hide Step, Enabled, MadeBy, SavedBy;
    if e.Create? {
      CreateDirs(s, e);
    } else if e.RecordStart? {
      StartDirs(s, e);
    } else if e.Finish? || e.RecordStop? || e.Delete? {
      RouteDirs(s, e);
    } else if e.Commit? {
      CommitEventDirs(s, e);
    } else {
      StoreUntouched(s, e);
    }
  }

  // ----- directories without a track file

  function Trackless(d: Disk): set<nat> {
    d.dirs - d.files.Keys
  }

  /** Event `e` makes the directory of a new track, and can neither save the track nor
      remove the directory. */
  predicate Abandons(s: State, e: Event, x: Leftover, t: nat)
    requires Enabled(s, e)
  {
    t in MadeBy(s, e) && t !in SavedBy(s, e) && !x.removed
  }

  /** Event `e` leaves the directory of `t` without a track file: it abandons the new
      directory, or a removal fails after the file is gone. */
  predicate LeavesTrackless(s: State, e: Event, x: Leftover, t: nat)
    requires Enabled(s, e)
  {
    Abandons(s, e, x, t) || t in LostBy(s, e, x)
  }

  /** Event `e` writes the track file of `t` anew, or deletes its directory. */
  predicate Heals(s: State, e: Event, t: nat)
    requires Enabled(s, e)
  {
    t in SavedBy(s, e) || t in DeletedBy(s, e)
  }

  lemma MadeFresh(s: State, e: Event, d: Disk)
    requires Enabled(s, e) && Fresh(e, d)
    ensures MadeBy(s, e) * d.dirs == {}
  {
    hide CreateTrack, StartTake;
  }

  lemma DeleteAlone(s: State, e: Event, x: Leftover)
    requires Inv(s) && Enabled(s, e)
    ensures DeletedBy(s, e) + LostBy(s, e, x) <= s.store.dirs
    ensures e.Delete? ==> MadeBy(s, e) == {} && SavedBy(s, e) == {}
    ensures !e.Delete? ==> DeletedBy(s, e) == {} && LostBy(s, e, x) == {}
    ensures DeletedBy(s, e) == {} || LostBy(s, e, x) == {}
  {
    hide FrontInv, LinkInv, RecordingOk, FilesOk, SamplesOk;
    if e.Delete? && Removable(s.store, s.front.desks, e.id) {
      assert TrackOk(s.store.objs[e.id], e.id in s.store.tracks, e.id in s.store.dirs);
    }
  }

  lemma DiskStays(s: State, e: Event, x: Leftover, d: Disk)
    requires Inv(s) && Enabled(s, e) && Fresh(e, d) && DiskOk(s, d)
    ensures DiskOk(Step(s, e), DiskStep(s, e, x, d))
  {
    hide Inv, Step, Enabled, SavedBy, MadeBy, DeletedBy, LostBy;
    StoreDirs(s, e);
    SavedInside(s, e);
    MadeFresh(s, e, d);
    DeleteAlone(s, e, x);
  }

  lemma InDisk(s: State, e: Event, x: Leftover, d: Disk, t: nat)
    requires Inv(s) && Enabled(s, e)
    ensures var d' := DiskStep(s, e, x, d);
            && (t in d'.dirs <==> (t in d.dirs || t in MadeBy(s, e)) && !(x.removed && t in MadeBy(s, e) && t !in SavedBy(s, e)) && t !in DeletedBy(s, e))
            && (t in d'.files <==> (t in d.files || t in SavedBy(s, e)) && t !in DeletedBy(s, e) && t !in LostBy(s, e, x))
  {
    hide Inv, Step, Enabled, SavedBy, MadeBy, DeletedBy, LostBy;
    SavedInside(s, e);
  }

  /** The directories without a track file: an event adds exactly those it leaves, and
      takes away exactly those whose file it writes or that it deletes. */
  lemma TracklessStep(s: State, e: Event, x: Leftover, d: Disk, t: nat)
    requires Inv(s) && Enabled(s, e) && Fresh(e, d) && DiskOk(s, d)
    ensures t in Trackless(DiskStep(s, e, x, d))
            <==> (t in Trackless(d) && !Heals(s, e, t)) || LeavesTrackless(s, e, x, t)
  {
    hide Inv, Step, Enabled, SavedBy, MadeBy, DeletedBy, LostBy, DiskStep;
    InDisk(s, e, x, d, t);
    MadeFresh(s, e, d);
    DeleteAlone(s, e, x);
    assert t in MadeBy(s, e) ==> t !in d.dirs by {
      assert t !in MadeBy(s, e) * d.dirs;
    }
    assert t in DeletedBy(s, e) + LostBy(s, e, x) ==> t in d.dirs;
    if e.Delete? {
      assert t !in MadeBy(s, e) && t !in SavedBy(s, e);
    }
  }

  // ----- whole runs

  lemma {:induction false} DiskHolds(states: seq<State>, events: seq<Event>, outcomes: seq<Leftover>, disks: seq<Disk>, n: nat)
    requires IsDiskRun(states, events, outcomes, disks) && n <= |events|
    ensures DiskOk(states[n], disks[n])
  {
    hide Inv, Init, Step, Enabled, Fresh, DiskStep, DiskOk, DiskInit;
    if n == 0 {
      DiskStarts(states[0], disks[0]);
    } else {
      var p := n - 1;
      DiskHolds(states, events, outcomes, disks, p);
      RunInv(states, events, p);
      NextDisk(states, events, outcomes, disks, p);
      DiskStays(states[p], events[p], outcomes[p], disks[p]);
    }
  }

  lemma NextDisk(states: seq<State>, events: seq<Event>, outcomes: seq<Leftover>, disks: seq<Disk>, p: nat)
    requires IsDiskRun(states, events, outcomes, disks) && p < |events|
    ensures Enabled(states[p], events[p]) && Fresh(events[p], disks[p])
    ensures states[p + 1] == Step(states[p], events[p])
    ensures disks[p + 1] == DiskStep(states[p], events[p], outcomes[p], disks[p])
  {
    hide Init, Step, Enabled, Fresh, DiskStep, DiskInit;
  }

  lemma DiskStarts(s: State, d: Disk)
    requires DiskInit(s, d)
    ensures DiskOk(s, d) && Trackless(d) == {}
  {
  }

  /** Event `m` leaves the directory of `t` without a track file, and no event before
      state `n` mends that. */
  ghost predicate LeftTrackless(states: seq<State>, events: seq<Event>, outcomes: seq<Leftover>, m: nat, n: nat, t: nat)
    requires IsRun(states, events) && |outcomes| == |events| && n <= |events|
  {
    m < n && LeavesTrackless(states[m], events[m], outcomes[m], t)
    && forall i | m < i < n :: !Heals(states[i], events[i], t)
  }

  /** Over every run, a directory is without a track file exactly if an event has left
      it so and none has mended it since. */
  lemma {:induction false} TracklessHistory(states: seq<State>, events: seq<Event>, outcomes: seq<Leftover>, disks: seq<Disk>, n: nat, t: nat)
    requires IsDiskRun(states, events, outcomes, disks) && n <= |events|
    ensures t in Trackless(disks[n]) <==> exists m :: LeftTrackless(states, events, outcomes, m, n, t)
  {
    hide Inv, Init, Step, Enabled, Fresh, DiskStep, DiskOk, LeavesTrackless, Heals, Trackless;
    if n > 0 {
      var p := n - 1;
      TracklessHistory(states, events, outcomes, disks, p, t);
      RunInv(states, events, p);
      DiskHolds(states, events, outcomes, disks, p);
      TracklessStep(states[p], events[p], outcomes[p], disks[p], t);
      if m: nat :| LeftTrackless(states, events, outcomes, m, p, t) {
        if !Heals(states[p], events[p], t) {
          assert LeftTrackless(states, events, outcomes, m, n, t);
        }
      }
      if LeavesTrackless(states[p], events[p], outcomes[p], t) {
        assert LeftTrackless(states, events, outcomes, p, n, t);
      }
      if m: nat :| LeftTrackless(states, events, outcomes, m, n, t) {
        if m < p {
          assert LeftTrackless(states, events, outcomes, m, p, t);
          assert !Heals(states[p], events[p], t);
        }
      }
    } else {
      DiskStarts(states[0], disks[0]);
    }
  }

  lemma Abandoned(s: State, e: Event, x: Leftover, d: Disk, t: nat)
    requires Inv(s) && Enabled(s, e) && Fresh(e, d) && DiskOk(s, d) && Abandons(s, e, x, t)
    ensures t in Trackless(DiskStep(s, e, x, d)) && t !in Step(s, e).store.dirs
  {
    hide Inv, Step, Enabled, SavedBy, MadeBy, DeletedBy, LostBy, DiskStep, Trackless;
    TracklessStep(s, e, x, d, t);
    StoreDirs(s, e);
    MadeFresh(s, e, d);
    assert t !in d.dirs by { assert t !in MadeBy(s, e) * d.dirs; }
  }

  lemma StillAbandoned(s: State, e: Event, x: Leftover, d: Disk, t: nat)
    requires Inv(s) && Enabled(s, e) && Fresh(e, d) && DiskOk(s, d) && t in Trackless(d) && t !in s.store.dirs
    ensures t in Trackless(DiskStep(s, e, x, d)) && t !in Step(s, e).store.dirs
  {
    hide Inv, Step, Enabled, SavedBy, MadeBy, DeletedBy, LostBy, DiskStep;
    TracklessStep(s, e, x, d, t);
    StoreDirs(s, e);
    SavedInside(s, e);
    DeleteAlone(s, e, x);
    MadeFresh(s, e, d);
    assert t !in MadeBy(s, e) by { assert t !in MadeBy(s, e) * d.dirs; }
    assert t !in DeletedBy(s, e) + LostBy(s, e, x);
  }

  /** A directory that an event has abandoned is without a track file ever after. */
  lemma {:induction false} AbandonedForGood(states: seq<State>, events: seq<Event>, outcomes: seq<Leftover>, disks: seq<Disk>, m: nat, n: nat, t: nat)
    requires IsDiskRun(states, events, outcomes, disks) && m < n <= |events| && Abandons(states[m], events[m], outcomes[m], t)
    ensures t in Trackless(disks[n]) && t !in states[n].store.dirs
    decreases n
  {
    hide Inv, Init, Step, Enabled, Fresh, DiskStep, DiskInit, DiskOk, Abandons, Trackless;
    var p := n - 1;
    RunInv(states, events, p);
    DiskHolds(states, events, outcomes, disks, p);
    NextDisk(states, events, outcomes, disks, p);
    if m == p {
      Abandoned(states[p], events[p], outcomes[p], disks[p], t);
    } else {
      AbandonedForGood(states, events, outcomes, disks, m, p, t);
      StillAbandoned(states[p], events[p], outcomes[p], disks[p], t);
    }
  }

  /** A track file holds a saved track as it was in some state of the run. */
  ghost predicate FromPast(states: seq<State>, d: Disk, n: nat, t: nat)
    requires t in d.files && n < |states|
  {
    exists m: nat :: HeldAt(states, d.files[t], m, n, t)
  }

  predicate HeldAt(states: seq<State>, file: Track, m: nat, n: nat, t: nat)
    requires n < |states|
  {
    && m <= n && t in states[m].store.objs
    && states[m].store.objs[t].mode != Live && file == Persisted(states[m].store.objs[t])
  }

  lemma NewMode(s: State, e: Event, t: nat)
    requires Enabled(s, e) && t in MadeBy(s, e) && t in SavedBy(s, e)
    ensures t in Step(s, e).store.objs && Step(s, e).store.objs[t].mode != Live
  {
    hide Sweep, SweepSaved;
    if e.Create? { SweepInside(s.store, s.front.desks, s.now, e.createIo.order, e.createIo.saves); }
  }

  lemma SavedMode(s: State, e: Event, t: nat)
    requires Inv(s) && Enabled(s, e) && t in SavedBy(s, e)
    ensures t in Step(s, e).store.objs && Step(s, e).store.objs[t].mode != Live
  {
    hide Inv, Step, Enabled, SavedBy, MadeBy, DirsKept;
    SavedInside(s, e);
    if t in MadeBy(s, e) {
      NewMode(s, e, t);
    } else {
      DirMode(s, t);
      EventAdds(s, e);
    }
  }

  lemma DirMode(s: State, t: nat)
    requires Inv(s) && t in s.store.dirs
    ensures t in s.store.objs && s.store.objs[t].mode != Live
  {
    hide FrontInv, LinkInv, RecordingOk, FilesOk, SamplesOk;
    assert TrackOk(s.store.objs[t], t in s.store.tracks, t in s.store.dirs);
  }

  lemma {:induction false} FilesFromPast(states: seq<State>, events: seq<Event>, outcomes: seq<Leftover>, disks: seq<Disk>, n: nat, t: nat)
    requires IsDiskRun(states, events, outcomes, disks) && n <= |events| && t in disks[n].files
    ensures FromPast(states, disks[n], n, t)
  {
    hide Inv, Init, Step, Enabled, Fresh, SavedBy, MadeBy, Persisted;
    if n == 0 {
      RunInv(states, events, 0);
      DirMode(states[0], t);
      assert HeldAt(states, disks[0].files[t], 0, 0, t);
    } else {
      var p := n - 1;
      NextDisk(states, events, outcomes, disks, p);
      RunInv(states, events, p);
      if t in SavedBy(states[p], events[p]) {
        SavedMode(states[p], events[p], t);
        assert HeldAt(states, disks[n].files[t], n, n, t);
      } else {
        FilesFromPast(states, events, outcomes, disks, p, t);
        assert disks[n].files[t] == disks[p].files[t];
        var m: nat :| HeldAt(states, disks[p].files[t], m, p, t);
        assert HeldAt(states, disks[n].files[t], m, n, t);
      }
    }
  }
}
