/**
 The critical sections of the server as it runs them: fields updated in place,
 statement by statement, under the application lock.  Every method is proved
 against the event of the transition system that it implements.
 */
module CaptureServer {
  import opened Wrappers
  import opened CaptureModel
  import opened CaptureInvariant
  import opened CaptureRuns
  import opened CaptureSteps
  import opened CaptureDamage
  import opened CaptureDisk
  import CaptureProgress

  class Server {
    const maxJobs: nat
    var objs: map<nat, Track>
    var tracks: set<nat>
    var dirs: set<nat>
    var poses: map<(nat, nat), Pose>
    ghost var dirty: set<nat>
    ghost var damaged: set<nat>
    // What lies on the disk: the directories, those of failed tracks included, and
    // the track files.
    var folders: set<nat>
    var files: map<nat, Track>
    var desks: map<nat, Desk>
    var handlers: map<nat, Handler>
    var uploads: bool
    var other: bool
    var frames: Option<Request>
    var queue: nat
    var worker: Worker
    var workerLive: bool
    var now: real

    ghost function Memory(): Store
      reads this
    {
      Store(objs, tracks, dirs, poses, dirty, damaged)
    }

    ghost function OnDisk(): Disk
      reads this
    {
      Disk(folders, files)
    }

    ghost function Lines(): Front
      reads this
    {
      Front(desks, handlers, uploads, other, frames, worker)
    }

    ghost function Snapshot(): State
      reads this
    {
      State(Memory(), Lines(), queue, workerLive, now, maxJobs)
    }

    ghost predicate Valid()
      reads this
    {
      Inv(Snapshot())
    }

    /** A server over the tracks that a restart has loaded, before its consumer starts. */
    constructor (maxJobs: nat, now: real, loaded: map<nat, Track>, poses: map<(nat, nat), Pose>, ghost dirty: set<nat>, ghost damaged: set<nat>)
      requires damaged <= loaded.Keys
      requires forall t | t in loaded :: LoadedOk(Store(loaded, loaded.Keys, loaded.Keys, poses, dirty, damaged), t)
      ensures Init(Snapshot()) && Valid()
      ensures Memory() == Store(loaded, loaded.Keys, loaded.Keys, poses, dirty, damaged) && this.now == now && this.maxJobs == maxJobs
      ensures DiskInit(Snapshot(), OnDisk())
    {
      this.maxJobs := maxJobs;
      this.now := now;
      objs, tracks, dirs := loaded, loaded.Keys, loaded.Keys;
      folders, files := loaded.Keys, map t | t in loaded :: Persisted(loaded[t]);
      this.poses, this.dirty, this.damaged := poses, dirty, damaged;
      desks := map t | t in loaded :: NewDesk(0.0);
      handlers := map[];
      uploads, other, frames, queue, worker, workerLive := false, false, None, 0, Idle, false;
      new;
      InitInv(Snapshot());
    }

    // ----- track files

    method WritePoseFile(t: nat, index: nat, time: real, outcome: PoseWrite) returns (ok: bool)
      modifies this`poses
      ensures Memory() == WritePose(old(Memory()), t, index, time, outcome)
      ensures ok == PoseStored(old(Memory()), t, outcome)
    {
      if t !in dirs {
        return false;
      }
      match outcome
      case PoseInvalid => return false;
      case PoseTorn => poses := poses[(t, index) := Torn]; return false;
      case PoseWritten => poses := poses[(t, index) := Intact(time)]; return true;
    }

    method SaveTrack(t: nat, writeOk: bool) returns (ok: bool)
      requires t in objs
      modifies this`files
      ensures ok == Saves(Memory(), t, writeOk)
      ensures files == old(files) + Files(SaveOf(Memory(), t, writeOk), objs)
    {
      if objs[t].mode == Live {
        return true;
      }
      if !writeOk || t !in dirs {
        return false;
      }
      files := files[t := Persisted(objs[t])];
      return true;
    }

    // ----- takes

    method FinishRecording(session: nat, phase: Phase, saveOk: bool) returns (ok: bool)
      requires session in objs && RecordingsAllocated(Memory())
      modifies this`objs, this`files
      ensures (Memory(), ok) == CaptureModel.FinishRecording(old(Memory()), session, phase, saveOk)
      ensures files == old(files) + Files(FinishSaved(old(Memory()), session, saveOk), objs)
      ensures objs.Keys == old(objs.Keys)
    {
      hide Saves, SaveOf, Files, Persisted;
      FilesNone(objs);
      var recording := objs[session].recording;
      if recording.None? {
        return true;
      }
      var k := recording.value;
      ghost var s := Memory();
      objs := objs[k := objs[k].(phase := phase)];
      EndedFiles(s, objs, session, k, phase, saveOk);
      var saved := SaveTrack(k, saveOk);
      if !saved {
        return false;
      }
      objs := objs[session := objs[session].(recording := None)];
      return true;
    }

    static lemma EndedFiles(s: Store, objs: map<nat, Track>, session: nat, k: nat, phase: Phase, saveOk: bool)
      requires session in s.objs && k in s.objs && objs == s.objs[k := s.objs[k].(phase := phase)]
      ensures Saves(s.(objs := objs), k, saveOk) == Saves(s, k, saveOk)
      ensures SaveOf(s.(objs := objs), k, saveOk) == SaveOf(s, k, saveOk)
      ensures Files(SaveOf(s, k, saveOk), objs[session := objs[session].(recording := None)]) == Files(SaveOf(s, k, saveOk), objs)
    {
      FilesSame(SaveOf(s, k, saveOk), objs[session := objs[session].(recording := None)], objs);
      hide Files;
    }

    method FileSample(session: nat, k: nat, time: real, saveOk: bool) returns (ok: bool)
      requires session in objs && k in objs && RecordingsAllocated(Memory())
      modifies this`objs, this`dirty, this`files
      ensures (Memory(), ok) == CaptureModel.FileSample(old(Memory()), session, k, time, saveOk)
      ensures files == old(files) + Files(FileSaved(old(Memory()), session, k, saveOk), objs)
      ensures objs.Keys == old(objs.Keys)
    {
      hide CaptureModel.FinishRecording, FinishSaved, SaveOf, Saves, Files;
      ghost var s := Memory();
      SampleFiles(s, session, k, time, saveOk);
      objs := objs[k := objs[k].(samples := objs[k].samples + [time])];
      objs := objs[k := objs[k].(count := objs[k].count + 1)];
      assert Memory().objs == AddSample(s, k, time).objs;
      if objs[k].count >= MAX_TRACK_FRAMES {
        ok := FinishRecording(session, Complete, saveOk);
      } else {
        ok := SaveTrack(k, saveOk);
      }
      if !ok {
        dirty := dirty + {k};
      }
    }

    static lemma SampleFiles(s: Store, session: nat, k: nat, time: real, saveOk: bool)
      requires session in s.objs && k in s.objs && RecordingsAllocated(s)
      ensures RecordingsAllocated(AddSample(s, k, time))
      ensures FinishSaved(AddSample(s, k, time), session, saveOk) == FinishSaved(s, session, saveOk)
      ensures SaveOf(AddSample(s, k, time), k, saveOk) == SaveOf(s, k, saveOk)
    {
    }

    method AppendRecording(session: nat, k: nat, stamp: real, io: CommitIo) returns (ok: bool)
      requires session in objs && k in objs && RecordingsAllocated(Memory())
      modifies this`objs, this`poses, this`dirty, this`files
      ensures (Memory(), ok) == CaptureModel.AppendRecording(old(Memory()), session, k, stamp, io)
      ensures files == old(files) + Files(AppendSaved(old(Memory()), session, k, io), objs)
      ensures objs.Keys == old(objs.Keys)
    {
      hide CaptureModel.FinishRecording, CaptureModel.FileSample, WritePose, FinishSaved, FileSaved, Saves, Files;
      FilesNone(objs);
      if io.takeStorage == StorageUnreadable {
        return false;
      }
      if io.takeStorage == StorageFull {
        var stopped := FinishRecording(session, Interrupted, io.takeSaveOk);
        return false;
      }
      if objs[k].count == 0 && !(io.takePreviewOk && k in dirs) {
        return false;
      }
      var time := stamp - objs[k].start;
      PoseFiles(Memory(), session, k, objs[k].count, time, io);
      var stored := WritePoseFile(k, objs[k].count, time, io.takePose);
      if !stored {
        return false;
      }
      ok := FileSample(session, k, time, io.takeSaveOk);
    }

    static lemma PoseFiles(s: Store, session: nat, k: nat, index: nat, time: real, io: CommitIo)
      requires session in s.objs && k in s.objs && RecordingsAllocated(s)
      ensures var s1 := WritePose(s, k, index, time, io.takePose);
              && s1.objs == s.objs && RecordingsAllocated(s1)
              && FileSaved(s1, session, k, io.takeSaveOk) == FileSaved(s, session, k, io.takeSaveOk)
    {
    }

    // ----- the routes

    /** The directory and the track file of a new track; `removed` says whether the
        directory of one that cannot be saved is removed again. */
    method MakeTrack(id: nat, t: Track, dirOk: bool, saveOk: bool, removed: bool) returns (made: bool)
      requires id !in folders
      modifies this`dirs, this`folders, this`files
      ensures made <==> dirOk && saveOk
      ensures dirs == if made then old(dirs) + {id} else old(dirs)
      ensures folders == old(folders) + if dirOk && (saveOk || !removed) then {id} else {}
      ensures files == if made then old(files)[id := Persisted(t)] else old(files)
    {
      if !dirOk {
        return false;
      }
      folders := folders + {id};
      if !saveOk {
        if removed {
          folders := folders - {id};
        }
        return false;
      }
      files := files[id := Persisted(t)];
      dirs := dirs + {id};
      return true;
    }

    /** One critical section of `createTrack`, sweep of abandoned sessions included. */
    method CreateTrack(id: nat, mode: Mode, hz: real, io: CreateIo, x: Leftover) returns (made: bool)
      requires Valid() && Enabled(Snapshot(), Create(id, mode, hz, io)) && Fresh(Create(id, mode, hz, io), OnDisk())
      modifies this`objs, this`tracks, this`dirs, this`folders, this`files, this`desks
      ensures Snapshot() == Step(old(Snapshot()), Create(id, mode, hz, io)) && Valid()
      ensures OnDisk() == DiskStep(old(Snapshot()), Create(id, mode, hz, io), x, old(OnDisk()))
    {
      hide Inv, Enabled, Step, CaptureModel.CreateTrack, CreateSaved, DiskStep, RecordingsAllocated, Files;
      ghost var s, e := Snapshot(), Create(id, mode, hz, io);
      StepKeeps(s, e);
      DirsKnown(s);
      CreateShape(s, id, mode, hz, io);
      CreateDisk(s, e, x, OnDisk());
      made := TryCreate(id, mode, hz, io, x.removed);
      if made {
        desks := desks[id := NewDesk(now)];
      }
    }

    static lemma CreateShape(s: State, id: nat, mode: Mode, hz: real, io: CreateIo)
      requires Enabled(s, Create(id, mode, hz, io))
      ensures && |io.order| == |io.saves| && RecordingsAllocated(s.store) && s.store.tracks <= s.store.objs.Keys && id !in s.store.objs
              && forall i | 0 <= i < |io.order| :: io.order[i] in s.store.objs && io.order[i] in s.front.desks
      ensures var (store, made) := CaptureModel.CreateTrack(s, id, mode, hz, io);
              Step(s, Create(id, mode, hz, io))
              == s.(store := store, front := if made then s.front.(desks := s.front.desks[id := NewDesk(s.now)]) else s.front)
    {
      hide CaptureModel.CreateTrack, RecordingsAllocated;
    }

    static lemma CreateFails(s: State, id: nat, mode: Mode, hz: real, io: CreateIo)
      requires |io.order| == |io.saves| && RecordingsAllocated(s.store)
      requires forall i | 0 <= i < |io.order| :: io.order[i] in s.store.objs && io.order[i] in s.front.desks
      ensures mode == Take || hz < 1.0 || hz > 30.0 || (mode == Offline && !io.saveOk) ==> !CaptureModel.CreateTrack(s, id, mode, hz, io).1
    {
      hide CaptureModel.Sweep, RecordingsAllocated;
    }

    static lemma CreateDisk(s: State, e: Event, x: Leftover, d: Disk)
      requires Enabled(s, e) && e.Create? && s.store.dirs <= s.store.objs.Keys && Fresh(e, d)
      ensures DiskStep(s, e, x, d)
              == Disk(d.dirs + if e.mode == Offline && CaptureModel.CreateTrack(s, e.id, e.mode, e.hz, e.createIo.(saveOk := true)).1
                                  && (e.createIo.saveOk || !x.removed) then {e.id} else {},
                      d.files + Files(CreateSaved(s, e.id, e.mode, e.hz, e.createIo), Step(s, e).store.objs))
    {
      hide CaptureModel.Sweep, CaptureModel.CreateTrack, SweepSaved, Files, RecordingsAllocated;
      CreateFails(s, e.id, e.mode, e.hz, e.createIo);
      SweepInside(s.store, s.front.desks, s.now, e.createIo.order, e.createIo.saves);
      assert e.createIo.saveOk ==> e.createIo == e.createIo.(saveOk := true);
      var saved := CreateSaved(s, e.id, e.mode, e.hz, e.createIo);
      assert e.id in saved <==> e.mode == Offline && CaptureModel.CreateTrack(s, e.id, e.mode, e.hz, e.createIo).1;
      assert DeletedBy(s, e) == {} && LostBy(s, e, x) == {};
      assert (d.files + Files(saved, Step(s, e).store.objs)) - {} - {} == d.files + Files(saved, Step(s, e).store.objs);
    }

    method TryCreate(id: nat, mode: Mode, hz: real, io: CreateIo, removed: bool) returns (made: bool)
      requires |io.order| == |io.saves| && RecordingsAllocated(Memory()) && tracks <= objs.Keys
      requires forall i | 0 <= i < |io.order| :: io.order[i] in objs && io.order[i] in desks
      requires dirs <= objs.Keys && id !in objs && id !in folders
      modifies this`objs, this`tracks, this`dirs, this`folders, this`files
      ensures (Memory(), made) == CaptureModel.CreateTrack(old(Snapshot()), id, mode, hz, io)
      ensures files == old(files) + Files(CreateSaved(old(Snapshot()), id, mode, hz, io), objs)
      ensures folders == old(folders) + if mode == Offline && CaptureModel.CreateTrack(old(Snapshot()), id, mode, hz, io.(saveOk := true)).1
                                           && (io.saveOk || !removed) then {id} else {}
    {
      hide CaptureModel.Sweep, SweepSaved, Files, LiveIn, SavedIn, RecordingsAllocated, AddTrack;
      FilesNone(objs);
      if mode == Take || hz < 1.0 || hz > 30.0 {
        return false;
      }
      SweepInside(Memory(), desks, now, io.order, io.saves);
      ghost var taken := SweepSaved(Memory(), desks, now, io.order, io.saves);
      assert taken + {} == taken;
      var swept := Sweep(io.order, io.saves);
      if !swept {
        return false;
      }
      var live, saved := CountTracks();
      if live >= MAX_LIVE_SESSIONS || (mode == Offline && saved >= maxJobs) || !io.storageOk {
        return false;
      }
      made := PlaceTrack(id, NewTrack(mode, hz, 0.0), io.dirOk, io.saveOk, removed,
                         old(files), taken);
    }

    /** The new track joins the table once its own file is written; `saved` are the
        files written before. */
    method PlaceTrack(id: nat, t: Track, dirOk: bool, saveOk: bool, removed: bool, ghost before: map<nat, Track>, ghost saved: set<nat>)
      returns (made: bool)
      requires id !in objs && id !in folders && saved <= objs.Keys && files == before + Files(saved, objs)
      modifies this`objs, this`tracks, this`dirs, this`folders, this`files
      ensures made <==> t.mode == Live || (dirOk && saveOk)
      ensures Memory() == if made then AddTrack(old(Memory()), id, t) else old(Memory())
      ensures files == before + Files(saved + if made && t.mode != Live then {id} else {}, objs)
      ensures folders == old(folders) + if t.mode != Live && dirOk && (saveOk || !removed) then {id} else {}
    {
      hide Files, Persisted;
      NewFile(before, saved, objs, id, t);
      assert saved + {} == saved;
      if t.mode != Live {
        var ok := MakeTrack(id, t, dirOk, saveOk, removed);
        if !ok {
          return false;
        }
      }
      objs := objs[id := t];
      tracks := tracks + {id};
      return true;
    }

    /** The file of a new track beside those written before it. */
    static lemma NewFile(before: map<nat, Track>, saved: set<nat>, objs: map<nat, Track>, id: nat, t: Track)
      requires saved <= objs.Keys && id !in objs
      ensures Files(saved, objs[id := t]) == Files(saved, objs)
      ensures (before + Files(saved, objs))[id := Persisted(t)] == before + Files(saved + {id}, objs[id := t])
    {
      FilesSame(saved, objs[id := t], objs);
    }

    /** The loop over the track table; it stops at the first take it cannot save. */
    method Sweep(order: seq<nat>, saves: seq<bool>) returns (ok: bool)
      requires |order| == |saves| && RecordingsAllocated(Memory())
      requires forall i | 0 <= i < |order| :: order[i] in objs && order[i] in desks
      modifies this`objs, this`tracks, this`files
      ensures (Memory(), ok) == CaptureModel.Sweep(old(Memory()), desks, now, order, saves)
      ensures files == old(files) + Files(SweepSaved(old(Memory()), desks, now, order, saves), objs)
      ensures objs.Keys == old(objs.Keys) && tracks <= old(tracks)
    {
      hide CaptureModel.Sweep, CaptureModel.FinishRecording, SweepSaved, FinishSaved, Files, SweepLeft, Ended, RecordingsAllocated;
      ghost var taken: set<nat> := {};
      ghost var all := SweepSaved(Memory(), desks, now, order, saves);
      FilesNone(objs);
      SweepBegins(Memory(), desks, now, order, saves);
      var i := 0;
      while i < |order|
        invariant 0 <= i <= |order|
        invariant RecordingsAllocated(Memory()) && objs.Keys == old(objs.Keys) && tracks <= old(tracks)
        invariant desks == old(desks) && now == old(now)
        invariant CaptureModel.Sweep(old(Memory()), desks, now, order, saves) == CaptureModel.Sweep(Memory(), desks, now, order[i..], saves[i..])
        invariant SweepLeft(all, taken, Memory(), desks, now, order, saves, i)
        invariant files == old(files) + Files(taken, objs) && Ended(objs, taken)
      {
        var t := order[i];
        SweepHead(Memory(), desks, now, order, saves, i);
        SweepNext(all, taken, Memory(), desks, now, order, saves, i);
        if objs[t].mode == Live && !desks[t].busy && now - desks[t].last > EXPIRY_SECONDS {
          FinishAllocated(Memory(), t, saves[i]);
          ghost var more := FinishSaved(Memory(), t, saves[i]);
          var saved := EndTake(t, saves[i], old(files), taken);
          taken := taken + more;
          if !saved {
            return false;
          }
          tracks := tracks - {t};
        }
        i := i + 1;
      }
      SweepNone(Memory(), desks, now, order[i..], saves[i..]);
      SweepEnds(all, taken, Memory(), desks, now, order, saves, i);
      return true;
    }

    /** Of the takes that the whole sweep saves, `taken` are saved before entry `i`. */
    ghost static predicate SweepLeft(all: set<nat>, taken: set<nat>, s: Store, desks: map<nat, Desk>, now: real, order: seq<nat>, saves: seq<bool>, i: nat)
      requires i <= |order| == |saves| && RecordingsAllocated(s)
      requires forall j | 0 <= j < |order| :: order[j] in s.objs && order[j] in desks
    {
      all == taken + SweepSaved(s, desks, now, order[i..], saves[i..])
    }

    static lemma SweepBegins(s: Store, desks: map<nat, Desk>, now: real, order: seq<nat>, saves: seq<bool>)
      requires |order| == |saves| && RecordingsAllocated(s)
      requires forall j | 0 <= j < |order| :: order[j] in s.objs && order[j] in desks
      ensures CaptureModel.Sweep(s, desks, now, order, saves) == CaptureModel.Sweep(s, desks, now, order[0..], saves[0..])
      ensures SweepLeft(SweepSaved(s, desks, now, order, saves), {}, s, desks, now, order, saves, 0) && Ended(s.objs, {})
    {
      assert order[0..] == order && saves[0..] == saves;
    }

    static lemma SweepNext(all: set<nat>, taken: set<nat>, s: Store, desks: map<nat, Desk>, now: real, order: seq<nat>, saves: seq<bool>, i: nat)
      requires i < |order| == |saves| && RecordingsAllocated(s)
      requires forall j | 0 <= j < |order| :: order[j] in s.objs && order[j] in desks
      requires SweepLeft(all, taken, s, desks, now, order, saves, i)
      ensures
        if Expired(s, desks, order[i], now) then
          var (s1, ok) := CaptureModel.FinishRecording(s, order[i], Interrupted, saves[i]);
          var more := FinishSaved(s, order[i], saves[i]);
          && RecordingsAllocated(s1) && s1.objs.Keys == s.objs.Keys
          && if ok then SweepLeft(all, taken + more, s1.(tracks := s1.tracks - {order[i]}), desks, now, order, saves, i + 1) else all == taken + more
        else SweepLeft(all, taken, s, desks, now, order, saves, i + 1)
    {
      hide CaptureModel.Sweep, SweepSaved, FinishSaved, CaptureModel.FinishRecording;
      FinishAllocated(s, order[i], saves[i]);
      SweepHead(s, desks, now, order, saves, i);
    }

    static lemma SweepEnds(all: set<nat>, taken: set<nat>, s: Store, desks: map<nat, Desk>, now: real, order: seq<nat>, saves: seq<bool>, i: nat)
      requires i == |order| == |saves| && RecordingsAllocated(s)
      requires forall j | 0 <= j < |order| :: order[j] in s.objs && order[j] in desks
      requires SweepLeft(all, taken, s, desks, now, order, saves, i)
      ensures all == taken
    {
    }

    /** Takes that are interrupted already. */
    ghost static predicate Ended(objs: map<nat, Track>, taken: set<nat>) {
      forall k | k in taken :: k in objs && objs[k].phase == Interrupted
    }

    /** One abandoned session of the sweep; `taken` are the takes ended before. */
    method EndTake(t: nat, saveOk: bool, ghost before: map<nat, Track>, ghost taken: set<nat>) returns (ok: bool)
      requires t in objs && RecordingsAllocated(Memory()) && files == before + Files(taken, objs) && Ended(objs, taken)
      modifies this`objs, this`files
      ensures (Memory(), ok) == CaptureModel.FinishRecording(old(Memory()), t, Interrupted, saveOk)
      ensures files == before + Files(taken + FinishSaved(old(Memory()), t, saveOk), objs)
      ensures Ended(objs, taken + FinishSaved(old(Memory()), t, saveOk))
    {
      hide CaptureModel.FinishRecording, FinishSaved, Files, Ended;
      FinishLater(Memory(), t, saveOk, taken);
      ghost var s := Memory();
      ok := FinishRecording(t, Interrupted, saveOk);
      MapsJoin(before, Files(taken, s.objs), Files(FinishSaved(s, t, saveOk), objs));
    }

    static lemma MapsJoin(a: map<nat, Track>, b: map<nat, Track>, c: map<nat, Track>)
      ensures (a + b) + c == a + (b + c)
    {
    }

    /** Ending another take leaves alone what the files of the takes ended before say. */
    static lemma FinishLater(s: Store, t: nat, saveOk: bool, taken: set<nat>)
      requires t in s.objs && RecordingsAllocated(s) && Ended(s.objs, taken)
      ensures var objs := CaptureModel.FinishRecording(s, t, Interrupted, saveOk).0.objs;
              var ended := FinishSaved(s, t, saveOk);
              && Files(taken, s.objs) + Files(ended, objs) == Files(taken + ended, objs)
              && Ended(objs, taken + ended)
    {
      var objs := CaptureModel.FinishRecording(s, t, Interrupted, saveOk).0.objs;
      FilesSame(taken, s.objs, objs);
      FilesUnion(taken, FinishSaved(s, t, saveOk), objs);
      hide Files;
    }

    static lemma SweepNone(s: Store, desks: map<nat, Desk>, now: real, order: seq<nat>, saves: seq<bool>)
      requires |order| == |saves| == 0 && RecordingsAllocated(s)
      ensures CaptureModel.Sweep(s, desks, now, order, saves) == (s, true) && SweepSaved(s, desks, now, order, saves) == {}
    {
    }

    static lemma FinishAllocated(s: Store, t: nat, saveOk: bool)
      requires t in s.objs && RecordingsAllocated(s)
      ensures RecordingsAllocated(CaptureModel.FinishRecording(s, t, Interrupted, saveOk).0)
      ensures var s1 := CaptureModel.FinishRecording(s, t, Interrupted, saveOk).0; RecordingsAllocated(s1.(tracks := s1.tracks - {t}))
      ensures CaptureModel.FinishRecording(s, t, Interrupted, saveOk).0.objs.Keys == s.objs.Keys
      ensures CaptureModel.FinishRecording(s, t, Interrupted, saveOk).0.tracks == s.tracks
    {
    }

    static lemma SweepHead(s: Store, desks: map<nat, Desk>, now: real, order: seq<nat>, saves: seq<bool>, i: nat)
      requires i < |order| == |saves| && RecordingsAllocated(s)
      requires forall j | 0 <= j < |order| :: order[j] in s.objs && order[j] in desks
      ensures RecordingsAllocated(CaptureModel.FinishRecording(s, order[i], Interrupted, saves[i]).0)
      ensures CaptureModel.FinishRecording(s, order[i], Interrupted, saves[i]).0.objs.Keys == s.objs.Keys
      ensures CaptureModel.Sweep(s, desks, now, order[i..], saves[i..])
              == if Expired(s, desks, order[i], now) then
                   var (s1, ok) := CaptureModel.FinishRecording(s, order[i], Interrupted, saves[i]);
                   if ok then CaptureModel.Sweep(s1.(tracks := s1.tracks - {order[i]}), desks, now, order[i + 1..], saves[i + 1..]) else (s1, false)
                 else
                   CaptureModel.Sweep(s, desks, now, order[i + 1..], saves[i + 1..])
      ensures SweepSaved(s, desks, now, order[i..], saves[i..])
              == if Expired(s, desks, order[i], now) then
                   var (s1, ok) := CaptureModel.FinishRecording(s, order[i], Interrupted, saves[i]);
                   FinishSaved(s, order[i], saves[i])
                   + if ok then SweepSaved(s1.(tracks := s1.tracks - {order[i]}), desks, now, order[i + 1..], saves[i + 1..]) else {}
                 else
                   SweepSaved(s, desks, now, order[i + 1..], saves[i + 1..])
    {
      FinishAllocated(s, order[i], saves[i]);
      assert order[i..][1..] == order[i + 1..] && saves[i..][1..] == saves[i + 1..];
    }

    method CountTracks() returns (live: nat, saved: nat)
      requires tracks <= objs.Keys
      ensures live == |LiveIn(Memory())| && saved == |SavedIn(Memory())|
    {
      live, saved := 0, 0;
      var rest := tracks;
      ghost var liveSet, savedSet := LiveIn(Memory()), SavedIn(Memory());
      Partition(Memory());
      hide LiveIn, SavedIn;
      assert liveSet - rest == {} && savedSet - rest == {};
      while rest != {}
        invariant rest <= tracks
        invariant live == |liveSet - rest| && saved == |savedSet - rest|
        decreases rest
      {
        var t :| t in rest;
        CountOne(liveSet, rest, t);
        CountOne(savedSet, rest, t);
        if objs[t].mode == Live {
          live := live + 1;
        } else {
          saved := saved + 1;
        }
        rest := rest - {t};
      }
      assert liveSet - {} == liveSet && savedSet - {} == savedSet;
    }

    static lemma Partition(s: Store)
      requires s.tracks <= s.objs.Keys
      ensures LiveIn(s) <= s.tracks && SavedIn(s) <= s.tracks
      ensures forall t | t in s.tracks :: (t in LiveIn(s) <==> s.objs[t].mode == Live) && (t in SavedIn(s) <==> s.objs[t].mode != Live)
    {
    }

    static lemma CountOne(counted: set<nat>, rest: set<nat>, t: nat)
      requires t in rest
      ensures |counted - (rest - {t})| == |counted - rest| + (if t in counted then 1 else 0)
    {
      if t in counted {
        assert counted - (rest - {t}) == (counted - rest) + {t};
      } else {
        assert counted - (rest - {t}) == counted - rest;
      }
    }

    method FinishSession(session: nat, takeSaveOk: bool, saveOk: bool) returns (ended: bool)
      requires Valid() && Enabled(Snapshot(), Finish(session, takeSaveOk, saveOk))
      modifies this`objs, this`tracks, this`handlers, this`files
      ensures Snapshot() == Step(old(Snapshot()), Finish(session, takeSaveOk, saveOk)) && Valid()
      ensures files == old(files) + Written(old(Snapshot()), Finish(session, takeSaveOk, saveOk))
    {
      hide Inv, FinishTrack, FinishTrackSaved;
      StepKeeps(Snapshot(), Finish(session, takeSaveOk, saveOk));
      ended := TryFinish(session, takeSaveOk, saveOk);
    }

    method TryFinish(session: nat, takeSaveOk: bool, saveOk: bool) returns (ended: bool)
      requires RecordingsAllocated(Memory()) && tracks <= objs.Keys <= desks.Keys
      modifies this`objs, this`tracks, this`handlers, this`files
      ensures (Memory(), ended) == FinishTrack(old(Memory()), session, takeSaveOk, saveOk)
      ensures files == old(files) + Files(FinishTrackSaved(old(Memory()), session, takeSaveOk, saveOk), objs)
      ensures session in old(desks) || !ended
      ensures handlers == if ended then old(CancelAll(handlers, desks[session].cancels.Values)) else old(handlers)
    {
      hide CaptureModel.FinishRecording, FinishSaved, Saves, SaveOf, Files;
      FilesNone(objs);
      if session !in tracks || objs[session].mode == Take {
        return false;
      }
      ghost var s := Memory();
      FinishFiles(s, session, takeSaveOk, saveOk);
      assert FinishSaved(s, session, takeSaveOk) + {} == FinishSaved(s, session, takeSaveOk);
      var finished := FinishRecording(session, Complete, takeSaveOk);
      if !finished {
        return false;
      }
      objs := objs[session := objs[session].(phase := Complete)];
      handlers := CancelAll(handlers, desks[session].cancels.Values);
      FilesUnion(FinishSaved(s, session, takeSaveOk), SaveOf(Memory(), session, saveOk), objs);
      MapsJoin(old(files), Files(FinishSaved(s, session, takeSaveOk), objs), Files(SaveOf(Memory(), session, saveOk), objs));
      var saved := SaveTrack(session, saveOk);
      if saved && objs[session].mode == Live {
        tracks := tracks - {session};
      }
      return true;
    }

    static lemma FinishFiles(s: Store, session: nat, takeSaveOk: bool, saveOk: bool)
      requires session in s.objs && RecordingsAllocated(s)
      ensures var (s1, ok) := CaptureModel.FinishRecording(s, session, Complete, takeSaveOk);
              && session in s1.objs
              && var objs := s1.objs[session := s1.objs[session].(phase := Complete)];
                 && Files(FinishSaved(s, session, takeSaveOk), objs) == Files(FinishSaved(s, session, takeSaveOk), s1.objs)
                 && SaveOf(s1.(objs := objs), session, saveOk) == SaveOf(s, session, saveOk)
    {
      var s1 := CaptureModel.FinishRecording(s, session, Complete, takeSaveOk).0;
      FilesSame(FinishSaved(s, session, takeSaveOk), s1.objs[session := s1.objs[session].(phase := Complete)], s1.objs);
      hide Files;
    }

    method RecordTake(session: nat, id: nat, start: real, storageOk: bool, dirOk: bool, saveOk: bool, x: Leftover) returns (made: bool)
      requires Valid() && Enabled(Snapshot(), RecordStart(session, id, start, storageOk, dirOk, saveOk))
      requires Fresh(RecordStart(session, id, start, storageOk, dirOk, saveOk), OnDisk())
      modifies this`objs, this`tracks, this`dirs, this`folders, this`files, this`desks
      ensures Snapshot() == Step(old(Snapshot()), RecordStart(session, id, start, storageOk, dirOk, saveOk)) && Valid()
      ensures OnDisk() == DiskStep(old(Snapshot()), RecordStart(session, id, start, storageOk, dirOk, saveOk), x, old(OnDisk()))
    {
      hide Inv, StartTake, Files, DiskStep;
      ghost var s, e := Snapshot(), RecordStart(session, id, start, storageOk, dirOk, saveOk);
      StepKeeps(s, e);
      StartDisk(s, e, x, OnDisk());
      made := TryRecord(session, id, start, storageOk, dirOk, saveOk, x.removed);
      if made {
        desks := desks[id := NewDesk(0.0)];
      }
    }

    static lemma StartDisk(s: State, e: Event, x: Leftover, d: Disk)
      requires Enabled(s, e) && e.RecordStart? && Fresh(e, d)
      ensures DiskStep(s, e, x, d)
              == Disk(d.dirs + if StartTake(s, e.session, e.id, e.start, e.storageOk, e.dirOk, true).1 && (e.saveOk || !x.removed) then {e.id} else {},
                      d.files + Files(if StartTake(s, e.session, e.id, e.start, e.storageOk, e.dirOk, e.saveOk).1 then {e.id} else {}, Step(s, e).store.objs))
    {
      hide Files, StartTake, RecordingsAllocated;
      StartFails(s, e.session, e.id, e.start, e.storageOk, e.dirOk);
      assert DeletedBy(s, e) == {} && LostBy(s, e, x) == {};
      var files := d.files + Files(SavedBy(s, e), Step(s, e).store.objs);
      assert files - {} - {} == files;
    }

    static lemma StartFails(s: State, session: nat, id: nat, start: real, storageOk: bool, dirOk: bool)
      requires s.store.tracks <= s.store.objs.Keys
      ensures !StartTake(s, session, id, start, storageOk, dirOk, false).1
    {
    }

    method TryRecord(session: nat, id: nat, start: real, storageOk: bool, dirOk: bool, saveOk: bool, removed: bool) returns (made: bool)
      requires tracks <= objs.Keys && id !in objs && id !in folders
      modifies this`objs, this`tracks, this`dirs, this`folders, this`files
      ensures (Memory(), made) == StartTake(old(Snapshot()), session, id, start, storageOk, dirOk, saveOk)
      ensures folders == old(folders) + if StartTake(old(Snapshot()), session, id, start, storageOk, dirOk, true).1 && (saveOk || !removed) then {id} else {}
      ensures files == old(files) + Files(if made then {id} else {}, objs)
    {
      hide Files, SavedIn, LiveIn;
      FilesNone(objs);
      if start < 0.0 || start > MAX_STAMP {
        return false;
      }
      if session !in tracks || objs[session].mode != Live || objs[session].phase != Recording || objs[session].recording.Some? {
        return false;
      }
      var live, saved := CountTracks();
      if saved >= maxJobs || !storageOk {
        return false;
      }
      var t := NewTrack(Take, objs[session].hz, start);
      ghost var none: set<nat> := {};
      assert none + {id} == {id} && none + none == none;
      made := PlaceTrack(id, t, dirOk, saveOk, removed, files, none);
      if made {
        FilesSame({id}, objs, objs[session := objs[session].(recording := Some(id))]);
        objs := objs[session := objs[session].(recording := Some(id))];
      }
    }

    method StopTake(session: nat, saveOk: bool) returns (found: bool)
      requires Valid() && Enabled(Snapshot(), RecordStop(session, saveOk))
      modifies this`objs, this`files
      ensures Snapshot() == Step(old(Snapshot()), RecordStop(session, saveOk)) && Valid()
      ensures files == old(files) + Written(old(Snapshot()), RecordStop(session, saveOk))
    {
      hide Inv, Files, CaptureModel.FinishRecording, SaveOf, RecordingsAllocated;
      FilesNone(objs);
      StepKeeps(Snapshot(), RecordStop(session, saveOk));
      if session !in tracks || objs[session].recording.None? {
        return false;
      }
      found := FinishRecording(session, Complete, saveOk);
    }

    /** A new name is written into the track file; names are not part of a track here. */
    method RenameTrack(id: nat, saveOk: bool) returns (renamed: bool)
      requires Valid() && Enabled(Snapshot(), Rename(id, saveOk))
      modifies this`files
      ensures Snapshot() == Step(old(Snapshot()), Rename(id, saveOk))
      ensures files == old(files) + Written(old(Snapshot()), Rename(id, saveOk))
    {
      hide Inv, Files, RecordingsAllocated;
      FilesNone(objs);
      if id !in tracks || objs[id].mode == Live {
        return false;
      }
      renamed := SaveTrack(id, saveOk);
    }

    method DeleteTrack(id: nat, removeOk: bool, lost: set<nat>, x: Leftover) returns (deleted: bool)
      requires Valid() && Enabled(Snapshot(), Delete(id, removeOk, lost))
      modifies this`poses, this`dirs, this`tracks, this`damaged, this`folders, this`files
      ensures Snapshot() == Step(old(Snapshot()), Delete(id, removeOk, lost)) && Valid()
      ensures OnDisk() == DiskStep(old(Snapshot()), Delete(id, removeOk, lost), x, old(OnDisk()))
    {
      hide Inv, CaptureModel.DeleteTrack, Removable, DiskStep;
      StepKeeps(Snapshot(), Delete(id, removeOk, lost));
      DeleteDisk(Snapshot(), Delete(id, removeOk, lost), x, OnDisk());
      deleted := TryDelete(id, removeOk, lost, x.fileLost);
    }

    static lemma DeleteDisk(s: State, e: Event, x: Leftover, d: Disk)
      requires Enabled(s, e) && e.Delete?
      ensures var gone := if Removable(s.store, s.front.desks, e.id) then {e.id} else {};
              DiskStep(s, e, x, d)
              == Disk(d.dirs - (if e.removeOk then gone else {}), d.files - (if e.removeOk || x.fileLost then gone else {}))
    {
      hide CaptureModel.DeleteTrack, Removable, Files;
      FilesNone(Step(s, e).store.objs);
      assert d.files + map[] == d.files;
    }

    method TryDelete(id: nat, removeOk: bool, lost: set<nat>, fileLost: bool) returns (deleted: bool)
      requires tracks <= objs.Keys <= desks.Keys
      modifies this`poses, this`dirs, this`tracks, this`damaged, this`folders, this`files
      ensures Memory() == CaptureModel.DeleteTrack(old(Memory()), desks, id, removeOk, lost)
      ensures var gone := if old(Removable(Memory(), desks, id)) then {id} else {};
              && folders == old(folders) - (if removeOk then gone else {})
              && files == old(files) - (if removeOk || fileLost then gone else {})
    {
      if id !in tracks || objs[id].mode == Live {
        return false;
      }
      if objs[id].phase == Recording || desks[id].busy {
        return false;
      }
      if !removeOk {
        poses := map p | p in poses && !(p.0 == id && p.1 in lost) :: poses[p];
        if LosesSample(objs[id], lost) {
          damaged := damaged + {id};
        }
        if fileLost {
          files := files - {id};
        }
        return false;
      }
      poses := map p | p in poses && p.0 != id :: poses[p];
      folders, files := folders - {id}, files - {id};
      dirs := dirs - {id};
      tracks := tracks - {id};
      return true;
    }

    // ----- the frame handler

    /** The select on the upload channel: a handler that finds it full is refused. */
    method TakeToken(h: nat, session: nat, stamp: real) returns (held: bool)
      requires Valid() && h !in handlers && RecordingsAllocated(Memory()) && tracks <= objs.Keys <= desks.Keys
      modifies this`uploads, this`handlers
      ensures held <==> !old(uploads)
      ensures Valid() && if held then old(Enabled(Snapshot(), Arrive(h, session, stamp))) && Snapshot() == Step(old(Snapshot()), Arrive(h, session, stamp))
                         else Snapshot() == old(Snapshot())
    {
      hide Inv, RecordingsAllocated;
      if uploads {
        return false;
      }
      StepKeeps(Snapshot(), Arrive(h, session, stamp));
      uploads := true;
      handlers := handlers[h := Handler(Parsing, Request(h, session, None, stamp), 0, false, None)];
      return true;
    }

    /** After the enqueue the token goes back while the request waits. */
    method HandOver(h: nat)
      requires Valid() && Enabled(Snapshot(), ReleaseToken(h))
      modifies this`uploads, this`handlers
      ensures Snapshot() == Step(old(Snapshot()), ReleaseToken(h)) && Valid()
    {
      hide Inv;
      StepKeeps(Snapshot(), ReleaseToken(h));
      uploads := false;
      handlers := handlers[h := handlers[h].(stage := Waiting)];
    }

    method TakeReply(h: nat) returns (reply: Reply)
      requires Valid() && Enabled(Snapshot(), Receive(h))
      modifies this`handlers
      ensures Snapshot() == Step(old(Snapshot()), Receive(h)) && Valid()
      ensures h in old(handlers) && old(handlers)[h].mailbox == Some(reply)
    {
      hide Inv;
      StepKeeps(Snapshot(), Receive(h));
      reply := handlers[h].mailbox.value;
      handlers := handlers[h := handlers[h].(mailbox := None)];
      handlers := handlers[h := handlers[h].(stage := Replied)];
    }

    /** The admission of `submitFrame`: every refusal leaves the session untouched. */
    method AdmitFrame(h: nat, settingsOk: bool) returns (admitted: bool)
      requires Valid() && Enabled(Snapshot(), Admit(h, settingsOk))
      modifies this`desks, this`handlers
      ensures Snapshot() == Step(old(Snapshot()), Admit(h, settingsOk)) && Valid()
      ensures h in old(handlers) && (admitted <==> Admissible(old(Snapshot()), old(handlers)[h].req) && settingsOk)
    {
      hide Inv, Enabled, Step, RecordingsAllocated, Admit1, AdmittedTake, Admissible;
      ghost var s := Snapshot();
      AdmitGuards(s, h, settingsOk);
      StepKeeps(s, Admit(h, settingsOk));
      admitted := TryAdmit(h, settingsOk);
      if !admitted {
        handlers := handlers[h := handlers[h].(stage := Leaving)];
      }
      AdmitShape(s, h, settingsOk, Lines());
    }

    static lemma AdmitGuards(s: State, h: nat, settingsOk: bool)
      requires Inv(s) && Enabled(s, Admit(h, settingsOk))
      ensures h in s.front.handlers && RecordingsAllocated(s.store) && s.store.tracks <= s.store.objs.Keys <= s.front.desks.Keys
      ensures forall t | t in s.store.objs :: s.store.objs[t].hz > 0.0
      ensures Admissible(s, s.front.handlers[h].req) ==> s.front.handlers[h].req.session in s.front.desks
    {
      forall t | t in s.store.objs ensures s.store.objs[t].hz > 0.0 {
        assert TrackOk(s.store.objs[t], t in s.store.tracks, t in s.store.dirs);
      }
    }

    static lemma AdmitShape(s: State, h: nat, settingsOk: bool, g: Front)
      requires Enabled(s, Admit(h, settingsOk)) && h in s.front.handlers && RecordingsAllocated(s.store)
      requires var r := s.front.handlers[h].req;
               if Admissible(s, r) && settingsOk then g == Admit1(s.front, h, AdmittedTake(s.store, r), s.now)
               else g == SetStage(s.front, h, Leaving)
      ensures Step(s, Admit(h, settingsOk)) == s.(front := g)
    {
      hide Admit1, AdmittedTake;
    }

    method TryAdmit(h: nat, settingsOk: bool) returns (admitted: bool)
      requires h in handlers && RecordingsAllocated(Memory()) && tracks <= objs.Keys <= desks.Keys
      requires forall t | t in objs :: objs[t].hz > 0.0
      modifies this`desks, this`handlers
      ensures admitted <==> old(Admissible(Snapshot(), handlers[h].req)) && settingsOk
      ensures Lines() == if admitted then old(Admit1(Lines(), h, AdmittedTake(Memory(), handlers[h].req), now)) else old(Lines())
    {
      var r := handlers[h].req;
      if r.stamp < 0.0 || r.stamp > MAX_STAMP || r.session !in tracks {
        return false;
      }
      var t, d := objs[r.session], desks[r.session];
      if t.mode == Take || t.phase != Recording || !workerLive {
        return false;
      }
      var limit := 1;
      if t.mode == Live {
        limit := 2;
      }
      if d.inflight >= limit || queue > 0 || (t.mode == Live && (t.count > 0 || d.inflight > 0) && now - d.last < 1.0 / t.hz - 0.005) {
        return false;
      }
      var previous := t.lastTime;
      var hasPrevious := t.count > 0;
      if d.inflight > 0 {
        previous := d.lastSubmit;
        hasPrevious := true;
      }
      if (hasPrevious && r.stamp - previous < 1.0 / t.hz - 0.001) || (t.mode == Offline && t.count >= MAX_TRACK_FRAMES) {
        return false;
      }
      if !settingsOk {
        return false;
      }
      var take := t.recording;
      if take.Some? && r.stamp < objs[take.value].start {
        take := None;
      }
      var requestId := d.next;
      d := d.(next := d.next + 1);
      d := d.(cancels := d.cancels[requestId := h]);
      d := d.(inflight := d.inflight + 1, busy := true, last := now, lastSubmit := r.stamp);
      desks := desks[r.session := d];
      handlers := handlers[h := Handler(Reading, r.(take := take), requestId, false, None)];
      return true;
    }

    method EnqueueFrame(h: nat) returns (sent: bool)
      requires Valid() && Enabled(Snapshot(), Enqueue(h))
      modifies this`frames, this`handlers
      ensures Snapshot() == Step(old(Snapshot()), Enqueue(h)) && Valid()
      ensures sent <==> old(frames).None?
    {
      hide Inv;
      StepKeeps(Snapshot(), Enqueue(h));
      if frames.None? {
        frames := Some(handlers[h].req);
        handlers := handlers[h := handlers[h].(stage := Sent)];
        return true;
      }
      handlers := handlers[h := handlers[h].(stage := Rejected)];
      return false;
    }

    method CleanupFrame(h: nat)
      requires Valid() && Enabled(Snapshot(), Cleanup(h))
      modifies this`desks, this`handlers
      ensures Snapshot() == Step(old(Snapshot()), Cleanup(h)) && Valid()
    {
      hide Inv, CaptureModel.CleanupFrame;
      StepKeeps(Snapshot(), Cleanup(h));
      CloseEntry(h);
    }

    method CloseEntry(h: nat)
      requires h in handlers && handlers[h].req.session in desks && desks[handlers[h].req.session].inflight > 0
      modifies this`desks, this`handlers
      ensures Lines() == CaptureModel.CleanupFrame(old(Lines()), h)
    {
      var session := handlers[h].req.session;
      var d := desks[session];
      d := d.(cancels := d.cancels - {handlers[h].id});
      d := d.(inflight := d.inflight - 1);
      d := d.(busy := d.inflight > 0);
      desks := desks[session := d];
      if handlers[h].stage == Rejected {
        handlers := handlers[h := handlers[h].(stage := Leaving)];
      } else {
        handlers := handlers - {h};
      }
    }

    // ----- the consumer

    method DequeueFrame()
      requires Valid() && Enabled(Snapshot(), Dequeue)
      modifies this`worker, this`frames
      ensures Snapshot() == Step(old(Snapshot()), Dequeue) && Valid()
    {
      hide Inv;
      StepKeeps(Snapshot(), Dequeue);
      worker := Running(frames.value);
      frames := None;
    }

    method SaveOffline(t: nat, stamp: real, io: CommitIo) returns (ok: bool)
      requires t in objs && RecordingsAllocated(Memory())
      modifies this`objs, this`poses
      ensures (Memory(), ok) == CommitOffline(old(Memory()), t, stamp, io)
      ensures objs.Keys == old(objs.Keys) && RecordingsAllocated(Memory())
    {
      if !io.storageOk {
        return false;
      }
      if objs[t].count == 0 && !(io.facesOk && io.previewOk) {
        return false;
      }
      var stored := WritePoseFile(t, objs[t].count, stamp, io.pose);
      if !stored || !io.meshOk {
        return false;
      }
      objs := objs[t := objs[t].(samples := objs[t].samples + [stamp])];
      return true;
    }

    /** The offline files and sample of the frame, if the session is an offline one. */
    method FileOffline(r: Request, io: CommitIo) returns (filed: bool)
      requires r.session in objs && RecordingsAllocated(Memory())
      modifies this`objs, this`poses
      ensures (Memory(), filed) == if old(objs[r.session].mode == Offline) then CommitOffline(old(Memory()), r.session, r.stamp, io) else (old(Memory()), true)
      ensures objs.Keys == old(objs.Keys) && RecordingsAllocated(Memory())
    {
      hide CommitOffline;
      filed := true;
      if objs[r.session].mode == Offline {
        filed := SaveOffline(r.session, r.stamp, io);
      }
    }

    /** The sample of the take that was recording when the frame was admitted. */
    method AppendTake(r: Request, io: CommitIo) returns (appended: bool)
      requires r.session in objs && (r.take.Some? ==> r.take.value in objs) && RecordingsAllocated(Memory())
      modifies this`objs, this`poses, this`dirty, this`files
      ensures (Memory(), appended) == if r.take.Some? && old(objs)[r.take.value].phase == Recording
                                      then CaptureModel.AppendRecording(old(Memory()), r.session, r.take.value, r.stamp, io) else (old(Memory()), true)
      ensures files == old(files) + Files(TakeSaved(old(Memory()), r, io), objs)
      ensures objs.Keys == old(objs.Keys)
    {
      hide CaptureModel.AppendRecording, AppendSaved, Files;
      FilesNone(objs);
      appended := true;
      if r.take.Some? && objs[r.take.value].phase == Recording {
        appended := AppendRecording(r.session, r.take.value, r.stamp, io);
      }
    }

    /** The counter and the clock of the session move, and the session is saved. */
    method CountCommit(t: nat, stamp: real, saveOk: bool, ghost before: map<nat, Track>, ghost takes: set<nat>) returns (ok: bool)
      requires t in objs && t !in takes && takes <= objs.Keys && files == before + Files(takes, objs)
      modifies this`objs, this`files
      ensures objs == old(objs)[t := old(objs)[t].(count := old(objs)[t].count + 1, lastTime := stamp)]
      ensures ok == Saves(Memory(), t, saveOk)
      ensures files == before + Files(takes + SaveOf(old(Memory()), t, saveOk), objs)
    {
      hide Saves, Files;
      var o := objs[t];
      o := o.(count := o.count + 1);
      o := o.(lastTime := stamp);
      ghost var saved := SaveOf(Memory(), t, saveOk);
      FilesSame(takes, objs, objs[t := o]);
      SaveSame(Memory(), t, o, saveOk);
      objs := objs[t := o];
      FilesUnion(takes, saved, objs);
      MapsJoin(before, Files(takes, objs), Files(saved, objs));
      ok := SaveTrack(t, saveOk);
    }

    static lemma SaveSame(s: Store, t: nat, o: Track, saveOk: bool)
      requires t in s.objs && o.mode == s.objs[t].mode
      ensures SaveOf(s.(objs := s.objs[t := o]), t, saveOk) == SaveOf(s, t, saveOk)
    {
    }

    /** The take, and then the session, once the offline files are written. */
    method AppendAndCount(r: Request, io: CommitIo) returns (reply: Reply)
      requires r.session in objs && (r.take.Some? ==> r.take.value in objs) && RecordingsAllocated(Memory())
      requires r.take != Some(r.session) && objs[r.session].recording != Some(r.session)
      modifies this`objs, this`poses, this`dirty, this`files
      ensures var s := old(Memory());
              var (s1, appended) := if r.take.Some? && s.objs[r.take.value].phase == Recording
                                    then CaptureModel.AppendRecording(s, r.session, r.take.value, r.stamp, io) else (s, true);
              var takes := TakeSaved(s, r, io);
              if !appended then Memory() == s1 && reply == Refused && files == old(files) + Files(takes, objs)
              else
                && r.session in s1.objs
                && Memory() == s1.(objs := s1.objs[r.session := s1.objs[r.session].(count := s1.objs[r.session].count + 1, lastTime := r.stamp)])
                && reply == (if Saves(Memory(), r.session, io.saveOk) then Answered else Refused)
                && files == old(files) + Files(takes + SaveOf(s, r.session, io.saveOk), objs)
    {
      hide CaptureModel.AppendRecording, Saves, SaveOf, RecordingsAllocated, Files, TakeSaved;
      AppendKeeps(Memory(), r, io);
      ghost var takes := TakeSaved(Memory(), r, io);
      var appended := AppendTake(r, io);
      if !appended {
        return Refused;
      }
      var saved := CountCommit(r.session, r.stamp, io.saveOk, old(files), takes);
      return if saved then Answered else Refused;
    }

    /** The locked tail of `runFrame`. */
    method CommitRequest(r: Request, cancelled: bool, io: CommitIo) returns (reply: Reply)
      requires r.session in objs && (r.take.Some? ==> r.take.value in objs) && RecordingsAllocated(Memory())
      requires r.take != Some(r.session) && objs[r.session].recording != Some(r.session)
      modifies this`objs, this`poses, this`dirty, this`files
      ensures (Memory(), reply) == CaptureModel.CommitFrame(old(Memory()), r, cancelled, io)
      ensures files == old(files) + Files(CommitSaved(old(Memory()), r, cancelled, io), objs)
    {
      hide CaptureModel.AppendRecording, CommitOffline, Saves, SaveOf, RecordingsAllocated, Files, TakeSaved;
      FilesNone(objs);
      if cancelled || objs[r.session].phase != Recording {
        return Refused;
      }
      OfflineKeeps(Memory(), r, io);
      var filed := FileOffline(r, io);
      FilesNone(objs);
      if !filed {
        return Refused;
      }
      reply := AppendAndCount(r, io);
    }

    static lemma OfflineKeeps(s: Store, r: Request, io: CommitIo)
      requires r.session in s.objs && RecordingsAllocated(s)
      ensures var s1 := CommitOffline(s, r.session, r.stamp, io).0;
              && r.session in s1.objs && s1.objs[r.session].recording == s.objs[r.session].recording
              && SaveOf(s1, r.session, io.saveOk) == SaveOf(s, r.session, io.saveOk)
    {
    }

    static lemma AppendKeeps(s: Store, r: Request, io: CommitIo)
      requires r.session in s.objs && (r.take.Some? ==> r.take.value in s.objs) && RecordingsAllocated(s)
      requires r.take != Some(r.session) && s.objs[r.session].recording != Some(r.session)
      ensures r.session !in TakeSaved(s, r, io) && TakeSaved(s, r, io) <= s.objs.Keys
      ensures r.take.Some? ==>
                var s2 := CaptureModel.AppendRecording(s, r.session, r.take.value, r.stamp, io).0;
                r.session in s2.objs && SaveOf(s2, r.session, io.saveOk) == SaveOf(s, r.session, io.saveOk)
    {
      hide CaptureModel.AppendRecording, SaveOf;
      if r.take.Some? { AppendMode(s, r.session, r.take.value, r.stamp, io); }
      if s.objs[r.session].recording.Some? { SaveOne(s, s.objs[r.session].recording.value, io.takeSaveOk); }
      if r.take.Some? { SaveOne(s, r.take.value, io.takeSaveOk); }
    }

    static lemma SaveOne(s: Store, k: nat, saveOk: bool)
      requires k in s.objs
      ensures SaveOf(s, k, saveOk) <= {k}
    {
    }

    static lemma AppendMode(s: Store, t: nat, k: nat, stamp: real, io: CommitIo)
      requires t in s.objs && k in s.objs && RecordingsAllocated(s) && t != k
      ensures var s2 := CaptureModel.AppendRecording(s, t, k, stamp, io).0;
              t in s2.objs && SaveOf(s2, t, io.saveOk) == SaveOf(s, t, io.saveOk)
    {
      hide CaptureModel.AppendRecording;
      AppendDirs(s, t, k, stamp, io);
      AppendShallow(s, t, k, stamp, io);
    }

    method CommitFrame(io: CommitIo)
      requires Valid() && Enabled(Snapshot(), Commit(io))
      modifies this`objs, this`poses, this`dirty, this`worker, this`files
      ensures Snapshot() == Step(old(Snapshot()), Commit(io)) && Valid()
      ensures files == old(files) + Written(old(Snapshot()), Commit(io))
    {
      hide Inv, Enabled, Step, CaptureModel.CommitFrame, CommitSaved, Files, Written, RecordingsAllocated;
      ghost var s := Snapshot();
      StepKeeps(s, Commit(io));
      CommitShape(s, io);
      CommitApart(s);
      var r := worker.req;
      var reply := CommitRequest(r, handlers[r.handler].cancelled, io);
      worker := Responding(r, reply);
    }

    /** A session is no take of its own. */
    static lemma CommitApart(s: State)
      requires Inv(s) && s.front.worker.Running?
      ensures var r := s.front.worker.req;
              r.session in s.store.objs && r.take != Some(r.session) && s.store.objs[r.session].recording != Some(r.session)
    {
      RunningFacts(s);
      var r := s.front.worker.req;
      if s.store.objs[r.session].recording.Some? { assert AttachedOk(s.store.objs, s.store.tracks, r.session); }
      hide FrontInv, LinkInv, TracksOk, FilesOk, SamplesOk;
    }

    static lemma CommitShape(s: State, io: CommitIo)
      requires Enabled(s, Commit(io))
      ensures s.front.worker.Running? && RecordingsAllocated(s.store)
      ensures var r := s.front.worker.req;
              && r.session in s.store.objs && r.handler in s.front.handlers && (r.take.Some? ==> r.take.value in s.store.objs)
              && var (store, reply) := CaptureModel.CommitFrame(s.store, r, s.front.handlers[r.handler].cancelled, io);
                 && Step(s, Commit(io)) == s.(store := store, front := s.front.(worker := Responding(r, reply)))
                 && Written(s, Commit(io)) == Files(CommitSaved(s.store, r, s.front.handlers[r.handler].cancelled, io), store.objs)
    {
      hide CaptureModel.CommitFrame, CommitSaved, Files;
    }

    method Respond()
      requires Valid() && worker.Responding?
      modifies this`worker, this`handlers
      ensures old(Enabled(Snapshot(), CaptureModel.Respond)) && Snapshot() == Step(old(Snapshot()), CaptureModel.Respond) && Valid()
    {
      hide Inv;
      CaptureProgress.GuardsHold(Snapshot());
      CaptureProgress.WorkerRequest(Snapshot());
      StepKeeps(Snapshot(), CaptureModel.Respond);
      var r, reply := worker.req, worker.reply;
      worker := Idle;
      handlers := handlers[r.handler := handlers[r.handler].(mailbox := Some(reply))];
    }
  }
}
