/**
 The restart: the track files that a run has left are read back, exactly when that
 works, and a server over them is again an initial state, so that everything that
 holds of runs holds after it.
 */
module CaptureRestart {
  import opened Wrappers
  import opened CaptureModel
  import opened CaptureInvariant
  import opened CaptureRuns
  import opened CaptureLimits
  import opened CaptureDamage
  import opened CaptureDisk

  /** What the loader checks of a saved track. */
  predicate Acceptable(o: Track) {
    o.mode != Live && |o.samples| <= MAX_TRACK_FRAMES
  }

  /** What the loader makes of the file of a track that was recording. */
  function Interrupting(o: Track): Track {
    o.(phase := if o.phase == Recording then Interrupted else o.phase)
  }

  /** The track object made from a saved track; the clock of a session is not saved. */
  function Reloaded(o: Track): Track {
    Interrupting(o).(recording := None, lastTime := 0.0)
  }

  predicate Loadable(dirs: seq<nat>, files: map<nat, Track>, writable: nat -> bool, n: nat)
    requires n <= |dirs|
  {
    forall i | 0 <= i < n ::
      dirs[i] in files && Acceptable(files[dirs[i]]) && (files[dirs[i]].phase == Recording ==> writable(dirs[i]))
  }

  /** The loader: a track that was recording becomes interrupted, also on disk. */
  method LoadTracks(dirs: seq<nat>, files: map<nat, Track>, writable: nat -> bool)
    returns (r: Result<map<nat, Track>>, disk: map<nat, Track>)
    requires forall i, j | 0 <= i < j < |dirs| :: dirs[i] != dirs[j]
    ensures r.Success? <==> Loadable(dirs, files, writable, |dirs|)
    ensures r.Success? ==>
      && r.value.Keys == (set i | 0 <= i < |dirs| :: dirs[i])
      && forall t | t in r.value ::
           && t in files && r.value[t] == Reloaded(files[t]) && r.value[t].mode != Live && r.value[t].phase != Recording
           && t in disk && disk[t] == Interrupting(files[t])
    ensures r.Success? ==> forall t | t in r.value ::
      var phase := if files[t].phase == Recording then Interrupted else files[t].phase;
      && disk[t] == files[t].(phase := phase)
      && r.value[t] == files[t].(phase := phase, recording := None, lastTime := 0.0)
    ensures disk.Keys == files.Keys
  {
    var tracks: map<nat, Track> := map[];
    disk := files;
    var i := 0;
    while i < |dirs|
      invariant 0 <= i <= |dirs| && disk.Keys == files.Keys
      invariant Loadable(dirs, files, writable, i)
      invariant tracks.Keys == set k | 0 <= k < i :: dirs[k]
      invariant forall k | i <= k < |dirs| && dirs[k] in files :: disk[dirs[k]] == files[dirs[k]]
      invariant forall t | t in tracks ::
        && t in files && tracks[t] == Reloaded(files[t]) && tracks[t].mode != Live && tracks[t].phase != Recording
        && disk[t] == Interrupting(files[t])
    {
      var id := dirs[i];
      if id !in disk {
        return Failure("invalid saved track"), disk;
      }
      var t := disk[id];
      if t.mode == Live || |t.samples| > MAX_TRACK_FRAMES {
        return Failure("invalid saved track"), disk;
      }
      if t.phase == Recording {
        t := t.(phase := Interrupted);
        if !writable(id) {
          return Failure("invalid saved track"), disk;
        }
        disk := disk[id := t];
      }
      tracks := tracks[id := t.(recording := None, lastTime := 0.0)];
      i := i + 1;
    }
    r := Success(tracks);
  }

  // ----- exactly when a restart loads

  /** Where the server is stopped: between two events, or inside one that has made the
      directory of a new track and not yet saved it, or that is removing a directory
      and has perhaps removed the track file.  Stopped anywhere else inside an event,
      it leaves what the event leaves when its remaining saves fail. */
  datatype Stop = Between | Inside(e: Event, fileGone: bool)

  predicate StopOk(s: State, d: Disk, stop: Stop) {
    stop.Inside? ==> Enabled(s, stop.e) && Fresh(stop.e, d)
  }

  /** The directory that is there without its track file when the server stops. */
  function Making(s: State, d: Disk, stop: Stop): set<nat>
    requires StopOk(s, d, stop)
  {
    if stop.Inside? then MadeBy(s, stop.e) else {}
  }

  /** The track whose file is gone, but not its directory, when the server stops. */
  function Removing(s: State, stop: Stop): set<nat> {
    if stop.Inside? && stop.e.Delete? && Removable(s.store, s.front.desks, stop.e.id) && stop.fileGone then {stop.e.id} else {}
  }

  /** What a restart finds. */
  function Found(s: State, d: Disk, stop: Stop): Disk
    requires StopOk(s, d, stop)
  {
    Disk(d.dirs + Making(s, d, stop), d.files - Removing(s, stop))
  }

  lemma PastAcceptable(states: seq<State>, events: seq<Event>, outcomes: seq<Leftover>, disks: seq<Disk>, n: nat, t: nat)
    requires IsDiskRun(states, events, outcomes, disks) && n <= |events| && t in disks[n].files
    ensures Acceptable(disks[n].files[t])
  {
    FilesFromPast(states, events, outcomes, disks, n, t);
    var m: nat :| HeldAt(states, disks[n].files[t], m, n, t);
    RunInv(states, events, m);
    TrackKnown(states[m], t);
    hide Inv, IsDiskRun;
  }

  /** What the invariant says of one track. */
  lemma TrackKnown(s: State, t: nat)
    requires Inv(s) && t in s.store.objs
    ensures TrackOk(s.store.objs[t], t in s.store.tracks, t in s.store.dirs)
    ensures s.store.objs[t].mode == Offline ==> OfflineOk(s.store.objs[t])
    ensures s.store.objs[t].mode == Take && t !in s.store.dirty ==> Spaced(s.store.objs[t].samples, s.store.objs[t].hz)
  {
    hide FrontInv, LinkInv, RecordingOk, FilesOk, OfflineOk, Spaced;
  }

  lemma LoadableFiles(d: Disk, dirs: seq<nat>, making: set<nat>, removing: set<nat>, writable: nat -> bool)
    requires d.files.Keys <= d.dirs && making * d.dirs == {} && removing <= d.dirs && forall t :: t in dirs <==> t in d.dirs + making
    requires forall t | t in d.files :: Acceptable(d.files[t])
    ensures Loadable(dirs, d.files - removing, writable, |dirs|)
            <==> making == {} && removing == {} && Trackless(d) == {} && forall t | t in d.files :: d.files[t].phase == Recording ==> writable(t)
  {
    hide Acceptable;
    var files := d.files - removing;
    if Loadable(dirs, files, writable, |dirs|) {
      forall t | t in d.dirs + making ensures t in files && (files[t].phase == Recording ==> writable(t)) {
        var i :| 0 <= i < |dirs| && dirs[i] == t;
      }
      assert making <= files.Keys && making * files.Keys <= making * d.dirs;
      assert removing <= files.Keys && removing * files.Keys == {};
      assert making * files.Keys == making && removing * files.Keys == removing;
      assert d.dirs <= d.files.Keys;
    }
    if making == {} && removing == {} && Trackless(d) == {} {
      assert files == d.files;
      forall i | 0 <= i < |dirs| ensures dirs[i] in d.files {
        assert dirs[i] in dirs;
        assert dirs[i] !in Trackless(d);
      }
    }
  }

  lemma RemovingInside(s: State, stop: Stop)
    requires Inv(s)
    ensures Removing(s, stop) <= s.store.dirs
  {
    if Removing(s, stop) != {} { TrackKnown(s, stop.e.id); }
    hide Inv;
  }

  /** Stop the server at any point of a run.  A restart loads the tracks exactly if it
      was not stopped between making the directory of a new track and saving it, nor
      between removing a track file and its directory, no directory was left without a
      track file and not mended since, and the file of every track that was recording
      can be written. */
  lemma RestartPossible(states: seq<State>, events: seq<Event>, outcomes: seq<Leftover>, disks: seq<Disk>, n: nat, stop: Stop,
                        dirs: seq<nat>, writable: nat -> bool)
    requires IsDiskRun(states, events, outcomes, disks) && n <= |events| && StopOk(states[n], disks[n], stop)
    requires forall t :: t in dirs <==> t in Found(states[n], disks[n], stop).dirs
    ensures Loadable(dirs, Found(states[n], disks[n], stop).files, writable, |dirs|)
            <==> && Making(states[n], disks[n], stop) == {} && Removing(states[n], stop) == {}
                 && (forall m: nat, t: nat :: !LeftTrackless(states, events, outcomes, m, n, t))
                 && forall t | t in disks[n].files :: disks[n].files[t].phase == Recording ==> writable(t)
  {
    hide Inv, Init, Step, Enabled, Loadable, LeftTrackless, DiskInit, DiskStep, MadeBy, Fresh, Acceptable, Removing;
    DiskHolds(states, events, outcomes, disks, n);
    forall t | t in disks[n].files ensures Acceptable(disks[n].files[t]) {
      PastAcceptable(states, events, outcomes, disks, n, t);
    }
    if stop.Inside? { MadeFresh(states[n], stop.e, disks[n]); }
    RunInv(states, events, n);
    RemovingInside(states[n], stop);
    LoadableFiles(disks[n], dirs, Making(states[n], disks[n], stop), Removing(states[n], stop), writable);
    NoneTrackless(states, events, outcomes, disks, n);
  }

  /** Once a directory has been abandoned without a track file, no later restart loads
      the tracks, whatever it can write and wherever the server was stopped. */
  lemma RestartFails(states: seq<State>, events: seq<Event>, outcomes: seq<Leftover>, disks: seq<Disk>, m: nat, n: nat, t: nat, stop: Stop,
                     dirs: seq<nat>, writable: nat -> bool)
    requires IsDiskRun(states, events, outcomes, disks) && m < n <= |events| && Abandons(states[m], events[m], outcomes[m], t)
    requires StopOk(states[n], disks[n], stop) && forall k :: k in dirs <==> k in Found(states[n], disks[n], stop).dirs
    ensures !Loadable(dirs, Found(states[n], disks[n], stop).files, writable, |dirs|)
  {
    hide IsDiskRun, Abandons, StopOk, Making, Removing, Acceptable;
    AbandonedForGood(states, events, outcomes, disks, m, n, t);
    assert t in dirs;
    var i :| 0 <= i < |dirs| && dirs[i] == t;
  }

  lemma NoneTrackless(states: seq<State>, events: seq<Event>, outcomes: seq<Leftover>, disks: seq<Disk>, n: nat)
    requires IsDiskRun(states, events, outcomes, disks) && n <= |events|
    ensures Trackless(disks[n]) == {} <==> forall m: nat, t: nat :: !LeftTrackless(states, events, outcomes, m, n, t)
  {
    hide Inv, Init, Step, Enabled, LeftTrackless, DiskInit, DiskStep, Fresh, Trackless;
    forall m: nat, t: nat | LeftTrackless(states, events, outcomes, m, n, t) ensures t in Trackless(disks[n]) {
      TracklessHistory(states, events, outcomes, disks, n, t);
    }
    if t: nat :| t in Trackless(disks[n]) {
      TracklessHistory(states, events, outcomes, disks, n, t);
      var m: nat :| LeftTrackless(states, events, outcomes, m, n, t);
    }
  }

  // ----- the server after a restart

  /** The server over loaded tracks, before its consumer starts. */
  ghost function Restarted(s: State, loaded: map<nat, Track>, now: real): State {
    State(Store(loaded, loaded.Keys, loaded.Keys, s.store.poses, s.store.dirty,
                set t | t in loaded && !PosesOk(s.store.poses, t, loaded[t].samples)),
          Front(map t | t in loaded :: NewDesk(0.0), map[], false, false, None, Idle), 0, false, now, s.maxJobs)
  }

  /** Sample lists only grow, and a take once dirty stays so. */
  lemma {:induction false} TracksGrow(states: seq<State>, events: seq<Event>, m: nat, n: nat, t: nat)
    requires IsRun(states, events) && m <= n <= |events| && t in states[m].store.objs
    ensures t in states[n].store.objs && states[m].store.objs[t].samples <= states[n].store.objs[t].samples
    ensures t in states[m].store.dirty ==> t in states[n].store.dirty
    decreases n
  {
    hide Inv, Init, Step, Enabled, LosesSave;
    if m < n {
      var p := n - 1;
      TracksGrow(states, events, m, p, t);
      RunInv(states, events, p);
      EventAdds(states[p], events[p]);
      DirtyCause(states[p], events[p], t);
    }
  }

  lemma EarlierTrack(states: seq<State>, events: seq<Event>, m: nat, n: nat, t: nat)
    requires IsRun(states, events) && m <= n <= |events| && t in states[m].store.objs && states[m].store.objs[t].mode != Live
    ensures t in states[n].store.objs
    ensures var o := states[m].store.objs[t];
            && 1.0 <= o.hz <= 30.0 && o.count == |o.samples| <= MAX_TRACK_FRAMES
            && o.samples <= states[n].store.objs[t].samples
            && (o.mode == Offline || t !in states[n].store.dirty ==> Spaced(o.samples, o.hz))
  {
    RunInv(states, events, m);
    TrackKnown(states[m], t);
    TracksGrow(states, events, m, n, t);
    hide Inv, IsRun, Spaced;
  }

  lemma LoadedFrom(s: State, loaded: map<nat, Track>, now: real, t: nat, o: Track)
    requires t in loaded && loaded[t] == Reloaded(Persisted(o)) && o.mode != Live
    requires 1.0 <= o.hz <= 30.0 && o.count == |o.samples| <= MAX_TRACK_FRAMES
    requires o.mode == Offline || t !in s.store.dirty ==> Spaced(o.samples, o.hz)
    ensures LoadedOk(Restarted(s, loaded, now).store, t) && loaded[t].samples == o.samples
  {
    hide PosesOk, Spaced;
  }

  lemma ReloadedOk(states: seq<State>, events: seq<Event>, outcomes: seq<Leftover>, disks: seq<Disk>, n: nat, loaded: map<nat, Track>, now: real, t: nat)
    requires IsDiskRun(states, events, outcomes, disks) && n <= |events| && t in disks[n].files
    requires t in loaded && loaded[t] == Reloaded(disks[n].files[t])
    ensures LoadedOk(Restarted(states[n], loaded, now).store, t)
    ensures t in states[n].store.objs && loaded[t].samples <= states[n].store.objs[t].samples
  {
    FilesFromPast(states, events, outcomes, disks, n, t);
    var m: nat :| HeldAt(states, disks[n].files[t], m, n, t);
    EarlierTrack(states, events, m, n, t);
    LoadedFrom(states[n], loaded, now, t, states[m].store.objs[t]);
    hide Inv, IsRun, LoadedOk, Restarted, Spaced, Reloaded, Persisted, DiskInit, DiskStep, Fresh;
  }

  lemma InitRestarted(s: State, loaded: map<nat, Track>, now: real)
    requires forall t | t in loaded :: LoadedOk(Restarted(s, loaded, now).store, t)
    ensures Init(Restarted(s, loaded, now))
  {
    hide LoadedOk, PosesOk;
  }

  lemma AgreementKept(s: State, loaded: map<nat, Track>, now: real, t: nat)
    requires t in s.store.objs && t in loaded && loaded[t].samples <= s.store.objs[t].samples && Agrees(s.store, t)
    ensures Agrees(Restarted(s, loaded, now).store, t)
  {
  }

  /** Once the track files of a run have been loaded, the server begins a new run: the
      loaded samples are the first of those in memory, a track that agreed with its
      pose files still agrees, and the files on disk are those of the loaded tracks. */
  lemma RestartBegins(states: seq<State>, events: seq<Event>, outcomes: seq<Leftover>, disks: seq<Disk>, n: nat,
                      loaded: map<nat, Track>, files: map<nat, Track>, now: real)
    requires IsDiskRun(states, events, outcomes, disks) && n <= |events|
    requires loaded.Keys == disks[n].dirs == disks[n].files.Keys == files.Keys
    requires forall t | t in loaded :: loaded[t] == Reloaded(disks[n].files[t]) && files[t] == Interrupting(disks[n].files[t])
    ensures Init(Restarted(states[n], loaded, now))
    ensures DiskInit(Restarted(states[n], loaded, now), Disk(disks[n].dirs, files))
    ensures forall t | t in loaded ::
      && t in states[n].store.objs && loaded[t].samples <= states[n].store.objs[t].samples
      && (Agrees(states[n].store, t) ==> Agrees(Restarted(states[n], loaded, now).store, t))
  {
    hide Inv, Step, Enabled, Init, LoadedOk, Agrees, Reloaded, Interrupting, DiskInit, DiskStep, Fresh, Persisted;
    forall t | t in loaded
      ensures LoadedOk(Restarted(states[n], loaded, now).store, t)
      ensures t in states[n].store.objs && loaded[t].samples <= states[n].store.objs[t].samples
      ensures Agrees(states[n].store, t) ==> Agrees(Restarted(states[n], loaded, now).store, t)
      ensures files[t] == Persisted(loaded[t])
    {
      ReloadedOk(states, events, outcomes, disks, n, loaded, now, t);
      if Agrees(states[n].store, t) { AgreementKept(states[n], loaded, now, t); }
      FilesReloaded(states, events, outcomes, disks, n, t);
    }
    InitRestarted(states[n], loaded, now);
    DiskRestarted(states[n], loaded, files, now, disks[n].dirs);
  }

  lemma FilesReloaded(states: seq<State>, events: seq<Event>, outcomes: seq<Leftover>, disks: seq<Disk>, n: nat, t: nat)
    requires IsDiskRun(states, events, outcomes, disks) && n <= |events| && t in disks[n].files
    ensures Interrupting(disks[n].files[t]) == Persisted(Reloaded(disks[n].files[t]))
  {
    FilesFromPast(states, events, outcomes, disks, n, t);
    var m: nat :| HeldAt(states, disks[n].files[t], m, n, t);
    hide Inv, IsDiskRun, IsRun;
  }

  lemma DiskRestarted(s: State, loaded: map<nat, Track>, files: map<nat, Track>, now: real, dirs: set<nat>)
    requires loaded.Keys == files.Keys == dirs && forall t | t in files :: files[t] == Persisted(loaded[t])
    ensures DiskInit(Restarted(s, loaded, now), Disk(dirs, files))
  {
    hide PosesOk, Persisted;
  }
}
