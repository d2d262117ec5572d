/** A start of the server: it loads the tracks, and then the jobs. */
module Startup {
  import opened Wrappers
  import Capture = CaptureModel
  import opened CaptureDisk
  import CaptureRestart
  import Jobs = JobModel
  import JobSafety
  import JobServer

  /** Succeeds exactly if both load; the jobs are only looked at after the tracks. */
  method LoadApp(trackDirs: seq<nat>, files: map<nat, Capture.Track>, trackWritable: nat -> bool,
                 jobDirs: seq<nat>, saved: map<nat, Jobs.JobState>, jobWritable: nat -> bool)
    returns (r: Result<(map<nat, Capture.Track>, map<nat, Jobs.JobState>)>)
    requires forall i, j | 0 <= i < j < |trackDirs| :: trackDirs[i] != trackDirs[j]
    requires forall i, j | 0 <= i < j < |jobDirs| :: jobDirs[i] != jobDirs[j]
    ensures r.Success? <==>
      && CaptureRestart.Loadable(trackDirs, files, trackWritable, |trackDirs|)
      && JobServer.Loadable(jobDirs, saved, jobWritable, |jobDirs|)
    ensures r.Success? ==>
      && (forall t | t in r.value.0 :: t in trackDirs && t in files && r.value.0[t] == CaptureRestart.Reloaded(files[t]))
      && (forall id | id in r.value.1 :: id in jobDirs && id in saved && r.value.1[id] == JobServer.Restored(saved[id]))
  {
    hide CaptureRestart.Loadable, JobServer.Loadable;
    var tracks, trackFiles := CaptureRestart.LoadTracks(trackDirs, files, trackWritable);
    if tracks.Failure? {
      return Failure(tracks.error);
    }
    var jobs, jobFiles := JobServer.LoadJobs(jobDirs, saved, jobWritable);
    if jobs.Failure? {
      return Failure(jobs.error);
    }
    r := Success((tracks.value, jobs.value));
  }

  /** The stop finds no track directory between its making and its saving, nor between
      the removal of its file and its own, and none that an event has left without a
      track file; and the files of interrupted tracks can be written. */
  ghost predicate TracksReady(states: seq<Capture.State>, events: seq<Capture.Event>, outcomes: seq<Leftover>, disks: seq<Disk>, n: nat,
                              stop: CaptureRestart.Stop, writable: nat -> bool)
    requires IsDiskRun(states, events, outcomes, disks) && n <= |events| && CaptureRestart.StopOk(states[n], disks[n], stop)
  {
    && CaptureRestart.Making(states[n], disks[n], stop) == {} && CaptureRestart.Removing(states[n], stop) == {}
    && (forall m: nat, t: nat :: !LeftTrackless(states, events, outcomes, m, n, t))
    && forall t | t in disks[n].files :: disks[n].files[t].phase == Capture.Recording ==> writable(t)
  }

  /** The stop finds no submission between the making of its directory and its job
      file, and no directory that a submission has left without one; and the files of
      unfinished jobs can be written. */
  ghost predicate JobsReady(states: seq<Jobs.State>, labels: seq<Jobs.Label>, j: nat, writable: nat -> bool)
    requires JobSafety.IsRun(states, labels) && j < |states|
  {
    && JobServer.Orphans(states[0]) == {}
    && (forall m, id | 0 <= m < j :: !JobServer.LeavesOrphan(states[m], labels[m], id))
    && states[j].making.None?
    && forall id | id in states[j].sizes && id in states[j].saved :: Jobs.Terminal(states[j].saved[id]) || writable(id)
  }

  /** Exactly when the next start succeeds, wherever the server was stopped: at state
      `n` of its tracks or inside the event after it, and at state `j` of its jobs. */
  lemma StartPossible(states: seq<Capture.State>, events: seq<Capture.Event>, outcomes: seq<Leftover>, disks: seq<Disk>, n: nat,
                      stop: CaptureRestart.Stop, trackDirs: seq<nat>, trackWritable: nat -> bool,
                      jobStates: seq<Jobs.State>, labels: seq<Jobs.Label>, j: nat, jobDirs: seq<nat>, jobWritable: nat -> bool)
    requires IsDiskRun(states, events, outcomes, disks) && n <= |events| && CaptureRestart.StopOk(states[n], disks[n], stop)
    requires JobSafety.IsRun(jobStates, labels) && j < |jobStates|
    requires forall t :: t in trackDirs <==> t in CaptureRestart.Found(states[n], disks[n], stop).dirs
    requires forall id :: id in jobDirs <==> id in jobStates[j].sizes
    ensures && CaptureRestart.Loadable(trackDirs, CaptureRestart.Found(states[n], disks[n], stop).files, trackWritable, |trackDirs|)
            && JobServer.Loadable(jobDirs, jobStates[j].saved, jobWritable, |jobDirs|)
            <==> TracksReady(states, events, outcomes, disks, n, stop, trackWritable) && JobsReady(jobStates, labels, j, jobWritable)
  {
    hide IsDiskRun, LeftTrackless, JobServer.Loadable, CaptureRestart.Loadable, JobServer.Orphans, JobServer.LeavesOrphan;
    CaptureRestart.RestartPossible(states, events, outcomes, disks, n, stop, trackDirs, trackWritable);
    JobServer.RestartPossible(jobStates, labels, j, jobDirs, jobWritable);
  }
}
