/**
 The job handlers and the consumer as the server runs them, on fields updated in
 place under the lock, and the restart that reads the job files back.
 */
module JobServer {
  import opened Wrappers
  import opened JobModel
  import opened JobSafety

  /** How the run of a job ended: with a result, with an error, or because its
      context was cancelled. */
  datatype RunResult = Produced | Broken | ContextCancelled

  function OutcomeOf(result: RunResult): JobState {
    match result case Produced => Complete case Broken => Failed case ContextCancelled => Cancelled
  }

  class Server {
    const budget: nat
    const maxJobs: nat
    var jobs: map<nat, JobState>
    var queue: seq<nat>
    var consumer: Consumer
    var current: Option<nat>
    var cancelling: bool
    var sizes: map<nat, nat>
    var saved: map<nat, JobState>
    ghost var making: Option<nat>
    ghost var admitted: bool

    ghost function Snapshot(): State
      reads this
    {
      State(jobs, queue, consumer, current, cancelling, sizes, saved, budget, maxJobs, making, admitted)
    }

    ghost predicate Valid()
      reads this
    {
      Inv(Snapshot())
    }

    /** A server over what a restart has loaded. */
    constructor (budget: nat, maxJobs: nat, sizes: map<nat, nat>, loaded: map<nat, JobState>)
      requires forall id :: id in loaded ==> Terminal(loaded[id]) && id in sizes
      ensures Valid() && Init(Snapshot()) && jobs == loaded
    {
      this.budget, this.maxJobs, this.sizes := budget, maxJobs, sizes;
      jobs, saved := loaded, loaded;
      queue, consumer, current, cancelling, making, admitted := [], Free, None, false, None, false;
    }

    /** The guard of a submission and the making of its directory. */
    method BeginSubmit(id: nat, measured: nat, made: bool) returns (begun: bool)
      requires Valid() && Enabled(Snapshot(), Begin(id, measured, made))
      modifies this
      ensures Valid() && Snapshot() == Step(old(Snapshot()), Begin(id, measured, made))
      ensures begun <==> making == Some(id)
      ensures begun <==> old(Admissible(Snapshot(), measured)) && id !in old(sizes) && made
    {
      hide Inv, Measured;
      StepKeeps(Snapshot(), Begin(id, measured, made));
      if |jobs| >= maxJobs || |queue| >= QUEUE_SLOTS {
        return false;
      }
      if measured + (|queue| + 2) * ALLOWANCE > budget {
        return false;
      }
      if id in sizes || !made {
        return false;
      }
      sizes := sizes[id := 0];
      making := Some(id);
      admitted := true;
      begun := true;
    }

    /** The input files, of which some may be written even when one fails. */
    method FillDirectory(id: nat, size: nat)
      requires Valid() && making == Some(id) && size <= ALLOWANCE
      modifies this
      ensures Valid() && Snapshot() == Step(old(Snapshot()), Fill(size))
    {
      hide Inv, Measured;
      StepKeeps(Snapshot(), Fill(size));
      sizes := sizes[id := size];
    }

    /** The job file and the queue, or the deferred removal of the directory. */
    method EndSubmit(id: nat, written: bool, removed: bool)
      requires Valid() && making == Some(id)
      modifies this
      ensures Valid() && Snapshot() == Step(old(Snapshot()), End(written, removed))
    {
      hide Inv, Measured;
      StepKeeps(Snapshot(), End(written, removed));
      making := None;
      if !written {
        if removed {
          sizes := sizes - {id};
        }
        return;
      }
      saved := saved[id := Queued];
      jobs := jobs[id := Queued];
      queue := queue + [id];
    }

    /** A whole submission, if nobody else runs meanwhile. */
    method Submit(id: nat, measured: nat, size: nat, made: bool, written: bool, removed: bool) returns (accepted: bool)
      requires Valid() && Enabled(Snapshot(), Begin(id, measured, made)) && size <= ALLOWANCE
      modifies this
      ensures Valid()
      ensures Snapshot() == Submitted(old(Snapshot()), id, measured, size, made, written, removed)
      ensures accepted <==> old(Admissible(Snapshot(), measured)) && id !in old(sizes) && made && written
    {
      hide Inv, Measured, Admissible;
      var begun := BeginSubmit(id, measured, made);
      if !begun {
        return false;
      }
      FillDirectory(id, size);
      EndSubmit(id, written, removed);
      accepted := written;
    }

    method Delete(id: nat, size: nat, written: bool)
      requires Valid() && making.None? && size <= ALLOWANCE
      modifies this
      ensures Valid() && Snapshot() == Step(old(Snapshot()), JobModel.Delete(id, size, written))
    {
      hide Inv;
      StepKeeps(Snapshot(), JobModel.Delete(id, size, written));
      if id !in jobs {
        return;
      }
      if jobs[id].Queued? {
        jobs := jobs[id := Cancelled];
        sizes := sizes[id := size];
        if written {
          saved := saved[id := Cancelled];
        }
      } else if current == Some(id) {
        cancelling := true;
      }
    }

    /** The consumer takes the next identifier out of the queue. */
    method TakeNext() returns (id: nat)
      requires Valid() && consumer.Free? && queue != []
      modifies this
      ensures Valid() && Snapshot() == Step(old(Snapshot()), Pop) && consumer == Popped(id)
    {
      hide Inv;
      StepKeeps(Snapshot(), Pop);
      id := queue[0];
      queue := queue[1..];
      consumer := Popped(id);
    }

    /** Under the lock it starts the job, unless that was cancelled while it waited. */
    method MarkNext(id: nat, size: nat, written: bool) returns (started: bool)
      requires Valid() && making.None? && consumer == Popped(id) && size <= ALLOWANCE
      modifies this
      ensures Valid() && Snapshot() == Step(old(Snapshot()), Mark(size, written))
      ensures started <==> consumer.Busy?
      ensures started <==> id in old(jobs) && old(jobs)[id].Queued?
    {
      hide Inv;
      StepKeeps(Snapshot(), Mark(size, written));
      if id !in jobs || !jobs[id].Queued? {
        consumer := Free;
        return false;
      }
      current, cancelling := Some(id), false;
      jobs := jobs[id := Running];
      sizes := sizes[id := size];
      if written {
        saved := saved[id := Running];
      }
      consumer := Busy(id);
      started := true;
    }

    method FinishJob(result: RunResult, size: nat, written: bool)
      requires Valid() && making.None? && consumer.Busy? && size <= ALLOWANCE
      modifies this
      ensures Valid() && Snapshot() == Step(old(Snapshot()), Finish(OutcomeOf(result), size, written))
      ensures var id := old(consumer).id;
              var final := if result == Produced then Complete else if result == ContextCancelled then Cancelled else Failed;
              && consumer == Free && current == None && jobs == old(jobs)[id := final]
              && saved == (if written then old(saved)[id := final] else old(saved))
    {
      hide Inv;
      StepKeeps(Snapshot(), Finish(OutcomeOf(result), size, written));
      var id := consumer.id;
      var outcome := Complete;
      if !result.Produced? {
        outcome := Failed;
        if result.ContextCancelled? {
          outcome := Cancelled;
        }
      }
      current, cancelling := None, false;
      jobs := jobs[id := outcome];
      sizes := sizes[id := size];
      if written {
        saved := saved[id := outcome];
      }
      consumer := Free;
    }
  }

  /** The three events of a submission, or its refusal. */
  ghost function Submitted(s: State, id: nat, measured: nat, size: nat, made: bool, written: bool, removed: bool): State
    requires Enabled(s, Begin(id, measured, made)) && size <= ALLOWANCE
  {
    var begun := Step(s, Begin(id, measured, made));
    if begun.making.None? then begun else Step(Step(begun, Fill(size)), End(written, removed))
  }

  /** What a restart makes of a saved state. */
  function Restored(j: JobState): JobState {
    if j.Running? || j.Queued? then Failed else j
  }

  predicate Loadable(dirs: seq<nat>, saved: map<nat, JobState>, writable: nat -> bool, n: nat)
    requires n <= |dirs|
  {
    forall i :: 0 <= i < n ==> dirs[i] in saved && (Terminal(saved[dirs[i]]) || writable(dirs[i]))
  }

  /** The restart: every job file is read, and an unfinished job is marked failed.
      `writable` says whose job file can be saved. */
  method LoadJobs(dirs: seq<nat>, saved: map<nat, JobState>, writable: nat -> bool)
    returns (r: Result<map<nat, JobState>>, disk: map<nat, JobState>)
    requires forall i, j :: 0 <= i < j < |dirs| ==> dirs[i] != dirs[j]
    ensures r.Success? <==> Loadable(dirs, saved, writable, |dirs|)
    ensures r.Success? ==>
      && r.value.Keys == (set i | 0 <= i < |dirs| :: dirs[i])
      && (forall id :: id in r.value ==> id in saved && r.value[id] == Restored(saved[id]) && Terminal(r.value[id]))
      && (forall id :: id in r.value ==> id in disk && disk[id] == r.value[id])
      && (forall id :: id in r.value ==> r.value[id] == if saved[id] == Queued || saved[id] == Running then Failed else saved[id])
  {
    var jobs: map<nat, JobState> := map[];
    disk := saved;
    var i := 0;
    while i < |dirs|
      invariant 0 <= i <= |dirs|
      invariant Loadable(dirs, saved, writable, i)
      invariant jobs.Keys == set k | 0 <= k < i :: dirs[k]
      invariant disk.Keys == saved.Keys
      invariant forall k :: i <= k < |dirs| && dirs[k] in saved ==> disk[dirs[k]] == saved[dirs[k]]
      invariant forall id :: id in jobs ==> id in saved && jobs[id] == Restored(saved[id]) && disk[id] == jobs[id]
    {
      var d := dirs[i];
      if d !in disk {
        return Failure("invalid saved job"), disk;
      }
      var j := disk[d];
      if j.Running? || j.Queued? {
        j := Failed;
        if !writable(d) {
          return Failure("invalid saved job"), disk;
        }
        disk := disk[d := j];
      }
      jobs := jobs[d := j];
      i := i + 1;
    }
    r := Success(jobs);
  }

  // ----- directories without a job file

  /** Directories that no submission will complete, and that have no job file. */
  function Orphans(s: State): set<nat> {
    s.sizes.Keys - s.saved.Keys - if s.making.Some? then {s.making.value} else {}
  }

  /** A submission ends that could not save its job file and then could not remove
      its directory. */
  predicate LeavesOrphan(s: State, e: Label, id: nat) {
    e.End? && s.making == Some(id) && !e.saved && !e.removed
  }

  /** An event leaves a directory without a job file exactly if it is the end of such
      a submission; no event takes one away. */
  lemma OrphanCause(s: State, e: Label, id: nat)
    requires Inv(s) && Enabled(s, e)
    ensures id in Orphans(Step(s, e)) <==> id in Orphans(s) || LeavesOrphan(s, e, id)
  {
    hide Inv;
    if Submits(e) {
      SubmitOrphans(s, e, id);
    } else {
      OtherOrphans(s, e);
    }
  }

  lemma SubmitOrphans(s: State, e: Label, id: nat)
    requires Inv(s) && Enabled(s, e) && Submits(e)
    ensures id in Orphans(Step(s, e)) <==> id in Orphans(s) || LeavesOrphan(s, e, id)
  {
    hide Measured, Admissible, QueueInv, ConsumerInv, Active;
  }

  lemma OtherOrphans(s: State, e: Label)
    requires Inv(s) && Enabled(s, e) && !Submits(e)
    ensures Orphans(Step(s, e)) == Orphans(s)
  {
    hide Measured, QueueInv;
  }

  /** Over a run, the directories without a job file are those of the start, which
      stay, and those that a submission has left since. */
  lemma {:induction false} OrphanHistory(states: seq<State>, labels: seq<Label>, i: nat, j: nat, id: nat)
    requires IsRun(states, labels) && i <= j < |states|
    ensures id in Orphans(states[j])
            <==> id in Orphans(states[i]) || exists m | i <= m < j :: LeavesOrphan(states[m], labels[m], id)
    decreases j
  {
    hide Inv, Step, Enabled, Orphans, LeavesOrphan;
    if i < j {
      OrphanHistory(states, labels, i, j - 1, id);
      RunWithinBudget(states, labels, j - 1);
      assert Enabled(states[j - 1], labels[j - 1]);
      OrphanCause(states[j - 1], labels[j - 1], id);
    }
  }

  /** Once a submission has left a directory without a job file, no later restart
      loads the jobs, whatever it can write. */
  lemma RestartFails(states: seq<State>, labels: seq<Label>, m: nat, j: nat, id: nat, dirs: seq<nat>, writable: nat -> bool)
    requires IsRun(states, labels) && m < j < |states| && LeavesOrphan(states[m], labels[m], id)
    requires forall d :: d in states[j].sizes <==> d in dirs
    ensures !Loadable(dirs, states[j].saved, writable, |dirs|)
  {
    hide Inv, Step, Enabled, LeavesOrphan;
    OrphanHistory(states, labels, m, j, id);
    var k :| 0 <= k < |dirs| && dirs[k] == id;
  }

  /** The jobs that a restart finds load exactly if every directory has a job file and
      the job file of every unfinished job can be written. */
  lemma LoadableMeans(s: State, dirs: seq<nat>, writable: nat -> bool)
    requires Inv(s) && forall id :: id in s.sizes <==> id in dirs
    ensures Loadable(dirs, s.saved, writable, |dirs|)
            <==> && Orphans(s) == {} && s.making.None?
                 && forall id | id in s.sizes && id in s.saved :: Terminal(s.saved[id]) || writable(id)
  {
    hide QueueInv, ConsumerInv, DiskInv;
    if Loadable(dirs, s.saved, writable, |dirs|) {
      forall id | id in s.sizes ensures id in s.saved && (Terminal(s.saved[id]) || writable(id)) {
        var i :| 0 <= i < |dirs| && dirs[i] == id;
      }
    }
    if Orphans(s) == {} && s.making.None? {
      forall i | 0 <= i < |dirs| ensures dirs[i] in s.saved {
        assert dirs[i] in s.sizes;
        assert dirs[i] !in Orphans(s);
      }
    }
  }

  /** Stop the server at any point of a run, between two events.  A restart loads the
      jobs exactly if no directory was without a job file at the start, no submission
      has left one since, none is between making its directory and saving its job
      file, and the job file of every unfinished job can be written. */
  lemma RestartPossible(states: seq<State>, labels: seq<Label>, j: nat, dirs: seq<nat>, writable: nat -> bool)
    requires IsRun(states, labels) && j < |states|
    requires forall id :: id in states[j].sizes <==> id in dirs
    ensures Loadable(dirs, states[j].saved, writable, |dirs|)
            <==> && Orphans(states[0]) == {}
                 && (forall m, id | 0 <= m < j :: !LeavesOrphan(states[m], labels[m], id))
                 && states[j].making.None?
                 && forall id | id in states[j].sizes && id in states[j].saved :: Terminal(states[j].saved[id]) || writable(id)
  {
    hide Inv, IsRun, Loadable, LeavesOrphan, Orphans;
    RunWithinBudget(states, labels, j);
    LoadableMeans(states[j], dirs, writable);
    NoOrphans(states, labels, j);
  }

  lemma NoOrphans(states: seq<State>, labels: seq<Label>, j: nat)
    requires IsRun(states, labels) && j < |states|
    ensures Orphans(states[j]) == {}
            <==> Orphans(states[0]) == {} && forall m, id | 0 <= m < j :: !LeavesOrphan(states[m], labels[m], id)
  {
    hide Inv, Step, Enabled, Orphans, LeavesOrphan;
    forall id: nat
      ensures id in Orphans(states[j])
              <==> id in Orphans(states[0]) || exists m | 0 <= m < j :: LeavesOrphan(states[m], labels[m], id)
    {
      OrphanHistory(states, labels, 0, j, id);
    }
    if m, id :| 0 <= m < j && LeavesOrphan(states[m], labels[m], id) {
      assert id in Orphans(states[j]);
    }
  }

  function EmptyServer(budget: nat, maxJobs: nat): State {
    State(map[], [], Free, None, false, map[], map[], budget, maxJobs, None, false)
  }

  /** A server that is stopped inside its first submission: no submission has failed,
      and yet no restart loads, whatever it can write. */
  lemma StoppedInside(budget: nat, maxJobs: nat, id: nat) returns (s: State)
    requires maxJobs > 0 && budget >= 2 * ALLOWANCE
    ensures IsRun([EmptyServer(budget, maxJobs), s], [Begin(id, 0, true)])
    ensures s.sizes.Keys == {id} && forall writable: nat -> bool :: !Loadable([id], s.saved, writable, 1)
    ensures forall m, d | 0 <= m < 1 :: !LeavesOrphan([EmptyServer(budget, maxJobs), s][m], [Begin(id, 0, true)][m], d)
  {
    var s0 := EmptyServer(budget, maxJobs);
    assert Measured(s0) == 0;
    s := Step(s0, Begin(id, 0, true));
    assert [id][0] == id;
  }
}
