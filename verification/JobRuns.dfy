/**
 What becomes of a job: how a submission ends, what a deletion and the consumer do
 with it, and that every job in the queue gets its turn, in order.
 */
module JobRuns {
  import opened Wrappers
  import opened JobModel
  import opened JobSafety
  import opened JobServer

  // ----- the routes, with every number

  /** There is a place in the history and in the queue, and 160 MiB for the new job and
      for every job that may still write. */
  predicate Place(s: State, measured: nat) {
    |s.jobs| < s.maxJobs && |s.queue| < 2 && measured + (|s.queue| + 2) * 167772160 <= s.budget
  }

  /** The job is the last of the queue, in its directory and with its job file. */
  predicate JobAdded(s: State, s': State, id: nat, size: nat) {
    && s'.jobs == s.jobs[id := Queued] && s'.queue == s.queue + [id]
    && s'.saved == s.saved[id := Queued] && s'.sizes == s.sizes[id := size]
  }

  /** There is no job; its directory is gone, too, if it could be removed. */
  predicate JobDropped(s: State, s': State, id: nat, size: nat, removed: bool) {
    && s'.jobs == s.jobs && s'.queue == s.queue && s'.saved == s.saved
    && s'.sizes == if removed then s.sizes else s.sizes[id := size]
  }

  predicate ConsumerSame(s: State, s': State) {
    s'.consumer == s.consumer && s'.current == s.current && s'.cancelling == s.cancelling && s'.making == None
  }

  /** A submission is accepted exactly if there is a place for it and its directory and its
      job file can be made; a refusal before the directory is made changes nothing. */
  lemma SubmissionEnds(s: State, id: nat, measured: nat, size: nat, made: bool, written: bool, removed: bool)
    requires Enabled(s, Begin(id, measured, made)) && size <= 167772160
    ensures var s' := Submitted(s, id, measured, size, made, written, removed);
            if !(Place(s, measured) && id !in s.sizes && made) then s' == s
            else ConsumerSame(s, s') && if written then JobAdded(s, s', id, size) else JobDropped(s, s', id, size, removed)
  {
    hide Measured, Enabled, Step, Submitted, JobAdded, JobDropped, ConsumerSame, EndJob;
    NothingMaking(s, id, measured, made);
    if Place(s, measured) && id !in s.sizes && made {
      var s1 := BeginJob(s, id, measured, made);
      SubmissionSteps(s, id, measured, made, s1, size, written, removed);
      EndMeans(s, id, size, written, removed);
      assert s1.(sizes := s1.sizes[id := size]) == Begun(s, id, size) by { TwiceSet(s.sizes, id, size); }
    } else {
      Unbegun(s, id, measured, size, made, written, removed);
    }
  }

  function Begun(s: State, id: nat, size: nat): State {
    s.(sizes := s.sizes[id := size], making := Some(id), admitted := true)
  }

  lemma TwiceSet(m: map<nat, nat>, id: nat, size: nat)
    ensures m[id := 0][id := size] == m[id := size]
  {
  }

  lemma Unbegun(s: State, id: nat, measured: nat, size: nat, made: bool, written: bool, removed: bool)
    requires Enabled(s, Begin(id, measured, made)) && size <= ALLOWANCE
    requires Step(s, Begin(id, measured, made)) == s && s.making.None?
    ensures Submitted(s, id, measured, size, made, written, removed) == s
  {
    hide Measured, EndJob, BeginJob, Step;
  }

  lemma EndMeans(s: State, id: nat, size: nat, written: bool, removed: bool)
    requires id !in s.sizes
    ensures var s' := EndJob(Begun(s, id, size), written, removed);
            ConsumerSame(s, s') && if written then JobAdded(s, s', id, size) else JobDropped(s, s', id, size, removed)
  {
    assert s.sizes[id := size] - {id} == s.sizes;
  }

  lemma NothingMaking(s: State, id: nat, measured: nat, made: bool)
    requires Enabled(s, Begin(id, measured, made))
    ensures s.making.None? && Step(s, Begin(id, measured, made)) == BeginJob(s, id, measured, made)
  {
    hide Measured;
  }

  lemma SubmissionSteps(s: State, id: nat, measured: nat, made: bool, s1: State, size: nat, written: bool, removed: bool)
    requires Enabled(s, Begin(id, measured, made)) && s1 == Step(s, Begin(id, measured, made))
    requires s1.making == Some(id) && size <= ALLOWANCE
    ensures Submitted(s, id, measured, size, made, written, removed)
            == EndJob(s1.(sizes := s1.sizes[id := size]), written, removed)
  {
    hide Measured, EndJob, BeginJob;
  }

  /** Deleting a job that waits cancels it for good; deleting the one that runs asks it to
      stop and leaves the rest to the consumer; any other job stays as it is. */
  lemma DeletionEnds(s: State, id: nat, size: nat, saved: bool)
    requires Inv(s) && Enabled(s, Delete(id, size, saved))
    ensures var s' := Step(s, Delete(id, size, saved));
            && s'.queue == s.queue && s'.consumer == s.consumer && s'.current == s.current
            && if id in s.jobs && s.jobs[id] == Queued then
                 && s'.jobs == s.jobs[id := Cancelled] && s'.cancelling == s.cancelling
                 && s'.saved == if saved then s.saved[id := Cancelled] else s.saved
               else
                 && s'.jobs == s.jobs && s'.saved == s.saved && s'.sizes == s.sizes
                 && s'.cancelling == (s.cancelling || s.consumer == Busy(id))
  {
    hide QueueInv, DiskInv, MakingInv, Measured;
  }

  /** The consumer starts the job it has taken out of the queue, unless that was cancelled
      meanwhile: then it takes the next. */
  lemma TurnTaken(s: State, id: nat, size: nat, saved: bool)
    requires Inv(s) && s.consumer == Popped(id) && Enabled(s, Mark(size, saved))
    ensures var s' := Step(s, Mark(size, saved));
            && s'.queue == s.queue && id in s.jobs
            && if s.jobs[id] == Queued then
                 && s'.consumer == Busy(id) && s'.current == Some(id) && !s'.cancelling && s'.jobs == s.jobs[id := Running]
                 && s'.saved == if saved then s.saved[id := Running] else s.saved
               else s' == s.(consumer := Free)
  {
    hide QueueInv, DiskInv, MakingInv, Measured;
  }

  // ----- every job gets its turn

  ghost predicate IsPath(states: seq<State>, labels: seq<Label>) {
    && |states| == |labels| + 1
    && forall i | 0 <= i < |labels| :: Enabled(states[i], labels[i]) && states[i + 1] == Step(states[i], labels[i])
  }

  /** Only the consumer acts. */
  predicate ConsumerOnly(labels: seq<Label>) {
    forall i | 0 <= i < |labels| :: labels[i].Pop? || labels[i].Mark? || labels[i].Finish?
  }

  lemma PathsJoin(a: seq<State>, x: seq<Label>, b: seq<State>, y: seq<Label>)
    requires IsPath(a, x) && IsPath(b, y) && a[|x|] == b[0]
    requires ConsumerOnly(x) && ConsumerOnly(y)
    ensures IsPath(a + b[1..], x + y) && ConsumerOnly(x + y) && (a + b[1..])[|x| + |y|] == b[|y|] && (a + b[1..])[0] == a[0]
  {
    hide Step, Enabled;
    var states := a + b[1..];
    forall i | 0 <= i < |x| + |y| ensures Enabled(states[i], (x + y)[i]) && states[i + 1] == Step(states[i], (x + y)[i]) {
      if i >= |x| {
        assert states[i] == b[i - |x|] && states[i + 1] == b[i - |x| + 1];
      }
    }
  }

  /** The consumer waits for the next job, and no submission holds the lock. */
  predicate Rested(s: State) {
    Inv(s) && s.making.None? && s.consumer.Free?
  }

  /** The jobs of the queue are still there, in order and as they were. */
  predicate SameQueue(s: State, s': State) {
    s'.queue == s.queue && forall i | 0 <= i < |s.queue| ::
      s.queue[i] in s.jobs && s.queue[i] in s'.jobs && s'.jobs[s.queue[i]] == s.jobs[s.queue[i]]
  }

  lemma Finishes(s: State) returns (s': State)
    requires Inv(s) && s.making.None? && s.consumer.Busy?
    ensures IsPath([s, s'], [Finish(Complete, 0, true)]) && Rested(s') && SameQueue(s, s')
    ensures s'.jobs == s.jobs[s.consumer.id := Complete] && s'.saved == s.saved[s.consumer.id := Complete]
  {
    hide Measured, DiskInv, MakingInv, Inv;
    s' := Step(s, Finish(Complete, 0, true));
    StepKeeps(s, Finish(Complete, 0, true));
    BusyApart(s);
  }

  lemma BusyApart(s: State)
    requires Inv(s)
    ensures s.consumer.Busy? ==> s.consumer.id !in s.queue
    ensures s.consumer.Popped? ==> s.consumer.id !in s.queue && s.consumer.id in s.jobs
    ensures forall i | 0 <= i < |s.queue| :: s.queue[i] in s.jobs
  {
  }

  /** Whatever the consumer does, it can end it within two events. */
  lemma Rests(s: State) returns (states: seq<State>, labels: seq<Label>)
    requires Inv(s) && s.making.None?
    ensures IsPath(states, labels) && ConsumerOnly(labels) && |labels| <= 2 && states[0] == s
    ensures Rested(states[|labels|]) && SameQueue(s, states[|labels|])
  {
    hide Inv, Step, Enabled, SameQueue;
    BusyApart(s);
    if s.consumer.Free? {
      SameItself(s);
      states, labels := [s], [];
    } else if s.consumer.Busy? {
      var s1 := Finishes(s);
      states, labels := [s, s1], [Finish(Complete, 0, true)];
    } else {
      var s1 := Marks(s);
      if s1.consumer.Free? {
        states, labels := [s, s1], [Mark(0, true)];
      } else {
        var s2 := Finishes(s1);
        SameOn(s, s1, s2);
        PathsJoin([s, s1], [Mark(0, true)], [s1, s2], [Finish(Complete, 0, true)]);
        states, labels := [s, s1] + [s1, s2][1..], [Mark(0, true)] + [Finish(Complete, 0, true)];
      }
    }
  }

  lemma SameItself(s: State)
    requires Inv(s)
    ensures SameQueue(s, s)
  {
    BusyApart(s);
  }

  lemma SameOn(s: State, s1: State, s2: State)
    requires SameQueue(s, s1) && SameQueue(s1, s2)
    ensures SameQueue(s, s2)
  {
  }

  lemma Marks(s: State) returns (s': State)
    requires Inv(s) && s.making.None? && s.consumer.Popped?
    ensures IsPath([s, s'], [Mark(0, true)]) && Inv(s') && s'.making.None? && SameQueue(s, s')
    ensures var id := s.consumer.id;
            id in s.jobs && if s.jobs[id] == Queued then s'.consumer == Busy(id) && s'.jobs == s.jobs[id := Running] else Rested(s') && s'.jobs == s.jobs
  {
    hide Measured, DiskInv, MakingInv, Inv;
    s' := Step(s, Mark(0, true));
    StepKeeps(s, Mark(0, true));
    BusyApart(s);
    TurnTaken(s, s.consumer.id, 0, true);
  }

  lemma Pops(s: State) returns (s': State)
    requires Rested(s) && s.queue != []
    ensures IsPath([s, s'], [Pop]) && Inv(s') && s'.making.None?
    ensures s' == s.(consumer := Popped(s.queue[0]), queue := s.queue[1..])
  {
    hide Measured, Inv;
    s' := Step(s, Pop);
    StepKeeps(s, Pop);
  }

  /** The first job of the queue is taken, and runs to its end if it was not cancelled. */
  lemma FirstRuns(s: State) returns (states: seq<State>, labels: seq<Label>)
    requires Rested(s) && s.queue != []
    ensures IsPath(states, labels) && ConsumerOnly(labels) && |labels| <= 3 && states[0] == s
    ensures var s', id := states[|labels|], s.queue[0];
            && Rested(s') && s'.queue == s.queue[1..] && SameQueue(s.(queue := s.queue[1..]), s')
            && id in s.jobs && id in s'.jobs
            && if s.jobs[id] == Queued then s'.jobs[id] == Complete && id in s'.saved && s'.saved[id] == Complete
               else s'.jobs[id] == s.jobs[id]
  {
    hide Inv, Step, Enabled, SameQueue;
    BusyApart(s);
    var s1 := Pops(s);
    var s2 := Marks(s1);
    PathsJoin([s, s1], [Pop], [s1, s2], [Mark(0, true)]);
    states, labels := [s, s1] + [s1, s2][1..], [Pop] + [Mark(0, true)];
    SameFields(s.(queue := s.queue[1..]), s1, s2);
    if s.jobs[s.queue[0]] == Queued {
      var s3 := Finishes(s2);
      SameOn(s.(queue := s.queue[1..]), s2, s3);
      PathsJoin(states, labels, [s2, s3], [Finish(Complete, 0, true)]);
      states, labels := states + [s2, s3][1..], labels + [Finish(Complete, 0, true)];
    }
  }

  lemma SameFields(s: State, s1: State, s2: State)
    requires SameQueue(s1, s2) && s.queue == s1.queue && s.jobs == s1.jobs
    ensures SameQueue(s, s2)
  {
  }

  /** A job that waits in the queue runs to its end after those before it, within three
      events each, if nobody deletes it, whatever the consumer was doing. */
  lemma {:induction false} JobCompletes(s: State, i: nat) returns (states: seq<State>, labels: seq<Label>)
    requires Inv(s) && s.making.None? && i < |s.queue| && s.queue[i] in s.jobs && s.jobs[s.queue[i]] == Queued
    ensures IsPath(states, labels) && ConsumerOnly(labels) && states[0] == s
    ensures |labels| <= 3 * (i + 1) + if s.consumer.Free? then 0 else 2
    ensures var s', id := states[|labels|], s.queue[i];
            && id in s'.jobs && s'.jobs[id] == Complete && id in s'.saved && s'.saved[id] == Complete
            && s'.queue == s.queue[i + 1..]
    decreases i, if s.consumer.Free? then 0 else 1
  {
    hide Inv, Step, Enabled;
    var rest: seq<State>, later: seq<Label>;
    if !s.consumer.Free? {
      states, labels := Rests(s);
      rest, later := JobCompletes(states[|labels|], i);
    } else {
      states, labels := FirstRuns(s);
      if i == 0 {
        return;
      }
      rest, later := JobCompletes(states[|labels|], i - 1);
    }
    PathsJoin(states, labels, rest, later);
    states, labels := states + rest[1..], labels + later;
  }
}
