/**
 Jobs of the demo server as a transition system: admission under the lock, the
 two-slot queue, the single consumer, cancellation, and what lies on the disk.
 */
module JobModel {
  import opened Wrappers

  const QUEUE_SLOTS: nat := 2
  const ALLOWANCE: nat := 160 * 1024 * 1024

  datatype JobState = Queued | Running | Complete | Failed | Cancelled

  predicate Terminal(j: JobState) {
    j.Complete? || j.Failed? || j.Cancelled?
  }

  /** The consumer between receiving an identifier and taking the lock is `Popped`. */
  datatype Consumer = Free | Popped(id: nat) | Busy(id: nat)

  /** `sizes` are the bytes of every job directory, `saved` the state in its job
      file; a directory without an entry has no job file yet.  `making` is the
      directory of the submission that holds the lock, from its making to the end
      of the submission.  `admitted` is history: an admission has succeeded. */
  datatype State = State(
    jobs: map<nat, JobState>,
    queue: seq<nat>,
    consumer: Consumer,
    current: Option<nat>,
    cancelling: bool,
    sizes: map<nat, nat>,
    saved: map<nat, JobState>,
    budget: nat,
    maxJobs: nat,
    making: Option<nat>,
    admitted: bool)

  datatype Label =
    // A submission holds the lock from its guard to its end, but its directory, its
    // input files and its job file come one after the other, and the consumer goes
    // on writing meanwhile.  `measured` is what the walk over the data directory
    // added up; `made`, `saved` and `removed` are file outcomes.
    | Begin(id: nat, measured: nat, made: bool)
    | Fill(size: nat)
    | End(saved: bool, removed: bool)
    | Delete(id: nat, size: nat, saved: bool)
    | Pop
    | Mark(size: nat, saved: bool)
    | Write(size: nat)
    | Finish(outcome: JobState, size: nat, saved: bool)

  /** The guard of a submission: room in the history, in the queue, and in the budget
      for every job that may still write. */
  predicate Admissible(s: State, measured: nat) {
    && |s.jobs| < s.maxJobs
    && |s.queue| < QUEUE_SLOTS
    && measured + (|s.queue| + 2) * ALLOWANCE <= s.budget
  }

  function SaveState(s: State, id: nat, j: JobState, saved: bool): map<nat, JobState> {
    if saved then s.saved[id := j] else s.saved
  }

  function BeginJob(s: State, id: nat, measured: nat, made: bool): State {
    if !Admissible(s, measured) || id in s.sizes || !made then s
    else s.(sizes := s.sizes[id := 0], making := Some(id), admitted := true)
  }

  function EndJob(s: State, saved: bool, removed: bool): State
    requires s.making.Some?
  {
    var id := s.making.value;
    if saved then
      s.(jobs := s.jobs[id := Queued], queue := s.queue + [id], saved := s.saved[id := Queued], making := None)
    else
      s.(sizes := if removed then s.sizes - {id} else s.sizes, making := None)
  }

  function DeleteJob(s: State, id: nat, size: nat, saved: bool): State {
    if id !in s.jobs then s
    else if s.jobs[id].Queued? then
      s.(jobs := s.jobs[id := Cancelled], sizes := s.sizes[id := size], saved := SaveState(s, id, Cancelled, saved))
    else if s.current == Some(id) then s.(cancelling := true)
    else s
  }

  function MarkJob(s: State, size: nat, saved: bool): State
    requires s.consumer.Popped?
  {
    var id := s.consumer.id;
    if id !in s.jobs || !s.jobs[id].Queued? then s.(consumer := Free)
    else
      s.(jobs := s.jobs[id := Running], consumer := Busy(id), current := Some(id), cancelling := false,
         sizes := s.sizes[id := size], saved := SaveState(s, id, Running, saved))
  }

  function FinishJob(s: State, outcome: JobState, size: nat, saved: bool): State
    requires s.consumer.Busy?
  {
    var id := s.consumer.id;
    s.(jobs := s.jobs[id := outcome], consumer := Free, current := None, cancelling := false,
       sizes := s.sizes[id := size], saved := SaveState(s, id, outcome, saved))
  }

  /** A job directory never holds more than its allowance, and grows only by its
      submission and its job.  Whoever needs the lock waits for a submission. */
  ghost predicate Enabled(s: State, e: Label) {
    match e
    case Begin(id, measured, made) => s.making.None? && Measured(s) <= measured
    case Fill(size) => s.making.Some? && size <= ALLOWANCE
    case End(saved, removed) => s.making.Some?
    case Delete(id, size, saved) => s.making.None? && size <= ALLOWANCE
    case Pop => s.consumer.Free? && s.queue != []
    case Mark(size, saved) => s.making.None? && s.consumer.Popped? && size <= ALLOWANCE
    case Write(size) => s.consumer.Busy? && size <= ALLOWANCE
    case Finish(outcome, size, saved) => s.making.None? && s.consumer.Busy? && Terminal(outcome) && size <= ALLOWANCE
  }

  ghost function Step(s: State, e: Label): State
    requires Enabled(s, e)
  {
    match e
    case Begin(id, measured, made) => BeginJob(s, id, measured, made)
    case Fill(size) => s.(sizes := s.sizes[s.making.value := size])
    case End(saved, removed) => EndJob(s, saved, removed)
    case Delete(id, size, saved) => DeleteJob(s, id, size, saved)
    case Pop => s.(consumer := Popped(s.queue[0]), queue := s.queue[1..])
    case Mark(size, saved) => MarkJob(s, size, saved)
    case Write(size) => s.(sizes := s.sizes[s.consumer.id := size])
    case Finish(outcome, size, saved) => FinishJob(s, outcome, size, saved)
  }

  /** A submission or job that may still write into its directory. */
  predicate Active(s: State, id: nat) {
    s.making == Some(id) || (id in s.jobs && (s.jobs[id].Queued? || s.jobs[id].Running?))
  }

  ghost function Sum(m: map<nat, nat>): nat
  {
    if m == map[] then 0
    else
      var k :| k in m;
      m[k] + Sum(m - {k})
  }

  /** What the data directory holds, apart from jobs that are still writing. */
  ghost function Measured(s: State): nat {
    Sum(map id | id in s.sizes :: if Active(s, id) then 0 else s.sizes[id])
  }

  /** What is used, or set aside for jobs that may still write. */
  ghost function Reserved(s: State): nat {
    Sum(map id | id in s.sizes :: if Active(s, id) then ALLOWANCE else s.sizes[id])
  }

  ghost function Used(s: State): nat {
    Sum(s.sizes)
  }

  predicate Init(s: State) {
    && s.queue == [] && s.consumer.Free? && s.current.None? && s.making.None? && !s.admitted
    && (forall id :: id in s.jobs ==> Terminal(s.jobs[id]) && id in s.sizes && id in s.saved)
    && s.saved.Keys <= s.sizes.Keys && !s.cancelling
  }
}
