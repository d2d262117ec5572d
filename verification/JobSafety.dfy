/**
 What every step of the job protocol keeps: one running job, no job twice in the
 queue, final states final, and the storage budget.
 */
module JobSafety {
  import opened Wrappers
  import opened JobModel
  import Sets

  /** Not started yet, perhaps cancelled while waiting. */
  predicate Waiting(j: JobState) {
    j.Queued? || j.Cancelled?
  }

  predicate QueueInv(s: State) {
    && |s.queue| <= QUEUE_SLOTS
    && (forall i :: 0 <= i < |s.queue| ==> s.queue[i] in s.jobs && Waiting(s.jobs[s.queue[i]]))
    && (forall i, j :: 0 <= i < j < |s.queue| ==> s.queue[i] != s.queue[j])
    && forall id :: id in s.jobs && s.jobs[id].Queued? ==> id in s.queue || s.consumer == Popped(id)
  }

  predicate ConsumerInv(s: State) {
    && (s.current == match s.consumer case Busy(id) => Some(id) case _ => None)
    && (s.cancelling ==> s.consumer.Busy?)
    && (s.consumer.Popped? ==> s.consumer.id !in s.queue && s.consumer.id in s.jobs && Waiting(s.jobs[s.consumer.id]))
    && (s.consumer.Busy? ==> s.consumer.id in s.jobs && s.jobs[s.consumer.id].Running?)
    && forall id :: id in s.jobs && s.jobs[id].Running? ==> s.consumer == Busy(id)
  }

  predicate DiskInv(s: State) {
    && s.jobs.Keys <= s.saved.Keys <= s.sizes.Keys
    && forall id :: id in s.sizes && Active(s, id) ==> s.sizes[id] <= ALLOWANCE
  }

  /** A submission under way has a directory, no job, and a place in the queue. */
  predicate MakingInv(s: State) {
    s.making.Some? ==>
      s.making.value in s.sizes && s.making.value !in s.saved && s.making.value !in s.jobs && |s.queue| < QUEUE_SLOTS
  }

  predicate Inv(s: State) {
    QueueInv(s) && ConsumerInv(s) && DiskInv(s) && MakingInv(s)
  }

  lemma InitInv(s: State)
    requires Init(s)
    ensures Inv(s)
  {
  }

  predicate Submits(e: Label) {
    e.Begin? || e.Fill? || e.End?
  }

  lemma SubmitQueue(s: State, e: Label)
    requires Inv(s) && Enabled(s, e) && Submits(e)
    ensures QueueInv(Step(s, e))
  {
    hide Measured, ConsumerInv;
    assert forall i :: 0 <= i < |s.queue| ==> s.queue[i] in s.jobs;
  }

  lemma SubmitDisk(s: State, e: Label)
    requires Inv(s) && Enabled(s, e) && Submits(e)
    ensures DiskInv(Step(s, e)) && MakingInv(Step(s, e))
  {
    hide Measured, ConsumerInv, QueueInv;
  }

  lemma SubmitKeeps(s: State, e: Label)
    requires Inv(s) && Enabled(s, e) && Submits(e)
    ensures Inv(Step(s, e))
  {
    hide Measured, QueueInv, DiskInv;
    SubmitQueue(s, e);
    SubmitDisk(s, e);
  }

  lemma DeleteQueue(s: State, e: Label)
    requires Inv(s) && Enabled(s, e) && e.Delete?
    ensures QueueInv(Step(s, e))
  {
    hide Measured, Sum, DiskInv;
  }

  lemma DeleteKeeps(s: State, e: Label)
    requires Inv(s) && Enabled(s, e) && e.Delete?
    ensures Inv(Step(s, e))
  {
    hide Measured, Sum, QueueInv;
    DeleteQueue(s, e);
  }

  lemma ConsumeQueue(s: State, e: Label)
    requires Inv(s) && Enabled(s, e) && (e.Mark? || e.Write? || e.Finish?)
    ensures QueueInv(Step(s, e))
  {
    hide Measured, Sum, DiskInv;
  }

  lemma ConsumeDisk(s: State, e: Label)
    requires Inv(s) && Enabled(s, e) && (e.Mark? || e.Write? || e.Finish?)
    ensures DiskInv(Step(s, e))
  {
    hide Measured, Sum, QueueInv;
  }

  lemma ConsumeKeeps(s: State, e: Label)
    requires Inv(s) && Enabled(s, e) && (e.Mark? || e.Write? || e.Finish?)
    ensures Inv(Step(s, e))
  {
    hide Measured, Sum, QueueInv, DiskInv;
    ConsumeQueue(s, e);
    ConsumeDisk(s, e);
  }

  lemma PopKeeps(s: State)
    requires Inv(s) && Enabled(s, Pop)
    ensures Inv(Step(s, Pop))
  {
    var t := Step(s, Pop);
    assert s.queue == [s.queue[0]] + t.queue;
    forall id | id in s.jobs && s.jobs[id].Queued? ensures id in t.queue || t.consumer == Popped(id) {
      assert id in s.queue;
    }
  }

  lemma StepKeeps(s: State, e: Label)
    requires Inv(s) && Enabled(s, e)
    ensures Inv(Step(s, e))
  {
    hide Inv, Enabled, Step;
    match e {
      case Begin(_, _, _) => SubmitKeeps(s, e);
      case Fill(_) => SubmitKeeps(s, e);
      case End(_, _) => SubmitKeeps(s, e);
      case Delete(_, _, _) => DeleteKeeps(s, e);
      case Pop => PopKeeps(s);
      case _ => ConsumeKeeps(s, e);
    }
  }

  /** The moves a job may make in one step. */
  predicate Moves(before: JobState, after: JobState) {
    || after == before
    || (before.Queued? && (after.Running? || after.Cancelled?))
    || (before.Running? && Terminal(after))
  }

  /** Jobs only move forward: queued, then running or cancelled, then finished; a
      finished job never changes, no job disappears, and a new one is queued. */
  lemma JobsMoveForward(s: State, e: Label, id: nat)
    requires Inv(s) && Enabled(s, e)
    ensures id in s.jobs ==> id in Step(s, e).jobs && Moves(s.jobs[id], Step(s, e).jobs[id])
    ensures id !in s.jobs && id in Step(s, e).jobs ==> Step(s, e).jobs[id].Queued? && id in Step(s, e).queue
  {
    hide Measured, QueueInv;
  }

  /** At most one job runs, and it is the current one, which a cancellation reaches. */
  lemma OneRunning(s: State, id: nat)
    requires Inv(s)
    ensures id in s.jobs && s.jobs[id].Running? <==> s.current == Some(id)
    ensures s.current == Some(id) ==> DeleteJob(s, id, 0, true).cancelling
  {
  }

  // Sums over maps.

  lemma {:induction false} SumRemove(m: map<nat, nat>, k: nat)
    requires k in m
    ensures Sum(m) == m[k] + Sum(m - {k})
    decreases |m|
  {
    var j :| j in m && Sum(m) == m[j] + Sum(m - {j});
    if j != k {
      SumRemove(m - {j}, k);
      SumRemove(m - {k}, j);
      assert m - {j} - {k} == m - {k} - {j};
    }
  }

  lemma SumUpdate(m: map<nat, nat>, k: nat, v: nat)
    ensures Sum(m[k := v]) == v + Sum(m - {k})
  {
    SumRemove(m[k := v], k);
    assert m[k := v] - {k} == m - {k};
  }

  lemma {:induction false} SumFewer(m: map<nat, nat>, n: map<nat, nat>)
    requires m.Keys <= n.Keys && forall k :: k in m ==> m[k] <= n[k]
    ensures Sum(m) <= Sum(n)
    decreases |m|
  {
    if m == map[] {
      assert Sum(m) == 0;
    } else {
      var k :| k in m;
      SumFewer(m - {k}, n - {k});
      SumRemove(m, k);
      SumRemove(n, k);
    }
  }

  ghost function Weights(s: State): map<nat, nat> {
    map id | id in s.sizes :: if Active(s, id) then ALLOWANCE else s.sizes[id]
  }

  ghost function Bare(s: State): map<nat, nat> {
    map id | id in s.sizes :: if Active(s, id) then 0 else s.sizes[id]
  }

  lemma Totals(s: State)
    ensures Reserved(s) == Sum(Weights(s)) && Measured(s) == Sum(Bare(s))
  {
  }

  /** What the directories hold never exceeds what is reserved. */
  lemma UsedReserved(s: State)
    requires Inv(s)
    ensures Used(s) <= Reserved(s)
  {
    Totals(s);
    SumFewer(s.sizes, Weights(s));
  }

  lemma {:induction false} SumExtra(m: map<nat, nat>, n: map<nat, nat>, a: set<nat>)
    requires m.Keys == n.Keys && a <= m.Keys
    requires forall k :: k in m ==> n[k] == m[k] + if k in a then ALLOWANCE else 0
    ensures Sum(n) == Sum(m) + |a| * ALLOWANCE
    decreases |m|
  {
    if m == map[] {
      assert n == map[];
    } else {
      var k :| k in m;
      SumExtra(m - {k}, n - {k}, a - {k});
      SumRemove(m, k);
      SumRemove(n, k);
    }
  }

  ghost function QueueSet(q: seq<nat>): set<nat> {
    set i | 0 <= i < |q| :: q[i]
  }

  lemma {:induction false} QueueSetSmall(q: seq<nat>)
    ensures |QueueSet(q)| <= |q|
  {
    if q != [] {
      var init := q[..|q| - 1];
      QueueSetSmall(init);
      assert QueueSet(q) == QueueSet(init) + {q[|q| - 1]};
    } else {
      assert QueueSet(q) == {};
    }
  }

  ghost function Actives(s: State): set<nat> {
    set id | id in s.sizes && Active(s, id)
  }

  function Held(c: Consumer): (ids: set<nat>)
    ensures |ids| <= 1
  {
    match c case Free => {} case Popped(id) => {id} case Busy(id) => {id}
  }

  function Made(making: Option<nat>): (ids: set<nat>)
    ensures |ids| == if making.Some? then 1 else 0
  {
    if making.Some? then {making.value} else {}
  }

  lemma UnionSize(a: set<nat>, b: set<nat>)
    ensures |a + b| <= |a| + |b|
  {
    assert a + b == a + (b - a);
    Sets.SubsetSize(b - a, b);
  }

  lemma ActivesFew(s: State)
    requires QueueInv(s) && ConsumerInv(s)
    ensures |Actives(s)| <= |s.queue| + 1 + |Made(s.making)|
  {
    hide Sum;
    var q, held, made := QueueSet(s.queue), Held(s.consumer), Made(s.making);
    Sets.SubsetSize(Actives(s), q + held + made);
    QueueSetSmall(s.queue);
    UnionSize(q, held);
    UnionSize(q + held, made);
  }

  /** No more jobs may still write than wait in the queue, and one more: the one
      that the consumer runs, or has received and not marked yet; and the submission
      under way, if there is one. */
  lemma ActiveBounded(s: State)
    requires Inv(s)
    ensures Reserved(s) <= Measured(s) + (|s.queue| + 1 + if s.making.Some? then 1 else 0) * ALLOWANCE
  {
    hide Sum, Inv, Reserved, Measured;
    Totals(s);
    SumExtra(Bare(s), Weights(s), Actives(s));
    Parts(s);
    ActivesFew(s);
  }

  lemma Parts(s: State)
    requires Inv(s)
    ensures QueueInv(s) && ConsumerInv(s) && DiskInv(s)
  {
  }

  lemma SumAdd(m: map<nat, nat>, k: nat, v: nat)
    requires k !in m
    ensures Sum(m[k := v]) == Sum(m) + v
  {
    SumUpdate(m, k, v);
    assert m - {k} == m;
  }

  lemma BeginShape(s: State, e: Label)
    requires Enabled(s, e) && e.Begin? && Step(s, e) != s
    ensures Admissible(s, e.measured) && e.id !in s.sizes && s.making.None?
    ensures Step(s, e) == s.(sizes := s.sizes[e.id := 0], making := Some(e.id), admitted := true)
  {
    hide Measured, Admissible;
  }

  // An admission adds one directory, with a whole allowance set aside for it.
  lemma BeginWeights(s: State, e: Label)
    requires Enabled(s, e) && e.Begin? && Step(s, e) != s
    ensures Weights(Step(s, e)) == Weights(s)[e.id := ALLOWANCE]
  {
    hide Enabled, Step, Measured, Sum, Admissible;
    BeginShape(s, e);
  }

  lemma BeginReserves(s: State, e: Label)
    requires Enabled(s, e) && e.Begin? && Step(s, e) != s
    ensures Reserved(Step(s, e)) == Reserved(s) + ALLOWANCE
  {
    hide Reserved, Sum, Step, Weights, Enabled;
    Totals(s);
    Totals(Step(s, e));
    BeginShape(s, e);
    BeginWeights(s, e);
    KeysOf(s);
    SumAdd(Weights(s), e.id, ALLOWANCE);
  }

  lemma Room(s: State, measured: nat)
    requires Admissible(s, measured)
    ensures measured + (|s.queue| + 1) * ALLOWANCE + ALLOWANCE <= s.budget
  {
  }

  /** The guard of a submission leaves room for everything that may still be written. */
  lemma BeginWithinBudget(s: State, e: Label)
    requires Inv(s) && Enabled(s, e) && e.Begin? && Step(s, e) != s
    ensures Reserved(Step(s, e)) <= s.budget && Step(s, e).budget == s.budget
  {
    BeginMeasured(s, e);
    hide Measured, Reserved, Inv, Step, Enabled, Admissible;
    BeginShape(s, e);
    BeginReserves(s, e);
    ActiveBounded(s);
    Room(s, e.measured);
  }

  lemma BeginMeasured(s: State, e: Label)
    requires Enabled(s, e) && e.Begin?
    ensures Measured(s) <= e.measured
  {
    hide Measured;
  }

  lemma KeysOf(s: State)
    ensures Weights(s).Keys == s.sizes.Keys
  {
  }

  /** No other event sets more aside; a submission that removes its directory, less. */
  lemma OthersLighter(s: State, e: Label)
    requires Inv(s) && Enabled(s, e) && !Submits(e)
    ensures Weights(Step(s, e)).Keys == Weights(s).Keys
    ensures forall id :: id in Weights(s) ==> Weights(Step(s, e))[id] <= Weights(s)[id]
    ensures Step(s, e).budget == s.budget && Step(s, e).admitted == s.admitted
  {
    hide Measured, Sum, QueueInv;
  }

  lemma SubmitLighter(s: State, e: Label)
    requires Inv(s) && Enabled(s, e) && (e.Fill? || e.End?)
    ensures Weights(Step(s, e)).Keys <= Weights(s).Keys
    ensures forall id :: id in Weights(Step(s, e)) ==> Weights(Step(s, e))[id] <= Weights(s)[id]
    ensures Step(s, e).budget == s.budget && Step(s, e).admitted == s.admitted
  {
    hide Measured, Sum, QueueInv, ConsumerInv;
  }

  lemma OthersWithin(s: State, e: Label)
    requires Inv(s) && Enabled(s, e) && !e.Begin?
    ensures Reserved(Step(s, e)) <= Reserved(s)
    ensures Step(s, e).budget == s.budget && Step(s, e).admitted == s.admitted
  {
    hide Measured, Reserved, Sum, Inv, Step, Weights, Bare;
    Totals(s);
    Totals(Step(s, e));
    if Submits(e) {
      SubmitLighter(s, e);
    } else {
      OthersLighter(s, e);
    }
    SumFewer(Weights(Step(s, e)), Weights(s));
  }

  /** From the first admission on, everything stored and everything set aside for
      jobs that may still write stays within the budget. */
  predicate WithinBudget(s: State, reserved: nat) {
    s.admitted ==> reserved <= s.budget
  }

  lemma BudgetKept(s: State, e: Label)
    requires Inv(s) && Enabled(s, e) && WithinBudget(s, Reserved(s))
    ensures WithinBudget(Step(s, e), Reserved(Step(s, e)))
  {
    if e.Begin? {
      if Step(s, e) != s {
        BeginWithinBudget(s, e);
      }
    } else {
      OthersWithin(s, e);
    }
  }

  // Whole runs.

  ghost predicate IsRun(states: seq<State>, labels: seq<Label>) {
    && |states| == |labels| + 1 && Init(states[0])
    && forall i :: 0 <= i < |labels| ==> Enabled(states[i], labels[i]) && states[i + 1] == Step(states[i], labels[i])
  }

  /** Over every run, from the first admission on, storage stays within the budget. */
  lemma {:induction false} RunWithinBudget(states: seq<State>, labels: seq<Label>, i: nat)
    requires IsRun(states, labels) && i < |states|
    ensures Inv(states[i])
    ensures states[i].admitted ==> Used(states[i]) <= Reserved(states[i]) <= states[i].budget
  {
    hide Inv, Step, Enabled, Reserved, Used;
    if i == 0 {
      InitInv(states[0]);
    } else {
      RunWithinBudget(states, labels, i - 1);
      assert Enabled(states[i - 1], labels[i - 1]);
      StepKeeps(states[i - 1], labels[i - 1]);
      BudgetKept(states[i - 1], labels[i - 1]);
      UsedReserved(states[i]);
    }
  }

  /** Over every run, a job that has finished stays as it is. */
  lemma {:induction false} FinishedForGood(states: seq<State>, labels: seq<Label>, i: nat, j: nat, id: nat)
    requires IsRun(states, labels) && i <= j < |states|
    requires id in states[i].jobs && Terminal(states[i].jobs[id])
    ensures id in states[j].jobs && states[j].jobs[id] == states[i].jobs[id]
    decreases j
  {
    hide Inv, Step, Enabled;
    if i < j {
      FinishedForGood(states, labels, i, j - 1, id);
      RunWithinBudget(states, labels, j - 1);
      assert Enabled(states[j - 1], labels[j - 1]);
      JobsMoveForward(states[j - 1], labels[j - 1], id);
    }
  }
}
