/**
 Replies over the life of a handler: how often its request is enqueued, and how often
 the consumer answers it.
 */
module CaptureReplies {
  import opened CaptureModel
  import opened CaptureInvariant
  import opened CaptureRuns

  /** The request of handler `h` enters the channel. */
  predicate Enqueues(s: State, e: Event, h: nat) {
    e.Enqueue? && e.h == h && s.front.frames.None?
  }

  /** The consumer answers the request of handler `h`. */
  predicate Answers(s: State, e: Event, h: nat) {
    e.Respond? && InWorker(s.front.worker, h)
  }

  function Enqueued(states: seq<State>, events: seq<Event>, h: nat, i: nat, n: nat): nat
    requires i <= n <= |events| < |states|
  {
    if n == i then 0 else
    Enqueued(states, events, h, i, n - 1) + if Enqueues(states[n - 1], events[n - 1], h) then 1 else 0
  }

  function Answered(states: seq<State>, events: seq<Event>, h: nat, i: nat, n: nat): nat
    requires i <= n <= |events| < |states|
  {
    if n == i then 0 else
    Answered(states, events, h, i, n - 1) + if Answers(states[n - 1], events[n - 1], h) then 1 else 0
  }

  /** The request has been in the channel. */
  predicate Past(x: Handler) {
    x.stage == Sent || x.stage == Waiting || x.stage == Replied
  }

  /** The reply is in the mailbox or was taken from it. */
  predicate Served(x: Handler) {
    x.mailbox.Some? || x.stage == Replied
  }

  lemma PlaceHolds(s: State, h: nat)
    requires Inv(s) && h in s.front.handlers
    ensures PlaceOk(s.front.frames, s.front.worker, h, s.front.handlers[h])
  {
    hide StoreInv, LinkInv, TokenOk, DesksOk;
  }

  /** An event of another handler or a route leaves a handler's place alone. */
  lemma HandlerStands(s: State, e: Event, h: nat)
    requires Enabled(s, e) && h in s.front.handlers
    requires e.Tick? || e.WorkerStart? || e.Create? || e.Finish? || e.RecordStart? || e.RecordStop? || e.Delete? || e.Rename?
             || e.AcquireOther? || e.ReleaseOther? || e.SubmitJob? || e.Dequeue? || e.FrameFail? || e.Commit? || e.PopJob? || e.JobDone?
    ensures var f := Step(s, e).front;
            && h in f.handlers && f.handlers[h].stage == s.front.handlers[h].stage
            && f.handlers[h].mailbox == s.front.handlers[h].mailbox
  {
    hide CreateTrack, FinishTrack, StartTake, StopTake, DeleteTrack, CommitFrame;
  }

  /** A handler that stays gains from event `e` the mark that `e` counts for it; one
      that ends has both marks or neither. */
  predicate Marked(s: State, e: Event, s': State, h: nat)
    requires h in s.front.handlers
  {
    var x, f := s.front.handlers[h], s'.front;
    && (Served(x) ==> Past(x))
    && if h in f.handlers then
         && (Served(f.handlers[h]) ==> Past(f.handlers[h]))
         && (Past(f.handlers[h]) <==> Past(x) || Enqueues(s, e, h)) && !(Past(x) && Enqueues(s, e, h))
         && (Served(f.handlers[h]) <==> Served(x) || Answers(s, e, h)) && !(Served(x) && Answers(s, e, h))
       else
         !Enqueues(s, e, h) && !Answers(s, e, h) && (Past(x) <==> Served(x))
  }

  predicate Steers(e: Event) {
    e.BadRequest? || e.ReadFail? || e.Enqueue? || e.ReleaseToken? || e.Cancel? || e.Receive? || e.Cleanup? || e.Leave?
  }

  lemma EndStep(s: State, e: Event, h: nat)
    requires Enabled(s, e) && h in s.front.handlers && (e.Cleanup? || e.Leave?) && e.h == h
    requires PlaceOk(s.front.frames, s.front.worker, h, s.front.handlers[h])
    ensures Marked(s, e, Step(s, e), h)
  {
    hide RecordingsAllocated;
  }

  lemma OwnStep(s: State, e: Event, h: nat)
    requires Enabled(s, e) && h in s.front.handlers && Steers(e) && !e.Cleanup? && !e.Leave? && e.h == h
    requires PlaceOk(s.front.frames, s.front.worker, h, s.front.handlers[h])
    ensures Marked(s, e, Step(s, e), h)
  {
    hide RecordingsAllocated;
  }

  lemma CleanupOther(f: Front, x: nat, h: nat)
    requires x in f.handlers && f.handlers[x].req.session in f.desks && f.desks[f.handlers[x].req.session].inflight > 0
    requires h in f.handlers && h != x
    ensures var g := CleanupFrame(f, x); h in g.handlers && g.handlers[h] == f.handlers[h]
  {
  }

  lemma OtherStep(s: State, e: Event, h: nat)
    requires Enabled(s, e) && h in s.front.handlers && (Steers(e) || e.Arrive?) && e.h != h
    ensures var f := Step(s, e).front; h in f.handlers && f.handlers[h] == s.front.handlers[h]
  {
    hide RecordingsAllocated, CleanupFrame;
    if e.Cleanup? { CleanupOther(s.front, e.h, h); }
  }

  lemma AdmitStep(s: State, e: Event, h: nat)
    requires Enabled(s, e) && h in s.front.handlers && e.Admit?
    requires PlaceOk(s.front.frames, s.front.worker, h, s.front.handlers[h])
    ensures Marked(s, e, Step(s, e), h)
  {
    hide Admissible, AdmittedTake, RecordingsAllocated;
  }

  lemma RespondStep(s: State, h: nat)
    requires Enabled(s, Respond) && h in s.front.handlers
    requires PlaceOk(s.front.frames, s.front.worker, h, s.front.handlers[h])
    ensures Marked(s, Respond, Step(s, Respond), h)
  {
    hide RecordingsAllocated;
  }

  lemma Unmarked(s: State, e: Event, s': State, h: nat)
    requires h in s.front.handlers && PlaceOk(s.front.frames, s.front.worker, h, s.front.handlers[h])
    requires !e.Respond? && !(e.Enqueue? && e.h == h)
    requires h in s'.front.handlers && s'.front.handlers[h].stage == s.front.handlers[h].stage
    requires s'.front.handlers[h].mailbox == s.front.handlers[h].mailbox
    ensures Marked(s, e, s', h)
  {
  }

  lemma ArrivesNew(s: State, e: Event, h: nat)
    requires Enabled(s, e) && h in s.front.handlers && e.Arrive?
    ensures e.h != h
  {
  }

  lemma HandlerStep(s: State, e: Event, h: nat)
    requires Enabled(s, e) && h in s.front.handlers
    requires PlaceOk(s.front.frames, s.front.worker, h, s.front.handlers[h])
    ensures Marked(s, e, Step(s, e), h)
  {
    hide Enabled, Step, Marked, PlaceOk;
    if e.Respond? {
      RespondStep(s, h);
    } else if e.Admit? {
      AdmitStep(s, e, h);
    } else if e.Arrive? {
      ArrivesNew(s, e, h);
      OtherStep(s, e, h);
      Unmarked(s, e, Step(s, e), h);
    } else if !Steers(e) {
      HandlerStands(s, e, h);
      Unmarked(s, e, Step(s, e), h);
    } else if e.h == h && (e.Cleanup? || e.Leave?) {
      EndStep(s, e, h);
    } else if e.h == h {
      OwnStep(s, e, h);
    } else {
      OtherStep(s, e, h);
      Unmarked(s, e, Step(s, e), h);
    }
  }

  lemma Arrived(s: State, e: Event)
    requires Enabled(s, e) && e.Arrive?
    ensures var f := Step(s, e).front; e.h in f.handlers && !Past(f.handlers[e.h]) && !Served(f.handlers[e.h])
    ensures !Enqueues(s, e, e.h) && !Answers(s, e, e.h)
  {
  }

  lemma LastStep(states: seq<State>, events: seq<Event>, n: nat)
    requires IsRun(states, events) && 0 < n <= |events|
    ensures |states| == |events| + 1
    ensures Enabled(states[n - 1], events[n - 1]) && states[n] == Step(states[n - 1], events[n - 1])
  {
    hide Enabled, Step, Init;
  }

  lemma CountsNext(states: seq<State>, events: seq<Event>, h: nat, i: nat, n: nat)
    requires i < n <= |events| < |states|
    ensures Enqueued(states, events, h, i, i) == Answered(states, events, h, i, i) == 0
    ensures Enqueued(states, events, h, i, n)
            == Enqueued(states, events, h, i, n - 1) + if Enqueues(states[n - 1], events[n - 1], h) then 1 else 0
    ensures Answered(states, events, h, i, n)
            == Answered(states, events, h, i, n - 1) + if Answers(states[n - 1], events[n - 1], h) then 1 else 0
  {
    hide Enqueues, Answers;
  }

  /** The counts of a life so far are those its stage and its mailbox tell. */
  lemma {:induction false} LifeCounts(states: seq<State>, events: seq<Event>, i: nat, n: nat, h: nat)
    requires IsRun(states, events) && i < n <= |events| && events[i].Arrive? && events[i].h == h
    requires forall m | i < m <= n :: h in states[m].front.handlers
    ensures Enqueued(states, events, h, i, n) == if Past(states[n].front.handlers[h]) then 1 else 0
    ensures Answered(states, events, h, i, n) == if Served(states[n].front.handlers[h]) then 1 else 0
    decreases n
  {
    hide Step, Enabled, Init, Inv, Past, Served, Enqueues, Answers, PlaceOk, Enqueued, Answered;
    var last := n - 1;
    LastStep(states, events, n);
    CountsNext(states, events, h, i, n);
    if last == i {
      Arrived(states[i], events[i]);
    } else {
      LifeCounts(states, events, i, last, h);
      RunInv(states, events, last);
      PlaceHolds(states[last], h);
      HandlerStep(states[last], events[last], h);
    }
  }

  lemma EndCounts(s: State, e: Event, s': State, h: nat, enqueued: nat, answered: nat)
    requires h in s.front.handlers && Marked(s, e, s', h)
    requires enqueued == (if Past(s.front.handlers[h]) then 1 else 0) && answered == (if Served(s.front.handlers[h]) then 1 else 0)
    ensures answered + (if Answers(s, e, h) then 1 else 0) <= enqueued + (if Enqueues(s, e, h) then 1 else 0) <= 1
    ensures h !in s'.front.handlers ==> answered + (if Answers(s, e, h) then 1 else 0) == enqueued + (if Enqueues(s, e, h) then 1 else 0)
  {
    hide Past, Served, Enqueues, Answers;
  }

  /** Over the life of a handler, from its arrival to its end, its request is enqueued
      at most once and never answered more often than that; when the handler has ended
      it was answered exactly as often as it was enqueued. */
  lemma AnsweredAsEnqueued(states: seq<State>, events: seq<Event>, i: nat, n: nat, h: nat)
    requires IsRun(states, events) && i < n <= |events| && events[i].Arrive? && events[i].h == h
    requires forall m | i < m < n :: h in states[m].front.handlers
    ensures Answered(states, events, h, i, n) <= Enqueued(states, events, h, i, n) <= 1
    ensures h !in states[n].front.handlers ==> Answered(states, events, h, i, n) == Enqueued(states, events, h, i, n)
  {
    hide Step, Enabled, Init, Inv, Past, Served, Enqueues, Answers, PlaceOk, Marked, Enqueued, Answered, IsRun;
    var last := n - 1;
    LastStep(states, events, n);
    CountsNext(states, events, h, i, n);
    if last == i {
      Arrived(states[i], events[i]);
    } else {
      LifeCounts(states, events, i, last, h);
      RunInv(states, events, last);
      PlaceHolds(states[last], h);
      HandlerStep(states[last], events[last], h);
      EndCounts(states[last], events[last], states[n], h, Enqueued(states, events, h, i, last), Answered(states, events, h, i, last));
    }
  }

  lemma {:induction false} CountsSplit(states: seq<State>, events: seq<Event>, h: nat, i: nat, j: nat, n: nat)
    requires i <= j <= n <= |events| < |states|
    ensures Enqueued(states, events, h, i, n) == Enqueued(states, events, h, i, j) + Enqueued(states, events, h, j, n)
    ensures Answered(states, events, h, i, n) == Answered(states, events, h, i, j) + Answered(states, events, h, j, n)
    decreases n
  {
    hide Enqueues, Answers;
    if j < n {
      CountsSplit(states, events, h, i, j, n - 1);
    }
  }

  /** Between the enqueue of a handler's request and the handler's end there is exactly
      one reply to it, and there is none before. */
  lemma OneReply(states: seq<State>, events: seq<Event>, i: nat, j: nat, n: nat, h: nat)
    requires IsRun(states, events) && i < j < n <= |events| && events[i].Arrive? && events[i].h == h
    requires forall m | i < m < n :: h in states[m].front.handlers
    requires h !in states[n].front.handlers && Enqueues(states[j], events[j], h)
    ensures Answered(states, events, h, i, j) == 0 && Answered(states, events, h, j, n) == 1
  {
    hide IsRun, Enqueued, Answered, Enqueues, Answers;
    assert |states| == |events| + 1 by { LastStep(states, events, n); }
    var next := j + 1;
    AnsweredAsEnqueued(states, events, i, j, h);
    AnsweredAsEnqueued(states, events, i, n, h);
    CountsNext(states, events, h, i, next);
    CountsSplit(states, events, h, i, next, n);
    CountsSplit(states, events, h, i, j, n);
  }
}
