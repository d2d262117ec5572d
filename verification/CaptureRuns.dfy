/**
 What holds over whole runs of the server: the timestamps committed to a session
 are spaced, a take only receives frames admitted while it was recording, and a
 track that has stopped recording is closed for good.
 */
module CaptureRuns {
  import opened Wrappers
  import opened CaptureModel
  import opened CaptureInvariant
  import opened CaptureStore
  import opened CaptureTracks
  import opened CaptureCommit
  import opened CaptureSteps

  /** A run: any interleaving of handlers, consumer, routes and failures. */
  ghost predicate IsRun(states: seq<State>, events: seq<Event>) {
    && |states| == |events| + 1
    && Init(states[0])
    && forall i | 0 <= i < |events| :: Enabled(states[i], events[i]) && states[i + 1] == Step(states[i], events[i])
  }

  lemma {:induction false} RunInv(states: seq<State>, events: seq<Event>, n: nat)
    requires IsRun(states, events) && n <= |events|
    ensures Inv(states[n])
  {
    hide Inv, Step, Enabled, Init;
    if n == 0 {
      InitInv(states[0]);
    } else {
      RunInv(states, events, n - 1);
      StepKeeps(states[n - 1], events[n - 1]);
    }
  }

  // ----- what one event does to the tracks

  /** Sample lists stand still and nothing starts recording again. */
  ghost predicate SamplesKept(objs: map<nat, Track>, objs': map<nat, Track>) {
    forall t | t in objs :: t in objs' && objs'[t].samples == objs[t].samples && objs'[t].mode == objs[t].mode
                           && (objs[t].phase != Recording ==> objs'[t].phase != Recording)
  }

  /** A pose file of a track outside the table is neither written nor restored. */
  ghost predicate DirsKept(s: Store, s': Store) {
    forall t | t in s.objs && t !in s.dirs :: t !in s'.dirs && forall i :: ((t, i) in s'.poses ==> (t, i) in s.poses && s'.poses[(t, i)] == s.poses[(t, i)])
  }

  lemma FinishShallow(s: Store, session: nat, phase: Phase, saveOk: bool)
    requires session in s.objs && RecordingsAllocated(s) && phase != Recording
    ensures var s' := FinishRecording(s, session, phase, saveOk).0;
            SamplesKept(s.objs, s'.objs) && s'.dirs == s.dirs && s'.poses == s.poses && s'.objs.Keys == s.objs.Keys
  {
  }

  lemma {:induction false} SweepShallow(s: Store, desks: map<nat, Desk>, now: real, order: seq<nat>, saves: seq<bool>)
    requires |order| == |saves| && RecordingsAllocated(s) && StoreInv(s)
    requires forall i | 0 <= i < |order| :: order[i] in s.objs && order[i] in desks
    ensures var s' := Sweep(s, desks, now, order, saves).0;
            SamplesKept(s.objs, s'.objs) && s'.dirs == s.dirs && s'.poses == s.poses && s'.objs.Keys == s.objs.Keys
    decreases |order|
  {
    hide StoreInv;
    if order != [] {
      var t := order[0];
      if Expired(s, desks, t, now) {
        FinishKept(s, t, Interrupted, saves[0]);
        FinishShallow(s, t, Interrupted, saves[0]);
        var (s1, ok) := FinishRecording(s, t, Interrupted, saves[0]);
        hide FinishRecording;
        if ok {
          KeptMode(s.objs, s1.objs, t);
          DropSessionKeeps(s1, t);
          SweepShallow(s1.(tracks := s1.tracks - {t}), desks, now, order[1..], saves[1..]);
        }
      } else {
        SweepShallow(s, desks, now, order[1..], saves[1..]);
      }
    }
  }

  lemma StoreSame(s: Store)
    ensures SamplesKept(s.objs, s.objs) && DirsKept(s, s)
  {
  }

  lemma StopShallow(s: Store, session: nat, saveOk: bool)
    requires RecordingsAllocated(s) && s.tracks <= s.objs.Keys
    ensures var s' := StopTake(s, session, saveOk); SamplesKept(s.objs, s'.objs) && DirsKept(s, s')
  {
    hide FinishRecording;
    if session in s.tracks { FinishShallow(s, session, Complete, saveOk); }
  }

  lemma FinishTrackShallow(s: Store, session: nat, takeSaveOk: bool, saveOk: bool)
    requires RecordingsAllocated(s) && s.tracks <= s.objs.Keys
    ensures var s' := FinishTrack(s, session, takeSaveOk, saveOk).0; SamplesKept(s.objs, s'.objs) && DirsKept(s, s')
  {
    hide FinishRecording;
    if session in s.tracks { FinishShallow(s, session, Complete, takeSaveOk); }
  }

  lemma DeleteShallow(s: Store, desks: map<nat, Desk>, id: nat, removeOk: bool, lost: set<nat>)
    requires s.tracks <= s.objs.Keys <= desks.Keys
    ensures var s' := DeleteTrack(s, desks, id, removeOk, lost); SamplesKept(s.objs, s'.objs) && DirsKept(s, s')
  {
  }

  lemma StartShallow(s: State, session: nat, id: nat, start: real, storageOk: bool, dirOk: bool, saveOk: bool)
    requires s.store.tracks <= s.store.objs.Keys && id !in s.store.objs
    ensures var s' := StartTake(s, session, id, start, storageOk, dirOk, saveOk).0; SamplesKept(s.store.objs, s'.objs) && DirsKept(s.store, s')
  {
  }

  lemma CreateShallow(s: State, id: nat, mode: Mode, hz: real, io: CreateIo)
    requires StoreInv(s.store) && RecordingsAllocated(s.store) && id !in s.store.objs
    requires |io.order| == |io.saves|
    requires forall i | 0 <= i < |io.order| :: io.order[i] in s.store.objs && io.order[i] in s.front.desks
    ensures var s' := CreateTrack(s, id, mode, hz, io).0; SamplesKept(s.store.objs, s'.objs) && DirsKept(s.store, s')
  {
    hide StoreInv, Sweep;
    SweepShallow(s.store, s.front.desks, s.now, io.order, io.saves);
  }

  // ----- what a commit does to the samples

  /** The only track whose sample list a commit of `r` may extend, and how. */
  ghost predicate CommitAdds(objs: map<nat, Track>, objs': map<nat, Track>, r: Request) {
    forall k | k in objs :: k in objs' && objs'[k].mode == objs[k].mode
      && (objs[k].phase != Recording ==> objs'[k].phase != Recording)
      && (objs'[k].samples == objs[k].samples
          || (objs[k].phase == Recording
              && ((k == r.session && objs[k].mode == Offline && objs'[k].samples == objs[k].samples + [r.stamp])
                  || (r.take == Some(k) && objs'[k].samples == objs[k].samples + [r.stamp - objs[k].start]))))
  }

  /** The only sample that can appear is `x` at the end of take `k`. */
  ghost predicate OneMore(objs: map<nat, Track>, objs': map<nat, Track>, k: nat, x: real) {
    forall t | t in objs :: t in objs' && objs'[t].mode == objs[t].mode
      && (objs[t].phase != Recording ==> objs'[t].phase != Recording)
      && (objs'[t].samples == objs[t].samples || (t == k && objs'[t].samples == objs[t].samples + [x]))
  }

  lemma FileShallow(s: Store, t: nat, k: nat, time: real, saveOk: bool)
    requires t in s.objs && k in s.objs && RecordingsAllocated(s) && t != k
    ensures var s' := FileSample(s, t, k, time, saveOk).0;
            OneMore(s.objs, s'.objs, k, time) && s'.dirs == s.dirs && s'.poses == s.poses
  {
    hide FinishRecording;
    FinishShallow(AddSample(s, k, time), t, Complete, saveOk);
  }

  lemma AppendShallow(s: Store, t: nat, k: nat, stamp: real, io: CommitIo)
    requires t in s.objs && k in s.objs && RecordingsAllocated(s) && t != k
    ensures var s' := AppendRecording(s, t, k, stamp, io).0;
            DirsKept(s, s') && OneMore(s.objs, s'.objs, k, stamp - s.objs[k].start)
  {
    hide FinishRecording, FileSample;
    var time := stamp - s.objs[k].start;
    if io.takeStorage == StorageFull {
      FinishShallow(s, t, Interrupted, io.takeSaveOk);
    } else {
      FileShallow(WritePose(s, k, s.objs[k].count, time, io.takePose), t, k, time, io.takeSaveOk);
    }
  }

  lemma OfflineShallow(s: Store, t: nat, stamp: real, io: CommitIo)
    requires t in s.objs
    ensures var s' := CommitOffline(s, t, stamp, io).0;
            && DirsKept(s, s') && s'.objs.Keys == s.objs.Keys
            && (s'.objs == s.objs || s'.objs == s.objs[t := s.objs[t].(samples := s.objs[t].samples + [stamp])])
  {
  }

  lemma CommitShallow(s: Store, r: Request, cancelled: bool, io: CommitIo)
    requires r.session in s.objs && (r.take.Some? ==> r.take.value in s.objs && r.take.value != r.session && s.objs[r.session].mode == Live)
    requires RecordingsAllocated(s)
    ensures var s' := CommitFrame(s, r, cancelled, io).0; DirsKept(s, s') && CommitAdds(s.objs, s'.objs, r)
  {
    hide AppendRecording, CommitOffline;
    if s.objs[r.session].mode == Offline {
      OfflineShallow(s, r.session, r.stamp, io);
    } else if r.take.Some? && s.objs[r.take.value].phase == Recording {
      AppendShallow(s, r.session, r.take.value, r.stamp, io);
    }
  }

  // ----- one event

  lemma RouteShallow(s: State, e: Event)
    requires Inv(s) && Enabled(s, e)
    requires e.Create? || e.Finish? || e.RecordStart? || e.RecordStop? || e.Delete?
    ensures SamplesKept(s.store.objs, Step(s, e).store.objs) && DirsKept(s.store, Step(s, e).store)
  {
    hide FrontInv, LinkInv, StoreInv, SamplesKept, DirsKept, CreateTrack, FinishTrack, StartTake, StopTake, DeleteTrack;
    match e
    case Create(id, mode, hz, io) => CreateShallow(s, id, mode, hz, io);
    case Finish(session, takeSaveOk, saveOk) => FinishTrackShallow(s.store, session, takeSaveOk, saveOk);
    case RecordStart(session, id, start, storageOk, dirOk, saveOk) => StartShallow(s, session, id, start, storageOk, dirOk, saveOk);
    case RecordStop(session, saveOk) => StopShallow(s.store, session, saveOk);
    case Delete(id, removeOk, lost) => DeleteShallow(s.store, s.front.desks, id, removeOk, lost);
  }

  lemma StoreUntouched(s: State, e: Event)
    requires Enabled(s, e)
    requires !e.Create? && !e.Finish? && !e.RecordStart? && !e.RecordStop? && !e.Delete? && !e.Commit?
    ensures Step(s, e).store == s.store
  {
  }

  lemma CommitEventAdds(s: State, io: CommitIo)
    requires s.front.worker.Running? && Inv(s) && Enabled(s, Commit(io))
    ensures DirsKept(s.store, Step(s, Commit(io)).store)
    ensures CommitAdds(s.store.objs, Step(s, Commit(io)).store.objs, s.front.worker.req)
  {
    hide FrontInv, LinkInv, StoreInv, DirsKept, CommitAdds, CommitFrame;
    RunningFacts(s);
    var r := s.front.worker.req;
    if r.take.Some? { assert TakeOk(s.store.objs, r); }
    CommitShallow(s.store, r, s.front.handlers[r.handler].cancelled, io);
  }

  /** The track that an event may add a sample to, and the sample. */
  lemma EventAdds(s: State, e: Event)
    requires Inv(s) && Enabled(s, e)
    ensures DirsKept(s.store, Step(s, e).store)
    ensures SamplesKept(s.store.objs, Step(s, e).store.objs)
            || (e.Commit? && s.front.worker.Running? && CommitAdds(s.store.objs, Step(s, e).store.objs, s.front.worker.req))
  {
    CommitRuns(s, e);
    hide Inv, Step, Enabled, SamplesKept, DirsKept, CommitAdds;
    if e.Create? || e.Finish? || e.RecordStart? || e.RecordStop? || e.Delete? {
      RouteShallow(s, e);
    } else if e.Commit? {
      CommitEventAdds(s, e.io);
    } else {
      StoreUntouched(s, e);
      StoreSame(s.store);
    }
  }

  lemma CommitRuns(s: State, e: Event)
    requires Enabled(s, e)
    ensures e.Commit? ==> s.front.worker.Running?
  {
  }

  lemma RouteClock(s: State, e: Event)
    requires Inv(s) && Enabled(s, e)
    requires e.Create? || e.Finish? || e.RecordStart? || e.RecordStop? || e.Delete?
    ensures SessionsKept(s.store.objs, Step(s, e).store.objs)
  {
    hide FrontInv, LinkInv, StoreInv, SessionsKept, CreateTrack, FinishTrack, StartTake, StopTake, DeleteTrack;
    match e
    case Create(id, mode, hz, io) => CreateKeeps(s, id, mode, hz, io);
    case Finish(session, takeSaveOk, saveOk) => FinishTrackKeeps(s.store, session, takeSaveOk, saveOk);
    case RecordStart(session, id, start, storageOk, dirOk, saveOk) => StartKeeps(s, session, id, start, storageOk, dirOk, saveOk);
    case RecordStop(session, saveOk) => StopKeeps(s.store, session, saveOk);
    case Delete(id, removeOk, lost) => DeleteKeeps(s.store, s.front.desks, id, removeOk, lost); KeptSame(s.store.objs);
  }

  lemma CommitEventClock(s: State, io: CommitIo)
    requires s.front.worker.Running? && Inv(s) && Enabled(s, Commit(io))
    ensures SessionsKept(s.store.objs, Step(s, Commit(io)).store.objs)
            || Advanced(s.store.objs, Step(s, Commit(io)).store.objs, s.front.worker.req.session, s.front.worker.req.stamp)
  {
    hide FrontInv, LinkInv, StoreInv, SessionsKept, Advanced, CommitFrame;
    RunningFacts(s);
    CommitStoreKeeps(s.store, s.front.worker.req, s.front.handlers[s.front.worker.req.handler].cancelled, io);
  }

  /** The session clocks an event may move: only that of the request being committed. */
  lemma EventClock(s: State, e: Event)
    requires Inv(s) && Enabled(s, e)
    ensures SessionsKept(s.store.objs, Step(s, e).store.objs)
            || (e.Commit? && s.front.worker.Running?
                && Advanced(s.store.objs, Step(s, e).store.objs, s.front.worker.req.session, s.front.worker.req.stamp))
  {
    CommitRuns(s, e);
    hide Inv, Step, Enabled, SessionsKept, Advanced;
    if e.Create? || e.Finish? || e.RecordStart? || e.RecordStop? || e.Delete? {
      RouteClock(s, e);
    } else if e.Commit? {
      CommitEventClock(s, e.io);
    } else {
      StoreUntouched(s, e);
      KeptSame(s.store.objs);
    }
  }
}
