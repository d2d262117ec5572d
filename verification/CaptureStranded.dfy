/**
 Sessions whose take can no longer be saved, because its directory is gone: how
 they come about, that they stay for good, and exactly which creations they block.
 */
module CaptureStranded {
  import opened Wrappers
  import opened CaptureModel
  import opened CaptureInvariant
  import opened CaptureStore
  import opened CaptureTracks
  import opened CaptureSteps
  import opened CaptureRuns
  import CaptureProgress

  // ----- one session

  /** Session `t` still points to take `k`, whose directory has been deleted. */
  predicate Stranded(s: Store, t: nat, k: nat) {
    Attached(s.objs, t, k) && k in s.objs && s.objs[k].mode != Live && k !in s.dirs
  }

  /** A session's take can be finished exactly if its directory still exists. */
  lemma FinishPossible(s: Store, t: nat, phase: Phase)
    requires StoreInv(s) && RecordingsAllocated(s) && t in s.objs
    ensures (exists saveOk :: FinishRecording(s, t, phase, saveOk).1)
            <==> (s.objs[t].recording.Some? ==> s.objs[t].recording.value in s.dirs)
  {
    if s.objs[t].recording.Some? {
      FinishShape(s, t, phase, true);
      FinishShape(s, t, phase, false);
    }
    assert FinishRecording(s, t, phase, true).1 || FinishRecording(s, t, phase, false).1
           <==> exists saveOk :: FinishRecording(s, t, phase, saveOk).1;
  }

  /** A failed save on stop, followed by deleting the take, strands the session. */
  lemma StopThenDeleteStrands(s: Store, desks: map<nat, Desk>, t: nat, k: nat)
    requires StoreInv(s) && RecordingsAllocated(s) && s.objs.Keys <= desks.Keys && Attached(s.objs, t, k)
    requires k in desks && !desks[k].busy && k in s.tracks
    ensures s.tracks <= s.objs.Keys
    ensures var s1 := StopTake(s, t, false);
            && s1.tracks <= s1.objs.Keys <= desks.Keys
            && Stranded(DeleteTrack(s1, desks, k, true, {}), t, k)
  {
    assert AttachedOk(s.objs, s.tracks, t);
    FinishShape(s, t, Complete, false);
    hide StoreInv;
  }

  // ----- stranded for good

  lemma StrandedFinish(s: Store, t: nat, k: nat, x: nat, phase: Phase, saveOk: bool)
    requires Stranded(s, t, k) && RecordingsAllocated(s) && x in s.objs && x != k
    ensures var (s', ok) := FinishRecording(s, x, phase, saveOk);
            Stranded(s', t, k) && s'.tracks == s.tracks && s'.dirs == s.dirs && (x == t ==> !ok)
  {
  }

  /** The take of a session is not itself a session with a take. */
  lemma TakeApart(s: Store, t: nat, k: nat)
    requires StoreInv(s) && Stranded(s, t, k)
    ensures s.objs[k].mode == Take && s.objs[k].recording.None? && t != k && s.objs[t].mode == Live && t in s.tracks
    ensures s.objs[k].phase != Recording
  {
    assert AttachedOk(s.objs, s.tracks, t);
    assert TrackOk(s.objs[k], k in s.tracks, k in s.dirs);
  }

  lemma {:induction false} StrandedSweep(s: Store, desks: map<nat, Desk>, now: real, order: seq<nat>, saves: seq<bool>, t: nat, k: nat)
    requires |order| == |saves| && RecordingsAllocated(s) && StoreInv(s) && Stranded(s, t, k)
    requires forall i | 0 <= i < |order| :: order[i] in s.objs && order[i] in desks
    ensures Stranded(Sweep(s, desks, now, order, saves).0, t, k)
    decreases |order|
  {
    hide StoreInv;
    if order != [] {
      var x := order[0];
      if Expired(s, desks, x, now) {
        TakeApart(s, t, k);
        FinishKept(s, x, Interrupted, saves[0]);
        StrandedFinish(s, t, k, x, Interrupted, saves[0]);
        var (s1, ok) := FinishRecording(s, x, Interrupted, saves[0]);
        if ok {
          KeptMode(s.objs, s1.objs, x);
          DropSessionKeeps(s1, x);
          StrandedSweep(s1.(tracks := s1.tracks - {x}), desks, now, order[1..], saves[1..], t, k);
        }
      } else {
        StrandedSweep(s, desks, now, order[1..], saves[1..], t, k);
      }
    }
  }

  lemma StrandedCreate(s: State, id: nat, mode: Mode, hz: real, io: CreateIo, t: nat, k: nat)
    requires Inv(s) && Enabled(s, Create(id, mode, hz, io)) && Stranded(s.store, t, k)
    ensures Stranded(Step(s, Create(id, mode, hz, io)).store, t, k)
  {
    hide FrontInv, LinkInv, StoreInv, Sweep;
    StrandedSweep(s.store, s.front.desks, s.now, io.order, io.saves, t, k);
    SweepShallow(s.store, s.front.desks, s.now, io.order, io.saves);
  }

  lemma StrandedFinishTrack(s: Store, session: nat, takeSaveOk: bool, saveOk: bool, t: nat, k: nat)
    requires Stranded(s, t, k) && RecordingsAllocated(s) && s.tracks <= s.objs.Keys && s.objs[k].mode == Take && t != k
    ensures Stranded(FinishTrack(s, session, takeSaveOk, saveOk).0, t, k)
  {
    hide FinishRecording;
    if session in s.tracks && s.objs[session].mode != Take {
      StrandedFinish(s, t, k, session, Complete, takeSaveOk);
    }
  }

  lemma StrandedStop(s: Store, session: nat, saveOk: bool, t: nat, k: nat)
    requires Stranded(s, t, k) && RecordingsAllocated(s) && s.tracks <= s.objs.Keys && s.objs[k].recording.None?
    ensures Stranded(StopTake(s, session, saveOk), t, k)
  {
    hide FinishRecording;
    if session in s.tracks && session != k {
      StrandedFinish(s, t, k, session, Complete, saveOk);
    }
  }

  lemma StrandedStart(s: State, session: nat, id: nat, start: real, storageOk: bool, dirOk: bool, saveOk: bool, t: nat, k: nat)
    requires Stranded(s.store, t, k) && s.store.tracks <= s.store.objs.Keys && id !in s.store.objs && s.store.objs[k].mode == Take
    ensures Stranded(StartTake(s, session, id, start, storageOk, dirOk, saveOk).0, t, k)
  {
  }

  lemma StrandedRoute(s: State, e: Event, t: nat, k: nat)
    requires Inv(s) && Enabled(s, e) && Stranded(s.store, t, k)
    requires e.Finish? || e.RecordStart? || e.RecordStop? || e.Delete?
    ensures Stranded(Step(s, e).store, t, k)
  {
    TakeApart(s.store, t, k);
    hide FrontInv, LinkInv, StoreInv, FinishTrack, StopTake, StartTake;
    match e
    case Finish(session, takeSaveOk, saveOk) => StrandedFinishTrack(s.store, session, takeSaveOk, saveOk, t, k);
    case RecordStop(session, saveOk) => StrandedStop(s.store, session, saveOk, t, k);
    case RecordStart(session, id, start, storageOk, dirOk, saveOk) => StrandedStart(s, session, id, start, storageOk, dirOk, saveOk, t, k);
    case Delete(_, _, _) =>
  }

  lemma StrandedFile(s: Store, x: nat, j: nat, time: real, saveOk: bool, t: nat, k: nat)
    requires Stranded(s, t, k) && RecordingsAllocated(s) && x in s.objs && j in s.objs && x != k && j != k && j != x
    requires j != t
    ensures Stranded(FileSample(s, x, j, time, saveOk).0, t, k)
  {
    hide FinishRecording;
    StrandedFinish(AddSample(s, j, time), t, k, x, Complete, saveOk);
  }

  lemma StrandedAppend(s: Store, x: nat, j: nat, stamp: real, io: CommitIo, t: nat, k: nat)
    requires Stranded(s, t, k) && RecordingsAllocated(s) && x in s.objs && j in s.objs && x != k && j != k && j != x && j != t
    ensures Stranded(AppendRecording(s, x, j, stamp, io).0, t, k)
  {
    hide FinishRecording, FileSample;
    var time := stamp - s.objs[j].start;
    StrandedFinish(s, t, k, x, Interrupted, io.takeSaveOk);
    StrandedFile(WritePose(s, j, s.objs[j].count, time, io.takePose), x, j, time, io.takeSaveOk, t, k);
  }

  lemma StrandedTick(s: Store, x: nat, stamp: real, t: nat, k: nat)
    requires Stranded(s, t, k) && x in s.objs
    ensures Stranded(s.(objs := s.objs[x := s.objs[x].(count := s.objs[x].count + 1, lastTime := stamp)]), t, k)
  {
  }

  lemma StrandedOffline(s: Store, x: nat, stamp: real, io: CommitIo, t: nat, k: nat)
    requires Stranded(s, t, k) && x in s.objs
    ensures Stranded(CommitOffline(s, x, stamp, io).0, t, k) && x in CommitOffline(s, x, stamp, io).0.objs
  {
  }

  lemma StrandedCommit(s: Store, r: Request, cancelled: bool, io: CommitIo, t: nat, k: nat)
    requires Stranded(s, t, k) && RecordingsAllocated(s) && StoreInv(s) && RequestOk(s.objs, r)
    ensures Stranded(CommitFrame(s, r, cancelled, io).0, t, k)
  {
    TakeApart(s, t, k);
    hide StoreInv, AppendRecording, CommitOffline, RecordingsAllocated;
    var x := r.session;
    StrandedTick(s, x, r.stamp, t, k);
    if s.objs[x].mode == Offline {
      StrandedOffline(s, x, r.stamp, io, t, k);
      StrandedTick(CommitOffline(s, x, r.stamp, io).0, x, r.stamp, t, k);
    } else if r.take.Some? && s.objs[r.take.value].phase == Recording {
      StrandedAppend(s, x, r.take.value, r.stamp, io, t, k);
      AppendHolds(s, x, r.take.value, r.stamp, io);
      StrandedTick(AppendRecording(s, x, r.take.value, r.stamp, io).0, x, r.stamp, t, k);
    }
  }

  lemma AppendHolds(s: Store, x: nat, j: nat, stamp: real, io: CommitIo)
    requires x in s.objs && j in s.objs && RecordingsAllocated(s) && j != x
    ensures x in AppendRecording(s, x, j, stamp, io).0.objs
  {
    hide DirsKept, AppendRecording;
    AppendShallow(s, x, j, stamp, io);
  }

  lemma StrandedCommitEvent(s: State, io: CommitIo, t: nat, k: nat)
    requires s.front.worker.Running? && Inv(s) && Enabled(s, Commit(io)) && Stranded(s.store, t, k)
    ensures Stranded(Step(s, Commit(io)).store, t, k)
  {
    hide FrontInv, LinkInv, StoreInv, CommitFrame;
    RunningFacts(s);
    StrandedCommit(s.store, s.front.worker.req, s.front.handlers[s.front.worker.req.handler].cancelled, io, t, k);
  }

  lemma StrandedStep(s: State, e: Event, t: nat, k: nat)
    requires Inv(s) && Enabled(s, e) && Stranded(s.store, t, k)
    ensures Stranded(Step(s, e).store, t, k)
  {
    CommitRuns(s, e);
    hide Inv, Step, Enabled, Stranded;
    if e.Create? {
      StrandedCreate(s, e.id, e.mode, e.hz, e.createIo, t, k);
    } else if e.Finish? || e.RecordStart? || e.RecordStop? || e.Delete? {
      StrandedRoute(s, e, t, k);
    } else if e.Commit? {
      StrandedCommitEvent(s, e.io, t, k);
    } else {
      StoreUntouched(s, e);
    }
  }

  // ----- how a session becomes stranded

  /** Nothing becomes the take of a session that was there before, no directory is
      removed, and a new track that is saved has one. */
  ghost predicate OwnersStay(s: Store, s': Store) {
    && s.dirs <= s'.dirs
    && (forall k | k in s.objs :: k in s'.objs && s'.objs[k].mode == s.objs[k].mode)
    && (forall k | k in s'.objs && k !in s.objs :: s'.objs[k].mode == Live || k in s'.dirs)
    && forall t, k | Attached(s'.objs, t, k) && k in s.objs :: Attached(s.objs, t, k)
  }

  lemma StaySame(s: Store)
    ensures OwnersStay(s, s)
  {
  }

  lemma StayTwice(a: Store, b: Store, c: Store)
    requires OwnersStay(a, b) && OwnersStay(b, c)
    ensures OwnersStay(a, c)
  {
    forall t, k | Attached(c.objs, t, k) && k in a.objs ensures Attached(a.objs, t, k) {
      assert Attached(b.objs, t, k);
    }
  }

  lemma FinishStay(s: Store, t: nat, phase: Phase, saveOk: bool)
    requires t in s.objs && RecordingsAllocated(s)
    ensures OwnersStay(s, FinishRecording(s, t, phase, saveOk).0)
  {
    if s.objs[t].recording.None? {
      StaySame(s);
    } else {
      var k := s.objs[t].recording.value;
      var ended := s.objs[k := s.objs[k].(phase := phase)];
      UpdateStay(s, k, ended[k]);
      UpdateStay(s.(objs := ended), t, ended[t].(recording := None));
      StayTwice(s, s.(objs := ended), s.(objs := ended[t := ended[t].(recording := None)]));
    }
    hide OwnersStay;
  }

  /** Changing a track that gains no take. */
  lemma UpdateStay(s: Store, t: nat, o: Track)
    requires t in s.objs && o.mode == s.objs[t].mode && (o.recording.None? || o.recording == s.objs[t].recording)
    ensures OwnersStay(s, s.(objs := s.objs[t := o]))
  {
  }

  lemma DropStay(s: Store, tracks: set<nat>)
    ensures OwnersStay(s, s.(tracks := tracks))
  {
  }

  lemma {:induction false} SweepStay(s: Store, desks: map<nat, Desk>, now: real, order: seq<nat>, saves: seq<bool>)
    requires |order| == |saves| && RecordingsAllocated(s) && StoreInv(s)
    requires forall i | 0 <= i < |order| :: order[i] in s.objs && order[i] in desks
    ensures OwnersStay(s, Sweep(s, desks, now, order, saves).0)
    decreases |order|
  {
    hide StoreInv, OwnersStay, FinishRecording;
    StaySame(s);
    if order != [] {
      var x := order[0];
      if Expired(s, desks, x, now) {
        FinishKept(s, x, Interrupted, saves[0]);
        FinishStay(s, x, Interrupted, saves[0]);
        var (s1, ok) := FinishRecording(s, x, Interrupted, saves[0]);
        if ok {
          KeptMode(s.objs, s1.objs, x);
          DropSessionKeeps(s1, x);
          var s2 := s1.(tracks := s1.tracks - {x});
          DropStay(s1, s2.tracks);
          SweepStay(s2, desks, now, order[1..], saves[1..]);
          StayTwice(s, s1, s2);
          StayTwice(s, s2, Sweep(s2, desks, now, order[1..], saves[1..]).0);
        }
      } else {
        SweepStay(s, desks, now, order[1..], saves[1..]);
      }
    }
  }

  lemma AddStay(s: Store, id: nat, t: Track)
    requires id !in s.objs && t.recording.None?
    ensures OwnersStay(s, AddTrack(s, id, t))
  {
  }

  lemma CreateStay(s: State, id: nat, mode: Mode, hz: real, io: CreateIo)
    requires Inv(s) && Enabled(s, Create(id, mode, hz, io))
    ensures OwnersStay(s.store, Step(s, Create(id, mode, hz, io)).store)
  {
    hide FrontInv, LinkInv, StoreInv, Sweep, OwnersStay, AddTrack;
    StaySame(s.store);
    SweepStay(s.store, s.front.desks, s.now, io.order, io.saves);
    SweepShallow(s.store, s.front.desks, s.now, io.order, io.saves);
    var s1 := Sweep(s.store, s.front.desks, s.now, io.order, io.saves).0;
    AddStay(s1, id, NewTrack(mode, hz, 0.0));
    StayTwice(s.store, s1, AddTrack(s1, id, NewTrack(mode, hz, 0.0)));
  }

  lemma FinishTrackStay(s: Store, session: nat, takeSaveOk: bool, saveOk: bool)
    requires RecordingsAllocated(s) && s.tracks <= s.objs.Keys
    ensures OwnersStay(s, FinishTrack(s, session, takeSaveOk, saveOk).0)
  {
    hide FinishRecording;
    if session in s.tracks { FinishStay(s, session, Complete, takeSaveOk); }
  }

  lemma StopStay(s: Store, session: nat, saveOk: bool)
    requires RecordingsAllocated(s) && s.tracks <= s.objs.Keys
    ensures OwnersStay(s, StopTake(s, session, saveOk))
  {
    hide FinishRecording;
    if session in s.tracks { FinishStay(s, session, Complete, saveOk); }
  }

  lemma StartStay(s: State, session: nat, id: nat, start: real, storageOk: bool, dirOk: bool, saveOk: bool)
    requires s.store.tracks <= s.store.objs.Keys && id !in s.store.objs
    ensures OwnersStay(s.store, StartTake(s, session, id, start, storageOk, dirOk, saveOk).0)
  {
  }

  lemma FileStay(s: Store, t: nat, k: nat, time: real, saveOk: bool)
    requires t in s.objs && k in s.objs && RecordingsAllocated(s)
    ensures OwnersStay(s, FileSample(s, t, k, time, saveOk).0)
  {
    hide FinishRecording, OwnersStay;
    var s1 := AddSample(s, k, time);
    UpdateStay(s, k, s1.objs[k]);
    FinishStay(s1, t, Complete, saveOk);
    var s2 := FinishRecording(s1, t, Complete, saveOk).0;
    StayTwice(s, s1, s2);
    DirtyStay(s, s1, {k});
    DirtyStay(s, s2, {k});
  }

  lemma DirtyStay(s: Store, s': Store, dirty: set<nat>)
    requires OwnersStay(s, s')
    ensures OwnersStay(s, s'.(dirty := s'.dirty + dirty))
  {
  }

  lemma WriteStay(s: Store, k: nat, index: nat, time: real, outcome: PoseWrite)
    ensures OwnersStay(s, WritePose(s, k, index, time, outcome))
    ensures WritePose(s, k, index, time, outcome).objs == s.objs
  {
  }

  lemma AppendStay(s: Store, t: nat, k: nat, stamp: real, io: CommitIo)
    requires t in s.objs && k in s.objs && RecordingsAllocated(s)
    ensures OwnersStay(s, AppendRecording(s, t, k, stamp, io).0)
  {
    hide FinishRecording, FileSample, WritePose, OwnersStay;
    var time := stamp - s.objs[k].start;
    var s1 := WritePose(s, k, s.objs[k].count, time, io.takePose);
    StaySame(s);
    FinishStay(s, t, Interrupted, io.takeSaveOk);
    WriteStay(s, k, s.objs[k].count, time, io.takePose);
    FileStay(s1, t, k, time, io.takeSaveOk);
    StayTwice(s, s1, FileSample(s1, t, k, time, io.takeSaveOk).0);
  }

  lemma TickStay(s: Store, s1: Store, t: nat, stamp: real)
    requires OwnersStay(s, s1) && t in s1.objs
    ensures OwnersStay(s, s1.(objs := s1.objs[t := s1.objs[t].(count := s1.objs[t].count + 1, lastTime := stamp)]))
  {
    hide OwnersStay;
    var o := s1.objs[t].(count := s1.objs[t].count + 1, lastTime := stamp);
    UpdateStay(s1, t, o);
    StayTwice(s, s1, s1.(objs := s1.objs[t := o]));
  }

  lemma CommitStay(s: Store, r: Request, cancelled: bool, io: CommitIo)
    requires RecordingsAllocated(s) && RequestOk(s.objs, r)
    ensures OwnersStay(s, CommitFrame(s, r, cancelled, io).0)
  {
    hide AppendRecording, CommitOffline, OwnersStay, RecordingsAllocated;
    var t := r.session;
    StaySame(s);
    TickStay(s, s, t, r.stamp);
    if s.objs[t].mode == Offline {
      OfflineStay(s, t, r.stamp, io);
      TickStay(s, CommitOffline(s, t, r.stamp, io).0, t, r.stamp);
    } else if r.take.Some? && s.objs[r.take.value].phase == Recording {
      AppendStay(s, t, r.take.value, r.stamp, io);
      var s2 := AppendRecording(s, t, r.take.value, r.stamp, io).0;
      StayIn(s, s2, t);
      TickStay(s, s2, t, r.stamp);
    }
  }

  lemma StayIn(s: Store, s': Store, t: nat)
    requires OwnersStay(s, s') && t in s.objs
    ensures t in s'.objs
  {
  }

  lemma OfflineStay(s: Store, t: nat, stamp: real, io: CommitIo)
    requires t in s.objs
    ensures OwnersStay(s, CommitOffline(s, t, stamp, io).0) && t in CommitOffline(s, t, stamp, io).0.objs
  {
  }

  lemma CommitEventStay(s: State, io: CommitIo)
    requires s.front.worker.Running? && Inv(s) && Enabled(s, Commit(io))
    ensures OwnersStay(s.store, Step(s, Commit(io)).store)
  {
    hide FrontInv, LinkInv, StoreInv, OwnersStay, CommitFrame;
    RunningFacts(s);
    CommitStay(s.store, s.front.worker.req, s.front.handlers[s.front.worker.req.handler].cancelled, io);
  }

  lemma RouteStay(s: State, e: Event)
    requires Inv(s) && Enabled(s, e) && (e.Finish? || e.RecordStart? || e.RecordStop?)
    ensures OwnersStay(s.store, Step(s, e).store)
  {
    hide Inv, OwnersStay, FinishTrack, StopTake, StartTake;
    match e
    case Finish(session, takeSaveOk, saveOk) => FinishTrackStay(s.store, session, takeSaveOk, saveOk);
    case RecordStop(session, saveOk) => StopStay(s.store, session, saveOk);
    case RecordStart(session, id, start, storageOk, dirOk, saveOk) => StartStay(s, session, id, start, storageOk, dirOk, saveOk);
  }

  lemma OthersStay(s: State, e: Event)
    requires Inv(s) && Enabled(s, e) && !e.Delete?
    ensures OwnersStay(s.store, Step(s, e).store)
  {
    CommitRuns(s, e);
    hide Inv, Step, Enabled, OwnersStay;
    if e.Create? {
      CreateStay(s, e.id, e.mode, e.hz, e.createIo);
    } else if e.Finish? || e.RecordStart? || e.RecordStop? {
      RouteStay(s, e);
    } else if e.Commit? {
      CommitEventStay(s, e.io);
    } else {
      StoreUntouched(s, e);
      StaySame(s.store);
    }
  }

  /** Event `e` deletes take `k`, which session `t` still holds. */
  predicate DeletesHeldTake(s: State, e: Event, t: nat, k: nat) {
    && e.Delete? && e.removeOk && e.id == k && k in s.store.tracks && k in s.store.objs && k in s.front.desks
    && Attached(s.store.objs, t, k) && s.store.objs[k].mode != Live && s.store.objs[k].phase != Recording && !s.front.desks[k].busy
  }

  lemma DeleteStrands(s: State, e: Event, t: nat, k: nat)
    requires Inv(s) && Enabled(s, e) && e.Delete?
    ensures Stranded(Step(s, e).store, t, k) <==> Stranded(s.store, t, k) || DeletesHeldTake(s, e, t, k)
  {
    hide FrontInv, LinkInv, RecordingOk, FilesOk, SamplesOk;
    if k in s.store.objs { assert TrackOk(s.store.objs[k], k in s.store.tracks, k in s.store.dirs); }
  }

  /** A session becomes stranded exactly when the take it still holds is deleted. */
  lemma StrandedCause(s: State, e: Event, t: nat, k: nat)
    requires Inv(s) && Enabled(s, e)
    ensures Stranded(Step(s, e).store, t, k) <==> Stranded(s.store, t, k) || DeletesHeldTake(s, e, t, k)
  {
    if e.Delete? {
      DeleteStrands(s, e, t, k);
    } else {
      OthersStay(s, e);
      if Stranded(s.store, t, k) { StrandedStep(s, e, t, k); }
    }
    hide Inv, Step, Enabled;
  }

  // ----- whole runs

  lemma {:induction false} StrandedStays(states: seq<State>, events: seq<Event>, i: nat, j: nat, t: nat, k: nat)
    requires IsRun(states, events) && i <= j <= |events| && Stranded(states[i].store, t, k)
    ensures Stranded(states[j].store, t, k)
    decreases j
  {
    hide Inv, Step, Enabled, Init, Stranded;
    if i < j {
      StrandedStays(states, events, i, j - 1, t, k);
      RunInv(states, events, j - 1);
      StrandedStep(states[j - 1], events[j - 1], t, k);
    }
  }

  /** A session that is stranded at some point of a run is stranded ever after: it
      stays in the table, and no finish ever ends it, whatever the saves do. */
  lemma StrandedForGood(states: seq<State>, events: seq<Event>, i: nat, j: nat, t: nat, k: nat)
    requires IsRun(states, events) && i <= j <= |events| && Stranded(states[i].store, t, k)
    ensures Stranded(states[j].store, t, k) && t in states[j].store.tracks
    ensures RecordingsAllocated(states[j].store) && states[j].store.tracks <= states[j].store.objs.Keys
    ensures forall takeSaveOk, saveOk :: !FinishTrack(states[j].store, t, takeSaveOk, saveOk).1
  {
    hide Inv, Init, Step, Enabled, Stranded, FinishTrack, RecordingsAllocated;
    StrandedStays(states, events, i, j, t, k);
    RunInv(states, events, j);
    CaptureProgress.GuardsHold(states[j]);
    StrandedUnfinished(states[j], t, k);
  }

  lemma StrandedUnfinished(s: State, t: nat, k: nat)
    requires Inv(s) && RecordingsAllocated(s.store) && s.store.tracks <= s.store.objs.Keys && Stranded(s.store, t, k)
    ensures t in s.store.tracks
    ensures forall takeSaveOk, saveOk :: !FinishTrack(s.store, t, takeSaveOk, saveOk).1
  {
    TakeApart(s.store, t, k);
    hide FrontInv, LinkInv, StoreInv;
  }

  /** A session is stranded exactly if its take was deleted while it held it. */
  lemma {:induction false} StrandedHistory(states: seq<State>, events: seq<Event>, n: nat, t: nat, k: nat)
    requires IsRun(states, events) && n <= |events|
    ensures Stranded(states[n].store, t, k) <==> exists i | 0 <= i < n :: DeletesHeldTake(states[i], events[i], t, k)
  {
    hide Inv, Step, Enabled, DeletesHeldTake;
    if n > 0 {
      hide Init, Stranded;
      StrandedHistory(states, events, n - 1, t, k);
      RunInv(states, events, n - 1);
      StrandedCause(states[n - 1], events[n - 1], t, k);
    } else {
      NobodyStranded(states[0], t, k);
    }
  }

  lemma NobodyStranded(s: State, t: nat, k: nat)
    requires Init(s)
    ensures !Stranded(s.store, t, k)
  {
    if t in s.store.objs { assert LoadedOk(s.store, t); }
  }

  // ----- the sweep

  /** Ending the take of `t`, if it has one, would succeed. */
  predicate TakeSaves(s: Store, t: nat, saveOk: bool)
    requires t in s.objs
  {
    s.objs[t].recording.Some? ==> saveOk && s.objs[t].recording.value in s.dirs
  }

  /** Ending the take of `x` changes nothing that the sweep asks about another session. */
  predicate SweepView(s: Store, s': Store, y: nat) {
    y in s.objs && y in s'.objs && s'.objs[y].mode == s.objs[y].mode && s'.objs[y].recording == s.objs[y].recording
  }

  lemma FinishView(s: Store, x: nat, y: nat, saveOk: bool)
    requires StoreInv(s) && RecordingsAllocated(s) && x in s.objs && y in s.objs && x != y
    ensures SweepView(s, FinishRecording(s, x, Interrupted, saveOk).0, y)
    ensures FinishRecording(s, x, Interrupted, saveOk).1 <==> TakeSaves(s, x, saveOk)
    ensures FinishRecording(s, x, Interrupted, saveOk).0.dirs == s.dirs
  {
    if s.objs[x].recording.Some? { FinishShape(s, x, Interrupted, saveOk); }
    hide StoreInv;
  }

  lemma FinishAlone(s: Store, x: nat, saveOk: bool)
    requires StoreInv(s) && RecordingsAllocated(s) && x in s.objs
    ensures FinishRecording(s, x, Interrupted, saveOk).1 <==> TakeSaves(s, x, saveOk)
    ensures FinishRecording(s, x, Interrupted, saveOk).0.dirs == s.dirs
  {
    if s.objs[x].recording.Some? { FinishShape(s, x, Interrupted, saveOk); }
    hide StoreInv;
  }

  predicate Distinct(order: seq<nat>) {
    forall i, j | 0 <= i < j < |order| :: order[i] != order[j]
  }

  ghost predicate AllSave(s: Store, desks: map<nat, Desk>, now: real, order: seq<nat>, saves: seq<bool>)
    requires |order| == |saves|
    requires forall i | 0 <= i < |order| :: order[i] in s.objs && order[i] in desks
  {
    forall i | 0 <= i < |order| && Expired(s, desks, order[i], now) :: TakeSaves(s, order[i], saves[i])
  }

  lemma AllSaveView(s: Store, s': Store, desks: map<nat, Desk>, now: real, order: seq<nat>, saves: seq<bool>)
    requires |order| == |saves| && s'.dirs == s.dirs
    requires forall i | 0 <= i < |order| :: order[i] in desks && order[i] in s.objs && order[i] in s'.objs && SweepView(s, s', order[i])
    ensures AllSave(s', desks, now, order, saves) <==> AllSave(s, desks, now, order, saves)
  {
    forall i | 0 <= i < |order|
      ensures Expired(s', desks, order[i], now) == Expired(s, desks, order[i], now)
      ensures TakeSaves(s', order[i], saves[i]) == TakeSaves(s, order[i], saves[i])
    {
      assert SweepView(s, s', order[i]);
    }
  }

  lemma AllSaveHead(s: Store, desks: map<nat, Desk>, now: real, order: seq<nat>, saves: seq<bool>)
    requires |order| == |saves| > 0
    requires forall i | 0 <= i < |order| :: order[i] in s.objs && order[i] in desks
    ensures AllSave(s, desks, now, order, saves)
            <==> (Expired(s, desks, order[0], now) ==> TakeSaves(s, order[0], saves[0])) && AllSave(s, desks, now, order[1..], saves[1..])
  {
    hide Expired, TakeSaves;
    if AllSave(s, desks, now, order[1..], saves[1..]) {
      forall i | 1 <= i < |order| && Expired(s, desks, order[i], now) ensures TakeSaves(s, order[i], saves[i]) {
        assert order[i] == order[1..][i - 1] && saves[i] == saves[1..][i - 1];
      }
    }
  }

  /** The sweep gets through exactly if the take of every expired session can be saved. */
  lemma {:induction false} SweepPasses(s: Store, desks: map<nat, Desk>, now: real, order: seq<nat>, saves: seq<bool>)
    requires |order| == |saves| && RecordingsAllocated(s) && StoreInv(s) && Distinct(order)
    requires forall i | 0 <= i < |order| :: order[i] in s.objs && order[i] in desks
    ensures Sweep(s, desks, now, order, saves).1 <==> AllSave(s, desks, now, order, saves)
    decreases |order|
  {
    hide StoreInv, AllSave, TakeSaves, FinishRecording;
    if order == [] {
      assert AllSave(s, desks, now, order, saves) by { NothingToSave(s, desks, now, order, saves); }
    } else {
      var x := order[0];
      AllSaveHead(s, desks, now, order, saves);
      if Expired(s, desks, x, now) {
        FinishKept(s, x, Interrupted, saves[0]);
        FinishAlone(s, x, saves[0]);
        var (s1, ok) := FinishRecording(s, x, Interrupted, saves[0]);
        if ok {
          KeptMode(s.objs, s1.objs, x);
          DropSessionKeeps(s1, x);
          var s2 := s1.(tracks := s1.tracks - {x});
          forall i | 0 <= i < |order[1..]| ensures SweepView(s, s2, order[1..][i]) {
            FinishView(s, x, order[i + 1], saves[0]);
          }
          AllSaveView(s, s2, desks, now, order[1..], saves[1..]);
          SweepPasses(s2, desks, now, order[1..], saves[1..]);
        }
      } else {
        SweepPasses(s, desks, now, order[1..], saves[1..]);
      }
    }
  }

  lemma NothingToSave(s: Store, desks: map<nat, Desk>, now: real, order: seq<nat>, saves: seq<bool>)
    requires |order| == |saves| == 0
    ensures AllSave(s, desks, now, order, saves)
  {
  }

  /** The sessions that a sweep over the whole table removes. */
  function ExpiredIn(s: Store, desks: map<nat, Desk>, now: real, order: seq<nat>): set<nat> {
    set t | t in order && t in s.objs && t in desks && Expired(s, desks, t, now)
  }

  lemma {:induction false} SweepRemoves(s: Store, desks: map<nat, Desk>, now: real, order: seq<nat>, saves: seq<bool>)
    requires |order| == |saves| && RecordingsAllocated(s) && StoreInv(s)
    requires forall i | 0 <= i < |order| :: order[i] in s.objs && order[i] in desks
    requires Sweep(s, desks, now, order, saves).1
    ensures var s' := Sweep(s, desks, now, order, saves).0;
            s'.tracks == s.tracks - ExpiredIn(s, desks, now, order) && s'.objs.Keys == s.objs.Keys
            && forall t | t in s.objs :: s'.objs[t].mode == s.objs[t].mode
    decreases |order|
  {
    hide StoreInv, FinishRecording;
    if order != [] {
      var x := order[0];
      if Expired(s, desks, x, now) {
        FinishKept(s, x, Interrupted, saves[0]);
        var s1 := FinishRecording(s, x, Interrupted, saves[0]).0;
        KeptModes(s.objs, s1.objs);
        DropSessionKeeps(s1, x);
        hide SessionsKept;
        var s2 := s1.(tracks := s1.tracks - {x});
        SweepRemoves(s2, desks, now, order[1..], saves[1..]);
        ExpiredHead(s, s2, desks, now, order);
      } else {
        SweepRemoves(s, desks, now, order[1..], saves[1..]);
        ExpiredHead(s, s, desks, now, order);
      }
    }
  }

  lemma KeptModes(objs: map<nat, Track>, objs': map<nat, Track>)
    requires SessionsKept(objs, objs')
    ensures forall t | t in objs :: t in objs' && objs'[t].mode == objs[t].mode
  {
  }

  lemma ExpiredHead(s: Store, s': Store, desks: map<nat, Desk>, now: real, order: seq<nat>)
    requires order != [] && order[0] in s.objs && order[0] in desks
    requires s'.objs.Keys == s.objs.Keys && forall t | t in s.objs :: s'.objs[t].mode == s.objs[t].mode
    ensures ExpiredIn(s, desks, now, order)
            == ExpiredIn(s', desks, now, order[1..]) + if Expired(s, desks, order[0], now) then {order[0]} else {}
  {
    assert order == [order[0]] + order[1..];
  }

  // ----- creating a session

  /** The sessions of the table that are older than the minute the sweep allows. */
  function Abandoned(s: State): set<nat> {
    ExpiredOf(s.store, s.front.desks, s.now)
  }

  function ExpiredOf(s: Store, desks: map<nat, Desk>, now: real): set<nat> {
    set t | t in s.tracks && t in s.objs && t in desks && Expired(s, desks, t, now)
  }

  predicate RoomFor(s: State, mode: Mode) {
    && |LiveIn(s.store) - Abandoned(s)| < MAX_LIVE_SESSIONS
    && (mode == Offline ==> |SavedIn(s.store)| < s.maxJobs)
  }

  lemma SweptSets(s: Store, s': Store, gone: set<nat>)
    requires s'.tracks == s.tracks - gone && s'.objs.Keys == s.objs.Keys
    requires forall t | t in s.objs :: s'.objs[t].mode == s.objs[t].mode
    requires forall t | t in gone && t in s.objs :: s.objs[t].mode == Live
    ensures LiveIn(s') == LiveIn(s) - gone && SavedIn(s') == SavedIn(s)
  {
  }

  lemma WholeTable(s: Store, desks: map<nat, Desk>, now: real, order: seq<nat>)
    requires forall i | 0 <= i < |order| :: order[i] in s.tracks
    requires forall t | t in s.tracks :: t in order
    ensures ExpiredIn(s, desks, now, order) == ExpiredOf(s, desks, now)
  {
  }

  /** The exact condition under which a session or video is created. */
  lemma CreateCondition(s: State, id: nat, mode: Mode, hz: real, io: CreateIo)
    requires Inv(s) && Enabled(s, Create(id, mode, hz, io))
    ensures CreateTrack(s, id, mode, hz, io).1
            <==> && mode != Take && 1.0 <= hz <= 30.0
                 && AllSave(s.store, s.front.desks, s.now, io.order, io.saves)
                 && RoomFor(s, mode)
                 && io.storageOk && (mode == Offline ==> io.dirOk && io.saveOk)
  {
    hide FrontInv, LinkInv, StoreInv, Sweep, AllSave;
    SweepPasses(s.store, s.front.desks, s.now, io.order, io.saves);
    var (s1, swept) := Sweep(s.store, s.front.desks, s.now, io.order, io.saves);
    if swept {
      SweepRemoves(s.store, s.front.desks, s.now, io.order, io.saves);
      WholeTable(s.store, s.front.desks, s.now, io.order);
      SweptSets(s.store, s1, Abandoned(s));
    }
  }

  lemma {:induction false} Enumerated(ids: set<nat>) returns (order: seq<nat>)
    ensures Distinct(order) && forall t :: t in order <==> t in ids
    ensures forall i | 0 <= i < |order| :: order[i] in ids
    decreases ids
  {
    order := [];
    if ids != {} {
      var t :| t in ids;
      var rest := Enumerated(ids - {t});
      order := [t] + rest;
    }
  }

  /** Some outcome of the file operations, in some order of the table, creates the
      session or video. */
  ghost predicate Creatable(s: State, id: nat, mode: Mode, hz: real) {
    exists io :: CreatedBy(s, id, mode, hz, io)
  }

  ghost predicate CreatedBy(s: State, id: nat, mode: Mode, hz: real, io: CreateIo) {
    Enabled(s, Create(id, mode, hz, io)) && CreateTrack(s, id, mode, hz, io).1
  }

  ghost predicate StrandedSession(s: Store, t: nat) {
    exists k :: Stranded(s, t, k)
  }

  lemma StrandedMeans(s: State, t: nat)
    requires Inv(s) && t in s.store.objs
    ensures StrandedSession(s.store, t) <==> !TakeSaves(s.store, t, true)
  {
    hide FrontInv, LinkInv, FilesOk, SamplesOk;
    if s.store.objs[t].recording.Some? {
      var k := s.store.objs[t].recording.value;
      assert AttachedOk(s.store.objs, s.store.tracks, t);
      assert Stranded(s.store, t, k) <==> k !in s.store.dirs;
    }
  }

  /** A session or video with a fresh identifier can be created exactly if its mode
      and rate are allowed, there is room once the abandoned sessions are gone, and
      no stranded session is among the abandoned ones. */
  lemma CreatePossible(s: State, id: nat, mode: Mode, hz: real)
    requires Inv(s) && id !in s.store.objs && id !in s.store.dirs
    ensures Creatable(s, id, mode, hz)
            <==> && mode != Take && 1.0 <= hz <= 30.0 && RoomFor(s, mode)
                 && forall t | t in Abandoned(s) :: !StrandedSession(s.store, t)
  {
    hide Inv, CreateTrack, RoomFor, StrandedSession;
    CaptureProgress.GuardsHold(s);
    if io :| CreatedBy(s, id, mode, hz, io) {
      CreateCondition(s, id, mode, hz, io);
      forall t | t in Abandoned(s) ensures !StrandedSession(s.store, t) {
        StrandedMeans(s, t);
        var i :| 0 <= i < |io.order| && io.order[i] == t;
        assert TakeSaves(s.store, io.order[i], io.saves[i]);
      }
    }
    if mode != Take && 1.0 <= hz <= 30.0 && RoomFor(s, mode) && forall t | t in Abandoned(s) :: !StrandedSession(s.store, t) {
      var order := Enumerated(s.store.tracks);
      var io := CreateIo(order, seq(|order|, _ => true), true, true, true);
      forall i | 0 <= i < |order| && Expired(s.store, s.front.desks, order[i], s.now) ensures TakeSaves(s.store, order[i], io.saves[i]) {
        StrandedMeans(s, order[i]);
        assert order[i] in Abandoned(s);
      }
      CreateCondition(s, id, mode, hz, io);
      assert CreatedBy(s, id, mode, hz, io);
    }
  }

  /** Once a session is stranded, no session or video can be created at any later
      point of the run at which that session is idle for more than a minute. */
  lemma StrandedBlocksCreate(states: seq<State>, events: seq<Event>, i: nat, j: nat, t: nat, k: nat, id: nat, mode: Mode, hz: real)
    requires IsRun(states, events) && i <= j <= |events| && Stranded(states[i].store, t, k)
    requires t in states[j].front.desks && !states[j].front.desks[t].busy
    requires states[j].now - states[j].front.desks[t].last > EXPIRY_SECONDS
    ensures !Creatable(states[j], id, mode, hz)
  {
    RunInv(states, events, j);
    StrandedForGood(states, events, i, j, t, k);
    StrandedIdle(states[j], t, k);
    hide Inv, IsRun, Stranded, Creatable;
    var s := states[j];
    assert StrandedSession(s.store, t);
    if id !in s.store.objs && id !in s.store.dirs {
      CreatePossible(s, id, mode, hz);
    } else {
      NotFresh(s, id, mode, hz);
    }
  }

  lemma StrandedIdle(s: State, t: nat, k: nat)
    requires Inv(s) && Stranded(s.store, t, k)
    requires t in s.front.desks && !s.front.desks[t].busy && s.now - s.front.desks[t].last > EXPIRY_SECONDS
    ensures t in Abandoned(s)
  {
    TakeApart(s.store, t, k);
    hide FrontInv, LinkInv, StoreInv;
  }

  lemma NotFresh(s: State, id: nat, mode: Mode, hz: real)
    requires id in s.store.objs || id in s.store.dirs
    ensures !Creatable(s, id, mode, hz)
  {
  }
}
