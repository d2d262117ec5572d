/**
 Every event of the capture protocol keeps the invariant, so the invariant holds
 in every state that any interleaving can reach.
 */
module CaptureSteps {
  import opened Wrappers
  import opened CaptureModel
  import Sets
  import opened CaptureInvariant
  import opened CaptureFront
  import opened CaptureAdmission
  import opened CaptureTracks
  import opened CaptureCommit

  // ----- the commit and the requests behind it

  lemma CommitStoreKeeps(s: Store, r: Request, cancelled: bool, io: CommitIo)
    requires StoreInv(s) && RecordingsAllocated(s) && RequestOk(s.objs, r)
    requires s.objs[r.session].hz > 0.0
    requires s.objs[r.session].count > 0 ==> r.stamp >= s.objs[r.session].lastTime + Gap(s.objs[r.session].hz)
    requires s.objs[r.session].mode == Offline ==> s.objs[r.session].count < MAX_TRACK_FRAMES
    ensures var s' := CommitFrame(s, r, cancelled, io).0;
            && StoreInv(s') && s'.objs.Keys == s.objs.Keys
            && (SessionsKept(s.objs, s'.objs)
                || (!cancelled && s.objs[r.session].phase == Recording && Advanced(s.objs, s'.objs, r.session, r.stamp)))
  {
    hide StoreInv, SessionsKept, Advanced, AppendRecording, CommitOffline;
    var t := r.session;
    KeptSame(s.objs);
    if !cancelled && s.objs[t].phase == Recording {
      if s.objs[t].mode == Offline {
        OfflineAdvances(s, t, r.stamp, io);
        assert r.take.None?;
      } else {
        assert s.objs[t].mode == Live;
        LiveAdvances(s, r, io);
      }
    }
  }

  /** Two open entries in one session are two in-flight requests. */
  lemma TwoInflight(f: Front, h1: nat, h2: nat)
    requires DesksOk(f.desks, f.handlers) && h1 in f.handlers && h2 in f.handlers && h1 != h2
    requires Admitted(f.handlers[h1].stage) && Admitted(f.handlers[h2].stage)
    requires f.handlers[h1].req.session == f.handlers[h2].req.session
    ensures f.handlers[h1].req.session in f.desks && f.desks[f.handlers[h1].req.session].inflight >= 2
  {
    assert HandlerOk(f.desks, h1, f.handlers[h1]) && HandlerOk(f.desks, h2, f.handlers[h2]);
    var t := f.handlers[h1].req.session;
    assert DeskOk(f.handlers, t, f.desks[t]);
    var ids := {f.handlers[h1].id, f.handlers[h2].id};
    assert ids <= f.desks[t].cancels.Keys;
    Sets.SubsetSize(ids, f.desks[t].cancels.Keys);
  }

  function Ticked(objs: map<nat, Track>, t: nat, stamp: real): map<nat, Track>
    requires t in objs
  {
    objs[t := objs[t].(count := objs[t].count + 1, lastTime := stamp)]
  }

  lemma TickOrder(objs: map<nat, Track>, f: Front, g: Front)
    requires OrderOk(objs, f) && f.worker.Running? && Pending(f, f.worker.req.handler) && f.handlers[f.worker.req.handler].req == f.worker.req
    requires g == f.(worker := g.worker) && g.worker.Responding? && g.worker.req == f.worker.req
    requires f.worker.req.session in objs && f.worker.req.session in f.desks
    requires !Pending(g, f.worker.req.handler)
    requires objs[f.worker.req.session].mode == Offline ==>
               forall x | Pending(f, x) && f.handlers[x].req.session == f.worker.req.session :: x == f.worker.req.handler
    ensures OrderOk(Ticked(objs, f.worker.req.session, f.worker.req.stamp), g)
  {
    var h := f.worker.req.handler;
    var objs' := Ticked(objs, f.worker.req.session, f.worker.req.stamp);
    forall x | Pending(g, x) && g.handlers[x].req.session in objs' && g.handlers[x].req.session in g.desks
      ensures StampOk(objs'[g.handlers[x].req.session], g.desks[g.handlers[x].req.session], g.handlers[x].req.stamp)
    {
      assert Pending(f, x) && x != h && Rank(f, h) < Rank(f, x);
      if f.handlers[x].req.session == f.worker.req.session {
        assert SpacedPair(f, objs, h, x);
      }
    }
    forall x1, x2 | Pending(g, x1) && Pending(g, x2) && g.handlers[x1].req.session == g.handlers[x2].req.session
                    && Rank(g, x1) < Rank(g, x2)
      ensures SpacedPair(g, objs', x1, x2)
    {
      assert SpacedPair(f, objs, x1, x2);
    }
  }

  lemma TickRequests(objs: map<nat, Track>, f: Front, t: nat, stamp: real)
    requires t in objs && objs[t].mode != Take
    requires forall h | h in f.handlers && Admitted(f.handlers[h].stage) :: RequestOk(objs, f.handlers[h].req)
    ensures forall h | h in f.handlers && Admitted(f.handlers[h].stage) :: RequestOk(Ticked(objs, t, stamp), f.handlers[h].req)
  {
    forall h | h in f.handlers && Admitted(f.handlers[h].stage) ensures RequestOk(Ticked(objs, t, stamp), f.handlers[h].req) {
      assert RequestOk(objs, f.handlers[h].req);
    }
  }

  /** Where the running request stands just before it is committed. */
  lemma RunningFacts(s: State)
    requires Inv(s) && s.front.worker.Running?
    ensures var r := s.front.worker.req;
            && r.handler in s.front.handlers && s.front.handlers[r.handler].req == r
            && Admitted(s.front.handlers[r.handler].stage) && s.front.handlers[r.handler].stage != Reading
            && !InFrames(s.front.frames, r.handler)
            && RequestOk(s.store.objs, r) && r.session in s.front.desks
            && StampOk(s.store.objs[r.session], s.front.desks[r.session], r.stamp)
            && s.front.desks[r.session].inflight > 0
  {
    hide StoreInv, TokenOk;
    var r := s.front.worker.req;
    assert PlaceOk(s.front.frames, s.front.worker, r.handler, s.front.handlers[r.handler]);
    PendingInflight(s.front, r.handler);
  }

  lemma OfflineAlone(s: State)
    requires Inv(s) && s.front.worker.Running? && s.front.worker.req.session in s.store.objs
    requires s.store.objs[s.front.worker.req.session].mode == Offline
    ensures forall x | Pending(s.front, x) && s.front.handlers[x].req.session == s.front.worker.req.session :: x == s.front.worker.req.handler
  {
    RunningFacts(s);
    hide StoreInv, TokenOk, DesksOk, OrderOk;
    var f := s.front;
    PendingAdmitted(f);
    assert LimitsOk(s.store.objs[f.worker.req.session], f.desks[f.worker.req.session]);
    forall x | Pending(f, x) && f.handlers[x].req.session == f.worker.req.session ensures x == f.worker.req.handler {
      if x != f.worker.req.handler {
        TwoInflight(f, x, f.worker.req.handler);
      }
    }
  }

  lemma TickLink(objs: map<nat, Track>, f: Front, g: Front)
    requires LinkInv(objs, f) && f.worker.Running? && Pending(f, f.worker.req.handler)
    requires f.handlers[f.worker.req.handler].req == f.worker.req
    requires g == f.(worker := g.worker) && g.worker.Responding? && g.worker.req == f.worker.req
    requires f.worker.req.session in objs && objs[f.worker.req.session].mode != Take
    requires !Pending(g, f.worker.req.handler)
    requires objs[f.worker.req.session].mode == Offline ==>
               forall x | Pending(f, x) && f.handlers[x].req.session == f.worker.req.session :: x == f.worker.req.handler
    ensures LinkInv(Ticked(objs, f.worker.req.session, f.worker.req.stamp), g)
  {
    var t := f.worker.req.session;
    TickOrder(objs, f, g);
    TickRequests(objs, f, t, f.worker.req.stamp);
    assert StampOk(objs[t], f.desks[t], f.worker.req.stamp);
    hide OrderOk, RequestOk;
    var objs' := Ticked(objs, t, f.worker.req.stamp);
    forall x | x in objs' ensures LimitsOk(objs'[x], g.desks[x]) {
      assert LimitsOk(objs[x], f.desks[x]);
    }
  }

  lemma DeskKeys(objs: map<nat, Track>, f: Front)
    requires LinkInv(objs, f)
    ensures f.desks.Keys == objs.Keys
  {
  }

  lemma LinkBack(objs: map<nat, Track>, objs': map<nat, Track>, f: Front, t: nat, stamp: real)
    requires FrontInv(f) && LinkInv(objs, f) && Advanced(objs, objs', t, stamp) && objs'.Keys == objs.Keys
    ensures LinkInv(RolledBack(objs, objs', t), f)
    ensures t in RolledBack(objs, objs', t) && RolledBack(objs, objs', t)[t].mode == objs[t].mode
    ensures Ticked(RolledBack(objs, objs', t), t, stamp) == objs'
  {
    hide FrontInv, LinkInv, SessionsKept;
    var back := RolledBack(objs, objs', t);
    DeskKeys(objs, f);
    LinkKept(objs, back, f, f);
    KeptMode(objs, back, t);
  }

  lemma LinkAdvanced(objs: map<nat, Track>, objs': map<nat, Track>, f: Front, g: Front)
    requires FrontInv(f) && LinkInv(objs, f) && f.worker.Running? && Pending(f, f.worker.req.handler)
    requires f.handlers[f.worker.req.handler].req == f.worker.req
    requires g == f.(worker := g.worker) && g.worker.Responding? && g.worker.req == f.worker.req
    requires f.worker.req.session in objs && objs[f.worker.req.session].mode != Take
    requires !Pending(g, f.worker.req.handler)
    requires objs[f.worker.req.session].mode == Offline ==>
               forall x | Pending(f, x) && f.handlers[x].req.session == f.worker.req.session :: x == f.worker.req.handler
    requires Advanced(objs, objs', f.worker.req.session, f.worker.req.stamp) && objs'.Keys == objs.Keys
    ensures LinkInv(objs', g)
  {
    hide FrontInv, LinkInv, SessionsKept, RolledBack, Ticked;
    var t := f.worker.req.session;
    LinkBack(objs, objs', f, t, f.worker.req.stamp);
    TickLink(RolledBack(objs, objs', t), f, g);
  }

  lemma LinkUnchanged(objs: map<nat, Track>, objs': map<nat, Track>, f: Front, g: Front)
    requires FrontInv(f) && LinkInv(objs, f) && Moves(f, g) && SessionsKept(objs, objs') && objs'.Keys == objs.Keys
    ensures LinkInv(objs', g)
  {
    hide FrontInv, LinkInv, SessionsKept, Retains, Narrows;
    DeskKeys(objs, f);
    LinkKept(objs, objs', f, f);
    LinkFrame(objs', f, g);
  }

  lemma CommitLink(s: State, store: Store, g: Front)
    requires Inv(s) && s.front.worker.Running? && g == s.front.(worker := g.worker)
    requires g.worker.Responding? && g.worker.req == s.front.worker.req
    requires store.objs.Keys == s.store.objs.Keys
    requires SessionsKept(s.store.objs, store.objs) || Advanced(s.store.objs, store.objs, s.front.worker.req.session, s.front.worker.req.stamp)
    ensures LinkInv(store.objs, g)
  {
    hide FrontInv, LinkInv, StoreInv, SessionsKept, Advanced, Moves;
    var r := s.front.worker.req;
    RunningFacts(s);
    FinishRunMoves(s.front, g.worker.reply);
    if SessionsKept(s.store.objs, store.objs) {
      LinkUnchanged(s.store.objs, store.objs, s.front, g);
    } else {
      if s.store.objs[r.session].mode == Offline { OfflineAlone(s); }
      LinkAdvanced(s.store.objs, store.objs, s.front, g);
    }
  }

  lemma CommitKeeps(s: State, io: CommitIo)
    requires Inv(s) && s.front.worker.Running? && RecordingsAllocated(s.store)
    ensures var r := s.front.worker.req;
            && r.session in s.store.objs && r.handler in s.front.handlers && (r.take.Some? ==> r.take.value in s.store.objs)
            && var (store, reply) := CommitFrame(s.store, r, s.front.handlers[r.handler].cancelled, io);
               Inv(s.(store := store, front := s.front.(worker := Responding(r, reply))))
  {
    var r := s.front.worker.req;
    RunningFacts(s);
    hide FrontInv, LinkInv, StoreInv;
    CommitStoreKeeps(s.store, r, s.front.handlers[r.handler].cancelled, io);
    var (store, reply) := CommitFrame(s.store, r, s.front.handlers[r.handler].cancelled, io);
    FinishRunMoves(s.front, reply);
    CommitLink(s, store, s.front.(worker := Responding(r, reply)));
  }

  // ----- one step

  lemma QuietPlaces(f: Front, worker: Worker)
    requires PipelineOk(f.handlers, f.frames, f.worker)
    requires worker == f.worker || (!f.worker.Running? && !f.worker.Responding? && !worker.Running? && !worker.Responding?)
    ensures PipelineOk(f.handlers, f.frames, worker)
  {
  }

  /** Taking up or returning the token elsewhere, or running a job, moves no request. */
  lemma QuietMoves(f: Front, g: Front)
    requires FrontInv(f) && g == f.(uploads := g.uploads, other := g.other, worker := g.worker)
    requires g.worker == f.worker || (!f.worker.Running? && !f.worker.Responding? && !g.worker.Running? && !g.worker.Responding?)
    requires (g.uploads == f.uploads && g.other == f.other) || (f.other && !g.uploads && !g.other) || (!f.uploads && g.uploads && g.other)
    ensures Moves(f, g)
  {
    hide DesksOk, PipelineOk;
    QuietPlaces(f, g.worker);
  }

  lemma QuietStep(s: State, e: Event)
    requires Inv(s) && Enabled(s, e)
    requires e.Tick? || e.Rename? || e.WorkerStart? || e.SubmitJob? || e.AcquireOther? || e.ReleaseOther? || e.PopJob? || e.JobDone?
    ensures Inv(Step(s, e))
  {
    hide StoreInv, LinkInv, TokenOk, DesksOk, PipelineOk, Moves;
    QuietMoves(s.front, Step(s, e).front);
    MoveKeeps(s, Step(s, e).front);
  }

  lemma HandlerStep(s: State, e: Event)
    requires Inv(s) && Enabled(s, e)
    requires e.Arrive? || e.BadRequest? || e.Admit? || e.ReadFail? || e.Enqueue? || e.ReleaseToken?
             || e.Cancel? || e.Receive? || e.Cleanup? || e.Leave?
    ensures Inv(Step(s, e))
  {
    hide StoreInv, LinkInv, TokenOk, DesksOk, PipelineOk, Moves;
    var f := s.front;
    match e
    case Arrive(h, session, stamp) => ArriveMoves(f, h, Request(h, session, None, stamp)); MoveKeeps(s, Step(s, e).front);
    case BadRequest(h) => ParseFailMoves(f, h); MoveKeeps(s, Step(s, e).front);
    case Admit(h, settingsOk) => AdmitKeeps(s, h, settingsOk);
    case ReadFail(h) => ReadFailMoves(f, h); MoveKeeps(s, Step(s, e).front);
    case Enqueue(h) =>
      if f.frames.Some? { ReadFailMoves(f, h); } else { OwnRequest(f, h); SendMoves(f, h); }
      MoveKeeps(s, Step(s, e).front);
    case ReleaseToken(h) => ReleaseMoves(f, h); MoveKeeps(s, Step(s, e).front);
    case Cancel(h) => CancelMoves(f, {h}); MoveKeeps(s, Step(s, e).front);
    case Receive(h) => ReceiveMoves(f, h); MoveKeeps(s, Step(s, e).front);
    case Cleanup(h) => CleanupKeeps(s, h);
    case Leave(h) => LeaveMoves(f, h); MoveKeeps(s, Step(s, e).front);
  }

  lemma OwnRequest(f: Front, h: nat)
    requires FrontInv(f) && h in f.handlers
    ensures f.handlers[h].req.handler == h
  {
    assert HandlerOk(f.desks, h, f.handlers[h]);
  }

  lemma ConsumerStep(s: State, e: Event)
    requires Inv(s) && Enabled(s, e)
    requires e.Dequeue? || e.FrameFail? || e.Commit? || e.Respond?
    ensures Inv(Step(s, e))
  {
    hide StoreInv, LinkInv, TokenOk, DesksOk, PipelineOk, Moves, CommitFrame;
    var f := s.front;
    match e
    case Dequeue => DequeueMoves(f); MoveKeeps(s, Step(s, e).front);
    case FrameFail => FinishRunMoves(f, Refused); MoveKeeps(s, Step(s, e).front);
    case Commit(io) => CommitKeeps(s, io);
    case Respond => RespondMoves(f); MoveKeeps(s, Step(s, e).front);
  }

  lemma StoreStays(s: State, store: Store)
    requires Inv(s) && StoreInv(store) && SessionsKept(s.store.objs, store.objs) && store.objs.Keys == s.store.objs.Keys
    ensures Inv(s.(store := store))
  {
    hide StoreInv, FrontInv, LinkInv;
    DeskKeys(s.store.objs, s.front);
    StoreMoveKeeps(s, store, s.front);
  }

  lemma StoreGrows(s: State, store: Store, id: nat, last: real)
    requires Inv(s) && StoreInv(store) && SessionsKept(s.store.objs, store.objs)
    requires id !in s.store.objs && store.objs.Keys == s.store.objs.Keys + {id}
    ensures Inv(s.(store := store, front := s.front.(desks := s.front.desks[id := NewDesk(last)])))
  {
    hide StoreInv, FrontInv, LinkInv;
    DeskKeys(s.store.objs, s.front);
    StoreMoveKeeps(s, store, s.front.(desks := s.front.desks[id := NewDesk(last)]));
  }

  lemma TrackStep(s: State, e: Event)
    requires Inv(s) && Enabled(s, e)
    requires e.Create? || e.Finish? || e.RecordStart? || e.RecordStop? || e.Delete?
    ensures Inv(Step(s, e))
  {
    hide StoreInv, FrontInv, LinkInv, SessionsKept, CreateTrack, FinishTrack, StartTake, StopTake, DeleteTrack, Moves;
    match e
    case Create(id, mode, hz, io) =>
      CreateKeeps(s, id, mode, hz, io);
      var (store, made) := CreateTrack(s, id, mode, hz, io);
      if made { StoreGrows(s, store, id, s.now); } else { StoreStays(s, store); }
    case Finish(session, takeSaveOk, saveOk) =>
      FinishTrackKeeps(s.store, session, takeSaveOk, saveOk);
      var (store, ended) := FinishTrack(s.store, session, takeSaveOk, saveOk);
      StoreStays(s, store);
      if ended {
        var ids := s.front.desks[session].cancels.Values;
        CancelMoves(s.front, ids);
        MoveKeeps(s.(store := store), s.front.(handlers := CancelAll(s.front.handlers, ids)));
      }
    case RecordStart(session, id, start, storageOk, dirOk, saveOk) =>
      StartKeeps(s, session, id, start, storageOk, dirOk, saveOk);
      var (store, made) := StartTake(s, session, id, start, storageOk, dirOk, saveOk);
      if made { StoreGrows(s, store, id, 0.0); } else { StoreStays(s, store); }
    case RecordStop(session, saveOk) =>
      StopKeeps(s.store, session, saveOk);
      StoreStays(s, StopTake(s.store, session, saveOk));
    case Delete(id, removeOk, lost) =>
      DeleteKeeps(s.store, s.front.desks, id, removeOk, lost);
      KeptSame(s.store.objs);
      StoreStays(s, DeleteTrack(s.store, s.front.desks, id, removeOk, lost));
  }

  lemma StepKeeps(s: State, e: Event)
    requires Inv(s) && Enabled(s, e)
    ensures Inv(Step(s, e))
  {
    hide Inv, Step, Enabled;
    match e
    case Tick(_) => QuietStep(s, e);
    case Rename(_, _) => QuietStep(s, e);
    case WorkerStart => QuietStep(s, e);
    case SubmitJob => QuietStep(s, e);
    case AcquireOther => QuietStep(s, e);
    case ReleaseOther => QuietStep(s, e);
    case PopJob => QuietStep(s, e);
    case JobDone => QuietStep(s, e);
    case Create(_, _, _, _) => TrackStep(s, e);
    case Finish(_, _, _) => TrackStep(s, e);
    case RecordStart(_, _, _, _, _, _) => TrackStep(s, e);
    case RecordStop(_, _) => TrackStep(s, e);
    case Delete(_, _, _) => TrackStep(s, e);
    case Dequeue => ConsumerStep(s, e);
    case FrameFail => ConsumerStep(s, e);
    case Commit(_) => ConsumerStep(s, e);
    case Respond => ConsumerStep(s, e);
    case _ => HandlerStep(s, e);
  }
}
