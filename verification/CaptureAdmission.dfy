/**
 Admission and cleanup of a frame keep the invariant: these are the two critical
 sections in which a handler opens and closes its entry in the session.
 */
module CaptureAdmission {
  import opened Wrappers
  import opened CaptureModel
  import opened CaptureInvariant
  import CaptureFront

  // ----- admission

  lemma AdmitDesks(desks: map<nat, Desk>, handlers: map<nat, Handler>, h: nat, d: Desk, x: Handler)
    requires DesksOk(desks, handlers)
    requires h in handlers && handlers[h].stage == Parsing
    requires x.stage == Reading && x.req.handler == h && x.req.session in desks
    requires var o := desks[x.req.session];
             x.id == o.next && d.next == o.next + 1 && d.inflight == o.inflight + 1 && d.busy && d.cancels == o.cancels[o.next := h]
    ensures DesksOk(desks[x.req.session := d], handlers[h := x])
  {
    var t0 := x.req.session;
    var handlers' := handlers[h := x];
    var desks' := desks[t0 := d];
    forall t | t in desks ensures DeskOk(handlers', t, desks'[t]) {
      assert DeskOk(handlers, t, desks[t]);
      if t == t0 {
        assert desks[t0].next !in desks[t0].cancels;
        assert CancelOk(handlers', t0, x.id, h);
      }
    }
    forall y | y in handlers' ensures HandlerOk(desks', y, handlers'[y]) {
      assert HandlerOk(desks, y, handlers[y]);
      if y != h && Admitted(handlers[y].stage) && handlers[y].req.session == t0 {
        assert CancelOk(handlers, t0, handlers[y].id, y);
        assert DeskOk(handlers, t0, desks[t0]);
      }
    }
  }

  lemma AdmitPlaces(f: Front, h: nat, x: Handler)
    requires PipelineOk(f.handlers, f.frames, f.worker)
    requires h in f.handlers && f.handlers[h].stage == Parsing && x.stage == Reading && x.mailbox.None?
    ensures PipelineOk(f.handlers[h := x], f.frames, f.worker)
    ensures !InFrames(f.frames, h) && !InWorker(f.worker, h)
  {
    assert PlaceOk(f.frames, f.worker, h, f.handlers[h]);
  }

  lemma AdmitFront(f: Front, h: nat, take: Option<nat>, now: real)
    requires FrontInv(f) && h in f.handlers && f.handlers[h].stage == Parsing && f.handlers[h].req.session in f.desks
    ensures FrontInv(Admit1(f, h, take, now))
    ensures !InFrames(f.frames, h) && !InWorker(f.worker, h)
  {
    var g := Admit1(f, h, take, now);
    assert HandlerOk(f.desks, h, f.handlers[h]);
    AdmitPlaces(f, h, g.handlers[h]);
    AdmitDesks(f.desks, f.handlers, h, g.desks[f.handlers[h].req.session], g.handlers[h]);
    hide DesksOk, PipelineOk, TokenOk;
    CaptureFront.TokenFrame(f, g);
  }

  /** A pending frame keeps its session's in-flight counter above zero. */
  lemma PendingInflight(f: Front, h: nat)
    requires FrontInv(f) && Pending(f, h)
    ensures Admitted(f.handlers[h].stage)
    ensures f.handlers[h].req.session in f.desks && f.desks[f.handlers[h].req.session].inflight > 0
  {
    assert PlaceOk(f.frames, f.worker, h, f.handlers[h]);
    assert HandlerOk(f.desks, h, f.handlers[h]);
    var t := f.handlers[h].req.session;
    assert DeskOk(f.handlers, t, f.desks[t]);
    assert f.handlers[h].id in f.desks[t].cancels;
  }

  /** Admission leaves the other pending frames where they were. */
  lemma AdmitOthers(f: Front, h: nat, take: Option<nat>, now: real)
    requires FrontInv(f)
    requires h in f.handlers && f.handlers[h].stage == Parsing && f.handlers[h].req.session in f.desks
    requires !InFrames(f.frames, h) && !InWorker(f.worker, h)
    ensures var g := Admit1(f, h, take, now);
            forall x | Pending(g, x) && x != h ::
              && Pending(f, x) && g.handlers[x] == f.handlers[x] && Rank(g, x) == Rank(f, x)
              && f.handlers[x].req.session in f.desks && f.desks[f.handlers[x].req.session].inflight > 0
    ensures Rank(Admit1(f, h, take, now), h) == 2
  {
    var g := Admit1(f, h, take, now);
    forall x | Pending(g, x) && x != h
      ensures Pending(f, x) && g.handlers[x] == f.handlers[x] && Rank(g, x) == Rank(f, x)
      ensures f.handlers[x].req.session in f.desks && f.desks[f.handlers[x].req.session].inflight > 0
    {
      PendingInflight(f, x);
    }
  }

  lemma AdmitOrder(objs: map<nat, Track>, f: Front, h: nat, g: Front)
    requires OrderOk(objs, f) && h in f.handlers && h in g.handlers && Rank(g, h) == 2
    requires forall x | Pending(g, x) && x != h ::
               && Pending(f, x) && g.handlers[x] == f.handlers[x] && Rank(g, x) == Rank(f, x)
               && f.handlers[x].req.session in f.desks && f.desks[f.handlers[x].req.session].inflight > 0
    requires var r := g.handlers[h].req;
             && r.session in f.desks && r.session in objs && 1.0 <= objs[r.session].hz <= 30.0
             && r.session in g.desks && g.desks == f.desks[r.session := g.desks[r.session]]
             && g.desks[r.session].lastSubmit == r.stamp
             && (f.desks[r.session].inflight > 0 ==> r.stamp >= f.desks[r.session].lastSubmit + Gap(objs[r.session].hz))
             && StampOk(objs[r.session], g.desks[r.session], r.stamp)
    ensures OrderOk(objs, g)
  {
    var r := g.handlers[h].req;
    GapPositive(objs[r.session].hz);
    forall x | Pending(g, x) && x != h && g.handlers[x].req.session == r.session
      ensures g.handlers[x].req.stamp + Gap(objs[r.session].hz) <= r.stamp
    {
      assert StampOk(objs[r.session], f.desks[r.session], f.handlers[x].req.stamp);
    }
    forall x1, x2 | Pending(g, x1) && Pending(g, x2) && g.handlers[x1].req.session == g.handlers[x2].req.session
                    && Rank(g, x1) < Rank(g, x2)
      ensures SpacedPair(g, objs, x1, x2)
    {
      if x2 != h {
        assert SpacedPair(f, objs, x1, x2);
      }
    }
  }

  /** The take handed to an admitted frame. */
  lemma AdmitTake(s: Store, r: Request)
    requires TracksOk(s.objs, s.tracks, s.dirs) && RecordingOk(s.objs, s.tracks) && r.session in s.objs && s.objs[r.session].mode != Take
    requires RecordingsAllocated(s)
    ensures RequestOk(s.objs, r.(take := AdmittedTake(s, r)))
  {
    if s.objs[r.session].recording.Some? {
      assert AttachedOk(s.objs, s.tracks, r.session);
    }
  }

  lemma RateBounded(s: Store, t: nat)
    requires TracksOk(s.objs, s.tracks, s.dirs) && t in s.objs
    ensures 1.0 <= s.objs[t].hz <= 30.0
  {
    assert TrackOk(s.objs[t], t in s.tracks, t in s.dirs);
  }

  lemma AdmitLink(s: Store, f: Front, h: nat, now: real)
    requires TracksOk(s.objs, s.tracks, s.dirs) && RecordingOk(s.objs, s.tracks) && RecordingsAllocated(s)
    requires FrontInv(f) && LinkInv(s.objs, f)
    requires h in f.handlers && f.handlers[h].stage == Parsing && f.handlers[h].req.handler == h
    requires !InFrames(f.frames, h) && !InWorker(f.worker, h)
    requires var r := f.handlers[h].req;
             && r.session in s.objs && r.session in f.desks && s.objs[r.session].mode != Take && s.objs[r.session].hz > 0.0
             && var t := s.objs[r.session];
             && var d := f.desks[r.session];
             && d.inflight < Limit(t.mode)
             && (d.inflight > 0 ==> r.stamp - d.lastSubmit >= Gap(t.hz))
             && (d.inflight == 0 && t.count > 0 ==> r.stamp - t.lastTime >= Gap(t.hz))
             && (t.mode == Offline ==> t.count < MAX_TRACK_FRAMES)
    ensures var r := f.handlers[h].req; LinkInv(s.objs, Admit1(f, h, AdmittedTake(s, r), now))
  {
    hide FrontInv, OrderOk, TracksOk, RecordingOk;
    var r := f.handlers[h].req;
    var take := AdmittedTake(s, r);
    var g := Admit1(f, h, take, now);
    RateBounded(s, r.session);
    GapPositive(s.objs[r.session].hz);
    assert LimitsOk(s.objs[r.session], f.desks[r.session]);
    AdmitTake(s, r);
    AdmitOthers(f, h, take, now);
    AdmitOrder(s.objs, f, h, g);
  }

  lemma AdmitKeeps(s: State, h: nat, settingsOk: bool)
    requires Inv(s) && h in s.front.handlers && s.front.handlers[h].stage == Parsing && RecordingsAllocated(s.store)
    ensures Inv(s.(front := AdmitFrame(s, h, settingsOk)))
  {
    var f := s.front;
    var r := f.handlers[h].req;
    if !Admissible(s, r) || !settingsOk {
      hide FrontInv, LinkInv, StoreInv;
      CaptureFront.ParseFailMoves(f, h);
      CaptureFront.MoveKeeps(s, SetStage(f, h, Leaving));
    } else {
      AdmitFront(f, h, AdmittedTake(s.store, r), s.now);
      assert r.handler == h by { assert HandlerOk(f.desks, h, f.handlers[h]); }
      hide FrontInv, LinkInv, TracksOk, RecordingOk, FilesOk, SamplesOk;
      AdmitLink(s.store, f, h, s.now);
    }
  }

  // ----- cleanup

  lemma CleanupDesk(handlers: map<nat, Handler>, t: nat, o: Desk, d: Desk, h: nat, handlers': map<nat, Handler>)
    requires DeskOk(handlers, t, o) && h in handlers && o.inflight > 0
    requires handlers[h].id in o.cancels && o.cancels[handlers[h].id] == h
    requires d == o.(cancels := o.cancels - {handlers[h].id}, inflight := o.inflight - 1, busy := o.inflight - 1 > 0)
    requires forall x | x in handlers && x != h :: x in handlers' && handlers'[x] == handlers[x]
    ensures DeskOk(handlers', t, d)
  {
    var id := handlers[h].id;
    assert d.cancels.Keys == o.cancels.Keys - {id};
    assert |d.cancels.Keys| == |o.cancels.Keys| - 1;
    forall i | i in d.cancels ensures CancelOk(handlers', t, i, d.cancels[i]) {
      assert CancelOk(handlers, t, i, o.cancels[i]);
      assert CancelOk(handlers, t, id, h);
    }
  }

  lemma CleanupOtherDesk(handlers: map<nat, Handler>, t: nat, o: Desk, h: nat, handlers': map<nat, Handler>)
    requires DeskOk(handlers, t, o) && h in handlers && handlers[h].req.session != t
    requires forall x | x in handlers && x != h :: x in handlers' && handlers'[x] == handlers[x]
    ensures DeskOk(handlers', t, o)
  {
    forall i | i in o.cancels ensures CancelOk(handlers', t, i, o.cancels[i]) {
      assert CancelOk(handlers, t, i, o.cancels[i]);
    }
  }

  lemma CleanupHandlers(desks: map<nat, Desk>, handlers: map<nat, Handler>, h: nat, d: Desk, handlers': map<nat, Handler>)
    requires forall y | y in handlers :: HandlerOk(desks, y, handlers[y])
    requires h in handlers && handlers[h].req.session in desks
    requires d.cancels == desks[handlers[h].req.session].cancels - {handlers[h].id}
    requires handlers[h].id in desks[handlers[h].req.session].cancels && desks[handlers[h].req.session].cancels[handlers[h].id] == h
    requires handlers' == handlers - {h} || handlers' == handlers[h := handlers[h].(stage := Leaving)]
    ensures forall y | y in handlers' :: HandlerOk(desks[handlers[h].req.session := d], y, handlers'[y])
  {
    forall y | y in handlers' ensures HandlerOk(desks[handlers[h].req.session := d], y, handlers'[y]) {
      assert HandlerOk(desks, y, handlers[y]);
    }
  }

  lemma CleanupDesks(desks: map<nat, Desk>, handlers: map<nat, Handler>, h: nat, d: Desk, handlers': map<nat, Handler>)
    requires DesksOk(desks, handlers)
    requires h in handlers && Admitted(handlers[h].stage)
    requires var o := desks[handlers[h].req.session];
             && o.inflight > 0
             && d == o.(cancels := o.cancels - {handlers[h].id}, inflight := o.inflight - 1, busy := o.inflight - 1 > 0)
    requires handlers' == handlers - {h} || handlers' == handlers[h := handlers[h].(stage := Leaving)]
    ensures DesksOk(desks[handlers[h].req.session := d], handlers')
  {
    hide DeskOk;
    var t0 := handlers[h].req.session;
    var desks' := desks[t0 := d];
    assert HandlerOk(desks, h, handlers[h]);
    CleanupDesk(handlers, t0, desks[t0], d, h, handlers');
    forall t | t in desks && t != t0 ensures DeskOk(handlers', t, desks[t]) {
      CleanupOtherDesk(handlers, t, desks[t], h, handlers');
    }
    CleanupHandlers(desks, handlers, h, d, handlers');
  }

  lemma CleanupPlaces(f: Front, h: nat, handlers': map<nat, Handler>)
    requires PipelineOk(f.handlers, f.frames, f.worker)
    requires h in f.handlers && (f.handlers[h].stage == Rejected || f.handlers[h].stage == Replied)
    requires handlers' == f.handlers - {h} || handlers' == f.handlers[h := f.handlers[h].(stage := Leaving)]
    ensures PipelineOk(handlers', f.frames, f.worker)
    ensures !InFrames(f.frames, h) && !InWorker(f.worker, h)
  {
    assert PlaceOk(f.frames, f.worker, h, f.handlers[h]);
  }

  lemma CleanupToken(f: Front, h: nat, handlers': map<nat, Handler>)
    requires TokenOk(f.handlers, f.uploads, f.other) && h in f.handlers
    requires if f.handlers[h].stage == Rejected then handlers' == f.handlers[h := f.handlers[h].(stage := Leaving)]
             else f.handlers[h].stage == Replied && handlers' == f.handlers - {h}
    ensures TokenOk(handlers', f.uploads, f.other)
  {
    if f.handlers[h].stage == Rejected {
      CaptureFront.TokenFrame(f, f.(handlers := handlers'));
    } else if f.uploads && !f.other {
      var x :| x in f.handlers && Holding(f.handlers[x].stage);
      assert x in handlers' && Holding(handlers'[x].stage);
    }
  }

  lemma CleanupLink(objs: map<nat, Track>, f: Front, g: Front, t: nat)
    requires LinkInv(objs, f) && CaptureFront.Retains(f, g) && CaptureFront.Narrows(f, g)
    requires t in f.desks && f.desks[t].inflight > 0 && t in g.desks
    requires g.desks[t].inflight == f.desks[t].inflight - 1 && g.desks[t].lastSubmit == f.desks[t].lastSubmit
    requires g.desks == f.desks[t := g.desks[t]]
    ensures LinkInv(objs, g)
  {
    assert LimitsOk(objs[t], f.desks[t]);
    forall h1, h2 | Pending(g, h1) && Pending(g, h2) && g.handlers[h1].req.session == g.handlers[h2].req.session
                    && Rank(g, h1) < Rank(g, h2)
      ensures SpacedPair(g, objs, h1, h2)
    {
      assert SpacedPair(f, objs, h1, h2);
    }
  }

  lemma CleanupOpen(f: Front, h: nat)
    requires DesksOk(f.desks, f.handlers) && h in f.handlers && Admitted(f.handlers[h].stage)
    ensures f.handlers[h].req.session in f.desks && f.desks[f.handlers[h].req.session].inflight > 0
  {
    assert HandlerOk(f.desks, h, f.handlers[h]);
    var t := f.handlers[h].req.session;
    assert f.handlers[h].id in f.desks[t].cancels;
    assert DeskOk(f.handlers, t, f.desks[t]);
  }

  lemma CleanupMoves(f: Front, h: nat, g: Front)
    requires h in f.handlers && (f.handlers[h].stage == Rejected || f.handlers[h].stage == Replied)
    requires !InFrames(f.frames, h) && !InWorker(f.worker, h)
    requires g.frames == f.frames && g.worker == f.worker
    requires g.handlers == f.handlers - {h} || g.handlers == f.handlers[h := f.handlers[h].(stage := Leaving)]
    ensures CaptureFront.Retains(f, g) && CaptureFront.Narrows(f, g)
  {
  }

  lemma CleanupFrontKeeps(f: Front, h: nat)
    requires FrontInv(f) && h in f.handlers && (f.handlers[h].stage == Rejected || f.handlers[h].stage == Replied)
    ensures f.handlers[h].req.session in f.desks && f.desks[f.handlers[h].req.session].inflight > 0
    ensures FrontInv(CleanupFrame(f, h)) && CaptureFront.Retains(f, CleanupFrame(f, h)) && CaptureFront.Narrows(f, CleanupFrame(f, h))
  {
    hide DesksOk, PipelineOk, TokenOk, CaptureFront.Retains, CaptureFront.Narrows;
    CleanupOpen(f, h);
    var g := CleanupFrame(f, h);
    CleanupDesks(f.desks, f.handlers, h, g.desks[f.handlers[h].req.session], g.handlers);
    CleanupPlaces(f, h, g.handlers);
    CleanupToken(f, h, g.handlers);
    CleanupMoves(f, h, g);
  }

  lemma CleanupKeeps(s: State, h: nat)
    requires Inv(s) && h in s.front.handlers && (s.front.handlers[h].stage == Rejected || s.front.handlers[h].stage == Replied)
    ensures s.front.handlers[h].req.session in s.front.desks && s.front.desks[s.front.handlers[h].req.session].inflight > 0
    ensures Inv(s.(front := CleanupFrame(s.front, h)))
  {
    hide FrontInv, LinkInv, StoreInv;
    CleanupFrontKeeps(s.front, h);
    var g := CleanupFrame(s.front, h);
    CleanupLink(s.store.objs, s.front, g, s.front.handlers[h].req.session);
  }
}
