/**
 Every event of the handlers, the channels and the consumer that leaves the
 tracks alone keeps the invariant.
 */
module CaptureFront {
  import opened Wrappers
  import opened CaptureModel
  import opened CaptureInvariant

  // ----- framing: moving requests along the pipeline

  /** `g` admits no request that `f` has not admitted. */
  ghost predicate Retains(f: Front, g: Front) {
    forall h | h in g.handlers && Admitted(g.handlers[h].stage) ::
      h in f.handlers && Admitted(f.handlers[h].stage) && g.handlers[h].req == f.handlers[h].req
  }

  /** The pending requests of `g` were pending in `f`, in the same order. */
  ghost predicate Narrows(f: Front, g: Front) {
    && (forall h | Pending(g, h) :: Pending(f, h) && g.handlers[h].req == f.handlers[h].req)
    && (forall h1, h2 | Pending(g, h1) && Pending(g, h2) && Rank(g, h1) < Rank(g, h2) :: Rank(f, h1) < Rank(f, h2))
  }

  lemma OrderFrame(objs: map<nat, Track>, f: Front, g: Front)
    requires OrderOk(objs, f) && Narrows(f, g) && g.desks == f.desks
    ensures OrderOk(objs, g)
  {
    forall h1, h2 | Pending(g, h1) && Pending(g, h2) && g.handlers[h1].req.session == g.handlers[h2].req.session
                    && Rank(g, h1) < Rank(g, h2)
      ensures SpacedPair(g, objs, h1, h2)
    {
      assert SpacedPair(f, objs, h1, h2);
    }
  }

  lemma LinkFrame(objs: map<nat, Track>, f: Front, g: Front)
    requires LinkInv(objs, f) && Retains(f, g) && Narrows(f, g) && g.desks == f.desks
    ensures LinkInv(objs, g)
  {
    OrderFrame(objs, f, g);
  }

  /** A step of the handlers and channels that leaves the admission records alone. */
  ghost predicate Moves(f: Front, g: Front) {
    FrontInv(g) && Retains(f, g) && Narrows(f, g) && g.desks == f.desks
  }

  lemma MoveKeeps(s: State, g: Front)
    requires Inv(s) && Moves(s.front, g)
    ensures Inv(s.(front := g))
  {
    LinkFrame(s.store.objs, s.front, g);
  }

  /** Changing only the stage of a handler from one admitted stage to another. */
  lemma DesksFrame(f: Front, g: Front)
    requires DesksOk(f.desks, f.handlers) && g.desks == f.desks
    requires g.handlers.Keys == f.handlers.Keys
    requires forall h | h in f.handlers ::
               && Admitted(f.handlers[h].stage) == Admitted(g.handlers[h].stage)
               && g.handlers[h].req == f.handlers[h].req && g.handlers[h].id == f.handlers[h].id
    ensures DesksOk(g.desks, g.handlers)
  {
    forall t | t in g.desks ensures DeskOk(g.handlers, t, g.desks[t]) {
      assert DeskOk(f.handlers, t, f.desks[t]);
    }
  }

  /** Token ownership depends only on who holds it. */
  lemma TokenFrame(f: Front, g: Front)
    requires TokenOk(f.handlers, f.uploads, f.other)
    requires g.handlers.Keys == f.handlers.Keys && g.uploads == f.uploads && g.other == f.other
    requires forall h | h in f.handlers :: Holding(f.handlers[h].stage) == Holding(g.handlers[h].stage)
    ensures TokenOk(g.handlers, g.uploads, g.other)
  {
    if g.uploads && !g.other {
      var h :| h in f.handlers && Holding(f.handlers[h].stage);
      assert h in g.handlers && Holding(g.handlers[h].stage);
    }
  }

  lemma DesksShrink(desks: map<nat, Desk>, handlers: map<nat, Handler>, h: nat)
    requires DesksOk(desks, handlers) && h in handlers && !Admitted(handlers[h].stage)
    ensures DesksOk(desks, handlers - {h})
  {
    forall t | t in desks ensures DeskOk(handlers - {h}, t, desks[t]) {
      assert DeskOk(handlers, t, desks[t]);
    }
  }

  lemma DesksGrow(desks: map<nat, Desk>, handlers: map<nat, Handler>, h: nat, x: Handler)
    requires DesksOk(desks, handlers) && h !in handlers && x.stage == Parsing && x.req.handler == h
    ensures DesksOk(desks, handlers[h := x])
  {
    forall t | t in desks ensures DeskOk(handlers[h := x], t, desks[t]) {
      assert DeskOk(handlers, t, desks[t]);
    }
  }

  /** Whoever leaves the token behind was its only holder. */
  lemma TokenReturned(f: Front, g: Front, h: nat)
    requires TokenOk(f.handlers, f.uploads, f.other) && h in f.handlers && Holding(f.handlers[h].stage)
    requires !g.uploads && g.other == f.other
    requires forall x | x in g.handlers :: x in f.handlers
    requires forall x | x in g.handlers && x != h :: g.handlers[x] == f.handlers[x]
    requires h in g.handlers ==> !Holding(g.handlers[h].stage)
    ensures TokenOk(g.handlers, g.uploads, g.other)
  {
  }

  lemma TokenTaken(f: Front, g: Front, h: nat)
    requires TokenOk(f.handlers, f.uploads, f.other) && !f.uploads && h !in f.handlers
    requires g.uploads && g.other == f.other && h in g.handlers && Holding(g.handlers[h].stage)
    requires forall x | x in g.handlers && x != h :: x in f.handlers && g.handlers[x] == f.handlers[x]
    ensures TokenOk(g.handlers, g.uploads, g.other)
  {
  }

  // ----- events

  lemma ArriveMoves(f: Front, h: nat, r: Request)
    requires FrontInv(f) && !f.uploads && h !in f.handlers && r.handler == h
    ensures Moves(f, f.(uploads := true, handlers := f.handlers[h := Handler(Parsing, r, 0, false, None)]))
  {
    hide DesksOk, TokenOk;
    var x := Handler(Parsing, r, 0, false, None);
    var g := f.(uploads := true, handlers := f.handlers[h := x]);
    TokenTaken(f, g, h);
    DesksGrow(f.desks, f.handlers, h, x);
  }

  lemma ParseFailMoves(f: Front, h: nat)
    requires FrontInv(f) && h in f.handlers && f.handlers[h].stage == Parsing
    ensures Moves(f, SetStage(f, h, Leaving))
  {
    hide DesksOk, TokenOk;
    var g := SetStage(f, h, Leaving);
    TokenFrame(f, g);
    DesksFrame(f, g);
  }

  lemma ReadFailMoves(f: Front, h: nat)
    requires FrontInv(f) && h in f.handlers && f.handlers[h].stage == Reading
    ensures Moves(f, SetStage(f, h, Rejected))
  {
    hide DesksOk, TokenOk;
    var g := SetStage(f, h, Rejected);
    TokenFrame(f, g);
    DesksFrame(f, g);
  }

  lemma SendPlaces(f: Front, h: nat, g: Front)
    requires PipelineOk(f.handlers, f.frames, f.worker) && f.frames.None?
    requires h in f.handlers && f.handlers[h].stage == Reading && f.handlers[h].req.handler == h
    requires g == SetStage(f, h, Sent).(frames := Some(f.handlers[h].req))
    ensures PipelineOk(g.handlers, g.frames, g.worker) && Retains(f, g)
  {
    assert PlaceOk(f.frames, f.worker, h, f.handlers[h]);
  }

  lemma SendOrder(f: Front, h: nat, g: Front)
    requires PipelineOk(f.handlers, f.frames, f.worker) && f.frames.None?
    requires h in f.handlers && f.handlers[h].stage == Reading && f.handlers[h].req.handler == h
    requires g == SetStage(f, h, Sent).(frames := Some(f.handlers[h].req))
    requires forall x | x in f.handlers && f.handlers[x].stage == Reading :: x == h
    ensures Narrows(f, g)
  {
    assert PlaceOk(f.frames, f.worker, h, f.handlers[h]);
    assert forall x | Pending(g, x) :: x == h || IsRunning(f.worker, x);
  }

  /** Only the holder of the upload token reads a frame. */
  lemma ReaderHolds(f: Front, h: nat)
    requires TokenOk(f.handlers, f.uploads, f.other) && h in f.handlers && Holding(f.handlers[h].stage)
    ensures forall x | x in f.handlers && Holding(f.handlers[x].stage) :: x == h
  {
  }

  lemma SendMoves(f: Front, h: nat)
    requires FrontInv(f) && h in f.handlers && f.handlers[h].stage == Reading && f.handlers[h].req.handler == h && f.frames.None?
    ensures Moves(f, SetStage(f, h, Sent).(frames := Some(f.handlers[h].req)))
  {
    hide DesksOk, TokenOk, PipelineOk, Narrows, Retains;
    var g := SetStage(f, h, Sent).(frames := Some(f.handlers[h].req));
    ReaderHolds(f, h);
    SendPlaces(f, h, g);
    SendOrder(f, h, g);
    TokenFrame(f, g);
    DesksFrame(f, g);
  }

  lemma ReleaseMoves(f: Front, h: nat)
    requires FrontInv(f) && h in f.handlers && f.handlers[h].stage == Sent
    ensures Moves(f, SetStage(f, h, Waiting).(uploads := false))
  {
    hide DesksOk, TokenOk;
    var g := SetStage(f, h, Waiting).(uploads := false);
    TokenReturned(f, g, h);
    DesksFrame(f, g);
  }

  lemma CancelMoves(f: Front, ids: set<nat>)
    requires FrontInv(f)
    ensures Moves(f, f.(handlers := CancelAll(f.handlers, ids)))
  {
    hide DesksOk, TokenOk;
    var g := f.(handlers := CancelAll(f.handlers, ids));
    TokenFrame(f, g);
    DesksFrame(f, g);
  }

  lemma ReceiveMoves(f: Front, h: nat)
    requires FrontInv(f) && h in f.handlers && f.handlers[h].stage == Waiting && f.handlers[h].mailbox.Some?
    ensures Moves(f, f.(handlers := f.handlers[h := f.handlers[h].(stage := Replied, mailbox := None)]))
  {
    hide DesksOk, TokenOk;
    var g := f.(handlers := f.handlers[h := f.handlers[h].(stage := Replied, mailbox := None)]);
    TokenFrame(f, g);
    DesksFrame(f, g);
  }

  lemma LeaveMoves(f: Front, h: nat)
    requires FrontInv(f) && h in f.handlers && f.handlers[h].stage == Leaving
    ensures Moves(f, f.(handlers := f.handlers - {h}, uploads := false))
  {
    hide DesksOk, TokenOk;
    var g := f.(handlers := f.handlers - {h}, uploads := false);
    TokenReturned(f, g, h);
    DesksShrink(f.desks, f.handlers, h);
  }

  lemma DequeueMoves(f: Front)
    requires FrontInv(f) && f.worker == Idle && f.frames.Some?
    ensures Moves(f, f.(worker := Running(f.frames.value), frames := None))
  {
    hide DesksOk, TokenOk;
  }

  lemma FinishRunMoves(f: Front, reply: Reply)
    requires FrontInv(f) && f.worker.Running?
    ensures Moves(f, f.(worker := Responding(f.worker.req, reply)))
  {
    hide DesksOk, TokenOk;
  }

  lemma RespondPlaces(f: Front, h: nat, g: Front)
    requires PipelineOk(f.handlers, f.frames, f.worker) && f.worker.Responding? && h == f.worker.req.handler
    requires h in f.handlers
    requires g == f.(handlers := f.handlers[h := f.handlers[h].(mailbox := Some(f.worker.reply))], worker := Idle)
    ensures PipelineOk(g.handlers, g.frames, g.worker) && Retains(f, g)
  {
    assert PlaceOk(f.frames, f.worker, h, f.handlers[h]);
  }

  lemma RespondMoves(f: Front)
    requires FrontInv(f) && f.worker.Responding?
    ensures var h := f.worker.req.handler;
            h in f.handlers
            && Moves(f, f.(handlers := f.handlers[h := f.handlers[h].(mailbox := Some(f.worker.reply))], worker := Idle))
  {
    hide DesksOk, TokenOk, PlaceOk, Retains, Admitted, Holding;
    var h := f.worker.req.handler;
    var g := f.(handlers := f.handlers[h := f.handlers[h].(mailbox := Some(f.worker.reply))], worker := Idle);
    RespondPlaces(f, h, g);
    TokenFrame(f, g);
    DesksFrame(f, g);
  }
}
