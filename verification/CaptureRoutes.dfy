/**
 The routes of a session, by their effect on its tracks: what is there after a session
 is created, finished or deleted, and after a take is stopped, with every number.
 */
module CaptureRoutes {
  import opened Wrappers
  import opened CaptureModel
  import opened CaptureInvariant
  import opened CaptureStore
  import opened CaptureTracks
  import opened CaptureRuns
  import opened CaptureStranded

  /** The tracks of `objs'` are those of `objs`, except for `changed`. */
  predicate OthersSame(objs: map<nat, Track>, objs': map<nat, Track>, changed: set<nat>) {
    forall t | t in objs && t !in changed :: t in objs' && objs'[t] == objs[t]
  }

  // ----- the end of a take

  /** Session `t` and its take `k` once the take has ended in `phase`: if the track file
      could not be written, the take stays attached to its session. */
  predicate Ended(s: Store, s': Store, t: nat, k: nat, phase: Phase, saved: bool) {
    && k in s.objs && t in s.objs && k in s'.objs && t in s'.objs
    && s'.objs[k] == s.objs[k].(phase := phase)
    && s'.objs[t] == s.objs[t].(recording := if saved then None else Some(k))
    && OthersSame(s.objs, s'.objs, {t, k}) && s'.objs.Keys == s.objs.Keys
    && s'.tracks == s.tracks && s'.dirs == s.dirs && s'.poses == s.poses
  }

  lemma TakeEnded(s: Store, t: nat, k: nat, phase: Phase, saveOk: bool)
    requires StoreInv(s) && RecordingsAllocated(s) && Attached(s.objs, t, k)
    ensures Ended(s, FinishRecording(s, t, phase, saveOk).0, t, k, phase, saveOk && k in s.dirs)
    ensures FinishRecording(s, t, phase, saveOk).1 <==> saveOk && k in s.dirs
  {
    hide FilesOk, SamplesOk, TracksOk;
    assert AttachedOk(s.objs, s.tracks, t);
  }

  /** Stopping a take completes it and lets the session go on without it; without a take
      there is nothing to stop. */
  lemma TakeStopped(s: State, t: nat, saveOk: bool)
    requires Inv(s) && Enabled(s, RecordStop(t, saveOk))
    ensures var s' := Step(s, RecordStop(t, saveOk));
            && s'.front == s.front && s'.now == s.now && s'.queue == s.queue
            && if t in s.store.tracks && t in s.store.objs && s.store.objs[t].recording.Some? then
                 var k := s.store.objs[t].recording.value;
                 Ended(s.store, s'.store, t, k, Complete, saveOk && k in s.store.dirs)
               else s'.store == s.store
  {
    hide FrontInv, LinkInv, StoreInv, FinishRecording, Ended;
    if t in s.store.tracks && s.store.objs[t].recording.Some? {
      TakeEnded(s.store, t, s.store.objs[t].recording.value, Complete, saveOk);
    }
  }

  // ----- the end of a session

  /** A session's frames are those that were admitted to it and are still on their way. */
  predicate OnItsWay(f: Front, h: nat, t: nat) {
    h in f.handlers && Admitted(f.handlers[h].stage) && f.handlers[h].req.session == t
  }

  /** The contexts of the session's frames are ended, and no others. */
  predicate Interrupts(f: Front, f': Front, t: nat) {
    && f'.handlers.Keys == f.handlers.Keys
    && (forall h | h in f.handlers ::
          f'.handlers[h] == f.handlers[h].(cancelled := f.handlers[h].cancelled || OnItsWay(f, h, t)))
    && f' == f.(handlers := f'.handlers)
  }

  lemma AllInterrupted(f: Front, t: nat)
    requires FrontInv(f) && t in f.desks
    ensures Interrupts(f, f.(handlers := CancelAll(f.handlers, f.desks[t].cancels.Values)), t)
  {
    hide TokenOk, PipelineOk;
    forall h | h in f.handlers ensures h in f.desks[t].cancels.Values <==> OnItsWay(f, h, t) {
      assert HandlerOk(f.desks, h, f.handlers[h]);
      assert DeskOk(f.handlers, t, f.desks[t]);
      if h in f.desks[t].cancels.Values {
        var i :| i in f.desks[t].cancels && f.desks[t].cancels[i] == h;
        assert CancelOk(f.handlers, t, i, h);
      }
    }
  }

  /** The store after a session has ended: it is complete, and a live one is gone. */
  predicate Closed(s: Store, s': Store, t: nat) {
    && t in s.objs && t in s'.objs
    && s'.objs[t] == s.objs[t].(phase := Complete)
    && OthersSame(s.objs, s'.objs, {t}) && s'.objs.Keys == s.objs.Keys
    && s'.tracks == (if s.objs[t].mode == Live then s.tracks - {t} else s.tracks)
    && s'.dirs == s.dirs && s'.poses == s.poses
  }

  /** Finishing a session first completes its take.  If that cannot be saved, the session
      goes on; otherwise it is complete, a live one leaves the table, and the contexts
      of exactly its own frames end.  A take cannot be finished this way. */
  lemma SessionFinished(s: State, t: nat, takeSaveOk: bool, saveOk: bool)
    requires Inv(s) && Enabled(s, Finish(t, takeSaveOk, saveOk))
    ensures var s' := Step(s, Finish(t, takeSaveOk, saveOk));
            if !(t in s.store.tracks && t in s.store.objs && s.store.objs[t].mode != Take) then s' == s
            else if s.store.objs[t].recording == None then
              Closed(s.store, s'.store, t) && Interrupts(s.front, s'.front, t)
            else
              var k := s.store.objs[t].recording.value;
              if takeSaveOk && k in s.store.dirs then
                && Interrupts(s.front, s'.front, t)
                && exists s1 :: Ended(s.store, s1, t, k, Complete, true) && Closed(s1, s'.store, t)
              else s'.front == s.front && Ended(s.store, s'.store, t, k, Complete, false)
  {
    hide FrontInv, LinkInv, StoreInv, FinishRecording, Ended, Closed, Interrupts, CancelAll;
    var s' := Step(s, Finish(t, takeSaveOk, saveOk));
    if t in s.store.tracks && s.store.objs[t].mode != Take {
      DeskThere(s, t);
      AllInterrupted(s.front, t);
      if s.store.objs[t].recording.None? {
        NoTake(s.store, t, takeSaveOk);
        SessionClosed(s.store, t, saveOk);
      } else {
        var k := s.store.objs[t].recording.value;
        TakeEnded(s.store, t, k, Complete, takeSaveOk);
        var s1 := FinishRecording(s.store, t, Complete, takeSaveOk).0;
        if takeSaveOk && k in s.store.dirs {
          EndedLive(s.store, s1, t, k);
          SessionClosed(s1, t, saveOk);
        }
      }
    }
  }

  lemma DeskThere(s: State, t: nat)
    requires Inv(s) && t in s.store.objs
    ensures t in s.front.desks && FrontInv(s.front)
  {
    hide FrontInv, StoreInv;
  }

  lemma NoTake(s: Store, t: nat, saveOk: bool)
    requires RecordingsAllocated(s) && t in s.objs && s.objs[t].recording.None?
    ensures FinishRecording(s, t, Complete, saveOk) == (s, true)
  {
  }

  lemma EndedLive(s: Store, s': Store, t: nat, k: nat)
    requires StoreInv(s) && Attached(s.objs, t, k) && Ended(s, s', t, k, Complete, true)
    ensures t in s'.objs && s'.objs[t].mode == s.objs[t].mode == Live
  {
    hide FilesOk, SamplesOk, TracksOk;
    assert AttachedOk(s.objs, s.tracks, t);
  }

  lemma SessionClosed(s: Store, t: nat, saveOk: bool)
    requires t in s.objs
    ensures var s1 := s.(objs := s.objs[t := s.objs[t].(phase := Complete)]);
            Closed(s, if Saves(s1, t, saveOk) && s1.objs[t].mode == Live then s1.(tracks := s1.tracks - {t}) else s1, t)
  {
  }

  // ----- deletion

  /** A saved track that neither records nor has frames on their way is deleted with its
      directory and every pose; if that fails it stays, and so does every other track. */
  lemma TrackDeleted(s: State, id: nat, removeOk: bool, lost: set<nat>)
    requires Inv(s) && Enabled(s, Delete(id, removeOk, lost))
    ensures var s' := Step(s, Delete(id, removeOk, lost));
            && s'.front == s.front && s'.store.objs == s.store.objs
            && if id in s.store.tracks && id in s.store.objs && id in s.front.desks && s.store.objs[id].mode != Live
                  && s.store.objs[id].phase != Recording && s.front.desks[id].inflight == 0 then
                 && s'.store.tracks == (if removeOk then s.store.tracks - {id} else s.store.tracks)
                 && s'.store.dirs == (if removeOk then s.store.dirs - {id} else s.store.dirs)
                 && forall p :: p in s'.store.poses <==>
                      p in s.store.poses && !(p.0 == id && (removeOk || p.1 in lost))
               else s'.store == s.store
    ensures forall p | p in s.store.poses && p in Step(s, Delete(id, removeOk, lost)).store.poses ::
              Step(s, Delete(id, removeOk, lost)).store.poses[p] == s.store.poses[p]
  {
    hide LinkInv, StoreInv, TokenOk, PipelineOk, LosesSample;
    if id in s.store.tracks && s.store.objs[id].mode != Live {
      assert DeskOk(s.front.handlers, id, s.front.desks[id]);
    }
  }

  // ----- the sweep, and a new session

  /** The sessions a sweep ends: live, without a frame on its way, and without an
      admission for more than a minute. */
  function Idle(s: State): set<nat> {
    set t | t in s.store.tracks && t in s.store.objs && t in s.front.desks && s.store.objs[t].mode == Live
            && s.front.desks[t].inflight == 0 && s.now - s.front.desks[t].last > 60.0
  }

  ghost predicate TakeOfOne(objs: map<nat, Track>, gone: set<nat>, k: nat) {
    exists t :: t in gone && Attached(objs, t, k)
  }

  /** What a sweep makes of track `x`: a session that goes loses its take, and such a
      take is interrupted. */
  ghost predicate SweptTrack(s: Store, s': Store, gone: set<nat>, x: nat)
    requires x in s.objs && x in s'.objs
  {
    s'.objs[x] ==
    if x in gone then s.objs[x].(recording := None)
    else if TakeOfOne(s.objs, gone, x) then s.objs[x].(phase := Interrupted)
    else s.objs[x]
  }

  /** A sweep takes exactly the sessions `gone` out of the table. */
  ghost predicate Swept(s: Store, s': Store, gone: set<nat>) {
    && s'.objs.Keys == s.objs.Keys && (forall x | x in s.objs :: SweptTrack(s, s', gone, x))
    && s'.tracks == s.tracks - gone && s'.dirs == s.dirs && s'.poses == s.poses
  }

  lemma NoneSwept(s: Store)
    ensures Swept(s, s, {})
  {
  }

  /** One session ends, with its take if it has one. */
  lemma OneSwept(s: Store, x: nat, saveOk: bool)
    requires StoreInv(s) && RecordingsAllocated(s) && x in s.objs && s.objs[x].mode == Live
    requires FinishRecording(s, x, Interrupted, saveOk).1
    ensures var s1 := FinishRecording(s, x, Interrupted, saveOk).0; Swept(s, s1.(tracks := s1.tracks - {x}), {x})
  {
    hide FilesOk, SamplesOk, TracksOk, FinishRecording;
    var s1 := FinishRecording(s, x, Interrupted, saveOk).0;
    var s2 := s1.(tracks := s1.tracks - {x});
    if s.objs[x].recording.None? {
      NoTakeToEnd(s, x, saveOk);
    } else {
      var k := s.objs[x].recording.value;
      TakeEnded(s, x, k, Interrupted, saveOk);
      assert AttachedOk(s.objs, s.tracks, x);
      assert Attached(s.objs, x, k) && TakeOfOne(s.objs, {x}, k);
    }
    forall y | y in s.objs ensures SweptTrack(s, s2, {x}, y) {
      assert TakeOfOne(s.objs, {x}, y) ==> Attached(s.objs, x, y);
    }
  }

  lemma NoTakeToEnd(s: Store, t: nat, saveOk: bool)
    requires RecordingsAllocated(s) && t in s.objs && s.objs[t].recording.None?
    ensures FinishRecording(s, t, Interrupted, saveOk) == (s, true)
  {
  }

  lemma SweptTwice(s: Store, s1: Store, s2: Store, x: nat, gone: set<nat>)
    requires StoreInv(s) && Swept(s, s1, {x}) && Swept(s1, s2, gone)
    requires forall t | t in gone + {x} :: t in s.objs && s.objs[t].mode == Live
    ensures Swept(s, s2, gone + {x})
  {
    hide FilesOk, SamplesOk, TracksOk, SweptTrack;
    var all := gone + {x};
    forall y | y in s.objs ensures SweptTrack(s, s2, all, y) {
      TrackTwice(s, s1, s2, x, gone, y);
    }
    assert s2.tracks == s.tracks - all;
  }

  lemma TrackTwice(s: Store, s1: Store, s2: Store, x: nat, gone: set<nat>, y: nat)
    requires StoreInv(s) && Swept(s, s1, {x}) && Swept(s1, s2, gone) && y in s.objs
    requires forall t | t in gone + {x} :: t in s.objs && s.objs[t].mode == Live
    ensures SweptTrack(s, s2, gone + {x}, y)
  {
    hide FilesOk, SamplesOk, TracksOk, SweptTrack;
    var all := gone + {x};
    assert SweptTrack(s, s1, {x}, y) && SweptTrack(s1, s2, gone, y);
    forall t | t in s.objs ensures SweptTrack(s, s1, {x}, t) {
    }
    AttachedLater(s, s1, x, gone, y);
    if TakeOfOne(s.objs, all, y) {
      var t :| t in all && Attached(s.objs, t, y);
      assert AttachedOk(s.objs, s.tracks, t);
      assert y !in all;
    }
    hide Attached, RecordingOk, StoreInv, Swept, TakeOfOne;
    TrackBoth(s, s1, s2, x, gone, y);
  }

  lemma AttachedLater(s: Store, s1: Store, x: nat, gone: set<nat>, y: nat)
    requires StoreInv(s) && Swept(s, s1, {x})
    ensures TakeOfOne(s.objs, gone + {x}, y) <==> TakeOfOne(s.objs, {x}, y) || TakeOfOne(s1.objs, gone, y)
    ensures TakeOfOne(s.objs, {x}, y) ==> !TakeOfOne(s1.objs, gone, y)
  {
    hide FilesOk, SamplesOk, TracksOk;
    forall t ensures Attached(s1.objs, t, y) <==> Attached(s.objs, t, y) && t != x {
      if t in s.objs {
        assert SweptTrack(s, s1, {x}, t);
      }
    }
    if TakeOfOne(s1.objs, gone, y) {
      var t :| t in gone && Attached(s1.objs, t, y);
      assert Attached(s.objs, t, y) && t in gone + {x};
      assert !Attached(s.objs, x, y);
    }
    if TakeOfOne(s.objs, gone + {x}, y) {
      var t :| t in gone + {x} && Attached(s.objs, t, y);
      assert t in {x} || Attached(s1.objs, t, y);
    }
    if TakeOfOne(s.objs, {x}, y) {
      assert x in gone + {x} && Attached(s.objs, x, y);
    }
  }

  lemma TrackBoth(s: Store, s1: Store, s2: Store, x: nat, gone: set<nat>, y: nat)
    requires y in s.objs && y in s1.objs && y in s2.objs
    requires SweptTrack(s, s1, {x}, y) && SweptTrack(s1, s2, gone, y)
    requires TakeOfOne(s.objs, gone + {x}, y) <==> TakeOfOne(s.objs, {x}, y) || TakeOfOne(s1.objs, gone, y)
    requires TakeOfOne(s.objs, {x}, y) ==> !TakeOfOne(s1.objs, gone, y)
    requires TakeOfOne(s.objs, gone + {x}, y) ==> y !in gone + {x}
    ensures SweptTrack(s, s2, gone + {x}, y)
  {
    hide TakeOfOne;
  }

  /** A sweep that gets through removes exactly the expired sessions. */
  lemma {:induction false} SweepSwept(s: Store, desks: map<nat, Desk>, now: real, order: seq<nat>, saves: seq<bool>)
    requires |order| == |saves| && RecordingsAllocated(s) && StoreInv(s)
    requires forall i | 0 <= i < |order| :: order[i] in s.objs && order[i] in desks
    requires Sweep(s, desks, now, order, saves).1
    ensures Swept(s, Sweep(s, desks, now, order, saves).0, ExpiredIn(s, desks, now, order))
    decreases |order|
  {
    hide StoreInv, FinishRecording, Swept;
    if order == [] {
      NoneSwept(s);
      assert ExpiredIn(s, desks, now, order) == {};
    } else {
      var x := order[0];
      if Expired(s, desks, x, now) {
        FinishKept(s, x, Interrupted, saves[0]);
        var s1 := FinishRecording(s, x, Interrupted, saves[0]).0;
        KeptModes(s.objs, s1.objs);
        DropSessionKeeps(s1, x);
        hide SessionsKept;
        OneSwept(s, x, saves[0]);
        var s2 := s1.(tracks := s1.tracks - {x});
        SweepSwept(s2, desks, now, order[1..], saves[1..]);
        ExpiredHead(s, s2, desks, now, order);
        SweptTwice(s, s2, Sweep(s2, desks, now, order[1..], saves[1..]).0, x, ExpiredIn(s2, desks, now, order[1..]));
      } else {
        SweepSwept(s, desks, now, order[1..], saves[1..]);
        ExpiredHead(s, s, desks, now, order);
        assert ExpiredIn(s, desks, now, order) == ExpiredIn(s, desks, now, order[1..]);
      }
    }
  }

  lemma IdleExpired(s: State)
    requires Inv(s)
    ensures Idle(s) == Abandoned(s)
  {
    hide LinkInv, StoreInv, TokenOk, PipelineOk;
    forall t | t in s.front.desks ensures DeskOk(s.front.handlers, t, s.front.desks[t]) {
    }
  }

  /** There is room: at most three live sessions stay, and a video needs a place among
      the saved tracks. */
  predicate Room(s: State, mode: Mode) {
    |LiveIn(s.store) - Idle(s)| < 4 && (mode == Offline ==> |SavedIn(s.store)| < s.maxJobs)
  }

  /** The new track is there: empty, and recording at its rate.  Only a video has a directory. */
  predicate Opened(s: Store, s': Store, id: nat, mode: Mode, hz: real) {
    && s'.objs == s.objs[id := Track(mode, hz, Recording, [], 0, 0.0, None, 0.0)]
    && s'.tracks == s.tracks + {id} && s'.poses == s.poses
    && s'.dirs == if mode == Offline then s.dirs + {id} else s.dirs
  }

  lemma TrackOpened(s: Store, id: nat, mode: Mode, hz: real)
    requires mode != Take
    ensures Opened(s, AddTrack(s, id, NewTrack(mode, hz, 0.0)), id, mode, hz)
  {
  }

  /** A session or video is created exactly if its rate is between 1 and 30, every take
      of an idle session can be saved, there is room, and its files can be made.  Then
      the idle sessions are gone and it is there: empty, recording at the rate asked
      for, just seen, without a frame, and only a video has a directory.  Otherwise
      there is no new track. */
  lemma SessionCreated(s: State, id: nat, mode: Mode, hz: real, io: CreateIo)
    requires Inv(s) && Enabled(s, Create(id, mode, hz, io))
    ensures var s' := Step(s, Create(id, mode, hz, io));
            if && (mode == Offline || mode == Live) && 1.0 <= hz <= 30.0
               && AllSave(s.store, s.front.desks, s.now, io.order, io.saves)
               && Room(s, mode) && io.storageOk && (mode == Offline ==> io.dirOk && io.saveOk)
            then
              && (exists s1 :: Swept(s.store, s1, Idle(s)) && Opened(s1, s'.store, id, mode, hz))
              && s'.front == s.front.(desks := s.front.desks[id := Desk(false, s.now, 0.0, 0, 0, map[])])
            else s'.front == s.front && id !in s'.store.objs
  {
    hide FrontInv, LinkInv, StoreInv, Sweep, Swept, AllSave, LiveIn, SavedIn, Opened, AddTrack, NewTrack;
    CreateCondition(s, id, mode, hz, io);
    IdleExpired(s);
    SweepPasses(s.store, s.front.desks, s.now, io.order, io.saves);
    SweepShallow(s.store, s.front.desks, s.now, io.order, io.saves);
    ghost var s1 := Sweep(s.store, s.front.desks, s.now, io.order, io.saves).0;
    if Sweep(s.store, s.front.desks, s.now, io.order, io.saves).1 {
      SweepSwept(s.store, s.front.desks, s.now, io.order, io.saves);
      WholeTable(s.store, s.front.desks, s.now, io.order);
      assert Swept(s.store, s1, Idle(s));
      if mode != Take {
        TrackOpened(s1, id, mode, hz);
      }
    }
  }
}
