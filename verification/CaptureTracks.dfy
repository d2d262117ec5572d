/**
 The routes that create, record, stop, finish, expire and delete tracks keep the
 invariant, whatever their file operations do.
 */
module CaptureTracks {
  import opened Wrappers
  import opened CaptureModel
  import Sets
  import opened CaptureInvariant
  import opened CaptureStore
  import CaptureAdmission

  // ----- framing: what the frame handlers rely on

  /** The sessions of `objs` survive in `objs'` with their clocks, and a take that
      still records is still attached to its session. */
  ghost predicate SessionsKept(objs: map<nat, Track>, objs': map<nat, Track>) {
    && (forall t | t in objs :: t in objs' && TrackKept(objs[t], objs'[t]))
    && (forall t, k | Attached(objs, t, k) && k in objs && k in objs' && objs'[k].phase == Recording :: Attached(objs', t, k))
  }

  predicate TrackKept(o: Track, o': Track) {
    && o'.mode == o.mode && o'.hz == o.hz && o'.start == o.start
    && (o.mode != Take ==> o'.count == o.count && o'.lastTime == o.lastTime)
    && (o'.phase == Recording ==> o.phase == Recording)
  }

  lemma KeptTwice(a: map<nat, Track>, b: map<nat, Track>, c: map<nat, Track>)
    requires SessionsKept(a, b) && SessionsKept(b, c)
    ensures SessionsKept(a, c)
  {
    forall t, k | Attached(a, t, k) && k in a && k in c && c[k].phase == Recording ensures Attached(c, t, k) {
      assert TrackKept(b[k], c[k]);
      assert Attached(b, t, k);
    }
  }

  /** New admission records belong to no handler yet. */
  ghost predicate DesksAdded(f: Front, g: Front) {
    && g == f.(desks := g.desks)
    && (forall t | t in f.desks :: t in g.desks && g.desks[t] == f.desks[t])
    && (forall t | t in g.desks && t !in f.desks :: g.desks[t].inflight == 0 && g.desks[t].cancels == map[] && !g.desks[t].busy)
  }

  lemma FrontGrows(f: Front, g: Front)
    requires FrontInv(f) && DesksAdded(f, g)
    ensures FrontInv(g)
  {
    hide TokenOk, PipelineOk;
  }

  lemma OrderKept(objs: map<nat, Track>, objs': map<nat, Track>, f: Front, g: Front)
    requires OrderOk(objs, f) && SessionsKept(objs, objs') && DesksAdded(f, g)
    requires forall h | Pending(f, h) :: f.handlers[h].req.session in objs && f.handlers[h].req.session in f.desks && objs[f.handlers[h].req.session].mode != Take
    ensures OrderOk(objs', g)
  {
    forall h1, h2 | Pending(g, h1) && Pending(g, h2) && g.handlers[h1].req.session == g.handlers[h2].req.session
                    && Rank(g, h1) < Rank(g, h2)
      ensures SpacedPair(g, objs', h1, h2)
    {
      assert SpacedPair(f, objs, h1, h2);
      assert Pending(f, h1);
    }
  }

  /** Admission stages are the only ones a pending frame can be in. */
  lemma PendingAdmitted(f: Front)
    requires PipelineOk(f.handlers, f.frames, f.worker)
    ensures forall h | Pending(f, h) :: Admitted(f.handlers[h].stage)
  {
    forall h | Pending(f, h) ensures Admitted(f.handlers[h].stage) {
      assert PlaceOk(f.frames, f.worker, h, f.handlers[h]);
    }
  }

  lemma LimitsKept(objs: map<nat, Track>, objs': map<nat, Track>, f: Front, g: Front)
    requires SessionsKept(objs, objs') && DesksAdded(f, g) && g.desks.Keys == objs'.Keys && f.desks.Keys == objs.Keys
    requires forall t | t in objs :: LimitsOk(objs[t], f.desks[t])
    ensures forall t | t in objs' :: LimitsOk(objs'[t], g.desks[t])
  {
    forall t | t in objs' ensures LimitsOk(objs'[t], g.desks[t]) {
      if t in objs { assert LimitsOk(objs[t], f.desks[t]) && TrackKept(objs[t], objs'[t]); }
    }
  }

  lemma RequestKept(objs: map<nat, Track>, objs': map<nat, Track>, r: Request)
    requires SessionsKept(objs, objs') && RequestOk(objs, r)
    ensures RequestOk(objs', r)
  {
    assert TrackKept(objs[r.session], objs'[r.session]);
    if r.take.Some? {
      var k := r.take.value;
      assert TrackKept(objs[k], objs'[k]);
      if objs'[k].phase == Recording {
        assert Attached(objs, r.session, k);
      }
    }
  }

  lemma LinkKept(objs: map<nat, Track>, objs': map<nat, Track>, f: Front, g: Front)
    requires FrontInv(f) && LinkInv(objs, f) && SessionsKept(objs, objs') && DesksAdded(f, g) && g.desks.Keys == objs'.Keys
    ensures LinkInv(objs', g)
  {
    hide TokenOk, DesksOk, PipelineOk, OrderOk, SessionsKept, TakeOk, LimitsOk;
    PendingAdmitted(f);
    OrderKept(objs, objs', f, g);
    LimitsKept(objs, objs', f, g);
    forall h | h in g.handlers && Admitted(g.handlers[h].stage) ensures RequestOk(objs', g.handlers[h].req) {
      RequestKept(objs, objs', f.handlers[h].req);
    }
  }

  lemma StoreMoveKeeps(s: State, store: Store, g: Front)
    requires Inv(s) && StoreInv(store) && SessionsKept(s.store.objs, store.objs)
    requires DesksAdded(s.front, g) && g.desks.Keys == store.objs.Keys
    ensures Inv(s.(store := store, front := g))
  {
    hide StoreInv;
    FrontGrows(s.front, g);
    LinkKept(s.store.objs, store.objs, s.front, g);
  }

  // ----- finishing, stopping

  lemma EndedKept(objs: map<nat, Track>, session: nat, k: nat, phase: Phase, saved: bool)
    requires Attached(objs, session, k) && k in objs && k != session && phase != Recording
    ensures SessionsKept(objs, Ended(objs, session, k, phase, saved))
  {
  }

  lemma FinishFrame(s: Store, session: nat, phase: Phase, saveOk: bool)
    requires RecordingsAllocated(s) && session in s.objs
    ensures var s' := FinishRecording(s, session, phase, saveOk).0;
            s'.objs.Keys == s.objs.Keys && RecordingsAllocated(s') && s'.tracks == s.tracks
  {
  }

  lemma FinishSessions(s: Store, session: nat, phase: Phase, saveOk: bool)
    requires RecordingOk(s.objs, s.tracks) && RecordingsAllocated(s) && session in s.objs && phase != Recording
    ensures SessionsKept(s.objs, FinishRecording(s, session, phase, saveOk).0.objs)
  {
    hide RecordingOk, SessionsKept;
    KeptSame(s.objs);
    if s.objs[session].recording.Some? {
      FinishShape(s, session, phase, saveOk);
      EndedKept(s.objs, session, s.objs[session].recording.value, phase, FinishRecording(s, session, phase, saveOk).1);
    }
  }

  lemma FinishKept(s: Store, session: nat, phase: Phase, saveOk: bool)
    requires StoreInv(s) && RecordingsAllocated(s) && session in s.objs && phase != Recording
    ensures var (s', ok) := FinishRecording(s, session, phase, saveOk);
            && StoreInv(s') && SessionsKept(s.objs, s'.objs) && s'.objs.Keys == s.objs.Keys
            && RecordingsAllocated(s') && s'.tracks == s.tracks
            && (ok ==> s'.objs[session].recording.None?)
  {
    hide StoreInv, RecordingOk, SessionsKept, RecordingsAllocated, FinishRecording;
    Owners(s);
    FinishKeeps(s, session, phase, saveOk);
    FinishFrame(s, session, phase, saveOk);
    FinishSessions(s, session, phase, saveOk);
  }

  lemma StopKeeps(s: Store, session: nat, saveOk: bool)
    requires StoreInv(s) && RecordingsAllocated(s)
    ensures var s' := StopTake(s, session, saveOk); StoreInv(s') && SessionsKept(s.objs, s'.objs) && s'.objs.Keys == s.objs.Keys
  {
    if session in s.tracks {
      FinishKept(s, session, Complete, saveOk);
    }
  }

  lemma EndPhaseKept(objs: map<nat, Track>, t: nat)
    requires t in objs
    ensures SessionsKept(objs, objs[t := objs[t].(phase := Complete)])
  {
  }

  lemma FinishTrackKeeps(s: Store, session: nat, takeSaveOk: bool, saveOk: bool)
    requires StoreInv(s) && RecordingsAllocated(s)
    ensures var (s', ended) := FinishTrack(s, session, takeSaveOk, saveOk);
            && StoreInv(s') && SessionsKept(s.objs, s'.objs) && s'.objs.Keys == s.objs.Keys
            && (ended ==> session in s.objs)
  {
    hide TracksOk, RecordingOk, FilesOk, SamplesOk, SessionsKept;
    assert s.tracks <= s.objs.Keys by { Listed(s); }
    if session in s.tracks && s.objs[session].mode != Take {
      FinishKept(s, session, Complete, takeSaveOk);
      var (s1, ok) := FinishRecording(s, session, Complete, takeSaveOk);
      assert s1.objs[session].mode == s.objs[session].mode by { KeptMode(s.objs, s1.objs, session); }
      if ok {
        EndPhaseKeeps(s1, session);
        EndPhaseKept(s1.objs, session);
        var s2 := s1.(objs := s1.objs[session := s1.objs[session].(phase := Complete)]);
        KeptTwice(s.objs, s1.objs, s2.objs);
        if s2.objs[session].mode == Live {
          DropSessionKeeps(s2, session);
        }
      }
    } else {
      assert SessionsKept(s.objs, s.objs) by { KeptSame(s.objs); }
    }
  }

  lemma Listed(s: Store)
    requires TracksOk(s.objs, s.tracks, s.dirs)
    ensures s.tracks <= s.objs.Keys
  {
  }

  lemma KeptSame(objs: map<nat, Track>)
    ensures SessionsKept(objs, objs)
  {
  }

  lemma KeptMode(objs: map<nat, Track>, objs': map<nat, Track>, t: nat)
    requires SessionsKept(objs, objs') && t in objs
    ensures t in objs' && objs'[t].mode == objs[t].mode && objs'[t].hz == objs[t].hz
  {
  }

  // ----- the sweep of abandoned sessions

  lemma SweepKeeps(s: Store, desks: map<nat, Desk>, now: real, order: seq<nat>, saves: seq<bool>)
    requires |order| == |saves| && RecordingsAllocated(s) && StoreInv(s)
    requires forall i | 0 <= i < |order| :: order[i] in s.objs && order[i] in desks
    ensures var s' := Sweep(s, desks, now, order, saves).0;
            StoreInv(s') && SessionsKept(s.objs, s'.objs) && s'.objs.Keys == s.objs.Keys
    decreases |order|
  {
    hide StoreInv, SessionsKept;
    if order == [] {
      KeptSame(s.objs);
    } else {
      var t := order[0];
      if Expired(s, desks, t, now) {
        FinishKept(s, t, Interrupted, saves[0]);
        var (s1, ok) := FinishRecording(s, t, Interrupted, saves[0]);
        if ok {
          KeptMode(s.objs, s1.objs, t);
          DropSessionKeeps(s1, t);
          var s2 := s1.(tracks := s1.tracks - {t});
          SweepKeeps(s2, desks, now, order[1..], saves[1..]);
          KeptTwice(s.objs, s2.objs, Sweep(s2, desks, now, order[1..], saves[1..]).0.objs);
        }
      } else {
        SweepKeeps(s, desks, now, order[1..], saves[1..]);
      }
    }
  }

  // ----- new tracks

  lemma AddedOwners(objs: map<nat, Track>, tracks: set<nat>, id: nat, t: Track)
    requires RecordingOk(objs, tracks) && id !in objs && t.recording.None? && t.mode != Take
    ensures RecordingOk(objs[id := t], tracks + {id})
  {
    var objs' := objs[id := t];
    forall j | j in objs' && objs'[j].recording.Some? ensures AttachedOk(objs', tracks + {id}, j) {
      assert AttachedOk(objs, tracks, j);
    }
    forall j | j in objs' && objs'[j].mode == Take && objs'[j].phase == Recording
      ensures exists x :: Attached(objs', x, j)
    {
      var x :| Attached(objs, x, j);
      assert Attached(objs', x, j);
    }
    forall t1, t2, j | Attached(objs', t1, j) && Attached(objs', t2, j) ensures t1 == t2 {
      assert Attached(objs, t1, j) && Attached(objs, t2, j);
    }
  }

  lemma AddedSamples(objs: map<nat, Track>, tracks: set<nat>, dirty: set<nat>, id: nat, t: Track)
    requires SamplesOk(objs, dirty) && RecordingOk(objs, tracks) && id !in objs
    requires t.recording.None? && t.samples == [] && 1.0 <= t.hz <= 30.0
    ensures SamplesOk(objs[id := t], dirty)
  {
    var objs' := objs[id := t];
    forall x, k | Attached(objs', x, k) && k in objs' && k !in dirty ensures TakeClockOk(objs'[x], objs'[k]) {
      assert Attached(objs, x, k);
      assert AttachedOk(objs, tracks, x);
    }
  }

  lemma AddedFiles(s: Store, id: nat, t: Track)
    requires TracksOk(s.objs, s.tracks, s.dirs) && FilesOk(s) && id !in s.objs
    requires t.samples == [] && t.count == 0 && t.mode != Take && t.recording.None? && 1.0 <= t.hz <= 30.0
    ensures var s' := AddTrack(s, id, t);
            TracksOk(s'.objs, s'.tracks, s'.dirs) && FilesOk(s') && LiveIn(s') <= LiveIn(s) + {id}
  {
  }

  lemma AddedKept(objs: map<nat, Track>, id: nat, t: Track)
    requires id !in objs
    ensures SessionsKept(objs, objs[id := t])
  {
  }

  lemma AddTrackKeeps(s: Store, id: nat, mode: Mode, hz: real)
    requires StoreInv(s) && id !in s.objs && id !in s.dirs && mode != Take && 1.0 <= hz <= 30.0
    requires |LiveIn(s)| < MAX_LIVE_SESSIONS
    ensures StoreInv(AddTrack(s, id, NewTrack(mode, hz, 0.0)))
    ensures SessionsKept(s.objs, AddTrack(s, id, NewTrack(mode, hz, 0.0)).objs)
  {
    hide RecordingOk, SamplesOk, FilesOk, TracksOk, SessionsKept;
    var t := NewTrack(mode, hz, 0.0);
    var s' := AddTrack(s, id, t);
    AddedOwners(s.objs, s.tracks, id, t);
    AddedSamples(s.objs, s.tracks, s.dirty, id, t);
    AddedFiles(s, id, t);
    AddedKept(s.objs, id, t);
    Sets.SubsetSize(LiveIn(s'), LiveIn(s) + {id});
  }

  lemma CreateKeeps(s: State, id: nat, mode: Mode, hz: real, io: CreateIo)
    requires StoreInv(s.store) && RecordingsAllocated(s.store) && id !in s.store.objs && id !in s.store.dirs
    requires |io.order| == |io.saves|
    requires forall i | 0 <= i < |io.order| :: io.order[i] in s.store.objs && io.order[i] in s.front.desks
    ensures var (store, made) := CreateTrack(s, id, mode, hz, io);
            && StoreInv(store) && SessionsKept(s.store.objs, store.objs)
            && store.objs.Keys == s.store.objs.Keys + (if made then {id} else {})
  {
    hide StoreInv, SessionsKept;
    KeptSame(s.store.objs);
    if mode != Take && 1.0 <= hz <= 30.0 {
      SweepKeeps(s.store, s.front.desks, s.now, io.order, io.saves);
      SweepDirs(s.store, s.front.desks, s.now, io.order, io.saves);
      var (store, made) := CreateTrack(s, id, mode, hz, io);
      if made {
        var s1 := Sweep(s.store, s.front.desks, s.now, io.order, io.saves).0;
        AddTrackKeeps(s1, id, mode, hz);
        KeptTwice(s.store.objs, s1.objs, store.objs);
      }
    }
  }

  lemma SweepDirs(s: Store, desks: map<nat, Desk>, now: real, order: seq<nat>, saves: seq<bool>)
    requires |order| == |saves| && RecordingsAllocated(s)
    requires forall i | 0 <= i < |order| :: order[i] in s.objs && order[i] in desks
    ensures Sweep(s, desks, now, order, saves).0.dirs == s.dirs
    decreases |order|
  {
  }

  // ----- takes

  lemma StartOwners(objs: map<nat, Track>, tracks: set<nat>, session: nat, id: nat, t: Track)
    requires RecordingOk(objs, tracks) && id !in objs && session in objs && session in tracks
    requires objs[session].mode == Live && objs[session].phase == Recording && objs[session].recording.None?
    requires t.mode == Take && t.recording.None? && t.hz == objs[session].hz && t.start >= 0.0
    requires forall j, k | Attached(objs, j, k) :: k in objs
    ensures RecordingOk(objs[id := t][session := objs[session].(recording := Some(id))], tracks + {id})
  {
    var objs' := objs[id := t][session := objs[session].(recording := Some(id))];
    forall j | j in objs' && objs'[j].recording.Some? ensures AttachedOk(objs', tracks + {id}, j) {
      if j != session { assert AttachedOk(objs, tracks, j); }
    }
    forall j | j in objs' && objs'[j].mode == Take && objs'[j].phase == Recording
      ensures exists x :: Attached(objs', x, j)
    {
      if j == id {
        assert Attached(objs', session, id);
      } else {
        var x :| Attached(objs, x, j);
        assert Attached(objs', x, j);
      }
    }
    forall t1, t2, j | Attached(objs', t1, j) && Attached(objs', t2, j) ensures t1 == t2 {
      assert t1 == session || Attached(objs, t1, j);
      assert t2 == session || Attached(objs, t2, j);
    }
  }

  lemma StartSamples(objs: map<nat, Track>, dirty: set<nat>, session: nat, id: nat, t: Track)
    requires SamplesOk(objs, dirty) && id !in objs && session in objs && objs[session].recording.None? && objs[session].mode == Live
    requires t.mode == Take && t.recording.None? && t.samples == [] && 1.0 <= t.hz <= 30.0
    requires forall j, k | Attached(objs, j, k) :: k in objs
    ensures SamplesOk(objs[id := t][session := objs[session].(recording := Some(id))], dirty)
  {
    var objs' := objs[id := t][session := objs[session].(recording := Some(id))];
    forall x: nat, k: nat | Attached(objs', x, k) && k in objs' && k !in dirty ensures TakeClockOk(objs'[x], objs'[k]) {
      assert x == session || Attached(objs, x, k);
    }
  }

  lemma AttachedAllocated(s: Store)
    requires RecordingsAllocated(s)
    ensures forall j, k | Attached(s.objs, j, k) :: k in s.objs
  {
  }

  function WithTake(s: Store, session: nat, id: nat, t: Track): Store
    requires session in s.objs
  {
    var s1 := AddTrack(s, id, t);
    s1.(objs := s1.objs[session := s.objs[session].(recording := Some(id))])
  }

  lemma StartTracks(s: Store, session: nat, id: nat, t: Track)
    requires TracksOk(s.objs, s.tracks, s.dirs) && FilesOk(s) && id !in s.objs && session in s.objs && s.objs[session].mode == Live
    requires t.mode == Take && t.recording.None? && t.samples == [] && t.count == 0 && 1.0 <= t.hz <= 30.0
    ensures var s' := WithTake(s, session, id, t);
            TracksOk(s'.objs, s'.tracks, s'.dirs) && FilesOk(s') && LiveIn(s') == LiveIn(s)
  {
  }

  lemma StartKept(s: Store, session: nat, id: nat, t: Track)
    requires id !in s.objs && session in s.objs && s.objs[session].recording.None?
    ensures SessionsKept(s.objs, WithTake(s, session, id, t).objs)
  {
  }

  lemma StartKeeps(s: State, session: nat, id: nat, start: real, storageOk: bool, dirOk: bool, saveOk: bool)
    requires StoreInv(s.store) && RecordingsAllocated(s.store) && id !in s.store.objs && id !in s.store.dirs
    requires s.store.tracks <= s.store.objs.Keys
    ensures var (store, made) := StartTake(s, session, id, start, storageOk, dirOk, saveOk);
            && StoreInv(store) && SessionsKept(s.store.objs, store.objs)
            && store.objs.Keys == s.store.objs.Keys + (if made then {id} else {})
  {
    hide RecordingOk, SamplesOk, TracksOk, FilesOk, SessionsKept;
    var (store, made) := StartTake(s, session, id, start, storageOk, dirOk, saveOk);
    var objs := s.store.objs;
    if made {
      var t := NewTrack(Take, objs[session].hz, start);
      AttachedAllocated(s.store);
      CaptureAdmission.RateBounded(s.store, session);
      StartOwners(objs, s.store.tracks, session, id, t);
      StartSamples(objs, s.store.dirty, session, id, t);
      StartTracks(s.store, session, id, t);
      StartKept(s.store, session, id, t);
    } else {
      KeptSame(objs);
    }
  }

  // ----- deletion

  lemma DeleteOwners(objs: map<nat, Track>, tracks: set<nat>, id: nat)
    requires RecordingOk(objs, tracks) && id in objs && objs[id].mode != Live
    ensures RecordingOk(objs, tracks - {id})
  {
    forall j | j in objs && objs[j].recording.Some? ensures AttachedOk(objs, tracks - {id}, j) {
      assert AttachedOk(objs, tracks, j);
    }
  }

  lemma DeleteKeeps(s: Store, desks: map<nat, Desk>, id: nat, removeOk: bool, lost: set<nat>)
    requires StoreInv(s) && s.tracks <= s.objs.Keys <= desks.Keys
    ensures var s' := DeleteTrack(s, desks, id, removeOk, lost); StoreInv(s') && s'.objs == s.objs
  {
    var s' := DeleteTrack(s, desks, id, removeOk, lost);
    if s' != s {
      DeleteOwners(s.objs, s.tracks, id);
      hide RecordingOk, SamplesOk;
      LiveShrinks(s, s');
      assert FilesOk(s') by {
        forall t | t in s'.tracks && t in s'.objs && t !in s'.damaged ensures PosesOk(s'.poses, t, s'.objs[t].samples) {
          assert PosesOk(s.poses, t, s.objs[t].samples);
          assert removeOk || t != id || !LosesSample(s.objs[t], lost);
        }
      }
    }
  }
}
