/**
 The time of a take: it counts from the time its start was asked for, in every
 sample and along every run.
 */
module CaptureTakes {
  import opened Wrappers
  import opened CaptureModel
  import opened CaptureInvariant
  import opened CaptureTracks
  import opened CaptureCommit
  import opened CaptureRuns
  import opened CaptureSafety

  /** A take can be started: its time is within a day, the session is live, records and
      has no take yet, there is room for one more saved track, and its files can be made. */
  predicate Startable(s: State, session: nat, start: real, storageOk: bool, dirOk: bool, saveOk: bool) {
    && 0.0 <= start <= 86400.0
    && session in s.store.tracks && session in s.store.objs
    && s.store.objs[session].mode == Live && s.store.objs[session].phase == Recording && s.store.objs[session].recording.None?
    && |SavedIn(s.store)| < s.maxJobs && storageOk && dirOk && saveOk
  }

  /** The start of a take: exactly then there is a new, empty take that counts from the
      time asked for, at the session's rate, and it is what the session records;
      otherwise no track changes. */
  lemma TakeStarted(s: State, session: nat, id: nat, start: real, storageOk: bool, dirOk: bool, saveOk: bool)
    requires Enabled(s, RecordStart(session, id, start, storageOk, dirOk, saveOk))
    ensures var s' := Step(s, RecordStart(session, id, start, storageOk, dirOk, saveOk)).store;
            if Startable(s, session, start, storageOk, dirOk, saveOk) then
              && id in s'.objs && session in s'.objs && id in s'.tracks && id in s'.dirs
              && var o := s'.objs[id];
              && o.mode == Take && o.phase == Recording && o.samples == [] && o.count == 0
              && o.start == start && o.hz == s.store.objs[session].hz
              && s'.objs[session] == s.store.objs[session].(recording := Some(id))
              && s'.objs == s.store.objs[id := o][session := s'.objs[session]]
            else s' == s.store
  {
    hide RecordingsAllocated, SavedIn;
  }

  // ----- the start never changes

  lemma StartStands(s: State, e: Event, k: nat)
    requires Inv(s) && Enabled(s, e) && k in s.store.objs
    ensures k in Step(s, e).store.objs && Step(s, e).store.objs[k].start == s.store.objs[k].start
    ensures Step(s, e).store.objs[k].mode == s.store.objs[k].mode
  {
    hide Inv, Step, Enabled;
    EventClock(s, e);
    var objs, objs' := s.store.objs, Step(s, e).store.objs;
    if SessionsKept(objs, objs') {
      assert TrackKept(objs[k], objs'[k]);
    } else {
      var t := s.front.worker.req.session;
      assert TrackKept(objs[k], RolledBack(objs, objs', t)[k]);
    }
  }

  // ----- whose take it is

  /** The same tracks, and whatever a session records now it recorded before. */
  ghost predicate OwnersKept(objs: map<nat, Track>, objs': map<nat, Track>) {
    && objs'.Keys == objs.Keys
    && forall t | t in objs && objs'[t].recording.Some? :: objs[t].recording == objs'[t].recording
  }

  lemma OwnersSame(objs: map<nat, Track>)
    ensures OwnersKept(objs, objs)
  {
  }

  lemma OwnersTwice(a: map<nat, Track>, b: map<nat, Track>, c: map<nat, Track>)
    requires OwnersKept(a, b) && OwnersKept(b, c)
    ensures OwnersKept(a, c)
  {
  }

  lemma OwnersUpdated(objs: map<nat, Track>, t: nat, o: Track)
    requires t in objs && (o.recording.Some? ==> o.recording == objs[t].recording)
    ensures OwnersKept(objs, objs[t := o])
  {
  }

  lemma FinishOwners(s: Store, t: nat, phase: Phase, saveOk: bool)
    requires t in s.objs && RecordingsAllocated(s)
    ensures var s' := FinishRecording(s, t, phase, saveOk).0; OwnersKept(s.objs, s'.objs) && RecordingsAllocated(s')
  {
  }

  lemma {:induction false} SweepOwners(s: Store, desks: map<nat, Desk>, now: real, order: seq<nat>, saves: seq<bool>)
    requires |order| == |saves| && RecordingsAllocated(s)
    requires forall i | 0 <= i < |order| :: order[i] in s.objs && order[i] in desks
    ensures OwnersKept(s.objs, Sweep(s, desks, now, order, saves).0.objs)
    decreases |order|
  {
    OwnersSame(s.objs);
    if order != [] {
      FinishOwners(s, order[0], Interrupted, saves[0]);
      hide FinishRecording;
      if Expired(s, desks, order[0], now) {
        var (s1, ok) := FinishRecording(s, order[0], Interrupted, saves[0]);
        if ok { SweepOwners(s1.(tracks := s1.tracks - {order[0]}), desks, now, order[1..], saves[1..]); }
      } else {
        SweepOwners(s, desks, now, order[1..], saves[1..]);
      }
    }
  }

  lemma FileOwners(s: Store, t: nat, k: nat, time: real, saveOk: bool)
    requires t in s.objs && k in s.objs && RecordingsAllocated(s)
    ensures OwnersKept(s.objs, FileSample(s, t, k, time, saveOk).0.objs)
  {
    hide FinishRecording, OwnersKept;
    var s1 := AddSample(s, k, time);
    OwnersUpdated(s.objs, k, s1.objs[k]);
    FinishOwners(s1, t, Complete, saveOk);
    if s1.objs[k].count >= MAX_TRACK_FRAMES {
      OwnersTwice(s.objs, s1.objs, FinishRecording(s1, t, Complete, saveOk).0.objs);
    }
  }

  lemma AppendOwners(s: Store, t: nat, k: nat, stamp: real, io: CommitIo)
    requires t in s.objs && k in s.objs && RecordingsAllocated(s)
    ensures OwnersKept(s.objs, AppendRecording(s, t, k, stamp, io).0.objs)
  {
    hide FinishRecording, FileSample, OwnersKept;
    var time := stamp - s.objs[k].start;
    OwnersSame(s.objs);
    FinishOwners(s, t, Interrupted, io.takeSaveOk);
    FileOwners(WritePose(s, k, s.objs[k].count, time, io.takePose), t, k, time, io.takeSaveOk);
  }

  lemma OfflineOwners(s: Store, t: nat, stamp: real, io: CommitIo)
    requires t in s.objs && RecordingsAllocated(s)
    ensures var s' := CommitOffline(s, t, stamp, io).0; OwnersKept(s.objs, s'.objs) && s'.objs.Keys == s.objs.Keys && RecordingsAllocated(s')
  {
  }

  lemma AppendedOwners(s: Store, r: Request, io: CommitIo)
    requires r.session in s.objs && (r.take.Some? ==> r.take.value in s.objs) && RecordingsAllocated(s)
    ensures var s1 := if r.take.Some? && s.objs[r.take.value].phase == Recording
                      then AppendRecording(s, r.session, r.take.value, r.stamp, io).0 else s;
            OwnersKept(s.objs, s1.objs) && s1.objs.Keys == s.objs.Keys
  {
    if r.take.Some? { AppendOwners(s, r.session, r.take.value, r.stamp, io); }
    OwnersSame(s.objs);
    hide AppendRecording;
  }

  lemma CommitOwners(s: Store, r: Request, cancelled: bool, io: CommitIo)
    requires r.session in s.objs && (r.take.Some? ==> r.take.value in s.objs) && RecordingsAllocated(s)
    ensures OwnersKept(s.objs, CommitFrame(s, r, cancelled, io).0.objs)
  {
    hide AppendRecording, CommitOffline, OwnersKept, RecordingsAllocated;
    var t := r.session;
    OwnersSame(s.objs);
    OfflineOwners(s, t, r.stamp, io);
    var s1 := if s.objs[t].mode == Offline then CommitOffline(s, t, r.stamp, io).0 else s;
    AppendedOwners(s1, r, io);
    var s2 := if r.take.Some? && s1.objs[r.take.value].phase == Recording then AppendRecording(s1, t, r.take.value, r.stamp, io).0 else s1;
    OwnersTwice(s.objs, s1.objs, s2.objs);
    OwnersUpdated(s2.objs, t, s2.objs[t].(count := s2.objs[t].count + 1, lastTime := r.stamp));
    OwnersTwice(s.objs, s2.objs, s2.objs[t := s2.objs[t].(count := s2.objs[t].count + 1, lastTime := r.stamp)]);
  }

  lemma FinishTrackOwners(s: Store, t: nat, takeSaveOk: bool, saveOk: bool)
    requires RecordingsAllocated(s) && s.tracks <= s.objs.Keys
    ensures OwnersKept(s.objs, FinishTrack(s, t, takeSaveOk, saveOk).0.objs)
  {
    OwnersSame(s.objs);
    if t in s.tracks {
      FinishOwners(s, t, Complete, takeSaveOk);
      FinishShallow(s, t, Complete, takeSaveOk);
      hide FinishRecording, OwnersKept, SamplesKept, Saves;
      var s1 := FinishRecording(s, t, Complete, takeSaveOk).0;
      OwnersUpdated(s1.objs, t, s1.objs[t].(phase := Complete));
      OwnersTwice(s.objs, s1.objs, s1.objs[t := s1.objs[t].(phase := Complete)]);
    }
  }

  lemma StopOwners(s: Store, t: nat, saveOk: bool)
    requires RecordingsAllocated(s) && s.tracks <= s.objs.Keys
    ensures OwnersKept(s.objs, StopTake(s, t, saveOk).objs)
  {
    hide FinishRecording;
    if t in s.tracks { FinishOwners(s, t, Complete, saveOk); }
  }

  lemma FinishEventOwners(s: State, e: Event)
    requires Enabled(s, e) && (e.Finish? || e.RecordStop? || e.Delete?)
    ensures OwnersKept(s.store.objs, Step(s, e).store.objs)
  {
    hide FinishTrack, StopTake, OwnersKept, RecordingsAllocated;
    OwnersSame(s.store.objs);
    if e.Finish? { FinishTrackOwners(s.store, e.session, e.takeSaveOk, e.saveOk); }
    if e.RecordStop? { StopOwners(s.store, e.session, e.saveOk); }
  }

  lemma CommitEventOwners(s: State, e: Event)
    requires Enabled(s, e) && e.Commit?
    ensures OwnersKept(s.store.objs, Step(s, e).store.objs)
  {
    hide CommitFrame, OwnersKept;
    CommitOwners(s.store, s.front.worker.req, s.front.handlers[s.front.worker.req.handler].cancelled, e.io);
  }

  /** Events other than the creation of a session and the start of a take. */
  lemma EventOwners(s: State, e: Event)
    requires Enabled(s, e) && !e.Create? && !e.RecordStart?
    ensures OwnersKept(s.store.objs, Step(s, e).store.objs)
  {
    hide Step, Enabled, OwnersKept;
    if e.Finish? || e.RecordStop? || e.Delete? {
      FinishEventOwners(s, e);
    } else if e.Commit? {
      CommitEventOwners(s, e);
    } else {
      StoreUntouched(s, e);
      OwnersSame(s.store.objs);
    }
  }

  lemma CreateOwners(s: State, e: Event)
    requires Enabled(s, e) && e.Create?
    ensures forall t, k | Attached(Step(s, e).store.objs, t, k) :: Attached(s.store.objs, t, k)
    ensures forall k | k in Step(s, e).store.objs && k !in s.store.objs :: Step(s, e).store.objs[k].mode != Take
  {
    hide FinishRecording, Sweep, LiveIn, SavedIn;
    SweepOwners(s.store, s.front.desks, s.now, e.createIo.order, e.createIo.saves);
  }

  /** Only the start of a take makes one. */
  lemma NewTake(s: State, e: Event, k: nat)
    requires Enabled(s, e) && k !in s.store.objs && k in Step(s, e).store.objs && Step(s, e).store.objs[k].mode == Take
    ensures e.RecordStart? && e.id == k && Startable(s, e.session, e.start, e.storageOk, e.dirOk, e.saveOk)
  {
    if e.Create? {
      CreateOwners(s, e);
    } else if e.RecordStart? {
      TakeStarted(s, e.session, e.id, e.start, e.storageOk, e.dirOk, e.saveOk);
    } else {
      EventOwners(s, e);
    }
    hide Step, Enabled, Startable, Attached;
  }

  /** A take made during a run was made by one start, and counts from the time that
      start was asked for. */
  lemma {:induction false} StartOf(states: seq<State>, events: seq<Event>, n: nat, k: nat) returns (c: nat)
    requires IsRun(states, events) && n <= |events| && k !in states[0].store.objs
    requires k in states[n].store.objs && states[n].store.objs[k].mode == Take
    ensures c < n && events[c].RecordStart? && events[c].id == k && k !in states[c].store.objs && k in states[c + 1].store.objs
    ensures states[c + 1].store.objs[k].samples == []
    ensures states[n].store.objs[k].start == events[c].start
    decreases n
  {
    hide Inv, Step, Enabled, Init, Startable;
    var p := n - 1;
    RunInv(states, events, p);
    if k in states[p].store.objs {
      StartStands(states[p], events[p], k);
      c := StartOf(states, events, p, k);
    } else {
      NewTake(states[p], events[p], k);
      var e := events[p];
      TakeStarted(states[p], e.session, e.id, e.start, e.storageOk, e.dirOk, e.saveOk);
      c := p;
    }
  }

  // ----- where a request comes from

  /** Handler `h` had the same session and time before, or it arrives now with them. */
  ghost predicate Came(s: State, e: Event, s': State, h: nat) {
    h in s'.front.handlers ==>
      var r' := s'.front.handlers[h].req;
      || (h in s.front.handlers && s.front.handlers[h].req.session == r'.session && s.front.handlers[h].req.stamp == r'.stamp)
      || e == Arrive(h, r'.session, r'.stamp)
  }

  lemma RouteCame(s: State, e: Event, h: nat)
    requires Enabled(s, e) && !FromHandler(e)
    ensures Came(s, e, Step(s, e), h)
  {
    hide CreateTrack, FinishTrack, StartTake, StopTake, DeleteTrack, CommitFrame;
  }

  lemma HandlerCame(s: State, e: Event, h: nat)
    requires Enabled(s, e) && FromHandler(e)
    ensures Came(s, e, Step(s, e), h)
  {
    hide RecordingsAllocated, AdmittedTake, Admissible;
  }

  /** The arrival of a handler that is there. */
  lemma {:induction false} ArrivalOf(states: seq<State>, events: seq<Event>, n: nat, h: nat) returns (a: nat)
    requires IsRun(states, events) && n <= |events| && h in states[n].front.handlers
    ensures a < n && events[a] == Arrive(h, states[n].front.handlers[h].req.session, states[n].front.handlers[h].req.stamp)
    decreases n
  {
    hide Inv, Step, Enabled, Init;
    NobodyAtStart(states[0], h);
    var p := n - 1;
    if FromHandler(events[p]) {
      HandlerCame(states[p], events[p], h);
    } else {
      RouteCame(states[p], events[p], h);
    }
    if events[p] == Arrive(h, states[n].front.handlers[h].req.session, states[n].front.handlers[h].req.stamp) {
      a := p;
    } else {
      a := ArrivalOf(states, events, p, h);
    }
  }

  /** A session that has take `k` had it before, unless the take is new. */
  lemma OwnerBefore(s: State, e: Event, t: nat, k: nat)
    requires Enabled(s, e) && Attached(Step(s, e).store.objs, t, k) && k in s.store.objs
    ensures Attached(s.store.objs, t, k)
  {
    if e.Create? {
      CreateOwners(s, e);
    } else if e.RecordStart? {
      TakeStarted(s, e.session, e.id, e.start, e.storageOk, e.dirOk, e.saveOk);
      NewId(s, e);
    } else {
      EventOwners(s, e);
    }
    hide Step, Enabled, Startable;
  }

  lemma NewId(s: State, e: Event)
    requires Enabled(s, e) && e.RecordStart?
    ensures e.id !in s.store.objs
  {
  }

  lemma {:induction false} OwnerSince(states: seq<State>, events: seq<Event>, i: nat, n: nat, t: nat, k: nat)
    requires IsRun(states, events) && i <= n <= |events| && k in states[i].store.objs && Attached(states[n].store.objs, t, k)
    ensures Attached(states[i].store.objs, t, k)
    decreases n
  {
    hide Step, Enabled, Init, Attached;
    if i < n {
      ClosedForGood(states, events, i, n - 1, k);
      OwnerBefore(states[n - 1], events[n - 1], t, k);
      OwnerSince(states, events, i, n - 1, t, k);
    }
  }

  // ----- every sample of a take

  /** Where sample `i` of a take stems from: a frame sent to the take's session with some
      time arrived, got in after the take was started, and was committed as the take's
      sample `i`.  The sample is that time, counted from the one the start was asked
      for, which it does not precede. */
  ghost predicate Stems(states: seq<State>, events: seq<Event>, n: nat, k: nat, i: nat, c: nat, a: nat, j: nat, m: nat)
    requires n <= |events| < |states| && k in states[n].store.objs && i < |states[n].store.objs[k].samples|
  {
    && c < j < m < n && a < j
    && events[c].RecordStart? && events[c].id == k && k !in states[c].store.objs
    && events[a].Arrive? && events[a].session == events[c].session
    && events[j].Admit? && events[j].h == events[a].h
    && events[m].Commit? && k in states[m].store.objs && |states[m].store.objs[k].samples| == i
    && events[a].stamp >= events[c].start
    && states[n].store.objs[k].samples[i] == events[a].stamp - events[c].start
  }

  lemma CommitGrows(s: State, e: Event, k: nat)
    requires Inv(s) && Enabled(s, e) && k in s.store.objs && s.store.objs[k].mode == Take
    requires k in Step(s, e).store.objs && Step(s, e).store.objs[k].samples != s.store.objs[k].samples
    ensures e.Commit?
  {
    hide Inv, Step, Enabled;
    TakeGrowth(s, e, k);
  }

  lemma SameOwner(states: seq<State>, events: seq<Event>, c: nat, m: nat, t: nat, k: nat)
    requires IsRun(states, events) && c < m <= |events| && events[c].RecordStart? && events[c].id == k
    requires k !in states[c].store.objs && k in states[c + 1].store.objs && Attached(states[m].store.objs, t, k)
    ensures events[c].session == t
  {
    var n := c + 1;
    RunInv(states, events, n);
    var e := events[c];
    TakeStarted(states[c], e.session, e.id, e.start, e.storageOk, e.dirOk, e.saveOk);
    OwnerSince(states, events, n, m, t, k);
    hide Step, Enabled, Init, FrontInv, LinkInv, TracksOk, FilesOk, SamplesOk, Startable;
    assert Attached(states[n].store.objs, e.session, k);
  }

  /** The commit that adds the latest sample of a take. */
  lemma GrowthStems(states: seq<State>, events: seq<Event>, m: nat, k: nat) returns (c: nat, a: nat, j: nat)
    requires IsRun(states, events) && m < |events| && k !in states[0].store.objs
    requires k in states[m].store.objs && states[m].store.objs[k].mode == Take
    requires k in states[m + 1].store.objs && states[m + 1].store.objs[k].samples != states[m].store.objs[k].samples
    ensures |states| == |events| + 1 && |states[m + 1].store.objs[k].samples| == |states[m].store.objs[k].samples| + 1
    ensures Stems(states, events, m + 1, k, |states[m].store.objs[k].samples|, c, a, j, m)
  {
    hide Inv, Step, Enabled, Init, Attached;
    j := TakeIsolation(states, events, m, k);
    RunInv(states, events, m);
    CommitGrows(states[m], events[m], k);
    c := StartOf(states, events, m, k);
    var r := states[m].front.worker.req;
    a := ArrivalOf(states, events, j, r.handler);
    SameOwner(states, events, c, m, r.session, k);
  }

  /** Every sample of a take made during a run is the time of a frame that was sent to
      its session, got in after the take was started, and is not stamped before that:
      it counts from the time the start was asked for. */
  lemma {:induction false} SampleStems(states: seq<State>, events: seq<Event>, n: nat, k: nat, i: nat)
    returns (c: nat, a: nat, j: nat, m: nat)
    requires IsRun(states, events) && n <= |events| && k !in states[0].store.objs
    requires k in states[n].store.objs && states[n].store.objs[k].mode == Take && i < |states[n].store.objs[k].samples|
    ensures |states| == |events| + 1 && Stems(states, events, n, k, i, c, a, j, m)
    decreases n
  {
    hide Inv, Step, Enabled, Init, Attached;
    var p := n - 1;
    c := StartOf(states, events, n, k);
    if c < p {
      ClosedForGood(states, events, c + 1, p, k);
      TakeThere(states, events, c, p, n, k);
      if i < |states[p].store.objs[k].samples| {
        GrowsAtEnd(states, events, p, k);
        c, a, j, m := SampleStems(states, events, p, k, i);
      } else {
        c, a, j := GrowthStems(states, events, p, k);
        m := p;
      }
    }
  }

  lemma GrowsAtEnd(states: seq<State>, events: seq<Event>, p: nat, k: nat)
    requires IsRun(states, events) && p < |events| && k in states[p].store.objs && states[p].store.objs[k].mode == Take
    ensures k in states[p + 1].store.objs && states[p].store.objs[k].samples <= states[p + 1].store.objs[k].samples
  {
    hide Inv, Step, Enabled, Init, Attached;
    RunInv(states, events, p);
    TakeGrowth(states[p], events[p], k);
  }

  lemma TakeThere(states: seq<State>, events: seq<Event>, c: nat, p: nat, n: nat, k: nat)
    requires IsRun(states, events) && c < p < n <= |events| && k in states[c + 1].store.objs && k in states[n].store.objs
    ensures k in states[p].store.objs && states[p].store.objs[k].mode == states[n].store.objs[k].mode
  {
    hide Inv, Step, Enabled, Init;
    var next := c + 1;
    ClosedForGood(states, events, next, p, k);
    ClosedForGood(states, events, p, n, k);
  }
}
