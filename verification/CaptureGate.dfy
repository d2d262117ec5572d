/**
 The gate of a session: exactly which frames get in, at which time, and which are
 refused, for each kind of session, and which take a frame joins.
 */
module CaptureGate {
  import opened Wrappers
  import opened CaptureModel
  import opened CaptureInvariant
  import opened CaptureProgress

  /** A frame and the time of its decision; `settingsOk` says whether its settings are valid. */
  datatype Knock = Knock(h: nat, session: nat, stamp: real, clock: real, settingsOk: bool)

  /** The frame arrives, time passes, and the session decides on it, which leads to `s'`. */
  ghost predicate Decided(s: State, k: Knock, s': State) {
    && Enabled(s, Arrive(k.h, k.session, k.stamp))
    && var s1 := Step(s, Arrive(k.h, k.session, k.stamp));
    && Enabled(s1, Tick(k.clock))
    && var s2 := Step(s1, Tick(k.clock));
    && Enabled(s2, Admit(k.h, k.settingsOk))
    && s' == Step(s2, Admit(k.h, k.settingsOk))
  }

  /** Whenever the token is free and the handler new, a decision is made. */
  lemma DecisionMade(s: State, k: Knock) returns (s': State)
    requires Inv(s) && !s.front.uploads && k.h !in s.front.handlers && k.clock >= s.now
    ensures Decided(s, k, s')
  {
    hide Inv, RecordingsAllocated;
    GuardsHold(s);
    s' := Step(Step(Step(s, Arrive(k.h, k.session, k.stamp)), Tick(k.clock)), Admit(k.h, k.settingsOk));
  }

  /** The frame is admitted: its handler goes on to read the body, the session counts
      it, and the next frame is measured against it. */
  ghost predicate GotIn(s: State, k: Knock, s': State) {
    && k.session in s.front.desks
    && k.h in s'.front.handlers && s'.front.handlers[k.h].stage == Reading
    && s'.front.handlers[k.h].req.session == k.session && s'.front.handlers[k.h].req.stamp == k.stamp
    && s'.store == s.store
    && var d := s.front.desks[k.session];
       && s'.front.handlers[k.h].id == d.next
       && s'.front.desks == s.front.desks[k.session := Desk(true, k.clock, k.stamp, d.inflight + 1, d.next + 1, d.cancels[d.next := k.h])]
  }

  /** The frame is refused: its handler has nothing left to do but to return the
      token, and nothing else has changed. */
  ghost predicate KeptOut(s: State, k: Knock, s': State) {
    && k.h in s'.front.handlers && s'.front.handlers[k.h].stage == Leaving
    && s'.store == s.store && s'.front.desks == s.front.desks
  }

  ghost predicate Outcome(s: State, k: Knock, s': State, admitted: bool) {
    if admitted then GotIn(s, k, s') else KeptOut(s, k, s')
  }

  lemma Decision(s: State, k: Knock, s': State)
    requires Decided(s, k, s')
    ensures Outcome(s, k, s', Admissible(s.(now := k.clock), Request(k.h, k.session, None, k.stamp)) && k.settingsOk)
  {
    hide RecordingsAllocated, AdmittedTake;
  }

  lemma GateKnown(s: State, t: nat)
    requires Inv(s) && t in s.store.objs
    ensures t in s.front.desks && s.store.objs[t].hz > 0.0
    ensures s.front.desks[t].inflight <= if s.store.objs[t].mode == Live then 2 else 1
  {
    hide FrontInv, RecordingOk, FilesOk, SamplesOk, OrderOk;
    assert TrackOk(s.store.objs[t], t in s.store.tracks, t in s.store.dirs);
    assert LimitsOk(s.store.objs[t], s.front.desks[t]);
  }

  /** What every admission asks for: the session is listed and records, the consumer
      runs, no job waits, and the frame's settings and time are valid. */
  predicate DoorOpen(s: State, k: Knock) {
    && k.session in s.store.tracks && k.session in s.store.objs && s.store.objs[k.session].phase == Recording
    && s.workerLive && s.queue == 0 && k.settingsOk && 0.0 <= k.stamp <= 86400.0
  }

  lemma VideoRule(s: State, k: Knock, o: Track, d: Desk)
    requires k.session in s.store.objs && o == s.store.objs[k.session] && o.mode == Offline && o.hz > 0.0
    requires k.session in s.front.desks && d == s.front.desks[k.session]
    ensures Admissible(s.(now := k.clock), Request(k.h, k.session, None, k.stamp)) && k.settingsOk
            <==> && DoorOpen(s, k) && d.inflight == 0 && o.count < 1800
                 && (o.count == 0 || k.stamp - o.lastTime >= 1.0 / o.hz - 0.001)
  {
  }

  /** A frame of a video gets in exactly if no other frame of it is in flight, it has
      fewer than 1800 frames, and the stamp is a sampling interval, less a millisecond,
      after the last one; when the frames arrive does not matter. */
  lemma VideoGate(s: State, k: Knock, s': State, o: Track, d: Desk)
    requires Inv(s) && Decided(s, k, s')
    requires k.session in s.store.objs && o == s.store.objs[k.session] && o.mode == Offline && o.hz > 0.0
    requires k.session in s.front.desks && d == s.front.desks[k.session]
    ensures Outcome(s, k, s',
                    && DoorOpen(s, k) && d.inflight == 0 && o.count < 1800
                    && (o.count == 0 || k.stamp - o.lastTime >= 1.0 / o.hz - 0.001))
  {
    hide Inv, Decided, Outcome, DoorOpen, Admissible;
    Decision(s, k, s');
    VideoRule(s, k, o, d);
  }

  /** The clock allows another frame: a sampling interval, less 5 ms, since the last one got in. */
  predicate Paced(k: Knock, o: Track, d: Desk)
    requires o.hz > 0.0
  {
    k.clock - d.last >= 1.0 / o.hz - 0.005
  }

  predicate LiveRule(k: Knock, o: Track, d: Desk)
    requires o.hz > 0.0
  {
    if d.inflight == 0 && o.count == 0 then true
    else if d.inflight == 0 then Paced(k, o, d) && k.stamp - o.lastTime >= 1.0 / o.hz - 0.001
    else if d.inflight == 1 then Paced(k, o, d) && k.stamp - d.lastSubmit >= 1.0 / o.hz - 0.001
    else false
  }

  lemma LiveRuled(s: State, k: Knock, o: Track, d: Desk)
    requires k.session in s.store.objs && o == s.store.objs[k.session] && o.mode == Live && o.hz > 0.0
    requires k.session in s.front.desks && d == s.front.desks[k.session] && d.inflight <= 2
    ensures Admissible(s.(now := k.clock), Request(k.h, k.session, None, k.stamp)) && k.settingsOk
            <==> DoorOpen(s, k) && LiveRule(k, o, d)
  {
  }

  /** A frame of a live session gets in exactly if it is the first; or nothing else is
      in flight, or one frame, and both clock and stamp have moved on by a sampling
      interval, less 5 ms and 1 ms: the clock since the last admission, the stamp since
      the frame in flight or else the last one committed. */
  lemma LiveGate(s: State, k: Knock, s': State, o: Track, d: Desk)
    requires Inv(s) && Decided(s, k, s')
    requires k.session in s.store.objs && o == s.store.objs[k.session] && o.mode == Live && o.hz > 0.0
    requires k.session in s.front.desks && d == s.front.desks[k.session]
    ensures Outcome(s, k, s', DoorOpen(s, k) && LiveRule(k, o, d))
  {
    GateKnown(s, k.session);
    hide Inv, Decided, Outcome, DoorOpen, Admissible, LiveRule;
    Decision(s, k, s');
    LiveRuled(s, k, o, d);
  }

  /** A second frame of a live session joins the first in flight if it comes a sampling
      interval after it, by the clock and by its stamp; a third never does. */
  lemma TwoInFlight(s: State, k: Knock, s': State, o: Track, d: Desk)
    requires Inv(s) && Decided(s, k, s') && DoorOpen(s, k)
    requires k.session in s.store.objs && o == s.store.objs[k.session] && o.mode == Live && o.hz > 0.0
    requires k.session in s.front.desks && d == s.front.desks[k.session]
    ensures k.session in s'.front.desks
    ensures d.inflight == 1 && k.clock - d.last >= 1.0 / o.hz && k.stamp - d.lastSubmit >= 1.0 / o.hz ==>
              s'.front.desks[k.session].inflight == 2
    ensures d.inflight == 2 ==> s'.front.desks == s.front.desks
  {
    hide Inv, Decided, DoorOpen;
    LiveGate(s, k, s', o, d);
  }

  /** Nothing gets into a take, or into a session that is not in the table. */
  lemma NoGate(s: State, k: Knock, s': State)
    requires Decided(s, k, s')
    requires k.session in s.store.tracks && k.session in s.store.objs ==> s.store.objs[k.session].mode == Take
    ensures KeptOut(s, k, s')
  {
    hide Decided, KeptOut, GotIn;
    Decision(s, k, s');
  }

  /** A frame that gets in joins the take of its session if it is stamped at the take's
      start or later, and no take otherwise. */
  lemma TakeChosen(s: State, k: Knock, s': State)
    requires Decided(s, k, s') && k.h in s'.front.handlers && s'.front.handlers[k.h].stage == Reading
    ensures k.session in s.store.objs
    ensures var take := s'.front.handlers[k.h].req.take;
            match s.store.objs[k.session].recording
            case None => take == None
            case Some(t) => t in s.store.objs && take == if k.stamp >= s.store.objs[t].start then Some(t) else None
  {
  }
}
