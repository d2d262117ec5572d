/**
 From the samples of a saved track to the exporter: which selections have key times
 that increase in single precision, so that only the poses themselves decide an export.
 */
module CaptureExport {
  import opened CaptureModel
  import opened CaptureInvariant
  import opened CaptureRuns
  import opened CaptureDamage
  import opened CaptureRepeat
  import opened Skeleton
  import opened SkeletonExport

  /** The frames of the selected samples, as the export route read them. */
  predicate Loaded(frames: seq<Frame>, times: seq<real>) {
    |frames| == |times| && forall i | 0 <= i < |frames| :: frames[i].time == times[i]
  }

  // ----- selections

  /** Two selected samples keep their order in the selection. */
  lemma {:induction false} SelectedPair(samples: seq<real>, start: real, end: real, i: nat, j: nat) returns (a: nat, b: nat)
    requires i < j < |samples| && InRange(samples[i], start, end) && InRange(samples[j], start, end)
    ensures var times := Selected(samples, start, end); a < b < |times| && times[a] == samples[i] && times[b] == samples[j]
    decreases |samples|
  {
    var init := samples[..|samples| - 1];
    if j < |init| {
      a, b := SelectedPair(init, start, end, i, j);
    } else {
      a := SelectedOne(init, start, end, i);
      b := |Selected(init, start, end)|;
    }
  }

  lemma {:induction false} SelectedOne(samples: seq<real>, start: real, end: real, i: nat) returns (a: nat)
    requires i < |samples| && InRange(samples[i], start, end)
    ensures var times := Selected(samples, start, end); a < |times| && times[a] == samples[i]
    decreases |samples|
  {
    var init := samples[..|samples| - 1];
    if i < |init| {
      a := SelectedOne(init, start, end, i);
    } else {
      a := |Selected(init, start, end)|;
    }
  }

  /** A selection holds samples only, in the interval and not more than there are. */
  lemma {:induction false} SelectedFrom(samples: seq<real>, start: real, end: real)
    ensures |Selected(samples, start, end)| <= |samples|
    ensures forall x | x in Selected(samples, start, end) :: x in samples && InRange(x, start, end)
  {
    if samples != [] {
      SelectedFrom(samples[..|samples| - 1], start, end);
    }
  }

  /** A selection of spaced samples is spaced. */
  lemma {:induction false} SelectedSpaced(samples: seq<real>, hz: real, start: real, end: real)
    requires Spaced(samples, hz)
    ensures Spaced(Selected(samples, start, end), hz)
  {
    if samples != [] {
      var init, last := samples[..|samples| - 1], samples[|samples| - 1];
      SelectedSpaced(init, hz, start, end);
      SelectedFrom(init, start, end);
      var before, all := Selected(init, start, end), Selected(samples, start, end);
      forall i, j | 0 <= i < j < |all| ensures all[j] >= all[i] + Gap(hz) {
        if j == |before| {
          assert all == before + [last];
          assert before[i] in before;
          assert before[i] in init;
          var k :| 0 <= k < |init| && init[k] == before[i];
          assert samples[|init|] >= samples[k] + Gap(hz);
        }
      }
    }
  }

  // ----- key times

  lemma {:induction false} KeysIncrease(frames: seq<Frame>, single: real -> real, i: nat, j: nat)
    requires i < j < |frames| && forall k: nat :: k < |frames| ==> Usable(frames, single, k)
    ensures KeyTime(frames, single, i) < KeyTime(frames, single, j)
    decreases j
  {
    hide ValidFrame;
    assert Usable(frames, single, j);
    if i < j - 1 {
      KeysIncrease(frames, single, i, j - 1);
    }
  }

  /** A selection that holds two equal samples is never exported, however numbers
      are rounded. */
  lemma EqualRefused(samples: seq<real>, start: real, end: real, i: nat, j: nat,
                     frames: seq<Frame>, names: seq<string>, parents: seq<int>, movement: string, single: real -> real)
    requires i < j < |samples| && samples[i] == samples[j] && InRange(samples[i], start, end)
    requires Loaded(frames, Selected(samples, start, end))
    ensures !Exportable(frames, names, parents, movement, single)
  {
    hide ValidParents, Usable, Selected;
    var a, b := SelectedPair(samples, start, end, i, j);
    if Exportable(frames, names, parents, movement, single) {
      KeysIncrease(frames, single, a, b);
    }
  }

  /** A run from an empty server after which no selection with the take's samples in
      it is exported. */
  lemma RepeatedRefused(maxJobs: nat) returns (states: seq<State>, events: seq<Event>)
    requires maxJobs > 0
    ensures IsRun(states, events) && |events| == 21
    ensures 1 in states[21].store.objs && states[21].store.objs[1].mode == Take
    ensures forall start: real, end: real, frames, names, parents, movement, single |
              start <= 0.5 <= end && Loaded(frames, Selected(states[21].store.objs[1].samples, start, end)) ::
              !Exportable(frames, names, parents, movement, single)
  {
    hide IsRun, Exportable, Selected, Spaced, Loaded;
    states, events := RepeatedSample(maxJobs);
    assert |states| == 22 by { RunLength(states, events); }
    var samples := states[21].store.objs[1].samples;
    forall start: real, end: real, frames, names, parents, movement, single |
      start <= 0.5 <= end && Loaded(frames, Selected(samples, start, end))
      ensures !Exportable(frames, names, parents, movement, single)
    {
      EqualRefused(samples, start, end, 0, 1, frames, names, parents, movement, single);
    }
  }

  lemma RunLength(states: seq<State>, events: seq<Event>)
    requires IsRun(states, events)
    ensures |states| == |events| + 1
  {
  }

  /** The rounding keeps apart two times of the trim interval that are a sampling
      gap apart. */
  ghost predicate KeepsApart(single: real -> real, hz: real) {
    hz > 0.0 && forall x, y :: 0.0 <= x && x + Gap(hz) <= y <= MAX_STAMP ==> single(x) < single(y)
  }

  /** Rounding to the nearest single-precision number, as far as it matters here:
      below 2^17 neighbouring numbers are at most 2^-7 apart. */
  ghost predicate Nearest(single: real -> real) {
    forall x :: 0.0 <= x <= MAX_STAMP ==> x - 1.0 / 256.0 <= single(x) <= x + 1.0 / 256.0
  }

  lemma NearestKeepsApart(single: real -> real, hz: real)
    requires Nearest(single) && 1.0 <= hz <= 30.0
    ensures KeepsApart(single, hz)
  {
    assert 1.0 / hz >= 1.0 / 30.0;
  }

  lemma KeysOfSpaced(frames: seq<Frame>, times: seq<real>, hz: real, single: real -> real, i: nat)
    requires Loaded(frames, times) && Spaced(times, hz) && KeepsApart(single, hz) && Gap(hz) > 0.0
    requires forall x | x in times :: 0.0 <= x <= MAX_STAMP
    requires 0 < i < |frames|
    ensures KeyTime(frames, single, i - 1) < KeyTime(frames, single, i)
  {
    var first, x, y := times[0], times[i - 1], times[i];
    assert first in times && x in times && y in times;
    assert 0.0 <= x - first && (x - first) + Gap(hz) <= y - first <= MAX_STAMP;
  }

  /** The samples of a saved track are spaced, unless it is a take whose save failed
      for one of them. */
  lemma SavedSpaced(s: State, t: nat)
    requires Inv(s) && t in s.store.objs
    requires s.store.objs[t].mode == Offline || (s.store.objs[t].mode == Take && t !in s.store.dirty)
    ensures var o := s.store.objs[t]; Spaced(o.samples, o.hz) && 1.0 <= o.hz <= 30.0 && |o.samples| <= MAX_TRACK_FRAMES
  {
    hide FrontInv, LinkInv, RecordingOk, FilesOk;
    assert TrackOk(s.store.objs[t], t in s.store.tracks, t in s.store.dirs);
    if s.store.objs[t].mode == Offline { assert OfflineOk(s.store.objs[t]); }
  }

  /** In every reachable state the export of an offline track, or of a take none of
      whose saves failed, does not depend on its times: whatever interval of its
      samples is chosen, the poses, the movement and the topology decide alone. */
  lemma CleanExport(states: seq<State>, events: seq<Event>, n: nat, t: nat, start: real, end: real,
                    frames: seq<Frame>, names: seq<string>, parents: seq<int>, movement: string, single: real -> real)
    requires IsRun(states, events) && n <= |events| && t in states[n].store.objs
    requires states[n].store.objs[t].mode == Offline || (states[n].store.objs[t].mode == Take && t !in states[n].store.dirty)
    requires 0.0 <= start && end <= MAX_STAMP && Loaded(frames, Selected(states[n].store.objs[t].samples, start, end))
    requires KeepsApart(single, states[n].store.objs[t].hz)
    ensures Exportable(frames, names, parents, movement, single)
            <==> && frames != [] && KnownMovement(movement) && |names| == JOINTS && ValidParents(parents)
                 && forall i | 0 <= i < |frames| :: ValidFrame(frames[i])
  {
    RunInv(states, events, n);
    hide IsRun, Inv, ValidParents, ValidFrame, KnownMovement, Loaded, KeepsApart, Spaced, KeyTime, Selected;
    var s := states[n];
    SavedSpaced(s, t);
    var samples, hz := s.store.objs[t].samples, s.store.objs[t].hz;
    var times := Selected(samples, start, end);
    SelectedFrom(samples, start, end);
    SelectedSpaced(samples, hz, start, end);
    LoadedLength(frames, times);
    GapPositive(hz);
    forall i: nat | 0 < i < |frames| ensures KeyTime(frames, single, i - 1) < KeyTime(frames, single, i) {
      KeysOfSpaced(frames, times, hz, single, i);
    }
    if Exportable(frames, names, parents, movement, single) {
      forall i | 0 <= i < |frames| ensures ValidFrame(frames[i]) { assert Usable(frames, single, i); }
    }
  }

  lemma LoadedLength(frames: seq<Frame>, times: seq<real>)
    requires Loaded(frames, times)
    ensures |frames| == |times|
  {
  }
}
