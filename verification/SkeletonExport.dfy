/**
 The animated tracks of the exporter: key times, root offsets, and joint
 rotations whose signs are flipped in place until neighbours agree.
 */
module SkeletonExport {
  import opened Wrappers
  import opened Quaternions
  import opened Skeleton
  import opened SkeletonHierarchy
  import CaptureModel

  const ORIGIN := Vec3(0.0, 0.0, 0.0)

  /** Frame `i`'s key time, as the single-precision number `single` makes of it. */
  function KeyTime(frames: seq<Frame>, single: real -> real, i: nat): real
    requires i < |frames|
  {
    single(frames[i].time - frames[0].time)
  }

  predicate KnownMovement(movement: string) {
    movement == "in-place" || movement == "camera"
  }

  /** Frame `i` is usable, and its key comes after the one before. */
  predicate Usable(frames: seq<Frame>, single: real -> real, i: nat)
    requires i < |frames|
  {
    ValidFrame(frames[i]) && (i > 0 ==> KeyTime(frames, single, i - 1) < KeyTime(frames, single, i))
  }

  predicate Exportable(frames: seq<Frame>, names: seq<string>, parents: seq<int>, movement: string, single: real -> real) {
    && 0 < |frames| <= CaptureModel.MAX_TRACK_FRAMES
    && KnownMovement(movement)
    && |names| == JOINTS && ValidParents(parents)
    && forall i: nat :: i < |frames| ==> Usable(frames, single, i)
  }

  /** The root node's place in frame `i`. */
  ghost function Offset(frames: seq<Frame>, movement: string, i: nat): Vec3
    requires i < |frames| && ValidFrame(frames[0]) && ValidFrame(frames[i])
  {
    if movement == "camera" then Vec3(frames[i].camera[0], -frames[i].camera[1], -frames[i].camera[2])
    else if |frames| > 1 then Divided(Minus(Position(frames[0].globals, 1), Position(frames[i].globals, 1)), 100.0)
    else ORIGIN
  }

  /** Joint `j`'s node in frame `i`: the local state, its rotation on the side of the one before. */
  ghost function Smooth(frames: seq<Frame>, parents: seq<int>, root: real -> real, i: nat, j: nat): JointTRS
    requires IsRoot(root) && ValidParents(parents) && i < |frames| && j < JOINTS
    requires forall k: nat :: k <= i ==> ValidFrame(frames[k])
    decreases i
  {
    var l := Local(frames[i], parents, root, j);
    if i > 0 && Dot(Smooth(frames, parents, root, i - 1, j).rotation, l.rotation) < 0.0 then
      l.(rotation := Negated(l.rotation))
    else l
  }

  /** The nodes of all joints in frame `i`. */
  ghost function Row(frames: seq<Frame>, parents: seq<int>, root: real -> real, i: nat): seq<JointTRS>
    requires IsRoot(root) && ValidParents(parents) && i < |frames|
    requires forall k: nat :: k <= i ==> ValidFrame(frames[k])
  {
    seq(JOINTS, j requires 0 <= j < JOINTS => Smooth(frames, parents, root, i, j))
  }

  ghost function RowOf(locals: array2<JointTRS>, i: nat): (row: seq<JointTRS>)
    requires i < locals.Length0 && locals.Length1 == JOINTS
    reads locals
    ensures |row| == JOINTS
  {
    seq(JOINTS, j requires 0 <= j < JOINTS reads locals => locals[i, j])
  }

  /** Flips the rotations of row `i` that point away from the row before. */
  method FlipRow(locals: array2<JointTRS>, i: nat, ghost frames: seq<Frame>, ghost parents: seq<int>, ghost root: real -> real)
    requires IsRoot(root) && ValidParents(parents)
    requires 0 < i < locals.Length0 == |frames| && locals.Length1 == JOINTS
    requires forall k: nat :: k <= i ==> ValidFrame(frames[k])
    requires RowOf(locals, i - 1) == Row(frames, parents, root, i - 1)
    requires forall j: nat :: j < JOINTS ==> locals[i, j] == Local(frames[i], parents, root, j)
    modifies locals
    ensures RowOf(locals, i) == Row(frames, parents, root, i)
    ensures forall k: nat :: k < locals.Length0 && k != i ==> RowOf(locals, k) == old(RowOf(locals, k))
  {
    hide Local, Dot, Negated, ValidFrame, ValidParents, IsRoot;
    ghost var before := i - 1;
    forall j: nat | j < JOINTS ensures locals[before, j] == Smooth(frames, parents, root, before, j) {
      assert locals[before, j] == RowOf(locals, before)[j];
    }
    var j := 0;
    while j < JOINTS
      invariant 0 <= j <= JOINTS
      invariant forall m: nat :: m < j ==> locals[i, m] == Smooth(frames, parents, root, i, m)
      invariant forall m: nat :: j <= m < JOINTS ==> locals[i, m] == Local(frames[i], parents, root, m)
      invariant forall m: nat :: m < JOINTS ==> locals[before, m] == Smooth(frames, parents, root, before, m)
      invariant forall k: nat, m: nat :: k < locals.Length0 && k != i && m < JOINTS ==> locals[k, m] == old(locals[k, m])
    {
      var l := locals[i, j];
      if Dot(locals[i - 1, j].rotation, l.rotation) < 0.0 {
        locals[i, j] := l.(rotation := Negated(l.rotation));
      }
      j := j + 1;
    }
  }

  method FillRow(locals: array2<JointTRS>, i: nat, frames: seq<Frame>, parents: seq<int>, root: real -> real)
    requires IsRoot(root) && ValidParents(parents)
    requires i < locals.Length0 == |frames| && locals.Length1 == JOINTS && ValidFrame(frames[i])
    modifies locals
    ensures forall j: nat :: j < JOINTS ==> locals[i, j] == Local(frames[i], parents, root, j)
    ensures forall k: nat :: k < locals.Length0 && k != i ==> RowOf(locals, k) == old(RowOf(locals, k))
  {
    hide Local, ValidFrame, ValidParents, IsRoot;
    var row := LocalSkeleton(frames[i], parents, root);
    forall j | 0 <= j < JOINTS {
      locals[i, j] := row[j];
    }
  }

  /** Fills row `i` with the local states of its frame, signs aligned with the row before. */
  method AlignRow(locals: array2<JointTRS>, i: nat, frames: seq<Frame>, parents: seq<int>, root: real -> real)
    requires IsRoot(root) && ValidParents(parents)
    requires i < locals.Length0 == |frames| && locals.Length1 == JOINTS
    requires forall k: nat :: k <= i ==> ValidFrame(frames[k])
    requires i > 0 ==> RowOf(locals, i - 1) == Row(frames, parents, root, i - 1)
    modifies locals
    ensures RowOf(locals, i) == Row(frames, parents, root, i)
    ensures forall k: nat :: k < locals.Length0 && k != i ==> RowOf(locals, k) == old(RowOf(locals, k))
  {
    hide Local, RowOf, Dot, Negated, ValidFrame, ValidParents, IsRoot;
    FillRow(locals, i, frames, parents, root);
    if i > 0 {
      FlipRow(locals, i, frames, parents, root);
    } else {
      FirstRow(locals, frames, parents, root);
    }
  }

  lemma FirstRow(locals: array2<JointTRS>, frames: seq<Frame>, parents: seq<int>, root: real -> real)
    requires IsRoot(root) && ValidParents(parents)
    requires 0 < locals.Length0 == |frames| && locals.Length1 == JOINTS && ValidFrame(frames[0])
    requires forall j: nat :: j < JOINTS ==> locals[0, j] == Local(frames[0], parents, root, j)
    ensures RowOf(locals, 0) == Row(frames, parents, root, 0)
  {
    hide Local, ValidFrame, ValidParents, IsRoot;
  }

  method RootOffset(frames: seq<Frame>, movement: string, i: nat) returns (v: Vec3)
    requires i < |frames| && ValidFrame(frames[0]) && ValidFrame(frames[i]) && KnownMovement(movement)
    ensures v == Offset(frames, movement, i)
  {
    var f := frames[i];
    v := ORIGIN;
    if movement == "camera" {
      v := Vec3(f.camera[0], -f.camera[1], -f.camera[2]);
    } else if |frames| > 1 {
      // Hold the pelvis at its first position; keep orientation and pose.
      v := Divided(Minus(Position(frames[0].globals, 1), Position(f.globals, 1)), 100.0);
    }
  }

  /** The first `n` rows, keys and root offsets are those of the first `n` frames. */
  ghost predicate Aligned(frames: seq<Frame>, parents: seq<int>, movement: string, root: real -> real, single: real -> real,
                          n: nat, locals: array2<JointTRS>, times: array<real>, roots: array<Vec3>)
    requires IsRoot(root) && ValidParents(parents) && n <= |frames|
    requires forall k: nat :: k < n ==> ValidFrame(frames[k])
    reads locals, times, roots
  {
    && locals.Length0 == times.Length == roots.Length == |frames| && locals.Length1 == JOINTS
    && (forall i: nat :: i < n ==> RowOf(locals, i) == Row(frames, parents, root, i))
    && (forall i: nat :: i < n ==> times[i] == KeyTime(frames, single, i))
    && (forall i: nat :: i < n ==> roots[i] == Offset(frames, movement, i))
  }

  /** One frame's turn of the exporter's loop: it fails exactly when the frame is not usable. */
  method AlignFrame(frames: seq<Frame>, parents: seq<int>, movement: string, root: real -> real, single: real -> real,
                    i: nat, locals: array2<JointTRS>, times: array<real>, roots: array<Vec3>)
    returns (r: Result<()>)
    requires IsRoot(root) && ValidParents(parents) && i < |frames| && KnownMovement(movement)
    requires forall k: nat :: k < i ==> ValidFrame(frames[k])
    requires Aligned(frames, parents, movement, root, single, i, locals, times, roots)
    requires times as object != roots
    modifies locals, times, roots
    ensures r.Success? <==> Usable(frames, single, i)
    ensures r.Success? ==> Aligned(frames, parents, movement, root, single, i + 1, locals, times, roots)
  {
    hide Local, Smooth, Dot, Negated, ValidFrame, ValidParents, Offset, IsRoot, KeyTime, RowOf, Row;
    r := ValidateSkeleton(frames[i]);
    if r.Failure? {
      return;
    }
    times[i] := KeyTime(frames, single, i);
    if i > 0 && times[i] <= times[i - 1] {
      return Failure("timestamps must increase at GLB precision");
    }
    AlignRow(locals, i, frames, parents, root);
    var place := RootOffset(frames, movement, i);
    roots[i] := place;
  }

  method AlignTracks(frames: seq<Frame>, names: seq<string>, parents: seq<int>, movement: string,
                     root: real -> real, single: real -> real)
    returns (r: Result<()>, locals: array2<JointTRS>, times: array<real>, roots: array<Vec3>)
    requires IsRoot(root)
    ensures fresh(locals) && fresh(times) && fresh(roots)
    ensures r.Success? <==> Exportable(frames, names, parents, movement, single)
    ensures r.Success? ==>
      && (forall k: nat :: k < |frames| ==> ValidFrame(frames[k]))
      && Aligned(frames, parents, movement, root, single, |frames|, locals, times, roots)
  {
    hide Usable, ValidFrame, ValidParents, IsRoot, RowOf, Row;
    var n := |frames|;
    locals := new JointTRS[n, JOINTS]((_, _) => JointTRS(ORIGIN, ONE, ORIGIN));
    times := new real[n](_ => 0.0);
    roots := new Vec3[n](_ => ORIGIN);
    if n == 0 || n > CaptureModel.MAX_TRACK_FRAMES {
      return Failure("export requires 1-1800 poses"), locals, times, roots;
    }
    if movement != "in-place" && movement != "camera" {
      return Failure("movement must be in-place or camera"), locals, times, roots;
    }
    r := SkeletonTopology(names, parents);
    if r.Failure? {
      return;
    }
    var i := 0;
    while i < n
      invariant 0 <= i <= n && r.Success?
      invariant forall k: nat :: k < i ==> Usable(frames, single, k)
      invariant forall k: nat :: k < i ==> ValidFrame(frames[k])
      invariant Aligned(frames, parents, movement, root, single, i, locals, times, roots)
    {
      r := AlignFrame(frames, parents, movement, root, single, i, locals, times, roots);
      if r.Failure? {
        return;
      }
      UsableValid(frames, single, i);
      i := i + 1;
    }
  }

  lemma UsableValid(frames: seq<Frame>, single: real -> real, i: nat)
    requires i < |frames| && Usable(frames, single, i)
    ensures ValidFrame(frames[i])
  {
  }

  lemma DotNegated(p: Quat, q: Quat)
    ensures Dot(p, Negated(q)) == -Dot(p, q)
  {
  }

  /** Interpolation between neighbouring keys takes the short way round. */
  lemma SmoothFlows(frames: seq<Frame>, parents: seq<int>, root: real -> real, i: nat, j: nat)
    requires IsRoot(root) && ValidParents(parents) && i + 1 < |frames| && j < JOINTS
    requires forall k: nat :: k <= i + 1 ==> ValidFrame(frames[k])
    ensures Dot(Smooth(frames, parents, root, i, j).rotation, Smooth(frames, parents, root, i + 1, j).rotation) >= 0.0
  {
    hide Local, Dot, Negated, ValidFrame, ValidParents;
    DotNegated(Smooth(frames, parents, root, i, j).rotation, Local(frames[i + 1], parents, root, j).rotation);
  }

  lemma SmoothSame(frames: seq<Frame>, parents: seq<int>, root: real -> real, i: nat, j: nat)
    requires IsRoot(root) && ValidParents(parents) && i < |frames| && j < JOINTS
    requires forall k: nat :: k <= i ==> ValidFrame(frames[k])
    ensures SameNode(Smooth(frames, parents, root, i, j), Local(frames[i], parents, root, j))
  {
    hide Local, Dot, Negated, ValidFrame, ValidParents;
  }

  /** In frame `i` the chain of exported joint nodes takes every point of every joint's
      space to where the frame's own global state does. */
  lemma FramePlaced(frames: seq<Frame>, parents: seq<int>, root: real -> real, i: nat, j: nat, v: Vec3)
    requires IsRoot(root) && ValidParents(parents) && i < |frames| && j < JOINTS
    requires forall k: nat :: k <= i ==> ValidFrame(frames[k])
    ensures Placed(Row(frames, parents, root, i), parents, j, v) == Act(Global(frames[i], root, j), v)
  {
    hide Local, Dot, Negated, ValidFrame, ValidParents, SameNode, Placed, Act;
    forall m: nat | m < JOINTS ensures SameNode(Row(frames, parents, root, i)[m], Local(frames[i], parents, root, m)) {
      SmoothSame(frames, parents, root, i, m);
    }
    ChainIsGlobal(frames[i], parents, root, Row(frames, parents, root, i), j, v);
  }

  lemma ActOrigin(t: Transform)
    ensures Act(t, ORIGIN) == t.position
  {
  }

  /** The in-place offset moves joint 1, the pelvis, back to where the first frame put it. */
  lemma OffsetHolds(frames: seq<Frame>, root: real -> real, i: nat)
    requires IsRoot(root) && i < |frames| && |frames| > 1 && ValidFrame(frames[0]) && ValidFrame(frames[i])
    ensures Plus(Offset(frames, "in-place", i), Act(Global(frames[i], root, 1), ORIGIN)) == Global(frames[0], root, 1).position
  {
    hide Act, Norm2, Normalized, ValidFrame;
    ActOrigin(Global(frames[i], root, 1));
  }

  /** Every key comes after the one before it. */
  predicate KeysGrow(frames: seq<Frame>, single: real -> real) {
    forall i: nat | i + 1 < |frames| ::
      single(frames[i].time - frames[0].time) < single(frames[i + 1].time - frames[0].time)
  }

  /** What can be exported: up to 1800 valid frames whose times since the first increase in
      single precision, a known movement, and 127 joints, each after its parent. */
  lemma ExportNumbers(frames: seq<Frame>, names: seq<string>, parents: seq<int>, movement: string, single: real -> real)
    ensures Exportable(frames, names, parents, movement, single) <==>
              && 1 <= |frames| <= 1800 && (movement == "in-place" || movement == "camera")
              && |names| == 127 && |parents| == 127 && parents[0] == -1 && (forall j: nat | 0 < j < 127 :: 0 <= parents[j] < j)
              && (forall i: nat | i < |frames| :: ValidFrame(frames[i]))
              && KeysGrow(frames, single)
  {
    hide ValidFrame;
    if Exportable(frames, names, parents, movement, single) {
      forall i: nat | i < |frames| ensures ValidFrame(frames[i]) {
        assert Usable(frames, single, i);
      }
      forall i: nat | i + 1 < |frames|
        ensures single(frames[i].time - frames[0].time) < single(frames[i + 1].time - frames[0].time)
      {
        assert Usable(frames, single, i + 1);
      }
    }
    if KeysGrow(frames, single) {
      forall i: nat | 0 < i < |frames| ensures KeyTime(frames, single, i - 1) < KeyTime(frames, single, i) {
        var k: nat := i - 1;
        assert single(frames[k].time - frames[0].time) < single(frames[k + 1].time - frames[0].time);
      }
    }
  }
}
