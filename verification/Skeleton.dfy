/**
 Skeleton frames of the demo server: validation, the topology check, and the
 conversion of global joint states into a parent-relative hierarchy.
 */
module Skeleton {
  import opened Wrappers
  import opened Quaternions
  import opened Reals

  const JOINTS: nat := 127

  /** Global joint states, eight numbers a joint: centimetres, XYZW rotation, uniform scale. */
  datatype Frame = Frame(time: real, globals: seq<real>, camera: seq<real>)

  datatype JointTRS = JointTRS(translation: Vec3, rotation: Quat, scale: Vec3)

  /** A joint's place in the world: scale, then rotate, then move. */
  datatype Transform = Transform(position: Vec3, rotation: Quat, scale: real)

  function Coordinate(s: seq<real>, j: nat, k: nat): real
    requires k < 8 && 8 * j + 8 <= |s|
  {
    s[8 * j + k]
  }

  function Position(s: seq<real>, j: nat): Vec3
    requires 8 * j + 8 <= |s|
  {
    Vec3(s[8 * j], s[8 * j + 1], s[8 * j + 2])
  }

  function Rotation(s: seq<real>, j: nat): Quat
    requires 8 * j + 8 <= |s|
  {
    Quat(s[8 * j + 3], s[8 * j + 4], s[8 * j + 5], s[8 * j + 6])
  }

  function Scale(s: seq<real>, j: nat): real
    requires 8 * j + 8 <= |s|
  {
    s[8 * j + 7]
  }

  predicate ValidJoint(s: seq<real>, j: nat)
    requires 8 * j + 8 <= |s|
  {
    && Abs(Norm2(Rotation(s, j)) - 1.0) <= 0.01
    && 0.00001 <= Scale(s, j) <= 100000.0
    && forall k: nat :: k < 3 ==> Abs(Coordinate(s, j, k)) <= 10000.0
  }

  predicate ValidFrame(f: Frame) {
    && f.time >= 0.0
    && |f.globals| == JOINTS * 8
    && |f.camera| == 3
    && (forall k: nat :: k < 3 ==> Abs(f.camera[k]) <= 100.0)
    && forall j: nat :: j < JOINTS ==> ValidJoint(f.globals, j)
  }

  method ValidateSkeleton(f: Frame) returns (r: Result<()>)
    ensures r.Success? <==> ValidFrame(f)
  {
    hide Norm2;
    if f.time < 0.0 || |f.globals| != JOINTS * 8 || |f.camera| != 3 {
      return Failure("skeleton transforms unavailable; reprocess with the current native runner");
    }
    var c := 0;
    while c < 3
      invariant 0 <= c <= 3
      invariant forall k: nat :: k < c ==> Abs(f.camera[k]) <= 100.0
    {
      if Abs(f.camera[c]) > 100.0 {
        return Failure("invalid skeleton camera");
      }
      c := c + 1;
    }
    var j := 0;
    while j < JOINTS
      invariant 0 <= j <= JOINTS
      invariant forall i: nat :: i < j ==> ValidJoint(f.globals, i)
    {
      var n := Norm2(Rotation(f.globals, j));
      if Abs(n - 1.0) > 0.01 || Scale(f.globals, j) < 0.00001 || Scale(f.globals, j) > 100000.0 {
        assert !ValidJoint(f.globals, j);
        return Failure("invalid joint rotation/scale");
      }
      var k := 0;
      while k < 3
        invariant 0 <= k <= 3
        invariant forall i: nat :: i < k ==> Abs(Coordinate(f.globals, j, i)) <= 10000.0
      {
        if Abs(Coordinate(f.globals, j, k)) > 10000.0 {
          assert !ValidJoint(f.globals, j);
          return Failure("extreme joint position");
        }
        k := k + 1;
      }
      j := j + 1;
    }
    return Success(());
  }

  /** Joint 0 is the root, and every other joint comes after its parent. */
  predicate ValidParents(parents: seq<int>) {
    && |parents| == JOINTS
    && parents[0] == -1
    && forall j: nat :: 0 < j < JOINTS ==> 0 <= parents[j] < j
  }

  method SkeletonTopology(names: seq<string>, parents: seq<int>) returns (r: Result<()>)
    ensures r.Success? <==> |names| == JOINTS && ValidParents(parents)
  {
    if |names| != JOINTS || |parents| != JOINTS {
      return Failure("invalid skeleton topology");
    }
    var j := 0;
    while j < JOINTS
      invariant 0 <= j <= JOINTS
      invariant j > 0 ==> parents[0] == -1
      invariant forall i: nat :: 0 < i < j ==> 0 <= parents[i] < i
    {
      var p := parents[j];
      if (j == 0 && p != -1) || (j > 0 && (p < 0 || p >= j)) {
        return Failure("invalid skeleton parent");
      }
      j := j + 1;
    }
    return Success(());
  }

  /** Where the frame itself puts joint `j`, in metres. */
  ghost function Global(f: Frame, root: real -> real, j: nat): Transform
    requires IsRoot(root) && ValidFrame(f) && j < JOINTS
  {
    UnitRotation(f, root, j);
    Transform(Divided(Position(f.globals, j), 100.0), Normalized(Rotation(f.globals, j), root), Scale(f.globals, j))
  }

  /** A valid joint's rotation can be normalized. */
  lemma UnitRotation(f: Frame, root: real -> real, j: nat)
    requires IsRoot(root) && ValidFrame(f) && j < JOINTS
    ensures Norm2(Rotation(f.globals, j)) > 0.0
    ensures root(Norm2(Rotation(f.globals, j))) > 0.0
    ensures Norm2(Normalized(Rotation(f.globals, j), root)) == 1.0
  {
    hide Norm2, Normalized, Rotation;
    assert ValidJoint(f.globals, j);
    NormalizedUnit(Rotation(f.globals, j), root);
  }

  /** `child` as seen from `parent`. */
  ghost function Relative(parent: Transform, child: Transform): JointTRS
    requires parent.scale != 0.0
  {
    var s := child.scale / parent.scale;
    JointTRS(
      Divided(Rotated(Qinv(parent.rotation), Minus(child.position, parent.position)), parent.scale),
      Qmul(Qinv(parent.rotation), child.rotation),
      Vec3(s, s, s))
  }

  ghost function Local(f: Frame, parents: seq<int>, root: real -> real, j: nat): JointTRS
    requires IsRoot(root) && ValidFrame(f) && ValidParents(parents) && j < JOINTS
  {
    if j == 0 then
      var g := Global(f, root, 0);
      JointTRS(g.position, g.rotation, Vec3(g.scale, g.scale, g.scale))
    else
      assert ValidJoint(f.globals, parents[j]);
      Relative(Global(f, root, parents[j]), Global(f, root, j))
  }

  lemma RelativeUnit(p: Quat, q: Quat, root: real -> real)
    requires IsRoot(root) && Norm2(p) == 1.0 && Norm2(q) == 1.0
    ensures root(Norm2(Qmul(Qinv(p), q))) == 1.0
    ensures Normalized(Qmul(Qinv(p), q), root) == Qmul(Qinv(p), q)
  {
    hide Norm2, Qmul, Normalized;
    Norm2Multiplies(Qinv(p), q);
    Norm2Qinv(p);
    NormalizedFixed(Qmul(Qinv(p), q), root);
  }

  lemma Norm2Qinv(q: Quat)
    ensures Norm2(Qinv(q)) == Norm2(q)
  {
  }

  /** The parent-relative states of one frame. */
  method LocalSkeleton(f: Frame, parents: seq<int>, root: real -> real) returns (out: array<JointTRS>)
    requires IsRoot(root) && ValidFrame(f) && ValidParents(parents)
    ensures fresh(out) && out.Length == JOINTS
    ensures forall j: nat :: j < JOINTS ==> out[j] == Local(f, parents, root, j)
  {
    hide Norm2, Normalized, Qmul, Rotated;
    out := new JointTRS[JOINTS](_ => JointTRS(Vec3(0.0, 0.0, 0.0), ONE, Vec3(0.0, 0.0, 0.0)));
    var j := 0;
    while j < JOINTS
      invariant 0 <= j <= JOINTS
      invariant forall i: nat :: i < j ==> out[i] == Local(f, parents, root, i)
    {
      var p := parents[j];
      UnitRotation(f, root, j);
      var q := Normalized(Rotation(f.globals, j), root);
      var tr := Divided(Position(f.globals, j), 100.0);
      var scale := Scale(f.globals, j);
      if p >= 0 {
        UnitRotation(f, root, p);
        assert ValidJoint(f.globals, p);
        var pq := Normalized(Rotation(f.globals, p), root);
        tr := Minus(tr, Divided(Position(f.globals, p), 100.0));
        tr := Rotated(Qinv(pq), tr);
        tr := Divided(tr, Scale(f.globals, p));
        RelativeUnit(pq, q, root);
        q := Normalized(Qmul(Qinv(pq), q), root);
        scale := scale / Scale(f.globals, p);
      }
      out[j] := JointTRS(tr, q, Vec3(scale, scale, scale));
      j := j + 1;
    }
  }

  /** The numbers of one joint: a position within a hundred metres, a rotation whose squared
      norm is off by one percent at most, and a scale. */
  predicate JointNumbers(x: real, y: real, z: real, q0: real, q1: real, q2: real, q3: real, scale: real) {
    && -10000.0 <= x <= 10000.0 && -10000.0 <= y <= 10000.0 && -10000.0 <= z <= 10000.0
    && 0.99 <= q0 * q0 + q1 * q1 + q2 * q2 + q3 * q3 <= 1.01
    && 0.00001 <= scale <= 100000.0
  }

  /** The eight numbers of joint `j` are those of a joint. */
  predicate JointRow(s: seq<real>, j: nat)
    requires 8 * j + 8 <= |s|
  {
    var g := s[8 * j..8 * j + 8];
    JointNumbers(g[0], g[1], g[2], g[3], g[4], g[5], g[6], g[7])
  }

  /** What a valid frame is, number by number: 1016 numbers for the joints, eight for each,
      and three for the camera. */
  lemma FrameNumbers(f: Frame)
    ensures ValidFrame(f) <==>
              && f.time >= 0.0 && |f.globals| == 1016 && |f.camera| == 3
              && -100.0 <= f.camera[0] <= 100.0 && -100.0 <= f.camera[1] <= 100.0 && -100.0 <= f.camera[2] <= 100.0
              && forall j: nat | j < 127 :: JointRow(f.globals, j)
  {
    hide ValidJoint, JointRow;
    if |f.globals| == 1016 {
      forall j: nat | j < 127 ensures ValidJoint(f.globals, j) <==> JointRow(f.globals, j) {
        JointMeans(f.globals, j);
      }
    }
    if |f.camera| == 3 && -100.0 <= f.camera[0] <= 100.0 && -100.0 <= f.camera[1] <= 100.0 && -100.0 <= f.camera[2] <= 100.0 {
      forall k: nat | k < 3 ensures Abs(f.camera[k]) <= 100.0 {
        assert k == 0 || k == 1 || k == 2;
      }
    }
  }

  lemma JointMeans(s: seq<real>, j: nat)
    requires 8 * j + 8 <= |s|
    ensures ValidJoint(s, j) <==> JointRow(s, j)
  {
    var g := s[8 * j..8 * j + 8];
    assert forall k: nat :: k < 8 ==> g[k] == Coordinate(s, j, k);
    assert g[3] == s[8 * j + 3] && g[4] == s[8 * j + 4] && g[5] == s[8 * j + 5] && g[6] == s[8 * j + 6] && g[7] == s[8 * j + 7];
    if JointNumbers(g[0], g[1], g[2], g[3], g[4], g[5], g[6], g[7]) {
      forall k: nat | k < 3 ensures Abs(Coordinate(s, j, k)) <= 10000.0 {
        assert k == 0 || k == 1 || k == 2;
      }
    }
  }
}
