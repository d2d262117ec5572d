/**
 What the exported hierarchy means: composing the parent-relative states down
 any accepted topology puts every joint where the frame itself puts it.
 */
module SkeletonHierarchy {
  import opened Quaternions
  import opened Skeleton

  function Hadamard(a: Vec3, b: Vec3): Vec3 {
    Vec3(a.x * b.x, a.y * b.y, a.z * b.z)
  }

  /** Where a transform takes a point. */
  function Act(t: Transform, v: Vec3): Vec3 {
    Plus(t.position, Rotated(t.rotation, Times(t.scale, v)))
  }

  /** Where a scene node takes a point of its own space: glTF 2.0, section 3.5.3. */
  function ActNode(l: JointTRS, v: Vec3): Vec3 {
    Plus(l.translation, Rotated(l.rotation, Hadamard(l.scale, v)))
  }

  /** The transform of a node of uniform scale under a parent transform. */
  function Compose(p: Transform, l: JointTRS): Transform {
    Transform(Plus(p.position, Rotated(p.rotation, Times(p.scale, l.translation))),
              Qmul(p.rotation, l.rotation),
              p.scale * l.scale.x)
  }

  function World(locals: seq<JointTRS>, parents: seq<int>, j: nat): Transform
    requires ValidParents(parents) && |locals| == JOINTS && j < JOINTS
    decreases j
  {
    if j == 0 then Transform(locals[0].translation, locals[0].rotation, locals[0].scale.x)
    else Compose(World(locals, parents, parents[j]), locals[j])
  }

  /** Where the whole chain of nodes above joint `j` takes a point of its space. */
  function Placed(locals: seq<JointTRS>, parents: seq<int>, j: nat, v: Vec3): Vec3
    requires ValidParents(parents) && |locals| == JOINTS && j < JOINTS
    decreases j
  {
    var w := ActNode(locals[j], v);
    if j == 0 then w else Placed(locals, parents, parents[j], w)
  }

  lemma ScaleBack(s: real, v: Vec3)
    requires s != 0.0
    ensures Times(s, Divided(v, s)) == v
  {
  }

  lemma Quotient(s: real, t: real, x: real)
    requires s != 0.0
    ensures s * (t / s * x) == t * x
  {
  }

  lemma TimesQuotient(s: real, t: real, v: Vec3)
    requires s != 0.0
    ensures Times(s, Times(t / s, v)) == Times(t, v)
  {
    Quotient(s, t, v.x);
    Quotient(s, t, v.y);
    Quotient(s, t, v.z);
  }

  lemma TimesPlus(s: real, u: Vec3, v: Vec3)
    ensures Times(s, Plus(u, v)) == Plus(Times(s, u), Times(s, v))
  {
  }

  lemma TimesUnit(v: Vec3)
    ensures Times(1.0 * 1.0, v) == v
  {
  }

  lemma HadamardUniform(s: real, v: Vec3)
    ensures Hadamard(Vec3(s, s, s), v) == Times(s, v)
  {
  }

  lemma Return(a: Vec3, b: Vec3, c: Vec3)
    ensures Plus(a, Plus(Minus(b, a), c)) == Plus(b, c)
    ensures Plus(a, Minus(b, a)) == b
  {
  }

  // The parent's rotation and scale undo those taken out of the offset.
  lemma OffsetRestored(p: Quat, s: real, d: Vec3)
    requires Norm2(p) == 1.0 && s != 0.0
    ensures Rotated(p, Times(s, Divided(Rotated(Qinv(p), d), s))) == d
  {
    hide Norm2, Rotated, Times, Divided;
    ScaleBack(s, Rotated(Qinv(p), d));
    RotatedInverse(p, d);
    TimesUnit(d);
  }

  lemma RelativeComposes(p: Transform, c: Transform)
    requires Norm2(p.rotation) == 1.0 && p.scale != 0.0
    ensures Compose(p, Relative(p, c)) == c
  {
    hide Norm2, Qmul, Rotated, Times, Divided, Plus, Minus;
    OffsetRestored(p.rotation, p.scale, Minus(c.position, p.position));
    Return(p.position, c.position, c.position);
    QmulCancels(p.rotation, c.rotation);
  }

  /** Composing the parent-relative states gives the global state back, exactly:
      position, unit rotation and scale of every joint. */
  lemma {:induction false} WorldIsGlobal(f: Frame, parents: seq<int>, root: real -> real, locals: seq<JointTRS>, j: nat)
    requires IsRoot(root) && ValidFrame(f) && ValidParents(parents) && j < JOINTS
    requires |locals| == JOINTS && forall i: nat :: i < JOINTS ==> locals[i] == Local(f, parents, root, i)
    ensures World(locals, parents, j) == Global(f, root, j)
    decreases j
  {
    hide Norm2, Normalized, Compose, Relative;
    if j == 0 {
    } else {
      var p := parents[j];
      WorldIsGlobal(f, parents, root, locals, p);
      UnitRotation(f, root, p);
      assert ValidJoint(f.globals, p);
      RelativeComposes(Global(f, root, p), Global(f, root, j));
    }
  }

  // A node chain acts as the composed transform does, one link at a time.
  lemma RelativeActs(p: Transform, c: Transform, v: Vec3)
    requires Norm2(p.rotation) == 1.0 && p.scale != 0.0
    ensures Act(p, ActNode(Relative(p, c), v)) == Act(c, v)
  {
    hide Norm2, Qmul, Rotated, Times, Divided, Plus, Minus, Hadamard;
    var r, s := Relative(p, c), c.scale / p.scale;
    var turn := Rotated(r.rotation, Times(s, v));
    HadamardUniform(s, v);
    TimesPlus(p.scale, r.translation, turn);
    RotatedPlus(p.rotation, Times(p.scale, r.translation), Times(p.scale, turn));
    OffsetRestored(p.rotation, p.scale, Minus(c.position, p.position));
    calc {
      Rotated(p.rotation, Times(p.scale, turn));
    ==  { RotatedLinear(r.rotation, p.scale, Times(s, v)); }
      Rotated(p.rotation, Rotated(r.rotation, Times(p.scale, Times(s, v))));
    ==  { TimesQuotient(p.scale, c.scale, v); }
      Rotated(p.rotation, Rotated(r.rotation, Times(c.scale, v)));
    ==  { RotatedComposes(p.rotation, r.rotation, Times(c.scale, v)); }
      Rotated(Qmul(p.rotation, r.rotation), Times(c.scale, v));
    ==  { QmulCancels(p.rotation, c.rotation); }
      Rotated(c.rotation, Times(c.scale, v));
    }
    Return(p.position, c.position, Rotated(c.rotation, Times(c.scale, v)));
  }

  /** `l` is `m`, up to the sign of its rotation. */
  predicate SameNode(l: JointTRS, m: JointTRS) {
    l.translation == m.translation && l.scale == m.scale && (l.rotation == m.rotation || l.rotation == Negated(m.rotation))
  }

  lemma SameNodeActs(l: JointTRS, m: JointTRS, v: Vec3)
    requires SameNode(l, m)
    ensures ActNode(l, v) == ActNode(m, v)
  {
    hide Rotated, Negated;
    RotatedNegated(m.rotation, Hadamard(m.scale, v));
  }

  /** The chain of exported nodes takes every point of a joint's space where the
      frame's own state takes it, whichever sign each rotation carries. */
  lemma {:induction false} ChainIsGlobal(f: Frame, parents: seq<int>, root: real -> real, locals: seq<JointTRS>, j: nat, v: Vec3)
    requires IsRoot(root) && ValidFrame(f) && ValidParents(parents) && j < JOINTS
    requires |locals| == JOINTS && forall i: nat :: i < JOINTS ==> SameNode(locals[i], Local(f, parents, root, i))
    ensures Placed(locals, parents, j, v) == Act(Global(f, root, j), v)
    decreases j
  {
    hide Norm2, Normalized, Act, ActNode, Relative, SameNode;
    SameNodeActs(locals[j], Local(f, parents, root, j), v);
    if j == 0 {
      RootActs(Global(f, root, 0), v);
    } else {
      var p := parents[j];
      ChainIsGlobal(f, parents, root, locals, p, ActNode(locals[j], v));
      UnitRotation(f, root, p);
      assert ValidJoint(f.globals, p);
      RelativeActs(Global(f, root, p), Global(f, root, j), v);
    }
  }

  lemma RootActs(g: Transform, v: Vec3)
    ensures ActNode(JointTRS(g.position, g.rotation, Vec3(g.scale, g.scale, g.scale)), v) == Act(g, v)
  {
    hide Rotated;
    HadamardUniform(g.scale, v);
  }
}
