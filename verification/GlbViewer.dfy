/**
 The exported file as a viewer sees it, in the numbers of the pose frames: what the
 bytes of each channel say at a key, and where the scene posed with them puts every
 point of every joint.
 */
module GlbViewer {
  import opened Wrappers
  import opened Bytes
  import opened Quaternions
  import opened Skeleton
  import opened SkeletonHierarchy
  import opened SkeletonExport
  import opened GlbBuffer
  import opened GlbNodes
  import opened GlbScene
  import opened SkeletonGlb

  // ----- rotation in numbers

  /** The rotation matrix of a quaternion, times the square of its norm. */
  function Turned(q: Quat, v: Vec3): Vec3 {
    var (x, y, z, w) := (q.x, q.y, q.z, q.w);
    Vec3((w * w + x * x - y * y - z * z) * v.x + 2.0 * (x * y - w * z) * v.y + 2.0 * (x * z + w * y) * v.z,
         2.0 * (x * y + w * z) * v.x + (w * w - x * x + y * y - z * z) * v.y + 2.0 * (y * z - w * x) * v.z,
         2.0 * (x * z - w * y) * v.x + 2.0 * (y * z + w * x) * v.y + (w * w - x * x - y * y + z * z) * v.z)
  }

  const RIGHT := Vec3(1.0, 0.0, 0.0)
  const UP := Vec3(0.0, 1.0, 0.0)
  const BACK := Vec3(0.0, 0.0, 1.0)

  lemma RotatedRight(q: Quat)
    ensures Rotated(q, RIGHT) == Turned(q, RIGHT)
  {
  }

  lemma RotatedUp(q: Quat)
    ensures Rotated(q, UP) == Turned(q, UP)
  {
  }

  lemma RotatedBack(q: Quat)
    ensures Rotated(q, BACK) == Turned(q, BACK)
  {
  }

  lemma TurnedLinear(q: Quat, v: Vec3)
    ensures Turned(q, v) == Plus(Plus(Times(v.x, Turned(q, RIGHT)), Times(v.y, Turned(q, UP))), Times(v.z, Turned(q, BACK)))
  {
  }

  /** The quaternion product rotates as the matrix does. */
  lemma RotatedTurns(q: Quat, v: Vec3)
    ensures Rotated(q, v) == Turned(q, v)
  {
    hide Rotated, Turned;
    RotatedRight(q);
    RotatedUp(q);
    RotatedBack(q);
    TurnedLinear(q, v);
    RotatedLinear(q, v.x, RIGHT);
    RotatedLinear(q, v.y, UP);
    RotatedLinear(q, v.z, BACK);
    RotatedPlus(q, Times(v.x, RIGHT), Times(v.y, UP));
    RotatedPlus(q, Plus(Times(v.x, RIGHT), Times(v.y, UP)), Times(v.z, BACK));
    assert Plus(Plus(Times(v.x, RIGHT), Times(v.y, UP)), Times(v.z, BACK)) == v;
  }

  lemma ImaginaryScaled(n: real, p: Quat)
    ensures Imaginary(Scaled(n, Scaled(n, p))) == Times(n * n, Imaginary(p))
  {
  }

  lemma RotatedScaled(n: real, q: Quat, v: Vec3)
    ensures Rotated(Scaled(n, q), v) == Times(n * n, Rotated(q, v))
  {
    hide Qmul, Qinv, Scaled, Times, Imaginary;
    QinvScaled(n, q);
    QmulScaled(n, q, Pure(v));
    QmulScaled(n, Qmul(q, Pure(v)), Scaled(n, Qinv(q)));
    QmulScaledRight(n, Qmul(q, Pure(v)), Qinv(q));
    ImaginaryScaled(n, Qmul(Qmul(q, Pure(v)), Qinv(q)));
  }

  lemma ScaledOver(q: Quat, n: real)
    requires n != 0.0
    ensures Scaled(n, Over(q, n)) == q
  {
  }

  lemma TimesUndone(m: real, u: Vec3, v: Vec3)
    requires m != 0.0 && Times(m, u) == v
    ensures u == Divided(v, m)
  {
    hide Plus;
    Undone(m, u.x, v.x);
    Undone(m, u.y, v.y);
    Undone(m, u.z, v.z);
  }

  lemma Undone(m: real, x: real, y: real)
    requires m != 0.0 && m * x == y
    ensures x == y / m
  {
  }

  // ----- a frame in numbers

  /** The square of the norm of joint `j`'s quaternion. */
  function TurnNorm(f: Frame, j: nat): real
    requires 8 * j + 8 <= |f.globals|
  {
    var g, b := f.globals, 8 * j;
    g[b + 3] * g[b + 3] + g[b + 4] * g[b + 4] + g[b + 5] * g[b + 5] + g[b + 6] * g[b + 6]
  }

  /** Where pose frame `f` puts point `v` of joint `j`'s space, in metres: scaled, turned
      by the rotation matrix of the joint's quaternion, and moved by its position. */
  function FramePoint(f: Frame, j: nat, v: Vec3): Vec3
    requires 8 * j + 8 <= |f.globals| && TurnNorm(f, j) != 0.0
  {
    var g, b := f.globals, 8 * j;
    var turned, norm := Turned(Quat(g[b + 3], g[b + 4], g[b + 5], g[b + 6]), v), TurnNorm(f, j);
    Vec3(g[b] / 100.0 + g[b + 7] * (turned.x / norm),
         g[b + 1] / 100.0 + g[b + 7] * (turned.y / norm),
         g[b + 2] / 100.0 + g[b + 7] * (turned.z / norm))
  }

  lemma Measured(f: Frame, root: real -> real, j: nat)
    requires IsRoot(root) && ValidFrame(f) && j < JOINTS
    ensures 8 * j + 8 <= |f.globals| && TurnNorm(f, j) == Norm2(Rotation(f.globals, j)) > 0.0
  {
    UnitRotation(f, root, j);
    hide ValidFrame, Normalized, IsRoot;
  }

  lemma NormalizedTurns(q: Quat, root: real -> real, v: Vec3)
    requires IsRoot(root) && Norm2(q) > 0.0
    ensures root(Norm2(q)) > 0.0 && Rotated(Normalized(q, root), v) == Divided(Turned(q, v), Norm2(q))
  {
    hide Norm2, Rotated, Turned, Scaled, Times, Over, Divided;
    var n := root(Norm2(q));
    assert n * n == Norm2(q);
    ScaledOver(q, n);
    RotatedScaled(n, Over(q, n), v);
    RotatedTurns(q, v);
    TimesUndone(Norm2(q), Rotated(Over(q, n), v), Turned(q, v));
  }

  /** The global state of a joint, as the exporter uses it, is that point. */
  lemma GlobalPoint(f: Frame, root: real -> real, j: nat, v: Vec3)
    requires IsRoot(root) && ValidFrame(f) && j < JOINTS
    ensures 8 * j + 8 <= |f.globals| && TurnNorm(f, j) > 0.0
    ensures Act(Global(f, root, j), v) == FramePoint(f, j, v)
  {
    hide ValidFrame, IsRoot, Rotated, Turned, Norm2, Normalized, TurnNorm;
    Measured(f, root, j);
    var q := Rotation(f.globals, j);
    NormalizedTurns(q, root, v);
    RotatedLinear(Normalized(q, root), Scale(f.globals, j), v);
  }

  // ----- the scene in numbers

  /** Where the export moves the root in frame `i`: to the camera's translation with y
      and z turned round; or, in place, by what holds joint 1 at its first position. */
  function RootPlace(s: Scene, i: nat): Vec3
    requires i < |s.frames| && forall k: nat :: k < |s.frames| ==> |s.frames[k].globals| >= 16 && |s.frames[k].camera| == 3
  {
    if s.movement == "camera" then
      Vec3(s.frames[i].camera[0], 0.0 - s.frames[i].camera[1], 0.0 - s.frames[i].camera[2])
    else if |s.frames| == 1 then Vec3(0.0, 0.0, 0.0)
    else
      Vec3((s.frames[0].globals[8] - s.frames[i].globals[8]) / 100.0,
           (s.frames[0].globals[9] - s.frames[i].globals[9]) / 100.0,
           (s.frames[0].globals[10] - s.frames[i].globals[10]) / 100.0)
  }

  lemma Sizes(s: Scene)
    requires Ready(s)
    ensures forall k: nat :: k < |s.frames| ==> |s.frames[k].globals| == 8 * JOINTS && |s.frames[k].camera| == 3
    ensures |s.parents| == JOINTS
  {
  }

  lemma OffsetPlace(s: Scene, i: nat)
    requires Ready(s) && i < |s.frames|
    ensures forall k: nat :: k < |s.frames| ==> |s.frames[k].globals| >= 16 && |s.frames[k].camera| == 3
    ensures Offset(s.frames, s.movement, i) == RootPlace(s, i)
  {
    Sizes(s);
    hide ValidParents, IsRoot;
  }

  /** The scene of a single pose: a point of joint `j`'s space, followed up any path of
      the node tree, is where the frame puts it, moved by the root's place. */
  lemma StillPlaced(s: Scene, names: seq<string>, doc: Document, bin: seq<byte>, bits: real -> Word32, path: seq<nat>, j: nat, v: Vec3)
    requires Ready(s) && |names| == JOINTS && Holds(s, names, doc, bin, bits) && |s.frames| == 1 && j < JOINTS
    requires Descends(doc.nodes, path) && path[|path| - 1] == j + 1
    ensures (forall k: nat :: k < |path| ==> path[k] < |doc.nodes|) && |s.frames[0].camera| == 3
    ensures 8 * j + 8 <= |s.frames[0].globals| && TurnNorm(s.frames[0], j) > 0.0
    ensures var c := s.frames[0].camera;
            PathPlaced(doc.nodes, path, v)
            == Plus(if s.movement == "camera" then Vec3(c[0], 0.0 - c[1], 0.0 - c[2]) else Vec3(0.0, 0.0, 0.0), FramePoint(s.frames[0], j, v))
  {
    PathInside(doc.nodes, path);
    OffsetPlace(s, 0);
    hide ValidFrame, Smooth, PathPlaced, Descends, FramePoint, TurnNorm, Act, Global, Offset, Placed;
    GlobalPoint(s.frames[0], s.root, j, v);
    var row := Row(s.frames, s.parents, s.root, 0);
    PathIsChain(doc.nodes, names, s.parents, Offset(s.frames, s.movement, 0), row, path, j, v);
    FramePlaced(s.frames, s.parents, s.root, 0, j, v);
  }

  /** The nodes as the animation poses them at key `i`. */
  ghost function AtKey(s: Scene, nodes: seq<Node>, i: nat): (posed: seq<Node>)
    requires Ready(s) && i < |s.frames| && |nodes| == JOINTS + 1
    ensures |posed| == |nodes|
  {
    Posed(nodes, Offset(s.frames, s.movement, i), Row(s.frames, s.parents, s.root, i))
  }

  lemma KeyPlaced(s: Scene, names: seq<string>, nodes: seq<Node>, i: nat, path: seq<nat>, j: nat, v: Vec3)
    requires Ready(s) && |names| == JOINTS && i < |s.frames| && j < JOINTS && |nodes| == JOINTS + 1
    requires Hierarchy(nodes, names, s.parents, Offset(s.frames, s.movement, 0), Row(s.frames, s.parents, s.root, 0))
    requires Descends(nodes, path) && path[|path| - 1] == j + 1
    ensures (forall k: nat :: k < |path| ==> path[k] < |nodes|)
    ensures forall k: nat :: k < |s.frames| ==> |s.frames[k].globals| >= 16 && |s.frames[k].camera| == 3
    ensures 8 * j + 8 <= |s.frames[i].globals| && TurnNorm(s.frames[i], j) > 0.0
    ensures PathPlaced(AtKey(s, nodes, i), path, v) == Plus(RootPlace(s, i), FramePoint(s.frames[i], j, v))
  {
    PathInside(nodes, path);
    OffsetPlace(s, i);
    hide ValidFrame, Smooth, PathPlaced, Descends, FramePoint, TurnNorm, RootPlace, Act, Global, Offset, Row, Hierarchy;
    GlobalPoint(s.frames[i], s.root, j, v);
    ExportedPose(s.frames, names, s.parents, s.movement, s.root, nodes, i, path, j, v);
  }

  // ----- what the bytes say

  /** Channel `x` drives `path` of `node`, and its bytes at key `i` are `words`. */
  predicate ShowsBy(a: Animation, bin: seq<byte>, x: nat, i: nat, node: nat, path: Path, words: seq<Word32>) {
    && x < |a.channels| && a.channels[x].node == node && a.channels[x].path == path
    && a.channels[x].sampler < |a.samplers|
    && var e := Element(bin, a.views, a.accessors, a.samplers[a.channels[x].sampler].output, i);
    && e.Some? && |e.value| == 4 * |words|
    && forall k: nat :: k < |words| ==> e.value[4 * k..4 * k + 4] == words[k]
  }

  /** At key `i` the animation gives `path` of `node` the numbers of these words: one
      channel does, and no other drives the same property. */
  ghost predicate Shows(a: Animation, bin: seq<byte>, i: nat, node: nat, path: Path, words: seq<Word32>) {
    exists x: nat ::
      && ShowsBy(a, bin, x, i, node, path, words)
      && forall y: nat :: y < |a.channels| && a.channels[y].node == node && a.channels[y].path == path ==> y == x
  }

  /** The words of numbers rounded to single precision. */
  function Words(values: seq<real>, single: real -> real, bits: real -> Word32): (w: seq<Word32>)
    ensures |w| == |values|
  {
    seq(|values|, k requires 0 <= k < |values| => bits(single(values[k])))
  }

  lemma PackedWords(values: seq<real>, single: real -> real, bits: real -> Word32, k: nat)
    requires k < |values|
    ensures |Packed(Singles(values, single), bits)| == 4 * |values|
    ensures Packed(Singles(values, single), bits)[4 * k..4 * k + 4] == bits(single(values[k]))
  {
    var all := Singles(values, single);
    PackedAt(all, bits, k, 1);
    var one := all[k..k + 1];
    assert one[..0] == [];
  }

  lemma ChannelShows(s: Scene, a: Animation, bits: real -> Word32, i: nat, node: nat, path: Path)
    requires Ready(s) && i < |s.frames| && Animated(node, path)
    requires Described(Columns(s, CHANNELS), a.views, a.accessors) && Wired(a.samplers, a.channels, CHANNELS)
    ensures Shows(a, Encoded(Columns(s, CHANNELS), bits), i, node, path, Words(NodeKey(s, i, node, path), s.single, bits))
  {
    hide Ready, Columns, Encoded, Element, NodeKey, TargetNode, TargetPath, Described, Packed, Singles;
    var x := ChannelFor(node, path);
    TargetsDistinct(x, node, path);
    KeyRead(s, a, bits, x, i);
    var values := NodeKey(s, i, node, path);
    forall k: nat | k < |values|
      ensures |Packed(Singles(values, s.single), bits)| == 4 * |values|
      ensures Packed(Singles(values, s.single), bits)[4 * k..4 * k + 4] == bits(s.single(values[k]))
    {
      PackedWords(values, s.single, bits, k);
    }
    assert |values| > 0;
    assert |Packed(Singles(values, s.single), bits)| == 4 * |values| by { PackedWords(values, s.single, bits, 0); }
    assert ShowsBy(a, Encoded(Columns(s, CHANNELS), bits), x, i, node, path, Words(values, s.single, bits));
    forall y: nat | y < |a.channels| && a.channels[y].node == node && a.channels[y].path == path ensures y == x {
      TargetsDistinct(y, node, path);
      assert a.channels[y] == Channel(y, TargetNode(y), TargetPath(y));
    }
  }

  /** What a viewer finds in an animated export at key `i`: the time since the first
      frame, and numbers for the root's translation and for every joint's translation,
      rotation and scale.  They are single-precision roundings of those of a posed
      scene, and following a point up any path of that scene's node tree gives where
      frame `i` puts it, moved by the root's place. */
  ghost predicate ShowsFrame(s: Scene, doc: Document, bin: seq<byte>, bits: real -> Word32, i: nat, posed: seq<Node>)
    requires i < |s.frames| && doc.animation.Some? && |doc.nodes| == |posed| == JOINTS + 1
    requires forall k: nat :: k < |s.frames| ==> |s.frames[k].globals| == 8 * JOINTS && |s.frames[k].camera| == 3
  {
    var a := doc.animation.value;
    && (forall c: nat :: c < |posed| ==> posed[c].children == doc.nodes[c].children)
    && posed[0].translation == RootPlace(s, i) && posed[0].rotation.None? && posed[0].scale.None?
    && Shows(a, bin, i, 0, TranslationPath, Words([posed[0].translation.x, posed[0].translation.y, posed[0].translation.z], s.single, bits))
    && (forall c: nat :: 0 < c < |posed| ==> ShowsNode(s, a, bin, bits, i, c, posed[c]))
    && forall path: seq<nat>, j: nat, v: Vec3 :: Descends(doc.nodes, path) && j < JOINTS && path[|path| - 1] == j + 1 ==>
         PlacedAs(posed, path, v, s, i, j)
  }

  ghost predicate ShowsNode(s: Scene, a: Animation, bin: seq<byte>, bits: real -> Word32, i: nat, c: nat, n: Node) {
    && n.rotation.Some? && n.scale.Some?
    && var (t, q, z) := (n.translation, n.rotation.value, n.scale.value);
    && Shows(a, bin, i, c, TranslationPath, Words([t.x, t.y, t.z], s.single, bits))
    && Shows(a, bin, i, c, RotationPath, Words([q.x, q.y, q.z, q.w], s.single, bits))
    && Shows(a, bin, i, c, ScalePath, Words([z.x, z.y, z.z], s.single, bits))
  }

  ghost predicate PlacedAs(posed: seq<Node>, path: seq<nat>, v: Vec3, s: Scene, i: nat, j: nat)
    requires i < |s.frames| && j < JOINTS
    requires forall k: nat :: k < |s.frames| ==> |s.frames[k].globals| == 8 * JOINTS && |s.frames[k].camera| == 3
  {
    && (forall k: nat :: k < |path| ==> path[k] < |posed|) && TurnNorm(s.frames[i], j) > 0.0
    && PathPlaced(posed, path, v) == Plus(RootPlace(s, i), FramePoint(s.frames[i], j, v))
  }

  lemma NodeShown(s: Scene, nodes: seq<Node>, a: Animation, bits: real -> Word32, i: nat, c: nat)
    requires Ready(s) && i < |s.frames| && |nodes| == JOINTS + 1 && 0 < c < |nodes|
    requires Described(Columns(s, CHANNELS), a.views, a.accessors) && Wired(a.samplers, a.channels, CHANNELS)
    ensures ShowsNode(s, a, Encoded(Columns(s, CHANNELS), bits), bits, i, c, AtKey(s, nodes, i)[c])
  {
    hide Ready, Columns, Encoded, Shows, Described, Wired, Smooth, Offset;
    ChannelShows(s, a, bits, i, c, TranslationPath);
    ChannelShows(s, a, bits, i, c, RotationPath);
    ChannelShows(s, a, bits, i, c, ScalePath);
  }

  /** Every frame of an animated export is shown at its key. */
  lemma FrameShown(s: Scene, names: seq<string>, doc: Document, bin: seq<byte>, bits: real -> Word32, i: nat) returns (posed: seq<Node>)
    requires Ready(s) && |names| == JOINTS && Holds(s, names, doc, bin, bits) && 1 < |s.frames| && i < |s.frames|
    ensures doc.animation.Some? && |doc.nodes| == |posed| == JOINTS + 1
    ensures forall k: nat :: k < |s.frames| ==> |s.frames[k].globals| == 8 * JOINTS && |s.frames[k].camera| == 3
    ensures ShowsFrame(s, doc, bin, bits, i, posed)
  {
    Sizes(s);
    hide Ready, Columns, Encoded, Shows, Described, Wired, Smooth, Offset, Row, Descends, PathPlaced, FramePoint, TurnNorm, RootPlace, ShowsNode, Hierarchy;
    NodesKnown(s, names, doc.nodes);
    posed := AtKey(s, doc.nodes, i);
    var a := doc.animation.value;
    OffsetPlace(s, i);
    ChannelShows(s, a, bits, i, 0, TranslationPath);
    forall c: nat | 0 < c < |posed| ensures ShowsNode(s, a, bin, bits, i, c, posed[c]) {
      NodeShown(s, doc.nodes, a, bits, i, c);
    }
    forall path: seq<nat>, j: nat, v: Vec3 | Descends(doc.nodes, path) && j < JOINTS && path[|path| - 1] == j + 1
      ensures PlacedAs(posed, path, v, s, i, j)
    {
      KeyPlaced(s, names, doc.nodes, i, path, j, v);
    }
  }

  lemma NodesKnown(s: Scene, names: seq<string>, nodes: seq<Node>)
    requires Ready(s) && |names| == JOINTS
    requires Hierarchy(nodes, names, s.parents, Offset(s.frames, s.movement, 0), Row(s.frames, s.parents, s.root, 0))
    ensures |nodes| == JOINTS + 1 && nodes[0].rotation.None? && nodes[0].scale.None?
  {
    hide Smooth, Offset, ChildrenBelow;
  }

  /** The time of key `i`, as every channel's sampler shows it. */
  lemma TimeShown(s: Scene, a: Animation, bits: real -> Word32, x: nat, i: nat)
    requires Ready(s) && x < CHANNELS && i < |s.frames|
    requires Described(Columns(s, CHANNELS), a.views, a.accessors) && Wired(a.samplers, a.channels, CHANNELS)
    ensures |a.channels| == CHANNELS && a.channels[x].sampler < |a.samplers|
    ensures Element(Encoded(Columns(s, CHANNELS), bits), a.views, a.accessors, a.samplers[a.channels[x].sampler].input, i)
            == Some(bits(s.single(s.frames[i].time - s.frames[0].time)))
  {
    hide Ready, Columns, Encoded, Element, NodeKey, Described;
    KeyRead(s, a, bits, x, i);
  }
}
