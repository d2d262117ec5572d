/**
 The exported scene as a viewer composes it: node by node, from the root down the
 children lists, with the root and the joints posed for one frame.
 */
module GlbScene {
  import opened Wrappers
  import opened Quaternions
  import opened Skeleton
  import opened SkeletonHierarchy
  import opened SkeletonExport
  import opened GlbNodes

  const NO_SCALE := Vec3(1.0, 1.0, 1.0)

  /** Where a node takes a point of its own space; a missing rotation or scale is
      none: glTF 2.0, section 3.5.3. */
  function ActScene(n: Node, v: Vec3): Vec3 {
    ActNode(JointTRS(n.translation, if n.rotation.Some? then n.rotation.value else ONE, if n.scale.Some? then n.scale.value else NO_SCALE), v)
  }

  /** The nodes with the values that the animation gives them in one frame. */
  function Posed(nodes: seq<Node>, root: Vec3, locals: seq<JointTRS>): (posed: seq<Node>)
    requires |nodes| == JOINTS + 1 && |locals| == JOINTS
    ensures |posed| == |nodes|
  {
    seq(|nodes|, c requires 0 <= c < |nodes| =>
      if c == 0 then nodes[0].(translation := root)
      else nodes[c].(translation := locals[c - 1].translation, rotation := Some(locals[c - 1].rotation), scale := Some(locals[c - 1].scale)))
  }

  /** Where a chain of nodes, the root's first, takes a point of the last one's space. */
  function ChainPlaced(chain: seq<Node>, v: Vec3): Vec3 {
    if chain == [] then v else ChainPlaced(chain[..|chain| - 1], ActScene(chain[|chain| - 1], v))
  }

  function NodesOn(nodes: seq<Node>, path: seq<nat>): (chain: seq<Node>)
    requires forall k: nat :: k < |path| ==> path[k] < |nodes|
    ensures |chain| == |path|
  {
    seq(|path|, k requires 0 <= k < |path| => nodes[path[k]])
  }

  /** Where the nodes along a path from the root take a point of the last one's space. */
  function PathPlaced(nodes: seq<Node>, path: seq<nat>, v: Vec3): Vec3
    requires forall k: nat :: k < |path| ==> path[k] < |nodes|
  {
    ChainPlaced(NodesOn(nodes, path), v)
  }

  /** Animating changes no children list, and leaves the root and the joints where their keys say. */
  lemma PosedHierarchy(nodes: seq<Node>, names: seq<string>, parents: seq<int>, root: Vec3, first: seq<JointTRS>, root': Vec3, locals: seq<JointTRS>)
    requires |names| == |parents| == |first| == |locals| == JOINTS && Hierarchy(nodes, names, parents, root, first)
    ensures Hierarchy(Posed(nodes, root', locals), names, parents, root', locals)
  {
    hide ChildrenBelow;
  }

  lemma RootShifts(translation: Vec3, v: Vec3)
    ensures ActNode(JointTRS(translation, ONE, NO_SCALE), v) == Plus(translation, v)
  {
    hide Rotated;
    assert Hadamard(NO_SCALE, v) == v;
    RotatedOne(v);
  }

  lemma RootPlaced(node: Node, root: Vec3, v: Vec3)
    requires node == Node("SAM3D", [1], root, None, None)
    ensures ChainPlaced([node], v) == Plus(root, v)
  {
    hide ActNode, Plus;
    RootShifts(root, v);
    assert [node][..0] == [];
  }

  lemma ChildPositive(nodes: seq<Node>, names: seq<string>, parents: seq<int>, root: Vec3, locals: seq<JointTRS>, p: nat, c: nat)
    requires |names| == |locals| == JOINTS && ValidParents(parents)
    requires Hierarchy(nodes, names, parents, root, locals) && p < |nodes| && c in nodes[p].children
    ensures c > 0
  {
    hide ChildrenBelow;
    OneParent(nodes, names, parents, root, locals);
    assert c in nodes[p].children <==> 0 < c < |nodes| && p == ParentNode(parents, c);
  }

  /** A path that ends at joint `j`'s node ends with its parent's and its own. */
  lemma PathAbove(nodes: seq<Node>, names: seq<string>, parents: seq<int>, root: Vec3, locals: seq<JointTRS>, path: seq<nat>, j: nat)
    requires |names| == |locals| == JOINTS && ValidParents(parents) && j < JOINTS
    requires Hierarchy(nodes, names, parents, root, locals)
    requires Descends(nodes, path) && path[|path| - 1] == j + 1
    ensures |path| > 1 && Descends(nodes, path[..|path| - 1])
    ensures path[|path| - 2] == ParentNode(parents, j + 1)
    ensures j == 0 ==> path[..|path| - 1] == [0]
  {
    hide ChildrenBelow, Hierarchy;
    OneParent(nodes, names, parents, root, locals);
    var last := |path| - 1;
    assert path[last] in nodes[path[last - 1]].children;
    assert path[last - 1] == ParentNode(parents, j + 1);
    if last > 1 {
      var p, c := path[last - 2], path[last - 1];
      assert p < |nodes| && c in nodes[p].children;
      ChildPositive(nodes, names, parents, root, locals, p, c);
    }
  }

  /** Down any path through the children lists, a joint's node acts as the chain of
      joints above it does, moved by the root's translation. */
  lemma {:induction false} PathIsChain(nodes: seq<Node>, names: seq<string>, parents: seq<int>, root: Vec3, locals: seq<JointTRS>,
                                       path: seq<nat>, j: nat, v: Vec3)
    requires |names| == |locals| == JOINTS && ValidParents(parents) && j < JOINTS
    requires Hierarchy(nodes, names, parents, root, locals)
    requires Descends(nodes, path) && path[|path| - 1] == j + 1
    ensures PathPlaced(nodes, path, v) == Plus(root, Placed(locals, parents, j, v))
    decreases j
  {
    hide ActNode, Plus, ChildrenBelow, Descends;
    PathAbove(nodes, names, parents, root, locals, path, j);
    var init := path[..|path| - 1];
    assert nodes[j + 1] == JointNode(names[j], parents, j, locals[j]);
    PathInside(nodes, path);
    PathStep(nodes, path, j + 1, locals[j], v);
    if j == 0 {
      RootPlaced(nodes[0], root, ActNode(locals[0], v));
      assert NodesOn(nodes, [0]) == [nodes[0]];
    } else {
      PathIsChain(nodes, names, parents, root, locals, init, parents[j], ActNode(locals[j], v));
    }
    hide ChainPlaced;
  }

  lemma PathInside(nodes: seq<Node>, path: seq<nat>)
    requires Descends(nodes, path)
    ensures path != [] && forall k: nat :: k < |path| ==> path[k] < |nodes|
  {
  }

  lemma PathStep(nodes: seq<Node>, path: seq<nat>, c: nat, l: JointTRS, v: Vec3)
    requires path != [] && (forall k: nat :: k < |path| ==> path[k] < |nodes|) && path[|path| - 1] == c
    requires c < |nodes| && nodes[c].translation == l.translation && nodes[c].rotation == Some(l.rotation) && nodes[c].scale == Some(l.scale)
    ensures PathPlaced(nodes, path, v) == PathPlaced(nodes, path[..|path| - 1], ActNode(l, v))
  {
    hide ActNode;
    assert NodesOn(nodes, path)[..|path| - 1] == NodesOn(nodes, path[..|path| - 1]);
  }

  /** In frame `i` the exported scene, composed from its root node down the children
      lists, takes every point of every joint's space to where the frame's own global
      state does, moved by the root offset. */
  lemma ExportedPose(frames: seq<Frame>, names: seq<string>, parents: seq<int>, movement: string, root: real -> real, nodes: seq<Node>,
                     i: nat, path: seq<nat>, j: nat, v: Vec3)
    requires IsRoot(root) && ValidParents(parents) && |names| == JOINTS && i < |frames| && j < JOINTS
    requires forall k: nat :: k <= i ==> ValidFrame(frames[k])
    requires Hierarchy(nodes, names, parents, Offset(frames, movement, 0), Row(frames, parents, root, 0))
    requires Descends(nodes, path) && path[|path| - 1] == j + 1
    ensures PathPlaced(Posed(nodes, Offset(frames, movement, i), Row(frames, parents, root, i)), path, v)
         == Plus(Offset(frames, movement, i), Act(Global(frames[i], root, j), v))
  {
    hide Act, Plus, PathPlaced, Posed, Placed, ValidFrame, ChildrenBelow, Offset, Smooth, Global, IsRoot;
    var offset, row := Offset(frames, movement, i), Row(frames, parents, root, i);
    PosedHierarchy(nodes, names, parents, Offset(frames, movement, 0), Row(frames, parents, root, 0), offset, row);
    PosedDescends(nodes, offset, row, path);
    PathIsChain(Posed(nodes, offset, row), names, parents, offset, row, path, j, v);
    FramePlaced(frames, parents, root, i, j, v);
  }

  lemma PosedDescends(nodes: seq<Node>, root: Vec3, locals: seq<JointTRS>, path: seq<nat>)
    requires |nodes| == JOINTS + 1 && |locals| == JOINTS && Descends(nodes, path)
    ensures Descends(Posed(nodes, root, locals), path)
  {
  }

  /** An animation exported in place holds the pelvis, joint 1, where the first frame put it. */
  lemma PelvisHeld(frames: seq<Frame>, names: seq<string>, parents: seq<int>, root: real -> real, nodes: seq<Node>, i: nat, path: seq<nat>)
    requires IsRoot(root) && ValidParents(parents) && |names| == JOINTS && i < |frames| && |frames| > 1
    requires forall k: nat :: k <= i ==> ValidFrame(frames[k])
    requires Hierarchy(nodes, names, parents, Offset(frames, "in-place", 0), Row(frames, parents, root, 0))
    requires Descends(nodes, path) && path[|path| - 1] == 2
    ensures PathPlaced(Posed(nodes, Offset(frames, "in-place", i), Row(frames, parents, root, i)), path, ORIGIN)
         == Global(frames[0], root, 1).position
  {
    hide Act, Plus, PathPlaced, Posed, Hierarchy, Descends, ValidFrame, ValidParents, Offset, Row, Global, IsRoot;
    ExportedPose(frames, names, parents, "in-place", root, nodes, i, path, 1, ORIGIN);
    OffsetHolds(frames, root, i);
  }
}
