/** The exported node hierarchy: a root node and one named node a joint. */
module GlbNodes {
  import opened Wrappers
  import opened Quaternions
  import opened Skeleton

  datatype Node = Node(
    name: string,
    children: seq<nat>,
    translation: Vec3,
    rotation: Option<Quat>,
    scale: Option<Vec3>)

  /** The nodes of the first `n` joints that have joint `j` for a parent. */
  function ChildrenBelow(parents: seq<int>, j: nat, n: nat): seq<nat>
    requires n <= |parents|
  {
    if n == 0 then []
    else if parents[n - 1] == j then ChildrenBelow(parents, j, n - 1) + [n]
    else ChildrenBelow(parents, j, n - 1)
  }

  function JointNode(name: string, parents: seq<int>, j: nat, tr: JointTRS): Node
    requires |parents| == JOINTS
  {
    Node(name, ChildrenBelow(parents, j, JOINTS), tr.translation, Some(tr.rotation), Some(tr.scale))
  }

  /** The scene's nodes; node `j + 1` is joint `j`. */
  predicate Hierarchy(nodes: seq<Node>, names: seq<string>, parents: seq<int>, root: Vec3, locals: seq<JointTRS>)
    requires |names| == |parents| == |locals| == JOINTS
  {
    && |nodes| == JOINTS + 1
    && nodes[0] == Node("SAM3D", [1], root, None, None)
    && forall c: nat :: 0 < c <= JOINTS ==> nodes[c] == JointNode(names[c - 1], parents, c - 1, locals[c - 1])
  }

  method BuildNodes(names: seq<string>, parents: seq<int>, root: Vec3, locals: array2<JointTRS>, ghost first: seq<JointTRS>)
    returns (nodes: seq<Node>)
    requires |names| == |parents| == |first| == locals.Length1 == JOINTS && locals.Length0 > 0
    requires forall j: nat :: j < JOINTS ==> locals[0, j] == first[j]
    ensures Hierarchy(nodes, names, parents, root, first)
  {
    nodes := [Node("SAM3D", [1], root, None, None)];
    var j := 0;
    while j < JOINTS
      invariant 0 <= j <= JOINTS && |nodes| == j + 1
      invariant nodes[0] == Node("SAM3D", [1], root, None, None)
      invariant forall c: nat :: 0 < c <= j ==> nodes[c] == JointNode(names[c - 1], parents, c - 1, first[c - 1])
    {
      var tr := locals[0, j];
      var children: seq<nat> := [];
      var child := 0;
      while child < JOINTS
        invariant 0 <= child <= JOINTS
        invariant children == ChildrenBelow(parents, j, child)
      {
        if parents[child] == j {
          children := children + [child + 1];
        }
        child := child + 1;
      }
      nodes := nodes + [Node(names[j], children, tr.translation, Some(tr.rotation), Some(tr.scale))];
      j := j + 1;
    }
  }

  lemma {:induction false} ChildrenAre(parents: seq<int>, j: nat, n: nat, c: nat)
    requires n <= |parents|
    ensures c in ChildrenBelow(parents, j, n) <==> 0 < c <= n && parents[c - 1] == j
  {
    if n > 0 {
      ChildrenAre(parents, j, n - 1, c);
    }
  }

  predicate Growing(s: seq<nat>) {
    forall k: nat, m: nat :: k < m < |s| ==> s[k] < s[m]
  }

  lemma {:induction false} ChildrenGrow(parents: seq<int>, j: nat, n: nat)
    requires n <= |parents|
    ensures Growing(ChildrenBelow(parents, j, n))
  {
    if n > 0 {
      ChildrenGrow(parents, j, n - 1);
      var s := ChildrenBelow(parents, j, n - 1);
      forall k | 0 <= k < |s| ensures s[k] < n {
        ChildrenAre(parents, j, n - 1, s[k]);
      }
    }
  }

  /** The node above node `c`. */
  function ParentNode(parents: seq<int>, c: nat): nat
    requires ValidParents(parents) && 0 < c <= JOINTS
  {
    if c == 1 then 0 else parents[c - 1] as nat + 1
  }

  /** Every node but the root is listed as a child once, by one node, and that node comes before it. */
  lemma OneParent(nodes: seq<Node>, names: seq<string>, parents: seq<int>, root: Vec3, locals: seq<JointTRS>)
    requires |names| == |locals| == JOINTS && ValidParents(parents)
    requires Hierarchy(nodes, names, parents, root, locals)
    ensures forall p: nat, c: nat :: p < |nodes| ==>
              (c in nodes[p].children <==> 0 < c < |nodes| && p == ParentNode(parents, c))
    ensures forall p: nat, k: nat, m: nat :: p < |nodes| && k < m < |nodes[p].children| ==>
              nodes[p].children[k] != nodes[p].children[m]
    ensures forall c: nat :: 0 < c < |nodes| ==> ParentNode(parents, c) < c
  {
    forall p: nat, c: nat | p < |nodes|
      ensures c in nodes[p].children <==> 0 < c < |nodes| && p == ParentNode(parents, c)
    {
      if p > 0 {
        assert nodes[p].children == ChildrenBelow(parents, p - 1, JOINTS);
        ChildrenAre(parents, p - 1, JOINTS, c);
      }
    }
    forall p: nat, k: nat, m: nat | p < |nodes| && k < m < |nodes[p].children|
      ensures nodes[p].children[k] != nodes[p].children[m]
    {
      if p > 0 {
        assert nodes[p].children == ChildrenBelow(parents, p - 1, JOINTS);
        ChildrenGrow(parents, p - 1, JOINTS);
      }
    }
  }

  ghost predicate Descends(nodes: seq<Node>, path: seq<nat>) {
    && path != [] && path[0] == 0
    && (forall k: nat :: k < |path| ==> path[k] < |nodes|)
    && forall k: nat :: 0 < k < |path| ==> path[k] in nodes[path[k - 1]].children
  }

  /** Every node is reached from the scene's one root. */
  lemma {:induction false} Reached(nodes: seq<Node>, names: seq<string>, parents: seq<int>, root: Vec3, locals: seq<JointTRS>, c: nat)
    returns (path: seq<nat>)
    requires |names| == |locals| == JOINTS && ValidParents(parents)
    requires Hierarchy(nodes, names, parents, root, locals) && c < |nodes|
    ensures Descends(nodes, path) && path[|path| - 1] == c
    decreases c
  {
    if c == 0 {
      path := [0];
    } else {
      OneParent(nodes, names, parents, root, locals);
      path := Reached(nodes, names, parents, root, locals, ParentNode(parents, c));
      path := path + [c];
    }
  }

  /** The names in the file: the root is called SAM3D, and the node of joint `j`, in the
      order of the joints, bears that joint's name. */
  lemma NodesNamed(nodes: seq<Node>, names: seq<string>, parents: seq<int>, root: Vec3, locals: seq<JointTRS>)
    requires |names| == |parents| == |locals| == JOINTS && Hierarchy(nodes, names, parents, root, locals)
    ensures |nodes| == 128 && nodes[0].name == "SAM3D"
    ensures forall j: nat :: j < 127 ==> nodes[j + 1].name == names[j]
    ensures forall c: nat :: 0 < c < 128 ==> nodes[c].rotation.Some? && nodes[c].scale.Some?
  {
    forall j: nat | j < 127 ensures nodes[j + 1].name == names[j] {
      var c := j + 1;
      assert nodes[c] == JointNode(names[c - 1], parents, c - 1, locals[c - 1]);
    }
  }
}
