/**
 The animated GLB export: one translation channel for the root node, and a
 translation, a rotation and a scale channel for every joint, read back key by key.
 */
module SkeletonGlb {
  import opened Wrappers
  import opened Bytes
  import opened Quaternions
  import opened Skeleton
  import opened SkeletonExport
  import opened GlbBuffer
  import opened GlbContainer
  import opened GlbNodes

  datatype Animation = Animation(
    samplers: seq<Sampler>,
    channels: seq<Channel>,
    views: seq<View>,
    accessors: seq<Accessor>,
    bufferLength: nat)

  /** The JSON document, as far as the layout depends on it. */
  datatype Document = Document(nodes: seq<Node>, animation: Option<Animation>)

  /** What is exported, with the square root and the rounding to single precision. */
  datatype Scene = Scene(
    frames: seq<Frame>,
    parents: seq<int>,
    movement: string,
    root: real -> real,
    single: real -> real)

  const CHANNELS: nat := 1 + 3 * JOINTS

  /** The binary chunk of 1800 frames. */
  const MAX_BINARY: nat := 9172800

  ghost predicate Ready(s: Scene) {
    && IsRoot(s.root) && ValidParents(s.parents) && s.frames != []
    && forall i: nat :: i < |s.frames| ==> ValidFrame(s.frames[i])
  }

  function Width(path: Path): nat {
    if path == RotationPath then 4 else 3
  }

  function VecKey(v: Vec3): seq<real> {
    [v.x, v.y, v.z]
  }

  function QuatKey(q: Quat): seq<real> {
    [q.x, q.y, q.z, q.w]
  }

  /** The state of a node in frame `i`; node 0 is the root, node `j + 1` is joint `j`. */
  ghost function NodeKey(s: Scene, i: nat, node: nat, path: Path): (k: seq<real>)
    requires Ready(s) && i < |s.frames| && node <= JOINTS && (node == 0 ==> path == TranslationPath)
    ensures |k| == Width(path)
  {
    if node == 0 then VecKey(Offset(s.frames, s.movement, i))
    else
      var l := Smooth(s.frames, s.parents, s.root, i, node - 1);
      match path
      case TranslationPath => VecKey(l.translation)
      case RotationPath => QuatKey(l.rotation)
      case ScalePath => VecKey(l.scale)
  }

  function Singles(k: seq<real>, single: real -> real): (r: seq<real>)
    ensures |r| == |k|
  {
    seq(|k|, i requires 0 <= i < |k| => single(k[i]))
  }

  /** The keys of the first `n` frames, one after the other. */
  ghost function Keys(s: Scene, n: nat, node: nat, path: Path): seq<real>
    requires Ready(s) && n <= |s.frames| && node <= JOINTS && (node == 0 ==> path == TranslationPath)
  {
    if n == 0 then [] else Keys(s, n - 1, node, path) + Singles(NodeKey(s, n - 1, node, path), s.single)
  }

  ghost function KeyTimes(s: Scene): seq<real> {
    seq(|s.frames|, i requires 0 <= i < |s.frames| => KeyTime(s.frames, s.single, i))
  }

  /** The node and path that channel `x` animates. */
  function TargetNode(x: nat): nat {
    if x == 0 then 0 else (x - 1) / 3 + 1
  }

  function TargetPath(x: nat): Path {
    if x == 0 || (x - 1) % 3 == 0 then TranslationPath else if (x - 1) % 3 == 1 then RotationPath else ScalePath
  }

  ghost function ColumnOf(s: Scene, x: nat): Column
    requires Ready(s) && x < CHANNELS
  {
    Column(Keys(s, |s.frames|, TargetNode(x), TargetPath(x)), Width(TargetPath(x)))
  }

  /** The arrays of the first `m` channels, after the key times. */
  ghost function Columns(s: Scene, m: nat): (c: seq<Column>)
    requires Ready(s) && m <= CHANNELS
    ensures |c| == m + 1
  {
    if m == 0 then [Column(KeyTimes(s), 1)] else Columns(s, m - 1) + [ColumnOf(s, m - 1)]
  }

  lemma {:induction false} ColumnsAt(s: Scene, m: nat, k: nat)
    requires Ready(s) && k <= m <= CHANNELS
    ensures Columns(s, m)[k] == if k == 0 then Column(KeyTimes(s), 1) else ColumnOf(s, k - 1)
  {
    hide ColumnOf, Ready;
    if k < m {
      ColumnsAt(s, m - 1, k);
    }
  }

  lemma {:induction false} KeysLength(s: Scene, n: nat, node: nat, path: Path)
    requires Ready(s) && n <= |s.frames| && node <= JOINTS && (node == 0 ==> path == TranslationPath)
    ensures |Keys(s, n, node, path)| == Stride(Width(path), n)
  {
    hide NodeKey, Singles;
    if n > 0 {
      KeysLength(s, n - 1, node, path);
    }
  }

  /** Key `i` stands at its own place among the keys. */
  lemma {:induction false} KeysAt(s: Scene, n: nat, node: nat, path: Path, i: nat)
    requires Ready(s) && i < n <= |s.frames| && node <= JOINTS && (node == 0 ==> path == TranslationPath)
    ensures
      var w := Width(path);
      && Stride(w, i) + w <= |Keys(s, n, node, path)|
      && Keys(s, n, node, path)[Stride(w, i)..Stride(w, i) + w] == Singles(NodeKey(s, i, node, path), s.single)
  {
    hide NodeKey, Singles;
    KeysLength(s, n - 1, node, path);
    if i < n - 1 {
      KeysAt(s, n - 1, node, path, i);
    }
  }

  lemma KeysWhole(s: Scene, node: nat, path: Path)
    requires Ready(s) && node <= JOINTS && (node == 0 ==> path == TranslationPath)
    ensures Whole(Column(Keys(s, |s.frames|, node, path), Width(path)))
    ensures Count(Column(Keys(s, |s.frames|, node, path), Width(path))) == |s.frames|
  {
    KeysLength(s, |s.frames|, node, path);
  }

  /** The exporter's local tables hold the scene's tracks. */
  ghost predicate Tabled(s: Scene, locals: array2<JointTRS>, times: array<real>, roots: array<Vec3>)
    requires Ready(s)
    reads locals, times, roots
  {
    Aligned(s.frames, s.parents, s.movement, s.root, s.single, |s.frames|, locals, times, roots)
  }

  method RootKeys(s: Scene, locals: array2<JointTRS>, times: array<real>, roots: array<Vec3>) returns (rv: seq<real>)
    requires Ready(s) && Tabled(s, locals, times, roots)
    ensures rv == Keys(s, |s.frames|, 0, TranslationPath)
  {
    hide Offset, RowOf, IsRoot, ValidParents, ValidFrame;
    rv := [];
    var i := 0;
    while i < roots.Length
      invariant 0 <= i <= roots.Length
      invariant rv == Keys(s, i, 0, TranslationPath)
    {
      rv := rv + Singles(VecKey(roots[i]), s.single);
      i := i + 1;
    }
  }

  method JointKeys(s: Scene, locals: array2<JointTRS>, times: array<real>, roots: array<Vec3>, j: nat)
    returns (t: seq<real>, r: seq<real>, c: seq<real>)
    requires Ready(s) && Tabled(s, locals, times, roots) && j < JOINTS
    ensures t == Keys(s, |s.frames|, j + 1, TranslationPath)
    ensures r == Keys(s, |s.frames|, j + 1, RotationPath)
    ensures c == Keys(s, |s.frames|, j + 1, ScalePath)
  {
    hide Smooth, Offset, IsRoot, ValidParents, ValidFrame, Singles;
    t, r, c := [], [], [];
    var i := 0;
    while i < locals.Length0
      invariant 0 <= i <= locals.Length0
      invariant t == Keys(s, i, j + 1, TranslationPath)
      invariant r == Keys(s, i, j + 1, RotationPath)
      invariant c == Keys(s, i, j + 1, ScalePath)
    {
      var v := locals[i, j];
      assert v == RowOf(locals, i)[j] == Smooth(s.frames, s.parents, s.root, i, j);
      t := t + Singles(VecKey(v.translation), s.single);
      r := r + Singles(QuatKey(v.rotation), s.single);
      c := c + Singles(VecKey(v.scale), s.single);
      i := i + 1;
    }
  }

  /** The samplers and channels of the first `m` channels. */
  ghost predicate Wired(samplers: seq<Sampler>, channels: seq<Channel>, m: nat) {
    && |samplers| == |channels| == m
    && (forall x: nat :: x < m ==> samplers[x] == Sampler(0, x + 1))
    && forall x: nat :: x < m ==> channels[x] == Channel(x, TargetNode(x), TargetPath(x))
  }

  lemma TimesWhole(s: Scene)
    requires Ready(s)
    ensures Whole(Column(KeyTimes(s), 1)) && Count(Column(KeyTimes(s), 1)) == |s.frames|
  {
  }

  /** Channels `1 + 3 * j`, and the two after it, animate joint `j`. */
  lemma JointTargets(j: nat)
    requires j < JOINTS
    ensures TargetNode(1 + 3 * j) == TargetNode(2 + 3 * j) == TargetNode(3 + 3 * j) == j + 1
    ensures TargetPath(1 + 3 * j) == TranslationPath && TargetPath(2 + 3 * j) == RotationPath && TargetPath(3 + 3 * j) == ScalePath
  {
  }

  method AddJoint(w: Writer, timeIndex: nat, s: Scene, locals: array2<JointTRS>, times: array<real>, roots: array<Vec3>, j: nat)
    requires w.Valid() && Ready(s) && Tabled(s, locals, times, roots) && j < JOINTS
    requires w.columns == Columns(s, 1 + 3 * j) && Wired(w.samplers, w.channels, 1 + 3 * j) && timeIndex == 0
    modifies w
    ensures w.Valid()
    ensures w.columns == Columns(s, 4 + 3 * j) && Wired(w.samplers, w.channels, 4 + 3 * j)
  {
    hide Keys, KeyTimes, Whole, Count, Encoded, Described, Ready, Aligned, RowOf, TargetNode, TargetPath;
    var t, r, c := JointKeys(s, locals, times, roots, j);
    JointTargets(j);
    KeysWhole(s, j + 1, TranslationPath);
    KeysWhole(s, j + 1, RotationPath);
    KeysWhole(s, j + 1, ScalePath);
    w.AddChannel(timeIndex, j + 1, TranslationPath, t, 3);
    assert w.columns == Columns(s, 2 + 3 * j);
    w.AddChannel(timeIndex, j + 1, RotationPath, r, 4);
    assert w.columns == Columns(s, 3 + 3 * j);
    w.AddChannel(timeIndex, j + 1, ScalePath, c, 3);
  }

  method Animate(s: Scene, locals: array2<JointTRS>, times: array<real>, roots: array<Vec3>, bits: real -> Word32)
    returns (a: Animation, bin: seq<byte>)
    requires Ready(s) && Tabled(s, locals, times, roots)
    ensures bin == Encoded(Columns(s, CHANNELS), bits) && a.bufferLength == |bin|
    ensures Described(Columns(s, CHANNELS), a.views, a.accessors)
    ensures Wired(a.samplers, a.channels, CHANNELS)
  {
    hide Keys, Whole, Count, Encoded, Described, Ready, RowOf, KeyTime;
    var w := new Writer(bits);
    TimesWhole(s);
    assert times[..] == KeyTimes(s);
    var timeIndex := w.Add(times[..], 1);
    assert w.columns == Columns(s, 0);
    var rv := RootKeys(s, locals, times, roots);
    KeysWhole(s, 0, TranslationPath);
    w.AddChannel(timeIndex, 0, TranslationPath, rv, 3);
    var j := 0;
    while j < JOINTS
      invariant 0 <= j <= JOINTS
      invariant w.Valid() && w.bits == bits && fresh(w) && Tabled(s, locals, times, roots)
      invariant w.columns == Columns(s, 1 + 3 * j) && Wired(w.samplers, w.channels, 1 + 3 * j)
    {
      AddJoint(w, timeIndex, s, locals, times, roots, j);
      j := j + 1;
    }
    a := Animation(w.samplers, w.channels, w.views, w.accessors, |w.bin|);
    bin := w.bin;
  }

  function ChannelFor(node: nat, path: Path): nat {
    if node == 0 then 0 else 3 * (node - 1) + match path case TranslationPath => 1 case RotationPath => 2 case ScalePath => 3
  }

  predicate Animated(node: nat, path: Path) {
    node <= JOINTS && (node == 0 ==> path == TranslationPath)
  }

  /** Channels and animated properties correspond one to one: no two channels
      share a node and path, and every property of every joint has a channel. */
  lemma TargetsDistinct(x: nat, node: nat, path: Path)
    ensures x < CHANNELS ==> Animated(TargetNode(x), TargetPath(x)) && ChannelFor(TargetNode(x), TargetPath(x)) == x
    ensures Animated(node, path) ==>
      var y := ChannelFor(node, path);
      y < CHANNELS && TargetNode(y) == node && TargetPath(y) == path
  {
  }

  /** What a reader finds at key `i` of channel `x`: the key's time, and the state
      of the channel's node in frame `i`, both in single precision. */
  lemma KeyRead(s: Scene, a: Animation, bits: real -> Word32, x: nat, i: nat)
    requires Ready(s) && x < CHANNELS && i < |s.frames|
    requires Described(Columns(s, CHANNELS), a.views, a.accessors) && Wired(a.samplers, a.channels, CHANNELS)
    ensures a.channels[x] == Channel(x, TargetNode(x), TargetPath(x)) && a.samplers[x] == Sampler(0, x + 1)
    ensures a.accessors[0].count == a.accessors[x + 1].count == |s.frames|
    ensures Element(Encoded(Columns(s, CHANNELS), bits), a.views, a.accessors, a.samplers[x].input, i)
         == Some(bits(KeyTime(s.frames, s.single, i)))
    ensures Element(Encoded(Columns(s, CHANNELS), bits), a.views, a.accessors, a.samplers[x].output, i)
         == Some(Packed(Singles(NodeKey(s, i, TargetNode(x), TargetPath(x)), s.single), bits))
  {
    hide Keys, KeyTimes, Whole, Count, Encoded, Ready, Element, Singles, NodeKey, TargetNode, TargetPath, KeyTime;
    var columns := Columns(s, CHANNELS);
    TargetsDistinct(x, 0, TranslationPath);
    ColumnsAt(s, CHANNELS, 0);
    ColumnsAt(s, CHANNELS, x + 1);
    assert DescribedAt(columns, a.views[0], a.accessors[0], 0);
    assert DescribedAt(columns, a.views[x + 1], a.accessors[x + 1], x + 1);
    TimesWhole(s);
    KeysWhole(s, TargetNode(x), TargetPath(x));
    ElementRead(columns, a.views, a.accessors, bits, 0, i);
    ElementRead(columns, a.views, a.accessors, bits, x + 1, i);
    KeysAt(s, |s.frames|, TargetNode(x), TargetPath(x), i);
    TimesAt(s, i, bits);
  }

  lemma TimesAt(s: Scene, i: nat, bits: real -> Word32)
    requires i < |s.frames|
    ensures Packed(KeyTimes(s)[i..i + 1], bits) == bits(KeyTime(s.frames, s.single, i))
  {
    var one := KeyTimes(s)[i..i + 1];
    assert one[..0] == [];
  }

  ghost predicate AllUsable(s: Scene) {
    forall i: nat :: i < |s.frames| ==> Usable(s.frames, s.single, i)
  }

  lemma {:induction false} TimesGrow(s: Scene, i: nat, j: nat)
    requires AllUsable(s) && i <= j < |s.frames|
    ensures KeyTime(s.frames, s.single, i) <= KeyTime(s.frames, s.single, j)
    decreases j
  {
    hide ValidFrame;
    if i < j {
      assert Usable(s.frames, s.single, j);
      TimesGrow(s, i, j - 1);
    }
  }

  /** The declared extremes of the key times are their true minimum and maximum. */
  lemma TimesBounded(s: Scene, a: Animation)
    requires Ready(s) && AllUsable(s)
    requires Described(Columns(s, CHANNELS), a.views, a.accessors)
    ensures a.accessors[0].bounds.Some?
    ensures var (lo, hi) := a.accessors[0].bounds.value;
      && (forall i: nat :: i < |s.frames| ==> lo <= KeyTime(s.frames, s.single, i) <= hi)
      && lo == KeyTime(s.frames, s.single, 0)
      && hi == KeyTime(s.frames, s.single, |s.frames| - 1)
  {
    hide Whole, Count, IsRoot, ValidParents, AllUsable, KeyTime, ValidFrame;
    assert DescribedAt(Columns(s, CHANNELS), a.views[0], a.accessors[0], 0);
    ColumnsAt(s, CHANNELS, 0);
    forall i: nat | i < |s.frames|
      ensures KeyTime(s.frames, s.single, 0) <= KeyTime(s.frames, s.single, i) <= KeyTime(s.frames, s.single, |s.frames| - 1)
    {
      TimesGrow(s, 0, i);
      TimesGrow(s, i, |s.frames| - 1);
    }
  }

  /** The document and the binary chunk hold the scene. */
  ghost predicate Holds(s: Scene, names: seq<string>, doc: Document, bin: seq<byte>, bits: real -> Word32)
    requires Ready(s) && |names| == JOINTS
  {
    && Hierarchy(doc.nodes, names, s.parents, Offset(s.frames, s.movement, 0), Row(s.frames, s.parents, s.root, 0))
    && if |s.frames| == 1 then doc.animation == None && bin == []
       else
         && doc.animation.Some?
         && bin == Encoded(Columns(s, CHANNELS), bits) && doc.animation.value.bufferLength == |bin|
         && Described(Columns(s, CHANNELS), doc.animation.value.views, doc.animation.value.accessors)
         && Wired(doc.animation.value.samplers, doc.animation.value.channels, CHANNELS)
  }

  /** How many numbers the key times and the first `m` channels of `n` frames hold. */
  function Numbers(n: nat, m: nat): nat {
    if m == 0 then n else Numbers(n, m - 1) + Stride(Width(TargetPath(m - 1)), n)
  }

  lemma {:induction false} ColumnsNumbers(s: Scene, m: nat)
    requires Ready(s) && m <= CHANNELS
    ensures Before(Columns(s, m), m + 1) == Numbers(|s.frames|, m)
  {
    hide Keys, Ready, TargetNode, TargetPath;
    if m == 0 {
      assert Before(Columns(s, 0), 0) == 0;
    } else {
      var x := m - 1;
      ColumnsNumbers(s, x);
      TargetsDistinct(x, 0, TranslationPath);
      KeysLength(s, |s.frames|, TargetNode(x), TargetPath(x));
      BeforePrefix(Columns(s, x), ColumnOf(s, x), m);
    }
  }

  lemma JointNumbers(n: nat, m: nat)
    requires m % 3 == 1
    ensures Numbers(n, m + 3) == Numbers(n, m) + 10 * n
  {
    assert Numbers(n, m + 1) == Numbers(n, m) + 3 * n;
    assert Numbers(n, m + 2) == Numbers(n, m + 1) + 4 * n;
    assert Numbers(n, m + 3) == Numbers(n, m + 2) + 3 * n;
  }

  lemma {:induction false} NumbersOfJoints(n: nat, j: nat)
    ensures Numbers(n, 1 + 3 * j) == 4 * n + 10 * (j * n)
  {
    if j == 0 {
      assert Numbers(n, 1) == Numbers(n, 0) + 3 * n;
    } else {
      hide Numbers;
      var k := j - 1;
      NumbersOfJoints(n, k);
      JointNumbers(n, 1 + 3 * k);
      assert j * n == k * n + n;
    }
  }

  /** The binary chunk of an animation takes 5096 bytes a frame. */
  lemma AnimationLength(s: Scene, bits: real -> Word32)
    requires Ready(s)
    ensures |Encoded(Columns(s, CHANNELS), bits)| == 5096 * |s.frames|
  {
    hide Encoded, Columns, Ready, Numbers, Before;
    EncodedLength(Columns(s, CHANNELS), bits);
    ColumnsNumbers(s, CHANNELS);
    NumbersOfJoints(|s.frames|, JOINTS);
  }

  lemma RowRead(s: Scene, locals: array2<JointTRS>, times: array<real>, roots: array<Vec3>)
    requires Ready(s) && Tabled(s, locals, times, roots)
    ensures |Row(s.frames, s.parents, s.root, 0)| == JOINTS
    ensures forall j: nat :: j < JOINTS ==> locals[0, j] == Row(s.frames, s.parents, s.root, 0)[j]
    ensures roots[0] == Offset(s.frames, s.movement, 0)
  {
    hide Smooth, Offset, IsRoot, ValidParents, ValidFrame;
    forall j: nat | j < JOINTS ensures locals[0, j] == Row(s.frames, s.parents, s.root, 0)[j] {
      assert locals[0, j] == RowOf(locals, 0)[j];
    }
  }

  lemma SizeOfParents(parents: seq<int>)
    requires ValidParents(parents)
    ensures |parents| == JOINTS
  {
  }

  /** The export.  `marshal` is the JSON encoder. */
  method Export(frames: seq<Frame>, names: seq<string>, parents: seq<int>, movement: string,
                root: real -> real, single: real -> real, bits: real -> Word32, marshal: Document -> seq<byte>)
    returns (r: Result<seq<byte>>, doc: Document, bin: seq<byte>)
    requires IsRoot(root)
    ensures r.Success? <==> Exportable(frames, names, parents, movement, single)
    ensures r.Success? ==>
      var s := Scene(frames, parents, movement, root, single);
      && Ready(s) && Holds(s, names, doc, bin, bits)
      && exists js: seq<byte> ::
           && marshal(doc) <= js && |js| % 4 == 0
           && (forall i :: |marshal(doc)| <= i < |js| ==> js[i] == SPACE)
           && r.value == Container(js, bin)
           && (TotalSize(js, bin) < U32 ==> |r.value| == TotalSize(js, bin) && ReadContainer(r.value) == Some((js, bin)))
           && (|marshal(doc)| < U32 - MAX_BINARY - 31 ==> TotalSize(js, bin) < U32)
    ensures r.Success? ==> |bin| == (if |frames| == 1 then 0 else 5096 * |frames|) <= MAX_BINARY
  {
    hide Encoded, Columns, Described, Wired, IsRoot, ValidParents, ValidFrame, Offset, Usable, KeyTime, RowOf,
      Smooth, Container, ReadContainer, Hierarchy;
    doc, bin := Document([], None), [];
    var ok, locals, times, roots := AlignTracks(frames, names, parents, movement, root, single);
    if ok.Failure? {
      return Failure(ok.error), doc, bin;
    }
    var s := Scene(frames, parents, movement, root, single);
    RowRead(s, locals, times, roots);
    SizeOfParents(parents);
    var nodes := BuildNodes(names, parents, roots[0], locals, Row(frames, parents, root, 0));
    var animation: Option<Animation> := None;
    if |frames| > 1 {
      var a;
      a, bin := Animate(s, locals, times, roots, bits);
      animation := Some(a);
      AnimationLength(s, bits);
    }
    doc := Document(nodes, animation);
    var js := Pad(marshal(doc));
    var out := WriteContainer(js, bin);
    if TotalSize(js, bin) < U32 {
      ContainerRead(js, bin);
    }
    r := Success(out);
  }
}
