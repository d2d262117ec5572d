/**
 The result format's laws: writing and reading undo each other for every order
 of the tensors, nothing accepted lacks a field, and whatever the strict reader
 accepts the lax one accepts with the same words.
 */
module ResultRoundTrip {
  import opened Wrappers
  import opened Bytes
  import opened Cursor
  import Sets
  import opened ResultFormat

  lemma FoundField(fields: seq<Field>, f: Field)
    requires WellFormed(fields) && f in fields
    ensures Lookup(fields, f.name) == Some(f)
  {
    hide Product;
    var i :| 0 <= i < |fields| && fields[i] == f;
    var g := Lookup(fields, f.name);
    assert g.Some?;
    var j :| 0 <= j < |fields| && fields[j] == g.value;
    assert i == j;
  }

  // What a name that was read looks like, and the reverse.
  lemma NameWritten(b: seq<byte>, at: nat, fields: seq<Field>, seen: set<seq<byte>>)
    requires ReadName(b, at, fields, seen).Some?
    ensures
      var (f, next) := ReadName(b, at, fields, seen).value;
      && f in fields && f.name !in seen
      && next == at + 4 + |f.name| <= |b|
      && b[at..next] == Word(|f.name|) + f.name
  {
    hide Word;
    var n := Word32At(b, at).value;
    Word32Bytes(b, at, n);
    Joins(b, at, at + 4, at + 4 + n);
  }

  lemma NameRead(b: seq<byte>, at: nat, fields: seq<Field>, seen: set<seq<byte>>, f: Field)
    requires WellFormed(fields) && f in fields && f.name !in seen
    requires at + 4 + |f.name| <= |b| && b[at..at + 4 + |f.name|] == Word(|f.name|) + f.name
    ensures ReadName(b, at, fields, seen) == Some((f, at + 4 + |f.name|))
  {
    hide Word, Lookup;
    var i :| 0 <= i < |fields| && fields[i] == f;
    Cut(b, at, Word(|f.name|), f.name);
    Word32Found(b, at, |f.name|);
    FoundField(fields, f);
  }

  function Descriptor(f: Field): (d: seq<byte>)
    ensures |d| == 16
  {
    Word(TypeCode(f.kind)) + Word(|f.shape|) + Long(Product(f.shape))
  }

  lemma RestWritten(b: seq<byte>, at: nat, f: Field, finite: Word32 -> bool, strict: bool)
    requires ReadRest(b, at, f, finite, strict).Some?
    ensures
      var (t, next) := ReadRest(b, at, f, finite, strict).value;
      && Matches(t, f, finite, strict)
      && next == at + 16 + 8 * |f.shape| + 4 * |t.data| <= |b|
      && b[at..next] == Descriptor(f) + Dims(f.shape) + Joined(t.data)
  {
    hide Word, Long, Dims, Joined, Split, Sound, Product, TypeCode;
    var (t, next) := ReadRest(b, at, f, finite, strict).value;
    var from := at + 16 + 8 * |f.shape|;
    Word32Bytes(b, at, TypeCode(f.kind));
    Word32Bytes(b, at + 4, |f.shape|);
    Word64Bytes(b, at + 8, Product(f.shape));
    JoinedSplit(b[from..next]);
    Joins(b, at, at + 4, at + 8);
    Joins(b, at, at + 8, at + 16);
    Joins(b, at, at + 16, from);
    Joins(b, at, from, next);
  }

  lemma RestRead(b: seq<byte>, at: nat, f: Field, finite: Word32 -> bool, strict: bool, t: Tensor)
    requires |f.shape| < U32 && Product(f.shape) < U64 && Matches(t, f, finite, strict)
    requires at + 16 + 8 * |f.shape| + 4 * |t.data| <= |b|
    requires b[at..at + 16 + 8 * |f.shape| + 4 * |t.data|] == Descriptor(f) + Dims(f.shape) + Joined(t.data)
    ensures ReadRest(b, at, f, finite, strict) == Some((t, at + 16 + 8 * |f.shape| + 4 * |t.data|))
  {
    hide Word, Long, Dims, Joined, Split, Sound, Product, Word32At, Word64At;
    Cut(b, at, Descriptor(f) + Dims(f.shape), Joined(t.data));
    Cut(b, at, Descriptor(f), Dims(f.shape));
    Cut(b, at, Word(TypeCode(f.kind)) + Word(|f.shape|), Long(Product(f.shape)));
    Cut(b, at, Word(TypeCode(f.kind)), Word(|f.shape|));
    Word32Found(b, at, TypeCode(f.kind));
    Word32Found(b, at + 4, |f.shape|);
    Word64Found(b, at + 8, Product(f.shape));
    SplitJoined(t.data);
  }

  lemma EncodeParts(t: Tensor, f: Field)
    requires t.name == f.name && t.typ == TypeCode(f.kind) && t.dims == f.shape && |t.data| == Product(f.shape)
    ensures Encode(t) == (Word(|f.name|) + f.name) + (Descriptor(f) + Dims(f.shape) + Joined(t.data))
  {
    hide Word, Long, Dims, Joined, Product, TypeCode;
  }

  lemma TensorWritten(b: seq<byte>, at: nat, fields: seq<Field>, seen: set<seq<byte>>, finite: Word32 -> bool, strict: bool)
    requires ReadTensor(b, at, fields, seen, finite, strict).Some?
    ensures
      var (t, next) := ReadTensor(b, at, fields, seen, finite, strict).value;
      && Known(t, fields, finite, strict)
      && t.name !in seen
      && next == at + |Encode(t)| <= |b|
      && b[at..next] == Encode(t)
  {
    hide ReadName, ReadRest, Encode, Descriptor, Sound, Product, Word, Dims, Joined;
    var (f, mid) := ReadName(b, at, fields, seen).value;
    var (t, next) := ReadRest(b, mid, f, finite, strict).value;
    NameWritten(b, at, fields, seen);
    RestWritten(b, mid, f, finite, strict);
    EncodeParts(t, f);
    Joins(b, at, mid, next);
  }

  lemma TensorRead(b: seq<byte>, at: nat, fields: seq<Field>, seen: set<seq<byte>>, finite: Word32 -> bool, strict: bool, t: Tensor, f: Field)
    requires WellFormed(fields) && f in fields && Matches(t, f, finite, strict) && t.name !in seen
    requires at + |Encode(t)| <= |b| && b[at..at + |Encode(t)|] == Encode(t)
    ensures ReadTensor(b, at, fields, seen, finite, strict) == Some((t, at + |Encode(t)|))
  {
    hide ReadName, ReadRest, Encode, Descriptor, Sound, Product, Word, Dims, Joined;
    EncodeParts(t, f);
    Cut(b, at, Word(|f.name|) + f.name, Descriptor(f) + Dims(f.shape) + Joined(t.data));
    NameRead(b, at, fields, seen, f);
    RestRead(b, at + 4 + |f.name|, f, finite, strict, t);
  }

  lemma KnownRead(b: seq<byte>, at: nat, fields: seq<Field>, seen: set<seq<byte>>, finite: Word32 -> bool, strict: bool, t: Tensor)
    requires WellFormed(fields) && Known(t, fields, finite, strict) && t.name !in seen
    requires at + |Encode(t)| <= |b| && b[at..at + |Encode(t)|] == Encode(t)
    ensures ReadTensor(b, at, fields, seen, finite, strict) == Some((t, at + |Encode(t)|))
  {
    hide ReadTensor, Encode, Matches, WellFormed;
    var f :| f in fields && Matches(t, f, finite, strict);
    TensorRead(b, at, fields, seen, finite, strict, t, f);
  }

  lemma MoreDistinct(ts: seq<Tensor>, t: Tensor, fields: seq<Field>, finite: Word32 -> bool, strict: bool)
    requires Distinct(ts, fields, finite, strict) && Known(t, fields, finite, strict) && t.name !in Names(ts)
    ensures Distinct(ts + [t], fields, finite, strict)
  {
    hide Known;
    forall i | 0 <= i < |ts| ensures ts[i].name != t.name {
      assert ts[i].name in Names(ts);
    }
  }

  lemma {:induction false} TensorsWritten(b: seq<byte>, n: nat, fields: seq<Field>, finite: Word32 -> bool, strict: bool)
    requires |b| >= 12 && ReadTensors(b, n, fields, finite, strict).Some?
    ensures
      var (ts, at) := ReadTensors(b, n, fields, finite, strict).value;
      && Distinct(ts, fields, finite, strict)
      && at == 12 + |Body(ts)| <= |b|
      && b[12..at] == Body(ts)
  {
    hide ReadTensor, Encode, Known, Names;
    if n > 0 {
      TensorsWritten(b, n - 1, fields, finite, strict);
      var (ts, at) := ReadTensors(b, n - 1, fields, finite, strict).value;
      TensorWritten(b, at, fields, Names(ts), finite, strict);
      var (t, next) := ReadTensor(b, at, fields, Names(ts), finite, strict).value;
      Joins(b, 12, at, next);
      assert (ts + [t])[..|ts|] == ts;
      MoreDistinct(ts, t, fields, finite, strict);
      hide Distinct;
    }
  }

  lemma {:induction false} TensorsRead(b: seq<byte>, ts: seq<Tensor>, fields: seq<Field>, finite: Word32 -> bool, strict: bool)
    requires WellFormed(fields) && Distinct(ts, fields, finite, strict)
    requires |b| >= 12 + |Body(ts)| && b[12..12 + |Body(ts)|] == Body(ts)
    ensures ReadTensors(b, |ts|, fields, finite, strict) == Some((ts, 12 + |Body(ts)|))
  {
    hide ReadTensor, Encode, Known, WellFormed, Distinct, Names;
    if ts != [] {
      var init, t := ts[..|ts| - 1], ts[|ts| - 1];
      Cut(b, 12, Body(init), Encode(t));
      InitDistinct(ts, fields, finite, strict);
      TensorsRead(b, init, fields, finite, strict);
      KnownRead(b, 12 + |Body(init)|, fields, Names(init), finite, strict, t);
      assert ts == init + [t];
    }
  }

  lemma InitDistinct(ts: seq<Tensor>, fields: seq<Field>, finite: Word32 -> bool, strict: bool)
    requires Distinct(ts, fields, finite, strict) && ts != []
    ensures Distinct(ts[..|ts| - 1], fields, finite, strict)
    ensures Known(ts[|ts| - 1], fields, finite, strict) && ts[|ts| - 1].name !in Names(ts[..|ts| - 1])
  {
    hide Known;
  }

  /** Reading gives back what was written, whatever the order of the tensors. */
  lemma WrittenRead(ts: seq<Tensor>, fields: seq<Field>, finite: Word32 -> bool, strict: bool)
    requires WellFormed(fields) && Complete(ts, fields, finite, strict)
    ensures Read(Written(ts), fields, finite, strict) == Some(ts)
  {
    hide Known, Encode, Word, Word32At, WellFormed;
    var b := Written(ts);
    assert b[8..12] == Word(|ts|);
    SizeFits(fields);
    Word32Found(b, 8, |ts|);
    TensorsRead(b, ts, fields, finite, strict);
  }

  lemma SizeFits(fields: seq<Field>)
    requires WellFormed(fields)
    ensures |fields| < U32
  {
  }

  /** Whatever is accepted is the writing of a complete set of tensors in some order. */
  lemma ReadWritten(b: seq<byte>, fields: seq<Field>, finite: Word32 -> bool, strict: bool)
    requires Read(b, fields, finite, strict).Some?
    ensures Complete(Read(b, fields, finite, strict).value, fields, finite, strict)
    ensures b == Written(Read(b, fields, finite, strict).value)
  {
    hide Known, Encode, Word, Word32At, ReadTensors, Body;
    var ts := Read(b, fields, finite, strict).value;
    Word32Bytes(b, 8, |fields|);
    TensorsWritten(b, |fields|, fields, finite, strict);
    assert b == b[..8] + b[8..12] + b[12..];
  }

  /** What is accepted, exactly. */
  lemma Accepted(b: seq<byte>, fields: seq<Field>, finite: Word32 -> bool, strict: bool)
    requires WellFormed(fields)
    ensures Read(b, fields, finite, strict).Some? <==> exists ts :: Complete(ts, fields, finite, strict) && b == Written(ts)
  {
    hide Read, Complete, Written;
    if Read(b, fields, finite, strict).Some? {
      ReadWritten(b, fields, finite, strict);
    }
    if ts :| Complete(ts, fields, finite, strict) && b == Written(ts) {
      WrittenRead(ts, fields, finite, strict);
    }
  }

  /** No field can be missing: as many different fields as the schema has are all of them. */
  lemma NoneMissing(ts: seq<Tensor>, fields: seq<Field>, finite: Word32 -> bool, strict: bool, f: Field)
    requires Complete(ts, fields, finite, strict) && f in fields
    requires forall i, j :: 0 <= i < j < |fields| ==> fields[i].name != fields[j].name
    ensures exists t :: t in ts && Matches(t, f, finite, strict)
  {
    hide Matches;
    var have, want := Names(ts), set i | 0 <= i < |fields| :: fields[i].name;
    NamesCounted(ts);
    WantedCounted(fields, |fields|);
    forall n | n in have ensures n in want {
      var i :| 0 <= i < |ts| && ts[i].name == n;
      assert Known(ts[i], fields, finite, strict);
      var g :| g in fields && Matches(ts[i], g, finite, strict);
      MatchesName(ts[i], g, finite, strict);
      var k :| 0 <= k < |fields| && fields[k] == g;
    }
    Sets.SameSize(have, want);
    var k :| 0 <= k < |fields| && fields[k] == f;
    assert f.name in want;
    var i :| 0 <= i < |ts| && ts[i].name == f.name;
    assert Known(ts[i], fields, finite, strict);
    var g :| g in fields && Matches(ts[i], g, finite, strict);
    MatchesName(ts[i], g, finite, strict);
    var m :| 0 <= m < |fields| && fields[m] == g;
    assert m == k;
  }

  lemma MatchesName(t: Tensor, f: Field, finite: Word32 -> bool, strict: bool)
    requires Matches(t, f, finite, strict)
    ensures t.name == f.name
  {
  }

  lemma {:induction false} NamesCounted(ts: seq<Tensor>)
    requires forall i, j :: 0 <= i < j < |ts| ==> ts[i].name != ts[j].name
    ensures |Names(ts)| == |ts|
  {
    if ts != [] {
      var init, last := ts[..|ts| - 1], ts[|ts| - 1];
      NamesCounted(init);
      assert Names(ts) == Names(init) + {last.name};
      assert last.name !in Names(init);
    }
  }

  lemma {:induction false} WantedCounted(fields: seq<Field>, n: nat)
    requires n <= |fields|
    requires forall i, j :: 0 <= i < j < |fields| ==> fields[i].name != fields[j].name
    ensures |set i | 0 <= i < n :: fields[i].name| == n
  {
    var s := set i | 0 <= i < n :: fields[i].name;
    if n == 0 {
      assert s == {};
    } else {
      WantedCounted(fields, n - 1);
      assert s == (set i | 0 <= i < n - 1 :: fields[i].name) + {fields[n - 1].name};
    }
  }

  lemma KnownLoosely(t: Tensor, fields: seq<Field>, finite: Word32 -> bool)
    requires Known(t, fields, finite, true)
    ensures Known(t, fields, finite, false)
  {
    var f :| f in fields && Matches(t, f, finite, true);
    assert Matches(t, f, finite, false);
  }

  /** Everything the strict reader accepts, the lax reader accepts as the same tensors. */
  lemma LaxAccepts(b: seq<byte>, fields: seq<Field>, finite: Word32 -> bool)
    requires WellFormed(fields) && Read(b, fields, finite, true).Some?
    ensures Read(b, fields, finite, false) == Read(b, fields, finite, true)
  {
    hide Read, Known, Written, WellFormed;
    ReadWritten(b, fields, finite, true);
    var ts := Read(b, fields, finite, true).value;
    forall i | 0 <= i < |ts| ensures Known(ts[i], fields, finite, false) {
      KnownLoosely(ts[i], fields, finite);
    }
    WrittenRead(ts, fields, finite, false);
  }

  /** All indices of a tensor are below its field's limit. */
  predicate InRange(t: Tensor, fields: seq<Field>) {
    var f := Lookup(fields, t.name);
    f.Some? && f.value.kind.Indices? ==> forall i :: 0 <= i < |t.data| ==> FromLittleEndian(t.data[i]) < f.value.kind.limit
  }

  /** The lax reader accepts more: of the files it accepts, the strict reader
      accepts exactly those whose indices are all in range. */
  lemma LaxAcceptsMore(b: seq<byte>, fields: seq<Field>, finite: Word32 -> bool)
    requires WellFormed(fields) && Read(b, fields, finite, false).Some?
    ensures Read(b, fields, finite, true).Some? <==>
              forall t :: t in Read(b, fields, finite, false).value ==> InRange(t, fields)
  {
    hide Read, Known, Written, InRange, WellFormed;
    ReadWritten(b, fields, finite, false);
    var ts := Read(b, fields, finite, false).value;
    if Read(b, fields, finite, true).Some? {
      LaxAccepts(b, fields, finite);
      ReadWritten(b, fields, finite, true);
      forall t | t in ts ensures InRange(t, fields) {
        var i :| 0 <= i < |ts| && ts[i] == t;
        assert Known(ts[i], fields, finite, true) && Known(ts[i], fields, finite, false);
        StrictlyInRange(t, fields, finite);
      }
    }
    if forall t :: t in ts ==> InRange(t, fields) {
      forall i | 0 <= i < |ts| ensures Known(ts[i], fields, finite, true) {
        assert Known(ts[i], fields, finite, false);
        StrictlyInRange(ts[i], fields, finite);
      }
      WrittenRead(ts, fields, finite, true);
    }
  }

  lemma StrictlyInRange(t: Tensor, fields: seq<Field>, finite: Word32 -> bool)
    requires WellFormed(fields) && Known(t, fields, finite, false)
    ensures Known(t, fields, finite, true) <==> InRange(t, fields)
  {
    hide Product;
    var f :| f in fields && Matches(t, f, finite, false);
    FoundField(fields, f);
    if Known(t, fields, finite, true) {
      var g :| g in fields && Matches(t, g, finite, true);
      FoundField(fields, g);
    }
    assert InRange(t, fields) ==> Matches(t, f, finite, true);
  }

  /** One tensor a field, filled with one number or one index. */
  function Filled(fields: seq<Field>, number: Word32, index: Word32): (ts: seq<Tensor>)
    ensures |ts| == |fields|
  {
    seq(|fields|, i requires 0 <= i < |fields| =>
      Tensor(fields[i].name, TypeCode(fields[i].kind), fields[i].shape,
             seq(Product(fields[i].shape), _ => if fields[i].kind.Indices? then index else number)))
  }

  lemma FilledComplete(fields: seq<Field>, number: Word32, index: Word32, finite: Word32 -> bool)
    requires WellFormed(fields) && finite(number)
    ensures Complete(Filled(fields, number, index), fields, finite, false)
  {
    hide Product;
    var ts := Filled(fields, number, index);
    forall i | 0 <= i < |ts| ensures Known(ts[i], fields, finite, false) {
      assert fields[i] in fields && Matches(ts[i], fields[i], finite, false);
    }
  }

  // The bytes themselves.

  /** A tensor's bytes: the length of its name and the name, the type code, the rank, the
      number of its words, the dimensions in their order, and the words in theirs. */
  ghost predicate TensorBytes(b: seq<byte>, t: Tensor) {
    var p, rank, count := 4 + |t.name|, |t.dims|, |t.data|;
    && |b| == p + 16 + 8 * rank + 4 * count
    && b[..4] == Word(|t.name|) && b[4..p] == t.name
    && b[p..p + 4] == Word(t.typ) && b[p + 4..p + 8] == Word(rank) && b[p + 8..p + 16] == Long(count)
    && (forall k: nat | k < rank :: b[p + 16 + 8 * k..p + 24 + 8 * k] == Long(t.dims[k]))
    && forall k: nat | k < count :: b[p + 16 + 8 * rank + 4 * k..p + 20 + 8 * rank + 4 * k] == t.data[k]
  }

  function SizeOf(t: Tensor): nat {
    20 + |t.name| + 8 * |t.dims| + 4 * |t.data|
  }

  /** Where tensor `i` of a file starts. */
  function StartAt(ts: seq<Tensor>, i: nat): (at: nat)
    requires i <= |ts|
    ensures at >= 12
  {
    if i == 0 then 12 else StartAt(ts, i - 1) + SizeOf(ts[i - 1])
  }

  lemma {:induction false} DimsAt(dims: seq<nat>, k: nat)
    requires k < |dims|
    ensures Dims(dims)[8 * k..8 * k + 8] == Long(dims[k])
  {
    hide Long;
    var init := dims[..|dims| - 1];
    if k < |init| {
      DimsAt(init, k);
      assert Dims(dims)[8 * k..8 * k + 8] == Dims(init)[8 * k..8 * k + 8];
    }
  }

  lemma HeadLaid(t: Tensor)
    ensures var h, p := Head(t), 4 + |t.name|;
            && |h| == p + 16 && h[..4] == Word(|t.name|) && h[4..p] == t.name
            && h[p..p + 4] == Word(t.typ) && h[p + 4..p + 8] == Word(|t.dims|) && h[p + 8..p + 16] == Long(|t.data|)
  {
    hide Word, Long;
  }

  lemma TensorLaid(t: Tensor)
    ensures TensorBytes(Encode(t), t)
  {
    hide Word, Long, Joined, Dims, Head;
    var e, h, rank, count := Encode(t), Head(t), |t.dims|, |t.data|;
    HeadLaid(t);
    var p, from := |h|, |h| + 8 * rank;
    Begins(e, h, 4 + |t.name|);
    assert e[p..from] == Dims(t.dims) && e[from..from + 4 * count] == Joined(t.data);
    forall k: nat | k < rank ensures e[p + 8 * k..p + 8 * k + 8] == Long(t.dims[k]) {
      DimsAt(t.dims, k);
      Subslice(e, p, 8 * rank, 8 * k, 8);
    }
    forall k: nat | k < count ensures e[from + 4 * k..from + 4 * k + 4] == t.data[k] {
      JoinedAt(t.data, k);
      Subslice(e, from, 4 * count, 4 * k, 4);
    }
  }

  lemma Begins(e: seq<byte>, h: seq<byte>, p: nat)
    requires h <= e && 4 <= p && p + 16 == |h|
    ensures h[..4] == e[..4] && h[4..p] == e[4..p] && h[p..p + 4] == e[p..p + 4]
    ensures h[p + 4..p + 8] == e[p + 4..p + 8] && h[p + 8..p + 16] == e[p + 8..p + 16]
  {
  }

  lemma {:induction false} BodyLength(ts: seq<Tensor>)
    ensures StartAt(ts, |ts|) == 12 + |Body(ts)|
  {
    hide Encode;
    if ts != [] {
      BodyLength(ts[..|ts| - 1]);
      StartInit(ts, |ts| - 1);
      EncodeSize(ts[|ts| - 1]);
    }
  }

  lemma EncodeSize(t: Tensor)
    ensures |Encode(t)| == SizeOf(t)
  {
  }

  /** Tensor `i` starts where the sizes of the header and of the tensors before it end. */
  lemma {:induction false} BodyLaid(ts: seq<Tensor>, i: nat)
    requires i < |ts|
    ensures var at := StartAt(ts, i) - 12;
            at + |Encode(ts[i])| <= |Body(ts)| && Body(ts)[at..at + |Encode(ts[i])|] == Encode(ts[i])
  {
    hide Encode, StartAt, Body;
    var init, n := ts[..|ts| - 1], |Encode(ts[i])|;
    StartInit(ts, i);
    LastLaid(ts);
    if i < |init| {
      BodyLaid(init, i);
      Subslice(Body(ts), 0, |Body(init)|, StartAt(ts, i) - 12, n);
    } else {
      BodyLength(init);
    }
  }

  lemma LastLaid(ts: seq<Tensor>)
    requires ts != []
    ensures EndsWith(Body(ts), Body(ts[..|ts| - 1]), Encode(ts[|ts| - 1]))
  {
    BodyEnds(ts);
    hide Body, Encode, EndsWith;
    Halves(Body(ts[..|ts| - 1]), Encode(ts[|ts| - 1]));
  }

  lemma BodyEnds(ts: seq<Tensor>)
    requires ts != []
    ensures Body(ts) == Body(ts[..|ts| - 1]) + Encode(ts[|ts| - 1])
  {
    hide Encode;
  }

  predicate EndsWith(b: seq<byte>, first: seq<byte>, last: seq<byte>) {
    |b| == |first| + |last| && b[0..|first|] == first && b[|first|..|first| + |last|] == last
  }

  lemma Halves(a: seq<byte>, b: seq<byte>)
    ensures EndsWith(a + b, a, b)
  {
  }

  lemma {:induction false} StartInit(ts: seq<Tensor>, i: nat)
    requires i < |ts|
    ensures StartAt(ts, i) == StartAt(ts[..|ts| - 1], i)
  {
    if i > 0 {
      StartInit(ts, i - 1);
    }
  }

  ghost predicate TensorAt(b: seq<byte>, at: nat, t: Tensor) {
    at + SizeOf(t) <= |b| && TensorBytes(b[at..at + SizeOf(t)], t)
  }

  /** A result file: eight bytes of tag, the number of tensors, and the tensors one
      behind the other. */
  lemma FileLaid(ts: seq<Tensor>)
    ensures var b := Written(ts);
            && |b| == StartAt(ts, |ts|)
            && b[..8] == [83, 51, 68, 79, 85, 84, 48, 49] && b[8..12] == Word(|ts|)
            && forall i: nat | i < |ts| :: TensorAt(b, StartAt(ts, i), ts[i])
  {
    hide Word, Encode, TensorBytes, StartAt;
    var b, body := Written(ts), Body(ts);
    BodyLength(ts);
    assert b[12..12 + |body|] == body;
    forall i: nat | i < |ts| ensures TensorAt(b, StartAt(ts, i), ts[i]) {
      BodyLaid(ts, i);
      EncodeSize(ts[i]);
      Subslice(b, 12, |body|, StartAt(ts, i) - 12, |Encode(ts[i])|);
      TensorLaid(ts[i]);
    }
  }
}
