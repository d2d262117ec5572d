/**
 Whole GGUF archives: the streaming writer, its own readback, and an independent
 reader that recovers everything that was written.
 */
module GgufArchive {
  import opened Wrappers
  import opened Bytes
  import opened Cursor
  import opened GgufOrder
  import opened Gguf

  datatype Tensor = Tensor(info: Info, data: seq<Word32>)

  predicate Fits(t: Tensor) {
    |t.data| == Product(t.info.dims)
  }

  function InfosIn(ts: seq<Tensor>): (infos: seq<Info>)
    ensures |infos| == |ts|
  {
    seq(|ts|, i requires 0 <= i < |ts| => ts[i].info)
  }

  /** One tensor's data, filled up with zeros to the alignment. */
  function Block(t: Tensor): (b: seq<byte>)
    ensures |b| == 4 * |t.data| + Padding(4 * |t.data|)
  {
    Joined(t.data) + Zeros(Padding(4 * |t.data|))
  }

  /** The data of the first `k` tensors. */
  function Body(ts: seq<Tensor>, k: nat): seq<byte>
    requires k <= |ts|
  {
    if k == 0 then [] else Body(ts, k - 1) + Block(ts[k - 1])
  }

  function Archive(metas: seq<(Text, Value)>, ts: seq<Tensor>): seq<byte> {
    Header(metas, InfosIn(ts)) + Body(ts, |ts|)
  }

  /** A tensor of the safetensors input. */
  datatype Source = Source(shape: seq<int>, words: seq<Word32>)

  /** The tensors of the archive: the sorted descriptions with the input's words. */
  function Gathered(items: seq<(Text, seq<int>)>, types: Option<map<Text, nat>>, source: map<Text, Source>): (ts: seq<Tensor>)
    requires forall i :: 0 <= i < |items| ==> items[i].0 in source
    ensures |ts| == |items|
  {
    seq(|items|, i requires 0 <= i < |items| => Tensor(InfoOf(items[i], types), source[items[i].0].words))
  }

  /** The input has a schema's tensor in its shape, and values that pass `valid`. */
  predicate Supplies(source: map<Text, Source>, item: (Text, seq<int>), valid: (Text, seq<Word32>) -> bool) {
    item.0 in source && source[item.0].shape == item.1 && valid(item.0, source[item.0].words)
  }

  predicate WholeSource(source: map<Text, Source>) {
    forall name :: name in source ==> |source[name].words| == Product(Naturals(source[name].shape))
  }

  lemma {:induction false} BodyLength(ts: seq<Tensor>, k: nat)
    requires k <= |ts| && forall i :: 0 <= i < |ts| ==> Fits(ts[i])
    ensures |Body(ts, k)| == OffsetOf(InfosIn(ts), k)
  {
    if k > 0 {
      BodyLength(ts, k - 1);
      assert Fits(ts[k - 1]);
    }
  }

  /** The write loop: each tensor's values, checked once more, then its padding. */
  method Stream(items: seq<(Text, seq<int>)>, ghost types: Option<map<Text, nat>>, source: map<Text, Source>,
                valid: (Text, seq<Word32>) -> bool, header: seq<byte>)
    returns (ok: bool, out: seq<byte>)
    requires forall i :: 0 <= i < |items| ==> items[i].0 in source
    ensures ok <==> forall i :: 0 <= i < |items| ==> valid(items[i].0, source[items[i].0].words)
    ensures ok ==> out == header + Body(Gathered(items, types, source), |items|)
  {
    hide Joined, Padding, InfoOf;
    ghost var ts := Gathered(items, types, source);
    out := header;
    var i := 0;
    while i < |items|
      invariant 0 <= i <= |items|
      invariant out == header + Body(ts, i)
      invariant forall k :: 0 <= k < i ==> valid(items[k].0, source[items[k].0].words)
    {
      var tensor := source[items[i].0].words;
      if !valid(items[i].0, tensor) {
        return false, out;
      }
      assert ts[i].data == tensor;
      out := out + Joined(tensor);
      out := out + Zeros(Padding(4 * |tensor|));
      i := i + 1;
    }
    ok := true;
  }

  /** The archive of the sorted metadata and tensors, with the length its header implies. */
  ghost predicate Published(out: seq<byte>, metas: seq<(Text, Value)>, items: seq<(Text, seq<int>)>,
                            types: Option<map<Text, nat>>, source: map<Text, Source>)
  {
    && (forall i :: 0 <= i < |items| ==> items[i].0 in source)
    && out == Archive(metas, Gathered(items, types, source))
    && (forall i :: 0 <= i < |items| ==> Fits(Gathered(items, types, source)[i]))
    && |out| == |Header(metas, InfosOf(items, types))| + OffsetOf(InfosOf(items, types), |items|)
  }

  /** A converter's run: check the input, write the header, stream the tensors in
      order, and publish only a file of the expected length.  With `exact` the input
      must have no tensor beside the schema's. */
  method Convert(meta: seq<(Text, Value)>, shapes: seq<(Text, seq<int>)>, types: Option<map<Text, nat>>,
                 source: map<Text, Source>, valid: (Text, seq<Word32>) -> bool, exact: bool)
    returns (r: Result<seq<byte>>)
    requires Dictionary(meta) && Dictionary(shapes) && WholeSource(source)
    ensures r.Success? <==>
      && Encodable(meta, shapes, types)
      && (forall x :: x in shapes ==> Supplies(source, x, valid))
      && (exact ==> source.Keys == NamesOf(shapes))
    ensures r.Success? ==> Published(r.value, Sorted(meta), Sorted(shapes), types, source)
  {
    hide Encodable, Header, OffsetOf, Sorted, InfosOf, Body, NamesOf, WholeSource;
    SortedKeeps(shapes);
    var items := Sorted(shapes);
    var encoded := EncodeHeader(meta, shapes, types);
    if encoded.Failure? {
      return Failure(encoded.error);
    }
    var (header, bodySize) := encoded.value;
    if exact && source.Keys != NamesOf(shapes) {
      return Failure("missing or unexpected safetensors tensors");
    }
    var i := 0;
    while i < |shapes|
      invariant 0 <= i <= |shapes|
      invariant forall k :: 0 <= k < i ==> shapes[k].0 in source && source[shapes[k].0].shape == shapes[k].1
    {
      var (name, shape) := shapes[i];
      if name !in source || source[name].shape != shape {
        assert !Supplies(source, shapes[i], valid);
        return Failure("tensor dtype/shape mismatch");
      }
      i := i + 1;
    }
    ItemsPresent(shapes, items, source);
    var ok, out := Stream(items, types, source, valid, header);
    StreamChecks(shapes, items, source, valid);
    if !ok {
      return Failure("invalid tensor");
    }
    ArchiveLength(Sorted(meta), items, types, source);
    if |out| != |header| + bodySize {
      return Failure("GGUF length mismatch");
    }
    r := Success(out);
  }

  lemma ItemsPresent(shapes: seq<(Text, seq<int>)>, items: seq<(Text, seq<int>)>, source: map<Text, Source>)
    requires SameItems(items, shapes)
    requires forall k :: 0 <= k < |shapes| ==> shapes[k].0 in source && source[shapes[k].0].shape == shapes[k].1
    ensures forall i :: 0 <= i < |items| ==> items[i].0 in source && source[items[i].0].shape == items[i].1
  {
    forall i | 0 <= i < |items| ensures items[i].0 in source && source[items[i].0].shape == items[i].1 {
      assert items[i] in shapes;
    }
  }

  lemma StreamChecks(shapes: seq<(Text, seq<int>)>, items: seq<(Text, seq<int>)>, source: map<Text, Source>,
                     valid: (Text, seq<Word32>) -> bool)
    requires SameItems(items, shapes)
    requires forall i :: 0 <= i < |items| ==> items[i].0 in source && source[items[i].0].shape == items[i].1
    ensures (forall i :: 0 <= i < |items| ==> valid(items[i].0, source[items[i].0].words))
       <==> forall x :: x in shapes ==> Supplies(source, x, valid)
  {
    if forall i :: 0 <= i < |items| ==> valid(items[i].0, source[items[i].0].words) {
      forall x | x in shapes ensures Supplies(source, x, valid) {
        assert x in items;
      }
    }
    if forall x :: x in shapes ==> Supplies(source, x, valid) {
      forall i | 0 <= i < |items| ensures valid(items[i].0, source[items[i].0].words) {
        assert items[i] in items;
        assert Supplies(source, items[i], valid);
      }
    }
  }

  lemma ArchiveLength(metas: seq<(Text, Value)>, items: seq<(Text, seq<int>)>, types: Option<map<Text, nat>>, source: map<Text, Source>)
    requires WholeSource(source)
    requires forall i :: 0 <= i < |items| ==> items[i].0 in source && source[items[i].0].shape == items[i].1
    ensures
      var ts := Gathered(items, types, source);
      && InfosIn(ts) == InfosOf(items, types)
      && (forall i :: 0 <= i < |items| ==> Fits(ts[i]))
      && |Body(ts, |items|)| == OffsetOf(InfosOf(items, types), |items|)
  {
    hide Body, OffsetOf, Product, Naturals;
    var ts := Gathered(items, types, source);
    assert InfosIn(ts) == InfosOf(items, types);
    BodyLength(ts, |items|);
  }

  lemma {:induction false} BlockAt(ts: seq<Tensor>, i: nat, k: nat)
    requires i < k <= |ts|
    ensures |Body(ts, i)| + |Block(ts[i])| <= |Body(ts, k)|
    ensures Body(ts, k)[..|Body(ts, i)|] == Body(ts, i)
    ensures Body(ts, k)[|Body(ts, i)|..|Body(ts, i)| + |Block(ts[i])|] == Block(ts[i])
  {
    hide Block;
    if i < k - 1 {
      BlockAt(ts, i, k - 1);
    }
  }

  // A file that is the intended one has block `i` in its place, values first.
  lemma BlockNeeded(file: seq<byte>, header: seq<byte>, ts: seq<Tensor>, i: nat, at: nat)
    requires i < |ts| && at == |header| + |Body(ts, i)|
    ensures file == header + Body(ts, |ts|) ==>
      var value, zeros := Joined(ts[i].data), Zeros(Padding(4 * |ts[i].data|));
      && at + |value| + |zeros| <= |file|
      && file[at..at + |value|] == value
      && file[at + |value|..at + |value| + |zeros|] == zeros
  {
    hide Joined, Padding, Body;
    if file == header + Body(ts, |ts|) {
      BlockAt(ts, i, |ts|);
      var body, from := Body(ts, |ts|), |Body(ts, i)|;
      assert file[at..at + |Block(ts[i])|] == body[from..from + |Block(ts[i])|];
      Cut(file, at, Joined(ts[i].data), Zeros(Padding(4 * |ts[i].data|)));
    }
  }

  /** The next tensor of the readback: its values, then its padding. */
  method CheckBlock(file: seq<byte>, at: nat, t: Tensor) returns (ok: bool, next: nat)
    requires at <= |file|
    ensures ok <==>
      var value, zeros := Joined(t.data), Zeros(Padding(4 * |t.data|));
      && at + |value| + |zeros| <= |file|
      && file[at..at + |value|] == value
      && file[at + |value|..at + |value| + |zeros|] == zeros
    ensures ok ==> at <= next <= |file| && file[..next] == file[..at] + Block(t)
  {
    hide Joined, Padding, Zeros;
    var value := Joined(t.data);
    var zeros := Zeros(Padding(|value|));
    next := at;
    if at + |value| > |file| || file[at..at + |value|] != value {
      return false, next;
    }
    next := at + |value|;
    if next + |zeros| > |file| || file[next..next + |zeros|] != zeros {
      return false, next;
    }
    next := next + |zeros|;
    Joins(file, 0, at, at + |value|);
    Joins(file, 0, at + |value|, next);
    ok := true;
  }

  /** The branch converter's own readback: it passes exactly the intended file. */
  method ReadBack(file: seq<byte>, header: seq<byte>, ts: seq<Tensor>) returns (ok: bool)
    ensures ok <==> file == header + Body(ts, |ts|)
  {
    hide Joined, Padding, Zeros, Block;
    if |file| < |header| || file[..|header|] != header {
      return false;
    }
    var at := |header|;
    var i := 0;
    while i < |ts|
      invariant 0 <= i <= |ts|
      invariant 0 <= at <= |file| && file[..at] == header + Body(ts, i)
    {
      BlockNeeded(file, header, ts, i, at);
      var same, next := CheckBlock(file, at, ts[i]);
      if !same {
        return false;
      }
      at := next;
      i := i + 1;
    }
    assert file[..at] + file[at..] == file;
    ok := at == |file|;
  }

  // An independent reader, from the format alone.

  function ReadText(b: seq<byte>, at: nat): (r: Option<(Text, nat)>)
    ensures r.Some? ==> at < r.value.1 <= |b|
  {
    match Word64At(b, at)
    case None => None
    case Some(n) => if at + 8 + n > |b| then None else Some((b[at + 8..at + 8 + n], at + 8 + n))
  }

  function ReadValue(b: seq<byte>, at: nat): (r: Option<(Value, nat)>)
    ensures r.Some? ==> at < r.value.1 <= |b|
  {
    match Word32At(b, at)
    case None => None
    case Some(code) =>
      if code == TYPE_UINT32 then
        match Word32At(b, at + 4)
        case None => None
        case Some(n) => Some((Number(n), at + 8))
      else if code == TYPE_STRING then
        match ReadText(b, at + 4)
        case None => None
        case Some((text, next)) => Some((Str(text), next))
      else None
  }

  /** The first `n` metadata entries, from the end of the fixed part. */
  function ReadMetas(b: seq<byte>, n: nat): (r: Option<(seq<(Text, Value)>, nat)>)
    ensures r.Some? ==> |r.value.0| == n
  {
    if n == 0 then Some(([], 24))
    else
      match ReadMetas(b, n - 1)
      case None => None
      case Some((metas, at)) =>
        match ReadText(b, at)
        case None => None
        case Some((key, mid)) =>
          match ReadValue(b, mid)
          case None => None
          case Some((value, next)) => Some((metas + [(key, value)], next))
  }

  /** The axes at `at`, innermost first in the file, outermost first in the result. */
  function ReadDims(b: seq<byte>, at: nat, rank: nat): (r: Option<seq<nat>>)
    ensures r.Some? ==> |r.value| == rank
    decreases rank
  {
    if rank == 0 then Some([])
    else
      match Word64At(b, at)
      case None => None
      case Some(innermost) =>
        match ReadDims(b, at + 8, rank - 1)
        case None => None
        case Some(outer) => Some(outer + [innermost])
  }

  /** A tensor description and its offset. */
  function ReadInfo(b: seq<byte>, at: nat): Option<((Info, nat), nat)> {
    match ReadText(b, at)
    case None => None
    case Some((name, p)) =>
      match Word32At(b, p)
      case None => None
      case Some(rank) =>
        match ReadDims(b, p + 4, rank)
        case None => None
        case Some(dims) =>
          var q := p + 4 + 8 * rank;
          match Word32At(b, q)
          case None => None
          case Some(typ) =>
            match Word64At(b, q + 4)
            case None => None
            case Some(offset) => Some(((Info(name, dims, typ), offset), q + 12))
  }

  function ReadInfos(b: seq<byte>, from: nat, n: nat): (r: Option<(seq<(Info, nat)>, nat)>)
    ensures r.Some? ==> |r.value.0| == n
  {
    if n == 0 then Some(([], from))
    else
      match ReadInfos(b, from, n - 1)
      case None => None
      case Some((infos, at)) =>
        match ReadInfo(b, at)
        case None => None
        case Some((info, next)) => Some((infos + [info], next))
  }

  /** The alignment the metadata declares; 32 if it declares none. */
  function AlignmentOf(metas: seq<(Text, Value)>): (a: nat)
    ensures a > 0
  {
    if metas == [] then ALIGNMENT
    else
      var (key, value) := metas[|metas| - 1];
      if key == ALIGNMENT_KEY && value.Number? && value.n > 0 then value.n else AlignmentOf(metas[..|metas| - 1])
  }

  const ALIGNMENT_KEY: Text := [103, 101, 110, 101, 114, 97, 108, 46, 97, 108, 105, 103, 110, 109, 101, 110, 116]  // general.alignment

  function AlignedUp(n: nat, a: nat): nat
    requires a > 0
  {
    (n + a - 1) / a * a
  }

  function ReadTensor(b: seq<byte>, start: nat, info: (Info, nat)): (t: Option<Tensor>)
    ensures t.Some? ==> Fits(t.value)
  {
    var at, size := start + info.1, DataSize(info.0);
    if at + size > |b| then None
    else
      assert |b[at..at + size]| == size;
      Some(Tensor(info.0, Split(b[at..at + size])))
  }

  function ReadData(b: seq<byte>, start: nat, infos: seq<(Info, nat)>): (r: Option<seq<Tensor>>)
    ensures r.Some? ==> |r.value| == |infos|
  {
    if infos == [] then Some([])
    else
      match ReadData(b, start, infos[..|infos| - 1])
      case None => None
      case Some(ts) =>
        match ReadTensor(b, start, infos[|infos| - 1])
        case None => None
        case Some(t) => Some(ts + [t])
  }

  function Read(b: seq<byte>): Option<(seq<(Text, Value)>, seq<Tensor>)> {
    if |b| < 24 || b[..4] != MAGIC || Word32At(b, 4) != Some(VERSION) then None
    else
      var tensors, metas := Word64At(b, 8).value, Word64At(b, 16).value;
      match ReadMetas(b, metas)
      case None => None
      case Some((meta, at)) =>
        match ReadInfos(b, at, tensors)
        case None => None
        case Some((infos, end)) =>
          match ReadData(b, AlignedUp(end, AlignmentOf(meta)), infos)
          case None => None
          case Some(ts) => Some((meta, ts))
  }
}
