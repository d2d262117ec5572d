/**
 A reader of the GGUF format recovers from an archive exactly the metadata, and
 every tensor's name, axes, type and data.
 */
module GgufRoundTrip {
  import opened Wrappers
  import opened Bytes
  import opened Cursor
  import opened GgufOrder
  import opened Gguf
  import opened GgufArchive

  lemma TextRead(b: seq<byte>, at: nat, t: Text)
    requires |t| < U64 && at + 8 + |t| <= |b| && b[at..at + 8 + |t|] == TextBytes(t)
    ensures ReadText(b, at) == Some((t, at + 8 + |t|))
  {
    hide Long, Word64At;
    Cut(b, at, Long(|t|), t);
    Word64Found(b, at, |t|);
  }

  lemma ValueRead(b: seq<byte>, at: nat, v: Value)
    requires ValidValue(v) && at + |ValueBytes(v)| <= |b| && b[at..at + |ValueBytes(v)|] == ValueBytes(v)
    ensures ReadValue(b, at) == Some((v, at + |ValueBytes(v)|))
  {
    hide Word, Word32At, ReadText, TextBytes;
    match v {
      case Number(n) =>
        Cut(b, at, Word(TYPE_UINT32), Word(n));
        Word32Found(b, at, TYPE_UINT32);
        Word32Found(b, at + 4, n);
      case Str(text) =>
        Cut(b, at, Word(TYPE_STRING), TextBytes(text));
        Word32Found(b, at, TYPE_STRING);
        TextRead(b, at + 4, text);
    }
  }

  lemma {:induction false} MetasRead(b: seq<byte>, metas: seq<(Text, Value)>)
    requires forall i :: 0 <= i < |metas| ==> ValidMeta(metas[i])
    requires 24 + |Metas(metas)| <= |b| && b[24..24 + |Metas(metas)|] == Metas(metas)
    ensures ReadMetas(b, |metas|) == Some((metas, 24 + |Metas(metas)|))
  {
    hide ReadText, ReadValue, TextBytes, ValueBytes, ValidText, ValidValue, ValidMeta;
    if metas != [] {
      var init := metas[..|metas| - 1];
      var (key, value) := metas[|metas| - 1];
      var at := 24 + |Metas(init)|;
      Cut(b, 24, Metas(init), MetaEntry((key, value)));
      MetasRead(b, init);
      TextShort((key, value));
      Cut(b, at, TextBytes(key), ValueBytes(value));
      TextRead(b, at, key);
      ValueRead(b, at + 8 + |key|, value);
      assert metas == init + [(key, value)];
    }
  }

  lemma TextShort(item: (Text, Value))
    requires ValidMeta(item)
    ensures |item.0| < U64 && |TextBytes(item.0)| == 8 + |item.0| && ValidValue(item.1)
  {
  }

  lemma {:induction false} DimsRead(b: seq<byte>, at: nat, dims: seq<nat>)
    requires forall i :: 0 <= i < |dims| ==> dims[i] < U64
    requires at + 8 * |dims| <= |b| && b[at..at + 8 * |dims|] == DimsReversed(dims)
    ensures ReadDims(b, at, |dims|) == Some(dims)
    decreases |dims|
  {
    hide Long, Word64At;
    if dims != [] {
      var outer, innermost := dims[..|dims| - 1], dims[|dims| - 1];
      Cut(b, at, Long(innermost), DimsReversed(outer));
      Word64Found(b, at, innermost);
      DimsRead(b, at + 8, outer);
      assert dims == outer + [innermost];
    }
  }

  /** In the file the innermost axis, the last of the shape, comes first. */
  lemma {:induction false} DimsOnDisk(dims: seq<nat>, k: nat)
    requires k < |dims|
    ensures DimsReversed(dims)[8 * k..8 * k + 8] == Long(dims[|dims| - 1 - k])
    decreases |dims|
  {
    hide Long;
    if k > 0 {
      var outer := dims[..|dims| - 1];
      DimsOnDisk(outer, k - 1);
      assert DimsReversed(dims)[8 * k..8 * k + 8] == DimsReversed(outer)[8 * (k - 1)..8 * (k - 1) + 8];
    }
  }

  predicate Storable(info: Info) {
    && |info.name| < U64 && |info.dims| < U32 && info.typ < U32
    && forall i :: 0 <= i < |info.dims| ==> info.dims[i] < U64
  }

  lemma InfoRead(b: seq<byte>, at: nat, info: Info, offset: nat)
    requires Storable(info) && offset < U64
    requires at + |InfoEntry(info, offset)| <= |b| && b[at..at + |InfoEntry(info, offset)|] == InfoEntry(info, offset)
    ensures ReadInfo(b, at) == Some(((info, offset), at + |InfoEntry(info, offset)|))
  {
    hide Word, Long, Word32At, Word64At, ReadText, ReadDims, DimsReversed, TextBytes;
    var name, dims := TextBytes(info.name), DimsReversed(info.dims);
    Cut(b, at, name + Word(|info.dims|) + dims + Word(info.typ), Long(offset));
    Cut(b, at, name + Word(|info.dims|) + dims, Word(info.typ));
    Cut(b, at, name + Word(|info.dims|), dims);
    Cut(b, at, name, Word(|info.dims|));
    var p := at + 8 + |info.name|;
    TextRead(b, at, info.name);
    Word32Found(b, p, |info.dims|);
    DimsRead(b, p + 4, info.dims);
    Word32Found(b, p + 4 + 8 * |info.dims|, info.typ);
    Word64Found(b, p + 8 + 8 * |info.dims|, offset);
  }

  /** Each description with its offset. */
  function Placed(infos: seq<Info>, k: nat): (r: seq<(Info, nat)>)
    requires k <= |infos|
    ensures |r| == k
  {
    seq(k, i requires 0 <= i < k => (infos[i], OffsetOf(infos, i)))
  }

  lemma {:induction false} InfosRead(b: seq<byte>, from: nat, infos: seq<Info>, k: nat)
    requires k <= |infos|
    requires forall i :: 0 <= i < |infos| ==> Storable(infos[i]) && OffsetOf(infos, i) < U64
    requires from + |Entries(infos, k)| <= |b| && b[from..from + |Entries(infos, k)|] == Entries(infos, k)
    ensures ReadInfos(b, from, k) == Some((Placed(infos, k), from + |Entries(infos, k)|))
  {
    hide ReadInfo, InfoEntry, OffsetOf, Storable;
    if k > 0 {
      var info, offset := infos[k - 1], OffsetOf(infos, k - 1);
      Cut(b, from, Entries(infos, k - 1), InfoEntry(info, offset));
      InfosRead(b, from, infos, k - 1);
      InfoRead(b, from + |Entries(infos, k - 1)|, info, offset);
      assert Placed(infos, k) == Placed(infos, k - 1) + [(info, offset)];
    }
  }

  lemma TensorRead(b: seq<byte>, start: nat, ts: seq<Tensor>, i: nat)
    requires i < |ts| && forall k :: 0 <= k < |ts| ==> Fits(ts[k])
    requires start + |Body(ts, |ts|)| <= |b| && b[start..start + |Body(ts, |ts|)|] == Body(ts, |ts|)
    ensures ReadTensor(b, start, (ts[i].info, OffsetOf(InfosIn(ts), i))) == Some(ts[i])
  {
    hide Body, Joined, Split, Product, OffsetOf, Padding, Zeros;
    BodyLength(ts, i);
    BlockAt(ts, i, |ts|);
    assert Fits(ts[i]);
    var at := |Body(ts, i)|;
    Subslice(b, start, |Body(ts, |ts|)|, at, |Block(ts[i])|);
    Cut(b, start + at, Joined(ts[i].data), Zeros(Padding(4 * |ts[i].data|)));
    SplitJoined(ts[i].data);
  }

  lemma {:induction false} DataRead(b: seq<byte>, start: nat, ts: seq<Tensor>, k: nat)
    requires k <= |ts| && forall i :: 0 <= i < |ts| ==> Fits(ts[i])
    requires start + |Body(ts, |ts|)| <= |b| && b[start..start + |Body(ts, |ts|)|] == Body(ts, |ts|)
    ensures ReadData(b, start, Placed(InfosIn(ts), k)) == Some(ts[..k])
  {
    hide Body, ReadTensor, OffsetOf, Fits;
    if k > 0 {
      DataRead(b, start, ts, k - 1);
      TensorRead(b, start, ts, k - 1);
      assert Placed(InfosIn(ts), k)[..k - 1] == Placed(InfosIn(ts), k - 1);
      assert ts[..k] == ts[..k - 1] + [ts[k - 1]];
    }
  }

  /** Tensors that the converters can write. */
  predicate Writable(ts: seq<Tensor>) {
    0 < |ts| <= 4096 && forall i :: 0 <= i < |ts| ==> ValidInfo(ts[i].info) && Storable(ts[i].info) && Fits(ts[i])
  }

  predicate WritableMetas(metas: seq<(Text, Value)>) {
    0 < |metas| <= 128 && forall i :: 0 <= i < |metas| ==> ValidMeta(metas[i])
  }

  lemma {:induction false} OffsetBounded(infos: seq<Info>, k: nat)
    requires k <= |infos| && forall i :: 0 <= i < |infos| ==> ValidInfo(infos[i])
    ensures OffsetOf(infos, k) <= k * 0x2_0000_0020
  {
    hide ValidName, Product;
    if k > 0 {
      OffsetBounded(infos, k - 1);
      assert ValidInfo(infos[k - 1]);
    }
  }

  lemma {:induction false} OffsetAligned(infos: seq<Info>, k: nat)
    requires k <= |infos|
    ensures OffsetOf(infos, k) % ALIGNMENT == 0
  {
    hide Room;
    if k > 0 {
      OffsetAligned(infos, k - 1);
      SumAligned(OffsetOf(infos, k - 1), Room(infos[k - 1]));
    }
  }

  lemma SumAligned(x: nat, y: nat)
    requires x % ALIGNMENT == 0 && y % ALIGNMENT == 0
    ensures (x + y) % ALIGNMENT == 0
  {
  }

  /** Each tensor's data begins at a multiple of the alignment, after the data of the
      tensor before and its padding, and the last one's padding ends the file. */
  lemma BlocksTile(metas: seq<(Text, Value)>, ts: seq<Tensor>, k: nat)
    requires k < |ts| && forall i :: 0 <= i < |ts| ==> Fits(ts[i])
    ensures |Header(metas, InfosIn(ts))| % ALIGNMENT == 0 && OffsetOf(InfosIn(ts), k) % ALIGNMENT == 0
    ensures OffsetOf(InfosIn(ts), 0) == 0
    ensures OffsetOf(InfosIn(ts), k) + 4 * |ts[k].data| <= OffsetOf(InfosIn(ts), k + 1) < OffsetOf(InfosIn(ts), k) + 4 * |ts[k].data| + ALIGNMENT
    ensures |Archive(metas, ts)| == |Header(metas, InfosIn(ts))| + OffsetOf(InfosIn(ts), |ts|)
  {
    hide Unpadded, Body, Product;
    BodyLength(ts, |ts|);
    OffsetAligned(InfosIn(ts), k);
    assert Fits(ts[k]);
  }

  lemma FixedRead(b: seq<byte>, tensors: nat, metas: nat)
    requires tensors < U64 && metas < U64 && |b| >= 24 && b[..24] == Fixed(tensors, metas)
    ensures b[..4] == MAGIC && Word32At(b, 4) == Some(VERSION)
    ensures Word64At(b, 8) == Some(tensors) && Word64At(b, 16) == Some(metas)
  {
    hide Word, Long, Word32At, Word64At;
    assert b[0..24] == b[..24];
    Cut(b, 0, MAGIC + Word(VERSION) + Long(tensors), Long(metas));
    Cut(b, 0, MAGIC + Word(VERSION), Long(tensors));
    Cut(b, 0, MAGIC, Word(VERSION));
    Word32Found(b, 4, VERSION);
    Word64Found(b, 8, tensors);
    Word64Found(b, 16, metas);
  }

  // The sections of an archive, one after the other.
  lemma Sections(metas: seq<(Text, Value)>, ts: seq<Tensor>, end: nat)
    requires end == 24 + |Metas(metas)| + |Entries(InfosIn(ts), |ts|)|
    ensures
      Archive(metas, ts) ==
        Fixed(|ts|, |metas|) + Metas(metas) + Entries(InfosIn(ts), |ts|) + Zeros(Padding(end)) + Body(ts, |ts|)
    ensures AlignedUp(end, ALIGNMENT) == end + Padding(end)
  {
    hide Fixed, Metas, Entries, Body, Zeros, Padding;
    RoundedUp(end);
  }

  lemma Slices(b: seq<byte>, f: seq<byte>, m: seq<byte>, e: seq<byte>, z: seq<byte>, d: seq<byte>)
    requires b == f + m + e + z + d
    ensures b[..|f|] == f
    ensures b[|f|..|f| + |m|] == m
    ensures b[|f| + |m|..|f| + |m| + |e|] == e
    ensures b[|f| + |m| + |e| + |z|..|f| + |m| + |e| + |z| + |d|] == d
  {
    assert b == f + (m + e + z + d);
    assert b == f + m + (e + z + d);
    assert b == (f + m) + e + (z + d);
  }

  /** Where the descriptions of an archive end. */
  function HeaderEnd(metas: seq<(Text, Value)>, infos: seq<Info>): nat {
    24 + |Metas(metas)| + |Entries(infos, |infos|)|
  }

  /** Where a reader looks for the data: the metadata may declare an alignment. */
  function DataStart(metas: seq<(Text, Value)>, infos: seq<Info>): nat {
    AlignedUp(HeaderEnd(metas, infos), AlignmentOf(metas))
  }

  /** The declared alignment puts the data where the writer puts it. */
  predicate StartAgrees(metas: seq<(Text, Value)>, infos: seq<Info>) {
    DataStart(metas, infos) == AlignedUp(HeaderEnd(metas, infos), ALIGNMENT)
  }

  function WithData(metas: seq<(Text, Value)>, data: Option<seq<Tensor>>): Option<(seq<(Text, Value)>, seq<Tensor>)> {
    match data case None => None case Some(ts) => Some((metas, ts))
  }

  /** What a reader makes of an archive: header and descriptions are those written. */
  lemma HeaderParsed(metas: seq<(Text, Value)>, ts: seq<Tensor>)
    requires WritableMetas(metas) && Writable(ts)
    ensures Read(Archive(metas, ts))
            == WithData(metas, ReadData(Archive(metas, ts), DataStart(metas, InfosIn(ts)), Placed(InfosIn(ts), |ts|)))
  {
    hide Fixed, Metas, Entries, Body, Archive, AlignedUp, ReadMetas, ReadInfos, ReadData, ValidInfo, ValidMeta, Storable, Fits,
      Word32At, Word64At, OffsetOf, AlignmentOf, Zeros, Padding;
    var b, infos := Archive(metas, ts), InfosIn(ts);
    var f, m, e, d := Fixed(|ts|, |metas|), Metas(metas), Entries(infos, |ts|), Body(ts, |ts|);
    Sections(metas, ts, HeaderEnd(metas, infos));
    Slices(b, f, m, e, Zeros(Padding(HeaderEnd(metas, infos))), d);
    FixedRead(b, |infos|, |metas|);
    MetasRead(b, metas);
    forall i | 0 <= i < |infos| ensures Storable(infos[i]) && OffsetOf(infos, i) < U64 {
      assert ValidInfo(ts[i].info);
      OffsetBounded(infos, i);
    }
    InfosRead(b, 24 + |Metas(metas)|, infos, |infos|);
  }

  // The data stands where the writer's own alignment puts it.
  lemma DataFollows(metas: seq<(Text, Value)>, ts: seq<Tensor>)
    ensures
      var b, start := Archive(metas, ts), AlignedUp(HeaderEnd(metas, InfosIn(ts)), ALIGNMENT);
      && HeaderEnd(metas, InfosIn(ts)) <= start && |b| == start + |Body(ts, |ts|)|
      && b[start..start + |Body(ts, |ts|)|] == Body(ts, |ts|)
      && forall p :: HeaderEnd(metas, InfosIn(ts)) <= p < start ==> b[p] == 0
  {
    hide Fixed, Metas, Entries, Body, Archive, AlignedUp, OffsetOf, Padding;
    var b, infos := Archive(metas, ts), InfosIn(ts);
    var f, m, e, d := Fixed(|ts|, |metas|), Metas(metas), Entries(infos, |ts|), Body(ts, |ts|);
    var end := HeaderEnd(metas, infos);
    var z := Zeros(Padding(end));
    Sections(metas, ts, end);
    Slices(b, f, m, e, z, d);
    forall p | end <= p < end + |z| ensures b[p] == 0 {
      assert b == (f + m + e) + z + d;
      assert b[p] == z[p - end];
    }
  }

  /** A reader recovers exactly what was written: the metadata, and every tensor's
      name, axes in their original order, type and data. */
  lemma ArchiveRead(metas: seq<(Text, Value)>, ts: seq<Tensor>)
    requires WritableMetas(metas) && Writable(ts) && StartAgrees(metas, InfosIn(ts))
    ensures Read(Archive(metas, ts)) == Some((metas, ts))
  {
    hide Body, Archive, AlignedUp, ReadData, ValidInfo, Storable, Fits, Read, AlignmentOf, HeaderEnd;
    HeaderParsed(metas, ts);
    DataFollows(metas, ts);
    DataRead(Archive(metas, ts), DataStart(metas, InfosIn(ts)), ts, |ts|);
    assert ts[..|ts|] == ts;
  }

  lemma ItemWritable(item: (Text, seq<int>), types: Option<map<Text, nat>>, shapes: seq<(Text, seq<int>)>)
    requires ValidItem(item) && ValidTypes(types, shapes)
    ensures ValidInfo(InfoOf(item, types)) && Storable(InfoOf(item, types))
  {
    hide Product;
    ItemInfo(item, types);
    DimsBounded(Naturals(item.1));
  }

  lemma {:induction false} DimsBounded(dims: seq<nat>)
    requires Product(dims) <= MAX_ELEMENTS && forall i :: 0 <= i < |dims| ==> dims[i] > 0
    ensures Product(dims) > 0 && forall i :: 0 <= i < |dims| ==> dims[i] <= MAX_ELEMENTS
  {
    if dims != [] {
      var init, last := dims[..|dims| - 1], dims[|dims| - 1];
      Factors(Product(init), last);
      DimsBounded(init);
    }
  }

  lemma Factors(x: nat, y: nat)
    requires y > 0
    ensures x <= x * y && (x > 0 ==> y <= x * y)
  {
  }

  /** What a converter publishes, a reader of the format recovers. */
  lemma ConvertedRead(meta: seq<(Text, Value)>, shapes: seq<(Text, seq<int>)>, types: Option<map<Text, nat>>,
                      source: map<Text, Source>, out: seq<byte>)
    requires Encodable(meta, shapes, types) && Published(out, Sorted(meta), Sorted(shapes), types, source)
    requires StartAgrees(Sorted(meta), InfosOf(Sorted(shapes), types))
    ensures Read(out) == Some((Sorted(meta), Gathered(Sorted(shapes), types, source)))
  {
    hide Header, Archive, Sorted, ValidMeta, ValidItem, ValidInfo, Storable, Fits, StartAgrees, Read, ValidTypes, OffsetOf, InfoOf;
    SortedKeeps(meta);
    SortedKeeps(shapes);
    var metas, items := Sorted(meta), Sorted(shapes);
    var ts := Gathered(items, types, source);
    forall i | 0 <= i < |metas| ensures ValidMeta(metas[i]) {
      assert metas[i] in metas;
    }
    forall i | 0 <= i < |ts| ensures ValidInfo(ts[i].info) && Storable(ts[i].info) && Fits(ts[i]) {
      assert items[i] in items;
      ItemWritable(items[i], types, shapes);
    }
    assert InfosIn(ts) == InfosOf(items, types);
    ArchiveRead(metas, ts);
  }

  /** The output does not depend on the order in which the dictionaries were filled. */
  lemma OutputDetermined(meta: seq<(Text, Value)>, meta': seq<(Text, Value)>, shapes: seq<(Text, seq<int>)>, shapes': seq<(Text, seq<int>)>,
                         types: Option<map<Text, nat>>, source: map<Text, Source>, out: seq<byte>, out': seq<byte>)
    requires Dictionary(meta) && Dictionary(meta') && SameItems(meta, meta')
    requires Dictionary(shapes) && Dictionary(shapes') && SameItems(shapes, shapes')
    requires Published(out, Sorted(meta), Sorted(shapes), types, source)
    requires Published(out', Sorted(meta'), Sorted(shapes'), types, source)
    ensures out == out'
  {
    hide Sorted, Archive, Header;
    OrderIrrelevant(meta, meta');
    OrderIrrelevant(shapes, shapes');
  }

  // The bytes themselves.

  /** The file begins with its tag, version 3 and the two counts, the low digits first. */
  lemma FixedLaid(tensors: nat, metas: nat)
    ensures var b := Fixed(tensors, metas);
            && b[..8] == [71, 71, 85, 70, 3, 0, 0, 0]
            && b[8..16] == Word(tensors) + Word(tensors / 0x1_0000_0000) && b[16..24] == Word(metas) + Word(metas / 0x1_0000_0000)
  {
    hide Word, Long;
    WordDigits(VERSION);
    LongDigits(tensors);
    LongDigits(metas);
    ghost var b := Fixed(tensors, metas);
    assert b[..8] == MAGIC + Word(VERSION);
    assert b[8..16] == Long(tensors) && b[16..24] == Long(metas);
  }

  /** A metadata entry: the length of the key, the key, the code of the value's type, 4 for
      a number and 8 for a text, and the value. */
  lemma MetaLaid(item: (Text, Value))
    requires ValidMeta(item)
    ensures var b, n := MetaEntry(item), |item.0|;
            && 12 + n <= |b| && b[..8] == Long(n) && b[8..8 + n] == item.0
            && match item.1
               case Number(x) => |b| == 16 + n && b[8 + n..12 + n] == [4, 0, 0, 0] && b[12 + n..] == Word(x)
               case Str(t) => |b| == 20 + n + |t| && b[8 + n..12 + n] == [8, 0, 0, 0] && b[12 + n..20 + n] == Long(|t|) && b[20 + n..] == t
               case Unsupported => false
  {
    hide Word, Long, ValidText;
    WordDigits(4);
    WordDigits(8);
    ghost var b, n := MetaEntry(item), |item.0|;
    match item.1 {
      case Number(x) =>
        assert b == Long(n) + item.0 + Word(4) + Word(x);
      case Str(t) =>
        assert b == Long(n) + item.0 + Word(8) + Long(|t|) + t;
    }
  }

  /** A tensor's description: the length of the name, the name, the number of axes, the
      axes with the last one first, the type and the offset of the data. */
  lemma InfoLaid(info: Info, offset: nat)
    ensures var b, n, rank := InfoEntry(info, offset), |info.name|, |info.dims|;
            && |b| == 24 + n + 8 * rank
            && b[..8] == Long(n) && b[8..8 + n] == info.name && b[8 + n..12 + n] == Word(rank)
            && (forall k: nat | k < rank :: b[12 + n + 8 * k..20 + n + 8 * k] == Long(info.dims[rank - 1 - k]))
            && b[12 + n + 8 * rank..16 + n + 8 * rank] == Word(info.typ) && b[16 + n + 8 * rank..] == Long(offset)
  {
    hide Word, Long, DimsReversed;
    ghost var b, n, rank, axes := InfoEntry(info, offset), |info.name|, |info.dims|, DimsReversed(info.dims);
    assert b[12 + n..12 + n + 8 * rank] == axes;
    forall k: nat | k < rank ensures b[12 + n + 8 * k..20 + n + 8 * k] == Long(info.dims[rank - 1 - k]) {
      DimsOnDisk(info.dims, k);
      Subslice(b, 12 + n, 8 * rank, 8 * k, 8);
    }
  }
}
