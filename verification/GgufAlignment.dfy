/**
 The alignment that GGUF metadata may declare.  The writer always aligns to 32
 bytes; a reader follows the declaration.
 */
module GgufAlignment {
  import opened Wrappers
  import opened Bytes
  import opened GgufOrder
  import opened Gguf
  import opened GgufArchive
  import opened GgufRoundTrip

  /** The alignment a dictionary declares. */
  lemma {:induction false} Declared(metas: seq<(Text, Value)>, n: int)
    requires Dictionary(metas)
    ensures n > 0 && (ALIGNMENT_KEY, Number(n)) in metas ==> AlignmentOf(metas) == n
    ensures (forall x :: x in metas ==> x.0 != ALIGNMENT_KEY) ==> AlignmentOf(metas) == ALIGNMENT
  {
    if metas != [] {
      var init, last := metas[..|metas| - 1], metas[|metas| - 1];
      Declared(init, n);
      assert metas == init + [last];
      forall x | x in init ensures x in metas && x.0 != last.0 {
        var i :| 0 <= i < |init| && init[i] == x;
        assert metas[i] == x;
      }
    }
  }

  const ONES: Word32 := [255, 255, 255, 255]
  const NULLS: Word32 := [0, 0, 0, 0]

  /** Tensors whose first word is all ones, and every other zero. */
  function Marked(infos: seq<Info>): (ts: seq<Tensor>)
    ensures |ts| == |infos|
  {
    seq(|infos|, i requires 0 <= i < |infos| =>
      Tensor(infos[i], seq(Product(infos[i].dims), k => if i == 0 && k == 0 then ONES else NULLS)))
  }

  predicate WritableInfos(infos: seq<Info>) {
    0 < |infos| <= 4096 && forall i :: 0 <= i < |infos| ==> ValidInfo(infos[i]) && Storable(infos[i])
  }

  predicate Blank(b: seq<byte>, from: nat) {
    forall p :: from <= p < |b| ==> b[p] == 0
  }

  lemma {:induction false} NullsJoined(words: seq<Word32>)
    requires forall k :: 0 <= k < |words| ==> words[k] == NULLS
    ensures Blank(Joined(words), 0)
  {
    if words != [] {
      NullsJoined(words[1..]);
    }
  }

  lemma BlockMarked(infos: seq<Info>, k: nat)
    requires k < |infos|
    ensures Blank(Block(Marked(infos)[k]), if k == 0 then 4 else 0)
  {
    hide Padding, Product, Joined;
    var words := Marked(infos)[k].data;
    if k > 0 {
      NullsJoined(words);
    } else if words != [] {
      MarkedFirst(words);
    }
  }

  lemma MarkedFirst(words: seq<Word32>)
    requires words != [] && words[0] == ONES && forall k :: 1 <= k < |words| ==> words[k] == NULLS
    ensures Blank(Joined(words), 4) && Joined(words)[..4] == ONES
  {
    NullsJoined(words[1..]);
    assert Joined(words) == words[0] + Joined(words[1..]);
  }

  lemma {:induction false} BodyMarked(infos: seq<Info>, k: nat)
    requires 0 < k <= |infos| && Product(infos[0].dims) > 0
    ensures |Body(Marked(infos), k)| >= 4 && Blank(Body(Marked(infos), k), 4)
  {
    hide Block, Product, Marked;
    var ts := Marked(infos);
    BlockMarked(infos, k - 1);
    if k > 1 {
      BodyMarked(infos, k - 1);
    } else {
      FirstSize(infos);
      assert Body(ts, 1) == [] + Block(ts[0]);
      assert [] + Block(ts[0]) == Block(ts[0]);
    }
  }

  lemma FirstSize(infos: seq<Info>)
    requires infos != [] && Product(infos[0].dims) > 0
    ensures |Block(Marked(infos)[0])| >= 4
  {
    hide Product, Joined, Padding;
  }

  lemma MarkedWritable(infos: seq<Info>)
    requires WritableInfos(infos)
    ensures Writable(Marked(infos)) && InfosIn(Marked(infos)) == infos != [] && Product(infos[0].dims) > 0
  {
    hide Storable, ValidName;
    assert ValidInfo(infos[0]);
    DimsBounded(infos[0].dims);
  }

  lemma {:induction false} ReadDataAt(b: seq<byte>, start: nat, infos: seq<(Info, nat)>, i: nat)
    requires ReadData(b, start, infos).Some? && i < |infos|
    ensures ReadTensor(b, start, infos[i]) == Some(ReadData(b, start, infos).value[i])
  {
    hide ReadTensor;
    if i < |infos| - 1 {
      ReadDataAt(b, start, infos[..|infos| - 1], i);
    }
  }

  /** A reader that recovers the marked tensors has found the data where it is. */
  lemma MarkedFound(metas: seq<(Text, Value)>, infos: seq<Info>)
    requires WritableMetas(metas) && WritableInfos(infos)
    requires Read(Archive(metas, Marked(infos))) == Some((metas, Marked(infos)))
    ensures StartAgrees(metas, infos)
  {
    hide Body, Archive, AlignedUp, ReadData, Read, AlignmentOf, HeaderEnd, Writable, WritableInfos, WritableMetas, Joined, Product, Block, Blank,
      Padding, Zeros, OffsetOf, Marked;
    var ts := Marked(infos);
    MarkedWritable(infos);
    HeaderParsed(metas, ts);
    DataFollows(metas, ts);
    var b, at := Archive(metas, ts), DataStart(metas, infos);
    assert ReadData(b, at, Placed(infos, |ts|)) == Some(ts);
    ReadDataAt(b, at, Placed(infos, |ts|), 0);
    FirstFound(b, at, infos);
    StartBeyond(metas, infos);
    BodyMarked(infos, |infos|);
    OnlyOnes(b, HeaderEnd(metas, infos), AlignedUp(HeaderEnd(metas, infos), ALIGNMENT), Body(ts, |ts|), at);
    OnlyOnes(b, HeaderEnd(metas, infos), AlignedUp(HeaderEnd(metas, infos), ALIGNMENT), Body(ts, |ts|), at + 3);
  }

  lemma FirstFound(b: seq<byte>, at: nat, infos: seq<Info>)
    requires infos != [] && Product(infos[0].dims) > 0
    requires ReadTensor(b, at, Placed(infos, |infos|)[0]) == Some(Marked(infos)[0])
    ensures at + 4 <= |b| && b[at] == 255 && b[at + 3] == 255
  {
    hide Joined, Product, Split;
    var size := DataSize(infos[0]);
    var words := Marked(infos)[0].data;
    JoinedSplit(b[at..at + size]);
    MarkedFirst(words);
    assert b[at] == Joined(words)[..4][0] && b[at + 3] == Joined(words)[..4][3];
  }

  lemma StartBeyond(metas: seq<(Text, Value)>, infos: seq<Info>)
    ensures DataStart(metas, infos) >= HeaderEnd(metas, infos)
  {
    hide HeaderEnd, AlignmentOf;
    var n, a := HeaderEnd(metas, infos), AlignmentOf(metas);
    assert n + a - 1 == (n + a - 1) / a * a + (n + a - 1) % a;
  }

  lemma OnlyOnes(b: seq<byte>, end: nat, start: nat, body: seq<byte>, p: nat)
    requires end <= start && |b| == start + |body| && b[start..start + |body|] == body && Blank(body, 4)
    requires forall q :: end <= q < start ==> b[q] == 0
    requires end <= p < |b| && b[p] == 255
    ensures start <= p < start + 4
  {
    if p >= start {
      assert b[p] == body[p - start];
    }
  }

  ghost predicate AlwaysRead(metas: seq<(Text, Value)>, infos: seq<Info>) {
    forall ts :: Writable(ts) && InfosIn(ts) == infos ==> Read(Archive(metas, ts)) == Some((metas, ts))
  }

  /** Whatever the tensors hold, a reader recovers them, exactly if the declared
      alignment puts the data where the writer does: at the next multiple of 32. */
  lemma AlignmentDecides(metas: seq<(Text, Value)>, infos: seq<Info>)
    requires WritableMetas(metas) && WritableInfos(infos)
    ensures AlwaysRead(metas, infos) <==> StartAgrees(metas, infos)
  {
    hide Read, Archive, StartAgrees, Writable, WritableMetas, WritableInfos, Marked;
    if StartAgrees(metas, infos) {
      forall ts | Writable(ts) && InfosIn(ts) == infos ensures Read(Archive(metas, ts)) == Some((metas, ts)) {
        ArchiveRead(metas, ts);
      }
    }
    if AlwaysRead(metas, infos) {
      MarkedWritable(infos);
      MarkedFound(metas, infos);
    }
  }

  // ----- what a reader gets, in the converter's own terms

  /** Tensor `t` is the one called `name`: its axes in the schema's order, its type as
      asked for, or 32-bit floats, and the input's words. */
  predicate Delivers(t: Tensor, name: Text, shape: seq<int>, types: Option<map<Text, nat>>, source: map<Text, Source>) {
    && t.info.name == name
    && |t.info.dims| == |shape| && (forall k :: 0 <= k < |shape| ==> t.info.dims[k] == shape[k])
    && (types.None? ==> t.info.typ == 0)
    && (types.Some? ==> name in types.value && t.info.typ == types.value[name])
    && name in source && t.data == source[name].words
  }

  lemma GatheredDelivers(items: seq<(Text, seq<int>)>, shapes: seq<(Text, seq<int>)>, types: Option<map<Text, nat>>, source: map<Text, Source>, i: nat)
    requires i < |items| && (forall m :: 0 <= m < |items| ==> items[m].0 in source)
    requires ValidItem(items[i]) && ValidTypes(types, shapes) && items[i] in shapes
    ensures Delivers(Gathered(items, types, source)[i], items[i].0, items[i].1, types, source)
  {
    hide ValidName, Product;
    if types.Some? {
      var m :| 0 <= m < |shapes| && shapes[m] == items[i];
      assert items[i].0 in NamesOf(shapes);
    }
  }

  lemma StartDeclared(meta: seq<(Text, Value)>, infos: seq<Info>)
    requires Dictionary(meta) && ((ALIGNMENT_KEY, Number(32)) in meta || forall x :: x in meta ==> x.0 != ALIGNMENT_KEY)
    ensures StartAgrees(Sorted(meta), infos)
  {
    SortedKeeps(meta);
    SortedAscends(meta);
    AscendingDictionary(Sorted(meta));
    Declared(Sorted(meta), 32);
    hide AlignmentOf, Sorted, HeaderEnd, AlignedUp;
  }

  lemma AscendingDictionary<V(!new)>(items: seq<(Text, V)>)
    requires Ascending(items)
    ensures Dictionary(items)
  {
    forall i: nat, j: nat | i < j < |items| ensures items[i].0 != items[j].0 {
      BelowAntisymmetric(items[i].0, items[j].0);
    }
  }

  /** One of the tensors is the schema's `item`. */
  ghost predicate Delivered(ts: seq<Tensor>, item: (Text, seq<int>), types: Option<map<Text, nat>>, source: map<Text, Source>) {
    exists i: nat :: i < |ts| && Delivers(ts[i], item.0, item.1, types, source)
  }

  /** Tensor `t` is one of the schema. */
  ghost predicate Asked(t: Tensor, shapes: seq<(Text, seq<int>)>, types: Option<map<Text, nat>>, source: map<Text, Source>) {
    exists i: nat :: i < |shapes| && Delivers(t, shapes[i].0, shapes[i].1, types, source)
  }

  lemma AllDelivered(items: seq<(Text, seq<int>)>, shapes: seq<(Text, seq<int>)>, ts: seq<Tensor>,
                     types: Option<map<Text, nat>>, source: map<Text, Source>)
    requires SameItems(items, shapes) && |ts| == |items|
    requires forall i: nat :: i < |ts| ==> Delivers(ts[i], items[i].0, items[i].1, types, source)
    ensures forall x :: x in shapes ==> Delivered(ts, x, types, source)
    ensures forall i: nat :: i < |ts| ==> Asked(ts[i], shapes, types, source)
  {
    hide Delivers;
    forall x | x in shapes ensures Delivered(ts, x, types, source) {
      assert x in items;
      var i: nat :| i < |items| && items[i] == x;
      assert Delivers(ts[i], x.0, x.1, types, source);
    }
    forall i: nat | i < |ts| ensures Asked(ts[i], shapes, types, source) {
      assert items[i] in shapes;
      var m: nat :| m < |shapes| && shapes[m] == items[i];
      assert Delivers(ts[i], shapes[m].0, shapes[m].1, types, source);
    }
  }

  /** What a converter publishes under an alignment of 32, declared or not, a reader of
      the format reads: all of the metadata, and exactly the tensors of the schema in
      the order of their names, each with its axes, its type and its input's words. */
  lemma ConvertedDelivers(meta: seq<(Text, Value)>, shapes: seq<(Text, seq<int>)>, types: Option<map<Text, nat>>,
                          source: map<Text, Source>, out: seq<byte>)
    returns (metas: seq<(Text, Value)>, ts: seq<Tensor>)
    requires Dictionary(meta) && Dictionary(shapes)
    requires Encodable(meta, shapes, types) && Published(out, Sorted(meta), Sorted(shapes), types, source)
    requires (ALIGNMENT_KEY, Number(32)) in meta || forall x :: x in meta ==> x.0 != ALIGNMENT_KEY
    ensures Read(out) == Some((metas, ts))
    ensures |metas| == |meta| && SameItems(metas, meta) && Ascending(metas)
    ensures |ts| == |shapes| && forall i: nat, j: nat :: i < j < |ts| ==> Below(ts[i].info.name, ts[j].info.name)
    ensures forall x :: x in shapes ==> Delivered(ts, x, types, source)
    ensures forall i: nat :: i < |ts| ==> Asked(ts[i], shapes, types, source)
  {
    hide Encodable, Published, Read, Sorted, StartAgrees, Delivers, Delivered, Asked, InfosOf;
    metas := Sorted(meta);
    var items := Sorted(shapes);
    SortedKeeps(meta);
    SortedAscends(meta);
    SortedKeeps(shapes);
    SortedAscends(shapes);
    StartDeclared(meta, InfosOf(items, types));
    PublishedItems(meta, shapes, types, source, out);
    ts := Gathered(items, types, source);
    ConvertedRead(meta, shapes, types, source, out);
    forall i: nat | i < |ts| ensures Delivers(ts[i], items[i].0, items[i].1, types, source) {
      assert items[i] in items;
      GatheredDelivers(items, shapes, types, source, i);
    }
    AllDelivered(items, shapes, ts, types, source);
    NamesGathered(items, types, source);
  }

  lemma NamesGathered(items: seq<(Text, seq<int>)>, types: Option<map<Text, nat>>, source: map<Text, Source>)
    requires Ascending(items) && forall m :: 0 <= m < |items| ==> items[m].0 in source
    ensures var ts := Gathered(items, types, source); forall i: nat, j: nat :: i < j < |ts| ==> Below(ts[i].info.name, ts[j].info.name)
  {
  }

  lemma PublishedItems(meta: seq<(Text, Value)>, shapes: seq<(Text, seq<int>)>, types: Option<map<Text, nat>>,
                       source: map<Text, Source>, out: seq<byte>)
    requires Encodable(meta, shapes, types) && Published(out, Sorted(meta), Sorted(shapes), types, source)
    ensures forall m :: 0 <= m < |Sorted(shapes)| ==> Sorted(shapes)[m].0 in source
    ensures ValidTypes(types, shapes) && forall x :: x in shapes ==> ValidItem(x)
  {
    hide Header, Archive, Sorted, ValidItem, ValidMeta, ValidTypes;
  }
}
