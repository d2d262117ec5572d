/**
 The binary chunk of an exported animation: arrays of single-precision numbers
 appended one after another, each with a buffer view and an accessor.
 */
module GlbBuffer {
  import opened Wrappers
  import opened Bytes
  import opened Cursor

  datatype View = View(byteOffset: nat, byteLength: nat)

  /** `width` numbers an element; `bounds` are the declared extremes of a scalar array. */
  datatype Accessor = Accessor(view: nat, count: nat, width: nat, bounds: Option<(real, real)>)

  datatype Path = TranslationPath | RotationPath | ScalePath

  datatype Sampler = Sampler(input: nat, output: nat)

  datatype Channel = Channel(sampler: nat, node: nat, path: Path)

  // In this module `bits` gives the four bytes of a single-precision number.

  /** An array as it was handed to the writer. */
  datatype Column = Column(values: seq<real>, width: nat)

  /** The element types of the exporter: scalars, vectors of three, and quaternions. */
  predicate KnownWidth(width: nat) {
    width == 1 || width == 3 || width == 4
  }

  /** How many numbers `n` elements take. */
  function Stride(width: nat, n: nat): nat
    requires KnownWidth(width)
  {
    if width == 1 then n else if width == 3 then 3 * n else 4 * n
  }

  /** How many elements a column has. */
  function Count(c: Column): nat
    requires c.width > 0
  {
    |c.values| / c.width
  }

  predicate Whole(c: Column) {
    KnownWidth(c.width) && c.values != [] && Stride(c.width, Count(c)) == |c.values|
  }

  function Packed(values: seq<real>, bits: real -> Word32): (b: seq<byte>)
  {
    if values == [] then [] else Packed(values[..|values| - 1], bits) + bits(values[|values| - 1])
  }

  function Encoded(columns: seq<Column>, bits: real -> Word32): seq<byte> {
    if columns == [] then [] else Encoded(columns[..|columns| - 1], bits) + Packed(columns[|columns| - 1].values, bits)
  }

  /** How many numbers stand before column `k`. */
  function Before(columns: seq<Column>, k: nat): nat
    requires k <= |columns|
  {
    if k == 0 then 0 else Before(columns, k - 1) + |columns[k - 1].values|
  }

  lemma {:induction false} PackedLength(values: seq<real>, bits: real -> Word32)
    ensures |Packed(values, bits)| == 4 * |values|
  {
    if values != [] {
      PackedLength(values[..|values| - 1], bits);
    }
  }

  lemma {:induction false} PackedSplits(a: seq<real>, b: seq<real>, bits: real -> Word32)
    ensures Packed(a + b, bits) == Packed(a, bits) + Packed(b, bits)
  {
    if b == [] {
      assert a + b == a;
    } else {
      PackedSplits(a, b[..|b| - 1], bits);
      assert (a + b)[..|a + b| - 1] == a + b[..|b| - 1];
    }
  }

  lemma {:induction false} BeforePrefix(columns: seq<Column>, more: Column, k: nat)
    requires k <= |columns|
    ensures Before(columns + [more], k) == Before(columns, k)
  {
    if k > 0 {
      BeforePrefix(columns, more, k - 1);
      assert (columns + [more])[k - 1] == columns[k - 1];
    }
  }

  lemma {:induction false} EncodedLength(columns: seq<Column>, bits: real -> Word32)
    ensures |Encoded(columns, bits)| == 4 * Before(columns, |columns|)
  {
    if columns != [] {
      var init, last := columns[..|columns| - 1], columns[|columns| - 1];
      EncodedLength(init, bits);
      PackedLength(last.values, bits);
      BeforePrefix(init, last, |init|);
      assert columns == init + [last];
    }
  }

  /** Column `k` stands at its own place in the encoding. */
  lemma {:induction false} EncodedAt(columns: seq<Column>, bits: real -> Word32, k: nat)
    requires k < |columns|
    ensures 0 <= 4 * Before(columns, k) <= 4 * Before(columns, k + 1) <= |Encoded(columns, bits)|
    ensures Encoded(columns, bits)[4 * Before(columns, k)..4 * Before(columns, k + 1)] == Packed(columns[k].values, bits)
  {
    var init, last := columns[..|columns| - 1], columns[|columns| - 1];
    assert columns == init + [last];
    EncodedLength(init, bits);
    EncodedLength(columns, bits);
    BeforePrefix(init, last, k);
    if k < |init| {
      EncodedAt(init, bits, k);
      BeforePrefix(init, last, k + 1);
    }
  }

  /** The extremes a scalar array of growing numbers declares: its first and last number. */
  function Bounds(values: seq<real>, width: nat): Option<(real, real)> {
    if width == 1 && values != [] then Some((values[0], values[|values| - 1])) else None
  }

  ghost predicate DescribedAt(columns: seq<Column>, view: View, accessor: Accessor, k: nat)
    requires k < |columns|
  {
    && view == View(4 * Before(columns, k), 4 * |columns[k].values|)
    && Whole(columns[k])
    && accessor == Accessor(k, Count(columns[k]), columns[k].width, Bounds(columns[k].values, columns[k].width))
  }

  ghost predicate Described(columns: seq<Column>, views: seq<View>, accessors: seq<Accessor>) {
    && |views| == |accessors| == |columns|
    && forall k: nat :: k < |columns| ==> DescribedAt(columns, views[k], accessors[k], k)
  }

  /** The bytes of element `i` of accessor `a`, found as a glTF reader finds them. */
  function Element(bin: seq<byte>, views: seq<View>, accessors: seq<Accessor>, a: nat, i: nat): Option<seq<byte>>
  {
    if a >= |accessors| || accessors[a].view >= |views| || !KnownWidth(accessors[a].width) || i >= accessors[a].count then None
    else
      var view, w := views[accessors[a].view], accessors[a].width;
      var from := view.byteOffset + 4 * Stride(w, i);
      if 4 * Stride(w, i + 1) > view.byteLength || view.byteOffset + view.byteLength > |bin| then None
      else Some(bin[from..from + 4 * w])
  }

  lemma ElementFits(c: Column, i: nat)
    requires Whole(c) && i < Count(c)
    ensures Stride(c.width, i + 1) == Stride(c.width, i) + c.width <= |c.values|
  {
    hide Count;
  }

  lemma PackedAt(values: seq<real>, bits: real -> Word32, at: nat, w: nat)
    requires at + w <= |values|
    ensures |Packed(values, bits)| == 4 * |values|
    ensures Packed(values, bits)[4 * at..4 * at + 4 * w] == Packed(values[at..at + w], bits)
  {
    hide Packed;
    PackedLength(values, bits);
    PackedLength(values[..at], bits);
    PackedLength(values[at..at + w], bits);
    PackedSplits(values[..at], values[at..at + w], bits);
    PackedSplits(values[..at + w], values[at + w..], bits);
    assert values[..at] + values[at..at + w] == values[..at + w];
    assert values[..at + w] + values[at + w..] == values;
  }

  /** A reader gets back exactly the numbers the writer was handed. */
  lemma ElementRead(columns: seq<Column>, views: seq<View>, accessors: seq<Accessor>, bits: real -> Word32, a: nat, i: nat)
    requires Described(columns, views, accessors)
    requires a < |columns| && i < accessors[a].count
    ensures
      var values, w := columns[a].values, columns[a].width;
      && KnownWidth(w) && Stride(w, i) + w <= |values|
      && Element(Encoded(columns, bits), views, accessors, a, i) == Some(Packed(values[Stride(w, i)..Stride(w, i) + w], bits))
  {
    hide Bounds, Count, Stride, Encoded, Packed;
    assert DescribedAt(columns, views[a], accessors[a], a);
    var values, w := columns[a].values, columns[a].width;
    ElementFits(columns[a], i);
    var at := Stride(w, i);
    EncodedAt(columns, bits, a);
    PackedAt(values, bits, at, w);
    assert Before(columns, a + 1) == Before(columns, a) + |values|;
    Subslice(Encoded(columns, bits), 4 * Before(columns, a), 4 * |values|, 4 * at, 4 * w);
  }

  /** The views tile the buffer: each begins where the one before ends, at a
      multiple of four, and the last one ends the buffer. */
  lemma ViewsTile(columns: seq<Column>, views: seq<View>, accessors: seq<Accessor>, bits: real -> Word32)
    requires Described(columns, views, accessors) && columns != []
    ensures views[0].byteOffset == 0
    ensures forall k: nat :: k < |views| ==> views[k].byteOffset % 4 == 0 && views[k].byteLength % 4 == 0
    ensures forall k: nat {:trigger views[k]} :: k < |views| ==>
              views[k].byteOffset + views[k].byteLength ==
                if k + 1 < |views| then views[k + 1].byteOffset else |Encoded(columns, bits)|
  {
    hide Whole, Count, Bounds, Encoded;
    EncodedLength(columns, bits);
    assert DescribedAt(columns, views[0], accessors[0], 0);
    forall k: nat | k < |views|
      ensures views[k].byteOffset + views[k].byteLength == if k + 1 < |views| then views[k + 1].byteOffset else |Encoded(columns, bits)|
    {
      assert DescribedAt(columns, views[k], accessors[k], k);
      assert Before(columns, k + 1) == Before(columns, k) + |columns[k].values|;
      assert k + 1 < |views| ==> DescribedAt(columns, views[k + 1], accessors[k + 1], k + 1);
    }
    forall k: nat | k < |views| ensures views[k].byteOffset % 4 == 0 && views[k].byteLength % 4 == 0 {
      assert DescribedAt(columns, views[k], accessors[k], k);
    }
  }

  /** The exporter's closure state: the buffer and its descriptions so far. */
  class Writer {
    const bits: real -> Word32
    var bin: seq<byte>
    var views: seq<View>
    var accessors: seq<Accessor>
    var samplers: seq<Sampler>
    var channels: seq<Channel>
    ghost var columns: seq<Column>

    ghost predicate Valid()
      reads this
    {
      && bin == Encoded(columns, bits)
      && Described(columns, views, accessors)
    }

    constructor (bits: real -> Word32)
        ensures Valid() && columns == [] && samplers == [] && channels == [] && this.bits == bits
    {
      this.bits := bits;
      bin, views, accessors, columns := [], [], [], [];
      samplers, channels := [], [];
    }

    /** Appends `values` and describes them; returns the accessor's index. */
    method Add(values: seq<real>, width: nat) returns (index: nat)
      requires Valid() && Whole(Column(values, width))
      modifies this`bin, this`views, this`accessors, this`columns
      ensures Valid()
      ensures columns == old(columns) + [Column(values, width)]
      ensures index == |old(columns)|
    {
      hide Encoded;
      var offset := |bin|;
      EncodedLength(columns, bits);
      var i := 0;
      while i < |values|
        invariant 0 <= i <= |values|
        invariant bin == old(bin) + Packed(values[..i], bits)
        invariant views == old(views) && accessors == old(accessors) && columns == old(columns)
      {
        bin := bin + bits(values[i]);
        assert values[..i + 1][..i] == values[..i];
        i := i + 1;
      }
      assert values[..i] == values;
      PackedLength(values, bits);
      var view := |views|;
      views := views + [View(offset, |bin| - offset)];
      var accessor := Accessor(view, |values| / width, width, None);
      if width == 1 {
        accessor := accessor.(bounds := Some((values[0], values[|values| - 1])));
      }
      accessors := accessors + [accessor];
      index := |accessors| - 1;
      BeforePrefix(columns, Column(values, width), |columns|);
      Extended(columns, Column(values, width), old(views), old(accessors), View(offset, |bin| - offset), accessor);
      EncodedMore(columns, Column(values, width), bits);
      columns := columns + [Column(values, width)];
    }

    /** Appends `values` as the keys of one animation channel. */
    method AddChannel(timeIndex: nat, node: nat, path: Path, values: seq<real>, width: nat)
      requires Valid() && Whole(Column(values, width))
      modifies this
      ensures Valid()
      ensures columns == old(columns) + [Column(values, width)]
      ensures samplers == old(samplers) + [Sampler(timeIndex, |old(columns)|)]
      ensures channels == old(channels) + [Channel(|old(samplers)|, node, path)]
    {
      hide Encoded, Described;
      var output := Add(values, width);
      var index := |samplers|;
      samplers := samplers + [Sampler(timeIndex, output)];
      channels := channels + [Channel(index, node, path)];
    }
  }

  lemma EncodedMore(columns: seq<Column>, more: Column, bits: real -> Word32)
    ensures Encoded(columns + [more], bits) == Encoded(columns, bits) + Packed(more.values, bits)
  {
    assert (columns + [more])[..|columns|] == columns;
  }

  lemma Extended(columns: seq<Column>, more: Column, views: seq<View>, accessors: seq<Accessor>, view: View, accessor: Accessor)
    requires Described(columns, views, accessors) && Whole(more)
    requires DescribedAt(columns + [more], view, accessor, |columns|)
    ensures Described(columns + [more], views + [view], accessors + [accessor])
  {
    hide Whole, Count, Bounds;
    forall k: nat | k < |columns| ensures DescribedAt(columns + [more], views[k], accessors[k], k) {
      assert DescribedAt(columns, views[k], accessors[k], k);
      BeforePrefix(columns, more, k);
    }
  }
}
