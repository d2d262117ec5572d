/**
 GGUF version 3 as the converters write it (GGUF specification, "File
 Structure"): header, sorted metadata, sorted tensor descriptions, aligned data.
 */
module Gguf {
  import opened Wrappers
  import opened Bytes
  import opened GgufOrder

  const MAGIC: seq<byte> := [71, 71, 85, 70]  // GGUF
  const VERSION: nat := 3
  const ALIGNMENT: nat := 32
  const TYPE_UINT32: nat := 4
  const TYPE_STRING: nat := 8
  const F32: nat := 0
  const I32: nat := 26
  const MAX_HEADER: nat := 4 * 1024 * 1024
  const MAX_ELEMENTS: nat := 0x8000_0000

  /** A metadata value; `Unsupported` stands for every other type of value. */
  datatype Value = Number(n: int) | Str(text: Text) | Unsupported

  datatype Info = Info(name: Text, dims: seq<nat>, typ: nat)

  predicate ValidText(t: Text) {
    0 < |t| <= 65536 && 0 !in t
  }

  predicate ValidValue(v: Value) {
    match v
    case Number(n) => 0 <= n < U32
    case Str(text) => ValidText(text)
    case Unsupported => false
  }

  predicate NameByte(c: byte) {
    48 <= c <= 57 || 65 <= c <= 90 || 97 <= c <= 122 || c == 95 || c == 46
  }

  predicate ValidName(t: Text) {
    0 < |t| < 64 && forall i :: 0 <= i < |t| ==> NameByte(t[i])
  }

  predicate ValidShape(shape: seq<int>) {
    1 <= |shape| <= 4 && forall i :: 0 <= i < |shape| ==> shape[i] > 0
  }

  function Naturals(shape: seq<int>): (dims: seq<nat>)
    ensures |dims| == |shape|
  {
    seq(|shape|, i requires 0 <= i < |shape| => if shape[i] > 0 then shape[i] else 0)
  }

  function TypeOf(types: Option<map<Text, nat>>, name: Text): nat {
    if types.Some? && name in types.value then types.value[name] else F32
  }

  function InfoOf(item: (Text, seq<int>), types: Option<map<Text, nat>>): Info {
    Info(item.0, Naturals(item.1), TypeOf(types, item.0))
  }

  function InfosOf(items: seq<(Text, seq<int>)>, types: Option<map<Text, nat>>): (infos: seq<Info>)
    ensures |infos| == |items|
  {
    seq(|items|, i requires 0 <= i < |items| => InfoOf(items[i], types))
  }

  function Padding(n: nat): (p: nat)
    ensures p < ALIGNMENT && (n + p) % ALIGNMENT == 0
  {
    (ALIGNMENT - n % ALIGNMENT) % ALIGNMENT
  }

  function Zeros(n: nat): (z: seq<byte>)
    ensures |z| == n && forall i :: 0 <= i < n ==> z[i] == 0
  {
    seq(n, i => 0)
  }

  /** Bytes of one tensor's data, four to an element. */
  function DataSize(info: Info): nat {
    4 * Product(info.dims)
  }

  /** The same, filled up to the alignment. */
  function Room(info: Info): (n: nat)
    ensures n % ALIGNMENT == 0
  {
    DataSize(info) + Padding(DataSize(info))
  }

  /** Where tensor `k`'s data begins, counted from the start of the data. */
  function OffsetOf(infos: seq<Info>, k: nat): nat
    requires k <= |infos|
  {
    if k == 0 then 0 else OffsetOf(infos, k - 1) + Room(infos[k - 1])
  }

  function TextBytes(t: Text): (b: seq<byte>)
    ensures |b| == 8 + |t|
  {
    Long(|t|) + t
  }

  function ValueBytes(v: Value): seq<byte> {
    match v
    case Number(n) => Word(TYPE_UINT32) + Word(if n > 0 then n else 0)
    case Str(text) => Word(TYPE_STRING) + TextBytes(text)
    case Unsupported => []
  }

  function MetaEntry(item: (Text, Value)): seq<byte> {
    TextBytes(item.0) + ValueBytes(item.1)
  }

  function Metas(items: seq<(Text, Value)>): seq<byte> {
    if items == [] then [] else Metas(items[..|items| - 1]) + MetaEntry(items[|items| - 1])
  }

  /** The axes of a tensor, innermost first. */
  function DimsReversed(dims: seq<nat>): (b: seq<byte>)
    ensures |b| == 8 * |dims|
  {
    if dims == [] then [] else Long(dims[|dims| - 1]) + DimsReversed(dims[..|dims| - 1])
  }

  function InfoEntry(info: Info, offset: nat): seq<byte> {
    TextBytes(info.name) + Word(|info.dims|) + DimsReversed(info.dims) + Word(info.typ) + Long(offset)
  }

  /** The descriptions of the first `k` tensors. */
  function Entries(infos: seq<Info>, k: nat): seq<byte>
    requires k <= |infos|
  {
    if k == 0 then [] else Entries(infos, k - 1) + InfoEntry(infos[k - 1], OffsetOf(infos, k - 1))
  }

  function Fixed(tensors: nat, metas: nat): (b: seq<byte>)
    ensures |b| == 24
  {
    MAGIC + Word(VERSION) + Long(tensors) + Long(metas)
  }

  function Unpadded(metas: seq<(Text, Value)>, infos: seq<Info>): seq<byte> {
    Fixed(|infos|, |metas|) + Metas(metas) + Entries(infos, |infos|)
  }

  function Header(metas: seq<(Text, Value)>, infos: seq<Info>): seq<byte> {
    var b := Unpadded(metas, infos);
    b + Zeros(Padding(|b|))
  }

  predicate ValidInfo(info: Info) {
    && ValidName(info.name) && 1 <= |info.dims| <= 4
    && (forall i :: 0 <= i < |info.dims| ==> info.dims[i] > 0)
    && Product(info.dims) <= MAX_ELEMENTS
  }

  predicate ValidMeta(item: (Text, Value)) {
    ValidText(item.0) && ValidValue(item.1)
  }

  predicate ValidItem(item: (Text, seq<int>)) {
    ValidName(item.0) && ValidShape(item.1) && Product(Naturals(item.1)) <= MAX_ELEMENTS
  }

  function NamesOf<V>(items: seq<(Text, V)>): set<Text> {
    set i | 0 <= i < |items| :: items[i].0
  }

  predicate ValidTypes(types: Option<map<Text, nat>>, shapes: seq<(Text, seq<int>)>) {
    types.Some? ==>
      types.value.Keys == NamesOf(shapes) && forall name :: name in types.value ==> types.value[name] == F32 || types.value[name] == I32
  }

  /** What the header writer accepts. */
  ghost predicate Encodable(meta: seq<(Text, Value)>, shapes: seq<(Text, seq<int>)>, types: Option<map<Text, nat>>) {
    && 0 < |shapes| <= 4096 && 0 < |meta| <= 128
    && ValidTypes(types, shapes)
    && (forall x :: x in meta ==> ValidMeta(x))
    && (forall x :: x in shapes ==> ValidItem(x))
    && |Header(Sorted(meta), InfosOf(Sorted(shapes), types))| <= MAX_HEADER
  }

  method MetaSection(metas: seq<(Text, Value)>) returns (ok: bool, out: seq<byte>)
    ensures ok <==> forall i :: 0 <= i < |metas| ==> ValidMeta(metas[i])
    ensures ok ==> out == Metas(metas)
  {
    hide ValidText, Word, TextBytes;
    out := [];
    var i := 0;
    while i < |metas|
      invariant 0 <= i <= |metas|
      invariant out == Metas(metas[..i])
      invariant forall k :: 0 <= k < i ==> ValidMeta(metas[k])
    {
      var (key, value) := metas[i];
      if !ValidText(key) {
        return false, out;
      }
      out := out + TextBytes(key);
      match value {
        case Number(n) =>
          if n < 0 || n >= U32 {
            return false, out;
          }
          out := out + (Word(TYPE_UINT32) + Word(n));
        case Str(text) =>
          if !ValidText(text) {
            return false, out;
          }
          out := out + (Word(TYPE_STRING) + TextBytes(text));
        case Unsupported =>
          return false, out;
      }
      assert metas[..i + 1][..i] == metas[..i];
      i := i + 1;
    }
    assert metas[..i] == metas;
    ok := true;
  }

  lemma ItemInfo(item: (Text, seq<int>), types: Option<map<Text, nat>>)
    requires ValidItem(item)
    ensures ValidInfo(InfoOf(item, types))
  {
  }

  lemma RoundedUp(size: nat)
    ensures (size + ALIGNMENT - 1) / ALIGNMENT * ALIGNMENT == size + Padding(size)
  {
  }

  method InfoSection(items: seq<(Text, seq<int>)>, types: Option<map<Text, nat>>) returns (ok: bool, out: seq<byte>, offset: nat)
    ensures ok <==> forall i :: 0 <= i < |items| ==> ValidItem(items[i])
    ensures ok ==> out == Entries(InfosOf(items, types), |items|) && offset == OffsetOf(InfosOf(items, types), |items|)
  {
    hide ValidName, ValidShape, Word, Long, Product, DimsReversed, Naturals, TypeOf, Padding;
    out, offset := [], 0;
    ghost var infos := InfosOf(items, types);
    var i := 0;
    while i < |items|
      invariant 0 <= i <= |items|
      invariant out == Entries(infos, i) && offset == OffsetOf(infos, i)
      invariant forall k :: 0 <= k < i ==> ValidItem(items[k])
    {
      var (name, shape) := items[i];
      if !ValidName(name) || !ValidShape(shape) {
        return false, out, offset;
      }
      var elements := Product(Naturals(shape));
      if elements > MAX_ELEMENTS {
        return false, out, offset;
      }
      out := out + (TextBytes(name) + Word(|shape|) + DimsReversed(Naturals(shape)) + Word(TypeOf(types, name)) + Long(offset));
      var size := elements * 4;
      RoundedUp(size);
      offset := offset + (size + ALIGNMENT - 1) / ALIGNMENT * ALIGNMENT;
      i := i + 1;
    }
    ok := true;
  }

  /** The header writer: the header, and how many bytes of data follow it. */
  method EncodeHeader(meta: seq<(Text, Value)>, shapes: seq<(Text, seq<int>)>, types: Option<map<Text, nat>>)
    returns (r: Result<(seq<byte>, nat)>)
    requires Dictionary(meta) && Dictionary(shapes)
    ensures r.Success? <==> Encodable(meta, shapes, types)
    ensures r.Success? ==>
      var infos := InfosOf(Sorted(shapes), types);
      r.value == (Header(Sorted(meta), infos), OffsetOf(infos, |infos|))
  {
    hide Metas, Entries, OffsetOf, Fixed, Sorted, InfosOf, ValidMeta, ValidItem;
    SortedKeeps(meta);
    SortedKeeps(shapes);
    if !(0 < |shapes| <= 4096) || !(0 < |meta| <= 128) {
      return Failure("invalid GGUF counts");
    }
    if types.Some? && (types.value.Keys != NamesOf(shapes)
                       || !forall name :: name in types.value ==> types.value[name] == F32 || types.value[name] == I32) {
      return Failure("unsupported GGUF tensor types");
    }
    var metas, items := Sorted(meta), Sorted(shapes);
    ItemsValid(meta, metas, ValidMeta);
    ItemsValid(shapes, items, ValidItem);
    var output := Fixed(|shapes|, |meta|);
    var good, section := MetaSection(metas);
    if !good {
      return Failure("invalid GGUF metadata");
    }
    output := output + section;
    var offset;
    good, section, offset := InfoSection(items, types);
    if !good {
      return Failure("invalid GGUF tensor");
    }
    output := output + section;
    output := output + Zeros(Padding(|output|));
    if |output| > MAX_HEADER {
      return Failure("GGUF metadata too large");
    }
    r := Success((output, offset));
  }

  lemma ItemsValid<V(!new)>(a: seq<(Text, V)>, b: seq<(Text, V)>, valid: ((Text, V)) -> bool)
    requires SameItems(b, a)
    ensures (forall i :: 0 <= i < |b| ==> valid(b[i])) <==> forall x :: x in a ==> valid(x)
  {
    if forall i :: 0 <= i < |b| ==> valid(b[i]) {
      forall x | x in a ensures valid(x) {
        assert x in b;
      }
    }
    if forall x :: x in a ==> valid(x) {
      forall i | 0 <= i < |b| ensures valid(b[i]) {
        assert b[i] in b;
      }
    }
  }

  // ----- what the writer accepts, in numbers

  /** A tensor name: 1 to 63 letters, digits, underscores and dots. */
  predicate NameText(t: Text) {
    1 <= |t| <= 63 && forall i | 0 <= i < |t| ::
      'a' as int <= t[i] <= 'z' as int || 'A' as int <= t[i] <= 'Z' as int || '0' as int <= t[i] <= '9' as int || t[i] == '_' as int || t[i] == '.' as int
  }

  /** A key or a text value: 1 to 65536 bytes, none of them zero. */
  predicate KeyText(t: Text) {
    1 <= |t| <= 65536 && forall i | 0 <= i < |t| :: t[i] != 0
  }

  predicate MetaPasses(item: (Text, Value)) {
    && KeyText(item.0)
    && match item.1
       case Number(n) => 0 <= n <= 4294967295
       case Str(text) => KeyText(text)
       case Unsupported => false
  }

  /** A tensor: one to four axes, none empty, at most 2^31 elements. */
  predicate ShapePasses(item: (Text, seq<int>)) {
    && NameText(item.0) && 1 <= |item.1| <= 4 && (forall k | 0 <= k < |item.1| :: item.1[k] >= 1)
    && Bytes.Product(Naturals(item.1)) <= 2147483648
  }

  /** The dictionaries that can be written: up to 4096 tensors and 128 metadata entries, of
      type 0 or 26 each, with a header of at most four mebibytes. */
  lemma EncodableNumbers(meta: seq<(Text, Value)>, shapes: seq<(Text, seq<int>)>, types: Option<map<Text, nat>>)
    ensures Encodable(meta, shapes, types) <==>
              && 1 <= |shapes| <= 4096 && 1 <= |meta| <= 128
              && (types.Some? ==> types.value.Keys == NamesOf(shapes) && forall name | name in types.value :: types.value[name] == 0 || types.value[name] == 26)
              && (forall x | x in meta :: MetaPasses(x)) && (forall x | x in shapes :: ShapePasses(x))
              && |Header(Sorted(meta), InfosOf(Sorted(shapes), types))| <= 4194304
  {
    hide Header, InfosOf, Product, NamesOf;
    forall x: (Text, Value) ensures ValidMeta(x) <==> MetaPasses(x) {
    }
    forall x: (Text, seq<int>) ensures ValidItem(x) <==> ShapePasses(x) {
      NamePasses(x.0);
    }
    hide ValidMeta, MetaPasses, ValidItem, ShapePasses;
  }

  lemma NamePasses(t: Text)
    ensures ValidName(t) <==> NameText(t)
  {
  }
}
