/**
 The two parsers of the result file, as loops over a cursor: the demo server's
 strict parser and the checking script's parser, which does not look at indices.
 */
module ResultParsers {
  import opened Wrappers
  import opened Bytes
  import opened Cursor
  import opened ResultFormat
  import opened ResultRoundTrip

  /** The parsed words of every tensor, by name. */
  function Collected(ts: seq<Tensor>): map<seq<byte>, seq<Word32>> {
    if ts == [] then map[] else Collected(ts[..|ts| - 1])[ts[|ts| - 1].name := ts[|ts| - 1].data]
  }

  lemma {:induction false} CollectedAll(ts: seq<Tensor>)
    requires forall i, j :: 0 <= i < j < |ts| ==> ts[i].name != ts[j].name
    ensures Collected(ts).Keys == Names(ts)
    ensures forall i :: 0 <= i < |ts| ==> ts[i].name in Collected(ts) && Collected(ts)[ts[i].name] == ts[i].data
  {
    if ts != [] {
      CollectedAll(ts[..|ts| - 1]);
    }
  }

  lemma {:induction false} FailsOn(b: seq<byte>, m: nat, n: nat, fields: seq<Field>, finite: Word32 -> bool, strict: bool)
    requires m <= n && ReadTensors(b, m, fields, finite, strict).None?
    ensures ReadTensors(b, n, fields, finite, strict).None?
    decreases n
  {
    hide ReadTensor;
    if m < n {
      FailsOn(b, m, n - 1, fields, finite, strict);
    }
  }

  method ParseName(b: seq<byte>, at: nat, fields: seq<Field>, seen: set<seq<byte>>) returns (r: Option<(Field, nat)>)
    ensures r == ReadName(b, at, fields, seen)
  {
    hide Lookup;
    var n := Word32At(b, at);
    if n.None? || n.value < 1 || n.value > MAX_NAME {
      return None;
    }
    if at + 4 + n.value > |b| {
      return None;
    }
    var key := b[at + 4..at + 4 + n.value];
    var expected := Lookup(fields, key);
    if expected.None? || key in seen {
      return None;
    }
    return Some((expected.value, at + 4 + n.value));
  }

  lemma {:induction false} DimsAt(shape: seq<nat>, k: nat)
    requires k < |shape|
    ensures Dims(shape)[8 * k..8 * k + 8] == Long(shape[k])
    ensures Dims(shape)[..8 * k] == Dims(shape[..k])
  {
    hide Long;
    var init := shape[..|shape| - 1];
    if k < |init| {
      DimsAt(init, k);
      assert init[..k] == shape[..k];
    }
  }

  lemma DimsMore(shape: seq<nat>, k: nat)
    requires k < |shape|
    ensures Dims(shape[..k + 1]) == Dims(shape[..k]) + Long(shape[k])
  {
    assert shape[..k + 1][..k] == shape[..k];
  }

  lemma DimAgrees(b: seq<byte>, at: nat, shape: seq<nat>, k: nat)
    requires k < |shape| && at + 8 * k <= |b| && b[at..at + 8 * k] == Dims(shape[..k])
    requires Word64At(b, at + 8 * k) == Some(shape[k])
    ensures at + 8 * (k + 1) <= |b| && b[at..at + 8 * (k + 1)] == Dims(shape[..k + 1])
  {
    hide Long, Word64At, Dims;
    Word64Bytes(b, at + 8 * k, shape[k]);
    Joins(b, at, at + 8 * k, at + 8 * k + 8);
    DimsMore(shape, k);
  }

  lemma DimNeeded(b: seq<byte>, at: nat, shape: seq<nat>, k: nat)
    requires k < |shape| && shape[k] < U64
    requires at + 8 * |shape| <= |b| && b[at..at + 8 * |shape|] == Dims(shape)
    ensures Word64At(b, at + 8 * k) == Some(shape[k])
  {
    hide Long, Word64At, Dims;
    DimsAt(shape, k);
    Subslice(b, at, 8 * |shape|, 8 * k, 8);
    Word64Found(b, at + 8 * k, shape[k]);
  }

  /** The dimensions at `at` are those of `shape`, each read and compared in turn. */
  method CompareDims(b: seq<byte>, at: nat, shape: seq<nat>) returns (ok: bool, total: nat)
    requires at <= |b| && forall k :: 0 <= k < |shape| ==> shape[k] < U64
    ensures ok <==> at + 8 * |shape| <= |b| && b[at..at + 8 * |shape|] == Dims(shape)
    ensures ok ==> total == Product(shape)
  {
    hide Long, Word64At;
    total := 1;
    var k := 0;
    while k < |shape|
      invariant 0 <= k <= |shape| && at + 8 * k <= |b|
      invariant b[at..at + 8 * k] == Dims(shape[..k])
      invariant total == Product(shape[..k])
    {
      var dim := Word64At(b, at + 8 * k);
      if dim != Some(shape[k]) {
        if at + 8 * |shape| <= |b| && b[at..at + 8 * |shape|] == Dims(shape) {
          DimNeeded(b, at, shape, k);
        }
        return false, total;
      }
      DimAgrees(b, at, shape, k);
      assert shape[..k + 1][..k] == shape[..k];
      total := total * shape[k];
      k := k + 1;
    }
    assert shape[..k] == shape;
    ok := true;
  }

  /** The server's parser, from a tensor's type on. */
  method ParseRest(b: seq<byte>, at: nat, f: Field, finite: Word32 -> bool) returns (r: Option<(Tensor, nat)>)
    requires at <= |b| && forall k :: 0 <= k < |f.shape| ==> f.shape[k] < U64
    ensures r == ReadRest(b, at, f, finite, true)
    ensures r.Some? ==> r.value.0.name == f.name
  {
    hide Dims, Product, Joined, Word32At, Word64At, Split;
    var typ, rank, elems := Word32At(b, at), Word32At(b, at + 4), Word64At(b, at + 8);
    ShortReads(b, at);
    if typ.None? || rank.None? || elems.None? || rank.value != |f.shape| {
      return None;
    }
    var ok, total := CompareDims(b, at + 16, f.shape);
    if !ok {
      return None;
    }
    if elems.value != total || typ.value != (if f.kind == Numbers then 1 else 2) {
      return None;
    }
    var from := at + 16 + 8 * |f.shape|;
    if from + 4 * total > |b| {
      return None;
    }
    var raw := b[from..from + 4 * total];
    assert |raw| == 4 * total;
    var data := Split(raw);
    var good := true;
    var i := 0;
    while i < |data| && good
      invariant 0 <= i <= |data|
      invariant good ==> forall k :: 0 <= k < i ==> SoundWord(data[k], f.kind, finite, true)
      invariant !good ==> exists k :: 0 <= k < |data| && !SoundWord(data[k], f.kind, finite, true)
    {
      good := match f.kind
        case Indices(limit) => FromLittleEndian(data[i]) < limit
        case Numbers => finite(data[i]);
      assert good <==> SoundWord(data[i], f.kind, finite, true);
      i := i + 1;
    }
    if good {
      r := Some((Tensor(f.name, typ.value, f.shape, data), from + 4 * total));
    } else {
      r := None;
    }
  }

  lemma ShortReads(b: seq<byte>, at: nat)
    ensures Word32At(b, at).Some? <==> at + 4 <= |b|
    ensures Word64At(b, at).Some? <==> at + 8 <= |b|
    ensures Word64At(b, at + 8).Some? <==> at + 16 <= |b|
  {
  }

  /** The server's parser. */
  method ParseResult(b: seq<byte>, fields: seq<Field>, finite: Word32 -> bool) returns (r: Result<map<seq<byte>, seq<Word32>>>)
    requires WellFormed(fields)
    ensures r.Success? <==> Read(b, fields, finite, true).Some?
    ensures r.Success? ==> r.value == Collected(Read(b, fields, finite, true).value)
  {
    hide ReadName, ReadRest, Word32At, Collected, Names, Product;
    if |b| < 8 || b[..8] != MAGIC {
      return Failure("invalid native result magic");
    }
    var count := Word32At(b, 8);
    ShortReads(b, 8);
    if count.None? || count.value != |fields| {
      return Failure("invalid tensor count");
    }
    var at := 12;
    var tensors: map<seq<byte>, seq<Word32>> := map[];
    var seen: set<seq<byte>> := {};
    ghost var ts: seq<Tensor> := [];
    EmptyTables();
    var i := 0;
    while i < count.value
      invariant 0 <= i <= count.value && 12 <= at <= |b|
      invariant ReadTensors(b, i, fields, finite, true) == Some((ts, at))
      invariant tensors == Collected(ts) && seen == Names(ts)
    {
      var named := ParseName(b, at, fields, seen);
      if named.None? {
        FailsOn(b, i + 1, |fields|, fields, finite, true);
        return Failure("unexpected or duplicate tensor");
      }
      FieldFits(b, at, fields, seen);
      var (f, next) := named.value;
      seen := seen + {f.name};
      var tensor := ParseRest(b, next, f, finite);
      if tensor.None? {
        FailsOn(b, i + 1, |fields|, fields, finite, true);
        return Failure("invalid tensor");
      }
      var (t, after) := tensor.value;
      TableMore(ts, t);
      tensors := tensors[t.name := t.data];
      ts := ts + [t];
      at := after;
      i := i + 1;
    }
    if at != |b| {
      return Failure("trailing native data");
    }
    r := Success(tensors);
  }

  /** The script's parser, from a tensor's type on: the whole descriptor first, then
      the shape at once, then the words. */
  method ParseRestLax(b: seq<byte>, at: nat, f: Field, finite: Word32 -> bool) returns (r: Option<(Tensor, nat)>)
    requires at <= |b|
    ensures r == ReadRest(b, at, f, finite, false)
    ensures r.Some? ==> r.value.0.name == f.name
  {
    hide Dims, Product, Joined, Word32At, Word64At, Split;
    ShortReads(b, at);
    ShortReads(b, at + 4);
    if at + 16 > |b| {
      return None;
    }
    var dtype, rank, elements := Word32At(b, at).value, Word32At(b, at + 4).value, Word64At(b, at + 8).value;
    if rank != |f.shape| || elements != Product(f.shape) || dtype != (if f.kind == Numbers then 1 else 2) {
      return None;
    }
    var from := at + 16 + 8 * rank;
    if from > |b| || b[at + 16..from] != Dims(f.shape) || from + 4 * elements > |b| {
      return None;
    }
    var raw := b[from..from + 4 * elements];
    assert |raw| == 4 * elements;
    var value := Split(raw);
    var good := true;
    if f.kind == Numbers {
      good := forall i :: 0 <= i < |value| ==> SoundWord(value[i], f.kind, finite, false);
    }
    r := if good then Some((Tensor(f.name, dtype, f.shape, value), from + 4 * elements)) else None;
  }

  /** The script's parser. */
  method ReadOutput(b: seq<byte>, fields: seq<Field>, finite: Word32 -> bool) returns (r: Result<map<seq<byte>, seq<Word32>>>)
    requires WellFormed(fields)
    ensures r.Success? <==> Read(b, fields, finite, false).Some?
    ensures r.Success? ==> r.value == Collected(Read(b, fields, finite, false).value)
  {
    hide ReadName, ReadRest, Word32At, Collected, Names, Product;
    ShortReads(b, 8);
    if |b| < 12 || b[..8] != MAGIC || Word32At(b, 8) != Some(|fields|) {
      return Failure("invalid API header/count");
    }
    var at := 12;
    var result: map<seq<byte>, seq<Word32>> := map[];
    ghost var ts: seq<Tensor> := [];
    EmptyTables();
    var i := 0;
    while i < |fields|
      invariant 0 <= i <= |fields| && 12 <= at <= |b|
      invariant ReadTensors(b, i, fields, finite, false) == Some((ts, at))
      invariant result == Collected(ts) && result.Keys == Names(ts)
    {
      var named := ParseName(b, at, fields, result.Keys);
      if named.None? {
        FailsOn(b, i + 1, |fields|, fields, finite, false);
        return Failure("unexpected/duplicate result");
      }
      FieldFits(b, at, fields, result.Keys);
      var (f, next) := named.value;
      var tensor := ParseRestLax(b, next, f, finite);
      if tensor.None? {
        FailsOn(b, i + 1, |fields|, fields, finite, false);
        return Failure("invalid API descriptor");
      }
      var (t, after) := tensor.value;
      TableMore(ts, t);
      result := result[t.name := t.data];
      ts := ts + [t];
      at := after;
      i := i + 1;
    }
    if at < |b| {
      return Failure("trailing API data");
    }
    r := Success(result);
  }

  lemma EmptyTables()
    ensures Collected([]) == map[] && Names([]) == {}
  {
  }

  lemma TableMore(ts: seq<Tensor>, t: Tensor)
    ensures Collected(ts + [t]) == Collected(ts)[t.name := t.data]
    ensures Names(ts + [t]) == Names(ts) + {t.name}
  {
    assert (ts + [t])[..|ts|] == ts;
    assert Names(ts + [t]) == Names(ts) + {t.name} by {
      forall n | n in Names(ts) + {t.name} ensures n in Names(ts + [t]) {
        if n in Names(ts) {
          var i :| 0 <= i < |ts| && ts[i].name == n;
          assert (ts + [t])[i].name == n;
        } else {
          assert (ts + [t])[|ts|].name == n;
        }
      }
    }
  }

  lemma FieldFits(b: seq<byte>, at: nat, fields: seq<Field>, seen: set<seq<byte>>)
    requires WellFormed(fields) && ReadName(b, at, fields, seen).Some?
    ensures var (f, next) := ReadName(b, at, fields, seen).value;
      next <= |b| && forall k :: 0 <= k < |f.shape| ==> f.shape[k] < U64
  {
    hide Product;
    var f := ReadName(b, at, fields, seen).value.0;
    NameWritten(b, at, fields, seen);
    var i :| 0 <= i < |fields| && fields[i] == f;
  }
}
