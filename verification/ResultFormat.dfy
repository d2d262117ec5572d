/**
 The result file of the native runner: its layout, and what a strict reader
 accepts.  The C writer, the Go parser and the Python parser share this format.
 */
module ResultFormat {
  import opened Wrappers
  import opened Bytes
  import opened Cursor

  const MAGIC: seq<byte> := [83, 51, 68, 79, 85, 84, 48, 49]  // S3DOUT01
  const MAX_NAME: nat := 64

  /** What a field's words are: finite numbers, or indices below a limit. */
  datatype Kind = Numbers | Indices(limit: nat)

  datatype Field = Field(name: seq<byte>, shape: seq<nat>, kind: Kind)

  /** One tensor of a file. */
  datatype Tensor = Tensor(name: seq<byte>, typ: nat, dims: seq<nat>, data: seq<Word32>)

  function TypeCode(kind: Kind): nat {
    if kind == Numbers then 1 else 2
  }

  predicate WellFormed(fields: seq<Field>) {
    && 0 < |fields| < U32
    && (forall i :: 0 <= i < |fields| ==>
          && 1 <= |fields[i].name| <= MAX_NAME
          && |fields[i].shape| < U32
          && Product(fields[i].shape) < U64
          && forall k :: 0 <= k < |fields[i].shape| ==> fields[i].shape[k] < U64)
    && forall i, j :: 0 <= i < j < |fields| ==> fields[i].name != fields[j].name
  }

  function Lookup(fields: seq<Field>, name: seq<byte>): (f: Option<Field>)
    ensures f.Some? ==> f.value in fields && f.value.name == name
    ensures f.None? ==> forall g :: g in fields ==> g.name != name
  {
    if fields == [] then None
    else if fields[0].name == name then Some(fields[0])
    else Lookup(fields[1..], name)
  }

  /** A word a reader lets through; a lax reader does not look at indices. */
  predicate SoundWord(w: Word32, kind: Kind, finite: Word32 -> bool, strict: bool) {
    match kind
    case Numbers => finite(w)
    case Indices(limit) => strict ==> FromLittleEndian(w) < limit
  }

  predicate Sound(data: seq<Word32>, kind: Kind, finite: Word32 -> bool, strict: bool) {
    forall i :: 0 <= i < |data| ==> SoundWord(data[i], kind, finite, strict)
  }

  predicate Matches(t: Tensor, f: Field, finite: Word32 -> bool, strict: bool) {
    && t.name == f.name && t.typ == TypeCode(f.kind) && t.dims == f.shape
    && |t.data| == Product(f.shape) && Sound(t.data, f.kind, finite, strict)
  }

  ghost predicate Known(t: Tensor, fields: seq<Field>, finite: Word32 -> bool, strict: bool) {
    exists f :: f in fields && Matches(t, f, finite, strict)
  }

  /** The tensors match fields of the schema, each field at most once. */
  ghost predicate Distinct(ts: seq<Tensor>, fields: seq<Field>, finite: Word32 -> bool, strict: bool) {
    && (forall i :: 0 <= i < |ts| ==> Known(ts[i], fields, finite, strict))
    && forall i, j :: 0 <= i < j < |ts| ==> ts[i].name != ts[j].name
  }

  /** Every field of the schema once, in any order. */
  ghost predicate Complete(ts: seq<Tensor>, fields: seq<Field>, finite: Word32 -> bool, strict: bool) {
    |ts| == |fields| && Distinct(ts, fields, finite, strict)
  }

  function Dims(dims: seq<nat>): (b: seq<byte>)
    ensures |b| == 8 * |dims|
  {
    if dims == [] then [] else Dims(dims[..|dims| - 1]) + Long(dims[|dims| - 1])
  }

  function Head(t: Tensor): seq<byte> {
    Word(|t.name|) + t.name + Word(t.typ) + Word(|t.dims|) + Long(|t.data|)
  }

  function Encode(t: Tensor): (b: seq<byte>)
    ensures |b| == 20 + |t.name| + 8 * |t.dims| + 4 * |t.data|
  {
    Head(t) + Dims(t.dims) + Joined(t.data)
  }

  function Body(ts: seq<Tensor>): seq<byte> {
    if ts == [] then [] else Body(ts[..|ts| - 1]) + Encode(ts[|ts| - 1])
  }

  function Written(ts: seq<Tensor>): seq<byte> {
    MAGIC + Word(|ts|) + Body(ts)
  }

  method WriteTensor(t: Tensor) returns (out: seq<byte>)
    ensures out == Encode(t)
  {
    hide Word, Long, Joined;
    out := Word(|t.name|) + t.name + Word(t.typ) + Word(|t.dims|) + Long(|t.data|);
    var j := 0;
    while j < |t.dims|
      invariant 0 <= j <= |t.dims|
      invariant out == Head(t) + Dims(t.dims[..j])
    {
      out := out + Long(t.dims[j]);
      assert t.dims[..j + 1][..j] == t.dims[..j];
      j := j + 1;
    }
    assert t.dims[..j] == t.dims;
    out := out + Joined(t.data);
  }

  /** The runner's writer, tensor by tensor. */
  method WriteResult(ts: seq<Tensor>) returns (out: seq<byte>)
    ensures out == Written(ts)
  {
    hide Word, Encode;
    out := MAGIC + Word(|ts|);
    var i := 0;
    while i < |ts|
      invariant 0 <= i <= |ts|
      invariant out == MAGIC + Word(|ts|) + Body(ts[..i])
    {
      var tensor := WriteTensor(ts[i]);
      out := out + tensor;
      assert ts[..i + 1][..i] == ts[..i];
      i := i + 1;
    }
    assert ts[..i] == ts;
  }

  // Reading, as a function of the whole file and a position in it.

  /** The field named at `at`, and the position after the name. */
  function ReadName(b: seq<byte>, at: nat, fields: seq<Field>, seen: set<seq<byte>>): (r: Option<(Field, nat)>)
    ensures r.Some? ==> at + 4 < r.value.1 <= |b|
  {
    match Word32At(b, at)
    case None => None
    case Some(n) =>
      if n < 1 || n > MAX_NAME || at + 4 + n > |b| then None
      else
        var name := b[at + 4..at + 4 + n];
        var f := Lookup(fields, name);
        if f.None? || name in seen then None else Some((f.value, at + 4 + n))
  }

  /** The tensor of field `f` whose name ends at `at`, and the position after it. */
  function ReadRest(b: seq<byte>, at: nat, f: Field, finite: Word32 -> bool, strict: bool): (r: Option<(Tensor, nat)>)
    ensures r.Some? ==> at < r.value.1 <= |b|
  {
    var rank, total := |f.shape|, Product(f.shape);
    if at + 16 + 8 * rank + 4 * total > |b| then None
    else if Word32At(b, at) != Some(TypeCode(f.kind)) || Word32At(b, at + 4) != Some(rank) || Word64At(b, at + 8) != Some(total)
      || b[at + 16..at + 16 + 8 * rank] != Dims(f.shape) then None
    else
      var from := at + 16 + 8 * rank;
      assert |b[from..from + 4 * total]| == 4 * total;
      var data := Split(b[from..from + 4 * total]);
      if Sound(data, f.kind, finite, strict) then Some((Tensor(f.name, TypeCode(f.kind), f.shape, data), from + 4 * total)) else None
  }

  function ReadTensor(b: seq<byte>, at: nat, fields: seq<Field>, seen: set<seq<byte>>, finite: Word32 -> bool, strict: bool)
    : (r: Option<(Tensor, nat)>)
    ensures r.Some? ==> at < r.value.1 <= |b|
  {
    match ReadName(b, at, fields, seen)
    case None => None
    case Some((f, next)) => ReadRest(b, next, f, finite, strict)
  }

  function Names(ts: seq<Tensor>): set<seq<byte>> {
    set i | 0 <= i < |ts| :: ts[i].name
  }

  /** The first `n` tensors after the header, and the position after them. */
  function ReadTensors(b: seq<byte>, n: nat, fields: seq<Field>, finite: Word32 -> bool, strict: bool)
    : (r: Option<(seq<Tensor>, nat)>)
    ensures r.Some? ==> |r.value.0| == n
  {
    if n == 0 then Some(([], 12))
    else
      match ReadTensors(b, n - 1, fields, finite, strict)
      case None => None
      case Some((ts, at)) =>
        match ReadTensor(b, at, fields, Names(ts), finite, strict)
        case None => None
        case Some((t, next)) => Some((ts + [t], next))
  }

  /** A whole file: header, one tensor a field, nothing after. */
  function Read(b: seq<byte>, fields: seq<Field>, finite: Word32 -> bool, strict: bool): Option<seq<Tensor>> {
    if |b| < 12 || b[..8] != MAGIC || Word32At(b, 8) != Some(|fields|) then None
    else
      match ReadTensors(b, |fields|, fields, finite, strict)
      case None => None
      case Some((ts, at)) => if at == |b| then Some(ts) else None
  }
}
