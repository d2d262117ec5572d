/**
 The size of a result file: whatever the order of its tensors, every accepted file has
 the same number of bytes.
 */
module ResultSize {
  import opened Bytes
  import opened ResultFormat
  import opened ResultRoundTrip
  import opened ResultSchema

  /** The bytes of a field: its description and its words. */
  function FieldSize(f: Field): nat {
    20 + |f.name| + 8 * |f.shape| + 4 * Product(f.shape)
  }

  function Total(fields: seq<Field>): nat {
    if fields == [] then 0 else Total(fields[..|fields| - 1]) + FieldSize(fields[|fields| - 1])
  }

  function Without(fields: seq<Field>, k: nat): (rest: seq<Field>)
    requires k < |fields|
    ensures |rest| == |fields| - 1
  {
    fields[..k] + fields[k + 1..]
  }

  lemma {:induction false} TotalWithout(fields: seq<Field>, k: nat)
    requires k < |fields|
    ensures Total(fields) == Total(Without(fields, k)) + FieldSize(fields[k])
  {
    hide FieldSize;
    var init, last := fields[..|fields| - 1], fields[|fields| - 1];
    if k < |init| {
      TotalWithout(init, k);
      var rest := Without(fields, k);
      assert rest[..|rest| - 1] == Without(init, k);
      assert rest[|rest| - 1] == last;
    } else {
      assert Without(fields, k) == init;
    }
  }

  /** No two fields have the same name. */
  predicate Named(fields: seq<Field>) {
    forall i, j | 0 <= i < j < |fields| :: fields[i].name != fields[j].name
  }

  lemma WithoutOthers(fields: seq<Field>, k: nat, f: Field)
    requires k < |fields| && Named(fields) && f in fields && f.name != fields[k].name
    ensures f in Without(fields, k)
  {
    var i :| 0 <= i < |fields| && fields[i] == f;
    assert i != k;
    assert i < k ==> Without(fields, k)[i] == f;
    assert i > k ==> Without(fields, k)[i - 1] == f;
  }

  lemma WithoutNamed(fields: seq<Field>, k: nat)
    requires k < |fields| && Named(fields)
    ensures Named(Without(fields, k))
  {
  }

  /** The last of the tensors matches a field, and the others match the other fields. */
  lemma LastField(ts: seq<Tensor>, fields: seq<Field>, finite: Word32 -> bool, strict: bool) returns (k: nat)
    requires ts != [] && Named(fields) && Distinct(ts, fields, finite, strict)
    ensures k < |fields| && SizeOf(ts[|ts| - 1]) == FieldSize(fields[k])
    ensures Distinct(ts[..|ts| - 1], Without(fields, k), finite, strict)
  {
    hide Sound, Product;
    var init, last := ts[..|ts| - 1], ts[|ts| - 1];
    assert Known(last, fields, finite, strict);
    var f :| f in fields && Matches(last, f, finite, strict);
    k :| k < |fields| && fields[k] == f;
    forall i | 0 <= i < |init| ensures Known(init[i], Without(fields, k), finite, strict) {
      assert init[i] == ts[i] && Known(ts[i], fields, finite, strict);
      var g :| g in fields && Matches(ts[i], g, finite, strict);
      WithoutOthers(fields, k, g);
    }
  }

  lemma {:induction false} CompleteSize(ts: seq<Tensor>, fields: seq<Field>, finite: Word32 -> bool, strict: bool)
    requires Named(fields) && Complete(ts, fields, finite, strict)
    ensures StartAt(ts, |ts|) == 12 + Total(fields)
    decreases |ts|
  {
    hide Distinct, SizeOf, FieldSize, Without;
    if ts != [] {
      var init := ts[..|ts| - 1];
      var k := LastField(ts, fields, finite, strict);
      WithoutNamed(fields, k);
      CompleteSize(init, Without(fields, k), finite, strict);
      TotalWithout(fields, k);
      StartInit(ts, |init|);
    }
  }

  lemma Flat(n: nat)
    ensures Product([1, n]) == n
  {
    assert [1, n][..1] == [1] && [1][..0] == [];
    assert Product([1]) == 1;
  }

  lemma Solid(m: nat, n: nat)
    ensures Product([1, m, n]) == m * n
  {
    assert [1, m, n][..2] == [1, m];
    Flat(m);
  }

  lemma TotalMore(fields: seq<Field>, n: nat)
    requires n < |fields|
    ensures Total(fields[..n + 1]) == Total(fields[..n]) + FieldSize(fields[n])
  {
    hide FieldSize;
    assert fields[..n + 1][..n] == fields[..n];
  }

  lemma FirstSizes()
    ensures FieldSize(SERVER[0]) == 221320 && FieldSize(SERVER[1]) == 1574 && FieldSize(SERVER[2]) == 4639
    ensures FieldSize(SERVER[3]) == 893 && FieldSize(SERVER[4]) == 620 && FieldSize(SERVER[5]) == 147571
    ensures FieldSize(SERVER[6]) == 66
  {
    hide Product;
    Solid(18439, 3);
    Solid(127, 3);
    assert [1, 127, 3, 3] == [1, 127, 3] + [3];
    OneMore([1, 127, 3], 3);
    Solid(70, 3);
    Solid(70, 2);
    Solid(18439, 2);
    Flat(3);
  }

  lemma OneMore(shape: seq<nat>, n: nat)
    ensures Product(shape + [n]) == Product(shape) * n
  {
    assert (shape + [n])[..|shape|] == shape;
  }

  lemma MiddleSizes()
    ensures FieldSize(SERVER[7]) == 65 && FieldSize(SERVER[8]) == 1108 && FieldSize(SERVER[9]) == 63
    ensures FieldSize(SERVER[10]) == 577 && FieldSize(SERVER[11]) == 221 && FieldSize(SERVER[12]) == 153
    ensures FieldSize(SERVER[13]) == 472
  {
    hide Product;
    Flat(3);
    Flat(266);
    Flat(133);
    Flat(45);
    Flat(28);
    Flat(108);
  }

  lemma LastSizes()
    ensures FieldSize(SERVER[14]) == 328 && FieldSize(SERVER[15]) == 872 && FieldSize(SERVER[16]) == 4124
    ensures FieldSize(SERVER[17]) == 86 && FieldSize(SERVER[18]) == 71 && FieldSize(SERVER[19]) == 442529
  {
    hide Product;
    Flat(72);
    Flat(204);
    Solid(127, 8);
    Solid(2, 4);
    Solid(2, 2);
    assert Product([36874, 3]) == 110622 by {
      assert [36874, 3] == [36874] + [3];
      OneMore([36874], 3);
      OneMore([], 36874);
      EmptyProduct();
      assert [] + [36874] == [36874];
    }
  }

  lemma {:induction false} TotalParts(fields: seq<Field>, n: nat)
    requires n <= |fields|
    ensures Total(fields) == Total(fields[..n]) + Sum(fields, n)
    decreases |fields| - n
  {
    hide FieldSize;
    if n == |fields| {
      assert fields[..n] == fields;
    } else {
      TotalMore(fields, n);
      TotalParts(fields, n + 1);
    }
  }

  /** The sizes of the fields from the `n`th on. */
  function Sum(fields: seq<Field>, n: nat): nat
    requires n <= |fields|
    decreases |fields| - n
  {
    if n == |fields| then 0 else FieldSize(fields[n]) + Sum(fields, n + 1)
  }

  lemma FieldSizes()
    ensures Total(SERVER) == 827352
  {
    hide FieldSize;
    FirstSizes();
    MiddleSizes();
    LastSizes();
    TotalParts(SERVER, 0);
    SumOfFive(SERVER, 15);
    SumOfFive(SERVER, 10);
    SumOfFive(SERVER, 5);
    SumOfFive(SERVER, 0);
    assert Sum(SERVER, 20) == 0 && SERVER[..0] == [];
  }

  lemma SumOfFive(fields: seq<Field>, n: nat)
    requires n + 5 <= |fields|
    ensures Sum(fields, n) == FieldSize(fields[n]) + FieldSize(fields[n + 1]) + FieldSize(fields[n + 2])
                              + FieldSize(fields[n + 3]) + FieldSize(fields[n + 4]) + Sum(fields, n + 5)
  {
    hide FieldSize;
    assert Sum(fields, n + 3) == FieldSize(fields[n + 3]) + FieldSize(fields[n + 4]) + Sum(fields, n + 5);
    assert Sum(fields, n + 1) == FieldSize(fields[n + 1]) + FieldSize(fields[n + 2]) + Sum(fields, n + 3);
  }

  /** Every result file that the server accepts has 827364 bytes, in whatever order its
      twenty tensors stand; a file of any other size is refused. */
  lemma AcceptedSize(b: seq<byte>, finite: Word32 -> bool)
    requires Read(b, SERVER, finite, true).Some?
    ensures |b| == 827364
  {
    hide Complete, Written, Read, Total, StartAt;
    var ts := Read(b, SERVER, finite, true).value;
    ReadWritten(b, SERVER, finite, true);
    ServerNamed();
    CompleteSize(ts, SERVER, finite, true);
    FieldSizes();
    FileLaid(ts);
  }

  lemma ServerNamed()
    ensures Named(SERVER)
  {
    ServerWellFormed();
  }

  /** In an accepted file, faces alone are of type 2 and name vertices of the mesh; every
      other tensor is of type 1 and holds finite numbers. */
  lemma AcceptedKinds(b: seq<byte>, finite: Word32 -> bool, i: nat)
    requires Read(b, SERVER, finite, true).Some? && i < |Read(b, SERVER, finite, true).value|
    ensures var t := Read(b, SERVER, finite, true).value[i];
            if t.name == Ascii("faces") then t.typ == 2 && forall k | 0 <= k < |t.data| :: FromLittleEndian(t.data[k]) < 18439
            else t.typ == 1 && forall k | 0 <= k < |t.data| :: finite(t.data[k])
  {
    hide Written, Read, Product, Tensorial, Ascii;
    var ts := Read(b, SERVER, finite, true).value;
    ReadWritten(b, SERVER, finite, true);
    assert Known(ts[i], SERVER, finite, true);
    var f :| f in SERVER && Matches(ts[i], f, finite, true);
    var k: nat :| k < |SERVER| && SERVER[k] == f;
    ServerNamed();
    FacesStand();
    OnlyFaces(k);
    assert FACES.name == Ascii("faces");
  }
}
