/** The twenty fields of the body result, as the server and the script list them. */
module ResultSchema {
  import opened Wrappers
  import opened Bytes
  import opened ResultFormat
  import opened ResultRoundTrip

  const VERTICES: nat := 18439

  function Ascii(s: string): (b: seq<byte>)
    ensures |b| == |s|
  {
    seq(|s|, i requires 0 <= i < |s| => s[i] as int % 256)
  }

  function Tensorial(name: string, shape: seq<nat>): Field {
    Field(Ascii(name), shape, Numbers)
  }

  const FACES := Field(Ascii("faces"), [36874, 3], Indices(VERTICES))

  /** The server's table. */
  const SERVER: seq<Field> := [
    Tensorial("vertices", [1, VERTICES, 3]),
    Tensorial("joints", [1, 127, 3]),
    Tensorial("joint_rotations", [1, 127, 3, 3]),
    Tensorial("keypoints", [1, 70, 3]),
    Tensorial("keypoints_pixels", [1, 70, 2]),
    Tensorial("vertices_pixels", [1, VERTICES, 2]),
    Tensorial("camera_translation", [1, 3]),
    Tensorial("camera_parameters", [1, 3]),
    Tensorial("pose_raw", [1, 266]),
    Tensorial("global_rotation", [1, 3]),
    Tensorial("body_pose", [1, 133]),
    Tensorial("shape", [1, 45]),
    Tensorial("scale", [1, 28]),
    Tensorial("hand", [1, 108]),
    Tensorial("face", [1, 72]),
    Tensorial("mhr_model_parameters", [1, 204]),
    Tensorial("joint_transforms", [1, 127, 8]),
    Tensorial("hand_boxes", [1, 2, 4]),
    Tensorial("hand_logits", [1, 2, 2]),
    FACES]

  /** The script's table. */
  const SCRIPT: seq<Field> := [
    Tensorial("vertices", [1, VERTICES, 3]),
    Tensorial("joints", [1, 127, 3]),
    Tensorial("joint_rotations", [1, 127, 3, 3]),
    Tensorial("keypoints", [1, 70, 3]),
    Tensorial("keypoints_pixels", [1, 70, 2]),
    Tensorial("vertices_pixels", [1, VERTICES, 2]),
    Tensorial("camera_translation", [1, 3]),
    Tensorial("camera_parameters", [1, 3]),
    Tensorial("pose_raw", [1, 266]),
    Tensorial("global_rotation", [1, 3]),
    Tensorial("body_pose", [1, 133]),
    Tensorial("shape", [1, 45]),
    Tensorial("scale", [1, 28]),
    Tensorial("hand", [1, 108]),
    Tensorial("face", [1, 72]),
    Tensorial("mhr_model_parameters", [1, 204]),
    Tensorial("hand_boxes", [1, 2, 4]),
    Tensorial("hand_logits", [1, 2, 2]),
    Tensorial("joint_transforms", [1, 127, 8]),
    FACES]

  /** Where a name stands in the server's table, told by its length and first letters. */
  function Place(name: seq<byte>): nat
    requires |name| >= 2
  {
    match |name|
    case 4 => if name[0] == 104 then 13 else 14
    case 5 => if name[0] == 102 then 19 else if name[1] == 104 then 11 else 12
    case 6 => 1
    case 8 => if name[0] == 118 then 0 else 8
    case 9 => if name[0] == 107 then 3 else 10
    case 10 => 17
    case 11 => 18
    case 15 => if name[0] == 106 then 2 else if name[0] == 118 then 5 else 9
    case 16 => if name[0] == 107 then 4 else 16
    case 17 => 7
    case 18 => 6
    case _ => 15
  }

  lemma PlacesLow(i: nat)
    requires i < 10
    ensures 2 <= |SERVER[i].name| <= MAX_NAME && Place(SERVER[i].name) == i
  {
  }

  lemma PlacesHigh(i: nat)
    requires 10 <= i < |SERVER|
    ensures 2 <= |SERVER[i].name| <= MAX_NAME && Place(SERVER[i].name) == i
  {
  }

  lemma Places(i: nat)
    requires i < |SERVER|
    ensures 2 <= |SERVER[i].name| <= MAX_NAME && Place(SERVER[i].name) == i
  {
    hide Place, Tensorial, Ascii;
    if i < 10 {
      PlacesLow(i);
    } else {
      PlacesHigh(i);
    }
  }

  lemma EmptyProduct()
    ensures Product([]) == 1
  {
  }

  lemma ProductMore(shape: seq<nat>, n: nat, bound: nat, m: nat)
    requires Product(shape) <= bound && n <= m
    ensures Product(shape + [n]) <= bound * m
  {
    assert (shape + [n])[..|shape|] == shape;
    Grows(Product(shape), bound, n, m);
  }

  lemma Grows(x: nat, y: nat, n: nat, m: nat)
    requires x <= y && n <= m
    ensures x * n <= y * m
  {
    assert x * n <= x * m;
    assert x * m <= y * m;
  }

  predicate SmallShape(shape: seq<nat>) {
    && 2 <= |shape| <= 4
    && shape[0] <= 40000 && shape[1] <= 20000
    && (|shape| > 2 ==> shape[2] <= 8) && (|shape| > 3 ==> shape[3] <= 3)
  }

  lemma ShapesSmall(i: nat)
    requires i < |SERVER|
    ensures SmallShape(SERVER[i].shape)
  {
  }

  lemma SmallFits(shape: seq<nat>)
    requires SmallShape(shape)
    ensures |shape| < U32 && Product(shape) < U64
    ensures forall k :: 0 <= k < |shape| ==> shape[k] < U64
  {
    hide Product;
    EmptyProduct();
    ProductMore([], shape[0], 1, 40000);
    assert shape[..1] == [] + [shape[0]];
    ProductMore(shape[..1], shape[1], 40000, 20000);
    assert shape[..2] == shape[..1] + [shape[1]];
    if |shape| > 2 {
      ProductMore(shape[..2], shape[2], 40000 * 20000, 8);
      assert shape[..3] == shape[..2] + [shape[2]];
    }
    if |shape| > 3 {
      ProductMore(shape[..3], shape[3], 40000 * 20000 * 8, 3);
      assert shape[..4] == shape[..3] + [shape[3]];
    }
    assert shape[..|shape|] == shape;
  }

  lemma ServerWellFormed()
    ensures WellFormed(SERVER)
  {
    hide Tensorial, Place, Product, SmallShape;
    forall i: nat | i < |SERVER|
      ensures 1 <= |SERVER[i].name| <= MAX_NAME && |SERVER[i].shape| < U32 && Product(SERVER[i].shape) < U64
      ensures forall k :: 0 <= k < |SERVER[i].shape| ==> SERVER[i].shape[k] < U64
    {
      Places(i);
      ShapesSmall(i);
      SmallFits(SERVER[i].shape);
    }
    forall i: nat, j: nat | i < j < |SERVER| ensures SERVER[i].name != SERVER[j].name {
      Places(i);
      Places(j);
    }
  }

  /** Where the script's field `i` stands in the server's table. */
  function ServerPlace(i: nat): nat {
    if i == 16 then 17 else if i == 17 then 18 else if i == 18 then 16 else i
  }

  lemma ScriptAt(i: nat)
    requires i < |SERVER|
    ensures |SCRIPT| == |SERVER| && SCRIPT[i] == SERVER[ServerPlace(i)]
  {
    hide Tensorial;
  }

  lemma ScriptWellFormed()
    ensures WellFormed(SCRIPT)
  {
    hide Tensorial, Product;
    ServerWellFormed();
    ScriptAt(0);
    forall i | 0 <= i < |SCRIPT| ensures SCRIPT[i] == SERVER[ServerPlace(i)] {
      ScriptAt(i);
    }
  }

  lemma SameFields(f: Field)
    ensures f in SERVER <==> f in SCRIPT
  {
    hide Tensorial;
    ScriptAt(0);
    if f in SERVER {
      var i :| 0 <= i < |SERVER| && SERVER[i] == f;
      var k := if i == 16 then 18 else if i == 17 then 16 else if i == 18 then 17 else i;
      ScriptAt(k);
    }
    if f in SCRIPT {
      var i :| 0 <= i < |SCRIPT| && SCRIPT[i] == f;
      ScriptAt(i);
    }
  }

  lemma SameTensors(ts: seq<Tensor>, finite: Word32 -> bool, strict: bool)
    ensures Complete(ts, SERVER, finite, strict) <==> Complete(ts, SCRIPT, finite, strict)
  {
    hide Tensorial, Matches;
    ScriptAt(0);
    forall t: Tensor ensures Known(t, SERVER, finite, strict) <==> Known(t, SCRIPT, finite, strict) {
      if f :| f in SERVER && Matches(t, f, finite, strict) {
        SameFields(f);
      }
      if f :| f in SCRIPT && Matches(t, f, finite, strict) {
        SameFields(f);
      }
    }
  }

  /** Both tables describe the same files. */
  lemma TablesAgree(b: seq<byte>, finite: Word32 -> bool, strict: bool)
    ensures Read(b, SERVER, finite, strict) == Read(b, SCRIPT, finite, strict)
  {
    hide Tensorial, Read, Complete, Written, WellFormed;
    ServerWellFormed();
    ScriptWellFormed();
    if Read(b, SERVER, finite, strict).Some? {
      ReadWritten(b, SERVER, finite, strict);
      SameTensors(Read(b, SERVER, finite, strict).value, finite, strict);
      WrittenRead(Read(b, SERVER, finite, strict).value, SCRIPT, finite, strict);
    } else if Read(b, SCRIPT, finite, strict).Some? {
      ReadWritten(b, SCRIPT, finite, strict);
      SameTensors(Read(b, SCRIPT, finite, strict).value, finite, strict);
      WrittenRead(Read(b, SCRIPT, finite, strict).value, SERVER, finite, strict);
    }
  }

  /** Everything the server accepts, the script accepts, with the same words; and of
      what the script accepts, the server rejects exactly the files in which a face
      names a vertex outside the mesh. */
  lemma ScriptAccepts(b: seq<byte>, finite: Word32 -> bool)
    ensures Read(b, SERVER, finite, true).Some? ==> Read(b, SCRIPT, finite, false) == Read(b, SERVER, finite, true)
    ensures Read(b, SCRIPT, finite, false).Some? ==>
              (Read(b, SERVER, finite, true).Some? <==>
               forall t :: t in Read(b, SCRIPT, finite, false).value ==> InRange(t, SERVER))
  {
    hide Tensorial, Read, WellFormed, InRange;
    ServerWellFormed();
    TablesAgree(b, finite, false);
    if Read(b, SERVER, finite, true).Some? {
      LaxAccepts(b, SERVER, finite);
    }
    if Read(b, SCRIPT, finite, false).Some? {
      LaxAcceptsMore(b, SERVER, finite);
    }
  }

  lemma FacesStand()
    ensures SERVER[|SERVER| - 1] == FACES && FACES in SERVER
    ensures Product(FACES.shape) > 0
  {
    hide Tensorial;
    assert FACES.shape[..2][..1] == [36874] && [36874][..0] == [];
    assert Product([36874]) == 36874;
    var last := |SERVER| - 1;
    assert SERVER[last] == FACES;
  }

  /** The two parsers do part ways: of the complete files whose faces all name vertex
      `n`, the script accepts every one, and the server only those with a vertex of
      the mesh. */
  lemma FaceOutside(number: Word32, n: nat, finite: Word32 -> bool)
    requires finite(number) && n < U32
    ensures var b := Written(Filled(SERVER, number, Word(n)));
            && Read(b, SCRIPT, finite, false) == Some(Filled(SERVER, number, Word(n)))
            && (Read(b, SERVER, finite, true).Some? <==> n < VERTICES)
  {
    hide Tensorial, Read, Written, WellFormed, InRange, Complete, Word, Product;
    var ts := Filled(SERVER, number, Word(n));
    ServerWellFormed();
    ScriptWellFormed();
    FilledComplete(SERVER, number, Word(n), finite);
    SameTensors(ts, finite, false);
    WrittenRead(ts, SCRIPT, finite, false);
    ScriptAccepts(Written(ts), finite);
    forall i: nat | i < |ts| ensures InRange(ts[i], SERVER) <==> (SERVER[i].kind.Indices? ==> n < VERTICES) {
      FilledInRange(number, n, i);
    }
    FacesStand();
    assert ts[|SERVER| - 1] in ts;
  }

  lemma FilledInRange(number: Word32, n: nat, i: nat)
    requires i < |SERVER| && n < U32
    ensures InRange(Filled(SERVER, number, Word(n))[i], SERVER) <==> (SERVER[i].kind.Indices? ==> n < VERTICES)
  {
    hide Tensorial, WellFormed, Word, Product, Lookup;
    ServerWellFormed();
    FoundField(SERVER, SERVER[i]);
    WordRead(n);
    FacesStand();
    OnlyFaces(i);
    var t := Filled(SERVER, number, Word(n))[i];
    if SERVER[i].kind.Indices? {
      assert t.data[0] == Word(n);
    }
  }

  lemma OnlyFaces(i: nat)
    requires i < |SERVER|
    ensures SERVER[i].kind.Indices? <==> SERVER[i] == FACES
  {
    hide Ascii;
  }
}
