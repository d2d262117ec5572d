/**
 The order in which the converters write metadata and tensors: sorted by name.
 Names are their UTF-8 bytes, whose order is the order of the code points.
 */
module GgufOrder {
  import opened Bytes

  type Text = seq<byte>

  predicate Below(a: Text, b: Text) {
    b != [] && (a == [] || a[0] < b[0] || (a[0] == b[0] && Below(a[1..], b[1..])))
  }

  lemma {:induction false} BelowTotal(a: Text, b: Text)
    ensures a == b || Below(a, b) || Below(b, a)
  {
    if a != [] && b != [] && a[0] == b[0] {
      BelowTotal(a[1..], b[1..]);
      assert a == [a[0]] + a[1..] && b == [b[0]] + b[1..];
    }
  }

  lemma {:induction false} BelowAntisymmetric(a: Text, b: Text)
    requires Below(a, b)
    ensures a != b && !Below(b, a)
  {
    if a != [] && a[0] == b[0] {
      BelowAntisymmetric(a[1..], b[1..]);
    }
  }

  lemma {:induction false} BelowTransitive(a: Text, b: Text, c: Text)
    requires Below(a, b) && Below(b, c)
    ensures Below(a, c)
  {
    if a != [] && a[0] == b[0] == c[0] {
      BelowTransitive(a[1..], b[1..], c[1..]);
    }
  }

  /** At `k` the names part: `a` ends there, or has the smaller byte. */
  predicate PartAt(a: Text, b: Text, k: nat) {
    k <= |a| && k < |b| && a[..k] == b[..k] && (k == |a| || a[k] < b[k])
  }

  predicate SameStart(a: Text, b: Text) {
    a != [] && b != [] && a[0] == b[0]
  }

  lemma SameBefore(a: Text, b: Text, k: nat)
    requires PartAt(a, b, k)
    ensures k == 0 || SameStart(a, b)
  {
    if k > 0 {
      assert a[..k][0] == b[..k][0];
    }
  }

  /** The order of the bytes where two names part first; a proper beginning comes first. */
  lemma {:induction false} BelowMeans(a: Text, b: Text)
    ensures Below(a, b) <==> exists k: nat :: PartAt(a, b, k)
  {
    if a == [] || b == [] || a[0] != b[0] {
      assert Below(a, b) ==> PartAt(a, b, 0);
      forall k: nat | PartAt(a, b, k) ensures k == 0 || SameStart(a, b) {
        SameBefore(a, b, k);
      }
    } else {
      var c, d := a[1..], b[1..];
      BelowMeans(c, d);
      if k: nat :| PartAt(c, d, k) {
        assert a[..k + 1] == [a[0]] + c[..k] && b[..k + 1] == [b[0]] + d[..k];
        assert PartAt(a, b, k + 1);
      }
      if k: nat :| PartAt(a, b, k) {
        assert c[..k - 1] == a[..k][1..] && d[..k - 1] == b[..k][1..];
        assert PartAt(c, d, k - 1);
      }
    }
  }

  // A dictionary is the sequence of its items, in the order they were added.
  predicate Dictionary<V(!new)>(items: seq<(Text, V)>) {
    forall i: nat, j: nat :: i < j < |items| ==> items[i].0 != items[j].0
  }

  predicate Ascending<V(!new)>(items: seq<(Text, V)>) {
    forall i: nat, j: nat :: i < j < |items| ==> Below(items[i].0, items[j].0)
  }

  function Insert<V(!new)>(item: (Text, V), items: seq<(Text, V)>): seq<(Text, V)> {
    if items == [] then [item]
    else if Below(items[0].0, item.0) then [items[0]] + Insert(item, items[1..])
    else [item] + items
  }

  function Sorted<V(!new)>(items: seq<(Text, V)>): seq<(Text, V)> {
    if items == [] then [] else Insert(items[0], Sorted(items[1..]))
  }

  ghost predicate SameItems<V(!new)>(a: seq<(Text, V)>, b: seq<(Text, V)>) {
    forall x :: x in a <==> x in b
  }

  lemma {:induction false} InsertKeeps<V(!new)>(item: (Text, V), items: seq<(Text, V)>)
    ensures |Insert(item, items)| == |items| + 1
    ensures forall x :: x in Insert(item, items) <==> x == item || x in items
  {
    if items != [] && Below(items[0].0, item.0) {
      InsertKeeps(item, items[1..]);
      assert items == [items[0]] + items[1..];
    }
  }

  lemma {:induction false} InsertAscends<V(!new)>(item: (Text, V), items: seq<(Text, V)>)
    requires Ascending(items) && forall x :: x in items ==> x.0 != item.0
    ensures Ascending(Insert(item, items))
  {
    if items == [] {
    } else if Below(items[0].0, item.0) {
      InsertAscends(item, items[1..]);
      InsertKeeps(item, items[1..]);
      var rest := Insert(item, items[1..]);
      forall j: nat | j < |rest| ensures Below(items[0].0, rest[j].0) {
        if rest[j] != item {
          assert rest[j] in items[1..];
        }
      }
    } else {
      BelowTotal(items[0].0, item.0);
      assert Below(item.0, items[0].0);
      forall j: nat | j < |items| ensures Below(item.0, items[j].0) {
        if j > 0 {
          BelowTransitive(item.0, items[0].0, items[j].0);
        }
      }
    }
  }

  lemma {:induction false} SortedKeeps<V(!new)>(items: seq<(Text, V)>)
    ensures |Sorted(items)| == |items| && SameItems(Sorted(items), items)
  {
    if items != [] {
      SortedKeeps(items[1..]);
      InsertKeeps(items[0], Sorted(items[1..]));
      assert items == [items[0]] + items[1..];
    }
  }

  lemma {:induction false} SortedAscends<V(!new)>(items: seq<(Text, V)>)
    requires Dictionary(items)
    ensures Ascending(Sorted(items))
  {
    if items != [] {
      SortedAscends(items[1..]);
      SortedKeeps(items[1..]);
      forall x | x in Sorted(items[1..]) ensures x.0 != items[0].0 {
        assert x in items[1..];
      }
      InsertAscends(items[0], Sorted(items[1..]));
    }
  }

  /** An ascending sequence is determined by the set of its items. */
  lemma {:induction false} AscendingUnique<V(!new)>(a: seq<(Text, V)>, b: seq<(Text, V)>)
    requires Ascending(a) && Ascending(b) && SameItems(a, b)
    ensures a == b
  {
    NonemptySame(a, b);
    NonemptySame(b, a);
    if a != [] {
      FirstSame(a, b);
      forall x ensures x in a[1..] <==> x in b[1..] {
        RestSame(a, x);
        RestSame(b, x);
      }
      AscendingUnique(a[1..], b[1..]);
      assert a == [a[0]] + a[1..] && b == [b[0]] + b[1..];
    }
  }

  lemma NonemptySame<V(!new)>(a: seq<(Text, V)>, b: seq<(Text, V)>)
    requires SameItems(a, b)
    ensures b != [] ==> a != []
  {
    if b != [] {
      assert b[0] in b;
    }
  }

  lemma FirstSame<V(!new)>(a: seq<(Text, V)>, b: seq<(Text, V)>)
    requires Ascending(a) && Ascending(b) && SameItems(a, b) && a != [] && b != []
    ensures a[0] == b[0]
  {
    assert a[0] in b && b[0] in a;
    var i :| 0 <= i < |b| && b[i] == a[0];
    var j :| 0 <= j < |a| && a[j] == b[0];
    if i > 0 && j > 0 {
      BelowAntisymmetric(b[0].0, b[i].0);
    }
  }

  lemma RestSame<V(!new)>(a: seq<(Text, V)>, x: (Text, V))
    requires Ascending(a) && a != []
    ensures x in a[1..] <==> x in a && x != a[0]
  {
    if x in a[1..] {
      var i :| 0 <= i < |a[1..]| && a[1..][i] == x;
      assert a[i + 1] == x;
      BelowAntisymmetric(a[0].0, x.0);
    }
    assert a == [a[0]] + a[1..];
  }

  /** What is written does not depend on the order in which a dictionary was filled. */
  lemma OrderIrrelevant<V(!new)>(a: seq<(Text, V)>, b: seq<(Text, V)>)
    requires Dictionary(a) && Dictionary(b) && SameItems(a, b)
    ensures Sorted(a) == Sorted(b)
  {
    SortedKeeps(a);
    SortedKeeps(b);
    SortedAscends(a);
    SortedAscends(b);
    AscendingUnique(Sorted(a), Sorted(b));
  }
}
