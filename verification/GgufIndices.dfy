/** The index tensors that the geometry converter lets through. */
module GgufIndices {
  import opened Skeleton

  const ROWS := 3000
  const COLUMNS := 750

  /** One pair of coordinates comes before another: by row, then by column. */
  predicate PairBelow(r: int, c: int, r': int, c': int) {
    r < r' || (r == r' && c < c')
  }

  /** Coordinates inside the matrix, each pair strictly after the one before it. */
  predicate SortedCoordinates(rows: seq<int>, columns: seq<int>)
    requires |rows| == |columns|
  {
    && (forall i :: 0 <= i < |rows| ==> 0 <= rows[i] < ROWS && 0 <= columns[i] < COLUMNS)
    && forall i, j :: 0 <= i < j < |rows| ==> PairBelow(rows[i], columns[i], rows[j], columns[j])
  }

  method Bounded(v: seq<int>, low: int, high: int) returns (ok: bool)
    ensures ok <==> forall i :: 0 <= i < |v| ==> low <= v[i] < high
  {
    ok := true;
    var i := 0;
    while i < |v| && ok
      invariant 0 <= i <= |v|
      invariant ok ==> forall k :: 0 <= k < i ==> low <= v[k] < high
      invariant !ok ==> exists k :: 0 <= k < |v| && !(low <= v[k] < high)
    {
      ok := low <= v[i] < high;
      i := i + 1;
    }
  }

  /** The sparse index check: bounds, and growing flattened positions between
      neighbours.  It passes exactly sorted coordinates without repetition. */
  method ValidateSparse(rows: seq<int>, columns: seq<int>) returns (ok: bool)
    requires |rows| == |columns|
    ensures ok <==> SortedCoordinates(rows, columns)
  {
    ok := Bounded(rows, 0, ROWS);
    if !ok {
      return;
    }
    ok := Bounded(columns, 0, COLUMNS);
    if !ok {
      return;
    }
    var i := 1;
    while i < |rows| && ok
      invariant 1 <= i
      invariant ok ==> forall j, k :: 0 <= j < k < i && k < |rows| ==> PairBelow(rows[j], columns[j], rows[k], columns[k])
      invariant !ok ==> exists k :: 0 < k < |rows| && !PairBelow(rows[k - 1], columns[k - 1], rows[k], columns[k])
    {
      ok := (rows[i] * COLUMNS + columns[i]) - (rows[i - 1] * COLUMNS + columns[i - 1]) > 0;
      Flattened(rows[i - 1], columns[i - 1], rows[i], columns[i]);
      i := i + 1;
    }
  }

  /** Flattened positions order pairs as the pairs themselves are ordered. */
  lemma Flattened(r: int, c: int, r': int, c': int)
    requires 0 <= c < COLUMNS && 0 <= c' < COLUMNS
    ensures r * COLUMNS + c < r' * COLUMNS + c' <==> PairBelow(r, c, r', c')
  {
  }

  /** The coordinates are inside a matrix of 3000 rows and 750 columns, and their positions
      in it, row by row, grow. */
  lemma SparseNumbers(rows: seq<int>, columns: seq<int>)
    requires |rows| == |columns|
    ensures SortedCoordinates(rows, columns) <==>
              && (forall i | 0 <= i < |rows| :: 0 <= rows[i] < 3000 && 0 <= columns[i] < 750)
              && forall i, j | 0 <= i < j < |rows| :: 750 * rows[i] + columns[i] < 750 * rows[j] + columns[j]
  {
    if forall i | 0 <= i < |rows| :: 0 <= rows[i] < 3000 && 0 <= columns[i] < 750 {
      forall i, j | 0 <= i < j < |rows|
        ensures PairBelow(rows[i], columns[i], rows[j], columns[j]) <==> 750 * rows[i] + columns[i] < 750 * rows[j] + columns[j]
      {
        Flattened(rows[i], columns[i], rows[j], columns[j]);
      }
    }
  }

  /** The topology check of the converter passes exactly the topologies that the
      exporter accepts. */
  method ValidateSkeletonParents(a: seq<int>) returns (ok: bool)
    requires |a| == JOINTS
    ensures ok <==> ValidParents(a)
  {
    ok := Bounded(a, -1, 127);
    if !ok || a[0] != -1 {
      return false;
    }
    var i := 1;
    while i < |a| && ok
      invariant 1 <= i <= |a|
      invariant ok ==> forall k :: 1 <= k < i ==> 0 <= a[k] < k
      invariant !ok ==> exists k :: 1 <= k < |a| && !(0 <= a[k] < k)
    {
      ok := 0 <= a[i] < i;
      i := i + 1;
    }
  }
}
