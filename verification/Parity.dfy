/**
 The parity comparator: tensors are compared chunk by chunk, and the result is
 that of the whole-array definitions, whatever the chunk size.  Arithmetic is
 over the reals.
 */
module Parity {
  import Bytes
  import opened Reals

  /** `kind` is the array library's kind letter; `finite` says that no element is infinite or undefined. */
  datatype Tensor = Tensor(shape: seq<nat>, dtype: string, kind: char, finite: bool, values: seq<real>)

  datatype Rule = Exact | Float(maxAbs: real, relative: real, floor: real)

  datatype Reason = ShapeMismatch | DtypeMismatch | EmptyTensor | UnsupportedDtype | NotFinite | NeedsExact

  datatype Report =
    | Refused(reason: Reason)
    | Counted(mismatched: nat)
    | Measured(pass: bool, maxAbs: real, relative: real, referenceL2: real, worst: nat)

  predicate Passes(r: Report) {
    match r
    case Refused(_) => false
    case Counted(n) => n == 0
    case Measured(pass, _, _, _, _) => pass
  }

  /** The square root, zero included. */
  ghost predicate IsSqrt(root: real -> real) {
    forall x: real :: x >= 0.0 ==> root(x) >= 0.0 && root(x) * root(x) == x
  }

  function Square(x: real): (r: real)
    ensures r >= 0.0
  {
    x * x
  }

  function SquareSum(s: seq<real>): (r: real)
    ensures r >= 0.0
  {
    if s == [] then 0.0 else SquareSum(s[..|s| - 1]) + Square(s[|s| - 1])
  }

  /** The Euclidean norm. */
  function Norm(s: seq<real>, root: real -> real): real {
    root(SquareSum(s))
  }

  function Hypot(x: real, y: real, root: real -> real): real {
    root(Square(x) + Square(y))
  }

  function Delta(reference: seq<real>, candidate: seq<real>): (d: seq<real>)
    requires |reference| == |candidate|
    ensures |d| == |reference|
  {
    seq(|reference|, i requires 0 <= i < |reference| => candidate[i] - reference[i])
  }

  /** `k` is the first index of a largest magnitude. */
  ghost predicate FirstWorst(d: seq<real>, k: nat) {
    && k < |d|
    && (forall i :: 0 <= i < |d| ==> Abs(d[i]) <= Abs(d[k]))
    && forall i :: 0 <= i < k ==> Abs(d[i]) < Abs(d[k])
  }

  lemma FirstWorstUnique(d: seq<real>, j: nat, k: nat)
    requires FirstWorst(d, j) && FirstWorst(d, k)
    ensures j == k
  {
    assert Abs(d[j]) <= Abs(d[k]) && Abs(d[k]) <= Abs(d[j]);
  }

  function Mismatches(a: seq<real>, b: seq<real>): nat
    requires |a| == |b|
  {
    if a == [] then 0
    else Mismatches(a[..|a| - 1], b[..|b| - 1]) + if a[|a| - 1] != b[|b| - 1] then 1 else 0
  }

  predicate KnownKind(kind: char) {
    kind == 'b' || kind == 'i' || kind == 'u' || kind == 'f'
  }

  /** Whether the two tensors can be compared under the rule at all. */
  predicate Comparable(reference: Tensor, candidate: Tensor, rule: Rule) {
    && reference.shape == candidate.shape && reference.dtype == candidate.dtype
    && |reference.values| > 0
    && KnownKind(reference.kind)
    && reference.finite && candidate.finite
    && (rule.Float? ==> reference.kind == 'f')
  }

  /** The first obstacle to a comparison, in the order in which they are looked for. */
  ghost predicate RefusedFor(reference: Tensor, candidate: Tensor, rule: Rule, reason: Reason) {
    && (reason.ShapeMismatch? <==> reference.shape != candidate.shape)
    && (reason.DtypeMismatch? ==> reference.dtype != candidate.dtype)
    && (reason.EmptyTensor? || reason.UnsupportedDtype? || reason.NotFinite? || reason.NeedsExact? ==> reference.dtype == candidate.dtype)
    && (reason.EmptyTensor? ==> reference.values == [])
    && (reason.UnsupportedDtype? || reason.NotFinite? || reason.NeedsExact? ==> reference.values != [])
    && (reason.UnsupportedDtype? ==> !KnownKind(reference.kind))
    && (reason.NotFinite? || reason.NeedsExact? ==> KnownKind(reference.kind))
    && (reason.NotFinite? ==> !reference.finite || !candidate.finite)
    && (reason.NeedsExact? ==> reference.finite && candidate.finite && rule.Float? && reference.kind != 'f')
  }

  predicate WellShaped(t: Tensor) {
    |t.values| == Bytes.Product(t.shape)
  }

  /** The verdict on the whole arrays at once. */
  ghost predicate IsVerdict(reference: Tensor, candidate: Tensor, rule: Rule, root: real -> real, r: Report)
    requires WellShaped(reference) && WellShaped(candidate)
    requires rule.Float? ==> rule.floor > 0.0
  {
    if !Comparable(reference, candidate, rule) then r.Refused? && RefusedFor(reference, candidate, rule, r.reason)
    else if rule.Exact? then r == Counted(Mismatches(reference.values, candidate.values))
    else IsMeasure(reference.values, candidate.values, rule, root, r)
  }

  lemma {:induction false} SquareSumSplits(a: seq<real>, b: seq<real>)
    ensures SquareSum(a + b) == SquareSum(a) + SquareSum(b)
  {
    if b == [] {
      assert a + b == a;
    } else {
      SquareSumSplits(a, b[..|b| - 1]);
      assert (a + b)[..|a + b| - 1] == a + b[..|b| - 1];
    }
  }

  /** Folding one more chunk's norm gives the norm of everything so far. */
  lemma HypotFolds(a: seq<real>, b: seq<real>, root: real -> real)
    requires IsSqrt(root)
    ensures Hypot(Norm(a, root), Norm(b, root), root) == Norm(a + b, root)
  {
    SquareSumSplits(a, b);
    assert Square(root(SquareSum(a))) == SquareSum(a);
    assert Square(root(SquareSum(b))) == SquareSum(b);
  }

  lemma NormEmpty(root: real -> real)
    requires IsSqrt(root)
    ensures Norm([], root) == 0.0
  {
    assert SquareSum([]) == 0.0;
    ZeroRoot(root(0.0), 0.0);
  }

  lemma ZeroRoot(z: real, square: real)
    requires square == z * z
    ensures z != 0.0 ==> square != 0.0
  {
    if z != 0.0 {
      var w := 1.0 / z;
      assert z * w == 1.0;
      assert (z * z) * w == z;
    }
  }

  /** The array library's argmax over magnitudes: the first of the largest. */
  method ArgMax(d: seq<real>) returns (k: nat)
    requires d != []
    ensures FirstWorst(d, k)
  {
    k := 0;
    var i := 1;
    while i < |d|
      invariant 1 <= i <= |d| && k < i
      invariant FirstWorst(d[..i], k)
    {
      if Abs(d[i]) > Abs(d[k]) {
        k := i;
      }
      i := i + 1;
    }
    assert d[..i] == d;
  }

  // One more chunk's worst element, against the worst so far.
  lemma WorstExtends(d: seq<real>, begin: nat, end: nat, worst: nat, local: nat)
    requires begin < end <= |d|
    requires begin > 0 ==> FirstWorst(d[..begin], worst)
    requires begin == 0 ==> worst == 0
    requires FirstWorst(d[begin..end], local)
    ensures
      var far := begin == 0 || Abs(d[begin + local]) > Abs(d[worst]);
      FirstWorst(d[..end], if far then begin + local else worst)
  {
    var far := begin == 0 || Abs(d[begin + local]) > Abs(d[worst]);
    var k := if far then begin + local else worst;
    forall i | 0 <= i < end ensures Abs(d[i]) <= Abs(d[k]) && (i < k ==> Abs(d[i]) < Abs(d[k])) {
      if i < begin {
        assert d[..begin][i] == d[i] && d[..begin][worst] == d[worst];
      } else {
        assert d[begin..end][i - begin] == d[i] && d[begin..end][local] == d[begin + local];
      }
    }
  }

  /** What the fold knows after the first `n` elements. */
  ghost predicate Folded(reference: seq<real>, d: seq<real>, n: nat, root: real -> real,
                         maxAbs: real, errorNorm: real, referenceNorm: real, worst: nat)
    requires n <= |reference| == |d|
  {
    && (n == 0 ==> worst == 0 && maxAbs == 0.0)
    && (n > 0 ==> FirstWorst(d[..n], worst) && maxAbs == Abs(d[worst]))
    && errorNorm == Norm(d[..n], root) && referenceNorm == Norm(reference[..n], root)
  }

  method FoldWorst(ghost d: seq<real>, begin: nat, end: nat, delta: seq<real>, maxAbs: real, worst: nat) returns (maxAbs': real, worst': nat)
    requires begin < end <= |d| && delta == d[begin..end]
    requires begin == 0 ==> worst == 0 && maxAbs == 0.0
    requires begin > 0 ==> FirstWorst(d[..begin], worst) && maxAbs == Abs(d[worst])
    ensures FirstWorst(d[..end], worst') && maxAbs' == Abs(d[worst'])
  {
    hide FirstWorst;
    maxAbs', worst' := maxAbs, worst;
    var local := ArgMax(delta);
    InRange(delta, local);
    var localMax := Abs(delta[local]);
    assert delta[local] == d[begin + local];
    WorstExtends(d, begin, end, worst, local);
    FirstZero(d, end, begin, local);
    if localMax > maxAbs {
      maxAbs', worst' := localMax, begin + local;
    }
  }

  lemma InRange(d: seq<real>, k: nat)
    requires FirstWorst(d, k)
    ensures k < |d|
  {
  }

  method FoldNorm(ghost s: seq<real>, begin: nat, end: nat, part: seq<real>, norm: real, root: real -> real) returns (norm': real)
    requires IsSqrt(root) && begin <= end <= |s| && part == s[begin..end] && norm == Norm(s[..begin], root)
    ensures norm' == Norm(s[..end], root)
  {
    hide IsSqrt, Hypot, Norm;
    HypotFolds(s[..begin], part, root);
    assert s[..begin] + part == s[..end];
    norm' := Hypot(norm, Norm(part, root), root);
  }

  /** The chunked fold over two arrays of the same length. */
  method FoldChunks(reference: seq<real>, candidate: seq<real>, chunk: nat, root: real -> real)
    returns (maxAbs: real, errorNorm: real, referenceNorm: real, worst: nat)
    requires IsSqrt(root) && chunk > 0 && |reference| == |candidate| > 0
    ensures FirstWorst(Delta(reference, candidate), worst) && maxAbs == Abs(Delta(reference, candidate)[worst])
    ensures errorNorm == Norm(Delta(reference, candidate), root)
    ensures referenceNorm == Norm(reference, root)
  {
    hide IsSqrt, FirstWorst, Norm;
    ghost var d := Delta(reference, candidate);
    maxAbs, errorNorm, referenceNorm, worst := 0.0, 0.0, 0.0, 0;
    NormEmpty(root);
    var begin := 0;
    while begin < |reference|
      invariant 0 <= begin <= |reference|
      invariant Folded(reference, d, begin, root, maxAbs, errorNorm, referenceNorm, worst)
    {
      var end := if begin + chunk < |reference| then begin + chunk else |reference|;
      var delta := Delta(reference[begin..end], candidate[begin..end]);
      assert delta == d[begin..end];
      maxAbs, worst := FoldWorst(d, begin, end, delta, maxAbs, worst);
      errorNorm := FoldNorm(d, begin, end, delta, errorNorm, root);
      referenceNorm := FoldNorm(reference, begin, end, reference[begin..end], referenceNorm, root);
      begin := end;
    }
    assert d[..begin] == d && reference[..begin] == reference;
  }

  // If the first chunk shows no difference, its first worst element is the first.
  lemma FirstZero(d: seq<real>, end: nat, begin: nat, local: nat)
    requires begin < end <= |d| && FirstWorst(d[begin..end], local)
    ensures Abs(d[begin + local]) == 0.0 ==> local == 0
  {
    var c := d[begin..end];
    assert c[local] == d[begin + local];
    if local > 0 {
      assert Abs(c[0]) < Abs(c[local]);
    }
  }

  lemma SameSize(a: Tensor, b: Tensor)
    requires WellShaped(a) && WellShaped(b) && a.shape == b.shape
    ensures |a.values| == |b.values|
  {
  }

  method CountMismatches(a: seq<real>, b: seq<real>) returns (count: nat)
    requires |a| == |b|
    ensures count == Mismatches(a, b)
  {
    count := 0;
    var i := 0;
    while i < |a|
      invariant 0 <= i <= |a|
      invariant count == Mismatches(a[..i], b[..i])
    {
      if a[i] != b[i] {
        count := count + 1;
      }
      assert a[..i + 1][..i] == a[..i] && b[..i + 1][..i] == b[..i];
      i := i + 1;
    }
    assert a[..i] == a && b[..i] == b;
  }

  lemma {:induction false} NoMismatches(a: seq<real>, b: seq<real>)
    requires |a| == |b|
    ensures Mismatches(a, b) == 0 <==> a == b
  {
    if a != [] {
      NoMismatches(a[..|a| - 1], b[..|b| - 1]);
    }
  }

  /** The measured part of a verdict. */
  ghost predicate IsMeasure(reference: seq<real>, candidate: seq<real>, rule: Rule, root: real -> real, r: Report)
    requires |reference| == |candidate| && rule.Float? && rule.floor > 0.0
  {
    var d := Delta(reference, candidate);
    && r.Measured?
    && FirstWorst(d, r.worst) && r.maxAbs == Abs(d[r.worst])
    && r.referenceL2 == Norm(reference, root)
    && r.relative == Norm(d, root) / Max(r.referenceL2, rule.floor)
    && (r.pass <==> r.maxAbs <= rule.maxAbs && r.relative <= rule.relative)
  }

  method Measure(reference: seq<real>, candidate: seq<real>, rule: Rule, chunk: nat, root: real -> real) returns (r: Report)
    requires IsSqrt(root) && chunk > 0 && |reference| == |candidate| > 0 && rule.Float? && rule.floor > 0.0
    ensures IsMeasure(reference, candidate, rule, root, r)
  {
    hide IsSqrt, FirstWorst, Norm, Delta;
    var maxAbs, errorNorm, referenceNorm, worst := FoldChunks(reference, candidate, chunk, root);
    var relative := errorNorm / Max(referenceNorm, rule.floor);
    r := Measured(maxAbs <= rule.maxAbs && relative <= rule.relative, maxAbs, relative, referenceNorm, worst);
  }

  /** The comparator, with the chunk size as a parameter. */
  method CompareArray(reference: Tensor, candidate: Tensor, rule: Rule, chunk: nat, root: real -> real) returns (r: Report)
    requires IsSqrt(root) && chunk > 0 && WellShaped(reference) && WellShaped(candidate)
    requires rule.Float? ==> rule.floor > 0.0
    ensures IsVerdict(reference, candidate, rule, root, r)
  {
    hide IsSqrt, Mismatches, IsMeasure, WellShaped;
    if reference.shape != candidate.shape {
      return Refused(ShapeMismatch);
    }
    if reference.dtype != candidate.dtype {
      return Refused(DtypeMismatch);
    }
    SameSize(reference, candidate);
    if |reference.values| == 0 {
      return Refused(EmptyTensor);
    }
    if !KnownKind(reference.kind) {
      return Refused(UnsupportedDtype);
    }
    if !reference.finite || !candidate.finite {
      return Refused(NotFinite);
    }
    if rule.Exact? {
      var count := CountMismatches(reference.values, candidate.values);
      return Counted(count);
    }
    if reference.kind != 'f' {
      return Refused(NeedsExact);
    }
    r := Measure(reference.values, candidate.values, rule, chunk, root);
  }

  /** The verdict is determined: two runs with any chunk sizes agree. */
  lemma VerdictUnique(reference: Tensor, candidate: Tensor, rule: Rule, root: real -> real, a: Report, b: Report)
    requires WellShaped(reference) && WellShaped(candidate) && (rule.Float? ==> rule.floor > 0.0)
    requires IsVerdict(reference, candidate, rule, root, a) && IsVerdict(reference, candidate, rule, root, b)
    ensures a == b
  {
    hide FirstWorst, Norm;
    if Comparable(reference, candidate, rule) && rule.Float? {
      FirstWorstUnique(Delta(reference.values, candidate.values), a.worst, b.worst);
    }
  }

  /** What a pass means, element by element: the tensors have the same shape and type, are
      not empty, of a numeric type and finite, and either equal under an exact rule, or
      floating point with no element further off than the absolute limit and the norm
      of all differences within the relative one. */
  lemma PassMeans(reference: Tensor, candidate: Tensor, rule: Rule, root: real -> real, r: Report)
    requires WellShaped(reference) && WellShaped(candidate) && (rule.Float? ==> rule.floor > 0.0)
    requires IsVerdict(reference, candidate, rule, root, r)
    ensures Passes(r) <==>
              && reference.shape == candidate.shape && reference.dtype == candidate.dtype && reference.values != []
              && reference.finite && candidate.finite
              && match rule
                 case Exact => reference.kind in "biuf" && reference.values == candidate.values
                 case Float(maxAbs, relative, floor) =>
                   && reference.kind == 'f' && |reference.values| == |candidate.values|
                   && (forall i | 0 <= i < |reference.values| :: -maxAbs <= candidate.values[i] - reference.values[i] <= maxAbs)
                   && Norm(Delta(reference.values, candidate.values), root) <= relative * Max(Norm(reference.values, root), floor)
  {
    hide Norm, WellShaped, Mismatches;
    if reference.shape == candidate.shape {
      SameSize(reference, candidate);
      NoMismatches(reference.values, candidate.values);
    }
    if Comparable(reference, candidate, rule) && rule.Float? {
      var d := Delta(reference.values, candidate.values);
      QuotientWithin(Norm(d, root), Max(Norm(reference.values, root), rule.floor), rule.relative);
      forall i | 0 <= i < |d| ensures d[i] == candidate.values[i] - reference.values[i] && Abs(d[i]) <= Abs(d[r.worst]) {
      }
    }
  }

  lemma QuotientWithin(n: real, d: real, limit: real)
    requires d > 0.0
    ensures n / d <= limit <==> n <= limit * d
  {
    var q := n / d;
    assert q * d == n;
    if q <= limit {
      assert (limit - q) * d >= 0.0;
    } else {
      assert (q - limit) * d > 0.0;
    }
  }
}
