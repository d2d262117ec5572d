/**
 The calibrators' conditions and limits in plain numbers, element by element.
 */
module CalibrationNumbers {
  import opened Parity
  import opened Calibration
  import opened Reals

  /** No element is further from zero than `peak`, and one is as far. */
  ghost predicate IsPeak(values: seq<real>, peak: real) {
    && (forall i | 0 <= i < |values| :: -peak <= values[i] <= peak)
    && exists i :: 0 <= i < |values| && (values[i] == peak || values[i] == -peak)
  }

  lemma PeakIsLargest(values: seq<real>, peak: real)
    requires IsPeak(values, peak)
    ensures Largest(values) == peak >= 0.0
  {
    var k :| 0 <= k < |values| && (values[k] == peak || values[k] == -peak);
    LargestAt(values, k);
  }

  lemma LargestIsPeak(values: seq<real>)
    requires values != []
    ensures IsPeak(values, Largest(values))
  {
    hide Largest;
    var k := FarthestOf(values);
    LargestAt(values, k);
  }

  lemma {:induction false} FarthestOf(values: seq<real>) returns (k: nat)
    requires values != []
    ensures k < |values| && forall i | 0 <= i < |values| :: Abs(values[i]) <= Abs(values[k])
  {
    var init, last := values[..|values| - 1], |values| - 1;
    k := last;
    if init != [] {
      var j := FarthestOf(init);
      if Abs(init[j]) > Abs(values[last]) {
        k := j;
      }
      forall i | 0 <= i < |values| ensures Abs(values[i]) <= Abs(values[k]) {
        if i < last { assert values[i] == init[i]; }
      }
    }
  }

  /** The control run can be measured against the base run: same shape and type, not
      empty, floating point, every element finite. */
  predicate SameField(base: Tensor, control: Tensor) {
    && base.shape == control.shape && base.dtype == control.dtype
    && base.values != [] && base.kind == 'f' && base.finite && control.finite
  }

  /** `factor` times every element's deviation is at most `cap`, and `factor` times the norm
      of all deviations at most the share of the base run's norm. */
  ghost predicate Close(base: Tensor, control: Tensor, root: real -> real, factor: real, cap: real, share: real) {
    && SameField(base, control) && |control.values| == |base.values|
    && (forall i | 0 <= i < |base.values| ::
          var x := control.values[i] - base.values[i];
          && -cap <= factor * x <= cap
          && -1000000000000000000000000000000.0 <= x <= 1000000000000000000000000000000.0)
    && factor * Norm(Delta(base.values, control.values), root) <= share * Max(Norm(base.values, root), 0.000000000001)
  }

  lemma QuotientMeans(n: real, d: real, factor: real, share: real)
    requires d > 0.0 && factor > 0.0
    ensures factor * (n / d) <= share <==> factor * n <= share * d
  {
    var q := n / d;
    assert q * d == n;
    var x := factor * q;
    assert x * d == factor * n;
    if x <= share {
      assert (share - x) * d >= 0.0;
    } else {
      assert (x - share) * d > 0.0;
    }
  }

  lemma CloseMeans(base: Tensor, control: Tensor, root: real -> real, factor: real, cap: real, share: real)
    requires IsSqrt(root) && WellShaped(base) && WellShaped(control)
    requires factor == 1.0 || factor == 2.0 || factor == 4.0
    requires share <= 1.0
    ensures Fits(base, control, root, factor, cap, share) <==> Close(base, control, root, factor, cap, share)
  {
    hide IsSqrt, Norm, Largest, WellShaped;
    if SameField(base, control) {
      SameCount(base, control);
      var d := Delta(base.values, control.values);
      var scale, n := Max(Norm(base.values, root), 0.000000000001), Norm(d, root);
      QuotientMeans(n, scale, factor, share);
      LargestIsPeak(d);
      var e := Largest(d);
      forall i | 0 <= i < |d| ensures d[i] == control.values[i] - base.values[i] && -e <= d[i] <= e {
      }
      var k :| 0 <= k < |d| && (d[k] == e || d[k] == -e);
      assert d[k] == control.values[k] - base.values[k];
      assert RelativeError(base, control, root) == n / scale;
    }
  }

  lemma SameCount(base: Tensor, control: Tensor)
    requires WellShaped(base) && WellShaped(control) && base.shape == control.shape
    ensures |base.values| == |control.values|
  {
  }

  /** A backbone tensor is calibrated exactly if it is a single-precision signal that is
      not zero everywhere, and of each control twice the deviation, or with clipping
      the deviation itself, is at most a tenth of the peak, or 0.0001 if that is more,
      and five percent in norm. */
  lemma BackboneNumbers(base: Tensor, cpu: Tensor, auto: Tensor, clip: bool, root: real -> real, peak: real)
    requires IsSqrt(root) && WellShaped(base) && WellShaped(cpu) && WellShaped(auto) && IsPeak(base.values, peak)
    ensures BackboneFits(base, cpu, auto, clip, root)
            <==> var factor, cap := if clip then 1.0 else 2.0, if 0.1 * peak > 0.0001 then 0.1 * peak else 0.0001;
                 && base.dtype == "float32" && peak > 0.0
                 && Close(base, cpu, root, factor, cap, 0.05) && Close(base, auto, root, factor, cap, 0.05)
  {
    hide IsSqrt, WellShaped, Close, Fits, Largest, IsPeak;
    PeakIsLargest(base.values, peak);
    var factor := if clip then 1.0 else 2.0;
    CloseMeans(base, cpu, root, factor, BackboneCap(peak), 0.05);
    CloseMeans(base, auto, root, factor, BackboneCap(peak), 0.05);
  }

  /** A final field is calibrated exactly if twice the deviation of each control is at most
      0.01 for a metric one, two for pixels and, for others, a tenth of the peak or
      0.0001, and five percent in norm. */
  lemma BodyNumbers(kind: FieldKind, base: Tensor, math: Tensor, compiled: Tensor, root: real -> real, peak: real)
    requires IsSqrt(root) && WellShaped(base) && WellShaped(math) && WellShaped(compiled) && IsPeak(base.values, peak)
    ensures BodyFits(kind, base, math, compiled, root)
            <==> var cap := if kind == Metric then 0.01 else if kind == Pixels then 2.0
                            else if 0.1 * peak > 0.0001 then 0.1 * peak else 0.0001;
                 Close(base, math, root, 2.0, cap, 0.05) && Close(base, compiled, root, 2.0, cap, 0.05)
  {
    hide IsSqrt, WellShaped, Close, Fits, Largest, IsPeak;
    PeakIsLargest(base.values, peak);
    CloseMeans(base, math, root, 2.0, BodyCap(kind, peak), 0.05);
    CloseMeans(base, compiled, root, 2.0, BodyCap(kind, peak), 0.05);
  }

  /** An activation is calibrated exactly if the accelerator's run is single precision and
      four times the other run's deviation from it is at most a ten-thousandth of its
      peak, or 0.0001 if that is more, and a thousandth in norm. */
  lemma ActivationNumbers(cpu: Tensor, cuda: Tensor, root: real -> real, peak: real)
    requires IsSqrt(root) && WellShaped(cpu) && WellShaped(cuda) && IsPeak(cuda.values, peak)
    ensures ActivationFits(cpu, cuda, root)
            <==> && cuda.dtype == "float32"
                 && Close(cuda, cpu, root, 4.0, if 0.0001 * peak > 0.0001 then 0.0001 * peak else 0.0001, 0.001)
  {
    hide IsSqrt, WellShaped, Close, Fits, Largest, IsPeak;
    PeakIsLargest(cuda.values, peak);
    CloseMeans(cuda, cpu, root, 4.0, DinoCap(peak), 0.001);
  }

  /** The larger deviation of the two controls, and their larger share of the norm. */
  ghost predicate Variation(base: Tensor, first: Tensor, second: Tensor, root: real -> real, e: real, q: real)
    requires |base.values| == |first.values| == |second.values|
  {
    && IsPeak(Delta(base.values, first.values) + Delta(base.values, second.values), e)
    && var scale := Max(Norm(base.values, root), 0.000000000001);
       q * scale == Max(Norm(Delta(base.values, first.values), root), Norm(Delta(base.values, second.values), root))
  }

  function Limit(floor: real, variation: real, cap: real, clip: bool): real {
    var twice := if 2.0 * variation > floor then 2.0 * variation else floor;
    if clip && cap < twice then cap else twice
  }

  lemma LargestOfBoth(a: seq<real>, b: seq<real>, e: real)
    requires a != [] && b != [] && IsPeak(a + b, e)
    ensures Max(Largest(a), Largest(b)) == e
  {
    hide Largest;
    LargestIsPeak(a);
    LargestIsPeak(b);
    var c := a + b;
    forall i | 0 <= i < |a| ensures -e <= a[i] <= e { assert a[i] == c[i]; }
    forall i | 0 <= i < |b| ensures -e <= b[i] <= e { assert b[i] == c[|a| + i]; }
    var k :| 0 <= k < |c| && (c[k] == e || c[k] == -e);
    assert if k < |a| then c[k] == a[k] else c[k] == b[k - |a|];
  }

  lemma LargerShare(n1: real, n2: real, scale: real, q: real)
    requires scale > 0.0 && q * scale == Max(n1, n2)
    ensures Max(n1 / scale, n2 / scale) == q
  {
    var q1, q2 := n1 / scale, n2 / scale;
    assert q1 * scale == n1 && q2 * scale == n2;
    SameQuotient(q, q1, scale);
    SameQuotient(q, q2, scale);
    if q1 < q2 {
      assert (q2 - q1) * scale > 0.0;
    } else {
      assert (q1 - q2) * scale >= 0.0;
    }
  }

  lemma SameQuotient(q: real, p: real, scale: real)
    requires scale > 0.0
    ensures q * scale == p * scale ==> q == p
  {
    if q != p {
      var z := q - p;
      assert z * scale == q * scale - p * scale;
      assert z > 0.0 ==> z * scale > 0.0;
      assert z < 0.0 ==> (-z) * scale > 0.0;
    }
  }

  /** The limits of a calibrated backbone tensor: twice the larger variation, at least
      0.0001 and 0.00002, and with clipping no more than the caps. */
  lemma BackboneLimit(rule: Rule, base: Tensor, cpu: Tensor, auto: Tensor, clip: bool, root: real -> real, peak: real, e: real, q: real)
    requires WellShaped(base) && WellShaped(cpu) && WellShaped(auto) && |base.values| == |cpu.values| == |auto.values|
    requires BackboneRule(rule, base, cpu, auto, clip, root) && IsPeak(base.values, peak) && Variation(base, cpu, auto, root, e, q)
    ensures var cap := if 0.1 * peak > 0.0001 then 0.1 * peak else 0.0001;
            rule == Float(Limit(0.0001, e, cap, clip), Limit(0.00002, q, 0.05, clip), 0.000000000001)
  {
    hide WellShaped, Calibrated, Largest, Norm, IsPeak;
    PeakIsLargest(base.values, peak);
    Varies(base, cpu, auto, root, e, q, peak);
  }

  lemma BodyLimit(rule: Rule, kind: FieldKind, base: Tensor, math: Tensor, compiled: Tensor, root: real -> real, peak: real, e: real, q: real)
    requires WellShaped(base) && WellShaped(math) && WellShaped(compiled) && |base.values| == |math.values| == |compiled.values|
    requires BodyRule(rule, kind, base, math, compiled, root) && IsPeak(base.values, peak) && Variation(base, math, compiled, root, e, q)
    ensures rule == Float(Limit(0.0001, e, 0.0, false), Limit(0.00002, q, 0.0, false), 0.000000000001)
  {
    hide WellShaped, Calibrated, Largest, Norm, IsPeak;
    Varies(base, math, compiled, root, e, q, peak);
  }

  lemma Varies(base: Tensor, first: Tensor, second: Tensor, root: real -> real, e: real, q: real, peak: real)
    requires |base.values| == |first.values| == |second.values|
    requires Variation(base, first, second, root, e, q) && IsPeak(base.values, peak)
    ensures Max(ErrorOf(base, first), ErrorOf(base, second)) == e
    ensures Max(RelativeError(base, first, root), RelativeError(base, second, root)) == q
  {
    assert base.values != [];
    hide Largest, Norm, IsPeak;
    var a, b := Delta(base.values, first.values), Delta(base.values, second.values);
    LargestOfBoth(a, b, e);
    LargerShare(Norm(a, root), Norm(b, root), Max(Norm(base.values, root), 0.000000000001), q);
  }

  /** The limits of a calibrated activation: four times the deviation, at least 0.0001
      and 0.00002. */
  lemma ActivationLimit(rule: Rule, cpu: Tensor, cuda: Tensor, root: real -> real, e: real, q: real)
    requires WellShaped(cpu) && WellShaped(cuda) && |cpu.values| == |cuda.values|
    requires ActivationRule(rule, cpu, cuda, root) && IsPeak(Delta(cuda.values, cpu.values), e)
    requires q * Max(Norm(cuda.values, root), 0.000000000001) == Norm(Delta(cuda.values, cpu.values), root)
    ensures rule == Float(if 4.0 * e > 0.0001 then 4.0 * e else 0.0001, if 4.0 * q > 0.00002 then 4.0 * q else 0.00002, 0.000000000001)
  {
    hide WellShaped, Calibrated, Largest, Norm, IsPeak;
    var d, scale := Delta(cuda.values, cpu.values), Max(Norm(cuda.values, root), 0.000000000001);
    PeakIsLargest(d, e);
    LargerShare(Norm(d, root), Norm(d, root), scale, q);
  }

  /** The rule of a single operation, from its measured control: the reference must be
      single precision, the deviation at most 0.01 for a softmax output and otherwise a
      ten-thousandth of the peak or 0.0001, and four times the relative error at most a
      thousandth.  The absolute limit is cut off at that ceiling. */
  lemma OperationNumbers(float32: bool, pass: bool, e: real, q: real, l2: real, worst: nat, peak: real, probs: bool)
    requires e >= 0.0 && q >= 0.0
    ensures var r := OperationRule(Control(float32, Measured(pass, e, q, l2, worst)), peak, probs);
            var cap := if probs then 0.01 else if 0.0001 * peak > 0.0001 then 0.0001 * peak else 0.0001;
            if float32 && e <= cap && 4.0 * q <= 0.001 then
              && r.Success? && r.value.Float? && r.value.floor == 0.000000000001
              && r.value.maxAbs == (var four := if 4.0 * e > 0.0001 then 4.0 * e else 0.0001; if four > cap then cap else four)
              && r.value.relative == (if 4.0 * q > 0.00002 then 4.0 * q else 0.00002)
            else r.Failure?
  {
    if !float32 {
      assert OperationRule(Control(float32, Measured(pass, e, q, l2, worst)), peak, probs).Failure?;
    }
  }
}
