/**
 The calibrators: tolerance rules derived from original control runs.  Every rule
 that comes out lets its own controls pass and respects the stated ceilings.
 */
module Calibration {
  import opened Wrappers
  import opened Parity
  import opened Reals

  const FLOOR := 0.000000000001
  const ABSOLUTE_FLOOR := 0.0001
  const RELATIVE_FLOOR := 0.00002

  /** What a control's comparison report says, with the precision of its reference. */
  datatype Control = Control(float32: bool, report: Report)

  function AbsOf(c: Control): real {
    if c.report.Measured? then c.report.maxAbs else 0.0
  }

  function RelativeOf(c: Control): real {
    if c.report.Measured? then c.report.relative else 0.0
  }

  predicate ValidControl(c: Control) {
    c.report.Measured? && c.report.pass && c.report.maxAbs >= 0.0 && c.report.relative >= 0.0
  }

  /** A rule under which a control with this report passes. */
  predicate Admits(rule: Rule, r: Report) {
    rule.Float? && rule.floor == FLOOR && r.Measured? && r.maxAbs <= rule.maxAbs && r.relative <= rule.relative
  }

  function LargestAbs(controls: seq<Control>): real
    requires controls != []
  {
    var last := AbsOf(controls[|controls| - 1]);
    if |controls| == 1 then last else Max(LargestAbs(controls[..|controls| - 1]), last)
  }

  function LargestRelative(controls: seq<Control>): real
    requires controls != []
  {
    var last := RelativeOf(controls[|controls| - 1]);
    if |controls| == 1 then last else Max(LargestRelative(controls[..|controls| - 1]), last)
  }

  lemma {:induction false} LargestBound(controls: seq<Control>)
    requires controls != [] && forall i :: 0 <= i < |controls| ==> ValidControl(controls[i])
    ensures forall i :: 0 <= i < |controls| ==> 0.0 <= AbsOf(controls[i]) <= LargestAbs(controls)
    ensures forall i :: 0 <= i < |controls| ==> 0.0 <= RelativeOf(controls[i]) <= LargestRelative(controls)
    ensures exists i :: 0 <= i < |controls| && AbsOf(controls[i]) == LargestAbs(controls)
    ensures exists i :: 0 <= i < |controls| && RelativeOf(controls[i]) == LargestRelative(controls)
  {
    var last := |controls| - 1;
    assert ValidControl(controls[last]);
    if |controls| > 1 {
      var init := controls[..last];
      LargestBound(init);
      var i :| 0 <= i < |init| && AbsOf(init[i]) == LargestAbs(init);
      var j :| 0 <= j < |init| && RelativeOf(init[j]) == LargestRelative(init);
      assert controls[i] == init[i] && controls[j] == init[j];
      forall k | 0 <= k < |controls|
        ensures 0.0 <= AbsOf(controls[k]) <= LargestAbs(controls)
        ensures 0.0 <= RelativeOf(controls[k]) <= LargestRelative(controls)
      {
        if k < last {
          assert init[k] == controls[k];
        }
      }
    }
  }

  // The backbone's BF16 stages.

  function BackboneCap(peak: real): real {
    Max(ABSOLUTE_FLOOR, 0.1 * peak)
  }

  predicate AnyInvalid(controls: seq<Control>) {
    exists i :: 0 <= i < |controls| && !(controls[i].float32 && ValidControl(controls[i]))
  }

  predicate AnyOver(controls: seq<Control>, cap: real) {
    exists i :: 0 <= i < |controls| && (AbsOf(controls[i]) > cap || RelativeOf(controls[i]) > 0.05)
  }

  /** Twice the largest variation of the controls; with `clip`, no more than the caps. */
  function BackboneLimits(controls: seq<Control>, peak: real, clip: bool): Result<Rule> {
    if controls == [] || peak <= 0.0 then Failure("invalid reference signal")
    else if AnyInvalid(controls) then Failure("invalid original BF16 control")
    else
      var absolute := Max(ABSOLUTE_FLOOR, 2.0 * LargestAbs(controls));
      var relative := Max(RELATIVE_FLOOR, 2.0 * LargestRelative(controls));
      var cap := BackboneCap(peak);
      if clip then
        if AnyOver(controls, cap) then Failure("observed upstream variation exceeds calibration safety cap")
        else Success(Float(Min(absolute, cap), Min(relative, 0.05), FLOOR))
      else if relative > 0.05 || absolute > cap then Failure("upstream variation exceeds calibration safety cap")
      else Success(Float(absolute, relative, FLOOR))
  }

  lemma OverMeans(controls: seq<Control>, cap: real)
    requires controls != [] && !AnyInvalid(controls)
    ensures AnyOver(controls, cap) <==> LargestAbs(controls) > cap || LargestRelative(controls) > 0.05
    ensures LargestAbs(controls) >= 0.0 && LargestRelative(controls) >= 0.0
  {
    hide LargestAbs, LargestRelative, AbsOf, RelativeOf;
    forall i | 0 <= i < |controls| ensures ValidControl(controls[i]) {
    }
    LargestBound(controls);
  }

  /** The rule admits every control and stays between the floors and the caps. */
  lemma BackboneSound(controls: seq<Control>, peak: real, clip: bool)
    requires BackboneLimits(controls, peak, clip).Success?
    ensures
      var rule := BackboneLimits(controls, peak, clip).value;
      && (forall i :: 0 <= i < |controls| ==> Admits(rule, controls[i].report))
      && ABSOLUTE_FLOOR <= rule.maxAbs <= BackboneCap(peak)
      && RELATIVE_FLOOR <= rule.relative <= 0.05
  {
    hide LargestAbs, LargestRelative;
    forall i | 0 <= i < |controls| ensures controls[i].float32 && ValidControl(controls[i]) {
    }
    LargestBound(controls);
  }

  /** Clipping rescues exactly the calibrations whose observed variation fits the
      caps but whose doubled variation does not, and changes no rule that needed none. */
  lemma ClipExtends(controls: seq<Control>, peak: real)
    requires controls != [] && peak > 0.0
    requires forall i :: 0 <= i < |controls| ==> controls[i].float32 && ValidControl(controls[i])
    ensures BackboneLimits(controls, peak, false).Success? ==>
              BackboneLimits(controls, peak, true) == BackboneLimits(controls, peak, false)
    ensures BackboneLimits(controls, peak, true).Success? <==>
              LargestAbs(controls) <= BackboneCap(peak) && LargestRelative(controls) <= 0.05
    ensures BackboneLimits(controls, peak, false).Success? <==>
              2.0 * LargestAbs(controls) <= BackboneCap(peak) && 2.0 * LargestRelative(controls) <= 0.05
  {
    hide LargestAbs, LargestRelative, AnyOver, ValidControl;
    assert !AnyInvalid(controls);
    hide AnyInvalid;
    OverMeans(controls, BackboneCap(peak));
  }

  // The trained F32 activations, and single operations.

  function DinoLimits(c: Control): Result<Rule> {
    if !c.report.Measured? || !c.report.pass || !c.float32 then Failure("invalid F32 original control")
    else
      var absolute := Max(ABSOLUTE_FLOOR, 4.0 * c.report.maxAbs);
      var relative := Max(RELATIVE_FLOOR, 4.0 * c.report.relative);
      if relative > 0.001 then Failure("original control unstable; cannot calibrate")
      else Success(Float(absolute, relative, FLOOR))
  }

  function DinoCap(peak: real): real {
    Max(ABSOLUTE_FLOOR, peak * 0.0001)
  }

  /** The calibrator's rule for one tensor: the limits, unless they are large for the signal. */
  function DinoRule(c: Control, peak: real): Result<Rule> {
    match DinoLimits(c)
    case Failure(e) => Failure(e)
    case Success(rule) => if rule.maxAbs > DinoCap(peak) then Failure("original absolute discrepancy too large") else Success(rule)
  }

  /** An operation's rule: its report need not pass, and `probs` marks softmax outputs. */
  function OperationRule(c: Control, peak: real, probs: bool): Result<Rule> {
    if !c.report.Measured? then Failure("invalid original operation control")
    else
      var cap := if probs then 0.01 else DinoCap(peak);
      match DinoLimits(c.(report := c.report.(pass := true)))
      case Failure(e) => Failure(e)
      case Success(rule) =>
        if c.report.maxAbs > cap then Failure("original absolute discrepancy exceeds operation ceiling")
        else Success(rule.(maxAbs := Min(rule.maxAbs, cap)))
  }

  lemma DinoSound(c: Control, peak: real)
    requires DinoRule(c, peak).Success? && c.report.maxAbs >= 0.0 && c.report.relative >= 0.0
    ensures
      var rule := DinoRule(c, peak).value;
      Admits(rule, c.report) && rule.maxAbs <= DinoCap(peak) && RELATIVE_FLOOR <= rule.relative <= 0.001
  {
  }

  lemma OperationSound(c: Control, peak: real, probs: bool)
    requires OperationRule(c, peak, probs).Success? && c.report.maxAbs >= 0.0 && c.report.relative >= 0.0
    ensures
      var rule := OperationRule(c, peak, probs).value;
      && Admits(rule, c.report)
      && rule.maxAbs <= (if probs then 0.01 else DinoCap(peak)) && RELATIVE_FLOOR <= rule.relative <= 0.001
  {
  }

  /** Both calibrations of F32 signals succeed exactly when the control, four times its
      relative error and, for whole activations, four times its absolute error fit; an
      operation's absolute limit is cut off at its ceiling instead. */
  lemma DinoExact(c: Control, peak: real, probs: bool)
    requires ValidControl(c) && c.float32
    ensures DinoRule(c, peak).Success? <==> 4.0 * c.report.maxAbs <= DinoCap(peak) && 4.0 * c.report.relative <= 0.001
    ensures OperationRule(c, peak, probs).Success? <==>
              c.report.maxAbs <= (if probs then 0.01 else DinoCap(peak)) && 4.0 * c.report.relative <= 0.001
    ensures DinoRule(c, peak).Success? ==> OperationRule(c, peak, false) == DinoRule(c, peak)
  {
  }

  // The final body outputs.

  datatype FieldKind = Metric | Pixels | Other

  function BodyCap(kind: FieldKind, peak: real): real {
    match kind case Metric => 0.01 case Pixels => 2.0 case Other => Max(ABSOLUTE_FLOOR, 0.1 * peak)
  }

  function BodyLimits(kind: FieldKind, controls: seq<Control>, peak: real): Result<Rule> {
    if controls == [] || peak < 0.0 then Failure("invalid original reference")
    else if exists i :: 0 <= i < |controls| && !ValidControl(controls[i]) then Failure("invalid original control")
    else
      var absolute := Max(ABSOLUTE_FLOOR, 2.0 * LargestAbs(controls));
      var relative := Max(RELATIVE_FLOOR, 2.0 * LargestRelative(controls));
      if absolute > BodyCap(kind, peak) || relative > 0.05 then Failure("unstable original final-body control")
      else Success(Float(absolute, relative, FLOOR))
  }

  lemma BodySound(kind: FieldKind, controls: seq<Control>, peak: real)
    requires BodyLimits(kind, controls, peak).Success?
    ensures
      var rule := BodyLimits(kind, controls, peak).value;
      && (forall i :: 0 <= i < |controls| ==> Admits(rule, controls[i].report))
      && rule.maxAbs <= BodyCap(kind, peak) && RELATIVE_FLOOR <= rule.relative <= 0.05
  {
    forall i | 0 <= i < |controls| ensures ValidControl(controls[i]) {
    }
    LargestBound(controls);
  }

  /** The calibration of a field succeeds exactly when its variation, doubled, fits. */
  lemma BodyExact(kind: FieldKind, controls: seq<Control>, peak: real)
    requires controls != [] && peak >= 0.0 && forall i :: 0 <= i < |controls| ==> ValidControl(controls[i])
    ensures BodyLimits(kind, controls, peak).Success? <==>
              2.0 * LargestAbs(controls) <= BodyCap(kind, peak) && 2.0 * LargestRelative(controls) <= 0.05
  {
    hide LargestAbs, LargestRelative, ValidControl;
  }

  // Calibrating over arrays.

  /** The rule under which controls are measured: it fails only what is not comparable. */
  const DIAGNOSTIC := Float(1000000000000000000000000000000.0, 1000000000000000000000000000000.0, FLOOR)

  /** A control that a rule admits passes when its arrays are compared under the rule. */
  lemma AdmittedPasses(reference: Tensor, candidate: Tensor, rule: Rule, root: real -> real, measured: Report, verdict: Report)
    requires WellShaped(reference) && WellShaped(candidate)
    requires rule.Float? && rule.floor == FLOOR
    requires IsVerdict(reference, candidate, DIAGNOSTIC, root, measured) && Admits(rule, measured)
    requires IsVerdict(reference, candidate, rule, root, verdict)
    ensures Passes(verdict)
  {
    FirstWorstUnique(Delta(reference.values, candidate.values), measured.worst, verdict.worst);
  }

  /** The largest magnitude of an array. */
  function Largest(d: seq<real>): (m: real)
    ensures m >= 0.0
  {
    if d == [] then 0.0 else Max(Largest(d[..|d| - 1]), Abs(d[|d| - 1]))
  }

  lemma {:induction false} LargestAt(d: seq<real>, k: nat)
    requires k < |d| && forall i :: 0 <= i < |d| ==> Abs(d[i]) <= Abs(d[k])
    ensures Largest(d) == Abs(d[k])
  {
    var init := d[..|d| - 1];
    if k < |init| {
      forall i | 0 <= i < |init| ensures Abs(init[i]) <= Abs(init[k]) {
        assert init[i] == d[i];
      }
      LargestAt(init, k);
      assert Abs(d[|d| - 1]) <= Abs(d[k]);
    } else {
      LargestBelow(init, Abs(d[k]));
    }
  }

  lemma {:induction false} LargestBelow(d: seq<real>, bound: real)
    requires bound >= 0.0 && forall i :: 0 <= i < |d| ==> Abs(d[i]) <= bound
    ensures Largest(d) <= bound
  {
    if d != [] {
      LargestBelow(d[..|d| - 1], bound);
      assert Abs(d[|d| - 1]) <= bound;
    }
  }

  method Peak(values: seq<real>) returns (p: real)
    requires values != []
    ensures p == Largest(values)
  {
    var k := ArgMax(values);
    LargestAt(values, k);
    p := Abs(values[k]);
  }

  // What a control run is, without reference to how it is measured.

  function ErrorOf(base: Tensor, control: Tensor): real
    requires |base.values| == |control.values|
  {
    Largest(Delta(base.values, control.values))
  }

  ghost function RelativeError(base: Tensor, control: Tensor, root: real -> real): real
    requires |base.values| == |control.values|
  {
    Norm(Delta(base.values, control.values), root) / Max(Norm(base.values, root), FLOOR)
  }

  /** The control can be compared with the base run, and its errors are not absurd. */
  ghost predicate Usable(base: Tensor, control: Tensor, root: real -> real)
    requires WellShaped(base) && WellShaped(control)
  {
    && Comparable(base, control, DIAGNOSTIC)
    && ErrorOf(base, control) <= DIAGNOSTIC.maxAbs && RelativeError(base, control, root) <= DIAGNOSTIC.relative
  }

  /** `factor` times the control's errors stay below the caps. */
  ghost predicate Fits(base: Tensor, control: Tensor, root: real -> real, factor: real, cap: real, relativeCap: real)
    requires WellShaped(base) && WellShaped(control)
  {
    && Usable(base, control, root)
    && factor * ErrorOf(base, control) <= cap && factor * RelativeError(base, control, root) <= relativeCap
  }

  /** What the report of a control says of its arrays. */
  lemma ReportMeans(base: Tensor, control: Tensor, root: real -> real, r: Report)
    requires IsSqrt(root) && WellShaped(base) && WellShaped(control) && IsVerdict(base, control, DIAGNOSTIC, root, r)
    ensures r.Measured? && r.pass <==> Usable(base, control, root)
    ensures Comparable(base, control, DIAGNOSTIC) ==> |base.values| == |control.values|
    ensures Usable(base, control, root) ==>
              && r.maxAbs == ErrorOf(base, control) && r.relative == RelativeError(base, control, root)
              && r.maxAbs >= 0.0 && r.relative >= 0.0
  {
    if r.Measured? {
      MeasuredPositive(base, control, root, r);
      LargestAt(Delta(base.values, control.values), r.worst);
    }
    hide IsSqrt, Norm, FirstWorst, Largest;
  }

  /** Under this rule both control arrays pass, whatever the chunk size. */
  ghost predicate Calibrated(rule: Rule, base: Tensor, cpu: Tensor, auto: Tensor, root: real -> real)
    requires WellShaped(base) && WellShaped(cpu) && WellShaped(auto)
  {
    && rule.Float? && rule.floor > 0.0
    && (forall r :: IsVerdict(base, cpu, rule, root, r) ==> Passes(r))
    && forall r :: IsVerdict(base, auto, rule, root, r) ==> Passes(r)
  }

  /** A limit derived from the largest error of two controls: twice that, at least the
      floor, and with `clip` at most the cap. */
  function Doubled(floor: real, first: real, second: real, cap: real, clip: bool): real {
    var limit := Max(floor, 2.0 * Max(first, second));
    if clip then Min(limit, cap) else limit
  }

  lemma LargestOfTwo(a: Control, b: Control)
    ensures LargestAbs([a, b]) == Max(AbsOf(a), AbsOf(b)) && LargestRelative([a, b]) == Max(RelativeOf(a), RelativeOf(b))
  {
    assert [a, b][..1] == [a];
    assert LargestAbs([a]) == AbsOf(a) && LargestRelative([a]) == RelativeOf(a);
  }

  /** The rule of one tensor of the backbone. */
  ghost predicate BackboneRule(rule: Rule, base: Tensor, cpu: Tensor, auto: Tensor, clip: bool, root: real -> real)
    requires WellShaped(base) && WellShaped(cpu) && WellShaped(auto)
    requires |base.values| == |cpu.values| == |auto.values|
  {
    var cap := BackboneCap(Largest(base.values));
    && Calibrated(rule, base, cpu, auto, root)
    && rule == Float(Doubled(ABSOLUTE_FLOOR, ErrorOf(base, cpu), ErrorOf(base, auto), cap, clip),
                     Doubled(RELATIVE_FLOOR, RelativeError(base, cpu, root), RelativeError(base, auto, root), 0.05, clip), FLOOR)
    && ABSOLUTE_FLOOR <= rule.maxAbs <= cap && RELATIVE_FLOOR <= rule.relative <= 0.05
  }

  /** One tensor can be calibrated: it is a single-precision signal, and each control,
      doubled unless `clip`, stays below the caps. */
  ghost predicate BackboneFits(base: Tensor, cpu: Tensor, auto: Tensor, clip: bool, root: real -> real)
    requires WellShaped(base) && WellShaped(cpu) && WellShaped(auto)
  {
    var peak := Largest(base.values);
    var factor := if clip then 1.0 else 2.0;
    && base.dtype == "float32" && peak > 0.0
    && Fits(base, cpu, root, factor, BackboneCap(peak), 0.05) && Fits(base, auto, root, factor, BackboneCap(peak), 0.05)
  }

  lemma BackboneDecides(controls: seq<Control>, peak: real, clip: bool)
    requires |controls| == 2 && peak > 0.0
    ensures BackboneLimits(controls, peak, clip).Success? <==>
              forall i :: 0 <= i < 2 ==>
                && controls[i].float32 && ValidControl(controls[i])
                && (if clip then 1.0 else 2.0) * AbsOf(controls[i]) <= BackboneCap(peak)
                && (if clip then 1.0 else 2.0) * RelativeOf(controls[i]) <= 0.05
    ensures BackboneLimits(controls, peak, clip).Success? ==>
              BackboneLimits(controls, peak, clip).value
              == Float(Doubled(ABSOLUTE_FLOOR, AbsOf(controls[0]), AbsOf(controls[1]), BackboneCap(peak), clip),
                       Doubled(RELATIVE_FLOOR, RelativeOf(controls[0]), RelativeOf(controls[1]), 0.05, clip), FLOOR)
  {
    assert controls == [controls[0], controls[1]];
    LargestOfTwo(controls[0], controls[1]);
    hide LargestAbs, LargestRelative;
  }

  method BackboneTensor(base: Tensor, cpu: Tensor, auto: Tensor, clip: bool, chunk: nat, root: real -> real) returns (r: Result<Rule>)
    requires IsSqrt(root) && chunk > 0 && WellShaped(base) && WellShaped(cpu) && WellShaped(auto)
    ensures r.Success? <==> BackboneFits(base, cpu, auto, clip, root)
    ensures r.Success? ==> |base.values| == |cpu.values| == |auto.values| && BackboneRule(r.value, base, cpu, auto, clip, root)
  {
    hide IsSqrt, IsVerdict, BackboneLimits, WellShaped, Calibrated, Largest, ErrorOf, RelativeError;
    var first := CompareArray(base, cpu, DIAGNOSTIC, chunk, root);
    var second := CompareArray(base, auto, DIAGNOSTIC, chunk, root);
    ReportMeans(base, cpu, root, first);
    ReportMeans(base, auto, root, second);
    if |base.values| == 0 {
      return Failure("invalid reference signal");
    }
    var peak := Peak(base.values);
    var float32 := base.dtype == "float32";
    var controls := [Control(float32, first), Control(float32, second)];
    if peak <= 0.0 {
      return Failure("invalid reference signal");
    }
    BackboneDecides(controls, peak, clip);
    assert controls[0].report == first && controls[1].report == second;
    r := BackboneLimits(controls, peak, clip);
    if r.Success? {
      BackboneSound(controls, peak, clip);
      assert Admits(r.value, controls[0].report) && Admits(r.value, controls[1].report);
      BothPass(r.value, base, cpu, auto, root, first, second);
    }
  }

  /** The backbone calibrator: one rule a tensor, from two control runs against the
      base run.  It succeeds exactly when every tensor can be calibrated. */
  method CalibrateBackbone(base: seq<Tensor>, cpu: seq<Tensor>, auto: seq<Tensor>, clip: bool, chunk: nat, root: real -> real)
    returns (r: Result<seq<Rule>>)
    requires IsSqrt(root) && chunk > 0 && |base| == |cpu| == |auto|
    requires forall i :: 0 <= i < |base| ==> WellShaped(base[i]) && WellShaped(cpu[i]) && WellShaped(auto[i])
    ensures r.Success? <==> forall i :: 0 <= i < |base| ==> BackboneFits(base[i], cpu[i], auto[i], clip, root)
    ensures r.Success? ==>
      && |r.value| == |base|
      && forall i :: 0 <= i < |base| ==>
           && |base[i].values| == |cpu[i].values| == |auto[i].values|
           && BackboneRule(r.value[i], base[i], cpu[i], auto[i], clip, root)
  {
    hide IsSqrt, WellShaped, BackboneFits, BackboneRule;
    var rules: seq<Rule> := [];
    var i := 0;
    while i < |base|
      invariant 0 <= i <= |base| && |rules| == i
      invariant forall k :: 0 <= k < i ==> BackboneFits(base[k], cpu[k], auto[k], clip, root)
      invariant forall k :: 0 <= k < i ==>
        |base[k].values| == |cpu[k].values| == |auto[k].values| && BackboneRule(rules[k], base[k], cpu[k], auto[k], clip, root)
    {
      var rule := BackboneTensor(base[i], cpu[i], auto[i], clip, chunk, root);
      if rule.Failure? {
        return Failure(rule.error);
      }
      rules := rules + [rule.value];
      i := i + 1;
    }
    r := Success(rules);
  }

  lemma BothPass(rule: Rule, base: Tensor, cpu: Tensor, auto: Tensor, root: real -> real, first: Report, second: Report)
    requires WellShaped(base) && WellShaped(cpu) && WellShaped(auto)
    requires IsVerdict(base, cpu, DIAGNOSTIC, root, first) && IsVerdict(base, auto, DIAGNOSTIC, root, second)
    requires Admits(rule, first) && Admits(rule, second)
    ensures Calibrated(rule, base, cpu, auto, root)
  {
    hide IsVerdict, WellShaped, Passes;
    forall r | IsVerdict(base, cpu, rule, root, r) ensures Passes(r) {
      AdmittedPasses(base, cpu, rule, root, first, r);
    }
    forall r | IsVerdict(base, auto, rule, root, r) ensures Passes(r) {
      AdmittedPasses(base, auto, rule, root, second, r);
    }
  }

  /** The rule of one final field. */
  ghost predicate BodyRule(rule: Rule, kind: FieldKind, base: Tensor, math: Tensor, compiled: Tensor, root: real -> real)
    requires WellShaped(base) && WellShaped(math) && WellShaped(compiled)
    requires |base.values| == |math.values| == |compiled.values|
  {
    var cap := BodyCap(kind, Largest(base.values));
    && Calibrated(rule, base, math, compiled, root)
    && rule == Float(Doubled(ABSOLUTE_FLOOR, ErrorOf(base, math), ErrorOf(base, compiled), cap, false),
                     Doubled(RELATIVE_FLOOR, RelativeError(base, math, root), RelativeError(base, compiled, root), 0.05, false), FLOOR)
    && ABSOLUTE_FLOOR <= rule.maxAbs <= cap && RELATIVE_FLOOR <= rule.relative <= 0.05
  }

  ghost predicate BodyFits(kind: FieldKind, base: Tensor, math: Tensor, compiled: Tensor, root: real -> real)
    requires WellShaped(base) && WellShaped(math) && WellShaped(compiled)
  {
    var cap := BodyCap(kind, Largest(base.values));
    Fits(base, math, root, 2.0, cap, 0.05) && Fits(base, compiled, root, 2.0, cap, 0.05)
  }

  lemma BodyDecides(kind: FieldKind, controls: seq<Control>, peak: real)
    requires |controls| == 2 && peak >= 0.0
    ensures BodyLimits(kind, controls, peak).Success? <==>
              forall i :: 0 <= i < 2 ==>
                && ValidControl(controls[i])
                && 2.0 * AbsOf(controls[i]) <= BodyCap(kind, peak) && 2.0 * RelativeOf(controls[i]) <= 0.05
    ensures BodyLimits(kind, controls, peak).Success? ==>
              BodyLimits(kind, controls, peak).value
              == Float(Doubled(ABSOLUTE_FLOOR, AbsOf(controls[0]), AbsOf(controls[1]), BodyCap(kind, peak), false),
                       Doubled(RELATIVE_FLOOR, RelativeOf(controls[0]), RelativeOf(controls[1]), 0.05, false), FLOOR)
  {
    assert controls == [controls[0], controls[1]];
    LargestOfTwo(controls[0], controls[1]);
    hide LargestAbs, LargestRelative;
  }

  method BodyTensor(kind: FieldKind, base: Tensor, math: Tensor, compiled: Tensor, chunk: nat, root: real -> real) returns (r: Result<Rule>)
    requires IsSqrt(root) && chunk > 0 && WellShaped(base) && WellShaped(math) && WellShaped(compiled)
    ensures r.Success? <==> BodyFits(kind, base, math, compiled, root)
    ensures r.Success? ==> |base.values| == |math.values| == |compiled.values| && BodyRule(r.value, kind, base, math, compiled, root)
  {
    hide IsSqrt, IsVerdict, BodyLimits, WellShaped, Calibrated, Largest, ErrorOf, RelativeError;
    var first := CompareArray(base, math, DIAGNOSTIC, chunk, root);
    var second := CompareArray(base, compiled, DIAGNOSTIC, chunk, root);
    ReportMeans(base, math, root, first);
    ReportMeans(base, compiled, root, second);
    if |base.values| == 0 {
      return Failure("invalid original reference");
    }
    var peak := Peak(base.values);
    var controls := [Control(true, first), Control(true, second)];
    BodyDecides(kind, controls, peak);
    r := BodyLimits(kind, controls, peak);
    if r.Success? {
      BodySound(kind, controls, peak);
      assert Admits(r.value, controls[0].report) && Admits(r.value, controls[1].report);
      BothPass(r.value, base, math, compiled, root, first, second);
    }
  }

  /** The body calibrator, over the final output fields. */
  method CalibrateBody(kinds: seq<FieldKind>, base: seq<Tensor>, math: seq<Tensor>, compiled: seq<Tensor>, chunk: nat, root: real -> real)
    returns (r: Result<seq<Rule>>)
    requires IsSqrt(root) && chunk > 0 && |kinds| == |base| == |math| == |compiled|
    requires forall i :: 0 <= i < |base| ==> WellShaped(base[i]) && WellShaped(math[i]) && WellShaped(compiled[i])
    ensures r.Success? <==> forall i :: 0 <= i < |base| ==> BodyFits(kinds[i], base[i], math[i], compiled[i], root)
    ensures r.Success? ==>
      && |r.value| == |base|
      && forall i :: 0 <= i < |base| ==>
           && |base[i].values| == |math[i].values| == |compiled[i].values|
           && BodyRule(r.value[i], kinds[i], base[i], math[i], compiled[i], root)
  {
    hide IsSqrt, WellShaped, BodyFits, BodyRule;
    var rules: seq<Rule> := [];
    var i := 0;
    while i < |base|
      invariant 0 <= i <= |base| && |rules| == i
      invariant forall k :: 0 <= k < i ==> BodyFits(kinds[k], base[k], math[k], compiled[k], root)
      invariant forall k :: 0 <= k < i ==>
        |base[k].values| == |math[k].values| == |compiled[k].values| && BodyRule(rules[k], kinds[k], base[k], math[k], compiled[k], root)
    {
      var rule := BodyTensor(kinds[i], base[i], math[i], compiled[i], chunk, root);
      if rule.Failure? {
        return Failure(rule.error);
      }
      rules := rules + [rule.value];
      i := i + 1;
    }
    r := Success(rules);
  }

  /** The rule of one activation: four times the discrepancy of the two runs. */
  ghost predicate ActivationRule(rule: Rule, cpu: Tensor, cuda: Tensor, root: real -> real)
    requires WellShaped(cpu) && WellShaped(cuda) && |cpu.values| == |cuda.values|
  {
    && Calibrated(rule, cuda, cpu, cpu, root)
    && rule == Float(Max(ABSOLUTE_FLOOR, 4.0 * ErrorOf(cuda, cpu)), Max(RELATIVE_FLOOR, 4.0 * RelativeError(cuda, cpu, root)), FLOOR)
    && rule.maxAbs <= DinoCap(Largest(cuda.values)) && rule.relative <= 0.001
  }

  ghost predicate ActivationFits(cpu: Tensor, cuda: Tensor, root: real -> real)
    requires WellShaped(cpu) && WellShaped(cuda)
  {
    cuda.dtype == "float32" && Fits(cuda, cpu, root, 4.0, DinoCap(Largest(cuda.values)), 0.001)
  }

  method DinoTensor(cpu: Tensor, cuda: Tensor, chunk: nat, root: real -> real) returns (r: Result<Rule>)
    requires IsSqrt(root) && chunk > 0 && WellShaped(cpu) && WellShaped(cuda)
    ensures r.Success? <==> ActivationFits(cpu, cuda, root)
    ensures r.Success? ==> |cpu.values| == |cuda.values| && ActivationRule(r.value, cpu, cuda, root)
  {
    hide IsSqrt, IsVerdict, WellShaped, Calibrated, Largest, ErrorOf, RelativeError;
    var report := CompareArray(cuda, cpu, DIAGNOSTIC, chunk, root);
    ReportMeans(cuda, cpu, root, report);
    if |cuda.values| == 0 {
      return Failure("empty tensor");
    }
    var peak := Peak(cuda.values);
    var control := Control(cuda.dtype == "float32", report);
    r := DinoRule(control, peak);
    if r.Success? {
      DinoSound(control, peak);
      BothPass(r.value, cuda, cpu, cpu, root, report, report);
    }
  }

  /** The activation calibrator: the second run is the reference, the first the control. */
  method CalibrateDino(cpu: seq<Tensor>, cuda: seq<Tensor>, chunk: nat, root: real -> real) returns (r: Result<seq<Rule>>)
    requires IsSqrt(root) && chunk > 0 && |cpu| == |cuda|
    requires forall i :: 0 <= i < |cpu| ==> WellShaped(cpu[i]) && WellShaped(cuda[i])
    ensures r.Success? <==> forall i :: 0 <= i < |cpu| ==> ActivationFits(cpu[i], cuda[i], root)
    ensures r.Success? ==>
      && |r.value| == |cpu|
      && forall i :: 0 <= i < |cpu| ==> |cpu[i].values| == |cuda[i].values| && ActivationRule(r.value[i], cpu[i], cuda[i], root)
  {
    hide IsSqrt, WellShaped, ActivationFits, ActivationRule;
    var rules: seq<Rule> := [];
    var i := 0;
    while i < |cpu|
      invariant 0 <= i <= |cpu| && |rules| == i
      invariant forall k :: 0 <= k < i ==> ActivationFits(cpu[k], cuda[k], root)
      invariant forall k :: 0 <= k < i ==> |cpu[k].values| == |cuda[k].values| && ActivationRule(rules[k], cpu[k], cuda[k], root)
    {
      var rule := DinoTensor(cpu[i], cuda[i], chunk, root);
      if rule.Failure? {
        return Failure(rule.error);
      }
      rules := rules + [rule.value];
      i := i + 1;
    }
    r := Success(rules);
  }

  /** Measured errors are never negative. */
  lemma MeasuredPositive(reference: Tensor, candidate: Tensor, root: real -> real, r: Report)
    requires IsSqrt(root) && WellShaped(reference) && WellShaped(candidate)
    requires IsVerdict(reference, candidate, DIAGNOSTIC, root, r) && r.Measured?
    ensures r.maxAbs >= 0.0 && r.relative >= 0.0
  {
    var d := Delta(reference.values, candidate.values);
    NotNegative(Norm(d, root), Max(r.referenceL2, FLOOR));
  }

  lemma NotNegative(x: real, y: real)
    requires x >= 0.0 && y > 0.0
    ensures x / y >= 0.0
  {
  }

  /** An operation's rule lets its own control arrays pass, too. */
  lemma OperationPasses(reference: Tensor, candidate: Tensor, probs: bool, peak: real, root: real -> real, measured: Report, verdict: Report)
    requires IsSqrt(root) && WellShaped(reference) && WellShaped(candidate)
    requires IsVerdict(reference, candidate, DIAGNOSTIC, root, measured)
    requires OperationRule(Control(true, measured), peak, probs).Success?
    requires IsVerdict(reference, candidate, OperationRule(Control(true, measured), peak, probs).value, root, verdict)
    ensures Passes(verdict)
  {
    hide IsVerdict, Passes;
    MeasuredPositive(reference, candidate, root, measured);
    OperationSound(Control(true, measured), peak, probs);
    AdmittedPasses(reference, candidate, OperationRule(Control(true, measured), peak, probs).value, root, measured, verdict);
  }
}
