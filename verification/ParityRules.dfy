/** The rules file, and the comparison of whole files tensor by tensor. */
module ParityRules {
  import opened Wrappers
  import opened Parity

  /** A rule as it is written: a field that is missing, of a wrong type or not finite is none. */
  datatype Entry = Entry(
    name: Option<string>,
    mode: string,
    maxAbs: Option<real>,
    relative: Option<real>,
    floor: Option<real>)

  predicate ValidLimit(v: Option<real>) {
    v.Some? && v.value >= 0.0
  }

  predicate ValidEntry(e: Entry) {
    && e.name.Some? && e.name.value != ""
    && (e.mode == "exact" || e.mode == "float")
    && (e.mode == "float" ==>
          ValidLimit(e.maxAbs) && ValidLimit(e.relative) && ValidLimit(e.floor) && e.floor.value > 0.0)
  }

  predicate ValidRules(entries: seq<Entry>) {
    && entries != []
    && (forall i :: 0 <= i < |entries| ==> ValidEntry(entries[i]))
    && forall i, j :: 0 <= i < j < |entries| ==> entries[i].name != entries[j].name
  }

  /** The rules file: a version that is not a number, a boundary that is not a string
      and a rule list that is not a list are none. */
  datatype RulesFile = RulesFile(version: Option<real>, boundary: Option<string>, tensors: Option<seq<Entry>>)

  /** What the script language strips from the ends of a string. */
  predicate IsSpace(c: char) {
    var n := c as int;
    || 9 <= n <= 13 || 28 <= n <= 32 || n == 0x85 || n == 0xa0 || n == 0x1680
    || 0x2000 <= n <= 0x200a || n == 0x2028 || n == 0x2029 || n == 0x202f || n == 0x205f || n == 0x3000
  }

  predicate Blank(s: string) {
    forall i | 0 <= i < |s| :: IsSpace(s[i])
  }

  predicate ValidFile(f: RulesFile) {
    && f.version == Some(1.0)
    && f.boundary.Some? && !Blank(f.boundary.value)
    && f.tensors.Some? && ValidRules(f.tensors.value)
  }

  /** The file must be of version 1 and name its boundary, every rule must be well
      formed, and no name may stand twice. */
  method ValidateRules(f: RulesFile) returns (r: Result<seq<Entry>>)
    ensures r.Success? <==> ValidFile(f)
    ensures r.Success? ==> f.tensors == Some(r.value)
  {
    hide IsSpace;
    if f.version != Some(1.0) {
      return Failure("unsupported rules schema");
    }
    if f.boundary.None? || Blank(f.boundary.value) {
      return Failure("rules must name the asserted boundary");
    }
    if f.tensors.None? || f.tensors.value == [] {
      return Failure("rules need a nonempty ordered tensor list");
    }
    var entries := f.tensors.value;
    var seen: set<string> := {};
    var i := 0;
    while i < |entries|
      invariant 0 <= i <= |entries|
      invariant forall k :: 0 <= k < i ==> ValidEntry(entries[k]) && entries[k].name.value in seen
      invariant forall n :: n in seen ==> exists k :: 0 <= k < i && entries[k].name == Some(n)
      invariant forall j, k :: 0 <= j < k < i ==> entries[j].name != entries[k].name
    {
      var e := entries[i];
      if e.name.None? || e.name.value == "" || e.name.value in seen {
        return Failure("tensor names must be nonempty and unique");
      }
      seen := seen + {e.name.value};
      if e.mode != "exact" && e.mode != "float" {
        assert !ValidEntry(entries[i]);
        return Failure("mode must be exact or float");
      }
      if e.mode == "float" {
        if !ValidLimit(e.maxAbs) || !ValidLimit(e.relative) || !ValidLimit(e.floor) || e.floor.value == 0.0 {
          assert !ValidEntry(entries[i]);
          return Failure("invalid or missing limit");
        }
      }
      i := i + 1;
    }
    r := Success(entries);
  }

  function RuleOf(e: Entry): (r: Rule)
    requires ValidEntry(e)
    ensures r.Float? ==> r.floor > 0.0
  {
    if e.mode == "exact" then Exact else Float(e.maxAbs.value, e.relative.value, e.floor.value)
  }

  function NameOf(e: Entry): string {
    if e.name.Some? then e.name.value else ""
  }

  function NamesOf(entries: seq<Entry>): set<string> {
    set i | 0 <= i < |entries| :: NameOf(entries[i])
  }

  predicate WellShapedAll(tensors: map<string, Tensor>) {
    forall n :: n in tensors ==> WellShaped(tensors[n])
  }

  /** Rule `i`'s verdict on its tensors. */
  ghost predicate VerdictAt(entries: seq<Entry>, i: nat, reference: map<string, Tensor>, candidate: map<string, Tensor>,
                            root: real -> real, r: Report)
    requires i < |entries| && ValidEntry(entries[i])
    requires NameOf(entries[i]) in reference && NameOf(entries[i]) in candidate
    requires WellShapedAll(reference) && WellShapedAll(candidate)
  {
    var n := NameOf(entries[i]);
    IsVerdict(reference[n], candidate[n], RuleOf(entries[i]), root, r)
  }

  /** Every tensor of the file in turn; the first that fails is kept. */
  method CompareAll(entries: seq<Entry>, reference: map<string, Tensor>, candidate: map<string, Tensor>, chunk: nat, root: real -> real)
    returns (results: seq<Report>, firstFailed: Option<string>)
    requires IsSqrt(root) && chunk > 0 && WellShapedAll(reference) && WellShapedAll(candidate)
    requires forall i :: 0 <= i < |entries| ==> ValidEntry(entries[i]) && NameOf(entries[i]) in reference && NameOf(entries[i]) in candidate
    ensures |results| == |entries|
    ensures forall i: nat :: i < |entries| ==> VerdictAt(entries, i, reference, candidate, root, results[i])
    ensures firstFailed.None? <==> forall i :: 0 <= i < |entries| ==> Passes(results[i])
    ensures firstFailed.Some? ==> exists k ::
      && 0 <= k < |entries| && !Passes(results[k]) && firstFailed == Some(NameOf(entries[k]))
      && forall i :: 0 <= i < k ==> Passes(results[i])
  {
    hide IsSqrt, IsVerdict, Passes, ValidEntry, WellShaped, NameOf;
    results, firstFailed := [], None;
    ghost var at := 0;
    var i := 0;
    while i < |entries|
      invariant 0 <= i <= |entries| && |results| == i
      invariant forall k: nat :: k < i ==> VerdictAt(entries, k, reference, candidate, root, results[k])
      invariant firstFailed.None? ==> forall k :: 0 <= k < i ==> Passes(results[k])
      invariant firstFailed.Some? ==>
        && 0 <= at < i && !Passes(results[at]) && firstFailed == Some(NameOf(entries[at]))
        && forall k :: 0 <= k < at ==> Passes(results[k])
    {
      var name := NameOf(entries[i]);
      var item := CompareArray(reference[name], candidate[name], RuleOf(entries[i]), chunk, root);
      results := results + [item];
      if !Passes(item) && firstFailed.None? {
        firstFailed := Some(name);
        at := i;
      }
      i := i + 1;
    }
  }

  /** The file passes when every tensor passes; the first that fails is named.  A
      tensor missing from a file, or one too many in it, is an error and never a pass. */
  method CompareFiles(f: RulesFile, reference: map<string, Tensor>, candidate: map<string, Tensor>, chunk: nat, root: real -> real)
    returns (r: Result<seq<Report>>, pass: bool, firstFailed: Option<string>)
    requires IsSqrt(root) && chunk > 0 && WellShapedAll(reference) && WellShapedAll(candidate)
    ensures r.Success? <==> ValidFile(f) && reference.Keys == candidate.Keys == NamesOf(f.tensors.value)
    ensures r.Success? ==>
      var entries := f.tensors.value;
      && |r.value| == |entries|
      && (forall i :: 0 <= i < |entries| ==> NameOf(entries[i]) in reference)
      && (forall i: nat :: i < |entries| ==> VerdictAt(entries, i, reference, candidate, root, r.value[i]))
      && (pass <==> forall i :: 0 <= i < |entries| ==> Passes(r.value[i]))
      && (firstFailed.None? <==> pass)
      && (!pass ==> exists k ::
           && 0 <= k < |entries| && !Passes(r.value[k]) && firstFailed == Some(NameOf(entries[k]))
           && forall i :: 0 <= i < k ==> Passes(r.value[i]))
    ensures r.Failure? ==> !pass
  {
    hide IsSqrt, VerdictAt, Passes, ValidEntry, Blank, NameOf, WellShapedAll;
    pass, firstFailed := false, None;
    var checked := ValidateRules(f);
    if checked.Failure? {
      return Failure(checked.error), pass, firstFailed;
    }
    var entries := checked.value;
    var names := NamesOf(entries);
    if reference.Keys != names {
      return Failure("reference tensor set mismatch"), pass, firstFailed;
    }
    if candidate.Keys != names {
      return Failure("candidate tensor set mismatch"), pass, firstFailed;
    }
    forall i | 0 <= i < |entries| ensures NameOf(entries[i]) in names {
    }
    var results, failed := CompareAll(entries, reference, candidate, chunk, root);
    firstFailed := failed;
    pass := firstFailed.None?;
    r := Success(results);
  }
}
