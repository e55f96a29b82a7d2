/**
 * What the standard `merge` computes. `MergeValues` is a direct, recursive
 * definition of the merge of propagator/merging.py together with the
 * interval and `Supported` rules; `MergeAgrees` proves that the generic
 * operator call with the standard rules returns exactly that, given enough
 * recursion depth. The lattice laws are then stated about `MergeValues`.
 */
module Lattice {
  import opened PyValues
  import opened GenericOperators
  import opened Intervals
  import opened Supports
  import opened Dispatch
  import opened Standard

  /** `is_contradictory` under the standard rules: a `Contradiction`, or a `Supported` whose value is one. */
  predicate Contradictory(v: Value) {
    match v
    case Contra(_) => true
    case Sup(x, _) => Contradictory(x)
    case _ => false
  }

  /** How deeply `Supported` objects are nested. */
  function Depth(v: Value): nat {
    if v.Sup? then 1 + Depth(v.value) else 0
  }

  function MaxDepth(a: Value, b: Value): nat {
    if Depth(a) < Depth(b) then Depth(b) else Depth(a)
  }

  /** The registry holds the standard `is_contradictory`, `is_nothing`, `is_not_nothing` and `merge`. */
  predicate StdLattice(reg: Registry) {
    IsContradictory in reg && reg[IsContradictory] == StdOperator(false, IsContradictory) &&
    IsNothing in reg && reg[IsNothing] == StdOperator(false, IsNothing) &&
    IsNotNothing in reg && reg[IsNotNothing] == StdOperator(false, IsNotNothing) &&
    Merge in reg && reg[Merge] == StdOperator(false, Merge)
  }

  lemma StdHasLattice(asWritten: bool)
    ensures StdLattice(Std(asWritten))
  {}

  // ---------------------------------------------------------------------
  // The predicates used as tests.
  // ---------------------------------------------------------------------

  /** `is_nothing(v)` is `v is None`. */
  lemma IsNothingCall(reg: Registry, v: Value, tag: nat, fuel: nat)
    requires StdLattice(reg) && fuel >= 1
    ensures Call(reg, IsNothing, [v], tag, fuel) == Ok(Bool(v == Nothing))
  {}

  /** `is_not_nothing(v)` is `not is_nothing(v)`. */
  lemma IsNotNothingCall(reg: Registry, v: Value, tag: nat, fuel: nat)
    requires StdLattice(reg) && fuel >= 2
    ensures Call(reg, IsNotNothing, [v], tag, fuel) == Ok(Bool(v != Nothing))
  {
    IsNothingCall(reg, v, tag, fuel - 1);
    TruthyBool(v == Nothing);
  }

  /** `is_contradictory(v)`: a `Contradiction`, or (through the `Supported` rule) a `Supported` around one. */
  lemma {:induction false} IsContradictoryCall(reg: Registry, v: Value, tag: nat, fuel: nat)
    requires StdLattice(reg) && fuel >= Depth(v) + 1
    ensures Call(reg, IsContradictory, [v], tag, fuel) == Ok(Bool(Contradictory(v)))
    decreases v
  {
    var rules := reg[IsContradictory].rules;
    assert rules == [Rule([IsSupported], SupportedIsContradictory)];
    assert Matches(reg, [v], rules[0].tests, 0, tag, fuel - 1) == Ok(v.Sup?);
    if v.Sup? {
      IsContradictoryCall(reg, v.value, tag, fuel - 1);
      SelectPicks(reg, rules, [v], 0, 0, tag, fuel - 1);
    } else {
      SelectNone(reg, rules, [v], 0, tag, fuel - 1);
    }
  }

  /** What a callable test says of a value under the standard rules. */
  predicate Holds(t: Test, v: Value) {
    match t
    case IsAnything => true
    case NothingTest => v == Nothing
    case NotNothingTest => v != Nothing
    case ContradictoryTest => Contradictory(v)
    case IsNumber => v.Num?
    case IsInterval => v.Ival?
    case IsFlat => Supports.IsFlat(v)
    case IsSupported => v.Sup?
    case NotCallable => false
  }

  /** Every callable test returns `Holds`; calling a list raises `TypeError`. */
  lemma AcceptsStd(reg: Registry, t: Test, v: Value, tag: nat, fuel: nat)
    requires StdLattice(reg) && fuel >= Depth(v) + 2
    ensures t != NotCallable ==> Accepts(reg, t, v, tag, fuel) == Ok(Holds(t, v))
    ensures t == NotCallable ==> Accepts(reg, t, v, tag, fuel) == Raise(TypeError)
  {
    match t
    case NothingTest =>
      IsNothingCall(reg, v, tag, fuel);
      TruthyBool(v == Nothing);
    case NotNothingTest =>
      IsNotNothingCall(reg, v, tag, fuel);
      TruthyBool(v != Nothing);
    case ContradictoryTest =>
      IsContradictoryCall(reg, v, tag, fuel);
      TruthyBool(Contradictory(v));
    case _ =>
  }

  /** A rule of two callable tests matches a pair exactly when both tests hold. */
  lemma MatchesPair(reg: Registry, a: Value, b: Value, tests: seq<Test>, tag: nat, fuel: nat)
    requires StdLattice(reg) && fuel >= MaxDepth(a, b) + 2
    requires |tests| == 2 && NotCallable !in tests
    ensures Matches(reg, [a, b], tests, 0, tag, fuel) == Ok(Holds(tests[0], a) && Holds(tests[1], b))
  {
    AcceptsStd(reg, tests[0], a, tag, fuel);
    AcceptsStd(reg, tests[1], b, tag, fuel);
    assert Matches(reg, [a, b], tests, 2, tag, fuel) == Ok(true);
  }

  // ---------------------------------------------------------------------
  // Which merge rule fires.
  // ---------------------------------------------------------------------

  predicate RuleHolds(r: Rule, a: Value, b: Value) {
    |r.tests| == 2 && Holds(r.tests[0], a) && Holds(r.tests[1], b)
  }

  /** The position of the first standard merge rule whose tests hold of `(a, b)`; 10 when none does. */
  function MergeRuleIndex(a: Value, b: Value): (k: nat)
    ensures k <= 10
    ensures forall m :: 0 <= m < k ==> !RuleHolds(MergeRules()[m], a, b)
    ensures k < 10 ==> RuleHolds(MergeRules()[k], a, b)
  {
    if Supports.IsFlat(a) && b.Sup? then 0
    else if a.Sup? && Supports.IsFlat(b) then 1
    else if a.Sup? && b.Sup? then 2
    else if a.Ival? && b.Num? then 3
    else if a.Num? && b.Ival? then 4
    else if a.Ival? && b.Ival? then 5
    else if Contradictory(b) then 6
    else if Contradictory(a) then 7
    else if a == Nothing && b != Nothing then 8
    else if a != Nothing && b == Nothing then 9
    else 10
  }

  /** The rule scan of `merge(a, b)` picks rule `MergeRuleIndex(a, b)`, or none. */
  lemma MergeSelect(reg: Registry, a: Value, b: Value, tag: nat, fuel: nat)
    requires StdLattice(reg) && fuel >= MaxDepth(a, b) + 2
    ensures var k := MergeRuleIndex(a, b);
      Select(reg, MergeRules(), [a, b], 0, tag, fuel) == Ok(if k < 10 then Chosen(MergeRules()[k].handler) else NoRule)
  {
    var rules := MergeRules();
    forall m | 0 <= m < 10
      ensures Matches(reg, [a, b], rules[m].tests, 0, tag, fuel) == Ok(RuleHolds(rules[m], a, b))
    {
      MatchesPair(reg, a, b, rules[m].tests, tag, fuel);
    }
    var k := MergeRuleIndex(a, b);
    if k < 10 {
      SelectPicks(reg, rules, [a, b], 0, k, tag, fuel);
    } else {
      SelectNone(reg, rules, [a, b], 0, tag, fuel);
    }
  }

  /** The function `merge(a, b)` ends up calling. */
  function MergeHandler(a: Value, b: Value): Handler {
    var k := MergeRuleIndex(a, b);
    if k < 10 then MergeRules()[k].handler else DefaultMerge
  }

  lemma MergeCall(reg: Registry, a: Value, b: Value, tag: nat, fuel: nat)
    requires StdLattice(reg) && fuel >= MaxDepth(a, b) + 3
    ensures Call(reg, Merge, [a, b], tag, fuel) == Apply(reg, MergeHandler(a, b), [a, b], tag, fuel - 1)
  {
    MergeSelect(reg, a, b, tag, fuel - 1);
  }

  // ---------------------------------------------------------------------
  // The reference merge.
  // ---------------------------------------------------------------------

  /**
   * The standard `merge(content, increment)`, rule by rule in the order the
   * scan tries them: `Supported` on either side (a flat value is wrapped
   * with the empty support), a number against an interval, two intervals,
   * a contradiction on either side (the increment's first), `None` on
   * either side, and finally the default: equal values merge to themselves,
   * anything else is a new `Contradiction`.
   */
  function MergeValues(a: Value, b: Value, tag: nat): (r: Outcome<Value>)
    ensures r.Ok? ==> Depth(r.value) <= MaxDepth(a, b)
    decreases MaxDepth(a, b), 1
  {
    if Supports.IsFlat(a) && b.Sup? then MergeSupportedValues(Unsupported(a), b, tag)
    else if a.Sup? && Supports.IsFlat(b) then MergeSupportedValues(a, Unsupported(b), tag)
    else if a.Sup? && b.Sup? then MergeSupportedValues(a, b, tag)
    else if a.Ival? && b.Num? then EnsureInside(a, b, tag)
    else if a.Num? && b.Ival? then EnsureInside(b, a, tag)
    else if a.Ival? && b.Ival? then Intervals.MergeIntervals(a, b, tag)
    else if Contradictory(b) then Ok(b)
    else if Contradictory(a) then Ok(a)
    else if a == Nothing then Ok(b)
    else if b == Nothing then Ok(a)
    else if a == b then Ok(a)
    else Ok(Contra(tag))
  }

  /** `_merge_supporteds` on the reference merge. */
  function MergeSupportedValues(c: Value, i: Value, tag: nat): (r: Outcome<Value>)
    requires c.Sup? && i.Sup?
    ensures r.Ok? ==> Depth(r.value) <= MaxDepth(c, i)
    decreases MaxDepth(c, i), 0
  {
    var merged :- MergeValues(c.value, i.value, tag);
    if merged == c.value then
      var confirmed :- MergeValues(i.value, merged, tag);
      if i.value == confirmed && MoreInformative(i.support, c.support) then Ok(i) else Ok(c)
    else if merged == i.value then Ok(i)
    else Ok(Sup(merged, c.support + i.support))
  }

  /** `implies(v1, v2)` on the reference merge. */
  function ImpliesValues(v1: Value, v2: Value, tag: nat): Outcome<bool> {
    var m :- MergeValues(v1, v2, tag);
    Ok(v1 == m)
  }

  /**
   * Given recursion depth beyond the `Supported` nesting of its arguments,
   * the generic `merge` with the standard rules computes `MergeValues`.
   */
  lemma {:induction false} MergeAgrees(reg: Registry, a: Value, b: Value, tag: nat, fuel: nat)
    requires StdLattice(reg) && fuel >= MaxDepth(a, b) + 3
    ensures Call(reg, Merge, [a, b], tag, fuel) == MergeValues(a, b, tag)
    decreases MaxDepth(a, b), 2
  {
    MergeCall(reg, a, b, tag, fuel);
    if MergeRuleIndex(a, b) < 3 {
      SupportedMergeAgrees(reg, a, b, tag, fuel - 1);
    } else {
      FlatMergeAgrees(reg, a, b, tag, fuel - 1);
    }
  }

  /** A `Supported` value on either side: `_merge_supporteds`, a flat side wrapped with the empty support. */
  lemma {:induction false} SupportedMergeAgrees(reg: Registry, a: Value, b: Value, tag: nat, fuel: nat)
    requires StdLattice(reg) && fuel >= MaxDepth(a, b) + 2 && MergeRuleIndex(a, b) < 3
    ensures Apply(reg, MergeHandler(a, b), [a, b], tag, fuel) == MergeValues(a, b, tag)
    decreases MaxDepth(a, b), 1
  {
    var k := MergeRuleIndex(a, b);
    if k == 0 {
      assert MergeHandler(a, b) == MergeFlatSupported;
      MergeSupportedsAgree(reg, Unsupported(a), b, tag, fuel);
    } else if k == 1 {
      assert MergeHandler(a, b) == MergeSupportedFlat;
      MergeSupportedsAgree(reg, a, Unsupported(b), tag, fuel);
    } else {
      assert MergeHandler(a, b) == MergeSupporteds;
      MergeSupportedsAgree(reg, a, b, tag, fuel);
    }
  }

  /** Past the `Supported` rules, the handler the scan picks computes `MergeValues` without a nested call. */
  lemma FlatMergeAgrees(reg: Registry, a: Value, b: Value, tag: nat, fuel: nat)
    requires MergeRuleIndex(a, b) >= 3
    ensures Apply(reg, MergeHandler(a, b), [a, b], tag, fuel) == MergeValues(a, b, tag)
  {
    var k := MergeRuleIndex(a, b);
    if k < 6 {
      IntervalMergeAgrees(reg, a, b, tag, fuel);
    } else {
      LatticeMergeAgrees(reg, a, b, tag, fuel);
    }
  }

  /** A number against an interval, or two intervals. */
  lemma IntervalMergeAgrees(reg: Registry, a: Value, b: Value, tag: nat, fuel: nat)
    requires 3 <= MergeRuleIndex(a, b) < 6
    ensures Apply(reg, MergeHandler(a, b), [a, b], tag, fuel) == MergeValues(a, b, tag)
  {
    var k := MergeRuleIndex(a, b);
    if k == 3 {
      assert MergeHandler(a, b) == IntervalAroundNumber;
    } else if k == 4 {
      assert MergeHandler(a, b) == NumberIntoInterval;
    } else {
      assert MergeHandler(a, b) == Handler.MergeIntervals;
    }
  }

  /** A contradiction or `None` on either side, or neither: the rules of propagator/merging.py. */
  lemma LatticeMergeAgrees(reg: Registry, a: Value, b: Value, tag: nat, fuel: nat)
    requires MergeRuleIndex(a, b) >= 6
    ensures Apply(reg, MergeHandler(a, b), [a, b], tag, fuel) == MergeValues(a, b, tag)
  {
    var k := MergeRuleIndex(a, b);
    if k == 6 || k == 8 {
      assert MergeHandler(a, b) == KeepSecond;
    } else if k == 7 || k == 9 {
      assert MergeHandler(a, b) == KeepFirst;
    } else {
      assert MergeHandler(a, b) == DefaultMerge;
    }
  }

  lemma {:induction false} MergeSupportedsAgree(reg: Registry, c: Value, i: Value, tag: nat, fuel: nat)
    requires StdLattice(reg) && c.Sup? && i.Sup? && fuel >= MaxDepth(c.value, i.value) + 3
    ensures MergeSupported(reg, c, i, tag, fuel) == MergeSupportedValues(c, i, tag)
    decreases MaxDepth(c, i), 0
  {
    MergeAgrees(reg, c.value, i.value, tag, fuel);
    var merged := MergeValues(c.value, i.value, tag);
    if merged.Ok? && merged.value == c.value {
      MergeAgrees(reg, i.value, merged.value, tag, fuel);
    }
  }

  /** `implies` with the standard rules is `ImpliesValues`. */
  lemma ImpliesAgrees(reg: Registry, v1: Value, v2: Value, tag: nat, fuel: nat)
    requires StdLattice(reg) && fuel >= MaxDepth(v1, v2) + 3
    ensures Implies(reg, v1, v2, tag, fuel) == ImpliesValues(v1, v2, tag)
  {
    MergeAgrees(reg, v1, v2, tag, fuel);
  }
}
