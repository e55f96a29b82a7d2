/**
 * The arithmetic generic operators with the standard rules: defaults on
 * plain numbers, `Supported` operands (values combined, supports united),
 * interval products and quotients, and an interval beside a number. The
 * corrected table (`Std(false)`) is the one the rest of the model uses;
 * `Std(true)` keeps the two `mul`/`truediv` rules of
 * propagator/content/interval.py whose tests are lists, and every call that
 * reaches them raises `TypeError`.
 */
module Arithmetic {
  import opened PyValues
  import opened GenericOperators
  import opened Intervals
  import opened Supports
  import opened Dispatch
  import opened Standard

  /** The four operators that carry the `Supported` rules. */
  predicate Arithmetical(op: OpName) {
    op == Add || op == Sub || op == Mul || op == TrueDiv
  }

  /** Neither `Supported` nor an interval: no standard arithmetic rule applies. */
  predicate Scalar(v: Value) {
    !v.Sup? && !v.Ival?
  }

  /** Type tests (`is_flat`, `is_supported`, `is_interval`, `is_number`). */
  predicate TypeTest(t: Test) {
    t == IsFlat || t == IsSupported || t == IsInterval || t == IsNumber
  }

  /** What a type test says of a value. */
  predicate TypeHolds(t: Test, v: Value) {
    if t == IsFlat then Supports.IsFlat(v) else if t == IsSupported then v.Sup?
    else if t == IsInterval then v.Ival? else v.Num?
  }

  /** A test that only a `Supported` value or an interval passes. */
  predicate Structured(t: Test) {
    t == IsSupported || t == IsInterval
  }

  /** A rule of type tests, one per argument, that asks for a `Supported` value or an interval first or last. */
  predicate RejectsScalars(r: Rule, n: nat) {
    n > 0 && |r.tests| == n && (forall k :: 0 <= k < n ==> TypeTest(r.tests[k])) &&
    (Structured(r.tests[0]) || Structured(r.tests[n - 1]))
  }

  /** The first three rules of `op` in `reg` are its `Supported` rules. */
  predicate SupportedRulesLead(reg: Registry, op: OpName) {
    op in reg && reg[op].arity == 2 && |reg[op].rules| >= 3 &&
    reg[op].rules[0] == Rule([IsFlat, IsSupported], CoerceToSupported(op)) &&
    reg[op].rules[1] == Rule([IsSupported, IsFlat], CoerceToSupported(op)) &&
    reg[op].rules[2] == Rule([IsSupported, IsSupported], SupportedUnpacking(op))
  }

  /** After the `Supported` rules, `op` in `reg` has the two coercion rules, then the rule `h` for two intervals. */
  predicate IntervalRulesFollow(reg: Registry, op: OpName, h: Handler) {
    SupportedRulesLead(reg, op) && |reg[op].rules| >= 6 &&
    reg[op].rules[3] == Rule([IsNumber, IsInterval], CoerceToInterval(op)) &&
    reg[op].rules[4] == Rule([IsInterval, IsNumber], CoerceToInterval(op)) &&
    reg[op].rules[5] == Rule([IsInterval, IsInterval], h)
  }

  /** Type tests, one per argument, from position `j` on: the match holds exactly when every test holds. */
  lemma {:induction false} TypeTestsMatchFrom(reg: Registry, args: seq<Value>, tests: seq<Test>, j: nat, tag: nat, fuel: nat)
    requires |tests| == |args| && forall k :: 0 <= k < |tests| ==> TypeTest(tests[k])
    ensures Matches(reg, args, tests, j, tag, fuel) == Ok(forall k :: j <= k < |args| ==> TypeHolds(tests[k], args[k]))
    decreases |tests| - j
  {
    if j < |args| {
      assert Accepts(reg, tests[j], args[j], tag, fuel) == Ok(TypeHolds(tests[j], args[j]));
      TypeTestsMatchFrom(reg, args, tests, j + 1, tag, fuel);
    }
  }

  /** Two type tests match a pair exactly when both hold. */
  lemma TypeTestsMatch(reg: Registry, a: Value, b: Value, t0: Test, t1: Test, tag: nat, fuel: nat)
    requires TypeTest(t0) && TypeTest(t1)
    ensures Matches(reg, [a, b], [t0, t1], 0, tag, fuel) == Ok(TypeHolds(t0, a) && TypeHolds(t1, b))
  {
    TypeTestsMatchFrom(reg, [a, b], [t0, t1], 0, tag, fuel);
  }

  /** A rule that asks for a `Supported` value or an interval rejects scalar arguments. */
  lemma ScalarsRejected(reg: Registry, r: Rule, args: seq<Value>, tag: nat, fuel: nat)
    requires RejectsScalars(r, |args|) && forall k :: 0 <= k < |args| ==> Scalar(args[k])
    ensures Matches(reg, args, r.tests, 0, tag, fuel) == Ok(false)
  {
    TypeTestsMatchFrom(reg, args, r.tests, 0, tag, fuel);
    var n := |args|;
    assert !TypeHolds(r.tests[0], args[0]) || !TypeHolds(r.tests[n - 1], args[n - 1]);
  }

  /** When every rule asks for a `Supported` value or an interval, scalar arguments go to the default. */
  lemma ScalarsFallThrough(reg: Registry, op: OpName, f: PyFunction, args: seq<Value>, tag: nat, fuel: nat)
    requires op in reg && reg[op].default == Builtin(f) && |args| == reg[op].arity && fuel >= 1
    requires forall i :: 0 <= i < |reg[op].rules| ==> RejectsScalars(reg[op].rules[i], |args|)
    requires forall k :: 0 <= k < |args| ==> Scalar(args[k])
    ensures Call(reg, op, args, tag, fuel) == PyApply(f, args)
  {
    var rules := reg[op].rules;
    forall m | 0 <= m < |rules|
      ensures Matches(reg, args, rules[m].tests, 0, tag, fuel - 1) == Ok(false)
    {
      ScalarsRejected(reg, rules[m], args, tag, fuel - 1);
    }
    SelectNone(reg, rules, args, 0, tag, fuel - 1);
  }

  /** The first three rules of each arithmetic operator are the `Supported` rules, in either table. */
  lemma SupportedRulesFirst(asWritten: bool, op: OpName)
    requires Arithmetical(op)
    ensures SupportedRulesLead(Std(asWritten), op)
    ensures |Std(asWritten)[op].rules| == if op == Mul || op == TrueDiv then (if asWritten then 5 else 6) else 3
  {}

  /**
   * The rules of `mul` and `truediv` after the `Supported` ones: the
   * list-test rule as written, the two coercion rules when corrected; the
   * interval rule comes last.
   */
  lemma FourthRule(asWritten: bool, op: OpName)
    requires op == Mul || op == TrueDiv
    ensures var rules := Std(asWritten)[op].rules;
      var h := if op == Mul then IntervalProduct else IntervalQuotient;
      |rules| >= 5 &&
      rules[3] == (if asWritten then ListTestRule(op) else Rule([IsNumber, IsInterval], CoerceToInterval(op))) &&
      rules[|rules| - 1] == Rule([IsInterval, IsInterval], h) &&
      (!asWritten ==> rules[4] == Rule([IsInterval, IsNumber], CoerceToInterval(op)))
  {}

  /** Every standard operator whose default is a Python function has only rules that reject scalars. */
  lemma StdRulesRejectScalars(op: OpName)
    requires Std(false)[op].default.Builtin?
    ensures forall i :: 0 <= i < |Std(false)[op].rules| ==> RejectsScalars(Std(false)[op].rules[i], Std(false)[op].arity)
  {
    if Arithmetical(op) {
      SupportedRulesFirst(false, op);
      if op == Mul || op == TrueDiv {
        FourthRule(false, op);
      }
    }
  }

  /**
   * With no matching rule each operator is the Python function of the same
   * name: on scalar arguments the corrected table calls the default.
   */
  lemma ScalarsUseDefault(op: OpName, f: PyFunction, args: seq<Value>, tag: nat, fuel: nat)
    requires Std(false)[op].default == Builtin(f) && |args| == Std(false)[op].arity && fuel >= 1
    requires forall k :: 0 <= k < |args| ==> Scalar(args[k])
    ensures Call(Std(false), op, args, tag, fuel) == PyApply(f, args)
  {
    StdRulesRejectScalars(op);
    ScalarsFallThrough(Std(false), op, f, args, tag, fuel);
  }

  /** In the table as written too, every operator but `mul` and `truediv` computes its built-in on scalars. */
  lemma ScalarsUseDefaultAsWritten(op: OpName, f: PyFunction, args: seq<Value>, tag: nat, fuel: nat)
    requires op != Mul && op != TrueDiv
    requires Std(true)[op].default == Builtin(f) && |args| == Std(true)[op].arity && fuel >= 1
    requires forall k :: 0 <= k < |args| ==> Scalar(args[k])
    ensures Call(Std(true), op, args, tag, fuel) == PyApply(f, args)
  {
    AsWrittenAgrees(op);
    StdRulesRejectScalars(op);
    ScalarsFallThrough(Std(true), op, f, args, tag, fuel);
  }

  /** Plain numbers: `add`, `sub`, `mul` and `truediv` compute the field operations. */
  lemma NumberArithmetic(op: OpName, x: real, y: real, tag: nat, fuel: nat)
    requires Arithmetical(op) && fuel >= 1
    ensures op == Add ==> Call(Std(false), op, [Num(x), Num(y)], tag, fuel) == Ok(Num(x + y))
    ensures op == Sub ==> Call(Std(false), op, [Num(x), Num(y)], tag, fuel) == Ok(Num(x - y))
    ensures op == Mul ==> Call(Std(false), op, [Num(x), Num(y)], tag, fuel) == Ok(Num(x * y))
    ensures op == TrueDiv ==>
      Call(Std(false), op, [Num(x), Num(y)], tag, fuel) == (if y == 0.0 then Raise(ZeroDivisionError) else Ok(Num(x / y)))
  {
    var f := Std(false)[op].default.f;
    ScalarsUseDefault(op, f, [Num(x), Num(y)], tag, fuel);
    PyApplyNumbers(f, x, y);
  }

  /** The support of a `supported_unpacking` result: the union of both supports. */
  lemma PairSupports(x: Value, y: Value, s1: set<Label>, s2: set<Label>)
    ensures Values([Sup(x, s1), Sup(y, s2)]) == [x, y]
    ensures UnionOfSupports([Sup(x, s1), Sup(y, s2)]) == s1 + s2
  {
    var args := [Sup(x, s1), Sup(y, s2)];
    assert args[..1] == [Sup(x, s1)];
    assert args[..1][..0] == [];
  }

  /** Two `Supported` operands: the operator is applied to the values, on the union of the supports. */
  lemma SupportedPair(reg: Registry, op: OpName, x: Value, y: Value, s1: set<Label>, s2: set<Label>, tag: nat, fuel: nat)
    requires SupportedRulesLead(reg, op) && fuel >= 1
    ensures Call(reg, op, [Sup(x, s1), Sup(y, s2)], tag, fuel) ==
      (var v :- Call(reg, op, [x, y], tag, fuel - 1); Ok(Sup(v, s1 + s2)))
  {
    var a, b := Sup(x, s1), Sup(y, s2);
    TypeTestsMatch(reg, a, b, IsFlat, IsSupported, tag, fuel - 1);
    TypeTestsMatch(reg, a, b, IsSupported, IsFlat, tag, fuel - 1);
    TypeTestsMatch(reg, a, b, IsSupported, IsSupported, tag, fuel - 1);
    SelectPicks(reg, reg[op].rules, [a, b], 0, 2, tag, fuel - 1);
    PairSupports(x, y, s1, s2);
  }

  /** A flat operand, then a `Supported` one: the flat one is given the empty support first. */
  lemma FlatThenSupported(reg: Registry, op: OpName, x: Value, y: Value, s: set<Label>, tag: nat, fuel: nat)
    requires SupportedRulesLead(reg, op) && Supports.IsFlat(x) && fuel >= 1
    ensures Call(reg, op, [x, Sup(y, s)], tag, fuel) ==
      (var v :- Call(reg, op, [x, y], tag, fuel - 1); Ok(Sup(v, s)))
  {
    var a, b := x, Sup(y, s);
    TypeTestsMatch(reg, a, b, IsFlat, IsSupported, tag, fuel - 1);
    SelectPicks(reg, reg[op].rules, [a, b], 0, 0, tag, fuel - 1);
    assert AllToSupported([a, b]) == [Sup(x, {}), Sup(y, s)] by {
      assert ToSupported(a) == Sup(x, {}) && ToSupported(b) == b;
    }
    PairSupports(x, y, {}, s);
    assert {} + s == s;
  }

  /** A `Supported` operand, then a flat one: the flat one is given the empty support first. */
  lemma SupportedThenFlat(reg: Registry, op: OpName, x: Value, y: Value, s: set<Label>, tag: nat, fuel: nat)
    requires SupportedRulesLead(reg, op) && Supports.IsFlat(y) && fuel >= 1
    ensures Call(reg, op, [Sup(x, s), y], tag, fuel) ==
      (var v :- Call(reg, op, [x, y], tag, fuel - 1); Ok(Sup(v, s)))
  {
    var a, b := Sup(x, s), y;
    TypeTestsMatch(reg, a, b, IsFlat, IsSupported, tag, fuel - 1);
    TypeTestsMatch(reg, a, b, IsSupported, IsFlat, tag, fuel - 1);
    SelectPicks(reg, reg[op].rules, [a, b], 0, 1, tag, fuel - 1);
    assert AllToSupported([a, b]) == [Sup(x, s), Sup(y, {})] by {
      assert ToSupported(a) == a && ToSupported(b) == Sup(y, {});
    }
    PairSupports(x, y, s, {});
    assert s + {} == s;
  }

  /**
   * `Supported` operands: the operator is applied to the values and the
   * result rests on the union of the supports. This holds in either table:
   * the `Supported` rules are scanned before the interval rules.
   */
  lemma SupportedOperands(asWritten: bool, op: OpName, x: Value, y: Value, s1: set<Label>, s2: set<Label>, tag: nat, fuel: nat)
    requires Arithmetical(op) && fuel >= 1
    ensures Call(Std(asWritten), op, [Sup(x, s1), Sup(y, s2)], tag, fuel) ==
      (var v :- Call(Std(asWritten), op, [x, y], tag, fuel - 1); Ok(Sup(v, s1 + s2)))
  {
    SupportedRulesFirst(asWritten, op);
    SupportedPair(Std(asWritten), op, x, y, s1, s2, tag, fuel);
  }

  /** A flat first operand beside a `Supported` one is given the empty support first. */
  lemma FlatFirstOperand(asWritten: bool, op: OpName, x: Value, y: Value, s: set<Label>, tag: nat, fuel: nat)
    requires Arithmetical(op) && Supports.IsFlat(x) && fuel >= 1
    ensures Call(Std(asWritten), op, [x, Sup(y, s)], tag, fuel) ==
      (var v :- Call(Std(asWritten), op, [x, y], tag, fuel - 1); Ok(Sup(v, s)))
  {
    SupportedRulesFirst(asWritten, op);
    FlatThenSupported(Std(asWritten), op, x, y, s, tag, fuel);
  }

  /** A flat second operand beside a `Supported` one is given the empty support first. */
  lemma FlatSecondOperand(asWritten: bool, op: OpName, x: Value, y: Value, s: set<Label>, tag: nat, fuel: nat)
    requires Arithmetical(op) && Supports.IsFlat(y) && fuel >= 1
    ensures Call(Std(asWritten), op, [Sup(x, s), y], tag, fuel) ==
      (var v :- Call(Std(asWritten), op, [x, y], tag, fuel - 1); Ok(Sup(v, s)))
  {
    SupportedRulesFirst(asWritten, op);
    SupportedThenFlat(Std(asWritten), op, x, y, s, tag, fuel);
  }

  /** Two intervals pass over the `Supported` and coercion rules and reach the interval rule. */
  lemma IntervalRuleIn(reg: Registry, op: OpName, h: Handler, a: Value, b: Value, tag: nat, fuel: nat)
    requires IntervalRulesFollow(reg, op, h) && a.Ival? && b.Ival?
    ensures Select(reg, reg[op].rules, [a, b], 0, tag, fuel) == Ok(Chosen(h))
  {
    TypeTestsMatch(reg, a, b, IsFlat, IsSupported, tag, fuel);
    TypeTestsMatch(reg, a, b, IsSupported, IsFlat, tag, fuel);
    TypeTestsMatch(reg, a, b, IsSupported, IsSupported, tag, fuel);
    TypeTestsMatch(reg, a, b, IsNumber, IsInterval, tag, fuel);
    TypeTestsMatch(reg, a, b, IsInterval, IsNumber, tag, fuel);
    TypeTestsMatch(reg, a, b, IsInterval, IsInterval, tag, fuel);
    SelectPicks(reg, reg[op].rules, [a, b], 0, 5, tag, fuel);
  }

  /** On two intervals the corrected `mul` and `truediv` pick their interval rule. */
  lemma IntervalRuleChosen(op: OpName, a: Value, b: Value, tag: nat, fuel: nat)
    requires (op == Mul || op == TrueDiv) && a.Ival? && b.Ival?
    ensures Select(Std(false), Std(false)[op].rules, [a, b], 0, tag, fuel) ==
      Ok(Chosen(if op == Mul then IntervalProduct else IntervalQuotient))
  {
    SupportedRulesFirst(false, op);
    FourthRule(false, op);
    IntervalRuleIn(Std(false), op, if op == Mul then IntervalProduct else IntervalQuotient, a, b, tag, fuel);
  }

  /** A number then an interval: the second coercion-rule position picks nothing, the first makes the number `Interval(x)` and calls again. */
  lemma NumberThenInterval(reg: Registry, op: OpName, h: Handler, x: Value, b: Value, tag: nat, fuel: nat)
    requires IntervalRulesFollow(reg, op, h) && x.Num? && b.Ival? && fuel >= 1
    ensures Call(reg, op, [x, b], tag, fuel) == Call(reg, op, [ToInterval(x), b], tag, fuel - 1)
  {
    TypeTestsMatch(reg, x, b, IsFlat, IsSupported, tag, fuel - 1);
    TypeTestsMatch(reg, x, b, IsSupported, IsFlat, tag, fuel - 1);
    TypeTestsMatch(reg, x, b, IsSupported, IsSupported, tag, fuel - 1);
    TypeTestsMatch(reg, x, b, IsNumber, IsInterval, tag, fuel - 1);
    SelectPicks(reg, reg[op].rules, [x, b], 0, 3, tag, fuel - 1);
    assert AllToInterval([x, b]) == [ToInterval(x), b];
  }

  /** An interval then a number: the number is made `Interval(x)` and the call is made again. */
  lemma IntervalThenNumber(reg: Registry, op: OpName, h: Handler, a: Value, x: Value, tag: nat, fuel: nat)
    requires IntervalRulesFollow(reg, op, h) && a.Ival? && x.Num? && fuel >= 1
    ensures Call(reg, op, [a, x], tag, fuel) == Call(reg, op, [a, ToInterval(x)], tag, fuel - 1)
  {
    TypeTestsMatch(reg, a, x, IsFlat, IsSupported, tag, fuel - 1);
    TypeTestsMatch(reg, a, x, IsSupported, IsFlat, tag, fuel - 1);
    TypeTestsMatch(reg, a, x, IsSupported, IsSupported, tag, fuel - 1);
    TypeTestsMatch(reg, a, x, IsNumber, IsInterval, tag, fuel - 1);
    TypeTestsMatch(reg, a, x, IsInterval, IsNumber, tag, fuel - 1);
    SelectPicks(reg, reg[op].rules, [a, x], 0, 4, tag, fuel - 1);
    assert AllToInterval([a, x]) == [a, ToInterval(x)];
  }

  /** In the corrected table, `mul` and `truediv` of an interval and a number, in either order, coerce the number to `Interval(x)`. */
  lemma MixedOperandsCoerced(op: OpName, a: Value, x: Value, tag: nat, fuel: nat)
    requires (op == Mul || op == TrueDiv) && a.Ival? && x.Num? && fuel >= 1
    ensures Call(Std(false), op, [a, x], tag, fuel) == Call(Std(false), op, [a, ToInterval(x)], tag, fuel - 1)
    ensures Call(Std(false), op, [x, a], tag, fuel) == Call(Std(false), op, [ToInterval(x), a], tag, fuel - 1)
  {
    StdIntervalRules();
    var h := if op == Mul then IntervalProduct else IntervalQuotient;
    IntervalThenNumber(Std(false), op, h, a, x, tag, fuel);
    NumberThenInterval(Std(false), op, h, x, a, tag, fuel);
  }

  /** Interval × interval: `mul` of the low end points and of the high end points, in that order. */
  lemma IntervalProductIn(reg: Registry, a: Value, b: Value, tag: nat, fuel: nat)
    requires IntervalRulesFollow(reg, Mul, IntervalProduct) && a.Ival? && b.Ival? && fuel >= 1
    ensures Call(reg, Mul, [a, b], tag, fuel) ==
      (var low :- Call(reg, Mul, [a.low, b.low], tag, fuel - 1);
       var high :- Call(reg, Mul, [a.high, b.high], tag, fuel - 1);
       Ok(MakeInterval(low, high)))
  {
    IntervalRuleIn(reg, Mul, IntervalProduct, a, b, tag, fuel - 1);
  }

  /** Interval ÷ interval: the product with `Interval(1/high, 1/low)` of the divisor. */
  lemma IntervalQuotientIn(reg: Registry, a: Value, b: Value, tag: nat, fuel: nat)
    requires IntervalRulesFollow(reg, TrueDiv, IntervalQuotient) && a.Ival? && b.Ival? && fuel >= 1
    ensures Call(reg, TrueDiv, [a, b], tag, fuel) ==
      (var low :- Call(reg, TrueDiv, [Num(1.0), b.high], tag, fuel - 1);
       var high :- Call(reg, TrueDiv, [Num(1.0), b.low], tag, fuel - 1);
       Call(reg, Mul, [a, MakeInterval(low, high)], tag, fuel - 1))
  {
    IntervalRuleIn(reg, TrueDiv, IntervalQuotient, a, b, tag, fuel - 1);
  }

  /** In the corrected table, `mul` and `truediv` have their coercion rules, then their interval rule, right after the `Supported` rules. */
  lemma StdIntervalRules()
    ensures IntervalRulesFollow(Std(false), Mul, IntervalProduct)
    ensures IntervalRulesFollow(Std(false), TrueDiv, IntervalQuotient)
  {
    SupportedRulesFirst(false, Mul);
    SupportedRulesFirst(false, TrueDiv);
    FourthRule(false, Mul);
    FourthRule(false, TrueDiv);
  }

  /** Interval × interval multiplies the end points pairwise, without re-sorting them. */
  lemma IntervalProductNumeric(al: real, ah: real, bl: real, bh: real, tag: nat, fuel: nat)
    requires fuel >= 2
    ensures Call(Std(false), Mul, [Ival(Num(al), Num(ah)), Ival(Num(bl), Num(bh))], tag, fuel) ==
      Ok(Ival(Num(al * bl), Num(ah * bh)))
  {
    var reg := Std(false);
    var a, b := Ival(Num(al), Num(ah)), Ival(Num(bl), Num(bh));
    var low, high := Num(al * bl), Num(ah * bh);
    assert Call(reg, Mul, [a.low, b.low], tag, fuel - 1) == Ok(low) by {
      NumberArithmetic(Mul, al, bl, tag, fuel - 1);
    }
    assert Call(reg, Mul, [a.high, b.high], tag, fuel - 1) == Ok(high) by {
      NumberArithmetic(Mul, ah, bh, tag, fuel - 1);
    }
    StdIntervalRules();
    IntervalProductIn(reg, a, b, tag, fuel);
    assert MakeInterval(low, high) == Ival(low, high);
  }

  /**
   * Interval ÷ interval is the product with `Interval(1/high, 1/low)`; a
   * zero end point of the divisor raises `ZeroDivisionError`.
   */
  lemma IntervalQuotientNumeric(al: real, ah: real, bl: real, bh: real, tag: nat, fuel: nat)
    requires fuel >= 3
    ensures Call(Std(false), TrueDiv, [Ival(Num(al), Num(ah)), Ival(Num(bl), Num(bh))], tag, fuel) ==
      if bh == 0.0 || bl == 0.0 then Raise(ZeroDivisionError)
      else Ok(Ival(Num(al * (1.0 / bh)), Num(ah * (1.0 / bl))))
  {
    var reg := Std(false);
    var a, b := Ival(Num(al), Num(ah)), Ival(Num(bl), Num(bh));
    assert Call(reg, TrueDiv, [a, b], tag, fuel) ==
      (var low :- Call(reg, TrueDiv, [Num(1.0), b.high], tag, fuel - 1);
       var high :- Call(reg, TrueDiv, [Num(1.0), b.low], tag, fuel - 1);
       Call(reg, Mul, [a, MakeInterval(low, high)], tag, fuel - 1)) by {
      StdIntervalRules();
      IntervalQuotientIn(reg, a, b, tag, fuel);
    }
    assert Call(reg, TrueDiv, [Num(1.0), b.high], tag, fuel - 1) ==
      (if bh == 0.0 then Raise(ZeroDivisionError) else Ok(Num(1.0 / bh))) by {
      NumberArithmetic(TrueDiv, 1.0, bh, tag, fuel - 1);
    }
    assert Call(reg, TrueDiv, [Num(1.0), b.low], tag, fuel - 1) ==
      (if bl == 0.0 then Raise(ZeroDivisionError) else Ok(Num(1.0 / bl))) by {
      NumberArithmetic(TrueDiv, 1.0, bl, tag, fuel - 1);
    }
    if bh != 0.0 && bl != 0.0 {
      var ih, il := 1.0 / bh, 1.0 / bl;
      assert MakeInterval(Num(ih), Num(il)) == Ival(Num(ih), Num(il));
      assert Call(reg, Mul, [a, Ival(Num(ih), Num(il))], tag, fuel - 1) == Ok(Ival(Num(al * ih), Num(ah * il))) by {
        IntervalProductNumeric(al, ah, ih, il, tag, fuel - 1);
      }
      // Products of equal factors, named so that the solver relates the `Num` values built from them.
      var low, low' := al * ih, al * (1.0 / bh);
      var high, high' := ah * il, ah * (1.0 / bl);
      assert low == low' && Num(low) == Num(low');
      assert high == high' && Num(high) == Num(high');
    }
  }

  /** Two `Supported` operands without support give the unsupported result without support. */
  lemma UnsupportedOperands(op: OpName, x: Value, y: Value, v: Value, tag: nat, fuel: nat)
    requires Arithmetical(op) && fuel >= 1 && Call(Std(false), op, [x, y], tag, fuel - 1) == Ok(v)
    ensures Call(Std(false), op, [Sup(x, {}), Sup(y, {})], tag, fuel) == Ok(Sup(v, {}))
  {
    var none: set<Label> := {};
    SupportedOperands(false, op, x, y, none, none, tag, fuel);
    assert none + none == none;
  }

  /** The library's `Supported` adder test: Supported(3) + Supported(4) == Supported(7). */
  lemma SupportedSumExample(tag: nat, fuel: nat)
    requires fuel >= 2
    ensures Call(Std(false), Add, [Sup(Num(3.0), {}), Sup(Num(4.0), {})], tag, fuel) == Ok(Sup(Num(7.0), {}))
  {
    assert Call(Std(false), Add, [Num(3.0), Num(4.0)], tag, fuel - 1) == Ok(Num(7.0)) by {
      NumberArithmetic(Add, 3.0, 4.0, tag, fuel - 1);
    }
    UnsupportedOperands(Add, Num(3.0), Num(4.0), Num(7.0), tag, fuel);
  }

  /** The library's `Supported` multiplier test: Supported(3) × Supported(4) == Supported(12). */
  lemma SupportedProductExample(tag: nat, fuel: nat)
    requires fuel >= 2
    ensures Call(Std(false), Mul, [Sup(Num(3.0), {}), Sup(Num(4.0), {})], tag, fuel) == Ok(Sup(Num(12.0), {}))
  {
    assert Call(Std(false), Mul, [Num(3.0), Num(4.0)], tag, fuel - 1) == Ok(Num(12.0)) by {
      NumberArithmetic(Mul, 3.0, 4.0, tag, fuel - 1);
    }
    UnsupportedOperands(Mul, Num(3.0), Num(4.0), Num(12.0), tag, fuel);
  }

  /** The library's `Supported` interval test: Supported([3, 4]) × Supported([5, 6]) == Supported([15, 24]). */
  lemma SupportedIntervalExample(tag: nat, fuel: nat)
    requires fuel >= 3
    ensures Call(Std(false), Mul, [Sup(Ival(Num(3.0), Num(4.0)), {}), Sup(Ival(Num(5.0), Num(6.0)), {})], tag, fuel)
         == Ok(Sup(Ival(Num(15.0), Num(24.0)), {}))
  {
    var a, b := Ival(Num(3.0), Num(4.0)), Ival(Num(5.0), Num(6.0));
    assert Call(Std(false), Mul, [a, b], tag, fuel - 1) == Ok(Ival(Num(15.0), Num(24.0))) by {
      IntervalProductNumeric(3.0, 4.0, 5.0, 6.0, tag, fuel - 1);
    }
    UnsupportedOperands(Mul, a, b, Ival(Num(15.0), Num(24.0)), tag, fuel);
  }

  /**
   * A `mul`/`truediv` rule whose tests are a pair of lists, scanned right
   * after the `Supported` rules: a call on two operands that are not both
   * `Supported` reaches it and raises `TypeError`.
   */
  lemma ListRuleRaises(reg: Registry, op: OpName, a: Value, b: Value, tag: nat, fuel: nat)
    requires SupportedRulesLead(reg, op) && |reg[op].rules| >= 4 && reg[op].rules[3] == ListTestRule(op)
    requires !a.Sup? && !b.Sup? && fuel >= 1
    ensures Call(reg, op, [a, b], tag, fuel) == Raise(TypeError)
  {
    var rules := reg[op].rules;
    TypeTestsMatch(reg, a, b, IsFlat, IsSupported, tag, fuel - 1);
    TypeTestsMatch(reg, a, b, IsSupported, IsFlat, tag, fuel - 1);
    TypeTestsMatch(reg, a, b, IsSupported, IsSupported, tag, fuel - 1);
    assert Matches(reg, [a, b], rules[3].tests, 0, tag, fuel - 1) == Raise(TypeError);
    assert Select(reg, rules, [a, b], 3, tag, fuel - 1) == Raise(TypeError);
    assert Select(reg, rules, [a, b], 2, tag, fuel - 1) == Raise(TypeError);
    assert Select(reg, rules, [a, b], 1, tag, fuel - 1) == Raise(TypeError);
  }

  /** The as-written table: two operands that are not both `Supported` reach the list-test rule of `mul` or `truediv`. */
  lemma AsWrittenListRuleRaises(op: OpName, a: Value, b: Value, tag: nat, fuel: nat)
    requires (op == Mul || op == TrueDiv) && !a.Sup? && !b.Sup? && fuel >= 1
    ensures Call(Std(true), op, [a, b], tag, fuel) == Raise(TypeError)
  {
    SupportedRulesFirst(true, op);
    FourthRule(true, op);
    ListRuleRaises(Std(true), op, a, b, tag, fuel);
  }

  /**
   * The library's own examples fail as written: 3 × 4, [3, 4] × [5, 6] and,
   * through `supported_unpacking`, Supported(3) × Supported(4) raise `TypeError`.
   */
  lemma AsWrittenExamplesRaise(tag: nat, fuel: nat)
    requires fuel >= 2
    ensures Call(Std(true), Mul, [Num(3.0), Num(4.0)], tag, fuel) == Raise(TypeError)
    ensures Call(Std(true), Mul, [Ival(Num(3.0), Num(4.0)), Ival(Num(5.0), Num(6.0))], tag, fuel) == Raise(TypeError)
    ensures Call(Std(true), Mul, [Sup(Num(3.0), {}), Sup(Num(4.0), {})], tag, fuel) == Raise(TypeError)
  {
    AsWrittenListRuleRaises(Mul, Num(3.0), Num(4.0), tag, fuel);
    AsWrittenListRuleRaises(Mul, Ival(Num(3.0), Num(4.0)), Ival(Num(5.0), Num(6.0)), tag, fuel);
    SupportedOperands(true, Mul, Num(3.0), Num(4.0), {}, {}, tag, fuel);
    AsWrittenListRuleRaises(Mul, Num(3.0), Num(4.0), tag, fuel - 1);
  }

  /** The corrected table gives the intended results: 12, [15, 24] and Supported(12). */
  lemma CorrectedExamples(tag: nat, fuel: nat)
    requires fuel >= 3
    ensures Call(Std(false), Mul, [Num(3.0), Num(4.0)], tag, fuel) == Ok(Num(12.0))
    ensures Call(Std(false), Mul, [Ival(Num(3.0), Num(4.0)), Ival(Num(5.0), Num(6.0))], tag, fuel)
         == Ok(Ival(Num(15.0), Num(24.0)))
    ensures Call(Std(false), Mul, [Sup(Num(3.0), {}), Sup(Num(4.0), {})], tag, fuel) == Ok(Sup(Num(12.0), {}))
  {
    assert Call(Std(false), Mul, [Num(3.0), Num(4.0)], tag, fuel) == Ok(Num(12.0)) by {
      NumberArithmetic(Mul, 3.0, 4.0, tag, fuel);
    }
    assert Call(Std(false), Mul, [Ival(Num(3.0), Num(4.0)), Ival(Num(5.0), Num(6.0))], tag, fuel)
        == Ok(Ival(Num(15.0), Num(24.0))) by {
      IntervalProductNumeric(3.0, 4.0, 5.0, 6.0, tag, fuel);
    }
    SupportedProductExample(tag, fuel);
  }

  /** Corrected, `[3, 4]` beside 2 gives [6, 8] in either order: 2 becomes `Interval(2)`, which is [2, 2]. */
  lemma CorrectedMixedExamples(tag: nat, fuel: nat)
    requires fuel >= 3
    ensures Call(Std(false), Mul, [Ival(Num(3.0), Num(4.0)), Num(2.0)], tag, fuel) == Ok(Ival(Num(6.0), Num(8.0)))
    ensures Call(Std(false), Mul, [Num(2.0), Ival(Num(3.0), Num(4.0))], tag, fuel) == Ok(Ival(Num(6.0), Num(8.0)))
  {
    var a, two := Ival(Num(3.0), Num(4.0)), Ival(Num(2.0), Num(2.0));
    assert ToInterval(Num(2.0)) == two;
    MixedOperandsCoerced(Mul, a, Num(2.0), tag, fuel);
    assert Call(Std(false), Mul, [a, two], tag, fuel - 1) == Ok(Ival(Num(6.0), Num(8.0))) by {
      IntervalProductNumeric(3.0, 4.0, 2.0, 2.0, tag, fuel - 1);
    }
    assert Call(Std(false), Mul, [two, a], tag, fuel - 1) == Ok(Ival(Num(6.0), Num(8.0))) by {
      IntervalProductNumeric(2.0, 2.0, 3.0, 4.0, tag, fuel - 1);
    }
  }

  /**
   * Coercion goes through `Interval(x)`, so a zero beside an interval
   * becomes `Interval(0)`, whose upper end is `None`: even corrected,
   * `mul(Interval(3, 4), 0)` raises `TypeError` on `mul(4, None)`.
   */
  lemma CoercedZeroRaises(tag: nat, fuel: nat)
    requires fuel >= 3
    ensures Call(Std(false), Mul, [Ival(Num(3.0), Num(4.0)), Num(0.0)], tag, fuel) == Raise(TypeError)
  {
    var a, zero := Ival(Num(3.0), Num(4.0)), Ival(Num(0.0), Nothing);
    assert Call(Std(false), Mul, [a, Num(0.0)], tag, fuel) == Call(Std(false), Mul, [a, zero], tag, fuel - 1) by {
      assert ToInterval(Num(0.0)) == zero;
      MixedOperandsCoerced(Mul, a, Num(0.0), tag, fuel);
    }
    OpenProductRaises(tag, fuel - 1);
  }

  /** `[3, 4]` times the interval `Interval(0)`, which has no upper end, reaches `mul(4, None)` and raises. */
  lemma OpenProductRaises(tag: nat, fuel: nat)
    requires fuel >= 2
    ensures Call(Std(false), Mul, [Ival(Num(3.0), Num(4.0)), Ival(Num(0.0), Nothing)], tag, fuel) == Raise(TypeError)
  {
    var a, zero := Ival(Num(3.0), Num(4.0)), Ival(Num(0.0), Nothing);
    StdIntervalRules();
    IntervalProductIn(Std(false), a, zero, tag, fuel);
    assert Call(Std(false), Mul, [Num(3.0), Num(0.0)], tag, fuel - 1) == Ok(Num(0.0)) by {
      NumberArithmetic(Mul, 3.0, 0.0, tag, fuel - 1);
    }
    assert Call(Std(false), Mul, [Num(4.0), Nothing], tag, fuel - 1) == Raise(TypeError) by {
      ScalarsUseDefault(Mul, MulFn, [Num(4.0), Nothing], tag, fuel - 1);
    }
  }

  /** The example of the generic-operator documentation: `add` made with `sub` as default, then given a rule for two numbers. */
  lemma DocumentedExample(reg: Registry, tag: nat, fuel: nat)
    requires fuel >= 1
    ensures var r0 := MakeGenericOperator(reg, 2, Add, Builtin(SubFn));
      var r1 := AssignOperation(r0, Add, Builtin(AddFn), [IsNumber, IsNumber]);
      r1.Ok? && Call(r1.value, Add, [Num(3.0), Num(2.0)], tag, fuel) == Ok(Num(5.0))
      && Call(r0, Add, [Num(3.0), Num(2.0)], tag, fuel) == Ok(Num(1.0))
  {
    var r0 := MakeGenericOperator(reg, 2, Add, Builtin(SubFn));
    var r1 := AssignOperation(r0, Add, Builtin(AddFn), [IsNumber, IsNumber]).value;
    var a, b := Num(3.0), Num(2.0);
    assert r1[Add] == Operator(Add, 2, Builtin(SubFn), [Rule([IsNumber, IsNumber], Builtin(AddFn))]);
    TypeTestsMatch(r1, a, b, IsNumber, IsNumber, tag, fuel - 1);
    PyApplyNumbers(AddFn, 3.0, 2.0);
    PyApplyNumbers(SubFn, 3.0, 2.0);
  }
}
