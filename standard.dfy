/**
 * The generic-operator table as it stands once the library is imported:
 * `operator` and `merging` create the operators, then `merging`, `interval`
 * and `supported` assign their rules in file order, so each operator's rule
 * list holds the last-assigned rule first.
 *
 * `asWritten` selects how the two `mul`/`truediv` rules of
 * propagator/content/interval.py whose tests are a pair of lists are
 * registered. As written each is one rule whose tests are the two lists;
 * the corrected table registers each list as a rule of its own, in the
 * order listed, so an interval beside a number is coerced (see
 * `Arithmetic`).
 */
module Standard {
  import opened PyValues
  import opened GenericOperators

  /** The three `Supported` arithmetic rules of one operator, last assigned first. */
  function SupportedRules(op: OpName): (rules: seq<Rule>)
    ensures |rules| == 3 && forall i :: 0 <= i < 3 ==> |rules[i].tests| == 2
  {
    [ Rule([IsFlat, IsSupported], CoerceToSupported(op)),
      Rule([IsSupported, IsFlat], CoerceToSupported(op)),
      Rule([IsSupported, IsSupported], SupportedUnpacking(op)) ]
  }

  /** The rule a pair of test lists registers: calling a list raises `TypeError`. */
  function ListTestRule(op: OpName): Rule {
    Rule([NotCallable, NotCallable], CoerceToInterval(op))
  }

  /** The `merge` rules of propagator/merging.py, last assigned first. */
  function LatticeMergeRules(): seq<Rule> {
    [ Rule([IsAnything, ContradictoryTest], KeepSecond),
      Rule([ContradictoryTest, IsAnything], KeepFirst),
      Rule([NothingTest, NotNothingTest], KeepSecond),
      Rule([NotNothingTest, NothingTest], KeepFirst) ]
  }

  /** The `merge` rules of propagator/content/interval.py, last assigned first. */
  function IntervalMergeRules(): seq<Rule> {
    [ Rule([IsInterval, IsNumber], IntervalAroundNumber),
      Rule([IsNumber, IsInterval], NumberIntoInterval),
      Rule([IsInterval, IsInterval], Handler.MergeIntervals) ]
  }

  /** The `merge` rules of propagator/content/supported.py, last assigned first. */
  function SupportedMergeRules(): seq<Rule> {
    [ Rule([IsFlat, IsSupported], MergeFlatSupported),
      Rule([IsSupported, IsFlat], MergeSupportedFlat),
      Rule([IsSupported, IsSupported], MergeSupporteds) ]
  }

  /** All `merge` rules, last assigned first. */
  function MergeRules(): (rules: seq<Rule>)
    ensures |rules| == 10 && forall i :: 0 <= i < 10 ==> |rules[i].tests| == 2
    ensures forall i :: 0 <= i < 10 ==> NotCallable !in rules[i].tests
  {
    SupportedMergeRules() + IntervalMergeRules() + LatticeMergeRules()
  }

  /**
   * The `coercing(to_interval, op)` rules as evidently intended: one for a
   * number then an interval, assigned last and so scanned first, and one for
   * an interval then a number.
   */
  function CoercionRules(op: OpName): seq<Rule> {
    [ Rule([IsNumber, IsInterval], CoerceToInterval(op)),
      Rule([IsInterval, IsNumber], CoerceToInterval(op)) ]
  }

  /** The `mul` (`IntervalProduct`) or `truediv` (`IntervalQuotient`) rules of propagator/content/interval.py. */
  function IntervalRules(asWritten: bool, op: OpName, h: Handler): (rules: seq<Rule>)
    ensures forall i :: 0 <= i < |rules| ==> |rules[i].tests| == 2
  {
    (if asWritten then [ListTestRule(op)] else CoercionRules(op)) + [Rule([IsInterval, IsInterval], h)]
  }

  /** All `mul` or `truediv` rules, last assigned first. */
  function IntervalArithmeticRules(asWritten: bool, op: OpName, h: Handler): (rules: seq<Rule>)
    ensures forall i :: 0 <= i < |rules| ==> |rules[i].tests| == 2
  {
    SupportedRules(op) + IntervalRules(asWritten, op, h)
  }

  /** Every operator name the library creates. */
  const OperatorNames: set<OpName> :=
    {Add, Sub, Mul, TrueDiv, Lt, Gt, Le, Ge, Not, Sqrt, Abs, Square, IsContradictory, IsNothing, IsNotNothing, Merge}

  lemma EveryOperatorName(name: OpName)
    ensures name in OperatorNames
  {
    match name
    case Add => case Sub => case Mul => case TrueDiv => case Lt => case Gt => case Le => case Ge =>
    case Not => case Sqrt => case Abs => case Square =>
    case IsContradictory => case IsNothing => case IsNotNothing => case Merge =>
  }

  /** The operator stored under `name` after all imports. */
  function StdOperator(asWritten: bool, name: OpName): (op: Operator)
    ensures op.name == name
    ensures forall i :: 0 <= i < |op.rules| ==> |op.rules[i].tests| == op.arity
  {
    match name
    case Add => Operator(Add, 2, Builtin(AddFn), SupportedRules(Add))
    case Sub => Operator(Sub, 2, Builtin(SubFn), SupportedRules(Sub))
    case Mul => Operator(Mul, 2, Builtin(MulFn), IntervalArithmeticRules(asWritten, Mul, IntervalProduct))
    case TrueDiv => Operator(TrueDiv, 2, Builtin(TrueDivFn), IntervalArithmeticRules(asWritten, TrueDiv, IntervalQuotient))
    case Lt => Operator(Lt, 2, Builtin(LtFn), [])
    case Gt => Operator(Gt, 2, Builtin(GtFn), [])
    case Le => Operator(Le, 2, Builtin(LeFn), [])
    case Ge => Operator(Ge, 2, Builtin(GeFn), [])
    case Not => Operator(Not, 1, Builtin(NotFn), [])
    case Sqrt => Operator(Sqrt, 1, Builtin(SqrtFn), [Rule([IsSupported], SupportedUnpacking(Sqrt)), Rule([IsInterval], IntervalSqrt)])
    case Abs => Operator(Abs, 1, Builtin(AbsFn), [])
    case Square => Operator(Square, 1, SquareByMul, [])
    case IsContradictory => Operator(IsContradictory, 1, IsContradictionInstance, [Rule([IsSupported], SupportedIsContradictory)])
    case IsNothing => Operator(IsNothing, 1, IsNone, [])
    case IsNotNothing => Operator(IsNotNothing, 1, NotIsNothing, [])
    case Merge => Operator(Merge, 2, DefaultMerge, MergeRules())
  }

  /** The table after all imports: every name holds its standard operator. */
  function Std(asWritten: bool): (reg: Registry)
    ensures WellFormed(reg)
    ensures forall name :: name in reg && reg[name] == StdOperator(asWritten, name)
  {
    forall name: OpName ensures name in OperatorNames {
      EveryOperatorName(name);
    }
    map name | name in OperatorNames :: StdOperator(asWritten, name)
  }

  /** The table as written and the corrected one differ exactly in the `mul` and `truediv` operators. */
  lemma AsWrittenAgrees(name: OpName)
    ensures Std(true)[name] == Std(false)[name] <==> name != Mul && name != TrueDiv
  {
    if name == Mul || name == TrueDiv {
      assert |Std(true)[name].rules| == 5 && |Std(false)[name].rules| == 6;
    }
  }

  /** The binary operators have arity 2 and the unary ones arity 1; the defaults are the built-in functions. */
  lemma StdOperators(asWritten: bool)
    ensures var reg := Std(asWritten);
      reg[Add].arity == 2 && reg[Sub].arity == 2 && reg[Mul].arity == 2 && reg[TrueDiv].arity == 2 &&
      reg[Lt].arity == 2 && reg[Gt].arity == 2 && reg[Le].arity == 2 && reg[Ge].arity == 2 &&
      reg[Not].arity == 1 && reg[Sqrt].arity == 1 && reg[Abs].arity == 1 && reg[Square].arity == 1
    ensures var reg := Std(asWritten);
      reg[Add].default == Builtin(AddFn) && reg[Sub].default == Builtin(SubFn) &&
      reg[Mul].default == Builtin(MulFn) && reg[TrueDiv].default == Builtin(TrueDivFn) &&
      reg[Lt].default == Builtin(LtFn) && reg[Gt].default == Builtin(GtFn) &&
      reg[Le].default == Builtin(LeFn) && reg[Ge].default == Builtin(GeFn) &&
      reg[Not].default == Builtin(NotFn) && reg[Abs].default == Builtin(AbsFn) &&
      reg[Square] == Operator(Square, 1, SquareByMul, [])
  {}
}
