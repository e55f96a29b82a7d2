/**
 * The generic-operator table: every operator has a name, an arity, a default
 * function and a list of rules, most recently assigned first. A rule pairs a
 * tuple of argument tests with the function to call when every test accepts
 * its argument. Python closures become the enumerated `Test` and `Handler`
 * tags below; the interpreter that gives them meaning is in `Dispatch`.
 */
module GenericOperators {
  import opened PyValues

  /** The names under which the library creates generic operators. */
  datatype OpName =
    | Add | Sub | Mul | TrueDiv | Lt | Gt | Le | Ge | Not | Sqrt | Abs | Square
    | IsContradictory | IsNothing | IsNotNothing | Merge

  /**
   * The argument tests the library registers. `NotCallable` stands for a test
   * slot holding something that is not a function (a list), which raises
   * `TypeError` when the dispatcher calls it.
   */
  datatype Test =
    | IsAnything          // `is_anything`
    | NothingTest         // the `is_nothing` generic operator
    | NotNothingTest      // the `is_not_nothing` generic operator
    | ContradictoryTest   // the `is_contradictory` generic operator
    | IsNumber            // `isinstance(x, (int, float, complex))`
    | IsInterval          // `isinstance(x, Interval)`
    | IsFlat              // a number or an `Interval`
    | IsSupported         // `isinstance(x, Supported)`
    | NotCallable

  /** The functions the library installs as defaults or as rule bodies. */
  datatype Handler =
    | Builtin(f: PyFunction)            // a function of the `operator` module, `abs` or `math.sqrt`
    | SquareByMul                       // `lambda x: mul(x, x)`
    | IsContradictionInstance           // `isinstance(x, Contradiction)`
    | IsNone                            // `partial(is_, None)`
    | NotIsNothing                      // `lambda x: not is_nothing(x)`
    | DefaultMerge                      // `_default_merge`
    | KeepFirst                         // `lambda a, b: a`
    | KeepSecond                        // `lambda a, b: b`
    | MergeIntervals                    // `_merge_intervals`
    | NumberIntoInterval                // `lambda n, i: _ensure_inside(i, n)`
    | IntervalAroundNumber              // `lambda i, n: _ensure_inside(i, n)`
    | MergeSupporteds                   // `_merge_supporteds`
    | MergeSupportedFlat                // `lambda s, f: _merge_supporteds(s, Supported(f))`
    | MergeFlatSupported                // `lambda f, s: _merge_supporteds(Supported(f), s)`
    | IntervalProduct                   // the Interval x Interval `mul` rule
    | IntervalQuotient                  // the Interval / Interval `truediv` rule
    | IntervalSqrt                      // the Interval `sqrt` rule
    | CoerceToInterval(op: OpName)      // `coercing(to_interval, op)`
    | SupportedUnpacking(op: OpName)    // `supported_unpacking(op)`
    | CoerceToSupported(op: OpName)     // `coercing(to_supported, supported_unpacking(op))`
    | SupportedIsContradictory          // `lambda s: is_contradictory(s.value)`

  /** One entry of `assigned_operations`. */
  datatype Rule = Rule(tests: seq<Test>, handler: Handler)

  /** A `_GenericOperator` object. */
  datatype Operator = Operator(name: OpName, arity: nat, default: Handler, rules: seq<Rule>) {
    /** `assign`: the new rule goes to the front of the rule list. */
    function Assign(handler: Handler, tests: seq<Test>): (op: Operator)
      ensures op.name == name && op.arity == arity && op.default == default
      ensures |op.rules| == |rules| + 1
      ensures op.rules[0] == Rule(tests, handler) && op.rules[1..] == rules
    {
      Operator(name, arity, default, [Rule(tests, handler)] + rules)
    }
  }

  /** The module-level dictionary `generic_operators`. */
  type Registry = map<OpName, Operator>

  /** Every stored rule has as many tests as its operator's arity. */
  ghost predicate WellFormed(reg: Registry) {
    forall name :: name in reg ==>
      reg[name].name == name &&
      forall i :: 0 <= i < |reg[name].rules| ==> |reg[name].rules[i].tests| == reg[name].arity
  }

  /** `make_generic_operator`: stores a fresh operator with no rules, replacing any earlier one. */
  function MakeGenericOperator(reg: Registry, arity: nat, name: OpName, default: Handler): (r: Registry)
    ensures name in r && r[name] == Operator(name, arity, default, [])
  {
    reg[name := Operator(name, arity, default, [])]
  }

  /** `make_generic_operator` leaves every other operator alone and keeps the table well formed. */
  lemma MakeGenericOperatorFrame(reg: Registry, arity: nat, name: OpName, default: Handler)
    ensures var r := MakeGenericOperator(reg, arity, name, default);
      forall other :: other != name ==> (other in r <==> other in reg) && (other in reg ==> r[other] == reg[other])
    ensures WellFormed(reg) ==> WellFormed(MakeGenericOperator(reg, arity, name, default))
  {}

  /**
   * `assign_operation`: the operator must exist and the number of tests must
   * equal its arity; otherwise the `assert` fails and nothing changes.
   */
  function AssignOperation(reg: Registry, name: OpName, handler: Handler, tests: seq<Test>): (r: Outcome<Registry>)
    ensures name !in reg ==> r == Raise(AssertionFailed(UnknownOperator))
    ensures name in reg && |tests| != reg[name].arity ==> r == Raise(AssertionFailed(TestCountMismatch))
    ensures r.Ok? ==> name in reg && |tests| == reg[name].arity && name in r.value
    ensures r.Ok? ==> r.value[name].name == reg[name].name && r.value[name].arity == reg[name].arity
    ensures r.Ok? ==> r.value[name].default == reg[name].default
    ensures r.Ok? ==> r.value[name].rules == [Rule(tests, handler)] + reg[name].rules
  {
    if name !in reg then Raise(AssertionFailed(UnknownOperator))
    else if |tests| != reg[name].arity then Raise(AssertionFailed(TestCountMismatch))
    else Ok(reg[name := reg[name].Assign(handler, tests)])
  }

  /**
   * A successful `assign_operation` changes no other operator, and since it
   * checks the number of tests, every stored rule has arity-many tests.
   */
  lemma AssignOperationFrame(reg: Registry, name: OpName, handler: Handler, tests: seq<Test>)
    requires AssignOperation(reg, name, handler, tests).Ok?
    ensures var r := AssignOperation(reg, name, handler, tests).value;
      r.Keys == reg.Keys && forall other :: other in reg && other != name ==> r[other] == reg[other]
    ensures WellFormed(reg) ==> WellFormed(AssignOperation(reg, name, handler, tests).value)
  {}

  /** The generic-operator dictionary as an object whose methods update it in place. */
  class OperatorTable {
    var operators: Registry

    ghost predicate Valid()
      reads this
    {
      WellFormed(operators)
    }

    constructor ()
      ensures Valid() && operators == map[]
    {
      operators := map[];
    }

    /** `make_generic_operator`. */
    method Make(arity: nat, name: OpName, default: Handler)
      requires Valid()
      modifies this
      ensures Valid()
      ensures operators == old(operators)[name := Operator(name, arity, default, [])]
    {
      MakeGenericOperatorFrame(operators, arity, name, default);
      operators := MakeGenericOperator(operators, arity, name, default);
    }

    /** `assign_operation`; on a failed assertion the table is unchanged. */
    method AssignRule(name: OpName, handler: Handler, tests: seq<Test>) returns (r: Outcome<()>)
      requires Valid()
      modifies this
      ensures Valid()
      ensures name !in old(operators) ==> r == Raise(AssertionFailed(UnknownOperator))
      ensures name in old(operators) && |tests| != old(operators)[name].arity ==>
        r == Raise(AssertionFailed(TestCountMismatch))
      ensures r.Raise? ==> operators == old(operators)
      ensures r.Ok? ==>
        name in old(operators) && operators == old(operators)[name := old(operators)[name].Assign(handler, tests)]
    {
      var updated := AssignOperation(operators, name, handler, tests);
      if updated.Raise? {
        return Raise(updated.error);
      }
      AssignOperationFrame(operators, name, handler, tests);
      operators := updated.value;
      r := Ok(());
    }

    /** `_GenericOperator.assign` called on the stored object: no test-count check. */
    method Assign(name: OpName, handler: Handler, tests: seq<Test>)
      requires name in operators
      modifies this
      ensures operators == old(operators)[name := old(operators)[name].Assign(handler, tests)]
      ensures operators[name].rules[0] == Rule(tests, handler)
    {
      operators := operators[name := operators[name].Assign(handler, tests)];
    }
  }
}
