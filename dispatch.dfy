/**
 * Calling a generic operator. `Call` is `_GenericOperator.__call__`: it checks
 * the arity, scans the rules most recent first for one whose tests accept the
 * arguments, and calls that rule's function, or the default when none does.
 * Tests such as `is_nothing` and handlers such as the interval product are
 * themselves calls of generic operators, looked up by name in the registry,
 * so the functions below are mutually recursive. `fuel` bounds the depth of
 * nested calls and stands for Python's recursion limit: running out raises
 * `RecursionError`. Every `Contradiction` created during a call gets the
 * identity `tag`.
 */
module Dispatch {
  import opened PyValues
  import opened GenericOperators
  import opened Intervals
  import opened Supports

  /** The outcome of the rule scan: the function of the first matching rule, if any. */
  datatype Choice = NoRule | Chosen(handler: Handler)

  /** Whether a handler can be called with `n` positional arguments. */
  predicate TakesArgs(h: Handler, n: nat) {
    match h
    case Builtin(_) | CoerceToInterval(_) | SupportedUnpacking(_) | CoerceToSupported(_) => true
    case SquareByMul | IsContradictionInstance | IsNone | NotIsNothing | IntervalSqrt | SupportedIsContradictory => n == 1
    case _ => n == 2
  }

  /** `_GenericOperator.__call__`, for the operator stored under `name`. */
  function Call(reg: Registry, name: OpName, args: seq<Value>, tag: nat, fuel: nat): Outcome<Value>
    decreases fuel, 0, 0
  {
    if fuel == 0 then Raise(RecursionError)
    else if name !in reg then Raise(NameError)
    else if |args| != reg[name].arity then Raise(AssertionFailed(WrongArity))
    else
      var choice :- Select(reg, reg[name].rules, args, 0, tag, fuel - 1);
      Apply(reg, if choice.Chosen? then choice.handler else reg[name].default, args, tag, fuel - 1)
  }

  /** Calling one test on one argument; the result counts by its truth value. */
  function Accepts(reg: Registry, t: Test, v: Value, tag: nat, fuel: nat): Outcome<bool>
    decreases fuel, 1, 0
  {
    match t
    case IsAnything => Ok(true)
    case NothingTest => var r :- Call(reg, IsNothing, [v], tag, fuel); Ok(Truthy(r))
    case NotNothingTest => var r :- Call(reg, IsNotNothing, [v], tag, fuel); Ok(Truthy(r))
    case ContradictoryTest => var r :- Call(reg, IsContradictory, [v], tag, fuel); Ok(Truthy(r))
    case IsNumber => Ok(v.Num?)
    case IsInterval => Ok(v.Ival?)
    case IsFlat => Ok(Supports.IsFlat(v))
    case IsSupported => Ok(v.Sup?)
    case NotCallable => Raise(TypeError)
  }

  /**
   * `matches`: `all(test(thing) for thing, test in zip(things, tests))`,
   * from position `j` on; `zip` stops at the shorter sequence and `all`
   * stops at the first false test.
   */
  function Matches(reg: Registry, args: seq<Value>, tests: seq<Test>, j: nat, tag: nat, fuel: nat): Outcome<bool>
    decreases fuel, 2, |tests| - j
  {
    if j >= |args| || j >= |tests| then Ok(true)
    else
      var ok :- Accepts(reg, tests[j], args[j], tag, fuel);
      if !ok then Ok(false) else Matches(reg, args, tests, j + 1, tag, fuel)
  }

  /** The loop over `assigned_operations` from position `i` on: the first matching rule wins. */
  function Select(reg: Registry, rules: seq<Rule>, args: seq<Value>, i: nat, tag: nat, fuel: nat): Outcome<Choice>
    decreases fuel, 3, |rules| - i
  {
    if i >= |rules| then Ok(NoRule)
    else
      var m :- Matches(reg, args, rules[i].tests, 0, tag, fuel);
      if m then Ok(Chosen(rules[i].handler)) else Select(reg, rules, args, i + 1, tag, fuel)
  }

  /** `implies(v1, v2)`: `v1 == merge(v1, v2)`. */
  function Implies(reg: Registry, v1: Value, v2: Value, tag: nat, fuel: nat): Outcome<bool>
    decreases fuel, 1, 0
  {
    var m :- Call(reg, Merge, [v1, v2], tag, fuel);
    Ok(v1 == m)
  }

  /**
   * `_merge_supporteds`: merge the values; if that gives the stored value,
   * keep the stored `Supported` unless the increment confirms it with a
   * strictly smaller support; if it gives the incoming value, take the
   * increment whole; otherwise pair the merged value with both supports.
   */
  function MergeSupported(reg: Registry, content: Value, increment: Value, tag: nat, fuel: nat): Outcome<Value>
    requires content.Sup? && increment.Sup?
    decreases fuel, 2, 0
  {
    var merged :- Call(reg, Merge, [content.value, increment.value], tag, fuel);
    if merged == content.value then
      var confirms :- Implies(reg, increment.value, merged, tag, fuel);
      if confirms && MoreInformative(increment.support, content.support) then Ok(increment) else Ok(content)
    else if merged == increment.value then Ok(increment)
    else Ok(Sup(merged, content.support + increment.support))
  }

  /** The arguments after `to_supported`. */
  function AllToSupported(args: seq<Value>): seq<Value> {
    seq(|args|, i requires 0 <= i < |args| => ToSupported(args[i]))
  }

  /** The arguments after `to_interval`. */
  function AllToInterval(args: seq<Value>): seq<Value> {
    seq(|args|, i requires 0 <= i < |args| => ToInterval(args[i]))
  }

  /**
   * Calling a handler. A wrong number of arguments raises `TypeError`; an
   * argument of a kind the handler reads attributes from, but which lacks
   * them, raises `AttributeError`.
   */
  function Apply(reg: Registry, h: Handler, args: seq<Value>, tag: nat, fuel: nat): Outcome<Value>
    decreases fuel, 3, 0
  {
    if !TakesArgs(h, |args|) then Raise(TypeError)
    else
      match h
      case Builtin(f) => PyApply(f, args)
      case SquareByMul => Call(reg, Mul, [args[0], args[0]], tag, fuel)
      case IsContradictionInstance => Ok(Bool(args[0].Contra?))
      case IsNone => Ok(Bool(args[0] == Nothing))
      case NotIsNothing =>
        var r :- Call(reg, IsNothing, [args[0]], tag, fuel);
        Ok(Bool(!Truthy(r)))
      case DefaultMerge => Ok(if args[0] == args[1] then args[0] else Contra(tag))
      case KeepFirst => Ok(args[0])
      case KeepSecond => Ok(args[1])
      case MergeIntervals =>
        if args[0].Ival? && args[1].Ival? then Intervals.MergeIntervals(args[0], args[1], tag)
        else Raise(AttributeError)
      case NumberIntoInterval =>
        if args[1].Ival? then EnsureInside(args[1], args[0], tag) else Raise(AttributeError)
      case IntervalAroundNumber =>
        if args[0].Ival? then EnsureInside(args[0], args[1], tag) else Raise(AttributeError)
      case MergeSupporteds =>
        if args[0].Sup? && args[1].Sup? then MergeSupported(reg, args[0], args[1], tag, fuel)
        else Raise(AttributeError)
      case MergeSupportedFlat =>
        if args[0].Sup? then MergeSupported(reg, args[0], Unsupported(args[1]), tag, fuel)
        else Raise(AttributeError)
      case MergeFlatSupported =>
        if args[1].Sup? then MergeSupported(reg, Unsupported(args[0]), args[1], tag, fuel)
        else Raise(AttributeError)
      case IntervalProduct =>
        if args[0].Ival? && args[1].Ival? then
          var low :- Call(reg, Mul, [args[0].low, args[1].low], tag, fuel);
          var high :- Call(reg, Mul, [args[0].high, args[1].high], tag, fuel);
          Ok(MakeInterval(low, high))
        else Raise(AttributeError)
      case IntervalQuotient =>
        if args[0].Ival? && args[1].Ival? then
          var low :- Call(reg, TrueDiv, [Num(1.0), args[1].high], tag, fuel);
          var high :- Call(reg, TrueDiv, [Num(1.0), args[1].low], tag, fuel);
          Call(reg, Mul, [args[0], MakeInterval(low, high)], tag, fuel)
        else Raise(AttributeError)
      case IntervalSqrt => Raise(NotModelled)
      case CoerceToInterval(op) => Call(reg, op, AllToInterval(args), tag, fuel)
      case SupportedUnpacking(op) =>
        if AllSupported(args) then
          var v :- Call(reg, op, Values(args), tag, fuel);
          Ok(Sup(v, UnionOfSupports(args)))
        else Raise(AttributeError)
      case CoerceToSupported(op) =>
        var supported := AllToSupported(args);
        var v :- Call(reg, op, Values(supported), tag, fuel);
        Ok(Sup(v, UnionOfSupports(supported)))
      case SupportedIsContradictory =>
        if args[0].Sup? then Call(reg, IsContradictory, [args[0].value], tag, fuel)
        else Raise(AttributeError)
  }

  /** `Supported.subsumes`: `other` must be `Supported`; then `implies` on the values and a subset of supports. */
  function Subsumes(reg: Registry, p: Value, q: Value, tag: nat, fuel: nat): Outcome<bool>
    requires p.Sup?
  {
    if !q.Sup? then Raise(AssertionFailed(NotSupported))
    else
      var imp :- Implies(reg, p.value, q.value, tag, fuel);
      Ok(imp && p.support <= q.support)
  }

  // ---------------------------------------------------------------------
  // Dispatch laws that hold for every registry.
  // ---------------------------------------------------------------------

  /** A call with the wrong number of arguments fails the arity assertion. */
  lemma CallWrongArity(reg: Registry, name: OpName, args: seq<Value>, tag: nat, fuel: nat)
    requires name in reg && |args| != reg[name].arity && fuel > 0
    ensures Call(reg, name, args, tag, fuel) == Raise(AssertionFailed(WrongArity))
  {}

  /**
   * A successful rule scan picks the first rule, from position `i` on, whose
   * tests accept the arguments; every earlier rule's tests reject them.
   */
  lemma {:induction false} SelectFindsFirst(reg: Registry, rules: seq<Rule>, args: seq<Value>, i: nat, tag: nat, fuel: nat)
    requires Select(reg, rules, args, i, tag, fuel).Ok?
    ensures var c := Select(reg, rules, args, i, tag, fuel).value;
      (c.Chosen? ==> exists k :: i <= k < |rules| && rules[k].handler == c.handler &&
                      Matches(reg, args, rules[k].tests, 0, tag, fuel) == Ok(true) &&
                      forall m :: i <= m < k ==> Matches(reg, args, rules[m].tests, 0, tag, fuel) == Ok(false)) &&
      (c.NoRule? ==> forall m :: i <= m < |rules| ==> Matches(reg, args, rules[m].tests, 0, tag, fuel) == Ok(false))
    decreases |rules| - i
  {
    if i < |rules| {
      var m := Matches(reg, args, rules[i].tests, 0, tag, fuel);
      if m == Ok(false) {
        SelectFindsFirst(reg, rules, args, i + 1, tag, fuel);
        var c := Select(reg, rules, args, i, tag, fuel).value;
        if c.Chosen? {
          var k :| i + 1 <= k < |rules| && rules[k].handler == c.handler &&
            Matches(reg, args, rules[k].tests, 0, tag, fuel) == Ok(true) &&
            forall m :: i + 1 <= m < k ==> Matches(reg, args, rules[m].tests, 0, tag, fuel) == Ok(false);
          assert forall m :: i <= m < k ==> Matches(reg, args, rules[m].tests, 0, tag, fuel) == Ok(false);
        }
      }
    }
  }

  /** Conversely: if rule `k` matches and every rule before it (from `i`) rejects, the scan picks rule `k`. */
  lemma {:induction false} SelectPicks(reg: Registry, rules: seq<Rule>, args: seq<Value>, i: nat, k: nat, tag: nat, fuel: nat)
    requires i <= k < |rules|
    requires Matches(reg, args, rules[k].tests, 0, tag, fuel) == Ok(true)
    requires forall m :: i <= m < k ==> Matches(reg, args, rules[m].tests, 0, tag, fuel) == Ok(false)
    ensures Select(reg, rules, args, i, tag, fuel) == Ok(Chosen(rules[k].handler))
    decreases k - i
  {
    if i < k {
      SelectPicks(reg, rules, args, i + 1, k, tag, fuel);
    }
  }

  /** If every rule from `i` on rejects the arguments, the scan finds none. */
  lemma {:induction false} SelectNone(reg: Registry, rules: seq<Rule>, args: seq<Value>, i: nat, tag: nat, fuel: nat)
    requires forall m :: i <= m < |rules| ==> Matches(reg, args, rules[m].tests, 0, tag, fuel) == Ok(false)
    ensures Select(reg, rules, args, i, tag, fuel) == Ok(NoRule)
    decreases |rules| - i
  {
    if i < |rules| {
      SelectNone(reg, rules, args, i + 1, tag, fuel);
    }
  }

  /**
   * A call returns the result of the first rule whose tests all accept the
   * arguments, and the default function's result when no rule does.
   */
  lemma CallDispatches(reg: Registry, name: OpName, args: seq<Value>, tag: nat, fuel: nat)
    requires name in reg && |args| == reg[name].arity && fuel > 0
    requires Select(reg, reg[name].rules, args, 0, tag, fuel - 1).Ok?
    ensures var c := Select(reg, reg[name].rules, args, 0, tag, fuel - 1).value;
      Call(reg, name, args, tag, fuel) == Apply(reg, if c.Chosen? then c.handler else reg[name].default, args, tag, fuel - 1)
    ensures (forall m :: 0 <= m < |reg[name].rules| ==>
               Matches(reg, args, reg[name].rules[m].tests, 0, tag, fuel - 1) == Ok(false)) ==>
      Call(reg, name, args, tag, fuel) == Apply(reg, reg[name].default, args, tag, fuel - 1)
  {
    if forall m :: 0 <= m < |reg[name].rules| ==> Matches(reg, args, reg[name].rules[m].tests, 0, tag, fuel - 1) == Ok(false) {
      SelectNone(reg, reg[name].rules, args, 0, tag, fuel - 1);
    }
  }

  /** The tests of a match accept every argument they are paired with. */
  lemma {:induction false} MatchesAccepts(reg: Registry, args: seq<Value>, tests: seq<Test>, j: nat, tag: nat, fuel: nat)
    requires Matches(reg, args, tests, j, tag, fuel) == Ok(true)
    ensures forall k :: j <= k < |args| && k < |tests| ==> Accepts(reg, tests[k], args[k], tag, fuel) == Ok(true)
    decreases |tests| - j
  {
    if j < |args| && j < |tests| {
      MatchesAccepts(reg, args, tests, j + 1, tag, fuel);
    }
  }

  /**
   * The rule assigned last is tried first: when its tests accept the
   * arguments, the call returns its function's result.
   */
  lemma AssignedRuleWins(reg: Registry, name: OpName, h: Handler, tests: seq<Test>, args: seq<Value>, tag: nat, fuel: nat)
    requires AssignOperation(reg, name, h, tests).Ok?
    requires |args| == reg[name].arity && fuel > 0
    requires Matches(AssignOperation(reg, name, h, tests).value, args, tests, 0, tag, fuel - 1) == Ok(true)
    ensures var reg' := AssignOperation(reg, name, h, tests).value;
      Call(reg', name, args, tag, fuel) == Apply(reg', h, args, tag, fuel - 1)
  {
    var reg' := AssignOperation(reg, name, h, tests).value;
    SelectPicks(reg', reg'[name].rules, args, 0, 0, tag, fuel - 1);
  }

  /** `square(x)` is `mul(x, x)`, dispatched through whatever `mul` rule accepts `(x, x)`. */
  lemma SquareIsMul(reg: Registry, x: Value, tag: nat, fuel: nat)
    requires Square in reg && reg[Square] == Operator(Square, 1, SquareByMul, [])
    ensures Call(reg, Square, [x], tag, fuel + 2) == Call(reg, Mul, [x, x], tag, fuel + 1)
  {}

  /**
   * A call creates no `Contradiction` other than the one numbered `tag`: when
   * every contradiction among the arguments is older than `n`, and `tag` is
   * too, so is every contradiction in the result. This holds for every
   * registry, since each handler returns numbers, strings, booleans, parts of
   * its arguments, results of nested calls or the contradiction `tag`.
   */
  lemma {:induction false} CallTagsBelow(reg: Registry, name: OpName, args: seq<Value>, tag: nat, fuel: nat, n: nat)
    requires tag < n && AllTagsBelow(args, n)
    ensures Call(reg, name, args, tag, fuel).Ok? ==> TagsBelow(Call(reg, name, args, tag, fuel).value, n)
    decreases fuel, 0, 0
  {
    if fuel > 0 && name in reg && |args| == reg[name].arity {
      var choice := Select(reg, reg[name].rules, args, 0, tag, fuel - 1);
      if choice.Ok? {
        var h := if choice.value.Chosen? then choice.value.handler else reg[name].default;
        ApplyTagsBelow(reg, h, args, tag, fuel - 1, n);
      }
    }
  }

  lemma {:induction false} MergeSupportedTagsBelow(reg: Registry, content: Value, increment: Value, tag: nat, fuel: nat, n: nat)
    requires content.Sup? && increment.Sup? && tag < n && TagsBelow(content, n) && TagsBelow(increment, n)
    ensures MergeSupported(reg, content, increment, tag, fuel).Ok? ==>
      TagsBelow(MergeSupported(reg, content, increment, tag, fuel).value, n)
    decreases fuel, 2, 0
  {
    CallTagsBelow(reg, Merge, [content.value, increment.value], tag, fuel, n);
  }

  lemma {:induction false} IntervalRuleTagsBelow(reg: Registry, h: Handler, args: seq<Value>, tag: nat, fuel: nat, n: nat)
    requires (h == IntervalProduct || h == IntervalQuotient) && |args| == 2
    requires tag < n && AllTagsBelow(args, n)
    ensures Apply(reg, h, args, tag, fuel).Ok? ==> TagsBelow(Apply(reg, h, args, tag, fuel).value, n)
    decreases fuel, 2, 1
  {
    if args[0].Ival? && args[1].Ival? {
      if h == IntervalProduct {
        CallTagsBelow(reg, Mul, [args[0].low, args[1].low], tag, fuel, n);
        CallTagsBelow(reg, Mul, [args[0].high, args[1].high], tag, fuel, n);
      } else {
        CallTagsBelow(reg, TrueDiv, [Num(1.0), args[1].high], tag, fuel, n);
        CallTagsBelow(reg, TrueDiv, [Num(1.0), args[1].low], tag, fuel, n);
        var low := Call(reg, TrueDiv, [Num(1.0), args[1].high], tag, fuel);
        var high := Call(reg, TrueDiv, [Num(1.0), args[1].low], tag, fuel);
        if low.Ok? && high.Ok? {
          CallTagsBelow(reg, Mul, [args[0], MakeInterval(low.value, high.value)], tag, fuel, n);
        }
      }
    }
  }

  lemma {:induction false} SupportedMergeTagsBelow(reg: Registry, h: Handler, args: seq<Value>, tag: nat, fuel: nat, n: nat)
    requires (h == MergeSupporteds || h == MergeSupportedFlat || h == MergeFlatSupported) && |args| == 2
    requires tag < n && AllTagsBelow(args, n)
    ensures Apply(reg, h, args, tag, fuel).Ok? ==> TagsBelow(Apply(reg, h, args, tag, fuel).value, n)
    decreases fuel, 2, 1
  {
    if h == MergeSupporteds && args[0].Sup? && args[1].Sup? {
      MergeSupportedTagsBelow(reg, args[0], args[1], tag, fuel, n);
    } else if h == MergeSupportedFlat && args[0].Sup? {
      MergeSupportedTagsBelow(reg, args[0], Unsupported(args[1]), tag, fuel, n);
    } else if h == MergeFlatSupported && args[1].Sup? {
      MergeSupportedTagsBelow(reg, Unsupported(args[0]), args[1], tag, fuel, n);
    }
  }

  lemma {:induction false} CoercionTagsBelow(reg: Registry, h: Handler, args: seq<Value>, tag: nat, fuel: nat, n: nat)
    requires h.CoerceToInterval? || h.SupportedUnpacking? || h.CoerceToSupported?
    requires tag < n && AllTagsBelow(args, n)
    ensures Apply(reg, h, args, tag, fuel).Ok? ==> TagsBelow(Apply(reg, h, args, tag, fuel).value, n)
    decreases fuel, 2, 1
  {
    match h
    case CoerceToInterval(op) =>
      var coerced := AllToInterval(args);
      assert AllTagsBelow(coerced, n) by {
        forall i | 0 <= i < |coerced| ensures TagsBelow(coerced[i], n) {
          assert coerced[i] == ToInterval(args[i]);
        }
      }
      CallTagsBelow(reg, op, coerced, tag, fuel, n);
    case SupportedUnpacking(op) =>
      if AllSupported(args) {
        var vs := Values(args);
        assert AllTagsBelow(vs, n) by {
          forall i | 0 <= i < |vs| ensures TagsBelow(vs[i], n) {
            assert vs[i] == args[i].value;
          }
        }
        CallTagsBelow(reg, op, vs, tag, fuel, n);
      }
    case CoerceToSupported(op) =>
      var supported := AllToSupported(args);
      assert AllSupported(supported) && AllTagsBelow(supported, n) by {
        forall i | 0 <= i < |supported| ensures supported[i].Sup? && TagsBelow(supported[i], n) {
          assert supported[i] == ToSupported(args[i]);
        }
      }
      var vs := Values(supported);
      assert AllTagsBelow(vs, n) by {
        forall i | 0 <= i < |vs| ensures TagsBelow(vs[i], n) {
          assert vs[i] == supported[i].value;
        }
      }
      CallTagsBelow(reg, op, vs, tag, fuel, n);
  }

  lemma {:induction false} ApplyTagsBelow(reg: Registry, h: Handler, args: seq<Value>, tag: nat, fuel: nat, n: nat)
    requires tag < n && AllTagsBelow(args, n)
    ensures Apply(reg, h, args, tag, fuel).Ok? ==> TagsBelow(Apply(reg, h, args, tag, fuel).value, n)
    decreases fuel, 3, 0
  {
    if TakesArgs(h, |args|) {
      match h
      case Builtin(f) => PyApplyPlain(f, args);
      case SquareByMul => CallTagsBelow(reg, Mul, [args[0], args[0]], tag, fuel, n);
      case MergeIntervals =>
        if args[0].Ival? && args[1].Ival? {
          MergeIntervalsTags(args[0], args[1], tag, n);
        }
      case NumberIntoInterval =>
        if args[1].Ival? {
          EnsureInsideTags(args[1], args[0], tag, n);
        }
      case IntervalAroundNumber =>
        if args[0].Ival? {
          EnsureInsideTags(args[0], args[1], tag, n);
        }
      case MergeSupporteds | MergeSupportedFlat | MergeFlatSupported =>
        SupportedMergeTagsBelow(reg, h, args, tag, fuel, n);
      case IntervalProduct | IntervalQuotient => IntervalRuleTagsBelow(reg, h, args, tag, fuel, n);
      case CoerceToInterval(_) | SupportedUnpacking(_) | CoerceToSupported(_) =>
        CoercionTagsBelow(reg, h, args, tag, fuel, n);
      case SupportedIsContradictory =>
        if args[0].Sup? {
          CallTagsBelow(reg, IsContradictory, [args[0].value], tag, fuel, n);
        }
      case _ =>
    }
  }
}
