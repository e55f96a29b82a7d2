# Propagator networks in Dafny

This project models the core of `propagator.py`, a Python implementation of
propagator networks in the style of Radul and Sussman's *The Art of the
Propagator*. A network consists of three kinds of object:

- **Cells** hold partial information about a value. A cell starts empty (`None`).
- **Propagators** are closures that read some cells and add content to others.
- **A scheduler** queues the propagators whose inputs changed and calls them
  until the queue is empty.

The repository holds two generations of the engine.

- **The `propagator` package** is the generic engine.
  - A cell does not overwrite its content. It *merges* new information into
    what it has.
  - `merge` and the arithmetic operators are **generic operators**. A generic
    operator scans a list of (tests, function) rules, newest first, and calls
    the first rule whose tests accept every argument. If none does, it calls a
    default.
  - Rules in three modules give meaning to four kinds of content:
    - plain values;
    - `Contradiction` objects, which absorb everything;
    - `Interval`s, which merge by intersection;
    - `Supported` values, which carry the set of premises they rest on.
- **The `art` package** is the earlier engine.
  - Cells are write-once: a second, different value raises `ValueError`.
  - Its scheduler runs the alerted propagators in rounds, recursively, until
    none is left.

The model has three layers:

- **Values.** `PyValues`, `PyUtil`, `SetQueues`, `GenericOperators`,
  `Dispatch`, `Standard`, `Intervals`, `Supports`, `Lattice`, `MergeLaws` and
  `Arithmetic`.
  - The generic-operator dictionary becomes a `map`.
  - A Python call of a generic operator becomes `Dispatch.Call`. This is a
    recursive function with an explicit recursion budget.
  - The standard table of rules is `Standard.Std`.
  - `Lattice.MergeValues` is an independent, direct definition of what the
    standard `merge` computes. `Lattice.MergeAgrees` proves that the generic
    dispatch computes it.
- **Networks as values.** `NetworkModel` and `ArtModel` describe a network as
  a value:
  - the cell contents and neighbour lists;
  - the propagator closures, numbered in creation order;
  - the scheduler's queues.

  Each operation of the source is a function on that value.
  `NetworkLaws`/`ArtLaws` prove the invariants the operations keep and what
  each one does. `NetworkScenarios`/`ArtScenarios` replay the library's tests.
- **Networks as objects.** `Runtime` and `ArtRuntime` are the same engines
  as classes: a `Scheduler`, `Cell` objects and a `Network` that owns them.
  - Their methods update fields in place.
  - Each method is proved to produce exactly the state that the value model
    gives: `(r, Snapshot()) == Model.Op(old(Snapshot()), …)`.

Several Python details become explicit parameters:

- Propagator closures are numbered (`PropId`).
- A cell is referred to by its number in the network (`CellId`).
- The module-level `scheduler` singleton is a field of the network.
- A `Contradiction`'s message is replaced by a tag handed out in order: one
  per write, one per primitive call, and one per user-made `Contradiction()`.

The engine in `propagator/network.py` is the same as the one in
`propagator/core.py`; the rows below cite `core.py`. The `SetQueue` of
`art/util.py` is a copy of the one in `propagator/util.py`.

## Model

| member | source | states |
|---|---|---|
| PyValues.Bool | propagator/operator.py:15-23 | `True`/`False` are the numbers 1 and 0, as Python's `bool` is an `int` |
| PyValues.TruthyBool | propagator/primitives.py:133-137 | the truth value of `Bool(b)` is `b` |
| PyValues.Max | propagator/content/interval.py:27-28 | `max` of two numbers is the larger one |
| PyValues.Min | propagator/content/interval.py:27-28 | `min` of two numbers is the smaller one |
| PyValues.PyApply | propagator/operator.py:7-27 | a built-in called with the wrong number of arguments raises `TypeError`; `not_` gives the negated truth value |
| PyValues.PyApplyNumbers | propagator/operator.py:7-21 | on two numbers, `add`/`sub`/`mul` are the field operations, and `truediv` raises `ZeroDivisionError` exactly when the divisor is 0; `lt`/`gt`/`le`/`ge` give the comparison as 1 or 0 |
| PyValues.PyApplyPlain | propagator/operator.py:7-27 | a built-in that returns gives a number or a string, never a contradiction or a partial-information value |
| PyUtil.AllNone | propagator/util.py:7-11 | true exactly when every item is `None`, including for no items |
| PyUtil.Listify | propagator/util.py:19-25 | `None` gives `[]`; a non-iterable object and a string (iterable, but not split) give the one-item list of the object; a non-string iterable gives its own items |
| PyUtil.ListifyIdempotent | propagator/util.py:19-25 | `listify` applied to a list it returned gives that list back |
| PyUtil.ListifyItems | propagator/util.py:19-25 | every item of the result is the argument itself or one of its items; only `None` or a non-string iterable gives other than one item; the result is empty exactly for `None` or an empty non-string iterable |
| SetQueues.EnqueuedItems | propagator/util.py:45-48 | after adding a list of items, the queue holds exactly the old items and the new ones |
| SetQueues.AddUniqueSpec | propagator/util.py:45-48 | `add` appends `x` exactly when it is absent, and keeps the queue duplicate-free |
| SetQueues.EnqueuedSpec | propagator/util.py:45-48 | adding a list keeps the old queue as a prefix, stays duplicate-free, and holds exactly the old and the new items |
| SetQueues.WithoutSpec | propagator/util.py:55-57 | deleting `x` keeps every other item, drops `x`, and shortens the queue by one exactly when `x` was present |
| SetQueues.DistinctCount | propagator/util.py:30-33 | the set's size is the deque's length when they hold the same duplicate-free items |
| SetQueues.SetQueue.constructor | propagator/util.py:31-33 | a new `SetQueue` is empty |
| SetQueues.SetQueue.Length | propagator/util.py:30-33 | `len` is the number of queued items |
| SetQueues.SetQueue.Items | propagator/util.py:35-37 | iteration yields the items in insertion order |
| SetQueues.SetQueue.Add | propagator/util.py:45-48 | appends `x` unless it is a member; set and deque stay in step |
| SetQueues.SetQueue.Pop | propagator/util.py:50-53 | removes and returns the oldest item; an empty queue raises `IndexError` and is unchanged |
| SetQueues.SetQueue.Remove | propagator/util.py:55-57 | deletes `x` from both; a non-member raises `KeyError` and changes nothing |
| SetQueues.SetQueue.Clear | propagator/util.py:59-61 | empties both the set and the deque |
| GenericOperators.Operator.Assign | propagator/generic_operator.py:77-81 | the new rule goes to the front; name, arity, default and the older rules are kept |
| GenericOperators.MakeGenericOperator | propagator/generic_operator.py:94-96 | the name maps to a fresh operator with no rules |
| GenericOperators.MakeGenericOperatorFrame | propagator/generic_operator.py:94-96 | every other name is untouched and the table stays well formed |
| GenericOperators.AssignOperation | propagator/generic_operator.py:113-121 | an unknown name fails the first assertion; a wrong number of tests fails the second; otherwise the rule is prepended to that operator |
| GenericOperators.AssignOperationFrame | propagator/generic_operator.py:113-121 | a successful assignment keeps the set of names and every other operator, and keeps the table well formed |
| GenericOperators.OperatorTable.constructor | propagator/generic_operator.py:94-96 | the dictionary starts empty |
| GenericOperators.OperatorTable.Make | propagator/generic_operator.py:94-96 | stores a fresh operator under the name, replacing any earlier one |
| GenericOperators.OperatorTable.AssignRule | propagator/generic_operator.py:113-121 | both assertion failures leave the dictionary unchanged; success prepends the rule |
| GenericOperators.OperatorTable.Assign | propagator/generic_operator.py:77-81 | `assign` on a stored operator prepends the rule without checking the number of tests |
| Dispatch.Call | propagator/generic_operator.py:51-66 | no contract of its own; what a call computes is stated by `Dispatch.CallDispatches`, `Dispatch.CallWrongArity` and `Dispatch.CallTagsBelow` |
| Dispatch.Select | propagator/generic_operator.py:60-64 | no contract of its own; the rule it chooses is stated by `Dispatch.SelectFindsFirst`, `Dispatch.SelectPicks` and `Dispatch.SelectNone` |
| Dispatch.Matches | propagator/generic_operator.py:52-53 | no contract of its own; `matches` is stated by `Dispatch.MatchesAccepts`, `Arithmetic.TypeTestsMatchFrom` and `Lattice.MatchesPair` |
| Dispatch.Accepts | propagator/generic_operator.py:52-53 | no contract of its own; what one test answers is stated by `Lattice.AcceptsStd` |
| Dispatch.Apply | propagator/generic_operator.py:62-66 | no contract of its own; calling a rule's function or the default is stated by `Dispatch.CallDispatches` and `Dispatch.ApplyTagsBelow` |
| Dispatch.MergeSupported | propagator/content/supported.py:54-72 | no contract of its own; `_merge_supporteds` is stated by `Lattice.MergeSupportedsAgree`, `MergeLaws.SupportedKept`, `MergeLaws.SupportedOverridden` and `MergeLaws.SupportedUnion` |
| Dispatch.Subsumes | propagator/content/supported.py:49-51 | no contract of its own; `subsumes` is stated by `MergeLaws.SubsumesIntervals` and `MergeLaws.SubsumesExamples` |
| Dispatch.Implies | propagator/merging.py:37-38 | no contract of its own; `implies` is stated by `Lattice.ImpliesAgrees`, `MergeLaws.ImpliesNothing`, `MergeLaws.ImpliesReflexive`, `MergeLaws.ImpliesNumbers` and `MergeLaws.ImpliesIntervals` |
| Dispatch.CallWrongArity | propagator/generic_operator.py:57-58 | a call with the wrong number of arguments fails the arity assertion |
| Dispatch.SelectFindsFirst | propagator/generic_operator.py:60-64 | the chosen rule matches and every earlier rule rejects; if no rule is chosen, every rule rejects |
| Dispatch.SelectPicks | propagator/generic_operator.py:60-64 | if rule `k` matches and all earlier rules reject, rule `k` is chosen |
| Dispatch.SelectNone | propagator/generic_operator.py:60-66 | if every rule rejects, none is chosen |
| Dispatch.CallDispatches | propagator/generic_operator.py:51-66 | a call applies the chosen rule's function, or the default when every rule rejects |
| Dispatch.CallTagsBelow | propagator/generic_operator.py:51-66 | for every registry, a call creates no `Contradiction` but the one numbered `tag`: when the arguments and `tag` are below `n`, so is every contradiction in the result |
| Dispatch.ApplyTagsBelow | propagator/generic_operator.py:64-66 | the same for calling one rule's function or the default |
| Dispatch.MergeSupportedTagsBelow | propagator/content/supported.py:54-72 | the same for `_merge_supporteds` |
| Dispatch.IntervalRuleTagsBelow | propagator/content/interval.py:91-104 | the same for the interval product and quotient rules |
| Dispatch.SupportedMergeTagsBelow | propagator/content/supported.py:80-93 | the same for the three `Supported` merge rules |
| Dispatch.CoercionTagsBelow | propagator/content/supported.py:95-136 | the same for the rules that coerce to `Interval` or `Supported` and unpack `Supported` values |
| Dispatch.MatchesAccepts | propagator/generic_operator.py:52-53 | a successful match means each test accepted its argument |
| Dispatch.AssignedRuleWins | propagator/generic_operator.py:113-121 | after `assign_operation`, arguments that the new rule's tests accept go to the new function |
| Dispatch.SquareIsMul | propagator/operator.py:29 | `square(x)` is `mul(x, x)` |
| Standard.SupportedRules | propagator/content/supported.py:118-134 | each arithmetic operator gets three two-test `Supported` rules |
| Standard.MergeRules | propagator/merging.py:41-58 | the ten `merge` rules all have two callable tests |
| Standard.IntervalRules | propagator/content/interval.py:91-109 | the interval rules of `mul`/`truediv` (the list-test rule as written, the two coercion rules corrected, then the interval rule) have two tests each |
| Standard.IntervalArithmeticRules | propagator/content/interval.py:91-109 | all `mul`/`truediv` rules have two tests each |
| Standard.EveryOperatorName | propagator/operator.py:7-29 | every operator name is created by the library |
| Standard.StdOperator | propagator/operator.py:7-29 | the stored operator carries its name, and each of its rules has one test per argument |
| Standard.Std | propagator/merging.py:23-58 | the standard table is well formed and maps each name to its operator |
| Standard.StdOperators | propagator/operator.py:7-29 | binary operators have arity 2 and unary ones arity 1; each default other than `sqrt`'s is the `operator` function, and `square` calls `mul` |
| Standard.AsWrittenAgrees | propagator/content/interval.py:91-109 | the table as written and the corrected one hold the same operator under every name except `mul` and `truediv`, and differ there |
| Lattice.StdHasLattice | propagator/merging.py:23-35 | the standard table holds the standard `is_contradictory`, `is_nothing`, `is_not_nothing` and `merge` |
| Lattice.IsNothingCall | propagator/merging.py:24 | `is_nothing(v)` is `v is None` |
| Lattice.IsNotNothingCall | propagator/merging.py:25 | `is_not_nothing(v)` is `v is not None` |
| Lattice.IsContradictoryCall | propagator/content/supported.py:138-141 | `is_contradictory` is true of a `Contradiction` and of a `Supported` around a contradictory value |
| Lattice.AcceptsStd | propagator/generic_operator.py:52-53 | every callable test answers its predicate; a list used as a test raises `TypeError` |
| Lattice.MatchesPair | propagator/generic_operator.py:52-53 | two callable tests match a pair exactly when both hold |
| Lattice.MergeRuleIndex | propagator/merging.py:41-58 | the index of the first `merge` rule that holds of the pair: no earlier rule holds, and the chosen one does |
| Lattice.MergeSelect | propagator/generic_operator.py:60-64 | the rule scan of `merge` picks rule `MergeRuleIndex`, or none |
| Lattice.MergeCall | propagator/generic_operator.py:51-66 | `merge(a, b)` applies the handler of the chosen rule |
| Lattice.MergeValues | propagator/merging.py:28-58 | the reference merge never nests `Supported` deeper than its arguments |
| Lattice.MergeSupportedValues | propagator/content/supported.py:54-72 | the reference `_merge_supporteds` never nests deeper than its arguments |
| Lattice.MergeAgrees | propagator/merging.py:35 | the generic `merge` with the standard rules computes the reference merge |
| Lattice.SupportedMergeAgrees | propagator/content/supported.py:80-93 | the three `Supported` merge rules compute the reference merge |
| Lattice.FlatMergeAgrees | propagator/merging.py:41-58 | past the `Supported` rules, the chosen handler computes the reference merge |
| Lattice.IntervalMergeAgrees | propagator/content/interval.py:61-74 | the interval merge rules compute the reference merge |
| Lattice.LatticeMergeAgrees | propagator/merging.py:28-58 | the `None`, contradiction and default rules compute the reference merge |
| Lattice.MergeSupportedsAgree | propagator/content/supported.py:54-72 | `_merge_supporteds` through generic calls equals the reference |
| Lattice.ImpliesAgrees | propagator/merging.py:37-38 | `implies(v1, v2)` is `v1 == merge(v1, v2)` under the reference merge |
| MergeLaws.NothingIsIdentity | propagator/merging.py:41-49 | `None` is the identity on both sides |
| MergeLaws.DefaultMergeOnScalars | propagator/merging.py:28-33 | equal numbers or strings merge to the content; different ones give a new `Contradiction` |
| MergeLaws.ContradictionIncrementWins | propagator/merging.py:55-58 | an incoming contradiction replaces any content |
| MergeLaws.ContradictionContentKept | propagator/merging.py:51-58 | a stored contradiction is kept unless the increment is itself contradictory |
| MergeLaws.ContradictionAbsorbs | propagator/merging.py:51-58 | merging with anything contradictory gives something contradictory |
| MergeLaws.ContradictionAbsorbsSupported | propagator/content/supported.py:54-72 | the same for two `Supported` values |
| MergeLaws.MergeNotCommutative | propagator/merging.py:51-58 | two contradictions, or two `Supported` values with incomparable supports, merge differently in the two orders |
| MergeLaws.MergeCommutesOnPlain | propagator/merging.py:28-49 | on `None`, numbers, strings and numeric intervals, the order of the arguments does not matter |
| MergeLaws.MergeIdempotent | propagator/merging.py:28-58 | merging a well-formed value with itself gives it back |
| MergeLaws.ImpliesNothing | propagator/merging.py:37-38 | everything implies `None`; `None` implies only `None` |
| MergeLaws.ImpliesReflexive | propagator/merging.py:37-38 | a well-formed value implies itself |
| MergeLaws.ImpliesNumbers | propagator/merging.py:37-38 | numbers imply each other exactly when they are equal |
| MergeLaws.MergeIntervalValues | propagator/content/interval.py:37-47 | two numeric intervals merge to their intersection, or to a contradiction when it is empty, in either order |
| MergeLaws.MergeNumberInterval | propagator/content/interval.py:49-53 | a number merged with an interval, in either order, survives exactly when the interval contains it |
| MergeLaws.ImpliesIntervals | propagator/content/interval.py:37-47 | a non-empty interval implies another exactly when it lies inside it |
| MergeLaws.FlatIsUnsupported | propagator/content/supported.py:85-93 | a flat value beside a `Supported` one is merged as if it had the empty support |
| MergeLaws.SameValueSmallerSupportWins | propagator/content/supported.py:57-63 | for equal values, the strictly smaller support wins |
| MergeLaws.SupportedKept | propagator/content/supported.py:57-66 | when the merged value is the content's, the content is kept, unless the increment implies it on a strictly smaller support |
| MergeLaws.SupportedOverridden | propagator/content/supported.py:67-69 | when the merged value is only the increment's, the increment wins with its support |
| MergeLaws.SupportedUnion | propagator/content/supported.py:70-72 | a merged value new to both sides rests on the union of the supports |
| MergeLaws.SuperintendentOverrides | examples/dependencies.py:109-120 | the superintendent's exact height replaces the estimated interval and its support |
| MergeLaws.OverlappingEstimatesCombine | propagator/content/supported.py:70-72 | two overlapping estimates merge to their intersection on both supports |
| MergeLaws.SubsumesIntervals | propagator/content/supported.py:49-51 | a `Supported` interval subsumes another exactly when it lies inside it and its support is a subset |
| MergeLaws.SubsumesExamples | tests/test_supported.py:45-73 | the six `subsumes` tests give their expected answers |
| Intervals.MakeInterval | propagator/content/interval.py:8-10 | no contract of its own; `Interval(low, high)` is stated by `Intervals.OneArgumentInterval` |
| Intervals.MergeIntervals | propagator/content/interval.py:37-47 | no contract of its own; `_merge_intervals` is stated by `Intervals.MergeIntervalsNumeric`, `Intervals.MergeIntervalsSame` and `Intervals.MergeIntervalsTags` |
| Intervals.EnsureInside | propagator/content/interval.py:49-53 | no contract of its own; `_ensure_inside` is stated by `Intervals.EnsureInsideNumeric` and `Intervals.EnsureInsideTags` |
| Intervals.IsEmpty | propagator/content/interval.py:30-31 | no contract of its own; `is_empty` is stated by `Intervals.NumericTests` |
| Intervals.Contains | propagator/content/interval.py:33-34 | no contract of its own; `contains` is stated by `Intervals.NumericTests` and `Intervals.IntersectInside` |
| Intervals.ToInterval | propagator/content/interval.py:84-88 | an interval is kept; anything else becomes `Interval(x)` |
| Intervals.Intersect | propagator/content/interval.py:27-28 | `&` gives an interval |
| Intervals.OneArgumentInterval | propagator/content/interval.py:8-10 | `Interval(x)` is `[x, x]` for non-zero `x`; `Interval(0)` has no upper end |
| Intervals.IntervalEquality | propagator/content/interval.py:21-22 | intervals are equal exactly when both end points are; no interval equals a non-interval |
| Intervals.IntersectNumeric | propagator/content/interval.py:27-28 | `&` takes the larger lower end and the smaller upper end, and is symmetric |
| Intervals.NumericTests | propagator/content/interval.py:30-34 | `is_empty` is `low > high`; `contains(n)` is `low <= n <= high` |
| Intervals.IntersectInside | propagator/content/interval.py:27-34 | a number lies in the intersection exactly when it lies in both intervals |
| Intervals.MergeIntervalsNumeric | propagator/content/interval.py:37-47 | `_merge_intervals` gives the intersection, or a contradiction when it is empty, symmetrically |
| Intervals.MergeIntervalsSame | propagator/content/interval.py:37-47 | an interval merged with itself is kept when non-empty, and is a contradiction when empty |
| Intervals.EnsureInsideNumeric | propagator/content/interval.py:49-53 | a number survives exactly when the interval contains it |
| Intervals.MergeIntervalsTags | propagator/content/interval.py:37-47 | `_merge_intervals` returns an operand, their intersection, or the contradiction numbered `tag`, so it brings in no other contradiction |
| Intervals.EnsureInsideTags | propagator/content/interval.py:49-53 | `_ensure_inside` returns the number or the contradiction numbered `tag` |
| Supports.MoreInformative | propagator/content/supported.py:17-18 | no contract of its own; `more_informative_than` is stated by `Supports.MoreInformativeIsStrictSubset` and `Supports.MoreInformativeExample` |
| Supports.ToSupported | propagator/content/supported.py:109-113 | no contract of its own; `to_supported` is stated by `MergeLaws.FlatIsUnsupported`, `Arithmetic.FlatThenSupported` and `Arithmetic.SupportedThenFlat` |
| Supports.MoreInformativeIsStrictSubset | propagator/content/supported.py:17-18 | `more_informative_than` is strict subset, and asymmetric |
| Supports.Values | propagator/content/supported.py:101-102 | the values of the `Supported` arguments, in order |
| Supports.UnionOfSupports | propagator/content/supported.py:96-99 | the union of all supports: it contains each one, and nothing else |
| Supports.MoreInformativeExample | tests/test_supported.py:14-18 | two sources are more informative than three, not conversely |
| Arithmetic.TypeTestsMatchFrom | propagator/generic_operator.py:52-53 | type tests match exactly when each holds of its argument |
| Arithmetic.TypeTestsMatch | propagator/generic_operator.py:52-53 | two type tests match a pair exactly when both hold |
| Arithmetic.ScalarsRejected | propagator/generic_operator.py:52-53 | a rule that asks for a `Supported` value or an interval rejects scalar arguments |
| Arithmetic.ScalarsFallThrough | propagator/generic_operator.py:60-66 | when every rule asks for one, scalar arguments reach the default function |
| Arithmetic.SupportedRulesFirst | propagator/content/supported.py:118-134 | the first three rules of each arithmetic operator are the `Supported` rules; `mul`/`truediv` have 5 rules as written and 6 corrected |
| Arithmetic.FourthRule | propagator/content/interval.py:91-109 | the fourth rule of `mul`/`truediv` is the list-test rule as written; corrected, the fourth and fifth are the number-then-interval and interval-then-number coercion rules; the last is the interval rule |
| Arithmetic.StdRulesRejectScalars | propagator/content/supported.py:118-136 | every rule of a standard operator with a built-in default rejects scalars |
| Arithmetic.ScalarsUseDefault | propagator/operator.py:7-27 | standard operators on scalars compute the built-in function |
| Arithmetic.ScalarsUseDefaultAsWritten | propagator/operator.py:7-27 | in the table as written too, every operator but `mul` and `truediv` computes its built-in function on scalars |
| Arithmetic.NumberArithmetic | propagator/operator.py:7-13 | on numbers, `add`/`sub`/`mul`/`truediv` are the field operations; division by 0 raises |
| Arithmetic.PairSupports | propagator/content/supported.py:95-104 | the unpacked values are the two values; the support is the union |
| Arithmetic.SupportedPair | propagator/content/supported.py:118-122 | two `Supported` operands: the operator on the values, on the union of the supports |
| Arithmetic.FlatThenSupported | propagator/content/supported.py:131-134 | a flat first operand is given the empty support by `to_supported` (lines 109-113) before the `Supported` rule runs |
| Arithmetic.SupportedThenFlat | propagator/content/supported.py:125-128 | a flat second operand is given the empty support by `to_supported` (lines 109-113) before the `Supported` rule runs |
| Arithmetic.SupportedOperands | propagator/content/supported.py:118-122 | the same for the standard table |
| Arithmetic.FlatFirstOperand | propagator/content/supported.py:131-134 | the same for the standard table |
| Arithmetic.FlatSecondOperand | propagator/content/supported.py:125-128 | the same for the standard table |
| Arithmetic.IntervalRuleIn | propagator/content/interval.py:91-99 | two intervals pass the `Supported` rules and the two coercion rules and reach the interval rule |
| Arithmetic.IntervalRuleChosen | propagator/content/interval.py:91-104 | on two intervals, the corrected `mul`/`truediv` pick their interval rule |
| Arithmetic.IntervalProductIn | propagator/content/interval.py:91-94 | interval × interval is `Interval(mul(lows), mul(highs))` |
| Arithmetic.IntervalQuotientIn | propagator/content/interval.py:101-104 | interval ÷ interval is the product with `Interval(1/high, 1/low)` of the divisor |
| Arithmetic.StdIntervalRules | propagator/content/interval.py:91-109 | in the corrected table, the two coercion rules and then the interval rule of `mul`/`truediv` come right after the `Supported` rules |
| Arithmetic.NumberThenInterval | propagator/content/interval.py:80-99 | a number then an interval: the call is the same call with the number replaced by `Interval(x)` |
| Arithmetic.IntervalThenNumber | propagator/content/interval.py:80-99 | an interval then a number: the call is the same call with the number replaced by `Interval(x)` |
| Arithmetic.MixedOperandsCoerced | propagator/content/interval.py:96-109 | in the corrected table, `mul` and `truediv` of an interval and a number, in either order, coerce the number with `to_interval` |
| Arithmetic.CoercedZeroRaises | propagator/content/interval.py:83-87 | even corrected, `mul(Interval(3, 4), 0)` raises `TypeError`: `Interval(0)` has no upper end, so `mul(4, None)` is reached |
| Arithmetic.OpenProductRaises | propagator/content/interval.py:91-94 | `[3, 4]` times an interval with no upper end raises `TypeError` |
| Arithmetic.IntervalProductNumeric | propagator/content/interval.py:91-94 | numeric interval product multiplies the end points pairwise, without re-sorting |
| Arithmetic.IntervalQuotientNumeric | propagator/content/interval.py:101-104 | numeric interval quotient: `[al/bh, ah/bl]`, raising on a zero end point |
| Arithmetic.UnsupportedOperands | propagator/content/supported.py:95-104 | `Supported` operands without support give a result without support |
| Arithmetic.SupportedSumExample | tests/test_supported.py:21-27 | `Supported(3) + Supported(4) == Supported(7)` |
| Arithmetic.SupportedProductExample | tests/test_supported.py:29-35 | `Supported(3) * Supported(4) == Supported(12)` |
| Arithmetic.SupportedIntervalExample | tests/test_supported.py:37-43 | `Supported([3, 4]) * Supported([5, 6]) == Supported([15, 24])` |
| Arithmetic.ListRuleRaises | propagator/content/interval.py:96-99 | a list-test rule reached by non-`Supported` operands raises `TypeError` |
| Arithmetic.AsWrittenListRuleRaises | propagator/content/interval.py:96-99 | as written, `mul`/`truediv` raise `TypeError` for any operands that are not both `Supported` |
| Arithmetic.AsWrittenExamplesRaise | propagator/content/interval.py:106-109 | as written, `3 * 4`, `[3,4] * [5,6]`, and even `Supported(3) * Supported(4)` raise |
| Arithmetic.CorrectedExamples | propagator/content/interval.py:91-109 | corrected, they give 12, `[15, 24]` and `Supported(12)` |
| Arithmetic.CorrectedMixedExamples | propagator/content/interval.py:80-99 | corrected, `[3, 4]` beside 2 gives `[6, 8]` in either order |
| Arithmetic.DocumentedExample | tests/test_generic_operators.py:7-17 | `add` made with default `sub` gives 1 on (3, 2); with a number rule `add`, it gives 5 |
| NetworkLaws.EmptyValid | propagator/core.py:31-34 | a fresh network satisfies the invariant |
| NetworkLaws.AlertKeepsValid | propagator/core.py:53-57 | `alert_propagators` keeps both queues duplicate-free, with the pending queue inside the record |
| NetworkLaws.WriteKeepsValid | propagator/core.py:133-139 | `add_content` of a value holding only contradictions already created keeps the invariant (including that every held contradiction is older than the next one) and the build log |
| NetworkLaws.WriteKeepsTags | propagator/core.py:133-139 | `add_content` of a value whose contradictions are older than the next one keeps every stored contradiction older than the next one |
| NetworkLaws.TagsIssuedGrows | propagator/merging.py:7-9 | creating a contradiction keeps every held one older than the next |
| NetworkLaws.FireKeepsValid | propagator/primitives.py:43-44 | calling any propagator keeps the invariant; the build log only grows |
| NetworkLaws.PrimitiveKeepsValid | propagator/primitives.py:43-44 | a primitive's call keeps the invariant and the build log |
| NetworkLaws.ConditionalKeepsValid | propagator/primitives.py:132-137 | a conditional's call keeps the invariant and the build log |
| NetworkLaws.TagKeepsValid | propagator/merging.py:33 | counting a new contradiction tag keeps the invariant |
| NetworkLaws.NextContradictionIsNew | propagator/merging.py:7-9 | the next `Contradiction` is a new object: no cell holds it, so storing it changes the cell; creating it keeps the invariant |
| NetworkLaws.BuildKeepsValid | propagator/core.py:187-190 | recording a first build keeps the build log free of repeats |
| NetworkLaws.StepKeepsValid | propagator/core.py:65-67 | one turn of `run` keeps the invariant; the build log only grows |
| NetworkLaws.RunKeepsValid | propagator/core.py:63-67 | `run` keeps the invariant; the build log only grows |
| NetworkLaws.WriteAlertsIffChanged | propagator/core.py:133-139 | `add_content` changes only its own cell; if the content changed, every neighbour is alerted (appended after the old queue); otherwise nothing but the tag counter changes |
| NetworkLaws.WriteMerges | propagator/core.py:133-139 | with the library's merge, the new content is the reference merge of the old and the increment; a raising merge changes nothing |
| NetworkLaws.WriteNothing | propagator/core.py:133-139 | adding `None` changes nothing |
| NetworkLaws.WriteToEmpty | propagator/core.py:133-139 | content added to an empty cell is stored, and every neighbour is alerted |
| NetworkLaws.WriteSame | propagator/core.py:133-139 | adding the content a cell already holds changes nothing |
| NetworkLaws.WriteConflict | propagator/core.py:133-139 | a different number or string stores a `Contradiction` and alerts the neighbours (no `ValueError`) |
| NetworkLaws.ContradictionStays | propagator/core.py:133-139 | a stored contradiction stays when anything not contradictory is added |
| NetworkLaws.MissingInputChangesNothing | propagator/primitives.py:20-25 | a primitive with an empty input writes `None` to its output, which changes nothing but the tag counter |
| NetworkLaws.FireWithoutInput | propagator/primitives.py:20-25 | a primitive with an empty input writes `None` to its output, after taking a tag |
| NetworkLaws.PrimitiveApplies | propagator/primitives.py:37-46 | a primitive whose inputs are all filled writes `f` of their contents to its output, or raises what `f` raises |
| NetworkLaws.ConditionalChooses | propagator/primitives.py:131-139 | a conditional does nothing while the predicate is `None`; otherwise it copies `if_true` or `if_false`, by the predicate's truth value |
| NetworkLaws.CompoundBuildsOnce | propagator/core.py:182-192 | a compound's body is built on the first call that finds a non-empty neighbour, and never again |
| NetworkLaws.RegisterSpec | propagator/core.py:161-164 | `Propagator.__init__` adds `p` to each input's neighbours once, then alerts it once; nothing else changes |
| NetworkLaws.AddPropagatorSpec | propagator/core.py:161-164 | a new propagator (a constant one adding only contradictions already created) gets the next number, becomes a neighbour of exactly its inputs, and is alerted; the invariant holds afterwards |
| NetworkLaws.MakePrimitiveSpec | propagator/primitives.py:37-49 | with no cell, `IndexError` and nothing changes; otherwise the next propagator applies `f` to all but the last cell, is a neighbour of exactly those, writes to the last one, is alerted, and the invariant holds |
| NetworkLaws.MakeConditionalSpec | propagator/primitives.py:131-141 | the next propagator is a neighbour of exactly the predicate, `if_true` and `if_false`, is alerted, and the invariant holds |
| NetworkLaws.MakeSwitchSpec | propagator/primitives.py:145-146 | `switch` is `Cell('_')`, an empty cell that takes a tag, then a `conditional` with that cell as `if_false` |
| NetworkLaws.MakeSwitchKeepsValid | propagator/primitives.py:145-146 | `switch` keeps the invariant |
| NetworkLaws.MakeCompoundSpec | propagator/core.py:181-190 | the next propagator is a compound on `ns`, not yet built, a neighbour of exactly `ns`, alerted, and the invariant holds |
| NetworkLaws.AddCellKeepsValid | propagator/core.py:93-97 | a new cell without neighbours, holding only contradictions already created, keeps the invariant |
| NetworkLaws.NewCellSpec | propagator/core.py:93-97 | with the library's merge, `Cell(content=v)` is the next cell, holding `v`, with no neighbours; no one is alerted |
| NetworkLaws.NewCellKeepsValid | propagator/core.py:93-97 | `Cell(content=v)` keeps the invariant when `v` holds only contradictions already created |
| NetworkLaws.NewCellStores | propagator/core.py:93-97 | when `merge(None, v)` is `v`, the new cell holds `v` |
| NetworkLaws.WriteStores | propagator/core.py:133-139 | when `merge` answers `m`, the cell stores `m` and alerts its neighbours exactly when `m` differs from the content |
| NetworkLaws.InitializeSpec | propagator/core.py:39-42 | `initialize` empties both queues and keeps the invariant |
| NetworkModel.Write | propagator/core.py:133-139 | its own contract states only that the state stays well formed; what `add_content` computes is stated by `NetworkLaws.WriteMerges`, `NetworkLaws.WriteAlertsIffChanged` and `NetworkLaws.WriteStores` |
| NetworkModel.Fire | propagator/primitives.py:43-44 | its own contract states only shape; calling a primitive, a `conditional` (lines 131-141) or a compound (core.py:185-190) is stated by `NetworkLaws.PrimitiveApplies`, `NetworkLaws.MissingInputChangesNothing`, `NetworkLaws.ConditionalChooses`, `NetworkLaws.CompoundBuildsOnce` and `NetworkLaws.FireKeepsValid` |
| NetworkModel.Step | propagator/core.py:65-66 | its own contract states only shape; one turn is stated by `Runtime.Network.Step` and `NetworkLaws.StepKeepsValid` |
| NetworkModel.RunTurn | propagator/core.py:63-67 | its own contract states only shape; the loop is stated by `NetworkModel.Run`, `Runtime.RunUnfold`, `Runtime.RunEnd` and `NetworkLaws.RunKeepsValid` |
| NetworkModel.Register | propagator/core.py:161-164 | its own contract states only shape; `Propagator.__init__` is stated by `NetworkLaws.RegisterSpec` |
| NetworkModel.Lift | propagator/primitives.py:20-25 | no contract of its own; `_lift_to_cell_contents` is stated by `NetworkLaws.PrimitiveApplies`, `NetworkLaws.FireWithoutInput` and `NetworkLaws.MissingInputChangesNothing` |
| NetworkModel.MakePrimitive | propagator/primitives.py:37-49 | its own contract states only shape; `make_primitive(f)(*cells)` is stated by `NetworkLaws.MakePrimitiveSpec` |
| NetworkModel.MakeConditional | propagator/primitives.py:131-141 | its own contract states only shape; `conditional` is stated by `NetworkLaws.MakeConditionalSpec` |
| NetworkModel.MakeSwitch | propagator/primitives.py:145-146 | its own contract states only shape; `switch` is stated by `NetworkLaws.MakeSwitchSpec` and `NetworkLaws.MakeSwitchKeepsValid` |
| NetworkModel.MakeCompound | propagator/core.py:181-190 | its own contract states only shape; `Propagator.compound` is stated by `NetworkLaws.MakeCompoundSpec` |
| NetworkModel.Gather | propagator/primitives.py:44 | the contents of the given cells, in order |
| NetworkModel.Alert | propagator/core.py:53-57 | alerting changes only the two queues |
| NetworkModel.Run | propagator/core.py:63-67 | a finished run leaves the queue empty; an empty queue means nothing runs |
| NetworkModel.NewCell | propagator/core.py:93-97 | a kept cell is numbered next; when the merge raises, no cell is added |
| NetworkModel.NewContradiction | propagator/merging.py:7-9 | `Contradiction()` is a contradiction with the next identity, and only the identity counter changes |
| NetworkModel.NewNeighbor | propagator/core.py:114-117 | `new_neighbor` changes no contents and no propagators |
| NetworkModel.AddPropagator | propagator/core.py:161-164 | the new propagator gets the next number |
| NetworkModel.Initialize | propagator/core.py:39-42 | `initialize` keeps every number in the state meaningful |
| NetworkScenarios.NewEmptyCell | propagator/tests/test_network.py:13-15 | `Cell()` is the next cell, empty and without neighbours |
| NetworkScenarios.CellScenario | propagator/tests/test_network.py:17-42 | content added to an empty cell is stored; `None` and the same content change nothing; different content leaves a contradiction |
| NetworkScenarios.CellExamples | propagator/tests/test_network.py:17-42 | the five `add_content` tests give their expected results |
| NetworkScenarios.NeighborOnce | propagator/tests/test_network.py:55-61 | the same neighbour added twice is kept once |
| NetworkScenarios.FirstCell | propagator/tests/test_primitives.py:13 | the first cell is cell 0 |
| NetworkScenarios.SecondCell | propagator/tests/test_primitives.py:14 | the second cell is cell 1 |
| NetworkScenarios.ThirdCell | propagator/tests/test_primitives.py:15 | the third cell is cell 2 |
| NetworkScenarios.AdderBuilt | propagator/tests/test_primitives.py:17 | `adder(a, b, c)` is propagator 0, a neighbour of `a` and `b` only, and alerted |
| NetworkScenarios.AdderRegisters | propagator/core.py:161-164 | the registration part of `adder(a, b, c)` |
| NetworkScenarios.AdderNeighbors | propagator/core.py:162-163 | the two `new_neighbor` calls of `adder(a, b, c)` |
| NetworkScenarios.AdderInputWrite | propagator/tests/test_primitives.py:19-20 | a value written to an empty adder input is stored; the adder stays queued once |
| NetworkScenarios.AdderWriteA | propagator/tests/test_primitives.py:19 | `a.add_content(15)` is stored |
| NetworkScenarios.AdderWriteB | propagator/tests/test_primitives.py:20 | `b.add_content(13)` is stored |
| NetworkScenarios.AdderFires | propagator/primitives.py:43-44 | the adder writes 15 + 13 to `c`, which alerts nobody |
| NetworkScenarios.AdderOutputWrite | propagator/primitives.py:43-44 | a value written to the adder's empty output is stored; nobody is alerted |
| NetworkScenarios.AdderStoresSum | propagator/primitives.py:43-44 | 28 is stored in `c` |
| NetworkScenarios.AdderRuns | propagator/tests/test_primitives.py:22 | `run()` empties the queue with 28 in `c` |
| NetworkScenarios.AdderSum | propagator/primitives.py:53 | `add(15, 13)` is 28 in the table as written and in the corrected one |
| NetworkScenarios.AdderScenario | propagator/tests/test_primitives.py:12-24 | the adder test ends with 28 in `c`, on the table as written and on the corrected one |
| NetworkScenarios.ConstantBuilt | propagator/primitives.py:124-125 | `constant(5)(a)` has no inputs and is alerted once |
| NetworkScenarios.ConstantRuns | propagator/tests/test_primitives.py:199 | `run()` stores 5 in `a` |
| NetworkScenarios.ConstantStores | propagator/primitives.py:124-125 | 5 written to the empty `a` is stored |
| NetworkScenarios.ConstantScenario | propagator/tests/test_primitives.py:193-201 | the constant test ends with 5 in `a`, on the table as written and on the corrected one |
| NetworkScenarios.SwitchCell | propagator/primitives.py:145-146 | `switch` first makes its empty `if_false` cell, cell 3 |
| NetworkScenarios.SwitchBuilt | propagator/primitives.py:131-139 | the conditional watches `a`, `b` and cell 3, and is alerted |
| NetworkScenarios.SwitchRegisters | propagator/core.py:161-164 | the registration part of the conditional |
| NetworkScenarios.SwitchNeighbors | propagator/core.py:162-163 | the three `new_neighbor` calls |
| NetworkScenarios.SwitchRuns | propagator/primitives.py:132-137 | `run()` puts `'yes'` in `c` when the predicate is true, and `None` otherwise |
| NetworkScenarios.SwitchStoresYes | propagator/primitives.py:135 | `'yes'` written to the empty `c` is stored |
| NetworkScenarios.SwitchScenario | propagator/tests/test_primitives.py:204-225 | `c` receives `'yes'` exactly when the predicate is true |
| NetworkScenarios.SwitchExamples | propagator/tests/test_primitives.py:204-225 | `test_true` and `test_false` |
| Runtime.Scheduler.constructor | propagator/core.py:32-34 | both queues start empty |
| Runtime.Scheduler.Initialize | propagator/core.py:39-42 | both queues emptied |
| Runtime.Scheduler.AlertPropagators | propagator/core.py:53-57 | each propagator of `listify(ps)` joins the record and the queue, in order, unless already there |
| Runtime.Cell.constructor | propagator/core.py:93-96 | empty content, no neighbours |
| Runtime.Cell.NewNeighbor | propagator/core.py:114-117 | an existing neighbour changes nothing; a new one is appended and alerted |
| Runtime.Cell.AddContent | propagator/core.py:133-139 | the cell and both queues change as `CellWrite` says |
| Runtime.CellWrite | propagator/core.py:133-139 | a merge that gives back the content leaves the queues alone; otherwise the merge result is stored and the neighbours are enqueued; it raises exactly when `merge` does |
| Runtime.WriteRefined | propagator/core.py:133-139 | a cell-level `add_content` is the network-level `Write` |
| Runtime.NewCellRefined | propagator/core.py:93-97 | building a cell object is the network-level `NewCell` |
| Runtime.NewNeighborCases | propagator/core.py:114-117 | a cell-level `new_neighbor` is the network-level `NewNeighbor` |
| Runtime.RegisterStep | propagator/core.py:162-163 | one input of the loop is one `new_neighbor` |
| Runtime.RegisterDone | propagator/core.py:164 | the loop ends by alerting `p` |
| Runtime.RunUnfold | propagator/core.py:65-67 | one turn: an exception ends the run, otherwise it goes on |
| Runtime.RunEnd | propagator/core.py:65 | the run stops when the queue is empty |
| Runtime.Network.constructor | propagator/core.py:70 | an empty network with a fresh scheduler |
| Runtime.Network.Initialize | propagator/core.py:39-42 | the state becomes `NetworkModel.Initialize` of the old one |
| Runtime.Network.AddContent | propagator/core.py:133-139 | the result and state are `Write` of the old state |
| Runtime.Network.NewCell | propagator/core.py:93-97 | the result and state are `NewCell` of the old state; the new cell object is fresh |
| Runtime.Network.NewDetachedCell | propagator/core.py:93-97 | a fresh cell whose content and queues are as `CellWrite` gives |
| Runtime.Network.AppendCell | propagator/core.py:93-97 | the cell is appended; its content and empty neighbour list join the state |
| Runtime.Network.NewNeighbor | propagator/core.py:114-117 | the state becomes `NewNeighbor` of the old one |
| Runtime.Network.AddPropagator | propagator/core.py:161-164 | the number and state are `AddPropagator` of the old state |
| Runtime.Network.AddAction | propagator/core.py:161 | the closure becomes the next propagator |
| Runtime.Network.Register | propagator/core.py:162-164 | the state becomes `Register` of the old one |
| Runtime.Network.MakePrimitive | propagator/primitives.py:37-48 | the result and state are `MakePrimitive` of the old state |
| Runtime.Network.MakeConditional | propagator/primitives.py:131-139 | the number and state are `MakeConditional` of the old state |
| Runtime.Network.MakeSwitch | propagator/primitives.py:145-146 | the result and state are `MakeSwitch` of the old state |
| Runtime.Network.MakeCompound | propagator/core.py:182-192 | the number and state are `MakeCompound` of the old state |
| Runtime.Network.Fire | propagator/core.py:67 | the result and state are `Fire` of the old state |
| Runtime.Network.FirePrimitive | propagator/primitives.py:43-44 | the same, for a primitive |
| Runtime.Network.FireConditional | propagator/primitives.py:132-137 | the same, for a conditional |
| Runtime.Network.FireCompound | propagator/core.py:185-190 | the same, for a compound |
| Runtime.Network.Step | propagator/core.py:66-67 | the result and state are `Step` of the old state |
| Runtime.Network.Turn | propagator/core.py:65-67 | one turn: an exception ends the run, otherwise the rest of the run is the run with one turn less |
| Runtime.Network.Run | propagator/core.py:63-67 | the result and state are `Run` of the old state |
| ArtModel.Listify | art/scheduler.py:16-20 | no contract of its own; `alert_propagators` enqueuing exactly the old items and those of `listify(ps)` is stated by `ArtLaws.AlertKeepsValid` and `ArtRuntime.Scheduler.AlertPropagators` |
| ArtModel.AnyAlerted | art/scheduler.py:59-61 | no contract of its own; it is stated by `ArtRuntime.Scheduler.AnyAlerted` (true exactly when the list is non-empty), `ArtModel.RunAlerted` and `ArtModel.Run` |
| ArtModel.Lift | art/primitives.py:19-24 | no contract of its own; `lift_to_cell_contents` is stated by `ArtLaws.PrimitiveApplies` and `ArtLaws.MissingInputChangesNothing` |
| ArtModel.Register | art/art.py:37-41 | its own contract states only shape; `Propagator.__init__` is stated by `ArtLaws.RegisterSpec` |
| ArtModel.MakePrimitive | art/primitives.py:36-53 | its own contract states only shape; `make_primitive(f)(*cells)` is stated by `ArtLaws.MakePrimitiveSpec` |
| ArtModel.MakeCompound | art/art.py:49-58 | its own contract states only shape; `Propagator.compound` is stated by `ArtLaws.MakeCompoundSpec` |
| ArtModel.Round | art/scheduler.py:118-119 | its own contract states only shape; a round is stated by `ArtLaws.RoundSingle`, `ArtLaws.RoundSettles`, `ArtLaws.RoundKeepsValid` and `ArtRuntime.Network.RunRound` |
| ArtModel.OrderPreservingInsert | art/scheduler.py:25-28 | on a set that matches its list, `x` is appended exactly when absent, and the two stay in step |
| ArtModel.Alert | art/scheduler.py:101-108 | alerting changes only the two lists |
| ArtModel.Initialize | art/scheduler.py:45-53 | both lists emptied, `abort_process` false, `last_value_of_run` `"done"`; cells and propagators kept |
| ArtModel.Write | art/art.py:24-34 | it succeeds exactly when `c` is `None`, the cell is empty, or the cell holds `c`; otherwise it raises `ValueError` and changes nothing; an empty cell stores `c`; a filled cell or `None` changes nothing |
| ArtModel.WriteAsWritten | art/art.py:24-34 | as written, filling an empty cell raises `AttributeError` (after storing the content); otherwise it behaves as `Write` |
| ArtModel.RegisterAsWritten | art/art.py:37-41 | as written, `Propagator.__init__` always raises `AttributeError` |
| ArtModel.NewCell | art/art.py:6-10 | the next cell holds `v` with no neighbours; nothing else changes |
| ArtModel.NewNeighbor | art/art.py:18-22 | `p` becomes a neighbour of `c` only, and an existing neighbour changes nothing |
| ArtModel.AddPropagator | art/art.py:37-41 | the new propagator gets the next number |
| ArtModel.MakeSwitch | art/primitives.py:120-131 | `switch` adds one empty cell |
| ArtModel.Gather | art/primitives.py:46 | the contents of the given cells, in order |
| ArtModel.Fire | art/primitives.py:43-46 | a call keeps the propagators and `last_value_of_run` |
| ArtModel.RunAlerted | art/scheduler.py:114-122 | a completed `run_alerted` leaves nothing alerted |
| ArtModel.Run | art/scheduler.py:127-133 | with nothing alerted, `run` returns `last_value_of_run` and changes nothing; otherwise a completed run stores and returns `None` |
| ArtLaws.FreshValid | art/scheduler.py:39-53 | a new scheduler with no cells satisfies the invariant |
| ArtLaws.AlertKeepsValid | art/scheduler.py:101-108 | alerting keeps both lists as prefixes and duplicate-free, and adds exactly the new propagators |
| ArtLaws.WriteKeepsValid | art/art.py:24-34 | `add_content` keeps the invariant |
| ArtLaws.WriteToEmpty | art/art.py:26-29 | an empty cell stores `c`, and its neighbours are appended to both lists in order |
| ArtLaws.WriteSettles | art/art.py:24-34 | `add_content` never changes a filled cell |
| ArtLaws.FireSettles | art/primitives.py:43-46 | no propagator call changes a filled cell |
| ArtLaws.RoundSettles | art/scheduler.py:118-119 | a round never changes a filled cell |
| ArtLaws.RunAlertedSettles | art/scheduler.py:114-122 | `run_alerted` never changes a filled cell |
| ArtLaws.RunSettles | art/scheduler.py:127-133 | `run` never changes a filled cell: cells are write-once |
| ArtLaws.ClearedValid | art/scheduler.py:65-68 | emptying the alerted list keeps the invariant |
| ArtLaws.FireKeepsValid | art/primitives.py:43-46 | any propagator call keeps the invariant |
| ArtLaws.RoundKeepsValid | art/scheduler.py:118-119 | a round keeps the invariant |
| ArtLaws.RunAlertedKeepsValid | art/scheduler.py:114-122 | `run_alerted` keeps the invariant |
| ArtLaws.RunKeepsValid | art/scheduler.py:127-133 | `run` keeps the invariant |
| ArtLaws.RunAgain | art/scheduler.py:127-133 | a completed `run` leaves nothing alerted, so running again returns the same value and changes nothing |
| ArtLaws.RoundSingle | art/scheduler.py:118-119 | a round of one propagator is one call of it |
| ArtLaws.RunSingleRound | art/scheduler.py:129-130 | a first round that raises ends `run`; one that leaves nothing alerted makes `run` return `None` |
| ArtLaws.InitializeKeepsValid | art/scheduler.py:45-53 | `initialize` keeps the invariant, and nothing is alerted |
| ArtLaws.MissingInputChangesNothing | art/primitives.py:19-24 | a primitive with an empty input changes nothing |
| ArtLaws.PrimitiveApplies | art/primitives.py:36-50 | a primitive with all inputs filled writes `f` of them to its output, or raises what `f` raises |
| ArtLaws.ConstantWrites | art/primitives.py:113-114 | `constant(v)(o)` is a primitive without inputs that writes `v` to `o` |
| ArtLaws.SwitchChooses | art/primitives.py:122-127 | nothing while the predicate is `None`; otherwise the content of `if_true` or `if_false` goes to the output |
| ArtLaws.SwitchFalseDoesNothing | art/primitives.py:126-131 | a false predicate with the switch's empty `if_false` changes nothing |
| ArtLaws.CompoundBuildsOnce | art/art.py:49-58 | a compound builds on its first call (the `filter` guard is always true), and later calls change nothing |
| ArtLaws.RegisterSpec | art/art.py:37-41 | `p` becomes a neighbour of each input once and is alerted once; nothing else changes |
| ArtLaws.AddPropagatorSpec | art/art.py:37-41 | the new propagator is appended to both lists and to exactly its inputs' neighbours |
| ArtLaws.AddPropagatorKeepsValid | art/art.py:37-41 | creating a propagator keeps the invariant |
| ArtLaws.NewCellKeepsValid | art/art.py:6-10 | the next cell holds `v` with no neighbours; no one is alerted and the invariant holds |
| ArtLaws.MakePrimitiveSpec | art/primitives.py:39-48 | no cells raise `IndexError`; otherwise the propagator watches exactly the inputs and is alerted |
| ArtLaws.MakeSwitchSpec | art/primitives.py:120-131 | `switch` adds an empty cell and a conditional watching the predicate, `if_true` and that cell |
| ArtLaws.MakeCompoundSpec | art/art.py:49-58 | a compound propagator on its neighbours, not yet built, and alerted |
| ArtLaws.AsWrittenCellRaises | art/art.py:22-29 | as written, `Cell(5)` raises `AttributeError` after storing 5; corrected, it is cell 0 holding 5 |
| ArtScenarios.ArtCellsMade | art/art.py:6-10 | three cells are numbered 0, 1 and 2 |
| ArtScenarios.FirstPropagatorWiring | art/art.py:37-41 | on cells without neighbours, the first propagator becomes the only neighbour of exactly its inputs |
| ArtScenarios.AdderNeighbors | art/art.py:39-40 | building the adder's propagator on three fresh cells makes it a neighbour of `a` and `b` only |
| ArtScenarios.ArtAdderBuilt | art/primitives.py:36-50 | the adder watches `a` and `b` and is alerted |
| ArtScenarios.ArtAdderLifts | art/primitives.py:19-24 | lifted `add` of 15 and 13 is 28 |
| ArtScenarios.ArtAdderFires | art/primitives.py:43-46 | the adder stores 28 in `c` |
| ArtScenarios.ArtAdderRuns | art/scheduler.py:127-133 | running the adder stores 28 in `c` and returns `None` |
| ArtScenarios.ArtConstantAdded | art/art.py:37-41 | the constant's propagator, with no inputs, is nobody's neighbour and is alerted once |
| ArtScenarios.ArtConstantBuilt | art/primitives.py:113-114 | the constant is alerted and watches nothing |
| ArtScenarios.ArtConstantConflicts | art/art.py:30-32 | a constant meeting a different content makes `run` raise `ValueError`; the cell keeps 1 |
| ArtScenarios.SwitchCellMade | art/primitives.py:131 | `switch`'s `if_false` is the new cell 3 |
| ArtScenarios.SwitchNeighbors | art/primitives.py:129 | building the conditional's propagator on four fresh cells makes it a neighbour of the predicate, `if_true` and cell 3, not of the output |
| ArtScenarios.ArtSwitchBuilt | art/primitives.py:120-131 | `switch` adds cell 3 and wires the conditional |
| ArtScenarios.ArtSwitchFalse | art/primitives.py:126-127 | a false predicate leaves the output empty; `run` returns `None` |
| ArtScenarios.ArtSwitchTrueFires | art/primitives.py:124-125 | a true predicate copies `if_true` to the output |
| ArtScenarios.ArtSwitchTrue | art/primitives.py:120-131 | a true predicate fills the output, and `run` returns `None` |
| ArtRuntime.Scheduler.constructor | art/scheduler.py:39-40 | a new scheduler is initialized |
| ArtRuntime.Scheduler.Initialize | art/scheduler.py:45-53 | both lists emptied, `abort_process` false, `last_value_of_run` `"done"` |
| ArtRuntime.Scheduler.ClearAlerted | art/scheduler.py:65-68 | a new empty alerted set and list; the record is kept |
| ArtRuntime.Scheduler.AnyAlerted | art/scheduler.py:58-60 | true exactly when the alerted list is non-empty |
| ArtRuntime.Scheduler.TheAlerted | art/scheduler.py:81-84 | a copy of the alerted list, in order |
| ArtRuntime.Scheduler.AlertPropagators | art/scheduler.py:101-108 | each propagator of `listify(ps)` joins the record and the queue, in order, unless already there |
| ArtRuntime.Scheduler.AlertOne | art/scheduler.py:105-108 | each (set, list) pair becomes `order_preserving_insert` of `p` into the old pair, so each list has `p` appended exactly when it lacked it |
| ArtRuntime.Cell.constructor | art/art.py:8-9 | empty content, no neighbours |
| ArtRuntime.Cell.NewNeighbor | art/art.py:18-22 | an existing neighbour changes nothing; a new one is appended and alerted |
| ArtRuntime.Cell.AddContent | art/art.py:24-34 | the cell and both lists change as `CellAdd` says |
| ArtRuntime.CellAdd | art/art.py:24-34 | raises exactly on a different value for a filled cell; a filled cell keeps its content; an empty one stores `c` and enqueues its neighbours |
| ArtRuntime.WriteRefined | art/art.py:24-34 | a cell-level `add_content` is the network-level `Write` |
| ArtRuntime.NewNeighborCases | art/art.py:18-22 | a cell-level `new_neighbor` is the network-level `NewNeighbor` |
| ArtRuntime.RegisterStep | art/art.py:39-40 | one input of the loop is one `new_neighbor` |
| ArtRuntime.RegisterDone | art/art.py:41 | the loop ends by alerting `p` |
| ArtRuntime.RoundStep | art/scheduler.py:118-119 | one call of the loop: an exception ends the round, otherwise the round goes on |
| ArtRuntime.RunAlertedThen | art/scheduler.py:114-122 | one round, then another `run_alerted` if anything was alerted, is `RunAlerted` |
| ArtRuntime.Network.constructor | art/scheduler.py:39-40 | no cells, no propagators, a new scheduler |
| ArtRuntime.Network.Initialize | art/scheduler.py:45-53 | the state becomes `ArtModel.Initialize` of the old one |
| ArtRuntime.Network.AddContent | art/art.py:24-34 | the result and state are `Write` of the old state |
| ArtRuntime.Network.NewCell | art/art.py:6-10 | the number and state are `NewCell` of the old state |
| ArtRuntime.Network.NewDetachedCell | art/art.py:6-10 | a fresh cell holding `v` without neighbours; no one is alerted |
| ArtRuntime.Network.AppendCell | art/art.py:6-10 | the cell is appended to the network |
| ArtRuntime.Network.NewNeighbor | art/art.py:18-22 | the state becomes `NewNeighbor` of the old one |
| ArtRuntime.Network.AddPropagator | art/art.py:37-41 | the number and state are `AddPropagator` of the old state |
| ArtRuntime.Network.AddAction | art/art.py:37 | the closure becomes the next propagator |
| ArtRuntime.Network.Register | art/art.py:39-41 | the state becomes `Register` of the old one |
| ArtRuntime.Network.MakePrimitive | art/primitives.py:39-48 | the result and state are `MakePrimitive` of the old state |
| ArtRuntime.Network.MakeSwitch | art/primitives.py:120-131 | the number and state are `MakeSwitch` of the old state |
| ArtRuntime.Network.MakeCompound | art/art.py:49-58 | the number and state are `MakeCompound` of the old state |
| ArtRuntime.Network.Fire | art/scheduler.py:119 | the result and state are `Fire` of the old state |
| ArtRuntime.Network.FirePrimitive | art/primitives.py:43-46 | the same, for a primitive |
| ArtRuntime.Network.FireSwitch | art/primitives.py:122-127 | the same, for the conditional |
| ArtRuntime.Network.FireCompound | art/art.py:52-57 | the same, for a compound |
| ArtRuntime.Network.RunRound | art/scheduler.py:118-119 | the result and state are `Round` of the old state |
| ArtRuntime.Network.RunAlerted | art/scheduler.py:114-122 | the result and state are `RunAlerted` of the old state |
| ArtRuntime.Network.RunAlertedNested | art/scheduler.py:115-122 | past the depth check, the result and state are `RunAlerted` of the old state |
| ArtRuntime.Network.RunAlertedIf | art/scheduler.py:120-122 | the nested call when propagators remain alerted, otherwise nothing changes |
| ArtRuntime.Network.AlertedRound | art/scheduler.py:115-120 | one round on the snapshot of the list, and whether more were alerted |
| ArtRuntime.Network.TakeAlerted | art/scheduler.py:115-117 | returns the alerted list and empties it |
| ArtRuntime.Network.StoreNone | art/scheduler.py:130 | `last_value_of_run` becomes `None` |
| ArtRuntime.Network.Run | art/scheduler.py:127-133 | the result and state are `ArtModel.Run` of the old state |

## Left out

- Floating point. Numbers are Dafny `real`s, so rounding is not modelled.
  - `math.sqrt` (propagator/operator.py:25) is not evaluated: calling it
    raises `NotModelled`.
  - The interval `sqrt` rule (propagator/content/interval.py:76-79) and the
    `Supported` `sqrt` rule (propagator/content/supported.py:136) are
    registered (`Standard.Std`) and dispatched like every other rule. The
    `Supported` one unpacks and calls `sqrt`. The interval one
    (`IntervalSqrt`) raises `NotModelled` instead of taking `math.sqrt` of
    the end points.
  - `complex` numbers are left out.
- Python `int` and `float` are one kind of number, so `3 == 3.0` holds as in
  Python.
- PyValues.PyApply: `mul` of a string and an integer (`'ab' * 3`, sequence
  repetition) raises `TypeError` in the model, where Python repeats the
  string. Numbers are not split into `int` and `float`, so a repeat count
  cannot be told from a `float`, which Python rejects.
- Cell names, `__str__`/`__repr__`, logging and the `Contradiction` message
  are left out.
  - A contradiction carries a numeric tag instead, which stands for its
    object identity (`Contradiction` has no `__eq__`). The network hands out
    tags in order: one per write, one per primitive call, and one per
    user-made `Contradiction()` (`NetworkModel.NewContradiction`). `NetworkLaws.Valid` keeps every held tag below
    the next one. `Cell(content=v)`, `add_content(v)` and `constant(v)` keep
    it only when `v` holds contradictions already created
    (`NetworkLaws.NewCellKeepsValid`, `NetworkLaws.WriteKeepsValid`,
    `NetworkLaws.AddPropagatorSpec`). That is the case for every
    `Contradiction` a Python caller can have made.
  - `Supported`/`Interval` hashing is left out.
- Closures are numbered propagators, and their identity is their number.
  - The `assert callable(p)` checks (propagator/core.py:55,
    art/scheduler.py:104) always hold.
  - Calling a non-callable is left out.
- The body of a compound propagator (`to_build`) is code that the network
  cannot see. Its call is recorded in the build log, and its effects are not
  modelled.
- The recursion budget of the generic `Dispatch.Call` (`fuel`) is a
  parameter. With too little fuel a call raises `RecursionError`. All laws
  state how much fuel they need.
- `Scheduler.run` of `propagator/core.py` loops until the queue is empty. The
  model bounds it by a `budget` of turns and answers `Ok(false)` when the
  budget runs out. Non-termination is therefore not modelled.
- The recursion depth of `run_alerted` (art/scheduler.py:122) is a
  parameter. Running out of it raises `RecursionError`, as Python's stack
  limit would.
- `Supported.__init__`'s conversion of an arbitrary iterable into a `Support`
  (propagator/content/supported.py:27-28) is left out. Supports are Dafny
  sets of strings.
- `alert_all_propagators` (art/scheduler.py:73-76) and `process_abortion`
  (art/scheduler.py:86-91) are left out. The first calls an undefined name;
  the second refers to an undefined `self`.
- `ordered_key_list` is folded into `ArtRuntime.Scheduler.TheAlerted`.
- The tests on one argument and `SetQueue.update` / `copy` (which return
  `NotImplemented`) are not modelled.
- `PyUtil.Listify` takes the two `isinstance` facts about its argument
  (iterable, string) as part of the argument, since Python's class hierarchy
  is not modelled.
- propagator/interval.py, propagator/interval/core.py,
  propagator/interval/primitives.py, propagator/decorators.py, the logging
  modules, art/config.py and the demo scripts under examples/ are not part of
  this model. The one exception is the final merge of examples/dependencies.py
  (`MergeLaws.SuperintendentOverrides`).
- Module-level singletons become explicit objects. The `generic_operators`
  dictionary and `scheduler` become an `OperatorTable` and a network's
  `scheduler` field. `Runtime.Network.constructor` is a fresh
  `scheduler = Scheduler()`.
- Operators are resolved by name, in the table given to the call or the
  network, each time they are called (`Dispatch.Call`, and
  `NetworkModel.Lift` for `Generic(name)`). Python binds the operator object
  when a module is imported: `adder = make_primitive(add)`
  (propagator/primitives.py:53-118), the interval rules' `mul` and `truediv`
  (propagator/content/interval.py:5), the `supported_unpacking(op)` and
  `coercing(…, op)` rules (propagator/content/supported.py:116-134),
  `square`'s `mul` (propagator/operator.py:29), `is_not_nothing`'s
  `is_nothing` (propagator/merging.py:25) and `add_content`'s `merge`
  (propagator/core.py:18). Re-making an existing operator after the import
  (`make_generic_operator(2, "add", sub)`, as
  tests/test_generic_operators.py:15 does) therefore changes what
  the model's primitives and rules call, but not what Python's call: an
  `adder` built afterwards still adds in Python and subtracts in the model.
  Rules assigned to an operator that is still the same object behave the
  same in both.
- Python's call stack is not modelled. A propagator that raises ends the
  current `run` with that exception, and the state reached so far is kept.
- NetworkModel.Write, NetworkModel.Fire, NetworkModel.Step,
  NetworkModel.RunTurn, NetworkModel.Register, NetworkModel.MakePrimitive,
  NetworkModel.MakeConditional, NetworkModel.MakeSwitch,
  NetworkModel.MakeCompound: their own contracts state only that the state
  stays well formed. What they compute is stated by the `NetworkLaws` lemmas
  about them.
- ArtModel.Register, ArtModel.MakePrimitive, ArtModel.MakeCompound,
  ArtModel.Round: their own contracts state only shape. What they compute is
  stated by the `ArtLaws` lemmas about them.
- Dispatch.Call, Dispatch.Select, Dispatch.Matches, Dispatch.Accepts,
  Dispatch.Apply, Dispatch.MergeSupported, Dispatch.Subsumes,
  Dispatch.Implies: no contract of their own. They are mutually recursive
  definitions, and what they compute is stated by the `Dispatch`, `Lattice`
  and `MergeLaws` lemmas named in their rows.
- Intervals.MakeInterval, Intervals.MergeIntervals, Intervals.EnsureInside,
  Intervals.IsEmpty, Intervals.Contains, Supports.MoreInformative,
  Supports.ToSupported: no contract of their own. The `Intervals`,
  `Supports` and `MergeLaws` lemmas named in their rows state what they
  compute.
- NetworkModel.Lift, ArtModel.Lift, ArtModel.Listify, ArtModel.AnyAlerted: no
  contract of their own. The `NetworkLaws`, `ArtLaws` and `ArtRuntime`
  members named in their rows state what they compute.

## Findings

Two places where the code and its documentation disagree, as the code is
written:

- In `propagator/core.py`, `add_content` does not raise `ValueError` on
  conflicting content, although its doc comment says it does. It stores the
  `Contradiction` that `merge` returns (`NetworkLaws.WriteConflict`).
- `merge` is not commutative in general (`MergeLaws.MergeNotCommutative`).

The table below lists two defects of the code.

| source | as written | input that shows it | evidently intended | confidence | as-written member | corrected member |
|---|---|---|---|---|---|---|
| propagator/content/interval.py:96-99 | the "interval with number" rules of `mul` (and of `truediv`, lines 106-109) pass a tuple of two lists as `tests`. `assign_operation` accepts it because it has length 2, and `__call__` then calls each list as a test, which raises `TypeError`. As this rule is newer than the interval rule, every `mul`/`truediv` on operands that are not both `Supported` reaches it | `mul(3, 4)`, `mul(Interval(3, 4), Interval(5, 6))`, and also `mul(Supported(3), Supported(4))`, whose unpacked values are then multiplied | each test list is a rule of its own, so a number beside an interval is coerced with `to_interval` (`mul(Interval(3, 4), 2)` is `[6, 8]`, in either order), and numbers and intervals multiply normally | not executed | Arithmetic.AsWrittenExamplesRaise | Arithmetic.CorrectedMixedExamples |
| art/art.py:22 | `Cell.new_neighbor`, `Cell.add_content` (line 29) and `Propagator.__init__` (line 41) call `scheduler.alert_propagators`. `scheduler` comes from `from art import scheduler` (line 2). If art/__init__.py (not part of this model) does not rebind that name, it is the module art/scheduler.py, which defines the class `Scheduler` but no module-level function or instance, and the call raises `AttributeError` | `Cell(5)`: it stores 5, then raises | calls to a module-level `Scheduler()` instance, which alert the neighbours | not executed; holds only if art/__init__.py does not bind `scheduler` to an instance; examples/heron.py:1,28,38 calls `scheduler.initialize()` and `scheduler.run()` on the same import, which suggests the package may bind one | ArtLaws.AsWrittenCellRaises | ArtModel.NewCell |
