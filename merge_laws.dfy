/**
 * Laws of the standard merge, stated about the reference `MergeValues`
 * (which the generic `merge` call computes, by `Lattice.MergeAgrees`):
 * `None` is the identity, contradictions absorb, numbers and intervals
 * merge by intersection, and `Supported` values follow the three-way
 * keep / override / union rule. Merge is idempotent on well-formed values
 * and commutes on values without contradictions or supports, but not in
 * general.
 */
module MergeLaws {
  import opened PyValues
  import opened Intervals
  import opened Supports
  import opened Dispatch
  import opened Standard
  import opened Lattice
  import opened GenericOperators

  // ---------------------------------------------------------------------
  // propagator/merging.py
  // ---------------------------------------------------------------------

  /** `None` is the identity element on both sides; `merge(None, None)` is `None`. */
  lemma NothingIsIdentity(v: Value, tag: nat)
    ensures MergeValues(Nothing, v, tag) == Ok(v)
    ensures MergeValues(v, Nothing, tag) == Ok(v)
  {}

  /** On numbers and strings merge is the default: equal values merge to the content, others contradict. */
  lemma DefaultMergeOnScalars(a: Value, b: Value, tag: nat)
    requires (a.Num? || a.Str?) && (b.Num? || b.Str?)
    ensures MergeValues(a, b, tag) == Ok(if a == b then a else Contra(tag))
  {}

  /** A contradiction coming in always replaces the content. */
  lemma ContradictionIncrementWins(a: Value, t: nat, tag: nat)
    ensures MergeValues(a, Contra(t), tag) == Ok(Contra(t))
  {}

  /** A stored contradiction is kept, unless the increment is itself contradictory. */
  lemma ContradictionContentKept(t: nat, b: Value, tag: nat)
    ensures MergeValues(Contra(t), b, tag) == Ok(if Contradictory(b) then b else Contra(t))
  {}

  /**
   * A contradiction on either side makes the merge contradictory, also
   * inside `Supported` values of any nesting.
   */
  lemma {:induction false} ContradictionAbsorbs(a: Value, b: Value, tag: nat)
    requires Contradictory(a) || Contradictory(b)
    ensures MergeValues(a, b, tag).Ok? && Contradictory(MergeValues(a, b, tag).value)
    decreases MaxDepth(a, b), 1
  {
    if Supports.IsFlat(a) && b.Sup? {
      ContradictionAbsorbsSupported(Unsupported(a), b, tag);
    } else if a.Sup? && Supports.IsFlat(b) {
      ContradictionAbsorbsSupported(a, Unsupported(b), tag);
    } else if a.Sup? && b.Sup? {
      ContradictionAbsorbsSupported(a, b, tag);
    }
  }

  lemma {:induction false} ContradictionAbsorbsSupported(c: Value, i: Value, tag: nat)
    requires c.Sup? && i.Sup? && (Contradictory(c.value) || Contradictory(i.value))
    ensures MergeSupportedValues(c, i, tag).Ok? && Contradictory(MergeSupportedValues(c, i, tag).value)
    decreases MaxDepth(c, i), 0
  {
    ContradictionAbsorbs(c.value, i.value, tag);
    var merged := MergeValues(c.value, i.value, tag).value;
    if merged == c.value {
      ContradictionAbsorbs(i.value, merged, tag);
    }
  }

  /**
   * Merge is not commutative: of two contradictions the increment wins, and
   * of two `Supported` values with the same value and incomparable supports
   * the stored one is kept.
   */
  lemma MergeNotCommutative()
    ensures MergeValues(Contra(1), Contra(2), 0) == Ok(Contra(2))
    ensures MergeValues(Contra(2), Contra(1), 0) == Ok(Contra(1))
    ensures MergeValues(Sup(Num(5.0), {"a"}), Sup(Num(5.0), {"b"}), 0) == Ok(Sup(Num(5.0), {"a"}))
    ensures MergeValues(Sup(Num(5.0), {"b"}), Sup(Num(5.0), {"a"}), 0) == Ok(Sup(Num(5.0), {"b"}))
  {
    assert !MoreInformative({"b"}, {"a"}) by { assert "b" !in {"a"}; }
    assert !MoreInformative({"a"}, {"b"}) by { assert "a" !in {"b"}; }
  }

  /** Values without contradictions or supports: `None`, numbers, strings and numeric intervals. */
  predicate Plain(v: Value) {
    v.Nothing? || v.Num? || v.Str? || Numeric(v)
  }

  /** On plain values the result does not depend on the argument order. */
  lemma MergeCommutesOnPlain(a: Value, b: Value, tag: nat)
    requires Plain(a) && Plain(b)
    ensures MergeValues(a, b, tag) == MergeValues(b, a, tag)
  {
    if Numeric(a) && Numeric(b) {
      MergeIntervalsNumeric(a, b, tag);
    }
  }

  /** Well-formed contents: numeric intervals are non-empty, recursively inside `Supported`. */
  predicate Proper(v: Value) {
    match v
    case Ival(low, high) => low.Num? && high.Num? && low.n <= high.n
    case Sup(x, _) => Proper(x)
    case _ => true
  }

  /** Merging a well-formed value with itself gives it back. */
  lemma {:induction false} MergeIdempotent(a: Value, tag: nat)
    requires Proper(a)
    ensures MergeValues(a, a, tag) == Ok(a)
    decreases a
  {
    match a
    case Ival(_, _) => MergeIntervalsSame(a, tag);
    case Sup(x, s) =>
      MergeIdempotent(x, tag);
      assert !MoreInformative(s, s);
    case _ =>
  }

  /** `implies(v1, v2)` is `merge(v1, v2) == v1`: everything implies `None`, `None` implies only `None`. */
  lemma ImpliesNothing(v: Value, tag: nat)
    ensures ImpliesValues(v, Nothing, tag) == Ok(true)
    ensures ImpliesValues(Nothing, v, tag) == Ok(v == Nothing)
  {
    NothingIsIdentity(v, tag);
  }

  /** A well-formed value implies itself. */
  lemma ImpliesReflexive(v: Value, tag: nat)
    requires Proper(v)
    ensures ImpliesValues(v, v, tag) == Ok(true)
  {
    MergeIdempotent(v, tag);
  }

  /** Numbers imply each other only when equal. */
  lemma ImpliesNumbers(x: real, y: real, tag: nat)
    ensures ImpliesValues(Num(x), Num(y), tag) == Ok(x == y)
  {}

  // ---------------------------------------------------------------------
  // propagator/content/interval.py
  // ---------------------------------------------------------------------

  /**
   * Two numeric intervals merge to their intersection, or to a contradiction
   * when it is empty, whichever is the stored one.
   */
  lemma MergeIntervalValues(a: Value, b: Value, tag: nat)
    requires Numeric(a) && Numeric(b)
    ensures var lo := if a.low.n < b.low.n then b.low.n else a.low.n;
            var hi := if b.high.n < a.high.n then b.high.n else a.high.n;
            MergeValues(a, b, tag) == Ok(if lo > hi then Contra(tag) else Ival(Num(lo), Num(hi)))
    ensures MergeValues(a, b, tag) == MergeValues(b, a, tag)
  {
    MergeIntervalsNumeric(a, b, tag);
  }

  /** A number merged with a numeric interval, in either order, survives exactly when it lies inside. */
  lemma MergeNumberInterval(i: Value, n: real, tag: nat)
    requires Numeric(i)
    ensures MergeValues(i, Num(n), tag) == Ok(if i.low.n <= n <= i.high.n then Num(n) else Contra(tag))
    ensures MergeValues(Num(n), i, tag) == MergeValues(i, Num(n), tag)
  {
    EnsureInsideNumeric(i, n, tag);
  }

  /** A non-empty numeric interval implies another exactly when it lies inside it. */
  lemma ImpliesIntervals(a: Value, b: Value, tag: nat)
    requires Numeric(a) && Numeric(b) && a.low.n <= a.high.n
    ensures ImpliesValues(a, b, tag) == Ok(b.low.n <= a.low.n && a.high.n <= b.high.n)
  {
    MergeIntervalValues(a, b, tag);
  }

  // ---------------------------------------------------------------------
  // propagator/content/supported.py
  // ---------------------------------------------------------------------

  /** A flat value merged with a `Supported` one is first given the empty support. */
  lemma FlatIsUnsupported(x: Value, v: Value, s: set<Label>, tag: nat)
    requires Supports.IsFlat(x)
    ensures MergeValues(x, Sup(v, s), tag) == MergeValues(Sup(x, {}), Sup(v, s), tag)
    ensures MergeValues(Sup(v, s), x, tag) == MergeValues(Sup(v, s), Sup(x, {}), tag)
  {}

  /**
   * The same value with a strictly smaller support replaces the stored one;
   * otherwise the stored one is kept.
   */
  lemma SameValueSmallerSupportWins(v: Value, s1: set<Label>, s2: set<Label>, tag: nat)
    requires Proper(v)
    ensures MergeValues(Sup(v, s1), Sup(v, s2), tag) == Ok(if s2 < s1 then Sup(v, s2) else Sup(v, s1))
  {
    MergeIdempotent(v, tag);
  }

  /**
   * When the merged value is the stored value, the stored `Supported` is
   * kept unless the incoming value implies it and its support is strictly
   * smaller.
   */
  lemma SupportedKept(c: Value, i: Value, tag: nat)
    requires c.Sup? && i.Sup? && MergeValues(c.value, i.value, tag) == Ok(c.value)
    ensures var imp := ImpliesValues(i.value, c.value, tag);
      MergeValues(c, i, tag) ==
        if imp.Raise? then Raise(imp.error)
        else Ok(if imp.value && i.support < c.support then i else c)
  {}

  /** A merged value equal to the incoming value only: the incoming `Supported` wins, support and all. */
  lemma SupportedOverridden(c: Value, i: Value, tag: nat)
    requires c.Sup? && i.Sup? && MergeValues(c.value, i.value, tag) == Ok(i.value) && i.value != c.value
    ensures MergeValues(c, i, tag) == Ok(i)
  {}

  /** A merged value new to both sides rests on both supports. */
  lemma SupportedUnion(c: Value, i: Value, m: Value, tag: nat)
    requires c.Sup? && i.Sup? && MergeValues(c.value, i.value, tag) == Ok(m)
    requires m != c.value && m != i.value
    ensures MergeValues(c, i, tag) == Ok(Sup(m, c.support + i.support))
  {}

  /**
   * The superintendent's exact height, 45, lies inside the estimated
   * interval, so it overrides the estimate together with its support.
   */
  lemma SuperintendentOverrides()
    ensures MergeValues(Sup(Ival(Num(44.5), Num(47.25)), {"shadows", "better fall time"}),
                        Sup(Num(45.0), {"superintendent"}), 0)
         == Ok(Sup(Num(45.0), {"superintendent"}))
  {
    MergeNumberInterval(Ival(Num(44.5), Num(47.25)), 45.0, 0);
  }

  /** Two overlapping intervals with different supports merge to the intersection on both supports. */
  lemma OverlappingEstimatesCombine()
    ensures MergeValues(Sup(Ival(Num(44.0), Num(49.0)), {"shadows"}),
                        Sup(Ival(Num(45.0), Num(50.0)), {"fall time"}), 0)
         == Ok(Sup(Ival(Num(45.0), Num(49.0)), {"shadows", "fall time"}))
  {
    var c, i := Sup(Ival(Num(44.0), Num(49.0)), {"shadows"}), Sup(Ival(Num(45.0), Num(50.0)), {"fall time"});
    var m := Ival(Num(45.0), Num(49.0));
    MergeIntervalValues(c.value, i.value, 0);
    assert m != c.value && m != i.value;
    assert MergeValues(c.value, i.value, 0) == Ok(m);
    SupportedUnion(c, i, m, 0);
    assert MergeValues(c, i, 0) == Ok(Sup(m, c.support + i.support));
    assert c.support + i.support == {"shadows", "fall time"};
  }

  /** `subsumes` on numeric intervals: the value lies inside the other's and the support is a subset of the other's. */
  lemma SubsumesIntervals(reg: Registry, a: Value, b: Value, s1: set<Label>, s2: set<Label>, tag: nat, fuel: nat)
    requires StdLattice(reg) && fuel >= 3
    requires Numeric(a) && Numeric(b) && a.low.n <= a.high.n
    ensures Subsumes(reg, Sup(a, s1), Sup(b, s2), tag, fuel) ==
            Ok(b.low.n <= a.low.n && a.high.n <= b.high.n && s1 <= s2)
  {
    ImpliesAgrees(reg, a, b, tag, fuel);
    ImpliesIntervals(a, b, tag);
  }

  /** The six `subsumes` tests of the library: looser values and looser supports are subsumed, tighter ones are not. */
  lemma SubsumesExamples(reg: Registry, tag: nat, fuel: nat)
    requires StdLattice(reg) && fuel >= 3
    ensures Subsumes(reg, Sup(Ival(Num(5.0), Num(10.0)), {"this"}), Sup(Ival(Num(5.0), Num(10.0)), {"this", "that"}), tag, fuel) == Ok(true)
    ensures Subsumes(reg, Sup(Ival(Num(6.0), Num(9.0)), {"this", "that"}), Sup(Ival(Num(5.0), Num(10.0)), {"this", "that"}), tag, fuel) == Ok(true)
    ensures Subsumes(reg, Sup(Ival(Num(6.0), Num(9.0)), {"this"}), Sup(Ival(Num(5.0), Num(10.0)), {"this", "that"}), tag, fuel) == Ok(true)
    ensures Subsumes(reg, Sup(Ival(Num(5.0), Num(10.0)), {"this", "that"}), Sup(Ival(Num(5.0), Num(10.0)), {"this"}), tag, fuel) == Ok(false)
    ensures Subsumes(reg, Sup(Ival(Num(5.0), Num(10.0)), {"this", "that"}), Sup(Ival(Num(6.0), Num(9.0)), {"this", "that"}), tag, fuel) == Ok(false)
    ensures Subsumes(reg, Sup(Ival(Num(5.0), Num(10.0)), {"this", "that"}), Sup(Ival(Num(6.0), Num(9.0)), {"this"}), tag, fuel) == Ok(false)
  {
    var wide, narrow := Ival(Num(5.0), Num(10.0)), Ival(Num(6.0), Num(9.0));
    SubsumesIntervals(reg, wide, wide, {"this"}, {"this", "that"}, tag, fuel);
    SubsumesIntervals(reg, narrow, wide, {"this", "that"}, {"this", "that"}, tag, fuel);
    SubsumesIntervals(reg, narrow, wide, {"this"}, {"this", "that"}, tag, fuel);
    SubsumesIntervals(reg, wide, wide, {"this", "that"}, {"this"}, tag, fuel);
    assert "that" !in {"this"};
    SubsumesIntervals(reg, wide, narrow, {"this", "that"}, {"this", "that"}, tag, fuel);
    SubsumesIntervals(reg, wide, narrow, {"this", "that"}, {"this"}, tag, fuel);
  }
}
