/**
 * The `Interval` content type: construction, equality, intersection, the
 * emptiness and membership tests, and the two merge helpers. End points are
 * arbitrary values, compared with Python's ordering, so every comparison can
 * raise `TypeError`; the lemmas state what happens on numeric end points.
 */
module Intervals {
  import opened PyValues

  /**
   * `Interval(low, high)`. With `high` omitted (`None`) the expression
   * `high is None and low or high` gives `low` when `low` is truthy and
   * `None` when it is falsy, so `Interval(0)` has no upper end point.
   */
  function MakeInterval(low: Value, high: Value): Value {
    Ival(low, if high == Nothing then (if Truthy(low) then low else Nothing) else high)
  }

  /** `to_interval`: an interval is kept, anything else becomes `Interval(x)`. */
  function ToInterval(v: Value): (r: Value)
    ensures r.Ival?
    ensures v.Ival? ==> r == v
    ensures !v.Ival? ==> r.low == v
  {
    if v.Ival? then v else MakeInterval(v, Nothing)
  }

  /** A closed interval with numeric end points. */
  predicate Numeric(i: Value) {
    i.Ival? && i.low.Num? && i.high.Num?
  }

  /** `a & b`: `Interval(max(a.low, b.low), min(a.high, b.high))`. */
  function Intersect(a: Value, b: Value): (r: Outcome<Value>)
    requires a.Ival? && b.Ival?
    ensures r.Ok? ==> r.value.Ival?
  {
    var low :- Max(a.low, b.low);
    var high :- Min(a.high, b.high);
    Ok(MakeInterval(low, high))
  }

  /** `is_empty`: `low > high`. */
  function IsEmpty(i: Value): Outcome<bool>
    requires i.Ival?
  {
    Less(i.high, i.low)
  }

  /** `contains`: the chained comparison `high >= n >= low`, evaluated left to right. */
  function Contains(i: Value, n: Value): Outcome<bool>
    requires i.Ival?
  {
    var below :- LessEq(n, i.high);
    if !below then Ok(false) else LessEq(i.low, n)
  }

  /**
   * `_merge_intervals`: an empty intersection is a new `Contradiction`
   * (identity `tag`); otherwise the operand equal to the intersection is
   * returned, the stored content first, or else the intersection itself.
   */
  function MergeIntervals(content: Value, increment: Value, tag: nat): Outcome<Value>
    requires content.Ival? && increment.Ival?
  {
    var range :- Intersect(content, increment);
    var empty :- IsEmpty(range);
    if empty then Ok(Contra(tag))
    else if range == content then Ok(content)
    else if range == increment then Ok(increment)
    else Ok(range)
  }

  /** `_ensure_inside`: the number when the interval contains it, else a new `Contradiction`. */
  function EnsureInside(i: Value, n: Value, tag: nat): Outcome<Value>
    requires i.Ival?
  {
    var inside :- Contains(i, n);
    Ok(if inside then n else Contra(tag))
  }

  /**
   * `_merge_intervals` and `_ensure_inside` return an operand, a part of one,
   * or the contradiction numbered `tag`: no other identity appears.
   */
  lemma MergeIntervalsTags(content: Value, increment: Value, tag: nat, n: nat)
    requires content.Ival? && increment.Ival? && tag < n
    requires TagsBelow(content, n) && TagsBelow(increment, n)
    ensures MergeIntervals(content, increment, tag).Ok? ==> TagsBelow(MergeIntervals(content, increment, tag).value, n)
  {
    var range := Intersect(content, increment);
    if range.Ok? {
      assert TagsBelow(range.value, n);
    }
  }

  lemma EnsureInsideTags(i: Value, x: Value, tag: nat, n: nat)
    requires i.Ival? && tag < n && TagsBelow(x, n)
    ensures EnsureInside(i, x, tag).Ok? ==> TagsBelow(EnsureInside(i, x, tag).value, n)
  {}

  /** `Interval(x)` for a non-zero number is the one-point interval; `Interval(0)` has no upper end. */
  lemma OneArgumentInterval(x: real)
    ensures x != 0.0 ==> MakeInterval(Num(x), Nothing) == Ival(Num(x), Num(x))
    ensures x == 0.0 ==> MakeInterval(Num(x), Nothing) == Ival(Num(0.0), Nothing)
  {}

  /** Interval equality compares both end points, and no interval equals a non-interval. */
  lemma IntervalEquality(a: Value, b: Value)
    requires a.Ival?
    ensures a == b <==> b.Ival? && a.low == b.low && a.high == b.high
  {}

  /** On numeric intervals, `&` takes the larger lower and the smaller upper end point. */
  lemma IntersectNumeric(a: Value, b: Value)
    requires Numeric(a) && Numeric(b)
    ensures Intersect(a, b) == Ok(Ival(Num(if a.low.n < b.low.n then b.low.n else a.low.n),
                                       Num(if b.high.n < a.high.n then b.high.n else a.high.n)))
    ensures Intersect(a, b) == Intersect(b, a)
  {}

  /** A numeric interval is empty exactly when `low > high`, and contains exactly `low <= n <= high`. */
  lemma NumericTests(i: Value, n: real)
    requires Numeric(i)
    ensures IsEmpty(i) == Ok(i.low.n > i.high.n)
    ensures Contains(i, Num(n)) == Ok(i.low.n <= n <= i.high.n)
  {}

  /** The intersection of two numeric intervals lies inside both. */
  lemma IntersectInside(a: Value, b: Value, n: real)
    requires Numeric(a) && Numeric(b)
    ensures Intersect(a, b).Ok? && Numeric(Intersect(a, b).value)
    ensures Contains(Intersect(a, b).value, Num(n)) == Ok(a.low.n <= n <= a.high.n && b.low.n <= n <= b.high.n)
  {
    IntersectNumeric(a, b);
  }

  /**
   * Merging two numeric intervals: an empty intersection is a contradiction;
   * otherwise the result is the intersection, whichever operand order.
   */
  lemma MergeIntervalsNumeric(a: Value, b: Value, tag: nat)
    requires Numeric(a) && Numeric(b)
    ensures var lo := if a.low.n < b.low.n then b.low.n else a.low.n;
            var hi := if b.high.n < a.high.n then b.high.n else a.high.n;
            MergeIntervals(a, b, tag) == Ok(if lo > hi then Contra(tag) else Ival(Num(lo), Num(hi)))
    ensures MergeIntervals(a, b, tag) == MergeIntervals(b, a, tag)
  {
    IntersectNumeric(a, b);
    IntersectNumeric(b, a);
  }

  /** Merging a non-empty numeric interval with itself gives it back; an empty one is contradictory. */
  lemma MergeIntervalsSame(a: Value, tag: nat)
    requires Numeric(a)
    ensures MergeIntervals(a, a, tag) == Ok(if a.low.n <= a.high.n then a else Contra(tag))
  {
    MergeIntervalsNumeric(a, a, tag);
  }

  /** A number survives a numeric interval exactly when the interval contains it. */
  lemma EnsureInsideNumeric(i: Value, n: real, tag: nat)
    requires Numeric(i)
    ensures EnsureInside(i, Num(n), tag) == Ok(if i.low.n <= n <= i.high.n then Num(n) else Contra(tag))
  {}
}
