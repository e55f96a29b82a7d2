/**
 * The `Supported` content type without its merge: a value together with a
 * `Support`, the set of provenance labels it rests on. The merge and
 * `subsumes` call the generic `merge` and live in `Dispatch`.
 */
module Supports {
  import opened PyValues

  /** `Support.more_informative_than`: a different set that is a subset, i.e. a strict subset. */
  predicate MoreInformative(s: set<Label>, other: set<Label>) {
    s != other && s <= other
  }

  lemma MoreInformativeIsStrictSubset(s: set<Label>, other: set<Label>)
    ensures MoreInformative(s, other) <==> s < other
    ensures MoreInformative(s, other) ==> !MoreInformative(other, s)
  {}

  /** `Supported(value)` with no support given: the empty support. */
  function Unsupported(v: Value): Value {
    Sup(v, {})
  }

  /** `is_flat`: an `int`, `float`, `complex` or `Interval`. */
  predicate IsFlat(v: Value) {
    v.Num? || v.Ival?
  }

  /** `to_supported`: a `Supported` is kept, anything else gets the empty support. */
  function ToSupported(v: Value): Value {
    if v.Sup? then v else Unsupported(v)
  }

  /** All arguments are `Supported`. */
  predicate AllSupported(args: seq<Value>) {
    forall i :: 0 <= i < |args| ==> args[i].Sup?
  }

  /** The `value` of each `Supported` argument. */
  function Values(args: seq<Value>): (r: seq<Value>)
    requires AllSupported(args)
    ensures |r| == |args| && forall i :: 0 <= i < |args| ==> r[i] == args[i].value
  {
    if args == [] then [] else [args[0].value] + Values(args[1..])
  }

  /** `merge_supports`: `reduce(operator.or_, supports, set())`, the union of all supports. */
  function UnionOfSupports(args: seq<Value>): (r: set<Label>)
    requires AllSupported(args)
    ensures forall i :: 0 <= i < |args| ==> args[i].support <= r
    ensures forall l :: l in r ==> exists i :: 0 <= i < |args| && l in args[i].support
  {
    if args == [] then {}
    else
      var rest := UnionOfSupports(args[..|args| - 1]);
      assert forall i :: 0 <= i < |args| - 1 ==> args[..|args| - 1][i] == args[i];
      rest + args[|args| - 1].support
  }

  /** The example of the library's tests: two labels are more informative than three. */
  lemma MoreInformativeExample()
    ensures MoreInformative({"source1", "source2"}, {"source1", "source2", "source3"})
    ensures !MoreInformative({"source1", "source2", "source3"}, {"source1", "source2"})
  {
    assert "source3" !in {"source1", "source2"};
  }
}
