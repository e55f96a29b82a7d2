/** The helper functions of the runtime: `all_none` and `listify`. */
module PyUtil {
  import opened PyValues

  /** `all_none`: no item is anything but `None`; true of an empty sequence. */
  function AllNone(items: seq<Value>): (r: bool)
    ensures r <==> forall i :: 0 <= i < |items| ==> items[i] == Nothing
    ensures items == [] ==> r
  {
    if items == [] then true
    else if items[0] != Nothing then false
    else AllNone(items[1..])
  }

  /**
   * An argument of `listify`: `None`, or an object described by the two
   * `isinstance` facts `listify` tests. `self` is the object itself, and
   * `items` is what iterating over it yields.
   */
  datatype PyArg<T> = NoneArg | Obj(self: T, isIterable: bool, isStr: bool, items: seq<T>)

  /**
   * `listify`: an iterable that is not a string gives its items, `None`
   * gives `[]`, and anything else is wrapped in a one-item list. A string is
   * iterable, but it is wrapped rather than split.
   */
  function Listify<T>(v: PyArg<T>): (r: seq<T>)
    ensures v.NoneArg? ==> r == []
    ensures v.Obj? && v.isStr ==> r == [v.self]
    ensures v.Obj? && !v.isIterable ==> r == [v.self]
    ensures v.Obj? && v.isIterable && !v.isStr ==> r == v.items
  {
    if v.Obj? && v.isIterable && !v.isStr then v.items
    else if v.NoneArg? then []
    else [v.self]
  }

  /** A list object holding `xs`. */
  function ListObj<T>(self: T, xs: seq<T>): PyArg<T> {
    Obj(self, true, false, xs)
  }

  /**
   * `listify` is idempotent: the list it returns, passed to `listify` again,
   * comes back unchanged.
   */
  lemma ListifyIdempotent<T>(v: PyArg<T>, self: T)
    ensures Listify(ListObj(self, Listify(v))) == Listify(v)
  {
  }

  /**
   * What a caller of `listify` may rely on: every item comes from the
   * argument (the object itself or one of its items), and only `None` or a
   * non-string iterable gives other than exactly one item.
   */
  lemma ListifyItems<T>(v: PyArg<T>)
    ensures forall x :: x in Listify(v) ==> v.Obj? && (x == v.self || x in v.items)
    ensures |Listify(v)| != 1 ==> v.NoneArg? || (v.isIterable && !v.isStr)
    ensures Listify(v) == [] <==> v.NoneArg? || (v.isIterable && !v.isStr && v.items == [])
  {
  }
}
