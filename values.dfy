/**
 * The Python values that flow through a propagator network, and the parts of
 * Python's built-in semantics the engine relies on: truthiness, ordering
 * comparisons, `max`/`min`, and the functions of the `operator` module that
 * serve as defaults of the generic operators.
 */
module PyValues {

  /** A provenance label of a `Support` set. */
  type Label = string

  /**
   * A cell content or operator argument.
   *  - `Nothing` is Python's `None` ("no information").
   *  - `Num` stands for `int` and `float`; a `bool` is `Num(1.0)` or `Num(0.0)`,
   *    since Python's `True == 1` and `bool` is a subclass of `int`.
   *  - `Contra(tag)` is a `Contradiction` object. `Contradiction` defines no
   *    `__eq__`, so two of them are equal only when they are the same object:
   *    `tag` is that object's identity.
   *  - `Ival(low, high)` is an `Interval` object; its end points are whatever
   *    the constructor was given (`high` may be `None`).
   *  - `Sup(value, support)` is a `Supported` object.
   * Datatype equality coincides with Python's `==` on these values.
   */
  datatype Value =
    | Nothing
    | Num(n: real)
    | Str(s: string)
    | Contra(tag: nat)
    | Ival(low: Value, high: Value)
    | Sup(value: Value, support: set<Label>)

  /** Why an `assert` statement of the source failed. */
  datatype Assertion = WrongArity | UnknownOperator | TestCountMismatch | NotSupported | NotCallableAlert

  /**
   * Every `Contradiction` inside `v` has an identity below `n`: it was created
   * before the identity `n` was handed out.
   */
  predicate TagsBelow(v: Value, n: nat) {
    match v
    case Contra(k) => k < n
    case Ival(low, high) => TagsBelow(low, n) && TagsBelow(high, n)
    case Sup(x, _) => TagsBelow(x, n)
    case _ => true
  }

  predicate AllTagsBelow(vs: seq<Value>, n: nat) {
    forall i :: 0 <= i < |vs| ==> TagsBelow(vs[i], n)
  }

  /** A value made only of older contradictions stays so as more identities are handed out. */
  lemma {:induction false} TagsBelowGrows(v: Value, n: nat, m: nat)
    requires TagsBelow(v, n) && n <= m
    ensures TagsBelow(v, m)
  {
    match v
    case Ival(low, high) =>
      TagsBelowGrows(low, n, m);
      TagsBelowGrows(high, n, m);
    case Sup(x, _) => TagsBelowGrows(x, n, m);
    case _ =>
  }

  /** The exceptions the modelled code can raise. */
  datatype Error =
    | AssertionFailed(why: Assertion)
    | TypeError
    | AttributeError
    | ZeroDivisionError
    | ValueError
    | IndexError
    | KeyError
    | NameError
    | RecursionError
    | NotModelled

  /** The result of Python code that either returns a `T` or raises. */
  datatype Outcome<+T> = Ok(value: T) | Raise(error: Error) {
    predicate IsFailure() {
      Raise?
    }

    function PropagateFailure<U>(): Outcome<U>
      requires Raise?
    {
      Raise(error)
    }

    function Extract(): T
      requires Ok?
    {
      value
    }
  }

  /** Python's `True`/`False` as values. */
  function Bool(b: bool): (v: Value)
    ensures v.Num? && (v.n == 1.0 || v.n == 0.0)
  {
    Num(if b then 1.0 else 0.0)
  }

  /** Python's truth value: `None`, `0` and `''` are false, objects are true. */
  predicate Truthy(v: Value) {
    match v
    case Nothing => false
    case Num(n) => n != 0.0
    case Str(s) => |s| > 0
    case _ => true
  }

  lemma TruthyBool(b: bool)
    ensures Truthy(Bool(b)) == b
  {}

  /** Python's `<` on two strings: code-point lexicographic order. */
  predicate StrLess(s: string, t: string)
    decreases |s|
  {
    if |s| == 0 then |t| > 0
    else if |t| == 0 then false
    else if s[0] != t[0] then s[0] < t[0]
    else StrLess(s[1..], t[1..])
  }

  /** Python's `a < b`; numbers and strings are ordered, anything else raises. */
  function Less(a: Value, b: Value): Outcome<bool> {
    if a.Num? && b.Num? then Ok(a.n < b.n)
    else if a.Str? && b.Str? then Ok(StrLess(a.s, b.s))
    else Raise(TypeError)
  }

  /** Python's `a <= b`. */
  function LessEq(a: Value, b: Value): Outcome<bool> {
    if a.Num? && b.Num? then Ok(a.n <= b.n)
    else if a.Str? && b.Str? then Ok(a.s == b.s || StrLess(a.s, b.s))
    else Raise(TypeError)
  }

  /** Python's `max(a, b)`: `b` replaces `a` only when `b > a`. */
  function Max(a: Value, b: Value): (r: Outcome<Value>)
    ensures a.Num? && b.Num? ==> r == Ok(Num(if a.n < b.n then b.n else a.n))
  {
    var greater :- Less(a, b);
    Ok(if greater then b else a)
  }

  /** Python's `min(a, b)`: `b` replaces `a` only when `b < a`. */
  function Min(a: Value, b: Value): (r: Outcome<Value>)
    ensures a.Num? && b.Num? ==> r == Ok(Num(if b.n < a.n then b.n else a.n))
  {
    var smaller :- Less(b, a);
    Ok(if smaller then b else a)
  }

  /** The functions of Python's `operator` module (and `abs`, `math.sqrt`) that the engine uses. */
  datatype PyFunction =
    | AddFn | SubFn | MulFn | TrueDivFn
    | LtFn | GtFn | LeFn | GeFn
    | NotFn | SqrtFn | AbsFn

  /** How many positional arguments each function takes. */
  function FunctionArity(f: PyFunction): nat {
    match f
    case NotFn | SqrtFn | AbsFn => 1
    case _ => 2
  }

  /**
   * Applies a built-in function. Wrong argument counts raise `TypeError`, as
   * do operand types the function does not support; `+` also concatenates
   * strings; `/` by zero raises `ZeroDivisionError`. `math.sqrt` is not
   * modelled (its results are floating-point).
   */
  function PyApply(f: PyFunction, args: seq<Value>): (r: Outcome<Value>)
    ensures |args| != FunctionArity(f) ==> r == Raise(TypeError)
    ensures f == NotFn && |args| == 1 ==> r == Ok(Bool(!Truthy(args[0])))
  {
    if |args| != FunctionArity(f) then Raise(TypeError)
    else
      match f
      case AddFn =>
        if args[0].Num? && args[1].Num? then Ok(Num(args[0].n + args[1].n))
        else if args[0].Str? && args[1].Str? then Ok(Str(args[0].s + args[1].s))
        else Raise(TypeError)
      case SubFn =>
        if args[0].Num? && args[1].Num? then Ok(Num(args[0].n - args[1].n)) else Raise(TypeError)
      case MulFn =>
        if args[0].Num? && args[1].Num? then Ok(Num(args[0].n * args[1].n)) else Raise(TypeError)
      case TrueDivFn =>
        if !(args[0].Num? && args[1].Num?) then Raise(TypeError)
        else if args[1].n == 0.0 then Raise(ZeroDivisionError)
        else Ok(Num(args[0].n / args[1].n))
      case LtFn =>
        var b :- Less(args[0], args[1]); Ok(Bool(b))
      case GtFn =>
        var b :- Less(args[1], args[0]); Ok(Bool(b))
      case LeFn =>
        var b :- LessEq(args[0], args[1]); Ok(Bool(b))
      case GeFn =>
        var b :- LessEq(args[1], args[0]); Ok(Bool(b))
      case NotFn =>
        Ok(Bool(!Truthy(args[0])))
      case SqrtFn =>
        Raise(NotModelled)
      case AbsFn =>
        if args[0].Num? then Ok(Num(if args[0].n < 0.0 then -args[0].n else args[0].n)) else Raise(TypeError)
  }

  /** A built-in returns a number (a `bool` among them) or a string, never a contradiction, interval or `None`. */
  lemma PyApplyPlain(f: PyFunction, args: seq<Value>)
    ensures PyApply(f, args).Ok? ==> PyApply(f, args).value.Num? || PyApply(f, args).value.Str?
  {}

  /**
   * On two numbers the arithmetic functions compute the field operation and
   * the comparisons give the Python booleans.
   */
  lemma PyApplyNumbers(f: PyFunction, a: real, b: real)
    requires FunctionArity(f) == 2
    ensures f == AddFn ==> PyApply(f, [Num(a), Num(b)]) == Ok(Num(a + b))
    ensures f == SubFn ==> PyApply(f, [Num(a), Num(b)]) == Ok(Num(a - b))
    ensures f == MulFn ==> PyApply(f, [Num(a), Num(b)]) == Ok(Num(a * b))
    ensures f == TrueDivFn ==>
      PyApply(f, [Num(a), Num(b)]) == if b == 0.0 then Raise(ZeroDivisionError) else Ok(Num(a / b))
    ensures f == LtFn ==> PyApply(f, [Num(a), Num(b)]) == Ok(Bool(a < b))
    ensures f == GtFn ==> PyApply(f, [Num(a), Num(b)]) == Ok(Bool(a > b))
    ensures f == LeFn ==> PyApply(f, [Num(a), Num(b)]) == Ok(Bool(a <= b))
    ensures f == GeFn ==> PyApply(f, [Num(a), Num(b)]) == Ok(Bool(a >= b))
  {
    if f == MulFn {
      var args := [Num(a), Num(b)];
      assert args[0].n == a && args[1].n == b;
      var r := PyApply(MulFn, args);
      assert r.Ok? && r.value.n == a * b;
    }
  }
}
