/**
 * The older `art` package as a value: write-once cells, propagators built
 * from Python's `operator` functions, and a scheduler that runs the alerted
 * propagators in rounds. It shares no state or cell semantics with the
 * `propagator` package: a cell here is written at most once, and a second,
 * different content raises `ValueError` instead of being merged.
 *
 * Cells and propagators are numbered in creation order; a propagator's
 * closure is an `ArtAction`. The scheduler keeps each queue as a set and a
 * list; the state keeps the lists, whose items are the sets' members.
 */
module ArtModel {
  import opened PyValues
  import opened SetQueues

  type CellId = nat
  type PropId = nat

  /** What `lift_to_cell_contents` wraps: a function of the `operator` module, or `constant`'s `lambda: value`. */
  datatype ArtFn = Builtin(f: PyFunction) | Constant(value: Value)

  /** The closure a propagator calls. */
  datatype ArtAction =
    | Primitive(f: ArtFn, inputs: seq<CellId>, output: CellId)
    | Switch(guard: CellId, ifTrue: CellId, ifFalse: CellId, output: CellId)
    | Compound(neighbors: seq<CellId>)

  /** `last_value_of_run`: the string `"done"` set by `initialize`, or the `None` that `run_alerted` returns. */
  datatype RunValue = DoneMark | NoneMark

  /** The argument of `alert_propagators`: one propagator, or a Python list of them. */
  datatype Alerting = One(p: PropId) | Many(ps: seq<PropId>)

  /**
   * The cells' contents and neighbour lists, the propagators' closures, the
   * scheduler's `alerted_propagators_list` and
   * `propagators_ever_alerted_list`, its `abort_process` flag and
   * `last_value_of_run`, and the compound propagators whose `done` flag is
   * set with the order their bodies were built in.
   */
  datatype ArtNet = ArtNet(
    contents: seq<Value>,
    neighbors: seq<seq<PropId>>,
    actions: seq<ArtAction>,
    alerted: seq<PropId>,
    everAlerted: seq<PropId>,
    abortProcess: bool,
    lastValue: RunValue,
    built: set<PropId>,
    buildLog: seq<PropId>)

  /** A new scheduler and no cells or propagators yet. */
  const Fresh := ArtNet([], [], [], [], [], false, DoneMark, {}, [])

  predicate CellsIn(ids: seq<CellId>, n: nat) {
    forall k :: 0 <= k < |ids| ==> ids[k] < n
  }

  predicate ActionFits(a: ArtAction, n: nat) {
    match a
    case Primitive(_, inputs, output) => CellsIn(inputs, n) && output < n
    case Switch(c, t, f, o) => c < n && t < n && f < n && o < n
    case Compound(ns) => CellsIn(ns, n)
  }

  /** Every cell and propagator number in the state refers to an existing cell or propagator. */
  predicate Shaped(s: ArtNet) {
    |s.neighbors| == |s.contents| &&
    (forall i :: 0 <= i < |s.actions| ==> ActionFits(s.actions[i], |s.contents|)) &&
    (forall c, p :: 0 <= c < |s.neighbors| && p in s.neighbors[c] ==> p < |s.actions|) &&
    (forall p :: p in s.alerted ==> p < |s.actions|) &&
    (forall p :: p in s.everAlerted ==> p < |s.actions|)
  }

  /**
   * The invariant the operations keep: both scheduler lists hold each
   * propagator once, everything alerted has been recorded as ever alerted,
   * a cell lists a neighbour once, and each compound propagator appears at most once in the build log,
   * which lists exactly those whose `done` flag is set.
   */
  predicate Valid(s: ArtNet) {
    Shaped(s) &&
    NoDuplicates(s.alerted) && NoDuplicates(s.everAlerted) &&
    (forall p :: p in s.alerted ==> p in s.everAlerted) &&
    (forall c :: 0 <= c < |s.neighbors| ==> NoDuplicates(s.neighbors[c])) &&
    NoDuplicates(s.buildLog) &&
    (forall p :: p in s.built ==> p in s.buildLog) &&
    (forall p :: p in s.buildLog ==> p in s.built) &&
    (forall p :: p in s.built ==> p < |s.actions| && s.actions[p].Compound?)
  }

  // ---------------------------------------------------------------------
  // The scheduler
  // ---------------------------------------------------------------------

  /** `listify`: a list is used as it is; anything else becomes a one-item list. */
  function Listify(a: Alerting): seq<PropId> {
    match a
    case One(p) => [p]
    case Many(ps) => ps
  }

  /**
   * `order_preserving_insert(x, set_, list_)`: `x` joins both only when the
   * set lacks it. On a set that holds exactly the list's items, the list
   * grows as `SetQueue.add` grows its deque, and the pairing is kept.
   */
  function OrderPreservingInsert(x: PropId, members: set<PropId>, items: seq<PropId>): (r: (set<PropId>, seq<PropId>))
    ensures (forall y :: y in members <==> y in items) ==>
      r.1 == AddUnique(items, x) && (forall y :: y in r.0 <==> y in r.1)
  {
    if x in members then (members, items) else (members + {x}, items + [x])
  }

  /** `alert_propagators(ps)`: each propagator of `listify(ps)` joins both lists, in order, unless already there. */
  function Alert(s: ArtNet, ps: Alerting): (t: ArtNet)
    ensures t == s.(alerted := t.alerted, everAlerted := t.everAlerted)
  {
    var items := Listify(ps);
    s.(alerted := Enqueued(s.alerted, items), everAlerted := Enqueued(s.everAlerted, items))
  }

  /** `initialize`: both lists emptied, `abort_process` false and `last_value_of_run` the string `"done"`. */
  function Initialize(s: ArtNet): (t: ArtNet)
    ensures t.alerted == [] && t.everAlerted == [] && !t.abortProcess && t.lastValue == DoneMark
    ensures t.contents == s.contents && t.neighbors == s.neighbors && t.actions == s.actions
  {
    s.(alerted := [], everAlerted := [], abortProcess := false, lastValue := DoneMark)
  }

  // ---------------------------------------------------------------------
  // Cells and propagators
  // ---------------------------------------------------------------------

  /**
   * `Cell.add_content(c)` on cell `o`: `None` is ignored; an empty cell
   * takes `c` and alerts its neighbours; a filled cell accepts only its own
   * content again and raises `ValueError` for anything else.
   */
  function Write(s: ArtNet, o: CellId, c: Value): (res: (Outcome<()>, ArtNet))
    requires Shaped(s) && o < |s.contents|
    ensures Shaped(res.1) && res.1.actions == s.actions && res.1.neighbors == s.neighbors
    ensures res.1.lastValue == s.lastValue && res.1.built == s.built && res.1.buildLog == s.buildLog
    ensures res.0.Ok? <==> c == Nothing || s.contents[o] == Nothing || s.contents[o] == c
    ensures res.0.Raise? ==> res == (Raise(ValueError), s)
    ensures res.0.Ok? && c != Nothing ==> res.1.contents == s.contents[o := c]
    ensures c == Nothing || s.contents[o] != Nothing ==> res.1 == s
  {
    if c == Nothing then (Ok(()), s)
    else if s.contents[o] == Nothing then
      EnqueuedItems(s.alerted, s.neighbors[o]);
      EnqueuedItems(s.everAlerted, s.neighbors[o]);
      (Ok(()), Alert(s.(contents := s.contents[o := c]), Many(s.neighbors[o])))
    else if s.contents[o] != c then (Raise(ValueError), s)
    else
      assert s.contents[o := c] == s.contents;
      (Ok(()), s)
  }

  /**
   * `add_content` as art/art.py is written: it alerts through
   * `alert_propagators` of the module `art.scheduler`, which defines the
   * class `Scheduler` but no such function, so storing into an empty cell
   * sets the content and then raises `AttributeError`. Every other case
   * behaves as `Write`.
   */
  function WriteAsWritten(s: ArtNet, o: CellId, c: Value): (res: (Outcome<()>, ArtNet))
    requires Shaped(s) && o < |s.contents|
    ensures res.0 == Raise(AttributeError) <==> c != Nothing && s.contents[o] == Nothing
    ensures res.0 != Raise(AttributeError) ==> res == Write(s, o, c)
  {
    if c != Nothing && s.contents[o] == Nothing then (Raise(AttributeError), s.(contents := s.contents[o := c]))
    else Write(s, o, c)
  }

  /**
   * `Propagator.__init__` as art/art.py is written: `new_neighbor` appends
   * the propagator to the first input that lacks it and then fails on the
   * same missing function, and with no such input the direct alert fails, so
   * building any propagator raises `AttributeError`.
   */
  function RegisterAsWritten(s: ArtNet, inputs: seq<CellId>, p: PropId): (res: (Outcome<()>, ArtNet))
    requires Shaped(s) && CellsIn(inputs, |s.contents|) && p < |s.actions|
    ensures res.0 == Raise(AttributeError)
    ensures res.1.contents == s.contents && res.1.alerted == s.alerted
    decreases |inputs|
  {
    if inputs == [] then (Raise(AttributeError), s)
    else if p in s.neighbors[inputs[0]] then RegisterAsWritten(s, inputs[1..], p)
    else (Raise(AttributeError), s.(neighbors := s.neighbors[inputs[0] := s.neighbors[inputs[0]] + [p]]))
  }

  /** `Cell(content=v)`: a cell with no neighbours and content `None`, then given `v`. */
  function NewCell(s: ArtNet, v: Value): (res: (CellId, ArtNet))
    requires Shaped(s)
    ensures Shaped(res.1) && res.0 == |s.contents|
    ensures res.1 == s.(contents := s.contents + [v], neighbors := s.neighbors + [[]])
  {
    var c := |s.contents|;
    var s1 := s.(contents := s.contents + [Nothing], neighbors := s.neighbors + [[]]);
    assert Shaped(s1) by {
      forall i | 0 <= i < |s.actions| ensures ActionFits(s.actions[i], |s1.contents|) {
        assert ActionFits(s.actions[i], |s.contents|);
      }
    }
    var (_, t) := Write(s1, c, v);
    assert s1.contents[c := v] == s.contents + [v];
    assert Enqueued(s.alerted, []) == s.alerted && Enqueued(s.everAlerted, []) == s.everAlerted;
    (c, t)
  }

  /** `Cell.new_neighbor(p)` on cell `c`: `p` is appended and alerted unless it already is a neighbour. */
  function NewNeighbor(s: ArtNet, c: CellId, p: PropId): (t: ArtNet)
    requires Shaped(s) && c < |s.contents| && p < |s.actions|
    ensures Shaped(t) && t.contents == s.contents && t.actions == s.actions
    ensures p in t.neighbors[c] && |t.neighbors| == |s.neighbors|
    ensures forall d :: 0 <= d < |s.neighbors| && d != c ==> t.neighbors[d] == s.neighbors[d]
    ensures p in s.neighbors[c] ==> t == s
  {
    if p in s.neighbors[c] then s
    else
      EnqueuedItems(s.alerted, [p]);
      EnqueuedItems(s.everAlerted, [p]);
      Alert(s.(neighbors := s.neighbors[c := s.neighbors[c] + [p]]), One(p))
  }

  /** The body of `Propagator.__init__`: `p` becomes a neighbour of each input in turn, then is alerted directly. */
  function Register(s: ArtNet, inputs: seq<CellId>, p: PropId): (t: ArtNet)
    requires Shaped(s) && CellsIn(inputs, |s.contents|) && p < |s.actions|
    ensures Shaped(t) && t.contents == s.contents && t.actions == s.actions
    decreases |inputs|
  {
    if inputs == [] then
      EnqueuedItems(s.alerted, [p]);
      EnqueuedItems(s.everAlerted, [p]);
      Alert(s, One(p))
    else Register(NewNeighbor(s, inputs[0], p), inputs[1..], p)
  }

  /** `Propagator(inputs, to_do)`: the new propagator gets the next number. */
  function AddPropagator(s: ArtNet, inputs: seq<CellId>, a: ArtAction): (res: (PropId, ArtNet))
    requires Shaped(s) && CellsIn(inputs, |s.contents|) && ActionFits(a, |s.contents|)
    ensures Shaped(res.1) && res.1.contents == s.contents && res.1.actions == s.actions + [a]
    ensures res.0 == |s.actions|
  {
    var p := |s.actions|;
    (p, Register(s.(actions := s.actions + [a]), inputs, p))
  }

  /**
   * `make_primitive(f)(*cells)`: the last cell is the output and the
   * others are the inputs; without any cell, `cells[-1]` raises `IndexError`.
   */
  function MakePrimitive(s: ArtNet, f: ArtFn, cells: seq<CellId>): (res: (Outcome<PropId>, ArtNet))
    requires Shaped(s) && CellsIn(cells, |s.contents|)
    ensures Shaped(res.1) && res.1.contents == s.contents
  {
    if cells == [] then (Raise(IndexError), s)
    else
      var inputs, output := cells[..|cells| - 1], cells[|cells| - 1];
      var (p, t) := AddPropagator(s, inputs, Primitive(f, inputs, output));
      (Ok(p), t)
  }

  /** `switch(predicate, if_true, output)`: a new empty cell is the `if_false` of a conditional on the three. */
  function MakeSwitch(s: ArtNet, c: CellId, t: CellId, o: CellId): (res: (PropId, ArtNet))
    requires Shaped(s) && c < |s.contents| && t < |s.contents| && o < |s.contents|
    ensures Shaped(res.1) && res.1.contents == s.contents + [Nothing]
  {
    var (f, s1) := NewCell(s, Nothing);
    AddPropagator(s1, [c, t, f], Switch(c, t, f, o))
  }

  /** `Propagator.compound(neighbors, to_build)`. */
  function MakeCompound(s: ArtNet, ns: seq<CellId>): (res: (PropId, ArtNet))
    requires Shaped(s) && CellsIn(ns, |s.contents|)
    ensures Shaped(res.1) && res.1.contents == s.contents
  {
    AddPropagator(s, ns, Compound(ns))
  }

  // ---------------------------------------------------------------------
  // Calling propagators
  // ---------------------------------------------------------------------

  /** The contents of the cells `ids`, in order (a copy of `NetworkModel.Gather`, kept so the art engine stands alone). */
  function Gather(contents: seq<Value>, ids: seq<CellId>): (vs: seq<Value>)
    requires CellsIn(ids, |contents|)
    ensures |vs| == |ids| && forall k :: 0 <= k < |ids| ==> vs[k] == contents[ids[k]]
  {
    if ids == [] then [] else [contents[ids[0]]] + Gather(contents, ids[1..])
  }

  /** `lift_to_cell_contents(f)(*args)`: `None` when some argument is `None`, otherwise `f(*args)`. */
  function Lift(f: ArtFn, args: seq<Value>): Outcome<Value> {
    if Nothing in args then Ok(Nothing)
    else
      match f
      case Builtin(g) => PyApply(g, args)
      case Constant(v) => if args == [] then Ok(v) else Raise(TypeError)
  }

  /**
   * Calling propagator `p`: a primitive writes its lifted result to its
   * output; a switch does nothing while its predicate is `None` and
   * otherwise copies the `if_true` or `if_false` content to its output; a
   * compound builds its body on its first call. Its guard is the truth of a
   * `filter` object, which is always true, so the cells' contents play no
   * part.
   */
  function Fire(s: ArtNet, p: PropId): (res: (Outcome<()>, ArtNet))
    requires Shaped(s) && p < |s.actions|
    ensures Shaped(res.1) && res.1.actions == s.actions && |res.1.contents| == |s.contents|
    ensures res.1.lastValue == s.lastValue
  {
    match s.actions[p]
    case Primitive(f, inputs, output) =>
      var v := Lift(f, Gather(s.contents, inputs));
      if v.Raise? then (Raise(v.error), s) else Write(s, output, v.value)
    case Switch(c, t, f, o) =>
      if s.contents[c] == Nothing then (Ok(()), s)
      else Write(s, o, if Truthy(s.contents[c]) then s.contents[t] else s.contents[f])
    case Compound(_) =>
      if p in s.built then (Ok(()), s)
      else (Ok(()), s.(built := s.built + {p}, buildLog := s.buildLog + [p]))
  }

  /** The `for` loop of `run_alerted`: each propagator of `ps` is called once, in order, until one raises. */
  function Round(s: ArtNet, ps: seq<PropId>): (res: (Outcome<()>, ArtNet))
    requires Shaped(s) && forall p :: p in ps ==> p < |s.actions|
    ensures Shaped(res.1) && res.1.actions == s.actions && |res.1.contents| == |s.contents|
    ensures res.1.lastValue == s.lastValue
    decreases |ps|
  {
    if ps == [] then (Ok(()), s)
    else
      assert ps[0] in ps;
      assert forall p :: p in ps[1..] ==> p in ps;
      var (r, t) := Fire(s, ps[0]);
      if r.Raise? then (r, t) else Round(t, ps[1..])
  }

  /**
   * `run_alerted` with room for `depth` more nested calls on Python's
   * stack. A call takes the list of alerted propagators, empties it and
   * calls each of them once; propagators alerted meanwhile wait for the
   * recursive call. It ends when a round leaves nothing alerted, with the
   * exception of a propagator that raised, or with `RecursionError` when the
   * stack is full.
   */
  function RunAlerted(s: ArtNet, depth: nat): (res: (Outcome<()>, ArtNet))
    requires Shaped(s)
    ensures Shaped(res.1) && res.1.actions == s.actions && |res.1.contents| == |s.contents|
    ensures res.0.Ok? ==> res.1.alerted == []
    ensures res.1.lastValue == s.lastValue
    decreases depth
  {
    if depth == 0 then (Raise(RecursionError), s)
    else
      var (r, t) := Round(s.(alerted := []), s.alerted);
      if r.Raise? then (r, t)
      else if t.alerted == [] then (Ok(()), t)
      else RunAlerted(t, depth - 1)
  }

  /**
   * `run`: with nothing alerted it returns `last_value_of_run`; otherwise
   * it runs the rounds, stores their result (`None`) as
   * `last_value_of_run` and returns `None`.
   */
  function Run(s: ArtNet, depth: nat): (res: (Outcome<RunValue>, ArtNet))
    requires Shaped(s)
    ensures Shaped(res.1) && res.1.actions == s.actions && |res.1.contents| == |s.contents|
    ensures s.alerted == [] ==> res == (Ok(s.lastValue), s)
    ensures s.alerted != [] && res.0.Ok? ==> res.0.value == NoneMark && res.1.lastValue == NoneMark && res.1.alerted == []
  {
    if s.alerted == [] then (Ok(s.lastValue), s)
    else
      var (r, t) := RunAlerted(s, depth);
      if r.Raise? then (Raise(r.error), t)
      else (Ok(NoneMark), t.(lastValue := NoneMark))
  }

  /** `any_propagators_alerted`. */
  predicate AnyAlerted(s: ArtNet) {
    |s.alerted| > 0
  }
}
