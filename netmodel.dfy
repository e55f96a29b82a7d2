/**
 * The propagator network of propagator/core.py (and of its copy,
 * propagator/network.py) as a value: the contents and neighbour lists of the
 * cells, what each propagator does when it is called, the scheduler's two
 * queues, and the `done` flags of compound propagators. Every operation of
 * the runtime is a function from one such state to the next; the classes of
 * `Runtime` are proved to change their fields exactly as these functions say.
 *
 * Cells and propagators are numbered in creation order. A propagator's
 * `to_do` closure is an `Action` naming the cells it reads and writes; the
 * global `merge` is the generic operator of that name in a registry, given
 * enough recursion `fuel`.
 */
module NetworkModel {
  import opened PyValues
  import opened GenericOperators
  import opened Dispatch
  import opened SetQueues
  import opened PyUtil

  type CellId = nat
  type PropId = nat

  /** The function a primitive lifts: a generic operator, or the argument-less `lambda: value` of `constant`. */
  datatype LiftedFn = Generic(name: OpName) | ConstantFn(value: Value)

  /** The body of a propagator's `to_do`. */
  datatype Action =
    | Primitive(f: LiftedFn, inputs: seq<CellId>, output: CellId)
    | Conditional(condition: CellId, ifTrue: CellId, ifFalse: CellId, output: CellId)
    | Compound(neighbors: seq<CellId>)

  /**
   * The network: contents and neighbour lists by cell number, actions by
   * propagator number, the scheduler's `alerted_propagators` and
   * `propagators_ever_alerted` queues (as their deques), the compound
   * propagators whose `done` flag is set and the order their bodies were
   * built in, and the identity the next `Contradiction` will get.
   */
  datatype Net = Net(
    contents: seq<Value>,
    neighbors: seq<seq<PropId>>,
    actions: seq<Action>,
    alerted: seq<PropId>,
    everAlerted: seq<PropId>,
    built: set<PropId>,
    buildLog: seq<PropId>,
    nextTag: nat)

  /** A freshly initialized scheduler and no cells or propagators yet. */
  const Empty := Net([], [], [], [], [], {}, [], 0)

  predicate CellsIn(ids: seq<CellId>, n: nat) {
    forall k :: 0 <= k < |ids| ==> ids[k] < n
  }

  predicate ActionFits(a: Action, n: nat) {
    match a
    case Primitive(_, inputs, output) => CellsIn(inputs, n) && output < n
    case Conditional(c, t, f, o) => c < n && t < n && f < n && o < n
    case Compound(ns) => CellsIn(ns, n)
  }

  /** Every cell and propagator number in the state refers to an existing cell or propagator. */
  predicate Shaped(s: Net) {
    |s.neighbors| == |s.contents| &&
    (forall i :: 0 <= i < |s.actions| ==> ActionFits(s.actions[i], |s.contents|)) &&
    (forall c, p :: 0 <= c < |s.neighbors| && p in s.neighbors[c] ==> p < |s.actions|) &&
    (forall p :: p in s.alerted ==> p < |s.actions|) &&
    (forall p :: p in s.everAlerted ==> p < |s.actions|)
  }

  /** The contents of the cells `ids`, in order (`ArtModel.Gather` is a copy for the art engine). */
  function Gather(contents: seq<Value>, ids: seq<CellId>): (vs: seq<Value>)
    requires CellsIn(ids, |contents|)
    ensures |vs| == |ids| && forall k :: 0 <= k < |ids| ==> vs[k] == contents[ids[k]]
  {
    if ids == [] then [] else [contents[ids[0]]] + Gather(contents, ids[1..])
  }

  /** `_lift_to_cell_contents(f)(*args)`: `None` when some argument is `None`, otherwise `f(*args)`. */
  function Lift(reg: Registry, f: LiftedFn, args: seq<Value>, tag: nat, fuel: nat): Outcome<Value> {
    if Nothing in args then Ok(Nothing)
    else
      match f
      case Generic(name) => Call(reg, name, args, tag, fuel)
      case ConstantFn(v) => if args == [] then Ok(v) else Raise(TypeError)
  }

  /** `Scheduler.alert_propagators(ps)`: each propagator joins both queues unless it is already in them. */
  function Alert(s: Net, ps: seq<PropId>): (t: Net)
    ensures t == s.(alerted := t.alerted, everAlerted := t.everAlerted)
  {
    s.(alerted := Enqueued(s.alerted, ps), everAlerted := Enqueued(s.everAlerted, ps))
  }

  /**
   * `Cell.add_content(increment)` on cell `o`: the content becomes
   * `merge(content, increment)`, and the neighbours are alerted when that
   * differs from the old content. An exception from `merge` leaves the cell
   * as it was.
   */
  function Write(reg: Registry, fuel: nat, s: Net, o: CellId, increment: Value): (res: (Outcome<()>, Net))
    requires Shaped(s) && o < |s.contents|
    ensures Shaped(res.1) && res.1.actions == s.actions && |res.1.contents| == |s.contents|
  {
    var s1 := s.(nextTag := s.nextTag + 1);
    var answer := Call(reg, Merge, [s.contents[o], increment], s.nextTag, fuel);
    if answer.Raise? then (Raise(answer.error), s1)
    else if answer.value == s.contents[o] then (Ok(()), s1)
    else
      EnqueuedItems(s.alerted, s.neighbors[o]);
      EnqueuedItems(s.everAlerted, s.neighbors[o]);
      (Ok(()), Alert(s1.(contents := s.contents[o := answer.value]), s.neighbors[o]))
  }

  /**
   * Calling propagator `p`: a primitive writes its lifted function of the
   * input contents into its output; a conditional copies `if_true` or
   * `if_false` into its output once the condition has content; a compound
   * propagator builds its body on the first call that finds some neighbour
   * with content, and sets its `done` flag.
   */
  function Fire(reg: Registry, fuel: nat, s: Net, p: PropId): (res: (Outcome<()>, Net))
    requires Shaped(s) && p < |s.actions|
    ensures Shaped(res.1) && res.1.actions == s.actions && |res.1.contents| == |s.contents|
  {
    match s.actions[p]
    case Primitive(f, inputs, output) =>
      var s1 := s.(nextTag := s.nextTag + 1);
      var v := Lift(reg, f, Gather(s.contents, inputs), s.nextTag, fuel);
      if v.Raise? then (Raise(v.error), s1) else Write(reg, fuel, s1, output, v.value)
    case Conditional(c, t, f, output) =>
      if s.contents[c] == Nothing then (Ok(()), s)
      else Write(reg, fuel, s, output, if Truthy(s.contents[c]) then s.contents[t] else s.contents[f])
    case Compound(ns) =>
      if p in s.built || AllNone(Gather(s.contents, ns)) then (Ok(()), s)
      else (Ok(()), s.(built := s.built + {p}, buildLog := s.buildLog + [p]))
  }

  /** One turn of `Scheduler.run`'s loop: the oldest alerted propagator leaves the queue and is called. */
  function Step(reg: Registry, fuel: nat, s: Net): (res: (Outcome<()>, Net))
    requires Shaped(s) && s.alerted != []
    ensures Shaped(res.1) && res.1.actions == s.actions && |res.1.contents| == |s.contents|
  {
    assert s.alerted[0] in s.alerted;
    assert forall p :: p in s.alerted[1..] ==> p in s.alerted;
    Fire(reg, fuel, s.(alerted := s.alerted[1..]), s.alerted[0])
  }

  /**
   * `Scheduler.run` allowed at most `budget` turns: `Ok(true)` when it
   * stops because no propagator is alerted any more, `Ok(false)` when the
   * budget runs out first, and the exception of a propagator that raised.
   */
  function Run(reg: Registry, fuel: nat, s: Net, budget: nat): (res: (Outcome<bool>, Net))
    requires Shaped(s)
    ensures Shaped(res.1) && res.1.actions == s.actions && |res.1.contents| == |s.contents|
    ensures res.0 == Ok(true) ==> res.1.alerted == []
    ensures s.alerted == [] ==> res == (Ok(true), s)
    decreases budget, 1
  {
    if s.alerted == [] then (Ok(true), s)
    else if budget == 0 then (Ok(false), s)
    else RunTurn(reg, fuel, s, budget)
  }

  /** A turn of `Run` with some budget left: an exception ends the run, otherwise it goes on with one turn less. */
  function RunTurn(reg: Registry, fuel: nat, s: Net, budget: nat): (res: (Outcome<bool>, Net))
    requires Shaped(s) && s.alerted != [] && budget > 0
    ensures Shaped(res.1) && res.1.actions == s.actions && |res.1.contents| == |s.contents|
    ensures res.0 == Ok(true) ==> res.1.alerted == []
    decreases budget, 0
  {
    var step := Step(reg, fuel, s);
    if step.0.Raise? then (Raise(step.0.error), step.1)
    else Run(reg, fuel, step.1, budget - 1)
  }

  // ---------------------------------------------------------------------
  // Building a network
  // ---------------------------------------------------------------------

  /** A cell without neighbours keeps every number in the state meaningful. */
  lemma AppendShaped(s: Net, m: Value)
    requires Shaped(s)
    ensures Shaped(s.(contents := s.contents + [m], neighbors := s.neighbors + [[]]))
  {
    var t := s.(contents := s.contents + [m], neighbors := s.neighbors + [[]]);
    forall i | 0 <= i < |s.actions| ensures ActionFits(s.actions[i], |t.contents|) {
      assert ActionFits(s.actions[i], |s.contents|);
    }
  }

  /** `Cell(content=v)`: a new cell with no neighbours and content `merge(None, v)`. */
  function NewCell(reg: Registry, fuel: nat, s: Net, v: Value): (res: (Outcome<CellId>, Net))
    requires Shaped(s)
    ensures Shaped(res.1) && res.1.actions == s.actions
    ensures res.0.Ok? ==> res.0.value == |s.contents| && |res.1.contents| == |s.contents| + 1
    ensures res.0.Raise? ==> |res.1.contents| == |s.contents|
  {
    var c := |s.contents|;
    var s1 := s.(contents := s.contents + [Nothing], neighbors := s.neighbors + [[]]);
    var w := Write(reg, fuel, s1, c, v);
    if w.0.Raise? then (Raise(w.0.error), s.(nextTag := w.1.nextTag)) else (Ok(c), w.1)
  }

  /** `Cell.new_neighbor(p)` on cell `c`: `p` is appended and alerted unless it already is a neighbour. */
  function NewNeighbor(s: Net, c: CellId, p: PropId): (t: Net)
    requires Shaped(s) && c < |s.contents| && p < |s.actions|
    ensures Shaped(t) && t.contents == s.contents && t.actions == s.actions
  {
    if p in s.neighbors[c] then s
    else
      EnqueuedItems(s.alerted, [p]);
      EnqueuedItems(s.everAlerted, [p]);
      Alert(s.(neighbors := s.neighbors[c := s.neighbors[c] + [p]]), [p])
  }

  /** The body of `Propagator.__init__`: `p` becomes a neighbour of each input in turn, then is alerted directly. */
  function Register(s: Net, inputs: seq<CellId>, p: PropId): (t: Net)
    requires Shaped(s) && CellsIn(inputs, |s.contents|) && p < |s.actions|
    ensures Shaped(t) && t.contents == s.contents && t.actions == s.actions
    decreases |inputs|
  {
    if inputs == [] then
      EnqueuedItems(s.alerted, [p]);
      EnqueuedItems(s.everAlerted, [p]);
      Alert(s, [p])
    else Register(NewNeighbor(s, inputs[0], p), inputs[1..], p)
  }

  /** `Propagator(inputs, to_do)`: the new propagator gets the next number. */
  function AddPropagator(s: Net, inputs: seq<CellId>, a: Action): (res: (PropId, Net))
    requires Shaped(s) && CellsIn(inputs, |s.contents|) && ActionFits(a, |s.contents|)
    ensures Shaped(res.1) && res.1.contents == s.contents && res.1.actions == s.actions + [a]
    ensures res.0 == |s.actions|
  {
    var p := |s.actions|;
    (p, Register(s.(actions := s.actions + [a]), inputs, p))
  }

  /**
   * `make_primitive(f)(*cells)`: the last cell is the output and the others
   * are the inputs; without any cell, `cells[-1]` raises `IndexError`.
   */
  function MakePrimitive(s: Net, f: LiftedFn, cells: seq<CellId>): (res: (Outcome<PropId>, Net))
    requires Shaped(s) && CellsIn(cells, |s.contents|)
    ensures Shaped(res.1) && res.1.contents == s.contents
  {
    if cells == [] then (Raise(IndexError), s)
    else
      var inputs, output := cells[..|cells| - 1], cells[|cells| - 1];
      var (p, t) := AddPropagator(s, inputs, Primitive(f, inputs, output));
      (Ok(p), t)
  }

  /** `conditional(p, if_true, if_false, output)`: a propagator whose neighbours are the first three cells. */
  function MakeConditional(s: Net, c: CellId, t: CellId, f: CellId, o: CellId): (res: (PropId, Net))
    requires Shaped(s) && c < |s.contents| && t < |s.contents| && f < |s.contents| && o < |s.contents|
    ensures Shaped(res.1) && res.1.contents == s.contents
  {
    AddPropagator(s, [c, t, f], Conditional(c, t, f, o))
  }

  /** `switch(p, if_true, output)`: a conditional whose `if_false` is a fresh cell `Cell('_')`. */
  function MakeSwitch(reg: Registry, fuel: nat, s: Net, c: CellId, t: CellId, o: CellId): (res: (Outcome<PropId>, Net))
    requires Shaped(s) && c < |s.contents| && t < |s.contents| && o < |s.contents|
    ensures Shaped(res.1)
  {
    var (cell, s1) := NewCell(reg, fuel, s, Nothing);
    if cell.Raise? then (Raise(cell.error), s1)
    else
      var (p, s2) := MakeConditional(s1, c, t, cell.value, o);
      (Ok(p), s2)
  }

  /** `Propagator.compound(neighbors, to_build)`: a propagator whose body is built on demand. */
  function MakeCompound(s: Net, ns: seq<CellId>): (res: (PropId, Net))
    requires Shaped(s) && CellsIn(ns, |s.contents|)
    ensures Shaped(res.1) && res.1.contents == s.contents
  {
    AddPropagator(s, ns, Compound(ns))
  }

  /**
   * `Contradiction()` made by the network's user (for a cell content or a
   * constant): a new object, whose identity no earlier contradiction has.
   */
  function NewContradiction(s: Net): (res: (Value, Net))
    ensures res.0.Contra? && res.0.tag == s.nextTag && res.1.nextTag == s.nextTag + 1
    ensures res.1 == s.(nextTag := res.1.nextTag)
  {
    (Contra(s.nextTag), s.(nextTag := s.nextTag + 1))
  }

  /** `Scheduler.initialize`: both queues emptied. */
  function Initialize(s: Net): (t: Net)
    ensures Shaped(s) ==> Shaped(t)
  {
    s.(alerted := [], everAlerted := [])
  }
}
