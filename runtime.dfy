/**
 * The runtime of propagator/core.py (and of its copy, propagator/network.py)
 * as objects: a `Scheduler` with its two `SetQueue`s, `Cell`s whose content
 * and neighbour list are updated in place, and a `Network` that owns the
 * cells, the propagators' actions, the compound `done` flags and the
 * contradiction tag counter. Each `Network` method is proved to change the
 * objects exactly as the matching function of `NetworkModel` changes
 * `Snapshot()`, so the laws proved there hold of the objects.
 */
module Runtime {
  import opened PyValues
  import opened GenericOperators
  import opened Dispatch
  import opened SetQueues
  import opened PyUtil
  import opened NetworkModel

  /** `Scheduler`: the queue of alerted propagators and the record of every propagator ever alerted. */
  class Scheduler {
    const alerted: SetQueue<PropId>
    const everAlerted: SetQueue<PropId>

    ghost predicate Valid()
      reads this, alerted, everAlerted
    {
      alerted != everAlerted && alerted.Valid() && everAlerted.Valid()
    }

    constructor ()
      ensures Valid() && fresh(alerted) && fresh(everAlerted)
      ensures alerted.queue == [] && everAlerted.queue == []
    {
      alerted := new SetQueue();
      everAlerted := new SetQueue();
    }

    /** `initialize`: both queues emptied. */
    method Initialize()
      requires Valid()
      modifies alerted, everAlerted
      ensures Valid() && alerted.queue == [] && everAlerted.queue == []
    {
      alerted.Clear();
      everAlerted.Clear();
    }

    /** `alert_propagators`: each propagator of `listify(ps)` joins both queues, in order, unless already there. */
    method AlertPropagators(ps: PyArg<PropId>)
      requires Valid()
      modifies alerted, everAlerted
      ensures Valid()
      ensures alerted.queue == Enqueued(old(alerted.queue), Listify(ps))
      ensures everAlerted.queue == Enqueued(old(everAlerted.queue), Listify(ps))
    {
      var items := Listify(ps);
      var i := 0;
      while i < |items|
        invariant 0 <= i <= |items| && Valid()
        invariant Enqueued(alerted.queue, items[i..]) == Enqueued(old(alerted.queue), items)
        invariant Enqueued(everAlerted.queue, items[i..]) == Enqueued(old(everAlerted.queue), items)
      {
        EnqueuedStep(alerted.queue, items, i);
        EnqueuedStep(everAlerted.queue, items, i);
        everAlerted.Add(items[i]);
        alerted.Add(items[i]);
        i := i + 1;
      }
      assert items[i..] == [];
    }
  }

  /** `Cell`: its content (`None` at first) and its neighbour propagators. */
  class Cell {
    var content: Value
    var neighbors: seq<PropId>

    /** The fields `Cell.__init__` sets before it adds the initial content. */
    constructor ()
      ensures content == Nothing && neighbors == []
    {
      content := Nothing;
      neighbors := [];
    }

    /** `new_neighbor(p)`: `p` is appended and alerted unless it is already a neighbour. */
    method NewNeighbor(sched: Scheduler, p: PropId)
      requires sched.Valid()
      modifies this, sched.alerted, sched.everAlerted
      ensures sched.Valid() && content == old(content)
      ensures p in old(neighbors) ==>
        neighbors == old(neighbors) && unchanged(sched.alerted, sched.everAlerted)
      ensures p !in old(neighbors) ==>
        neighbors == old(neighbors) + [p] &&
        sched.alerted.queue == Enqueued(old(sched.alerted.queue), [p]) &&
        sched.everAlerted.queue == Enqueued(old(sched.everAlerted.queue), [p])
    {
      if p !in neighbors {
        neighbors := neighbors + [p];
        sched.AlertPropagators(Obj(p, false, false, []));
      }
    }

    /**
     * `add_content(increment)`: the content becomes `merge(content,
     * increment)`, and the neighbours are alerted, when that differs from
     * the old content. `tag` numbers a contradiction the merge creates.
     */
    method AddContent(reg: Registry, fuel: nat, tag: nat, sched: Scheduler, increment: Value) returns (r: Outcome<()>)
      requires sched.Valid()
      modifies this, sched.alerted, sched.everAlerted
      ensures sched.Valid() && neighbors == old(neighbors)
      ensures (r, content, sched.alerted.queue, sched.everAlerted.queue) ==
        CellWrite(reg, fuel, tag, old(content), neighbors, old(sched.alerted.queue), old(sched.everAlerted.queue), increment)
    {
      var answer := Call(reg, Merge, [content, increment], tag, fuel);
      if answer.Raise? {
        return Raise(answer.error);
      }
      if answer.value != content {
        content := answer.value;
        sched.AlertPropagators(ListObj(0, neighbors));
      }
      r := Ok(());
    }
  }

  /**
   * What `add_content(increment)` does to one cell with content `content`
   * and neighbours `neighbors`, given the two queues `q` and `e`: the
   * outcome, the new content and the new queues. On an exception, or when
   * the merge adds nothing, the content and the queues stay as they were;
   * a new content alerts every neighbour.
   */
  function CellWrite(reg: Registry, fuel: nat, tag: nat, content: Value, neighbors: seq<PropId>,
                     q: seq<PropId>, e: seq<PropId>, increment: Value): (res: (Outcome<()>, Value, seq<PropId>, seq<PropId>))
    ensures res.1 == content ==> res.2 == q && res.3 == e
    ensures res.1 != content ==>
      res.0 == Ok(()) && Call(reg, Merge, [content, increment], tag, fuel) == Ok(res.1) &&
      res.2 == Enqueued(q, neighbors) && res.3 == Enqueued(e, neighbors)
    ensures res.0.Raise? <==> Call(reg, Merge, [content, increment], tag, fuel).Raise?
  {
    var answer := Call(reg, Merge, [content, increment], tag, fuel);
    if answer.Raise? then (Raise(answer.error), content, q, e)
    else if answer.value == content then (Ok(()), content, q, e)
    else (Ok(()), answer.value, Enqueued(q, neighbors), Enqueued(e, neighbors))
  }

  /**
   * A state that changed as `Cell.add_content` changes its cell and the
   * queues, with the tag counter moved on, is the state `Write` gives.
   */
  lemma WriteRefined(reg: Registry, fuel: nat, s: Net, o: CellId, increment: Value, r: Outcome<()>, m: Value, t: Net)
    requires Shaped(s) && o < |s.contents|
    requires t == s.(contents := s.contents[o := m], alerted := t.alerted, everAlerted := t.everAlerted,
                     nextTag := s.nextTag + 1)
    requires (r, m, t.alerted, t.everAlerted) ==
      CellWrite(reg, fuel, s.nextTag, s.contents[o], s.neighbors[o], s.alerted, s.everAlerted, increment)
    ensures (r, t) == Write(reg, fuel, s, o, increment)
  {
    if m == s.contents[o] {
      assert s.contents[o := m] == s.contents;
    }
  }

  /**
   * `Cell(content=v)` adds `v` to a cell that is not yet part of the
   * network and has no neighbours; on an exception the cell is never
   * kept, otherwise it is appended with the content the merge gave.
   */
  lemma NewCellRefined(reg: Registry, fuel: nat, s: Net, v: Value, w: Outcome<()>, m: Value,
                       r: Outcome<CellId>, t: Net)
    requires Shaped(s)
    requires (w, m, t.alerted, t.everAlerted) == CellWrite(reg, fuel, s.nextTag, Nothing, [], s.alerted, s.everAlerted, v)
    requires r == if w.Raise? then Raise(w.error) else Ok(|s.contents|)
    requires t == s.(contents := t.contents, neighbors := t.neighbors, alerted := t.alerted,
                     everAlerted := t.everAlerted, nextTag := s.nextTag + 1)
    requires w.Raise? ==> t.contents == s.contents && t.neighbors == s.neighbors
    requires w.Ok? ==> t.contents == s.contents + [m] && t.neighbors == s.neighbors + [[]]
    ensures (r, t) == NewCell(reg, fuel, s, v) && Shaped(t)
  {
    var s1 := s.(contents := s.contents + [Nothing], neighbors := s.neighbors + [[]]);
    assert s1.contents[|s.contents|] == Nothing && s1.neighbors[|s.contents|] == [];
    assert s1.contents[|s.contents| := m] == s.contents + [m];
  }

  /** A state changed as `Cell.new_neighbor` changes its cell and the queues is the state `NewNeighbor` gives. */
  lemma NewNeighborCases(s: Net, c: CellId, p: PropId, m: seq<PropId>, t: Net)
    requires Shaped(s) && c < |s.contents| && p < |s.actions|
    requires t == s.(neighbors := s.neighbors[c := m], alerted := t.alerted, everAlerted := t.everAlerted)
    requires p in s.neighbors[c] ==> m == s.neighbors[c] && t.alerted == s.alerted && t.everAlerted == s.everAlerted
    requires p !in s.neighbors[c] ==>
      m == s.neighbors[c] + [p] &&
      t.alerted == Enqueued(s.alerted, [p]) && t.everAlerted == Enqueued(s.everAlerted, [p])
    ensures t == NewNeighbor(s, c, p)
  {
    if p in s.neighbors[c] {
      assert s.neighbors[c := m] == s.neighbors;
    }
  }

  /** One input of `Propagator.__init__`'s loop. */
  lemma RegisterStep(s: Net, inputs: seq<CellId>, i: nat, p: PropId)
    requires Shaped(s) && CellsIn(inputs, |s.contents|) && p < |s.actions| && i < |inputs|
    ensures Register(s, inputs[i..], p) == Register(NewNeighbor(s, inputs[i], p), inputs[i + 1..], p)
  {
    assert inputs[i..][1..] == inputs[i + 1..];
  }

  /** After the loop, `Propagator.__init__` alerts `p` itself. */
  lemma RegisterDone(s: Net, inputs: seq<CellId>, p: PropId, t: Net)
    requires Shaped(s) && p < |s.actions|
    requires t == s.(alerted := Enqueued(s.alerted, [p]), everAlerted := Enqueued(s.everAlerted, [p]))
    ensures Register(s, inputs[|inputs|..], p) == t
  {
    assert inputs[|inputs|..] == [];
  }

  /** One turn of `Scheduler.run` within the budget: an exception ends the run, otherwise it goes on. */
  lemma RunUnfold(reg: Registry, fuel: nat, s: Net, n: nat, r: Outcome<()>, t: Net)
    requires Shaped(s) && s.alerted != [] && n > 0 && (r, t) == Step(reg, fuel, s)
    ensures r.Raise? ==> Run(reg, fuel, s, n) == (Raise(r.error), t)
    ensures r.Ok? ==> Run(reg, fuel, s, n) == Run(reg, fuel, t, n - 1)
  {}

  /** `Scheduler.run` stops when no propagator is alerted, or when the budget is spent. */
  lemma RunEnd(reg: Registry, fuel: nat, s: Net, n: nat)
    requires Shaped(s) && (s.alerted == [] || n == 0)
    ensures Run(reg, fuel, s, n) == (Ok(s.alerted == []), s)
  {}

  /** Appending a cell appends its content and neighbour list. */
  lemma CellAppended(cs: seq<Cell>, c: Cell)
    ensures ContentsOf(cs + [c]) == ContentsOf(cs) + [c.content]
    ensures NeighborsOf(cs + [c]) == NeighborsOf(cs) + [c.neighbors]
  {}

  /** The contents of the cells, in order. */
  function ContentsOf(cs: seq<Cell>): (r: seq<Value>)
    reads cs
    ensures |r| == |cs| && forall i :: 0 <= i < |cs| ==> r[i] == cs[i].content
  {
    seq(|cs|, i requires 0 <= i < |cs| reads cs => cs[i].content)
  }

  /** The neighbour lists of the cells, in order. */
  function NeighborsOf(cs: seq<Cell>): (r: seq<seq<PropId>>)
    reads cs
    ensures |r| == |cs| && forall i :: 0 <= i < |cs| ==> r[i] == cs[i].neighbors
  {
    seq(|cs|, i requires 0 <= i < |cs| reads cs => cs[i].neighbors)
  }

  /**
   * The network: the global scheduler, the cells created so far, the
   * propagators' actions in creation order, the compound propagators whose
   * `done` flag is set, and the counter that tags new contradictions.
   */
  class Network {
    const reg: Registry
    const fuel: nat
    const scheduler: Scheduler
    var cells: seq<Cell>
    var actions: seq<Action>
    var built: set<PropId>
    var buildLog: seq<PropId>
    var nextTag: nat

    /** The state of the network as a `NetworkModel.Net` value. */
    ghost function Snapshot(): Net
      reads this, scheduler, scheduler.alerted, scheduler.everAlerted, cells
    {
      Net(ContentsOf(cells), NeighborsOf(cells), actions, scheduler.alerted.queue, scheduler.everAlerted.queue,
          built, buildLog, nextTag)
    }

    /** What `Scheduler.run` allowed `n` more turns makes of the current state. */
    ghost function RunFrom(n: nat): (res: (Outcome<bool>, Net))
      requires Valid()
      reads this, scheduler, scheduler.alerted, scheduler.everAlerted, cells
    {
      NetworkModel.Run(reg, fuel, Snapshot(), n)
    }

    /** The scheduler's queues are well formed, no cell object appears twice, and every number refers to something. */
    ghost predicate Valid()
      reads this, scheduler, scheduler.alerted, scheduler.everAlerted, cells
    {
      scheduler.Valid() &&
      (forall i, j :: 0 <= i < j < |cells| ==> cells[i] != cells[j]) &&
      Shaped(Snapshot())
    }

    /** An empty network with a fresh scheduler. */
    constructor (reg: Registry, fuel: nat)
      ensures Valid() && Snapshot() == Empty && this.reg == reg && this.fuel == fuel
      ensures fresh(scheduler) && fresh(scheduler.alerted) && fresh(scheduler.everAlerted)
    {
      this.reg := reg;
      this.fuel := fuel;
      scheduler := new Scheduler();
      cells := [];
      actions := [];
      built := {};
      buildLog := [];
      nextTag := 0;
    }

    /** `scheduler.initialize()`. */
    method Initialize()
      requires Valid()
      modifies scheduler.alerted, scheduler.everAlerted
      ensures Valid() && Snapshot() == NetworkModel.Initialize(old(Snapshot()))
    {
      scheduler.Initialize();
      assert ContentsOf(cells) == old(ContentsOf(cells));
      assert NeighborsOf(cells) == old(NeighborsOf(cells));
    }

    /** `cells[o].add_content(increment)`, with the next contradiction tag. */
    method AddContent(o: CellId, increment: Value) returns (r: Outcome<()>)
      requires Valid() && o < |cells|
      modifies this, cells[o], scheduler.alerted, scheduler.everAlerted
      ensures Valid() && cells == old(cells)
      ensures (r, Snapshot()) == Write(reg, fuel, old(Snapshot()), o, increment)
    {
      ghost var s := Snapshot();
      var cell := cells[o];
      r := cell.AddContent(reg, fuel, nextTag, scheduler, increment);
      nextTag := nextTag + 1;
      forall i | 0 <= i < |cells| && i != o ensures cells[i].content == s.contents[i] && cells[i].neighbors == s.neighbors[i] {
        assert cells[i] != cell;
      }
      assert NeighborsOf(cells) == s.neighbors;
      assert ContentsOf(cells) == s.contents[o := cell.content];
      WriteRefined(reg, fuel, s, o, increment, r, cell.content, Snapshot());
    }

    /** `Cell(content=v)`: a new cell whose content is `merge(None, v)`; when the merge raises, no cell is kept. */
    method NewCell(v: Value) returns (r: Outcome<CellId>)
      requires Valid()
      modifies this, scheduler.alerted, scheduler.everAlerted
      ensures Valid() && old(cells) <= cells && fresh(cells[|old(cells)|..])
      ensures (r, Snapshot()) == NetworkModel.NewCell(reg, fuel, old(Snapshot()), v)
    {
      ghost var s := Snapshot();
      var w, cell := NewDetachedCell(v);
      if w.Raise? {
        r := Raise(w.error);
      } else {
        AppendCell(cell);
        r := Ok(|cells| - 1);
      }
      NewCellRefined(reg, fuel, s, v, w, cell.content, r, Snapshot());
    }

    /** `Cell.__init__` before the network keeps the cell: a fresh cell given the content `v`, with the next tag. */
    method NewDetachedCell(v: Value) returns (w: Outcome<()>, cell: Cell)
      requires Valid()
      modifies this, scheduler.alerted, scheduler.everAlerted
      ensures Valid() && cells == old(cells) && fresh(cell) && cell.neighbors == []
      ensures (w, cell.content, scheduler.alerted.queue, scheduler.everAlerted.queue) ==
        CellWrite(reg, fuel, old(nextTag), Nothing, [], old(scheduler.alerted.queue), old(scheduler.everAlerted.queue), v)
      ensures Snapshot() == old(Snapshot()).(alerted := scheduler.alerted.queue, everAlerted := scheduler.everAlerted.queue,
                                            nextTag := old(nextTag) + 1)
    {
      ghost var contents, neighbors := ContentsOf(cells), NeighborsOf(cells);
      cell := new Cell();
      assert cell !in cells;
      w := cell.AddContent(reg, fuel, nextTag, scheduler, v);
      assert ContentsOf(cells) == contents && NeighborsOf(cells) == neighbors;
      nextTag := nextTag + 1;
    }

    /** The network keeps `cell`, which has no neighbours yet, as its newest cell. */
    method AppendCell(cell: Cell)
      requires Valid() && cell !in cells && cell.neighbors == []
      modifies this
      ensures Valid() && cells == old(cells) + [cell]
      ensures Snapshot() == old(Snapshot()).(contents := old(Snapshot()).contents + [cell.content],
                                            neighbors := old(Snapshot()).neighbors + [[]])
    {
      CellAppended(cells, cell);
      cells := cells + [cell];
      AppendShaped(old(Snapshot()), cell.content);
    }

    /** `cells[c].new_neighbor(p)`. */
    method NewNeighbor(c: CellId, p: PropId)
      requires Valid() && c < |cells| && p < |actions|
      modifies cells[c], scheduler.alerted, scheduler.everAlerted
      ensures Valid() && Snapshot() == NetworkModel.NewNeighbor(old(Snapshot()), c, p)
    {
      ghost var s := Snapshot();
      var cell := cells[c];
      cell.NewNeighbor(scheduler, p);
      forall i | 0 <= i < |cells| && i != c ensures cells[i].content == s.contents[i] && cells[i].neighbors == s.neighbors[i] {
        assert cells[i] != cell;
      }
      assert ContentsOf(cells) == s.contents;
      assert NeighborsOf(cells) == s.neighbors[c := cell.neighbors];
      NewNeighborCases(s, c, p, cell.neighbors, Snapshot());
    }

    /** `Propagator(inputs, to_do)`: `to_do` gets the next propagator number, then is registered. */
    method AddPropagator(inputs: seq<CellId>, a: Action) returns (p: PropId)
      requires Valid() && CellsIn(inputs, |cells|) && ActionFits(a, |cells|)
      modifies this, scheduler.alerted, scheduler.everAlerted, cells
      ensures Valid() && cells == old(cells)
      ensures (p, Snapshot()) == NetworkModel.AddPropagator(old(Snapshot()), inputs, a)
    {
      p := AddAction(a);
      Register(inputs, p);
    }

    /** A new closure `to_do` becomes propagator number `|actions|`. */
    method AddAction(a: Action) returns (p: PropId)
      requires Valid() && ActionFits(a, |cells|)
      modifies this
      ensures Valid() && cells == old(cells) && p == |old(actions)|
      ensures Snapshot() == old(Snapshot()).(actions := old(actions) + [a])
    {
      p := |actions|;
      actions := actions + [a];
      assert forall i :: 0 <= i < |actions| - 1 ==> actions[i] == old(actions)[i];
    }

    /** The body of `Propagator.__init__`: `p` becomes a neighbour of every input in turn, then is alerted. */
    method Register(inputs: seq<CellId>, p: PropId)
      requires Valid() && CellsIn(inputs, |cells|) && p < |actions|
      modifies scheduler.alerted, scheduler.everAlerted, cells
      ensures Valid() && Snapshot() == NetworkModel.Register(old(Snapshot()), inputs, p)
    {
      var i := 0;
      while i < |inputs|
        invariant 0 <= i <= |inputs| && Valid()
        invariant NetworkModel.Register(Snapshot(), inputs[i..], p) == NetworkModel.Register(old(Snapshot()), inputs, p)
      {
        RegisterStep(Snapshot(), inputs, i, p);
        NewNeighbor(inputs[i], p);
        i := i + 1;
      }
      ghost var before := Snapshot();
      scheduler.AlertPropagators(Obj(p, false, false, []));
      assert ContentsOf(cells) == before.contents;
      assert NeighborsOf(cells) == before.neighbors;
      RegisterDone(before, inputs, p, Snapshot());
    }

    /** `make_primitive(f)(*ids)`: the last cell is the output and the others are the inputs. */
    method MakePrimitive(f: LiftedFn, ids: seq<CellId>) returns (r: Outcome<PropId>)
      requires Valid() && CellsIn(ids, |cells|)
      modifies this, scheduler.alerted, scheduler.everAlerted, cells
      ensures Valid() && cells == old(cells)
      ensures (r, Snapshot()) == NetworkModel.MakePrimitive(old(Snapshot()), f, ids)
    {
      if ids == [] {
        return Raise(IndexError);
      }
      var inputs, output := ids[..|ids| - 1], ids[|ids| - 1];
      var p := AddPropagator(inputs, Primitive(f, inputs, output));
      r := Ok(p);
    }

    /** `conditional(c, t, f, o)`. */
    method MakeConditional(c: CellId, t: CellId, f: CellId, o: CellId) returns (p: PropId)
      requires Valid() && c < |cells| && t < |cells| && f < |cells| && o < |cells|
      modifies this, scheduler.alerted, scheduler.everAlerted, cells
      ensures Valid() && cells == old(cells)
      ensures (p, Snapshot()) == NetworkModel.MakeConditional(old(Snapshot()), c, t, f, o)
    {
      p := AddPropagator([c, t, f], Conditional(c, t, f, o));
    }

    /** `switch(c, t, o)`: a conditional whose `if_false` is a new cell. */
    method MakeSwitch(c: CellId, t: CellId, o: CellId) returns (r: Outcome<PropId>)
      requires Valid() && c < |cells| && t < |cells| && o < |cells|
      modifies this, scheduler.alerted, scheduler.everAlerted, cells
      ensures Valid() && old(cells) <= cells && fresh(cells[|old(cells)|..])
      ensures (r, Snapshot()) == NetworkModel.MakeSwitch(reg, fuel, old(Snapshot()), c, t, o)
    {
      var cell := NewCell(Nothing);
      if cell.Raise? {
        return Raise(cell.error);
      }
      forall i | 0 <= i < |cells| ensures cells[i] in old(cells) || fresh(cells[i]) {
        if i < |old(cells)| {
          assert cells[i] == old(cells)[i];
        } else {
          assert cells[i] == cells[|old(cells)|..][i - |old(cells)|];
        }
      }
      var p := MakeConditional(c, t, cell.value, o);
      r := Ok(p);
    }

    /** `Propagator.compound(ns, to_build)`. */
    method MakeCompound(ns: seq<CellId>) returns (p: PropId)
      requires Valid() && CellsIn(ns, |cells|)
      modifies this, scheduler.alerted, scheduler.everAlerted, cells
      ensures Valid() && cells == old(cells)
      ensures (p, Snapshot()) == NetworkModel.MakeCompound(old(Snapshot()), ns)
    {
      p := AddPropagator(ns, Compound(ns));
    }

    /**
     * Calling propagator `p`'s closure: `to_do` of a primitive,
     * `conditional_helper` or `compound_helper`.
     */
    method Fire(p: PropId) returns (r: Outcome<()>)
      requires Valid() && p < |actions|
      modifies this, scheduler.alerted, scheduler.everAlerted, cells
      ensures Valid() && cells == old(cells)
      ensures (r, Snapshot()) == NetworkModel.Fire(reg, fuel, old(Snapshot()), p)
    {
      match actions[p]
      case Primitive(_, _, _) => r := FirePrimitive(p);
      case Conditional(_, _, _, _) => r := FireConditional(p);
      case Compound(_) => r := FireCompound(p);
    }

    /** `to_do`: the lifted function applied to the input contents, its result added to the output cell. */
    method FirePrimitive(p: PropId) returns (r: Outcome<()>)
      requires Valid() && p < |actions| && actions[p].Primitive?
      modifies this, scheduler.alerted, scheduler.everAlerted, cells
      ensures Valid() && cells == old(cells)
      ensures (r, Snapshot()) == NetworkModel.Fire(reg, fuel, old(Snapshot()), p)
    {
      var a := actions[p];
      var v := Lift(reg, a.f, Gather(ContentsOf(cells), a.inputs), nextTag, fuel);
      nextTag := nextTag + 1;
      if v.Raise? {
        r := Raise(v.error);
      } else {
        r := AddContent(a.output, v.value);
      }
    }

    /** `conditional_helper`: nothing while the condition is empty, otherwise the chosen content goes to the output. */
    method FireConditional(p: PropId) returns (r: Outcome<()>)
      requires Valid() && p < |actions| && actions[p].Conditional?
      modifies this, scheduler.alerted, scheduler.everAlerted, cells
      ensures Valid() && cells == old(cells)
      ensures (r, Snapshot()) == NetworkModel.Fire(reg, fuel, old(Snapshot()), p)
    {
      var a := actions[p];
      var condition := cells[a.condition].content;
      if condition == Nothing {
        r := Ok(());
      } else {
        r := AddContent(a.output, if Truthy(condition) then cells[a.ifTrue].content else cells[a.ifFalse].content);
      }
    }

    /** `compound_helper`: the first call with some non-empty neighbour builds the body, once. */
    method FireCompound(p: PropId) returns (r: Outcome<()>)
      requires Valid() && p < |actions| && actions[p].Compound?
      modifies this, scheduler.alerted, scheduler.everAlerted, cells
      ensures Valid() && cells == old(cells)
      ensures (r, Snapshot()) == NetworkModel.Fire(reg, fuel, old(Snapshot()), p)
    {
      if p !in built && !AllNone(Gather(ContentsOf(cells), actions[p].neighbors)) {
        built := built + {p};
        buildLog := buildLog + [p];
      }
      r := Ok(());
    }

    /** One turn of `Scheduler.run`'s loop: the oldest alerted propagator is popped and called. */
    method Step() returns (r: Outcome<()>)
      requires Valid() && scheduler.alerted.queue != []
      modifies this, scheduler.alerted, scheduler.everAlerted, cells
      ensures Valid() && cells == old(cells)
      ensures (r, Snapshot()) == NetworkModel.Step(reg, fuel, old(Snapshot()))
    {
      ghost var s := Snapshot();
      var popped := scheduler.alerted.Pop();
      assert ContentsOf(cells) == s.contents && NeighborsOf(cells) == s.neighbors;
      assert s.alerted[0] in s.alerted;
      assert forall q :: q in s.alerted[1..] ==> q in s.alerted;
      r := Fire(popped.value);
    }

    /** One turn of `Scheduler.run` with `n` turns left: an exception ends the run, otherwise it goes on. */
    method Turn(ghost n: nat) returns (r: Outcome<()>)
      requires Valid() && scheduler.alerted.queue != [] && n > 0
      modifies this, scheduler.alerted, scheduler.everAlerted, cells
      ensures Valid() && cells == old(cells)
      ensures r.Raise? ==> old(RunFrom(n)) == (Raise(r.error), Snapshot())
      ensures r.Ok? ==> old(RunFrom(n)) == RunFrom(n - 1)
    {
      ghost var before := Snapshot();
      r := Step();
      RunUnfold(reg, fuel, before, n, r, Snapshot());
    }

    /**
     * `Scheduler.run`, allowed at most `budget` turns: `Ok(true)` once no
     * propagator is alerted, `Ok(false)` when the budget runs out first,
     * and the exception of a propagator that raised.
     */
    method Run(budget: nat) returns (r: Outcome<bool>)
      requires Valid()
      modifies this, scheduler.alerted, scheduler.everAlerted, cells
      ensures Valid() && cells == old(cells)
      ensures (r, Snapshot()) == NetworkModel.Run(reg, fuel, old(Snapshot()), budget)
    {
      ghost var goal := RunFrom(budget);
      var n := budget;
      var pending := scheduler.alerted.Length();
      while pending > 0 && n > 0
        invariant Valid() && cells == old(cells) && pending == |scheduler.alerted.queue|
        invariant RunFrom(n) == goal
        decreases n
      {
        var step := Turn(n);
        if step.Raise? {
          return Raise(step.error);
        }
        n := n - 1;
        pending := scheduler.alerted.Length();
      }
      r := Ok(pending == 0);
      RunEnd(reg, fuel, Snapshot(), n);
    }
  }
}
