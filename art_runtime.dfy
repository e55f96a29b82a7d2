/**
 * The `art` package as objects: a `Scheduler` whose sets and lists are
 * fields the methods reassign, write-once `Cell`s updated in place, and a
 * network that owns the cells, the propagators' closures and the compound
 * `done` flags, and that calls the closures for the scheduler. Each network
 * method is proved to change the objects exactly as the matching function
 * of `ArtModel` changes `Snapshot()`, so the laws proved there hold of the
 * objects.
 */
module ArtRuntime {
  import opened PyValues
  import opened SetQueues
  import opened ArtModel

  /**
   * `Scheduler`: the alerted propagators and the propagators ever alerted,
   * each kept as a set and as a list in insertion order, the
   * `abort_process` flag and `last_value_of_run`.
   */
  class Scheduler {
    var alertedSet: set<PropId>
    var alertedList: seq<PropId>
    var everSet: set<PropId>
    var everList: seq<PropId>
    var abortProcess: bool
    var lastValue: RunValue

    /** Each set holds exactly its list's items, each list holds an item once, and everything alerted was ever alerted. */
    ghost predicate Valid()
      reads this
    {
      (forall p :: p in alertedSet <==> p in alertedList) &&
      (forall p :: p in everSet <==> p in everList) &&
      NoDuplicates(alertedList) && NoDuplicates(everList) &&
      (forall p :: p in alertedList ==> p in everList)
    }

    /** `Scheduler()` calls `initialize`. */
    constructor ()
      ensures Valid() && alertedList == [] && everList == [] && !abortProcess && lastValue == DoneMark
    {
      alertedSet, alertedList := {}, [];
      abortProcess := false;
      lastValue := DoneMark;
      everSet, everList := {}, [];
    }

    /** `initialize`: the alerted queue emptied, `abort_process` false, `last_value_of_run` `"done"`, the record emptied. */
    method Initialize()
      modifies this
      ensures Valid() && alertedList == [] && everList == [] && !abortProcess && lastValue == DoneMark
    {
      ClearAlerted();
      abortProcess := false;
      lastValue := DoneMark;
      everSet, everList := {}, [];
    }

    /** `clear_alerted_propagators`: a new empty set and list. */
    method ClearAlerted()
      modifies this
      ensures alertedSet == {} && alertedList == []
      ensures everSet == old(everSet) && everList == old(everList)
      ensures abortProcess == old(abortProcess) && lastValue == old(lastValue)
    {
      alertedSet, alertedList := {}, [];
    }

    /** `any_propagators_alerted`: the size of the set, which is nonzero exactly when the list is not empty. */
    method AnyAlerted() returns (r: bool)
      requires Valid()
      ensures r <==> alertedList != []
    {
      r := |alertedSet| > 0;
      if alertedList != [] {
        assert alertedList[0] in alertedSet;
      }
      if r {
        var p :| p in alertedSet;
        assert p in alertedList;
      }
    }

    /** `the_alerted_propagators`: a copy of the list, in the order the propagators were alerted. */
    method TheAlerted() returns (items: seq<PropId>)
      requires Valid()
      ensures items == alertedList && NoDuplicates(items)
      ensures forall p :: p in items <==> p in alertedSet
    {
      items := alertedList[..];
    }

    /** `alert_propagators(ps)`: each propagator of `listify(ps)` is inserted into the record, then into the queue. */
    method AlertPropagators(ps: Alerting)
      requires Valid()
      modifies this
      ensures Valid()
      ensures alertedList == Enqueued(old(alertedList), Listify(ps))
      ensures everList == Enqueued(old(everList), Listify(ps))
      ensures abortProcess == old(abortProcess) && lastValue == old(lastValue)
    {
      var items := Listify(ps);
      var i := 0;
      while i < |items|
        invariant 0 <= i <= |items| && Valid()
        invariant Enqueued(alertedList, items[i..]) == Enqueued(old(alertedList), items)
        invariant Enqueued(everList, items[i..]) == Enqueued(old(everList), items)
        invariant abortProcess == old(abortProcess) && lastValue == old(lastValue)
      {
        ghost var queue, record := alertedList, everList;
        AlertOne(items[i]);
        assert Enqueued(alertedList, items[i + 1..]) == Enqueued(old(alertedList), items) by {
          EnqueuedStep(queue, items, i);
        }
        assert Enqueued(everList, items[i + 1..]) == Enqueued(old(everList), items) by {
          EnqueuedStep(record, items, i);
        }
        i := i + 1;
      }
      assert items[i..] == [];
    }

    /** One step of `alert_propagators`: `order_preserving_insert` of `p` into the record, then into the queue. */
    method AlertOne(p: PropId)
      requires Valid()
      modifies this
      ensures Valid()
      ensures (everSet, everList) == OrderPreservingInsert(p, old(everSet), old(everList))
      ensures (alertedSet, alertedList) == OrderPreservingInsert(p, old(alertedSet), old(alertedList))
      ensures alertedList == AddUnique(old(alertedList), p) && everList == AddUnique(old(everList), p)
      ensures abortProcess == old(abortProcess) && lastValue == old(lastValue)
    {
      AddUniqueSpec(everList, p);
      AddUniqueSpec(alertedList, p);
      var ever := OrderPreservingInsert(p, everSet, everList);
      everSet, everList := ever.0, ever.1;
      var alerted := OrderPreservingInsert(p, alertedSet, alertedList);
      alertedSet, alertedList := alerted.0, alerted.1;
    }
  }

  /** A write-once `Cell`: its content (`None` at first) and its neighbour propagators. */
  class Cell {
    var content: Value
    var neighbors: seq<PropId>

    /** The fields `Cell.__init__` sets before it adds the initial content. */
    constructor ()
      ensures content == Nothing && neighbors == []
    {
      content := Nothing;
      neighbors := [];
    }

    /** `new_neighbor(p)`: `p` is appended and alerted unless it is already a neighbour. */
    method NewNeighbor(sched: Scheduler, p: PropId)
      requires sched.Valid()
      modifies this, sched
      ensures sched.Valid() && content == old(content)
      ensures sched.abortProcess == old(sched.abortProcess) && sched.lastValue == old(sched.lastValue)
      ensures p in old(neighbors) ==>
        neighbors == old(neighbors) && sched.alertedList == old(sched.alertedList) && sched.everList == old(sched.everList)
      ensures p !in old(neighbors) ==>
        neighbors == old(neighbors) + [p] &&
        sched.alertedList == Enqueued(old(sched.alertedList), [p]) &&
        sched.everList == Enqueued(old(sched.everList), [p])
    {
      if p !in neighbors {
        neighbors := neighbors + [p];
        sched.AlertPropagators(One(p));
      }
    }

    /** `add_content(c)`: `None` is ignored, an empty cell takes `c` and alerts its neighbours, and a different `c` raises. */
    method AddContent(sched: Scheduler, c: Value) returns (r: Outcome<()>)
      requires sched.Valid()
      modifies this, sched
      ensures sched.Valid() && neighbors == old(neighbors)
      ensures sched.abortProcess == old(sched.abortProcess) && sched.lastValue == old(sched.lastValue)
      ensures (r, content, sched.alertedList, sched.everList) ==
        CellAdd(old(content), neighbors, old(sched.alertedList), old(sched.everList), c)
    {
      if c != Nothing {
        if content == Nothing {
          content := c;
          sched.AlertPropagators(Many(neighbors));
        } else if content != c {
          return Raise(ValueError);
        }
      }
      r := Ok(());
    }
  }

  /**
   * What `add_content(c)` does to one cell with content `content` and
   * neighbours `neighbors`, given the queue `q` and the record `e`: the
   * outcome, the new content and the new lists. It raises exactly on a
   * conflicting second content, and a filled cell keeps its content.
   */
  function CellAdd(content: Value, neighbors: seq<PropId>, q: seq<PropId>, e: seq<PropId>, c: Value)
    : (res: (Outcome<()>, Value, seq<PropId>, seq<PropId>))
    ensures res.0.Raise? <==> c != Nothing && content != Nothing && content != c
    ensures content != Nothing ==> res.1 == content && res.2 == q && res.3 == e
    ensures content == Nothing && c != Nothing ==>
      res.1 == c && res.2 == Enqueued(q, neighbors) && res.3 == Enqueued(e, neighbors)
  {
    if c == Nothing then (Ok(()), content, q, e)
    else if content == Nothing then (Ok(()), c, Enqueued(q, neighbors), Enqueued(e, neighbors))
    else if content != c then (Raise(ValueError), content, q, e)
    else (Ok(()), content, q, e)
  }

  /** A state changed as `Cell.add_content` changes its cell and the lists is the state `Write` gives. */
  lemma WriteRefined(s: ArtNet, o: CellId, c: Value, r: Outcome<()>, m: Value, t: ArtNet)
    requires Shaped(s) && o < |s.contents|
    requires t == s.(contents := s.contents[o := m], alerted := t.alerted, everAlerted := t.everAlerted)
    requires (r, m, t.alerted, t.everAlerted) == CellAdd(s.contents[o], s.neighbors[o], s.alerted, s.everAlerted, c)
    ensures (r, t) == Write(s, o, c)
  {
    if m == s.contents[o] {
      assert s.contents[o := m] == s.contents;
    }
  }

  /** A state changed as `Cell.new_neighbor` changes its cell and the lists is the state `NewNeighbor` gives. */
  lemma NewNeighborCases(s: ArtNet, c: CellId, p: PropId, m: seq<PropId>, t: ArtNet)
    requires Shaped(s) && c < |s.contents| && p < |s.actions|
    requires t == s.(neighbors := s.neighbors[c := m], alerted := t.alerted, everAlerted := t.everAlerted)
    requires p in s.neighbors[c] ==> m == s.neighbors[c] && t.alerted == s.alerted && t.everAlerted == s.everAlerted
    requires p !in s.neighbors[c] ==>
      m == s.neighbors[c] + [p] &&
      t.alerted == Enqueued(s.alerted, [p]) && t.everAlerted == Enqueued(s.everAlerted, [p])
    ensures t == NewNeighbor(s, c, p)
  {
    if p in s.neighbors[c] {
      assert s.neighbors[c := m] == s.neighbors;
    }
  }

  /** One input of `Propagator.__init__`'s loop. */
  lemma RegisterStep(s: ArtNet, inputs: seq<CellId>, i: nat, p: PropId)
    requires Shaped(s) && CellsIn(inputs, |s.contents|) && p < |s.actions| && i < |inputs|
    ensures Register(s, inputs[i..], p) == Register(NewNeighbor(s, inputs[i], p), inputs[i + 1..], p)
  {
    assert inputs[i..][1..] == inputs[i + 1..];
  }

  /** After the loop, `Propagator.__init__` alerts `p` itself. */
  lemma RegisterDone(s: ArtNet, inputs: seq<CellId>, p: PropId, t: ArtNet)
    requires Shaped(s) && p < |s.actions|
    requires t == s.(alerted := Enqueued(s.alerted, [p]), everAlerted := Enqueued(s.everAlerted, [p]))
    ensures Register(s, inputs[|inputs|..], p) == t
  {
    assert inputs[|inputs|..] == [];
  }

  /** One call of `run_alerted`'s loop on the propagators `q` still to call: an exception ends the round, otherwise it goes on with the rest. */
  lemma RoundStep(s: ArtNet, q: seq<PropId>, r: Outcome<()>, t: ArtNet)
    requires Shaped(s) && q != [] && (forall p :: p in q ==> p < |s.actions|) && q[0] < |s.actions|
    requires (r, t) == Fire(s, q[0])
    ensures forall p :: p in q[1..] ==> p in q
    ensures r.Raise? ==> Round(s, q) == (r, t)
    ensures r.Ok? ==> Round(s, q) == Round(t, q[1..])
  {
    assert forall p :: p in q[1..] ==> p in q;
  }

  /** `run_alerted` with room left: one round on the snapshot of the queue, then another call if anything was alerted. */
  lemma RunAlertedThen(s: ArtNet, depth: nat, r0: Outcome<()>, t: ArtNet, more: bool, r: Outcome<()>, u: ArtNet)
    requires Shaped(s) && depth > 0 && (r0, t) == Round(s.(alerted := []), s.alerted)
    requires more <==> r0.Ok? && t.alerted != []
    requires more ==> (r, u) == RunAlerted(t, depth - 1)
    requires !more ==> (r, u) == (r0, t)
    ensures (r, u) == RunAlerted(s, depth)
  {
    if r0.Ok? {
      assert r0.value == ();
    }
  }

  /** Appending a cell appends its content and neighbour list. */
  lemma CellAppended(cs: seq<Cell>, c: Cell)
    ensures ContentsOf(cs + [c]) == ContentsOf(cs) + [c.content]
    ensures NeighborsOf(cs + [c]) == NeighborsOf(cs) + [c.neighbors]
  {}

  /** The contents of the cells, in order. */
  function ContentsOf(cs: seq<Cell>): (r: seq<Value>)
    reads cs
    ensures |r| == |cs| && forall i :: 0 <= i < |cs| ==> r[i] == cs[i].content
  {
    seq(|cs|, i requires 0 <= i < |cs| reads cs => cs[i].content)
  }

  /** The neighbour lists of the cells, in order. */
  function NeighborsOf(cs: seq<Cell>): (r: seq<seq<PropId>>)
    reads cs
    ensures |r| == |cs| && forall i :: 0 <= i < |cs| ==> r[i] == cs[i].neighbors
  {
    seq(|cs|, i requires 0 <= i < |cs| reads cs => cs[i].neighbors)
  }

  /**
   * A network of `art` objects: the scheduler the cells alert, the cells
   * created so far, the propagators' closures in creation order, and the
   * compound propagators whose `done` flag is set, with the order their
   * bodies were built in.
   */
  class Network {
    const scheduler: Scheduler
    var cells: seq<Cell>
    var actions: seq<ArtAction>
    var built: set<PropId>
    var buildLog: seq<PropId>

    /** The state of the network as an `ArtModel.ArtNet` value. */
    ghost function Snapshot(): ArtNet
      reads this, scheduler, cells
    {
      ArtNet(ContentsOf(cells), NeighborsOf(cells), actions, scheduler.alertedList, scheduler.everList,
             scheduler.abortProcess, scheduler.lastValue, built, buildLog)
    }

    /** The scheduler is well formed, no cell object appears twice, and every number refers to something. */
    ghost predicate Valid()
      reads this, scheduler, cells
    {
      scheduler.Valid() &&
      (forall i, j :: 0 <= i < j < |cells| ==> cells[i] != cells[j]) &&
      Shaped(Snapshot())
    }

    /** No cells or propagators, and a new scheduler. */
    constructor ()
      ensures Valid() && Snapshot() == Fresh && fresh(scheduler)
    {
      scheduler := new Scheduler();
      cells := [];
      actions := [];
      built := {};
      buildLog := [];
    }

    /** `scheduler.initialize()`. */
    method Initialize()
      requires Valid()
      modifies scheduler
      ensures Valid() && Snapshot() == ArtModel.Initialize(old(Snapshot()))
    {
      scheduler.Initialize();
      assert ContentsOf(cells) == old(ContentsOf(cells));
      assert NeighborsOf(cells) == old(NeighborsOf(cells));
    }

    /** `cells[o].add_content(c)`. */
    method AddContent(o: CellId, c: Value) returns (r: Outcome<()>)
      requires Valid() && o < |cells|
      modifies cells[o], scheduler
      ensures Valid()
      ensures (r, Snapshot()) == Write(old(Snapshot()), o, c)
    {
      ghost var s := Snapshot();
      var cell := cells[o];
      r := cell.AddContent(scheduler, c);
      forall i | 0 <= i < |cells| && i != o ensures cells[i].content == s.contents[i] && cells[i].neighbors == s.neighbors[i] {
        assert cells[i] != cell;
      }
      assert NeighborsOf(cells) == s.neighbors;
      assert ContentsOf(cells) == s.contents[o := cell.content];
      WriteRefined(s, o, c, r, cell.content, Snapshot());
    }

    /** `Cell(content=v)`: a new cell, given `v`, which it always accepts, becomes the newest cell. */
    method NewCell(v: Value) returns (c: CellId)
      requires Valid()
      modifies this, scheduler
      ensures Valid() && |cells| == |old(cells)| + 1 && cells == old(cells) + [cells[|cells| - 1]] && fresh(cells[|cells| - 1])
      ensures (c, Snapshot()) == ArtModel.NewCell(old(Snapshot()), v)
    {
      var cell := NewDetachedCell(v);
      AppendCell(cell);
      c := |cells| - 1;
    }

    /** `Cell.__init__` before the network keeps the cell: a fresh cell without neighbours, holding `v`; no one is alerted. */
    method NewDetachedCell(v: Value) returns (cell: Cell)
      requires Valid()
      modifies scheduler
      ensures Valid() && fresh(cell) && cell.neighbors == [] && cell.content == v
      ensures Snapshot() == old(Snapshot())
    {
      ghost var contents, neighbors := ContentsOf(cells), NeighborsOf(cells);
      cell := new Cell();
      assert cell !in cells;
      var w := cell.AddContent(scheduler, v);
      assert Enqueued(old(scheduler.alertedList), []) == old(scheduler.alertedList);
      assert Enqueued(old(scheduler.everList), []) == old(scheduler.everList);
      assert ContentsOf(cells) == contents && NeighborsOf(cells) == neighbors;
    }

    /** The network keeps `cell`, which has no neighbours yet, as its newest cell. */
    method AppendCell(cell: Cell)
      requires Valid() && cell !in cells && cell.neighbors == []
      modifies this
      ensures Valid() && cells == old(cells) + [cell]
      ensures Snapshot() == old(Snapshot()).(contents := old(Snapshot()).contents + [cell.content],
                                            neighbors := old(Snapshot()).neighbors + [[]])
    {
      CellAppended(cells, cell);
      cells := cells + [cell];
      ghost var s := old(Snapshot());
      forall i | 0 <= i < |s.actions| ensures ActionFits(s.actions[i], |s.contents| + 1) {
        assert ActionFits(s.actions[i], |s.contents|);
      }
    }

    /** `cells[c].new_neighbor(p)`. */
    method NewNeighbor(c: CellId, p: PropId)
      requires Valid() && c < |cells| && p < |actions|
      modifies cells[c], scheduler
      ensures Valid() && Snapshot() == ArtModel.NewNeighbor(old(Snapshot()), c, p)
    {
      ghost var s := Snapshot();
      var cell := cells[c];
      cell.NewNeighbor(scheduler, p);
      forall i | 0 <= i < |cells| && i != c ensures cells[i].content == s.contents[i] && cells[i].neighbors == s.neighbors[i] {
        assert cells[i] != cell;
      }
      assert ContentsOf(cells) == s.contents;
      assert NeighborsOf(cells) == s.neighbors[c := cell.neighbors];
      NewNeighborCases(s, c, p, cell.neighbors, Snapshot());
    }

    /** `Propagator(inputs, to_do)`: `to_do` gets the next propagator number, then is registered. */
    method AddPropagator(inputs: seq<CellId>, a: ArtAction) returns (p: PropId)
      requires Valid() && CellsIn(inputs, |cells|) && ActionFits(a, |cells|)
      modifies this, scheduler, cells
      ensures Valid() && cells == old(cells)
      ensures (p, Snapshot()) == ArtModel.AddPropagator(old(Snapshot()), inputs, a)
    {
      p := AddAction(a);
      Register(inputs, p);
    }

    /** A new closure `to_do` becomes propagator number `|actions|`. */
    method AddAction(a: ArtAction) returns (p: PropId)
      requires Valid() && ActionFits(a, |cells|)
      modifies this
      ensures Valid() && cells == old(cells) && p == |old(actions)|
      ensures Snapshot() == old(Snapshot()).(actions := old(actions) + [a])
    {
      p := |actions|;
      actions := actions + [a];
      assert forall i :: 0 <= i < |actions| - 1 ==> actions[i] == old(actions)[i];
    }

    /** The body of `Propagator.__init__`: `p` becomes a neighbour of every input in turn, then is alerted. */
    method Register(inputs: seq<CellId>, p: PropId)
      requires Valid() && CellsIn(inputs, |cells|) && p < |actions|
      modifies scheduler, cells
      ensures Valid() && Snapshot() == ArtModel.Register(old(Snapshot()), inputs, p)
    {
      var i := 0;
      while i < |inputs|
        invariant 0 <= i <= |inputs| && Valid()
        invariant ArtModel.Register(Snapshot(), inputs[i..], p) == ArtModel.Register(old(Snapshot()), inputs, p)
      {
        RegisterStep(Snapshot(), inputs, i, p);
        NewNeighbor(inputs[i], p);
        i := i + 1;
      }
      ghost var before := Snapshot();
      scheduler.AlertPropagators(One(p));
      assert ContentsOf(cells) == before.contents;
      assert NeighborsOf(cells) == before.neighbors;
      RegisterDone(before, inputs, p, Snapshot());
    }

    /** `make_primitive(f)(*ids)`: the last cell is the output and the others are the inputs. */
    method MakePrimitive(f: ArtFn, ids: seq<CellId>) returns (r: Outcome<PropId>)
      requires Valid() && CellsIn(ids, |cells|)
      modifies this, scheduler, cells
      ensures Valid() && cells == old(cells)
      ensures (r, Snapshot()) == ArtModel.MakePrimitive(old(Snapshot()), f, ids)
    {
      if ids == [] {
        return Raise(IndexError);
      }
      var inputs, output := ids[..|ids| - 1], ids[|ids| - 1];
      var p := AddPropagator(inputs, Primitive(f, inputs, output));
      r := Ok(p);
    }

    /** `switch(c, t, o)`: `conditional(c, t, Cell(), o)`. */
    method MakeSwitch(c: CellId, t: CellId, o: CellId) returns (p: PropId)
      requires Valid() && c < |cells| && t < |cells| && o < |cells|
      modifies this, scheduler, cells
      ensures Valid() && |cells| == |old(cells)| + 1 && cells == old(cells) + [cells[|cells| - 1]] && fresh(cells[|cells| - 1])
      ensures (p, Snapshot()) == ArtModel.MakeSwitch(old(Snapshot()), c, t, o)
    {
      var f := NewCell(Nothing);
      p := AddPropagator([c, t, f], Switch(c, t, f, o));
    }

    /** `Propagator.compound(ns, to_build)`. */
    method MakeCompound(ns: seq<CellId>) returns (p: PropId)
      requires Valid() && CellsIn(ns, |cells|)
      modifies this, scheduler, cells
      ensures Valid() && cells == old(cells)
      ensures (p, Snapshot()) == ArtModel.MakeCompound(old(Snapshot()), ns)
    {
      p := AddPropagator(ns, Compound(ns));
    }

    /** Calling propagator `p`'s closure: `to_do` of a primitive, the conditional's `helper`, or the compound's `test`. */
    method Fire(p: PropId) returns (r: Outcome<()>)
      requires Valid() && p < |actions|
      modifies this, scheduler, cells
      ensures Valid() && cells == old(cells)
      ensures (r, Snapshot()) == ArtModel.Fire(old(Snapshot()), p)
    {
      match actions[p]
      case Primitive(_, _, _) => r := FirePrimitive(p);
      case Switch(_, _, _, _) => r := FireSwitch(p);
      case Compound(_) => r := FireCompound(p);
    }

    /** `to_do`: the lifted function applied to the input contents, its result added to the output cell. */
    method FirePrimitive(p: PropId) returns (r: Outcome<()>)
      requires Valid() && p < |actions| && actions[p].Primitive?
      modifies this, scheduler, cells
      ensures Valid() && cells == old(cells)
      ensures (r, Snapshot()) == ArtModel.Fire(old(Snapshot()), p)
    {
      var a := actions[p];
      var v := Lift(a.f, Gather(ContentsOf(cells), a.inputs));
      if v.Raise? {
        r := Raise(v.error);
      } else {
        r := AddContent(a.output, v.value);
      }
    }

    /** The conditional's `helper`: nothing while the predicate is `None`, otherwise the chosen content goes to the output. */
    method FireSwitch(p: PropId) returns (r: Outcome<()>)
      requires Valid() && p < |actions| && actions[p].Switch?
      modifies this, scheduler, cells
      ensures Valid() && cells == old(cells)
      ensures (r, Snapshot()) == ArtModel.Fire(old(Snapshot()), p)
    {
      var a := actions[p];
      var guard := cells[a.guard].content;
      if guard == Nothing {
        r := Ok(());
      } else {
        r := AddContent(a.output, if Truthy(guard) then cells[a.ifTrue].content else cells[a.ifFalse].content);
      }
    }

    /** The compound's `test`: unless `done`, the flag is set and the body built; the `filter` guard is always true. */
    method FireCompound(p: PropId) returns (r: Outcome<()>)
      requires Valid() && p < |actions| && actions[p].Compound?
      modifies this, scheduler, cells
      ensures Valid() && cells == old(cells)
      ensures (r, Snapshot()) == ArtModel.Fire(old(Snapshot()), p)
    {
      if p !in built {
        built := built + {p};
        buildLog := buildLog + [p];
      }
      r := Ok(());
    }

    /** The `for` loop of `run_alerted`: each propagator of `ps` is called in turn, until one raises. */
    method RunRound(ps: seq<PropId>) returns (r: Outcome<()>)
      requires Valid() && forall p :: p in ps ==> p < |actions|
      modifies this, scheduler, cells
      ensures Valid() && cells == old(cells)
      ensures (r, Snapshot()) == Round(old(Snapshot()), ps)
    {
      var i := 0;
      while i < |ps|
        invariant 0 <= i <= |ps| && Valid() && cells == old(cells) && actions == old(actions)
        invariant forall p :: p in ps[i..] ==> p in ps
        invariant Round(Snapshot(), ps[i..]) == Round(old(Snapshot()), ps)
      {
        ghost var before := Snapshot();
        assert ps[i..][0] == ps[i] && ps[i..][1..] == ps[i + 1..];
        assert ps[i] in ps;
        r := Fire(ps[i]);
        RoundStep(before, ps[i..], r, Snapshot());
        if r.Raise? {
          return;
        }
        i := i + 1;
      }
      assert ps[i..] == [];
      r := Ok(());
    }

    /**
     * `run_alerted` with room for `depth` more nested calls: the alerted
     * list is copied and cleared, each propagator of the copy is called,
     * and the method calls itself while propagators are alerted.
     */
    method RunAlerted(depth: nat) returns (r: Outcome<()>)
      requires Valid()
      modifies this, scheduler, cells
      ensures Valid() && cells == old(cells)
      ensures (r, Snapshot()) == ArtModel.RunAlerted(old(Snapshot()), depth)
      decreases depth, 1
    {
      if depth == 0 {
        return Raise(RecursionError);
      }
      r := RunAlertedNested(depth);
    }

    /** `run_alerted` past its depth check: one round, then the nested call while propagators are alerted. */
    method RunAlertedNested(depth: nat) returns (r: Outcome<()>)
      requires Valid() && depth > 0
      modifies this, scheduler, cells
      ensures Valid() && cells == old(cells)
      ensures (r, Snapshot()) == ArtModel.RunAlerted(old(Snapshot()), depth)
      decreases depth, 0
    {
      ghost var s := Snapshot();
      var more;
      r, more := AlertedRound();
      ghost var r0, t := r, Snapshot();
      r := RunAlertedIf(depth - 1, r, more);
      RunAlertedThen(s, depth, r0, t, more, r, Snapshot());
    }

    /** The nested `run_alerted` call when `more` holds; otherwise the round's outcome `r0` stands. */
    method RunAlertedIf(depth: nat, r0: Outcome<()>, more: bool) returns (r: Outcome<()>)
      requires Valid()
      modifies this, scheduler, cells
      ensures Valid() && cells == old(cells)
      ensures more ==> (r, Snapshot()) == ArtModel.RunAlerted(old(Snapshot()), depth)
      ensures !more ==> r == r0 && Snapshot() == old(Snapshot())
      decreases depth, 2
    {
      r := r0;
      if more {
        r := RunAlerted(depth);
      }
    }

    /**
     * The body of `run_alerted` up to its recursive call: the alerted list
     * is copied and cleared, each propagator of the copy is called, and
     * unless one raised, `any_propagators_alerted` decides whether to go on.
     */
    method AlertedRound() returns (r: Outcome<()>, more: bool)
      requires Valid()
      modifies this, scheduler, cells
      ensures Valid() && cells == old(cells)
      ensures (r, Snapshot()) == Round(old(Snapshot()).(alerted := []), old(Snapshot()).alerted)
      ensures more <==> r.Ok? && Snapshot().alerted != []
    {
      var temp := TakeAlerted();
      r := RunRound(temp);
      more := false;
      if r.Ok? {
        more := scheduler.AnyAlerted();
      }
    }

    /** The first two statements of `run_alerted`: the alerted list is copied, then cleared. */
    method TakeAlerted() returns (temp: seq<PropId>)
      requires Valid()
      modifies scheduler
      ensures Valid() && temp == old(Snapshot()).alerted && Snapshot() == old(Snapshot()).(alerted := [])
    {
      temp := scheduler.TheAlerted();
      scheduler.ClearAlerted();
      assert ContentsOf(cells) == old(ContentsOf(cells)) && NeighborsOf(cells) == old(NeighborsOf(cells));
    }

    /** `run` stores `None` as `last_value_of_run`. */
    method StoreNone()
      requires Valid()
      modifies scheduler
      ensures Valid() && Snapshot() == old(Snapshot()).(lastValue := NoneMark)
    {
      scheduler.lastValue := NoneMark;
      assert ContentsOf(cells) == old(ContentsOf(cells)) && NeighborsOf(cells) == old(NeighborsOf(cells));
    }

    /** `run`: `last_value_of_run` when nothing is alerted; otherwise the queue is drained and `None` is stored and returned. */
    method Run(depth: nat) returns (r: Outcome<RunValue>)
      requires Valid()
      modifies this, scheduler, cells
      ensures Valid() && cells == old(cells)
      ensures (r, Snapshot()) == ArtModel.Run(old(Snapshot()), depth)
    {
      var any := scheduler.AnyAlerted();
      if !any {
        return Ok(scheduler.lastValue);
      }
      var drained := RunAlerted(depth);
      if drained.Raise? {
        return Raise(drained.error);
      }
      StoreNone();
      r := Ok(NoneMark);
    }
  }
}
