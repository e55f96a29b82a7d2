/**
 * What the `art` package guarantees, stated about its model: the invariants
 * every operation keeps, that a filled cell never changes, how a propagator
 * is wired and alerted, what each kind of propagator does when called, and
 * what `run` returns.
 */
module ArtLaws {
  import opened PyValues
  import opened SetQueues
  import opened ArtModel

  lemma FreshValid()
    ensures Valid(Fresh)
  {}

  /**
   * `alert_propagators`: both lists keep their old items in order, gain
   * exactly the missing propagators of `listify(ps)`, and stay
   * duplicate-free; the invariants hold afterwards.
   */
  lemma AlertKeepsValid(s: ArtNet, ps: Alerting)
    requires Valid(s) && forall p :: p in Listify(ps) ==> p < |s.actions|
    ensures var t := Alert(s, ps);
      Valid(t) &&
      |s.alerted| <= |t.alerted| && t.alerted[..|s.alerted|] == s.alerted &&
      |s.everAlerted| <= |t.everAlerted| && t.everAlerted[..|s.everAlerted|] == s.everAlerted &&
      (forall p :: p in t.alerted <==> p in s.alerted || p in Listify(ps)) &&
      (forall p :: p in t.everAlerted <==> p in s.everAlerted || p in Listify(ps))
  {
    EnqueuedSpec(s.alerted, Listify(ps));
    EnqueuedSpec(s.everAlerted, Listify(ps));
  }

  /** `add_content` keeps the invariants. */
  lemma WriteKeepsValid(s: ArtNet, o: CellId, c: Value)
    requires Valid(s) && o < |s.contents|
    ensures Valid(Write(s, o, c).1)
  {
    if c != Nothing && s.contents[o] == Nothing {
      var s1 := s.(contents := s.contents[o := c]);
      assert forall p :: p in Listify(Many(s.neighbors[o])) ==> p in s.neighbors[o];
      AlertKeepsValid(s1, Many(s.neighbors[o]));
    }
  }

  /** An empty cell given content stores it and alerts exactly its neighbours, appended in their order. */
  lemma WriteToEmpty(s: ArtNet, o: CellId, c: Value)
    requires Valid(s) && o < |s.contents| && s.contents[o] == Nothing && c != Nothing
    ensures var (r, t) := Write(s, o, c);
      r == Ok(()) &&
      t == s.(contents := s.contents[o := c], alerted := Enqueued(s.alerted, s.neighbors[o]),
              everAlerted := Enqueued(s.everAlerted, s.neighbors[o])) &&
      forall p :: p in t.alerted <==> p in s.alerted || p in s.neighbors[o]
  {
    EnqueuedItems(s.alerted, s.neighbors[o]);
  }

  /** Content never changes once a cell is filled: `t` agrees with `s` on every filled cell of `s`. */
  predicate Settled(s: ArtNet, t: ArtNet) {
    |t.contents| == |s.contents| &&
    forall i :: 0 <= i < |s.contents| && s.contents[i] != Nothing ==> t.contents[i] == s.contents[i]
  }

  lemma WriteSettles(s: ArtNet, o: CellId, c: Value)
    requires Shaped(s) && o < |s.contents|
    ensures Settled(s, Write(s, o, c).1)
  {}

  lemma FireSettles(s: ArtNet, p: PropId)
    requires Shaped(s) && p < |s.actions|
    ensures Settled(s, Fire(s, p).1)
  {
    match s.actions[p]
    case Primitive(f, inputs, output) =>
      var v := Lift(f, Gather(s.contents, inputs));
      if v.Ok? {
        WriteSettles(s, output, v.value);
      }
    case Switch(c, t, f, o) =>
      if s.contents[c] != Nothing {
        WriteSettles(s, o, if Truthy(s.contents[c]) then s.contents[t] else s.contents[f]);
      }
    case Compound(_) =>
  }

  lemma {:induction false} RoundSettles(s: ArtNet, ps: seq<PropId>)
    requires Shaped(s) && forall p :: p in ps ==> p < |s.actions|
    ensures Settled(s, Round(s, ps).1)
    decreases |ps|
  {
    if ps != [] {
      assert ps[0] in ps;
      FireSettles(s, ps[0]);
      var (r, t) := Fire(s, ps[0]);
      if r.Ok? {
        assert forall p :: p in ps[1..] ==> p in ps;
        RoundSettles(t, ps[1..]);
      }
    }
  }

  /** However `run_alerted` ends, no filled cell has changed. */
  lemma {:induction false} RunAlertedSettles(s: ArtNet, depth: nat)
    requires Shaped(s)
    ensures Settled(s, RunAlerted(s, depth).1)
    decreases depth
  {
    if depth > 0 {
      var s0 := s.(alerted := []);
      RoundSettles(s0, s.alerted);
      var (r, t) := Round(s0, s.alerted);
      if r.Ok? && t.alerted != [] {
        RunAlertedSettles(t, depth - 1);
      }
    }
  }

  /** However `run` ends, no filled cell has changed: a cell is written once. */
  lemma RunSettles(s: ArtNet, depth: nat)
    requires Shaped(s)
    ensures Settled(s, Run(s, depth).1)
  {
    if s.alerted != [] {
      RunAlertedSettles(s, depth);
    }
  }

  /** Emptying the alerted list, as `run_alerted` does first, keeps a state valid. */
  lemma ClearedValid(s: ArtNet)
    requires Valid(s)
    ensures Valid(s.(alerted := []))
  {}

  /** Calling any propagator keeps the invariants. */
  lemma FireKeepsValid(s: ArtNet, p: PropId)
    requires Valid(s) && p < |s.actions|
    ensures Valid(Fire(s, p).1)
  {
    match s.actions[p]
    case Primitive(f, inputs, output) =>
      var v := Lift(f, Gather(s.contents, inputs));
      if v.Ok? {
        WriteKeepsValid(s, output, v.value);
      }
    case Switch(c, t, f, o) =>
      if s.contents[c] != Nothing {
        WriteKeepsValid(s, o, if Truthy(s.contents[c]) then s.contents[t] else s.contents[f]);
      }
    case Compound(_) =>
      if p !in s.built {
        assert p !in s.buildLog;
      }
  }

  lemma {:induction false} RoundKeepsValid(s: ArtNet, ps: seq<PropId>)
    requires Valid(s) && forall p :: p in ps ==> p < |s.actions|
    ensures Valid(Round(s, ps).1)
    decreases |ps|
  {
    if ps != [] {
      assert ps[0] in ps;
      FireKeepsValid(s, ps[0]);
      var (r, t) := Fire(s, ps[0]);
      if r.Ok? {
        assert forall p :: p in ps[1..] ==> p in ps;
        RoundKeepsValid(t, ps[1..]);
      }
    }
  }

  lemma {:induction false} RunAlertedKeepsValid(s: ArtNet, depth: nat)
    requires Valid(s)
    ensures Valid(RunAlerted(s, depth).1)
    decreases depth
  {
    if depth > 0 {
      var s0 := s.(alerted := []);
      ClearedValid(s);
      RoundKeepsValid(s0, s.alerted);
      var (r, t) := Round(s0, s.alerted);
      if r.Ok? && t.alerted != [] {
        RunAlertedKeepsValid(t, depth - 1);
      }
    }
  }

  lemma RunKeepsValid(s: ArtNet, depth: nat)
    requires Valid(s)
    ensures Valid(Run(s, depth).1)
  {
    if s.alerted != [] {
      RunAlertedKeepsValid(s, depth);
    }
  }

  /**
   * `run` returns `last_value_of_run`, which a drain sets to `None`: once a
   * run has succeeded, nothing is alerted and running again changes nothing
   * and returns the same value.
   */
  lemma RunAgain(s: ArtNet, depth: nat, depth': nat)
    requires Shaped(s) && Run(s, depth).0.Ok?
    ensures var (r, t) := Run(s, depth);
      t.alerted == [] && r.value == t.lastValue &&
      (s.alerted != [] ==> r.value == NoneMark) &&
      Run(t, depth') == (Ok(r.value), t)
  {}

  /** A round of one propagator is one call of it. */
  lemma RoundSingle(s: ArtNet, p: PropId)
    requires Shaped(s) && p < |s.actions|
    ensures Round(s, [p]) == Fire(s, p)
  {
    var q := [p];
    assert q[0] == p && q[1..] == [];
    var res := Fire(s, p);
    assert Round(s, q) == if res.0.Raise? then res else Round(res.1, []);
    if res.0.Ok? {
      var u: () := res.0.value;
      assert u == ();
    }
  }

  /** `run` with propagators alerted: the first round raises, or it leaves nothing alerted and `run` returns `None`. */
  lemma RunSingleRound(s: ArtNet, depth: nat, r: Outcome<()>, t: ArtNet)
    requires Shaped(s) && depth >= 1 && s.alerted != [] && Round(s.(alerted := []), s.alerted) == (r, t)
    ensures r.Raise? ==> Run(s, depth) == (Raise(r.error), t)
    ensures r.Ok? && t.alerted == [] ==> Run(s, depth) == (Ok(NoneMark), t.(lastValue := NoneMark))
  {}

  /** `initialize` empties both lists and keeps the invariants. */
  lemma InitializeKeepsValid(s: ArtNet)
    requires Valid(s)
    ensures Valid(Initialize(s)) && !AnyAlerted(Initialize(s))
  {}

  // ---------------------------------------------------------------------
  // Calling propagators
  // ---------------------------------------------------------------------

  /** A primitive with an empty input cell changes nothing. */
  lemma MissingInputChangesNothing(s: ArtNet, p: PropId, k: nat)
    requires Shaped(s) && p < |s.actions| && s.actions[p].Primitive?
    requires k < |s.actions[p].inputs| && s.contents[s.actions[p].inputs[k]] == Nothing
    ensures Fire(s, p) == (Ok(()), s)
  {
    assert ActionFits(s.actions[p], |s.contents|);
    var vs := Gather(s.contents, s.actions[p].inputs);
    assert vs[k] == Nothing;
  }

  /** A primitive whose inputs are all filled writes `f` of their contents to its output, or raises what `f` raises. */
  lemma PrimitiveApplies(s: ArtNet, p: PropId)
    requires Shaped(s) && p < |s.actions| && s.actions[p].Primitive? && s.actions[p].f.Builtin?
    requires forall k :: 0 <= k < |s.actions[p].inputs| ==> s.contents[s.actions[p].inputs[k]] != Nothing
    ensures var a := s.actions[p];
      var v := PyApply(a.f.f, Gather(s.contents, a.inputs));
      Fire(s, p) == if v.Raise? then (Raise(v.error), s) else Write(s, a.output, v.value)
  {
    var a := s.actions[p];
    assert ActionFits(a, |s.contents|);
    var vs := Gather(s.contents, a.inputs);
    assert Nothing !in vs by {
      forall k | 0 <= k < |vs| ensures vs[k] != Nothing {}
    }
  }

  /** `constant(v)(o)`: a primitive without inputs that writes `v` to `o` whenever it is called. */
  lemma ConstantWrites(s: ArtNet, v: Value, o: CellId)
    requires Shaped(s) && o < |s.contents|
    ensures var (r, t) := MakePrimitive(s, Constant(v), [o]);
      r == Ok(|s.actions|) && t.actions == s.actions + [Primitive(Constant(v), [], o)] &&
      Fire(t, |s.actions|) == Write(t, o, v)
  {
    assert [o][..0] == [];
    var (r, t) := MakePrimitive(s, Constant(v), [o]);
    assert Gather(t.contents, []) == [];
  }

  /**
   * A switch does nothing while its predicate is `None`; otherwise it
   * writes the content of `if_true` or `if_false`, as the predicate is true
   * or false in Python.
   */
  lemma SwitchChooses(s: ArtNet, p: PropId)
    requires Shaped(s) && p < |s.actions| && s.actions[p].Switch?
    ensures var a := s.actions[p];
      var c := s.contents[a.guard];
      Fire(s, p) ==
        if c == Nothing then (Ok(()), s)
        else if Truthy(c) then Write(s, a.output, s.contents[a.ifTrue])
        else Write(s, a.output, s.contents[a.ifFalse])
  {
    assert ActionFits(s.actions[p], |s.contents|);
  }

  /** With the empty cell `switch` made as `if_false`, a false predicate writes `None`, which changes nothing. */
  lemma SwitchFalseDoesNothing(s: ArtNet, p: PropId)
    requires Shaped(s) && p < |s.actions| && s.actions[p].Switch?
    requires s.contents[s.actions[p].guard] != Nothing && !Truthy(s.contents[s.actions[p].guard])
    requires s.contents[s.actions[p].ifFalse] == Nothing
    ensures Fire(s, p) == (Ok(()), s)
  {
    SwitchChooses(s, p);
  }

  /**
   * A compound propagator builds its body on its first call, whatever its
   * neighbours hold, and never again: a second call changes nothing.
   */
  lemma CompoundBuildsOnce(s: ArtNet, p: PropId)
    requires Valid(s) && p < |s.actions| && s.actions[p].Compound?
    ensures var (r, t) := Fire(s, p);
      r == Ok(()) && p in t.built &&
      t == (if p in s.built then s else s.(built := s.built + {p}, buildLog := s.buildLog + [p])) &&
      Fire(t, p) == (Ok(()), t)
  {}

  // ---------------------------------------------------------------------
  // Building a network
  // ---------------------------------------------------------------------

  /**
   * After `Propagator(inputs, to_do)` for a propagator `p` that is already
   * numbered: `p` is a neighbour of every input cell (appended to those that
   * did not list it), other cells are untouched, and `p` is in both lists.
   */
  lemma {:induction false} RegisterSpec(s: ArtNet, inputs: seq<CellId>, p: PropId)
    requires Shaped(s) && CellsIn(inputs, |s.contents|) && p < |s.actions|
    ensures var t := Register(s, inputs, p);
      t.alerted == AddUnique(s.alerted, p) && t.everAlerted == AddUnique(s.everAlerted, p) &&
      t == s.(neighbors := t.neighbors, alerted := t.alerted, everAlerted := t.everAlerted) &&
      |t.neighbors| == |s.neighbors| &&
      forall c :: 0 <= c < |s.neighbors| ==>
        t.neighbors[c] == if c in inputs && p !in s.neighbors[c] then s.neighbors[c] + [p] else s.neighbors[c]
    decreases |inputs|
  {
    EnqueuedOne<PropId>(s.alerted, p);
    EnqueuedOne<PropId>(s.everAlerted, p);
    if inputs != [] {
      var c0 := inputs[0];
      var s1 := NewNeighbor(s, c0, p);
      RegisterSpec(s1, inputs[1..], p);
      assert forall c :: c in inputs <==> c == c0 || c in inputs[1..];
    }
  }

  /**
   * `Propagator(inputs, to_do)`: the propagator gets the next number, is
   * appended to the neighbours of each input cell exactly once, and is
   * alerted exactly once.
   */
  lemma AddPropagatorSpec(s: ArtNet, inputs: seq<CellId>, a: ArtAction)
    requires Shaped(s) && CellsIn(inputs, |s.contents|) && ActionFits(a, |s.contents|)
    ensures var (p, t) := AddPropagator(s, inputs, a);
      t.alerted == s.alerted + [p] && t.everAlerted == s.everAlerted + [p] &&
      t == s.(actions := s.actions + [a], neighbors := t.neighbors, alerted := t.alerted, everAlerted := t.everAlerted) &&
      forall c :: 0 <= c < |s.neighbors| ==>
        t.neighbors[c] == if c in inputs then s.neighbors[c] + [p] else s.neighbors[c]
  {
    var p := |s.actions|;
    RegisterSpec(s.(actions := s.actions + [a]), inputs, p);
    assert p !in s.alerted && p !in s.everAlerted;
    assert forall c :: 0 <= c < |s.neighbors| ==> p !in s.neighbors[c];
  }

  /** `Propagator(inputs, to_do)` keeps the invariants. */
  lemma AddPropagatorKeepsValid(s: ArtNet, inputs: seq<CellId>, a: ArtAction)
    requires Valid(s) && CellsIn(inputs, |s.contents|) && ActionFits(a, |s.contents|)
    ensures Valid(AddPropagator(s, inputs, a).1)
  {
    var (p, t) := AddPropagator(s, inputs, a);
    AddPropagatorSpec(s, inputs, a);
    AddUniqueSpec(s.alerted, p);
    AddUniqueSpec(s.everAlerted, p);
    forall c | 0 <= c < |s.neighbors| ensures NoDuplicates(t.neighbors[c]) {
      assert p !in s.neighbors[c];
      AddUniqueSpec(s.neighbors[c], p);
    }
  }

  /** `Cell(content=v)`: the next cell, holding `v`, with no neighbours; no one is alerted and the invariants hold. */
  lemma NewCellKeepsValid(s: ArtNet, v: Value)
    requires Valid(s)
    ensures var (c, t) := NewCell(s, v);
      Valid(t) && c == |s.contents| && t.contents[c] == v && t.neighbors[c] == [] && t.alerted == s.alerted
  {
    var (c, t) := NewCell(s, v);
    assert forall d :: 0 <= d < |s.neighbors| ==> t.neighbors[d] == s.neighbors[d];
  }

  /**
   * `make_primitive(f)(*cells)`: the last cell is the output, only the
   * others become the propagator's neighbours, and the propagator is alerted;
   * with no cell at all the call raises `IndexError`.
   */
  lemma MakePrimitiveSpec(s: ArtNet, f: ArtFn, cells: seq<CellId>)
    requires Valid(s) && CellsIn(cells, |s.contents|)
    ensures var (r, t) := MakePrimitive(s, f, cells);
      Valid(t) &&
      (cells == [] ==> r == Raise(IndexError) && t == s) &&
      (cells != [] ==>
        var inputs := cells[..|cells| - 1];
        r == Ok(|s.actions|) &&
        t.actions == s.actions + [Primitive(f, inputs, cells[|cells| - 1])] &&
        t.alerted == s.alerted + [|s.actions|] &&
        forall c :: 0 <= c < |s.neighbors| ==> (|s.actions| in t.neighbors[c] <==> c in inputs))
  {
    if cells != [] {
      var inputs, output := cells[..|cells| - 1], cells[|cells| - 1];
      var p := |s.actions|;
      AddPropagatorSpec(s, inputs, Primitive(f, inputs, output));
      AddPropagatorKeepsValid(s, inputs, Primitive(f, inputs, output));
      var t := AddPropagator(s, inputs, Primitive(f, inputs, output)).1;
      forall c | 0 <= c < |s.neighbors| ensures p in t.neighbors[c] <==> c in inputs {
        assert p !in s.neighbors[c];
      }
    }
  }

  /**
   * `switch(predicate, if_true, output)`: a new empty cell becomes
   * `if_false`, and the conditional listens to the predicate, `if_true` and
   * that cell; the invariants hold afterwards.
   */
  lemma MakeSwitchSpec(s: ArtNet, c: CellId, t: CellId, o: CellId)
    requires Valid(s) && c < |s.contents| && t < |s.contents| && o < |s.contents|
    ensures var (p, u) := MakeSwitch(s, c, t, o);
      var f := |s.contents|;
      Valid(u) && p == |s.actions| && u.contents == s.contents + [Nothing] &&
      u.actions == s.actions + [Switch(c, t, f, o)] &&
      p in u.neighbors[c] && p in u.neighbors[t] && u.neighbors[f] == [p]
  {
    NewCellKeepsValid(s, Nothing);
    var (f, s1) := NewCell(s, Nothing);
    AddPropagatorSpec(s1, [c, t, f], Switch(c, t, f, o));
    AddPropagatorKeepsValid(s1, [c, t, f], Switch(c, t, f, o));
    var u := AddPropagator(s1, [c, t, f], Switch(c, t, f, o)).1;
    assert c in [c, t, f] && t in [c, t, f] && f in [c, t, f];
  }

  /** `Propagator.compound(neighbors, to_build)`: a compound propagator on `ns`, not yet built; the invariants hold. */
  lemma MakeCompoundSpec(s: ArtNet, ns: seq<CellId>)
    requires Valid(s) && CellsIn(ns, |s.contents|)
    ensures var (p, t) := MakeCompound(s, ns);
      Valid(t) && p == |s.actions| && t.actions[p] == Compound(ns) && p !in t.built && p in t.alerted
  {
    AddPropagatorSpec(s, ns, Compound(ns));
    AddPropagatorKeepsValid(s, ns, Compound(ns));
  }

  // ---------------------------------------------------------------------
  // The code as written
  // ---------------------------------------------------------------------

  /**
   * As written, `Cell(5)` sets the content and then raises
   * `AttributeError`, where the corrected model stores `5` in a new cell.
   */
  lemma AsWrittenCellRaises()
    ensures var s := Fresh.(contents := [Nothing], neighbors := [[]]);
      WriteAsWritten(s, 0, Num(5.0)) == (Raise(AttributeError), s.(contents := [Num(5.0)])) &&
      NewCell(Fresh, Num(5.0)) == (0, s.(contents := [Num(5.0)]))
  {
    var s := Fresh.(contents := [Nothing], neighbors := [[]]);
    assert s.contents[0 := Num(5.0)] == [Num(5.0)];
    assert Fresh.contents + [Num(5.0)] == [Num(5.0)] && Fresh.neighbors + [[]] == [[]];
  }
}
