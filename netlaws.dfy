/**
 * What the runtime of propagator/core.py guarantees, stated about the
 * network model: the invariants every operation keeps (no propagator twice
 * in a queue or in a neighbour list, every alerted propagator recorded as
 * ever alerted, each compound body built at most once), when a cell alerts
 * its neighbours, and what each kind of propagator does when called.
 */
module NetworkLaws {
  import opened PyValues
  import opened GenericOperators
  import opened Dispatch
  import opened SetQueues
  import opened PyUtil
  import opened Lattice
  import opened MergeLaws
  import opened NetworkModel

  /** The value a `constant` propagator adds holds only contradictions older than `n`. */
  predicate ActionTagsBelow(a: Action, n: nat) {
    a.Primitive? && a.f.ConstantFn? ==> TagsBelow(a.f.value, n)
  }

  /**
   * Every contradiction the network holds, in a cell or in a constant, was
   * created before: its identity is below `nextTag`, so the next one a merge
   * creates is a new object, different from all of them.
   */
  predicate TagsIssued(s: Net) {
    (forall c :: 0 <= c < |s.contents| ==> TagsBelow(s.contents[c], s.nextTag)) &&
    (forall i :: 0 <= i < |s.actions| ==> ActionTagsBelow(s.actions[i], s.nextTag))
  }

  /**
   * The invariants of a network: each queue holds a propagator at most once
   * and every alerted propagator is recorded as ever alerted; a cell lists a
   * neighbour once; the build log has no repeats, holds exactly the
   * propagators whose `done` flag is set, and those are compound ones; every
   * contradiction held is older than the next identity.
   */
  predicate Valid(s: Net) {
    Shaped(s) && TagsIssued(s) &&
    NoDuplicates(s.alerted) && NoDuplicates(s.everAlerted) &&
    (forall p :: p in s.alerted ==> p in s.everAlerted) &&
    (forall c :: 0 <= c < |s.neighbors| ==> NoDuplicates(s.neighbors[c])) &&
    NoDuplicates(s.buildLog) &&
    (forall p :: p in s.built ==> p in s.buildLog) &&
    (forall p :: p in s.buildLog ==> p in s.built) &&
    (forall p :: p in s.built ==> p < |s.actions| && s.actions[p].Compound?)
  }

  lemma EmptyValid()
    ensures Valid(Empty)
  {}

  /** Alerting keeps both queues duplicate-free and the pending one inside the record. */
  lemma AlertKeepsValid(s: Net, ps: seq<PropId>)
    requires Valid(s) && forall k :: 0 <= k < |ps| ==> ps[k] < |s.actions|
    ensures Valid(Alert(s, ps))
  {
    EnqueuedSpec(s.alerted, ps);
    EnqueuedSpec(s.everAlerted, ps);
  }

  /** Counting a new contradiction keeps every held one older than the next identity. */
  lemma TagsIssuedGrows(s: Net)
    requires TagsIssued(s)
    ensures TagsIssued(s.(nextTag := s.nextTag + 1))
  {
    forall c | 0 <= c < |s.contents| ensures TagsBelow(s.contents[c], s.nextTag + 1) {
      TagsBelowGrows(s.contents[c], s.nextTag, s.nextTag + 1);
    }
    forall i | 0 <= i < |s.actions| ensures ActionTagsBelow(s.actions[i], s.nextTag + 1) {
      if s.actions[i].Primitive? && s.actions[i].f.ConstantFn? {
        TagsBelowGrows(s.actions[i].f.value, s.nextTag, s.nextTag + 1);
      }
    }
  }

  /**
   * Adding content made only of contradictions already created keeps the
   * invariants; the merge's own contradiction gets the identity `nextTag`,
   * which no held contradiction has.
   */
  lemma WriteKeepsValid(reg: Registry, fuel: nat, s: Net, o: CellId, v: Value)
    requires Valid(s) && o < |s.contents| && TagsBelow(v, s.nextTag)
    ensures Valid(Write(reg, fuel, s, o, v).1) && Write(reg, fuel, s, o, v).1.buildLog == s.buildLog
  {
    var answer := Call(reg, Merge, [s.contents[o], v], s.nextTag, fuel);
    WriteKeepsTags(reg, fuel, s, o, v);
    if answer.Ok? && answer.value != s.contents[o] {
      var s1 := s.(nextTag := s.nextTag + 1, contents := s.contents[o := answer.value]);
      assert TagsIssued(s1) by {
        assert Write(reg, fuel, s, o, v).1 == Alert(s1, s.neighbors[o]);
      }
      assert forall k :: 0 <= k < |s.neighbors[o]| ==> s.neighbors[o][k] in s.neighbors[o];
      AlertKeepsValid(s1, s.neighbors[o]);
    } else {
      TagKeepsValid(s);
    }
  }

  /** The merge `add_content` stores brings in no contradiction but the one it creates. */
  lemma WriteKeepsTags(reg: Registry, fuel: nat, s: Net, o: CellId, v: Value)
    requires Shaped(s) && TagsIssued(s) && o < |s.contents| && TagsBelow(v, s.nextTag)
    ensures TagsIssued(Write(reg, fuel, s, o, v).1)
  {
    var answer := Call(reg, Merge, [s.contents[o], v], s.nextTag, fuel);
    TagsIssuedGrows(s);
    TagsBelowGrows(v, s.nextTag, s.nextTag + 1);
    TagsBelowGrows(s.contents[o], s.nextTag, s.nextTag + 1);
    CallTagsBelow(reg, Merge, [s.contents[o], v], s.nextTag, fuel, s.nextTag + 1);
    if answer.Ok? && answer.value != s.contents[o] {
      var s1 := s.(nextTag := s.nextTag + 1, contents := s.contents[o := answer.value]);
      assert TagsIssued(s1);
      assert Write(reg, fuel, s, o, v).1 == Alert(s1, s.neighbors[o]);
    }
  }

  lemma FireKeepsValid(reg: Registry, fuel: nat, s: Net, p: PropId)
    requires Valid(s) && p < |s.actions|
    ensures Valid(Fire(reg, fuel, s, p).1)
    ensures s.buildLog <= Fire(reg, fuel, s, p).1.buildLog
  {
    match s.actions[p]
    case Primitive(_, _, _) => PrimitiveKeepsValid(reg, fuel, s, p);
    case Conditional(_, _, _, _) => ConditionalKeepsValid(reg, fuel, s, p);
    case Compound(_) =>
      if p !in s.built {
        BuildKeepsValid(s, p);
      }
  }

  lemma PrimitiveKeepsValid(reg: Registry, fuel: nat, s: Net, p: PropId)
    requires Valid(s) && p < |s.actions| && s.actions[p].Primitive?
    ensures Valid(Fire(reg, fuel, s, p).1) && Fire(reg, fuel, s, p).1.buildLog == s.buildLog
  {
    var a := s.actions[p];
    var s1 := s.(nextTag := s.nextTag + 1);
    var args := Gather(s.contents, a.inputs);
    var v := Lift(reg, a.f, args, s.nextTag, fuel);
    TagKeepsValid(s);
    if v.Ok? {
      assert TagsBelow(v.value, s1.nextTag) by {
        forall k | 0 <= k < |args| ensures TagsBelow(args[k], s1.nextTag) {
          TagsBelowGrows(args[k], s.nextTag, s1.nextTag);
        }
        if Nothing !in args && a.f.Generic? {
          CallTagsBelow(reg, a.f.name, args, s.nextTag, fuel, s1.nextTag);
        } else if Nothing !in args {
          assert ActionTagsBelow(s.actions[p], s.nextTag);
          TagsBelowGrows(a.f.value, s.nextTag, s1.nextTag);
        }
      }
      assert Fire(reg, fuel, s, p) == Write(reg, fuel, s1, a.output, v.value);
      WriteKeepsValid(reg, fuel, s1, a.output, v.value);
    } else {
      assert Fire(reg, fuel, s, p) == (Raise(v.error), s1);
    }
  }

  /** Counting a new contradiction tag keeps the invariants. */
  lemma TagKeepsValid(s: Net)
    requires Valid(s)
    ensures Valid(s.(nextTag := s.nextTag + 1))
  {
    TagsIssuedGrows(s);
  }

  /**
   * The contradiction numbered `nextTag` (the next one `Contradiction()` or a
   * merge creates) is held by no cell, so a cell it is written to changes and
   * alerts its neighbours; handing it out keeps the invariants.
   */
  lemma NextContradictionIsNew(s: Net)
    requires Valid(s)
    ensures forall c :: 0 <= c < |s.contents| ==> s.contents[c] != Contra(s.nextTag)
    ensures NewContradiction(s).0 !in s.contents && Valid(NewContradiction(s).1)
  {
    TagsIssuedGrows(s);
  }

  lemma ConditionalKeepsValid(reg: Registry, fuel: nat, s: Net, p: PropId)
    requires Valid(s) && p < |s.actions| && s.actions[p].Conditional?
    ensures Valid(Fire(reg, fuel, s, p).1) && Fire(reg, fuel, s, p).1.buildLog == s.buildLog
  {
    var a := s.actions[p];
    if s.contents[a.condition] != Nothing {
      assert TagsBelow(s.contents[a.ifTrue], s.nextTag) && TagsBelow(s.contents[a.ifFalse], s.nextTag);
      WriteKeepsValid(reg, fuel, s, a.output, if Truthy(s.contents[a.condition]) then s.contents[a.ifTrue] else s.contents[a.ifFalse]);
    }
  }

  /** Recording a first build keeps the build log free of repeats. */
  lemma BuildKeepsValid(s: Net, p: PropId)
    requires Valid(s) && p < |s.actions| && s.actions[p].Compound? && p !in s.built
    ensures Valid(s.(built := s.built + {p}, buildLog := s.buildLog + [p]))
  {
    var log := s.buildLog + [p];
    forall i, j | 0 <= i < j < |log| ensures log[i] != log[j] {
      if j == |s.buildLog| {
        assert log[i] in s.buildLog;
      }
    }
  }

  lemma StepKeepsValid(reg: Registry, fuel: nat, s: Net)
    requires Valid(s) && s.alerted != []
    ensures Valid(Step(reg, fuel, s).1)
    ensures s.buildLog <= Step(reg, fuel, s).1.buildLog
  {
    var q := s.alerted;
    assert NoDuplicates(q[1..]) by {
      forall i, j | 0 <= i < j < |q[1..]| ensures q[1..][i] != q[1..][j] {
        assert q[1..][i] == q[i + 1] && q[1..][j] == q[j + 1];
      }
    }
    assert forall x :: x in q[1..] ==> x in q;
    assert q[0] in q;
    FireKeepsValid(reg, fuel, s.(alerted := q[1..]), q[0]);
  }

  /**
   * A run keeps the invariants and only appends to the build log, so no
   * compound propagator builds its body twice, however many times it is
   * called.
   */
  lemma {:induction false} RunKeepsValid(reg: Registry, fuel: nat, s: Net, budget: nat)
    requires Valid(s)
    ensures Valid(Run(reg, fuel, s, budget).1)
    ensures s.buildLog <= Run(reg, fuel, s, budget).1.buildLog
    decreases budget
  {
    if s.alerted != [] && budget > 0 {
      StepKeepsValid(reg, fuel, s);
      var step := Step(reg, fuel, s);
      if step.0.Ok? {
        RunKeepsValid(reg, fuel, step.1, budget - 1);
      }
    }
  }

  // ---------------------------------------------------------------------
  // Cell.add_content
  // ---------------------------------------------------------------------

  /**
   * `add_content` touches only its own cell. When the content changes, every
   * neighbour ends up in both queues and what was pending stays in front;
   * when it does not change, nothing does.
   */
  lemma WriteAlertsIffChanged(reg: Registry, fuel: nat, s: Net, o: CellId, v: Value)
    requires Shaped(s) && NoDuplicates(s.alerted) && NoDuplicates(s.everAlerted) && o < |s.contents|
    ensures var t := Write(reg, fuel, s, o, v).1;
      t.neighbors == s.neighbors && t.built == s.built && t.buildLog == s.buildLog &&
      t.nextTag == s.nextTag + 1 &&
      (forall c :: 0 <= c < |s.contents| && c != o ==> t.contents[c] == s.contents[c])
    ensures var t := Write(reg, fuel, s, o, v).1;
      t.contents[o] != s.contents[o] ==>
        (forall p :: p in s.neighbors[o] ==> p in t.alerted && p in t.everAlerted) &&
        |s.alerted| <= |t.alerted| && t.alerted[..|s.alerted|] == s.alerted
    ensures var t := Write(reg, fuel, s, o, v).1;
      t.contents[o] == s.contents[o] ==> t == s.(nextTag := s.nextTag + 1)
  {
    EnqueuedSpec(s.alerted, s.neighbors[o]);
    EnqueuedSpec(s.everAlerted, s.neighbors[o]);
  }

  /** With the library's merge, `add_content` stores `merge(content, increment)` as the reference merge computes it. */
  lemma WriteMerges(reg: Registry, fuel: nat, s: Net, o: CellId, v: Value)
    requires Shaped(s) && o < |s.contents| && StdLattice(reg) && fuel >= MaxDepth(s.contents[o], v) + 3
    ensures var m := MergeValues(s.contents[o], v, s.nextTag);
      var res := Write(reg, fuel, s, o, v);
      (m.Raise? ==> res == (Raise(m.error), s.(nextTag := s.nextTag + 1))) &&
      (m.Ok? ==> res.0 == Ok(()) && res.1.contents == s.contents[o := m.value])
  {
    MergeAgrees(reg, s.contents[o], v, s.nextTag, fuel);
  }

  /** Adding `None` changes nothing and alerts nobody (an empty cell stays empty). */
  lemma WriteNothing(reg: Registry, fuel: nat, s: Net, o: CellId)
    requires Shaped(s) && o < |s.contents| && StdLattice(reg) && fuel >= Depth(s.contents[o]) + 3
    ensures Write(reg, fuel, s, o, Nothing) == (Ok(()), s.(nextTag := s.nextTag + 1))
  {
    MergeAgrees(reg, s.contents[o], Nothing, s.nextTag, fuel);
    NothingIsIdentity(s.contents[o], s.nextTag);
  }

  /** Content added to an empty cell is stored as it is, and every neighbour is alerted. */
  lemma WriteToEmpty(reg: Registry, fuel: nat, s: Net, o: CellId, v: Value)
    requires Shaped(s) && NoDuplicates(s.alerted) && NoDuplicates(s.everAlerted) && o < |s.contents| && s.contents[o] == Nothing && v != Nothing
    requires StdLattice(reg) && fuel >= Depth(v) + 3
    ensures Write(reg, fuel, s, o, v) ==
      (Ok(()), Alert(s.(contents := s.contents[o := v], nextTag := s.nextTag + 1), s.neighbors[o]))
    ensures forall p :: p in s.neighbors[o] ==> p in Write(reg, fuel, s, o, v).1.alerted
  {
    MergeAgrees(reg, Nothing, v, s.nextTag, fuel);
    NothingIsIdentity(v, s.nextTag);
    WriteAlertsIffChanged(reg, fuel, s, o, v);
  }

  /** Adding the content a cell already holds changes nothing. */
  lemma WriteSame(reg: Registry, fuel: nat, s: Net, o: CellId)
    requires Shaped(s) && o < |s.contents| && Proper(s.contents[o])
    requires StdLattice(reg) && fuel >= Depth(s.contents[o]) + 3
    ensures Write(reg, fuel, s, o, s.contents[o]) == (Ok(()), s.(nextTag := s.nextTag + 1))
  {
    MergeAgrees(reg, s.contents[o], s.contents[o], s.nextTag, fuel);
    MergeIdempotent(s.contents[o], s.nextTag);
  }

  /**
   * A different number or string added to a filled cell does not raise: the
   * cell now holds a new `Contradiction`, and its neighbours are alerted.
   */
  lemma WriteConflict(reg: Registry, fuel: nat, s: Net, o: CellId, v: Value)
    requires Shaped(s) && NoDuplicates(s.alerted) && NoDuplicates(s.everAlerted) && o < |s.contents|
    requires (s.contents[o].Num? || s.contents[o].Str?) && (v.Num? || v.Str?) && v != s.contents[o]
    requires StdLattice(reg) && fuel >= 3
    ensures var t := Write(reg, fuel, s, o, v).1;
      t.contents == s.contents[o := Contra(s.nextTag)] && forall p :: p in s.neighbors[o] ==> p in t.alerted
  {
    MergeAgrees(reg, s.contents[o], v, s.nextTag, fuel);
    DefaultMergeOnScalars(s.contents[o], v, s.nextTag);
    WriteAlertsIffChanged(reg, fuel, s, o, v);
  }

  /** A stored contradiction stays: adding anything not contradictory changes nothing. */
  lemma ContradictionStays(reg: Registry, fuel: nat, s: Net, o: CellId, v: Value)
    requires Shaped(s) && o < |s.contents| && s.contents[o].Contra? && !Contradictory(v)
    requires StdLattice(reg) && fuel >= Depth(v) + 3
    ensures Write(reg, fuel, s, o, v) == (Ok(()), s.(nextTag := s.nextTag + 1))
  {
    MergeAgrees(reg, s.contents[o], v, s.nextTag, fuel);
    ContradictionContentKept(s.contents[o].tag, v, s.nextTag);
  }

  // ---------------------------------------------------------------------
  // Calling propagators
  // ---------------------------------------------------------------------

  /** A primitive with an input that holds `None` writes `None` into its output, which changes nothing. */
  lemma MissingInputChangesNothing(reg: Registry, fuel: nat, s: Net, p: PropId, k: nat)
    requires Shaped(s) && p < |s.actions| && s.actions[p].Primitive?
    requires k < |s.actions[p].inputs| && s.contents[s.actions[p].inputs[k]] == Nothing
    requires StdLattice(reg) && fuel >= Depth(s.contents[s.actions[p].output]) + 3
    ensures Fire(reg, fuel, s, p) == (Ok(()), s.(nextTag := s.nextTag + 2))
  {
    var a := s.actions[p];
    var s1 := s.(nextTag := s.nextTag + 1);
    assert Fire(reg, fuel, s, p) == Write(reg, fuel, s1, a.output, Nothing) by {
      FireWithoutInput(reg, fuel, s, p, k);
    }
    WriteNothing(reg, fuel, s1, a.output);
  }

  /** A primitive with an empty input writes `Nothing` to its output, after taking a tag. */
  lemma FireWithoutInput(reg: Registry, fuel: nat, s: Net, p: PropId, k: nat)
    requires Shaped(s) && p < |s.actions| && s.actions[p].Primitive?
    requires k < |s.actions[p].inputs| && s.contents[s.actions[p].inputs[k]] == Nothing
    ensures Fire(reg, fuel, s, p) == Write(reg, fuel, s.(nextTag := s.nextTag + 1), s.actions[p].output, Nothing)
  {
    var args := Gather(s.contents, s.actions[p].inputs);
    assert args[k] == Nothing;
  }

  /**
   * A primitive whose inputs all hold content adds `f(*contents)` to its
   * output; the propagator `constant(v)` builds adds `v`.
   */
  lemma PrimitiveApplies(reg: Registry, fuel: nat, s: Net, p: PropId)
    requires Shaped(s) && p < |s.actions| && s.actions[p].Primitive?
    requires forall k :: 0 <= k < |s.actions[p].inputs| ==> s.contents[s.actions[p].inputs[k]] != Nothing
    ensures var a := s.actions[p];
      var args := Gather(s.contents, a.inputs);
      var v := if a.f.Generic? then Call(reg, a.f.name, args, s.nextTag, fuel)
               else if args == [] then Ok(a.f.value) else Raise(TypeError);
      var s1 := s.(nextTag := s.nextTag + 1);
      Fire(reg, fuel, s, p) == if v.Raise? then (Raise(v.error), s1) else Write(reg, fuel, s1, a.output, v.value)
  {
    var args := Gather(s.contents, s.actions[p].inputs);
    assert Nothing !in args by {
      forall k | 0 <= k < |args| ensures args[k] != Nothing {}
    }
  }

  /**
   * A conditional does nothing while its condition is `None`; otherwise it
   * adds the content of `if_true` when the condition is true and of
   * `if_false` when it is false.
   */
  lemma ConditionalChooses(reg: Registry, fuel: nat, s: Net, p: PropId)
    requires Shaped(s) && p < |s.actions| && s.actions[p].Conditional?
    ensures var a := s.actions[p];
      var c := s.contents[a.condition];
      Fire(reg, fuel, s, p) ==
        if c == Nothing then (Ok(()), s)
        else Write(reg, fuel, s, a.output, s.contents[if Truthy(c) then a.ifTrue else a.ifFalse])
  {}

  /**
   * A compound propagator builds its body only on a call that finds some
   * neighbour holding content, and only if it has not built it before; the
   * call changes nothing else.
   */
  lemma CompoundBuildsOnce(reg: Registry, fuel: nat, s: Net, p: PropId)
    requires Valid(s) && p < |s.actions| && s.actions[p].Compound?
    ensures var ns := s.actions[p].neighbors;
      var builds := p !in s.built && exists k :: 0 <= k < |ns| && s.contents[ns[k]] != Nothing;
      Fire(reg, fuel, s, p) ==
        (Ok(()), if builds then s.(built := s.built + {p}, buildLog := s.buildLog + [p]) else s)
    ensures p in s.built ==> Fire(reg, fuel, s, p) == (Ok(()), s)
  {
    var ns := s.actions[p].neighbors;
    var vs := Gather(s.contents, ns);
    assert AllNone(vs) <==> forall k :: 0 <= k < |ns| ==> s.contents[ns[k]] == Nothing;
  }

  // ---------------------------------------------------------------------
  // Building a network
  // ---------------------------------------------------------------------

  /**
   * After `Propagator(inputs, to_do)` for a propagator `p` that is already
   * numbered: `p` is a neighbour of every input cell (appended to those that
   * did not list it), other cells are untouched, and `p` is in both queues.
   */
  lemma {:induction false} RegisterSpec(s: Net, inputs: seq<CellId>, p: PropId)
    requires Shaped(s) && CellsIn(inputs, |s.contents|) && p < |s.actions|
    ensures var t := Register(s, inputs, p);
      t.alerted == AddUnique(s.alerted, p) && t.everAlerted == AddUnique(s.everAlerted, p) &&
      t == s.(neighbors := t.neighbors, alerted := t.alerted, everAlerted := t.everAlerted) &&
      |t.neighbors| == |s.neighbors| &&
      forall c :: 0 <= c < |s.neighbors| ==>
        t.neighbors[c] == if c in inputs && p !in s.neighbors[c] then s.neighbors[c] + [p] else s.neighbors[c]
    decreases |inputs|
  {
    if inputs == [] {
      EnqueuedOne<PropId>(s.alerted, p);
      EnqueuedOne<PropId>(s.everAlerted, p);
    } else {
      var c0 := inputs[0];
      var s1 := NewNeighbor(s, c0, p);
      EnqueuedOne<PropId>(s.alerted, p);
      EnqueuedOne<PropId>(s.everAlerted, p);
      RegisterSpec(s1, inputs[1..], p);
      assert forall c :: c in inputs <==> c == c0 || c in inputs[1..];
    }
  }

  /**
   * `Propagator(inputs, to_do)`: the propagator gets the next number, is
   * appended to the neighbours of each input cell exactly once, and is
   * queued exactly once; the invariants hold afterwards.
   */
  lemma AddPropagatorSpec(s: Net, inputs: seq<CellId>, a: Action)
    requires Valid(s) && CellsIn(inputs, |s.contents|) && ActionFits(a, |s.contents|) && ActionTagsBelow(a, s.nextTag)
    ensures var (p, t) := AddPropagator(s, inputs, a);
      Valid(t) &&
      t.alerted == s.alerted + [p] && t.everAlerted == s.everAlerted + [p] &&
      t == s.(actions := s.actions + [a], neighbors := t.neighbors, alerted := t.alerted, everAlerted := t.everAlerted) &&
      forall c :: 0 <= c < |s.neighbors| ==>
        t.neighbors[c] == if c in inputs then s.neighbors[c] + [p] else s.neighbors[c]
  {
    var p := |s.actions|;
    var s0 := s.(actions := s.actions + [a]);
    RegisterSpec(s0, inputs, p);
    var t := Register(s0, inputs, p);
    assert TagsIssued(t) by {
      assert t.contents == s.contents && t.nextTag == s.nextTag && t.actions == s.actions + [a];
      forall i | 0 <= i < |t.actions| ensures ActionTagsBelow(t.actions[i], t.nextTag) {
        if i < |s.actions| {
          assert t.actions[i] == s.actions[i];
        }
      }
    }
    AddUniqueSpec(s.alerted, p);
    AddUniqueSpec(s.everAlerted, p);
    forall c | 0 <= c < |s.neighbors| ensures NoDuplicates(t.neighbors[c]) {
      assert p !in s.neighbors[c];
      AddUniqueSpec(s.neighbors[c], p);
    }
  }

  /**
   * `make_primitive(f)(*cells)`: with no cell, `cells[-1]` raises
   * `IndexError` and nothing changes; otherwise the next propagator applies
   * `f` to all but the last cell, listens to exactly those, writes to the
   * last one, and is alerted.
   */
  lemma MakePrimitiveSpec(s: Net, f: LiftedFn, cells: seq<CellId>)
    requires Valid(s) && CellsIn(cells, |s.contents|) && (f.ConstantFn? ==> TagsBelow(f.value, s.nextTag))
    ensures var (r, t) := MakePrimitive(s, f, cells);
      Valid(t) &&
      (cells == [] ==> r == Raise(IndexError) && t == s) &&
      (cells != [] ==>
        var p, inputs := |s.actions|, cells[..|cells| - 1];
        r == Ok(p) &&
        t.actions == s.actions + [Primitive(f, inputs, cells[|cells| - 1])] &&
        t.alerted == s.alerted + [p] &&
        forall c :: 0 <= c < |s.neighbors| ==>
          t.neighbors[c] == if c in inputs then s.neighbors[c] + [p] else s.neighbors[c])
  {
    if cells != [] {
      var inputs, output := cells[..|cells| - 1], cells[|cells| - 1];
      assert CellsIn(inputs, |s.contents|) by {
        forall i | 0 <= i < |inputs| ensures inputs[i] < |s.contents| {
          assert inputs[i] == cells[i];
        }
      }
      AddPropagatorSpec(s, inputs, Primitive(f, inputs, output));
    }
  }

  /**
   * `conditional(p, if_true, if_false, output)`: the next propagator listens
   * to the first three cells, each once, and is alerted.
   */
  lemma MakeConditionalSpec(s: Net, c: CellId, t: CellId, f: CellId, o: CellId)
    requires Valid(s) && c < |s.contents| && t < |s.contents| && f < |s.contents| && o < |s.contents|
    ensures var (p, u) := MakeConditional(s, c, t, f, o);
      Valid(u) && p == |s.actions| &&
      u.actions == s.actions + [Conditional(c, t, f, o)] &&
      u.alerted == s.alerted + [p] &&
      forall x :: 0 <= x < |s.neighbors| ==>
        u.neighbors[x] == if x in [c, t, f] then s.neighbors[x] + [p] else s.neighbors[x]
  {
    AddPropagatorSpec(s, [c, t, f], Conditional(c, t, f, o));
  }

  /** `switch` keeps the invariants. */
  lemma MakeSwitchKeepsValid(reg: Registry, fuel: nat, s: Net, c: CellId, t: CellId, o: CellId)
    requires Valid(s) && c < |s.contents| && t < |s.contents| && o < |s.contents|
    requires StdLattice(reg) && fuel >= 3
    ensures Valid(MakeSwitch(reg, fuel, s, c, t, o).1)
  {
    var s1 := s.(contents := s.contents + [Nothing], neighbors := s.neighbors + [[]], nextTag := s.nextTag + 1);
    MakeSwitchSpec(reg, fuel, s, c, t, o);
    AddCellKeepsValid(s, Nothing);
    MakeConditionalSpec(s1, c, t, |s.contents|, o);
  }

  /**
   * `switch(p, if_true, output)`: `Cell('_')` takes a tag and adds an empty
   * cell, which becomes `if_false` of a `conditional` on the predicate,
   * `if_true` and that cell (whose effect is `MakeConditionalSpec`).
   */
  lemma MakeSwitchSpec(reg: Registry, fuel: nat, s: Net, c: CellId, t: CellId, o: CellId)
    requires Shaped(s) && c < |s.contents| && t < |s.contents| && o < |s.contents|
    requires StdLattice(reg) && fuel >= 3
    ensures var s1 := s.(contents := s.contents + [Nothing], neighbors := s.neighbors + [[]], nextTag := s.nextTag + 1);
      Shaped(s1) &&
      MakeSwitch(reg, fuel, s, c, t, o) == (Ok(|s.actions|), MakeConditional(s1, c, t, |s.contents|, o).1)
  {
    NewCellSpec(reg, fuel, s, Nothing);
  }

  /**
   * `Propagator.compound(neighbors, to_build)`: the next propagator is a
   * compound on `ns`, not yet built, listening to exactly `ns`, and alerted.
   */
  lemma MakeCompoundSpec(s: Net, ns: seq<CellId>)
    requires Valid(s) && CellsIn(ns, |s.contents|)
    ensures var (p, t) := MakeCompound(s, ns);
      Valid(t) && p == |s.actions| &&
      t.actions == s.actions + [Compound(ns)] && p !in t.built &&
      t.alerted == s.alerted + [p] &&
      forall c :: 0 <= c < |s.neighbors| ==>
        t.neighbors[c] == if c in ns then s.neighbors[c] + [p] else s.neighbors[c]
  {
    AddPropagatorSpec(s, ns, Compound(ns));
  }

  /** A new cell without neighbours, holding contradictions already created, keeps the invariants. */
  lemma AddCellKeepsValid(s: Net, v: Value)
    requires Valid(s) && TagsBelow(v, s.nextTag)
    ensures Valid(s.(contents := s.contents + [v], neighbors := s.neighbors + [[]], nextTag := s.nextTag + 1))
  {
    var t := s.(contents := s.contents + [v], neighbors := s.neighbors + [[]], nextTag := s.nextTag + 1);
    forall i | 0 <= i < |t.actions| ensures ActionFits(t.actions[i], |t.contents|) {
      assert ActionFits(s.actions[i], |s.contents|);
    }
    TagsIssuedGrows(s);
    TagsBelowGrows(v, s.nextTag, t.nextTag);
    assert forall c :: 0 <= c < |s.neighbors| ==> t.neighbors[c] == s.neighbors[c];
  }

  /** `Cell(content=v)`: with the library's merge, a cell numbered next holding `v`, with no neighbours; no one is alerted. */
  lemma NewCellSpec(reg: Registry, fuel: nat, s: Net, v: Value)
    requires Shaped(s) && StdLattice(reg) && fuel >= Depth(v) + 3
    ensures var (c, t) := NewCell(reg, fuel, s, v);
      c == Ok(|s.contents|) &&
      t == s.(contents := s.contents + [v], neighbors := s.neighbors + [[]], nextTag := s.nextTag + 1)
  {
    assert Call(reg, Merge, [Nothing, v], s.nextTag, fuel) == Ok(v) by {
      MergeAgrees(reg, Nothing, v, s.nextTag, fuel);
      NothingIsIdentity(v, s.nextTag);
    }
    NewCellStores(reg, fuel, s, v);
  }

  /**
   * `Cell(content=v)` keeps the invariants when every contradiction in `v`
   * was created before (by `Contradiction()`, an earlier merge, or a cell).
   */
  lemma NewCellKeepsValid(reg: Registry, fuel: nat, s: Net, v: Value)
    requires Valid(s) && TagsBelow(v, s.nextTag) && StdLattice(reg) && fuel >= Depth(v) + 3
    ensures Valid(NewCell(reg, fuel, s, v).1)
  {
    NewCellSpec(reg, fuel, s, v);
    AddCellKeepsValid(s, v);
  }

  /** When `merge(None, v)` is `v`, the new cell holds `v` and no one is alerted. */
  lemma NewCellStores(reg: Registry, fuel: nat, s: Net, v: Value)
    requires Shaped(s) && Call(reg, Merge, [Nothing, v], s.nextTag, fuel) == Ok(v)
    ensures NewCell(reg, fuel, s, v) ==
      (Ok(|s.contents|), s.(contents := s.contents + [v], neighbors := s.neighbors + [[]], nextTag := s.nextTag + 1))
  {
    var c := |s.contents|;
    var s1 := s.(contents := s.contents + [Nothing], neighbors := s.neighbors + [[]]);
    AppendShaped(s, Nothing);
    assert s1.contents[c] == Nothing && s1.neighbors[c] == [];
    WriteStores(reg, fuel, s1, c, v, v);
    assert s1.contents[c := v] == s.contents + [v];
    assert Enqueued(s.alerted, []) == s.alerted && Enqueued(s.everAlerted, []) == s.everAlerted;
  }

  /** When `merge` answers `m`, `add_content` stores it and alerts the neighbours only if it differs from the content. */
  lemma WriteStores(reg: Registry, fuel: nat, s: Net, o: CellId, v: Value, m: Value)
    requires Shaped(s) && o < |s.contents| && Call(reg, Merge, [s.contents[o], v], s.nextTag, fuel) == Ok(m)
    ensures Write(reg, fuel, s, o, v) ==
      (Ok(()), if m == s.contents[o] then s.(nextTag := s.nextTag + 1)
               else Alert(s.(contents := s.contents[o := m], nextTag := s.nextTag + 1), s.neighbors[o]))
  {}

  /** `Scheduler.initialize` empties both queues and keeps the invariants. */
  lemma InitializeSpec(s: Net)
    requires Valid(s)
    ensures Valid(Initialize(s)) && Initialize(s).alerted == [] && Initialize(s).everAlerted == []
  {}
}
