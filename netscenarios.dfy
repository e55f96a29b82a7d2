/**
 * The library's tests of cells and primitives, replayed on the network
 * model with the standard operator table. Each test is a function that
 * builds the network as the test does, runs the scheduler and returns what
 * the test inspects; a lemma states the outcome, and small lemmas give the
 * exact network after each step.
 */
module NetworkScenarios {
  import opened PyValues
  import opened GenericOperators
  import opened Dispatch
  import opened Standard
  import opened Lattice
  import opened MergeLaws
  import opened Arithmetic
  import opened SetQueues
  import opened NetworkModel
  import opened NetworkLaws

  // ---------------------------------------------------------------------
  // Cells (tests/test_network.py)
  // ---------------------------------------------------------------------

  /** `Cell()`: a cell numbered next, empty and without neighbours; only the tag counter moves. */
  lemma NewEmptyCell(reg: Registry, fuel: nat, s: Net)
    requires Shaped(s) && StdLattice(reg) && fuel >= 3
    ensures NewCell(reg, fuel, s, Nothing)
         == (Ok(|s.contents|), s.(contents := s.contents + [Nothing], neighbors := s.neighbors + [[]], nextTag := s.nextTag + 1))
  {
    var s1 := s.(contents := s.contents + [Nothing], neighbors := s.neighbors + [[]]);
    WriteNothing(reg, fuel, s1, |s.contents|);
  }

  /** `a = Cell(content=initial); a.add_content(increment)`; gives `a.content`. */
  function CellTest(reg: Registry, fuel: nat, initial: Value, increment: Value): Outcome<Value> {
    var (ra, s1) := NewCell(reg, fuel, Empty, initial);
    var a :- ra;
    var (w, s2) := Write(reg, fuel, s1, a, increment);
    var _ :- w;
    Ok(s2.contents[a])
  }

  /** Values a cell test starts from or adds: `None`, numbers and strings. */
  predicate Scalar(v: Value) {
    v.Nothing? || v.Num? || v.Str?
  }

  /**
   * The cell tests in one statement: content added to an empty cell is
   * stored, `None` and the same content change nothing, and different
   * content leaves a contradiction (tagged by the cell's second merge).
   */
  lemma CellScenario(reg: Registry, fuel: nat, initial: Value, increment: Value)
    requires StdLattice(reg) && fuel >= 3 && Scalar(initial) && Scalar(increment)
    ensures CellTest(reg, fuel, initial, increment) ==
      Ok(if initial == Nothing then increment
         else if increment == Nothing || increment == initial then initial
         else Contra(1))
  {
    FirstCell(reg, fuel, initial);
    var s1 := Net([initial], [[]], [], [], [], {}, [], 1);
    var expected := if initial == Nothing then increment
      else if increment == Nothing || increment == initial then initial
      else Contra(1);
    assert MergeValues(initial, increment, 1) == Ok(expected) by {
      NothingIsIdentity(initial, 1);
      NothingIsIdentity(increment, 1);
      if initial != Nothing && increment != Nothing {
        DefaultMergeOnScalars(initial, increment, 1);
      }
    }
    WriteMerges(reg, fuel, s1, 0, increment);
    assert s1.contents[0 := expected][0] == expected;
  }

  /** The five `add_content` tests of `CellTestCase`. */
  lemma CellExamples(reg: Registry, fuel: nat)
    requires StdLattice(reg) && fuel >= 3
    ensures CellTest(reg, fuel, Str("hello"), Nothing) == Ok(Str("hello"))
    ensures CellTest(reg, fuel, Nothing, Str("hello")) == Ok(Str("hello"))
    ensures CellTest(reg, fuel, Nothing, Nothing) == Ok(Nothing)
    ensures CellTest(reg, fuel, Str("hello"), Str("hello")) == Ok(Str("hello"))
    ensures CellTest(reg, fuel, Str("hello"), Str("world")).Ok?
    ensures Contradictory(CellTest(reg, fuel, Str("hello"), Str("world")).value)
  {
    CellScenario(reg, fuel, Str("hello"), Nothing);
    CellScenario(reg, fuel, Nothing, Str("hello"));
    CellScenario(reg, fuel, Nothing, Nothing);
    CellScenario(reg, fuel, Str("hello"), Str("hello"));
    CellScenario(reg, fuel, Str("hello"), Str("world"));
  }

  /** `new_neighbor` twice with the same propagator: it is a neighbour once and alerted once. */
  lemma NeighborOnce(s: Net, c: CellId, p: PropId)
    requires Valid(s) && c < |s.contents| && p < |s.actions|
    ensures var t := NewNeighbor(NewNeighbor(s, c, p), c, p);
      t == NewNeighbor(s, c, p) && p in t.neighbors[c] && |t.neighbors[c]| <= |s.neighbors[c]| + 1
  {
    var t := NewNeighbor(s, c, p);
    if p !in s.neighbors[c] {
      assert p in t.neighbors[c];
    }
  }

  // ---------------------------------------------------------------------
  // The adder (tests/test_primitives.py, AdderTestCase.test_integer)
  // ---------------------------------------------------------------------

  /** `a, b, c = Cell(), Cell(), Cell(); adder(a, b, c); a.add_content(15); b.add_content(13); run()`; gives `c.content`. */
  function AdderTest(reg: Registry, fuel: nat, budget: nat): Outcome<(bool, Value)> {
    var (ra, s1) := NewCell(reg, fuel, Empty, Nothing);
    var a :- ra;
    var (rb, s2) := NewCell(reg, fuel, s1, Nothing);
    var b :- rb;
    var (rc, s3) := NewCell(reg, fuel, s2, Nothing);
    var c :- rc;
    var (_, s4) := MakePrimitive(s3, Generic(Add), [a, b, c]);
    var (w1, s5) := Write(reg, fuel, s4, a, Num(15.0));
    var _ :- w1;
    var (w2, s6) := Write(reg, fuel, s5, b, Num(13.0));
    var _ :- w2;
    var (done, s7) := Run(reg, fuel, s6, budget);
    var finished :- done;
    Ok((finished, s7.contents[c]))
  }

  /** The first cell of a network is cell 0. */
  lemma FirstCell(reg: Registry, fuel: nat, v: Value)
    requires StdLattice(reg) && fuel >= Depth(v) + 3
    ensures NewCell(reg, fuel, Empty, v) == (Ok(0), Net([v], [[]], [], [], [], {}, [], 1))
  {
    var none: seq<seq<PropId>> := [];
    assert Shaped(Empty);
    NewCellSpec(reg, fuel, Empty, v);
    var (c, t) := NewCell(reg, fuel, Empty, v);
    assert t.contents == [v] by {
      assert Empty.contents + [v] == [v];
    }
    assert t.neighbors == [[]] by {
      assert none + [[]] == [[]];
    }
  }

  /** The second cell is cell 1. */
  lemma SecondCell(reg: Registry, fuel: nat, u: Value, v: Value)
    requires StdLattice(reg) && fuel >= Depth(v) + 3
    ensures NewCell(reg, fuel, Net([u], [[]], [], [], [], {}, [], 1), v)
         == (Ok(1), Net([u, v], [[], []], [], [], [], {}, [], 2))
  {
    var s1 := Net([u], [[]], [], [], [], {}, [], 1);
    NewCellSpec(reg, fuel, s1, v);
    assert s1.contents + [v] == [u, v] && s1.neighbors + [[]] == [[], []];
  }

  /** The third cell is cell 2. */
  lemma ThirdCell(reg: Registry, fuel: nat, u: Value, v: Value, w: Value)
    requires StdLattice(reg) && fuel >= Depth(w) + 3
    ensures NewCell(reg, fuel, Net([u, v], [[], []], [], [], [], {}, [], 2), w)
         == (Ok(2), Net([u, v, w], [[], [], []], [], [], [], {}, [], 3))
  {
    var s2 := Net([u, v], [[], []], [], [], [], {}, [], 2);
    NewCellSpec(reg, fuel, s2, w);
    assert s2.contents + [w] == [u, v, w] && s2.neighbors + [[]] == [[], [], []];
  }

  function AdderAction(): Action {
    Primitive(Generic(Add), [0, 1], 2)
  }

  /** The adder network with the given contents, queue and tag counter. */
  function AdderNet(contents: seq<Value>, alerted: seq<PropId>, tag: nat): Net {
    Net(contents, [[0], [0], []], [AdderAction()], alerted, [0], {}, [], tag)
  }

  /** `adder(a, b, c)`: propagator 0 becomes a neighbour of `a` and `b` (not of `c`) and is alerted. */
  lemma AdderBuilt()
    ensures MakePrimitive(Net([Nothing, Nothing, Nothing], [[], [], []], [], [], [], {}, [], 3), Generic(Add), [0, 1, 2])
         == (Ok(0), AdderNet([Nothing, Nothing, Nothing], [0], 3))
  {
    var s3 := Net([Nothing, Nothing, Nothing], [[], [], []], [], [], [], {}, [], 3);
    assert [0, 1, 2][..2] == [0, 1];
    assert s3.(actions := s3.actions + [AdderAction()]) == s3.(actions := [AdderAction()]);
    AdderRegisters();
  }

  /** The registration part of `adder(a, b, c)`. */
  lemma AdderRegisters()
    ensures Register(Net([Nothing, Nothing, Nothing], [[], [], []], [AdderAction()], [], [], {}, [], 3), [0, 1], 0)
         == AdderNet([Nothing, Nothing, Nothing], [0], 3)
  {
    var s := Net([Nothing, Nothing, Nothing], [[], [], []], [AdderAction()], [], [], {}, [], 3);
    var t1 := s.(neighbors := [[0], [], []], alerted := [0], everAlerted := [0]);
    var t2 := AdderNet([Nothing, Nothing, Nothing], [0], 3);
    AdderNeighbors();
    var none: seq<CellId> := [];
    var one: seq<CellId> := [1];
    assert Register(t2, none, 0) == t2;
    assert one[1..] == none && [0, 1][1..] == one;
    assert Register(t1, one, 0) == t2;
  }

  /** The two `new_neighbor` calls of `adder(a, b, c)`. */
  lemma AdderNeighbors()
    ensures var s := Net([Nothing, Nothing, Nothing], [[], [], []], [AdderAction()], [], [], {}, [], 3);
      var t1 := s.(neighbors := [[0], [], []], alerted := [0], everAlerted := [0]);
      NewNeighbor(s, 0, 0) == t1 && NewNeighbor(t1, 1, 0) == AdderNet([Nothing, Nothing, Nothing], [0], 3)
  {
    var s := Net([Nothing, Nothing, Nothing], [[], [], []], [AdderAction()], [], [], {}, [], 3);
    var none: seq<PropId> := [];
    EnqueuedOne<PropId>(none, 0);
    EnqueuedOne<PropId>([0], 0);
    assert AddUnique(none, 0) == [0] && AddUnique([0], 0) == [0];
    var t1 := s.(neighbors := [[0], [], []], alerted := [0], everAlerted := [0]);
    assert s.neighbors[0 := s.neighbors[0] + [0]] == [[0], [], []];
    assert t1.neighbors[1 := t1.neighbors[1] + [0]] == [[0], [0], []];
  }

  /** A value written to an empty input of the adder is stored; propagator 0 stays queued once. */
  lemma AdderInputWrite(reg: Registry, fuel: nat, contents: seq<Value>, o: CellId, v: Value, tag: nat)
    requires StdLattice(reg) && fuel >= Depth(v) + 3
    requires |contents| == 3 && o < 2 && contents[o] == Nothing && v != Nothing
    ensures Write(reg, fuel, AdderNet(contents, [0], tag), o, v) == (Ok(()), AdderNet(contents[o := v], [0], tag + 1))
  {
    var s := AdderNet(contents, [0], tag);
    assert Shaped(s) && NoDuplicates(s.alerted) && NoDuplicates(s.everAlerted);
    EnqueuedOne<PropId>([0], 0);
    WriteToEmpty(reg, fuel, s, o, v);
  }

  /** `a.add_content(15)`: stored; propagator 0 is already queued. */
  lemma AdderWriteA(reg: Registry, fuel: nat)
    requires StdLattice(reg) && fuel >= 3
    ensures Write(reg, fuel, AdderNet([Nothing, Nothing, Nothing], [0], 3), 0, Num(15.0))
         == (Ok(()), AdderNet([Num(15.0), Nothing, Nothing], [0], 4))
  {
    AdderInputWrite(reg, fuel, [Nothing, Nothing, Nothing], 0, Num(15.0), 3);
    assert [Nothing, Nothing, Nothing][0 := Num(15.0)] == [Num(15.0), Nothing, Nothing];
  }

  /** `b.add_content(13)`: stored; propagator 0 is still queued once. */
  lemma AdderWriteB(reg: Registry, fuel: nat)
    requires StdLattice(reg) && fuel >= 3
    ensures Write(reg, fuel, AdderNet([Num(15.0), Nothing, Nothing], [0], 4), 1, Num(13.0))
         == (Ok(()), AdderNet([Num(15.0), Num(13.0), Nothing], [0], 5))
  {
    AdderInputWrite(reg, fuel, [Num(15.0), Nothing, Nothing], 1, Num(13.0), 4);
    assert [Num(15.0), Nothing, Nothing][1 := Num(13.0)] == [Num(15.0), Num(13.0), Nothing];
  }

  /** Propagator 0 adds the sum to `c`, which alerts nobody: `c` has no neighbours. */
  lemma AdderFires(reg: Registry, fuel: nat)
    requires StdLattice(reg) && fuel >= 3
    requires Call(reg, Add, [Num(15.0), Num(13.0)], 5, fuel) == Ok(Num(28.0))
    ensures Fire(reg, fuel, AdderNet([Num(15.0), Num(13.0), Nothing], [], 5), 0)
         == (Ok(()), AdderNet([Num(15.0), Num(13.0), Num(28.0)], [], 7))
  {
    var s := AdderNet([Num(15.0), Num(13.0), Nothing], [], 5);
    assert Gather(s.contents, [0, 1]) == [Num(15.0), Num(13.0)];
    PrimitiveApplies(reg, fuel, s, 0);
    assert s.(nextTag := 6) == AdderNet([Num(15.0), Num(13.0), Nothing], [], 6);
    AdderStoresSum(reg, fuel);
  }

  /** A value written to the adder's empty output is stored; the output has no neighbours, so nobody is alerted. */
  lemma AdderOutputWrite(reg: Registry, fuel: nat, contents: seq<Value>, v: Value, tag: nat)
    requires StdLattice(reg) && fuel >= Depth(v) + 3
    requires |contents| == 3 && contents[2] == Nothing && v != Nothing
    ensures Write(reg, fuel, AdderNet(contents, [], tag), 2, v) == (Ok(()), AdderNet(contents[2 := v], [], tag + 1))
  {
    var s := AdderNet(contents, [], tag);
    assert Shaped(s) && NoDuplicates(s.alerted) && NoDuplicates(s.everAlerted);
    var none: seq<PropId> := [];
    WriteToEmpty(reg, fuel, s, 2, v);
    assert Enqueued(none, none) == none && Enqueued([0], none) == [0];
  }

  /** The sum written to the empty cell `c` is stored; `c` alerts nobody. */
  lemma AdderStoresSum(reg: Registry, fuel: nat)
    requires StdLattice(reg) && fuel >= 3
    ensures Write(reg, fuel, AdderNet([Num(15.0), Num(13.0), Nothing], [], 6), 2, Num(28.0))
         == (Ok(()), AdderNet([Num(15.0), Num(13.0), Num(28.0)], [], 7))
  {
    AdderOutputWrite(reg, fuel, [Num(15.0), Num(13.0), Nothing], Num(28.0), 6);
    assert [Num(15.0), Num(13.0), Nothing][2 := Num(28.0)] == [Num(15.0), Num(13.0), Num(28.0)];
  }

  /** `run()`: one turn empties the queue. */
  lemma AdderRuns(reg: Registry, fuel: nat, budget: nat)
    requires StdLattice(reg) && fuel >= 3 && budget >= 1
    requires Call(reg, Add, [Num(15.0), Num(13.0)], 5, fuel) == Ok(Num(28.0))
    ensures Run(reg, fuel, AdderNet([Num(15.0), Num(13.0), Nothing], [0], 5), budget)
         == (Ok(true), AdderNet([Num(15.0), Num(13.0), Num(28.0)], [], 7))
  {
    AdderFires(reg, fuel);
    var s := AdderNet([Num(15.0), Num(13.0), Nothing], [0], 5);
    assert s.(alerted := s.alerted[1..]) == AdderNet([Num(15.0), Num(13.0), Nothing], [], 5);
  }

  /** `add(15, 13)` is 28 in both tables: `add` has only its `Supported` rules, which numbers fall through. */
  lemma AdderSum(asWritten: bool, fuel: nat)
    requires fuel >= 1
    ensures Call(Std(asWritten), Add, [Num(15.0), Num(13.0)], 5, fuel) == Ok(Num(28.0))
  {
    if asWritten {
      ScalarsUseDefaultAsWritten(Add, AddFn, [Num(15.0), Num(13.0)], 5, fuel);
      PyApplyNumbers(AddFn, 15.0, 13.0);
    } else {
      NumberArithmetic(Add, 15.0, 13.0, 5, fuel);
    }
  }

  /** The adder test, on the table as written and on the corrected one: the run settles with 28 in `c`. */
  lemma AdderScenario(asWritten: bool, fuel: nat, budget: nat)
    requires fuel >= 3 && budget >= 1
    ensures AdderTest(Std(asWritten), fuel, budget) == Ok((true, Num(28.0)))
  {
    var reg := Std(asWritten);
    StdHasLattice(asWritten);
    AdderSum(asWritten, fuel);
    FirstCell(reg, fuel, Nothing);
    SecondCell(reg, fuel, Nothing, Nothing);
    ThirdCell(reg, fuel, Nothing, Nothing, Nothing);
    AdderBuilt();
    AdderWriteA(reg, fuel);
    AdderWriteB(reg, fuel);
    AdderRuns(reg, fuel, budget);
  }

  // ---------------------------------------------------------------------
  // A constant (ConstantTestCase.test_integer)
  // ---------------------------------------------------------------------

  /** `a = Cell(); constant(5)(a); run()`; gives `a.content`. */
  function ConstantTest(reg: Registry, fuel: nat, budget: nat): Outcome<(bool, Value)> {
    var (ra, s1) := NewCell(reg, fuel, Empty, Nothing);
    var a :- ra;
    var (_, s2) := MakePrimitive(s1, ConstantFn(Num(5.0)), [a]);
    var (done, s3) := Run(reg, fuel, s2, budget);
    var finished :- done;
    Ok((finished, s3.contents[a]))
  }

  function ConstantAction(): Action {
    Primitive(ConstantFn(Num(5.0)), [], 0)
  }

  /** `constant(5)(a)`: a propagator without inputs, alerted once. */
  lemma ConstantBuilt()
    ensures MakePrimitive(Net([Nothing], [[]], [], [], [], {}, [], 1), ConstantFn(Num(5.0)), [0])
         == (Ok(0), Net([Nothing], [[]], [ConstantAction()], [0], [0], {}, [], 1))
  {
    var s1 := Net([Nothing], [[]], [], [], [], {}, [], 1);
    var none: seq<PropId> := [];
    var cells: seq<CellId> := [0];
    assert cells[..0] == [];
    EnqueuedOne<PropId>(none, 0);
    assert AddUnique(none, 0) == [0];
    assert s1.actions + [ConstantAction()] == [ConstantAction()];
  }

  /** `run()`: the propagator adds 5 to `a`, which has no neighbours. */
  lemma ConstantRuns(reg: Registry, fuel: nat, budget: nat)
    requires StdLattice(reg) && fuel >= 3 && budget >= 1
    ensures Run(reg, fuel, Net([Nothing], [[]], [ConstantAction()], [0], [0], {}, [], 1), budget)
         == (Ok(true), Net([Num(5.0)], [[]], [ConstantAction()], [], [0], {}, [], 3))
  {
    var s := Net([Nothing], [[]], [ConstantAction()], [], [0], {}, [], 1);
    var none: seq<Value> := [];
    assert Gather(s.contents, []) == none;
    PrimitiveApplies(reg, fuel, s, 0);
    assert s.(nextTag := 2) == Net([Nothing], [[]], [ConstantAction()], [], [0], {}, [], 2);
    ConstantStores(reg, fuel);
    assert Fire(reg, fuel, s, 0) == (Ok(()), Net([Num(5.0)], [[]], [ConstantAction()], [], [0], {}, [], 3));
  }

  /** The constant written to the empty cell `a` is stored; `a` alerts nobody. */
  lemma ConstantStores(reg: Registry, fuel: nat)
    requires StdLattice(reg) && fuel >= 3
    ensures Write(reg, fuel, Net([Nothing], [[]], [ConstantAction()], [], [0], {}, [], 2), 0, Num(5.0))
         == (Ok(()), Net([Num(5.0)], [[]], [ConstantAction()], [], [0], {}, [], 3))
  {
    var before := Net([Nothing], [[]], [ConstantAction()], [], [0], {}, [], 2);
    assert Valid(before);
    var q: seq<PropId> := [];
    WriteToEmpty(reg, fuel, before, 0, Num(5.0));
    assert Enqueued(q, q) == q && Enqueued([0], q) == [0];
    assert before.contents[0 := Num(5.0)] == [Num(5.0)];
  }

  /** The constant test, on the table as written and on the corrected one: the run settles with 5 in `a`. */
  lemma ConstantScenario(asWritten: bool, fuel: nat, budget: nat)
    requires fuel >= 3 && budget >= 1
    ensures ConstantTest(Std(asWritten), fuel, budget) == Ok((true, Num(5.0)))
  {
    var reg := Std(asWritten);
    StdHasLattice(asWritten);
    FirstCell(reg, fuel, Nothing);
    ConstantBuilt();
    ConstantRuns(reg, fuel, budget);
  }

  // ---------------------------------------------------------------------
  // A switch (SwitchTestCase)
  // ---------------------------------------------------------------------

  /** `a = Cell(content=p); b = Cell(content='yes'); c = Cell(); switch(a, b, c); run()`; gives `c.content`. */
  function SwitchTest(reg: Registry, fuel: nat, budget: nat, p: Value): Outcome<(bool, Value)> {
    var (ra, s1) := NewCell(reg, fuel, Empty, p);
    var a :- ra;
    var (rb, s2) := NewCell(reg, fuel, s1, Str("yes"));
    var b :- rb;
    var (rc, s3) := NewCell(reg, fuel, s2, Nothing);
    var c :- rc;
    var (rs, s4) := MakeSwitch(reg, fuel, s3, a, b, c);
    var _ :- rs;
    var (done, s5) := Run(reg, fuel, s4, budget);
    var finished :- done;
    Ok((finished, s5.contents[c]))
  }

  function SwitchAction(): Action {
    Conditional(0, 1, 3, 2)
  }

  /** The switch network: cell 3 is the switch's own empty `if_false` cell. */
  function SwitchNet(contents: seq<Value>, alerted: seq<PropId>, tag: nat): Net {
    Net(contents, [[0], [0], [], [0]], [SwitchAction()], alerted, [0], {}, [], tag)
  }

  /** `switch(a, b, c)` first makes its `if_false` cell, cell 3. */
  lemma SwitchCell(reg: Registry, fuel: nat, p: Value)
    requires StdLattice(reg) && fuel >= 3
    ensures NewCell(reg, fuel, Net([p, Str("yes"), Nothing], [[], [], []], [], [], [], {}, [], 3), Nothing)
         == (Ok(3), Net([p, Str("yes"), Nothing, Nothing], [[], [], [], []], [], [], [], {}, [], 4))
  {
    var s3 := Net([p, Str("yes"), Nothing], [[], [], []], [], [], [], {}, [], 3);
    NewEmptyCell(reg, fuel, s3);
    assert s3.contents + [Nothing] == [p, Str("yes"), Nothing, Nothing];
    assert s3.neighbors + [[]] == [[], [], [], []];
  }

  /** Then the conditional, watching `a`, `b` and cell 3, is propagator 0 and is alerted. */
  lemma SwitchBuilt(p: Value)
    ensures MakeConditional(Net([p, Str("yes"), Nothing, Nothing], [[], [], [], []], [], [], [], {}, [], 4), 0, 1, 3, 2)
         == (0, SwitchNet([p, Str("yes"), Nothing, Nothing], [0], 4))
  {
    var s4 := Net([p, Str("yes"), Nothing, Nothing], [[], [], [], []], [], [], [], {}, [], 4);
    assert s4.(actions := s4.actions + [SwitchAction()]) == s4.(actions := [SwitchAction()]);
    SwitchRegisters(p);
  }

  /** The registration part of the conditional. */
  lemma SwitchRegisters(p: Value)
    ensures Register(Net([p, Str("yes"), Nothing, Nothing], [[], [], [], []], [SwitchAction()], [], [], {}, [], 4), [0, 1, 3], 0)
         == SwitchNet([p, Str("yes"), Nothing, Nothing], [0], 4)
  {
    var contents := [p, Str("yes"), Nothing, Nothing];
    var s := Net(contents, [[], [], [], []], [SwitchAction()], [], [], {}, [], 4);
    var t1 := s.(neighbors := [[0], [], [], []], alerted := [0], everAlerted := [0]);
    var t2 := s.(neighbors := [[0], [0], [], []], alerted := [0], everAlerted := [0]);
    var t3 := SwitchNet(contents, [0], 4);
    SwitchNeighbors(contents);
    var cells: seq<CellId> := [];
    var last: seq<CellId> := [3];
    var two: seq<CellId> := [1, 3];
    assert last[1..] == cells && two[1..] == last && [0, 1, 3][1..] == two;
    assert Register(t3, cells, 0) == t3;
    assert Register(t2, last, 0) == t3;
    assert Register(t1, two, 0) == t3;
  }

  /** The three `new_neighbor` calls of `switch(a, b, c)`, on any four contents. */
  lemma SwitchNeighbors(contents: seq<Value>)
    requires |contents| == 4
    ensures var s := Net(contents, [[], [], [], []], [SwitchAction()], [], [], {}, [], 4);
      var t1 := s.(neighbors := [[0], [], [], []], alerted := [0], everAlerted := [0]);
      var t2 := s.(neighbors := [[0], [0], [], []], alerted := [0], everAlerted := [0]);
      NewNeighbor(s, 0, 0) == t1 && NewNeighbor(t1, 1, 0) == t2 && NewNeighbor(t2, 3, 0) == SwitchNet(contents, [0], 4)
  {
    var s := Net(contents, [[], [], [], []], [SwitchAction()], [], [], {}, [], 4);
    var none: seq<PropId> := [];
    var t1 := s.(neighbors := [[0], [], [], []], alerted := [0], everAlerted := [0]);
    var t2 := s.(neighbors := [[0], [0], [], []], alerted := [0], everAlerted := [0]);
    assert NewNeighbor(s, 0, 0) == t1 by {
      EnqueuedOne<PropId>(none, 0);
      assert s.neighbors[0] == none && none + [0] == [0];
      assert s.neighbors[0 := s.neighbors[0] + [0]] == [[0], [], [], []];
    }
    assert NewNeighbor(t1, 1, 0) == t2 by {
      EnqueuedOne<PropId>([0], 0);
      assert t1.neighbors[1 := t1.neighbors[1] + [0]] == [[0], [0], [], []];
    }
    assert NewNeighbor(t2, 3, 0) == SwitchNet(contents, [0], 4) by {
      EnqueuedOne<PropId>([0], 0);
      assert t2.neighbors[3 := t2.neighbors[3] + [0]] == [[0], [0], [], [0]];
    }
  }

  /** `run()`: the conditional adds `'yes'` to `c` when `p` is true and the empty `if_false` content otherwise. */
  lemma SwitchRuns(reg: Registry, fuel: nat, budget: nat, p: Value)
    requires StdLattice(reg) && fuel >= 3 && budget >= 1 && p != Nothing
    ensures Run(reg, fuel, SwitchNet([p, Str("yes"), Nothing, Nothing], [0], 4), budget)
         == (Ok(true), SwitchNet([p, Str("yes"), if Truthy(p) then Str("yes") else Nothing, Nothing], [], 5))
  {
    var s := SwitchNet([p, Str("yes"), Nothing, Nothing], [], 4);
    if Truthy(p) {
      SwitchStoresYes(reg, fuel, p);
    } else {
      WriteNothing(reg, fuel, s, 2);
    }
  }

  /** `'yes'` written to the empty cell `c` is stored; `c` alerts nobody. */
  lemma SwitchStoresYes(reg: Registry, fuel: nat, p: Value)
    requires StdLattice(reg) && fuel >= 3
    ensures Write(reg, fuel, SwitchNet([p, Str("yes"), Nothing, Nothing], [], 4), 2, Str("yes"))
         == (Ok(()), SwitchNet([p, Str("yes"), Str("yes"), Nothing], [], 5))
  {
    var s := SwitchNet([p, Str("yes"), Nothing, Nothing], [], 4);
    assert Shaped(s) && NoDuplicates(s.alerted) && NoDuplicates(s.everAlerted);
    var q: seq<PropId> := [];
    WriteToEmpty(reg, fuel, s, 2, Str("yes"));
    assert Enqueued(q, q) == q && Enqueued([0], q) == [0];
    assert s.contents[2 := Str("yes")] == [p, Str("yes"), Str("yes"), Nothing];
  }

  /** The switch tests: `c` receives `'yes'` exactly when the condition is true. */
  lemma SwitchScenario(reg: Registry, fuel: nat, budget: nat, p: Value)
    requires StdLattice(reg) && fuel >= 3 && budget >= 1 && (p.Num? || p.Str?)
    ensures SwitchTest(reg, fuel, budget, p) == Ok((true, if Truthy(p) then Str("yes") else Nothing))
  {
    FirstCell(reg, fuel, p);
    SecondCell(reg, fuel, p, Str("yes"));
    ThirdCell(reg, fuel, p, Str("yes"), Nothing);
    SwitchCell(reg, fuel, p);
    SwitchBuilt(p);
    SwitchRuns(reg, fuel, budget, p);
  }

  /** `test_true` and `test_false`. */
  lemma SwitchExamples(reg: Registry, fuel: nat, budget: nat)
    requires StdLattice(reg) && fuel >= 3 && budget >= 1
    ensures SwitchTest(reg, fuel, budget, Bool(true)) == Ok((true, Str("yes")))
    ensures SwitchTest(reg, fuel, budget, Bool(false)) == Ok((true, Nothing))
  {
    SwitchScenario(reg, fuel, budget, Bool(true));
    SwitchScenario(reg, fuel, budget, Bool(false));
  }
}
