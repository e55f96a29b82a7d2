/**
 * Small `art` networks worked through the model: an adder, a constant that
 * conflicts with a cell's content, and a switch with a false and a true
 * predicate.
 */
module ArtScenarios {
  import opened PyValues
  import opened SetQueues
  import opened ArtModel
  import opened ArtLaws

  /** Cells holding `contents`, with no neighbours, no propagators and an empty scheduler. */
  function CellsNet(contents: seq<Value>): ArtNet {
    Fresh.(contents := contents, neighbors := seq(|contents|, _ => []))
  }

  /** `a = Cell(x); b = Cell(y); c = Cell()` makes cells 0, 1 and 2, holding `x`, `y` and nothing. */
  lemma ArtCellsMade(x: Value, y: Value)
    ensures var (a, s1) := NewCell(Fresh, x);
      var (b, s2) := NewCell(s1, y);
      a == 0 && b == 1 && NewCell(s2, Nothing) == (2, CellsNet([x, y, Nothing]))
  {
    var s1 := Fresh.(contents := [x], neighbors := [[]]);
    var s2 := Fresh.(contents := [x, y], neighbors := [[], []]);
    assert NewCell(Fresh, x).1 == s1 by {
      assert Fresh.contents + [x] == [x] && Fresh.neighbors + [[]] == [[]];
    }
    assert NewCell(s1, y).1 == s2 by {
      assert s1.contents + [y] == s2.contents && s1.neighbors + [[]] == s2.neighbors;
    }
    var n: seq<seq<PropId>> := [[], [], []];
    assert CellsNet([x, y, Nothing]).neighbors == n;
    assert s2.neighbors + [[]] == n && s2.contents + [Nothing] == [x, y, Nothing];
    assert NewCell(s2, Nothing) == (2, CellsNet([x, y, Nothing]));
  }

  // ---------------------------------------------------------------------
  // adder(a, b, c)
  // ---------------------------------------------------------------------

  /** The network of `adder(a, b, c)` on cells holding `contents`, with `alerted` pending. */
  function AdderNet(contents: seq<Value>, alerted: seq<PropId>): ArtNet {
    ArtNet(contents, [[0], [0], []], [Primitive(Builtin(AddFn), [0, 1], 2)], alerted, [0], false, DoneMark, {}, [])
  }

  /** On cells without neighbours, the first propagator becomes the one neighbour of each of its inputs and of nothing else. */
  lemma FirstPropagatorWiring(s: ArtNet, inputs: seq<CellId>, a: ArtAction)
    requires Shaped(s) && CellsIn(inputs, |s.contents|) && ActionFits(a, |s.contents|) && s.actions == []
    requires forall c :: 0 <= c < |s.neighbors| ==> s.neighbors[c] == []
    ensures var t := AddPropagator(s, inputs, a).1;
      |t.neighbors| == |s.neighbors| &&
      forall c :: 0 <= c < |s.neighbors| ==> t.neighbors[c] == if c in inputs then [0] else []
  {
    AddPropagatorSpec(s, inputs, a);
  }

  /** `Propagator([a, b], ...)` for the adder makes it the neighbour of `a` and `b` only. */
  lemma AdderNeighbors(x: Value, y: Value)
    ensures AddPropagator(CellsNet([x, y, Nothing]), [0, 1], Primitive(Builtin(AddFn), [0, 1], 2)).1.neighbors == [[0], [0], []]
  {
    var s := CellsNet([x, y, Nothing]);
    var ins: seq<CellId> := [0, 1];
    var ns := AddPropagator(s, ins, Primitive(Builtin(AddFn), [0, 1], 2)).1.neighbors;
    assert |ns| == 3 && ns[0] == [0] && ns[1] == [0] && ns[2] == [] by {
      FirstPropagatorWiring(s, ins, Primitive(Builtin(AddFn), [0, 1], 2));
      assert ins[0] == 0 && ins[1] == 1 && 2 !in ins;
    }
    assert ns == [ns[0], ns[1], ns[2]];
  }

  /** `adder(a, b, c)` on those cells wires the adder to `a` and `b` only and alerts it. */
  lemma ArtAdderBuilt(x: Value, y: Value)
    ensures MakePrimitive(CellsNet([x, y, Nothing]), Builtin(AddFn), [0, 1, 2]) == (Ok(0), AdderNet([x, y, Nothing], [0]))
  {
    var s := CellsNet([x, y, Nothing]);
    var a := Primitive(Builtin(AddFn), [0, 1], 2);
    var n: seq<seq<PropId>> := [[], [], []];
    assert s.neighbors == n;
    assert [0, 1, 2][..2] == [0, 1];
    AddPropagatorSpec(s, [0, 1], a);
    var t := AddPropagator(s, [0, 1], a).1;
    AdderNeighbors(x, y);
    assert t.alerted == [0] && t.everAlerted == [0] && t.actions == [a];
    assert t == AdderNet([x, y, Nothing], [0]);
  }

  /** The lifted `operator.add` of 15 and 13 is 28. */
  lemma ArtAdderLifts()
    ensures Lift(Builtin(AddFn), Gather([Num(15.0), Num(13.0), Nothing], [0, 1])) == Ok(Num(28.0))
  {
    assert Gather([Num(15.0), Num(13.0), Nothing], [0, 1]) == [Num(15.0), Num(13.0)];
  }

  /** The adder's call with 15 and 13 stores 28 in the empty `c`, which has no neighbours to alert. */
  lemma ArtAdderFires()
    ensures Fire(AdderNet([Num(15.0), Num(13.0), Nothing], []), 0) ==
      (Ok(()), AdderNet([Num(15.0), Num(13.0), Num(28.0)], []))
  {
    var s := AdderNet([Num(15.0), Num(13.0), Nothing], []);
    ArtAdderLifts();
    WriteToEmpty(s, 2, Num(28.0));
    assert s.contents[2 := Num(28.0)] == [Num(15.0), Num(13.0), Num(28.0)];
    assert Enqueued<PropId>([], []) == [] && Enqueued<PropId>([0], []) == [0];
  }

  /** Running the adder stores 15 + 13 in `c`, and `run` returns `None`. */
  lemma ArtAdderRuns()
    ensures Run(AdderNet([Num(15.0), Num(13.0), Nothing], [0]), 1) ==
      (Ok(NoneMark), AdderNet([Num(15.0), Num(13.0), Num(28.0)], []).(lastValue := NoneMark))
  {
    var s := AdderNet([Num(15.0), Num(13.0), Nothing], [0]);
    var t := AdderNet([Num(15.0), Num(13.0), Num(28.0)], []);
    assert s.(alerted := []) == AdderNet([Num(15.0), Num(13.0), Nothing], []);
    RoundSingle(s.(alerted := []), 0);
    ArtAdderFires();
    RunSingleRound(s, 1, Ok(()), t);
  }

  // ---------------------------------------------------------------------
  // constant(2)(a) on a cell holding 1
  // ---------------------------------------------------------------------

  /** The network of `constant(v)(a)` with `a` holding `x`, with `alerted` pending. */
  function ConstantNet(x: Value, v: Value, alerted: seq<PropId>): ArtNet {
    ArtNet([x], [[]], [Primitive(Constant(v), [], 0)], alerted, [0], false, DoneMark, {}, [])
  }

  /** The propagator `constant(v)(a)` registers has no inputs, so it is nobody's neighbour; it is alerted once. */
  lemma ArtConstantAdded(x: Value, v: Value)
    ensures AddPropagator(CellsNet([x]), [], Primitive(Constant(v), [], 0)) == (0, ConstantNet(x, v, [0]))
  {
    var s := CellsNet([x]);
    var a := Primitive(Constant(v), [], 0);
    var n: seq<seq<PropId>> := [[]];
    assert s.neighbors == n;
    AddPropagatorSpec(s, [], a);
    var t := AddPropagator(s, [], a).1;
    assert t.neighbors[0] == [] && t.neighbors == [[]];
    assert t.alerted == [0] && t.everAlerted == [0] && t.actions == [a];
  }

  /** `constant(v)(a)`: the one cell is the output and there are no inputs. */
  lemma ArtConstantBuilt(x: Value, v: Value)
    ensures MakePrimitive(CellsNet([x]), Constant(v), [0]) == (Ok(0), ConstantNet(x, v, [0]))
  {
    assert [0][..0] == [];
    ArtConstantAdded(x, v);
  }

  /** `a = Cell(1); constant(2)(a)`: the constant's call meets the content 1, `run` raises `ValueError` and the cell still holds 1. */
  lemma ArtConstantConflicts()
    ensures Run(ConstantNet(Num(1.0), Num(2.0), [0]), 1) == (Raise(ValueError), ConstantNet(Num(1.0), Num(2.0), []))
  {
    var s := ConstantNet(Num(1.0), Num(2.0), []);
    assert Gather(s.contents, []) == [];
    RoundSingle(s, 0);
    RunSingleRound(ConstantNet(Num(1.0), Num(2.0), [0]), 1, Raise(ValueError), s);
  }

  // ---------------------------------------------------------------------
  // switch(p, t, o)
  // ---------------------------------------------------------------------

  /** The network of `switch(p, t, o)` on cells holding `contents`, with `alerted` pending; cell 3 is the empty `if_false`. */
  function SwitchNet(contents: seq<Value>, alerted: seq<PropId>): ArtNet {
    ArtNet(contents, [[0], [0], [], [0]], [Switch(0, 1, 3, 2)], alerted, [0], false, DoneMark, {}, [])
  }

  /** The empty cell `switch` makes is cell 3. */
  lemma SwitchCellMade(g: Value)
    ensures NewCell(CellsNet([g, Num(5.0), Nothing]), Nothing) == (3, CellsNet([g, Num(5.0), Nothing, Nothing]))
  {
    var s := CellsNet([g, Num(5.0), Nothing]);
    var n3: seq<seq<PropId>> := [[], [], []];
    var n4: seq<seq<PropId>> := [[], [], [], []];
    assert s.neighbors == n3 && CellsNet([g, Num(5.0), Nothing, Nothing]).neighbors == n4;
    assert s.contents + [Nothing] == [g, Num(5.0), Nothing, Nothing] && n3 + [[]] == n4;
  }

  /** `Propagator([p, t, if_false], ...)` makes the conditional the neighbour of `p`, `t` and the new cell, not of `o`. */
  lemma SwitchNeighbors(g: Value)
    ensures AddPropagator(CellsNet([g, Num(5.0), Nothing, Nothing]), [0, 1, 3], Switch(0, 1, 3, 2)).1.neighbors == [[0], [0], [], [0]]
  {
    var s := CellsNet([g, Num(5.0), Nothing, Nothing]);
    var ins: seq<CellId> := [0, 1, 3];
    var ns := AddPropagator(s, ins, Switch(0, 1, 3, 2)).1.neighbors;
    assert |ns| == 4 && ns[0] == [0] && ns[1] == [0] && ns[2] == [] && ns[3] == [0] by {
      FirstPropagatorWiring(s, ins, Switch(0, 1, 3, 2));
      assert ins[0] == 0 && ins[1] == 1 && ins[2] == 3 && 2 !in ins;
    }
    assert ns == [ns[0], ns[1], ns[2], ns[3]];
  }

  /** `p = Cell(g); t = Cell(5); o = Cell(); switch(p, t, o)` adds the empty cell 3 and wires the conditional to `p`, `t` and it. */
  lemma ArtSwitchBuilt(g: Value)
    ensures MakeSwitch(CellsNet([g, Num(5.0), Nothing]), 0, 1, 2) == (0, SwitchNet([g, Num(5.0), Nothing, Nothing], [0]))
  {
    var s1 := CellsNet([g, Num(5.0), Nothing, Nothing]);
    var a := Switch(0, 1, 3, 2);
    SwitchCellMade(g);
    var n4: seq<seq<PropId>> := [[], [], [], []];
    assert s1.neighbors == n4;
    AddPropagatorSpec(s1, [0, 1, 3], a);
    var t := AddPropagator(s1, [0, 1, 3], a).1;
    SwitchNeighbors(g);
    assert t.alerted == [0] && t.everAlerted == [0] && t.actions == [a];
    assert t == SwitchNet([g, Num(5.0), Nothing, Nothing], [0]);
  }

  /** A false predicate writes the empty `if_false`, so the output stays empty and `run` returns `None`. */
  lemma ArtSwitchFalse()
    ensures Run(SwitchNet([Num(0.0), Num(5.0), Nothing, Nothing], [0]), 1) ==
      (Ok(NoneMark), SwitchNet([Num(0.0), Num(5.0), Nothing, Nothing], []).(lastValue := NoneMark))
  {
    var s := SwitchNet([Num(0.0), Num(5.0), Nothing, Nothing], []);
    SwitchFalseDoesNothing(s, 0);
    RoundSingle(s, 0);
    RunSingleRound(SwitchNet([Num(0.0), Num(5.0), Nothing, Nothing], [0]), 1, Ok(()), s);
  }

  /** A true predicate's call copies the content of `if_true` to the empty output, which alerts no one. */
  lemma ArtSwitchTrueFires()
    ensures Fire(SwitchNet([Num(1.0), Num(5.0), Nothing, Nothing], []), 0) ==
      (Ok(()), SwitchNet([Num(1.0), Num(5.0), Num(5.0), Nothing], []))
  {
    var s := SwitchNet([Num(1.0), Num(5.0), Nothing, Nothing], []);
    SwitchChooses(s, 0);
    WriteToEmpty(s, 2, Num(5.0));
    assert s.contents[2 := Num(5.0)] == [Num(1.0), Num(5.0), Num(5.0), Nothing];
    assert Enqueued<PropId>([], []) == [] && Enqueued<PropId>([0], []) == [0];
  }

  /** A true predicate copies `if_true` to the output, and `run` returns `None`. */
  lemma ArtSwitchTrue()
    ensures Run(SwitchNet([Num(1.0), Num(5.0), Nothing, Nothing], [0]), 1) ==
      (Ok(NoneMark), SwitchNet([Num(1.0), Num(5.0), Num(5.0), Nothing], []).(lastValue := NoneMark))
  {
    var s := SwitchNet([Num(1.0), Num(5.0), Nothing, Nothing], []);
    ArtSwitchTrueFires();
    RoundSingle(s, 0);
    RunSingleRound(SwitchNet([Num(1.0), Num(5.0), Nothing, Nothing], [0]), 1, Ok(()), SwitchNet([Num(1.0), Num(5.0), Num(5.0), Nothing], []));
  }
}
