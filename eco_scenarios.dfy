/**
 Concrete tables run through the tick rules: the sample topology that the
 plugin spawns at startup, and small tables that pin down the quirks of
 the converter step.
 */
module EcoScenarios {
  import opened EcoTypes
  import opened EcoRules
  import opened EcoWorld

  // ---------------------------------------------------------------- one-entry unfoldings

  lemma LinkSumOne(l: Link, e: int, dt: real, m: real)
    ensures LinkSum([l], e, dt, m) == if l.target == e then Quota(l.rate, dt, m) else 0.0
  {
    assert [l][..0] == [];
  }

  lemma ProducerSumTwo(a: Node, b: Node, e: int, dt: real)
    ensures ProducerSum([a, b], e, dt) == NodeOutput(a, e, dt) + NodeOutput(b, e, dt)
  {
    assert [a, b][..1] == [a];
    assert [a][..0] == [];
    assert ProducerSum([a], e, dt) == 0.0 + NodeOutput(a, e, dt);
    assert ProducerSum([a, b], e, dt) == ProducerSum([a], e, dt) + NodeOutput(b, e, dt);
  }

  /** A single converter adds nothing in the producer step. */
  lemma ProducerSumConverter(c: Node, e: int, dt: real)
    requires IsConverter(c)
    ensures ProducerSum([c], e, dt) == 0.0
  {
    assert [c][..0] == [];
    assert ProducerSum([c], e, dt) == 0.0 + NodeOutput(c, e, dt);
  }

  lemma DemandOne(s: seq<Stockpile>, l: Link, dt: real, m: real)
    requires 0 <= l.target < |s|
    ensures Targets([l], |s|)
    ensures Demand(s, [l], dt, m) == Restrict(1.0, s[l.target].amount, Quota(l.rate, dt, m))
  {
    assert [l][..0] == [];
  }

  lemma AnyFullOne(s: seq<Stockpile>, l: Link)
    requires 0 <= l.target < |s|
    ensures Targets([l], |s|)
    ensures AnyFull(s, [l]) == AtLimit(s[l.target])
  {
    assert [l][..0] == [];
  }

  lemma DrainOne(s: seq<Stockpile>, l: Link, dt: real, m: real, sat: real)
    requires 0 <= l.target < |s|
    ensures Targets([l], |s|)
    ensures Drain(s, [l], dt, m, sat) ==
      s[l.target := s[l.target].(amount := Max(s[l.target].amount - Flow(l.rate, dt, m, sat), 0.0))]
  {
    assert [l][..0] == [];
  }

  lemma FillOne(s: seq<Stockpile>, l: Link, dt: real, m: real, sat: real)
    requires 0 <= l.target < |s|
    ensures Targets([l], |s|)
    ensures Fill(s, [l], dt, m, sat) == s[l.target := s[l.target].(amount := s[l.target].amount + Flow(l.rate, dt, m, sat))]
  {
    assert [l][..0] == [];
  }

  /** A converter with one input and one output, both stockpiles of `s`. */
  lemma ConvertOneToOne(s: seq<Stockpile>, c: Node, dt: real)
    requires IsConverter(c) && |c.consume.value| == 1 && |c.produce.value| == 1
    requires 0 <= c.consume.value[0].target < |s| && 0 <= c.produce.value[0].target < |s|
    ensures ConverterValid(c, |s|)
    ensures var i, o, m := c.consume.value[0], c.produce.value[0], Multiplier(c.stack);
      var sat := if AtLimit(s[o.target]) then 0.0 else Restrict(1.0, s[i.target].amount, Quota(i.rate, dt, m));
      Satisfaction(s, c, dt) == sat &&
      Convert(s, c, dt) == Fill(Drain(s, [i], dt, m, sat), [o], dt, m, sat)
  {
    var i, o, m := c.consume.value[0], c.produce.value[0], Multiplier(c.stack);
    assert c.consume.value == [i] && c.produce.value == [o];
    DemandOne(s, i, dt, m);
    AnyFullOne(s, o);
  }

  // ---------------------------------------------------------------- the sample topology

  // Stockpile indices of the sample topology.
  const Cooling := 0
  const Energy := 1
  const Mass := 2

  /** `Cooling` (100, cap 100), `Energy` (100, cap 200), `Mass` (0, uncapped). */
  function SampleStore(): seq<Stockpile> {
    [Stockpile(100.0, Some(100.0), None), Stockpile(100.0, Some(200.0), None), Stockpile(0.0, None, None)]
  }

  /** `Radiators` makes 0.1 Cooling/s; `Generators` turn 10.2 Cooling/s into 10 Energy/s. */
  function SampleNodes(): seq<Node> {
    [ Node(Some([Link(Cooling, 0.1)]), None, Some(1.0)),
      Node(Some([Link(Energy, 10.0)]), Some([Link(Cooling, 10.2)]), Some(1.0)) ]
  }

  /**
   One tick of the sample with `dt = 1`: producers lift Cooling to 100.1,
   the cap brings it back to 100, and the generators, fully satisfied,
   leave Cooling at 89.8 and Energy at 110. Mass never moves.
   */
  lemma SampleTick()
    ensures NodesValid(SampleNodes(), |SampleStore()|)
    ensures Produced(SampleStore(), SampleNodes(), 1.0)[Cooling].amount == 100.1
    ensures Capped(Produced(SampleStore(), SampleNodes(), 1.0))[Cooling].amount == 100.0
    ensures Ticked(SampleStore(), SampleNodes(), 1.0) ==
      [Stockpile(89.8, Some(100.0), None), Stockpile(110.0, Some(200.0), None), Stockpile(0.0, None, None)]
  {
    var s, nodes := SampleStore(), SampleNodes();
    var radiators, generators := nodes[0], nodes[1];
    assert Multiplier(Some(1.0)) == 1.0;
    LinkSumOne(Link(Cooling, 0.1), Cooling, 1.0, 1.0);
    LinkSumOne(Link(Cooling, 0.1), Energy, 1.0, 1.0);
    LinkSumOne(Link(Cooling, 0.1), Mass, 1.0, 1.0);
    ProducerSumTwo(radiators, generators, Cooling, 1.0);
    ProducerSumTwo(radiators, generators, Energy, 1.0);
    ProducerSumTwo(radiators, generators, Mass, 1.0);
    var p := Produced(s, nodes, 1.0);
    assert p == [Stockpile(100.1, Some(100.0), None), Stockpile(100.0, Some(200.0), None), Stockpile(0.0, None, None)];
    var c := Capped(p);
    assert c == [Stockpile(100.0, Some(100.0), None), Stockpile(100.0, Some(200.0), None), Stockpile(0.0, None, None)];
    ConvertOneToOne(c, generators, 1.0);
    assert Restrict(1.0, 100.0, Quota(10.2, 1.0, 1.0)) == 1.0;
    DrainOne(c, Link(Cooling, 10.2), 1.0, 1.0, 1.0);
    var d := Drain(c, [Link(Cooling, 10.2)], 1.0, 1.0, 1.0);
    assert d == [Stockpile(89.8, Some(100.0), None), Stockpile(100.0, Some(200.0), None), Stockpile(0.0, None, None)];
    FillOne(d, Link(Energy, 10.0), 1.0, 1.0, 1.0);
    assert nodes[..1] == [radiators] && [radiators][..0] == [];
    assert Converted(c, nodes[..1], 1.0) == c;
  }

  /** The sample world built as the plugin does, then advanced by one `Update` with `dt = 1`. */
  method SampleWorldTick() returns (cooling: real, energy: real, mass: real)
    ensures cooling == 89.8 && energy == 110.0 && mass == 0.0
  {
    SampleTick();
    var world := new Economy(SampleStore(), SampleNodes());
    world.Tick(1.0);
    cooling, energy, mass := world.store[Cooling].amount, world.store[Energy].amount, world.store[Mass].amount;
  }

  // ---------------------------------------------------------------- quirks pinned down

  /** One producer with rate `r` and stack `st` adds exactly `r * dt * floor(st)` to its target. */
  lemma SingleProducerDelta(s: seq<Stockpile>, t: int, r: real, st: Option<real>, dt: real)
    requires 0 <= t < |s|
    ensures Produced(s, [Node(Some([Link(t, r)]), None, st)], dt)[t].amount == s[t].amount + r * dt * Multiplier(st)
  {
    var n := Node(Some([Link(t, r)]), None, st);
    assert [n][..0] == [];
    LinkSumOne(Link(t, r), t, dt, Multiplier(st));
    assert NodeOutput(n, t, dt) == Quota(r, dt, Multiplier(st));
    assert ProducerSum([n], t, dt) == 0.0 + NodeOutput(n, t, dt);
  }

  /** A stack of 2.9 scales rates and caps exactly as a stack of 2 does. */
  lemma StackIsFloored(p: Stockpile)
    requires p.limit.Some?
    ensures Multiplier(Some(2.9)) == Multiplier(Some(2.0)) == 2.0
    ensures Cap(p.(stack := Some(2.9))).amount == Cap(p.(stack := Some(2.0))).amount
  {
    assert (2.9).Floor == 2;
  }

  /**
   The output gate does not floor the stack: a stockpile with limit 10 and
   stack 2.9 holding 25 is over its cap of 20 for `apply_caps`, yet not
   full for the gate (25 < 29), so a converter still pays into it and
   pushes it further over; with stack 2 the same stockpile blocks the gate.
   */
  lemma GateUsesRawStack()
    ensures var out := Stockpile(25.0, Some(10.0), Some(2.9));
      Cap(out).amount == 20.0 && !AtLimit(out) && AtLimit(out.(stack := Some(2.0)))
    ensures var s := [Stockpile(5.0, None, None), Stockpile(25.0, Some(10.0), Some(2.9))];
      var c := Node(Some([Link(1, 1.0)]), Some([Link(0, 1.0)]), None);
      Convert(s, c, 1.0) == [Stockpile(4.0, None, None), Stockpile(26.0, Some(10.0), Some(2.9))]
  {
    assert (2.9).Floor == 2;
    var s := [Stockpile(5.0, None, None), Stockpile(25.0, Some(10.0), Some(2.9))];
    var c := Node(Some([Link(1, 1.0)]), Some([Link(0, 1.0)]), None);
    ConvertOneToOne(s, c, 1.0);
    assert Restrict(1.0, 5.0, Quota(1.0, 1.0, 1.0)) == 1.0;
    DrainOne(s, Link(0, 1.0), 1.0, 1.0, 1.0);
    var d := Drain(s, [Link(0, 1.0)], 1.0, 1.0, 1.0);
    assert d == [Stockpile(4.0, None, None), Stockpile(25.0, Some(10.0), Some(2.9))];
    FillOne(d, Link(1, 1.0), 1.0, 1.0, 1.0);
  }

  /**
   Caps run before converters, so a tick can end over a cap: Energy at
   195 of 200 ends the tick at 205, and only the next tick's cap pass
   brings it back to 200.
   */
  lemma TickCanEndOverCap()
    ensures var s := [Stockpile(100.0, None, None), Stockpile(195.0, Some(200.0), None)];
      var nodes := [Node(Some([Link(1, 10.0)]), Some([Link(0, 10.0)]), None)];
      NodesValid(nodes, |s|) &&
      Ticked(s, nodes, 1.0)[1].amount == 205.0 &&
      Capped(Ticked(s, nodes, 1.0))[1].amount == 200.0
  {
    var s := [Stockpile(100.0, None, None), Stockpile(195.0, Some(200.0), None)];
    var c := Node(Some([Link(1, 10.0)]), Some([Link(0, 10.0)]), None);
    var nodes := [c];
    assert nodes[..0] == [];
    forall i | 0 <= i < |s| ensures ProducerSum(nodes, i, 1.0) == 0.0 {
      ProducerSumConverter(c, i, 1.0);
    }
    assert Produced(s, nodes, 1.0) == s;
    assert Capped(s) == s;
    ConvertOneToOne(s, c, 1.0);
    assert Restrict(1.0, 100.0, Quota(10.0, 1.0, 1.0)) == 1.0;
    DrainOne(s, Link(0, 10.0), 1.0, 1.0, 1.0);
    var d := Drain(s, [Link(0, 10.0)], 1.0, 1.0, 1.0);
    assert d == [Stockpile(90.0, None, None), Stockpile(195.0, Some(200.0), None)];
    FillOne(d, Link(1, 10.0), 1.0, 1.0, 1.0);
    assert Converted(s, nodes[..0], 1.0) == s;
    assert Ticked(s, nodes, 1.0) == Convert(s, c, 1.0);
  }

  /**
   Two converters that both want all 10 units of one input: whichever is
   visited first takes everything and the other finds the input empty.
   */
  lemma EarlierConverterHasPriority()
    ensures var s := [Stockpile(10.0, None, None), Stockpile(0.0, None, None), Stockpile(0.0, None, None)];
      var first := Node(Some([Link(1, 1.0)]), Some([Link(0, 10.0)]), None);
      var second := Node(Some([Link(2, 1.0)]), Some([Link(0, 10.0)]), None);
      NodesValid([first, second], |s|) &&
      Converted(s, [first, second], 1.0) ==
        [Stockpile(0.0, None, None), Stockpile(1.0, None, None), Stockpile(0.0, None, None)] &&
      Converted(s, [second, first], 1.0) ==
        [Stockpile(0.0, None, None), Stockpile(0.0, None, None), Stockpile(1.0, None, None)]
  {
    var s := [Stockpile(10.0, None, None), Stockpile(0.0, None, None), Stockpile(0.0, None, None)];
    FirstTakesAll(s, 1, 2);
    FirstTakesAll(s, 2, 1);
  }

  /** Two converters over the same input, one paying into `winner`, then one paying into `loser`. */
  lemma FirstTakesAll(s: seq<Stockpile>, winner: int, loser: int)
    requires s == [Stockpile(10.0, None, None), Stockpile(0.0, None, None), Stockpile(0.0, None, None)]
    requires 1 <= winner <= 2 && 1 <= loser <= 2
    ensures var a := Node(Some([Link(winner, 1.0)]), Some([Link(0, 10.0)]), None);
      var b := Node(Some([Link(loser, 1.0)]), Some([Link(0, 10.0)]), None);
      NodesValid([a, b], |s|) &&
      Converted(s, [a, b], 1.0) == s[0 := Stockpile(0.0, None, None)][winner := Stockpile(1.0, None, None)]
  {
    var a := Node(Some([Link(winner, 1.0)]), Some([Link(0, 10.0)]), None);
    var b := Node(Some([Link(loser, 1.0)]), Some([Link(0, 10.0)]), None);
    ConvertOneToOne(s, a, 1.0);
    ConvertOneToOne(s, b, 1.0);
    TakesAll(s, a, winner);
    var t := Convert(s, a, 1.0);
    FindsInputEmpty(t, b, loser);
    ConvertedTwo(s, a, b, 1.0);
  }

  /** Two converters in a row: the second sees the table the first left behind. */
  lemma ConvertedTwo(s: seq<Stockpile>, a: Node, b: Node, dt: real)
    requires IsConverter(a) && ConverterValid(a, |s|) && IsConverter(b) && ConverterValid(b, |s|)
    ensures NodesValid([a, b], |s|)
    ensures Converted(s, [a, b], dt) == Convert(Convert(s, a, dt), b, dt)
  {
    assert [a, b][..1] == [a];
    assert [a][..0] == [];
    assert NodesValid([a], |s|);
    assert Converted(s, [a], dt) == Convert(s, a, dt);
  }

  /** A converter that turns 10 of stockpile 0 into 1 of stockpile `out`, run on a table holding exactly 10 in stockpile 0. */
  lemma TakesAll(s: seq<Stockpile>, c: Node, out: int)
    requires s == [Stockpile(10.0, None, None), Stockpile(0.0, None, None), Stockpile(0.0, None, None)]
    requires 1 <= out <= 2 && c == Node(Some([Link(out, 1.0)]), Some([Link(0, 10.0)]), None)
    ensures Convert(s, c, 1.0) == s[0 := Stockpile(0.0, None, None)][out := Stockpile(1.0, None, None)]
  {
    ConvertOneToOne(s, c, 1.0);
    assert Multiplier(None) == 1.0;
    assert Restrict(1.0, 10.0, Quota(10.0, 1.0, 1.0)) == 1.0;
    DrainOne(s, Link(0, 10.0), 1.0, 1.0, 1.0);
    var d := Drain(s, [Link(0, 10.0)], 1.0, 1.0, 1.0);
    assert d == s[0 := Stockpile(0.0, None, None)];
    FillOne(d, Link(out, 1.0), 1.0, 1.0, 1.0);
  }

  /** The same converter on a table whose stockpile 0 is already empty: nothing moves. */
  lemma FindsInputEmpty(s: seq<Stockpile>, c: Node, out: int)
    requires |s| == 3 && 1 <= out <= 2 && s[0] == Stockpile(0.0, None, None) && s[out].limit.None?
    requires c == Node(Some([Link(out, 1.0)]), Some([Link(0, 10.0)]), None)
    ensures Convert(s, c, 1.0) == s
  {
    ConvertOneToOne(s, c, 1.0);
    DrainOne(s, Link(0, 10.0), 1.0, 1.0, 0.0);
    assert Flow(10.0, 1.0, 1.0, 0.0) == 0.0 && Flow(1.0, 1.0, 1.0, 0.0) == 0.0;
    assert Drain(s, [Link(0, 10.0)], 1.0, 1.0, 0.0) == s;
    FillOne(s, Link(out, 1.0), 1.0, 1.0, 0.0);
  }

  lemma DemandTwo(s: seq<Stockpile>, a: Link, b: Link, dt: real, m: real)
    requires 0 <= a.target < |s| && 0 <= b.target < |s|
    ensures Targets([a, b], |s|)
    ensures Demand(s, [a, b], dt, m) ==
      Restrict(Restrict(1.0, s[a.target].amount, Quota(a.rate, dt, m)), s[b.target].amount, Quota(b.rate, dt, m))
  {
    DemandOne(s, a, dt, m);
    DemandStep(s, [a, b], 1, dt, m);
    assert [a, b][..1] == [a] && [a, b][..2] == [a, b];
  }

  lemma DrainTwo(s: seq<Stockpile>, a: Link, b: Link, dt: real, m: real, sat: real)
    requires 0 <= a.target < |s| && 0 <= b.target < |s|
    ensures Targets([a, b], |s|)
    ensures Drain(s, [a, b], dt, m, sat) == Drain(Drain(s, [a], dt, m, sat), [b], dt, m, sat)
  {
    DrainOne(s, a, dt, m, sat);
    DrainOne(Drain(s, [a], dt, m, sat), b, dt, m, sat);
    DrainStep(s, [a, b], 1, dt, m, sat);
    assert [a, b][..1] == [a] && [a, b][..2] == [a, b];
  }

  /**
   Within one converter the order of the apply loops matters: with the
   same stockpile listed twice as input and once as output, spending first
   (as the code does) ends at 1, paying first would end at 0.
   */
  lemma SpendBeforePay()
    ensures var s := [Stockpile(1.0, None, None)];
      var c := Node(Some([Link(0, 1.0)]), Some([Link(0, 1.0), Link(0, 1.0)]), None);
      ConverterValid(c, |s|) &&
      Satisfaction(s, c, 1.0) == 1.0 &&
      Convert(s, c, 1.0) == [Stockpile(1.0, None, None)] &&
      Drain(Fill(s, c.produce.value, 1.0, 1.0, 1.0), c.consume.value, 1.0, 1.0, 1.0) == [Stockpile(0.0, None, None)]
  {
    DoubleInputSatisfied();
    SpendThenPay();
    PayThenSpend();
  }

  lemma DoubleInputSatisfied()
    ensures var c := Node(Some([Link(0, 1.0)]), Some([Link(0, 1.0), Link(0, 1.0)]), None);
      ConverterValid(c, 1) && Satisfaction([Stockpile(1.0, None, None)], c, 1.0) == 1.0
  {
    var s := [Stockpile(1.0, None, None)];
    var l := Link(0, 1.0);
    assert Multiplier(None) == 1.0 && Quota(1.0, 1.0, 1.0) == 1.0;
    DemandTwo(s, l, l, 1.0, 1.0);
    assert Restrict(1.0, 1.0, 1.0) == 1.0;
    AnyFullOne(s, l);
  }

  /** The code's order: both inputs drain the single stockpile to 0, then the output pays 1 back. */
  lemma SpendThenPay()
    ensures var s := [Stockpile(1.0, None, None)]; var l := Link(0, 1.0);
      Targets([l, l], 1) && Targets([l], 1) &&
      Fill(Drain(s, [l, l], 1.0, 1.0, 1.0), [l], 1.0, 1.0, 1.0) == s
  {
    var s := [Stockpile(1.0, None, None)];
    var empty := [Stockpile(0.0, None, None)];
    var l := Link(0, 1.0);
    assert Flow(1.0, 1.0, 1.0, 1.0) == 1.0;
    DrainTwo(s, l, l, 1.0, 1.0, 1.0);
    DrainOne(s, l, 1.0, 1.0, 1.0);
    assert Drain(s, [l], 1.0, 1.0, 1.0) == empty;
    DrainOne(empty, l, 1.0, 1.0, 1.0);
    assert Drain(s, [l, l], 1.0, 1.0, 1.0) == empty;
    FillOne(empty, l, 1.0, 1.0, 1.0);
  }

  /** The opposite order: paying first lifts the stockpile to 2, and the two inputs then take all of it. */
  lemma PayThenSpend()
    ensures var s := [Stockpile(1.0, None, None)]; var l := Link(0, 1.0);
      Targets([l, l], 1) && Targets([l], 1) &&
      Drain(Fill(s, [l], 1.0, 1.0, 1.0), [l, l], 1.0, 1.0, 1.0) == [Stockpile(0.0, None, None)]
  {
    var s := [Stockpile(1.0, None, None)];
    var paid := [Stockpile(2.0, None, None)];
    var l := Link(0, 1.0);
    assert Flow(1.0, 1.0, 1.0, 1.0) == 1.0;
    FillOne(s, l, 1.0, 1.0, 1.0);
    assert Fill(s, [l], 1.0, 1.0, 1.0) == paid;
    DrainTwo(paid, l, l, 1.0, 1.0, 1.0);
    DrainOne(paid, l, 1.0, 1.0, 1.0);
    assert Drain(paid, [l], 1.0, 1.0, 1.0) == s;
    DrainOne(s, l, 1.0, 1.0, 1.0);
  }

  /**
   The hard zero of an empty input is not final when a later input has a
   negative rate: `min(0, 1 / -1)` drives the satisfaction to -1.
   */
  lemma NegativeRateAfterEmptyInput()
    ensures var s := [Stockpile(0.0, None, None), Stockpile(1.0, None, None)];
      Targets([Link(0, 1.0), Link(1, -1.0)], |s|) &&
      Demand(s, [Link(0, 1.0), Link(1, -1.0)], 1.0, 1.0) == -1.0
  {
    var s := [Stockpile(0.0, None, None), Stockpile(1.0, None, None)];
    DemandTwo(s, Link(0, 1.0), Link(1, -1.0), 1.0, 1.0);
    assert Quota(1.0, 1.0, 1.0) == 1.0 && Quota(-1.0, 1.0, 1.0) == -1.0;
    assert Restrict(1.0, 0.0, 1.0) == 0.0;
    assert Restrict(0.0, 1.0, -1.0) == -1.0;
  }
}
