/**
 The update rules of one tick, as functions on the stockpile table
 `s: seq<Stockpile>` (index = entity). The methods of `EcoWorld.Economy`
 are proved to compute exactly these functions.
 */
module EcoRules {
  import opened EcoTypes

  /** Every entry of `links` names a stockpile of a table of size `n`. */
  predicate Targets(links: seq<Link>, n: int) {
    forall k :: 0 <= k < |links| ==> 0 <= links[k].target < n
  }

  /** A converter's lists only name existing stockpiles (otherwise `unwrap` panics). */
  predicate ConverterValid(c: Node, n: int) {
    IsConverter(c) ==> Targets(c.produce.value, n) && Targets(c.consume.value, n)
  }

  predicate NodesValid(nodes: seq<Node>, n: int) {
    forall k :: 0 <= k < |nodes| ==> ConverterValid(nodes[k], n)
  }

  /** `r` differs from `s` at most in amounts: same size, same limits, same stacks. */
  predicate SameShape(s: seq<Stockpile>, r: seq<Stockpile>) {
    |r| == |s| && forall i :: 0 <= i < |s| ==> r[i].limit == s[i].limit && r[i].stack == s[i].stack
  }

  /** The nominal amount of one entry over `dt`: `rate * dt * floor(stack)`. */
  function Quota(rate: real, dt: real, m: real): real { rate * dt * m }

  /** The amount actually moved by one converter entry: the quota scaled by the satisfaction. */
  function Flow(rate: real, dt: real, m: real, sat: real): real { rate * dt * m * sat }

  // ---------------------------------------------------------------- producers

  /** The sum of `rate * dt * m` over the entries of `links` that target `e`. */
  function LinkSum(links: seq<Link>, e: int, dt: real, m: real): real
  {
    if |links| == 0 then 0.0
    else
      var l := links[|links| - 1];
      LinkSum(links[..|links| - 1], e, dt, m) + (if l.target == e then Quota(l.rate, dt, m) else 0.0)
  }

  lemma LinkSumStep(links: seq<Link>, j: int, e: int, dt: real, m: real)
    requires 0 <= j < |links|
    ensures LinkSum(links[..j + 1], e, dt, m) ==
      LinkSum(links[..j], e, dt, m) + (if links[j].target == e then Quota(links[j].rate, dt, m) else 0.0)
  {
    assert links[..j + 1][..j] == links[..j];
  }

  /** What node `n` contributes to stockpile `e` in the producer step: only pure producers count. */
  function NodeOutput(n: Node, e: int, dt: real): real {
    if IsProducer(n) then LinkSum(n.produce.value, e, dt, Multiplier(n.stack)) else 0.0
  }

  /** The `sums` entry of stockpile `e` after all producers have been visited (0 when absent). */
  function ProducerSum(nodes: seq<Node>, e: int, dt: real): real
  {
    if |nodes| == 0 then 0.0
    else ProducerSum(nodes[..|nodes| - 1], e, dt) + NodeOutput(nodes[|nodes| - 1], e, dt)
  }

  lemma ProducerSumStep(nodes: seq<Node>, k: int, e: int, dt: real)
    requires 0 <= k < |nodes|
    ensures ProducerSum(nodes[..k + 1], e, dt) == ProducerSum(nodes[..k], e, dt) + NodeOutput(nodes[k], e, dt)
  {
    assert nodes[..k + 1][..k] == nodes[..k];
  }

  /** The table after `run_producers`. */
  function Produced(s: seq<Stockpile>, nodes: seq<Node>, dt: real): seq<Stockpile>
  {
    seq(|s|, i requires 0 <= i < |s| => s[i].(amount := s[i].amount + ProducerSum(nodes, i, dt)))
  }

  // ---------------------------------------------------------------- caps

  /** A limited stockpile's effective cap, `limit * floor(stack)`. */
  function Bound(p: Stockpile): real
    requires p.limit.Some?
  {
    p.limit.value * Multiplier(p.stack)
  }

  /** One stockpile after `apply_caps`. */
  function Cap(p: Stockpile): (r: Stockpile)
    ensures r.limit == p.limit && r.stack == p.stack
    ensures r.amount <= p.amount
    ensures p.limit.Some? ==> r.amount <= Bound(p)
    ensures p.limit.Some? && p.amount <= Bound(p) ==> r == p
    ensures p.limit.Some? && p.amount > Bound(p) ==> r.amount == Bound(p)
    ensures p.limit.None? ==> r == p
  {
    if p.limit.Some? then p.(amount := Min(Bound(p), p.amount)) else p
  }

  /** The table after `apply_caps`. */
  function Capped(s: seq<Stockpile>): seq<Stockpile>
  {
    seq(|s|, i requires 0 <= i < |s| => Cap(s[i]))
  }

  // ---------------------------------------------------------------- converters

  /**
   One input's effect on the running satisfaction: a hard 0 for an empty
   input, otherwise the minimum with `available / required`. A zero
   `required` leaves the satisfaction alone: in `f32`, a positive amount
   divided by +0 is +infinity, which `min` ignores.
   */
  function Restrict(sat: real, available: real, required: real): real {
    if available <= 0.0 then 0.0
    else if required == 0.0 then sat
    else Min(sat, available / required)
  }

  /** The satisfaction after the input loop over `cons`, starting from 1. */
  function Demand(s: seq<Stockpile>, cons: seq<Link>, dt: real, m: real): real
    requires Targets(cons, |s|)
  {
    if |cons| == 0 then 1.0
    else
      var l := cons[|cons| - 1];
      Restrict(Demand(s, cons[..|cons| - 1], dt, m), s[l.target].amount, Quota(l.rate, dt, m))
  }

  lemma DemandStep(s: seq<Stockpile>, cons: seq<Link>, i: int, dt: real, m: real)
    requires Targets(cons, |s|) && 0 <= i < |cons|
    ensures Demand(s, cons[..i + 1], dt, m) ==
      Restrict(Demand(s, cons[..i], dt, m), s[cons[i].target].amount, Quota(cons[i].rate, dt, m))
  {
    assert cons[..i + 1][..i] == cons[..i];
  }

  /** The limit the output gate compares against: `limit * stack` with the stack NOT floored. */
  function GateLimit(p: Stockpile): real
    requires p.limit.Some?
  {
    p.limit.value * StackOrOne(p.stack)
  }

  /** The output gate's test: limited, and at or over the unfloored limit. */
  predicate AtLimit(p: Stockpile) {
    p.limit.Some? && p.amount >= GateLimit(p)
  }

  /** Some output of `prod` is at its (unfloored) limit. */
  predicate AnyFull(s: seq<Stockpile>, prod: seq<Link>)
    requires Targets(prod, |s|)
  {
    |prod| > 0 && (AnyFull(s, prod[..|prod| - 1]) || AtLimit(s[prod[|prod| - 1].target]))
  }

  /** The converter's shared satisfaction scalar, read from the table `s` it starts from. */
  function Satisfaction(s: seq<Stockpile>, c: Node, dt: real): real
    requires IsConverter(c) && ConverterValid(c, |s|)
  {
    if AnyFull(s, c.produce.value) then 0.0
    else Demand(s, c.consume.value, dt, Multiplier(c.stack))
  }

  /** The "spend" loop: each input in turn loses `rate * dt * m * sat`, floored at 0. */
  function Drain(s: seq<Stockpile>, cons: seq<Link>, dt: real, m: real, sat: real): (r: seq<Stockpile>)
    requires Targets(cons, |s|)
    ensures SameShape(s, r)
  {
    if |cons| == 0 then s
    else
      var t := Drain(s, cons[..|cons| - 1], dt, m, sat);
      var l := cons[|cons| - 1];
      t[l.target := t[l.target].(amount := Max(t[l.target].amount - Flow(l.rate, dt, m, sat), 0.0))]
  }

  lemma DrainStep(s: seq<Stockpile>, cons: seq<Link>, i: int, dt: real, m: real, sat: real)
    requires Targets(cons, |s|) && 0 <= i < |cons|
    ensures var t := Drain(s, cons[..i], dt, m, sat); var l := cons[i];
      Drain(s, cons[..i + 1], dt, m, sat) ==
      t[l.target := t[l.target].(amount := Max(t[l.target].amount - Flow(l.rate, dt, m, sat), 0.0))]
  {
    assert cons[..i + 1][..i] == cons[..i];
    assert Targets(cons[..i + 1], |s|);
  }

  /** The "get paid" loop: each output in turn gains `rate * dt * m * sat`. */
  function Fill(s: seq<Stockpile>, prod: seq<Link>, dt: real, m: real, sat: real): (r: seq<Stockpile>)
    requires Targets(prod, |s|)
    ensures SameShape(s, r)
  {
    if |prod| == 0 then s
    else
      var t := Fill(s, prod[..|prod| - 1], dt, m, sat);
      var l := prod[|prod| - 1];
      t[l.target := t[l.target].(amount := t[l.target].amount + Flow(l.rate, dt, m, sat))]
  }

  lemma FillStep(s: seq<Stockpile>, prod: seq<Link>, j: int, dt: real, m: real, sat: real)
    requires Targets(prod, |s|) && 0 <= j < |prod|
    ensures var t := Fill(s, prod[..j], dt, m, sat); var l := prod[j];
      Fill(s, prod[..j + 1], dt, m, sat) ==
      t[l.target := t[l.target].(amount := t[l.target].amount + Flow(l.rate, dt, m, sat))]
  {
    assert prod[..j + 1][..j] == prod[..j];
    assert Targets(prod[..j + 1], |s|);
  }

  /** One converter's whole effect: satisfaction from `s`, then consumption, then production. */
  function Convert(s: seq<Stockpile>, c: Node, dt: real): (r: seq<Stockpile>)
    requires IsConverter(c) && ConverterValid(c, |s|)
    ensures SameShape(s, r)
  {
    var m := Multiplier(c.stack);
    var sat := Satisfaction(s, c, dt);
    Fill(Drain(s, c.consume.value, dt, m, sat), c.produce.value, dt, m, sat)
  }

  /** The table after `run_converters`: converters in order, each seeing its predecessors' effects. */
  function Converted(s: seq<Stockpile>, nodes: seq<Node>, dt: real): (r: seq<Stockpile>)
    requires NodesValid(nodes, |s|)
    ensures SameShape(s, r)
  {
    if |nodes| == 0 then s
    else
      var t := Converted(s, nodes[..|nodes| - 1], dt);
      var n := nodes[|nodes| - 1];
      if IsConverter(n) then Convert(t, n, dt) else t
  }

  /** One tick: `run_producers`, then `apply_caps`, then `run_converters`. */
  function Ticked(s: seq<Stockpile>, nodes: seq<Node>, dt: real): (r: seq<Stockpile>)
    requires NodesValid(nodes, |s|)
    ensures SameShape(s, r)
  {
    Converted(Capped(Produced(s, nodes, dt)), nodes, dt)
  }
}
