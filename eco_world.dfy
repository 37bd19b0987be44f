/**
 The ECS world reduced to what the tick touches: a table of stockpiles
 updated in place, and the fixed list of link nodes. Each system is a
 method proved to compute the matching function of `EcoRules`.
 */
module EcoWorld {
  import opened EcoTypes
  import opened EcoRules

  class Economy {
    /** The `Storage` entities, indexed by entity id; only their amounts change. */
    const store: array<Stockpile>
    /** The link entities (`Produce`, `Consume`, `Stack`), in query iteration order. */
    const nodes: seq<Node>

    /** Every converter names only existing stockpiles. */
    predicate Valid() {
      NodesValid(nodes, store.Length)
    }

    constructor (initial: seq<Stockpile>, links: seq<Node>)
      requires NodesValid(links, |initial|)
      ensures fresh(store)
      ensures store[..] == initial && nodes == links
      ensures Valid()
    {
      nodes := links;
      store := new Stockpile[|initial|](i requires 0 <= i < |initial| => initial[i]);
    }

    /**
     The first loop of `run_producers`: the `sums` map. Its entries are the
     producer totals; an entity without an entry has total 0.
     */
    method CollectSums(dt: real) returns (sums: map<int, real>)
      ensures forall e :: e in sums ==> sums[e] == ProducerSum(nodes, e, dt)
      ensures forall e :: e !in sums ==> ProducerSum(nodes, e, dt) == 0.0
    {
      sums := map[];
      var k := 0;
      while k < |nodes|
        invariant 0 <= k <= |nodes|
        invariant forall e :: e in sums ==> sums[e] == ProducerSum(nodes[..k], e, dt)
        invariant forall e :: e !in sums ==> ProducerSum(nodes[..k], e, dt) == 0.0
      {
        var n := nodes[k];
        forall e ensures ProducerSum(nodes[..k + 1], e, dt) == ProducerSum(nodes[..k], e, dt) + NodeOutput(n, e, dt) {
          ProducerSumStep(nodes, k, e, dt);
        }
        if IsProducer(n) {
          var m := Multiplier(n.stack);
          var links := n.produce.value;
          var j := 0;
          while j < |links|
            invariant 0 <= j <= |links|
            invariant forall e :: e in sums ==>
              sums[e] == ProducerSum(nodes[..k], e, dt) + LinkSum(links[..j], e, dt, m)
            invariant forall e :: e !in sums ==>
              ProducerSum(nodes[..k], e, dt) + LinkSum(links[..j], e, dt, m) == 0.0
          {
            var l := links[j];
            var amount := Quota(l.rate, dt, m);
            if l.target in sums {
              sums := sums[l.target := sums[l.target] + amount];
            } else {
              sums := sums[l.target := amount];
            }
            forall e ensures LinkSum(links[..j + 1], e, dt, m) ==
              LinkSum(links[..j], e, dt, m) + (if l.target == e then amount else 0.0)
            {
              LinkSumStep(links, j, e, dt, m);
            }
            j := j + 1;
          }
          assert links[..j] == links;
        }
        k := k + 1;
      }
      assert nodes[..k] == nodes;
    }

    /** `run_producers`: every stockpile gains its producer total; entries for non-stockpiles are dropped. */
    method RunProducers(dt: real)
      modifies store
      ensures store[..] == Produced(old(store[..]), nodes, dt)
    {
      var sums := CollectSums(dt);
      var i := 0;
      while i < store.Length
        invariant 0 <= i <= store.Length
        invariant forall k :: 0 <= k < i ==>
          store[k] == old(store[k]).(amount := old(store[k]).amount + ProducerSum(nodes, k, dt))
        invariant forall k :: i <= k < store.Length ==> store[k] == old(store[k])
      {
        var p := if i in sums then sums[i] else 0.0;
        store[i] := store[i].(amount := store[i].amount + p);
        i := i + 1;
      }
    }

    /** `apply_caps`: every limited stockpile is clamped to `limit * floor(stack)`. */
    method ApplyCaps()
      modifies store
      ensures store[..] == Capped(old(store[..]))
    {
      var i := 0;
      while i < store.Length
        invariant 0 <= i <= store.Length
        invariant forall k :: 0 <= k < i ==> store[k] == Cap(old(store[k]))
        invariant forall k :: i <= k < store.Length ==> store[k] == old(store[k])
      {
        var p := store[i];
        if p.limit.Some? {
          var limit := Bound(p);
          store[i] := p.(amount := Min(limit, p.amount));
        }
        i := i + 1;
      }
    }

    /** The first two loops of one converter: the demand loop, then the output headroom gate. */
    method ComputeSatisfaction(c: Node, dt: real) returns (sat: real)
      requires IsConverter(c) && ConverterValid(c, store.Length)
      ensures sat == Satisfaction(store[..], c, dt)
    {
      ghost var s := store[..];
      var m := Multiplier(c.stack);
      var cons := c.consume.value;
      sat := 1.0;
      var i := 0;
      while i < |cons|
        invariant 0 <= i <= |cons|
        invariant sat == Demand(s, cons[..i], dt, m)
      {
        var l := cons[i];
        var required := Quota(l.rate, dt, m);
        var available := store[l.target].amount;
        ghost var before := sat;
        if available <= 0.0 {
          sat := 0.0;
        } else if required != 0.0 {
          sat := Min(sat, available / required);
        }
        assert sat == Restrict(before, available, required);
        DemandStep(s, cons, i, dt, m);
        i := i + 1;
      }
      assert cons[..i] == cons;
      var prod := c.produce.value;
      var j := 0;
      while j < |prod|
        invariant 0 <= j <= |prod|
        invariant sat == if AnyFull(s, prod[..j]) then 0.0 else Demand(s, cons, dt, m)
      {
        var p := store[prod[j].target];
        if p.limit.Some? {
          var limit := GateLimit(p);
          if p.amount >= limit {
            sat := 0.0;
          }
        }
        assert prod[..j + 1][..j] == prod[..j];
        j := j + 1;
      }
      assert prod[..j] == prod;
    }

    /** The "spend actual money" loop: each input loses its flow, floored at 0. */
    method Spend(cons: seq<Link>, dt: real, m: real, sat: real)
      requires Targets(cons, store.Length)
      modifies store
      ensures store[..] == Drain(old(store[..]), cons, dt, m, sat)
    {
      var i := 0;
      while i < |cons|
        invariant 0 <= i <= |cons|
        invariant store[..] == Drain(old(store[..]), cons[..i], dt, m, sat)
      {
        ghost var before := store[..];
        var l := cons[i];
        var amount := Flow(l.rate, dt, m, sat);
        store[l.target] := store[l.target].(amount := Max(store[l.target].amount - amount, 0.0));
        assert store[..] == before[l.target := before[l.target].(amount := Max(before[l.target].amount - amount, 0.0))];
        DrainStep(old(store[..]), cons, i, dt, m, sat);
        i := i + 1;
      }
      assert cons[..i] == cons;
    }

    /** The "get paid" loop: each output gains its flow. */
    method Pay(prod: seq<Link>, dt: real, m: real, sat: real)
      requires Targets(prod, store.Length)
      modifies store
      ensures store[..] == Fill(old(store[..]), prod, dt, m, sat)
    {
      var j := 0;
      while j < |prod|
        invariant 0 <= j <= |prod|
        invariant store[..] == Fill(old(store[..]), prod[..j], dt, m, sat)
      {
        ghost var before := store[..];
        var l := prod[j];
        var amount := Flow(l.rate, dt, m, sat);
        store[l.target] := store[l.target].(amount := store[l.target].amount + amount);
        assert store[..] == before[l.target := before[l.target].(amount := before[l.target].amount + amount)];
        FillStep(old(store[..]), prod, j, dt, m, sat);
        j := j + 1;
      }
      assert prod[..j] == prod;
    }

    /** One iteration of `run_converters`' outer loop: satisfaction first, then spend, then get paid. */
    method RunConverter(c: Node, dt: real)
      requires IsConverter(c) && ConverterValid(c, store.Length)
      modifies store
      ensures store[..] == Convert(old(store[..]), c, dt)
    {
      var m := Multiplier(c.stack);
      var sat := ComputeSatisfaction(c, dt);
      Spend(c.consume.value, dt, m, sat);
      Pay(c.produce.value, dt, m, sat);
    }

    /** `run_converters`: every converter in order, each against the current table. */
    method RunConverters(dt: real)
      requires Valid()
      modifies store
      ensures store[..] == Converted(old(store[..]), nodes, dt)
    {
      var k := 0;
      while k < |nodes|
        invariant 0 <= k <= |nodes|
        invariant store[..] == Converted(old(store[..]), nodes[..k], dt)
      {
        assert nodes[..k + 1][..k] == nodes[..k];
        if IsConverter(nodes[k]) {
          RunConverter(nodes[k], dt);
        }
        k := k + 1;
      }
      assert nodes[..k] == nodes;
    }

    /** One `Update`: the three systems chained in their fixed order. */
    method Tick(dt: real)
      requires Valid()
      modifies store
      ensures store[..] == Ticked(old(store[..]), nodes, dt)
    {
      RunProducers(dt);
      ApplyCaps();
      RunConverters(dt);
    }
  }
}
