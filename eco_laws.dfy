/**
 Properties of the tick rules: what each system promises on its own, the
 gates of the converter step, and the non-negativity that a tick keeps.
 */
module EcoLaws {
  import opened EcoTypes
  import opened EcoRules

  // ---------------------------------------------------------------- helpers

  /** No entry of any pure producer in `nodes` targets stockpile `e`. */
  predicate Untargeted(nodes: seq<Node>, e: int) {
    forall k, j :: 0 <= k < |nodes| && IsProducer(nodes[k]) && 0 <= j < |nodes[k].produce.value| ==>
      nodes[k].produce.value[j].target != e
  }

  predicate NonNegativeRates(links: seq<Link>) {
    forall k :: 0 <= k < |links| ==> links[k].rate >= 0.0
  }

  /** Every stockpile that `cons` reads holds a non-negative amount. */
  predicate InputsNonNegative(s: seq<Stockpile>, cons: seq<Link>)
    requires Targets(cons, |s|)
  {
    forall k :: 0 <= k < |cons| ==> s[cons[k].target].amount >= 0.0
  }

  predicate AllNonNegative(s: seq<Stockpile>) {
    forall i :: 0 <= i < |s| ==> s[i].amount >= 0.0
  }

  /** The pure producers of `nodes`, in order. */
  function PureProducers(nodes: seq<Node>): (r: seq<Node>)
    ensures forall k :: 0 <= k < |r| ==> IsProducer(r[k])
  {
    if |nodes| == 0 then []
    else
      var n := nodes[|nodes| - 1];
      PureProducers(nodes[..|nodes| - 1]) + (if IsProducer(n) then [n] else [])
  }

  lemma QuotaNonNegative(rate: real, dt: real, m: real)
    requires rate >= 0.0 && dt >= 0.0 && m >= 0.0
    ensures Quota(rate, dt, m) >= 0.0
  {
    assert rate * dt >= 0.0;
  }

  lemma FlowNonNegative(rate: real, dt: real, m: real, sat: real)
    requires rate >= 0.0 && dt >= 0.0 && m >= 0.0 && sat >= 0.0
    ensures Flow(rate, dt, m, sat) >= 0.0
  {
    QuotaNonNegative(rate, dt, m);
    assert Flow(rate, dt, m, sat) == Quota(rate, dt, m) * sat;
  }

  lemma QuotientBelowOne(a: real, q: real)
    requires 0.0 < a < q
    ensures 0.0 < a / q < 1.0
  {
    var r := a / q;
    assert r * q == a;
    if r >= 1.0 {
      assert false;
    }
  }

  lemma QuotientCancels(a: real, q: real)
    requires q != 0.0
    ensures q * (a / q) == a
  {
  }

  // ---------------------------------------------------------------- run_producers

  lemma {:induction false} LinkSumUntargeted(links: seq<Link>, e: int, dt: real, m: real)
    requires forall k :: 0 <= k < |links| ==> links[k].target != e
    ensures LinkSum(links, e, dt, m) == 0.0
  {
    if |links| > 0 {
      LinkSumUntargeted(links[..|links| - 1], e, dt, m);
    }
  }

  lemma {:induction false} LinkSumNonNegative(links: seq<Link>, e: int, dt: real, m: real)
    requires NonNegativeRates(links) && dt >= 0.0 && m >= 0.0
    ensures LinkSum(links, e, dt, m) >= 0.0
  {
    if |links| > 0 {
      var l := links[|links| - 1];
      LinkSumNonNegative(links[..|links| - 1], e, dt, m);
      QuotaNonNegative(l.rate, dt, m);
    }
  }

  /** A stockpile that no pure producer names gets nothing. */
  lemma {:induction false} ProducerSumUntargeted(nodes: seq<Node>, e: int, dt: real)
    requires Untargeted(nodes, e)
    ensures ProducerSum(nodes, e, dt) == 0.0
  {
    if |nodes| > 0 {
      var n := nodes[|nodes| - 1];
      ProducerSumUntargeted(nodes[..|nodes| - 1], e, dt);
      if IsProducer(n) {
        LinkSumUntargeted(n.produce.value, e, dt, Multiplier(n.stack));
      }
    }
  }

  /** `run_producers` leaves a stockpile that no pure producer targets exactly as it was. */
  lemma ProducedUntargetedUnchanged(s: seq<Stockpile>, nodes: seq<Node>, dt: real, i: int)
    requires 0 <= i < |s| && Untargeted(nodes, i)
    ensures Produced(s, nodes, dt)[i] == s[i]
  {
    ProducerSumUntargeted(nodes, i, dt);
  }

  /** Producer contributions add up: splitting the producers splits the sum. */
  lemma {:induction false} ProducerSumAppend(a: seq<Node>, b: seq<Node>, e: int, dt: real)
    ensures ProducerSum(a + b, e, dt) == ProducerSum(a, e, dt) + ProducerSum(b, e, dt)
  {
    if |b| == 0 {
      assert a + b == a;
    } else {
      ProducerSumAppend(a, b[..|b| - 1], e, dt);
      assert (a + b)[..|a + b| - 1] == a + b[..|b| - 1];
    }
  }

  /** The producer total of one node alone is that node's output. */
  lemma ProducerSumSingle(n: Node, e: int, dt: real)
    ensures ProducerSum([n], e, dt) == NodeOutput(n, e, dt)
  {
    assert [n][..0] == [];
  }

  /** Any reordering of the nodes gives the same producer total. */
  lemma {:induction false} ProducerSumPermutation(a: seq<Node>, b: seq<Node>, e: int, dt: real)
    requires multiset(a) == multiset(b)
    ensures ProducerSum(a, e, dt) == ProducerSum(b, e, dt)
    decreases |a|
  {
    if |a| == 0 {
      assert |b| == |multiset(b)| == 0;
    } else {
      var n := |a| - 1;
      var x := a[n];
      assert a == a[..n] + [x];
      assert x in multiset(b);
      var j :| 0 <= j < |b| && b[j] == x;
      var rest := b[..j] + b[j + 1..];
      assert b == b[..j] + [x] + b[j + 1..];
      assert multiset(a) == multiset(a[..n]) + multiset{x};
      assert multiset(b) == multiset(b[..j]) + multiset{x} + multiset(b[j + 1..]);
      assert multiset(rest) == multiset(b[..j]) + multiset(b[j + 1..]);
      assert multiset(a[..n]) == multiset(a) - multiset{x};
      assert multiset(rest) == multiset(b) - multiset{x};
      ProducerSumPermutation(a[..n], rest, e, dt);
      ProducerSumAppend(a[..n], [x], e, dt);
      ProducerSumAppend(b[..j] + [x], b[j + 1..], e, dt);
      ProducerSumAppend(b[..j], [x], e, dt);
      ProducerSumAppend(b[..j], b[j + 1..], e, dt);
      ProducerSumSingle(x, e, dt);
    }
  }

  /** The order in which producers are visited does not matter: any permutation gives the same table. */
  lemma ProducerOrderIrrelevant(s: seq<Stockpile>, a: seq<Node>, b: seq<Node>, dt: real)
    requires multiset(a) == multiset(b)
    ensures Produced(s, a, dt) == Produced(s, b, dt)
  {
    forall i | 0 <= i < |s|
      ensures Produced(s, a, dt)[i] == Produced(s, b, dt)[i]
    {
      ProducerSumPermutation(a, b, i, dt);
    }
  }

  /** Nodes with a `Consume` list (converters) contribute nothing to the producer step. */
  lemma {:induction false} OnlyPureProducersCount(nodes: seq<Node>, e: int, dt: real)
    ensures ProducerSum(nodes, e, dt) == ProducerSum(PureProducers(nodes), e, dt)
  {
    if |nodes| > 0 {
      var n := nodes[|nodes| - 1];
      var tail := if IsProducer(n) then [n] else [];
      OnlyPureProducersCount(nodes[..|nodes| - 1], e, dt);
      ProducerSumAppend(PureProducers(nodes[..|nodes| - 1]), tail, e, dt);
      if IsProducer(n) {
        assert [n][..0] == [];
      }
    }
  }

  /** A pure producer whose every target is not a stockpile changes nothing. */
  lemma DroppedTargetsIgnored(s: seq<Stockpile>, nodes: seq<Node>, n: Node, dt: real)
    requires IsProducer(n)
    requires forall k :: 0 <= k < |n.produce.value| ==> !(0 <= n.produce.value[k].target < |s|)
    ensures Produced(s, nodes + [n], dt) == Produced(s, nodes, dt)
  {
    forall i | 0 <= i < |s|
      ensures Produced(s, nodes + [n], dt)[i] == Produced(s, nodes, dt)[i]
    {
      ProducerSumAppend(nodes, [n], i, dt);
      assert [n][..0] == [];
      LinkSumUntargeted(n.produce.value, i, dt, Multiplier(n.stack));
    }
  }

  lemma {:induction false} ProducerSumNonNegative(nodes: seq<Node>, e: int, dt: real)
    requires dt >= 0.0
    requires forall k :: 0 <= k < |nodes| && IsProducer(nodes[k]) ==>
      NonNegativeRates(nodes[k].produce.value) && Multiplier(nodes[k].stack) >= 0.0
    ensures ProducerSum(nodes, e, dt) >= 0.0
  {
    if |nodes| > 0 {
      var n := nodes[|nodes| - 1];
      ProducerSumNonNegative(nodes[..|nodes| - 1], e, dt);
      if IsProducer(n) {
        LinkSumNonNegative(n.produce.value, e, dt, Multiplier(n.stack));
      }
    }
  }

  // ---------------------------------------------------------------- apply_caps

  /** Capping twice is capping once. */
  lemma CapsIdempotent(s: seq<Stockpile>)
    ensures Capped(Capped(s)) == Capped(s)
  {
    forall i | 0 <= i < |s| ensures Capped(Capped(s))[i] == Capped(s)[i] {
      assert Cap(Cap(s[i])) == Cap(s[i]);
    }
  }

  // ---------------------------------------------------------------- run_converters: gates

  lemma {:induction false} DemandInUnitInterval(s: seq<Stockpile>, cons: seq<Link>, dt: real, m: real)
    requires Targets(cons, |s|) && NonNegativeRates(cons) && dt >= 0.0 && m >= 0.0
    ensures 0.0 <= Demand(s, cons, dt, m) <= 1.0
  {
    if |cons| > 0 {
      var l := cons[|cons| - 1];
      DemandInUnitInterval(s, cons[..|cons| - 1], dt, m);
      QuotaNonNegative(l.rate, dt, m);
      var a, q := s[l.target].amount, Quota(l.rate, dt, m);
      if a > 0.0 && q != 0.0 {
        assert a / q > 0.0;
      }
    }
  }

  /** With non-negative rates, `dt` and `floor(stack)`, satisfaction lies in [0, 1]. */
  lemma SatisfactionInUnitInterval(s: seq<Stockpile>, c: Node, dt: real)
    requires IsConverter(c) && ConverterValid(c, |s|)
    requires NonNegativeRates(c.consume.value) && dt >= 0.0 && Multiplier(c.stack) >= 0.0
    ensures 0.0 <= Satisfaction(s, c, dt) <= 1.0
  {
    DemandInUnitInterval(s, c.consume.value, dt, Multiplier(c.stack));
  }

  /** One empty input is a hard zero that no later input can lift. */
  lemma {:induction false} DemandZeroOnEmptyInput(s: seq<Stockpile>, cons: seq<Link>, dt: real, m: real, k: int)
    requires Targets(cons, |s|) && NonNegativeRates(cons) && dt >= 0.0 && m >= 0.0
    requires 0 <= k < |cons| && s[cons[k].target].amount <= 0.0
    ensures Demand(s, cons, dt, m) == 0.0
  {
    var n := |cons| - 1;
    if k < n {
      DemandZeroOnEmptyInput(s, cons[..n], dt, m, k);
      var a, q := s[cons[n].target].amount, Quota(cons[n].rate, dt, m);
      QuotaNonNegative(cons[n].rate, dt, m);
      if a > 0.0 && q != 0.0 {
        assert a / q > 0.0;
      }
    }
  }

  /** One input never raises a non-negative running satisfaction. */
  lemma RestrictNeverRaises(sat: real, a: real, q: real)
    requires sat >= 0.0
    ensures Restrict(sat, a, q) <= sat
  {
  }

  /**
   Shared throttling: under the sign hypotheses the demand never exceeds
   any input's `available / required`, so no input is asked for more than
   it holds.
   */
  lemma {:induction false} DemandBelowRatio(s: seq<Stockpile>, cons: seq<Link>, dt: real, m: real, k: int)
    requires Targets(cons, |s|) && NonNegativeRates(cons) && dt >= 0.0 && m >= 0.0
    requires 0 <= k < |cons|
    requires s[cons[k].target].amount > 0.0 && Quota(cons[k].rate, dt, m) > 0.0
    ensures Demand(s, cons, dt, m) <= s[cons[k].target].amount / Quota(cons[k].rate, dt, m)
  {
    var n := |cons| - 1;
    if k < n {
      assert cons[..n][k] == cons[k];
      DemandBelowRatio(s, cons[..n], dt, m, k);
      DemandInUnitInterval(s, cons[..n], dt, m);
      RestrictNeverRaises(Demand(s, cons[..n], dt, m), s[cons[n].target].amount, Quota(cons[n].rate, dt, m));
    }
  }

  /**
   When every input holds something, the demand is either the untouched 1
   or exactly one input's `available / required`: the minimum is attained.
   */
  lemma {:induction false} DemandAttained(s: seq<Stockpile>, cons: seq<Link>, dt: real, m: real)
    requires Targets(cons, |s|)
    requires forall k :: 0 <= k < |cons| ==> s[cons[k].target].amount > 0.0
    ensures var d := Demand(s, cons, dt, m);
      d == 1.0 ||
      exists k :: 0 <= k < |cons| && Quota(cons[k].rate, dt, m) != 0.0 &&
        d == s[cons[k].target].amount / Quota(cons[k].rate, dt, m)
  {
    if |cons| > 0 {
      var n := |cons| - 1;
      var prev := Demand(s, cons[..n], dt, m);
      DemandAttained(s, cons[..n], dt, m);
      var a, q := s[cons[n].target].amount, Quota(cons[n].rate, dt, m);
      if q != 0.0 && a / q < prev {
        assert Demand(s, cons, dt, m) == a / q;
      } else if prev != 1.0 {
        var k :| 0 <= k < n && Quota(cons[..n][k].rate, dt, m) != 0.0 &&
          prev == s[cons[..n][k].target].amount / Quota(cons[..n][k].rate, dt, m);
        assert cons[..n][k] == cons[k];
      }
    }
  }

  /** The gate's loop finds a full output exactly when one of the outputs is at its limit. */
  lemma {:induction false} AnyFullIff(s: seq<Stockpile>, prod: seq<Link>)
    requires Targets(prod, |s|)
    ensures AnyFull(s, prod) <==> exists k :: 0 <= k < |prod| && AtLimit(s[prod[k].target])
  {
    if |prod| > 0 {
      var n := |prod| - 1;
      AnyFullIff(s, prod[..n]);
      if AnyFull(s, prod[..n]) {
        var k :| 0 <= k < n && AtLimit(s[prod[..n][k].target]);
        assert AtLimit(s[prod[k].target]);
      }
      if exists k :: 0 <= k < |prod| && AtLimit(s[prod[k].target]) {
        var k :| 0 <= k < |prod| && AtLimit(s[prod[k].target]);
        if k < n {
          assert AtLimit(s[prod[..n][k].target]);
        }
      }
    }
  }

  lemma {:induction false} DrainIdle(s: seq<Stockpile>, cons: seq<Link>, dt: real, m: real)
    requires Targets(cons, |s|) && InputsNonNegative(s, cons)
    ensures Drain(s, cons, dt, m, 0.0) == s
  {
    if |cons| > 0 {
      DrainIdle(s, cons[..|cons| - 1], dt, m);
      var l := cons[|cons| - 1];
      assert Flow(l.rate, dt, m, 0.0) == 0.0;
      assert s[l.target].amount >= 0.0;
      assert s[l.target := s[l.target]] == s;
    }
  }

  lemma {:induction false} FillIdle(s: seq<Stockpile>, prod: seq<Link>, dt: real, m: real)
    requires Targets(prod, |s|)
    ensures Fill(s, prod, dt, m, 0.0) == s
  {
    if |prod| > 0 {
      FillIdle(s, prod[..|prod| - 1], dt, m);
      var l := prod[|prod| - 1];
      assert Flow(l.rate, dt, m, 0.0) == 0.0;
      assert s[l.target := s[l.target]] == s;
    }
  }

  /** A converter whose satisfaction is 0 changes nothing, provided its inputs are not negative. */
  lemma IdleConverterChangesNothing(s: seq<Stockpile>, c: Node, dt: real)
    requires IsConverter(c) && ConverterValid(c, |s|) && InputsNonNegative(s, c.consume.value)
    requires Satisfaction(s, c, dt) == 0.0
    ensures Convert(s, c, dt) == s
  {
    DrainIdle(s, c.consume.value, dt, Multiplier(c.stack));
    FillIdle(s, c.produce.value, dt, Multiplier(c.stack));
  }

  /** An input at or below 0 forces satisfaction to 0, and then nothing moves. */
  lemma EmptyInputBlocksConverter(s: seq<Stockpile>, c: Node, dt: real, k: int)
    requires IsConverter(c) && ConverterValid(c, |s|)
    requires NonNegativeRates(c.consume.value) && dt >= 0.0 && Multiplier(c.stack) >= 0.0
    requires 0 <= k < |c.consume.value| && s[c.consume.value[k].target].amount <= 0.0
    ensures Satisfaction(s, c, dt) == 0.0
    ensures InputsNonNegative(s, c.consume.value) ==> Convert(s, c, dt) == s
  {
    DemandZeroOnEmptyInput(s, c.consume.value, dt, Multiplier(c.stack), k);
    if InputsNonNegative(s, c.consume.value) {
      IdleConverterChangesNothing(s, c, dt);
    }
  }

  /** An output at its (unfloored) limit forces satisfaction to 0 whatever the inputs hold. */
  lemma FullOutputBlocksConverter(s: seq<Stockpile>, c: Node, dt: real, k: int)
    requires IsConverter(c) && ConverterValid(c, |s|)
    requires 0 <= k < |c.produce.value| && AtLimit(s[c.produce.value[k].target])
    ensures Satisfaction(s, c, dt) == 0.0
    ensures InputsNonNegative(s, c.consume.value) ==> Convert(s, c, dt) == s
  {
    AnyFullIff(s, c.produce.value);
    if InputsNonNegative(s, c.consume.value) {
      IdleConverterChangesNothing(s, c, dt);
    }
  }

  // ---------------------------------------------------------------- run_converters: apply

  /** Every stockpile the spend loop touched ends at or above 0. */
  lemma {:induction false} DrainClampsAtZero(s: seq<Stockpile>, cons: seq<Link>, dt: real, m: real, sat: real, k: int)
    requires Targets(cons, |s|) && 0 <= k < |cons|
    ensures Drain(s, cons, dt, m, sat)[cons[k].target].amount >= 0.0
  {
    var n := |cons| - 1;
    if k < n {
      DrainClampsAtZero(s, cons[..n], dt, m, sat, k);
    }
  }

  /** The spend loop leaves every stockpile it does not name unchanged. */
  lemma {:induction false} DrainFrame(s: seq<Stockpile>, cons: seq<Link>, dt: real, m: real, sat: real, i: int)
    requires Targets(cons, |s|) && 0 <= i < |s|
    requires forall k :: 0 <= k < |cons| ==> cons[k].target != i
    ensures Drain(s, cons, dt, m, sat)[i] == s[i]
  {
    if |cons| > 0 {
      DrainFrame(s, cons[..|cons| - 1], dt, m, sat, i);
    }
  }

  /** `cons[k]` is the only entry of `cons` that names its stockpile. */
  predicate SoleEntry(cons: seq<Link>, k: int)
    requires 0 <= k < |cons|
  {
    forall j :: 0 <= j < |cons| && j != k ==> cons[j].target != cons[k].target
  }

  /** A stockpile named by exactly one input entry loses that entry's flow, floored at 0. */
  lemma {:induction false} DrainSoleEntry(s: seq<Stockpile>, cons: seq<Link>, dt: real, m: real, sat: real, k: int)
    requires Targets(cons, |s|) && 0 <= k < |cons| && SoleEntry(cons, k)
    ensures var t := cons[k].target;
      Drain(s, cons, dt, m, sat)[t].amount == Max(s[t].amount - Flow(cons[k].rate, dt, m, sat), 0.0)
  {
    var n := |cons| - 1;
    var t := cons[k].target;
    if k == n {
      forall j | 0 <= j < n ensures cons[..n][j].target != t {
        assert cons[..n][j] == cons[j];
      }
      DrainFrame(s, cons[..n], dt, m, sat, t);
    } else {
      assert cons[..n][k] == cons[k];
      forall j | 0 <= j < n && j != k ensures cons[..n][j].target != cons[..n][k].target {
        assert cons[..n][j] == cons[j];
      }
      DrainSoleEntry(s, cons[..n], dt, m, sat, k);
    }
  }

  /** A quota scaled by a satisfaction at most `a / q` is at most `a`. */
  lemma ScaledQuotaWithin(q: real, sat: real, a: real)
    requires q > 0.0 && sat <= a / q
    ensures q * sat <= a
  {
    QuotientCancels(a, q);
    assert q * sat <= q * (a / q);
  }

  /** Under the sign hypotheses one converter's flow for input `k` never exceeds what that input holds. */
  lemma FlowWithinInput(s: seq<Stockpile>, c: Node, dt: real, k: int)
    requires IsConverter(c) && ConverterValid(c, |s|)
    requires NonNegativeRates(c.consume.value) && dt >= 0.0 && Multiplier(c.stack) >= 0.0
    requires InputsNonNegative(s, c.consume.value) && 0 <= k < |c.consume.value|
    ensures var l := c.consume.value[k];
      0.0 <= Flow(l.rate, dt, Multiplier(c.stack), Satisfaction(s, c, dt)) <= s[l.target].amount
  {
    var cons, m, sat := c.consume.value, Multiplier(c.stack), Satisfaction(s, c, dt);
    var l := cons[k];
    var a, q := s[l.target].amount, Quota(l.rate, dt, m);
    SatisfactionInUnitInterval(s, c, dt);
    QuotaNonNegative(l.rate, dt, m);
    assert Flow(l.rate, dt, m, sat) == q * sat;
    if sat != 0.0 && q != 0.0 {
      if a <= 0.0 {
        DemandZeroOnEmptyInput(s, cons, dt, m, k);
      }
      DemandBelowRatio(s, cons, dt, m, k);
      ScaledQuotaWithin(q, sat, a);
    }
  }

  /**
   With non-negative rates and inputs, an input named by a single entry
   loses exactly its flow: shared throttling never over-draws it, so the
   floor at 0 only matters for duplicate entries.
   */
  lemma SpendIsExact(s: seq<Stockpile>, c: Node, dt: real, k: int)
    requires IsConverter(c) && ConverterValid(c, |s|)
    requires NonNegativeRates(c.consume.value) && dt >= 0.0 && Multiplier(c.stack) >= 0.0
    requires InputsNonNegative(s, c.consume.value)
    requires 0 <= k < |c.consume.value| && SoleEntry(c.consume.value, k)
    ensures var l, m, sat := c.consume.value[k], Multiplier(c.stack), Satisfaction(s, c, dt);
      Drain(s, c.consume.value, dt, m, sat)[l.target].amount == s[l.target].amount - Flow(l.rate, dt, m, sat)
  {
    FlowWithinInput(s, c, dt, k);
    DrainSoleEntry(s, c.consume.value, dt, Multiplier(c.stack), Satisfaction(s, c, dt), k);
  }

  /** The get-paid loop adds to each stockpile its entries' quotas, scaled by the satisfaction. */
  lemma {:induction false} FillAdds(s: seq<Stockpile>, prod: seq<Link>, dt: real, m: real, sat: real, i: int)
    requires Targets(prod, |s|) && 0 <= i < |s|
    ensures Fill(s, prod, dt, m, sat)[i].amount == s[i].amount + LinkSum(prod, i, dt, m) * sat
  {
    if |prod| > 0 {
      var l := prod[|prod| - 1];
      var rest := prod[..|prod| - 1];
      FillAdds(s, rest, dt, m, sat, i);
      assert Flow(l.rate, dt, m, sat) == Quota(l.rate, dt, m) * sat;
      var x := LinkSum(rest, i, dt, m);
      var q := if l.target == i then Quota(l.rate, dt, m) else 0.0;
      assert (x + q) * sat == x * sat + q * sat;
    }
  }

  /** A converter touches only the stockpiles its two lists name. */
  lemma ConvertFrame(s: seq<Stockpile>, c: Node, dt: real, i: int)
    requires IsConverter(c) && ConverterValid(c, |s|) && 0 <= i < |s|
    requires forall k :: 0 <= k < |c.consume.value| ==> c.consume.value[k].target != i
    requires forall k :: 0 <= k < |c.produce.value| ==> c.produce.value[k].target != i
    ensures Convert(s, c, dt)[i] == s[i]
  {
    var m, sat := Multiplier(c.stack), Satisfaction(s, c, dt);
    var d := Drain(s, c.consume.value, dt, m, sat);
    DrainFrame(s, c.consume.value, dt, m, sat, i);
    FillAdds(d, c.produce.value, dt, m, sat, i);
    LinkSumUntargeted(c.produce.value, i, dt, m);
  }

  /** No converter among `nodes` names stockpile `i` in either of its lists. */
  predicate UntouchedByConverters(nodes: seq<Node>, i: int) {
    forall k :: 0 <= k < |nodes| && IsConverter(nodes[k]) ==>
      (forall j :: 0 <= j < |nodes[k].consume.value| ==> nodes[k].consume.value[j].target != i) &&
      (forall j :: 0 <= j < |nodes[k].produce.value| ==> nodes[k].produce.value[j].target != i)
  }

  /** `run_converters` leaves every stockpile that no converter names unchanged. */
  lemma {:induction false} ConvertedFrame(s: seq<Stockpile>, nodes: seq<Node>, dt: real, i: int)
    requires NodesValid(nodes, |s|) && 0 <= i < |s| && UntouchedByConverters(nodes, i)
    ensures Converted(s, nodes, dt)[i] == s[i]
  {
    if |nodes| > 0 {
      var n := |nodes| - 1;
      assert forall k :: 0 <= k < n ==> nodes[..n][k] == nodes[k];
      ConvertedFrame(s, nodes[..n], dt, i);
      if IsConverter(nodes[n]) {
        ConvertFrame(Converted(s, nodes[..n], dt), nodes[n], dt, i);
      }
    }
  }

  /** With non-negative rates, every input of a converter stays at or above 0 after its step. */
  lemma ConsumedStayNonNegative(s: seq<Stockpile>, c: Node, dt: real, k: int)
    requires IsConverter(c) && ConverterValid(c, |s|)
    requires NonNegativeRates(c.consume.value) && NonNegativeRates(c.produce.value)
    requires dt >= 0.0 && Multiplier(c.stack) >= 0.0
    requires 0 <= k < |c.consume.value|
    ensures Convert(s, c, dt)[c.consume.value[k].target].amount >= 0.0
  {
    var m, sat := Multiplier(c.stack), Satisfaction(s, c, dt);
    var t := c.consume.value[k].target;
    var d := Drain(s, c.consume.value, dt, m, sat);
    SatisfactionInUnitInterval(s, c, dt);
    DrainClampsAtZero(s, c.consume.value, dt, m, sat, k);
    FillAdds(d, c.produce.value, dt, m, sat, t);
    LinkSumNonNegative(c.produce.value, t, dt, m);
  }

  /**
   `r` is `s` with stockpile `t` emptied and every stockpile grown by the
   quotas of the `prod` entries naming it, scaled by `sat`.
   */
  predicate EmptiedAndPaid(s: seq<Stockpile>, r: seq<Stockpile>, t: int, prod: seq<Link>, dt: real, m: real, sat: real) {
    |r| == |s| &&
    forall i :: 0 <= i < |s| ==> r[i].amount == (if i == t then 0.0 else s[i].amount) + LinkSum(prod, i, dt, m) * sat
  }

  /** The get-paid loop run on a table whose stockpile `t` was just emptied. */
  lemma FillAfterEmptying(s: seq<Stockpile>, t: int, prod: seq<Link>, dt: real, m: real, sat: real)
    requires Targets(prod, |s|) && 0 <= t < |s|
    ensures EmptiedAndPaid(s, Fill(s[t := s[t].(amount := 0.0)], prod, dt, m, sat), t, prod, dt, m, sat)
  {
    var e := s[t := s[t].(amount := 0.0)];
    forall i | 0 <= i < |s|
      ensures Fill(e, prod, dt, m, sat)[i].amount ==
        (if i == t then 0.0 else s[i].amount) + LinkSum(prod, i, dt, m) * sat
    {
      FillAdds(e, prod, dt, m, sat, i);
    }
  }

  /** A converter whose spend loop emptied stockpile `t` and touched nothing else. */
  lemma ConvertAfterEmptying(s: seq<Stockpile>, c: Node, dt: real, t: int)
    requires IsConverter(c) && ConverterValid(c, |s|) && 0 <= t < |s|
    requires Drain(s, c.consume.value, dt, Multiplier(c.stack), Satisfaction(s, c, dt)) == s[t := s[t].(amount := 0.0)]
    ensures EmptiedAndPaid(s, Convert(s, c, dt), t, c.produce.value, dt, Multiplier(c.stack), Satisfaction(s, c, dt))
  {
    var m, sat := Multiplier(c.stack), Satisfaction(s, c, dt);
    assert Convert(s, c, dt) == Fill(s[t := s[t].(amount := 0.0)], c.produce.value, dt, m, sat);
    FillAfterEmptying(s, t, c.produce.value, dt, m, sat);
  }

  /** The demand loop and the spend loop for a converter with the single input `Link(t, rate)`. */
  lemma SingleInputDrained(s: seq<Stockpile>, c: Node, dt: real, t: int, rate: real)
    requires IsConverter(c) && ConverterValid(c, |s|) && 0 <= t < |s|
    requires c.consume.value == [Link(t, rate)]
    requires !AnyFull(s, c.produce.value)
    requires 0.0 < s[t].amount < Quota(rate, dt, Multiplier(c.stack))
    ensures Satisfaction(s, c, dt) == s[t].amount / Quota(rate, dt, Multiplier(c.stack)) < 1.0
    ensures Drain(s, c.consume.value, dt, Multiplier(c.stack), Satisfaction(s, c, dt)) == s[t := s[t].(amount := 0.0)]
  {
    var m := Multiplier(c.stack);
    var a, q := s[t].amount, Quota(rate, dt, m);
    var cons := c.consume.value;
    assert cons[..0] == [];
    assert Demand(s, cons, dt, m) == Restrict(1.0, a, q);
    QuotientBelowOne(a, q);
    var sat := a / q;
    assert Flow(rate, dt, m, sat) == q * sat;
    QuotientCancels(a, q);
    assert Drain(s, cons[..0], dt, m, sat) == s;
    assert Max(a - Flow(rate, dt, m, sat), 0.0) == 0.0;
  }

  /**
   A single input holding `0 < A < R`, with `R` its quota and no output
   full: satisfaction is `A / R`, the input is driven to exactly 0, and
   every output grows by its quota times that satisfaction.
   */
  lemma SingleInputThrottled(s: seq<Stockpile>, c: Node, dt: real, t: int, rate: real)
    requires IsConverter(c) && ConverterValid(c, |s|) && 0 <= t < |s|
    requires c.consume.value == [Link(t, rate)]
    requires !AnyFull(s, c.produce.value)
    requires 0.0 < s[t].amount < Quota(rate, dt, Multiplier(c.stack))
    ensures Satisfaction(s, c, dt) == s[t].amount / Quota(rate, dt, Multiplier(c.stack))
    ensures EmptiedAndPaid(s, Convert(s, c, dt), t, c.produce.value, dt, Multiplier(c.stack), Satisfaction(s, c, dt))
  {
    SingleInputDrained(s, c, dt, t, rate);
    ConvertAfterEmptying(s, c, dt, t);
  }

  // ---------------------------------------------------------------- the whole tick

  lemma {:induction false} DrainKeepsNonNegative(s: seq<Stockpile>, cons: seq<Link>, dt: real, m: real, sat: real)
    requires Targets(cons, |s|) && AllNonNegative(s)
    ensures AllNonNegative(Drain(s, cons, dt, m, sat))
  {
    if |cons| > 0 {
      DrainKeepsNonNegative(s, cons[..|cons| - 1], dt, m, sat);
    }
  }

  lemma {:induction false} FillKeepsNonNegative(s: seq<Stockpile>, prod: seq<Link>, dt: real, m: real, sat: real)
    requires Targets(prod, |s|) && AllNonNegative(s)
    requires NonNegativeRates(prod) && dt >= 0.0 && m >= 0.0 && sat >= 0.0
    ensures AllNonNegative(Fill(s, prod, dt, m, sat))
  {
    if |prod| > 0 {
      var l := prod[|prod| - 1];
      FillKeepsNonNegative(s, prod[..|prod| - 1], dt, m, sat);
      FlowNonNegative(l.rate, dt, m, sat);
    }
  }

  /** A link node whose rates and floored stack are all non-negative. */
  predicate NodeWellSigned(n: Node) {
    Multiplier(n.stack) >= 0.0 &&
    (n.produce.Some? ==> NonNegativeRates(n.produce.value)) &&
    (n.consume.Some? ==> NonNegativeRates(n.consume.value))
  }

  /** A stockpile whose effective cap is non-negative. */
  predicate StockpileWellSigned(p: Stockpile) {
    p.limit.Some? ==> p.limit.value >= 0.0 && Multiplier(p.stack) >= 0.0
  }

  lemma {:induction false} ConvertedKeepsNonNegative(s: seq<Stockpile>, nodes: seq<Node>, dt: real)
    requires NodesValid(nodes, |s|) && AllNonNegative(s) && dt >= 0.0
    requires forall k :: 0 <= k < |nodes| ==> NodeWellSigned(nodes[k])
    ensures AllNonNegative(Converted(s, nodes, dt))
  {
    if |nodes| > 0 {
      var n := nodes[|nodes| - 1];
      var t := Converted(s, nodes[..|nodes| - 1], dt);
      ConvertedKeepsNonNegative(s, nodes[..|nodes| - 1], dt);
      if IsConverter(n) {
        var m := Multiplier(n.stack);
        SatisfactionInUnitInterval(t, n, dt);
        var sat := Satisfaction(t, n, dt);
        DrainKeepsNonNegative(t, n.consume.value, dt, m, sat);
        FillKeepsNonNegative(Drain(t, n.consume.value, dt, m, sat), n.produce.value, dt, m, sat);
      }
    }
  }

  /**
   A tick keeps every amount non-negative when all rates, `dt`, stack
   floors and limits are non-negative.
   */
  lemma TickKeepsNonNegative(s: seq<Stockpile>, nodes: seq<Node>, dt: real)
    requires NodesValid(nodes, |s|) && AllNonNegative(s) && dt >= 0.0
    requires forall k :: 0 <= k < |nodes| ==> NodeWellSigned(nodes[k])
    requires forall i :: 0 <= i < |s| ==> StockpileWellSigned(s[i])
    ensures AllNonNegative(Ticked(s, nodes, dt))
  {
    var p := Produced(s, nodes, dt);
    forall i | 0 <= i < |s| ensures p[i].amount >= 0.0 {
      ProducerSumNonNegative(nodes, i, dt);
    }
    var c := Capped(p);
    forall i | 0 <= i < |s| ensures c[i].amount >= 0.0 {
      if p[i].limit.Some? {
        assert Bound(p[i]) == p[i].limit.value * Multiplier(p[i].stack);
        assert Bound(p[i]) >= 0.0;
      }
    }
    ConvertedKeepsNonNegative(c, nodes, dt);
  }
}
