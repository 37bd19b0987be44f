# Resource-flow tick engine (bevy_eco_flow)

This project models the tick engine of `src/eco.rs`, a small Bevy plugin for
a resource economy. It is written in Dafny, and every tick runs three systems
in a fixed order:

1. `run_producers`: every pure producer adds `rate * dt * floor(stack)` to
   each stockpile it names. There is no cap at this point, and entries that
   name something other than a stockpile are dropped.
2. `apply_caps`: every stockpile that has a `StorageLimit` is clamped to
   `limit * floor(stack)`.
3. `run_converters`: converters run one after the other. For each one:
   - It computes a satisfaction scalar from its inputs. An empty input gives
     0; otherwise the scalar is the minimum of `available / required`,
     starting from 1.
   - An output at or over `limit * stack` forces the scalar to 0. Here the
     stack is the raw value, not floored.
   - It spends `rate * dt * floor(stack) * satisfaction` from each input,
     flooring the amount at 0.
   - It pays the same kind of quantity into each output.

The project is split into five modules:

- `EcoTypes`: the components, turned into values.
  - `Stockpile` holds `Storage`, `StorageLimit` and `Stack`.
  - `Node` holds `Produce`, `Consume` and `Stack`.
  - `Link` is one `(entity, rate)` entry.
- `EcoRules`: each system as a function on the stockpile table.
- `EcoWorld`: the class `Economy`. It holds the stockpiles in an array that
  the systems update in place. Each system is a method with loops, proved to
  compute its function in `EcoRules`.
- `EcoLaws`: the properties of those functions.
- `EcoScenarios`: the sample topology spawned at startup, plus small tables
  that pin down the quirks of the converter step.

How the model represents the source:

- Entities become indices. Stockpiles are indices into the table, and link
  nodes are a sequence kept in query iteration order.
- `f32` becomes `real`.
- `f32::floor` becomes `Floor`.
- `Time::delta_seconds` becomes the parameter `dt`.

The model keeps three quirks of the code as they are:

- **The output gate uses the raw stack.** `apply_caps` floors the stack, but
  the output gate multiplies the limit by the raw stack. A stockpile can
  therefore be over its floored cap and still not count as full
  (`GateUsesRawStack`).
- **One converter spends before it pays.** Each input is also floored at 0.
  When the same stockpile is listed twice as an input and once as an output,
  this order gives a different result than paying first would
  (`SpendBeforePay`).
- **Satisfaction 0 can still change a negative input.** A converter at
  satisfaction 0 still lifts a negative input to 0.

## Model

| member | source | states |
|---|---|---|
| EcoTypes.Multiplier | src/eco.rs:154 | The stack multiplier is the floor of the `Stack` value: an integer `m` with `m <= stack < m + 1`. A missing `Stack` counts as 1. |
| EcoRules.Cap | src/eco.rs:222-228 | One stockpile after `apply_caps`. Limit and stack are kept, and the amount never grows. A limited stockpile ends at or below `limit * floor(stack)`. It is left unchanged when already within that bound, and set exactly to the bound when above it. An unlimited stockpile is untouched. |
| EcoRules.Drain | src/eco.rs:202-206 | The spend loop changes only amounts: the table keeps its size, limits and stacks. |
| EcoRules.Fill | src/eco.rs:208-212 | The pay loop changes only amounts. |
| EcoRules.Convert | src/eco.rs:176-213 | One converter's pass changes only amounts. |
| EcoRules.Converted | src/eco.rs:171-215 | `run_converters` changes only amounts. |
| EcoRules.Ticked | src/eco.rs:15-20 | A whole tick (producers, then caps, then converters) changes only amounts. |
| EcoWorld.Economy.constructor | src/eco.rs:24-56 | The world starts with the given stockpiles and link nodes. Given converters whose entries name existing stockpiles, it satisfies `Valid`, which the systems need. |
| EcoWorld.Economy.CollectSums | src/eco.rs:151-163 | The `sums` map built by the producer loop. Each entry is the sum of `rate * dt * floor(stack)` over the pure producers' entries for that entity. An entity without an entry has total 0. The method changes no state. |
| EcoWorld.Economy.RunProducers | src/eco.rs:146-170 | After `run_producers`, each stockpile holds its old amount plus its producer total (`Produced`). Nothing else changes. |
| EcoWorld.Economy.ApplyCaps | src/eco.rs:222-228 | After `apply_caps`, each stockpile is `Cap` of its old value (`Capped`). |
| EcoWorld.Economy.ComputeSatisfaction | src/eco.rs:179-200 | The demand loop and then the output gate compute `Satisfaction` of the current table. The method changes no state. |
| EcoWorld.Economy.Spend | src/eco.rs:202-206 | The spend loop updates the table in place to `Drain` of the old table: each input in turn loses its flow, floored at 0. |
| EcoWorld.Economy.Pay | src/eco.rs:208-212 | The pay loop updates the table in place to `Fill` of the old table: each output in turn gains its flow. |
| EcoWorld.Economy.RunConverter | src/eco.rs:176-213 | One converter updates the table in place to `Convert` of the old table: it spends first, then pays. |
| EcoWorld.Economy.RunConverters | src/eco.rs:171-215 | All converters run in order, each on the table its predecessors left (`Converted`). |
| EcoWorld.Economy.Tick | src/eco.rs:15-20 | The chained systems turn the table into `Ticked` of the old table. |
| EcoLaws.LinkSumUntargeted | src/eco.rs:155-161 | A producer list with no entry for `e` contributes 0 to `e`. |
| EcoLaws.LinkSumNonNegative | src/eco.rs:155-161 | With non-negative rates, `dt` and stack floor, a producer list contributes a non-negative amount. |
| EcoLaws.ProducerSumUntargeted | src/eco.rs:153-163 | A stockpile named by no pure producer gets a total of 0. |
| EcoLaws.ProducedUntargetedUnchanged | src/eco.rs:164-168 | A stockpile named by no pure producer is unchanged by `run_producers`. |
| EcoLaws.ProducerSumAppend | src/eco.rs:153-163 | The producer total over two groups of nodes is the sum of the two groups' totals. |
| EcoLaws.ProducerSumPermutation | src/eco.rs:153-163 | Any permutation of the nodes (same multiset) gives the same producer total for every stockpile. |
| EcoLaws.ProducerOrderIrrelevant | src/eco.rs:153-168 | `run_producers` gives the same table for any permutation of the nodes, so the query's visiting order does not matter. |
| EcoLaws.OnlyPureProducersCount | src/eco.rs:148 | Only nodes with `Produce` and without `Consume` take part in the producer step. Converters and other nodes add nothing. |
| EcoLaws.DroppedTargetsIgnored | src/eco.rs:164-168 | A producer whose entries name only non-stockpile entities leaves the table unchanged. |
| EcoLaws.ProducerSumNonNegative | src/eco.rs:153-163 | With non-negative producer rates, stack floors and `dt`, every producer total is non-negative. |
| EcoLaws.CapsIdempotent | src/eco.rs:222-228 | Applying the caps twice gives the same table as applying them once. |
| EcoLaws.DemandInUnitInterval | src/eco.rs:179-189 | With non-negative rates, `dt` and stack floor, the satisfaction after the demand loop lies in [0, 1]. |
| EcoLaws.SatisfactionInUnitInterval | src/eco.rs:179-200 | A converter's satisfaction lies in [0, 1], under the same sign hypotheses. |
| EcoLaws.DemandZeroOnEmptyInput | src/eco.rs:184-185 | With non-negative consume rates, `dt` and stack floor, any input at or below 0 makes the demand 0, whatever the other inputs hold. |
| EcoLaws.DemandBelowRatio | src/eco.rs:179-189 | Under the same sign hypotheses, the demand is at most `available / required` for every input that holds something and has a positive quota. |
| EcoLaws.DemandAttained | src/eco.rs:179-189 | When every input holds something, the demand is either 1 or exactly one input's `available / required`. The minimum is attained. |
| EcoLaws.AnyFullIff | src/eco.rs:191-200 | The gate fires if and only if some output is limited and at or over `limit * stack`, with the stack unfloored. |
| EcoLaws.DrainIdle | src/eco.rs:202-206 | At satisfaction 0, the spend loop leaves non-negative inputs unchanged. |
| EcoLaws.FillIdle | src/eco.rs:208-212 | At satisfaction 0, the pay loop changes nothing. |
| EcoLaws.IdleConverterChangesNothing | src/eco.rs:176-213 | A converter with satisfaction 0 and non-negative inputs leaves the table unchanged. |
| EcoLaws.EmptyInputBlocksConverter | src/eco.rs:184-185 | With non-negative consume rates, `dt` and stack floor, a converter with an empty input has satisfaction 0. It then leaves the table unchanged when its inputs are non-negative. |
| EcoLaws.FullOutputBlocksConverter | src/eco.rs:191-200 | A converter with an output at its unfloored limit has satisfaction 0. It then leaves the table unchanged when its inputs are non-negative. |
| EcoLaws.DrainClampsAtZero | src/eco.rs:202-206 | Every stockpile that the spend loop touches ends at 0 or more. |
| EcoLaws.DrainFrame | src/eco.rs:202-206 | A stockpile that no input names is untouched by the spend loop. |
| EcoLaws.DrainSoleEntry | src/eco.rs:202-206 | A stockpile named by exactly one input entry ends at `max(old - flow, 0)`, where the flow is `rate * dt * floor(stack) * satisfaction`. |
| EcoLaws.FlowWithinInput | src/eco.rs:179-203 | With non-negative rates, `dt`, stack floor and inputs, each input's flow lies between 0 and what that input holds. Shared throttling never over-draws an input. |
| EcoLaws.SpendIsExact | src/eco.rs:179-206 | Under those hypotheses, an input named by a single entry ends at exactly `old - flow`. The floor at 0 only matters for duplicate entries. |
| EcoLaws.FillAdds | src/eco.rs:208-212 | The pay loop adds exactly `satisfaction` times the output's total quota for each stockpile. Duplicate entries add up. |
| EcoLaws.ConvertFrame | src/eco.rs:176-213 | A stockpile that a converter neither consumes nor produces is untouched by it. |
| EcoLaws.ConvertedFrame | src/eco.rs:171-215 | A stockpile that no converter names in either list is untouched by the whole of `run_converters`. |
| EcoLaws.ConsumedStayNonNegative | src/eco.rs:202-212 | With non-negative consume and produce rates, `dt >= 0` and `floor(stack) >= 0`, every input of a converter ends its pass at 0 or more. |
| EcoLaws.FillAfterEmptying | src/eco.rs:208-212 | Paying into a table whose input was emptied adds each output's quota share on top of that emptied table. |
| EcoLaws.ConvertAfterEmptying | src/eco.rs:176-213 | When the spend loop empties input `t`, the converter's result is the emptied table plus its payment. |
| EcoLaws.SingleInputDrained | src/eco.rs:179-206 | Take a converter with one input holding `0 < available < quota` and no output at its gate limit. It runs at satisfaction `available / quota`, which is below 1, and empties that input exactly. |
| EcoLaws.SingleInputThrottled | src/eco.rs:179-212 | Single-input throttling, for one input holding `0 < available < quota` and no output at its gate limit. The satisfaction is `available / quota`, the input ends at 0, and each output gains its quota times that fraction. |
| EcoLaws.DrainKeepsNonNegative | src/eco.rs:202-206 | The spend loop keeps a non-negative table non-negative. |
| EcoLaws.FillKeepsNonNegative | src/eco.rs:208-212 | With non-negative rates, `dt`, stack floor and satisfaction, the pay loop keeps a non-negative table non-negative. |
| EcoLaws.ConvertedKeepsNonNegative | src/eco.rs:171-215 | `run_converters` keeps a non-negative table non-negative when rates, stack floors and `dt` are non-negative. |
| EcoLaws.TickKeepsNonNegative | src/eco.rs:15-20 | A whole tick keeps every amount non-negative when rates, `dt`, stack floors and limits are non-negative. |
| EcoScenarios.SampleTick | src/eco.rs:25-56 | In the sample topology with `dt = 1`, the radiators lift Cooling to 100.1 and the cap brings it back to 100. The generators then run fully satisfied: Cooling ends at 89.8, Energy at 110, and Mass stays at 0. |
| EcoScenarios.SampleWorldTick | src/eco.rs:15-56 | The `Economy` built from the sample and advanced by one `Tick(1)` holds Cooling 89.8, Energy 110 and Mass 0. The method changes no state outside the object it creates. |
| EcoScenarios.SingleProducerDelta | src/eco.rs:153-167 | One producer with rate `r` and stack `st` adds exactly `r * dt * floor(st)` to its target, a missing stack counting as 1. |
| EcoScenarios.StackIsFloored | src/eco.rs:224-226 | For caps and rates, a stack of 2.9 acts exactly as a stack of 2. |
| EcoScenarios.GateUsesRawStack | src/eco.rs:191-199 | Take limit 10, stack 2.9 and amount 25. The cap pass clamps this to 20, yet the gate does not fire (25 < 29), so a converter still pays into it (25 becomes 26). With stack 2 the gate fires. |
| EcoScenarios.TickCanEndOverCap | src/eco.rs:15-20 | Caps run before converters, so Energy at 195 of 200 ends the tick at 205. Only the next cap pass brings it back to 200. |
| EcoScenarios.EarlierConverterHasPriority | src/eco.rs:176-213 | Two converters compete for 10 units of one input. Whichever runs first takes everything; the other finds the input empty and does nothing. |
| EcoScenarios.FirstTakesAll | src/eco.rs:176-213 | The same priority result for either pair of output stockpiles. |
| EcoScenarios.SpendBeforePay | src/eco.rs:202-212 | The table is one stockpile holding 1. The converter consumes it twice at rate 1 and produces it once at rate 1. Spending first (the code's order) ends at 1; paying first would end at 0. |
| EcoScenarios.DoubleInputSatisfied | src/eco.rs:179-200 | That converter runs at satisfaction 1. |
| EcoScenarios.SpendThenPay | src/eco.rs:202-212 | Spending twice and then paying once ends at 1. |
| EcoScenarios.PayThenSpend | src/eco.rs:202-212 | Paying once and then spending twice ends at 0. |
| EcoScenarios.NegativeRateAfterEmptyInput | src/eco.rs:184-187 | Without the sign hypotheses the hard zero is not final. An empty input followed by an input holding 1 at rate -1 gives a demand of `min(0, 1 / -1) = -1`. |

## Left out

- Bevy itself is not modelled: the `App`, the plugin registration, `Commands`, the ECS query machinery and `Res<Time>`.
  - The query iteration order is modelled as the order of the node sequence.
  - `dt` is a parameter.
- `Label` and the UI camera and text spawned by `setup_eco` are presentation only, and are not modelled.
- `ResourceMap` is a startup registry from names to entities, used to wire links by name (src/eco.rs:31, 42, 55). It is not modelled: the sample topology names its stockpiles directly by index.
- `output` and `output_gui` only print or display amounts and change nothing. They are not part of this model.
- `_run_sinks` has an empty body and is not in the chain. `AllowOverflow` is never read.
- `f32` arithmetic is modelled with exact reals, so rounding, NaN and infinities are absent. One IEEE case is kept: a demand loop whose required amount is 0 (for example when `dt` is 0) leaves the satisfaction unchanged, because a positive amount divided by +0 is +infinity and `min` ignores it. A required amount of -0 is not distinguished.
- An entity that is both a stockpile and a link node is not represented. Stockpiles and link nodes live in separate index spaces.
- A converter entry that names a non-stockpile makes `unwrap` panic in the code. The model excludes this as a precondition (`Economy.Valid`).
  - Producer entries that name a non-stockpile are silently dropped, as in the code.
- EcoLaws.EmptyInputBlocksConverter states "nothing changes" only for non-negative inputs, because the spend loop still lifts a negative input to 0. Its satisfaction of 0 also assumes non-negative consume rates, `dt` and stack floor: after an empty input, an input with a negative rate can push the satisfaction below 0 (`NegativeRateAfterEmptyInput`).
- EcoLaws.DemandZeroOnEmptyInput assumes non-negative consume rates, `dt` and stack floor. After an empty input, an input with a negative rate can push the demand below 0 (`NegativeRateAfterEmptyInput`).
- EcoLaws.DemandBelowRatio, EcoLaws.FlowWithinInput and EcoLaws.SpendIsExact assume non-negative rates, `dt` and stack floor, because the code checks none of these. The last two also assume non-negative inputs.
- EcoLaws.FullOutputBlocksConverter states "nothing changes" only for non-negative inputs, for the same reason.
- EcoLaws.IdleConverterChangesNothing assumes non-negative inputs, for the same reason.
- EcoLaws.SatisfactionInUnitInterval assumes non-negative consume rates, `dt` and stack floor. The code checks none of these, and a negative quota can push the ratio outside [0, 1].
- EcoLaws.TickKeepsNonNegative assumes non-negative rates, `dt`, stack floors and limits. The code checks none of these.
