/**
 The components of the resource-flow engine: stockpiles (`Storage`,
 `StorageLimit`, `Stack`) and link nodes (`Produce`, `Consume`, `Stack`).
 Entity handles become integer indices into the stockpile table, and
 `f32` quantities become `real`.
 */
module EcoTypes {

  datatype Option<T> = None | Some(value: T)

  /** One `(entity, rate)` entry of a `Produce` or `Consume` list. */
  datatype Link = Link(target: int, rate: real)

  /** A storage entity: its `Storage` amount, optional `StorageLimit` and optional `Stack`. */
  datatype Stockpile = Stockpile(amount: real, limit: Option<real>, stack: Option<real>)

  /**
   A link entity. Which system handles it depends only on which of the two
   lists are present, as in the ECS queries: a pure producer has `Produce`
   and no `Consume`, a converter has both.
   */
  datatype Node = Node(produce: Option<seq<Link>>, consume: Option<seq<Link>>, stack: Option<real>)

  predicate IsProducer(n: Node) { n.produce.Some? && n.consume.None? }

  predicate IsConverter(n: Node) { n.produce.Some? && n.consume.Some? }

  /** The raw stack multiplier: a missing `Stack` counts as 1. */
  function StackOrOne(stack: Option<real>): real {
    if stack.Some? then stack.value else 1.0
  }

  /** `f32::floor` of the stack multiplier, a missing `Stack` counting as 1. */
  function Multiplier(stack: Option<real>): (m: real)
    ensures m <= StackOrOne(stack) < m + 1.0
    ensures m.Floor as real == m
    ensures stack.None? ==> m == 1.0
  {
    StackOrOne(stack).Floor as real
  }

  function Min(a: real, b: real): real { if a <= b then a else b }

  function Max(a: real, b: real): real { if a >= b then a else b }
}
