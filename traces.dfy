/** What a script does to the world, as an ordered list of effects of its
    own kind, together with how the computation ended. */
module Traces {
  import opened PyValues

  /** The effects of a computation, in order, and how it ended. Effects that
      happened before an exception stay in the trace. */
  datatype Trace<E, T> = Trace(effects: seq<E>, result: Result<T>)

  /** Effects that happened before a computation, prefixed to its trace. */
  function Then<E, T>(effects: seq<E>, t: Trace<E, T>): Trace<E, T>
  {
    Trace(effects + t.effects, t.result)
  }

  /** Effects before effects before a trace are their concatenation before it. */
  lemma ThenThen<E, T>(first: seq<E>, second: seq<E>, t: Trace<E, T>)
    ensures Then(first, Then(second, t)) == Then(first + second, t)
  {
    assert first + (second + t.effects) == (first + second) + t.effects;
  }
}
