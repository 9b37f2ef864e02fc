/** The loops of the system read a stream of events (lines, chunks, queued
    strings) one at a time and stop at some of them. A `Trace` records how
    many events such a loop consumed and what it produced, in order. */
module Traces {

  datatype Trace<T> = Trace(consumed: nat, items: seq<T>)

  /** A run that consumed `consumed` events producing `items`, then went on as `rest`. */
  function Then<T>(consumed: nat, items: seq<T>, rest: Trace<T>): Trace<T>
  {
    Trace(consumed + rest.consumed, items + rest.items)
  }

  lemma ThenTwice<T>(c1: nat, s1: seq<T>, c2: nat, s2: seq<T>, rest: Trace<T>)
    ensures Then(c1, s1, Then(c2, s2, rest)) == Then(c1 + c2, s1 + s2, rest)
  {
    assert s1 + (s2 + rest.items) == (s1 + s2) + rest.items;
  }
}
