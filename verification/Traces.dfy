/** A log of what happened to numbered things, and what it says of each of them. */
module Traces {

  datatype Event<K> = Event(index: nat, kind: K)

  /** What happened to one of them, in order. */
  function Trace<K>(log: seq<Event<K>>, i: nat): seq<K> {
    if log == [] then []
    else Trace(log[..|log| - 1], i) + (if log[|log| - 1].index == i then [log[|log| - 1].kind] else [])
  }

  method Log<K>(before: seq<Event<K>>, i: nat, kind: K) returns (log: seq<Event<K>>)
    ensures log == before + [Event(i, kind)]
    ensures forall j: nat :: Trace(log, j) == Trace(before, j) + (if j == i then [kind] else [])
  {
    log := before + [Event(i, kind)];
    assert log[..|before|] == before;
  }
}
