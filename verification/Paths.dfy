/** Paths through any system that advances one step at a time. */
module Paths {
  import opened Prelude

  /** Where a list of steps leads; `None` if one of them cannot be taken. */
  function Path<S, E>(advance: (S, E) -> Option<S>, x: S, steps: seq<E>): Option<S> {
    if steps == [] then Some(x)
    else
      var before := Path(advance, x, steps[..|steps| - 1]);
      if before.None? then None else advance(before.value, steps[|steps| - 1])
  }

  lemma PathMore<S, E>(advance: (S, E) -> Option<S>, x: S, steps: seq<E>, mid: S, s: E)
    requires Path(advance, x, steps) == Some(mid)
    ensures Path(advance, x, steps + [s]) == advance(mid, s)
  {
    assert (steps + [s])[..|steps|] == steps;
  }

  /** Paths compose. */
  lemma {:induction false} PathJoin<S, E>(advance: (S, E) -> Option<S>, x: S, first: seq<E>, mid: S, second: seq<E>)
    requires Path(advance, x, first) == Some(mid)
    ensures Path(advance, x, first + second) == Path(advance, mid, second)
    decreases |second|
  {
    if second == [] {
      assert first + second == first;
    } else {
      PathJoin(advance, x, first, mid, second[..|second| - 1]);
      assert (first + second)[..|first + second| - 1] == first + second[..|second| - 1];
    }
  }
}
