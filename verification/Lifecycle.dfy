/** Lifecycle states and the transitions the tracker accepts.  The deprecated legacy states are not part of this
    model. */
module Lifecycle {
  datatype State = Created | Starting | Recovering | Ready | Draining | Stopping | Stopped | Fatal

  predicate CanTransition(from: State, to: State) {
    match to
    case Fatal => !from.Fatal? && !from.Stopped?
    case Starting => from.Created?
    case Recovering => from.Starting?
    case Ready => from.Recovering?
    case Draining => from.Ready?
    case Stopping => from.Draining?
    case Stopped => from.Stopping?
    case Created => false
  }

  /** Every transition on the way from a state is accepted. */
  predicate Accepted(from: State, path: seq<State>)
    decreases |path|
  {
    path == [] || (CanTransition(from, path[0]) && Accepted(path[0], path[1..]))
  }

  /** When a node that lives well is in a state. */
  function Age(s: State): nat {
    match s
    case Created => 0
    case Starting => 1
    case Recovering => 2
    case Ready => 3
    case Draining => 4
    case Stopping => 5
    case Stopped => 6
    case Fatal => 7
  }

  /** The i-th state has the next age, or it is the last and fatal, before the node has stopped. */
  predicate AgeOk(from: State, path: seq<State>, i: int)
    requires 0 <= i < |path|
  {
    Age(from) + i < 6 && (Age(path[i]) == Age(from) + i + 1 || (path[i] == Fatal && i == |path| - 1))
  }

  ghost predicate Ages(from: State, path: seq<State>) { forall i :: 0 <= i < |path| ==> AgeOk(from, path, i) }

  lemma FirstAge(from: State, next: State)
    ensures CanTransition(from, next) <==> Age(from) < 6 && (Age(next) == Age(from) + 1 || next == Fatal)
  {
  }

  lemma AgesTail(from: State, path: seq<State>)
    requires path != [] && CanTransition(from, path[0])
    ensures Ages(from, path) <==> Ages(path[0], path[1..])
  {
    var next, more := path[0], path[1..];
    FirstAge(from, next);
    if Ages(from, path) {
      assert AgeOk(from, path, 0);
      forall i | 0 <= i < |more| ensures AgeOk(next, more, i) { assert AgeOk(from, path, i + 1); }
    }
    if Ages(next, more) {
      assert more != [] ==> AgeOk(next, more, 0);
      forall i | 0 <= i < |path| ensures AgeOk(from, path, i) {
        if i > 0 { assert AgeOk(next, more, i - 1); }
      }
    }
  }

  /** Exactly which lives of a node the tracker accepts: it goes through the states in order, each once, and may become
      fatal at any time before it has stopped; nothing follows. */
  lemma {:induction false} AcceptedIff(from: State, path: seq<State>)
    ensures Accepted(from, path) <==> Ages(from, path)
    decreases |path|
  {
    if path != [] {
      FirstAge(from, path[0]);
      AcceptedIff(path[0], path[1..]);
      if CanTransition(from, path[0]) {
        AgesTail(from, path);
      } else {
        assert !AgeOk(from, path, 0);
      }
    }
  }
}
