/** A view's change log and the state it collapses to. */
module ViewState {
  import opened Prelude
  import opened ViewRowKey

  /** One stored change of the view: a row's multiplicity moves by `weight`. */
  datatype Change = Change(epoch: nat, row: Row, weight: int)

  datatype Stored = Stored(row: Row, weight: int)

  type State = map<string, Stored>

  /** The columns of a row that the primary key names; indices beyond the row are passed over. */
  function Pick(row: Row, pk: seq<nat>): Row {
    if pk == [] then [] else (if pk[0] < |row| then [row[pk[0]]] else []) + Pick(row, pk[1..])
  }

  /** What a row is grouped by: its primary key, or the whole row if there is none. */
  function Grouping(row: Row, pk: seq<nat>): Row { if pk == [] then row else Pick(row, pk) }

  lemma {:induction false} PickIff(a: Row, b: Row, pk: seq<nat>)
    requires forall i :: 0 <= i < |pk| ==> pk[i] < |a| && pk[i] < |b|
    ensures Pick(a, pk) == Pick(b, pk) <==> forall i :: 0 <= i < |pk| ==> a[pk[i]] == b[pk[i]]
    ensures |Pick(a, pk)| == |pk| == |Pick(b, pk)|
  {
    if pk != [] {
      PickIff(a, b, pk[1..]);
      assert Pick(a, pk) == [a[pk[0]]] + Pick(a, pk[1..]) && Pick(b, pk) == [b[pk[0]]] + Pick(b, pk[1..]);
      assert Pick(a, pk)[0] == a[pk[0]] && Pick(a, pk)[1..] == Pick(a, pk[1..]);
      assert Pick(b, pk)[0] == b[pk[0]] && Pick(b, pk)[1..] == Pick(b, pk[1..]);
      assert forall i :: 1 <= i < |pk| ==> pk[i] == pk[1..][i - 1];
      assert (forall i :: 0 <= i < |pk| ==> a[pk[i]] == b[pk[i]]) <==>
               a[pk[0]] == b[pk[0]] && forall i :: 0 <= i < |pk[1..]| ==> a[pk[1..][i]] == b[pk[1..][i]];
    }
  }

  /** Which rows are one group: those that agree on the primary key, or with no primary key equal rows. */
  lemma SameGroupIff(a: Row, b: Row, pk: seq<nat>)
    requires forall i :: 0 <= i < |pk| ==> pk[i] < |a| && pk[i] < |b|
    ensures Grouping(a, pk) == Grouping(b, pk) <==>
              if pk == [] then a == b else forall i :: 0 <= i < |pk| ==> a[pk[i]] == b[pk[i]]
  {
    PickIff(a, b, pk);
  }

  /** The multiplicity of a group after all changes. */
  function Weight(log: seq<Change>, pk: seq<nat>, group: Row): int {
    if log == [] then 0
    else
      var last := log[|log| - 1];
      Weight(log[..|log| - 1], pk, group) + if Grouping(last.row, pk) == group then last.weight else 0
  }

  /** The row of the last change of a group. */
  function LastRow(log: seq<Change>, pk: seq<nat>, group: Row): Option<Row> {
    if log == [] then None
    else
      var last := log[|log| - 1];
      if Grouping(last.row, pk) == group then Some(last.row) else LastRow(log[..|log| - 1], pk, group)
  }

  lemma {:induction false} WeightConcat(a: seq<Change>, b: seq<Change>, pk: seq<nat>, group: Row)
    ensures Weight(a + b, pk, group) == Weight(a, pk, group) + Weight(b, pk, group)
    decreases |b|
  {
    if b == [] {
      assert a + b == a;
    } else {
      WeightConcat(a, b[..|b| - 1], pk, group);
      assert (a + b)[..|a + b| - 1] == a + b[..|b| - 1];
    }
  }

  // ---- Collapsing the log ---------------------------------------------------------------------------

  /** One round of `materialize_view_state`: `key` is the change's key. */
  function Collapse1(state: State, c: Change, key: string): State {
    if key in state then
      var weight := state[key].weight + c.weight;
      if weight == 0 then state - {key} else state[key := Stored(c.row, weight)]
    else if c.weight != 0 then state[key := Stored(c.row, c.weight)]
    else state
  }

  function Collapse(log: seq<Change>, pk: seq<nat>): State {
    if log == [] then map[]
    else
      var last := log[|log| - 1];
      Collapse1(Collapse(log[..|log| - 1], pk), last, Key(Grouping(last.row, pk)))
  }

  lemma CollapseNext(log: seq<Change>, pk: seq<nat>, i: nat)
    requires i < |log|
    ensures Collapse(log[..i + 1], pk) == Collapse1(Collapse(log[..i], pk), log[i], Key(Grouping(log[i].row, pk)))
  {
    assert log[..i + 1][..i] == log[..i];
  }

  lemma RemoveUpdated(state: State, key: string, stored: Stored)
    ensures state[key := stored] - {key} == state - {key}
  {}

  /** One change: its group's entry is updated, and removed when the multiplicity reaches zero. */
  method AddChange(before: State, change: Change, key: string) returns (state: State)
    ensures state == Collapse1(before, change, key)
  {
    state := before;
    if key in state {
      var weight := state[key].weight + change.weight;
      state := state[key := Stored(change.row, weight)];
      if weight == 0 {
        RemoveUpdated(before, key, state[key]);
        state := state - {key};
      }
    } else if change.weight != 0 {
      state := state[key := Stored(change.row, change.weight)];
    }
  }

  /** materialize_view_state */
  method Materialize(log: seq<Change>, pk: seq<nat>) returns (state: State)
    ensures state == Collapse(log, pk)
  {
    state := map[];
    for i := 0 to |log|
      invariant state == Collapse(log[..i], pk)
    {
      CollapseNext(log, pk, i);
      state := AddChange(state, log[i], Key(Grouping(log[i].row, pk)));
    }
    assert log[..|log|] == log;
  }

  /** The multiplicity a state gives to a group. */
  function Multiplicity(state: State, group: Row): int {
    if Key(group) in state then state[Key(group)].weight else 0
  }

  /** Every stored row is stored under its group's key with a multiplicity that is not zero. */
  ghost predicate Normal(state: State, pk: seq<nat>) {
    forall key :: key in state ==> Key(Grouping(state[key].row, pk)) == key && state[key].weight != 0
  }

  lemma Collapse1Adds(state: State, c: Change, pk: seq<nat>, group: Row)
    requires Normal(state, pk)
    ensures var state' := Collapse1(state, c, Key(Grouping(c.row, pk)));
            && Normal(state', pk)
            && Multiplicity(state', group) ==
                 Multiplicity(state, group) + (if Grouping(c.row, pk) == group then c.weight else 0)
            && (Key(group) in state' && Grouping(c.row, pk) == group ==> state'[Key(group)].row == c.row)
            && (Key(group) in state' && Grouping(c.row, pk) != group ==>
                  Key(group) in state && state'[Key(group)].row == state[Key(group)].row)
  {
    if Key(Grouping(c.row, pk)) == Key(group) {
      KeyIsUnique(Grouping(c.row, pk), group);
    }
  }

  /** The collapsed state holds exactly the groups whose multiplicity is not zero, each once, with that multiplicity
      and the row of the group's last change. */
  lemma {:induction false} CollapseIsExact(log: seq<Change>, pk: seq<nat>, group: Row)
    ensures Normal(Collapse(log, pk), pk) && Multiplicity(Collapse(log, pk), group) == Weight(log, pk, group)
    ensures Key(group) in Collapse(log, pk) <==> Weight(log, pk, group) != 0
    ensures Key(group) in Collapse(log, pk) ==>
              var stored := Collapse(log, pk)[Key(group)];
              stored.weight == Weight(log, pk, group) && LastRow(log, pk, group) == Some(stored.row)
              && Grouping(stored.row, pk) == group
  {
    if log != [] {
      CollapseIsExact(log[..|log| - 1], pk, group);
      Collapse1Adds(Collapse(log[..|log| - 1], pk), log[|log| - 1], pk, group);
    }
    if Key(group) in Collapse(log, pk) {
      KeyIsUnique(Grouping(Collapse(log, pk)[Key(group)].row, pk), group);
    }
  }
}
