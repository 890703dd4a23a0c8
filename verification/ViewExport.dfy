/** What the exported envelopes say: a snapshot of a view's change log, then its later changes epoch by epoch. */
module ViewExport {
  import opened Prelude
  import opened ViewRowKey
  import opened ViewState

  // ---- Staging the next envelope ---------------------------------------------------------------------

  datatype Envelope = Snapshot(rows: State) | Changes(changes: seq<Change>)

  datatype Cursor = Cursor(snapshotDone: bool, viewEpoch: Option<nat>)

  datatype Stage = Nothing | NegativeRow | Ready(envelope: Envelope, cursor: Cursor)

  /** Beyond the cursor's epoch. */
  predicate Beyond(c: Change, viewEpoch: Option<nat>) { viewEpoch.None? || c.epoch > viewEpoch.value }

  function Kept(c: Change, viewEpoch: Option<nat>): seq<Change> { if Beyond(c, viewEpoch) then [c] else [] }

  /** The changes beyond the cursor. */
  function Fresh(log: seq<Change>, viewEpoch: Option<nat>): (r: seq<Change>) {
    if log == [] then []
    else Kept(log[0], viewEpoch) + Fresh(log[1..], viewEpoch)
  }

  /** How many changes at the front have this epoch. */
  function Leading(log: seq<Change>, epoch: nat): (n: nat)
    ensures n <= |log|
  {
    if log == [] || log[0].epoch != epoch then 0 else 1 + Leading(log[1..], epoch)
  }

  function LastEpoch(log: seq<Change>): Option<nat> { if log == [] then None else Some(log[|log| - 1].epoch) }

  /** What `stage_next` puts into the next envelope, and where its cursor moves. */
  function Next(log: seq<Change>, cursor: Cursor): Stage {
    if !cursor.snapshotDone then
      var state := Collapse(log, []);
      if exists key :: key in state && state[key].weight < 0 then NegativeRow
      else Ready(Snapshot(state), Cursor(true, LastEpoch(log)))
    else
      var unsent := Fresh(log, cursor.viewEpoch);
      if unsent == [] then Nothing
      else Ready(Changes(unsent[..Leading(unsent, unsent[0].epoch)]), Cursor(true, Some(unsent[0].epoch)))
  }

  function Adds(e: Envelope, r: Row): int {
    match e
    case Snapshot(rows) => Multiplicity(rows, r)
    case Changes(changes) => Weight(changes, [], r)
  }

  /** What a consumer of the envelopes ends up with for a row. */
  function Rebuilt(envelopes: seq<Envelope>, r: Row): int {
    if envelopes == [] then 0 else Rebuilt(envelopes[..|envelopes| - 1], r) + Adds(envelopes[|envelopes| - 1], r)
  }

  // ---- Runs ------------------------------------------------------------------------------------------

  /** The view's log, the envelopes staged so far, the cursor, and how many changes of the log they cover. */
  datatype Export = Export(log: seq<Change>, envelopes: seq<Envelope>, cursor: Cursor, covered: nat)

  const EMPTY := Export([], [], Cursor(false, None), 0)

  datatype Move = Append(changes: seq<Change>) | StageNext

  predicate Sorted(log: seq<Change>) { forall i, j :: 0 <= i <= j < |log| ==> log[i].epoch <= log[j].epoch }

  /** The view commits whole epochs in order: nothing is added at or below the cursor. */
  predicate Possible(x: Export, m: Move) {
    m.Append? ==>
      && Sorted(x.log + m.changes)
      && forall i :: 0 <= i < |m.changes| ==> !x.cursor.snapshotDone || Beyond(m.changes[i], x.cursor.viewEpoch)
  }

  function Do(x: Export, m: Move): Export {
    match m
    case Append(changes) => x.(log := x.log + changes)
    case StageNext =>
      var next := Next(x.log, x.cursor);
      if !next.Ready? then x
      else
        var covered := if next.envelope.Snapshot? then |x.log| else x.covered + |next.envelope.changes|;
        Export(x.log, x.envelopes + [next.envelope], next.cursor, covered)
  }

  ghost predicate Run(x: Export, moves: seq<Move>, end: Export)
    decreases |moves|
  {
    if moves == [] then end == x else Possible(x, moves[0]) && Run(Do(x, moves[0]), moves[1..], end)
  }

  /** The cursor separates the changes the envelopes cover from the others. */
  ghost predicate CursorOk(x: Export) {
    && Sorted(x.log) && x.covered <= |x.log|
    && (!x.cursor.snapshotDone ==> x.covered == 0 && x.envelopes == [])
    && (x.cursor.snapshotDone ==>
          && (forall i :: 0 <= i < x.covered ==> !Beyond(x.log[i], x.cursor.viewEpoch))
          && (forall i :: x.covered <= i < |x.log| ==> Beyond(x.log[i], x.cursor.viewEpoch)))
  }

  lemma {:induction false} FreshIsSuffix(log: seq<Change>, viewEpoch: Option<nat>, k: nat)
    requires k <= |log|
    requires forall i :: 0 <= i < k ==> !Beyond(log[i], viewEpoch)
    requires forall i :: k <= i < |log| ==> Beyond(log[i], viewEpoch)
    ensures Fresh(log, viewEpoch) == log[k..]
    decreases |log|
  {
    if log != [] {
      FreshIsSuffix(log[1..], viewEpoch, if k == 0 then 0 else k - 1);
      if k == 0 {
        assert log == [log[0]] + log[1..];
      } else {
        assert log[1..][k - 1..] == log[k..];
      }
    }
  }

  lemma {:induction false} LeadingIsEpoch(log: seq<Change>, epoch: nat)
    ensures forall i :: 0 <= i < Leading(log, epoch) ==> log[i].epoch == epoch
    ensures Leading(log, epoch) < |log| ==> log[Leading(log, epoch)].epoch != epoch
    ensures log != [] && log[0].epoch == epoch ==> Leading(log, epoch) > 0
  {
    if log != [] && log[0].epoch == epoch {
      LeadingIsEpoch(log[1..], epoch);
      assert forall i :: 1 <= i < |log| ==> log[i] == log[1..][i - 1];
    }
  }

  /** In a sorted log, the epoch at d separates what is before its end from what is after it. */
  lemma LeadingCut(log: seq<Change>, d: nat, n: nat)
    requires d < |log| && Sorted(log) && n == Leading(log[d..], log[d].epoch)
    ensures 0 < n <= |log| - d
    ensures forall i :: 0 <= i < d + n ==> log[i].epoch <= log[d].epoch
    ensures forall i :: d + n <= i < |log| ==> log[i].epoch > log[d].epoch
  {
    var unsent := log[d..];
    LeadingIsEpoch(unsent, log[d].epoch);
    assert forall i :: d <= i < |log| ==> log[i] == unsent[i - d];
  }

  lemma SnapshotKeepsCursor(x: Export)
    requires CursorOk(x) && !x.cursor.snapshotDone
    ensures CursorOk(Do(x, StageNext))
  {
  }

  /** The changes of the epoch at d. */
  function EpochAt(log: seq<Change>, d: nat): (r: seq<Change>)
    requires d < |log|
    ensures |r| <= |log| - d && r == log[d..d + |r|]
  {
    log[d..][..Leading(log[d..], log[d].epoch)]
  }

  lemma NextChanges(x: Export)
    requires CursorOk(x) && x.cursor.snapshotDone && x.covered < |x.log|
    ensures Next(x.log, x.cursor) ==
        Ready(Changes(EpochAt(x.log, x.covered)), Cursor(true, Some(x.log[x.covered].epoch)))
  {
    FreshIsSuffix(x.log, x.cursor.viewEpoch, x.covered);
    assert x.log[x.covered..][0] == x.log[x.covered];
  }

  // ---- What is staged, and when ----------------------------------------------------------------------

  /** Exactly when the snapshot is refused: some row has been taken away more often than it was added.  Otherwise it is
      staged, and holds every row with its multiplicity. */
  lemma SnapshotRefusedIff(log: seq<Change>, cursor: Cursor)
    requires !cursor.snapshotDone
    ensures Next(log, cursor).NegativeRow? <==> exists group :: Weight(log, [], group) < 0
    ensures !Next(log, cursor).NegativeRow? ==>
              var next := Next(log, cursor);
              && next.Ready? && next.envelope.Snapshot?
              && (forall r {:trigger Weight(log, [], r)} :: Adds(next.envelope, r) == Weight(log, [], r))
              && next.cursor == Cursor(true, if log == [] then None else Some(log[|log| - 1].epoch))
  {
    var state := Collapse(log, []);
    forall r ensures Multiplicity(state, r) == Weight(log, [], r) { CollapseIsExact(log, [], r); }
    if key :| key in state && state[key].weight < 0 {
      var r := state[key].row;
      CollapseIsExact(log, [], r);
      assert Key(r) == key && Weight(log, [], r) < 0;
    }
    if group :| Weight(log, [], group) < 0 {
      CollapseIsExact(log, [], group);
      assert Key(group) in state && state[Key(group)].weight < 0;
    }
  }

  /** The changes of one epoch, in their order. */
  function OfEpoch(log: seq<Change>, epoch: nat): seq<Change> {
    if log == [] then []
    else OfEpoch(log[..|log| - 1], epoch) + if log[|log| - 1].epoch == epoch then [log[|log| - 1]] else []
  }

  lemma {:induction false} OfEpochConcat(a: seq<Change>, b: seq<Change>, epoch: nat)
    ensures OfEpoch(a + b, epoch) == OfEpoch(a, epoch) + OfEpoch(b, epoch)
    decreases |b|
  {
    if b == [] {
      assert a + b == a;
    } else {
      OfEpochConcat(a, b[..|b| - 1], epoch);
      assert (a + b)[..|a + b| - 1] == a + b[..|b| - 1];
    }
  }

  lemma {:induction false} OfOtherEpochs(log: seq<Change>, epoch: nat)
    requires forall i :: 0 <= i < |log| ==> log[i].epoch != epoch
    ensures OfEpoch(log, epoch) == []
  {
    if log != [] { OfOtherEpochs(log[..|log| - 1], epoch); }
  }

  lemma {:induction false} OfOneEpoch(log: seq<Change>, epoch: nat)
    requires forall i :: 0 <= i < |log| ==> log[i].epoch == epoch
    ensures OfEpoch(log, epoch) == log
  {
    if log != [] {
      OfOneEpoch(log[..|log| - 1], epoch);
      assert log == log[..|log| - 1] + [log[|log| - 1]];
    }
  }

  lemma OfEpochSlice(log: seq<Change>, epoch: nat, d: nat, e: nat)
    requires d <= e <= |log| && forall i :: 0 <= i < |log| ==> (log[i].epoch == epoch <==> d <= i < e)
    ensures OfEpoch(log, epoch) == log[d..e]
  {
    var before, here, after := log[..d], log[d..e], log[e..];
    assert log == (before + here) + after;
    OfEpochConcat(before + here, after, epoch);
    OfEpochConcat(before, here, epoch);
    OfOtherEpochs(before, epoch);
    OfOneEpoch(here, epoch);
    OfOtherEpochs(after, epoch);
  }

  /** The epoch at d is what follows the cursor. */
  lemma EpochAtIsEpoch(log: seq<Change>, d: nat)
    requires d < |log| && Sorted(log) && (d > 0 ==> log[d - 1].epoch < log[d].epoch)
    ensures EpochAt(log, d) == OfEpoch(log, log[d].epoch) && EpochAt(log, d) != [] && EpochAt(log, d)[0] == log[d]
  {
    var chunk := EpochAt(log, d);
    LeadingCut(log, d, |chunk|);
    OfEpochSlice(log, log[d].epoch, d, d + |chunk|);
  }

  /** In a sorted log the changes beyond the cursor are a suffix. */
  lemma {:induction false} CutPoint(log: seq<Change>, viewEpoch: Option<nat>) returns (k: nat)
    requires Sorted(log)
    ensures k <= |log|
    ensures forall i :: 0 <= i < k ==> !Beyond(log[i], viewEpoch)
    ensures forall i :: k <= i < |log| ==> Beyond(log[i], viewEpoch)
    decreases |log|
  {
    if log == [] || !Beyond(log[|log| - 1], viewEpoch) {
      k := |log|;
    } else {
      k := CutPoint(log[..|log| - 1], viewEpoch);
    }
  }

  /** After the snapshot: nothing is staged exactly when no change is beyond the cursor; otherwise exactly the changes
      of the first epoch beyond it are, in their order, and the cursor moves there. */
  lemma ChangesStagedAre(log: seq<Change>, cursor: Cursor)
    requires cursor.snapshotDone && Sorted(log)
    ensures Next(log, cursor).Nothing? <==> forall i :: 0 <= i < |log| ==> !Beyond(log[i], cursor.viewEpoch)
    ensures !Next(log, cursor).Nothing? ==>
              var next := Next(log, cursor);
              && next.Ready? && next.cursor.snapshotDone && next.cursor.viewEpoch.Some?
              && var epoch := next.cursor.viewEpoch.value;
                 && next.envelope == Changes(OfEpoch(log, epoch)) && OfEpoch(log, epoch) != []
                 && Beyond(OfEpoch(log, epoch)[0], cursor.viewEpoch)
                 && forall i :: 0 <= i < |log| && Beyond(log[i], cursor.viewEpoch) ==> epoch <= log[i].epoch
  {
    var k := CutPoint(log, cursor.viewEpoch);
    FreshIsSuffix(log, cursor.viewEpoch, k);
    if k < |log| {
      assert log[k..][0] == log[k];
      EpochAtIsEpoch(log, k);
    }
  }

  // ---- Conservation ----------------------------------------------------------------------------------

  function Covering(x: Export, chunk: seq<Change>): Export
    requires x.covered < |x.log|
  {
    Export(x.log, x.envelopes + [Changes(chunk)], Cursor(true, Some(x.log[x.covered].epoch)), x.covered + |chunk|)
  }

  lemma ChangesKeepCursor(x: Export, chunk: seq<Change>)
    requires CursorOk(x) && x.cursor.snapshotDone && x.covered < |x.log| && chunk == EpochAt(x.log, x.covered)
    ensures Do(x, StageNext) == Covering(x, chunk) && CursorOk(Covering(x, chunk))
  {
    NextChanges(x);
    LeadingCut(x.log, x.covered, |chunk|);
  }

  lemma NothingFresh(x: Export)
    requires CursorOk(x) && x.cursor.snapshotDone
    ensures Next(x.log, x.cursor).Nothing? <==> x.covered == |x.log|
  {
    FreshIsSuffix(x.log, x.cursor.viewEpoch, x.covered);
  }

  lemma RebuiltOne(envelopes: seq<Envelope>, e: Envelope, r: Row)
    ensures Rebuilt(envelopes + [e], r) == Rebuilt(envelopes, r) + Adds(e, r)
  {
    assert (envelopes + [e])[..|envelopes|] == envelopes;
  }

  /** The envelopes add up to the multiplicity of the row in the covered part of the log. */
  ghost predicate Conserved(log: seq<Change>, envelopes: seq<Envelope>, covered: nat, r: Row) {
    covered <= |log| && Rebuilt(envelopes, r) == Weight(log[..covered], [], r)
  }

  lemma SnapshotConserves(log: seq<Change>, r: Row)
    ensures Conserved(log, [] + [Snapshot(Collapse(log, []))], |log|, r)
  {
    CollapseIsExact(log, [], r);
    RebuiltOne([], Snapshot(Collapse(log, [])), r);
    assert log[..|log|] == log;
  }

  lemma ChangesConserve(log: seq<Change>, envelopes: seq<Envelope>, d: nat, chunk: seq<Change>, r: Row)
    requires Conserved(log, envelopes, d, r) && d + |chunk| <= |log| && chunk == log[d..d + |chunk|]
    ensures Conserved(log, envelopes + [Changes(chunk)], d + |chunk|, r)
  {
    RebuiltOne(envelopes, Changes(chunk), r);
    WeightConcat(log[..d], chunk, [], r);
    assert log[..d + |chunk|] == log[..d] + chunk;
  }

  lemma AppendConserves(log: seq<Change>, more: seq<Change>, envelopes: seq<Envelope>, d: nat, r: Row)
    requires Conserved(log, envelopes, d, r)
    ensures Conserved(log + more, envelopes, d, r)
  {
    assert (log + more)[..d] == log[..d];
  }

  ghost predicate Exact(x: Export, r: Row) { Conserved(x.log, x.envelopes, x.covered, r) }

  lemma AppendMove(x: Export, m: Move, r: Row)
    requires CursorOk(x) && m.Append? && Possible(x, m) && Exact(x, r)
    ensures CursorOk(Do(x, m)) && Exact(Do(x, m), r)
  {
    AppendConserves(x.log, m.changes, x.envelopes, x.covered, r);
  }

  lemma SnapshotMove(x: Export, r: Row)
    requires CursorOk(x) && !x.cursor.snapshotDone && Exact(x, r)
    ensures CursorOk(Do(x, StageNext)) && Exact(Do(x, StageNext), r)
  {
    SnapshotKeepsCursor(x);
    SnapshotConserves(x.log, r);
  }

  lemma CoveringIsExact(x: Export, chunk: seq<Change>, r: Row)
    requires x.covered < |x.log| && chunk == EpochAt(x.log, x.covered) && Exact(x, r)
    ensures Exact(Covering(x, chunk), r)
  {
    ChangesConserve(x.log, x.envelopes, x.covered, chunk, r);
  }

  lemma ChangesMove(x: Export, r: Row)
    requires CursorOk(x) && x.cursor.snapshotDone && Exact(x, r)
    ensures CursorOk(Do(x, StageNext)) && Exact(Do(x, StageNext), r)
  {
    if x.covered < |x.log| {
      var chunk := EpochAt(x.log, x.covered);
      ChangesKeepCursor(x, chunk);
      CoveringIsExact(x, chunk, r);
    } else {
      NothingFresh(x);
    }
  }

  /** Appending and staging keep the covered changes and the envelopes in step. */
  lemma MoveConserves(x: Export, m: Move, r: Row)
    requires CursorOk(x) && Possible(x, m) && Exact(x, r)
    ensures CursorOk(Do(x, m)) && Exact(Do(x, m), r)
  {
    if m.Append? {
      AppendMove(x, m, r);
    } else if x.cursor.snapshotDone {
      ChangesMove(x, r);
    } else {
      SnapshotMove(x, r);
    }
  }

  /** Over every run, what the envelopes add up to for a row is its multiplicity in the covered part of the log. */
  lemma {:induction false} RunConserves(x: Export, moves: seq<Move>, end: Export, r: Row)
    requires CursorOk(x) && Exact(x, r) && Run(x, moves, end)
    ensures CursorOk(end) && Exact(end, r)
    decreases |moves|
  {
    if moves != [] {
      MoveConserves(x, moves[0], r);
      RunConserves(Do(x, moves[0]), moves[1..], end, r);
    }
  }

  /** A consumer that has read every envelope, when the exporter has nothing more to stage, has rebuilt the view: no
      change is left out and none is counted twice, wherever the snapshot fell. */
  lemma EnvelopesRebuildTheView(moves: seq<Move>, end: Export, r: Row)
    requires Run(EMPTY, moves, end) && Next(end.log, end.cursor).Nothing?
    ensures Rebuilt(end.envelopes, r) == Weight(end.log, [], r) == Multiplicity(Collapse(end.log, []), r)
  {
    RunConserves(EMPTY, moves, end, r);
    NothingFresh(end);
    assert end.log[..|end.log|] == end.log;
    CollapseIsExact(end.log, [], r);
  }

  ghost predicate OnlyStages(moves: seq<Move>) { forall i :: 0 <= i < |moves| ==> moves[i].StageNext? }

  /** Staging alone brings the export up to date. */
  ghost predicate CanCatchUp(x: Export) {
    exists moves, end :: OnlyStages(moves) && Run(x, moves, end) && Next(end.log, end.cursor).Nothing?
  }

  lemma StageFirst(x: Export, moves: seq<Move>, end: Export)
    requires OnlyStages(moves) && Run(Do(x, StageNext), moves, end)
    ensures OnlyStages([StageNext] + moves) && Run(x, [StageNext] + moves, end)
  {
    assert ([StageNext] + moves)[0] == StageNext && ([StageNext] + moves)[1..] == moves;
  }

  lemma {:induction false} StageAll(x: Export) returns (moves: seq<Move>, end: Export)
    requires CursorOk(x) && x.cursor.snapshotDone
    ensures OnlyStages(moves) && Run(x, moves, end) && Next(end.log, end.cursor).Nothing?
    decreases |x.log| - x.covered
  {
    NothingFresh(x);
    if x.covered == |x.log| {
      moves, end := [], x;
    } else {
      var chunk := EpochAt(x.log, x.covered);
      ChangesKeepCursor(x, chunk);
      LeadingCut(x.log, x.covered, |chunk|);
      var rest;
      rest, end := StageAll(Covering(x, chunk));
      StageFirst(x, rest, end);
      moves := [StageNext] + rest;
    }
  }

  lemma {:induction false} RefusedStays(x: Export, moves: seq<Move>, end: Export)
    requires OnlyStages(moves) && Run(x, moves, end) && Next(x.log, x.cursor).NegativeRow?
    ensures end == x
    decreases |moves|
  {
    if moves != [] {
      assert moves[0].StageNext?;
      RefusedStays(Do(x, moves[0]), moves[1..], end);
    }
  }

  /** From every state, staging alone brings the export up to date if and only if the snapshot is done or no row is
      negative. */
  lemma CatchesUpIff(x: Export)
    requires CursorOk(x)
    ensures CanCatchUp(x) <==> x.cursor.snapshotDone || !exists group :: Weight(x.log, [], group) < 0
  {
    if x.cursor.snapshotDone {
      var moves, end := StageAll(x);
    } else {
      SnapshotRefusedIff(x.log, x.cursor);
      if Next(x.log, x.cursor).NegativeRow? {
        forall moves, end | OnlyStages(moves) && Run(x, moves, end) ensures end == x { RefusedStays(x, moves, end); }
      } else {
        SnapshotKeepsCursor(x);
        var rest, end := StageAll(Do(x, StageNext));
        StageFirst(x, rest, end);
      }
    }
  }

  /** Exactly when a late change is missed: adding a change anywhere in the log leaves what is still to be staged as
      it was if and only if the change is not beyond the cursor. */
  lemma {:induction false} LateChangeIsMissedIff(log: seq<Change>, late: Change, k: nat, viewEpoch: Option<nat>)
    requires k <= |log|
    ensures Fresh(log[..k] + [late] + log[k..], viewEpoch) == Fresh(log, viewEpoch) <==> !Beyond(late, viewEpoch)
  {
    assert log == log[..k] + log[k..];
    FreshConcat(log[..k], log[k..], viewEpoch);
    FreshConcat(log[..k] + [late], log[k..], viewEpoch);
    FreshConcat(log[..k], [late], viewEpoch);
    assert Fresh([late], viewEpoch) == Kept(late, viewEpoch);
    if !Beyond(late, viewEpoch) {
      assert Fresh(log[..k], viewEpoch) + [] == Fresh(log[..k], viewEpoch);
    } else {
      assert |Fresh(log[..k] + [late] + log[k..], viewEpoch)| == |Fresh(log, viewEpoch)| + 1;
    }
  }

  lemma {:induction false} FreshConcat(a: seq<Change>, b: seq<Change>, viewEpoch: Option<nat>)
    ensures Fresh(a + b, viewEpoch) == Fresh(a, viewEpoch) + Fresh(b, viewEpoch)
    decreases |a|
  {
    if a == [] {
      assert a + b == b;
    } else {
      FreshConcat(a[1..], b, viewEpoch);
      assert (a + b)[0] == a[0] && (a + b)[1..] == a[1..] + b;
      Assoc(Kept(a[0], viewEpoch), Fresh(a[1..], viewEpoch), Fresh(b, viewEpoch));
    }
  }
}
