/**
 The exporter and the view together: the view's log grows, the exporter stages what is new, saves it with its cursor
 and delivers it, and fails and recovers in every way the sink's world allows.
 */
module ViewDelivery {
  import opened Prelude
  import opened KafkaSinkMachine
  import opened KafkaProtocol
  import opened KafkaInvariant
  import opened KafkaExactlyOnce
  import opened KafkaViewDriver
  import opened KafkaTidy
  import opened ViewRowKey
  import opened ViewState
  import V = ViewExport

  /** What `stage_next` has computed and not saved yet. */
  datatype Plan = Plan(envelope: V.Envelope, cursor: V.Cursor, covered: nat)

  /** `covers[k]` is how many changes of the log the first k envelopes cover. */
  datatype Joint = Joint(x: Exporter, v: V.Export, plan: Option<Plan>, covers: seq<nat>)

  /** How the envelope is read out of a record. */
  type Decoder = Payload -> V.Envelope

  datatype Turn = Kafka(step: Step) | Commit(changes: seq<Change>)

  function Applied(v: V.Export, p: Plan): V.Export {
    V.Export(v.log, v.envelopes + [p.envelope], p.cursor, p.covered)
  }

  /** The next envelope of the log as it is now. */
  function PlanOf(v: V.Export): Option<Plan> {
    var next := V.Next(v.log, v.cursor);
    if next.Ready? then Some(Plan(next.envelope, next.cursor, V.Do(v, V.StageNext).covered)) else None
  }

  /** Every committed change is later than all changes before: the view commits whole epochs, in order. */
  predicate Later(log: seq<Change>, changes: seq<Change>) {
    && V.Sorted(changes)
    && forall i, j :: 0 <= i < |log| && 0 <= j < |changes| ==> log[i].epoch < changes[j].epoch
  }

  /** A stage call carries the next envelope; saving it moves the cursor; a crash forgets what was not saved. */
  ghost predicate TurnPossible(j: Joint, turn: Turn, decode: Decoder) {
    match turn
    case Commit(changes) => Later(j.v.log, changes)
    case Kafka(s) =>
      && Advance(j.x, s).Some?
      && (s.Client? && s.event.PreCommitPayloadCall? ==>
            PlanOf(j.v).Some? && decode(s.event.payload) == PlanOf(j.v).value.envelope)
      && (s.Persist? ==> j.plan.Some?)
  }

  ghost function TurnDone(j: Joint, turn: Turn, decode: Decoder): Joint
    requires TurnPossible(j, turn, decode)
  {
    match turn
    case Commit(changes) => j.(v := j.v.(log := j.v.log + changes))
    case Kafka(s) =>
      var x := Advance(j.x, s).value;
      if s.Persist? then Joint(x, Applied(j.v, j.plan.value), None, j.covers + [j.plan.value.covered])
      else if s.Client? && s.event.PreCommitPayloadCall? then j.(x := x, plan := PlanOf(j.v))
      else if s.Crash? || s.Connect? then j.(x := x, plan := None)
      else j.(x := x)
  }

  ghost predicate JointRun(start: Joint, turns: seq<Turn>, decode: Decoder, end: Joint)
    decreases |turns|
  {
    if turns == [] then end == start
    else TurnPossible(start, turns[0], decode) && JointRun(TurnDone(start, turns[0], decode), turns[1..], decode, end)
  }

  function JointStart(me: nat, topic: string, partitions: nat): Joint {
    Joint(Start(me, topic, partitions), V.EMPTY, None, [0])
  }

  // ---- The invariant ---------------------------------------------------------------------------------

  /** The cursor's epoch is one that the log has reached. */
  predicate CursorKnown(log: seq<Change>, cursor: V.Cursor) {
    cursor.viewEpoch.Some? ==> log != [] && cursor.viewEpoch.value <= log[|log| - 1].epoch
  }

  ghost predicate ViewOk(v: V.Export) {
    V.CursorOk(v) && CursorKnown(v.log, v.cursor) && forall r :: V.Exact(v, r)
  }

  ghost predicate PlanOk(v: V.Export, plan: Option<Plan>) { plan.Some? ==> ViewOk(Applied(v, plan.value)) }

  /** The payload of a staging under way, or staged. */
  function Staging(pc: Pc): Option<Payload> {
    match pc
    case StageBegin(_, _, payload, _) => Some(payload)
    case StageSend(_, _, payload, _) => Some(payload)
    case Ready(Staged(_, PreCommitted(_, RowHandle(_, _, _, payload)))) => Some(payload)
    case _ => None
  }

  /** What is being staged and not saved is what was planned. */
  ghost predicate StagingOk(j: Joint, decode: Decoder) {
    var w := j.x.world;
    w.process.Up? && !j.x.progress.pending && Staging(w.process.local.pc).Some? ==>
      j.plan.Some? && decode(Staging(w.process.local.pc).value) == j.plan.value.envelope
  }

  /** The saved payloads are the envelopes. */
  ghost predicate SavedOk(j: Joint, decode: Decoder) {
    && |j.v.envelopes| == j.x.progress.transaction
    && forall e: nat :: e < |j.v.envelopes| ==>
         e in j.x.world.ledger.handles && decode(j.x.world.ledger.handles[e]) == j.v.envelopes[e]
  }

  /** The first k envelopes add up to the changes they cover. */
  ghost predicate PrefixOk(v: V.Export, covers: seq<nat>, k: nat)
    requires k < |covers| && k <= |v.envelopes|
  {
    covers[k] <= |v.log| && forall r :: V.Conserved(v.log, v.envelopes[..k], covers[k], r)
  }

  ghost predicate CoversOk(v: V.Export, covers: seq<nat>) {
    && |covers| == |v.envelopes| + 1 && covers[|v.envelopes|] == v.covered
    && forall k: nat :: k <= |v.envelopes| ==> PrefixOk(v, covers, k)
  }

  ghost predicate JointOk(j: Joint, decode: Decoder) {
    Sound(j.x) && ViewOk(j.v) && PlanOk(j.v, j.plan) && StagingOk(j, decode) && SavedOk(j, decode)
        && CoversOk(j.v, j.covers)
  }

  // ---- The view's side --------------------------------------------------------------------------------

  lemma CommitKeepsView(v: V.Export, changes: seq<Change>)
    requires ViewOk(v) && Later(v.log, changes)
    ensures ViewOk(v.(log := v.log + changes))
  {
    var v' := v.(log := v.log + changes);
    forall r ensures V.Exact(v', r) {
      assert V.Exact(v, r);
      V.AppendConserves(v.log, changes, v.envelopes, v.covered, r);
    }
  }

  lemma CommitKeepsCovers(v: V.Export, changes: seq<Change>, covers: seq<nat>)
    requires CoversOk(v, covers)
    ensures CoversOk(v.(log := v.log + changes), covers)
  {
    var v' := v.(log := v.log + changes);
    forall k: nat | k <= |v.envelopes| ensures PrefixOk(v', covers, k) {
      assert PrefixOk(v, covers, k);
      forall r ensures V.Conserved(v'.log, v'.envelopes[..k], covers[k], r) {
        V.AppendConserves(v.log, changes, v.envelopes[..k], covers[k], r);
      }
    }
  }

  lemma AppliedIsDone(v: V.Export)
    requires PlanOf(v).Some?
    ensures Applied(v, PlanOf(v).value) == V.Do(v, V.StageNext)
  {
  }

  lemma NextKnown(v: V.Export)
    requires V.CursorOk(v) && V.Next(v.log, v.cursor).Ready?
    ensures CursorKnown(v.log, V.Next(v.log, v.cursor).cursor)
  {
    if v.cursor.snapshotDone {
      V.NothingFresh(v);
      V.NextChanges(v);
    }
  }

  /** What is planned keeps the view's side when it is saved. */
  lemma PlanKeepsView(v: V.Export)
    requires ViewOk(v)
    ensures PlanOk(v, PlanOf(v))
  {
    if PlanOf(v).Some? {
      AppliedIsDone(v);
      NextKnown(v);
      forall r ensures V.Exact(Applied(v, PlanOf(v).value), r) && V.CursorOk(Applied(v, PlanOf(v).value)) {
        assert V.Exact(v, r);
        V.MoveConserves(v, V.StageNext, r);
      }
      assert V.Exact(Applied(v, PlanOf(v).value), []);
    }
  }

  lemma CommitKeepsPlan(v: V.Export, plan: Option<Plan>, changes: seq<Change>)
    requires PlanOk(v, plan) && Later(v.log, changes)
    ensures PlanOk(v.(log := v.log + changes), plan)
  {
    if plan.Some? { CommitKeepsView(Applied(v, plan.value), changes); }
  }

  lemma SaveKeepsCovers(v: V.Export, p: Plan, covers: seq<nat>)
    requires CoversOk(v, covers) && ViewOk(Applied(v, p))
    ensures CoversOk(Applied(v, p), covers + [p.covered])
  {
    var v', n := Applied(v, p), |v.envelopes|;
    forall k: nat | k <= n + 1 ensures PrefixOk(v', covers + [p.covered], k) {
      if k <= n {
        assert PrefixOk(v, covers, k) && v'.envelopes[..k] == v.envelopes[..k];
      } else {
        assert v'.envelopes[..k] == v'.envelopes;
        forall r ensures V.Conserved(v'.log, v'.envelopes[..k], p.covered, r) { assert V.Exact(v', r); }
      }
    }
  }

  // ---- The sink's side --------------------------------------------------------------------------------

  /** An event other than a stage call does not change what is being staged. */
  lemma EventKeepsStaging(l: Local, ev: Event)
    requires Next(l, ev).Some? && !ev.PreCommitPayloadCall? && !ev.PreCommitCall?
    requires l.pc.StageSend? ==> l.pc.handle.RowHandle? && l.pc.handle.payload == l.pc.payload
    ensures Staging(Next(l, ev).value.pc).Some? ==> Staging(Next(l, ev).value.pc) == Staging(l.pc)
  {
  }

  lemma CallKeepsStaging(s: Sink, last: Outcome, epoch: Epoch, rows: nat, payload: Payload)
    requires s.topic.Some?
    ensures var pc := NextCall(s, last, PreCommitPayloadCall(epoch, rows, payload)).value.pc;
            Staging(pc).Some? ==> Staging(pc) == Some(payload)
  {
  }

  lemma ClientKeepsStaging(j: Joint, s: Step, decode: Decoder)
    requires JointOk(j, decode) && s.Client? && TurnPossible(j, Kafka(s), decode)
    ensures StagingOk(TurnDone(j, Kafka(s), decode), decode)
  {
    var l := j.x.world.process.local;
    if s.event.PreCommitPayloadCall? {
      CallKeepsStaging(l.sink, l.pc.last, s.event.epoch, s.event.rows, s.event.payload);
    } else {
      EventKeepsStaging(l, s.event);
    }
  }

  lemma SinkKeepsSaved(j: Joint, s: Step, decode: Decoder)
    requires JointOk(j, decode) && !s.Persist? && TurnPossible(j, Kafka(s), decode)
    ensures SavedOk(TurnDone(j, Kafka(s), decode), decode)
  {
    assert Advance(j.x, s).value.world.ledger.handles == j.x.world.ledger.handles;
    assert Advance(j.x, s).value.progress.transaction == j.x.progress.transaction;
  }

  lemma OtherKeepsStaging(j: Joint, s: Step, decode: Decoder)
    requires JointOk(j, decode) && !s.Client? && !s.Persist? && TurnPossible(j, Kafka(s), decode)
    ensures StagingOk(TurnDone(j, Kafka(s), decode), decode)
  {
  }

  lemma PersistKeepsJoint(j: Joint, decode: Decoder)
    requires JointOk(j, decode) && TurnPossible(j, Kafka(Persist), decode)
    ensures JointOk(TurnDone(j, Kafka(Persist), decode), decode)
  {
    var p, x := j.plan.value, Advance(j.x, Persist).value;
    StepKeepsSound(j.x, Persist);
    SaveKeepsCovers(j.v, p, j.covers);
    var t := j.x.progress.transaction;
    assert x.world.ledger.handles == j.x.world.ledger.handles[t := Staging(j.x.world.process.local.pc).value];
  }

  lemma TurnKeepsJoint(j: Joint, turn: Turn, decode: Decoder)
    requires JointOk(j, decode) && TurnPossible(j, turn, decode)
    ensures JointOk(TurnDone(j, turn, decode), decode)
  {
    match turn {
      case Commit(changes) =>
        CommitKeepsView(j.v, changes);
        CommitKeepsPlan(j.v, j.plan, changes);
        CommitKeepsCovers(j.v, changes, j.covers);
      case Kafka(s) =>
        if s.Persist? {
          PersistKeepsJoint(j, decode);
        } else {
          StepKeepsSound(j.x, s);
          SinkKeepsSaved(j, s, decode);
          PlanKeepsView(j.v);
          if s.Client? { ClientKeepsStaging(j, s, decode); } else { OtherKeepsStaging(j, s, decode); }
        }
    }
  }

  lemma {:induction false} RunKeepsJoint(start: Joint, turns: seq<Turn>, decode: Decoder, end: Joint)
    requires JointOk(start, decode) && JointRun(start, turns, decode, end)
    ensures JointOk(end, decode)
    decreases |turns|
  {
    if turns != [] {
      TurnKeepsJoint(start, turns[0], decode);
      RunKeepsJoint(TurnDone(start, turns[0], decode), turns[1..], decode, end);
    }
  }

  // ---- What the topic adds up to ----------------------------------------------------------------------

  /** The envelopes a consumer reads: the committed ones, decoded, in order. */
  function Read(handles: map<Epoch, Payload>, k: nat, decode: Decoder): seq<V.Envelope>
    requires forall e: nat :: e < k ==> e in handles
  {
    seq(k, e requires 0 <= e < k => decode(handles[e]))
  }

  /** What the first k saved payloads say adds up to the changes they cover. */
  lemma ReadAddsUp(v: V.Export, covers: seq<nat>, handles: map<Epoch, Payload>, decode: Decoder, k: nat, r: Row)
    requires CoversOk(v, covers) && k <= |v.envelopes|
    requires forall e: nat :: e < |v.envelopes| ==> e in handles && decode(handles[e]) == v.envelopes[e]
    ensures covers[k] <= |v.log| && V.Rebuilt(Read(handles, k, decode), r) == Weight(v.log[..covers[k]], [], r)
  {
    assert PrefixOk(v, covers, k);
    assert Read(handles, k, decode) == v.envelopes[..k];
    assert V.Conserved(v.log, v.envelopes[..k], covers[k], r);
  }

  lemma NothingLeft(j: Joint, decode: Decoder, k: nat)
    requires JointOk(j, decode) && V.Next(j.v.log, j.v.cursor).Nothing? && k == |j.v.envelopes|
    ensures j.covers[k] == |j.v.log|
  {
    V.NothingFresh(j.v);
  }

  lemma JointRunIsOk(me: nat, topic: string, partitions: nat, turns: seq<Turn>, decode: Decoder, end: Joint)
    requires partitions > 0 && JointRun(JointStart(me, topic, partitions), turns, decode, end)
    ensures JointOk(end, decode)
  {
    var start := JointStart(me, topic, partitions);
    StartIsSound(me, topic, partitions);
    StartIsOk(start, decode);
    RunKeepsJoint(start, turns, decode, end);
  }

  /** A consumer that reads the first k envelopes has the view's log up to its d-th change. */
  ghost predicate AddsUp(end: Joint, decode: Decoder, k: nat, d: nat) {
    && (forall e: nat :: e < k ==> e in end.x.world.ledger.handles)
    && d <= |end.v.log|
    && forall r :: V.Rebuilt(Read(end.x.world.ledger.handles, k, decode), r) == Weight(end.v.log[..d], [], r)
  }

  /** In every run of the exporter and the view: the topic shows the first k envelopes in order, and what a consumer
      adds up from them is exactly the view's log up to some change.  When nothing is pending and nothing is left to
      stage, it is the view. */
  lemma TopicRebuildsTheView(me: nat, topic: string, partitions: nat, turns: seq<Turn>, decode: Decoder, end: Joint)
    returns (k: nat, d: nat)
    requires partitions > 0 && JointRun(JointStart(me, topic, partitions), turns, decode, end)
    ensures Settled(end.x.progress) <= k <= end.x.progress.transaction && ShowsFirst(end.x.world, k)
    ensures AddsUp(end, decode, k, d)
    ensures !end.x.progress.pending && V.Next(end.v.log, end.v.cursor).Nothing? ==> d == |end.v.log|
  {
    JointRunIsOk(me, topic, partitions, turns, decode, end);
    k := CountDelivered(end.x.world, end.x.progress);
    InvShowsFirst(end.x.world, end.x.progress, k);
    d := end.covers[k];
    JointAddsUp(end, decode, k);
    if !end.x.progress.pending && V.Next(end.v.log, end.v.cursor).Nothing? { NothingLeft(end, decode, k); }
  }

  lemma JointAddsUp(j: Joint, decode: Decoder, k: nat)
    requires JointOk(j, decode) && k <= j.x.progress.transaction
    ensures AddsUp(j, decode, k, j.covers[k])
  {
    var handles := j.x.world.ledger.handles;
    assert PrefixOk(j.v, j.covers, k);
    forall r ensures V.Rebuilt(Read(handles, k, decode), r) == Weight(j.v.log[..j.covers[k]], [], r) {
      ReadAddsUp(j.v, j.covers, handles, decode, k, r);
    }
  }

  lemma StartIsOk(start: Joint, decode: Decoder)
    requires Sound(start.x) && start.x.progress == Progress(0, false) && start.x.world.process.Down?
    requires start.v == V.EMPTY && start.plan.None? && start.covers == [0]
    ensures JointOk(start, decode)
  {
  }
}
