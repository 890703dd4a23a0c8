/** From every state of the exporter: when the pending epoch can still be confirmed, and that the next one can be
    delivered. */
module KafkaRestart {
  import opened Prelude
  import opened Paths
  import opened KafkaSinkMachine
  import opened KafkaBroker
  import opened KafkaProtocol
  import opened KafkaInvariant
  import opened KafkaRuns
  import opened KafkaViewDriver
  import opened KafkaTidy
  import opened KafkaProgress
  import opened KafkaRecovery
  import KafkaLookup
  import KafkaOrder

  // ---- Confirming the pending epoch -------------------------------------------------------------------

  /** A sink just reconnected, in a topic where every transaction is resolved. */
  ghost predicate Reconnected(x: Exporter) {
    && Sound(x) && NoOpen(x.world.broker) && x.world.producer == Producer(None, [])
    && SinkAt(x.world, FreshSink(x.world.me, Some(x.world.topic)), Ready(NoCall))
  }

  /** The call under way has answered that the epoch is delivered. */
  predicate Answered(x: Exporter, end: Exporter, t: Epoch) {
    && end.progress == x.progress && end.world.ledger == x.world.ledger
    && end.world.process.Up? && end.world.process.local.pc == Ready(Delivered(t))
  }

  /** The record of an attempt that has landed carries the saved payload. */
  lemma LandedRecord(w: World, epoch: Epoch, t: nat)
    requires Inv(w) && OwnOf(w.broker, t, epoch) && w.broker.txns[t].status.Landed?
    ensures epoch in w.ledger.handles && w.broker.txns[t].at.Some?
    ensures var i := w.broker.txns[t].at.value;
            && InRange(w.broker, 0, i) && StatusAt(w.broker, 0, i).Landed?
            && w.broker.logs[0][i].payload == w.ledger.handles[epoch]
  {
    assert Own(w.broker, t) && OwnTxnOk(w.broker, w.producer, w.ledger, w.horizon, t);
    assert TxnOk(w.broker, w.me, t);
    assert EntryOk(w.broker, w.me, 0, w.broker.txns[t].at.value);
  }

  /** A new lookup can meet the sink's own record first, or it meets none and the producer is free to send again. */
  ghost predicate LookupWorks(w: World, t: Epoch) {
    (exists u :: FoundFirst(w.broker, w.me, t, u)) || (NothingMatches(w.broker, w.me, t) && w.producer.current.None?)
  }

  /** From between calls, in a topic where every transaction is resolved. */
  lemma RecoverPending(x: Exporter, t: Epoch) returns (steps: seq<Step>, end: Exporter)
    requires Sound(x) && PendingEpoch(x.progress, t) && NoOpen(x.world.broker) && LookupWorks(x.world, t)
    requires x.world.process.Up? && x.world.process.local.pc.Ready?
    ensures Proceeds(x, steps, end) && Answered(x, end, t)
  {
    var first, x1, w, k := StartLookup(x, t);
    var rest;
    if u: nat :| FoundFirst(x.world.broker, x.world.me, t, u) {
      LandedRecord(x.world, t, u);
      var second, x2, k2 := CaptureRest(x1, w, k);
      var third;
      third, end := FindOwn(x2, w, k2, w.broker.txns[u].at.value);
      rest := second + third;
      ContinuesJoin(x1, second, x2, third, end);
    } else {
      NothingMatchesIsClear(w.broker, w.me, t, k.scan, k.consumer);
      rest, end := FinishLookup(x1, w, k);
    }
    ContinuesJoin(x, first, x1, rest, end);
    steps := first + rest;
  }

  lemma RecoverableSettled(w: World, b: Broker, epoch: Epoch)
    requires Inv(w) && w.producer.current.None? && SameLanded(w.broker, b) && Recoverable(w.broker, w.me, epoch)
    ensures Recoverable(b, w.me, epoch)
  {
    if t: nat :| FoundFirst(w.broker, w.me, epoch, t) {
      NoneOpen(w, t);
      NoMatchSame(w.broker, b, w.me, epoch, 0, w.broker.txns[t].at.value);
      assert FoundFirst(b, w.me, epoch, t);
    } else {
      NothingMatchesSame(w.broker, b, w.me, epoch);
    }
  }

  /** Reconnecting, with every open transaction timed out. */
  lemma Reconnect(x: Exporter, land: bool) returns (steps: seq<Step>, end: Exporter)
    requires Sound(x) && x.world.process.Down?
    ensures Continues(x, steps, end) && Reconnected(end) && end.progress == x.progress
    ensures end.world.ledger == x.world.ledger && end.world.me == x.world.me
    ensures SameLanded(DoConnect(x.world, land).broker, end.world.broker)
  {
    var x1 := Exporter(DoConnect(x.world, land), x.progress);
    Stay(x);
    Take(x, [], x, Connect(land), x1);
    var rest;
    rest, end := SettleFrom(x1, 0);
    steps := ([] + [Connect(land)]) + rest;
    ContinuesJoin(x, [] + [Connect(land)], x1, rest, end);
    PathKeepsSound(x, steps, end);
  }

  lemma ConnectInv(x: Exporter, land: bool)
    requires Sound(x) && x.world.process.Down?
    ensures Sound(Exporter(DoConnect(x.world, land), x.progress))
  {
    StepKeepsSound(x, Connect(land));
  }

  lemma ConfirmAnswered(x: Exporter, steps: seq<Step>, mid: Exporter, t: Epoch) returns (end: Exporter)
    requires PendingEpoch(x.progress, t) && t in x.world.ledger.handles
    requires Continues(x, steps, mid) && Answered(x, mid, t)
    ensures Continues(x, steps + [Confirm], end) && end.progress == Progress(x.progress.transaction, false)
    ensures end.world.process == mid.world.process
  {
    ConfirmStep(mid.world, mid.world.process.local.sink, t);
    end := Advance(mid, Confirm).value;
    Take(x, steps, mid, Confirm, end);
  }

  /** A recoverable pending epoch can be confirmed after a restart. */
  lemma ConfirmPending(x: Exporter, t: Epoch) returns (steps: seq<Step>, end: Exporter)
    requires Sound(x) && x.world.process.Down? && PendingEpoch(x.progress, t)
        && Recoverable(x.world.broker, x.world.me, t)
    ensures Continues(x, steps, end) && end.progress == Progress(x.progress.transaction, false)
  {
    var land := ConnectKeepsRecoverable(x.world, t);
    ConnectInv(x, land);
    var first, x1 := Reconnect(x, land);
    RecoverableSettled(DoConnect(x.world, land), x1.world.broker, t);
    var second, x2 := RecoverPending(x1, t);
    ContinuesJoin(x, first, x1, second, x2);
    end := ConfirmAnswered(x, first + second, x2, t);
    steps := (first + second) + [Confirm];
  }

  lemma Stop(x: Exporter) returns (steps: seq<Step>, end: Exporter)
    ensures Continues(x, steps, end) && end == x.(world := x.world.(process := Down))
  {
    Stay(x);
    end := x.(world := x.world.(process := Down));
    if x.world.process.Up? {
      Take(x, [], x, Crash, end);
      steps := [] + [Crash];
    } else {
      steps := [];
    }
  }

  // ---- Finishing the call under way ---------------------------------------------------------------------

  predicate Undropped(w: World) {
    Resolvable(w.broker, w.producer) && !w.broker.txns[w.producer.current.value].status.Dropped?
  }

  /** The call under way, or the one that follows, can still deliver the pending epoch: its transaction has not been
      dropped, or the lookup can end in "absent" with the producer free to send again. */
  ghost predicate InFlight(w: World) {
    w.process.Up? &&
    match w.process.local.pc
    case Ready(last) => last.Delivered? || (last.Staged? && Undropped(w))
    case CommitOpen(_) => Undropped(w)
    case RecoverSend(_, _) => Undropped(w)
    case RecoverCommit(_, _) => Undropped(w)
    case RecoverBegin(_, _) => w.producer.current.None?
    case Lookup(epoch, _, _, scan) =>
      w.producer.current.None? && Clear(w.broker, w.me, epoch, scan, w.process.consumer)
    case _ => false
  }

  /** A transaction that is being filled and has not been dropped can be committed. */
  lemma UndroppedIsSendable(x: Exporter)
    requires Sound(x) && x.world.process.Up? && Filling(x.world.process.local.pc) && Undropped(x.world)
    ensures Sendable(x.world)
  {
  }

  lemma DeliverOpen(x: Exporter, s: Sink, t: Epoch) returns (steps: seq<Step>, end: Exporter)
    requires SinkAt(x.world, s, CommitOpen(t)) && Sendable(x.world)
    ensures Proceeds(x, steps, end) && Answered(x, end, t)
  {
    var first, x1 := FlushOut(x);
    CommitAnswerStep(x1.world, s, t);
    end := Exporter(Do(x1.world, Quietly(CommitTxn(true))), x.progress);
    Take(x, first, x1, Quietly(CommitTxn(true)), end);
    steps := first + [Quietly(CommitTxn(true))];
  }

  /** From a staged and saved epoch whose transaction is open. */
  lemma DeliverStaged(x: Exporter, s: Sink, t: Epoch, state: SinkState) returns (steps: seq<Step>, end: Exporter)
    requires PendingEpoch(x.progress, t) && t !in s.delivered && s.topic.Some? && Sendable(x.world)
    requires SinkAt(x.world, s, Ready(Staged(t, state))) && state.PreCommitted?
    ensures Proceeds(x, steps, end) && Answered(x, end, t)
  {
    var call := Quietly(CommitCall(t, state, false));
    Stay(x);
    CheckpointStep(x.world, s, Staged(t, state), t);
    var x1 := Exporter(Do(x.world, Quietly(SetClusterCommitted(t))), x.progress);
    Take(x, [], x, Quietly(SetClusterCommitted(t)), x1);
    CommitCallStep(x1.world, s.(clusterCommitted := t), Staged(t, state), t, state);
    var x2 := Exporter(Do(x1.world, call), x.progress);
    steps := [] + [Quietly(SetClusterCommitted(t))];
    Take(x, steps, x1, call, x2);
    steps := steps + [call];
    var rest;
    rest, end := DeliverOpen(x2, s.(clusterCommitted := t), t);
    ContinuesJoin(x, steps, x2, rest, end);
    steps := steps + rest;
  }

  lemma StagedNotDelivered(x: Exporter, t: Epoch)
    requires Sound(x) && PendingEpoch(x.progress, t) && x.world.process.Up? && Undropped(x.world)
    requires x.world.process.local.pc.Ready? && x.world.process.local.pc.last.Staged?
    ensures t !in x.world.process.local.sink.delivered
  {
    var w := x.world;
    KafkaOrder.OpenHasNotLanded(w.broker, w.producer, w.ledger, w.horizon, w.me, w.producer.current.value);
  }

  lemma DeliverLookup(x: Exporter) returns (steps: seq<Step>, end: Exporter)
    requires Sound(x) && x.world.process.Up? && x.world.process.local.pc.Lookup? && InFlight(x.world)
    ensures Proceeds(x, steps, end) && Answered(x, end, x.world.process.local.pc.epoch)
  {
    var l, c := x.world.process.local, x.world.process.consumer;
    var k := Look(l.sink, l.pc.epoch, l.pc.resend, l.pc.scan, c);
    var first, x1 := SettleFrom(x, 0);
    PathKeepsSound(x, first, x1);
    ClearSame(x.world.broker, x1.world.broker, x.world.me, k.epoch, k.scan, c);
    LookIsOk(x1, k);
    var rest;
    rest, end := FinishLookup(x1, x1.world, k);
    ContinuesJoin(x, first, x1, rest, end);
    steps := first + rest;
  }

  lemma LookIsOk(x: Exporter, k: Look)
    requires Sound(x) && x.world.process.Up? && x.world.process.local.pc.Lookup?
    requires var l := x.world.process.local;
             k == Look(l.sink, l.pc.epoch, l.pc.resend, l.pc.scan, x.world.process.consumer)
    ensures x.world == Looking(x.world, k) && LookOk(x.world.broker, k)
  {
    var b, c := x.world.broker, k.consumer;
    forall q | 0 <= q < |b.logs| ensures c.positions[q] <= |b.logs[q]| {
      assert ResolvedBelow(b, q, c.positions[q]);
    }
  }

  lemma DeliverInFlight(x: Exporter, t: Epoch) returns (steps: seq<Step>, end: Exporter)
    requires Sound(x) && PendingEpoch(x.progress, t) && InFlight(x.world)
    ensures Proceeds(x, steps, end) && Answered(x, end, t)
  {
    var w, s := x.world, x.world.process.local.sink;
    match w.process.local.pc {
      case Ready(last) =>
        if last.Delivered? {
          steps, end := [], x;
          Stay(x);
        } else {
          UndroppedIsSendable(x);
          StagedNotDelivered(x, t);
          steps, end := DeliverStaged(x, s, t, last.state);
        }
      case CommitOpen(_) =>
        UndroppedIsSendable(x);
        steps, end := DeliverOpen(x, s, t);
      case RecoverSend(_, payload) =>
        UndroppedIsSendable(x);
        steps, end := SendAndCommit(x, s, t, payload);
      case RecoverCommit(_, payload) =>
        UndroppedIsSendable(x);
        steps, end := CommitSent(x, s, t, payload);
      case RecoverBegin(_, payload) => steps, end := CommitAgain(x, s, t, payload);
      case Lookup(_, _, _, _) => steps, end := DeliverLookup(x);
    }
  }

  // ---- When it cannot be -------------------------------------------------------------------------------

  lemma MatchStays(b: Broker, b': Broker, me: nat, epoch: Epoch, q: nat, i: nat)
    requires WellFormed(b, me) && Grows(b, b') && MatchAt(b, me, epoch, q, i)
    ensures MatchAt(b', me, epoch, q, i)
  {
    InRangeGrows(b, b', me, q, i);
  }

  lemma NoMatchShrinks(b: Broker, b': Broker, me: nat, epoch: Epoch, q: nat, end: nat)
    requires WellFormed(b, me) && Grows(b, b') && NoMatchBelow(b', me, epoch, q, end) && q < |b.logs|
    ensures NoMatchBelow(b, me, epoch, q, end)
  {
    forall i | 0 <= i < end && InRange(b, q, i) && StatusAt(b, q, i).Landed?
        ensures !Matches(me, epoch, b.logs[q][i].payload) {
      InRangeGrows(b, b', me, q, i);
    }
  }

  /** As long as no new attempt comes to count, none is found. */
  lemma NotFoundStays(b: Broker, b': Broker, me: nat, epoch: Epoch)
    requires WellFormed(b, me) && Grows(b, b') && forall u: nat :: !FoundFirst(b, me, epoch, u)
    requires forall u: nat {:trigger MayCount(b', epoch, u)} :: MayCount(b', epoch, u) ==>
        MayCount(b, epoch, u) && b'.txns[u].at == b.txns[u].at
    ensures forall u: nat :: !FoundFirst(b', me, epoch, u)
  {
    forall u: nat ensures !FoundFirst(b', me, epoch, u) {
      if FoundFirst(b', me, epoch, u) {
        assert MayCount(b', epoch, u) && MayCount(b, epoch, u);
        NoMatchShrinks(b, b', me, epoch, 0, b.txns[u].at.value);
        assert FoundFirst(b, me, epoch, u);
      }
    }
  }

  // ---- Steps from a hopeless state --------------------------------------------------------------------

  /** What a step may do to the broker without an attempt at the epoch coming to count. */
  ghost predicate NothingNew(b: Broker, b': Broker, epoch: Epoch) {
    && Grows(b, b')
    && forall u: nat {:trigger MayCount(b', epoch, u)} ::
         MayCount(b', epoch, u) ==> MayCount(b, epoch, u) && b'.txns[u].at == b.txns[u].at
  }

  lemma StatusNothingNew(w: World, u: nat, status: Status, epoch: Epoch)
    requires Inv(w) && u < |w.broker.txns| && w.broker.txns[u].status.Open? && !status.Open?
    requires status.Landed? && Own(w.broker, u) ==> w.broker.txns[u].status.requested
    ensures NothingNew(w.broker, SetStatus(w.broker, u, status), epoch)
  {
    SetStatusQuiet(w.broker, u, status, w.me);
    if Own(w.broker, u) { assert OwnTxnOk(w.broker, w.producer, w.ledger, w.horizon, u); }
  }

  lemma FlushNothingNew(w: World, epoch: Epoch)
    requires Inv(w) && Possible(w, Flush)
    ensures NothingNew(w.broker, Do(w, Flush).broker, epoch)
  {
    FlushKeepsCore(w.broker, w.producer, w.ledger, w.horizon, w.me);
    assert OwnTxnOk(w.broker, w.producer, w.ledger, w.horizon, w.producer.current.value);
  }

  lemma EnvironmentNothingNew(w: World, s: Step, epoch: Epoch)
    requires Inv(w) && Possible(w, s)
    requires s.Flush? || s.Settle? || s.ForeignBegin? || s.ForeignAppend? || s.Crash? || s.Connect?
    ensures NothingNew(w.broker, Do(w, s).broker, epoch)
  {
    var b, pr := w.broker, w.producer;
    match s {
      case Flush => FlushNothingNew(w, epoch);
      case Settle(u, land) => StatusNothingNew(w, u, if land then Landed else Dropped, epoch);
      case ForeignBegin => ForeignBeginKeepsCore(b, pr, w.ledger, w.horizon, w.me);
      case ForeignAppend(u, q, payload) => ForeignAppendKeepsCore(b, pr, w.ledger, w.horizon, w.me, u, q, payload);
      case Crash =>
      case Connect(land) =>
        if Resolvable(b, pr) && b.txns[pr.current.value].status.Open? {
          var requested := b.txns[pr.current.value].status.requested;
          StatusNothingNew(w, pr.current.value, if land && requested then Landed else Dropped, epoch);
        }
    }
  }

  /** Pending, not recoverable, and no call under way can deliver it. */
  ghost predicate Hopeless(x: Exporter, t: Epoch) {
    PendingEpoch(x.progress, t) && !Recoverable(x.world.broker, x.world.me, t) && !InFlight(x.world)
  }

  lemma StaysUnrecoverable(b: Broker, b': Broker, me: nat, epoch: Epoch)
    requires WellFormed(b, me) && NothingNew(b, b', epoch) && !Recoverable(b, me, epoch)
    ensures !Recoverable(b', me, epoch)
  {
    NotFoundStays(b, b', me, epoch);
    var q: nat, i: nat :| MatchAt(b, me, epoch, q, i);
    MatchStays(b, b', me, epoch, q, i);
  }

  /** What stands in the way of a lookup stays in the way. */
  lemma NotClearStays(b: Broker, b': Broker, me: nat, epoch: Epoch, scan: Scan, c: Consumer)
    requires WellFormed(b, me) && Grows(b, b') && Clear(b', me, epoch, scan, c)
    ensures Clear(b, me, epoch, scan, c)
  {
    forall q: nat | q < |b.logs| ensures PartitionClear(b, me, epoch, Unsettled(scan), c, q) {
      assert PartitionClear(b', me, epoch, Unsettled(scan), c, q);
      if !(q < |c.stables| && q !in Unsettled(scan)) {
        assert b.logs[q] <= b'.logs[q];
        NoMatchShrinks(b, b', me, epoch, q, Limit(b', c, q));
      }
    }
  }

  /** Nothing outside the sink puts the epoch back in flight. */
  lemma EnvironmentStaysOut(x: Exporter, s: Step, t: Epoch)
    requires Sound(x) && Hopeless(x, t) && Advance(x, s).Some? && !s.Client?
    requires Grows(x.world.broker, Do(x.world, s).broker)
    ensures !InFlight(Do(x.world, s))
  {
    var w, w' := x.world, Do(x.world, s);
    if InFlight(w') && w.process.local.pc.Lookup? {
      NotClearStays(w.broker, w'.broker, w.me, t, w.process.local.pc.scan, w.process.consumer);
    }
  }

  lemma EnvironmentStaysHopeless(x: Exporter, s: Step, t: Epoch)
    requires Sound(x) && Hopeless(x, t) && Advance(x, s).Some?
    requires !s.Client?
    ensures Hopeless(Advance(x, s).value, t) && Advance(x, s).value.progress == x.progress
  {
    var w, w' := x.world, Do(x.world, s);
    EnvironmentNothingNew(w, s, t);
    StaysUnrecoverable(w.broker, w'.broker, w.me, t);
    EnvironmentStaysOut(x, s, t);
  }

  lemma CallStaysHopeless(x: Exporter, s: Step, t: Epoch)
    requires Sound(x) && Hopeless(x, t) && s.Client? && Advance(x, s).Some? && x.world.process.local.pc.Ready?
    ensures Hopeless(Advance(x, s).value, t)
  {
    var w' := Do(x.world, s);
    if w'.process.local.pc.Lookup? {
      FreshIsClearIff(w'.broker, w'.me, t, w'.process.local.pc.scan, w'.process.consumer);
    }
  }

  /** A dropped transaction cannot be committed, and no other can begin while it is held. */
  lemma AnswerStaysHopeless(x: Exporter, s: Step, t: Epoch)
    requires Sound(x) && Hopeless(x, t) && s.Client? && Advance(x, s).Some?
    requires !x.world.process.local.pc.Ready? && !x.world.process.local.pc.Lookup?
    ensures Hopeless(Advance(x, s).value, t)
  {
    var w, w' := x.world, Do(x.world, s);
    if w.process.local.pc.ForcedAbort? {
      AbortNothingNew(w, s, t);
      StaysUnrecoverable(w.broker, w'.broker, w.me, t);
    } else {
      SetSame(w.broker, w.producer);
      assert w'.broker == w.broker;
    }
  }

  lemma SetSame(b: Broker, pr: Producer)
    ensures Resolvable(b, pr) ==> SetStatus(b, pr.current.value, b.txns[pr.current.value].status) == b
  {
    if Resolvable(b, pr) {
      var u := pr.current.value;
      assert b.txns[u := b.txns[u].(status := b.txns[u].status)] == b.txns;
    }
  }

  lemma AbortNothingNew(w: World, s: Step, epoch: Epoch)
    requires Inv(w) && s.Client? && Possible(w, s) && w.process.local.pc.ForcedAbort?
    ensures NothingNew(w.broker, Do(w, s).broker, epoch)
  {
    SetSame(w.broker, w.producer);
    if Resolvable(w.broker, w.producer) && w.broker.txns[w.producer.current.value].status.Open? {
      StatusNothingNew(w, w.producer.current.value, Dropped, epoch);
    }
  }

  // ---- A lookup in a hopeless state ----------------------------------------------------------------------

  /** A record read with the saved bytes is the sink's own, met first. */
  lemma SavedBytesAreFoundFirst(x: Exporter, s: Step, t: Epoch)
    requires Sound(x) && PendingEpoch(x.progress, t) && s.Client? && Advance(x, s).Some?
    requires x.world.process.local.pc.Lookup? && s.event.Poll? && s.event.result.Message?
    requires Matches(x.world.me, t, s.event.result.payload) && s.event.result.payload == x.world.ledger.handles[t]
    ensures exists u :: FoundFirst(x.world.broker, x.world.me, t, u)
  {
    var w, p, j := x.world, s.event.result.partition, s.event.result.offset;
    var u := w.broker.logs[p][j].txn;
    assert EntryOk(w.broker, w.me, p, j) && TxnOk(w.broker, w.me, u);
    KafkaLookup.ReadOn(w.broker, w.me, t, p, w.process.consumer.positions[p], j);
    assert FoundFirst(w.broker, w.me, t, u);
  }

  lemma MessageStaysHopeless(x: Exporter, s: Step, t: Epoch)
    requires Sound(x) && Hopeless(x, t) && s.Client? && Advance(x, s).Some?
    requires x.world.process.local.pc.Lookup? && s.event.Poll? && s.event.result.Message?
    ensures Hopeless(Advance(x, s).value, t)
  {
    var w, payload := x.world, s.event.result.payload;
    if Matches(w.me, t, payload) && payload == w.ledger.handles[t] {
      SavedBytesAreFoundFirst(x, s, t);
    } else if !Matches(w.me, t, payload) && InFlight(Do(w, s)) {
      ClearSameLimits(w.broker, w.me, t, w.process.local.pc.scan, w.process.consumer, Do(w, s).process.consumer);
    }
  }

  lemma ClearSameLimits(b: Broker, me: nat, epoch: Epoch, scan: Scan, c: Consumer, c': Consumer)
    requires c'.highs == c.highs && c'.stables == c.stables && Clear(b, me, epoch, scan, c')
    ensures Clear(b, me, epoch, scan, c)
  {
    forall q: nat | q < |b.logs| ensures PartitionClear(b, me, epoch, Unsettled(scan), c, q) {
      assert PartitionClear(b, me, epoch, Unsettled(scan), c', q);
    }
  }

  /** Only a partition that was clear drops out of the lookup. */
  lemma EofWasClear(b: Broker, me: nat, epoch: Epoch, scan: Scan, left: map<nat, bool>, c: Consumer, c': Consumer,
          q: nat)
    requires scan.Polling? && c'.highs == c.highs && c'.stables == c.stables && |c.stables| == |b.logs|
    requires left == scan.unsettled || (left == scan.unsettled - {q} && q in scan.unsettled && scan.unsettled[q])
    requires q < |b.logs| && NoMatchBelow(b, me, epoch, q, c.stables[q])
    requires Clear(b, me, epoch, Polling(left), c')
    ensures Clear(b, me, epoch, scan, c)
  {
    forall p: nat | p < |b.logs| ensures PartitionClear(b, me, epoch, Unsettled(scan), c, p) {
      assert PartitionClear(b, me, epoch, Unsettled(Polling(left)), c', p);
    }
  }

  lemma EofStaysHopeless(x: Exporter, s: Step, t: Epoch)
    requires Sound(x) && Hopeless(x, t) && s.Client? && Advance(x, s).Some?
    requires x.world.process.local.pc.Lookup? && s.event.Poll? && s.event.result.Eof?
    ensures Hopeless(Advance(x, s).value, t)
  {
    var w, w', c, q := x.world, Do(x.world, s), x.world.process.consumer, s.event.result.partition;
    var scan := w.process.local.pc.scan;
    var left := if q in scan.unsettled && scan.unsettled[q] then scan.unsettled - {q} else scan.unsettled;
    KafkaLookup.ReadOn(w.broker, w.me, t, q, c.positions[q], s.end);
    KafkaLookup.NoMatchShorter(w.broker, w.me, t, q, s.end, c.stables[q]);
    if InFlight(w') {
      assert Clear(w.broker, w.me, t, Polling(left), w'.process.consumer);
      EofWasClear(w.broker, w.me, t, scan, left, c, w'.process.consumer, q);
    }
  }

  /** A stable offset at or beyond the high watermark only widens what has to be read, a smaller one marks the partition
      unstable. */
  lemma StableWasClear(b: Broker, me: nat, epoch: Epoch, scan: Scan, c: Consumer, n: nat)
    requires scan.Capture? && scan.high.Some? && |c.stables| == scan.next < |c.highs| <= |b.logs|
    requires scan.high.value == c.highs[scan.next]
    requires Clear(b, me, epoch, AfterStable(scan, n), c.(stables := c.stables + [n]))
    ensures Clear(b, me, epoch, scan, c)
  {
    var scan', c' := AfterStable(scan, n), c.(stables := c.stables + [n]);
    assert Unsettled(scan') == scan.unsettled[scan.next := n >= scan.high.value];
    forall q: nat | q < |b.logs| ensures PartitionClear(b, me, epoch, Unsettled(scan), c, q) {
      assert PartitionClear(b, me, epoch, Unsettled(scan'), c', q);
      if q == scan.next { KafkaLookup.NoMatchShorter(b, me, epoch, q, n, c.highs[q]); }
    }
  }

  lemma HighWasClear(b: Broker, me: nat, epoch: Epoch, scan: Scan, scan': Scan, c: Consumer)
    requires |c.stables| <= |c.highs| < |b.logs| && Unsettled(scan') == Unsettled(scan)
    requires Clear(b, me, epoch, scan', c.(highs := c.highs + [|b.logs[|c.highs|]|]))
    ensures Clear(b, me, epoch, scan, c)
  {
    forall q: nat | q < |b.logs| ensures PartitionClear(b, me, epoch, Unsettled(scan), c, q) {
      assert PartitionClear(b, me, epoch, Unsettled(scan'), c.(highs := c.highs + [|b.logs[|c.highs|]|]), q);
    }
  }

  lemma CaptureStaysHopeless(x: Exporter, s: Step, t: Epoch)
    requires Sound(x) && Hopeless(x, t) && s.Client? && Advance(x, s).Some?
    requires x.world.process.local.pc.Lookup? && x.world.process.local.pc.scan.Capture?
    ensures Hopeless(Advance(x, s).value, t)
  {
    var w, w', c, scan := x.world, Do(x.world, s), x.world.process.consumer, x.world.process.local.pc.scan;
    if InFlight(w') {
      if s.event.High? {
        HighWasClear(w.broker, w.me, t, scan, w'.process.local.pc.scan, c);
      } else {
        StableWasClear(w.broker, w.me, t, scan, c, s.event.offset);
      }
    }
  }

  lemma LookupStaysHopeless(x: Exporter, s: Step, t: Epoch)
    requires Sound(x) && Hopeless(x, t) && s.Client? && Advance(x, s).Some? && x.world.process.local.pc.Lookup?
    ensures Hopeless(Advance(x, s).value, t)
  {
    var w' := Do(x.world, s);
    if x.world.process.local.pc.scan.Capture? {
      CaptureStaysHopeless(x, s, t);
    } else if s.event.Poll? && s.event.result.Message? {
      MessageStaysHopeless(x, s, t);
    } else if s.event.Poll? && s.event.result.Eof? {
      EofStaysHopeless(x, s, t);
    } else if s.event.Metadata? && w'.process.local.pc.Lookup? {
      FreshIsClearIff(w'.broker, w'.me, t, w'.process.local.pc.scan, w'.process.consumer);
    }
  }

  lemma StepStaysHopeless(x: Exporter, s: Step, t: Epoch)
    requires Sound(x) && Hopeless(x, t) && Advance(x, s).Some?
    ensures Hopeless(Advance(x, s).value, t) && Advance(x, s).value.progress == x.progress
  {
    if !s.Client? {
      EnvironmentStaysHopeless(x, s, t);
    } else if x.world.process.local.pc.Ready? {
      CallStaysHopeless(x, s, t);
    } else if x.world.process.local.pc.Lookup? {
      LookupStaysHopeless(x, s, t);
    } else {
      AnswerStaysHopeless(x, s, t);
    }
  }

  lemma {:induction false} HopelessStays(x: Exporter, steps: seq<Step>, end: Exporter, t: Epoch)
    requires Sound(x) && Hopeless(x, t) && Continues(x, steps, end)
    ensures Sound(end) && Hopeless(end, t) && end.progress == x.progress
    decreases |steps|
  {
    if steps != [] {
      var front, s := steps[..|steps| - 1], steps[|steps| - 1];
      var before := Path(Exporting(), x, front).value;
      HopelessStays(x, front, before, t);
      StepKeepsSound(before, s);
      StepStaysHopeless(before, s, t);
    }
  }

  // ---- The condition -----------------------------------------------------------------------------------

  ghost predicate CanConfirm(x: Exporter) {
    exists steps, end :: Continues(x, steps, end) && end.progress == Progress(x.progress.transaction, false)
  }

  ghost predicate Confirmable(x: Exporter, t: Epoch) {
    Recoverable(x.world.broker, x.world.me, t) || InFlight(x.world)
  }

  lemma ConfirmFrom(x: Exporter, t: Epoch) returns (steps: seq<Step>, end: Exporter)
    requires Sound(x) && PendingEpoch(x.progress, t) && Confirmable(x, t)
    ensures Continues(x, steps, end) && end.progress == Progress(x.progress.transaction, false)
  {
    if Recoverable(x.world.broker, x.world.me, t) {
      var first, x1 := Stop(x);
      PathKeepsSound(x, first, x1);
      var rest;
      rest, end := ConfirmPending(x1, t);
      ContinuesJoin(x, first, x1, rest, end);
      steps := first + rest;
    } else {
      var first, mid := DeliverInFlight(x, t);
      end := ConfirmAnswered(x, first, mid, t);
      steps := first + [Confirm];
    }
  }

  /** Exactly when the pending epoch can still be confirmed, in every state: a new lookup can meet the sink's own record
      before any other that it takes for the epoch's, or it meets none at all, or the call under way can still deliver
      the epoch.  What blocks it for ever is a committed record of the same epoch number without a connector id. */
  lemma PendingCanBeConfirmedIff(x: Exporter, t: Epoch)
    requires Sound(x) && PendingEpoch(x.progress, t)
    ensures CanConfirm(x) <==> Confirmable(x, t)
  {
    if Confirmable(x, t) {
      var steps, end := ConfirmFrom(x, t);
    } else {
      forall steps, end | Continues(x, steps, end) ensures end.progress == x.progress {
        HopelessStays(x, steps, end, t);
      }
    }
  }

  // ---- The next epoch ---------------------------------------------------------------------------------

  lemma DeliverFromIdle(x: Exporter, payload: Payload) returns (steps: seq<Step>, end: Exporter)
    requires Resting(x) && Is(payload.connector, x.world.me) && Is(payload.epoch, x.progress.transaction)
    ensures Continues(x, steps, end) && end.progress == Progress(x.progress.transaction + 1, false)
    ensures end.world.process.Up? && end.world.process.local.pc == Ready(Delivered(x.progress.transaction))
  {
    var t, s := x.progress.transaction, x.world.process.local.sink;
    if t in s.delivered { LandedIsDelivered(x.world, x.progress, t); }
    var first, x1 := SaveFromIdle(x, payload);
    var state := PreCommitted(0, RowHandle(x.world.me, x.world.topic, t, payload));
    var second, x2 := DeliverStaged(x1, AfterStage(s, t), t, state);
    end := ConfirmAnswered(x1, second, x2, t);
    steps := first + (second + [Confirm]);
    ContinuesJoin(x, first, x1, second + [Confirm], end);
  }

  /** From every state with nothing pending, the next epoch can be delivered after a restart. */
  lemma DeliverAfterRestart(x: Exporter, payload: Payload) returns (steps: seq<Step>, end: Exporter)
    requires Sound(x) && !x.progress.pending
    requires Is(payload.connector, x.world.me) && Is(payload.epoch, x.progress.transaction)
    ensures Continues(x, steps, end) && end.progress == Progress(x.progress.transaction + 1, false)
    ensures end.world.process.Up? && end.world.process.local.pc == Ready(Delivered(x.progress.transaction))
  {
    var first, x1 := Stop(x);
    PathKeepsSound(x, first, x1);
    var second, x2 := Reconnect(x1, false);
    ContinuesJoin(x, first, x1, second, x2);
    var third;
    third, end := DeliverFromIdle(x2, payload);
    steps := (first + second) + third;
    ContinuesJoin(x, first + second, x2, third, end);
  }

  /** From every state of a run, a way on that confirms what is pending and delivers the next epoch. */
  lemma DeliverNext(x: Exporter, payload: Payload) returns (steps: seq<Step>, end: Exporter)
    requires Sound(x) && (x.progress.pending ==> Confirmable(x, Settled(x.progress)))
    requires Is(payload.connector, x.world.me) && Is(payload.epoch, x.progress.transaction)
    ensures Continues(x, steps, end) && NextDelivered(x, end)
  {
    if x.progress.pending {
      var first, x1 := ConfirmFrom(x, Settled(x.progress));
      PathKeepsSound(x, first, x1);
      PathKeepsMe(x, first, x1);
      var rest;
      rest, end := DeliverAfterRestart(x1, payload);
      steps := first + rest;
      ContinuesJoin(x, first, x1, rest, end);
    } else {
      steps, end := DeliverAfterRestart(x, payload);
    }
  }

  predicate NextDelivered(x: Exporter, end: Exporter) {
    && end.progress == Progress(x.progress.transaction + 1, false)
    && end.world.process.Up? && end.world.process.local.pc == Ready(Delivered(x.progress.transaction))
  }

  /** In every state a run reaches, whatever happened before: some way on delivers the next epoch if and only if nothing
      is pending or what is pending can be confirmed. */
  lemma NextEpochCanBeDeliveredIff(me: nat, topic: string, partitions: nat, run: seq<Step>)
    requires partitions > 0 && DriverRun(Initial(me, topic, partitions), run).Some?
    ensures var x := DriverRun(Initial(me, topic, partitions), run).value;
            (exists steps, end :: Continues(x, steps, end) && NextDelivered(x, end))
            <==> (x.progress.pending ==> Confirmable(x, Settled(x.progress)))
  {
    var x := DriverRun(Initial(me, topic, partitions), run).value;
    DriverRunIsSound(me, topic, partitions, run);
    if x.progress.pending ==> Confirmable(x, Settled(x.progress)) {
      var steps, end := DeliverNext(x, Payload(Some(x.world.me), Some(x.progress.transaction), Text("")));
    } else {
      forall steps, end | Continues(x, steps, end) ensures end.progress == x.progress {
        HopelessStays(x, steps, end, Settled(x.progress));
      }
    }
  }

  lemma {:induction false} PathKeepsMe(x: Exporter, steps: seq<Step>, end: Exporter)
    requires Continues(x, steps, end)
    ensures end.world.me == x.world.me
    decreases |steps|
  {
    if steps != [] {
      var front := steps[..|steps| - 1];
      PathKeepsMe(x, front, Path(Exporting(), x, front).value);
    }
  }
}
