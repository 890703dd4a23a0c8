/** When the pending epoch can be confirmed by the process that is running, without a restart. */
module KafkaUninterrupted {
  import opened Prelude
  import opened Paths
  import opened KafkaSinkMachine
  import opened KafkaBroker
  import opened KafkaProtocol
  import opened KafkaInvariant
  import opened KafkaRuns
  import opened KafkaViewDriver
  import opened KafkaTidy
  import opened KafkaProgress
  import opened KafkaRecovery
  import opened KafkaRestart

  // ---- The condition ---------------------------------------------------------------------------------

  ghost predicate CanConfirmHere(x: Exporter) {
    exists steps, end :: Proceeds(x, steps, end) && end.progress == Progress(x.progress.transaction, false)
  }

  ghost predicate OwnFound(w: World, t: Epoch) { exists u :: FoundFirst(w.broker, w.me, t, u) }

  /** The process is up and not halted, and either the call under way can still deliver the epoch, or a new lookup can
      meet the sink's own record first, or it meets none and the producer holds no transaction, or one that the call
      under way can still be rid of. */
  ghost predicate ConfirmableHere(x: Exporter, t: Epoch) {
    var w := x.world;
    && w.process.Up? && !w.process.local.pc.Halted?
    && (|| InFlight(w)
        || OwnFound(w, t)
        || (NothingMatches(w.broker, w.me, t) && (w.producer.current.None? || Filling(w.process.local.pc))))
  }

  // ---- Looking again ---------------------------------------------------------------------------------

  /** An attempt whose commit was asked for can land. */
  lemma LandFound(x: Exporter, t: Epoch, u: nat) returns (end: Exporter)
    requires Sound(x) && FoundFirst(x.world.broker, x.world.me, t, u) && x.world.broker.txns[u].status.Open?
    ensures Advance(x, Settle(u, true)) == Some(end)
    ensures end == x.(world := x.world.(broker := SetStatus(x.world.broker, u, Landed)))
    ensures FoundFirst(end.world.broker, x.world.me, t, u)
  {
    var b, me := x.world.broker, x.world.me;
    var b' := SetStatus(b, u, Landed);
    end := x.(world := x.world.(broker := b'));
    forall i | 0 <= i < b.txns[u].at.value && InRange(b', 0, i) && StatusAt(b', 0, i).Landed?
      ensures !Matches(me, t, b'.logs[0][i].payload)
    {
      assert EntryOk(b, me, 0, i) && InRange(b, 0, i);
    }
  }

  lemma FoundSame(b: Broker, b': Broker, me: nat, t: Epoch, u: nat)
    requires SameLanded(b, b') && FoundFirst(b, me, t, u) && b.txns[u].status.Landed?
    ensures FoundFirst(b', me, t, u)
  {
    NoMatchSame(b, b', me, t, 0, b.txns[u].at.value);
  }

  /** From between calls, with every open transaction timed out first. */
  lemma QuietAndRecover(x: Exporter, t: Epoch) returns (steps: seq<Step>, end: Exporter)
    requires Sound(x) && PendingEpoch(x.progress, t) && x.world.process.Up? && x.world.process.local.pc.Ready?
    requires LookupWorks(x.world, t)
    requires OwnFound(x.world, t) ==>
               exists u: nat :: FoundFirst(x.world.broker, x.world.me, t, u) && x.world.broker.txns[u].status.Landed?
    ensures Proceeds(x, steps, end) && Answered(x, end, t)
  {
    var first, x1 := SettleFrom(x, 0);
    PathKeepsSound(x, first, x1);
    if u: nat :| FoundFirst(x.world.broker, x.world.me, t, u) && x.world.broker.txns[u].status.Landed? {
      FoundSame(x.world.broker, x1.world.broker, x.world.me, t, u);
    } else {
      NothingMatchesSame(x.world.broker, x1.world.broker, x.world.me, t);
    }
    var rest;
    rest, end := RecoverPending(x1, t);
    steps := first + rest;
    ContinuesJoin(x, first, x1, rest, end);
  }

  lemma RecoverHere(x: Exporter, t: Epoch) returns (steps: seq<Step>, end: Exporter)
    requires Sound(x) && PendingEpoch(x.progress, t) && x.world.process.Up? && x.world.process.local.pc.Ready?
    requires LookupWorks(x.world, t)
    ensures Proceeds(x, steps, end) && Answered(x, end, t)
  {
    if u: nat :| FoundFirst(x.world.broker, x.world.me, t, u) && x.world.broker.txns[u].status.Open? {
      var x1 := LandFound(x, t, u);
      StepKeepsSound(x, Settle(u, true));
      Stay(x);
      Take(x, [], x, Settle(u, true), x1);
      var rest;
      rest, end := QuietAndRecover(x1, t);
      steps := ([] + [Settle(u, true)]) + rest;
      ContinuesJoin(x, [] + [Settle(u, true)], x1, rest, end);
    } else {
      steps, end := QuietAndRecover(x, t);
    }
  }

  // ---- Getting back to between calls --------------------------------------------------------------------

  /** The call under way has failed, the topic is as it was, and a new lookup works. */
  ghost predicate ReadyAgain(x: Exporter, end: Exporter, t: Epoch) {
    && end.progress == x.progress && end.world.ledger == x.world.ledger
    && end.world.process.Up? && end.world.process.local.pc.Ready? && LookupWorks(end.world, t)
  }

  /** A commit of a dropped transaction fails and leaves the producer free. */
  const RELEASE := Client(CommitTxn(false), Untouched, true, 0)

  lemma Release(x: Exporter, t: Epoch) returns (end: Exporter)
    requires x.world.process.Up? && (x.world.process.local.pc.CommitOpen? || x.world.process.local.pc.RecoverCommit?)
    requires Resolvable(x.world.broker, x.world.producer) && !Undropped(x.world)
    requires OwnFound(x.world, t) || NothingMatches(x.world.broker, x.world.me, t)
    ensures Advance(x, RELEASE) == Some(end) && ReadyAgain(x, end, t)
  {
    end := Exporter(Do(x.world, RELEASE), x.progress);
    assert end.world.broker == x.world.broker;
  }

  /** A forced abort gets through. */
  lemma ForcedAbortEnds(x: Exporter, t: Epoch) returns (end: Exporter)
    requires Sound(x) && x.world.process.Up? && x.world.process.local.pc.ForcedAbort?
    requires OwnFound(x.world, t) || NothingMatches(x.world.broker, x.world.me, t)
    ensures Advance(x, Quietly(AbortTxn(true))) == Some(end) && ReadyAgain(x, end, t)
  {
    var w, b := x.world, x.world.broker;
    end := Exporter(Do(w, Quietly(AbortTxn(true))), x.progress);
    assert SameLanded(b, end.world.broker);
    if u: nat :| FoundFirst(b, w.me, t, u) {
      assert Own(b, u) && OwnTxnOk(b, w.producer, w.ledger, w.horizon, u);
      FoundSame(b, end.world.broker, w.me, t, u);
    } else {
      NothingMatchesSame(b, end.world.broker, w.me, t);
    }
  }

  /** A lookup, or the begin after it, can fail. */
  lemma GiveUp(x: Exporter, t: Epoch) returns (s: Step, end: Exporter)
    requires x.world.process.Up? && (x.world.process.local.pc.Lookup? || x.world.process.local.pc.RecoverBegin?)
    requires LookupWorks(x.world, t)
    ensures Advance(x, s) == Some(end) && ReadyAgain(x, end, t) && !Restarts(s)
  {
    var pc := x.world.process.local.pc;
    s := Quietly(if pc.RecoverBegin? then Begin(false) else if pc.scan.Polling? then DeadlinePassed else SetupFailed);
    end := Exporter(Do(x.world, s), x.progress);
    assert end.world.broker == x.world.broker && end.world.producer == x.world.producer;
  }

  /** An epoch of which nothing is in the topic has not been delivered. */
  lemma NothingMatchesNotDelivered(x: Exporter, t: Epoch)
    requires Sound(x) && NothingMatches(x.world.broker, x.world.me, t) && x.world.process.Up?
    ensures t !in x.world.process.local.sink.delivered
  {
    var b, me := x.world.broker, x.world.me;
    if HasLanded(b, t) {
      var u :| OwnOf(b, u, t) && b.txns[u].status.Landed?;
      LandedRecord(x.world, t, u);
      assert TxnOk(b, me, u);
      assert EntryOk(b, me, 0, b.txns[u].at.value);
      assert MatchAt(b, me, t, 0, b.txns[u].at.value);
    }
  }

  /** Asking for the commit of a dropped transaction, and being refused. */
  lemma CommitInVain(x: Exporter, t: Epoch) returns (steps: seq<Step>, end: Exporter)
    requires Sound(x) && PendingEpoch(x.progress, t) && x.world.process.Up? && x.world.process.local.pc.Ready?
    requires x.world.process.local.pc.last.Staged? && !Undropped(x.world)
    requires NothingMatches(x.world.broker, x.world.me, t)
    ensures Proceeds(x, steps, end) && ReadyAgain(x, end, t)
  {
    var s, last := x.world.process.local.sink, x.world.process.local.pc.last;
    var call := Quietly(CommitCall(t, last.state, false));
    NothingMatchesNotDelivered(x, t);
    Stay(x);
    CheckpointStep(x.world, s, last, t);
    var x1 := Exporter(Do(x.world, Quietly(SetClusterCommitted(t))), x.progress);
    Take(x, [], x, Quietly(SetClusterCommitted(t)), x1);
    CommitCallStep(x1.world, s.(clusterCommitted := t), last, t, last.state);
    var x2 := Exporter(Do(x1.world, call), x.progress);
    Take(x, [] + [Quietly(SetClusterCommitted(t))], x1, call, x2);
    end := Release(x2, t);
    steps := [] + [Quietly(SetClusterCommitted(t))] + [call];
    Take(x, steps, x2, RELEASE, end);
    steps := steps + [RELEASE];
  }

  lemma SendInVain(x: Exporter, t: Epoch) returns (steps: seq<Step>, end: Exporter)
    requires Sound(x) && x.world.process.Up? && x.world.process.local.pc.RecoverSend? && !Undropped(x.world)
    requires OwnFound(x.world, t) || NothingMatches(x.world.broker, x.world.me, t)
    ensures Proceeds(x, steps, end) && ReadyAgain(x, end, t)
  {
    var l := x.world.process.local;
    Stay(x);
    RecoverSendStep(x.world, l.sink, l.pc.epoch, l.pc.payload, true);
    var x1 := Exporter(Do(x.world, Quietly(Send(true))), x.progress);
    Take(x, [], x, Quietly(Send(true)), x1);
    end := Release(x1, t);
    Take(x, [] + [Quietly(Send(true))], x1, RELEASE, end);
    steps := [] + [Quietly(Send(true))] + [RELEASE];
  }

  /** Where the sink can be while an epoch is pending. */
  lemma PendingAt(x: Exporter)
    requires Sound(x) && x.progress.pending && x.world.process.Up?
    ensures var pc := x.world.process.local.pc;
            || pc.Ready? || pc.CommitOpen? || pc.ForcedAbort? || pc.Lookup? || pc.RecoverBegin? || pc.RecoverSend?
            || pc.RecoverCommit? || pc.Halted?
  {
  }

  /** A held transaction of a call under way is in the broker. */
  lemma HeldIsKnown(x: Exporter)
    requires Sound(x) && x.world.process.Up? && Filling(x.world.process.local.pc)
    ensures Resolvable(x.world.broker, x.world.producer)
  {
  }

  /** Any call under way that cannot deliver the epoch can be ended so that a new lookup works. */
  lemma EndCall(x: Exporter, t: Epoch) returns (s: Step, end: Exporter)
    requires Sound(x) && PendingEpoch(x.progress, t) && ConfirmableHere(x, t) && !InFlight(x.world)
    requires !x.world.process.local.pc.Ready? && !x.world.process.local.pc.RecoverSend?
    ensures Advance(x, s) == Some(end) && ReadyAgain(x, end, t) && !Restarts(s)
  {
    var pc := x.world.process.local.pc;
    PendingAt(x);
    if pc.CommitOpen? || pc.RecoverCommit? {
      HeldIsKnown(x);
      end := Release(x, t);
      s := RELEASE;
    } else if pc.ForcedAbort? {
      end := ForcedAbortEnds(x, t);
      s := Quietly(AbortTxn(true));
    } else {
      s, end := GiveUp(x, t);
    }
  }

  /** Wherever the process is, it can get to where a new lookup works. */
  lemma ToReady(x: Exporter, t: Epoch) returns (steps: seq<Step>, end: Exporter)
    requires Sound(x) && PendingEpoch(x.progress, t) && ConfirmableHere(x, t) && !InFlight(x.world)
    ensures Proceeds(x, steps, end) && ReadyAgain(x, end, t)
  {
    var pc := x.world.process.local.pc;
    if pc.Ready? && LookupWorks(x.world, t) {
      steps, end := [], x;
      Stay(x);
    } else if pc.Ready? {
      steps, end := CommitInVain(x, t);
    } else if pc.RecoverSend? {
      steps, end := SendInVain(x, t);
    } else {
      var s;
      s, end := EndCall(x, t);
      Stay(x);
      Take(x, [], x, s, end);
      steps := [] + [s];
    }
  }

  lemma ConfirmHere(x: Exporter, t: Epoch) returns (steps: seq<Step>, end: Exporter)
    requires Sound(x) && PendingEpoch(x.progress, t) && ConfirmableHere(x, t)
    ensures Proceeds(x, steps, end) && end.progress == Progress(x.progress.transaction, false)
  {
    var mid;
    if InFlight(x.world) {
      steps, mid := DeliverInFlight(x, t);
    } else {
      var first, x1 := ToReady(x, t);
      PathKeepsSound(x, first, x1);
      var rest;
      rest, mid := RecoverHere(x1, t);
      ContinuesJoin(x, first, x1, rest, mid);
      steps := first + rest;
    }
    end := ConfirmAnswered(x, steps, mid, t);
    steps := steps + [Confirm];
  }

  // ---- When it takes a restart -------------------------------------------------------------------------

  /** The producer holds a transaction that no call is working on, so that no other can begin. */
  ghost predicate Stuck(x: Exporter, t: Epoch) {
    var w := x.world;
    && w.process.Up? && w.producer.current.Some? && !OwnFound(w, t)
    && match w.process.local.pc
       case Ready(last) => !last.Staged? && !last.Delivered?
       case Lookup(_, _, _, _) => true
       case RecoverBegin(_, _) => true
       case _ => false
  }

  /** The process is down or halted, or the epoch cannot be confirmed at all, or the producer is stuck. */
  ghost predicate Stranded(x: Exporter, t: Epoch) {
    PendingEpoch(x.progress, t) &&
    (x.world.process.Down? || x.world.process.local.pc.Halted? || Hopeless(x, t) || Stuck(x, t))
  }

  lemma StrandedOtherwise(x: Exporter, t: Epoch)
    requires Sound(x) && PendingEpoch(x.progress, t)
    ensures Stranded(x, t) || ConfirmableHere(x, t)
  {
    if x.world.process.Up? { PendingAt(x); }
  }

  lemma NotFoundAgain(b: Broker, b': Broker, me: nat, t: Epoch)
    requires WellFormed(b, me) && NothingNew(b, b', t) && !exists u :: FoundFirst(b, me, t, u)
    ensures !exists u :: FoundFirst(b', me, t, u)
  {
    NotFoundStays(b, b', me, t);
  }

  lemma EnvironmentStaysStuck(x: Exporter, s: Step, t: Epoch)
    requires Sound(x) && PendingEpoch(x.progress, t) && Stuck(x, t) && Advance(x, s).Some? && !s.Client? && !Restarts(s)
    ensures Stuck(Advance(x, s).value, t) && Advance(x, s).value.progress == x.progress
  {
    EnvironmentNothingNew(x.world, s, t);
    NotFoundAgain(x.world.broker, Do(x.world, s).broker, x.world.me, t);
  }

  lemma ClientStaysStuck(x: Exporter, s: Step, t: Epoch)
    requires Sound(x) && PendingEpoch(x.progress, t) && Stuck(x, t) && Advance(x, s).Some? && s.Client?
    ensures Stuck(Advance(x, s).value, t) || Advance(x, s).value.world.process.local.pc.Halted?
  {
    var w, w' := x.world, Do(x.world, s);
    assert w'.broker == w.broker && w'.producer == w.producer;
    if w.process.local.pc.Lookup? && s.event.Poll? && s.event.result.Message? {
      var payload := s.event.result.payload;
      if Matches(w.me, t, payload) && payload == w.ledger.handles[t] { SavedBytesAreFoundFirst(x, s, t); }
    }
  }

  lemma StepStaysStranded(x: Exporter, s: Step, t: Epoch)
    requires Sound(x) && Stranded(x, t) && Advance(x, s).Some? && !Restarts(s)
    ensures Stranded(Advance(x, s).value, t) && Advance(x, s).value.progress == x.progress
  {
    if x.world.process.Down? || x.world.process.local.pc.Halted? {
    } else if Hopeless(x, t) {
      StepStaysHopeless(x, s, t);
    } else if s.Client? {
      ClientStaysStuck(x, s, t);
    } else {
      EnvironmentStaysStuck(x, s, t);
    }
  }

  lemma {:induction false} StrandedStays(x: Exporter, steps: seq<Step>, end: Exporter, t: Epoch)
    requires Sound(x) && Stranded(x, t) && Proceeds(x, steps, end)
    ensures Sound(end) && Stranded(end, t) && end.progress == x.progress
    decreases |steps|
  {
    if steps != [] {
      var front, s := steps[..|steps| - 1], steps[|steps| - 1];
      var before := Path(Exporting(), x, front).value;
      StrandedStays(x, front, before, t);
      StepKeepsSound(before, s);
      StepStaysStranded(before, s, t);
    }
  }

  /** Exactly when the running process can confirm the pending epoch by itself.  The states that take a restart, beyond
      those from which the epoch can never be confirmed, are a process that is down or halted, and one whose producer
      was left in a transaction by a failed recovery: no later one can begin. */
  lemma PendingNeedsNoRestartIff(x: Exporter, t: Epoch)
    requires Sound(x) && PendingEpoch(x.progress, t)
    ensures CanConfirmHere(x) <==> ConfirmableHere(x, t)
  {
    if ConfirmableHere(x, t) {
      var steps, end := ConfirmHere(x, t);
    } else {
      StrandedOtherwise(x, t);
      forall steps, end | Proceeds(x, steps, end) ensures end.progress == x.progress {
        StrandedStays(x, steps, end, t);
      }
    }
  }
}
