/** The guarantees of the two-phase commit over every disciplined run. */
module KafkaExactlyOnce {
  import opened Prelude
  import opened KafkaSinkMachine
  import opened KafkaBroker
  import opened KafkaProtocol
  import opened KafkaInvariant
  import KafkaSteps
  import KafkaLookup

  /** A committed record that is a row envelope of this connector and epoch.  It is what a read-committed consumer
      sees, possibly after records before it have been resolved. */
  ghost predicate Visible(b: Broker, me: nat, epoch: Epoch, q: nat, i: nat) {
    && InRange(b, q, i) && StatusAt(b, q, i).Landed?
    && Is(b.logs[q][i].payload.connector, me) && Is(b.logs[q][i].payload.epoch, epoch)
  }

  /** `w` is where some disciplined run from an empty topic leads. */
  ghost predicate Reached(w: World, me: nat, topic: string, partitions: nat, steps: seq<Step>) {
    var start := Initial(me, topic, partitions);
    partitions > 0 && Disciplined(start, steps) && Run(start, steps).Some? && Run(start, steps).value == w
  }

  // ---- The invariant holds along every run ------------------------------------------------------

  lemma CallKeepsInv(w: World, s: Step)
    requires Inv(w) && s.Client? && Possible(w, s) && Allowed(w, s) && w.process.local.pc.Ready?
    ensures Inv(Do(w, s))
  {
    match s.event {
      case PreCommitPayloadCall(_, _, _) => KafkaSteps.StageCallKeepsInv(w, s);
      case CommitCall(_, _, _) => KafkaSteps.CommitCallKeepsInv(w, s);
      case AbortCall(_) => KafkaSteps.CommitCallKeepsInv(w, s);
      case RecoverCall(_, _) => KafkaSteps.RecoverCallKeepsInv(w, s);
      case NoopRecoverCall => KafkaSteps.OtherCallKeepsInv(w, s);
      case SetClusterCommitted(_) => KafkaSteps.OtherCallKeepsInv(w, s);
    }
  }

  lemma ClientKeepsInv(w: World, s: Step)
    requires Inv(w) && s.Client? && Possible(w, s) && Allowed(w, s)
    ensures Inv(Do(w, s))
  {
    match w.process.local.pc {
      case Ready(_) => CallKeepsInv(w, s);
      case Lookup(_, _, _, scan) =>
        match scan {
          case Setup => KafkaLookup.SetupKeepsInv(w, s);
          case Capture(_, _, _, _) => KafkaLookup.CaptureKeepsInv(w, s);
          case Polling(_) => KafkaLookup.PollKeepsInv(w, s);
        }
      case _ => AnswerKeepsInv(w, s);
    }
  }

  lemma AnswerKeepsInv(w: World, s: Step)
    requires Inv(w) && s.Client? && Possible(w, s)
    requires !w.process.local.pc.Ready? && !w.process.local.pc.Lookup?
    ensures Inv(Do(w, s))
  {
    match s.event {
      case Begin(_) => KafkaSteps.BeginKeepsInv(w, s);
      case Send(_) => KafkaSteps.SendKeepsInv(w, s);
      case CommitTxn(ok) =>
        if ok { KafkaSteps.CommitOkKeepsInv(w, s); } else { KafkaSteps.FailedRequestKeepsInv(w, s); }
      case AbortTxn(ok) =>
        if ok { KafkaSteps.AbortOkKeepsInv(w, s); } else { KafkaSteps.FailedRequestKeepsInv(w, s); }
    }
  }

  lemma StepKeepsInv(w: World, s: Step)
    requires Inv(w) && Possible(w, s) && Allowed(w, s)
    ensures Inv(Do(w, s))
  {
    match s {
      case Client(_, _, _, _) => ClientKeepsInv(w, s);
      case Persist => KafkaSteps.PersistKeepsInv(w);
      case Confirm => KafkaSteps.ConfirmKeepsInv(w);
      case Forget => KafkaSteps.ForgetKeepsInv(w);
      case Crash =>
      case Connect(landLeftover) => KafkaSteps.ConnectKeepsInv(w, landLeftover);
      case _ => KafkaSteps.BackgroundKeepsInv(w, s);
    }
  }

  lemma {:induction false} RunKeepsInv(w: World, steps: seq<Step>)
    requires Inv(w) && Disciplined(w, steps) && Run(w, steps).Some?
    ensures Inv(Run(w, steps).value)
    ensures Run(w, steps).value.me == w.me
  {
    if steps != [] {
      var prefix := steps[..|steps| - 1];
      RunKeepsInv(w, prefix);
      StepKeepsInv(Run(w, prefix).value, steps[|steps| - 1]);
    }
  }

  lemma ReachedInv(w: World, me: nat, topic: string, partitions: nat, steps: seq<Step>)
    requires Reached(w, me, topic, partitions, steps)
    ensures Inv(w) && w.me == me
  {
    RunKeepsInv(Initial(me, topic, partitions), steps);
  }

  // ---- Main results -----------------------------------------------------------------------------

  lemma VisibleIsOwn(b: Broker, me: nat, epoch: Epoch, q: nat, i: nat)
    requires WellFormed(b, me) && Visible(b, me, epoch, q, i)
    ensures var t := b.logs[q][i].txn;
            OwnOf(b, t, epoch) && q == 0 && Is(b.txns[t].at, i) && b.txns[t].own.value.payload == b.logs[q][i].payload
  {
    assert EntryOk(b, me, q, i);
    assert TxnOk(b, me, b.logs[q][i].txn);
  }

  /** Exactly once: in every disciplined run, however it mixes staging, commits, forced aborts, failed commits of
      unknown outcome, aborts, crashes, reconnects and recoveries, the topic never holds two committed row envelopes
      of the same connector and epoch. */
  lemma AtMostOneEnvelopePerEpoch(w: World, me: nat, topic: string, partitions: nat, steps: seq<Step>, epoch: Epoch,
                                  q: nat, i: nat, q': nat, i': nat)
    requires Reached(w, me, topic, partitions, steps)
    requires Visible(w.broker, me, epoch, q, i) && Visible(w.broker, me, epoch, q', i')
    ensures q == q' && i == i'
  {
    ReachedInv(w, me, topic, partitions, steps);
    VisibleIsOwn(w.broker, me, epoch, q, i);
    VisibleIsOwn(w.broker, me, epoch, q', i');
    assert RivalsOk(w.broker, w.producer, w.broker.logs[q][i].txn, w.broker.logs[q'][i'].txn);
  }

  lemma LandedIsVisible(w: World, epoch: Epoch) returns (i: nat)
    requires Inv(w) && HasLanded(w.broker, epoch) && epoch in w.ledger.handles
    ensures Visible(w.broker, w.me, epoch, 0, i) && w.broker.logs[0][i].payload == w.ledger.handles[epoch]
  {
    var b := w.broker;
    var t :| OwnOf(b, t, epoch) && b.txns[t].status.Landed?;
    assert Own(b, t) && OwnTxnOk(b, w.producer, w.ledger, w.horizon, t);
    i := b.txns[t].at.value;
    assert TxnOk(b, w.me, t) && EntryOk(b, w.me, 0, i);
  }

  /** No loss: whenever `commit` or `recover` has returned success for an epoch, a committed record with exactly the
      persisted payload is in the topic, and the sink has moved the epoch from staged to delivered. */
  lemma SuccessMeansDelivered(w: World, me: nat, topic: string, partitions: nat, steps: seq<Step>, epoch: Epoch)
    returns (i: nat)
    requires Reached(w, me, topic, partitions, steps)
    requires w.process.Up? && w.process.local.pc == Ready(Delivered(epoch))
    ensures epoch in w.ledger.handles
    ensures Visible(w.broker, me, epoch, 0, i) && w.broker.logs[0][i].payload == w.ledger.handles[epoch]
    ensures epoch in w.process.local.sink.delivered && epoch !in w.process.local.sink.staged
  {
    ReachedInv(w, me, topic, partitions, steps);
    i := LandedIsVisible(w, epoch);
  }

  /** What the driver has confirmed stays delivered for ever, in whatever state the process is. */
  lemma ConfirmedMeansDelivered(w: World, me: nat, topic: string, partitions: nat, steps: seq<Step>, epoch: Epoch)
    returns (i: nat)
    requires Reached(w, me, topic, partitions, steps) && epoch in w.ledger.done
    ensures epoch in w.ledger.handles
    ensures Visible(w.broker, me, epoch, 0, i) && w.broker.logs[0][i].payload == w.ledger.handles[epoch]
  {
    ReachedInv(w, me, topic, partitions, steps);
    i := LandedIsVisible(w, epoch);
  }

  /** Checkpoint coupling over whole runs: every committed envelope, and every epoch the sink holds as delivered, is
      covered by a cluster checkpoint that was announced to the sink. */
  lemma DeliveredOnlyAfterCheckpoint(w: World, me: nat, topic: string, partitions: nat, steps: seq<Step>,
          epoch: Epoch, q: nat, i: nat)
    requires Reached(w, me, topic, partitions, steps)
    requires Visible(w.broker, me, epoch, q, i) || (w.process.Up? && epoch in w.process.local.sink.delivered)
    ensures epoch <= w.horizon
  {
    ReachedInv(w, me, topic, partitions, steps);
    var b := w.broker;
    var t: int;
    if Visible(b, me, epoch, q, i) {
      VisibleIsOwn(b, me, epoch, q, i);
      t := b.logs[q][i].txn;
    } else {
      t :| OwnOf(b, t, epoch) && b.txns[t].status.Landed?;
    }
    assert Own(b, t) && OwnTxnOk(b, w.producer, w.ledger, w.horizon, t);
  }

  /** Only a commit request, or a lookup that found the record, delivers anything. */
  lemma WhoDelivers(w: World, s: Step, epoch: Epoch)
    requires Inv(w) && s.Client? && Possible(w, s)
    requires epoch in Next(w.process.local, s.event).value.sink.delivered && epoch !in w.process.local.sink.delivered
    ensures var pc := w.process.local.pc; (pc.CommitOpen? || pc.RecoverCommit? || pc.Lookup?) && pc.epoch == epoch
  {
  }

  lemma WhoLands(w: World, s: Step, epoch: Epoch, t: nat)
    requires Inv(w) && s.Client? && Possible(w, s)
    requires OwnOf(Do(w, s).broker, t, epoch) && Do(w, s).broker.txns[t].status.Landed?
    requires !(OwnOf(w.broker, t, epoch) && w.broker.txns[t].status.Landed?)
    ensures var pc := w.process.local.pc; (pc.CommitOpen? || pc.RecoverCommit?) && pc.epoch == epoch
  {
    assert s.event.CommitTxn?;
  }

  /** Checkpoint coupling at the moment itself: a step of the sink that lands an own transaction, or adds an epoch to
      the delivered set, does so for an epoch at most the sink's current checkpoint. */
  lemma StepDeliversOnlyAfterCheckpoint(w: World, s: Step, me: nat, topic: string, partitions: nat, steps: seq<Step>,
          epoch: Epoch, t: nat)
    requires Reached(w, me, topic, partitions, steps) && s.Client? && Possible(w, s)
    requires var w' := Do(w, s);
             || (OwnOf(w'.broker, t, epoch) && w'.broker.txns[t].status.Landed?
                 && !(OwnOf(w.broker, t, epoch) && w.broker.txns[t].status.Landed?))
             || (epoch in w'.process.local.sink.delivered && epoch !in w.process.local.sink.delivered)
    ensures epoch <= w.process.local.sink.clusterCommitted
  {
    ReachedInv(w, me, topic, partitions, steps);
    if epoch in Do(w, s).process.local.sink.delivered && epoch !in w.process.local.sink.delivered {
      WhoDelivers(w, s, epoch);
    } else {
      WhoLands(w, s, epoch, t);
    }
  }

  /** An "absent" verdict cannot be overtaken: whenever the recovery transaction can really begin, every earlier attempt
      at the epoch, of this process or of one before it, is dropped for good. */
  lemma RecoveryBeginsOnlyAlone(w: World, me: nat, topic: string, partitions: nat, steps: seq<Step>)
    requires Reached(w, me, topic, partitions, steps)
    requires w.process.Up? && w.process.local.pc.RecoverBegin?
    requires Possible(w, Client(Begin(true), Untouched, false, 0))
    ensures AllDropped(w.broker, w.process.local.pc.epoch)
  {
    ReachedInv(w, me, topic, partitions, steps);
    var b := w.broker;
    forall t | OwnOf(b, t, w.process.local.pc.epoch) ensures b.txns[t].status.Dropped? {
      assert Own(b, t) && OwnTxnOk(b, w.producer, w.ledger, w.horizon, t);
    }
  }

  /** The lookup turns to "absent" only when no committed record of the epoch lies below the captured watermarks. */
  lemma AbsentIsSound(w: World, s: Step, me: nat, topic: string, partitions: nat, steps: seq<Step>)
    requires Reached(w, me, topic, partitions, steps)
    requires s.Client? && Possible(w, s) && w.process.local.pc.Lookup? && Do(w, s).process.local.pc.RecoverBegin?
    ensures KafkaLookup.AbsentBelowHighs(Do(w, s), w.process.local.pc.epoch)
  {
    ReachedInv(w, me, topic, partitions, steps);
    assert s.event.Poll? && s.event.result.Eof?;
    KafkaLookup.EofKeepsInv(w, s);
  }
}
